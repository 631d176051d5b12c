/**
  The tool registry: names bound to definitions, every binding with a generation of its own. Catalogs and prepared
  invocations remember generations, so that a replaced definition is never run under the old one's name.
 */
module Registry {
  import opened Common
  import opened Text

  type HandlerId = nat

  datatype Effect = UnknownEffect | Read | Write | Execute

  /** What an owner registers; `schemaOk` is the verdict of the schema compiler, which is not modelled. */
  datatype Definition = Definition(name: string, body: string, schemaOk: bool, handler: Option<HandlerId>)

  datatype Tool = Tool(name: string, body: string, handler: HandlerId, generation: nat)

  /** The source keeps one map per column; here a name has all its columns or none. */
  datatype State = State(tools: map<string, Tool>, effects: map<string, Effect>, owners: map<string, string>,
                         generation: nat)

  datatype RegistryError =
    | Incomplete | BadSchema | Duplicate | NoOwner | OutsideNamespace | OtherOwner

  datatype Update = Update(owner: string, definitions: seq<Definition>)

  // ---------------------------------------------------------------------------
  // Registration
  // ---------------------------------------------------------------------------

  function Fault(d: Definition): Option<RegistryError> {
    if TrimSpace(d.name) == "" || d.handler.None? then Some(Incomplete)
    else if !d.schemaOk then Some(BadSchema)
    else None
  }

  /** One binding under the next generation; nothing says what it may do. */
  function Bind(s: State, d: Definition, owner: Option<string>): State
    requires d.handler.Some?
  {
    var name := TrimSpace(d.name);
    s.(tools := s.tools[name := Tool(name, d.body, d.handler.value, s.generation + 1)],
       effects := s.effects[name := UnknownEffect],
       owners := if owner.Some? then s.owners[name := owner.value] else s.owners,
       generation := s.generation + 1)
  }

  function Register(s: State, d: Definition): Result<State, RegistryError> {
    if Fault(d).Some? then Err(Fault(d).value)
    else if TrimSpace(d.name) in s.tools then Err(Duplicate)
    else Ok(Bind(s, d, None))
  }

  /** The scratch registry that bulk updates validate into: the first fault of the list, if any. */
  function StageFault(ds: seq<Definition>): Option<RegistryError> {
    if ds == [] then None
    else
      var n := |ds| - 1;
      if StageFault(ds[..n]).Some? then StageFault(ds[..n])
      else if Fault(ds[n]).Some? then Fault(ds[n])
      else if TrimSpace(ds[n].name) in Names(ds[..n]) then Some(Duplicate)
      else None
  }

  function Names(ds: seq<Definition>): set<string> { set d | d in ds :: TrimSpace(d.name) }

  predicate Complete(ds: seq<Definition>) { forall d :: d in ds ==> d.handler.Some? }

  lemma {:induction false} StagedIsComplete(ds: seq<Definition>)
    requires StageFault(ds).None?
    ensures Complete(ds)
  {
    hide TrimSpace, Names;
    if ds != [] {
      StagedIsComplete(ds[..|ds| - 1]);
      assert ds == ds[..|ds| - 1] + [ds[|ds| - 1]];
    }
  }

  /** Definitions are published one by one, in whatever order the map of staged names is walked. */
  function BindAll(s: State, ds: seq<Definition>, owners: Option<map<string, string>>): (r: State)
    requires Complete(ds)
  {
    if ds == [] then s
    else
      var d := ds[|ds| - 1];
      Bind(BindAll(s, ds[..|ds| - 1], owners), d,
           if owners.Some? then Some(OwnerOf(owners.value, TrimSpace(d.name))) else None)
  }

  function RegisterAll(s: State, ds: seq<Definition>): Result<State, RegistryError> {
    if StageFault(ds).Some? then Err(StageFault(ds).value)
    else if Names(ds) * s.tools.Keys != {} then Err(Duplicate)
    else
      StagedIsComplete(ds);
      Ok(BindAll(s, ds, None))
  }

  // ---------------------------------------------------------------------------
  // Namespaces
  // ---------------------------------------------------------------------------

  /** A missing entry reads as the empty string. */
  function OwnerOf(owners: map<string, string>, name: string): string { if name in owners then owners[name] else "" }

  function AllDefinitions(us: seq<Update>): seq<Definition> {
    if us == [] then [] else AllDefinitions(us[..|us| - 1]) + us[|us| - 1].definitions
  }

  /** The owner of each staged definition, keyed by the name as it was written. */
  function Claims(owner: string, ds: seq<Definition>, before: map<string, string>): map<string, string> {
    if ds == [] then before else Claims(owner, ds[..|ds| - 1], before)[ds[|ds| - 1].name := owner]
  }

  function AllClaims(us: seq<Update>): map<string, string> {
    if us == [] then map[] else Claims(us[|us| - 1].owner, us[|us| - 1].definitions, AllClaims(us[..|us| - 1]))
  }

  predicate Inside(u: Update) {
    u.owner != "" && forall d :: d in u.definitions ==> u.owner + "_" <= d.name
  }

  function Owners(us: seq<Update>): set<string> { set u | u in us :: u.owner }

  /** Every binding that the updated owners hold goes. */
  function Revoked(s: State, owners: set<string>): State {
    var gone := set name | name in s.owners && s.owners[name] in owners;
    s.(tools := s.tools - gone, effects := s.effects - gone, owners := s.owners - gone)
  }

  predicate Conflict(s: State, claims: map<string, string>, name: string) {
    name in s.tools && OwnerOf(s.owners, name) != OwnerOf(claims, name)
  }

  function ReplaceNamespaces(s: State, us: seq<Update>): Result<State, RegistryError> {
    if exists u :: u in us && u.owner == "" then Err(NoOwner)
    else if exists u :: u in us && !Inside(u) then Err(OutsideNamespace)
    else if StageFault(AllDefinitions(us)).Some? then Err(StageFault(AllDefinitions(us)).value)
    else if exists name :: name in Names(AllDefinitions(us)) && Conflict(s, AllClaims(us), name) then Err(OtherOwner)
    else
      StagedIsComplete(AllDefinitions(us));
      Ok(BindAll(Revoked(s, Owners(us)), AllDefinitions(us), Some(AllClaims(us))))
  }

  // ---------------------------------------------------------------------------
  // Catalogs and invocations
  // ---------------------------------------------------------------------------

  /** The definitions advertised to one request. */
  type Catalog = map<string, Tool>

  datatype Invocation = Invocation(name: string, handler: HandlerId, body: string, generation: nat)

  datatype PrepareError = UnknownTool | Changed

  /** `expected` is the advertised generation, when the call answers a catalog. */
  function Prepare(s: State, name: string, expected: Option<nat>): Result<Invocation, PrepareError> {
    if name !in s.tools then Err(UnknownTool)
    else if expected.Some? && s.tools[name].generation != expected.value then Err(Changed)
    else Ok(Invocation(name, s.tools[name].handler, s.tools[name].body, s.tools[name].generation))
  }

  function PrepareFrom(s: State, c: Catalog, name: string): Result<Invocation, PrepareError> {
    if name !in c then Err(UnknownTool) else Prepare(s, name, Some(c[name].generation))
  }

  datatype Admission = Admitted | DefinitionChanged | AlreadyInvoked

  function Admit(s: State, i: Invocation, used: bool): Admission {
    if i.name !in s.tools || s.tools[i.name].generation != i.generation then DefinitionChanged
    else if used then AlreadyInvoked
    else Admitted
  }

  // ---------------------------------------------------------------------------
  // The registry object
  // ---------------------------------------------------------------------------

  class RegistryObject {
    var tools: map<string, Tool>
    var effects: map<string, Effect>
    var owners: map<string, string>
    var generation: nat

    function View(): State
      reads this
    {
      State(tools, effects, owners, generation)
    }

    constructor ()
      ensures View() == State(map[], map[], map[], 0)
    {
      tools, effects, owners, generation := map[], map[], map[], 0;
    }

    method BindTool(d: Definition, owner: Option<string>)
      requires d.handler.Some?
      modifies this
      ensures View() == Bind(old(View()), d, owner)
    {
      hide TrimSpace;
      var name := TrimSpace(d.name);
      generation := generation + 1;
      tools := tools[name := Tool(name, d.body, d.handler.value, generation)];
      effects := effects[name := UnknownEffect];
      if owner.Some? {
        owners := owners[name := owner.value];
      }
    }

    method RegisterOne(d: Definition) returns (e: Option<RegistryError>)
      modifies this
      ensures match Register(old(View()), d)
              case Ok(s) => e == None && View() == s
              case Err(x) => e == Some(x) && View() == old(View())
    {
      hide TrimSpace, Bind;
      var name := TrimSpace(d.name);
      if name == "" || d.handler.None? {
        return Some(Incomplete);
      }
      if !d.schemaOk {
        return Some(BadSchema);
      }
      if name in tools {
        return Some(Duplicate);
      }
      BindTool(d, None);
      return None;
    }

    /** Validates into a scratch set of names, touching nothing of the registry. */
    method Stage(ds: seq<Definition>) returns (e: Option<RegistryError>, names: set<string>)
      ensures e == StageFault(ds) && (e.None? ==> names == Names(ds))
    {
      hide TrimSpace, StageFault, Names;
      names := {};
      var i := 0;
      NothingStaged();
      while i < |ds|
        invariant 0 <= i <= |ds|
        invariant StageFault(ds[..i]).None? && names == Names(ds[..i])
      {
        StageNext(ds, i);
        var name := TrimSpace(ds[i].name);
        if name == "" || ds[i].handler.None? || !ds[i].schemaOk || name in names {
          e := if name == "" || ds[i].handler.None? then Some(Incomplete)
               else if !ds[i].schemaOk then Some(BadSchema) else Some(Duplicate);
          FaultStays(ds, i + 1);
          return;
        }
        names := names + {name};
        i := i + 1;
      }
      assert ds[..i] == ds;
      return None, names;
    }

    method BindEach(ds: seq<Definition>, claims: Option<map<string, string>>)
      requires Complete(ds)
      modifies this
      ensures View() == BindAll(old(View()), ds, claims)
    {
      hide TrimSpace, Bind, OwnerOf;
      var i := 0;
      while i < |ds|
        invariant 0 <= i <= |ds|
        invariant Complete(ds[..i])
        invariant View() == BindAll(old(View()), ds[..i], claims)
      {
        assert ds[..i + 1][..i] == ds[..i];
        assert Complete(ds[..i + 1]);
        BindTool(ds[i], if claims.Some? then Some(OwnerOf(claims.value, TrimSpace(ds[i].name))) else None);
        i := i + 1;
      }
      assert ds[..i] == ds;
    }

    method RegisterMany(ds: seq<Definition>) returns (e: Option<RegistryError>)
      modifies this
      ensures match RegisterAll(old(View()), ds)
              case Ok(s) => e == None && View() == s
              case Err(x) => e == Some(x) && View() == old(View())
    {
      var fault, names := Stage(ds);
      if fault.Some? {
        return fault;
      }
      StagedIsComplete(ds);
      if names * tools.Keys != {} {
        return Some(Duplicate);
      }
      BindEach(ds, None);
      return None;
    }

    method RevokeOwners(updated: set<string>)
      modifies this
      ensures View() == Revoked(old(View()), updated)
    {
      var before := owners;
      var todo := before.Keys;
      ghost var gone := set name | name in before && before[name] in updated;
      while todo != {}
        invariant todo <= before.Keys
        invariant owners == before - (gone - todo)
        invariant tools == old(tools) - (gone - todo)
        invariant effects == old(effects) - (gone - todo)
        invariant generation == old(generation)
      {
        var name :| name in todo;
        if before[name] in updated {
          tools, effects, owners := tools - {name}, effects - {name}, owners - {name};
        }
        todo := todo - {name};
      }
      assert gone - todo == gone;
    }

    method ReplaceOwners(us: seq<Update>) returns (e: Option<RegistryError>)
      modifies this
      ensures match ReplaceNamespaces(old(View()), us)
              case Ok(s) => e == None && View() == s
              case Err(x) => e == Some(x) && View() == old(View())
    {
      hide StageFault, BindAll, AllClaims, AllDefinitions, TrimSpace;
      if exists u :: u in us && u.owner == "" {
        return Some(NoOwner);
      }
      if exists u :: u in us && !Inside(u) {
        return Some(OutsideNamespace);
      }
      var ds, claims := AllDefinitions(us), AllClaims(us);
      var fault, names := Stage(ds);
      if fault.Some? {
        return fault;
      }
      StagedIsComplete(ds);
      if exists name :: name in names && name in tools && OwnerOf(owners, name) != OwnerOf(claims, name) {
        return Some(OtherOwner);
      }
      RevokeOwners(Owners(us));
      BindEach(ds, Some(claims));
      return None;
    }
  }

  lemma NothingStaged()
    ensures StageFault([]).None? && Names([]) == {}
  {
  }

  lemma StageNext(ds: seq<Definition>, i: nat)
    requires i < |ds| && StageFault(ds[..i]).None?
    ensures StageFault(ds[..i + 1]) ==
            if Fault(ds[i]).Some? then Fault(ds[i])
            else if TrimSpace(ds[i].name) in Names(ds[..i]) then Some(Duplicate) else None
    ensures Names(ds[..i + 1]) == Names(ds[..i]) + {TrimSpace(ds[i].name)}
  {
    hide TrimSpace;
    assert ds[..i + 1][..i] == ds[..i];
    assert ds[..i + 1] == ds[..i] + [ds[i]];
  }

  lemma {:induction false} FaultStays(ds: seq<Definition>, i: nat)
    requires i <= |ds| && StageFault(ds[..i]).Some?
    ensures StageFault(ds) == StageFault(ds[..i])
    decreases |ds|
  {
    if i == |ds| {
      assert ds[..i] == ds;
    } else {
      assert ds[..|ds| - 1][..i] == ds[..i];
      FaultStays(ds[..|ds| - 1], i);
    }
  }

  /** A prepared invocation is spent by its first admission. */
  class InvocationObject {
    const registry: RegistryObject
    const inner: Invocation
    var used: bool

    constructor (registry: RegistryObject, inner: Invocation)
      ensures this.registry == registry && this.inner == inner && !used
    {
      this.registry, this.inner := registry, inner;
      used := false;
    }

    method TryAdmit() returns (a: Admission)
      modifies this
      ensures a == Admit(registry.View(), inner, old(used))
      ensures used == (old(used) || a == Admitted)
      ensures var current := inner.name in registry.tools && registry.tools[inner.name].generation == inner.generation;
              && (a == Admitted <==> current && !old(used)) && (a == AlreadyInvoked <==> current && old(used))
    {
      if inner.name !in registry.tools || registry.tools[inner.name].generation != inner.generation {
        return DefinitionChanged;
      }
      if used {
        return AlreadyInvoked;
      }
      used := true;
      return Admitted;
    }
  }
}
