/**
  All runs of registrations, namespace updates, catalog snapshots, preparations and invocations: no invocation
  ever runs a definition other than the one its request was shown, and none runs twice.
 */
module RegistryRuns {
  import opened Common
  import opened Text
  import opened Registry

  type CatalogId = nat
  type InvocationId = nat

  /** A prepared invocation, with the catalog it answers if there is one. */
  datatype Prepared = Prepared(catalog: Option<CatalogId>, inner: Invocation)

  /** `runs` is history: the handlers entered, by invocation. */
  datatype Sys = Sys(s: State, catalogs: map<CatalogId, Catalog>, prepared: map<InvocationId, Prepared>,
                     used: set<InvocationId>, runs: multiset<InvocationId>)

  datatype Event =
    | DoRegister(d: Definition)
    | DoRegisterAll(ds: seq<Definition>)
    | DoReplace(us: seq<Update>)
    | DoSnapshot(c: CatalogId)
    | DoPrepare(i: InvocationId, catalog: Option<CatalogId>, name: string)
    | DoRun(i: InvocationId)

  function After1(s: State, r: Result<State, RegistryError>): State { if r.Ok? then r.value else s }

  function PreparedBy(y: Sys, catalog: Option<CatalogId>, name: string): Result<Invocation, PrepareError> {
    if catalog.None? then Prepare(y.s, name, None)
    else if catalog.value in y.catalogs then PrepareFrom(y.s, y.catalogs[catalog.value], name)
    else Err(UnknownTool)
  }

  ghost function Apply(y: Sys, e: Event): Sys {
    match e
    case DoRegister(d) => y.(s := After1(y.s, Register(y.s, d)))
    case DoRegisterAll(ds) => y.(s := After1(y.s, RegisterAll(y.s, ds)))
    case DoReplace(us) => y.(s := After1(y.s, ReplaceNamespaces(y.s, us)))
    case DoSnapshot(c) => if c in y.catalogs then y else y.(catalogs := y.catalogs[c := y.s.tools])
    case DoPrepare(i, catalog, name) =>
      if i !in y.prepared && PreparedBy(y, catalog, name).Ok?
      then y.(prepared := y.prepared[i := Prepared(catalog, PreparedBy(y, catalog, name).value)]) else y
    case DoRun(i) =>
      if i in y.prepared && Admit(y.s, y.prepared[i].inner, i in y.used) == Admitted
      then y.(used := y.used + {i}, runs := y.runs + multiset{i}) else y
  }

  /** A process starts with the builtin tools, whatever they are, each under its own name. */
  ghost predicate Starts(y: Sys) {
    Sound(y.s) && y.catalogs == map[] && y.prepared == map[] && y.used == {} && y.runs == multiset{}
  }

  ghost function After(y: Sys, es: seq<Event>): Sys {
    if es == [] then y else Apply(After(y, es[..|es| - 1]), es[|es| - 1])
  }

  // ---------------------------------------------------------------------------
  // Generations are never reused
  // ---------------------------------------------------------------------------

  ghost predicate ToolAt(s: State, name: string) {
    name in s.tools ==> s.tools[name].name == name && s.tools[name].generation <= s.generation
  }

  ghost predicate Sound(s: State) { forall name :: ToolAt(s, name) }

  /** A definition remembered from some earlier state: under its generation there can be no other. */
  ghost predicate Honest(s: State, t: Tool) {
    && t.generation <= s.generation
    && (t.name in s.tools && s.tools[t.name].generation == t.generation ==> s.tools[t.name] == t)
  }

  /** What every change of the registry keeps of the past. */
  ghost predicate Keeps(s: State, s': State) {
    && (Sound(s) ==> Sound(s'))
    && s.generation <= s'.generation
    && forall t: Tool :: Honest(s, t) ==> Honest(s', t)
  }

  lemma BindKeeps(s: State, d: Definition, owner: Option<string>)
    requires d.handler.Some?
    ensures Keeps(s, Bind(s, d, owner))
  {
    hide TrimSpace;
    var s' := Bind(s, d, owner);
    if Sound(s) {
      forall name ensures ToolAt(s', name) {
        assert ToolAt(s, name);
      }
    }
  }

  lemma KeepsThrough(a: State, b: State, c: State)
    requires Keeps(a, b) && Keeps(b, c)
    ensures Keeps(a, c)
  {
    hide Sound, Honest;
  }

  lemma {:induction false} BindAllKeeps(s: State, ds: seq<Definition>, owners: Option<map<string, string>>)
    requires Complete(ds)
    ensures Keeps(s, BindAll(s, ds, owners))
  {
    hide Bind, TrimSpace, Keeps, OwnerOf;
    if ds == [] {
      KeepsItself(s);
    } else {
      var d := ds[|ds| - 1];
      var before := BindAll(s, ds[..|ds| - 1], owners);
      var owner := if owners.Some? then Some(OwnerOf(owners.value, TrimSpace(d.name))) else None;
      BindAllKeeps(s, ds[..|ds| - 1], owners);
      BindKeeps(before, d, owner);
      KeepsThrough(s, before, Bind(before, d, owner));
    }
  }

  lemma KeepsItself(s: State)
    ensures Keeps(s, s)
  {
  }

  lemma RevokedKeeps(s: State, owners: set<string>)
    ensures Keeps(s, Revoked(s, owners))
  {
    var s' := Revoked(s, owners);
    if Sound(s) {
      forall name ensures ToolAt(s', name) {
        assert ToolAt(s, name);
      }
    }
  }

  lemma ChangeKeeps(s: State, e: Event)
    ensures match e
            case DoRegister(d) => Keeps(s, After1(s, Register(s, d)))
            case DoRegisterAll(ds) => Keeps(s, After1(s, RegisterAll(s, ds)))
            case DoReplace(us) => Keeps(s, After1(s, ReplaceNamespaces(s, us)))
            case _ => true
  {
    hide Bind, BindAll, Keeps, Revoked, Conflict, Inside, AllClaims;
    KeepsItself(s);
    match e
    case DoRegister(d) => if Register(s, d).Ok? { BindKeeps(s, d, None); }
    case DoRegisterAll(ds) =>
      if RegisterAll(s, ds).Ok? {
        StagedIsComplete(ds);
        BindAllKeeps(s, ds, None);
      }
    case DoReplace(us) =>
      if ReplaceNamespaces(s, us).Ok? {
        var ds, claims := AllDefinitions(us), Some(AllClaims(us));
        StagedIsComplete(ds);
        RevokedKeeps(s, Owners(us));
        BindAllKeeps(Revoked(s, Owners(us)), ds, claims);
        KeepsThrough(s, Revoked(s, Owners(us)), BindAll(Revoked(s, Owners(us)), ds, claims));
      }
    case _ =>
  }

  // ---------------------------------------------------------------------------
  // The invariant
  // ---------------------------------------------------------------------------

  function AsTool(i: Invocation): Tool { Tool(i.name, i.body, i.handler, i.generation) }

  ghost predicate CatalogAt(y: Sys, c: CatalogId) {
    c in y.catalogs ==> forall name :: name in y.catalogs[c] ==>
      y.catalogs[c][name].name == name && Honest(y.s, y.catalogs[c][name])
  }

  ghost predicate PreparedAt(y: Sys, i: InvocationId) {
    i in y.prepared ==>
      && Honest(y.s, AsTool(y.prepared[i].inner))
      && (y.prepared[i].catalog.Some? ==>
            var c := y.prepared[i].catalog.value;
            var inner := y.prepared[i].inner;
            c in y.catalogs && inner.name in y.catalogs[c] && inner.generation == y.catalogs[c][inner.name].generation)
  }

  ghost predicate RunAt(y: Sys, i: InvocationId) { y.runs[i] == if i in y.used then 1 else 0 }

  ghost predicate Inv(y: Sys) {
    Sound(y.s) && (forall c :: CatalogAt(y, c)) && (forall i :: PreparedAt(y, i)) && (forall i :: RunAt(y, i))
  }

  lemma ChangeKeepsInv(y: Sys, s': State)
    requires Inv(y) && Keeps(y.s, s')
    ensures Inv(y.(s := s'))
  {
    hide Sound, Honest;
    var y' := y.(s := s');
    forall c ensures CatalogAt(y', c) {
      assert CatalogAt(y, c);
    }
    forall i ensures PreparedAt(y', i) {
      assert PreparedAt(y, i);
    }
    forall i ensures RunAt(y', i) {
      assert RunAt(y, i);
    }
  }

  lemma UseKeepsInv(y: Sys, e: Event)
    requires Inv(y) && (e.DoSnapshot? || e.DoPrepare? || e.DoRun?)
    ensures Inv(Apply(y, e))
  {
    var y' := Apply(y, e);
    forall c ensures CatalogAt(y', c) {
      assert CatalogAt(y, c);
      if c in y'.catalogs && c !in y.catalogs {
        forall name | name in y'.catalogs[c]
          ensures y'.catalogs[c][name].name == name && Honest(y'.s, y'.catalogs[c][name])
        {
          assert ToolAt(y.s, name);
        }
      }
    }
    forall i ensures PreparedAt(y', i) {
      assert PreparedAt(y, i);
      if e.DoPrepare? && i == e.i && i !in y.prepared && i in y'.prepared {
        assert ToolAt(y.s, e.name);
      }
    }
    forall i ensures RunAt(y', i) {
      assert RunAt(y, i);
    }
  }

  lemma StepKeepsInv(y: Sys, e: Event)
    requires Inv(y)
    ensures Inv(Apply(y, e))
  {
    hide Inv, Register, RegisterAll, ReplaceNamespaces, Keeps;
    if e.DoSnapshot? || e.DoPrepare? || e.DoRun? {
      UseKeepsInv(y, e);
    } else {
      ChangeKeeps(y.s, e);
      ChangeKeepsInv(y, Apply(y, e).s);
    }
  }

  lemma {:induction false} Reachable(y: Sys, es: seq<Event>)
    requires Starts(y)
    ensures Inv(After(y, es))
  {
    if es == [] {
    } else {
      Reachable(y, es[..|es| - 1]);
      StepKeepsInv(After(y, es[..|es| - 1]), es[|es| - 1]);
    }
  }

  /**
    No ABA: an invocation prepared from a catalog is admitted only while the registry still holds, under that
    name, the very definition the catalog advertised, and the handler it will call is that definition's.
   */
  lemma AdmittedAsAdvertised(y: Sys, es: seq<Event>, i: InvocationId)
    requires Starts(y) && i in After(y, es).prepared && After(y, es).prepared[i].catalog.Some?
    requires Admit(After(y, es).s, After(y, es).prepared[i].inner, i in After(y, es).used) == Admitted
    ensures var z := After(y, es);
            var p := z.prepared[i];
            && p.catalog.value in z.catalogs && p.inner.name in z.catalogs[p.catalog.value] && p.inner.name in z.s.tools
            && z.s.tools[p.inner.name] == z.catalogs[p.catalog.value][p.inner.name] == AsTool(p.inner)
  {
    Reachable(y, es);
    var z := After(y, es);
    hide After;
    assert PreparedAt(z, i) && CatalogAt(z, z.prepared[i].catalog.value);
  }

  /** Every prepared invocation enters its handler at most once, over the whole run. */
  lemma InvokedAtMostOnce(y: Sys, es: seq<Event>, i: InvocationId)
    requires Starts(y)
    ensures After(y, es).runs[i] <= 1
  {
    Reachable(y, es);
    assert RunAt(After(y, es), i);
  }

  // ---------------------------------------------------------------------------
  // Bulk updates and other owners
  // ---------------------------------------------------------------------------

  /** What a list of staged definitions leaves under each name. */
  lemma {:induction false} BindAllTools(s: State, ds: seq<Definition>, owners: Option<map<string, string>>, name: string)
    requires Complete(ds)
    ensures var s' := BindAll(s, ds, owners);
            && s.generation <= s'.generation
            && (name in s'.tools <==> name in s.tools || name in Names(ds))
            && (name !in Names(ds) && name in s.tools ==> s'.tools[name] == s.tools[name])
            && (name in Names(ds) ==> s'.tools[name].generation > s.generation)
  {
    hide TrimSpace, OwnerOf;
    if ds == [] {
    } else {
      var n := |ds| - 1;
      BindAllTools(s, ds[..n], owners, name);
      assert ds == ds[..n] + [ds[n]];
      assert Names(ds) == Names(ds[..n]) + {TrimSpace(ds[n].name)};
    }
  }

  /** Whatever an owner registers is of unknown effect: no update makes a tool a safe read. */
  lemma {:induction false} UpdatesAreUnclassified(s: State, ds: seq<Definition>, owners: Option<map<string, string>>,
                                                  name: string)
    requires Complete(ds)
    ensures var s' := BindAll(s, ds, owners);
            && (name in Names(ds) ==> name in s'.effects && s'.effects[name] == UnknownEffect)
            && (name !in Names(ds) && name in s.effects ==> name in s'.effects && s'.effects[name] == s.effects[name])
  {
    hide TrimSpace, OwnerOf;
    if ds == [] {
    } else {
      var n := |ds| - 1;
      UpdatesAreUnclassified(s, ds[..n], owners, name);
      assert ds == ds[..n] + [ds[n]];
      assert Names(ds) == Names(ds[..n]) + {TrimSpace(ds[n].name)};
    }
  }

  /** A name some owner that is not being updated holds. */
  predicate Foreign(s: State, us: seq<Update>, name: string) {
    name in s.tools && (name in s.owners ==> s.owners[name] !in Owners(us))
  }

  /** A definition whose name, as written, differs from the trimmed name it is registered under. */
  predicate Padded(us: seq<Update>, name: string) {
    name in Names(AllDefinitions(us)) && OwnerOf(AllClaims(us), name) == ""
  }

  /**
    A successful namespace update never touches a binding another owner holds. A builtin, which nobody owns, is
    left alone exactly unless some definition's name is padded with white space around that builtin's name.
   */
  lemma ForeignBindings(s: State, us: seq<Update>, name: string)
    requires Sound(s) && ReplaceNamespaces(s, us).Ok? && Foreign(s, us, name)
    ensures var s' := ReplaceNamespaces(s, us).value;
            && (name in s'.tools && s'.tools[name] == s.tools[name] <==> name !in Names(AllDefinitions(us)))
            && (OwnerOf(s.owners, name) != "" ==> name !in Names(AllDefinitions(us)))
            && (OwnerOf(s.owners, name) == "" ==> (name in Names(AllDefinitions(us)) <==> Padded(us, name)))
  {
    hide BindAll, AllDefinitions, AllClaims, TrimSpace, StageFault, Names, Inside;
    var ds, claims := AllDefinitions(us), AllClaims(us);
    StagedIsComplete(ds);
    var r := Revoked(s, Owners(us));
    assert name in r.tools && r.tools[name] == s.tools[name];
    BindAllTools(r, ds, Some(claims), name);
    assert ToolAt(s, name);
    hide Revoked;
    assert name in Names(ds) ==> !Conflict(s, claims, name);
    ClaimsAreUpdated(us, name);
  }

  lemma {:induction false} ClaimsOwner(owner: string, ds: seq<Definition>, before: map<string, string>, name: string)
    ensures var m := Claims(owner, ds, before);
            && (name in m <==> name in before || exists d :: d in ds && d.name == name)
            && (if exists d :: d in ds && d.name == name then m[name] == owner
                else name in before ==> m[name] == before[name])
  {
    if ds != [] {
      var n := |ds| - 1;
      ClaimsOwner(owner, ds[..n], before, name);
      assert ds == ds[..n] + [ds[n]];
    }
  }

  /** A claimed name belongs to one of the updated owners. */
  lemma {:induction false} ClaimsAreUpdated(us: seq<Update>, name: string)
    ensures name in AllClaims(us) ==> AllClaims(us)[name] in Owners(us)
    ensures name in AllClaims(us) <==> exists d :: d in AllDefinitions(us) && d.name == name
  {
    if us != [] {
      var n := |us| - 1;
      ClaimsAreUpdated(us[..n], name);
      ClaimsOwner(us[n].owner, us[n].definitions, AllClaims(us[..n]), name);
      assert us == us[..n] + [us[n]];
    }
  }

  /** Padding is a matter of the names as written: nobody wrote this one without the white space. */
  lemma PaddedMeans(us: seq<Update>, name: string)
    requires forall u :: u in us ==> u.owner != ""
    ensures Padded(us, name) <==>
            && (exists d :: d in AllDefinitions(us) && TrimSpace(d.name) == name)
            && (forall d :: d in AllDefinitions(us) ==> d.name != name)
  {
    hide TrimSpace, AllDefinitions;
    ClaimsAreUpdated(us, name);
    hide AllClaims;
    assert name in AllClaims(us) ==> AllClaims(us)[name] != "";
  }

  /** When every name is written trimmed, everything that the updated owners do not hold stays. */
  lemma TrimmedUpdatesKeepOthers(s: State, us: seq<Update>, name: string)
    requires Sound(s) && ReplaceNamespaces(s, us).Ok? && Foreign(s, us, name)
    requires forall d :: d in AllDefinitions(us) ==> TrimSpace(d.name) == d.name
    ensures name in ReplaceNamespaces(s, us).value.tools
    ensures ReplaceNamespaces(s, us).value.tools[name] == s.tools[name]
  {
    assert forall u :: u in us ==> u.owner != "";
    ForeignBindings(s, us, name);
    PaddedMeans(us, name);
    hide ReplaceNamespaces, TrimSpace, AllDefinitions;
    assert !Padded(us, name);
  }

  // ---------------------------------------------------------------------------
  // A bulk update is whole or nothing
  // ---------------------------------------------------------------------------

  /** Staged names are different after trimming, whoever wrote them. */
  lemma {:induction false} StagedApart(ds: seq<Definition>, i: nat, k: nat)
    requires StageFault(ds).None? && i < k < |ds|
    ensures TrimSpace(ds[i].name) != TrimSpace(ds[k].name)
    decreases |ds|
  {
    hide TrimSpace;
    var n := |ds| - 1;
    if k < n {
      StagedApart(ds[..n], i, k);
    } else {
      assert ds[..n][i] == ds[i] && ds[i] in ds[..n];
    }
  }

  /** What each staged definition leaves: its own body and handler under a generation of its own. */
  lemma {:induction false} BindAllDefines(s: State, ds: seq<Definition>, owners: Option<map<string, string>>, i: nat)
    requires StageFault(ds).None? && Complete(ds) && i < |ds|
    ensures var s', name := BindAll(s, ds, owners), TrimSpace(ds[i].name);
            && s'.generation == s.generation + |ds|
            && name in s'.tools && s'.tools[name] == Tool(name, ds[i].body, ds[i].handler.value, s.generation + i + 1)
            && (owners.Some? ==> name in s'.owners && s'.owners[name] == OwnerOf(owners.value, name))
    decreases |ds|
  {
    hide TrimSpace, OwnerOf;
    var n := |ds| - 1;
    BoundGeneration(s, ds[..n], owners);
    if i < n {
      BindAllDefines(s, ds[..n], owners, i);
      StagedApart(ds, i, n);
    }
  }

  lemma {:induction false} BoundGeneration(s: State, ds: seq<Definition>, owners: Option<map<string, string>>)
    requires Complete(ds)
    ensures BindAll(s, ds, owners).generation == s.generation + |ds|
  {
    hide TrimSpace, OwnerOf;
    if ds != [] {
      BoundGeneration(s, ds[..|ds| - 1], owners);
    }
  }

  lemma {:induction false} BindAllOwners(s: State, ds: seq<Definition>, owners: Option<map<string, string>>, name: string)
    requires Complete(ds) && name !in Names(ds)
    ensures var s' := BindAll(s, ds, owners);
            (name in s'.owners <==> name in s.owners) && (name in s.owners ==> s'.owners[name] == s.owners[name])
  {
    hide TrimSpace, OwnerOf;
    if ds != [] {
      var n := |ds| - 1;
      assert ds == ds[..n] + [ds[n]];
      assert Names(ds) == Names(ds[..n]) + {TrimSpace(ds[n].name)};
      BindAllOwners(s, ds[..n], owners, name);
    }
  }

  /** Definition `i` of a list is what the registry holds under its name, and it was bound by this very list. */
  ghost predicate Holds(s: State, s': State, d: Definition) {
    && TrimSpace(d.name) in s'.tools && d.handler.Some?
    && var t := s'.tools[TrimSpace(d.name)];
    t.body == d.body && t.handler == d.handler.value && s.generation < t.generation
  }

  /** A bulk update either binds every one of its definitions as given, under new generations, or changes nothing. */
  lemma UpdatesAreWholeOrNothing(y: Sys, e: Event, d: Definition)
    requires match e
             case DoRegisterAll(ds) => d in ds
             case DoReplace(us) => d in AllDefinitions(us)
             case _ => false
    ensures Apply(y, e) == y || Holds(y.s, Apply(y, e).s, d)
  {
    hide AllDefinitions, TrimSpace, Names, StageFault, BindAll, AllClaims, Conflict;
    match e
    case DoRegisterAll(ds) =>
      if RegisterAll(y.s, ds).Ok? {
        var i :| 0 <= i < |ds| && ds[i] == d;
        StagedIsComplete(ds);
        BindAllDefines(y.s, ds, None, i);
      }
    case DoReplace(us) =>
      if ReplaceNamespaces(y.s, us).Ok? {
        var ds := AllDefinitions(us);
        var i :| 0 <= i < |ds| && ds[i] == d;
        StagedIsComplete(ds);
        BindAllDefines(Revoked(y.s, Owners(us)), ds, Some(AllClaims(us)), i);
      }
    case _ =>
  }

  // ---------------------------------------------------------------------------
  // An owner's snapshot
  // ---------------------------------------------------------------------------

  lemma {:induction false} StagedPrefix(a: seq<Definition>, b: seq<Definition>)
    requires StageFault(a + b).None?
    ensures StageFault(a).None?
    decreases |b|
  {
    hide TrimSpace, Names;
    if b == [] {
      assert a + b == a;
    } else {
      assert (a + b)[..|a + b| - 1] == a + b[..|b| - 1];
      StagedPrefix(a, b[..|b| - 1]);
    }
  }

  /** The staged definitions are those of the updates. */
  lemma {:induction false} DefinedBySome(us: seq<Update>, d: Definition)
    ensures d in AllDefinitions(us) <==> exists u :: u in us && d in u.definitions
  {
    if us != [] {
      DefinedBySome(us[..|us| - 1], d);
      assert us == us[..|us| - 1] + [us[|us| - 1]];
    }
  }

  /** A name as written is claimed for the owner that wrote it. */
  lemma {:induction false} ClaimedByWriter(us: seq<Update>, u: Update, d: Definition)
    requires StageFault(AllDefinitions(us)).None? && u in us && d in u.definitions
    ensures d.name in AllClaims(us) && AllClaims(us)[d.name] == u.owner
  {
    hide TrimSpace, StageFault;
    var n := |us| - 1;
    var before, last := AllDefinitions(us[..n]), us[n].definitions;
    assert us == us[..n] + [us[n]];
    ClaimsOwner(us[n].owner, last, AllClaims(us[..n]), d.name);
    if u in us[..n] {
      StagedPrefix(before, last);
      ClaimedByWriter(us[..n], u, d);
      DefinedBySome(us[..n], d);
      if exists d' :: d' in last && d'.name == d.name {
        var i :| 0 <= i < |before| && before[i] == d;
        var k :| 0 <= k < |last| && last[k].name == d.name;
        StagedApart(before + last, i, |before| + k);
      }
    }
  }

  /** The names under which an owner's tools are bound. */
  ghost function Held(s: State, owner: string): set<string> {
    set name | name in s.tools && OwnerOf(s.owners, name) == owner
  }

  predicate Trimmed(ds: seq<Definition>) { forall d :: d in ds ==> TrimSpace(d.name) == d.name }

  /** Updates come as a map from owners. */
  ghost predicate OnePerOwner(us: seq<Update>) { forall u, v :: u in us && v in us && u.owner == v.owner ==> u == v }

  /** What an update records as the owner of one of its definitions: its writer, or nobody if the name is padded. */
  lemma OwnerRecorded(s: State, us: seq<Update>, u: Update, d: Definition)
    requires ReplaceNamespaces(s, us).Ok? && u in us && d in u.definitions
    ensures var s', name := ReplaceNamespaces(s, us).value, TrimSpace(d.name);
            && name in s'.tools && name in s'.owners
            && s'.owners[name] == if name == d.name then u.owner else ""
  {
    hide BindAll, AllDefinitions, AllClaims, TrimSpace, StageFault, Names, Inside, Revoked, Conflict;
    var ds, claims := AllDefinitions(us), AllClaims(us);
    StagedIsComplete(ds);
    DefinedBySome(us, d);
    var i :| 0 <= i < |ds| && ds[i] == d;
    BindAllDefines(Revoked(s, Owners(us)), ds, Some(claims), i);
    ClaimedByWriter(us, u, d);
    var name := TrimSpace(d.name);
    if name != d.name && name in claims {
      ClaimsAreUpdated(us, name);
      var k :| 0 <= k < |ds| && ds[k].name == name;
      TrimIsIdempotent(d.name);
      if i < k {
        StagedApart(ds, i, k);
      } else {
        StagedApart(ds, k, i);
      }
    }
  }

  /** After an update an owner holds what it wrote with a trimmed name, and nothing else. */
  lemma HeldAfter(s: State, us: seq<Update>, u: Update, name: string)
    requires ReplaceNamespaces(s, us).Ok? && u in us && OnePerOwner(us)
    ensures name in Held(ReplaceNamespaces(s, us).value, u.owner) <==>
            exists d :: d in u.definitions && d.name == name && TrimSpace(d.name) == name
  {
    hide BindAll, AllDefinitions, AllClaims, TrimSpace, StageFault, Inside, Conflict;
    var ds, s' := AllDefinitions(us), ReplaceNamespaces(s, us).value;
    StagedIsComplete(ds);
    if name in Names(ds) {
      var d :| d in ds && TrimSpace(d.name) == name;
      DefinedBySome(us, d);
      var v :| v in us && d in v.definitions;
      OwnerRecorded(s, us, v, d);
      forall d' | d' in u.definitions && d'.name == name && TrimSpace(d'.name) == name ensures name in Held(s', u.owner) {
        OwnerRecorded(s, us, u, d');
      }
    } else {
      BindAllOwners(Revoked(s, Owners(us)), ds, Some(AllClaims(us)), name);
      forall d' | d' in u.definitions && d'.name == name && TrimSpace(d'.name) == name ensures false {
        DefinedBySome(us, d');
      }
    }
  }

  /**
    An update swaps an owner's entire snapshot, its tools being afterwards exactly those of its definitions, if and
    only if none of their names is padded with white space.
   */
  lemma SnapshotIsSwappedIff(s: State, us: seq<Update>, u: Update)
    requires ReplaceNamespaces(s, us).Ok? && u in us && OnePerOwner(us)
    ensures Held(ReplaceNamespaces(s, us).value, u.owner) == Names(u.definitions) <==> Trimmed(u.definitions)
  {
    hide ReplaceNamespaces, TrimSpace, Held;
    var held := Held(ReplaceNamespaces(s, us).value, u.owner);
    forall name ensures name in held <==> exists d :: d in u.definitions && d.name == name && TrimSpace(d.name) == name {
      HeldAfter(s, us, u, name);
    }
    forall d | d in u.definitions && TrimSpace(d.name) != d.name ensures TrimSpace(d.name) !in held {
      PaddedIsNotHeld(s, us, u, d);
    }
    if Trimmed(u.definitions) {
      assert held == Names(u.definitions);
    } else {
      var d :| d in u.definitions && TrimSpace(d.name) != d.name;
      assert TrimSpace(d.name) in Names(u.definitions);
    }
  }

  lemma PaddedIsNotHeld(s: State, us: seq<Update>, u: Update, d: Definition)
    requires ReplaceNamespaces(s, us).Ok? && u in us && d in u.definitions && TrimSpace(d.name) != d.name
    ensures TrimSpace(d.name) !in Held(ReplaceNamespaces(s, us).value, u.owner)
  {
    OwnerRecorded(s, us, u, d);
    hide TrimSpace, BindAll, StageFault, AllDefinitions, AllClaims, Inside;
    assert Inside(u) by { assert forall v :: v in us ==> Inside(v); }
  }

  /** Withdrawing an owner's tools removes a tool if and only if its name was written without padding. */
  lemma WithdrawalRemovesIff(s: State, us: seq<Update>, u: Update, d: Definition)
    requires ReplaceNamespaces(s, us).Ok? && u in us && d in u.definitions
    ensures var r := ReplaceNamespaces(ReplaceNamespaces(s, us).value, [Update(u.owner, [])]);
            && r.Ok?
            && (TrimSpace(d.name) !in r.value.tools <==> TrimSpace(d.name) == d.name)
  {
    OwnerRecorded(s, us, u, d);
    var s' := ReplaceNamespaces(s, us).value;
    assert u.owner != "";
    hide ReplaceNamespaces, TrimSpace;
    WithdrawalIsRevocation(s', u.owner);
  }

  lemma WithdrawalIsRevocation(s: State, owner: string)
    requires owner != ""
    ensures ReplaceNamespaces(s, [Update(owner, [])]) == Ok(Revoked(s, {owner}))
  {
    var us := [Update(owner, [])];
    assert us[..0] == [];
    assert AllDefinitions(us) == AllDefinitions([]) + [] == [];
    assert Owners(us) == {owner} by { assert us[0] in us; }
    hide Revoked, TrimSpace;
    assert StageFault([]).None? && Names([]) == {};
  }

  const BUILTINS := State(map["read_file" := Tool("read_file", "builtin", 7, 1)], map["read_file" := Read], map[], 1)
  const PADDED := Definition("read_file ", "theirs", true, Some(13))
  const UPDATE := Update("read", [PADDED])

  lemma PaddedTrims()
    ensures TrimSpace(PADDED.name) == "read_file"
  {
    hide TrimSpace;
    TrimTrailing("read_file");
    assert "read_file" + " " == PADDED.name;
  }

  lemma PaddedStages()
    ensures AllDefinitions([UPDATE]) == [PADDED] && StageFault([PADDED]).None? && Names([PADDED]) == {"read_file"}
  {
    PaddedTrims();
    hide TrimSpace;
    assert [UPDATE][..0] == [] && [PADDED][..0] == [];
    assert AllDefinitions([UPDATE]) == AllDefinitions([]) + [PADDED];
    assert StageFault([]).None? && Fault(PADDED).None? && Names([]) == {};
    assert PADDED in [PADDED];
  }

  lemma PaddedClaims()
    ensures AllClaims([UPDATE]) == map["read_file " := "read"] && Inside(UPDATE)
  {
    assert [UPDATE][..0] == [] && [PADDED][..0] == [];
    assert AllClaims([]) == map[] && Claims("read", [], map[]) == map[];
    assert Claims("read", [PADDED], map[]) == map[]["read_file " := "read"];
  }

  lemma PaddedBinds(s: State, claims: map<string, string>)
    requires Complete([PADDED])
    ensures "read_file" in BindAll(s, [PADDED], Some(claims)).tools
    ensures BindAll(s, [PADDED], Some(claims)).tools["read_file"].handler == 13
  {
    PaddedTrims();
    hide TrimSpace, OwnerOf;
    assert [PADDED][..0] == [];
  }

  /** The namespace "read" replaces the builtin "read_file" by a definition written "read_file " with a space. */
  lemma PaddedNameTakesABuiltin()
    ensures var r := ReplaceNamespaces(BUILTINS, [UPDATE]);
            && Sound(BUILTINS) && Foreign(BUILTINS, [UPDATE], "read_file") && r.Ok?
            && "read_file" in r.value.tools && r.value.tools["read_file"].handler == 13
  {
    PaddedStages();
    PaddedClaims();
    StagedIsComplete([PADDED]);
    var claims := AllClaims([UPDATE]);
    PaddedBinds(Revoked(BUILTINS, Owners([UPDATE])), claims);
    assert OwnerOf(claims, "read_file") == "" by { assert "read_file" != "read_file "; }
    hide BindAll, AllClaims, AllDefinitions, StageFault, Names, Inside, Revoked;
    assert Sound(BUILTINS) && Foreign(BUILTINS, [UPDATE], "read_file");
    assert !Conflict(BUILTINS, claims, "read_file");
  }

  lemma TrimTrailing(s: string)
    requires s != "" && !IsSpace(s[0]) && !IsSpace(s[|s| - 1])
    ensures TrimSpace(s + " ") == s
  {
    var t := s + " ";
    assert TrimLeft(t) == t;
    assert t[..|t| - 1] == s;
  }
}
