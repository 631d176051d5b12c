/** When a registration is refused and with which error, and what exactly an accepted one leaves in the registry. */
module RegistryMeaning {
  import opened Common
  import opened Text
  import opened Registry
  import opened RegistryRuns

  // ---------------------------------------------------------------------------
  // Staging
  // ---------------------------------------------------------------------------

  predicate Named(d: Definition) { TrimSpace(d.name) != "" && d.handler.Some? }

  predicate Whole(d: Definition) { Named(d) && d.schemaOk }

  /** Every definition is whole, and no two have one name after trimming. */
  ghost predicate Acceptable(ds: seq<Definition>) {
    && (forall i :: 0 <= i < |ds| ==> Whole(ds[i]))
    && forall i, k :: 0 <= i < k < |ds| ==> TrimSpace(ds[i].name) != TrimSpace(ds[k].name)
  }

  /** Definition `i` is the first with a fault, and this is its fault. */
  ghost predicate FirstFault(ds: seq<Definition>, i: nat, e: RegistryError) {
    && i < |ds| && Acceptable(ds[..i])
    && (e == Incomplete <==> !Named(ds[i]))
    && (e == BadSchema <==> Named(ds[i]) && !ds[i].schemaOk)
    && (e == Duplicate <==> Whole(ds[i]) && exists k :: 0 <= k < i && TrimSpace(ds[k].name) == TrimSpace(ds[i].name))
    && (e == Incomplete || e == BadSchema || e == Duplicate)
  }

  lemma NameAmong(ds: seq<Definition>, name: string)
    ensures name in Names(ds) <==> exists k :: 0 <= k < |ds| && TrimSpace(ds[k].name) == name
  {
    hide TrimSpace;
    if name in Names(ds) {
      var d :| d in ds && TrimSpace(d.name) == name;
      var k :| 0 <= k < |ds| && ds[k] == d;
    }
  }

  /** A list passes exactly if it is acceptable, and otherwise its first fault is reported. */
  lemma {:induction false} StagedIff(ds: seq<Definition>)
    ensures StageFault(ds).None? <==> Acceptable(ds)
    ensures StageFault(ds).Some? ==> exists i: nat :: FirstFault(ds, i, StageFault(ds).value)
  {
    hide TrimSpace, Names;
    if ds != [] {
      var n := |ds| - 1;
      StagedIff(ds[..n]);
      NameAmong(ds[..n], TrimSpace(ds[n].name));
      if StageFault(ds[..n]).Some? {
        var i: nat :| FirstFault(ds[..n], i, StageFault(ds[..n]).value);
        assert ds[..n][..i] == ds[..i];
        assert FirstFault(ds, i, StageFault(ds).value);
        Prefixes(ds, n);
      } else {
        OneMore(ds);
        if StageFault(ds).Some? {
          assert FirstFault(ds, n, StageFault(ds).value);
        }
      }
    }
  }

  lemma Prefixes(ds: seq<Definition>, n: nat)
    requires n <= |ds|
    ensures Acceptable(ds) ==> Acceptable(ds[..n])
  {
    hide TrimSpace, Whole;
  }

  lemma OneMore(ds: seq<Definition>)
    requires ds != []
    ensures var n := |ds| - 1;
            Acceptable(ds) <==>
              && Acceptable(ds[..n]) && Whole(ds[n])
              && forall k :: 0 <= k < n ==> TrimSpace(ds[k].name) != TrimSpace(ds[n].name)
  {
    hide TrimSpace, Whole;
  }

  // ---------------------------------------------------------------------------
  // Registering
  // ---------------------------------------------------------------------------

  /** One registration: refused for exactly these reasons, or bound under the next generation, of unknown effect. */
  lemma RegistrationIsExact(s: State, d: Definition)
    ensures var name, r := TrimSpace(d.name), Register(s, d);
            && (r == Err(Incomplete) <==> !Named(d))
            && (r == Err(BadSchema) <==> Named(d) && !d.schemaOk)
            && (r == Err(Duplicate) <==> Whole(d) && name in s.tools)
            && (r.Ok? <==> Whole(d) && name !in s.tools)
            && (r.Ok? ==>
                  var s' := r.value;
                  && s'.tools == s.tools[name := Tool(name, d.body, d.handler.value, s.generation + 1)]
                  && s'.effects == s.effects[name := UnknownEffect]
                  && s'.owners == s.owners && s'.generation == s.generation + 1)
  {
    hide TrimSpace;
  }

  /** A directory is taken iff every definition is whole and every name is new, in the list and in the registry. */
  lemma DirectoryIsTakenIff(s: State, ds: seq<Definition>)
    ensures RegisterAll(s, ds).Ok? <==>
              Acceptable(ds) && forall i :: 0 <= i < |ds| ==> TrimSpace(ds[i].name) !in s.tools
    ensures !Acceptable(ds) ==>
              RegisterAll(s, ds).Err? && exists i: nat :: FirstFault(ds, i, RegisterAll(s, ds).error)
    ensures Acceptable(ds) && RegisterAll(s, ds).Err? ==> RegisterAll(s, ds).error == Duplicate
  {
    hide TrimSpace, StageFault, Names, BindAll, FirstFault, Acceptable;
    StagedIff(ds);
    if Names(ds) * s.tools.Keys != {} {
      var name :| name in Names(ds) * s.tools.Keys;
      NameAmong(ds, name);
    } else {
      forall i | 0 <= i < |ds| ensures TrimSpace(ds[i].name) !in s.tools {
        NameAmong(ds, TrimSpace(ds[i].name));
        assert TrimSpace(ds[i].name) !in Names(ds) * s.tools.Keys;
      }
    }
  }

  // ---------------------------------------------------------------------------
  // Namespace updates
  // ---------------------------------------------------------------------------

  /** Every definition is written inside the namespace of its owner, who has a name. */
  ghost predicate AllInside(us: seq<Update>) {
    forall u, d :: u in us && d in u.definitions ==> u.owner + "_" <= d.name
  }

  /** A staged name is bound already, to an owner other than the one who claims it now. */
  ghost predicate Taken(s: State, us: seq<Update>) {
    exists d :: d in AllDefinitions(us) && TrimSpace(d.name) in s.tools
                && OwnerOf(s.owners, TrimSpace(d.name)) != OwnerOf(AllClaims(us), TrimSpace(d.name))
  }

  /** The checks of a namespace update, in their order. */
  lemma UpdateIsRefusedIff(s: State, us: seq<Update>)
    ensures var r, ds := ReplaceNamespaces(s, us), AllDefinitions(us);
            var named := forall u :: u in us ==> u.owner != "";
            && (r == Err(NoOwner) <==> !named)
            && (r == Err(OutsideNamespace) <==> named && !AllInside(us))
            && (named && AllInside(us) && !Acceptable(ds) ==> r.Err? && exists i: nat :: FirstFault(ds, i, r.error))
            && (r == Err(OtherOwner) <==> named && AllInside(us) && Acceptable(ds) && Taken(s, us))
            && (r.Ok? <==> named && AllInside(us) && Acceptable(ds) && !Taken(s, us))
  {
    hide TrimSpace, StageFault, BindAll, FirstFault, Acceptable, AllDefinitions, AllClaims, OwnerOf;
    StagedIff(AllDefinitions(us));
    if StageFault(AllDefinitions(us)).Some? {
      FaultIsOfStaging(AllDefinitions(us));
    }
    if forall u :: u in us ==> u.owner != "" {
      InsideMeans(us);
    }
    TakenMeans(s, us);
    hide AllInside, Taken, Inside, Conflict, Names;
  }

  lemma FaultIsOfStaging(ds: seq<Definition>)
    requires StageFault(ds).Some?
    ensures var e := StageFault(ds).value; e == Incomplete || e == BadSchema || e == Duplicate
  {
    StagedIff(ds);
    var i: nat :| FirstFault(ds, i, StageFault(ds).value);
  }

  lemma InsideMeans(us: seq<Update>)
    requires forall u :: u in us ==> u.owner != ""
    ensures AllInside(us) <==> !exists u :: u in us && !Inside(u)
  {}

  lemma TakenMeans(s: State, us: seq<Update>)
    ensures Taken(s, us) <==>
              exists name :: name in Names(AllDefinitions(us)) && Conflict(s, AllClaims(us), name)
  {
    hide TrimSpace, AllDefinitions, AllClaims, OwnerOf, Conflict, Names;
    var ds := AllDefinitions(us);
    if exists name :: name in Names(ds) && Conflict(s, AllClaims(us), name) {
      var name :| name in Names(ds) && Conflict(s, AllClaims(us), name);
      NameAmong(ds, name);
      var k :| 0 <= k < |ds| && TrimSpace(ds[k].name) == name;
      ConflictMeans(s, us, ds[k]);
      assert ds[k] in ds;
    }
    if Taken(s, us) {
      var d :| d in ds && TrimSpace(d.name) in s.tools
               && OwnerOf(s.owners, TrimSpace(d.name)) != OwnerOf(AllClaims(us), TrimSpace(d.name));
      var k :| 0 <= k < |ds| && ds[k] == d;
      NameAmong(ds, TrimSpace(d.name));
      ConflictMeans(s, us, d);
    }
  }

  lemma ConflictMeans(s: State, us: seq<Update>, d: Definition)
    ensures var name := TrimSpace(d.name);
            Conflict(s, AllClaims(us), name) <==>
              name in s.tools && OwnerOf(s.owners, name) != OwnerOf(AllClaims(us), name)
  {}

  /** Definition `d` of update `u` is what the registry holds under this name, new and of unknown effect. */
  ghost predicate BoundBy(s: State, s': State, name: string, u: Update, d: Definition) {
    && d in u.definitions && name == TrimSpace(d.name) && u.owner + "_" <= d.name && d.handler.Some?
    && name in s'.tools && name in s'.effects && s'.effects[name] == UnknownEffect
    && var t := s'.tools[name];
       t.name == name && t.body == d.body && t.handler == d.handler.value
           && s.generation < t.generation <= s'.generation
  }

  lemma {:induction false} BindAllNames(s: State, ds: seq<Definition>, owners: Option<map<string, string>>, i: nat)
    requires Complete(ds) && i < |ds|
    ensures var s', name := BindAll(s, ds, owners), TrimSpace(ds[i].name);
            name in s'.tools && s'.tools[name].name == name && s'.tools[name].generation <= s'.generation
  {
    hide TrimSpace, OwnerOf;
    var n := |ds| - 1;
    if i < n {
      BindAllNames(s, ds[..n], owners, i);
    }
  }

  /** What an accepted update leaves under a name that one of its definitions has. */
  lemma DefinitionsAreBound(s: State, us: seq<Update>, u: Update, d: Definition)
    requires ReplaceNamespaces(s, us).Ok? && u in us && d in u.definitions
    ensures BoundBy(s, ReplaceNamespaces(s, us).value, TrimSpace(d.name), u, d)
  {
    hide TrimSpace, StageFault, BindAll, AllDefinitions, AllClaims, OwnerOf, Conflict;
    var ds := AllDefinitions(us);
    DefinedBySome(us, d);
    var i :| 0 <= i < |ds| && ds[i] == d;
    StagedIsComplete(ds);
    var s1 := Revoked(s, Owners(us));
    BindAllDefines(s1, ds, Some(AllClaims(us)), i);
    BindAllNames(s1, ds, Some(AllClaims(us)), i);
    UpdatesAreUnclassified(s1, ds, Some(AllClaims(us)), TrimSpace(d.name));
    assert Inside(u);
  }

  /**
    An accepted namespace update is exact: under the name of each of its definitions that very definition is bound,
    under every other name stands what stood there, unless one of the updated owners held it, and then nothing.
   */
  lemma UpdateIsExact(s: State, us: seq<Update>, name: string)
    requires ReplaceNamespaces(s, us).Ok?
    ensures var s' := ReplaceNamespaces(s, us).value;
            if exists d :: d in AllDefinitions(us) && TrimSpace(d.name) == name then
              exists u, d :: u in us && BoundBy(s, s', name, u, d)
            else if name in s.owners && s.owners[name] in Owners(us) then name !in s'.tools
            else (name in s'.tools <==> name in s.tools) && (name in s.tools ==> s'.tools[name] == s.tools[name])
  {
    hide TrimSpace, StageFault, BindAll, AllDefinitions, AllClaims, OwnerOf, Conflict, Inside, BoundBy;
    var ds := AllDefinitions(us);
    StagedIsComplete(ds);
    BindAllTools(Revoked(s, Owners(us)), ds, Some(AllClaims(us)), name);
    if exists d :: d in ds && TrimSpace(d.name) == name {
      var d :| d in ds && TrimSpace(d.name) == name;
      DefinedBySome(us, d);
      var u :| u in us && d in u.definitions;
      DefinitionsAreBound(s, us, u, d);
    }
  }

  // ---------------------------------------------------------------------------
  // Preparing a call
  // ---------------------------------------------------------------------------

  /** A call is prepared iff its tool is bound, as it was advertised where it was, and then it is that tool. */
  lemma PreparedIff(s: State, name: string, expected: Option<nat>)
    ensures var r := Prepare(s, name, expected);
            && (r == Err(UnknownTool) <==> name !in s.tools)
            && (r.Ok? <==> name in s.tools && (expected.Some? ==> expected.value == s.tools[name].generation))
            && (r.Ok? ==>
                  r.value == Invocation(name, s.tools[name].handler, s.tools[name].body, s.tools[name].generation))
  {}
}
