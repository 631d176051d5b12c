/** What every reachable fact store guarantees, over all runs of upserts, stored turns and invalidations. */
module FactRuns {
  import opened Common
  import opened Facts
  import Text

  // ---------------------------------------------------------------------------
  // The invariant
  // ---------------------------------------------------------------------------

  ghost predicate FactOk(s: State, i: nat) {
    i < |s.facts| ==>
      var f := s.facts[i];
      && f.id == FactId(FactKey(f), f.revision) && f.revision <= s.revision
      && (f.status == Active ==> Authority(f.sources) >= 1)
  }

  /** Revisions rise along the list, and no two active facts speak of one key. */
  ghost predicate PairOk(s: State, i: nat, k: nat) {
    i < k < |s.facts| ==>
      && s.facts[i].revision < s.facts[k].revision
      && (s.facts[i].status == Active && s.facts[k].status == Active ==> FactKey(s.facts[i]) != FactKey(s.facts[k]))
  }

  /** A supersedes link points to an earlier fact of the same key. */
  ghost predicate LinkOk(s: State, i: nat) {
    i < |s.facts| && s.facts[i].supersedes.Some? ==>
      exists k: nat :: k < i && s.facts[k].id == s.facts[i].supersedes.value && FactKey(s.facts[k]) == FactKey(s.facts[i])
  }

  ghost predicate Inv(s: State) {
    && (forall i :: FactOk(s, i))
    && (forall i, k :: PairOk(s, i, k))
    && (forall i :: LinkOk(s, i))
  }

  /** The same fact, with another status or more sources. */
  ghost predicate SameFact(f: Fact, f': Fact) {
    f' == f.(status := f'.status, sources := f'.sources) && f.sources <= f'.sources
  }

  /** Facts are never removed or reordered, and revisions never fall. */
  ghost predicate Grows(s: State, s': State) {
    && s.revision <= s'.revision && s.sessions <= s'.sessions
    && |s.facts| <= |s'.facts|
    && forall i: nat :: i < |s.facts| ==> SameFact(s.facts[i], s'.facts[i])
  }

  /** What the store believes of a key, by the authority of the active fact; nothing counts as zero. */
  function Belief(facts: seq<Fact>, key: Key): nat {
    match ActiveIndex(facts, key)
    case Some(i) => Authority(facts[i].sources)
    case None => 0
  }

  lemma BeliefOf(s: State, i: nat)
    requires Inv(s) && i < |s.facts| && s.facts[i].status == Active
    ensures ActiveIndex(s.facts, FactKey(s.facts[i])) == Some(i)
    ensures Belief(s.facts, FactKey(s.facts[i])) == Authority(s.facts[i].sources) >= 1
  {
    hide KeyOf;
    ActiveIndexFinds(s.facts, FactKey(s.facts[i]));
    var k := ActiveIndex(s.facts, FactKey(s.facts[i]));
    assert PairOk(s, i, k.value) && PairOk(s, k.value, i) && FactOk(s, i);
  }

  // ---------------------------------------------------------------------------
  // One fact changes in place
  // ---------------------------------------------------------------------------

  function Put(s: State, i: nat, f: Fact): State
    requires i < |s.facts|
  {
    s.(facts := s.facts[i := f])
  }

  lemma PutKeepsInv(s: State, i: nat, f: Fact)
    requires Inv(s) && i < |s.facts| && SameFact(s.facts[i], f)
    requires f.status == Active ==> s.facts[i].status == Active
    ensures Inv(Put(s, i, f)) && Grows(s, Put(s, i, f))
    ensures FactKey(f) == FactKey(s.facts[i])
  {
    hide KeyOf;
    var s' := Put(s, i, f);
    AuthorityGrows(s.facts[i].sources, f.sources[|s.facts[i].sources|..]);
    assert f.sources == s.facts[i].sources + f.sources[|s.facts[i].sources|..];
    hide Authority;
    forall j ensures FactOk(s', j) {
      assert FactOk(s, j) && FactOk(s, i);
    }
    forall j, k ensures PairOk(s', j, k) {
      assert PairOk(s, j, k);
    }
    forall j: nat ensures LinkOk(s', j) {
      assert LinkOk(s, j);
      if j < |s.facts| && s.facts[j].supersedes.Some? {
        var k: nat :| k < j && s.facts[k].id == s.facts[j].supersedes.value && FactKey(s.facts[k]) == FactKey(s.facts[j]);
        assert s'.facts[k].id == s.facts[k].id && FactKey(s'.facts[k]) == FactKey(s.facts[k]);
      }
    }
  }

  /** A change of one fact touches the belief of its key only. */
  lemma PutBelief(s: State, i: nat, f: Fact, key: Key)
    requires Inv(s) && i < |s.facts| && SameFact(s.facts[i], f)
    requires f.status == Active ==> s.facts[i].status == Active
    ensures key != FactKey(f) ==> Belief(Put(s, i, f).facts, key) == Belief(s.facts, key)
    ensures f.status == Active ==> Belief(Put(s, i, f).facts, key) >= Belief(s.facts, key)
    ensures s.facts[i].status != Active ==> Belief(Put(s, i, f).facts, key) == Belief(s.facts, key)
  {
    hide KeyOf, ActiveFor;
    var s' := Put(s, i, f);
    PutKeepsInv(s, i, f);
    AuthorityGrows(s.facts[i].sources, f.sources[|s.facts[i].sources|..]);
    assert f.sources == s.facts[i].sources + f.sources[|s.facts[i].sources|..];
    ActiveIndexFinds(s.facts, key);
    var was := ActiveIndex(s.facts, key);
    if was.Some? {
      assert ActiveFor(s.facts[was.value], key);
      ActiveMeans(s.facts[was.value], key);
      if was.value != i {
        BeliefOf(s', was.value);
        BeliefOf(s, was.value);
      } else if f.status == Active {
        BeliefOf(s', i);
        BeliefOf(s, i);
      }
    } else {
      ActiveIndexFinds(s'.facts, key);
      var now := ActiveIndex(s'.facts, key);
      if now.Some? {
        ActiveMeans(s'.facts[now.value], key);
        ActiveMeans(s.facts[now.value], key);
      }
    }
  }

  lemma ActiveMeans(f: Fact, key: Key)
    ensures ActiveFor(f, key) <==> FactKey(f) == key && f.status == Active
  {
  }

  // ---------------------------------------------------------------------------
  // One fact is added
  // ---------------------------------------------------------------------------

  function Added(s: State, f: Fact): State { s.(revision := s.revision + 1, facts := s.facts + [f]) }

  /** A fact that may join: numbered next, authoritative if active, alone in its key, linked backwards. */
  ghost predicate MayJoin(s: State, f: Fact) {
    && f.id == FactId(FactKey(f), s.revision + 1) && f.revision == s.revision + 1
    && (f.status == Active ==> Authority(f.sources) >= 1
                               && forall i: nat :: i < |s.facts| ==> !ActiveFor(s.facts[i], FactKey(f)))
    && (f.supersedes.Some? ==>
          exists k: nat :: k < |s.facts| && s.facts[k].id == f.supersedes.value && FactKey(s.facts[k]) == FactKey(f))
  }

  lemma JoinKeepsInv(s: State, f: Fact)
    requires Inv(s) && MayJoin(s, f)
    ensures Inv(Added(s, f)) && Grows(s, Added(s, f))
  {
    hide KeyOf, Authority;
    var s' := Added(s, f);
    forall i ensures FactOk(s', i) {
      assert FactOk(s, i);
    }
    forall i, k ensures PairOk(s', i, k) {
      assert PairOk(s, i, k) && FactOk(s, i);
    }
    forall i: nat ensures LinkOk(s', i) {
      assert LinkOk(s, i);
      if i < |s.facts| && s.facts[i].supersedes.Some? {
        var k: nat :| k < i && s.facts[k].id == s.facts[i].supersedes.value && FactKey(s.facts[k]) == FactKey(s.facts[i]);
        assert s'.facts[k] == s.facts[k];
      } else if i == |s.facts| && f.supersedes.Some? {
        var k: nat :| k < |s.facts| && s.facts[k].id == f.supersedes.value && FactKey(s.facts[k]) == FactKey(f);
        assert s'.facts[k] == s.facts[k];
      }
    }
  }

  lemma JoinBelief(s: State, f: Fact, key: Key)
    requires Inv(s) && MayJoin(s, f)
    ensures Belief(Added(s, f).facts, key) >= Belief(s.facts, key)
    ensures f.status == Active ==> Belief(Added(s, f).facts, FactKey(f)) == Authority(f.sources)
    ensures f.status != Active || key != FactKey(f) ==> Belief(Added(s, f).facts, key) == Belief(s.facts, key)
  {
    hide KeyOf, ActiveFor;
    var s' := Added(s, f);
    JoinKeepsInv(s, f);
    ActiveIndexFinds(s.facts, key);
    ActiveIndexFinds(s'.facts, key);
    ActiveMeans(f, key);
    var was, now := ActiveIndex(s.facts, key), ActiveIndex(s'.facts, key);
    if was.Some? {
      ActiveMeans(s.facts[was.value], key);
      BeliefOf(s, was.value);
      BeliefOf(s', was.value);
    } else if now.Some? {
      ActiveMeans(s'.facts[now.value], key);
      assert now.value == |s.facts|;
    }
    if f.status == Active {
      BeliefOf(s', |s.facts|);
    }
  }

  // ---------------------------------------------------------------------------
  // One candidate
  // ---------------------------------------------------------------------------

  /** What every step but an invalidation keeps. */
  ghost predicate Advances(s: State, s': State) {
    Inv(s') && Grows(s, s') && forall key :: Belief(s'.facts, key) >= Belief(s.facts, key)
  }

  /** Merging keeps the old evidence in place, adds only what was cited, and leaves no cited source out. */
  lemma {:induction false} MergedIsUnion(sources: seq<Evidence>, refs: seq<Evidence>, id: string)
    ensures HasSource(Merged(sources, refs), id) <==> HasSource(sources, id) || HasSource(refs, id)
    ensures forall e :: e in Merged(sources, refs) ==> e in sources || e in refs
  {
    if refs != [] {
      var n := |refs| - 1;
      MergedIsUnion(sources, refs[..n], id);
      MergedIsUnion(sources, refs[..n], refs[n].id);
      var before := Merged(sources, refs[..n]);
      assert refs == refs[..n] + [refs[n]];
      hide Merged;
      assert HasSource(refs, id) <==> HasSource(refs[..n], id) || refs[n].id == id;
      assert HasSource(before + [refs[n]], id) <==> HasSource(before, id) || refs[n].id == id;
    }
  }

  lemma {:induction false} MergedExtends(sources: seq<Evidence>, refs: seq<Evidence>)
    ensures sources <= Merged(sources, refs)
  {
  }

  lemma MergeAdvances(s: State, i: nat, refs: seq<Evidence>)
    requires Inv(s) && i < |s.facts| && s.facts[i].status == Active
    ensures Advances(s, Put(s, i, s.facts[i].(sources := Merged(s.facts[i].sources, refs))))
  {
    hide KeyOf, Authority;
    var f := s.facts[i].(sources := Merged(s.facts[i].sources, refs));
    MergedExtends(s.facts[i].sources, refs);
    hide Merged;
    PutKeepsInv(s, i, f);
    forall key ensures Belief(Put(s, i, f).facts, key) >= Belief(s.facts, key) {
      PutBelief(s, i, f, key);
    }
  }

  lemma PendingAdvances(s: State, f: Fact)
    requires Inv(s) && MayJoin(s, f) && f.status == Pending
    ensures Advances(s, Added(s, f))
  {
    JoinKeepsInv(s, f);
    forall key ensures Belief(Added(s, f).facts, key) >= Belief(s.facts, key) {
      JoinBelief(s, f, key);
    }
  }

  /** A new active fact where there was none, or in place of one with no more authority. */
  lemma ReplaceAdvances(s: State, i: nat, f: Fact)
    requires Inv(s) && i < |s.facts| && s.facts[i].status == Active && FactKey(f) == FactKey(s.facts[i])
    requires f.status == Active && f.supersedes == Some(s.facts[i].id)
    requires f.id == FactId(FactKey(f), s.revision + 1) && f.revision == s.revision + 1
    requires Authority(f.sources) >= 1 && Authority(f.sources) >= Authority(s.facts[i].sources)
    ensures Advances(s, Added(Put(s, i, s.facts[i].(status := Superseded)), f))
  {
    hide KeyOf, Authority, ActiveFor;
    var g := s.facts[i].(status := Superseded);
    var s1 := Put(s, i, g);
    PutKeepsInv(s, i, g);
    BeliefOf(s, i);
    forall k: nat | k < |s1.facts| ensures !ActiveFor(s1.facts[k], FactKey(f)) {
      ActiveMeans(s1.facts[k], FactKey(f));
      assert PairOk(s, i, k) && PairOk(s, k, i);
    }
    assert s1.facts[i].id == f.supersedes.value && FactKey(s1.facts[i]) == FactKey(f);
    assert MayJoin(s1, f);
    JoinKeepsInv(s1, f);
    var s' := Added(s1, f);
    GrowsThrough(s, s1, s');
    forall key ensures Belief(s'.facts, key) >= Belief(s.facts, key) {
      JoinBelief(s1, f, key);
      PutBelief(s, i, g, key);
    }
  }

  lemma GrowsThrough(a: State, b: State, c: State)
    requires Grows(a, b) && Grows(b, c)
    ensures Grows(a, c)
  {
    forall i: nat | i < |a.facts| ensures SameFact(a.facts[i], c.facts[i]) {
      assert SameFact(a.facts[i], b.facts[i]) && SameFact(b.facts[i], c.facts[i]);
    }
  }

  lemma FreshActiveAdvances(s: State, f: Fact)
    requires Inv(s) && f.status == Active && f.supersedes.None? && Authority(f.sources) >= 1
    requires f.id == FactId(FactKey(f), s.revision + 1) && f.revision == s.revision + 1
    requires ActiveIndex(s.facts, FactKey(f)).None?
    ensures Advances(s, Added(s, f))
  {
    hide KeyOf, Authority;
    ActiveIndexFinds(s.facts, FactKey(f));
    JoinKeepsInv(s, f);
    forall key ensures Belief(Added(s, f).facts, key) >= Belief(s.facts, key) {
      JoinBelief(s, f, key);
    }
  }

  lemma CandidateAdvances(s: State, scope: Scope, c: Candidate, sources: map<string, Evidence>)
    requires Inv(s) && ApplyOne(s, scope, c, sources).Ok?
    ensures Advances(s, ApplyOne(s, scope, c, sources).value)
  {
    hide KeyOf, Authority, Text.TrimSpace, Merged, ActiveIndex, Advances, Inv, Cited;
    var subject, attribute, value := Text.TrimSpace(c.subject), Text.TrimSpace(c.attribute), Text.TrimSpace(c.value);
    var refs := Cited(c.evidence, sources);
    var key := KeyOf(scope, subject, attribute);
    var prev := ActiveIndex(s.facts, key);
    ActiveIndexFinds(s.facts, key);
    var s' := ApplyOne(s, scope, c, sources).value;
    if prev.Some? && s.facts[prev.value].value == value {
      assert s' == Put(s, prev.value, s.facts[prev.value].(sources := Merged(s.facts[prev.value].sources, refs)));
      MergeAdvances(s, prev.value, refs);
    } else {
      var f := s'.facts[|s.facts|];
      assert FactKey(f) == key && f.sources == refs;
      if f.status == Pending {
        assert s' == Added(s, f);
        PendingAdvances(s, f);
      } else if prev.None? {
        assert s' == Added(s, f);
        FreshActiveAdvances(s, f);
      } else {
        assert s' == Added(Put(s, prev.value, s.facts[prev.value].(status := Superseded)), f);
        ReplaceAdvances(s, prev.value, f);
      }
    }
  }

  lemma AdvancesThrough(a: State, b: State, c: State)
    requires Advances(a, b) && Advances(b, c)
    ensures Advances(a, c)
  {
    hide Inv, Belief;
    GrowsThrough(a, b, c);
  }

  lemma AdvancesItself(s: State)
    requires Inv(s)
    ensures Advances(s, s)
  {
    hide Inv;
  }

  lemma {:induction false} EachAdvances(s: State, scope: Scope, cs: seq<Candidate>, sources: map<string, Evidence>)
    requires Inv(s) && ApplyEach(s, scope, cs, sources).Ok?
    ensures Advances(s, ApplyEach(s, scope, cs, sources).value)
  {
    hide Inv, ApplyOne, Grows, Belief;
    if cs == [] {
      AdvancesItself(s);
    } else {
      var n := |cs| - 1;
      EachAdvances(s, scope, cs[..n], sources);
      var before := ApplyEach(s, scope, cs[..n], sources).value;
      CandidateAdvances(before, scope, cs[n], sources);
      AdvancesThrough(s, before, ApplyEach(s, scope, cs, sources).value);
    }
  }

  /** Moving the revision on, or marking a turn. */
  lemma MarkAdvances(s: State, revision: nat, sessions: set<(Scope, string)>)
    requires Inv(s) && revision >= s.revision && sessions >= s.sessions
    ensures Advances(s, s.(revision := revision, sessions := sessions))
  {
    hide KeyOf, Authority;
    var s' := s.(revision := revision, sessions := sessions);
    forall i ensures FactOk(s', i) && LinkOk(s', i) {
      assert FactOk(s, i) && LinkOk(s, i);
    }
    forall i, k ensures PairOk(s', i, k) {
      assert PairOk(s, i, k);
    }
  }

  lemma FactsAdvance(s: State, scope: Scope, cs: seq<Candidate>, sources: map<string, Evidence>)
    requires Inv(s) && ApplyFacts(s, scope, cs, sources).Ok?
    ensures Advances(s, ApplyFacts(s, scope, cs, sources).value)
    ensures ApplyFacts(s, scope, cs, sources).value.revision > s.revision
    ensures ApplyFacts(s, scope, cs, sources).value.sessions >= s.sessions
  {
    hide ApplyEach, Inv, Belief;
    EachAdvances(s, scope, cs, sources);
    var s1 := ApplyEach(s, scope, cs, sources).value;
    MarkAdvances(s1, s1.revision + 1, s1.sessions);
    AdvancesThrough(s, s1, ApplyFacts(s, scope, cs, sources).value);
  }

  // ---------------------------------------------------------------------------
  // Runs
  // ---------------------------------------------------------------------------

  datatype Event =
    | DoUpsert(scope: Scope, cs: seq<Candidate>, sources: map<string, Evidence>, expected: Option<nat>, w: Write)
    | DoStore(scope: Scope, turn: string, cs: seq<Candidate>, sources: map<string, Evidence>, w: Write)
    | DoInvalidate(scope: Scope, id: FactId, w: Write)

  /** `applied` is history: the turns whose extraction entered the store. */
  datatype Sys = Sys(s: State, applied: multiset<(Scope, string)>)

  function Written(s: State, r: Result<State, FactError>, w: Write): State { if r.Ok? && w != Lost then r.value else s }

  function Apply(y: Sys, e: Event): Sys {
    match e
    case DoUpsert(scope, cs, sources, expected, w) => y.(s := Written(y.s, Upsert(y.s, scope, cs, sources, expected), w))
    case DoStore(scope, turn, cs, sources, w) =>
      var r := Store(y.s, scope, turn, cs, sources);
      Sys(Written(y.s, r, w),
          if r.Ok? && w != Lost && (scope, turn) !in y.s.sessions then y.applied + multiset{(scope, turn)} else y.applied)
    case DoInvalidate(scope, id, w) => y.(s := Written(y.s, Invalidate(y.s, scope, id), w))
  }

  function After(es: seq<Event>): Sys {
    if es == [] then Sys(State(0, [], {}), multiset{}) else Apply(After(es[..|es| - 1]), es[|es| - 1])
  }

  ghost predicate AppliedAt(y: Sys, t: (Scope, string)) { y.applied[t] == if t in y.s.sessions then 1 else 0 }

  ghost predicate RunInv(y: Sys) { Inv(y.s) && forall t :: AppliedAt(y, t) }

  lemma InvalidateKeeps(s: State, scope: Scope, id: FactId)
    requires Inv(s) && Invalidate(s, scope, id).Ok?
    ensures Inv(Invalidate(s, scope, id).value) && Grows(s, Invalidate(s, scope, id).value)
  {
    hide Inv, Belief, KeyOf, FirstFact;
    var i := FirstFact(s.facts, scope, id).value;
    var f := s.facts[i].(status := Invalidated);
    PutKeepsInv(s, i, f);
    var s1 := Put(s, i, f);
    MarkAdvances(s1, s1.revision + 1, s1.sessions);
    GrowsThrough(s, s1, Invalidate(s, scope, id).value);
  }

  lemma UpsertAdvances(s: State, scope: Scope, cs: seq<Candidate>, sources: map<string, Evidence>, expected: Option<nat>)
    requires Inv(s) && Upsert(s, scope, cs, sources, expected).Ok?
    ensures Advances(s, Upsert(s, scope, cs, sources, expected).value)
    ensures Upsert(s, scope, cs, sources, expected).value.sessions == s.sessions
  {
    hide ApplyFacts, Advances, Inv;
    FactsAdvance(s, scope, cs, sources);
    SessionsStay(s, scope, cs, sources);
  }

  lemma {:induction false} SessionsStayEach(s: State, scope: Scope, cs: seq<Candidate>, sources: map<string, Evidence>)
    requires ApplyEach(s, scope, cs, sources).Ok?
    ensures ApplyEach(s, scope, cs, sources).value.sessions == s.sessions
  {
    hide KeyOf, Text.TrimSpace, ActiveIndex, Cited, Merged, Authority;
    if cs != [] {
      SessionsStayEach(s, scope, cs[..|cs| - 1], sources);
    }
  }

  lemma SessionsStay(s: State, scope: Scope, cs: seq<Candidate>, sources: map<string, Evidence>)
    requires ApplyFacts(s, scope, cs, sources).Ok?
    ensures ApplyFacts(s, scope, cs, sources).value.sessions == s.sessions
  {
    hide ApplyEach;
    SessionsStayEach(s, scope, cs, sources);
  }

  lemma StoreAdvances(s: State, scope: Scope, turn: string, cs: seq<Candidate>, sources: map<string, Evidence>)
    requires Inv(s) && Store(s, scope, turn, cs, sources).Ok?
    ensures Advances(s, Store(s, scope, turn, cs, sources).value)
    ensures Store(s, scope, turn, cs, sources).value.sessions == s.sessions + {(scope, turn)}
  {
    hide ApplyFacts, Advances, Inv;
    if (scope, turn) in s.sessions {
      AdvancesItself(s);
      assert s.sessions + {(scope, turn)} == s.sessions;
    } else {
      FactsAdvance(s, scope, cs, sources);
      SessionsStay(s, scope, cs, sources);
      var s1 := ApplyFacts(s, scope, cs, sources).value;
      assert Inv(s1) by { AdvancedIsSound(s, s1); }
      MarkAdvances(s1, s1.revision, s1.sessions + {(scope, turn)});
      AdvancesThrough(s, s1, s1.(sessions := s1.sessions + {(scope, turn)}));
    }
  }

  lemma AdvancedIsSound(s: State, s': State)
    requires Advances(s, s')
    ensures Inv(s')
  {
  }

  lemma StepKeepsInv(y: Sys, e: Event)
    requires RunInv(y)
    ensures RunInv(Apply(y, e)) && Grows(y.s, Apply(y, e).s)
    ensures !e.DoInvalidate? ==> Advances(y.s, Apply(y, e).s)
  {
    hide Inv, Upsert, Store, Invalidate, Belief;
    AdvancesItself(y.s);
    var y' := Apply(y, e);
    match e {
      case DoUpsert(scope, cs, sources, expected, w) =>
        if Upsert(y.s, scope, cs, sources, expected).Ok? {
          UpsertAdvances(y.s, scope, cs, sources, expected);
        }
      case DoStore(scope, turn, cs, sources, w) =>
        if Store(y.s, scope, turn, cs, sources).Ok? {
          StoreAdvances(y.s, scope, turn, cs, sources);
        }
      case DoInvalidate(scope, id, w) =>
        if Invalidate(y.s, scope, id).Ok? {
          InvalidateKeeps(y.s, scope, id);
          InvalidateLeavesSessions(y.s, scope, id);
        }
    }
    hide Grows;
    forall t ensures AppliedAt(y', t) {
      assert AppliedAt(y, t);
    }
  }

  lemma InvalidateLeavesSessions(s: State, scope: Scope, id: FactId)
    requires Invalidate(s, scope, id).Ok?
    ensures Invalidate(s, scope, id).value.sessions == s.sessions
  {
  }

  lemma {:induction false} Reachable(es: seq<Event>)
    ensures RunInv(After(es))
  {
    if es == [] {
    } else {
      Reachable(es[..|es| - 1]);
      StepKeepsInv(After(es[..|es| - 1]), es[|es| - 1]);
    }
  }

  // ---------------------------------------------------------------------------
  // What every reachable store guarantees
  // ---------------------------------------------------------------------------

  /** At most one active fact per key, and every active fact has some authority behind it. */
  lemma OneActiveFactPerKey(es: seq<Event>, i: nat, k: nat)
    requires i < |After(es).s.facts| && k < |After(es).s.facts|
    requires After(es).s.facts[i].status == Active && After(es).s.facts[k].status == Active
    requires FactKey(After(es).s.facts[i]) == FactKey(After(es).s.facts[k])
    ensures i == k && Authority(After(es).s.facts[i].sources) >= 1
  {
    Reachable(es);
    var s := After(es).s;
    hide KeyOf, Authority, After;
    assert FactOk(s, i) && PairOk(s, i, k) && PairOk(s, k, i);
  }

  /** Identifiers are unique, and supersedes links lead strictly backwards to the same key: they have no cycle. */
  lemma LinksLeadBackwards(es: seq<Event>, i: nat, k: nat)
    requires i < |After(es).s.facts| && k < |After(es).s.facts|
    ensures After(es).s.facts[i].id == After(es).s.facts[k].id ==> i == k
    ensures After(es).s.facts[i].supersedes == Some(After(es).s.facts[k].id) ==>
              k < i && FactKey(After(es).s.facts[k]) == FactKey(After(es).s.facts[i])
    ensures After(es).s.facts[i].supersedes.Some? ==>
              exists m: nat :: m < i && After(es).s.facts[m].id == After(es).s.facts[i].supersedes.value
  {
    Reachable(es);
    var s := After(es).s;
    hide KeyOf, Authority, After;
    assert FactOk(s, i) && FactOk(s, k) && PairOk(s, i, k) && PairOk(s, k, i) && LinkOk(s, i);
    if s.facts[i].supersedes.Some? {
      var m: nat :| m < i && s.facts[m].id == s.facts[i].supersedes.value && FactKey(s.facts[m]) == FactKey(s.facts[i]);
      assert FactOk(s, m) && PairOk(s, m, k) && PairOk(s, k, m);
    }
  }

  /** Facts are never removed: a continuation keeps every fact, its value and its evidence. */
  lemma {:induction false} FactsAreKept(es: seq<Event>, more: seq<Event>, i: nat)
    requires i < |After(es).s.facts|
    ensures i < |After(es + more).s.facts| && SameFact(After(es).s.facts[i], After(es + more).s.facts[i])
  {
    if more == [] {
      assert es + more == es;
    } else {
      var n := |more| - 1;
      FactsAreKept(es, more[..n], i);
      assert (es + more)[..|es + more| - 1] == es + more[..n];
      Reachable(es + more[..n]);
      StepKeepsInv(After(es + more[..n]), more[n]);
    }
  }

  /** Withdrawing the active fact of a key leaves nothing believed of it. */
  lemma WithdrawnBelief(s: State, i: nat)
    requires Inv(s) && i < |s.facts| && s.facts[i].status == Active
    ensures ActiveIndex(s.facts, FactKey(s.facts[i])) == Some(i)
    ensures Belief(Put(s, i, s.facts[i].(status := Invalidated)).facts, FactKey(s.facts[i])) == 0
  {
    hide KeyOf, Authority, ActiveFor;
    var key := FactKey(s.facts[i]);
    var s' := Put(s, i, s.facts[i].(status := Invalidated));
    BeliefOf(s, i);
    forall k: nat | k < |s'.facts| ensures !ActiveFor(s'.facts[k], key) {
      ActiveMeans(s'.facts[k], key);
      assert PairOk(s, i, k) && PairOk(s, k, i);
    }
    ActiveIndexFinds(s'.facts, key);
  }

  lemma InvalidationBelief(s: State, scope: Scope, id: FactId, key: Key)
    requires Inv(s) && Invalidate(s, scope, id).Ok?
    ensures var facts := Invalidate(s, scope, id).value.facts;
            Belief(facts, key) < Belief(s.facts, key) ==>
              && Belief(facts, key) == 0
              && var i := ActiveIndex(s.facts, key);
              i.Some? && s.facts[i.value].id == id && s.facts[i.value].scope == scope
  {
    hide Inv, Belief, ActiveIndex, KeyOf, FirstFact;
    var i := FirstFact(s.facts, scope, id).value;
    var f := s.facts[i].(status := Invalidated);
    PutBelief(s, i, f, key);
    if key == FactKey(f) && s.facts[i].status == Active {
      WithdrawnBelief(s, i);
    }
  }

  /**
    What is believed of a key loses authority only by an invalidation, namely of the very fact that was believed,
    and then nothing is believed of the key.
   */
  lemma BeliefFallsOnlyByInvalidation(es: seq<Event>, e: Event, key: Key)
    requires Belief(After(es + [e]).s.facts, key) < Belief(After(es).s.facts, key)
    ensures e.DoInvalidate? && Belief(After(es + [e]).s.facts, key) == 0
    ensures var facts := After(es).s.facts;
            var i := ActiveIndex(facts, key);
            i.Some? && facts[i.value].id == e.id && facts[i.value].scope == e.scope
  {
    hide Inv, Upsert, Store, Invalidate, Belief, ActiveIndex;
    Reachable(es);
    assert (es + [e])[..|es|] == es;
    StepKeepsInv(After(es), e);
    if e.DoInvalidate? && Invalidate(After(es).s, e.scope, e.id).Ok? {
      InvalidationBelief(After(es).s, e.scope, e.id, key);
    }
  }

  /** A turn's extraction enters the store at most once, however often it is submitted or its write reported lost. */
  lemma TurnAppliedAtMostOnce(es: seq<Event>, t: (Scope, string))
    ensures After(es).applied[t] <= 1
  {
    Reachable(es);
    assert AppliedAt(After(es), t);
  }

  // ---------------------------------------------------------------------------
  // Optimistic writers
  // ---------------------------------------------------------------------------

  /** A write that reaches the store: an upsert, a turn stored for the first time, or an invalidation. */
  ghost predicate TookEffect(y: Sys, e: Event) {
    match e
    case DoUpsert(scope, cs, sources, expected, w) => w != Lost && Upsert(y.s, scope, cs, sources, expected).Ok?
    case DoStore(scope, turn, cs, sources, w) =>
      w != Lost && (scope, turn) !in y.s.sessions && Store(y.s, scope, turn, cs, sources).Ok?
    case DoInvalidate(scope, id, w) => w != Lost && Invalidate(y.s, scope, id).Ok?
  }

  ghost predicate EffectIn(es: seq<Event>, more: seq<Event>, k: nat) {
    k < |more| && TookEffect(After(es + more[..k]), more[k])
  }

  /** Every write that takes effect raises the revision; anything else leaves the store as it is. */
  lemma EffectRaises(y: Sys, e: Event)
    requires RunInv(y)
    ensures if TookEffect(y, e) then Apply(y, e).s.revision > y.s.revision else Apply(y, e).s == y.s
  {
    hide Inv, ApplyFacts, FirstFact;
    match e
    case DoUpsert(scope, cs, sources, expected, w) =>
      if Upsert(y.s, scope, cs, sources, expected).Ok? {
        FactsAdvance(y.s, scope, cs, sources);
      }
    case DoStore(scope, turn, cs, sources, w) =>
      if (scope, turn) !in y.s.sessions && Store(y.s, scope, turn, cs, sources).Ok? {
        FactsAdvance(y.s, scope, cs, sources);
      }
    case DoInvalidate(scope, id, w) =>
  }

  lemma {:induction false} RevisionTells(es: seq<Event>, more: seq<Event>)
    ensures (exists k :: EffectIn(es, more, k)) ==> After(es + more).s.revision > After(es).s.revision
    ensures (forall k :: !EffectIn(es, more, k)) ==> After(es + more).s == After(es).s
    decreases |more|
  {
    hide After, Apply, TookEffect, RunInv;
    if more == [] {
      assert es + more == es;
    } else {
      var n := |more| - 1;
      var before := es + more[..n];
      RevisionTells(es, more[..n]);
      Reachable(before);
      EffectRaises(After(before), more[n]);
      assert es + more == before + [more[n]];
      RunNext(before, more[n]);
      forall k: nat | k < n ensures EffectIn(es, more, k) <==> EffectIn(es, more[..n], k) {
        assert more[..n][..k] == more[..k];
      }
      assert EffectIn(es, more, n) <==> TookEffect(After(before), more[n]);
    }
  }

  lemma RunNext(es: seq<Event>, e: Event)
    ensures After(es + [e]) == Apply(After(es), e)
  {
    assert (es + [e])[..|es|] == es;
  }

  lemma {:induction false} NoConflictWithin(s: State, scope: Scope, cs: seq<Candidate>, sources: map<string, Evidence>)
    ensures ApplyEach(s, scope, cs, sources) != Err(RevisionConflict)
    ensures ApplyEach(s, scope, cs, sources) != Err(BadScope)
  {
    hide KeyOf, Text.TrimSpace, ActiveIndex, Cited, Merged, Authority;
    if cs != [] {
      NoConflictWithin(s, scope, cs[..|cs| - 1], sources);
    }
  }

  /**
    No update is lost, over every continuation: an upsert that names the revision read at some earlier point meets
    the revision conflict if and only if some write took effect since, and otherwise it works on what was read.
   */
  lemma NoLostUpdate(es: seq<Event>, more: seq<Event>, scope: Scope, cs: seq<Candidate>, sources: map<string, Evidence>)
    ensures var read, now := After(es).s, After(es + more).s;
            var r := Upsert(now, scope, cs, sources, Some(read.revision));
            && (r == Err(BadScope) <==> scope.repo == "" || scope.user == "")
            && (r == Err(RevisionConflict) <==> r != Err(BadScope) && exists k :: EffectIn(es, more, k))
            && (r != Err(BadScope) && r != Err(RevisionConflict) ==>
                  now == read && r == Upsert(read, scope, cs, sources, None))
  {
    hide After, ApplyEach, EffectIn;
    RevisionTells(es, more);
    NoConflictWithin(After(es + more).s, scope, cs, sources);
  }
}
