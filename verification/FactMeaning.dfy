/**
  What an update of the fact store means: which evidence weighs more, which candidate wins, and that everything
  submitted, and nothing else, is in the store afterwards.
 */
module FactMeaning {
  import opened Common
  import opened Facts
  import opened FactRuns
  import opened Text

  // ---------------------------------------------------------------------------
  // Keys and evidence
  // ---------------------------------------------------------------------------

  /** The same character, but for the case of an ASCII letter. */
  predicate SameLetter(x: char, y: char) {
    || x == y
    || ('A' <= x <= 'Z' && y as int == x as int + 32)
    || ('A' <= y <= 'Z' && x as int == y as int + 32)
  }

  predicate SameWord(a: string, b: string) { |a| == |b| && forall i :: 0 <= i < |a| ==> SameLetter(a[i], b[i]) }

  /** Two facts speak of one key iff their scopes agree and their trimmed subjects and attributes do, but for case. */
  lemma KeysAgreeIff(f: Fact, g: Fact)
    ensures FactKey(f) == FactKey(g) <==>
              && f.scope == g.scope
              && SameWord(TrimSpace(f.subject), TrimSpace(g.subject))
              && SameWord(TrimSpace(f.attribute), TrimSpace(g.attribute))
  {
    LowerAgrees(TrimSpace(f.subject), TrimSpace(g.subject));
    LowerAgrees(TrimSpace(f.attribute), TrimSpace(g.attribute));
    hide Lower, TrimSpace, SameWord;
  }

  lemma LowerAgrees(a: string, b: string)
    ensures Lower(a) == Lower(b) <==> SameWord(a, b)
  {
    if Lower(a) == Lower(b) {
      assert |a| == |Lower(a)| == |b|;
      forall i | 0 <= i < |a| ensures SameLetter(a[i], b[i]) {
        assert Lower(a)[i] == Lower(b)[i];
      }
    }
  }

  predicate OfKind(sources: seq<Evidence>, kind: string) { exists e :: e in sources && e.kind == kind }

  /**
    The strongest evidence counts: confirmed by the user, then verified in the workspace, then said in conversation.
   */
  lemma {:induction false} AuthorityIsTheStrongestKind(sources: seq<Evidence>)
    ensures Authority(sources) ==
            if OfKind(sources, "user_confirmed") then 3
            else if OfKind(sources, "workspace_verified") then 2
            else if OfKind(sources, "conversation") then 1
            else 0
  {
    if sources != [] {
      var n := |sources| - 1;
      AuthorityIsTheStrongestKind(sources[..n]);
      OneMoreOfKind(sources, "user_confirmed");
      OneMoreOfKind(sources, "workspace_verified");
      OneMoreOfKind(sources, "conversation");
      hide OfKind;
    }
  }

  lemma OneMoreOfKind(sources: seq<Evidence>, kind: string)
    requires sources != []
    ensures var n := |sources| - 1;
            OfKind(sources, kind) <==> OfKind(sources[..n], kind) || sources[n].kind == kind
  {
    var n := |sources| - 1;
    assert sources == sources[..n] + [sources[n]];
  }

  // ---------------------------------------------------------------------------
  // One candidate against what is believed
  // ---------------------------------------------------------------------------

  function KeyFor(scope: Scope, c: Candidate): Key { KeyOf(scope, TrimSpace(c.subject), TrimSpace(c.attribute)) }

  /** A candidate is refused exactly for an empty or unclean field, an unknown source, or no evidence at all. */
  lemma RefusedIff(s: State, scope: Scope, c: Candidate, sources: map<string, Evidence>)
    ensures var r := ApplyOne(s, scope, c, sources);
            var sound := TrimSpace(c.subject) != "" && TrimSpace(c.attribute) != "" && TrimSpace(c.value) != ""
                && c.clean;
            && (r == Err(BadCandidate) <==> !sound)
            && (r == Err(UnknownEvidence) <==> sound && exists k :: 0 <= k < |c.evidence| && c.evidence[k] !in sources)
            && (r == Err(NoEvidence) <==> sound && c.evidence == [])
            && (r.Ok? <==> sound && c.evidence != [] && forall k :: 0 <= k < |c.evidence| ==> c.evidence[k] in sources)
  {
    hide TrimSpace, KeyOf, ActiveIndex, Merged, Authority;
  }

  /** The fact a candidate would be, had it this status and superseded this fact. */
  function Candidacy(s: State, scope: Scope, c: Candidate, refs: seq<Evidence>, status: Status, old': Option<FactId>)
    : Fact
  {
    Fact(FactId(KeyFor(scope, c), s.revision + 1), TrimSpace(c.subject), TrimSpace(c.attribute), TrimSpace(c.value),
         status, scope, refs, s.revision + 1, old')
  }

  /**
    Against another value that is believed, a candidate of at least its authority takes its place and names it, and a
    weaker one waits beside it.
   */
  lemma StrongerOrEqualWins(s: State, scope: Scope, c: Candidate, sources: map<string, Evidence>, i: nat)
    requires Inv(s) && ApplyOne(s, scope, c, sources).Ok?
    requires i < |s.facts| && ActiveFor(s.facts[i], KeyFor(scope, c)) && s.facts[i].value != TrimSpace(c.value)
    ensures Known(c.evidence, sources)
    ensures var s', refs := ApplyOne(s, scope, c, sources).value, Cited(c.evidence, sources);
            if Authority(refs) >= Authority(s.facts[i].sources) then
              s'.facts == s.facts[i := s.facts[i].(status := Superseded)]
                          + [Candidacy(s, scope, c, refs, Active, Some(s.facts[i].id))]
            else s'.facts == s.facts + [Candidacy(s, scope, c, refs, Pending, None)]
  {
    hide TrimSpace, KeyOf, Merged, Authority, Inv;
    OnlyActive(s, KeyFor(scope, c), i);
    hide ActiveIndex;
  }

  lemma OnlyActive(s: State, key: Key, i: nat)
    requires Inv(s) && i < |s.facts| && ActiveFor(s.facts[i], key)
    ensures ActiveIndex(s.facts, key) == Some(i) && Authority(s.facts[i].sources) >= 1
  {
    hide KeyOf, Authority, Inv;
    BeliefOf(s, i);
  }

  /** While nothing is believed of its key, a candidate with any authority is believed, and one without waits. */
  lemma FirstBelief(s: State, scope: Scope, c: Candidate, sources: map<string, Evidence>)
    requires ApplyOne(s, scope, c, sources).Ok?
    requires forall i :: 0 <= i < |s.facts| ==> !ActiveFor(s.facts[i], KeyFor(scope, c))
    ensures Known(c.evidence, sources)
    ensures var refs := Cited(c.evidence, sources);
            ApplyOne(s, scope, c, sources).value.facts ==
            s.facts + [Candidacy(s, scope, c, refs, if Authority(refs) >= 1 then Active else Pending, None)]
  {
    hide TrimSpace, KeyOf, Merged, Authority, ActiveFor;
    ActiveIndexFinds(s.facts, KeyFor(scope, c));
    hide ActiveIndex;
  }

  /** A value that is believed already only gains evidence. */
  lemma SameValueGainsEvidence(s: State, scope: Scope, c: Candidate, sources: map<string, Evidence>, i: nat, id: string)
    requires Inv(s) && ApplyOne(s, scope, c, sources).Ok?
    requires i < |s.facts| && ActiveFor(s.facts[i], KeyFor(scope, c)) && s.facts[i].value == TrimSpace(c.value)
    ensures Known(c.evidence, sources)
    ensures var f, facts := s.facts[i], ApplyOne(s, scope, c, sources).value.facts;
            && |facts| == |s.facts| && facts == s.facts[i := f.(sources := facts[i].sources)]
            && (HasSource(facts[i].sources, id) <==>
                  HasSource(f.sources, id) || HasSource(Cited(c.evidence, sources), id))
  {
    hide TrimSpace, KeyOf, Authority, Inv;
    OnlyActive(s, KeyFor(scope, c), i);
    MergedIsUnion(s.facts[i].sources, Cited(c.evidence, sources), id);
    hide ActiveIndex, Merged, HasSource;
  }

  // ---------------------------------------------------------------------------
  // All candidates of an update
  // ---------------------------------------------------------------------------

  /** The fact says what the candidate says, on its evidence. */
  ghost predicate Holds(f: Fact, scope: Scope, c: Candidate, sources: map<string, Evidence>) {
    && FactKey(f) == KeyFor(scope, c) && f.value == TrimSpace(c.value)
    && Known(c.evidence, sources)
    && forall k :: 0 <= k < |c.evidence| ==> HasSource(f.sources, sources[c.evidence[k]].id)
  }

  ghost predicate Held(facts: seq<Fact>, scope: Scope, c: Candidate, sources: map<string, Evidence>) {
    exists i :: 0 <= i < |facts| && Holds(facts[i], scope, c, sources)
  }

  ghost predicate Submitted(f: Fact, scope: Scope, cs: seq<Candidate>, sources: map<string, Evidence>) {
    exists k :: 0 <= k < |cs| && Holds(f, scope, cs[k], sources)
  }

  lemma HoldsLater(f: Fact, f': Fact, scope: Scope, c: Candidate, sources: map<string, Evidence>)
    requires Holds(f, scope, c, sources) && SameFact(f, f')
    ensures Holds(f', scope, c, sources)
  {
    hide TrimSpace, KeyOf, KeyFor;
    forall k | 0 <= k < |c.evidence| ensures HasSource(f'.sources, sources[c.evidence[k]].id) {
      assert HasSource(f.sources, sources[c.evidence[k]].id);
      var e :| e in f.sources && e.id == sources[c.evidence[k]].id;
      assert e in f'.sources;
    }
  }

  lemma CitedAreSources(ids: seq<string>, sources: map<string, Evidence>, k: nat)
    requires Known(ids, sources) && k < |ids|
    ensures HasSource(Cited(ids, sources), sources[ids[k]].id)
  {
    assert Cited(ids, sources)[k] in Cited(ids, sources);
  }

  /** Where one candidate went. */
  lemma CandidateIsHeld(s: State, scope: Scope, c: Candidate, sources: map<string, Evidence>) returns (i: nat)
    requires ApplyOne(s, scope, c, sources).Ok?
    ensures var facts := ApplyOne(s, scope, c, sources).value.facts;
            && i < |facts| && Holds(facts[i], scope, c, sources)
            && |s.facts| <= |facts| <= |s.facts| + 1 && (|facts| > |s.facts| ==> i == |s.facts|)
  {
    hide TrimSpace, KeyOf, Authority, ActiveIndex, Merged, HasSource;
    var key, refs := KeyFor(scope, c), Cited(c.evidence, sources);
    ActiveIndexFinds(s.facts, key);
    var prev := ActiveIndex(s.facts, key);
    i := |s.facts|;
    if prev.Some? && s.facts[prev.value].value == TrimSpace(c.value) {
      i := prev.value;
    }
    forall k: nat | k < |c.evidence|
      ensures HasSource(ApplyOne(s, scope, c, sources).value.facts[i].sources, sources[c.evidence[k]].id)
    {
      CitedAreSources(c.evidence, sources, k);
      if i < |s.facts| {
        MergedIsUnion(s.facts[i].sources, refs, sources[c.evidence[k]].id);
      }
    }
  }

  /** Every candidate of a successful update is in the store afterwards, with all the evidence it cited. */
  lemma {:induction false} EveryCandidateIsHeld(s: State, scope: Scope, cs: seq<Candidate>,
                                                sources: map<string, Evidence>, k: nat)
    requires Inv(s) && ApplyEach(s, scope, cs, sources).Ok? && k < |cs|
    ensures Held(ApplyEach(s, scope, cs, sources).value.facts, scope, cs[k], sources)
  {
    hide Inv, ApplyOne, Belief, Holds;
    var n := |cs| - 1;
    var before := ApplyEach(s, scope, cs[..n], sources).value;
    EachAdvances(s, scope, cs[..n], sources);
    CandidateAdvances(before, scope, cs[n], sources);
    var after := ApplyOne(before, scope, cs[n], sources).value;
    if k == n {
      var i := CandidateIsHeld(before, scope, cs[n], sources);
    } else {
      EveryCandidateIsHeld(s, scope, cs[..n], sources, k);
      var i :| 0 <= i < |before.facts| && Holds(before.facts[i], scope, cs[k], sources);
      HoldsLater(before.facts[i], after.facts[i], scope, cs[k], sources);
    }
  }

  /** And every fact that is new says what some candidate said. */
  lemma {:induction false} NothingIsInvented(s: State, scope: Scope, cs: seq<Candidate>,
                                             sources: map<string, Evidence>, i: nat)
    requires Inv(s) && ApplyEach(s, scope, cs, sources).Ok?
    requires |s.facts| <= i < |ApplyEach(s, scope, cs, sources).value.facts|
    ensures Submitted(ApplyEach(s, scope, cs, sources).value.facts[i], scope, cs, sources)
    decreases |cs|
  {
    hide Inv, ApplyOne, Belief, Holds;
    var n := |cs| - 1;
    var before := ApplyEach(s, scope, cs[..n], sources).value;
    EachAdvances(s, scope, cs[..n], sources);
    CandidateAdvances(before, scope, cs[n], sources);
    var after := ApplyOne(before, scope, cs[n], sources).value;
    if i < |before.facts| {
      NothingIsInvented(s, scope, cs[..n], sources, i);
      var k :| 0 <= k < |cs[..n]| && Holds(before.facts[i], scope, cs[..n][k], sources);
      HoldsLater(before.facts[i], after.facts[i], scope, cs[k], sources);
    } else {
      var m := CandidateIsHeld(before, scope, cs[n], sources);
    }
  }

  /** What an update of a reachable store leaves: all that was submitted, nothing else new, and all that was there. */
  ghost predicate Recorded(s: State, s': State, scope: Scope, cs: seq<Candidate>, sources: map<string, Evidence>) {
    && Grows(s, s') && s'.revision > s.revision
    && (forall k :: 0 <= k < |cs| ==> Held(s'.facts, scope, cs[k], sources))
    && (forall i :: |s.facts| <= i < |s'.facts| ==> Submitted(s'.facts[i], scope, cs, sources))
  }

  lemma FactsAreRecorded(s: State, scope: Scope, cs: seq<Candidate>, sources: map<string, Evidence>)
    requires Inv(s) && ApplyFacts(s, scope, cs, sources).Ok?
    ensures Recorded(s, ApplyFacts(s, scope, cs, sources).value, scope, cs, sources)
  {
    hide Inv, ApplyEach, Belief, Held, Submitted;
    FactsAdvance(s, scope, cs, sources);
    var facts := ApplyFacts(s, scope, cs, sources).value.facts;
    forall k | 0 <= k < |cs| ensures Held(facts, scope, cs[k], sources) {
      EveryCandidateIsHeld(s, scope, cs, sources, k);
    }
    forall i | |s.facts| <= i < |facts| ensures Submitted(facts[i], scope, cs, sources) {
      NothingIsInvented(s, scope, cs, sources, i);
    }
  }

  /**
    Over every run: a successful upsert, or the first successful extraction of a turn, records every candidate with
    its evidence and invents none; the turn is then marked, and a marked turn changes nothing more.
   */
  lemma UpdatesAreRecorded(es: seq<Event>, scope: Scope, turn: string, cs: seq<Candidate>,
                           sources: map<string, Evidence>, expected: Option<nat>)
    ensures var s := After(es).s;
            var up, st := Upsert(s, scope, cs, sources, expected), Store(s, scope, turn, cs, sources);
            && (up.Ok? ==> Recorded(s, up.value, scope, cs, sources) && up.value.sessions == s.sessions)
            && (st.Ok? && (scope, turn) in s.sessions ==> st.value == s)
            && (st.Ok? && (scope, turn) !in s.sessions ==>
                  Recorded(s, st.value, scope, cs, sources) && st.value.sessions == s.sessions + {(scope, turn)})
  {
    hide After, Inv, ApplyFacts, Recorded;
    Reachable(es);
    var s := After(es).s;
    var r := ApplyFacts(s, scope, cs, sources);
    if r.Ok? {
      FactsAreRecorded(s, scope, cs, sources);
      SessionsStay(s, scope, cs, sources);
      MarkIsRecorded(s, r.value, scope, cs, sources, r.value.sessions + {(scope, turn)});
    }
  }

  lemma MarkIsRecorded(s: State, s': State, scope: Scope, cs: seq<Candidate>, sources: map<string, Evidence>,
                       sessions: set<(Scope, string)>)
    requires Recorded(s, s', scope, cs, sources) && s'.sessions <= sessions
    ensures Recorded(s, s'.(sessions := sessions), scope, cs, sources)
  {
    hide Held, Submitted;
  }

  /** An invalidation withdraws exactly the fact with that identifier and scope, and fails iff there is none. */
  lemma InvalidationIsExact(es: seq<Event>, scope: Scope, id: FactId)
    ensures var facts, r := After(es).s.facts, Invalidate(After(es).s, scope, id);
            && (r == Err(NotFound) <==> forall i :: 0 <= i < |facts| ==> facts[i].id != id || facts[i].scope != scope)
            && (r.Ok? ==>
                  && |r.value.facts| == |facts|
                  && forall i :: 0 <= i < |facts| ==>
                       r.value.facts[i] == if facts[i].id == id && facts[i].scope == scope
                                           then facts[i].(status := Invalidated) else facts[i])
            && (r.Ok? || r == Err(NotFound))
  {
    var facts := After(es).s.facts;
    var r := FirstFact(facts, scope, id);
    hide After, FirstFact;
    if r.Some? {
      forall i: nat | i < |facts| && facts[i].id == id ensures i == r.value {
        LinksLeadBackwards(es, i, r.value);
      }
    }
  }
}
