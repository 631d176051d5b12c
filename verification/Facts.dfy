/**
  Durable facts: candidates with evidence become active, wait as pending, or supersede a weaker fact of the same
  key. Facts are marked, never removed.
 */
module Facts {
  import opened Common
  import opened Text

  datatype Scope = Scope(repo: string, user: string)

  datatype Evidence = Evidence(id: string, kind: string, text: string)

  /** `clean` is the verdict of the length bound and the sensitive-text filter on the trimmed strings. */
  datatype Candidate = Candidate(subject: string, attribute: string, value: string, evidence: seq<string>, clean: bool)

  datatype Status = Active | Pending | Superseded | Invalidated

  /** The scope with the folded subject and attribute; the source stores a digest of it. */
  datatype Key = Key(scope: Scope, subject: string, attribute: string)

  datatype FactId = FactId(key: Key, revision: nat)

  datatype Fact = Fact(id: FactId, subject: string, attribute: string, value: string, status: Status, scope: Scope,
                       sources: seq<Evidence>, revision: nat, supersedes: Option<FactId>)

  datatype State = State(revision: nat, facts: seq<Fact>, sessions: set<(Scope, string)>)

  datatype FactError = BadScope | BadCandidate | UnknownEvidence | NoEvidence | RevisionConflict | NotFound

  // ---------------------------------------------------------------------------
  // Keys and authority
  // ---------------------------------------------------------------------------

  function LowerChar(c: char): char { if 'A' <= c <= 'Z' then ((c as int) + 32) as char else c }

  function Lower(s: string): string { seq(|s|, i requires 0 <= i < |s| => LowerChar(s[i])) }

  function KeyOf(scope: Scope, subject: string, attribute: string): Key {
    Key(scope, Lower(TrimSpace(subject)), Lower(TrimSpace(attribute)))
  }

  function Rank(kind: string): nat {
    if kind == "user_confirmed" then 3
    else if kind == "workspace_verified" then 2
    else if kind == "conversation" then 1
    else 0
  }

  function Authority(sources: seq<Evidence>): nat {
    if sources == [] then 0 else Max(Authority(sources[..|sources| - 1]), Rank(sources[|sources| - 1].kind))
  }

  method ComputeAuthority(sources: seq<Evidence>) returns (n: nat)
    ensures n == Authority(sources)
  {
    n := 0;
    var i := 0;
    while i < |sources|
      invariant 0 <= i <= |sources| && n == Authority(sources[..i])
    {
      assert sources[..i + 1][..i] == sources[..i];
      if sources[i].kind == "user_confirmed" {
        n := if n < 3 then 3 else n;
      } else if sources[i].kind == "workspace_verified" {
        n := if n < 2 then 2 else n;
      } else if sources[i].kind == "conversation" {
        n := if n < 1 then 1 else n;
      }
      i := i + 1;
    }
    assert sources[..i] == sources;
  }

  lemma {:induction false} AuthorityGrows(a: seq<Evidence>, b: seq<Evidence>)
    ensures Authority(a) <= Authority(a + b)
  {
    if b == [] {
      assert a + b == a;
    } else {
      var n := |b| - 1;
      AuthorityGrows(a, b[..n]);
      assert (a + b)[..|a + b| - 1] == a + b[..n];
    }
  }

  // ---------------------------------------------------------------------------
  // One candidate
  // ---------------------------------------------------------------------------

  predicate Acceptable(c: Candidate) {
    TrimSpace(c.subject) != "" && TrimSpace(c.attribute) != "" && TrimSpace(c.value) != "" && c.clean
  }

  predicate Known(ids: seq<string>, sources: map<string, Evidence>) { forall i :: 0 <= i < |ids| ==> ids[i] in sources }

  function Cited(ids: seq<string>, sources: map<string, Evidence>): (r: seq<Evidence>)
    requires Known(ids, sources)
    ensures |r| == |ids| && forall i :: 0 <= i < |ids| ==> r[i] == sources[ids[i]]
  {
    seq(|ids|, i requires 0 <= i < |ids| => sources[ids[i]])
  }

  function FactKey(f: Fact): Key { KeyOf(f.scope, f.subject, f.attribute) }

  predicate ActiveFor(f: Fact, key: Key) { FactKey(f) == key && f.status == Active }

  /** The last active fact of the key, if any. */
  function ActiveIndex(facts: seq<Fact>, key: Key): (r: Option<nat>)
    ensures r.Some? ==> r.value < |facts|
  {
    if facts == [] then None
    else if ActiveFor(facts[|facts| - 1], key) then Some(|facts| - 1)
    else ActiveIndex(facts[..|facts| - 1], key)
  }

  lemma {:induction false} ActiveIndexFinds(facts: seq<Fact>, key: Key)
    ensures var r := ActiveIndex(facts, key);
            && (r.Some? ==> ActiveFor(facts[r.value], key) && forall i :: r.value < i < |facts| ==> !ActiveFor(facts[i], key))
            && (r.None? ==> forall i :: 0 <= i < |facts| ==> !ActiveFor(facts[i], key))
  {
    hide ActiveFor;
    if facts != [] && !ActiveFor(facts[|facts| - 1], key) {
      ActiveIndexFinds(facts[..|facts| - 1], key);
    }
  }

  predicate HasSource(sources: seq<Evidence>, id: string) { exists e :: e in sources && e.id == id }

  /** New evidence for a value already believed: each source once. */
  function Merged(sources: seq<Evidence>, refs: seq<Evidence>): (r: seq<Evidence>)
    ensures sources <= r
  {
    if refs == [] then sources
    else
      var before := Merged(sources, refs[..|refs| - 1]);
      if HasSource(before, refs[|refs| - 1].id) then before else before + [refs[|refs| - 1]]
  }

  /** The status of a new fact: without authority, or with less than the active one has, it waits. */
  function NewStatus(refs: seq<Evidence>, prior: Option<Fact>): Status {
    if Authority(refs) == 0 || (prior.Some? && Authority(refs) < Authority(prior.value.sources)) then Pending else Active
  }

  function ApplyOne(s: State, scope: Scope, c: Candidate, sources: map<string, Evidence>): Result<State, FactError> {
    if !Acceptable(c) then Err(BadCandidate)
    else if !Known(c.evidence, sources) then Err(UnknownEvidence)
    else if c.evidence == [] then Err(NoEvidence)
    else
      var subject, attribute, value := TrimSpace(c.subject), TrimSpace(c.attribute), TrimSpace(c.value);
      var refs := Cited(c.evidence, sources);
      var key := KeyOf(scope, subject, attribute);
      var prev := ActiveIndex(s.facts, key);
      if prev.Some? && s.facts[prev.value].value == value then
        var prior := s.facts[prev.value];
        Ok(s.(facts := s.facts[prev.value := prior.(sources := Merged(prior.sources, refs))]))
      else
        var prior := if prev.Some? then Some(s.facts[prev.value]) else None;
        var status := NewStatus(refs, prior);
        var overrides := prev.Some? && status == Active;
        var marked := if overrides then s.facts[prev.value := s.facts[prev.value].(status := Superseded)] else s.facts;
        var fresh' := Fact(FactId(key, s.revision + 1), subject, attribute, value, status, scope, refs, s.revision + 1,
                           if overrides then Some(s.facts[prev.value].id) else None);
        Ok(s.(revision := s.revision + 1, facts := marked + [fresh']))
  }

  function ApplyEach(s: State, scope: Scope, cs: seq<Candidate>, sources: map<string, Evidence>)
    : Result<State, FactError>
  {
    if cs == [] then Ok(s)
    else
      var before := ApplyEach(s, scope, cs[..|cs| - 1], sources);
      if before.Err? then before else ApplyOne(before.value, scope, cs[|cs| - 1], sources)
  }

  /** All candidates or none; the revision moves even when only sources changed. */
  function ApplyFacts(s: State, scope: Scope, cs: seq<Candidate>, sources: map<string, Evidence>)
    : Result<State, FactError>
  {
    var r := ApplyEach(s, scope, cs, sources);
    if r.Ok? then Ok(r.value.(revision := r.value.revision + 1)) else r
  }

  // ---------------------------------------------------------------------------
  // The public operations, as transactions
  // ---------------------------------------------------------------------------

  function Upsert(s: State, scope: Scope, cs: seq<Candidate>, sources: map<string, Evidence>, expected: Option<nat>)
    : Result<State, FactError>
  {
    if scope.repo == "" || scope.user == "" then Err(BadScope)
    else if expected.Some? && s.revision != expected.value then Err(RevisionConflict)
    else ApplyFacts(s, scope, cs, sources)
  }

  /** One turn's extraction, merged against the facts as they are inside the transaction. */
  function Store(s: State, scope: Scope, turn: string, cs: seq<Candidate>, sources: map<string, Evidence>)
    : Result<State, FactError>
  {
    if scope.repo == "" || scope.user == "" || turn == "" then Err(BadScope)
    else if (scope, turn) in s.sessions then Ok(s)
    else
      var r := ApplyFacts(s, scope, cs, sources);
      if r.Ok? then Ok(r.value.(sessions := r.value.sessions + {(scope, turn)})) else r
  }

  function FirstFact(facts: seq<Fact>, scope: Scope, id: FactId): (r: Option<nat>)
    ensures r.Some? ==> r.value < |facts| && facts[r.value].id == id && facts[r.value].scope == scope
    ensures r.None? ==> forall i :: 0 <= i < |facts| ==> !(facts[i].id == id && facts[i].scope == scope)
    decreases |facts|
  {
    if facts == [] then None
    else
      var r := FirstFact(facts[..|facts| - 1], scope, id);
      if r.Some? then r
      else if facts[|facts| - 1].id == id && facts[|facts| - 1].scope == scope then Some(|facts| - 1)
      else None
  }

  function Invalidate(s: State, scope: Scope, id: FactId): Result<State, FactError> {
    var i := FirstFact(s.facts, scope, id);
    if i.None? then Err(NotFound)
    else Ok(s.(facts := s.facts[i.value := s.facts[i.value].(status := Invalidated)], revision := s.revision + 1))
  }

  // ---------------------------------------------------------------------------
  // The loops
  // ---------------------------------------------------------------------------

  class FactFile {
    var state: State
    constructor ()
      ensures state == State(0, [], {})
    {
      state := State(0, [], {});
    }
  }

  method FindActive(facts: seq<Fact>, key: Key) returns (previous: int)
    ensures previous == match ActiveIndex(facts, key) case Some(i) => i case None => -1
  {
    hide TrimSpace;
    previous := -1;
    var i := 0;
    while i < |facts|
      invariant 0 <= i <= |facts|
      invariant previous == match ActiveIndex(facts[..i], key) case Some(k) => k case None => -1
    {
      assert facts[..i + 1][..i] == facts[..i];
      if FactKey(facts[i]) == key && facts[i].status == Active {
        previous := i;
      }
      i := i + 1;
    }
    assert facts[..i] == facts;
  }

  method MergeSources(sources: seq<Evidence>, refs: seq<Evidence>) returns (r: seq<Evidence>)
    ensures r == Merged(sources, refs)
  {
    r := sources;
    var i := 0;
    while i < |refs|
      invariant 0 <= i <= |refs| && r == Merged(sources, refs[..i])
    {
      assert refs[..i + 1][..i] == refs[..i];
      var found := false;
      var k := 0;
      while k < |r| && !found
        invariant 0 <= k <= |r|
        invariant found ==> HasSource(r, refs[i].id)
        invariant !found ==> forall m :: 0 <= m < k ==> r[m].id != refs[i].id
      {
        if r[k].id == refs[i].id {
          assert r[k] in r;
          found := true;
        }
        k := k + 1;
      }
      if !found {
        r := r + [refs[i]];
      }
      i := i + 1;
    }
    assert refs[..i] == refs;
  }

  method CiteEvidence(ids: seq<string>, sources: map<string, Evidence>) returns (refs: Option<seq<Evidence>>)
    ensures refs.Some? <==> Known(ids, sources)
    ensures refs.Some? ==> refs.value == Cited(ids, sources)
  {
    var out: seq<Evidence> := [];
    var i := 0;
    while i < |ids|
      invariant 0 <= i <= |ids| && |out| == i
      invariant forall k :: 0 <= k < i ==> ids[k] in sources && out[k] == sources[ids[k]]
    {
      if ids[i] !in sources {
        return None;
      }
      out := out + [sources[ids[i]]];
      i := i + 1;
    }
    return Some(out);
  }

  method ApplyCandidate(s: State, scope: Scope, c: Candidate, sources: map<string, Evidence>)
    returns (r: Result<State, FactError>)
    ensures r == ApplyOne(s, scope, c, sources)
  {
    hide TrimSpace, Merged, ActiveIndex, Cited, KeyOf;
    var subject, attribute, value := TrimSpace(c.subject), TrimSpace(c.attribute), TrimSpace(c.value);
    if subject == "" || attribute == "" || value == "" || !c.clean {
      return Err(BadCandidate);
    }
    var refs := CiteEvidence(c.evidence, sources);
    if refs.None? {
      return Err(UnknownEvidence);
    }
    if |refs.value| == 0 {
      return Err(NoEvidence);
    }
    var key := KeyOf(scope, subject, attribute);
    var previous := FindActive(s.facts, key);
    var mine := ComputeAuthority(refs.value);
    var status, supersedes: Option<FactId> := if mine == 0 then Pending else Active, None;
    var facts := s.facts;
    if previous >= 0 {
      var prior := facts[previous];
      if prior.value == value {
        var merged := MergeSources(prior.sources, refs.value);
        return Ok(s.(facts := facts[previous := prior.(sources := merged)]));
      }
      var theirs := ComputeAuthority(prior.sources);
      if mine < theirs {
        status := Pending;
      } else if status == Active {
        facts := facts[previous := prior.(status := Superseded)];
        supersedes := Some(prior.id);
      }
    }
    var fact := Fact(FactId(key, s.revision + 1), subject, attribute, value, status, scope, refs.value, s.revision + 1,
                     supersedes);
    return Ok(s.(revision := s.revision + 1, facts := facts + [fact]));
  }

  method ApplyAll(s: State, scope: Scope, cs: seq<Candidate>, sources: map<string, Evidence>)
    returns (r: Result<State, FactError>)
    ensures r == ApplyFacts(s, scope, cs, sources)
  {
    hide ApplyOne;
    var now := s;
    var i := 0;
    while i < |cs|
      invariant 0 <= i <= |cs|
      invariant ApplyEach(s, scope, cs[..i], sources) == Ok(now)
    {
      assert cs[..i + 1][..i] == cs[..i];
      var one := ApplyCandidate(now, scope, cs[i], sources);
      if one.Err? {
        FailureStays(s, scope, cs, sources, i + 1);
        return one;
      }
      now := one.value;
      i := i + 1;
    }
    assert cs[..i] == cs;
    return Ok(now.(revision := now.revision + 1));
  }

  lemma {:induction false} FailureStays(s: State, scope: Scope, cs: seq<Candidate>, sources: map<string, Evidence>, i: nat)
    requires i <= |cs| && ApplyEach(s, scope, cs[..i], sources).Err?
    ensures ApplyEach(s, scope, cs, sources) == ApplyEach(s, scope, cs[..i], sources)
    decreases |cs|
  {
    hide ApplyOne;
    if i == |cs| {
      assert cs[..i] == cs;
    } else {
      assert cs[..|cs| - 1][..i] == cs[..i];
      FailureStays(s, scope, cs[..|cs| - 1], sources, i);
    }
  }

  class FactBackend {
    const file: FactFile

    constructor (file: FactFile)
      ensures this.file == file
    {
      this.file := file;
    }

    method UpsertFacts(scope: Scope, cs: seq<Candidate>, sources: map<string, Evidence>, expected: Option<nat>)
      returns (e: Option<FactError>)
      modifies file
      ensures match Upsert(old(file.state), scope, cs, sources, expected)
              case Ok(s) => e == None && file.state == s
              case Err(x) => e == Some(x) && file.state == old(file.state)
    {
      hide ApplyFacts;
      if scope.repo == "" || scope.user == "" {
        return Some(BadScope);
      }
      if expected.Some? && file.state.revision != expected.value {
        return Some(RevisionConflict);
      }
      var r := ApplyAll(file.state, scope, cs, sources);
      if r.Err? {
        return Some(r.error);
      }
      file.state := r.value;
      return None;
    }

    /** Extraction ran outside the transaction; the turn's mark is looked up again inside it. */
    method StoreTurn(scope: Scope, turn: string, cs: seq<Candidate>, sources: map<string, Evidence>)
      returns (e: Option<FactError>)
      modifies file
      ensures match Store(old(file.state), scope, turn, cs, sources)
              case Ok(s) => e == None && file.state == s
              case Err(x) => e == Some(x) && file.state == old(file.state)
    {
      hide ApplyFacts;
      if scope.repo == "" || scope.user == "" || turn == "" {
        return Some(BadScope);
      }
      if (scope, turn) in file.state.sessions {
        return None;
      }
      var r := ApplyAll(file.state, scope, cs, sources);
      if r.Err? {
        return Some(r.error);
      }
      file.state := r.value.(sessions := r.value.sessions + {(scope, turn)});
      return None;
    }

    method InvalidateFact(scope: Scope, id: FactId) returns (e: Option<FactError>)
      modifies file
      ensures match Invalidate(old(file.state), scope, id)
              case Ok(s) => e == None && file.state == s
              case Err(x) => e == Some(x) && file.state == old(file.state)
    {
      var facts := file.state.facts;
      var i := 0;
      while i < |facts|
        invariant 0 <= i <= |facts|
        invariant FirstFact(facts[..i], scope, id).None? && file.state == old(file.state)
      {
        assert facts[..i + 1][..i] == facts[..i];
        if facts[i].id == id && facts[i].scope == scope {
          FoundFirst(facts, scope, id, i);
          var s := file.state;
          file.state := s.(facts := facts[i := facts[i].(status := Invalidated)], revision := s.revision + 1);
          return None;
        }
        i := i + 1;
      }
      assert facts[..i] == facts;
      return Some(NotFound);
    }
  }

  lemma {:induction false} FoundFirst(facts: seq<Fact>, scope: Scope, id: FactId, i: nat)
    requires i < |facts| && FirstFact(facts[..i], scope, id).None? && facts[i].id == id && facts[i].scope == scope
    ensures FirstFact(facts, scope, id) == Some(i)
    decreases |facts|
  {
    if i == |facts| - 1 {
      assert facts[..i] == facts[..|facts| - 1];
    } else {
      assert facts[..|facts| - 1][..i] == facts[..i];
      FoundFirst(facts[..|facts| - 1], scope, id, i);
    }
  }
}
