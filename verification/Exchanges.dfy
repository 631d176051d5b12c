/** Tool exchanges in a message history, and the two validators that guard them. */
module Exchanges {
  import opened Common

  datatype Call = Call(id: string, name: string)

  datatype Message = Message(role: string, calls: seq<Call>, toolCallId: string, content: string)

  datatype Fault =
    | Incomplete       // another message before every result arrived
    | WrongRole        // calls on a message that is not the assistant's
    | Unlabelled       // a result without an ID inside an exchange
    | BadCall          // a call without an ID, or with one used before
    | Orphan           // a result nobody is waiting for
    | UnknownRole

  /** The scan's memory: calls waiting for a result, and every call ID so far. */
  datatype Scan = Open(pending: set<string>, seen: set<string>) | Bad(fault: Fault)

  const START := Open({}, {})

  predicate IsTool(m: Message) { m.role == "tool" }

  // ---------------------------------------------------------------------------
  // Closure of a stored history
  // ---------------------------------------------------------------------------

  function AddCalls(s: Scan, calls: seq<Call>): Scan
    decreases |calls|
  {
    if calls == [] || s.Bad? then s
    else
      var c := calls[0];
      if c.id == "" || c.id in s.seen then Bad(BadCall)
      else AddCalls(Open(s.pending + {c.id}, s.seen + {c.id}), calls[1..])
  }

  function TakeResult(s: Scan, m: Message): Scan {
    if s.Bad? || m.toolCallId == "" then s
    else if !IsTool(m) || m.toolCallId !in s.pending then Bad(Orphan)
    else s.(pending := s.pending - {m.toolCallId})
  }

  function Step(s: Scan, m: Message): Scan {
    if s.Bad? then s
    else if !IsTool(m) && s.pending != {} then Bad(Incomplete)
    else if m.calls != [] && m.role != "assistant" then Bad(WrongRole)
    else if IsTool(m) && m.toolCallId == "" && s.pending != {} then Bad(Unlabelled)
    else TakeResult(AddCalls(s, m.calls), m)
  }

  function Run(s: Scan, ms: seq<Message>): Scan {
    if ms == [] then s else Step(Run(s, ms[..|ms| - 1]), ms[|ms| - 1])
  }

  predicate Settled(s: Scan) { s.Open? && s.pending == {} }

  predicate Closed(ms: seq<Message>) { Settled(Run(START, ms)) }

  method ValidateClosure(ms: seq<Message>) returns (fault: Option<Fault>)
    ensures fault.None? <==> Closed(ms)
    ensures Run(START, ms).Bad? ==> fault == Some(Run(START, ms).fault)
  {
    var pending: set<string>, seen: set<string> := {}, {};
    var i := 0;
    while i < |ms|
      invariant 0 <= i <= |ms|
      invariant Run(START, ms[..i]) == Open(pending, seen)
    {
      var m := ms[i];
      assert ms[..i + 1][..i] == ms[..i];
      RunSplits(START, ms[..i + 1], ms[i + 1..]);
      assert ms == ms[..i + 1] + ms[i + 1..];
      ghost var before := Open(pending, seen);
      assert Run(START, ms[..i + 1]) == Step(before, m);
      if m.role != "tool" && pending != {} {
        BadStays(Run(START, ms[..i + 1]), ms[i + 1..]);
        return Some(Incomplete);
      }
      if m.calls != [] && m.role != "assistant" {
        BadStays(Run(START, ms[..i + 1]), ms[i + 1..]);
        return Some(WrongRole);
      }
      if m.role == "tool" && m.toolCallId == "" && pending != {} {
        BadStays(Run(START, ms[..i + 1]), ms[i + 1..]);
        return Some(Unlabelled);
      }
      var k := 0;
      while k < |m.calls|
        invariant 0 <= k <= |m.calls|
        invariant AddCalls(Open(pending, seen), m.calls[k..]) == AddCalls(before, m.calls)
      {
        var c := m.calls[k];
        if c.id == "" || c.id in seen {
          BadStays(Run(START, ms[..i + 1]), ms[i + 1..]);
          return Some(BadCall);
        }
        assert m.calls[k..][1..] == m.calls[k + 1..];
        seen, pending := seen + {c.id}, pending + {c.id};
        k := k + 1;
      }
      if m.toolCallId != "" {
        if m.role != "tool" || m.toolCallId !in pending {
          BadStays(Run(START, ms[..i + 1]), ms[i + 1..]);
          return Some(Orphan);
        }
        pending := pending - {m.toolCallId};
      }
      i := i + 1;
    }
    assert ms[..i] == ms;
    return if pending == {} then None else Some(Incomplete);
  }

  lemma {:induction false} RunSplits(s: Scan, a: seq<Message>, b: seq<Message>)
    ensures Run(s, a + b) == Run(Run(s, a), b)
  {
    if b == [] {
      assert a + b == a;
    } else {
      var n := |b| - 1;
      RunSplits(s, a, b[..n]);
      assert (a + b)[..|a + b| - 1] == a + b[..n];
    }
  }

  lemma {:induction false} BadStays(s: Scan, ms: seq<Message>)
    requires s.Bad?
    ensures Run(s, ms) == s
  {
    if ms != [] {
      BadStays(s, ms[..|ms| - 1]);
    }
  }

  /** A history that ends well was never bad on the way. */
  lemma PrefixIsOpen(ms: seq<Message>, i: nat)
    requires i <= |ms| && Run(START, ms).Open?
    ensures Run(START, ms[..i]).Open?
  {
    assert ms == ms[..i] + ms[i..];
    RunSplits(START, ms[..i], ms[i..]);
    if Run(START, ms[..i]).Bad? {
      BadStays(Run(START, ms[..i]), ms[i..]);
    }
  }

  // ---------------------------------------------------------------------------
  // What closure means: every call is answered exactly once
  // ---------------------------------------------------------------------------

  function CallsIn(calls: seq<Call>, id: string): nat {
    if calls == [] then 0 else Bit(calls[0].id == id) + CallsIn(calls[1..], id)
  }

  function CallCount(ms: seq<Message>, id: string): nat {
    if ms == [] then 0 else CallCount(ms[..|ms| - 1], id) + CallsIn(ms[|ms| - 1].calls, id)
  }

  function ResultCount(ms: seq<Message>, id: string): nat {
    if ms == [] then 0
    else ResultCount(ms[..|ms| - 1], id) + Bit(IsTool(ms[|ms| - 1]) && ms[|ms| - 1].toolCallId == id)
  }

  lemma {:induction false} AddCallsCounts(s: Scan, calls: seq<Call>, id: string)
    requires s.Open? && AddCalls(s, calls).Open?
    ensures var t := AddCalls(s, calls);
            && CallsIn(calls, id) == Bit(id in t.seen) - Bit(id in s.seen)
            && (id in t.pending <==> id in s.pending || (id in t.seen && id !in s.seen))
            && s.seen <= t.seen && (id == "" ==> CallsIn(calls, id) == 0)
    decreases |calls|
  {
    if calls != [] {
      var c := calls[0];
      AddCallsCounts(Open(s.pending + {c.id}, s.seen + {c.id}), calls[1..], id);
    }
  }

  lemma {:induction false} ScanCounts(ms: seq<Message>, id: string)
    requires Run(START, ms).Open? && id != ""
    ensures var s := Run(START, ms);
            && s.pending <= s.seen
            && CallCount(ms, id) == Bit(id in s.seen)
            && ResultCount(ms, id) == Bit(id in s.seen && id !in s.pending)
  {
    if ms == [] {
    } else {
      var n := |ms| - 1;
      PrefixIsOpen(ms, n);
      ScanCounts(ms[..n], id);
      var s := Run(START, ms[..n]);
      assert AddCalls(s, ms[n].calls).Open?;
      AddCallsCounts(s, ms[n].calls, id);
      forall x | x in AddCalls(s, ms[n].calls).pending ensures x in AddCalls(s, ms[n].calls).seen {
        AddCallsCounts(s, ms[n].calls, x);
      }
    }
  }

  /** In a closed history no call ID is used twice, and each call has exactly one result. */
  lemma ClosedMeansAnswered(ms: seq<Message>, id: string)
    requires Closed(ms) && id != ""
    ensures ResultCount(ms, id) == CallCount(ms, id) <= 1
  {
    ScanCounts(ms, id);
  }

  // ---------------------------------------------------------------------------
  // The provider's own check before sending
  // ---------------------------------------------------------------------------

  predicate KnownRole(m: Message) { m.role == "system" || m.role == "user" || m.role == "assistant" }

  function AddNamed(s: Scan, m: Message, calls: seq<Call>): Scan
    decreases |calls|
  {
    if calls == [] || s.Bad? then s
    else
      var c := calls[0];
      if m.role != "assistant" || c.id == "" || c.name == "" || c.id in s.seen then Bad(BadCall)
      else AddNamed(Open(s.pending + {c.id}, s.seen + {c.id}), m, calls[1..])
  }

  function SendStep(s: Scan, m: Message): Scan {
    if s.Bad? then s
    else if IsTool(m) then
      if m.toolCallId !in s.pending then Bad(Orphan) else s.(pending := s.pending - {m.toolCallId})
    else if s.pending != {} then Bad(Incomplete)
    else if !KnownRole(m) then Bad(UnknownRole)
    else AddNamed(s, m, m.calls)
  }

  function SendRun(s: Scan, ms: seq<Message>): Scan {
    if ms == [] then s else SendStep(SendRun(s, ms[..|ms| - 1]), ms[|ms| - 1])
  }

  predicate Sendable(ms: seq<Message>) { Settled(SendRun(START, ms)) }

  method ValidateConversation(ms: seq<Message>) returns (fault: Option<Fault>)
    ensures fault.None? <==> Sendable(ms)
    ensures SendRun(START, ms).Bad? ==> fault == Some(SendRun(START, ms).fault)
  {
    var pending: set<string>, seen: set<string> := {}, {};
    var i := 0;
    while i < |ms|
      invariant 0 <= i <= |ms|
      invariant SendRun(START, ms[..i]) == Open(pending, seen)
    {
      var m := ms[i];
      assert ms[..i + 1][..i] == ms[..i];
      assert ms == ms[..i + 1] + ms[i + 1..];
      SendRunSplits(START, ms[..i + 1], ms[i + 1..]);
      ghost var before := Open(pending, seen);
      ghost var now := SendRun(START, ms[..i + 1]);
      assert now == SendStep(before, m);
      if m.role == "tool" {
        if m.toolCallId !in pending {
          SendBadStays(now, ms[i + 1..]);
          return Some(Orphan);
        }
        pending := pending - {m.toolCallId};
      } else {
        if pending != {} {
          SendBadStays(now, ms[i + 1..]);
          return Some(Incomplete);
        }
        if m.role != "system" && m.role != "user" && m.role != "assistant" {
          SendBadStays(now, ms[i + 1..]);
          return Some(UnknownRole);
        }
        var k := 0;
        while k < |m.calls|
          invariant 0 <= k <= |m.calls|
          invariant AddNamed(Open(pending, seen), m, m.calls[k..]) == AddNamed(before, m, m.calls)
        {
          var c := m.calls[k];
          if m.role != "assistant" || c.id == "" || c.name == "" || c.id in seen {
            SendBadStays(now, ms[i + 1..]);
            return Some(BadCall);
          }
          assert m.calls[k..][1..] == m.calls[k + 1..];
          seen, pending := seen + {c.id}, pending + {c.id};
          k := k + 1;
        }
      }
      i := i + 1;
    }
    assert ms[..i] == ms;
    return if pending == {} then None else Some(Incomplete);
  }

  lemma {:induction false} SendRunSplits(s: Scan, a: seq<Message>, b: seq<Message>)
    ensures SendRun(s, a + b) == SendRun(SendRun(s, a), b)
  {
    if b == [] {
      assert a + b == a;
    } else {
      var n := |b| - 1;
      SendRunSplits(s, a, b[..n]);
      assert (a + b)[..|a + b| - 1] == a + b[..n];
    }
  }

  lemma {:induction false} SendBadStays(s: Scan, ms: seq<Message>)
    requires s.Bad?
    ensures SendRun(s, ms) == s
  {
    if ms != [] {
      SendBadStays(s, ms[..|ms| - 1]);
    }
  }

  /** What the provider asks beyond closure: known roles, named calls, and no unlabelled tool message. */
  predicate Plain(m: Message) {
    && (IsTool(m) ==> m.toolCallId != "")
    && (IsTool(m) || KnownRole(m))
    && forall k :: 0 <= k < |m.calls| ==> m.calls[k].name != ""
  }

  lemma {:induction false} NamedCallsAgree(s: Scan, m: Message, calls: seq<Call>)
    requires m.role == "assistant"
    ensures (AddNamed(s, m, calls).Open? ==> AddCalls(s, calls) == AddNamed(s, m, calls))
    ensures (AddCalls(s, calls).Open? && (forall k :: 0 <= k < |calls| ==> calls[k].name != "") ==>
              AddNamed(s, m, calls) == AddCalls(s, calls))
    ensures s.Open? && AddNamed(s, m, calls).Open? ==> forall k :: 0 <= k < |calls| ==> calls[k].name != ""
    decreases |calls|
  {
    if calls != [] && s.Open? {
      var c := calls[0];
      if !(c.id == "" || c.id in s.seen) {
        NamedCallsAgree(Open(s.pending + {c.id}, s.seen + {c.id}), m, calls[1..]);
        assert forall k :: 0 <= k < |calls| - 1 ==> calls[1..][k] == calls[k + 1];
        assert forall k :: 1 <= k < |calls| ==> calls[k] == calls[1..][k - 1];
      }
    }
  }

  /** On a history in good standing, the provider's scan agrees as long as every message is plain. */
  lemma {:induction false} ScansAgree(ms: seq<Message>)
    requires Run(START, ms).Open?
    ensures SendRun(START, ms).Open? <==> forall i :: 0 <= i < |ms| ==> Plain(ms[i])
    ensures SendRun(START, ms).Open? ==> SendRun(START, ms) == Run(START, ms)
  {
    if ms == [] {
    } else {
      var n := |ms| - 1;
      PrefixIsOpen(ms, n);
      ScansAgree(ms[..n]);
      var s, m := Run(START, ms[..n]), ms[n];
      PendingHasIds(ms[..n]);
      if SendRun(START, ms[..n]).Open? {
        OneStepAgrees(s, m);
      }
      assert forall i :: 0 <= i < n ==> ms[..n][i] == ms[i];
    }
  }

  lemma {:induction false} PendingHasIds(ms: seq<Message>)
    requires Run(START, ms).Open?
    ensures "" !in Run(START, ms).seen && Run(START, ms).pending <= Run(START, ms).seen
  {
    if ms != [] {
      var n := |ms| - 1;
      PrefixIsOpen(ms, n);
      PendingHasIds(ms[..n]);
      var s := Run(START, ms[..n]);
      forall x | x in AddCalls(s, ms[n].calls).pending + AddCalls(s, ms[n].calls).seen
        ensures x != "" && x in AddCalls(s, ms[n].calls).seen
      {
        AddCallsCounts(s, ms[n].calls, x);
      }
    }
  }

  lemma OneStepAgrees(s: Scan, m: Message)
    requires s.Open? && Step(s, m).Open?
    requires "" !in s.pending
    ensures SendStep(s, m).Open? <==> Plain(m)
    ensures SendStep(s, m).Open? ==> SendStep(s, m) == Step(s, m)
  {
    if IsTool(m) {
      assert m.calls == [];
    } else if m.role == "assistant" {
      NamedCallsAgree(s, m, m.calls);
    } else {
      assert m.calls == [];
    }
  }

  /** A closed history may be sent exactly when every message is plain. */
  lemma SendableIffPlain(ms: seq<Message>)
    requires Closed(ms)
    ensures Sendable(ms) <==> forall i :: 0 <= i < |ms| ==> Plain(ms[i])
  {
    ScansAgree(ms);
  }
}
