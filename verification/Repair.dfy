/**
  Closing the tool exchanges that an interruption left open: every call without a receipt gets one that says its
  outcome is unknown, and nothing is run again.
 */
module Repair {
  import opened Common
  import opened Exchanges

  datatype Damage = RepeatedCall | OrphanReceipt

  /** A line of the repaired ledger: one of the old messages, or a receipt added for a missing one. */
  datatype Line = Line(m: Message, added: bool)

  datatype Work = Ledger(lines: seq<Line>, pending: seq<Call>, got: set<string>, seen: set<string>) | Corrupt(damage: Damage)

  const EMPTY := Ledger([], [], {}, {})

  function UnknownReceipt(c: Call): Message {
    Message("tool", [], c.id,
            "Tool " + c.name + " has no durable receipt after interruption. Outcome is unknown; do not repeat a write. "
            + "Inspect the workspace or reconcile the external operation first.")
  }

  function FlushLines(pending: seq<Call>, got: set<string>): seq<Line> {
    if pending == [] then []
    else
      var n := |pending| - 1;
      FlushLines(pending[..n], got) + if pending[n].id in got then [] else [Line(UnknownReceipt(pending[n]), true)]
  }

  function Flush(r: Work): Work {
    if r.Corrupt? then r else Ledger(r.lines + FlushLines(r.pending, r.got), [], {}, r.seen)
  }

  function TakeCalls(r: Work, calls: seq<Call>): Work
    decreases |calls|
  {
    if calls == [] || r.Corrupt? then r
    else
      var c := calls[0];
      if c.id == "" then TakeCalls(r, calls[1..])
      else if c.id in r.seen then Corrupt(RepeatedCall)
      else TakeCalls(r.(pending := r.pending + [c], seen := r.seen + {c.id}), calls[1..])
  }

  function Ids(calls: seq<Call>): set<string> { set c | c in calls :: c.id }

  function TakeReceipt(r: Work, m: Message): Work {
    if r.Corrupt? || !IsTool(m) || m.toolCallId == "" then r
    else if m.toolCallId !in Ids(r.pending) || m.toolCallId in r.got then Corrupt(OrphanReceipt)
    else r.(got := r.got + {m.toolCallId})
  }

  function Copy(r: Work, m: Message): Work { if r.Corrupt? then r else r.(lines := r.lines + [Line(m, false)]) }

  function RepairStep(r: Work, m: Message): Work {
    Copy(TakeReceipt(TakeCalls(if IsTool(m) then r else Flush(r), m.calls), m), m)
  }

  function RepairRun(ms: seq<Message>): Work {
    if ms == [] then EMPTY else RepairStep(RepairRun(ms[..|ms| - 1]), ms[|ms| - 1])
  }

  function Repaired(ms: seq<Message>): Work { Flush(RepairRun(ms)) }

  function Messages(lines: seq<Line>): seq<Message> {
    if lines == [] then [] else Messages(lines[..|lines| - 1]) + [lines[|lines| - 1].m]
  }

  function AddedCount(lines: seq<Line>): nat {
    if lines == [] then 0 else AddedCount(lines[..|lines| - 1]) + Bit(lines[|lines| - 1].added)
  }

  // ---------------------------------------------------------------------------
  // The loop
  // ---------------------------------------------------------------------------

  method FlushPending(pending: seq<Call>, got: set<string>, ghost lines: seq<Line>, out: seq<Message>, repaired: nat)
    returns (out': seq<Message>, repaired': nat)
    requires out == Messages(lines) && repaired == AddedCount(lines)
    ensures out' == Messages(lines + FlushLines(pending, got))
    ensures repaired' == AddedCount(lines + FlushLines(pending, got))
  {
    hide Messages, AddedCount, Ids, UnknownReceipt;
    out', repaired' := out, repaired;
    ghost var now := lines;
    var i := 0;
    while i < |pending|
      invariant 0 <= i <= |pending|
      invariant now == lines + FlushLines(pending[..i], got)
      invariant out' == Messages(now) && repaired' == AddedCount(now)
    {
      assert pending[..i + 1][..i] == pending[..i];
      if pending[i].id !in got {
        ghost var line := Line(UnknownReceipt(pending[i]), true);
        OneLine(now, line);
        out' := out' + [UnknownReceipt(pending[i])];
        repaired' := repaired' + 1;
        now := now + [line];
      }
      i := i + 1;
    }
    assert pending[..i] == pending;
  }

  method Found(pending: seq<Call>, id: string) returns (found: bool)
    ensures found <==> id in Ids(pending)
  {
    found := false;
    var i := 0;
    while i < |pending|
      invariant 0 <= i <= |pending|
      invariant found <==> id in Ids(pending[..i])
    {
      assert pending[..i + 1] == pending[..i] + [pending[i]];
      found := found || pending[i].id == id;
      i := i + 1;
    }
    assert pending[..i] == pending;
  }

  method CloseInterruptedExchanges(ms: seq<Message>) returns (r: Result<(seq<Message>, nat), Damage>)
    ensures match Repaired(ms)
            case Corrupt(d) => r == Err(d)
            case Ledger(lines, _, _, _) => r == Ok((Messages(lines), AddedCount(lines)))
  {
    hide Messages, AddedCount, FlushLines, UnknownReceipt;
    var out: seq<Message>, repaired := [], 0;
    var pending: seq<Call> := [];
    var got: set<string>, seen: set<string> := {}, {};
    ghost var lines: seq<Line> := [];
    NoLines();
    var i := 0;
    while i < |ms|
      invariant 0 <= i <= |ms|
      invariant RepairRun(ms[..i]) == Ledger(lines, pending, got, seen)
      invariant out == Messages(lines) && repaired == AddedCount(lines)
    {
      var m := ms[i];
      assert ms[..i + 1][..i] == ms[..i];
      if m.role != "tool" {
        out, repaired := FlushPending(pending, got, lines, out, repaired);
        lines := lines + FlushLines(pending, got);
        pending, got := [], {};
      }
      ghost var flushed := Ledger(lines, pending, got, seen);
      assert RepairRun(ms[..i + 1]) == Copy(TakeReceipt(TakeCalls(flushed, m.calls), m), m);
      var k := 0;
      while k < |m.calls|
        invariant 0 <= k <= |m.calls|
        invariant TakeCalls(Ledger(lines, pending, got, seen), m.calls[k..]) == TakeCalls(flushed, m.calls)
      {
        var c := m.calls[k];
        assert m.calls[k..][1..] == m.calls[k + 1..];
        if c.id != "" {
          if c.id in seen {
            DamageStays(ms, i + 1);
            return Err(RepeatedCall);
          }
          seen, pending := seen + {c.id}, pending + [c];
        }
        k := k + 1;
      }
      if m.role == "tool" && m.toolCallId != "" {
        var found := Found(pending, m.toolCallId);
        if !found || m.toolCallId in got {
          DamageStays(ms, i + 1);
          return Err(OrphanReceipt);
        }
        got := got + {m.toolCallId};
      }
      OneLine(lines, Line(m, false));
      out := out + [m];
      lines := lines + [Line(m, false)];
      i := i + 1;
    }
    assert ms[..i] == ms;
    out, repaired := FlushPending(pending, got, lines, out, repaired);
    return Ok((out, repaired));
  }

  lemma NoLines()
    ensures Messages([]) == Originals([]) == [] && AddedCount([]) == 0 && RepairRun([]) == EMPTY
  {
  }

  lemma OneLine(lines: seq<Line>, line: Line)
    ensures Messages(lines + [line]) == Messages(lines) + [line.m]
    ensures AddedCount(lines + [line]) == AddedCount(lines) + Bit(line.added)
  {
    assert (lines + [line])[..|lines|] == lines;
  }

  lemma {:induction false} DamageStays(ms: seq<Message>, i: nat)
    requires i <= |ms| && RepairRun(ms[..i]).Corrupt?
    ensures RepairRun(ms) == RepairRun(ms[..i])
    decreases |ms|
  {
    if i == |ms| {
      assert ms[..i] == ms;
    } else {
      assert ms[..|ms| - 1][..i] == ms[..i];
      DamageStays(ms[..|ms| - 1], i);
    }
  }

  // ---------------------------------------------------------------------------
  // Nothing is lost: the old ledger is what remains without the added receipts
  // ---------------------------------------------------------------------------

  function Originals(lines: seq<Line>): seq<Message> {
    if lines == [] then []
    else Originals(lines[..|lines| - 1]) + if lines[|lines| - 1].added then [] else [lines[|lines| - 1].m]
  }

  lemma {:induction false} OriginalsSplit(a: seq<Line>, b: seq<Line>)
    ensures Originals(a + b) == Originals(a) + Originals(b)
  {
    if b == [] {
      assert a + b == a;
    } else {
      var n := |b| - 1;
      OriginalsSplit(a, b[..n]);
      assert (a + b)[..|a + b| - 1] == a + b[..n];
    }
  }

  lemma OneOriginal(lines: seq<Line>, line: Line)
    ensures Originals(lines + [line]) == Originals(lines) + if line.added then [] else [line.m]
  {
    assert (lines + [line])[..|lines|] == lines;
  }

  lemma {:induction false} FlushAddsOnly(pending: seq<Call>, got: set<string>)
    ensures Originals(FlushLines(pending, got)) == []
  {
    if pending == [] {
    } else {
      var n := |pending| - 1;
      var before := FlushLines(pending[..n], got);
      var line := Line(UnknownReceipt(pending[n]), true);
      assert FlushLines(pending, got) == if pending[n].id in got then before else before + [line] by {
        assert before + [] == before;
      }
      FlushAddsOnly(pending[..n], got);
      hide *;
      OneOriginal(before, line);
    }
  }

  lemma FlushKeeps(r: Work)
    requires r.Ledger?
    ensures Originals(Flush(r).lines) == Originals(r.lines)
  {
    OriginalsSplit(r.lines, FlushLines(r.pending, r.got));
    FlushAddsOnly(r.pending, r.got);
  }

  lemma {:induction false} TakeCallsKeeps(r: Work, calls: seq<Call>)
    requires r.Ledger? && TakeCalls(r, calls).Ledger?
    ensures TakeCalls(r, calls).lines == r.lines && TakeCalls(r, calls).got == r.got
    decreases |calls|
  {
    if calls != [] {
      var c := calls[0];
      if c.id == "" {
        TakeCallsKeeps(r, calls[1..]);
      } else {
        TakeCallsKeeps(r.(pending := r.pending + [c], seen := r.seen + {c.id}), calls[1..]);
      }
    }
  }

  lemma StepKeeps(r: Work, m: Message)
    requires r.Ledger? && RepairStep(r, m).Ledger?
    ensures Originals(RepairStep(r, m).lines) == Originals(r.lines) + [m]
  {
    hide Originals, Ids, FlushLines, UnknownReceipt;
    FlushKeeps(r);
    var r1 := if IsTool(m) then r else Flush(r);
    hide Flush;
    TakeCallsKeeps(r1, m.calls);
    hide TakeCalls;
    OneOriginal(r1.lines, Line(m, false));
  }

  lemma CorruptStays(r: Work, m: Message)
    requires r.Corrupt?
    ensures RepairStep(r, m) == r
  {
  }

  /** One message more: the run so far was sound, and takes one step. */
  lemma RunSteps(ms: seq<Message>)
    requires ms != [] && RepairRun(ms).Ledger?
    ensures RepairRun(ms[..|ms| - 1]).Ledger?
    ensures RepairRun(ms) == RepairStep(RepairRun(ms[..|ms| - 1]), ms[|ms| - 1])
  {
    hide RepairStep;
    if RepairRun(ms[..|ms| - 1]).Corrupt? {
      CorruptStays(RepairRun(ms[..|ms| - 1]), ms[|ms| - 1]);
    }
  }

  lemma {:induction false} RunKeeps(ms: seq<Message>)
    requires RepairRun(ms).Ledger?
    ensures Originals(RepairRun(ms).lines) == ms
  {
    hide RepairRun, RepairStep, Originals;
    if ms == [] {
      assert RepairRun([]) == EMPTY && Originals([]) == [] by { NoLines(); }
    } else {
      var n := |ms| - 1;
      RunSteps(ms);
      RunKeeps(ms[..n]);
      StepKeeps(RepairRun(ms[..n]), ms[n]);
      assert ms == ms[..n] + [ms[n]];
    }
  }

  /** The input is the output without the added lines: no message is lost, changed or moved. */
  lemma InputIsKept(ms: seq<Message>)
    requires Repaired(ms).Ledger?
    ensures Originals(Repaired(ms).lines) == ms
  {
    RunKeeps(ms);
    FlushKeeps(RepairRun(ms));
  }
}
