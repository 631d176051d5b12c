/** What a repaired ledger is worth: closed, complete, minimal and stable, or refused for a fault one can point to. */
module RepairMeaning {
  import opened Common
  import opened Exchanges
  import opened Repair

  // ---------------------------------------------------------------------------
  // The closure scan follows the repair
  // ---------------------------------------------------------------------------

  function Waiting(pending: seq<Call>, got: set<string>): set<string> { Ids(pending) - got }

  ghost predicate Distinct(calls: seq<Call>) {
    forall i, k :: 0 <= i < k < |calls| ==> calls[i].id != calls[k].id
  }

  ghost predicate PendingOk(r: Work) {
    r.Ledger? && Distinct(r.pending) && Ids(r.pending) <= r.seen && r.got <= Ids(r.pending) && "" !in r.seen
  }

  /** The output so far scans well, and leaves waiting exactly the calls without a receipt. */
  ghost predicate Tracks(r: Work) {
    PendingOk(r) && Run(START, Messages(r.lines)) == Open(Waiting(r.pending, r.got), r.seen)
  }

  /** Calls sit on assistant messages and have IDs, only tool messages answer, and none does so without an ID mid-exchange. */
  ghost predicate ShapeAt(r: Work, m: Message) {
    && (m.calls != [] ==> m.role == "assistant")
    && (forall c :: c in m.calls ==> c.id != "")
    && (m.toolCallId != "" ==> IsTool(m))
    && (IsTool(m) && m.toolCallId == "" ==> r.Ledger? && Waiting(r.pending, r.got) == {})
  }

  ghost predicate Shape(ms: seq<Message>) {
    ms == [] || (Shape(ms[..|ms| - 1]) && ShapeAt(RepairRun(ms[..|ms| - 1]), ms[|ms| - 1]))
  }

  lemma {:induction false} MessagesSplit(a: seq<Line>, b: seq<Line>)
    ensures Messages(a + b) == Messages(a) + Messages(b)
  {
    if b == [] {
      assert a + b == a;
    } else {
      var n := |b| - 1;
      MessagesSplit(a, b[..n]);
      assert (a + b)[..|a + b| - 1] == a + b[..n];
    }
  }

  lemma ReceiptStep(s: Scan, c: Call)
    requires s.Open? && c.id in s.pending && c.id != ""
    ensures Step(s, UnknownReceipt(c)) == Open(s.pending - {c.id}, s.seen)
  {
    assert UnknownReceipt(c).role == "tool" && UnknownReceipt(c).calls == [] && UnknownReceipt(c).toolCallId == c.id;
    hide UnknownReceipt;
  }

  lemma RunOne(s: Scan, ms: seq<Message>, m: Message)
    ensures Run(s, ms + [m]) == Step(Run(s, ms), m)
  {
    assert (ms + [m])[..|ms|] == ms;
  }

  /** The added receipts answer exactly what waits. */
  lemma {:induction false} FlushScan(s: Scan, pending: seq<Call>, got: set<string>)
    requires s.Open? && Distinct(pending) && Waiting(pending, got) <= s.pending && "" !in Ids(pending)
    ensures Run(s, Messages(FlushLines(pending, got))) == Open(s.pending - Waiting(pending, got), s.seen)
  {
    hide UnknownReceipt, Run, Step, Messages, FlushLines, Waiting, Ids, Distinct;
    WaitingNext(pending, got);
    if pending == [] {
      NoLines();
      RunNothing(s);
      assert s.pending - {} == s.pending;
    } else {
      var n := |pending| - 1;
      var c := pending[n];
      FlushScan(s, pending[..n], got);
      var before := FlushLines(pending[..n], got);
      var s1 := Open(s.pending - Waiting(pending[..n], got), s.seen);
      if c.id in got {
        assert before + [] == before;
        assert s.pending - (Waiting(pending[..n], got) + {}) == s1.pending;
      } else {
        OneLine(before, Line(UnknownReceipt(c), true));
        RunOne(s, Messages(before), UnknownReceipt(c));
        ReceiptStep(s1, c);
        assert s1.pending - {c.id} == s.pending - (Waiting(pending[..n], got) + {c.id});
      }
    }
  }

  /** One pending call more, and the line its receipt takes. */
  lemma WaitingNext(pending: seq<Call>, got: set<string>)
    requires Distinct(pending)
    ensures pending == [] ==> FlushLines(pending, got) == [] && Waiting(pending, got) == {}
    ensures pending != [] ==>
              var n := |pending| - 1;
              var c := pending[n];
              && Distinct(pending[..n]) && c.id in Ids(pending) && Ids(pending[..n]) <= Ids(pending)
              && c.id !in Waiting(pending[..n], got)
              && Waiting(pending, got) == Waiting(pending[..n], got) + (if c.id in got then {} else {c.id})
              && FlushLines(pending, got) == FlushLines(pending[..n], got)
                                             + if c.id in got then [] else [Line(UnknownReceipt(c), true)]
  {
    hide UnknownReceipt;
    if pending != [] {
      var n := |pending| - 1;
      assert pending == pending[..n] + [pending[n]];
      assert Ids(pending) == Ids(pending[..n]) + {pending[n].id};
    }
  }

  lemma RunNothing(s: Scan)
    ensures Run(s, []) == s
  {
  }

  lemma FlushTracks(r: Work)
    requires Tracks(r)
    ensures Tracks(Flush(r)) && Waiting(Flush(r).pending, Flush(r).got) == {}
  {
    hide Run, FlushLines, Messages;
    var s := Run(START, Messages(r.lines));
    FlushScan(s, r.pending, r.got);
    MessagesSplit(r.lines, FlushLines(r.pending, r.got));
    RunSplits(START, Messages(r.lines), Messages(FlushLines(r.pending, r.got)));
  }

  /** Calls with IDs: the two scans take them alike, and refuse the same repetitions. */
  lemma {:induction false} CallsTrack(r: Work, calls: seq<Call>)
    requires PendingOk(r) && forall c :: c in calls ==> c.id != ""
    ensures var r', s' := TakeCalls(r, calls), AddCalls(Open(Waiting(r.pending, r.got), r.seen), calls);
            && (r'.Corrupt? <==> s'.Bad?)
            && (r'.Ledger? ==> PendingOk(r') && r'.lines == r.lines && r'.got == r.got
                               && s' == Open(Waiting(r'.pending, r'.got), r'.seen))
    decreases |calls|
  {
    if calls != [] {
      var c := calls[0];
      if c.id !in r.seen {
        var r1 := r.(pending := r.pending + [c], seen := r.seen + {c.id});
        assert Ids(r1.pending) == Ids(r.pending) + {c.id};
        assert Waiting(r1.pending, r1.got) == Waiting(r.pending, r.got) + {c.id};
        assert forall x :: x in calls[1..] ==> x in calls;
        CallsTrack(r1, calls[1..]);
      }
    }
  }

  lemma {:induction false} UnnamedCallIsBad(s: Scan, calls: seq<Call>)
    requires exists c :: c in calls && c.id == ""
    ensures AddCalls(s, calls).Bad?
    decreases |calls|
  {
    if s.Open? && calls[0].id != "" && calls[0].id !in s.seen {
      var c :| c in calls && c.id == "";
      assert c in calls[1..];
      UnnamedCallIsBad(Open(s.pending + {calls[0].id}, s.seen + {calls[0].id}), calls[1..]);
    }
  }

  ghost function BeforeCalls(r: Work, m: Message): Work { if IsTool(m) then r else Flush(r) }

  /** A message of good shape keeps the scans together. */
  lemma StepTracks(r: Work, m: Message)
    requires Tracks(r) && ShapeAt(r, m) && RepairStep(r, m).Ledger?
    ensures Tracks(RepairStep(r, m))
  {
    FlushTracks(r);
    var r1 := BeforeCalls(r, m);
    hide Run, FlushLines, Messages, Flush;
    assert TakeCalls(r1, m.calls).Ledger?;
    CallsTrack(r1, m.calls);
    var r2 := TakeCalls(r1, m.calls);
    var r3 := TakeReceipt(r2, m);
    var s := Run(START, Messages(r1.lines));
    OneLine(r3.lines, Line(m, false));
    RunOne(START, Messages(r3.lines), m);
    ScanOfStep(r1, m);
  }

  /** What the closure scan does with the same message. */
  lemma ScanOfStep(r1: Work, m: Message)
    requires PendingOk(r1) && ShapeAt(r1, m) && (!IsTool(m) ==> Waiting(r1.pending, r1.got) == {})
    requires TakeReceipt(TakeCalls(r1, m.calls), m).Ledger?
    ensures var r3 := TakeReceipt(TakeCalls(r1, m.calls), m);
            && PendingOk(r3) && r3.lines == r1.lines
            && Step(Open(Waiting(r1.pending, r1.got), r1.seen), m) == Open(Waiting(r3.pending, r3.got), r3.seen)
  {
    CallsTrack(r1, m.calls);
    var r2 := TakeCalls(r1, m.calls);
    var r3 := TakeReceipt(r2, m);
    if IsTool(m) {
      assert m.calls == [] && r2 == r1;
      if m.toolCallId != "" {
        assert Waiting(r3.pending, r3.got) == Waiting(r2.pending, r2.got) - {m.toolCallId};
      }
    }
  }

  /** Any other message makes the output unacceptable. */
  lemma BadShapeIsBad(r: Work, m: Message)
    requires Tracks(r) && !ShapeAt(r, m) && RepairStep(r, m).Ledger?
    ensures Run(START, Messages(RepairStep(r, m).lines)).Bad?
  {
    FlushTracks(r);
    var r1 := BeforeCalls(r, m);
    hide Run, FlushLines, Messages, Flush;
    TakeCallsKeeps(r1, m.calls);
    var r3 := TakeReceipt(TakeCalls(r1, m.calls), m);
    assert r3.lines == r1.lines;
    OneLine(r3.lines, Line(m, false));
    RunOne(START, Messages(r3.lines), m);
    if exists c :: c in m.calls && c.id == "" {
      UnnamedCallIsBad(Run(START, Messages(r1.lines)), m.calls);
    }
  }

  lemma EmptyTracks()
    ensures Tracks(EMPTY) && RepairRun([]) == EMPTY
  {
  }

  lemma {:induction false} ShapedTracks(ms: seq<Message>)
    requires RepairRun(ms).Ledger? && Shape(ms)
    ensures Tracks(RepairRun(ms))
  {
    hide Tracks, RepairStep, RepairRun, ShapeAt;
    EmptyTracks();
    if ms != [] {
      RunSteps(ms);
      ShapedTracks(ms[..|ms| - 1]);
      StepTracks(RepairRun(ms[..|ms| - 1]), ms[|ms| - 1]);
    }
  }

  /** Later steps only append to the output. */
  lemma OutputGrows(r: Work, m: Message)
    requires RepairStep(r, m).Ledger? && r.Ledger?
    ensures r.lines <= RepairStep(r, m).lines
  {
    hide FlushLines;
    TakeCallsKeeps(BeforeCalls(r, m), m.calls);
  }

  lemma BadOutputStays(a: seq<Line>, b: seq<Line>)
    requires a <= b && Run(START, Messages(a)).Bad?
    ensures Run(START, Messages(b)).Bad?
  {
    hide Run, Messages;
    assert b == a + b[|a|..];
    MessagesSplit(a, b[|a|..]);
    RunSplits(START, Messages(a), Messages(b[|a|..]));
    BadStays(Run(START, Messages(a)), Messages(b[|a|..]));
  }

  lemma {:induction false} UnshapedIsBad(ms: seq<Message>)
    requires RepairRun(ms).Ledger? && !Shape(ms)
    ensures Run(START, Messages(RepairRun(ms).lines)).Bad?
  {
    hide Tracks, RepairStep, RepairRun, ShapeAt, Run, Messages;
    var n := |ms| - 1;
    RunSteps(ms);
    var r := RepairRun(ms[..n]);
    if Shape(ms[..n]) {
      ShapedTracks(ms[..n]);
      BadShapeIsBad(r, ms[n]);
    } else {
      UnshapedIsBad(ms[..n]);
      OutputGrows(r, ms[n]);
      BadOutputStays(r.lines, RepairRun(ms).lines);
    }
  }

  /** A repaired ledger is closed exactly when the input had the shape of tool exchanges at all. */
  lemma RepairedIsClosedIffShaped(ms: seq<Message>)
    requires Repaired(ms).Ledger?
    ensures Closed(Messages(Repaired(ms).lines)) <==> Shape(ms)
  {
    hide RepairRun, ShapeAt, Run, Messages, Shape;
    var r := RepairRun(ms);
    if Shape(ms) {
      ShapedTracks(ms);
      FlushTracks(r);
    } else {
      UnshapedIsBad(ms);
      assert r.lines <= Flush(r).lines by { hide FlushLines; }
      BadOutputStays(r.lines, Flush(r).lines);
    }
  }

  // ---------------------------------------------------------------------------
  // A closed ledger needs no repair
  // ---------------------------------------------------------------------------

  /** The ledger as it is, with nothing added. */
  function AsIs(ms: seq<Message>): seq<Line> {
    if ms == [] then [] else AsIs(ms[..|ms| - 1]) + [Line(ms[|ms| - 1], false)]
  }

  lemma {:induction false} AsIsMessages(ms: seq<Message>)
    ensures Messages(AsIs(ms)) == ms && AddedCount(AsIs(ms)) == 0
  {
    hide Messages, AddedCount;
    NoLines();
    if ms != [] {
      var n := |ms| - 1;
      AsIsMessages(ms[..n]);
      OneLine(AsIs(ms[..n]), Line(ms[n], false));
      assert ms == ms[..n] + [ms[n]];
    }
  }

  lemma {:induction false} NothingToFlush(pending: seq<Call>, got: set<string>)
    requires Waiting(pending, got) == {}
    ensures FlushLines(pending, got) == []
  {
    if pending != [] {
      var n := |pending| - 1;
      assert pending[n] in pending && pending[n].id in Ids(pending);
      assert pending[n].id !in Waiting(pending, got);
      assert Waiting(pending[..n], got) <= Waiting(pending, got) by {
        assert forall c :: c in pending[..n] ==> c in pending;
      }
      NothingToFlush(pending[..n], got);
    }
  }

  /** A message that closure accepts is copied, and nothing is added before it. */
  lemma AcceptedIsCopied(r: Work, m: Message)
    requires Tracks(r) && Step(Open(Waiting(r.pending, r.got), r.seen), m).Open?
    ensures RepairStep(r, m).Ledger? && ShapeAt(r, m)
    ensures RepairStep(r, m).lines == r.lines + [Line(m, false)]
  {
    hide Run, Messages;
    if !IsTool(m) {
      NothingToFlush(r.pending, r.got);
      assert r.lines + [] == r.lines;
    }
    hide FlushLines;
    var r1 := BeforeCalls(r, m);
    assert r1.lines == r.lines && PendingOk(r1);
    if exists c :: c in m.calls && c.id == "" {
      UnnamedCallIsBad(Open(Waiting(r.pending, r.got), r.seen), m.calls);
    }
    assert Waiting(r1.pending, r1.got) == Waiting(r.pending, r.got);
    CallsTrack(r1, m.calls);
    TakeCallsKeeps(r1, m.calls);
  }

  lemma {:induction false} ClosedRunsAsIs(ms: seq<Message>)
    requires Run(START, ms).Open?
    ensures Tracks(RepairRun(ms)) && RepairRun(ms).lines == AsIs(ms)
  {
    hide RepairStep, RepairRun, Messages, Step;
    EmptyTracks();
    if ms != [] {
      var n := |ms| - 1;
      PrefixIsOpen(ms, n);
      ClosedRunsAsIs(ms[..n]);
      AsIsMessages(ms[..n]);
      var r := RepairRun(ms[..n]);
      assert Run(START, ms) == Step(Run(START, ms[..n]), ms[n]);
      AcceptedIsCopied(r, ms[n]);
      assert RepairRun(ms) == RepairStep(r, ms[n]) by { RunUnfolds(ms); }
      hide Run, Tracks, AsIs;
      StepTracks(r, ms[n]);
      assert RepairRun(ms).lines == AsIs(ms) by { AsIsUnfolds(ms); }
    }
  }

  lemma RunUnfolds(ms: seq<Message>)
    requires ms != []
    ensures RepairRun(ms) == RepairStep(RepairRun(ms[..|ms| - 1]), ms[|ms| - 1])
  {
  }

  lemma AsIsUnfolds(ms: seq<Message>)
    requires ms != []
    ensures AsIs(ms) == AsIs(ms[..|ms| - 1]) + [Line(ms[|ms| - 1], false)]
  {
  }

  /** A closed ledger comes back unchanged, with nothing repaired. */
  lemma ClosedIsUnchanged(ms: seq<Message>)
    requires Closed(ms)
    ensures Repaired(ms).Ledger? && Messages(Repaired(ms).lines) == ms && AddedCount(Repaired(ms).lines) == 0
  {
    ClosedRunsAsIs(ms);
    AsIsMessages(ms);
    hide RepairRun, Messages, AddedCount, Run, AsIs;
    var r := RepairRun(ms);
    NothingToFlush(r.pending, r.got);
    assert r.lines + [] == r.lines;
  }

  /** Repairing twice repairs no more. */
  lemma RepairIsAFixedPoint(ms: seq<Message>)
    requires Shape(ms) && Repaired(ms).Ledger?
    ensures var out := Messages(Repaired(ms).lines);
            && Repaired(out).Ledger? && Messages(Repaired(out).lines) == out && AddedCount(Repaired(out).lines) == 0
  {
    hide *;
    RepairedIsClosedIffShaped(ms);
    ClosedIsUnchanged(Messages(Repaired(ms).lines));
  }

  // ---------------------------------------------------------------------------
  // One receipt per unanswered call, and no other
  // ---------------------------------------------------------------------------

  /** Receipts added for one call ID. */
  function AddedFor(lines: seq<Line>, id: string): nat {
    if lines == [] then 0
    else AddedFor(lines[..|lines| - 1], id) + Bit(lines[|lines| - 1].added && lines[|lines| - 1].m.toolCallId == id)
  }

  /** The text tells the model that the outcome of the named tool is unknown. */
  predicate TellsOf(name: string, content: string) {
    "Tool " + name + " has no durable receipt after interruption. Outcome is unknown; do not repeat a write. " <= content
  }

  /** Whatever was added is a tool message without calls that says so. */
  ghost predicate OnlyReceipts(lines: seq<Line>) {
    forall k :: 0 <= k < |lines| && lines[k].added ==>
      IsTool(lines[k].m) && lines[k].m.calls == [] && exists name :: TellsOf(name, lines[k].m.content)
  }

  lemma {:induction false} LinesCount(lines: seq<Line>, id: string)
    requires OnlyReceipts(lines)
    ensures CallCount(Messages(lines), id) == CallCount(Originals(lines), id)
    ensures ResultCount(Messages(lines), id) == ResultCount(Originals(lines), id) + AddedFor(lines, id)
  {
    hide Messages, Originals, CallCount, ResultCount, AddedFor;
    if lines == [] {
      NoLines();
      assert AddedFor([], id) == 0 && CallCount([], id) == 0 && ResultCount([], id) == 0 by { NothingCounts(id); }
    } else {
      var n := |lines| - 1;
      LinesCount(lines[..n], id);
      LineCounts(lines[..n], lines[n], id);
      assert lines == lines[..n] + [lines[n]];
      if lines[n].added {
        assert CallsIn([], id) == 0;
      }
    }
  }

  lemma NothingCounts(id: string)
    ensures AddedFor([], id) == CallCount([], id) == ResultCount([], id) == CallsIn([], id) == 0
  {
  }

  lemma LineCounts(before: seq<Line>, line: Line, id: string)
    ensures Messages(before + [line]) == Messages(before) + [line.m]
    ensures CallCount(Messages(before + [line]), id) == CallCount(Messages(before), id) + CallsIn(line.m.calls, id)
    ensures ResultCount(Messages(before + [line]), id) ==
            ResultCount(Messages(before), id) + Bit(IsTool(line.m) && line.m.toolCallId == id)
    ensures !line.added ==>
              && CallCount(Originals(before + [line]), id) == CallCount(Originals(before), id) + CallsIn(line.m.calls, id)
              && ResultCount(Originals(before + [line]), id) ==
                 ResultCount(Originals(before), id) + Bit(IsTool(line.m) && line.m.toolCallId == id)
    ensures line.added ==> Originals(before + [line]) == Originals(before)
    ensures AddedFor(before + [line], id) == AddedFor(before, id) + Bit(line.added && line.m.toolCallId == id)
  {
    assert (before + [line])[..|before|] == before;
    OneLine(before, line);
    OneOriginal(before, line);
    assert (Messages(before) + [line.m])[..|Messages(before)|] == Messages(before);
    assert (Originals(before) + [line.m])[..|Originals(before)|] == Originals(before);
  }

  lemma ReceiptsAppend(a: seq<Line>, b: seq<Line>)
    requires OnlyReceipts(a) && OnlyReceipts(b)
    ensures OnlyReceipts(a + b)
  {
  }

  lemma OneReceipt(c: Call)
    ensures OnlyReceipts([Line(UnknownReceipt(c), true)])
  {
    assert TellsOf(c.name, UnknownReceipt(c).content);
  }

  lemma {:induction false} FlushIsReceipts(pending: seq<Call>, got: set<string>)
    ensures OnlyReceipts(FlushLines(pending, got))
  {
    hide OnlyReceipts, UnknownReceipt;
    if pending == [] {
      assert OnlyReceipts([]) by { EmptyReceipts(); }
    } else {
      var n := |pending| - 1;
      FlushIsReceipts(pending[..n], got);
      OneReceipt(pending[n]);
      ReceiptsAppend(FlushLines(pending[..n], got), [Line(UnknownReceipt(pending[n]), true)]);
      assert FlushLines(pending[..n], got) + [] == FlushLines(pending[..n], got);
    }
  }

  lemma EmptyReceipts()
    ensures OnlyReceipts([])
  {
  }

  lemma OneCopied(m: Message)
    ensures OnlyReceipts([Line(m, false)])
  {
  }

  lemma StepAddsReceipts(r: Work, m: Message)
    requires r.Ledger? && OnlyReceipts(r.lines) && RepairStep(r, m).Ledger?
    ensures OnlyReceipts(RepairStep(r, m).lines)
  {
    hide OnlyReceipts, FlushLines, Ids;
    FlushIsReceipts(r.pending, r.got);
    ReceiptsAppend(r.lines, FlushLines(r.pending, r.got));
    var r1 := BeforeCalls(r, m);
    assert OnlyReceipts(r1.lines);
    hide Flush;
    TakeCallsKeeps(r1, m.calls);
    hide TakeCalls;
    OneCopied(m);
    ReceiptsAppend(r1.lines, [Line(m, false)]);
  }

  lemma {:induction false} RunAddsReceipts(ms: seq<Message>)
    requires RepairRun(ms).Ledger?
    ensures OnlyReceipts(RepairRun(ms).lines)
  {
    hide RepairRun, RepairStep;
    EmptyTracks();
    if ms != [] {
      RunSteps(ms);
      RunAddsReceipts(ms[..|ms| - 1]);
      StepAddsReceipts(RepairRun(ms[..|ms| - 1]), ms[|ms| - 1]);
    }
  }

  /** Each call without a receipt gets exactly one, and no other line is added. */
  lemma OneReceiptPerUnansweredCall(ms: seq<Message>, id: string)
    requires Shape(ms) && Repaired(ms).Ledger? && id != ""
    ensures AddedFor(Repaired(ms).lines, id) == CallCount(ms, id) - ResultCount(ms, id)
    ensures CallCount(ms, id) <= 1
  {
    hide *;
    var lines := Repaired(ms).lines;
    RepairedAddsReceipts(ms);
    LinesCount(lines, id);
    InputIsKept(ms);
    RepairedIsClosedIffShaped(ms);
    ClosedMeansAnswered(Messages(lines), id);
  }

  /** Every added line is a tool result that says the outcome of its tool is unknown. */
  lemma RepairedAddsReceipts(ms: seq<Message>)
    requires Repaired(ms).Ledger?
    ensures OnlyReceipts(Repaired(ms).lines)
  {
    hide RepairRun, FlushLines, OnlyReceipts;
    var r := RepairRun(ms);
    RunAddsReceipts(ms);
    FlushIsReceipts(r.pending, r.got);
    ReceiptsAppend(r.lines, FlushLines(r.pending, r.got));
  }

  // ---------------------------------------------------------------------------
  // When a ledger is refused
  // ---------------------------------------------------------------------------

  /** Each message on its own: the ledgers that the runtime itself writes. */
  ghost predicate WellFormed(ms: seq<Message>) {
    forall i :: 0 <= i < |ms| ==>
      && (ms[i].calls != [] ==> ms[i].role == "assistant")
      && (forall c :: c in ms[i].calls ==> c.id != "")
      && (IsTool(ms[i]) <==> ms[i].toolCallId != "")
  }

  /** The calls of the latest message that is not a tool's. */
  function LastCalls(ms: seq<Message>): seq<Call> {
    if ms == [] then []
    else if !IsTool(ms[|ms| - 1]) then ms[|ms| - 1].calls
    else LastCalls(ms[..|ms| - 1])
  }

  /** The receipts since then. */
  function Receipts(ms: seq<Message>): set<string> {
    if ms == [] || !IsTool(ms[|ms| - 1]) then {} else Receipts(ms[..|ms| - 1]) + {ms[|ms| - 1].toolCallId}
  }

  function AllIds(ms: seq<Message>): set<string> {
    if ms == [] then {} else AllIds(ms[..|ms| - 1]) + Ids(ms[|ms| - 1].calls)
  }

  /** A call ID used before, or a receipt that answers no call of its exchange or one already answered. */
  ghost predicate Faulty(ms: seq<Message>, i: nat)
    requires i < |ms|
  {
    || Ids(ms[i].calls) * AllIds(ms[..i]) != {}
    || !Distinct(ms[i].calls)
    || (IsTool(ms[i]) && (ms[i].toolCallId !in Ids(LastCalls(ms[..i])) || ms[i].toolCallId in Receipts(ms[..i])))
  }

  lemma {:induction false} TakeCallsFails(r: Work, calls: seq<Call>)
    requires r.Ledger? && forall c :: c in calls ==> c.id != ""
    ensures TakeCalls(r, calls).Corrupt? <==> Ids(calls) * r.seen != {} || !Distinct(calls)
    ensures TakeCalls(r, calls).Ledger? ==>
              TakeCalls(r, calls) == r.(pending := r.pending + calls, seen := r.seen + Ids(calls))
    decreases |calls|
  {
    hide TakeCalls, Distinct, Ids;
    TakeCallsHead(r, calls);
    if calls == [] {
      assert Ids([]) == {} && Distinct([]) by { NoCalls(); }
      assert r.pending + calls == r.pending && r.seen + {} == r.seen;
    } else {
      var c, rest := calls[0], calls[1..];
      IdsHead(calls);
      DistinctHead(calls);
      assert c in calls && forall x :: x in rest ==> x in calls;
      if c.id in r.seen {
        assert c.id in Ids(calls) * r.seen;
      } else {
        var r1 := r.(pending := r.pending + [c], seen := r.seen + {c.id});
        TakeCallsFails(r1, rest);
        SeenOnce(Ids(rest), r.seen, c.id);
        assert r1.pending + rest == r.pending + calls;
        assert r1.seen + Ids(rest) == r.seen + Ids(calls);
      }
    }
  }

  lemma NoCalls()
    ensures Ids([]) == {} && Distinct([])
  {
  }

  lemma TakeCallsHead(r: Work, calls: seq<Call>)
    requires r.Ledger? && forall c :: c in calls ==> c.id != ""
    ensures TakeCalls(r, calls) ==
            if calls == [] then r
            else if calls[0].id in r.seen then Corrupt(RepeatedCall)
            else TakeCalls(r.(pending := r.pending + [calls[0]], seen := r.seen + {calls[0].id}), calls[1..])
  {
    if calls != [] {
      assert calls[0] in calls;
    }
  }

  lemma SeenOnce(rest: set<string>, seen: set<string>, id: string)
    requires id !in seen
    ensures rest * (seen + {id}) == {} <==> (rest + {id}) * seen == {} && id !in rest
  {
    if rest * (seen + {id}) == {} {
      assert forall x :: x in (rest + {id}) * seen ==> x in rest * (seen + {id});
      assert id in rest ==> id in rest * (seen + {id});
    }
    if (rest + {id}) * seen == {} && id !in rest {
      assert forall x :: x in rest * (seen + {id}) ==> x in (rest + {id}) * seen;
    }
  }

  lemma IdsHead(calls: seq<Call>)
    requires calls != []
    ensures Ids(calls) == Ids(calls[1..]) + {calls[0].id} && calls == [calls[0]] + calls[1..]
  {
    assert calls == [calls[0]] + calls[1..];
  }

  lemma DistinctHead(calls: seq<Call>)
    requires calls != []
    ensures Distinct(calls) <==> calls[0].id !in Ids(calls[1..]) && Distinct(calls[1..])
  {
    var rest := calls[1..];
    assert forall k :: 1 <= k < |calls| ==> calls[k] == rest[k - 1] && calls[k] in rest;
    if calls[0].id !in Ids(rest) && Distinct(rest) {
      forall i, k | 0 <= i < k < |calls| ensures calls[i].id != calls[k].id {
        if i > 0 {
          assert rest[i - 1].id != rest[k - 1].id;
        }
      }
    }
    if Distinct(calls) {
      forall i, k | 0 <= i < k < |rest| ensures rest[i].id != rest[k].id {
        assert calls[i + 1].id != calls[k + 1].id;
      }
      forall c | c in rest ensures c.id != calls[0].id {
        var k :| 0 <= k < |rest| && rest[k] == c;
        assert calls[0].id != calls[k + 1].id;
      }
    }
  }

  /** What the loop remembers of a sound ledger. */
  ghost predicate Remembers(r: Work, ms: seq<Message>) {
    r.Ledger? && r.pending == LastCalls(ms) && r.got == Receipts(ms) && r.seen == AllIds(ms)
  }

  lemma StepRemembers(r: Work, ms: seq<Message>)
    requires ms != [] && WellFormed(ms) && Remembers(r, ms[..|ms| - 1])
    ensures RepairStep(r, ms[|ms| - 1]).Corrupt? <==> Faulty(ms, |ms| - 1)
    ensures RepairStep(r, ms[|ms| - 1]).Ledger? ==> Remembers(RepairStep(r, ms[|ms| - 1]), ms)
  {
    hide FlushLines;
    var m := ms[|ms| - 1];
    var r1 := BeforeCalls(r, m);
    TakeCallsFails(r1, m.calls);
    assert [] + m.calls == m.calls;
    if IsTool(m) {
      assert m.calls == [];
      assert r1.pending + [] == r1.pending && r1.seen + {} == r1.seen;
    }
  }

  lemma {:induction false} RefusedIffFaultyRun(ms: seq<Message>)
    requires WellFormed(ms)
    ensures RepairRun(ms).Corrupt? <==> exists i: nat :: i < |ms| && Faulty(ms, i)
    ensures RepairRun(ms).Ledger? ==> Remembers(RepairRun(ms), ms)
  {
    hide RepairRun, RepairStep, Faulty;
    EmptyTracks();
    if ms == [] {
    } else {
      var n := |ms| - 1;
      var before := ms[..n];
      RefusedIffFaultyRun(before);
      RunUnfolds(ms);
      forall i: nat | i < n ensures Faulty(before, i) <==> Faulty(ms, i) {
        FaultIsLocal(ms, n, i);
      }
      if RepairRun(before).Corrupt? {
        CorruptStays(RepairRun(before), ms[n]);
        var i: nat :| i < |before| && Faulty(before, i);
        assert Faulty(ms, i);
      } else {
        StepRemembers(RepairRun(before), ms);
        assert forall i: nat :: i < n ==> !Faulty(ms, i);
      }
    }
  }

  lemma FaultIsLocal(ms: seq<Message>, n: nat, i: nat)
    requires i < n <= |ms|
    ensures Faulty(ms[..n], i) <==> Faulty(ms, i)
  {
    assert ms[..n][..i] == ms[..i];
  }

  /** A well-formed ledger is refused if and only if some message is faulty. */
  lemma RefusedIffFaulty(ms: seq<Message>)
    requires WellFormed(ms)
    ensures Repaired(ms).Corrupt? <==> exists i: nat :: i < |ms| && Faulty(ms, i)
  {
    hide RepairRun, Faulty;
    RefusedIffFaultyRun(ms);
  }

  lemma {:induction false} WellFormedIsShaped(ms: seq<Message>)
    requires WellFormed(ms)
    ensures Shape(ms)
  {
    hide RepairRun;
    if ms != [] {
      WellFormedIsShaped(ms[..|ms| - 1]);
    }
  }

  /**
    The repair of a ledger that the runtime wrote and an interruption cut short: refused for a fault, or the old
    messages in place, every exchange closed, one receipt for each call that had none, and nothing left to repair.
   */
  lemma InterruptedLedgerIsRepaired(ms: seq<Message>)
    requires WellFormed(ms) && !exists i: nat :: i < |ms| && Faulty(ms, i)
    ensures Repaired(ms).Ledger?
    ensures var lines := Repaired(ms).lines;
            && Originals(lines) == ms
            && Closed(Messages(lines))
            && (forall id :: id != "" ==> AddedFor(lines, id) == CallCount(ms, id) - ResultCount(ms, id))
            && Repaired(Messages(lines)).Ledger? && Messages(Repaired(Messages(lines)).lines) == Messages(lines)
  {
    hide *;
    RefusedIffFaulty(ms);
    WellFormedIsShaped(ms);
    InputIsKept(ms);
    RepairedIsClosedIffShaped(ms);
    RepairIsAFixedPoint(ms);
    forall id | id != ""
      ensures AddedFor(Repaired(ms).lines, id) == CallCount(ms, id) - ResultCount(ms, id)
    {
      OneReceiptPerUnansweredCall(ms, id);
    }
  }
}
