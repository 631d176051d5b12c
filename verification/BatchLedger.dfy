/**
  What the session ledger holds while a frozen batch is executed, interrupted and resumed: exactly one
  result per passed call, in call order, provided every resumption starts from the ledger on disk.
 */
module BatchLedger {
  import opened Common
  import opened Approvals
  import opened ToolBatch
  import opened BatchRuns

  /** The base ledger followed by one result for each of the first `k` calls, in order. */
  ghost predicate Exact(b: Batch, base: Ledger, l: Ledger, k: nat) {
    && k <= |b.calls| && |l| == |base| + k && l[..|base|] == base
    && forall j :: 0 <= j < k ==> l[|base| + j].callId == b.calls[j].id
  }

  ghost predicate Answers(b: Batch, ms: seq<Message>, next: nat) {
    next + |ms| <= |b.calls| && forall k :: 0 <= k < |ms| ==> ms[k].callId == b.calls[next + k].id
  }

  lemma ExactExtends(b: Batch, base: Ledger, l: Ledger, k: nat, ms: seq<Message>)
    requires Exact(b, base, l, k) && Answers(b, ms, k)
    ensures Exact(b, base, l + ms, k + |ms|)
  {
    forall j | 0 <= j < k + |ms| ensures (l + ms)[|base| + j].callId == b.calls[j].id {
      if j >= k {
        assert (l + ms)[|base| + j] == ms[j - k];
      }
    }
  }

  /** The durable half: ledger and continuation agree, or differ by exactly the journalled results. */
  ghost predicate DiskInv(b: Batch, base: Ledger, s: Sys) {
    match s.cont
    case Inactive => Exact(b, base, s.ledger, |b.calls|) && s.runner.Off?
    case Active(next, executing, pending, oldLedger, oldLength, buffered, bufferedNext) =>
      && oldLength == |oldLedger| && Exact(b, base, oldLedger, next)
      && (buffered == [] ==> s.ledger == oldLedger)
      && (buffered != [] ==> ValidJournal(b.calls, s.cont) && (s.ledger == oldLedger || s.ledger == oldLedger + buffered))
  }

  /** The volatile half: what the process memory holds at each point of a turn. */
  ghost predicate MemoryInv(b: Batch, s: Sys) {
    && s.ledger <= s.memory
    && match s.runner
       case Off => true
       case AtTop(c) => s.memory == s.ledger
       case InGroup(c, end, results, auth) => s.memory == s.ledger
       case Collected(c, end) =>
         && c.Active? && |s.memory| == |s.ledger| + (end - c.next) && Answers(b, s.memory[|s.ledger|..], c.next)
       case Journalled(c) =>
         s.cont.Active? && s.ledger == s.cont.oldLedger && s.memory == s.ledger + s.cont.buffered
       case LedgerSaved(c) =>
         s.cont.Active? && s.memory == s.ledger == s.cont.oldLedger + s.cont.buffered
       case Resuming(c) => c.Active? && (c.buffered == [] ==> s.memory == s.ledger)
       case Redone(c) => s.cont.Active? && s.memory == s.ledger == s.cont.oldLedger + s.cont.buffered
       case Checked(c) => s.memory == s.ledger
       case Ready(c) => s.memory == s.ledger
       case Entering(c) => s.memory == s.ledger
  }

  ghost predicate LedgerInv(b: Batch, base: Ledger, s: Sys) {
    LinkInv(b, s) && DiskInv(b, base, s) && MemoryInv(b, s)
  }

  /**
    A resumption that finds an empty journal keeps the messages the process already holds. It is clean when
    those are the messages on disk, as they always are after a restart.
   */
  predicate Clean(s: Sys, e: Event) {
    e.ResumeLoad? && s.cont.Active? && s.cont.buffered == [] ==> s.memory == s.ledger
  }

  ghost predicate CleanRun(b: Batch, s: Sys, es: seq<Event>) {
    es == [] || (CleanRun(b, s, es[..|es| - 1]) && Clean(After(b, s, es[..|es| - 1]), es[|es| - 1]))
  }

  // ---------------------------------------------------------------------------
  // Every clean step
  // ---------------------------------------------------------------------------

  /** Steps inside a group touch the approval book, the group's results and the counters, nothing else. */
  ghost predicate WithinGroup(s: Sys, s': Sys) {
    && s'.cont == s.cont && s'.ledger == s.ledger && s'.memory == s.memory && s'.current == s.current
    && (s'.runner == s.runner
        || (s.runner.InGroup? && s'.runner.InGroup? && s'.runner.c == s.runner.c && s'.runner.end == s.runner.end))
  }

  lemma AuthStaysWithinGroup(b: Batch, s: Sys, e: Event)
    ensures WithinGroup(s, ApplyAuth(b, s, e))
  {
    hide ApplyAuth;
    AuthHasShape(b, s, e);
  }

  lemma CallsStayWithinGroup(b: Batch, s: Sys, e: Event)
    ensures WithinGroup(s, ApplyGroup(b, s, e))
  {}

  lemma WithinGroupKeepsLedger(b: Batch, base: Ledger, s: Sys, s': Sys)
    requires DiskInv(b, base, s) && MemoryInv(b, s) && WithinGroup(s, s')
    ensures DiskInv(b, base, s') && MemoryInv(b, s')
  {
    hide Exact, ValidJournal, Answers;
  }

  lemma WorldKeepsLedger(b: Batch, base: Ledger, s: Sys, e: Event)
    requires LedgerInv(b, base, s)
    ensures DiskInv(b, base, ApplyWorld(b, s, e)) && MemoryInv(b, ApplyWorld(b, s, e))
    ensures ApplyWorld(b, s, e).ledger == s.ledger
  {
    hide GroupEnd, Exact, ValidJournal, Answers;
  }

  lemma CollectKeepsLedger(b: Batch, base: Ledger, s: Sys, w: Write)
    requires LedgerInv(b, base, s)
    ensures var s' := ApplyCommit(b, s, Collect(w)); DiskInv(b, base, s') && MemoryInv(b, s')
  {
    hide GroupEnd, Exact, ValidJournal;
    if s.runner.InGroup? {
      var c := s.runner.c;
      var ms := Accepted(b, c.next, LeadingTexts(s.runner.results));
      assert (s.memory + ms)[|s.ledger|..] == ms;
    }
  }

  lemma AnswersMakeJournal(b: Batch, c: Continuation, ms: seq<Message>)
    requires c.Active? && ms != [] && Answers(b, ms, c.next)
    ensures ValidJournal(b.calls, c.(buffered := ms, bufferedNext := c.next + |ms|))
  {}

  lemma JournalKeepsLedger(b: Batch, base: Ledger, s: Sys, w: Write)
    requires LedgerInv(b, base, s)
    ensures var s' := ApplyCommit(b, s, JournalResults(w)); DiskInv(b, base, s') && MemoryInv(b, s')
  {
    hide GroupEnd, Exact, ValidJournal, Answers;
    if s.runner.Collected? {
      var c := s.runner.c;
      var ms := s.memory[|s.ledger|..];
      assert |ms| == s.runner.end - c.next && s.memory[|s.memory| - |ms|..] == ms && s.memory == s.ledger + ms;
      AnswersMakeJournal(b, Stamped(c, s.ledger), ms);
    }
  }

  lemma AdvanceKeepsLedger(b: Batch, base: Ledger, s: Sys, w: Write)
    requires LedgerInv(b, base, s)
    ensures var s' := ApplyCommit(b, s, Advance(w)); DiskInv(b, base, s') && MemoryInv(b, s')
  {
    hide GroupEnd, Exact;
    if s.runner.LedgerSaved? {
      ExactExtends(b, base, s.cont.oldLedger, s.cont.next, s.cont.buffered);
    }
  }

  lemma BeginKeepsLedger(b: Batch, base: Ledger, s: Sys, w: Write)
    requires LedgerInv(b, base, s)
    ensures var s' := ApplyCommit(b, s, BeginGroup(w)); DiskInv(b, base, s') && MemoryInv(b, s')
  {
    hide GroupEnd, Exact, ValidJournal, Answers;
  }

  lemma SaveKeepsLedger(b: Batch, base: Ledger, s: Sys, e: Event)
    requires LedgerInv(b, base, s) && (e.SaveLedger? || e.Clear?)
    ensures var s' := ApplyCommit(b, s, e); DiskInv(b, base, s') && MemoryInv(b, s')
  {
    hide GroupEnd, Exact, ValidJournal, Answers;
  }

  lemma CommitOnlyExtends(b: Batch, s: Sys, e: Event)
    requires MemoryInv(b, s)
    ensures s.ledger <= ApplyCommit(b, s, e).ledger
  {
    hide GroupEnd, Accepted, LeadingTexts;
  }

  lemma CommitKeepsLedger(b: Batch, base: Ledger, s: Sys, e: Event)
    requires LedgerInv(b, base, s) && CommitEvent(e)
    ensures DiskInv(b, base, ApplyCommit(b, s, e)) && MemoryInv(b, ApplyCommit(b, s, e))
    ensures s.ledger <= ApplyCommit(b, s, e).ledger
  {
    hide ApplyCommit, DiskInv, MemoryInv, LinkInv;
    CommitOnlyExtends(b, s, e);
    if e.BeginGroup? {
      BeginKeepsLedger(b, base, s, e.w);
    } else if e.Collect? {
      CollectKeepsLedger(b, base, s, e.w);
    } else if e.JournalResults? {
      JournalKeepsLedger(b, base, s, e.w);
    } else if e.Advance? {
      AdvanceKeepsLedger(b, base, s, e.w);
    } else {
      SaveKeepsLedger(b, base, s, e);
    }
  }

  lemma RecoverKeepsLedger(b: Batch, base: Ledger, s: Sys, w: Write)
    requires LedgerInv(b, base, s)
    ensures var s' := ApplyResume(b, s, RecoverLedger(w));
            DiskInv(b, base, s') && MemoryInv(b, s') && s.ledger <= s'.ledger
  {
    hide GroupEnd, Exact;
    if s.runner.Resuming? && s.cont.buffered != [] {
      RecoveryIsExact(b.calls, s.cont, s.ledger);
    }
  }

  lemma RedoneKeepsLedger(b: Batch, base: Ledger, s: Sys, w: Write)
    requires LedgerInv(b, base, s)
    ensures var s' := ApplyResume(b, s, RecoverContinuation(w)); DiskInv(b, base, s') && MemoryInv(b, s')
  {
    hide GroupEnd, Exact;
    if s.runner.Redone? {
      ExactExtends(b, base, s.cont.oldLedger, s.cont.next, s.cont.buffered);
    }
  }

  lemma LoadKeepsLedger(b: Batch, base: Ledger, s: Sys)
    requires LedgerInv(b, base, s) && Clean(s, ResumeLoad)
    ensures var s' := ApplyResume(b, s, ResumeLoad); DiskInv(b, base, s') && MemoryInv(b, s')
  {
    hide GroupEnd, Exact, ValidJournal, Answers;
  }

  lemma DecideKeepsLedger(b: Batch, base: Ledger, s: Sys, e: Event)
    requires LedgerInv(b, base, s) && e.ResumeDecide?
    ensures var s' := ApplyResume(b, s, e); DiskInv(b, base, s') && MemoryInv(b, s')
  {
    hide GroupEnd, Exact, ValidJournal, Answers, Decide, ResumeAllows, DecisionStands;
  }

  lemma EnterKeepsLedger(b: Batch, base: Ledger, s: Sys, e: Event)
    requires LedgerInv(b, base, s) && (e.ResumeSave? || e.ResumeEnter?)
    ensures var s' := ApplyResume(b, s, e); DiskInv(b, base, s') && MemoryInv(b, s')
  {
    hide GroupEnd, Exact, ValidJournal, Answers;
  }

  lemma ResumeOnlyExtends(b: Batch, base: Ledger, s: Sys, e: Event)
    requires LedgerInv(b, base, s)
    ensures s.ledger <= ApplyResume(b, s, e).ledger
  {
    hide GroupEnd, Exact, Answers, Decide, ResumeAllows, DecisionStands, LinkInv;
  }

  lemma ResumeKeepsLedger(b: Batch, base: Ledger, s: Sys, e: Event)
    requires LedgerInv(b, base, s) && Clean(s, e) && ResumeEvent(e)
    ensures DiskInv(b, base, ApplyResume(b, s, e)) && MemoryInv(b, ApplyResume(b, s, e))
    ensures s.ledger <= ApplyResume(b, s, e).ledger
  {
    hide ApplyResume, DiskInv, MemoryInv, LinkInv, Clean;
    ResumeOnlyExtends(b, base, s, e);
    if e.ResumeLoad? {
      LoadKeepsLedger(b, base, s);
    } else if e.RecoverLedger? {
      RecoverKeepsLedger(b, base, s, e.w);
    } else if e.RecoverContinuation? {
      RedoneKeepsLedger(b, base, s, e.w);
    } else if e.ResumeDecide? {
      DecideKeepsLedger(b, base, s, e);
    } else {
      EnterKeepsLedger(b, base, s, e);
    }
  }

  lemma CleanStepKeepsLedger(b: Batch, base: Ledger, s: Sys, e: Event)
    requires LedgerInv(b, base, s) && Clean(s, e)
    ensures LedgerInv(b, base, Apply(b, s, e)) && s.ledger <= Apply(b, s, e).ledger
  {
    hide ApplyAuth, ApplyGroup, ApplyCommit, ApplyResume, ApplyWorld, LinkInv, DiskInv, MemoryInv;
    StepKeepsLink(b, s, e);
    if AuthEvent(e) {
      AuthStaysWithinGroup(b, s, e);
      WithinGroupKeepsLedger(b, base, s, ApplyAuth(b, s, e));
    } else if GroupEvent(e) {
      CallsStayWithinGroup(b, s, e);
      WithinGroupKeepsLedger(b, base, s, ApplyGroup(b, s, e));
    } else if CommitEvent(e) {
      CommitKeepsLedger(b, base, s, e);
    } else if ResumeEvent(e) {
      ResumeKeepsLedger(b, base, s, e);
    } else {
      WorldKeepsLedger(b, base, s, e);
    }
  }

  lemma {:induction false} CleanRunKeepsLedger(b: Batch, book: Book, base: Ledger, es: seq<Event>)
    requires CleanRun(b, Start(b, book, base), es)
    ensures LedgerInv(b, base, After(b, Start(b, book, base), es))
  {
    if es != [] {
      CleanRunKeepsLedger(b, book, base, es[..|es| - 1]);
      CleanStepKeepsLedger(b, base, After(b, Start(b, book, base), es[..|es| - 1]), es[|es| - 1]);
    }
  }

  // ---------------------------------------------------------------------------
  // The results
  // ---------------------------------------------------------------------------

  /**
    Write-ahead recovery over whole runs. At every moment the ledger is the base followed by one result for
    each call the continuation has passed, plus at most the journalled results of the current group; once
    the continuation is cleared it holds exactly one result for every call of the batch, in order.
   */
  lemma LedgerIsExact(b: Batch, book: Book, base: Ledger, es: seq<Event>)
    requires CleanRun(b, Start(b, book, base), es)
    ensures var s := After(b, Start(b, book, base), es);
            && (s.cont.Inactive? ==> Exact(b, base, s.ledger, |b.calls|))
            && (s.cont.Active? ==>
                  (Exact(b, base, s.ledger, s.cont.next)
                   || (s.cont.buffered != [] && Exact(b, base, s.ledger, s.cont.bufferedNext))))
  {
    CleanRunKeepsLedger(b, book, base, es);
    var s := After(b, Start(b, book, base), es);
    if s.cont.Active? && s.cont.buffered != [] {
      ExactExtends(b, base, s.cont.oldLedger, s.cont.next, s.cont.buffered);
    }
  }

  /** What has been saved is never rewritten, dropped or reordered by anything that happens later. */
  lemma {:induction false} LedgerOnlyGrows(b: Batch, book: Book, base: Ledger, es: seq<Event>, more: seq<Event>)
    requires CleanRun(b, Start(b, book, base), es + more)
    ensures CleanRun(b, Start(b, book, base), es)
    ensures After(b, Start(b, book, base), es).ledger <= After(b, Start(b, book, base), es + more).ledger
    decreases |more|
  {
    hide Apply, Clean, LedgerInv;
    if more == [] {
      assert es + more == es;
    } else {
      var less := more[..|more| - 1];
      assert (es + more)[..|es + more| - 1] == es + less;
      LedgerOnlyGrows(b, book, base, es, less);
      CleanRunKeepsLedger(b, book, base, es + less);
      CleanStepKeepsLedger(b, base, After(b, Start(b, book, base), es + less), more[|more| - 1]);
    }
  }

  /** Before a risky call or a barrier is dispatched, the results of all earlier calls are in the ledger. */
  lemma EarlierResultsAreDurable(b: Batch, book: Book, base: Ledger, es: seq<Event>, e: Event, i: nat)
    requires CleanRun(b, Start(b, book, base), es)
    requires i < |b.calls| && b.calls[i].kind != SafeRead
    requires var s := After(b, Start(b, book, base), es);
             |s.ran| == |b.calls| && Apply(b, s, e).ran != s.ran && (e.RunClaimed? || (e.Execute? && e.i == i))
             && (e.RunClaimed? ==> s.runner.c.next == i)
    ensures Exact(b, base, After(b, Start(b, book, base), es).ledger, i)
  {
    CleanRunKeepsLedger(b, book, base, es);
    var s := After(b, Start(b, book, base), es);
    assert s.runner.InGroup? && s.runner.c.next == i;
  }

  // ---------------------------------------------------------------------------
  // Where exactness ends: resuming in a process that kept unsaved results
  // ---------------------------------------------------------------------------

  /** A resumption carried through to the batch loop, all of its writes succeeding. */
  ghost function ResumeThrough(b: Batch, s: Sys, i: nat, allow: bool, now: int): Sys {
    Apply(b, Apply(b, Apply(b, Apply(b, Apply(b, s, ResumeLoad), RecoverLedger(Good)),
                                        ResumeDecide(i, allow, now, Good)), ResumeSave(Good)), ResumeEnter(Good))
  }

  /**
    The exact condition: a resumption that finds no journalled results re-enters the loop with an exact
    ledger if and only if the messages the process holds are the ones on disk.
   */
  lemma ResumeIsExactIff(b: Batch, book: Book, base: Ledger, es: seq<Event>, i: nat, allow: bool, now: int)
    requires CleanRun(b, Start(b, book, base), es)
    requires var s := After(b, Start(b, book, base), es);
             && s.runner.Off? && s.cont.Active? && s.cont.buffered == []
             && ResumeThrough(b, s, i, allow, now).runner.AtTop?
    ensures var s := After(b, Start(b, book, base), es);
            var s' := ResumeThrough(b, s, i, allow, now);
            && s'.cont.Active? && s'.cont.next == s.cont.next && s'.ledger == s.memory
            && (Exact(b, base, s'.ledger, s'.cont.next) <==> s.memory == s.ledger)
  {
    CleanRunKeepsLedger(b, book, base, es);
    ResumeWritesMemory(b, base, After(b, Start(b, book, base), es), i, allow, now);
  }

  lemma LoadStep(b: Batch, s: Sys)
    requires s.runner.Off? && s.cont.Active? && Apply(b, s, ResumeLoad).runner.Resuming?
    ensures Apply(b, s, ResumeLoad) == s.(runner := Resuming(s.cont))
  {
    hide ApplyAuth, ApplyGroup, ApplyCommit, ApplyWorld;
  }

  lemma CheckStep(b: Batch, s: Sys)
    requires s.runner == Resuming(s.cont) && s.cont.Active? && s.cont.buffered == []
    ensures Apply(b, s, RecoverLedger(Good)) == s.(runner := if s.ledger == s.cont.oldLedger then Checked(s.cont) else Off)
  {
    hide ApplyAuth, ApplyGroup, ApplyCommit, ApplyWorld;
  }

  lemma DecideStep(b: Batch, s: Sys, i: nat, allow: bool, now: int)
    requires s.runner == Checked(s.cont) && s.cont.Active?
    ensures var s' := Apply(b, s, ResumeDecide(i, allow, now, Good));
            && (s'.runner.Ready? || s'.runner.Off?)
            && (s'.runner.Ready? ==> s'.runner.c.Active? && s'.runner.c.next == s.cont.next)
            && s'.cont == s.cont && s'.memory == s.memory && s'.ledger == s.ledger && s'.ran == s.ran
  {
    hide ApplyAuth, ApplyGroup, ApplyCommit, ApplyWorld, Decide, ResumeAllows, DecisionStands;
  }

  lemma SaveAndEnterSteps(b: Batch, s: Sys)
    requires s.runner.Ready? && s.runner.c.Active?
    ensures var s' := Apply(b, Apply(b, s, ResumeSave(Good)), ResumeEnter(Good));
            && s'.cont == Stamped(s.runner.c, s.ledger) && s'.ledger == s.memory == s'.memory
            && s'.runner == AtTop(s.runner.c) && s'.ran == s.ran
  {
    hide ApplyAuth, ApplyGroup, ApplyCommit, ApplyWorld;
  }

  lemma OffStaysOff(b: Batch, s: Sys, i: nat, allow: bool, now: int)
    requires s.runner.Off?
    ensures Apply(b, s, RecoverLedger(Good)) == s
    ensures Apply(b, s, ResumeDecide(i, allow, now, Good)) == s
    ensures Apply(b, s, ResumeSave(Good)) == s && Apply(b, s, ResumeEnter(Good)) == s
  {
    hide ApplyAuth, ApplyGroup, ApplyCommit, ApplyWorld;
  }

  lemma ResumeWritesMemory(b: Batch, base: Ledger, s: Sys, i: nat, allow: bool, now: int)
    requires LedgerInv(b, base, s) && s.runner.Off? && s.cont.Active? && s.cont.buffered == []
    requires ResumeThrough(b, s, i, allow, now).runner.AtTop?
    ensures var s' := ResumeThrough(b, s, i, allow, now);
            s'.cont.Active? && s'.cont.next == s.cont.next && s'.ledger == s.memory
  {
    hide Apply;
    var s1 := Apply(b, s, ResumeLoad);
    var s2 := Apply(b, s1, RecoverLedger(Good));
    var s3 := Apply(b, s2, ResumeDecide(i, allow, now, Good));
    assert s1.runner.Off? || s1.runner.Resuming? by { LoadOutcome(b, s); }
    if s1.runner.Off? {
      OffStaysOff(b, s1, i, allow, now);
    } else {
      LoadStep(b, s);
      CheckStep(b, s1);
      DecideStep(b, s2, i, allow, now);
      if s3.runner.Off? {
        OffStaysOff(b, s3, i, allow, now);
      } else {
        SaveAndEnterSteps(b, s3);
      }
    }
  }

  lemma LoadOutcome(b: Batch, s: Sys)
    requires s.runner.Off?
    ensures Apply(b, s, ResumeLoad).runner.Off? || Apply(b, s, ResumeLoad).runner.Resuming?
  {
    hide ApplyAuth, ApplyGroup, ApplyCommit, ApplyWorld;
  }

  // One risky call: its handler runs and its receipt is written, but journalling the result fails. A
  // resumption in the same process then saves the copy the process still holds, ahead of the replay.

  const WHO := Identity("user", "session", "run", "call")
  const BATCH := Batch("user", "session", "run", [ToolCall("call", Risky)])
  const ACTION := Action(WHO, "write_file", "{}", "def", "")
  const RESULT := Message("call", "ok")

  const FAILING_RUN: seq<Event> := [
    BeginGroup(Good), FindApproval(true, ""), CreateApproval(ACTION, 600, 0, false, Good, ""),
    DecideNow(true, 0, Good, ""), ClaimApproval(ACTION, 0, "token", Good, ""), RunClaimed(true, true, "ok"),
    FinishClaimed(false, Good), Collect(Good), JournalResults(Lost)]

  const EXECUTING := Active(0, true, None, [], 0, [], 0)

  function Rec(status: Status, token: string, receipt: string): Book {
    map[WHO := Record(ACTION, status, 600, token, receipt)]
  }

  function Asked(auth: Auth, results: seq<Option<Outcome>>): Runner { InGroup(EXECUTING, 1, results, auth) }

  /** The state after the first `k` events of the failing run. */
  ghost function Stage(k: nat): Sys
    requires k <= 9
  {
    match k
    case 0 => Start(BATCH, map[], [])
    case 1 => Sys(map[], EXECUTING, [], [], true, Asked(NotAsked, [None]), [0])
    case 2 => Sys(map[], EXECUTING, [], [], true, Asked(MustCreate, [None]), [0])
    case 3 => Sys(Rec(Pending, "", ""), EXECUTING, [], [], true, Asked(MustDecide, [None]), [0])
    case 4 => Sys(Rec(Approved, "", ""), EXECUTING, [], [], true, Asked(MustClaim, [None]), [0])
    case 5 => Sys(Rec(Claimed, "token", ""), EXECUTING, [], [], true, Asked(HasClaim("token"), [None]), [0])
    case 6 => Sys(Rec(Claimed, "token", ""), EXECUTING, [], [], true, Asked(HasRun("token", Completed, "ok"), [None]), [1])
    case 7 => Sys(Rec(Completed, "token", "ok"), EXECUTING, [], [], true, Asked(NotAsked, [Some(Text("ok"))]), [1])
    case 8 => Sys(Rec(Completed, "token", "ok"), EXECUTING, [], [RESULT], true, Collected(EXECUTING, 1), [1])
    case _ => Sys(Rec(Completed, "token", "ok"), EXECUTING, [], [RESULT], true, Off, [1])
  }

  lemma FindStage()
    ensures Apply(BATCH, Stage(1), FindApproval(true, "")) == Stage(2)
  {
    hide ApplyGroup, ApplyCommit, ApplyResume, ApplyWorld, GroupEnd,
         CreateOrReuse, DecideHere, TryClaim, Abort, RunHandler, WriteReceipt;
    assert BATCH.Who(0) == WHO;
  }

  lemma CreateStage()
    ensures Apply(BATCH, Stage(2), CreateApproval(ACTION, 600, 0, false, Good, "")) == Stage(3)
  {
    hide ApplyGroup, ApplyCommit, ApplyResume, ApplyWorld, GroupEnd,
         Find, DecideHere, TryClaim, Abort, RunHandler, WriteReceipt;
    assert BATCH.Who(0) == WHO;
  }

  lemma DecideStage()
    ensures Apply(BATCH, Stage(3), DecideNow(true, 0, Good, "")) == Stage(4)
  {
    hide ApplyGroup, ApplyCommit, ApplyResume, ApplyWorld, GroupEnd,
         Find, CreateOrReuse, TryClaim, Abort, RunHandler, WriteReceipt;
    assert BATCH.Who(0) == WHO;
  }

  lemma ClaimStage()
    ensures Apply(BATCH, Stage(4), ClaimApproval(ACTION, 0, "token", Good, "")) == Stage(5)
  {
    hide ApplyGroup, ApplyCommit, ApplyResume, ApplyWorld, GroupEnd,
         Find, CreateOrReuse, DecideHere, Abort, RunHandler, WriteReceipt;
    assert BATCH.Who(0) == WHO;
  }

  lemma RunStage()
    ensures Apply(BATCH, Stage(5), RunClaimed(true, true, "ok")) == Stage(6)
  {
    hide ApplyGroup, ApplyCommit, ApplyResume, ApplyWorld, GroupEnd,
         Find, CreateOrReuse, DecideHere, TryClaim, Abort, WriteReceipt;
    var s := Stage(5);
    assert s.ran[0 := 1] == [1] && s.ran[0] + 1 == 1;
    assert Asking(BATCH, s) && s.runner.c.next == 0;
    var t := SetAuth(s, HasRun("token", Completed, "ok"));
    assert Count(t, 0, true) == Stage(6);
  }

  lemma ReceiptWritten()
    ensures Finish(Rec(Claimed, "token", ""), WHO, "token", Completed, "ok") == (Rec(Completed, "token", "ok"), Ok(()))
  {
    assert |"token"| == 5;
    assert Rec(Claimed, "token", "")[WHO := Record(ACTION, Completed, 600, "token", "ok")] == Rec(Completed, "token", "ok");
  }

  lemma ReceiptStep(b: Batch, s: Sys, book: Book)
    requires Asking(b, s) && s.runner.auth.HasRun? && s.runner.auth.outcome == Completed
    requires Finish(s.book, b.Who(s.runner.c.next), s.runner.auth.token, Completed, s.runner.auth.text) == (book, Ok(()))
    ensures Open(s.(book := book), s.runner.c.next)
    ensures Apply(b, s, FinishClaimed(false, Good)) == Answer(s.(book := book), s.runner.c.next, Text(s.runner.auth.text))
  {
    hide ApplyGroup, ApplyCommit, ApplyResume, ApplyWorld, GroupEnd, Finish,
         Find, CreateOrReuse, DecideHere, TryClaim, Abort, RunHandler;
  }

  lemma FinishStage()
    ensures Apply(BATCH, Stage(6), FinishClaimed(false, Good)) == Stage(7)
  {
    hide Apply, Finish, GroupEnd;
    var s, receipt := Stage(6), Rec(Completed, "token", "ok");
    assert BATCH.Who(0) == WHO && Asking(BATCH, s) && s.runner.c.next == 0;
    ReceiptWritten();
    ReceiptStep(BATCH, s, receipt);
    assert s.runner.results[0 := Some(Text("ok"))] == [Some(Text("ok"))];
  }

  lemma BeginStage()
    ensures Apply(BATCH, Stage(0), BeginGroup(Good)) == Stage(1)
  {
    hide ApplyGroup, ApplyAuth, ApplyResume, ApplyWorld;
    assert GroupEnd(BATCH.calls, 0) == 1;
    var none: Option<Outcome> := None;
    assert seq(1, i => none) == [none];
    assert Stage(0).ran == [0];
  }

  lemma CollectStage()
    ensures Apply(BATCH, Stage(7), Collect(Good)) == Stage(8)
  {
    hide ApplyGroup, ApplyAuth, ApplyResume, ApplyWorld, GroupEnd;
    var results := [Some(Text("ok"))];
    assert results[1..] == [] && LeadingTexts(results) == ["ok"];
    assert BATCH.calls[0..] == BATCH.calls && Accepted(BATCH, 0, ["ok"]) == [RESULT];
  }

  /** A journal write that does not reach the file ends the turn and changes nothing else. */
  lemma LostJournal(b: Batch, s: Sys)
    requires s.runner.Collected? && s.runner.c.Active? && 0 <= s.runner.end - s.runner.c.next <= |s.memory|
    ensures Apply(b, s, JournalResults(Lost)) == s.(runner := Off)
  {
    hide ApplyGroup, ApplyAuth, ApplyResume, ApplyWorld, GroupEnd, LeadingTexts, Accepted, Stamped, Advanced;
  }

  lemma LostStage()
    ensures Apply(BATCH, Stage(8), JournalResults(Lost)) == Stage(9)
  {
    hide Apply;
    LostJournal(BATCH, Stage(8));
  }

  lemma StageZero()
    ensures Stage(0) == Start(BATCH, map[], [])
  {}

  lemma NoResumeIsClean(s: Sys, e: Event)
    requires !e.ResumeLoad?
    ensures Clean(s, e)
  {}

  lemma {:induction false} FailingRunReaches(k: nat)
    requires k <= 9
    ensures After(BATCH, Start(BATCH, map[], []), FAILING_RUN[..k]) == Stage(k)
    ensures CleanRun(BATCH, Start(BATCH, map[], []), FAILING_RUN[..k])
  {
    hide Apply, Stage, Clean;
    if k == 0 {
      assert Stage(0) == Start(BATCH, map[], []) by { StageZero(); }
    } else {
      FailingRunReaches(k - 1);
      NoResumeIsClean(Stage(k - 1), FAILING_RUN[k - 1]);
      assert FAILING_RUN[..k][..k - 1] == FAILING_RUN[..k - 1];
      match k
      case 1 => BeginStage();
      case 2 => FindStage();
      case 3 => CreateStage();
      case 4 => DecideStage();
      case 5 => ClaimStage();
      case 6 => RunStage();
      case 7 => FinishStage();
      case 8 => CollectStage();
      case _ => LostStage();
    }
  }

  lemma ReplayIsAllowed(s: Sys)
    requires s == Stage(9).(runner := Checked(EXECUTING))
    ensures Apply(BATCH, s, ResumeDecide(0, true, 0, Good)).runner.Ready?
  {
    hide ApplyGroup, ApplyAuth, ApplyCommit, ApplyWorld;
    assert BATCH.Who(0) == WHO;
  }

  /**
    Exactness is false for a resumption inside the process that failed: the handler ran once, nothing has
    been passed, and yet the resumed turn enters its loop with the result already in the ledger.
   */
  lemma StaleMemoryIsSaved()
    ensures var s := After(BATCH, Start(BATCH, map[], []), FAILING_RUN);
            var s' := ResumeThrough(BATCH, s, 0, true, 0);
            && BATCH.Valid() && CleanRun(BATCH, Start(BATCH, map[], []), FAILING_RUN)
            && s'.runner.AtTop? && s'.runner.c.Active? && s'.runner.c.next == 0 && s'.ran == [1]
            && s'.ledger == [RESULT] && !Exact(BATCH, [], s'.ledger, 0)
  {
    hide Apply;
    FailingRunReaches(9);
    assert FAILING_RUN[..9] == FAILING_RUN;
    var s := Stage(9);
    LoadIsTaken(s);
    LoadStep(BATCH, s);
    CheckStep(BATCH, s.(runner := Resuming(EXECUTING)));
    var checked := s.(runner := Checked(EXECUTING));
    ReplayIsAllowed(checked);
    DecideStep(BATCH, checked, 0, true, 0);
    SaveAndEnterSteps(BATCH, Apply(BATCH, checked, ResumeDecide(0, true, 0, Good)));
  }

  lemma LoadIsTaken(s: Sys)
    requires s == Stage(9)
    ensures Apply(BATCH, s, ResumeLoad).runner.Resuming?
  {
    hide ApplyGroup, ApplyAuth, ApplyCommit, ApplyWorld;
  }
}
