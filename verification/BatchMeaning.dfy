/**
  What the records of a batch's risky calls mean, over every run with crashes, failing writes and resumptions: who
  consented before a handler ran, and what the handler reported.
 */
module BatchMeaning {
  import opened Common
  import opened Approvals
  import opened ToolBatch
  import opened BatchRuns

  /** The turn or a resumption puts the user's yes to call `i` on record, while it is pending and in time. */
  ghost predicate ConsentsTo(b: Batch, s: Sys, e: Event, i: nat)
    requires i < |b.calls|
  {
    && b.Who(i) in s.book && s.book[b.Who(i)].status == Pending
    && ((e.DecideNow? && Asking(b, s) && s.runner.c.next == i && e.allow && e.now < s.book[b.Who(i)].expires)
        || (e.ResumeDecide? && s.runner.Checked? && e.i == i && e.allow && e.now < s.book[b.Who(i)].expires))
  }

  /** The turn that holds the claim of call `i` gets this outcome and text from the handler, or from not reaching it. */
  predicate HandlerReports(b: Batch, s: Sys, e: Event, i: nat, outcome: Status, text: string) {
    && e.RunClaimed? && Asking(b, s) && s.runner.c.next == i && s.runner.auth.HasClaim?
    && text == e.text && outcome == if e.invoked && !e.ok then Unknown else Completed
  }

  /** A turn has run the handler of call `i` and is about to write the receipt. */
  predicate HoldsReceipt(s: Sys, i: nat, outcome: Status, text: string) {
    && s.runner.InGroup? && s.runner.c.Active? && s.runner.c.next == i
    && s.runner.auth.HasRun? && s.runner.auth.outcome == outcome && s.runner.auth.text == text
  }

  /** How one step may leave the record of call `i`. */
  ghost predicate Tells(b: Batch, s: Sys, e: Event, s': Sys, i: nat)
    requires i < |b.calls|
  {
    var who := b.Who(i);
    if who !in s.book then who in s'.book ==> s'.book[who].status == Pending
    else
      && who in s'.book
      && var o, r := s.book[who], s'.book[who];
         && (r.status == Approved && r != o ==> ConsentsTo(b, s, e, i))
         && (WasClaimed(r.status) ==> WasClaimed(o.status) || o.status == Approved)
         && (IsOutcome(r.status) && r != o ==> HoldsReceipt(s, i, r.status, r.receipt))
  }

  lemma SameBookTells(b: Batch, s: Sys, e: Event, s': Sys, i: nat)
    requires i < |b.calls| && s'.book == s.book
    ensures Tells(b, s, e, s', i)
  {}

  lemma SameCall(b: Batch, i: nat, k: nat)
    requires b.Valid() && i < |b.calls| && k < |b.calls| && b.Who(i) == b.Who(k)
    ensures i == k
  {}

  lemma CreateTells(b: Batch, s: Sys, e: Event, i: nat)
    requires i < |b.calls| && (e.FindApproval? || e.CreateApproval?)
    ensures Tells(b, s, e, ApplyAuth(b, s, e), i)
  {
    hide Create, DecideHere, TryClaim, Abort, RunHandler, WriteReceipt, WasClaimed, IsOutcome;
    if Asking(b, s) && e.CreateApproval? {
      CreateExplains(s.book, e.action, e.ttl, e.now, b.Who(i));
    }
  }

  lemma AskingTells(b: Batch, s: Sys, e: Event, i: nat)
    requires b.Valid() && i < |b.calls| && (e.FindApproval? || e.CreateApproval? || e.DecideNow?)
    ensures Tells(b, s, e, ApplyAuth(b, s, e), i)
  {
    hide Decide, Find, CreateOrReuse, TryClaim, Abort, RunHandler, WriteReceipt, WasClaimed, IsOutcome;
    if !e.DecideNow? {
      CreateTells(b, s, e, i);
    } else if Asking(b, s) {
      var asked := b.Who(s.runner.c.next);
      if asked == b.Who(i) {
        SameCall(b, i, s.runner.c.next);
      }
      DecideExplains(s.book, asked, b.principal, e.allow, e.now, b.Who(i));
    }
  }

  lemma ClaimTells(b: Batch, s: Sys, e: Event, i: nat)
    requires b.Valid() && i < |b.calls| && e.ClaimApproval?
    ensures Tells(b, s, e, ApplyAuth(b, s, e), i)
  {
    hide Claim, Find, CreateOrReuse, DecideHere, Abort, RunHandler, WriteReceipt, WasClaimed, IsOutcome;
    if Asking(b, s) {
      var asked := b.Who(s.runner.c.next);
      ClaimExplains(s.book, asked, b.principal, e.action, e.now, e.token, b.Who(i));
    }
  }

  lemma ClaimingTells(b: Batch, s: Sys, e: Event, i: nat)
    requires b.Valid() && i < |b.calls| && (e.ClaimApproval? || e.AbortClaimed? || e.RunClaimed? || e.FinishClaimed?)
    ensures Tells(b, s, e, ApplyAuth(b, s, e), i)
  {
    hide Claim, Finish, Find, CreateOrReuse, DecideHere, TryClaim, WasClaimed, IsOutcome;
    if e.ClaimApproval? {
      ClaimTells(b, s, e, i);
    } else if Asking(b, s) {
      var who, asked := b.Who(i), b.Who(s.runner.c.next);
      if asked == who {
        SameCall(b, i, s.runner.c.next);
      }
      if e.FinishClaimed? && s.runner.auth.HasRun? && IsOutcome(s.runner.auth.outcome) {
        FinishExplains(s.book, asked, s.runner.auth.token, s.runner.auth.outcome, s.runner.auth.text, who);
      }
    }
  }

  /** Of a resumption's steps only its decision touches the book. */
  lemma ResumeOnlyDecides(b: Batch, s: Sys, e: Event)
    ensures var book := ApplyResume(b, s, e).book;
            || book == s.book
            || (e.ResumeDecide? && s.runner.Checked? && e.i < |b.calls|
                && book == Decide(s.book, b.Who(e.i), b.principal, e.allow, e.now).0)
  {
    hide Decide, RecoveredLedger, DecisionStands, Stamped, Advanced;
  }

  lemma ResumeTells(b: Batch, s: Sys, e: Event, i: nat)
    requires b.Valid() && i < |b.calls|
    ensures Tells(b, s, e, ApplyResume(b, s, e), i)
  {
    hide ApplyResume, Decide, WasClaimed, IsOutcome;
    ResumeOnlyDecides(b, s, e);
    if e.ResumeDecide? && e.i < |b.calls| {
      if b.Who(e.i) == b.Who(i) {
        SameCall(b, i, e.i);
      }
      DecideExplains(s.book, b.Who(e.i), b.principal, e.allow, e.now, b.Who(i));
    }
  }

  lemma WorldTells(b: Batch, s: Sys, e: Event, i: nat)
    requires i < |b.calls|
    ensures Tells(b, s, e, ApplyWorld(b, s, e), i)
  {
    hide WasClaimed, IsOutcome;
  }

  lemma StepTells(b: Batch, s: Sys, e: Event, i: nat)
    requires b.Valid() && i < |b.calls|
    ensures Tells(b, s, e, Apply(b, s, e), i)
  {
    hide ApplyAuth, ApplyGroup, ApplyCommit, ApplyResume, ApplyWorld, Tells;
    if e.FindApproval? || e.CreateApproval? || e.DecideNow? {
      AskingTells(b, s, e, i);
    } else if AuthEvent(e) {
      ClaimingTells(b, s, e, i);
    } else if GroupEvent(e) {
      GroupKeepsBook(b, s, e);
      SameBookTells(b, s, e, Apply(b, s, e), i);
    } else if CommitEvent(e) {
      CommitKeepsBook(b, s, e);
      SameBookTells(b, s, e, Apply(b, s, e), i);
    } else if ResumeEvent(e) {
      ResumeTells(b, s, e, i);
    } else {
      WorldTells(b, s, e, i);
    }
  }

  // ---------------------------------------------------------------------------
  // What a turn holds as a receipt
  // ---------------------------------------------------------------------------

  lemma AuthHoldsReceipt(b: Batch, s: Sys, e: Event, i: nat, outcome: Status, text: string)
    requires HoldsReceipt(ApplyAuth(b, s, e), i, outcome, text)
    ensures HoldsReceipt(s, i, outcome, text) || HandlerReports(b, s, e, i, outcome, text)
  {
    hide Create, Decide, Claim, Finish;
  }

  lemma OthersHoldNoReceipt(b: Batch, s: Sys, e: Event, i: nat, outcome: Status, text: string)
    requires !AuthEvent(e) && HoldsReceipt(Apply(b, s, e), i, outcome, text)
    ensures HoldsReceipt(s, i, outcome, text)
  {
    hide Decide, RecoveredLedger, DecisionStands, ResumeAllows, GroupEnd, LeadingTexts, Accepted, Stamped, Advanced;
  }

  lemma StepHoldsReceipt(b: Batch, s: Sys, e: Event, i: nat, outcome: Status, text: string)
    requires HoldsReceipt(Apply(b, s, e), i, outcome, text)
    ensures HoldsReceipt(s, i, outcome, text) || HandlerReports(b, s, e, i, outcome, text)
  {
    hide ApplyAuth, ApplyGroup, ApplyCommit, ApplyResume, ApplyWorld, HoldsReceipt, HandlerReports;
    if AuthEvent(e) {
      AuthHoldsReceipt(b, s, e, i, outcome, text);
    } else {
      OthersHoldNoReceipt(b, s, e, i, outcome, text);
    }
  }

  // ---------------------------------------------------------------------------
  // Every run
  // ---------------------------------------------------------------------------

  /** Event `k` of the run put the yes on record. */
  ghost predicate Consented(b: Batch, z: Sys, es: seq<Event>, i: nat, k: nat)
    requires i < |b.calls|
  {
    k < |es| && ConsentsTo(b, After(b, z, es[..k]), es[k], i)
  }

  /** Event `k` of the run is the handler's report. */
  ghost predicate Reported(b: Batch, z: Sys, es: seq<Event>, i: nat, outcome: Status, text: string, k: nat) {
    k < |es| && HandlerReports(b, After(b, z, es[..k]), es[k], i, outcome, text)
  }

  lemma Earlier(b: Batch, z: Sys, es: seq<Event>, e: Event, i: nat, outcome: Status, text: string, k: nat)
    requires i < |b.calls|
    ensures Consented(b, z, es, i, k) ==> Consented(b, z, es + [e], i, k)
    ensures Reported(b, z, es, i, outcome, text, k) ==> Reported(b, z, es + [e], i, outcome, text, k)
    ensures (es + [e])[..|es|] == es
  {
    if k < |es| {
      assert (es + [e])[..k] == es[..k];
    }
  }

  /** Neither approved nor settled: how a book may know a call before its batch begins. */
  ghost predicate Unsettled(b: Batch, book: Book, i: nat)
    requires i < |b.calls|
  {
    b.Who(i) in book ==> var st := book[b.Who(i)].status; st != Approved && !WasClaimed(st)
  }

  ghost predicate Accounted(b: Batch, z: Sys, es: seq<Event>, i: nat)
    requires i < |b.calls|
  {
    var s := After(b, z, es);
    b.Who(i) in s.book ==>
      var r := s.book[b.Who(i)];
      && (r.status == Approved || WasClaimed(r.status) ==> exists k: nat :: Consented(b, z, es, i, k))
      && (IsOutcome(r.status) ==> exists k: nat :: Reported(b, z, es, i, r.status, r.receipt, k))
  }

  lemma {:induction false} HeldReceiptIsReported(b: Batch, z: Sys, es: seq<Event>, i: nat, outcome: Status,
      text: string)
    requires !z.runner.InGroup? && HoldsReceipt(After(b, z, es), i, outcome, text)
    ensures exists k: nat :: Reported(b, z, es, i, outcome, text, k)
  {
    hide Apply, HandlerReports, HoldsReceipt;
    if es == [] {
      NoReceiptOutside(z, i, outcome, text);
    } else {
      var n := |es| - 1;
      var s := After(b, z, es[..n]);
      StepHoldsReceipt(b, s, es[n], i, outcome, text);
      if HandlerReports(b, s, es[n], i, outcome, text) {
        assert Reported(b, z, es, i, outcome, text, n);
      } else {
        HeldReceiptIsReported(b, z, es[..n], i, outcome, text);
        var k: nat :| Reported(b, z, es[..n], i, outcome, text, k);
        assert es[..n][..k] == es[..k];
        assert Reported(b, z, es, i, outcome, text, k);
      }
    }
  }

  lemma NoReceiptOutside(s: Sys, i: nat, outcome: Status, text: string)
    requires !s.runner.InGroup?
    ensures !HoldsReceipt(s, i, outcome, text)
  {}

  lemma {:induction false} RecordsAreAccounted(b: Batch, z: Sys, es: seq<Event>, i: nat)
    requires b.Valid() && i < |b.calls| && Unsettled(b, z.book, i) && !z.runner.InGroup?
    ensures Accounted(b, z, es, i)
  {
    if es == [] {
      assert After(b, z, es) == z;
    } else {
      var n := |es| - 1;
      var before, e := es[..n], es[n];
      assert es == before + [e];
      var s := After(b, z, before);
      RecordsAreAccounted(b, z, before, i);
      StepTells(b, s, e, i);
      hide Apply, ConsentsTo, HandlerReports, HoldsReceipt, Unsettled;
      var who := b.Who(i);
      var s' := After(b, z, es);
      assert s' == Apply(b, s, e);
      if who in s'.book && who in s.book {
        var o, r := s.book[who], s'.book[who];
        if o.status == Approved || WasClaimed(o.status) {
          var k: nat :| Consented(b, z, before, i, k);
          Earlier(b, z, before, e, i, r.status, r.receipt, k);
          assert Consented(b, z, es, i, k);
        } else if r.status == Approved {
          assert Consented(b, z, es, i, n);
        }
        if IsOutcome(r.status) {
          if r == o {
            var k: nat :| Reported(b, z, before, i, r.status, r.receipt, k);
            Earlier(b, z, before, e, i, r.status, r.receipt, k);
            assert Reported(b, z, es, i, r.status, r.receipt, k);
          } else {
            HeldReceiptIsReported(b, z, before, i, r.status, r.receipt);
            var k: nat :| Reported(b, z, before, i, r.status, r.receipt, k);
            Earlier(b, z, before, e, i, r.status, r.receipt, k);
            assert Reported(b, z, es, i, r.status, r.receipt, k);
          }
        }
      }
    }
  }

  /**
    No handler without consent: over every run, if the handler of a risky call was invoked, somebody had said yes to
    that very call while it was pending and had not expired.
   */
  lemma RiskyCallsRunOnlyWithConsent(b: Batch, book: Book, base: Ledger, es: seq<Event>, i: nat)
    requires b.Valid() && i < |b.calls| && b.calls[i].kind == Risky && Unsettled(b, book, i)
    ensures var s := After(b, Start(b, book, base), es);
            |s.ran| == |b.calls| && (s.ran[i] > 0 ==> exists k: nat :: Consented(b, Start(b, book, base), es, i, k))
  {
    Reachable(b, book, base, es, i);
    RecordsAreAccounted(b, Start(b, book, base), es, i);
    hide After, ConsentsTo;
  }

  /** A call that was denied never runs: at no later point of the run was its handler invoked. */
  lemma {:induction false} DeniedCallNeverRuns(b: Batch, book: Book, base: Ledger, es: seq<Event>, more: seq<Event>,
                                               i: nat)
    requires b.Valid() && i < |b.calls| && b.calls[i].kind == Risky
    requires var s := After(b, Start(b, book, base), es);
             b.Who(i) in s.book && s.book[b.Who(i)].status == Denied
    ensures var s := After(b, Start(b, book, base), es + more); |s.ran| == |b.calls| && s.ran[i] == 0
  {
    var z := Start(b, book, base);
    Splits(b, z, es, more);
    FinalForGood(b, After(b, z, es), more, i);
    Reachable(b, book, base, es + more, i);
    hide After;
  }

  lemma {:induction false} Splits(b: Batch, z: Sys, es: seq<Event>, more: seq<Event>)
    ensures After(b, z, es + more) == After(b, After(b, z, es), more)
    decreases |more|
  {
    hide Apply;
    if more == [] {
      assert es + more == es;
    } else {
      var less := more[..|more| - 1];
      assert (es + more)[..|es + more| - 1] == es + less;
      Splits(b, z, es, less);
    }
  }

  /** A receipt says what the handler reported: its outcome and its text, by the turn that held the claim. */
  lemma ReceiptsAreReported(b: Batch, book: Book, base: Ledger, es: seq<Event>, i: nat)
    requires b.Valid() && i < |b.calls| && Unsettled(b, book, i)
    requires var s := After(b, Start(b, book, base), es); b.Who(i) in s.book && IsOutcome(s.book[b.Who(i)].status)
    ensures var r := After(b, Start(b, book, base), es).book[b.Who(i)];
            exists k: nat :: Reported(b, Start(b, book, base), es, i, r.status, r.receipt, k)
  {
    RecordsAreAccounted(b, Start(b, book, base), es, i);
    hide After, HandlerReports;
  }

  // ---------------------------------------------------------------------------
  // What a turn knows of the record while it holds an authorization
  // ---------------------------------------------------------------------------

  /** The record behind the authorization of the current call: approved before the claim, held until the receipt. */
  ghost predicate AuthIsBacked(b: Batch, s: Sys) {
    s.runner.InGroup? && s.runner.c.Active? && s.runner.c.next < |b.calls| ==>
      var who, a := b.Who(s.runner.c.next), s.runner.auth;
      && (a == MustClaim ==> who in s.book && s.book[who].status == Approved)
      && (a.HasClaim? ==> who in s.book && s.book[who].status == Claimed && s.book[who].token == a.token != "")
      && (a.HasRun? ==> who in s.book && s.book[who].status == Claimed && s.book[who].token == a.token != ""
                        && (a.outcome == Completed || a.outcome == Unknown))
  }

  /** A resumption on its way back into the turn: its call was decided, or settled with a known outcome. */
  ghost predicate ResumeIsDecided(b: Batch, s: Sys) {
    (s.runner.Ready? || s.runner.Entering?) && s.runner.c.Active? ==>
      && s.runner.c.pending.Some?
      && var who := s.runner.c.pending.value;
         && (exists i :: 0 <= i < |b.calls| && b.Who(i) == who)
         && who in s.book && Decided(s.book[who].status)
  }

  predicate Decided(st: Status) { st.Approved? || st.Denied? || st.Expired? || st.Completed? || st.Failed? }

  lemma DecideDecides(book: Book, id: Identity, principal: string, allow: bool, now: int)
    ensures var (k, r) := Decide(book, id, principal, allow, now);
            && (r.Ok? ==> id in k && k[id].status == if allow then Approved else Denied)
            && (r.Err? && r.error == IsExpired ==> id in k && k[id].status == Expired)
  {}

  lemma FindBacks(b: Batch, s: Sys, e: Event)
    requires e.FindApproval?
    ensures AuthIsBacked(b, ApplyAuth(b, s, e)) || ApplyAuth(b, s, e) == s
  {
    hide CreateOrReuse, DecideHere, TryClaim, Abort, RunHandler, WriteReceipt;
  }

  lemma CreateBacks(b: Batch, s: Sys, e: Event)
    requires e.CreateApproval?
    ensures AuthIsBacked(b, ApplyAuth(b, s, e)) || ApplyAuth(b, s, e) == s
  {
    hide Find, DecideHere, TryClaim, Abort, RunHandler, WriteReceipt, Complete;
  }

  lemma DecideBacks(b: Batch, s: Sys, e: Event)
    requires e.DecideNow?
    ensures AuthIsBacked(b, ApplyAuth(b, s, e)) || ApplyAuth(b, s, e) == s
  {
    hide Find, CreateOrReuse, TryClaim, Abort, RunHandler, WriteReceipt;
  }

  lemma ClaimBacks(b: Batch, s: Sys, e: Event)
    requires e.ClaimApproval?
    ensures AuthIsBacked(b, ApplyAuth(b, s, e)) || ApplyAuth(b, s, e) == s
  {
    hide Find, CreateOrReuse, DecideHere, Abort, RunHandler, WriteReceipt;
  }

  lemma RunBacks(b: Batch, s: Sys, e: Event)
    requires AuthIsBacked(b, s) && (e.AbortClaimed? || e.RunClaimed? || e.FinishClaimed?)
    ensures AuthIsBacked(b, ApplyAuth(b, s, e))
  {
    hide Find, CreateOrReuse, DecideHere, TryClaim, Finish;
  }

  lemma AuthStaysBacked(b: Batch, s: Sys, e: Event)
    requires AuthIsBacked(b, s)
    ensures AuthIsBacked(b, ApplyAuth(b, s, e))
  {
    hide Find, CreateOrReuse, DecideHere, TryClaim, Abort, RunHandler, WriteReceipt, AuthIsBacked;
    match e
    case FindApproval(_, _) => FindBacks(b, s, e);
    case CreateApproval(_, _, _, _, _, _) => CreateBacks(b, s, e);
    case DecideNow(_, _, _, _) => DecideBacks(b, s, e);
    case ClaimApproval(_, _, _, _, _) => ClaimBacks(b, s, e);
    case AbortClaimed(_) => RunBacks(b, s, e);
    case RunClaimed(_, _, _) => RunBacks(b, s, e);
    case FinishClaimed(_, _) => RunBacks(b, s, e);
    case _ =>
  }

  lemma OthersStayBacked(b: Batch, s: Sys, e: Event)
    requires AuthIsBacked(b, s) && !AuthEvent(e)
    ensures AuthIsBacked(b, Apply(b, s, e))
  {
    hide ApplyAuth, ApplyGroup, ApplyCommit, ApplyResume, AuthIsBacked;
    if GroupEvent(e) {
      CallsStayBacked(b, s, e);
    } else if CommitEvent(e) {
      CommitIsBacked(b, s, e);
    } else if ResumeEvent(e) {
      ResumeIsBacked(b, s, e);
    } else {
      WorldStaysBacked(b, s, e);
    }
  }

  lemma CallsStayBacked(b: Batch, s: Sys, e: Event)
    requires AuthIsBacked(b, s)
    ensures AuthIsBacked(b, ApplyGroup(b, s, e))
  {}

  lemma CommitIsBacked(b: Batch, s: Sys, e: Event)
    requires AuthIsBacked(b, s)
    ensures AuthIsBacked(b, ApplyCommit(b, s, e))
  {
    hide GroupEnd, LeadingTexts, Accepted, Stamped, Advanced;
  }

  lemma ResumeIsBacked(b: Batch, s: Sys, e: Event)
    requires AuthIsBacked(b, s)
    ensures AuthIsBacked(b, ApplyResume(b, s, e))
  {
    hide Decide, RecoveredLedger, DecisionStands, ResumeAllows, Stamped, Advanced;
  }

  lemma WorldStaysBacked(b: Batch, s: Sys, e: Event)
    requires AuthIsBacked(b, s)
    ensures AuthIsBacked(b, ApplyWorld(b, s, e))
  {}

  lemma ResumeStaysDecided(b: Batch, s: Sys, e: Event)
    requires ResumeIsDecided(b, s)
    ensures ResumeIsDecided(b, ApplyResume(b, s, e))
  {
    hide Decide, RecoveredLedger, Stamped, Advanced;
    if e.ResumeDecide? && e.i < |b.calls| {
      DecideDecides(s.book, b.Who(e.i), b.principal, e.allow, e.now);
    }
  }

  lemma OthersStayDecided(b: Batch, s: Sys, e: Event)
    requires ResumeIsDecided(b, s) && !ResumeEvent(e)
    ensures ResumeIsDecided(b, Apply(b, s, e))
  {
    hide Decided, ApplyAuth, ApplyGroup, ApplyCommit, ApplyResume;
    if AuthEvent(e) {
      AuthHasShape(b, s, e);
    } else if GroupEvent(e) {
      CallsStayInGroup(b, s, e);
    } else if CommitEvent(e) {
      CommitIsNoResumption(b, s, e);
    }
  }

  lemma CallsStayInGroup(b: Batch, s: Sys, e: Event)
    ensures var s' := ApplyGroup(b, s, e); s' == s || s'.runner.InGroup?
  {}

  lemma CommitIsNoResumption(b: Batch, s: Sys, e: Event)
    ensures var s' := ApplyCommit(b, s, e); s' == s || (!s'.runner.Ready? && !s'.runner.Entering?)
  {
    hide GroupEnd, LeadingTexts, Accepted, Stamped, Advanced;
  }

  lemma {:induction false} AlwaysBacked(b: Batch, book: Book, base: Ledger, es: seq<Event>)
    ensures AuthIsBacked(b, After(b, Start(b, book, base), es))
              && ResumeIsDecided(b, After(b, Start(b, book, base), es))
  {
    if es != [] {
      var s, e := After(b, Start(b, book, base), es[..|es| - 1]), es[|es| - 1];
      AlwaysBacked(b, book, base, es[..|es| - 1]);
      hide ApplyAuth, ApplyGroup, ApplyCommit, ApplyResume, ApplyWorld, AuthIsBacked, ResumeIsDecided;
      if AuthEvent(e) {
        AuthStaysBacked(b, s, e);
      } else {
        OthersStayBacked(b, s, e);
      }
      if ResumeEvent(e) {
        ResumeStaysDecided(b, s, e);
      } else {
        OthersStayDecided(b, s, e);
      }
    }
  }

  /**
    A receipt is never refused: at every point of every run at which the handler has run, the record is still claimed
    under the turn's own token, so that a durable write settles it with the outcome and the text of the handler. The
    call then answers with that text, but not with an unknown outcome of a turn that nobody attends.
   */
  lemma ReceiptIsWritten(b: Batch, book: Book, base: Ledger, es: seq<Event>, async: bool)
    requires var s := After(b, Start(b, book, base), es); Asking(b, s) && s.runner.auth.HasRun?
    ensures var s := After(b, Start(b, book, base), es);
            var s', who := After(b, Start(b, book, base), es + [FinishClaimed(async, Good)]), b.Who(s.runner.c.next);
            && who in s'.book && s'.book[who].status == s.runner.auth.outcome
            && s'.book[who].receipt == s.runner.auth.text
            && s'.runner.InGroup? && |s'.runner.results| > 0
            && s'.runner.results[0] == Some(if s.runner.auth.outcome == Unknown && async then OutcomeUnknown
                                            else Text(s.runner.auth.text))
  {
    hide AuthIsBacked, Apply, Asking;
    assert (es + [FinishClaimed(async, Good)])[..|es|] == es;
    AlwaysBacked(b, book, base, es);
    FinishWrites(b, After(b, Start(b, book, base), es), async);
  }

  lemma FinishWrites(b: Batch, s: Sys, async: bool)
    requires AuthIsBacked(b, s) && Asking(b, s) && s.runner.auth.HasRun?
    ensures var s', who := Apply(b, s, FinishClaimed(async, Good)), b.Who(s.runner.c.next);
            && who in s'.book && s'.book[who].status == s.runner.auth.outcome
            && s'.book[who].receipt == s.runner.auth.text
            && s'.runner.InGroup? && |s'.runner.results| > 0
            && s'.runner.results[0] == Some(if s.runner.auth.outcome == Unknown && async then OutcomeUnknown
                                            else Text(s.runner.auth.text))
  {
    hide Find, CreateOrReuse, DecideHere, TryClaim, Abort, RunHandler, ApplyGroup, ApplyCommit, ApplyResume, ApplyWorld;
  }

  /** The current call asks for authorization and has not got far, and its very action is approved and in time. */
  ghost predicate MayRun(b: Batch, s: Sys, a: Action, now: int) {
    && Asking(b, s) && a.who == b.Who(s.runner.c.next) && Complete(a)
    && a.who in s.book && s.book[a.who].action == a && s.book[a.who].status == Approved && now < s.book[a.who].expires
  }

  lemma ApprovedIsFound(b: Batch, s: Sys, a: Action, now: int, text: string)
    requires MayRun(b, s, a, now) && s.runner.auth == NotAsked
    ensures Apply(b, s, FindApproval(false, text)) == SetAuth(s, MustCreate)
  {
    hide Complete, ApplyGroup, ApplyCommit, ApplyResume, ApplyWorld;
  }

  lemma ApprovedIsReused(b: Batch, s: Sys, a: Action, ttl: int, now: int, text: string)
    requires MayRun(b, s, a, now) && s.runner.auth == MustCreate
    ensures Apply(b, s, CreateApproval(a, ttl, now, true, Good, text)) == SetAuth(s, MustClaim)
  {
    hide Complete, ApplyGroup, ApplyCommit, ApplyResume, ApplyWorld;
  }

  lemma ApprovedIsClaimed(b: Batch, s: Sys, a: Action, now: int, token: string, text: string)
    requires MayRun(b, s, a, now) && s.runner.auth == MustClaim && token != ""
    ensures Apply(b, s, ClaimApproval(a, now, token, Good, text)) ==
            SetAuth(s, HasClaim(token)).(book := s.book[a.who := s.book[a.who].(status := Claimed, token := token)])
  {
    hide Complete, ApplyGroup, ApplyCommit, ApplyResume, ApplyWorld;
  }

  lemma ClaimedIsRun(b: Batch, s: Sys, ok: bool, text: string)
    requires Asking(b, s) && s.runner.auth.HasClaim?
    ensures var s' := Apply(b, s, RunClaimed(true, ok, text));
            s' == SetAuth(s, HasRun(s.runner.auth.token, if ok then Completed else Unknown, text)).(ran := s'.ran)
            && s'.ran == if s.runner.c.next < |s.ran| then s.ran[s.runner.c.next := s.ran[s.runner.c.next] + 1] else s.ran
  {
    hide ApplyGroup, ApplyCommit, ApplyResume, ApplyWorld;
  }

  /**
    An approved call runs, attended or not: as long as no write fails and its approval has not expired, the turn that
    comes to it finds, claims and runs it once, and its record and its result are what the handler reported.
   */
  lemma ApprovedCallIsRun(b: Batch, s: Sys, a: Action, ttl: int, now: int, token: string, ok: bool, out: string)
    requires MayRun(b, s, a, now) && s.runner.auth == NotAsked && token != "" && |s.ran| == |b.calls|
    ensures var i, s' := s.runner.c.next,
              After(b, s, [FindApproval(false, ""), CreateApproval(a, ttl, now, true, Good, ""),
                           ClaimApproval(a, now, token, Good, ""), RunClaimed(true, ok, out),
                           FinishClaimed(true, Good)]);
            && s'.ran == s.ran[i := s.ran[i] + 1]
            && a.who in s'.book && s'.book[a.who].status == (if ok then Completed else Unknown)
            && s'.book[a.who].receipt == out
            && s'.runner.InGroup? && |s'.runner.results| > 0
            && s'.runner.results[0] == Some(if ok then Text(out) else OutcomeUnknown)
  {
    hide Apply, Complete, AuthIsBacked;
    var e1, e2 := FindApproval(false, ""), CreateApproval(a, ttl, now, true, Good, "");
    var e3, e4, e5 := ClaimApproval(a, now, token, Good, ""), RunClaimed(true, ok, out), FinishClaimed(true, Good);
    FiveSteps(b, s, e1, e2, e3, e4, e5);
    ApprovedIsFound(b, s, a, now, "");
    var s1 := SetAuth(s, MustCreate);
    ApprovedIsReused(b, s1, a, ttl, now, "");
    var s2 := SetAuth(s1, MustClaim);
    ApprovedIsClaimed(b, s2, a, now, token, "");
    var s3 := Apply(b, s2, e3);
    ClaimedIsRun(b, s3, ok, out);
    var s4 := Apply(b, s3, e4);
    StandsClaimed(b, s4, token, if ok then Completed else Unknown, out);
    FinishWrites(b, s4, true);
    FinishRunsNothing(b, s4, true);
  }

  lemma FiveSteps(b: Batch, s: Sys, e1: Event, e2: Event, e3: Event, e4: Event, e5: Event)
    ensures After(b, s, [e1, e2, e3, e4, e5]) ==
            Apply(b, Apply(b, Apply(b, Apply(b, Apply(b, s, e1), e2), e3), e4), e5)
  {
    hide Apply, After;
    assert After(b, s, []) == s by { NoStep(b, s); }
    OneStep(b, s, [], e1);
    OneStep(b, s, [e1], e2);
    OneStep(b, s, [e1, e2], e3);
    OneStep(b, s, [e1, e2, e3], e4);
    OneStep(b, s, [e1, e2, e3, e4], e5);
    assert [] + [e1] == [e1] && [e1] + [e2] == [e1, e2] && [e1, e2] + [e3] == [e1, e2, e3];
    assert [e1, e2, e3] + [e4] == [e1, e2, e3, e4] && [e1, e2, e3, e4] + [e5] == [e1, e2, e3, e4, e5];
  }

  lemma NoStep(b: Batch, s: Sys)
    ensures After(b, s, []) == s
  {}

  lemma OneStep(b: Batch, s: Sys, es: seq<Event>, e: Event)
    ensures After(b, s, es + [e]) == Apply(b, After(b, s, es), e)
  {
    assert (es + [e])[..|es|] == es;
  }

  lemma StandsClaimed(b: Batch, s: Sys, token: string, o: Status, text: string)
    requires Asking(b, s) && s.runner.auth == HasRun(token, o, text) && token != "" && (o == Completed || o == Unknown)
    requires var who := b.Who(s.runner.c.next);
             who in s.book && s.book[who].status == Claimed && s.book[who].token == token
    ensures AuthIsBacked(b, s)
  {}

  lemma FinishRunsNothing(b: Batch, s: Sys, async: bool)
    ensures Apply(b, s, FinishClaimed(async, Good)).ran == s.ran
  {
    hide Finish;
  }

  /**
    A turn is resumed only once its call is decided, or settled with a known outcome: never with a claim in the air.
   */
  lemma ResumedCallIsDecided(b: Batch, book: Book, base: Ledger, es: seq<Event>)
    requires var s := After(b, Start(b, book, base), es); s.runner.Entering? && s.runner.c.Active?
    ensures var s := After(b, Start(b, book, base), es);
            && s.runner.c.pending.Some? && s.runner.c.pending.value in s.book
            && var st := s.book[s.runner.c.pending.value].status;
               st.Approved? || st.Denied? || st.Expired? || st.Completed? || st.Failed?
  {
    AlwaysBacked(b, book, base, es);
    hide After;
  }

  /** The texts that came back before the first call without one. */
  ghost predicate TextsUpTo(results: seq<Option<Outcome>>, texts: seq<string>) {
    && |texts| <= |results|
    && (forall k :: 0 <= k < |texts| ==> results[k] == Some(Text(texts[k])))
    && (|texts| < |results| ==> results[|texts|].Some? && !results[|texts|].value.Text?)
  }

  /**
    What becomes of a group once every call has come back: the results up to the first call without one join the
    memory. If there is none such the group goes on to be saved; if that call waits for its approval, the turn ends
    with the continuation naming it; and if its outcome is unknown, the turn ends with the group still marked.
   */
  ghost predicate Collects(b: Batch, s: Sys, s': Sys, texts: seq<string>) {
    && s.runner.InGroup? && s.runner.c.Active? && s.runner.c.next + |texts| <= |b.calls|
    && |texts| <= |s.runner.results|
    && var c, rs, n := s.runner.c, s.runner.results, |texts|;
       && |s'.memory| == |s.memory| + n && s.memory <= s'.memory
       && (forall k :: 0 <= k < n ==> s'.memory[|s.memory| + k] == Message(b.calls[c.next + k].id, texts[k]))
       && s'.ledger == s.ledger && s'.book == s.book && s'.ran == s.ran
       && if n == |rs| then s'.runner == Collected(c, s.runner.end) && s'.cont == s.cont
          else if rs[n].Some? && rs[n].value.NeedsApproval? then
            && s'.runner == Off
            && s'.cont == Active(c.next, false, Some(rs[n].value.id), s.ledger, |s.ledger|, [], c.bufferedNext)
          else s'.runner == Off && s'.cont == s.cont
  }

  lemma GroupIsCollected(b: Batch, book: Book, base: Ledger, es: seq<Event>, texts: seq<string>)
    requires var s := After(b, Start(b, book, base), es);
             s.runner.InGroup? && None !in s.runner.results && TextsUpTo(s.runner.results, texts)
    ensures Collects(b, After(b, Start(b, book, base), es), After(b, Start(b, book, base), es + [Collect(Good)]), texts)
  {
    hide LinkInv, Apply, TextsUpTo, Collects;
    assert (es + [Collect(Good)])[..|es|] == es;
    var s := After(b, Start(b, book, base), es);
    LinkReachable(b, book, base, es);
    GroupBounds(b, s);
    TextsAre(s.runner.results, texts);
    CollectIs(b, s, texts);
  }

  lemma CollectIs(b: Batch, s: Sys, texts: seq<string>)
    requires s.runner.InGroup? && s.runner.c.Active? && s.runner.c.buffered == [] && None !in s.runner.results
    requires s.runner.c.next + |s.runner.results| <= |b.calls| && texts == LeadingTexts(s.runner.results)
    ensures Collects(b, s, Apply(b, s, Collect(Good)), texts)
  {
    hide LeadingTexts, Accepted, Apply;
    CollectStep(b, s, texts);
    MemoryGrows(s.memory, Accepted(b, s.runner.c.next, texts));
  }

  lemma CollectStep(b: Batch, s: Sys, texts: seq<string>)
    requires s.runner.InGroup? && s.runner.c.Active? && None !in s.runner.results
    requires s.runner.c.next + |s.runner.results| <= |b.calls| && texts == LeadingTexts(s.runner.results)
    ensures var s', c, rs, n := Apply(b, s, Collect(Good)), s.runner.c, s.runner.results, |texts|;
            && s'.memory == s.memory + Accepted(b, c.next, texts)
            && s'.ledger == s.ledger && s'.book == s.book && s'.ran == s.ran
            && s'.runner == (if n == |rs| then Collected(c, s.runner.end) else Off)
            && s'.cont == if n < |rs| && rs[n].value.NeedsApproval?
                          then Stamped(c.(executing := false, pending := Some(rs[n].value.id)), s.ledger) else s.cont
  {
    hide LeadingTexts, Accepted, GroupEnd, Stamped, ApplyAuth, ApplyGroup, ApplyResume, ApplyWorld;
  }

  lemma MemoryGrows(memory: Ledger, ms: seq<Message>)
    ensures |memory + ms| == |memory| + |ms| && memory <= memory + ms
    ensures forall k :: 0 <= k < |ms| ==> (memory + ms)[|memory| + k] == ms[k]
  {}

  lemma {:induction false} LinkReachable(b: Batch, book: Book, base: Ledger, es: seq<Event>)
    ensures LinkInv(b, After(b, Start(b, book, base), es))
  {
    hide Apply, LinkInv;
    if es == [] {
      assert After(b, Start(b, book, base), es) == Start(b, book, base);
      StartIsLinked(b, book, base);
    } else {
      LinkReachable(b, book, base, es[..|es| - 1]);
      StepKeepsLink(b, After(b, Start(b, book, base), es[..|es| - 1]), es[|es| - 1]);
    }
  }

  lemma StartIsLinked(b: Batch, book: Book, base: Ledger)
    ensures LinkInv(b, Start(b, book, base))
  {}

  lemma GroupBounds(b: Batch, s: Sys)
    requires LinkInv(b, s) && s.runner.InGroup?
    ensures s.runner.c.Active? && s.runner.c.buffered == [] && s.runner.c.next + |s.runner.results| <= |b.calls|
  {
    hide ReadsFrom;
  }

  lemma {:induction false} TextsAre(results: seq<Option<Outcome>>, texts: seq<string>)
    requires TextsUpTo(results, texts)
    ensures LeadingTexts(results) == texts
  {
    if texts != [] {
      assert TextsUpTo(results[1..], texts[1..]);
      TextsAre(results[1..], texts[1..]);
      assert texts == [texts[0]] + texts[1..];
    }
  }
}
