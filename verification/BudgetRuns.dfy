/**
  All interleavings of concurrent budgeted calls, crashes, recovery and operator reconciliation over one
  durable ledger. A call owns its attempt's lease from before the reservation until it returns or its
  process dies. A durable update may take effect and still be reported to its caller as failed.
 */
module BudgetRuns {
  import opened Common
  import opened BudgetLedger

  /** Where a live `Budgeted.run` stands. */
  datatype Phase =
    | HasReservation   // reserved, `sending` not yet attempted
    | GivingUp         // will call `unsent` and return without invoking the provider
    | HasClaim         // `sending` was reported durable
    | Called           // the provider has been invoked
    | Finished         // only the lease is left to release

  datatype Call = Call(process: nat, phase: Phase)

  /** `calls` are the live callers, each holding the lease of its attempt; `invoked` is history. */
  datatype Sys = Sys(ledger: Ledger, calls: map<AttemptId, Call>, invoked: set<AttemptId>)

  /** `applied` says whether a durable update that was allowed really reached the file. */
  datatype Event =
    | DoReserve(process: nat, id: AttemptId, amount: int, applied: bool, reported: bool)
    | DoSend(id: AttemptId, applied: bool, reported: bool)
    | DoCancel(id: AttemptId)
    | DoUnsend(id: AttemptId, applied: bool)
    | DoInvoke(id: AttemptId)
    | DoSettle(id: AttemptId, outcome: Outcome, applied: bool)
    | DoReturn(id: AttemptId)
    | DoCrash(process: nat)
    | DoRecover(id: AttemptId, applied: bool)
    | DoReconcile(id: AttemptId, cost: int, noteOk: bool, applied: bool)

  ghost predicate InPhase(s: Sys, id: AttemptId, p: Phase) { id in s.calls && s.calls[id].phase == p }

  function Moved(s: Sys, id: AttemptId, p: Phase): Sys
    requires id in s.calls
  {
    s.(calls := s.calls[id := s.calls[id].(phase := p)])
  }

  ghost function Written(s: Sys, r: Result<Ledger, BudgetError>, applied: bool): Sys {
    if r.Ok? && applied then s.(ledger := r.value) else s
  }

  /** One atomic step; an event whose actor is not at that point leaves the system as it is. */
  ghost function Apply(s: Sys, e: Event): Sys {
    match e
    case DoReserve(process, id, amount, applied, reported) =>
      // A random identifier is fresh, and its lease was taken before this update.
      if !ValidId(id) || id in s.ledger.attempts || id in s.calls then s
      else
        var r := Reserve(s.ledger, id, amount);
        var s' := Written(s, r, applied);
        if r.Ok? && applied && reported then s'.(calls := s'.calls[id := Call(process, HasReservation)]) else s'
    case DoSend(id, applied, reported) =>
      if !InPhase(s, id, HasReservation) then s
      else
        var r := Send(s.ledger, id);
        Moved(Written(s, r, applied), id, if r.Ok? && applied && reported then HasClaim else GivingUp)
    case DoCancel(id) =>
      if InPhase(s, id, HasClaim) then Moved(s, id, GivingUp) else s
    case DoUnsend(id, applied) =>
      if InPhase(s, id, GivingUp) then Moved(Written(s, Unsend(s.ledger, id), applied), id, Finished) else s
    case DoInvoke(id) =>
      if InPhase(s, id, HasClaim) then Moved(s, id, Called).(invoked := s.invoked + {id}) else s
    case DoSettle(id, outcome, applied) =>
      if InPhase(s, id, Called) && (outcome.Priced? ==> 0 <= outcome.cost <= MAX_INT64)
      then Moved(Written(s, Settle(s.ledger, id, outcome), applied), id, Finished) else s
    case DoReturn(id) =>
      if InPhase(s, id, Finished) then s.(calls := s.calls - {id}) else s
    case DoCrash(process) =>
      s.(calls := map id | id in s.calls && s.calls[id].process != process :: s.calls[id])
    case DoRecover(id, applied) =>
      if id in s.calls || id !in s.ledger.attempts || !applied then s else s.(ledger := RecoverOne(s.ledger, id))
    case DoReconcile(id, cost, noteOk, applied) =>
      if id in s.calls then s else Written(s, Reconcile(s.ledger, id, cost, noteOk), applied)
  }

  ghost function After(s: Sys, es: seq<Event>): Sys {
    if es == [] then s else Apply(After(s, es[..|es| - 1]), es[|es| - 1])
  }

  function Start(limit: int): Sys { Sys(Ledger(true, limit, map[]), map[], {}) }

  // ---------------------------------------------------------------------------
  // The invariant of every reachable state
  // ---------------------------------------------------------------------------

  ghost predicate MoneyInv(l: Ledger) { Consistent(l) && Total(Capped, l.attempts) <= l.limit }

  /** What a call's phase says about its attempt: the provider is only ever invoked on a durable claim. */
  ghost predicate CallInv(s: Sys, id: AttemptId) {
    id in s.calls ==>
      && id in s.ledger.attempts
      && var state := s.ledger.attempts[id].state;
      match s.calls[id].phase
      case HasReservation => state == Reserved
      case GivingUp => state in {Reserved, Sending} && id !in s.invoked
      case HasClaim => state == Sending && id !in s.invoked
      case Called => state == Sending && id in s.invoked
      case Finished => true
  }

  ghost predicate InvokedInv(s: Sys, id: AttemptId) {
    id in s.invoked ==> id in s.ledger.attempts && s.ledger.attempts[id].state in {Sending, Unknown, Settled}
  }

  /** A frozen account is one with an unresolved, unpriced attempt. */
  ghost predicate FlagInv(l: Ledger) {
    forall id :: id in l.attempts && l.attempts[id].needsReconciliation ==> l.attempts[id].state == Unknown
  }

  ghost predicate Inv(s: Sys) {
    MoneyInv(s.ledger) && FlagInv(s.ledger) && forall id :: CallInv(s, id) && InvokedInv(s, id)
  }

  /** The only ways one durable attempt may change: settled and released are final, unknown can only settle. */
  ghost predicate Evolves(a: Attempt, b: Attempt) {
    && b.id == a.id && b.reserved == a.reserved
    && (b.state == a.state ==> b == a)
    && match a.state
       case Reserved => b.state in {Reserved, Sending, Released, Unknown, Settled}
       case Sending => b.state in {Sending, Unknown, Settled, Released}
       case Unknown => b.state in {Unknown, Settled}
       case Settled => b == a
       case Released => b == a
  }

  ghost predicate LedgerEvolves(l: Ledger, l': Ledger) {
    && l'.limit == l.limit
    && forall id :: id in l.attempts ==> id in l'.attempts && Evolves(l.attempts[id], l'.attempts[id])
  }

  // ---------------------------------------------------------------------------
  // Money: one durable update at a time
  // ---------------------------------------------------------------------------

  lemma PutKeepsMoney(l: Ledger, id: AttemptId, a: Attempt)
    requires MoneyInv(l) && AttemptOk(id, a)
    requires Amount(Capped, a) <= if id in l.attempts then Amount(Capped, l.attempts[id]) else l.limit - Consumed(l)
    requires Consumed(l.(attempts := l.attempts[id := a])) <= MAX_INT64
    ensures MoneyInv(l.(attempts := l.attempts[id := a]))
  {
    TotalPut(Capped, l.attempts, id, a);
    TotalsBalance(l.attempts);
    forall i | i in l.attempts ensures l.attempts[i].reserved >= 0 && l.attempts[i].cost >= 0 {
      assert AttemptOk(i, l.attempts[i]);
    }
    TotalNonNegative(Overrun, l.attempts);
  }

  lemma PutChangesConsumption(l: Ledger, id: AttemptId, a: Attempt)
    ensures Consumed(l.(attempts := l.attempts[id := a])) == Consumed(l) + Amount(Spent, a) + Amount(Held, a)
              - (if id in l.attempts then Amount(Spent, l.attempts[id]) + Amount(Held, l.attempts[id]) else 0)
  {
    TotalPut(Spent, l.attempts, id, a);
    TotalPut(Held, l.attempts, id, a);
  }

  /** Admission: spent and held never pass the limit at the moment an attempt is admitted. */
  lemma AdmissionFits(l: Ledger, id: AttemptId, amount: int)
    requires MoneyInv(l) && ValidId(id) && id !in l.attempts && l.limit <= MAX_INT64
    requires Reserve(l, id, amount).Ok?
    ensures MoneyInv(Reserve(l, id, amount).value)
    ensures Consumed(Reserve(l, id, amount).value) == Consumed(l) + amount <= l.limit
  {
    var a := Attempt(id, Reserved, amount, 0, false);
    PutChangesConsumption(l, id, a);
    PutKeepsMoney(l, id, a);
  }

  lemma EditKeepsMoney(l: Ledger, id: AttemptId, allowed: set<AttemptState>, edit: Attempt -> Attempt)
    requires MoneyInv(l) && Edited(l, id, allowed, edit).Ok?
    requires id in l.attempts ==> Amount(Capped, edit(l.attempts[id])) <= Amount(Capped, l.attempts[id])
    ensures MoneyInv(Edited(l, id, allowed, edit).value)
  {
    var l' := Edited(l, id, allowed, edit).value;
    assert AttemptOk(id, l'.attempts[id]);
    PutKeepsMoney(l, id, edit(l.attempts[id]));
  }

  lemma UnsendKeepsMoney(l: Ledger, id: AttemptId)
    requires MoneyInv(l) && Unsend(l, id).Ok?
    ensures MoneyInv(Unsend(l, id).value)
  {
    assert AttemptOk(id, l.attempts[id]);
    EditKeepsMoney(l, id, {Reserved, Sending}, AsReleased);
  }

  lemma ReconcileKeepsMoney(l: Ledger, id: AttemptId, cost: int, noteOk: bool)
    requires MoneyInv(l) && Reconcile(l, id, cost, noteOk).Ok?
    ensures MoneyInv(Reconcile(l, id, cost, noteOk).value)
  {
    if l.attempts[id].state != Settled {
      var a := l.attempts[id].(state := Settled, cost := cost, needsReconciliation := false);
      assert AttemptOk(id, l.attempts[id]);
      PutKeepsMoney(l, id, a);
    }
  }

  lemma RecoverKeepsMoney(l: Ledger, id: AttemptId)
    requires MoneyInv(l) && id in l.attempts
    ensures MoneyInv(RecoverOne(l, id))
  {
    var a := AsRecovered(l.attempts[id]);
    assert AttemptOk(id, l.attempts[id]);
    PutChangesConsumption(l, id, a);
    PutKeepsMoney(l, id, a);
  }

  // ---------------------------------------------------------------------------
  // Every step, then every run
  // ---------------------------------------------------------------------------

  lemma StepKeepsMoney(s: Sys, e: Event)
    requires Inv(s) && s.ledger.limit <= MAX_INT64
    ensures MoneyInv(Apply(s, e).ledger)
  {
    hide Total, WellFormed, IsFrozen;
    var l := s.ledger;
    match e
    case DoReserve(process, id, amount, applied, reported) =>
      if ValidId(id) && id !in l.attempts && Reserve(l, id, amount).Ok? { AdmissionFits(l, id, amount); }
    case DoSend(id, applied, reported) =>
      if Send(l, id).Ok? { EditKeepsMoney(l, id, {Reserved}, AsSending); }
    case DoUnsend(id, applied) =>
      if Unsend(l, id).Ok? { UnsendKeepsMoney(l, id); }
    case DoSettle(id, outcome, applied) =>
      if Settle(l, id, outcome).Ok? { EditKeepsMoney(l, id, {Sending}, a => AsOutcome(outcome, a)); }
    case DoRecover(id, applied) =>
      if id in l.attempts { RecoverKeepsMoney(l, id); }
    case DoReconcile(id, cost, noteOk, applied) =>
      if Reconcile(l, id, cost, noteOk).Ok? { ReconcileKeepsMoney(l, id, cost, noteOk); }
    case _ =>
  }

  lemma StepKeepsCalls(s: Sys, e: Event, id: AttemptId)
    requires Inv(s)
    ensures CallInv(Apply(s, e), id) && InvokedInv(Apply(s, e), id)
  {
    hide Total, WellFormed, IsFrozen, FlagInv, MoneyInv;
    assert CallInv(s, id) && InvokedInv(s, id);
    match e
    case DoReserve(process, i, amount, applied, reported) => assert CallInv(s, i) && InvokedInv(s, i);
    case DoSend(i, applied, reported) => assert CallInv(s, i) && InvokedInv(s, i);
    case DoCancel(i) => assert CallInv(s, i) && InvokedInv(s, i);
    case DoUnsend(i, applied) => assert CallInv(s, i) && InvokedInv(s, i);
    case DoInvoke(i) => assert CallInv(s, i) && InvokedInv(s, i);
    case DoSettle(i, outcome, applied) => assert CallInv(s, i) && InvokedInv(s, i);
    case DoReturn(i) => assert CallInv(s, i) && InvokedInv(s, i);
    case DoCrash(process) =>
    case DoRecover(i, applied) => assert CallInv(s, i) && InvokedInv(s, i);
    case DoReconcile(i, cost, noteOk, applied) => assert CallInv(s, i) && InvokedInv(s, i);
  }

  lemma StepKeepsFlags(s: Sys, e: Event)
    requires Inv(s)
    ensures FlagInv(Apply(s, e).ledger)
  {
    hide Total, WellFormed, IsFrozen, CallInv, InvokedInv, MoneyInv;
  }

  lemma StepEvolves(s: Sys, e: Event)
    requires Inv(s)
    ensures LedgerEvolves(s.ledger, Apply(s, e).ledger)
  {
    hide Total, WellFormed, IsFrozen, CallInv, InvokedInv;
  }

  lemma StepKeepsInv(s: Sys, e: Event)
    requires Inv(s) && s.ledger.limit <= MAX_INT64
    ensures Inv(Apply(s, e))
  {
    StepKeepsMoney(s, e);
    StepKeepsFlags(s, e);
    forall id ensures CallInv(Apply(s, e), id) && InvokedInv(Apply(s, e), id) {
      StepKeepsCalls(s, e, id);
    }
  }

  lemma {:induction false} ReachableInv(limit: int, es: seq<Event>)
    requires 0 <= limit <= MAX_INT64
    ensures Inv(After(Start(limit), es)) && After(Start(limit), es).ledger.limit == limit
  {
    if es != [] {
      var before := es[..|es| - 1];
      ReachableInv(limit, before);
      StepKeepsInv(After(Start(limit), before), es[|es| - 1]);
      StepEvolves(After(Start(limit), before), es[|es| - 1]);
    } else {
      assert Total(Spent, map[]) == 0 && Total(Held, map[]) == 0 && Total(Capped, map[]) == 0;
    }
  }

  /**
    No overdraft, over every interleaving and crash: what is spent and held never passes the limit by more
    than the amounts by which settled attempts cost more than they reserved, and no total overflows.
   */
  lemma NoOverdraft(limit: int, es: seq<Event>)
    requires 0 <= limit <= MAX_INT64
    ensures var l := After(Start(limit), es).ledger;
            && SnapshotOf(l).Some?
            && Consumed(l) <= MAX_INT64
            && Consumed(l) <= limit + Total(Overrun, l.attempts)
            && (Total(Overrun, l.attempts) == 0 ==> Consumed(l) + ViewOf(l).remaining == limit)
  {
    ReachableInv(limit, es);
    TotalsBalance(After(Start(limit), es).ledger.attempts);
  }

  /** Every attempt admitted anywhere in a run leaves the ledger within its limit. */
  lemma EveryAdmissionFits(limit: int, es: seq<Event>, e: Event)
    requires 0 <= limit <= MAX_INT64 && e.DoReserve?
    ensures var s := After(Start(limit), es);
            Apply(s, e).ledger != s.ledger ==>
              && !IsFrozen(s.ledger)
              && Consumed(Apply(s, e).ledger) == Consumed(s.ledger) + e.amount <= limit
  {
    ReachableInv(limit, es);
    var s := After(Start(limit), es);
    if Apply(s, e).ledger != s.ledger {
      AdmissionFits(s.ledger, e.id, e.amount);
    }
  }

  /**
    No false refund. The provider is invoked for an attempt only while its caller holds the lease and the
    file says sending; a released attempt, or one still reserved, was never sent to the provider.
   */
  lemma NoFalseRefund(limit: int, es: seq<Event>, id: AttemptId)
    requires 0 <= limit <= MAX_INT64
    ensures var s := After(Start(limit), es);
            && (id in s.invoked ==> id in s.ledger.attempts)
            && (id in s.ledger.attempts && s.ledger.attempts[id].state in {Reserved, Released} ==> id !in s.invoked)
    ensures var s := After(Start(limit), es);
            var s' := Apply(s, DoInvoke(id));
            id in s'.invoked && id !in s.invoked ==>
              id in s.calls && id in s.ledger.attempts && s.ledger.attempts[id].state == Sending
    ensures var s := After(Start(limit), es);
            InPhase(s, id, Called) ==> Apply(s, DoInvoke(id)) == s
  {
    ReachableInv(limit, es);
    var s := After(Start(limit), es);
    assert CallInv(s, id) && InvokedInv(s, id);
  }

  /** Steps that the holder of this lease takes itself, or that end its process. */
  ghost predicate ByHolder(s: Sys, e: Event, id: AttemptId) {
    match e
    case DoSend(i, _, _) => i == id
    case DoCancel(i) => i == id
    case DoUnsend(i, _) => i == id
    case DoInvoke(i) => i == id
    case DoSettle(i, _, _) => i == id
    case DoReturn(i) => i == id
    case DoCrash(process) => id in s.calls && s.calls[id].process == process
    case _ => false
  }

  lemma LeaseHolds(s: Sys, e: Event, id: AttemptId)
    requires id in s.calls && id in s.ledger.attempts && !ByHolder(s, e, id)
    ensures var s' := Apply(s, e);
            && id in s'.calls && s'.calls[id] == s.calls[id]
            && id in s'.ledger.attempts && s'.ledger.attempts[id] == s.ledger.attempts[id]
            && (id in s'.invoked <==> id in s.invoked)
  {
    hide WellFormed, IsFrozen, Consistent, ViewOf;
  }

  /** Run `more` without a step of the holder. */
  ghost predicate HolderRests(s: Sys, more: seq<Event>, id: AttemptId) {
    forall i :: 0 <= i < |more| ==> !ByHolder(After(s, more[..i]), more[i], id)
  }

  /**
    The lease protects: while its holder rests, nothing that all others do, recovery and reconciliation included,
    changes the attempt or the call.
   */
  lemma {:induction false} LeaseProtects(limit: int, es: seq<Event>, more: seq<Event>, id: AttemptId)
    requires 0 <= limit <= MAX_INT64
    requires var s := After(Start(limit), es); id in s.calls && HolderRests(s, more, id)
    ensures var s, s' := After(Start(limit), es), After(After(Start(limit), es), more);
            && id in s'.calls && s'.calls[id] == s.calls[id]
            && id in s.ledger.attempts && id in s'.ledger.attempts && s'.ledger.attempts[id] == s.ledger.attempts[id]
            && (id in s'.invoked <==> id in s.invoked)
    decreases |more|
  {
    hide Apply, ByHolder;
    var s := After(Start(limit), es);
    if more == [] {
      ReachableInv(limit, es);
      assert CallInv(s, id);
    } else {
      var n := |more| - 1;
      assert HolderRests(s, more[..n], id) by {
        forall i | 0 <= i < n ensures !ByHolder(After(s, more[..n][..i]), more[..n][i], id) {
          assert more[..n][..i] == more[..i];
        }
      }
      LeaseProtects(limit, es, more[..n], id);
      LeaseHolds(After(s, more[..n]), more[n], id);
    }
  }

  /**
    After a crash, recovery of an orphan is exact: unsent reservations are freed, sent ones stay held, and every
    other attempt stays as it is.
   */
  lemma RecoveryIsExact(limit: int, es: seq<Event>, id: AttemptId)
    requires 0 <= limit <= MAX_INT64
    requires var s := After(Start(limit), es); id !in s.calls && id in s.ledger.attempts
    ensures var s := After(Start(limit), es);
            var s' := Apply(s, DoRecover(id, true));
            var a, b := s.ledger.attempts[id], s'.ledger.attempts[id];
            && (a.state == Reserved ==> b.state == Released && id !in s.invoked)
            && (a.state == Sending ==> b.state == Unknown && Amount(Held, b) == Amount(Held, a) == a.reserved)
            && (a.state !in {Reserved, Sending} ==> b == a)
            && s' == s.(ledger := s.ledger.(attempts := s.ledger.attempts[id := b]))
  {
    ReachableInv(limit, es);
    var s := After(Start(limit), es);
    assert InvokedInv(s, id);
  }

  /** What remains of an attempt after any number of steps. */
  ghost predicate Later(a: Attempt, b: Attempt) {
    && b.reserved == a.reserved
    && (a.state in {Settled, Released} ==> b == a)
    && (a.state == Unknown ==> b.state in {Unknown, Settled})
    && (a.state == Sending ==> b.state != Reserved)
  }

  lemma LaterReflexive(a: Attempt)
    ensures Later(a, a)
  {}

  lemma EvolvesFurther(l: Ledger, mid: Ledger, l': Ledger, id: AttemptId)
    requires id in l.attempts && id in mid.attempts && Later(l.attempts[id], mid.attempts[id])
    requires LedgerEvolves(mid, l')
    ensures id in l'.attempts && Later(l.attempts[id], l'.attempts[id])
  {
    assert Evolves(mid.attempts[id], l'.attempts[id]);
  }

  /** Settled and released are final for the rest of any run, and a reservation keeps its amount. */
  lemma {:induction false} SettledAndReleasedAreFinal(limit: int, es: seq<Event>, more: seq<Event>, id: AttemptId)
    requires 0 <= limit <= MAX_INT64
    requires id in After(Start(limit), es).ledger.attempts
    ensures id in After(Start(limit), es + more).ledger.attempts
    ensures Later(After(Start(limit), es).ledger.attempts[id], After(Start(limit), es + more).ledger.attempts[id])
    decreases |more|
  {
    hide Apply, Inv, LedgerEvolves, Later;
    if more == [] {
      assert es + more == es;
      LaterReflexive(After(Start(limit), es).ledger.attempts[id]);
    } else {
      var less := more[..|more| - 1];
      SettledAndReleasedAreFinal(limit, es, less, id);
      assert (es + more)[..|es + more| - 1] == es + less;
      ReachableInv(limit, es + less);
      var mid := After(Start(limit), es + less);
      StepEvolves(mid, more[|more| - 1]);
      EvolvesFurther(After(Start(limit), es).ledger, mid.ledger, Apply(mid, more[|more| - 1]).ledger, id);
    }
  }

  lemma FrozenStep(s: Sys, e: Event, id: AttemptId)
    requires Inv(s) && id in s.ledger.attempts && s.ledger.attempts[id].needsReconciliation
    ensures s.ledger.attempts[id].state == Unknown
    ensures e.DoReserve? ==> Apply(s, e).ledger == s.ledger
    ensures !(e.DoReconcile? && e.id == id) ==> Apply(s, e).ledger.attempts[id] == s.ledger.attempts[id]
  {
    hide Total, WellFormed;
    assert IsFrozen(s.ledger);
    assert CallInv(s, id);
  }

  /** Once an invocation could not be priced the account admits nothing until that attempt is reconciled. */
  lemma FreezeHolds(limit: int, es: seq<Event>, e: Event, id: AttemptId)
    requires 0 <= limit <= MAX_INT64
    requires var s := After(Start(limit), es);
             id in s.ledger.attempts && s.ledger.attempts[id].needsReconciliation
    ensures var s := After(Start(limit), es);
            var s' := Apply(s, e);
            && s.ledger.attempts[id].state == Unknown
            && (e.DoReserve? ==> s'.ledger == s.ledger)
            && (!(e.DoReconcile? && e.id == id) ==> s'.ledger.attempts[id] == s.ledger.attempts[id])
  {
    ReachableInv(limit, es);
    FrozenStep(After(Start(limit), es), e, id);
  }

  // ---------------------------------------------------------------------------
  // Where the money on the books comes from
  // ---------------------------------------------------------------------------

  /** An effective settlement of an attempt that was not settled yet. */
  ghost predicate Settles(s: Sys, e: Event) {
    && (e.DoSettle? || e.DoReconcile?) && e.id in s.ledger.attempts && s.ledger.attempts[e.id].state != Settled
    && e.id in Apply(s, e).ledger.attempts && Apply(s, e).ledger.attempts[e.id].state == Settled
  }

  /** The cost that the caller of a settlement, or the operator, gives. */
  function Told(e: Event): int {
    match e
    case DoSettle(_, Priced(cost), _) => cost
    case DoReconcile(_, cost, _, _) => cost
    case _ => 0
  }

  /** An effective admission. */
  ghost predicate Admits(s: Sys, e: Event) {
    e.DoReserve? && e.id !in s.ledger.attempts && e.id in Apply(s, e).ledger.attempts
  }

  /** An attempt that this step settles or releases. */
  ghost predicate Closes(s: Sys, e: Event, id: AttemptId) {
    && id in s.ledger.attempts && id in Apply(s, e).ledger.attempts
    && s.ledger.attempts[id].state != Settled && s.ledger.attempts[id].state != Released
    && (Apply(s, e).ledger.attempts[id].state == Settled || Apply(s, e).ledger.attempts[id].state == Released)
  }

  /** The attempt a step is about, if it is about one. */
  function Subject(e: Event): AttemptId { if e.DoCrash? then "" else e.id }

  /** The costs told to the settlements of a run. */
  ghost function Paid(limit: int, es: seq<Event>): int {
    if es == [] then 0
    else
      var s, e := After(Start(limit), es[..|es| - 1]), es[|es| - 1];
      Paid(limit, es[..|es| - 1]) + if Settles(s, e) then Told(e) else 0
  }

  /** What was reserved by the run's admissions, less the reservations of attempts it settled or released. */
  ghost function Open(limit: int, es: seq<Event>): int {
    if es == [] then 0
    else
      var s, e := After(Start(limit), es[..|es| - 1]), es[|es| - 1];
      Open(limit, es[..|es| - 1])
      + (if Admits(s, e) then e.amount else 0)
      - (if Closes(s, e, Subject(e)) then s.ledger.attempts[Subject(e)].reserved else 0)
  }

  /** One attempt over one step: as it was, new with its amount and no cost, or changed by a step about it. */
  lemma StepTells(s: Sys, e: Event, id: AttemptId)
    requires Inv(s) && id in Apply(s, e).ledger.attempts
    ensures var b := Apply(s, e).ledger.attempts[id];
            if id !in s.ledger.attempts then
              Admits(s, e) && e.id == id && b == Attempt(id, Reserved, e.amount, 0, false)
            else
              var a := s.ledger.attempts[id];
              && b.reserved == a.reserved
              && (b != a ==> !e.DoCrash? && Subject(e) == id)
              && (b.state == Settled && a.state != Settled ==> Settles(s, e) && b.cost == Told(e))
              && (b.state != Settled ==> b.cost == a.cost)
              && (a.state == Settled || a.state == Released ==> b == a)
  {
    hide Total, WellFormed, IsFrozen, FlagInv, MoneyInv, ViewOf;
    assert CallInv(s, id);
  }

  /** The attempts of a step's ledger, by the one it is about. */
  lemma OthersStay(s: Sys, e: Event)
    requires Inv(s)
    ensures var m, m' := s.ledger.attempts, Apply(s, e).ledger.attempts;
            if e.DoCrash? || Subject(e) !in m' then m' == m
            else m' == m[Subject(e) := m'[Subject(e)]]
  {
    hide Apply, Inv, Evolves;
    var m, m' := s.ledger.attempts, Apply(s, e).ledger.attempts;
    StepEvolves(s, e);
    forall id | id in m' ensures (id in m && m'[id] == m[id]) || (!e.DoCrash? && Subject(e) == id) {
      StepTells(s, e, id);
    }
  }

  /** An attempt without a cost of its own is not settled. */
  ghost predicate Unpaid(s: Sys) {
    forall id :: id in s.ledger.attempts && s.ledger.attempts[id].state != Settled ==> s.ledger.attempts[id].cost == 0
  }

  lemma StepKeepsUnpaid(s: Sys, e: Event)
    requires Inv(s) && Unpaid(s)
    ensures Unpaid(Apply(s, e))
  {
    hide Apply, Inv;
    forall id | id in Apply(s, e).ledger.attempts && Apply(s, e).ledger.attempts[id].state != Settled
      ensures Apply(s, e).ledger.attempts[id].cost == 0
    {
      StepTells(s, e, id);
    }
  }

  /** How one step moves the two totals. */
  lemma StepMovesMoney(s: Sys, e: Event)
    requires Inv(s)
    ensures var m, m' := s.ledger.attempts, Apply(s, e).ledger.attempts;
            && Total(Spent, m') == Total(Spent, m) + (if Settles(s, e) then Told(e) else 0)
            && Total(Held, m') == Total(Held, m) + (if Admits(s, e) then e.amount else 0)
                                  - (if Closes(s, e, Subject(e)) then m[Subject(e)].reserved else 0)
  {
    hide Apply, Inv, Total;
    var m, m' := s.ledger.attempts, Apply(s, e).ledger.attempts;
    OthersStay(s, e);
    if !e.DoCrash? && Subject(e) in m' {
      var id := Subject(e);
      StepTells(s, e, id);
      TotalPut(Spent, m, id, m'[id]);
      TotalPut(Held, m, id, m'[id]);
    }
  }

  /**
    Conservation over every run: what the books call spent is the sum of the costs that callers and operators gave at
    settlement, and what they call held is what admissions reserved and no settlement or release has closed.
   */
  lemma {:induction false} BooksBalance(limit: int, es: seq<Event>)
    requires 0 <= limit <= MAX_INT64
    ensures var m := After(Start(limit), es).ledger.attempts;
            Total(Spent, m) == Paid(limit, es) && Total(Held, m) == Open(limit, es)
  {
    hide Apply;
    if es == [] {
      assert Total(Spent, map[]) == 0 && Total(Held, map[]) == 0;
    } else {
      BooksBalance(limit, es[..|es| - 1]);
      ReachableInv(limit, es[..|es| - 1]);
      StepMovesMoney(After(Start(limit), es[..|es| - 1]), es[|es| - 1]);
    }
  }

  /** At step `i` of the run the attempt was settled at this cost. */
  ghost predicate SettledAt(limit: int, es: seq<Event>, i: nat, id: AttemptId, cost: int) {
    i < |es| && Settles(After(Start(limit), es[..i]), es[i]) && es[i].id == id && Told(es[i]) == cost
  }

  /** Every settled attempt costs what it was settled at, by its caller or by an operator. */
  lemma {:induction false} SettledAsTold(limit: int, es: seq<Event>, id: AttemptId)
    requires 0 <= limit <= MAX_INT64
    requires var m := After(Start(limit), es).ledger.attempts; id in m && m[id].state == Settled
    ensures exists i: nat :: SettledAt(limit, es, i, id, After(Start(limit), es).ledger.attempts[id].cost)
  {
    hide Apply;
    if es != [] {
      var n := |es| - 1;
      var s := After(Start(limit), es[..n]);
      ReachableInv(limit, es[..n]);
      StepTells(s, es[n], id);
      if id in s.ledger.attempts && s.ledger.attempts[id].state == Settled {
        SettledAsTold(limit, es[..n], id);
        var i: nat :| SettledAt(limit, es[..n], i, id, s.ledger.attempts[id].cost);
        assert es[..n][..i] == es[..i];
        assert SettledAt(limit, es, i, id, s.ledger.attempts[id].cost);
      } else {
        assert SettledAt(limit, es, n, id, After(Start(limit), es).ledger.attempts[id].cost);
      }
    }
  }

  /**
    A provider call without a reliable price leaves the reservation held, unresolved, and the account frozen if asked.
   */
  lemma UnpricedStaysHeld(limit: int, es: seq<Event>, id: AttemptId, freeze: bool)
    requires 0 <= limit <= MAX_INT64 && InPhase(After(Start(limit), es), id, Called)
    ensures var s := After(Start(limit), es);
            var s' := Apply(s, DoSettle(id, Unpriced(freeze), true));
            && id in s.ledger.attempts && id in s'.ledger.attempts
            && s'.ledger.attempts[id] == Attempt(id, Unknown, s.ledger.attempts[id].reserved, 0, freeze)
  {
    ReachableInv(limit, es);
    UnpaidHolds(limit, es);
    var s := After(Start(limit), es);
    assert CallInv(s, id) && AttemptOk(id, s.ledger.attempts[id]);
    assert s.ledger.attempts[id].state == Sending;
    var a := Attempt(id, Unknown, s.ledger.attempts[id].reserved, 0, freeze);
    hide After;
    assert !s.ledger.attempts[id].needsReconciliation;
    assert AsOutcome(Unpriced(freeze), s.ledger.attempts[id]) == a;
    PutChangesConsumption(s.ledger, id, a);
    PutKeepsMoney(s.ledger, id, a);
  }

  lemma {:induction false} UnpaidHolds(limit: int, es: seq<Event>)
    requires 0 <= limit <= MAX_INT64
    ensures Unpaid(After(Start(limit), es))
  {
    hide Apply;
    if es != [] {
      UnpaidHolds(limit, es[..|es| - 1]);
      ReachableInv(limit, es[..|es| - 1]);
      StepKeepsUnpaid(After(Start(limit), es[..|es| - 1]), es[|es| - 1]);
    }
  }
}
