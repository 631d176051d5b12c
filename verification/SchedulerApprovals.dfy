/**
  When a waiting approval has a goroutine. A paused lane moves only for an approval at its head, so what matters is
  whether something was put ahead of it; interrupts are.
 */
module SchedulerApprovals {
  import opened Common
  import opened Scheduler
  import opened SchedulerRuns
  import opened SchedulerSafety

  // ---------------------------------------------------------------------------
  // One lane between two turns
  // ---------------------------------------------------------------------------

  /** The state once the lane's idle goroutine, if it has one, has looked at the queue. */
  ghost function Looked(cfg: Config, r: Run, id: LaneId): State {
    if id in r.s.spawned then Apply(cfg, r, DoTake(r.s.spawned[id])).s else r.s
  }

  /** Between turns a waiting approval is served if and only if its lane is not paused or an approval is at the head. */
  lemma WaitingApprovalIsServedIff(cfg: Config, es: seq<Event>, id: LaneId, k: nat)
    requires var s := After(cfg, es).s;
             id in s.heap && s.heap[id].active.None? && k < |s.heap[id].queue| && s.heap[id].queue[k].approval
    ensures var r := After(cfg, es);
            var l := r.s.heap[id];
            id in Looked(cfg, r, id).spawned <==> !l.paused || l.queue[0].approval
  {
    Reachable(cfg, es);
    var s := After(cfg, es).s;
    hide After;
    assert LaneAt(cfg, s, id) && SpawnedAt(s, id);
    if id in s.spawned {
      assert WorkerAt(s, s.spawned[id]);
    }
  }

  // ---------------------------------------------------------------------------
  // Runs without interrupts
  // ---------------------------------------------------------------------------

  ghost predicate ApprovalsFirst(q: seq<Job>) { forall i, k :: 0 <= i < k < |q| && q[k].approval ==> q[i].approval }

  ghost predicate Tidy(l: Lane) { ApprovalsFirst(l.queue) && forall j :: j in l.inbox ==> !j.approval }

  ghost predicate TidyAt(s: State, id: LaneId) { id in s.heap ==> Tidy(s.heap[id]) }

  ghost predicate AllTidy(s: State) { forall id :: TidyAt(s, id) }

  lemma EnqueuedIsTidy(l: Lane, job: Job, policy: Policy)
    requires Tidy(l) && (policy == Interrupt ==> job.approval)
    ensures Tidy(Enqueued(l, job, policy))
  {
  }

  lemma AfterTurnIsTidy(l: Lane, approval: bool, o: Outcome)
    requires Tidy(l)
    ensures Tidy(AfterTurn(l, approval, o))
  {
    var q := l.queue + l.inbox;
    assert forall j :: j in q && j.approval ==> j in l.queue;
    forall k | |l.queue| <= k < |q| ensures q[k] == l.inbox[k - |l.queue|] {
    }
  }

  lemma SubmitKeepsTidy(cfg: Config, s: State, job: Job, policy: Policy, source: string, contextDone: bool,
                        lane: LaneId, worker: WorkerId)
    requires AllTidy(s) && (policy == Interrupt ==> job.approval)
    ensures AllTidy(Submit(cfg, s, job, policy, source, contextDone, lane, worker).0)
  {
    hide Tidy, Enqueued, Starts, Interrupts, LaneFor, Admitted;
    var (id, l) := LaneFor(s, job, source, lane);
    if !s.closed && !contextDone {
      FoundIsTidy(s, job, source, lane);
      var s1 := s.(index := s.index[job.conversation := id], heap := s.heap[id := l]);
      forall n ensures TidyAt(s1, n) {
        assert TidyAt(s, n);
      }
      AdmittedIsTidy(s1, id, job, policy, worker);
    }
  }

  lemma FoundIsTidy(s: State, job: Job, source: string, lane: LaneId)
    requires AllTidy(s)
    ensures Tidy(LaneFor(s, job, source, lane).1)
  {
    if job.conversation in s.index {
      assert TidyAt(s, s.index[job.conversation]);
    }
  }

  lemma AdmittedIsTidy(s: State, id: LaneId, job: Job, policy: Policy, worker: WorkerId)
    requires AllTidy(s) && id in s.heap && (policy == Interrupt ==> job.approval)
    ensures AllTidy(Admitted(s, id, job, policy, worker))
  {
    hide Tidy, Enqueued, Starts, Interrupts;
    assert TidyAt(s, id);
    EnqueuedIsTidy(s.heap[id], job, policy);
    SameQueuesTidy(Enqueued(s.heap[id], job, policy));
    forall n ensures TidyAt(Admitted(s, id, job, policy, worker), n) {
      assert TidyAt(s, n);
    }
  }

  lemma SameQueuesTidy(l: Lane)
    ensures forall running :: Tidy(l.(running := running)) <==> Tidy(l)
  {
  }

  lemma TurnKeepsTidy(cfg: Config, r: Run, e: Event)
    requires AllTidy(r.s) && (e.DoTake? || e.DoMove? || e.DoDrain? || e.DoTellOwn? || e.DoSettle?)
    ensures AllTidy(Apply(cfg, r, e).s)
  {
    hide Tell, Live, Ids, DeadIds, MayMove;
    var s' := Apply(cfg, r, e).s;
    forall n ensures TidyAt(s', n) {
      assert TidyAt(r.s, n);
      if e.DoSettle? && OnLane(r.s, e.w) && Busy(r.s, e.w) && r.s.workers[e.w].phase.Told? && n in s'.heap {
        AfterTurnIsTidy(r.s.heap[n], r.s.workers[e.w].job.value.approval, r.s.workers[e.w].phase.o);
      }
    }
  }

  lemma StepKeepsTidy(cfg: Config, r: Run, e: Event)
    requires AllTidy(r.s) && !(e.DoSubmit? && e.policy == Interrupt && !e.job.approval)
    ensures AllTidy(Apply(cfg, r, e).s)
  {
    hide ApplyTurn, Submit, Tell, WaitingIds, ActiveIds, Hit;
    match e
    case DoSubmit(job, policy, source, contextDone, lane, worker) =>
      SubmitKeepsTidy(cfg, r.s, job, policy, source, contextDone, lane, worker);
    case DoCancelConversation(c) => EmptiedIsTidy(r.s, {c});
    case DoSeal => EmptiedIsTidy(r.s, r.s.index.Keys);
    case DoCancelHandle(i) =>
      forall n ensures TidyAt(Apply(cfg, r, e).s, n) {
        assert TidyAt(r.s, n);
      }
    case _ => TurnKeepsTidy(cfg, r, e);
  }

  lemma EmptiedIsTidy(s: State, cs: set<Conversation>)
    requires AllTidy(s)
    ensures AllTidy(CancelLanes(s, cs)) && AllTidy(CancelLanes(s, cs).(closed := true))
  {
    hide Tell, WaitingIds, ActiveIds, Hit;
    forall n ensures TidyAt(CancelLanes(s, cs), n) && TidyAt(CancelLanes(s, cs).(closed := true), n) {
      assert TidyAt(s, n);
    }
  }

  /** Submissions use these policies only. */
  ghost predicate Only(es: seq<Event>, policies: set<Policy>) {
    forall e :: e in es && e.DoSubmit? ==> e.policy in policies
  }

  lemma {:induction false} TidyHolds(cfg: Config, es: seq<Event>, policies: set<Policy>)
    requires Only(es, policies) && Interrupt !in policies
    ensures AllTidy(After(cfg, es).s)
  {
    hide Apply, Tidy;
    if es != [] {
      assert es[|es| - 1] in es;
      TidyHolds(cfg, es[..|es| - 1], policies);
      StepKeepsTidy(cfg, After(cfg, es[..|es| - 1]), es[|es| - 1]);
    }
  }

  ghost predicate Stranded(cfg: Config, es: seq<Event>, id: LaneId, k: nat) {
    var s := After(cfg, es).s;
    id in s.heap && k < |s.heap[id].queue| && s.heap[id].queue[k].approval && id !in s.spawned
  }

  /** Without interrupts approvals come first, and a lane where one waits always has a goroutine. */
  lemma ApprovalsAreServed(cfg: Config, es: seq<Event>, policies: set<Policy>, id: LaneId, k: nat)
    requires Only(es, policies) && Interrupt !in policies
    requires var s := After(cfg, es).s; id in s.heap && k < |s.heap[id].queue| && s.heap[id].queue[k].approval
    ensures var s := After(cfg, es).s;
            id in s.spawned && forall i :: 0 <= i < k ==> s.heap[id].queue[i].approval
  {
    TidyHolds(cfg, es, policies);
    Reachable(cfg, es);
    var s := After(cfg, es).s;
    hide After;
    assert TidyAt(s, id) && LaneAt(cfg, s, id) && SpawnedAt(s, id);
  }

  // ---------------------------------------------------------------------------
  // A stranded approval
  // ---------------------------------------------------------------------------

  const TURN := Job(0, "c", false, false)
  const APPROVAL := Job(1, "c", false, true)
  const URGENT := Job(2, "c", false, false)

  function Asked(job: Job): Event { DoSubmit(job, Interrupt, "s", false, job.id, job.id) }

  /** One lane and its one worker; nothing else matters here. */
  ghost predicate At(s: State, l: Lane, k: Worker, foreground: nat, cancelled: set<JobId>, accepted: set<JobId>) {
    && s.index == map["c" := 0] && s.heap == map[0 := l] && s.workers == map[0 := k] && s.spawned == map[0 := 0]
    && !s.closed && s.foreground == foreground && s.cancelled == cancelled && s.accepted.Keys == accepted
  }

  function LaneWith(queue: seq<Job>, active: bool, paused: bool): Lane {
    Lane("c", "s", queue, [], if active then Some(TURN) else None, true, paused)
  }

  function Working(p: Phase): Worker { Worker(0, Some(TURN), p, []) }

  lemma Next(cfg: Config, es: seq<Event>, e: Event)
    ensures After(cfg, es + [e]) == Apply(cfg, After(cfg, es), e)
  {
    assert (es + [e])[..|es|] == es;
  }

  lemma Submitted(cfg: Config, s: State)
    requires cfg.capacity >= 2 && s == State(map[], map[], map[], map[], false, 0, 0, {}, map[], map[])
    ensures At(Submit(cfg, s, TURN, Interrupt, "s", false, 0, 0).0, LaneWith([TURN], false, false),
               Worker(0, None, Waiting, []), 0, {}, {0})
  {
    assert [] + [TURN] == [TURN];
    assert Enqueued(Lane("c", "s", [], [], None, false, false), TURN, Interrupt).queue == [TURN];
  }

  lemma Taken(s: State, accepted: set<JobId>)
    requires At(s, LaneWith([TURN], false, false), Worker(0, None, Waiting, []), 0, {}, accepted)
    ensures At(TakeNext(s, 0), LaneWith([], true, false), Working(Waiting), 0, {}, accepted)
  {
    assert [TURN][1..] == [];
  }

  lemma Step(cfg: Config, s: State, q: seq<Job>, p: Phase, m: Move, n: nat, cancelled: set<JobId>, accepted: set<JobId>)
    requires cfg.userSlots >= 1 && At(s, LaneWith(q, true, false), Working(p), n, cancelled, accepted)
    requires Busy(s, 0) && MayMove(cfg, s, 0, m)
    ensures At(Moved(s, 0, m), LaneWith(q, true, false), Working(NextPhase(p, m)), NextPool(n, p, m), cancelled, accepted)
  {
  }

  lemma Queued(cfg: Config, s: State, job: Job, q: seq<Job>, cancelled: set<JobId>, accepted: set<JobId>)
    requires cfg.capacity >= 2 && |q| < 2 && job.conversation == "c"
    requires At(s, LaneWith(q, true, false), Working(InRunner(true)), 1, cancelled, accepted)
    ensures At(Submit(cfg, s, job, Interrupt, "s", false, job.id, job.id).0, LaneWith([job] + q, true, false),
               Working(InRunner(true)), 1, if job.approval then cancelled else cancelled + {0}, accepted + {job.id})
  {
  }

  lemma Finished(s: State, q: seq<Job>, accepted: set<JobId>)
    requires At(s, LaneWith(q, true, false), Working(Released(Paused)), 0, {0}, accepted)
    ensures At(TellOwn(s, 0), LaneWith(q, true, false), Working(Told(Paused)), 0, {0}, accepted)
  {
    hide Tell;
  }

  lemma Parked(s: State, q: seq<Job>, accepted: set<JobId>)
    requires At(s, LaneWith(q, true, false), Working(Told(Paused)), 0, {0}, accepted)
    ensures At(Settle(s, 0, Paused), LaneWith(q, false, true), Worker(0, None, Waiting, []), 0, {0}, accepted)
  {
    hide Tell;
    assert q + [] == q && Ids([]) == {};
  }

  lemma Left(s: State, accepted: set<JobId>)
    requires At(s, LaneWith([URGENT, APPROVAL], false, true), Worker(0, None, Waiting, []), 0, {0}, accepted)
    ensures var s' := TakeNext(s, 0); 0 in s'.heap && s'.heap[0].queue == [URGENT, APPROVAL] && 0 !in s'.spawned
  {
  }

  /** A turn begins. */
  function Opening(): seq<Event> { [Asked(TURN)] + [DoTake(0)] + [DoMove(0, Acquire)] + [DoMove(0, Begin)] }

  lemma OpeningRuns(cfg: Config)
    requires cfg.userSlots >= 1 && cfg.capacity >= 2
    ensures At(After(cfg, Opening()).s, LaneWith([], true, false), Working(InRunner(true)), 1, {}, {0})
  {
    hide Submit, TakeNext, Moved;
    var e1, e2, e3 := [Asked(TURN)], [Asked(TURN)] + [DoTake(0)], [Asked(TURN)] + [DoTake(0)] + [DoMove(0, Acquire)];
    Next(cfg, [], Asked(TURN));
    assert [] + [Asked(TURN)] == e1;
    Submitted(cfg, After(cfg, []).s);
    hide After;
    Next(cfg, e1, DoTake(0));
    Taken(After(cfg, e1).s, {0});
    Next(cfg, e2, DoMove(0, Acquire));
    Step(cfg, After(cfg, e2).s, [], Waiting, Acquire, 0, {}, {0});
    Next(cfg, e3, DoMove(0, Begin));
    Step(cfg, After(cfg, e3).s, [], HasSlot, Begin, 1, {}, {0});
  }

  /** An approval arrives, and then an interrupt, which goes ahead of it. */
  function Overtaking(): seq<Event> { Opening() + [Asked(APPROVAL)] + [Asked(URGENT)] }

  lemma OvertakingRuns(cfg: Config)
    requires cfg.userSlots >= 1 && cfg.capacity >= 2
    ensures At(After(cfg, Overtaking()).s, LaneWith([URGENT, APPROVAL], true, false), Working(InRunner(true)), 1, {0},
               {0, 1, 2})
  {
    hide After, Opening, Submit;
    OpeningRuns(cfg);
    var e1 := Opening() + [Asked(APPROVAL)];
    Next(cfg, Opening(), Asked(APPROVAL));
    Queued(cfg, After(cfg, Opening()).s, APPROVAL, [], {}, {0});
    assert [APPROVAL] + [] == [APPROVAL] && {0} + {1} == {0, 1};
    Next(cfg, e1, Asked(URGENT));
    Queued(cfg, After(cfg, e1).s, URGENT, [APPROVAL], {}, {0, 1});
    assert [URGENT] + [APPROVAL] == [URGENT, APPROVAL] && {0, 1} + {2} == {0, 1, 2} && {} + {0} == {0};
  }

  /** The turn pauses its conversation. */
  function Pausing(): seq<Event> { Overtaking() + [DoMove(0, Return(Paused))] + [DoMove(0, Release)] }

  lemma PausingRuns(cfg: Config)
    requires cfg.userSlots >= 1 && cfg.capacity >= 2
    ensures At(After(cfg, Pausing()).s, LaneWith([URGENT, APPROVAL], true, false), Working(Released(Paused)), 0, {0},
               {0, 1, 2})
  {
    hide After, Overtaking, Moved;
    OvertakingRuns(cfg);
    var q, all: set<JobId> := [URGENT, APPROVAL], {0, 1, 2};
    var e1 := Overtaking() + [DoMove(0, Return(Paused))];
    Next(cfg, Overtaking(), DoMove(0, Return(Paused)));
    Step(cfg, After(cfg, Overtaking()).s, q, InRunner(true), Return(Paused), 1, {0}, all);
    Next(cfg, e1, DoMove(0, Release));
    Step(cfg, After(cfg, e1).s, q, Returned(true, Paused), Release, 1, {0}, all);
  }

  /** And its goroutine leaves. */
  function Ending(): seq<Event> { Pausing() + [DoTellOwn(0)] + [DoSettle(0)] + [DoTake(0)] }

  lemma EndingStrands(cfg: Config)
    requires cfg.userSlots >= 1 && cfg.capacity >= 2
    ensures Stranded(cfg, Ending(), 0, 1)
  {
    hide After, Pausing, TellOwn, Settle, TakeNext;
    PausingRuns(cfg);
    var q, all: set<JobId> := [URGENT, APPROVAL], {0, 1, 2};
    var e1 := Pausing() + [DoTellOwn(0)];
    var e2 := e1 + [DoSettle(0)];
    Next(cfg, Pausing(), DoTellOwn(0));
    Finished(After(cfg, Pausing()).s, q, all);
    Next(cfg, e1, DoSettle(0));
    Parked(After(cfg, e1).s, q, all);
    Next(cfg, e2, DoTake(0));
    Left(After(cfg, e2).s, all);
  }

  /** With room for one waiting job only, nothing can be put ahead of an approval. */
  lemma OneCannotBeOvertaken(cfg: Config, es: seq<Event>, id: LaneId, k: nat)
    requires cfg.capacity < 2
    ensures !Stranded(cfg, es, id, k)
  {
    Reachable(cfg, es);
    var s := After(cfg, es).s;
    hide After;
    assert LaneAt(cfg, s, id) && SpawnedAt(s, id);
  }

  /**
    No approval is ever left without a goroutine exactly when nobody submits with the interrupt policy, or there is
    no room for it behind an interrupt. The scheduler demands a user slot.
   */
  lemma ApprovalsAreServedIff(cfg: Config, policies: set<Policy>)
    requires cfg.userSlots >= 1
    ensures (forall es, id, k :: Only(es, policies) ==> !Stranded(cfg, es, id, k))
            <==> Interrupt !in policies || cfg.capacity < 2
  {
    if Interrupt in policies && cfg.capacity >= 2 {
      EndingStrands(cfg);
      assert Only(Ending(), policies) && Stranded(cfg, Ending(), 0, 1);
    } else {
      forall es, id, k | Only(es, policies) ensures !Stranded(cfg, es, id, k) {
        hide After;
        if cfg.capacity < 2 {
          OneCannotBeOvertaken(cfg, es, id, k);
        } else if Stranded(cfg, es, id, k) {
          ApprovalsAreServed(cfg, es, policies, id, k);
        }
      }
    }
  }
}
