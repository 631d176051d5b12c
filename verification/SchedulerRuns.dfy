/**
  All interleavings of submissions, worker goroutines, cancellations and sealing over one scheduler. A step is
  what the source does under its mutex, or one channel operation on a slot pool; the runner is environment.
 */
module SchedulerRuns {
  import opened Common
  import opened Scheduler

  /** `handed` is history: the jobs given to the runner, as a turn of their own or drained into another. */
  datatype Run = Run(s: State, handed: multiset<Job>)

  datatype Move = Acquire | Abandon | Begin | Skip | Return(o: Outcome) | Release

  datatype Event =
    | DoSubmit(job: Job, policy: Policy, source: string, contextDone: bool, lane: LaneId, worker: WorkerId)
    | DoTake(w: WorkerId)
    | DoMove(w: WorkerId, m: Move)
    | DoDrain(w: WorkerId)
    | DoTellOwn(w: WorkerId)
    | DoSettle(w: WorkerId)
    | DoCancelConversation(c: Conversation)
    | DoSeal
    | DoCancelHandle(id: JobId)

  // ---------------------------------------------------------------------------
  // Steps
  // ---------------------------------------------------------------------------

  predicate OnLane(s: State, w: WorkerId) { w in s.workers && s.workers[w].lane in s.heap }

  predicate Busy(s: State, w: WorkerId) { OnLane(s, w) && s.workers[w].job.Some? }

  predicate Chosen(p: Phase) { p.HasSlot? || p.NoSlot? }

  function Slots(cfg: Config, background: bool): nat { if background then cfg.systemSlots else cfg.userSlots }

  predicate MayMove(cfg: Config, s: State, w: WorkerId, m: Move)
    requires Busy(s, w)
  {
    var k := s.workers[w];
    var dead := k.job.value.id in s.cancelled;
    match m
    case Acquire => k.phase.Waiting? && Pool(s, k.job.value.background) < Slots(cfg, k.job.value.background)
    case Abandon => k.phase.Waiting? && dead
    case Begin => Chosen(k.phase) && !dead
    case Skip => Chosen(k.phase) && dead
    case Return(_) => k.phase.InRunner?
    case Release => k.phase.Returned?
  }

  function NextPhase(p: Phase, m: Move): Phase {
    match m
    case Acquire => HasSlot
    case Abandon => NoSlot
    case Begin => InRunner(p.HasSlot?)
    case Skip => Returned(p.HasSlot?, Failed)
    case Return(o) => Returned(p.InRunner? && p.acquired, o)
    case Release => Released(if p.Returned? then p.o else Failed)
  }

  /** Receiving from an empty pool would block for ever; `PoolOk` shows that it never comes to that. */
  function NextPool(n: nat, p: Phase, m: Move): nat {
    if m.Acquire? then n + 1
    else if m.Release? && p.Returned? && p.acquired && n > 0 then n - 1
    else n
  }

  function Moved(s: State, w: WorkerId, m: Move): State
    requires Busy(s, w)
  {
    var k := s.workers[w];
    var background := k.job.value.background;
    s.(workers := s.workers[w := k.(phase := NextPhase(k.phase, m))],
       foreground := if background then s.foreground else NextPool(s.foreground, k.phase, m),
       background := if background then NextPool(s.background, k.phase, m) else s.background)
  }

  function TellOwn(s: State, w: WorkerId): State
    requires Busy(s, w) && s.workers[w].phase.Released?
  {
    var k := s.workers[w];
    AtPhase(s, w, Told(k.phase.o)).(
      done := Tell(s.done, {k.job.value.id}, Own(k.phase.o), {}, Own(k.phase.o)),
      cancelled := s.cancelled + {k.job.value.id})
  }

  function Drained(s: State, w: WorkerId): multiset<Job>
    requires OnLane(s, w)
  {
    multiset(Live(s.heap[s.workers[w].lane].inbox, s.cancelled))
  }

  /** A random handle, lane object or goroutine is a new one. */
  predicate Fresh(s: State, job: Job, lane: LaneId, worker: WorkerId) {
    job.id !in s.accepted && lane !in s.heap && worker !in s.workers
  }

  ghost function ApplyTurn(cfg: Config, r: Run, e: Event): Run {
    match e
    case DoTake(w) =>
      if OnLane(r.s, w) && r.s.workers[w].job.None? then r.(s := TakeNext(r.s, w)) else r
    case DoMove(w, m) =>
      if !(Busy(r.s, w) && MayMove(cfg, r.s, w, m)) then r
      else Run(Moved(r.s, w, m), if m.Begin? then r.handed + multiset{r.s.workers[w].job.value} else r.handed)
    case DoDrain(w) =>
      if !(Busy(r.s, w) && r.s.workers[w].phase.InRunner?) then r
      else Run(Drain(r.s, w), r.handed + Drained(r.s, w))
    case DoTellOwn(w) =>
      if Busy(r.s, w) && r.s.workers[w].phase.Released? then r.(s := TellOwn(r.s, w)) else r
    case DoSettle(w) =>
      if Busy(r.s, w) && r.s.workers[w].phase.Told? then r.(s := Settle(r.s, w, r.s.workers[w].phase.o)) else r
    case _ => r
  }

  ghost function Apply(cfg: Config, r: Run, e: Event): Run {
    match e
    case DoSubmit(job, policy, source, contextDone, lane, worker) =>
      if Fresh(r.s, job, lane, worker)
      then r.(s := Submit(cfg, r.s, job, policy, source, contextDone, lane, worker).0) else r
    case DoCancelConversation(c) => r.(s := CancelLanes(r.s, {c}))
    case DoSeal => r.(s := Seal(r.s))
    case DoCancelHandle(id) => if id in r.s.accepted then r.(s := r.s.(cancelled := r.s.cancelled + {id})) else r
    case _ => ApplyTurn(cfg, r, e)
  }

  ghost function After(cfg: Config, es: seq<Event>): Run {
    if es == [] then Run(State(map[], map[], map[], map[], false, 0, 0, {}, map[], map[]), multiset{})
    else Apply(cfg, After(cfg, es[..|es| - 1]), es[|es| - 1])
  }

  // ---------------------------------------------------------------------------
  // Invariant: lanes and their workers
  // ---------------------------------------------------------------------------

  ghost predicate Linked(s: State, id: LaneId)
    requires id in s.heap
  {
    s.heap[id].conversation in s.index && s.index[s.heap[id].conversation] == id
  }

  /** The lane's own fields: bounded, never left with work nobody will take, empty once closed. */
  ghost predicate LaneOk(cfg: Config, l: Lane, linked: bool, closed: bool) {
    && |l.queue| + |l.inbox| <= cfg.capacity
    && (l.active.Some? ==> l.running)
    && (l.inbox != [] ==> l.active.Some?)
    && (l.queue != [] && !l.running ==> l.paused && !l.queue[0].approval)
    && (!linked ==> l.queue == [] && !l.running)
    && (closed ==> l.queue == [] && l.inbox == [])
  }

  ghost predicate LaneAt(cfg: Config, s: State, id: LaneId) {
    id in s.heap ==> LaneOk(cfg, s.heap[id], Linked(s, id), s.closed)
  }

  ghost predicate WorkerOk(k: Worker, cancelled: set<JobId>) {
    && (k.job.None? ==> k.phase.Waiting?)
    && (k.phase.Waiting? || Chosen(k.phase) ==> k.consumed == [])
    && (k.phase.NoSlot? ==> k.job.Some? && k.job.value.id in cancelled)
    && (k.phase.InRunner? ==> k.phase.acquired)
  }

  /** A goroutine belongs to one running lane and works on the lane's active job. */
  ghost predicate WorkerAt(s: State, w: WorkerId) {
    w in s.workers ==>
      && var k := s.workers[w];
      && WorkerOk(k, s.cancelled)
      && k.lane in s.heap && k.job == s.heap[k.lane].active
      && k.lane in s.spawned && s.spawned[k.lane] == w
  }

  /** Exactly the running lanes have a goroutine. */
  ghost predicate SpawnedAt(s: State, id: LaneId) {
    && (id in s.spawned ==>
          && id in s.heap && s.heap[id].running
          && s.spawned[id] in s.workers && s.workers[s.spawned[id]].lane == id)
    && (id in s.heap && s.heap[id].running ==> id in s.spawned)
  }

  ghost predicate Structure(cfg: Config, s: State) {
    && IndexOk(s)
    && (forall id :: LaneAt(cfg, s, id))
    && (forall w :: WorkerAt(s, w))
    && (forall id :: SpawnedAt(s, id))
  }

  lemma WorkerStaysOk(k: Worker, cancelled: set<JobId>, more: set<JobId>)
    requires WorkerOk(k, cancelled) && cancelled <= more
    ensures WorkerOk(k, more)
  {
  }

  /** What the invariant says about one busy or idle goroutine. */
  lemma Mine(cfg: Config, s: State, w: WorkerId)
    requires Structure(cfg, s) && w in s.workers
    ensures var k := s.workers[w];
            && k.lane in s.heap && s.heap[k.lane].running && k.job == s.heap[k.lane].active
            && WorkerOk(k, s.cancelled) && LaneOk(cfg, s.heap[k.lane], Linked(s, k.lane), s.closed)
            && Linked(s, k.lane)
  {
    assert WorkerAt(s, w) && SpawnedAt(s, s.workers[w].lane) && LaneAt(cfg, s, s.workers[w].lane);
  }

  /** A step on one running lane and its worker. */
  lemma OneLaneStep(cfg: Config, s: State, s': State, w: WorkerId, l': Lane, k': Worker)
    requires Structure(cfg, s) && w in s.workers && s.workers[w].lane in s.heap
    requires k'.lane == s.workers[w].lane && k'.job == l'.active && WorkerOk(k', s'.cancelled)
    requires l'.running && l'.conversation == s.heap[k'.lane].conversation
    requires LaneOk(cfg, l', Linked(s, k'.lane), s.closed)
    requires s'.heap == s.heap[k'.lane := l'] && s'.workers == s.workers[w := k']
    requires s'.index == s.index && s'.spawned == s.spawned && s'.closed == s.closed && s.cancelled <= s'.cancelled
    ensures Structure(cfg, s')
  {
    hide LaneOk, WorkerOk;
    Mine(cfg, s, w);
    forall id ensures LaneAt(cfg, s', id) {
      assert LaneAt(cfg, s, id);
    }
    forall v ensures WorkerAt(s', v) {
      assert WorkerAt(s, v) && WorkerAt(s, w);
      if v != w && v in s.workers {
        WorkerStaysOk(s.workers[v], s.cancelled, s'.cancelled);
      }
    }
    forall id ensures SpawnedAt(s', id) {
      assert SpawnedAt(s, id) && WorkerAt(s, w);
    }
  }

  lemma MoveKeepsStructure(cfg: Config, s: State, w: WorkerId, m: Move)
    requires Structure(cfg, s) && Busy(s, w) && MayMove(cfg, s, w, m)
    ensures Structure(cfg, Moved(s, w, m))
  {
    hide Structure, LaneOk;
    Mine(cfg, s, w);
    var k := s.workers[w];
    var l := s.heap[k.lane];
    assert s.heap == s.heap[k.lane := l];
    OneLaneStep(cfg, s, Moved(s, w, m), w, l, k.(phase := NextPhase(k.phase, m)));
  }

  lemma TellOwnKeepsStructure(cfg: Config, s: State, w: WorkerId)
    requires Structure(cfg, s) && Busy(s, w) && s.workers[w].phase.Released?
    ensures Structure(cfg, TellOwn(s, w))
  {
    hide Structure, LaneOk, Tell;
    Mine(cfg, s, w);
    var k := s.workers[w];
    var l := s.heap[k.lane];
    assert s.heap == s.heap[k.lane := l];
    OneLaneStep(cfg, s, TellOwn(s, w), w, l, k.(phase := Told(k.phase.o)));
  }

  lemma DrainKeepsStructure(cfg: Config, s: State, w: WorkerId)
    requires Structure(cfg, s) && Busy(s, w) && s.workers[w].phase.InRunner?
    ensures Structure(cfg, Drain(s, w))
  {
    hide Structure, Tell, Live, DeadIds;
    Mine(cfg, s, w);
    var k := s.workers[w];
    var l := s.heap[k.lane];
    var k' := k.(consumed := k.consumed + Live(l.inbox, s.cancelled));
    OneLaneStep(cfg, s, Drain(s, w), w, l.(inbox := []), k');
  }

  lemma SettleKeepsStructure(cfg: Config, s: State, w: WorkerId)
    requires Structure(cfg, s) && Busy(s, w) && s.workers[w].phase.Told?
    ensures Structure(cfg, Settle(s, w, s.workers[w].phase.o))
  {
    hide Structure, Tell, Ids;
    Mine(cfg, s, w);
    var k := s.workers[w];
    var l := s.heap[k.lane];
    var l' := AfterTurn(l, k.job.value.approval, k.phase.o);
    assert LaneOk(cfg, l', Linked(s, k.lane), s.closed);
    OneLaneStep(cfg, s, Settle(s, w, k.phase.o), w, l', Worker(k.lane, None, Waiting, []));
  }

  lemma TakeKeepsStructure(cfg: Config, s: State, w: WorkerId)
    requires Structure(cfg, s) && OnLane(s, w) && s.workers[w].job.None?
    ensures Structure(cfg, TakeNext(s, w))
  {
    hide Structure;
    Mine(cfg, s, w);
    var k := s.workers[w];
    var l := s.heap[k.lane];
    if Stops(l) {
      LeaveKeepsStructure(cfg, s, w);
    } else {
      var l' := l.(queue := l.queue[1..], active := Some(l.queue[0]));
      OneLaneStep(cfg, s, TakeNext(s, w), w, l', Worker(k.lane, Some(l.queue[0]), Waiting, []));
    }
  }

  lemma LeaveKeepsStructure(cfg: Config, s: State, w: WorkerId)
    requires Structure(cfg, s) && OnLane(s, w) && s.workers[w].job.None? && Stops(s.heap[s.workers[w].lane])
    ensures Structure(cfg, TakeNext(s, w))
  {
    Mine(cfg, s, w);
    var s' := TakeNext(s, w);
    var lane := s.workers[w].lane;
    assert LaneOk(cfg, s'.heap[lane], Linked(s', lane), s'.closed);
    hide LaneOk, WorkerOk;
    forall id ensures LaneAt(cfg, s', id) {
      assert LaneAt(cfg, s, id);
    }
    forall v ensures WorkerAt(s', v) {
      assert WorkerAt(s, v) && WorkerAt(s, w);
    }
    forall id ensures SpawnedAt(s', id) {
      assert SpawnedAt(s, id) && WorkerAt(s, w);
      if id in s'.spawned {
        assert WorkerAt(s, s.spawned[id]);
      }
    }
  }

  lemma CancelKeepsStructure(cfg: Config, s: State, cs: set<Conversation>)
    requires Structure(cfg, s)
    ensures Structure(cfg, CancelLanes(s, cs))
  {
    hide Tell, ActiveIds, WaitingIds, WorkerOk;
    var s' := CancelLanes(s, cs);
    forall id ensures LaneAt(cfg, s', id) {
      assert LaneAt(cfg, s, id);
    }
    hide Hit, LaneOk;
    forall v ensures WorkerAt(s', v) {
      assert WorkerAt(s, v);
      if v in s.workers {
        WorkerStaysOk(s.workers[v], s.cancelled, s'.cancelled);
      }
    }
    forall id ensures SpawnedAt(s', id) {
      assert SpawnedAt(s, id);
    }
  }

  lemma SealKeepsStructure(cfg: Config, s: State)
    requires Structure(cfg, s)
    ensures Structure(cfg, Seal(s))
  {
    CancelKeepsStructure(cfg, s, s.index.Keys);
    hide Tell, ActiveIds, WaitingIds, WorkerOk;
    var s1 := CancelLanes(s, s.index.Keys);
    var s' := Seal(s);
    forall id ensures LaneAt(cfg, s', id) {
      assert LaneAt(cfg, s, id) && LaneAt(cfg, s1, id);
      assert id in s.heap && Linked(s, id) ==> Hit(s, id, s.index.Keys);
    }
    hide Hit, LaneOk;
    forall v ensures WorkerAt(s', v) {
      assert WorkerAt(s1, v);
    }
    forall id ensures SpawnedAt(s', id) {
      assert SpawnedAt(s1, id);
    }
  }

  lemma EnqueuedIsOk(cfg: Config, l: Lane, job: Job, policy: Policy)
    requires LaneOk(cfg, l, true, false) && |l.queue| + |l.inbox| < cfg.capacity
    ensures LaneOk(cfg, Enqueued(l, job, policy).(running := l.running || Starts(l, job, policy)), true, false)
    ensures Enqueued(l, job, policy).conversation == l.conversation && Enqueued(l, job, policy).active == l.active
  {
  }

  lemma AdmittedKeepsStructure(cfg: Config, s: State, id: LaneId, job: Job, policy: Policy, worker: WorkerId)
    requires Structure(cfg, s) && !s.closed && id in s.heap && Linked(s, id) && worker !in s.workers
    requires |s.heap[id].queue| + |s.heap[id].inbox| < cfg.capacity
    ensures Structure(cfg, Admitted(s, id, job, policy, worker))
  {
    var s' := Admitted(s, id, job, policy, worker);
    var l := s.heap[id];
    assert LaneAt(cfg, s, id) && SpawnedAt(s, id);
    EnqueuedIsOk(cfg, l, job, policy);
    assert Starts(l, job, policy) ==> !l.running && l.active.None?;
    hide LaneOk, Enqueued, Starts, Interrupts;
    forall n ensures LaneAt(cfg, s', n) {
      assert LaneAt(cfg, s, n);
    }
    forall v ensures WorkerAt(s', v) {
      assert WorkerAt(s, v);
      assert v in s.workers && s.workers[v].lane == id ==> l.running by { assert SpawnedAt(s, id); }
      if v in s.workers {
        hide WorkerOk;
        WorkerStaysOk(s.workers[v], s.cancelled, s'.cancelled);
      }
    }
    forall n ensures SpawnedAt(s', n) {
      assert SpawnedAt(s, n);
    }
  }

  /** What opening a lane gives: a state of the same structure, with the lane linked. */
  lemma OpenedKeepsStructure(cfg: Config, s: State, job: Job, source: string, lane: LaneId)
    requires Structure(cfg, s) && !s.closed && lane !in s.heap
    ensures var (id, l) := LaneFor(s, job, source, lane);
            var s1 := s.(index := s.index[job.conversation := id], heap := s.heap[id := l]);
            Structure(cfg, s1) && Linked(s1, id) && l.conversation == job.conversation
  {
    var (id, l) := LaneFor(s, job, source, lane);
    var s1 := s.(index := s.index[job.conversation := id], heap := s.heap[id := l]);
    assert SpawnedAt(s, lane);
    assert id in s.heap ==> LaneAt(cfg, s, id);
    hide WorkerOk;
    forall n ensures LaneAt(cfg, s1, n) {
      assert LaneAt(cfg, s, n);
    }
    forall v ensures WorkerAt(s1, v) {
      assert WorkerAt(s, v);
    }
    forall n ensures SpawnedAt(s1, n) {
      assert SpawnedAt(s, n);
    }
  }

  lemma SubmitKeepsStructure(cfg: Config, s: State, job: Job, policy: Policy, source: string, contextDone: bool,
                             lane: LaneId, worker: WorkerId)
    requires Structure(cfg, s) && Fresh(s, job, lane, worker)
    ensures Structure(cfg, Submit(cfg, s, job, policy, source, contextDone, lane, worker).0)
  {
    hide Structure, Admitted, LaneFor;
    if !s.closed && !contextDone {
      OpenedKeepsStructure(cfg, s, job, source, lane);
      var (id, l) := LaneFor(s, job, source, lane);
      var s1 := s.(index := s.index[job.conversation := id], heap := s.heap[id := l]);
      if |l.queue| + |l.inbox| < cfg.capacity {
        AdmittedKeepsStructure(cfg, s1, id, job, policy, worker);
      }
    }
  }

  // ---------------------------------------------------------------------------
  // Invariant: every accepted job is in one place
  // ---------------------------------------------------------------------------

  /** A lane together with its goroutine, if it has one. */
  datatype Charge = Charge(l: Lane, k: Option<Worker>)

  ghost function ChargeOf(s: State, id: LaneId): Charge
    requires id in s.heap
  {
    Charge(s.heap[id], if id in s.spawned && s.spawned[id] in s.workers then Some(s.workers[s.spawned[id]]) else None)
  }

  ghost function Opt(o: Option<Job>): multiset<Job> { if o.Some? then multiset{o.value} else multiset{} }

  ghost function Consumed(c: Charge): seq<Job> { if c.k.Some? then c.k.value.consumed else [] }

  /** What a lane has charge of: queue, inbox, active turn, and messages that turn has consumed. */
  ghost function Held(c: Charge): multiset<Job> {
    multiset(c.l.queue) + multiset(c.l.inbox) + Opt(c.l.active) + multiset(Consumed(c))
  }

  /** The active job whose handle is finished while its worker has yet to update the lane. */
  ghost predicate Cleaning(c: Charge, j: Job) {
    c.k.Some? && c.k.value.phase.Told? && c.k.value.job == Some(j)
  }

  ghost predicate HeldOk(c: Charge, accepted: map<JobId, Job>, done: set<JobId>, j: Job) {
    j in Held(c) ==>
      && Held(c)[j] == 1
      && j.id in accepted && accepted[j.id] == j && j.conversation == c.l.conversation
      && (j.id in done <==> Cleaning(c, j))
  }

  ghost predicate ChargeOk(c: Charge, accepted: map<JobId, Job>, done: set<JobId>) {
    forall j :: HeldOk(c, accepted, done, j)
  }

  ghost predicate HeldAt(s: State, id: LaneId) {
    id in s.heap ==> ChargeOk(ChargeOf(s, id), s.accepted, s.done.Keys)
  }

  /** An accepted job is finished, or held by its conversation's lane. */
  ghost predicate AcceptedAt(s: State, i: JobId) {
    && (i in s.accepted ==> s.accepted[i].id == i)
    && (i in s.done ==> i in s.accepted)
    && (i in s.accepted && i !in s.done ==>
          var c := s.accepted[i].conversation;
          c in s.index && s.index[c] in s.heap && s.accepted[i] in Held(ChargeOf(s, s.index[c])))
  }

  ghost predicate Jobs(s: State) { (forall id :: HeldAt(s, id)) && (forall i :: AcceptedAt(s, i)) }

  lemma HeldIsLinked(cfg: Config, s: State, id: LaneId, j: Job)
    requires Structure(cfg, s) && id in s.heap && j in Held(ChargeOf(s, id))
    ensures Linked(s, id)
  {
    assert LaneAt(cfg, s, id) && SpawnedAt(s, id);
  }

  /** One job is never held by two lanes. */
  lemma HeldApart(cfg: Config, s: State, id: LaneId, j: Job, id': LaneId, j': Job)
    requires Structure(cfg, s) && Jobs(s) && id in s.heap && id' in s.heap
    requires j in Held(ChargeOf(s, id)) && j' in Held(ChargeOf(s, id')) && j.id == j'.id
    ensures id == id' && j == j'
  {
    HeldIsLinked(cfg, s, id, j);
    HeldIsLinked(cfg, s, id', j');
    hide Held, Structure;
    assert HeldAt(s, id) && HeldAt(s, id');
    assert HeldOk(ChargeOf(s, id), s.accepted, s.done.Keys, j);
    assert HeldOk(ChargeOf(s, id'), s.accepted, s.done.Keys, j');
  }

  /** A lane lets go only of what is finished, takes up nothing, and keeps nothing finished but a turn to clean up. */
  ghost predicate StepOk(c: Charge, c': Charge, done: set<JobId>, j: Job) {
    && Held(c')[j] <= Held(c)[j]
    && (j in Held(c) ==> j in Held(c') || j.id in done)
    && (j in Held(c') ==> (j.id in done <==> Cleaning(c', j)))
  }

  ghost predicate LaneStep(c: Charge, c': Charge, done: set<JobId>) {
    c'.l.conversation == c.l.conversation && forall j :: StepOk(c, c', done, j)
  }

  lemma LaneStepsKeepJobs(cfg: Config, s: State, s': State)
    requires Jobs(s) && s'.heap.Keys == s.heap.Keys && s'.accepted == s.accepted
    requires forall id :: id in s.heap ==> LaneStep(ChargeOf(s, id), ChargeOf(s', id), s'.done.Keys)
    requires s.done.Keys <= s'.done.Keys <= s.accepted.Keys
    requires forall c :: c in s.index && s.index[c] in s.heap && Held(ChargeOf(s, s.index[c])) != multiset{} ==>
                           c in s'.index && s'.index[c] == s.index[c]
    ensures Jobs(s')
  {
    hide Held, Cleaning, ChargeOf;
    forall id ensures HeldAt(s', id) {
      if id in s'.heap {
        var c, c' := ChargeOf(s, id), ChargeOf(s', id);
        assert HeldAt(s, id) && LaneStep(c, c', s'.done.Keys);
        forall j ensures HeldOk(c', s'.accepted, s'.done.Keys, j) {
          assert HeldOk(c, s.accepted, s.done.Keys, j) && StepOk(c, c', s'.done.Keys, j);
        }
      }
    }
    hide HeldOk;
    forall i ensures AcceptedAt(s', i) {
      assert AcceptedAt(s, i);
      if i in s.accepted && i !in s'.done {
        var n := s.index[s.accepted[i].conversation];
        assert LaneStep(ChargeOf(s, n), ChargeOf(s', n), s'.done.Keys);
        assert StepOk(ChargeOf(s, n), ChargeOf(s', n), s'.done.Keys, s.accepted[i]);
      }
    }
  }

  /** The finished handles are those of jobs the lane holds. */
  ghost predicate Ours(c: Charge, accepted: map<JobId, Job>, d: set<JobId>) {
    forall i :: i in d ==> i in accepted && accepted[i] in Held(c) && accepted[i].id == i
  }

  /** A lane that did not move, when some other lane's handles `d` were finished. */
  lemma StandsStill(c: Charge, accepted: map<JobId, Job>, done: set<JobId>, done': set<JobId>)
    requires ChargeOk(c, accepted, done)
    requires forall j :: j in Held(c) ==> (j.id in done' <==> j.id in done)
    ensures LaneStep(c, c, done')
  {
    hide Held;
    forall j ensures StepOk(c, c, done', j) {
      assert HeldOk(c, accepted, done, j);
    }
  }

  /** A step of one running lane, finishing handles `d` of jobs it holds. */
  lemma OneLaneJobs(cfg: Config, s: State, s': State, w: WorkerId, d: set<JobId>)
    requires Structure(cfg, s) && Jobs(s) && w in s.workers && w in s'.workers
    requires var id := s.workers[w].lane;
             && id in s.heap && id in s'.heap && s'.heap == s.heap[id := s'.heap[id]]
             && LaneStep(ChargeOf(s, id), ChargeOf(s', id), s'.done.Keys) && Ours(ChargeOf(s, id), s.accepted, d)
    requires s'.workers == s.workers[w := s'.workers[w]]
    requires s'.index == s.index && s'.spawned == s.spawned && s'.accepted == s.accepted
    requires s'.done.Keys == s.done.Keys + d
    ensures Jobs(s')
  {
    hide Held, LaneStep;
    var here := s.workers[w].lane;
    assert WorkerAt(s, w);
    forall id | id in s.heap && id != here ensures LaneStep(ChargeOf(s, id), ChargeOf(s', id), s'.done.Keys) {
      assert SpawnedAt(s, id) && HeldAt(s, id);
      assert ChargeOf(s', id) == ChargeOf(s, id);
      forall j | j in Held(ChargeOf(s, id)) ensures j.id !in d {
        if j.id in d {
          HeldApart(cfg, s, id, j, here, s.accepted[j.id]);
        }
      }
      StandsStill(ChargeOf(s, id), s.accepted, s.done.Keys, s'.done.Keys);
    }
    forall i | i in s'.done ensures i in s.accepted {
      assert AcceptedAt(s, i);
    }
    LaneStepsKeepJobs(cfg, s, s');
  }

  /** The charge of a goroutine's lane is the lane and that goroutine. */
  lemma MyCharge(cfg: Config, s: State, w: WorkerId)
    requires Structure(cfg, s) && Jobs(s) && w in s.workers
    ensures s.workers[w].lane in s.heap
    ensures ChargeOf(s, s.workers[w].lane) == Charge(s.heap[s.workers[w].lane], Some(s.workers[w]))
    ensures ChargeOk(ChargeOf(s, s.workers[w].lane), s.accepted, s.done.Keys)
    ensures s.workers[w].job == s.heap[s.workers[w].lane].active && WorkerOk(s.workers[w], s.cancelled)
    ensures LaneOk(cfg, s.heap[s.workers[w].lane], Linked(s, s.workers[w].lane), s.closed)
    ensures s.workers[w].lane in s.spawned && s.spawned[s.workers[w].lane] == w
  {
    hide Held, HeldOk, WorkerOk, LaneOk;
    assert WorkerAt(s, w) && SpawnedAt(s, s.workers[w].lane) && HeldAt(s, s.workers[w].lane);
    assert LaneAt(cfg, s, s.workers[w].lane);
  }

  lemma MoveCharge(c: Charge, k': Worker, accepted: map<JobId, Job>, done: set<JobId>)
    requires ChargeOk(c, accepted, done) && c.k.Some? && k'.consumed == c.k.value.consumed
    requires !c.k.value.phase.Told? && !k'.phase.Told?
    ensures LaneStep(c, c.(k := Some(k')), done)
  {
    forall j ensures StepOk(c, c.(k := Some(k')), done, j) {
      assert HeldOk(c, accepted, done, j);
    }
  }

  /** Other lanes and their goroutines do not see a step of worker `w`. */
  lemma OthersStand(cfg: Config, s: State, s': State, w: WorkerId, id: LaneId)
    requires Structure(cfg, s) && w in s.workers && w in s'.workers && id in s.heap && id != s.workers[w].lane
    requires s'.workers == s.workers[w := s'.workers[w]] && s'.spawned == s.spawned
    requires id in s'.heap && s'.heap[id] == s.heap[id]
    ensures ChargeOf(s', id) == ChargeOf(s, id)
  {
    assert SpawnedAt(s, id) && WorkerAt(s, w);
  }

  /** A move changes one worker's phase and one pool. */
  lemma MovedShape(s: State, w: WorkerId, m: Move)
    requires Busy(s, w)
    ensures var s' := Moved(s, w, m);
            && s'.workers == s.workers[w := s.workers[w].(phase := NextPhase(s.workers[w].phase, m))]
            && s'.heap == s.heap && s'.index == s.index && s'.spawned == s.spawned && s'.done == s.done
            && s'.accepted == s.accepted && s'.cancelled == s.cancelled && s'.closed == s.closed
  {
    hide NextPhase, NextPool;
  }

  lemma MovedCharges(cfg: Config, s: State, w: WorkerId, m: Move)
    requires Structure(cfg, s) && Jobs(s) && Busy(s, w)
    ensures var s' := Moved(s, w, m);
            && w in s'.workers && s'.heap == s.heap
            && ChargeOf(s', s.workers[w].lane) == ChargeOf(s, s.workers[w].lane).(k := Some(s'.workers[w]))
            && forall id :: id in s.heap && id != s.workers[w].lane ==> ChargeOf(s', id) == ChargeOf(s, id)
  {
    hide Structure, Jobs, ChargeOk, LaneOk, WorkerOk, NextPhase, Moved;
    MyCharge(cfg, s, w);
    MovedShape(s, w, m);
    forall id | id in s.heap && id != s.workers[w].lane ensures ChargeOf(Moved(s, w, m), id) == ChargeOf(s, id) {
      OthersStand(cfg, s, Moved(s, w, m), w, id);
    }
  }

  lemma MoveKeepsJobs(cfg: Config, s: State, w: WorkerId, m: Move)
    requires Structure(cfg, s) && Jobs(s) && Busy(s, w) && MayMove(cfg, s, w, m)
    ensures Jobs(Moved(s, w, m))
  {
    hide Structure, Jobs, Held, LaneStep, ChargeOk, LaneOk, WorkerOk, Moved, ChargeOf;
    var s' := Moved(s, w, m);
    MovedShape(s, w, m);
    MovedCharges(cfg, s, w, m);
    MyCharge(cfg, s, w);
    assert !s'.workers[w].phase.Told? && !s.workers[w].phase.Told?;
    hide NextPhase, MayMove;
    MoveCharge(ChargeOf(s, s.workers[w].lane), s'.workers[w], s.accepted, s.done.Keys);
    OneLaneJobs(cfg, s, s', w, {});
  }

  lemma TellOwnCharge(c: Charge, k': Worker, accepted: map<JobId, Job>, done: set<JobId>)
    requires ChargeOk(c, accepted, done) && c.k.Some? && c.l.active.Some? && c.k.value.job == c.l.active
    requires k' == c.k.value.(phase := k'.phase) && k'.phase.Told? && !c.k.value.phase.Told?
    ensures LaneStep(c, c.(k := Some(k')), done + {c.l.active.value.id})
    ensures Ours(c, accepted, {c.l.active.value.id})
  {
    var j0 := c.l.active.value;
    assert HeldOk(c, accepted, done, j0);
    forall j ensures StepOk(c, c.(k := Some(k')), done + {j0.id}, j) {
      assert HeldOk(c, accepted, done, j);
    }
  }

  lemma TellOwnKeepsJobs(cfg: Config, s: State, w: WorkerId)
    requires Structure(cfg, s) && Jobs(s) && Busy(s, w) && s.workers[w].phase.Released?
    ensures Jobs(TellOwn(s, w))
  {
    hide Structure, Jobs, Held, LaneStep, ChargeOk, Tell, Ours;
    MyCharge(cfg, s, w);
    var s' := TellOwn(s, w);
    var k := s.workers[w];
    TellKeys(s.done, {k.job.value.id}, Own(k.phase.o), {}, Own(k.phase.o));
    TellOwnCharge(ChargeOf(s, k.lane), s'.workers[w], s.accepted, s.done.Keys);
    OneLaneJobs(cfg, s, s', w, {k.job.value.id});
  }

  /** Draining loses only the cancelled: `Live` keeps the multiplicity of the rest. */
  lemma {:induction false} LiveCounts(jobs: seq<Job>, cancelled: set<JobId>, j: Job)
    ensures multiset(Live(jobs, cancelled))[j] == if j.id in cancelled then 0 else multiset(jobs)[j]
  {
    if jobs == [] {
    } else {
      var n := |jobs| - 1;
      LiveCounts(jobs[..n], cancelled, j);
      assert jobs == jobs[..n] + [jobs[n]];
    }
  }

  ghost function DrainedCharge(c: Charge, cancelled: set<JobId>): Charge
    requires c.k.Some?
  {
    var k := c.k.value;
    Charge(c.l.(inbox := []), Some(k.(consumed := k.consumed + Live(c.l.inbox, cancelled))))
  }

  lemma DrainedHolds(c: Charge, cancelled: set<JobId>, j: Job)
    requires c.k.Some?
    ensures Held(DrainedCharge(c, cancelled))[j] ==
            Held(c)[j] - if j.id in cancelled then multiset(c.l.inbox)[j] else 0
  {
    LiveCounts(c.l.inbox, cancelled, j);
  }

  lemma DrainStep(c: Charge, cancelled: set<JobId>, accepted: map<JobId, Job>, done: set<JobId>)
    requires ChargeOk(c, accepted, done) && c.k.Some? && c.k.value.phase.InRunner?
    ensures LaneStep(c, DrainedCharge(c, cancelled), done + DeadIds(c.l.inbox, cancelled))
    ensures Ours(c, accepted, DeadIds(c.l.inbox, cancelled))
  {
    var d := DeadIds(c.l.inbox, cancelled);
    var c' := DrainedCharge(c, cancelled);
    forall i | i in d ensures i in accepted && accepted[i].id == i && accepted[i] in c.l.inbox {
      var j :| j in c.l.inbox && j.id == i;
      assert HeldOk(c, accepted, done, j);
    }
    forall j | j in c.l.inbox && j.id in cancelled ensures j.id in d {
    }
    hide DeadIds, Live, StepOk;
    forall j ensures StepOk(c, c', done + d, j) {
      assert HeldOk(c, accepted, done, j);
      DrainJob(c, cancelled, accepted, done, d, j);
    }
  }

  lemma DrainJob(c: Charge, cancelled: set<JobId>, accepted: map<JobId, Job>, done: set<JobId>, d: set<JobId>, j: Job)
    requires HeldOk(c, accepted, done, j) && c.k.Some? && c.k.value.phase.InRunner?
    requires j in c.l.inbox && j.id in cancelled ==> j.id in d
    requires forall i :: i in d ==> i in cancelled && i in accepted && accepted[i] in c.l.inbox
    ensures StepOk(c, DrainedCharge(c, cancelled), done + d, j)
  {
    hide Live;
    DrainedHolds(c, cancelled, j);
    assert multiset(c.l.inbox)[j] == 0 || j in c.l.inbox;
  }

  lemma DrainKeepsJobs(cfg: Config, s: State, w: WorkerId)
    requires Structure(cfg, s) && Jobs(s) && Busy(s, w) && s.workers[w].phase.InRunner?
    ensures Jobs(Drain(s, w))
  {
    hide Structure, Jobs, Held, LaneStep, ChargeOk, Tell, Ours, Live, DeadIds;
    MyCharge(cfg, s, w);
    var s' := Drain(s, w);
    var c := ChargeOf(s, s.workers[w].lane);
    TellKeys(s.done, DeadIds(c.l.inbox, s.cancelled), Cancelled, {}, Cancelled);
    DrainStep(c, s.cancelled, s.accepted, s.done.Keys);
    OneLaneJobs(cfg, s, s', w, DeadIds(c.l.inbox, s.cancelled));
  }

  ghost function SettledCharge(c: Charge, o: Outcome): Charge
    requires c.k.Some? && c.k.value.job.Some?
  {
    var k := c.k.value;
    Charge(AfterTurn(c.l, k.job.value.approval, o), Some(Worker(k.lane, None, Waiting, [])))
  }

  lemma SettleStep(c: Charge, o: Outcome, accepted: map<JobId, Job>, done: set<JobId>)
    requires ChargeOk(c, accepted, done) && c.k.Some? && c.k.value.phase.Told?
    requires c.k.value.job.Some? && c.k.value.job == c.l.active
    ensures LaneStep(c, SettledCharge(c, o), done + Ids(c.k.value.consumed))
    ensures Ours(c, accepted, Ids(c.k.value.consumed))
  {
    var d := Ids(c.k.value.consumed);
    var c' := SettledCharge(c, o);
    forall i | i in d ensures i in accepted && accepted[i].id == i && accepted[i] in c.k.value.consumed {
      var j :| j in c.k.value.consumed && j.id == i;
      assert HeldOk(c, accepted, done, j);
    }
    forall j | j in c.k.value.consumed ensures j.id in d {
    }
    hide Ids;
    assert HeldOk(c, accepted, done, c.l.active.value);
    assert multiset(c.l.queue + c.l.inbox) == multiset(c.l.queue) + multiset(c.l.inbox);
    forall j ensures StepOk(c, c', done + d, j) {
      assert HeldOk(c, accepted, done, j);
      assert Held(c')[j] == multiset(c.l.queue)[j] + multiset(c.l.inbox)[j];
      if j in Held(c) {
        assert j.id in d ==> j in c.k.value.consumed;
        assert j == c.l.active.value || (j in c.k.value.consumed) || j in Held(c');
      }
    }
  }

  lemma SettleKeepsJobs(cfg: Config, s: State, w: WorkerId)
    requires Structure(cfg, s) && Jobs(s) && Busy(s, w) && s.workers[w].phase.Told?
    ensures Jobs(Settle(s, w, s.workers[w].phase.o))
  {
    hide Structure, Jobs, Held, LaneStep, ChargeOk, Tell, Ours, Ids;
    MyCharge(cfg, s, w);
    var k := s.workers[w];
    var s' := Settle(s, w, k.phase.o);
    TellKeys(s.done, Ids(k.consumed), Merged(k.phase.o), s.cancelled, Merged(Failed));
    SettleStep(ChargeOf(s, k.lane), k.phase.o, s.accepted, s.done.Keys);
    OneLaneJobs(cfg, s, s', w, Ids(k.consumed));
  }

  lemma TakeStep(c: Charge, accepted: map<JobId, Job>, done: set<JobId>)
    requires ChargeOk(c, accepted, done) && c.k.Some? && c.l.active.None? && c.k.value.consumed == [] && c.l.queue != []
    requires !c.k.value.phase.Told?
    ensures LaneStep(c, Charge(c.l.(queue := c.l.queue[1..], active := Some(c.l.queue[0])),
                               Some(Worker(c.k.value.lane, Some(c.l.queue[0]), Waiting, []))), done)
  {
    var c' := Charge(c.l.(queue := c.l.queue[1..], active := Some(c.l.queue[0])),
                     Some(Worker(c.k.value.lane, Some(c.l.queue[0]), Waiting, [])));
    assert c.l.queue == [c.l.queue[0]] + c.l.queue[1..];
    assert Held(c') == Held(c);
    forall j ensures StepOk(c, c', done, j) {
      assert HeldOk(c, accepted, done, j);
    }
  }

  lemma TakeKeepsJobs(cfg: Config, s: State, w: WorkerId)
    requires Structure(cfg, s) && Jobs(s) && OnLane(s, w) && s.workers[w].job.None?
    ensures Jobs(TakeNext(s, w))
  {
    hide Structure, Jobs, Held, LaneStep, ChargeOk;
    MyCharge(cfg, s, w);
    var s' := TakeNext(s, w);
    if Stops(s.heap[s.workers[w].lane]) {
      LeaveKeepsJobs(cfg, s, w);
    } else {
      TakeStep(ChargeOf(s, s.workers[w].lane), s.accepted, s.done.Keys);
      assert s'.done.Keys == s.done.Keys + {};
      OneLaneJobs(cfg, s, s', w, {});
    }
  }

  /** A lane and its charge when its idle goroutine ends: what waits for an approval still waits. */
  lemma LeaveStep(c: Charge, accepted: map<JobId, Job>, done: set<JobId>)
    requires ChargeOk(c, accepted, done)
    requires c.k.Some? ==> c.k.value.consumed == [] && !c.k.value.phase.Told?
    ensures LaneStep(c, Charge(c.l.(running := false), None), done)
  {
    var c' := Charge(c.l.(running := false), None);
    assert Held(c') == Held(c);
    forall j ensures StepOk(c, c', done, j) {
      assert HeldOk(c, accepted, done, j);
    }
  }

  lemma LeavingHoldsNothing(cfg: Config, s: State, w: WorkerId)
    requires Structure(cfg, s) && Jobs(s) && OnLane(s, w) && s.workers[w].job.None? && Stops(s.heap[s.workers[w].lane])
    ensures !s.heap[s.workers[w].lane].paused ==> Held(ChargeOf(s, s.workers[w].lane)) == multiset{}
    ensures var c, c' := ChargeOf(s, s.workers[w].lane), ChargeOf(TakeNext(s, w), s.workers[w].lane);
            LaneStep(c, c', s.done.Keys)
  {
    hide Structure, Jobs, LaneStep, ChargeOk;
    MyCharge(cfg, s, w);
    assert s.heap[s.workers[w].lane].inbox == [];
    LeaveStep(ChargeOf(s, s.workers[w].lane), s.accepted, s.done.Keys);
  }

  lemma LeaveKeepsJobs(cfg: Config, s: State, w: WorkerId)
    requires Structure(cfg, s) && Jobs(s) && OnLane(s, w) && s.workers[w].job.None? && Stops(s.heap[s.workers[w].lane])
    ensures Jobs(TakeNext(s, w))
  {
    LeavingHoldsNothing(cfg, s, w);
    Mine(cfg, s, w);
    assert WorkerAt(s, w);
    var s' := TakeNext(s, w);
    var here := s.workers[w].lane;
    hide Held, LaneStep, ChargeOk, LaneOk, WorkerOk, Stops;
    forall id | id in s.heap ensures LaneStep(ChargeOf(s, id), ChargeOf(s', id), s'.done.Keys) {
      assert SpawnedAt(s, id) && HeldAt(s, id);
      if id != here {
        assert ChargeOf(s', id) == ChargeOf(s, id);
        StandsStill(ChargeOf(s, id), s.accepted, s.done.Keys, s'.done.Keys);
      }
    }
    forall i | i in s'.done ensures i in s.accepted {
      assert AcceptedAt(s, i);
    }
    forall c | c in s.index && s.index[c] in s.heap && Held(ChargeOf(s, s.index[c])) != multiset{}
      ensures c in s'.index && s'.index[c] == s.index[c]
    {
      assert IndexOk(s);
    }
    hide HeldAt, AcceptedAt, ChargeOf, Structure, TakeNext;
    LaneStepsKeepJobs(cfg, s, s');
  }

  /** A waiting job that a cancellation finishes is held by the lane it waits in. */
  lemma WaitingIsHeld(cfg: Config, s: State, cs: set<Conversation>, i: JobId) returns (id: LaneId, j: Job)
    requires Structure(cfg, s) && Jobs(s) && i in WaitingIds(s, cs)
    ensures i in s.accepted && id in s.heap && Hit(s, id, cs) && j.id == i
    ensures j in s.heap[id].queue + s.heap[id].inbox && j in Held(ChargeOf(s, id))
  {
    id :| id in s.heap && Hit(s, id, cs) && i in Ids(s.heap[id].queue + s.heap[id].inbox);
    j :| j in s.heap[id].queue + s.heap[id].inbox && j.id == i;
    assert HeldAt(s, id) && HeldOk(ChargeOf(s, id), s.accepted, s.done.Keys, j);
  }

  lemma EmptiedStep(c: Charge, accepted: map<JobId, Job>, done: set<JobId>, done': set<JobId>)
    requires ChargeOk(c, accepted, done)
    requires forall j :: j in Held(c) ==> (j.id in done' <==> j.id in done || j in c.l.queue + c.l.inbox)
    ensures LaneStep(c, c.(l := Emptied(c.l)), done')
  {
    var c' := c.(l := Emptied(c.l));
    forall j ensures StepOk(c, c', done', j) {
      assert HeldOk(c, accepted, done, j);
      assert Held(c')[j] == Opt(c.l.active)[j] + multiset(Consumed(c))[j];
      assert j in c.l.queue + c.l.inbox <==> j in multiset(c.l.queue) + multiset(c.l.inbox);
    }
  }

  lemma CancelledLane(cfg: Config, s: State, cs: set<Conversation>, id: LaneId)
    requires Structure(cfg, s) && Jobs(s) && id in s.heap
    ensures id in CancelLanes(s, cs).heap
    ensures LaneStep(ChargeOf(s, id), ChargeOf(CancelLanes(s, cs), id), CancelLanes(s, cs).done.Keys)
  {
    var s' := CancelLanes(s, cs);
    var l := s.heap[id];
    var c := ChargeOf(s, id);
    TellKeys(s.done, WaitingIds(s, cs), Cancelled, {}, Cancelled);
    assert HeldAt(s, id);
    hide Tell, ActiveIds, Held, LaneStep, HeldAt, Structure, Jobs, ChargeOk;
    forall j | j in Held(c)
      ensures j.id in WaitingIds(s, cs) <==> Hit(s, id, cs) && j in l.queue + l.inbox
    {
      if Hit(s, id, cs) && j in l.queue + l.inbox {
        assert j.id in Ids(l.queue + l.inbox);
      }
      if j.id in WaitingIds(s, cs) {
        var id', j' := WaitingIsHeld(cfg, s, cs, j.id);
        HeldApart(cfg, s, id, j, id', j');
      }
    }
    hide WaitingIds;
    if Hit(s, id, cs) {
      EmptiedStep(c, s.accepted, s.done.Keys, s'.done.Keys);
    } else {
      StandsStill(c, s.accepted, s.done.Keys, s'.done.Keys);
    }
  }

  lemma CancelKeepsJobs(cfg: Config, s: State, cs: set<Conversation>)
    requires Structure(cfg, s) && Jobs(s)
    ensures Jobs(CancelLanes(s, cs))
  {
    var s' := CancelLanes(s, cs);
    TellKeys(s.done, WaitingIds(s, cs), Cancelled, {}, Cancelled);
    hide Tell, ActiveIds, LaneStep, Held, Hit, WaitingIds, ChargeOf, ChargeOk;
    forall id | id in s.heap ensures LaneStep(ChargeOf(s, id), ChargeOf(s', id), s'.done.Keys) {
      CancelledLane(cfg, s, cs, id);
    }
    forall i | i in s'.done ensures i in s.accepted {
      assert AcceptedAt(s, i);
      if i in WaitingIds(s, cs) {
        var _, _ := WaitingIsHeld(cfg, s, cs, i);
      }
    }
    LaneStepsKeepJobs(cfg, s, s');
  }

  /** A new lane with nothing in it. */
  lemma LaneAppears(s: State, s': State, id: LaneId)
    requires Jobs(s) && s.heap.Keys <= s'.heap.Keys <= s.heap.Keys + {id}
    requires forall n :: n in s.heap ==> ChargeOf(s', n) == ChargeOf(s, n)
    requires id in s'.heap && id !in s.heap ==> Held(ChargeOf(s', id)) == multiset{}
    requires s'.accepted == s.accepted && s'.done == s.done
    requires forall c :: c in s.index && s.index[c] in s.heap ==> c in s'.index && s'.index[c] == s.index[c]
    ensures Jobs(s')
  {
    hide Held, ChargeOf;
    forall n ensures HeldAt(s', n) {
      assert HeldAt(s, n);
    }
    hide ChargeOk;
    forall i ensures AcceptedAt(s', i) {
      assert AcceptedAt(s, i);
    }
  }

  lemma OpenedKeepsJobs(cfg: Config, s: State, job: Job, source: string, lane: LaneId)
    requires Structure(cfg, s) && Jobs(s) && !s.closed && lane !in s.heap
    ensures var (id, l) := LaneFor(s, job, source, lane);
            Jobs(s.(index := s.index[job.conversation := id], heap := s.heap[id := l]))
  {
    var (id, l) := LaneFor(s, job, source, lane);
    var s1 := s.(index := s.index[job.conversation := id], heap := s.heap[id := l]);
    assert SpawnedAt(s, lane) && IndexOk(s);
    hide Structure, Jobs;
    if id in s.heap {
      assert s1.index == s.index && s1.heap == s.heap;
      assert s1 == s;
    } else {
      assert Held(ChargeOf(s1, id)) == multiset{};
      hide Held, IndexOk;
      forall n | n in s.heap ensures ChargeOf(s1, n) == ChargeOf(s, n) {
      }
      hide ChargeOf;
      LaneAppears(s, s1, id);
    }
  }

  lemma EnqueuedHolds(l: Lane, job: Job, policy: Policy)
    ensures var l' := Enqueued(l, job, policy);
            && multiset(l'.queue) + multiset(l'.inbox) == multiset(l.queue) + multiset(l.inbox) + multiset{job}
            && l'.active == l.active && l'.conversation == l.conversation
  {
  }

  ghost function AdmittedCharge(c: Charge, id: LaneId, job: Job, policy: Policy): Charge {
    var starts := Starts(c.l, job, policy);
    Charge(Enqueued(c.l, job, policy).(running := c.l.running || starts),
           if starts then Some(Worker(id, None, Waiting, [])) else c.k)
  }

  lemma ChargeRuns(cfg: Config, s: State, id: LaneId)
    requires Structure(cfg, s) && id in s.heap
    ensures ChargeOf(s, id).k.Some? <==> s.heap[id].running
    ensures ChargeOf(s, id).k.Some? ==> ChargeOf(s, id).k.value.job == s.heap[id].active
    ensures id in s.spawned ==> s.spawned[id] in s.workers
  {
    assert SpawnedAt(s, id);
    if id in s.spawned {
      assert WorkerAt(s, s.spawned[id]);
    }
  }

  lemma AdmittedIs(cfg: Config, s: State, id: LaneId, job: Job, policy: Policy, worker: WorkerId)
    requires Structure(cfg, s) && id in s.heap && worker !in s.workers
    ensures ChargeOf(Admitted(s, id, job, policy, worker), id) == AdmittedCharge(ChargeOf(s, id), id, job, policy)
    ensures ChargeOf(s, id).k.Some? ==> s.heap[id].running && ChargeOf(s, id).k.value.job == s.heap[id].active
  {
    hide Structure, Enqueued, Interrupts;
    ChargeRuns(cfg, s, id);
    var s' := Admitted(s, id, job, policy, worker);
    if Starts(s.heap[id], job, policy) {
      assert s'.spawned[id] == worker && s'.workers[worker] == Worker(id, None, Waiting, []);
    } else {
      hide Starts;
      assert s'.spawned == s.spawned && s'.workers == s.workers;
    }
  }

  lemma AdmittedLeaves(cfg: Config, s: State, id: LaneId, job: Job, policy: Policy, worker: WorkerId, n: LaneId)
    requires Structure(cfg, s) && id in s.heap && worker !in s.workers && n in s.heap && n != id
    ensures ChargeOf(Admitted(s, id, job, policy, worker), n) == ChargeOf(s, n)
  {
    assert SpawnedAt(s, n);
    hide Structure, Enqueued, Interrupts, Starts, WorkerOk;
  }

  lemma AdmittedHolds(c: Charge, id: LaneId, job: Job, policy: Policy)
    requires c.k.Some? ==> c.l.running
    ensures var c' := AdmittedCharge(c, id, job, policy);
            && Held(c') == Held(c) + multiset{job} && c'.l.conversation == c.l.conversation
            && forall j :: Cleaning(c', j) <==> Cleaning(c, j)
  {
    EnqueuedHolds(c.l, job, policy);
    hide Enqueued;
  }

  lemma JoinedCharge(c: Charge, c': Charge, job: Job, accepted: map<JobId, Job>, done: set<JobId>)
    requires ChargeOk(c, accepted, done) && Held(c') == Held(c) + multiset{job} && !Cleaning(c, job)
    requires c'.l.conversation == c.l.conversation == job.conversation
    requires job.id !in accepted && job.id !in done && forall j :: Cleaning(c', j) <==> Cleaning(c, j)
    ensures ChargeOk(c', accepted[job.id := job], done)
  {
    hide Held, Cleaning;
    var accepted' := accepted[job.id := job];
    forall j ensures HeldOk(c', accepted', done, j) {
      assert HeldOk(c, accepted, done, j) && HeldOk(c, accepted, done, job);
    }
  }

  /** A new job joins lane `id`, and every other lane stands still. */
  lemma JobJoins(s: State, s': State, id: LaneId, job: Job)
    requires Jobs(s) && id in s.heap && s'.heap.Keys == s.heap.Keys && s'.index == s.index && s'.done == s.done
    requires Linked(s, id) && job.conversation == s.heap[id].conversation
    requires job.id !in s.accepted && s'.accepted == s.accepted[job.id := job]
    requires forall n :: n in s.heap && n != id ==> ChargeOf(s', n) == ChargeOf(s, n)
    requires ChargeOk(ChargeOf(s', id), s'.accepted, s'.done.Keys)
    requires Held(ChargeOf(s', id)) == Held(ChargeOf(s, id)) + multiset{job}
    ensures Jobs(s')
  {
    hide Held, Cleaning, ChargeOf;
    forall n ensures HeldAt(s', n) {
      assert HeldAt(s, n);
      if n in s.heap && n != id {
        forall j ensures HeldOk(ChargeOf(s', n), s'.accepted, s'.done.Keys, j) {
          assert HeldOk(ChargeOf(s, n), s.accepted, s.done.Keys, j);
        }
      }
    }
    hide HeldOk, ChargeOk;
    forall i ensures AcceptedAt(s', i) {
      assert AcceptedAt(s, i);
    }
  }

  lemma NewJobIsNotCleaning(c: Charge, job: Job, accepted: map<JobId, Job>, done: set<JobId>)
    requires ChargeOk(c, accepted, done) && job.id !in accepted && (c.k.Some? ==> c.k.value.job == c.l.active)
    ensures !Cleaning(c, job)
  {
    assert HeldOk(c, accepted, done, job);
  }

  lemma AdmittedRest(s: State, id: LaneId, job: Job, policy: Policy, worker: WorkerId)
    requires id in s.heap
    ensures var s' := Admitted(s, id, job, policy, worker);
            && s'.heap.Keys == s.heap.Keys && s'.index == s.index && s'.done == s.done
            && s'.accepted == s.accepted[job.id := job]
  {
    hide Starts, Enqueued, Interrupts;
  }

  lemma AdmittedKeepsJobs(cfg: Config, s: State, id: LaneId, job: Job, policy: Policy, worker: WorkerId)
    requires Structure(cfg, s) && Jobs(s) && !s.closed && id in s.heap && Linked(s, id)
    requires job.id !in s.accepted && worker !in s.workers && job.conversation == s.heap[id].conversation
    ensures Jobs(Admitted(s, id, job, policy, worker))
  {
    hide Starts, Enqueued, Interrupts, Admitted, Held, Cleaning;
    var s' := Admitted(s, id, job, policy, worker);
    AdmittedRest(s, id, job, policy, worker);
    var c, c' := ChargeOf(s, id), ChargeOf(s', id);
    assert HeldAt(s, id) && AcceptedAt(s, job.id);
    AdmittedIs(cfg, s, id, job, policy, worker);
    hide Jobs, Structure, ChargeOf, ChargeOk;
    NewJobIsNotCleaning(c, job, s.accepted, s.done.Keys);
    forall n | n in s.heap && n != id ensures ChargeOf(s', n) == ChargeOf(s, n) {
      AdmittedLeaves(cfg, s, id, job, policy, worker, n);
    }
    AdmittedHolds(c, id, job, policy);
    hide AdmittedCharge;
    JoinedCharge(c, c', job, s.accepted, s.done.Keys);
    JobJoins(s, s', id, job);
  }

  lemma SubmitKeepsJobs(cfg: Config, s: State, job: Job, policy: Policy, source: string, contextDone: bool,
                        lane: LaneId, worker: WorkerId)
    requires Structure(cfg, s) && Jobs(s) && Fresh(s, job, lane, worker)
    ensures Jobs(Submit(cfg, s, job, policy, source, contextDone, lane, worker).0)
  {
    hide Structure, Jobs, LaneFor, Admitted;
    if !s.closed && !contextDone {
      OpenedKeepsStructure(cfg, s, job, source, lane);
      OpenedKeepsJobs(cfg, s, job, source, lane);
      var (id, l) := LaneFor(s, job, source, lane);
      var s1 := s.(index := s.index[job.conversation := id], heap := s.heap[id := l]);
      if l.source == source && |l.queue| + |l.inbox| < cfg.capacity {
        AdmittedKeepsJobs(cfg, s1, id, job, policy, worker);
      }
    }
  }
}
