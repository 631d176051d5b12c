/**
  What every reachable scheduler state guarantees: one turn per conversation inside its slot pool, no job lost
  or run twice, nothing stranded, and nothing unfinished behind a completed close.
 */
module SchedulerSafety {
  import opened Common
  import opened Scheduler
  import opened SchedulerRuns

  // ---------------------------------------------------------------------------
  // Slot pools count their holders
  // ---------------------------------------------------------------------------

  ghost predicate Holds(k: Worker, background: bool) {
    && k.job.Some? && k.job.value.background == background
    && match k.phase
       case HasSlot => true
       case InRunner(acquired) => acquired
       case Returned(acquired, _) => acquired
       case _ => false
  }

  ghost function Holders(workers: map<WorkerId, Worker>, background: bool): set<WorkerId> {
    set w | w in workers && Holds(workers[w], background)
  }

  ghost predicate PoolOk(cfg: Config, s: State, background: bool) {
    Pool(s, background) == |Holders(s.workers, background)| <= Slots(cfg, background)
  }

  ghost predicate Pools(cfg: Config, s: State) { PoolOk(cfg, s, false) && PoolOk(cfg, s, true) }

  lemma HoldersPut(workers: map<WorkerId, Worker>, w: WorkerId, k: Worker, background: bool)
    ensures |Holders(workers[w := k], background)| ==
            |Holders(workers, background)| - Bit(w in workers && Holds(workers[w], background)) + Bit(Holds(k, background))
  {
    hide Holds;
    var a, b := Holders(workers, background), Holders(workers[w := k], background);
    forall v ensures v in a - {w} <==> v in b - {w} {
    }
    OneApart(a, b, w);
  }

  lemma MoveKeepsPools(cfg: Config, s: State, w: WorkerId, m: Move)
    requires Pools(cfg, s) && Busy(s, w) && MayMove(cfg, s, w, m)
    ensures Pools(cfg, Moved(s, w, m))
  {
    var s' := Moved(s, w, m);
    var k := s.workers[w];
    var k' := k.(phase := NextPhase(k.phase, m));
    var b := k.job.value.background;
    MoveChangesHolds(cfg, s, w, m);
    assert !Holds(k, !b) && !Holds(k', !b);
    hide Holds, Holders, NextPool, NextPhase, MayMove;
    HoldersPut(s.workers, w, k', b);
    HoldersPut(s.workers, w, k', !b);
    assert PoolOk(cfg, s, b) && PoolOk(cfg, s, !b);
    assert s'.workers == s.workers[w := k'];
    assert Pool(s', b) == NextPool(Pool(s, b), k.phase, m) && Pool(s', !b) == Pool(s, !b);
    hide Moved, Pool;
    assert PoolOk(cfg, s', b) && PoolOk(cfg, s', !b);
  }

  /** The pool's count moves with the worker's hold on it. */
  lemma MoveChangesHolds(cfg: Config, s: State, w: WorkerId, m: Move)
    requires Pools(cfg, s) && Busy(s, w) && MayMove(cfg, s, w, m)
    ensures var k := s.workers[w];
            var b := k.job.value.background;
            && NextPool(Pool(s, b), k.phase, m) ==
               Pool(s, b) - Bit(Holds(k, b)) + Bit(Holds(k.(phase := NextPhase(k.phase, m)), b))
            && NextPool(Pool(s, b), k.phase, m) <= Slots(cfg, b)
  {
    var k := s.workers[w];
    var b := k.job.value.background;
    assert PoolOk(cfg, s, b);
    if Holds(k, b) {
      assert w in Holders(s.workers, b);
      assert Pool(s, b) > 0;
    }
  }

  /** Steps that neither take nor give back a slot. */
  lemma PutKeepsPools(cfg: Config, s: State, s': State, w: WorkerId)
    requires Pools(cfg, s) && w in s'.workers && s'.workers == s.workers[w := s'.workers[w]]
    requires s'.foreground == s.foreground && s'.background == s.background
    requires !Holds(s'.workers[w], false) && !Holds(s'.workers[w], true)
    requires w in s.workers ==> !Holds(s.workers[w], false) && !Holds(s.workers[w], true)
    ensures Pools(cfg, s')
  {
    HoldersPut(s.workers, w, s'.workers[w], false);
    HoldersPut(s.workers, w, s'.workers[w], true);
    hide Holders;
  }

  lemma TurnKeepsPools(cfg: Config, s: State, w: WorkerId)
    requires Pools(cfg, s)
    ensures OnLane(s, w) && s.workers[w].job.None? ==> Pools(cfg, TakeNext(s, w))
    ensures Busy(s, w) && s.workers[w].phase.InRunner? ==> Pools(cfg, Drain(s, w))
    ensures Busy(s, w) && s.workers[w].phase.Released? ==> Pools(cfg, TellOwn(s, w))
    ensures Busy(s, w) && s.workers[w].phase.Told? ==> Pools(cfg, Settle(s, w, s.workers[w].phase.o))
  {
    hide Tell, Live, DeadIds, Ids, AfterTurn;
    if OnLane(s, w) && s.workers[w].job.None? {
      if Stops(s.heap[s.workers[w].lane]) {
        assert Holders(TakeNext(s, w).workers, false) == Holders(s.workers, false);
        assert Holders(TakeNext(s, w).workers, true) == Holders(s.workers, true);
      } else {
        PutKeepsPools(cfg, s, TakeNext(s, w), w);
      }
    } else if Busy(s, w) && s.workers[w].phase.InRunner? {
      var k' := Drain(s, w).workers[w];
      HoldersPut(s.workers, w, k', false);
      HoldersPut(s.workers, w, k', true);
      hide Holders;
    } else if Busy(s, w) && s.workers[w].phase.Released? {
      PutKeepsPools(cfg, s, TellOwn(s, w), w);
    } else if Busy(s, w) && s.workers[w].phase.Told? {
      PutKeepsPools(cfg, s, Settle(s, w, s.workers[w].phase.o), w);
    }
  }

  lemma SubmitKeepsPools(cfg: Config, s: State, job: Job, policy: Policy, source: string, contextDone: bool,
                         lane: LaneId, worker: WorkerId)
    requires Pools(cfg, s) && Fresh(s, job, lane, worker)
    ensures Pools(cfg, Submit(cfg, s, job, policy, source, contextDone, lane, worker).0)
  {
    hide Enqueued, Starts, Interrupts, LaneFor, Holders, Pools;
    var s' := Submit(cfg, s, job, policy, source, contextDone, lane, worker).0;
    if worker in s'.workers {
      PutKeepsPools(cfg, s, s', worker);
    } else {
      assert s'.workers == s.workers && s'.foreground == s.foreground && s'.background == s.background;
      SamePools(cfg, s, s');
    }
  }

  lemma SamePools(cfg: Config, s: State, s': State)
    requires Pools(cfg, s) && s'.workers == s.workers && s'.foreground == s.foreground && s'.background == s.background
    ensures Pools(cfg, s')
  {
  }

  // ---------------------------------------------------------------------------
  // A job is given to the runner at most once, and its verdict says whether it was
  // ---------------------------------------------------------------------------

  ghost predicate Early(k: Worker) { k.phase.Waiting? || Chosen(k.phase) }

  ghost predicate Unstarted(c: Charge, j: Job) {
    j in c.l.queue || j in c.l.inbox || (c.k.Some? && c.k.value.job == Some(j) && Early(c.k.value))
  }

  ghost predicate Began(p: Phase) {
    match p
    case InRunner(_) => true
    case Returned(_, o) => o != Failed
    case Released(o) => o != Failed
    case Told(o) => o != Failed
    case _ => false
  }

  ghost predicate Started(c: Charge, j: Job) {
    c.k.Some? && (j in c.k.value.consumed || (c.k.value.job == Some(j) && Began(c.k.value.phase)))
  }

  ghost predicate HandedOk(c: Charge, handed: multiset<Job>, j: Job) {
    (Unstarted(c, j) ==> handed[j] == 0) && (Started(c, j) ==> handed[j] == 1)
  }

  ghost predicate HandedAt(r: Run, id: LaneId) {
    id in r.s.heap ==> forall j :: HandedOk(ChargeOf(r.s, id), r.handed, j)
  }

  ghost predicate Matches(v: Verdict, n: nat) {
    match v
    case Cancelled => n == 0
    case Own(o) => o != Failed ==> n == 1
    case Merged(_) => n == 1
  }

  ghost predicate VerdictAt(r: Run, i: JobId) {
    i in r.s.done && i in r.s.accepted ==> Matches(r.s.done[i], r.handed[r.s.accepted[i]])
  }

  ghost predicate CountAt(r: Run, j: Job) {
    r.handed[j] <= 1 && (r.handed[j] == 1 ==> j.id in r.s.accepted && r.s.accepted[j.id] == j)
  }

  ghost predicate Handed(r: Run) {
    (forall id :: HandedAt(r, id)) && (forall i :: VerdictAt(r, i)) && (forall j :: CountAt(r, j))
  }

  /** Nothing newly handed or finished concerns the jobs of a lane that stands still. */
  lemma UnhandedStep(r: Run, r': Run)
    requires Handed(r) && r'.handed == r.handed && r'.s.heap.Keys == r.s.heap.Keys && r'.s.accepted == r.s.accepted
    requires forall id, j :: id in r.s.heap ==>
               && (Unstarted(ChargeOf(r'.s, id), j) ==> Unstarted(ChargeOf(r.s, id), j))
               && (Started(ChargeOf(r'.s, id), j) ==> Started(ChargeOf(r.s, id), j))
    requires forall i :: i in r'.s.done && i in r.s.accepted ==>
               (i in r.s.done && r'.s.done[i] == r.s.done[i]) || Matches(r'.s.done[i], r.handed[r.s.accepted[i]])
    ensures Handed(r')
  {
    hide Unstarted, Started, ChargeOf, Matches;
    forall id ensures HandedAt(r', id) {
      assert HandedAt(r, id);
      if id in r.s.heap {
        forall j ensures HandedOk(ChargeOf(r'.s, id), r'.handed, j) {
          assert HandedOk(ChargeOf(r.s, id), r.handed, j);
        }
      }
    }
    forall i ensures VerdictAt(r', i) {
      assert VerdictAt(r, i);
    }
    forall j ensures CountAt(r', j) {
      assert CountAt(r, j);
    }
  }

  /** A job not yet given to the runner is not finished either. */
  lemma UnstartedIsOpen(c: Charge, accepted: map<JobId, Job>, done: set<JobId>, j: Job)
    requires ChargeOk(c, accepted, done) && Unstarted(c, j)
    requires c.k.Some? ==> c.k.value.job == c.l.active
    ensures j in Held(c) && j.id !in done
    ensures j.id in accepted && accepted[j.id] == j
  {
    assert HeldOk(c, accepted, done, j);
  }

  lemma StartedIsHeld(c: Charge, accepted: map<JobId, Job>, done: set<JobId>, j: Job)
    requires ChargeOk(c, accepted, done) && Started(c, j)
    requires c.k.Some? ==> c.k.value.job == c.l.active
    ensures j in Held(c) && j.id in accepted && accepted[j.id] == j && !Unstarted(c, j)
  {
    assert HeldOk(c, accepted, done, j);
  }

  /** A goroutine's job is its lane's active one. */
  lemma ChargePaired(cfg: Config, s: State, id: LaneId)
    requires Structure(cfg, s) && Jobs(s) && id in s.heap
    ensures var c := ChargeOf(s, id);
            ChargeOk(c, s.accepted, s.done.Keys) && (c.k.Some? ==> c.k.value.job == c.l.active)
  {
    hide ChargeOk;
    assert SpawnedAt(s, id) && HeldAt(s, id);
    if id in s.spawned {
      assert WorkerAt(s, s.spawned[id]);
    }
  }

  /** The runner is given the unstarted jobs `d` of lane `here`. */
  lemma HandingStep(cfg: Config, r: Run, r': Run, here: LaneId, d: multiset<Job>)
    requires Structure(cfg, r.s) && Jobs(r.s) && Handed(r) && here in r.s.heap
    requires r'.handed == r.handed + d && r'.s.heap.Keys == r.s.heap.Keys && r'.s.accepted == r.s.accepted
    requires forall id :: id in r.s.heap && id != here ==> ChargeOf(r'.s, id) == ChargeOf(r.s, id)
    requires forall j :: j in d ==> d[j] == 1 && Unstarted(ChargeOf(r.s, here), j)
    requires forall j :: HandedOk(ChargeOf(r'.s, here), r'.handed, j)
    requires forall i :: i in r'.s.done && i in r.s.accepted ==>
               (i in r.s.done && r'.s.done[i] == r.s.done[i]) || Matches(r'.s.done[i], r'.handed[r.s.accepted[i]])
    ensures Handed(r')
  {
    var c := ChargeOf(r.s, here);
    ChargePaired(cfg, r.s, here);
    forall j | j in d
      ensures j in Held(c) && j.id !in r.s.done && j.id in r.s.accepted && r.s.accepted[j.id] == j && r.handed[j] == 0
    {
      UnstartedIsOpen(c, r.s.accepted, r.s.done.Keys, j);
      assert HandedAt(r, here) && HandedOk(c, r.handed, j);
    }
    hide Matches, Held, Structure, Jobs, ChargeOk;
    forall id ensures HandedAt(r', id) {
      assert HandedAt(r, id);
      if id in r.s.heap && id != here {
        var c' := ChargeOf(r.s, id);
        ChargePaired(cfg, r.s, id);
        forall j ensures HandedOk(c', r'.handed, j) {
          assert HandedOk(c', r.handed, j);
          if j in d && (Unstarted(c', j) || Started(c', j)) {
            if Unstarted(c', j) {
              UnstartedIsOpen(c', r.s.accepted, r.s.done.Keys, j);
            } else {
              StartedIsHeld(c', r.s.accepted, r.s.done.Keys, j);
            }
            HeldApart(cfg, r.s, here, j, id, j);
          }
        }
      }
    }
    hide HandedOk, Unstarted, Started;
    forall i ensures VerdictAt(r', i) {
      assert VerdictAt(r, i);
      AcceptedHas(r.s, i);
    }
    forall j ensures CountAt(r', j) {
      assert CountAt(r, j);
    }
  }

  lemma AcceptedHas(s: State, i: JobId)
    requires Jobs(s)
    ensures (i in s.accepted ==> s.accepted[i].id == i) && (i in s.done ==> i in s.accepted)
  {
    assert AcceptedAt(s, i);
  }

  lemma MoveKeepsHanded(cfg: Config, r: Run, w: WorkerId, m: Move)
    requires Structure(cfg, r.s) && Jobs(r.s) && Handed(r)
    ensures Handed(Apply(cfg, r, DoMove(w, m)))
  {
    var r' := Apply(cfg, r, DoMove(w, m));
    if Busy(r.s, w) && MayMove(cfg, r.s, w, m) {
      var here := r.s.workers[w].lane;
      MyCharge(cfg, r.s, w);
      MovedCharges(cfg, r.s, w, m);
      MovedShape(r.s, w, m);
      var c, c' := ChargeOf(r.s, here), ChargeOf(r'.s, here);
      assert HandedAt(r, here);
      hide Structure, Jobs, ChargeOk, Handed, LaneOk, ChargeOf, Moved, Held;
      if m.Begin? {
        BeginCharge(c, r.s.accepted, r.s.done.Keys, r.handed, r'.s.workers[w]);
        hide HandedOk, Unstarted;
        HandingStep(cfg, r, r', here, multiset{r.s.workers[w].job.value});
      } else {
        forall j
          ensures Unstarted(c', j) ==> Unstarted(c, j)
          ensures Started(c', j) ==> Started(c, j)
        {
        }
        hide Unstarted, Started, HandedOk;
        UnhandedStep(r, r');
      }
    }
  }

  lemma BeginCharge(c: Charge, accepted: map<JobId, Job>, done: set<JobId>, handed: multiset<Job>, k': Worker)
    requires ChargeOk(c, accepted, done) && c.k.Some? && c.k.value.job.Some? && c.k.value.job == c.l.active
    requires forall j :: HandedOk(c, handed, j)
    requires Chosen(c.k.value.phase) && c.k.value.consumed == []
    requires k' == c.k.value.(phase := InRunner(c.k.value.phase.HasSlot?))
    ensures forall j :: HandedOk(c.(k := Some(k')), handed + multiset{c.l.active.value}, j)
    ensures Unstarted(c, c.l.active.value)
  {
    var j0 := c.l.active.value;
    assert HeldOk(c, accepted, done, j0) && HandedOk(c, handed, j0);
    var c', handed' := c.(k := Some(k')), handed + multiset{j0};
    forall j ensures HandedOk(c', handed', j) {
      assert HandedOk(c, handed, j) && HeldOk(c, accepted, done, j);
    }
  }

  lemma DrainCharge(c: Charge, accepted: map<JobId, Job>, done: set<JobId>, handed: multiset<Job>, cancelled: set<JobId>)
    requires ChargeOk(c, accepted, done) && c.k.Some? && c.k.value.phase.InRunner?
    requires forall j :: HandedOk(c, handed, j)
    ensures var d := multiset(Live(c.l.inbox, cancelled));
            && (forall j :: HandedOk(DrainedCharge(c, cancelled), handed + d, j))
            && (forall j :: j in d ==> d[j] == 1 && Unstarted(c, j) && j.id !in cancelled)
  {
    hide Live, ChargeOk;
    forall j
      ensures HandedOk(DrainedCharge(c, cancelled), handed + multiset(Live(c.l.inbox, cancelled)), j)
      ensures var d := multiset(Live(c.l.inbox, cancelled)); j in d ==> d[j] == 1 && Unstarted(c, j) && j.id !in cancelled
    {
      assert HandedOk(c, handed, j);
      HeldInCharge(c, accepted, done, j);
      DrainedJob(c, accepted, done, handed, cancelled, j);
    }
  }

  lemma HeldInCharge(c: Charge, accepted: map<JobId, Job>, done: set<JobId>, j: Job)
    requires ChargeOk(c, accepted, done)
    ensures HeldOk(c, accepted, done, j)
  {
    hide HeldOk;
  }

  lemma DrainedJob(c: Charge, accepted: map<JobId, Job>, done: set<JobId>, handed: multiset<Job>, cancelled: set<JobId>,
                   j: Job)
    requires HeldOk(c, accepted, done, j) && HandedOk(c, handed, j) && c.k.Some? && c.k.value.phase.InRunner?
    ensures var d := multiset(Live(c.l.inbox, cancelled));
            && HandedOk(DrainedCharge(c, cancelled), handed + d, j)
            && (j in d ==> d[j] == 1 && Unstarted(c, j) && j.id !in cancelled)
  {
    LiveCounts(c.l.inbox, cancelled, j);
    hide Live;
    assert j in c.l.inbox ==> j in Held(c);
    assert multiset(c.l.inbox)[j] <= 1;
    assert j in Live(c.l.inbox, cancelled) <==> j in multiset(Live(c.l.inbox, cancelled));
  }

  /** A drain changes one lane's inbox and its worker's catch. */
  lemma DrainedCharges(cfg: Config, s: State, w: WorkerId)
    requires Structure(cfg, s) && Jobs(s) && Busy(s, w) && s.workers[w].phase.InRunner?
    ensures ChargeOf(Drain(s, w), s.workers[w].lane) ==
            DrainedCharge(Charge(s.heap[s.workers[w].lane], Some(s.workers[w])), s.cancelled)
    ensures forall id :: id in s.heap && id != s.workers[w].lane ==> ChargeOf(Drain(s, w), id) == ChargeOf(s, id)
  {
    MyCharge(cfg, s, w);
    hide Structure, Jobs, ChargeOk, LaneOk, Live, Tell, DeadIds;
    forall id | id in s.heap && id != s.workers[w].lane ensures ChargeOf(Drain(s, w), id) == ChargeOf(s, id) {
      OthersStand(cfg, s, Drain(s, w), w, id);
    }
  }

  /** The verdicts a drain adds are those of dead messages, which it does not hand over. */
  lemma DrainVerdicts(cfg: Config, r: Run, w: WorkerId)
    requires Structure(cfg, r.s) && Jobs(r.s) && Handed(r) && Busy(r.s, w)
    ensures var s', handed' := Drain(r.s, w), r.handed + Drained(r.s, w);
            && s'.heap.Keys == r.s.heap.Keys && s'.accepted == r.s.accepted
            && forall i :: i in s'.done && i in r.s.accepted ==>
                 (i in r.s.done && s'.done[i] == r.s.done[i]) || Matches(s'.done[i], handed'[r.s.accepted[i]])
  {
    hide Structure, Jobs, Handed, Live, DeadIds;
    var here := r.s.workers[w].lane;
    forall i | i in Drain(r.s, w).done && i in r.s.accepted && i !in r.s.done
      ensures Matches(Drain(r.s, w).done[i], (r.handed + Drained(r.s, w))[r.s.accepted[i]])
    {
      DeadWasUnstarted(cfg, r, here, r.s.heap[here].inbox, i);
    }
  }

  lemma LaneIsHanded(r: Run, id: LaneId)
    requires Handed(r) && id in r.s.heap
    ensures forall j :: HandedOk(ChargeOf(r.s, id), r.handed, j)
  {
    hide HandedOk, ChargeOf;
    assert HandedAt(r, id);
  }

  lemma DrainHands(cfg: Config, r: Run, w: WorkerId)
    requires Structure(cfg, r.s) && Jobs(r.s) && Handed(r) && Busy(r.s, w) && r.s.workers[w].phase.InRunner?
    ensures Handed(Run(Drain(r.s, w), r.handed + Drained(r.s, w)))
  {
    hide Structure, Jobs, ChargeOk, Handed, LaneOk, Live, HandedOk, ChargeOf, DrainedCharge, Drain, Unstarted, Matches;
    var here := r.s.workers[w].lane;
    MyCharge(cfg, r.s, w);
    DrainedCharges(cfg, r.s, w);
    DrainVerdicts(cfg, r, w);
    LaneIsHanded(r, here);
    assert Drained(r.s, w) == multiset(Live(ChargeOf(r.s, here).l.inbox, r.s.cancelled));
    DrainCharge(ChargeOf(r.s, here), r.s.accepted, r.s.done.Keys, r.handed, r.s.cancelled);
    HandingStep(cfg, r, Run(Drain(r.s, w), r.handed + Drained(r.s, w)), here, Drained(r.s, w));
  }

  lemma DrainKeepsHanded(cfg: Config, r: Run, w: WorkerId)
    requires Structure(cfg, r.s) && Jobs(r.s) && Handed(r)
    ensures Handed(Apply(cfg, r, DoDrain(w)))
  {
    hide Structure, Jobs, Handed, Drain, Drained;
    if Busy(r.s, w) && r.s.workers[w].phase.InRunner? {
      DrainHands(cfg, r, w);
    }
  }

  /** A message dropped as dead from an inbox was never given to the runner, and is not now. */
  lemma DeadWasUnstarted(cfg: Config, r: Run, here: LaneId, inbox: seq<Job>, i: JobId)
    requires Structure(cfg, r.s) && Jobs(r.s) && Handed(r) && here in r.s.heap && inbox == r.s.heap[here].inbox
    requires i in DeadIds(inbox, r.s.cancelled)
    ensures i in r.s.accepted && r.handed[r.s.accepted[i]] == 0
    ensures r.s.accepted[i] !in multiset(Live(inbox, r.s.cancelled))
  {
    var j :| j in inbox && j.id == i;
    var c := ChargeOf(r.s, here);
    ChargePaired(cfg, r.s, here);
    assert Unstarted(c, j);
    UnstartedIsOpen(c, r.s.accepted, r.s.done.Keys, j);
    assert HandedAt(r, here) && HandedOk(c, r.handed, j);
    LiveCounts(inbox, r.s.cancelled, j);
  }

  lemma TellOwnKeepsHanded(cfg: Config, r: Run, w: WorkerId)
    requires Structure(cfg, r.s) && Jobs(r.s) && Handed(r)
    ensures Handed(Apply(cfg, r, DoTellOwn(w)))
  {
    var r' := Apply(cfg, r, DoTellOwn(w));
    if Busy(r.s, w) && r.s.workers[w].phase.Released? {
      var k := r.s.workers[w];
      var here := k.lane;
      MyCharge(cfg, r.s, w);
      var c := ChargeOf(r.s, here);
      assert HandedAt(r, here) && HandedOk(c, r.handed, k.job.value);
      assert HeldOk(c, r.s.accepted, r.s.done.Keys, k.job.value);
      assert k.phase.o != Failed ==> r.handed[k.job.value] == 1;
      hide Structure, Jobs, ChargeOk, Handed, LaneOk, HandedOk;
      assert ChargeOf(r'.s, here) == c.(k := Some(k.(phase := Told(k.phase.o))));
      forall id, j | id in r.s.heap
        ensures Unstarted(ChargeOf(r'.s, id), j) ==> Unstarted(ChargeOf(r.s, id), j)
        ensures Started(ChargeOf(r'.s, id), j) ==> Started(ChargeOf(r.s, id), j)
      {
        if id != here {
          OthersStand(cfg, r.s, r'.s, w, id);
        }
      }
      hide ChargeOf, Unstarted, Started, Held;
      UnhandedStep(r, r');
    }
  }

  lemma SettleKeepsHanded(cfg: Config, r: Run, w: WorkerId)
    requires Structure(cfg, r.s) && Jobs(r.s) && Handed(r)
    ensures Handed(Apply(cfg, r, DoSettle(w)))
  {
    var r' := Apply(cfg, r, DoSettle(w));
    if Busy(r.s, w) && r.s.workers[w].phase.Told? {
      var k := r.s.workers[w];
      var here := k.lane;
      MyCharge(cfg, r.s, w);
      var c := ChargeOf(r.s, here);
      assert HandedAt(r, here);
      forall i | i in Ids(k.consumed) ensures i in r.s.accepted && r.handed[r.s.accepted[i]] == 1 {
        var j :| j in k.consumed && j.id == i;
        assert HeldOk(c, r.s.accepted, r.s.done.Keys, j) && HandedOk(c, r.handed, j);
      }
      hide Structure, Jobs, ChargeOk, Handed, LaneOk, HandedOk, Ids;
      assert ChargeOf(r'.s, here) == SettledCharge(c, k.phase.o);
      forall id, j | id in r.s.heap
        ensures Unstarted(ChargeOf(r'.s, id), j) ==> Unstarted(ChargeOf(r.s, id), j)
        ensures Started(ChargeOf(r'.s, id), j) ==> Started(ChargeOf(r.s, id), j)
      {
        if id != here {
          OthersStand(cfg, r.s, r'.s, w, id);
        }
      }
      hide ChargeOf, Unstarted, Started, Held;
      UnhandedStep(r, r');
    }
  }

  lemma TakeKeepsHanded(cfg: Config, r: Run, w: WorkerId)
    requires Structure(cfg, r.s) && Jobs(r.s) && Handed(r)
    ensures Handed(Apply(cfg, r, DoTake(w)))
  {
    var r' := Apply(cfg, r, DoTake(w));
    if OnLane(r.s, w) && r.s.workers[w].job.None? {
      MyCharge(cfg, r.s, w);
      var here := r.s.workers[w].lane;
      forall id | id in r.s.heap && id != here ensures ChargeOf(r'.s, id) == ChargeOf(r.s, id) {
        assert SpawnedAt(r.s, id) && WorkerAt(r.s, w);
      }
      var c := ChargeOf(r.s, here);
      var l := c.l;
      hide Structure, Jobs, ChargeOk, Handed, LaneOk;
      assert ChargeOf(r'.s, here) ==
        if Stops(l) then Charge(l.(running := false), None)
        else Charge(l.(queue := l.queue[1..], active := Some(l.queue[0])),
                    Some(Worker(here, Some(l.queue[0]), Waiting, [])));
      hide ChargeOf;
      forall id, j | id in r.s.heap
        ensures Unstarted(ChargeOf(r'.s, id), j) ==> Unstarted(ChargeOf(r.s, id), j)
        ensures Started(ChargeOf(r'.s, id), j) ==> Started(ChargeOf(r.s, id), j)
      {
      }
      hide Unstarted, Started;
      UnhandedStep(r, r');
    }
  }

  lemma CancelKeepsHanded(cfg: Config, r: Run, cs: set<Conversation>)
    requires Structure(cfg, r.s) && Jobs(r.s) && Handed(r)
    ensures Handed(r.(s := CancelLanes(r.s, cs)))
  {
    var r' := r.(s := CancelLanes(r.s, cs));
    forall i | i in WaitingIds(r.s, cs) ensures i in r.s.accepted && r.handed[r.s.accepted[i]] == 0 {
      var id, j := WaitingIsHeld(cfg, r.s, cs, i);
      var c := ChargeOf(r.s, id);
      assert Unstarted(c, j);
      ChargePaired(cfg, r.s, id);
      UnstartedIsOpen(c, r.s.accepted, r.s.done.Keys, j);
      assert HandedAt(r, id) && HandedOk(c, r.handed, j);
    }
    hide Structure, Jobs, Handed, WaitingIds, ActiveIds, Hit;
    forall id, j | id in r.s.heap
      ensures Unstarted(ChargeOf(r'.s, id), j) ==> Unstarted(ChargeOf(r.s, id), j)
      ensures Started(ChargeOf(r'.s, id), j) ==> Started(ChargeOf(r.s, id), j)
    {
    }
    hide ChargeOf, Unstarted, Started;
    UnhandedStep(r, r');
  }

  lemma JoinedUnstarted(c: Charge, id: LaneId, job: Job, policy: Policy, j: Job)
    requires c.k.Some? ==> c.l.running
    ensures var c' := AdmittedCharge(c, id, job, policy);
            (Unstarted(c', j) ==> Unstarted(c, j) || j == job) && (Started(c', j) ==> Started(c, j))
  {
  }

  /** Joining a lane leaves what was handed over in step with every lane. */
  lemma AdmittedLanesHanded(cfg: Config, r: Run, id: LaneId, job: Job, policy: Policy, worker: WorkerId, n: LaneId)
    requires Structure(cfg, r.s) && Jobs(r.s) && Handed(r) && !r.s.closed && id in r.s.heap
    requires job.id !in r.s.accepted && worker !in r.s.workers
    ensures HandedAt(r.(s := Admitted(r.s, id, job, policy, worker)), n)
  {
    var r' := r.(s := Admitted(r.s, id, job, policy, worker));
    AdmittedIs(cfg, r.s, id, job, policy, worker);
    assert CountAt(r, job);
    if n in r.s.heap {
      LaneIsHanded(r, n);
      if n != id {
        AdmittedLeaves(cfg, r.s, id, job, policy, worker, n);
      }
      hide Structure, Jobs, Handed, Interrupts, ChargeOf, Starts, Enqueued, Unstarted, Started, AdmittedCharge;
      forall j ensures HandedOk(ChargeOf(r'.s, n), r'.handed, j) {
        assert HandedOk(ChargeOf(r.s, n), r.handed, j);
        if n == id {
          JoinedUnstarted(ChargeOf(r.s, id), id, job, policy, j);
        }
      }
    }
  }

  lemma AdmittedKeepsHanded(cfg: Config, r: Run, id: LaneId, job: Job, policy: Policy, worker: WorkerId)
    requires Structure(cfg, r.s) && Jobs(r.s) && Handed(r) && !r.s.closed && id in r.s.heap
    requires job.id !in r.s.accepted && worker !in r.s.workers
    ensures Handed(r.(s := Admitted(r.s, id, job, policy, worker)))
  {
    var r' := r.(s := Admitted(r.s, id, job, policy, worker));
    forall n ensures HandedAt(r', n) {
      AdmittedLanesHanded(cfg, r, id, job, policy, worker, n);
    }
    AcceptedHas(r.s, job.id);
    hide Structure, Jobs, HandedAt, Enqueued, Starts, Interrupts;
    forall i ensures VerdictAt(r', i) {
      assert VerdictAt(r, i);
    }
    forall j ensures CountAt(r', j) {
      assert CountAt(r, j);
    }
  }

  lemma OpenedKeepsHanded(cfg: Config, r: Run, job: Job, source: string, lane: LaneId)
    requires Structure(cfg, r.s) && Jobs(r.s) && Handed(r) && lane !in r.s.heap
    ensures var (id, l) := LaneFor(r.s, job, source, lane);
            Handed(r.(s := r.s.(index := r.s.index[job.conversation := id], heap := r.s.heap[id := l])))
  {
    var (id, l) := LaneFor(r.s, job, source, lane);
    var r' := r.(s := r.s.(index := r.s.index[job.conversation := id], heap := r.s.heap[id := l]));
    assert SpawnedAt(r.s, lane);
    hide Structure, Jobs;
    forall n ensures HandedAt(r', n) {
      assert HandedAt(r, n);
      if n in r.s.heap {
        assert ChargeOf(r'.s, n) == ChargeOf(r.s, n);
      } else if n == id {
        forall j ensures HandedOk(ChargeOf(r'.s, n), r'.handed, j) {
        }
      }
    }
    forall i ensures VerdictAt(r', i) {
      assert VerdictAt(r, i);
    }
    forall j ensures CountAt(r', j) {
      assert CountAt(r, j);
    }
  }

  lemma SubmitKeepsHanded(cfg: Config, r: Run, job: Job, policy: Policy, source: string, contextDone: bool,
                          lane: LaneId, worker: WorkerId)
    requires Structure(cfg, r.s) && Jobs(r.s) && Handed(r) && Fresh(r.s, job, lane, worker)
    ensures Handed(r.(s := Submit(cfg, r.s, job, policy, source, contextDone, lane, worker).0))
  {
    hide Structure, Jobs, LaneFor, Admitted, Handed;
    if !r.s.closed && !contextDone {
      OpenedKeepsStructure(cfg, r.s, job, source, lane);
      OpenedKeepsJobs(cfg, r.s, job, source, lane);
      OpenedKeepsHanded(cfg, r, job, source, lane);
      var (id, l) := LaneFor(r.s, job, source, lane);
      var r1 := r.(s := r.s.(index := r.s.index[job.conversation := id], heap := r.s.heap[id := l]));
      if l.source == source && |l.queue| + |l.inbox| < cfg.capacity {
        AdmittedKeepsHanded(cfg, r1, id, job, policy, worker);
      }
    }
  }

  // ---------------------------------------------------------------------------
  // The invariant of every run
  // ---------------------------------------------------------------------------

  ghost predicate Inv(cfg: Config, r: Run) {
    Structure(cfg, r.s) && Jobs(r.s) && Pools(cfg, r.s) && Handed(r)
  }

  lemma TurnKeepsInv(cfg: Config, r: Run, e: Event)
    requires Inv(cfg, r) && (e.DoTake? || e.DoMove? || e.DoDrain? || e.DoTellOwn? || e.DoSettle?)
    ensures Inv(cfg, Apply(cfg, r, e))
  {
    hide Structure, Jobs, Pools, Handed, TakeNext, Drain, Settle, TellOwn, Moved, MayMove;
    match e
    case DoTake(w) =>
      TakeKeepsHanded(cfg, r, w);
      TurnKeepsPools(cfg, r.s, w);
      if OnLane(r.s, w) && r.s.workers[w].job.None? {
        TakeKeepsStructure(cfg, r.s, w);
        TakeKeepsJobs(cfg, r.s, w);
      }
    case DoMove(w, m) =>
      MoveKeepsHanded(cfg, r, w, m);
      if Busy(r.s, w) && MayMove(cfg, r.s, w, m) {
        MoveKeepsStructure(cfg, r.s, w, m);
        MoveKeepsJobs(cfg, r.s, w, m);
        MoveKeepsPools(cfg, r.s, w, m);
      }
    case DoDrain(w) =>
      DrainKeepsHanded(cfg, r, w);
      TurnKeepsPools(cfg, r.s, w);
      if Busy(r.s, w) && r.s.workers[w].phase.InRunner? {
        DrainKeepsStructure(cfg, r.s, w);
        DrainKeepsJobs(cfg, r.s, w);
      }
    case DoTellOwn(w) =>
      TellOwnKeepsHanded(cfg, r, w);
      TurnKeepsPools(cfg, r.s, w);
      if Busy(r.s, w) && r.s.workers[w].phase.Released? {
        TellOwnKeepsStructure(cfg, r.s, w);
        TellOwnKeepsJobs(cfg, r.s, w);
      }
    case DoSettle(w) =>
      SettleKeepsHanded(cfg, r, w);
      TurnKeepsPools(cfg, r.s, w);
      if Busy(r.s, w) && r.s.workers[w].phase.Told? {
        SettleKeepsStructure(cfg, r.s, w);
        SettleKeepsJobs(cfg, r.s, w);
      }
  }

  lemma SealKeepsRest(cfg: Config, r: Run)
    requires Inv(cfg, r)
    ensures Jobs(Seal(r.s)) && Pools(cfg, Seal(r.s)) && Handed(r.(s := Seal(r.s)))
  {
    var cs := r.s.index.Keys;
    CancelKeepsJobs(cfg, r.s, cs);
    CancelKeepsHanded(cfg, r, cs);
    var r1 := r.(s := CancelLanes(r.s, cs));
    ClosingIsInvisible(r1);
  }

  lemma ClosingIsInvisible(r: Run)
    requires Jobs(r.s) && Handed(r)
    ensures Jobs(r.s.(closed := true)) && Handed(r.(s := r.s.(closed := true)))
  {
    var r' := r.(s := r.s.(closed := true));
    forall id | id in r.s.heap ensures ChargeOf(r'.s, id) == ChargeOf(r.s, id) {
    }
    hide ChargeOf, Held, HeldOk;
    forall id ensures HeldAt(r'.s, id) {
      assert HeldAt(r.s, id);
    }
    forall i ensures AcceptedAt(r'.s, i) {
      assert AcceptedAt(r.s, i);
    }
    hide Jobs, Unstarted, Started;
    UnhandedStep(r, r');
  }

  lemma CancelHandleKeepsInv(cfg: Config, r: Run, id: JobId)
    requires Inv(cfg, r)
    ensures Inv(cfg, r.(s := r.s.(cancelled := r.s.cancelled + {id})))
  {
    var r' := r.(s := r.s.(cancelled := r.s.cancelled + {id}));
    forall w ensures WorkerAt(r'.s, w) {
      assert WorkerAt(r.s, w);
    }
    forall n ensures LaneAt(cfg, r'.s, n) && SpawnedAt(r'.s, n) {
      assert LaneAt(cfg, r.s, n) && SpawnedAt(r.s, n);
    }
    assert Structure(cfg, r'.s);
    forall n | n in r.s.heap ensures ChargeOf(r'.s, n) == ChargeOf(r.s, n) {
    }
    hide ChargeOf, Held, HeldOk, Structure;
    forall n ensures HeldAt(r'.s, n) {
      assert HeldAt(r.s, n);
    }
    forall i ensures AcceptedAt(r'.s, i) {
      assert AcceptedAt(r.s, i);
    }
    assert Jobs(r'.s);
    hide Jobs, Unstarted, Started;
    UnhandedStep(r, r');
  }

  lemma StepKeepsInv(cfg: Config, r: Run, e: Event)
    requires Inv(cfg, r)
    ensures Inv(cfg, Apply(cfg, r, e))
  {
    hide Structure, Jobs, Handed, Submit, ApplyTurn, Holders;
    match e
    case DoSubmit(job, policy, source, contextDone, lane, worker) =>
      if Fresh(r.s, job, lane, worker) {
        SubmitKeepsStructure(cfg, r.s, job, policy, source, contextDone, lane, worker);
        SubmitKeepsJobs(cfg, r.s, job, policy, source, contextDone, lane, worker);
        SubmitKeepsPools(cfg, r.s, job, policy, source, contextDone, lane, worker);
        SubmitKeepsHanded(cfg, r, job, policy, source, contextDone, lane, worker);
      }
    case DoCancelConversation(c) =>
      CancelKeepsStructure(cfg, r.s, {c});
      CancelKeepsJobs(cfg, r.s, {c});
      CancelKeepsHanded(cfg, r, {c});
    case DoSeal =>
      SealKeepsStructure(cfg, r.s);
      SealKeepsRest(cfg, r);
    case DoCancelHandle(id) =>
      CancelHandleKeepsInv(cfg, r, id);
    case _ =>
      TurnKeepsInv(cfg, r, e);
  }

  lemma {:induction false} Reachable(cfg: Config, es: seq<Event>)
    ensures Inv(cfg, After(cfg, es))
  {
    if es == [] {
    } else {
      Reachable(cfg, es[..|es| - 1]);
      StepKeepsInv(cfg, After(cfg, es[..|es| - 1]), es[|es| - 1]);
    }
  }

  // ---------------------------------------------------------------------------
  // What every reachable state guarantees
  // ---------------------------------------------------------------------------

  ghost predicate Running(s: State, w: WorkerId) { w in s.workers && s.workers[w].phase.InRunner? }

  /** At most one turn per conversation is anywhere between its take-up and its clean-up. */
  lemma OneTurnPerConversation(cfg: Config, es: seq<Event>, w: WorkerId, w': WorkerId)
    requires Busy(After(cfg, es).s, w) && Busy(After(cfg, es).s, w')
    requires var s := After(cfg, es).s;
             s.workers[w].job.value.conversation == s.workers[w'].job.value.conversation
    ensures w == w'
  {
    Reachable(cfg, es);
    var s := After(cfg, es).s;
    hide After;
    MyCharge(cfg, s, w);
    MyCharge(cfg, s, w');
    Mine(cfg, s, w);
    Mine(cfg, s, w');
    assert HeldOk(ChargeOf(s, s.workers[w].lane), s.accepted, s.done.Keys, s.workers[w].job.value);
    assert HeldOk(ChargeOf(s, s.workers[w'].lane), s.accepted, s.done.Keys, s.workers[w'].job.value);
  }

  /** Each pool holds exactly its holders' slots and never overflows; the runner only ever works inside a slot. */
  lemma RunnersHoldSlots(cfg: Config, es: seq<Event>, background: bool)
    ensures var s := After(cfg, es).s;
            && Pool(s, background) == |Holders(s.workers, background)| <= Slots(cfg, background)
            && forall w :: Running(s, w) && s.workers[w].job.Some? && s.workers[w].job.value.background == background ==>
                 w in Holders(s.workers, background)
    ensures forall w :: Running(After(cfg, es).s, w) ==> After(cfg, es).s.workers[w].job.Some?
  {
    Reachable(cfg, es);
    var s := After(cfg, es).s;
    hide After;
    assert PoolOk(cfg, s, background);
    forall w | Running(s, w) ensures s.workers[w].job.Some? && s.workers[w].phase.acquired {
      assert WorkerAt(s, w);
    }
  }

  /** Waiting work is bounded, and has a goroutine or waits behind a pause for an approval. */
  lemma NothingStranded(cfg: Config, es: seq<Event>, id: LaneId)
    requires id in After(cfg, es).s.heap
    ensures var s := After(cfg, es).s;
            var l := s.heap[id];
            && |l.queue| + |l.inbox| <= cfg.capacity
            && (l.queue != [] || l.inbox != [] ==> Linked(s, id))
            && (l.inbox != [] ==> id in s.spawned)
            && (l.queue != [] ==> id in s.spawned || (l.paused && !l.queue[0].approval))
            && (id in s.spawned ==> s.spawned[id] in s.workers && s.workers[s.spawned[id]].lane == id)
  {
    Reachable(cfg, es);
    var s := After(cfg, es).s;
    hide After;
    assert LaneAt(cfg, s, id) && SpawnedAt(s, id);
  }

  /**
    Every accepted job is in exactly one place: finished, or once in the charge of its conversation's lane. A
    finished job is nowhere, save as the active turn whose worker is about to clean up.
   */
  lemma EachJobInOnePlace(cfg: Config, es: seq<Event>, i: JobId)
    requires i in After(cfg, es).s.accepted
    ensures var s := After(cfg, es).s;
            var j := s.accepted[i];
            && (i !in s.done ==> j.conversation in s.index && s.index[j.conversation] in s.heap
                                 && Held(ChargeOf(s, s.index[j.conversation]))[j] == 1)
            && (forall id :: id in s.heap && j in Held(ChargeOf(s, id)) ==>
                  && Held(ChargeOf(s, id))[j] == 1 && Linked(s, id)
                  && (i in s.done ==> Cleaning(ChargeOf(s, id), j)))
  {
    Reachable(cfg, es);
    var s := After(cfg, es).s;
    hide After;
    var j := s.accepted[i];
    assert AcceptedAt(s, i);
    forall id | id in s.heap && j in Held(ChargeOf(s, id))
      ensures Held(ChargeOf(s, id))[j] == 1 && Linked(s, id) && (i in s.done ==> Cleaning(ChargeOf(s, id), j))
    {
      assert HeldAt(s, id) && HeldOk(ChargeOf(s, id), s.accepted, s.done.Keys, j);
      HeldIsLinked(cfg, s, id, j);
    }
  }

  /** When `Close` returns nil, admission is sealed and every goroutine has ended: every accepted handle is finished. */
  lemma ClosedMeansFinished(cfg: Config, es: seq<Event>, i: JobId)
    requires After(cfg, es).s.closed && After(cfg, es).s.workers == map[] && i in After(cfg, es).s.accepted
    ensures i in After(cfg, es).s.done
  {
    Reachable(cfg, es);
    var s := After(cfg, es).s;
    hide After;
    assert AcceptedAt(s, i);
    forall id | id in s.heap ensures Held(ChargeOf(s, id)) == multiset{} {
      assert LaneAt(cfg, s, id) && SpawnedAt(s, id);
    }
  }

  /** A job reaches the runner at most once, and its verdict says whether it did. */
  lemma HandedAtMostOnce(cfg: Config, es: seq<Event>, i: JobId)
    requires i in After(cfg, es).s.accepted
    ensures var r := After(cfg, es);
            && r.handed[r.s.accepted[i]] <= 1
            && (i in r.s.done ==> Matches(r.s.done[i], r.handed[r.s.accepted[i]]))
  {
    Reachable(cfg, es);
    var r := After(cfg, es);
    hide After;
    assert CountAt(r, r.s.accepted[i]) && VerdictAt(r, i);
  }

  /** Accepted jobs, verdicts and hand-overs are only ever added. */
  lemma {:induction false} VerdictsAreFinal(cfg: Config, es: seq<Event>, more: seq<Event>, i: JobId)
    requires i in After(cfg, es).s.done
    ensures i in After(cfg, es + more).s.done && After(cfg, es + more).s.done[i] == After(cfg, es).s.done[i]
  {
    hide Apply;
    if more == [] {
      assert es + more == es;
    } else {
      var n := |more| - 1;
      VerdictsAreFinal(cfg, es, more[..n], i);
      assert (es + more)[..|es + more| - 1] == es + more[..n];
      VerdictStays(cfg, After(cfg, es + more[..n]), more[n], i);
    }
  }

  lemma VerdictStays(cfg: Config, r: Run, e: Event, i: JobId)
    requires i in r.s.done
    ensures i in Apply(cfg, r, e).s.done && Apply(cfg, r, e).s.done[i] == r.s.done[i]
  {
    hide LaneFor, Live, Ids, DeadIds, WaitingIds, ActiveIds, Hit;
  }

  /** A queue after a step: `n` jobs gone from its head, `front` put ahead of the rest and `back` behind it. */
  ghost predicate QueueStep(q: seq<Job>, q': seq<Job>, n: nat, front: seq<Job>, back: seq<Job>) {
    n <= |q| && q' == front + q[n..] + back
  }

  /**
    No step reorders a queue. Jobs leave at its head, or all at once; only an approval or an interrupt is put ahead
    of what waits; everything else, and what a turn left in its inbox, goes behind.
   */
  lemma QueuesKeepTheirOrder(cfg: Config, r: Run, e: Event, id: LaneId) returns (n: nat, front: seq<Job>, back: seq<Job>)
    requires id in r.s.heap
    ensures id in Apply(cfg, r, e).s.heap
    ensures QueueStep(r.s.heap[id].queue, Apply(cfg, r, e).s.heap[id].queue, n, front, back)
    ensures n == 0 || n == |r.s.heap[id].queue| || (e.DoTake? && n == 1)
    ensures front == [] || (e.DoSubmit? && front == [e.job] && (e.job.approval || e.policy == Interrupt))
    ensures back == [] || (e.DoSubmit? && back == [e.job]) || (e.DoSettle? && back == r.s.heap[id].inbox)
  {
    hide Submit, TakeNext, Settle, CancelLanes, Seal, Drain, TellOwn, Moved, MayMove, Fresh;
    var q := r.s.heap[id].queue;
    n, front, back := 0, [], [];
    assert q == [] + q[0..] + [];
    match e
    case DoSubmit(job, policy, source, contextDone, lane, worker) =>
      if Fresh(r.s, job, lane, worker) {
        front, back := SubmittedQueue(cfg, r.s, job, policy, source, contextDone, lane, worker, id);
      }
    case DoTake(w) =>
      if OnLane(r.s, w) && r.s.workers[w].job.None? {
        n := TakenQueue(r.s, w, id);
      }
    case DoSettle(w) =>
      if Busy(r.s, w) && r.s.workers[w].phase.Told? {
        back := SettledQueue(r.s, w, id);
      }
    case DoCancelConversation(c) => n := CancelledQueue(r.s, {c}, id);
    case DoSeal => n := CancelledQueue(r.s, r.s.index.Keys, id);
      assert Seal(r.s).heap == CancelLanes(r.s, r.s.index.Keys).heap by { SealIsCancel(r.s); }
    case DoDrain(w) => DrainedQueue(r.s, w, id);
    case DoTellOwn(w) => DrainedQueue(r.s, w, id);
    case DoMove(w, m) => DrainedQueue(r.s, w, id);
    case DoCancelHandle(_) =>
  }

  lemma SealIsCancel(s: State)
    ensures Seal(s).heap == CancelLanes(s, s.index.Keys).heap
  {
    hide CancelLanes;
  }

  lemma SubmittedQueue(cfg: Config, s: State, job: Job, policy: Policy, source: string, contextDone: bool, lane: LaneId,
                       worker: WorkerId, id: LaneId) returns (front: seq<Job>, back: seq<Job>)
    requires id in s.heap && Fresh(s, job, lane, worker)
    ensures var s' := Submit(cfg, s, job, policy, source, contextDone, lane, worker).0;
            id in s'.heap && QueueStep(s.heap[id].queue, s'.heap[id].queue, 0, front, back)
    ensures front == [] || (front == [job] && (job.approval || policy == Interrupt))
    ensures back == [] || back == [job]
  {
    hide Submit, QueueStep, Enqueued;
    var l := s.heap[id];
    SubmittedLane(cfg, s, job, policy, source, contextDone, lane, worker, id);
    front, back := PlacedQueue(l, job, policy);
    if Submit(cfg, s, job, policy, source, contextDone, lane, worker).0.heap[id].queue == l.queue {
      front, back := [], [];
      QueueSteps(l.queue, job);
    }
  }

  /** A submission leaves a lane as it is, or puts the job into it. */
  lemma SubmittedLane(cfg: Config, s: State, job: Job, policy: Policy, source: string, contextDone: bool, lane: LaneId,
                      worker: WorkerId, id: LaneId)
    requires id in s.heap && Fresh(s, job, lane, worker)
    ensures var s' := Submit(cfg, s, job, policy, source, contextDone, lane, worker).0;
            id in s'.heap && (s'.heap[id].queue == s.heap[id].queue
                              || s'.heap[id].queue == Enqueued(s.heap[id], job, policy).queue)
  {
    hide Admitted, Enqueued, LaneFor;
    FoundLane(s, job, source, lane);
    var (n, l) := LaneFor(s, job, source, lane);
    JoinedQueue(s.(index := s.index[job.conversation := n], heap := s.heap[n := l]), n, job, policy, worker, id);
  }

  lemma JoinedQueue(s: State, n: LaneId, job: Job, policy: Policy, worker: WorkerId, id: LaneId)
    requires n in s.heap && id in s.heap
    ensures var s' := Admitted(s, n, job, policy, worker);
            id in s'.heap && s'.heap[id].queue == if id == n then Enqueued(s.heap[id], job, policy).queue else s.heap[id].queue
  {
    hide Starts, Interrupts, Enqueued;
  }

  lemma PlacedQueue(l: Lane, job: Job, policy: Policy) returns (front: seq<Job>, back: seq<Job>)
    ensures QueueStep(l.queue, Enqueued(l, job, policy).queue, 0, front, back)
    ensures front == [] || (front == [job] && (job.approval || policy == Interrupt))
    ensures back == [] || back == [job]
  {
    QueueSteps(l.queue, job);
    hide QueueStep;
    front, back := [], [];
    if job.approval || (policy == Interrupt && l.active.Some?) {
      front := [job];
    } else if !(policy == Inject && l.active.Some?) {
      back := [job];
    }
  }

  lemma FoundLane(s: State, job: Job, source: string, lane: LaneId)
    requires lane !in s.heap
    ensures var (n, l) := LaneFor(s, job, source, lane); n in s.heap ==> l == s.heap[n]
  {
  }

  lemma QueueSteps(q: seq<Job>, job: Job)
    ensures QueueStep(q, q, 0, [], []) && QueueStep(q, [job] + q, 0, [job], []) && QueueStep(q, q + [job], 0, [], [job])
    ensures q != [] ==> QueueStep(q, q[1..], 1, [], [])
  {
    assert q == [] + q[0..] + [] && [job] + q == [job] + q[0..] + [] && q + [job] == [] + q[0..] + [job];
    assert q != [] ==> q[1..] == [] + q[1..] + [];
  }

  lemma TakenQueue(s: State, w: WorkerId, id: LaneId) returns (n: nat)
    requires id in s.heap && OnLane(s, w)
    ensures n <= 1 && id in TakeNext(s, w).heap
    ensures QueueStep(s.heap[id].queue, TakeNext(s, w).heap[id].queue, n, [], [])
  {
    var q := s.heap[id].queue;
    n := if s.workers[w].lane == id && !Stops(s.heap[id]) then 1 else 0;
    assert n == 1 ==> q != [];
    hide QueueStep;
    if q == [] {
      QueueSteps(q, Job(0, "", false, false));
    } else {
      QueueSteps(q, q[0]);
    }
    assert TakeNext(s, w).heap[id].queue == if n == 1 then q[1..] else q;
  }

  lemma SettledQueue(s: State, w: WorkerId, id: LaneId) returns (back: seq<Job>)
    requires id in s.heap && Busy(s, w) && s.workers[w].phase.Told?
    ensures var s' := Settle(s, w, s.workers[w].phase.o);
            id in s'.heap && QueueStep(s.heap[id].queue, s'.heap[id].queue, 0, [], back)
    ensures back == [] || back == s.heap[id].inbox
  {
    hide Tell, Ids;
    var q := s.heap[id].queue;
    back := if s.workers[w].lane == id then s.heap[id].inbox else [];
    assert q + back == [] + q[0..] + back && q + [] == q;
  }

  lemma CancelledQueue(s: State, cs: set<Conversation>, id: LaneId) returns (n: nat)
    requires id in s.heap
    ensures n == 0 || n == |s.heap[id].queue|
    ensures id in CancelLanes(s, cs).heap && QueueStep(s.heap[id].queue, CancelLanes(s, cs).heap[id].queue, n, [], [])
  {
    hide Tell, WaitingIds, ActiveIds;
    var q := s.heap[id].queue;
    n := if Hit(s, id, cs) then |q| else 0;
    assert q == [] + q[0..] + [] && [] + q[|q|..] + [] == [];
  }

  /** Moves, drains and own verdicts leave every queue alone. */
  lemma DrainedQueue(s: State, w: WorkerId, id: LaneId)
    requires id in s.heap
    ensures Busy(s, w) && s.workers[w].phase.InRunner? ==>
              id in Drain(s, w).heap && Drain(s, w).heap[id].queue == s.heap[id].queue
    ensures Busy(s, w) && s.workers[w].phase.Released? ==> TellOwn(s, w).heap == s.heap
    ensures forall m :: Busy(s, w) ==> Moved(s, w, m).heap == s.heap
  {
    hide Tell, Live, DeadIds, NextPool, NextPhase;
  }
}
