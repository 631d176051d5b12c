/**
  Per-conversation scheduling: lanes of jobs, one worker goroutine per running lane, and two slot pools.
  Lane objects and goroutines are named by numbers, so that a lane outlives its entry in the index.
 */
module Scheduler {
  import opened Common

  type Conversation = string
  type LaneId = nat
  type WorkerId = nat
  type JobId = nat

  datatype Policy = Append | Inject | Interrupt

  datatype Job = Job(id: JobId, conversation: Conversation, background: bool, approval: bool)

  /** How a turn ended: answered, paused for an approval, or failed (cancelled, panicked, errored). */
  datatype Outcome = Answered | Paused | Failed

  /** What a handle's waiter is told. */
  datatype Verdict = Own(o: Outcome) | Merged(o: Outcome) | Cancelled

  datatype Lane = Lane(conversation: Conversation, source: string, queue: seq<Job>, inbox: seq<Job>,
                       active: Option<Job>, running: bool, paused: bool)

  datatype Phase =
    | Waiting                                   // for a slot or for the job's cancellation
    | HasSlot
    | NoSlot
    | InRunner(acquired: bool)
    | Returned(acquired: bool, o: Outcome)
    | Released(o: Outcome)                      // slot given back
    | Told(o: Outcome)                          // own handle finished, lane not yet updated

  datatype Worker = Worker(lane: LaneId, job: Option<Job>, phase: Phase, consumed: seq<Job>)

  /** `spawned` names the goroutine a running lane was given; `accepted` lists every admitted job. */
  datatype State = State(
    index: map<Conversation, LaneId>, heap: map<LaneId, Lane>, workers: map<WorkerId, Worker>,
    spawned: map<LaneId, WorkerId>, closed: bool, foreground: nat, background: nat,
    cancelled: set<JobId>, done: map<JobId, Verdict>, accepted: map<JobId, Job>)

  datatype Config = Config(userSlots: nat, systemSlots: nat, capacity: nat)

  // ---------------------------------------------------------------------------
  // Finishing handles; only the first verdict of a handle counts
  // ---------------------------------------------------------------------------

  function Ids(jobs: seq<Job>): set<JobId> { set j | j in jobs :: j.id }

  /** Every handle in `ids` not finished yet is finished: with `late` if its own context is done, else with `v`. */
  function Tell(done: map<JobId, Verdict>, ids: set<JobId>, v: Verdict, dead: set<JobId>, late: Verdict)
    : (r: map<JobId, Verdict>)
  {
    map i | i in done.Keys + ids :: if i in done then done[i] else if i in dead then late else v
  }

  lemma TellOneMore(done: map<JobId, Verdict>, ids: set<JobId>, v: Verdict, dead: set<JobId>, late: Verdict, i: JobId)
    ensures var now := Tell(done, ids, v, dead, late);
            Tell(done, ids + {i}, v, dead, late)
            == if i in now then now else now[i := if i in dead then late else v]
  {
  }

  lemma TellKeys(done: map<JobId, Verdict>, ids: set<JobId>, v: Verdict, dead: set<JobId>, late: Verdict)
    ensures Tell(done, ids, v, dead, late).Keys == done.Keys + ids
  {
  }

  lemma TellNone(done: map<JobId, Verdict>, v: Verdict, dead: set<JobId>, late: Verdict)
    ensures Tell(done, {}, v, dead, late) == done
  {
  }

  lemma IdsSnoc(jobs: seq<Job>, i: nat)
    requires i < |jobs|
    ensures Ids(jobs[..i + 1]) == Ids(jobs[..i]) + {jobs[i].id}
  {
    assert jobs[..i + 1] == jobs[..i] + [jobs[i]];
  }

  lemma NoIds()
    ensures Ids([]) == {}
  {
  }

  /** The items whose own context is not done. */
  function Live(jobs: seq<Job>, cancelled: set<JobId>): seq<Job> {
    if jobs == [] then []
    else
      var last := jobs[|jobs| - 1];
      Live(jobs[..|jobs| - 1], cancelled) + if last.id in cancelled then [] else [last]
  }

  // ---------------------------------------------------------------------------
  // The specification of each operation
  // ---------------------------------------------------------------------------

  datatype SubmitError = Closed | ContextDone | SourceMismatch | QueueFull

  function LaneFor(s: State, job: Job, source: string, fresh': LaneId): (LaneId, Lane) {
    if job.conversation in s.index && s.index[job.conversation] in s.heap
    then (s.index[job.conversation], s.heap[s.index[job.conversation]])
    else (fresh', Lane(job.conversation, source, [], [], None, false, false))
  }

  /** Where the policy puts an admitted job. */
  function Enqueued(l: Lane, job: Job, policy: Policy): Lane {
    if job.approval then l.(queue := [job] + l.queue)
    else if policy == Inject && l.active.Some? then l.(inbox := l.inbox + [job])
    else if policy == Interrupt && l.active.Some? then l.(queue := [job] + l.queue)
    else l.(queue := l.queue + [job])
  }

  predicate Injected(l: Lane, job: Job, policy: Policy) { !job.approval && policy == Inject && l.active.Some? }

  predicate Interrupts(l: Lane, job: Job, policy: Policy) { !job.approval && policy == Interrupt && l.active.Some? }

  predicate Starts(l: Lane, job: Job, policy: Policy) {
    !Injected(l, job, policy) && !l.running && (!l.paused || job.approval)
  }

  /** The job joins lane `id`, and a goroutine starts for the lane if the policy asks for one. */
  function Admitted(s: State, id: LaneId, job: Job, policy: Policy, worker: WorkerId): State
    requires id in s.heap
  {
    var l := s.heap[id];
    var starts := Starts(l, job, policy);
    var s' := s.(
      heap := s.heap[id := Enqueued(l, job, policy).(running := l.running || starts)],
      cancelled := if Interrupts(l, job, policy) then s.cancelled + {l.active.value.id} else s.cancelled,
      accepted := s.accepted[job.id := job]);
    if starts
    then s'.(workers := s.workers[worker := Worker(id, None, Waiting, [])], spawned := s.spawned[id := worker])
    else s'
  }

  /** `lane` and `worker` are unused names for a new lane object and a new goroutine. */
  function Submit(cfg: Config, s: State, job: Job, policy: Policy, source: string, contextDone: bool,
                  lane: LaneId, worker: WorkerId): (State, Option<SubmitError>)
  {
    if s.closed then (s, Some(Closed))
    else if contextDone then (s, Some(ContextDone))
    else
      var (id, l) := LaneFor(s, job, source, lane);
      // A lane just made stays in the index even when this submission is then refused.
      var s1 := s.(index := s.index[job.conversation := id], heap := s.heap[id := l]);
      if l.source != source then (s1, Some(SourceMismatch))
      else if |l.queue| + |l.inbox| >= cfg.capacity then (s1, Some(QueueFull))
      else (Admitted(s1, id, job, policy, worker), None)
  }

  predicate Stops(l: Lane) { l.queue == [] || (l.paused && !l.queue[0].approval) }

  /** The worker takes the next job, or ends: an unpaused lane leaves the index with it. */
  function TakeNext(s: State, w: WorkerId): State
    requires w in s.workers && s.workers[w].lane in s.heap
  {
    var id := s.workers[w].lane;
    var l := s.heap[id];
    if Stops(l) then
      s.(heap := s.heap[id := l.(running := false)],
         index := if l.paused then s.index else s.index - {l.conversation},
         workers := s.workers - {w}, spawned := s.spawned - {id})
    else
      s.(heap := s.heap[id := l.(queue := l.queue[1..], active := Some(l.queue[0]))],
         workers := s.workers[w := Worker(id, Some(l.queue[0]), Waiting, [])])
  }

  function AtPhase(s: State, w: WorkerId, p: Phase): State
    requires w in s.workers
  {
    s.(workers := s.workers[w := s.workers[w].(phase := p)])
  }

  function Pool(s: State, background: bool): nat { if background then s.background else s.foreground }

  function DeadIds(jobs: seq<Job>, cancelled: set<JobId>): set<JobId> { Ids(jobs) * cancelled }

  function Drain(s: State, w: WorkerId): State
    requires w in s.workers && s.workers[w].lane in s.heap
  {
    var id := s.workers[w].lane;
    var l := s.heap[id];
    s.(heap := s.heap[id := l.(inbox := [])],
       workers := s.workers[w := s.workers[w].(consumed := s.workers[w].consumed + Live(l.inbox, s.cancelled))],
       done := Tell(s.done, DeadIds(l.inbox, s.cancelled), Cancelled, {}, Cancelled))
  }

  /** The lane after its turn: the unconsumed inbox becomes ordinary queued work, behind what waits already. */
  function AfterTurn(l: Lane, approval: bool, o: Outcome): Lane {
    l.(queue := l.queue + l.inbox, inbox := [], active := None,
       paused := if o == Paused then true else if approval && o == Answered then false else l.paused)
  }

  /** After the turn: consumed messages share its outcome, unless their own context is done. */
  function Settle(s: State, w: WorkerId, o: Outcome): State
    requires w in s.workers && s.workers[w].lane in s.heap && s.workers[w].job.Some?
  {
    var id := s.workers[w].lane;
    var ids := Ids(s.workers[w].consumed);
    s.(done := Tell(s.done, ids, Merged(o), s.cancelled, Merged(Failed)),
       cancelled := s.cancelled + ids,
       heap := s.heap[id := AfterTurn(s.heap[id], s.workers[w].job.value.approval, o)],
       workers := s.workers[w := Worker(id, None, Waiting, [])])
  }

  /** The lanes that the index gives for the conversations `cs`. */
  predicate Hit(s: State, id: LaneId, cs: set<Conversation>)
    requires id in s.heap
  {
    var c := s.heap[id].conversation;
    c in cs && c in s.index && s.index[c] == id
  }

  function Emptied(l: Lane): Lane { l.(queue := [], inbox := []) }

  function WaitingIds(s: State, cs: set<Conversation>): set<JobId> {
    set id, i | id in s.heap && Hit(s, id, cs) && i in Ids(s.heap[id].queue + s.heap[id].inbox) :: i
  }

  function ActiveIds(s: State, cs: set<Conversation>): set<JobId> {
    set id | id in s.heap && Hit(s, id, cs) && s.heap[id].active.Some? :: s.heap[id].active.value.id
  }

  /** Cancels the turns of the conversations `cs`, and finishes and drops everything that waits there. */
  function CancelLanes(s: State, cs: set<Conversation>): State {
    s.(heap := map id | id in s.heap :: if Hit(s, id, cs) then Emptied(s.heap[id]) else s.heap[id],
       cancelled := s.cancelled + ActiveIds(s, cs) + WaitingIds(s, cs),
       done := Tell(s.done, WaitingIds(s, cs), Cancelled, {}, Cancelled))
  }

  function Seal(s: State): State { CancelLanes(s, s.index.Keys).(closed := true) }

  /** The index gives each conversation a lane of its own. */
  ghost predicate IndexOk(s: State) {
    forall c :: c in s.index ==> s.index[c] in s.heap && s.heap[s.index[c]].conversation == c
  }

  lemma HitOneMore(s: State, cs: set<Conversation>, c: Conversation, id: LaneId)
    requires id in s.heap
    ensures var s1 := CancelLanes(s, cs);
            && (Hit(s1, id, {c}) <==> Hit(s, id, {c}))
            && (Hit(s, id, cs + {c}) <==> Hit(s, id, cs) || Hit(s, id, {c}))
            && s1.heap[id] == if Hit(s, id, cs) then Emptied(s.heap[id]) else s.heap[id]
  {
  }

  lemma WaitingOneMore(s: State, cs: set<Conversation>, c: Conversation)
    ensures WaitingIds(s, cs + {c}) == WaitingIds(s, cs) + WaitingIds(CancelLanes(s, cs), {c})
  {
    hide IndexOk, Tell, Hit, ActiveIds, CancelLanes;
    var s1 := CancelLanes(s, cs);
    assert s1.heap.Keys == s.heap.Keys by { Emptying(s, cs); }
    forall id | id in s.heap
      ensures Hit(s1, id, {c}) <==> Hit(s, id, {c})
      ensures Hit(s, id, cs + {c}) <==> Hit(s, id, cs) || Hit(s, id, {c})
      ensures s1.heap[id] == if Hit(s, id, cs) then Emptied(s.heap[id]) else s.heap[id]
    {
      HitOneMore(s, cs, c, id);
    }
    forall i
      ensures i in WaitingIds(s, cs + {c}) <==> i in WaitingIds(s, cs) + WaitingIds(s1, {c})
    {
      NoneWait();
      hide Ids;
    }
  }

  lemma NoneWait()
    ensures forall l: Lane :: Ids(Emptied(l).queue + Emptied(l).inbox) == {}
  {
  }

  lemma Emptying(s: State, cs: set<Conversation>)
    ensures CancelLanes(s, cs).heap.Keys == s.heap.Keys
  {
  }

  lemma ActiveOneMore(s: State, cs: set<Conversation>, c: Conversation)
    ensures ActiveIds(s, cs + {c}) == ActiveIds(s, cs) + ActiveIds(CancelLanes(s, cs), {c})
  {
    hide IndexOk, Tell, Hit, WaitingIds, CancelLanes;
    var s1 := CancelLanes(s, cs);
    assert s1.heap.Keys == s.heap.Keys by { Emptying(s, cs); }
    forall id | id in s.heap
      ensures Hit(s1, id, {c}) <==> Hit(s, id, {c})
      ensures Hit(s, id, cs + {c}) <==> Hit(s, id, cs) || Hit(s, id, {c})
      ensures s1.heap[id] == if Hit(s, id, cs) then Emptied(s.heap[id]) else s.heap[id]
    {
      HitOneMore(s, cs, c, id);
    }
  }

  lemma OneLane(s: State, c: Conversation)
    requires IndexOk(s) && c in s.index
    ensures var id := s.index[c];
            var l := s.heap[id];
            && CancelLanes(s, {c}).heap == s.heap[id := Emptied(l)]
            && WaitingIds(s, {c}) == Ids(l.queue + l.inbox)
            && ActiveIds(s, {c}) == if l.active.Some? then {l.active.value.id} else {}
  {
    hide Tell;
    var id := s.index[c];
    assert s.heap[id].conversation == c;
    assert forall n | n in s.heap :: Hit(s, n, {c}) <==> n == id;
  }

  lemma TellMore(done: map<JobId, Verdict>, ids: set<JobId>, more: set<JobId>, v: Verdict)
    ensures Tell(Tell(done, ids, v, {}, v), more, v, {}, v) == Tell(done, ids + more, v, {}, v)
  {
  }

  lemma CancelOneMore(s: State, cs: set<Conversation>, c: Conversation)
    requires IndexOk(s) && c in s.index
    ensures CancelLanes(CancelLanes(s, cs), {c}) == CancelLanes(s, cs + {c})
  {
    hide IndexOk, Tell, WaitingIds, ActiveIds, Hit;
    WaitingOneMore(s, cs, c);
    ActiveOneMore(s, cs, c);
    var s1 := CancelLanes(s, cs);
    forall id | id in s.heap ensures CancelLanes(s1, {c}).heap[id] == CancelLanes(s, cs + {c}).heap[id] {
      HitOneMore(s, cs, c, id);
    }
    assert CancelLanes(s1, {c}).heap == CancelLanes(s, cs + {c}).heap;
    TellMore(s.done, WaitingIds(s, cs), WaitingIds(CancelLanes(s, cs), {c}), Cancelled);
  }

  // ---------------------------------------------------------------------------
  // The scheduler object
  // ---------------------------------------------------------------------------

  class SchedulerObject {
    const cfg: Config
    var index: map<Conversation, LaneId>
    var heap: map<LaneId, Lane>
    var workers: map<WorkerId, Worker>
    var spawned: map<LaneId, WorkerId>
    var closed: bool
    var foreground: nat
    var background: nat
    var cancelled: set<JobId>
    var done: map<JobId, Verdict>
    var accepted: map<JobId, Job>

    function View(): State
      reads this
    {
      State(index, heap, workers, spawned, closed, foreground, background, cancelled, done, accepted)
    }

    constructor (cfg: Config)
      ensures this.cfg == cfg && View() == State(map[], map[], map[], map[], false, 0, 0, {}, map[], map[])
    {
      this.cfg := cfg;
      index, heap, workers, spawned, closed := map[], map[], map[], map[], false;
      foreground, background, cancelled, done, accepted := 0, 0, {}, map[], map[];
    }

    /** The conversation's lane, made and indexed on first use. */
    method Locate(job: Job, source: string, lane: LaneId) returns (id: LaneId, l: Lane)
      modifies `index, `heap
      ensures (id, l) == LaneFor(old(View()), job, source, lane)
      ensures index == old(index)[job.conversation := id] && heap == old(heap)[id := l]
    {
      id := lane;
      l := Lane(job.conversation, source, [], [], None, false, false);
      if job.conversation in index && index[job.conversation] in heap {
        id := index[job.conversation];
        l := heap[id];
      }
      index := index[job.conversation := id];
      heap := heap[id := l];
    }

    method TrySubmit(job: Job, policy: Policy, source: string, contextDone: bool, lane: LaneId, worker: WorkerId)
      returns (e: Option<SubmitError>)
      modifies this
      ensures (View(), e) == Submit(cfg, old(View()), job, policy, source, contextDone, lane, worker)
    {
      hide Enqueued, Starts, Interrupts, LaneFor;
      if closed {
        return Some(Closed);
      }
      if contextDone {
        return Some(ContextDone);
      }
      var id, l := Locate(job, source, lane);
      if l.source != source {
        return Some(SourceMismatch);
      }
      if |l.queue| + |l.inbox| >= cfg.capacity {
        return Some(QueueFull);
      }
      accepted := accepted[job.id := job];
      var placed, starts, interrupts := Place(l, job, policy);
      if interrupts {
        cancelled := cancelled + {l.active.value.id};
      }
      heap := heap[id := placed.(running := l.running || starts)];
      if starts {
        workers := workers[worker := Worker(id, None, Waiting, [])];
        spawned := spawned[id := worker];
      }
      return None;
    }

    /** Where the job goes, whether a goroutine starts for it, and whether it interrupts the active turn. */
    method Place(l: Lane, job: Job, policy: Policy) returns (placed: Lane, starts: bool, interrupts: bool)
      ensures placed == Enqueued(l, job, policy)
      ensures starts == Starts(l, job, policy)
      ensures interrupts == Interrupts(l, job, policy) && (interrupts ==> l.active.Some?)
    {
      interrupts := false;
      if job.approval {
        placed := l.(queue := [job] + l.queue);
      } else if policy == Inject && l.active.Some? {
        return l.(inbox := l.inbox + [job]), false, false;
      } else if policy == Interrupt && l.active.Some? {
        interrupts := true;
        placed := l.(queue := [job] + l.queue);
      } else {
        placed := l.(queue := l.queue + [job]);
      }
      starts := !l.running && (!l.paused || job.approval);
    }

    /** The head of the worker loop: take the next job, or leave. */
    method Take(w: WorkerId) returns (more: bool)
      requires w in workers && workers[w].lane in heap
      modifies `heap, `index, `workers, `spawned
      ensures View() == TakeNext(old(View()), w)
      ensures more == !Stops(old(heap[workers[w].lane]))
    {
      var id := workers[w].lane;
      var l := heap[id];
      if l.queue == [] || (l.paused && !l.queue[0].approval) {
        heap := heap[id := l.(running := false)];
        if !l.paused {
          index := index - {l.conversation};
        }
        workers := workers - {w};
        spawned := spawned - {id};
        return false;
      }
      heap := heap[id := l.(queue := l.queue[1..], active := Some(l.queue[0]))];
      workers := workers[w := Worker(id, Some(l.queue[0]), Waiting, [])];
      return true;
    }

    /** Finishes a handle once; a second verdict is ignored. */
    method Finish(i: JobId, v: Verdict)
      modifies `done
      ensures done == if i in old(done) then old(done) else old(done)[i := v]
    {
      if i !in done {
        done := done[i := v];
      }
    }

    method DrainInbox(w: WorkerId)
      requires w in workers && workers[w].lane in heap
      modifies `heap, `workers, `done
      ensures View() == Drain(old(View()), w)
    {
      var id := workers[w].lane;
      var inbox := heap[id].inbox;
      var taken: seq<Job> := [];
      var i := 0;
      TellNone(done, Cancelled, {}, Cancelled);
      while i < |inbox|
        invariant 0 <= i <= |inbox|
        invariant taken == Live(inbox[..i], cancelled)
        invariant done == Tell(old(done), DeadIds(inbox[..i], cancelled), Cancelled, {}, Cancelled)
        modifies `done
      {
        IdsSnoc(inbox, i);
        assert inbox[..i + 1][..i] == inbox[..i];
        if inbox[i].id in cancelled {
          TellOneMore(old(done), DeadIds(inbox[..i], cancelled), Cancelled, {}, Cancelled, inbox[i].id);
          Finish(inbox[i].id, Cancelled);
          assert DeadIds(inbox[..i + 1], cancelled) == DeadIds(inbox[..i], cancelled) + {inbox[i].id};
        } else {
          taken := taken + [inbox[i]];
          assert DeadIds(inbox[..i + 1], cancelled) == DeadIds(inbox[..i], cancelled);
        }
        i := i + 1;
      }
      assert inbox[..i] == inbox;
      heap := heap[id := heap[id].(inbox := [])];
      workers := workers[w := workers[w].(consumed := workers[w].consumed + taken)];
    }

    method SettleTurn(w: WorkerId, o: Outcome)
      requires w in workers && workers[w].lane in heap && workers[w].job.Some?
      modifies `heap, `workers, `done, `cancelled
      ensures View() == Settle(old(View()), w, o)
    {
      hide Tell, Ids, Live;
      var id := workers[w].lane;
      var consumed := workers[w].consumed;
      var i := 0;
      ghost var dead := cancelled;
      assert Ids(consumed[..0]) == {} by { NoIds(); }
      TellNone(done, Merged(o), dead, Merged(Failed));
      while i < |consumed|
        invariant 0 <= i <= |consumed|
        invariant cancelled == dead + Ids(consumed[..i])
        invariant done == Tell(old(done), Ids(consumed[..i]), Merged(o), dead, Merged(Failed))
        modifies `done, `cancelled
      {
        var item := consumed[i];
        IdsSnoc(consumed, i);
        TellOneMore(old(done), Ids(consumed[..i]), Merged(o), dead, Merged(Failed), item.id);
        TellKeys(old(done), Ids(consumed[..i]), Merged(o), dead, Merged(Failed));
        Finish(item.id, Merged(if item.id in cancelled then Failed else o));
        cancelled := cancelled + {item.id};
        i := i + 1;
      }
      assert consumed[..i] == consumed;
      var l := heap[id];
      l := l.(queue := l.queue + l.inbox, inbox := [], active := None);
      if o == Paused {
        l := l.(paused := true);
      } else if workers[w].job.value.approval && o == Answered {
        l := l.(paused := false);
      }
      heap := heap[id := l];
      workers := workers[w := Worker(id, None, Waiting, [])];
    }

    method CancelLane(c: Conversation)
      requires IndexOk(View()) && c in index
      modifies `heap, `cancelled, `done
      ensures View() == CancelLanes(old(View()), {c})
    {
      hide Tell, WaitingIds, ActiveIds, Hit;
      var id := index[c];
      var l := heap[id];
      var jobs := l.queue + l.inbox;
      if l.active.Some? {
        cancelled := cancelled + {l.active.value.id};
      }
      ghost var before := cancelled;
      var i := 0;
      assert Ids(jobs[..0]) == {};
      TellNone(done, Cancelled, {}, Cancelled);
      while i < |jobs|
        invariant 0 <= i <= |jobs|
        invariant cancelled == before + Ids(jobs[..i])
        invariant done == Tell(old(done), Ids(jobs[..i]), Cancelled, {}, Cancelled)
        modifies `done, `cancelled
      {
        IdsSnoc(jobs, i);
        TellOneMore(old(done), Ids(jobs[..i]), Cancelled, {}, Cancelled, jobs[i].id);
        cancelled := cancelled + {jobs[i].id};
        Finish(jobs[i].id, Cancelled);
        i := i + 1;
      }
      assert jobs[..i] == jobs;
      heap := heap[id := Emptied(l)];
      OneLane(old(View()), c);
    }

    method CancelConversation(c: Conversation)
      requires IndexOk(View())
      modifies `heap, `cancelled, `done
      ensures View() == CancelLanes(old(View()), {c})
    {
      if c in index {
        CancelLane(c);
      } else {
        ghost var s := old(View());
        assert WaitingIds(s, {c}) == {} && ActiveIds(s, {c}) == {};
        TellNone(done, Cancelled, {}, Cancelled);
        assert heap == CancelLanes(s, {c}).heap;
      }
    }

    method SealAdmission()
      requires IndexOk(View())
      modifies `heap, `cancelled, `done, `closed
      ensures View() == Seal(old(View()))
    {
      hide Tell, WaitingIds, ActiveIds, Hit;
      closed := true;
      ghost var s := View();
      var todo := index.Keys;
      CancelNone(s);
      assert index.Keys - todo == {};
      while todo != {}
        invariant todo <= index.Keys
        invariant View() == CancelLanes(s, index.Keys - todo)
        modifies `heap, `cancelled, `done
      {
        var c :| c in todo;
        CancelOneMore(s, index.Keys - todo, c);
        assert index.Keys - todo + {c} == index.Keys - (todo - {c});
        CancelLane(c);
        todo := todo - {c};
      }
      assert index.Keys - todo == s.index.Keys;
      SealedFirst(old(View()));
    }
  }

  lemma CancelNone(s: State)
    ensures CancelLanes(s, {}) == s
  {
    assert CancelLanes(s, {}).heap == s.heap;
    TellNone(s.done, Cancelled, {}, Cancelled);
    assert WaitingIds(s, {}) == {} && ActiveIds(s, {}) == {};
  }

  lemma SealedFirst(s: State)
    ensures CancelLanes(s.(closed := true), s.index.Keys) == Seal(s)
  {
    var s1 := s.(closed := true);
    assert forall id | id in s.heap :: Hit(s1, id, s.index.Keys) <==> Hit(s, id, s.index.Keys);
    assert WaitingIds(s1, s.index.Keys) == WaitingIds(s, s.index.Keys);
    assert ActiveIds(s1, s.index.Keys) == ActiveIds(s, s.index.Keys);
  }
}
