/**
  What the steps of the scheduler do to conversations and handles, in terms of the lanes' own fields: whom a
  cancellation reaches, where a submission goes, how a turn ends, and where every verdict comes from.
 */
module SchedulerMeaning {
  import opened Common
  import opened Scheduler
  import opened SchedulerRuns
  import opened SchedulerSafety

  /** A message of the lane that has not been taken by a turn. */
  ghost predicate Waits(l: Lane, i: JobId) { exists j :: (j in l.queue || j in l.inbox) && j.id == i }

  ghost predicate Runs(l: Lane, i: JobId) { l.active.Some? && l.active.value.id == i }

  /** The lane that the index gives for conversation `c`. */
  ghost predicate LaneOf(s: State, c: Conversation, id: LaneId) { c in s.index && s.index[c] == id && id in s.heap }

  ghost predicate WaitsIn(s: State, cs: set<Conversation>, i: JobId) {
    exists c, id :: c in cs && LaneOf(s, c, id) && Waits(s.heap[id], i)
  }

  ghost predicate RunsIn(s: State, cs: set<Conversation>, i: JobId) {
    exists c, id :: c in cs && LaneOf(s, c, id) && Runs(s.heap[id], i)
  }

  // ---------------------------------------------------------------------------
  // Cancellation
  // ---------------------------------------------------------------------------

  /** The conversations that a cancelling step is about. */
  ghost function Targets(s: State, e: Event): set<Conversation> {
    match e
    case DoCancelConversation(c) => {c}
    case DoSeal => s.index.Keys
    case _ => {}
  }

  lemma HitIsLaneOf(s: State, cs: set<Conversation>, id: LaneId)
    requires IndexOk(s) && id in s.heap
    ensures Hit(s, id, cs) <==> exists c :: c in cs && LaneOf(s, c, id)
  {
    if c :| c in cs && LaneOf(s, c, id) {
      assert s.heap[s.index[c]].conversation == c;
    }
    if Hit(s, id, cs) {
      assert LaneOf(s, s.heap[id].conversation, id);
    }
  }

  lemma WaitingMeans(s: State, cs: set<Conversation>, i: JobId)
    requires IndexOk(s)
    ensures i in WaitingIds(s, cs) <==> WaitsIn(s, cs, i)
  {
    if i in WaitingIds(s, cs) {
      var id :| id in s.heap && Hit(s, id, cs) && i in Ids(s.heap[id].queue + s.heap[id].inbox);
      HitIsLaneOf(s, cs, id);
      WaitsMeans(s.heap[id], i);
    }
    if WaitsIn(s, cs, i) {
      var c, id :| c in cs && LaneOf(s, c, id) && Waits(s.heap[id], i);
      HitIsLaneOf(s, cs, id);
      WaitsMeans(s.heap[id], i);
    }
  }

  lemma WaitsMeans(l: Lane, i: JobId)
    ensures i in Ids(l.queue + l.inbox) <==> Waits(l, i)
  {
    if j :| (j in l.queue || j in l.inbox) && j.id == i {
      assert j in l.queue + l.inbox;
    }
  }

  lemma ActiveMeans(s: State, cs: set<Conversation>, i: JobId)
    requires IndexOk(s)
    ensures i in ActiveIds(s, cs) <==> RunsIn(s, cs, i)
  {
    if i in ActiveIds(s, cs) {
      var id :| id in s.heap && Hit(s, id, cs) && s.heap[id].active.Some? && s.heap[id].active.value.id == i;
      HitIsLaneOf(s, cs, id);
    }
    if RunsIn(s, cs, i) {
      var c, id :| c in cs && LaneOf(s, c, id) && Runs(s.heap[id], i);
      HitIsLaneOf(s, cs, id);
    }
  }

  /** Whoever a lane holds belongs to its conversation. */
  lemma HeldBelongs(cfg: Config, s: State, cs: set<Conversation>, i: JobId)
    requires Structure(cfg, s) && Jobs(s) && (WaitsIn(s, cs, i) || RunsIn(s, cs, i))
    ensures i in s.accepted && s.accepted[i].conversation in cs
  {
    var c, id :| c in cs && LaneOf(s, c, id) && (Waits(s.heap[id], i) || Runs(s.heap[id], i));
    var l := s.heap[id];
    var j: Job;
    if Runs(l, i) {
      j := l.active.value;
    } else {
      j :| (j in l.queue || j in l.inbox) && j.id == i;
    }
    assert HeldAt(s, id) && HeldOk(ChargeOf(s, id), s.accepted, s.done.Keys, j);
    assert l.conversation == c;
    assert j in Held(ChargeOf(s, id));
  }

  /** Exactly the running turns and the waiting messages of these conversations are cancelled, and of no others. */
  ghost predicate CancelsTheirs(s: State, s': State, cs: set<Conversation>) {
    && (forall i :: i in s'.cancelled <==> i in s.cancelled || RunsIn(s, cs, i) || WaitsIn(s, cs, i))
    && (forall i :: i in s'.cancelled && i !in s.cancelled ==> i in s.accepted && s.accepted[i].conversation in cs)
  }

  /** Exactly the waiting messages of these conversations get a verdict. */
  ghost predicate TellsTheirs(s: State, s': State, cs: set<Conversation>) {
    && (forall i :: i in s'.done <==> i in s.done || WaitsIn(s, cs, i))
    && (forall i :: i in s'.done ==> s'.done[i] == if i in s.done then s.done[i] else Cancelled)
  }

  /** Exactly the lanes of these conversations are emptied of what waits. */
  ghost predicate EmptiesTheirs(s: State, s': State, cs: set<Conversation>) {
    && s'.heap.Keys == s.heap.Keys
    && forall id :: id in s.heap ==>
         s'.heap[id] == if exists c :: c in cs && LaneOf(s, c, id) then s.heap[id].(queue := [], inbox := [])
                        else s.heap[id]
  }

  /**
    A cancelled conversation, or every conversation when admission is sealed: its running turn and whatever waits
    there are cancelled, and nobody else is; what waits is dropped with a verdict; no other lane changes.
   */
  lemma CancellationIsExact(cfg: Config, es: seq<Event>, e: Event)
    requires e.DoCancelConversation? || e.DoSeal?
    ensures var s, s' := After(cfg, es).s, After(cfg, es + [e]).s;
            && CancelsTheirs(s, s', Targets(s, e)) && TellsTheirs(s, s', Targets(s, e))
            && EmptiesTheirs(s, s', Targets(s, e))
            && s'.closed == (s.closed || e.DoSeal?) && s'.index == s.index && s'.workers == s.workers
  {
    hide Structure, Jobs, Pools, Handed, CancelsTheirs, TellsTheirs, EmptiesTheirs, CancelLanes;
    Reachable(cfg, es);
    assert (es + [e])[..|es|] == es;
    var s := After(cfg, es).s;
    var closed := s.closed || e.DoSeal?;
    CancelledAre(cfg, s, Targets(s, e), closed);
    ToldAre(cfg, s, Targets(s, e), closed);
    EmptiedAre(cfg, s, Targets(s, e), closed);
    OnlyLanes(s, Targets(s, e));
    hide After;
  }

  lemma OnlyLanes(s: State, cs: set<Conversation>)
    ensures var s' := CancelLanes(s, cs); s'.closed == s.closed && s'.index == s.index && s'.workers == s.workers
  {
    hide Tell, WaitingIds, ActiveIds;
  }

  lemma CancelledAre(cfg: Config, s: State, cs: set<Conversation>, closed: bool)
    requires Structure(cfg, s) && Jobs(s)
    ensures CancelsTheirs(s, CancelLanes(s, cs).(closed := closed), cs)
  {
    hide WaitingIds, ActiveIds, WaitsIn, RunsIn, Structure, Jobs, Tell;
    IndexIsOk(cfg, s);
    forall i
      ensures i in WaitingIds(s, cs) <==> WaitsIn(s, cs, i)
      ensures i in ActiveIds(s, cs) <==> RunsIn(s, cs, i)
      ensures WaitsIn(s, cs, i) || RunsIn(s, cs, i) ==> i in s.accepted && s.accepted[i].conversation in cs
    {
      WaitingMeans(s, cs, i);
      ActiveMeans(s, cs, i);
      if WaitsIn(s, cs, i) || RunsIn(s, cs, i) {
        HeldBelongs(cfg, s, cs, i);
      }
    }
  }

  lemma ToldAre(cfg: Config, s: State, cs: set<Conversation>, closed: bool)
    requires Structure(cfg, s)
    ensures TellsTheirs(s, CancelLanes(s, cs).(closed := closed), cs)
  {
    hide WaitingIds, ActiveIds, WaitsIn, Structure;
    IndexIsOk(cfg, s);
    forall i ensures i in WaitingIds(s, cs) <==> WaitsIn(s, cs, i) {
      WaitingMeans(s, cs, i);
    }
  }

  lemma EmptiedAre(cfg: Config, s: State, cs: set<Conversation>, closed: bool)
    requires Structure(cfg, s)
    ensures EmptiesTheirs(s, CancelLanes(s, cs).(closed := closed), cs)
  {
    hide WaitingIds, ActiveIds, Structure, Hit, LaneOf, Tell;
    IndexIsOk(cfg, s);
    forall id | id in s.heap ensures Hit(s, id, cs) <==> exists c :: c in cs && LaneOf(s, c, id) {
      HitIsLaneOf(s, cs, id);
    }
  }

  lemma IndexIsOk(cfg: Config, s: State)
    requires Structure(cfg, s)
    ensures IndexOk(s)
  {
  }

  // ---------------------------------------------------------------------------
  // Submission
  // ---------------------------------------------------------------------------

  /** The lane a submission finds, or the empty one it makes. */
  ghost predicate Meets(s: State, e: Event, id: LaneId, l: Lane)
    requires e.DoSubmit?
  {
    if e.job.conversation in s.index then LaneOf(s, e.job.conversation, id) && l == s.heap[id]
    else id == e.lane && l == Lane(e.job.conversation, e.source, [], [], None, false, false)
  }

  /**
    Where a submission goes. An approval goes to the head of its conversation; an injection joins the running turn, an
    interrupt cancels it and goes to the head, and everything else goes behind. A goroutine starts for whatever is
    queued in a conversation that has none, unless it is paused and this is no approval.
   */
  lemma SubmissionIsPlaced(cfg: Config, es: seq<Event>, e: Event, id: LaneId, l: Lane)
    requires e.DoSubmit? && Fresh(After(cfg, es).s, e.job, e.lane, e.worker) && Meets(After(cfg, es).s, e, id, l)
    ensures var s, s' := After(cfg, es).s, After(cfg, es + [e]).s;
            var busy := l.active.Some?;
            var injected := !e.job.approval && e.policy == Inject && busy;
            var ahead := e.job.approval || (e.policy == Interrupt && busy);
            if s.closed || e.contextDone || l.source != e.source || |l.queue| + |l.inbox| >= cfg.capacity then
              s'.accepted == s.accepted && s'.cancelled == s.cancelled && s'.workers == s.workers && s'.done == s.done
            else
              && s'.accepted == s.accepted[e.job.id := e.job] && s'.done == s.done && id in s'.heap
              && s'.heap[id].queue == (if injected then l.queue else if ahead then [e.job] + l.queue else l.queue + [e.job])
              && s'.heap[id].inbox == (if injected then l.inbox + [e.job] else l.inbox)
              && s'.heap[id].active == l.active && s'.heap[id].paused == l.paused
              && s'.cancelled == s.cancelled + (if ahead && !e.job.approval then {l.active.value.id} else {})
              && (if !injected && !l.running && (!l.paused || e.job.approval)
                  then s'.heap[id].running && e.worker in s'.workers && id in s'.spawned && s'.spawned[id] == e.worker
                  else s'.heap[id].running == l.running && s'.workers == s.workers)
              && (forall n :: n in s.heap && n != id ==> n in s'.heap && s'.heap[n] == s.heap[n])
  {
    Reachable(cfg, es);
    assert (es + [e])[..|es|] == es;
    var s := After(cfg, es).s;
    hide After, Structure, Jobs, Pools, Handed, Submit, Fresh;
    IndexIsOk(cfg, s);
    FoundLaneIs(s, e, id, l);
    var s1 := s.(index := s.index[e.job.conversation := id], heap := s.heap[id := l]);
    SubmitIs(cfg, s, e, id, l);
    if !(s.closed || e.contextDone || l.source != e.source || |l.queue| + |l.inbox| >= cfg.capacity) {
      FreshIs(s, e);
      AdmissionIs(s1, id, e.job, e.policy, e.worker);
    }
  }

  lemma FreshIs(s: State, e: Event)
    requires e.DoSubmit? && Fresh(s, e.job, e.lane, e.worker)
    ensures e.lane !in s.heap
  {
  }

  lemma FoundLaneIs(s: State, e: Event, id: LaneId, l: Lane)
    requires IndexOk(s) && e.DoSubmit? && Meets(s, e, id, l)
    ensures LaneFor(s, e.job, e.source, e.lane) == (id, l)
  {
  }

  lemma SubmitIs(cfg: Config, s: State, e: Event, id: LaneId, l: Lane)
    requires e.DoSubmit? && LaneFor(s, e.job, e.source, e.lane) == (id, l)
    ensures var s1 := s.(index := s.index[e.job.conversation := id], heap := s.heap[id := l]);
            var s' := Submit(cfg, s, e.job, e.policy, e.source, e.contextDone, e.lane, e.worker).0;
            if s.closed || e.contextDone then s' == s
            else if l.source != e.source || |l.queue| + |l.inbox| >= cfg.capacity then s' == s1
            else s' == Admitted(s1, id, e.job, e.policy, e.worker)
  {
    hide Admitted, LaneFor;
  }

  lemma AdmissionIs(s: State, id: LaneId, job: Job, policy: Policy, worker: WorkerId)
    requires id in s.heap
    ensures var l, s' := s.heap[id], Admitted(s, id, job, policy, worker);
            var busy := l.active.Some?;
            var injected := !job.approval && policy == Inject && busy;
            var ahead := job.approval || (policy == Interrupt && busy);
            && s'.accepted == s.accepted[job.id := job] && s'.done == s.done && id in s'.heap
            && s'.heap[id].queue == (if injected then l.queue else if ahead then [job] + l.queue else l.queue + [job])
            && s'.heap[id].inbox == (if injected then l.inbox + [job] else l.inbox)
            && s'.heap[id].active == l.active && s'.heap[id].paused == l.paused
            && s'.cancelled == s.cancelled + (if ahead && !job.approval then {l.active.value.id} else {})
            && (if !injected && !l.running && (!l.paused || job.approval)
                then s'.heap[id].running && worker in s'.workers && id in s'.spawned && s'.spawned[id] == worker
                else s'.heap[id].running == l.running && s'.workers == s.workers)
            && s'.heap == s.heap[id := s'.heap[id]]
  {
  }

  // ---------------------------------------------------------------------------
  // The end of a turn
  // ---------------------------------------------------------------------------

  ghost predicate Ahead(taken: seq<Job>, x: Job, y: Job) {
    exists p, q :: 0 <= p < q < |taken| && taken[p] == x && taken[q] == y
  }

  /** The messages of `taken` are those of `inbox` that nobody cancelled, in their order. */
  ghost predicate InOrder(inbox: seq<Job>, cancelled: set<JobId>, taken: seq<Job>) {
    && |taken| <= |inbox|
    && (forall j :: j in taken <==> j in inbox && j.id !in cancelled)
    && forall i, k :: 0 <= i < k < |inbox| && inbox[i].id !in cancelled && inbox[k].id !in cancelled ==>
         Ahead(taken, inbox[i], inbox[k])
  }

  lemma AheadGrows(taken: seq<Job>, x: Job, y: Job, z: Job)
    ensures Ahead(taken, x, y) ==> Ahead(taken + [z], x, y)
    ensures x in taken ==> Ahead(taken + [z], x, z)
  {
    if p, q :| 0 <= p < q < |taken| && taken[p] == x && taken[q] == y {
      assert (taken + [z])[p] == x && (taken + [z])[q] == y;
    }
    if x in taken {
      var p :| 0 <= p < |taken| && taken[p] == x;
      assert (taken + [z])[p] == x && (taken + [z])[|taken|] == z;
    }
  }

  lemma InOrderGrows(inbox: seq<Job>, cancelled: set<JobId>, taken: seq<Job>, z: Job)
    requires InOrder(inbox, cancelled, taken)
    ensures InOrder(inbox + [z], cancelled, if z.id in cancelled then taken else taken + [z])
  {
    hide Ahead;
    var more, now := inbox + [z], if z.id in cancelled then taken else taken + [z];
    forall i, k | 0 <= i < k < |more| && more[i].id !in cancelled && more[k].id !in cancelled
      ensures Ahead(now, more[i], more[k])
    {
      assert more[i] == inbox[i] && inbox[i] in inbox;
      AheadGrows(taken, more[i], more[k], z);
      if k < |inbox| {
        assert more[k] == inbox[k];
        assert Ahead(taken, inbox[i], inbox[k]);
      }
    }
  }

  lemma LiveNext(inbox: seq<Job>, cancelled: set<JobId>, z: Job)
    ensures var taken := Live(inbox, cancelled);
            Live(inbox + [z], cancelled) == if z.id in cancelled then taken else taken + [z]
  {
    assert (inbox + [z])[..|inbox|] == inbox;
  }

  lemma NothingIsInOrder(cancelled: set<JobId>)
    ensures InOrder([], cancelled, Live([], cancelled))
  {
  }

  lemma {:induction false} LiveIsInOrder(inbox: seq<Job>, cancelled: set<JobId>)
    ensures InOrder(inbox, cancelled, Live(inbox, cancelled))
  {
    hide InOrder, Live;
    if inbox == [] {
      NothingIsInOrder(cancelled);
    } else {
      var n := |inbox| - 1;
      assert inbox == inbox[..n] + [inbox[n]];
      LiveIsInOrder(inbox[..n], cancelled);
      LiveNext(inbox[..n], cancelled, inbox[n]);
      InOrderGrows(inbox[..n], cancelled, Live(inbox[..n], cancelled), inbox[n]);
    }
  }

  /** A running turn takes the live messages of its inbox behind those it has, in order, and empties the inbox. */
  lemma DrainTakesInOrder(cfg: Config, es: seq<Event>, w: WorkerId)
    requires var s := After(cfg, es).s; Busy(s, w) && s.workers[w].phase.InRunner?
    ensures var s, s' := After(cfg, es).s, After(cfg, es + [DoDrain(w)]).s;
            var k, l := s.workers[w], s.heap[s.workers[w].lane];
            && w in s'.workers && k.consumed <= s'.workers[w].consumed
            && InOrder(l.inbox, s.cancelled, s'.workers[w].consumed[|k.consumed|..])
            && s'.heap == s.heap[k.lane := l.(inbox := [])] && s'.cancelled == s.cancelled
  {
    assert (es + [DoDrain(w)])[..|es|] == es;
    var s := After(cfg, es).s;
    hide After, Live, InOrder, Tell, DeadIds;
    LiveIsInOrder(s.heap[s.workers[w].lane].inbox, s.cancelled);
    var k := s.workers[w];
    var taken := Live(s.heap[k.lane].inbox, s.cancelled);
    assert (k.consumed + taken)[|k.consumed|..] == taken;
  }

  /**
    The end of a turn: what it did not take is queued behind what waits, and the conversation is paused by a turn that
    asks for it, resumed by an answered approval, and otherwise as it was.
   */
  lemma TurnsEnd(cfg: Config, es: seq<Event>, w: WorkerId)
    requires var s := After(cfg, es).s; Busy(s, w) && s.workers[w].phase.Told?
    ensures var s, s' := After(cfg, es).s, After(cfg, es + [DoSettle(w)]).s;
            var k, l := s.workers[w], s.heap[s.workers[w].lane];
            var o := k.phase.o;
            && k.lane in s'.heap && s'.heap.Keys == s.heap.Keys
            && s'.heap[k.lane].queue == l.queue + l.inbox && s'.heap[k.lane].inbox == []
            && s'.heap[k.lane].active == None && s'.heap[k.lane].running == l.running
            && (s'.heap[k.lane].paused <==> o == Paused || (l.paused && !(k.job.value.approval && o == Answered)))
            && w in s'.workers && s'.workers[w] == Worker(k.lane, None, Waiting, [])
            && (forall n :: n in s.heap && n != k.lane ==> s'.heap[n] == s.heap[n])
  {
    assert (es + [DoSettle(w)])[..|es|] == es;
    hide After, Tell, Ids;
  }

  // ---------------------------------------------------------------------------
  // Verdicts
  // ---------------------------------------------------------------------------

  /** Step `e` gives handle `i` the verdict `v`: every way there is. */
  ghost predicate Gives(s: State, e: Event, i: JobId, v: Verdict) {
    match e
    case DoTellOwn(w) =>
      Busy(s, w) && s.workers[w].phase.Released? && s.workers[w].job.value.id == i && v == Own(s.workers[w].phase.o)
    case DoSettle(w) =>
      && Busy(s, w) && s.workers[w].phase.Told? && (exists j :: j in s.workers[w].consumed && j.id == i)
      && v == Merged(if i in s.cancelled then Failed else s.workers[w].phase.o)
    case DoDrain(w) =>
      && Busy(s, w) && s.workers[w].phase.InRunner? && i in s.cancelled && v == Cancelled
      && exists j :: j in s.heap[s.workers[w].lane].inbox && j.id == i
    case DoCancelConversation(c) => WaitsIn(s, {c}, i) && v == Cancelled
    case DoSeal => WaitsIn(s, s.index.Keys, i) && v == Cancelled
    case _ => false
  }

  /**
    Every verdict has its cause, and every cause gives its verdict: a turn's own outcome, the outcome of the turn that
    took the message, or a cancellation before any turn took it.
   */
  lemma VerdictsHaveCauses(cfg: Config, es: seq<Event>, e: Event, i: JobId)
    requires i !in After(cfg, es).s.done
    ensures var s, s' := After(cfg, es).s, After(cfg, es + [e]).s;
            && (i in s'.done ==> Gives(s, e, i, s'.done[i]))
            && (i !in s'.done ==> forall v :: !Gives(s, e, i, v))
  {
    Reachable(cfg, es);
    assert (es + [e])[..|es|] == es;
    if e.DoCancelConversation? || e.DoSeal? {
      CancellationIsExact(cfg, es, e);
      hide After;
    } else {
      var r := After(cfg, es);
      hide After, LaneFor, Live, Inv, Admitted;
      TurnGives(cfg, r, e, i);
    }
  }

  lemma TurnGives(cfg: Config, r: Run, e: Event, i: JobId)
    requires i !in r.s.done && !e.DoCancelConversation? && !e.DoSeal?
    ensures var s' := Apply(cfg, r, e).s;
            && (i in s'.done ==> Gives(r.s, e, i, s'.done[i]))
            && (i !in s'.done ==> forall v :: !Gives(r.s, e, i, v))
  {
    hide Submit, TakeNext, Moved, Settle, Drain, TellOwn, MayMove, Fresh, WaitsIn;
    match e
    case DoSubmit(job, policy, source, contextDone, lane, worker) =>
      SubmitGivesNothing(cfg, r.s, job, policy, source, contextDone, lane, worker);
    case DoTake(w) =>
      if OnLane(r.s, w) {
        TakingGivesNothing(r.s, w);
      }
    case DoMove(w, m) =>
      if Busy(r.s, w) && MayMove(cfg, r.s, w, m) {
        MovingGivesNothing(r.s, w, m);
      }
    case DoTellOwn(w) =>
      if Busy(r.s, w) && r.s.workers[w].phase.Released? {
        OwnGives(r.s, w, i);
      }
    case DoSettle(w) =>
      if Busy(r.s, w) {
        SettlingGives(r.s, w, r.s.workers[w].phase, i);
      }
    case DoDrain(w) =>
      if Busy(r.s, w) {
        DrainingGives(r.s, w, i);
      }
    case _ =>
  }

  lemma TakingGivesNothing(s: State, w: WorkerId)
    requires OnLane(s, w)
    ensures TakeNext(s, w).done == s.done
  {}

  lemma MovingGivesNothing(s: State, w: WorkerId, m: Move)
    requires Busy(s, w)
    ensures Moved(s, w, m).done == s.done
  {
    hide NextPool;
  }

  lemma OwnGives(s: State, w: WorkerId, i: JobId)
    requires Busy(s, w) && s.workers[w].phase.Released? && i !in s.done
    ensures var done := TellOwn(s, w).done;
            && (i in done <==> s.workers[w].job.value.id == i) && (i in done ==> done[i] == Own(s.workers[w].phase.o))
  {}

  lemma SettlingGives(s: State, w: WorkerId, p: Phase, i: JobId)
    requires Busy(s, w) && i !in s.done && s.workers[w].phase == p
    ensures p.Told? ==>
              var done := Settle(s, w, p.o).done;
              && (i in done <==> exists j :: j in s.workers[w].consumed && j.id == i)
              && (i in done ==> done[i] == Merged(if i in s.cancelled then Failed else p.o))
  {
    IdsMean(s.workers[w].consumed, i);
    hide Ids, AfterTurn;
  }

  lemma DrainingGives(s: State, w: WorkerId, i: JobId)
    requires Busy(s, w) && i !in s.done
    ensures var done := Drain(s, w).done;
            && (i in done <==> i in s.cancelled && exists j :: j in s.heap[s.workers[w].lane].inbox && j.id == i)
            && (i in done ==> done[i] == Cancelled)
  {
    IdsMean(s.heap[s.workers[w].lane].inbox, i);
    hide Ids, Live;
  }

  lemma SubmitGivesNothing(cfg: Config, s: State, job: Job, policy: Policy, source: string, contextDone: bool,
                           lane: LaneId, worker: WorkerId)
    ensures Submit(cfg, s, job, policy, source, contextDone, lane, worker).0.done == s.done
  {
    hide LaneFor, Enqueued, Starts, Interrupts;
  }

  lemma IdsMean(jobs: seq<Job>, i: JobId)
    ensures i in Ids(jobs) <==> exists j :: j in jobs && j.id == i
  {
  }
}
