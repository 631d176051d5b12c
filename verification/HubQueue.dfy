/**
  The delivery hub's accounting of accepted messages: one counter, an idle channel that is closed whenever the
  counter is zero, and a close that settles whatever no worker will take any more.
 */
module HubQueue {
  import opened Common

  /** One accepted call of `Post`. */
  type PostId = nat

  /** Waiting for queue space, queued, in an outlet's hands, or answered, abandoned or reported as cancelled. */
  datatype Place = Posting | Queued | Sending | Settled

  /** `panicked` records a second close of one idle channel; `gone` is set once no poster or worker is left. */
  datatype Hub = Hub(sealed: bool, stopped: bool, gone: bool, finished: bool, pending: int, idle: bool,
                     panicked: bool, places: map<PostId, Place>)

  datatype Event =
    | DoPost(m: PostId)          // admission under the lock
    | DoEnqueue(m: PostId)       // the queue had room
    | DoAbort(m: PostId)         // the poster's context ended, or the hub stopped
    | DoTake(m: PostId)          // even after the stop: a worker's select may choose its queue
    | DoSent(m: PostId)
    | DoSeal
    | DoStop
    | DoLeave                    // every poster and worker has returned
    | DoReap(m: PostId)
    | DoFinishClose

  predicate At(h: Hub, m: PostId, p: Place) { m in h.places && h.places[m] == p }

  ghost predicate Nobody(h: Hub, p: Place) { forall m :: !At(h, m, p) }

  function Moved(h: Hub, m: PostId, p: Place): Hub { h.(places := h.places[m := p]) }

  /** The counter's step down; closing a closed channel would panic. */
  function Settle(h: Hub, m: PostId): Hub {
    h.(pending := h.pending - 1, idle := h.idle || h.pending == 1,
       panicked := h.panicked || (h.idle && h.pending == 1), places := h.places[m := Settled])
  }

  ghost function Apply(h: Hub, e: Event): Hub {
    match e
    case DoPost(m) =>
      if h.sealed || m in h.places then h
      else h.(pending := h.pending + 1, idle := h.idle && h.pending != 0, places := h.places[m := Posting])
    case DoEnqueue(m) => if At(h, m, Posting) then Moved(h, m, Queued) else h
    case DoAbort(m) => if At(h, m, Posting) then Settle(h, m) else h
    case DoTake(m) => if At(h, m, Queued) && !h.gone then Moved(h, m, Sending) else h
    case DoSent(m) => if At(h, m, Sending) then Settle(h, m) else h
    case DoSeal => h.(sealed := true)
    case DoStop => if h.sealed then h.(stopped := true) else h
    case DoLeave => if h.stopped && Nobody(h, Posting) && Nobody(h, Sending) then h.(gone := true) else h
    case DoReap(m) => if h.gone && At(h, m, Queued) then Settle(h, m) else h
    case DoFinishClose => if h.gone && Nobody(h, Queued) then h.(finished := true) else h
  }

  function Idle(): Hub { Hub(false, false, false, false, 0, true, false, map[]) }

  ghost function After(es: seq<Event>): Hub {
    if es == [] then Idle() else Apply(After(es[..|es| - 1]), es[|es| - 1])
  }

  ghost function Unsettled(h: Hub): set<PostId> { set m | m in h.places && h.places[m] != Settled }

  ghost predicate Inv(h: Hub) {
    && h.pending == |Unsettled(h)|
    && (h.idle <==> h.pending == 0)
    && !h.panicked
    && (h.stopped ==> h.sealed)
    && (h.gone ==> h.stopped && Nobody(h, Posting) && Nobody(h, Sending))
    && (h.finished ==> h.gone && Unsettled(h) == {})
  }

  /** Once posters and workers are gone, no message is in anybody's hands again. */
  lemma GoneStays(h: Hub, e: Event)
    requires Inv(h) && Apply(h, e).gone
    ensures var h' := Apply(h, e); h'.stopped && Nobody(h', Posting) && Nobody(h', Sending)
  {
    var h' := Apply(h, e);
    assert Nobody(h, Posting) && Nobody(h, Sending);
    forall m ensures !At(h', m, Posting) && !At(h', m, Sending) {
      assert !At(h, m, Posting) && !At(h, m, Sending);
    }
  }

  lemma StepKeepsInv(h: Hub, e: Event)
    requires Inv(h)
    ensures Inv(Apply(h, e))
  {
    var h' := Apply(h, e);
    if h'.gone {
      GoneStays(h, e);
    }
    match e
    case DoSeal => assert Unsettled(h') == Unsettled(h);
    case DoStop => assert Unsettled(h') == Unsettled(h);
    case DoLeave => assert Unsettled(h') == Unsettled(h);
    case DoFinishClose =>
      forall m | m in h'.places ensures h.finished || !h'.finished || h'.places[m] == Settled {
        assert !h.finished && h'.finished ==> !At(h, m, Posting) && !At(h, m, Sending) && !At(h, m, Queued);
      }
      assert Unsettled(h') == Unsettled(h);
    case _ =>
      if h' != h {
        assert Unsettled(h') - {e.m} == Unsettled(h) - {e.m};
        OneApart(Unsettled(h), Unsettled(h'), e.m);
      }
  }

  lemma {:induction false} Reachable(es: seq<Event>)
    ensures Inv(After(es))
  {
    if es == [] {
      assert Unsettled(After(es)) == {};
    } else {
      Reachable(es[..|es| - 1]);
      StepKeepsInv(After(es[..|es| - 1]), es[|es| - 1]);
    }
  }

  /**
    The counter is the number of unsettled messages, and the idle channel is closed exactly when there are none
    and never twice.
   */
  lemma EveryMessageIsCounted(es: seq<Event>)
    ensures var h := After(es);
            h.pending == |Unsettled(h)| && (h.idle <==> Unsettled(h) == {}) && !h.panicked
  {
    Reachable(es);
  }

  /** When `Close` completes, everything ever admitted has been settled, and nothing more is admitted. */
  lemma ClosedHubHasSettledAll(es: seq<Event>, m: PostId)
    requires After(es).finished && m in After(es).places
    ensures After(es).places[m] == Settled
    ensures forall n :: After(es + [DoPost(n)]) == After(es)
  {
    Reachable(es);
    assert m !in Unsettled(After(es));
    forall n ensures After(es + [DoPost(n)]) == After(es) {
      assert (es + [DoPost(n)])[..|es|] == es;
    }
  }

  // ---------------------------------------------------------------------------
  // The hub object
  // ---------------------------------------------------------------------------

  class HubObject {
    var sealed: bool
    var pending: int
    var idle: bool
    /** The hub as the runs above see it. */
    ghost var h: Hub

    ghost predicate Valid()
      reads this
    {
      Inv(h) && sealed == h.sealed && pending == h.pending && idle == h.idle
    }

    constructor ()
      ensures Valid() && h == Idle()
    {
      sealed, pending, idle, h := false, 0, true, Idle();
      new;
      assert Unsettled(h) == {};
    }

    /** The admission part of `Post`; `routable` says that the message names a known outlet and a target. */
    method TryPost(m: PostId, routable: bool) returns (ok: bool)
      requires Valid() && m !in h.places
      modifies this
      ensures Valid() && h == if routable then Apply(old(h), DoPost(m)) else old(h)
      ensures ok <==> At(h, m, Posting)
    {
      if sealed || !routable {
        return false;
      }
      if pending == 0 {
        idle := false;
      }
      pending := pending + 1;
      StepKeepsInv(h, DoPost(m));
      h := Apply(h, DoPost(m));
      return true;
    }

    /** Settles a message that was aborted, sent or reaped; the idle channel is closed only while open. */
    method Finish(ghost e: Event)
      requires Valid() && Settles(h, e)
      modifies this
      ensures Valid() && h == Apply(old(h), e) == Settle(old(h), e.m)
      ensures pending == old(pending) - 1 && (idle <==> pending == 0) && !old(idle)
    {
      assert e.m in Unsettled(h);
      pending := pending - 1;
      if pending == 0 {
        assert !idle;
        idle := true;
      }
      StepKeepsInv(h, e);
      h := Apply(h, e);
    }

    /** The end of `Close`: with nobody left to take them, what the queues still hold is settled one by one. */
    method ReapQueue(queue: seq<PostId>)
      requires Valid() && h.gone && forall m :: m in queue <==> At(h, m, Queued)
      requires forall i, k :: 0 <= i < k < |queue| ==> queue[i] != queue[k]
      modifies this
      ensures Valid() && h.gone && Unsettled(h) == {} && pending == 0 && idle
      ensures h.places.Keys == old(h).places.Keys
      ensures Apply(h, DoFinishClose).finished
    {
      var i := 0;
      while i < |queue|
        invariant 0 <= i <= |queue| && Valid() && h.gone && h.places.Keys == old(h).places.Keys
        invariant forall m :: m in queue[i..] <==> At(h, m, Queued)
      {
        assert queue[i..] == [queue[i]] + queue[i + 1..];
        ghost var before := h;
        Finish(DoReap(queue[i]));
        forall m ensures m in queue[i + 1..] <==> At(h, m, Queued) {
          assert m in queue[i..] <==> At(before, m, Queued);
        }
        i := i + 1;
      }
      forall m ensures m !in Unsettled(h) {
        assert !At(h, m, Posting) && !At(h, m, Sending) && !At(h, m, Queued);
      }
      assert Unsettled(h) == {};
    }
  }

  /** The events by which a message is settled, at the moment they happen. */
  ghost predicate Settles(h: Hub, e: Event) {
    || (e.DoAbort? && At(h, e.m, Posting))
    || (e.DoSent? && At(h, e.m, Sending))
    || (e.DoReap? && h.gone && At(h, e.m, Queued))
  }
}
