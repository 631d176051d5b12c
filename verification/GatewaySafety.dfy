/**
  What every run of the gateway guarantees: at most one turn per inbound event, one reply per completed turn, and
  no send that an operator has not allowed.
 */
module GatewaySafety {
  import opened Common
  import opened Journal
  import opened Delivery
  import opened GatewayRuns
  import Text

  // ---------------------------------------------------------------------------
  // Inbound: one accepted turn per event
  // ---------------------------------------------------------------------------

  /** Not recorded yet, or recorded and still waiting. */
  ghost predicate Unstarted(b: Book, id: string) {
    (Inbox, id) in b.entries ==> b.entries[(Inbox, id)].status == Pending
  }

  ghost predicate Hot(s: Sys, o: OwnerId) { o in s.publishing && s.publishing[o].stage != Recorded }

  ghost predicate SubmittedAt(s: Sys, id: string) {
    s.submitted[id] <= 1 && (Unstarted(s.book, id) ==> s.submitted[id] == 0)
  }

  /** A claim in progress: nobody has submitted the event, and nobody else holds it. */
  ghost predicate HotAt(s: Sys, o: OwnerId) {
    Hot(s, o) ==> s.submitted[s.publishing[o].m.id] == 0 && !Unstarted(s.book, s.publishing[o].m.id)
  }

  ghost predicate ApartAt(s: Sys, o: OwnerId, o': OwnerId) {
    Hot(s, o) && Hot(s, o') && s.publishing[o].m.id == s.publishing[o'].m.id ==> o == o'
  }

  ghost predicate Inbound(s: Sys) {
    && (forall id :: SubmittedAt(s, id))
    && (forall o :: HotAt(s, o))
    && (forall o, o' :: ApartAt(s, o, o'))
  }

  /** Steps that submit nothing, start no claim, and make nothing wait again that did not. */
  lemma QuietKeepsInbound(s: Sys, s': Sys)
    requires Inbound(s) && s'.submitted == s.submitted
    requires forall o :: Hot(s', o) ==> Hot(s, o) && s'.publishing[o].m.id == s.publishing[o].m.id
    requires forall id :: Unstarted(s'.book, id) ==> Unstarted(s.book, id)
    ensures Inbound(s')
  {
    hide Unstarted;
    forall id ensures SubmittedAt(s', id) {
      assert SubmittedAt(s, id);
    }
    forall o ensures HotAt(s', o) {
      assert HotAt(s, o);
      if Hot(s', o) {
        assert !Unstarted(s'.book, s.publishing[o].m.id);
      }
    }
    forall o, o' ensures ApartAt(s', o, o') {
      assert ApartAt(s, o, o');
    }
  }

  lemma ClaimKeepsInbound(s: Sys, o: OwnerId, w: Write)
    requires Inbound(s) && InStage(s, o, Recorded)
    ensures Inbound(Claim(s, o, w))
  {
    var s' := Claim(s, o, w);
    var id := s.publishing[o].m.id;
    assert SubmittedAt(s, id);
    forall i ensures SubmittedAt(s', i) {
      assert SubmittedAt(s, i);
    }
    forall p ensures HotAt(s', p) {
      assert HotAt(s, p);
    }
    forall p, q ensures ApartAt(s', p, q) {
      assert ApartAt(s, p, q) && HotAt(s, p) && HotAt(s, q);
    }
  }

  lemma SubmitKeepsInbound(s: Sys, o: OwnerId, accepted: bool)
    requires Inbound(s) && InStage(s, o, Claimed)
    ensures Inbound(SubmitTurn(s, o, accepted))
  {
    var s' := SubmitTurn(s, o, accepted);
    assert HotAt(s, o);
    forall i ensures SubmittedAt(s', i) {
      assert SubmittedAt(s, i);
    }
    forall p ensures HotAt(s', p) {
      assert HotAt(s, p) && ApartAt(s, o, p);
    }
    forall p, q ensures ApartAt(s', p, q) {
      assert ApartAt(s, p, q);
    }
  }

  lemma UnclaimKeepsInbound(s: Sys, o: OwnerId, w: Write)
    requires Inbound(s) && InStage(s, o, TurnedAway)
    ensures Inbound(Unclaim(s, o, w))
  {
    var s' := Unclaim(s, o, w);
    assert HotAt(s, o);
    forall i ensures SubmittedAt(s', i) {
      assert SubmittedAt(s, i);
    }
    forall p ensures HotAt(s', p) {
      assert HotAt(s, p) && ApartAt(s, o, p);
    }
    forall p, q ensures ApartAt(s', p, q) {
      assert ApartAt(s, p, q);
    }
  }

  lemma PublishIsQuiet(s: Sys, o: OwnerId, m: Message, w: Write)
    requires o in s.owners && o !in s.publishing
    ensures var s' := PublishEvent(s, o, m, w);
            && s'.submitted == s.submitted
            && (forall p :: Hot(s', p) ==> Hot(s, p) && s'.publishing[p].m.id == s.publishing[p].m.id)
            && (forall id :: Unstarted(s'.book, id) ==> Unstarted(s.book, id))
  {
  }

  lemma TurnIsQuiet(s: Sys, o: OwnerId, m: Message, end: TurnEnd, w: Write)
    requires o in s.owners
    ensures var s' := EndTurn(s, o, m, end, w);
            && s'.submitted == s.submitted && s'.publishing == s.publishing
            && (forall id :: Unstarted(s'.book, id) ==> Unstarted(s.book, id))
  {
  }

  lemma InboundStep(cfg: Config, s: Sys, e: Event)
    requires Inbound(s)
    ensures Inbound(ApplyInbound(s, e))
  {
    hide Inbound, InboundId, PublishEvent, Claim, SubmitTurn, Unclaim, EndTurn, Unstarted;
    match e
    case DoPublish(o, channel, event, source, text, w) =>
      if o in s.owners && o !in s.publishing {
        PublishIsQuiet(s, o, Message(InboundId(channel, event), source, text), w);
        QuietKeepsInbound(s, ApplyInbound(s, e));
      }
    case DoClaim(o, w) => if InStage(s, o, Recorded) { ClaimKeepsInbound(s, o, w); }
    case DoSubmit(o, accepted) => if InStage(s, o, Claimed) { SubmitKeepsInbound(s, o, accepted); }
    case DoUnclaim(o, w) => if InStage(s, o, TurnedAway) { UnclaimKeepsInbound(s, o, w); }
    case DoTurn(o, m, end, w) =>
      if o in s.owners && (o, m) in s.turns {
        TurnIsQuiet(s, o, m, end, w);
        QuietKeepsInbound(s, ApplyInbound(s, e));
      }
    case _ =>
  }

  lemma OutboundKeepsInbound(cfg: Config, s: Sys, e: Event)
    requires Inbound(s)
    ensures Inbound(ApplyOutbound(cfg, s, e))
  {
    hide Inbound, Step;
    QuietKeepsInbound(s, ApplyOutbound(cfg, s, e));
  }

  lemma OwnersKeepInbound(cfg: Config, s: Sys, e: Event)
    requires Inbound(s) && (e.DoOpen? || e.DoClose? || e.DoCrash?)
    ensures Inbound(Apply(cfg, s, e))
  {
    hide Inbound, ApplyInbound, ApplyOutbound;
    QuietKeepsInbound(s, Apply(cfg, s, e));
  }

  /** An operator never makes an inbound event wait again. */
  lemma ReconcileIsQuiet(b: Book, o: Owner, kind: Kind, id: string, d: Decision, text: string)
    ensures Reconcile(b, o, kind, id, d, text).Ok? ==>
              forall i :: Unstarted(Reconcile(b, o, kind, id, d, text).value, i) ==> Unstarted(b, i)
  {
    hide Text.Blank;
  }

  lemma StepKeepsInbound(cfg: Config, s: Sys, e: Event)
    requires Inbound(s)
    ensures Inbound(Apply(cfg, s, e))
  {
    hide Inbound, ApplyInbound, ApplyOutbound;
    match e
    case DoPublish(_, _, _, _, _, _) => InboundStep(cfg, s, e);
    case DoClaim(_, _) => InboundStep(cfg, s, e);
    case DoSubmit(_, _) => InboundStep(cfg, s, e);
    case DoUnclaim(_, _) => InboundStep(cfg, s, e);
    case DoTurn(_, _, _, _) => InboundStep(cfg, s, e);
    case DoOpen(o, w) => OwnersKeepInbound(cfg, s, e);
    case DoClose(o) => OwnersKeepInbound(cfg, s, e);
    case DoCrash(o) => OwnersKeepInbound(cfg, s, e);
    case DoReconcile(o, kind, id, d, text, w) =>
      if o in s.owners {
        ReconcileIsQuiet(s.book, s.owners[o], kind, id, d, text);
        hide Reconcile, Unstarted;
        QuietKeepsInbound(s, Apply(cfg, s, e));
      }
    case _ => OutboundKeepsInbound(cfg, s, e);
  }

  lemma {:induction false} InboundHolds(cfg: Config, es: seq<Event>)
    ensures Inbound(After(cfg, es))
  {
    if es == [] {
    } else {
      InboundHolds(cfg, es[..|es| - 1]);
      StepKeepsInbound(cfg, After(cfg, es[..|es| - 1]), es[|es| - 1]);
    }
  }

  /**
    Over every run of publishes, replays, crashes and re-opens, an event starts at most one turn, and only once its
    record is durably past waiting.
   */
  lemma AtMostOneTurnPerEvent(cfg: Config, es: seq<Event>, id: string)
    ensures var s := After(cfg, es);
            && s.submitted[id] <= 1
            && (s.submitted[id] == 1 ==> (Inbox, id) in s.book.entries && s.book.entries[(Inbox, id)].status != Pending)
  {
    InboundHolds(cfg, es);
    assert SubmittedAt(After(cfg, es), id);
  }

  // ---------------------------------------------------------------------------
  // One reply per completed event, bound for good to its route
  // ---------------------------------------------------------------------------

  ghost predicate Has(b: Book, kind: Kind, id: string) { (kind, id) in b.entries }

  /** An event is completed exactly when its reply exists, and the reply goes where the event came from. */
  ghost predicate ReplyAt(b: Book, id: string) {
    && (Has(b, Inbox, id) ==> !ForSummary(id) && b.entries[(Inbox, id)].payload.id == id)
    && (Has(b, Outbox, id) ==> b.entries[(Outbox, id)].payload.id == id)
    && (!ForSummary(id) ==>
          && (Has(b, Outbox, id) <==> Has(b, Inbox, id) && b.entries[(Inbox, id)].status == Completed)
          && (Has(b, Outbox, id) ==> b.entries[(Outbox, id)].payload.source == b.entries[(Inbox, id)].payload.source))
  }

  ghost predicate Replies(b: Book) { forall id :: ReplyAt(b, id) }

  ghost predicate Bound(b: Book, kind: Kind, m: Message) { Has(b, kind, m.id) && b.entries[(kind, m.id)].payload == m }

  /** Records are never removed, and never carry another message. */
  ghost predicate Binds(b: Book, b': Book) { forall kind, m :: Bound(b, kind, m) ==> Bound(b', kind, m) }

  ghost predicate Refs(s: Sys) {
    && (forall o :: o in s.publishing ==> Bound(s.book, Inbox, s.publishing[o].m))
    && (forall t :: t in s.turns ==> Bound(s.book, Inbox, t.1))
    && (forall q :: q in s.queued ==> Bound(s.book, Outbox, q.1))
    && (forall n :: n in s.sends ==> Bound(s.book, Outbox, s.sends[n].m))
  }

  lemma PutKeepsReplies(b: Book, o: Owner, kind: Kind, m: Message)
    requires Replies(b) && (kind == Outbox <==> ForSummary(m.id)) && Put(b, o, kind, m.id, m).Ok?
    ensures Replies(Put(b, o, kind, m.id, m).value.0) && Binds(b, Put(b, o, kind, m.id, m).value.0)
  {
    hide ForSummary;
    var b' := Put(b, o, kind, m.id, m).value.0;
    forall id ensures ReplyAt(b', id) {
      assert ReplyAt(b, id);
    }
  }

  lemma MoveKeepsReplies(b: Book, o: Owner, kind: Kind, id: string, from: Status, to: Status, note: Note)
    requires Replies(b) && Move(b, o, kind, id, from, to, note).Ok?
    requires kind == Inbox ==> from != Completed && to != Completed
    ensures var b' := Move(b, o, kind, id, from, to, note).value; Replies(b') && Binds(b, b')
  {
    hide ForSummary;
    var b' := Move(b, o, kind, id, from, to, note).value;
    forall i ensures ReplyAt(b', i) {
      assert ReplyAt(b, i);
    }
  }

  lemma OpenKeepsReplies(b: Book)
    requires Replies(b)
    ensures Replies(Opened(b)) && Binds(b, Opened(b))
  {
    hide ForSummary;
    forall i ensures ReplyAt(Opened(b), i) {
      assert ReplyAt(b, i);
    }
  }

  /** `Complete` writes the reply unconditionally, yet never over another: a running event has none. */
  lemma CompleteKeepsReplies(b: Book, o: Owner, m: Message, text: string)
    requires Replies(b) && Bound(b, Inbox, m) && Complete(b, o, m.id, Message(m.id, m.source, text)).Ok?
    ensures !Has(b, Outbox, m.id)
    ensures var b' := Complete(b, o, m.id, Message(m.id, m.source, text)).value;
            Replies(b') && Binds(b, b') && Bound(b', Outbox, Message(m.id, m.source, text))
  {
    hide ForSummary;
    assert ReplyAt(b, m.id);
    var b' := Complete(b, o, m.id, Message(m.id, m.source, text)).value;
    forall i ensures ReplyAt(b', i) {
      assert ReplyAt(b, i);
    }
  }

  lemma ReconcileKeepsReplies(b: Book, o: Owner, kind: Kind, id: string, d: Decision, text: string)
    requires Replies(b) && Reconcile(b, o, kind, id, d, text).Ok?
    ensures var b' := Reconcile(b, o, kind, id, d, text).value; Replies(b') && Binds(b, b')
  {
    hide ForSummary, Text.Blank;
    var b' := Reconcile(b, o, kind, id, d, text).value;
    assert ReplyAt(b, id);
    forall i ensures ReplyAt(b', i) {
      assert ReplyAt(b, i);
    }
  }

  ghost predicate Routed(s: Sys) { Replies(s.book) && Refs(s) }

  /** What a step on one goroutine needs: the book keeps its bonds, and whatever is newly in hand is bound. */
  lemma RefsStep(s: Sys, s': Sys)
    requires Refs(s) && Binds(s.book, s'.book)
    requires forall o :: o in s'.publishing ==>
               (o in s.publishing && s'.publishing[o].m == s.publishing[o].m) || Bound(s'.book, Inbox, s'.publishing[o].m)
    requires forall t :: t in s'.turns ==> t in s.turns || Bound(s'.book, Inbox, t.1)
    requires forall q :: q in s'.queued ==> q in s.queued || Bound(s'.book, Outbox, q.1)
    requires forall n :: n in s'.sends ==>
               (n in s.sends && s'.sends[n].m == s.sends[n].m) || Bound(s'.book, Outbox, s'.sends[n].m)
    ensures Refs(s')
  {
    hide Bound;
  }

  lemma PublishKeepsRouted(s: Sys, o: OwnerId, m: Message, w: Write)
    requires Routed(s) && o in s.owners && !ForSummary(m.id)
    ensures Routed(PublishEvent(s, o, m, w)) && Binds(s.book, PublishEvent(s, o, m, w).book)
  {
    hide ForSummary;
    var s' := PublishEvent(s, o, m, w);
    var r := Put(s.book, s.owners[o], Inbox, m.id, m);
    assert ReplyAt(s.book, m.id);
    if r.Ok? {
      PutKeepsReplies(s.book, s.owners[o], Inbox, m);
      hide Replies, ReplyAt, Binds;
      if o in s'.publishing && s'.publishing != s.publishing {
        assert Bound(s'.book, Inbox, s'.publishing[o].m);
      }
      RefsStep(s, s');
    }
  }

  lemma TurnKeepsRouted(s: Sys, o: OwnerId, m: Message, end: TurnEnd, w: Write)
    requires Routed(s) && o in s.owners && (o, m) in s.turns
    ensures Routed(EndTurn(s, o, m, end, w)) && Binds(s.book, EndTurn(s, o, m, end, w).book)
  {
    hide ForSummary;
    var s' := EndTurn(s, o, m, end, w);
    var me := s.owners[o];
    assert Bound(s.book, Inbox, m);
    match end {
      case Failed =>
        if Move(s.book, me, Inbox, m.id, Running, NeedsReconcile, Failure).Ok? {
          MoveKeepsReplies(s.book, me, Inbox, m.id, Running, NeedsReconcile, Failure);
        }
      case Joins =>
        if Move(s.book, me, Inbox, m.id, Running, Joined, Nothing).Ok? {
          MoveKeepsReplies(s.book, me, Inbox, m.id, Running, Joined, Nothing);
        }
      case Answers(text) =>
        if Complete(s.book, me, m.id, Message(m.id, m.source, text)).Ok? {
          CompleteKeepsReplies(s.book, me, m, text);
        }
    }
    hide Replies, Bound, Complete, Move;
    RefsStep(s, s');
  }

  lemma InboundKeepsRouted(s: Sys, e: Event)
    requires Routed(s) && (e.DoPublish? ==> ChannelOk(e.channel))
    ensures Routed(ApplyInbound(s, e)) && Binds(s.book, ApplyInbound(s, e).book)
  {
    var s' := ApplyInbound(s, e);
    hide ForSummary, Routed, InboundId, ChannelOk;
    match e
    case DoPublish(o, channel, event, source, text, w) =>
      if o in s.owners && o !in s.publishing {
        assert !ForSummary(InboundId(channel, event)) by {
          assert ':' !in channel && channel != "worker" by { ChannelMeans(channel); }
          RepliesAndSummariesAreDisjoint(channel, event);
        }
        PublishKeepsRouted(s, o, Message(InboundId(channel, event), source, text), w);
      }
    case DoClaim(o, w) => if InStage(s, o, Recorded) { StageKeepsRouted(s, s', o, Pending, Running); }
    case DoSubmit(o, accepted) =>
      if InStage(s, o, Claimed) {
        assert Refs(s) && Replies(s.book) by { RoutedMeans(s); }
        hide Replies, Bound;
        RefsStep(s, s');
        RoutedMeans(s');
      }
    case DoUnclaim(o, w) => if InStage(s, o, TurnedAway) { StageKeepsRouted(s, s', o, Running, Pending); }
    case DoTurn(o, m, end, w) =>
      if o in s.owners && (o, m) in s.turns {
        TurnKeepsRouted(s, o, m, end, w);
      }
    case _ =>
  }

  lemma ChannelMeans(channel: string)
    ensures ChannelOk(channel) <==> ':' !in channel && channel != "worker"
  {
  }

  lemma RoutedMeans(s: Sys)
    ensures Routed(s) <==> Replies(s.book) && Refs(s)
  {
  }

  /** Claiming and handing back an inbound record. */
  lemma StageKeepsRouted(s: Sys, s': Sys, o: OwnerId, from: Status, to: Status)
    requires Routed(s) && o in s.owners && o in s.publishing && from != Completed && to != Completed
    requires var r := Move(s.book, s.owners[o], Inbox, s.publishing[o].m.id, from, to, Nothing);
             s'.book == s.book || (r.Ok? && s'.book == r.value)
    requires s'.turns == s.turns && s'.queued == s.queued && s'.sends == s.sends
    requires forall p :: p in s'.publishing ==> p in s.publishing && s'.publishing[p].m == s.publishing[p].m
    ensures Routed(s') && Binds(s.book, s'.book)
  {
    if s'.book != s.book {
      MoveKeepsReplies(s.book, s.owners[o], Inbox, s.publishing[o].m.id, from, to, Nothing);
    }
    hide Bound, Replies, Move;
    RefsStep(s, s');
  }

  lemma SummaryKeepsRouted(s: Sys, o: OwnerId, m: Message, w: Write)
    requires Routed(s) && o in s.owners && ForSummary(m.id)
    ensures Routed(PostSummary(s, o, m, w)) && Binds(s.book, PostSummary(s, o, m, w).book)
  {
    hide ForSummary;
    var s' := PostSummary(s, o, m, w);
    if Posted(s.book, s.owners[o], m).Ok? {
      PutKeepsReplies(s.book, s.owners[o], Outbox, m);
      hide Replies, Binds;
      RefsStep(s, s');
    }
  }

  lemma FinishKeepsRouted(s: Sys, n: SendId, w: Write)
    requires Routed(s) && n in s.sends && s.sends[n].outcome.Some? && s.sends[n].owner in s.owners
    ensures Routed(Finish(s, n, w)) && Binds(s.book, Finish(s, n, w).book)
  {
    hide Ending, Replies, Binds, Bound;
    var s' := Finish(s, n, w);
    var k := s.sends[n];
    var (to, note) := Ending(k.outcome.value);
    BindsItself(s.book);
    OutboxMove(s.book, s.owners[k.owner], k.m.id, Status.Sending, to, note, s'.book);
    hide Move;
    RefsStep(s, s');
  }

  lemma SendClaimKeepsRouted(s: Sys, o: OwnerId, m: Message, n: SendId, w: Write)
    requires Routed(s) && o in s.owners && (o, m) in s.queued && n !in s.sends
    ensures Routed(SendClaim(s, o, m, n, w)) && Binds(s.book, SendClaim(s, o, m, n, w).book)
  {
    hide Replies, Binds, Bound;
    var s' := SendClaim(s, o, m, n, w);
    BindsItself(s.book);
    OutboxMove(s.book, s.owners[o], m.id, Pending, Status.Sending, Nothing, s'.book);
    assert Bound(s.book, Outbox, m) && Bound(s'.book, Outbox, m) by {
      assert Bound(s.book, Outbox, (o, m).1);
      StaysBound(s.book, s'.book, Outbox, m);
    }
    hide Move;
    RefsStep(s, s');
  }

  lemma StaysBound(b: Book, b': Book, kind: Kind, m: Message)
    requires Binds(b, b') && Bound(b, kind, m)
    ensures Bound(b', kind, m)
  {
  }

  lemma ReplayKeepsRouted(s: Sys, o: OwnerId, id: string)
    requires Routed(s)
    ensures Routed(Replay(s, o, id)) && Binds(s.book, Replay(s, o, id).book)
  {
    hide Replies;
    BindsItself(s.book);
    RefsStep(s, Replay(s, o, id));
  }

  lemma CallKeepsRouted(cfg: Config, s: Sys, n: SendId, t: Attempt)
    requires Routed(s) && n in s.sends
    ensures Routed(Call(cfg, s, n, t)) && Binds(s.book, Call(cfg, s, n, t).book)
  {
    hide Replies, Step;
    BindsItself(s.book);
    RefsStep(s, Call(cfg, s, n, t));
  }

  lemma OutboundKeepsRouted(cfg: Config, s: Sys, e: Event)
    requires Routed(s)
    ensures Routed(ApplyOutbound(cfg, s, e)) && Binds(s.book, ApplyOutbound(cfg, s, e).book)
  {
    hide Routed, Binds, SendClaim, Finish, PostSummary, Call, Replay;
    BindsItself(s.book);
    match e
    case DoSummary(o, run, source, text, w) =>
      if o in s.owners && run != "" {
        SummaryKeepsRouted(s, o, Message(SummaryId(run), source, text), w);
      }
    case DoReplay(o, id) => ReplayKeepsRouted(s, o, id);
    case DoSendClaim(o, m, n, w) =>
      if o in s.owners && (o, m) in s.queued && n !in s.sends {
        SendClaimKeepsRouted(s, o, m, n, w);
      }
    case DoCall(n, t) =>
      if n in s.sends {
        CallKeepsRouted(cfg, s, n, t);
      }
    case DoFinish(n, w) =>
      if n in s.sends && s.sends[n].outcome.Some? && s.sends[n].owner in s.owners {
        FinishKeepsRouted(s, n, w);
      }
    case _ =>
  }

  lemma BindsItself(b: Book)
    ensures Binds(b, b)
  {
  }

  lemma OutboxMove(b: Book, o: Owner, id: string, from: Status, to: Status, note: Note, b': Book)
    requires Replies(b)
    requires b' == b || (Move(b, o, Outbox, id, from, to, note).Ok? && b' == Move(b, o, Outbox, id, from, to, note).value)
    ensures Replies(b') && Binds(b, b')
  {
    if b' != b {
      MoveKeepsReplies(b, o, Outbox, id, from, to, note);
    }
  }

  lemma StepKeepsRouted(cfg: Config, s: Sys, e: Event)
    requires Routed(s) && (e.DoPublish? ==> ChannelOk(e.channel))
    ensures Routed(Apply(cfg, s, e)) && Binds(s.book, Apply(cfg, s, e).book)
  {
    hide ApplyInbound, ApplyOutbound, Replies, Binds, Bound, Reconcile;
    BindsItself(s.book);
    var s' := Apply(cfg, s, e);
    match e
    case DoOpen(o, w) =>
      OpenKeepsReplies(s.book);
      RefsStep(s, s');
    case DoClose(o) => RefsStep(s, s');
    case DoCrash(o) => RefsStep(s, s');
    case DoReconcile(o, kind, id, d, text, w) =>
      if o in s.owners && Reconcile(s.book, s.owners[o], kind, id, d, text).Ok? {
        ReconcileKeepsReplies(s.book, s.owners[o], kind, id, d, text);
      }
      RefsStep(s, s');
    case DoPublish(_, _, _, _, _, _) => InboundKeepsRouted(s, e);
    case DoClaim(_, _) => InboundKeepsRouted(s, e);
    case DoSubmit(_, _) => InboundKeepsRouted(s, e);
    case DoUnclaim(_, _) => InboundKeepsRouted(s, e);
    case DoTurn(_, _, _, _) => InboundKeepsRouted(s, e);
    case _ => OutboundKeepsRouted(cfg, s, e);
  }

  lemma {:induction false} RoutedHolds(cfg: Config, es: seq<Event>)
    requires ChannelsOk(es)
    ensures Routed(After(cfg, es))
  {
    if es == [] {
    } else {
      assert es[|es| - 1] in es;
      RoutedHolds(cfg, es[..|es| - 1]);
      StepKeepsRouted(cfg, After(cfg, es[..|es| - 1]), es[|es| - 1]);
    }
  }

  /** An event is completed if and only if its reply was recorded, and the reply is addressed to its source. */
  lemma ReplyIffCompleted(cfg: Config, es: seq<Event>, id: string)
    requires ChannelsOk(es) && !ForSummary(id)
    ensures var b := After(cfg, es).book;
            && (Has(b, Outbox, id) <==> Has(b, Inbox, id) && b.entries[(Inbox, id)].status == Completed)
            && (Has(b, Outbox, id) ==> b.entries[(Outbox, id)].payload.source == b.entries[(Inbox, id)].payload.source)
  {
    RoutedHolds(cfg, es);
    assert ReplyAt(After(cfg, es).book, id);
  }

  /** A record keeps its message over every continuation of a run, and what is sent is what is recorded. */
  lemma {:induction false} RecordsAreBound(cfg: Config, es: seq<Event>, more: seq<Event>, kind: Kind, m: Message)
    requires ChannelsOk(es + more) && Bound(After(cfg, es).book, kind, m)
    ensures Bound(After(cfg, es + more).book, kind, m)
  {
    if more == [] {
      assert es + more == es;
    } else {
      var n := |more| - 1;
      assert es + more == es + more[..n] + [more[n]] && more[n] in es + more;
      RecordsAreBound(cfg, es, more[..n], kind, m);
      assert (es + more)[..|es + more| - 1] == es + more[..n];
      RoutedHolds(cfg, es + more[..n]);
      StepKeepsRouted(cfg, After(cfg, es + more[..n]), more[n]);
    }
  }

  lemma SentIsRecorded(cfg: Config, es: seq<Event>, n: SendId)
    requires ChannelsOk(es) && n in After(cfg, es).sends
    ensures Bound(After(cfg, es).book, Outbox, After(cfg, es).sends[n].m)
  {
    RoutedHolds(cfg, es);
  }

  // ---------------------------------------------------------------------------
  // Sends: what an operator allowed, and no more
  // ---------------------------------------------------------------------------

  /** The operator decisions that made a message sendable again. */
  function Confirmed(ds: seq<Decision>): nat {
    if ds == [] then 0 else Confirmed(ds[..|ds| - 1]) + Bit(ds[|ds| - 1].action == ConfirmNotSent)
  }

  function Allowed(b: Book, id: string): nat {
    if (Outbox, id) in b.entries then 1 + Confirmed(b.entries[(Outbox, id)].resolutions) else 0
  }

  predicate Waiting(b: Book, id: string) {
    (Outbox, id) in b.entries && b.entries[(Outbox, id)].status == Pending
  }

  /** Every claim used up one permission: the record's creation, or an operator's confirmed_not_sent. */
  ghost predicate ClaimsAt(s: Sys, id: string) {
    s.claims[id] + Bit(Waiting(s.book, id)) == Allowed(s.book, id)
  }

  ghost predicate Claims(s: Sys) { forall id :: ClaimsAt(s, id) }

  ghost function Unspent(sends: map<SendId, Sender>, id: string): set<SendId> {
    set n | n in sends && sends[n].m.id == id && !sends[n].spent
  }

  /** A loop that would call a non-idempotent outlet again has had nothing but rejections. */
  ghost predicate SendAt(cfg: Config, s: Sys, n: SendId) {
    n in s.sends && s.sends[n].m.id !in cfg.idempotent && s.sends[n].outcome.None? ==> !s.sends[n].spent
  }

  ghost predicate SuspectsAt(cfg: Config, s: Sys, id: string) {
    id !in cfg.idempotent ==> s.suspects[id] + |Unspent(s.sends, id)| <= s.claims[id]
  }

  ghost predicate Sends(cfg: Config, s: Sys) {
    Claims(s) && (forall n :: SendAt(cfg, s, n)) && (forall id :: SuspectsAt(cfg, s, id))
  }

  /** How a book may change without a claim. */
  ghost predicate SamePermits(b: Book, b': Book) {
    forall id :: Allowed(b', id) - Bit(Waiting(b', id)) == Allowed(b, id) - Bit(Waiting(b, id))
  }

  lemma PutPermits(b: Book, o: Owner, kind: Kind, id: string, m: Message)
    requires Put(b, o, kind, id, m).Ok?
    ensures SamePermits(b, Put(b, o, kind, id, m).value.0)
  {
  }

  lemma MovePermits(b: Book, o: Owner, kind: Kind, id: string, from: Status, to: Status, note: Note)
    requires Move(b, o, kind, id, from, to, note).Ok? && (kind == Outbox ==> from != Pending && to != Pending)
    ensures SamePermits(b, Move(b, o, kind, id, from, to, note).value)
  {
  }

  lemma CompletePermits(b: Book, o: Owner, id: string, m: Message)
    requires Complete(b, o, id, m).Ok? && !Has(b, Outbox, id)
    ensures SamePermits(b, Complete(b, o, id, m).value)
  {
  }

  lemma OpenPermits(b: Book)
    ensures SamePermits(b, Opened(b))
  {
  }

  lemma ResolvePermits(b: Book, o: Owner, kind: Kind, id: string, d: Decision, recovered: Option<Message>)
    requires Resolve(b, o, kind, id, d, recovered).Ok?
    ensures SamePermits(b, Resolve(b, o, kind, id, d, recovered).value)
  {
    hide Text.Blank;
    var e := b.entries[(kind, id)];
    assert Confirmed(e.resolutions + [d]) == Confirmed(e.resolutions) + Bit(d.action == ConfirmNotSent) by {
      assert (e.resolutions + [d])[..|e.resolutions|] == e.resolutions;
    }
    hide Confirmed;
  }

  lemma ReconcilePermits(b: Book, o: Owner, kind: Kind, id: string, d: Decision, text: string)
    requires Reconcile(b, o, kind, id, d, text).Ok?
    ensures SamePermits(b, Reconcile(b, o, kind, id, d, text).value)
  {
    hide Text.Blank, SamePermits, Resolve;
    if d.action != RecoverResult {
      ResolvePermits(b, o, kind, id, d, None);
    } else {
      ResolvePermits(b, o, kind, id, d, Some(Message(id, b.entries[(Inbox, id)].payload.source, text)));
    }
  }

  lemma FewerUnspent(a: map<SendId, Sender>, b: map<SendId, Sender>, id: string)
    requires forall n :: n in a ==> n in b && a[n] == b[n]
    ensures |Unspent(a, id)| <= |Unspent(b, id)|
  {
    SubsetSize(Unspent(a, id), Unspent(b, id));
  }

  lemma SubsetSize<T>(a: set<T>, b: set<T>)
    requires a <= b
    ensures |a| <= |b|
  {
    assert b == a + (b - a);
  }

  /** Steps without a claim or a call; live loops may end or die. */
  lemma QuietKeepsSends(cfg: Config, s: Sys, s': Sys)
    requires Sends(cfg, s) && SamePermits(s.book, s'.book)
    requires s'.claims == s.claims && s'.suspects == s.suspects
    requires forall n :: n in s'.sends ==> n in s.sends && s'.sends[n] == s.sends[n]
    ensures Sends(cfg, s')
  {
    forall id ensures ClaimsAt(s', id) {
      assert ClaimsAt(s, id);
    }
    hide Allowed, Waiting, Unspent;
    forall n ensures SendAt(cfg, s', n) {
      assert SendAt(cfg, s, n);
    }
    forall id ensures SuspectsAt(cfg, s', id) {
      assert SuspectsAt(cfg, s, id);
      FewerUnspent(s'.sends, s.sends, id);
    }
  }

  lemma PutUnspent(sends: map<SendId, Sender>, n: SendId, k: Sender, id: string)
    ensures |Unspent(sends[n := k], id)| ==
            |Unspent(sends, id)| - Bit(n in sends && sends[n].m.id == id && !sends[n].spent)
            + Bit(k.m.id == id && !k.spent)
  {
    var a, b := Unspent(sends, id), Unspent(sends[n := k], id);
    forall v ensures v in a - {n} <==> v in b - {n} {
    }
    OneApart(a, b, n);
  }

  lemma SendClaimKeepsSends(cfg: Config, s: Sys, o: OwnerId, m: Message, n: SendId, w: Write)
    requires Sends(cfg, s) && o in s.owners && n !in s.sends
    ensures Sends(cfg, SendClaim(s, o, m, n, w))
  {
    var s' := SendClaim(s, o, m, n, w);
    forall id ensures ClaimsAt(s', id) {
      assert ClaimsAt(s, id);
    }
    hide Allowed, Waiting, Unspent, Confirmed;
    forall v ensures SendAt(cfg, s', v) {
      assert SendAt(cfg, s, v);
    }
    forall id ensures SuspectsAt(cfg, s', id) {
      assert SuspectsAt(cfg, s, id);
      PutUnspent(s.sends, n, Sender(o, m, 0, false, None), id);
    }
  }

  lemma CallKeepsSends(cfg: Config, s: Sys, n: SendId, t: Attempt)
    requires Sends(cfg, s) && n in s.sends && s.sends[n].outcome.None?
    ensures Sends(cfg, Call(cfg, s, n, t))
  {
    var s' := Call(cfg, s, n, t);
    assert SendAt(cfg, s, n);
    forall id ensures ClaimsAt(s', id) {
      assert ClaimsAt(s, id);
    }
    hide Allowed, Waiting, Unspent;
    forall v ensures SendAt(cfg, s', v) {
      assert SendAt(cfg, s, v);
    }
    hide Step;
    forall id ensures SuspectsAt(cfg, s', id) {
      assert SuspectsAt(cfg, s, id);
      PutUnspent(s.sends, n, s'.sends[n], id);
    }
  }

  lemma EndTurnPermits(s: Sys, o: OwnerId, m: Message, end: TurnEnd, w: Write)
    requires Routed(s) && o in s.owners && (o, m) in s.turns
    ensures SamePermits(s.book, EndTurn(s, o, m, end, w).book)
  {
    hide ForSummary, SamePermits;
    SameItself(s.book);
    var me := s.owners[o];
    match end
    case Failed =>
      var r := Move(s.book, me, Inbox, m.id, Running, NeedsReconcile, Failure);
      if r.Ok? { MovePermits(s.book, me, Inbox, m.id, Running, NeedsReconcile, Failure); }
    case Joins =>
      var r := Move(s.book, me, Inbox, m.id, Running, Joined, Nothing);
      if r.Ok? { MovePermits(s.book, me, Inbox, m.id, Running, Joined, Nothing); }
    case Answers(text) =>
      var reply := Message(m.id, m.source, text);
      if Complete(s.book, me, m.id, reply).Ok? {
        CompleteKeepsReplies(s.book, me, m, text);
        CompletePermits(s.book, me, m.id, reply);
      }
  }

  lemma SameItself(b: Book)
    ensures SamePermits(b, b)
  {
  }

  lemma InboundPermits(s: Sys, e: Event)
    requires Routed(s)
    ensures SamePermits(s.book, ApplyInbound(s, e).book)
  {
    hide ForSummary, SamePermits, Routed, InboundId, ChannelOk;
    SameItself(s.book);
    match e
    case DoPublish(o, channel, event, source, text, w) =>
      var m := Message(InboundId(channel, event), source, text);
      if o in s.owners && Put(s.book, s.owners[o], Inbox, m.id, m).Ok? {
        PutPermits(s.book, s.owners[o], Inbox, m.id, m);
      }
    case DoClaim(o, w) =>
      if InStage(s, o, Recorded) {
        var id := s.publishing[o].m.id;
        if Move(s.book, s.owners[o], Inbox, id, Pending, Running, Nothing).Ok? {
          MovePermits(s.book, s.owners[o], Inbox, id, Pending, Running, Nothing);
        }
      }
    case DoUnclaim(o, w) =>
      if InStage(s, o, TurnedAway) {
        var id := s.publishing[o].m.id;
        if Move(s.book, s.owners[o], Inbox, id, Running, Pending, Nothing).Ok? {
          MovePermits(s.book, s.owners[o], Inbox, id, Running, Pending, Nothing);
        }
      }
    case DoTurn(o, m, end, w) =>
      if o in s.owners && (o, m) in s.turns {
        EndTurnPermits(s, o, m, end, w);
      }
    case _ =>
  }

  lemma OutboundKeepsSends(cfg: Config, s: Sys, e: Event)
    requires Sends(cfg, s)
    ensures Sends(cfg, ApplyOutbound(cfg, s, e))
  {
    var s' := ApplyOutbound(cfg, s, e);
    hide SamePermits, Sends, Call, SendClaim;
    SameItself(s.book);
    match e
    case DoSummary(o, run, source, text, w) =>
      var m := Message(SummaryId(run), source, text);
      if o in s.owners && run != "" && Posted(s.book, s.owners[o], m).Ok? {
        PutPermits(s.book, s.owners[o], Outbox, m.id, m);
      }
      QuietKeepsSends(cfg, s, s');
    case DoReplay(o, id) => QuietKeepsSends(cfg, s, s');
    case DoSendClaim(o, m, n, w) =>
      if o in s.owners && (o, m) in s.queued && n !in s.sends {
        SendClaimKeepsSends(cfg, s, o, m, n, w);
      }
    case DoCall(n, t) =>
      if n in s.sends && s.sends[n].outcome.None? {
        CallKeepsSends(cfg, s, n, t);
      }
    case DoFinish(n, w) =>
      if n in s.sends && s.sends[n].outcome.Some? && s.sends[n].owner in s.owners {
        var k := s.sends[n];
        var (to, note) := Ending(k.outcome.value);
        if Move(s.book, s.owners[k.owner], Outbox, k.m.id, Status.Sending, to, note).Ok? {
          MovePermits(s.book, s.owners[k.owner], Outbox, k.m.id, Status.Sending, to, note);
        }
        QuietKeepsSends(cfg, s, s');
      }
    case _ =>
  }

  lemma InboundLeavesSends(s: Sys, e: Event)
    ensures var s' := ApplyInbound(s, e);
            s'.claims == s.claims && s'.suspects == s.suspects && s'.sends == s.sends
  {
  }

  lemma StepKeepsSends(cfg: Config, s: Sys, e: Event)
    requires Sends(cfg, s) && Routed(s)
    ensures Sends(cfg, Apply(cfg, s, e))
  {
    hide ApplyInbound, ApplyOutbound, Reconcile, Sends, SamePermits, Routed;
    SameItself(s.book);
    var s' := Apply(cfg, s, e);
    if e.DoPublish? || e.DoClaim? || e.DoSubmit? || e.DoUnclaim? || e.DoTurn? {
      InboundPermits(s, e);
      InboundLeavesSends(s, e);
      QuietKeepsSends(cfg, s, s');
    } else {
      match e
      case DoOpen(o, w) =>
        OpenPermits(s.book);
        QuietKeepsSends(cfg, s, s');
      case DoClose(o) => QuietKeepsSends(cfg, s, s');
      case DoCrash(o) => QuietKeepsSends(cfg, s, s');
      case DoReconcile(o, kind, id, d, text, w) =>
        if o in s.owners && Reconcile(s.book, s.owners[o], kind, id, d, text).Ok? {
          ReconcilePermits(s.book, s.owners[o], kind, id, d, text);
        }
        QuietKeepsSends(cfg, s, s');
      case _ => OutboundKeepsSends(cfg, s, e);
    }
  }

  lemma {:induction false} SendsHold(cfg: Config, es: seq<Event>)
    requires ChannelsOk(es)
    ensures Sends(cfg, After(cfg, es))
  {
    if es == [] {
      assert forall id :: ClaimsAt(After(cfg, es), id);
    } else {
      SendsHold(cfg, es[..|es| - 1]);
      RoutedHolds(cfg, es[..|es| - 1]);
      StepKeepsSends(cfg, After(cfg, es[..|es| - 1]), es[|es| - 1]);
    }
  }

  /** The claims of one record that took effect never exceed one plus its recorded confirmed_not_sent decisions. */
  lemma ClaimsAreAllowed(cfg: Config, es: seq<Event>, id: string)
    requires ChannelsOk(es)
    ensures var s := After(cfg, es);
            s.claims[id] + Bit(Waiting(s.book, id)) == Allowed(s.book, id)
  {
    SendsHold(cfg, es);
    assert ClaimsAt(After(cfg, es), id);
  }

  /** On a non-idempotent outlet, the calls that may have delivered a record are no more than an operator allowed. */
  lemma DeliveriesAreAllowed(cfg: Config, es: seq<Event>, id: string)
    requires ChannelsOk(es) && id !in cfg.idempotent
    ensures var s := After(cfg, es);
            s.suspects[id] <= s.claims[id] <= Allowed(s.book, id)
  {
    SendsHold(cfg, es);
    assert ClaimsAt(After(cfg, es), id) && SuspectsAt(cfg, After(cfg, es), id);
  }

  // ---------------------------------------------------------------------------
  // Fencing
  // ---------------------------------------------------------------------------

  ghost predicate EpochAt(s: Sys, o: OwnerId) { o in s.owners ==> s.owners[o].epoch <= s.book.epoch }

  lemma WritesKeepEpoch(b: Book)
    ensures forall o, kind, id, m :: Put(b, o, kind, id, m).Ok? ==> Put(b, o, kind, id, m).value.0.epoch == b.epoch
    ensures forall o, kind, id, from, to, note ::
              Move(b, o, kind, id, from, to, note).Ok? ==> Move(b, o, kind, id, from, to, note).value.epoch == b.epoch
    ensures forall o, id, m :: Complete(b, o, id, m).Ok? ==> Complete(b, o, id, m).value.epoch == b.epoch
    ensures forall o, kind, id, d, text ::
              Reconcile(b, o, kind, id, d, text).Ok? ==> Reconcile(b, o, kind, id, d, text).value.epoch == b.epoch
  {
    hide Text.Blank;
  }

  lemma InboundKeepsEpoch(s: Sys, e: Event)
    ensures var s' := ApplyInbound(s, e); s'.owners == s.owners && s'.book.epoch == s.book.epoch
  {
    hide Put, Move, Complete, InboundId, PublishEvent, EndTurn;
    WritesKeepEpoch(s.book);
    if e.DoPublish? && e.o in s.owners {
      PublishKeepsEpoch(s, e.o, Message(InboundId(e.channel, e.event), e.source, e.text), e.w);
    } else if e.DoTurn? && e.o in s.owners {
      TurnKeepsEpoch(s, e.o, e.m, e.end, e.w);
    }
  }

  lemma PublishKeepsEpoch(s: Sys, o: OwnerId, m: Message, w: Write)
    requires o in s.owners
    ensures var s' := PublishEvent(s, o, m, w); s'.owners == s.owners && s'.book.epoch == s.book.epoch
  {
    hide Put;
    WritesKeepEpoch(s.book);
  }

  lemma TurnKeepsEpoch(s: Sys, o: OwnerId, m: Message, end: TurnEnd, w: Write)
    requires o in s.owners
    ensures var s' := EndTurn(s, o, m, end, w); s'.owners == s.owners && s'.book.epoch == s.book.epoch
  {
    hide Move, Complete;
    WritesKeepEpoch(s.book);
  }

  lemma OutboundKeepsEpoch(cfg: Config, s: Sys, e: Event)
    ensures var s' := ApplyOutbound(cfg, s, e); s'.owners == s.owners && s'.book.epoch == s.book.epoch
  {
    hide Put, Move, Complete, Step;
    WritesKeepEpoch(s.book);
  }

  /** Only an opening changes the epoch, and raises it; an owner, once open, keeps its own. */
  lemma EpochStep(cfg: Config, s: Sys, e: Event, o: OwnerId)
    requires EpochAt(s, o)
    ensures var s' := Apply(cfg, s, e);
            && EpochAt(s', o) && s.book.epoch <= s'.book.epoch
            && (e.DoOpen? || s'.book.epoch == s.book.epoch)
            && (e.DoOpen? && e.w != Lost && e.o !in s.owners ==> s'.book == Opened(s.book))
            && (o in s.owners && e != DoCrash(o) ==>
                  && o in s'.owners && s'.owners[o].epoch == s.owners[o].epoch
                  && (s.owners[o].closed ==> s'.owners[o].closed))
  {
    hide ApplyInbound, ApplyOutbound, Reconcile;
    WritesKeepEpoch(s.book);
    InboundKeepsEpoch(s, e);
    OutboundKeepsEpoch(cfg, s, e);
  }

  lemma {:induction false} EpochsHold(cfg: Config, es: seq<Event>, o: OwnerId)
    ensures EpochAt(After(cfg, es), o)
  {
    hide Apply;
    if es != [] {
      EpochsHold(cfg, es[..|es| - 1], o);
      EpochStep(cfg, After(cfg, es[..|es| - 1]), es[|es| - 1], o);
    }
  }

  ghost predicate FencedIn(s: Sys, o: OwnerId) { o in s.owners && !Owns(s.book, s.owners[o]) }

  /** Opening fences every other owner. */
  lemma OpeningFencesOthers(cfg: Config, es: seq<Event>, o: OwnerId, o': OwnerId, w: Write)
    requires o in After(cfg, es).owners && o' !in After(cfg, es).owners && w != Lost
    ensures FencedIn(After(cfg, es + [DoOpen(o', w)]), o)
  {
    hide Apply;
    assert (es + [DoOpen(o', w)])[..|es|] == es;
    var s := After(cfg, es);
    EpochsHold(cfg, es, o);
    EpochStep(cfg, s, DoOpen(o', w), o);
    var s' := After(cfg, es + [DoOpen(o', w)]);
    OpeningFences(s.book, s'.owners[o]);
  }

  /** A fenced owner stays fenced until its process ends. */
  lemma {:induction false} FencedForGood(cfg: Config, es: seq<Event>, more: seq<Event>, o: OwnerId)
    requires FencedIn(After(cfg, es), o) && DoCrash(o) !in more
    ensures FencedIn(After(cfg, es + more), o)
    decreases |more|
  {
    hide Apply;
    if more == [] {
      assert es + more == es;
    } else {
      var n := |more| - 1;
      assert more == more[..n] + [more[n]];
      FencedForGood(cfg, es, more[..n], o);
      assert (es + more)[..|es + more| - 1] == es + more[..n];
      EpochsHold(cfg, es + more[..n], o);
      EpochStep(cfg, After(cfg, es + more[..n]), more[n], o);
    }
  }

  /** The steps that owner `o` takes itself. */
  ghost predicate ActsFor(s: Sys, e: Event, o: OwnerId) {
    match e
    case DoPublish(p, _, _, _, _, _) => p == o
    case DoClaim(p, _) => p == o
    case DoSubmit(p, _) => p == o
    case DoUnclaim(p, _) => p == o
    case DoTurn(p, _, _, _) => p == o
    case DoSummary(p, _, _, _, _) => p == o
    case DoReplay(p, _) => p == o
    case DoSendClaim(p, _, _, _) => p == o
    case DoCall(n, _) => n in s.sends && s.sends[n].owner == o
    case DoFinish(n, _) => n in s.sends && s.sends[n].owner == o
    case DoReconcile(p, _, _, _, _, _) => p == o
    case DoClose(p) => p == o
    case _ => false
  }

  lemma FencedStep(cfg: Config, s: Sys, e: Event, o: OwnerId)
    requires FencedIn(s, o) && ActsFor(s, e, o)
    ensures Apply(cfg, s, e).book == s.book
  {
    hide Put, Move, Complete, Reconcile, Step, InboundId;
    FencedOwnerIsRefused(s.book, s.owners[o]);
  }

  /**
    Once fenced or closed, an owner changes nothing any more: whatever has happened since, no step it takes touches
    the book.
   */
  lemma FencedOwnersChangeNothing(cfg: Config, es: seq<Event>, more: seq<Event>, e: Event, o: OwnerId)
    requires FencedIn(After(cfg, es), o) && DoCrash(o) !in more
    requires ActsFor(After(cfg, es + more), e, o)
    ensures After(cfg, es + more + [e]).book == After(cfg, es + more).book
  {
    hide Apply;
    FencedForGood(cfg, es, more, o);
    assert (es + more + [e])[..|es + more|] == es + more;
    FencedStep(cfg, After(cfg, es + more), e, o);
  }
}
