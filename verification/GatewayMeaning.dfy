/**
  What the statuses of the journal say about what happened: the table of all changes of a record, and where
  delivered, dropped and abandoned records come from.
 */
module GatewayMeaning {
  import opened Common
  import opened Journal
  import opened Delivery
  import opened GatewayRuns
  import opened GatewaySafety
  import opened Text

  // ---------------------------------------------------------------------------
  // The table of changes
  // ---------------------------------------------------------------------------

  /** The record under `k` exists and has this status. */
  ghost predicate Is(b: Book, k: Key, status: Status) { k in b.entries && b.entries[k].status == status }

  /** Owner `o` may write, and the write reaches the file. */
  ghost predicate Writes(s: Sys, o: OwnerId, w: Write) { o in s.owners && Owns(s.book, s.owners[o]) && w != Lost }

  /** A decision is complete when it names who decided, why and on what evidence. */
  ghost predicate Signed(d: Decision) { !Blank(d.actor) && !Blank(d.reason) && !Blank(d.evidence) }

  /** What becomes of a turn's record. */
  function EndOf(end: TurnEnd): Status {
    match end
    case Failed => NeedsReconcile
    case Joins => Joined
    case Answers(_) => Completed
  }

  /** What becomes of a sent record: delivered with a receipt, dropped after a terminal failure, else unknown. */
  function EndOfSend(o: Outcome): Status {
    match o
    case Sent(_) => Delivered
    case GaveUp => Dropped
    case Uncertain => Unknown
  }

  /** Step `e` takes the record under `k` from status `a` to status `b`: every way there is. */
  ghost predicate Takes(s: Sys, e: Event, k: Key, a: Status, b: Status) {
    match e
    case DoOpen(o, w) =>
      o !in s.owners && w != Lost && ((a == Running && b == NeedsReconcile) || (a == Status.Sending && b == Unknown))
    case DoClaim(o, w) =>
      InStage(s, o, Recorded) && Writes(s, o, w) && k == (Inbox, s.publishing[o].m.id) && a == Pending && b == Running
    case DoUnclaim(o, w) =>
      InStage(s, o, TurnedAway) && Writes(s, o, w) && k == (Inbox, s.publishing[o].m.id) && a == Running && b == Pending
    case DoTurn(o, m, end, w) =>
      (o, m) in s.turns && Writes(s, o, w) && k == (Inbox, m.id) && a == Running && b == EndOf(end)
    case DoSendClaim(o, m, n, w) =>
      && (o, m) in s.queued && n !in s.sends && Writes(s, o, w)
      && k == (Outbox, m.id) && a == Pending && b == Status.Sending
    case DoFinish(n, w) =>
      && n in s.sends && s.sends[n].outcome.Some? && Writes(s, s.sends[n].owner, w)
      && k == (Outbox, s.sends[n].m.id) && a == Status.Sending && b == EndOfSend(s.sends[n].outcome.value)
    case DoReconcile(o, kind, id, d, text, w) =>
      && Writes(s, o, w) && k == (kind, id) && Signed(d) && a == (if kind == Outbox then Unknown else NeedsReconcile)
      && (match d.action
          case Abandon => b == Abandoned
          case ConfirmDelivered(receipt) => kind == Outbox && !Blank(receipt) && b == Delivered
          case ConfirmNotSent => kind == Outbox && b == Pending
          case RecoverResult => kind == Inbox && !Blank(text) && b == Completed
          case OtherAction(_) => false)
    case _ => false
  }

  /** What a decision makes of an unresolved record. */
  function Decided(a: Action, unresolved: Status): Status {
    match a
    case Abandon => Abandoned
    case ConfirmDelivered(_) => Delivered
    case ConfirmNotSent => Pending
    case RecoverResult => Completed
    case OtherAction(_) => unresolved
  }

  lemma PutChanges(b: Book, o: Owner, kind: Kind, id: string, m: Message, k: Key)
    requires k in b.entries
    ensures Put(b, o, kind, id, m).Ok? ==>
              k in Put(b, o, kind, id, m).value.0.entries && Put(b, o, kind, id, m).value.0.entries[k] == b.entries[k]
  {
  }

  lemma MoveChanges(b: Book, o: Owner, kind: Kind, id: string, from: Status, to: Status, note: Note, k: Key)
    requires k in b.entries
    ensures Move(b, o, kind, id, from, to, note).Ok? <==>
              Owns(b, o) && (kind, id) in b.entries && b.entries[(kind, id)].status == from
    ensures Move(b, o, kind, id, from, to, note).Ok? ==>
              && k in Move(b, o, kind, id, from, to, note).value.entries
              && var e := Move(b, o, kind, id, from, to, note).value.entries[k];
              e == if k == (kind, id) then b.entries[k].(status := to, result := note) else b.entries[k]
  {
  }

  lemma CompleteChanges(b: Book, o: Owner, m: Message, reply: Message, k: Key)
    requires k in b.entries && (Outbox, m.id) !in b.entries
    ensures Complete(b, o, m.id, reply).Ok? <==> Owns(b, o) && Is(b, (Inbox, m.id), Running)
    ensures Complete(b, o, m.id, reply).Ok? ==>
              && k in Complete(b, o, m.id, reply).value.entries
              && var e := Complete(b, o, m.id, reply).value.entries[k];
              e == if k == (Inbox, m.id) then b.entries[k].(status := Completed, result := Reply(reply))
                   else b.entries[k]
  {
  }

  lemma ReconcileChanges(b: Book, o: Owner, kind: Kind, id: string, d: Decision, text: string, k: Key)
    requires Replies(b) && k in b.entries
    ensures var r := Reconcile(b, o, kind, id, d, text);
            var a := if kind == Outbox then Unknown else NeedsReconcile;
            && (r.Ok? <==>
                  && Owns(b, o) && Signed(d) && Is(b, (kind, id), a)
                  && match d.action
                     case Abandon => true
                     case ConfirmDelivered(receipt) => kind == Outbox && !Blank(receipt)
                     case ConfirmNotSent => kind == Outbox
                     case RecoverResult => kind == Inbox && !Blank(text)
                     case OtherAction(_) => false)
            && (r.Ok? ==>
                  && k in r.value.entries
                  && (k != (kind, id) ==> r.value.entries[k] == b.entries[k])
                  && (k == (kind, id) ==>
                        && r.value.entries[k].payload == b.entries[k].payload
                        && r.value.entries[k].resolutions == b.entries[k].resolutions + [d]
                        && r.value.entries[k].status == Decided(d.action, a)
                        && (d.action.ConfirmDelivered? ==> r.value.entries[k].result == Receipt(d.action.receipt))
                        && (d.action.RecoverResult? ==>
                             Bound(r.value, Outbox, Message(id, b.entries[k].payload.source, text)))
                        && (d.action.Abandon? ==> r.value.entries[k].result == b.entries[k].result)))
  {
    hide Blank, ForSummary;
    assert ReplyAt(b, id);
  }

  lemma OpenChanges(b: Book, k: Key)
    requires k in b.entries
    ensures k in Opened(b).entries
    ensures Opened(b).entries[k].status ==
            if b.entries[k].status == Running then NeedsReconcile
            else if b.entries[k].status == Status.Sending then Unknown else b.entries[k].status
    ensures Opened(b).entries[k].payload == b.entries[k].payload && Opened(b).entries[k].result == b.entries[k].result
    ensures Opened(b).entries[k].resolutions == b.entries[k].resolutions
  {
  }

  // ---------------------------------------------------------------------------
  // The table is exact
  // ---------------------------------------------------------------------------

  /** The receipt that a delivering step brings: the outlet's, or the one an operator confirms. */
  ghost function ReceiptOf(s: Sys, e: Event): Note {
    match e
    case DoFinish(n, _) =>
      if n in s.sends && s.sends[n].outcome.Some? && s.sends[n].outcome.value.Sent?
      then Receipt(s.sends[n].outcome.value.receipt) else Nothing
    case DoReconcile(_, _, _, d, _, _) =>
      if d.action.ConfirmDelivered? then Receipt(d.action.receipt) else Nothing
    case _ => Nothing
  }

  /** The record under `k` after a step is what the table says, or as it was where the table says nothing. */
  ghost predicate Follows(s: Sys, e: Event, s': Sys, k: Key)
    requires k in s.book.entries
  {
    var a := s.book.entries[k];
    && k in s'.book.entries && s'.book.entries[k].payload == a.payload
    && (s'.book.entries[k].status == Delivered && a.status != Delivered ==>
         s'.book.entries[k].result == ReceiptOf(s, e))
    && (|| Takes(s, e, k, a.status, s'.book.entries[k].status)
        || (s'.book.entries[k].status == a.status && s'.book.entries[k].result == a.result
            && forall b :: !Takes(s, e, k, a.status, b)))
  }

  lemma TakesOneWay(s: Sys, e: Event, k: Key, a: Status, b: Status, c: Status)
    requires Takes(s, e, k, a, b) && Takes(s, e, k, a, c)
    ensures b == c
  {
    hide Signed;
  }

  lemma StageFollows(s: Sys, e: Event, k: Key)
    requires Routed(s) && k in s.book.entries && (e.DoClaim? || e.DoUnclaim?)
    ensures Follows(s, e, ApplyInbound(s, e), k)
  {
    hide Routed, Owns, Signed, Move;
    if e.o in s.owners && e.o in s.publishing {
      var id := s.publishing[e.o].m.id;
      if e.DoClaim? {
        MoveChanges(s.book, s.owners[e.o], Inbox, id, Pending, Running, Nothing, k);
      } else {
        MoveChanges(s.book, s.owners[e.o], Inbox, id, Running, Pending, Nothing, k);
      }
    }
  }

  lemma PublishFollows(s: Sys, e: Event, k: Key)
    requires k in s.book.entries && e.DoPublish?
    ensures Follows(s, e, ApplyInbound(s, e), k)
  {
    hide InboundId, Put;
    var m := Message(InboundId(e.channel, e.event), e.source, e.text);
    if e.o in s.owners {
      PutChanges(s.book, s.owners[e.o], Inbox, m.id, m, k);
    }
  }

  lemma TurnFollows(s: Sys, e: Event, k: Key)
    requires Routed(s) && k in s.book.entries && e.DoTurn?
    ensures Follows(s, e, ApplyInbound(s, e), k)
  {
    hide ForSummary, Owns, Signed, Move, Complete;
    if e.o in s.owners && (e.o, e.m) in s.turns {
      var me, m := s.owners[e.o], e.m;
      assert Bound(s.book, Inbox, m);
      match e.end
      case Failed => MoveChanges(s.book, me, Inbox, m.id, Running, NeedsReconcile, Failure, k);
      case Joins => MoveChanges(s.book, me, Inbox, m.id, Running, Joined, Nothing, k);
      case Answers(text) =>
        assert ReplyAt(s.book, m.id);
        if (Outbox, m.id) !in s.book.entries {
          CompleteChanges(s.book, me, m, Message(m.id, m.source, text), k);
        } else {
          NotRunningIsRefused(s.book, me, m.id, Message(m.id, m.source, text));
        }
    }
  }

  lemma NotRunningIsRefused(b: Book, o: Owner, id: string, reply: Message)
    requires !Is(b, (Inbox, id), Running)
    ensures Complete(b, o, id, reply).Err?
  {
  }

  lemma PostFollows(cfg: Config, s: Sys, e: Event, k: Key)
    requires k in s.book.entries && (e.DoSummary? || e.DoReplay? || e.DoCall?)
    ensures Follows(s, e, ApplyOutbound(cfg, s, e), k)
  {
    hide Put, Step, SummaryId;
    if e.DoSummary? && e.o in s.owners {
      var m := Message(SummaryId(e.run), e.source, e.text);
      PutChanges(s.book, s.owners[e.o], Outbox, m.id, m, k);
    }
  }

  lemma SendClaimFollows(cfg: Config, s: Sys, e: Event, k: Key)
    requires k in s.book.entries && e.DoSendClaim?
    ensures Follows(s, e, ApplyOutbound(cfg, s, e), k)
  {
    hide Owns, Signed, Move;
    if e.o in s.owners {
      MoveChanges(s.book, s.owners[e.o], Outbox, e.m.id, Pending, Status.Sending, Nothing, k);
    }
  }

  lemma FinishFollows(cfg: Config, s: Sys, e: Event, k: Key)
    requires k in s.book.entries && e.DoFinish?
    ensures Follows(s, e, ApplyOutbound(cfg, s, e), k)
  {
    hide Owns, Signed, Move;
    if e.n in s.sends && s.sends[e.n].outcome.Some? && s.sends[e.n].owner in s.owners {
      var x := s.sends[e.n];
      var (to, note) := Ending(x.outcome.value);
      MoveChanges(s.book, s.owners[x.owner], Outbox, x.m.id, Status.Sending, to, note, k);
    }
  }

  lemma DecisionFollows(cfg: Config, s: Sys, e: Event, k: Key)
    requires Routed(s) && k in s.book.entries && e.DoReconcile?
    ensures Follows(s, e, Apply(cfg, s, e), k)
  {
    hide Routed, Replies, Owns, Signed, Reconcile, Blank;
    if e.o in s.owners {
      RoutedMeans(s);
      ReconcileChanges(s.book, s.owners[e.o], e.kind, e.id, e.d, e.text, k);
    }
  }

  lemma OwnersFollow(cfg: Config, s: Sys, e: Event, k: Key)
    requires k in s.book.entries && (e.DoOpen? || e.DoClose? || e.DoCrash?)
    ensures Follows(s, e, Apply(cfg, s, e), k)
  {
    hide Opened;
    OpenChanges(s.book, k);
  }

  lemma StepFollows(cfg: Config, s: Sys, e: Event, k: Key)
    requires Routed(s) && k in s.book.entries
    ensures Follows(s, e, Apply(cfg, s, e), k)
  {
    hide Routed, Follows, ApplyInbound, ApplyOutbound;
    match e
    case DoPublish(_, _, _, _, _, _) => PublishFollows(s, e, k);
    case DoClaim(_, _) => StageFollows(s, e, k);
    case DoUnclaim(_, _) => StageFollows(s, e, k);
    case DoSubmit(_, _) => SubmitFollows(s, e, k);
    case DoTurn(_, _, _, _) => TurnFollows(s, e, k);
    case DoOpen(_, _) => OwnersFollow(cfg, s, e, k);
    case DoClose(_) => OwnersFollow(cfg, s, e, k);
    case DoCrash(_) => OwnersFollow(cfg, s, e, k);
    case DoReconcile(_, _, _, _, _, _) => DecisionFollows(cfg, s, e, k);
    case DoSendClaim(_, _, _, _) => SendClaimFollows(cfg, s, e, k);
    case DoFinish(_, _) => FinishFollows(cfg, s, e, k);
    case _ => PostFollows(cfg, s, e, k);
  }

  lemma SubmitFollows(s: Sys, e: Event, k: Key)
    requires k in s.book.entries && e.DoSubmit?
    ensures Follows(s, e, ApplyInbound(s, e), k)
  {
  }

  /**
    The table is exact: in every reachable state each step takes each record to the status the table gives, and leaves
    status and result alone where the table gives none.
   */
  lemma StatusesFollowTheTable(cfg: Config, es: seq<Event>, e: Event, k: Key)
    requires ChannelsOk(es) && k in After(cfg, es).book.entries
    ensures var s, s' := After(cfg, es), After(cfg, es + [e]);
            && k in s'.book.entries && s'.book.entries[k].payload == s.book.entries[k].payload
            && forall b :: s'.book.entries[k].status == b <==>
                 Takes(s, e, k, s.book.entries[k].status, b)
                 || (b == s.book.entries[k].status && forall c :: !Takes(s, e, k, s.book.entries[k].status, c))
  {
    hide Takes, Apply, Routed;
    RoutedHolds(cfg, es);
    assert (es + [e])[..|es|] == es;
    var s, s' := After(cfg, es), After(cfg, es + [e]);
    StepFollows(cfg, s, e, k);
    forall b | Takes(s, e, k, s.book.entries[k].status, b) ensures s'.book.entries[k].status == b {
      if Takes(s, e, k, s.book.entries[k].status, s'.book.entries[k].status) {
        TakesOneWay(s, e, k, s.book.entries[k].status, b, s'.book.entries[k].status);
      }
    }
  }

  /** An opening leaves no record running or sending, and makes exactly those unresolved that were. */
  lemma OpeningLeavesNothingInTheAir(cfg: Config, es: seq<Event>, o: OwnerId, w: Write, k: Key)
    requires ChannelsOk(es) && o !in After(cfg, es).owners && w != Lost && k in After(cfg, es).book.entries
    ensures var b, b' := After(cfg, es).book, After(cfg, es + [DoOpen(o, w)]).book;
            && k in b'.entries && !Is(b', k, Running) && !Is(b', k, Status.Sending)
            && (Is(b', k, NeedsReconcile) <==> Is(b, k, NeedsReconcile) || Is(b, k, Running))
            && (Is(b', k, Unknown) <==> Is(b, k, Unknown) || Is(b, k, Status.Sending))
            && (forall status :: status !in {Running, Status.Sending, NeedsReconcile, Unknown} ==>
                  (Is(b', k, status) <==> Is(b, k, status)))
  {
    StatusesFollowTheTable(cfg, es, DoOpen(o, w), k);
    var s := After(cfg, es);
    var a := s.book.entries[k].status;
    hide After;
    assert a == Running ==> Takes(s, DoOpen(o, w), k, a, NeedsReconcile);
    assert a == Status.Sending ==> Takes(s, DoOpen(o, w), k, a, Unknown);
  }

  // ---------------------------------------------------------------------------
  // Where a settled record comes from
  // ---------------------------------------------------------------------------

  /** At step `i` of the run a call for the message under `id` gave this answer. */
  ghost predicate Gave(cfg: Config, es: seq<Event>, i: nat, id: string, a: Answer) {
    && i < |es| && es[i].DoCall? && es[i].t.answer == a
    && es[i].n in After(cfg, es[..i]).sends && After(cfg, es[..i]).sends[es[i].n].m.id == id
  }

  /** At step `i` of the run an operator's decision on this unresolved record took effect. */
  ghost predicate Ruled(cfg: Config, es: seq<Event>, i: nat, kind: Kind, id: string, a: Action) {
    && i < |es| && es[i].DoReconcile? && es[i].kind == kind && es[i].id == id && es[i].d.action == a && Signed(es[i].d)
    && Is(After(cfg, es[..i]).book, (kind, id), if kind == Outbox then Unknown else NeedsReconcile)
  }

  /** What the outcome of a running send rests on. */
  ghost predicate OutcomeRests(cfg: Config, es: seq<Event>, id: string, o: Outcome) {
    match o
    case Sent(receipt) => exists i, a :: Gave(cfg, es, i, id, a) && Received(a) && a.receipt == receipt
    case GaveUp => exists i, a :: Gave(cfg, es, i, id, a) && Terminal(a)
    case Uncertain => exists i, a :: Gave(cfg, es, i, id, a) && !Received(a) && !Terminal(a)
  }

  ghost predicate SendRests(cfg: Config, es: seq<Event>, n: SendId) {
    var s := After(cfg, es);
    n in s.sends && s.sends[n].outcome.Some? ==> OutcomeRests(cfg, es, s.sends[n].m.id, s.sends[n].outcome.value)
  }

  /** What the status of a record rests on. */
  ghost predicate RecordRests(cfg: Config, es: seq<Event>, kind: Kind, id: string) {
    var b := After(cfg, es).book;
    && (Is(b, (Outbox, id), Delivered) ==>
          exists receipt ::
            && b.entries[(Outbox, id)].result == Receipt(receipt)
            && (OutcomeRests(cfg, es, id, Sent(receipt))
                || exists i :: Ruled(cfg, es, i, Outbox, id, ConfirmDelivered(receipt))))
    && (Is(b, (Outbox, id), Dropped) ==> OutcomeRests(cfg, es, id, GaveUp))
    && (Is(b, (kind, id), Abandoned) ==> exists i :: Ruled(cfg, es, i, kind, id, Abandon))
  }

  lemma EarlierCall(cfg: Config, es: seq<Event>, e: Event, i: nat, id: string, a: Answer)
    requires Gave(cfg, es, i, id, a)
    ensures Gave(cfg, es + [e], i, id, a)
  {
    hide After;
    assert (es + [e])[..i] == es[..i];
  }

  lemma EarlierRuling(cfg: Config, es: seq<Event>, e: Event, i: nat, kind: Kind, id: string, a: Action)
    requires Ruled(cfg, es, i, kind, id, a)
    ensures Ruled(cfg, es + [e], i, kind, id, a)
  {
    hide After, Signed, Is;
    assert (es + [e])[..i] == es[..i];
  }

  lemma StillRests(cfg: Config, es: seq<Event>, e: Event, id: string, o: Outcome)
    requires OutcomeRests(cfg, es, id, o)
    ensures OutcomeRests(cfg, es + [e], id, o)
  {
    hide Gave, Received, Terminal;
    var i: nat, a :| Gave(cfg, es, i, id, a) && match o
                                                 case Sent(receipt) => Received(a) && a.receipt == receipt
                                                 case GaveUp => Terminal(a)
                                                 case Uncertain => !Received(a) && !Terminal(a);
    EarlierCall(cfg, es, e, i, id, a);
  }

  /** The outcome of a call is what its answer says. */
  lemma StepOutcome(last: bool, idempotent: bool, t: Attempt)
    ensures match Step(last, idempotent, t)
            case Again => true
            case Done(o) =>
              match o
              case Sent(receipt) => Received(t.answer) && t.answer.receipt == receipt
              case GaveUp => Terminal(t.answer)
              case Uncertain => !Received(t.answer) && !Terminal(t.answer)
  {
  }

  /** A step keeps a running send as it is, starts it without an outcome, or is a call that gives it one. */
  lemma SendsStep(cfg: Config, s: Sys, e: Event, n: SendId)
    requires n in Apply(cfg, s, e).sends && Apply(cfg, s, e).sends[n].outcome.Some?
    ensures n in s.sends && Apply(cfg, s, e).sends[n].m == s.sends[n].m
    ensures var o := Apply(cfg, s, e).sends[n].outcome.value;
            || s.sends[n].outcome == Some(o)
            || (e.DoCall? && e.n == n
                && match o
                   case Sent(receipt) => Received(e.t.answer) && e.t.answer.receipt == receipt
                   case GaveUp => Terminal(e.t.answer)
                   case Uncertain => !Received(e.t.answer) && !Terminal(e.t.answer))
  {
    hide Put, Move, Complete, Reconcile, Step, Received, Terminal, InboundId, SummaryId;
    if e.DoCall? && n in s.sends {
      StepOutcome(s.sends[n].attempts >= cfg.retries, s.sends[n].m.id in cfg.idempotent, e.t);
    }
  }

  lemma {:induction false} SendsRest(cfg: Config, es: seq<Event>, n: SendId)
    ensures SendRests(cfg, es, n)
  {
    hide Apply, Received, Terminal;
    if es != [] {
      var m := |es| - 1;
      var before, e := es[..m], es[m];
      assert es == before + [e];
      SendsRest(cfg, before, n);
      var s := After(cfg, es);
      if n in s.sends && s.sends[n].outcome.Some? {
        SendsStep(cfg, After(cfg, before), e, n);
        var o := s.sends[n].outcome.value;
        if After(cfg, before).sends[n].outcome == Some(o) {
          StillRests(cfg, before, e, s.sends[n].m.id, o);
        } else {
          assert Gave(cfg, es, m, s.sends[n].m.id, e.t.answer);
        }
      }
    }
  }

  lemma NewByWrites(b: Book, k: Key)
    requires k !in b.entries
    ensures forall o, kind, id, m :: Put(b, o, kind, id, m).Ok? && k in Put(b, o, kind, id, m).value.0.entries ==>
              Put(b, o, kind, id, m).value.0.entries[k].status == Pending
    ensures forall o, kind, id, from, to, note ::
              Move(b, o, kind, id, from, to, note).Ok? ==> k !in Move(b, o, kind, id, from, to, note).value.entries
    ensures forall o, id, m :: Complete(b, o, id, m).Ok? && k in Complete(b, o, id, m).value.entries ==>
              Complete(b, o, id, m).value.entries[k].status == Pending
    ensures forall o, kind, id, d, text ::
              Reconcile(b, o, kind, id, d, text).Ok? && k in Reconcile(b, o, kind, id, d, text).value.entries ==>
                Reconcile(b, o, kind, id, d, text).value.entries[k].status == Pending
  {
    hide Blank;
  }

  /** Every record begins by waiting. */
  lemma NewRecordsWait(cfg: Config, s: Sys, e: Event, k: Key)
    requires k !in s.book.entries && k in Apply(cfg, s, e).book.entries
    ensures Apply(cfg, s, e).book.entries[k].status == Pending
  {
    hide ApplyInbound, ApplyOutbound, Put, Move, Complete, Reconcile;
    NewByWrites(s.book, k);
    if k in ApplyInbound(s, e).book.entries {
      NewInboundWaits(s, e, k);
    }
    if k in ApplyOutbound(cfg, s, e).book.entries {
      NewOutboundWaits(cfg, s, e, k);
    }
  }

  lemma NewInboundWaits(s: Sys, e: Event, k: Key)
    requires k !in s.book.entries && k in ApplyInbound(s, e).book.entries
    ensures ApplyInbound(s, e).book.entries[k].status == Pending
  {
    hide Put, Move, Complete, Reconcile, InboundId;
    NewByWrites(s.book, k);
  }

  lemma NewOutboundWaits(cfg: Config, s: Sys, e: Event, k: Key)
    requires k !in s.book.entries && k in ApplyOutbound(cfg, s, e).book.entries
    ensures ApplyOutbound(cfg, s, e).book.entries[k].status == Pending
  {
    hide Put, Move, Complete, Reconcile, Step, SummaryId;
    NewByWrites(s.book, k);
  }

  lemma {:induction false} RecordsRest(cfg: Config, es: seq<Event>, kind: Kind, id: string)
    requires ChannelsOk(es)
    ensures RecordRests(cfg, es, kind, id)
  {
    hide After, Is, OutcomeRests, Ruled, ChannelOk, ChannelsOk;
    if es == [] {
      NothingYet(cfg, kind, id);
    } else {
      var before, e := es[..|es| - 1], es[|es| - 1];
      assert es == before + [e];
      OkBefore(before, e);
      RecordsRest(cfg, before, kind, id);
      if Is(After(cfg, es).book, (Outbox, id), Delivered) {
        DeliveredStep(cfg, before, e, kind, id);
      }
      if Is(After(cfg, es).book, (Outbox, id), Dropped) {
        DroppedStep(cfg, before, e, kind, id);
      }
      if Is(After(cfg, es).book, (kind, id), Abandoned) {
        AbandonedStep(cfg, before, e, kind, id);
      }
    }
  }

  lemma NothingYet(cfg: Config, kind: Kind, id: string)
    ensures RecordRests(cfg, [], kind, id)
  {
    assert (Outbox, id) !in After(cfg, []).book.entries && (kind, id) !in After(cfg, []).book.entries;
    hide OutcomeRests, Ruled;
  }

  lemma RunNext(cfg: Config, es: seq<Event>, e: Event)
    ensures After(cfg, es + [e]) == Apply(cfg, After(cfg, es), e)
  {
    assert (es + [e])[..|es|] == es;
  }

  /** A record newly in a settled status was taken there by the table. */
  lemma Arrived(cfg: Config, es: seq<Event>, e: Event, k: Key, b: Status)
    requires ChannelsOk(es + [e]) && b != Pending && Is(After(cfg, es + [e]).book, k, b)
             && !Is(After(cfg, es).book, k, b)
    ensures k in After(cfg, es).book.entries
    ensures Takes(After(cfg, es), e, k, After(cfg, es).book.entries[k].status, b)
    ensures b == Delivered ==> After(cfg, es + [e]).book.entries[k].result == ReceiptOf(After(cfg, es), e)
  {
    hide After, Apply, Takes, Routed;
    RunNext(cfg, es, e);
    OkBefore(es, e);
    RoutedHolds(cfg, es);
    if k !in After(cfg, es).book.entries {
      NewRecordsWait(cfg, After(cfg, es), e, k);
    } else {
      StepFollows(cfg, After(cfg, es), e, k);
    }
  }

  lemma OkBefore(es: seq<Event>, e: Event)
    requires ChannelsOk(es + [e])
    ensures ChannelsOk(es) && (e.DoPublish? ==> ChannelOk(e.channel))
  {
    assert (es + [e])[|es|] == e;
  }

  /** A record that was there before keeps its receipt while it keeps its status. */
  lemma KeptReceipt(cfg: Config, es: seq<Event>, e: Event, k: Key)
    requires ChannelsOk(es + [e]) && Is(After(cfg, es + [e]).book, k, Delivered)
             && Is(After(cfg, es).book, k, Delivered)
    ensures After(cfg, es + [e]).book.entries[k].result == After(cfg, es).book.entries[k].result
  {
    RunNext(cfg, es, e);
    OkBefore(es, e);
    RoutedHolds(cfg, es);
    hide After, Apply, Routed;
    StepFollows(cfg, After(cfg, es), e, k);
  }

  lemma DeliveredStep(cfg: Config, es: seq<Event>, e: Event, kind: Kind, id: string)
    requires ChannelsOk(es + [e]) && RecordRests(cfg, es, kind, id)
    requires Is(After(cfg, es + [e]).book, (Outbox, id), Delivered)
    ensures exists receipt ::
              && After(cfg, es + [e]).book.entries[(Outbox, id)].result == Receipt(receipt)
              && (OutcomeRests(cfg, es + [e], id, Sent(receipt))
                  || exists i :: Ruled(cfg, es + [e], i, Outbox, id, ConfirmDelivered(receipt)))
  {
    var s, k := After(cfg, es), (Outbox, id);
    hide After, OutcomeRests, Ruled;
    if Is(s.book, k, Delivered) {
      KeptReceipt(cfg, es, e, k);
      var receipt :| && s.book.entries[k].result == Receipt(receipt)
                     && (OutcomeRests(cfg, es, id, Sent(receipt))
                         || exists i :: Ruled(cfg, es, i, Outbox, id, ConfirmDelivered(receipt)));
      if OutcomeRests(cfg, es, id, Sent(receipt)) {
        StillRests(cfg, es, e, id, Sent(receipt));
      } else {
        var i: nat :| Ruled(cfg, es, i, Outbox, id, ConfirmDelivered(receipt));
        EarlierRuling(cfg, es, e, i, Outbox, id, ConfirmDelivered(receipt));
      }
    } else {
      Arrived(cfg, es, e, k, Delivered);
      if e.DoFinish? {
        SendsRest(cfg, es, e.n);
        StillRests(cfg, es, e, id, s.sends[e.n].outcome.value);
      } else {
        RuledHere(cfg, es, e, Outbox, id);
      }
    }
  }

  lemma RuledHere(cfg: Config, es: seq<Event>, e: Event, kind: Kind, id: string)
    requires e.DoReconcile? && e.kind == kind && e.id == id && Signed(e.d)
    requires Is(After(cfg, es).book, (kind, id), if kind == Outbox then Unknown else NeedsReconcile)
    ensures Ruled(cfg, es + [e], |es|, kind, id, e.d.action)
  {
    assert (es + [e])[..|es|] == es;
  }

  lemma DroppedStep(cfg: Config, es: seq<Event>, e: Event, kind: Kind, id: string)
    requires ChannelsOk(es + [e]) && RecordRests(cfg, es, kind, id)
    requires Is(After(cfg, es + [e]).book, (Outbox, id), Dropped)
    ensures OutcomeRests(cfg, es + [e], id, GaveUp)
  {
    var s, k := After(cfg, es), (Outbox, id);
    hide After, OutcomeRests;
    if Is(s.book, k, Dropped) {
      StillRests(cfg, es, e, id, GaveUp);
    } else {
      Arrived(cfg, es, e, k, Dropped);
      SendsRest(cfg, es, e.n);
      StillRests(cfg, es, e, id, GaveUp);
    }
  }

  lemma AbandonedStep(cfg: Config, es: seq<Event>, e: Event, kind: Kind, id: string)
    requires ChannelsOk(es + [e]) && RecordRests(cfg, es, kind, id)
    requires Is(After(cfg, es + [e]).book, (kind, id), Abandoned)
    ensures exists i :: Ruled(cfg, es + [e], i, kind, id, Abandon)
  {
    var s, k := After(cfg, es), (kind, id);
    hide After, Ruled;
    if Is(s.book, k, Abandoned) {
      var i: nat :| Ruled(cfg, es, i, kind, id, Abandon);
      EarlierRuling(cfg, es, e, i, kind, id, Abandon);
    } else {
      Arrived(cfg, es, e, k, Abandoned);
      RuledHere(cfg, es, e, kind, id);
    }
  }

  /** A delivered record was delivered: some call for it gave its receipt, or an operator confirmed that receipt. */
  lemma DeliveredMeansReceived(cfg: Config, es: seq<Event>, id: string)
    requires ChannelsOk(es) && Is(After(cfg, es).book, (Outbox, id), Delivered)
    ensures exists receipt ::
              && After(cfg, es).book.entries[(Outbox, id)].result == Receipt(receipt)
              && ((exists i, a :: Gave(cfg, es, i, id, a) && Received(a) && a.receipt == receipt)
                  || exists i :: Ruled(cfg, es, i, Outbox, id, ConfirmDelivered(receipt)))
  {
    RecordsRest(cfg, es, Outbox, id);
    hide After, Gave, Ruled, Received;
    var receipt :| && After(cfg, es).book.entries[(Outbox, id)].result == Receipt(receipt)
                   && (OutcomeRests(cfg, es, id, Sent(receipt))
                       || exists i :: Ruled(cfg, es, i, Outbox, id, ConfirmDelivered(receipt)));
  }

  /** A dropped record was given up after a terminal failure, and an abandoned one by an operator. */
  lemma DroppedMeansTerminal(cfg: Config, es: seq<Event>, kind: Kind, id: string)
    requires ChannelsOk(es)
    ensures Is(After(cfg, es).book, (Outbox, id), Dropped) ==> exists i, a :: Gave(cfg, es, i, id, a) && Terminal(a)
    ensures Is(After(cfg, es).book, (kind, id), Abandoned) ==> exists i :: Ruled(cfg, es, i, kind, id, Abandon)
  {
    RecordsRest(cfg, es, kind, id);
    hide After, Gave, Ruled, Terminal;
  }

  // ---------------------------------------------------------------------------
  // What waits is queued, and what is queued is sent
  // ---------------------------------------------------------------------------

  /** The outbox record of `m` waits to be sent, as it was posted. */
  ghost predicate WaitsAs(b: Book, m: Message) {
    Is(b, (Outbox, m.id), Pending) && b.entries[(Outbox, m.id)].payload == m
  }

  /**
    Whoever posts a summary or an answer without a failing write has it queued while its record waits; a restarted
    owner queues whatever waits; and a queued message of a waiting record goes into a send of its own.
   */
  lemma WaitingMessagesAreSent(cfg: Config, es: seq<Event>, e: Event, m: Message)
    ensures var s, s' := After(cfg, es), After(cfg, es + [e]);
            && (e.DoSummary? && e.w == Good && Writes(s, e.o, Good) && e.run != "" && m.source != ""
                && m == Message(SummaryId(e.run), e.source, e.text)
                && (WaitsAs(s.book, m) || (Outbox, m.id) !in s.book.entries)
                ==> WaitsAs(s'.book, m) && (e.o, m) in s'.queued)
            && (e.DoTurn? && e.w == Good && Writes(s, e.o, Good) && (e.o, e.m) in s.turns && e.end.Answers?
                && Is(s.book, (Inbox, e.m.id), Running) && m == Message(e.m.id, e.m.source, e.end.text)
                ==> WaitsAs(s'.book, m) && (e.o, m) in s'.queued)
            && (e.DoReplay? && e.o in s.owners && e.id == m.id && WaitsAs(s.book, m) ==> (e.o, m) in s'.queued)
            && (e.DoSendClaim? && e.w == Good && Writes(s, e.o, Good) && e.m == m && (e.o, m) in s.queued
                && e.n !in s.sends && WaitsAs(s.book, m)
                ==> e.n in s'.sends && s'.sends[e.n] == Sender(e.o, m, 0, false, None)
                    && Is(s'.book, (Outbox, m.id), Status.Sending))
  {
    hide After, SummaryId, Opened, Crash, Reconcile, PublishEvent, Claim, SubmitTurn, Unclaim, Call, Finish;
    RunNext(cfg, es, e);
    if e.DoSummary? {
      SummaryIsSomething(e.run);
    }
  }

  lemma SummaryIsSomething(run: string)
    ensures SummaryId(run) != ""
  {
    assert |SummaryId(run)| > 0;
  }
}
