/**
  All interleavings of gateway owners over one journal: publishing, turns, delivery, operators, crashes and
  re-opens. A durable update may take effect and still be reported as failed. Owners are not assumed to exclude
  each other: the epoch fence alone carries these results.
 */
module GatewayRuns {
  import opened Common
  import opened Journal
  import opened Delivery

  type OwnerId = nat
  type SendId = nat

  /** `idempotent` names the records whose outlet declares itself idempotent. */
  datatype Config = Config(retries: nat, idempotent: set<string>)

  /** Inbound records are keyed by channel and event, background summaries by their run. */
  function InboundId(channel: string, event: string): string { channel + ":" + event }

  function SummaryId(run: string): string { "worker:" + run }

  predicate ForSummary(id: string) { "worker:" <= id }

  /** A channel name is one an outlet registers under; no outlet is called "worker". */
  predicate ChannelOk(channel: string) { ':' !in channel && channel != "worker" }

  lemma RepliesAndSummariesAreDisjoint(channel: string, event: string)
    requires ':' !in channel
    ensures ForSummary(InboundId(channel, event)) <==> channel == "worker"
  {
    var id := InboundId(channel, event);
    assert id[|channel|] == ':' && id[..|channel|] == channel;
    assert forall i :: 0 <= i < |channel| ==> id[i] != ':';
    if ForSummary(id) {
      assert id[6] == ':' && forall i :: 0 <= i < 6 ==> id[i] == "worker"[i] && id[i] != ':';
      assert |channel| == 6;
    }
  }

  /** Every published event of the run came in over such a channel. */
  ghost predicate ChannelsOk(es: seq<Event>) { forall e :: e in es && e.DoPublish? ==> ChannelOk(e.channel) }

  /** Where `publish` stands while it holds the gateway's lock. */
  datatype Stage = Recorded | Claimed | TurnedAway

  datatype Publish = Publish(m: Message, stage: Stage)

  /** One `send` after its claim: the calls made, whether one may have arrived, and the outcome once known. */
  datatype Sender = Sender(owner: OwnerId, m: Message, attempts: nat, spent: bool, outcome: Option<Outcome>)

  /** `submitted`, `claims` and `suspects` are history: accepted turns, claims that took effect, calls that may have arrived. */
  datatype Sys = Sys(
    book: Book, owners: map<OwnerId, Owner>, publishing: map<OwnerId, Publish>, turns: set<(OwnerId, Message)>,
    queued: set<(OwnerId, Message)>, sends: map<SendId, Sender>,
    submitted: multiset<string>, claims: multiset<string>, suspects: multiset<string>)

  datatype TurnEnd = Failed | Joins | Answers(text: string)

  datatype Event =
    | DoOpen(o: OwnerId, w: Write)
    | DoClose(o: OwnerId)
    | DoCrash(o: OwnerId)
    | DoPublish(o: OwnerId, channel: string, event: string, source: string, text: string, w: Write)
    | DoClaim(o: OwnerId, w: Write)
    | DoSubmit(o: OwnerId, accepted: bool)
    | DoUnclaim(o: OwnerId, w: Write)
    | DoTurn(o: OwnerId, m: Message, end: TurnEnd, w: Write)
    | DoSummary(o: OwnerId, run: string, source: string, text: string, w: Write)
    | DoReplay(o: OwnerId, id: string)
    | DoSendClaim(o: OwnerId, m: Message, n: SendId, w: Write)
    | DoCall(n: SendId, t: Attempt)
    | DoFinish(n: SendId, w: Write)
    | DoReconcile(o: OwnerId, kind: Kind, id: string, d: Decision, text: string, w: Write)

  // ---------------------------------------------------------------------------
  // Steps
  // ---------------------------------------------------------------------------

  function Written(b: Book, r: Result<Book, JournalError>, w: Write): Book {
    if r.Ok? && w != Lost then r.value else b
  }

  predicate Told<T>(r: Result<T, JournalError>, w: Write) { r.Ok? && w == Good }

  function Without<K, V>(m: map<K, V>, k: K): map<K, V> { map x | x in m && x != k :: m[x] }

  function Open(s: Sys, o: OwnerId, w: Write): Sys {
    if o in s.owners || w == Lost then s
    else
      var b := Opened(s.book);
      s.(book := b, owners := if w == Good then s.owners[o := Owner(b.epoch, false)] else s.owners)
  }

  function OfOthers(xs: set<(OwnerId, Message)>, o: OwnerId): set<(OwnerId, Message)> { set x | x in xs && x.0 != o }

  function Crash(s: Sys, o: OwnerId): Sys {
    s.(owners := Without(s.owners, o), publishing := Without(s.publishing, o),
       turns := OfOthers(s.turns, o), queued := OfOthers(s.queued, o),
       sends := map n | n in s.sends && s.sends[n].owner != o :: s.sends[n])
  }

  /** A new event is recorded; a known one goes on only while its record still waits, and as it was recorded. */
  function PublishEvent(s: Sys, o: OwnerId, m: Message, w: Write): Sys
    requires o in s.owners
  {
    match Put(s.book, s.owners[o], Inbox, m.id, m)
    case Err(_) => s
    case Ok((b, created)) =>
      var s1 := s.(book := if w == Lost then s.book else b);
      if w != Good then s1
      else if created then s1.(publishing := s.publishing[o := Publish(m, Recorded)])
      else
        var e := s.book.entries[(Inbox, m.id)];
        if e.status == Pending then s1.(publishing := s.publishing[o := Publish(e.payload, Recorded)]) else s1
  }

  function Claim(s: Sys, o: OwnerId, w: Write): Sys
    requires o in s.owners && o in s.publishing
  {
    var p := s.publishing[o];
    var r := Move(s.book, s.owners[o], Inbox, p.m.id, Pending, Running, Nothing);
    s.(book := Written(s.book, r, w),
       publishing := if Told(r, w) then s.publishing[o := p.(stage := Claimed)] else Without(s.publishing, o))
  }

  function SubmitTurn(s: Sys, o: OwnerId, accepted: bool): Sys
    requires o in s.publishing
  {
    var p := s.publishing[o];
    if accepted then
      s.(submitted := s.submitted + multiset{p.m.id}, turns := s.turns + {(o, p.m)},
         publishing := Without(s.publishing, o))
    else s.(publishing := s.publishing[o := p.(stage := TurnedAway)])
  }

  function Unclaim(s: Sys, o: OwnerId, w: Write): Sys
    requires o in s.owners && o in s.publishing
  {
    var r := Move(s.book, s.owners[o], Inbox, s.publishing[o].m.id, Running, Pending, Nothing);
    s.(book := Written(s.book, r, w), publishing := Without(s.publishing, o))
  }

  function EndTurn(s: Sys, o: OwnerId, m: Message, end: TurnEnd, w: Write): Sys
    requires o in s.owners
  {
    var s1 := s.(turns := s.turns - {(o, m)});
    match end
    case Failed => s1.(book := Written(s.book, Move(s.book, s.owners[o], Inbox, m.id, Running, NeedsReconcile, Failure), w))
    case Joins => s1.(book := Written(s.book, Move(s.book, s.owners[o], Inbox, m.id, Running, Joined, Nothing), w))
    case Answers(text) =>
      var reply := Message(m.id, m.source, text);
      var r := Complete(s.book, s.owners[o], m.id, reply);
      s1.(book := Written(s.book, r, w), queued := if Told(r, w) then s.queued + {(o, reply)} else s.queued)
  }

  function PostSummary(s: Sys, o: OwnerId, m: Message, w: Write): Sys
    requires o in s.owners
  {
    match Posted(s.book, s.owners[o], m)
    case Err(_) => s
    case Ok((b, q)) =>
      s.(book := if w == Lost then s.book else b,
         queued := if w == Good && q.Some? then s.queued + {(o, q.value)} else s.queued)
  }

  function Replay(s: Sys, o: OwnerId, id: string): Sys {
    if (Outbox, id) in s.book.entries && s.book.entries[(Outbox, id)].status == Pending
       && s.book.entries[(Outbox, id)].payload.id == id
    then s.(queued := s.queued + {(o, s.book.entries[(Outbox, id)].payload)}) else s
  }

  function SendClaim(s: Sys, o: OwnerId, m: Message, n: SendId, w: Write): Sys
    requires o in s.owners
  {
    var r := Move(s.book, s.owners[o], Outbox, m.id, Pending, Status.Sending, Nothing);
    s.(book := Written(s.book, r, w),
       queued := s.queued - {(o, m)},
       claims := if r.Ok? && w != Lost then s.claims + multiset{m.id} else s.claims,
       sends := if Told(r, w) then s.sends[n := Sender(o, m, 0, false, None)] else s.sends)
  }

  function Call(cfg: Config, s: Sys, n: SendId, t: Attempt): Sys
    requires n in s.sends
  {
    var k := s.sends[n];
    var maybe := MayHaveArrived(t.answer);
    var next := Step(k.attempts >= cfg.retries, k.m.id in cfg.idempotent, t);
    s.(suspects := if maybe then s.suspects + multiset{k.m.id} else s.suspects,
       sends := s.sends[n := k.(attempts := k.attempts + 1, spent := k.spent || maybe,
                                outcome := if next.Done? then Some(next.outcome) else None)])
  }

  function Finish(s: Sys, n: SendId, w: Write): Sys
    requires n in s.sends && s.sends[n].outcome.Some? && s.sends[n].owner in s.owners
  {
    var k := s.sends[n];
    var (to, note) := Ending(k.outcome.value);
    s.(book := Written(s.book, Move(s.book, s.owners[k.owner], Outbox, k.m.id, Status.Sending, to, note), w),
       sends := Without(s.sends, n))
  }

  predicate InStage(s: Sys, o: OwnerId, stage: Stage) {
    o in s.owners && o in s.publishing && s.publishing[o].stage == stage
  }

  function ApplyInbound(s: Sys, e: Event): Sys {
    match e
    case DoPublish(o, channel, event, source, text, w) =>
      if o in s.owners && o !in s.publishing && channel != "" && event != ""
      then PublishEvent(s, o, Message(InboundId(channel, event), source, text), w) else s
    case DoClaim(o, w) => if InStage(s, o, Recorded) then Claim(s, o, w) else s
    case DoSubmit(o, accepted) => if InStage(s, o, Claimed) then SubmitTurn(s, o, accepted) else s
    case DoUnclaim(o, w) => if InStage(s, o, TurnedAway) then Unclaim(s, o, w) else s
    case DoTurn(o, m, end, w) => if o in s.owners && (o, m) in s.turns then EndTurn(s, o, m, end, w) else s
    case _ => s
  }

  function ApplyOutbound(cfg: Config, s: Sys, e: Event): Sys {
    match e
    case DoSummary(o, run, source, text, w) =>
      if o in s.owners && run != "" then PostSummary(s, o, Message(SummaryId(run), source, text), w) else s
    case DoReplay(o, id) => if o in s.owners then Replay(s, o, id) else s
    case DoSendClaim(o, m, n, w) =>
      if o in s.owners && (o, m) in s.queued && n !in s.sends then SendClaim(s, o, m, n, w) else s
    case DoCall(n, t) => if n in s.sends && s.sends[n].outcome.None? then Call(cfg, s, n, t) else s
    case DoFinish(n, w) =>
      if n in s.sends && s.sends[n].outcome.Some? && s.sends[n].owner in s.owners then Finish(s, n, w) else s
    case _ => s
  }

  function Apply(cfg: Config, s: Sys, e: Event): Sys {
    match e
    case DoOpen(o, w) => Open(s, o, w)
    case DoClose(o) => if o in s.owners then s.(owners := s.owners[o := s.owners[o].(closed := true)]) else s
    case DoCrash(o) => Crash(s, o)
    case DoReconcile(o, kind, id, d, text, w) =>
      if o in s.owners then s.(book := Written(s.book, Reconcile(s.book, s.owners[o], kind, id, d, text), w)) else s
    case DoPublish(_, _, _, _, _, _) => ApplyInbound(s, e)
    case DoClaim(_, _) => ApplyInbound(s, e)
    case DoSubmit(_, _) => ApplyInbound(s, e)
    case DoUnclaim(_, _) => ApplyInbound(s, e)
    case DoTurn(_, _, _, _) => ApplyInbound(s, e)
    case _ => ApplyOutbound(cfg, s, e)
  }

  function After(cfg: Config, es: seq<Event>): Sys {
    if es == [] then
      Sys(Book(0, map[]), map[], map[], {}, {}, map[], multiset{}, multiset{}, multiset{})
    else Apply(cfg, After(cfg, es[..|es| - 1]), es[|es| - 1])
  }
}
