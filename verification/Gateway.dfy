/** `publish` as one call under the gateway's lock: record, claim, submit, and hand the claim back on refusal. */
module Gateway {
  import opened Common
  import opened Text
  import opened Journal
  import opened GatewayRuns
  import opened GatewaySafety
  import D = Delivery

  const SEEN_LIMIT := 100_000

  datatype PublishError =
    | NotAllowed | NoEventId | Unroutable | GatewayClosed | DedupFull | Overloaded
    | JournalSays(e: JournalError) | NoLongerAllowed | SchedulerRefused

  /** The gateway's own memory; restart clears it. */
  datatype Memory = Memory(seen: set<string>, closed: bool)

  /**
    What the world answers during one call: is the sender allowed, is a slot free, is a sender recorded before a
    restart still allowed, and does the scheduler accept the turn.
   */
  datatype World = World(allowed: bool, slot: bool, stillAllowed: bool, accepts: bool)

  /** Checks before anything durable happens; `Ok(false)` means an event already seen by this process. */
  function Admission(g: Memory, channel: string, event: string, source: string, text: string, world: World)
    : Result<bool, PublishError>
  {
    if !world.allowed then Err(NotAllowed)
    else if event == "" then Err(NoEventId)
    else if channel == "" || source == "" || Blank(text) then Err(Unroutable)
    else if g.closed then Err(GatewayClosed)
    else if InboundId(channel, event) in g.seen then Ok(false)
    else if |g.seen| >= SEEN_LIMIT then Err(DedupFull)
    else if !world.slot then Err(Overloaded)
    else Ok(true)
  }

  /** The durable part. `Ok(false)` means a record that is no longer waiting. */
  function Published(b: Book, o: Owner, m: Message, world: World): (Book, Result<bool, PublishError>) {
    match Put(b, o, Inbox, m.id, m)
    case Err(e) => (b, Err(JournalSays(e)))
    case Ok((b1, created)) =>
      if !created && b1.entries[(Inbox, m.id)].status != Pending then (b1, Ok(false))
      else if !created && !world.stillAllowed then (b1, Err(NoLongerAllowed))
      else
        match Move(b1, o, Inbox, m.id, Pending, Running, Nothing)
        case Err(e) => (b1, Err(JournalSays(e)))
        case Ok(b2) =>
          if world.accepts then (b2, Ok(true))
          else
            match Move(b2, o, Inbox, m.id, Running, Pending, Nothing)
            case Err(_) => (b2, Err(SchedulerRefused))
            case Ok(b3) => (b3, Err(SchedulerRefused))
  }

  class GatewayObject {
    const journal: JournalOwner
    var seen: set<string>
    var closed: bool

    constructor (journal: JournalOwner)
      ensures this.journal == journal && seen == {} && !closed
    {
      this.journal := journal;
      seen, closed := {}, false;
    }

    method Publish(channel: string, event: string, source: string, text: string, world: World)
      returns (r: Result<bool, PublishError>)
      modifies `seen, journal.file
      ensures var id := InboundId(channel, event);
              var admitted := Admission(Memory(old(seen), closed), channel, event, source, text, world);
              if admitted != Ok(true) then r == admitted && seen == old(seen)
                  && journal.file.book == old(journal.file.book)
              else
                && (journal.file.book, r) ==
                   Published(old(journal.file.book), journal.Me(), Message(id, source, text), world)
                && seen == if r == Ok(true) then old(seen) + {id} else old(seen)
      ensures var id, b := InboundId(channel, event), old(journal.file.book);
              r == Ok(true) <==>
                && world.allowed && event != "" && channel != "" && source != "" && !Blank(text)
                && !closed && id !in old(seen) && |old(seen)| < SEEN_LIMIT && world.slot && world.accepts
                && Owns(b, journal.Me())
                && ((Inbox, id) in b.entries ==> b.entries[(Inbox, id)].status == Pending && world.stillAllowed)
    {
      hide Blank, InboundId, Put, Move;
      IdIsSomething(channel, event);
      if event != "" {
        StartedIff(journal.file.book, journal.Me(), Message(InboundId(channel, event), source, text), world);
      }
      if !world.allowed {
        return Err(NotAllowed);
      }
      if event == "" {
        return Err(NoEventId);
      }
      if channel == "" || source == "" || Blank(text) {
        return Err(Unroutable);
      }
      var key := InboundId(channel, event);
      if closed {
        return Err(GatewayClosed);
      }
      if key in seen {
        return Ok(false);
      }
      if |seen| >= SEEN_LIMIT {
        return Err(DedupFull);
      }
      if !world.slot {
        return Err(Overloaded);
      }
      var created := journal.PutRecord(Inbox, key, Message(key, source, text));
      if created.Err? {
        return Err(JournalSays(created.error));
      }
      if !created.value {
        PutFound(old(journal.file.book), journal.Me(), key, Message(key, source, text));
        if journal.file.book.entries[(Inbox, key)].status != Pending {
          return Ok(false);
        }
        if !world.stillAllowed {
          return Err(NoLongerAllowed);
        }
      }
      var claimed := journal.MoveRecord(Inbox, key, Pending, Running, Nothing);
      if claimed.Err? {
        return Err(JournalSays(claimed.error));
      }
      if !world.accepts {
        var _ := journal.MoveRecord(Inbox, key, Running, Pending, Nothing);
        return Err(SchedulerRefused);
      }
      seen := seen + {key};
      return Ok(true);
    }
  }

  lemma IdIsSomething(channel: string, event: string)
    ensures InboundId(channel, event) != ""
  {
    assert |InboundId(channel, event)| > 0;
  }

  /**
    A turn starts exactly for the current owner's new or waiting record, if its sender still may and it is accepted.
   */
  lemma StartedIff(b: Book, o: Owner, m: Message, world: World)
    requires m.id != ""
    ensures Published(b, o, m, world).1 == Ok(true) <==>
              Owns(b, o) && world.accepts
              && ((Inbox, m.id) in b.entries ==> b.entries[(Inbox, m.id)].status == Pending && world.stillAllowed)
  {
  }

  lemma PutFound(b: Book, o: Owner, id: string, m: Message)
    ensures Put(b, o, Inbox, id, m).Ok? && !Put(b, o, Inbox, id, m).value.1 ==>
              (Inbox, id) in Put(b, o, Inbox, id, m).value.0.entries
  {
  }

  /** A turn is started only for a record that was new or waiting, and the record is durably running first. */
  lemma StartedMeansClaimed(b: Book, o: Owner, m: Message, world: World)
    ensures var (b', r) := Published(b, o, m, world);
            && (r == Ok(true) ==>
                  && Owns(b, o) && world.accepts
                  && ((Inbox, m.id) in b.entries ==> b.entries[(Inbox, m.id)].status == Pending)
                  && (Inbox, m.id) in b'.entries && b'.entries[(Inbox, m.id)].status == Running)
            && (r == Ok(false) ==> b' == b && (Inbox, m.id) in b.entries && b.entries[(Inbox, m.id)].status != Pending)
            && (r == Err(SchedulerRefused) ==>
                 (Inbox, m.id) in b'.entries && b'.entries[(Inbox, m.id)].status == Pending)
            && (forall k :: k != (Inbox, m.id) ==> (k in b'.entries <==> k in b.entries)
                                                   && (k in b.entries ==> b'.entries[k] == b.entries[k]))
  {
  }

  /**
    The call is the run's steps in order, when no durable update fails: publish, claim, submit, and maybe unclaim. A
    turn is submitted only with its record durably running, and no other record changes.
   */
  lemma PublishIsItsSteps(s: Sys, o: OwnerId, m: Message, world: World)
    requires o in s.owners && o !in s.publishing && world.stillAllowed
    requires (Inbox, m.id) in s.book.entries ==> s.book.entries[(Inbox, m.id)].payload.id == m.id
    ensures var s1 := PublishEvent(s, o, m, Good);
            var (b', r) := Published(s.book, s.owners[o], m, world);
            if o !in s1.publishing then s1.book == b' && r != Ok(true)
            else
              && o in s1.owners
              && var s2 := Claim(s1, o, Good);
              && InStage(s2, o, Claimed)
              && var s3 := SubmitTurn(s2, o, world.accepts);
              if world.accepts then s3.book == b' && r == Ok(true)
              else InStage(s3, o, TurnedAway) && Unclaim(s3, o, Good).book == b' && r == Err(SchedulerRefused)
    ensures var (b', r) := Published(s.book, s.owners[o], m, world);
            && (r == Ok(true) ==> (Inbox, m.id) in b'.entries && b'.entries[(Inbox, m.id)].status == Running)
            && (forall k :: k in s.book.entries && k != (Inbox, m.id) ==>
                  k in b'.entries && b'.entries[k] == s.book.entries[k])
  {
    StartedMeansClaimed(s.book, s.owners[o], m, world);
  }

  // ---------------------------------------------------------------------------
  // A journalled send as steps of the run
  // ---------------------------------------------------------------------------

  /** The calls of one send, until one of them settles it. */
  function Calls(cfg: Config, s: Sys, n: SendId, env: seq<D.Attempt>, i: nat): Sys
    requires n in s.sends
    decreases |env| - i
  {
    if i >= |env| || s.sends[n].outcome.Some? then s else Calls(cfg, Call(cfg, s, n, env[i]), n, env, i + 1)
  }

  /** They are the retry loop: the same outcome after the same number of calls, and nothing durable happens. */
  lemma {:induction false} CallsAreTheLoop(cfg: Config, s: Sys, n: SendId, env: seq<D.Attempt>, i: nat)
    requires |env| == cfg.retries + 1 && i <= cfg.retries
    requires n in s.sends && s.sends[n].outcome.None? && s.sends[n].attempts == i
    ensures var s' := Calls(cfg, s, n, env, i);
            var (outcome, attempts) := D.SendFrom(cfg.retries, s.sends[n].m.id in cfg.idempotent, env, i);
            && n in s'.sends && s'.sends[n].owner == s.sends[n].owner && s'.sends[n].m == s.sends[n].m
            && s'.sends[n].outcome == Some(outcome) && s'.sends[n].attempts == attempts
            && s'.book == s.book && s'.owners == s.owners
    decreases |env| - i
  {
    hide D.Step;
    var s1 := Call(cfg, s, n, env[i]);
    if i == cfg.retries {
      LastCallSettles(cfg, s, n, env[i]);
    }
    if s1.sends[n].outcome.None? {
      CallsAreTheLoop(cfg, s1, n, env, i + 1);
    }
  }

  lemma LastCallSettles(cfg: Config, s: Sys, n: SendId, t: D.Attempt)
    requires n in s.sends && s.sends[n].attempts >= cfg.retries
    ensures Call(cfg, s, n, t).sends[n].outcome.Some?
  {
  }

  /**
    A send is the run's steps in order, when no durable update fails: claim, the calls, finish. It happens only on a
    pending record of the current owner, and otherwise nothing does.
   */
  lemma SendIsItsSteps(cfg: Config, s: Sys, o: OwnerId, m: Message, n: SendId, env: seq<D.Attempt>)
    requires |env| == cfg.retries + 1 && o in s.owners && n !in s.sends
    ensures var s1 := SendClaim(s, o, m, n, Good);
            var outcome := D.SendFrom(cfg.retries, m.id in cfg.idempotent, env, 0).0;
            var sent := D.AfterSend(s.book, s.owners[o], m.id, outcome);
            && (sent.Ok? <==> Owns(s.book, s.owners[o]) && Waiting(s.book, m.id))
            && if n !in s1.sends then sent.Err? && s1.book == s.book
               else
                 var s2 := Calls(cfg, s1, n, env, 0);
                 && n in s2.sends && s2.sends[n].outcome == Some(outcome) && s2.sends[n].owner in s2.owners
                 && sent == Ok(Finish(s2, n, Good).book)
  {
    hide D.SendFrom, Calls, D.Step;
    var s1 := SendClaim(s, o, m, n, Good);
    if n in s1.sends {
      CallsAreTheLoop(cfg, s1, n, env, 0);
    }
    D.SendNeedsAPendingRecord(s.book, s.owners[o], m.id, D.SendFrom(cfg.retries, m.id in cfg.idempotent, env, 0).0);
  }
}
