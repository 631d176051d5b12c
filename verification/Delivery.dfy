/**
  Sending one claimed message: which answers of an outlet allow another call, and what the record says at the end.
 */
module Delivery {
  import opened Common
  import opened Journal

  /**
    What one guarded call gave: a receipt, or an error that may carry several marks. A panic is `uncertain`.
   */
  datatype Answer = Answer(receipt: string, failed: bool, uncertain: bool, terminal: bool, rejected: bool)

  /** What the loop meets around one call: the answer, shutdown at the check, and shutdown during the pause. */
  datatype Attempt = Attempt(answer: Answer, down: bool, stopped: bool)

  datatype Outcome = Sent(receipt: string) | Uncertain | GaveUp

  /** No error and a platform receipt; a missing receipt is an error without marks. */
  predicate Received(a: Answer) { !a.failed && a.receipt != "" }

  predicate Panicked(a: Answer) { a.failed && a.uncertain }

  predicate Terminal(a: Answer) { a.failed && !a.uncertain && a.terminal }

  predicate Rejected(a: Answer) { a.failed && !a.uncertain && a.rejected }

  /** Anything but a definitive rejection may have reached the platform. */
  predicate MayHaveArrived(a: Answer) { !Rejected(a) }

  datatype Next = Again | Done(outcome: Outcome)

  /** One turn of the retry loop. */
  function Step(last: bool, idempotent: bool, t: Attempt): Next {
    if Received(t.answer) then Done(Sent(t.answer.receipt))
    else if Panicked(t.answer) then Done(Uncertain)
    else if !Terminal(t.answer) && !Rejected(t.answer) && !idempotent then Done(Uncertain)
    else if Terminal(t.answer) then Done(GaveUp)
    else if t.down || last || t.stopped then Done(Uncertain)
    else Again
  }

  /** The whole loop from attempt `i`, over what the environment would give at each attempt. */
  function SendFrom(retries: nat, idempotent: bool, env: seq<Attempt>, i: nat): (Outcome, nat)
    requires |env| == retries + 1 && i <= retries
    decreases retries - i
  {
    match Step(i == retries, idempotent, env[i])
    case Done(o) => (o, i + 1)
    case Again => SendFrom(retries, idempotent, env, i + 1)
  }

  method Send(retries: nat, idempotent: bool, env: seq<Attempt>) returns (outcome: Outcome, attempts: nat)
    requires |env| == retries + 1
    ensures (outcome, attempts) == SendFrom(retries, idempotent, env, 0)
  {
    outcome, attempts := GaveUp, 0;
    while attempts <= retries
      invariant attempts <= retries
      invariant SendFrom(retries, idempotent, env, attempts) == SendFrom(retries, idempotent, env, 0)
      decreases retries - attempts
    {
      var t := env[attempts];
      attempts := attempts + 1;
      if !t.answer.failed && t.answer.receipt != "" {
        return Sent(t.answer.receipt), attempts;
      }
      if t.answer.failed && t.answer.uncertain {
        return Uncertain, attempts;
      }
      var terminal := t.answer.failed && t.answer.terminal;
      var rejected := t.answer.failed && t.answer.rejected;
      if !terminal && !rejected && !idempotent {
        return Uncertain, attempts;
      }
      if terminal || t.down || attempts - 1 == retries {
        return if terminal then GaveUp else Uncertain, attempts;
      }
      if t.stopped {
        return Uncertain, attempts;
      }
    }
  }

  /** A loop never runs past its retries, and every call but the last asked for another. */
  lemma {:induction false} SendShape(retries: nat, idempotent: bool, env: seq<Attempt>, i: nat)
    requires |env| == retries + 1 && i <= retries
    ensures var (o, n) := SendFrom(retries, idempotent, env, i);
            && i < n <= retries + 1
            && (forall k :: i <= k < n - 1 ==> Step(k == retries, idempotent, env[k]) == Again)
            && Step(n - 1 == retries, idempotent, env[n - 1]) == Done(o)
    decreases retries - i
  {
    if Step(i == retries, idempotent, env[i]) == Again {
      SendShape(retries, idempotent, env, i + 1);
    }
  }

  /** A non-idempotent outlet is called again only after a definitive rejection: at most one call may have arrived. */
  lemma CalledAgainOnlyAfterRejection(retries: nat, env: seq<Attempt>, k: nat)
    requires |env| == retries + 1 && k < SendFrom(retries, false, env, 0).1 - 1
    ensures k <= retries && Rejected(env[k].answer)
  {
    SendShape(retries, false, env, 0);
  }

  /** What each outcome says about the calls that led to it. */
  lemma OutcomeMeaning(retries: nat, idempotent: bool, env: seq<Attempt>)
    requires |env| == retries + 1
    ensures var (o, n) := SendFrom(retries, idempotent, env, 0);
            && 1 <= n <= retries + 1
            && (o.Sent? <==> Received(env[n - 1].answer))
            && (o.Sent? ==> o.receipt == env[n - 1].answer.receipt)
            && (o == GaveUp <==> Terminal(env[n - 1].answer))
            && (forall k :: 0 <= k < n - 1 ==> !Received(env[k].answer) && !Terminal(env[k].answer))
  {
    SendShape(retries, idempotent, env, 0);
  }

  /**
    Another call is made exactly while the retries last, unless the last one gave a receipt, a panic, a terminal
    failure, or a lost reply of a non-idempotent outlet, or the hub shuts down.
   */
  lemma RetriesAreUsed(retries: nat, idempotent: bool, env: seq<Attempt>)
    requires |env| == retries + 1
    ensures var n := SendFrom(retries, idempotent, env, 0).1;
            1 <= n <= retries + 1
            && (n <= retries ==>
                  var t := env[n - 1];
                  || Received(t.answer) || Panicked(t.answer) || Terminal(t.answer) || t.down || t.stopped
                  || (!idempotent && !Rejected(t.answer)))
            && (forall k :: 0 <= k < n - 1 ==>
                  && !env[k].down && !env[k].stopped
                  && !Received(env[k].answer) && !Panicked(env[k].answer) && !Terminal(env[k].answer)
                  && (idempotent || Rejected(env[k].answer)))
  {
    SendShape(retries, idempotent, env, 0);
  }

  /** Giving up on a non-idempotent outlet is sound: every call before the terminal one was rejected. */
  lemma DroppedMeansRejected(retries: nat, env: seq<Attempt>)
    requires |env| == retries + 1 && SendFrom(retries, false, env, 0).0 == GaveUp
    ensures var n := SendFrom(retries, false, env, 0).1;
            1 <= n <= |env| && Terminal(env[n - 1].answer)
            && forall k :: 0 <= k < n - 1 ==> Rejected(env[k].answer)
  {
    SendShape(retries, false, env, 0);
  }

  /** Whether a record that ends "dropped" can have been delivered by an earlier call. */
  ghost predicate DropIsSound(retries: nat, idempotent: bool, env: seq<Attempt>)
    requires |env| == retries + 1
  {
    var (o, n) := SendFrom(retries, idempotent, env, 0);
    o == GaveUp ==> 1 <= n <= |env| && forall k :: 0 <= k < n - 1 ==> Rejected(env[k].answer)
  }

  /** A call whose reply is lost, and terminal failures after it. */
  function LostThenTerminal(retries: nat): (env: seq<Attempt>)
    ensures |env| == retries + 1
  {
    var lost := Attempt(Answer("", true, false, false, false), false, false);
    var terminal := Attempt(Answer("", true, false, true, false), false, false);
    seq(retries + 1, i => if i == 0 then lost else terminal)
  }

  /** "dropped" is not "never sent": for an idempotent outlet it may follow a call whose reply was lost. */
  lemma DroppedAfterALostReply(retries: nat)
    requires retries > 0
    ensures var env := LostThenTerminal(retries);
            && MayHaveArrived(env[0].answer)
            && SendFrom(retries, true, env, 0) == (GaveUp, 2)
            && SendFrom(retries, false, env, 0) == (Uncertain, 1)
  {
    var env := LostThenTerminal(retries);
    assert Step(false, true, env[0]) == Again && Step(1 == retries, true, env[1]) == Done(GaveUp);
    assert SendFrom(retries, true, env, 1) == (GaveUp, 2);
  }

  /** "dropped" means never delivered if and only if the outlet is not idempotent or there are no retries. */
  lemma DroppedIsSoundIff(retries: nat, idempotent: bool)
    ensures (forall env: seq<Attempt> :: |env| == retries + 1 ==> DropIsSound(retries, idempotent, env))
            <==> !idempotent || retries == 0
  {
    if idempotent && retries > 0 {
      DroppedAfterALostReply(retries);
      assert !DropIsSound(retries, idempotent, LostThenTerminal(retries));
    } else {
      forall env: seq<Attempt> | |env| == retries + 1 ensures DropIsSound(retries, idempotent, env) {
        SendShape(retries, idempotent, env, 0);
      }
    }
  }

  /** Only rejections, until the retries run out: the record still ends "unknown", and waits for an operator. */
  lemma RejectedToTheEndIsUncertain(retries: nat, idempotent: bool, env: seq<Attempt>)
    requires |env| == retries + 1
    requires forall k :: 0 <= k <= retries ==> Rejected(env[k].answer) && !env[k].answer.terminal
    ensures SendFrom(retries, idempotent, env, 0).0 == Uncertain
  {
    SendShape(retries, idempotent, env, 0);
  }

  // ---------------------------------------------------------------------------
  // A journalled send
  // ---------------------------------------------------------------------------

  /** How the record of a finished send is settled. */
  function Ending(o: Outcome): (Status, Note) {
    match o
    case Sent(receipt) => (Delivered, Receipt(receipt))
    case Uncertain => (Unknown, Nothing)
    case GaveUp => (Dropped, Nothing)
  }

  /** The record after a send by one owner: claimed first, settled afterwards, untouched if the claim is refused. */
  function AfterSend(b: Book, o: Owner, id: string, outcome: Outcome): Result<Book, JournalError> {
    match Move(b, o, Outbox, id, Pending, Sending, Nothing)
    case Err(e) => Err(e)
    case Ok(claimed) =>
      var (to, note) := Ending(outcome);
      Move(claimed, o, Outbox, id, Sending, to, note)
  }

  /** The outlet is called only after the claim is durable; otherwise it is not called at all. */
  method SendJournalled(j: JournalOwner, id: string, retries: nat, idempotent: bool, env: seq<Attempt>)
    returns (r: Result<Outcome, JournalError>, attempts: nat)
    requires |env| == retries + 1
    modifies j.file
    ensures var (outcome, n) := SendFrom(retries, idempotent, env, 0);
            match AfterSend(old(j.file.book), j.Me(), id, outcome)
            case Ok(b) => r == Ok(outcome) && attempts == n && j.file.book == b
            case Err(e) => r == Err(e) && attempts == 0 && j.file.book == old(j.file.book)
    ensures var k := (Outbox, id);
            && (r.Ok? <==> Owns(old(j.file.book), j.Me()) && k in old(j.file.book).entries
                           && old(j.file.book).entries[k].status == Pending)
            && (r.Ok? ==>
                  && 1 <= attempts <= |env| && k in j.file.book.entries
                  && var last, e := env[attempts - 1].answer, j.file.book.entries[k];
                  && (e.status == Delivered <==> Received(last))
                  && (e.status == Dropped <==> Terminal(last))
                  && (e.status == Unknown <==> !Received(last) && !Terminal(last))
                  && (Received(last) ==> e.result == Receipt(last.receipt)))
  {
    hide SendFrom;
    OutcomeMeaning(retries, idempotent, env);
    SendNeedsAPendingRecord(j.file.book, j.Me(), id, SendFrom(retries, idempotent, env, 0).0);
    var claimed := j.MoveRecord(Outbox, id, Pending, Sending, Nothing);
    if claimed.Err? {
      return Err(claimed.error), 0;
    }
    var outcome, n := Send(retries, idempotent, env);
    var (to, note) := Ending(outcome);
    var settled := j.MoveRecord(Outbox, id, Sending, to, note);
    return Ok(outcome), n;
  }

  /** A send happens only on a pending record, and leaves it settled by what the calls gave. */
  lemma SendNeedsAPendingRecord(b: Book, o: Owner, id: string, outcome: Outcome)
    ensures AfterSend(b, o, id, outcome).Ok? <==>
              Owns(b, o) && (Outbox, id) in b.entries && b.entries[(Outbox, id)].status == Pending
    ensures AfterSend(b, o, id, outcome).Ok? ==>
              && AfterSend(b, o, id, outcome).value.entries.Keys == b.entries.Keys
              && AfterSend(b, o, id, outcome).value.entries[(Outbox, id)] ==
                 b.entries[(Outbox, id)].(status := Ending(outcome).0, result := Ending(outcome).1)
              && (forall k :: k in b.entries && k != (Outbox, id) ==>
                    AfterSend(b, o, id, outcome).value.entries[k] == b.entries[k])
  {
  }

  // ---------------------------------------------------------------------------
  // Results posted under a stable identifier
  // ---------------------------------------------------------------------------

  datatype PostError = Unroutable | JournalSays(e: JournalError) | BoundElsewhere

  /** The message to queue, if any: a new one, or the one saved under this identifier while it still waits. */
  function Posted(b: Book, o: Owner, m: Message): Result<(Book, Option<Message>), PostError> {
    if m.id == "" || m.source == "" then Err(Unroutable)
    else
      match Put(b, o, Outbox, m.id, m)
      case Err(e) => Err(JournalSays(e))
      case Ok((b', true)) => Ok((b', Some(m)))
      case Ok((b', false)) =>
        var e := b'.entries[(Outbox, m.id)];
        if e.payload != m then Err(BoundElsewhere)
        else if e.status != Pending then Ok((b', None))
        else Ok((b', Some(e.payload)))
  }

  method PostDurable(j: JournalOwner, m: Message) returns (r: Result<Option<Message>, PostError>)
    modifies j.file
    ensures match Posted(old(j.file.book), j.Me(), m)
            case Ok(done) => r == Ok(done.1) && j.file.book == done.0
            case Err(e) => r == Err(e) && j.file.book == old(j.file.book)
  {
    if m.id == "" || m.source == "" {
      return Err(Unroutable);
    }
    var created := j.PutRecord(Outbox, m.id, m);
    if created.Err? {
      return Err(JournalSays(created.error));
    }
    if !created.value {
      var e := j.file.book.entries[(Outbox, m.id)];
      if e.payload != m {
        return Err(BoundElsewhere);
      }
      if e.status != Pending {
        return Ok(None);
      }
      return Ok(Some(e.payload));
    }
    return Ok(Some(m));
  }

  /** What a post leaves: its message is the record's, and it is queued if and only if the record waits. */
  lemma PostQueuesWhatWaits(b: Book, o: Owner, m: Message)
    ensures var r, k := Posted(b, o, m), (Outbox, m.id);
            && (r.Ok? <==> m.id != "" && m.source != "" && Owns(b, o) && (k in b.entries ==> b.entries[k].payload == m))
            && (r.Ok? ==>
                  && k in r.value.0.entries && r.value.0.entries[k].payload == m
                  && (r.value.1 == Some(m) <==> r.value.0.entries[k].status == Pending)
                  && (r.value.1 == None <==> r.value.0.entries[k].status != Pending)
                  && (k in b.entries ==> r.value.0 == b)
                  && (k !in b.entries ==>
                       r.value.0.entries[k].status == Pending && r.value.0.entries - {k} == b.entries))
            && (r == Err(BoundElsewhere) ==> k in b.entries && b.entries[k].payload != m)
  {
  }

  /** A stable identifier is bound for good: a later post under it queues the same message or nothing. */
  lemma PostBindsTheIdentifier(b: Book, o: Owner, m: Message, later: Book, o': Owner, m': Message)
    requires Posted(b, o, m).Ok? && m'.id == m.id
    requires (Outbox, m.id) in later.entries && later.entries[(Outbox, m.id)].payload ==
             Posted(b, o, m).value.0.entries[(Outbox, m.id)].payload
    ensures Posted(later, o', m').Ok? ==> m' == m && Posted(later, o', m').value.0 == later
  {
  }
}
