/**
  The durable inbox and outbox. Work that a dead process left running or sending is reconciled by an operator,
  never replayed, and an owner whose epoch has passed can change nothing.
 */
module Journal {
  import opened Common
  import opened Text

  datatype Kind = Inbox | Outbox

  datatype Status =
    | Pending
    | Running | NeedsReconcile | Completed | Joined              // inbox; Joined is the source's "merged"
    | Sending | Unknown | Delivered | Dropped                    // outbox
    | Abandoned

  /** What is stored of an inbound event or an outbound message: its route and its text. */
  datatype Message = Message(id: string, source: string, text: string)

  datatype Note = Nothing | Reply(m: Message) | Receipt(id: string) | Failure

  datatype Action = Abandon | ConfirmDelivered(receipt: string) | ConfirmNotSent | RecoverResult | OtherAction(name: string)

  datatype Decision = Decision(actor: string, reason: string, evidence: string, action: Action)

  datatype Entry = Entry(status: Status, payload: Message, result: Note, epoch: nat, resolutions: seq<Decision>)

  type Key = (Kind, string)

  datatype Book = Book(epoch: nat, entries: map<Key, Entry>)

  datatype Owner = Owner(epoch: nat, closed: bool)

  datatype JournalError = NoIdentity | Fenced | Refused | NoOperator | AlreadyReplied

  // ---------------------------------------------------------------------------
  // The specification of each operation
  // ---------------------------------------------------------------------------

  function Orphaned(status: Status): Status {
    match status
    case Running => NeedsReconcile
    case Sending => Unknown
    case _ => status
  }

  function Reopened(e: Entry, epoch: nat): Entry { e.(status := Orphaned(e.status), epoch := epoch) }

  function Opened(b: Book): Book {
    Book(b.epoch + 1, map k | k in b.entries :: Reopened(b.entries[k], b.epoch + 1))
  }

  predicate Owns(b: Book, o: Owner) { !o.closed && o.epoch == b.epoch }

  function Fresh(b: Book, payload: Message): Entry { Entry(Pending, payload, Nothing, b.epoch, []) }

  function Put(b: Book, o: Owner, kind: Kind, id: string, payload: Message): Result<(Book, bool), JournalError> {
    if id == "" then Err(NoIdentity)
    else if !Owns(b, o) then Err(Fenced)
    else if (kind, id) in b.entries then Ok((b, false))
    else Ok((b.(entries := b.entries[(kind, id) := Fresh(b, payload)]), true))
  }

  function Move(b: Book, o: Owner, kind: Kind, id: string, from: Status, to: Status, note: Note)
    : Result<Book, JournalError>
  {
    if !Owns(b, o) then Err(Fenced)
    else if (kind, id) !in b.entries || b.entries[(kind, id)].status != from then Err(Refused)
    else Ok(b.(entries := b.entries[(kind, id) := b.entries[(kind, id)].(status := to, result := note)]))
  }

  /** The inbox record is settled and the reply published in one durable step. */
  function Complete(b: Book, o: Owner, id: string, message: Message): Result<Book, JournalError> {
    if !Owns(b, o) then Err(Fenced)
    else if (Inbox, id) !in b.entries || b.entries[(Inbox, id)].status != Running then Err(Refused)
    else
      var settled := b.entries[(Inbox, id)].(status := Completed, result := Reply(message));
      Ok(b.(entries := b.entries[(Inbox, id) := settled][(Outbox, id) := Fresh(b, message)]))
  }

  predicate Unresolved(b: Book, kind: Kind, id: string) {
    && (kind, id) in b.entries
    && b.entries[(kind, id)].status == (if kind == Outbox then Unknown else NeedsReconcile)
  }

  /** Only an unresolved outcome can be settled; only a confirmed non-delivery makes a message sendable again. */
  function Resolve(b: Book, o: Owner, kind: Kind, id: string, d: Decision, recovered: Option<Message>)
    : Result<Book, JournalError>
  {
    if Blank(d.actor) || Blank(d.reason) || Blank(d.evidence) then Err(NoOperator)
    else if !Owns(b, o) then Err(Fenced)
    else if !Unresolved(b, kind, id) then Err(Refused)
    else
      var e := b.entries[(kind, id)];
      var e' := e.(resolutions := e.resolutions + [d]);
      if d.action == Abandon then
        Ok(b.(entries := b.entries[(kind, id) := e'.(status := Abandoned)]))
      else if kind == Outbox && d.action.ConfirmDelivered? && !Blank(d.action.receipt) then
        Ok(b.(entries := b.entries[(kind, id) := e'.(status := Delivered, result := Receipt(d.action.receipt))]))
      else if kind == Outbox && d.action == ConfirmNotSent then
        Ok(b.(entries := b.entries[(kind, id) := e'.(status := Pending)]))
      else if kind == Inbox && d.action == RecoverResult && recovered.Some? then
        if (Outbox, id) in b.entries then Err(AlreadyReplied)
        else
          var settled := e'.(status := Completed, result := Reply(recovered.value));
          Ok(b.(entries := b.entries[(Outbox, id) := Fresh(b, recovered.value)][(kind, id) := settled]))
      else Err(Refused)
  }

  /** The operator's entry point: a recovered reply is routed by the durable inbound record alone. */
  function Reconcile(b: Book, o: Owner, kind: Kind, id: string, d: Decision, text: string): Result<Book, JournalError> {
    if d.action != RecoverResult then Resolve(b, o, kind, id, d, None)
    else if kind != Inbox || Blank(text) then Err(Refused)
    else if !Unresolved(b, Inbox, id) then Err(Refused)
    else Resolve(b, o, kind, id, d, Some(Message(id, b.entries[(Inbox, id)].payload.source, text)))
  }

  // ---------------------------------------------------------------------------
  // The owner object over the shared file
  // ---------------------------------------------------------------------------

  class JournalFile {
    var book: Book
    constructor ()
      ensures book == Book(0, map[])
    {
      book := Book(0, map[]);
    }
  }

  class JournalOwner {
    const file: JournalFile
    var epoch: nat
    var closed: bool

    function Me(): Owner
      reads this
    {
      Owner(epoch, closed)
    }

    /** Opening fences every earlier owner and hands what they left in the air to an operator. */
    constructor (file: JournalFile)
      modifies file
      ensures this.file == file && file.book == Opened(old(file.book))
      ensures Me() == Owner(file.book.epoch, false)
    {
      this.file := file;
      epoch := file.book.epoch + 1;
      closed := false;
      new;
      var entries := file.book.entries;
      var todo := entries.Keys;
      var next := file.book.epoch + 1;
      while todo != {}
        invariant todo <= entries.Keys == file.book.entries.Keys
        invariant forall k :: k in entries ==>
                    entries[k] == if k in todo then file.book.entries[k] else Reopened(file.book.entries[k], next)
        modifies {}
      {
        var k :| k in todo;
        var e := entries[k];
        if e.status == Running {
          e := e.(status := NeedsReconcile);
        } else if e.status == Sending {
          e := e.(status := Unknown);
        }
        entries := entries[k := e.(epoch := next)];
        todo := todo - {k};
      }
      assert entries == Opened(file.book).entries;
      file.book := Book(next, entries);
    }

    method PutRecord(kind: Kind, id: string, payload: Message) returns (r: Result<bool, JournalError>)
      modifies file
      ensures match Put(old(file.book), Me(), kind, id, payload)
              case Ok(done) => r == Ok(done.1) && file.book == done.0
              case Err(e) => r == Err(e) && file.book == old(file.book)
    {
      if id == "" {
        return Err(NoIdentity);
      }
      if closed || file.book.epoch != epoch {
        return Err(Fenced);
      }
      if (kind, id) in file.book.entries {
        return Ok(false);
      }
      var e := Entry(Pending, payload, Nothing, epoch, []);
      file.book := file.book.(entries := file.book.entries[(kind, id) := e]);
      return Ok(true);
    }

    method MoveRecord(kind: Kind, id: string, from: Status, to: Status, note: Note) returns (r: Result<(), JournalError>)
      modifies file
      ensures match Move(old(file.book), Me(), kind, id, from, to, note)
              case Ok(b) => r == Ok(()) && file.book == b
              case Err(e) => r == Err(e) && file.book == old(file.book)
    {
      if closed || file.book.epoch != epoch {
        return Err(Fenced);
      }
      if (kind, id) !in file.book.entries || file.book.entries[(kind, id)].status != from {
        return Err(Refused);
      }
      var e := file.book.entries[(kind, id)];
      file.book := file.book.(entries := file.book.entries[(kind, id) := e.(status := to, result := note)]);
      return Ok(());
    }

    method CompleteRecord(id: string, message: Message) returns (r: Result<(), JournalError>)
      modifies file
      ensures match Complete(old(file.book), Me(), id, message)
              case Ok(b) => r == Ok(()) && file.book == b
              case Err(e) => r == Err(e) && file.book == old(file.book)
    {
      if closed || file.book.epoch != epoch {
        return Err(Fenced);
      }
      if (Inbox, id) !in file.book.entries || file.book.entries[(Inbox, id)].status != Running {
        return Err(Refused);
      }
      var entries := file.book.entries;
      entries := entries[(Inbox, id) := entries[(Inbox, id)].(status := Completed, result := Reply(message))];
      entries := entries[(Outbox, id) := Entry(Pending, message, Nothing, epoch, [])];
      file.book := file.book.(entries := entries);
      return Ok(());
    }

    method ResolveRecord(kind: Kind, id: string, d: Decision, recovered: Option<Message>)
      returns (r: Result<(), JournalError>)
      modifies file
      ensures match Resolve(old(file.book), Me(), kind, id, d, recovered)
              case Ok(b) => r == Ok(()) && file.book == b
              case Err(e) => r == Err(e) && file.book == old(file.book)
    {
      hide Blank;
      if Blank(d.actor) || Blank(d.reason) || Blank(d.evidence) {
        return Err(NoOperator);
      }
      if closed || file.book.epoch != epoch {
        return Err(Fenced);
      }
      var k := (kind, id);
      if k !in file.book.entries {
        return Err(Refused);
      }
      var entries := file.book.entries;
      var e := entries[k];
      if !((kind == Outbox && e.status == Unknown) || (kind == Inbox && e.status == NeedsReconcile)) {
        return Err(Refused);
      }
      if d.action == Abandon {
        e := e.(status := Abandoned);
      } else if kind == Outbox && d.action.ConfirmDelivered? && !Blank(d.action.receipt) {
        e := e.(status := Delivered, result := Receipt(d.action.receipt));
      } else if kind == Outbox && d.action == ConfirmNotSent {
        e := e.(status := Pending);
      } else if kind == Inbox && d.action == RecoverResult && recovered.Some? {
        if (Outbox, id) in entries {
          return Err(AlreadyReplied);
        }
        e := e.(status := Completed, result := Reply(recovered.value));
        entries := entries[(Outbox, id) := Entry(Pending, recovered.value, Nothing, epoch, [])];
      } else {
        return Err(Refused);
      }
      e := e.(resolutions := e.resolutions + [d]);
      file.book := file.book.(entries := entries[k := e]);
      return Ok(());
    }

    method Close()
      modifies `closed
      ensures closed
    {
      closed := true;
    }
  }

  /** A closed owner, or one whose epoch has passed, is refused by every operation. */
  lemma FencedOwnerIsRefused(b: Book, o: Owner)
    requires !Owns(b, o)
    ensures forall kind, id, m :: Put(b, o, kind, id, m).Err?
    ensures forall kind, id, from, to, note :: Move(b, o, kind, id, from, to, note) == Err(Fenced)
    ensures forall id, reply :: Complete(b, o, id, reply) == Err(Fenced)
    ensures forall kind, id, d, text :: Reconcile(b, o, kind, id, d, text).Err?
  {
    hide Blank;
  }

  /** Opening fences everybody else: no owner of an earlier epoch owns the book again. */
  lemma OpeningFences(b: Book, o: Owner)
    requires o.epoch <= b.epoch
    ensures !Owns(Opened(b), o)
  {
  }
}
