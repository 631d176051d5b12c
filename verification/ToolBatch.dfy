/**
  A frozen batch of tool calls: durable continuation, durable session ledger and durable approvals, driven
  by one turn at a time and interrupted by crashes, failing writes and resumptions.
 */
module ToolBatch {
  import opened Common
  import opened Approvals

  /** Concurrency-safe reads are the built-in read tools and never need approval. */
  datatype Kind = SafeRead | Barrier | Risky

  datatype ToolCall = ToolCall(id: string, kind: Kind)

  /** A ledger message; tool results carry the call they answer. */
  datatype Message = Message(callId: string, content: string)

  type Ledger = seq<Message>

  datatype Batch = Batch(principal: string, session: string, turn: string, calls: seq<ToolCall>)
  {
    ghost predicate Valid() {
      forall i, j :: 0 <= i < j < |calls| ==> calls[i].id != calls[j].id
    }

    function Who(i: nat): Identity
      requires i < |calls|
    {
      Identity(principal, session, turn, calls[i].id)
    }
  }

  /** What one call of a running group came back with. */
  datatype Outcome = Text(content: string) | NeedsApproval(id: Identity) | OutcomeUnknown

  /**
    The continuation record. `oldLedger` stands for the digest of the session messages on disk when the
    record was written, `oldLength` for their number.
   */
  datatype Continuation =
    | Inactive
    | Active(next: nat, executing: bool, pending: Option<Identity>,
             oldLedger: Ledger, oldLength: nat, buffered: seq<Message>, bufferedNext: nat)

  /** Every save stamps the record with the ledger then on disk. */
  function Stamped(c: Continuation, disk: Ledger): (r: Continuation)
    requires c.Active?
    ensures r.Active?
  {
    c.(oldLedger := disk, oldLength := |disk|)
  }

  const GROUP_LIMIT := 4

  /** The end of the group that starts at `start`: up to four consecutive safe reads, or one call. */
  function GroupEnd(calls: seq<ToolCall>, start: nat): (end: nat)
    requires start < |calls|
    ensures start < end <= |calls| && end <= start + GROUP_LIMIT
    ensures calls[start].kind != SafeRead ==> end == start + 1
    ensures end > start + 1 ==> forall k :: start <= k < end ==> calls[k].kind == SafeRead
    ensures calls[start].kind == SafeRead ==>
              end == |calls| || end == start + GROUP_LIMIT || calls[end].kind != SafeRead
  {
    if calls[start].kind == SafeRead then ReadsFrom(calls, start, start + 1) else start + 1
  }

  function ReadsFrom(calls: seq<ToolCall>, start: nat, end: nat): (e: nat)
    requires start < end <= |calls| && end <= start + GROUP_LIMIT
    requires forall k :: start <= k < end ==> calls[k].kind == SafeRead
    ensures end <= e <= |calls| && e <= start + GROUP_LIMIT
    ensures forall k :: start <= k < e ==> calls[k].kind == SafeRead
    ensures e == |calls| || e == start + GROUP_LIMIT || calls[e].kind != SafeRead
    decreases |calls| - end
  {
    if end < |calls| && end - start < GROUP_LIMIT && calls[end].kind == SafeRead
    then ReadsFrom(calls, start, end + 1) else end
  }

  // ---------------------------------------------------------------------------
  // Recovery of journalled results
  // ---------------------------------------------------------------------------

  /** The journal names exactly the calls after `next`, in order. */
  ghost predicate ValidJournal(calls: seq<ToolCall>, c: Continuation) {
    && c.Active? && c.buffered != [] && c.bufferedNext == c.next + |c.buffered| <= |calls|
    && forall i :: 0 <= i < |c.buffered| ==> c.buffered[i].callId == calls[c.next + i].id
  }

  /** The ledger `recoverBufferedResults` leaves behind, or a refusal that changes nothing. */
  ghost function RecoveredLedger(calls: seq<ToolCall>, c: Continuation, disk: Ledger): Option<Ledger>
    requires c.Active?
  {
    if c.buffered == [] then
      if disk == c.oldLedger then Some(disk) else None
    else if !ValidJournal(calls, c) || c.oldLength > |disk| then None
    else if disk == c.oldLedger then Some(disk + c.buffered)
    else if |disk| == c.oldLength + |c.buffered| && disk[..c.oldLength] == c.oldLedger
            && disk[c.oldLength..] == c.buffered then Some(disk)
    else None
  }

  function Advanced(c: Continuation): (r: Continuation)
    requires c.Active?
    ensures r.Active?
  {
    if c.buffered == [] then c else c.(next := c.bufferedNext, executing := false, buffered := [])
  }

  /**
    Recovery is exact and refuses anything else: it accepts only the ledger as it was when the results were
    journalled, or that ledger followed by exactly those results, and from either it ends with the old
    ledger followed by the results once.
   */
  lemma RecoveryIsExact(calls: seq<ToolCall>, c: Continuation, disk: Ledger)
    requires ValidJournal(calls, c) && c.oldLength == |c.oldLedger|
    ensures RecoveredLedger(calls, c, disk).Some? <==> disk == c.oldLedger || disk == c.oldLedger + c.buffered
    ensures RecoveredLedger(calls, c, disk).Some? ==>
              RecoveredLedger(calls, c, disk).value == c.oldLedger + c.buffered
  {
    if |disk| == c.oldLength + |c.buffered| {
      assert disk == disk[..c.oldLength] + disk[c.oldLength..];
    }
    var both := c.oldLedger + c.buffered;
    assert both[..c.oldLength] == c.oldLedger && both[c.oldLength..] == c.buffered;
  }

  /** Interrupted after its session write, recovery run again changes the ledger no further. */
  lemma RecoveryIsIdempotent(calls: seq<ToolCall>, c: Continuation, disk: Ledger)
    requires ValidJournal(calls, c) && c.oldLength == |c.oldLedger|
    requires RecoveredLedger(calls, c, disk).Some?
    ensures RecoveredLedger(calls, c, RecoveredLedger(calls, c, disk).value) == RecoveredLedger(calls, c, disk)
  {
    RecoveryIsExact(calls, c, disk);
    RecoveryIsExact(calls, c, c.oldLedger + c.buffered);
  }

  // ---------------------------------------------------------------------------
  // The agent's own operations, outside failures
  // ---------------------------------------------------------------------------

  /** Tool messages in call order, one for each result. */
  function ResultMessages(calls: seq<ToolCall>, results: seq<string>): (ms: seq<Message>)
    requires |results| <= |calls|
    ensures |ms| == |results|
    ensures forall i :: 0 <= i < |ms| ==> ms[i] == Message(calls[i].id, results[i])
  {
    seq(|results|, i requires 0 <= i < |results| => Message(calls[i].id, results[i]))
  }

  /** How many of a batch's calls come back with an ordinary result before the first that does not. */
  function Leading(outcomes: seq<Outcome>): (n: nat)
    ensures n <= |outcomes|
    ensures forall i :: 0 <= i < n ==> outcomes[i].Text?
    ensures n < |outcomes| ==> !outcomes[n].Text?
  {
    if outcomes == [] || !outcomes[0].Text? then 0 else 1 + Leading(outcomes[1..])
  }

  function Texts(outcomes: seq<Outcome>): (ts: seq<string>)
    ensures |ts| == Leading(outcomes) && forall i :: 0 <= i < |ts| ==> outcomes[i] == Text(ts[i])
  {
    seq(Leading(outcomes), i requires 0 <= i < Leading(outcomes) => outcomes[i].content)
  }

  /** The start of the group that call `k` runs in, when groups are formed from `from` on. */
  function GroupOf(calls: seq<ToolCall>, from: nat, k: nat): (g: nat)
    requires from <= k < |calls|
    ensures from <= g <= k < GroupEnd(calls, g)
    decreases |calls| - from
  {
    if k < GroupEnd(calls, from) then from else GroupOf(calls, GroupEnd(calls, from), k)
  }

  /** The messages on disk, with the fence that says which write they are. */
  datatype Session = Session(epoch: nat, revision: nat, messages: Ledger)

  /** A save by the owner of the content it replaces. */
  function Saved(d: Session, messages: Ledger): Session {
    Session(if d.epoch == 0 then 1 else d.epoch, d.revision + 1, messages)
  }

  /** A batch between two groups, not yet stamped with its ledger. */
  function AtGroup(start: nat): Continuation { Active(start, false, None, [], 0, [], start) }

  /**
    A batch whose group at `start` holds a call without a result: it waits for that call's approval, or stays marked
    as executing when what became of the call is unknown.
   */
  predicate StandsAt(c: Continuation, start: nat, o: Outcome, disk: Ledger) {
    && c.Active? && c.next == start && c.buffered == [] && c.bufferedNext == start
    && c.oldLedger == disk && c.oldLength == |disk|
    && (o.NeedsApproval? ==> !c.executing && c.pending == Some(o.id))
    && (o.OutcomeUnknown? ==> c.executing && c.pending == None)
  }

  /**
    What a batch leaves behind: the results of whole groups are in the ledger, and the continuation is gone, or
    stands at the group whose call has no result. The results that preceded that call stay in memory only.
   */
  ghost predicate Settled(calls: seq<ToolCall>, outcomes: seq<Outcome>, base: Ledger, ok: bool,
                          continuation: Continuation, disk: Ledger, memory: Ledger)
    requires |outcomes| == |calls|
  {
    var n, ms := Leading(outcomes), ResultMessages(calls, Texts(outcomes));
    && memory == base + ms
    && (ok <==> n == |calls|)
    && if ok then continuation == Inactive && disk == memory
       else
         var g := GroupOf(calls, 0, n);
         disk == base + ms[..g] && StandsAt(continuation, g, outcomes[n], disk)
  }

  /** Where the group of a call starts: a call that is no safe read is a group of its own. */
  lemma {:induction false} OthersStandAlone(calls: seq<ToolCall>, from: nat, k: nat)
    requires from <= k < |calls| && calls[k].kind != SafeRead
    ensures GroupOf(calls, from, k) == k
    decreases |calls| - from
  {
    if GroupEnd(calls, from) <= k {
      OthersStandAlone(calls, GroupEnd(calls, from), k);
    }
  }

  /** A run of safe reads, from its first call `first` on, is cut into groups of four; `n` of them come before. */
  lemma {:induction false} ReadsAreCutByFour(calls: seq<ToolCall>, from: nat, first: nat, k: nat, m: nat)
    returns (n: nat)
    requires from <= k < |calls| && first <= k
    requires first == 0 || calls[first - 1].kind != SafeRead
    requires forall j :: first <= j <= k ==> calls[j].kind == SafeRead
    requires from <= first || from == first + 4 * m
    ensures GroupOf(calls, from, k) == first + 4 * n <= k < first + 4 * n + 4
    decreases |calls| - from
  {
    hide ReadsFrom;
    var end := GroupEnd(calls, from);
    if from < first {
      GroupsStopAtOthers(calls, from, first);
      n := ReadsAreCutByFour(calls, end, first, k, 0);
    } else {
      n := if from == first then 0 else m;
      if end <= k {
        assert calls[from].kind == SafeRead && calls[end].kind == SafeRead;
        n := ReadsAreCutByFour(calls, end, first, k, n + 1);
      }
    }
  }

  lemma GroupsStopAtOthers(calls: seq<ToolCall>, from: nat, first: nat)
    requires from < first < |calls| && calls[first - 1].kind != SafeRead
    ensures GroupEnd(calls, from) <= first
  {
    hide ReadsFrom;
  }

  lemma Joined(base: Ledger, ms: seq<Message>, i: nat, k: nat)
    requires i <= k <= |ms|
    ensures base + ms[..i] + ms[i..k] == base + ms[..k]
    ensures k == |ms| ==> ms[..k] == ms
  {
    assert ms[..i] + ms[i..k] == ms[..k];
  }

  lemma GroupOfNext(calls: seq<ToolCall>, outcomes: seq<Outcome>, start: nat)
    requires |outcomes| == |calls| && start <= Leading(outcomes) && start < |calls|
    ensures var n, end := Leading(outcomes), GroupEnd(calls, start);
            n < |calls| ==> GroupOf(calls, start, n) == if n < end then start else GroupOf(calls, end, n)
  {
    hide Leading, GroupEnd;
  }

  lemma AtTheStop(calls: seq<ToolCall>, outcomes: seq<Outcome>, base: Ledger, c: Continuation, disk: Ledger,
                  memory: Ledger)
    requires |outcomes| == |calls| && Leading(outcomes) < |calls|
    requires var n, ms := Leading(outcomes), ResultMessages(calls, Texts(outcomes));
             var g := GroupOf(calls, 0, n);
             memory == base + ms && disk == base + ms[..g] && StandsAt(c, g, outcomes[n], disk)
    ensures Settled(calls, outcomes, base, false, c, disk, memory)
  {
    hide Leading, Texts, ResultMessages, GroupOf;
  }

  lemma AtTheEnd(calls: seq<ToolCall>, outcomes: seq<Outcome>, base: Ledger, memory: Ledger)
    requires |outcomes| == |calls| == Leading(outcomes) && memory == base + ResultMessages(calls, Texts(outcomes))
    ensures Settled(calls, outcomes, base, true, Inactive, memory, memory)
  {
    hide Leading, Texts, ResultMessages;
  }

  /**
    `seen` is the fence of the session this process holds: it may write only while that is the one on disk. Its
    messages may have grown since.
   */
  class BatchAgent {
    var continuation: Continuation
    var disk: Session
    var seen: Session
    var memory: Ledger

    constructor (disk: Session)
      ensures continuation == Inactive && this.disk == seen == disk && memory == disk.messages
    {
      continuation, this.disk, seen, memory := Inactive, disk, disk, disk.messages;
    }

    /** Records the batch position together with the ledger it was taken against, unless the session has moved on. */
    method SaveContinuation(c: Continuation) returns (ok: bool)
      requires c.Active?
      modifies this`continuation
      ensures ok <==> seen == disk
      ensures continuation == if ok then Stamped(c, disk.messages) else old(continuation)
      ensures ok ==> continuation == c.(oldLedger := disk.messages, oldLength := |disk.messages|)
    {
      if disk.epoch != seen.epoch || disk.revision != seen.revision || disk.messages != seen.messages {
        return false;
      }
      continuation := Stamped(c, disk.messages);
      return true;
    }

    method SaveSession() returns (ok: bool)
      modifies `disk, `seen
      ensures ok <==> old(seen == disk)
      ensures if ok then disk == seen == Saved(old(disk), memory) else disk == old(disk) && seen == old(seen)
      ensures ok ==> disk.messages == memory && disk.revision == old(disk.revision) + 1
                     && disk.epoch == (if old(disk.epoch) == 0 then 1 else old(disk.epoch))
    {
      if disk != seen {
        return false;
      }
      disk := Saved(disk, memory);
      seen := disk;
      return true;
    }

    /**
      Checks the journal against the calls one message at a time, then redoes what is missing. A session that has
      moved on is never written: only the memory is then what the journal asks for.
     */
    method RecoverBufferedResults(calls: seq<ToolCall>) returns (ok: bool)
      requires continuation.Active?
      modifies this
      ensures var c, before := old(continuation), old(disk.messages);
              var redo := RecoveredLedger(calls, c, before);
              && (ok <==> redo.Some? && (c.buffered == [] || old(seen == disk)))
              && (memory == if redo.Some? && c.buffered != [] then redo.value else old(memory))
              && (continuation == if ok && c.buffered != [] then Stamped(Advanced(c), disk.messages) else c)
              && (if ok && redo.value != before then disk == seen == Saved(old(disk), redo.value)
                  else disk == old(disk) && seen == old(seen))
      ensures ok && old(continuation.buffered) != [] ==>
                && ValidJournal(calls, old(continuation))
                && continuation == Active(old(continuation.bufferedNext), false, old(continuation.pending),
                                          disk.messages, |disk.messages|, [], old(continuation.bufferedNext))
    {
      var c := continuation;
      if c.buffered == [] {
        return disk.messages == c.oldLedger;
      }
      if c.bufferedNext != c.next + |c.buffered| || c.bufferedNext > |calls| || c.oldLength > |disk.messages| {
        return false;
      }
      for i := 0 to |c.buffered|
        invariant forall k :: 0 <= k < i ==> c.buffered[k].callId == calls[c.next + k].id
      {
        if c.buffered[i].callId != calls[c.next + i].id {
          return false;
        }
      }
      var unwritten := disk.messages == c.oldLedger;
      if !unwritten {
        if |disk.messages| != c.oldLength + |c.buffered| || disk.messages[..c.oldLength] != c.oldLedger
           || disk.messages[c.oldLength..] != c.buffered {
          return false;
        }
      }
      memory := disk.messages;
      if unwritten {
        memory := memory + c.buffered;
        var saved := SaveSession();
        if !saved {
          return false;
        }
      }
      c := c.(next := c.bufferedNext, executing := false, buffered := []);
      ok := SaveContinuation(c);
    }

    /**
      The batch loop when no write fails: group after group is executed, journalled, saved and passed, until a call
      waits for its approval or has an unknown outcome. `outcomes` are what the calls come back with. A process
      whose session is not the one on disk gets no further than its first save.
     */
    method ExecuteToolBatch(calls: seq<ToolCall>, outcomes: seq<Outcome>) returns (ok: bool)
      requires |outcomes| == |calls| && memory == seen.messages
      modifies this
      ensures if old(seen == disk)
              then Settled(calls, outcomes, old(memory), ok, continuation, disk.messages, memory) && seen == disk
              else !ok && continuation == old(continuation) && disk == old(disk) && seen == old(seen)
                   && memory == old(memory)
    {
      hide Leading, Texts, ResultMessages, GroupEnd, GroupOf, ReadsFrom, Settled, Saved;
      ghost var base, ms, n := memory, ResultMessages(calls, Texts(outcomes)), Leading(outcomes);
      var c := AtGroup(0);
      ok := SaveContinuation(c);
      if !ok {
        return;
      }
      while c.next < |calls|
        invariant c.Active? && c.next <= n && c == AtGroup(c.next)
        invariant seen == disk && disk.messages == memory == base + ms[..c.next]
        invariant n < |calls| ==> GroupOf(calls, 0, n) == GroupOf(calls, c.next, n)
        decreases |calls| - c.next
      {
        GroupOfNext(calls, outcomes, c.next);
        ok, c := RunGroup(calls, outcomes, c.next, base);
        if !ok {
          AtTheStop(calls, outcomes, base, continuation, disk.messages, memory);
          return;
        }
      }
      assert ms[..n] == ms;
      continuation := Inactive;
      AtTheEnd(calls, outcomes, base, memory);
      return true;
    }

    /** One group: saved as executing, run, and either committed or left at the call that has no result. */
    method RunGroup(calls: seq<ToolCall>, outcomes: seq<Outcome>, start: nat, ghost base: Ledger)
      returns (ok: bool, c: Continuation)
      requires |outcomes| == |calls| && start < |calls| && start <= Leading(outcomes)
      requires seen == disk && disk.messages == memory == base + ResultMessages(calls, Texts(outcomes))[..start]
      modifies this
      ensures seen == disk
      ensures var n, end, ms := Leading(outcomes), GroupEnd(calls, start), ResultMessages(calls, Texts(outcomes));
              && (ok <==> end <= n)
              && (ok ==> c == AtGroup(end) && disk.messages == memory == base + ms[..end])
              && (!ok ==> disk == old(disk) && memory == base + ms
                          && StandsAt(continuation, start, outcomes[n], disk.messages))
    {
      hide Leading, Texts, ResultMessages, GroupEnd, StandsAt, Saved;
      ghost var n, ms := Leading(outcomes), ResultMessages(calls, Texts(outcomes));
      var end := FindGroupEnd(calls, start);
      c := Active(start, true, None, [], 0, [], start);
      ok := SaveContinuation(c);
      var ledgerStart := |memory|;
      var accepted := AcceptResults(calls, outcomes, start, end);
      Joined(base, ms, start, accepted);
      if accepted < end {
        LeaveAtCall(c, outcomes[accepted]);
        return false, c;
      }
      c := CommitGroup(c, ledgerStart, end);
      return true, c;
    }

    /** A group stops at a call without a result: one that waits for its approval is named in the continuation. */
    method LeaveAtCall(c: Continuation, o: Outcome)
      requires c.Active? && c.executing && c.pending.None? && c.buffered == [] && c.bufferedNext == c.next
      requires seen == disk && continuation == Stamped(c, disk.messages) && !o.Text?
      modifies this`continuation
      ensures StandsAt(continuation, c.next, o, disk.messages)
    {
      if o.NeedsApproval? {
        var _ := SaveContinuation(c.(executing := false, pending := Some(o.id)));
      }
    }

    /** Journals the results of a group, saves the session with them, and passes the group. */
    method CommitGroup(c: Continuation, ledgerStart: nat, end: nat) returns (passed: Continuation)
      requires c.Active? && seen == disk && ledgerStart <= |memory|
      modifies `continuation, `disk, `seen
      ensures passed == c.(next := end, executing := false, buffered := [], bufferedNext := end)
      ensures seen == disk == Saved(old(disk), memory) && disk.messages == memory
      ensures continuation == Stamped(passed, memory)
    {
      var journal := c.(buffered := memory[ledgerStart..], bufferedNext := end);
      var journalled := SaveContinuation(journal);
      var saved := SaveSession();
      passed := journal.(next := end, executing := false, buffered := []);
      var advanced := SaveContinuation(passed);
    }

    /** Takes the results of a group into memory, up to the first call that has none. */
    method AcceptResults(calls: seq<ToolCall>, outcomes: seq<Outcome>, start: nat, end: nat) returns (i: nat)
      requires start <= end <= |outcomes| == |calls| && start <= Leading(outcomes)
      modifies this`memory
      ensures start <= i <= end && i <= Leading(outcomes) && (i < end ==> i == Leading(outcomes))
      ensures memory == old(memory) + ResultMessages(calls, Texts(outcomes))[start..i]
    {
      ghost var ms := ResultMessages(calls, Texts(outcomes));
      i := start;
      while i < end
        invariant start <= i <= end && i <= Leading(outcomes)
        invariant memory == old(memory) + ms[start..i]
      {
        if !outcomes[i].Text? {
          return;
        }
        assert i < Leading(outcomes);
        assert ms[start..i + 1] == ms[start..i] + [ms[i]];
        memory := memory + [Message(calls[i].id, outcomes[i].content)];
        i := i + 1;
      }
    }
  }

  method FindGroupEnd(calls: seq<ToolCall>, start: nat) returns (end: nat)
    requires start < |calls|
    ensures start < end <= |calls| && end == GroupEnd(calls, start)
  {
    end := start + 1;
    if calls[start].kind == SafeRead {
      while end < |calls| && end - start < GROUP_LIMIT && calls[end].kind == SafeRead
        invariant start < end <= |calls| && end <= start + GROUP_LIMIT
        invariant forall k :: start <= k < end ==> calls[k].kind == SafeRead
        invariant GroupEnd(calls, start) == ReadsFrom(calls, start, end)
        decreases |calls| - end
      {
        end := end + 1;
      }
    }
  }
}
