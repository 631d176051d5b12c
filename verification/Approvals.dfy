/**
  The durable approval book: one record per (principal, session, turn, call). Digests are modelled as the
  actions they hash, and claim tokens as values nobody used before.
 */
module Approvals {
  import opened Common

  datatype Identity = Identity(principal: string, session: string, turn: string, callId: string)

  datatype Action = Action(who: Identity, tool: string, args: string, definition: string, preconditions: string)

  datatype Status = Pending | Approved | Denied | Expired | Claimed | Completed | Failed | Unknown

  datatype Record = Record(action: Action, status: Status, expires: int, token: string, receipt: string)

  type Book = map<Identity, Record>

  datatype ApprovalError = WrongState | WrongIdentity | ActionChanged | IsExpired | Incomplete

  const DEFAULT_TTL := 600

  predicate Complete(a: Action) {
    a.who.principal != "" && a.who.session != "" && a.who.turn != "" && a.who.callId != "" && a.tool != ""
  }

  predicate IsOutcome(s: Status) { s.Completed? || s.Failed? || s.Unknown? }

  /** No further operation changes a record in one of these states. */
  predicate Final(s: Status) { s.Denied? || s.Expired? || IsOutcome(s) }

  // ---------------------------------------------------------------------------
  // The specification of each update: the next book and what the caller is told
  // ---------------------------------------------------------------------------

  function Create(b: Book, a: Action, ttl: int, now: int): (Book, Result<Record, ApprovalError>) {
    if !Complete(a) then (b, Err(Incomplete))
    else if a.who in b then (b, if b[a.who].action == a then Ok(b[a.who]) else Err(ActionChanged))
    else
      var r := Record(a, Pending, now + (if ttl <= 0 then DEFAULT_TTL else ttl), "", "");
      (b[a.who := r], Ok(r))
  }

  function Decide(b: Book, id: Identity, principal: string, allow: bool, now: int)
    : (Book, Result<Record, ApprovalError>)
  {
    var wanted := if allow then Approved else Denied;
    if id !in b then (b, Err(WrongState))
    else if b[id].action.who.principal != principal then (b, Err(WrongIdentity))
    else if b[id].status == Pending && b[id].expires <= now then (b[id := b[id].(status := Expired)], Err(IsExpired))
    else if b[id].status == wanted then (b, Ok(b[id]))
    else if b[id].status == Pending || (b[id].status == Approved && !allow) then
      (b[id := b[id].(status := wanted)], Ok(b[id].(status := wanted)))
    else (b, Err(WrongState))
  }

  function Claim(b: Book, id: Identity, principal: string, current: Action, now: int, token: string)
    : (Book, Result<Record, ApprovalError>)
  {
    if id !in b then (b, Err(WrongState))
    else if b[id].action.who.principal != principal || current.who.principal != principal then (b, Err(WrongIdentity))
    else if b[id].action != current then (b, Err(ActionChanged))
    else if b[id].status != Approved then (b, Err(WrongState))
    else if b[id].expires <= now then (b[id := b[id].(status := Expired)], Err(IsExpired))
    else
      var r := b[id].(status := Claimed, token := token);
      (b[id := r], Ok(r))
  }

  function Finish(b: Book, id: Identity, token: string, outcome: Status, receipt: string)
    : (Book, Result<(), ApprovalError>)
    requires IsOutcome(outcome)
  {
    if id !in b then (b, Err(WrongState))
    else if token == "" || b[id].token != token then (b, Err(WrongIdentity))
    else if b[id].status == outcome && b[id].receipt == receipt then (b, Ok(()))
    else if b[id].status != Claimed then (b, Err(WrongState))
    else (b[id := b[id].(status := outcome, receipt := receipt)], Ok(()))
  }

  // ---------------------------------------------------------------------------
  // The store object
  // ---------------------------------------------------------------------------

  class ApprovalStore {
    var records: Book

    constructor ()
      ensures records == map[]
    {
      records := map[];
    }

    method TryCreate(a: Action, ttl: int, now: int) returns (r: Result<Record, ApprovalError>)
      modifies this
      ensures (records, r) == Create(old(records), a, ttl, now)
      ensures r.Ok? <==> Complete(a) && (a.who in old(records) ==> old(records)[a.who].action == a)
      ensures r.Ok? ==> a.who in records && records[a.who] == r.value && r.value.action == a
      ensures r.Ok? && a.who !in old(records) ==>
                r.value.status == Pending && r.value.expires == now + if ttl <= 0 then DEFAULT_TTL else ttl
      ensures forall k :: k in old(records) ==> k in records && records[k] == old(records)[k]
    {
      if a.who.principal == "" || a.who.session == "" || a.who.turn == "" || a.who.callId == "" || a.tool == "" {
        return Err(Incomplete);
      }
      var lifetime := ttl;
      if lifetime <= 0 {
        lifetime := DEFAULT_TTL;
      }
      if a.who in records {
        var old' := records[a.who];
        if old'.action != a {
          return Err(ActionChanged);
        }
        return Ok(old');
      }
      var fresh' := Record(a, Pending, now + lifetime, "", "");
      records := records[a.who := fresh'];
      return Ok(fresh');
    }

    method TryDecide(id: Identity, principal: string, allow: bool, now: int) returns (r: Result<Record, ApprovalError>)
      modifies this
      ensures (records, r) == Decide(old(records), id, principal, allow, now)
      ensures r.Ok? ==> id in records && records[id] == r.value && r.value.status == if allow then Approved else Denied
      ensures id in old(records) && old(records)[id].action.who.principal == principal ==>
                (r == Err(IsExpired) <==> old(records)[id].status == Pending && old(records)[id].expires <= now)
      ensures r == Err(IsExpired) ==> records[id].status == Expired
      ensures r.Err? && r.error != IsExpired ==> records == old(records)
      ensures forall k :: k != id && k in old(records) ==> k in records && records[k] == old(records)[k]
    {
      if id !in records {
        return Err(WrongState);
      }
      var rec := records[id];
      if rec.action.who.principal != principal {
        return Err(WrongIdentity);
      }
      if rec.status == Pending && now >= rec.expires {
        records := records[id := rec.(status := Expired)];
        return Err(IsExpired);
      }
      var wanted := Denied;
      if allow {
        wanted := Approved;
      }
      if rec.status == wanted {
        return Ok(rec);
      }
      if rec.status != Pending && !(rec.status == Approved && !allow) {
        return Err(WrongState);
      }
      rec := rec.(status := wanted);
      records := records[id := rec];
      return Ok(rec);
    }

    method TryClaim(id: Identity, principal: string, current: Action, now: int, token: string)
      returns (r: Result<Record, ApprovalError>)
      modifies this
      ensures (records, r) == Claim(old(records), id, principal, current, now, token)
      ensures r.Ok? ==> id in old(records) && old(records)[id].status == Approved && now < old(records)[id].expires
      ensures r.Ok? ==> id in records && records[id] == r.value == old(records)[id].(status := Claimed, token := token)
      ensures r == Err(IsExpired) ==> id in records && records[id].status == Expired && old(records)[id].expires <= now
      ensures r.Err? && r.error != IsExpired ==> records == old(records)
      ensures forall k :: k != id && k in old(records) ==> k in records && records[k] == old(records)[k]
    {
      if id !in records {
        return Err(WrongState);
      }
      var rec := records[id];
      if rec.action.who.principal != principal || current.who.principal != principal {
        return Err(WrongIdentity);
      }
      if rec.action != current {
        return Err(ActionChanged);
      }
      if rec.status != Approved {
        return Err(WrongState);
      }
      if now >= rec.expires {
        records := records[id := rec.(status := Expired)];
        return Err(IsExpired);
      }
      rec := rec.(status := Claimed, token := token);
      records := records[id := rec];
      return Ok(rec);
    }

    method TryFinish(id: Identity, token: string, outcome: Status, receipt: string)
      returns (r: Result<(), ApprovalError>)
      requires IsOutcome(outcome)
      modifies this
      ensures (records, r) == Finish(old(records), id, token, outcome, receipt)
      ensures r.Ok? ==> id in records && records[id].status == outcome && records[id].receipt == receipt
                        && token != "" && records[id].token == token
      ensures r.Err? ==> records == old(records)
      ensures forall k :: k != id && k in old(records) ==> k in records && records[k] == old(records)[k]
    {
      if id !in records {
        return Err(WrongState);
      }
      var rec := records[id];
      if token == "" || rec.token != token {
        return Err(WrongIdentity);
      }
      if rec.status == outcome && rec.receipt == receipt {
        return Ok(());
      }
      if rec.status != Claimed {
        return Err(WrongState);
      }
      records := records[id := rec.(status := outcome, receipt := receipt)];
      return Ok(());
    }
  }

  // ---------------------------------------------------------------------------
  // Every run of the book
  // ---------------------------------------------------------------------------

  datatype Op =
    | OpCreate(action: Action, ttl: int)
    | OpDecide(id: Identity, principal: string, allow: bool)
    | OpClaim(id: Identity, principal: string, current: Action, token: string)
    | OpFinish(id: Identity, token: string, outcome: Status, receipt: string)

  /** An operation at some clock reading; a lost one never reached the file. */
  datatype Step = Step(op: Op, now: int, lost: bool)

  /** `claims` lists, oldest first, every claim that took effect. */
  datatype Won = Won(id: Identity, action: Action, token: string)

  datatype History = History(book: Book, claims: seq<Won>)

  function Perform(h: History, s: Step): History {
    if s.lost then h
    else match s.op
      case OpCreate(a, ttl) => h.(book := Create(h.book, a, ttl, s.now).0)
      case OpDecide(id, principal, allow) => h.(book := Decide(h.book, id, principal, allow, s.now).0)
      case OpClaim(id, principal, current, token) =>
        var (b, r) := Claim(h.book, id, principal, current, s.now, token);
        History(b, if r.Ok? then h.claims + [Won(id, current, token)] else h.claims)
      case OpFinish(id, token, outcome, receipt) =>
        if IsOutcome(outcome) then h.(book := Finish(h.book, id, token, outcome, receipt).0) else h
  }

  function Replay(steps: seq<Step>): History {
    if steps == [] then History(map[], []) else Perform(Replay(steps[..|steps| - 1]), steps[|steps| - 1])
  }

  /** How one record may change: the action is frozen, a claim is one-way, a final record never changes. */
  ghost predicate Advances(r: Record, r': Record) {
    && r'.action == r.action && r'.expires == r.expires
    && (r'.status == r.status ==> r' == r)
    && match r.status
       case Pending => r'.status in {Pending, Approved, Denied, Expired}
       case Approved => r'.status in {Approved, Denied, Expired, Claimed}
       case Claimed => r'.status == Claimed || (IsOutcome(r'.status) && r'.token == r.token)
       case _ => r' == r
  }

  ghost predicate BookAdvances(b: Book, b': Book) {
    forall id :: id in b ==> id in b' && Advances(b[id], b'[id])
  }

  lemma PerformAdvances(h: History, s: Step)
    ensures BookAdvances(h.book, Perform(h, s).book)
  {}

  /** The claims on an identity's behalf that took effect, and what its record then says. */
  ghost predicate ClaimInv(h: History) {
    && (forall id :: id in h.book ==> h.book[id].action.who == id)
    && (forall k :: 0 <= k < |h.claims| ==>
          var w := h.claims[k];
          && w.id in h.book && h.book[w.id].action == w.action && h.book[w.id].token == w.token
          && WasClaimed(h.book[w.id].status))
    && (forall j, k :: 0 <= j < k < |h.claims| ==> h.claims[j].id != h.claims[k].id)
    && (forall id :: id in h.book && WasClaimed(h.book[id].status) ==>
          exists k :: 0 <= k < |h.claims| && h.claims[k].id == id)
  }

  predicate WasClaimed(s: Status) { s.Claimed? || s.Completed? || s.Failed? || s.Unknown? }

  /** A step that wins no claim: old records only advance, and no record starts to look claimed. */
  lemma QuietStep(h: History, s: Step)
    requires ClaimInv(h) && Perform(h, s).claims == h.claims
    ensures ClaimInv(Perform(h, s))
  {
    hide Create, Decide, Finish, Claim, Advances, BookAdvances, Perform;
    var h' := Perform(h, s);
    NothingNewlyClaimed(h, s);
    forall k | 0 <= k < |h.claims|
      ensures var w := h.claims[k];
              && w.id in h'.book && h'.book[w.id].action == w.action && h'.book[w.id].token == w.token
              && WasClaimed(h'.book[w.id].status)
    {
      ClaimedRecordStays(h, s, h.claims[k].id);
    }
  }

  lemma NothingNewlyClaimed(h: History, s: Step)
    requires Perform(h, s).claims == h.claims && forall id :: id in h.book ==> h.book[id].action.who == id
    ensures var b := Perform(h, s).book;
            forall id :: id in b ==>
              && b[id].action.who == id
              && (WasClaimed(b[id].status) ==> id in h.book && WasClaimed(h.book[id].status))
  {
    hide Create, Decide, Claim, Finish, WasClaimed, IsOutcome;
    var b := Perform(h, s).book;
    forall id | id in b
      ensures b[id].action.who == id && (WasClaimed(b[id].status) ==> id in h.book && WasClaimed(h.book[id].status))
    {
      NotYetClaimed(b[id].status);
      match s.op
      case OpCreate(a, ttl) => CreateExplains(h.book, a, ttl, s.now, id);
      case OpDecide(d, principal, allow) =>
        DecideExplains(h.book, d, principal, allow, s.now, id);
        DecidingClaimsNothing(h.book, d, principal, allow, s.now, id);
      case OpClaim(c, principal, current, token) =>
        ClaimExplains(h.book, c, principal, current, s.now, token, id);
        if !s.lost {
          RefusedClaimClaimsNothing(h.book, c, principal, current, s.now, token, id);
        }
      case OpFinish(f, token, o, receipt) =>
        if IsOutcome(o) {
          FinishExplains(h.book, f, token, o, receipt, id);
          FinishingClaimsNothing(h.book, f, token, o, receipt, id);
        }
    }
  }

  lemma DecidingClaimsNothing(b: Book, d: Identity, principal: string, allow: bool, now: int, id: Identity)
    requires id in b
    ensures WasClaimed(Decide(b, d, principal, allow, now).0[id].status) ==> WasClaimed(b[id].status)
  {}

  lemma RefusedClaimClaimsNothing(b: Book, c: Identity, principal: string, current: Action, now: int, token: string,
                                  id: Identity)
    requires id in b && Claim(b, c, principal, current, now, token).1.Err?
    ensures WasClaimed(Claim(b, c, principal, current, now, token).0[id].status) ==> WasClaimed(b[id].status)
  {}

  lemma FinishingClaimsNothing(b: Book, f: Identity, token: string, o: Status, receipt: string, id: Identity)
    requires IsOutcome(o) && id in b
    ensures WasClaimed(Finish(b, f, token, o, receipt).0[id].status) ==> WasClaimed(b[id].status)
  {}

  lemma ClaimedRecordStays(h: History, s: Step, id: Identity)
    requires id in h.book && WasClaimed(h.book[id].status)
    ensures var b := Perform(h, s).book;
            id in b && WasClaimed(b[id].status) && b[id].action == h.book[id].action && b[id].token == h.book[id].token
  {}

  lemma WinningStep(h: History, s: Step)
    requires ClaimInv(h) && Perform(h, s).claims != h.claims
    ensures ClaimInv(Perform(h, s))
  {
    var h' := Perform(h, s);
    hide Create, Decide, Finish;
    var won := Won(s.op.id, s.op.current, s.op.token);
    assert h'.claims == h.claims + [won] && h.book[won.id].status == Approved;
    assert h'.claims[|h.claims|] == won;
    forall id | id in h'.book && WasClaimed(h'.book[id].status)
      ensures exists k :: 0 <= k < |h'.claims| && h'.claims[k].id == id
    {
      if id != won.id {
        var k :| 0 <= k < |h.claims| && h.claims[k].id == id;
        assert h'.claims[k].id == id;
      }
    }
  }

  lemma PerformKeepsClaimInv(h: History, s: Step)
    requires ClaimInv(h)
    ensures ClaimInv(Perform(h, s))
  {
    if Perform(h, s).claims == h.claims {
      QuietStep(h, s);
    } else {
      WinningStep(h, s);
    }
  }

  lemma {:induction false} ReachableClaims(steps: seq<Step>)
    ensures ClaimInv(Replay(steps))
  {
    if steps != [] {
      ReachableClaims(steps[..|steps| - 1]);
      PerformKeepsClaimInv(Replay(steps[..|steps| - 1]), steps[|steps| - 1]);
    }
  }

  /**
    Over every run, an identity is claimed at most once, and only with exactly the action that was frozen
    when its record was created; a record that says claimed, completed, failed or unknown was claimed.
   */
  lemma ClaimedAtMostOnce(steps: seq<Step>, j: nat, k: nat)
    requires j < |Replay(steps).claims| && k < |Replay(steps).claims|
    requires Replay(steps).claims[j].id == Replay(steps).claims[k].id
    ensures j == k
    ensures var h := Replay(steps);
            var w := h.claims[j];
            w.id in h.book && h.book[w.id].action == w.action && w.action.who == w.id
  {
    ReachableClaims(steps);
  }

  ghost predicate SinceThen(r: Record, r': Record) {
    && r'.action == r.action && r'.expires == r.expires
    && (Final(r.status) ==> r' == r)
    && (r.status == Claimed ==> (r' == r || IsOutcome(r'.status)) && r'.token == r.token)
    && (r.status == Approved ==> r'.status != Pending)
  }

  /** A frozen action never changes, a claim is never undone and a final record stays as it is, for good. */
  lemma {:induction false} RecordsOnlyAdvance(steps: seq<Step>, more: seq<Step>, id: Identity)
    requires id in Replay(steps).book
    ensures id in Replay(steps + more).book
    ensures SinceThen(Replay(steps).book[id], Replay(steps + more).book[id])
    decreases |more|
  {
    if more == [] {
      assert steps + more == steps;
    } else {
      var less := more[..|more| - 1];
      RecordsOnlyAdvance(steps, less, id);
      assert (steps + more)[..|steps + more| - 1] == steps + less;
      var mid := Replay(steps + less);
      PerformAdvances(mid, more[|more| - 1]);
      assert Advances(mid.book[id], Perform(mid, more[|more| - 1]).book[id]);
    }
  }

  /** Consent is exact: a claim succeeds iff the very same action is approved and has not expired. */
  lemma ClaimNeedsExactConsent(b: Book, id: Identity, principal: string, current: Action, now: int, token: string)
    ensures Claim(b, id, principal, current, now, token).1.Ok? <==>
              && id in b && b[id].status == Approved && now < b[id].expires
              && b[id].action == current && current.who.principal == principal
  {}

  // ---------------------------------------------------------------------------
  // Where consent, refusal and receipts come from
  // ---------------------------------------------------------------------------

  /** A step that reached the file, and the record it met. */
  ghost predicate Meets(steps: seq<Step>, i: nat, id: Identity, status: Status) {
    i < |steps| && !steps[i].lost && id in Replay(steps[..i]).book && Replay(steps[..i]).book[id].status == status
  }

  /** At step `i` the record's own principal said yes to a pending request that had not expired. */
  ghost predicate SaysYes(steps: seq<Step>, i: nat, id: Identity) {
    && Meets(steps, i, id, Pending) && steps[i].op == OpDecide(id, id.principal, true)
    && steps[i].now < Replay(steps[..i]).book[id].expires
  }

  /** At step `i` the request was filed as it stands in the record, with its own time to live. */
  ghost predicate Files(steps: seq<Step>, i: nat, r: Record) {
    && i < |steps| && !steps[i].lost && steps[i].op.OpCreate? && steps[i].op.action == r.action
    && r.expires == steps[i].now + (if steps[i].op.ttl <= 0 then DEFAULT_TTL else steps[i].op.ttl)
    && r.action.who !in Replay(steps[..i]).book
  }

  /** At step `i` the holder of the claim reported this outcome with this receipt. */
  ghost predicate Reports(steps: seq<Step>, i: nat, id: Identity, r: Record) {
    Meets(steps, i, id, Claimed) && steps[i].op == OpFinish(id, r.token, r.status, r.receipt)
  }

  /** Where a record's state comes from. */
  ghost predicate Explained(steps: seq<Step>, id: Identity) {
    id in Replay(steps).book ==>
      var r := Replay(steps).book[id];
      && r.action.who == id
      && (exists i :: Files(steps, i, r))
      && (r.status == Approved || WasClaimed(r.status) ==> exists i :: SaysYes(steps, i, id))
      && (IsOutcome(r.status) ==> exists i :: Reports(steps, i, id, r))
  }

  /** What a step before the last one did is not changed by the last. */
  lemma EarlierSteps(steps: seq<Step>, s: Step, i: nat, id: Identity, r: Record)
    requires i < |steps|
    ensures Files(steps, i, r) <==> Files(steps + [s], i, r)
    ensures SaysYes(steps, i, id) <==> SaysYes(steps + [s], i, id)
    ensures Reports(steps, i, id, r) <==> Reports(steps + [s], i, id, r)
  {
    assert (steps + [s])[..i] == steps[..i];
  }

  lemma LastStep(steps: seq<Step>, s: Step)
    ensures (steps + [s])[..|steps|] == steps && Replay(steps + [s]) == Perform(Replay(steps), s)
  {
    assert (steps + [s])[..|steps|] == steps;
  }

  /** How one update may leave a record: unless filed by it, as it was but for a status that the update explains. */
  ghost predicate Changes(b: Book, b': Book, id: Identity) {
    && id in b && id in b'
    && b'[id].action == b[id].action && b'[id].expires == b[id].expires
    && (WasClaimed(b'[id].status) ==> WasClaimed(b[id].status) || b[id].status == Approved)
  }

  lemma CreateExplains(b: Book, a: Action, ttl: int, now: int, id: Identity)
    ensures var b' := Create(b, a, ttl, now).0;
            && (id in b ==> id in b' && b'[id] == b[id])
            && (id !in b && id in b' ==>
                  && id == a.who && b'[id].action == a && b'[id].status == Pending
                  && b'[id].expires == now + if ttl <= 0 then DEFAULT_TTL else ttl)
  {}

  lemma DecideExplains(b: Book, d: Identity, principal: string, allow: bool, now: int, id: Identity)
    ensures var b' := Decide(b, d, principal, allow, now).0;
            && (id in b <==> id in b')
            && (id in b ==> Changes(b, b', id) && (IsOutcome(b'[id].status) ==> b'[id] == b[id]))
            && (id in b && b'[id].status == Approved && b'[id] != b[id] ==>
                  d == id && allow && principal == b[id].action.who.principal
                  && b[id].status == Pending && now < b[id].expires)
  {}

  lemma ClaimExplains(b: Book, c: Identity, principal: string, current: Action, now: int, token: string, id: Identity)
    ensures var b' := Claim(b, c, principal, current, now, token).0;
            && (id in b <==> id in b')
            && (id in b ==>
                  && Changes(b, b', id)
                  && (IsOutcome(b'[id].status) || b'[id].status == Approved ==> b'[id] == b[id]))
  {}

  lemma FinishExplains(b: Book, f: Identity, token: string, o: Status, receipt: string, id: Identity)
    requires IsOutcome(o)
    ensures var b' := Finish(b, f, token, o, receipt).0;
            && (id in b <==> id in b')
            && (id in b ==> Changes(b, b', id) && (b'[id].status == Approved ==> b'[id] == b[id]))
            && (id in b && IsOutcome(b'[id].status) && b'[id] != b[id] ==>
                  f == id && b[id].status == Claimed && b'[id].token == token && b'[id].status == o
                  && b'[id].receipt == receipt)
  {}

  /** One record over one step: it is as it was, or this very step explains what is new. */
  lemma StepExplains(steps: seq<Step>, s: Step, id: Identity)
    requires id in Replay(steps + [s]).book
    requires id in Replay(steps).book ==> Replay(steps).book[id].action.who == id
    ensures var n, r := |steps|, Replay(steps + [s]).book[id];
            if id !in Replay(steps).book then
              r.status == Pending && r.action.who == id && Files(steps + [s], n, r)
            else
              var o := Replay(steps).book[id];
              && Changes(Replay(steps).book, Replay(steps + [s]).book, id)
              && (r.status == Approved ==> r == o || SaysYes(steps + [s], n, id))
              && (IsOutcome(r.status) ==> r == o || Reports(steps + [s], n, id, r))
  {
    hide Create, Decide, Claim, Finish, Replay, WasClaimed, IsOutcome;
    LastStep(steps, s);
    var b := Replay(steps).book;
    match s.op
    case OpCreate(a, ttl) => CreateExplains(b, a, ttl, s.now, id);
    case OpDecide(d, principal, allow) => DecideExplains(b, d, principal, allow, s.now, id);
    case OpClaim(c, principal, current, token) => ClaimExplains(b, c, principal, current, s.now, token, id);
    case OpFinish(f, token, o, receipt) =>
      if IsOutcome(o) {
        FinishExplains(b, f, token, o, receipt, id);
      }
  }

  lemma {:induction false} EveryRecordIsExplained(steps: seq<Step>, id: Identity)
    ensures Explained(steps, id)
  {
    if steps != [] {
      var n := |steps| - 1;
      var before, s := steps[..n], steps[n];
      assert steps == before + [s];
      EveryRecordIsExplained(before, id);
      if id in Replay(steps).book {
        StepExplains(before, s, id);
        var r := Replay(steps).book[id];
        hide Replay, Files, SaysYes, Reports, WasClaimed;
        if id in Replay(before).book {
          var o := Replay(before).book[id];
          var i :| Files(before, i, o);
          FilesIs(before, i, o, r);
          EarlierSteps(before, s, i, id, r);
          if o.status == Approved || WasClaimed(o.status) {
            var k :| SaysYes(before, k, id);
            YesIsEarlier(before, k, id);
            EarlierSteps(before, s, k, id, r);
          }
          if IsOutcome(r.status) && r == o {
            var k :| Reports(before, k, id, r);
            ReportIsEarlier(before, k, id, r);
            EarlierSteps(before, s, k, id, r);
          }
        }
        NotYetClaimed(r.status);
      }
    }
  }

  lemma FilesIs(steps: seq<Step>, i: nat, o: Record, r: Record)
    requires Files(steps, i, o) && r.action == o.action && r.expires == o.expires
    ensures Files(steps, i, r) && i < |steps|
  {}

  lemma YesIsEarlier(steps: seq<Step>, i: nat, id: Identity)
    requires SaysYes(steps, i, id)
    ensures i < |steps|
  {}

  lemma ReportIsEarlier(steps: seq<Step>, i: nat, id: Identity, r: Record)
    requires Reports(steps, i, id, r)
    ensures i < |steps|
  {}

  lemma NotYetClaimed(s: Status)
    ensures s == Pending ==> !WasClaimed(s) && !IsOutcome(s)
  {}

  /**
    No claim without consent: over every run, whatever was claimed had been approved before, by the principal the
    record belongs to, while the request was pending and had not expired.
   */
  lemma ConsentPrecedesClaim(steps: seq<Step>, k: nat)
    requires k < |Replay(steps).claims|
    ensures exists i :: SaysYes(steps, i, Replay(steps).claims[k].id)
  {
    ReachableClaims(steps);
    EveryRecordIsExplained(steps, Replay(steps).claims[k].id);
  }

  /** Every settled claim carries the outcome and the receipt that the holder of its token reported. */
  lemma OutcomesAreAsReported(steps: seq<Step>, id: Identity)
    requires id in Replay(steps).book && IsOutcome(Replay(steps).book[id].status)
    ensures exists i :: Reports(steps, i, id, Replay(steps).book[id])
  {
    EveryRecordIsExplained(steps, id);
  }

  /** Every record is the request somebody filed under that identity, with the life it was filed for. */
  lemma RecordsAreAsFiled(steps: seq<Step>, id: Identity)
    requires id in Replay(steps).book
    ensures Replay(steps).book[id].action.who == id && exists i :: Files(steps, i, Replay(steps).book[id])
  {
    EveryRecordIsExplained(steps, id);
  }

  /** A decision by a record's own principal that still may be taken. */
  ghost predicate MayDeny(r: Record, now: int) { r.status == Approved || (r.status == Pending && now < r.expires) }

  /**
    A denial stands: once the principal has said no to a pending or an approved request, the record is denied, stays
    so over every continuation, and was not and will not be claimed.
   */
  lemma DenialStands(steps: seq<Step>, id: Identity, now: int, more: seq<Step>)
    requires id in Replay(steps).book && MayDeny(Replay(steps).book[id], now)
    ensures var h := Replay(steps + [Step(OpDecide(id, id.principal, false), now, false)] + more);
            && id in h.book && h.book[id].status == Denied
            && forall k :: 0 <= k < |h.claims| ==> h.claims[k].id != id
  {
    var s := Step(OpDecide(id, id.principal, false), now, false);
    RecordsAreAsFiled(steps, id);
    LastStep(steps, s);
    RecordsOnlyAdvance(steps + [s], more, id);
    ReachableClaims(steps + [s] + more);
  }

  /** And a yes to a pending request in time makes the very next claim by its principal, in time, succeed. */
  lemma ConsentIsEffective(steps: seq<Step>, id: Identity, now: int, later: int, token: string)
    requires id in Replay(steps).book && Replay(steps).book[id].status == Pending
    requires now < Replay(steps).book[id].expires && later < Replay(steps).book[id].expires
    ensures var yes := Step(OpDecide(id, id.principal, true), now, false);
            var claim := Step(OpClaim(id, id.principal, Replay(steps).book[id].action, token), later, false);
            Replay(steps + [yes] + [claim]).claims ==
            Replay(steps).claims + [Won(id, Replay(steps).book[id].action, token)]
  {
    var yes := Step(OpDecide(id, id.principal, true), now, false);
    var claim := Step(OpClaim(id, id.principal, Replay(steps).book[id].action, token), later, false);
    RecordsAreAsFiled(steps, id);
    LastStep(steps, yes);
    LastStep(steps + [yes], claim);
    hide Replay;
  }
}
