/**
  The durable cost ledger. Every operation below is one locked read-modify-replace of the file: it either
  yields the next ledger or an error, and an error leaves the file as it was.
 */
module BudgetLedger {
  import opened Common

  type AttemptId = string

  datatype AttemptState = Reserved | Sending | Unknown | Settled | Released

  datatype Attempt = Attempt(id: AttemptId, state: AttemptState, reserved: int, cost: int, needsReconciliation: bool)

  datatype Ledger = Ledger(schemaOk: bool, limit: int, attempts: map<AttemptId, Attempt>)

  datatype View = View(spent: int, held: int, remaining: int, frozen: bool)

  datatype BudgetError = BadState | Exhausted | Frozen | WrongAttemptState | UnknownAttempt | BadReconciliation

  /** How an invoked attempt is written back: the priced cost, or no reliable cost at all. */
  datatype Outcome = Priced(cost: int) | Unpriced(freeze: bool)

  predicate ValidId(id: AttemptId) {
    |id| == 32 && forall i :: 0 <= i < |id| ==> IsHex(id[i])
  }

  predicate IsHex(c: char) { '0' <= c <= '9' || 'a' <= c <= 'f' || 'A' <= c <= 'F' }

  // ---------------------------------------------------------------------------
  // Totals over the attempts map
  // ---------------------------------------------------------------------------

  /** Which amount of an attempt a total adds up. */
  datatype Column = Spent | Held | Capped | Overrun

  function Amount(c: Column, a: Attempt): int {
    match c
    case Spent => if a.state == Settled then a.cost else 0
    case Held => if a.state in {Reserved, Sending, Unknown} then a.reserved else 0
    case Capped => if a.state == Settled then Min(a.cost, a.reserved)
                   else if a.state == Released then 0 else a.reserved
    case Overrun => if a.state == Settled && a.cost > a.reserved then a.cost - a.reserved else 0
  }

  ghost function Total(c: Column, m: map<AttemptId, Attempt>): int
    decreases m.Keys
  {
    if m.Keys == {} then 0 else Amount(c, m[Pick(m)]) + Total(c, Without(m, Pick(m)))
  }

  ghost function Pick(m: map<AttemptId, Attempt>): (k: AttemptId)
    requires m.Keys != {}
    ensures k in m
  {
    var k :| k in m.Keys; k
  }

  function Without(m: map<AttemptId, Attempt>, k: AttemptId): (r: map<AttemptId, Attempt>)
    ensures r.Keys == m.Keys - {k} && forall i :: i in r ==> r[i] == m[i]
  {
    map i | i in m && i != k :: m[i]
  }

  lemma WithoutCommutes(m: map<AttemptId, Attempt>, i: AttemptId, k: AttemptId)
    ensures Without(Without(m, i), k) == Without(Without(m, k), i)
  {}

  lemma WithoutPut(m: map<AttemptId, Attempt>, k: AttemptId, a: Attempt)
    ensures Without(m[k := a], k) == Without(m, k)
    ensures k !in m ==> Without(m, k) == m
  {}

  /** The total does not depend on the order in which the entries are visited. */
  lemma {:induction false} TotalSplit(c: Column, m: map<AttemptId, Attempt>, k: AttemptId)
    requires k in m
    ensures Total(c, m) == Amount(c, m[k]) + Total(c, Without(m, k))
    decreases m.Keys
  {
    hide Amount;
    var first := Pick(m);
    if first != k {
      TotalSplit(c, Without(m, first), k);
      TotalSplit(c, Without(m, k), first);
      WithoutCommutes(m, first, k);
    }
  }

  lemma TotalPut(c: Column, m: map<AttemptId, Attempt>, k: AttemptId, a: Attempt)
    ensures Total(c, m[k := a]) == Total(c, m) + Amount(c, a) - (if k in m then Amount(c, m[k]) else 0)
  {
    hide Amount;
    var m' := m[k := a];
    TotalSplit(c, m', k);
    WithoutPut(m, k, a);
    if k in m {
      TotalSplit(c, m, k);
    }
  }

  lemma {:induction false} TotalNonNegative(c: Column, m: map<AttemptId, Attempt>)
    requires forall k :: k in m ==> m[k].reserved >= 0 && m[k].cost >= 0
    ensures Total(c, m) >= 0
    decreases m.Keys
  {
    if m.Keys != {} {
      var k :| k in m.Keys;
      TotalSplit(c, m, k);
      TotalNonNegative(c, Without(m, k));
    }
  }

  lemma AmountsBalance(a: Attempt)
    ensures Amount(Spent, a) + Amount(Held, a) == Amount(Capped, a) + Amount(Overrun, a)
  {}

  /** Money is conserved: everything spent or held is either within reservations or an overrun of one. */
  lemma {:induction false} TotalsBalance(m: map<AttemptId, Attempt>)
    ensures Total(Spent, m) + Total(Held, m) == Total(Capped, m) + Total(Overrun, m)
    decreases m.Keys
  {
    hide Amount;
    if m.Keys != {} {
      var k :| k in m.Keys;
      TotalSplit(Spent, m, k);
      TotalSplit(Held, m, k);
      TotalSplit(Capped, m, k);
      TotalSplit(Overrun, m, k);
      AmountsBalance(m[k]);
      TotalsBalance(Without(m, k));
    }
  }

  // ---------------------------------------------------------------------------
  // The specification of each durable update
  // ---------------------------------------------------------------------------

  ghost predicate AttemptOk(id: AttemptId, a: Attempt) {
    a.id == id && ValidId(id) && a.reserved >= 0 && a.cost >= 0
  }

  ghost predicate WellFormed(l: Ledger) {
    && l.schemaOk && l.limit >= 0
    && forall id :: id in l.attempts ==> AttemptOk(id, l.attempts[id])
  }

  ghost predicate IsFrozen(l: Ledger) {
    exists id :: id in l.attempts && l.attempts[id].needsReconciliation
  }

  ghost function Consumed(l: Ledger): int { Total(Spent, l.attempts) + Total(Held, l.attempts) }

  ghost predicate Consistent(l: Ledger) { WellFormed(l) && Consumed(l) <= MAX_INT64 }

  ghost function ViewOf(l: Ledger): View {
    View(Total(Spent, l.attempts), Total(Held, l.attempts),
         if Consumed(l) < l.limit then l.limit - Consumed(l) else 0, IsFrozen(l))
  }

  ghost function SnapshotOf(l: Ledger): Option<View> {
    if Consistent(l) then Some(ViewOf(l)) else None
  }

  ghost function Reserve(l: Ledger, id: AttemptId, amount: int): Result<Ledger, BudgetError> {
    if !Consistent(l) then Err(BadState)
    else if IsFrozen(l) then Err(Frozen)
    else if amount < 0 || Consumed(l) > l.limit || amount > ViewOf(l).remaining then Err(Exhausted)
    else Ok(l.(attempts := l.attempts[id := Attempt(id, Reserved, amount, 0, false)]))
  }

  /** The part `sending`, `unsent` and the settlement share: check, edit one attempt, check again. */
  ghost function Edited(l: Ledger, id: AttemptId, allowed: set<AttemptState>, edit: Attempt -> Attempt)
    : Result<Ledger, BudgetError>
  {
    if !Consistent(l) then Err(BadState)
    else if id !in l.attempts then Err(UnknownAttempt)
    else if l.attempts[id].state !in allowed then Err(WrongAttemptState)
    else
      var l' := l.(attempts := l.attempts[id := edit(l.attempts[id])]);
      if Consistent(l') then Ok(l') else Err(BadState)
  }

  function AsSending(a: Attempt): Attempt { a.(state := Sending) }

  function AsReleased(a: Attempt): Attempt { a.(state := Released) }

  function AsOutcome(o: Outcome, a: Attempt): Attempt {
    match o
    case Priced(cost) => a.(state := Settled, cost := cost)
    case Unpriced(freeze) => a.(state := Unknown, needsReconciliation := freeze)
  }

  function AsRecovered(a: Attempt): Attempt {
    if a.state == Reserved then a.(state := Released)
    else if a.state == Sending then a.(state := Unknown)
    else a
  }

  ghost function Send(l: Ledger, id: AttemptId): Result<Ledger, BudgetError> {
    Edited(l, id, {Reserved}, AsSending)
  }

  ghost function Unsend(l: Ledger, id: AttemptId): Result<Ledger, BudgetError> {
    Edited(l, id, {Reserved, Sending}, AsReleased)
  }

  ghost function Settle(l: Ledger, id: AttemptId, o: Outcome): Result<Ledger, BudgetError> {
    Edited(l, id, {Sending}, a => AsOutcome(o, a))
  }

  ghost function RecoverOne(l: Ledger, id: AttemptId): Ledger
    requires id in l.attempts
  {
    l.(attempts := l.attempts[id := AsRecovered(l.attempts[id])])
  }

  ghost function Reconcile(l: Ledger, id: AttemptId, cost: int, noteOk: bool): Result<Ledger, BudgetError> {
    if cost < 0 || !noteOk then Err(BadReconciliation)
    else if !Consistent(l) then Err(BadState)
    else if id !in l.attempts then Err(UnknownAttempt)
    else if l.attempts[id].state == Settled then
      if l.attempts[id].cost == cost then Ok(l) else Err(BadReconciliation)
    else if l.attempts[id].state !in {Unknown, Sending} then Err(WrongAttemptState)
    else
      var a := l.attempts[id].(state := Settled, cost := cost, needsReconciliation := false);
      var l' := l.(attempts := l.attempts[id := a]);
      if Consistent(l') then Ok(l') else Err(BadState)
  }

  // ---------------------------------------------------------------------------
  // The account object
  // ---------------------------------------------------------------------------

  class BudgetAccount {
    var file: Ledger

    constructor (limit: int)
      requires limit >= 0
      ensures file == Ledger(true, limit, map[])
    {
      file := Ledger(true, limit, map[]);
    }

    /** One pass over the attempts with checked int64 additions, stopping at the first invalid one. */
    method Snapshot() returns (r: Option<View>)
      ensures r == SnapshotOf(file)
    {
      hide Total, IsHex;
      if !file.schemaOk || file.limit < 0 {
        return None;
      }
      var spent, held, frozen := 0, 0, false;
      var todo := file.attempts;
      while todo.Keys != {}
        invariant Scanned(file, todo, spent, held, frozen)
        invariant spent <= MAX_INT64 && held <= MAX_INT64
        decreases todo.Keys
      {
        var id :| id in todo.Keys;
        var a := todo[id];
        if a.id != id || !ValidId(id) || a.reserved < 0 || a.cost < 0 {
          assert !WellFormed(file) by { assert !AttemptOk(id, file.attempts[id]); }
          return None;
        }
        ScanStep(file, todo, spent, held, frozen, id);
        todo := Without(todo, id);
        if a.state in {Reserved, Sending, Unknown} {
          if held > MAX_INT64 - a.reserved {
            OverflowIsInconsistent(file, todo, spent, held + a.reserved, frozen || a.needsReconciliation);
            return None;
          }
          held := held + a.reserved;
        } else if a.state == Settled {
          if spent > MAX_INT64 - a.cost {
            OverflowIsInconsistent(file, todo, spent + a.cost, held, frozen || a.needsReconciliation);
            return None;
          }
          spent := spent + a.cost;
        }
        if a.needsReconciliation {
          frozen := true;
        }
      }
      ScanEnd(file, todo, spent, held, frozen);
      assert WellFormed(file) && Consumed(file) == spent + held;
      if spent > MAX_INT64 - held {
        return None;
      }
      var remaining := 0;
      if spent + held < file.limit {
        remaining := file.limit - (spent + held);
      }
      return Some(View(spent, held, remaining, frozen));
    }

    method TryReserve(id: AttemptId, amount: int) returns (e: Option<BudgetError>)
      modifies this
      ensures match Reserve(old(file), id, amount)
              case Ok(l) => file == l && e == None
              case Err(why) => file == old(file) && e == Some(why)
      ensures e == None ==>
                && id in file.attempts && file == Put(old(file), id, Attempt(id, Reserved, amount, 0, false))
                && amount >= 0 && Consumed(old(file)) + amount <= old(file).limit
                && forall k :: k in old(file).attempts ==> !old(file).attempts[k].needsReconciliation
      ensures e == Some(Frozen) ==> exists k :: k in old(file).attempts && old(file).attempts[k].needsReconciliation
      ensures e == Some(Exhausted) ==> amount < 0 || Consumed(old(file)) + amount > old(file).limit
    {
      var view := Snapshot();
      if view.None? {
        return Some(BadState);
      }
      if view.value.frozen {
        return Some(Frozen);
      }
      if amount < 0 || view.value.spent + view.value.held > file.limit || amount > view.value.remaining {
        return Some(Exhausted);
      }
      file := file.(attempts := file.attempts[id := Attempt(id, Reserved, amount, 0, false)]);
      return None;
    }

    method Update(id: AttemptId, allowed: set<AttemptState>, edit: Attempt -> Attempt) returns (e: Option<BudgetError>)
      modifies this
      ensures match Edited(old(file), id, allowed, edit)
              case Ok(l) => file == l && e == None
              case Err(why) => file == old(file) && e == Some(why)
      ensures e == None ==>
                && id in old(file).attempts && old(file).attempts[id].state in allowed
                && file == Put(old(file), id, edit(old(file).attempts[id]))
      ensures e.Some? ==> file == old(file)
    {
      var before := file;
      var view := Snapshot();
      if view.None? {
        return Some(BadState);
      }
      if id !in file.attempts {
        return Some(UnknownAttempt);
      }
      if file.attempts[id].state !in allowed {
        return Some(WrongAttemptState);
      }
      file := file.(attempts := file.attempts[id := edit(file.attempts[id])]);
      view := Snapshot();
      if view.None? {
        file := before;
        return Some(BadState);
      }
      return None;
    }

    /** One budgeted attempt without failures of the file: reserve, claim, call the provider, write back. */
    method Run(id: AttemptId, amount: int, cancelled: bool, outcome: Outcome)
      returns (sent: bool, e: Option<BudgetError>)
      requires ValidId(id) && id !in file.attempts && file.limit <= MAX_INT64
      modifies this
      ensures Reserve(old(file), id, amount).Err? ==> file == old(file) && !sent && e.Some?
      ensures Reserve(old(file), id, amount).Ok? ==>
                && id in file.attempts && file == Put(old(file), id, file.attempts[id])
                && sent == !cancelled && file.attempts[id].reserved == amount
                && (cancelled ==> file.attempts[id].state == Released && e == None)
                && (sent && e == None ==>
                      match outcome
                      case Priced(cost) => file.attempts[id] == Attempt(id, Settled, amount, cost, false)
                      case Unpriced(freeze) => file.attempts[id] == Attempt(id, Unknown, amount, 0, freeze))
                && (sent && e.Some? ==> file.attempts[id] == Attempt(id, Sending, amount, 0, false))
                && (sent && e.Some? <==> !cancelled && outcome.Priced?
                                         && (outcome.cost < 0 || Consumed(old(file)) + outcome.cost > MAX_INT64))
    {
      hide Consistent, IsFrozen, ViewOf, IsHex;
      e := TryReserve(id, amount);
      if e.Some? {
        return false, e;
      }
      SingleAttemptKeepsConsistency(old(file), id, amount);
      ghost var before := old(file);
      var a := Attempt(id, Reserved, amount, 0, false);
      assert file == Put(before, id, a);
      e := Update(id, {Reserved}, AsSending);
      PutTwice(before, id, a, AsSending(a));
      assert file == Put(before, id, AsSending(a));
      if cancelled {
        e := Update(id, {Reserved, Sending}, AsReleased);
        PutTwice(before, id, AsSending(a), AsReleased(AsSending(a)));
        return false, e;
      }
      SettlementFits(before, id, amount, outcome);
      e := Update(id, {Sending}, a => AsOutcome(outcome, a));
      PutTwice(before, id, AsSending(a), AsOutcome(outcome, AsSending(a)));
      return true, e;
    }

    /**
      Takes the lease of one orphan after the other, each with a durable update of its own; `leased` are the attempts
      some live caller still owns. `fates` names the attempts whose lease or update fails, where a torn update does
      reach the file. The first failure ends it, and what was recovered before stays recovered: `done` are the
      attempts it had dealt with by then.
     */
    method Recover(leased: set<AttemptId>, fates: map<AttemptId, Write>) returns (ok: bool, done: set<AttemptId>)
      modifies this
      ensures done <= old(file).attempts.Keys
      ensures file == old(file).(attempts := map id | id in old(file).attempts ::
                        if id in done && id !in leased then AsRecovered(old(file).attempts[id])
                        else old(file).attempts[id])
      ensures SnapshotOf(old(file)) == None ==> !ok && done == {}
      ensures ok ==> done == old(file).attempts.Keys
      ensures !ok && SnapshotOf(old(file)) != None ==>
                exists id :: id in fates && fates[id] != Good && id in old(file).attempts && id !in leased
                             && (id in done <==> fates[id] == Torn)
    {
      hide Consistent, SnapshotOf;
      var view := Snapshot();
      if view.None? {
        return false, {};
      }
      var listed := file.attempts;
      var todo := listed.Keys;
      while todo != {}
        invariant todo <= listed.Keys
        invariant file == old(file).(attempts := file.attempts) && file.attempts.Keys == listed.Keys
        invariant forall id :: id in listed ==>
                    file.attempts[id] == if id in todo || id in leased then listed[id] else AsRecovered(listed[id])
        decreases todo
      {
        var id :| id in todo;
        if (listed[id].state == Reserved || listed[id].state == Sending) && id !in leased {
          var fate := if id in fates then fates[id] else Good;
          if fate == Lost {
            return false, listed.Keys - todo;
          }
          file := file.(attempts := file.attempts[id := AsRecovered(file.attempts[id])]);
          if fate == Torn {
            return false, listed.Keys - todo + {id};
          }
        }
        todo := todo - {id};
      }
      return true, listed.Keys;
    }

    method TryReconcile(id: AttemptId, cost: int, noteOk: bool) returns (e: Option<BudgetError>)
      modifies this
      ensures match Reconcile(old(file), id, cost, noteOk)
              case Ok(l) => file == l && e == None
              case Err(why) => file == old(file) && e == Some(why)
      ensures e == None ==>
                && noteOk && cost >= 0 && id in old(file).attempts
                && var a := old(file).attempts[id];
                && (a.state == Unknown || a.state == Sending || a.state == Settled)
                && (a.state == Settled ==> file == old(file) && a.cost == cost)
                && (a.state != Settled ==>
                      file == Put(old(file), id, Attempt(a.id, Settled, a.reserved, cost, false)))
    {
      if cost < 0 || !noteOk {
        return Some(BadReconciliation);
      }
      var before := file;
      var view := Snapshot();
      if view.None? {
        return Some(BadState);
      }
      if id !in file.attempts {
        return Some(UnknownAttempt);
      }
      var a := file.attempts[id];
      if a.state == Settled {
        return if a.cost == cost then None else Some(BadReconciliation);
      }
      if a.state !in {Unknown, Sending} {
        return Some(WrongAttemptState);
      }
      file := file.(attempts := file.attempts[id := a.(state := Settled, cost := cost, needsReconciliation := false)]);
      view := Snapshot();
      if view.None? {
        file := before;
        return Some(BadState);
      }
      return None;
    }
  }

  function Put(l: Ledger, id: AttemptId, a: Attempt): Ledger { l.(attempts := l.attempts[id := a]) }

  lemma PutTwice(l: Ledger, id: AttemptId, a: Attempt, b: Attempt)
    ensures Put(Put(l, id, a), id, b) == Put(l, id, b)
  {
    assert l.attempts[id := a][id := b] == l.attempts[id := b];
  }

  /** An admitted attempt can always be claimed, and a claimed one can always be released. */
  lemma SingleAttemptKeepsConsistency(l: Ledger, id: AttemptId, amount: int)
    requires Reserve(l, id, amount).Ok? && ValidId(id) && id !in l.attempts && l.limit <= MAX_INT64
    ensures var l1 := Reserve(l, id, amount).value;
            && Send(l1, id).Ok?
            && Unsend(Send(l1, id).value, id).Ok?
  {
    hide IsHex, Total, IsFrozen;
    var a := Attempt(id, Reserved, amount, 0, false);
    var l1 := Reserve(l, id, amount).value;
    var l2 := l.(attempts := l1.attempts[id := AsSending(a)]);
    var l3 := l.(attempts := l2.attempts[id := AsReleased(AsSending(a))]);
    TotalPut(Spent, l.attempts, id, a);
    TotalPut(Held, l.attempts, id, a);
    TotalPut(Spent, l1.attempts, id, AsSending(a));
    TotalPut(Held, l1.attempts, id, AsSending(a));
    TotalPut(Spent, l2.attempts, id, AsReleased(AsSending(a)));
    TotalPut(Held, l2.attempts, id, AsReleased(AsSending(a)));
    assert WellFormed(l1) && WellFormed(l2) && WellFormed(l3);
  }

  /** And settled, unless its cost is negative or takes the total out of range. */
  lemma SettlementFits(l: Ledger, id: AttemptId, amount: int, o: Outcome)
    requires Reserve(l, id, amount).Ok? && ValidId(id) && id !in l.attempts && l.limit <= MAX_INT64
    ensures var sending := Put(l, id, Attempt(id, Sending, amount, 0, false));
            Settle(sending, id, o).Err? <==> o.Priced? && (o.cost < 0 || Consumed(l) + o.cost > MAX_INT64)
  {
    hide IsHex, Total, IsFrozen;
    var a := Attempt(id, Sending, amount, 0, false);
    var l1 := Put(l, id, a);
    var l2 := Put(l1, id, AsOutcome(o, a));
    TotalPut(Spent, l.attempts, id, a);
    TotalPut(Held, l.attempts, id, a);
    TotalPut(Spent, l1.attempts, id, AsOutcome(o, a));
    TotalPut(Held, l1.attempts, id, AsOutcome(o, a));
    assert WellFormed(l1);
    assert o.Unpriced? || o.cost >= 0 ==> WellFormed(l2);
    assert o.Priced? && o.cost < 0 ==> !AttemptOk(id, l2.attempts[id]);
  }

  /** What one pass knows when `todo` is still to be visited. */
  ghost predicate Scanned(l: Ledger, todo: map<AttemptId, Attempt>, spent: int, held: int, frozen: bool) {
    && (forall id :: id in todo ==> id in l.attempts && todo[id] == l.attempts[id])
    && (forall id :: id in l.attempts && id !in todo ==> AttemptOk(id, l.attempts[id]))
    && spent >= 0 && held >= 0
    && spent + Total(Spent, todo) == Total(Spent, l.attempts)
    && held + Total(Held, todo) == Total(Held, l.attempts)
    && (frozen <==> exists id :: id in l.attempts && id !in todo && l.attempts[id].needsReconciliation)
  }

  lemma ScanStep(l: Ledger, todo: map<AttemptId, Attempt>, spent: int, held: int, frozen: bool, id: AttemptId)
    requires Scanned(l, todo, spent, held, frozen) && id in todo && AttemptOk(id, todo[id])
    ensures Scanned(l, Without(todo, id), spent + Amount(Spent, todo[id]), held + Amount(Held, todo[id]),
                    frozen || todo[id].needsReconciliation)
  {
    TotalSplit(Spent, todo, id);
    TotalSplit(Held, todo, id);
    assert l.attempts[id] == todo[id];
  }

  lemma ScanEnd(l: Ledger, todo: map<AttemptId, Attempt>, spent: int, held: int, frozen: bool)
    requires Scanned(l, todo, spent, held, frozen) && todo.Keys == {}
    ensures spent == Total(Spent, l.attempts) && held == Total(Held, l.attempts) && frozen == IsFrozen(l)
    ensures forall id :: id in l.attempts ==> AttemptOk(id, l.attempts[id])
  {}

  /** A partial sum over int64 that already overflows cannot belong to a consistent ledger. */
  lemma OverflowIsInconsistent(l: Ledger, todo: map<AttemptId, Attempt>, spent: int, held: int, frozen: bool)
    requires Scanned(l, todo, spent, held, frozen) && (spent > MAX_INT64 || held > MAX_INT64)
    ensures !Consistent(l)
  {
    if WellFormed(l) {
      forall id | id in todo ensures todo[id].reserved >= 0 && todo[id].cost >= 0 {
        assert AttemptOk(id, l.attempts[id]);
      }
      TotalNonNegative(Spent, todo);
      TotalNonNegative(Held, todo);
    }
  }
}
