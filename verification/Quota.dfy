/** The rolling-hour worker quota, with admissions that survive restarts of a durable manager. */
module Quota {
  import opened Common

  /** Times are nanoseconds of one clock that never goes back. */
  const HOUR := 3_600_000_000_000

  datatype Manager = Manager(durable: bool, limit: nat)

  /** `admitted` is history: the workers really started, by time. */
  datatype Sys = Sys(open: bool, memory: seq<int>, file: seq<int>, admitted: seq<int>, clock: int)

  datatype Event = DoStart(now: int, w: Write) | DoCrash | DoOpen

  // ---------------------------------------------------------------------------
  // Steps
  // ---------------------------------------------------------------------------

  /** Admissions that left the window are forgotten, oldest first. */
  function Pruned(admissions: seq<int>, now: int): (r: seq<int>)
    ensures |r| <= |admissions| && r == admissions[|admissions| - |r|..]
  {
    if admissions != [] && admissions[0] <= now - HOUR then Pruned(admissions[1..], now) else admissions
  }

  predicate HasRoom(m: Manager, y: Sys, now: int) { |Pruned(y.memory, now)| < m.limit }

  /** A write that may have reached the file counts against the quota only if a restart finds it there. */
  function Start(m: Manager, y: Sys, now: int, w: Write): Sys {
    var kept := Pruned(y.memory, now);
    if |kept| >= m.limit then y.(memory := kept, clock := now)
    else if !m.durable || w == Good then
      y.(memory := kept + [now], file := if m.durable then kept + [now] else y.file,
         admitted := y.admitted + [now], clock := now)
    else y.(memory := kept, file := if w == Torn then kept + [now] else y.file, clock := now)
  }

  function Apply(m: Manager, y: Sys, e: Event): Sys {
    match e
    case DoStart(now, w) => if y.open && now >= y.clock then Start(m, y, now, w) else y
    case DoCrash => y.(open := false, memory := [])
    case DoOpen => if y.open then y else y.(open := true, memory := if m.durable then y.file else [])
  }

  function After(m: Manager, es: seq<Event>): Sys {
    if es == [] then Sys(false, [], [], [], 0) else Apply(m, After(m, es[..|es| - 1]), es[|es| - 1])
  }

  method Prune(admissions: seq<int>, now: int) returns (kept: seq<int>)
    ensures kept == Pruned(admissions, now)
  {
    var first := 0;
    assert admissions[0..] == admissions;
    while first < |admissions| && admissions[first] <= now - HOUR
      invariant 0 <= first <= |admissions|
      invariant Pruned(admissions[first..], now) == Pruned(admissions, now)
    {
      assert admissions[first..][1..] == admissions[first + 1..];
      first := first + 1;
    }
    assert first < |admissions| ==> admissions[first..][0] == admissions[first];
    return admissions[first..];
  }

  class ManagerObject {
    const m: Manager
    var memory: seq<int>
    var file: seq<int>

    constructor (m: Manager, file: seq<int>)
      ensures this.m == m && this.file == file && memory == if m.durable then file else []
    {
      this.m, this.file := m, file;
      memory := if m.durable then file else [];
    }

    /** The admission part of `StartContext`: prune, check, record, persist, and take back on failure. */
    method Admit(now: int, w: Write) returns (ok: bool)
      modifies this
      ensures var y := Sys(true, old(memory), old(file), [], now);
              var y' := Start(m, y, now, w);
              memory == y'.memory && file == y'.file && ok == (y'.admitted == [now])
    {
      hide Pruned;
      memory := Prune(memory, now);
      if |memory| >= m.limit {
        return false;
      }
      memory := memory + [now];
      if m.durable {
        if w != Lost {
          file := memory;
        }
        if w != Good {
          assert memory[..|memory| - 1] == Pruned(old(memory), now);
          memory := memory[..|memory| - 1];
          return false;
        }
      }
      return true;
    }
  }

  // ---------------------------------------------------------------------------
  // Counting
  // ---------------------------------------------------------------------------

  function CountAfter(s: seq<int>, x: int): nat {
    if s == [] then 0 else CountAfter(s[..|s| - 1], x) + if s[|s| - 1] > x then 1 else 0
  }

  /** Admissions in the half-open hour after `x`. */
  function CountHour(s: seq<int>, x: int): nat {
    if s == [] then 0 else CountHour(s[..|s| - 1], x) + if x < s[|s| - 1] <= x + HOUR then 1 else 0
  }

  lemma CountOneMore(s: seq<int>, t: int, x: int)
    ensures CountAfter(s + [t], x) == CountAfter(s, x) + if t > x then 1 else 0
  {
    assert (s + [t])[..|s|] == s;
  }

  lemma {:induction false} CountFromFront(s: seq<int>, x: int)
    requires s != []
    ensures CountAfter(s, x) == CountAfter(s[1..], x) + if s[0] > x then 1 else 0
  {
    if |s| > 1 {
      var n := |s| - 1;
      CountFromFront(s[..n], x);
      assert s[..n][1..] == s[1..][..n - 1];
    }
  }

  lemma {:induction false} CountFalls(s: seq<int>, x: int, y: int)
    requires x <= y
    ensures CountAfter(s, y) <= CountAfter(s, x) <= |s|
    ensures CountHour(s, x) <= CountAfter(s, x)
  {
    if s != [] {
      CountFalls(s[..|s| - 1], x, y);
    }
  }

  /** Pruning forgets nothing that any later hour could see. */
  lemma {:induction false} PrunedCounts(s: seq<int>, now: int, x: int)
    requires x >= now - HOUR
    ensures CountAfter(Pruned(s, now), x) == CountAfter(s, x)
  {
    if s != [] && s[0] <= now - HOUR {
      CountFromFront(s, x);
      PrunedCounts(s[1..], now, x);
    }
  }

  // ---------------------------------------------------------------------------
  // The invariant
  // ---------------------------------------------------------------------------

  /** A list that remembers at least every admission a later hour can see. */
  ghost predicate Covers(list: seq<int>, y: Sys) {
    forall x :: x >= y.clock - HOUR ==> CountAfter(y.admitted, x) <= CountAfter(list, x)
  }

  /** When a worker was admitted, the hour before held fewer than the limit. */
  ghost predicate RoomAt(m: Manager, admitted: seq<int>, i: nat) {
    i < |admitted| ==> CountAfter(admitted[..i], admitted[i] - HOUR) < m.limit
  }

  /** A process that keeps no file has nothing but its memory, and lives once here. */
  ghost predicate Inv(m: Manager, y: Sys) {
    && (y.open ==> Covers(y.memory, y))
    && (if m.durable then Covers(y.file, y) else !y.open ==> y.admitted == [])
    && forall i :: RoomAt(m, y.admitted, i)
  }

  /** Runs in which the manager still knows its admissions: it keeps a file, or its process never ends. */
  predicate Remembers(m: Manager, es: seq<Event>) { m.durable || forall e :: e in es ==> !e.DoCrash? }

  lemma StartKeepsInv(m: Manager, y: Sys, now: int, w: Write)
    requires Inv(m, y) && y.open && now >= y.clock
    ensures Inv(m, Start(m, y, now, w))
  {
    var y' := Start(m, y, now, w);
    var kept := Pruned(y.memory, now);
    hide Pruned, CountAfter;
    forall x | x >= now - HOUR
      ensures CountAfter(y'.admitted, x) <= CountAfter(y'.memory, x)
      ensures m.durable ==> CountAfter(y'.admitted, x) <= CountAfter(y'.file, x)
    {
      PrunedCounts(y.memory, now, x);
      CountOneMore(kept, now, x);
      CountOneMore(y.admitted, now, x);
      assert CountAfter(y.admitted, x) <= CountAfter(y.memory, x);
      assert m.durable ==> CountAfter(y.admitted, x) <= CountAfter(y.file, x);
    }
    PrunedCounts(y.memory, now, now - HOUR);
    CountFalls(kept, now - HOUR, now - HOUR);
    assert CountAfter(y.admitted, now - HOUR) <= CountAfter(y.memory, now - HOUR);
    forall i: nat ensures RoomAt(m, y'.admitted, i) {
      assert RoomAt(m, y.admitted, i);
      if i < |y.admitted| {
        assert y'.admitted[..i] == y.admitted[..i];
      } else if i < |y'.admitted| {
        assert y'.admitted[..i] == y.admitted;
      }
    }
  }

  lemma {:induction false} Reachable(m: Manager, es: seq<Event>)
    requires Remembers(m, es)
    ensures Inv(m, After(m, es))
  {
    if es == [] {
    } else {
      var y, e := After(m, es[..|es| - 1]), es[|es| - 1];
      assert e in es;
      Reachable(m, es[..|es| - 1]);
      if e.DoStart? && y.open && e.now >= y.clock {
        StartKeepsInv(m, y, e.now, e.w);
      } else {
        hide CountAfter;
        assert forall i :: RoomAt(m, y.admitted, i);
      }
    }
  }

  lemma {:induction false} RoomBoundsEveryHour(m: Manager, admitted: seq<int>, x: int)
    requires forall i :: RoomAt(m, admitted, i)
    ensures CountHour(admitted, x) <= m.limit
  {
    if admitted != [] {
      var n := |admitted| - 1;
      forall i: nat ensures RoomAt(m, admitted[..n], i) {
        assert RoomAt(m, admitted, i);
        assert i < n ==> admitted[..n][..i] == admitted[..i];
      }
      RoomBoundsEveryHour(m, admitted[..n], x);
      if x < admitted[n] <= x + HOUR {
        assert RoomAt(m, admitted, n);
        CountFalls(admitted[..n], admitted[n] - HOUR, x);
        CountFalls(admitted[..n], x, x);
      }
    }
  }

  /**
    Over every run of a durable manager, with failed and half-failed writes, crashes and restarts, every half-open
    hour holds at most the limit of admitted workers; without a file the same holds for the life of one process.
   */
  lemma EveryHourWithinLimit(m: Manager, es: seq<Event>, x: int)
    requires Remembers(m, es)
    ensures CountHour(After(m, es).admitted, x) <= m.limit
  {
    Reachable(m, es);
    RoomBoundsEveryHour(m, After(m, es).admitted, x);
  }

  // ---------------------------------------------------------------------------
  // And no worker is refused without cause
  // ---------------------------------------------------------------------------

  ghost predicate Rising(s: seq<int>) { forall i, k :: 0 <= i < k < |s| ==> s[i] <= s[k] }

  ghost predicate UpTo(s: seq<int>, t: int) { forall i :: 0 <= i < |s| ==> s[i] <= t }

  ghost predicate SameAfter(a: seq<int>, b: seq<int>, t: int) {
    forall x :: x >= t ==> CountAfter(a, x) == CountAfter(b, x)
  }

  /** Without half-failed writes a live manager remembers exactly what a later hour can see. */
  ghost predicate Exact(m: Manager, y: Sys) {
    && Rising(y.memory) && Rising(y.file) && UpTo(y.memory, y.clock) && UpTo(y.file, y.clock)
    && (y.open ==> SameAfter(y.admitted, y.memory, y.clock - HOUR))
    && (if m.durable then SameAfter(y.admitted, y.file, y.clock - HOUR) else !y.open ==> y.admitted == [])
  }

  /** Half-failed writes leave their mark in a file only. */
  predicate Clean(m: Manager, es: seq<Event>) {
    Remembers(m, es) && (m.durable ==> forall e :: e in es && e.DoStart? ==> e.w != Torn)
  }

  lemma {:induction false} PrunedRises(s: seq<int>, now: int)
    requires Rising(s)
    ensures Rising(Pruned(s, now)) && CountAfter(Pruned(s, now), now - HOUR) == |Pruned(s, now)|
  {
    if s != [] && s[0] <= now - HOUR {
      PrunedRises(s[1..], now);
    } else {
      AllCount(s, now - HOUR);
    }
  }

  lemma {:induction false} AllCount(s: seq<int>, x: int)
    requires forall i :: 0 <= i < |s| ==> s[i] > x
    ensures CountAfter(s, x) == |s|
  {
    if s != [] {
      AllCount(s[..|s| - 1], x);
    }
  }

  lemma RisesOneMore(s: seq<int>, now: int)
    requires Rising(s) && UpTo(s, now)
    ensures Rising(s + [now]) && UpTo(s + [now], now)
  {
  }

  lemma SameOneMore(a: seq<int>, b: seq<int>, t: int, now: int)
    requires SameAfter(a, b, t)
    ensures SameAfter(a + [now], b + [now], t)
  {
    hide CountAfter;
    forall x | x >= t ensures CountAfter(a + [now], x) == CountAfter(b + [now], x) {
      CountOneMore(a, now, x);
      CountOneMore(b, now, x);
    }
  }

  lemma SamePruned(a: seq<int>, memory: seq<int>, t: int, now: int)
    requires SameAfter(a, memory, t) && t <= now - HOUR
    ensures SameAfter(a, Pruned(memory, now), now - HOUR)
  {
    hide CountAfter, Pruned;
    forall x | x >= now - HOUR ensures CountAfter(a, x) == CountAfter(Pruned(memory, now), x) {
      PrunedCounts(memory, now, x);
    }
  }

  lemma StartStaysExact(m: Manager, y: Sys, now: int, w: Write)
    requires Exact(m, y) && y.open && now >= y.clock && (m.durable ==> w != Torn)
    ensures Exact(m, Start(m, y, now, w))
  {
    hide Pruned, CountAfter, Rising, UpTo, SameAfter;
    var kept := Pruned(y.memory, now);
    PrunedRises(y.memory, now);
    PrunedUpTo(y.memory, y.clock, now);
    NotLater(y.file, y.clock, now);
    SamePruned(y.admitted, y.memory, y.clock - HOUR, now);
    if m.durable {
      SameLater(y.admitted, y.file, y.clock - HOUR, now - HOUR);
    }
    RisesOneMore(kept, now);
    SameOneMore(y.admitted, kept, now - HOUR, now);
  }

  lemma NotLater(s: seq<int>, t: int, now: int)
    requires UpTo(s, t) && t <= now
    ensures UpTo(s, now)
  {
  }

  lemma PrunedUpTo(s: seq<int>, t: int, now: int)
    requires UpTo(s, t) && t <= now
    ensures UpTo(Pruned(s, now), now)
  {
    var kept := Pruned(s, now);
    assert forall i :: 0 <= i < |kept| ==> kept[i] == s[|s| - |kept| + i];
  }

  lemma SameLater(a: seq<int>, b: seq<int>, t: int, now: int)
    requires SameAfter(a, b, t) && t <= now
    ensures SameAfter(a, b, now)
  {
    hide CountAfter;
  }

  lemma {:induction false} StaysExact(m: Manager, es: seq<Event>)
    requires Clean(m, es)
    ensures Exact(m, After(m, es))
  {
    if es == [] {
    } else {
      var y, e := After(m, es[..|es| - 1]), es[|es| - 1];
      assert e in es;
      StaysExact(m, es[..|es| - 1]);
      if e.DoStart? && y.open && e.now >= y.clock {
        StartStaysExact(m, y, e.now, e.w);
      }
    }
  }

  /** As long as no write half-failed, a start is refused exactly when the hour before it is full. */
  lemma RefusedIffHourIsFull(m: Manager, es: seq<Event>, now: int)
    requires Clean(m, es)
    requires After(m, es).open && now >= After(m, es).clock
    ensures HasRoom(m, After(m, es), now) <==> CountAfter(After(m, es).admitted, now - HOUR) < m.limit
  {
    StaysExact(m, es);
    var y := After(m, es);
    hide After, CountAfter;
    PrunedRises(y.memory, now);
    PrunedCounts(y.memory, now, now - HOUR);
  }

  // ---------------------------------------------------------------------------
  // Exactly when the quota holds over every run
  // ---------------------------------------------------------------------------

  function Ones(n: nat): (s: seq<int>)
    ensures |s| == n && forall i :: 0 <= i < n ==> s[i] == 1
  {
    seq(n, _ => 1)
  }

  /** A first life that admits `n` workers at one moment. */
  function Filling(n: nat): seq<Event> { if n == 0 then [DoOpen] else Filling(n - 1) + [DoStart(1, Good)] }

  lemma Next(m: Manager, es: seq<Event>, e: Event)
    ensures After(m, es + [e]) == Apply(m, After(m, es), e)
  {
    assert (es + [e])[..|es|] == es;
  }

  /** One more start in a life that has admitted `n` and still has room. */
  lemma StartAgain(m: Manager, y: Sys, n: nat, w: Write)
    requires n < m.limit && y.open && y.memory == Ones(n) && y.clock <= 1
    ensures var y' := Apply(m, y, DoStart(1, w));
            && y'.open && y'.clock == 1
            && y'.file == (if m.durable && w != Lost then Ones(n + 1) else y.file)
            && (w == Good ==> y'.memory == Ones(n + 1) && y'.admitted == y.admitted + [1])
            && (w != Good && m.durable ==> y'.admitted == y.admitted)
  {
    assert Pruned(Ones(n), 1) == Ones(n);
    assert Ones(n) + [1] == Ones(n + 1);
  }

  /** The state of that first life. */
  function Filled(m: Manager, n: nat): Sys {
    Sys(true, Ones(n), if m.durable then Ones(n) else [], Ones(n), Min(n, 1))
  }

  lemma Opened(m: Manager)
    ensures After(m, [DoOpen]) == Filled(m, 0)
  {
    Next(m, [], DoOpen);
    assert [] + [DoOpen] == [DoOpen];
  }

  lemma FilledNext(m: Manager, n: nat)
    requires n < m.limit
    ensures Apply(m, Filled(m, n), DoStart(1, Good)) == Filled(m, n + 1)
  {
    StartAgain(m, Filled(m, n), n, Good);
    hide Apply;
    assert Ones(n) + [1] == Ones(n + 1);
  }

  lemma {:induction false} FirstLife(m: Manager, n: nat)
    requires n <= m.limit
    ensures After(m, Filling(n)) == Filled(m, n)
  {
    hide After, Apply, Filled;
    if n == 0 {
      Opened(m);
    } else {
      FirstLife(m, n - 1);
      Next(m, Filling(n - 1), DoStart(1, Good));
      FilledNext(m, n - 1);
    }
  }

  lemma {:induction false} OnesCount(n: nat)
    ensures CountHour(Ones(n), 0) == n && CountAfter(Ones(n), 1 - HOUR) == n
  {
    if n != 0 {
      OnesCount(n - 1);
      assert Ones(n)[..n - 1] == Ones(n - 1);
    }
  }

  /** A full hour, a restart, and one more worker in the same hour. */
  function Forgetting(m: Manager): seq<Event> { Filling(m.limit) + [DoCrash] + [DoOpen] + [DoStart(1, Good)] }

  lemma NothingIsOld(n: nat)
    ensures Pruned(Ones(n), 1) == Ones(n) && Ones(n) + [1] == Ones(n + 1) && Ones(0) == []
  {
  }

  /** A manager without a file forgets its admissions when its process ends: the quota is per process then. */
  lemma WithoutAFileRestartsForget(m: Manager)
    requires !m.durable && m.limit > 0
    ensures CountHour(After(m, Forgetting(m)).admitted, 0) == m.limit + 1
  {
    hide After, CountHour, Pruned, Ones;
    var es, n := Filling(m.limit), m.limit;
    FirstLife(m, n);
    OnesCount(n + 1);
    NothingIsOld(n);
    NothingIsOld(0);
    var y := Filled(m, n);
    var y1 := Apply(m, y, DoCrash);
    var y2 := Apply(m, y1, DoOpen);
    var y3 := Apply(m, y2, DoStart(1, Good));
    Next(m, es, DoCrash);
    Next(m, es + [DoCrash], DoOpen);
    Next(m, es + [DoCrash] + [DoOpen], DoStart(1, Good));
    assert After(m, Forgetting(m)) == y3;
    assert y2.open && y2.memory == Ones(0) && y2.admitted == Ones(n);
    assert y3.admitted == Ones(n + 1);
  }

  lemma {:induction false} NothingAdmitted(m: Manager, es: seq<Event>)
    requires m.limit == 0
    ensures After(m, es).admitted == []
  {
    if es != [] {
      NothingAdmitted(m, es[..|es| - 1]);
    }
  }

  /** The bound holds over every run, restarts included, if and only if there is a file, or nothing to admit. */
  lemma QuotaHoldsIff(m: Manager)
    ensures (forall es, x :: CountHour(After(m, es).admitted, x) <= m.limit) <==> m.durable || m.limit == 0
  {
    forall es, x | m.durable || m.limit == 0 ensures CountHour(After(m, es).admitted, x) <= m.limit {
      if m.durable {
        EveryHourWithinLimit(m, es, x);
      } else {
        NothingAdmitted(m, es);
      }
    }
    if !m.durable && m.limit > 0 {
      WithoutAFileRestartsForget(m);
    }
  }

  // ---------------------------------------------------------------------------
  // Exactly when nobody is refused without cause
  // ---------------------------------------------------------------------------

  /** All but one place taken, a write that fails after reaching the file, and a restart that reads it. */
  function Haunting(m: Manager): seq<Event>
    requires m.limit > 0
  {
    Filling(m.limit - 1) + [DoStart(1, Torn)] + [DoCrash] + [DoOpen]
  }

  /** A half-failed write counts after a restart: a start is refused although the hour holds fewer than the limit. */
  lemma HalfFailedWritesRefuse(m: Manager)
    requires m.durable && m.limit > 0
    ensures var y := After(m, Haunting(m));
            y.open && y.clock == 1 && !HasRoom(m, y, 1) && CountAfter(y.admitted, 1 - HOUR) == m.limit - 1
  {
    hide After, CountAfter, Pruned, Ones;
    var n := m.limit - 1;
    var es := Filling(n);
    FirstLife(m, n);
    OnesCount(n);
    NothingIsOld(n);
    NothingIsOld(n + 1);
    var y := Filled(m, n);
    var y1 := Apply(m, y, DoStart(1, Torn));
    var y2 := Apply(m, y1, DoCrash);
    var y3 := Apply(m, y2, DoOpen);
    StartAgain(m, y, n, Torn);
    hide Start;
    Next(m, es, DoStart(1, Torn));
    Next(m, es + [DoStart(1, Torn)], DoCrash);
    Next(m, es + [DoStart(1, Torn)] + [DoCrash], DoOpen);
    assert After(m, Haunting(m)) == y3;
    assert y3 == Sys(true, Ones(m.limit), Ones(m.limit), Ones(n), 1);
  }

  /** A refusal that the hour does not justify. */
  ghost predicate Unjust(m: Manager, es: seq<Event>, now: int) {
    var y := After(m, es);
    y.open && now >= y.clock && !HasRoom(m, y, now) && CountAfter(y.admitted, now - HOUR) < m.limit
  }

  /** Over all runs that forget nothing, nobody is refused without cause exactly when there is no file to haunt. */
  lemma NoUnjustRefusalIff(m: Manager)
    ensures (forall es, now :: Remembers(m, es) ==> !Unjust(m, es, now)) <==> !m.durable || m.limit == 0
  {
    if m.durable && m.limit > 0 {
      HalfFailedWritesRefuse(m);
      assert Remembers(m, Haunting(m)) && Unjust(m, Haunting(m), 1);
    } else {
      forall es, now | Remembers(m, es) ensures !Unjust(m, es, now) {
        if !m.durable && After(m, es).open && now >= After(m, es).clock {
          RefusedIffHourIsFull(m, es, now);
        }
      }
    }
  }
}
