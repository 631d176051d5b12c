/**
  The non-durable tool batch: consecutive safe reads overlap in bounded groups, everything else runs alone, and an
  abort inside one group keeps all later calls from starting. Results stay in input order.
 */
module IndexedBatch {
  datatype Code = Fine | CancelledByHandler | Panicked

  datatype Result = Pending | Ran(code: Code) | NeverRun

  predicate Aborts(c: Code) { c != Fine }

  /** Up to `limit` consecutive safe reads, or one call. */
  function GroupEnd(safe: seq<bool>, limit: nat, start: nat): (end: nat)
    requires start < |safe| && limit >= 1
    ensures start < end <= |safe| && end <= start + limit
    ensures !safe[start] ==> end == start + 1
    ensures end > start + 1 ==> forall k :: start <= k < end ==> safe[k]
    ensures safe[start] ==> end == |safe| || end == start + limit || !safe[end]
  {
    if safe[start] then SafeFrom(safe, limit, start, start + 1) else start + 1
  }

  function SafeFrom(safe: seq<bool>, limit: nat, start: nat, end: nat): (e: nat)
    requires start < end <= |safe| && end <= start + limit && forall k :: start <= k < end ==> safe[k]
    ensures end <= e <= |safe| && e <= start + limit && forall k :: start <= k < e ==> safe[k]
    ensures e < |safe| && e < start + limit ==> !safe[e]
    decreases |safe| - end
  {
    if end < |safe| && end - start < limit && safe[end] then SafeFrom(safe, limit, start, end + 1) else end
  }

  predicate AbortsIn(code: seq<Code>, lo: nat, hi: nat)
    requires lo <= hi <= |code|
  {
    exists k :: lo <= k < hi && Aborts(code[k])
  }

  /**
    How many calls start: `stop[i]` says that the batch's own context is done when group `i` is about to start, and
    `code` what each call would report.
   */
  function Started(safe: seq<bool>, limit: nat, stop: seq<bool>, code: seq<Code>, i: nat): (n: nat)
    requires |safe| == |stop| == |code| && limit >= 1 && i <= |safe|
    ensures i <= n <= |safe|
    decreases |safe| - i
  {
    if i == |safe| || stop[i] then i
    else
      var end := GroupEnd(safe, limit, i);
      if AbortsIn(code, i, end) then end else Started(safe, limit, stop, code, end)
  }

  method FindGroupEnd(safe: seq<bool>, limit: nat, start: nat) returns (end: nat)
    requires start < |safe| && limit >= 1
    ensures end == GroupEnd(safe, limit, start)
  {
    end := start + 1;
    if safe[start] {
      while end < |safe| && end - start < limit && safe[end]
        invariant start < end <= |safe| && end <= start + limit
        invariant forall k :: start <= k < end ==> safe[k]
        invariant GroupEnd(safe, limit, start) == SafeFrom(safe, limit, start, end)
        decreases |safe| - end
      {
        end := end + 1;
      }
    }
  }

  method RunIndexedBatch(safe: seq<bool>, requested: int, stop: seq<bool>, code: seq<Code>)
    returns (results: seq<Result>)
    requires |safe| == |stop| == |code|
    ensures var n := Started(safe, if requested < 1 then 1 else requested, stop, code, 0);
            && |results| == |safe|
            && forall j :: 0 <= j < |safe| ==> results[j] == if j < n then Ran(code[j]) else NeverRun
  {
    hide GroupEnd;
    var limit: nat := if requested < 1 then 1 else requested;
    results := seq(|safe|, _ => Pending);
    var i := 0;
    while i < |safe|
      invariant 0 <= i <= |safe| == |results|
      invariant forall j :: 0 <= j < i ==> results[j] == Ran(code[j])
      invariant Started(safe, limit, stop, code, i) == Started(safe, limit, stop, code, 0)
    {
      if stop[i] {
        results := results[..i] + seq(|safe| - i, _ => NeverRun);
        break;
      }
      var end := FindGroupEnd(safe, limit, i);
      // Every member of the group runs, in any order, into its own slot; the group is joined before going on.
      var aborted := false;
      var j := i;
      while j < end
        invariant i <= j <= end && |results| == |safe|
        invariant forall k :: 0 <= k < j ==> results[k] == Ran(code[k])
        invariant aborted <==> AbortsIn(code, i, j)
      {
        results := results[j := Ran(code[j])];
        if code[j] == CancelledByHandler || code[j] == Panicked {
          aborted := true;
        }
        j := j + 1;
      }
      if aborted {
        results := results[..end] + seq(|safe| - end, _ => NeverRun);
        break;
      }
      i := end;
    }
  }

  /** Whatever runs beside an aborted call shares its group of safe reads; nothing in a later group starts. */
  lemma {:induction false} NothingStartsAfterAnAbort(safe: seq<bool>, limit: nat, stop: seq<bool>, code: seq<Code>,
                                                    i: nat, a: nat, b: nat)
    requires |safe| == |stop| == |code| && limit >= 1 && i <= |safe|
    requires i <= a < b < Started(safe, limit, stop, code, i)
    requires code[a] == CancelledByHandler || code[a] == Panicked
    ensures b < a + limit && forall k :: a <= k <= b ==> safe[k]
    decreases |safe| - i
  {
    var end := GroupEnd(safe, limit, i);
    if a >= end {
      NothingStartsAfterAnAbort(safe, limit, stop, code, end, a, b);
    }
  }

  /**
    A call that is not a safe read is a barrier: whatever ran before it had reported, without abort, before it
    started.
   */
  lemma {:induction false} BarriersWait(safe: seq<bool>, limit: nat, stop: seq<bool>, code: seq<Code>, i: nat,
                                        a: nat, b: nat)
    requires |safe| == |stop| == |code| && limit >= 1 && i <= |safe|
    requires i <= a < b < Started(safe, limit, stop, code, i)
    requires !safe[b] || !safe[a]
    ensures code[a] == Fine
  {
    if Aborts(code[a]) {
      NothingStartsAfterAnAbort(safe, limit, stop, code, i, a, b);
    }
  }

  /** A batch is cut short only for cause: its context was done before the next call, or the group before it aborted. */
  lemma {:induction false} CutShortForCause(safe: seq<bool>, limit: nat, stop: seq<bool>, code: seq<Code>, i: nat)
    requires |safe| == |stop| == |code| && limit >= 1 && i <= |safe|
    ensures var n := Started(safe, limit, stop, code, i);
            n < |safe| ==> stop[n] || exists k :: i <= k < n <= k + limit && code[k] != Fine
    decreases |safe| - i
  {
    if i < |safe| && !stop[i] {
      var end := GroupEnd(safe, limit, i);
      if AbortsIn(code, i, end) {
        var k :| i <= k < end && Aborts(code[k]);
        assert end <= k + limit;
      } else {
        CutShortForCause(safe, limit, stop, code, end);
      }
    }
  }
}
