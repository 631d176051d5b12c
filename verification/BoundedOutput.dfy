/** A bounded output buffer that keeps the beginning and the end of a stream. Strings stand for byte strings. */
module BoundedOutput {
  import opened Common

  const MARKER := "\n[output truncated: middle omitted; exit status is unchanged]\n"

  function Half(limit: nat): nat { limit / 2 }

  /** What is left of the first half of the limit. */
  function Head(limit: nat, stream: string): string { stream[..Min(Half(limit), |stream|)] }

  function Rest(limit: nat, stream: string): string { stream[Min(Half(limit), |stream|)..] }

  function Last(n: nat, s: string): string { s[|s| - Min(n, |s|)..] }

  function Tail(limit: nat, stream: string): string { Last(limit - Half(limit), Rest(limit, stream)) }

  /** The text handed out and the number of bytes it leaves out; none when a slice bound would be violated. */
  function Snapshot(limit: nat, stream: string): Option<(string, nat)> {
    if |stream| <= limit then Some((stream, 0))
    else if limit < |MARKER| then None
    else
      var room := limit - |MARKER|;
      var head := room / 2;
      var tail := room - head;
      Some((stream[..head] + MARKER + stream[|stream| - tail..], |stream| - room))
  }

  class Buffer {
    const limit: nat
    var head: string
    var tail: string
    var seen: nat
    ghost var stream: string

    ghost predicate Valid()
      reads this
    {
      seen == |stream| && head == Head(limit, stream) && tail == Tail(limit, stream)
    }

    constructor (limit: nat)
      ensures this.limit == limit && Valid() && stream == ""
    {
      this.limit := limit;
      head, tail, seen, stream := "", "", 0, "";
    }

    method Write(p: string) returns (n: nat)
      requires Valid()
      modifies this
      ensures Valid() && stream == old(stream) + p && n == |p|
    {
      hide Head, Rest, Last;
      HeadGrows(limit, stream, p);
      n := |p|;
      seen := seen + n;
      var half := limit / 2;
      var rest := p;
      if |head| < half {
        var take := Min(half - |head|, |p|);
        head := head + p[..take];
        rest := p[take..];
      } else {
        assert head + p[..0] == head && p[0..] == p;
      }
      assert head == Head(limit, stream + p) && Rest(limit, stream + p) == Rest(limit, stream) + rest;
      var tailLimit := limit - half;
      LastGrows(tailLimit, Rest(limit, stream), rest);
      if |rest| >= tailLimit {
        tail := rest[|rest| - tailLimit..];
      } else if |tail| + |rest| > tailLimit {
        var remove := |tail| + |rest| - tailLimit;
        tail := tail[remove..] + rest;
      } else {
        tail := tail + rest;
      }
      stream := stream + p;
    }

    /** Go's slice expressions panic out of range; its division truncates toward zero. */
    method TakeSnapshot() returns (r: Option<(string, nat)>)
      requires Valid()
      ensures r == Snapshot(limit, stream)
    {
      if seen <= limit {
        assert head + tail == stream;
        return Some((head + tail, 0));
      }
      var room := limit - |MARKER|;
      var headSize := if room >= 0 then room / 2 else -(-room / 2);
      var tailSize := room - headSize;
      if !(0 <= headSize <= |head| && 0 <= |tail| - tailSize <= |tail|) {
        return None;
      }
      assert head[..headSize] == stream[..headSize];
      assert tail[|tail| - tailSize..] == stream[|stream| - tailSize..];
      return Some((head[..headSize] + MARKER + tail[|tail| - tailSize..], seen - (headSize + tailSize)));
    }
  }

  /** The part of a write that goes past the head. */
  lemma HeadGrows(limit: nat, stream: string, p: string)
    ensures var head := Head(limit, stream);
            var take := if |head| < Half(limit) then Min(Half(limit) - |head|, |p|) else 0;
            && Head(limit, stream + p) == head + p[..take]
            && Rest(limit, stream + p) == Rest(limit, stream) + p[take..]
  {
  }

  /** Keeping the last `n` bytes of a growing string. */
  lemma LastGrows(n: nat, s: string, p: string)
    ensures var kept := Last(n, s);
            Last(n, s + p) ==
              if |p| >= n then p[|p| - n..]
              else if |kept| + |p| > n then kept[|kept| + |p| - n..] + p
              else kept + p
  {
  }

  function Concat(writes: seq<string>): string {
    if writes == [] then "" else Concat(writes[..|writes| - 1]) + writes[|writes| - 1]
  }

  /** However a stream is split into writes, the snapshot is that of the whole stream. */
  method WriteAll(limit: nat, writes: seq<string>) returns (r: Option<(string, nat)>)
    ensures r == Snapshot(limit, Concat(writes))
  {
    hide Snapshot, Head, Tail;
    var b := new Buffer(limit);
    var i := 0;
    while i < |writes|
      invariant 0 <= i <= |writes|
      invariant fresh(b) && b.limit == limit && b.Valid() && b.stream == Concat(writes[..i])
      modifies b
    {
      assert writes[..i + 1][..i] == writes[..i];
      var _ := b.Write(writes[i]);
      i := i + 1;
    }
    assert writes[..i] == writes;
    r := b.TakeSnapshot();
  }

  /**
    What a snapshot is: the whole stream if it fits; otherwise a prefix and a suffix of it around the marker, of
    total length exactly the limit, with every byte accounted for as kept or dropped.
   */
  lemma SnapshotMeaning(limit: nat, stream: string)
    requires Snapshot(limit, stream).Some?
    ensures var (text, dropped) := Snapshot(limit, stream).value;
            && |text| <= limit
            && (|stream| <= limit ==> text == stream && dropped == 0)
            && (|stream| > limit ==>
                  exists a, b ::
                    && 0 <= a <= b <= |stream| && text == stream[..a] + MARKER + stream[b..]
                    && |text| == limit && dropped == b - a > 0 && (a == |stream| - b || a + 1 == |stream| - b))
  {
    if |stream| > limit {
      var room := limit - |MARKER|;
      var a, b := room / 2, |stream| - (room - room / 2);
      var (text, dropped) := Snapshot(limit, stream).value;
      assert text == stream[..a] + MARKER + stream[b..] && dropped == b - a;
    }
  }

  /** A snapshot fails exactly when the stream is too long for a limit too short for the marker. */
  lemma SnapshotPanicsIff(limit: nat, stream: string)
    ensures Snapshot(limit, stream).None? <==> limit < |MARKER| && |stream| > limit
  {
  }
}
