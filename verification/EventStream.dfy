/**
  Server-sent event streams, as in sections 9.2.5 and 9.2.6 of the WHATWG HTML standard: a line scanner over
  arbitrary reads, and events that count only once their blank line has arrived. Strings stand for byte strings.
 */
module EventStream {
  import opened Common

  /** A line and its terminator, and the data of one event, must fit here. */
  const MAX_EVENT := 0x40_0000

  const BOM := "\U{EF}\U{BB}\U{BF}"

  datatype StreamError = LineTooLong | EventTooLong | Unterminated

  /** Events delivered so far, in order, and how the stream ended. */
  datatype Outcome = Outcome(events: seq<string>, error: Option<StreamError>)

  // ---------------------------------------------------------------------------
  // Lines
  // ---------------------------------------------------------------------------

  predicate IsEnd(c: char) { c == '\n' || c == '\r' }

  /** Where the first line terminator is, or the length. */
  function LineLength(s: string): (i: nat)
    ensures i <= |s| && (i < |s| ==> IsEnd(s[i]))
    ensures forall k :: 0 <= k < i ==> !IsEnd(s[k])
  {
    if s == "" || IsEnd(s[0]) then 0 else 1 + LineLength(s[1..])
  }

  /** The line with its terminator: CR LF is one. */
  function Advance(s: string): (n: nat)
    ensures n <= |s| && (s != "" ==> n > 0)
  {
    var i := LineLength(s);
    if i == |s| then i
    else if s[i] == '\r' && i + 1 < |s| && s[i + 1] == '\n' then i + 2
    else i + 1
  }

  /** One step of the scanner over the bytes it has: the bytes consumed and the line, or a wish for more. */
  function EventLine(data: string, atEof: bool): Option<(nat, string)> {
    var i := LineLength(data);
    if i < |data| then
      if data[i] == '\r' && i + 1 == |data| && !atEof then None else Some((Advance(data), data[..i]))
    else if atEof && data != "" then Some((|data|, data))
    else None
  }

  method SplitLine(data: string, atEof: bool) returns (r: Option<(nat, string)>)
    ensures r == EventLine(data, atEof)
  {
    var i := 0;
    while i < |data|
      invariant 0 <= i <= |data|
      invariant forall k :: 0 <= k < i ==> !IsEnd(data[k])
    {
      if data[i] == '\n' {
        LineLengthIs(data, i);
        return Some((i + 1, data[..i]));
      }
      if data[i] == '\r' {
        LineLengthIs(data, i);
        if i + 1 == |data| && !atEof {
          return None;
        }
        var n := i + 1;
        if n < |data| && data[n] == '\n' {
          n := n + 1;
        }
        return Some((n, data[..i]));
      }
      i := i + 1;
    }
    LineLengthIs(data, |data|);
    if atEof && |data| > 0 {
      return Some((|data|, data));
    }
    return None;
  }

  lemma LineLengthIs(s: string, i: nat)
    requires i <= |s| && (i < |s| ==> IsEnd(s[i])) && forall k :: 0 <= k < i ==> !IsEnd(s[k])
    ensures LineLength(s) == i
  {
  }

  /** The bytes that must be buffered before the first line of `s` is certain. */
  function Needs(s: string): nat {
    var i := LineLength(s);
    if i < |s| && s[i] == '\n' then i + 1 else if i < |s| then i + 2 else i + 1
  }

  /** The room that takes: learning of the end along with the last bytes spares the byte that would not come. */
  function Room(s: string, joint: bool): nat { if joint && Needs(s) > |s| then |s| else Needs(s) }

  // ---------------------------------------------------------------------------
  // Events
  // ---------------------------------------------------------------------------

  datatype Parser = Parser(first: bool, payload: string, events: seq<string>)

  const FRESH := Parser(true, "", [])

  function TrimPrefix(s: string, prefix: string): string { if prefix <= s then s[|prefix|..] else s }

  function ColonAt(s: string): (i: nat)
    ensures i <= |s| && (i < |s| ==> s[i] == ':') && forall k :: 0 <= k < i ==> s[k] != ':'
  {
    if s == "" || s[0] == ':' then 0 else 1 + ColonAt(s[1..])
  }

  /** The value of a `data` field, without one leading space; other fields and comments have none. */
  function DataOf(line: string): Option<string> {
    var i := ColonAt(line);
    if line[..i] != "data" then None
    else Some(TrimPrefix(if i < |line| then line[i + 1..] else "", " "))
  }

  /** A blank line delivers what was collected, except the end marker some providers send. */
  function Blank(p: Parser): Parser {
    if p.payload == "" then p
    else
      var data := p.payload[..|p.payload| - 1];
      p.(payload := "", events := if data == "[DONE]" then p.events else p.events + [data])
  }

  function Feed(p: Parser, raw: string): Result<Parser, StreamError> {
    var line := if p.first then TrimPrefix(raw, BOM) else raw;
    var q := p.(first := false);
    if line == "" then Ok(Blank(q))
    else
      match DataOf(line)
      case None => Ok(q)
      case Some(value) =>
        if |q.payload| + |value| + 1 > MAX_EVENT then Err(EventTooLong)
        else Ok(q.(payload := q.payload + value + "\n"))
  }

  /** The stream as one string. `joint` says that the read with its last bytes reports its end as well. */
  function Parse(joint: bool, p: Parser, s: string): Outcome
    decreases |s|
  {
    if s == "" then Outcome(p.events, if p.payload == "" then None else Some(Unterminated))
    else if Room(s, joint) > MAX_EVENT then Outcome(p.events, Some(LineTooLong))
    else
      var fed := Feed(p, s[..LineLength(s)]);
      if fed.Err? then Outcome(p.events, Some(fed.error)) else Parse(joint, fed.value, s[Advance(s)..])
  }

  // ---------------------------------------------------------------------------
  // The loop over reads
  // ---------------------------------------------------------------------------

  /** With some of the stream in hand, a found line is the stream's first line. */
  lemma FoundIsFirst(data: string, more: string)
    requires EventLine(data, false).Some?
    ensures data + more != "" && LineLength(data + more) == LineLength(data) && Advance(data + more) == Advance(data)
    ensures EventLine(data, false).value == (Advance(data + more), (data + more)[..LineLength(data + more)])
    ensures Needs(data + more) <= |data|
  {
    var i := LineLength(data);
    LineLengthIs(data + more, i);
    assert (data + more)[..i] == data[..i];
  }

  /** With none found, more is needed than is in hand. */
  lemma NotFoundNeedsMore(data: string, more: string)
    requires EventLine(data, false).None?
    ensures Needs(data + more) > |data|
  {
    var i := LineLength(data);
    if i < |data| {
      LineLengthIs(data + more, i);
    } else {
      assert forall k :: 0 <= k < |data| ==> (data + more)[k] == data[k];
    }
  }

  /**
    Scans the stream through a buffer of `MAX_EVENT` bytes that reads of arbitrary sizes fill; a read brings at
    least one byte until the stream ends. Of the reads the outcome mentions only whether the last reports the end.
   */
  method ReadEventStream(stream: string, chunks: seq<nat>, joint: bool) returns (r: Outcome)
    ensures r == Parse(joint, FRESH, stream)
  {
    hide Feed, Parse, EventLine, Needs, Room, LineLength, Advance;
    var p := FRESH;
    var pos, end, k, eof := 0, 0, 0, false;
    assert stream[0..] == stream;
    while true
      invariant 0 <= pos <= end <= |stream| && end - pos <= MAX_EVENT
      invariant eof ==> end == |stream| && (joint || end - pos < MAX_EVENT)
      invariant joint && end == |stream| ==> eof || stream == ""
      invariant Parse(joint, p, stream[pos..]) == Parse(joint, FRESH, stream)
      decreases |stream| - pos, |stream| - end, !eof
    {
      var data := stream[pos..end];
      var t := SplitLine(data, eof);
      assert stream[pos..] == data + stream[end..];
      if t.Some? {
        SplitIsFirst(data, stream[end..], eof, joint);
        ParseUnfolds(joint, p, stream[pos..]);
        var q := Feed(p, t.value.1);
        if q.Err? {
          return Outcome(p.events, Some(q.error));
        }
        p := q.value;
        assert stream[pos..][t.value.0..] == stream[pos + t.value.0..];
        pos := pos + t.value.0;
      } else if eof {
        NothingLeft(data);
        ParseUnfolds(joint, p, stream[pos..]);
        assert stream[pos..] == "";
        return Outcome(p.events, if p.payload == "" then None else Some(Unterminated));
      } else if end - pos == MAX_EVENT {
        FullNeedsMore(data, stream[end..], joint);
        ParseUnfolds(joint, p, stream[pos..]);
        return Outcome(p.events, Some(LineTooLong));
      } else if end == |stream| {
        eof := true;
      } else {
        var room := MAX_EVENT - (end - pos);
        var size := if k < |chunks| then chunks[k] + 1 else room;
        k := k + 1;
        size := if size < room then size else room;
        end := if end + size < |stream| then end + size else |stream|;
        eof := joint && end == |stream|;
      }
    }
  }

  /** A full buffer without a line, and without the end, has no room for the line. */
  lemma FullNeedsMore(data: string, more: string, joint: bool)
    requires EventLine(data, false).None? && |data| == MAX_EVENT && (joint ==> more != "")
    ensures data + more != "" && Room(data + more, joint) > MAX_EVENT
  {
    NotFoundNeedsMore(data, more);
  }

  lemma ParseUnfolds(joint: bool, p: Parser, s: string)
    ensures s == "" ==> Parse(joint, p, s) == Outcome(p.events, if p.payload == "" then None else Some(Unterminated))
    ensures s != "" && Room(s, joint) > MAX_EVENT ==> Parse(joint, p, s) == Outcome(p.events, Some(LineTooLong))
    ensures s != "" && Room(s, joint) <= MAX_EVENT ==>
              Parse(joint, p, s) == (var fed := Feed(p, s[..LineLength(s)]);
                                     if fed.Err? then Outcome(p.events, Some(fed.error))
                                     else Parse(joint, fed.value, s[Advance(s)..]))
  {
    hide Feed, Room, LineLength, Advance;
  }

  /** What a split found is the first line of all that is to come, and was buffered in time. */
  lemma SplitIsFirst(data: string, more: string, eof: bool, joint: bool)
    requires EventLine(data, eof).Some? && |data| <= MAX_EVENT && (eof ==> more == "" && (joint || |data| < MAX_EVENT))
    ensures data + more != "" && Room(data + more, joint) <= MAX_EVENT
    ensures EventLine(data, eof).value == (Advance(data + more), (data + more)[..LineLength(data + more)])
    ensures 0 < Advance(data + more) <= |data|
  {
    if eof {
      assert data + more == data;
    } else {
      FoundIsFirst(data, more);
    }
  }

  lemma NothingLeft(data: string)
    requires EventLine(data, true).None?
    ensures data == ""
  {
  }

  /** The last line, as it is parsed, is without a sure end and exactly as long as the buffer. */
  ghost predicate Brim(p: Parser, s: string)
    decreases |s|
  {
    s != "" &&
    if Needs(s) > MAX_EVENT then Needs(s) > |s| && |s| == MAX_EVENT
    else Feed(p, s[..LineLength(s)]).Ok? && Brim(Feed(p, s[..LineLength(s)]).value, s[Advance(s)..])
  }

  /** How the end is reported matters in one case only: a last line that fills the buffer to the brim. */
  lemma {:induction false} JointEndMattersIff(p: Parser, s: string)
    ensures Parse(true, p, s) != Parse(false, p, s) <==> Brim(p, s)
    decreases |s|
  {
    hide Feed, LineLength, Advance, Needs;
    if s != "" {
      RoomIs(s);
      ParseUnfolds(true, p, s);
      ParseUnfolds(false, p, s);
      var fed := Feed(p, s[..LineLength(s)]);
      if Needs(s) <= MAX_EVENT && fed.Ok? {
        JointEndMattersIff(fed.value, s[Advance(s)..]);
      } else if Needs(s) > MAX_EVENT && Room(s, true) <= MAX_EVENT {
        WholeIsConsumed(s);
        if fed.Ok? {
          ParseEmpty(true, fed.value);
        }
        FeedKnowsItsErrors(p, s[..LineLength(s)]);
      }
    }
  }

  lemma RoomIs(s: string)
    ensures Room(s, false) == Needs(s) && Needs(s) <= |s| + 1
    ensures Room(s, true) == if Needs(s) > |s| then |s| else Needs(s)
  {
  }

  lemma WholeIsConsumed(s: string)
    requires Needs(s) > |s|
    ensures s[Advance(s)..] == ""
  {
  }

  lemma FeedKnowsItsErrors(p: Parser, raw: string)
    ensures Feed(p, raw).Err? ==> Feed(p, raw).error == EventTooLong
  {
    hide DataOf;
  }

  // ---------------------------------------------------------------------------
  // Parsing inverts printing
  // ---------------------------------------------------------------------------

  datatype Eol = LF | CRLF | CR

  function End(e: Eol): string {
    match e
    case LF => "\n"
    case CRLF => "\r\n"
    case CR => "\r"
  }

  predicate NoBreak(s: string) { forall k :: 0 <= k < |s| ==> !IsEnd(s[k]) }

  /** The text after a terminator does not extend it: only a lone CR could be extended, by an LF. */
  predicate Separate(e: Eol, tail: string) { e == CR ==> tail == "" || tail[0] != '\n' }

  lemma LineThenEnd(line: string, e: Eol, tail: string)
    requires NoBreak(line) && Separate(e, tail)
    ensures var s := line + End(e) + tail;
            && LineLength(s) == |line| && Advance(s) == |line| + |End(e)| && s != ""
            && s[..LineLength(s)] == line && s[Advance(s)..] == tail && Needs(s) <= |line| + 2
  {
    var s := line + End(e) + tail;
    assert s[|line|] == End(e)[0];
    LineLengthIs(s, |line|);
    if e == CRLF {
      assert s[|line| + 1] == '\n';
    } else if e == CR && tail != "" {
      assert s[|line| + 1] == tail[0];
    }
  }

  /** One complete line is fed, and parsing goes on behind it. */
  lemma ParseLine(joint: bool, p: Parser, line: string, e: Eol, tail: string)
    requires NoBreak(line) && Separate(e, tail) && |line| + 2 <= MAX_EVENT && Feed(p, line).Ok?
    ensures Parse(joint, p, line + End(e) + tail) == Parse(joint, Feed(p, line).value, tail)
  {
    hide Feed, Needs, LineLength, Advance, Parse;
    LineThenEnd(line, e, tail);
    ParseUnfolds(joint, p, line + End(e) + tail);
  }

  function DataLine(part: string): string { "data: " + part }

  lemma DataLineMeans(part: string)
    ensures DataOf(DataLine(part)) == Some(part) && DataLine(part) != ""
              && TrimPrefix(DataLine(part), BOM) == DataLine(part)
  {
    var line := DataLine(part);
    assert line[..4] == "data" && line[4] == ':';
    ColonIs(line, 4);
    assert line[5..] == " " + part;
    assert line[0] != BOM[0];
  }

  lemma ColonIs(s: string, i: nat)
    requires i <= |s| && (i < |s| ==> s[i] == ':') && forall k :: 0 <= k < i ==> s[k] != ':'
    ensures ColonAt(s) == i
  {
  }

  lemma FeedData(p: Parser, part: string)
    requires |p.payload| + |part| + 1 <= MAX_EVENT
    ensures Feed(p, DataLine(part)) == Ok(p.(first := false, payload := p.payload + part + "\n"))
  {
    hide DataOf, DataLine, TrimPrefix;
    DataLineMeans(part);
  }

  /** Where the first LF of a payload is, or its length. */
  function PartLength(s: string): (i: nat)
    ensures i <= |s| && (i < |s| ==> s[i] == '\n') && forall k :: 0 <= k < i ==> s[k] != '\n'
  {
    if s == "" || s[0] == '\n' then 0 else 1 + PartLength(s[1..])
  }

  /** A payload as data lines, one per LF-separated part. */
  function Body(payload: string, e: Eol): string
    decreases |payload|
  {
    var i := PartLength(payload);
    DataLine(payload[..i]) + End(e) + if i < |payload| then Body(payload[i + 1..], e) else ""
  }

  function Print(payloads: seq<string>, e: Eol): string {
    if payloads == [] then "" else Body(payloads[0], e) + End(e) + Print(payloads[1..], e)
  }

  /** No CR inside, and no line or event beyond the limit. */
  predicate Printable(payload: string) {
    (forall k :: 0 <= k < |payload| ==> payload[k] != '\r') && |payload| + 8 <= MAX_EVENT
  }

  /** What reaches the handler. */
  function Delivered(payloads: seq<string>): seq<string> {
    if payloads == [] then []
    else (if payloads[0] == "[DONE]" then [] else [payloads[0]]) + Delivered(payloads[1..])
  }

  lemma BodyStarts(payload: string, e: Eol)
    ensures |Body(payload, e)| > 0 && Body(payload, e)[0] == 'd'
  {
    var i := PartLength(payload);
    assert DataLine(payload[..i])[0] == 'd';
  }

  function Others(payload: string, e: Eol): string {
    var i := PartLength(payload);
    if i < |payload| then Body(payload[i + 1..], e) else ""
  }

  function Collected(p: Parser, part: string): Parser { p.(first := false, payload := p.payload + part + "\n") }

  /** The first data line of a payload. */
  lemma ParsePart(joint: bool, p: Parser, payload: string, e: Eol, tail: string)
    requires (forall k :: 0 <= k < |payload| ==> payload[k] != '\r')
    requires |p.payload| + |payload| + 8 <= MAX_EVENT && Separate(e, tail)
    ensures var part := payload[..PartLength(payload)];
            Parse(joint, p, DataLine(part) + End(e) + tail) == Parse(joint, Collected(p, part), tail)
  {
    var part := payload[..PartLength(payload)];
    hide Parse, DataLine, End, Feed, Separate;
    DataLineIsOneLine(part);
    FeedData(p, part);
    ParseLine(joint, p, DataLine(part), e, tail);
  }

  lemma OthersAreSeparate(payload: string, e: Eol, tail: string)
    requires Separate(e, tail)
    ensures Separate(e, Others(payload, e) + tail)
  {
    if PartLength(payload) < |payload| {
      BodyStarts(payload[PartLength(payload) + 1..], e);
    } else {
      assert "" + tail == tail;
    }
  }

  lemma PartsOf(payload: string, e: Eol)
    ensures var i := PartLength(payload);
            && Body(payload, e) == DataLine(payload[..i]) + End(e) + Others(payload, e)
            && (i == |payload| ==> payload[..i] == payload && Others(payload, e) == "")
            && (i < |payload| ==> payload == payload[..i] + "\n" + payload[i + 1..]
                                  && Others(payload, e) == Body(payload[i + 1..], e)
                                  && |payload[i + 1..]| == |payload| - i - 1)
  {
    hide DataLine, End;
  }

  /** The data lines of one payload collect exactly that payload and a final LF. */
  lemma {:induction false} ParseBody(joint: bool, p: Parser, payload: string, e: Eol, tail: string)
    requires (forall k :: 0 <= k < |payload| ==> payload[k] != '\r') && Separate(e, tail)
    requires |p.payload| + |payload| + 8 <= MAX_EVENT
    ensures Parse(joint, p, Body(payload, e) + tail) == Parse(joint, Collected(p, payload), tail)
    decreases |payload|
  {
    hide Parse, DataLine, End, Body, Others, Separate;
    var i := PartLength(payload);
    PartsOf(payload, e);
    OthersAreSeparate(payload, e, tail);
    ParsePart(joint, p, payload, e, Others(payload, e) + tail);
    assert Body(payload, e) + tail == DataLine(payload[..i]) + End(e) + (Others(payload, e) + tail);
    if i < |payload| {
      ParseBody(joint, Collected(p, payload[..i]), payload[i + 1..], e, tail);
      assert p.payload + payload[..i] + "\n" + payload[i + 1..] == p.payload + payload;
    } else {
      assert "" + tail == tail;
    }
  }

  lemma DataLineIsOneLine(part: string)
    requires forall k :: 0 <= k < |part| ==> !IsEnd(part[k])
    ensures NoBreak(DataLine(part)) && |DataLine(part)| == 6 + |part|
  {
    var line := DataLine(part);
    forall k | 0 <= k < |line| ensures !IsEnd(line[k]) {
      if k >= 6 {
        assert line[k] == part[k - 6];
      }
    }
  }

  /** The blank line delivers it. */
  lemma ParseBlank(joint: bool, p: Parser, payload: string, e: Eol, tail: string)
    requires !p.first && p.payload == payload + "\n" && Separate(e, tail)
    ensures Parse(joint, p, End(e) + tail) == Parse(joint, Parser(false, "", p.events + Delivered([payload])), tail)
  {
    hide Parse, End;
    assert "" + End(e) + tail == End(e) + tail;
    assert p.payload[..|p.payload| - 1] == payload;
    assert Delivered([payload]) == if payload == "[DONE]" then [] else [payload] by {
      assert [payload][1..] == [];
    }
    assert p.events + [] == p.events;
    ParseLine(joint, p, "", e, tail);
  }

  lemma PrintStarts(payloads: seq<string>, e: Eol)
    ensures Print(payloads, e) != "" ==> Print(payloads, e)[0] == 'd'
  {
    if payloads != [] {
      BodyStarts(payloads[0], e);
    }
  }

  lemma PrintUnfolds(payloads: seq<string>, e: Eol)
    requires payloads != []
    ensures Print(payloads, e) == Body(payloads[0], e) + End(e) + Print(payloads[1..], e)
    ensures Delivered(payloads) == Delivered([payloads[0]]) + Delivered(payloads[1..])
  {
    hide Body, End;
    assert [payloads[0]][1..] == [];
  }

  lemma PrintIsSeparate(payloads: seq<string>, e: Eol, tail: string)
    requires Separate(e, tail)
    ensures Separate(e, Print(payloads, e) + tail)
  {
    PrintStarts(payloads, e);
    hide Print;
    if Print(payloads, e) == "" {
      assert Print(payloads, e) + tail == tail;
    }
  }

  /** One payload, its lines and its blank line. */
  lemma ParseOne(joint: bool, p: Parser, payload: string, e: Eol, tail: string)
    requires p.payload == "" && Separate(e, tail) && Printable(payload)
    ensures Parse(joint, p, Body(payload, e) + (End(e) + tail)) ==
            Parse(joint, Parser(false, "", p.events + Delivered([payload])), tail)
  {
    EndIsSeparate(e, tail);
    hide Parse, Body, End, Separate, Delivered;
    ParseBody(joint, p, payload, e, End(e) + tail);
    assert "" + payload == payload;
    ParseBlank(joint, Collected(p, payload), payload, e, tail);
  }

  lemma {:induction false} ParsePrint(joint: bool, p: Parser, payloads: seq<string>, e: Eol, tail: string)
    requires p.payload == "" && Separate(e, tail) && forall k :: 0 <= k < |payloads| ==> Printable(payloads[k])
    ensures Parse(joint, p, Print(payloads, e) + tail) ==
            Parse(joint, Parser(p.first && payloads == [], "", p.events + Delivered(payloads)), tail)
    decreases |payloads|
  {
    hide Parse, Body, End, Print, Delivered, Separate, Printable;
    if payloads == [] {
      NothingPrinted(e);
      assert "" + tail == tail && p.events + [] == p.events;
    } else {
      var one, rest := payloads[0], payloads[1..];
      PrintUnfolds(payloads, e);
      PrintIsSeparate(rest, e, tail);
      ParseOne(joint, p, one, e, Print(rest, e) + tail);
      assert Print(payloads, e) + tail == Body(one, e) + (End(e) + (Print(rest, e) + tail));
      ParsePrint(joint, Parser(false, "", p.events + Delivered([one])), rest, e, tail);
      assert p.events + Delivered([one]) + Delivered(rest) == p.events + Delivered(payloads);
    }
  }

  lemma NothingPrinted(e: Eol)
    ensures Print([], e) == "" && Delivered([]) == []
  {
  }

  /** A blank line's terminator does not extend the terminator before it. */
  lemma EndIsSeparate(e: Eol, tail: string)
    ensures Separate(e, End(e) + tail)
  {
  }

  /**
    Any list of payloads without CR, printed with one style of line ending, is read back exactly, without the end
    markers, whatever the reads.
   */
  lemma ParseInvertsPrint(joint: bool, payloads: seq<string>, e: Eol)
    requires forall k :: 0 <= k < |payloads| ==> Printable(payloads[k])
    ensures Parse(joint, FRESH, Print(payloads, e)) == Outcome(Delivered(payloads), None)
  {
    hide Print, Delivered, Printable;
    ParsePrint(joint, FRESH, payloads, e, "");
    assert Print(payloads, e) + "" == Print(payloads, e);
    assert [] + Delivered(payloads) == Delivered(payloads);
  }

  // ---------------------------------------------------------------------------
  // An unterminated event is never delivered
  // ---------------------------------------------------------------------------

  lemma ParseEmpty(joint: bool, p: Parser)
    ensures Parse(joint, p, "") == Outcome(p.events, if p.payload == "" then None else Some(Unterminated))
  {
  }

  /** Data lines cut off anywhere leave some data collected and end no event. */
  lemma {:induction false} ParseCutBody(joint: bool, p: Parser, payload: string, e: Eol, n: nat)
    requires (forall k :: 0 <= k < |payload| ==> payload[k] != '\r') && |p.payload| + |payload| + 8 <= MAX_EVENT
    requires n <= |Body(payload, e)| && (p.payload != "" || n >= 4)
    ensures Parse(joint, p, Body(payload, e)[..n]) == Outcome(p.events, Some(Unterminated))
    decreases |payload|
  {
    hide Parse, DataLine, End, Body, Others, Separate;
    var i := PartLength(payload);
    var first := DataLine(payload[..i]) + End(e);
    PartsOf(payload, e);
    if n == 0 {
      assert Body(payload, e)[..0] == "";
      ParseEmpty(joint, p);
    } else if n < |first| {
      assert Body(payload, e)[..n] == first[..n];
      ParseCutLine(joint, p, payload[..i], e, n);
    } else {
      var m := n - |first|;
      var behind := Others(payload, e)[..m];
      assert Body(payload, e)[..n] == DataLine(payload[..i]) + End(e) + behind;
      CutIsSeparate(payload, e, m);
      ParsePart(joint, p, payload, e, behind);
      var q := Collected(p, payload[..i]);
      if i < |payload| {
        ParseCutBody(joint, q, payload[i + 1..], e, m);
      } else {
        assert behind == "";
        ParseEmpty(joint, q);
      }
    }
  }

  lemma CutIsSeparate(payload: string, e: Eol, m: nat)
    requires m <= |Others(payload, e)|
    ensures Separate(e, Others(payload, e)[..m])
  {
    if PartLength(payload) < |payload| {
      BodyStarts(payload[PartLength(payload) + 1..], e);
    }
  }

  /** A data line cut short, or without the whole of its terminator. */
  lemma ParseCutLine(joint: bool, p: Parser, part: string, e: Eol, n: nat)
    requires NoBreak(part) && 0 < n < |DataLine(part) + End(e)| && |p.payload| + |part| + 8 <= MAX_EVENT
    requires p.payload != "" || n >= 4
    ensures Parse(joint, p, (DataLine(part) + End(e))[..n]) == Outcome(p.events, Some(Unterminated))
  {
    var line := DataLine(part);
    DataLineIsOneLine(part);
    var s := (line + End(e))[..n];
    var got := if n < |line| then n else |line|;
    assert s[..got] == line[..got];
    if n > |line| {
      assert s[|line|] == End(e)[0] && e == CRLF;
    }
    LineLengthIs(s, got);
    assert Advance(s) == n && s[n..] == "";
    CutLineFeeds(p, part, got);
    hide Feed, LineLength, Advance, DataLine, End;
    ParseUnfolds(joint, p, s);
    ParseUnfolds(joint, Feed(p, line[..got]).value, "");
  }

  lemma CutLineFeeds(p: Parser, part: string, got: nat)
    requires 0 < got <= |DataLine(part)| && |p.payload| + |part| + 8 <= MAX_EVENT && (p.payload != "" || got >= 4)
    ensures Feed(p, DataLine(part)[..got]).Ok?
    ensures Feed(p, DataLine(part)[..got]).value.events == p.events
    ensures Feed(p, DataLine(part)[..got]).value.payload != ""
  {
    var line := DataLine(part);
    var cut := line[..got];
    assert cut[0] == 'd' && BOM[0] != 'd';
    assert TrimPrefix(cut, BOM) == cut && cut != "";
    if got >= 4 {
      assert cut[..4] == "data";
      ColonIs(cut, 4) by {
        if got > 4 {
          assert cut[4] == ':';
        }
      }
      assert DataOf(cut).Some? && |DataOf(cut).value| <= |part|;
    } else {
      assert forall k :: 0 <= k < got ==> cut[k] == "dat"[k];
      ColonIs(cut, got);
      assert cut[..got] == cut;
      assert DataOf(cut).None?;
    }
  }

  /**
    Events whose blank line has arrived are delivered; one cut off before it, anywhere past the word "data", is
    not, and the stream ends in an error.
   */
  lemma CutEventIsAnError(joint: bool, payloads: seq<string>, payload: string, e: Eol, n: nat)
    requires (forall k :: 0 <= k < |payloads| ==> Printable(payloads[k])) && Printable(payload)
    requires 4 <= n <= |Body(payload, e)|
    ensures Parse(joint, FRESH, Print(payloads, e) + Body(payload, e)[..n]) ==
            Outcome(Delivered(payloads), Some(Unterminated))
  {
    BodyStarts(payload, e);
    hide Print, Delivered, Body, Parse;
    ParsePrint(joint, FRESH, payloads, e, Body(payload, e)[..n]);
    assert [] + Delivered(payloads) == Delivered(payloads);
    ParseCutBody(joint, Parser(payloads == [], "", Delivered(payloads)), payload, e, n);
  }

  /** A last line without a terminator is fed like any other; only data that no blank line ended is an error. */
  lemma ParseLastLine(joint: bool, p: Parser, line: string)
    requires NoBreak(line) && line != "" && |line| < MAX_EVENT
    ensures Parse(joint, p, line) == match Feed(p, line)
                              case Err(x) => Outcome(p.events, Some(x))
                              case Ok(q) => Outcome(q.events, if q.payload == "" then None else Some(Unterminated))
  {
    LineLengthIs(line, |line|);
    assert line[..|line|] == line && line[|line|..] == "";
    hide Feed;
  }

  /** Cut off within its first word, an event leaves no trace. */
  lemma CutWordIsSilent(joint: bool, payloads: seq<string>, payload: string, e: Eol, n: nat)
    requires (forall k :: 0 <= k < |payloads| ==> Printable(payloads[k])) && 0 < n < 4
    ensures n <= |Body(payload, e)|
    ensures Parse(joint, FRESH, Print(payloads, e) + Body(payload, e)[..n]) == Outcome(Delivered(payloads), None)
  {
    hide Print, Delivered, Parse;
    var word := "dat"[..n];
    assert DataLine(payload[..PartLength(payload)])[..n] == word;
    assert Body(payload, e)[..n] == word;
    hide Body, DataLine;
    ParsePrint(joint, FRESH, payloads, e, word);
    assert [] + Delivered(payloads) == Delivered(payloads);
    ColonIs(word, n);
    assert word[..n] == word && word[0] != BOM[0];
    ParseLastLine(joint, Parser(payloads == [], "", Delivered(payloads)), word);
  }

  /** A byte order mark is skipped at the very start of a stream. */
  lemma BomIsSkippedOnce(joint: bool, line: string, e: Eol, tail: string)
    requires NoBreak(line) && Separate(e, tail) && |line| + 5 <= MAX_EVENT && !(BOM <= line)
    requires Feed(FRESH, line).Ok?
    ensures Parse(joint, FRESH, BOM + line + End(e) + tail) == Parse(joint, FRESH, line + End(e) + tail)
  {
    assert NoBreak(BOM + line) by {
      forall k | 0 <= k < |BOM + line| ensures !IsEnd((BOM + line)[k]) {
        if k >= 3 {
          assert (BOM + line)[k] == line[k - 3];
        }
      }
    }
    assert (BOM + line)[3..] == line;
    hide Parse, End, DataOf, Blank;
    ParseLine(joint, FRESH, line, e, tail);
    ParseLine(joint, FRESH, BOM + line, e, tail);
  }

  /** And nowhere else: after the first line it is text like any other, and hides the field name it stands before. */
  lemma BomIsTextLater(p: Parser, line: string)
    requires !p.first
    ensures Feed(p, BOM + line) == Ok(p)
  {
    var s := BOM + line;
    var word := s[..ColonAt(s)];
    assert s[0] == '\U{EF}' && (word != "" ==> word[0] == s[0]);
  }

  /** A `data` field: the name alone, or the name and a colon. */
  predicate IsData(line: string) { "data" <= line && (|line| == 4 || line[4] == ':') }

  /** The text behind the colon, without one space in front. */
  function FieldValue(line: string): string
    requires IsData(line)
  {
    if |line| <= 5 then "" else if line[5] == ' ' then line[6..] else line[5..]
  }

  /**
    What a line does: a data field adds its value and a line feed to the event, unless that passes the limit of four
    megabytes, and then the stream fails; a comment, or a field of any other name, changes nothing.
   */
  lemma LinesMean(p: Parser, raw: string)
    requires raw != "" && (p.first ==> !(BOM <= raw))
    ensures !IsData(raw) ==> Feed(p, raw) == Ok(p.(first := false))
    ensures IsData(raw) ==>
              Feed(p, raw) ==
              if |p.payload| + |FieldValue(raw)| + 1 > 4_194_304 then Err(EventTooLong)
              else Ok(p.(first := false, payload := p.payload + FieldValue(raw) + "\n"))
  {
    var i := ColonAt(raw);
    if IsData(raw) {
      assert forall k :: 0 <= k < 4 ==> raw[k] == "data"[k];
      ColonIs(raw, 4);
      assert raw[..4] == "data";
      DataOfField(raw);
    } else if raw[..i] == "data" {
      assert |raw[..i]| == 4;
    }
  }

  lemma DataOfField(line: string)
    requires IsData(line) && ColonAt(line) == 4
    ensures DataOf(line) == Some(FieldValue(line))
  {
    assert line[..4] == "data";
    if |line| > 5 {
      assert line[5..][0] == line[5];
      assert " " <= line[5..] <==> line[5] == ' ';
      assert line[5..][1..] == line[6..];
    }
  }
}
