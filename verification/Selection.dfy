/** Choosing whole user-turn groups of a history without ever splitting a tool exchange. */
module Selection {
  import opened Exchanges

  /** Scores are only compared and capped; the host's floating-point relevance arithmetic is not modelled. */
  datatype Group = Group(id: nat, messages: seq<Message>, score: real, guarded: bool)

  predicate IsUser(m: Message) { m.role == "user" }

  function MaxReal(a: real, b: real): real { if a < b then b else a }

  // ---------------------------------------------------------------------------
  // Groups: a new one at every user message
  // ---------------------------------------------------------------------------

  function Split(h: seq<Message>): (parts: seq<seq<Message>>)
    ensures h == [] <==> parts == []
  {
    if h == [] then []
    else
      var parts, m := Split(h[..|h| - 1]), h[|h| - 1];
      if parts == [] || IsUser(m) then parts + [[m]]
      else parts[..|parts| - 1] + [parts[|parts| - 1] + [m]]
  }

  function Flatten(parts: seq<seq<Message>>): seq<Message> {
    if parts == [] then [] else Flatten(parts[..|parts| - 1]) + parts[|parts| - 1]
  }

  /** Head protection covers the first six messages, widened to whole groups; the latest group is protected too. */
  function Annotated(parts: seq<seq<Message>>, total: nat, i: nat): Group
    requires i < |parts|
  {
    var offset := |Flatten(parts[..i])|;
    var recent := if offset + |parts[i]| > total - 12 then MaxReal(0.5, 0.75) else 0.5;
    Group(i, parts[i], if offset < 6 then MaxReal(recent, 0.8) else recent, offset < 6 || i == |parts| - 1)
  }

  function Groups(h: seq<Message>): seq<Group> {
    var parts := Split(h);
    seq(|parts|, i requires 0 <= i < |parts| => Annotated(parts, |h|, i))
  }

  lemma NoParts()
    ensures Split([]) == [] && Flatten([]) == []
  {
  }

  lemma SplitNext(h: seq<Message>, i: nat)
    requires i < |h|
    ensures var parts, last := Split(h[..i]), |Split(h[..i])| - 1;
            Split(h[..i + 1]) == if parts == [] || IsUser(h[i]) then parts + [[h[i]]]
                                 else parts[..last] + [parts[last] + [h[i]]]
  {
    assert h[..i + 1][..i] == h[..i];
  }

  method Partition(h: seq<Message>) returns (groups: seq<Group>)
    ensures groups == seq(|Split(h)|, i requires 0 <= i < |Split(h)| => Group(i, Split(h)[i], 0.5, false))
  {
    hide Split;
    groups := [];
    ghost var parts: seq<seq<Message>> := [];
    var i := 0;
    NoParts();
    while i < |h|
      invariant 0 <= i <= |h|
      invariant parts == Split(h[..i])
      invariant |groups| == |parts|
      invariant forall k :: 0 <= k < |groups| ==> groups[k] == Group(k, parts[k], 0.5, false)
    {
      var m := h[i];
      SplitNext(h, i);
      if groups == [] || m.role == "user" {
        groups := groups + [Group(|groups|, [m], 0.5, false)];
        parts := parts + [[m]];
      } else {
        var last := |groups| - 1;
        groups := groups[last := groups[last].(messages := groups[last].messages + [m])];
        parts := parts[..last] + [parts[last] + [m]];
      }
      i := i + 1;
    }
    assert h[..i] == h;
  }

  method MakeGroups(h: seq<Message>) returns (groups: seq<Group>)
    ensures groups == Groups(h)
  {
    groups := Partition(h);
    ghost var parts := Split(h);
    hide Split;
    var offset := 0;
    var i := 0;
    while i < |groups|
      invariant 0 <= i <= |groups| == |parts|
      invariant offset == |Flatten(parts[..i])|
      invariant forall k :: 0 <= k < i ==> groups[k] == Annotated(parts, |h|, k)
      invariant forall k :: i <= k < |groups| ==> groups[k] == Group(k, parts[k], 0.5, false)
    {
      var g := groups[i];
      assert parts[..i + 1][..i] == parts[..i];
      g := g.(guarded := offset < 6 || i == |groups| - 1);
      if offset + |g.messages| > |h| - 12 {
        g := g.(score := MaxReal(g.score, 0.75));
      }
      if offset < 6 {
        g := g.(score := MaxReal(g.score, 0.8));
      }
      assert g == Annotated(parts, |h|, i);
      offset := offset + |g.messages|;
      groups := groups[i := g];
      i := i + 1;
    }
  }

  /** Splitting loses nothing and reorders nothing. */
  lemma {:induction false} SplitIsExact(h: seq<Message>)
    ensures Flatten(Split(h)) == h
  {
    if h == [] {
    } else {
      var n := |h| - 1;
      SplitIsExact(h[..n]);
      assert h == h[..n] + [h[n]];
      var before := Split(h[..n]);
      if before == [] || IsUser(h[n]) {
        assert (before + [[h[n]]])[..|before|] == before;
      } else {
        var last := |before| - 1;
        assert Split(h)[..last] == before[..last];
        assert Flatten(before) == Flatten(before[..last]) + before[last];
      }
    }
  }

  lemma {:induction false} FlattenAround(parts: seq<seq<Message>>, i: nat)
    requires i < |parts|
    ensures Flatten(parts) == Flatten(parts[..i]) + parts[i] + Flatten(parts[i + 1..])
    decreases |parts|
  {
    var n := |parts| - 1;
    if i == n {
      assert parts[i + 1..] == [];
    } else {
      FlattenAround(parts[..n], i);
      assert parts[..n][..i] == parts[..i] && parts[..n][i + 1..] == parts[i + 1..n];
      assert parts[i + 1..][..n - i - 1] == parts[i + 1..n];
    }
  }

  lemma {:induction false} NoEmptyPart(h: seq<Message>)
    ensures forall i :: 0 <= i < |Split(h)| ==> Split(h)[i] != []
  {
    if h != [] {
      NoEmptyPart(h[..|h| - 1]);
    }
  }

  lemma {:induction false} EmptyTail(parts: seq<seq<Message>>)
    requires forall i :: 0 <= i < |parts| ==> parts[i] != []
    ensures Flatten(parts) == [] <==> parts == []
  {
    if parts != [] {
      assert parts[|parts| - 1] != [];
    }
  }

  /**
    Which groups are protected: those that begin within the first six messages of the history, and the one that ends
    it; no other. A protected head scores 0.8, what reaches into the last twelve messages 0.75, anything else 0.5.
   */
  lemma ProtectionIsExact(h: seq<Message>, i: nat)
    requires i < |Groups(h)|
    ensures var g, start := Groups(h)[i], |Flatten(Split(h)[..i])|;
            var end := start + |g.messages|;
            && g.id == i && end <= |h| && g.messages == h[start..end] != []
            && (g.guarded <==> start < 6 || end == |h|)
            && g.score == if start < 6 then 0.8 else if end > |h| - 12 then 0.75 else 0.5
  {
    var parts := Split(h);
    SplitIsExact(h);
    FlattenAround(parts, i);
    NoEmptyPart(h);
    EmptyTail(parts[i + 1..]);
    hide Split, Flatten;
    assert h == Flatten(parts[..i]) + parts[i] + Flatten(parts[i + 1..]);
    assert parts[i + 1..] == [] <==> i == |parts| - 1;
  }

  /** A whole user turn; only the first group may start without its user message. */
  ghost predicate IsTurn(part: seq<Message>, first: bool) {
    part != [] && (first || IsUser(part[0])) && forall k :: 1 <= k < |part| ==> !IsUser(part[k])
  }

  /** It cuts exactly before the user messages. */
  lemma {:induction false} SplitCutsAtUsers(h: seq<Message>)
    ensures forall i :: 0 <= i < |Split(h)| ==> IsTurn(Split(h)[i], i == 0)
  {
    if h != [] {
      var n := |h| - 1;
      SplitCutsAtUsers(h[..n]);
      var before, parts := Split(h[..n]), Split(h);
      forall i | 0 <= i < |parts| ensures IsTurn(parts[i], i == 0) {
        if i < |before| {
          assert IsTurn(before[i], i == 0);
        }
      }
    }
  }

  /** The messages of the kept groups, in order. */
  function Selected(groups: seq<Group>, keep: set<nat>): seq<Message> {
    if groups == [] then []
    else
      var n := |groups| - 1;
      Selected(groups[..n], keep) + if groups[n].id in keep then groups[n].messages else []
  }

  method SelectMessages(groups: seq<Group>, keep: set<nat>) returns (messages: seq<Message>)
    ensures messages == Selected(groups, keep)
  {
    messages := [];
    var i := 0;
    while i < |groups|
      invariant 0 <= i <= |groups|
      invariant messages == Selected(groups[..i], keep)
    {
      assert groups[..i + 1][..i] == groups[..i];
      if groups[i].id in keep {
        messages := messages + groups[i].messages;
      }
      i := i + 1;
    }
    assert groups[..i] == groups;
  }

  /** What a selection gives is in the order of the groups, each kept group whole and no other. */
  lemma {:induction false} SelectionAround(groups: seq<Group>, keep: set<nat>, i: nat)
    requires i < |groups| && forall k :: 0 <= k < |groups| ==> groups[k].id == k
    ensures Selected(groups, keep) ==
            Selected(groups, set k | k in keep && k < i) + (if i in keep then groups[i].messages else [])
            + Selected(groups, set k | k in keep && k > i)
  {
    var below, above := set k | k in keep && k < i, set k | k in keep && k > i;
    var n := |groups| - 1;
    if i == n {
      SameChoice(groups[..n], keep, below);
      NoChoice(groups, above);
    } else {
      SelectionAround(groups[..n], keep, i);
      assert groups[n].id == n;
    }
  }

  lemma {:induction false} SameChoice(groups: seq<Group>, keep: set<nat>, other: set<nat>)
    requires forall k :: 0 <= k < |groups| ==> (groups[k].id in keep <==> groups[k].id in other)
    ensures Selected(groups, keep) == Selected(groups, other)
  {
    if groups != [] {
      SameChoice(groups[..|groups| - 1], keep, other);
    }
  }

  lemma {:induction false} NoChoice(groups: seq<Group>, keep: set<nat>)
    requires forall k :: 0 <= k < |groups| ==> groups[k].id !in keep
    ensures Selected(groups, keep) == []
  {
    if groups != [] {
      NoChoice(groups[..|groups| - 1], keep);
    }
  }

  /** Keeping every group of a history gives the history. */
  lemma KeepingAllIsWhole(h: seq<Message>, keep: set<nat>)
    requires forall i :: 0 <= i < |Groups(h)| ==> i in keep
    ensures Selected(Groups(h), keep) == h
  {
    SplitIsExact(h);
    AllSelected(Groups(h), Split(h), keep);
  }

  lemma {:induction false} AllSelected(groups: seq<Group>, parts: seq<seq<Message>>, keep: set<nat>)
    requires |groups| == |parts| && forall i :: 0 <= i < |groups| ==>
             groups[i].id in keep && groups[i].messages == parts[i]
    ensures Selected(groups, keep) == Flatten(parts)
  {
    if groups != [] {
      AllSelected(groups[..|groups| - 1], parts[..|parts| - 1], keep);
    }
  }

  // ---------------------------------------------------------------------------
  // Any choice of groups keeps exchanges whole
  // ---------------------------------------------------------------------------

  lemma {:induction false} CallsForgetful(p: set<string>, seen: set<string>, fewer: set<string>, calls: seq<Call>)
    requires fewer <= seen && AddCalls(Open(p, seen), calls).Open?
    ensures var a, b := AddCalls(Open(p, seen), calls), AddCalls(Open(p, fewer), calls);
            b.Open? && b.pending == a.pending && b.seen <= a.seen && seen <= a.seen
    decreases |calls|
  {
    if calls != [] {
      var c := calls[0];
      CallsForgetful(p + {c.id}, seen + {c.id}, fewer + {c.id}, calls[1..]);
    }
  }

  /** A scan that goes well still does when fewer call IDs were seen before it. */
  lemma {:induction false} RunForgetful(p: set<string>, seen: set<string>, fewer: set<string>, ms: seq<Message>)
    requires fewer <= seen && Run(Open(p, seen), ms).Open?
    ensures var a, b := Run(Open(p, seen), ms), Run(Open(p, fewer), ms);
            b.Open? && b.pending == a.pending && b.seen <= a.seen && seen <= a.seen
  {
    if ms == [] {
    } else {
      var n := |ms| - 1;
      assert Run(Open(p, seen), ms[..n]).Open?;
      RunForgetful(p, seen, fewer, ms[..n]);
      var a, b := Run(Open(p, seen), ms[..n]), Run(Open(p, fewer), ms[..n]);
      assert AddCalls(a, ms[n].calls).Open?;
      CallsForgetful(a.pending, a.seen, b.seen, ms[n].calls);
    }
  }

  lemma {:induction false} FlattenSplits(parts: seq<seq<Message>>, i: nat)
    requires i <= |parts|
    ensures Flatten(parts) == Flatten(parts[..i]) + Flatten(parts[i..])
  {
    if i == |parts| {
      assert parts[..i] == parts;
    } else {
      var n := |parts| - 1;
      FlattenSplits(parts[..n], i);
      assert parts[..n][..i] == parts[..i];
      assert parts[i..][..n - i] == parts[..n][i..];
    }
  }

  /** Where group `i` starts in the history. */
  lemma GroupStart(h: seq<Message>, i: nat)
    requires i < |Split(h)|
    ensures var parts := Split(h);
            var k := |Flatten(parts[..i])|;
            && parts[i] != [] && k < |h| && h[..k] == Flatten(parts[..i]) && h[k] == parts[i][0]
            && Flatten(parts[..i + 1]) == Flatten(parts[..i]) + parts[i]
  {
    var parts := Split(h);
    SplitIsExact(h);
    SplitCutsAtUsers(h);
    hide Split;
    FlattenSplits(parts, i + 1);
    assert parts[..i + 1][..i] == parts[..i];
    assert Flatten(parts[..i + 1]) == Flatten(parts[..i]) + parts[i];
  }

  /** Between two groups no call is waiting for its result. */
  lemma SettledBetweenGroups(h: seq<Message>, i: nat)
    requires Closed(h) && i <= |Split(h)|
    ensures Settled(Run(START, Flatten(Split(h)[..i])))
  {
    var parts := Split(h);
    if i == |parts| {
      SplitIsExact(h);
      assert parts[..i] == parts;
    } else if i > 0 {
      SplitCutsAtUsers(h);
      GroupStart(h, i);
      hide Split;
      var k := |Flatten(parts[..i])|;
      PrefixIsOpen(h, k + 1);
      assert h[..k + 1][..k] == h[..k];
      assert Step(Run(START, h[..k]), h[k]).Open?;
    }
  }

  /** One group more, kept or not. */
  lemma SelectionGrows(s: Scan, t: Scan, part: seq<Message>)
    requires Settled(s) && Settled(t) && t.seen <= s.seen && Settled(Run(s, part))
    ensures Settled(Run(t, part)) && Run(t, part).seen <= Run(s, part).seen && t.seen <= Run(s, part).seen
  {
    RunForgetful({}, s.seen, t.seen, part);
  }

  lemma {:induction false} SelectionScan(h: seq<Message>, keep: set<nat>, i: nat)
    requires Closed(h) && i <= |Split(h)|
    ensures var s, t := Run(START, Flatten(Split(h)[..i])), Run(START, Selected(Groups(h)[..i], keep));
            Settled(s) && Settled(t) && t.seen <= s.seen
  {
    assert |Groups(h)| == |Split(h)|;
    hide Split, Run, Groups, Selected, Flatten, Closed;
    if i == 0 {
      assert Split(h)[..0] == [] && Groups(h)[..0] == [];
      assert Run(START, []) == START && Selected([], keep) == [] && Flatten([]) == [] by { NothingSelected(keep); }
    } else {
      SelectionScan(h, keep, i - 1);
      SettledBetweenGroups(h, i);
      GroupStart(h, i - 1);
      var part := Split(h)[i - 1];
      var pre, kept := Flatten(Split(h)[..i - 1]), Selected(Groups(h)[..i - 1], keep);
      SelectedNext(h, keep, i - 1);
      RunSplits(START, pre, part);
      RunSplits(START, kept, part);
      SelectionGrows(Run(START, pre), Run(START, kept), part);
    }
  }

  lemma NothingSelected(keep: set<nat>)
    ensures Run(START, []) == START && Selected([], keep) == [] && Flatten([]) == []
  {
  }

  lemma SelectedNext(h: seq<Message>, keep: set<nat>, i: nat)
    requires i < |Split(h)|
    ensures var kept := Selected(Groups(h)[..i], keep);
            Selected(Groups(h)[..i + 1], keep) == if i in keep then kept + Split(h)[i] else kept
  {
    hide Split;
    var kept := Selected(Groups(h)[..i], keep);
    assert Groups(h)[..i + 1][..i] == Groups(h)[..i];
    assert kept + [] == kept;
  }

  /** Whatever groups are kept, a closed history stays closed. */
  lemma SelectionStaysClosed(h: seq<Message>, keep: set<nat>)
    requires Closed(h)
    ensures Closed(Selected(Groups(h), keep))
  {
    SelectionScan(h, keep, |Split(h)|);
    assert Groups(h)[..|Split(h)|] == Groups(h);
  }

  // ---------------------------------------------------------------------------
  // Native message lists
  // ---------------------------------------------------------------------------

  const HISTORICAL := "[Historical tool result; not a current tool call]\n"

  /** Tool output of a text-only session has no call to answer: it becomes quoted user data. */
  function Relabelled(m: Message): Message {
    if IsTool(m) && m.toolCallId == "" then m.(role := "user", content := HISTORICAL + m.content) else m
  }

  function RelabelAll(h: seq<Message>): (r: seq<Message>)
    ensures |r| == |h|
  {
    seq(|h|, i requires 0 <= i < |h| => Relabelled(h[i]))
  }

  method RelabelInPlace(a: array<Message>)
    modifies a
    ensures a[..] == RelabelAll(old(a[..]))
    ensures forall k :: 0 <= k < a.Length ==>
              var was := old(a[k]);
              a[k] == if was.role == "tool" && was.toolCallId == "" then
                        Message("user", was.calls, "",
                                "[Historical tool result; not a current tool call]\n" + was.content)
                      else was
  {
    var i := 0;
    while i < a.Length
      invariant 0 <= i <= a.Length
      invariant forall k :: 0 <= k < i ==> a[k] == Relabelled(old(a[k]))
      invariant forall k :: i <= k < a.Length ==> a[k] == old(a[k])
    {
      if a[i].role == "tool" && a[i].toolCallId == "" {
        a[i] := a[i].(role := "user", content := HISTORICAL + a[i].content);
      }
      i := i + 1;
    }
  }

  lemma {:induction false} RelabelScans(h: seq<Message>)
    ensures Run(START, h).Open? <==> Run(START, RelabelAll(h)).Open?
    ensures Run(START, h).Open? ==> Run(START, RelabelAll(h)) == Run(START, h)
  {
    if h == [] {
      assert RelabelAll(h) == [];
    } else {
      var n := |h| - 1;
      RelabelScans(h[..n]);
      assert RelabelAll(h)[..n] == RelabelAll(h[..n]);
      RelabelledStep(Run(START, h[..n]), h[n]);
    }
  }

  lemma RelabelledStep(s: Scan, m: Message)
    ensures Step(s, m).Open? <==> Step(s, Relabelled(m)).Open?
    ensures Step(s, m).Open? ==> Step(s, Relabelled(m)) == Step(s, m)
  {
  }

  /** Relabelling neither breaks nor mends closure. */
  lemma RelabelKeepsClosure(h: seq<Message>)
    ensures Closed(RelabelAll(h)) <==> Closed(h)
  {
    RelabelScans(h);
  }

  /** The ledger may already end with the current request; only that one trailing copy is dropped. */
  function WithoutRequest(h: seq<Message>, request: string): seq<Message> {
    if h != [] && IsUser(h[|h| - 1]) && h[|h| - 1].content == request then h[..|h| - 1] else h
  }

  lemma WithoutRequestIsClosed(h: seq<Message>, request: string)
    requires Closed(h)
    ensures Closed(WithoutRequest(h, request))
  {
    if WithoutRequest(h, request) != h {
      PrefixIsOpen(h, |h| - 1);
    }
  }

  function SystemMessage(text: string): Message { Message("system", [], "", text) }

  function UserMessage(text: string): Message { Message("user", [], "", text) }

  /** What goes to the provider: fixed material, the kept groups, and the request. */
  function NativeList(system: string, history: seq<Message>, keep: set<nat>, request: string): seq<Message> {
    [SystemMessage(system)] + Selected(Groups(history), keep) + [UserMessage(request)]
  }

  function NativeHistory(h: seq<Message>, request: string): seq<Message> { WithoutRequest(RelabelAll(h), request) }

  lemma {:induction false} SelectedFrom(groups: seq<Group>, keep: set<nat>, m: Message)
    requires m in Selected(groups, keep)
    ensures exists i :: 0 <= i < |groups| && groups[i].id in keep && m in groups[i].messages
  {
    var n := |groups| - 1;
    if m in Selected(groups[..n], keep) {
      SelectedFrom(groups[..n], keep, m);
    } else {
      assert groups[n].id in keep && m in groups[n].messages;
    }
  }

  lemma {:induction false} FlattenFrom(parts: seq<seq<Message>>, i: nat, m: Message)
    requires i < |parts| && m in parts[i]
    ensures m in Flatten(parts)
  {
    if i < |parts| - 1 {
      FlattenFrom(parts[..|parts| - 1], i, m);
    }
  }

  /** Every kept message comes from the history, so a legacy tool message is never among them. */
  lemma KeptIsLabelled(h: seq<Message>, request: string, keep: set<nat>, m: Message)
    requires m in Selected(Groups(NativeHistory(h, request)), keep)
    ensures IsTool(m) ==> m.toolCallId != ""
  {
    var nh := NativeHistory(h, request);
    SelectedFrom(Groups(nh), keep, m);
    var i :| 0 <= i < |Groups(nh)| && m in Groups(nh)[i].messages;
    FlattenFrom(Split(nh), i, m);
    SplitIsExact(nh);
    assert m in RelabelAll(h);
  }

  /**
    For a closed history and any choice of groups, the provider's independent check accepts the list exactly when
    every kept message has a known role and names its calls.
   */
  lemma NativeListIsSendable(h: seq<Message>, system: string, keep: set<nat>, request: string)
    requires Closed(h)
    ensures var kept := Selected(Groups(NativeHistory(h, request)), keep);
            var list := NativeList(system, NativeHistory(h, request), keep, request);
            && Closed(list)
            && (Sendable(list) <==>
                forall i :: 0 <= i < |kept| ==> (IsTool(kept[i]) || KnownRole(kept[i]))
                                                && forall k :: 0 <= k < |kept[i].calls| ==> kept[i].calls[k].name != "")
  {
    var nh := NativeHistory(h, request);
    RelabelKeepsClosure(h);
    WithoutRequestIsClosed(RelabelAll(h), request);
    SelectionStaysClosed(nh, keep);
    var kept := Selected(Groups(nh), keep);
    var list := NativeList(system, nh, keep, request);
    FramedIsClosed(system, kept, request);
    SendableIffPlain(list);
    assert forall i :: 0 <= i < |kept| ==> list[i + 1] == kept[i];
    forall i | 0 <= i < |kept| ensures IsTool(kept[i]) ==> kept[i].toolCallId != "" {
      KeptIsLabelled(h, request, keep, kept[i]);
    }
    if forall i :: 0 <= i < |list| ==> Plain(list[i]) {
      forall i | 0 <= i < |kept| ensures Plain(kept[i]) {
        assert Plain(list[i + 1]);
      }
    }
    if forall i :: 0 <= i < |kept| ==> Plain(kept[i]) {
      forall i | 0 <= i < |list| ensures Plain(list[i]) {
        assert i == 0 || i == |list| - 1 || list[i] == kept[i - 1];
      }
    }
  }

  lemma FramedIsClosed(system: string, kept: seq<Message>, request: string)
    requires Closed(kept)
    ensures Closed([SystemMessage(system)] + kept + [UserMessage(request)])
  {
    var a := [SystemMessage(system)];
    assert Run(START, a) == START by {
      assert a[..0] == [];
    }
    RunSplits(START, a, kept);
    var b := a + kept + [UserMessage(request)];
    assert b[..|b| - 1] == a + kept;
  }
}
