/**
  Fitting a prompt into its budget: the curator's accepted plan or a rule, then pruning by score, and never at
  the expense of protected history.
 */
module Curator {
  import opened Exchanges
  import opened Selection

  /** What rendering and counting a candidate prompt gives; counters are deterministic, and may fail. */
  datatype Cost = Fails | Cost(tokens: nat, chars: nat)

  /** The cost of the prompt with these messages and this working state; all other material is fixed. */
  type Meter = (seq<Message>, string) -> Cost

  /** No byte limit is a limit of zero. */
  datatype Limits = Limits(inputBudget: int, maxChars: nat)

  const FRAMING_RESERVE := 8

  predicate Over(lim: Limits, c: Cost)
    requires c.Cost?
  {
    c.tokens + FRAMING_RESERVE > lim.inputBudget || (lim.maxChars > 0 && c.chars > lim.maxChars)
  }

  predicate Fits(lim: Limits, c: Cost) { c.Cost? && !Over(lim, c) }

  function Measure(meter: Meter, groups: seq<Group>, keep: set<nat>, state: string): Cost {
    meter(Selected(groups, keep), state)
  }

  function AllIds(groups: seq<Group>): set<nat> { set g | g in groups :: g.id }

  function GuardedIds(groups: seq<Group>): set<nat> { set g | g in groups && g.guarded :: g.id }

  /** `makeGroups` numbers the groups by position. */
  ghost predicate Numbered(groups: seq<Group>) { forall i :: 0 <= i < |groups| ==> groups[i].id == i }

  lemma GroupsAreNumbered(h: seq<Message>)
    ensures Numbered(Groups(h))
  {
  }

  /** Everything proposed, and everything protected whether proposed or not. */
  function ProtectedSelection(groups: seq<Group>, ids: set<nat>): set<nat> { ids + GuardedIds(groups) }

  // ---------------------------------------------------------------------------
  // Stable sorting
  // ---------------------------------------------------------------------------

  type Order = (Group, Group) -> bool

  /** After every element it does not precede. */
  function Insert(before: Order, sorted: seq<Group>, g: Group): seq<Group> {
    if sorted == [] || !before(g, sorted[|sorted| - 1]) then sorted + [g]
    else Insert(before, sorted[..|sorted| - 1], g) + [sorted[|sorted| - 1]]
  }

  function SortStable(before: Order, groups: seq<Group>): seq<Group> {
    if groups == [] then []
    else Insert(before, SortStable(before, groups[..|groups| - 1]), groups[|groups| - 1])
  }

  ghost predicate Sorted(before: Order, s: seq<Group>) {
    forall i, k :: 0 <= i < k < |s| ==> !before(s[k], s[i])
  }

  /** `!before` is transitive and one direction always holds. */
  ghost predicate WeakOrder(before: Order) {
    && (forall a, b, c :: !before(b, a) && !before(c, b) ==> !before(c, a))
    && (forall a, b :: before(a, b) ==> !before(b, a))
  }

  lemma {:induction false} InsertIsPermutation(before: Order, sorted: seq<Group>, g: Group)
    ensures multiset(Insert(before, sorted, g)) == multiset(sorted) + multiset{g}
  {
    if !(sorted == [] || !before(g, sorted[|sorted| - 1])) {
      var n := |sorted| - 1;
      InsertIsPermutation(before, sorted[..n], g);
      assert sorted == sorted[..n] + [sorted[n]];
    }
  }

  lemma MembersOfInsert(before: Order, sorted: seq<Group>, g: Group, x: Group)
    requires x in Insert(before, sorted, g)
    ensures x == g || x in sorted
  {
    InsertIsPermutation(before, sorted, g);
    assert x in multiset(Insert(before, sorted, g));
  }

  lemma {:induction false} InsertSorts(before: Order, sorted: seq<Group>, g: Group)
    requires WeakOrder(before) && Sorted(before, sorted)
    ensures Sorted(before, Insert(before, sorted, g))
  {
    var n := |sorted| - 1;
    if sorted == [] {
    } else if !before(g, sorted[n]) {
      forall i | 0 <= i < n ensures !before(g, sorted[i]) {
        assert !before(sorted[n], sorted[i]);
      }
    } else {
      InsertSorts(before, sorted[..n], g);
      var rest := Insert(before, sorted[..n], g);
      hide Insert;
      forall i | 0 <= i < |rest| ensures !before(sorted[n], rest[i]) {
        MembersOfInsert(before, sorted[..n], g, rest[i]);
        if rest[i] != g {
          var k :| 0 <= k < n && sorted[k] == rest[i];
        }
      }
    }
  }

  lemma {:induction false} SortStableSorts(before: Order, groups: seq<Group>)
    requires WeakOrder(before)
    ensures Sorted(before, SortStable(before, groups))
    ensures multiset(SortStable(before, groups)) == multiset(groups)
  {
    hide Insert, WeakOrder, Sorted;
    if groups == [] {
      assert Sorted(before, []) by { NothingIsSorted(before); }
    } else {
      var n := |groups| - 1;
      SortStableSorts(before, groups[..n]);
      InsertSorts(before, SortStable(before, groups[..n]), groups[n]);
      InsertIsPermutation(before, SortStable(before, groups[..n]), groups[n]);
      assert groups == groups[..n] + [groups[n]];
    }
  }

  lemma NothingIsSorted(before: Order)
    ensures Sorted(before, [])
  {
  }

  predicate LowerScore(a: Group, b: Group) { a.score < b.score }

  /** Lowest score first; equal scores keep their order. */
  function ByScore(groups: seq<Group>): seq<Group> { SortStable(LowerScore, groups) }

  // ---------------------------------------------------------------------------
  // The rule of last resort: twelve messages by rank, sixteen from the tail
  // ---------------------------------------------------------------------------

  const RANKED_MESSAGES := 12
  const TAIL_MESSAGES := 16

  /** Higher score first, and the later group among equals. */
  predicate Better(a: Group, b: Group) { a.score > b.score || (a.score == b.score && a.id > b.id) }

  function ByRank(groups: seq<Group>): seq<Group> { SortStable(Better, groups) }

  /** Messages in all the given groups. */
  function Mass(groups: seq<Group>): nat {
    if groups == [] then 0 else Mass(groups[..|groups| - 1]) + |groups[|groups| - 1].messages|
  }

  /** Messages in the groups that rank before `g`. */
  function MassBefore(groups: seq<Group>, g: Group): nat {
    if groups == [] then 0
    else
      var last := groups[|groups| - 1];
      MassBefore(groups[..|groups| - 1], g) + if Better(last, g) then |last.messages| else 0
  }

  /** Messages in the groups that come after number `id`. */
  function MassAfter(groups: seq<Group>, id: nat): nat {
    if groups == [] then 0
    else
      var last := groups[|groups| - 1];
      MassAfter(groups[..|groups| - 1], id) + if last.id > id then |last.messages| else 0
  }

  /** Protected, or with fewer than twelve messages ranked better, or with fewer than sixteen behind it. */
  predicate Kept(groups: seq<Group>, g: Group) {
    g.guarded || MassBefore(groups, g) < RANKED_MESSAGES || MassAfter(groups, g.id) < TAIL_MESSAGES
  }

  function FallbackIds(groups: seq<Group>): set<nat> { set g | g in groups && Kept(groups, g) :: g.id }

  lemma MassOfOneMore(s: seq<Group>, g: Group, x: Group)
    ensures MassBefore(s + [g], x) == MassBefore(s, x) + if Better(g, x) then |g.messages| else 0
  {
    assert (s + [g])[..|s|] == s;
  }

  lemma {:induction false} InsertKeepsMass(before: Order, sorted: seq<Group>, g: Group, x: Group)
    ensures MassBefore(Insert(before, sorted, g), x) ==
            MassBefore(sorted, x) + if Better(g, x) then |g.messages| else 0
  {
    hide MassBefore, Better;
    if sorted == [] || !before(g, sorted[|sorted| - 1]) {
      MassOfOneMore(sorted, g, x);
    } else {
      var n := |sorted| - 1;
      InsertKeepsMass(before, sorted[..n], g, x);
      MassOfOneMore(Insert(before, sorted[..n], g), sorted[n], x);
      MassOfOneMore(sorted[..n], sorted[n], x);
      assert sorted == sorted[..n] + [sorted[n]];
    }
  }

  lemma {:induction false} SortKeepsMass(before: Order, groups: seq<Group>, x: Group)
    ensures MassBefore(SortStable(before, groups), x) == MassBefore(groups, x)
  {
    hide Insert, MassBefore, Better;
    if groups != [] {
      var n := |groups| - 1;
      SortKeepsMass(before, groups[..n], x);
      InsertKeepsMass(before, SortStable(before, groups[..n]), groups[n], x);
      MassOfOneMore(groups[..n], groups[n], x);
      assert groups == groups[..n] + [groups[n]];
    }
  }

  /** Each group ranks better than every later one. */
  ghost predicate Ranked(s: seq<Group>) { forall i, k :: 0 <= i < k < |s| ==> Better(s[i], s[k]) }

  lemma RanksAreStrict(groups: seq<Group>)
    requires Numbered(groups)
    ensures Ranked(ByRank(groups)) && multiset(ByRank(groups)) == multiset(groups)
  {
    var s := ByRank(groups);
    assert WeakOrder(Better);
    SortStableSorts(Better, groups);
    hide SortStable;
    forall i, k | 0 <= i < k < |s| ensures Better(s[i], s[k]) {
      NumbersDiffer(groups, s, i, k);
    }
  }

  lemma NumbersDiffer(groups: seq<Group>, s: seq<Group>, i: nat, k: nat)
    requires Numbered(groups) && multiset(s) == multiset(groups) && i < k < |s|
    ensures s[i].id != s[k].id
  {
    if s[i].id == s[k].id {
      assert s[i] in multiset(s) && s[k] in multiset(s);
      assert s[i] in groups && s[k] in groups;
      assert s[i] == s[k];
      OnlyOnce(groups, s[i]);
      TwicePresent(s, i, k);
    }
  }

  lemma {:induction false} OnlyOnce(groups: seq<Group>, g: Group)
    requires Numbered(groups)
    ensures multiset(groups)[g] <= 1
  {
    if groups != [] {
      var n := |groups| - 1;
      OnlyOnce(groups[..n], g);
      assert groups == groups[..n] + [groups[n]];
      if g == groups[n] {
        assert g !in groups[..n];
        assert g !in multiset(groups[..n]);
      }
    }
  }

  lemma TwicePresent(s: seq<Group>, i: nat, k: nat)
    requires i < k < |s| && s[i] == s[k]
    ensures multiset(s)[s[i]] >= 2
  {
    assert s == s[..k] + [s[k]] + s[k + 1..];
    assert s[i] in s[..k];
    assert multiset(s) == multiset(s[..k]) + multiset{s[k]} + multiset(s[k + 1..]);
  }

  /** In a ranked list, what ranks before an element is what stands before it. */
  lemma {:induction false} MassIsPrefix(ranked: seq<Group>, n: nat, k: nat)
    requires Ranked(ranked) && k < |ranked| && n <= |ranked|
    ensures MassBefore(ranked[..n], ranked[k]) == Mass(ranked[..if n <= k then n else k])
  {
    if n > 0 {
      MassIsPrefix(ranked, n - 1, k);
      assert ranked[..n][..n - 1] == ranked[..n - 1];
      if n - 1 < k {
        assert Better(ranked[n - 1], ranked[k]);
      } else if n - 1 > k {
        assert Better(ranked[k], ranked[n - 1]);
      }
    }
  }

  lemma {:induction false} MassGrows(groups: seq<Group>, i: nat, k: nat)
    requires i <= k <= |groups|
    ensures Mass(groups[..i]) <= Mass(groups[..k])
  {
    if i < k {
      MassGrows(groups, i, k - 1);
      assert groups[..k][..k - 1] == groups[..k - 1];
    }
  }

  /** The first groups of a list until they hold `limit` messages. */
  ghost function Leading(s: seq<Group>, limit: nat): set<nat> {
    set k | 0 <= k < |s| && Mass(s[..k]) < limit :: s[k].id
  }

  method TakeLeading(s: seq<Group>, limit: nat) returns (ids: set<nat>)
    ensures ids == Leading(s, limit)
  {
    ids := {};
    var n, i := 0, 0;
    while i < |s| && n < limit
      invariant 0 <= i <= |s|
      invariant n == Mass(s[..i])
      invariant forall k :: 0 <= k < i ==> Mass(s[..k]) < limit
      invariant ids == set k | 0 <= k < i :: s[k].id
    {
      assert s[..i + 1][..i] == s[..i];
      ids := ids + {s[i].id};
      n := n + |s[i].messages|;
      i := i + 1;
    }
    forall k | i <= k < |s| ensures Mass(s[..k]) >= limit {
      MassGrows(s, i, k);
    }
  }

  lemma {:induction false} MassReversed(groups: seq<Group>, n: nat, k: nat)
    requires Numbered(groups) && k < |groups| && n <= |groups|
    ensures MassAfter(groups[..n], k) == if n <= k then 0 else Mass(groups[..n]) - Mass(groups[..k + 1])
  {
    if n > 0 {
      MassReversed(groups, n - 1, k);
      assert groups[..n][..n - 1] == groups[..n - 1];
      if n - 1 == k {
        assert MassAfter(groups[..n], k) == 0;
      }
    }
  }

  /** The latest groups until they hold sixteen messages. */
  method TakeTail(groups: seq<Group>) returns (ids: set<nat>)
    requires Numbered(groups)
    ensures forall k :: 0 <= k < |groups| ==> (k in ids <==> MassAfter(groups, k) < TAIL_MESSAGES)
    ensures forall id :: id in ids ==> id < |groups|
  {
    ids := {};
    var n, i := 0, |groups|;
    assert groups[..i] == groups;
    while i > 0 && n < TAIL_MESSAGES
      invariant 0 <= i <= |groups|
      invariant n == Mass(groups) - Mass(groups[..i])
      invariant i < |groups| ==> Mass(groups) - Mass(groups[..i + 1]) < TAIL_MESSAGES
      invariant forall k :: k in ids <==> i <= k < |groups|
    {
      i := i - 1;
      assert groups[..i + 1][..i] == groups[..i];
      ids := ids + {groups[i].id};
      n := n + |groups[i].messages|;
    }
    hide Mass, MassAfter, Numbered;
    forall k | 0 <= k < |groups| ensures k in ids <==> MassAfter(groups, k) < TAIL_MESSAGES {
      TailDecides(groups, i, k);
    }
  }

  lemma TailDecides(groups: seq<Group>, i: nat, k: nat)
    requires Numbered(groups) && k < |groups| && i <= |groups|
    requires i < |groups| ==> Mass(groups) - Mass(groups[..i + 1]) < TAIL_MESSAGES
    requires i == 0 || Mass(groups) - Mass(groups[..i]) >= TAIL_MESSAGES
    ensures i <= k <==> MassAfter(groups, k) < TAIL_MESSAGES
  {
    MassReversed(groups, |groups|, k);
    assert groups[..|groups|] == groups;
    hide Mass, MassAfter, Numbered;
    if k >= i {
      MassGrows(groups, i + 1, k + 1);
    } else {
      MassGrows(groups, k + 1, i);
    }
  }

  method FallbackSelection(groups: seq<Group>) returns (keep: set<nat>)
    requires Numbered(groups)
    ensures keep == FallbackIds(groups)
  {
    var ranked := ByRank(groups);
    var top := TakeLeading(ranked, RANKED_MESSAGES);
    var tail := TakeTail(groups);
    keep := ProtectedSelection(groups, top + tail);
    forall g | g in groups ensures g.id in top <==> MassBefore(groups, g) < RANKED_MESSAGES {
      RankDecides(groups, g);
    }
    forall id | id in keep ensures id in FallbackIds(groups) {
      if id in top {
        var k :| 0 <= k < |ranked| && ranked[k].id == id && id in top;
        RanksAreStrict(groups);
        assert ranked[k] in multiset(ranked);
        assert ranked[k] in groups;
      } else if id in tail {
        assert groups[id] in groups && groups[id].id == id;
      }
    }
    forall g | g in groups && Kept(groups, g) ensures g.id in keep {
      assert g.id in tail <==> MassAfter(groups, g.id) < TAIL_MESSAGES;
    }
  }

  /** A group leads the ranking exactly when few messages rank before it. */
  lemma RankDecides(groups: seq<Group>, g: Group)
    requires Numbered(groups) && g in groups
    ensures g.id in Leading(ByRank(groups), RANKED_MESSAGES) <==> MassBefore(groups, g) < RANKED_MESSAGES
  {
    hide Numbered, MassBefore, Mass, SortStable, Better;
    var ranked := ByRank(groups);
    RanksAreStrict(groups);
    SortKeepsMass(Better, groups, g);
    assert g in multiset(groups);
    assert g in ranked;
    var k :| 0 <= k < |ranked| && ranked[k] == g;
    MassIsPrefix(ranked, |ranked|, k);
    assert ranked[..|ranked|] == ranked;
    forall i | 0 <= i < |ranked| && ranked[i].id == g.id ensures i == k {
      if i < k {
        NumbersDiffer(groups, ranked, i, k);
      } else if k < i {
        NumbersDiffer(groups, ranked, k, i);
      }
    }
  }

  lemma {:induction false} BetterHasLessBefore(groups: seq<Group>, g: Group, h: Group)
    requires h.score > g.score || (h.score == g.score && h.id > g.id)
    ensures MassBefore(groups, h) <= MassBefore(groups, g)
  {
    if groups != [] {
      BetterHasLessBefore(groups[..|groups| - 1], g, h);
    }
  }

  /**
    Rank decides by score, and among equals for the later group: who beats a group that is kept for its rank is kept.
   */
  lemma RuleFollowsRank(groups: seq<Group>, g: Group, h: Group)
    requires Numbered(groups) && g in groups && h in groups && g.id in FallbackIds(groups)
    requires !g.guarded && MassAfter(groups, g.id) >= 16
    requires h.score > g.score || (h.score == g.score && h.id > g.id)
    ensures h.id in FallbackIds(groups)
  {
    BetterHasLessBefore(groups, g, h);
    var k :| k in groups && Kept(groups, k) && k.id == g.id;
    SameNumber(groups, g, k);
  }

  lemma SameNumber(groups: seq<Group>, g: Group, h: Group)
    requires Numbered(groups) && g in groups && h in groups && g.id == h.id
    ensures g == h
  {
    var i :| 0 <= i < |groups| && groups[i] == g;
    var k :| 0 <= k < |groups| && groups[k] == h;
  }

  // ---------------------------------------------------------------------------
  // Pruning by score
  // ---------------------------------------------------------------------------

  /** Unprotected candidates go one by one, and the prompt is rendered and counted again after each. */
  function Prune(lim: Limits, meter: Meter, groups: seq<Group>, state: string, cands: seq<Group>, keep: set<nat>,
                 cost: Cost): (set<nat>, Cost)
    requires cost.Cost?
    decreases |cands|
  {
    if cands == [] || !Over(lim, cost) then (keep, cost)
    else if cands[0].guarded then Prune(lim, meter, groups, state, cands[1..], keep, cost)
    else
      var less := keep - {cands[0].id};
      var next := Measure(meter, groups, less, state);
      if next.Fails? then (less, next) else Prune(lim, meter, groups, state, cands[1..], less, next)
  }

  method PruneLoop(lim: Limits, meter: Meter, groups: seq<Group>, state: string, keep0: set<nat>, cost0: Cost)
    returns (keep: set<nat>, cost: Cost)
    requires cost0.Cost?
    ensures (keep, cost) == Prune(lim, meter, groups, state, ByScore(groups), keep0, cost0)
  {
    var cands := ByScore(groups);
    keep, cost := keep0, cost0;
    var i := 0;
    assert cands[0..] == cands;
    while i < |cands|
      invariant 0 <= i <= |cands| && cost.Cost?
      invariant Prune(lim, meter, groups, state, cands[i..], keep, cost) ==
                Prune(lim, meter, groups, state, cands, keep0, cost0)
    {
      assert cands[i..][1..] == cands[i + 1..];
      if !Over(lim, cost) {
        return;
      }
      if !cands[i].guarded {
        keep := keep - {cands[i].id};
        cost := Measure(meter, groups, keep, state);
        if cost.Fails? {
          return;
        }
      }
      i := i + 1;
    }
  }

  function Prunable(cands: seq<Group>): set<nat> { set g | g in cands && !g.guarded :: g.id }

  /** Pruning removes the unprotected part of some prefix of the candidates, and stops as soon as the prompt fits. */
  lemma {:induction false} PruneCutsAPrefix(lim: Limits, meter: Meter, groups: seq<Group>, state: string,
                                            cands: seq<Group>, keep: set<nat>, cost: Cost) returns (n: nat)
    requires cost == Measure(meter, groups, keep, state) && cost.Cost?
    ensures n <= |cands|
    ensures var (keep', cost') := Prune(lim, meter, groups, state, cands, keep, cost);
            && keep' == keep - Prunable(cands[..n])
            && cost' == Measure(meter, groups, keep', state)
            && (cost'.Cost? && Over(lim, cost') ==> n == |cands|)
            && (!Over(lim, cost) ==> n == 0)
    ensures forall i :: 0 <= i < n ==> !Fits(lim, Measure(meter, groups, keep - Prunable(cands[..i]), state))
    decreases |cands|
  {
    n := 0;
    assert Prunable(cands[..0]) == {} && keep - {} == keep;
    if cands == [] || !Over(lim, cost) {
    } else {
      var c, rest := cands[0], cands[1..];
      var less := if c.guarded then keep else keep - {c.id};
      var next := Measure(meter, groups, less, state);
      if next.Cost? {
        n := PruneCutsAPrefix(lim, meter, groups, state, rest, less, next);
        forall i | 1 <= i <= n + 1 ensures less - Prunable(rest[..i - 1]) == keep - Prunable(cands[..i]) {
          PrunableHead(cands, i);
          assert rest[..i - 1] == cands[1..i];
        }
        n := n + 1;
      } else {
        PrunableHead(cands, 1);
        assert Prunable(cands[1..1]) == {};
        n := 1;
      }
    }
  }

  lemma PrunableHead(cands: seq<Group>, n: nat)
    requires 1 <= n <= |cands|
    ensures Prunable(cands[..n]) == Prunable(cands[1..n]) + if cands[0].guarded then {} else {cands[0].id}
  {
    assert cands[..n] == [cands[0]] + cands[1..n];
  }
}
