/**
  Assembling a prompt: the fast path, a curator's plan that was measured before it was accepted, a selector's
  scores, or the rule; then pruning. Protected groups are in every result.
 */
module BuildChecked {
  import opened Common
  import opened Exchanges
  import opened Selection
  import opened Curator

  // ---------------------------------------------------------------------------
  // Scores may change; groups may not
  // ---------------------------------------------------------------------------

  function Unscored(g: Group): Group { g.(score := 0.0) }

  ghost predicate SameGroups(a: seq<Group>, b: seq<Group>) {
    |a| == |b| && forall i :: 0 <= i < |a| ==> Unscored(a[i]) == Unscored(b[i])
  }

  lemma {:induction false} SameSelection(a: seq<Group>, b: seq<Group>, keep: set<nat>)
    requires SameGroups(a, b)
    ensures Selected(a, keep) == Selected(b, keep)
  {
    if a != [] {
      var n := |a| - 1;
      forall i | 0 <= i < n ensures Unscored(a[..n][i]) == Unscored(b[..n][i]) {
      }
      SameSelection(a[..n], b[..n], keep);
      assert Unscored(a[n]) == Unscored(b[n]);
    }
  }

  lemma SameIds(a: seq<Group>, b: seq<Group>)
    requires SameGroups(a, b)
    ensures AllIds(a) == AllIds(b) && GuardedIds(a) == GuardedIds(b) && (Numbered(a) ==> Numbered(b))
  {
    forall i | 0 <= i < |a| ensures a[i].id == b[i].id && a[i].guarded == b[i].guarded {
      assert Unscored(a[i]) == Unscored(b[i]);
    }
    forall g | g in a ensures exists h :: h in b && h.id == g.id && h.guarded == g.guarded {
      var i :| 0 <= i < |a| && a[i] == g;
      assert b[i] in b;
    }
    forall g | g in b ensures exists h :: h in a && h.id == g.id && h.guarded == g.guarded {
      var i :| 0 <= i < |b| && b[i] == g;
      assert a[i] in a;
    }
  }

  /** A proposal of scores: known groups, none twice, each in [0, 1]. */
  predicate ValidScores(scores: seq<(int, real)>, lo: int, hi: int) {
    && (forall i :: 0 <= i < |scores| ==> lo <= scores[i].0 < hi && 0.0 <= scores[i].1 <= 1.0)
    && forall i, k :: 0 <= i < k < |scores| ==> scores[i].0 != scores[k].0
  }

  predicate ValidIds(ids: seq<int>, n: nat) {
    && (forall i :: 0 <= i < |ids| ==> 0 <= ids[i] < n)
    && forall i, k :: 0 <= i < k < |ids| ==> ids[i] != ids[k]
  }

  /** The curator may not score a protected group below 0.8. */
  function CuratorScores(groups: seq<Group>, scores: seq<(int, real)>): (r: seq<Group>)
    requires forall i :: 0 <= i < |scores| ==> 0 <= scores[i].0 < |groups|
    ensures |r| == |groups|
  {
    if scores == [] then groups
    else
      var before := CuratorScores(groups, scores[..|scores| - 1]);
      var (id, score) := scores[|scores| - 1];
      before[id := before[id].(score := if before[id].guarded then MaxReal(score, 0.8) else score)]
  }

  /** A selector's scores count only for groups that are not protected. */
  function SelectorScores(groups: seq<Group>, scores: seq<(int, real)>): (r: seq<Group>)
    requires forall i :: 0 <= i < |scores| ==> 0 <= scores[i].0 < |groups|
    ensures |r| == |groups|
  {
    if scores == [] then groups
    else
      var before := SelectorScores(groups, scores[..|scores| - 1]);
      var (id, score) := scores[|scores| - 1];
      if before[id].guarded then before else before[id := before[id].(score := score)]
  }

  function ArchivedScores(groups: seq<Group>, ids: seq<int>): (r: seq<Group>)
    requires forall i :: 0 <= i < |ids| ==> 0 <= ids[i] < |groups|
    ensures |r| == |groups|
  {
    if ids == [] then groups
    else
      var before := ArchivedScores(groups, ids[..|ids| - 1]);
      var id := ids[|ids| - 1];
      before[id := before[id].(score := if before[id].score < 0.45 then before[id].score else 0.45)]
  }

  lemma {:induction false} CuratorScoresOnly(groups: seq<Group>, scores: seq<(int, real)>)
    requires forall i :: 0 <= i < |scores| ==> 0 <= scores[i].0 < |groups|
    ensures SameGroups(groups, CuratorScores(groups, scores))
  {
    if scores != [] {
      CuratorScoresOnly(groups, scores[..|scores| - 1]);
    }
  }

  lemma {:induction false} SelectorScoresOnly(groups: seq<Group>, scores: seq<(int, real)>)
    requires forall i :: 0 <= i < |scores| ==> 0 <= scores[i].0 < |groups|
    ensures SameGroups(groups, SelectorScores(groups, scores))
  {
    if scores != [] {
      SelectorScoresOnly(groups, scores[..|scores| - 1]);
    }
  }

  lemma {:induction false} ArchivedScoresOnly(groups: seq<Group>, ids: seq<int>)
    requires forall i :: 0 <= i < |ids| ==> 0 <= ids[i] < |groups|
    ensures SameGroups(groups, ArchivedScores(groups, ids))
  {
    if ids != [] {
      ArchivedScoresOnly(groups, ids[..|ids| - 1]);
    }
  }

  // ---------------------------------------------------------------------------
  // Scores kept from earlier requests
  // ---------------------------------------------------------------------------

  /** A persisted relevance entry; `refOk` says that its archive reference, if any, has the right form. */
  datatype Relevance = Relevance(score: real, refOk: bool)

  predicate Sane(k: Relevance) { 0.0 <= k.score <= 1.0 && k.refOk }

  function Length(groups: seq<Group>): nat {
    if groups == [] then 0 else Length(groups[..|groups| - 1]) + |groups[|groups| - 1].messages|
  }

  /** Protection is that of the current history, whatever was kept. */
  function Reloaded(g: Group, k: Relevance, recent: bool): Group {
    var score := if recent then MaxReal(k.score, 0.75) else k.score;
    g.(score := if g.guarded then MaxReal(score, 0.8) else score)
  }

  /** Entries are found by a group's messages; one bad entry that is found spoils the load. */
  function Loaded(groups: seq<Group>, kept: map<seq<Message>, Relevance>, total: nat): (r: Option<seq<Group>>)
    ensures r.Some? ==> |r.value| == |groups|
  {
    if groups == [] then Some([])
    else
      var g := groups[|groups| - 1];
      match Loaded(groups[..|groups| - 1], kept, total)
      case None => None
      case Some(before) =>
        if g.messages !in kept then Some(before + [g])
        else if !Sane(kept[g.messages]) then None
        else Some(before + [Reloaded(g, kept[g.messages], Length(groups) > total - 12)])
  }

  method CountMessages(groups: seq<Group>) returns (total: int)
    ensures total == Length(groups)
  {
    total := 0;
    for i := 0 to |groups|
      invariant total == Length(groups[..i])
    {
      assert groups[..i + 1][..i] == groups[..i];
      total := total + |groups[i].messages|;
    }
    assert groups[..|groups|] == groups;
  }

  method LoadScores(groups: seq<Group>, kept: map<seq<Message>, Relevance>) returns (r: Option<seq<Group>>)
    ensures r == Loaded(groups, kept, Length(groups))
  {
    var total := CountMessages(groups);
    assert groups[..|groups|] == groups;
    var now: seq<Group> := [];
    var offset := 0;
    for i := 0 to |groups|
      invariant offset == Length(groups[..i]) && Loaded(groups[..i], kept, total) == Some(now)
    {
      assert groups[..i + 1][..i] == groups[..i];
      var g := groups[i];
      if g.messages in kept {
        var k := kept[g.messages];
        if k.score < 0.0 || k.score > 1.0 || !k.refOk {
          BadEntrySpoils(groups, kept, total, i + 1);
          return None;
        }
        g := g.(score := k.score);
        if offset + |g.messages| > total - 12 {
          g := g.(score := MaxReal(g.score, 0.75));
        }
        if g.guarded {
          g := g.(score := MaxReal(g.score, 0.8));
        }
      }
      now := now + [g];
      offset := offset + |g.messages|;
    }
    return Some(now);
  }

  lemma {:induction false} BadEntrySpoils(groups: seq<Group>, kept: map<seq<Message>, Relevance>, total: nat, i: nat)
    requires i <= |groups| && Loaded(groups[..i], kept, total).None?
    ensures Loaded(groups, kept, total).None?
    decreases |groups|
  {
    if i == |groups| {
      assert groups[..i] == groups;
    } else {
      assert groups[..|groups| - 1][..i] == groups[..i];
      BadEntrySpoils(groups[..|groups| - 1], kept, total, i);
    }
  }

  /** What was kept changes scores only, and lowers none below what the current protection asks for. */
  lemma {:induction false} LoadedScoresOnly(groups: seq<Group>, kept: map<seq<Message>, Relevance>, total: nat)
    requires Loaded(groups, kept, total).Some?
    ensures var now := Loaded(groups, kept, total).value;
            && SameGroups(groups, now)
            && forall i :: 0 <= i < |groups| ==>
                 now[i] == groups[i] || (0.0 <= now[i].score <= 1.0 && (groups[i].guarded ==> now[i].score >= 0.8))
  {
    if groups != [] {
      LoadedScoresOnly(groups[..|groups| - 1], kept, total);
    }
  }

  /** The length of some groups is the number of messages they hold. */
  lemma {:induction false} LengthIsMessages(groups: seq<Group>, parts: seq<seq<Message>>)
    requires |groups| == |parts| && forall k :: 0 <= k < |parts| ==> groups[k].messages == parts[k]
    ensures Length(groups) == |Flatten(parts)|
  {
    if groups != [] {
      LengthIsMessages(groups[..|groups| - 1], parts[..|parts| - 1]);
    }
  }

  /**
    A group found by its messages scores what was kept, at least 0.75 if it reaches into the last twelve messages,
    and at least 0.8 if it is protected now; a group not found is as it was.
   */
  lemma {:induction false} LoadedScoresAre(groups: seq<Group>, kept: map<seq<Message>, Relevance>, total: nat, i: nat)
    requires i < |groups| && Loaded(groups, kept, total).Some?
    ensures var was, now := groups[i], Loaded(groups, kept, total).value[i];
            if was.messages !in kept then now == was
            else
              var least := if was.guarded then 0.8 else if Length(groups[..i + 1]) + 12 > total then 0.75 else 0.0;
              && 0.0 <= kept[was.messages].score <= 1.0 && kept[was.messages].refOk
              && now.score == if kept[was.messages].score < least then least else kept[was.messages].score
    decreases |groups|
  {
    var n := |groups| - 1;
    if i < n {
      assert groups[..n][..i + 1] == groups[..i + 1];
      LoadedScoresAre(groups[..n], kept, total, i);
    } else {
      assert groups[..i + 1] == groups;
    }
  }

  // ---------------------------------------------------------------------------
  // The curator: a plan is accepted only if the full prompt it gives was measured and fits
  // ---------------------------------------------------------------------------

  /** One action of the selecting model; `stored` says whether what it writes could be written. */
  datatype Action =
    | Look
    | TryBudget(ids: seq<int>)
    | Finish(ids: seq<int>, stored: bool)
    | Score(scores: seq<(int, real)>)
    | SetState(text: string)
    | Archive(ids: seq<int>, stored: bool)

  datatype Plan = Plan(ids: set<nat>, state: string, groups: seq<Group>)

  function IdSet(ids: seq<int>, n: nat): set<nat>
    requires ValidIds(ids, n)
  {
    set i | 0 <= i < |ids| :: ids[i]
  }

  /** No goals, threads or decisions: the working state the request came with. */
  function StateText(given: string, text: string): string { if text == "" then given else text }

  function Candidate(lim: Limits, meter: Meter, groups: seq<Group>, ids: set<nat>, state: string): Cost {
    Measure(meter, groups, ProtectedSelection(groups, ids), state)
  }

  function Curate(lim: Limits, meter: Meter, groups: seq<Group>, given: string, now: seq<Group>, text: string,
                  script: seq<Action>): Option<Plan>
    requires |now| == |groups|
    decreases |script|
  {
    if script == [] then None
    else
      var rest := script[1..];
      match script[0]
      case Finish(ids, stored) =>
        if ValidIds(ids, |groups|) && stored
           && Fits(lim, Candidate(lim, meter, groups, IdSet(ids, |groups|), StateText(given, text)))
        then Some(Plan(IdSet(ids, |groups|), StateText(given, text), now))
        else Curate(lim, meter, groups, given, now, text, rest)
      case Score(scores) =>
        Curate(lim, meter, groups, given, if ValidScores(scores, 0, |groups|) then CuratorScores(now, scores) else now,
               text, rest)
      case SetState(t) => Curate(lim, meter, groups, given, now, t, rest)
      case Archive(ids, stored) =>
        var ok := ValidIds(ids, |groups|) && ids != [] && stored && forall i :: 0 <= i < |ids| ==> !now[ids[i]].guarded;
        Curate(lim, meter, groups, given, if ok then ArchivedScores(now, ids) else now, text, rest)
      case _ => Curate(lim, meter, groups, given, now, text, rest)
  }

  /**
    What the curator starts from: the scores kept by its store, unless that could not be read, the working state,
    and what the selecting model will ask for.
   */
  datatype Curating = Curating(kept: Option<map<seq<Message>, Relevance>>, text: string, script: seq<Action>)

  function Curated(lim: Limits, meter: Meter, groups: seq<Group>, given: string, c: Curating): Option<Plan> {
    if c.kept.None? then None
    else
      match Loaded(groups, c.kept.value, Length(groups))
      case None => None
      case Some(now) => Curate(lim, meter, groups, given, now, c.text, c.script)
  }

  method RunCurator(lim: Limits, meter: Meter, groups: seq<Group>, given: string, c: Curating)
    returns (plan: Option<Plan>)
    ensures plan == Curated(lim, meter, groups, given, c)
  {
    if c.kept.None? {
      return None;
    }
    var loaded := LoadScores(groups, c.kept.value);
    if loaded.None? {
      return None;
    }
    var script := c.script;
    var now, text := loaded.value, c.text;
    var step := 0;
    assert script[0..] == script;
    while step < |script|
      invariant 0 <= step <= |script| && |now| == |groups|
      invariant Curate(lim, meter, groups, given, now, text, script[step..]) ==
                Curate(lim, meter, groups, given, loaded.value, c.text, script)
    {
      assert script[step..][1..] == script[step + 1..];
      match script[step] {
        case Finish(ids, stored) =>
          if ValidIds(ids, |groups|) {
            var state := if text == "" then given else text;
            var cost := Candidate(lim, meter, groups, IdSet(ids, |groups|), state);
            if cost.Cost? && !Over(lim, cost) && stored {
              return Some(Plan(IdSet(ids, |groups|), state, now));
            }
          }
        case Score(scores) =>
          if ValidScores(scores, 0, |groups|) {
            now := CuratorScores(now, scores);
          }
        case SetState(t) => text := t;
        case Archive(ids, stored) =>
          if ValidIds(ids, |groups|) && ids != [] && stored && forall i :: 0 <= i < |ids| ==> !now[ids[i]].guarded {
            now := ArchivedScores(now, ids);
          }
        case _ =>
      }
      step := step + 1;
    }
    return None;
  }

  /** An accepted plan was measured, as it will be rendered, and fits. */
  lemma {:induction false} AcceptedPlanFits(lim: Limits, meter: Meter, groups: seq<Group>, given: string,
                                            now: seq<Group>, text: string, script: seq<Action>)
    requires SameGroups(groups, now) && Curate(lim, meter, groups, given, now, text, script).Some?
    ensures var plan := Curate(lim, meter, groups, given, now, text, script).value;
            && Fits(lim, Candidate(lim, meter, groups, plan.ids, plan.state))
            && SameGroups(groups, plan.groups)
            && forall id :: id in plan.ids ==> id < |groups|
    decreases |script|
  {
    var rest := script[1..];
    match script[0]
    case Finish(ids, stored) =>
      if !(ValidIds(ids, |groups|) && stored
           && Fits(lim, Candidate(lim, meter, groups, IdSet(ids, |groups|), StateText(given, text)))) {
        AcceptedPlanFits(lim, meter, groups, given, now, text, rest);
      }
    case Score(scores) =>
      if ValidScores(scores, 0, |groups|) {
        CuratorScoresOnly(now, scores);
        AcceptedPlanFits(lim, meter, groups, given, CuratorScores(now, scores), text, rest);
      } else {
        AcceptedPlanFits(lim, meter, groups, given, now, text, rest);
      }
    case SetState(t) => AcceptedPlanFits(lim, meter, groups, given, now, t, rest);
    case Archive(ids, stored) =>
      var ok := ValidIds(ids, |groups|) && ids != [] && stored && forall i :: 0 <= i < |ids| ==> !now[ids[i]].guarded;
      if ok {
        ArchivedScoresOnly(now, ids);
      }
      AcceptedPlanFits(lim, meter, groups, given, if ok then ArchivedScores(now, ids) else now, text, rest);
    case _ => AcceptedPlanFits(lim, meter, groups, given, now, text, rest);
  }

  /** The same of a whole curator run, whatever its store had kept. */
  lemma CuratedPlanFits(lim: Limits, meter: Meter, groups: seq<Group>, given: string, c: Curating)
    requires Curated(lim, meter, groups, given, c).Some?
    ensures var plan := Curated(lim, meter, groups, given, c).value;
            && Fits(lim, Candidate(lim, meter, groups, plan.ids, plan.state))
            && SameGroups(groups, plan.groups)
            && forall id :: id in plan.ids ==> id < |groups|
  {
    hide Curate, Loaded, SameGroups, Over;
    LoadedScoresOnly(groups, c.kept.value, Length(groups));
    AcceptedPlanFits(lim, meter, groups, given, Loaded(groups, c.kept.value, Length(groups)).value, c.text, c.script);
  }

  // ---------------------------------------------------------------------------
  // Which plan it is, with which scores and which state
  // ---------------------------------------------------------------------------

  /** The state text after some actions: the last one set. */
  function TextAfter(text: string, done: seq<Action>): string
    decreases |done|
  {
    if done == [] then text else TextAfter(if done[0].SetState? then done[0].text else text, done[1..])
  }

  /** The groups after some actions, with the scores these gave them. */
  function GroupsAfter(groups: seq<Group>, done: seq<Action>): (now: seq<Group>)
    ensures |now| == |groups|
    decreases |done|
  {
    if done == [] then groups
    else if done[0].Score? && ValidScores(done[0].scores, 0, |groups|) then
      GroupsAfter(CuratorScores(groups, done[0].scores), done[1..])
    else if done[0].Archive? && MayArchive(groups, done[0]) then
      GroupsAfter(ArchivedScores(groups, done[0].ids), done[1..])
    else GroupsAfter(groups, done[1..])
  }

  predicate MayArchive(groups: seq<Group>, a: Action)
    requires a.Archive?
  {
    ValidIds(a.ids, |groups|) && a.ids != [] && a.stored && forall i :: 0 <= i < |a.ids| ==> !groups[a.ids[i]].guarded
  }

  /** Action `k` submits a selection that is valid, fits with the state of that moment, and could be written. */
  ghost predicate Submits(lim: Limits, meter: Meter, groups: seq<Group>, given: string, text: string,
                          script: seq<Action>, k: nat)
  {
    && k < |script| && script[k].Finish? && ValidIds(script[k].ids, |groups|) && script[k].stored
    && Fits(lim, Candidate(lim, meter, groups, IdSet(script[k].ids, |groups|),
                           StateText(given, TextAfter(text, script[..k]))))
  }

  /** One action of the loop: an accepted selection ends it, anything else leaves scores and state to the rest. */
  lemma CurateStep(lim: Limits, meter: Meter, groups: seq<Group>, given: string, now: seq<Group>, text: string,
                   script: seq<Action>)
    requires |now| == |groups| && script != []
    ensures Curate(lim, meter, groups, given, now, text, script) ==
            if Submits(lim, meter, groups, given, text, script, 0) then
              Some(Plan(IdSet(script[0].ids, |groups|), StateText(given, text), now))
            else
              Curate(lim, meter, groups, given, GroupsAfter(now, script[..1]), TextAfter(text, script[..1]), script[1..])
  {
    hide Over, Candidate, CuratorScores, ArchivedScores, ValidScores, ValidIds;
    assert script[..0] == [] && script[..1] == [script[0]] && [script[0]][1..] == [];
  }

  lemma Shift(lim: Limits, meter: Meter, groups: seq<Group>, given: string, now: seq<Group>, text: string,
              script: seq<Action>, k: nat)
    requires script != []
    ensures var now', text' := GroupsAfter(now, script[..1]), TextAfter(text, script[..1]);
            && (Submits(lim, meter, groups, given, text, script, k + 1) <==>
                  Submits(lim, meter, groups, given, text', script[1..], k))
            && (k < |script| ==>
                  && GroupsAfter(now, script[..k + 1]) == GroupsAfter(now', script[1..][..k])
                  && TextAfter(text, script[..k + 1]) == TextAfter(text', script[1..][..k]))
  {
    hide Over, Candidate, CuratorScores, ArchivedScores, ValidScores, ValidIds;
    assert script[..1] == [script[0]] && [script[0]][1..] == [];
    if k < |script| {
      assert script[..k + 1][0] == script[0] && script[..k + 1][1..] == script[1..][..k];
    }
  }

  /** The plan `p` is what action `k` submits, with the scores and the state of that moment. */
  ghost predicate PlanAt(groups: seq<Group>, given: string, now: seq<Group>, text: string, script: seq<Action>, k: nat,
                         p: Plan)
  {
    && k < |script| && script[k].Finish? && ValidIds(script[k].ids, |groups|)
    && p == Plan(IdSet(script[k].ids, |groups|), StateText(given, TextAfter(text, script[..k])),
                 GroupsAfter(now, script[..k]))
  }

  /**
    The curator's plan is the first selection it submits that can be accepted, and there is none if it submits none.
   */
  lemma {:induction false} PlanIsTheFirstAccepted(lim: Limits, meter: Meter, groups: seq<Group>, given: string,
                                                  now: seq<Group>, text: string, script: seq<Action>)
    requires |now| == |groups|
    ensures var r := Curate(lim, meter, groups, given, now, text, script);
            if r.None? then forall k: nat :: !Submits(lim, meter, groups, given, text, script, k)
            else
              exists k: nat ::
                && Submits(lim, meter, groups, given, text, script, k)
                && PlanAt(groups, given, now, text, script, k, r.value)
                && forall i :: 0 <= i < k ==> !Submits(lim, meter, groups, given, text, script, i)
    decreases |script|
  {
    if script == [] {
    } else {
      hide Curate, Submits, PlanAt, GroupsAfter, TextAfter;
      CurateStep(lim, meter, groups, given, now, text, script);
      if Submits(lim, meter, groups, given, text, script, 0) {
        FirstIsPlanned(lim, meter, groups, given, now, text, script);
      } else {
        var now', text', rest := GroupsAfter(now, script[..1]), TextAfter(text, script[..1]), script[1..];
        PlanIsTheFirstAccepted(lim, meter, groups, given, now', text', rest);
        var r := Curate(lim, meter, groups, given, now', text', rest);
        forall k: nat
          ensures Submits(lim, meter, groups, given, text, script, k + 1) <==>
                    Submits(lim, meter, groups, given, text', rest, k)
        {
          Shift(lim, meter, groups, given, now, text, script, k);
        }
        if r.None? {
          forall k: nat ensures !Submits(lim, meter, groups, given, text, script, k) {
            assert k > 0 ==> !Submits(lim, meter, groups, given, text', rest, k - 1);
          }
        } else {
          var k: nat :|
            && Submits(lim, meter, groups, given, text', rest, k)
            && PlanAt(groups, given, now', text', rest, k, r.value)
            && forall i :: 0 <= i < k ==> !Submits(lim, meter, groups, given, text', rest, i);
          LaterPlan(lim, meter, groups, given, now, text, script, k, r.value);
          forall i | 0 <= i < k + 1 ensures !Submits(lim, meter, groups, given, text, script, i) {
            assert i > 0 ==> !Submits(lim, meter, groups, given, text', rest, i - 1);
          }
        }
      }
    }
  }

  lemma FirstIsPlanned(lim: Limits, meter: Meter, groups: seq<Group>, given: string, now: seq<Group>, text: string,
                       script: seq<Action>)
    requires |now| == |groups| && Submits(lim, meter, groups, given, text, script, 0)
    ensures PlanAt(groups, given, now, text, script, 0,
              Plan(IdSet(script[0].ids, |groups|), StateText(given, text), now))
  {
    assert script[..0] == [];
  }

  lemma LaterPlan(lim: Limits, meter: Meter, groups: seq<Group>, given: string, now: seq<Group>, text: string,
                  script: seq<Action>, k: nat, p: Plan)
    requires script != []
    requires PlanAt(groups, given, GroupsAfter(now, script[..1]), TextAfter(text, script[..1]), script[1..], k, p)
    ensures PlanAt(groups, given, now, text, script, k + 1, p)
  {
    Shift(lim, meter, groups, given, now, text, script, k);
    hide GroupsAfter, TextAfter, ValidIds;
  }

  /** A curator's scores are those it gives, with 0.8 as the least for a protected group; all others stay. */
  lemma {:induction false} CuratorScoresAre(groups: seq<Group>, scores: seq<(int, real)>, i: nat)
    requires ValidScores(scores, 0, |groups|) && i < |groups|
    ensures var now := CuratorScores(groups, scores);
            && (forall k :: 0 <= k < |scores| && scores[k].0 == i ==>
                  now[i].score == if groups[i].guarded && scores[k].1 < 0.8 then 0.8 else scores[k].1)
            && ((forall k :: 0 <= k < |scores| ==> scores[k].0 != i) ==> now[i] == groups[i])
            && now[i].guarded == groups[i].guarded
  {
    if scores != [] {
      CuratorScoresAre(groups, scores[..|scores| - 1], i);
    }
  }

  /** A selector's scores are those it gives, for groups that are not protected; all others stay. */
  lemma {:induction false} SelectorScoresAre(groups: seq<Group>, scores: seq<(int, real)>, i: nat)
    requires ValidScores(scores, 0, |groups|) && i < |groups|
    ensures var now := SelectorScores(groups, scores);
            && (forall k :: 0 <= k < |scores| && scores[k].0 == i ==>
                  now[i].score == if groups[i].guarded then groups[i].score else scores[k].1)
            && ((forall k :: 0 <= k < |scores| ==> scores[k].0 != i) ==> now[i] == groups[i])
            && now[i].guarded == groups[i].guarded
  {
    if scores != [] {
      SelectorScoresAre(groups, scores[..|scores| - 1], i);
    }
  }

  /** An archived group scores at most 0.45; all others stay. */
  lemma {:induction false} ArchivedScoresAre(groups: seq<Group>, ids: seq<int>, i: nat)
    requires ValidIds(ids, |groups|) && i < |groups|
    ensures var now := ArchivedScores(groups, ids);
            if i in ids then now[i].score == if groups[i].score < 0.45 then groups[i].score else 0.45
            else now[i] == groups[i]
  {
    if ids != [] {
      var n := |ids| - 1;
      ArchivedScoresAre(groups, ids[..n], i);
      assert ids == ids[..n] + [ids[n]];
    }
  }

  // ---------------------------------------------------------------------------
  // Assembly
  // ---------------------------------------------------------------------------

  const MANIFEST_GROUPS := 64

  /** `heavy` says that the history passes the fast-path threshold; a selector gives scores or an error. */
  datatype Request = Request(lim: Limits, groups: seq<Group>, state: string, heavy: bool,
                             curator: Option<Curating>, selector: Option<Option<seq<(int, real)>>>,
                             sectionsCount: bool)

  datatype Path = Fast | ByCurator | BySelector | ByRule

  datatype Choice = Choice(path: Path, groups: seq<Group>, keep: set<nat>, state: string)

  datatype Outcome = Built(choice: Choice) | OverBudget(choice: Choice) | NoCount

  function Max0(n: int): nat { if n < 0 then 0 else n }

  /** What is kept before pruning, when the fast path is not taken. */
  function Choose(q: Request, meter: Meter): Choice {
    var rule := Choice(ByRule, q.groups, FallbackIds(q.groups), q.state);
    if q.curator.Some? && q.groups != [] then
      match Curated(q.lim, meter, q.groups, q.state, q.curator.value)
      case Some(plan) => Choice(ByCurator, plan.groups, ProtectedSelection(q.groups, plan.ids), plan.state)
      case None => rule
    else if q.selector.Some? && q.groups != [] then
      if q.selector.value.Some? && ValidScores(q.selector.value.value, Max0(|q.groups| - MANIFEST_GROUPS), |q.groups|)
      then Choice(BySelector, SelectorScores(q.groups, q.selector.value.value), AllIds(q.groups), q.state)
      else rule
    else rule
  }

  function Concluded(q: Request, c: Choice, cost: Cost): Outcome {
    if cost.Fails? || !q.sectionsCount then NoCount
    else if Over(q.lim, cost) then OverBudget(c)
    else Built(c)
  }

  function Build(q: Request, meter: Meter): Outcome {
    var all := AllIds(q.groups);
    var first := Measure(meter, q.groups, all, q.state);
    if first.Fails? then NoCount
    else if !q.heavy && !Over(q.lim, first) then Concluded(q, Choice(Fast, q.groups, all, q.state), first)
    else
      var c := Choose(q, meter);
      var cost := Measure(meter, c.groups, c.keep, c.state);
      if cost.Fails? then NoCount
      else
        var (keep, last) := Prune(q.lim, meter, c.groups, c.state, ByScore(c.groups), c.keep, cost);
        Concluded(q, c.(keep := keep), last)
  }

  method BuildPrompt(q: Request, meter: Meter) returns (r: Outcome)
    requires Numbered(q.groups)
    ensures r == Build(q, meter)
  {
    hide Prune, Curated, FallbackIds;
    var keep := AllIds(q.groups);
    var cost := Measure(meter, q.groups, keep, q.state);
    if cost.Fails? {
      return NoCount;
    }
    var path, groups, state := Fast, q.groups, q.state;
    if q.heavy || Over(q.lim, cost) {
      path := ByRule;
      if q.curator.Some? && |groups| > 0 {
        var plan := RunCurator(q.lim, meter, q.groups, q.state, q.curator.value);
        if plan.Some? {
          path, groups, state := ByCurator, plan.value.groups, plan.value.state;
          keep := ProtectedSelection(q.groups, plan.value.ids);
        }
      } else if q.selector.Some? && |groups| > 0 {
        if q.selector.value.Some? {
          var scores := q.selector.value.value;
          var first := if |groups| > MANIFEST_GROUPS then |groups| - MANIFEST_GROUPS else 0;
          if ValidScores(scores, first, |groups|) {
            path, groups := BySelector, SelectorScores(q.groups, scores);
          }
        }
      }
      if path == ByRule {
        keep := FallbackSelection(groups);
      }
      cost := Measure(meter, groups, keep, state);
      if cost.Fails? {
        return NoCount;
      }
      assert Choose(q, meter) == Choice(path, groups, keep, state);
      keep, cost := PruneLoop(q.lim, meter, groups, state, keep, cost);
    }
    var c := Choice(path, groups, keep, state);
    if cost.Fails? || !q.sectionsCount {
      return NoCount;
    }
    return if Over(q.lim, cost) then OverBudget(c) else Built(c);
  }

  // ---------------------------------------------------------------------------
  // Soundness and completeness
  // ---------------------------------------------------------------------------

  lemma IdsBelow(groups: seq<Group>)
    requires Numbered(groups)
    ensures AllIds(groups) == set i | 0 <= i < |groups| :: groups[i].id
    ensures GuardedIds(groups) <= AllIds(groups) && FallbackIds(groups) <= AllIds(groups)
    ensures GuardedIds(groups) <= FallbackIds(groups)
    ensures forall id: nat :: id in AllIds(groups) <==> id < |groups|
  {
    forall id: nat ensures id in AllIds(groups) <==> id < |groups| {
      if id < |groups| {
        assert groups[id] in groups && groups[id].id == id;
      }
    }
  }

  /** Every choice renders known groups, and all the protected ones. */
  lemma ChoiceIsWhole(q: Request, meter: Meter)
    requires Numbered(q.groups)
    ensures var c := Choose(q, meter);
            && SameGroups(q.groups, c.groups)
            && GuardedIds(q.groups) <= c.keep <= AllIds(q.groups)
            && (c.path == ByCurator ==> Fits(q.lim, Measure(meter, c.groups, c.keep, c.state)))
  {
    IdsBelow(q.groups);
    hide Curated, FallbackIds, AllIds, GuardedIds, Over;
    if q.curator.Some? && q.groups != [] {
      var r := Curated(q.lim, meter, q.groups, q.state, q.curator.value);
      if r.Some? {
        CuratedPlanFits(q.lim, meter, q.groups, q.state, q.curator.value);
        SameSelection(q.groups, r.value.groups, ProtectedSelection(q.groups, r.value.ids));
      }
    } else if q.selector.Some? && q.groups != [] && q.selector.value.Some? {
      var scores := q.selector.value.value;
      if ValidScores(scores, Max0(|q.groups| - MANIFEST_GROUPS), |q.groups|) {
        SelectorScoresOnly(q.groups, scores);
      }
    }
  }

  lemma UnguardedIds(groups: seq<Group>, sorted: seq<Group>)
    requires Numbered(groups) && multiset(sorted) == multiset(groups)
    ensures Prunable(sorted) == AllIds(groups) - GuardedIds(groups)
  {
    forall g ensures g in sorted <==> g in groups {
      assert g in multiset(sorted) <==> g in multiset(groups);
    }
    forall id | id in AllIds(groups) - GuardedIds(groups) ensures id in Prunable(sorted) {
      var g :| g in groups && g.id == id;
      assert !g.guarded;
    }
    forall g, h | g in groups && h in groups && g.id == h.id ensures g == h {
      SameNumber(groups, g, h);
    }
  }

  /**
    Success gives a prompt within the token and byte limits that holds every protected group; the budget error
    arises only when the prompt with nothing but the protected groups is itself over, by its own count.
   */
  lemma BuildIsSoundAndComplete(q: Request, meter: Meter)
    requires Numbered(q.groups)
    ensures match Build(q, meter)
            case Built(c) =>
              && (var cost := Measure(meter, q.groups, c.keep, c.state);
                  cost.Cost? && cost.tokens + 8 <= q.lim.inputBudget
                      && (q.lim.maxChars > 0 ==> cost.chars <= q.lim.maxChars))
              && GuardedIds(q.groups) <= c.keep <= AllIds(q.groups)
            case OverBudget(c) =>
              && c.keep == GuardedIds(q.groups)
              && Measure(meter, q.groups, GuardedIds(q.groups), c.state).Cost?
              && (var cost := Measure(meter, q.groups, GuardedIds(q.groups), c.state);
                  cost.tokens + 8 > q.lim.inputBudget || (q.lim.maxChars > 0 && cost.chars > q.lim.maxChars))
            case NoCount => true
  {
    IdsBelow(q.groups);
    ChoiceIsWhole(q, meter);
    var c := Choose(q, meter);
    SameIds(q.groups, c.groups);
    var first := Measure(meter, q.groups, AllIds(q.groups), q.state);
    hide Choose, FallbackIds, Over, AllIds, GuardedIds, Numbered, Prune, Prunable;
    if first.Cost? && (q.heavy || Over(q.lim, first)) {
      var cost := Measure(meter, c.groups, c.keep, c.state);
      if cost.Cost? {
        var cands := ByScore(c.groups);
        var n := PruneCutsAPrefix(q.lim, meter, c.groups, c.state, cands, c.keep, cost);
        PrunedIsWhole(c.groups, c.keep, n);
        var keep := c.keep - Prunable(cands[..n]);
        SameSelection(q.groups, c.groups, keep);
        if n == |cands| {
          SameSelection(q.groups, c.groups, GuardedIds(q.groups));
        }
      }
    }
  }

  /** What a cut leaves: all the protected groups, and at the end nothing else. */
  lemma PrunedIsWhole(groups: seq<Group>, keep: set<nat>, n: nat)
    requires Numbered(groups) && n <= |ByScore(groups)| && GuardedIds(groups) <= keep <= AllIds(groups)
    ensures var left := keep - Prunable(ByScore(groups)[..n]);
            && GuardedIds(groups) <= left <= AllIds(groups)
            && (n == |ByScore(groups)| ==> left == GuardedIds(groups))
  {
    var cands := ByScore(groups);
    ScoresAreWeak();
    SortStableSorts(LowerScore, groups);
    UnguardedIds(groups, cands);
    assert Prunable(cands[..n]) <= Prunable(cands) by {
      assert forall g :: g in cands[..n] ==> g in cands;
    }
    assert cands[..|cands|] == cands;
  }

  lemma ScoresAreWeak()
    ensures WeakOrder(LowerScore)
  {
  }

  /**
    The commonest path: a light history that fits as it is goes out as it is, every group kept, scores and state
    untouched.
   */
  lemma LightPromptIsWhole(q: Request, meter: Meter)
    requires !q.heavy && Fits(q.lim, Measure(meter, q.groups, AllIds(q.groups), q.state)) && q.sectionsCount
    ensures Build(q, meter).Built?
    ensures var c := Build(q, meter).choice; c.keep == AllIds(q.groups) && c.groups == q.groups && c.state == q.state
  {
  }

  /** No prompt for want of a count: only when some candidate prompt, or a section, could not be counted. */
  lemma NoCountHasACause(q: Request, meter: Meter)
    requires Numbered(q.groups) && Build(q, meter) == NoCount
    ensures !q.sectionsCount
            || exists keep: set<nat>, state: string :: keep <= AllIds(q.groups)
                && Measure(meter, q.groups, keep, state).Fails?
  {
    ChoiceIsWhole(q, meter);
    var c := Choose(q, meter);
    var first := Measure(meter, q.groups, AllIds(q.groups), q.state);
    hide Choose, Prune, Over, AllIds, GuardedIds;
    if q.sectionsCount && first.Cost? {
      SameSelection(q.groups, c.groups, c.keep);
      var cost := Measure(meter, c.groups, c.keep, c.state);
      if cost.Cost? {
        var cands := ByScore(c.groups);
        var n := PruneCutsAPrefix(q.lim, meter, c.groups, c.state, cands, c.keep, cost);
        var keep := c.keep - Prunable(cands[..n]);
        SameSelection(q.groups, c.groups, keep);
        assert keep <= AllIds(q.groups) && Measure(meter, q.groups, keep, c.state).Fails?;
      } else {
        assert Measure(meter, q.groups, c.keep, c.state).Fails?;
      }
    }
  }

  /** The selector's scores are there and in order: known groups of the manifest's tail, none twice, each in [0, 1]. */
  ghost predicate Selects(q: Request) {
    && q.selector.Some? && q.selector.value.Some?
    && var scores := q.selector.value.value;
    && (forall i :: 0 <= i < |scores| ==> |q.groups| - 64 <= scores[i].0 < |q.groups| && 0 <= scores[i].0
                                          && 0.0 <= scores[i].1 <= 1.0)
    && forall i, k :: 0 <= i < k < |scores| ==> scores[i].0 != scores[k].0
  }

  /**
    What the slow path starts from: a curator's plan together with the protected groups; every group, under a
    selector's scores; or the rule, which keeps what is protected, has fewer than twelve messages ranked before it, or
    fewer than sixteen behind it. With a curator the selector is not asked.
   */
  lemma SlowPathStarts(q: Request, meter: Meter)
    requires Numbered(q.groups)
    ensures var c := Choose(q, meter);
            var plan := if q.curator.Some? && q.groups != [] then
                          Curated(q.lim, meter, q.groups, q.state, q.curator.value) else None;
            if plan.Some? then
              c.path == ByCurator && c.keep == plan.value.ids + GuardedIds(q.groups)
              && c.state == plan.value.state && c.groups == plan.value.groups
            else if q.curator.None? && Selects(q) && q.groups != [] then
              c.path == BySelector && c.keep == AllIds(q.groups) && c.state == q.state
              && c.groups == SelectorScores(q.groups, q.selector.value.value)
            else
              && c.path == ByRule && c.state == q.state && c.groups == q.groups
              && forall g :: g in q.groups ==>
                   (g.id in c.keep <==> g.guarded || MassBefore(q.groups, g) < 12 || MassAfter(q.groups, g.id) < 16)
  {
    hide Curated, MassBefore, MassAfter;
    forall g | g in q.groups ensures g.id in FallbackIds(q.groups) <==> Kept(q.groups, g) {
      if g.id in FallbackIds(q.groups) {
        var h :| h in q.groups && Kept(q.groups, h) && h.id == g.id;
        SameNumber(q.groups, g, h);
      }
    }
  }

  /** And what it ends with: its start less the unprotected groups that pruning cut. */
  lemma SlowPathEnds(q: Request, meter: Meter)
    requires Numbered(q.groups) && Build(q, meter).Built?
    requires q.heavy || !Fits(q.lim, Measure(meter, q.groups, AllIds(q.groups), q.state))
    ensures var c, d := Choose(q, meter), Build(q, meter).choice;
            && d.path == c.path && d.groups == c.groups && d.state == c.state
            && d.keep <= c.keep && GuardedIds(q.groups) <= d.keep
            && (Fits(q.lim, Measure(meter, c.groups, c.keep, c.state)) ==> d.keep == c.keep)
  {
    BuildIsSoundAndComplete(q, meter);
    var c := Choose(q, meter);
    hide Choose, Over, GuardedIds, AllIds, Prune;
    var cost := Measure(meter, c.groups, c.keep, c.state);
    if cost.Cost? {
      var n := PruneCutsAPrefix(q.lim, meter, c.groups, c.state, ByScore(c.groups), c.keep, cost);
      if !Over(q.lim, cost) {
        FittingIsNotPruned(q.lim, meter, c.groups, c.state, ByScore(c.groups), c.keep, cost);
      }
    }
  }

  lemma FittingIsNotPruned(lim: Limits, meter: Meter, groups: seq<Group>, state: string, cands: seq<Group>,
                           keep: set<nat>, cost: Cost)
    requires cost.Cost? && !Over(lim, cost)
    ensures Prune(lim, meter, groups, state, cands, keep, cost) == (keep, cost)
  {
  }

  /** A plan the curator was told fits is used as it is: protected groups and what it named, never pruned. */
  lemma AcceptedPlanIsNeverPruned(q: Request, meter: Meter)
    requires Numbered(q.groups) && Choose(q, meter).path == ByCurator
    requires Measure(meter, q.groups, AllIds(q.groups), q.state).Cost?
    requires q.heavy || Over(q.lim, Measure(meter, q.groups, AllIds(q.groups), q.state))
    ensures Build(q, meter) == if q.sectionsCount then Built(Choose(q, meter)) else NoCount
  {
    ChoiceIsWhole(q, meter);
    hide Choose;
  }

  /** Low scores go first: whatever was pruned scored no higher than any unprotected group that stayed. */
  lemma PruningFollowsScores(q: Request, meter: Meter, a: Group, b: Group)
    requires Numbered(q.groups) && Build(q, meter).Built? && Build(q, meter).choice.path != Fast
    requires var c := Choose(q, meter);
             && a in c.groups && b in c.groups && !b.guarded
             && a.id in c.keep && a.id !in Build(q, meter).choice.keep && b.id in Build(q, meter).choice.keep
    ensures a.score <= b.score
  {
    var c := Choose(q, meter);
    ChoiceIsWhole(q, meter);
    SameIds(q.groups, c.groups);
    hide Choose, Over, Prune;
    var cost := Measure(meter, c.groups, c.keep, c.state);
    var cands := ByScore(c.groups);
    var n := PruneCutsAPrefix(q.lim, meter, c.groups, c.state, cands, c.keep, cost);
    ScoresAreWeak();
    SortStableSorts(LowerScore, c.groups);
    CutBySortedScore(c.groups, cands, n, a, b);
  }

  lemma CutBySortedScore(groups: seq<Group>, cands: seq<Group>, n: nat, a: Group, b: Group)
    requires Numbered(groups) && multiset(cands) == multiset(groups) && Sorted(LowerScore, cands) && n <= |cands|
    requires a in groups && b in groups && !b.guarded
    requires a.id in Prunable(cands[..n]) && b.id !in Prunable(cands[..n])
    ensures a.score <= b.score
  {
    var g :| g in cands[..n] && g.id == a.id;
    var i :| 0 <= i < n && cands[i] == g;
    assert g in multiset(cands);
    assert g in groups;
    SameNumber(groups, g, a);
    assert b in multiset(groups);
    assert b in cands && b !in cands[..n];
    assert cands == cands[..n] + cands[n..];
    var k :| 0 <= k < |cands| - n && cands[n..][k] == b;
    assert !LowerScore(cands[n + k], cands[i]);
  }

  /** And no further than needed: without the last group pruned, the prompt did not fit. */
  lemma PruningIsMinimal(q: Request, meter: Meter) returns (n: nat)
    requires Build(q, meter).Built? && Build(q, meter).choice.path != Fast
    ensures var c := Choose(q, meter);
            var cands := ByScore(c.groups);
            && n <= |cands|
            && Build(q, meter).choice.keep == c.keep - Prunable(cands[..n])
            && forall i :: 0 <= i < n ==>
                 !Fits(q.lim, Measure(meter, c.groups, c.keep - Prunable(cands[..i]), c.state))
  {
    hide Choose, Over, Prune, ByScore;
    var c := Choose(q, meter);
    n := PruneCutsAPrefix(q.lim, meter, c.groups, c.state, ByScore(c.groups), c.keep,
                          Measure(meter, c.groups, c.keep, c.state));
  }

  /**
    For a closed history, whatever was chosen and pruned: the prompt is closed, so the final check cannot fail, it
    fits, and it holds every protected group.
   */
  lemma BuiltPromptIsClosed(h: seq<Message>, q: Request, meter: Meter)
    requires Closed(h) && q.groups == Groups(h) && Build(q, meter).Built?
    ensures var c := Build(q, meter).choice;
            && Closed(Selected(q.groups, c.keep))
            && GuardedIds(q.groups) <= c.keep
            && Fits(q.lim, meter(Selected(q.groups, c.keep), c.state))
  {
    hide Build, Selected, GuardedIds, AllIds, Closed;
    SelectionStaysClosed(h, Build(q, meter).choice.keep);
    GroupsAreNumbered(h);
    BuildIsSoundAndComplete(q, meter);
  }

  // ---------------------------------------------------------------------------
  // The gate before each later model call
  // ---------------------------------------------------------------------------

  datatype GateError = BadBudget | NotClosed(fault: Fault) | BadCount | TooLarge

  const DEFAULT_CONTEXT_WINDOW := 65536
  const DEFAULT_OUTPUT_RESERVE := 8192

  /** Measures a list as it would be sent: no selection, only closure and size. */
  method MeasureMessages(window: int, reserve: int, maxChars: int, ms: seq<Message>, counted: Option<(int, nat)>)
    returns (r: Result<Cost, GateError>)
    ensures var w, o := if window == 0 then 65536 else window, if window == 0 && reserve == 0 then 8192 else reserve;
            var small := counted.Some? && counted.value.0 + 8 <= w - o
                && (maxChars > 0 ==> counted.value.1 <= maxChars);
            && (r == Err(BadBudget) <==> w < 1 || o < 0 || w - o <= 0 || maxChars < 0)
            && (r.Err? && r.error.NotClosed? ==> !Closed(ms))
            && (r == Err(BadCount) ==> Closed(ms) && (counted.None? || counted.value.0 <= 0))
            && (r == Err(TooLarge) ==> Closed(ms) && counted.Some? && counted.value.0 > 0 && !small)
            && (r.Ok? <==> w >= 1 && o >= 0 && w - o > 0 && maxChars >= 0 && Closed(ms)
                           && counted.Some? && counted.value.0 > 0 && small)
            && (r.Ok? ==> Fits(Limits(w - o, maxChars), r.value) && r.value == Cost(counted.value.0, counted.value.1))
  {
    var w, o := window, reserve;
    if w == 0 {
      w := DEFAULT_CONTEXT_WINDOW;
      if o == 0 {
        o := DEFAULT_OUTPUT_RESERVE;
      }
    }
    var budget := w - o;
    if w < 1 || o < 0 || budget <= 0 || maxChars < 0 {
      return Err(BadBudget);
    }
    var fault := ValidateClosure(ms);
    if fault.Some? {
      return Err(NotClosed(fault.value));
    }
    if counted.None? || counted.value.0 <= 0 {
      return Err(BadCount);
    }
    var (n, chars) := counted.value;
    if n + FRAMING_RESERVE > budget || (maxChars > 0 && chars > maxChars) {
      return Err(TooLarge);
    }
    return Ok(Cost(n, chars));
  }
}
