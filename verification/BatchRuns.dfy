/**
  Every run of one frozen tool batch: tool execution, approvals, journalling, failing writes, crashes,
  restarts and resumptions. The turn lease lets only one turn execute at a time; a crash forgets the
  process memory, which a restart reloads from disk.
 */
module BatchRuns {
  import opened Common
  import opened Approvals
  import opened ToolBatch

  /** Where the authorization of the current risky call stands. */
  datatype Auth =
    | NotAsked
    | MustCreate
    | MustDecide
    | MustClaim
    | HasClaim(token: string)
    | HasRun(token: string, outcome: Status, text: string)

  datatype Runner =
    | Off
    | AtTop(c: Continuation)
    | InGroup(c: Continuation, end: nat, results: seq<Option<Outcome>>, auth: Auth)
    | Collected(c: Continuation, end: nat)
    | Journalled(c: Continuation)
    | LedgerSaved(c: Continuation)
    | Resuming(c: Continuation)
    | Redone(c: Continuation)
    | Checked(c: Continuation)
    | Ready(c: Continuation)
    | Entering(c: Continuation)

  /**
    `memory` is the session held by the process and `current` whether its fence still matches the disk;
    `ran` counts, per call, how often its handler was invoked.
   */
  datatype Sys = Sys(book: Book, cont: Continuation, ledger: Ledger,
                     memory: Ledger, current: bool, runner: Runner, ran: seq<nat>)

  datatype Event =
    | BeginGroup(w: Write)
    | Skip(i: nat, text: string)
    | Execute(i: nat, invoked: bool, outcome: Outcome)
    | FindApproval(same: bool, text: string)
    | CreateApproval(action: Action, ttl: int, now: int, async: bool, w: Write, text: string)
    | DecideNow(allow: bool, now: int, w: Write, text: string)
    | ClaimApproval(action: Action, now: int, token: string, w: Write, text: string)
    | AbortClaimed(text: string)
    | RunClaimed(invoked: bool, ok: bool, text: string)
    | FinishClaimed(async: bool, w: Write)
    | Panic(i: nat)
    | Cancelled(i: nat, text: string)
    | Collect(w: Write)
    | JournalResults(w: Write)
    | SaveLedger(w: Write)
    | Advance(w: Write)
    | Clear(w: Write)
    | GiveUp
    | CrashAndRestart
    | ResumeLoad
    | RecoverLedger(w: Write)
    | RecoverContinuation(w: Write)
    | ResumeDecide(i: nat, allow: bool, now: int, w: Write)
    | ResumeSave(w: Write)
    | ResumeEnter(w: Write)
    | OtherApproval(id: Identity, rec: Record)
    | ClaimElsewhere(w: Write)

  // ---------------------------------------------------------------------------
  // One step
  // ---------------------------------------------------------------------------

  function PutBook(s: Sys, b: Book, w: Write): Sys { if w.Lost? then s else s.(book := b) }

  function PutCont(s: Sys, c: Continuation, w: Write): Sys
    requires c.Active?
  {
    if w.Lost? then s else s.(cont := Stamped(c, s.ledger))
  }

  /** A session write that took effect but was reported failed leaves the memory with a stale fence. */
  function PutLedger(s: Sys, w: Write): Sys {
    if w.Lost? then s else s.(ledger := s.memory, current := w.Good?)
  }

  function Goto(s: Sys, w: Write, r: Runner): Sys { s.(runner := if w.Good? then r else Off) }

  /** The call at index `i` belongs to the running group and has no result yet. */
  predicate Open(s: Sys, i: nat) {
    s.runner.InGroup? && s.runner.c.Active? && s.runner.c.next <= i < s.runner.end
    && i - s.runner.c.next < |s.runner.results| && s.runner.results[i - s.runner.c.next] == None
  }

  function Answer(s: Sys, i: nat, o: Outcome): Sys
    requires Open(s, i)
  {
    s.(runner := s.runner.(results := s.runner.results[i - s.runner.c.next := Some(o)], auth := NotAsked))
  }

  function Count(s: Sys, i: nat, invoked: bool): Sys {
    if invoked && i < |s.ran| then s.(ran := s.ran[i := s.ran[i] + 1]) else s
  }

  /** The risky call under authorization, when there is one. */
  predicate Asking(b: Batch, s: Sys) {
    && s.runner.InGroup? && s.runner.c.Active? && s.runner.c.next < |b.calls|
    && b.calls[s.runner.c.next].kind == Risky && Open(s, s.runner.c.next)
  }

  function SetAuth(s: Sys, a: Auth): Sys
    requires s.runner.InGroup?
  {
    s.(runner := s.runner.(auth := a))
  }

  /** The results before the first one that is not an ordinary text. */
  function LeadingTexts(results: seq<Option<Outcome>>): (ts: seq<string>)
    ensures |ts| <= |results|
    ensures forall k :: 0 <= k < |ts| ==> results[k] == Some(Text(ts[k]))
    ensures |ts| < |results| ==> results[|ts|] == None || !results[|ts|].value.Text?
  {
    if results != [] && results[0].Some? && results[0].value.Text?
    then [results[0].value.content] + LeadingTexts(results[1..]) else []
  }

  function Accepted(b: Batch, next: nat, texts: seq<string>): (ms: seq<Message>)
    requires next + |texts| <= |b.calls|
    ensures |ms| == |texts|
    ensures forall k :: 0 <= k < |ms| ==> ms[k].callId == b.calls[next + k].id && ms[k].content == texts[k]
  {
    ResultMessages(b.calls[next..], texts)
  }

  predicate ResumeAllows(b: Batch, s: Sys, c: Continuation, i: nat)
    requires c.Active?
  {
    && i < |b.calls| && b.Who(i) in s.book && i <= c.next
    && (c.pending.Some? ==> c.pending.value == b.Who(i))
    && var status := s.book[b.Who(i)].status;
       && (i < c.next ==> status.Completed? || status.Denied? || status.Expired?)
       && !status.Claimed? && !status.Unknown?
  }

  /** Whether `ResumeApproval` goes on after recording the decision. */
  predicate DecisionStands(b: Batch, s: Sys, i: nat, allow: bool, now: int)
    requires i < |b.calls|
  {
    var r := Decide(s.book, b.Who(i), b.principal, allow, now).1;
    r.Ok? || r.error == IsExpired
  }

  predicate AuthEvent(e: Event) {
    e.FindApproval? || e.CreateApproval? || e.DecideNow? || e.ClaimApproval?
    || e.AbortClaimed? || e.RunClaimed? || e.FinishClaimed?
  }

  predicate GroupEvent(e: Event) { e.Skip? || e.Execute? || e.Panic? || e.Cancelled? }

  predicate CommitEvent(e: Event) {
    e.BeginGroup? || e.Collect? || e.JournalResults? || e.SaveLedger? || e.Advance? || e.Clear?
  }

  predicate ResumeEvent(e: Event) {
    e.ResumeLoad? || e.RecoverLedger? || e.RecoverContinuation? || e.ResumeDecide? || e.ResumeSave? || e.ResumeEnter?
  }

  function Find(b: Batch, s: Sys, same: bool, text: string): Sys {
    if !Asking(b, s) || s.runner.auth != NotAsked then s
    else
      var i := s.runner.c.next;
      var id := b.Who(i);
      if id !in s.book then SetAuth(s, MustCreate)
      else (match s.book[id].status
        case Claimed => Answer(s, i, NeedsApproval(id))
        case Unknown => Answer(s, i, NeedsApproval(id))
        case Completed => Answer(s, i, Text(if same then s.book[id].receipt else text))
        case Denied => Answer(s, i, Text(text))
        case Expired => Answer(s, i, Text(text))
        case _ => SetAuth(s, MustCreate))
  }

  function CreateOrReuse(b: Batch, s: Sys, action: Action, ttl: int, now: int, async: bool, w: Write, text: string)
    : Sys
  {
    if !Asking(b, s) || s.runner.auth != MustCreate || action.who != b.Who(s.runner.c.next) then s
    else
      var i := s.runner.c.next;
      var (book, r) := Create(s.book, action, ttl, now);
      var s' := PutBook(s, book, w);
      if r.Err? || !w.Good? then Answer(s', i, Text(text))
      else if !async then SetAuth(s', MustDecide)
      else if r.value.status == Pending then Answer(s', i, NeedsApproval(b.Who(i)))
      else if r.value.status == Approved then SetAuth(s', MustClaim)
      else Answer(s', i, Text(text))
  }

  function DecideHere(b: Batch, s: Sys, allow: bool, now: int, w: Write, text: string): Sys {
    if !Asking(b, s) || s.runner.auth != MustDecide then s
    else
      var i := s.runner.c.next;
      var (book, r) := Decide(s.book, b.Who(i), b.principal, allow, now);
      var s' := PutBook(s, book, w);
      if r.Err? || !w.Good? || !allow then Answer(s', i, Text(text)) else SetAuth(s', MustClaim)
  }

  function TryClaim(b: Batch, s: Sys, action: Action, now: int, token: string, w: Write, text: string): Sys {
    if !Asking(b, s) || s.runner.auth != MustClaim || token == "" then s
    else
      var i := s.runner.c.next;
      var (book, r) := Claim(s.book, b.Who(i), b.principal, action, now, token);
      var s' := PutBook(s, book, w);
      if r.Err? && r.error == ActionChanged then Answer(s', i, NeedsApproval(b.Who(i)))
      else if r.Err? || !w.Good? then Answer(s', i, Text(text))
      else SetAuth(s', HasClaim(token))
  }

  function Abort(b: Batch, s: Sys, text: string): Sys {
    if Asking(b, s) && s.runner.auth.HasClaim? then Answer(s, s.runner.c.next, Text(text)) else s
  }

  function RunHandler(b: Batch, s: Sys, invoked: bool, ok: bool, text: string): Sys {
    if Asking(b, s) && s.runner.auth.HasClaim? then
      Count(SetAuth(s, HasRun(s.runner.auth.token, if ok || !invoked then Completed else Unknown, text)),
            s.runner.c.next, invoked)
    else s
  }

  function WriteReceipt(b: Batch, s: Sys, async: bool, w: Write): Sys {
    if !Asking(b, s) || !s.runner.auth.HasRun? || !IsOutcome(s.runner.auth.outcome) then s
    else
      var i := s.runner.c.next;
      var a := s.runner.auth;
      var (book, r) := Finish(s.book, b.Who(i), a.token, a.outcome, a.text);
      var s' := PutBook(s, book, w);
      if r.Err? || !w.Good? || (a.outcome == Unknown && async) then Answer(s', i, OutcomeUnknown)
      else Answer(s', i, Text(a.text))
  }

  /** The risky call under authorization: find, create, decide, claim, run, finish. */
  function ApplyAuth(b: Batch, s: Sys, e: Event): Sys {
    match e
    case FindApproval(same, text) => Find(b, s, same, text)
    case CreateApproval(action, ttl, now, async, w, text) => CreateOrReuse(b, s, action, ttl, now, async, w, text)
    case DecideNow(allow, now, w, text) => DecideHere(b, s, allow, now, w, text)
    case ClaimApproval(action, now, token, w, text) => TryClaim(b, s, action, now, token, w, text)
    case AbortClaimed(text) => Abort(b, s, text)
    case RunClaimed(invoked, ok, text) => RunHandler(b, s, invoked, ok, text)
    case FinishClaimed(async, w) => WriteReceipt(b, s, async, w)
    case _ => s
  }

  /** Calls of a running group that are answered without the approval book. */
  function ApplyGroup(b: Batch, s: Sys, e: Event): Sys {
    match e
    case Skip(i, text) =>
      if Open(s, i) && s.runner.auth == NotAsked then Answer(s, i, Text(text)) else s
    case Execute(i, invoked, outcome) =>
      if Open(s, i) && i < |b.calls| && b.calls[i].kind != Risky && !outcome.NeedsApproval?
      then Count(Answer(s, i, outcome), i, invoked) else s
    case Panic(i) =>
      if Open(s, i) then Answer(s, i, OutcomeUnknown) else s
    case Cancelled(i, text) =>
      if s.runner.InGroup? && s.runner.c.Active? && s.runner.c.next <= i
         && i - s.runner.c.next < |s.runner.results| && s.runner.results[i - s.runner.c.next].Some?
         && !s.runner.results[i - s.runner.c.next].value.NeedsApproval?
      then s.(runner := s.runner.(results := s.runner.results[i - s.runner.c.next := Some(Text(text))])) else s
    case _ => s
  }

  /** Beginning a group, accepting its results and passing it, one durable write at a time. */
  function ApplyCommit(b: Batch, s: Sys, e: Event): Sys {
    match e
    case BeginGroup(w) =>
      if !s.runner.AtTop? || !s.runner.c.Active? || s.runner.c.next >= |b.calls| then s
      else
        var c := s.runner.c;
        if c.executing && b.calls[c.next].kind == Barrier then s.(runner := Off)
        else
          var c' := c.(executing := true);
          var end := GroupEnd(b.calls, c.next);
          Goto(PutCont(s, c', w), w, InGroup(c', end, seq(end - c.next, i => None), NotAsked))
    case Collect(w) =>
      if !s.runner.InGroup? || !s.runner.c.Active? || None in s.runner.results
         || s.runner.c.next + |s.runner.results| > |b.calls| then s
      else
        var c := s.runner.c;
        var texts := LeadingTexts(s.runner.results);
        var s' := s.(memory := s.memory + Accepted(b, c.next, texts));
        if |texts| == |s.runner.results| then s'.(runner := Collected(c, s.runner.end))
        else if s.runner.results[|texts|].value.NeedsApproval? then
          PutCont(s', c.(executing := false, pending := Some(s.runner.results[|texts|].value.id)), w).(runner := Off)
        else s'.(runner := Off)
    case JournalResults(w) =>
      if !s.runner.Collected? || !s.runner.c.Active? || s.runner.end < s.runner.c.next
         || |s.memory| < s.runner.end - s.runner.c.next then s
      else
        var c := s.runner.c;
        var c' := c.(buffered := s.memory[|s.memory| - (s.runner.end - c.next)..], bufferedNext := s.runner.end);
        Goto(PutCont(s, c', w), w, Journalled(c'))
    case SaveLedger(w) =>
      if s.runner.Journalled? then Goto(PutLedger(s, w), w, LedgerSaved(s.runner.c)) else s
    case Advance(w) =>
      if s.runner.LedgerSaved? && s.runner.c.Active? then
        var c' := Advanced(s.runner.c);
        Goto(PutCont(s, c', w), w, AtTop(c'))
      else s
    case Clear(w) =>
      if s.runner.AtTop? && s.runner.c.Active? && s.runner.c.next == |b.calls|
      then (if w.Lost? then s else s.(cont := Inactive)).(runner := Off) else s
    case _ => s
  }

  /** `ResumeApproval`: reload, recover, decide, save, and enter the turn again. */
  ghost function ApplyResume(b: Batch, s: Sys, e: Event): Sys {
    match e
    case ResumeLoad =>
      if s.runner.Off? && s.cont.Active? && s.current && s.cont.next <= |b.calls|
      then s.(runner := Resuming(s.cont)) else s
    case RecoverLedger(w) =>
      if !s.runner.Resuming? || !s.runner.c.Active? then s
      else
        var c := s.runner.c;
        var redo := RecoveredLedger(b.calls, c, s.ledger);
        if redo.None? then s.(runner := Off)
        else if c.buffered == [] then s.(runner := Checked(c))
        else
          var s' := s.(memory := redo.value);
          if s.ledger == c.oldLedger then Goto(PutLedger(s', w), w, Redone(c)) else s'.(runner := Redone(c))
    case RecoverContinuation(w) =>
      if s.runner.Redone? && s.runner.c.Active? then
        var c' := Advanced(s.runner.c);
        Goto(PutCont(s, c', w), w, Checked(c'))
      else s
    case ResumeDecide(i, allow, now, w) =>
      if !s.runner.Checked? || !s.runner.c.Active? then s
      else if !ResumeAllows(b, s, s.runner.c, i) then s.(runner := Off)
      else
        var c' := s.runner.c.(pending := Some(b.Who(i)));
        if s.book[b.Who(i)].status.Pending? || s.book[b.Who(i)].status.Approved? then
          var s' := PutBook(s, Decide(s.book, b.Who(i), b.principal, allow, now).0, w);
          if DecisionStands(b, s, i, allow, now) then Goto(s', w, Ready(c')) else s'.(runner := Off)
        else s.(runner := Ready(c'))
    case ResumeSave(w) =>
      if s.runner.Ready? && s.runner.c.Active? then Goto(PutCont(s, s.runner.c, w), w, Entering(s.runner.c)) else s
    case ResumeEnter(w) =>
      if s.runner.Entering? then Goto(PutLedger(s, w), w, AtTop(s.runner.c)) else s
    case _ => s
  }

  /**
    What ends a turn from outside, approvals of other turns, and another owner that claims the session, for which it
    needs the turn lease.
   */
  function ApplyWorld(b: Batch, s: Sys, e: Event): Sys {
    match e
    case GiveUp => s.(runner := Off)
    case CrashAndRestart => s.(runner := Off, memory := s.ledger, current := true)
    case OtherApproval(id, rec) =>
      if forall i :: 0 <= i < |b.calls| ==> b.Who(i) != id then s.(book := s.book[id := rec]) else s
    case ClaimElsewhere(w) => if s.runner.Off? && !w.Lost? then s.(current := false) else s
    case _ => s
  }

  /** One atomic step; an event whose actor is not at that point leaves the system as it is. */
  ghost function Apply(b: Batch, s: Sys, e: Event): Sys {
    if AuthEvent(e) then ApplyAuth(b, s, e)
    else if GroupEvent(e) then ApplyGroup(b, s, e)
    else if CommitEvent(e) then ApplyCommit(b, s, e)
    else if ResumeEvent(e) then ApplyResume(b, s, e)
    else ApplyWorld(b, s, e)
  }

  ghost function After(b: Batch, s: Sys, es: seq<Event>): Sys {
    if es == [] then s else Apply(b, After(b, s, es[..|es| - 1]), es[|es| - 1])
  }

  /** The first continuation has been saved; the assistant message with the calls ends the base ledger. */
  function Start(b: Batch, book: Book, base: Ledger): Sys {
    var c := Active(0, false, None, base, |base|, [], 0);
    Sys(book, c, base, base, true, AtTop(c), seq(|b.calls|, i => 0))
  }

  // ---------------------------------------------------------------------------
  // The turn's copy of the continuation agrees with the durable one
  // ---------------------------------------------------------------------------

  ghost predicate Linked(b: Batch, c: Continuation, cont: Continuation) {
    && c.Active? && cont.Active? && c.next == cont.next <= |b.calls|
    && c.executing == cont.executing && c.buffered == cont.buffered && c.bufferedNext == cont.bufferedNext
  }

  ghost predicate LinkInv(b: Batch, s: Sys) {
    match s.runner
    case Off => true
    case AtTop(c) => Linked(b, c, s.cont) && c.buffered == []
    case InGroup(c, end, results, auth) =>
      && Linked(b, c, s.cont) && c.buffered == [] && c.executing && c.next < |b.calls|
      && end == GroupEnd(b.calls, c.next) && |results| == end - c.next
      && (auth != NotAsked ==> b.calls[c.next].kind == Risky && results[0] == None)
      && forall k :: 0 <= k < |results| && results[k].Some? && results[k].value.NeedsApproval? ==>
           b.calls[c.next + k].kind == Risky
    case Collected(c, end) =>
      Linked(b, c, s.cont) && c.buffered == [] && c.next < |b.calls| && end == GroupEnd(b.calls, c.next)
    case Journalled(c) => Linked(b, c, s.cont) && c.next < c.bufferedNext <= |b.calls|
    case LedgerSaved(c) => Linked(b, c, s.cont) && c.next < c.bufferedNext <= |b.calls|
    case Resuming(c) => c.Active? && c == s.cont && c.next <= |b.calls|
    case Redone(c) => c == s.cont && ValidJournal(b.calls, c)
    case Checked(c) => Linked(b, c, s.cont) && c.buffered == []
    case Ready(c) => Linked(b, c, s.cont) && c.buffered == []
    case Entering(c) => Linked(b, c, s.cont) && c.buffered == []
  }

  /** An authorization step answers the call it is about, or only moves that authorization on. */
  ghost predicate AuthShape(b: Batch, s: Sys, s': Sys) {
    s' == s
    || (Asking(b, s) && s'.runner.InGroup? && s'.runner.c == s.runner.c && s'.runner.end == s.runner.end
        && s'.cont == s.cont && s'.ledger == s.ledger && s'.memory == s.memory && s'.current == s.current
        && (s'.runner.results == s.runner.results
            || (s'.runner.auth == NotAsked && |s'.runner.results| == |s.runner.results| && s'.runner.results[0].Some?)))
  }

  lemma FindingShape(b: Batch, s: Sys, e: Event)
    requires e.FindApproval?
    ensures AuthShape(b, s, ApplyAuth(b, s, e))
  {
    hide CreateOrReuse, DecideHere, TryClaim, Abort, RunHandler, WriteReceipt;
  }

  lemma AskingShape(b: Batch, s: Sys, e: Event)
    requires e.CreateApproval? || e.DecideNow?
    ensures AuthShape(b, s, ApplyAuth(b, s, e))
  {
    hide Create, Decide, Find, TryClaim, Abort, RunHandler, WriteReceipt;
  }

  lemma ClaimingShape(b: Batch, s: Sys, e: Event)
    requires e.ClaimApproval? || e.AbortClaimed? || e.RunClaimed? || e.FinishClaimed?
    ensures AuthShape(b, s, ApplyAuth(b, s, e))
  {
    hide Claim, Finish, Find, CreateOrReuse, DecideHere;
  }

  lemma AuthHasShape(b: Batch, s: Sys, e: Event)
    ensures AuthShape(b, s, ApplyAuth(b, s, e))
  {
    hide AuthShape, Find, CreateOrReuse, DecideHere, TryClaim, Abort, RunHandler, WriteReceipt;
    if e.FindApproval? {
      FindingShape(b, s, e);
    } else if e.CreateApproval? || e.DecideNow? {
      AskingShape(b, s, e);
    } else if e.ClaimApproval? || e.AbortClaimed? || e.RunClaimed? || e.FinishClaimed? {
      ClaimingShape(b, s, e);
    } else {
      SameShape(b, s);
    }
  }

  lemma SameShape(b: Batch, s: Sys)
    ensures AuthShape(b, s, s)
  {}

  lemma AuthKeepsLink(b: Batch, s: Sys, e: Event)
    requires LinkInv(b, s)
    ensures LinkInv(b, ApplyAuth(b, s, e))
  {
    hide ApplyAuth, GroupEnd;
    AuthHasShape(b, s, e);
  }

  lemma GroupKeepsLink(b: Batch, s: Sys, e: Event)
    requires LinkInv(b, s)
    ensures LinkInv(b, ApplyGroup(b, s, e))
  {
    hide GroupEnd;
  }

  lemma CommitKeepsLink(b: Batch, s: Sys, e: Event)
    requires LinkInv(b, s)
    ensures LinkInv(b, ApplyCommit(b, s, e))
  {
    hide LeadingTexts, ReadsFrom;
  }

  lemma ResumeKeepsLink(b: Batch, s: Sys, e: Event)
    requires LinkInv(b, s)
    ensures LinkInv(b, ApplyResume(b, s, e))
  {
    hide Decide, GroupEnd;
  }

  lemma WorldKeepsLink(b: Batch, s: Sys, e: Event)
    requires LinkInv(b, s)
    ensures LinkInv(b, ApplyWorld(b, s, e))
  {
    hide GroupEnd;
  }

  lemma StepKeepsLink(b: Batch, s: Sys, e: Event)
    requires LinkInv(b, s)
    ensures LinkInv(b, Apply(b, s, e))
  {
    hide ApplyAuth, ApplyGroup, ApplyCommit, ApplyResume, ApplyWorld, LinkInv;
    AuthKeepsLink(b, s, e);
    GroupKeepsLink(b, s, e);
    CommitKeepsLink(b, s, e);
    ResumeKeepsLink(b, s, e);
    WorldKeepsLink(b, s, e);
  }

  // ---------------------------------------------------------------------------
  // Handlers run at most once
  // ---------------------------------------------------------------------------

  /** What is known of call `i` whenever its handler may have been invoked. */
  ghost predicate OnceAt(b: Batch, s: Sys, i: nat)
    requires i < |b.calls|
  {
    && |s.ran| == |b.calls|
    && (b.calls[i].kind == Barrier ==>
          && s.ran[i] <= 1
          && (s.ran[i] == 1 && s.cont.Active? ==> i < s.cont.next || (i == s.cont.next && s.cont.executing))
          && (Open(s, i) ==> s.ran[i] == 0))
    && (b.calls[i].kind == Risky ==>
          && s.ran[i] <= 1
          && (s.ran[i] == 1 ==> b.Who(i) in s.book && WasClaimed(s.book[b.Who(i)].status))
          && (HoldsClaim(s, i) ==>
                s.ran[i] == 0 && b.Who(i) in s.book && WasClaimed(s.book[b.Who(i)].status)))
  }

  /** A turn has just claimed call `i` and is about to invoke its handler. */
  predicate HoldsClaim(s: Sys, i: nat) {
    s.runner.InGroup? && s.runner.c.Active? && s.runner.c.next == i && s.runner.auth.HasClaim?
  }

  lemma ClaimedStaysClaimed(book: Book, who: Identity, id: Identity, a: Action, principal: string, allow: bool,
                            ttl: int, now: int, token: string)
    requires who in book && WasClaimed(book[who].status)
    ensures var k := Create(book, a, ttl, now).0; who in k && WasClaimed(k[who].status)
    ensures var k := Decide(book, id, principal, allow, now).0; who in k && WasClaimed(k[who].status)
    ensures var k := Claim(book, id, principal, a, now, token).0; who in k && WasClaimed(k[who].status)
    ensures Claim(book, who, principal, a, now, token).1.Err?
  {}

  lemma FinishStaysClaimed(book: Book, who: Identity, id: Identity, token: string, o: Status, receipt: string)
    requires who in book && WasClaimed(book[who].status) && IsOutcome(o)
    ensures var k := Finish(book, id, token, o, receipt).0; who in k && WasClaimed(k[who].status)
  {}

  lemma ClaimWins(book: Book, who: Identity, principal: string, a: Action, now: int, token: string)
    requires Claim(book, who, principal, a, now, token).1.Ok?
    ensures who in book && !WasClaimed(book[who].status)
    ensures var k := Claim(book, who, principal, a, now, token).0; who in k && WasClaimed(k[who].status)
  {}

  function NoAction(): Action { Action(Identity("", "", "", ""), "", "", "", "") }

  /** The durable position never moves back, and a barrier that began executing stays marked until it is passed. */
  ghost predicate Forward(b: Batch, c: Continuation, c': Continuation, i: nat)
    requires i < |b.calls|
  {
    c'.Active? ==>
      && c.Active?
      && (c'.next > c.next
          || (c'.next == c.next && (b.calls[i].kind == Barrier && i == c.next && c.executing ==> c'.executing)))
  }

  ghost predicate ClaimsKept(book: Book, book': Book, who: Identity) {
    who in book && WasClaimed(book[who].status) ==> who in book' && WasClaimed(book'[who].status)
  }

  /** A step that invokes no handler of call `i` and makes no new claim for it. */
  ghost predicate Quiet(b: Batch, s: Sys, s': Sys, i: nat)
    requires i < |b.calls|
  {
    && s'.ran == s.ran && ClaimsKept(s.book, s'.book, b.Who(i))
    && Forward(b, s.cont, s'.cont, i)
    && (Open(s', i) ==> Open(s, i)) && (HoldsClaim(s', i) ==> HoldsClaim(s, i))
  }

  lemma QuietKeepsOnce(b: Batch, s: Sys, s': Sys, i: nat)
    requires i < |b.calls| && OnceAt(b, s, i) && Quiet(b, s, s', i)
    ensures OnceAt(b, s', i)
  {}

  lemma ResumeKeepsClaims(b: Batch, s: Sys, e: Event, i: nat)
    requires i < |b.calls|
    ensures ClaimsKept(s.book, ApplyResume(b, s, e).book, b.Who(i))
  {
    hide Decide, WasClaimed, RecoveredLedger;
    var who := b.Who(i);
    if e.ResumeDecide? && who in s.book && WasClaimed(s.book[who].status) && e.i < |b.calls| {
      ClaimedStaysClaimed(s.book, who, b.Who(e.i), NoAction(), b.principal, e.allow, 0, e.now, "");
    }
  }

  lemma ResumeIsQuiet(b: Batch, s: Sys, e: Event, i: nat)
    requires LinkInv(b, s) && i < |b.calls|
    ensures Quiet(b, s, ApplyResume(b, s, e), i)
  {
    hide Decide, GroupEnd, ResumeAllows, DecisionStands, ClaimsKept;
    ResumeKeepsClaims(b, s, e, i);
  }

  lemma WorldIsQuiet(b: Batch, s: Sys, e: Event, i: nat)
    requires LinkInv(b, s) && i < |b.calls|
    ensures Quiet(b, s, ApplyWorld(b, s, e), i)
  {
    hide GroupEnd;
  }

  /** Committing steps other than the beginning of a group; only a risky call can pause its group. */
  lemma CommitIsQuiet(b: Batch, s: Sys, e: Event, i: nat)
    requires LinkInv(b, s) && i < |b.calls| && !e.BeginGroup?
    ensures Quiet(b, s, ApplyCommit(b, s, e), i)
  {
    hide WasClaimed, ReadsFrom, GroupEnd, Accepted, LeadingTexts;
    if e.Collect? {
      CollectIsQuiet(b, s, e.w, i);
    }
  }

  lemma CollectIsQuiet(b: Batch, s: Sys, w: Write, i: nat)
    requires LinkInv(b, s) && i < |b.calls|
    ensures Quiet(b, s, ApplyCommit(b, s, Collect(w)), i)
  {
    hide WasClaimed, ReadsFrom, Accepted;
  }

  lemma BeginKeepsOnce(b: Batch, s: Sys, w: Write, i: nat)
    requires LinkInv(b, s) && i < |b.calls| && OnceAt(b, s, i)
    ensures OnceAt(b, ApplyCommit(b, s, BeginGroup(w)), i)
  {
    hide ReadsFrom, WasClaimed;
  }

  lemma CommitKeepsOnce(b: Batch, s: Sys, e: Event, i: nat)
    requires LinkInv(b, s) && i < |b.calls| && OnceAt(b, s, i) && CommitEvent(e)
    ensures OnceAt(b, ApplyCommit(b, s, e), i)
  {
    hide ApplyCommit, LinkInv, OnceAt, Quiet;
    if e.BeginGroup? {
      BeginKeepsOnce(b, s, e.w, i);
    } else {
      CommitIsQuiet(b, s, e, i);
      QuietKeepsOnce(b, s, ApplyCommit(b, s, e), i);
    }
  }

  lemma GroupKeepsOnce(b: Batch, s: Sys, e: Event, i: nat)
    requires LinkInv(b, s) && i < |b.calls| && OnceAt(b, s, i)
    ensures OnceAt(b, ApplyGroup(b, s, e), i)
  {
    hide GroupEnd, WasClaimed;
  }

  /** Authorization steps short of winning the claim and invoking the handler. */
  lemma AskingKeepsClaims(b: Batch, s: Sys, e: Event, i: nat)
    requires i < |b.calls| && (e.FindApproval? || e.CreateApproval? || e.DecideNow?)
    ensures ClaimsKept(s.book, ApplyAuth(b, s, e).book, b.Who(i))
  {
    hide Create, Decide, WasClaimed, TryClaim, Abort, RunHandler, WriteReceipt;
    if Asking(b, s) {
      var who, asked := b.Who(i), b.Who(s.runner.c.next);
      if who in s.book && WasClaimed(s.book[who].status) {
        if e.CreateApproval? {
          ClaimedStaysClaimed(s.book, who, asked, e.action, "", true, e.ttl, e.now, "");
        } else if e.DecideNow? {
          ClaimedStaysClaimed(s.book, who, asked, NoAction(), b.principal, e.allow, 0, e.now, "");
        }
      }
    }
  }

  lemma ClaimingKeepsClaims(b: Batch, s: Sys, e: Event, i: nat)
    requires i < |b.calls| && (e.ClaimApproval? || e.AbortClaimed? || e.RunClaimed? || e.FinishClaimed?)
    ensures ClaimsKept(s.book, ApplyAuth(b, s, e).book, b.Who(i))
  {
    hide Claim, Finish, WasClaimed, Find, CreateOrReuse, DecideHere;
    if Asking(b, s) {
      var who, asked := b.Who(i), b.Who(s.runner.c.next);
      if who in s.book && WasClaimed(s.book[who].status) {
        if e.ClaimApproval? {
          ClaimedStaysClaimed(s.book, who, asked, e.action, b.principal, true, 0, e.now, e.token);
        } else if e.FinishClaimed? && s.runner.auth.HasRun? && IsOutcome(s.runner.auth.outcome) {
          FinishStaysClaimed(s.book, who, asked, s.runner.auth.token, s.runner.auth.outcome, s.runner.auth.text);
        }
      }
    }
  }

  lemma AuthKeepsClaims(b: Batch, s: Sys, e: Event, i: nat)
    requires i < |b.calls|
    ensures ClaimsKept(s.book, ApplyAuth(b, s, e).book, b.Who(i))
  {
    hide WasClaimed, Find, CreateOrReuse, DecideHere, TryClaim, Abort, RunHandler, WriteReceipt;
    if e.FindApproval? || e.CreateApproval? || e.DecideNow? {
      AskingKeepsClaims(b, s, e, i);
    } else if e.ClaimApproval? || e.AbortClaimed? || e.RunClaimed? || e.FinishClaimed? {
      ClaimingKeepsClaims(b, s, e, i);
    }
  }

  lemma AuthIsQuiet(b: Batch, s: Sys, e: Event, i: nat)
    requires LinkInv(b, s) && i < |b.calls| && !e.RunClaimed? && !e.ClaimApproval?
    ensures Quiet(b, s, ApplyAuth(b, s, e), i)
  {
    hide Create, Decide, Claim, Finish, GroupEnd, ClaimsKept, Find, CreateOrReuse, DecideHere;
    AuthKeepsClaims(b, s, e, i);
    if e.FindApproval? || e.CreateApproval? || e.DecideNow? {
      AskingIsQuiet(b, s, e, i);
    }
  }

  lemma AskingIsQuiet(b: Batch, s: Sys, e: Event, i: nat)
    requires LinkInv(b, s) && i < |b.calls| && (e.FindApproval? || e.CreateApproval? || e.DecideNow?)
    ensures Quiet(b, s, ApplyAuth(b, s, e), i)
  {
    hide Create, Decide, GroupEnd, ClaimsKept, Find, TryClaim, Abort, RunHandler, WriteReceipt;
    AskingKeepsClaims(b, s, e, i);
    if e.FindApproval? {
      FindIsQuiet(b, s, e, i);
    }
  }

  lemma FindIsQuiet(b: Batch, s: Sys, e: Event, i: nat)
    requires LinkInv(b, s) && i < |b.calls| && e.FindApproval?
    ensures Quiet(b, s, ApplyAuth(b, s, e), i)
  {
    hide GroupEnd, WasClaimed, CreateOrReuse, DecideHere, TryClaim, Abort, RunHandler, WriteReceipt;
  }

  lemma ClaimKeepsOnce(b: Batch, s: Sys, e: Event, i: nat)
    requires LinkInv(b, s) && i < |b.calls| && OnceAt(b, s, i) && e.ClaimApproval?
    ensures OnceAt(b, ApplyAuth(b, s, e), i)
  {
    hide Claim, GroupEnd, WasClaimed;
    AuthKeepsClaims(b, s, e, i);
    if Asking(b, s) {
      var who, asked := b.Who(i), b.Who(s.runner.c.next);
      if Claim(s.book, asked, b.principal, e.action, e.now, e.token).1.Ok? {
        ClaimWins(s.book, asked, b.principal, e.action, e.now, e.token);
      }
    }
  }

  lemma RunKeepsOnce(b: Batch, s: Sys, e: Event, i: nat)
    requires LinkInv(b, s) && i < |b.calls| && OnceAt(b, s, i) && e.RunClaimed?
    ensures OnceAt(b, ApplyAuth(b, s, e), i)
  {
    hide GroupEnd, WasClaimed;
  }

  lemma AuthKeepsOnce(b: Batch, s: Sys, e: Event, i: nat)
    requires LinkInv(b, s) && i < |b.calls| && OnceAt(b, s, i)
    ensures OnceAt(b, ApplyAuth(b, s, e), i)
  {
    hide ApplyAuth, LinkInv, OnceAt, Quiet;
    if e.RunClaimed? {
      RunKeepsOnce(b, s, e, i);
    } else if e.ClaimApproval? {
      ClaimKeepsOnce(b, s, e, i);
    } else {
      AuthIsQuiet(b, s, e, i);
      QuietKeepsOnce(b, s, ApplyAuth(b, s, e), i);
    }
  }

  lemma StepKeepsOnce(b: Batch, s: Sys, e: Event, i: nat)
    requires LinkInv(b, s) && i < |b.calls| && OnceAt(b, s, i)
    ensures OnceAt(b, Apply(b, s, e), i)
  {
    hide ApplyAuth, ApplyGroup, ApplyCommit, ApplyResume, ApplyWorld, LinkInv, OnceAt, Quiet;
    if AuthEvent(e) {
      AuthKeepsOnce(b, s, e, i);
    } else if GroupEvent(e) {
      GroupKeepsOnce(b, s, e, i);
    } else if CommitEvent(e) {
      CommitKeepsOnce(b, s, e, i);
    } else if ResumeEvent(e) {
      ResumeIsQuiet(b, s, e, i);
      QuietKeepsOnce(b, s, ApplyResume(b, s, e), i);
    } else {
      WorldIsQuiet(b, s, e, i);
      QuietKeepsOnce(b, s, ApplyWorld(b, s, e), i);
    }
  }

  // ---------------------------------------------------------------------------
  // Every run
  // ---------------------------------------------------------------------------

  lemma {:induction false} Reachable(b: Batch, book: Book, base: Ledger, es: seq<Event>, i: nat)
    requires i < |b.calls|
    ensures LinkInv(b, After(b, Start(b, book, base), es)) && OnceAt(b, After(b, Start(b, book, base), es), i)
  {
    if es != [] {
      var before := es[..|es| - 1];
      Reachable(b, book, base, before, i);
      StepKeepsLink(b, After(b, Start(b, book, base), before), es[|es| - 1]);
      StepKeepsOnce(b, After(b, Start(b, book, base), before), es[|es| - 1], i);
    }
  }

  /**
    Over every run, with any crashes, failing writes and resumptions, the handler of a call that is risky
    or is not a concurrency-safe read is invoked at most once.
   */
  lemma HandlersRunAtMostOnce(b: Batch, book: Book, base: Ledger, es: seq<Event>, i: nat)
    requires i < |b.calls| && b.calls[i].kind != SafeRead
    ensures var s := After(b, Start(b, book, base), es);
            |s.ran| == |b.calls| && s.ran[i] <= 1
  {
    Reachable(b, book, base, es, i);
  }

  /** A risky call's record is claimed, with or without a receipt, and no live turn is holding that claim. */
  ghost predicate Spent(b: Batch, s: Sys, i: nat)
    requires i < |b.calls|
  {
    b.calls[i].kind == Risky && b.Who(i) in s.book && WasClaimed(s.book[b.Who(i)].status) && !HoldsClaim(s, i)
  }

  lemma ClaimOfSpentFails(b: Batch, s: Sys, e: Event, i: nat)
    requires i < |b.calls| && Spent(b, s, i) && e.ClaimApproval?
    ensures !HoldsClaim(ApplyAuth(b, s, e), i)
  {
    if Asking(b, s) && s.runner.c.next == i {
      ClaimedStaysClaimed(s.book, b.Who(i), b.Who(i), e.action, b.principal, true, 0, e.now, e.token);
    }
  }

  lemma AuthKeepsSpent(b: Batch, s: Sys, e: Event, i: nat)
    requires LinkInv(b, s) && i < |b.calls| && |s.ran| == |b.calls| && Spent(b, s, i)
    ensures var s' := ApplyAuth(b, s, e);
            Spent(b, s', i) && |s'.ran| == |s.ran| && s'.ran[i] == s.ran[i]
  {
    hide Create, Decide, Claim, Finish, GroupEnd, WasClaimed;
    AuthKeepsClaims(b, s, e, i);
    if e.ClaimApproval? {
      ClaimOfSpentFails(b, s, e, i);
    }
  }

  lemma CallsKeepSpent(b: Batch, s: Sys, e: Event, i: nat)
    requires LinkInv(b, s) && i < |b.calls| && |s.ran| == |b.calls| && Spent(b, s, i)
    ensures var s' := ApplyGroup(b, s, e);
            Spent(b, s', i) && |s'.ran| == |s.ran| && s'.ran[i] == s.ran[i]
  {
    hide GroupEnd, WasClaimed;
  }

  lemma SpentStays(b: Batch, s: Sys, e: Event, i: nat)
    requires LinkInv(b, s) && i < |b.calls| && |s.ran| == |b.calls| && Spent(b, s, i)
    ensures var s' := Apply(b, s, e);
            Spent(b, s', i) && |s'.ran| == |s.ran| && s'.ran[i] == s.ran[i]
  {
    hide ApplyAuth, ApplyGroup, ApplyCommit, ApplyResume, ApplyWorld, LinkInv, WasClaimed;
    if AuthEvent(e) {
      AuthKeepsSpent(b, s, e, i);
    } else if GroupEvent(e) {
      CallsKeepSpent(b, s, e, i);
    } else if CommitEvent(e) {
      if e.BeginGroup? {
        BeginHoldsNoClaim(b, s, e.w, i);
      } else {
        CommitIsQuiet(b, s, e, i);
      }
    } else if ResumeEvent(e) {
      ResumeIsQuiet(b, s, e, i);
    } else {
      WorldIsQuiet(b, s, e, i);
    }
  }

  lemma BeginHoldsNoClaim(b: Batch, s: Sys, w: Write, i: nat)
    ensures var s' := ApplyCommit(b, s, BeginGroup(w));
            s'.book == s.book && s'.ran == s.ran && (HoldsClaim(s', i) ==> HoldsClaim(s, i))
  {
    hide GroupEnd;
  }

  /**
    A claim is never used twice: once a risky call has been claimed and the turn that claimed it is gone or
    past the handler, no later step invokes the handler again, whether or not a receipt was written.
   */
  lemma {:induction false} ClaimIsNeverRedispatched(b: Batch, book: Book, base: Ledger, es: seq<Event>,
                                                    more: seq<Event>, i: nat)
    requires i < |b.calls| && Spent(b, After(b, Start(b, book, base), es), i)
    ensures var s, s' := After(b, Start(b, book, base), es), After(b, Start(b, book, base), es + more);
            Spent(b, s', i) && |s.ran| == |s'.ran| == |b.calls| && s'.ran[i] == s.ran[i]
    decreases |more|
  {
    hide Apply, Spent, Start, LinkInv;
    Reachable(b, book, base, es, i);
    if more == [] {
      assert es + more == es;
    } else {
      var less := more[..|more| - 1];
      ClaimIsNeverRedispatched(b, book, base, es, less, i);
      assert (es + more)[..|es + more| - 1] == es + less;
      Reachable(b, book, base, es + less, i);
      SpentStays(b, After(b, Start(b, book, base), es + less), more[|more| - 1], i);
    }
  }

  // ---------------------------------------------------------------------------
  // Receipts are replayed
  // ---------------------------------------------------------------------------

  /** What the turn does with a risky call that already has a record: replay, pause or refuse, never run. */
  lemma FoundRecordIsAnswered(b: Batch, s: Sys, same: bool, text: string)
    requires Asking(b, s) && s.runner.auth == NotAsked && b.Who(s.runner.c.next) in s.book
    ensures var i := s.runner.c.next;
            var rec := s.book[b.Who(i)];
            var s' := Apply(b, s, FindApproval(same, text));
            && s'.book == s.book && s'.ran == s.ran
            && (rec.status.Completed? && same ==> s' == Answer(s, i, Text(rec.receipt)))
            && (rec.status.Claimed? || rec.status.Unknown? ==> s' == Answer(s, i, NeedsApproval(b.Who(i))))
            && (Final(rec.status) && !rec.status.Failed? ==> s'.runner.results[0].Some?)
  {
    hide GroupEnd;
  }

  /** A settled record stays as it is. */
  ghost predicate FinalKept(book: Book, book': Book, who: Identity) {
    who in book && Final(book[who].status) ==> who in book' && book'[who] == book[who]
  }

  lemma StoreKeepsFinal(book: Book, who: Identity, id: Identity, a: Action, principal: string, allow: bool, ttl: int,
                        now: int, token: string, o: Status, receipt: string)
    requires IsOutcome(o)
    ensures FinalKept(book, Create(book, a, ttl, now).0, who)
    ensures FinalKept(book, Decide(book, id, principal, allow, now).0, who)
    ensures FinalKept(book, Claim(book, id, principal, a, now, token).0, who)
    ensures FinalKept(book, Finish(book, id, token, o, receipt).0, who)
  {}

  lemma AskingKeepsFinal(b: Batch, s: Sys, e: Event, who: Identity)
    requires e.FindApproval? || e.CreateApproval? || e.DecideNow?
    ensures FinalKept(s.book, ApplyAuth(b, s, e).book, who)
  {
    hide Create, Decide, TryClaim, Abort, RunHandler, WriteReceipt;
    if Asking(b, s) {
      var asked := b.Who(s.runner.c.next);
      if e.CreateApproval? {
        StoreKeepsFinal(s.book, who, asked, e.action, "", true, e.ttl, e.now, "", Completed, "");
      } else if e.DecideNow? {
        StoreKeepsFinal(s.book, who, asked, NoAction(), b.principal, e.allow, 0, e.now, "", Completed, "");
      }
    }
  }

  lemma ClaimingKeepsFinal(b: Batch, s: Sys, e: Event, who: Identity)
    requires e.ClaimApproval? || e.AbortClaimed? || e.RunClaimed? || e.FinishClaimed?
    ensures FinalKept(s.book, ApplyAuth(b, s, e).book, who)
  {
    hide Claim, Finish, Find, CreateOrReuse, DecideHere;
    if Asking(b, s) {
      var asked := b.Who(s.runner.c.next);
      if e.ClaimApproval? {
        StoreKeepsFinal(s.book, who, asked, e.action, b.principal, true, 0, e.now, e.token, Completed, "");
      } else if e.FinishClaimed? && s.runner.auth.HasRun? && IsOutcome(s.runner.auth.outcome) {
        StoreKeepsFinal(s.book, who, asked, NoAction(), "", true, 0, 0, s.runner.auth.token, s.runner.auth.outcome,
                        s.runner.auth.text);
      }
    }
  }

  lemma ResumeKeepsFinal(b: Batch, s: Sys, e: Event, who: Identity)
    ensures FinalKept(s.book, ApplyResume(b, s, e).book, who)
  {
    hide Decide;
    if e.ResumeDecide? && e.i < |b.calls| {
      StoreKeepsFinal(s.book, who, b.Who(e.i), NoAction(), b.principal, e.allow, 0, e.now, "", Completed, "");
    }
  }

  lemma GroupKeepsBook(b: Batch, s: Sys, e: Event)
    ensures ApplyGroup(b, s, e).book == s.book
  {
  }

  lemma CommitKeepsBook(b: Batch, s: Sys, e: Event)
    ensures ApplyCommit(b, s, e).book == s.book
  {
    hide GroupEnd, LeadingTexts, Accepted, Stamped, Advanced;
  }

  lemma WorldKeepsFinal(b: Batch, s: Sys, e: Event, i: nat)
    requires i < |b.calls|
    ensures FinalKept(s.book, ApplyWorld(b, s, e).book, b.Who(i))
  {
  }

  lemma StepKeepsFinal(b: Batch, s: Sys, e: Event, i: nat)
    requires i < |b.calls|
    ensures FinalKept(s.book, Apply(b, s, e).book, b.Who(i))
  {
    hide ApplyAuth, ApplyGroup, ApplyCommit, ApplyResume, ApplyWorld, FinalKept;
    FinalKeptItself(s.book, b.Who(i));
    GroupKeepsBook(b, s, e);
    CommitKeepsBook(b, s, e);
    WorldKeepsFinal(b, s, e, i);
    if e.FindApproval? || e.CreateApproval? || e.DecideNow? {
      AskingKeepsFinal(b, s, e, b.Who(i));
    } else if AuthEvent(e) {
      ClaimingKeepsFinal(b, s, e, b.Who(i));
    } else if ResumeEvent(e) {
      ResumeKeepsFinal(b, s, e, b.Who(i));
    }
  }

  lemma FinalKeptItself(book: Book, who: Identity)
    ensures FinalKept(book, book, who)
  {}

  lemma {:induction false} FinalForGood(b: Batch, s: Sys, more: seq<Event>, i: nat)
    requires i < |b.calls|
    ensures FinalKept(s.book, After(b, s, more).book, b.Who(i))
  {
    hide Apply;
    if more != [] {
      FinalForGood(b, s, more[..|more| - 1], i);
      StepKeepsFinal(b, After(b, s, more[..|more| - 1]), more[|more| - 1], i);
    }
  }

  /**
    A completed receipt is replayed and not run again: at any later point of any run, crashes and resumptions
    included, a turn that comes to the call answers it with that receipt and leaves book and handler alone.
   */
  lemma ReceiptIsReplayed(b: Batch, s: Sys, more: seq<Event>, i: nat, text: string)
    requires i < |b.calls| && b.Who(i) in s.book && s.book[b.Who(i)].status.Completed?
    ensures var z := After(b, s, more);
            var z' := Apply(b, z, FindApproval(true, text));
            && b.Who(i) in z.book && z.book[b.Who(i)] == s.book[b.Who(i)]
            && (Asking(b, z) && z.runner.c.next == i && z.runner.auth == NotAsked ==>
                  z' == Answer(z, i, Text(s.book[b.Who(i)].receipt)) && z'.ran == z.ran && z'.book == z.book)
  {
    FinalForGood(b, s, more, i);
    var z := After(b, s, more);
    hide Apply, After;
    if Asking(b, z) && z.runner.c.next == i && z.runner.auth == NotAsked {
      FoundRecordIsAnswered(b, z, true, text);
    }
  }

  // ---------------------------------------------------------------------------
  // A running turn owns the session
  // ---------------------------------------------------------------------------

  /** A turn that goes on holds the very session that is on disk. */
  ghost predicate OwnsSession(s: Sys) { s.runner.Off? || s.current }

  lemma CommitKeepsSession(b: Batch, s: Sys, e: Event)
    requires OwnsSession(s)
    ensures OwnsSession(ApplyCommit(b, s, e))
  {
    hide GroupEnd, LeadingTexts, Accepted, Stamped, Advanced;
  }

  lemma ResumeKeepsSession(b: Batch, s: Sys, e: Event)
    requires OwnsSession(s)
    ensures OwnsSession(ApplyResume(b, s, e))
  {
    hide RecoveredLedger, Decide, ResumeAllows, DecisionStands, Stamped, Advanced;
  }

  lemma GroupKeepsSession(b: Batch, s: Sys, e: Event)
    requires OwnsSession(s)
    ensures OwnsSession(ApplyGroup(b, s, e)) && OwnsSession(ApplyWorld(b, s, e))
  {
  }

  lemma StepKeepsSession(b: Batch, s: Sys, e: Event)
    requires OwnsSession(s)
    ensures OwnsSession(Apply(b, s, e))
  {
    hide ApplyAuth, ApplyGroup, ApplyCommit, ApplyResume, ApplyWorld;
    AuthHasShape(b, s, e);
    GroupKeepsSession(b, s, e);
    CommitKeepsSession(b, s, e);
    ResumeKeepsSession(b, s, e);
  }

  /**
    No save of a running turn is refused: a failed write of its own ends the turn, and while it holds the turn lease
    no other owner can claim the session.
   */
  lemma {:induction false} TurnsOwnTheSession(b: Batch, book: Book, base: Ledger, es: seq<Event>)
    ensures OwnsSession(After(b, Start(b, book, base), es))
  {
    hide Apply;
    if es != [] {
      TurnsOwnTheSession(b, book, base, es[..|es| - 1]);
      StepKeepsSession(b, After(b, Start(b, book, base), es[..|es| - 1]), es[|es| - 1]);
    }
  }

  /** No turn is running, and the process stands on another content than the one on disk. */
  ghost predicate Evicted(s: Sys) { s.runner.Off? && !s.current }

  /** Without a running turn the steps of a turn do nothing. */
  lemma TurnIsOff(b: Batch, s: Sys, e: Event)
    requires Evicted(s)
    ensures ApplyAuth(b, s, e) == ApplyGroup(b, s, e) == s
  {
    hide Create, Decide, Claim, Finish;
  }

  lemma BatchIsOff(b: Batch, s: Sys, e: Event)
    requires Evicted(s)
    ensures ApplyCommit(b, s, e) == s
  {
    hide GroupEnd, LeadingTexts, Accepted, Stamped, Advanced;
  }

  /** Nor can a stale process resume. */
  lemma ResumeIsRefused(b: Batch, s: Sys, e: Event)
    requires Evicted(s)
    ensures ApplyResume(b, s, e) == s
  {
    hide RecoveredLedger, Decide, ResumeAllows, DecisionStands, Stamped, Advanced;
  }

  lemma EvictedStep(b: Batch, s: Sys, e: Event)
    requires Evicted(s) && !e.CrashAndRestart?
    ensures Apply(b, s, e).(book := s.book) == s
    ensures Apply(b, s, e).book != s.book ==> e.OtherApproval?
  {
    hide ApplyAuth, ApplyGroup, ApplyCommit, ApplyResume;
    TurnIsOff(b, s, e);
    BatchIsOff(b, s, e);
    ResumeIsRefused(b, s, e);
  }

  /** A session write that reached the file and was reported failed leaves the process evicted, wherever it happens. */
  lemma HalfFailedSaveEvicts(b: Batch, s: Sys, e: Event)
    requires (e == SaveLedger(Torn) && s.runner.Journalled?) || (e == ResumeEnter(Torn) && s.runner.Entering?)
    ensures Evicted(Apply(b, s, e)) && Apply(b, s, e).ledger == s.memory
  {
    hide Stamped, Advanced, RecoveredLedger, Decide;
  }

  /**
    A process whose session was claimed elsewhere, or parted from it by a failed write, does nothing to the batch any
    more until it restarts: no continuation, ledger or handler is touched, and no record of the batch's own calls.
   */
  lemma {:induction false} EvictedProcessIsPowerless(b: Batch, s: Sys, more: seq<Event>, i: nat)
    requires Evicted(s) && i < |b.calls| && forall e :: e in more ==> !e.CrashAndRestart?
    ensures var z := After(b, s, more);
            && z.(book := s.book) == s
            && (b.Who(i) in z.book <==> b.Who(i) in s.book)
            && (b.Who(i) in s.book ==> z.book[b.Who(i)] == s.book[b.Who(i)])
  {
    hide Apply, Evicted;
    if more != [] {
      var n := |more| - 1;
      assert more == more[..n] + [more[n]];
      EvictedProcessIsPowerless(b, s, more[..n], i);
      StaysEvicted(s, After(b, s, more[..n]));
      EvictedStep(b, After(b, s, more[..n]), more[n]);
      if more[n].OtherApproval? {
        OthersLeaveOurs(b, After(b, s, more[..n]), more[n], i);
      }
    }
  }

  lemma StaysEvicted(s: Sys, z: Sys)
    requires Evicted(s) && z.(book := s.book) == s
    ensures Evicted(z)
  {
  }

  lemma OthersLeaveOurs(b: Batch, s: Sys, e: Event, i: nat)
    requires e.OtherApproval? && i < |b.calls|
    ensures var z := Apply(b, s, e);
            (b.Who(i) in z.book <==> b.Who(i) in s.book)
                && (b.Who(i) in s.book ==> z.book[b.Who(i)] == s.book[b.Who(i)])
  {
  }
}
