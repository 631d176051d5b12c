/**
  Compare-and-swap saves of a session file. An object remembers the content it was read from, as a digest that is
  modelled by that content, and may write only over exactly that.
 */
module SessionStore {
  import opened Common

  /** What the file holds. `stamp` is the update time; `body` is everything else. */
  datatype Session = Session(id: string, epoch: nat, revision: nat, body: string, stamp: int)

  /** A caller's object: its fields, and the content its digest stands for, if it has one. */
  datatype Object = Object(s: Session, fence: Option<Session>)

  datatype StoreError = InvalidId | Conflict

  predicate IdOk(id: string) { id != "" && id != "." && id != ".." && '/' !in id && '\\' !in id }

  /** No file yet reads as a session without an ID. */
  predicate MayWrite(o: Object, disk: Option<Session>) {
    match disk
    case None => o.s.revision == 0 && o.fence.None?
    case Some(d) => d.id == o.s.id && d.revision == o.s.revision && d.epoch == o.s.epoch && o.fence == Some(d)
  }

  function Revision(disk: Option<Session>): nat { if disk.Some? then disk.value.revision else 0 }

  function Epoch(disk: Option<Session>): nat { if disk.Some? then disk.value.epoch else 0 }

  /** The file after a save; the object then is this content with its own digest. */
  function Saved(o: Object, disk: Option<Session>, now: int): Result<Session, StoreError> {
    if !IdOk(o.s.id) then Err(InvalidId)
    else if !MayWrite(o, disk) then Err(Conflict)
    else Ok(o.s.(revision := Revision(disk) + 1, epoch := if o.s.epoch == 0 then 1 else o.s.epoch, stamp := now))
  }

  /** Claiming starts a new owner generation. */
  function Claimed(o: Object, disk: Option<Session>): Result<Session, StoreError> {
    if !IdOk(o.s.id) then Err(InvalidId)
    else if !MayWrite(o, disk) then Err(Conflict)
    else Ok(o.s.(revision := Revision(disk) + 1, epoch := Epoch(disk) + 1))
  }

  function Fresh(id: string, body: string, stamp: int): Object { Object(Session(id, 0, 0, body, stamp), None) }

  function Loaded(d: Session): Object { Object(d, Some(d)) }

  class SessionFile {
    var content: Option<Session>
    constructor ()
      ensures content == None
    {
      content := None;
    }
  }

  class SessionObject {
    const file: SessionFile
    var s: Session
    var fence: Option<Session>

    function Me(): Object
      reads this
    {
      Object(s, fence)
    }

    constructor New(file: SessionFile, id: string, body: string, stamp: int)
      ensures this.file == file && Me() == Fresh(id, body, stamp)
    {
      this.file := file;
      s, fence := Session(id, 0, 0, body, stamp), None;
    }

    method Save(now: int) returns (e: Option<StoreError>)
      modifies this, file
      ensures match Saved(old(Me()), old(file.content), now)
              case Ok(next) => e == None && file.content == Some(next) && Me() == Loaded(next)
              case Err(x) => e == Some(x) && file.content == old(file.content) && Me() == old(Me())
      ensures e == None ==>
                s.id == old(s.id) && s.body == old(s.body) && s.stamp == now && file.content == fence == Some(s)
    {
      if !IdOk(s.id) {
        return Some(InvalidId);
      }
      var next := s;
      if file.content.None? {
        if s.revision != 0 || fence.Some? {
          return Some(Conflict);
        }
        next := next.(revision := 1);
      } else {
        var current := file.content.value;
        if current.id != s.id || current.revision != s.revision || current.epoch != s.epoch || fence != Some(current) {
          return Some(Conflict);
        }
        next := next.(revision := current.revision + 1);
      }
      if next.epoch == 0 {
        next := next.(epoch := 1);
      }
      next := next.(stamp := now);
      file.content := Some(next);
      s, fence := next, Some(next);
      return None;
    }

    method Claim() returns (e: Option<StoreError>)
      modifies this, file
      ensures match Claimed(old(Me()), old(file.content))
              case Ok(next) => e == None && file.content == Some(next) && Me() == Loaded(next)
              case Err(x) => e == Some(x) && file.content == old(file.content) && Me() == old(Me())
      ensures e == None ==> s == old(s).(epoch := s.epoch, revision := s.revision) && file.content == fence == Some(s)
    {
      if !IdOk(s.id) {
        return Some(InvalidId);
      }
      if file.content.None? {
        if s.revision != 0 || fence.Some? {
          return Some(Conflict);
        }
        var next := s.(epoch := 1, revision := 1);
        file.content := Some(next);
        s, fence := next, Some(next);
        return None;
      }
      var current := file.content.value;
      if current.id != s.id || current.revision != s.revision || current.epoch != s.epoch || fence != Some(current) {
        return Some(Conflict);
      }
      var next := s.(epoch := current.epoch + 1, revision := current.revision + 1);
      file.content := Some(next);
      s, fence := next, Some(next);
      return None;
    }
  }

  // ---------------------------------------------------------------------------
  // Runs of any number of objects over one file
  // ---------------------------------------------------------------------------

  type ObjectId = nat

  datatype Event =
    | DoNew(o: ObjectId, body: string, stamp: int)
    | DoLoad(o: ObjectId)
    | DoEdit(o: ObjectId, body: string)
    | DoSave(o: ObjectId, now: int, w: Write)
    | DoClaim(o: ObjectId, w: Write)

  /** `chain` is history: every content the file has had, oldest first. */
  datatype Sys = Sys(id: string, chain: seq<Session>, objects: map<ObjectId, Object>)

  function Disk(y: Sys): Option<Session> { if y.chain == [] then None else Some(y.chain[|y.chain| - 1]) }

  /**
    An update that was allowed reaches the file unless it was lost, and its object learns of it only if all went well.
   */
  function Written(y: Sys, o: ObjectId, r: Result<Session, StoreError>, w: Write): Sys {
    if r.Err? || w == Lost then y
    else
      y.(chain := y.chain + [r.value], objects := if w == Good then y.objects[o := Loaded(r.value)] else y.objects)
  }

  function Apply(y: Sys, e: Event): Sys {
    match e
    case DoNew(o, body, stamp) => if o in y.objects then y else y.(objects := y.objects[o := Fresh(y.id, body, stamp)])
    case DoLoad(o) => if Disk(y).Some? then y.(objects := y.objects[o := Loaded(Disk(y).value)]) else y
    case DoEdit(o, body) =>
      if o in y.objects then y.(objects := y.objects[o := y.objects[o].(s := y.objects[o].s.(body := body))]) else y
    case DoSave(o, now, w) => if o in y.objects then Written(y, o, Saved(y.objects[o], Disk(y), now), w) else y
    case DoClaim(o, w) => if o in y.objects then Written(y, o, Claimed(y.objects[o], Disk(y)), w) else y
  }

  function After(id: string, es: seq<Event>): Sys {
    if es == [] then Sys(id, [], map[]) else Apply(After(id, es[..|es| - 1]), es[|es| - 1])
  }

  /** Revisions count the writes, and epochs only rise. */
  ghost predicate ChainAt(y: Sys, k: nat) {
    k < |y.chain| ==>
      && y.chain[k].revision == k + 1 && y.chain[k].id == y.id && y.chain[k].epoch >= 1
      && (k > 0 ==> y.chain[k - 1].epoch <= y.chain[k].epoch)
  }

  /** An object either was never written, or stands on some content the file has had. */
  ghost predicate ObjectAt(y: Sys, o: ObjectId) {
    o in y.objects ==>
      var x := y.objects[o];
      && x.s.id == y.id
      && match x.fence
         case None => x.s.revision == 0
         case Some(f) => 1 <= f.revision <= |y.chain| && y.chain[f.revision - 1] == f
                         && x.s.revision == f.revision && x.s.epoch == f.epoch
  }

  ghost predicate Inv(y: Sys) { (forall k: nat :: ChainAt(y, k)) && forall o :: ObjectAt(y, o) }

  lemma WriteKeepsInv(y: Sys, o: ObjectId, next: Session, w: Write)
    requires Inv(y) && next.revision == Revision(Disk(y)) + 1 && next.id == y.id && next.epoch >= 1
    requires next.epoch >= Epoch(Disk(y))
    ensures Inv(Written(y, o, Ok(next), w))
  {
    var y' := Written(y, o, Ok(next), w);
    assert |y.chain| > 0 ==> ChainAt(y, |y.chain| - 1);
    forall k: nat ensures ChainAt(y', k) {
      assert ChainAt(y, k);
    }
    forall x ensures ObjectAt(y', x) {
      assert ObjectAt(y, x);
    }
  }

  lemma StepKeepsInv(y: Sys, e: Event)
    requires Inv(y)
    ensures Inv(Apply(y, e))
  {
    var y' := Apply(y, e);
    assert |y.chain| > 0 ==> ChainAt(y, |y.chain| - 1);
    if e.DoSave? && e.o in y.objects && Saved(y.objects[e.o], Disk(y), e.now).Ok? {
      assert ObjectAt(y, e.o);
      WriteKeepsInv(y, e.o, Saved(y.objects[e.o], Disk(y), e.now).value, e.w);
    } else if e.DoClaim? && e.o in y.objects && Claimed(y.objects[e.o], Disk(y)).Ok? {
      assert ObjectAt(y, e.o);
      WriteKeepsInv(y, e.o, Claimed(y.objects[e.o], Disk(y)).value, e.w);
    } else {
      forall k: nat ensures ChainAt(y', k) {
        assert ChainAt(y, k);
      }
      forall x ensures ObjectAt(y', x) {
        assert ObjectAt(y, x);
      }
    }
  }

  lemma {:induction false} Reachable(id: string, es: seq<Event>)
    ensures Inv(After(id, es)) && After(id, es).id == id
  {
    if es == [] {
    } else {
      Reachable(id, es[..|es| - 1]);
      StepKeepsInv(After(id, es[..|es| - 1]), es[|es| - 1]);
    }
  }

  /** The object is at the file's present content: it saw the last write, or there is none and it wrote none. */
  ghost predicate UpToDate(y: Sys, o: ObjectId)
    requires o in y.objects
  {
    y.objects[o].fence == Disk(y)
  }

  /**
    No lost update: a save or claim goes through exactly when its object stands on the content that is in the file.
    A stale object, whose revision some later write has passed, is refused until it is loaded again.
   */
  lemma WritesOnlyOverWhatWasSeen(id: string, es: seq<Event>, o: ObjectId, now: int)
    requires IdOk(id) && o in After(id, es).objects
    ensures var y := After(id, es);
            && (Saved(y.objects[o], Disk(y), now).Ok? <==> UpToDate(y, o))
            && (Claimed(y.objects[o], Disk(y)).Ok? <==> UpToDate(y, o))
            && (UpToDate(y, o) <==> y.objects[o].s.revision == |y.chain|)
  {
    Reachable(id, es);
    var y := After(id, es);
    hide After;
    assert ObjectAt(y, o);
    if |y.chain| > 0 {
      assert ChainAt(y, |y.chain| - 1);
    }
  }

  /** Each write raises the revision by one, and the epoch never falls; a claim raises it by one. */
  lemma RevisionsCountWrites(id: string, es: seq<Event>, e: Event)
    ensures var y, y' := After(id, es), After(id, es + [e]);
            && y.chain <= y'.chain && |y'.chain| <= |y.chain| + 1
            && Revision(Disk(y')) == |y'.chain|
            && Epoch(Disk(y)) <= Epoch(Disk(y'))
            && (e.DoClaim? && y'.chain != y.chain ==> Epoch(Disk(y')) == Epoch(Disk(y)) + 1)
  {
    assert (es + [e])[..|es|] == es;
    Reachable(id, es);
    Reachable(id, es + [e]);
    var y, y' := After(id, es), After(id, es + [e]);
    assert y' == Apply(y, e);
    hide After;
    if |y'.chain| > 0 {
      assert ChainAt(y', |y'.chain| - 1);
    }
    if |y.chain| > 0 {
      assert ChainAt(y, |y.chain| - 1);
    }
  }

  /** After a claim by one object, no other that stood on the old content can write. */
  lemma ClaimEvictsOthers(id: string, es: seq<Event>, o: ObjectId, o': ObjectId, now: int)
    requires IdOk(id) && o != o' && o in After(id, es).objects && o' in After(id, es).objects
             && UpToDate(After(id, es), o)
    ensures var y' := After(id, es + [DoClaim(o, Good)]);
            && o in y'.objects && o' in y'.objects
            && UpToDate(y', o) && !UpToDate(y', o') && Saved(y'.objects[o'], Disk(y'), now) == Err(Conflict)
  {
    var e := DoClaim(o, Good);
    assert (es + [e])[..|es|] == es;
    WritesOnlyOverWhatWasSeen(id, es, o, now);
    WritesOnlyOverWhatWasSeen(id, es, o', now);
    Reachable(id, es);
    assert ObjectAt(After(id, es), o');
    WritesOnlyOverWhatWasSeen(id, es + [e], o', now);
  }

  /** What the file holds after a write that reached it is what the object held, under the session's own name. */
  lemma WritesAreWhatWasHeld(id: string, es: seq<Event>, e: Event)
    requires |After(id, es + [e]).chain| > |After(id, es).chain|
    ensures e.DoSave? || e.DoClaim?
    ensures var y, y' := After(id, es), After(id, es + [e]);
            && e.o in y.objects && Disk(y').Some? && Disk(y').value.id == id
            && Disk(y').value.body == y.objects[e.o].s.body
            && Disk(y').value.stamp == (if e.DoSave? then e.now else y.objects[e.o].s.stamp)
            && (e.w == Good ==> e.o in y'.objects && y'.objects[e.o] == Object(Disk(y').value, Disk(y')))
  {
    assert (es + [e])[..|es|] == es;
    Reachable(id, es);
    var y := After(id, es);
    hide After;
    if e.DoSave? || e.DoClaim? {
      assert ObjectAt(y, e.o);
    }
  }
}
