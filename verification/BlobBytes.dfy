/** The bytes of committed blobs: exactly when they are there. */
module BlobBytes {
  import opened Base
  import opened Transfer
  import opened Blobs
  import opened BlobSafety
  import opened BlobRuns
  import opened BlobTheorems
  import opened BlobStatus

  /** The object of a blob is there with exactly the size and checksum of its row. */
  ghost predicate Stored(cfg: Config, st: Store, b: Id) {
    && b in st.blobs
    && var key := KeyOf(st.blobs[b].user, b);
    key in st.objects && |st.objects[key]| == st.blobs[b].size && cfg.sha(st.objects[key]) == st.blobs[b].checksum
  }

  // ---------------------------------------------------------------- bytes once erased

  /** The row of `b` is gone for good, failed, or without its bytes. */
  ghost predicate Lost(st: Store, b: Id) {
    && b in st.home
    && if b in st.blobs
       then st.blobs[b].status.Failed? || (!st.blobs[b].status.Pending? && KeyOf(st.blobs[b].user, b) !in st.objects)
       else st.home[b].Started?
  }

  lemma UndoOwner(cfg: Config, st: Store, tid: nat, t: Task, b: Id)
    requires Homed(st) && TaskOk(cfg, {}, st, tid, t) && b in st.blobs
    requires (t.UpUndo? && b == t.row.blob) || (t.PlUndo? && b == t.blob)
    ensures st.blobs[b].user == t.user
  {
  }

  lemma EraseLoses(cfg: Config, w: World, a: Action, b: Id)
    requires Inv(cfg, {}, w) && ErasesKept(w, a, b)
    ensures Lost(Act(cfg, w, a).st, b)
  {
    var t := w.tasks[a.tid];
    assert TaskOk(cfg, {}, w.st, a.tid, t) && Homed(w.st) && b in w.st.home;
    hide Inv, KeyOf;
    UndoOwner(cfg, w.st, a.tid, t, b);
    hide Homed, TaskOk;
  }

  /** Nobody writes the object of an uploading or committed row. */
  lemma TaskPutsElsewhere(cfg: Config, st: Store, tid: nat, t: Task, i: Input, b: Id)
    requires Homed(st) && TaskOk(cfg, {}, st, tid, t) && b in st.blobs && KeyOf(st.blobs[b].user, b) !in st.objects
    requires st.blobs[b].status.Uploading? || st.blobs[b].status.Committed?
    ensures KeyOf(st.blobs[b].user, b) !in TaskStep(cfg, st, tid, t, i).0.objects
  {
    if t.UpPut? {
      OtherKey(st, t.user, t.row.blob, st.blobs[b].user, b);
    } else if t.PlPut? {
      OtherKey(st, t.user, t.blob, st.blobs[b].user, b);
    } else {
      OthersPutNothing(cfg, st, tid, t, i, KeyOf(st.blobs[b].user, b));
    }
  }

  lemma OthersPutNothing(cfg: Config, st: Store, tid: nat, t: Task, i: Input, key: string)
    requires !t.UpPut? && !t.PlPut? && key !in st.objects
    ensures key !in TaskStep(cfg, st, tid, t, i).0.objects
  {
    hide KeyOf;
    if IsUpload(t) { hide CommitStep, CleanStep, PlaceStep, Receive; }
    else if IsCommit(t) { hide UploadStep, CleanStep, PlaceStep; }
    else if IsClean(t) { hide UploadStep, CommitStep, PlaceStep; }
    else { hide UploadStep, CommitStep, CleanStep; }
  }

  lemma ActPutsElsewhere(cfg: Config, w: World, a: Action, b: Id)
    requires Inv(cfg, {}, w) && b in w.st.blobs && KeyOf(w.st.blobs[b].user, b) !in w.st.objects
    requires w.st.blobs[b].status.Uploading? || w.st.blobs[b].status.Committed?
    ensures KeyOf(w.st.blobs[b].user, b) !in Act(cfg, w, a).st.objects
  {
    assert Homed(w.st);
    hide StoreOk, TaskOk, KeptOk, TaskStep, KeyOf;
    if a.Go? && a.tid in w.tasks && !w.tasks[a.tid].PlItem? {
      TaskPutsElsewhere(cfg, w.st, a.tid, w.tasks[a.tid], a.input, b);
    }
  }

  lemma LostStays(cfg: Config, w: World, a: Action, b: Id)
    requires Inv(cfg, {}, w) && Lost(w.st, b)
    ensures Lost(Act(cfg, w, a).st, b)
  {
    StatusMoves(cfg, w, a, b);
    var st' := Act(cfg, w, a).st;
    if b in w.st.blobs && b in st'.blobs && !w.st.blobs[b].status.Failed? { ActPutsElsewhere(cfg, w, a, b); }
    if b in w.st.blobs && b !in st'.blobs { StayedUpload(cfg, w, a, b); }
    hide Act, Inv, KeyOf;
  }

  lemma {:induction false} LostForever(cfg: Config, w: World, actions: seq<Action>, b: Id)
    requires Inv(cfg, {}, w) && (Lost(w.st, b) || Erased(cfg, w, actions, b))
    ensures Lost(Run(cfg, w, actions).st, b)
    decreases |actions|
  {
    hide Inv, Act, Lost, ErasesKept;
    if actions != [] {
      ActKeepsInv(cfg, {}, w, actions[0]);
      if Lost(w.st, b) {
        LostStays(cfg, w, actions[0], b);
      } else if ErasesKept(w, actions[0], b) {
        EraseLoses(cfg, w, actions[0], b);
      }
      LostForever(cfg, Act(cfg, w, actions[0]), actions[1..], b);
    }
  }

  // ---------------------------------------------------------------- the exact condition

  /** In every reachable state of every interleaving, whatever fails or goes unacknowledged: a committed blob has an
      object of exactly its size and checksum if and only if no compensation of the run erased its object while its row
      was uploading or committed. */
  lemma CommittedBlobSafety(cfg: Config, actions: seq<Action>, b: Id)
    requires b in Run(cfg, INIT, actions).st.blobs && Run(cfg, INIT, actions).st.blobs[b].status.Committed?
    ensures Stored(cfg, Run(cfg, INIT, actions).st, b) <==> !Erased(cfg, INIT, actions, b)
  {
    hide Run, Erased;
    var st := Run(cfg, INIT, actions).st;
    if Erased(cfg, INIT, actions, b) {
      assert Inv(cfg, {}, INIT);
      hide Inv;
      LostForever(cfg, INIT, actions, b);
    } else {
      ReachableInv(cfg, {b}, actions);
      hide TaskOk, KeptOk, SessionOk, Homed;
      assert BlobOk(cfg, {b}, st, b);
    }
  }

  /** A committed row never changes; and bytes that are there are the same later if and only if no compensation erased
      them in between. */
  lemma CommittedStays(cfg: Config, actions: seq<Action>, more: seq<Action>, b: Id)
    requires b in Run(cfg, INIT, actions).st.blobs && Run(cfg, INIT, actions).st.blobs[b].status.Committed?
    ensures var w := Run(cfg, INIT, actions);
            var st, st', key := w.st, Run(cfg, w, more).st, KeyOf(w.st.blobs[b].user, b);
            && b in st'.blobs && st'.blobs[b] == st.blobs[b]
            && (Stored(cfg, st, b) ==>
                  (key in st'.objects && st'.objects[key] == st.objects[key] <==> !Erased(cfg, w, more, b)))
  {
    hide Run, Erased, Inv, DoomedKept;
    var w := Run(cfg, INIT, actions);
    ReachableInv(cfg, {}, actions);
    CommittedRowStays(cfg, w, more, b);
    if Stored(cfg, w.st, b) {
      CommittedBlobSafety(cfg, actions, b);
      if Erased(cfg, w, more, b) {
        LostForever(cfg, w, more, b);
      } else {
        ReachableInv(cfg, {b}, actions);
        RunLasts(cfg, {b}, w, more);
      }
    }
  }

  lemma {:induction false} RunConcat(cfg: Config, w: World, actions: seq<Action>, more: seq<Action>)
    ensures Run(cfg, w, actions + more) == Run(cfg, Run(cfg, w, actions), more)
    decreases |actions|
  {
    hide Act;
    if actions == [] {
      assert actions + more == more;
    } else {
      assert (actions + more)[1..] == actions[1..] + more;
      RunConcat(cfg, Act(cfg, w, actions[0]), actions[1..], more);
    }
  }

  /** What an item was stored with is found in every later state, and the bytes of its blob are there if and only if
      no compensation of the whole run erased them. */
  lemma ItemBlobIntegrity(cfg: Config, actions: seq<Action>, more: seq<Action>, item: Id)
    requires item in Run(cfg, INIT, actions).items
    ensures var k, st := Run(cfg, INIT, actions).items[item], Run(cfg, INIT, actions + more).st;
            && Found(cfg, st, k)
            && (k.blobId.Some? ==> (Stored(cfg, st, k.blobId.value)
                                    <==> !Erased(cfg, INIT, actions + more, k.blobId.value)))
  {
    hide Run, Erased, Stored;
    RunConcat(cfg, INIT, actions, more);
    ItemStaysFound(cfg, actions, more, item);
    var k := Run(cfg, INIT, actions).items[item];
    if k.blobId.Some? { CommittedBlobSafety(cfg, actions + more, k.blobId.value); }
  }

  // ---------------------------------------------------------------- errors that mean what they say

  /** The two transactions that handlers compensate have no effect when they report an error. */
  predicate Honest(w: World, a: Action) {
    a.Go? && a.tid in w.tasks && (w.tasks[a.tid].UpComplete? || w.tasks[a.tid].PlInsert?) ==>
      a.input.ok || !a.input.stored
  }

  ghost predicate HonestRun(cfg: Config, w: World, actions: seq<Action>)
    decreases |actions|
  {
    actions == [] || (Honest(w, actions[0]) && HonestRun(cfg, Act(cfg, w, actions[0]), actions[1..]))
  }

  /** What is about to be undone did not happen. */
  ghost predicate UndoOk(st: Store, tid: nat, t: Task) {
    && (t.UpUndo? ==> Active(st, tid, t.user, t.sess, t.row.blob))
    && (t.PlUndo? ==> Reserved(st, tid, t.blob))
  }

  ghost predicate UndosOk(w: World) {
    forall tid | tid in w.tasks :: UndoOk(w.st, tid, w.tasks[tid])
  }

  lemma HarmlessKeepsUndo(cfg: Config, st: Store, st': Store, tid: nat, t2: nat, t: Task)
    requires Harmless(cfg, {}, st, st', tid) && t2 != tid && UndoOk(st, t2, t)
    ensures UndoOk(st', t2, t)
  {
    hide Active, Reserved;
  }

  lemma TaskKeepsUndo(cfg: Config, st: Store, tid: nat, t: Task, i: Input)
    requires TaskOk(cfg, {}, st, tid, t) && UndoOk(st, tid, t) && (t.UpComplete? || t.PlInsert? ==> i.ok || !i.stored)
    ensures var after := TaskStep(cfg, st, tid, t, i); after.1.Done? || UndoOk(after.0, tid, after.1)
  {
    hide Active, Reserved, KeyOf;
    if IsUpload(t) { hide CommitStep, CleanStep, PlaceStep, Receive; }
    else if IsCommit(t) { hide UploadStep, CleanStep, PlaceStep; }
    else if IsClean(t) { hide UploadStep, CommitStep, PlaceStep; }
    else { hide UploadStep, CommitStep, CleanStep; }
  }

  lemma GoKeepsUndos(cfg: Config, w: World, tid: nat, i: Input)
    requires Inv(cfg, {}, w) && UndosOk(w) && Honest(w, Go(tid, i))
    ensures UndosOk(Act(cfg, w, Go(tid, i)))
  {
    hide StoreOk, TaskOk, KeptOk, Harmless, TaskStep, Release, Erases;
    if tid in w.tasks && !w.tasks[tid].PlItem? {
      var after := TaskStep(cfg, w.st, tid, w.tasks[tid], i);
      TaskStepOk(cfg, {}, w.st, tid, w.tasks[tid], i);
      TaskKeepsUndo(cfg, w.st, tid, w.tasks[tid], i);
      ReleaseIsHarmless(cfg, {}, after.0, tid);
      hide UndoOk;
      forall t2 | t2 in w.tasks && t2 != tid
        ensures UndoOk(after.0, t2, w.tasks[t2]) && UndoOk(Release(after.0, tid), t2, w.tasks[t2])
      {
        HarmlessKeepsUndo(cfg, w.st, after.0, tid, t2, w.tasks[t2]);
        HarmlessKeepsUndo(cfg, after.0, Release(after.0, tid), tid, t2, w.tasks[t2]);
      }
      DoneUndoes(Release(after.0, tid), tid);
    } else {
      DoneUndoes(w.st, tid);
    }
  }

  lemma DoneUndoes(st: Store, tid: nat)
    ensures UndoOk(st, tid, Done)
  {
  }

  lemma OutsideKeepsUndos(cfg: Config, w: World, st': Store, tid: nat)
    requires UndosOk(w) && tid !in w.tasks && Harmless(cfg, {}, w.st, st', tid)
    ensures UndosOk(w.(st := st'))
  {
    hide UndoOk, Harmless;
    forall t2 | t2 in w.tasks ensures UndoOk(st', t2, w.tasks[t2]) {
      HarmlessKeepsUndo(cfg, w.st, st', tid, t2, w.tasks[t2]);
    }
  }

  lemma SpawnUndoesNothing(cfg: Config, st: Store, tid: nat, r: Request)
    ensures UndoOk(SpawnTask(cfg, st, tid, r).0, tid, SpawnTask(cfg, st, tid, r).1)
  {
    hide Active, Reserved;
  }

  lemma ActKeepsUndos(cfg: Config, w: World, a: Action)
    requires Inv(cfg, {}, w) && UndosOk(w) && Honest(w, a)
    ensures UndosOk(Act(cfg, w, a))
  {
    InvGivesStore(cfg, {}, w);
    hide Inv, StoreOk, Harmless, SpawnTask, StartUpload, TaskStep, UndoOk;
    var none := UnusedId(w.tasks.Keys);
    match a
    case Go(tid, i) => GoKeepsUndos(cfg, w, tid, i);
    case Crash =>
    case Tick(d) =>
      TickIsHarmless(cfg, {}, w.st, none, d);
      OutsideKeepsUndos(cfg, w, w.st.(now := w.st.now + d), none);
    case Start(u, b, s, size, checksum) =>
      StartIsHarmless(cfg, {}, w.st, none, u, b, s, size, checksum);
      OutsideKeepsUndos(cfg, w, StartUpload(cfg, w.st, u, b, s, size, checksum), none);
    case Spawn(tid, r) =>
      if tid !in w.tasks {
        SpawnOk(cfg, {}, w.st, tid, r);
        SpawnUndoesNothing(cfg, w.st, tid, r);
        OutsideKeepsUndos(cfg, w, SpawnTask(cfg, w.st, tid, r).0, tid);
      }
  }

  lemma {:induction false} HonestErasesNothing(cfg: Config, w: World, actions: seq<Action>, b: Id)
    requires Inv(cfg, {}, w) && UndosOk(w) && HonestRun(cfg, w, actions)
    ensures !Erased(cfg, w, actions, b)
    decreases |actions|
  {
    if actions != [] {
      assert !ErasesKept(w, actions[0], b) by { hide Inv, Act; }
      hide Inv, Act, UndosOk, Honest, ErasesKept;
      ActKeepsInv(cfg, {}, w, actions[0]);
      ActKeepsUndos(cfg, w, actions[0]);
      HonestErasesNothing(cfg, Act(cfg, w, actions[0]), actions[1..], b);
    }
  }

  /** When a failed insert or completion has no effect, whatever else fails or goes unacknowledged: every committed blob
      has its bytes in every reachable state. */
  lemma HonestSafety(cfg: Config, actions: seq<Action>, b: Id)
    requires HonestRun(cfg, INIT, actions)
    requires b in Run(cfg, INIT, actions).st.blobs && Run(cfg, INIT, actions).st.blobs[b].status.Committed?
    ensures Stored(cfg, Run(cfg, INIT, actions).st, b)
  {
    assert Inv(cfg, {}, INIT) && UndosOk(INIT);
    hide Run, Erased, HonestRun, Inv, Stored;
    HonestErasesNothing(cfg, INIT, actions, b);
    CommittedBlobSafety(cfg, actions, b);
  }

  /** And every item finds its payload with its bytes, in every later state. */
  lemma HonestIntegrity(cfg: Config, actions: seq<Action>, more: seq<Action>, item: Id)
    requires HonestRun(cfg, INIT, actions + more) && item in Run(cfg, INIT, actions).items
    ensures var k, st := Run(cfg, INIT, actions).items[item], Run(cfg, INIT, actions + more).st;
            Found(cfg, st, k) && (k.blobId.Some? ==> Stored(cfg, st, k.blobId.value))
  {
    hide Run, Erased, HonestRun, Stored;
    ItemBlobIntegrity(cfg, actions, more, item);
    var k := Run(cfg, INIT, actions).items[item];
    if k.blobId.Some? { HonestSafety(cfg, actions + more, k.blobId.value); }
  }
}
