/** Every statement of every blob task keeps the invariant, so it holds in every run; and what that gives. */
module BlobRuns {
  import opened Base
  import opened Transfer
  import opened Blobs
  import opened BlobSafety

  /** A statement of `tid` kept the store, its own task and what the other tasks rely on. */
  ghost predicate StepOk(cfg: Config, care: set<Id>, st: Store, tid: nat, after: (Store, Task)) {
    StoreOk(cfg, care, after.0) && Harmless(cfg, care, st, after.0, tid) && TaskOk(cfg, care, after.0, tid, after.1)
  }

  lemma SameIsHarmless(cfg: Config, care: set<Id>, st: Store, tid: nat)
    ensures Harmless(cfg, care, st, st, tid)
  {
  }

  lemma {:induction false} WholeHasTheSize(msgs: seq<Msg>, maxChunk: nat, expected: nat, buf: Bytes, next: nat)
    requires Receive(msgs, maxChunk, expected, buf, next).Whole?
    ensures |Receive(msgs, maxChunk, expected, buf, next).data| == expected
    decreases |msgs|
  {
    if msgs != [] { WholeHasTheSize(msgs[1..], maxChunk, expected, buf + msgs[0].data, next + 1); }
  }

  // ---------------------------------------------------------------- uploads

  lemma LockStep(cfg: Config, care: set<Id>, st: Store, tid: nat, t: Task, i: Input)
    requires StoreOk(cfg, care, st) && t.UpLock? && TaskOk(cfg, care, st, tid, t)
    ensures StepOk(cfg, care, st, tid, UploadStep(cfg, st, tid, t, i))
  {
    hide StoreOk;
    if (t.user, t.sess) in st.locks {
      SameIsHarmless(cfg, care, st, tid);
    } else {
      hide Harmless;
      LocksAreHarmless(cfg, care, st, st.(locks := st.locks[(t.user, t.sess) := tid]), tid);
    }
  }

  lemma ReadStep(cfg: Config, care: set<Id>, st: Store, tid: nat, t: Task, i: Input)
    requires StoreOk(cfg, care, st) && (t.UpSession? || t.UpBlob? || t.UpRecheck?) && TaskOk(cfg, care, st, tid, t)
    ensures StepOk(cfg, care, st, tid, UploadStep(cfg, st, tid, t, i))
  {
    SameIsHarmless(cfg, care, st, tid);
    hide Harmless, Good;
    if t.UpSession? && t.sess in st.sessions { assert SessionOk(cfg, care, st, t.sess); }
    hide StoreOk, SessionOk;
  }

  lemma ReceiveStep(cfg: Config, care: set<Id>, st: Store, tid: nat, t: Task, i: Input)
    requires StoreOk(cfg, care, st) && t.UpReceive? && TaskOk(cfg, care, st, tid, t)
    ensures StepOk(cfg, care, st, tid, UploadStep(cfg, st, tid, t, i))
  {
    SameIsHarmless(cfg, care, st, tid);
    hide Harmless, StoreOk;
    if Receive(i.msgs, cfg.maxChunk, t.row.size, [], 0).Whole? {
      WholeHasTheSize(i.msgs, cfg.maxChunk, t.row.size, [], 0);
    }
  }

  lemma PutStep(cfg: Config, care: set<Id>, st: Store, tid: nat, t: Task, i: Input)
    requires StoreOk(cfg, care, st) && t.UpPut? && TaskOk(cfg, care, st, tid, t)
    ensures StepOk(cfg, care, st, tid, UploadStep(cfg, st, tid, t, i))
  {
    hide StoreOk, Harmless;
    TouchIsHarmless(cfg, care, st, PutObject(st, KeyOf(t.user, t.row.blob), t.data), tid, t.user, t.row.blob);
    SameIsHarmless(cfg, care, st, tid);
  }

  lemma CompleteStep(cfg: Config, care: set<Id>, st: Store, tid: nat, t: Task, i: Input)
    requires StoreOk(cfg, care, st) && t.UpComplete? && TaskOk(cfg, care, st, tid, t)
    ensures StepOk(cfg, care, st, tid, UploadStep(cfg, st, tid, t, i))
  {
    hide StoreOk, Harmless, Good;
    SameIsHarmless(cfg, care, st, tid);
    if CanComplete(st, t.user, t.sess, t.row.size) {
      CompleteKeepsStore(cfg, care, st, tid, t.user, t.sess, t.row);
      CompleteIsHarmless(cfg, care, st, tid, t.user, t.sess, t.row);
    }
  }

  lemma EraseStep(cfg: Config, care: set<Id>, st: Store, tid: nat, t: Task, i: Input)
    requires StoreOk(cfg, care, st) && (t.UpUndo? || t.AbObject?) && TaskOk(cfg, care, st, tid, t)
             && (forall b | b in care :: !Erases(st, t, i, b))
    ensures StepOk(cfg, care, st, tid, UploadStep(cfg, st, tid, t, i))
  {
    hide StoreOk, Harmless;
    var b := if t.UpUndo? then t.row.blob else t.blob;
    if Took(i) { TouchIsHarmless(cfg, care, st, DropObject(st, KeyOf(t.user, b)), tid, t.user, b); }
    SameIsHarmless(cfg, care, st, tid);
  }

  lemma AbortStep(cfg: Config, care: set<Id>, st: Store, tid: nat, t: Task, i: Input)
    requires StoreOk(cfg, care, st) && (t.AbSession? || t.AbBlob?) && TaskOk(cfg, care, st, tid, t)
    ensures StepOk(cfg, care, st, tid, UploadStep(cfg, st, tid, t, i))
  {
    hide StoreOk, Harmless;
    SameIsHarmless(cfg, care, st, tid);
    if t.AbSession? {
      DropSessionIsHarmless(cfg, care, st, tid, t.user, t.sess);
    } else {
      MarkFailedKeepsStore(cfg, care, st, t.user, t.blob);
      MarkFailedIsHarmless(cfg, care, st, tid, t.user, t.blob);
    }
  }

  lemma UploadStepOk(cfg: Config, care: set<Id>, st: Store, tid: nat, t: Task, i: Input)
    requires StoreOk(cfg, care, st) && IsUpload(t) && TaskOk(cfg, care, st, tid, t)
             && (forall b | b in care :: !Erases(st, t, i, b))
    ensures StepOk(cfg, care, st, tid, UploadStep(cfg, st, tid, t, i))
  {
    hide StoreOk, StepOk, TaskOk, UploadStep, Erases;
    match t
    case UpLock(_, _) => LockStep(cfg, care, st, tid, t, i);
    case UpReceive(_, _, _) => ReceiveStep(cfg, care, st, tid, t, i);
    case UpPut(_, _, _, _) => PutStep(cfg, care, st, tid, t, i);
    case UpComplete(_, _, _) => CompleteStep(cfg, care, st, tid, t, i);
    case AbSession(_, _, _, _) => AbortStep(cfg, care, st, tid, t, i);
    case AbBlob(_, _, _, _) => AbortStep(cfg, care, st, tid, t, i);
    case UpUndo(_, _, _) => EraseStep(cfg, care, st, tid, t, i);
    case AbObject(_, _, _) => EraseStep(cfg, care, st, tid, t, i);
    case _ => ReadStep(cfg, care, st, tid, t, i);
  }

  // ---------------------------------------------------------------- the other tasks

  lemma CommitStepOk(cfg: Config, care: set<Id>, st: Store, tid: nat, t: Task, i: Input)
    requires StoreOk(cfg, care, st) && IsCommit(t)
    ensures StepOk(cfg, care, st, tid, CommitStep(st, t, i))
  {
    hide StoreOk, Harmless;
    SameIsHarmless(cfg, care, st, tid);
    if t.CoCommit? && CanCommit(st, t.user, t.sess) {
      CommitKeepsStore(cfg, care, st, t.user, t.sess);
      CommitIsHarmless(cfg, care, st, tid, t.user, t.sess);
    }
  }

  lemma PlaceStepOk(cfg: Config, care: set<Id>, st: Store, tid: nat, t: Task, i: Input)
    requires StoreOk(cfg, care, st) && TaskOk(cfg, care, st, tid, t) && !IsUpload(t) && !IsCommit(t) && !IsClean(t)
             && (forall b | b in care :: !Erases(st, t, i, b))
    ensures StepOk(cfg, care, st, tid, PlaceStep(cfg, st, t, i))
  {
    hide StoreOk, Harmless;
    SameIsHarmless(cfg, care, st, tid);
    if t.PlPut? {
      TouchIsHarmless(cfg, care, st, PutObject(st, KeyOf(t.user, t.blob), t.data), tid, t.user, t.blob);
    } else if t.PlUndo? && Took(i) {
      TouchIsHarmless(cfg, care, st, DropObject(st, KeyOf(t.user, t.blob)), tid, t.user, t.blob);
    } else if t.PlInsert? {
      InsertKeepsStore(cfg, care, st, tid, t.user, t.blob, t.data);
      InsertIsHarmless(cfg, care, st, tid, t.user, t.blob, t.data);
    }
  }

  /** The reaper's listing names only blobs past their deadline. */
  lemma ListedIsDoomed(cfg: Config, care: set<Id>, st: Store, r: Ref, cutoff: Time)
    requires StoreOk(cfg, care, st) && cutoff <= st.now && Expired(st, r.blob, cutoff)
             && r.key == KeyOf(st.blobs[r.blob].user, r.blob)
    ensures Doomed(st, r)
  {
    var s :| s in st.sessions && st.sessions[s].blob == r.blob && st.sessions[s].expires < cutoff;
    assert SessionOk(cfg, care, st, s);
  }

  lemma CleanStepOk(cfg: Config, care: set<Id>, st: Store, tid: nat, t: Task, i: Input)
    requires StoreOk(cfg, care, st) && TaskOk(cfg, care, st, tid, t) && IsClean(t)
    ensures StepOk(cfg, care, st, tid, CleanStep(st, t, i))
  {
    hide StoreOk, Harmless;
    SameIsHarmless(cfg, care, st, tid);
    if t.ClList? {
      hide Doomed;
      if IsListing(st, i.refs, t.cutoff, t.batch) {
        forall k | 0 <= k < |i.refs| ensures Doomed(st, i.refs[k]) {
          ListedIsDoomed(cfg, care, st, i.refs[k], t.cutoff);
        }
      }
    } else if t.refs != [] {
      if t.ClObject? {
        assert Doomed(st, t.refs[0]);
        TouchIsHarmless(cfg, care, st, DropObject(st, t.refs[0].key), tid, st.home[t.refs[0].blob].user,
                        t.refs[0].blob);
      } else {
        DropBlobKeepsStore(cfg, care, st, t.refs[0].blob);
        DropBlobIsHarmless(cfg, care, st, tid, t.refs[0]);
      }
    }
  }

  lemma TaskStepOk(cfg: Config, care: set<Id>, st: Store, tid: nat, t: Task, i: Input)
    requires StoreOk(cfg, care, st) && TaskOk(cfg, care, st, tid, t) && (forall b | b in care :: !Erases(st, t, i, b))
    ensures StepOk(cfg, care, st, tid, TaskStep(cfg, st, tid, t, i))
  {
    hide StoreOk, StepOk, TaskOk, Erases, UploadStep, CommitStep, CleanStep, PlaceStep, IsUpload, IsCommit, IsClean;
    if IsUpload(t) { UploadStepOk(cfg, care, st, tid, t, i); }
    else if IsCommit(t) { CommitStepOk(cfg, care, st, tid, t, i); }
    else if IsClean(t) { CleanStepOk(cfg, care, st, tid, t, i); }
    else { PlaceStepOk(cfg, care, st, tid, t, i); }
  }

  lemma SpawnOk(cfg: Config, care: set<Id>, st: Store, tid: nat, r: Request)
    requires StoreOk(cfg, care, st)
    ensures StepOk(cfg, care, st, tid, SpawnTask(cfg, st, tid, r))
  {
    assert Homed(st);
    hide StoreOk, Harmless;
    SameIsHarmless(cfg, care, st, tid);
    if r.Place? && r.freshId !in st.home && |r.freshId| == UUID_LENGTH {
      ReserveKeepsStore(cfg, care, st, tid, r.freshId);
      ReserveIsHarmless(cfg, care, st, tid, r.freshId);
    }
  }

  // ---------------------------------------------------------------- runs

  /** Everything about a world but task `tid` itself. */
  ghost predicate InvBut(cfg: Config, care: set<Id>, w: World, tid: nat) {
    && StoreOk(cfg, care, w.st)
    && (forall t2 | t2 in w.tasks && t2 != tid :: TaskOk(cfg, care, w.st, t2, w.tasks[t2]))
    && (forall i | i in w.items :: KeptOk(cfg, w.st.blobs, w.items[i]))
  }

  lemma HarmlessKeepsRest(cfg: Config, care: set<Id>, w: World, st': Store, tid: nat)
    requires InvBut(cfg, care, w, tid) && Harmless(cfg, care, w.st, st', tid) && StoreOk(cfg, care, st')
    ensures InvBut(cfg, care, w.(st := st'), tid)
  {
    hide TaskOk, StoreOk, KeptOk, Harmless;
    forall t2 | t2 in w.tasks && t2 != tid ensures TaskOk(cfg, care, st', t2, w.tasks[t2]) {
      HarmlessKeepsTask(cfg, care, w.st, st', tid, t2, w.tasks[t2]);
    }
    assert CommittedKept(w.st, st') by { HarmlessKeepsCommitted(cfg, care, w.st, st', tid); }
    forall i | i in w.items ensures KeptOk(cfg, st'.blobs, w.items[i]) {
      HarmlessKeepsKept(cfg, w.st, st', w.items[i]);
    }
  }

  lemma HarmlessKeepsCommitted(cfg: Config, care: set<Id>, st: Store, st': Store, tid: nat)
    requires Harmless(cfg, care, st, st', tid)
    ensures CommittedKept(st, st')
  {
  }

  lemma ReleaseIsHarmless(cfg: Config, care: set<Id>, st: Store, tid: nat)
    requires StoreOk(cfg, care, st)
    ensures StoreOk(cfg, care, Release(st, tid)) && Harmless(cfg, care, st, Release(st, tid), tid)
  {
    hide StoreOk, Harmless;
    LocksAreHarmless(cfg, care, st, Release(st, tid), tid);
  }

  lemma GoKeepsInv(cfg: Config, care: set<Id>, w: World, tid: nat, i: Input)
    requires Inv(cfg, care, w) && (forall b | b in care :: !ErasesKept(w, Go(tid, i), b))
    ensures Inv(cfg, care, Act(cfg, w, Go(tid, i)))
  {
    hide TaskOk, StoreOk, KeptOk, Harmless, TaskStep, Erases;
    if tid in w.tasks {
      if w.tasks[tid].PlItem? {
        assert KeptOk(cfg, w.st.blobs, w.tasks[tid].kept) by { ItemIsKept(cfg, care, w.st, tid, w.tasks[tid]); }
        DoneIsOk(cfg, care, w.st, tid);
      } else {
        var after := TaskStep(cfg, w.st, tid, w.tasks[tid], i);
        TaskStepOk(cfg, care, w.st, tid, w.tasks[tid], i);
        HarmlessKeepsRest(cfg, care, w, after.0, tid);
        ReleaseIsHarmless(cfg, care, after.0, tid);
        HarmlessKeepsRest(cfg, care, w.(st := after.0), Release(after.0, tid), tid);
        DoneIsOk(cfg, care, Release(after.0, tid), tid);
      }
    }
  }

  lemma ItemIsKept(cfg: Config, care: set<Id>, st: Store, tid: nat, t: Task)
    requires t.PlItem? && TaskOk(cfg, care, st, tid, t)
    ensures KeptOk(cfg, st.blobs, t.kept)
  {
  }

  lemma DoneIsOk(cfg: Config, care: set<Id>, st: Store, tid: nat)
    ensures TaskOk(cfg, care, st, tid, Done)
  {
  }

  /** A step no task takes, charged to a task id that is not in use. */
  lemma OutsideKeepsInv(cfg: Config, care: set<Id>, w: World, st': Store, tid: nat)
    requires Inv(cfg, care, w) && tid !in w.tasks && StoreOk(cfg, care, st') && Harmless(cfg, care, w.st, st', tid)
    ensures Inv(cfg, care, w.(st := st'))
  {
    hide TaskOk, StoreOk, KeptOk, Harmless;
    HarmlessKeepsRest(cfg, care, w, st', tid);
  }

  lemma UnusedId(ids: set<nat>) returns (id: nat)
    ensures forall i | i in ids :: i < id
    decreases |ids|
  {
    if ids == {} { return 0; }
    var x :| x in ids;
    var y := UnusedId(ids - {x});
    id := if x < y then y else x + 1;
    forall i | i in ids ensures i < id { assert i == x || i in ids - {x}; }
  }

  lemma SpawnKeepsInv(cfg: Config, care: set<Id>, w: World, tid: nat, r: Request)
    requires Inv(cfg, care, w)
    ensures Inv(cfg, care, Act(cfg, w, Spawn(tid, r)))
  {
    hide TaskOk, StoreOk, KeptOk, Harmless, SpawnTask;
    if tid !in w.tasks {
      SpawnOk(cfg, care, w.st, tid, r);
      OutsideKeepsInv(cfg, care, w, SpawnTask(cfg, w.st, tid, r).0, tid);
    }
  }

  /** A restart forgets the handlers and their locks and touches no row and no byte. */
  lemma CrashKeepsInv(cfg: Config, care: set<Id>, w: World)
    requires Inv(cfg, care, w)
    ensures Inv(cfg, care, Act(cfg, w, Crash))
  {
    hide StoreOk, KeptOk;
    FewerRows(cfg, care, w.st, w.st.(locks := map[]));
  }

  lemma ActKeepsInv(cfg: Config, care: set<Id>, w: World, a: Action)
    requires Inv(cfg, care, w) && (forall b | b in care :: !ErasesKept(w, a, b))
    ensures Inv(cfg, care, Act(cfg, w, a))
  {
    hide Inv, StoreOk, Harmless, SpawnTask, StartUpload, TaskStep, Erases;
    var none := UnusedId(w.tasks.Keys);
    assert StoreOk(cfg, care, w.st) by { InvGivesStore(cfg, care, w); }
    match a
    case Go(tid, i) => GoKeepsInv(cfg, care, w, tid, i);
    case Spawn(tid, r) => SpawnKeepsInv(cfg, care, w, tid, r);
    case Crash => CrashKeepsInv(cfg, care, w);
    case Tick(d) =>
      TickKeepsStore(cfg, care, w.st, d);
      TickIsHarmless(cfg, care, w.st, none, d);
      OutsideKeepsInv(cfg, care, w, w.st.(now := w.st.now + d), none);
    case Start(u, b, s, size, checksum) =>
      StartKeepsStore(cfg, care, w.st, u, b, s, size, checksum);
      StartIsHarmless(cfg, care, w.st, none, u, b, s, size, checksum);
      OutsideKeepsInv(cfg, care, w, StartUpload(cfg, w.st, u, b, s, size, checksum), none);
  }

  lemma InvGivesStore(cfg: Config, care: set<Id>, w: World)
    requires Inv(cfg, care, w)
    ensures StoreOk(cfg, care, w.st)
  {
  }

  lemma {:induction false} RunKeepsInv(cfg: Config, care: set<Id>, w: World, actions: seq<Action>)
    requires Inv(cfg, care, w) && (forall b | b in care :: !Erased(cfg, w, actions, b))
    ensures Inv(cfg, care, Run(cfg, w, actions))
    decreases |actions|
  {
    hide Inv, Act, ErasesKept;
    if actions != [] {
      ActKeepsInv(cfg, care, w, actions[0]);
      RunKeepsInv(cfg, care, Act(cfg, w, actions[0]), actions[1..]);
    }
  }

  lemma Next(cfg: Config, w: World, w': World, acts: seq<Action>, k: nat)
    requires k < |acts| && Act(cfg, w, acts[k]) == w'
    ensures Run(cfg, w, acts[k..]) == Run(cfg, w', acts[k + 1..])
  {
    hide Act;
    assert acts[k..][1..] == acts[k + 1..];
  }

  lemma RunOfNone(cfg: Config, w: World)
    ensures Run(cfg, w, []) == w
  {
  }
}
