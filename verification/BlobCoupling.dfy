/** Upload sessions and their blobs move together, as long as aborts delete their session rows. */
module BlobCoupling {
  import opened Base
  import opened Blobs
  import opened BlobSafety
  import opened BlobRuns

  /** The session delete of an abort takes effect. */
  predicate DeletesSession(w: World, a: Action) {
    a.Go? && a.tid in w.tasks && w.tasks[a.tid].AbSession? ==> Took(a.input)
  }

  /** So do all those of the run; any other statement, the stream and the object store may fail. */
  ghost predicate SessionsDeleted(cfg: Config, w: World, actions: seq<Action>)
    decreases |actions|
  {
    actions == [] || (DeletesSession(w, actions[0]) && SessionsDeleted(cfg, Act(cfg, w, actions[0]), actions[1..]))
  }

  ghost predicate CoupledRow(st: Store, s: Id)
    requires s in st.sessions
  {
    var row := st.sessions[s];
    && row.blob in st.blobs
    && (row.status.Open? ==> st.blobs[row.blob].status.Pending?)
    && (row.status.AwaitingCommit? ==> st.blobs[row.blob].status.Uploading? && row.received == row.size)
  }

  ghost predicate Rows(st: Store) {
    forall s | s in st.sessions :: CoupledRow(st, s)
  }

  /** An abort concerns the blob of its session, and by the time it fails the blob the session is gone. */
  ghost predicate Aborts(st: Store, u: Id, s: Id, b: Id) {
    && b in st.home && st.home[b].Started? && st.home[b].sess == s && s in st.used
    && (s in st.sessions ==> st.sessions[s].user == u)
  }

  ghost predicate AbortOk(st: Store, t: Task) {
    && (t.AbSession? || t.AbBlob? ==> Aborts(st, t.user, t.sess, t.blob))
    && (t.UpUndo? ==> Aborts(st, t.user, t.sess, t.row.blob))
    && (t.AbBlob? ==> t.sess !in st.sessions)
  }

  ghost predicate Coupling(w: World) {
    Rows(w.st) && forall tid | tid in w.tasks :: AbortOk(w.st, w.tasks[tid])
  }

  /** Home entries and used session ids last, and a used session id never gets a new row. */
  ghost predicate IdsLast(st: Store, st': Store) {
    && st.used <= st'.used
    && (forall b | b in st.home :: b in st'.home && st'.home[b] == st.home[b])
    && (forall s | s in st.used && s in st'.sessions :: s in st.sessions && st'.sessions[s].user == st.sessions[s].user)
  }

  lemma IdsKeepAborts(st: Store, st': Store, t: Task)
    requires IdsLast(st, st') && AbortOk(st, t)
    ensures AbortOk(st', t)
  {
  }

  lemma TaskIdsLast(cfg: Config, st: Store, tid: nat, t: Task, i: Input)
    ensures IdsLast(st, TaskStep(cfg, st, tid, t, i).0)
  {
    UploadIdsLast(cfg, st, tid, t, i);
    hide UploadStep;
    if IsUpload(t) { hide CommitStep, CleanStep, PlaceStep; }
    else if IsCommit(t) { hide CleanStep, PlaceStep; }
    else if IsClean(t) { hide CommitStep, PlaceStep; }
    else { hide CommitStep, CleanStep; }
  }

  lemma UploadIdsLast(cfg: Config, st: Store, tid: nat, t: Task, i: Input)
    ensures IdsLast(st, UploadStep(cfg, st, tid, t, i).0)
  {
  }

  /** The statement fails a pending or uploading blob of its user whose session row is still there. */
  ghost predicate Uncouples(st: Store, t: Task, i: Input) {
    && t.AbBlob? && Took(i) && t.blob in st.blobs && st.blobs[t.blob].user == t.user
    && (st.blobs[t.blob].status.Pending? || st.blobs[t.blob].status.Uploading?)
    && exists s :: s in st.sessions && st.sessions[s].blob == t.blob
  }

  lemma ActiveAborts(cfg: Config, st: Store, tid: nat, u: Id, s: Id, b: Id)
    requires StoreOk(cfg, {}, st) && Active(st, tid, u, s, b)
    ensures Aborts(st, u, s, b)
  {
    if s in st.sessions { assert SessionOk(cfg, {}, st, s); }
  }

  lemma CompleteCouples(cfg: Config, st: Store, u: Id, s: Id, total: nat)
    requires StoreOk(cfg, {}, st) && Rows(st) && CanComplete(st, u, s, total)
    ensures Rows(CompleteUpload(st, s, total))
  {
    var st' := CompleteUpload(st, s, total);
    forall s2 | s2 in st'.sessions ensures CoupledRow(st', s2) {
      assert SessionOk(cfg, {}, st, s) && SessionOk(cfg, {}, st, s2) && CoupledRow(st, s2);
    }
  }

  lemma CommitCouples(cfg: Config, st: Store, s: Id)
    requires StoreOk(cfg, {}, st) && Rows(st) && s in st.sessions && st.sessions[s].blob in st.blobs
    ensures Rows(CommitUploaded(st, s))
  {
    var st' := CommitUploaded(st, s);
    forall s2 | s2 in st'.sessions ensures CoupledRow(st', s2) {
      assert SessionOk(cfg, {}, st, s) && SessionOk(cfg, {}, st, s2) && CoupledRow(st, s2);
    }
  }

  lemma FailCouplesIff(st: Store, t: Task, i: Input)
    requires Rows(st) && t.AbBlob? && Took(i)
    ensures Rows(MarkFailed(st, t.user, t.blob)) <==> !Uncouples(st, t, i)
  {
    var st' := MarkFailed(st, t.user, t.blob);
    if Uncouples(st, t, i) {
      var s :| s in st.sessions && st.sessions[s].blob == t.blob;
      assert !CoupledRow(st', s);
    } else {
      forall s | s in st'.sessions ensures CoupledRow(st', s) { assert CoupledRow(st, s); }
    }
  }

  lemma UploadCouplesIff(cfg: Config, st: Store, tid: nat, t: Task, i: Input)
    requires StoreOk(cfg, {}, st) && Rows(st) && IsUpload(t)
    ensures Rows(UploadStep(cfg, st, tid, t, i).0) <==> !Uncouples(st, t, i)
  {
    if t.AbBlob? {
      hide StoreOk, CoupledRow;
      if Took(i) { FailCouplesIff(st, t, i); }
    } else if t.UpComplete? {
      if CanComplete(st, t.user, t.sess, t.row.size) { CompleteCouples(cfg, st, t.user, t.sess, t.row.size); }
      hide StoreOk, CanComplete, CompleteUpload, CoupledRow;
    } else {
      hide StoreOk;
      QuietCouples(cfg, st, tid, t, i);
    }
  }

  lemma QuietCouples(cfg: Config, st: Store, tid: nat, t: Task, i: Input)
    requires Rows(st) && !t.AbBlob? && !t.UpComplete?
    ensures Rows(UploadStep(cfg, st, tid, t, i).0)
  {
  }

  /** The next statement of an upload or abort is in order. */
  lemma UploadAborts(cfg: Config, st: Store, tid: nat, t: Task, i: Input)
    requires StoreOk(cfg, {}, st) && TaskOk(cfg, {}, st, tid, t) && AbortOk(st, t) && IsUpload(t)
    requires t.AbSession? ==> Took(i)
    ensures AbortOk(UploadStep(cfg, st, tid, t, i).0, UploadStep(cfg, st, tid, t, i).1)
  {
    if t.UpBlob? || t.UpReceive? || t.UpRecheck? || t.UpPut? || t.UpComplete? {
      WorkAborts(cfg, st, tid, t, i);
    } else if t.UpSession? {
      if t.sess in st.sessions { assert SessionOk(cfg, {}, st, t.sess); }
      hide StoreOk, SessionOk;
    } else {
      hide StoreOk, TaskOk;
    }
  }

  lemma WorkAborts(cfg: Config, st: Store, tid: nat, t: Task, i: Input)
    requires StoreOk(cfg, {}, st) && TaskOk(cfg, {}, st, tid, t)
    requires t.UpBlob? || t.UpReceive? || t.UpRecheck? || t.UpPut? || t.UpComplete?
    ensures AbortOk(UploadStep(cfg, st, tid, t, i).0, UploadStep(cfg, st, tid, t, i).1)
  {
    ActiveAborts(cfg, st, tid, t.user, t.sess, t.row.blob);
    hide StoreOk, Active;
  }

  /** An abort in order finds no session row left. */
  lemma AbortSpares(cfg: Config, st: Store, t: Task, i: Input)
    requires StoreOk(cfg, {}, st) && AbortOk(st, t)
    ensures !Uncouples(st, t, i)
  {
    forall s | s in st.sessions ensures t.AbBlob? ==> st.sessions[s].blob != t.blob {
      assert SessionOk(cfg, {}, st, s);
    }
    hide StoreOk;
  }

  lemma CommitStepCouples(cfg: Config, st: Store, t: Task, i: Input)
    requires StoreOk(cfg, {}, st) && Rows(st) && IsCommit(t)
    ensures Rows(CommitStep(st, t, i).0)
  {
    if t.CoCommit? && CanCommit(st, t.user, t.sess) { CommitCouples(cfg, st, t.sess); }
    hide StoreOk, CommitUploaded, CoupledRow;
  }

  lemma PlaceCouples(cfg: Config, st: Store, tid: nat, t: Task, i: Input)
    requires Rows(st) && TaskOk(cfg, {}, st, tid, t) && !IsUpload(t) && !IsCommit(t) && !IsClean(t)
    ensures Rows(PlaceStep(cfg, st, t, i).0)
  {
  }

  lemma CleanCouples(st: Store, t: Task, i: Input)
    requires Rows(st) && IsClean(t)
    ensures Rows(CleanStep(st, t, i).0)
  {
    hide IsListing;
  }

  lemma TaskCouplesIff(cfg: Config, st: Store, tid: nat, t: Task, i: Input)
    requires StoreOk(cfg, {}, st) && Rows(st) && TaskOk(cfg, {}, st, tid, t)
    ensures Rows(TaskStep(cfg, st, tid, t, i).0) <==> !Uncouples(st, t, i)
  {
    hide StoreOk, TaskOk, UploadStep, CommitStep, CleanStep, PlaceStep, Rows, IsCommit, IsClean;
    if IsUpload(t) { UploadCouplesIff(cfg, st, tid, t, i); }
    else if IsCommit(t) { CommitStepCouples(cfg, st, t, i); }
    else if IsClean(t) { CleanCouples(st, t, i); }
    else { PlaceCouples(cfg, st, tid, t, i); }
  }

  lemma TaskAborts(cfg: Config, st: Store, tid: nat, t: Task, i: Input)
    requires StoreOk(cfg, {}, st) && TaskOk(cfg, {}, st, tid, t) && AbortOk(st, t) && (t.AbSession? ==> Took(i))
    ensures AbortOk(TaskStep(cfg, st, tid, t, i).0, TaskStep(cfg, st, tid, t, i).1)
  {
    hide StoreOk, TaskOk;
    if IsUpload(t) {
      hide UploadStep;
      UploadAborts(cfg, st, tid, t, i);
    } else {
      OtherAborts(cfg, st, t, i);
    }
  }

  lemma OtherAborts(cfg: Config, st: Store, t: Task, i: Input)
    requires !IsUpload(t)
    ensures AbortOk(CommitStep(st, t, i).0, CommitStep(st, t, i).1)
    ensures AbortOk(CleanStep(st, t, i).0, CleanStep(st, t, i).1)
    ensures AbortOk(PlaceStep(cfg, st, t, i).0, PlaceStep(cfg, st, t, i).1)
  {
  }

  lemma SpawnCouples(cfg: Config, st: Store, tid: nat, r: Request)
    requires Rows(st)
    ensures IdsLast(st, SpawnTask(cfg, st, tid, r).0) && Rows(SpawnTask(cfg, st, tid, r).0)
            && AbortOk(SpawnTask(cfg, st, tid, r).0, SpawnTask(cfg, st, tid, r).1)
  {
  }

  lemma StartIdsLast(cfg: Config, st: Store, u: Id, b: Id, s: Id, size: nat, checksum: Bytes)
    ensures IdsLast(st, StartUpload(cfg, st, u, b, s, size, checksum))
  {
  }

  lemma CoupledRowStays(st: Store, st': Store, s: Id)
    requires s in st.sessions && CoupledRow(st, s) && s in st'.sessions && st'.sessions[s] == st.sessions[s]
    requires st.sessions[s].blob in st'.blobs && st'.blobs[st.sessions[s].blob] == st.blobs[st.sessions[s].blob]
    ensures CoupledRow(st', s)
  {
  }

  lemma StartCouples(cfg: Config, st: Store, u: Id, b: Id, s: Id, size: nat, checksum: Bytes)
    requires StoreOk(cfg, {}, st) && Rows(st)
    ensures IdsLast(st, StartUpload(cfg, st, u, b, s, size, checksum))
            && Rows(StartUpload(cfg, st, u, b, s, size, checksum))
  {
    hide StoreOk, IdsLast;
    StartIdsLast(cfg, st, u, b, s, size, checksum);
    SessionsAreUsed(cfg, {}, st);
    var st' := StartUpload(cfg, st, u, b, s, size, checksum);
    if st' != st {
      assert CoupledRow(st', s);
      assert forall s2 | s2 in st.sessions :: st.sessions[s2].blob in st.blobs;
      forall s2 | s2 in st.sessions ensures CoupledRow(st', s2) {
        assert CoupledRow(st, s2);
        hide CoupledRow;
        CoupledRowStays(st, st', s2);
      }
      hide CoupledRow;
    }
  }

  lemma AbortsKept(w: World, st': Store)
    requires Coupling(w) && IdsLast(w.st, st')
    ensures forall tid | tid in w.tasks :: AbortOk(st', w.tasks[tid])
  {
    hide IdsLast, AbortOk, Rows;
    forall tid | tid in w.tasks ensures AbortOk(st', w.tasks[tid]) { IdsKeepAborts(w.st, st', w.tasks[tid]); }
  }

  lemma ReleaseCouples(st: Store, tid: nat, t: Task)
    ensures Rows(Release(st, tid)) <==> Rows(st)
    ensures AbortOk(Release(st, tid), t) <==> AbortOk(st, t)
  {
  }

  /** From a coupled state a step breaks the coupling exactly when it is the failing of a blob whose session is still
      there. */
  lemma CouplingBreaksIff(cfg: Config, w: World, a: Action)
    requires Inv(cfg, {}, w) && Rows(w.st)
    ensures Rows(Act(cfg, w, a).st) <==> !(a.Go? && a.tid in w.tasks && Uncouples(w.st, w.tasks[a.tid], a.input))
  {
    match a
    case Go(tid, i) =>
      hide StoreOk, TaskOk, KeptOk, Rows, TaskStep, Release;
      if tid in w.tasks && !w.tasks[tid].PlItem? {
        TaskCouplesIff(cfg, w.st, tid, w.tasks[tid], i);
        ReleaseCouples(TaskStep(cfg, w.st, tid, w.tasks[tid], i).0, tid, Done);
      }
    case Start(u, b, s, size, checksum) =>
      hide StoreOk, TaskOk, KeptOk, Rows, StartUpload;
      StartCouples(cfg, w.st, u, b, s, size, checksum);
    case Spawn(tid, r) =>
      hide Inv, Rows, SpawnTask;
      SpawnCouples(cfg, w.st, tid, r);
    case Tick(_) => hide Inv;
    case Crash => hide Inv;
  }

  lemma GoKeepsAborts(cfg: Config, w: World, tid: nat, i: Input)
    requires Inv(cfg, {}, w) && Coupling(w) && DeletesSession(w, Go(tid, i))
    ensures var w' := Act(cfg, w, Go(tid, i)); forall t2 | t2 in w'.tasks :: AbortOk(w'.st, w'.tasks[t2])
  {
    hide StoreOk, TaskOk, KeptOk, AbortOk, IdsLast, Rows, TaskStep, Release;
    DoneAborts(w.st);
    if tid in w.tasks && !w.tasks[tid].PlItem? {
      var after := TaskStep(cfg, w.st, tid, w.tasks[tid], i);
      TaskAborts(cfg, w.st, tid, w.tasks[tid], i);
      TaskIdsLast(cfg, w.st, tid, w.tasks[tid], i);
      AbortsKept(w, after.0);
      ReleaseCouples(after.0, tid, after.1);
      forall t2 | t2 in w.tasks ensures AbortOk(Release(after.0, tid), w.tasks[t2]) {
        ReleaseCouples(after.0, tid, w.tasks[t2]);
      }
    }
  }

  lemma DoneAborts(st: Store)
    ensures AbortOk(st, Done)
  {
  }

  lemma ActKeepsAborts(cfg: Config, w: World, a: Action)
    requires Inv(cfg, {}, w) && Coupling(w) && DeletesSession(w, a)
    ensures var w' := Act(cfg, w, a); forall tid | tid in w'.tasks :: AbortOk(w'.st, w'.tasks[tid])
  {
    match a
    case Go(tid, i) => GoKeepsAborts(cfg, w, tid, i);
    case Tick(d) => hide Inv;
    case Crash => hide Inv;
    case Start(u, b, s, size, checksum) =>
      hide StoreOk, TaskOk, KeptOk, AbortOk, IdsLast, Rows, StartUpload;
      StartCouples(cfg, w.st, u, b, s, size, checksum);
      AbortsKept(w, StartUpload(cfg, w.st, u, b, s, size, checksum));
    case Spawn(tid, r) =>
      hide Inv, AbortOk, IdsLast, Rows, SpawnTask;
      SpawnCouples(cfg, w.st, tid, r);
      AbortsKept(w, SpawnTask(cfg, w.st, tid, r).0);
  }

  lemma ActCouples(cfg: Config, w: World, a: Action)
    requires Inv(cfg, {}, w) && Coupling(w) && DeletesSession(w, a)
    ensures Coupling(Act(cfg, w, a))
  {
    hide Act, TaskOk, KeptOk, StoreOk, Rows, AbortOk, Uncouples;
    CouplingBreaksIff(cfg, w, a);
    ActKeepsAborts(cfg, w, a);
    if a.Go? && a.tid in w.tasks { AbortSpares(cfg, w.st, w.tasks[a.tid], a.input); }
  }

  lemma {:induction false} RunCouples(cfg: Config, w: World, actions: seq<Action>)
    requires Inv(cfg, {}, w) && Coupling(w) && SessionsDeleted(cfg, w, actions)
    ensures Coupling(Run(cfg, w, actions))
    decreases |actions|
  {
    hide Inv, Coupling, Act, DeletesSession;
    if actions != [] {
      ActKeepsInv(cfg, {}, w, actions[0]);
      ActCouples(cfg, w, actions[0]);
      RunCouples(cfg, Act(cfg, w, actions[0]), actions[1..]);
    }
  }

  /** When the session deletes of aborts take effect, every session row finds its blob in the matching status. */
  lemma SessionBlobCoupling(cfg: Config, actions: seq<Action>, s: Id)
    requires SessionsDeleted(cfg, INIT, actions) && s in Run(cfg, INIT, actions).st.sessions
    ensures var st := Run(cfg, INIT, actions).st;
            var row := st.sessions[s];
            && row.blob in st.blobs
            && (row.status.Open? <==> st.blobs[row.blob].status.Pending?)
            && (row.status.AwaitingCommit? <==> st.blobs[row.blob].status.Uploading?)
            && (row.status.AwaitingCommit? ==> row.received == row.size)
  {
    assert Inv(cfg, {}, INIT) && Coupling(INIT);
    hide Inv, Run, SessionsDeleted;
    RunCouples(cfg, INIT, actions);
    assert CoupledRow(Run(cfg, INIT, actions).st, s);
  }

  // ---------------------------------------------------------------- and when one does fail

  /** A broken stream whose abort cannot delete the session row. */
  function FaultyAbort(u: Id, b: Id, s: Id): seq<Action> {
    var fine := Input(true, false, [], "", []);
    [Start(u, b, s, 1, [0]), Spawn(0, Upload(u, s)), Go(0, fine), Go(0, fine), Go(0, fine), Go(0, fine),
     Go(0, fine.(ok := false)), Go(0, fine)]
  }

  /** The world of FaultyAbort while its upload runs task `t`. */
  ghost function Aborting(cfg: Config, u: Id, b: Id, s: Id, status: BlobStatus, t: Task): World {
    World(Store(0, map[b := Blob(u, 1, [0], status)], map[s := Session(b, u, 1, [0], 0, Open, cfg.ttl)], map[],
                if t.Done? || t.UpLock? then map[] else map[(u, s) := 0], map[b := Started(u, s, cfg.ttl, [0])], {s}),
          map[0 := t], map[])
  }

  lemma FaultyBegins(cfg: Config, u: Id, b: Id, s: Id)
    requires 1 <= cfg.maxBlob && 1 <= cfg.maxChunk && 1 <= cfg.ttl && |b| == UUID_LENGTH
    ensures Run(cfg, INIT, FaultyAbort(u, b, s)) == Run(cfg, Aborting(cfg, u, b, s, Pending, UpLock(u, s)),
                                                        FaultyAbort(u, b, s)[2..])
  {
    var acts := FaultyAbort(u, b, s);
    var w1 := Act(cfg, INIT, acts[0]);
    assert Act(cfg, w1, acts[1]) == Aborting(cfg, u, b, s, Pending, UpLock(u, s));
    assert acts[1..][1..] == acts[2..];
    assert Run(cfg, INIT, acts) == Run(cfg, w1, acts[1..]) == Run(cfg, Act(cfg, w1, acts[1]), acts[2..]) by {
      hide Act;
    }
  }

  lemma AbortingSteps(cfg: Config, u: Id, b: Id, s: Id, i: Input)
    requires 0 <= cfg.ttl && i.msgs == [] && i.ok
    ensures var row := Session(b, u, 1, [0], 0, Open, cfg.ttl);
            && Act(cfg, Aborting(cfg, u, b, s, Pending, UpLock(u, s)), Go(0, i))
              == Aborting(cfg, u, b, s, Pending, UpSession(u, s))
            && Act(cfg, Aborting(cfg, u, b, s, Pending, UpSession(u, s)), Go(0, i))
              == Aborting(cfg, u, b, s, Pending, UpBlob(u, s, row))
  {
  }

  lemma AbortingChecks(cfg: Config, u: Id, b: Id, s: Id, i: Input, row: Session)
    requires i.ok && row.blob == b
    ensures Act(cfg, Aborting(cfg, u, b, s, Pending, UpBlob(u, s, row)), Go(0, i))
            == Aborting(cfg, u, b, s, Pending, UpReceive(u, s, row))
  {
  }

  lemma AbortingEnds(cfg: Config, u: Id, b: Id, s: Id, i: Input, row: Session)
    requires i.msgs == [] && i.ok && !i.stored && row.blob == b && row.size == 1
    ensures Act(cfg, Aborting(cfg, u, b, s, Pending, UpReceive(u, s, row)), Go(0, i))
            == Aborting(cfg, u, b, s, Pending, AbSession(u, s, b, true))
    ensures Act(cfg, Aborting(cfg, u, b, s, Pending, AbSession(u, s, b, true)), Go(0, i.(ok := false)))
            == Aborting(cfg, u, b, s, Pending, AbBlob(u, s, b, true))
  {
  }

  lemma AbortingFails(cfg: Config, u: Id, b: Id, s: Id, i: Input)
    requires i.ok
    ensures Act(cfg, Aborting(cfg, u, b, s, Pending, AbBlob(u, s, b, true)), Go(0, i))
            == Aborting(cfg, u, b, s, Failed, AbObject(u, s, b))
  {
  }

  /** The hypothesis is needed: an open session is left with a failed blob. */
  lemma CouplingNeedsDeletes(cfg: Config, u: Id, b: Id, s: Id)
    requires 1 <= cfg.maxBlob && 1 <= cfg.maxChunk && 1 <= cfg.ttl && |b| == UUID_LENGTH
    ensures var st := Run(cfg, INIT, FaultyAbort(u, b, s)).st;
            s in st.sessions && st.sessions[s].status.Open? && st.sessions[s].blob == b && b in st.blobs
              && st.blobs[b].status.Failed?
  {
    hide Act, Run;
    var acts := FaultyAbort(u, b, s);
    var fine := Input(true, false, [], "", []);
    var row := Session(b, u, 1, [0], 0, Open, cfg.ttl);
    FaultyBegins(cfg, u, b, s);
    AbortingSteps(cfg, u, b, s, fine);
    AbortingChecks(cfg, u, b, s, fine, row);
    AbortingEnds(cfg, u, b, s, fine, row);
    AbortingFails(cfg, u, b, s, fine);
    Next(cfg, Aborting(cfg, u, b, s, Pending, UpLock(u, s)), Aborting(cfg, u, b, s, Pending, UpSession(u, s)), acts, 2);
    Next(cfg, Aborting(cfg, u, b, s, Pending, UpSession(u, s)), Aborting(cfg, u, b, s, Pending, UpBlob(u, s, row)),
         acts, 3);
    Next(cfg, Aborting(cfg, u, b, s, Pending, UpBlob(u, s, row)), Aborting(cfg, u, b, s, Pending, UpReceive(u, s, row)),
         acts, 4);
    Next(cfg, Aborting(cfg, u, b, s, Pending, UpReceive(u, s, row)),
         Aborting(cfg, u, b, s, Pending, AbSession(u, s, b, true)), acts, 5);
    Next(cfg, Aborting(cfg, u, b, s, Pending, AbSession(u, s, b, true)),
         Aborting(cfg, u, b, s, Pending, AbBlob(u, s, b, true)), acts, 6);
    Next(cfg, Aborting(cfg, u, b, s, Pending, AbBlob(u, s, b, true)), Aborting(cfg, u, b, s, Failed, AbObject(u, s, b)),
         acts, 7);
    assert acts[8..] == [];
    RunOfNone(cfg, Aborting(cfg, u, b, s, Failed, AbObject(u, s, b)));
  }
}
