/** How the status of a blob may change, whatever fails. */
module BlobStatus {
  import opened Base
  import opened Transfer
  import opened Blobs
  import opened BlobSafety
  import opened BlobRuns
  import opened BlobTheorems

  predicate Moves(a: BlobStatus, b: BlobStatus) {
    a == b || (a.Pending? && b.Uploading?) || (a.Uploading? && b.Committed?)
      || (b.Failed? && (a.Pending? || a.Uploading?))
  }

  predicate Reaches(a: BlobStatus, b: BlobStatus) {
    a == b || a.Pending? || (a.Uploading? && !b.Pending?)
  }

  /** One step moves the status of `b` along an arrow and changes nothing else of its row; a removed upload row
      does not come back. */
  ghost predicate RowMoves(st: Store, st': Store, b: Id) {
    && (b in st.blobs && b in st'.blobs ==>
          st'.blobs[b] == st.blobs[b].(status := st'.blobs[b].status) && Moves(st.blobs[b].status, st'.blobs[b].status))
    && (b in st.home ==> b in st'.home && st'.home[b] == st.home[b])
    && (b in st.home && st.home[b].Started? && b !in st.blobs ==> b !in st'.blobs)
  }

  lemma UploadMoves(cfg: Config, st: Store, tid: nat, t: Task, i: Input, b: Id)
    requires IsUpload(t)
    ensures RowMoves(st, UploadStep(cfg, st, tid, t, i).0, b)
  {
    if t.UpReceive? { hide Receive; } else if t.UpComplete? { hide KeyOf; } else { hide CanComplete, KeyOf; }
  }

  lemma CommitMoves(st: Store, t: Task, i: Input, b: Id)
    ensures RowMoves(st, CommitStep(st, t, i).0, b)
  {
  }

  lemma CleanMoves(st: Store, t: Task, i: Input, b: Id)
    ensures RowMoves(st, CleanStep(st, t, i).0, b)
  {
  }

  lemma PlaceMoves(cfg: Config, st: Store, tid: nat, t: Task, i: Input, b: Id)
    requires TaskOk(cfg, {}, st, tid, t)
    ensures RowMoves(st, PlaceStep(cfg, st, t, i).0, b)
  {
  }

  lemma TaskMoves(cfg: Config, st: Store, tid: nat, t: Task, i: Input, b: Id)
    requires TaskOk(cfg, {}, st, tid, t)
    ensures RowMoves(st, TaskStep(cfg, st, tid, t, i).0, b)
  {
    hide RowMoves, UploadStep, CommitStep, CleanStep, PlaceStep, TaskOk;
    if IsUpload(t) { UploadMoves(cfg, st, tid, t, i, b); }
    CommitMoves(st, t, i, b);
    CleanMoves(st, t, i, b);
    PlaceMoves(cfg, st, tid, t, i, b);
  }

  lemma SpawnMoves(cfg: Config, st: Store, tid: nat, r: Request, b: Id)
    ensures RowMoves(st, SpawnTask(cfg, st, tid, r).0, b)
  {
  }

  /** In every reachable state, whatever the action and whatever fails. */
  lemma StatusMoves(cfg: Config, w: World, a: Action, b: Id)
    requires Inv(cfg, {}, w)
    ensures RowMoves(w.st, Act(cfg, w, a).st, b)
  {
    assert b in w.st.blobs ==> b in w.st.home;
    hide StoreOk, KeptOk, TaskOk, TaskStep, SpawnTask;
    match a
    case Tick(_) =>
    case Start(_, _, _, _, _) =>
    case Crash =>
    case Spawn(tid, r) => SpawnMoves(cfg, w.st, tid, r, b);
    case Go(tid, i) =>
      if tid in w.tasks { TaskMoves(cfg, w.st, tid, w.tasks[tid], i, b); }
  }

  lemma {:induction false} GoneStaysGone(cfg: Config, w: World, more: seq<Action>, b: Id)
    requires Inv(cfg, {}, w) && b in w.st.home && w.st.home[b].Started? && b !in w.st.blobs
    ensures b !in Run(cfg, w, more).st.blobs
    decreases |more|
  {
    hide Inv, Act;
    if more != [] {
      ActKeepsInv(cfg, {}, w, more[0]);
      StatusMoves(cfg, w, more[0], b);
      GoneStaysGone(cfg, Act(cfg, w, more[0]), more[1..], b);
    }
  }

  lemma {:induction false} RowReaches(cfg: Config, w: World, more: seq<Action>, b: Id)
    requires Inv(cfg, {}, w) && b in w.st.blobs && b in Run(cfg, w, more).st.blobs
    ensures var row, row' := w.st.blobs[b], Run(cfg, w, more).st.blobs[b];
            row' == row.(status := row'.status) && Reaches(row.status, row'.status)
    decreases |more|
  {
    if more != [] {
      var w1 := Act(cfg, w, more[0]);
      ActKeepsInv(cfg, {}, w, more[0]);
      StatusMoves(cfg, w, more[0], b);
      if b in w1.st.blobs {
        hide Inv, Act;
        RowReaches(cfg, w1, more[1..], b);
      } else {
        StayedUpload(cfg, w, more[0], b);
        hide Inv, Act;
        GoneStaysGone(cfg, w1, more[1..], b);
      }
    }
  }

  /** Only rows of upload sessions are ever removed. */
  lemma StayedUpload(cfg: Config, w: World, a: Action, b: Id)
    requires Inv(cfg, {}, w) && b in w.st.blobs && b !in Act(cfg, w, a).st.blobs
    ensures b in w.st.home && w.st.home[b].Started?
  {
    ActLasts(cfg, {}, w, a);
    hide Act, TaskOk, KeptOk, StoredKept, DoomedKept, SessionOk, BlobOk;
  }

  /** Across any stretch of any run: a row that is still there differs at most in its status, committed and failed
      are never left, and uploading never goes back to pending. */
  lemma StatusesOverRuns(cfg: Config, actions: seq<Action>, more: seq<Action>, b: Id)
    requires b in Run(cfg, INIT, actions).st.blobs && b in Run(cfg, Run(cfg, INIT, actions), more).st.blobs
    ensures var row, row' := Run(cfg, INIT, actions).st.blobs[b], Run(cfg, Run(cfg, INIT, actions), more).st.blobs[b];
            && row' == row.(status := row'.status)
            && (row.status.Committed? || row.status.Failed? ==> row' == row)
            && (row.status.Uploading? ==> !row'.status.Pending?)
  {
    hide Run, Inv;
    ReachableInv(cfg, {}, actions);
    RowReaches(cfg, Run(cfg, INIT, actions), more, b);
  }
}
