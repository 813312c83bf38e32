/** What a lost acknowledgement can do: a transaction commits, reports an error, and the handler compensates. */
module BlobLostAck {
  import opened Base
  import opened Blobs
  import opened BlobRuns
  import opened BlobProgress

  function Unacknowledged(): Input {
    Input(false, true, [], "", [])
  }

  /** The row of a committed blob is there and its bytes are not. */
  ghost predicate Emptied(st: Store, u: Id, b: Id) {
    b in st.blobs && st.blobs[b].status.Committed? && st.blobs[b].user == u && KeyOf(u, b) !in st.objects
  }

  // ---------------------------------------------------------------- the insert of a placement

  function LostInsert(tid: nat, u: Id, payload: Field, b: Id): seq<Action> {
    [Spawn(tid, Place(u, Some(payload), "", b)), Go(tid, AllFine([])), Go(tid, Unacknowledged()), Go(tid, AllFine([]))]
  }

  /** The tables before and after the three statements. */
  lemma LostInsertStatements(cfg: Config, st: Store, tid: nat, u: Id, b: Id, ct: Bytes)
    ensures var st2 := PutObject(st, KeyOf(u, b), ct);
            var st3 := InsertCommitted(cfg, st2, u, b, ct);
            && TaskStep(cfg, st, tid, PlPut(u, b, ct), AllFine([])) == (st2, PlInsert(u, b, ct))
            && TaskStep(cfg, st2, tid, PlInsert(u, b, ct), Unacknowledged()) == (st3, PlUndo(u, b))
            && TaskStep(cfg, st3, tid, PlUndo(u, b), AllFine([])) == (DropObject(st3, KeyOf(u, b)), Done)
            && Emptied(Release(DropObject(st3, KeyOf(u, b)), tid), u, b)
  {
  }

  /** A placement whose INSERT commits and reports an error, and whose compensating delete succeeds, leaves a committed
      row without bytes. */
  lemma LostInsertEmpties(cfg: Config, w: World, tid: nat, u: Id, payload: Field, b: Id)
    requires tid !in w.tasks && 0 < |payload.ciphertext| <= EffectiveMax(cfg) && payload.nonce != []
    requires |payload.ciphertext| > cfg.inlineLimit && b !in w.st.home && |b| == UUID_LENGTH
    ensures Emptied(Run(cfg, w, LostInsert(tid, u, payload, b)).st, u, b)
  {
    var ct := payload.ciphertext;
    var st1 := w.st.(home := w.st.home[b := Placed(tid)]);
    assert SpawnTask(cfg, w.st, tid, Place(u, Some(payload), "", b)) == (st1, PlPut(u, b, ct));
    hide SpawnTask, TaskStep, Act, Run, Emptied, Release, InsertCommitted, PutObject, DropObject;
    var st2 := PutObject(st1, KeyOf(u, b), ct);
    var st3 := InsertCommitted(cfg, st2, u, b, ct);
    var st4 := DropObject(st3, KeyOf(u, b));
    LostInsertStatements(cfg, st1, tid, u, b, ct);
    SpawnIs(cfg, w, tid, Place(u, Some(payload), "", b), st1, PlPut(u, b, ct));
    AtStep(cfg, w, tid, AllFine([]), st1, PlPut(u, b, ct), st2, PlInsert(u, b, ct));
    AtStep(cfg, w, tid, Unacknowledged(), st2, PlInsert(u, b, ct), st3, PlUndo(u, b));
    AtStep(cfg, w, tid, AllFine([]), st3, PlUndo(u, b), st4, Done);
    RunOfFour(cfg, w, At(w, st1, tid, PlPut(u, b, ct)), At(w, st2, tid, PlInsert(u, b, ct)),
              At(w, st3, tid, PlUndo(u, b)),
              At(w, Release(st4, tid), tid, Done), LostInsert(tid, u, payload, b));
  }

  // ---------------------------------------------------------------- the completion of an upload

  /** The upload has stored its bytes; its completing transaction commits and reports an error, a commit request gets as
      far as having checked the object, the compensation erases it, and the commit goes through. */
  function LostCompletion(j: Job): seq<Action> {
    [Go(j.up, Unacknowledged()), Spawn(j.co, CommitUpload(j.u, j.s)), Go(j.co, AllFine([])), Go(j.co, AllFine([])),
     Go(j.co, AllFine([])), Go(j.up, AllFine([])), Go(j.co, AllFine([]))]
  }

  /** The world after the completing transaction, with the two handlers at these statements. */
  ghost function Both(w: World, st: Store, j: Job, up: Task, co: Task): World {
    w.(st := st, tasks := w.tasks[j.up := up][j.co := co])
  }

  lemma CommitMoves(cfg: Config, w: World, st: Store, j: Job, up: Task, co: Task, st': Store, co': Task)
    requires IsCommit(co) && !co'.Done? && CommitStep(st, co, AllFine([])) == (st', co')
    ensures Act(cfg, Both(w, st, j, up, co), Go(j.co, AllFine([]))) == Both(w, st', j, up, co')
  {
    hide CommitStep;
    AtStep(cfg, w.(tasks := w.tasks[j.up := up]), j.co, AllFine([]), st, co, st', co');
    hide Act;
  }

  lemma EraseMoves(cfg: Config, w: World, st: Store, j: Job, row: Session, co: Task)
    requires j.up != j.co
    ensures Act(cfg, Both(w, st, j, UpUndo(j.u, j.s, row), co), Go(j.up, AllFine([])))
            == Both(w, DropObject(st, KeyOf(j.u, row.blob)), j, AbSession(j.u, j.s, row.blob, false), co)
  {
    var t, t', st' := UpUndo(j.u, j.s, row), AbSession(j.u, j.s, row.blob, false), DropObject(st, KeyOf(j.u, row.blob));
    assert TaskStep(cfg, st, j.up, t, AllFine([])) == (st', t');
    hide TaskStep;
    GoIs(cfg, Both(w, st, j, t, co), j.up, AllFine([]), st', t');
    hide Act;
    assert w.tasks[j.up := t][j.co := co][j.up := t'] == w.tasks[j.up := t'][j.co := co];
  }

  /** The commit transaction looks at rows only. */
  lemma CommitEmpties(cfg: Config, st: Store, j: Job)
    requires 1 <= cfg.ttl
    ensures var st1 := DropObject(RowsOf(cfg, st, j, Uploading), KeyOf(j.u, j.b));
            var (st', t') := CommitStep(st1, CoCommit(j.u, j.s), AllFine([]));
            t' == Done && Emptied(Release(st', j.co), j.u, j.b)
  {
  }

  lemma CompletesUnacknowledged(cfg: Config, w: World, j: Job)
    requires Ready(cfg, w, j)
    ensures var row := RowOfJob(cfg, w.st.now, j);
            var locked := w.st.(locks := w.st.locks[(j.u, j.s) := j.up]);
            Act(cfg, During(cfg, w, j, UpComplete(j.u, j.s, row)), Go(j.up, Unacknowledged()))
            == At(w, RowsOf(cfg, locked, j, Uploading), j.up, UpUndo(j.u, j.s, row))
  {
    var row := RowOfJob(cfg, w.st.now, j);
    var locked := w.st.(locks := w.st.locks[(j.u, j.s) := j.up]);
    var d := During(cfg, w, j, UpComplete(j.u, j.s, row));
    CompleteRows(cfg, w, j);
    assert RowsOf(cfg, w.st, j, Uploading).(locks := locked.locks) == RowsOf(cfg, locked, j, Uploading);
    LostStatement(cfg, d.st, j, row);
    assert d == At(w, d.st, j.up, UpComplete(j.u, j.s, row));
    hide UploadStep, During, Act, RowsOf;
    AtStep(cfg, w, j.up, Unacknowledged(), d.st, UpComplete(j.u, j.s, row), RowsOf(cfg, locked, j, Uploading),
           UpUndo(j.u, j.s, row));
  }

  /** Unacknowledged, the completing transaction does the same and the handler goes on to compensate. */
  lemma LostStatement(cfg: Config, st: Store, j: Job, row: Session)
    requires UploadStep(cfg, st, j.up, UpComplete(j.u, j.s, row), AllFine([])).1.Done?
             && CanComplete(st, j.u, j.s, row.size)
    ensures UploadStep(cfg, st, j.up, UpComplete(j.u, j.s, row), Unacknowledged())
            == (UploadStep(cfg, st, j.up, UpComplete(j.u, j.s, row), AllFine([])).0, UpUndo(j.u, j.s, row))
  {
  }

  /** From any world in which an upload has stored its bytes, these seven steps leave a committed row without bytes. */
  lemma LostCompletionEmpties(cfg: Config, w: World, j: Job)
    requires Ready(cfg, w, j)
    ensures Emptied(Run(cfg, During(cfg, w, j, UpComplete(j.u, j.s, RowOfJob(cfg, w.st.now, j))), LostCompletion(j)).st,
                    j.u, j.b)
  {
    var row := RowOfJob(cfg, w.st.now, j);
    var locked := w.st.(locks := w.st.locks[(j.u, j.s) := j.up]);
    var acts := LostCompletion(j);
    var st := RowsOf(cfg, locked, j, Uploading);
    assert j.up != j.co && 1 <= cfg.ttl && row.blob == j.b && j.co !in w.tasks;
    hide Ready, During, RowsOf, Act, Run, Emptied, RowOfJob;
    CompletesUnacknowledged(cfg, w, j);
    assert acts[0..] == acts;
    Next(cfg, During(cfg, w, j, UpComplete(j.u, j.s, row)), At(w, st, j.up, UpUndo(j.u, j.s, row)), acts, 0);
    CommitChecks(cfg, w, locked, j, row);
    LostCompletionEnds(cfg, w, locked, j, row);
  }

  /** Meanwhile a commit request gets as far as its transaction. */
  lemma CommitChecks(cfg: Config, w: World, locked: Store, j: Job, row: Session)
    requires 1 <= cfg.ttl && j.up != j.co && j.co !in w.tasks
    ensures var st, undo := RowsOf(cfg, locked, j, Uploading), UpUndo(j.u, j.s, row);
            Run(cfg, At(w, st, j.up, undo), LostCompletion(j)[1..])
              == Run(cfg, Both(w, st, j, undo, CoCommit(j.u, j.s)), LostCompletion(j)[5..])
  {
    var undo := UpUndo(j.u, j.s, row);
    var acts := LostCompletion(j);
    assert acts[1] == Spawn(j.co, CommitUpload(j.u, j.s)) && acts[2] == acts[3] == acts[4] == Go(j.co, AllFine([]))
           && |acts| == 7;
    var st := RowsOf(cfg, locked, j, Uploading);
    var t1, t2, t3, t4 := CoSession(j.u, j.s), CoBlob(j.u, j.s, j.b), CoStat(j.u, j.s, j.b, |j.data|),
      CoCommit(j.u, j.s);
    assert IsCommit(t1) && IsCommit(t2) && IsCommit(t3);
    hide *;
    CommitSpawns(cfg, w, st, j, undo);
    CommitReads(cfg, locked, j);
    CommitMoves(cfg, w, st, j, undo, t1, st, t2);
    CommitMoves(cfg, w, st, j, undo, t2, st, t3);
    CommitMoves(cfg, w, st, j, undo, t3, st, t4);
    Next(cfg, At(w, st, j.up, undo), Both(w, st, j, undo, t1), acts, 1);
    Next(cfg, Both(w, st, j, undo, t1), Both(w, st, j, undo, t2), acts, 2);
    Next(cfg, Both(w, st, j, undo, t2), Both(w, st, j, undo, t3), acts, 3);
    Next(cfg, Both(w, st, j, undo, t3), Both(w, st, j, undo, t4), acts, 4);
  }

  lemma CommitSpawns(cfg: Config, w: World, st: Store, j: Job, undo: Task)
    requires j.co !in w.tasks && j.up != j.co
    ensures Act(cfg, At(w, st, j.up, undo), Spawn(j.co, CommitUpload(j.u, j.s)))
            == Both(w, st, j, undo, CoSession(j.u, j.s))
  {
    assert SpawnTask(cfg, st, j.co, CommitUpload(j.u, j.s)) == (st, CoSession(j.u, j.s));
    SpawnIs(cfg, At(w, st, j.up, undo), j.co, CommitUpload(j.u, j.s), st, CoSession(j.u, j.s));
    hide Act;
  }

  lemma LostCompletionEnds(cfg: Config, w: World, locked: Store, j: Job, row: Session)
    requires 1 <= cfg.ttl && j.up != j.co && row.blob == j.b
    ensures var st := RowsOf(cfg, locked, j, Uploading);
            Emptied(Run(cfg, Both(w, st, j, UpUndo(j.u, j.s, row), CoCommit(j.u, j.s)), LostCompletion(j)[5..]).st, j.u,
                    j.b)
  {
    hide RowsOf, Act, Run, Emptied, CommitStep;
    var acts := LostCompletion(j);
    var st := RowsOf(cfg, locked, j, Uploading);
    var st1, abort := DropObject(st, KeyOf(j.u, j.b)), AbSession(j.u, j.s, j.b, false);
    var w5, w6 := Both(w, st, j, UpUndo(j.u, j.s, row), CoCommit(j.u, j.s)), Both(w, st1, j, abort, CoCommit(j.u, j.s));
    EraseMoves(cfg, w, st, j, row, CoCommit(j.u, j.s));
    Next(cfg, w5, w6, acts, 5);
    CommitEmpties(cfg, locked, j);
    var st2 := CommitStep(st1, CoCommit(j.u, j.s), AllFine([])).0;
    AtStep(cfg, w.(tasks := w.tasks[j.up := abort]), j.co, AllFine([]), st1, CoCommit(j.u, j.s), st2, Done);
    var w7 := Both(w, Release(st2, j.co), j, abort, Done);
    Next(cfg, w6, w7, acts, 6);
    assert acts[7..] == [];
    RunOfNone(cfg, w7);
  }
}
