/** Uploads and placements that nothing disturbs end with their bytes stored and committed. */
module BlobProgress {
  import opened Base
  import opened Transfer
  import opened Blobs
  import opened BlobSafety
  import opened BlobRuns

  /** One upload: who, the ids it uses, its tasks, its bytes. */
  datatype Job = Job(u: Id, b: Id, s: Id, up: nat, co: nat, data: Bytes)

  function RowOfJob(cfg: Config, now: Time, j: Job): Session {
    Session(j.b, j.u, |j.data|, cfg.sha(j.data), 0, Open, now + cfg.ttl)
  }

  /** Ids and tasks of the job are new to the world, and the server accepts blobs of this size. */
  ghost predicate Ready(cfg: Config, w: World, j: Job) {
    && |j.data| <= cfg.maxBlob && cfg.sha(j.data) != [] && 1 <= cfg.ttl && 1 <= cfg.maxChunk
    && j.b !in w.st.home && |j.b| == UUID_LENGTH && j.s !in w.st.used && (j.u, j.s) !in w.st.locks
    && j.up !in w.tasks && j.co !in w.tasks && j.up != j.co
    && forall k | k in w.st.locks :: w.st.locks[k] != j.up && w.st.locks[k] != j.co
  }

  /** The world while the upload runs task `t`. */
  ghost function During(cfg: Config, w: World, j: Job, t: Task): World {
    var now := w.st.now;
    w.(st := w.st.(blobs := w.st.blobs[j.b := Blob(j.u, |j.data|, cfg.sha(j.data), Pending)],
                   sessions := w.st.sessions[j.s := RowOfJob(cfg, now, j)],
                   home := w.st.home[j.b := Started(j.u, j.s, now + cfg.ttl, cfg.sha(j.data))],
                   used := w.st.used + {j.s},
                   locks := if t.UpLock? then w.st.locks else w.st.locks[(j.u, j.s) := j.up],
                   objects := if t.UpComplete? then w.st.objects[KeyOf(j.u, j.b) := j.data] else w.st.objects),
       tasks := w.tasks[j.up := t])
  }

  /** The store after the upload, with the rows of the job as given. */
  ghost function RowsOf(cfg: Config, st: Store, j: Job, status: BlobStatus): Store {
    st.(blobs := st.blobs[j.b := Blob(j.u, |j.data|, cfg.sha(j.data), status)],
        sessions := if status.Committed? then st.sessions - {j.s}
                    else st.sessions[j.s := RowOfJob(cfg, st.now, j).(received := |j.data|, status := AwaitingCommit)],
        home := st.home[j.b := Started(j.u, j.s, st.now + cfg.ttl, cfg.sha(j.data))],
        used := st.used + {j.s},
        objects := st.objects[KeyOf(j.u, j.b) := j.data])
  }

  ghost function Uploaded(cfg: Config, w: World, j: Job, status: BlobStatus, t: Task): World {
    w.(st := RowsOf(cfg, w.st, j, status), tasks := w.tasks[j.up := Done][j.co := t])
  }

  function AllFine(msgs: seq<Msg>): Input {
    Input(true, false, msgs, "", [])
  }

  /** Start, upload, commit. */
  function Script(cfg: Config, j: Job, msgs: seq<Msg>): seq<Action> {
    [Start(j.u, j.b, j.s, |j.data|, cfg.sha(j.data)), Spawn(j.up, Upload(j.u, j.s)),
     Go(j.up, AllFine([])), Go(j.up, AllFine([])), Go(j.up, AllFine([])), Go(j.up, AllFine(msgs)),
       Go(j.up, AllFine([])), Go(j.up, AllFine([])), Go(j.up, AllFine([])),
     Spawn(j.co, CommitUpload(j.u, j.s)), Go(j.co, AllFine([])), Go(j.co, AllFine([])), Go(j.co, AllFine([])),
       Go(j.co, AllFine([]))]
  }

  lemma Begins(cfg: Config, w: World, j: Job)
    requires Ready(cfg, w, j)
    ensures Act(cfg, Act(cfg, w, Start(j.u, j.b, j.s, |j.data|, cfg.sha(j.data))), Spawn(j.up, Upload(j.u, j.s)))
            == During(cfg, w, j, UpLock(j.u, j.s))
  {
  }

  lemma Locks(cfg: Config, w: World, j: Job)
    requires Ready(cfg, w, j)
    ensures Act(cfg, During(cfg, w, j, UpLock(j.u, j.s)), Go(j.up, AllFine([])))
            == During(cfg, w, j, UpSession(j.u, j.s))
  {
  }

  lemma Reads(cfg: Config, w: World, j: Job)
    requires Ready(cfg, w, j)
    ensures var row := RowOfJob(cfg, w.st.now, j);
            Act(cfg, During(cfg, w, j, UpSession(j.u, j.s)), Go(j.up, AllFine([])))
              == During(cfg, w, j, UpBlob(j.u, j.s, row))
  {
  }

  lemma Checks(cfg: Config, w: World, j: Job)
    requires Ready(cfg, w, j)
    ensures var row := RowOfJob(cfg, w.st.now, j);
            Act(cfg, During(cfg, w, j, UpBlob(j.u, j.s, row)), Go(j.up, AllFine([])))
              == During(cfg, w, j, UpReceive(j.u, j.s, row))
  {
  }

  lemma Receives(cfg: Config, w: World, j: Job, msgs: seq<Msg>)
    requires Ready(cfg, w, j) && Receive(msgs, cfg.maxChunk, |j.data|, [], 0) == Whole(j.data)
    ensures var row := RowOfJob(cfg, w.st.now, j);
            Act(cfg, During(cfg, w, j, UpReceive(j.u, j.s, row)), Go(j.up, AllFine(msgs)))
              == During(cfg, w, j, UpRecheck(j.u, j.s, row, j.data))
  {
    hide Receive;
  }

  lemma Rechecks(cfg: Config, w: World, j: Job)
    requires Ready(cfg, w, j)
    ensures var row := RowOfJob(cfg, w.st.now, j);
            Act(cfg, During(cfg, w, j, UpRecheck(j.u, j.s, row, j.data)), Go(j.up, AllFine([])))
              == During(cfg, w, j, UpPut(j.u, j.s, row, j.data))
  {
  }

  lemma Puts(cfg: Config, w: World, j: Job)
    requires Ready(cfg, w, j)
    ensures var row := RowOfJob(cfg, w.st.now, j);
            Act(cfg, During(cfg, w, j, UpPut(j.u, j.s, row, j.data)), Go(j.up, AllFine([])))
              == During(cfg, w, j, UpComplete(j.u, j.s, row))
  {
  }

  lemma GoIs(cfg: Config, w: World, tid: nat, i: Input, st': Store, t': Task)
    requires tid in w.tasks && !w.tasks[tid].PlItem? && TaskStep(cfg, w.st, tid, w.tasks[tid], i) == (st', t')
    ensures Act(cfg, w, Go(tid, i)) == w.(st := if t'.Done? then Release(st', tid) else st',
                                          tasks := w.tasks[tid := t'])
  {
    hide TaskStep, Release;
  }

  lemma ReleaseRestores(locks: map<(Id, Id), nat>, st: Store, k: (Id, Id), tid: nat)
    requires k !in locks && (forall k2 | k2 in locks :: locks[k2] != tid)
             && (st.locks == locks[k := tid] || st.locks == locks)
    ensures Release(st, tid) == st.(locks := locks)
  {
    assert Release(st, tid).locks == locks;
  }

  lemma CompleteRows(cfg: Config, w: World, j: Job)
    requires Ready(cfg, w, j)
    ensures var row := RowOfJob(cfg, w.st.now, j);
            UploadStep(cfg, During(cfg, w, j, UpComplete(j.u, j.s, row)).st, j.up, UpComplete(j.u, j.s, row),
                       AllFine([]))
            == (RowsOf(cfg, w.st, j, Uploading).(locks := w.st.locks[(j.u, j.s) := j.up]), Done)
  {
    var row := RowOfJob(cfg, w.st.now, j);
    var st := During(cfg, w, j, UpComplete(j.u, j.s, row)).st;
    assert st.sessions[j.s] == row && st.blobs[j.b].status.Pending? && st.blobs[j.b].user == j.u;
    assert CanComplete(st, j.u, j.s, row.size);
    var st' := CompleteUpload(st, j.s, row.size);
    assert st'.sessions == RowsOf(cfg, w.st, j, Uploading).sessions;
    assert st'.blobs == RowsOf(cfg, w.st, j, Uploading).blobs;
  }

  lemma Completes(cfg: Config, w: World, j: Job)
    requires Ready(cfg, w, j)
    ensures var row := RowOfJob(cfg, w.st.now, j);
            Act(cfg, During(cfg, w, j, UpComplete(j.u, j.s, row)), Go(j.up, AllFine([])))
            == w.(st := RowsOf(cfg, w.st, j, Uploading), tasks := w.tasks[j.up := Done])
  {
    var row := RowOfJob(cfg, w.st.now, j);
    var d := During(cfg, w, j, UpComplete(j.u, j.s, row));
    CompleteRows(cfg, w, j);
    var st' := RowsOf(cfg, w.st, j, Uploading).(locks := w.st.locks[(j.u, j.s) := j.up]);
    hide UploadStep;
    assert d.tasks == w.tasks[j.up := UpComplete(j.u, j.s, row)] && d.items == w.items;
    GoIs(cfg, d, j.up, AllFine([]), st', Done);
    ReleaseRestores(w.st.locks, st', (j.u, j.s), j.up);
    hide Act, Release, During;
    assert d.tasks[j.up := Done] == w.tasks[j.up := Done];
  }

  lemma Spawns(cfg: Config, w: World, j: Job)
    requires Ready(cfg, w, j)
    ensures Act(cfg, w.(st := RowsOf(cfg, w.st, j, Uploading), tasks := w.tasks[j.up := Done]),
                Spawn(j.co, CommitUpload(j.u, j.s)))
            == Uploaded(cfg, w, j, Uploading, CoSession(j.u, j.s))
  {
    hide RowsOf;
  }

  lemma CommitReads(cfg: Config, st: Store, j: Job)
    requires 1 <= cfg.ttl
    ensures var st' := RowsOf(cfg, st, j, Uploading);
            && CommitStep(st', CoSession(j.u, j.s), AllFine([])) == (st', CoBlob(j.u, j.s, j.b))
            && CommitStep(st', CoBlob(j.u, j.s, j.b), AllFine([])) == (st', CoStat(j.u, j.s, j.b, |j.data|))
            && CommitStep(st', CoStat(j.u, j.s, j.b, |j.data|), AllFine([])) == (st', CoCommit(j.u, j.s))
  {
  }

  lemma Commits(cfg: Config, st: Store, j: Job)
    requires 1 <= cfg.ttl && j.s !in st.sessions
    ensures CommitStep(RowsOf(cfg, st, j, Uploading), CoCommit(j.u, j.s), AllFine([]))
            == (RowsOf(cfg, st, j, Committed), Done)
  {
    var st' := RowsOf(cfg, st, j, Uploading);
    assert CanCommit(st', j.u, j.s);
    assert CommitUploaded(st', j.s).sessions == st.sessions - {j.s};
    assert CommitUploaded(st', j.s).blobs == RowsOf(cfg, st, j, Committed).blobs;
  }

  lemma Steps(cfg: Config, w: World, j: Job, status: BlobStatus, t: Task, t': Task)
    requires Ready(cfg, w, j) && IsCommit(t)
    requires CommitStep(RowsOf(cfg, w.st, j, Uploading), t, AllFine([])) == (RowsOf(cfg, w.st, j, status), t')
    ensures Act(cfg, Uploaded(cfg, w, j, Uploading, t), Go(j.co, AllFine([]))) == Uploaded(cfg, w, j, status, t')
  {
    var st' := RowsOf(cfg, w.st, j, status);
    assert st'.locks == w.st.locks;
    hide RowsOf, CommitStep;
    GoIs(cfg, Uploaded(cfg, w, j, Uploading, t), j.co, AllFine([]), st', t');
    ReleaseRestores(w.st.locks, st', (j.u, j.s), j.co);
    hide Act, Release;
    assert w.tasks[j.up := Done][j.co := t][j.co := t'] == w.tasks[j.up := Done][j.co := t'];
  }

  /** Started, streamed in chunks and committed, the blob is committed with exactly the bytes sent, its session is
      gone, and every other row, object and item is as before. */
  lemma UploadCommits(cfg: Config, w: World, j: Job, msgs: seq<Msg>)
    requires Ready(cfg, w, j) && j.s !in w.st.sessions && Numbered(msgs, cfg.maxChunk) && Concat(msgs) == j.data
    ensures Run(cfg, w, Script(cfg, j, msgs)) == Uploaded(cfg, w, j, Committed, Done)
  {
    assert msgs[0..] == msgs && msgs[..0] == [];
    NumberedIsReceived(msgs, cfg.maxChunk, |j.data|, 0);
    hide Numbered, Concat, Receive, Ready, Act, Run, During, RowsOf, Uploaded, CommitStep;
    UploadCompletes(cfg, w, j, msgs);
    CommitCompletes(cfg, w, j, msgs);
  }

  lemma UploadCompletes(cfg: Config, w: World, j: Job, msgs: seq<Msg>)
    requires Ready(cfg, w, j) && Receive(msgs, cfg.maxChunk, |j.data|, [], 0) == Whole(j.data)
    ensures Run(cfg, w, Script(cfg, j, msgs))
            == Run(cfg, w.(st := RowsOf(cfg, w.st, j, Uploading), tasks := w.tasks[j.up := Done]),
                   Script(cfg, j, msgs)[9..])
  {
    hide Receive, Ready, Act, Run, During, RowsOf, RowOfJob;
    var acts := Script(cfg, j, msgs);
    var row := RowOfJob(cfg, w.st.now, j);
    var w1 := Act(cfg, w, acts[0]);
    Begins(cfg, w, j);
    Locks(cfg, w, j);
    Reads(cfg, w, j);
    Checks(cfg, w, j);
    assert acts[0..] == acts;
    Next(cfg, w, w1, acts, 0);
    Next(cfg, w1, During(cfg, w, j, UpLock(j.u, j.s)), acts, 1);
    Next(cfg, During(cfg, w, j, UpLock(j.u, j.s)), During(cfg, w, j, UpSession(j.u, j.s)), acts, 2);
    Next(cfg, During(cfg, w, j, UpSession(j.u, j.s)), During(cfg, w, j, UpBlob(j.u, j.s, row)), acts, 3);
    Next(cfg, During(cfg, w, j, UpBlob(j.u, j.s, row)), During(cfg, w, j, UpReceive(j.u, j.s, row)), acts, 4);
    ReceiveCompletes(cfg, w, j, msgs);
  }

  lemma ReceiveCompletes(cfg: Config, w: World, j: Job, msgs: seq<Msg>)
    requires Ready(cfg, w, j) && Receive(msgs, cfg.maxChunk, |j.data|, [], 0) == Whole(j.data)
    ensures Run(cfg, During(cfg, w, j, UpReceive(j.u, j.s, RowOfJob(cfg, w.st.now, j))), Script(cfg, j, msgs)[5..])
            == Run(cfg, w.(st := RowsOf(cfg, w.st, j, Uploading), tasks := w.tasks[j.up := Done]),
                   Script(cfg, j, msgs)[9..])
  {
    hide Receive, Ready, Act, Run, During, RowsOf, RowOfJob;
    var acts := Script(cfg, j, msgs);
    var row := RowOfJob(cfg, w.st.now, j);
    Receives(cfg, w, j, msgs);
    Rechecks(cfg, w, j);
    Puts(cfg, w, j);
    Completes(cfg, w, j);
    Next(cfg, During(cfg, w, j, UpReceive(j.u, j.s, row)), During(cfg, w, j, UpRecheck(j.u, j.s, row, j.data)), acts,
         5);
    Next(cfg, During(cfg, w, j, UpRecheck(j.u, j.s, row, j.data)), During(cfg, w, j, UpPut(j.u, j.s, row, j.data)),
         acts, 6);
    Next(cfg, During(cfg, w, j, UpPut(j.u, j.s, row, j.data)), During(cfg, w, j, UpComplete(j.u, j.s, row)), acts, 7);
    Next(cfg, During(cfg, w, j, UpComplete(j.u, j.s, row)),
         w.(st := RowsOf(cfg, w.st, j, Uploading), tasks := w.tasks[j.up := Done]), acts, 8);
  }

  lemma CommitCompletes(cfg: Config, w: World, j: Job, msgs: seq<Msg>)
    requires Ready(cfg, w, j) && j.s !in w.st.sessions
    ensures Run(cfg, w.(st := RowsOf(cfg, w.st, j, Uploading), tasks := w.tasks[j.up := Done]),
                Script(cfg, j, msgs)[9..])
            == Uploaded(cfg, w, j, Committed, Done)
  {
    assert 1 <= cfg.ttl;
    hide Ready, Act, Run, RowsOf, Uploaded, CommitStep;
    var acts := Script(cfg, j, msgs);
    var tasks := [CoSession(j.u, j.s), CoBlob(j.u, j.s, j.b), CoStat(j.u, j.s, j.b, |j.data|), CoCommit(j.u, j.s)];
    CommitReads(cfg, w.st, j);
    Commits(cfg, w.st, j);
    Spawns(cfg, w, j);
    Next(cfg, w.(st := RowsOf(cfg, w.st, j, Uploading), tasks := w.tasks[j.up := Done]),
         Uploaded(cfg, w, j, Uploading, tasks[0]), acts, 9);
    Steps(cfg, w, j, Uploading, tasks[0], tasks[1]);
    Next(cfg, Uploaded(cfg, w, j, Uploading, tasks[0]), Uploaded(cfg, w, j, Uploading, tasks[1]), acts, 10);
    Steps(cfg, w, j, Uploading, tasks[1], tasks[2]);
    Next(cfg, Uploaded(cfg, w, j, Uploading, tasks[1]), Uploaded(cfg, w, j, Uploading, tasks[2]), acts, 11);
    Steps(cfg, w, j, Uploading, tasks[2], tasks[3]);
    Next(cfg, Uploaded(cfg, w, j, Uploading, tasks[2]), Uploaded(cfg, w, j, Uploading, tasks[3]), acts, 12);
    Steps(cfg, w, j, Committed, tasks[3], Done);
    Next(cfg, Uploaded(cfg, w, j, Uploading, tasks[3]), Uploaded(cfg, w, j, Committed, Done), acts, 13);
    assert acts[14..] == [];
    RunOfNone(cfg, Uploaded(cfg, w, j, Committed, Done));
  }

  // ---------------------------------------------------------------- placements

  function Writing(item: Id): Input {
    Input(true, false, [], item, [])
  }

  /** A placement of a payload or of a reference, and the write of the item. */
  function PlaceScript(tid: nat, r: Request, item: Id, statements: nat): seq<Action> {
    if statements == 0 then [Spawn(tid, r), Go(tid, Writing(item))]
    else [Spawn(tid, r), Go(tid, Writing(item)), Go(tid, Writing(item)), Go(tid, Writing(item))]
  }

  lemma RunOfTwo(cfg: Config, w: World, w1: World, w2: World, acts: seq<Action>)
    requires |acts| == 2 && Act(cfg, w, acts[0]) == w1 && Act(cfg, w1, acts[1]) == w2
    ensures Run(cfg, w, acts) == w2
  {
    hide Act, Run;
    assert acts[0..] == acts && acts[2..] == [];
    Next(cfg, w, w1, acts, 0);
    Next(cfg, w1, w2, acts, 1);
    RunOfNone(cfg, w2);
  }

  lemma RunOfFour(cfg: Config, w: World, w1: World, w2: World, w3: World, w4: World, acts: seq<Action>)
    requires |acts| == 4 && Act(cfg, w, acts[0]) == w1 && Act(cfg, w1, acts[1]) == w2 && Act(cfg, w2, acts[2]) == w3
             && Act(cfg, w3, acts[3]) == w4
    ensures Run(cfg, w, acts) == w4
  {
    hide Act, Run;
    assert acts[0..] == acts && acts[4..] == [];
    Next(cfg, w, w1, acts, 0);
    Next(cfg, w1, w2, acts, 1);
    Next(cfg, w2, w3, acts, 2);
    Next(cfg, w3, w4, acts, 3);
    RunOfNone(cfg, w4);
  }

  /** A payload within the inline limit is kept by the item as it came, and nothing else is stored. */
  lemma InlinePlacement(cfg: Config, w: World, tid: nat, u: Id, payload: Field, freshId: Id, item: Id)
    requires tid !in w.tasks && 0 < |payload.ciphertext| <= EffectiveMax(cfg) && payload.nonce != []
    requires |payload.ciphertext| <= cfg.inlineLimit
    ensures Run(cfg, w, PlaceScript(tid, Place(u, Some(payload), "", freshId), item, 0))
            == w.(items := w.items[item := Kept(u, payload, None, [])], tasks := w.tasks[tid := Done])
  {
    var acts := PlaceScript(tid, Place(u, Some(payload), "", freshId), item, 0);
    var w1 := w.(tasks := w.tasks[tid := PlItem(Kept(u, payload, None, []))]);
    assert Act(cfg, w, acts[0]) == w1;
    var w2 := w.(items := w.items[item := Kept(u, payload, None, [])], tasks := w.tasks[tid := Done]);
    assert Act(cfg, w1, acts[1]) == w2;
    hide Act, Run;
    RunOfTwo(cfg, w, w1, w2, acts);
  }

  ghost function At(w: World, st: Store, tid: nat, t: Task): World {
    w.(st := st, tasks := w.tasks[tid := t])
  }

  lemma SpawnIs(cfg: Config, w: World, tid: nat, r: Request, st: Store, t: Task)
    requires tid !in w.tasks && SpawnTask(cfg, w.st, tid, r) == (st, t)
    ensures Act(cfg, w, Spawn(tid, r)) == At(w, st, tid, t)
  {
    hide SpawnTask;
  }

  lemma AtStep(cfg: Config, w: World, tid: nat, i: Input, st: Store, t: Task, st': Store, t': Task)
    requires !t.PlItem? && TaskStep(cfg, st, tid, t, i) == (st', t')
    ensures Act(cfg, At(w, st, tid, t), Go(tid, i)) == At(w, if t'.Done? then Release(st', tid) else st', tid, t')
  {
    hide TaskStep, Release;
    GoIs(cfg, At(w, st, tid, t), tid, i, st', t');
    hide Act;
    assert w.tasks[tid := t][tid := t'] == w.tasks[tid := t'];
  }

  lemma PlaceIs(cfg: Config, w: World, tid: nat, item: Id, st: Store, t: Task, st': Store, t': Task)
    requires (t.PlPut? || t.PlInsert? || t.PlRow? || t.PlStat?) && !t'.Done?
    requires PlaceStep(cfg, st, t, Writing(item)) == (st', t')
    ensures Act(cfg, At(w, st, tid, t), Go(tid, Writing(item))) == At(w, st', tid, t')
  {
    hide PlaceStep, Act;
    AtStep(cfg, w, tid, Writing(item), st, t, st', t');
  }

  lemma ItemIs(cfg: Config, w: World, tid: nat, item: Id, st: Store, kept: Kept)
    ensures Act(cfg, At(w, st, tid, PlItem(kept)), Go(tid, Writing(item)))
            == At(w, st, tid, Done).(items := w.items[item := kept])
  {
    assert w.tasks[tid := PlItem(kept)][tid := Done] == w.tasks[tid := Done];
  }

  lemma PlacesInTwo(cfg: Config, w: World, tid: nat, r: Request, item: Id, st1: Store, t1: Task, st2: Store, t2: Task,
                    st3: Store, kept: Kept)
    requires tid !in w.tasks && SpawnTask(cfg, w.st, tid, r) == (st1, t1)
    requires (t1.PlPut? || t1.PlRow?) && (t2.PlInsert? || t2.PlStat?)
    requires PlaceStep(cfg, st1, t1, Writing(item)) == (st2, t2)
             && PlaceStep(cfg, st2, t2, Writing(item)) == (st3, PlItem(kept))
    ensures Run(cfg, w, PlaceScript(tid, r, item, 2)) == At(w, st3, tid, Done).(items := w.items[item := kept])
  {
    hide SpawnTask, PlaceStep, Act, Run, At;
    SpawnIs(cfg, w, tid, r, st1, t1);
    PlaceIs(cfg, w, tid, item, st1, t1, st2, t2);
    PlaceIs(cfg, w, tid, item, st2, t2, st3, PlItem(kept));
    ItemIs(cfg, w, tid, item, st3, kept);
    RunOfFour(cfg, w, At(w, st1, tid, t1), At(w, st2, tid, t2), At(w, st3, tid, PlItem(kept)),
              At(w, st3, tid, Done).(items := w.items[item := kept]), PlaceScript(tid, r, item, 2));
  }

  /** A larger payload becomes a committed blob of its own with exactly its bytes, and the item refers to it. */
  lemma BlobPlacement(cfg: Config, w: World, tid: nat, u: Id, payload: Field, b: Id, item: Id)
    requires tid !in w.tasks && 0 < |payload.ciphertext| <= EffectiveMax(cfg) && payload.nonce != []
    requires |payload.ciphertext| > cfg.inlineLimit && b !in w.st.home && |b| == UUID_LENGTH
    ensures var ct := payload.ciphertext;
            Run(cfg, w, PlaceScript(tid, Place(u, Some(payload), "", b), item, 2))
            == w.(st := w.st.(home := w.st.home[b := Placed(tid)], objects := w.st.objects[KeyOf(u, b) := ct],
                              blobs := w.st.blobs[b := Blob(u, |ct|, cfg.sha(ct), Committed)]),
                  items := w.items[item := Kept(u, Field([], []), Some(b), cfg.sha(ct))], tasks := w.tasks[tid := Done])
  {
    var ct := payload.ciphertext;
    var st1 := w.st.(home := w.st.home[b := Placed(tid)]);
    var st2 := st1.(objects := w.st.objects[KeyOf(u, b) := ct]);
    var st3 := st2.(blobs := w.st.blobs[b := Blob(u, |ct|, cfg.sha(ct), Committed)]);
    hide Run;
    PlacesInTwo(cfg, w, tid, Place(u, Some(payload), "", b), item, st1, PlPut(u, b, ct), st2, PlInsert(u, b, ct), st3,
                Kept(u, Field([], []), Some(b), cfg.sha(ct)));
  }

  /** A reference to any committed blob of the user within the size limit is accepted, with or without surrounding
      space and beside an absent or empty payload: its bytes are in place. */
  lemma ReferencePlacement(cfg: Config, w: World, tid: nat, u: Id, payload: Option<Field>, blobReq: Id, freshId: Id,
                           item: Id)
    requires StoreOk(cfg, {Trim(blobReq)}, w.st) && tid !in w.tasks
             && (payload.Some? ==> payload.value == Field([], []))
    requires Trim(blobReq) in w.st.blobs && w.st.blobs[Trim(blobReq)].user == u
    requires w.st.blobs[Trim(blobReq)].status.Committed? && w.st.blobs[Trim(blobReq)].size <= EffectiveMax(cfg)
    ensures var ref := Trim(blobReq);
            Run(cfg, w, PlaceScript(tid, Place(u, payload, blobReq, freshId), item, 2))
            == w.(items := w.items[item := Kept(u, Field([], []), Some(ref), w.st.blobs[ref].checksum)],
                  tasks := w.tasks[tid := Done])
  {
    var ref := Trim(blobReq);
    var row := w.st.blobs[ref];
    assert BlobOk(cfg, {ref}, w.st, ref);
    assert |ref| == UUID_LENGTH;
    hide StoreOk, Run, Trim;
    PlacesInTwo(cfg, w, tid, Place(u, payload, blobReq, freshId), item, w.st, PlRow(u, ref), w.st, PlStat(u, ref, row),
                w.st,
                Kept(u, Field([], []), Some(ref), row.checksum));
  }

  // ---------------------------------------------------------------- what becomes of the nonce

  /** The same rows, objects and items. */
  ghost predicate SameStored(w1: World, w2: World) {
    w1.st == w2.st && w1.items == w2.items
  }

  /** Whether a payload comes with one nonce or another makes no difference to anything ever stored, whatever happens
      afterwards, if and only if the payload is too large to stay inline. */
  lemma NonceLostIff(cfg: Config, w: World, tid: nat, u: Id, ct: Bytes, n1: Bytes, n2: Bytes, freshId: Id)
    requires tid !in w.tasks && 0 < |ct| <= EffectiveMax(cfg) && n1 != [] && n2 != [] && n1 != n2
    ensures (forall actions :: SameStored(Run(cfg, Act(cfg, w, Spawn(tid, Place(u, Some(Field(ct, n1)), "", freshId))),
                                              actions),
                                          Run(cfg, Act(cfg, w, Spawn(tid, Place(u, Some(Field(ct, n2)), "", freshId))),
                                              actions)))
            <==> |ct| > cfg.inlineLimit
  {
    var w1 := Act(cfg, w, Spawn(tid, Place(u, Some(Field(ct, n1)), "", freshId)));
    var w2 := Act(cfg, w, Spawn(tid, Place(u, Some(Field(ct, n2)), "", freshId)));
    if |ct| > cfg.inlineLimit {
      assert w1 == w2;
    } else {
      var actions := [Go(tid, Writing(""))];
      InlinePlacement(cfg, w, tid, u, Field(ct, n1), freshId, "");
      InlinePlacement(cfg, w, tid, u, Field(ct, n2), freshId, "");
      hide Act;
      assert PlaceScript(tid, Place(u, Some(Field(ct, n1)), "", freshId), "", 0)[1..] == actions;
      assert PlaceScript(tid, Place(u, Some(Field(ct, n2)), "", freshId), "", 0)[1..] == actions;
      assert Run(cfg, w1, actions).items[""] != Run(cfg, w2, actions).items[""];
      assert !SameStored(Run(cfg, w1, actions), Run(cfg, w2, actions));
    }
  }
}
