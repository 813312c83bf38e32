/** What every handler of the blob machine decides at each of its statements, in terms of rows, objects and requests. */
module BlobOutcomes {
  import opened Base
  import opened Transfer
  import opened Blobs
  import opened BlobSafety
  import opened BlobRuns
  import opened BlobProgress

  // ---------------------------------------------------------------- aborts

  function Fine(): Input {
    AllFine([])
  }

  /** The blob is failed if it was pending or uploading and of this user, and untouched otherwise. */
  ghost predicate FailedOf(st: Store, st': Store, u: Id, b: Id) {
    st'.blobs == if b in st.blobs && st.blobs[b].user == u
      && (st.blobs[b].status.Pending? || st.blobs[b].status.Uploading?)
                 then st.blobs[b := st.blobs[b].(status := Failed)] else st.blobs
  }

  /** The session of this user is gone, every other is as it was. */
  ghost predicate SessionGone(st: Store, st': Store, u: Id, s: Id) {
    st'.sessions == if s in st.sessions && st.sessions[s].user == u then st.sessions - {s} else st.sessions
  }

  /** What an undisturbed abort leaves: the session row deleted, the blob failed, with `wipe` the object erased, the
      lock released, and nothing else changed. */
  ghost predicate Aborted(st: Store, st': Store, tid: nat, u: Id, s: Id, b: Id, wipe: bool) {
    && SessionGone(st, st', u, s) && FailedOf(st, st', u, b)
    && st'.objects == (if wipe then st.objects - {KeyOf(u, b)} else st.objects)
    && st'.now == st.now && st'.home == st.home && st'.used == st.used
    && (forall k | k in st'.locks :: k in st.locks && st'.locks[k] == st.locks[k] && st.locks[k] != tid)
    && (forall k | k in st.locks && st.locks[k] != tid :: k in st'.locks)
  }

  function AbortScript(tid: nat, wipe: bool): seq<Action> {
    if wipe then [Go(tid, Fine()), Go(tid, Fine()), Go(tid, Fine())] else [Go(tid, Fine()), Go(tid, Fine())]
  }

  lemma AbortStores(cfg: Config, st: Store, tid: nat, u: Id, s: Id, b: Id)
    ensures var st1 := DropSession(st, u, s);
            var st2 := MarkFailed(st1, u, b);
            var st3 := DropObject(st2, KeyOf(u, b));
            && Aborted(st, Release(st2, tid), tid, u, s, b, false) && Aborted(st, Release(st3, tid), tid, u, s, b, true)
  {
    hide KeyOf;
  }

  lemma AbortSteps(cfg: Config, st: Store, tid: nat, u: Id, s: Id, b: Id, wipe: bool)
    ensures TaskStep(cfg, st, tid, AbSession(u, s, b, wipe), Fine()) == (DropSession(st, u, s), AbBlob(u, s, b, wipe))
    ensures TaskStep(cfg, st, tid, AbBlob(u, s, b, wipe), Fine())
            == (MarkFailed(st, u, b), if wipe then AbObject(u, s, b) else Done)
    ensures TaskStep(cfg, st, tid, AbObject(u, s, b), Fine()) == (DropObject(st, KeyOf(u, b)), Done)
  {
  }

  lemma RunOfThree(cfg: Config, w: World, w1: World, w2: World, w3: World, acts: seq<Action>)
    requires |acts| == 3 && Act(cfg, w, acts[0]) == w1 && Act(cfg, w1, acts[1]) == w2 && Act(cfg, w2, acts[2]) == w3
    ensures Run(cfg, w, acts) == w3
  {
    hide Act, Run;
    assert acts[0..] == acts && acts[3..] == [];
    Next(cfg, w, w1, acts, 0);
    Next(cfg, w1, w2, acts, 1);
    Next(cfg, w2, w3, acts, 2);
    RunOfNone(cfg, w3);
  }

  /** An abort whose statements succeed: two or three of them, and the request is over. */
  lemma AbortEnds(cfg: Config, w: World, st: Store, tid: nat, u: Id, s: Id, b: Id, wipe: bool)
    ensures var w' := Run(cfg, At(w, st, tid, AbSession(u, s, b, wipe)), AbortScript(tid, wipe));
            && Aborted(st, w'.st, tid, u, s, b, wipe)
            && w'.tasks == w.tasks[tid := Done] && w'.items == w.items
  {
    var st1 := DropSession(st, u, s);
    var st2 := MarkFailed(st1, u, b);
    var st3 := DropObject(st2, KeyOf(u, b));
    AbortStores(cfg, st, tid, u, s, b);
    AbortSteps(cfg, st, tid, u, s, b, wipe);
    AbortSteps(cfg, st1, tid, u, s, b, wipe);
    AbortSteps(cfg, st2, tid, u, s, b, wipe);
    hide TaskStep, Act, Run, Aborted, DropSession, MarkFailed, DropObject, Release, KeyOf;
    AtStep(cfg, w, tid, Fine(), st, AbSession(u, s, b, wipe), st1, AbBlob(u, s, b, wipe));
    if wipe {
      AtStep(cfg, w, tid, Fine(), st1, AbBlob(u, s, b, true), st2, AbObject(u, s, b));
      AtStep(cfg, w, tid, Fine(), st2, AbObject(u, s, b), st3, Done);
      RunOfThree(cfg, At(w, st, tid, AbSession(u, s, b, true)), At(w, st1, tid, AbBlob(u, s, b, true)),
                 At(w, st2, tid, AbObject(u, s, b)), At(w, Release(st3, tid), tid, Done), AbortScript(tid, true));
    } else {
      AtStep(cfg, w, tid, Fine(), st1, AbBlob(u, s, b, false), st2, Done);
      RunOfTwo(cfg, At(w, st, tid, AbSession(u, s, b, false)), At(w, st1, tid, AbBlob(u, s, b, false)),
               At(w, Release(st2, tid), tid, Done), AbortScript(tid, false));
    }
  }

  // ---------------------------------------------------------------- uploads

  /** Where an upload goes from each of its statements that write nothing or may be refused: on, to an abort that erases
      the object or one that does not, or to its end. */
  lemma UploadDecides(cfg: Config, st: Store, tid: nat, u: Id, s: Id, row: Session, data: Bytes, i: Input)
    ensures UploadStep(cfg, st, tid, UpLock(u, s), i)
            == if (u, s) in st.locks then (st, UpLock(u, s))
               else (st.(locks := st.locks[(u, s) := tid]), UpSession(u, s))
    ensures UploadStep(cfg, st, tid, UpSession(u, s), i)
            == (st, if !(i.ok && s in st.sessions && st.sessions[s].user == u) then Done
                    else if st.sessions[s].expires < st.now then AbSession(u, s, st.sessions[s].blob, false)
                    else if st.sessions[s].status.Open? then UpBlob(u, s, st.sessions[s]) else Done)
    ensures UploadStep(cfg, st, tid, UpBlob(u, s, row), i)
            == (st, if i.ok && row.blob in st.blobs && st.blobs[row.blob].user == u
                && st.blobs[row.blob].status.Pending?
                    then UpReceive(u, s, row) else Done)
    ensures UploadStep(cfg, st, tid, UpRecheck(u, s, row, data), i)
            == (st, if row.expires < st.now then AbSession(u, s, row.blob, true) else UpPut(u, s, row, data))
    ensures UploadStep(cfg, st, tid, UpPut(u, s, row, data), i)
            == (if i.ok || i.stored then st.(objects := st.objects[KeyOf(u, row.blob) := data]) else st,
                if i.ok then UpComplete(u, s, row) else AbSession(u, s, row.blob, true))
  {
    hide KeyOf;
  }

  /** The stream: complete, in order, within the chunk limit and of the announced size and checksum, or aborted with the
      object erased; only a message that is no chunk, or a broken stream, ends the request and leaves the upload
      open. */
  lemma StreamDecides(cfg: Config, st: Store, tid: nat, u: Id, s: Id, row: Session, i: Input)
    ensures var n := |i.msgs|;
            var (st', t') := UploadStep(cfg, st, tid, UpReceive(u, s, row), i);
            && st' == st
            && (t'.UpRecheck? ==>
                  t' == UpRecheck(u, s, row, Concat(i.msgs)) && GoodUpTo(i.msgs, cfg.maxChunk, row.size, n)
                  && |Concat(i.msgs)| == row.size && cfg.sha(Concat(i.msgs)) == row.checksum)
            && (t' == Done ==>
                  exists k :: 0 <= k < n && GoodUpTo(i.msgs, cfg.maxChunk, row.size, k) && !i.msgs[k].Chunk?)
            && (t'.AbSession? ==>
                  && t' == AbSession(u, s, row.blob, true)
                  && (GoodUpTo(i.msgs, cfg.maxChunk, row.size, n) ==>
                        |Concat(i.msgs)| != row.size || cfg.sha(Concat(i.msgs)) != row.checksum))
            && (t'.UpRecheck? || t'.AbSession? || t' == Done)
  {
    assert i.msgs[0..] == i.msgs && i.msgs[..0] == [];
    assert GoodUpTo(i.msgs, cfg.maxChunk, row.size, 0);
    ReceiveOutcome(i.msgs, cfg.maxChunk, row.size, 0);
    if GoodUpTo(i.msgs, cfg.maxChunk, row.size, |i.msgs|) && |Concat(i.msgs)| == row.size {
      GoodIsReceived(i.msgs, cfg.maxChunk, row.size, 0);
    }
    hide Receive, GoodUpTo, BadChunk, Concat;
  }

  /** A stream that is good to its end and complete is accepted. */
  lemma {:induction false} GoodIsReceived(msgs: seq<Msg>, maxChunk: nat, expected: nat, k: nat)
    requires GoodUpTo(msgs, maxChunk, expected, |msgs|) && |Concat(msgs)| == expected && k <= |msgs|
    ensures Receive(msgs[k..], maxChunk, expected, Concat(msgs[..k]), k) == Whole(Concat(msgs))
    decreases |msgs| - k
  {
    if k == |msgs| {
      assert msgs[..k] == msgs;
    } else {
      assert msgs[..|msgs|] == msgs;
      ConcatShrinks(msgs, k + 1);
      assert msgs[..k + 1][..k] == msgs[..k] && msgs[k..][1..] == msgs[k + 1..];
      GoodIsReceived(msgs, maxChunk, expected, k + 1);
    }
  }

  /** A stream with the wrong checksum, or refused for its order, chunk sizes or total size, ends the upload: four
      statements later the session is gone, the blob is failed and no object is under its key. */
  lemma BadStreamEndsUpload(cfg: Config, w: World, st: Store, tid: nat, u: Id, s: Id, row: Session, i: Input)
    requires var r := Receive(i.msgs, cfg.maxChunk, row.size, [], 0);
             r.Rejected? || (r.Whole? && cfg.sha(r.data) != row.checksum)
    ensures var w' := Run(cfg, At(w, st, tid, UpReceive(u, s, row)), [Go(tid, i)] + AbortScript(tid, true));
            && Aborted(st, w'.st, tid, u, s, row.blob, true) && w'.tasks == w.tasks[tid := Done] && w'.items == w.items
            && (s in w'.st.sessions ==> w'.st.sessions[s].user != u) && KeyOf(u, row.blob) !in w'.st.objects
            && (row.blob in st.blobs && st.blobs[row.blob].user == u ==>
                  !w'.st.blobs[row.blob].status.Pending? && !w'.st.blobs[row.blob].status.Uploading?)
  {
    var abort := AbSession(u, s, row.blob, true);
    assert TaskStep(cfg, st, tid, UpReceive(u, s, row), i) == (st, abort);
    hide TaskStep, Act, Run, KeyOf, Receive;
    AbortAfter(cfg, w, st, tid, UpReceive(u, s, row), i, st, u, s, row.blob, true);
  }

  /** Any statement that decides to abort, and the abort. */
  lemma AbortAfter(cfg: Config, w: World, st: Store, tid: nat, t: Task, i: Input, st1: Store, u: Id, s: Id, b: Id,
                   wipe: bool)
    requires !t.PlItem? && TaskStep(cfg, st, tid, t, i) == (st1, AbSession(u, s, b, wipe))
    ensures var w' := Run(cfg, At(w, st, tid, t), [Go(tid, i)] + AbortScript(tid, wipe));
            Aborted(st1, w'.st, tid, u, s, b, wipe) && w'.tasks == w.tasks[tid := Done] && w'.items == w.items
  {
    hide TaskStep, Act, Aborted, At;
    AtStep(cfg, w, tid, i, st, t, st1, AbSession(u, s, b, wipe));
    AbortEnds(cfg, w, st1, tid, u, s, b, wipe);
    assert ([Go(tid, i)] + AbortScript(tid, wipe))[1..] == AbortScript(tid, wipe);
  }

  /** An upload that finds its session expired before reading the stream aborts without erasing; after reading it, with
      erasing; and so does one whose bytes could not be stored. */
  lemma LateOrUnstoredEndsUpload(cfg: Config, w: World, st: Store, tid: nat, u: Id, s: Id, row: Session, data: Bytes,
                                 i: Input)
    ensures i.ok && s in st.sessions && st.sessions[s].user == u && st.sessions[s].expires < st.now ==>
              Aborted(st, Run(cfg, At(w, st, tid, UpSession(u, s)), [Go(tid, i)] + AbortScript(tid, false)).st,
                      tid, u, s, st.sessions[s].blob, false)
    ensures row.expires < st.now ==>
              Aborted(st, Run(cfg, At(w, st, tid, UpRecheck(u, s, row, data)),
                              [Go(tid, i)] + AbortScript(tid, true)).st,
                      tid, u, s, row.blob, true)
    ensures !i.ok && !i.stored ==>
              Aborted(st, Run(cfg, At(w, st, tid, UpPut(u, s, row, data)), [Go(tid, i)] + AbortScript(tid, true)).st,
                      tid, u, s, row.blob, true)
  {
    UploadDecides(cfg, st, tid, u, s, row, data, i);
    hide UploadStep, Act, Run, Aborted, KeyOf, At, AbortScript;
    if i.ok && s in st.sessions && st.sessions[s].user == u && st.sessions[s].expires < st.now {
      AbortAfter(cfg, w, st, tid, UpSession(u, s), i, st, u, s, st.sessions[s].blob, false);
    }
    if row.expires < st.now { AbortAfter(cfg, w, st, tid, UpRecheck(u, s, row, data), i, st, u, s, row.blob, true); }
    if !i.ok && !i.stored { AbortAfter(cfg, w, st, tid, UpPut(u, s, row, data), i, st, u, s, row.blob, true); }
  }

  /** A completion that is refused because the session is no longer open, or was opened for another size, ends there;
      any other failure erases the object and aborts. */
  lemma CompletionDecides(cfg: Config, st: Store, tid: nat, u: Id, s: Id, row: Session, i: Input)
    requires i.ok || !i.stored
    ensures var (st', t') := UploadStep(cfg, st, tid, UpComplete(u, s, row), i);
            var mine := s in st.sessions && st.sessions[s].user == u;
            var fits := mine && st.sessions[s].status.Open? && st.sessions[s].size == row.size;
            var b := if mine then st.sessions[s].blob else row.blob;
            var pending := b in st.blobs && st.blobs[b].user == u && st.blobs[b].status.Pending?;
            && (t' == Done <==> i.ok && mine && (fits ==> pending))
            && (t' != Done ==> t' == UpUndo(u, s, row) && st' == st)
            && (i.ok && fits && pending ==>
                  && st'.sessions == st.sessions[s := st.sessions[s].(received := row.size, status := AwaitingCommit)]
                  && st'.blobs == st.blobs[b := st.blobs[b].(status := Uploading)] && st'.objects == st.objects)
            && (i.ok && mine && !fits ==> st' == st)
  {
  }

  // ---------------------------------------------------------------- starts

  /** An upload is started exactly when its size is within the limit, its checksum is not empty and the server is
      configured for uploads; then with these two rows. */
  lemma StartIff(cfg: Config, st: Store, u: Id, b: Id, s: Id, size: nat, checksum: Bytes)
    requires b !in st.home && |b| == UUID_LENGTH && s !in st.used && b !in st.blobs && s !in st.sessions
    ensures var st' := StartUpload(cfg, st, u, b, s, size, checksum);
            if size <= cfg.maxBlob && checksum != [] && 0 < cfg.ttl && 0 < cfg.maxChunk
            then st'.blobs == st.blobs[b := Blob(u, size, checksum, Pending)] && st'.objects == st.objects
                 && st'.sessions == st.sessions[s := Session(b, u, size, checksum, 0, Open, st.now + cfg.ttl)]
            else st' == st
  {
  }

  // ---------------------------------------------------------------- commits

  lemma CommitReadsSession(st: Store, u: Id, s: Id, i: Input)
    ensures CommitStep(st, CoSession(u, s), i)
            == (st, if i.ok && s in st.sessions && st.sessions[s].user == u && st.now <= st.sessions[s].expires
                       && st.sessions[s].status.AwaitingCommit? then CoBlob(u, s, st.sessions[s].blob) else Done)
  {
  }

  lemma CommitReadsBlob(st: Store, u: Id, s: Id, b: Id, i: Input)
    ensures CommitStep(st, CoBlob(u, s, b), i)
            == (st, if i.ok && b in st.blobs && st.blobs[b].user == u && st.blobs[b].status.Uploading?
                    then CoStat(u, s, b, st.blobs[b].size) else Done)
  {
  }

  /** The object is looked at, and the transaction checks the rows again. */
  lemma CommitChecksObject(st: Store, u: Id, s: Id, b: Id, size: nat, i: Input)
    ensures CommitStep(st, CoStat(u, s, b, size), i)
            == (st, if i.ok && KeyOf(u, b) in st.objects && |st.objects[KeyOf(u, b)]| == size then CoCommit(u, s)
                else Done)
    ensures CommitStep(st, CoCommit(u, s), i).1 == Done
    ensures var st' := CommitStep(st, CoCommit(u, s), i).0;
            if (i.ok || i.stored) && s in st.sessions && st.sessions[s].user == u && st.now <= st.sessions[s].expires
               && st.sessions[s].status.AwaitingCommit? && st.sessions[s].blob in st.blobs
               && st.blobs[st.sessions[s].blob].user == u && st.blobs[st.sessions[s].blob].status.Uploading?
            then var c := st.sessions[s].blob;
                 st' == st.(sessions := st.sessions - {s}, blobs := st.blobs[c := st.blobs[c].(status := Committed)])
            else st' == st
  {
    hide KeyOf;
  }

  /** The task holds no lock, as a commit or cleanup request never does. */
  ghost predicate Lockless(st: Store, tid: nat) {
    forall k | k in st.locks :: st.locks[k] != tid
  }

  lemma NothingToRelease(st: Store, tid: nat)
    requires Lockless(st, tid)
    ensures Release(st, tid) == st
  {
    assert Release(st, tid).locks == st.locks;
  }

  function Times(a: Action, n: nat): seq<Action> {
    if n == 0 then [] else [a] + Times(a, n - 1)
  }

  lemma RunTimes(cfg: Config, w: World, a: Action, n: nat)
    requires 0 < n
    ensures Run(cfg, w, Times(a, n)) == Run(cfg, Act(cfg, w, a), Times(a, n - 1))
  {
    hide Act;
    assert Times(a, n)[1..] == Times(a, n - 1);
  }

  /** A request that is over stays so. */
  lemma {:induction false} OverStays(cfg: Config, w: World, st: Store, tid: nat, n: nat)
    requires Lockless(st, tid)
    ensures Run(cfg, At(w, st, tid, Done), Times(Go(tid, Fine()), n)) == At(w, st, tid, Done)
    decreases n
  {
    if n > 0 {
      assert TaskStep(cfg, st, tid, Done, Fine()) == (st, Done);
      NothingToRelease(st, tid);
      hide TaskStep, Act, Release;
      AtStep(cfg, w, tid, Fine(), st, Done, st, Done);
      RunTimes(cfg, At(w, st, tid, Done), Go(tid, Fine()), n);
      OverStays(cfg, w, st, tid, n - 1);
    }
  }

  /** One statement of a commit request, and the rest of them. */
  lemma CommitGoes(cfg: Config, w: World, st: Store, tid: nat, t: Task, st': Store, t': Task, n: nat)
    requires IsCommit(t) && CommitStep(st, t, Fine()) == (st', t') && Lockless(st', tid) && 0 < n
    ensures Run(cfg, At(w, st, tid, t), Times(Go(tid, Fine()), n))
            == Run(cfg, At(w, st', tid, t'), Times(Go(tid, Fine()), n - 1))
    ensures t' == Done ==> Run(cfg, At(w, st, tid, t), Times(Go(tid, Fine()), n)) == At(w, st', tid, Done)
  {
    hide CommitStep, Act, Release, Times;
    NothingToRelease(st', tid);
    AtStep(cfg, w, tid, Fine(), st, t, st', t');
    RunTimes(cfg, At(w, st, tid, t), Go(tid, Fine()), n);
    if t' == Done { OverStays(cfg, w, st', tid, n - 1); }
  }

  /** An unexpired session of the user awaits commit, its blob is uploading and the object has the blob's size. */
  ghost predicate Committable(st: Store, u: Id, s: Id) {
    && s in st.sessions && st.sessions[s].user == u && st.now <= st.sessions[s].expires
    && st.sessions[s].status.AwaitingCommit?
    && var b := st.sessions[s].blob;
    && b in st.blobs && st.blobs[b].user == u && st.blobs[b].status.Uploading?
    && KeyOf(u, b) in st.objects && |st.objects[KeyOf(u, b)]| == st.blobs[b].size
  }

  /** The store after a commit request that nothing disturbed. */
  ghost function AfterCommit(st: Store, u: Id, s: Id): Store {
    if Committable(st, u, s)
    then st.(sessions := st.sessions - {s},
             blobs := st.blobs[st.sessions[s].blob := st.blobs[st.sessions[s].blob].(status := Committed)])
    else st
  }

  lemma CommitsFromStat(cfg: Config, w: World, st: Store, tid: nat, u: Id, s: Id, b: Id)
    requires Lockless(st, tid) && s in st.sessions && st.sessions[s].user == u && st.now <= st.sessions[s].expires
    requires st.sessions[s].status.AwaitingCommit? && st.sessions[s].blob == b
    requires b in st.blobs && st.blobs[b].user == u && st.blobs[b].status.Uploading?
    ensures Run(cfg, At(w, st, tid, CoStat(u, s, b, st.blobs[b].size)), Times(Go(tid, Fine()), 2))
            == At(w, AfterCommit(st, u, s), tid, Done)
  {
    CommitChecksObject(st, u, s, b, st.blobs[b].size, Fine());
    assert AfterCommit(st, u, s).locks == st.locks;
    hide CommitStep, Run, Times, KeyOf, At;
    var t := CommitStep(st, CoStat(u, s, b, st.blobs[b].size), Fine()).1;
    CommitGoes(cfg, w, st, tid, CoStat(u, s, b, st.blobs[b].size), st, t, 2);
    if t != Done { CommitGoes(cfg, w, st, tid, CoCommit(u, s), AfterCommit(st, u, s), Done, 1); }
  }

  lemma NotCommittable(st: Store, u: Id, s: Id)
    requires !Committable(st, u, s)
    ensures AfterCommit(st, u, s) == st
  {
  }

  lemma CommitsFromBlob(cfg: Config, w: World, st: Store, tid: nat, u: Id, s: Id, b: Id)
    requires Lockless(st, tid) && s in st.sessions && st.sessions[s].user == u && st.now <= st.sessions[s].expires
    requires st.sessions[s].status.AwaitingCommit? && st.sessions[s].blob == b
    ensures Run(cfg, At(w, st, tid, CoBlob(u, s, b)), Times(Go(tid, Fine()), 3))
            == At(w, AfterCommit(st, u, s), tid, Done)
  {
    hide CommitStep, Run, Times, KeyOf, At, AfterCommit, Lockless;
    CommitReadsBlob(st, u, s, b, Fine());
    if b in st.blobs && st.blobs[b].user == u && st.blobs[b].status.Uploading? {
      CommitGoes(cfg, w, st, tid, CoBlob(u, s, b), st, CoStat(u, s, b, st.blobs[b].size), 3);
      CommitsFromStat(cfg, w, st, tid, u, s, b);
    } else {
      CommitGoes(cfg, w, st, tid, CoBlob(u, s, b), st, Done, 3);
      NotCommittable(st, u, s);
    }
  }

  /** A commit request that nothing disturbs commits the blob and removes its session exactly when it is committable,
      and changes nothing at all otherwise. */
  lemma CommitIff(cfg: Config, w: World, st: Store, tid: nat, u: Id, s: Id)
    requires Lockless(st, tid)
    ensures Run(cfg, At(w, st, tid, CoSession(u, s)), Times(Go(tid, Fine()), 4))
            == At(w, AfterCommit(st, u, s), tid, Done)
  {
    hide CommitStep, Run, Times, KeyOf, At, AfterCommit, Lockless;
    CommitReadsSession(st, u, s, Fine());
    if s in st.sessions && st.sessions[s].user == u && st.now <= st.sessions[s].expires
       && st.sessions[s].status.AwaitingCommit? {
      CommitGoes(cfg, w, st, tid, CoSession(u, s), st, CoBlob(u, s, st.sessions[s].blob), 4);
      CommitsFromBlob(cfg, w, st, tid, u, s, st.sessions[s].blob);
    } else {
      CommitGoes(cfg, w, st, tid, CoSession(u, s), st, Done, 4);
      NotCommittable(st, u, s);
    }
  }

  // ---------------------------------------------------------------- placements

  /** The size limit is the smaller of the blob limit and what a message can carry beside its reserve, and 0 when the
      message limit does not exceed the reserve. */
  lemma SizeLimitIs(cfg: Config, n: nat)
    ensures 0 < n ==> (n <= EffectiveMax(cfg) <==> n <= cfg.maxBlob && n + 512 * 1024 <= cfg.grpcMax)
    ensures EffectiveMax(cfg) <= cfg.maxBlob
  {
  }

  /** What becomes of a payload without a blob reference: refused exactly when ciphertext or nonce is missing or the
      ciphertext is over either limit; kept inline up to the inline limit; put into a blob of its own otherwise. */
  lemma PayloadDecides(cfg: Config, st: Store, tid: nat, u: Id, payload: Option<Field>, blobReq: Id, freshId: Id)
    requires Trim(blobReq) == "" && freshId !in st.home && |freshId| == UUID_LENGTH
    ensures var (st', t') := PlaceRequest(cfg, st, tid, u, payload, blobReq, freshId);
            var ct := if payload.Some? then payload.value.ciphertext else [];
            var taken := payload.Some? && ct != [] && payload.value.nonce != [] && |ct| <= cfg.maxBlob
                         && |ct| + 512 * 1024 <= cfg.grpcMax;
            if !taken then t' == Done && st' == st
            else if |ct| <= cfg.inlineLimit then t' == PlItem(Kept(u, payload.value, None, [])) && st' == st
            else t' == PlPut(u, freshId, ct) && st' == st.(home := st.home[freshId := Placed(tid)])
  {
    if payload.Some? { SizeLimitIs(cfg, |payload.value.ciphertext|); }
    hide EffectiveMax, Trim;
  }

  /** A reference is refused beside a payload; otherwise exactly when its row is not a committed blob of the user, its
      object is missing or of another size, or it is over either limit. */
  lemma ReferenceDecides(cfg: Config, st: Store, tid: nat, u: Id, payload: Option<Field>, blobReq: Id, freshId: Id,
                         row: Blob,
                         i: Input)
    requires Trim(blobReq) != ""
    ensures var ref := Trim(blobReq);
            PlaceRequest(cfg, st, tid, u, payload, blobReq, freshId)
            == (st, if payload.None? || payload.value == Field([], []) then PlRow(u, ref) else Done)
    ensures var ref := Trim(blobReq);
            && PlaceStep(cfg, st, PlRow(u, ref), i)
               == (st, if i.ok && ref in st.blobs && st.blobs[ref].user == u && st.blobs[ref].status.Committed?
                       then PlStat(u, ref, st.blobs[ref]) else Done)
            && (0 < row.size ==>
                  PlaceStep(cfg, st, PlStat(u, ref, row), i)
                  == (st, if i.ok && KeyOf(u, ref) in st.objects && |st.objects[KeyOf(u, ref)]| == row.size
                             && row.size <= cfg.maxBlob && row.size + 512 * 1024 <= cfg.grpcMax
                          then PlItem(Kept(u, Field([], []), Some(ref), row.checksum)) else Done))
  {
    SizeLimitIs(cfg, row.size);
    hide EffectiveMax, Trim, KeyOf;
  }

  // ---------------------------------------------------------------- the reaper

  /** A pass starts with the present as its cutoff. */
  lemma CleanupStarts(cfg: Config, st: Store, tid: nat, batch: nat)
    ensures SpawnTask(cfg, st, tid, Cleanup(batch)) == (st, ClList(st.now, batch))
  {
  }

  /** A listing is worked through when there is one, and followed by another if it filled the batch. */
  lemma ListingGoes(st: Store, cutoff: Time, batch: nat, i: Input)
    requires i.ok && IsListing(st, i.refs, cutoff, batch)
    ensures CleanStep(st, ClList(cutoff, batch), i)
            == (st, if i.refs == [] then Done else ClObject(cutoff, batch, i.refs, |i.refs| == batch))
  {
    hide IsListing;
  }

  function IdsOf(refs: seq<Ref>): set<Id>
    decreases |refs|
  {
    if refs == [] then {} else {refs[0].blob} + IdsOf(refs[1..])
  }

  function KeysOf(refs: seq<Ref>): set<string>
    decreases |refs|
  {
    if refs == [] then {} else {refs[0].key} + KeysOf(refs[1..])
  }

  /** Without the rows and sessions of these blobs and the objects under these keys. */
  ghost function Without(st: Store, ids: set<Id>, keys: set<string>): Store {
    st.(blobs := st.blobs - ids, objects := st.objects - keys,
        sessions := map s | s in st.sessions && st.sessions[s].blob !in ids :: st.sessions[s])
  }

  lemma WithoutTwice(st: Store, ids1: set<Id>, keys1: set<string>, ids2: set<Id>, keys2: set<string>)
    ensures Without(Without(st, ids1, keys1), ids2, keys2) == Without(st, ids1 + ids2, keys1 + keys2)
  {
    var a, b := Without(Without(st, ids1, keys1), ids2, keys2), Without(st, ids1 + ids2, keys1 + keys2);
    assert a.blobs == b.blobs && a.objects == b.objects && a.sessions == b.sessions;
  }

  lemma ReapsOne(cfg: Config, w: World, st: Store, tid: nat, cutoff: Time, batch: nat, refs: seq<Ref>, full: bool)
    requires refs != [] && Lockless(st, tid)
    ensures var w1 := Act(cfg, At(w, st, tid, ClObject(cutoff, batch, refs, full)), Go(tid, Fine()));
            Act(cfg, w1, Go(tid, Fine()))
            == At(w, Without(st, {refs[0].blob}, {refs[0].key}), tid,
                  if |refs| > 1 then ClObject(cutoff, batch, refs[1..], full) else if full then ClList(cutoff, batch)
                    else Done)
  {
    var t0, t1 := ClObject(cutoff, batch, refs, full), ClRow(cutoff, batch, refs, full);
    var next := if |refs| > 1 then ClObject(cutoff, batch, refs[1..], full) else if full then ClList(cutoff, batch)
      else Done;
    var st1 := DropObject(st, refs[0].key);
    var st2 := Without(st, {refs[0].blob}, {refs[0].key});
    assert TaskStep(cfg, st, tid, t0, Fine()) == (st1, t1) by { hide Without; }
    assert DropBlob(st1, refs[0].blob) == st2 by {
      assert DropBlob(st1, refs[0].blob).sessions == st2.sessions && DropBlob(st1, refs[0].blob).blobs == st2.blobs;
    }
    assert TaskStep(cfg, st1, tid, t1, Fine()) == (st2, next) by { hide Without, DropBlob, DropObject; }
    assert Lockless(st2, tid);
    NothingToRelease(st2, tid);
    hide TaskStep, Act, Release, Without, DropObject, DropBlob, Lockless;
    AtStep(cfg, w, tid, Fine(), st, t0, st1, t1);
    AtStep(cfg, w, tid, Fine(), st1, t1, st2, next);
  }

  /** A listed batch, when nothing fails: two statements per blob later exactly the rows, sessions and objects of the
      listed blobs are gone, and the pass lists again if the batch was full and is over otherwise. */
  lemma {:induction false} ReapsAll(cfg: Config, w: World, st: Store, tid: nat, cutoff: Time, batch: nat,
                                    refs: seq<Ref>,
                                    full: bool)
    requires refs != [] && Lockless(st, tid)
    ensures Run(cfg, At(w, st, tid, ClObject(cutoff, batch, refs, full)), Times(Go(tid, Fine()), 2 * |refs|))
            == At(w, Without(st, IdsOf(refs), KeysOf(refs)), tid, if full then ClList(cutoff, batch) else Done)
    decreases |refs|
  {
    hide Act, Without, Lockless, At, IdsOf, KeysOf, Times, Run;
    var w0, go := At(w, st, tid, ClObject(cutoff, batch, refs, full)), Go(tid, Fine());
    var st1, rest := Without(st, {refs[0].blob}, {refs[0].key}), refs[1..];
    ReapsOne(cfg, w, st, tid, cutoff, batch, refs, full);
    RunTimes(cfg, w0, go, 2 * |refs|);
    RunTimes(cfg, Act(cfg, w0, go), go, 2 * |refs| - 1);
    NamesCons(refs);
    if |refs| > 1 {
      WithoutLockless(st, {refs[0].blob}, {refs[0].key}, tid);
      assert 2 * |refs| - 2 == 2 * |rest|;
      ReapsAll(cfg, w, st1, tid, cutoff, batch, rest, full);
      WithoutTwice(st, {refs[0].blob}, {refs[0].key}, IdsOf(rest), KeysOf(rest));
    } else {
      RunNone(cfg, At(w, st1, tid, if full then ClList(cutoff, batch) else Done), go);
    }
  }

  lemma NamesCons(refs: seq<Ref>)
    requires refs != []
    ensures IdsOf(refs) == {refs[0].blob} + IdsOf(refs[1..]) && KeysOf(refs) == {refs[0].key} + KeysOf(refs[1..])
    ensures |refs| == 1 ==> IdsOf(refs) == {refs[0].blob} && KeysOf(refs) == {refs[0].key}
  {
  }

  lemma WithoutLockless(st: Store, ids: set<Id>, keys: set<string>, tid: nat)
    requires Lockless(st, tid)
    ensures Lockless(Without(st, ids, keys), tid)
  {
  }

  lemma RunNone(cfg: Config, w: World, a: Action)
    ensures Run(cfg, w, Times(a, 0)) == w
  {
  }

  /** A listing the database may return: overdue blobs of the reaper's filter, with the keys of their objects. */
  lemma ListingIs(st: Store, refs: seq<Ref>, cutoff: Time, batch: nat)
    ensures IsListing(st, refs, cutoff, batch)
            <==> (|refs| <= batch
                  && forall k | 0 <= k < |refs| ::
                       && refs[k].blob in st.blobs
                       && (st.blobs[refs[k].blob].status.Pending? || st.blobs[refs[k].blob].status.Uploading?)
                       && (exists s ::
                             s in st.sessions && st.sessions[s].blob == refs[k].blob && st.sessions[s].expires < cutoff)
                       && refs[k].key == "users/" + st.blobs[refs[k].blob].user + "/blobs/" + refs[k].blob)
  {
  }
}
