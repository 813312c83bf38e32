/** What every interleaving of uploads, commits, aborts, placements, restarts and reaper passes guarantees of rows. */
module BlobTheorems {
  import opened Base
  import opened Blobs
  import opened BlobSafety
  import opened BlobRuns

  lemma ReachableInv(cfg: Config, care: set<Id>, actions: seq<Action>)
    requires forall b | b in care :: !Erased(cfg, INIT, actions, b)
    ensures Inv(cfg, care, Run(cfg, INIT, actions))
  {
    assert Inv(cfg, care, INIT);
    hide Inv, Erased;
    RunKeepsInv(cfg, care, INIT, actions);
  }

  // ---------------------------------------------------------------- what lasts

  /** Committed rows are as they were, those of the watched blobs also in their bytes, and doomed blobs stay doomed. */
  ghost predicate Lasting(care: set<Id>, st: Store, st': Store) {
    CommittedKept(st, st') && DoomedKept(st, st') && StoredKept(care, st, st')
  }

  lemma HarmlessLasts(cfg: Config, care: set<Id>, st: Store, st': Store, tid: nat)
    requires Harmless(cfg, care, st, st', tid)
    ensures Lasting(care, st, st')
  {
    hide CommittedKept, StoredKept, DoomedKept;
  }

  lemma LastingTransitive(care: set<Id>, st0: Store, st1: Store, st2: Store)
    requires Lasting(care, st0, st1) && Lasting(care, st1, st2)
    ensures Lasting(care, st0, st2)
  {
    hide Doomed;
  }

  lemma ActLasts(cfg: Config, care: set<Id>, w: World, a: Action)
    requires Inv(cfg, care, w) && (forall b | b in care :: !ErasesKept(w, a, b))
    ensures Lasting(care, w.st, Act(cfg, w, a).st)
  {
    InvGivesStore(cfg, care, w);
    hide Inv, StoreOk, Lasting, Harmless, StartUpload, SpawnTask, TaskStep, Erases;
    SameIsHarmless(cfg, care, w.st, 0);
    HarmlessLasts(cfg, care, w.st, w.st, 0);
    match a
    case Tick(d) =>
      TickIsHarmless(cfg, care, w.st, 0, d);
      HarmlessLasts(cfg, care, w.st, w.st.(now := w.st.now + d), 0);
    case Start(u, b, s, size, checksum) =>
      StartIsHarmless(cfg, care, w.st, 0, u, b, s, size, checksum);
      HarmlessLasts(cfg, care, w.st, StartUpload(cfg, w.st, u, b, s, size, checksum), 0);
    case Spawn(tid, r) =>
      SpawnOk(cfg, care, w.st, tid, r);
      HarmlessLasts(cfg, care, w.st, SpawnTask(cfg, w.st, tid, r).0, tid);
    case Go(tid, i) => GoLasts(cfg, care, w, tid, i);
    case Crash => UnlockingLasts(care, w.st);
  }

  lemma UnlockingLasts(care: set<Id>, st: Store)
    ensures Lasting(care, st, st.(locks := map[]))
  {
  }

  lemma GoLasts(cfg: Config, care: set<Id>, w: World, tid: nat, i: Input)
    requires Inv(cfg, care, w) && (forall b | b in care :: !ErasesKept(w, Go(tid, i), b))
    ensures Lasting(care, w.st, Act(cfg, w, Go(tid, i)).st)
  {
    hide StoreOk, Lasting, Harmless, TaskStep, TaskOk, KeptOk, Release, Erases;
    SameIsHarmless(cfg, care, w.st, tid);
    HarmlessLasts(cfg, care, w.st, w.st, tid);
    if tid in w.tasks && !w.tasks[tid].PlItem? {
      var after := TaskStep(cfg, w.st, tid, w.tasks[tid], i);
      TaskStepOk(cfg, care, w.st, tid, w.tasks[tid], i);
      HarmlessLasts(cfg, care, w.st, after.0, tid);
      ReleaseIsHarmless(cfg, care, after.0, tid);
      HarmlessLasts(cfg, care, after.0, Release(after.0, tid), tid);
      LastingTransitive(care, w.st, after.0, Release(after.0, tid));
    }
  }

  lemma {:induction false} RunLasts(cfg: Config, care: set<Id>, w: World, actions: seq<Action>)
    requires Inv(cfg, care, w) && (forall b | b in care :: !Erased(cfg, w, actions, b))
    ensures Lasting(care, w.st, Run(cfg, w, actions).st)
    decreases |actions|
  {
    hide Inv, Act, Lasting, Harmless, ErasesKept;
    if actions == [] {
      SameIsHarmless(cfg, care, w.st, 0);
      HarmlessLasts(cfg, care, w.st, w.st, 0);
    } else {
      var w1 := Act(cfg, w, actions[0]);
      ActKeepsInv(cfg, care, w, actions[0]);
      ActLasts(cfg, care, w, actions[0]);
      RunLasts(cfg, care, w1, actions[1..]);
      LastingTransitive(care, w.st, w1.st, Run(cfg, w1, actions[1..]).st);
    }
  }

  /** A committed row is the same in every later state. */
  lemma CommittedRowStays(cfg: Config, w: World, more: seq<Action>, b: Id)
    requires Inv(cfg, {}, w) && b in w.st.blobs && w.st.blobs[b].status.Committed?
    ensures b in Run(cfg, w, more).st.blobs && Run(cfg, w, more).st.blobs[b] == w.st.blobs[b]
  {
    hide Run, Inv, DoomedKept, StoredKept;
    RunLasts(cfg, {}, w, more);
  }

  /** A blob a reaper pass has listed is never committed afterwards, and the key it erases is no committed blob's. */
  lemma CleanupNeverTouchesCommitted(cfg: Config, actions: seq<Action>, more: seq<Action>, tid: nat, k: nat)
    requires var w := Run(cfg, INIT, actions);
             tid in w.tasks && (w.tasks[tid].ClObject? || w.tasks[tid].ClRow?) && k < |w.tasks[tid].refs|
    ensures var r := Run(cfg, INIT, actions).tasks[tid].refs[k];
            var st := Run(cfg, Run(cfg, INIT, actions), more).st;
            && (r.blob in st.blobs ==> !st.blobs[r.blob].status.Committed?)
            && forall b | b in st.blobs && st.blobs[b].status.Committed? :: KeyOf(st.blobs[b].user, b) != r.key
  {
    hide Run, StoreOk, KeptOk;
    var w := Run(cfg, INIT, actions);
    var w' := Run(cfg, w, more);
    var r := w.tasks[tid].refs[k];
    ReachableInv(cfg, {}, actions);
    assert TaskOk(cfg, {}, w.st, tid, w.tasks[tid]);
    assert Doomed(w.st, r);
    hide Doomed;
    RunLasts(cfg, {}, w, more);
    RunKeepsInv(cfg, {}, w, more);
    DoomedKeyIsNoOthers(cfg, w'.st, r);
  }

  lemma DoomedKeyIsNoOthers(cfg: Config, st: Store, r: Ref)
    requires StoreOk(cfg, {}, st) && Doomed(st, r)
    ensures r.blob in st.blobs ==> !st.blobs[r.blob].status.Committed?
    ensures forall b | b in st.blobs && st.blobs[b].status.Committed? :: KeyOf(st.blobs[b].user, b) != r.key
  {
    assert Homed(st);
    hide StoreOk;
    forall b | b in st.blobs && st.blobs[b].status.Committed? ensures KeyOf(st.blobs[b].user, b) != r.key {
      OtherKey(st, st.home[r.blob].user, r.blob, st.blobs[b].user, b);
    }
  }

  /** How an item's payload is found: inline with its nonce, or in a committed blob of its user with its checksum and an
      acceptable size. */
  ghost predicate Found(cfg: Config, st: Store, k: Kept) {
    match k.blobId
    case None => 0 < |k.payload.ciphertext| <= cfg.inlineLimit && k.payload.nonce != []
    case Some(b) =>
      && k.payload == Field([], [])
      && b in st.blobs && st.blobs[b].status.Committed? && st.blobs[b].user == k.user
      && st.blobs[b].checksum == k.checksum && st.blobs[b].size <= EffectiveMax(cfg)
  }

  lemma KeptIsFound(cfg: Config, st: Store, k: Kept)
    requires KeptOk(cfg, st.blobs, k)
    ensures Found(cfg, st, k)
  {
  }

  /** What an item was stored with at any time is found at that time and in every later state. */
  lemma ItemStaysFound(cfg: Config, actions: seq<Action>, more: seq<Action>, item: Id)
    requires item in Run(cfg, INIT, actions).items
    ensures Found(cfg, Run(cfg, Run(cfg, INIT, actions), more).st, Run(cfg, INIT, actions).items[item])
  {
    hide Run, TaskOk, DoomedKept, StoredKept, StoreOk, KeptOk, Found;
    var w := Run(cfg, INIT, actions);
    ReachableInv(cfg, {}, actions);
    assert KeptOk(cfg, w.st.blobs, w.items[item]);
    RunLasts(cfg, {}, w, more);
    HarmlessKeepsKept(cfg, w.st, Run(cfg, w, more).st, w.items[item]);
    KeptIsFound(cfg, Run(cfg, w, more).st, w.items[item]);
  }
}
