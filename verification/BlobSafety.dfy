/** Safety of the blob machine over every interleaving: committed blobs keep their bytes, the reaper never reaches
    them, and stored items never lose theirs. */
module BlobSafety {
  import opened Base
  import opened Blobs

  // ---------------------------------------------------------------- invariant

  // What is said of bytes is said of the blobs in `care`: those whose bytes no compensation erases while they matter.

  /** The object of `b` exists with the announced size and checksum. */
  ghost predicate Good(cfg: Config, care: set<Id>, st: Store, user: Id, b: Id, size: nat, checksum: Bytes) {
    var k := KeyOf(user, b);
    b in care ==> k in st.objects && |st.objects[k]| == size && cfg.sha(st.objects[k]) == checksum
  }

  ghost predicate Homed(st: Store) {
    && (forall b | b in st.home :: |b| == UUID_LENGTH && (st.home[b].Started? ==> st.home[b].sess in st.used))
    && (forall b | b in st.blobs :: b in st.home && (st.home[b].Started? ==> st.home[b].user == st.blobs[b].user)
                                    && (st.home[b].Placed? ==> st.blobs[b].status.Committed?))
  }

  /** A session row belongs to its blob; one that may still be committed has its bytes in place. */
  ghost predicate SessionOk(cfg: Config, care: set<Id>, st: Store, s: Id)
    requires s in st.sessions
  {
    var row := st.sessions[s];
    && row.blob in st.home && st.home[row.blob] == Started(row.user, s, row.expires, row.checksum)
    && row.blob in st.blobs && st.blobs[row.blob].size == row.size && st.blobs[row.blob].checksum == row.checksum
    && (row.status.Open? ==> st.blobs[row.blob].status.Pending? || st.blobs[row.blob].status.Failed?)
    && (row.status.AwaitingCommit? ==> st.blobs[row.blob].status.Uploading? || st.blobs[row.blob].status.Failed?)
    && (row.status.AwaitingCommit? && st.blobs[row.blob].status.Uploading? && st.now <= row.expires
        ==> Good(cfg, care, st, row.user, row.blob, row.size, row.checksum))
  }

  ghost predicate BlobOk(cfg: Config, care: set<Id>, st: Store, b: Id)
    requires b in st.blobs
  {
    st.blobs[b].status.Committed? ==> Good(cfg, care, st, st.blobs[b].user, b, st.blobs[b].size, st.blobs[b].checksum)
  }

  ghost predicate Holds(st: Store, tid: nat, u: Id, s: Id) {
    (u, s) in st.locks && st.locks[(u, s)] == tid
  }

  /** The upload holding the session lock: its session, if still there, is open, and its blob not yet uploaded. */
  ghost predicate Active(st: Store, tid: nat, u: Id, s: Id, b: Id) {
    && Holds(st, tid, u, s)
    && b in st.home && st.home[b].Started? && st.home[b].user == u && st.home[b].sess == s
    && (s in st.sessions ==> st.sessions[s].blob == b && st.sessions[s].status.Open?)
    && (b in st.blobs ==> st.blobs[b].status.Pending? || st.blobs[b].status.Failed?)
  }

  /** The lock of the session the blob was made for. */
  ghost predicate Owns(st: Store, tid: nat, u: Id, s: Id, b: Id) {
    Holds(st, tid, u, s) && b in st.home && st.home[b].Started? && st.home[b].user == u && st.home[b].sess == s
  }

  /** Active, working from the session row it read. */
  ghost predicate Working(st: Store, tid: nat, u: Id, s: Id, row: Session) {
    Active(st, tid, u, s, row.blob) && row.expires == st.home[row.blob].expires
      && row.checksum == st.home[row.blob].checksum
  }

  ghost predicate Fits(cfg: Config, row: Session, data: Bytes) {
    |data| == row.size && cfg.sha(data) == row.checksum
  }

  /** A listed blob: past its deadline and never to be committed. */
  ghost predicate Doomed(st: Store, r: Ref) {
    && r.blob in st.home && st.home[r.blob].Started? && st.home[r.blob].expires < st.now
    && r.key == KeyOf(st.home[r.blob].user, r.blob)
    && (r.blob in st.blobs ==> !st.blobs[r.blob].status.Committed?)
  }

  ghost predicate Reserved(st: Store, tid: nat, b: Id) {
    b in st.home && st.home[b] == Placed(tid) && b !in st.blobs
  }

  /** How an item may keep its payload, now and later. */
  ghost predicate KeptOk(cfg: Config, blobs: map<Id, Blob>, k: Kept) {
    match k.blobId
    case None => 0 < |k.payload.ciphertext| <= cfg.inlineLimit && k.payload.nonce != [] && k.checksum == []
                 && |k.payload.ciphertext| <= EffectiveMax(cfg)
    case Some(b) => && k.payload == Field([], []) && b in blobs && blobs[b].status.Committed? && blobs[b].user == k.user
                    && blobs[b].checksum == k.checksum && blobs[b].size <= EffectiveMax(cfg)
  }

  ghost predicate TaskOk(cfg: Config, care: set<Id>, st: Store, tid: nat, t: Task) {
    match t
    case UpLock(_, _) => true
    case UpSession(u, s) => Holds(st, tid, u, s)
    case UpBlob(u, s, row) => Working(st, tid, u, s, row)
    case UpReceive(u, s, row) => Working(st, tid, u, s, row)
    case UpRecheck(u, s, row, data) => Working(st, tid, u, s, row) && Fits(cfg, row, data)
    case UpPut(u, s, row, data) => Working(st, tid, u, s, row) && Fits(cfg, row, data)
    case UpComplete(u, s, row) =>
      Working(st, tid, u, s, row) && (st.now <= row.expires
                                      ==> Good(cfg, care, st, u, row.blob, row.size, row.checksum))
    case UpUndo(u, s, row) => Owns(st, tid, u, s, row.blob)
    case AbSession(u, s, b, wipe) => Holds(st, tid, u, s) && (wipe ==> Active(st, tid, u, s, b))
    case AbBlob(u, s, b, wipe) => Holds(st, tid, u, s) && (wipe ==> Active(st, tid, u, s, b))
    case AbObject(u, s, b) => Active(st, tid, u, s, b)
    case PlPut(_, b, data) => Reserved(st, tid, b) && |data| <= EffectiveMax(cfg)
    case PlInsert(u, b, data) => Reserved(st, tid, b) && |data| <= EffectiveMax(cfg)
                                 && (b in care ==> KeyOf(u, b) in st.objects && st.objects[KeyOf(u, b)] == data)
    case PlUndo(u, b) => b in st.home && st.home[b] == Placed(tid)
                         && (b in st.blobs ==> st.blobs[b].status.Committed? && st.blobs[b].user == u)
    case PlStat(u, ref, meta) => ref in st.blobs && st.blobs[ref] == meta && meta.status.Committed? && meta.user == u
    case PlItem(kept) => KeptOk(cfg, st.blobs, kept)
    case ClList(cutoff, _) => cutoff <= st.now
    case ClObject(cutoff, _, refs, _) => cutoff <= st.now && forall i | 0 <= i < |refs| :: Doomed(st, refs[i])
    case ClRow(cutoff, _, refs, _) => cutoff <= st.now && forall i | 0 <= i < |refs| :: Doomed(st, refs[i])
    case _ => true
  }

  ghost predicate StoreOk(cfg: Config, care: set<Id>, st: Store) {
    && Homed(st)
    && (forall s | s in st.sessions :: SessionOk(cfg, care, st, s))
    && (forall b | b in st.blobs :: BlobOk(cfg, care, st, b))
  }

  ghost predicate Inv(cfg: Config, care: set<Id>, w: World) {
    && StoreOk(cfg, care, w.st)
    && (forall tid | tid in w.tasks :: TaskOk(cfg, care, w.st, tid, w.tasks[tid]))
    && (forall i | i in w.items :: KeptOk(cfg, w.st.blobs, w.items[i]))
  }

  // ---------------------------------------------------------------- effects and who notices them

  lemma KeysDiffer(u1: Id, b1: Id, u2: Id, b2: Id)
    requires |b1| == |b2| && KeyOf(u1, b1) == KeyOf(u2, b2)
    ensures b1 == b2
  {
    var k1, k2 := KeyOf(u1, b1), KeyOf(u2, b2);
    assert k1[|k1| - |b1|..] == b1 && k2[|k2| - |b2|..] == b2;
  }

  /** The bytes of `b` are nobody else's business: `tid` uploads it, or `b` is doomed, or reserved by `tid`. */
  ghost predicate MayTouch(st: Store, tid: nat, b: Id) {
    && b in st.home
    && match st.home[b]
       case Started(u, s, expires, _) =>
         || (Holds(st, tid, u, s) && (b in st.blobs ==> st.blobs[b].status.Pending? || st.blobs[b].status.Failed?))
         || (expires < st.now && (b in st.blobs ==> !st.blobs[b].status.Committed?))
       case Placed(t) => t == tid && b !in st.blobs
  }

  /** Two stores that differ at most in the object under `key`. */
  ghost predicate SameButObject(st: Store, st': Store, key: string) {
    && st' == st.(objects := st'.objects)
    && forall k | k != key ::
         (k in st'.objects <==> k in st.objects) && (k in st.objects ==> st'.objects[k] == st.objects[k])
  }

  lemma OtherGoodStays(cfg: Config, care: set<Id>, st: Store, st': Store, u0: Id, b0: Id, u: Id, b: Id, size: nat,
                       checksum: Bytes)
    requires SameButObject(st, st', KeyOf(u0, b0)) && |b| == |b0| && b != b0
             && Good(cfg, care, st, u, b, size, checksum)
    ensures Good(cfg, care, st', u, b, size, checksum)
  {
    if KeyOf(u, b) == KeyOf(u0, b0) { KeysDiffer(u, b, u0, b0); }
  }

  lemma TouchKeepsStore(cfg: Config, care: set<Id>, st: Store, st': Store, tid: nat, u0: Id, b0: Id)
    requires StoreOk(cfg, care, st) && b0 in st.home && (b0 in care ==> MayTouch(st, tid, b0))
    requires SameButObject(st, st', KeyOf(u0, b0))
    ensures StoreOk(cfg, care, st')
  {
    forall s | s in st'.sessions ensures SessionOk(cfg, care, st', s) {
      assert SessionOk(cfg, care, st, s);
      var row := st.sessions[s];
      if row.blob != b0 && row.status.AwaitingCommit? && st.blobs[row.blob].status.Uploading?
        && st.now <= row.expires {
        OtherGoodStays(cfg, care, st, st', u0, b0, row.user, row.blob, row.size, row.checksum);
      }
    }
    forall b | b in st'.blobs ensures BlobOk(cfg, care, st', b) {
      assert BlobOk(cfg, care, st, b);
      if b != b0 && st.blobs[b].status.Committed? {
        OtherGoodStays(cfg, care, st, st', u0, b0, st.blobs[b].user, b, st.blobs[b].size, st.blobs[b].checksum);
      }
    }
  }

  // What every task but `tid` relies on.

  ghost predicate SameObject(st: Store, st': Store, key: string) {
    (key in st'.objects <==> key in st.objects) && (key in st.objects ==> st'.objects[key] == st.objects[key])
  }

  ghost predicate SameObjects(st: Store, st': Store, b: Id) {
    forall u :: SameObject(st, st', KeyOf(u, b))
  }

  ghost predicate LocksKept(st: Store, st': Store, tid: nat) {
    forall t2, u, s | t2 != tid && Holds(st, t2, u, s) :: Holds(st', t2, u, s)
  }

  ghost predicate HomeKept(st: Store, st': Store) {
    forall b | b in st.home :: b in st'.home && st'.home[b] == st.home[b]
  }

  ghost predicate ActiveKept(st: Store, st': Store, tid: nat) {
    forall t2, u, s, b | t2 != tid && Active(st, t2, u, s, b) :: Active(st', t2, u, s, b) && st'.home[b] == st.home[b]
  }

  ghost predicate BytesKept(care: set<Id>, st: Store, st': Store, tid: nat) {
    forall t2, u, s, b | b in care && t2 != tid && Active(st, t2, u, s, b)
      && st'.now <= st.home[b].expires :: SameObject(st, st', KeyOf(u, b))
  }

  ghost predicate ReservedKept(st: Store, st': Store, tid: nat) {
    forall t2, b | t2 != tid && Reserved(st, t2, b) :: Reserved(st', t2, b)
  }

  ghost predicate PlacedKept(care: set<Id>, st: Store, st': Store, tid: nat) {
    forall t2, b | b in care && t2 != tid && Reserved(st, t2, b) :: SameObjects(st, st', b)
  }

  ghost predicate DoomedKept(st: Store, st': Store) {
    forall r | Doomed(st, r) :: Doomed(st', r)
  }

  ghost predicate CommittedKept(st: Store, st': Store) {
    forall b | b in st.blobs && st.blobs[b].status.Committed? :: b in st'.blobs && st'.blobs[b] == st.blobs[b]
  }

  ghost predicate StoredKept(care: set<Id>, st: Store, st': Store) {
    forall b | b in care && b in st.blobs && st.blobs[b].status.Committed? :: SameObject(st, st',
                                                                                         KeyOf(st.blobs[b].user, b))
  }

  ghost predicate Harmless(cfg: Config, care: set<Id>, st: Store, st': Store, tid: nat) {
    && st.now <= st'.now
    && HomeKept(st, st') && LocksKept(st, st', tid) && ActiveKept(st, st', tid)
    && ReservedKept(st, st', tid) && DoomedKept(st, st') && CommittedKept(st, st')
    && BytesKept(care, st, st', tid) && PlacedKept(care, st, st', tid) && StoredKept(care, st, st')
  }

  lemma HarmlessKeepsKept(cfg: Config, st: Store, st': Store, k: Kept)
    requires CommittedKept(st, st') && KeptOk(cfg, st.blobs, k)
    ensures KeptOk(cfg, st'.blobs, k)
  {
  }

  lemma HarmlessKeepsTask(cfg: Config, care: set<Id>, st: Store, st': Store, tid: nat, t2: nat, task: Task)
    requires Harmless(cfg, care, st, st', tid) && t2 != tid && TaskOk(cfg, care, st, t2, task)
    ensures TaskOk(cfg, care, st', t2, task)
  {
    if IsUpload(task) {
      hide ReservedKept, PlacedKept, DoomedKept, CommittedKept, Doomed, Reserved;
      if task.UpComplete? { assert Active(st, t2, task.user, task.sess, task.row.blob); }
    } else if IsClean(task) {
      hide LocksKept, ActiveKept, BytesKept, ReservedKept, PlacedKept, CommittedKept;
    } else {
      hide LocksKept, ActiveKept, BytesKept, DoomedKept;
      if task.PlInsert? && task.blob in care { assert SameObjects(st, st', task.blob); }
      if task.PlUndo? && task.blob !in st.blobs { assert Reserved(st, t2, task.blob); }
    }
  }

  lemma OtherKey(st: Store, u0: Id, b0: Id, u: Id, b: Id)
    requires Homed(st) && b0 in st.home && b in st.home && b != b0
    ensures KeyOf(u, b) != KeyOf(u0, b0)
  {
    if KeyOf(u, b) == KeyOf(u0, b0) { KeysDiffer(u, b, u0, b0); }
  }

  lemma TouchKeepsBytes(care: set<Id>, st: Store, st': Store, tid: nat, u0: Id, b0: Id)
    requires Homed(st) && b0 in st.home && (b0 in care ==> MayTouch(st, tid, b0))
    requires SameButObject(st, st', KeyOf(u0, b0))
    ensures BytesKept(care, st, st', tid) && StoredKept(care, st, st') && PlacedKept(care, st, st', tid)
  {
    forall t2, u, s, b | b in care && t2 != tid && Active(st, t2, u, s, b) && st'.now <= st.home[b].expires
      ensures SameObject(st, st', KeyOf(u, b))
    {
      OtherKey(st, u0, b0, u, b);
    }
    forall b | b in care && b in st.blobs && st.blobs[b].status.Committed?
      ensures SameObject(st, st', KeyOf(st.blobs[b].user, b))
    {
      OtherKey(st, u0, b0, st.blobs[b].user, b);
    }
    forall t2, b, u | b in care && t2 != tid && Reserved(st, t2, b) ensures SameObject(st, st', KeyOf(u, b)) {
      OtherKey(st, u0, b0, u, b);
    }
  }

  lemma TouchIsHarmless(cfg: Config, care: set<Id>, st: Store, st': Store, tid: nat, u0: Id, b0: Id)
    requires StoreOk(cfg, care, st) && b0 in st.home && (b0 in care ==> MayTouch(st, tid, b0))
    requires SameButObject(st, st', KeyOf(u0, b0))
    ensures StoreOk(cfg, care, st') && Harmless(cfg, care, st, st', tid)
  {
    TouchKeepsStore(cfg, care, st, st', tid, u0, b0);
    assert Homed(st);
    hide StoreOk;
    TouchKeepsBytes(care, st, st', tid, u0, b0);
    hide BytesKept, StoredKept, PlacedKept, Homed;
  }

  /** Changes that leave every session and blob clause as it was. */
  lemma StoreOkByRows(cfg: Config, care: set<Id>, st: Store, st': Store)
    requires StoreOk(cfg, care, st) && Homed(st')
    requires forall s | s in st'.sessions && s in st.sessions
             && SessionOk(cfg, care, st, s) :: SessionOk(cfg, care, st', s)
    requires forall s | s in st'.sessions && s !in st.sessions :: SessionOk(cfg, care, st', s)
    requires forall b | b in st'.blobs && b in st.blobs && BlobOk(cfg, care, st, b) :: BlobOk(cfg, care, st', b)
    requires forall b | b in st'.blobs && b !in st.blobs :: BlobOk(cfg, care, st', b)
    ensures StoreOk(cfg, care, st')
  {
  }

  lemma SessionStays(cfg: Config, care: set<Id>, st: Store, st': Store, s: Id)
    requires s in st.sessions && SessionOk(cfg, care, st, s) && s in st'.sessions && st'.sessions[s] == st.sessions[s]
    requires st'.now == st.now && st'.objects == st.objects
    requires st.sessions[s].blob in st'.home && st'.home[st.sessions[s].blob] == st.home[st.sessions[s].blob]
    requires st.sessions[s].blob in st'.blobs && st'.blobs[st.sessions[s].blob] == st.blobs[st.sessions[s].blob]
    ensures SessionOk(cfg, care, st', s)
  {
  }

  /** Changes to rows alone, none of them to a committed row, and no row for an id reserved by another task. */
  lemma RowsAreHarmless(cfg: Config, care: set<Id>, st: Store, st': Store, tid: nat)
    requires st'.now == st.now && st'.objects == st.objects && st'.locks == st.locks && st'.home == st.home
    requires ActiveKept(st, st', tid) && CommittedKept(st, st')
    requires forall b | b in st'.blobs && b !in st.blobs :: b in st.home && st.home[b] == Placed(tid)
    requires forall b | b in st'.blobs && b in st.blobs && st'.blobs[b].status.Committed? ::
               st.blobs[b].status.Committed? || !(b in st.home && st.home[b].Started? && st.home[b].expires < st.now)
    ensures Harmless(cfg, care, st, st', tid)
  {
    assert LocksKept(st, st', tid) && BytesKept(care, st, st', tid) by { hide ActiveKept, CommittedKept, Active; }
    assert ReservedKept(st, st', tid) && PlacedKept(care, st, st', tid) by { hide ActiveKept, CommittedKept, Active; }
    assert DoomedKept(st, st') by { hide ActiveKept, CommittedKept, Active; }
    hide *;
  }

  /** Rows may go, those that stay are as they were. */
  lemma FewerRows(cfg: Config, care: set<Id>, st: Store, st': Store)
    requires StoreOk(cfg, care, st) && st'.now == st.now && st'.objects == st.objects && st'.home == st.home
             && st'.used == st.used
    requires forall b | b in st'.blobs :: b in st.blobs && st'.blobs[b] == st.blobs[b]
    requires forall s | s in st'.sessions ::
               s in st.sessions && st'.sessions[s] == st.sessions[s]
               && (st.sessions[s].blob in st.blobs ==> st.sessions[s].blob in st'.blobs)
    ensures StoreOk(cfg, care, st')
  {
    assert Homed(st') by { hide SessionOk, BlobOk; }
    hide Homed;
    forall b | b in st'.blobs ensures BlobOk(cfg, care, st', b) {
      hide SessionOk;
      assert BlobOk(cfg, care, st, b);
    }
    hide BlobOk, Good;
    forall s | s in st'.sessions ensures SessionOk(cfg, care, st', s) {
      assert SessionOk(cfg, care, st, s);
      assert st.sessions[s].blob in st.blobs;
      hide SessionOk;
      SessionStays(cfg, care, st, st', s);
    }
  }

  lemma DropSessionIsHarmless(cfg: Config, care: set<Id>, st: Store, tid: nat, u: Id, s: Id)
    requires StoreOk(cfg, care, st)
    ensures var st' := DropSession(st, u, s); StoreOk(cfg, care, st') && Harmless(cfg, care, st, st', tid)
  {
    hide StoreOk, Harmless;
    var st' := DropSession(st, u, s);
    FewerRows(cfg, care, st, st');
    RowsAreHarmless(cfg, care, st, st', tid);
  }

  lemma MarkFailedKeepsSession(cfg: Config, care: set<Id>, st: Store, u: Id, b: Id, s: Id)
    requires s in st.sessions && SessionOk(cfg, care, st, s)
    ensures SessionOk(cfg, care, MarkFailed(st, u, b), s)
  {
  }

  lemma MarkFailedKeepsHomed(st: Store, u: Id, b: Id)
    requires Homed(st)
    ensures Homed(MarkFailed(st, u, b))
  {
  }

  lemma MarkFailedKeepsStore(cfg: Config, care: set<Id>, st: Store, u: Id, b: Id)
    requires StoreOk(cfg, care, st)
    ensures StoreOk(cfg, care, MarkFailed(st, u, b))
  {
    hide Homed;
    var st' := MarkFailed(st, u, b);
    MarkFailedKeepsHomed(st, u, b);
    assert forall b | b in st'.blobs && b in st.blobs && BlobOk(cfg, care, st, b) :: BlobOk(cfg, care, st', b) by {
      hide SessionOk, StoreOk;
    }
    hide SessionOk, BlobOk;
    forall s | s in st'.sessions && SessionOk(cfg, care, st, s) ensures SessionOk(cfg, care, st', s) {
      MarkFailedKeepsSession(cfg, care, st, u, b, s);
    }
    hide StoreOk;
    StoreOkByRows(cfg, care, st, st');
  }

  lemma MarkFailedIsHarmless(cfg: Config, care: set<Id>, st: Store, tid: nat, u: Id, b: Id)
    ensures Harmless(cfg, care, st, MarkFailed(st, u, b), tid)
  {
    hide Harmless;
    RowsAreHarmless(cfg, care, st, MarkFailed(st, u, b), tid);
  }

  lemma CompleteKeepsStore(cfg: Config, care: set<Id>, st: Store, tid: nat, u: Id, s: Id, row: Session)
    requires StoreOk(cfg, care, st) && TaskOk(cfg, care, st, tid, UpComplete(u, s, row))
             && CanComplete(st, u, s, row.size)
    ensures StoreOk(cfg, care, CompleteUpload(st, s, row.size))
  {
    assert SessionOk(cfg, care, st, s);
    assert Homed(CompleteUpload(st, s, row.size)) by { hide SessionOk, BlobOk, Good; }
    hide Homed;
    StoreOkByRows(cfg, care, st, CompleteUpload(st, s, row.size));
  }

  /** The lock holder finishes its own upload. */
  lemma CompleteIsHarmless(cfg: Config, care: set<Id>, st: Store, tid: nat, u: Id, s: Id, row: Session)
    requires StoreOk(cfg, care, st) && TaskOk(cfg, care, st, tid, UpComplete(u, s, row))
             && CanComplete(st, u, s, row.size)
    ensures Harmless(cfg, care, st, CompleteUpload(st, s, row.size), tid)
  {
    hide StoreOk, Harmless, Good;
    RowsAreHarmless(cfg, care, st, CompleteUpload(st, s, row.size), tid);
  }

  lemma CommitKeepsStore(cfg: Config, care: set<Id>, st: Store, u: Id, s: Id)
    requires StoreOk(cfg, care, st) && CanCommit(st, u, s)
    ensures StoreOk(cfg, care, CommitUploaded(st, s))
  {
    assert SessionOk(cfg, care, st, s);
    assert Homed(CommitUploaded(st, s)) by { hide SessionOk, BlobOk, Good; }
    hide Homed;
    StoreOkByRows(cfg, care, st, CommitUploaded(st, s));
  }

  /** The commit transaction concerns no running upload and no doomed blob. */
  lemma CommitIsHarmless(cfg: Config, care: set<Id>, st: Store, tid: nat, u: Id, s: Id)
    requires StoreOk(cfg, care, st) && CanCommit(st, u, s)
    ensures Harmless(cfg, care, st, CommitUploaded(st, s), tid)
  {
    assert SessionOk(cfg, care, st, s);
    hide StoreOk, Harmless, Good;
    RowsAreHarmless(cfg, care, st, CommitUploaded(st, s), tid);
  }

  lemma DropBlobKeepsStore(cfg: Config, care: set<Id>, st: Store, b: Id)
    requires StoreOk(cfg, care, st)
    ensures StoreOk(cfg, care, DropBlob(st, b))
  {
    hide StoreOk;
    FewerRows(cfg, care, st, DropBlob(st, b));
  }

  lemma DropBlobIsHarmless(cfg: Config, care: set<Id>, st: Store, tid: nat, r: Ref)
    requires Doomed(st, r)
    ensures Harmless(cfg, care, st, DropBlob(st, r.blob), tid)
  {
    hide Harmless;
    RowsAreHarmless(cfg, care, st, DropBlob(st, r.blob), tid);
  }

  lemma InsertKeepsStore(cfg: Config, care: set<Id>, st: Store, tid: nat, u: Id, b: Id, data: Bytes)
    requires StoreOk(cfg, care, st) && TaskOk(cfg, care, st, tid, PlInsert(u, b, data))
    ensures StoreOk(cfg, care, InsertCommitted(cfg, st, u, b, data))
  {
    assert Homed(InsertCommitted(cfg, st, u, b, data)) by { hide SessionOk, BlobOk, Good; }
    hide Homed;
    StoreOkByRows(cfg, care, st, InsertCommitted(cfg, st, u, b, data));
  }

  lemma InsertIsHarmless(cfg: Config, care: set<Id>, st: Store, tid: nat, u: Id, b: Id, data: Bytes)
    requires TaskOk(cfg, care, st, tid, PlInsert(u, b, data))
    ensures Harmless(cfg, care, st, InsertCommitted(cfg, st, u, b, data), tid)
  {
    hide Harmless;
    RowsAreHarmless(cfg, care, st, InsertCommitted(cfg, st, u, b, data), tid);
  }

  lemma LocksAreHarmless(cfg: Config, care: set<Id>, st: Store, st': Store, tid: nat)
    requires StoreOk(cfg, care, st) && st' == st.(locks := st'.locks) && LocksKept(st, st', tid)
    ensures StoreOk(cfg, care, st') && Harmless(cfg, care, st, st', tid)
  {
    hide StoreOk;
    FewerRows(cfg, care, st, st');
  }

  lemma TickKeepsStore(cfg: Config, care: set<Id>, st: Store, d: nat)
    requires StoreOk(cfg, care, st)
    ensures StoreOk(cfg, care, st.(now := st.now + d))
  {
    assert Homed(st.(now := st.now + d)) by { hide SessionOk, BlobOk, Good; }
    hide Homed;
    StoreOkByRows(cfg, care, st, st.(now := st.now + d));
  }

  lemma TickIsHarmless(cfg: Config, care: set<Id>, st: Store, tid: nat, d: nat)
    ensures Harmless(cfg, care, st, st.(now := st.now + d), tid)
  {
  }

  /** Changes under an id never used before. */
  lemma FreshIsHarmless(cfg: Config, care: set<Id>, st: Store, st': Store, tid: nat, b: Id)
    requires Homed(st) && b !in st.home
    requires st'.now == st.now && st'.objects == st.objects && st'.locks == st.locks
    requires b in st'.home && st.home == st'.home - {b}
    requires st.blobs == st'.blobs - {b}
    requires forall s | s in st'.sessions && s !in st.sessions :: s !in st.used
    requires forall s | s in st.sessions :: s in st'.sessions && st'.sessions[s] == st.sessions[s]
    ensures Harmless(cfg, care, st, st', tid)
  {
    forall b2 | b2 in st.home ensures b2 in st'.home && st'.home[b2] == st.home[b2] { assert b2 in st'.home - {b}; }
    forall b2 | b2 in st.blobs ensures b2 in st'.blobs && st'.blobs[b2] == st.blobs[b2] {
      assert b2 in st'.blobs - {b};
    }
    forall b2 | b2 in st'.blobs && b2 != b ensures b2 in st.blobs { assert b2 in st'.blobs - {b}; }
    assert ActiveKept(st, st', tid) && BytesKept(care, st, st', tid) by {
      hide ReservedKept, CommittedKept, DoomedKept;
    }
    assert ReservedKept(st, st', tid) && PlacedKept(care, st, st', tid) by {
      hide ActiveKept, BytesKept, CommittedKept, DoomedKept;
    }
    assert DoomedKept(st, st') by { hide ActiveKept, BytesKept, CommittedKept, ReservedKept; }
    hide ActiveKept, BytesKept, ReservedKept, PlacedKept, DoomedKept;
  }

  lemma SessionsAreUsed(cfg: Config, care: set<Id>, st: Store)
    requires StoreOk(cfg, care, st)
    ensures forall s | s in st.sessions :: s in st.used && st.sessions[s].blob in st.home
  {
    forall s | s in st.sessions ensures s in st.used && st.sessions[s].blob in st.home {
      assert SessionOk(cfg, care, st, s);
    }
  }

  lemma StartKeepsRows(cfg: Config, care: set<Id>, st: Store, st': Store, b: Id, s: Id)
    requires StoreOk(cfg, care, st) && b !in st.home && s !in st.used
    requires st'.now == st.now && st'.objects == st.objects
    requires st.home == st'.home - {b} && st.blobs == st'.blobs - {b} && st.sessions == st'.sessions - {s}
    ensures forall s2 | s2 in st'.sessions && s2 != s :: SessionOk(cfg, care, st', s2)
    ensures forall b2 | b2 in st'.blobs && b2 != b :: BlobOk(cfg, care, st', b2)
  {
    forall b2 | b2 in st'.blobs && b2 != b ensures BlobOk(cfg, care, st', b2) {
      hide SessionOk, Homed;
      assert b2 in st'.blobs - {b};
      assert BlobOk(cfg, care, st, b2);
    }
    hide BlobOk, Good, Homed;
    forall s2 | s2 in st'.sessions && s2 != s ensures SessionOk(cfg, care, st', s2) {
      assert s2 in st'.sessions - {s};
      assert SessionOk(cfg, care, st, s2);
      var b2 := st.sessions[s2].blob;
      assert b2 in st'.home - {b} && b2 in st'.blobs - {b};
      hide SessionOk;
      SessionStays(cfg, care, st, st', s2);
    }
  }

  lemma StartKeepsHomed(cfg: Config, care: set<Id>, st: Store, u: Id, b: Id, s: Id, size: nat, checksum: Bytes)
    requires Homed(st)
    ensures Homed(StartUpload(cfg, st, u, b, s, size, checksum))
    ensures b !in st.home ==> b !in st.blobs
  {
  }

  lemma StartKeepsStore(cfg: Config, care: set<Id>, st: Store, u: Id, b: Id, s: Id, size: nat, checksum: Bytes)
    requires StoreOk(cfg, care, st)
    ensures StoreOk(cfg, care, StartUpload(cfg, st, u, b, s, size, checksum))
  {
    hide Homed;
    var st' := StartUpload(cfg, st, u, b, s, size, checksum);
    StartKeepsHomed(cfg, care, st, u, b, s, size, checksum);
    if st' != st {
      assert s !in st.sessions by { SessionsAreUsed(cfg, care, st); }
      assert SessionOk(cfg, care, st', s) && BlobOk(cfg, care, st', b) by { hide StoreOk; }
      hide SessionOk, BlobOk;
      StartKeepsRows(cfg, care, st, st', b, s);
    }
  }

  lemma StartIsHarmless(cfg: Config, care: set<Id>, st: Store, tid: nat, u: Id, b: Id, s: Id, size: nat,
                        checksum: Bytes)
    requires StoreOk(cfg, care, st)
    ensures Harmless(cfg, care, st, StartUpload(cfg, st, u, b, s, size, checksum), tid)
  {
    hide SessionOk, BlobOk, Harmless;
    SessionsAreUsed(cfg, care, st);
    var st' := StartUpload(cfg, st, u, b, s, size, checksum);
    if st' == st {
      RowsAreHarmless(cfg, care, st, st', tid);
    } else {
      hide Homed;
      FreshIsHarmless(cfg, care, st, st', tid, b);
    }
  }

  lemma ReserveKeepsStore(cfg: Config, care: set<Id>, st: Store, tid: nat, b: Id)
    requires StoreOk(cfg, care, st) && b !in st.home && |b| == UUID_LENGTH
    ensures StoreOk(cfg, care, st.(home := st.home[b := Placed(tid)]))
  {
    assert Homed(st.(home := st.home[b := Placed(tid)])) by { hide SessionOk, BlobOk, Good; }
    hide Homed;
    StoreOkByRows(cfg, care, st, st.(home := st.home[b := Placed(tid)]));
  }

  lemma ReserveIsHarmless(cfg: Config, care: set<Id>, st: Store, tid: nat, b: Id)
    requires StoreOk(cfg, care, st) && b !in st.home
    ensures Harmless(cfg, care, st, st.(home := st.home[b := Placed(tid)]), tid)
  {
    hide SessionOk, BlobOk, Harmless;
    FreshIsHarmless(cfg, care, st, st.(home := st.home[b := Placed(tid)]), tid, b);
  }
}
