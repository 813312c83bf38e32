/** Blob uploads, commits, aborts, payload placement and the expired-session reaper as one interleaving machine over
    the blobs and upload_sessions tables and the object store. Every task advances one statement at a time. */
module Blobs {
  import opened Base
  import opened Transfer

  const UUID_LENGTH := 36
  const PROTO_RESERVE := 512 * 1024

  datatype Config = Config(sha: Bytes -> Bytes, maxBlob: nat, maxChunk: nat, inlineLimit: nat, grpcMax: nat, ttl: int)

  datatype BlobStatus = Pending | Uploading | Committed | Failed

  datatype Blob = Blob(user: Id, size: nat, checksum: Bytes, status: BlobStatus)

  datatype SessionStatus = Open | AwaitingCommit

  datatype Session = Session(blob: Id, user: Id, size: nat, checksum: Bytes, received: nat, status: SessionStatus,
                             expires: Time)

  /** Who a blob id was made for: an upload session, or one payload placement. History. */
  datatype Home = Started(user: Id, sess: Id, expires: Time, checksum: Bytes) | Placed(tid: nat)

  /** `home` and `used` remember every blob id and session id ever handed out. */
  datatype Store = Store(now: Time, blobs: map<Id, Blob>, sessions: map<Id, Session>, objects: map<string, Bytes>,
                         locks: map<(Id, Id), nat>, home: map<Id, Home>, used: set<Id>)

  /** How an item keeps its payload. */
  datatype Kept = Kept(user: Id, payload: Field, blobId: Option<Id>, checksum: Bytes)

  datatype Ref = Ref(blob: Id, key: string)

  /** A request in progress, named after the statement it runs next. */
  datatype Task =
    // UploadBlob
    | UpLock(user: Id, sess: Id)
    | UpSession(user: Id, sess: Id)
    | UpBlob(user: Id, sess: Id, row: Session)
    | UpReceive(user: Id, sess: Id, row: Session)
    | UpRecheck(user: Id, sess: Id, row: Session, data: Bytes)
    | UpPut(user: Id, sess: Id, row: Session, data: Bytes)
    | UpComplete(user: Id, sess: Id, row: Session)
    | UpUndo(user: Id, sess: Id, row: Session)
    // abortUpload
    | AbSession(user: Id, sess: Id, blob: Id, wipe: bool)
    | AbBlob(user: Id, sess: Id, blob: Id, wipe: bool)
    | AbObject(user: Id, sess: Id, blob: Id)
    // CommitBlobUpload
    | CoSession(user: Id, sess: Id)
    | CoBlob(user: Id, sess: Id, blob: Id)
    | CoStat(user: Id, sess: Id, blob: Id, size: nat)
    | CoCommit(user: Id, sess: Id)
    // resolveVaultPayload, then the engine write of the item
    | PlPut(user: Id, blob: Id, data: Bytes)
    | PlInsert(user: Id, blob: Id, data: Bytes)
    | PlUndo(user: Id, blob: Id)
    | PlRow(user: Id, ref: Id)
    | PlStat(user: Id, ref: Id, meta: Blob)
    | PlItem(kept: Kept)
    // cleanupExpiredUploadSessionsOnce
    | ClList(cutoff: Time, batch: nat)
    | ClObject(cutoff: Time, batch: nat, refs: seq<Ref>, full: bool)
    | ClRow(cutoff: Time, batch: nat, refs: seq<Ref>, full: bool)
    | Done

  datatype World = World(st: Store, tasks: map<nat, Task>, items: map<Id, Kept>)

  /** What the outside decides about a statement: success, whether one that reported an error took effect anyway (its
      acknowledgement was lost), the stream received, the item written, the rows a listing returned. */
  datatype Input = Input(ok: bool, stored: bool, msgs: seq<Msg>, item: Id, refs: seq<Ref>)

  datatype Request =
    | Upload(user: Id, sess: Id)
    | CommitUpload(user: Id, sess: Id)
    | Place(user: Id, payload: Option<Field>, blobReq: Id, freshId: Id)
    | Cleanup(batch: nat)

  datatype Action =
    | Tick(elapsed: nat)
    | Start(user: Id, blob: Id, sess: Id, size: nat, checksum: Bytes)
    | Spawn(tid: nat, req: Request)
    | Go(tid: nat, input: Input)
    | Crash                              // the server process restarts: handlers and locks are gone

  function KeyOf(user: Id, blob: Id): string {
    "users/" + user + "/blobs/" + blob
  }

  function EffectiveMax(cfg: Config): nat {
    if cfg.grpcMax <= PROTO_RESERVE then 0
    else if cfg.maxBlob < cfg.grpcMax - PROTO_RESERVE then cfg.maxBlob
    else cfg.grpcMax - PROTO_RESERVE
  }

  // ---------------------------------------------------------------- table effects

  function PutObject(st: Store, key: string, data: Bytes): Store {
    st.(objects := st.objects[key := data])
  }

  function DropObject(st: Store, key: string): Store {
    st.(objects := st.objects - {key})
  }

  function DropSession(st: Store, user: Id, s: Id): Store {
    if s in st.sessions && st.sessions[s].user == user then st.(sessions := st.sessions - {s}) else st
  }

  /** The guarded MarkFailed. */
  function MarkFailed(st: Store, user: Id, b: Id): Store {
    if b in st.blobs && st.blobs[b].user == user && (st.blobs[b].status.Pending? || st.blobs[b].status.Uploading?)
    then st.(blobs := st.blobs[b := st.blobs[b].(status := Failed)]) else st
  }

  /** DELETE FROM blobs with its cascade to upload_sessions. */
  function DropBlob(st: Store, b: Id): Store {
    st.(blobs := st.blobs - {b}, sessions := map s | s in st.sessions && st.sessions[s].blob != b :: st.sessions[s])
  }

  predicate CanComplete(st: Store, user: Id, s: Id, total: nat) {
    && s in st.sessions && st.sessions[s].user == user && st.sessions[s].status.Open? && st.sessions[s].size == total
    && st.sessions[s].blob in st.blobs && st.blobs[st.sessions[s].blob].user == user
    && st.blobs[st.sessions[s].blob].status.Pending?
  }

  function CompleteUpload(st: Store, s: Id, total: nat): Store
    requires s in st.sessions && st.sessions[s].blob in st.blobs
  {
    var b := st.sessions[s].blob;
    st.(sessions := st.sessions[s := st.sessions[s].(received := total, status := AwaitingCommit)],
        blobs := st.blobs[b := st.blobs[b].(status := Uploading)])
  }

  predicate CanCommit(st: Store, user: Id, s: Id) {
    && s in st.sessions && st.sessions[s].user == user && st.now <= st.sessions[s].expires
    && st.sessions[s].status.AwaitingCommit?
    && st.sessions[s].blob in st.blobs && st.blobs[st.sessions[s].blob].user == user
    && st.blobs[st.sessions[s].blob].status.Uploading?
  }

  function CommitUploaded(st: Store, s: Id): Store
    requires s in st.sessions && st.sessions[s].blob in st.blobs
  {
    var b := st.sessions[s].blob;
    st.(sessions := st.sessions - {s}, blobs := st.blobs[b := st.blobs[b].(status := Committed)])
  }

  function InsertCommitted(cfg: Config, st: Store, user: Id, b: Id, data: Bytes): Store {
    st.(blobs := st.blobs[b := Blob(user, |data|, cfg.sha(data), Committed)])
  }

  /** The listing filter of the reaper. */
  predicate Expired(st: Store, b: Id, cutoff: Time) {
    && b in st.blobs && (st.blobs[b].status.Pending? || st.blobs[b].status.Uploading?)
    && exists s :: s in st.sessions && st.sessions[s].blob == b && st.sessions[s].expires < cutoff
  }

  predicate IsListing(st: Store, refs: seq<Ref>, cutoff: Time, batch: nat) {
    && |refs| <= batch
    && forall i | 0 <= i < |refs| :: Expired(st, refs[i].blob, cutoff)
                                     && refs[i].key == KeyOf(st.blobs[refs[i].blob].user, refs[i].blob)
  }

  // ---------------------------------------------------------------- statements

  /** The statement changed what it was to change, whatever it reported. */
  predicate Took(i: Input) {
    i.ok || i.stored
  }

  predicate RowOf(st: Store, user: Id, b: Id) {
    b in st.blobs && st.blobs[b].user == user
  }

  /** The statements of UploadBlob. */
  function UploadStep(cfg: Config, st: Store, tid: nat, task: Task, i: Input): (Store, Task) {
    match task
    case UpLock(u, s) => if (u, s) in st.locks then (st, task)
      else (st.(locks := st.locks[(u, s) := tid]), UpSession(u, s))
    case UpSession(u, s) =>
      if !i.ok || s !in st.sessions || st.sessions[s].user != u then (st, Done)
      else
        var row := st.sessions[s];
        if st.now > row.expires then (st, AbSession(u, s, row.blob, false))
        else if !row.status.Open? then (st, Done)
        else (st, UpBlob(u, s, row))
    case UpBlob(u, s, row) =>
      if !i.ok || !RowOf(st, u, row.blob) || !st.blobs[row.blob].status.Pending? then (st, Done)
        else (st, UpReceive(u, s, row))
    case UpReceive(u, s, row) =>
      (match Receive(i.msgs, cfg.maxChunk, row.size, [], 0)
       case Lost => (st, Done)
       case Rejected => (st, AbSession(u, s, row.blob, true))
       case Whole(data) =>
         if cfg.sha(data) != row.checksum then (st, AbSession(u, s, row.blob, true))
           else (st, UpRecheck(u, s, row, data)))
    case UpRecheck(u, s, row, data) =>
      if st.now > row.expires then (st, AbSession(u, s, row.blob, true)) else (st, UpPut(u, s, row, data))
    case UpPut(u, s, row, data) =>
      var put := PutObject(st, KeyOf(u, row.blob), data);
      (if Took(i) then put else st, if i.ok then UpComplete(u, s, row) else AbSession(u, s, row.blob, true))
    case UpComplete(u, s, row) =>
      if Took(i) && CanComplete(st, u, s, row.size)
      then (CompleteUpload(st, s, row.size), if i.ok then Done else UpUndo(u, s, row))
      else if i.ok && s in st.sessions && st.sessions[s].user == u
        && (!st.sessions[s].status.Open? || st.sessions[s].size != row.size)
      then (st, Done)
      else (st, UpUndo(u, s, row))
    case UpUndo(u, s, row) =>
      (if Took(i) then DropObject(st, KeyOf(u, row.blob)) else st, AbSession(u, s, row.blob, false))
    case AbSession(u, s, b, wipe) => (if Took(i) then DropSession(st, u, s) else st, AbBlob(u, s, b, wipe))
    case AbBlob(u, s, b, wipe) => (if Took(i) then MarkFailed(st, u, b) else st, if wipe then AbObject(u, s, b)
                                   else Done)
    case AbObject(u, s, b) => (if Took(i) then DropObject(st, KeyOf(u, b)) else st, Done)
    case _ => (st, task)
  }

  /** The statements of CommitBlobUpload. */
  function CommitStep(st: Store, task: Task, i: Input): (Store, Task) {
    match task
    case CoSession(u, s) =>
      if !i.ok || s !in st.sessions || st.sessions[s].user != u || st.now > st.sessions[s].expires
         || !st.sessions[s].status.AwaitingCommit? then (st, Done)
      else (st, CoBlob(u, s, st.sessions[s].blob))
    case CoBlob(u, s, b) =>
      if !i.ok || !RowOf(st, u, b) || !st.blobs[b].status.Uploading? then (st, Done)
        else (st, CoStat(u, s, b, st.blobs[b].size))
    case CoStat(u, s, b, size) =>
      if !i.ok || KeyOf(u, b) !in st.objects || |st.objects[KeyOf(u, b)]| != size then (st, Done)
        else (st, CoCommit(u, s))
    case CoCommit(u, s) => if Took(i) && CanCommit(st, u, s) then (CommitUploaded(st, s), Done) else (st, Done)
    case _ => (st, task)
  }

  /** The statements of resolveVaultPayload. */
  function PlaceStep(cfg: Config, st: Store, task: Task, i: Input): (Store, Task) {
    match task
    case PlPut(u, b, data) =>
      var put := PutObject(st, KeyOf(u, b), data);
      (if Took(i) then put else st, if i.ok then PlInsert(u, b, data) else Done)
    case PlInsert(u, b, data) =>
      (if Took(i) then InsertCommitted(cfg, st, u, b, data) else st,
       if i.ok then PlItem(Kept(u, Field([], []), Some(b), cfg.sha(data))) else PlUndo(u, b))
    case PlUndo(u, b) => (if Took(i) then DropObject(st, KeyOf(u, b)) else st, Done)
    case PlRow(u, ref) =>
      if !i.ok || !RowOf(st, u, ref) || !st.blobs[ref].status.Committed? then (st, Done)
        else (st, PlStat(u, ref, st.blobs[ref]))
    case PlStat(u, ref, row) =>
      if !i.ok || KeyOf(u, ref) !in st.objects || |st.objects[KeyOf(u, ref)]| != row.size
        || row.size > EffectiveMax(cfg)
      then (st, Done)
      else (st, PlItem(Kept(u, Field([], []), Some(ref), row.checksum)))
    case _ => (st, task)
  }

  /** The statements of one reaper pass. */
  function CleanStep(st: Store, task: Task, i: Input): (Store, Task) {
    match task
    case ClList(cutoff, batch) =>
      if !i.ok || i.refs == [] || !IsListing(st, i.refs, cutoff, batch) then (st, Done)
      else (st, ClObject(cutoff, batch, i.refs, |i.refs| == batch))
    case ClObject(cutoff, batch, refs, full) =>
      (if Took(i) && refs != [] then DropObject(st, refs[0].key) else st, ClRow(cutoff, batch, refs, full))
    case ClRow(cutoff, batch, refs, full) =>
      if refs == [] then (st, Done)
      else (if Took(i) then DropBlob(st, refs[0].blob) else st,
            if |refs| > 1 then ClObject(cutoff, batch, refs[1..], full) else if full then ClList(cutoff, batch)
              else Done)
    case _ => (st, task)
  }

  predicate IsUpload(t: Task) {
    t.UpLock? || t.UpSession? || t.UpBlob? || t.UpReceive? || t.UpRecheck? || t.UpPut? || t.UpComplete? || t.UpUndo?
    || t.AbSession? || t.AbBlob? || t.AbObject?
  }

  predicate IsCommit(t: Task) {
    t.CoSession? || t.CoBlob? || t.CoStat? || t.CoCommit?
  }

  predicate IsClean(t: Task) {
    t.ClList? || t.ClObject? || t.ClRow?
  }

  function TaskStep(cfg: Config, st: Store, tid: nat, task: Task, i: Input): (Store, Task) {
    if IsUpload(task) then UploadStep(cfg, st, tid, task, i)
    else if IsCommit(task) then CommitStep(st, task, i)
    else if IsClean(task) then CleanStep(st, task, i)
    else PlaceStep(cfg, st, task, i)
  }

  /** A handler that returns releases the lock it holds. */
  function Release(st: Store, tid: nat): Store {
    st.(locks := map k | k in st.locks && st.locks[k] != tid :: st.locks[k])
  }

  /** The decisions resolveVaultPayload takes before its first statement. */
  function PlaceRequest(cfg: Config, st: Store, tid: nat, u: Id, payload: Option<Field>, blobReq: Id,
                        freshId: Id): (Store, Task) {
    var ref := Trim(blobReq);
    if ref != "" then
      if payload.Some? && (payload.value.ciphertext != [] || payload.value.nonce != []) then (st, Done)
        else (st, PlRow(u, ref))
    else if payload.None? || payload.value.ciphertext == [] || payload.value.nonce == []
            || |payload.value.ciphertext| > EffectiveMax(cfg) then (st, Done)
    else if |payload.value.ciphertext| <= cfg.inlineLimit then (st, PlItem(Kept(u, payload.value, None, [])))
    else if freshId in st.home || |freshId| != UUID_LENGTH then (st, Done)
    else (st.(home := st.home[freshId := Placed(tid)]), PlPut(u, freshId, payload.value.ciphertext))
  }

  function SpawnTask(cfg: Config, st: Store, tid: nat, r: Request): (Store, Task) {
    match r
    case Upload(u, s) => (st, UpLock(u, s))
    case CommitUpload(u, s) => (st, CoSession(u, s))
    case Place(u, payload, blobReq, freshId) => PlaceRequest(cfg, st, tid, u, payload, blobReq, freshId)
    case Cleanup(batch) => (st, ClList(st.now, batch))
  }

  /** StartBlobUpload with fresh ids: blob row and session row in one transaction. */
  function StartUpload(cfg: Config, st: Store, u: Id, b: Id, s: Id, size: nat, checksum: Bytes): Store {
    if size > cfg.maxBlob || checksum == [] || cfg.ttl <= 0 || cfg.maxChunk == 0
       || b in st.home || |b| != UUID_LENGTH || s in st.used then st
    else st.(blobs := st.blobs[b := Blob(u, size, checksum, Pending)],
             sessions := st.sessions[s := Session(b, u, size, checksum, 0, Open, st.now + cfg.ttl)],
             home := st.home[b := Started(u, s, st.now + cfg.ttl, checksum)],
             used := st.used + {s})
  }

  function Act(cfg: Config, w: World, a: Action): World {
    match a
    case Tick(d) => w.(st := w.st.(now := w.st.now + d))
    case Start(u, b, s, size, checksum) => w.(st := StartUpload(cfg, w.st, u, b, s, size, checksum))
    case Spawn(tid, r) =>
      if tid in w.tasks then w
      else var (st', t') := SpawnTask(cfg, w.st, tid, r); w.(st := st', tasks := w.tasks[tid := t'])
    case Go(tid, i) =>
      if tid !in w.tasks then w
      else if w.tasks[tid].PlItem? then
        w.(items := if Took(i) then w.items[i.item := w.tasks[tid].kept] else w.items, tasks := w.tasks[tid := Done])
      else
        var (st', t') := TaskStep(cfg, w.st, tid, w.tasks[tid], i);
        w.(st := if t'.Done? then Release(st', tid) else st', tasks := w.tasks[tid := t'])
    case Crash => w.(st := w.st.(locks := map[]), tasks := map[])
  }

  /** The statement erases the object of `b` while its row is uploading or committed: a compensation, although the
      transaction it compensates took effect. */
  predicate Erases(st: Store, t: Task, i: Input, b: Id) {
    Took(i) && b in st.blobs && (st.blobs[b].status.Uploading? || st.blobs[b].status.Committed?) &&
    match t
    case UpUndo(_, _, row) => row.blob == b
    case PlUndo(_, ref) => ref == b
    case _ => false
  }

  predicate ErasesKept(w: World, a: Action, b: Id) {
    a.Go? && a.tid in w.tasks && Erases(w.st, w.tasks[a.tid], a.input, b)
  }

  /** Some compensation of the run does that. */
  predicate Erased(cfg: Config, w: World, actions: seq<Action>, b: Id)
    decreases |actions|
  {
    actions != [] && (ErasesKept(w, actions[0], b) || Erased(cfg, Act(cfg, w, actions[0]), actions[1..], b))
  }

  function Run(cfg: Config, w: World, actions: seq<Action>): World
    decreases |actions|
  {
    if actions == [] then w else Run(cfg, Act(cfg, w, actions[0]), actions[1..])
  }

  const INIT := World(Store(0, map[], map[], map[], map[], map[], {}), map[], map[])
}
