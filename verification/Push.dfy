/** The push half of the sync protocol: turning a pending operation into an engine transaction, and running a
    batch of them until the first failure. */
module Push {
  import opened Base
  import opened Vault

  datatype OpKind = Unspecified | CreateOp | UpdateOp | DeleteOp | Unknown

  datatype Snapshot = Snapshot(itemType: int, title: Option<Field>, metadata: Option<Field>, payload: Option<Field>,
                               blobId: Id)

  datatype PendingOp = PendingOp(op: Id, kind: OpKind, item: Id, expected: nat, snapshot: Option<Snapshot>)

  /** Where payload resolution placed a payload: inline, or in a blob with its checksum. */
  datatype Placement = Placement(payload: Field, blobId: Option<Id>, checksum: Bytes)

  /** What the outside supplies to one execution: the clock, a fresh id, and payload resolution's answer. */
  datatype Env = Env(now: Time, freshId: Id, placed: Result<Placement>)

  datatype Outcome = Accepted(op: Id, out: Output) | Conflicted(op: Id) | Failed(error: Error)

  /** concreteProtoItemType: credential, text, card, OTP, binary. */
  predicate ConcreteType(t: int) {
    1 <= t <= 5
  }

  /** The checks of pushCreate and pushUpdate on the snapshot. */
  predicate SnapshotAccepted(s: Option<Snapshot>) {
    s.Some? && s.value.title.Some? && s.value.metadata.Some?
    && (!Blank(s.value.blobId) || s.value.payload.Some?) && ConcreteType(s.value.itemType)
  }

  function Stored(s: Snapshot, p: Placement): Content
    requires s.title.Some? && s.metadata.Some?
  {
    Content(s.title.value, s.metadata.value, p.payload, p.blobId, p.checksum)
  }

  /** The engine call a pending operation stands for. */
  function ToCall(user: Id, p: PendingOp, env: Env): Result<Call> {
    var op, item := Trim(p.op), Trim(p.item);
    if op == "" then Err(InvalidArgument)
    else match p.kind
      case Unspecified => Err(InvalidArgument)
      case Unknown => Err(InvalidArgument)
      case CreateOp =>
        if !SnapshotAccepted(p.snapshot) then Err(InvalidArgument)
        else if env.placed.Err? then Err(env.placed.error)
        else Ok(Create(user, op, p.snapshot.value.itemType, Stored(p.snapshot.value, env.placed.value), env.freshId,
                       env.now))
      case UpdateOp =>
        if item == "" || !SnapshotAccepted(p.snapshot) then Err(InvalidArgument)
        else if env.placed.Err? then Err(env.placed.error)
        else Ok(Update(user, op, item, p.expected, Stored(p.snapshot.value, env.placed.value), env.now))
      case DeleteOp =>
        if item == "" then Err(InvalidArgument) else Ok(Delete(user, op, item, p.expected, env.now))
  }

  /** applyPendingOperation: a version conflict is an answer, every other error fails the batch. */
  function PushOne(t: Tables, user: Id, p: PendingOp, env: Env): (Tables, Outcome) {
    match ToCall(user, p, env)
    case Err(e) => (t, Failed(e))
    case Ok(c) =>
      var (t', r) := Exec(t, c);
      if r.Ok? then (t', Accepted(Trim(p.op), r.value))
      else if r.error == Conflict && !c.Create? then (t', Conflicted(Trim(p.op)))
      else (t', Failed(r.error))
  }

  /** A batch stops after its first failure. */
  predicate Stopped(os: seq<Outcome>) {
    os != [] && os[|os| - 1].Failed?
  }

  /** Running one operation more, unless the batch has stopped. */
  function Extend(done: (Tables, seq<Outcome>), user: Id, p: PendingOp, env: Env): (Tables, seq<Outcome>) {
    if Stopped(done.1) then done
    else var (t, o) := PushOne(done.0, user, p, env); (t, done.1 + [o])
  }

  /** The tables after a batch and the outcomes of the operations it executed, in order. */
  function Batch(t: Tables, user: Id, ops: seq<PendingOp>, envs: seq<Env>): (Tables, seq<Outcome>)
    requires |envs| == |ops|
    decreases |ops|
  {
    if ops == [] then (t, [])
    else var n := |ops| - 1; Extend(Batch(t, user, ops[..n], envs[..n]), user, ops[n], envs[n])
  }
}
