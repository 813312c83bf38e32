/** The client's cache and pending queue: what adding, editing and removing an item and applying a remote event
    do to them. */
module Client {
  import opened Base
  import opened Vault
  import opened VaultHistory
  import opened Push

  /** A row of the client's vault_items table. */
  datatype Row = Row(version: nat, itemType: int, title: Field, metadata: Field, payload: Field, blobId: Id,
                     deleted: bool)

  type Cache = map<Id, Row>

  datatype SyncState = SyncState(lastRev: nat, pending: seq<PendingOp>)

  const NO_FIELD := Field([], [])

  /** The three encrypted fields of an edit. */
  datatype Draft = Draft(itemType: int, title: Field, metadata: Field, payload: Field)

  function DraftSnapshot(d: Draft): Option<Snapshot> {
    Some(Snapshot(d.itemType, Some(d.title), Some(d.metadata), Some(d.payload), ""))
  }

  function Queue(st: SyncState, p: PendingOp): SyncState {
    st.(pending := st.pending + [p])
  }

  function Added(d: Draft, blobId: Id): Row {
    Row(1, d.itemType, d.title, d.metadata, d.payload, blobId, false)
  }

  function AddOp(d: Draft, id: Id, op: Id): PendingOp {
    PendingOp(op, CreateOp, id, 0, DraftSnapshot(d))
  }

  function Edited(row: Row, d: Draft): Row {
    Row(row.version + 1, d.itemType, d.title, d.metadata, d.payload, row.blobId, row.deleted)
  }

  function EditOp(row: Row, d: Draft, id: Id, op: Id): PendingOp {
    PendingOp(op, UpdateOp, id, row.version, DraftSnapshot(d))
  }

  function RemoveOp(row: Row, id: Id, op: Id): PendingOp {
    PendingOp(op, DeleteOp, id, row.version, None)
  }

  /** applyEvent. Its event always carries an item (see VaultHistory.EveryEventJoins). */
  function Apply(cache: Cache, ev: Event): Cache {
    if ev.item.None? then cache
    else
      var it := ev.item.value;
      cache[ev.entry.item :=
        if ev.entry.change.Deleted? then Row(it.version, 0, NO_FIELD, NO_FIELD, NO_FIELD, "", true)
        else Row(it.version, it.itemType, it.content.title, it.content.metadata, it.content.payload, "", false)]
  }

  /** A response applied event by event. */
  function ApplyAll(cache: Cache, evs: seq<Event>): Cache
    decreases |evs|
  {
    if evs == [] then cache else Apply(ApplyAll(cache, evs[..|evs| - 1]), evs[|evs| - 1])
  }

  /** A live cache row holding the server's version, type, title, metadata and payload. */
  ghost predicate Mirrors(row: Row, it: Item) {
    && !row.deleted && row.version == it.version && row.itemType == it.itemType
    && row.title == it.content.title && row.metadata == it.content.metadata && row.payload == it.content.payload
  }

  /** The cache is right about one server item. */
  ghost predicate Agrees(cache: Cache, id: Id, it: Item) {
    if it.deletedAt.None? then id in cache && Mirrors(cache[id], it) else id in cache ==> cache[id].deleted
  }
}
