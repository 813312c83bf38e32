/** The client's SQLite tables: the cached items, the sync state and the pending queue. */
module LocalStorage {
  import opened Base
  import opened Push
  import opened Client

  /** A pending_operations row. A NULL column and an empty one read back alike, so both are empty here. */
  datatype PendingRow = PendingRow(op: Id, kind: OpKind, item: Id, expected: nat, snapshotType: int,
                                   title: Field, metadata: Field, payload: Field, blobId: Id)

  function Columns(f: Option<Field>): Field {
    if f.Some? then f.value else NO_FIELD
  }

  function ToRow(p: PendingOp): PendingRow {
    match p.snapshot
    case None => PendingRow(p.op, p.kind, p.item, p.expected, 0, NO_FIELD, NO_FIELD, NO_FIELD, "")
    case Some(s) => PendingRow(p.op, p.kind, p.item, p.expected, s.itemType, Columns(s.title), Columns(s.metadata),
                               Columns(s.payload), s.blobId)
  }

  function FromColumns(f: Field): Option<Field> {
    if f.ciphertext != [] then Some(f) else None
  }

  function FromRow(r: PendingRow): PendingOp {
    PendingOp(r.op, r.kind, r.item, r.expected,
              if r.snapshotType == 0 then None
              else Some(Snapshot(r.snapshotType, FromColumns(r.title), FromColumns(r.metadata), FromColumns(r.payload),
                                 r.blobId)))
  }

  function Rows(ops: seq<PendingOp>): seq<PendingRow> {
    seq(|ops|, i requires 0 <= i < |ops| => ToRow(ops[i]))
  }

  function Loaded(lastRev: Option<nat>, rows: seq<PendingRow>): SyncState {
    SyncState(if lastRev.Some? then lastRev.value else 0, seq(|rows|, i requires 0 <= i < |rows| => FromRow(rows[i])))
  }

  ghost predicate Distinct(ops: seq<PendingOp>) {
    forall i, j | 0 <= i < j < |ops| :: ops[i].op != ops[j].op
  }

  ghost predicate Unused(ops: seq<PendingOp>, op: Id) {
    forall i | 0 <= i < |ops| :: ops[i].op != op
  }

  lemma DistinctPush(ops: seq<PendingOp>, p: PendingOp)
    requires Distinct(ops)
    ensures Distinct(ops + [p]) <==> Unused(ops, p.op)
  {
    var all := ops + [p];
    if Distinct(all) {
      forall i | 0 <= i < |ops| ensures ops[i].op != p.op { assert all[i].op != all[|ops|].op; }
    }
  }

  predicate NonEmpty(f: Option<Field>) {
    f.Some? ==> f.value.ciphertext != []
  }

  /** No snapshot, or one with a type and without empty ciphertexts. */
  predicate Storable(p: PendingOp) {
    p.snapshot.Some? ==>
      && p.snapshot.value.itemType != 0
      && NonEmpty(p.snapshot.value.title) && NonEmpty(p.snapshot.value.metadata) && NonEmpty(p.snapshot.value.payload)
  }

  lemma RowRoundTripIff(p: PendingOp)
    ensures FromRow(ToRow(p)) == p <==> Storable(p)
  {
  }

  /** Saving and loading gives back the same revision and the same operations in order, exactly when every
      operation is storable. */
  lemma SaveLoadIff(st: SyncState)
    ensures Loaded(Some(st.lastRev), Rows(st.pending)) == st
            <==> forall i | 0 <= i < |st.pending| :: Storable(st.pending[i])
  {
    var back := Loaded(Some(st.lastRev), Rows(st.pending));
    forall i | 0 <= i < |st.pending|
      ensures back.pending[i] == FromRow(ToRow(st.pending[i]))
              && (back.pending[i] == st.pending[i] <==> Storable(st.pending[i]))
    {
      RowRoundTripIff(st.pending[i]);
    }
    hide FromRow, ToRow, Storable;
    if forall i | 0 <= i < |st.pending| :: Storable(st.pending[i]) { assert back.pending == st.pending; }
  }

  class Storage {
    var items: Cache
    var lastRev: Option<nat>
    var pending: seq<PendingRow>

    constructor ()
      ensures items == map[] && lastRev == None && pending == []
    {
      items, lastRev, pending := map[], None, [];
    }

    function Disk(): SyncState
      reads this
    {
      Loaded(lastRev, pending)
    }

    /** INSERT; operation_id is unique. */
    method InsertPending(row: PendingRow) returns (ok: bool)
      modifies `pending
      ensures ok <==> forall i | 0 <= i < |old(pending)| :: old(pending)[i].op != row.op
      ensures pending == if ok then old(pending) + [row] else old(pending)
    {
      ok := forall i | 0 <= i < |pending| :: pending[i].op != row.op;
      if ok { pending := pending + [row]; }
    }

    /** One transaction: the revision, an emptied queue, the new queue. `works` says whether the database carries it
        through; equal operation ids are refused in any case. */
    method SaveSync(st: SyncState, works: bool) returns (ok: bool)
      modifies `lastRev, `pending
      ensures ok <==> works && Distinct(st.pending)
      ensures ok ==> lastRev == Some(st.lastRev) && pending == Rows(st.pending)
      ensures !ok ==> lastRev == old(lastRev) && pending == old(pending)
    {
      var rev0, pending0 := lastRev, pending;
      lastRev, pending := Some(st.lastRev), [];
      var i := 0;
      while i < |st.pending|
        invariant 0 <= i <= |st.pending| && lastRev == Some(st.lastRev)
        invariant pending == Rows(st.pending[..i]) && Distinct(st.pending[..i])
      {
        var p := st.pending[i];
        ghost var queue := st.pending[..i];
        assert st.pending[..i + 1] == queue + [p];
        DistinctPush(queue, p);
        assert forall k | 0 <= k < i :: pending[k].op == queue[k].op;
        ok := InsertPending(ToRow(p));
        if !ok {
          lastRev, pending := rev0, pending0;
          return false;
        }
        i := i + 1;
      }
      assert st.pending[..i] == st.pending;
      ok := works;
      if !ok { lastRev, pending := rev0, pending0; }
    }

    method LoadSync() returns (st: SyncState)
      ensures st == Disk()
    {
      var ops: seq<PendingOp> := [];
      var i := 0;
      while i < |pending|
        invariant 0 <= i <= |pending| && ops == Loaded(lastRev, pending[..i]).pending
      {
        ops := ops + [FromRow(pending[i])];
        i := i + 1;
      }
      assert pending[..i] == pending;
      st := SyncState(if lastRev.Some? then lastRev.value else 0, ops);
    }

    method Upsert(id: Id, row: Row)
      modifies `items
      ensures items == old(items)[id := row]
    {
      items := items[id := row];
    }

    method Get(id: Id) returns (row: Option<Row>)
      ensures row == if id in items then Some(items[id]) else None
    {
      row := if id in items then Some(items[id]) else None;
    }

    method Delete(id: Id)
      modifies `items
      ensures items == old(items) - {id}
    {
      items := items - {id};
    }
  }
}
