/** The client application over its local storage. */
module App {
  import opened Base
  import opened VaultHistory
  import opened Push
  import opened Transfer
  import opened Client
  import opened LocalStorage

  /** A Sync response. */
  datatype Response = Response(changes: seq<Event>, newRev: nat, conflicts: nat)

  /** The plaintexts of an edit and the nonces drawn for them. */
  datatype Secret = Secret(itemType: int, title: Bytes, metadata: Bytes, payload: Bytes, nonces: (Bytes, Bytes, Bytes))

  function EncryptField(a: Aead, dek: Bytes, nonce: Bytes, plain: Bytes): Field {
    Field(a.seal(dek, nonce, plain), nonce)
  }

  function Encrypted(a: Aead, dek: Bytes, s: Secret): Draft {
    Draft(s.itemType, EncryptField(a, dek, s.nonces.0, s.title), EncryptField(a, dek, s.nonces.1, s.metadata),
          EncryptField(a, dek, s.nonces.2, s.payload))
  }

  ghost predicate Opens(a: Aead, dek: Bytes, f: Field, plain: Bytes) {
    a.open(dek, f.nonce, f.ciphertext) == Some(plain)
  }

  /** The three fields open under the key to the three plaintexts. */
  ghost predicate Reveals(a: Aead, dek: Bytes, title: Field, metadata: Field, payload: Field, s: Secret) {
    Opens(a, dek, title, s.title) && Opens(a, dek, metadata, s.metadata) && Opens(a, dek, payload, s.payload)
  }

  /** The cache row of an edit, and the operation queued for it. */
  ghost predicate CarriesEdit(a: Aead, dek: Bytes, row: Row, p: PendingOp, s: Secret) {
    && row.itemType == s.itemType && Reveals(a, dek, row.title, row.metadata, row.payload, s)
    && p.snapshot.Some? && p.snapshot.value.itemType == s.itemType && p.snapshot.value.blobId == ""
    && p.snapshot.value.title == Some(row.title) && p.snapshot.value.metadata == Some(row.metadata)
    && p.snapshot.value.payload == Some(row.payload)
  }

  /** Sealed under the user's key, so the user can open it. */
  lemma EditsOpen(a: Aead, dek: Bytes, s: Secret, row: Row, blobId: Id, id: Id, op: Id)
    requires Lawful(a) && Concrete(s)
    ensures var d := Encrypted(a, dek, s);
            && CarriesEdit(a, dek, Added(d, blobId), AddOp(d, id, op), s)
            && CarriesEdit(a, dek, Edited(row, d), EditOp(row, d, id, op), s)
  {
  }

  ghost predicate Concrete(s: Secret) {
    ConcreteType(s.itemType) && |s.nonces.0| == |s.nonces.1| == |s.nonces.2| == NONCE_SIZE
  }

  /** A queue that survives a restart. */
  ghost predicate Durable(ops: seq<PendingOp>) {
    Distinct(ops) && forall i | 0 <= i < |ops| :: Storable(ops[i])
  }

  /** What an edit of a concrete type queues can be stored, because sealing never yields an empty ciphertext. */
  lemma EditsAreStorable(a: Aead, dek: Bytes, s: Secret, row: Row, id: Id, op: Id)
    requires Lawful(a) && Concrete(s)
    ensures Storable(AddOp(Encrypted(a, dek, s), id, op)) && Storable(EditOp(row, Encrypted(a, dek, s), id, op))
            && Storable(RemoveOp(row, id, op))
  {
    var (n1, n2, n3) := s.nonces;
    assert |a.seal(dek, n1, s.title)| == |s.title| + TAG_SIZE;
    assert |a.seal(dek, n2, s.metadata)| == |s.metadata| + TAG_SIZE;
    assert |a.seal(dek, n3, s.payload)| == |s.payload| + TAG_SIZE;
  }

  lemma QueueStaysDurable(ops: seq<PendingOp>, p: PendingOp)
    requires Durable(ops) && Unused(ops, p.op) && Storable(p)
    ensures Durable(ops + [p])
  {
    hide Storable;
  }

  class App {
    const cipher: Aead
    const storage: Storage
    var dek: Bytes
    var sync: SyncState

    /** A client that starts: the sync state is what the storage holds. */
    constructor (cipher: Aead, storage: Storage, dek: Bytes)
      ensures this.cipher == cipher && this.storage == storage && this.dek == dek && sync == storage.Disk()
    {
      this.cipher, this.storage, this.dek := cipher, storage, dek;
      new;
      sync := storage.LoadSync();
    }

    /** What is queued in memory is what a restart would load. */
    ghost predicate Safe()
      reads this, storage
    {
      storage.Disk() == sync
    }

    /** Append to the queue and save it. A save writes the whole queue, so it makes up for earlier failures. */
    method Enqueue(p: PendingOp, works: bool) returns (ok: bool)
      modifies this`sync, storage`lastRev, storage`pending
      ensures sync == Queue(old(sync), p)
      ensures ok <==> works && Distinct(sync.pending)
      ensures ok && Durable(sync.pending) ==> Safe()
      ensures !ok ==> storage.Disk() == old(storage.Disk())
    {
      sync := sync.(pending := sync.pending + [p]);
      ok := storage.SaveSync(sync, works);
      SaveLoadIff(sync);
    }

    /** Of all the edits: a durable queue stays durable under a fresh operation id. */
    lemma EditsStayDurable(ops: seq<PendingOp>, s: Secret, row: Row, id: Id, op: Id)
      requires Lawful(cipher) && Concrete(s) && Durable(ops) && Unused(ops, op)
      ensures Durable(ops + [AddOp(Encrypted(cipher, dek, s), id, op)])
      ensures Durable(ops + [EditOp(row, Encrypted(cipher, dek, s), id, op)])
    {
      EditsAreStorable(cipher, dek, s, row, id, op);
      hide Storable, Lawful, Encrypted, Durable;
      QueueStaysDurable(ops, AddOp(Encrypted(cipher, dek, s), id, op));
      QueueStaysDurable(ops, EditOp(row, Encrypted(cipher, dek, s), id, op));
    }

    method AddItem(s: Secret, blobId: Id, id: Id, op: Id, works: bool) returns (ok: bool)
      modifies this`sync, storage
      ensures dek == [] ==> !ok && sync == old(sync) && storage.items == old(storage.items)
                            && storage.Disk() == old(storage.Disk())
      ensures dek != [] ==> && storage.items == old(storage.items)[id := Added(Encrypted(cipher, dek, s), blobId)]
                            && sync == Queue(old(sync), AddOp(Encrypted(cipher, dek, s), id, op))
                            && (ok <==> works && Distinct(sync.pending))
      ensures dek != [] ==>
                var row, p := storage.items[id], sync.pending[|sync.pending| - 1];
                && row.version == 1 && !row.deleted && row.blobId == blobId
                && p.op == op && p.kind.CreateOp? && p.item == id && p.expected == 0
                && (Lawful(cipher) && Concrete(s) ==> CarriesEdit(cipher, dek, row, p, s))
      ensures Lawful(cipher) && Concrete(s) && Durable(old(sync).pending) && Unused(old(sync).pending, op) ==>
                Durable(sync.pending) && (ok ==> Safe())
    {
      if dek == [] { return false; }
      var draft := Encrypted(cipher, dek, s);
      if Lawful(cipher) && Concrete(s) { EditsOpen(cipher, dek, s, Added(draft, blobId), blobId, id, op); }
      if Lawful(cipher) && Concrete(s) && Durable(sync.pending) && Unused(sync.pending, op) {
        EditsStayDurable(sync.pending, s, Added(draft, blobId), id, op);
      }
      hide Storable, Lawful, Encrypted, Durable;
      storage.Upsert(id, Added(draft, blobId));
      ok := Enqueue(AddOp(draft, id, op), works);
    }

    method UpdateItem(id: Id, s: Secret, op: Id, works: bool) returns (ok: bool)
      modifies this`sync, storage
      ensures dek == [] || id !in old(storage.items) ==>
                !ok && sync == old(sync) && storage.items == old(storage.items) && storage.Disk() == old(storage.Disk())
      ensures dek != [] && id in old(storage.items) ==>
                var row := old(storage.items)[id];
                && storage.items == old(storage.items)[id := Edited(row, Encrypted(cipher, dek, s))]
                && sync == Queue(old(sync), EditOp(row, Encrypted(cipher, dek, s), id, op))
                && (ok <==> works && Distinct(sync.pending))
      ensures dek != [] && id in old(storage.items) ==>
                var was, row, p := old(storage.items)[id], storage.items[id], sync.pending[|sync.pending| - 1];
                && row.version == was.version + 1 && row.deleted == was.deleted && row.blobId == was.blobId
                && p.op == op && p.kind.UpdateOp? && p.item == id && p.expected == was.version
                && (Lawful(cipher) && Concrete(s) ==> CarriesEdit(cipher, dek, row, p, s))
      ensures Lawful(cipher) && Concrete(s) && Durable(old(sync).pending) && Unused(old(sync).pending, op) ==>
                Durable(sync.pending) && (ok ==> Safe())
    {
      if dek == [] { return false; }
      var found := storage.Get(id);
      if found.None? { return false; }
      var row, draft := found.value, Encrypted(cipher, dek, s);
      if Lawful(cipher) && Concrete(s) { EditsOpen(cipher, dek, s, row, "", id, op); }
      if Lawful(cipher) && Concrete(s) && Durable(sync.pending) && Unused(sync.pending, op) {
        EditsStayDurable(sync.pending, s, row, id, op);
      }
      hide Storable, Lawful, Encrypted, Durable;
      storage.Upsert(id, Edited(row, draft));
      ok := Enqueue(EditOp(row, draft, id, op), works);
    }

    method DeleteItem(id: Id, op: Id, works: bool) returns (ok: bool)
      modifies this`sync, storage
      ensures dek == [] || id !in old(storage.items) ==>
                !ok && sync == old(sync) && storage.items == old(storage.items) && storage.Disk() == old(storage.Disk())
      ensures dek != [] && id in old(storage.items) ==>
                && storage.items == old(storage.items) - {id}
                && sync == Queue(old(sync), RemoveOp(old(storage.items)[id], id, op))
                && (ok <==> works && Distinct(sync.pending))
                && sync.pending[|sync.pending| - 1] == PendingOp(op, DeleteOp, id, old(storage.items)[id].version, None)
      ensures Durable(old(sync).pending) && Unused(old(sync).pending, op) ==> Durable(sync.pending) && (ok ==> Safe())
    {
      if dek == [] { return false; }
      var found := storage.Get(id);
      if found.None? { return false; }
      if Durable(sync.pending) && Unused(sync.pending, op) {
        QueueStaysDurable(sync.pending, RemoveOp(found.value, id, op));
      }
      hide Storable, Durable;
      storage.Delete(id);
      ok := Enqueue(RemoveOp(found.value, id, op), works);
    }

    /** Title, metadata and payload of a row, if there is a key and it opens all three. */
    method DecryptItem(row: Row) returns (r: Option<(Bytes, Bytes, Bytes)>)
      ensures r.Some? <==> dek != [] && cipher.open(dek, row.title.nonce, row.title.ciphertext).Some?
                           && cipher.open(dek, row.metadata.nonce, row.metadata.ciphertext).Some?
                           && cipher.open(dek, row.payload.nonce, row.payload.ciphertext).Some?
      ensures r.Some? ==> Opens(cipher, dek, row.title, r.value.0) && Opens(cipher, dek, row.metadata, r.value.1)
                          && Opens(cipher, dek, row.payload, r.value.2)
    {
      if dek == [] { return None; }
      var title := cipher.open(dek, row.title.nonce, row.title.ciphertext);
      if title.None? { return None; }
      var metadata := cipher.open(dek, row.metadata.nonce, row.metadata.ciphertext);
      if metadata.None? { return None; }
      var payload := cipher.open(dek, row.payload.nonce, row.payload.ciphertext);
      if payload.None? { return None; }
      r := Some((title.value, metadata.value, payload.value));
    }

    /** What was added is what decrypting the cached row shows. */
    method AddThenRead(s: Secret, blobId: Id, id: Id, op: Id, works: bool) returns (r: Option<(Bytes, Bytes, Bytes)>)
      requires Lawful(cipher) && Concrete(s)
      modifies this`sync, storage
      ensures r == if dek == [] then None else Some((s.title, s.metadata, s.payload))
    {
      hide Lawful, Concrete, Durable, Encrypted;
      var ok := AddItem(s, blobId, id, op, works);
      if dek == [] { return None; }
      var row := storage.Get(id);
      r := DecryptItem(row.value);
    }

    /** applyEvent. */
    method ApplyEvent(ev: Event)
      modifies storage`items
      ensures storage.items == Apply(old(storage.items), ev)
      ensures ev.item.None? ==> storage.items == old(storage.items)
      ensures ev.item.Some? ==> ev.entry.item in storage.items && storage.items - {ev.entry.item}
                                == old(storage.items) - {ev.entry.item}
      ensures ev.item.Some? ==> var row := storage.items[ev.entry.item];
                                && row.version == ev.item.value.version && row.blobId == ""
                                && (row.deleted <==> ev.entry.change.Deleted?)
                                && (row.deleted ==> row.itemType == 0 && row.title.ciphertext == []
                                                    && row.metadata.ciphertext == [] && row.payload.ciphertext == [])
                                && (!row.deleted ==> Mirrors(row, ev.item.value))
    {
      if ev.item.None? { return; }
      var it := ev.item.value;
      match ev.entry.change
      case Deleted => storage.Upsert(ev.entry.item, Row(it.version, 0, NO_FIELD, NO_FIELD, NO_FIELD, "", true));
      case _ => storage.Upsert(ev.entry.item, Row(it.version, it.itemType, it.content.title, it.content.metadata,
                                                  it.content.payload, "", false));
    }

    /** The client half of Sync, given what the server call returned. */
    method Sync(resp: Option<Response>, works: bool) returns (ok: bool)
      modifies this`sync, storage
      ensures ok <==> resp.Some? && works && Distinct(sync.pending)
      ensures resp.None? ==> sync == old(sync) && storage.items == old(storage.items)
      ensures resp.Some? ==> storage.items == ApplyAll(old(storage.items), resp.value.changes)
      ensures resp.Some? ==> sync == SyncState(resp.value.newRev, if resp.value.conflicts == 0 then []
                                               else old(sync).pending)
      ensures !ok ==> storage.Disk() == old(storage.Disk())
      ensures Durable(old(sync).pending) ==> Durable(sync.pending) && (ok ==> Safe())
    {
      if resp.None? { return false; }
      var evs := resp.value.changes;
      var i := 0;
      while i < |evs|
        invariant 0 <= i <= |evs| && sync == old(sync) && storage.Disk() == old(storage.Disk())
        invariant storage.items == ApplyAll(old(storage.items), evs[..i])
      {
        assert evs[..i + 1][..i] == evs[..i];
        ApplyEvent(evs[i]);
        i := i + 1;
      }
      assert evs[..i] == evs;
      sync := sync.(lastRev := resp.value.newRev);
      if resp.value.conflicts == 0 { sync := sync.(pending := []); }
      ok := storage.SaveSync(sync, works);
      SaveLoadIff(sync);
    }
  }
}
