/** The engine as the source runs it: one repository statement after another over shared tables,
    inside a transaction that undoes them when any of them fails. */
module EngineService {
  import opened Base
  import opened Vault

  class Engine {
    var items: map<Id, Item>
    var log: seq<Entry>
    var processed: map<(Id, Id), Processed>
    var nextRev: nat

    constructor ()
      ensures State() == EMPTY
    {
      items, log, processed, nextRev := map[], [], map[], 1;
    }

    function State(): (t: Tables)
      reads this
    {
      Tables(items, log, processed, nextRev)
    }

    /** INSERT INTO vault_items; fails on the primary key. */
    method CreateItem(id: Id, row: Item) returns (ok: bool)
      modifies `items
      ensures ok <==> id !in old(items)
      ensures items == if ok then old(items)[id := row] else old(items)
    {
      ok := id !in items;
      if ok { items := items[id := row]; }
    }

    /** The compare-and-set UPDATE; writes every column except owner, type, creation and tombstone. */
    method UpdateItem(id: Id, it: Item, expected: nat) returns (ok: bool)
      modifies `items
      ensures ok <==> id in old(items) && old(items)[id].user == it.user && old(items)[id].version == expected
                      && old(items)[id].deletedAt.None?
      ensures items == if ok then old(items)[id := old(items)[id].(content := it.content, version := it.version,
                                                                  updatedAt := it.updatedAt)] else old(items)
    {
      ok := id in items && items[id].user == it.user && items[id].version == expected && items[id].deletedAt.None?;
      if ok {
        items := items[id := items[id].(content := it.content, version := it.version, updatedAt := it.updatedAt)];
      }
    }

    /** The compare-and-set tombstone; returns the new version. */
    method DeleteItem(user: Id, id: Id, expected: nat, now: Time) returns (version: Option<nat>)
      modifies `items
      ensures version.Some? <==> id in old(items) && old(items)[id].user == user
                                 && old(items)[id].version == expected && old(items)[id].deletedAt.None?
      ensures version.Some? ==>
                version.value == expected + 1 && items == old(items)[id := Tombstoned(old(items)[id], now)]
      ensures version.None? ==> items == old(items)
    {
      if id in items && items[id].user == user && items[id].version == expected && items[id].deletedAt.None? {
        items := items[id := Tombstoned(items[id], now)];
        version := Some(items[id].version);
      } else {
        version := None;
      }
    }

    /** INSERT INTO revision_log RETURNING revision_id; the sequence moves even when the unique index refuses. */
    method AppendRevision(user: Id, op: Id, id: Id, change: ChangeType, version: nat) returns (rev: Option<nat>)
      modifies `log, `nextRev
      ensures nextRev == old(nextRev) + 1
      ensures rev == if Logged(old(log), user, op) then None else Some(old(nextRev))
      ensures log == if rev.None? then old(log) else old(log) + [Entry(old(nextRev), user, op, id, change, version)]
    {
      if Logged(log, user, op) {
        rev := None;
      } else {
        log := log + [Entry(nextRev, user, op, id, change, version)];
        rev := Some(nextRev);
      }
      nextRev := nextRev + 1;
    }

    /** INSERT INTO processed_operations ON CONFLICT DO NOTHING. */
    method MarkProcessed(user: Id, op: Id, id: Id, rev: nat)
      modifies `processed
      ensures processed == if (user, op) in old(processed) then old(processed)
                           else old(processed)[(user, op) := Processed(id, rev)]
    {
      if (user, op) !in processed {
        processed := processed[(user, op) := Processed(id, rev)];
      }
    }

    /** The statements after the row write, shared by the three mutations. */
    method Record(user: Id, op: Id, id: Id, change: ChangeType, version: nat) returns (r: Result<Output>)
      requires (user, op) !in processed
      modifies `log, `nextRev, `processed
      ensures nextRev == old(nextRev) + 1
      ensures r == if Logged(old(log), user, op) then Err(Internal) else Ok(Output(id, version, old(nextRev)))
      ensures r.Ok? ==> log == old(log) + [Entry(old(nextRev), user, op, id, change, version)]
      ensures r.Ok? ==> processed == old(processed)[(user, op) := Processed(id, old(nextRev))]
    {
      var rev := AppendRevision(user, op, id, change, version);
      if rev.None? { return Err(Internal); }
      MarkProcessed(user, op, id, rev.value);
      r := Ok(Output(id, version, rev.value));
    }

    /** The body of Create, Update or Delete, in the source's statement order. */
    method Body(c: Call) returns (r: Result<Output>)
      modifies this
      ensures nextRev >= old(nextRev)
      ensures r == Exec(old(State()), c).1
      ensures r.Ok? ==> State() == Exec(old(State()), c).0
      ensures r.Err? && r.error != Internal ==> nextRev == old(nextRev)
    {
      if BlankArguments(c) { return Err(InvalidArgument); }
      if (c.user, c.op) in processed {
        return Replayed(State(), c, processed[(c.user, c.op)]);
      }
      match c
      case Create(user, op, itemType, content, id, now) =>
        var ok := CreateItem(id, Item(user, itemType, content, 1, now, now, None));
        if !ok { return Err(Internal); }
        r := Record(user, op, id, Created, 1);
      case Update(user, op, id, expected, content, now) =>
        var loaded := GetItem(State(), user, id);
        if loaded.None? || loaded.value.deletedAt.Some? { return Err(NotFound); }
        var current := loaded.value;
        if current.version != expected { return Err(Conflict); }
        current := current.(content := content, version := current.version + 1, updatedAt := now);
        var ok := UpdateItem(id, current, expected);
        if !ok { return Err(Conflict); }
        r := Record(user, op, id, Updated, current.version);
      case Delete(user, op, id, expected, now) =>
        var version := DeleteItem(user, id, expected, now);
        if version.None? { return Err(Conflict); }
        r := Record(user, op, id, Deleted, version.value);
    }

    /** WithVaultEngineTx: run one call, keep its writes only if it succeeded. Revision numbers drawn by a
        rolled-back call stay drawn. */
    method WithTx(c: Call) returns (r: Result<Output>)
      modifies this
      ensures r == Exec(old(State()), c).1
      ensures r.Ok? ==> State() == Exec(old(State()), c).0
      ensures r.Err? ==> nextRev >= old(nextRev) && State() == old(State()).(nextRev := nextRev)
      ensures r.Err? && r.error != Internal ==> State() == old(State())
    {
      var items0, log0, processed0 := items, log, processed;
      r := Body(c);
      if r.Err? {
        items, log, processed := items0, log0, processed0;
      }
    }
  }
}
