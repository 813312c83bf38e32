/** The versioned vault engine as one atomic step per call: the vault_items, revision_log and
    processed_operations tables, and what Create, Update and Delete do to them inside one transaction. */
module Vault {
  import opened Base

  datatype Content = Content(title: Field, metadata: Field, payload: Field, blobId: Option<Id>, checksum: Bytes)

  datatype Item = Item(user: Id, itemType: int, content: Content, version: nat,
                       createdAt: Time, updatedAt: Time, deletedAt: Option<Time>)

  datatype ChangeType = Created | Updated | Deleted

  datatype Entry = Entry(rev: nat, user: Id, op: Id, item: Id, change: ChangeType, version: nat)

  datatype Processed = Processed(item: Id, rev: nat)

  /** `nextRev` is the sequence behind revision_log.revision_id. */
  datatype Tables = Tables(items: map<Id, Item>, log: seq<Entry>, processed: map<(Id, Id), Processed>, nextRev: nat)

  const EMPTY := Tables(map[], [], map[], 1)

  datatype Output = Output(item: Id, version: nat, rev: nat)

  /** One engine call; `freshId` and `now` are what uuid.NewString and the clock return during it. */
  datatype Call =
    | Create(user: Id, op: Id, itemType: int, content: Content, freshId: Id, now: Time)
    | Update(user: Id, op: Id, item: Id, expected: nat, content: Content, now: Time)
    | Delete(user: Id, op: Id, item: Id, expected: nat, now: Time)

  function GetItem(t: Tables, user: Id, id: Id): Option<Item> {
    if id in t.items && t.items[id].user == user then Some(t.items[id]) else None
  }

  /** The unique index on revision_log(user_id, operation_id). */
  predicate Logged(log: seq<Entry>, user: Id, op: Id) {
    exists n :: 0 <= n < |log| && log[n].user == user && log[n].op == op
  }

  /** Row write, log append and idempotency mark of one successful mutation. */
  function Commit(t: Tables, user: Id, op: Id, id: Id, change: ChangeType, row: Item): Tables {
    Tables(t.items[id := row],
           t.log + [Entry(t.nextRev, user, op, id, change, row.version)],
           if (user, op) in t.processed then t.processed else t.processed[(user, op) := Processed(id, t.nextRev)],
           t.nextRev + 1)
  }

  predicate BlankArguments(c: Call) {
    Blank(c.user) || Blank(c.op) || (!c.Create? && Blank(c.item))
  }

  /** The answer to a call whose operation is already in processed_operations. */
  function Replayed(t: Tables, c: Call, p: Processed): Result<Output> {
    if !c.Create? && p.item != "" && p.item != c.item then Err(InvalidArgument)
    else match GetItem(t, c.user, p.item)
         case None => Err(NotFound)
         case Some(it) => Ok(Output(p.item, it.version, p.rev))
  }

  function WithContent(it: Item, content: Content, now: Time): Item {
    it.(content := content, version := it.version + 1, updatedAt := now)
  }

  function Tombstoned(it: Item, now: Time): Item {
    it.(version := it.version + 1, updatedAt := now, deletedAt := Some(now))
  }

  /** What a first execution writes: the row and its change kind, or the error that rolls it back. */
  function Target(t: Tables, c: Call): Result<(Id, ChangeType, Item)> {
    match c
      case Create(user, _, ty, content, id, now) =>
        if id in t.items then Err(Internal)
        else Ok((id, Created, Item(user, ty, content, 1, now, now, None)))
      case Update(user, _, id, expected, content, now) =>
        (match GetItem(t, user, id)
         case None => Err(NotFound)
         case Some(it) =>
           if it.deletedAt.Some? then Err(NotFound)
           else if it.version != expected then Err(Conflict)
           else Ok((id, Updated, WithContent(it, content, now))))
      case Delete(user, _, id, expected, now) =>
        (match GetItem(t, user, id)
         case None => Err(Conflict)
         case Some(it) =>
           if it.version != expected || it.deletedAt.Some? then Err(Conflict)
           else Ok((id, Deleted, Tombstoned(it, now))))
  }

  /** One engine call in its own transaction: new tables and answer; an error leaves the tables alone. */
  function Exec(t: Tables, c: Call): (Tables, Result<Output>) {
    if BlankArguments(c) then (t, Err(InvalidArgument))
    else if (c.user, c.op) in t.processed then (t, Replayed(t, c, t.processed[(c.user, c.op)]))
    else match Target(t, c)
      case Err(e) => (t, Err(e))
      case Ok((id, change, row)) =>
        if Logged(t.log, c.user, c.op) then (t, Err(Internal))
        else (Commit(t, c.user, c.op, id, change, row), Ok(Output(id, row.version, t.nextRev)))
  }

  /** A run: engine calls, and transactions that rolled back after drawing revision numbers. */
  datatype Step = Do(call: Call) | RolledBack(burned: nat)

  function Next(t: Tables, s: Step): Tables {
    match s
    case Do(c) => Exec(t, c).0
    case RolledBack(n) => t.(nextRev := t.nextRev + n)
  }

  function Run(t: Tables, steps: seq<Step>): Tables
    decreases |steps|
  {
    if steps == [] then t else Run(Next(t, steps[0]), steps[1..])
  }

  // ---------------------------------------------------------------- log replay

  datatype Status = Status(version: nat, live: bool)

  /** An independent reader of the log that accepts an entry only where it may legally come next. */
  function Advance(m: map<Id, Status>, e: Entry): Option<map<Id, Status>> {
    if e.change.Created? then
      if e.item !in m && e.version == 1 then Some(m[e.item := Status(1, true)]) else None
    else if e.item in m && m[e.item].live && e.version == m[e.item].version + 1 then
      Some(m[e.item := Status(e.version, e.change.Updated?)])
    else None
  }

  function ReplayLog(log: seq<Entry>): Option<map<Id, Status>>
    decreases |log|
  {
    if log == [] then Some(map[])
    else match ReplayLog(log[..|log| - 1])
         case None => None
         case Some(m) => Advance(m, log[|log| - 1])
  }

  function Summary(items: map<Id, Item>): map<Id, Status> {
    map id | id in items :: Status(items[id].version, items[id].deletedAt.None?)
  }

  /** Every log row has a row of the same user in vault_items and a revision already handed out. */
  ghost predicate LogJoins(t: Tables) {
    && 1 <= t.nextRev
    && forall n | 0 <= n < |t.log| ::
      && t.log[n].item in t.items && t.items[t.log[n].item].user == t.log[n].user
      && 1 <= t.log[n].rev < t.nextRev
  }

  ghost predicate RevisionsIncrease(log: seq<Entry>) {
    forall n, m | 0 <= n < m < |log| :: log[n].rev < log[m].rev
  }

  /** (user, operation) is a key of the log, and processed_operations is exactly its index. */
  ghost predicate ExactlyOnce(t: Tables) {
    && (forall n, m | 0 <= n < m < |t.log| :: (t.log[n].user, t.log[n].op) != (t.log[m].user, t.log[m].op))
    && (forall n | 0 <= n < |t.log| ::
      var k := (t.log[n].user, t.log[n].op);
      k in t.processed && t.processed[k] == Processed(t.log[n].item, t.log[n].rev))
    && (forall k | k in t.processed :: Logged(t.log, k.0, k.1))
  }

  ghost predicate Inv(t: Tables) {
    && ReplayLog(t.log) == Some(Summary(t.items))
    && LogJoins(t)
    && RevisionsIncrease(t.log)
    && ExactlyOnce(t)
  }

  /** What a first execution commits is a legal next log entry for a row of the caller's. */
  lemma TargetIsLegal(t: Tables, c: Call)
    requires Inv(t) && Target(t, c).Ok?
    ensures var (id, change, row) := Target(t, c).value;
            && row.user == c.user && (id in t.items ==> t.items[id].user == c.user)
            && Advance(Summary(t.items), Entry(t.nextRev, c.user, c.op, id, change, row.version))
               == Some(Summary(t.items)[id := Status(row.version, row.deletedAt.None?)])
  {
  }

  lemma CommitKeepsReplay(t: Tables, user: Id, op: Id, id: Id, change: ChangeType, row: Item)
    requires ReplayLog(t.log) == Some(Summary(t.items))
    requires Advance(Summary(t.items), Entry(t.nextRev, user, op, id, change, row.version))
             == Some(Summary(t.items)[id := Status(row.version, row.deletedAt.None?)])
    ensures var t' := Commit(t, user, op, id, change, row); ReplayLog(t'.log) == Some(Summary(t'.items))
  {
    var t' := Commit(t, user, op, id, change, row);
    assert t'.log[..|t'.log| - 1] == t.log;
    assert Summary(t'.items) == Summary(t.items)[id := Status(row.version, row.deletedAt.None?)];
  }

  lemma CommitKeepsExactlyOnce(t: Tables, user: Id, op: Id, id: Id, change: ChangeType, row: Item)
    requires ExactlyOnce(t) && (user, op) !in t.processed
    ensures ExactlyOnce(Commit(t, user, op, id, change, row))
  {
    var t' := Commit(t, user, op, id, change, row);
    forall k | k in t'.processed ensures Logged(t'.log, k.0, k.1) {
      if k in t.processed {
        var n :| 0 <= n < |t.log| && t.log[n].user == k.0 && t.log[n].op == k.1;
        assert t'.log[n] == t.log[n];
      } else {
        assert t'.log[|t.log|].op == k.1;
      }
    }
  }

  lemma CommitKeepsJoins(t: Tables, user: Id, op: Id, id: Id, change: ChangeType, row: Item)
    requires LogJoins(t) && RevisionsIncrease(t.log)
    requires row.user == user && (id in t.items ==> t.items[id].user == user)
    ensures var t' := Commit(t, user, op, id, change, row); LogJoins(t') && RevisionsIncrease(t'.log)
  {
  }

  lemma CommitKeepsInv(t: Tables, c: Call)
    requires Inv(t) && (c.user, c.op) !in t.processed && Target(t, c).Ok?
    ensures var (id, change, row) := Target(t, c).value; Inv(Commit(t, c.user, c.op, id, change, row))
  {
    hide ReplayLog, ExactlyOnce, LogJoins, RevisionsIncrease;
    var (id, change, row) := Target(t, c).value;
    TargetIsLegal(t, c);
    CommitKeepsReplay(t, c.user, c.op, id, change, row);
    CommitKeepsJoins(t, c.user, c.op, id, change, row);
    CommitKeepsExactlyOnce(t, c.user, c.op, id, change, row);
  }

  lemma NextKeepsInv(t: Tables, s: Step)
    requires Inv(t)
    ensures Inv(Next(t, s))
  {
    if s.Do? && !BlankArguments(s.call) && (s.call.user, s.call.op) !in t.processed && Target(t, s.call).Ok? {
      CommitKeepsInv(t, s.call);
    }
  }

  /** Every reachable state satisfies the engine invariant. */
  lemma {:induction false} RunKeepsInv(t: Tables, steps: seq<Step>)
    requires Inv(t)
    ensures Inv(Run(t, steps))
    decreases |steps|
  {
    if steps != [] {
      NextKeepsInv(t, steps[0]);
      RunKeepsInv(Next(t, steps[0]), steps[1..]);
    }
  }
}
