/** Engine calls of VaultService run each SQL statement on the bare pool, so the statements of any number of
    calls interleave with each other and with whole transactions of the sync path. */
module Interleaving {
  import opened Base
  import opened Vault

  /** Where a call is between two of its statements. `base` is the version it read. */
  datatype Stage =
    | Start
    | Replaying(p: Processed)
    | Loading
    | Writing(base: nat)
    | Wrote
    | Appended(rev: nat)
    | Done(r: Result<Output>)

  /** `wrote` and `makers` are history: which (item, version) a call produced, and the calls that produced
      versions 1, 2, ... of an item. */
  datatype World = World(t: Tables, req: map<nat, Call>, at: map<nat, Stage>,
                         wrote: map<nat, (Id, nat)>, makers: map<Id, seq<nat>>)

  datatype Action =
    | Begin(cid: nat, call: Call)      // a request arrives
    | Proceed(cid: nat)                // its next statement runs
    | Fail(cid: nat)                   // its next statement fails and the call returns
    | Transact(cid: nat, call: Call)   // a whole engine call of the sync path

  /** The row a Writing call's INSERT or compare-and-set UPDATE stores, if its guard holds. */
  function RowWrite(t: Tables, c: Call, base: nat): Option<(Id, Item)> {
    match c
    case Create(user, _, ty, content, id, now) =>
      if id in t.items then None else Some((id, Item(user, ty, content, 1, now, now, None)))
    case Update(user, _, id, expected, content, now) =>
      if id in t.items && t.items[id].user == user && t.items[id].version == expected && t.items[id].deletedAt.None?
      then Some((id, t.items[id].(content := content, version := base + 1, updatedAt := now))) else None
    case Delete(user, _, id, expected, now) =>
      if id in t.items && t.items[id].user == user && t.items[id].version == expected && t.items[id].deletedAt.None?
      then Some((id, Tombstoned(t.items[id], now))) else None
  }

  function Change(c: Call): ChangeType {
    match c
    case Create(_, _, _, _, _, _) => Created
    case Update(_, _, _, _, _, _) => Updated
    case Delete(_, _, _, _, _) => Deleted
  }

  /** A call's statement that writes no row: Lookup, GetItem, the idempotency mark. */
  function Quiet(t: Tables, c: Call, st: Stage): Stage {
    match st
    case Start =>
      if BlankArguments(c) then Done(Err(InvalidArgument))
      else if (c.user, c.op) in t.processed then Replaying(t.processed[(c.user, c.op)])
      else if c.Update? then Loading
      else Writing(0)
    case Replaying(p) => Done(Replayed(t, c, p))
    case Loading =>
      if !c.Update? then st
      else (match GetItem(t, c.user, c.item)
            case None => Done(Err(NotFound))
            case Some(it) =>
              if it.deletedAt.Some? then Done(Err(NotFound))
              else if it.version != c.expected then Done(Err(Conflict))
              else Writing(it.version))
    case Writing(_) => Done(Err(if c.Create? then Internal else Conflict))
    case _ => st
  }

  /** The producing call of an item's next version. */
  function Grown(makers: map<Id, seq<nat>>, id: Id, cid: nat): map<Id, seq<nat>> {
    makers[id := (if id in makers then makers[id] else []) + [cid]]
  }

  /** Storing a row: tables, history and stage. */
  function Store(w: World, cid: nat, id: Id, row: Item): World {
    w.(t := w.t.(items := w.t.items[id := row]),
       wrote := w.wrote[cid := (id, row.version)],
       makers := Grown(w.makers, id, cid),
       at := w.at[cid := Wrote])
  }

  function Append(w: World, cid: nat, c: Call, k: (Id, nat)): World {
    if Logged(w.t.log, c.user, c.op) then w.(at := w.at[cid := Done(Err(Internal))],
                                             t := w.t.(nextRev := w.t.nextRev + 1))
    else w.(t := w.t.(log := w.t.log + [Entry(w.t.nextRev, c.user, c.op, k.0, Change(c), k.1)],
                      nextRev := w.t.nextRev + 1),
            at := w.at[cid := Appended(w.t.nextRev)])
  }

  function Mark(w: World, cid: nat, c: Call, k: (Id, nat), rev: nat): World {
    w.(t := w.t.(processed := if (c.user, c.op) in w.t.processed then w.t.processed
                              else w.t.processed[(c.user, c.op) := Processed(k.0, rev)]),
       at := w.at[cid := Done(Ok(Output(k.0, k.1, rev)))])
  }

  /** The next statement of call `cid`. */
  function Statement(w: World, cid: nat): World
    requires cid in w.req && cid in w.at
  {
    var c, st := w.req[cid], w.at[cid];
    if st.Writing? && RowWrite(w.t, c, st.base).Some? then
      var (id, row) := RowWrite(w.t, c, st.base).value;
      Store(w, cid, id, row)
    else if st.Wrote? && cid in w.wrote then Append(w, cid, c, w.wrote[cid])
    else if st.Appended? && cid in w.wrote then Mark(w, cid, c, w.wrote[cid], st.rev)
    else w.(at := w.at[cid := Quiet(w.t, c, st)])
  }

  /** A transaction is its row write and everything after it, uninterrupted. */
  function Whole(w: World, cid: nat, c: Call): World {
    var (t', r) := Exec(w.t, c);
    var w1 := w.(req := w.req[cid := c]);
    if t'.log == w.t.log then w1.(at := w.at[cid := Done(r)])
    else
      var id := t'.log[|w.t.log|].item;
      if id !in t'.items then w1 else Store(w1, cid, id, t'.items[id]).(t := t', at := w.at[cid := Done(r)])
  }

  function Act(w: World, a: Action): World {
    match a
    case Begin(cid, c) => if cid in w.req then w else w.(req := w.req[cid := c], at := w.at[cid := Start])
    case Proceed(cid) => if cid in w.req && cid in w.at then Statement(w, cid) else w
    case Fail(cid) =>
      if cid in w.at && !w.at[cid].Done? then w.(at := w.at[cid := Done(Err(Internal))]) else w
    case Transact(cid, c) => if cid in w.req then w else Whole(w, cid, c)
  }

  function Run(w: World, actions: seq<Action>): World
    decreases |actions|
  {
    if actions == [] then w else Run(Act(w, actions[0]), actions[1..])
  }

  const INIT := World(EMPTY, map[], map[], map[], map[])

  // ---------------------------------------------------------------- invariant

  ghost predicate Sized(items: map<Id, Item>, makers: map<Id, seq<nat>>) {
    makers.Keys == items.Keys && forall id | id in makers :: |makers[id]| == items[id].version
  }

  ghost predicate MakersWrote(makers: map<Id, seq<nat>>, wrote: map<nat, (Id, nat)>) {
    forall id, j | id in makers && 0 <= j < |makers[id]| :: makers[id][j] in wrote
      && wrote[makers[id][j]] == (id, j + 1)
  }

  ghost predicate WritersMade(wrote: map<nat, (Id, nat)>, makers: map<Id, seq<nat>>) {
    forall cid | cid in wrote ::
      && wrote[cid].0 in makers && 1 <= wrote[cid].1 <= |makers[wrote[cid].0]|
      && makers[wrote[cid].0][wrote[cid].1 - 1] == cid
  }

  /** The versions of every item and the calls that took effect are in bijection. */
  ghost predicate Credited(items: map<Id, Item>, wrote: map<nat, (Id, nat)>, makers: map<Id, seq<nat>>) {
    Sized(items, makers) && MakersWrote(makers, wrote) && WritersMade(wrote, makers)
  }

  /** The (item, version) a request can produce. */
  function Aim(c: Call): (Id, nat) {
    if c.Create? then (c.freshId, 1) else (c.item, c.expected + 1)
  }

  function Produced(w: World, cid: nat): Option<(Id, nat)> {
    if cid in w.wrote then Some(w.wrote[cid]) else None
  }

  /** What a call's stage says about what it has produced. */
  ghost predicate StageOk(c: Call, st: Stage, k: Option<(Id, nat)>) {
    && (k.Some? ==> k.value == Aim(c))
    && (st.Wrote? || st.Appended? ==> k.Some?)
    && (st.Start? || st.Replaying? || st.Loading? || st.Writing? ==> k.None?)
    && (st.Writing? && c.Update? ==> st.base == c.expected)
    && (st.Done? && st.r.Ok? && k.Some? ==> (st.r.value.item, st.r.value.version) == k.value)
  }

  ghost predicate Staged(w: World) {
    && w.req.Keys == w.at.Keys && w.wrote.Keys <= w.req.Keys
    && forall cid | cid in w.at :: StageOk(w.req[cid], w.at[cid], Produced(w, cid))
  }

  /** The row holds what the producer of its current version asked for; a delete keeps the content of the
      version before it. */
  ghost predicate RowOf(row: Item, req: map<nat, Call>, ms: seq<nat>) {
    && 1 <= |ms| && ms[|ms| - 1] in req
    && var c := req[ms[|ms| - 1]];
    && (row.deletedAt.Some? <==> c.Delete?)
    && (!c.Delete? ==> row.content == c.content)
    && (c.Delete? ==> 2 <= |ms| && ms[|ms| - 2] in req && !req[ms[|ms| - 2]].Delete?
                      && row.content == req[ms[|ms| - 2]].content)
  }

  ghost predicate Rows(w: World) {
    forall id | id in w.t.items :: id in w.makers && RowOf(w.t.items[id], w.req, w.makers[id])
  }

  ghost predicate LogUnique(log: seq<Entry>, items: map<Id, Item>) {
    && (forall n, m | 0 <= n < m < |log| :: (log[n].item, log[n].version) != (log[m].item, log[m].version))
    && (forall n, m | 0 <= n < m < |log| :: (log[n].user, log[n].op) != (log[m].user, log[m].op))
    && (forall n | 0 <= n < |log| :: log[n].item in items && log[n].version <= items[log[n].item].version)
  }

  ghost predicate Unlogged(log: seq<Entry>, k: (Id, nat)) {
    forall n | 0 <= n < |log| :: (log[n].item, log[n].version) != k
  }

  ghost predicate PendingLog(w: World) {
    forall cid | cid in w.at && w.at[cid].Wrote? :: cid in w.wrote && Unlogged(w.t.log, w.wrote[cid])
  }

  ghost predicate Inv(w: World) {
    && Staged(w)
    && Credited(w.t.items, w.wrote, w.makers)
    && Rows(w)
    && LogUnique(w.t.log, w.t.items)
    && PendingLog(w)
  }

  /** A row is written at the next version of its item. */
  ghost predicate NextVersion(w: World, id: Id, row: Item) {
    row.version == if id in w.t.items then w.t.items[id].version + 1 else 1
  }

  lemma GrownWrote(makers: map<Id, seq<nat>>, wrote: map<nat, (Id, nat)>, id: Id, cid: nat)
    requires MakersWrote(makers, wrote) && cid !in wrote
    ensures MakersWrote(Grown(makers, id, cid), wrote[cid := (id, |Grown(makers, id, cid)[id]|)])
  {
  }

  lemma GrownMade(makers: map<Id, seq<nat>>, wrote: map<nat, (Id, nat)>, id: Id, cid: nat)
    requires WritersMade(wrote, makers) && cid !in wrote
    ensures WritersMade(wrote[cid := (id, |Grown(makers, id, cid)[id]|)], Grown(makers, id, cid))
  {
  }

  lemma StoreKeepsCredit(w: World, cid: nat, id: Id, row: Item)
    requires Credited(w.t.items, w.wrote, w.makers) && cid !in w.wrote && NextVersion(w, id, row)
    ensures var w' := Store(w, cid, id, row); Credited(w'.t.items, w'.wrote, w'.makers)
  {
    hide MakersWrote, WritersMade;
    GrownWrote(w.makers, w.wrote, id, cid);
    GrownMade(w.makers, w.wrote, id, cid);
  }

  /** `row` is the next version of `id`, with the content and liveness call `c` asks for. */
  ghost predicate IsStore(w: World, c: Call, id: Id, row: Item) {
    && NextVersion(w, id, row) && (id, row.version) == Aim(c)
    && (row.deletedAt.Some? <==> c.Delete?)
    && (if c.Delete? then id in w.t.items && w.t.items[id].deletedAt.None? && row.content == w.t.items[id].content
        else row.content == c.content)
  }

  lemma StoreKeepsRows(w: World, cid: nat, id: Id, row: Item)
    requires Rows(w) && Credited(w.t.items, w.wrote, w.makers) && cid in w.req && IsStore(w, w.req[cid], id, row)
    ensures Rows(Store(w, cid, id, row))
  {
    var w' := Store(w, cid, id, row);
    assert w.makers.Keys == w.t.items.Keys;
    hide Credited;
    forall x | x in w'.t.items ensures x in w'.makers && RowOf(w'.t.items[x], w'.req, w'.makers[x]) {
      assert x in w.t.items ==> RowOf(w.t.items[x], w.req, w.makers[x]);
    }
  }

  lemma StoreKeepsLog(w: World, cid: nat, id: Id, row: Item)
    requires LogUnique(w.t.log, w.t.items) && PendingLog(w) && NextVersion(w, id, row) && cid !in w.wrote
    ensures var w' := Store(w, cid, id, row);
            LogUnique(w'.t.log, w'.t.items) && PendingLog(w') && Unlogged(w'.t.log, (id, row.version))
  {
  }

  lemma StoreKeepsStaged(w: World, cid: nat, id: Id, row: Item)
    requires Staged(w) && cid in w.req && (id, row.version) == Aim(w.req[cid])
    ensures Staged(Store(w, cid, id, row))
  {
  }

  /** The row-writing statement writes the next version, at what the request aims. */
  lemma RowWriteIsStore(w: World, cid: nat)
    requires Staged(w) && cid in w.at && w.at[cid].Writing? && RowWrite(w.t, w.req[cid], w.at[cid].base).Some?
    ensures var (id, row) := RowWrite(w.t, w.req[cid], w.at[cid].base).value; IsStore(w, w.req[cid], id, row)
    ensures cid !in w.wrote
  {
    assert StageOk(w.req[cid], w.at[cid], Produced(w, cid));
  }

  lemma WriteStep(w: World, cid: nat)
    requires Inv(w) && cid in w.at && w.at[cid].Writing? && RowWrite(w.t, w.req[cid], w.at[cid].base).Some?
    ensures Inv(Statement(w, cid))
  {
    hide Credited, Rows, LogUnique, PendingLog;
    var (id, row) := RowWrite(w.t, w.req[cid], w.at[cid].base).value;
    RowWriteIsStore(w, cid);
    StoreKeepsStaged(w, cid, id, row);
    StoreKeepsCredit(w, cid, id, row);
    StoreKeepsRows(w, cid, id, row);
    StoreKeepsLog(w, cid, id, row);
  }

  lemma DistinctMakers(w: World, c1: nat, c2: nat)
    requires Credited(w.t.items, w.wrote, w.makers) && c1 in w.wrote && c2 in w.wrote && c1 != c2
    ensures w.wrote[c1] != w.wrote[c2]
  {
  }

  lemma AppendKeepsLog(w: World, cid: nat)
    requires LogUnique(w.t.log, w.t.items) && PendingLog(w) && Credited(w.t.items, w.wrote, w.makers)
    requires cid in w.at && cid in w.req && w.at[cid].Wrote? && w.at.Keys == w.req.Keys
    ensures var w' := Append(w, cid, w.req[cid], w.wrote[cid]); LogUnique(w'.t.log, w'.t.items) && PendingLog(w')
  {
    var w' := Append(w, cid, w.req[cid], w.wrote[cid]);
    assert w.wrote[cid].0 in w.t.items && w.wrote[cid].1 <= w.t.items[w.wrote[cid].0].version;
    hide Credited;
    forall x | x in w'.at && w'.at[x].Wrote? ensures x in w'.wrote && Unlogged(w'.t.log, w'.wrote[x]) {
      DistinctMakers(w, x, cid);
    }
  }

  lemma AppendStep(w: World, cid: nat)
    requires Inv(w) && cid in w.at && w.at[cid].Wrote?
    ensures Inv(Statement(w, cid))
  {
    hide Credited, Rows, LogUnique, PendingLog;
    AppendKeepsLog(w, cid);
    assert Rows(Statement(w, cid)) by { SameRows(w, Statement(w, cid)); }
  }

  lemma SameRows(w: World, w': World)
    requires Rows(w) && w'.t.items == w.t.items && w'.makers == w.makers
    requires forall cid | cid in w.req :: cid in w'.req && w'.req[cid] == w.req[cid]
    ensures Rows(w')
  {
    forall id | id in w'.t.items ensures id in w'.makers && RowOf(w'.t.items[id], w'.req, w'.makers[id]) {
      assert RowOf(w.t.items[id], w.req, w.makers[id]);
    }
  }

  /** What a transaction commits is a row write at the next version of the item it aims at. */
  lemma TargetIsStore(w: World, c: Call)
    requires Target(w.t, c).Ok?
    ensures var (id, change, row) := Target(w.t, c).value;
            IsStore(w, c, id, row)
  {
  }

  lemma CommitKeepsLog(w: World, c: Call, id: Id, change: ChangeType, row: Item)
    requires LogUnique(w.t.log, w.t.items) && NextVersion(w, id, row) && !Logged(w.t.log, c.user, c.op)
    ensures var t' := Commit(w.t, c.user, c.op, id, change, row); LogUnique(t'.log, t'.items)
  {
  }

  lemma CommitKeepsPending(w: World, cid: nat, c: Call, id: Id, change: ChangeType, row: Item)
    requires PendingLog(w) && Credited(w.t.items, w.wrote, w.makers) && NextVersion(w, id, row) && cid !in w.wrote
    ensures var t' := Commit(w.t, c.user, c.op, id, change, row);
            var w' := Whole(w, cid, c); w'.t == t' ==> PendingLog(w')
  {
    var t' := Commit(w.t, c.user, c.op, id, change, row);
    forall x | x in w.at && w.at[x].Wrote? ensures Unlogged(t'.log, w.wrote[x]) {
      assert w.wrote[x] != (id, row.version);
    }
  }

  lemma WholeEffect(w: World, cid: nat, c: Call)
    requires Inv(w) && cid !in w.req && Exec(w.t, c).0.log != w.t.log
    ensures Inv(Whole(w, cid, c))
  {
    hide Credited, Rows, LogUnique, PendingLog, Staged;
    var w1 := w.(req := w.req[cid := c]);
    var (id, change, row) := Target(w.t, c).value;
    TargetIsStore(w1, c);
    assert cid !in w.wrote && cid !in w.at by { StagedDomain(w, cid); }
    SameRows(w, w1);
    StoreKeepsCredit(w1, cid, id, row);
    StoreKeepsRows(w1, cid, id, row);
    SameRows(Store(w1, cid, id, row), Whole(w, cid, c));
    CommitKeepsLog(w, c, id, change, row);
    CommitKeepsPending(w, cid, c, id, change, row);
    WholeKeepsStaged(w, cid, c, id, row);
  }

  lemma StagedDomain(w: World, cid: nat)
    requires Staged(w) && cid !in w.req
    ensures cid !in w.wrote && cid !in w.at
  {
  }

  lemma WholeKeepsStaged(w: World, cid: nat, c: Call, id: Id, row: Item)
    requires Staged(w) && cid !in w.req && (id, row.version) == Aim(c)
    requires Exec(w.t, c).0.log != w.t.log && Target(w.t, c).Ok? && Target(w.t, c).value.0 == id
             && Target(w.t, c).value.2 == row
    ensures Staged(Whole(w, cid, c))
  {
  }

  /** Statements that write no row and no log entry. */
  lemma QuietStep(w: World, w': World)
    requires Inv(w) && w'.t.items == w.t.items && w'.t.log == w.t.log && w'.wrote == w.wrote && w'.makers == w.makers
    requires forall cid | cid in w.req :: cid in w'.req && w'.req[cid] == w.req[cid]
    requires Staged(w')
    requires forall cid | cid in w'.at && w'.at[cid].Wrote? :: cid in w.at && w.at[cid].Wrote?
    ensures Inv(w')
  {
    hide Credited, Rows, LogUnique, Staged;
    SameRows(w, w');
  }

  /** Every action that is not a row write, a log append or a committing transaction is quiet. */
  ghost predicate Loud(w: World, a: Action) {
    || (a.Transact? && a.cid !in w.req && Exec(w.t, a.call).0.log != w.t.log)
    || (a.Proceed? && a.cid in w.at && w.at[a.cid].Wrote?)
    || (a.Proceed? && a.cid in w.at && a.cid in w.req && w.at[a.cid].Writing?
        && RowWrite(w.t, w.req[a.cid], w.at[a.cid].base).Some?)
  }

  lemma QuietKeepsStaged(w: World, a: Action)
    requires Staged(w) && !Loud(w, a)
    ensures Staged(Act(w, a))
  {
  }

  lemma QuietKeepsTables(w: World, a: Action)
    requires Staged(w) && !Loud(w, a)
    ensures var w' := Act(w, a);
            && w'.t.items == w.t.items && w'.t.log == w.t.log && w'.wrote == w.wrote && w'.makers == w.makers
            && (forall cid | cid in w.req :: cid in w'.req && w'.req[cid] == w.req[cid])
            && (forall cid | cid in w'.at && w'.at[cid].Wrote? :: cid in w.at && w.at[cid].Wrote?)
  {
    if a.Transact? && a.cid !in w.req { ExecWithoutLog(w.t, a.call); }
  }

  lemma ExecWithoutLog(t: Tables, c: Call)
    requires Exec(t, c).0.log == t.log
    ensures Exec(t, c).0 == t
  {
  }

  lemma ActKeepsInv(w: World, a: Action)
    requires Inv(w)
    ensures Inv(Act(w, a))
  {
    hide Credited, Rows, LogUnique, PendingLog, Staged;
    if !Loud(w, a) {
      QuietKeepsStaged(w, a);
      QuietKeepsTables(w, a);
      QuietStep(w, Act(w, a));
    } else if a.Transact? {
      WholeEffect(w, a.cid, a.call);
    } else if w.at[a.cid].Wrote? {
      SameKeys(w);
      AppendStep(w, a.cid);
    } else {
      WriteStep(w, a.cid);
    }
  }

  lemma SameKeys(w: World)
    requires Staged(w)
    ensures w.req.Keys == w.at.Keys
  {
  }

  lemma {:induction false} RunKeepsInv(w: World, actions: seq<Action>)
    requires Inv(w)
    ensures Inv(Run(w, actions))
    decreases |actions|
  {
    hide Inv;
    if actions != [] {
      ActKeepsInv(w, actions[0]);
      RunKeepsInv(Act(w, actions[0]), actions[1..]);
    }
  }

  // ---------------------------------------------------------------- theorems

  /** Of two mutations of one item that name the same expected version, at most one takes effect. */
  lemma NoLostUpdate(actions: seq<Action>, c1: nat, c2: nat)
    requires var w := Run(INIT, actions);
             && c1 in w.req && c2 in w.req && c1 != c2
             && !w.req[c1].Create? && !w.req[c2].Create?
             && w.req[c1].item == w.req[c2].item && w.req[c1].expected == w.req[c2].expected
    ensures var w := Run(INIT, actions); !(c1 in w.wrote && c2 in w.wrote)
  {
    hide Credited, Rows, LogUnique, PendingLog, Staged;
    RunKeepsInv(INIT, actions) by { InitIsInv(); }
    var w := Run(INIT, actions);
    if c1 in w.wrote && c2 in w.wrote {
      DistinctMakers(w, c1, c2);
      WroteIsAim(w, c1);
      WroteIsAim(w, c2);
    }
  }

  lemma InitIsInv()
    ensures Inv(INIT)
  {
  }

  lemma WroteIsAim(w: World, cid: nat)
    requires Staged(w) && cid in w.wrote
    ensures cid in w.req && w.wrote[cid] == Aim(w.req[cid])
  {
  }

  ghost predicate CountsWriters(w: World, id: Id, ms: seq<nat>) {
    && (forall j, k | 0 <= j < k < |ms| :: ms[j] != ms[k])
    && (forall cid | cid in w.wrote :: w.wrote[cid].0 == id <==> cid in ms)
    && (forall j | 0 <= j < |ms| :: ms[j] in w.wrote && w.wrote[ms[j]] == (id, j + 1))
  }

  lemma MakersCount(w: World, id: Id)
    requires Credited(w.t.items, w.wrote, w.makers) && id in w.t.items
    ensures id in w.makers && |w.makers[id]| == w.t.items[id].version && CountsWriters(w, id, w.makers[id])
  {
    forall j, k | 0 <= j < k < |w.makers[id]| ensures w.makers[id][j] != w.makers[id][k] {
      assert w.wrote[w.makers[id][j]] == (id, j + 1);
      assert w.wrote[w.makers[id][k]] == (id, k + 1);
    }
  }

  /** Conservation: an item's version is the number of calls that took effect on it, each exactly once and
      each raising the version by one. */
  lemma VersionCountsWriters(actions: seq<Action>, id: Id)
    requires id in Run(INIT, actions).t.items
    ensures var w := Run(INIT, actions);
            id in w.makers && |w.makers[id]| == w.t.items[id].version && CountsWriters(w, id, w.makers[id])
  {
    hide Credited, Rows, LogUnique, PendingLog, Staged, CountsWriters;
    RunKeepsInv(INIT, actions) by { InitIsInv(); }
    MakersCount(Run(INIT, actions), id);
  }

  /** The row always holds the content of the call that produced its current version, and is a tombstone
      exactly when that call was a delete. */
  lemma RowIsItsMakers(actions: seq<Action>, id: Id)
    requires id in Run(INIT, actions).t.items
    ensures var w := Run(INIT, actions);
            id in w.makers && RowOf(w.t.items[id], w.req, w.makers[id])
  {
    hide Credited, LogUnique, PendingLog, Staged, RowOf;
    RunKeepsInv(INIT, actions) by { InitIsInv(); }
  }

  /** The log has at most one row per (item, version) and per (user, operation), none ahead of its item. */
  lemma LogStaysUnique(actions: seq<Action>)
    ensures var w := Run(INIT, actions); LogUnique(w.t.log, w.t.items)
  {
    hide Credited, Rows, PendingLog, Staged, LogUnique;
    RunKeepsInv(INIT, actions) by { InitIsInv(); }
  }

  /** A call that took effect and was answered Ok reports the item and version it produced, which is the one
      its request named. */
  lemma AnswersReportTheWrite(actions: seq<Action>, cid: nat)
    requires var w := Run(INIT, actions); cid in w.at && w.at[cid].Done? && w.at[cid].r.Ok? && cid in w.wrote
    ensures var w := Run(INIT, actions);
            cid in w.req && (w.at[cid].r.value.item, w.at[cid].r.value.version) == w.wrote[cid] == Aim(w.req[cid])
  {
    hide Credited, Rows, LogUnique, PendingLog;
    RunKeepsInv(INIT, actions) by { InitIsInv(); }
  }
}
