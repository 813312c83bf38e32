/** One device of one user against a shared server: offline edits, a sync split into its server and client steps,
    lost and failed syncs, restarts, and other engine transactions at any moment. */
module SyncProtocol {
  import opened Base
  import opened Vault
  import opened VaultHistory
  import opened Revisions
  import opened Push
  import opened Client
  import opened LocalStorage

  const MAX_EVENTS := 500

  /** Progress of a sync: operations pushed so far, or the response being applied. `snap` is the state of the
      tables the response was read from. */
  datatype Phase =
    | Idle
    | Pushing(k: nat, conflicted: bool)
    | Applying(snap: Tables, events: seq<Event>, maxRev: nat, conflicted: bool, j: nat)

  /** `mem` is the running client's sync state, `disk` the one SaveSync last stored. `unsaved` is history: an edit or
      removal reached the cache, its save failed, and neither a save nor a sync has succeeded since. */
  datatype State = State(t: Tables, cache: Cache, mem: SyncState, disk: SyncState, phase: Phase, unsaved: bool)

  datatype Action =
    | Server(step: Step)                       // any other engine transaction, committed or rolled back
    | Add(draft: Draft, blobId: Id, id: Id, op: Id, saved: bool)
    | Edit(id: Id, draft: Draft, op: Id, saved: bool)
    | Remove(id: Id, op: Id, saved: bool)
    | BeginSync
    | PushNext(env: Env)
    | ReadSnapshot
    | ApplyNext
    | Finish(saved: bool)
    | Abandon                                  // error, timeout, lost response or failed cache write
    | Restart                                  // process restart: LoadSync

  /** A local change: cache, queue, then SaveSync, which may fail. */
  function Save(s: State, cache: Cache, st: SyncState, saved: bool): State {
    if saved then s.(cache := cache, mem := st, disk := st, unsaved := false) else s.(cache := cache, mem := st)
  }

  /** What LoadSync makes of what SaveSync stored; an operation that is not storable comes back without its snapshot
      or without some of its fields. */
  function Reloaded(st: SyncState): SyncState {
    Loaded(Some(st.lastRev), LocalStorage.Rows(st.pending))
  }

  function Act(u: Id, s: State, a: Action): State {
    match a
    case Server(step) => s.(t := Next(s.t, step))
    case Add(d, blobId, id, op, saved) =>
      if !s.phase.Idle? then s else Save(s, s.cache[id := Added(d, blobId)], Queue(s.mem, AddOp(d, id, op)), saved)
    case Edit(id, d, op, saved) =>
      if !s.phase.Idle? || id !in s.cache then s
      else Save(s.(unsaved := true), s.cache[id := Edited(s.cache[id], d)],
                Queue(s.mem, EditOp(s.cache[id], d, id, op)), saved)
    case Remove(id, op, saved) =>
      if !s.phase.Idle? || id !in s.cache then s
      else Save(s.(unsaved := true), s.cache - {id}, Queue(s.mem, RemoveOp(s.cache[id], id, op)), saved)
    case BeginSync => if s.phase.Idle? then s.(phase := Pushing(0, false)) else s
    case PushNext(env) =>
      if !s.phase.Pushing? || s.phase.k >= |s.mem.pending| then s
      else
        var (t', o) := PushOne(s.t, u, s.mem.pending[s.phase.k], env);
        s.(t := t', phase := if o.Failed? then Idle else Pushing(s.phase.k + 1, s.phase.conflicted || o.Conflicted?))
    case ReadSnapshot =>
      if !s.phase.Pushing? || s.phase.k < |s.mem.pending| then s
      else s.(phase := Applying(s.t, List(s.t, u, s.mem.lastRev, MAX_EVENTS), MaxRev(s.t.log, u), s.phase.conflicted,
                                0))
    case ApplyNext =>
      if !s.phase.Applying? || s.phase.j >= |s.phase.events| then s
      else s.(cache := Apply(s.cache, s.phase.events[s.phase.j]), phase := s.phase.(j := s.phase.j + 1))
    case Finish(saved) =>
      if !Finishing(s) then s
      else
        var st := SyncState(s.phase.maxRev, if s.phase.conflicted then s.mem.pending else []);
        s.(mem := st, disk := if saved then st else s.disk, phase := Idle, unsaved := false)
    case Abandon => s.(phase := Idle)
    case Restart => s.(mem := Reloaded(s.disk), phase := Idle, unsaved := false)
  }

  /** All events applied: the next client step completes the sync. */
  predicate Finishing(s: State) {
    s.phase.Applying? && s.phase.j >= |s.phase.events|
  }

  predicate PlainId(id: Id) {
    id != "" && Trim(id) == id
  }

  predicate FreshOp(t: Tables, u: Id, op: Id) {
    (u, Trim(op)) !in t.processed
  }

  /** The environment's side: ids are fresh and plain, a sync meets at most 500 outstanding events, and the client
      does not restart on an unsaved edit. */
  predicate Allowed(u: Id, s: State, a: Action) {
    match a
    case Server(step) => step.Do? && step.call.Create? ==> PlainId(step.call.freshId)
    case PushNext(env) => PlainId(env.freshId)
    case Add(_, _, id, op, _) => id !in s.t.items && FreshOp(s.t, u, op)
    case Edit(_, _, op, _) => FreshOp(s.t, u, op)
    case Remove(_, op, _) => FreshOp(s.t, u, op)
    case ReadSnapshot => |After(s.t.log, u, s.mem.lastRev)| <= MAX_EVENTS
    case Restart => !s.unsaved
    case _ => true
  }

  function Run(u: Id, s: State, actions: seq<Action>): State
    decreases |actions|
  {
    if actions == [] then s else Run(u, Act(u, s, actions[0]), actions[1..])
  }

  predicate AllowedRun(u: Id, s: State, actions: seq<Action>)
    decreases |actions|
  {
    actions == [] || (Allowed(u, s, actions[0]) && AllowedRun(u, Act(u, s, actions[0]), actions[1..]))
  }

  const INIT := State(EMPTY, map[], SyncState(0, []), SyncState(0, []), Idle, false)

  // ---------------------------------------------------------------- invariant

  /** A log row of `id` the client has not been told about. */
  ghost predicate Owed(log: seq<Entry>, rev: nat, id: Id) {
    exists n :: 0 <= n < |log| && log[n].item == id && log[n].rev > rev
  }

  /** A queued edit or removal of `id` against its current version that has not reached the log. */
  ghost predicate Edits(t: Tables, u: Id, p: PendingOp, id: Id)
    requires id in t.items
  {
    && (p.kind.UpdateOp? || p.kind.DeleteOp?) && Trim(p.item) == id && p.expected == t.items[id].version
    && !((u, Trim(p.op)) in t.processed && t.processed[(u, Trim(p.op))].item == id)
  }

  ghost predicate Dirty(t: Tables, u: Id, pending: seq<PendingOp>, from: nat, id: Id)
    requires id in t.items
  {
    t.items[id].deletedAt.None? && exists k :: from <= k < |pending| && Edits(t, u, pending[k], id)
  }

  ghost predicate CoveredItem(t: Tables, u: Id, cache: Cache, st: SyncState, from: nat, id: Id)
    requires id in t.items
  {
    Owed(t.log, st.lastRev, id) || Agrees(cache, id, t.items[id]) || Dirty(t, u, st.pending, from, id)
  }

  /** Every item of the user is right in the cache, or will be corrected by a log row or by pushing. */
  ghost predicate Covered(t: Tables, u: Id, cache: Cache, st: SyncState, from: nat) {
    forall id | id in t.items && t.items[id].user == u :: CoveredItem(t, u, cache, st, from, id)
  }

  ghost predicate EventLeft(events: seq<Event>, j: nat, id: Id) {
    exists i :: j <= i < |events| && events[i].entry.item == id
  }

  ghost predicate DeletedLeft(events: seq<Event>, j: nat, id: Id) {
    exists i :: j <= i < |events| && events[i].entry.item == id && events[i].entry.change.Deleted?
  }

  /** The events from j on leave the cache right about an item: they name it, and it is live or they hold its
      Deleted row; or they do not, and the cache is right already. */
  ghost predicate Right(it: Item, cache: Cache, events: seq<Event>, j: nat, id: Id) {
    if EventLeft(events, j, id) then it.deletedAt.None? || DeletedLeft(events, j, id) else Agrees(cache, id, it)
  }

  ghost predicate Converging(snap: Tables, u: Id, cache: Cache, events: seq<Event>, j: nat) {
    forall id | id in snap.items && snap.items[id].user == u :: Right(snap.items[id], cache, events, j, id)
  }

  ghost predicate PlainIds(t: Tables) {
    forall id | id in t.items :: PlainId(id)
  }

  /** The response was read from `snap`. */
  ghost predicate ReadFrom(s: State, u: Id)
    requires s.phase.Applying?
  {
    var snap := s.phase.snap;
    && Inv(snap) && Grows(snap, s.t)
    && s.phase.events == List(snap, u, s.mem.lastRev, MAX_EVENTS)
    && s.mem.lastRev <= s.phase.maxRev == MaxRev(snap.log, u)
  }

  ghost predicate PhaseOk(s: State, u: Id) {
    match s.phase
    case Idle => true
    case Pushing(k, _) => Covered(s.t, u, s.cache, s.mem, k)
    case Applying(snap, events, _, _, j) => ReadFrom(s, u) && Converging(snap, u, s.cache, events, j)
  }

  ghost predicate SInv(s: State, u: Id) {
    && Inv(s.t) && PlainIds(s.t)
    && s.disk.lastRev <= s.mem.lastRev <= MaxRev(s.t.log, u) < s.t.nextRev
    && Covered(s.t, u, s.cache, s.mem, 0)
    && (!s.unsaved ==> Covered(s.t, u, s.cache, s.disk, 0))
    && PhaseOk(s, u)
  }

  // ---------------------------------------------------------------- server progress

  /** An item without new log rows keeps whatever covered it. */
  lemma SilentItemStays(t: Tables, t': Tables, u: Id, cache: Cache, st: SyncState, from: nat, id: Id)
    requires ExactlyOnce(t) && ExactlyOnce(t') && Grows(t, t') && Untouched(t'.log, |t.log|, id)
    requires id in t.items && id in t'.items && CoveredItem(t, u, cache, st, from, id)
    ensures CoveredItem(t', u, cache, st, from, id)
  {
    assert t'.items[id] == t.items[id] && t.log <= t'.log;
    hide ExactlyOnce, Grows, Agrees, Untouched;
    if Owed(t.log, st.lastRev, id) {
      var n :| 0 <= n < |t.log| && t.log[n].item == id && t.log[n].rev > st.lastRev;
      assert t'.log[n] == t.log[n];
    } else if !Agrees(cache, id, t.items[id]) {
      var k :| from <= k < |st.pending| && Edits(t, u, st.pending[k], id);
      var key := (u, Trim(st.pending[k].op));
      if key in t'.processed && t'.processed[key].item == id { ProcessedStays(t, t', key, id); }
      assert Edits(t', u, st.pending[k], id);
    }
  }

  /** A new processed operation of `id` comes with a new log row of `id`. */
  lemma ProcessedStays(t: Tables, t': Tables, key: (Id, Id), id: Id)
    requires ExactlyOnce(t) && ExactlyOnce(t') && Grows(t, t') && Untouched(t'.log, |t.log|, id)
    requires key in t'.processed && t'.processed[key].item == id
    ensures key in t.processed && t.processed[key].item == id
  {
    assert Logged(t'.log, key.0, key.1);
    var n :| 0 <= n < |t'.log| && t'.log[n].user == key.0 && t'.log[n].op == key.1;
    assert t'.log[n].item == id;
    assert t'.log[n] == t.log[n];
  }

  lemma TouchedIsOwed(t: Tables, t': Tables, rev: nat, id: Id)
    requires Grows(t, t') && rev < t.nextRev && !Untouched(t'.log, |t.log|, id)
    ensures Owed(t'.log, rev, id)
  {
    var n :| |t.log| <= n < |t'.log| && t'.log[n].item == id;
  }

  lemma GrowthKeepsCovered(t: Tables, t': Tables, u: Id, cache: Cache, st: SyncState, from: nat)
    requires Inv(t) && Inv(t') && Grows(t, t') && st.lastRev < t.nextRev && Covered(t, u, cache, st, from)
    ensures Covered(t', u, cache, st, from)
  {
    forall id | id in t'.items && t'.items[id].user == u ensures CoveredItem(t', u, cache, st, from, id) {
      if Untouched(t'.log, |t.log|, id) {
        assert id in t.items && t.items[id].user == u;
        SilentItemStays(t, t', u, cache, st, from, id);
      } else {
        TouchedIsOwed(t, t', st.lastRev, id);
      }
    }
  }

  lemma ServerStep(s: State, u: Id, step: Step)
    requires SInv(s, u) && Allowed(u, s, Server(step))
    ensures SInv(Act(u, s, Server(step)), u)
  {
    var t' := Next(s.t, step);
    NextKeepsInv(s.t, step);
    NextGrows(s.t, step);
    NextKeepsPlain(s.t, step);
    hide Inv, Grows, Covered, Converging, PlainIds, Next;
    GrowsLog(s.t, t');
    MaxRevGrows(s.t.log, t'.log, u);
    assert MaxRev(t'.log, u) < t'.nextRev by { MaxRevHandedOut(t', u); }
    GrowthKeepsCovered(s.t, t', u, s.cache, s.mem, 0);
    if !s.unsaved { GrowthKeepsCovered(s.t, t', u, s.cache, s.disk, 0); }
    if s.phase.Pushing? {
      GrowthKeepsCovered(s.t, t', u, s.cache, s.mem, s.phase.k);
    } else if s.phase.Applying? {
      GrowsTransitive(s.phase.snap, s.t, t');
    }
  }

  lemma MaxRevHandedOut(t: Tables, u: Id)
    requires Inv(t)
    ensures MaxRev(t.log, u) < t.nextRev
  {
    MaxRevBelow(t.log, u, t.nextRev);
  }

  lemma GrowsLog(t: Tables, t': Tables)
    requires Grows(t, t')
    ensures t.log <= t'.log
  {
  }

  lemma NextKeepsPlain(t: Tables, step: Step)
    requires PlainIds(t) && (step.Do? && step.call.Create? ==> PlainId(step.call.freshId))
    ensures PlainIds(Next(t, step))
  {
  }

  // ---------------------------------------------------------------- pushing

  /** Pushing is an engine step, or nothing. */
  lemma PushIsStep(t: Tables, u: Id, p: PendingOp, env: Env)
    ensures PushOne(t, u, p, env).0 == match ToCall(u, p, env) case Err(_) => t case Ok(c) => Next(t, Do(c))
    ensures ToCall(u, p, env).Ok? && ToCall(u, p, env).value.Create? ==> ToCall(u, p, env).value.freshId == env.freshId
  {
  }

  /** Pushing a queued edit of a live item at its current version either fails the batch or logs the item. */
  lemma PushReachesLog(t: Tables, u: Id, p: PendingOp, env: Env, id: Id)
    requires Inv(t) && PlainIds(t) && id in t.items && t.items[id].user == u && t.items[id].deletedAt.None?
    requires Edits(t, u, p, id) && !PushOne(t, u, p, env).1.Failed?
    ensures var t' := PushOne(t, u, p, env).0; |t'.log| == |t.log| + 1 && t'.log[|t.log|].item == id
  {
    var c := ToCall(u, p, env).value;
    assert c.item == id && c.user == u && c.expected == t.items[id].version;
    if (u, c.op) in t.processed {
      ProcessedNamesAnItem(t, (u, c.op));
    } else {
      NotLogged(t, u, c.op);
    }
  }

  lemma NotLogged(t: Tables, u: Id, op: Id)
    requires ExactlyOnce(t) && (u, op) !in t.processed
    ensures !Logged(t.log, u, op)
  {
  }

  lemma ProcessedNamesAnItem(t: Tables, key: (Id, Id))
    requires ExactlyOnce(t) && LogJoins(t) && key in t.processed
    ensures t.processed[key].item in t.items
  {
    assert Logged(t.log, key.0, key.1);
  }

  /** After a successful push the covering edits all lie further down the queue. */
  lemma PushAdvancesCover(t: Tables, u: Id, cache: Cache, st: SyncState, k: nat, env: Env)
    requires Inv(t) && PlainIds(t) && k < |st.pending| && Covered(t, u, cache, st, k) && st.lastRev < t.nextRev
    requires var (t', o) := PushOne(t, u, st.pending[k], env); !o.Failed? && Inv(t') && Grows(t, t')
    ensures Covered(PushOne(t, u, st.pending[k], env).0, u, cache, st, k + 1)
  {
    var t' := PushOne(t, u, st.pending[k], env).0;
    forall id | id in t'.items && t'.items[id].user == u ensures CoveredItem(t', u, cache, st, k + 1, id) {
      if Untouched(t'.log, |t.log|, id) {
        assert id in t.items && t.items[id].user == u;
        NotFromHere(t, u, cache, st, k, env, id);
        SilentItemStays(t, t', u, cache, st, k + 1, id);
      } else {
        TouchedIsOwed(t, t', st.lastRev, id);
      }
    }
  }

  lemma NotFromHere(t: Tables, u: Id, cache: Cache, st: SyncState, k: nat, env: Env, id: Id)
    requires Inv(t) && PlainIds(t) && k < |st.pending| && id in t.items && t.items[id].user == u
    requires CoveredItem(t, u, cache, st, k, id) && !PushOne(t, u, st.pending[k], env).1.Failed?
    requires Untouched(PushOne(t, u, st.pending[k], env).0.log, |t.log|, id)
    ensures CoveredItem(t, u, cache, st, k + 1, id)
  {
    if t.items[id].deletedAt.None? && Edits(t, u, st.pending[k], id) {
      PushReachesLog(t, u, st.pending[k], env, id);
    }
  }

  lemma PushStep(s: State, u: Id, env: Env)
    requires SInv(s, u) && PlainId(env.freshId) && s.phase.Pushing? && s.phase.k < |s.mem.pending|
    ensures SInv(Act(u, s, PushNext(env)), u)
  {
    var p, k := s.mem.pending[s.phase.k], s.phase.k;
    PushIsStep(s.t, u, p, env);
    if ToCall(u, p, env).Ok? {
      var step := Do(ToCall(u, p, env).value);
      hide Next, ToCall;
      ServerStep(s, u, step);
      NextKeepsInv(s.t, step);
      NextGrows(s.t, step);
      hide Inv, Grows, Covered, PlainIds;
      if !PushOne(s.t, u, p, env).1.Failed? {
        hide PushOne;
        PushAdvancesCover(s.t, u, s.cache, s.mem, k, env);
      }
    }
  }

  // ---------------------------------------------------------------- local edits

  /** A cache change at one item, with an operation queued, keeps every other item covered. */
  lemma QueueKeepsCovered(t: Tables, u: Id, cache: Cache, cache': Cache, st: SyncState, p: PendingOp, id: Id)
    requires Covered(t, u, cache, st, 0)
    requires forall x | x != id :: (x in cache' <==> x in cache) && (x in cache ==> cache'[x] == cache[x])
    requires id in t.items && t.items[id].user == u && Agrees(cache, id, t.items[id])
             ==> Agrees(cache', id, t.items[id]) || (t.items[id].deletedAt.None? && Edits(t, u, p, id))
    ensures Covered(t, u, cache', Queue(st, p), 0)
  {
    var st' := Queue(st, p);
    forall x | x in t.items && t.items[x].user == u ensures CoveredItem(t, u, cache', st', 0, x) {
      assert CoveredItem(t, u, cache, st, 0, x);
      assert st'.pending[|st.pending|] == p;
      if Dirty(t, u, st.pending, 0, x) {
        var k :| 0 <= k < |st.pending| && Edits(t, u, st.pending[k], x);
        assert st'.pending[k] == st.pending[k];
      }
    }
  }

  /** A row under an id the server does not know is nobody's. */
  lemma AddKeepsCovered(t: Tables, u: Id, cache: Cache, st: SyncState, id: Id, row: Row)
    requires Covered(t, u, cache, st, 0) && id !in t.items
    ensures Covered(t, u, cache[id := row], st, 0)
  {
    forall x | x in t.items && t.items[x].user == u ensures CoveredItem(t, u, cache[id := row], st, 0, x) {
      assert CoveredItem(t, u, cache, st, 0, x);
    }
  }

  lemma AddStep(s: State, u: Id, d: Draft, blobId: Id, id: Id, op: Id, saved: bool)
    requires SInv(s, u) && s.phase.Idle? && id !in s.t.items
    ensures SInv(Act(u, s, Add(d, blobId, id, op, saved)), u)
  {
    hide Inv, PlainIds, Covered;
    QueueKeepsCovered(s.t, u, s.cache, s.cache[id := Added(d, blobId)], s.mem, AddOp(d, id, op), id);
    if !s.unsaved { AddKeepsCovered(s.t, u, s.cache, s.disk, id, Added(d, blobId)); }
  }

  lemma EditStep(s: State, u: Id, id: Id, d: Draft, op: Id, saved: bool)
    requires SInv(s, u) && s.phase.Idle? && id in s.cache && FreshOp(s.t, u, op)
    ensures SInv(Act(u, s, Edit(id, d, op, saved)), u)
  {
    assert id in s.t.items ==> Trim(id) == id;
    hide Inv, PlainIds, Covered;
    QueueKeepsCovered(s.t, u, s.cache, s.cache[id := Edited(s.cache[id], d)], s.mem, EditOp(s.cache[id], d, id, op),
                      id);
  }

  lemma RemoveStep(s: State, u: Id, id: Id, op: Id, saved: bool)
    requires SInv(s, u) && s.phase.Idle? && id in s.cache && FreshOp(s.t, u, op)
    ensures SInv(Act(u, s, Remove(id, op, saved)), u)
  {
    assert id in s.t.items ==> Trim(id) == id;
    hide Inv, PlainIds, Covered;
    QueueKeepsCovered(s.t, u, s.cache, s.cache - {id}, s.mem, RemoveOp(s.cache[id], id, op), id);
  }

  // ---------------------------------------------------------------- applying a response

  /** Nothing is left to push, so an item the log does not owe is already right. */
  lemma SnapshotStep(s: State, u: Id)
    requires SInv(s, u) && Allowed(u, s, ReadSnapshot) && s.phase.Pushing? && s.phase.k >= |s.mem.pending|
    ensures SInv(Act(u, s, ReadSnapshot), u)
  {
    var events := List(s.t, u, s.mem.lastRev, MAX_EVENTS);
    forall id | id in s.t.items && s.t.items[id].user == u ensures Right(s.t.items[id], s.cache, events, 0, id) {
      assert CoveredItem(s.t, u, s.cache, s.mem, s.phase.k, id);
      OwedIsRight(s.t, u, s.cache, s.mem.lastRev, id);
    }
    GrowsItself(s.t);
  }

  lemma GrowsItself(t: Tables)
    ensures Grows(t, t)
  {
    VaultHistory.RunGrows(t, []);
  }

  /** A log row past `rev` is among the events when they all fit. */
  lemma RowHasEvent(t: Tables, u: Id, rev: nat, n: nat)
    requires LogJoins(t) && |After(t.log, u, rev)| <= MAX_EVENTS && n < |t.log| && t.log[n].rev > rev
    requires t.items[t.log[n].item].user == u
    ensures exists i :: 0 <= i < |List(t, u, rev, MAX_EVENTS)| && List(t, u, rev, MAX_EVENTS)[i].entry == t.log[n]
  {
    AfterComplete(t.log, u, rev, n);
    var i :| 0 <= i < |After(t.log, u, rev)| && After(t.log, u, rev)[i] == t.log[n];
    assert List(t, u, rev, MAX_EVENTS)[i].entry == t.log[n];
  }

  /** With all outstanding events in the response, an owed item comes out right, a tombstone by its Deleted row. */
  lemma OwedIsRight(t: Tables, u: Id, cache: Cache, rev: nat, id: Id)
    requires Inv(t) && |After(t.log, u, rev)| <= MAX_EVENTS && id in t.items && t.items[id].user == u
    requires Owed(t.log, rev, id) || Agrees(cache, id, t.items[id])
    ensures Right(t.items[id], cache, List(t, u, rev, MAX_EVENTS), 0, id)
  {
    var events := List(t, u, rev, MAX_EVENTS);
    if Owed(t.log, rev, id) {
      OwedByLastRow(t, u, rev, id);
    } else if EventLeft(events, 0, id) {
      var i :| 0 <= i < |events| && events[i].entry.item == id;
      var n := EventIsLogRow(t, u, rev, MAX_EVENTS, i);
    }
  }

  lemma OwedByLastRow(t: Tables, u: Id, rev: nat, id: Id)
    requires Inv(t) && |After(t.log, u, rev)| <= MAX_EVENTS && id in t.items && t.items[id].user == u
    requires Owed(t.log, rev, id)
    ensures var events := List(t, u, rev, MAX_EVENTS);
            EventLeft(events, 0, id) && (t.items[id].deletedAt.None? || DeletedLeft(events, 0, id))
  {
    var m :| 0 <= m < |t.log| && t.log[m].item == id && t.log[m].rev > rev;
    var n := LastRowOf(t.log, id);
    hide ExactlyOnce, List, After;
    assert m <= n && t.log[m].rev <= t.log[n].rev;
    LastEntryDecides(t.log, n);
    RowHasEvent(t, u, rev, n);
    var events := List(t, u, rev, MAX_EVENTS);
    hide ReplayLog, RevisionsIncrease, LogJoins;
    var i :| 0 <= i < |events| && events[i].entry == t.log[n];
  }

  /** The i-th event, as a log row joined with its current item. */
  lemma EventIsLogRow(t: Tables, u: Id, rev: nat, limit: nat, i: nat) returns (n: nat)
    requires Inv(t) && i < |List(t, u, rev, limit)|
    ensures var ev := List(t, u, rev, limit)[i];
            && n < |t.log| && ev.entry == t.log[n] && t.log[n].rev > rev && t.log[n].user == u
            && t.log[n].item in t.items && t.items[t.log[n].item].user == u
            && ev.item == Some(t.items[t.log[n].item])
  {
    AfterSound(t.log, u, rev, i);
    n :| 0 <= n < |t.log| && t.log[n] == After(t.log, u, rev)[i];
  }

  lemma EventsIncrease(t: Tables, u: Id, rev: nat, limit: nat, i: nat, k: nat)
    requires RevisionsIncrease(t.log) && i < k < |List(t, u, rev, limit)|
    ensures List(t, u, rev, limit)[i].entry.rev < List(t, u, rev, limit)[k].entry.rev
  {
    AfterIncreases(t.log, u, rev, i, k);
    hide After;
  }

  /** A Deleted event is the last of its item. */
  lemma DeletedEventIsLast(t: Tables, u: Id, rev: nat, limit: nat, i: nat)
    requires Inv(t) && i < |List(t, u, rev, limit)| && List(t, u, rev, limit)[i].entry.change.Deleted?
    ensures !EventLeft(List(t, u, rev, limit), i + 1, List(t, u, rev, limit)[i].entry.item)
    ensures var id := List(t, u, rev, limit)[i].entry.item; id in t.items && t.items[id].deletedAt.Some?
  {
    var events := List(t, u, rev, limit);
    var n := EventIsLogRow(t, u, rev, limit, i);
    DeletedEnds(t.log, n);
    hide ExactlyOnce, LogJoins, ReplayLog;
    forall k | i + 1 <= k < |events| ensures events[k].entry.item != events[i].entry.item {
      EventsIncrease(t, u, rev, limit, i, k);
      var m := EventIsLogRow(t, u, rev, limit, k);
      assert n < m;
    }
  }

  /** Applying one event neither mends nor spoils anything the later events are not already seen to. */
  lemma RightStep(t: Tables, u: Id, cache: Cache, rev: nat, limit: nat, j: nat, id: Id)
    requires Inv(t) && j < |List(t, u, rev, limit)| && id in t.items && t.items[id].user == u
    ensures var events := List(t, u, rev, limit);
            Right(t.items[id], cache, events, j, id) <==> Right(t.items[id], Apply(cache, events[j]), events, j + 1, id)
  {
    var events := List(t, u, rev, limit);
    var n := EventIsLogRow(t, u, rev, limit, j);
    if events[j].entry.change.Deleted? { DeletedEventIsLast(t, u, rev, limit, j); }
    hide List, Inv;
    RightByOne(t.items[id], cache, events, j, id);
  }

  lemma RightByOne(it: Item, cache: Cache, events: seq<Event>, j: nat, id: Id)
    requires j < |events| && events[j].item.Some? && (events[j].entry.item == id ==> events[j].item.value == it)
    requires events[j].entry.item == id && events[j].entry.change.Deleted? ==>
               it.deletedAt.Some? && !EventLeft(events, j + 1, id)
    ensures Right(it, cache, events, j, id) <==> Right(it, Apply(cache, events[j]), events, j + 1, id)
  {
    assert EventLeft(events, j, id) <==> events[j].entry.item == id || EventLeft(events, j + 1, id);
    assert DeletedLeft(events, j, id)
      <==> (events[j].entry.item == id && events[j].entry.change.Deleted?) || DeletedLeft(events, j + 1, id);
    assert DeletedLeft(events, j + 1, id) ==> EventLeft(events, j + 1, id);
    hide EventLeft, DeletedLeft;
  }

  lemma ApplyConverges(t: Tables, u: Id, cache: Cache, rev: nat, limit: nat, j: nat)
    requires Inv(t) && j < |List(t, u, rev, limit)|
    ensures var events := List(t, u, rev, limit);
            Converging(t, u, cache, events, j) <==> Converging(t, u, Apply(cache, events[j]), events, j + 1)
  {
    var events := List(t, u, rev, limit);
    hide Inv, List, Right, Apply;
    forall id | id in t.items && t.items[id].user == u
      ensures Right(t.items[id], cache, events, j, id)
              <==> Right(t.items[id], Apply(cache, events[j]), events, j + 1, id)
    {
      RightStep(t, u, cache, rev, limit, j, id);
    }
  }

  /** With no event left, nothing but the cache decides. */
  lemma ConvergingEnds(t: Tables, u: Id, cache: Cache, events: seq<Event>, j: nat)
    requires j >= |events|
    ensures Converging(t, u, cache, events, j) <==> Converged(t, u, cache)
  {
    assert forall id :: !EventLeft(events, j, id);
  }

  lemma ApplyKeepsCovered(t: Tables, u: Id, cache: Cache, ev: Event, st: SyncState, n: nat)
    requires Covered(t, u, cache, st, 0) && n < |t.log| && t.log[n] == ev.entry && t.log[n].rev > st.lastRev
    ensures Covered(t, u, Apply(cache, ev), st, 0)
  {
    forall id | id in t.items && t.items[id].user == u ensures CoveredItem(t, u, Apply(cache, ev), st, 0, id) {
      assert CoveredItem(t, u, cache, st, 0, id);
      if id == ev.entry.item { assert Owed(t.log, st.lastRev, id); }
    }
  }

  lemma ApplyStep(s: State, u: Id)
    requires SInv(s, u) && s.phase.Applying? && s.phase.j < |s.phase.events|
    ensures SInv(Act(u, s, ApplyNext), u)
  {
    hide Inv, Covered, Converging, Grows, PlainIds, Apply, List, After, MaxRev;
    var snap, ev := s.phase.snap, s.phase.events[s.phase.j];
    var n := EventIsLogRow(snap, u, s.mem.lastRev, MAX_EVENTS, s.phase.j);
    GrowsLog(snap, s.t);
    assert s.t.log[n] == ev.entry;
    ApplyConverges(snap, u, s.cache, s.mem.lastRev, MAX_EVENTS, s.phase.j);
    ApplyKeepsCovered(s.t, u, s.cache, ev, s.mem, n);
    if !s.unsaved { ApplyKeepsCovered(s.t, u, s.cache, ev, s.disk, n); }
  }

  /** The cache is right about every item of the user in the snapshot. */
  ghost predicate Converged(snap: Tables, u: Id, cache: Cache) {
    forall id | id in snap.items && snap.items[id].user == u :: Agrees(cache, id, snap.items[id])
  }

  lemma FinishedIsConverged(s: State, u: Id)
    requires SInv(s, u) && Finishing(s)
    ensures Converged(s.phase.snap, u, s.cache)
  {
    hide Inv, Covered, Grows, PlainIds, List, MaxRev, Converging, Converged;
    ConvergingEnds(s.phase.snap, u, s.cache, s.phase.events, s.phase.j);
  }

  /** Once converged on `snap`, only log rows younger than the snapshot are owed. */
  lemma ConvergedIsCovered(snap: Tables, t: Tables, u: Id, cache: Cache, st: SyncState)
    requires Inv(snap) && Grows(snap, t) && Converged(snap, u, cache) && st.lastRev < snap.nextRev
    ensures Covered(t, u, cache, st, 0)
  {
    forall id | id in t.items && t.items[id].user == u ensures CoveredItem(t, u, cache, st, 0, id) {
      if Untouched(t.log, |snap.log|, id) {
        assert id in snap.items && t.items[id] == snap.items[id];
      } else {
        TouchedIsOwed(snap, t, st.lastRev, id);
      }
    }
  }

  lemma FinishStep(s: State, u: Id, saved: bool)
    requires SInv(s, u) && Finishing(s)
    ensures SInv(Act(u, s, Finish(saved)), u)
  {
    hide Inv, Covered, Converging, Grows, PlainIds, List, After, MaxRev;
    var s', snap := Act(u, s, Finish(saved)), s.phase.snap;
    FinishedIsConverged(s, u);
    MaxRevHandedOut(snap, u);
    GrowsLog(snap, s.t);
    MaxRevGrows(snap.log, s.t.log, u);
    ConvergedIsCovered(snap, s.t, u, s.cache, s'.mem);
    ConvergedIsCovered(snap, s.t, u, s.cache, s'.disk);
  }

  lemma ActKeepsInv(s: State, u: Id, a: Action)
    requires SInv(s, u) && Allowed(u, s, a)
    ensures SInv(Act(u, s, a), u)
  {
    hide SInv;
    match a
    case Server(step) => ServerStep(s, u, step);
    case Add(d, blobId, id, op, saved) => if s.phase.Idle? { AddStep(s, u, d, blobId, id, op, saved); }
    case Edit(id, d, op, saved) => if s.phase.Idle? && id in s.cache { EditStep(s, u, id, d, op, saved); }
    case Remove(id, op, saved) => if s.phase.Idle? && id in s.cache { RemoveStep(s, u, id, op, saved); }
    case PushNext(env) => if s.phase.Pushing? && s.phase.k < |s.mem.pending| { PushStep(s, u, env); }
    case ReadSnapshot => if s.phase.Pushing? && s.phase.k >= |s.mem.pending| { SnapshotStep(s, u); }
    case ApplyNext => if s.phase.Applying? && s.phase.j < |s.phase.events| { ApplyStep(s, u); }
    case Finish(saved) => if Finishing(s) { FinishStep(s, u, saved); }
    case BeginSync => PhaseStep(s, u, a);
    case Abandon => PhaseStep(s, u, a);
    case Restart => RestartStep(s, u);
  }

  /** What covers an item is the kind, item, version and id of a queued operation, and these survive a reload. */
  lemma ReloadKeepsCovered(t: Tables, u: Id, cache: Cache, st: SyncState)
    requires Covered(t, u, cache, st, 0)
    ensures Covered(t, u, cache, Reloaded(st), 0)
  {
    var st' := Reloaded(st);
    assert forall k | 0 <= k < |st.pending| :: SameTarget(st'.pending[k], st.pending[k]);
    forall id | id in t.items && t.items[id].user == u ensures CoveredItem(t, u, cache, st', 0, id) {
      assert CoveredItem(t, u, cache, st, 0, id);
      if Dirty(t, u, st.pending, 0, id) {
        var k :| 0 <= k < |st.pending| && Edits(t, u, st.pending[k], id);
        assert SameTarget(st'.pending[k], st.pending[k]) && Edits(t, u, st'.pending[k], id);
      }
    }
  }

  ghost predicate SameTarget(p: PendingOp, q: PendingOp) {
    p.op == q.op && p.kind == q.kind && p.item == q.item && p.expected == q.expected
  }

  lemma RestartStep(s: State, u: Id)
    requires SInv(s, u) && !s.unsaved
    ensures SInv(Act(u, s, Restart), u)
  {
    ReloadKeepsCovered(s.t, u, s.cache, s.disk);
    hide Inv, Covered, Converging, Grows, PlainIds, MaxRev, ReadFrom;
  }

  lemma PhaseStep(s: State, u: Id, a: Action)
    requires SInv(s, u) && (a.BeginSync? || a.Abandon?)
    ensures SInv(Act(u, s, a), u)
  {
    hide Inv, Covered, Converging, Grows, PlainIds, MaxRev, ReadFrom;
  }

  lemma {:induction false} RunKeepsInv(s: State, u: Id, actions: seq<Action>)
    requires SInv(s, u) && AllowedRun(u, s, actions)
    ensures SInv(Run(u, s, actions), u)
    decreases |actions|
  {
    hide SInv;
    if actions != [] {
      ActKeepsInv(s, u, actions[0]);
      RunKeepsInv(Act(u, s, actions[0]), u, actions[1..]);
    }
  }

  lemma InitIsInv(u: Id)
    ensures SInv(INIT, u)
  {
  }

  // ---------------------------------------------------------------- convergence

  /** Items the server has not changed since the snapshot agree with the server's present rows. */
  ghost predicate StillAgrees(snap: Tables, t: Tables, u: Id, cache: Cache) {
    forall id | id in t.items && t.items[id].user == u
      && Untouched(t.log, |snap.log|, id) :: Agrees(cache, id, t.items[id])
  }

  lemma ConvergedStillAgrees(snap: Tables, t: Tables, u: Id, cache: Cache)
    requires Grows(snap, t) && Converged(snap, u, cache)
    ensures StillAgrees(snap, t, u, cache)
  {
  }

  /** After every successful sync of every allowed run, each item of the user that is live in the snapshot the
      response was read from has a live cache row with the server's version, type, title, metadata and
      payload, and no tombstone has a live cache row. */
  lemma Convergence(u: Id, actions: seq<Action>, saved: bool)
    requires AllowedRun(u, INIT, actions) && Finishing(Run(u, INIT, actions))
    ensures var s := Run(u, INIT, actions);
            var s' := Act(u, s, Finish(saved));
            && s'.phase.Idle? && s'.mem.lastRev == s.phase.maxRev
            && Converged(s.phase.snap, u, s'.cache)
            && StillAgrees(s.phase.snap, s'.t, u, s'.cache)
  {
    hide Inv, Covered, Grows, PlainIds, List, After, MaxRev, Converging, StillAgrees, Run, AllowedRun, Converged;
    InitIsInv(u);
    RunKeepsInv(INIT, u, actions);
    var s := Run(u, INIT, actions);
    FinishedIsConverged(s, u);
    ConvergedStillAgrees(s.phase.snap, s.t, u, s.cache);
  }
}
