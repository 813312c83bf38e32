/** A sync whose snapshot is read while calls of the VaultService path are under way. */
module PoolSync {
  import opened Base
  import opened Vault
  import opened VaultHistory
  import opened Revisions
  import opened Client
  import opened SyncProtocol
  import opened PoolPath
  import Interleaving

  /** The last of the events from j on that names `id` is a deletion. */
  ghost predicate LastDeleted(events: seq<Event>, j: nat, id: Id) {
    exists i :: j <= i < |events| && events[i].entry.item == id && events[i].entry.change.Deleted?
                && !EventLeft(events, i + 1, id)
  }

  /** The events from j on leave the cache right about an item: they name it, and the last that does is a deletion
      exactly if the item is a tombstone; or they do not, and the cache is right already. */
  ghost predicate Fits(it: Item, cache: Cache, events: seq<Event>, j: nat, id: Id) {
    if EventLeft(events, j, id) then LastDeleted(events, j, id) <==> it.deletedAt.Some? else Agrees(cache, id, it)
  }

  lemma FitsByOne(it: Item, cache: Cache, events: seq<Event>, j: nat, id: Id)
    requires j < |events| && events[j].item.Some? && (events[j].entry.item == id ==> events[j].item.value == it)
    ensures Fits(it, cache, events, j, id) <==> Fits(it, Apply(cache, events[j]), events, j + 1, id)
  {
    assert EventLeft(events, j, id) <==> events[j].entry.item == id || EventLeft(events, j + 1, id);
    assert LastDeleted(events, j + 1, id) ==> EventLeft(events, j + 1, id);
    assert LastDeleted(events, j, id) <==>
           || LastDeleted(events, j + 1, id)
           || (events[j].entry.item == id && events[j].entry.change.Deleted? && !EventLeft(events, j + 1, id));
    hide EventLeft, LastDeleted;
  }

  ghost predicate AllFit(t: Tables, u: Id, cache: Cache, events: seq<Event>, j: nat) {
    forall id | id in t.items && t.items[id].user == u :: Fits(t.items[id], cache, events, j, id)
  }

  /** An event read from tables whose log rows join carries the current row. */
  lemma EventJoins(t: Tables, u: Id, rev: nat, limit: nat, i: nat)
    requires LogOwned(t) && i < |List(t, u, rev, limit)|
    ensures var ev := List(t, u, rev, limit)[i];
            ev.entry.item in t.items && ev.item == Some(t.items[ev.entry.item])
  {
    AfterSound(t.log, u, rev, i);
    var n :| 0 <= n < |t.log| && t.log[n] == After(t.log, u, rev)[i];
    assert Owned(t, t.log[n].item, t.log[n].user);
    hide After;
  }

  lemma AllFitByOne(t: Tables, u: Id, cache: Cache, rev: nat, limit: nat, j: nat)
    requires LogOwned(t) && j < |List(t, u, rev, limit)|
    ensures var events := List(t, u, rev, limit);
            AllFit(t, u, cache, events, j) <==> AllFit(t, u, Apply(cache, events[j]), events, j + 1)
  {
    var events := List(t, u, rev, limit);
    EventJoins(t, u, rev, limit, j);
    hide LogOwned, List, Fits, Apply;
    forall id | id in t.items && t.items[id].user == u
      ensures Fits(t.items[id], cache, events, j, id) <==> Fits(t.items[id], Apply(cache, events[j]), events, j + 1, id)
    {
      FitsByOne(t.items[id], cache, events, j, id);
    }
  }

  lemma {:induction false} AllFitAlong(t: Tables, u: Id, cache: Cache, rev: nat, limit: nat, j: nat)
    requires LogOwned(t) && j <= |List(t, u, rev, limit)|
    ensures var events := List(t, u, rev, limit);
            AllFit(t, u, cache, events, 0) <==> AllFit(t, u, ApplyAll(cache, events[..j]), events, j)
    decreases j
  {
    var events := List(t, u, rev, limit);
    hide LogOwned, List, AllFit, Apply;
    if j > 0 {
      AllFitAlong(t, u, cache, rev, limit, j - 1);
      AllFitByOne(t, u, ApplyAll(cache, events[..j - 1]), rev, limit, j - 1);
      assert events[..j][..j - 1] == events[..j - 1];
    }
  }

  lemma AllFitEnds(t: Tables, u: Id, cache: Cache, events: seq<Event>)
    ensures AllFit(t, u, cache, events, |events|) <==> Converged(t, u, cache)
  {
    assert forall id :: !EventLeft(events, |events|, id);
  }

  /** For any tables whose log rows join to items of their user, any cache, revision and limit. */
  lemma AnyReplayConvergesIff(t: Tables, u: Id, cache: Cache, rev: nat, limit: nat)
    requires LogOwned(t)
    ensures Converged(t, u, ApplyAll(cache, List(t, u, rev, limit))) <==> AllFit(t, u, cache, List(t, u, rev, limit), 0)
  {
    var events := List(t, u, rev, limit);
    hide LogOwned, List, Converged, AllFit, ApplyAll;
    assert events[..|events|] == events;
    AllFitAlong(t, u, cache, rev, limit, |events|);
    AllFitEnds(t, u, ApplyAll(cache, events), events);
  }

  /** A sync that reads its snapshot at any moment of any interleaving of statements, with calls caught between their
      row write and their log append, leaves the cache right about that snapshot if and only if every item fits. */
  lemma PoolSyncConvergesIff(actions: seq<Interleaving.Action>, u: Id, cache: Cache, rev: nat, limit: nat)
    ensures var t := Interleaving.Run(Interleaving.INIT, actions).t;
            Converged(t, u, ApplyAll(cache, List(t, u, rev, limit))) <==> AllFit(t, u, cache, List(t, u, rev, limit), 0)
  {
    ReachableSeen(actions);
    var w := Interleaving.Run(Interleaving.INIT, actions);
    SeenLog(w);
    hide Interleaving.Run, Seen, Interleaving.Inv, LogOwned;
    AnyReplayConvergesIff(w.t, u, cache, rev, limit);
  }

  // ---------------------------------------------------------------- a call overtaken on its way to the log

  /** Update `a` has written version v of `id` and not logged it; delete `b` of version v is about to write. */
  ghost predicate Overtaking(w: Interleaving.World, a: nat, b: nat, id: Id, v: nat) {
    && a != b && a in w.req && a in w.at && w.at[a] == Interleaving.Wrote && a in w.wrote && w.wrote[a] == (id, v)
    && w.req[a].Update? && !Logged(w.t.log, w.req[a].user, w.req[a].op)
    && b in w.req && b in w.at && w.at[b] == Interleaving.Writing(0)
    && w.req[b].Delete? && w.req[b].item == id && w.req[b].expected == v
    && !Logged(w.t.log, w.req[b].user, w.req[b].op) && w.req[a].user == w.req[b].user && w.req[a].op != w.req[b].op
    && Owned(w.t, id, w.req[b].user) && w.t.items[id].version == v && w.t.items[id].deletedAt.None?
  }

  lemma OvertakenLog(w: Interleaving.World, a: nat, b: nat, id: Id, v: nat)
    requires Overtaking(w, a, b, id, v)
    ensures var w1 := Interleaving.Act(w, Interleaving.Proceed(b));
            var w2 := Interleaving.Act(w1, Interleaving.Proceed(b));
            var w3 := Interleaving.Act(w2, Interleaving.Proceed(a));
            && w3.t.log == w.t.log + [Entry(w.t.nextRev, w.req[b].user, w.req[b].op, id, Deleted, v + 1)]
                           + [Entry(w.t.nextRev + 1, w.req[a].user, w.req[a].op, id, Updated, v)]
            && id in w3.t.items && w3.t.items[id].user == w.req[b].user && w3.t.items[id].deletedAt.Some?
  {
    var cb, ca := w.req[b], w.req[a];
    var w1 := Interleaving.Act(w, Interleaving.Proceed(b));
    assert w1 == Interleaving.Store(w, b, id, Tombstoned(w.t.items[id], cb.now)) by { hide Logged; }
    var e := Entry(w.t.nextRev, cb.user, cb.op, id, Deleted, v + 1);
    var w2 := Interleaving.Act(w1, Interleaving.Proceed(b));
    assert w2 == Interleaving.Append(w1, b, cb, (id, v + 1)) by { hide Logged; }
    assert w2.t.log == w.t.log + [e] && w2.t.nextRev == w.t.nextRev + 1;
    assert !Logged(w2.t.log, ca.user, ca.op) by { LoggedPush(w.t.log, e, ca.user, ca.op); }
    hide Logged;
    var w3 := Interleaving.Act(w2, Interleaving.Proceed(a));
    assert w3 == Interleaving.Append(w2, a, ca, (id, v));
  }

  lemma LoggedPush(log: seq<Entry>, e: Entry, user: Id, op: Id)
    ensures Logged(log + [e], user, op) <==> Logged(log, user, op) || (e.user == user && e.op == op)
  {
    if Logged(log, user, op) {
      var n :| 0 <= n < |log| && log[n].user == user && log[n].op == op;
      assert (log + [e])[n] == log[n];
    }
    if e.user == user && e.op == op { assert (log + [e])[|log|] == e; }
  }

  lemma AfterPush(log: seq<Entry>, e: Entry, u: Id, rev: nat)
    requires e.user == u && e.rev > rev
    ensures After(log + [e], u, rev) == After(log, u, rev) + [e]
  {
    assert (log + [e])[..|log|] == log;
  }

  lemma OvertakenSeen(w: Interleaving.World, a: nat, b: nat)
    requires Seen(w) && Interleaving.Inv(w)
    ensures var w1 := Interleaving.Act(w, Interleaving.Proceed(b));
            var w2 := Interleaving.Act(w1, Interleaving.Proceed(b));
            LogOwned(Interleaving.Act(w2, Interleaving.Proceed(a)).t)
  {
    hide Seen, Interleaving.Inv, Interleaving.Act, LogOwned;
    var w1 := Interleaving.Act(w, Interleaving.Proceed(b));
    var w2 := Interleaving.Act(w1, Interleaving.Proceed(b));
    StepSeen(w, Interleaving.Proceed(b));
    StepSeen(w1, Interleaving.Proceed(b));
    StepSeen(w2, Interleaving.Proceed(a));
    SeenLog(Interleaving.Act(w2, Interleaving.Proceed(a)));
  }

  lemma StepSeen(w: Interleaving.World, a: Interleaving.Action)
    requires Seen(w) && Interleaving.Inv(w)
    ensures Seen(Interleaving.Act(w, a)) && Interleaving.Inv(Interleaving.Act(w, a))
  {
    assert Interleaving.Staged(w);
    hide Seen, Interleaving.Inv, Interleaving.Act, Interleaving.Staged;
    ActSeen(w, a);
    Interleaving.ActKeepsInv(w, a);
  }

  /** The tombstone comes out as a live row: its last event is the update that was overtaken on its way to the log. A
      sync that reads both rows ends wrong, whatever the cache, and the log owes it nothing more. */
  lemma OvertakenDiverges(w: Interleaving.World, a: nat, b: nat, id: Id, v: nat, cache: Cache, rev: nat)
    requires Seen(w) && Interleaving.Inv(w) && Overtaking(w, a, b, id, v) && rev < w.t.nextRev
    ensures var w1 := Interleaving.Act(w, Interleaving.Proceed(b));
            var w2 := Interleaving.Act(w1, Interleaving.Proceed(b));
            var t, u := Interleaving.Act(w2, Interleaving.Proceed(a)).t, w.req[b].user;
            !Converged(t, u, ApplyAll(cache, List(t, u, rev, |After(t.log, u, rev)|)))
  {
    var u, opA, opB := w.req[b].user, w.req[a].op, w.req[b].op;
    assert w.req[a].user == u;
    hide Interleaving.Act, Seen, Interleaving.Inv, Overtaking, LogOwned, Converged, ApplyAll, List, After;
    var w1 := Interleaving.Act(w, Interleaving.Proceed(b));
    var w2 := Interleaving.Act(w1, Interleaving.Proceed(b));
    var w3 := Interleaving.Act(w2, Interleaving.Proceed(a));
    OvertakenLog(w, a, b, id, v);
    OvertakenSeen(w, a, b);
    var e1 := Entry(w.t.nextRev, u, opB, id, Deleted, v + 1);
    var e2 := Entry(w.t.nextRev + 1, u, opA, id, Updated, v);
    AfterPush(w.t.log, e1, u, rev);
    AfterPush(w.t.log + [e1], e2, u, rev);
    LastUpdateMisleads(w3.t, u, cache, rev, id);
  }

  /** A tombstone whose last outstanding row is no deletion does not fit. */
  lemma LastUpdateMisleads(t: Tables, u: Id, cache: Cache, rev: nat, id: Id)
    requires LogOwned(t) && Owned(t, id, u) && t.items[id].deletedAt.Some?
    requires var rows := After(t.log, u, rev);
             rows != [] && rows[|rows| - 1].item == id && !rows[|rows| - 1].change.Deleted?
    ensures !Converged(t, u, ApplyAll(cache, List(t, u, rev, |After(t.log, u, rev)|)))
  {
    var rows := After(t.log, u, rev);
    var events := List(t, u, rev, |rows|);
    assert |events| == |rows| && events[|rows| - 1].entry == rows[|rows| - 1];
    hide After, List, LogOwned;
    assert EventLeft(events, 0, id) && !LastDeleted(events, 0, id) by {
      forall j: nat | j < |events| ensures EventLeft(events, j, id) {
        assert events[|events| - 1].entry.item == id;
      }
    }
    assert !Fits(t.items[id], cache, events, 0, id);
    AnyReplayConvergesIff(t, u, cache, rev, |rows|);
  }

  /** A new call may begin under `cid`: its operation is known to no table. */
  ghost predicate Fresh(w: Interleaving.World, cid: nat, c: Call) {
    && cid !in w.req && !BlankArguments(c) && (c.user, c.op) !in w.t.processed && !Logged(w.t.log, c.user, c.op)
  }

  ghost predicate At(w: Interleaving.World, cid: nat, c: Call, st: Interleaving.Stage) {
    cid in w.req && w.req[cid] == c && cid in w.at && w.at[cid] == st
  }

  /** An update of a live item up to, and not including, its log append. */
  lemma UpdateStops(w: Interleaving.World, a: nat, c: Call)
    requires Fresh(w, a, c) && c.Update? && Owned(w.t, c.item, c.user)
    requires w.t.items[c.item].version == c.expected && w.t.items[c.item].deletedAt.None?
    ensures var w1 := Interleaving.Act(w, Interleaving.Begin(a, c));
            var w2 := Interleaving.Act(w1, Interleaving.Proceed(a));
            var w3 := Interleaving.Act(w2, Interleaving.Proceed(a));
            var w4 := Interleaving.Act(w3, Interleaving.Proceed(a));
            && At(w4, a, c, Interleaving.Wrote) && a in w4.wrote && w4.wrote[a] == (c.item, c.expected + 1)
            && w4.req == w.req[a := c]
            && w4.t == w.t.(items := w.t.items[c.item := WithContent(w.t.items[c.item], c.content, c.now)])
  {
    hide BlankArguments, Logged;
    var w1 := Interleaving.Act(w, Interleaving.Begin(a, c));
    var w2 := Interleaving.Act(w1, Interleaving.Proceed(a));
    assert w2 == w1.(at := w1.at[a := Interleaving.Loading]);
    var w3 := Interleaving.Act(w2, Interleaving.Proceed(a));
    assert w3 == w2.(at := w2.at[a := Interleaving.Writing(c.expected)]);
  }

  lemma DeleteStarts(w: Interleaving.World, b: nat, c: Call)
    requires Fresh(w, b, c) && c.Delete?
    ensures var w1 := Interleaving.Act(w, Interleaving.Begin(b, c));
            Interleaving.Act(w1, Interleaving.Proceed(b))
            == w.(req := w.req[b := c], at := w.at[b := Interleaving.Writing(0)])
  {
    hide BlankArguments, Logged;
    var w1 := Interleaving.Act(w, Interleaving.Begin(b, c));
    assert w1.at[b := Interleaving.Writing(0)] == w.at[b := Interleaving.Writing(0)];
  }

  /** From any state with a live item, an update of it and a delete of what it makes get there in six statements. */
  lemma OvertakingIsReached(w: Interleaving.World, a: nat, b: nat, c: Call, d: Call)
    requires a != b && Fresh(w, a, c) && Fresh(w, b, d) && c.Update? && d.Delete? && c.op != d.op && c.user == d.user
    requires c.item == d.item && d.expected == c.expected + 1 && Owned(w.t, c.item, c.user)
    requires w.t.items[c.item].version == c.expected && w.t.items[c.item].deletedAt.None?
    ensures var w1 := Interleaving.Act(w, Interleaving.Begin(a, c));
            var w2 := Interleaving.Act(w1, Interleaving.Proceed(a));
            var w3 := Interleaving.Act(w2, Interleaving.Proceed(a));
            var w4 := Interleaving.Act(w3, Interleaving.Proceed(a));
            var w5 := Interleaving.Act(w4, Interleaving.Begin(b, d));
            Overtaking(Interleaving.Act(w5, Interleaving.Proceed(b)), a, b, c.item, d.expected)
  {
    UpdateStops(w, a, c);
    hide Interleaving.Act, BlankArguments, Logged;
    var w1 := Interleaving.Act(w, Interleaving.Begin(a, c));
    var w2 := Interleaving.Act(w1, Interleaving.Proceed(a));
    var w3 := Interleaving.Act(w2, Interleaving.Proceed(a));
    DeleteStarts(Interleaving.Act(w3, Interleaving.Proceed(a)), b, d);
  }
}
