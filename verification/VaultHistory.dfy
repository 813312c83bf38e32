/** What the revision log and the idempotency table mean over whole runs of the vault engine. */
module VaultHistory {
  import opened Base
  import opened Vault

  // ---------------------------------------------------------------- growth

  ghost predicate RowsGrow(a: map<Id, Item>, b: map<Id, Item>) {
    forall id | id in a :: id in b && b[id].user == a[id].user && a[id].version <= b[id].version
  }

  ghost predicate Untouched(log: seq<Entry>, start: nat, id: Id) {
    forall n | start <= n < |log| :: log[n].item != id
  }

  /** An item without log entries past `start` still has the row it had there. */
  ghost predicate SilentRowsStay(a: Tables, b: Tables) {
    forall id | id in a.items && Untouched(b.log, |a.log|, id) :: id in b.items && b.items[id] == a.items[id]
  }

  ghost predicate NewRowsAreLogged(a: Tables, b: Tables) {
    forall id | id in b.items && Untouched(b.log, |a.log|, id) :: id in a.items
  }

  ghost predicate Grows(a: Tables, b: Tables) {
    && a.log <= b.log && a.nextRev <= b.nextRev
    && (forall n | |a.log| <= n < |b.log| :: a.nextRev <= b.log[n].rev)
    && RowsGrow(a.items, b.items)
    && SilentRowsStay(a, b) && NewRowsAreLogged(a, b)
    && (forall k | k in a.processed :: k in b.processed && b.processed[k] == a.processed[k])
  }

  lemma CommitGrows(t: Tables, c: Call)
    requires Target(t, c).Ok?
    ensures var (id, change, row) := Target(t, c).value; Grows(t, Commit(t, c.user, c.op, id, change, row))
  {
    var (id, change, row) := Target(t, c).value;
    var t' := Commit(t, c.user, c.op, id, change, row);
    assert t'.log[|t.log|].item == id;
  }

  lemma NextGrows(t: Tables, s: Step)
    ensures Grows(t, Next(t, s))
  {
    if s.Do? && !BlankArguments(s.call) && (s.call.user, s.call.op) !in t.processed && Target(t, s.call).Ok? {
      CommitGrows(t, s.call);
    }
  }

  lemma UntouchedTwice(a: Tables, b: Tables, c: Tables, id: Id)
    requires a.log <= b.log <= c.log && Untouched(c.log, |a.log|, id)
    ensures Untouched(b.log, |a.log|, id) && Untouched(c.log, |b.log|, id)
  {
    forall n | |a.log| <= n < |b.log| ensures b.log[n].item != id {
      assert b.log[n] == c.log[n];
    }
  }

  lemma GrowsTransitive(a: Tables, b: Tables, c: Tables)
    requires Grows(a, b) && Grows(b, c)
    ensures Grows(a, c)
  {
    assert RowsGrow(a.items, c.items);
    forall id | Untouched(c.log, |a.log|, id)
      ensures id in a.items ==> id in c.items && c.items[id] == a.items[id]
      ensures id in c.items ==> id in a.items
    {
      UntouchedTwice(a, b, c, id);
    }
    forall n | |a.log| <= n < |c.log| ensures a.nextRev <= c.log[n].rev {
      if n < |b.log| { assert b.log[n] == c.log[n]; }
    }
  }

  lemma {:induction false} RunGrows(t: Tables, steps: seq<Step>)
    ensures Grows(t, Run(t, steps))
    decreases |steps|
  {
    if steps != [] {
      NextGrows(t, steps[0]);
      RunGrows(Next(t, steps[0]), steps[1..]);
      GrowsTransitive(t, Next(t, steps[0]), Run(t, steps));
    }
  }

  // ---------------------------------------------------------------- shape of the log

  /** The log rows of one item, in revision order. */
  function ItemLog(log: seq<Entry>, id: Id): seq<Entry>
    decreases |log|
  {
    if log == [] then []
    else
      var rest := ItemLog(log[..|log| - 1], id);
      if log[|log| - 1].item == id then rest + [log[|log| - 1]] else rest
  }

  /** Versions 1, 2, ..., k; Created exactly first; Deleted only last, and exactly on a tombstone. */
  ghost predicate WellShaped(es: seq<Entry>, s: Status) {
    && 1 <= |es| == s.version
    && (forall j | 0 <= j < |es| :: es[j].version == j + 1)
    && (forall j | 0 <= j < |es| :: es[j].change.Created? <==> j == 0)
    && (forall j | 0 <= j < |es| :: es[j].change.Deleted? ==> j == |es| - 1)
    && (es[|es| - 1].change.Deleted? <==> !s.live)
  }

  lemma {:induction false} ReplayGivesShape(log: seq<Entry>, id: Id)
    requires ReplayLog(log).Some?
    ensures var m := ReplayLog(log).value;
            && (id !in m <==> ItemLog(log, id) == [])
            && (id in m ==> WellShaped(ItemLog(log, id), m[id]))
    decreases |log|
  {
    if log != [] {
      var front, e := log[..|log| - 1], log[|log| - 1];
      ReplayGivesShape(front, id);
      if e.item == id {
        var rest := ItemLog(front, id);
        assert ItemLog(log, id) == rest + [e];
        if rest == [] { assert ItemLog(log, id) == [e]; }
      }
    }
  }

  /** In every reachable state an item's log rows run 1..version, and replaying the log alone gives
      every item's version and liveness. */
  lemma LogRefinesItems(steps: seq<Step>, id: Id)
    ensures var t := Run(EMPTY, steps);
            && ReplayLog(t.log) == Some(Summary(t.items))
            && (id in t.items ==> WellShaped(ItemLog(t.log, id),
                                             Status(t.items[id].version, t.items[id].deletedAt.None?)))
            && (id !in t.items ==> ItemLog(t.log, id) == [])
  {
    RunKeepsInv(EMPTY, steps);
    ReplayGivesShape(Run(EMPTY, steps).log, id);
  }

  lemma {:induction false} ItemLogIsLogged(log: seq<Entry>, id: Id, j: nat)
    requires j < |ItemLog(log, id)|
    ensures ItemLog(log, id)[j] in log && ItemLog(log, id)[j].item == id
    decreases |log|
  {
    var front := log[..|log| - 1];
    if j < |ItemLog(front, id)| {
      ItemLogIsLogged(front, id, j);
      assert forall e | e in front :: e in log;
    }
  }

  /** The log rows of an item show a live item of `user` at version `expected`. */
  ghost predicate LiveInLog(log: seq<Entry>, user: Id, id: Id, expected: nat) {
    var es := ItemLog(log, id);
    es != [] && es[0].user == user && |es| == expected && !es[|es| - 1].change.Deleted?
  }

  lemma LogShowsLive(t: Tables, user: Id, id: Id, expected: nat)
    requires Inv(t)
    ensures LiveInLog(t.log, user, id, expected)
            <==> (id in t.items && t.items[id].user == user && t.items[id].version == expected
                  && t.items[id].deletedAt.None?)
  {
    ReplayGivesShape(t.log, id);
    if ItemLog(t.log, id) != [] { FirstRowsOwner(t, id); }
    assert Summary(t.items) == ReplayLog(t.log).value;
    hide ReplayLog, ItemLog, ExactlyOnce, LogJoins, RevisionsIncrease;
  }

  lemma FirstRowsOwner(t: Tables, id: Id)
    requires LogJoins(t) && ItemLog(t.log, id) != []
    ensures id in t.items && t.items[id].user == ItemLog(t.log, id)[0].user
  {
    ItemLogIsLogged(t.log, id, 0);
    var n :| 0 <= n < |t.log| && t.log[n] == ItemLog(t.log, id)[0];
    hide ItemLog;
  }

  /** Of a first execution, from the log alone: a create succeeds iff the id has no history; an update or delete
      iff the history shows a live item of the caller at the expected version. A success adds exactly one row
      to that history, with the next version; a failure changes nothing. */
  lemma LogDecidesOutcome(steps: seq<Step>, c: Call)
    requires !BlankArguments(c) && (c.user, c.op) !in Run(EMPTY, steps).processed
    ensures var t := Run(EMPTY, steps);
            var (t', r) := Exec(t, c);
            var id := if c.Create? then c.freshId else c.item;
            && (r.Ok? <==> if c.Create? then ItemLog(t.log, id) == [] else LiveInLog(t.log, c.user, id, c.expected))
            && (r.Ok? ==> r.value.item == id && r.value.version == |ItemLog(t.log, id)| + 1
                          && ItemLog(t'.log, id) == ItemLog(t.log, id)
                               + [Entry(r.value.rev, c.user, c.op, id,
                                        if c.Create? then Created else if c.Update? then Updated else Deleted,
                                        r.value.version)])
            && (r.Err? ==> t' == t)
  {
    var t := Run(EMPTY, steps);
    RunKeepsInv(EMPTY, steps);
    hide Run;
    OutcomeFromLog(t, c);
  }

  lemma ItemLogGrows(log: seq<Entry>, e: Entry, id: Id)
    ensures ItemLog(log + [e], id) == if e.item == id then ItemLog(log, id) + [e] else ItemLog(log, id)
  {
    assert (log + [e])[..|log|] == log;
  }

  lemma SucceedsIff(t: Tables, c: Call)
    requires Inv(t) && !BlankArguments(c) && (c.user, c.op) !in t.processed
    ensures !Logged(t.log, c.user, c.op)
    ensures Target(t, c).Ok? <==> if c.Create? then ItemLog(t.log, c.freshId) == []
            else LiveInLog(t.log, c.user, c.item, c.expected)
    ensures Target(t, c).Ok? ==> Target(t, c).value.2.version == |ItemLog(t.log, Target(t, c).value.0)| + 1
  {
    ReplayGivesShape(t.log, if c.Create? then c.freshId else c.item);
    if !c.Create? { LogShowsLive(t, c.user, c.item, c.expected); }
    assert !Logged(t.log, c.user, c.op) by { hide ReplayLog, LogJoins, RevisionsIncrease; }
    assert Summary(t.items) == ReplayLog(t.log).value;
    hide LiveInLog, ReplayLog, ItemLog, ExactlyOnce, LogJoins, RevisionsIncrease, BlankArguments;
  }

  lemma OutcomeFromLog(t: Tables, c: Call)
    requires Inv(t) && !BlankArguments(c) && (c.user, c.op) !in t.processed
    ensures var (t', r) := Exec(t, c);
            var id := if c.Create? then c.freshId else c.item;
            && (r.Ok? <==> if c.Create? then ItemLog(t.log, id) == [] else LiveInLog(t.log, c.user, id, c.expected))
            && (r.Ok? ==> r.value.item == id && r.value.version == |ItemLog(t.log, id)| + 1
                          && ItemLog(t'.log, id) == ItemLog(t.log, id)
                               + [Entry(r.value.rev, c.user, c.op, id,
                                        if c.Create? then Created else if c.Update? then Updated else Deleted,
                                        r.value.version)])
            && (r.Err? ==> t' == t)
  {
    hide Inv, LiveInLog, Logged, ItemLog, BlankArguments;
    SucceedsIff(t, c);
    var (t', r) := Exec(t, c);
    if r.Ok? { ItemLogGrows(t.log, t'.log[|t.log|], r.value.item); }
  }

  /** The last log row of an item tells its version and whether it is a tombstone. */
  lemma {:induction false} LastEntryDecides(log: seq<Entry>, n: nat)
    requires ReplayLog(log).Some? && n < |log| && Untouched(log, n + 1, log[n].item)
    ensures var m := ReplayLog(log).value;
            log[n].item in m && m[log[n].item] == Status(log[n].version, !log[n].change.Deleted?)
    decreases |log|
  {
    var front := log[..|log| - 1];
    if n < |front| {
      assert front[n] == log[n];
      assert Untouched(front, n + 1, front[n].item);
      LastEntryDecides(front, n);
      assert log[|log| - 1].item != log[n].item;
    }
  }

  /** A Deleted row is the last of its item, which is a tombstone. */
  lemma {:induction false} DeletedEnds(log: seq<Entry>, n: nat)
    requires ReplayLog(log).Some? && n < |log| && log[n].change.Deleted?
    ensures Untouched(log, n + 1, log[n].item)
    ensures log[n].item in ReplayLog(log).value && !ReplayLog(log).value[log[n].item].live
    decreases |log|
  {
    var front := log[..|log| - 1];
    if n < |front| {
      assert front[n] == log[n];
      DeletedEnds(front, n);
      forall m | n + 1 <= m < |log| ensures log[m].item != log[n].item {
        if m < |front| { assert front[m] == log[m]; }
      }
    }
  }

  lemma {:induction false} LastRowOf(log: seq<Entry>, id: Id) returns (n: nat)
    requires !Untouched(log, 0, id)
    ensures n < |log| && log[n].item == id && Untouched(log, n + 1, id)
    decreases |log|
  {
    n := |log| - 1;
    if log[n].item != id {
      var front := log[..n];
      assert !Untouched(front, 0, id) by {
        var m :| 0 <= m < |log| && log[m].item == id;
        assert front[m] == log[m];
      }
      var last := LastRowOf(front, id);
      assert forall m | last < m < n :: front[m] == log[m];
      n := last;
    }
  }

  /** A row of ListRevisionEventsAfter: a log row joined with the current vault_items row. */
  datatype Event = Event(entry: Entry, item: Option<Item>)

  function Joined(t: Tables, e: Entry): Event {
    Event(e, GetItem(t, e.user, e.item))
  }

  /** The left join never yields a missing item. */
  lemma EveryEventJoins(steps: seq<Step>, n: nat)
    requires n < |Run(EMPTY, steps).log|
    ensures var t := Run(EMPTY, steps);
            var ev := Joined(t, t.log[n]);
            ev.item.Some? && ev.item.value == t.items[t.log[n].item] && t.log[n].version <= ev.item.value.version
  {
    RunKeepsInv(EMPTY, steps);
    var t := Run(EMPTY, steps);
    EntryBelowCurrent(t.log, n);
  }

  lemma {:induction false} EntryBelowCurrent(log: seq<Entry>, n: nat)
    requires ReplayLog(log).Some? && n < |log|
    ensures log[n].item in ReplayLog(log).value && log[n].version <= ReplayLog(log).value[log[n].item].version
    decreases |log|
  {
    var front := log[..|log| - 1];
    if n < |front| {
      assert front[n] == log[n];
      EntryBelowCurrent(front, n);
    }
  }

  // ---------------------------------------------------------------- exactly once

  function Executions(log: seq<Entry>, user: Id, op: Id): nat
    decreases |log|
  {
    if log == [] then 0
    else Executions(log[..|log| - 1], user, op)
         + (if log[|log| - 1].user == user && log[|log| - 1].op == op then 1 else 0)
  }

  lemma {:induction false} UniqueKeyCountsOnce(log: seq<Entry>, user: Id, op: Id)
    requires forall n, m | 0 <= n < m < |log| :: (log[n].user, log[n].op) != (log[m].user, log[m].op)
    ensures Executions(log, user, op) == if Logged(log, user, op) then 1 else 0
    decreases |log|
  {
    if log != [] {
      var front, e := log[..|log| - 1], log[|log| - 1];
      UniqueKeyCountsOnce(front, user, op);
      if Logged(front, user, op) {
        var n :| 0 <= n < |front| && front[n].user == user && front[n].op == op;
        assert log[n] == front[n];
      }
      if Logged(log, user, op) && !(e.user == user && e.op == op) {
        var n :| 0 <= n < |log| && log[n].user == user && log[n].op == op;
        assert front[n] == log[n];
      }
    }
  }

  /** Over any run, a (user, operation) took effect at most once, and has a processed_operations row
      exactly when it did, naming the item and revision of that one effect. */
  lemma AtMostOnce(steps: seq<Step>, user: Id, op: Id)
    ensures var t := Run(EMPTY, steps);
            && Executions(t.log, user, op) <= 1
            && (Executions(t.log, user, op) == 1 <==> (user, op) in t.processed)
            && ((user, op) in t.processed ==>
                  exists n :: 0 <= n < |t.log| && t.log[n].user == user && t.log[n].op == op
                              && t.processed[(user, op)] == Processed(t.log[n].item, t.log[n].rev))
  {
    RunKeepsInv(EMPTY, steps);
    var t := Run(EMPTY, steps);
    UniqueKeyCountsOnce(t.log, user, op);
    if (user, op) in t.processed {
      assert Logged(t.log, (user, op).0, (user, op).1);
    }
  }

  /** The same request sent again, perhaps with a different clock, fresh id or payload placement. */
  ghost predicate SameRequest(c: Call, c': Call) {
    && c.user == c'.user && c.op == c'.op
    && match c
       case Create(_, _, _, _, _, _) => c'.Create?
       case Update(_, _, id, _, _, _) => c'.Update? && c'.item == id
       case Delete(_, _, id, _, _) => c'.Delete? && c'.item == id
  }

  /** Once a call has been answered, repeating it after any later history changes no table and
      returns the original item and revision and a version no smaller than the original one. */
  lemma RetryReturnsOriginal(t: Tables, c: Call, later: seq<Step>, c': Call)
    requires Inv(t) && Exec(t, c).1.Ok? && SameRequest(c, c')
    ensures var (t1, r1) := Exec(t, c);
            var t2 := Run(t1, later);
            var (t3, r3) := Exec(t2, c');
            && t3 == t2
            && r3.Ok? && r3.value.item == r1.value.item && r3.value.rev == r1.value.rev
            && r3.value.version >= r1.value.version
  {
    var (t1, r1) := Exec(t, c);
    RunGrows(t1, later);
    AnsweredIsProcessed(t, c);
  }

  lemma AnsweredIsProcessed(t: Tables, c: Call)
    requires Inv(t) && Exec(t, c).1.Ok?
    ensures var (t1, r1) := Exec(t, c);
            && (c.user, c.op) in t1.processed
            && t1.processed[(c.user, c.op)] == Processed(r1.value.item, r1.value.rev)
            && r1.value.item in t1.items && t1.items[r1.value.item].user == c.user
            && t1.items[r1.value.item].version == r1.value.version
            && (!c.Create? ==> r1.value.item == "" || r1.value.item == c.item)
  {
  }

  // ---------------------------------------------------------------- rows are what was last written

  /** A call that took effect, with the item it wrote. */
  datatype Write = Write(item: Id, call: Call)

  /** The calls of a run that took effect, in order. */
  function Writes(t: Tables, steps: seq<Step>): seq<Write>
    decreases |steps|
  {
    if steps == [] then []
    else (if steps[0].Do? && Exec(t, steps[0].call).0.log != t.log
          then [Write(Exec(t, steps[0].call).0.log[|t.log|].item, steps[0].call)] else [])
         + Writes(Next(t, steps[0]), steps[1..])
  }

  function LastWrite(ws: seq<Write>, id: Id): Option<Call>
    decreases |ws|
  {
    if ws == [] then None
    else if ws[|ws| - 1].item == id then Some(ws[|ws| - 1].call) else LastWrite(ws[..|ws| - 1], id)
  }

  /** The last call on `id` that carried content, and the call that created it. */
  function LastContent(ws: seq<Write>, id: Id): Option<Content>
    decreases |ws|
  {
    if ws == [] then None
    else if ws[|ws| - 1].item == id && !ws[|ws| - 1].call.Delete? then Some(ws[|ws| - 1].call.content)
    else LastContent(ws[..|ws| - 1], id)
  }

  function Creator(ws: seq<Write>, id: Id): Option<Call>
    decreases |ws|
  {
    if ws == [] then None
    else if ws[|ws| - 1].item == id && ws[|ws| - 1].call.Create? then Some(ws[|ws| - 1].call)
    else Creator(ws[..|ws| - 1], id)
  }

  ghost predicate ExplainedRow(ws: seq<Write>, id: Id, row: Item) {
    && LastContent(ws, id) == Some(row.content)
    && LastWrite(ws, id).Some? && LastWrite(ws, id).value.now == row.updatedAt
    && row.deletedAt == (if LastWrite(ws, id).value.Delete? then Some(row.updatedAt) else None)
    && Creator(ws, id).Some? && Creator(ws, id).value.Create?
    && row.itemType == Creator(ws, id).value.itemType && row.user == Creator(ws, id).value.user
    && row.createdAt == Creator(ws, id).value.now
  }

  ghost predicate Explained(ws: seq<Write>, t: Tables) {
    forall id | id in t.items :: ExplainedRow(ws, id, t.items[id])
  }

  lemma CommitStaysExplained(ws: seq<Write>, t: Tables, c: Call)
    requires Explained(ws, t) && Exec(t, c).0.log != t.log
    ensures Explained(ws + [Write(Exec(t, c).0.log[|t.log|].item, c)], Exec(t, c).0)
  {
    var (id, change, row) := Target(t, c).value;
    var ws' := ws + [Write(id, c)];
    assert ws'[..|ws'| - 1] == ws;
    assert Exec(t, c).0.log[|t.log|].item == id;
    forall x | x in Exec(t, c).0.items ensures ExplainedRow(ws', x, Exec(t, c).0.items[x]) {
      if x != id { assert ExplainedRow(ws, x, t.items[x]); }
    }
  }

  lemma {:induction false} RunStaysExplained(ws: seq<Write>, t: Tables, steps: seq<Step>)
    requires Explained(ws, t)
    ensures Explained(ws + Writes(t, steps), Run(t, steps))
    decreases |steps|
  {
    if steps == [] {
      assert ws + Writes(t, steps) == ws;
    } else {
      var t1, s := Next(t, steps[0]), steps[0];
      if s.Do? && Exec(t, s.call).0.log != t.log {
        var w := Write(Exec(t, s.call).0.log[|t.log|].item, s.call);
        CommitStaysExplained(ws, t, s.call);
        RunStaysExplained(ws + [w], t1, steps[1..]);
        assert ws + Writes(t, steps) == (ws + [w]) + Writes(t1, steps[1..]);
      } else {
        assert t1.items == t.items;
        RunStaysExplained(ws, t1, steps[1..]);
        assert Writes(t, steps) == Writes(t1, steps[1..]);
      }
    }
  }

  /** In every reachable state a row holds the content of the last create or update that took effect on it,
      the clock of the last call that did, a tombstone exactly if that call was a delete, and the owner,
      type and creation time of the call that created it. */
  lemma RowsHoldTheLastWrite(steps: seq<Step>, id: Id)
    requires id in Run(EMPTY, steps).items
    ensures ExplainedRow(Writes(EMPTY, steps), id, Run(EMPTY, steps).items[id])
  {
    RunStaysExplained([], EMPTY, steps);
    assert [] + Writes(EMPTY, steps) == Writes(EMPTY, steps);
  }

  // ---------------------------------------------------------------- refusals

  ghost predicate LiveRow(t: Tables, user: Id, id: Id) {
    id in t.items && t.items[id].user == user && t.items[id].deletedAt.None?
  }

  /** Why a first execution is refused, for every call and every state. */
  lemma RefusedIff(t: Tables, c: Call)
    requires Inv(t) && (c.user, c.op) !in t.processed
    ensures var r := Exec(t, c).1;
            && (r == Err(InvalidArgument)
                <==> Trim(c.user) == "" || Trim(c.op) == "" || (!c.Create? && Trim(c.item) == ""))
            && (r != Err(InvalidArgument) ==>
                  && (r == Err(Internal) <==> c.Create? && c.freshId in t.items)
                  && (r == Err(NotFound) <==> c.Update? && !LiveRow(t, c.user, c.item))
                  && (r == Err(Conflict)
                      <==> (c.Update? && LiveRow(t, c.user, c.item) && t.items[c.item].version != c.expected)
                           || (c.Delete? && !(LiveRow(t, c.user, c.item) && t.items[c.item].version == c.expected))))
  {
    assert !Logged(t.log, c.user, c.op) by { hide ReplayLog, LogJoins, RevisionsIncrease; }
    hide Inv, Logged, Trim;
  }

  /** An operation repeated for another item than the recorded one is refused. */
  lemma RepeatElsewhereIsRefused(t: Tables, c: Call)
    requires (c.user, c.op) in t.processed && !BlankArguments(c) && !c.Create?
    requires t.processed[(c.user, c.op)].item != "" && t.processed[(c.user, c.op)].item != c.item
    ensures Exec(t, c) == (t, Err(InvalidArgument))
  {
    hide BlankArguments;
  }
}
