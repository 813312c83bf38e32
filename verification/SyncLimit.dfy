/** When one sync converges, exactly. The response carries at most 500 events but always reports the newest revision, so
    what was cut off is never asked for again. */
module SyncLimit {
  import opened Base
  import opened Vault
  import opened Revisions
  import opened Client
  import opened SyncProtocol

  // ---------------------------------------------------------------- any response, any cache

  lemma {:induction false} ConvergingAlong(t: Tables, u: Id, cache: Cache, rev: nat, limit: nat, j: nat)
    requires Inv(t) && j <= |List(t, u, rev, limit)|
    ensures var events := List(t, u, rev, limit);
            Converging(t, u, cache, events, 0) <==> Converging(t, u, ApplyAll(cache, events[..j]), events, j)
    decreases j
  {
    var events := List(t, u, rev, limit);
    hide Inv, List, Converging, Apply;
    if j > 0 {
      ConvergingAlong(t, u, cache, rev, limit, j - 1);
      ApplyConverges(t, u, ApplyAll(cache, events[..j - 1]), rev, limit, j - 1);
      assert events[..j][..j - 1] == events[..j - 1];
    }
  }

  /** Applying the first `limit` events after any revision to any cache leaves it right about every item of the user
      if and only if, for each, the events name it and it is live or its Deleted row is among them, or they do not
      name it and the cache was right about it before. */
  lemma ReplayConvergesIff(t: Tables, u: Id, cache: Cache, rev: nat, limit: nat)
    requires Inv(t)
    ensures var events := List(t, u, rev, limit);
            Converged(t, u, ApplyAll(cache, events))
            <==> forall id | id in t.items && t.items[id].user == u ::
                   if EventLeft(events, 0, id) then t.items[id].deletedAt.None? || DeletedLeft(events, 0, id)
                   else Agrees(cache, id, t.items[id])
  {
    var events := List(t, u, rev, limit);
    hide Inv, List, Converged, Agrees, ApplyAll;
    assert events[..|events|] == events;
    ConvergingAlong(t, u, cache, rev, limit, |events|);
    ConvergingEnds(t, u, ApplyAll(cache, events), events, |events|);
  }

  // ---------------------------------------------------------------- any sync

  /** Applying the response, while others write to the server. */
  ghost predicate Applies(actions: seq<Action>) {
    forall i | 0 <= i < |actions| :: actions[i].ApplyNext? || actions[i].Server?
  }

  function Count(actions: seq<Action>): nat
    decreases |actions|
  {
    if actions == [] then 0 else (if actions[0].ApplyNext? then 1 else 0) + Count(actions[1..])
  }

  lemma RunOne(u: Id, s: State, actions: seq<Action>)
    requires actions != []
    ensures SyncProtocol.Run(u, s, actions) == SyncProtocol.Run(u, Act(u, s, actions[0]), actions[1..])
  {
    hide Act;
  }

  lemma OneApplies(u: Id, s: State, a: Action, cache: Cache)
    requires s.phase.Applying? && s.phase.j <= |s.phase.events| && (a.ApplyNext? || a.Server?)
    requires s.cache == ApplyAll(cache, s.phase.events[..s.phase.j])
    ensures var s', n := Act(u, s, a), s.phase.j + (if a.ApplyNext? then 1 else 0);
            && s'.phase == s.phase.(j := if n <= |s.phase.events| then n else |s.phase.events|)
            && s'.cache == ApplyAll(cache, s.phase.events[..s'.phase.j])
  {
    hide Apply, Next;
    var events, j := s.phase.events, s.phase.j;
    if j < |events| { assert events[..j + 1][..j] == events[..j]; }
  }

  lemma {:induction false} RunApplies(u: Id, s: State, actions: seq<Action>, cache: Cache)
    requires s.phase.Applying? && s.phase.j <= |s.phase.events| && Applies(actions)
    requires s.cache == ApplyAll(cache, s.phase.events[..s.phase.j])
    ensures var s', n := SyncProtocol.Run(u, s, actions), s.phase.j + Count(actions);
            && s'.phase == s.phase.(j := if n <= |s.phase.events| then n else |s.phase.events|)
            && s'.cache == ApplyAll(cache, s.phase.events[..s'.phase.j])
    decreases |actions|
  {
    hide Act, ApplyAll;
    if actions != [] {
      OneApplies(u, s, actions[0], cache);
      RunApplies(u, Act(u, s, actions[0]), actions[1..], cache);
    }
  }

  /** From any state of the client at which everything is pushed: the sync that reads its snapshot now and is carried
      through leaves the cache right about that snapshot if and only if every item of the user passes the test. */
  lemma SyncConvergesIff(u: Id, s: State, actions: seq<Action>)
    requires Inv(s.t) && s.phase.Pushing? && s.phase.k >= |s.mem.pending| && Applies(actions)
    requires Finishing(SyncProtocol.Run(u, Act(u, s, ReadSnapshot), actions))
    ensures var s' := SyncProtocol.Run(u, Act(u, s, ReadSnapshot), actions);
            && s'.phase.snap == s.t
            && (Converged(s.t, u, s'.cache)
                <==> Converging(s.t, u, s.cache, List(s.t, u, s.mem.lastRev, MAX_EVENTS), 0))
  {
    var s1 := Act(u, s, ReadSnapshot);
    var events := List(s.t, u, s.mem.lastRev, MAX_EVENTS);
    assert events[..0] == [] && events[..|events|] == events && ApplyAll(s.cache, []) == s.cache;
    hide Inv, List, MaxRev, Agrees, SyncProtocol.Run, ApplyAll, EventLeft, DeletedLeft;
    RunApplies(u, s1, actions, s.cache);
    ReplayConvergesIff(s.t, u, s.cache, s.mem.lastRev, MAX_EVENTS);
  }

  // ---------------------------------------------------------------- a save that failed

  /** An edit whose save failed, then a restart: nothing is queued, nothing is owed, and the next sync ends with the
      edited row in the cache and not on the server. */
  lemma LostSaveDiverges(u: Id, s: State, id: Id, d: Draft, op: Id)
    requires s.phase.Idle? && s.disk.pending == [] && After(s.t.log, u, s.disk.lastRev) == []
    requires id in s.t.items && s.t.items[id].user == u && s.t.items[id].deletedAt.None?
    requires id in s.cache && s.cache[id].version == s.t.items[id].version
    ensures var s' := SyncProtocol.Run(u, s, [Edit(id, d, op, false), Restart, BeginSync, ReadSnapshot]);
            Finishing(s') && s'.phase.snap == s.t && !Converged(s.t, u, s'.cache)
  {
    var a := [Edit(id, d, op, false), Restart, BeginSync, ReadSnapshot];
    assert a[1..] == [Restart, BeginSync, ReadSnapshot] && a[1..][1..] == [BeginSync, ReadSnapshot]
           && a[1..][1..][1..] == [ReadSnapshot] && a[1..][1..][1..][1..] == [];
    hide MaxRev;
    var s1 := Act(u, s, a[0]);
    var s2 := Act(u, s1, Restart);
    var s3 := Act(u, s2, BeginSync);
    var s4 := Act(u, s3, ReadSnapshot);
    assert !Agrees(s4.cache, id, s.t.items[id]) && Finishing(s4);
    hide Act;
    RunOne(u, s, a);
    RunOne(u, s1, a[1..]);
    RunOne(u, s2, a[1..][1..]);
    RunOne(u, s3, [ReadSnapshot]);
  }

  // ---------------------------------------------------------------- the first sync of n items

  const SOME := Content(NO_FIELD, NO_FIELD, NO_FIELD, None, [])

  function Nth(k: nat): Id {
    seq(k + 1, _ => 'i')
  }

  function Filling(u: Id, k: nat): Call {
    Create(u, Nth(k), 1, SOME, Nth(k), 0)
  }

  /** The server after another device created n items. */
  function Filled(u: Id, n: nat): Tables {
    if n == 0 then EMPTY else Exec(Filled(u, n - 1), Filling(u, n - 1)).0
  }

  ghost predicate IsFilled(t: Tables, u: Id, n: nat) {
    && |t.log| == n
    && (forall k | 0 <= k < n :: t.log[k] == Entry(k + 1, u, Nth(k), Nth(k), Created, 1))
    && (forall id | id in t.items ::
          1 <= |id| <= n && id == Nth(|id| - 1) && t.items[id] == Item(u, 1, SOME, 1, 0, 0, None))
    && (forall k | 0 <= k < n :: Nth(k) in t.items)
    && (forall key | key in t.processed :: |key.1| <= n)
    && t.nextRev == n + 1
  }

  lemma PlainNth(k: nat)
    ensures PlainId(Nth(k)) && !Blank(Nth(k)) && |Nth(k)| == k + 1
  {
    assert !IsSpace('i');
    assert Nth(k)[0] == 'i' && Nth(k)[|Nth(k)| - 1] == 'i';
  }

  lemma NewToFilled(t: Tables, u: Id, n: nat)
    requires IsFilled(t, u, n)
    ensures !Logged(t.log, u, Nth(n)) && (u, Nth(n)) !in t.processed && Nth(n) !in t.items
  {
    forall k | 0 <= k < n ensures t.log[k].op != Nth(n) {
      assert |Nth(k)| == k + 1 && |Nth(n)| == n + 1;
    }
  }

  lemma FillsOneMore(t: Tables, u: Id, n: nat)
    requires IsFilled(t, u, n)
    ensures IsFilled(Commit(t, u, Nth(n), Nth(n), Created, Item(u, 1, SOME, 1, 0, 0, None)), u, n + 1)
  {
    NewToFilled(t, u, n);
    assert |Nth(n)| == n + 1;
    hide Nth;
  }

  lemma {:induction false} FilledShape(u: Id, n: nat)
    requires !Blank(u)
    ensures IsFilled(Filled(u, n), u, n)
  {
    if n > 0 {
      hide IsFilled, Nth, Logged, Blank;
      FilledShape(u, n - 1);
      PlainNth(n - 1);
      var t := Filled(u, n - 1);
      NewToFilled(t, u, n - 1);
      FillsOneMore(t, u, n - 1);
    }
  }

  lemma {:induction false} AllOutstanding(log: seq<Entry>, u: Id)
    requires forall k | 0 <= k < |log| :: log[k].user == u && log[k].rev > 0
    ensures After(log, u, 0) == log
    decreases |log|
  {
    if log != [] { AllOutstanding(log[..|log| - 1], u); }
  }

  function Times(a: Action, n: nat): seq<Action> {
    seq(n, _ => a)
  }

  function FillActions(u: Id, n: nat): seq<Action> {
    seq(n, k requires 0 <= k => Server(Do(Filling(u, k))))
  }

  lemma {:induction false} RunSplits(u: Id, s: State, a: seq<Action>, b: seq<Action>)
    ensures SyncProtocol.Run(u, s, a + b) == SyncProtocol.Run(u, SyncProtocol.Run(u, s, a), b)
    decreases |a|
  {
    if a == [] {
      assert a + b == b;
    } else {
      assert (a + b)[1..] == a[1..] + b;
      RunSplits(u, Act(u, s, a[0]), a[1..], b);
    }
  }

  lemma {:induction false} RunFills(u: Id, n: nat)
    ensures SyncProtocol.Run(u, INIT, FillActions(u, n)) == INIT.(t := Filled(u, n))
  {
    if n > 0 {
      RunFills(u, n - 1);
      var last := Server(Do(Filling(u, n - 1)));
      assert FillActions(u, n) == FillActions(u, n - 1) + [last];
      RunSplits(u, INIT, FillActions(u, n - 1), [last]);
      assert SyncProtocol.Run(u, SyncProtocol.Run(u, INIT, FillActions(u, n - 1)), [last])
             == Act(u, SyncProtocol.Run(u, INIT, FillActions(u, n - 1)), last) by {
        assert [last][1..] == [];
      }
    }
  }

  lemma {:induction false} CountTimes(n: nat)
    ensures Count(Times(ApplyNext, n)) == n
  {
    if n > 0 {
      assert Times(ApplyNext, n)[1..] == Times(ApplyNext, n - 1);
      CountTimes(n - 1);
    }
  }

  /** Another device creates n items; a fresh client then runs one complete, undisturbed sync. */
  function FirstSync(u: Id, n: nat): seq<Action> {
    FillActions(u, n) + ([BeginSync, ReadSnapshot] + Times(ApplyNext, if n <= MAX_EVENTS then n else MAX_EVENTS))
  }

  lemma FilledEvents(u: Id, n: nat)
    requires !Blank(u)
    ensures var t := Filled(u, n);
            var events := List(t, u, 0, MAX_EVENTS);
            && IsFilled(t, u, n)
            && |events| == (if n <= MAX_EVENTS then n else MAX_EVENTS)
            && forall i | 0 <= i < |events| :: events[i].entry == t.log[i]
  {
    FilledShape(u, n);
    AllOutstanding(Filled(u, n).log, u);
  }

  lemma FirstSyncRun(u: Id, n: nat)
    ensures var s := INIT.(t := Filled(u, n), phase := Pushing(0, false));
            SyncProtocol.Run(u, INIT, FirstSync(u, n))
            == SyncProtocol.Run(u, Act(u, s, ReadSnapshot), Times(ApplyNext, if n <= MAX_EVENTS then n else MAX_EVENTS))
  {
    var m := if n <= MAX_EVENTS then n else MAX_EVENTS;
    var s0 := INIT.(t := Filled(u, n));
    var rest := [BeginSync, ReadSnapshot] + Times(ApplyNext, m);
    RunFills(u, n);
    RunSplits(u, INIT, FillActions(u, n), rest);
    assert rest[1..] == [ReadSnapshot] + Times(ApplyNext, m) && rest[1..][1..] == Times(ApplyNext, m);
    hide Filled, FillActions;
    assert Act(u, s0, BeginSync) == s0.(phase := Pushing(0, false));
    hide Act;
  }

  /** Of n items created once each, the first 500 have events, and nobody else has. */
  lemma FilledRight(u: Id, n: nat)
    requires !Blank(u)
    ensures Converging(Filled(u, n), u, map[], List(Filled(u, n), u, 0, MAX_EVENTS), 0) <==> n <= MAX_EVENTS
  {
    FilledEvents(u, n);
    var t := Filled(u, n);
    var events := List(t, u, 0, MAX_EVENTS);
    hide Filled, List;
    if n <= MAX_EVENTS {
      forall id | id in t.items && t.items[id].user == u ensures Right(t.items[id], map[], events, 0, id) {
        assert id == Nth(|id| - 1) && events[|id| - 1].entry.item == id;
      }
    } else {
      var id := Nth(MAX_EVENTS);
      forall i | 0 <= i < |events| ensures events[i].entry.item != id {
        assert |events[i].entry.item| == i + 1;
      }
      assert !EventLeft(events, 0, id) && id in t.items;
    }
  }

  lemma FilledInv(u: Id, n: nat)
    ensures Inv(Filled(u, n))
  {
    if n > 0 {
      FilledInv(u, n - 1);
      NextKeepsInv(Filled(u, n - 1), Do(Filling(u, n - 1)));
    }
  }

  /** As many steps as there are events finish a sync. */
  lemma CarriedThrough(u: Id, s: State)
    requires s.phase.Pushing? && s.phase.k >= |s.mem.pending|
    ensures var m := |List(s.t, u, s.mem.lastRev, MAX_EVENTS)|;
            Finishing(SyncProtocol.Run(u, Act(u, s, ReadSnapshot), Times(ApplyNext, m)))
  {
    var s1 := Act(u, s, ReadSnapshot);
    var events := List(s.t, u, s.mem.lastRev, MAX_EVENTS);
    assert s1.phase.Applying? && s1.phase.events == events && s1.phase.j == 0 && s1.cache == s.cache;
    assert events[..0] == [] && ApplyAll(s.cache, []) == s.cache;
    hide SyncProtocol.Run, Act, List, ApplyAll, Count;
    CountTimes(|events|);
    RunApplies(u, s1, Times(ApplyNext, |events|), s.cache);
  }

  /** The undisturbed first sync of a user with n items ends with a correct cache exactly when n <= 500. */
  lemma FirstSyncConvergesIff(u: Id, n: nat)
    requires !Blank(u)
    ensures var s := SyncProtocol.Run(u, INIT, FirstSync(u, n));
            Finishing(s) && (Converged(s.phase.snap, u, s.cache) <==> n <= MAX_EVENTS)
  {
    hide SyncProtocol.Run, Act, Filled, List, MaxRev, Converging, Converged, Inv, FirstSync;
    var s := INIT.(t := Filled(u, n), phase := Pushing(0, false));
    var m := |List(Filled(u, n), u, 0, MAX_EVENTS)|;
    assert m == if n <= MAX_EVENTS then n else MAX_EVENTS by { FilledEvents(u, n); }
    FirstSyncRun(u, n);
    CarriedThrough(u, s);
    FilledInv(u, n);
    FilledRight(u, n);
    SyncConvergesIff(u, s, Times(ApplyNext, m));
  }
}
