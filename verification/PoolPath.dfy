/** What is seen of calls that run statement by statement: their answers, and log rows that join. */
module PoolPath {
  import opened Base
  import opened Vault
  import Interleaving

  // ---------------------------------------------------------------- invariant

  /** Processed rows last, and items keep their owner. */
  ghost predicate Lasts(t: Tables, t': Tables) {
    && (forall k | k in t.processed :: k in t'.processed && t'.processed[k] == t.processed[k])
    && (forall id | id in t.items :: id in t'.items && t'.items[id].user == t.items[id].user)
  }

  ghost predicate Replays(t: Tables, c: Call, item: Id, rev: nat) {
    (c.user, c.op) in t.processed && t.processed[(c.user, c.op)] == Processed(item, rev)
  }

  ghost predicate Owned(t: Tables, id: Id, user: Id) {
    id in t.items && t.items[id].user == user
  }

  /** What the stage of a call says: a replay reports a processed row, and what was written is the caller's. */
  ghost predicate StageSeen(t: Tables, c: Call, at: Interleaving.Stage, wrote: Option<(Id, nat)>) {
    && (at.Replaying? ==> Replays(t, c, at.p.item, at.p.rev))
    && (at.Done? && at.r.Ok? && wrote.None? ==> Replays(t, c, at.r.value.item, at.r.value.rev))
    && (wrote.Some? ==> Owned(t, wrote.value.0, c.user))
  }

  ghost predicate LogOwned(t: Tables) {
    forall n | 0 <= n < |t.log| :: Owned(t, t.log[n].item, t.log[n].user)
  }

  ghost predicate Seen(w: Interleaving.World) {
    && LogOwned(w.t)
    && forall cid | cid in w.at && cid in w.req ::
         StageSeen(w.t, w.req[cid], w.at[cid], Interleaving.Produced(w, cid))
  }

  lemma LastingStage(t: Tables, t': Tables, c: Call, at: Interleaving.Stage, wrote: Option<(Id, nat)>)
    requires Lasts(t, t') && StageSeen(t, c, at, wrote)
    ensures StageSeen(t', c, at, wrote)
  {
  }

  lemma LastingLog(t: Tables, t': Tables)
    requires Lasts(t, t') && LogOwned(t)
    requires t'.log == t.log || (|t'.log| == |t.log| + 1 && t.log <= t'.log
                                 && Owned(t', t'.log[|t.log|].item, t'.log[|t.log|].user))
    ensures LogOwned(t')
  {
    forall n | 0 <= n < |t'.log| ensures Owned(t', t'.log[n].item, t'.log[n].user) {
      if n < |t.log| { assert t'.log[n] == t.log[n] && Owned(t, t.log[n].item, t.log[n].user); }
    }
  }

  /** One call moved; every other is where it was. */
  lemma OneMoved(w: Interleaving.World, w': Interleaving.World, cid: nat)
    requires Seen(w) && Lasts(w.t, w'.t) && LogOwned(w'.t)
    requires forall c | c in w'.at && c != cid :: c in w.at && w'.at[c] == w.at[c]
    requires forall c | c in w'.req && c != cid :: c in w.req && w'.req[c] == w.req[c]
    requires forall c | c != cid :: Interleaving.Produced(w', c) == Interleaving.Produced(w, c)
    requires cid in w'.at && cid in w'.req ==>
               StageSeen(w'.t, w'.req[cid], w'.at[cid], Interleaving.Produced(w', cid))
    ensures Seen(w')
  {
    hide Lasts, StageSeen, LogOwned;
    forall c | c in w'.at && c in w'.req && c != cid
      ensures StageSeen(w'.t, w'.req[c], w'.at[c], Interleaving.Produced(w', c))
    {
      LastingStage(w.t, w'.t, w.req[c], w.at[c], Interleaving.Produced(w, c));
    }
  }

  lemma WriteSeen(w: Interleaving.World, cid: nat, id: Id, row: Item)
    requires Seen(w) && cid in w.req && row.user == w.req[cid].user
             && (id in w.t.items ==> w.t.items[id].user == row.user)
    ensures Seen(Interleaving.Store(w, cid, id, row))
  {
    var w' := Interleaving.Store(w, cid, id, row);
    SeenLog(w);
    hide Seen;
    assert Lasts(w.t, w'.t) by { hide LogOwned; }
    LastingLog(w.t, w'.t);
    hide Lasts, LogOwned;
    OneMoved(w, w', cid);
  }

  lemma AppendSeen(w: Interleaving.World, cid: nat, c: Call, k: (Id, nat))
    requires Seen(w) && cid in w.req && w.req[cid] == c && cid in w.at && cid in w.wrote && w.wrote[cid] == k
    ensures Seen(Interleaving.Append(w, cid, c, k))
  {
    var w' := Interleaving.Append(w, cid, c, k);
    SeenLog(w);
    assert StageSeen(w.t, c, w.at[cid], Some(k));
    hide Seen, Logged;
    assert Lasts(w.t, w'.t) by { hide LogOwned; }
    LastingLog(w.t, w'.t);
    hide Lasts, LogOwned;
    OneMoved(w, w', cid);
  }

  lemma MarkSeen(w: Interleaving.World, cid: nat, c: Call, k: (Id, nat), rev: nat)
    requires Seen(w) && cid in w.req && w.req[cid] == c && cid in w.at && cid in w.wrote && w.wrote[cid] == k
    ensures Seen(Interleaving.Mark(w, cid, c, k, rev))
  {
    var w' := Interleaving.Mark(w, cid, c, k, rev);
    SeenLog(w);
    assert StageSeen(w.t, c, w.at[cid], Some(k));
    hide Seen;
    assert Lasts(w.t, w'.t) by { hide LogOwned; }
    LastingLog(w.t, w'.t);
    hide Lasts, LogOwned;
    OneMoved(w, w', cid);
  }

  /** A stage that changes no table. */
  lemma StageMoves(w: Interleaving.World, cid: nat, c: Call, st: Interleaving.Stage)
    requires Seen(w) && (cid in w.req ==> w.req[cid] == c) && StageSeen(w.t, c, st, Interleaving.Produced(w, cid))
    ensures Seen(w.(req := w.req[cid := c], at := w.at[cid := st]))
  {
    var w' := w.(req := w.req[cid := c], at := w.at[cid := st]);
    SeenLog(w);
    hide Seen;
    assert Lasts(w.t, w'.t) by { hide LogOwned; }
    hide Lasts, LogOwned, StageSeen;
    OneMoved(w, w', cid);
  }

  lemma QuietSeen(t: Tables, c: Call, st: Interleaving.Stage, wrote: Option<(Id, nat)>)
    requires StageSeen(t, c, st, wrote) && (st.Replaying? ==> wrote.None?)
    ensures StageSeen(t, c, Interleaving.Quiet(t, c, st), wrote)
  {
  }

  lemma ProceedSeen(w: Interleaving.World, cid: nat)
    requires Seen(w) && Interleaving.Staged(w) && cid in w.req && cid in w.at
    ensures Seen(Interleaving.Statement(w, cid))
  {
    var c, st := w.req[cid], w.at[cid];
    assert StageSeen(w.t, c, st, Interleaving.Produced(w, cid));
    assert Interleaving.StageOk(c, st, Interleaving.Produced(w, cid));
    hide Seen, StageSeen, Interleaving.Store, Interleaving.Append, Interleaving.Mark, Interleaving.Quiet,
         Interleaving.Staged;
    if st.Writing? && Interleaving.RowWrite(w.t, c, st.base).Some? {
      var (id, row) := Interleaving.RowWrite(w.t, c, st.base).value;
      WriteSeen(w, cid, id, row);
    } else if st.Wrote? && cid in w.wrote {
      AppendSeen(w, cid, c, w.wrote[cid]);
    } else if st.Appended? && cid in w.wrote {
      MarkSeen(w, cid, c, w.wrote[cid], st.rev);
    } else {
      QuietSeen(w.t, c, st, Interleaving.Produced(w, cid));
      StageMoves(w, cid, c, Interleaving.Quiet(w.t, c, st));
      assert w.req[cid := c] == w.req;
    }
  }

  /** A whole transaction that logs nothing changed nothing, and answered from a processed row if it answered Ok. */
  lemma SilentExec(t: Tables, c: Call)
    requires Exec(t, c).0.log == t.log
    ensures Exec(t, c).0 == t && (Exec(t, c).1.Ok? ==> Replays(t, c, Exec(t, c).1.value.item, Exec(t, c).1.value.rev))
  {
    hide Logged, BlankArguments;
  }

  lemma LoggedExec(t: Tables, c: Call)
    requires Exec(t, c).0.log != t.log
    ensures var t' := Exec(t, c).0;
            && Lasts(t, t') && |t'.log| == |t.log| + 1 && t.log <= t'.log && t'.log[|t.log|].user == c.user
            && Owned(t', t'.log[|t.log|].item, c.user)
  {
    hide Logged, BlankArguments;
  }

  lemma TransactSeen(w: Interleaving.World, cid: nat, c: Call)
    requires Seen(w) && cid !in w.req && cid !in w.wrote
    ensures Seen(Interleaving.Whole(w, cid, c))
  {
    var w', t' := Interleaving.Whole(w, cid, c), Exec(w.t, c).0;
    SeenLog(w);
    if t'.log == w.t.log {
      SilentExec(w.t, c);
      hide Exec, Seen;
      StageMoves(w, cid, c, Interleaving.Done(Exec(w.t, c).1));
    } else {
      LoggedExec(w.t, c);
      hide Exec, Seen;
      LastingLog(w.t, t');
      hide Lasts, LogOwned;
      OneMoved(w, w', cid);
    }
  }

  lemma ActSeen(w: Interleaving.World, a: Interleaving.Action)
    requires Seen(w) && Interleaving.Staged(w)
    ensures Seen(Interleaving.Act(w, a))
  {
    assert forall cid | cid !in w.req :: cid !in w.wrote;
    match a
    case Begin(cid, c) =>
      if cid !in w.req {
        hide Seen, Interleaving.Staged;
        StageMoves(w, cid, c, Interleaving.Start);
      }
    case Proceed(cid) =>
      hide Seen, Interleaving.Statement, Interleaving.Staged;
      if cid in w.req && cid in w.at { ProceedSeen(w, cid); }
    case Fail(cid) => FailSeen(w, cid);
    case Transact(cid, c) =>
      hide Seen, Interleaving.Whole, Interleaving.Staged;
      if cid !in w.req { TransactSeen(w, cid, c); }
  }

  lemma FailSeen(w: Interleaving.World, cid: nat)
    requires Seen(w) && Interleaving.Staged(w)
    ensures Seen(Interleaving.Act(w, Interleaving.Fail(cid)))
  {
    if cid in w.at && !w.at[cid].Done? {
      assert StageSeen(w.t, w.req[cid], w.at[cid], Interleaving.Produced(w, cid));
      hide Seen, Interleaving.Staged;
      StageMoves(w, cid, w.req[cid], Interleaving.Done(Err(Internal)));
      assert w.req[cid := w.req[cid]] == w.req;
    }
  }

  lemma {:induction false} RunSeen(w: Interleaving.World, actions: seq<Interleaving.Action>)
    requires Seen(w) && Interleaving.Inv(w)
    ensures Seen(Interleaving.Run(w, actions))
    decreases |actions|
  {
    if actions != [] {
      assert Interleaving.Staged(w);
      hide Seen, Interleaving.Act, Interleaving.Inv, Interleaving.Staged;
      ActSeen(w, actions[0]);
      Interleaving.ActKeepsInv(w, actions[0]);
      RunSeen(Interleaving.Act(w, actions[0]), actions[1..]);
    }
  }

  lemma ReachableSeen(actions: seq<Interleaving.Action>)
    ensures Seen(Interleaving.Run(Interleaving.INIT, actions))
            && Interleaving.Inv(Interleaving.Run(Interleaving.INIT, actions))
  {
    assert Seen(Interleaving.INIT);
    Interleaving.InitIsInv();
    hide Seen, Interleaving.Inv;
    RunSeen(Interleaving.INIT, actions);
    Interleaving.RunKeepsInv(Interleaving.INIT, actions);
  }

  // ---------------------------------------------------------------- answers

  /** In every interleaving an Ok answer reports the call's own write, or replays a processed row of its user and
      operation, with that row's item and revision. */
  lemma AnswersAreWritesOrReplays(actions: seq<Interleaving.Action>, cid: nat)
    requires var w := Interleaving.Run(Interleaving.INIT, actions); cid in w.at && w.at[cid].Done? && w.at[cid].r.Ok?
    ensures var w := Interleaving.Run(Interleaving.INIT, actions);
            && cid in w.req
            && if cid in w.wrote then (w.at[cid].r.value.item, w.at[cid].r.value.version) == w.wrote[cid]
               else Replays(w.t, w.req[cid], w.at[cid].r.value.item, w.at[cid].r.value.rev)
  {
    hide Interleaving.Run, Interleaving.Credited, Interleaving.Rows, Interleaving.LogUnique, Interleaving.PendingLog;
    ReachableSeen(actions);
    var w := Interleaving.Run(Interleaving.INIT, actions);
    assert Interleaving.StageOk(w.req[cid], w.at[cid], Interleaving.Produced(w, cid));
    assert StageSeen(w.t, w.req[cid], w.at[cid], Interleaving.Produced(w, cid));
  }

  /** Two calls that mutate one item from the same expected version are never both answered Ok for a write of their own:
      one of the answers is a replay. */
  lemma NeverBothAnswered(actions: seq<Interleaving.Action>, c1: nat, c2: nat)
    requires var w := Interleaving.Run(Interleaving.INIT, actions);
             && c1 in w.req && c2 in w.req && c1 in w.at && c2 in w.at && c1 != c2
             && !w.req[c1].Create? && !w.req[c2].Create?
             && w.req[c1].item == w.req[c2].item && w.req[c1].expected == w.req[c2].expected
             && w.at[c1].Done? && w.at[c1].r.Ok? && w.at[c2].Done? && w.at[c2].r.Ok?
    ensures var w := Interleaving.Run(Interleaving.INIT, actions);
            || Replays(w.t, w.req[c1], w.at[c1].r.value.item, w.at[c1].r.value.rev)
            || Replays(w.t, w.req[c2], w.at[c2].r.value.item, w.at[c2].r.value.rev)
  {
    hide Interleaving.Run;
    Interleaving.NoLostUpdate(actions, c1, c2);
    AnswersAreWritesOrReplays(actions, c1);
    AnswersAreWritesOrReplays(actions, c2);
  }

  lemma SeenLog(w: Interleaving.World)
    requires Seen(w)
    ensures LogOwned(w.t)
  {
  }
}
