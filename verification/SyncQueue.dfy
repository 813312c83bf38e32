/** No saved edit is lost: it stays queued until the server has recorded it. */
module SyncQueue {
  import opened Base
  import opened Vault
  import opened VaultHistory
  import opened Push
  import opened Client
  import opened SyncProtocol

  ghost predicate Queued(ops: seq<PendingOp>, op: Id) {
    exists k :: 0 <= k < |ops| && ops[k].op == op
  }

  /** The server has recorded the operation, which happens exactly when it takes effect. */
  ghost predicate Recorded(t: Tables, u: Id, op: Id) {
    (u, Trim(op)) in t.processed
  }

  ghost predicate FirstRecorded(t: Tables, u: Id, ops: seq<PendingOp>, n: nat) {
    forall i | 0 <= i < n && i < |ops| :: Recorded(t, u, ops[i].op)
  }

  /** What is on disk is in memory or recorded; what was pushed without a conflict is recorded. */
  ghost predicate QueueInv(s: State, u: Id) {
    && (forall op | Queued(s.disk.pending, op) :: Queued(s.mem.pending, op) || Recorded(s.t, u, op))
    && match s.phase
       case Idle => true
       case Pushing(k, conflicted) => !conflicted ==> FirstRecorded(s.t, u, s.mem.pending, k)
       case Applying(_, _, _, conflicted, _) => !conflicted ==> FirstRecorded(s.t, u, s.mem.pending, |s.mem.pending|)
  }

  lemma AcceptedIsRecorded(t: Tables, u: Id, p: PendingOp, env: Env)
    requires PushOne(t, u, p, env).1.Accepted?
    ensures Recorded(PushOne(t, u, p, env).0, u, p.op)
  {
    hide Trim, Logged, Blank;
  }

  /** The server forgets no operation. */
  lemma RecordsLast(u: Id, s: State, a: Action, op: Id)
    requires Recorded(s.t, u, op)
    ensures Recorded(SyncProtocol.Act(u, s, a).t, u, op)
  {
    hide Trim;
    if a.Server? {
      NextGrows(s.t, a.step);
      hide Next;
    } else if a.PushNext? && s.phase.Pushing? && s.phase.k < |s.mem.pending| {
      PushIsStep(s.t, u, s.mem.pending[s.phase.k], a.env);
      var c := ToCall(u, s.mem.pending[s.phase.k], a.env);
      hide PushOne, ToCall;
      if c.Ok? { NextGrows(s.t, Do(c.value)); }
      hide Next;
    }
  }

  lemma QueuedGrows(ops: seq<PendingOp>, p: PendingOp, op: Id)
    ensures Queued(ops + [p], op) <==> Queued(ops, op) || p.op == op
  {
    var all := ops + [p];
    assert all[|ops|] == p;
    if k :| 0 <= k < |ops| && ops[k].op == op { assert all[k].op == op; }
  }

  lemma ReloadedQueues(st: SyncState, op: Id)
    ensures Queued(Reloaded(st).pending, op) <==> Queued(st.pending, op)
  {
    var st' := Reloaded(st);
    assert |st'.pending| == |st.pending| && forall k | 0 <= k < |st.pending| :: st'.pending[k].op == st.pending[k].op;
    if k :| 0 <= k < |st.pending| && st.pending[k].op == op { assert st'.pending[k].op == op; }
    if k :| 0 <= k < |st'.pending| && st'.pending[k].op == op { assert st.pending[k].op == op; }
  }

  lemma AllRecorded(t: Tables, u: Id, ops: seq<PendingOp>, op: Id)
    requires FirstRecorded(t, u, ops, |ops|) && Queued(ops, op)
    ensures Recorded(t, u, op)
  {
    var k :| 0 <= k < |ops| && ops[k].op == op;
  }

  lemma FirstRecordedLasts(u: Id, s: State, a: Action, n: nat)
    requires FirstRecorded(s.t, u, s.mem.pending, n)
    ensures FirstRecorded(SyncProtocol.Act(u, s, a).t, u, s.mem.pending, n)
  {
    hide SyncProtocol.Act, Recorded;
    forall i | 0 <= i < n && i < |s.mem.pending| ensures Recorded(SyncProtocol.Act(u, s, a).t, u, s.mem.pending[i].op) {
      RecordsLast(u, s, a, s.mem.pending[i].op);
    }
  }

  /** The operation is on disk or recorded. */
  ghost predicate Kept(s: State, u: Id, op: Id) {
    Queued(s.disk.pending, op) || Recorded(s.t, u, op)
  }

  /** A step that changes no queue. */
  lemma SameQueues(u: Id, s: State, a: Action)
    requires QueueInv(s, u)
    requires var s' := SyncProtocol.Act(u, s, a);
             s'.mem == s.mem && s'.disk == s.disk && (s'.phase == s.phase || s'.phase.Idle?)
    ensures QueueInv(SyncProtocol.Act(u, s, a), u)
  {
    var s' := SyncProtocol.Act(u, s, a);
    if s.phase.Pushing? && !s.phase.conflicted { FirstRecordedLasts(u, s, a, s.phase.k); }
    if s.phase.Applying? && !s.phase.conflicted { FirstRecordedLasts(u, s, a, |s.mem.pending|); }
    hide SyncProtocol.Act, Recorded, Queued, FirstRecorded;
    forall op | Queued(s'.disk.pending, op) ensures Queued(s'.mem.pending, op) || Recorded(s'.t, u, op) {
      if Recorded(s.t, u, op) { RecordsLast(u, s, a, op); }
    }
  }

  lemma PushKeepsQueues(u: Id, s: State, env: Env)
    requires QueueInv(s, u) && s.phase.Pushing? && s.phase.k < |s.mem.pending|
    ensures QueueInv(SyncProtocol.Act(u, s, PushNext(env)), u)
  {
    var a, k := PushNext(env), s.phase.k;
    var s', o := SyncProtocol.Act(u, s, a), PushOne(s.t, u, s.mem.pending[k], env).1;
    if !s.phase.conflicted { FirstRecordedLasts(u, s, a, k); }
    if o.Accepted? { AcceptedIsRecorded(s.t, u, s.mem.pending[k], env); }
    assert s'.mem == s.mem && s'.disk == s.disk && s'.t == PushOne(s.t, u, s.mem.pending[k], env).0;
    assert s'.phase.Idle? || s'.phase == Pushing(k + 1, s.phase.conflicted || !o.Accepted?);
    hide SyncProtocol.Act, Recorded, Queued, PushOne;
    forall op | Queued(s'.disk.pending, op) ensures Queued(s'.mem.pending, op) || Recorded(s'.t, u, op) {
      if Recorded(s.t, u, op) { RecordsLast(u, s, a, op); }
    }
  }

  lemma FinishKeepsQueues(u: Id, s: State, saved: bool)
    requires QueueInv(s, u) && Finishing(s)
    ensures QueueInv(SyncProtocol.Act(u, s, Finish(saved)), u)
  {
    var s' := SyncProtocol.Act(u, s, Finish(saved));
    hide Recorded;
    forall op | Queued(s'.disk.pending, op) ensures Queued(s'.mem.pending, op) || Recorded(s'.t, u, op) {
      if !s.phase.conflicted && Queued(s.mem.pending, op) { AllRecorded(s.t, u, s.mem.pending, op); }
    }
  }

  lemma EditKeepsQueues(u: Id, s: State, a: Action)
    requires QueueInv(s, u) && (a.Add? || a.Edit? || a.Remove?)
    ensures QueueInv(SyncProtocol.Act(u, s, a), u)
    ensures forall op | Kept(s, u, op) :: Kept(SyncProtocol.Act(u, s, a), u, op)
  {
    var s' := SyncProtocol.Act(u, s, a);
    if s' != s {
      var p := s'.mem.pending[|s.mem.pending|];
      assert s'.mem.pending == s.mem.pending + [p] && s'.t == s.t && s'.phase.Idle?;
      assert s'.disk == s.disk || s'.disk == s'.mem;
      hide SyncProtocol.Act, Recorded;
      forall op ensures Queued(s'.mem.pending, op) <==> Queued(s.mem.pending, op) || p.op == op {
        QueuedGrows(s.mem.pending, p, op);
      }
    }
  }

  lemma RestartKeepsQueues(u: Id, s: State)
    requires QueueInv(s, u)
    ensures QueueInv(SyncProtocol.Act(u, s, Restart), u)
  {
    hide Recorded, Reloaded;
    forall op ensures Queued(Reloaded(s.disk).pending, op) <==> Queued(s.disk.pending, op) {
      ReloadedQueues(s.disk, op);
    }
  }

  lemma ActKeepsQueues(u: Id, s: State, a: Action)
    requires QueueInv(s, u)
    ensures QueueInv(SyncProtocol.Act(u, s, a), u)
  {
    match a
    case Add(_, _, _, _, _) => EditKeepsQueues(u, s, a);
    case Edit(_, _, _, _) => EditKeepsQueues(u, s, a);
    case Remove(_, _, _) => EditKeepsQueues(u, s, a);
    case Restart => RestartKeepsQueues(u, s);
    case PushNext(env) =>
      if s.phase.Pushing? && s.phase.k < |s.mem.pending| { PushKeepsQueues(u, s, env); } else { SameQueues(u, s, a); }
    case Finish(saved) => if Finishing(s) { FinishKeepsQueues(u, s, saved); } else { SameQueues(u, s, a); }
    case BeginSync => hide Recorded, Queued;
    case ReadSnapshot => hide Recorded, Queued;
    case ApplyNext => hide Recorded, Queued, Apply;
    case _ => SameQueues(u, s, a);
  }

  lemma ActKeeps(u: Id, s: State, a: Action, op: Id)
    requires QueueInv(s, u) && Kept(s, u, op)
    ensures Kept(SyncProtocol.Act(u, s, a), u, op)
  {
    if Recorded(s.t, u, op) {
      RecordsLast(u, s, a, op);
    } else if a.Add? || a.Edit? || a.Remove? {
      EditKeepsQueues(u, s, a);
    } else if a.Finish? && Finishing(s) && a.saved && !s.phase.conflicted {
      hide Recorded;
      AllRecorded(s.t, u, s.mem.pending, op);
    } else {
      hide Recorded;
    }
  }

  lemma {:induction false} RunKeeps(u: Id, s: State, actions: seq<Action>, op: Id)
    requires QueueInv(s, u) && Kept(s, u, op)
    ensures Kept(SyncProtocol.Run(u, s, actions), u, op)
    decreases |actions|
  {
    hide QueueInv, Kept, SyncProtocol.Act;
    if actions != [] {
      ActKeepsQueues(u, s, actions[0]);
      ActKeeps(u, s, actions[0], op);
      RunKeeps(u, SyncProtocol.Act(u, s, actions[0]), actions[1..], op);
    }
  }

  lemma {:induction false} RunKeepsQueues(u: Id, s: State, actions: seq<Action>)
    requires QueueInv(s, u)
    ensures QueueInv(SyncProtocol.Run(u, s, actions), u)
    decreases |actions|
  {
    hide QueueInv, SyncProtocol.Act;
    if actions != [] {
      ActKeepsQueues(u, s, actions[0]);
      RunKeepsQueues(u, SyncProtocol.Act(u, s, actions[0]), actions[1..]);
    }
  }

  /** From the moment its save succeeded, in every later state of every run, whatever fails and however often the client
      restarts: an operation is still in the stored queue, or the server has recorded it. */
  lemma SavedEditIsNeverLost(u: Id, actions: seq<Action>, more: seq<Action>, op: Id)
    requires Queued(SyncProtocol.Run(u, INIT, actions).disk.pending, op)
    ensures Kept(SyncProtocol.Run(u, SyncProtocol.Run(u, INIT, actions), more), u, op)
  {
    assert QueueInv(INIT, u);
    hide SyncProtocol.Run, QueueInv;
    RunKeepsQueues(u, INIT, actions);
    RunKeeps(u, SyncProtocol.Run(u, INIT, actions), more, op);
  }

  /** A sync with a conflict drops nothing from the queue; one without drops only what is recorded. */
  lemma FinishDropsOnlyRecorded(u: Id, actions: seq<Action>, saved: bool, op: Id)
    requires var s := SyncProtocol.Run(u, INIT, actions);
             Finishing(s) && Queued(s.mem.pending, op) && !Queued(SyncProtocol.Act(u, s, Finish(saved)).mem.pending, op)
    ensures var s := SyncProtocol.Run(u, INIT, actions); !s.phase.conflicted && Recorded(s.t, u, op)
  {
    assert QueueInv(INIT, u);
    RunKeepsQueues(u, INIT, actions);
    var s := SyncProtocol.Run(u, INIT, actions);
    hide SyncProtocol.Run, Recorded;
    if !s.phase.conflicted { AllRecorded(s.t, u, s.mem.pending, op); }
  }

  /** A finished sync moves to the response's revision, clears the queue iff it saw no conflict, and reaches the disk
      iff it was saved. */
  lemma FinishClearsIff(u: Id, s: State, saved: bool)
    requires Finishing(s)
    ensures var s' := SyncProtocol.Act(u, s, Finish(saved));
            && s'.phase.Idle? && s'.cache == s.cache && s'.t == s.t
            && s'.mem.lastRev == s.phase.maxRev
            && (s'.mem.pending == [] <==> s.mem.pending == [] || !s.phase.conflicted)
            && (s.phase.conflicted ==> s'.mem.pending == s.mem.pending)
            && s'.disk == (if saved then s'.mem else s.disk)
  {
  }
}
