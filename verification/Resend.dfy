/** Sending a batch again after its answer was lost or it died on the way. */
module Resend {
  import opened Base
  import opened Vault
  import opened VaultHistory
  import opened Push
  import opened PushBatch

  /** Equal tables except for the revision numbers. */
  ghost predicate SameButRevs(a: Tables, b: Tables) {
    && a.items == b.items
    && |a.log| == |b.log| && (forall n | 0 <= n < |a.log| :: a.log[n].(rev := 0) == b.log[n].(rev := 0))
    && a.processed.Keys == b.processed.Keys
    && (forall k | k in a.processed :: a.processed[k].item == b.processed[k].item)
  }

  ghost predicate SameAnswer(a: Outcome, b: Outcome) {
    match a
    case Accepted(op, out) => b.Accepted? && b.op == op && b.out.(rev := 0) == out.(rev := 0)
    case Conflicted(op) => b == a
    case Failed(e) => b == a
  }

  lemma LoggedButRevs(a: Tables, b: Tables, user: Id, op: Id)
    requires SameButRevs(a, b) && Logged(a.log, user, op)
    ensures Logged(b.log, user, op)
  {
    var n :| 0 <= n < |a.log| && a.log[n].user == user && a.log[n].op == op;
    assert a.log[n].(rev := 0) == b.log[n].(rev := 0);
  }

  lemma CommitButRevs(a: Tables, b: Tables, user: Id, op: Id, id: Id, change: ChangeType, row: Item)
    requires SameButRevs(a, b)
    ensures SameButRevs(Commit(a, user, op, id, change, row), Commit(b, user, op, id, change, row))
  {
  }

  lemma SameTarget(a: Tables, b: Tables, c: Call)
    requires a.items == b.items
    ensures Target(a, c) == Target(b, c)
  {
  }

  lemma ExecButRevs(a: Tables, b: Tables, c: Call)
    requires SameButRevs(a, b)
    ensures SameButRevs(Exec(a, c).0, Exec(b, c).0)
    ensures var ra, rb := Exec(a, c).1, Exec(b, c).1;
            if ra.Ok? then rb.Ok? && rb.value.(rev := 0) == ra.value.(rev := 0) else rb == ra
  {
    SameTarget(a, b, c);
    assert SameButRevs(b, a);
    if Logged(a.log, c.user, c.op) { LoggedButRevs(a, b, c.user, c.op); }
    if Logged(b.log, c.user, c.op) { LoggedButRevs(b, a, c.user, c.op); }
    assert (c.user, c.op) in a.processed <==> (c.user, c.op) in b.processed;
    if !BlankArguments(c) && (c.user, c.op) !in a.processed && Target(a, c).Ok? {
      var (id, change, row) := Target(a, c).value;
      CommitButRevs(a, b, c.user, c.op, id, change, row);
    }
  }

  lemma PushButRevs(a: Tables, b: Tables, user: Id, p: PendingOp, env: Env)
    requires SameButRevs(a, b)
    ensures SameButRevs(PushOne(a, user, p, env).0, PushOne(b, user, p, env).0)
    ensures SameAnswer(PushOne(a, user, p, env).1, PushOne(b, user, p, env).1)
  {
    hide SameButRevs, Exec;
    if ToCall(user, p, env).Ok? { ExecButRevs(a, b, ToCall(user, p, env).value); }
  }

  /** Every operation of the batch was accepted. */
  predicate AllAccepted(os: seq<Outcome>) {
    forall i | 0 <= i < |os| :: os[i].Accepted?
  }

  /** Two batches reached the same tables up to revision numbers, and stopped alike or not at all. */
  ghost predicate Alike(a: (Tables, seq<Outcome>), b: (Tables, seq<Outcome>)) {
    && SameButRevs(a.0, b.0)
    && (Stopped(a.1) <==> Stopped(b.1)) && (Stopped(a.1) ==> a.1[|a.1| - 1] == b.1[|b.1| - 1])
  }

  lemma ExtendAlike(a: (Tables, seq<Outcome>), b: (Tables, seq<Outcome>), user: Id, p: PendingOp, env: Env)
    requires Alike(a, b)
    ensures Alike(Extend(a, user, p, env), Extend(b, user, p, env))
  {
    hide SameButRevs, PushOne;
    PushButRevs(a.0, b.0, user, p, env);
  }

  /** The operations from k on were executed by nobody yet; both histories run them alike. */
  lemma {:induction false} TailAlike(a: Tables, b: Tables, user: Id, ops: seq<PendingOp>, e1: seq<Env>, e2: seq<Env>,
                                     k: nat)
    requires |e1| == |e2| == |ops| && k <= |ops| && (forall i | k <= i < |ops| :: e1[i] == e2[i])
    requires Alike(Batch(a, user, ops[..k], e1[..k]), Batch(b, user, ops[..k], e2[..k]))
    ensures Alike(Batch(a, user, ops, e1), Batch(b, user, ops, e2))
    decreases |ops|
  {
    hide Alike, Extend;
    if k == |ops| {
      assert ops[..k] == ops && e1[..k] == e1 && e2[..k] == e2;
    } else {
      var n := |ops| - 1;
      assert ops[..n][..k] == ops[..k] && e1[..n][..k] == e1[..k] && e2[..n][..k] == e2[..k];
      TailAlike(a, b, user, ops[..n], e1[..n], e2[..n], k);
      ExtendAlike(Batch(a, user, ops[..n], e1[..n]), Batch(b, user, ops[..n], e2[..n]), user, ops[n], e1[n]);
    }
  }

  /** Each operation of an accepted batch is recorded: sending it again with its payload placed changes nothing. */
  ghost predicate Recorded(t: Tables, user: Id, p: PendingOp) {
    forall env | ToCall(user, p, env).Ok? :: PushOne(t, user, p, env).0 == t && PushOne(t, user, p, env).1.Accepted?
  }

  lemma AcceptedIsRecorded(t: Tables, user: Id, p: PendingOp, env: Env, t': Tables)
    requires Inv(t) && PushOne(t, user, p, env).1.Accepted? && Grows(PushOne(t, user, p, env).0, t')
    ensures Recorded(t', user, p)
  {
    var c := ToCall(user, p, env).value;
    hide Inv, Grows, ToCall, Exec;
    forall env' | ToCall(user, p, env').Ok?
      ensures PushOne(t', user, p, env').0 == t' && PushOne(t', user, p, env').1.Accepted?
    {
      SameOpSameRequest(user, p, env, env');
      ReplayIsAccepted(t, c, t', ToCall(user, p, env').value);
    }
  }

  lemma SameOpSameRequest(user: Id, p: PendingOp, env: Env, env': Env)
    requires ToCall(user, p, env).Ok? && ToCall(user, p, env').Ok?
    ensures SameRequest(ToCall(user, p, env).value, ToCall(user, p, env').value)
  {
  }

  lemma ReplayIsAccepted(t: Tables, c: Call, t': Tables, c': Call)
    requires Inv(t) && Exec(t, c).1.Ok? && Grows(Exec(t, c).0, t') && SameRequest(c, c')
    ensures Exec(t', c').0 == t' && Exec(t', c').1.Ok?
  {
    AnsweredIsProcessed(t, c);
  }

  lemma PushKeepsInv(t: Tables, user: Id, p: PendingOp, env: Env)
    requires Inv(t)
    ensures Inv(PushOne(t, user, p, env).0) && Grows(t, PushOne(t, user, p, env).0)
  {
    if ToCall(user, p, env).Ok? {
      NextKeepsInv(t, Do(ToCall(user, p, env).value));
      NextGrows(t, Do(ToCall(user, p, env).value));
    } else {
      RunGrows(t, []);
    }
  }

  lemma {:induction false} BatchKeepsInv(t: Tables, user: Id, ops: seq<PendingOp>, envs: seq<Env>)
    requires Inv(t) && |envs| == |ops|
    ensures Inv(Batch(t, user, ops, envs).0) && Grows(t, Batch(t, user, ops, envs).0)
    decreases |ops|
  {
    hide Inv, Grows, PushOne;
    if ops == [] {
      RunGrows(t, []);
    } else {
      var n := |ops| - 1;
      BatchKeepsInv(t, user, ops[..n], envs[..n]);
      var t1 := Batch(t, user, ops[..n], envs[..n]).0;
      PushKeepsInv(t1, user, ops[n], envs[n]);
      GrowsTransitive(t, t1, PushOne(t1, user, ops[n], envs[n]).0);
    }
  }

  lemma {:induction false} AllRecorded(t: Tables, user: Id, ops: seq<PendingOp>, envs: seq<Env>, t': Tables)
    requires Inv(t) && |envs| == |ops| && AllAccepted(Batch(t, user, ops, envs).1)
             && Grows(Batch(t, user, ops, envs).0, t')
    ensures |Batch(t, user, ops, envs).1| == |ops|
    ensures forall i | 0 <= i < |ops| :: Recorded(t', user, ops[i])
    decreases |ops|
  {
    hide Inv, Grows, PushOne, Recorded;
    if ops != [] {
      var n := |ops| - 1;
      var (t1, os) := Batch(t, user, ops[..n], envs[..n]);
      var all := Batch(t, user, ops, envs).1;
      assert !Stopped(os) && all == os + [PushOne(t1, user, ops[n], envs[n]).1];
      assert AllAccepted(os) by {
        forall i | 0 <= i < |os| ensures os[i].Accepted? { assert all[i] == os[i]; }
      }
      BatchKeepsInv(t, user, ops[..n], envs[..n]);
      PushKeepsInv(t1, user, ops[n], envs[n]);
      GrowsTransitive(t1, PushOne(t1, user, ops[n], envs[n]).0, t');
      AllRecorded(t, user, ops[..n], envs[..n], t');
      assert all[|os|].Accepted?;
      AcceptedIsRecorded(t1, user, ops[n], envs[n], t');
    }
  }

  lemma {:induction false} RecordedBatchIsQuiet(t: Tables, user: Id, ops: seq<PendingOp>, envs: seq<Env>)
    requires |envs| == |ops|
    requires forall i | 0 <= i < |ops| :: Recorded(t, user, ops[i]) && ToCall(user, ops[i], envs[i]).Ok?
    ensures Batch(t, user, ops, envs).0 == t && |Batch(t, user, ops, envs).1| == |ops|
            && AllAccepted(Batch(t, user, ops, envs).1)
    decreases |ops|
  {
    hide PushOne, ToCall;
    if ops != [] {
      var n := |ops| - 1;
      forall i | 0 <= i < n ensures Recorded(t, user, ops[..n][i]) && ToCall(user, ops[..n][i], envs[..n][i]).Ok? {
        assert ops[..n][i] == ops[i] && envs[..n][i] == envs[i];
      }
      RecordedBatchIsQuiet(t, user, ops[..n], envs[..n]);
      assert Recorded(t, user, ops[n]) && ToCall(user, ops[n], envs[n]).Ok?;
    }
  }

  // ---------------------------------------------------------------- re-sending what was executed

  /** The guard of an update or delete still refuses it with a conflict: for an update the item is live, of this
      user and at another version; for a delete there is no live item of this user at the expected version. */
  predicate StillLoses(t: Tables, user: Id, p: PendingOp) {
    var id := Trim(p.item);
    var live := id in t.items && t.items[id].user == user && t.items[id].deletedAt.None?;
    if p.kind.UpdateOp? then live && t.items[id].version != p.expected
    else p.kind.DeleteOp? && !(live && t.items[id].version == p.expected)
  }

  /** Sending one operation again changes nothing and does not fail the batch. */
  ghost predicate QuietOp(t: Tables, user: Id, p: PendingOp, env: Env) {
    PushOne(t, user, p, env).0 == t && !PushOne(t, user, p, env).1.Failed?
  }

  ghost predicate QuietBatch(t: Tables, user: Id, ops: seq<PendingOp>, envs: seq<Env>)
    requires |envs| == |ops|
  {
    Batch(t, user, ops, envs).0 == t && !Stopped(Batch(t, user, ops, envs).1)
  }

  /** An operation leaves the tables alone or adds a log row. */
  lemma PushLogs(t: Tables, user: Id, p: PendingOp, env: Env)
    ensures var t' := PushOne(t, user, p, env).0; t' == t || |t'.log| == |t.log| + 1
  {
  }

  lemma {:induction false} BatchLogs(t: Tables, user: Id, ops: seq<PendingOp>, envs: seq<Env>)
    requires |envs| == |ops|
    ensures var t' := Batch(t, user, ops, envs).0; t' == t || |t'.log| > |t.log|
    decreases |ops|
  {
    hide PushOne;
    if ops != [] {
      var n := |ops| - 1;
      BatchLogs(t, user, ops[..n], envs[..n]);
      PushLogs(Batch(t, user, ops[..n], envs[..n]).0, user, ops[n], envs[n]);
    }
  }

  /** A batch is quiet exactly when each of its operations is, at the tables it starts from. */
  lemma {:induction false} QuietIff(t: Tables, user: Id, ops: seq<PendingOp>, envs: seq<Env>)
    requires |envs| == |ops|
    ensures QuietBatch(t, user, ops, envs) <==> forall i | 0 <= i < |ops| :: QuietOp(t, user, ops[i], envs[i])
    decreases |ops|
  {
    hide PushOne;
    if ops != [] {
      var n := |ops| - 1;
      var front, envs' := ops[..n], envs[..n];
      QuietIff(t, user, front, envs');
      BatchLogs(t, user, front, envs');
      PushLogs(Batch(t, user, front, envs').0, user, ops[n], envs[n]);
      assert QuietBatch(t, user, ops, envs) <==> QuietBatch(t, user, front, envs') && QuietOp(t, user, ops[n], envs[n]);
      QuietSplits(t, user, ops, envs);
    }
  }

  lemma QuietSplits(t: Tables, user: Id, ops: seq<PendingOp>, envs: seq<Env>)
    requires |envs| == |ops| > 0
    ensures var n := |ops| - 1;
            (forall i | 0 <= i < |ops| :: QuietOp(t, user, ops[i], envs[i]))
            <==> ((forall i | 0 <= i < n :: QuietOp(t, user, ops[..n][i], envs[..n][i]))
                  && QuietOp(t, user, ops[n], envs[n]))
  {
    hide QuietOp;
    var n := |ops| - 1;
    if forall i | 0 <= i < n :: QuietOp(t, user, ops[..n][i], envs[..n][i]) {
      forall i | 0 <= i < n ensures QuietOp(t, user, ops[i], envs[i]) {
        assert QuietOp(t, user, ops[..n][i], envs[..n][i]);
      }
    }
  }

  /** The k-th outcome is that of the k-th operation at the tables the earlier ones left. */
  lemma {:induction false} OutcomeAt(t: Tables, user: Id, ops: seq<PendingOp>, envs: seq<Env>, k: nat)
    requires |envs| == |ops| && k < |ops| && !Stopped(Batch(t, user, ops, envs).1)
    ensures var os := Batch(t, user, ops, envs).1;
            |os| == |ops| && os[k] == PushOne(Batch(t, user, ops[..k], envs[..k]).0, user, ops[k], envs[k]).1
            && !os[k].Failed?
    decreases |ops|
  {
    hide PushOne;
    var n := |ops| - 1;
    if k < n {
      OutcomeAt(t, user, ops[..n], envs[..n], k);
      assert ops[..n][..k] == ops[..k] && envs[..n][..k] == envs[..k];
    } else {
      assert n > 0 ==> |Batch(t, user, ops[..n], envs[..n]).1| == n by {
        if n > 0 { OutcomeAt(t, user, ops[..n], envs[..n], 0); }
      }
    }
  }

  ghost predicate DistinctOps(ops: seq<PendingOp>) {
    forall i, j | 0 <= i < j < |ops| :: Trim(ops[i].op) != Trim(ops[j].op)
  }

  ghost predicate Names(ops: seq<PendingOp>, op: Id) {
    exists i :: 0 <= i < |ops| && Trim(ops[i].op) == op
  }

  /** A batch marks only its own operations as processed. */
  lemma {:induction false} BatchProcesses(t: Tables, user: Id, ops: seq<PendingOp>, envs: seq<Env>, op: Id)
    requires |envs| == |ops| && (user, op) in Batch(t, user, ops, envs).0.processed && (user, op) !in t.processed
    ensures Names(ops, op)
    decreases |ops|
  {
    var n := |ops| - 1;
    var t1 := Batch(t, user, ops[..n], envs[..n]).0;
    if (user, op) in t1.processed {
      BatchProcesses(t, user, ops[..n], envs[..n], op);
      var i :| 0 <= i < n && Trim(ops[..n][i].op) == op;
      assert Trim(ops[i].op) == op;
    } else {
      assert Trim(ops[n].op) == op by { PushProcesses(t1, user, ops[n], envs[n], op); }
    }
  }

  lemma PushProcesses(t: Tables, user: Id, p: PendingOp, env: Env, op: Id)
    requires (user, op) in PushOne(t, user, p, env).0.processed && (user, op) !in t.processed
    ensures Trim(p.op) == op
  {
  }

  /** At any tables that do not know the operation, sending a refused update or delete again is quiet exactly when
      its payload can be placed and its guard still refuses it. */
  lemma QuietConflictIff(t0: Tables, t: Tables, user: Id, p: PendingOp, env: Env, again: Env)
    requires PushOne(t0, user, p, env).1.Conflicted? && (user, Trim(p.op)) !in t.processed && Inv(t)
    ensures QuietOp(t, user, p, again) <==> ToCall(user, p, again).Ok? && StillLoses(t, user, p)
  {
    assert !Logged(t.log, user, Trim(p.op)) by { hide ReplayLog, LogJoins, RevisionsIncrease, PushOne; }
    hide Inv, Logged;
    if ToCall(user, p, again).Ok? {
      var c0, c := ToCall(user, p, env).value, ToCall(user, p, again).value;
      SameOpSameRequest(user, p, env, again);
      assert !BlankArguments(c0) && !c0.Create?;
      RefusedIff(t, c, user, p);
    }
  }

  lemma RefusedIff(t: Tables, c: Call, user: Id, p: PendingOp)
    requires !BlankArguments(c) && !c.Create? && c.user == user && c.item == Trim(p.item) && c.expected == p.expected
    requires (c.Update? <==> p.kind.UpdateOp?) && (c.Delete? <==> p.kind.DeleteOp?)
    requires (c.user, c.op) !in t.processed && !Logged(t.log, c.user, c.op)
    ensures Exec(t, c).0 == t && (Exec(t, c).1.Ok? || Exec(t, c).1.error == Conflict) <==> StillLoses(t, user, p)
    ensures StillLoses(t, user, p) ==> Exec(t, c).1 == Err(Conflict)
  {
    hide BlankArguments, Logged;
    if Target(t, c).Ok? { assert Exec(t, c).0.log != t.log; }
  }

  lemma {:induction false} PrefixGrows(t: Tables, user: Id, ops: seq<PendingOp>, envs: seq<Env>, k: nat)
    requires Inv(t) && |envs| == |ops| && k <= |ops|
    ensures Grows(Batch(t, user, ops[..k], envs[..k]).0, Batch(t, user, ops, envs).0)
    decreases |ops|
  {
    hide Inv, Grows, PushOne;
    if k == |ops| {
      assert ops[..k] == ops && envs[..k] == envs;
      RunGrows(Batch(t, user, ops, envs).0, []);
    } else {
      var n := |ops| - 1;
      assert ops[..n][..k] == ops[..k] && envs[..n][..k] == envs[..k];
      PrefixGrows(t, user, ops[..n], envs[..n], k);
      var t1 := Batch(t, user, ops[..n], envs[..n]).0;
      BatchKeepsInv(t, user, ops[..n], envs[..n]);
      PushKeepsInv(t1, user, ops[n], envs[n]);
      RunGrows(t1, []);
      GrowsTransitive(Batch(t, user, ops[..k], envs[..k]).0, t1, Batch(t, user, ops, envs).0);
    }
  }

  /** An operation that was refused is not recorded by the rest of its batch. */
  lemma {:induction false} RefusedStaysUnknown(t: Tables, user: Id, ops: seq<PendingOp>, envs: seq<Env>, k: nat)
    requires |envs| == |ops| && k < |ops| && DistinctOps(ops) && !Stopped(Batch(t, user, ops, envs).1)
    requires PushOne(Batch(t, user, ops[..k], envs[..k]).0, user, ops[k], envs[k]).1.Conflicted?
    ensures (user, Trim(ops[k].op)) !in Batch(t, user, ops, envs).0.processed
    decreases |ops|
  {
    hide PushOne, Trim;
    var n := |ops| - 1;
    var t1 := Batch(t, user, ops[..n], envs[..n]).0;
    if k == n {
      RefusedIsUnknown(t1, user, ops[n], envs[n]);
    } else {
      assert ops[..n][..k] == ops[..k] && envs[..n][..k] == envs[..k];
      RefusedStaysUnknown(t, user, ops[..n], envs[..n], k);
      var op := Trim(ops[k].op);
      assert op != Trim(ops[n].op);
      if (user, op) in PushOne(t1, user, ops[n], envs[n]).0.processed { PushProcesses(t1, user, ops[n], envs[n], op); }
    }
  }

  lemma RefusedIsUnknown(t: Tables, user: Id, p: PendingOp, env: Env)
    requires PushOne(t, user, p, env).1.Conflicted?
    ensures PushOne(t, user, p, env).0 == t && (user, Trim(p.op)) !in t.processed
  {
  }

  lemma QuietAgainIff(t: Tables, user: Id, ops: seq<PendingOp>, first: seq<Env>, t': Tables, k: nat, again: Env)
    requires Inv(t) && |first| == |ops| && k < |ops| && DistinctOps(ops) && !Stopped(Batch(t, user, ops, first).1)
    requires Inv(t') && Grows(Batch(t, user, ops, first).0, t')
             && t'.processed == Batch(t, user, ops, first).0.processed
    ensures |Batch(t, user, ops, first).1| == |ops|
    ensures QuietOp(t', user, ops[k], again)
            <==> ToCall(user, ops[k], again).Ok?
                 && (Batch(t, user, ops, first).1[k].Conflicted? ==> StillLoses(t', user, ops[k]))
  {
    hide Inv, Grows, Batch, PushOne, ToCall, Trim;
    OutcomeAt(t, user, ops, first, k);
    var tk, o := Batch(t, user, ops[..k], first[..k]).0, Batch(t, user, ops, first).1[k];
    if o.Conflicted? {
      RefusedStaysUnknown(t, user, ops, first, k);
      QuietConflictIff(tk, t', user, ops[k], first[k], again);
    } else {
      BatchKeepsInv(t, user, ops[..k], first[..k]);
      StepOfBatch(t, user, ops, first, k);
      PrefixGrows(t, user, ops, first, k + 1);
      GrowsTransitive(Batch(t, user, ops[..k + 1], first[..k + 1]).0, Batch(t, user, ops, first).0, t');
      AcceptedIsRecorded(tk, user, ops[k], first[k], t');
      RecordedIsQuiet(t', user, ops[k], again);
    }
  }

  lemma RecordedIsQuiet(t: Tables, user: Id, p: PendingOp, env: Env)
    requires Recorded(t, user, p)
    ensures QuietOp(t, user, p, env) <==> ToCall(user, p, env).Ok?
  {
    hide ToCall, Exec;
  }

  lemma StepOfBatch(t: Tables, user: Id, ops: seq<PendingOp>, envs: seq<Env>, k: nat)
    requires |envs| == |ops| && k < |ops| && !Stopped(Batch(t, user, ops, envs).1)
    ensures Batch(t, user, ops[..k + 1], envs[..k + 1]).0
            == PushOne(Batch(t, user, ops[..k], envs[..k]).0, user, ops[k], envs[k]).0
  {
    hide PushOne;
    if Stopped(Batch(t, user, ops[..k], envs[..k]).1) { StoppedStays(t, user, ops, envs, k); }
    assert ops[..k + 1][..k] == ops[..k] && envs[..k + 1][..k] == envs[..k];
  }

  /** What a re-sent batch needs: every payload can be placed again, and every refused operation still loses. */
  ghost predicate Resendable(t: Tables, user: Id, ops: seq<PendingOp>, os: seq<Outcome>, again: seq<Env>)
    requires |os| == |again| == |ops|
  {
    && (forall i | 0 <= i < |ops| :: ToCall(user, ops[i], again[i]).Ok?)
    && (forall i | 0 <= i < |ops| && os[i].Conflicted? :: StillLoses(t, user, ops[i]))
  }

  lemma NoFailure(t: Tables, user: Id, ops: seq<PendingOp>, envs: seq<Env>)
    requires |envs| == |ops| && !Stopped(Batch(t, user, ops, envs).1)
    ensures |Batch(t, user, ops, envs).1| == |ops|
  {
    hide PushOne;
    if ops != [] { OutcomeAt(t, user, ops, envs, 0); }
  }

  /** The same at any tables that differ from those the batch left only in revision numbers drawn. */
  lemma QuietAgainAllIff(t: Tables, user: Id, ops: seq<PendingOp>, first: seq<Env>, again: seq<Env>, t': Tables)
    requires Inv(t) && |first| == |again| == |ops| && DistinctOps(ops) && !Stopped(Batch(t, user, ops, first).1)
    requires var crashed := Batch(t, user, ops, first).0;
             Inv(t') && Grows(crashed, t') && t'.processed == crashed.processed
    ensures |Batch(t, user, ops, first).1| == |ops|
    ensures QuietBatch(t', user, ops, again) <==> Resendable(t', user, ops, Batch(t, user, ops, first).1, again)
  {
    hide Inv, Grows, Batch, PushOne, ToCall, QuietOp, StillLoses, QuietBatch, DistinctOps;
    NoFailure(t, user, ops, first);
    var os := Batch(t, user, ops, first).1;
    forall i | 0 <= i < |ops|
      ensures QuietOp(t', user, ops[i], again[i])
              <==> ToCall(user, ops[i], again[i]).Ok? && (os[i].Conflicted? ==> StillLoses(t', user, ops[i]))
    {
      QuietAgainIff(t, user, ops, first, t', i, again[i]);
    }
    QuietIff(t', user, ops, again);
    if QuietBatch(t', user, ops, again) {
      forall i | 0 <= i < |ops|
        ensures ToCall(user, ops[i], again[i]).Ok? && (os[i].Conflicted? ==> StillLoses(t', user, ops[i]))
      {
        assert QuietOp(t', user, ops[i], again[i]);
      }
    }
  }

  /** A batch of distinct operations ran without failure and its answer was lost. Sending it again leaves the tables as
      they are and fails nowhere if and only if every payload can be placed again and every refused operation still
      loses at the tables the crash left. */
  lemma ResendIsQuietIff(t: Tables, user: Id, ops: seq<PendingOp>, first: seq<Env>, again: seq<Env>, burned: nat)
    requires Inv(t) && |first| == |again| == |ops| && DistinctOps(ops) && !Stopped(Batch(t, user, ops, first).1)
    ensures var (crashed, os) := Batch(t, user, ops, first);
            && |os| == |ops|
            && (QuietBatch(crashed.(nextRev := crashed.nextRev + burned), user, ops, again)
                <==> Resendable(crashed, user, ops, os, again))
  {
    hide Inv, Grows, Batch, QuietBatch, Resendable, DistinctOps, Stopped;
    var crashed := Batch(t, user, ops, first).0;
    BatchKeepsInv(t, user, ops, first);
    NextGrows(crashed, RolledBack(burned));
    NextKeepsInv(crashed, RolledBack(burned));
    var t' := crashed.(nextRev := crashed.nextRev + burned);
    QuietAgainAllIff(t, user, ops, first, again, t');
    ResendableButRevs(crashed, burned, user, ops, Batch(t, user, ops, first).1, again);
  }

  lemma ResendableButRevs(t: Tables, burned: nat, user: Id, ops: seq<PendingOp>, os: seq<Outcome>, again: seq<Env>)
    requires |os| == |again| == |ops|
    ensures Resendable(t.(nextRev := t.nextRev + burned), user, ops, os, again) <==> Resendable(t, user, ops, os, again)
  {
    hide ToCall;
    assert forall p: PendingOp :: StillLoses(t.(nextRev := t.nextRev + burned), user, p) <==> StillLoses(t, user, p);
    hide StillLoses;
  }

  /** Being quiet is reaching the same tables as the run that was answered. */
  lemma QuietIsAlike(a: (Tables, seq<Outcome>), user: Id, ops: seq<PendingOp>, again: seq<Env>, burned: nat)
    requires |again| == |ops| && !Stopped(a.1)
    ensures var t' := a.0.(nextRev := a.0.nextRev + burned);
            Alike(a, Batch(t', user, ops, again)) <==> QuietBatch(t', user, ops, again)
  {
    var t' := a.0.(nextRev := a.0.nextRev + burned);
    BatchLogs(t', user, ops, again);
    BurnedIsSame(a.0, burned);
    hide Batch;
  }

  /** In the terms of crash and resend: the re-sent batch ends like the one that was not interrupted if and only if it
      is resendable. */
  lemma ResendIsAlikeIff(t: Tables, user: Id, ops: seq<PendingOp>, first: seq<Env>, again: seq<Env>, burned: nat)
    requires Inv(t) && |first| == |again| == |ops| && DistinctOps(ops) && !Stopped(Batch(t, user, ops, first).1)
    ensures var straight := Batch(t, user, ops, first);
            var resent := Batch(straight.0.(nextRev := straight.0.nextRev + burned), user, ops, again);
            |straight.1| == |ops| && (Alike(straight, resent) <==> Resendable(straight.0, user, ops, straight.1, again))
  {
    hide Inv, Batch, Alike, QuietBatch, Resendable;
    ResendIsQuietIff(t, user, ops, first, again, burned);
    QuietIsAlike(Batch(t, user, ops, first), user, ops, again, burned);
  }

  /** A batch dies after its first k operations, which ran without failure; if they are resendable, re-sending the whole
      batch ends like one uninterrupted run of it. */
  lemma CrashWithConflicts(t: Tables, user: Id, ops: seq<PendingOp>, first: seq<Env>, again: seq<Env>, k: nat,
                           burned: nat)
    requires Inv(t) && |first| == |again| == |ops| && k <= |ops| && DistinctOps(ops[..k])
    requires var (crashed, os) := Batch(t, user, ops[..k], first[..k]);
             !Stopped(os) && |os| == k && Resendable(crashed, user, ops[..k], os, again[..k])
    ensures var crashed := Batch(t, user, ops[..k], first[..k]).0;
            var resent := Batch(crashed.(nextRev := crashed.nextRev + burned), user, ops, again);
            var straight := Batch(t, user, ops, first[..k] + again[k..]);
            Alike(straight, resent)
  {
    hide Inv, Batch, Alike, Resendable;
    var t' := Batch(t, user, ops[..k], first[..k]).0;
    var e := first[..k] + again[k..];
    assert e[..k] == first[..k];
    ResendIsAlikeIff(t, user, ops[..k], first[..k], again[..k], burned);
    TailAlike(t, t'.(nextRev := t'.nextRev + burned), user, ops, e, again, k);
  }

  /** A batch dies after its first k operations, all accepted (and possibly draws some revision numbers in the
      transaction that was lost); re-sending the whole batch reaches the tables of one uninterrupted run of it,
      up to revision numbers, and fails exactly if that run fails, with the same error. */
  lemma CrashAndResend(t: Tables, user: Id, ops: seq<PendingOp>, first: seq<Env>, again: seq<Env>, k: nat, burned: nat)
    requires Inv(t) && |first| == |again| == |ops| && k <= |ops|
    requires AllAccepted(Batch(t, user, ops[..k], first[..k]).1)
    requires forall i | 0 <= i < k :: ToCall(user, ops[i], again[i]).Ok?
    ensures var crashed := Batch(t, user, ops[..k], first[..k]).0;
            var resent := Batch(crashed.(nextRev := crashed.nextRev + burned), user, ops, again);
            var straight := Batch(t, user, ops, first[..k] + again[k..]);
            Alike(straight, resent)
  {
    hide Inv, Grows, PushOne, Recorded, ToCall, Batch, SameButRevs;
    var crashed := Batch(t, user, ops[..k], first[..k]).0;
    var t' := crashed.(nextRev := crashed.nextRev + burned);
    var e := first[..k] + again[k..];
    assert Grows(crashed, t') by { NextGrows(crashed, RolledBack(burned)); }
    AllRecorded(t, user, ops[..k], first[..k], t');
    RecordedBatchIsQuiet(t', user, ops[..k], again[..k]);
    assert e[..k] == first[..k];
    assert SameButRevs(crashed, t') by { BurnedIsSame(crashed, burned); }
    TailAlike(t, t', user, ops, e, again, k);
  }

  lemma BurnedIsSame(t: Tables, burned: nat)
    ensures SameButRevs(t, t.(nextRev := t.nextRev + burned))
  {
  }

  /** `p` is an operation on `id` that no table knows and whose payload can be placed. */
  ghost predicate Fresh(t: Tables, user: Id, p: PendingOp, env: Env, id: Id) {
    ToCall(user, p, env).Ok? && Trim(p.item) == id && !Blank(id) && (user, Trim(p.op)) !in t.processed
  }

  /** `p` is refused at version `v` of `id`, and `q` then moves the item to the version `p` expects, or deletes it. */
  ghost predicate Overtaken(t: Tables, user: Id, p: PendingOp, q: PendingOp, id: Id) {
    && id in t.items && t.items[id].user == user && t.items[id].deletedAt.None?
    && p.kind.UpdateOp? && p.expected != t.items[id].version && q.expected == t.items[id].version
    && (q.kind.DeleteOp? || (q.kind.UpdateOp? && p.expected == q.expected + 1)) && Trim(p.op) != Trim(q.op)
  }

  lemma OvertakenRun(t: Tables, user: Id, p: PendingOp, q: PendingOp, e: Env, f: Env, id: Id)
    requires Inv(t) && !Blank(user) && Overtaken(t, user, p, q, id)
    requires Fresh(t, user, p, e, id) && Fresh(t, user, q, f, id)
    ensures var (t', os) := Batch(t, user, [p, q], [e, f]);
            |os| == 2 && !Stopped(os) && os[0].Conflicted? && !StillLoses(t', user, p)
  {
    FirstLoses(t, user, p, e, id);
    SecondWins(t, user, q, f, id);
    hide PushOne, Batch, Inv, Blank, ToCall;
    BatchOfTwo(t, user, p, q, e, f);
    hide Trim;
  }

  /** A refused update followed by one that moves the item to the version it expects, or by a delete: sent again, the
      first now wins, or fails the batch with NotFound. Whatever the second attempt places, it does not end like the
      first. */
  lemma ConflictBreaksResend(t: Tables, user: Id, p: PendingOp, q: PendingOp, e: Env, f: Env, again: seq<Env>,
                             burned: nat, id: Id)
    requires Inv(t) && !Blank(user) && |again| == 2 && Overtaken(t, user, p, q, id)
    requires Fresh(t, user, p, e, id) && Fresh(t, user, q, f, id)
    ensures var straight := Batch(t, user, [p, q], [e, f]);
            var resent := Batch(straight.0.(nextRev := straight.0.nextRev + burned), user, [p, q], again);
            !Stopped(straight.1) && !Alike(straight, resent)
  {
    hide Batch, Inv, Alike, Blank, Trim, StillLoses, Fresh, Resendable, Stopped;
    var ops, first := [p, q], [e, f];
    OvertakenRun(t, user, p, q, e, f, id);
    var straight := Batch(t, user, ops, first);
    assert DistinctOps(ops);
    ResendIsAlikeIff(t, user, ops, first, again, burned);
    NotResendable(straight.0, user, ops, straight.1, again);
  }

  lemma BatchSnoc(t: Tables, user: Id, ops: seq<PendingOp>, envs: seq<Env>, p: PendingOp, env: Env)
    requires |envs| == |ops|
    ensures Batch(t, user, ops + [p], envs + [env]) == Extend(Batch(t, user, ops, envs), user, p, env)
  {
    hide Extend;
    assert (ops + [p])[..|ops|] == ops && (envs + [env])[..|ops|] == envs;
  }

  lemma BatchOfOne(t: Tables, user: Id, p: PendingOp, e: Env)
    ensures Batch(t, user, [p], [e]) == (PushOne(t, user, p, e).0, [PushOne(t, user, p, e).1])
  {
    hide PushOne;
    var none: seq<PendingOp>, nothing: seq<Env> := [], [];
    assert Batch(t, user, none, nothing) == (t, []);
    assert [p][..0] == none && [e][..0] == nothing;
    assert [] + [PushOne(t, user, p, e).1] == [PushOne(t, user, p, e).1];
  }

  lemma BatchOfTwo(t: Tables, user: Id, p: PendingOp, q: PendingOp, e: Env, f: Env)
    requires PushOne(t, user, p, e).0 == t && !PushOne(t, user, p, e).1.Failed?
    ensures Batch(t, user, [p, q], [e, f])
            == (PushOne(t, user, q, f).0, [PushOne(t, user, p, e).1, PushOne(t, user, q, f).1])
  {
    hide PushOne, Batch;
    assert [p] + [q] == [p, q] && [e] + [f] == [e, f];
    BatchOfOne(t, user, p, e);
    BatchSnoc(t, user, [p], [e], q, f);
    assert [PushOne(t, user, p, e).1] + [PushOne(t, user, q, f).1]
        == [PushOne(t, user, p, e).1, PushOne(t, user, q, f).1];
  }

  /** The first operation was refused and would not be again. */
  lemma NotResendable(t: Tables, user: Id, ops: seq<PendingOp>, os: seq<Outcome>, again: seq<Env>)
    requires |os| == |again| == |ops| > 0 && os[0].Conflicted? && !StillLoses(t, user, ops[0])
    ensures !Resendable(t, user, ops, os, again)
  {
    hide StillLoses, ToCall;
  }

  lemma FirstLoses(t: Tables, user: Id, p: PendingOp, env: Env, id: Id)
    requires !Blank(user) && id in t.items && t.items[id].user == user && t.items[id].deletedAt.None?
    requires Fresh(t, user, p, env, id) && p.kind.UpdateOp? && p.expected != t.items[id].version
    ensures PushOne(t, user, p, env) == (t, Conflicted(Trim(p.op)))
  {
    PlainOps(user, p, env);
    hide Blank;
  }

  lemma SecondWins(t: Tables, user: Id, q: PendingOp, env: Env, id: Id)
    requires Inv(t) && !Blank(user) && id in t.items && t.items[id].user == user && t.items[id].deletedAt.None?
    requires Fresh(t, user, q, env, id) && (q.kind.UpdateOp? || q.kind.DeleteOp?) && q.expected == t.items[id].version
    ensures var (t', o) := PushOne(t, user, q, env);
            o.Accepted? && id in t'.items && t'.items[id].version == t.items[id].version + 1
              && t'.items[id].user == user
            && (t'.items[id].deletedAt.Some? <==> q.kind.DeleteOp?)
  {
    assert !Logged(t.log, user, Trim(q.op)) by { hide ReplayLog, LogJoins, RevisionsIncrease, ToCall; }
    PlainOps(user, q, env);
    hide Inv, Logged, Blank;
  }

  lemma PlainOps(user: Id, p: PendingOp, env: Env)
    requires ToCall(user, p, env).Ok?
    ensures !Blank(Trim(p.op))
  {
    TrimTwice(p.op);
  }
}
