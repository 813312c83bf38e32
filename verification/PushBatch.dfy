/** Running a batch of pending operations, and re-sending it after a crash. */
module PushBatch {
  import opened Base
  import opened Vault
  import opened Push
  import opened EngineService

  function AcceptedOf(os: seq<Outcome>): seq<(Id, Output)>
    decreases |os|
  {
    if os == [] then []
    else
      var rest, o := AcceptedOf(os[..|os| - 1]), os[|os| - 1];
      if o.Accepted? then rest + [(o.op, o.out)] else rest
  }

  function ConflictsOf(os: seq<Outcome>): seq<Id>
    decreases |os|
  {
    if os == [] then []
    else
      var rest, o := ConflictsOf(os[..|os| - 1]), os[|os| - 1];
      if o.Conflicted? then rest + [o.op] else rest
  }

  /** `ids` is an order-preserving merge of the accepted and the conflicting operations. */
  ghost predicate Partitions(accepted: seq<(Id, Output)>, conflicts: seq<Id>, ids: seq<Id>)
    decreases |ids|
  {
    if ids == [] then accepted == [] && conflicts == []
    else
      var id, rest := ids[|ids| - 1], ids[..|ids| - 1];
      || (accepted != [] && accepted[|accepted| - 1].0 == id && Partitions(accepted[..|accepted| - 1], conflicts, rest))
      || (conflicts != [] && conflicts[|conflicts| - 1] == id
          && Partitions(accepted, conflicts[..|conflicts| - 1], rest))
  }

  function Ids(ops: seq<PendingOp>): seq<Id> {
    seq(|ops|, i requires 0 <= i < |ops| => Trim(ops[i].op))
  }

  lemma PushNames(t: Tables, user: Id, p: PendingOp, env: Env)
    ensures var o := PushOne(t, user, p, env).1;
            && (o.Accepted? ==> o.op == Trim(p.op))
            && (o.Conflicted? ==> o.op == Trim(p.op) && PushOne(t, user, p, env).0 == t)
  {
  }

  /** On success every operation has exactly one answer, and accepted and conflicts partition the batch in order. */
  lemma {:induction false} AnswersPartition(t: Tables, user: Id, ops: seq<PendingOp>, envs: seq<Env>)
    requires |envs| == |ops| && !Stopped(Batch(t, user, ops, envs).1)
    ensures var os := Batch(t, user, ops, envs).1;
            |os| == |ops| && Partitions(AcceptedOf(os), ConflictsOf(os), Ids(ops))
    decreases |ops|
  {
    hide PushOne;
    if ops != [] {
      var n := |ops| - 1;
      var (t1, os) := Batch(t, user, ops[..n], envs[..n]);
      AnswersPartition(t, user, ops[..n], envs[..n]);
      PushNames(t1, user, ops[n], envs[n]);
      assert Batch(t, user, ops, envs).1[..n] == os;
      assert Ids(ops)[..n] == Ids(ops[..n]);
    }
  }

  /** What follows a failure is not executed. */
  lemma {:induction false} StoppedStays(t: Tables, user: Id, ops: seq<PendingOp>, envs: seq<Env>, i: nat)
    requires |envs| == |ops| && i <= |ops| && Stopped(Batch(t, user, ops[..i], envs[..i]).1)
    ensures Batch(t, user, ops, envs) == Batch(t, user, ops[..i], envs[..i])
    decreases |ops|
  {
    hide PushOne;
    if i == |ops| {
      assert ops[..i] == ops && envs[..i] == envs;
    } else {
      var n := |ops| - 1;
      assert ops[..n][..i] == ops[..i] && envs[..n][..i] == envs[..i];
      StoppedStays(t, user, ops[..n], envs[..n], i);
    }
  }

  /** One iteration of the batch loop. */
  lemma BatchGrows(t: Tables, user: Id, ops: seq<PendingOp>, envs: seq<Env>, i: nat)
    requires |envs| == |ops| && i < |ops| && !Stopped(Batch(t, user, ops[..i], envs[..i]).1)
    ensures var (t1, os) := Batch(t, user, ops[..i], envs[..i]);
            var (t2, o) := PushOne(t1, user, ops[i], envs[i]);
            && Batch(t, user, ops[..i + 1], envs[..i + 1]) == (t2, os + [o])
            && AcceptedOf(os + [o]) == (if o.Accepted? then AcceptedOf(os) + [(o.op, o.out)] else AcceptedOf(os))
            && ConflictsOf(os + [o]) == (if o.Conflicted? then ConflictsOf(os) + [o.op] else ConflictsOf(os))
  {
    hide PushOne;
    assert ops[..i + 1][..i] == ops[..i] && envs[..i + 1][..i] == envs[..i];
    var (t1, os) := Batch(t, user, ops[..i], envs[..i]);
    var o := PushOne(t1, user, ops[i], envs[i]).1;
    assert (os + [o])[..|os|] == os;
  }

  /** applyPendingOperation over the shared tables. */
  method Apply(engine: Engine, user: Id, p: PendingOp, env: Env) returns (o: Outcome)
    modifies engine
    ensures o == PushOne(old(engine.State()), user, p, env).1
    ensures !o.Failed? ==> engine.State() == PushOne(old(engine.State()), user, p, env).0
    ensures o.Failed? ==> engine.nextRev >= PushOne(old(engine.State()), user, p, env).0.nextRev
                          && engine.State() == PushOne(old(engine.State()), user, p, env).0.(nextRev := engine.nextRev)
  {
    var called := ToCall(user, p, env);
    if called.Err? { return Failed(called.error); }
    var r := engine.WithTx(called.value);
    if r.Ok? { return Accepted(Trim(p.op), r.value); }
    if r.error == Conflict && !called.value.Create? { return Conflicted(Trim(p.op)); }
    return Failed(r.error);
  }

  /** runPushOperations: one transaction per operation, stopping at the first failure. */
  method RunPushOperations(engine: Engine, user: Id, ops: seq<PendingOp>, envs: seq<Env>)
    returns (accepted: seq<(Id, Output)>, conflicts: seq<Id>, err: Option<Error>)
    requires |envs| == |ops|
    modifies engine
    ensures var (t, os) := Batch(old(engine.State()), user, ops, envs);
            && (err.None? <==> !Stopped(os))
            && (err.None? ==> engine.State() == t && accepted == AcceptedOf(os) && conflicts == ConflictsOf(os)
                              && Partitions(accepted, conflicts, Ids(ops)))
            && (err.Some? ==> accepted == [] && conflicts == [] && os[|os| - 1] == Failed(err.value)
                              && engine.nextRev >= t.nextRev && engine.State() == t.(nextRev := engine.nextRev))
  {
    hide PushOne, Partitions, AcceptedOf, ConflictsOf, Ids;
    ghost var t0 := engine.State();
    accepted, conflicts := [], [];
    ghost var os: seq<Outcome> := [];
    assert AcceptedOf(os) == [] && ConflictsOf(os) == [] by { NoOutcomes(); }
    var i := 0;
    while i < |ops|
      invariant 0 <= i <= |ops| && !Stopped(os)
      invariant Batch(t0, user, ops[..i], envs[..i]) == (engine.State(), os)
      invariant accepted == AcceptedOf(os) && conflicts == ConflictsOf(os)
    {
      BatchGrows(t0, user, ops, envs, i);
      var o := Apply(engine, user, ops[i], envs[i]);
      os := os + [o];
      i := i + 1;
      if o.Failed? {
        StoppedStays(t0, user, ops, envs, i);
        return [], [], Some(o.error);
      }
      if o.Accepted? { accepted := accepted + [(o.op, o.out)]; }
      if o.Conflicted? { conflicts := conflicts + [o.op]; }
    }
    assert ops[..i] == ops && envs[..i] == envs;
    AnswersPartition(t0, user, ops, envs);
    err := None;
  }

  lemma NoOutcomes()
    ensures AcceptedOf([]) == [] && ConflictsOf([]) == []
  {
  }
}
