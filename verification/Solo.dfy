/** A call whose statements nothing interrupts does what the atomic engine call does. */
module Solo {
  import opened Base
  import opened Vault
  import opened Interleaving

  function Proceeds(cid: nat, n: nat): seq<Action> {
    if n == 0 then [] else [Proceed(cid)] + Proceeds(cid, n - 1)
  }

  lemma RunProceeds(w: World, cid: nat, n: nat)
    requires n > 0
    ensures Interleaving.Run(w, Proceeds(cid, n)) == Interleaving.Run(Act(w, Proceed(cid)), Proceeds(cid, n - 1))
  {
    hide Act;
    assert Proceeds(cid, n)[1..] == Proceeds(cid, n - 1);
  }

  lemma {:induction false} DoneStays(w: World, cid: nat, n: nat)
    requires cid in w.req && cid in w.at && w.at[cid].Done?
    ensures Interleaving.Run(w, Proceeds(cid, n)) == w
    decreases n
  {
    if n > 0 {
      assert w.at[cid := w.at[cid]] == w.at;
      assert Act(w, Proceed(cid)) == w;
      hide Act;
      RunProceeds(w, cid, n);
      DoneStays(w, cid, n - 1);
    }
  }

  /** The call has ended with these tables and this answer. */
  ghost predicate Ended(w: World, cid: nat, t: Tables, r: Result<Output>) {
    cid in w.at && w.at[cid] == Done(r) && w.t == t
  }

  lemma QuietEnds(w: World, cid: nat, c: Call, r: Result<Output>, n: nat)
    requires n > 0 && cid in w.req && w.req[cid] == c && cid in w.at
             && Act(w, Proceed(cid)) == w.(at := w.at[cid := Done(r)])
    ensures Ended(Interleaving.Run(w, Proceeds(cid, n)), cid, w.t, r)
  {
    hide Act, Interleaving.Run, Proceeds;
    RunProceeds(w, cid, n);
    DoneStays(w.(at := w.at[cid := Done(r)]), cid, n - 1);
  }

  /** An earlier call of the operation stopped between its log append and its idempotency mark, and this one would
      write its row. */
  predicate HalfLogged(t: Tables, c: Call) {
    !BlankArguments(c) && Logged(t.log, c.user, c.op) && (c.user, c.op) !in t.processed && Target(t, c).Ok?
  }

  /** From the log append on. */
  lemma FromWrote(w: World, cid: nat, c: Call, k: (Id, nat), n: nat)
    requires n >= 2 && cid in w.req && w.req[cid] == c && cid in w.at && w.at[cid] == Wrote && cid in w.wrote
             && w.wrote[cid] == k
    requires !Logged(w.t.log, c.user, c.op) && (c.user, c.op) !in w.t.processed
    ensures Ended(Interleaving.Run(w, Proceeds(cid, n)), cid,
                  Tables(w.t.items, w.t.log + [Entry(w.t.nextRev, c.user, c.op, k.0, Change(c), k.1)],
                         w.t.processed[(c.user, c.op) := Processed(k.0, w.t.nextRev)], w.t.nextRev + 1),
                  Ok(Output(k.0, k.1, w.t.nextRev)))
  {
    var w1 := Act(w, Proceed(cid));
    assert w1 == Append(w, cid, c, k);
    var w2 := Act(w1, Proceed(cid));
    assert w2 == Mark(w1, cid, c, k, w.t.nextRev);
    assert w2.at[cid].Done?;
    hide Act;
    RunProceeds(w, cid, n);
    RunProceeds(w1, cid, n - 1);
    DoneStays(w2, cid, n - 2);
  }

  /** From the row write on: the whole of what the atomic call writes, or its error. */
  lemma FromWriting(w: World, cid: nat, c: Call, base: nat, n: nat)
    requires n >= 3 && cid in w.req && w.req[cid] == c && cid in w.at && w.at[cid] == Writing(base)
    requires !BlankArguments(c) && (c.user, c.op) !in w.t.processed && !HalfLogged(w.t, c)
    requires c.Update? ==> base == c.expected && Target(w.t, c).Ok?
    ensures Ended(Interleaving.Run(w, Proceeds(cid, n)), cid, Exec(w.t, c).0, Exec(w.t, c).1)
  {
    hide Logged, BlankArguments;
    if RowWrite(w.t, c, base).Some? {
      var (id, row) := RowWrite(w.t, c, base).value;
      assert Target(w.t, c) == Ok((id, Change(c), row));
      var w1 := Store(w, cid, id, row);
      assert Act(w, Proceed(cid)) == w1;
      hide Act;
      RunProceeds(w, cid, n);
      FromWrote(w1, cid, c, (id, row.version), n - 1);
    } else {
      QuietEnds(w, cid, c, Err(if c.Create? then Internal else Conflict), n);
    }
  }

  lemma FromStart(w: World, cid: nat, c: Call)
    requires cid in w.req && w.req[cid] == c && cid in w.at && w.at[cid] == Start
    requires !HalfLogged(w.t, c)
    ensures Ended(Interleaving.Run(w, Proceeds(cid, 5)), cid, Exec(w.t, c).0, Exec(w.t, c).1)
  {
    hide Logged;
    if BlankArguments(c) {
      QuietEnds(w, cid, c, Err(InvalidArgument), 5);
    } else if (c.user, c.op) in w.t.processed {
      var p := w.t.processed[(c.user, c.op)];
      var w1 := w.(at := w.at[cid := Replaying(p)]);
      assert Act(w, Proceed(cid)) == w1;
      RunProceeds(w, cid, 5);
      QuietEnds(w1, cid, c, Replayed(w.t, c, p), 4);
    } else if c.Update? {
      var w1 := w.(at := w.at[cid := Loading]);
      assert Act(w, Proceed(cid)) == w1;
      RunProceeds(w, cid, 5);
      FromLoading(w1, cid, c);
    } else {
      var w1 := w.(at := w.at[cid := Writing(0)]);
      assert Act(w, Proceed(cid)) == w1;
      RunProceeds(w, cid, 5);
      FromWriting(w1, cid, c, 0, 4);
    }
  }

  lemma FromLoading(w: World, cid: nat, c: Call)
    requires cid in w.req && w.req[cid] == c && cid in w.at && w.at[cid] == Loading && c.Update?
    requires !BlankArguments(c) && (c.user, c.op) !in w.t.processed && !HalfLogged(w.t, c)
    ensures Ended(Interleaving.Run(w, Proceeds(cid, 4)), cid, Exec(w.t, c).0, Exec(w.t, c).1)
  {
    hide Logged, BlankArguments;
    if Target(w.t, c).Ok? {
      var w1 := w.(at := w.at[cid := Writing(c.expected)]);
      assert Act(w, Proceed(cid)) == w1;
      hide Act;
      RunProceeds(w, cid, 4);
      FromWriting(w1, cid, c, c.expected, 3);
    } else {
      QuietEnds(w, cid, c, Err(Target(w.t, c).error), 4);
    }
  }

  /** The row a first execution writes, with the tables it leaves when the log then refuses it. */
  ghost function Rewritten(t: Tables, c: Call): Tables
    requires Target(t, c).Ok?
  {
    t.(items := t.items[Target(t, c).value.0 := Target(t, c).value.2], nextRev := t.nextRev + 1)
  }

  lemma WroteRefused(w: World, cid: nat, c: Call, n: nat)
    requires n >= 1 && cid in w.req && w.req[cid] == c && cid in w.at && w.at[cid] == Wrote && cid in w.wrote
    requires Logged(w.t.log, c.user, c.op)
    ensures Ended(Interleaving.Run(w, Proceeds(cid, n)), cid, w.t.(nextRev := w.t.nextRev + 1), Err(Internal))
  {
    hide Logged;
    var w1 := w.(at := w.at[cid := Done(Err(Internal))], t := w.t.(nextRev := w.t.nextRev + 1));
    assert Act(w, Proceed(cid)) == w1;
    hide Act;
    RunProceeds(w, cid, n);
    DoneStays(w1, cid, n - 1);
  }

  lemma WritingAgain(w: World, cid: nat, c: Call, base: nat, n: nat)
    requires n >= 2 && cid in w.req && w.req[cid] == c && cid in w.at && w.at[cid] == Writing(base)
    requires HalfLogged(w.t, c) && (c.Update? ==> base == c.expected)
    ensures Ended(Interleaving.Run(w, Proceeds(cid, n)), cid, Rewritten(w.t, c), Err(Internal))
  {
    hide Logged, BlankArguments;
    var (id, row) := RowWrite(w.t, c, base).value;
    assert Target(w.t, c) == Ok((id, Change(c), row));
    var w1 := Store(w, cid, id, row);
    assert Act(w, Proceed(cid)) == w1;
    assert Rewritten(w.t, c) == w1.t.(nextRev := w1.t.nextRev + 1);
    hide Act, Target, RowWrite, Rewritten;
    RunProceeds(w, cid, n);
    WroteRefused(w1, cid, c, n - 1);
  }

  lemma StartingAgain(w: World, cid: nat, c: Call)
    requires cid in w.req && w.req[cid] == c && cid in w.at && w.at[cid] == Start && HalfLogged(w.t, c)
    ensures Ended(Interleaving.Run(w, Proceeds(cid, 5)), cid, Rewritten(w.t, c), Err(Internal))
  {
    var w1 := w.(at := w.at[cid := if c.Update? then Loading else Writing(0)]);
    assert Act(w, Proceed(cid)) == w1;
    RunProceeds(w, cid, 5);
    if c.Update? {
      var w2 := w.(at := w.at[cid := Writing(c.expected)]);
      assert w1.at[cid := Writing(c.expected)] == w2.at;
      assert Act(w1, Proceed(cid)) == w2;
      hide Act, Logged, HalfLogged, Rewritten;
      RunProceeds(w1, cid, 4);
      WritingAgain(w2, cid, c, c.expected, 3);
    } else {
      hide Act, Logged, HalfLogged, Rewritten;
      WritingAgain(w1, cid, c, 0, 4);
    }
  }

  /** Begun and run to its end without another statement in between, a call leaves the tables and gives the answer
      of the atomic engine call if and only if it is not half logged. If it is, it writes its row again, answers with
      an error and logs nothing. */
  lemma SoloIsAtomicIff(w: World, cid: nat, c: Call)
    requires cid !in w.req
    ensures var w' := Interleaving.Run(w, [Begin(cid, c)] + Proceeds(cid, 5));
            && (Ended(w', cid, Exec(w.t, c).0, Exec(w.t, c).1) <==> !HalfLogged(w.t, c))
            && (HalfLogged(w.t, c) ==> Ended(w', cid, Rewritten(w.t, c), Err(Internal)))
  {
    var w1 := w.(req := w.req[cid := c], at := w.at[cid := Start]);
    assert Act(w, Begin(cid, c)) == w1;
    assert ([Begin(cid, c)] + Proceeds(cid, 5))[1..] == Proceeds(cid, 5);
    if HalfLogged(w.t, c) {
      assert Exec(w.t, c).0.nextRev != Rewritten(w.t, c).nextRev;
      hide Act, Logged, HalfLogged, Rewritten, Exec;
      StartingAgain(w1, cid, c);
    } else {
      hide Act, Logged, HalfLogged, Exec;
      FromStart(w1, cid, c);
    }
  }
}
