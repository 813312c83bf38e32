/** Reading the revision log: the events of one user after a revision, joined with current rows. */
module Revisions {
  import opened Base
  import opened Vault
  import opened VaultHistory

  /** Log rows of `user` past `rev`, oldest first. */
  function After(log: seq<Entry>, user: Id, rev: nat): seq<Entry>
    decreases |log|
  {
    if log == [] then []
    else
      var rest, e := After(log[..|log| - 1], user, rev), log[|log| - 1];
      if e.user == user && e.rev > rev then rest + [e] else rest
  }

  function Prefix<T>(s: seq<T>, limit: nat): seq<T> {
    if |s| <= limit then s else s[..limit]
  }

  /** ListRevisionEventsAfter. */
  function List(t: Tables, user: Id, rev: nat, limit: nat): seq<Event> {
    var rows := Prefix(After(t.log, user, rev), limit);
    seq(|rows|, i requires 0 <= i < |rows| => Joined(t, rows[i]))
  }

  /** UserMaxRevision. */
  function MaxRev(log: seq<Entry>, user: Id): nat
    decreases |log|
  {
    if log == [] then 0
    else
      var rest, e := MaxRev(log[..|log| - 1], user), log[|log| - 1];
      if e.user == user && e.rev > rest then e.rev else rest
  }

  lemma {:induction false} AfterSound(log: seq<Entry>, user: Id, rev: nat, j: nat)
    requires j < |After(log, user, rev)|
    ensures After(log, user, rev)[j] in log
    ensures After(log, user, rev)[j].user == user && After(log, user, rev)[j].rev > rev
    decreases |log|
  {
    var front := log[..|log| - 1];
    if j < |After(front, user, rev)| {
      AfterSound(front, user, rev, j);
      assert forall e | e in front :: e in log;
    }
  }

  lemma {:induction false} AfterComplete(log: seq<Entry>, user: Id, rev: nat, n: nat)
    requires n < |log| && log[n].user == user && log[n].rev > rev
    ensures log[n] in After(log, user, rev)
    decreases |log|
  {
    if n < |log| - 1 {
      assert log[..|log| - 1][n] == log[n];
      AfterComplete(log[..|log| - 1], user, rev, n);
    }
  }

  lemma {:induction false} AfterIncreases(log: seq<Entry>, user: Id, rev: nat, i: nat, j: nat)
    requires RevisionsIncrease(log) && i < j < |After(log, user, rev)|
    ensures After(log, user, rev)[i].rev < After(log, user, rev)[j].rev
    decreases |log|
  {
    var front := log[..|log| - 1];
    var rest := After(front, user, rev);
    assert RevisionsIncrease(front);
    if j < |rest| {
      AfterIncreases(front, user, rev, i, j);
    } else {
      AfterSound(front, user, rev, i);
      var n :| 0 <= n < |front| && front[n] == rest[i];
      assert log[n].rev < log[|log| - 1].rev;
    }
  }

  lemma {:induction false} MaxRevBounds(log: seq<Entry>, user: Id, n: nat)
    requires n < |log| && log[n].user == user
    ensures log[n].rev <= MaxRev(log, user)
    decreases |log|
  {
    if n < |log| - 1 {
      assert log[..|log| - 1][n] == log[n];
      MaxRevBounds(log[..|log| - 1], user, n);
    }
  }

  lemma {:induction false} MaxRevBelow(log: seq<Entry>, user: Id, bound: nat)
    requires 1 <= bound && forall n | 0 <= n < |log| :: log[n].rev < bound
    ensures MaxRev(log, user) < bound
    decreases |log|
  {
    if log != [] { MaxRevBelow(log[..|log| - 1], user, bound); }
  }

  lemma {:induction false} MaxRevGrows(log: seq<Entry>, log': seq<Entry>, user: Id)
    requires log <= log'
    ensures MaxRev(log, user) <= MaxRev(log', user)
    decreases |log'|
  {
    if log != log' { MaxRevGrows(log, log'[..|log'| - 1], user); }
  }

  /** The reported revision is 0 or one of the user's own: with MaxRevBounds, their maximum. */
  lemma {:induction false} MaxRevIsOwn(log: seq<Entry>, user: Id)
    ensures || MaxRev(log, user) == 0
            || exists n :: 0 <= n < |log| && log[n].user == user && log[n].rev == MaxRev(log, user)
    decreases |log|
  {
    if log != [] {
      var front, e := log[..|log| - 1], log[|log| - 1];
      MaxRevIsOwn(front, user);
      if e.user == user && e.rev > MaxRev(front, user) {
        assert log[|log| - 1].rev == MaxRev(log, user);
      } else if n :| 0 <= n < |front| && front[n].user == user && front[n].rev == MaxRev(front, user) {
        assert log[n] == front[n];
      }
    }
  }
}
