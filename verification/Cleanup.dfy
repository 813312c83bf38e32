/** The reaper's batch loop over the upload tables. */
module Cleanup {
  import opened Base
  import opened TextOrder
  import opened Blobs
  import opened UploadStore

  const CLEANUP_BATCH := 100

  /** The sessions left when the blobs in `gone` are deleted. */
  ghost function Without(sessions: map<Id, Session>, gone: set<Id>): map<Id, Session> {
    map s | s in sessions && sessions[s].blob !in gone :: sessions[s]
  }

  ghost predicate KeyAmong(st: Store, ids: set<Id>, key: string) {
    exists b :: b in ids && b in st.blobs && key == KeyOf(st.blobs[b].user, b)
  }

  /** A store from which the rows of the blobs in `gone` were deleted, and of whose objects at most those of the blobs
      in `all` are missing. */
  ghost predicate Reaped(st0: Store, st: Store, gone: set<Id>, all: set<Id>) {
    && st.now == st0.now && st.blobs == st0.blobs - gone && st.sessions == Without(st0.sessions, gone)
    && (forall k | k in st.objects :: k in st0.objects && st.objects[k] == st0.objects[k])
    && forall k | k in st0.objects && k !in st.objects :: KeyAmong(st0, all, k)
  }

  lemma ReapedNothing(st: Store, all: set<Id>)
    ensures Reaped(st, st, {}, all)
  {
    assert st.blobs - {} == st.blobs && Without(st.sessions, {}) == st.sessions;
  }

  lemma ReapedOverdue(st0: Store, st: Store, gone: set<Id>, all: set<Id>, b: Id, cutoff: Time)
    requires Reaped(st0, st, gone, all)
    ensures Expired(st, b, cutoff) <==> Expired(st0, b, cutoff) && b !in gone
  {
    hide KeyAmong;
    if Expired(st0, b, cutoff) && b !in gone {
      var s :| s in st0.sessions && st0.sessions[s].blob == b && st0.sessions[s].expires < cutoff;
      assert s in st.sessions && st.sessions[s] == st0.sessions[s];
    }
    if Expired(st, b, cutoff) {
      var s :| s in st.sessions && st.sessions[s].blob == b && st.sessions[s].expires < cutoff;
      assert s in st0.sessions && st.sessions[s] == st0.sessions[s];
    }
  }

  lemma OverdueShrinks(st0: Store, st: Store, gone: set<Id>, all: set<Id>, cutoff: Time)
    requires Reaped(st0, st, gone, all)
    ensures Overdue(st, cutoff) == Overdue(st0, cutoff) - gone
  {
    forall b ensures Expired(st, b, cutoff) <==> Expired(st0, b, cutoff) && b !in gone {
      ReapedOverdue(st0, st, gone, all, b, cutoff);
    }
    hide Reaped;
  }

  /** One listed blob: its object possibly erased, its row possibly deleted. */
  lemma ReapedOneMore(st0: Store, st1: Store, gone: set<Id>, all: set<Id>, b: Id, objects: map<string, Bytes>)
    requires Reaped(st0, st1, gone, all) && b in st1.blobs && b in all
    requires objects == st1.objects || objects == st1.objects - {KeyOf(st1.blobs[b].user, b)}
    ensures Reaped(st0, st1.(objects := objects), gone, all)
    ensures Reaped(st0, DropBlob(st1.(objects := objects), b), gone + {b}, all)
  {
    hide KeyOf;
    var st := DropBlob(st1.(objects := objects), b);
    assert st.blobs == st0.blobs - (gone + {b});
    assert st.sessions == Without(st0.sessions, gone + {b});
    forall k | k in st0.objects && k !in objects ensures KeyAmong(st0, all, k) {
      if k in st1.objects { assert b in all && b in st0.blobs && k == KeyOf(st0.blobs[b].user, b); }
    }
    hide KeyAmong;
  }

  /** Rows of the original store not deleted yet, each once, all of them overdue. */
  ghost predicate Fresh(st0: Store, gone: set<Id>, all: set<Id>, refs: seq<Ref>) {
    && (forall i | 0 <= i < |refs| :: refs[i].blob in st0.blobs && refs[i].blob !in gone && refs[i].blob in all
                                      && refs[i].key == KeyOf(st0.blobs[refs[i].blob].user, refs[i].blob))
    && forall i, k | 0 <= i < k < |refs| :: refs[i].blob != refs[k].blob
  }

  lemma BatchIsFresh(st0: Store, st: Store, gone: set<Id>, all: set<Id>, refs: seq<Ref>)
    requires Reaped(st0, st, gone, all) && IsBatch(st, refs) && Listed(refs) <= all
    ensures Fresh(st0, gone, all, refs)
  {
    hide KeyOf, KeyAmong;
    forall i | 0 <= i < |refs| ensures refs[i].blob in all { assert refs[i].blob in Listed(refs); }
    forall i, k | 0 <= i < k < |refs| ensures refs[i].blob != refs[k].blob {
      if refs[i].blob == refs[k].blob { TextAsymmetric(refs[i].blob, refs[k].blob); }
    }
  }

  lemma {:induction false} FreshSize(st: Store, gone: set<Id>, all: set<Id>, refs: seq<Ref>)
    requires Fresh(st, gone, all, refs)
    ensures |Listed(refs)| == |refs| && Listed(refs) !! gone
    decreases |refs|
  {
    if refs != [] {
      var rest := refs[..|refs| - 1];
      FreshSize(st, gone, all, rest);
      ListedGrows(rest, refs[|refs| - 1]);
      assert rest + [refs[|refs| - 1]] == refs;
      assert refs[|refs| - 1].blob !in Listed(rest);
      hide Listed, KeyOf;
    }
  }

  /** The first i listed blobs, without the stuck ones. */
  ghost function DeletedOf(refs: seq<Ref>, i: nat, stuck: set<Id>): set<Id>
    requires i <= |refs|
  {
    Listed(refs[..i]) - stuck
  }

  lemma DeletedAtEnds(refs: seq<Ref>, stuck: set<Id>)
    ensures DeletedOf(refs, 0, stuck) == {} && DeletedOf(refs, |refs|, stuck) == Listed(refs) - stuck
  {
    assert refs[..0] == [] && refs[..|refs|] == refs;
  }

  /** The i-th listed blob, after those before it that are not in `stuck` were deleted. */
  lemma ReapStep(st0: Store, st1: Store, gone: set<Id>, all: set<Id>, stuck: set<Id>, refs: seq<Ref>, i: nat,
                 objects: map<string, Bytes>)
    requires i < |refs| && Fresh(st0, gone, all, refs) && Reaped(st0, st1, gone + DeletedOf(refs, i, stuck), all)
    requires objects == st1.objects || objects == st1.objects - {refs[i].key}
    ensures var b, st2, next := refs[i].blob, st1.(objects := objects), DeletedOf(refs, i + 1, stuck);
            && b in st1.blobs
            && Reaped(st0, if b in stuck then st2 else DropBlob(st2, b), gone + next, all)
            && |next| == |DeletedOf(refs, i, stuck)| + (if b in stuck then 0 else 1)
  {
    hide KeyOf, KeyAmong;
    var b, done := refs[i].blob, Listed(refs[..i]);
    assert b !in done;
    assert b in st1.blobs && st1.blobs[b] == st0.blobs[b];
    assert refs[..i + 1] == refs[..i] + [refs[i]];
    ListedGrows(refs[..i], refs[i]);
    hide Reaped, Listed, DropBlob;
    ReapedOneMore(st0, st1, gone + (done - stuck), all, b, objects);
    if b in stuck {
      assert done + {b} - stuck == done - stuck;
    } else {
      assert done + {b} - stuck == (done - stuck) + {b};
      assert gone + ((done - stuck) + {b}) == gone + (done - stuck) + {b};
    }
  }

  /** One listed blob: object, then row. */
  method ReapOne(store: Uploads, ref: Ref, works: bool) returns (found: bool, ghost objects1: map<string, Bytes>)
    modifies store
    ensures objects1 == old(store.objects) || objects1 == old(store.objects) - {ref.key}
    ensures var st := old(store.State()).(objects := objects1);
            store.State() == if works then DropBlob(st, ref.blob) else st
    ensures found <==> works && ref.blob in old(store.blobs)
  {
    hide DropBlob;
    var ok := store.DeleteObject(ref.key);
    objects1 := store.objects;
    found := store.DeleteBlobByID(ref.blob, works);
  }

  /** One listed batch: objects, then rows; deletes of the rows in `stuck` fail. */
  method ReapBatch(store: Uploads, refs: seq<Ref>, stuck: set<Id>, ghost st0: Store, ghost gone: set<Id>,
                   ghost all: set<Id>)
    returns (removed: nat)
    requires Reaped(st0, store.State(), gone, all) && Fresh(st0, gone, all, refs)
    modifies store
    ensures removed == |Listed(refs) - stuck| && Reaped(st0, store.State(), gone + (Listed(refs) - stuck), all)
  {
    removed := 0;
    var i := 0;
    hide Reaped, Fresh, Listed, DeletedOf, KeyOf, DropBlob;
    DeletedAtEnds(refs, stuck);
    assert gone + {} == gone;
    while i < |refs|
      invariant 0 <= i <= |refs| && removed == |DeletedOf(refs, i, stuck)|
      invariant Reaped(st0, store.State(), gone + DeletedOf(refs, i, stuck), all)
    {
      ghost var st1 := store.State();
      var found;
      ghost var objects1;
      found, objects1 := ReapOne(store, refs[i], refs[i].blob !in stuck);
      ReapStep(st0, st1, gone, all, stuck, refs, i, objects1);
      if found { removed := removed + 1; }
      i := i + 1;
    }
  }

  /** One round of the pass: list a batch, reap it, and stop after a short one. */
  method Round(store: Uploads, cutoff: Time, size: int, stuck: set<Id>, ghost st0: Store, ghost gone: set<Id>)
    returns (n: nat, last: bool, ghost listed: set<Id>)
    requires 0 < size && Reaped(st0, store.State(), gone, Overdue(st0, cutoff))
    modifies store
    ensures listed <= Overdue(st0, cutoff) - gone && n == |listed - stuck|
    ensures Reaped(st0, store.State(), gone + (listed - stuck), Overdue(st0, cutoff))
    ensures if last then listed == Overdue(st0, cutoff) - gone && |listed| < size else |listed| == size
  {
    hide Reaped, IsBatch, Listed, Overdue, Before, Fresh;
    ghost var all := Overdue(st0, cutoff);
    var refs := store.ListExpired(cutoff, size);
    OverdueShrinks(st0, store.State(), gone, all, cutoff);
    listed := Listed(refs);
    BatchIsFresh(st0, store.State(), gone, all, refs);
    FreshSize(st0, gone, all, refs);
    if |refs| == 0 {
      NothingListed(st0);
      assert gone + ({} - stuck) == gone;
      return 0, true, {};
    }
    n := ReapBatch(store, refs, stuck, st0, gone, all);
    last := |refs| < size;
  }

  /** What one round leaves to do. */
  lemma RoundProgress(all: set<Id>, stuck: set<Id>, gone: set<Id>, listed: set<Id>)
    requires gone <= all - stuck && listed <= all - gone
    ensures gone + (listed - stuck) <= all - stuck && |gone + (listed - stuck)| == |gone| + |listed - stuck|
    ensures |all * stuck| < |listed| ==> |listed - stuck| > 0
    ensures listed == all - gone ==> gone + (listed - stuck) == all - stuck && |all * stuck| <= |listed|
  {
    assert gone !! listed - stuck;
    assert listed == (listed - stuck) + (listed * stuck);
    SubsetSize(listed * stuck, all * stuck);
    if listed == all - gone { SubsetSize(all * stuck, listed); }
  }

  lemma {:induction false} SubsetSize(a: set<Id>, b: set<Id>)
    requires a <= b
    ensures |a| <= |b|
  {
    assert b == a + (b - a);
  }

  /** No pending or uploading blob is left whose session expired before the cutoff, but stuck ones. */
  ghost predicate NoneLeft(st: Store, cutoff: Time, stuck: set<Id>) {
    forall b, s | b in st.blobs && s in st.sessions && st.sessions[s].blob == b && st.sessions[s].expires < cutoff ::
      st.blobs[b].status.Pending? || st.blobs[b].status.Uploading? ==> b in stuck
  }

  /** A row that is gone was pending or uploading and had a session that expired before the pass began; the others are
      as they were. */
  ghost predicate OnlyOverdueGone(st0: Store, st: Store) {
    forall b | b in st0.blobs ::
      if b in st.blobs then st.blobs[b] == st0.blobs[b]
      else (st0.blobs[b].status.Pending? || st0.blobs[b].status.Uploading?)
           && exists s :: s in st0.sessions && st0.sessions[s].blob == b && st0.sessions[s].expires < st0.now
  }

  lemma GoneWereOverdue(st0: Store, st: Store, gone: set<Id>, all: set<Id>)
    requires Reaped(st0, st, gone, all) && all == Overdue(st0, st0.now) && gone <= all
    ensures OnlyOverdueGone(st0, st)
  {
    hide KeyAmong, Without;
    forall b | b in st0.blobs && b !in st.blobs ensures b in Overdue(st0, st0.now) {
    }
  }

  lemma NothingOverdue(st0: Store, st: Store, gone: set<Id>, all: set<Id>, stuck: set<Id>)
    requires Reaped(st0, st, gone, all) && all == Overdue(st0, st0.now) && gone == all - stuck
    ensures NoneLeft(st, st0.now, stuck)
  {
    OverdueShrinks(st0, st, gone, all, st0.now);
    hide Reaped;
    forall b, s | b in st.blobs && s in st.sessions && st.sessions[s].blob == b && st.sessions[s].expires < st0.now
      ensures st.blobs[b].status.Pending? || st.blobs[b].status.Uploading? ==> b in stuck
    {
      assert st.blobs[b].status.Pending? || st.blobs[b].status.Uploading? ==> b in Overdue(st, st0.now);
    }
  }

  function BatchOf(batch: int): (size: int)
    ensures 0 < size
  {
    if batch <= 0 then CLEANUP_BATCH else batch
  }

  /** One pass. Deletes of the rows in `stuck` fail, and the context of the pass allows `budget` rounds. Whatever
      happens it removes only overdue blobs and counts them. It ends by itself exactly when fewer overdue rows are
      stuck than a batch holds, whatever the batch size, and then has removed every overdue blob that is not stuck. */
  method CleanupOnce(store: Uploads, batch: int, stuck: set<Id>, budget: nat)
    returns (removed: nat, ended: bool, ghost gone: set<Id>)
    modifies store
    ensures var st0 := old(store.State());
            var all := Overdue(st0, st0.now);
            && gone <= all - stuck && removed == |gone| && Reaped(st0, store.State(), gone, all)
            && (ended ==> gone == all - stuck && |all * stuck| < BatchOf(batch))
            && (budget > |all| && |all * stuck| < BatchOf(batch) ==> ended)
    ensures OnlyOverdueGone(old(store.State()), store.State())
    ensures ended ==> NoneLeft(store.State(), old(store.now), stuck)
  {
    var size := BatchOf(batch);
    var cutoff := store.now;
    ghost var st0 := store.State();
    ghost var all := Overdue(st0, cutoff);
    gone := {};
    removed := 0;
    ended := false;
    var rounds := 0;
    ReapedNothing(st0, all);
    hide Reaped, Overdue;
    while !ended && rounds < budget
      invariant 0 <= rounds <= budget && gone <= all - stuck && removed == |gone|
                && Reaped(st0, store.State(), gone, all)
      invariant ended ==> gone == all - stuck && |all * stuck| < size
      invariant !ended && |all * stuck| < size ==> rounds <= |gone|
      decreases budget - rounds, !ended
    {
      var n: nat;
      ghost var listed: set<Id>;
      n, ended, listed := Round(store, cutoff, size, stuck, st0, gone);
      RoundProgress(all, stuck, gone, listed);
      removed := removed + n;
      gone := gone + (listed - stuck);
      rounds := rounds + 1;
    }
    SubsetSize(gone, all);
    GoneWereOverdue(st0, store.State(), gone, all);
    if ended { NothingOverdue(st0, store.State(), gone, all, stuck); }
  }
}
