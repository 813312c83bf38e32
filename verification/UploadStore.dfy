/** The upload tables as the source changes them: statements inside transactions that roll back. */
module UploadStore {
  import opened Base
  import opened TextOrder
  import opened Blobs

  datatype Fault = SessionNotFound | NotOpen | SessionExpired | NotAwaitingCommit | BlobNotFound | DuplicateKey

  /** The in-flight blobs whose session expired before the cutoff. */
  ghost function Overdue(st: Store, cutoff: Time): set<Id> {
    set b | b in st.blobs && Expired(st, b, cutoff)
  }

  ghost function Listed(refs: seq<Ref>): set<Id> {
    set i | 0 <= i < |refs| :: refs[i].blob
  }

  /** Rows of the store with their object keys, in increasing order of id. */
  ghost predicate IsBatch(st: Store, refs: seq<Ref>) {
    && (forall i | 0 <= i < |refs| ::
          refs[i].blob in st.blobs && refs[i].key == KeyOf(st.blobs[refs[i].blob].user, refs[i].blob))
    && forall i, k | 0 <= i < k < |refs| :: TextLess(refs[i].blob, refs[k].blob)
  }

  lemma NothingListed(st: Store)
    ensures Listed([]) == {} && IsBatch(st, [])
  {
  }

  lemma ListedGrows(refs: seq<Ref>, r: Ref)
    ensures Listed(refs + [r]) == Listed(refs) + {r.blob}
  {
    assert (refs + [r])[|refs|] == r;
    forall b | b in Listed(refs) ensures b in Listed(refs + [r]) {
      var i :| 0 <= i < |refs| && refs[i].blob == b;
      assert (refs + [r])[i].blob == b;
    }
  }

  /** Every id of `a` comes before every id of `b`. */
  ghost predicate Before(a: set<Id>, b: set<Id>) {
    forall x, y | x in a && y in b :: TextLess(x, y)
  }

  lemma ListedOneMore(st: Store, refs: seq<Ref>, b: Id, todo: set<Id>)
    requires IsBatch(st, refs) && Least(b, todo) && b in st.blobs && Before(Listed(refs), todo)
    ensures var refs' := refs + [Ref(b, KeyOf(st.blobs[b].user, b))];
            IsBatch(st, refs') && Listed(refs') == Listed(refs) + {b} && Before(Listed(refs'), todo - {b})
  {
    hide KeyOf, TextLess;
    var r := Ref(b, KeyOf(st.blobs[b].user, b));
    ListedGrows(refs, r);
    forall i | 0 <= i < |refs| ensures TextLess(refs[i].blob, b) { assert refs[i].blob in Listed(refs); }
  }

  class Uploads {
    var now: Time
    var blobs: map<Id, Blob>
    var sessions: map<Id, Session>
    var objects: map<string, Bytes>

    constructor ()
      ensures now == 0 && blobs == map[] && sessions == map[] && objects == map[]
    {
      now, blobs, sessions, objects := 0, map[], map[], map[];
    }

    ghost function State(): (st: Store)
      reads this
    {
      Store(now, blobs, sessions, objects, map[], map[], {})
    }

    /** Blob row and session row in one transaction; either insert may hit a key. */
    method StartSession(b: Id, row: Blob, s: Id, session: Session) returns (fault: Option<Fault>)
      modifies `blobs, `sessions
      ensures fault.None? <==> b !in old(blobs) && s !in old(sessions)
                               && forall s2 | s2 in old(sessions) :: old(sessions)[s2].blob != session.blob
      ensures fault.None? ==> blobs == old(blobs)[b := row] && sessions == old(sessions)[s := session]
      ensures fault.Some? ==> State() == old(State())
    {
      var saved := blobs;
      if b in blobs { return Some(DuplicateKey); }
      blobs := blobs[b := row];
      if s in sessions || exists s2 :: s2 in sessions && sessions[s2].blob == session.blob {
        blobs := saved;
        return Some(DuplicateKey);
      }
      sessions := sessions[s := session];
      fault := None;
    }

    method DeleteSession(user: Id, s: Id) returns (fault: Option<Fault>)
      modifies `sessions
      ensures State() == DropSession(old(State()), user, s)
      ensures fault.None? <==> s in old(sessions) && old(sessions)[s].user == user
      ensures fault.Some? ==> fault.value == SessionNotFound
    {
      if s !in sessions || sessions[s].user != user { return Some(SessionNotFound); }
      sessions := sessions - {s};
      fault := None;
    }

    method FailBlob(user: Id, b: Id) returns (fault: Option<Fault>)
      modifies `blobs
      ensures State() == MarkFailed(old(State()), user, b)
      ensures fault.None? <==> b in old(blobs) && old(blobs)[b].user == user
                               && (old(blobs)[b].status.Pending? || old(blobs)[b].status.Uploading?)
      ensures fault.None? ==> blobs == old(blobs)[b := old(blobs)[b].(status := Failed)]
      ensures fault.None? <==> State() != old(State())
    {
      if b !in blobs || blobs[b].user != user || !(blobs[b].status.Pending? || blobs[b].status.Uploading?) {
        return Some(BlobNotFound);
      }
      assert blobs[b].status != Failed;
      blobs := blobs[b := blobs[b].(status := Failed)];
      assert old(blobs)[b] != blobs[b];
      fault := None;
    }

    /** Session to awaiting-commit, then blob to uploading; all or nothing. */
    method CompleteClientUpload(user: Id, s: Id, received: nat) returns (fault: Option<Fault>)
      modifies `blobs, `sessions
      ensures fault.None? <==> CanComplete(old(State()), user, s, received)
      ensures fault.None? ==> State() == CompleteUpload(old(State()), s, received)
      ensures fault.None? ==>
                && s in old(sessions) && old(sessions)[s].blob in old(blobs)
                && sessions == old(sessions)[s := old(sessions)[s].(received := received, status := AwaitingCommit)]
                && blobs == old(blobs)[old(sessions)[s].blob := old(blobs)[old(sessions)[s].blob].(status := Uploading)]
      ensures fault.Some? ==> State() == old(State())
      ensures fault == Some(BlobNotFound)
              <==> (&& s in old(sessions) && old(sessions)[s].user == user && old(sessions)[s].status.Open?
                    && old(sessions)[s].size == received
                    && var b := old(sessions)[s].blob;
                    !(b in old(blobs) && old(blobs)[b].user == user && old(blobs)[b].status.Pending?))
      ensures fault == Some(SessionNotFound) <==> s !in old(sessions) || old(sessions)[s].user != user
      ensures fault == Some(NotOpen) <==> s in old(sessions) && old(sessions)[s].user == user
                                          && (!old(sessions)[s].status.Open? || old(sessions)[s].size != received)
    {
      var saved := sessions;
      if s !in sessions || sessions[s].user != user { return Some(SessionNotFound); }
      if !sessions[s].status.Open? || sessions[s].size != received { return Some(NotOpen); }
      sessions := sessions[s := sessions[s].(received := received, status := AwaitingCommit)];
      var b := sessions[s].blob;
      if b !in blobs || blobs[b].user != user || !blobs[b].status.Pending? {
        sessions := saved;
        return Some(BlobNotFound);
      }
      blobs := blobs[b := blobs[b].(status := Uploading)];
      fault := None;
    }

    /** Session row deleted, blob marked committed; all or nothing. */
    method CommitUploadedBlob(user: Id, s: Id) returns (fault: Option<Fault>)
      modifies `blobs, `sessions
      ensures fault.None? <==> CanCommit(old(State()), user, s)
      ensures fault.None? ==> State() == CommitUploaded(old(State()), s)
      ensures fault.None? ==>
                && s in old(sessions) && old(sessions)[s].blob in old(blobs) && sessions == old(sessions) - {s}
                && blobs == old(blobs)[old(sessions)[s].blob := old(blobs)[old(sessions)[s].blob].(status := Committed)]
      ensures fault.Some? ==> State() == old(State())
      ensures fault == Some(SessionNotFound) <==> s !in old(sessions) || old(sessions)[s].user != user
      ensures fault == Some(NotAwaitingCommit)
              <==> (s in old(sessions) && old(sessions)[s].user == user && now <= old(sessions)[s].expires
                    && !old(sessions)[s].status.AwaitingCommit?)
      ensures fault == Some(BlobNotFound)
              <==> (&& s in old(sessions) && old(sessions)[s].user == user && now <= old(sessions)[s].expires
                    && old(sessions)[s].status.AwaitingCommit?
                    && var b := old(sessions)[s].blob;
                    !(b in old(blobs) && old(blobs)[b].user == user && old(blobs)[b].status.Uploading?))
      ensures fault == Some(SessionExpired)
              <==> (s in old(sessions) && old(sessions)[s].user == user && now > old(sessions)[s].expires)
    {
      var saved := sessions;
      if s !in sessions || sessions[s].user != user { return Some(SessionNotFound); }
      var b := sessions[s].blob;
      if now > sessions[s].expires { return Some(SessionExpired); }
      if !sessions[s].status.AwaitingCommit? { return Some(NotAwaitingCommit); }
      sessions := sessions - {s};
      if b !in blobs || blobs[b].user != user || !blobs[b].status.Uploading? {
        sessions := saved;
        return Some(BlobNotFound);
      }
      blobs := blobs[b := blobs[b].(status := Committed)];
      fault := None;
    }

    /** `works` says whether the database carries the delete out. */
    method DeleteBlobByID(b: Id, works: bool) returns (found: bool)
      modifies `blobs, `sessions
      ensures State() == if works then DropBlob(old(State()), b) else old(State())
      ensures found <==> works && b in old(blobs)
    {
      if !works { return false; }
      found := b in blobs;
      blobs := blobs - {b};
      sessions := map s | s in sessions && sessions[s].blob != b :: sessions[s];
    }

    /** The object store may refuse. */
    method DeleteObject(key: string) returns (ok: bool)
      modifies `objects
      ensures objects == if ok then old(objects) - {key} else old(objects)
    {
      if * {
        objects := objects - {key};
        ok := true;
      } else {
        ok := false;
      }
    }

    method Candidates(cutoff: Time) returns (todo: set<Id>)
      ensures todo == Overdue(State(), cutoff) && forall b | b in todo :: b in blobs
    {
      todo := set s | s in sessions && sessions[s].expires < cutoff && sessions[s].blob in blobs
                      && (blobs[sessions[s].blob].status.Pending? || blobs[sessions[s].blob].status.Uploading?)
                    :: sessions[s].blob;
    }

    /** The first `limit` overdue blobs in the order of their ids. */
    method ListExpired(cutoff: Time, limit: int) returns (refs: seq<Ref>)
      ensures IsBatch(State(), refs) && Listed(refs) <= Overdue(State(), cutoff)
      ensures Before(Listed(refs), Overdue(State(), cutoff) - Listed(refs))
      ensures |refs| <= if limit < 0 then 0 else limit
      ensures |refs| < limit ==> Listed(refs) == Overdue(State(), cutoff)
    {
      refs := [];
      if limit <= 0 { return; }
      var todo := Candidates(cutoff);
      ghost var all := todo;
      hide Overdue, KeyOf, Listed, IsBatch, TextLess;
      NothingListed(State());
      while todo != {} && |refs| < limit
        invariant |refs| <= limit && IsBatch(State(), refs) && Listed(refs) !! todo && Listed(refs) + todo == all
        invariant Before(Listed(refs), todo)
        decreases |todo|
      {
        ghost var least := LeastOf(todo);
        assert Least(least, todo);
        var b :| b in todo && forall x | x in todo :: x == b || TextLess(b, x);
        assert Least(b, todo) && b in all;
        hide Before, Least;
        ListedOneMore(State(), refs, b, todo);
        todo := todo - {b};
        refs := refs + [Ref(b, KeyOf(blobs[b].user, b))];
      }
      assert all - Listed(refs) == todo;
    }
  }
}
