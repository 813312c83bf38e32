/** What one pushed operation does and answers, in terms of the operation and the rows alone; and what becomes of an
    edit made on the client. */
module PushOutcome {
  import opened Base
  import opened Vault
  import opened VaultHistory
  import opened Push
  import opened Transfer
  import opened Client
  import opened SyncProtocol
  import opened SyncLimit
  import opened App

  // ---------------------------------------------------------------- one operation

  /** A live item of the user at the version the operation expects. */
  ghost predicate Current(t: Tables, u: Id, p: PendingOp) {
    Live(t, u, Trim(p.item)) && t.items[Trim(p.item)].version == p.expected
  }

  ghost predicate Live(t: Tables, u: Id, id: Id) {
    id in t.items && t.items[id].user == u && t.items[id].deletedAt.None?
  }

  /** The row an accepted operation leaves, column by column. */
  ghost predicate Written(t: Tables, row: Item, u: Id, p: PendingOp, env: Env) {
    && row.user == u && row.updatedAt == env.now
    && (p.kind.CreateOp? ==>
          row.version == 1 && row.createdAt == env.now && row.deletedAt.None? && p.snapshot.Some?
          && row.itemType == p.snapshot.value.itemType)
    && (!p.kind.CreateOp? ==>
          && Current(t, u, p) && row.version == p.expected + 1
          && row.itemType == t.items[Trim(p.item)].itemType && row.createdAt == t.items[Trim(p.item)].createdAt)
    && (p.kind.UpdateOp? ==> row.deletedAt.None?)
    && (p.kind.DeleteOp? ==> row.deletedAt == Some(env.now) && row.content == t.items[Trim(p.item)].content)
    && (!p.kind.DeleteOp? ==>
          && p.snapshot.Some? && env.placed.Ok?
          && Some(row.content.title) == p.snapshot.value.title
            && Some(row.content.metadata) == p.snapshot.value.metadata
          && row.content.payload == env.placed.value.payload && row.content.blobId == env.placed.value.blobId
          && row.content.checksum == env.placed.value.checksum)
  }

  /** The first time an operation is accepted: which row it writes and what is in it, what it logs and marks, and which
      item, version and revision its answer names. Nothing else changes. */
  lemma AcceptedWrites(t: Tables, u: Id, p: PendingOp, env: Env)
    requires (u, Trim(p.op)) !in t.processed && PushOne(t, u, p, env).1.Accepted?
    ensures var (t', o) := PushOne(t, u, p, env);
            var id := if p.kind.CreateOp? then env.freshId else Trim(p.item);
            && (p.kind.CreateOp? || p.kind.UpdateOp? || p.kind.DeleteOp?) && (p.kind.CreateOp? ==> id !in t.items)
            && id in t'.items && t'.items == t.items[id := t'.items[id]] && Written(t, t'.items[id], u, p, env)
            && o == Accepted(Trim(p.op), Output(id, t'.items[id].version, t.nextRev))
            && t'.log == t.log + [Entry(t.nextRev, u, Trim(p.op), id,
                                        if p.kind.CreateOp? then Created else if p.kind.UpdateOp? then Updated
                                          else Deleted,
                                        t'.items[id].version)]
            && t'.processed == t.processed[(u, Trim(p.op)) := Processed(id, t.nextRev)] && t'.nextRev == t.nextRev + 1
  {
    hide Logged, Blank, Trim;
  }

  /** An operation the handlers take on: an id, and for a create or update a snapshot with title, metadata, a type from
      1 to 5 and a payload or blob, for an update or delete an item. */
  ghost predicate WellFormed(p: PendingOp) {
    && Trim(p.op) != ""
    && (p.kind.CreateOp? || ((p.kind.UpdateOp? || p.kind.DeleteOp?) && Trim(p.item) != ""))
    && (!p.kind.DeleteOp? ==>
          && p.snapshot.Some? && p.snapshot.value.title.Some? && p.snapshot.value.metadata.Some?
          && 1 <= p.snapshot.value.itemType <= 5 && (Trim(p.snapshot.value.blobId) != ""
                                                     || p.snapshot.value.payload.Some?))
  }

  /** What a first attempt comes to, for every operation and every state. */
  lemma FreshOutcomeIff(t: Tables, u: Id, p: PendingOp, env: Env)
    requires Inv(t) && !Blank(u) && (u, Trim(p.op)) !in t.processed
    ensures var (t', o) := PushOne(t, u, p, env);
            var placed := p.kind.DeleteOp? || env.placed.Ok?;
            && (o.Accepted? <==> WellFormed(p) && placed
                                 && if p.kind.CreateOp? then env.freshId !in t.items else Current(t, u, p))
            && (o.Conflicted? <==> WellFormed(p) && placed && !p.kind.CreateOp? && !Current(t, u, p)
                                   && (p.kind.UpdateOp? ==> Live(t, u, Trim(p.item))))
            && (placed ==>
                  (o == Failed(NotFound) <==> WellFormed(p) && p.kind.UpdateOp? && !Live(t, u, Trim(p.item))))
            && (!WellFormed(p) ==> o == Failed(InvalidArgument))
            && (WellFormed(p) && !placed ==> o == Failed(env.placed.error))
            && (!o.Accepted? ==> t' == t)
  {
    assert !Logged(t.log, u, Trim(p.op)) by { hide ReplayLog, LogJoins, RevisionsIncrease; }
    TrimTwice(p.op);
    TrimTwice(p.item);
    hide Inv, Logged, Trim;
  }

  /** A repeated operation changes nothing; its answer names the recorded item and revision and the present version. */
  lemma RepeatAnswers(t: Tables, u: Id, p: PendingOp, env: Env)
    requires (u, Trim(p.op)) in t.processed && !Blank(u) && WellFormed(p) && (p.kind.DeleteOp? || env.placed.Ok?)
    ensures var (t', o) := PushOne(t, u, p, env);
            var done := t.processed[(u, Trim(p.op))];
            && t' == t
            && if !p.kind.CreateOp? && done.item != "" && done.item != Trim(p.item) then o == Failed(InvalidArgument)
               else if done.item in t.items && t.items[done.item].user == u
               then o == Accepted(Trim(p.op), Output(done.item, t.items[done.item].version, done.rev))
               else o == Failed(NotFound)
  {
    TrimTwice(p.op);
    TrimTwice(p.item);
    hide Logged, Trim;
  }

  // ---------------------------------------------------------------- an edit, from the client to the server

  /** The server row holds the edit: its title and metadata, and the payload as it was placed. */
  ghost predicate Holds(it: Item, d: Draft, env: Env) {
    && it.deletedAt.None? && it.content.title == d.title && it.content.metadata == d.metadata
    && env.placed.Ok? && it.content.payload == env.placed.value.payload && it.content.blobId == env.placed.value.blobId
    && it.content.checksum == env.placed.value.checksum
  }

  /** A local change that queues its operation alone, and the push of it. */
  lemma FirstPush(u: Id, s: State, a: Action, p: PendingOp, env: Env)
    requires SyncProtocol.Act(u, s, a).phase.Idle? && SyncProtocol.Act(u, s, a).mem.pending == [p]
    ensures var s1 := SyncProtocol.Act(u, s, a);
            var (t', o) := PushOne(s1.t, u, p, env);
            SyncProtocol.Run(u, s, [a, BeginSync, PushNext(env)])
            == s1.(t := t', phase := if o.Failed? then Idle else Pushing(1, o.Conflicted?))
  {
    var s1 := SyncProtocol.Act(u, s, a);
    var acts := [a, BeginSync, PushNext(env)];
    var s2 := SyncProtocol.Act(u, s1, BeginSync);
    assert s2 == s1.(phase := Pushing(0, false));
    hide PushOne;
    var s3 := SyncProtocol.Act(u, s2, PushNext(env));
    assert acts[1..] == [BeginSync, PushNext(env)] && acts[1..][1..] == [PushNext(env)] && [PushNext(env)][1..] == [];
    RunOne(u, s, acts);
    RunOne(u, s1, acts[1..]);
    RunOne(u, s2, [PushNext(env)]);
    assert SyncProtocol.Run(u, s3, []) == s3 by { hide SyncProtocol.Act; }
  }

  /** Edited on a client with nothing else queued and pushed with no other writer in between: the edit is accepted, the
      server row holds it one version up, and its type is the one it had. */
  lemma EditReachesServer(u: Id, s: State, id: Id, d: Draft, op: Id, saved: bool, env: Env)
    requires Inv(s.t) && !Blank(u) && s.phase.Idle? && s.mem.pending == [] && id in s.cache && PlainId(id) && !Blank(op)
    requires (u, Trim(op)) !in s.t.processed && ConcreteType(d.itemType) && env.placed.Ok?
    requires Live(s.t, u, id) && s.t.items[id].version == s.cache[id].version
    ensures var s' := SyncProtocol.Run(u, s, [Edit(id, d, op, saved), BeginSync, PushNext(env)]);
            && s'.phase == Pushing(1, false)
            && id in s'.t.items && Holds(s'.t.items[id], d, env) && s'.t.items[id].version == s.cache[id].version + 1
            && s'.t.items[id].itemType == s.t.items[id].itemType && s'.t.items == s.t.items[id := s'.t.items[id]]
  {
    var p := EditOp(s.cache[id], d, id, op);
    var s1 := SyncProtocol.Act(u, s, Edit(id, d, op, saved));
    assert s1.mem.pending == [p] && s1.t == s.t && s1.phase.Idle?;
    FreshOutcomeIff(s.t, u, p, env);
    hide Inv, PushOne, SyncProtocol.Act, SyncProtocol.Run, Trim;
    AcceptedWrites(s.t, u, p, env);
    FirstPush(u, s, Edit(id, d, op, saved), p, env);
  }

  /** An added item likewise, under the id the server gives it. */
  lemma AddReachesServer(u: Id, s: State, id: Id, d: Draft, blobId: Id, op: Id, saved: bool, env: Env)
    requires Inv(s.t) && !Blank(u) && s.phase.Idle? && s.mem.pending == [] && !Blank(op)
    requires (u, Trim(op)) !in s.t.processed && ConcreteType(d.itemType) && env.placed.Ok? && env.freshId !in s.t.items
    ensures var s' := SyncProtocol.Run(u, s, [Add(d, blobId, id, op, saved), BeginSync, PushNext(env)]);
            && s'.phase == Pushing(1, false)
            && env.freshId in s'.t.items && Holds(s'.t.items[env.freshId], d, env)
              && s'.t.items[env.freshId].version == 1
            && s'.t.items[env.freshId].itemType == d.itemType && s'.t.items[env.freshId].user == u
  {
    var p := AddOp(d, id, op);
    var s1 := SyncProtocol.Act(u, s, Add(d, blobId, id, op, saved));
    assert s1.mem.pending == [p] && s1.t == s.t && s1.phase.Idle?;
    FreshOutcomeIff(s.t, u, p, env);
    hide Inv, PushOne, SyncProtocol.Act, SyncProtocol.Run, Trim;
    AcceptedWrites(s.t, u, p, env);
    FirstPush(u, s, Add(d, blobId, id, op, saved), p, env);
  }

  /** A removed item becomes a tombstone. */
  lemma RemoveReachesServer(u: Id, s: State, id: Id, op: Id, saved: bool, env: Env)
    requires Inv(s.t) && !Blank(u) && s.phase.Idle? && s.mem.pending == [] && id in s.cache && PlainId(id) && !Blank(op)
    requires (u, Trim(op)) !in s.t.processed && Live(s.t, u, id) && s.t.items[id].version == s.cache[id].version
    ensures var s' := SyncProtocol.Run(u, s, [Remove(id, op, saved), BeginSync, PushNext(env)]);
            && s'.phase == Pushing(1, false)
            && id in s'.t.items && s'.t.items[id].deletedAt == Some(env.now)
            && s'.t.items[id].version == s.cache[id].version + 1
  {
    var p := RemoveOp(s.cache[id], id, op);
    var s1 := SyncProtocol.Act(u, s, Remove(id, op, saved));
    assert s1.mem.pending == [p] && s1.t == s.t && s1.phase.Idle?;
    FreshOutcomeIff(s.t, u, p, env);
    hide Inv, PushOne, SyncProtocol.Act, SyncProtocol.Run, Trim;
    AcceptedWrites(s.t, u, p, env);
    FirstPush(u, s, Remove(id, op, saved), p, env);
  }

  /** What the user typed can be read back from the server row with the user's key, when the payload stays inline. */
  lemma ServerRowOpens(a: Aead, dek: Bytes, x: Secret, it: Item, env: Env)
    requires Lawful(a) && Concrete(x) && Holds(it, Encrypted(a, dek, x), env)
    requires env.placed.value.payload == Encrypted(a, dek, x).payload
    ensures a.open(dek, it.content.title.nonce, it.content.title.ciphertext) == Some(x.title)
    ensures a.open(dek, it.content.metadata.nonce, it.content.metadata.ciphertext) == Some(x.metadata)
    ensures a.open(dek, it.content.payload.nonce, it.content.payload.ciphertext) == Some(x.payload)
  {
  }
}
