/** The vault engine and the blob machine side by side: what a vault_items row refers to is there, in every state. */
module ItemPayloads {
  import opened Base
  import Vault
  import Blobs
  import opened BlobSafety
  import BlobRuns
  import opened BlobTheorems
  import opened BlobBytes

  datatype Joint = Joint(w: Blobs.World, t: Vault.Tables)

  datatype Action = OnBlobs(a: Blobs.Action) | OnVault(step: Vault.Step)

  function Act(cfg: Blobs.Config, j: Joint, a: Action): Joint {
    match a
    case OnBlobs(b) => j.(w := Blobs.Act(cfg, j.w, b))
    case OnVault(step) => j.(t := Vault.Next(j.t, step))
  }

  function Run(cfg: Blobs.Config, j: Joint, actions: seq<Action>): Joint
    decreases |actions|
  {
    if actions == [] then j else Run(cfg, Act(cfg, j, actions[0]), actions[1..])
  }

  /** How the payload of a row or of a call is kept. */
  function KeptOf(user: Id, content: Vault.Content): Blobs.Kept {
    Blobs.Kept(user, content.payload, content.blobId, content.checksum)
  }

  /** The payload of a create or update is what a placement that is about to write its item resolved it to. */
  ghost predicate FromPlacement(w: Blobs.World, c: Vault.Call) {
    !c.Delete? ==> exists tid :: tid in w.tasks && w.tasks[tid] == Blobs.PlItem(KeptOf(c.user, c.content))
  }

  /** Engine calls write what was placed. */
  ghost predicate Allowed(j: Joint, a: Action) {
    a.OnVault? && a.step.Do? ==> FromPlacement(j.w, a.step.call)
  }

  ghost predicate AllowedRun(cfg: Blobs.Config, j: Joint, actions: seq<Action>)
    decreases |actions|
  {
    actions == [] || (Allowed(j, actions[0]) && AllowedRun(cfg, Act(cfg, j, actions[0]), actions[1..]))
  }

  /** What the blob machine sees of a run. */
  function OfBlobs(actions: seq<Action>): seq<Blobs.Action>
    decreases |actions|
  {
    if actions == [] then [] else (if actions[0].OnBlobs? then [actions[0].a] else []) + OfBlobs(actions[1..])
  }

  lemma {:induction false} BlobsRunAlone(cfg: Blobs.Config, j: Joint, actions: seq<Action>)
    ensures Run(cfg, j, actions).w == Blobs.Run(cfg, j.w, OfBlobs(actions))
    decreases |actions|
  {
    hide Blobs.Act, Vault.Next;
    if actions != [] {
      BlobsRunAlone(cfg, Act(cfg, j, actions[0]), actions[1..]);
      assert OfBlobs(actions) == (if actions[0].OnBlobs? then [actions[0].a] else []) + OfBlobs(actions[1..]);
      if actions[0].OnBlobs? {
        assert OfBlobs(actions)[1..] == OfBlobs(actions[1..]);
      } else {
        assert OfBlobs(actions) == OfBlobs(actions[1..]);
      }
    }
  }

  const START := Joint(Blobs.INIT, Vault.EMPTY)

  ghost predicate RowsKept(cfg: Blobs.Config, blobs: map<Id, Blobs.Blob>, items: map<Id, Vault.Item>) {
    forall id | id in items :: KeptOk(cfg, blobs, KeptOf(items[id].user, items[id].content))
  }

  ghost predicate JointInv(cfg: Blobs.Config, j: Joint) {
    Inv(cfg, {}, j.w) && RowsKept(cfg, j.w.st.blobs, j.t.items)
  }

  /** A row the engine writes has the payload of the call, or the one the row had. */
  lemma WrittenPayload(t: Vault.Tables, c: Vault.Call, id: Id)
    requires id in Vault.Exec(t, c).0.items
    ensures var it := Vault.Exec(t, c).0.items[id];
            || (id in t.items && KeptOf(it.user, it.content) == KeptOf(t.items[id].user, t.items[id].content))
            || (!c.Delete? && KeptOf(it.user, it.content) == KeptOf(c.user, c.content))
  {
  }

  lemma PlacedIsKept(cfg: Blobs.Config, w: Blobs.World, c: Vault.Call)
    requires Inv(cfg, {}, w) && FromPlacement(w, c) && !c.Delete?
    ensures KeptOk(cfg, w.st.blobs, KeptOf(c.user, c.content))
  {
    hide StoreOk, KeptOk;
    var tid :| tid in w.tasks && w.tasks[tid] == Blobs.PlItem(KeptOf(c.user, c.content));
    assert TaskOk(cfg, {}, w.st, tid, w.tasks[tid]);
  }

  lemma VaultKeeps(cfg: Blobs.Config, j: Joint, step: Vault.Step)
    requires JointInv(cfg, j) && Allowed(j, OnVault(step))
    ensures JointInv(cfg, Act(cfg, j, OnVault(step)))
  {
    hide Inv, KeptOk, Vault.Exec, FromPlacement, KeptOf;
    if step.Do? {
      var c := step.call;
      if !c.Delete? { PlacedIsKept(cfg, j.w, c); }
      var items' := Vault.Exec(j.t, c).0.items;
      forall id | id in items' ensures KeptOk(cfg, j.w.st.blobs, KeptOf(items'[id].user, items'[id].content)) {
        WrittenPayload(j.t, c, id);
      }
    }
  }

  lemma BlobsKeep(cfg: Blobs.Config, j: Joint, b: Blobs.Action)
    requires JointInv(cfg, j)
    ensures JointInv(cfg, Act(cfg, j, OnBlobs(b)))
  {
    hide Inv, KeptOk, Blobs.Act, Blobs.ErasesKept, KeptOf, DoomedKept, StoredKept;
    BlobRuns.ActKeepsInv(cfg, {}, j.w, b);
    ActLasts(cfg, {}, j.w, b);
    hide CommittedKept;
    forall id | id in j.t.items
      ensures KeptOk(cfg, Blobs.Act(cfg, j.w, b).st.blobs, KeptOf(j.t.items[id].user, j.t.items[id].content))
    {
      HarmlessKeepsKept(cfg, j.w.st, Blobs.Act(cfg, j.w, b).st, KeptOf(j.t.items[id].user, j.t.items[id].content));
    }
  }

  lemma {:induction false} RunKeeps(cfg: Blobs.Config, j: Joint, actions: seq<Action>)
    requires JointInv(cfg, j) && AllowedRun(cfg, j, actions)
    ensures JointInv(cfg, Run(cfg, j, actions))
    decreases |actions|
  {
    hide JointInv, Act, Allowed;
    if actions != [] {
      match actions[0] {
        case OnVault(step) => VaultKeeps(cfg, j, step);
        case OnBlobs(b) => BlobsKeep(cfg, j, b);
      }
      RunKeeps(cfg, Act(cfg, j, actions[0]), actions[1..]);
    }
  }

  /** In every state of every run of engine transactions and blob statements in which the engine writes what was placed:
      each vault_items row, live or tombstone, has a non-empty inline payload with its nonce, or refers to a committed
      blob of its user with its checksum and an acceptable size. The bytes of that blob are there if and only if no
      compensation of the run erased them, and so they are when failed inserts and completions have no effect. */
  lemma RowsFindTheirPayload(cfg: Blobs.Config, actions: seq<Action>, id: Id)
    requires AllowedRun(cfg, START, actions) && id in Run(cfg, START, actions).t.items
    ensures var j := Run(cfg, START, actions);
            var k := KeptOf(j.t.items[id].user, j.t.items[id].content);
            && Found(cfg, j.w.st, k)
            && (k.blobId.Some? ==>
                  && (Stored(cfg, j.w.st, k.blobId.value)
                      <==> !Blobs.Erased(cfg, Blobs.INIT, OfBlobs(actions), k.blobId.value))
                  && (HonestRun(cfg, Blobs.INIT, OfBlobs(actions)) ==> Stored(cfg, j.w.st, k.blobId.value)))
  {
    assert JointInv(cfg, START);
    hide Run, AllowedRun, KeptOk, TaskOk, Stored, Blobs.Run, Blobs.Erased, HonestRun, OfBlobs;
    RunKeeps(cfg, START, actions);
    var j := Run(cfg, START, actions);
    var k := KeptOf(j.t.items[id].user, j.t.items[id].content);
    KeptIsFound(cfg, j.w.st, k);
    BlobsRunAlone(cfg, START, actions);
    hide Inv;
    if k.blobId.Some? {
      CommittedBlobSafety(cfg, OfBlobs(actions), k.blobId.value);
      if HonestRun(cfg, Blobs.INIT, OfBlobs(actions)) { HonestSafety(cfg, OfBlobs(actions), k.blobId.value); }
    }
  }
}
