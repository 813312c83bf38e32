/** Moving a blob over a stream: the client's chunking, the server's receive loop, the server's download loop and
    the client's reassembly. */
module Transfer {
  import opened Base
  import opened Arithmetic

  const NONCE_SIZE := 24
  const TAG_SIZE := 16

  /** A message after the header: a chunk, some other message, or a receive error. */
  datatype Msg = Chunk(index: nat, data: Bytes) | NotAChunk | StreamError

  /** How the receive loop ends: with the bytes of the blob, with an abort, or with a plain error. */
  datatype Received = Whole(data: Bytes) | Rejected | Lost

  // ---------------------------------------------------------------- upload

  /** The receive loop of UploadBlob after `next` chunks left `buf`. */
  function Receive(msgs: seq<Msg>, maxChunk: nat, expected: nat, buf: Bytes, next: nat): Received
    decreases |msgs|
  {
    if msgs == [] then if |buf| == expected then Whole(buf) else Rejected
    else match msgs[0]
      case StreamError => Lost
      case NotAChunk => Lost
      case Chunk(i, d) =>
        if i != next || |d| > maxChunk || |buf| + |d| > expected then Rejected
        else Receive(msgs[1..], maxChunk, expected, buf + d, next + 1)
  }

  method ReceiveStream(msgs: seq<Msg>, maxChunk: nat, expected: nat) returns (r: Received)
    ensures r == Receive(msgs, maxChunk, expected, [], 0)
    ensures r.Whole? ==> |r.data| == expected
  {
    var buf: Bytes, total, nextChunk := [], 0, 0;
    var i := 0;
    while i < |msgs|
      invariant 0 <= i <= |msgs| && total == |buf|
      invariant Receive(msgs, maxChunk, expected, [], 0) == Receive(msgs[i..], maxChunk, expected, buf, nextChunk)
    {
      assert msgs[i..][1..] == msgs[i + 1..];
      var m := msgs[i];
      if !m.Chunk? { return Lost; }
      if m.index != nextChunk { return Rejected; }
      if |m.data| > maxChunk { return Rejected; }
      if total + |m.data| > expected { return Rejected; }
      buf := buf + m.data;
      total := total + |m.data|;
      nextChunk := nextChunk + 1;
      i := i + 1;
    }
    r := if total != expected then Rejected else Whole(buf);
  }

  /** The data of the chunks of a stream, concatenated. */
  function Concat(msgs: seq<Msg>): Bytes
    decreases |msgs|
  {
    if msgs == [] then []
    else Concat(msgs[..|msgs| - 1]) + (if msgs[|msgs| - 1].Chunk? then msgs[|msgs| - 1].data else [])
  }

  /** Chunks numbered 0, 1, ... of 1 to `max` bytes each. */
  ghost predicate Numbered(msgs: seq<Msg>, max: nat) {
    forall i | 0 <= i < |msgs| :: msgs[i].Chunk? && msgs[i].index == i && 1 <= |msgs[i].data| <= max
  }

  ghost predicate IsOffset(i: int, k: nat, max: nat) {
    0 <= i == k * max
  }

  lemma FirstOffset(max: nat)
    ensures IsOffset(0, 0, max)
  {
  }

  lemma NextOffset(i: int, k: nat, max: nat)
    requires 1 <= max && IsOffset(i, k, max)
    ensures 0 <= i && i / max == k && IsOffset(i + max, k + 1, max)
  {
    IndexOfOffset(i, k, max);
  }

  /** UploadFile's send loop: chunks from byte `i` on, step `max`. */
  method SendChunks(data: Bytes, max: nat) returns (msgs: seq<Msg>)
    requires 1 <= max
    ensures Numbered(msgs, max) && Concat(msgs) == data
    ensures forall k | 0 <= k < |msgs| - 1 :: |msgs[k].data| == max
  {
    hide IsOffset;
    msgs := [];
    var i := 0;
    assert IsOffset(i, |msgs|, max) by { FirstOffset(max); }
    while i < |data|
      invariant IsOffset(i, |msgs|, max)
      invariant Numbered(msgs, max) && Concat(msgs) == data[..if i < |data| then i else |data|]
      invariant forall k | 0 <= k < |msgs| && i < |data| :: |msgs[k].data| == max
      invariant forall k | 0 <= k < |msgs| - 1 :: |msgs[k].data| == max
      decreases |data| - i
    {
      var end := if i + max < |data| then i + max else |data|;
      NextOffset(i, |msgs|, max);
      var chunk := Chunk(i / max, data[i..end]);
      assert (msgs + [chunk])[..|msgs|] == msgs;
      assert data[..i] + data[i..end] == data[..end];
      msgs := msgs + [chunk];
      i := i + max;
    }
  }

  /** The k-th multiple of the chunk size has chunk index k. */
  lemma IndexOfOffset(i: nat, k: nat, max: nat)
    requires 1 <= max && i == k * max
    ensures i / max == k && (k + 1) * max == i + max
  {
    var d := i / max;
    assert i == d * max + i % max;
    if d < k { ProductGrows(d + 1, k, max); }
    if d > k { ProductGrows(k + 1, d, max); }
  }

  /** Any numbered chunk stream of the announced size passes every server check and reassembles exactly. */
  lemma {:induction false} NumberedIsReceived(msgs: seq<Msg>, maxChunk: nat, expected: nat, k: nat)
    requires Numbered(msgs, maxChunk) && |Concat(msgs)| == expected && k <= |msgs|
    ensures Receive(msgs[k..], maxChunk, expected, Concat(msgs[..k]), k) == Whole(Concat(msgs))
    decreases |msgs| - k
  {
    if k == |msgs| {
      assert msgs[..k] == msgs;
    } else {
      assert msgs[..k + 1][..k] == msgs[..k] && msgs[k..][1..] == msgs[k + 1..];
      ConcatShrinks(msgs, k + 1);
      NumberedIsReceived(msgs, maxChunk, expected, k + 1);
    }
  }

  lemma {:induction false} ConcatShrinks(msgs: seq<Msg>, k: nat)
    requires k <= |msgs|
    ensures |Concat(msgs[..k])| <= |Concat(msgs)|
    decreases |msgs|
  {
    if k == |msgs| {
      assert msgs[..k] == msgs;
    } else {
      assert msgs[..|msgs| - 1][..k] == msgs[..k];
      ConcatShrinks(msgs[..|msgs| - 1], k);
    }
  }

  /** Conversely, what the server accepts is exactly the concatenation of in-order chunks of the announced size. */
  lemma {:induction false} ReceivedIsConcat(msgs: seq<Msg>, maxChunk: nat, expected: nat, k: nat)
    requires k <= |msgs| && Receive(msgs[k..], maxChunk, expected, Concat(msgs[..k]), k).Whole?
    ensures Receive(msgs[k..], maxChunk, expected, Concat(msgs[..k]), k).data == Concat(msgs)
            && |Concat(msgs)| == expected
    ensures forall i | k <= i < |msgs| :: msgs[i].Chunk? && msgs[i].index == i && |msgs[i].data| <= maxChunk
    decreases |msgs| - k
  {
    if k == |msgs| {
      assert msgs[..k] == msgs;
    } else {
      assert msgs[..k + 1][..k] == msgs[..k] && msgs[k..][1..] == msgs[k + 1..];
      ReceivedIsConcat(msgs, maxChunk, expected, k + 1);
    }
  }

  // ---------------------------------------------------------------- download

  function Sum(sizes: seq<nat>): nat
    decreases |sizes|
  {
    if sizes == [] then 0 else Sum(sizes[..|sizes| - 1]) + sizes[|sizes| - 1]
  }

  /** DownloadBlob's read loop. `sizes` are the sizes the object reader returns before it ends, at the end of the file
      or, unless `clean`, with an error; a reader may return nothing now and then. */
  method ServeBlob(blob: Bytes, size: nat, maxChunk: nat, sizes: seq<nat>, clean: bool)
    returns (msgs: seq<Msg>, ok: bool)
    requires forall i | 0 <= i < |sizes| :: sizes[i] <= maxChunk
    requires Sum(sizes) <= |blob|
    ensures Numbered(msgs, maxChunk) && Concat(msgs) == blob[..Sum(sizes)]
    ensures ok <==> clean && Sum(sizes) == size
  {
    msgs := [];
    var sent, idx, i := 0, 0, 0;
    while i < |sizes|
      invariant 0 <= i <= |sizes| && idx == |msgs| && sent == Sum(sizes[..i]) <= |blob|
      invariant Numbered(msgs, maxChunk) && Concat(msgs) == blob[..sent]
    {
      var n := sizes[i];
      assert sizes[..i + 1][..i] == sizes[..i];
      SumShrinks(sizes, i + 1);
      if n > 0 {
        var chunk := Chunk(idx, blob[sent..sent + n]);
        assert (msgs + [chunk])[..|msgs|] == msgs;
        assert blob[..sent] + blob[sent..sent + n] == blob[..sent + n];
        msgs := msgs + [chunk];
        sent := sent + n;
        idx := idx + 1;
      }
      i := i + 1;
    }
    assert sizes[..i] == sizes;
    ok := clean && sent == size;
  }

  lemma {:induction false} SumShrinks(sizes: seq<nat>, k: nat)
    requires k <= |sizes|
    ensures Sum(sizes[..k]) <= Sum(sizes)
    decreases |sizes|
  {
    if k == |sizes| {
      assert sizes[..k] == sizes;
    } else {
      assert sizes[..|sizes| - 1][..k] == sizes[..k];
      SumShrinks(sizes[..|sizes| - 1], k);
    }
  }

  /** DownloadFile's receive loop: messages that are not chunks are skipped. */
  method Reassemble(msgs: seq<Msg>) returns (data: Bytes)
    ensures data == Concat(msgs)
  {
    data := [];
    var i := 0;
    while i < |msgs|
      invariant 0 <= i <= |msgs| && data == Concat(msgs[..i])
    {
      assert msgs[..i + 1][..i] == msgs[..i];
      if msgs[i].Chunk? { data := data + msgs[i].data; }
      i := i + 1;
    }
    assert msgs[..i] == msgs;
  }

  // ---------------------------------------------------------------- end to end

  /** An authenticated cipher: seal and open under (key, nonce). */
  datatype Aead = Aead(seal: (Bytes, Bytes, Bytes) -> Bytes, open: (Bytes, Bytes, Bytes) -> Option<Bytes>)

  /** Opening what was sealed gives it back; sealing adds the 16-byte tag of section 2.8 of RFC 8439. */
  ghost predicate Lawful(a: Aead) {
    forall k, n, x | |n| == NONCE_SIZE :: a.open(k, n, a.seal(k, n, x)) == Some(x)
      && |a.seal(k, n, x)| == |x| + TAG_SIZE
  }

  /** The bytes UploadFile stores. */
  function Sealed(a: Aead, key: Bytes, nonce: Bytes, plain: Bytes): Bytes {
    nonce + a.seal(key, nonce, plain)
  }

  /** What DownloadFile makes of the bytes it received. */
  function Unsealed(a: Aead, key: Bytes, data: Bytes): Option<Bytes> {
    if |data| < NONCE_SIZE then None else a.open(key, data[..NONCE_SIZE], data[NONCE_SIZE..])
  }

  lemma SealedOpens(a: Aead, key: Bytes, nonce: Bytes, plain: Bytes)
    requires Lawful(a) && |nonce| == NONCE_SIZE
    ensures Unsealed(a, key, Sealed(a, key, nonce, plain)) == Some(plain)
    ensures |Sealed(a, key, nonce, plain)| == NONCE_SIZE + |plain| + TAG_SIZE
    ensures var blob := Sealed(a, key, nonce, plain);
            blob[..NONCE_SIZE] == nonce && a.open(key, blob[..NONCE_SIZE], blob[NONCE_SIZE..]) == Some(plain)
  {
    var blob := Sealed(a, key, nonce, plain);
    assert blob[..NONCE_SIZE] == nonce && blob[NONCE_SIZE..] == a.seal(key, nonce, plain);
  }

  /** A file goes up in chunks of any size, is stored, is served back in reads of any sizes, and decrypts to
      the original bytes. */
  method FileRoundTrip(a: Aead, key: Bytes, nonce: Bytes, plain: Bytes, upMax: nat, downMax: nat, sizes: seq<nat>)
    returns (stored: Received, served: bool, back: Option<Bytes>)
    requires Lawful(a) && |nonce| == NONCE_SIZE && 1 <= upMax
    requires forall i | 0 <= i < |sizes| :: sizes[i] <= downMax
    requires Sum(sizes) == NONCE_SIZE + |plain| + TAG_SIZE
    ensures stored == Whole(Sealed(a, key, nonce, plain))
    ensures served && back == Some(plain)
  {
    var blob := Sealed(a, key, nonce, plain);
    SealedOpens(a, key, nonce, plain);
    var up := SendChunks(blob, upMax);
    stored := ReceiveStream(up, upMax, |blob|);
    NumberedIsReceived(up, upMax, |blob|, 0);
    assert up[0..] == up && up[..0] == [];
    var down;
    down, served := ServeBlob(blob, |blob|, downMax, sizes, true);
    assert blob[..|blob|] == blob;
    var data := Reassemble(down);
    back := Unsealed(a, key, data);
  }

  // ---------------------------------------------------------------- which streams are refused, and how

  /** The first k messages are in-order chunks within the limits. */
  ghost predicate GoodUpTo(msgs: seq<Msg>, maxChunk: nat, expected: nat, k: nat) {
    && k <= |msgs|
    && (forall i | 0 <= i < k :: msgs[i].Chunk? && msgs[i].index == i && |msgs[i].data| <= maxChunk)
    && |Concat(msgs[..k])| <= expected
  }

  /** Message k is a chunk out of order, too long, or past the announced size. */
  ghost predicate BadChunk(msgs: seq<Msg>, maxChunk: nat, expected: nat, k: nat)
    requires k < |msgs|
  {
    && msgs[k].Chunk?
    && (msgs[k].index != k || |msgs[k].data| > maxChunk || |Concat(msgs[..k])| + |msgs[k].data| > expected)
  }

  lemma GoodOneMore(msgs: seq<Msg>, maxChunk: nat, expected: nat, k: nat)
    requires k < |msgs| && GoodUpTo(msgs, maxChunk, expected, k) && msgs[k].Chunk?
             && !BadChunk(msgs, maxChunk, expected, k)
    ensures GoodUpTo(msgs, maxChunk, expected, k + 1) && Concat(msgs[..k + 1]) == Concat(msgs[..k]) + msgs[k].data
  {
    assert msgs[..k + 1][..k] == msgs[..k];
  }

  /** From message k on: the stream is accepted if all of it is good and complete, lost at the first message that is no
      chunk, and otherwise rejected. */
  lemma {:induction false} ReceiveOutcome(msgs: seq<Msg>, maxChunk: nat, expected: nat, k: nat)
    requires GoodUpTo(msgs, maxChunk, expected, k)
    ensures match Receive(msgs[k..], maxChunk, expected, Concat(msgs[..k]), k) {
              case Whole(data) =>
                GoodUpTo(msgs, maxChunk, expected, |msgs|) && data == Concat(msgs) && |data| == expected
              case Lost => exists j :: k <= j < |msgs| && GoodUpTo(msgs, maxChunk, expected, j) && !msgs[j].Chunk?
              case Rejected =>
                || (GoodUpTo(msgs, maxChunk, expected, |msgs|) && |Concat(msgs)| != expected)
                || exists j ::
                     k <= j < |msgs| && GoodUpTo(msgs, maxChunk, expected, j) && BadChunk(msgs, maxChunk, expected, j)
            }
    decreases |msgs| - k
  {
    if k == |msgs| {
      assert msgs[..k] == msgs;
    } else if msgs[k].Chunk? && !BadChunk(msgs, maxChunk, expected, k) {
      GoodOneMore(msgs, maxChunk, expected, k);
      assert msgs[k..][1..] == msgs[k + 1..];
      hide GoodUpTo, BadChunk;
      ReceiveOutcome(msgs, maxChunk, expected, k + 1);
    }
  }
}
