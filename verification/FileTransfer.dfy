/** Uploading a file in chunks, and downloading it in ranges with a resumable position. */
module FileTransfer {
  import opened Basics

  // ---- upload --------------------------------------------------------------------------------

  datatype Chunk = Chunk(index: nat, offset: nat, data: Bytes)

  function Payloads(chunks: seq<Chunk>): Bytes {
    if chunks == [] then [] else Payloads(chunks[..|chunks| - 1]) + chunks[|chunks| - 1].data
  }

  /** The number of chunks of a non-empty payload. */
  function ChunkCount(size: nat, chunk: nat): nat
    requires size > 0 && chunk > 0
  {
    1 + (size - 1) / chunk
  }

  lemma ChunkEdges(size: nat, chunk: nat)
    requires size > 0 && chunk > 0
    ensures (ChunkCount(size, chunk) - 1) * chunk < size <= ChunkCount(size, chunk) * chunk
  {
    var q := (size - 1) / chunk;
    assert q * chunk <= size - 1 < q * chunk + chunk;
    assert (q + 1) * chunk == q * chunk + chunk;
  }

  /** Where chunk `i` starts. */
  function Start(chunk: nat, i: nat): nat {
    i * chunk
  }

  lemma StartsInside(size: nat, chunk: nat, i: nat)
    requires size > 0 && chunk > 0 && i < ChunkCount(size, chunk)
    ensures Start(chunk, i) < size && Start(chunk, i + 1) == Start(chunk, i) + chunk
    ensures i + 1 < ChunkCount(size, chunk) <==> Start(chunk, i + 1) < size
  {
    var n := ChunkCount(size, chunk);
    ChunkEdges(size, chunk);
    hide ChunkCount;
    Rises(chunk, i, n - 1);
    if i + 1 < n { Rises(chunk, i + 1, n - 1); }
    assert (i + 1) * chunk == i * chunk + chunk;
  }

  lemma Rises(chunk: nat, i: nat, j: nat)
    requires i <= j
    ensures i * chunk <= j * chunk
  {
  }

  /** The chunk at place `i`. */
  function Slice(payload: Bytes, chunk: nat, i: nat): Bytes
    requires Start(chunk, i) <= |payload|
  {
    payload[Start(chunk, i)..Start(chunk, i) + Min(chunk, |payload| - Start(chunk, i))]
  }

  /** The part of the payload covered by the first `i` chunks. */
  function Covered(payload: Bytes, chunk: nat, i: nat): Bytes {
    payload[..Min(Start(chunk, i), |payload|)]
  }

  lemma NextSlice(payload: Bytes, chunk: nat, i: nat)
    requires payload != [] && chunk > 0 && i < ChunkCount(|payload|, chunk)
    ensures Start(chunk, i) < |payload| && 0 < |Slice(payload, chunk, i)| <= chunk
    ensures Covered(payload, chunk, i) + Slice(payload, chunk, i) == Covered(payload, chunk, i + 1) <= payload
    ensures i + 1 < ChunkCount(|payload|, chunk) ==> |Slice(payload, chunk, i)| == chunk
    ensures i + 1 == ChunkCount(|payload|, chunk) ==> Covered(payload, chunk, i + 1) == payload
  {
    hide ChunkCount, Start;
    StartsInside(|payload|, chunk, i);
  }

  /** Chunks numbered and placed in order, without gap, all of them full but perhaps the last of `n`. */
  ghost predicate InPlace(sent: seq<Chunk>, payload: Bytes, chunk: nat, n: nat) {
    forall i :: 0 <= i < |sent| ==>
      && sent[i].index == i && sent[i].offset == Start(chunk, i) <= |payload|
      && sent[i].data == Slice(payload, chunk, i) && 0 < |sent[i].data| <= chunk
      && (i + 1 < n ==> |sent[i].data| == chunk)
  }

  lemma InPlaceAppend(sent: seq<Chunk>, payload: Bytes, chunk: nat, n: nat, data: Bytes)
    requires InPlace(sent, payload, chunk, n) && Start(chunk, |sent|) <= |payload|
    requires data == Slice(payload, chunk, |sent|) && 0 < |data| <= chunk
    requires |sent| + 1 < n ==> |data| == chunk
    ensures InPlace(sent + [Chunk(|sent|, Start(chunk, |sent|), data)], payload, chunk, n)
  {
    hide Start, Slice;
  }

  lemma PayloadsAppend(sent: seq<Chunk>, c: Chunk)
    ensures Payloads(sent + [c]) == Payloads(sent) + c.data
  {
    assert (sent + [c])[..|sent|] == sent;
  }

  /** The first chunks, in place, covering the payload from its start. */
  ghost predicate Sent(sent: seq<Chunk>, payload: Bytes, chunk: nat, n: nat) {
    && |sent| <= n && InPlace(sent, payload, chunk, n)
    && Payloads(sent) == Covered(payload, chunk, |sent|) <= payload
    && (|sent| == n ==> Payloads(sent) == payload)
  }

  lemma NothingSent(payload: Bytes, chunk: nat)
    requires payload != [] && chunk > 0
    ensures ChunkCount(|payload|, chunk) > 0 && Sent([], payload, chunk, ChunkCount(|payload|, chunk))
  {
  }

  lemma OneMoreSent(sent: seq<Chunk>, payload: Bytes, chunk: nat, c: Chunk)
    requires payload != [] && chunk > 0
    requires Sent(sent, payload, chunk, ChunkCount(|payload|, chunk)) && |sent| < ChunkCount(|payload|, chunk)
    requires Start(chunk, |sent|) <= |payload|
    requires c == Chunk(|sent|, Start(chunk, |sent|), Slice(payload, chunk, |sent|))
    ensures Sent(sent + [c], payload, chunk, ChunkCount(|payload|, chunk))
  {
    hide ChunkCount, Covered, Start, Slice, InPlace, Payloads;
    NextSlice(payload, chunk, |sent|);
    PayloadsAppend(sent, c);
    InPlaceAppend(sent, payload, chunk, ChunkCount(|payload|, chunk), c.data);
  }

  method CutChunk(payload: Bytes, chunk: nat, i: nat) returns (c: Chunk)
    requires Start(chunk, i) <= |payload|
    ensures c == Chunk(i, Start(chunk, i), Slice(payload, chunk, i))
  {
    var offset := i * chunk;
    var count := if chunk < |payload| - offset then chunk else |payload| - offset;
    c := Chunk(i, offset, payload[offset..offset + count]);
  }

  /** The server stores the first `n` chunks. */
  predicate Stored(stores: nat -> bool, n: nat) {
    n == 0 || (Stored(stores, n - 1) && stores(n - 1))
  }

  /**
   * Chunk by chunk until the server refuses one. What was sent is in place and covers the payload
   * from its start; if nothing is refused it is the whole payload, in as many chunks as announced.
   */
  method UploadChunks(payload: Bytes, chunk: nat, stores: nat -> bool) returns (code: nat, sent: seq<Chunk>)
    requires payload != [] && chunk > 0
    ensures Sent(sent, payload, chunk, ChunkCount(|payload|, chunk))
    ensures code == 0 || code == 5
    ensures code == 0 ==> |sent| == ChunkCount(|payload|, chunk) && Stored(stores, |sent|)
    ensures code == 5 ==> sent != [] && Stored(stores, |sent| - 1) && !stores(|sent| - 1)
  {
    var chunks := ChunkCount(|payload|, chunk);
    NothingSent(payload, chunk);
    hide ChunkCount, Sent, Start, Slice;
    sent := [];
    var i := 0;
    while i < chunks
      invariant 0 <= i <= chunks && |sent| == i && Sent(sent, payload, chunk, chunks)
      invariant Stored(stores, i)
    {
      StartsInside(|payload|, chunk, i);
      var c := CutChunk(payload, chunk, i);
      OneMoreSent(sent, payload, chunk, c);
      sent := sent + [c];
      if !stores(i) { return 5, sent; }
      i := i + 1;
    }
    return 0, sent;
  }

  /** An upload that is not refused has carried the whole payload. */
  lemma AllSent(sent: seq<Chunk>, payload: Bytes, chunk: nat)
    requires payload != [] && chunk > 0 && Sent(sent, payload, chunk, ChunkCount(|payload|, chunk))
    ensures Payloads(sent) == payload <==> |sent| == ChunkCount(|payload|, chunk)
  {
    hide ChunkCount, Start, InPlace, Payloads;
    if |sent| < ChunkCount(|payload|, chunk) {
      StartsInside(|payload|, chunk, |sent|);
    }
  }

  // ---- resumed download ----------------------------------------------------------------------

  datatype SavedState = SavedState(actor: nat, fileId: nat, total: nat, next: nat, sha: string)

  datatype Range = Range(offset: nat, data: Bytes, sha: string, nextOffset: nat)

  /** What answers the client: its own disk, the service, and how many calls each has seen. */
  datatype Peer = Peer(
    ready: bool,
    info: Option<(string, nat)>,
    serve: (nat, nat) -> Option<Range>,
    appends: nat -> bool,
    saves: bool,
    hash: Bytes -> string)

  /** A service that returns true slices of the file, of any positive length, over a working disk. */
  ghost predicate Honest(p: Peer, file: Bytes) {
    && p.ready && p.saves && p.info == Some((p.hash(file), |file|))
    && (forall k: nat :: p.appends(k))
    && (forall k: nat, at: nat :: at < |file| ==>
          var r := p.serve(k, at);
          && r.Some? && r.value.offset == at && r.value.data != []
          && r.value.nextOffset == at + |r.value.data| <= |file|
          && r.value.data == file[at..r.value.nextOffset] && r.value.sha == p.hash(r.value.data))
  }

  /** The state on disk passes the first checks. */
  predicate Usable(s: SavedState, expected: Bytes, saved: Bytes) {
    s.actor != 0 && s.fileId != 0 && s.total != 0 && |s.sha| == 64 && |expected| == s.total && |saved| == s.next
  }

  /** At most `n` bytes from `from` on. */
  function Substr(file: Bytes, from: nat, n: nat): Bytes
    requires from <= |file|
  {
    file[from..from + Min(n, |file| - from)]
  }

  /** The range is the one asked for, holds the expected bytes, and moves the position on. */
  predicate Passes(p: Peer, expected: Bytes, at: nat, r: Range)
    requires at <= |expected|
  {
    r.offset == at && r.data == Substr(expected, at, |r.data|) && r.sha == p.hash(r.data) && r.nextOffset > at
  }

  lemma HonestServes(p: Peer, expected: Bytes, saved: Bytes, k: nat, at: nat)
    requires Honest(p, expected) && |saved| <= at < |expected|
    ensures p.appends(k) && p.serve(k, at).Some?
    ensures var r := p.serve(k, at).value;
            && Passes(p, expected, at, r) && r.nextOffset <= |expected|
            && saved + expected[|saved|..at] + r.data == saved + expected[|saved|..r.nextOffset]
  {
    var r := p.serve(k, at).value;
    assert expected[|saved|..at] + r.data == expected[|saved|..r.nextOffset];
  }

  /**
   * The range loop: ends because the position grows with every range; success means the file is the
   * expected one, whatever the service did. Against an honest service a resumed download succeeds
   * if and only if what was saved is a prefix of the file and the checksum is the file's.
   */
  method Resume(s: SavedState, expected: Bytes, saved: Bytes, p: Peer)
    returns (code: nat, file: Bytes, next: nat, calls: nat)
    ensures code == 0 ==> file == expected && p.hash(file) == s.sha && next >= s.total
    ensures code == 20 <==> !Usable(s, expected, saved)
    ensures code == 21 <==> Usable(s, expected, saved) && !p.ready
    ensures code == 22 <==> Usable(s, expected, saved) && p.ready && p.info != Some((s.sha, s.total))
    ensures code == 23 ==> next < s.total && p.serve(calls, next) == None
    ensures code == 24 || code == 25 ==> next < s.total == |expected| && p.serve(calls, next).Some?
    ensures code == 24 ==> !Passes(p, expected, next, p.serve(calls, next).value)
    ensures code == 25 ==> Passes(p, expected, next, p.serve(calls, next).value) && !p.appends(calls)
    ensures code == 26 ==> next >= s.total && (file != expected || p.hash(file) != s.sha)
    ensures code == 27 ==> file == expected && p.hash(file) == s.sha && !p.saves
    ensures code == 0 || 20 <= code <= 27
    ensures saved <= file
    ensures Honest(p, expected) && Usable(s, expected, saved) && s.sha == p.hash(expected) ==>
              code == if saved <= expected then 0 else 26
    ensures Honest(p, expected) && Usable(s, expected, saved) && s.sha != p.hash(expected) ==> code == 22
  {
    file, next, calls := saved, s.next, 0;
    ghost var honest := Honest(p, expected);
    assert honest ==> p.ready && p.saves && p.info == Some((p.hash(expected), |expected|));
    hide Honest, Passes;
    if !Usable(s, expected, saved) { return 20, file, next, calls; }
    if !p.ready { return 21, file, next, calls; }
    if p.info != Some((s.sha, s.total)) { return 22, file, next, calls; }
    while next < s.total
      invariant saved <= file && s.next <= next
      invariant honest && s.next <= s.total ==> next <= s.total && file == saved + expected[s.next..next]
      invariant s.next > s.total ==> next == s.next && file == saved
      decreases s.total - next
    {
      if honest { HonestServes(p, expected, saved, calls, next); }
      var r := p.serve(calls, next);
      if r == None { return 23, file, next, calls; }
      if !Passes(p, expected, next, r.value) { return 24, file, next, calls; }
      PassesAdvances(p, expected, next, r.value);
      if !p.appends(calls) { return 25, file, next, calls; }
      file := file + r.value.data;
      next := r.value.nextOffset;
      calls := calls + 1;
    }
    if file != expected || p.hash(file) != s.sha { return 26, file, next, calls; }
    if !p.saves { return 27, file, next, calls; }
    return 0, file, next, calls;
  }

  lemma PassesAdvances(p: Peer, expected: Bytes, at: nat, r: Range)
    requires at <= |expected| && Passes(p, expected, at, r)
    ensures r.nextOffset > at
  {
  }
}
