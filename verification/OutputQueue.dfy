/** The per-socket output queue: frames wait in order and leave through partial writes. */
module OutputQueue {
  import opened Basics

  /** What one call of `send` reports. */
  datatype SendResult = Wrote(n: nat) | Interrupted | WouldBlock | Failed

  /**
   * `frames` and `offset` are the queue and the part of its front frame already written.
   * `wire` and `log` are history: the bytes the socket accepted and the bytes queued on it
   * since it was opened.
   */
  datatype Transport = Transport(frames: seq<Bytes>, offset: nat, wire: Bytes, log: Bytes)

  const EMPTY: Transport := Transport([], 0, [], [])

  function Concat(frames: seq<Bytes>): Bytes {
    if frames == [] then [] else frames[0] + Concat(frames[1..])
  }

  /** The bytes still to be written. */
  function Unsent(t: Transport): Bytes
    requires t.offset <= |Concat(t.frames)|
  {
    Concat(t.frames)[t.offset..]
  }

  /** The offset stays inside the front frame, and what left plus what waits is what was queued. */
  ghost predicate Faithful(t: Transport) {
    && (t.frames == [] ==> t.offset == 0)
    && (t.frames != [] ==> t.offset < |t.frames[0]| || t.offset == 0)
    && t.offset <= |Concat(t.frames)|
    && t.wire + Unsent(t) == t.log
  }

  function Push(t: Transport, frame: Bytes): Transport {
    t.(frames := t.frames + [frame], log := t.log + frame)
  }

  lemma {:induction false} ConcatAppend(frames: seq<Bytes>, frame: Bytes)
    ensures Concat(frames + [frame]) == Concat(frames) + frame
  {
    if frames == [] {
      assert Concat([frame]) == frame + Concat([]);
    } else {
      assert (frames + [frame])[1..] == frames[1..] + [frame];
      ConcatAppend(frames[1..], frame);
    }
  }

  lemma PushFaithful(t: Transport, frame: Bytes)
    requires Faithful(t)
    ensures Faithful(Push(t, frame))
  {
    ConcatAppend(t.frames, frame);
    var whole := Concat(t.frames);
    assert (whole + frame)[t.offset..] == whole[t.offset..] + frame;
    assert t.wire + (whole[t.offset..] + frame) == (t.wire + whole[t.offset..]) + frame;
  }

  function Remaining(t: Transport): nat
    requires t.frames != []
  {
    if t.offset <= |t.frames[0]| then |t.frames[0]| - t.offset else 0
  }

  /** `n` bytes of the front frame reach the socket; a finished frame leaves the queue. */
  function Written(t: Transport, n: nat): Transport
    requires t.frames != [] && t.offset + n <= |t.frames[0]|
  {
    var wire := t.wire + t.frames[0][t.offset..t.offset + n];
    if t.offset + n == |t.frames[0]|
    then t.(frames := t.frames[1..], offset := 0, wire := wire)
    else t.(offset := t.offset + n, wire := wire)
  }

  lemma WrittenFaithful(t: Transport, n: nat)
    requires Faithful(t) && t.frames != [] && t.offset + n <= |t.frames[0]|
    ensures Faithful(Written(t, n)) && t.wire <= Written(t, n).wire && Written(t, n).log == t.log
  {
    var head, rest := t.frames[0], Concat(t.frames[1..]);
    Slide(t.wire, head, rest, t.offset, t.offset + n);
    if t.offset + n == |head| {
      assert (head + rest)[t.offset + n..] == rest;
    }
  }

  /** Bytes move from the front of what is unsent to the end of what is on the wire. */
  lemma Slide(wire: Bytes, head: Bytes, rest: Bytes, from: nat, to: nat)
    requires from <= to <= |head|
    ensures wire + (head + rest)[from..] == (wire + head[from..to]) + (head + rest)[to..]
  {
    assert (head + rest)[from..] == head[from..to] + (head + rest)[to..];
  }

  /**
   * The flush loop over the reports of successive `send` calls: the queue afterwards, and whether
   * the socket has to be closed. A `send` never accepts more than it was offered, and zero bytes
   * accepted is a failure. Reports beyond the last are "would block".
   */
  function Flush(t: Transport, sends: seq<SendResult>): (r: (Transport, bool))
    decreases |sends|
  {
    if t.frames == [] || sends == [] then (t, false)
    else match sends[0] {
      case Wrote(n) =>
        var k := Min(n, Remaining(t));
        if k == 0 then (t, true) else Flush(Written(t, k), sends[1..])
      case Interrupted => Flush(t, sends[1..])
      case WouldBlock => (t, false)
      case Failed => (t, true)
    }
  }

  /**
   * Under every pattern of partial writes, interruptions and refusals the bytes on the wire
   * followed by the unsent rest are exactly what was queued, nothing already written is written
   * again, and the queue order never changes.
   */
  lemma {:induction false} FlushFaithful(t: Transport, sends: seq<SendResult>)
    requires Faithful(t)
    ensures var u := Flush(t, sends).0;
            && Faithful(u)
            && u.log == t.log
            && t.wire <= u.wire <= t.log
            && |u.frames| <= |t.frames| && u.frames == t.frames[|t.frames| - |u.frames|..]
    decreases |sends|
  {
    assert t.wire <= t.log;
    hide Faithful;
    if t.frames != [] && sends != [] {
      match sends[0]
      case Wrote(n) =>
        var k := Min(n, Remaining(t));
        if k > 0 {
          WrittenFaithful(t, k);
          FlushFaithful(Written(t, k), sends[1..]);
        }
      case Interrupted =>
        FlushFaithful(t, sends[1..]);
      case WouldBlock =>
      case Failed =>
    }
  }

  /** A queue that was flushed to its end has put everything queued on the wire, in order. */
  lemma {:induction false} FlushDrains(t: Transport, sends: seq<SendResult>)
    requires Faithful(t)
    ensures Flush(t, sends).0.frames == [] ==> Flush(t, sends).0.wire == t.log
  {
    FlushFaithful(t, sends);
  }

  /** A report that ends the connection: the socket failed, or took nothing of what it was offered. */
  predicate Fatal(t: Transport, r: SendResult)
    requires t.frames != []
  {
    r.Failed? || (r.Wrote? && (r.n == 0 || Remaining(t) == 0))
  }

  /** A report after which writing goes on, if something is left. */
  predicate GoesOn(t: Transport, r: SendResult) {
    t.frames == [] || r.Interrupted? || (r.Wrote? && !Fatal(t, r))
  }

  /** Writing in two parts: unless the first part stops, the second takes up where it ended. */
  lemma {:induction false} FlushJoins(t: Transport, sends: seq<SendResult>, more: seq<SendResult>)
    requires forall k :: 0 <= k < |sends| ==> GoesOn(Flush(t, sends[..k]).0, sends[k])
    ensures !Flush(t, sends).1
    ensures Flush(t, sends + more) == Flush(Flush(t, sends).0, more)
    decreases |sends|
  {
    if sends == [] || t.frames == [] {
      assert sends == [] ==> sends + more == more;
    } else {
      var r, rest := sends[0], sends[1..];
      assert (sends + more)[0] == r && (sends + more)[1..] == rest + more;
      assert GoesOn(Flush(t, sends[..0]).0, r);
      var u := if r.Wrote? then Written(t, Min(r.n, Remaining(t))) else t;
      forall k | 0 <= k < |rest|
        ensures GoesOn(Flush(u, rest[..k]).0, rest[k])
      {
        assert sends[..k + 1][0] == r && sends[..k + 1][1..] == rest[..k];
        assert GoesOn(Flush(t, sends[..k + 1]).0, sends[k + 1]);
      }
      FlushJoins(u, rest, more);
    }
  }

  /** One report decides one step: a fatal one, and only that, asks for the connection to be closed. */
  lemma FlushOne(t: Transport, r: SendResult)
    requires t.frames != []
    ensures Flush(t, [r]).1 <==> Fatal(t, r)
    ensures !r.Wrote? ==> Flush(t, [r]).0 == t
  {
    FlushOneIs(t, r);
  }

  /** The bytes a socket took, as many as it reported, leave the front of what is unsent for the wire. */
  lemma FlushTakes(t: Transport, n: nat)
    requires Faithful(t) && t.frames != [] && n <= Remaining(t)
    ensures var u := Flush(t, [Wrote(n)]).0;
            n <= |Unsent(t)| && Faithful(u) && u.wire == t.wire + Unsent(t)[..n] && Unsent(u) == Unsent(t)[n..]
  {
    FlushOneIs(t, Wrote(n));
    hide Flush, Written, Unsent, Concat;
    if n > 0 {
      WrittenTakes(t, n);
    } else {
      assert t.wire + Unsent(t)[..0] == t.wire && Unsent(t)[0..] == Unsent(t);
    }
  }

  lemma FlushOneIs(t: Transport, r: SendResult)
    requires t.frames != []
    ensures Flush(t, [r]) ==
            if r.Wrote? && !Fatal(t, r) then (Written(t, Min(r.n, Remaining(t))), false) else (t, Fatal(t, r))
  {
    assert [r][1..] == [];
  }

  lemma WrittenTakes(t: Transport, n: nat)
    requires Faithful(t) && t.frames != [] && t.offset + n <= |t.frames[0]|
    ensures var u := Written(t, n);
            n <= |Unsent(t)| && Faithful(u) && u.wire == t.wire + Unsent(t)[..n] && Unsent(u) == Unsent(t)[n..]
  {
    WrittenFaithful(t, n);
    FrontOf(t.frames[0], Concat(t.frames[1..]), t.offset, n);
    TakenOff(t.wire, Unsent(t), n, t.log, Unsent(Written(t, n)));
  }

  lemma FrontOf(head: Bytes, rest: Bytes, from: nat, n: nat)
    requires from + n <= |head|
    ensures n <= |(head + rest)[from..]| && (head + rest)[from..][..n] == head[from..from + n]
  {
  }

  lemma TakenOff(wire: Bytes, unsent: Bytes, n: nat, log: Bytes, rest: Bytes)
    requires n <= |unsent| && wire + unsent == log && (wire + unsent[..n]) + rest == log
    ensures rest == unsent[n..]
  {
    assert rest == log[|wire| + n..];
  }
}
