/** The receiving client: it applies each message once, and finds its replay after a reconnect. */
module ReceiverDedup {

  datatype Dedup = Dedup(applied: set<nat>, count: nat)

  /** Applying a message: the state after it, and whether it took effect. */
  function Once(d: Dedup, messageId: nat): (r: (Dedup, bool)) {
    if messageId == 0 || messageId in d.applied then (d, false)
    else (Dedup(d.applied + {messageId}, d.count + 1), true)
  }

  class ReceiverBusinessDeduplicator {
    var applied: set<nat>
    var count: nat

    ghost function Value(): Dedup
      reads this
    {
      Dedup(applied, count)
    }

    constructor ()
      ensures Value() == Dedup({}, 0)
    {
      applied, count := {}, 0;
    }

    method ApplyOnce(messageId: nat) returns (inserted: bool)
      modifies this
      ensures (Value(), inserted) == Once(old(Value()), messageId)
    {
      if messageId == 0 { return false; }
      inserted := messageId !in applied;
      assert !inserted ==> applied + {messageId} == applied;
      applied := applied + {messageId};
      if inserted { count := count + 1; }
    }
  }

  function ApplyAll(messageIds: seq<nat>): Dedup {
    if messageIds == [] then Dedup({}, 0)
    else Once(ApplyAll(messageIds[..|messageIds| - 1]), messageIds[|messageIds| - 1]).0
  }

  function Distinct(messageIds: seq<nat>): set<nat> {
    set m | m in messageIds && m != 0
  }

  /**
   * Whatever the order and repetition of deliveries, the effects are those of the distinct ids, each
   * counted once; a delivery takes effect exactly if its id is valid and was not delivered before.
   */
  lemma {:induction false} DeliveriesApplyOnce(messageIds: seq<nat>, next: nat)
    ensures ApplyAll(messageIds) == Dedup(Distinct(messageIds), |Distinct(messageIds)|)
    ensures forall m :: m in Distinct(messageIds) <==> m in messageIds && m != 0
    ensures Once(ApplyAll(messageIds), next).1 <==> next != 0 && next !in messageIds
  {
    assert messageIds == [] ==> Distinct(messageIds) == {};
    hide Distinct;
    if messageIds != [] {
      var front, last := messageIds[..|messageIds| - 1], messageIds[|messageIds| - 1];
      DistinctLast(front, last);
      assert messageIds == front + [last];
      DeliveriesApplyOnce(front, last);
    }
  }

  lemma DistinctLast(front: seq<nat>, last: nat)
    ensures Distinct(front + [last]) == if last == 0 then Distinct(front) else Distinct(front) + {last}
    ensures forall m :: m in front + [last] <==> m in front || m == last
  {
  }

  // ---- the replay after a reconnect ----------------------------------------------------------

  datatype Packet = Login | Delivery(valid: bool, messageId: nat, seq_: nat) | Other

  predicate IsTarget(p: Packet, expected: nat) {
    p.Delivery? && p.valid && p.messageId == expected
  }

  /** One of the first `n` reads brought a login answer. */
  predicate LoginIn(batches: seq<seq<Packet>>, n: nat) {
    exists k, j :: 0 <= k < n && k < |batches| && 0 <= j < |batches[k]| && batches[k][j] == Login
  }

  /** One of the first `n` reads brought the awaited message, delivered under `seq_`. */
  predicate TargetIn(batches: seq<seq<Packet>>, n: nat, expected: nat, seq_: nat) {
    exists k, j :: 0 <= k < n && k < |batches| && 0 <= j < |batches[k]|
      && IsTarget(batches[k][j], expected) && batches[k][j].seq_ == seq_
  }

  predicate SomeTargetIn(batches: seq<seq<Packet>>, n: nat, expected: nat) {
    exists k, j :: 0 <= k < n && k < |batches| && 0 <= j < |batches[k]| && IsTarget(batches[k][j], expected)
  }

  /** One read, packet by packet; a delivery found replaces the one found before. */
  method ScanRead(packets: seq<Packet>, expected: nat, login: bool, target: bool, seq_: nat)
    returns (login': bool, target': bool, seq': nat)
    ensures login' <==> login || exists j :: 0 <= j < |packets| && packets[j] == Login
    ensures target' <==> target || exists j :: 0 <= j < |packets| && IsTarget(packets[j], expected)
    ensures target' ==> (target && seq' == seq_)
                        || exists j :: 0 <= j < |packets| && IsTarget(packets[j], expected) && packets[j].seq_ == seq'
  {
    login', target', seq' := login, target, seq_;
    for scanned := 0 to |packets|
      invariant login' <==> login || exists j :: 0 <= j < scanned && packets[j] == Login
      invariant target' <==> target || exists j :: 0 <= j < scanned && IsTarget(packets[j], expected)
      invariant target' ==> (target && seq' == seq_)
                            || exists j :: 0 <= j < scanned && IsTarget(packets[j], expected) && packets[j].seq_ == seq'
    {
      var p := packets[scanned];
      if p == Login {
        login' := true;
      } else if IsTarget(p, expected) {
        seq' := p.seq_;
        target' := true;
      }
    }
  }

  /**
   * The login answer and the replayed message are found in whatever order they arrive, among any
   * other packets, if and only if both arrive within 32 reads; a read that brings nothing ends it.
   */
  method WaitForReconnectReplay(batches: seq<seq<Packet>>, expected: nat) returns (ok: bool, seq_: nat)
    ensures ok <==> expected != 0 && LoginIn(batches, 32) && SomeTargetIn(batches, 32, expected)
    ensures ok ==> TargetIn(batches, 32, expected, seq_)
  {
    seq_ := 0;
    if expected == 0 { return false, 0; }
    var login, target := false, false;
    var round := 0;
    while round < 32 && (!login || !target)
      invariant 0 <= round <= 32 && round <= |batches|
      invariant login <==> LoginIn(batches, round)
      invariant target <==> SomeTargetIn(batches, round, expected)
      invariant target ==> TargetIn(batches, round, expected, seq_)
    {
      if round >= |batches| { return false, seq_; }
      login, target, seq_ := ScanRead(batches[round], expected, login, target, seq_);
      round := round + 1;
    }
    return login && target, seq_;
  }
}
