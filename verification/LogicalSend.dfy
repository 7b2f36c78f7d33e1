/**
 * A logical send: one message the user asked for, carried by any number of network attempts. The
 * client begins attempts, learns that one failed without knowing whether the server acted on it,
 * resumes after a round is used up, and completes on the first success acknowledgement.
 */
module LogicalSend {

  datatype SendState = Created | InFlight | RetryWait | Uncertain | Accepted | Rejected

  datatype Send = Send(
    clientMessageId: string,
    currentSeq: nat,
    total: nat,
    round: nat,
    ambiguous: bool,
    state: SendState,
    serverMessageId: nat,
    completions: nat)

  function NewSend(id: string): Send {
    Send(id, 0, 0, 0, false, Created, 0, 0)
  }

  /** A packet as the client sees it: another type, an unreadable body, or an acknowledgement. */
  datatype Packet = OtherType | Unreadable | Ack(success: bool, clientMessageId: string, messageId: nat)

  // ---- what each operation does --------------------------------------------------------------

  function Begun(s: Send, max: nat, seq_: nat): (r: (Send, bool)) {
    if seq_ == 0 || max == 0 || s.state in {Accepted, Rejected, Uncertain} || s.round >= max then (s, false)
    else (s.(currentSeq := seq_, total := s.total + 1, round := s.round + 1, state := InFlight), true)
  }

  function Failed(s: Send, max: nat): (r: (Send, bool)) {
    if s.state != InFlight then (s, false)
    else (s.(ambiguous := true, state := if s.round < max then RetryWait else Uncertain), true)
  }

  function Resumed(s: Send): (r: (Send, bool)) {
    if s.state != Uncertain then (s, false)
    else (s.(round := 0, state := RetryWait), true)
  }

  /** The packet is a success acknowledgement of this logical send. */
  predicate Answers(s: Send, p: Packet) {
    p.Ack? && p.success && p.clientMessageId == s.clientMessageId && p.messageId != 0
  }

  datatype Applied = Applied(send: Send, ok: bool, newly: bool)

  function ApplyAck(s: Send, p: Packet): Applied {
    if !Answers(s, p) then Applied(s, false, false)
    else if s.state == Rejected then Applied(s, s.serverMessageId == 0 || s.serverMessageId == p.messageId, false)
    else if s.serverMessageId != 0 && s.serverMessageId != p.messageId then Applied(s, false, false)
    else
      var s1 := s.(serverMessageId := p.messageId);
      if s.state == Accepted then Applied(s1, true, false)
      else Applied(s1.(state := Accepted, completions := s.completions + 1, ambiguous := false), true, true)
  }

  /** The same operations on the record the client keeps and updates in place. */
  class PendingLogicalSend {
    const clientMessageId: string
    var currentSeq: nat
    var total: nat
    var round: nat
    var ambiguous: bool
    var state: SendState
    var serverMessageId: nat
    var completions: nat

    ghost function Value(): Send
      reads this
    {
      Send(clientMessageId, currentSeq, total, round, ambiguous, state, serverMessageId, completions)
    }

    constructor (id: string)
      ensures Value() == NewSend(id)
    {
      clientMessageId := id;
      currentSeq, total, round, ambiguous, state, serverMessageId, completions := 0, 0, 0, false, Created, 0, 0;
    }

    method BeginNetworkAttempt(max: nat, seq_: nat) returns (ok: bool)
      modifies this
      ensures (Value(), ok) == Begun(old(Value()), max, seq_)
    {
      if seq_ == 0 || max == 0 { return false; }
      if state == Accepted || state == Rejected || state == Uncertain { return false; }
      if round >= max { return false; }
      currentSeq := seq_;
      total := total + 1;
      round := round + 1;
      state := InFlight;
      return true;
    }

    method MarkAmbiguousAttemptFailure(max: nat) returns (ok: bool)
      modifies this
      ensures (Value(), ok) == Failed(old(Value()), max)
    {
      if state != InFlight { return false; }
      ambiguous := true;
      if round < max {
        state := RetryWait;
        return true;
      }
      state := Uncertain;
      return true;
    }

    method ResumeUncertain() returns (ok: bool)
      modifies this
      ensures (Value(), ok) == Resumed(old(Value()))
    {
      if state != Uncertain { return false; }
      round := 0;
      state := RetryWait;
      return true;
    }

    method ApplySuccessfulAck(p: Packet) returns (ok: bool, newlyAccepted: bool)
      modifies this
      ensures Applied(Value(), ok, newlyAccepted) == ApplyAck(old(Value()), p)
      ensures ok <==> Answers(old(Value()), p) && (old(serverMessageId) == 0 || old(serverMessageId) == p.messageId)
      ensures newlyAccepted <==> old(state) != Accepted && state == Accepted
    {
      newlyAccepted := false;
      if !p.Ack? || !p.success || p.clientMessageId != clientMessageId || p.messageId == 0 {
        return false, false;
      }
      if state == Rejected {
        if serverMessageId != 0 && serverMessageId != p.messageId { return false, false; }
        return true, false;
      }
      if serverMessageId == 0 {
        serverMessageId := p.messageId;
      } else if serverMessageId != p.messageId {
        return false, false;
      }
      if state == Accepted { return true, false; }
      state := Accepted;
      completions := completions + 1;
      ambiguous := false;
      return true, true;
    }
  }

  // ---- every sequence of operations ----------------------------------------------------------

  /** `Refuse` stands for the server's definite refusal, which never follows an acceptance. */
  datatype Op = Begin(seq_: nat) | Fail | Resume | Receive(packet: Packet) | Refuse

  function Do(s: Send, max: nat, op: Op): Send {
    match op
    case Begin(seq_) => Begun(s, max, seq_).0
    case Fail => Failed(s, max).0
    case Resume => Resumed(s).0
    case Receive(p) => ApplyAck(s, p).send
    case Refuse => if s.state == Accepted then s else s.(state := Rejected)
  }

  function Run(s: Send, max: nat, ops: seq<Op>): Send {
    if ops == [] then s else Do(Run(s, max, ops[..|ops| - 1]), max, ops[|ops| - 1])
  }

  /** How many of the operations resumed an uncertain send. */
  function Resumes(s: Send, max: nat, ops: seq<Op>): nat {
    if ops == [] then 0
    else
      Resumes(s, max, ops[..|ops| - 1])
        + (if ops[|ops| - 1] == Resume && Run(s, max, ops[..|ops| - 1]).state == Uncertain then 1 else 0)
  }

  predicate Terminal(s: Send) {
    s.state == Accepted || s.state == Rejected
  }

  /** What holds of a send after `resumes` resumptions. */
  predicate Sound(s: Send, max: nat, resumes: nat) {
    && s.completions == (if s.state == Accepted then 1 else 0)
    && (s.state == Accepted <==> s.serverMessageId != 0)
    && s.round <= max
    && s.total == resumes * max + s.round
    && (s.state == Created ==> s.total == 0)
    && (s.state == InFlight ==> s.round > 0)
    && (s.state == RetryWait ==> s.round < max && s.ambiguous)
    && (s.state == Uncertain ==> s.round == max > 0 && s.ambiguous)
    && (s.state == Accepted ==> !s.ambiguous)
    && (s.ambiguous ==> s.total > 0)
  }

  lemma StepSound(s: Send, max: nat, resumes: nat, op: Op)
    requires Sound(s, max, resumes)
    ensures Do(s, max, op).clientMessageId == s.clientMessageId
    ensures var resumed := op == Resume && s.state == Uncertain;
            Sound(Do(s, max, op), max, if resumed then resumes + 1 else resumes)
  {
    if op == Resume && s.state == Uncertain {
      assert (resumes + 1) * max == resumes * max + max;
      assert (resumes + 1) * max > 0;
    }
  }

  /**
   * Safety over every sequence of operations: a send completes at most once, exactly when it is
   * accepted and a server id is known; a round never exceeds its budget and earlier rounds were
   * used up before they were resumed; whoever waits or gives up does so with an open outcome.
   */
  lemma {:induction false} AlwaysSound(id: string, max: nat, ops: seq<Op>)
    ensures Sound(Run(NewSend(id), max, ops), max, Resumes(NewSend(id), max, ops))
    ensures Run(NewSend(id), max, ops).clientMessageId == id
  {
    if ops != [] {
      var front := ops[..|ops| - 1];
      AlwaysSound(id, max, front);
      StepSound(Run(NewSend(id), max, front), max, Resumes(NewSend(id), max, front), ops[|ops| - 1]);
    }
  }

  /** The attempts of a send over its life are bounded by its rounds. */
  lemma AttemptBudget(id: string, max: nat, ops: seq<Op>)
    ensures var s, resumes := Run(NewSend(id), max, ops), Resumes(NewSend(id), max, ops);
            && s.total <= (resumes + 1) * max
            && (s.state == Uncertain ==> s.total == (resumes + 1) * max)
  {
    hide Run, Resumes;
    AlwaysSound(id, max, ops);
    var resumes := Resumes(NewSend(id), max, ops);
    assert (resumes + 1) * max == resumes * max + max;
  }

  /** A round terminates: without a resumption the attempts left only shrink, one per attempt begun. */
  lemma {:induction false} RoundTerminates(s: Send, max: nat, ops: seq<Op>)
    requires s.round <= max && Resume !in ops
    ensures var s' := Run(s, max, ops);
            s.round <= s'.round <= max && s'.total - s.total == s'.round - s.round <= max - s.round
  {
    if ops != [] {
      RoundTerminates(s, max, ops[..|ops| - 1]);
      assert ops[|ops| - 1] in ops;
    }
  }

  /** A terminal send is changed by nothing. */
  lemma {:induction false} TerminalIsFinal(s: Send, max: nat, ops: seq<Op>)
    requires Terminal(s) && (s.state == Accepted ==> s.serverMessageId != 0)
    ensures Run(s, max, ops) == s
  {
    if ops != [] {
      TerminalIsFinal(s, max, ops[..|ops| - 1]);
    }
  }

  // ---- what the caller is told ---------------------------------------------------------------

  /** The answer an operation gives its caller; a refusal by the server is no call and gives none. */
  function Told(s: Send, max: nat, op: Op): bool {
    match op
    case Begin(seq_) => Begun(s, max, seq_).1
    case Fail => Failed(s, max).1
    case Resume => Resumed(s).1
    case Receive(p) => ApplyAck(s, p).newly
    case Refuse => false
  }

  /** How many operations satisfying `kind` were answered with yes. */
  function Yes(s: Send, max: nat, ops: seq<Op>, kind: Op -> bool): nat {
    if ops == [] then 0
    else
      var front, last := ops[..|ops| - 1], ops[|ops| - 1];
      Yes(s, max, front, kind) + (if kind(last) && Told(Run(s, max, front), max, last) then 1 else 0)
  }

  /**
   * An acknowledgement is taken exactly if it answers this send and no other server id is known, a
   * rejected send included, and reported as new exactly if it is the one that completes the send.
   */
  lemma AckReport(id: string, max: nat, ops: seq<Op>, p: Packet)
    ensures var s := Run(NewSend(id), max, ops);
            var a := ApplyAck(s, p);
            && (a.ok <==> Answers(NewSend(id), p) && (s.serverMessageId == 0 || s.serverMessageId == p.messageId))
            && (a.newly <==> s.state != Accepted && a.send.state == Accepted)
            && (a.newly ==> a.ok && Decision(id, ops) == Open && Decision(id, ops + [Receive(p)]) == AcceptedAs(p.messageId))
            && (!a.newly ==> a.send == s)
  {
    hide Run;
    AlwaysSound(id, max, ops);
    FirstAnswerDecides(id, max, ops);
    assert (ops + [Receive(p)])[..|ops|] == ops;
  }

  /**
   * Over every sequence of operations the answers given add up to the counters: acknowledgements
   * reported as new are the completions, hence at most one; attempts reported as begun are the
   * total; resumptions reported are those that happened; and no more failures are reported than
   * attempts.
   */
  lemma {:induction false} ReportsAddUp(id: string, max: nat, ops: seq<Op>)
    ensures var s, run := NewSend(id), Run(NewSend(id), max, ops);
            && Yes(s, max, ops, (op: Op) => op.Receive?) == run.completions <= 1
            && Yes(s, max, ops, (op: Op) => op.Begin?) == run.total
            && Yes(s, max, ops, (op: Op) => op.Resume?) == Resumes(s, max, ops)
            && Yes(s, max, ops, (op: Op) => op.Fail?) + (if run.state == InFlight then 1 else 0) <= run.total
  {
    if ops != [] {
      ReportsAddUp(id, max, ops[..|ops| - 1]);
      AlwaysSound(id, max, ops[..|ops| - 1]);
      AlwaysSound(id, max, ops);
    }
  }

  /**
   * In every reachable state an attempt can begin exactly while the outcome is open and the round
   * has attempts left; a send is resumed exactly if its outcome is open, its round is used up and no
   * attempt is under way; and whoever is told no finds the send unchanged.
   */
  lemma ToldExactly(id: string, max: nat, ops: seq<Op>, op: Op)
    requires !op.Refuse?
    ensures var s := Run(NewSend(id), max, ops);
            && (op.Begin? ==> (Told(s, max, op) <==> op.seq_ != 0 && Decision(id, ops) == Open && s.round < max))
            && (op.Resume? ==>
                  (Told(s, max, op) <==>
                     Decision(id, ops) == Open && s.round == max && s.state != InFlight && s.state != Created))
            && (!Told(s, max, op) ==> Do(s, max, op) == s)
  {
    hide Run, Decision;
    AlwaysSound(id, max, ops);
    FirstAnswerDecides(id, max, ops);
  }

  /** The number of the last operation that began an attempt. */
  function LastBegun(s: Send, max: nat, ops: seq<Op>): nat {
    if ops == [] then 0
    else
      var front, last := ops[..|ops| - 1], ops[|ops| - 1];
      if last.Begin? && Told(Run(s, max, front), max, last) then last.seq_ else LastBegun(s, max, front)
  }

  /** The sequence number kept is that of the last attempt, and zero exactly if there was none. */
  lemma {:induction false} CurrentIsLastBegun(id: string, max: nat, ops: seq<Op>)
    ensures var run := Run(NewSend(id), max, ops);
            run.currentSeq == LastBegun(NewSend(id), max, ops) && (run.currentSeq == 0 <==> run.total == 0)
  {
    if ops != [] {
      CurrentIsLastBegun(id, max, ops[..|ops| - 1]);
    }
  }

  // ---- what decides the outcome --------------------------------------------------------------

  datatype Outcome = Open | AcceptedAs(messageId: nat) | Refused

  /** The outcome by the first refusal or success acknowledgement alone. */
  function Decision(id: string, ops: seq<Op>): Outcome {
    if ops == [] then Open
    else
      var front := Decision(id, ops[..|ops| - 1]);
      if front != Open then front
      else match ops[|ops| - 1]
        case Refuse => Refused
        case Receive(p) => if Answers(NewSend(id), p) then AcceptedAs(p.messageId) else Open
        case _ => Open
  }

  function OutcomeOf(s: Send): Outcome {
    if s.state == Accepted then AcceptedAs(s.serverMessageId) else if s.state == Rejected then Refused else Open
  }

  /**
   * However attempts, failures and resumptions are mixed in, the outcome is decided by the first
   * refusal or success acknowledgement for this id; later ones, repeated or conflicting, change
   * nothing.
   */
  lemma {:induction false} FirstAnswerDecides(id: string, max: nat, ops: seq<Op>)
    ensures OutcomeOf(Run(NewSend(id), max, ops)) == Decision(id, ops)
  {
    if ops != [] {
      FirstAnswerDecides(id, max, ops[..|ops| - 1]);
      AlwaysSound(id, max, ops[..|ops| - 1]);
    }
  }

  /** Some operation is a success acknowledgement for `id`. */
  predicate Answered(id: string, ops: seq<Op>) {
    exists k :: 0 <= k < |ops| && ops[k].Receive? && Answers(NewSend(id), ops[k].packet)
  }

  /** All success acknowledgements for `id` carry the same server id. */
  predicate Agree(id: string, ops: seq<Op>, messageId: nat) {
    forall k :: 0 <= k < |ops| && ops[k].Receive? && Answers(NewSend(id), ops[k].packet) ==>
      ops[k].packet.messageId == messageId
  }

  /**
   * When the acknowledgements agree, their order and number do not matter, nor what happens between
   * them: without a refusal the send is accepted, under that id, if and only if one arrived.
   */
  lemma {:induction false} OrderAndMultiplicityIrrelevant(id: string, max: nat, ops: seq<Op>, messageId: nat)
    requires Agree(id, ops, messageId) && Refuse !in ops
    ensures OutcomeOf(Run(NewSend(id), max, ops)) == if Answered(id, ops) then AcceptedAs(messageId) else Open
  {
    hide Run;
    FirstAnswerDecides(id, max, ops);
    DecisionWhenAgreed(id, ops, messageId);
  }

  lemma {:induction false} DecisionWhenAgreed(id: string, ops: seq<Op>, messageId: nat)
    requires Agree(id, ops, messageId) && Refuse !in ops
    ensures Decision(id, ops) == if Answered(id, ops) then AcceptedAs(messageId) else Open
  {
    if ops != [] {
      var front, last := ops[..|ops| - 1], ops[|ops| - 1];
      assert last in ops;
      assert forall k :: 0 <= k < |ops| ==> ops[k] == if k < |front| then front[k] else last;
      DecisionWhenAgreed(id, front, messageId);
      if Answered(id, front) {
        var k :| 0 <= k < |front| && front[k].Receive? && Answers(NewSend(id), front[k].packet);
        assert ops[k] == front[k];
      }
    }
  }

  /** `k` attempts that all fail. */
  function Attempts(k: nat): (ops: seq<Op>)
    ensures |ops| == 2 * k
  {
    if k == 0 then [] else Attempts(k - 1) + [Begin(k), Fail]
  }

  /** A round without an answer ends, after exactly its budget, as uncertain and not before. */
  lemma {:induction false} SilenceEndsUncertain(id: string, max: nat, k: nat)
    requires 1 <= k <= max
    ensures var s := Run(NewSend(id), max, Attempts(k));
            s.state == (if k < max then RetryWait else Uncertain) && s.total == s.round == k && s.ambiguous
  {
    var ops := Attempts(k);
    var before := if k == 1 then NewSend(id) else Run(NewSend(id), max, Attempts(k - 1));
    if k > 1 { SilenceEndsUncertain(id, max, k - 1); }
    assert ops[..|ops| - 1] == Attempts(k - 1) + [Begin(k)];
    assert (Attempts(k - 1) + [Begin(k)])[..|ops| - 2] == Attempts(k - 1);
    assert Run(NewSend(id), max, Attempts(k - 1)) == before;
    assert Run(NewSend(id), max, ops[..|ops| - 1]) == Begun(before, max, k).0;
  }
}
