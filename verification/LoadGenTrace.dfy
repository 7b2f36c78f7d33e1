/**
 * What the history of a connection amounts to: the bytes its packets make, the messages among them,
 * the acknowledgements it owes for what it was given, and how often each kind of packet occurs.
 */
module LoadGenTrace {
  import opened Basics
  import opened LoadGenModel

  // ---- packets queued ------------------------------------------------------------------------

  /** The bytes of the packets, each framed with its own sequence number. */
  function Stream(cfg: Config, packets: seq<(Body, nat)>): Bytes {
    if packets == [] then []
    else
      var last := packets[|packets| - 1];
      Stream(cfg, packets[..|packets| - 1]) + cfg.frame(last.0, last.1)
  }

  /** The client ids of the chat packets, with their multiplicity. */
  function ChatIds(packets: seq<(Body, nat)>): multiset<string> {
    if packets == [] then multiset{}
    else
      var front, last := ChatIds(packets[..|packets| - 1]), packets[|packets| - 1].0;
      if last.ChatBody? then front + multiset{last.clientId} else front
  }

  /** The delivery acknowledgements among the packets, in order. */
  function AcksIn(packets: seq<(Body, nat)>): seq<(Body, nat)> {
    if packets == [] then []
    else
      var front, last := AcksIn(packets[..|packets| - 1]), packets[|packets| - 1];
      if last.0.DeliveryAckBody? then front + [last] else front
  }

  datatype Kind = Greeting | Message | Beat | PrivateAck | GroupAck

  function KindOf(body: Body): Kind {
    match body
    case LoginBody(_) => Greeting
    case ChatBody(_, _) => Message
    case HeartbeatBody => Beat
    case DeliveryAckBody(group, _) => if group then GroupAck else PrivateAck
  }

  function Posts(packets: seq<(Body, nat)>, kind: Kind): nat {
    if packets == [] then 0
    else Posts(packets[..|packets| - 1], kind) + (if KindOf(packets[|packets| - 1].0) == kind then 1 else 0)
  }

  // ---- packets handled -----------------------------------------------------------------------

  datatype Sound = Pong | Fault | PrivateMessage | GroupMessage | Other

  /** A delivery this user can take: numbered, readable, of a message, and addressed to it or a group. */
  predicate Takes(uid: nat, p: Packet) {
    p.Delivery? && p.seq_ != 0 && p.parsed && p.messageId != 0 && (p.group || p.to == uid)
  }

  function SoundOf(uid: nat, p: Packet): Sound {
    if p == HeartbeatReply(true) then Pong
    else if p.ServerError? then Fault
    else if Takes(uid, p) then if p.group then GroupMessage else PrivateMessage
    else Other
  }

  function Sounds(uid: nat, heard: seq<Packet>, sound: Sound): nat {
    if heard == [] then 0
    else Sounds(uid, heard[..|heard| - 1], sound) + (if SoundOf(uid, heard[|heard| - 1]) == sound then 1 else 0)
  }

  /** The acknowledgements owed: one per delivery taken, in order, under the delivery's own number. */
  function AcksDue(cfg: Config, uid: nat, heard: seq<Packet>): seq<(Body, nat)> {
    if heard == [] then []
    else
      var front, last := AcksDue(cfg, uid, heard[..|heard| - 1]), heard[|heard| - 1];
      if Takes(uid, last) && cfg.encodes(DeliveryAckBody(last.group, last.messageId))
      then front + [(DeliveryAckBody(last.group, last.messageId), last.seq_)] else front
  }

  /** The private messages among the deliveries taken. */
  function MessagesIn(uid: nat, heard: seq<Packet>): set<nat> {
    if heard == [] then {}
    else
      var front, last := MessagesIn(uid, heard[..|heard| - 1]), heard[|heard| - 1];
      if Takes(uid, last) && !last.group then front + {last.messageId} else front
  }

  // ---- answers -------------------------------------------------------------------------------

  /** The answer reports success for this very message: its id, its parties, stored under some number. */
  predicate Confirmed(o: Outcome) {
    && o.answer.Some? && o.answer.value.AckBody?
    && var id := o.answer.value.messageId;
       id != 0 && o.answer.value == AckBody(true, o.clientId, id, o.from, o.to, true)
  }

  function Confirmations(outcomes: seq<Outcome>): nat {
    if outcomes == [] then 0
    else Confirmations(outcomes[..|outcomes| - 1]) + (if Confirmed(outcomes[|outcomes| - 1]) then 1 else 0)
  }

  // ---- one more ------------------------------------------------------------------------------

  lemma OnePacketMore(cfg: Config, packets: seq<(Body, nat)>, body: Body, seq_: nat)
    ensures var more := packets + [(body, seq_)];
            && Stream(cfg, more) == Stream(cfg, packets) + cfg.frame(body, seq_)
            && ChatIds(more) == ChatIds(packets) + (if body.ChatBody? then multiset{body.clientId} else multiset{})
            && AcksIn(more) == AcksIn(packets) + (if body.DeliveryAckBody? then [(body, seq_)] else [])
            && forall kind :: Posts(more, kind) == Posts(packets, kind) + (if KindOf(body) == kind then 1 else 0)
  {
    assert (packets + [(body, seq_)])[..|packets|] == packets;
  }

  lemma OneHearingMore(cfg: Config, uid: nat, heard: seq<Packet>, p: Packet)
    ensures var more := heard + [Plain(p)];
            && AcksDue(cfg, uid, more) == AcksDue(cfg, uid, heard) +
                 (if Takes(uid, p) && cfg.encodes(DeliveryAckBody(p.group, p.messageId))
                  then [(DeliveryAckBody(p.group, p.messageId), p.seq_)] else [])
            && MessagesIn(uid, more) == MessagesIn(uid, heard) + (if Takes(uid, p) && !p.group then {p.messageId} else {})
            && forall sound ::
                 Sounds(uid, more, sound) == Sounds(uid, heard, sound) + (if SoundOf(uid, p) == sound then 1 else 0)
  {
    assert (heard + [Plain(p)])[..|heard|] == heard;
  }

  lemma OneOutcomeMore(outcomes: seq<Outcome>, o: Outcome)
    ensures Confirmations(outcomes + [o]) == Confirmations(outcomes) + (if Confirmed(o) then 1 else 0)
  {
    assert (outcomes + [o])[..|outcomes|] == outcomes;
  }

  // ---- the counters --------------------------------------------------------------------------

  /** The counters that the history of the connections determines. */
  datatype Traffic = Traffic(
    confirmed: int, beats: int, privateAcks: int, groupAcks: int,
    pongs: int, faults: int, privates: int, groups: int)

  const NO_TRAFFIC: Traffic := Traffic(0, 0, 0, 0, 0, 0, 0, 0)

  function Join(a: Traffic, b: Traffic): Traffic {
    Traffic(a.confirmed + b.confirmed, a.beats + b.beats, a.privateAcks + b.privateAcks, a.groupAcks + b.groupAcks,
            a.pongs + b.pongs, a.faults + b.faults, a.privates + b.privates, a.groups + b.groups)
  }

  function Less(a: Traffic, b: Traffic): Traffic {
    Traffic(a.confirmed - b.confirmed, a.beats - b.beats, a.privateAcks - b.privateAcks, a.groupAcks - b.groupAcks,
            a.pongs - b.pongs, a.faults - b.faults, a.privates - b.privates, a.groups - b.groups)
  }

  function Carried(uid: nat, packets: seq<(Body, nat)>, outcomes: seq<Outcome>, heard: seq<Packet>): Traffic {
    Traffic(Confirmations(outcomes), Posts(packets, Beat), Posts(packets, PrivateAck), Posts(packets, GroupAck),
            Sounds(uid, heard, Pong), Sounds(uid, heard, Fault),
            Sounds(uid, heard, PrivateMessage), Sounds(uid, heard, GroupMessage))
  }
}
