/**
 * The failover load generator: its configuration, the record it keeps per connection, its counters,
 * and the effect of each handler on one connection and the counters.
 *
 * The environment (sockets, the server, the clock) enters as arguments. History fields, marked as
 * such, record what happened; no handler reads them.
 */
module LoadGenModel {
  import opened Basics
  import opened ClientIds
  import opened OutputQueue
  import Backoff

  const MILLI: int := 1_000_000
  const SECOND: int := 1_000_000_000
  const U32: int := 0x1_0000_0000
  const U64: int := 0x1_0000_0000_0000_0000

  /** The number of sequence values: all of 32 bits but zero. */
  const SEQUENCES: int := U32 - 1

  /** What is encoded: the codec accepts or refuses a packet by its type and body alone. */
  datatype Body =
    | LoginBody(user: nat)
    | ChatBody(clientId: string, to: nat)
    | HeartbeatBody
    | DeliveryAckBody(group: bool, messageId: nat)

  datatype Config = Config(
    connections: nat,
    userIdBase: nat,
    hotspot: Option<nat>,
    privateMode: bool,
    maxOutstanding: nat,
    reconnect: bool,
    baseMs: nat,
    maxMs: nat,
    maxAttempts: nat,
    connectInterval: nat,
    reconnectInterval: nat,
    sendInterval: nat,
    heartbeat: nat,
    duration: nat,
    drain: nat,
    setupBudget: nat,
    runId: nat,
    encodes: Body -> bool,
    frame: (Body, nat) -> Bytes,
    mix: (nat, nat) -> nat)
  {
    /**
     * The limits the argument parser enforces, the width of the identifiers, and that the setup is
     * given a minute, and more if the ramp needs it.
     */
    predicate Valid() {
      && 0 < connections <= 20000 && 0 < userIdBase < U64 && runId < U64
      && (hotspot.Some? ==> hotspot.value < connections)
      && 0 < duration <= 86400 * SECOND && SECOND <= heartbeat && drain <= 300 * SECOND
      && 0 < maxOutstanding <= 128
      && 0 < baseMs <= maxMs <= Backoff.INT_MAX
      && 0 < maxAttempts <= 1000
      && 60 * SECOND <= setupBudget && connectInterval < setupBudget
    }

    function UserId(i: nat): nat {
      (userIdBase + i + 1) % U64
    }

    function PeerUserId(i: nat): nat
      requires connections > 0
    {
      if hotspot.Some? then
        UserId(if i != hotspot.value then hotspot.value else (hotspot.value + 1) % connections)
      else
        UserId((i + 1) % connections)
    }
  }

  datatype State = Unused | Connecting | LoginPending | Online | Closed

  datatype Pending = Pending(clientId: string, to: nat, firstSent: int)

  datatype AckBody =
    | Malformed
    | AckBody(success: bool, clientId: string, messageId: nat, from: nat, to: nat, persistent: bool)

  /** `walk` is the order in which the retry store is walked if this login replays it. */
  datatype Packet =
    | LoginResponse(success: bool, userId: nat, walk: seq<string>)
    | ChatAck(seq_: nat, ack: AckBody)
    | Delivery(group: bool, seq_: nat, parsed: bool, messageId: nat, to: nat)
    | HeartbeatReply(pong: bool)
    | ServerError
    | Unknown

  /** The packet as it came: without the order in which a replay would walk the store. */
  function Plain(p: Packet): Packet {
    if p.LoginResponse? then p.(walk := []) else p
  }

  /** How a send ended: who wrote what to whom, and the answer, or none if it could not be queued. */
  datatype Outcome = Outcome(clientId: string, from: nat, to: nat, answer: Option<AckBody>)

  /**
   * History of a connection: the packets queued with their sequence numbers, how many of them on
   * earlier sockets, how its sends ended, and the packets it was given to handle.
   */
  datatype Trace = Trace(packets: seq<(Body, nat)>, since: nat, outcomes: seq<Outcome>, heard: seq<Packet>)
  {
    function Posted(body: Body, seq_: nat): Trace {
      this.(packets := packets + [(body, seq_)])
    }

    function Detached(): Trace {
      this.(since := |packets|)
    }

    function Ended(outcome: Outcome): Trace {
      this.(outcomes := outcomes + [outcome])
    }

    function Heard(p: Packet): Trace {
      this.(heard := heard + [Plain(p)])
    }
  }

  datatype Conn = Conn(
    fd: int,
    state: State,
    out: Transport,
    pending: map<nat, Pending>,
    retryPending: map<string, Pending>,
    seenDeliveries: set<nat>,
    seq_: nat,
    uid: nat,
    peer: nat,
    logical: nat,
    loginResolved: bool,
    countedDisconnect: bool,
    everOnline: bool,
    recoveryPending: bool,
    recoveredOnce: bool,
    attemptNo: nat,
    nextHeartbeat: int,
    nextReconnect: int,
    draws: nat,                // history: sequence numbers drawn
    resolved: seq<string>,     // history: client ids answered or refused, in order
    refused: nat,              // history: sends the output queue refused
    lost: nat,                 // history: sends dropped because their sequence number was in flight
    queued: multiset<string>,  // history: client ids of the chat frames queued
    replays: nat,              // history: stashed messages queued again
    recoveries: nat,           // history: logins after a failover
    exhausted: nat,            // history: times the client was found out of attempts
    aborts: nat,               // history: sockets closed before their connect completed
    redial: bool,              // history: whether the socket was opened as a reconnect
    trace: Trace)              // history: what was queued, answered and handled

  const NEW_CONN: Conn := Conn(
    -1, Unused, EMPTY, map[], map[], {}, 1, 0, 0, 0, false, false, false, false, false, 0, 0, 0, 0, [], 0, 0,
    multiset{}, 0, 0, 0, 0, false, Trace([], 0, [], []))

  datatype Metrics = Metrics(
    connectAttempts: int,
    connected: int,
    connectFail: int,
    loginOk: int,
    loginFail: int,
    loginResponseFail: int,
    loginUnresolvedFail: int,
    disconnects: int,
    disconnectEvents: int,
    affectedClients: int,
    recoveredClients: int,
    reconnectAttempts: int,
    reconnectConnectFail: int,
    reconnectConnected: int,
    reconnectExhausted: int,
    reauthAttempts: int,
    reauthOk: int,
    reauthFail: int,
    protocolErrors: int,
    serverErrors: int,
    heartbeatSent: int,
    heartbeatAck: int,
    sendAttempts: int,
    messageRetryAttempts: int,
    chatAckOk: int,
    chatAckFail: int,
    receiverDelivery: int,
    receiverDeliveryUnique: int,
    receiverDeliveryDuplicates: int,
    receiverAckSent: int,
    groupDelivery: int,
    groupAckSent: int,
    backpressureSkips: int)

  const ZERO: Metrics := Metrics(
    0, 0, 0, 0, 0, 0, 0, 0, 0, 0, 0, 0, 0, 0, 0, 0, 0, 0, 0, 0, 0, 0, 0, 0, 0, 0, 0, 0, 0, 0, 0, 0, 0)

  /** One connection together with the shared counters: what a handler works on. */
  datatype Local = Local(c: Conn, m: Metrics)

  /** What a handler reads beyond the connection: the phase of the run and the clock. */
  datatype Ctx = Ctx(testStarted: bool, draining: bool, now: int)

  // ---- sequence numbers ----------------------------------------------------------------------

  /** The next value the wrap-avoiding counter hands out, and the counter after it. */
  function DrawnSeq(seq_: nat): nat {
    if seq_ == 0 then 1 else seq_
  }

  function SeqAfter(seq_: nat): nat {
    (DrawnSeq(seq_) + 1) % U32
  }

  function Draw(c: Conn): Conn {
    c.(seq_ := SeqAfter(c.seq_), draws := c.draws + 1)
  }

  // ---- transport -----------------------------------------------------------------------------

  predicate CanQueue(cfg: Config, c: Conn, body: Body) {
    c.fd >= 0 && c.state != Closed && cfg.encodes(body)
  }

  /** Appends the packet to the output queue; an open connection counts a refusal by the codec. */
  function Queue(cfg: Config, l: Local, body: Body, seq_: nat): Local {
    if CanQueue(cfg, l.c, body) then
      l.(c := l.c.(out := Push(l.c.out, cfg.frame(body, seq_)), trace := l.c.trace.Posted(body, seq_)))
    else if l.c.fd < 0 || l.c.state == Closed then l
    else l.(m := l.m.(protocolErrors := l.m.protocolErrors + 1))
  }

  // ---- closing and reconnecting --------------------------------------------------------------

  function PendingIds(pending: map<nat, Pending>): set<string> {
    set s | s in pending :: pending[s].clientId
  }

  /** The lowest sequence number under which an id is in flight, looking down from `s`. */
  ghost function FirstBelow(pending: map<nat, Pending>, id: string, s: nat): (r: nat)
    requires s in pending && pending[s].clientId == id
    ensures r in pending && pending[r].clientId == id
    ensures forall t :: t in pending && pending[t].clientId == id ==> r <= t
    decreases s
  {
    if t: nat :| t in pending && pending[t].clientId == id && t < s then FirstBelow(pending, id, t) else s
  }

  ghost function FirstWith(pending: map<nat, Pending>, id: string): (r: nat)
    requires id in PendingIds(pending)
    ensures r in pending && pending[r].clientId == id
    ensures forall t :: t in pending && pending[t].clientId == id ==> r <= t
  {
    var s :| s in pending && pending[s].clientId == id;
    FirstBelow(pending, id, s)
  }

  /**
   * Everything in flight moves to the retry store, under its client id. (Ids in flight are
   * distinct, so which entry wins for a repeated id never matters.)
   */
  ghost function Stashed(pending: map<nat, Pending>, retry: map<string, Pending>): map<string, Pending> {
    map id | id in retry.Keys + PendingIds(pending) ::
      if id in PendingIds(pending) then pending[FirstWith(pending, id)] else retry[id]
  }

  ghost function StashPending(c: Conn): Conn {
    c.(retryPending := Stashed(c.pending, c.retryPending), pending := map[])
  }

  function ReconnectAt(cfg: Config, x: Ctx, c: Conn): int
    requires cfg.Valid()
  {
    x.now + MILLI * Backoff.Delay(cfg.baseMs, cfg.maxMs, c.attemptNo, cfg.mix(c.uid, c.attemptNo))
  }

  function ScheduleReconnect(cfg: Config, x: Ctx, l: Local): Local
    requires cfg.Valid()
  {
    if !cfg.reconnect || !l.c.everOnline || x.draining then l
    else if l.c.attemptNo >= cfg.maxAttempts then
      Local(l.c.(exhausted := l.c.exhausted + 1), l.m.(reconnectExhausted := l.m.reconnectExhausted + 1))
    else l.(c := l.c.(recoveryPending := true, nextReconnect := ReconnectAt(cfg, x, l.c)))
  }

  /** A socket that was waiting for its login answer when it closed: the login failed. */
  function FailOpenLogin(l: Local): Local {
    var c, m := l.c, l.m;
    if c.loginResolved || c.state == Connecting || c.state == Unused then l
    else Local(c.(loginResolved := true),
               if c.recoveryPending && c.everOnline then m.(reauthFail := m.reauthFail + 1)
               else if !c.everOnline then
                 m.(loginFail := m.loginFail + 1, loginUnresolvedFail := m.loginUnresolvedFail + 1)
               else m)
  }

  function CountDisconnect(l: Local): Local {
    var c, m := l.c, l.m.(disconnectEvents := l.m.disconnectEvents + 1);
    if !c.countedDisconnect && c.everOnline
    then Local(c.(countedDisconnect := true),
               m.(disconnects := m.disconnects + 1, affectedClients := m.affectedClients + 1))
    else Local(c, m)
  }

  function Shut(c: Conn): Conn {
    c.(fd := -1, out := EMPTY, trace := c.trace.Detached(), aborts := if c.state == Connecting then c.aborts + 1 else c.aborts)
  }

  /** The connection is closed and settled; whether another attempt is scheduled comes after. */
  ghost function CloseDown(cfg: Config, l: Local, count: bool): Local {
    var l1 := FailOpenLogin(l.(c := Shut(l.c)));
    var l2 := if count then CountDisconnect(l1) else l1;
    var c3 := if l2.c.everOnline then StashPending(l2.c) else l2.c;
    Local(c3.(state := Closed,
              recoveryPending := c3.recoveryPending || (count && c3.everOnline && cfg.reconnect)), l2.m)
  }

  ghost function Close(cfg: Config, x: Ctx, l: Local, count: bool): Local
    requires cfg.Valid()
  {
    if l.c.fd < 0 then l
    else
      var wasOnline := l.c.state == Online;
      var wasReauth := l.c.recoveryPending && l.c.everOnline;
      var l1 := CloseDown(cfg, l, count);
      if cfg.reconnect && ((count && l1.c.everOnline) || (!wasOnline && wasReauth))
      then ScheduleReconnect(cfg, x, l1)
      else l1
  }

  // ---- connecting ----------------------------------------------------------------------------

  /** The socket is connected: ask to log in. */
  ghost function Connected(cfg: Config, x: Ctx, l: Local, reconnect: bool): Local
    requires cfg.Valid()
  {
    var m := l.m;
    var m1 := if reconnect
              then m.(reconnectConnected := m.reconnectConnected + 1, reauthAttempts := m.reauthAttempts + 1)
              else m.(connected := m.connected + 1);
    var c1 := l.c.(state := LoginPending, loginResolved := false);
    var body := LoginBody(c1.uid);
    var l2 := Queue(cfg, Local(Draw(c1), m1), body, DrawnSeq(c1.seq_));
    if CanQueue(cfg, Draw(c1), body) then l2
    else if reconnect then
      Close(cfg, x, Local(l2.c.(loginResolved := true), l2.m.(reauthFail := l2.m.reauthFail + 1)), true)
    else
      Close(cfg, x, Local(l2.c.(loginResolved := true),
                          l2.m.(loginFail := l2.m.loginFail + 1,
                                loginUnresolvedFail := l2.m.loginUnresolvedFail + 1)), false)
  }

  function ConnectFailed(cfg: Config, x: Ctx, l: Local, reconnect: bool): Local
    requires cfg.Valid()
  {
    if reconnect
    then ScheduleReconnect(cfg, x, l.(m := l.m.(reconnectConnectFail := l.m.reconnectConnectFail + 1)))
    else l.(m := l.m.(connectFail := l.m.connectFail + 1))
  }

  function HandleConnectFailure(cfg: Config, x: Ctx, l: Local): Local
    requires cfg.Valid()
  {
    ConnectFailed(cfg, x, l.(c := l.c.(fd := -1, state := Closed, out := EMPTY, trace := l.c.trace.Detached())),
                  l.c.recoveryPending && l.c.everOnline)
  }

  /** How far opening a socket got: no descriptor, `connect` or `epoll_ctl` refused, or it is open. */
  datatype OpenResult = NoSocket | Refused | NotWatched | InProgress(fd: nat) | Immediate(fd: nat)

  ghost function OpenSocket(cfg: Config, x: Ctx, i: nat, l: Local, reconnect: bool, r: OpenResult): Local
    requires cfg.Valid()
  {
    var c0 := l.c.(out := EMPTY, trace := l.c.trace.Detached(), loginResolved := false, redial := reconnect);
    var l1 := if reconnect
              then Local(c0.(attemptNo := c0.attemptNo + 1), l.m.(reconnectAttempts := l.m.reconnectAttempts + 1))
              else Local(c0, l.m.(connectAttempts := l.m.connectAttempts + 1));
    var named := l1.c.(uid := cfg.UserId(i), peer := cfg.PeerUserId(i));
    match r
    case NoSocket =>
      ConnectFailed(cfg, x, if reconnect then l1 else l1.(c := l1.c.(state := Closed)), reconnect)
    case Refused => ConnectFailed(cfg, x, l1.(c := named.(fd := -1, state := Closed)), reconnect)
    case NotWatched => ConnectFailed(cfg, x, l1.(c := named.(fd := -1, state := Closed)), reconnect)
    case InProgress(fd) => l1.(c := named.(fd := fd, state := Connecting))
    case Immediate(fd) => Connected(cfg, x, l1.(c := named.(fd := fd, state := LoginPending)), reconnect)
  }

  // ---- packets -------------------------------------------------------------------------------

  ghost predicate Lists(order: seq<string>, ids: set<string>) {
    && (forall id :: id in order <==> id in ids)
    && (forall j, k :: 0 <= j < k < |order| ==> order[j] != order[k])
  }

  ghost function SomeListing(ids: set<string>): (order: seq<string>)
    ensures Lists(order, ids)
  {
    if ids == {} then [] else var id :| id in ids; [id] + SomeListing(ids - {id})
  }

  /** The order in which the retry store is walked: the given one if it is an order of its keys. */
  ghost function WalkOrder(ids: set<string>, order: seq<string>): (r: seq<string>)
    ensures Lists(r, ids)
  {
    if Lists(order, ids) then order else SomeListing(ids)
  }

  /** `emplace`: the entry is kept if the key is already there. */
  function Emplace(pending: map<nat, Pending>, seq_: nat, item: Pending): map<nat, Pending> {
    if seq_ in pending then pending else pending[seq_ := item]
  }

  /** A message whose frame is queued enters the flight, unless its number is already there. */
  function Launch(c: Conn, seq_: nat, item: Pending): Conn {
    c.(pending := Emplace(c.pending, seq_, item), lost := if seq_ in c.pending then c.lost + 1 else c.lost,
       queued := c.queued + multiset{item.clientId})
  }

  function ReplayOne(cfg: Config, l: Local, item: Pending): Local {
    var body := ChatBody(item.clientId, item.to);
    var seq_ := DrawnSeq(l.c.seq_);
    var l1 := Queue(cfg, l.(c := Draw(l.c)), body, seq_);
    if CanQueue(cfg, Draw(l.c), body) then
      Local(Launch(l1.c, seq_, item).(replays := l1.c.replays + 1),
            l1.m.(messageRetryAttempts := l1.m.messageRetryAttempts + 1))
    else
      l1.(c := l1.c.(retryPending := l1.c.retryPending[item.clientId := item]))
  }

  function Replay(cfg: Config, l: Local, items: seq<Pending>): Local
    decreases |items|
  {
    if items == [] then l else Replay(cfg, ReplayOne(cfg, l, items[0]), items[1..])
  }

  function Items(retry: map<string, Pending>, order: seq<string>): (items: seq<Pending>)
    requires forall id :: id in order ==> id in retry
    ensures |items| == |order|
    ensures forall k :: 0 <= k < |order| ==> items[k] == retry[order[k]]
  {
    seq(|order|, k requires 0 <= k < |order| => assert order[k] in order; retry[order[k]])
  }

  ghost function RetryPending(cfg: Config, l: Local, order: seq<string>): Local {
    var walk := WalkOrder(l.c.retryPending.Keys, order);
    Replay(cfg, l.(c := l.c.(retryPending := map[])), Items(l.c.retryPending, walk))
  }

  ghost function Login(cfg: Config, x: Ctx, l: Local, success: bool, userId: nat, order: seq<string>): Local
    requires cfg.Valid()
  {
    if l.c.loginResolved then l.(m := l.m.(protocolErrors := l.m.protocolErrors + 1))
    else
      var recovery := l.c.recoveryPending && l.c.everOnline;
      var c1, m := l.c.(loginResolved := true), l.m;
      if !(success && userId == c1.uid) then
        if recovery then Close(cfg, x, Local(c1, m.(reauthFail := m.reauthFail + 1)), true)
        else Close(cfg, x, Local(c1, m.(loginFail := m.loginFail + 1,
                                         loginResponseFail := m.loginResponseFail + 1)), false)
      else
        var c2 := c1.(state := Online, nextHeartbeat := x.now + cfg.heartbeat);
        if !c2.everOnline then Local(c2.(everOnline := true), m.(loginOk := m.loginOk + 1))
        else if recovery then
          var m1 := m.(reauthOk := m.reauthOk + 1,
                       recoveredClients := if c2.recoveredOnce then m.recoveredClients else m.recoveredClients + 1);
          RetryPending(cfg, Local(c2.(recoveredOnce := true, recoveryPending := false,
                                       recoveries := c2.recoveries + 1), m1), order)
        else Local(c2, m)
  }

  /** An answer to a chat message settles the send it answers, one way or the other. */
  function HandleChatAck(l: Local, seq_: nat, ack: AckBody): Local {
    var c, m := l.c, l.m;
    if seq_ !in c.pending then l.(m := m.(protocolErrors := m.protocolErrors + 1))
    else
      var item := c.pending[seq_];
      var c1 := c.(pending := c.pending - {seq_}, resolved := c.resolved + [item.clientId],
                   trace := c.trace.Ended(Outcome(item.clientId, c.uid, item.to, Some(ack))));
      if ack.AckBody? && !ack.success then Local(c1, m.(chatAckFail := m.chatAckFail + 1))
      else if ack.Malformed? || ack.clientId != item.clientId || ack.messageId == 0 || ack.from != c.uid
              || ack.to != item.to || !ack.persistent
      then Local(c1, m.(chatAckFail := m.chatAckFail + 1, protocolErrors := m.protocolErrors + 1))
      else Local(c1, m.(chatAckOk := m.chatAckOk + 1))
  }

  /** A private delivery is counted, and counted as new only the first time its message is seen. */
  function Seen(l: Local, group: bool, messageId: nat): Local {
    var c, m := l.c, l.m;
    if group then Local(c, m.(groupDelivery := m.groupDelivery + 1))
    else if messageId in c.seenDeliveries then
      Local(c, m.(receiverDelivery := m.receiverDelivery + 1,
                  receiverDeliveryDuplicates := m.receiverDeliveryDuplicates + 1))
    else
      Local(c.(seenDeliveries := c.seenDeliveries + {messageId}),
            m.(receiverDelivery := m.receiverDelivery + 1,
               receiverDeliveryUnique := m.receiverDeliveryUnique + 1))
  }

  function HandleDelivery(cfg: Config, l: Local, group: bool, seq_: nat, parsed: bool, messageId: nat, to: nat): Local {
    if seq_ == 0 || !parsed || messageId == 0 || (!group && to != l.c.uid)
    then l.(m := l.m.(protocolErrors := l.m.protocolErrors + 1))
    else
      var l1 := Seen(l, group, messageId);
      var body := DeliveryAckBody(group, messageId);
      var l2 := Queue(cfg, l1, body, seq_);
      if !CanQueue(cfg, l1.c, body) then l2.(m := l2.m.(protocolErrors := l2.m.protocolErrors + 1))
      else if group then l2.(m := l2.m.(groupAckSent := l2.m.groupAckSent + 1))
      else l2.(m := l2.m.(receiverAckSent := l2.m.receiverAckSent + 1))
  }

  function Hear(l: Local, p: Packet): Local {
    l.(c := l.c.(trace := l.c.trace.Heard(p)))
  }

  ghost function HandlePacket(cfg: Config, x: Ctx, given: Local, p: Packet): Local
    requires cfg.Valid()
  {
    var l, m := Hear(given, p), given.m;
    match p
    case LoginResponse(success, userId, walk) => Login(cfg, x, l, success, userId, walk)
    case ChatAck(seq_, ack) => HandleChatAck(l, seq_, ack)
    case Delivery(group, seq_, parsed, messageId, to) => HandleDelivery(cfg, l, group, seq_, parsed, messageId, to)
    case HeartbeatReply(pong) =>
      if pong then l.(m := m.(heartbeatAck := m.heartbeatAck + 1))
      else l.(m := m.(protocolErrors := m.protocolErrors + 1))
    case ServerError => l.(m := m.(serverErrors := m.serverErrors + 1))
    case Unknown => l.(m := m.(protocolErrors := m.protocolErrors + 1))
  }

  /** Packets are handled in order until one of them closes the connection. */
  ghost function HandlePackets(cfg: Config, x: Ctx, l: Local, ps: seq<Packet>): Local
    requires cfg.Valid()
    decreases |ps|
  {
    if ps == [] || l.c.fd < 0 then l
    else HandlePackets(cfg, x, HandlePacket(cfg, x, l, ps[0]), ps[1..])
  }

  /** What reading a socket yields: the peer is gone, or packets and perhaps undecodable bytes. */
  datatype ReadResult = PeerGone | Received(packets: seq<Packet>, corrupt: bool)

  ghost function Read(cfg: Config, x: Ctx, l: Local, r: ReadResult): Local
    requires cfg.Valid()
  {
    match r
    case PeerGone => Close(cfg, x, l, x.testStarted)
    case Received(ps, corrupt) =>
      var l1 := HandlePackets(cfg, x, l, ps);
      if corrupt && l1.c.fd >= 0
      then Close(cfg, x, l1.(m := l1.m.(protocolErrors := l1.m.protocolErrors + 1)), x.testStarted)
      else l1
  }

  ghost function FlushOut(cfg: Config, x: Ctx, l: Local, sends: seq<SendResult>): Local
    requires cfg.Valid()
  {
    var (out, close) := Flush(l.c.out, sends);
    var l1 := l.(c := l.c.(out := out));
    if close then Close(cfg, x, l1, x.testStarted) else l1
  }

  /** A readiness notification and what the socket answers when it is used. */
  datatype Ready = Ready(writable: bool, connectError: bool, sends: seq<SendResult>,
                         readable: bool, read: ReadResult, hangup: bool)

  ghost function OnConnected(cfg: Config, x: Ctx, l: Local, e: Ready): Local
    requires cfg.Valid()
  {
    if e.writable && l.c.state == Connecting
    then Connected(cfg, x, l, l.c.recoveryPending && l.c.everOnline) else l
  }

  ghost function OnWritable(cfg: Config, x: Ctx, l: Local, e: Ready): Local
    requires cfg.Valid()
  {
    if e.writable && l.c.fd >= 0 then FlushOut(cfg, x, l, e.sends) else l
  }

  ghost function OnReadable(cfg: Config, x: Ctx, l: Local, e: Ready): Local
    requires cfg.Valid()
  {
    if e.readable && l.c.fd >= 0 then Read(cfg, x, l, e.read) else l
  }

  ghost function OnHangup(cfg: Config, x: Ctx, l: Local, e: Ready): Local
    requires cfg.Valid()
  {
    if e.hangup && l.c.fd >= 0 then Close(cfg, x, l, x.testStarted) else l
  }

  ghost function HandleEvent(cfg: Config, x: Ctx, l: Local, e: Ready): Local
    requires cfg.Valid()
  {
    if l.c.fd < 0 then l
    else if e.writable && l.c.state == Connecting && e.connectError then HandleConnectFailure(cfg, x, l)
    else
      var l1 := OnConnected(cfg, x, l, e);
      var l2 := OnWritable(cfg, x, l1, e);
      var l3 := OnReadable(cfg, x, l2, e);
      OnHangup(cfg, x, l3, e)
  }

  // ---- sending -------------------------------------------------------------------------------

  function Heartbeat(cfg: Config, x: Ctx, l: Local): Local {
    if l.c.state != Online || x.now < l.c.nextHeartbeat then l
    else
      var l1 := Queue(cfg, l.(c := Draw(l.c)), HeartbeatBody, DrawnSeq(l.c.seq_));
      Local(l1.c.(nextHeartbeat := x.now + cfg.heartbeat),
            if CanQueue(cfg, Draw(l.c), HeartbeatBody) then l1.m.(heartbeatSent := l1.m.heartbeatSent + 1) else l1.m)
  }

  function NewId(cfg: Config, c: Conn): string {
    ClientId(cfg.runId, c.uid, c.logical + 1)
  }

  /** A send that could not be queued is settled at once, without an answer. */
  function RefusedSend(l: Local, id: string): Local {
    Local(l.c.(resolved := l.c.resolved + [id], refused := l.c.refused + 1,
               trace := l.c.trace.Ended(Outcome(id, l.c.uid, l.c.peer, None))),
          l.m.(chatAckFail := l.m.chatAckFail + 1))
  }

  function SendOne(cfg: Config, x: Ctx, l: Local): Local {
    var seq_ := DrawnSeq(l.c.seq_);
    var id := NewId(cfg, l.c);
    var c1 := Draw(l.c).(logical := l.c.logical + 1);
    if |id| > 64 then Local(c1, l.m.(protocolErrors := l.m.protocolErrors + 1))
    else
      var body := ChatBody(id, c1.peer);
      var l2 := Queue(cfg, Local(c1, l.m), body, seq_);
      if !CanQueue(cfg, c1, body) then RefusedSend(l2, id)
      else
        Local(Launch(l2.c, seq_, Pending(id, c1.peer, x.now)),
              l2.m.(sendAttempts := l2.m.sendAttempts + 1))
  }

  predicate CanSend(cfg: Config, c: Conn) {
    c.state == Online && |c.pending| < cfg.maxOutstanding
  }

  predicate CanReconnect(cfg: Config, now: int, c: Conn) {
    && c.fd < 0 && c.recoveryPending && c.attemptNo < cfg.maxAttempts
    && c.nextReconnect != 0 && now >= c.nextReconnect
  }
}
