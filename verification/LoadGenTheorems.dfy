/** What every run of the failover load generator guarantees. */
module LoadGenTheorems {
  import opened Basics
  import opened ClientIds
  import opened OutputQueue
  import opened RoundRobin
  import opened LoadGenModel
  import opened LoadGenTrace
  import opened LoadGenInvariant
  import opened LoadGenRuns

  // ---- sums over the connections -------------------------------------------------------------

  function Sum(conns: seq<Conn>, f: Conn -> int): int {
    if conns == [] then 0 else Sum(conns[..|conns| - 1], f) + f(conns[|conns| - 1])
  }

  function Count(conns: seq<Conn>, p: Conn -> bool): nat {
    if conns == [] then 0 else Count(conns[..|conns| - 1], p) + (if p(conns[|conns| - 1]) then 1 else 0)
  }

  /** Messages sent and not settled: in flight or stashed for a retry. */
  function Unsettled(c: Conn): int {
    |c.pending| + |c.retryPending|
  }

  /** Sends that were counted but dropped: their sequence number was still in flight. */
  function Dropped(c: Conn): int {
    c.lost
  }

  function Refusals(c: Conn): int {
    c.refused
  }

  function Attempts(c: Conn): int {
    c.attemptNo
  }

  /** Messages answered, or refused when they were sent. */
  function Settled(c: Conn): int {
    |c.resolved|
  }

  function Recoveries(c: Conn): int {
    c.recoveries
  }

  function Replays(c: Conn): int {
    c.replays
  }

  /** Chat frames queued, first or again. */
  function Frames(c: Conn): int {
    |c.queued|
  }

  function Exhaustions(c: Conn): int {
    c.exhausted
  }

  /** The test for a client that is closed for good. */
  function OutOfAttempts(cfg: Config): Conn -> bool {
    c => GaveUp(cfg, c)
  }

  predicate EverOnline(c: Conn) {
    c.everOnline
  }

  predicate Affected(c: Conn) {
    c.countedDisconnect
  }

  predicate Recovered(c: Conn) {
    c.recoveredOnce
  }

  predicate Unrecovered(c: Conn) {
    c.countedDisconnect && !c.recoveredOnce
  }

  predicate FirstLoginOpen(c: Conn) {
    c.state == LoginPending && !c.everOnline
  }

  predicate ReauthOpen(c: Conn) {
    c.state == LoginPending && c.everOnline
  }

  predicate SetupEnded(c: Conn) {
    SetUp(c)
  }

  predicate Started(c: Conn) {
    c.state != Unused
  }

  function MessagesSeen(c: Conn): int {
    |c.seenDeliveries|
  }

  /** First sockets that are still connecting, or were closed before they were connected. */
  function FirstUnreported(c: Conn): int {
    if c.everOnline then 0 else Unreported(c)
  }

  function AgainUnreported(c: Conn): int {
    if c.everOnline then Unreported(c) else 0
  }

  /** Sends that ended with the answer they were waiting for. */
  function ConfirmedSends(c: Conn): int {
    Confirmations(c.trace.outcomes)
  }

  /** Sends that ended in any other way: turned down, answered wrongly, or never queued. */
  function OtherSends(c: Conn): int {
    |c.trace.outcomes| - Confirmations(c.trace.outcomes)
  }

  function Heartbeats(c: Conn): int {
    Posts(c.trace.packets, Beat)
  }

  function PrivateAcks(c: Conn): int {
    Posts(c.trace.packets, PrivateAck)
  }

  function GroupAcks(c: Conn): int {
    Posts(c.trace.packets, GroupAck)
  }

  function Pongs(c: Conn): int {
    Sounds(c.uid, c.trace.heard, Pong)
  }

  function Faults(c: Conn): int {
    Sounds(c.uid, c.trace.heard, Fault)
  }

  function PrivateDeliveries(c: Conn): int {
    Sounds(c.uid, c.trace.heard, PrivateMessage)
  }

  function GroupDeliveries(c: Conn): int {
    Sounds(c.uid, c.trace.heard, GroupMessage)
  }

  lemma {:induction false} TrafficIsSums(conns: seq<Conn>)
    ensures Total(conns).traffic ==
            Traffic(Sum(conns, ConfirmedSends), Sum(conns, Heartbeats), Sum(conns, PrivateAcks), Sum(conns, GroupAcks),
                    Sum(conns, Pongs), Sum(conns, Faults), Sum(conns, PrivateDeliveries), Sum(conns, GroupDeliveries))
  {
    hide Confirmations, Posts, Sounds;
    if conns != [] {
      TrafficIsSums(conns[..|conns| - 1]);
    }
  }

  lemma {:induction false} TotalsAreSums(conns: seq<Conn>)
    requires forall i :: 0 <= i < |conns| ==> AtRest(conns[i])
    ensures var t := Total(conns);
            && t.loginsOk == Count(conns, EverOnline)
            && t.firstLogins == Count(conns, FirstLoginOpen)
            && t.reauths == Count(conns, ReauthOpen)
            && t.affected == t.disconnects == Count(conns, Affected)
            && t.recovered == Count(conns, Recovered)
            && t.reconnectTries == Sum(conns, Attempts)
            && t.sends == t.settled + Sum(conns, Unsettled) + Sum(conns, Dropped) - Sum(conns, Refusals)
            && t.setupOutcomes == Count(conns, SetupEnded)
            && t.reauthPerReconnect == t.loginFailures == t.deliveries == 0
            && t.started == Count(conns, Started) && t.uniqueDeliveries == Sum(conns, MessagesSeen)
            && t.firstConnects == Sum(conns, FirstUnreported) && t.reconnects == Sum(conns, AgainUnreported)
            && t.settled == Sum(conns, Settled) && t.reauthOks == Sum(conns, Recoveries)
            && t.retries == Sum(conns, Replays) && t.frames == Sum(conns, Frames)
            && t.exhaustions == Sum(conns, Exhaustions)
  {
    if conns != [] {
      TotalsAreSums(conns[..|conns| - 1]);
    }
  }

  // ---- messages ------------------------------------------------------------------------------

  /**
   * Conservation: every message ever sent is answered, in flight, waiting for a retry, or dropped by
   * a sequence number that came round, exactly once, through any number of disconnects, reconnects
   * and replays.
   */
  lemma MessageConservation(cfg: Config, w: World)
    requires cfg.Valid() && Reachable(cfg, w)
    ensures w.m.chatAckOk + w.m.chatAckFail + Sum(w.conns, Unsettled) + Sum(w.conns, Dropped)
            == w.m.sendAttempts + Sum(w.conns, Refusals)
    ensures w.m.chatAckOk + w.m.chatAckFail == Sum(w.conns, Settled)
  {
    hide Reachable, WorldInv, Total, Sum, Count;
    ReachableInv(cfg, w);
    BooksOpen(cfg, w);
  }

  /** Until a connection draws its second sequence number for the second time, it drops nothing. */
  lemma NothingDropped(cfg: Config, w: World, i: nat)
    requires cfg.Valid() && Reachable(cfg, w) && i < |w.conns|
    ensures w.conns[i].draws <= SEQUENCES + 1 ==> w.conns[i].lost == 0
  {
    ReachableInv(cfg, w);
    hide Reachable, Total, Booked, Ids, Faithful;
    assert ConnInv(cfg, i, w.conns[i]);
  }

  /** Within 2^32 draws per connection, answered, in flight and stashed account for every send. */
  lemma NothingLost(cfg: Config, w: World)
    requires cfg.Valid() && Reachable(cfg, w)
    requires forall i :: 0 <= i < |w.conns| ==> w.conns[i].draws <= SEQUENCES + 1
    ensures w.m.chatAckOk + w.m.chatAckFail + Sum(w.conns, Unsettled) == w.m.sendAttempts + Sum(w.conns, Refusals)
  {
    hide Reachable, Sum;
    MessageConservation(cfg, w);
    forall i | 0 <= i < |w.conns|
      ensures w.conns[i].lost == 0
    {
      NothingDropped(cfg, w, i);
    }
    NoneDropped(w.conns);
  }

  lemma {:induction false} NoneDropped(conns: seq<Conn>)
    requires forall i :: 0 <= i < |conns| ==> conns[i].lost == 0
    ensures Sum(conns, Dropped) == 0
  {
    if conns != [] {
      NoneDropped(conns[..|conns| - 1]);
    }
  }

  /** The id of a message in flight, stashed or settled on a connection. */
  ghost predicate HasId(c: Conn, id: string) {
    id in c.resolved || id in c.retryPending || id in PendingIds(c.pending)
  }

  lemma HasIdIssued(cfg: Config, i: nat, c: Conn, id: string)
    requires Ids(cfg, cfg.UserId(i), c.logical, c.pending, c.retryPending, c.resolved) && HasId(c, id)
    ensures Issued(cfg, cfg.UserId(i), c.logical, id)
  {
    hide Issued;
    if id in c.resolved {
      var k :| 0 <= k < |c.resolved| && c.resolved[k] == id;
    } else if id in c.retryPending {
    } else {
      var s :| s in c.pending && c.pending[s].clientId == id;
    }
  }

  lemma UserIdInjective(cfg: Config, i: nat, j: nat)
    requires cfg.Valid() && i < cfg.connections && j < cfg.connections && cfg.UserId(i) == cfg.UserId(j)
    ensures i == j
  {
    var a, b := cfg.userIdBase + i + 1, cfg.userIdBase + j + 1;
    assert a == U64 * (a / U64) + a % U64 && b == U64 * (b / U64) + b % U64;
  }

  lemma NextOnRing(i: nat, n: nat)
    requires i < n
    ensures (i + 1) % n == if i == n - 1 then 0 else i + 1
  {
  }

  /**
   * Whom a client writes to. On the ring, the next one, so everybody is written to by exactly one;
   * with a hotspot, everybody writes to it, and it to the next one. Alone, a client writes to itself,
   * and otherwise never.
   */
  lemma WhoWritesToWhom(cfg: Config, i: nat, j: nat)
    requires cfg.Valid() && i < cfg.connections && j < cfg.connections
    ensures var next := if i == cfg.connections - 1 then 0 else i + 1;
            cfg.PeerUserId(i) == cfg.UserId(j) <==>
              j == if cfg.hotspot.Some? && i != cfg.hotspot.value then cfg.hotspot.value else next
    ensures cfg.PeerUserId(i) == cfg.UserId(i) <==> cfg.connections == 1
  {
    hide Config.UserId;
    var next := if i == cfg.connections - 1 then 0 else i + 1;
    NextOnRing(i, cfg.connections);
    var k := if cfg.hotspot.Some? && i != cfg.hotspot.value then cfg.hotspot.value else next;
    assert cfg.PeerUserId(i) == cfg.UserId(k);
    if cfg.UserId(k) == cfg.UserId(j) { UserIdInjective(cfg, k, j); }
    if cfg.UserId(k) == cfg.UserId(i) { UserIdInjective(cfg, k, i); }
  }

  /**
   * A client message id belongs to one connection, is settled at most once there, and once settled
   * is neither in flight nor stashed; in flight it has one sequence number.
   */
  lemma SettledOnce(cfg: Config, w: World, i: nat, j: nat, id: string)
    requires cfg.Valid() && Reachable(cfg, w) && i < |w.conns| && j < |w.conns|
    requires HasId(w.conns[i], id) && HasId(w.conns[j], id)
    ensures i == j
    ensures var c := w.conns[i];
            && (forall k, l :: 0 <= k < l < |c.resolved| ==> c.resolved[k] != c.resolved[l])
            && (id in c.resolved ==> id !in c.retryPending && id !in PendingIds(c.pending))
            && (id in c.retryPending ==> id !in PendingIds(c.pending))
            && (forall s, t :: s in c.pending && t in c.pending && c.pending[s].clientId == c.pending[t].clientId ==> s == t)
  {
    ReachableInv(cfg, w);
    hide Reachable, Total, Faithful, Sequenced, Life, Tracked;
    var c, d := w.conns[i], w.conns[j];
    assert Store(cfg, i, c) && Store(cfg, j, d);
    SameOwner(cfg, i, c, j, d, id);
  }

  lemma SameOwner(cfg: Config, i: nat, c: Conn, j: nat, d: Conn, id: string)
    requires cfg.Valid() && i < cfg.connections && j < cfg.connections
    requires Ids(cfg, cfg.UserId(i), c.logical, c.pending, c.retryPending, c.resolved) && HasId(c, id)
    requires Ids(cfg, cfg.UserId(j), d.logical, d.pending, d.retryPending, d.resolved) && HasId(d, id)
    ensures i == j
  {
    hide Ids, HasId, ClientId;
    HasIdIssued(cfg, i, c, id);
    HasIdIssued(cfg, j, d, id);
    var k: nat :| 1 <= k <= c.logical && id == ClientId(cfg.runId, cfg.UserId(i), k);
    var l: nat :| 1 <= l <= d.logical && id == ClientId(cfg.runId, cfg.UserId(j), l);
    ClientIdInjective(cfg.runId, cfg.UserId(i), k, cfg.UserId(j), l);
    UserIdInjective(cfg, i, j);
  }

  /**
   * Retransmission is bounded: a message is queued once, and again at most once per attempt its
   * connection made; the replays are at most a window per recovery, and a recovery takes an attempt.
   */
  lemma RetransmissionBound(cfg: Config, w: World)
    requires cfg.Valid() && Reachable(cfg, w)
    ensures forall i, id :: 0 <= i < |w.conns| ==> w.conns[i].queued[id] <= 1 + w.conns[i].attemptNo
    ensures w.m.sendAttempts + w.m.messageRetryAttempts == Sum(w.conns, Frames)
    ensures w.m.messageRetryAttempts <= w.m.reauthOk * cfg.maxOutstanding
    ensures w.m.reauthOk <= w.m.reconnectAttempts
  {
    hide Reachable, WorldInv, Total, Sum, Count, Booked;
    ReachableInv(cfg, w);
    BooksOpen(cfg, w);
    forall i | 0 <= i < |w.conns|
      ensures forall id :: w.conns[i].queued[id] <= 1 + w.conns[i].attemptNo
      ensures w.conns[i].replays <= w.conns[i].recoveries * cfg.maxOutstanding
      ensures w.conns[i].recoveries <= w.conns[i].attemptNo
    {
      QueuedWithinBudget(cfg, w, i);
    }
    ReplaysWithinWindow(w.conns, cfg.maxOutstanding);
  }

  lemma QueuedWithinBudget(cfg: Config, w: World, i: nat)
    requires WorldInv(cfg, w) && i < |w.conns|
    ensures var c := w.conns[i];
            && (forall id :: c.queued[id] <= 1 + c.attemptNo)
            && c.replays <= c.recoveries * cfg.maxOutstanding && c.recoveries <= c.attemptNo
  {
    hide Total, Booked, Paced, Ids, Sequenced, Faithful, Issued;
    assert ConnInv(cfg, i, w.conns[i]);
  }

  lemma {:induction false} ReplaysWithinWindow(conns: seq<Conn>, window: nat)
    requires forall i :: 0 <= i < |conns| ==>
               conns[i].replays <= conns[i].recoveries * window && conns[i].recoveries <= conns[i].attemptNo
    ensures Sum(conns, Replays) <= Sum(conns, Recoveries) * window
    ensures Sum(conns, Recoveries) <= Sum(conns, Attempts)
  {
    if conns != [] {
      var front, last := conns[..|conns| - 1], conns[|conns| - 1];
      ReplaysWithinWindow(front, window);
      assert (Sum(front, Recoveries) + last.recoveries) * window
          == Sum(front, Recoveries) * window + last.recoveries * window;
    }
  }

  /** The window holds across failover, and an online connection has nothing left to replay. */
  lemma WindowBound(cfg: Config, w: World, i: nat)
    requires cfg.Valid() && Reachable(cfg, w) && i < |w.conns|
    ensures |w.conns[i].pending| + |w.conns[i].retryPending| <= cfg.maxOutstanding
    ensures w.conns[i].state == Online ==> w.conns[i].retryPending == map[]
    ensures w.conns[i].state != Online ==> w.conns[i].pending == map[]
  {
    ReachableInv(cfg, w);
    hide Reachable, Total, Faithful, Ids;
    assert ConnInv(cfg, i, w.conns[i]);
  }

  /** On every socket the bytes on the wire followed by the unsent rest are what was queued. */
  lemma OutputStreamIntact(cfg: Config, w: World, i: nat)
    requires cfg.Valid() && Reachable(cfg, w) && i < |w.conns|
    ensures Faithful(w.conns[i].out)
  {
    ReachableInv(cfg, w);
    hide Reachable, Total, Ids;
    assert ConnInv(cfg, i, w.conns[i]);
  }

  /**
   * What reaches the wire is what is in flight: on every socket the bytes written followed by the
   * unsent rest are the frames of the packets queued on it, each under its own number. The first of
   * them asks to log in; every message in flight is among them, under the number it is in flight
   * under; and messages go to the peer and nobody else.
   */
  lemma WireCarriesFlight(cfg: Config, w: World, i: nat)
    requires cfg.Valid() && Reachable(cfg, w) && i < |w.conns|
    ensures var c := w.conns[i];
            && c.trace.since <= |c.trace.packets| && Faithful(c.out)
            && c.out.wire + Unsent(c.out) == Stream(cfg, OnSocket(c.trace))
            && (forall s :: s in c.pending ==> (ChatBody(c.pending[s].clientId, c.pending[s].to), s) in OnSocket(c.trace))
            && (c.state == LoginPending || c.state == Online ==>
                  c.trace.since < |c.trace.packets| && OnSocket(c.trace)[0].0 == LoginBody(cfg.UserId(i)))
            && (forall k :: 0 <= k < |c.trace.packets| && c.trace.packets[k].0.ChatBody? ==>
                  c.trace.packets[k].0.to == cfg.PeerUserId(i))
            && c.queued == ChatIds(c.trace.packets)
  {
    ReachableInv(cfg, w);
    hide Reachable, Total, Booked, Ids, Repeats, Sequenced, Heeded, Config.UserId, Config.PeerUserId;
    assert ConnInv(cfg, i, w.conns[i]) && AtRest(w.conns[i]);
  }

  /**
   * Every delivery a client takes is acknowledged, once, under the delivery's own number and in the
   * order of the deliveries, unless the codec refuses; nothing else is acknowledged; and the
   * messages seen are the private ones among these deliveries.
   */
  lemma DeliveriesAcknowledged(cfg: Config, w: World, i: nat)
    requires cfg.Valid() && Reachable(cfg, w) && i < |w.conns|
    ensures var c := w.conns[i];
            && AcksIn(c.trace.packets) == AcksDue(cfg, cfg.UserId(i), c.trace.heard)
            && c.seenDeliveries == MessagesIn(cfg.UserId(i), c.trace.heard)
  {
    ReachableInv(cfg, w);
    hide Reachable, Total, Booked, Ids, Repeats, Sequenced, Wired, Addressed, Faithful;
    assert ConnInv(cfg, i, w.conns[i]);
  }

  /**
   * The answers counted as good are the sends whose answer reported success, carried their id, a
   * message number, this user, the addressee and persistence; those counted as bad are all other
   * settled sends.
   */
  lemma AnswerAccounting(cfg: Config, w: World)
    requires cfg.Valid() && Reachable(cfg, w)
    ensures w.m.chatAckOk == Sum(w.conns, ConfirmedSends)
    ensures w.m.chatAckFail == Sum(w.conns, OtherSends)
    ensures forall i, k :: 0 <= i < |w.conns| && 0 <= k < |w.conns[i].resolved| ==>
              && |w.conns[i].trace.outcomes| == |w.conns[i].resolved|
              && var o := w.conns[i].trace.outcomes[k];
                 o.clientId == w.conns[i].resolved[k] && o.from == cfg.UserId(i) && o.to == cfg.PeerUserId(i)
  {
    hide Reachable, WorldInv, Total, Sum, Count;
    ReachableInv(cfg, w);
    BooksOpen(cfg, w);
    TrafficIsSums(w.conns);
    forall i | 0 <= i < |w.conns|
      ensures Addressed(cfg.UserId(i), Peer(cfg, i), w.conns[i].trace, w.conns[i].retryPending, w.conns[i].resolved)
    {
      OutcomesFit(cfg, w, i);
    }
    OthersAreTheRest(w.conns);
  }

  lemma OutcomesFit(cfg: Config, w: World, i: nat)
    requires WorldInv(cfg, w) && i < |w.conns|
    ensures var c := w.conns[i];
            && Addressed(cfg.UserId(i), Peer(cfg, i), c.trace, c.retryPending, c.resolved)
            && (c.trace.heard != [] ==> c.uid == cfg.UserId(i)) && c.queued == ChatIds(c.trace.packets)
  {
    hide Total, Booked, Ids, Repeats, Sequenced, Wired, Addressed, Faithful, Heeded, Paced, Config.UserId;
    assert ConnInv(cfg, i, w.conns[i]);
  }

  lemma {:induction false} OthersAreTheRest(conns: seq<Conn>)
    requires forall i :: 0 <= i < |conns| ==> |conns[i].trace.outcomes| == |conns[i].resolved|
    ensures Sum(conns, ConfirmedSends) + Sum(conns, OtherSends) == Sum(conns, Settled)
  {
    if conns != [] {
      OthersAreTheRest(conns[..|conns| - 1]);
    }
  }

  /** Chat packets queued, first or again. */
  function ChatPackets(c: Conn): int {
    Posts(c.trace.packets, Message)
  }

  /**
   * The counters of packets sent are the packets queued, and the counters of packets received those
   * handled, kind by kind and over every run.
   */
  lemma TrafficAccounting(cfg: Config, w: World)
    requires cfg.Valid() && Reachable(cfg, w)
    ensures w.m.sendAttempts + w.m.messageRetryAttempts == Sum(w.conns, ChatPackets)
    ensures w.m.heartbeatSent == Sum(w.conns, Heartbeats) && w.m.heartbeatAck == Sum(w.conns, Pongs)
    ensures w.m.receiverAckSent == Sum(w.conns, PrivateAcks) && w.m.groupAckSent == Sum(w.conns, GroupAcks)
    ensures w.m.receiverDelivery == Sum(w.conns, PrivateDeliveries) && w.m.groupDelivery == Sum(w.conns, GroupDeliveries)
    ensures w.m.serverErrors == Sum(w.conns, Faults)
    ensures forall i :: 0 <= i < |w.conns| && w.conns[i].trace.heard != [] ==> w.conns[i].uid == cfg.UserId(i)
  {
    hide Reachable, WorldInv, Total, Sum, Count, Config.UserId;
    ReachableInv(cfg, w);
    BooksOpen(cfg, w);
    TrafficIsSums(w.conns);
    forall i | 0 <= i < |w.conns|
      ensures w.conns[i].queued == ChatIds(w.conns[i].trace.packets)
      ensures w.conns[i].trace.heard != [] ==> w.conns[i].uid == cfg.UserId(i)
    {
      OutcomesFit(cfg, w, i);
    }
    FramesAreChats(w.conns);
  }

  lemma {:induction false} ChatIdsCount(packets: seq<(Body, nat)>)
    ensures |ChatIds(packets)| == Posts(packets, Message)
  {
    if packets != [] {
      ChatIdsCount(packets[..|packets| - 1]);
    }
  }

  lemma {:induction false} FramesAreChats(conns: seq<Conn>)
    requires forall i :: 0 <= i < |conns| ==> conns[i].queued == ChatIds(conns[i].trace.packets)
    ensures Sum(conns, Frames) == Sum(conns, ChatPackets)
  {
    if conns != [] {
      FramesAreChats(conns[..|conns| - 1]);
      ChatIdsCount(conns[|conns| - 1].trace.packets);
    }
  }

  // ---- logging in ----------------------------------------------------------------------------

  /**
   * The client is online, and that is counted as a first login or as one after a failover; its whole
   * stash is queued again.
   */
  ghost predicate WentOnline(at: int, c: Conn, m: Metrics, l': Local) {
    && l'.c.state == Online && l'.c.fd == c.fd && l'.c.nextHeartbeat == at
    && l'.m == m.(loginOk := m.loginOk + One(!c.everOnline), reauthOk := m.reauthOk + One(c.everOnline),
                  recoveredClients := m.recoveredClients + One(c.everOnline && !c.recoveredOnce),
                  messageRetryAttempts := m.messageRetryAttempts + |c.retryPending|)
  }

  /** The socket is closed, and the failure counted as that of a first login or of a later one. */
  ghost predicate TurnedAway(c: Conn, m: Metrics, l': Local) {
    && l'.c.state == Closed && l'.c.fd < 0
    && l'.m == m.(loginFail := m.loginFail + One(!c.everOnline),
                  loginResponseFail := m.loginResponseFail + One(!c.everOnline),
                  reauthFail := m.reauthFail + One(c.everOnline),
                  disconnectEvents := l'.m.disconnectEvents, disconnects := l'.m.disconnects,
                  affectedClients := l'.m.affectedClients, reconnectExhausted := l'.m.reconnectExhausted)
  }

  /**
   * A login answer decides: it brings the client online exactly if it reports success for this user,
   * and otherwise the socket is closed; either way it is counted under its outcome.
   */
  lemma LoginDecides(cfg: Config, w: World, i: nat, now: int, p: Packet)
    requires cfg.Valid() && Reachable(cfg, w) && i < |w.conns| && AwaitsLogin(w.conns[i]) && p.LoginResponse?
    ensures var l' := HandlePacket(cfg, CtxOf(w, now), LocalOf(w, i), p);
            if p.success && p.userId == cfg.UserId(i) then WentOnline(now + cfg.heartbeat, w.conns[i], w.m, l')
            else TurnedAway(w.conns[i], w.m, l')
  {
    hide Reachable, WorldInv, HandlePacket, Login, Config.UserId, WentOnline, TurnedAway;
    ReachableInv(cfg, w);
    AwaitingKnown(cfg, w, i);
    var x, l0 := CtxOf(w, now), LocalOf(w, i);
    var l := Hear(l0, p);
    PacketIs(cfg, x, l0, p);
    LoginAnswered(cfg, x, l, p.success, p.userId, p.walk);
    HearingIsNothing(now + cfg.heartbeat, l0, p, Login(cfg, x, l, p.success, p.userId, p.walk));
  }

  lemma HearingIsNothing(at: int, l: Local, p: Packet, l': Local)
    ensures WentOnline(at, Hear(l, p).c, Hear(l, p).m, l') == WentOnline(at, l.c, l.m, l')
    ensures TurnedAway(Hear(l, p).c, Hear(l, p).m, l') == TurnedAway(l.c, l.m, l')
  {
  }

  lemma LoginAnswered(cfg: Config, x: Ctx, l: Local, success: bool, userId: nat, walk: seq<string>)
    requires cfg.Valid() && AwaitsLogin(l.c) && l.c.fd >= 0 && l.c.everOnline == l.c.recoveryPending
    requires Resendable(cfg, l.c.retryPending) && (!l.c.everOnline ==> l.c.retryPending == map[])
    ensures var l' := Login(cfg, x, l, success, userId, walk);
            if success && userId == l.c.uid then WentOnline(x.now + cfg.heartbeat, l.c, l.m, l') else TurnedAway(l.c, l.m, l')
  {
    hide Login, Close, Replay, Items, WalkOrder, WentOnline, TurnedAway;
    if !(success && userId == l.c.uid) {
      LoginRefusedUnfolds(cfg, x, l, success, userId, walk);
      RefusalCloses(cfg, x, l);
    } else if l.c.everOnline {
      RecoveryLoginUnfolds(cfg, x, l, walk);
      var at, order := x.now + cfg.heartbeat, WalkOrder(l.c.retryPending.Keys, walk);
      var items := Items(l.c.retryPending, order);
      StashIsResendable(cfg, l.c.retryPending, order, items);
      ReplayTouches(cfg, Resumed(l, at), items);
      ResumedOnline(l, at, Replay(cfg, Resumed(l, at), items));
    } else {
      FirstLoginIs(cfg, x, l, walk);
    }
  }

  lemma RefusalCloses(cfg: Config, x: Ctx, l: Local)
    requires cfg.Valid() && l.c.fd >= 0 && l.c.everOnline == l.c.recoveryPending
    ensures TurnedAway(l.c, l.m, Close(cfg, x, LoginRefused(l), l.c.recoveryPending && l.c.everOnline))
  {
    hide Close;
    CloseTouches(cfg, x, LoginRefused(l), l.c.recoveryPending && l.c.everOnline);
  }

  lemma ResumedOnline(l: Local, at: int, l': Local)
    requires l.c.everOnline
    requires var l1 := Resumed(l, at);
             && l'.c.state == l1.c.state && l'.c.fd == l1.c.fd && l'.c.nextHeartbeat == l1.c.nextHeartbeat
             && l'.m == l1.m.(messageRetryAttempts := l1.m.messageRetryAttempts + |l.c.retryPending|)
    ensures WentOnline(at, l.c, l.m, l')
  {
  }

  lemma AwaitingKnown(cfg: Config, w: World, i: nat)
    requires WorldInv(cfg, w) && i < |w.conns| && AwaitsLogin(w.conns[i])
    ensures var c := w.conns[i];
            && c.fd >= 0 && c.uid == cfg.UserId(i) && c.everOnline == c.recoveryPending
            && Resendable(cfg, c.retryPending) && (!c.everOnline ==> c.retryPending == map[])
  {
    hide Total, Booked, Paced, Issued, Sequenced, Repeats, Traced, Numbered, Config.UserId;
    assert ConnInv(cfg, i, w.conns[i]);
  }

  lemma FirstLoginIs(cfg: Config, x: Ctx, l: Local, walk: seq<string>)
    requires cfg.Valid() && !l.c.loginResolved && !l.c.everOnline && l.c.retryPending == map[]
    ensures WentOnline(x.now + cfg.heartbeat, l.c, l.m, Login(cfg, x, l, true, l.c.uid, walk))
  {
    hide Close, RetryPending;
  }

  /** Closing a connection whose login is resolved touches the counters of disconnects and no others. */
  lemma CloseTouches(cfg: Config, x: Ctx, l: Local, count: bool)
    requires cfg.Valid() && l.c.fd >= 0 && l.c.loginResolved
    ensures var l' := Close(cfg, x, l, count);
            && l'.c.state == Closed && l'.c.fd < 0
            && l'.m == l.m.(disconnectEvents := l'.m.disconnectEvents, disconnects := l'.m.disconnects,
                            affectedClients := l'.m.affectedClients, reconnectExhausted := l'.m.reconnectExhausted)
  {
    hide CloseDown, ScheduleReconnect;
    CloseDownTouches(cfg, l, count);
    SchedulePlace(cfg, x, CloseDown(cfg, l, count));
    ScheduleTouches(cfg, x, CloseDown(cfg, l, count));
  }

  lemma CloseDownTouches(cfg: Config, l: Local, count: bool)
    requires l.c.loginResolved
    ensures var l' := CloseDown(cfg, l, count);
            && l'.c.state == Closed && l'.c.fd < 0
            && l'.m == l.m.(disconnectEvents := l'.m.disconnectEvents, disconnects := l'.m.disconnects,
                            affectedClients := l'.m.affectedClients)
  {
    hide Stashed, CountDisconnect;
    CountTouches(l.(c := Shut(l.c)));
    DisconnectCounts(l.(c := Shut(l.c)));
  }

  lemma ScheduleTouches(cfg: Config, x: Ctx, l: Local)
    requires cfg.Valid()
    ensures var m' := ScheduleReconnect(cfg, x, l).m; m' == l.m.(reconnectExhausted := m'.reconnectExhausted)
  {
    hide ReconnectAt;
  }

  /** The codec accepts every stashed message. */
  ghost predicate Resendable(cfg: Config, stash: map<string, Pending>) {
    forall id :: id in stash ==> cfg.encodes(ChatBody(stash[id].clientId, stash[id].to))
  }

  lemma StashIsResendable(cfg: Config, stash: map<string, Pending>, order: seq<string>, items: seq<Pending>)
    requires Resendable(cfg, stash) && Lists(order, stash.Keys) && items == Items(stash, order)
    ensures |items| == |stash|
    ensures forall k :: 0 <= k < |items| ==> cfg.encodes(ChatBody(items[k].clientId, items[k].to))
  {
    hide Items;
    ListingLength(order, stash.Keys);
    assert |stash.Keys| == |stash|;
    forall k | 0 <= k < |items|
      ensures cfg.encodes(ChatBody(items[k].clientId, items[k].to))
    {
      assert order[k] in order;
    }
  }

  /** A replay counts each message as a retry, and touches neither the socket nor the state. */
  lemma {:induction false} ReplayTouches(cfg: Config, l: Local, items: seq<Pending>)
    requires l.c.fd >= 0 && l.c.state == Online
    requires forall k :: 0 <= k < |items| ==> cfg.encodes(ChatBody(items[k].clientId, items[k].to))
    ensures var l' := Replay(cfg, l, items);
            && l'.c.state == l.c.state && l'.c.fd == l.c.fd && l'.c.nextHeartbeat == l.c.nextHeartbeat
            && l'.m == l.m.(messageRetryAttempts := l.m.messageRetryAttempts + |items|)
    decreases |items|
  {
    if items != [] {
      hide ReplayOne;
      ReplayOneTouches(cfg, l, items[0]);
      ReplayTouches(cfg, ReplayOne(cfg, l, items[0]), items[1..]);
    }
  }

  lemma ReplayOneTouches(cfg: Config, l: Local, item: Pending)
    requires l.c.fd >= 0 && l.c.state == Online && cfg.encodes(ChatBody(item.clientId, item.to))
    ensures var l' := ReplayOne(cfg, l, item);
            && l'.c.state == l.c.state && l'.c.fd == l.c.fd && l'.c.nextHeartbeat == l.c.nextHeartbeat
            && l'.m == l.m.(messageRetryAttempts := l.m.messageRetryAttempts + 1)
  {
    hide Queue, DrawnSeq, SeqAfter, Emplace;
    QueueIs(cfg, l.(c := Draw(l.c)), ChatBody(item.clientId, item.to), DrawnSeq(l.c.seq_));
    hide Push;
  }

  /**
   * Which packets count as protocol errors: a login answer nobody waits for, a chat answer to nothing
   * in flight or one that neither confirms its send nor turns it down, a delivery that cannot be
   * taken, one whose acknowledgement the codec refuses (twice), a heartbeat reply that is none, and a
   * packet of an unknown type. Nothing else does.
   */
  function ErrorsOf(cfg: Config, c: Conn, p: Packet): nat {
    match p
    case LoginResponse(_, _, _) => if c.loginResolved then 1 else 0
    case ChatAck(seq_, ack) =>
      if seq_ in c.pending && (Confirmed(OutcomeOf(c, seq_, ack)) || TurnsDown(ack)) then 0 else 1
    case Delivery(group, _, _, messageId, _) =>
      if !Takes(c.uid, p) then 1 else if cfg.encodes(DeliveryAckBody(group, messageId)) then 0 else 2
    case HeartbeatReply(pong) => if pong then 0 else 1
    case ServerError => 0
    case Unknown => 1
  }

  lemma PacketErrors(cfg: Config, w: World, i: nat, now: int, p: Packet)
    requires cfg.Valid() && Reachable(cfg, w) && i < |w.conns|
    requires w.conns[i].state == LoginPending || w.conns[i].state == Online
    ensures HandlePacket(cfg, CtxOf(w, now), LocalOf(w, i), p).m.protocolErrors ==
            w.m.protocolErrors + ErrorsOf(cfg, w.conns[i], p)
  {
    hide Reachable, WorldInv, HandlePacket, Login, HandleChatAck, HandleDelivery, Takes, Seen, Confirmed;
    ReachableInv(cfg, w);
    var x, l := CtxOf(w, now), LocalOf(w, i);
    SocketKnown(cfg, w, i);
    PacketIs(cfg, x, l, p);
    match p
    case LoginResponse(success, userId, walk) =>
      if l.c.loginResolved {
        LoginIgnored(cfg, x, Hear(l, p), success, userId, walk);
      } else {
        LoginDecides(cfg, w, i, now, p);
      }
    case ChatAck(seq_, ack) => AnswerCounts(Hear(l, p), seq_, ack);
    case Delivery(_, _, _, _, _) =>
      DeliveryIs(cfg, x, l, p);
      SeenCounts(l, p);
    case _ => SignalErrors(cfg, x, l, p);
  }

  lemma SocketKnown(cfg: Config, w: World, i: nat)
    requires WorldInv(cfg, w) && i < |w.conns| && (w.conns[i].state == LoginPending || w.conns[i].state == Online)
    ensures w.conns[i].fd >= 0 && (w.conns[i].state == Online ==> w.conns[i].loginResolved)
  {
    hide Total, Booked, Paced, Store, Config.UserId;
    assert ConnInv(cfg, i, w.conns[i]);
  }

  lemma SignalErrors(cfg: Config, x: Ctx, l: Local, p: Packet)
    requires cfg.Valid() && !p.LoginResponse? && !p.ChatAck? && !p.Delivery?
    ensures HandlePacket(cfg, x, l, p).m.protocolErrors == l.m.protocolErrors + ErrorsOf(cfg, l.c, p)
  {
  }

  // ---- failover ------------------------------------------------------------------------------

  /** The counters of affected and recovered clients, and the guarded subtraction of the report. */
  lemma RecoveryAccounting(cfg: Config, w: World)
    requires cfg.Valid() && Reachable(cfg, w)
    ensures w.m.affectedClients == w.m.disconnects == Count(w.conns, Affected)
    ensures w.m.recoveredClients == Count(w.conns, Recovered)
    ensures w.m.affectedClients - w.m.recoveredClients == Count(w.conns, Unrecovered)
  {
    hide Reachable, WorldInv, Total, Count;
    ReachableInv(cfg, w);
    BooksOpen(cfg, w);
    CountDifference(w.conns);
  }

  /** The books of a reachable state, read as sums over its connections. */
  lemma BooksOpen(cfg: Config, w: World)
    requires WorldInv(cfg, w)
    ensures |w.conns| == cfg.connections && Booked(w.m) == Total(w.conns)
    ensures forall i :: 0 <= i < |w.conns| ==> AtRest(w.conns[i]) && (w.conns[i].recoveredOnce ==> w.conns[i].countedDisconnect)
    ensures var m := w.m;
            && m.loginOk == Count(w.conns, EverOnline)
            && m.connected - m.loginOk - m.loginFail == Count(w.conns, FirstLoginOpen)
            && m.reauthAttempts - m.reauthOk - m.reauthFail == Count(w.conns, ReauthOpen)
            && m.affectedClients == m.disconnects == Count(w.conns, Affected)
            && m.recoveredClients == Count(w.conns, Recovered)
            && m.reconnectAttempts == Sum(w.conns, Attempts)
            && m.sendAttempts == m.chatAckOk + m.chatAckFail + Sum(w.conns, Unsettled) + Sum(w.conns, Dropped)
                                 - Sum(w.conns, Refusals)
            && m.connectFail + m.loginOk + m.loginFail == Count(w.conns, SetupEnded)
            && m.reauthAttempts == m.reconnectConnected
            && m.loginFail == m.loginResponseFail + m.loginUnresolvedFail
            && m.connectAttempts == Count(w.conns, Started)
            && m.connectAttempts - m.connectFail - m.connected == Sum(w.conns, FirstUnreported)
            && m.reconnectAttempts - m.reconnectConnectFail - m.reconnectConnected == Sum(w.conns, AgainUnreported)
            && m.receiverDelivery == m.receiverDeliveryUnique + m.receiverDeliveryDuplicates
            && m.receiverDeliveryUnique == Sum(w.conns, MessagesSeen)
            && m.chatAckOk + m.chatAckFail == Sum(w.conns, Settled)
            && m.reauthOk == Sum(w.conns, Recoveries)
            && m.messageRetryAttempts == Sum(w.conns, Replays)
            && m.sendAttempts + m.messageRetryAttempts == Sum(w.conns, Frames)
            && m.reconnectExhausted == Sum(w.conns, Exhaustions)
  {
    hide Total, Store, Sum, Count;
    TotalsAreSums(w.conns);
  }

  lemma {:induction false} CountDifference(conns: seq<Conn>)
    requires forall i :: 0 <= i < |conns| ==> conns[i].recoveredOnce ==> conns[i].countedDisconnect
    ensures Count(conns, Affected) - Count(conns, Recovered) == Count(conns, Unrecovered)
  {
    if conns != [] {
      CountDifference(conns[..|conns| - 1]);
    }
  }

  /**
   * No affected client is lost: while the test runs it is online, on its way back, due at a set
   * time with attempts left, or has used all its attempts.
   */
  lemma NoAffectedClientLost(cfg: Config, w: World, i: nat)
    requires cfg.Valid() && Reachable(cfg, w) && i < |w.conns|
    requires cfg.reconnect && w.testStarted && !w.draining && !w.shut
    requires w.conns[i].countedDisconnect
    ensures var c := w.conns[i];
            || c.state == Online
            || ((c.state == Connecting || c.state == LoginPending) && c.recoveryPending)
            || (c.state == Closed && c.recoveryPending && c.nextReconnect > 0 && c.attemptNo < cfg.maxAttempts)
            || (c.state == Closed && c.recoveryPending && c.attemptNo == cfg.maxAttempts && c.exhausted == 1)
  {
    ReachableInv(cfg, w);
    hide Reachable, Total, Store;
    assert ConnInv(cfg, i, w.conns[i]) && Tracked(cfg, CtxOf(w, 0), w.conns[i]);
  }

  /**
   * A client that runs out of attempts is counted once: until the drain the counter is the number of
   * clients closed for good, and it never exceeds that.
   */
  lemma ExhaustionAccounting(cfg: Config, w: World)
    requires cfg.Valid() && Reachable(cfg, w)
    ensures w.m.reconnectExhausted <= Count(w.conns, OutOfAttempts(cfg))
    ensures !w.draining ==> w.m.reconnectExhausted == Count(w.conns, OutOfAttempts(cfg))
  {
    hide Reachable, WorldInv, Total, Sum, Count, Booked;
    ReachableInv(cfg, w);
    BooksOpen(cfg, w);
    ExhaustedGaveUp(cfg, w);
    CountExhausted(cfg, w.conns, !w.draining);
  }

  lemma ExhaustedGaveUp(cfg: Config, w: World)
    requires WorldInv(cfg, w)
    ensures forall i :: 0 <= i < |w.conns| ==>
              && w.conns[i].exhausted <= One(GaveUp(cfg, w.conns[i]))
              && (!w.draining ==> w.conns[i].exhausted == One(GaveUp(cfg, w.conns[i])))
  {
    hide Total, Booked, Paced, Store;
    forall i | 0 <= i < |w.conns|
      ensures w.conns[i].exhausted <= One(GaveUp(cfg, w.conns[i]))
      ensures !w.draining ==> w.conns[i].exhausted == One(GaveUp(cfg, w.conns[i]))
    {
      assert ConnInv(cfg, i, w.conns[i]);
    }
  }

  lemma {:induction false} CountExhausted(cfg: Config, conns: seq<Conn>, exact: bool)
    requires forall i :: 0 <= i < |conns| ==>
               && conns[i].exhausted <= One(GaveUp(cfg, conns[i]))
               && (exact ==> conns[i].exhausted == One(GaveUp(cfg, conns[i])))
    ensures Sum(conns, Exhaustions) <= Count(conns, OutOfAttempts(cfg))
    ensures exact ==> Sum(conns, Exhaustions) == Count(conns, OutOfAttempts(cfg))
  {
    if conns != [] {
      CountExhausted(cfg, conns[..|conns| - 1], exact);
    }
  }

  /** Every reconnect attempt uses up one of a connection's attempts. */
  lemma AttemptsBounded(cfg: Config, w: World)
    requires cfg.Valid() && Reachable(cfg, w)
    ensures w.m.reconnectAttempts == Sum(w.conns, Attempts) <= cfg.connections * cfg.maxAttempts
  {
    hide Reachable, WorldInv, Sum, Total, Count;
    ReachableInv(cfg, w);
    BooksOpen(cfg, w);
    AttemptsLimited(cfg, w);
    SumBounded(w.conns, cfg.maxAttempts);
  }

  lemma AttemptsLimited(cfg: Config, w: World)
    requires WorldInv(cfg, w)
    ensures forall i :: 0 <= i < |w.conns| ==> w.conns[i].attemptNo <= cfg.maxAttempts
  {
    hide Total, Booked, Store;
  }

  lemma {:induction false} SumBounded(conns: seq<Conn>, most: nat)
    requires forall i :: 0 <= i < |conns| ==> conns[i].attemptNo <= most
    ensures Sum(conns, Attempts) <= |conns| * most
  {
    if conns != [] {
      SumBounded(conns[..|conns| - 1], most);
      OneMore(|conns| - 1, most);
    }
  }

  // ---- authentication and setup --------------------------------------------------------------

  /** Every login asked for is answered, failed, or still open; after the shutdown none is open. */
  lemma AuthenticationAccounting(cfg: Config, w: World)
    requires cfg.Valid() && Reachable(cfg, w)
    ensures w.m.reauthAttempts == w.m.reauthOk + w.m.reauthFail + Count(w.conns, ReauthOpen)
    ensures w.m.connected == w.m.loginOk + w.m.loginFail + Count(w.conns, FirstLoginOpen)
    ensures w.m.reauthAttempts == w.m.reconnectConnected
    ensures w.m.loginFail == w.m.loginResponseFail + w.m.loginUnresolvedFail
    ensures w.shut ==> Count(w.conns, ReauthOpen) == 0 == Count(w.conns, FirstLoginOpen)
  {
    hide Reachable, Total, Store, Sum, Count;
    ReachableInv(cfg, w);
    BooksOpen(cfg, w);
    if w.shut {
      NoneOpen(w.conns);
    }
  }

  /**
   * Every socket opened, first or again, reported that it connected or that it failed, is still
   * connecting, or was closed before it could report.
   */
  lemma ConnectAccounting(cfg: Config, w: World)
    requires cfg.Valid() && Reachable(cfg, w)
    ensures w.m.connectAttempts == w.created == w.m.connected + w.m.connectFail + Sum(w.conns, FirstUnreported)
    ensures w.m.reconnectAttempts == w.m.reconnectConnected + w.m.reconnectConnectFail + Sum(w.conns, AgainUnreported)
  {
    hide Reachable, Total, Sum, Count, ConnInv, Tracked, Booked;
    ReachableInv(cfg, w);
    BooksOpen(cfg, w);
    CountStarted(w.conns, w.created);
  }

  lemma {:induction false} CountStarted(conns: seq<Conn>, created: nat)
    requires created <= |conns| && forall i :: 0 <= i < |conns| ==> (conns[i].state == Unused <==> i >= created)
    ensures Count(conns, Started) == created
  {
    if conns != [] {
      var n := |conns| - 1;
      CountStarted(conns[..n], if created <= n then created else n);
    }
  }

  /** A private delivery is new or a repeat, and the new ones are the distinct messages seen. */
  lemma DeliveryAccounting(cfg: Config, w: World)
    requires cfg.Valid() && Reachable(cfg, w)
    ensures w.m.receiverDelivery == w.m.receiverDeliveryUnique + w.m.receiverDeliveryDuplicates
    ensures w.m.receiverDeliveryUnique == Sum(w.conns, MessagesSeen)
  {
    hide Reachable, WorldInv, Total, Sum, Count;
    ReachableInv(cfg, w);
    BooksOpen(cfg, w);
  }

  lemma {:induction false} NoneOpen(conns: seq<Conn>)
    requires forall i :: 0 <= i < |conns| ==> conns[i].state != LoginPending
    ensures Count(conns, ReauthOpen) == 0 == Count(conns, FirstLoginOpen)
  {
    if conns != [] {
      NoneOpen(conns[..|conns| - 1]);
    }
  }

  /** The reconnect flag recomputed from the recovery state is the one the socket was opened with. */
  lemma ReconnectFlagStable(cfg: Config, w: World, i: nat)
    requires cfg.Valid() && Reachable(cfg, w) && i < |w.conns|
    requires w.conns[i].state == Connecting || w.conns[i].state == LoginPending
    ensures (w.conns[i].recoveryPending && w.conns[i].everOnline) == w.conns[i].redial
  {
    ReachableInv(cfg, w);
    hide Reachable, Total, Store;
    assert ConnInv(cfg, i, w.conns[i]);
  }

  /**
   * The setup gate: a connection contributes at most one outcome, a login is counted once per
   * connection that ever logged in, and the test starts only when every one of them has.
   */
  lemma SetupGate(cfg: Config, w: World)
    requires cfg.Valid() && Reachable(cfg, w)
    ensures w.m.connectFail + w.m.loginOk + w.m.loginFail == Count(w.conns, SetupEnded) <= cfg.connections
    ensures w.m.loginOk == Count(w.conns, EverOnline)
    ensures w.testStarted ==> w.m.loginOk == cfg.connections && forall i :: 0 <= i < |w.conns| ==> w.conns[i].everOnline
  {
    hide Reachable, Total, ConnInv, Sum, Count;
    ReachableInv(cfg, w);
    BooksOpen(cfg, w);
    CountAll(w.conns, SetupEnded);
    CountAll(w.conns, EverOnline);
  }

  lemma {:induction false} CountAll(conns: seq<Conn>, p: Conn -> bool)
    ensures Count(conns, p) <= |conns|
    ensures (forall i :: 0 <= i < |conns| ==> p(conns[i])) <==> Count(conns, p) == |conns|
  {
    if conns != [] {
      CountAll(conns[..|conns| - 1], p);
    }
  }

  /**
   * The setup turn decides by the connections alone: the test starts exactly if all of them have
   * logged in, and the run is given up exactly if all have ended their setup otherwise or time is up.
   */
  lemma SetupDecides(cfg: Config, w: World, now: int)
    requires cfg.Valid() && Reachable(cfg, w) && Enabled(cfg, w, EvaluateSetup(now))
    ensures var w' := Step(cfg, w, EvaluateSetup(now));
            && (w'.testStarted <==> forall i :: 0 <= i < |w.conns| ==> w.conns[i].everOnline)
            && (w'.finished <==> !w'.testStarted &&
                                 (now >= w.setupDeadline || forall i :: 0 <= i < |w.conns| ==> SetUp(w.conns[i])))
            && (w'.finished <==> w'.setupFailed)
  {
    hide Reachable, Total, ConnInv, Sum, Count, Step;
    ReachableInv(cfg, w);
    BooksOpen(cfg, w);
    CountAll(w.conns, SetupEnded);
    CountAll(w.conns, EverOnline);
    StepEvaluates(cfg, w, now);
    NoneUnused(cfg, w);
  }

  lemma NoneUnused(cfg: Config, w: World)
    requires WorldInv(cfg, w)
    ensures (forall i :: 0 <= i < |w.conns| ==> SetUp(w.conns[i])) ==> w.created == cfg.connections
  {
    hide Total, Booked, Paced, Store;
    assert w.created < |w.conns| ==> ConnInv(cfg, w.created, w.conns[w.created]) && !SetUp(w.conns[w.created]);
  }

  /**
   * The phases take their time: the drain starts no sooner than the configured duration after the
   * start of the test, and a run that finishes after its start has lasted the duration and the drain.
   */
  lemma RunLasts(cfg: Config, w: World)
    requires cfg.Valid() && Reachable(cfg, w)
    ensures w.draining ==> w.testStarted && w.clock >= w.testStart + cfg.duration
    ensures w.finished && w.testStarted ==> w.draining && w.clock >= w.testStart + cfg.duration + cfg.drain
    ensures w.finished && !w.testStarted <==> w.setupFailed
  {
    hide Reachable, Total, ConnsInv, Paced;
    ReachableInv(cfg, w);
  }

  /** The ramp: the connections opened by any time are at most one more than the intervals passed. */
  lemma RampPacing(cfg: Config, w: World)
    requires cfg.Valid() && Reachable(cfg, w)
    ensures var start := w.setupDeadline - cfg.setupBudget;
            w.m.connectAttempts == w.created &&
            (w.created > 0 ==> w.clock >= start + (w.m.connectAttempts - 1) * cfg.connectInterval)
  {
    hide Reachable, Total, ConnInv, Count, Sum;
    ReachableInv(cfg, w);
    BooksOpen(cfg, w);
    StartedAreCreated(w.conns, w.created);
  }

  lemma {:induction false} StartedAreCreated(conns: seq<Conn>, created: nat)
    requires forall i :: 0 <= i < |conns| ==> (conns[i].state == Unused <==> i >= created)
    ensures Count(conns, Started) == Min(created, |conns|)
  {
    if conns != [] {
      StartedAreCreated(conns[..|conns| - 1], created);
    }
  }

  /** Packets carry numbers of their own, never zero, and no number twice until all were drawn once. */
  lemma NumbersRise(cfg: Config, w: World, i: nat)
    requires cfg.Valid() && Reachable(cfg, w) && i < |w.conns|
    ensures var c := w.conns[i];
            && (forall k :: 0 <= k < |c.trace.packets| && OwnNumber(c.trace.packets[k]) ==> c.trace.packets[k].1 != 0)
            && (c.draws <= SEQUENCES ==>
                  forall j, k ::
                    0 <= j < k < |c.trace.packets| && OwnNumber(c.trace.packets[j]) && OwnNumber(c.trace.packets[k]) ==>
                      c.trace.packets[j].1 < c.trace.packets[k].1)
  {
    ReachableInv(cfg, w);
    hide Reachable, Total, Booked, Ids, Repeats, Sequenced, Traced, Faithful;
    assert ConnInv(cfg, i, w.conns[i]);
  }

  // ---- clients that are down -----------------------------------------------------------------

  /** Whether this turn is the one that dials connection `i` again. */
  ghost predicate Dials(cfg: Config, w: World, t: Turn, i: nat) {
    t.ReconnectNext? && Choose(Reconnectable(cfg, t.now, w.conns), w.reconnectCursor) == Some(i)
  }

  /** A client without a socket changes by no turn but the one that dials it. */
  lemma DownUntilDialled(cfg: Config, w: World, t: Turn, i: nat)
    requires cfg.Valid() && WorldInv(cfg, w) && i < |w.conns|
    requires w.conns[i].fd < 0 && w.conns[i].state != Unused
    requires !(Enabled(cfg, w, t) && Dials(cfg, w, t, i))
    ensures i < |Step(cfg, w, t).conns| && Step(cfg, w, t).conns[i] == w.conns[i]
  {
    hide WorldInv, Heartbeat, HandleEvent, CloseFrom, Step;
    DownIsKnown(cfg, w, i);
    if Enabled(cfg, w, t) {
      match t
      case HeartbeatTo(now, k) =>
        StepBeats(cfg, w, now, k);
        NoBeatWhenDown(cfg, CtxOf(w, now), LocalOf(w, k));
      case Event(now, k, e) =>
        StepNotifies(cfg, w, now, k, e);
        NoEventWhenDown(cfg, CtxOf(w, now), LocalOf(w, k), e);
      case Shutdown(now) =>
        StepShuts(cfg, w, now);
        CloseFromKeepsDown(cfg, CtxOf(w, now), w, 0, i);
      case _ =>
        OthersUntouched(cfg, w, t, i);
    } else {
      StepIdles(cfg, w, t);
    }
  }

  lemma DownIsKnown(cfg: Config, w: World, i: nat)
    requires WorldInv(cfg, w) && i < |w.conns| && w.conns[i].fd < 0 && w.conns[i].state != Unused
    ensures i < w.created && w.conns[i].state != Online
  {
    hide Total, Booked, Paced, Store;
    assert ConnInv(cfg, i, w.conns[i]);
  }

  /** Opening, reconnecting and sending touch the chosen connection; the phase changes touch none. */
  lemma OthersUntouched(cfg: Config, w: World, t: Turn, i: nat)
    requires cfg.Valid() && Enabled(cfg, w, t) && i < |w.conns| && i != w.created
    requires !t.HeartbeatTo? && !t.Event? && !t.Shutdown?
    requires w.conns[i].state != Online && !Dials(cfg, w, t, i)
    ensures i < |Step(cfg, w, t).conns| && Step(cfg, w, t).conns[i] == w.conns[i]
  {
    hide OpenSocket, SendOne, CanReconnect, Choose;
  }

  lemma NoBeatWhenDown(cfg: Config, x: Ctx, l: Local)
    ensures l.c.state != Online ==> Heartbeat(cfg, x, l) == l
  {
    hide Queue;
  }

  lemma NoEventWhenDown(cfg: Config, x: Ctx, l: Local, e: Ready)
    requires cfg.Valid()
    ensures l.c.fd < 0 ==> HandleEvent(cfg, x, l, e) == l
  {
    hide OnConnected, OnWritable, OnReadable, OnHangup, HandleConnectFailure;
  }

  lemma {:induction false} CloseFromKeepsDown(cfg: Config, x: Ctx, w: World, k: nat, i: nat)
    requires cfg.Valid() && k <= |w.conns| && i < |w.conns| && w.conns[i].fd < 0
    ensures i < |CloseFrom(cfg, x, w, k).conns| && CloseFrom(cfg, x, w, k).conns[i] == w.conns[i]
    decreases |w.conns| - k
  {
    if k < |w.conns| {
      assert k == i ==> Close(cfg, x, LocalOf(w, k), false) == LocalOf(w, k);
      hide Close;
      CloseFromKeepsDown(cfg, x, Put(w, k, Close(cfg, x, LocalOf(w, k), false)), k + 1, i);
    }
  }

  /** A client due for a reconnect stays due until it is dialled. */
  lemma DueStaysDue(cfg: Config, w: World, t: Turn, i: nat)
    requires cfg.Valid() && WorldInv(cfg, w) && i < |w.conns| && CanReconnect(cfg, w.clock, w.conns[i])
    requires !(Enabled(cfg, w, t) && Dials(cfg, w, t, i))
    ensures i < |Step(cfg, w, t).conns| && CanReconnect(cfg, Step(cfg, w, t).clock, Step(cfg, w, t).conns[i])
  {
    assert ConnInv(cfg, i, w.conns[i]);
    hide Total, Booked, Store;
    DownUntilDialled(cfg, w, t, i);
  }

  /** No turn of the run dials connection `i`. */
  ghost predicate NeverDials(cfg: Config, w: World, run: seq<Turn>, i: nat)
    requires cfg.Valid()
  {
    run == [] ||
    (var before := Exec(cfg, w, run[..|run| - 1]);
     && NeverDials(cfg, w, run[..|run| - 1], i)
     && !(Enabled(cfg, before, run[|run| - 1]) && Dials(cfg, before, run[|run| - 1], i)))
  }

  /** A turn that dials someone else brings the cursor nearer to a client that is due. */
  lemma CursorApproaches(cfg: Config, w: World, t: Turn, i: nat)
    requires cfg.Valid() && WorldInv(cfg, w) && i < |w.conns|
    requires CanReconnect(cfg, w.clock, w.conns[i]) && !(Enabled(cfg, w, t) && Dials(cfg, w, t, i))
    ensures var w' := Step(cfg, w, t);
            && w'.reconnectCursor < cfg.connections
            && w'.m.reconnectAttempts + Distance(w'.reconnectCursor, i, cfg.connections)
               <= w.m.reconnectAttempts + Distance(w.reconnectCursor, i, cfg.connections)
  {
    hide Step, Enabled, WorldInv, Dials, Distance, Pick, Advance, CanReconnect;
    StepInv(cfg, w, t);
    CursorKnown(cfg, w, i);
    StepKeepsCount(cfg, w, t);
    CursorKnown(cfg, Step(cfg, w, t), i);
    if Enabled(cfg, w, t) {
      StepClock(cfg, w, t);
      DialApproaches(cfg, w, t, i);
    } else {
      StepIdles(cfg, w, t);
    }
  }

  lemma DialApproaches(cfg: Config, w: World, t: Turn, i: nat)
    requires cfg.Valid() && Enabled(cfg, w, t) && i < |w.conns| == cfg.connections && w.reconnectCursor < |w.conns|
    requires CanReconnect(cfg, w.clock, w.conns[i]) && !Dials(cfg, w, t, i)
    requires var w' := Step(cfg, w, t);
             w'.clock == t.now && w'.reconnectCursor < |w.conns| && Metered(cfg, w, t.ReconnectNext?, w')
    ensures var w' := Step(cfg, w, t);
            w'.m.reconnectAttempts + Distance(w'.reconnectCursor, i, cfg.connections)
            <= w.m.reconnectAttempts + Distance(w.reconnectCursor, i, cfg.connections)
  {
    hide Step, Distance, Pick, Advance;
    if Step(cfg, w, t).m.reconnectAttempts == w.m.reconnectAttempts + 1 {
      ChoosingAnotherApproaches(Reconnectable(cfg, t.now, w.conns), w.reconnectCursor, i);
    }
  }

  lemma StepClock(cfg: Config, w: World, t: Turn)
    requires cfg.Valid() && Enabled(cfg, w, t)
    ensures Step(cfg, w, t).clock == t.now
  {
    hide OpenSocket, SendOne, HandleEvent, Heartbeat, CloseFrom, Choose;
  }

  /**
   * No overtaking: as long as a client that is due is not dialled, every attempt spent on others
   * brings its own nearer, so fewer attempts than there are connections can pass it by.
   */
  lemma {:induction false} DueNotOvertaken(cfg: Config, w: World, run: seq<Turn>, i: nat)
    requires cfg.Valid() && Reachable(cfg, w) && i < |w.conns|
    requires CanReconnect(cfg, w.clock, w.conns[i]) && NeverDials(cfg, w, run, i)
    ensures var w' := Exec(cfg, w, run);
            && |w'.conns| == |w.conns| && CanReconnect(cfg, w'.clock, w'.conns[i])
            && w.reconnectCursor < |w.conns| && w'.reconnectCursor < |w.conns|
            && w'.m.reconnectAttempts + Distance(w'.reconnectCursor, i, |w.conns|)
               <= w.m.reconnectAttempts + Distance(w.reconnectCursor, i, |w.conns|)
    ensures Exec(cfg, w, run).m.reconnectAttempts - w.m.reconnectAttempts < |w.conns|
    decreases |run|
  {
    hide Reachable, WorldInv, Step, Dials, Enabled, CanReconnect, Distance;
    ReachableInv(cfg, w);
    CursorKnown(cfg, w, i);
    if run != [] {
      var before, t := Exec(cfg, w, run[..|run| - 1]), run[|run| - 1];
      StepKeepsCount(cfg, before, t);
      DueNotOvertaken(cfg, w, run[..|run| - 1], i);
      RunInvFrom(cfg, w, run[..|run| - 1]);
      DueStaysDue(cfg, before, t, i);
      CursorApproaches(cfg, before, t, i);
    }
  }

  lemma CursorKnown(cfg: Config, w: World, i: nat)
    requires WorldInv(cfg, w) && i < |w.conns|
    ensures w.reconnectCursor < |w.conns| == cfg.connections
    ensures Distance(w.reconnectCursor, i, |w.conns|) < |w.conns|
  {
    hide Total, Booked, Paced, ConnInv;
  }

  /** Whether this turn is the one that selects connection `i` for sending. */
  ghost predicate SelectsConn(cfg: Config, w: World, t: Turn, i: nat) {
    t.SendNext? && Choose(Sendable(cfg, w.conns), w.sendCursor) == Some(i)
  }

  /** Connection `i` could send in every state of the run, and was selected by none of its turns. */
  ghost predicate WaitsToSend(cfg: Config, w: World, run: seq<Turn>, i: nat)
    requires cfg.Valid()
  {
    var w' := Exec(cfg, w, run);
    && i < |w'.conns| && CanSend(cfg, w'.conns[i])
    && (run == [] ||
        (var before := Exec(cfg, w, run[..|run| - 1]);
         && WaitsToSend(cfg, w, run[..|run| - 1], i)
         && !(Enabled(cfg, before, run[|run| - 1]) && SelectsConn(cfg, before, run[|run| - 1], i))))
  }

  /** The send cursor moves with a selection, past the connection selected, and not otherwise. */
  lemma SelectionMoves(cfg: Config, w: World, t: Turn)
    requires cfg.Valid()
    ensures var w' := Step(cfg, w, t);
            var chosen := Choose(Sendable(cfg, w.conns), w.sendCursor);
            if Enabled(cfg, w, t) && t.SendNext? && chosen.Some?
            then w'.selections == w.selections + 1 && w'.sendCursor == Advance(chosen.value, |w.conns|)
            else w'.selections == w.selections && w'.sendCursor == w.sendCursor
  {
    hide OpenSocket, SendOne, HandleEvent, Heartbeat, CloseFrom, Choose, CanSend, CanReconnect;
    if t.Shutdown? && Enabled(cfg, w, t) { CloseFromFrame(cfg, CtxOf(w, t.now), w, 0); }
  }

  /** A send that is due finds somebody exactly if somebody can send; otherwise a skip is counted. */
  lemma NobodyCanSend(cfg: Config, w: World, now: int)
    requires cfg.Valid() && Reachable(cfg, w) && Enabled(cfg, w, SendNext(now))
    ensures var w' := Step(cfg, w, SendNext(now));
            var nobody := forall i :: 0 <= i < |w.conns| ==> !CanSend(cfg, w.conns[i]);
            && w'.m.backpressureSkips == w.m.backpressureSkips + One(nobody)
            && w'.selections == w.selections + One(!nobody)
            && (nobody ==> w'.conns == w.conns && w'.nextSend == now + cfg.sendInterval)
  {
    hide Reachable, WorldInv, Step, CanSend, SendOne, Choose;
    ReachableInv(cfg, w);
    StepSends(cfg, w, now);
    ChooseFinds(cfg, w);
    var chosen := Choose(Sendable(cfg, w.conns), w.sendCursor);
    if chosen.Some? { SendSkipsNothing(cfg, CtxOf(w, now), LocalOf(w, chosen.value)); }
  }

  lemma ChooseFinds(cfg: Config, w: World)
    requires WorldInv(cfg, w)
    ensures Choose(Sendable(cfg, w.conns), w.sendCursor).None? <==>
            forall i :: 0 <= i < |w.conns| ==> !CanSend(cfg, w.conns[i])
  {
    hide CanSend, Total, ConnInv, Pick;
    PickIsNearest(Sendable(cfg, w.conns), w.sendCursor);
  }

  lemma SendSkipsNothing(cfg: Config, x: Ctx, l: Local)
    ensures SendOne(cfg, x, l).m.backpressureSkips == l.m.backpressureSkips
  {
    hide SendOne, NewId, CanQueue, Landed;
    SendOutcome(cfg, x, l);
  }

  lemma SendCursorApproaches(cfg: Config, w: World, t: Turn, i: nat)
    requires cfg.Valid() && w.sendCursor < |w.conns| && i < |w.conns| && CanSend(cfg, w.conns[i])
    requires !(Enabled(cfg, w, t) && SelectsConn(cfg, w, t, i))
    ensures var w' := Step(cfg, w, t);
            && w'.sendCursor < |w.conns|
            && w'.selections + Distance(w'.sendCursor, i, |w.conns|) <= w.selections + Distance(w.sendCursor, i, |w.conns|)
  {
    hide Step, Enabled, Distance, Pick, Advance, CanSend;
    SelectionMoves(cfg, w, t);
    var ok := Sendable(cfg, w.conns);
    if Enabled(cfg, w, t) && t.SendNext? && Choose(ok, w.sendCursor).Some? {
      ChoosingAnotherApproaches(ok, w.sendCursor, i);
    }
  }

  /** A connection that could send all along is selected before as many others as there are. */
  lemma {:induction false} SendNotOvertaken(cfg: Config, w: World, run: seq<Turn>, i: nat)
    requires cfg.Valid() && w.sendCursor < |w.conns| && i < |w.conns| && WaitsToSend(cfg, w, run, i)
    ensures var w' := Exec(cfg, w, run);
            && |w'.conns| == |w.conns| && w'.sendCursor < |w.conns|
            && w'.selections + Distance(w'.sendCursor, i, |w.conns|) <= w.selections + Distance(w.sendCursor, i, |w.conns|)
    ensures Exec(cfg, w, run).selections - w.selections < |w.conns|
    decreases |run|
  {
    hide Step, SelectsConn, Enabled, CanSend, Distance;
    DistanceBelow(w.sendCursor, i, |w.conns|);
    if run != [] {
      var before, t := Exec(cfg, w, run[..|run| - 1]), run[|run| - 1];
      SendNotOvertaken(cfg, w, run[..|run| - 1], i);
      StepKeepsCount(cfg, before, t);
      SendCursorApproaches(cfg, before, t, i);
    }
  }

  lemma DistanceBelow(cursor: nat, i: nat, n: nat)
    requires cursor < n && i < n
    ensures Distance(cursor, i, n) < n
  {
  }

  /**
   * A client that logged in and lost its socket before the test started is never dialled again: it
   * stays down for the rest of every run, counted neither as affected nor as recovering.
   */
  lemma {:induction false} DroppedBeforeStartStaysDown(cfg: Config, w: World, run: seq<Turn>, i: nat)
    requires cfg.Valid() && Reachable(cfg, w) && i < |w.conns|
    requires w.conns[i].state == Closed && !w.conns[i].recoveryPending
    ensures i < |Exec(cfg, w, run).conns| && Exec(cfg, w, run).conns[i] == w.conns[i]
    decreases |run|
  {
    hide Reachable, WorldInv, Step, Choose, Enabled, Dials;
    ReachableInv(cfg, w);
    if run != [] {
      var before, t := Exec(cfg, w, run[..|run| - 1]), run[|run| - 1];
      StepKeepsCount(cfg, before, t);
      DroppedBeforeStartStaysDown(cfg, w, run[..|run| - 1], i);
      RunInvFrom(cfg, w, run[..|run| - 1]);
      NotRecoveringNotDialled(cfg, before, t, i);
      DownUntilDialled(cfg, before, t, i);
    }
  }

  lemma NotRecoveringNotDialled(cfg: Config, w: World, t: Turn, i: nat)
    requires WorldInv(cfg, w) && i < |w.conns| && w.conns[i].state == Closed && !w.conns[i].recoveryPending
    ensures !Dials(cfg, w, t, i) && w.conns[i].fd < 0
  {
    hide Choose, Total, Booked, Paced, Store;
    assert ConnInv(cfg, i, w.conns[i]);
  }

  // ---- pacing --------------------------------------------------------------------------------

  /** By any time, first sends number at most one more than the intervals since the test started. */
  lemma SendPacing(cfg: Config, w: World)
    requires cfg.Valid() && Reachable(cfg, w)
    ensures w.m.sendAttempts <= w.selections
    ensures w.selections > 0 ==> (w.selections - 1) * cfg.sendInterval <= w.clock - w.testStart
  {
    ReachableInv(cfg, w);
    hide Reachable, Total, Booked, ConnsInv;
  }

  lemma PhaseGoesOn(cfg: Config, w: World, t: Turn)
    requires cfg.Valid()
    ensures w.testStarted ==> Step(cfg, w, t).testStarted
    ensures Step(cfg, w, t).clock >= w.clock
  {
    hide OpenSocket, SendOne, HandleEvent, Heartbeat, CloseFrom, Choose;
    if t.Shutdown? && Enabled(cfg, w, t) { CloseFromFrame(cfg, CtxOf(w, t.now), w, 0); }
  }

  /** `attempts` reconnects since the token timer stood at `base` fit what the timer has dealt out. */
  predicate Dealt(base: int, interval: nat, attempts: int, timer: int, clock: int) {
    && attempts >= 0
    && timer >= base + attempts * interval
    && (attempts > 0 ==> (attempts - 1) * interval <= clock - base)
  }

  lemma DealtOneMore(base: int, interval: nat, attempts: int, timer: int, clock: int, clock': int)
    requires Dealt(base, interval, attempts, timer, clock) && clock' >= timer
    ensures Dealt(base, interval, attempts + 1, timer + interval, clock')
  {
    assert (attempts + 1) * interval == attempts * interval + interval;
  }

  lemma {:induction false} DealtThroughout(cfg: Config, w: World, run: seq<Turn>)
    requires cfg.Valid() && WorldInv(cfg, w) && w.testStarted
    ensures var w' := Exec(cfg, w, run);
            && w'.testStarted
            && Dealt(w.nextReconnectGlobal, cfg.reconnectInterval, w'.m.reconnectAttempts - w.m.reconnectAttempts,
                     w'.nextReconnectGlobal, w'.clock)
    decreases |run|
  {
    hide WorldInv, Step;
    if run == [] {
    } else {
      var before, t := Exec(cfg, w, run[..|run| - 1]), run[|run| - 1];
      StepKeepsCount(cfg, before, t);
      DealtThroughout(cfg, w, run[..|run| - 1]);
      RunInvFrom(cfg, w, run[..|run| - 1]);
      StepInv(cfg, before, t);
      PhaseGoesOn(cfg, before, t);
      var after := Step(cfg, before, t);
      if after.m.reconnectAttempts == before.m.reconnectAttempts + 1 {
        DealtOneMore(w.nextReconnectGlobal, cfg.reconnectInterval, before.m.reconnectAttempts - w.m.reconnectAttempts,
                     before.nextReconnectGlobal, before.clock, after.clock);
      }
    }
  }

  /** The end of a pass over the reconnects leaves the token timer within a second of the clock. */
  lemma PassRefillsOneSecond(cfg: Config, w: World, now: int)
    requires cfg.Valid() && Enabled(cfg, w, ReconnectPass(now))
    ensures w.testStarted && Step(cfg, w, ReconnectPass(now)).nextReconnectGlobal >= now - SECOND
  {
  }

  lemma StepOfReachable(cfg: Config, w: World, t: Turn)
    requires cfg.Valid() && Reachable(cfg, w)
    ensures Reachable(cfg, Step(cfg, w, t))
  {
    hide Step, Init;
    var start: nat, run: seq<Turn> :| w == Exec(cfg, Init(cfg, start), run);
    ExecOneMore(cfg, Init(cfg, start), run, t);
  }

  /**
   * The reconnect token bucket, one second deep: `k` attempts after a pass over the reconnects at
   * time `since` are not over before `since - 1s` plus `k - 1` intervals.
   */
  lemma ReconnectPacing(cfg: Config, w: World, since: int, run: seq<Turn>)
    requires cfg.Valid() && Reachable(cfg, w) && Enabled(cfg, w, ReconnectPass(since))
    ensures var w1 := Step(cfg, w, ReconnectPass(since));
            var w2 := Exec(cfg, w1, run);
            var attempts := w2.m.reconnectAttempts - w1.m.reconnectAttempts;
            attempts > 0 ==> (attempts - 1) * cfg.reconnectInterval <= w2.clock - since + SECOND
  {
    hide Reachable, WorldInv, Step, Enabled;
    PassRefillsOneSecond(cfg, w, since);
    PhaseGoesOn(cfg, w, ReconnectPass(since));
    StepOfReachable(cfg, w, ReconnectPass(since));
    ReachableInv(cfg, Step(cfg, w, ReconnectPass(since)));
    DealtThroughout(cfg, Step(cfg, w, ReconnectPass(since)), run);
  }
}
