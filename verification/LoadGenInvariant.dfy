/**
 * What every handler of the load generator keeps: an invariant of the connection it works on, and a
 * ledger that ties each global counter to the connections.
 */
module LoadGenInvariant {
  import opened Basics
  import opened ClientIds
  import opened OutputQueue
  import opened LoadGenModel
  import opened LoadGenTrace

  // ---- the connection invariant --------------------------------------------------------------

  /** `id` was made for one of the first `logical` sends of this user. */
  ghost predicate Issued(cfg: Config, uid: nat, logical: nat, id: string) {
    exists k: nat :: 1 <= k <= logical && id == ClientId(cfg.runId, uid, k)
  }

  /** Every client id is in flight once, stashed, or settled, and never two of these. */
  ghost predicate Ids(cfg: Config, uid: nat, logical: nat,
                      pending: map<nat, Pending>, retry: map<string, Pending>, resolved: seq<string>)
  {
    && (forall s :: s in pending ==>
          && Issued(cfg, uid, logical, pending[s].clientId)
          && cfg.encodes(ChatBody(pending[s].clientId, pending[s].to))
          && pending[s].clientId !in retry && pending[s].clientId !in resolved)
    && (forall s, t :: s in pending && t in pending && s != t ==> pending[s].clientId != pending[t].clientId)
    && (forall id :: id in retry ==>
          && retry[id].clientId == id && Issued(cfg, uid, logical, id)
          && cfg.encodes(ChatBody(id, retry[id].to)) && id !in resolved)
    && (forall k :: 0 <= k < |resolved| ==> Issued(cfg, uid, logical, resolved[k]))
    && (forall j, k :: 0 <= j < k < |resolved| ==> resolved[j] != resolved[k])
  }

  /**
   * Until all sequence numbers have been drawn once, every number in flight was drawn after the
   * first, which is a login's, and none is about to be drawn again. Nothing is dropped up to the
   * draw that repeats the first number.
   */
  ghost predicate Sequenced(draws: nat, seq_: nat, pending: map<nat, Pending>, lost: nat) {
    && seq_ < U32
    && (draws <= SEQUENCES ==> seq_ == (draws + 1) % U32 && forall s :: s in pending ==> 2 <= s <= draws)
    && (draws <= SEQUENCES + 1 ==> lost == 0)
  }

  predicate Opening(c: Conn) {
    c.state == Connecting || c.state == LoginPending
  }

  /** The most often a message of this connection can have been queued by now. */
  function Budget(c: Conn): nat {
    if Opening(c) then c.attemptNo else c.attemptNo + 1
  }

  /** No id was queued more often than that, and only ids of this user were. */
  ghost predicate Repeats(cfg: Config, uid: nat, logical: nat, queued: multiset<string>, most: nat) {
    forall id :: id in queued ==> queued[id] <= most && Issued(cfg, uid, logical, id)
  }

  /** How the flags of a connection go together. */
  ghost predicate Life(cfg: Config, i: nat, c: Conn) {
    && (c.fd < 0 <==> c.state == Unused || c.state == Closed)
    && (c.fd >= 0 || c.everOnline ==> c.uid == cfg.UserId(i) && c.peer == Peer(cfg, i))
    && (c.trace.heard != [] ==> c.uid == cfg.UserId(i))
    && (c.state == Connecting ==> c.trace.since == |c.trace.packets|)
    && (c.pending != map[] ==> c.state == Online)
    && (c.state == Online ==> c.everOnline && c.loginResolved && !c.recoveryPending && c.retryPending == map[])
    && (Opening(c) ==> c.everOnline == c.recoveryPending == c.redial)
    && (c.recoveryPending ==> c.everOnline && c.countedDisconnect && cfg.reconnect)
    && (c.recoveredOnce ==> c.countedDisconnect)
    && (c.countedDisconnect ==> c.everOnline)
    && (!c.everOnline ==> c.retryPending == map[] && c.queued == multiset{} && c.attemptNo == 0
                          && (c.state != Closed ==> c.aborts == 0))
    && (c.state == Unused ==> !c.everOnline)
    && (c.everOnline || c.state == LoginPending ==> c.draws > 0)
    && c.recoveries + One(Opening(c) && c.everOnline) <= c.attemptNo <= cfg.maxAttempts
    && (c.exhausted > 0 ==> c.exhausted == 1 && GaveUp(cfg, c))
  }

  /** Closed for good: to be recovered, with no attempt left. */
  predicate GaveUp(cfg: Config, c: Conn) {
    c.state == Closed && c.recoveryPending && c.attemptNo >= cfg.maxAttempts
  }

  /** Whom connection `i` writes to. */
  function Peer(cfg: Config, i: nat): nat {
    if cfg.connections > 0 then cfg.PeerUserId(i) else 0
  }

  /** The packets queued on the present socket. */
  function OnSocket(t: Trace): seq<(Body, nat)>
    requires t.since <= |t.packets|
  {
    t.packets[t.since..]
  }

  /** What was queued on the socket is what its packets make, and each message in flight is among them. */
  ghost predicate Wired(cfg: Config, t: Trace, log: Bytes, pending: map<nat, Pending>) {
    && t.since <= |t.packets|
    && log == Stream(cfg, OnSocket(t))
    && forall s :: s in pending ==> (ChatBody(pending[s].clientId, pending[s].to), s) in OnSocket(t)
  }

  /** Every message is addressed to the peer, and every outcome is that of the id settled with it. */
  ghost predicate Addressed(uid: nat, peer: nat, t: Trace, retry: map<string, Pending>, resolved: seq<string>) {
    && (forall k :: 0 <= k < |t.packets| && t.packets[k].0.ChatBody? ==> t.packets[k].0.to == peer)
    && (forall id :: id in retry ==> retry[id].to == peer)
    && |t.outcomes| == |resolved|
    && (forall k :: 0 <= k < |resolved| ==>
          t.outcomes[k].clientId == resolved[k] && t.outcomes[k].from == uid && t.outcomes[k].to == peer)
  }

  /**
   * The acknowledgements queued are those owed for the deliveries taken, in the same order, and the
   * messages seen are the private ones among them.
   */
  ghost predicate Heeded(cfg: Config, uid: nat, t: Trace, seen: set<nat>) {
    AcksIn(t.packets) == AcksDue(cfg, uid, t.heard) && seen == MessagesIn(uid, t.heard)
  }

  /** A packet that carries a number of its own; an acknowledgement carries that of the delivery. */
  predicate OwnNumber(p: (Body, nat)) {
    !p.0.DeliveryAckBody?
  }

  /** Own numbers are never zero and, until all have been drawn once, rise from packet to packet. */
  ghost predicate Numbered(draws: nat, packets: seq<(Body, nat)>) {
    && (forall k :: 0 <= k < |packets| && OwnNumber(packets[k]) ==>
          packets[k].1 != 0 && (draws <= SEQUENCES ==> packets[k].1 <= draws))
    && (draws <= SEQUENCES ==>
          forall j, k :: 0 <= j < k < |packets| && OwnNumber(packets[j]) && OwnNumber(packets[k]) ==>
            packets[j].1 < packets[k].1)
  }

  /** The number is the latest drawn. */
  ghost predicate LatestNumber(draws: nat, packets: seq<(Body, nat)>, seq_: nat) {
    && seq_ != 0
    && (draws <= SEQUENCES ==>
          seq_ <= draws && forall k :: 0 <= k < |packets| && OwnNumber(packets[k]) ==> packets[k].1 < seq_)
  }

  lemma DrawNumbers(draws: nat, seq_: nat, pending: map<nat, Pending>, lost: nat, packets: seq<(Body, nat)>)
    requires Sequenced(draws, seq_, pending, lost) && Numbered(draws, packets)
    ensures Numbered(draws + 1, packets) && LatestNumber(draws + 1, packets, DrawnSeq(seq_))
  {
  }

  lemma PostNumbers(draws: nat, t: Trace, body: Body, seq_: nat)
    requires Numbered(draws, t.packets) && (!body.DeliveryAckBody? ==> LatestNumber(draws, t.packets, seq_))
    ensures Numbered(draws, t.Posted(body, seq_).packets)
  {
  }

  lemma LatestAfterDraw(cfg: Config, i: nat, c: Conn)
    requires Store(cfg, i, c)
    ensures LatestNumber(Draw(c).draws, c.trace.packets, DrawnSeq(c.seq_))
  {
    hide Ids, Faithful, Repeats, Traced, DrawnSeq, SeqAfter, Sequenced, Numbered, LatestNumber;
    DrawNumbers(c.draws, c.seq_, c.pending, c.lost, c.trace.packets);
  }

  /** What holds of the history of a connection. */
  ghost predicate Traced(cfg: Config, i: nat, c: Conn) {
    && Wired(cfg, c.trace, c.out.log, c.pending)
    && Addressed(cfg.UserId(i), Peer(cfg, i), c.trace, c.retryPending, c.resolved)
    && Heeded(cfg, cfg.UserId(i), c.trace, c.seenDeliveries)
    && c.queued == ChatIds(c.trace.packets)
  }

  /** What holds of the messages and bytes a connection keeps. */
  ghost predicate Store(cfg: Config, i: nat, c: Conn) {
    && |c.pending| + |c.retryPending| <= cfg.maxOutstanding
    && Faithful(c.out)
    && Sequenced(c.draws, c.seq_, c.pending, c.lost)
    && Ids(cfg, cfg.UserId(i), c.logical, c.pending, c.retryPending, c.resolved)
    && Repeats(cfg, cfg.UserId(i), c.logical, c.queued, Budget(c))
    && c.replays <= c.recoveries * cfg.maxOutstanding
    && Traced(cfg, i, c)
    && Numbered(c.draws, c.trace.packets)
  }

  ghost predicate ConnInv(cfg: Config, i: nat, c: Conn) {
    Life(cfg, i, c) && Store(cfg, i, c)
  }

  predicate SameStore(c: Conn, c': Conn) {
    && c'.pending == c.pending && c'.retryPending == c.retryPending
    && c'.draws == c.draws && c'.seq_ == c.seq_ && c'.lost == c.lost
    && c'.logical == c.logical && c'.resolved == c.resolved
    && c'.queued == c.queued && c'.replays == c.replays && c'.recoveries == c.recoveries
    && c'.seenDeliveries == c.seenDeliveries
    && (Budget(c') >= Budget(c) || c.queued == multiset{})
  }

  lemma StoreUntouched(cfg: Config, i: nat, c: Conn, c': Conn)
    requires Store(cfg, i, c) && SameStore(c, c') && (Reuses(c, c') || Resets(c, c'))
    ensures Store(cfg, i, c')
  {
    hide Ids, Faithful, Sequenced, Traced, Issued, Numbered;
    EmptyIsFaithful();
    if Resets(c, c') { ResetTraced(cfg, i, c, c'); } else { TracedAlike(cfg, i, c, c'); }
  }

  lemma ResetTraced(cfg: Config, i: nat, c: Conn, c': Conn)
    requires Traced(cfg, i, c) && SameStore(c, c') && Resets(c, c')
    ensures Traced(cfg, i, c')
  {
    hide Addressed, Heeded;
    AddressedAlike(cfg.UserId(i), Peer(cfg, i), c.trace, c'.trace, c.retryPending, c.resolved);
    HeededAlike(cfg, cfg.UserId(i), c.trace, c'.trace, c.seenDeliveries);
    assert OnSocket(c'.trace) == [];
  }

  lemma TracedAlike(cfg: Config, i: nat, c: Conn, c': Conn)
    requires c'.trace == c.trace && c'.out.log == c.out.log && c'.pending == c.pending && c'.retryPending == c.retryPending
    requires c'.resolved == c.resolved && c'.seenDeliveries == c.seenDeliveries && c'.queued == c.queued
    ensures Traced(cfg, i, c) == Traced(cfg, i, c')
  {
    hide Wired, Addressed, Heeded;
  }

  lemma WiredAlike(cfg: Config, t: Trace, t': Trace, log: Bytes, pending: map<nat, Pending>)
    requires t'.packets == t.packets && t'.since == t.since
    ensures Wired(cfg, t, log, pending) == Wired(cfg, t', log, pending)
  {
  }

  lemma AddressedAlike(uid: nat, peer: nat, t: Trace, t': Trace, retry: map<string, Pending>, resolved: seq<string>)
    requires t'.packets == t.packets && t'.outcomes == t.outcomes
    ensures Addressed(uid, peer, t, retry, resolved) == Addressed(uid, peer, t', retry, resolved)
  {
  }

  lemma HeededAlike(cfg: Config, uid: nat, t: Trace, t': Trace, seen: set<nat>)
    requires t'.packets == t.packets && t'.heard == t.heard
    ensures Heeded(cfg, uid, t, seen) == Heeded(cfg, uid, t', seen)
  {
  }

  lemma EmptyIsFaithful()
    ensures Faithful(EMPTY)
  {
    assert Concat([]) == [];
  }

  /** The socket stays, and nothing is queued on it. */
  ghost predicate Reuses(c: Conn, c': Conn) {
    c'.trace == c.trace && (c'.out == c.out || (Faithful(c'.out) && c'.out.log == c.out.log))
  }

  /** The output queue is emptied with nothing in flight. */
  predicate Resets(c: Conn, c': Conn) {
    c'.trace == c.trace.Detached() && c'.out == EMPTY && c.pending == map[]
  }

  /** Between two handlers no connection waits for an answer it already has, or has not asked for. */
  ghost predicate AtRest(c: Conn) {
    && (c.state == LoginPending ==> !c.loginResolved)
    && (c.state == LoginPending || c.state == Online ==> Greeted(c))
  }

  /** The first packet on the socket asks to log in. */
  predicate Greeted(c: Conn) {
    c.trace.since < |c.trace.packets| && c.trace.packets[c.trace.since].0 == LoginBody(c.uid)
  }

  /**
   * While the test runs, a client counted as disconnected is online or is being recovered; and a
   * recovering client without a socket has a time set for its next attempt, or was found out of attempts.
   */
  ghost predicate Tracked(cfg: Config, x: Ctx, c: Conn) {
    && (!x.testStarted ==> !c.countedDisconnect)
    && (c.countedDisconnect && cfg.reconnect ==> c.state == Online || c.recoveryPending)
    && (!x.draining && c.state == Closed && c.recoveryPending ==>
          if c.attemptNo >= cfg.maxAttempts then c.exhausted == 1 else c.nextReconnect > 0)
  }

  // ---- the ledger ----------------------------------------------------------------------------

  /**
   * The accounts: each is a figure of the global counters on one side and, on the other, a sum over
   * the connections of what each of them stands for.
   */
  datatype Ledger = Ledger(
    loginsOk: int, firstLogins: int, reauths: int,
    affected: int, disconnects: int, recovered: int, reconnectTries: int,
    settled: int, sends: int,
    setupOutcomes: int, started: int, firstConnects: int, reconnects: int,
    reauthPerReconnect: int, loginFailures: int, deliveries: int, uniqueDeliveries: int,
    reauthOks: int, retries: int, frames: int, exhaustions: int, traffic: Traffic)

  const NOTHING: Ledger := Ledger(0, 0, 0, 0, 0, 0, 0, 0, 0, 0, 0, 0, 0, 0, 0, 0, 0, 0, 0, 0, 0, NO_TRAFFIC)

  function Plus(a: Ledger, b: Ledger): Ledger {
    Ledger(a.loginsOk + b.loginsOk, a.firstLogins + b.firstLogins, a.reauths + b.reauths,
           a.affected + b.affected, a.disconnects + b.disconnects, a.recovered + b.recovered,
           a.reconnectTries + b.reconnectTries, a.settled + b.settled, a.sends + b.sends,
           a.setupOutcomes + b.setupOutcomes, a.started + b.started, a.firstConnects + b.firstConnects,
           a.reconnects + b.reconnects, a.reauthPerReconnect + b.reauthPerReconnect,
           a.loginFailures + b.loginFailures, a.deliveries + b.deliveries,
           a.uniqueDeliveries + b.uniqueDeliveries, a.reauthOks + b.reauthOks, a.retries + b.retries,
           a.frames + b.frames, a.exhaustions + b.exhaustions, Join(a.traffic, b.traffic))
  }

  function Minus(a: Ledger, b: Ledger): Ledger {
    Ledger(a.loginsOk - b.loginsOk, a.firstLogins - b.firstLogins, a.reauths - b.reauths,
           a.affected - b.affected, a.disconnects - b.disconnects, a.recovered - b.recovered,
           a.reconnectTries - b.reconnectTries, a.settled - b.settled, a.sends - b.sends,
           a.setupOutcomes - b.setupOutcomes, a.started - b.started, a.firstConnects - b.firstConnects,
           a.reconnects - b.reconnects, a.reauthPerReconnect - b.reauthPerReconnect,
           a.loginFailures - b.loginFailures, a.deliveries - b.deliveries,
           a.uniqueDeliveries - b.uniqueDeliveries, a.reauthOks - b.reauthOks, a.retries - b.retries,
           a.frames - b.frames, a.exhaustions - b.exhaustions, Less(a.traffic, b.traffic))
  }

  /** The figures the counters show. */
  function Booked(m: Metrics): Ledger {
    Ledger(m.loginOk,
           m.connected - m.loginOk - m.loginFail,
           m.reauthAttempts - m.reauthOk - m.reauthFail,
           m.affectedClients,
           m.disconnects,
           m.recoveredClients,
           m.reconnectAttempts,
           m.chatAckOk + m.chatAckFail,
           m.sendAttempts,
           m.connectFail + m.loginOk + m.loginFail,
           m.connectAttempts,
           m.connectAttempts - m.connectFail - m.connected,
           m.reconnectAttempts - m.reconnectConnectFail - m.reconnectConnected,
           m.reauthAttempts - m.reconnectConnected,
           m.loginFail - m.loginResponseFail - m.loginUnresolvedFail,
           m.receiverDelivery - m.receiverDeliveryUnique - m.receiverDeliveryDuplicates,
           m.receiverDeliveryUnique,
           m.reauthOk,
           m.messageRetryAttempts,
           m.sendAttempts + m.messageRetryAttempts,
           m.reconnectExhausted,
           Traffic(m.chatAckOk, m.heartbeatSent, m.receiverAckSent, m.groupAckSent,
                   m.heartbeatAck, m.serverErrors, m.receiverDelivery, m.groupDelivery))
  }

  function One(b: bool): int {
    if b then 1 else 0
  }

  predicate AwaitsLogin(c: Conn) {
    c.state == LoginPending && !c.loginResolved
  }

  /** Sockets of this connection that neither connected nor reported a failed connect. */
  function Unreported(c: Conn): int {
    One(c.state == Connecting) + c.aborts
  }

  /** Whether setting up this connection ended, in success or failure. */
  predicate SetUp(c: Conn) {
    c.everOnline || (c.state == LoginPending && c.loginResolved) || (c.state == Closed && c.aborts == 0)
  }

  /** What one connection stands for in each account. */
  function Owed(c: Conn): Ledger {
    Ledger(One(c.everOnline),
           One(AwaitsLogin(c) && !c.everOnline),
           One(AwaitsLogin(c) && c.everOnline),
           One(c.countedDisconnect),
           One(c.countedDisconnect),
           One(c.recoveredOnce),
           c.attemptNo,
           |c.resolved|,
           |c.resolved| + |c.pending| + |c.retryPending| + c.lost - c.refused,
           One(SetUp(c)),
           One(c.state != Unused),
           if c.everOnline then 0 else Unreported(c),
           if c.everOnline then Unreported(c) else 0,
           0,
           0,
           0,
           |c.seenDeliveries|,
           c.recoveries,
           c.replays,
           |c.queued|,
           c.exhausted,
           Carried(c.uid, c.trace.packets, c.trace.outcomes, c.trace.heard))
  }

  function Drift(l: Local): Ledger {
    Minus(Booked(l.m), Owed(l.c))
  }

  /** The step moves the counters exactly as far as it moves what the connection stands for. */
  predicate Balanced(l: Local, l': Local) {
    Drift(l) == Drift(l')
  }

  /** No message was sent for the first time and no reconnect was attempted. */
  predicate Quiet(m: Metrics, m': Metrics) {
    m'.sendAttempts == m.sendAttempts && m'.reconnectAttempts == m.reconnectAttempts
  }

  // ---- identifiers and stashing --------------------------------------------------------------

  lemma {:induction false} PendingIdsSize(pending: map<nat, Pending>)
    requires forall s, t :: s in pending && t in pending && s != t ==> pending[s].clientId != pending[t].clientId
    ensures |PendingIds(pending)| == |pending|
    decreases |pending|
  {
    if pending == map[] {
      assert PendingIds(pending) == {};
    } else {
      var s :| s in pending;
      var rest := pending - {s};
      PendingIdsLess(pending, s);
      assert pending.Keys == rest.Keys + {s};
      hide PendingIds;
      PendingIdsSize(rest);
    }
  }

  lemma PendingIdsLess(pending: map<nat, Pending>, s: nat)
    requires s in pending
    requires forall s, t :: s in pending && t in pending && s != t ==> pending[s].clientId != pending[t].clientId
    ensures PendingIds(pending) == PendingIds(pending - {s}) + {pending[s].clientId}
    ensures pending[s].clientId !in PendingIds(pending - {s})
  {
    var rest := pending - {s};
    forall id | id in PendingIds(pending)
      ensures id in PendingIds(rest) + {pending[s].clientId}
    {
      var t :| t in pending && pending[t].clientId == id;
      assert t != s ==> t in rest && rest[t].clientId == id;
    }
    forall t | t in rest
      ensures rest[t].clientId in PendingIds(pending) && rest[t].clientId != pending[s].clientId
    {
      assert t in pending && pending[t] == rest[t];
    }
  }

  /** Stashing loses nothing: each message in flight is in the retry store, once, unchanged. */
  lemma StashedContents(pending: map<nat, Pending>, retry: map<string, Pending>)
    requires forall s, t :: s in pending && t in pending && s != t ==> pending[s].clientId != pending[t].clientId
    ensures var stashed := Stashed(pending, retry);
            && stashed.Keys == retry.Keys + PendingIds(pending)
            && (forall s :: s in pending ==> pending[s].clientId in stashed && stashed[pending[s].clientId] == pending[s])
            && (forall id :: id in stashed && id !in PendingIds(pending) ==> id in retry && stashed[id] == retry[id])
  {
    forall s | s in pending
      ensures pending[s].clientId in PendingIds(pending)
    {
    }
  }

  lemma StashedItem(cfg: Config, uid: nat, logical: nat,
                    pending: map<nat, Pending>, retry: map<string, Pending>, resolved: seq<string>, id: string)
    requires Ids(cfg, uid, logical, pending, retry, resolved) && id in Stashed(pending, retry)
    ensures var item := Stashed(pending, retry)[id];
            && item.clientId == id && Issued(cfg, uid, logical, id)
            && cfg.encodes(ChatBody(id, item.to)) && id !in resolved
  {
    hide Stashed, Issued;
    StashedContents(pending, retry);
    if id in PendingIds(pending) {
      var s :| s in pending && pending[s].clientId == id;
    }
  }

  lemma StashedCount(cfg: Config, uid: nat, logical: nat,
                    pending: map<nat, Pending>, retry: map<string, Pending>, resolved: seq<string>)
    requires Ids(cfg, uid, logical, pending, retry, resolved)
    ensures |Stashed(pending, retry)| == |pending| + |retry|
  {
    hide Stashed, Issued;
    StashedContents(pending, retry);
    PendingIdsSize(pending);
    StashSize(retry.Keys, PendingIds(pending), Stashed(pending, retry));
  }

  lemma StashKeepsAll(cfg: Config, uid: nat, logical: nat,
                      pending: map<nat, Pending>, retry: map<string, Pending>, resolved: seq<string>)
    requires Ids(cfg, uid, logical, pending, retry, resolved)
    ensures Ids(cfg, uid, logical, map[], Stashed(pending, retry), resolved)
    ensures |Stashed(pending, retry)| == |pending| + |retry|
  {
    hide Stashed, Issued;
    forall id | id in Stashed(pending, retry)
      ensures Stashed(pending, retry)[id].clientId == id && Issued(cfg, uid, logical, id)
      ensures cfg.encodes(ChatBody(id, Stashed(pending, retry)[id].to)) && id !in resolved
    {
      StashedItem(cfg, uid, logical, pending, retry, resolved, id);
    }
    StashedCount(cfg, uid, logical, pending, retry, resolved);
  }

  lemma StashSize(kept: set<string>, ids: set<string>, stashed: map<string, Pending>)
    requires kept !! ids && stashed.Keys == kept + ids
    ensures |stashed| == |kept| + |ids|
  {
    assert |stashed| == |stashed.Keys|;
  }

  lemma IssuedLater(cfg: Config, uid: nat, logical: nat, id: string)
    requires Issued(cfg, uid, logical, id)
    ensures Issued(cfg, uid, logical + 1, id)
  {
  }

  lemma NewIdIsNew(cfg: Config, uid: nat, logical: nat)
    ensures !Issued(cfg, uid, logical, ClientId(cfg.runId, uid, logical + 1))
    ensures Issued(cfg, uid, logical + 1, ClientId(cfg.runId, uid, logical + 1))
  {
    forall k: nat | 1 <= k <= logical
      ensures ClientId(cfg.runId, uid, k) != ClientId(cfg.runId, uid, logical + 1)
    {
      if ClientId(cfg.runId, uid, k) == ClientId(cfg.runId, uid, logical + 1) {
        ClientIdInjective(cfg.runId, uid, k, uid, logical + 1);
      }
    }
  }

  // ---- handlers: closing and connecting ------------------------------------------------------

  /** Rescheduling sets the time of the next attempt, or finds and counts that none is left. */
  lemma ScheduleShape(cfg: Config, x: Ctx, l: Local)
    requires cfg.Valid() && x.now >= 0
    requires l.c.everOnline && cfg.reconnect ==> l.c.recoveryPending
    ensures var l' := ScheduleReconnect(cfg, x, l);
            && l'.c == l.c.(nextReconnect := l'.c.nextReconnect, exhausted := l'.c.exhausted)
            && l'.m == l.m.(reconnectExhausted := l'.m.reconnectExhausted)
            && l'.m.reconnectExhausted - l.m.reconnectExhausted == l'.c.exhausted - l.c.exhausted
            && (l'.c.exhausted == l.c.exhausted
                || (l'.c.exhausted == l.c.exhausted + 1 && l.c.recoveryPending && l.c.attemptNo >= cfg.maxAttempts))
            && (!x.draining && l.c.everOnline && cfg.reconnect ==>
                  if l.c.attemptNo >= cfg.maxAttempts then l'.c.exhausted == l.c.exhausted + 1
                  else l'.c.nextReconnect > x.now)
  {
  }

  lemma TimerBalanced(l: Local, at: int, more: nat)
    ensures Balanced(l, Local(l.c.(nextReconnect := at, exhausted := l.c.exhausted + more),
                              l.m.(reconnectExhausted := l.m.reconnectExhausted + more)))
  {
    hide Carried;
  }

  lemma TimerKeeps(cfg: Config, i: nat, c: Conn, at: int, more: nat)
    requires Life(cfg, i, c) && c.exhausted == 0 && (more == 0 || (more == 1 && GaveUp(cfg, c)))
    ensures Life(cfg, i, c.(nextReconnect := at, exhausted := c.exhausted + more))
  {
  }

  lemma ScheduleKeeps(cfg: Config, x: Ctx, i: nat, l: Local)
    requires cfg.Valid() && ConnInv(cfg, i, l.c) && x.now >= 0 && l.c.state == Closed && l.c.exhausted == 0
    requires l.c.everOnline && cfg.reconnect ==> l.c.recoveryPending
    ensures var l' := ScheduleReconnect(cfg, x, l);
            && ConnInv(cfg, i, l'.c) && Balanced(l, l') && Quiet(l.m, l'.m)
            && l'.c == l.c.(nextReconnect := l'.c.nextReconnect, exhausted := l'.c.exhausted)
            && (!x.draining && l.c.everOnline && cfg.reconnect ==>
                  if l.c.attemptNo >= cfg.maxAttempts then l'.c.exhausted == 1 else l'.c.nextReconnect > 0)
  {
    hide Store, Drift, ScheduleReconnect;
    var l' := ScheduleReconnect(cfg, x, l);
    ScheduleShape(cfg, x, l);
    TimerKeeps(cfg, i, l.c, l'.c.nextReconnect, l'.c.exhausted);
    TimerBalanced(l, l'.c.nextReconnect, l'.c.exhausted);
    StoreUntouched(cfg, i, l.c, l'.c);
    assert l' == Local(l.c.(nextReconnect := l'.c.nextReconnect, exhausted := l.c.exhausted + l'.c.exhausted),
                       l.m.(reconnectExhausted := l.m.reconnectExhausted + l'.c.exhausted));
  }

  lemma FailTouches(l: Local)
    ensures var l' := FailOpenLogin(l); l'.c == l.c.(loginResolved := l'.c.loginResolved) && Quiet(l.m, l'.m)
  {
  }

  lemma CountTouches(l: Local)
    ensures var l' := CountDisconnect(l);
            l'.c == l.c.(countedDisconnect := l.c.countedDisconnect || l.c.everOnline) && Quiet(l.m, l'.m)
  {
  }

  /** The connection as closing leaves it: everything in flight is kept for a later attempt. */
  ghost function ClosedDown(cfg: Config, c: Conn, count: bool, resolved: bool): Conn {
    c.(fd := -1, out := EMPTY, trace := c.trace.Detached(),
       aborts := if c.state == Connecting then c.aborts + 1 else c.aborts,
       loginResolved := resolved, countedDisconnect := c.countedDisconnect || (count && c.everOnline),
       retryPending := if c.everOnline then Stashed(c.pending, c.retryPending) else c.retryPending,
       pending := if c.everOnline then map[] else c.pending, state := Closed,
       recoveryPending := c.recoveryPending || (count && c.everOnline && cfg.reconnect))
  }

  lemma CloseDownIs(cfg: Config, l: Local, count: bool)
    ensures var l' := CloseDown(cfg, l, count);
            l'.c == ClosedDown(cfg, l.c, count, l'.c.loginResolved) && Quiet(l.m, l'.m)
  {
    hide Stashed, FailOpenLogin, CountDisconnect;
    var l1 := l.(c := Shut(l.c));
    FailTouches(l1);
    CountTouches(FailOpenLogin(l1));
  }

  /** Closing an open connection keeps everything in flight for a later attempt. */
  lemma CloseDownShape(cfg: Config, i: nat, l: Local, count: bool)
    requires Life(cfg, i, l.c) && l.c.fd >= 0
    ensures var c := CloseDown(cfg, l, count).c;
            && c.out == EMPTY && c.trace == l.c.trace.Detached() && c.seenDeliveries == l.c.seenDeliveries
            && c.pending == map[]
            && c.retryPending == (if l.c.everOnline then Stashed(l.c.pending, l.c.retryPending) else map[])
            && c.logical == l.c.logical && c.resolved == l.c.resolved
            && c.draws == l.c.draws && c.seq_ == l.c.seq_ && c.lost == l.c.lost && c.exhausted == l.c.exhausted
            && c.queued == l.c.queued && c.replays == l.c.replays && c.recoveries == l.c.recoveries
            && c.fd == -1 && c.state == Closed && c.everOnline == l.c.everOnline && c.attemptNo == l.c.attemptNo
            && c.countedDisconnect == (l.c.countedDisconnect || (count && l.c.everOnline))
            && c.recoveryPending == (l.c.recoveryPending || (count && l.c.everOnline && cfg.reconnect))
            && Quiet(l.m, CloseDown(cfg, l, count).m)
  {
    hide Stashed, CloseDown;
    CloseDownIs(cfg, l, count);
  }

  lemma CloseDownLife(cfg: Config, i: nat, l: Local, count: bool)
    requires Life(cfg, i, l.c) && l.c.fd >= 0
    ensures Life(cfg, i, CloseDown(cfg, l, count).c)
  {
    hide Stashed, CloseDown, Config.UserId;
    CloseDownIs(cfg, l, count);
  }

  lemma StashStore(cfg: Config, i: nat, c: Conn)
    requires Store(cfg, i, c)
    ensures Store(cfg, i, StashPending(c).(out := EMPTY, trace := c.trace.Detached()))
    ensures |Stashed(c.pending, c.retryPending)| == |c.pending| + |c.retryPending|
  {
    hide Ids, Stashed, Faithful, Addressed, Wired, Heeded, Numbered;
    StashKeepsAll(cfg, cfg.UserId(i), c.logical, c.pending, c.retryPending, c.resolved);
    StashTraced(cfg, i, c);
    EmptyIsFaithful();
  }

  lemma StashTraced(cfg: Config, i: nat, c: Conn)
    requires Traced(cfg, i, c) && Ids(cfg, cfg.UserId(i), c.logical, c.pending, c.retryPending, c.resolved)
    ensures Traced(cfg, i, StashPending(c).(out := EMPTY, trace := c.trace.Detached()))
  {
    hide Stashed, Issued, Heeded, Addressed;
    StashToPeer(cfg, i, c);
    HeededAlike(cfg, cfg.UserId(i), c.trace, c.trace.Detached(), c.seenDeliveries);
    StashAddressed(cfg.UserId(i), Peer(cfg, i), c.trace, c.retryPending, Stashed(c.pending, c.retryPending), c.resolved);
    assert OnSocket(c.trace.Detached()) == [];
  }

  lemma StashAddressed(uid: nat, peer: nat, t: Trace, retry: map<string, Pending>, stash: map<string, Pending>,
                       resolved: seq<string>)
    requires Addressed(uid, peer, t, retry, resolved) && forall id :: id in stash ==> stash[id].to == peer
    ensures Addressed(uid, peer, t.Detached(), stash, resolved)
  {
  }

  lemma StashToPeer(cfg: Config, i: nat, c: Conn)
    requires Traced(cfg, i, c) && Ids(cfg, cfg.UserId(i), c.logical, c.pending, c.retryPending, c.resolved)
    ensures forall id :: id in Stashed(c.pending, c.retryPending) ==> Stashed(c.pending, c.retryPending)[id].to == Peer(cfg, i)
  {
    hide Stashed, Issued, Heeded, Wired, Traced, PendingIds;
    assert forall id :: id in c.retryPending ==> c.retryPending[id].to == Peer(cfg, i) by { RetryToPeer(cfg, i, c); }
    StashedContents(c.pending, c.retryPending);
    forall id | id in Stashed(c.pending, c.retryPending)
      ensures Stashed(c.pending, c.retryPending)[id].to == Peer(cfg, i)
    {
      if id in PendingIds(c.pending) {
        var s := FirstWith(c.pending, id);
        InFlightToPeer(cfg, i, c, s);
      }
    }
  }

  lemma RetryToPeer(cfg: Config, i: nat, c: Conn)
    requires Traced(cfg, i, c)
    ensures forall id :: id in c.retryPending ==> c.retryPending[id].to == Peer(cfg, i)
  {
  }

  lemma InFlightToPeer(cfg: Config, i: nat, c: Conn, s: nat)
    requires Traced(cfg, i, c) && s in c.pending
    ensures c.pending[s].to == Peer(cfg, i)
  {
    var k :| 0 <= k < |OnSocket(c.trace)| && OnSocket(c.trace)[k] == (ChatBody(c.pending[s].clientId, c.pending[s].to), s);
    assert c.trace.packets[c.trace.since + k] == OnSocket(c.trace)[k];
  }

  lemma CloseDownStore(cfg: Config, i: nat, l: Local, count: bool)
    requires ConnInv(cfg, i, l.c) && l.c.fd >= 0
    ensures Store(cfg, i, CloseDown(cfg, l, count).c)
  {
    hide Store, CloseDown;
    CloseDownShape(cfg, i, l, count);
    if l.c.everOnline {
      StashStore(cfg, i, l.c);
      StoreUntouched(cfg, i, StashPending(l.c).(out := EMPTY, trace := l.c.trace.Detached()), CloseDown(cfg, l, count).c);
    } else {
      StoreUntouched(cfg, i, l.c, CloseDown(cfg, l, count).c);
    }
  }

  lemma ShutBalanced(cfg: Config, i: nat, l: Local)
    requires Life(cfg, i, l.c) && l.c.fd >= 0
    ensures var l1 := FailOpenLogin(l.(c := Shut(l.c)));
            Balanced(l, l1.(c := l1.c.(state := Closed)))
  {
  }

  lemma CloseDownBalanced(cfg: Config, i: nat, l: Local, count: bool)
    requires Life(cfg, i, l.c) && l.c.fd >= 0
    requires |Stashed(l.c.pending, l.c.retryPending)| == |l.c.pending| + |l.c.retryPending|
    ensures Balanced(l, CloseDown(cfg, l, count))
  {
    hide Drift, Stashed, CountDisconnect;
    var l1 := FailOpenLogin(l.(c := Shut(l.c)));
    ShutBalanced(cfg, i, l);
    CountBalanced(cfg, l1, count);
  }

  lemma CountBalanced(cfg: Config, l1: Local, count: bool)
    requires |Stashed(l1.c.pending, l1.c.retryPending)| == |l1.c.pending| + |l1.c.retryPending|
    ensures var l2 := if count then CountDisconnect(l1) else l1;
            var c3 := if l2.c.everOnline then StashPending(l2.c) else l2.c;
            Balanced(l1.(c := l1.c.(state := Closed)),
                     Local(c3.(state := Closed,
                               recoveryPending := c3.recoveryPending || (count && c3.everOnline && cfg.reconnect)), l2.m))
  {
    hide Drift, Stashed;
    var l2 := if count then CountDisconnect(l1) else l1;
    DisconnectBalanced(l1);
    StashBalanced(l2, l2.c.recoveryPending || (count && l2.c.everOnline && cfg.reconnect));
    assert l1.c.(state := Closed).(recoveryPending := l1.c.recoveryPending) == l1.c.(state := Closed);
  }

  lemma DisconnectBalanced(l: Local)
    ensures var l' := CountDisconnect(l);
            && Balanced(l.(c := l.c.(state := Closed)), l'.(c := l'.c.(state := Closed)))
            && l'.c == l.c.(countedDisconnect := l'.c.countedDisconnect)
  {
    hide CountDisconnect;
    CountTouches(l);
    DisconnectCounts(l);
  }

  lemma DisconnectCounts(l: Local)
    ensures var m, m' := l.m, CountDisconnect(l).m;
            var new_ := One(l.c.everOnline && !l.c.countedDisconnect);
            m' == m.(disconnectEvents := m.disconnectEvents + 1, disconnects := m.disconnects + new_,
                     affectedClients := m.affectedClients + new_)
  {
  }

  lemma StashBalanced(l: Local, recovery: bool)
    requires |Stashed(l.c.pending, l.c.retryPending)| == |l.c.pending| + |l.c.retryPending|
    ensures Balanced(l.(c := l.c.(state := Closed)),
                     l.(c := (if l.c.everOnline then StashPending(l.c) else l.c).(state := Closed, recoveryPending := recovery)))
  {
    hide Stashed;
  }

  lemma CloseKeeps(cfg: Config, x: Ctx, i: nat, l: Local, count: bool)
    requires cfg.Valid() && ConnInv(cfg, i, l.c) && x.now >= 0
    ensures var l' := Close(cfg, x, l, count);
            && ConnInv(cfg, i, l'.c) && Balanced(l, l')
            && Onward(l.c, l'.c) && Quiet(l.m, l'.m)
            && (l.c.fd >= 0 ==> l'.c.state == Closed)
            && (!count ==> l'.c.countedDisconnect == l.c.countedDisconnect)
            && (l.c.fd >= 0 && (if count then x.testStarted else !l.c.countedDisconnect) ==> Tracked(cfg, x, l'.c))
  {
    if l.c.fd >= 0 {
      hide Store, Drift, CloseDown, ScheduleReconnect, Close, Life;
      var l1 := CloseDown(cfg, l, count);
      StashStore(cfg, i, l.c);
      CloseDownLife(cfg, i, l, count);
      CloseDownStore(cfg, i, l, count);
      CloseDownShape(cfg, i, l, count);
      CloseDownBalanced(cfg, i, l, count);
      CloseSchedules(cfg, x, i, l, count);
      if l1.c.recoveryPending || !cfg.reconnect {
        ScheduleKeeps(cfg, x, i, l1);
      }
    }
  }

  /** Whoever is to be recovered is rescheduled when the socket closes, and nobody else. */
  lemma CloseSchedules(cfg: Config, x: Ctx, i: nat, l: Local, count: bool)
    requires cfg.Valid() && Life(cfg, i, l.c) && l.c.fd >= 0
    ensures var l1 := CloseDown(cfg, l, count);
            && Close(cfg, x, l, count) == (if l1.c.recoveryPending then ScheduleReconnect(cfg, x, l1) else l1)
            && (l1.c.recoveryPending <==> l.c.recoveryPending || (count && l.c.everOnline && cfg.reconnect))
            && l1.c.exhausted == 0 && (l1.c.recoveryPending ==> l1.c.everOnline && l1.c.countedDisconnect && cfg.reconnect)
            && (l1.c.countedDisconnect && !l.c.countedDisconnect ==> count && l.c.everOnline)
            && (l.c.countedDisconnect && cfg.reconnect ==> l.c.state == Online || l.c.recoveryPending || count)
  {
    hide CloseDown, ScheduleReconnect;
    CloseDownShape(cfg, i, l, count);
  }

  // ---- handlers: drawing, queueing, connecting -----------------------------------------------

  /** Until all numbers have been drawn once, the one drawn is not in flight. */
  lemma DrawFresh(draws: nat, seq_: nat, pending: map<nat, Pending>, lost: nat)
    requires Sequenced(draws, seq_, pending, lost)
    ensures draws < SEQUENCES ==> DrawnSeq(seq_) == draws + 1 && DrawnSeq(seq_) !in pending
    ensures Sequenced(draws + 1, SeqAfter(seq_), pending, lost)
  {
  }

  lemma DrawKeeps(cfg: Config, i: nat, l: Local)
    requires ConnInv(cfg, i, l.c)
    ensures ConnInv(cfg, i, Draw(l.c)) && Balanced(l, l.(c := Draw(l.c)))
  {
    hide Drift, Ids, Faithful, Traced, Numbered, LatestNumber;
    TracedAlike(cfg, i, l.c, Draw(l.c));
    DrawNumbers(l.c.draws, l.c.seq_, l.c.pending, l.c.lost, l.c.trace.packets);
    DrawFresh(l.c.draws, l.c.seq_, l.c.pending, l.c.lost);
    DrawBalanced(l);
  }

  lemma DrawBalanced(l: Local)
    ensures Balanced(l, l.(c := Draw(l.c)))
  {
  }

  lemma OutKeeps(cfg: Config, i: nat, l: Local, out: Transport)
    requires ConnInv(cfg, i, l.c) && Faithful(out) && out.log == l.c.out.log
    ensures ConnInv(cfg, i, l.c.(out := out))
    ensures Balanced(l, l.(c := l.c.(out := out)))
  {
    hide Store, Drift;
    StoreUntouched(cfg, i, l.c, l.c.(out := out));
    OutBalanced(l, out);
  }

  lemma OutBalanced(l: Local, out: Transport)
    ensures Balanced(l, l.(c := l.c.(out := out)))
  {
  }

  /** The connection with one packet more on its socket. */
  function Post(cfg: Config, c: Conn, body: Body, seq_: nat): Conn {
    c.(out := Push(c.out, cfg.frame(body, seq_)), trace := c.trace.Posted(body, seq_))
  }

  /** What was queued is on the socket, after what was there. */
  lemma PostWired(cfg: Config, t: Trace, log: Bytes, pending: map<nat, Pending>, body: Body, seq_: nat)
    requires Wired(cfg, t, log, pending)
    ensures Wired(cfg, t.Posted(body, seq_), log + cfg.frame(body, seq_), pending)
    ensures (body, seq_) in OnSocket(t.Posted(body, seq_))
  {
    var more := t.Posted(body, seq_);
    assert OnSocket(more) == OnSocket(t) + [(body, seq_)];
    OnePacketMore(cfg, OnSocket(t), body, seq_);
  }

  lemma PostAddressed(uid: nat, peer: nat, t: Trace, retry: map<string, Pending>, resolved: seq<string>,
                      body: Body, seq_: nat)
    requires Addressed(uid, peer, t, retry, resolved) && (body.ChatBody? ==> body.to == peer)
    ensures Addressed(uid, peer, t.Posted(body, seq_), retry, resolved)
  {
  }

  /** A login or a heartbeat on the socket leaves the messages and the acknowledgements as they are. */
  lemma PostKeeps(cfg: Config, i: nat, c: Conn, body: Body, seq_: nat)
    requires ConnInv(cfg, i, c) && c.state != Connecting && (body.LoginBody? || body.HeartbeatBody?)
    requires LatestNumber(c.draws, c.trace.packets, seq_)
    ensures ConnInv(cfg, i, Post(cfg, c, body, seq_))
  {
    hide Ids, Sequenced, Repeats, Faithful, Push, Wired, Addressed, Numbered, LatestNumber;
    PostNumbers(c.draws, c.trace, body, seq_);
    PushFaithful(c.out, cfg.frame(body, seq_));
    PushLogs(c.out, cfg.frame(body, seq_));
    PostWired(cfg, c.trace, c.out.log, c.pending, body, seq_);
    PostAddressed(cfg.UserId(i), Peer(cfg, i), c.trace, c.retryPending, c.resolved, body, seq_);
    OnePacketMore(cfg, c.trace.packets, body, seq_);
  }

  lemma PushLogs(t: Transport, frame: Bytes)
    ensures Push(t, frame).log == t.log + frame
  {
  }

  /** A queued packet moves the account of its kind. */
  function Charged(t: Traffic, body: Body): Traffic {
    match KindOf(body)
    case Beat => t.(beats := t.beats + 1)
    case PrivateAck => t.(privateAcks := t.privateAcks + 1)
    case GroupAck => t.(groupAcks := t.groupAcks + 1)
    case _ => t
  }

  lemma PostOwed(cfg: Config, c: Conn, body: Body, seq_: nat)
    ensures Owed(Post(cfg, c, body, seq_)) == Owed(c).(traffic := Charged(Owed(c).traffic, body))
  {
    hide Push;
    OnePacketMore(cfg, c.trace.packets, body, seq_);
  }

  lemma QueueIs(cfg: Config, l: Local, body: Body, seq_: nat)
    ensures var l' := Queue(cfg, l, body, seq_);
            if CanQueue(cfg, l.c, body) then l' == l.(c := Post(cfg, l.c, body, seq_))
            else l' == l.(m := l.m.(protocolErrors := l'.m.protocolErrors))
  {
    hide Push;
  }

  function BeginLogin(l: Local, reconnect: bool): Local {
    var m := l.m;
    Local(l.c.(state := LoginPending, loginResolved := false),
          if reconnect
          then m.(reconnectConnected := m.reconnectConnected + 1, reauthAttempts := m.reauthAttempts + 1)
          else m.(connected := m.connected + 1))
  }

  function LoginNotSent(l: Local, reconnect: bool): Local {
    var m := l.m;
    Local(l.c.(loginResolved := true),
          if reconnect then m.(reauthFail := m.reauthFail + 1)
          else m.(loginFail := m.loginFail + 1, loginUnresolvedFail := m.loginUnresolvedFail + 1))
  }

  lemma BeginLoginKeeps(cfg: Config, i: nat, l: Local, reconnect: bool)
    requires ConnInv(cfg, i, l.c) && l.c.state == Connecting && reconnect == l.c.recoveryPending && l.c.draws > 0
    ensures ConnInv(cfg, i, BeginLogin(l, reconnect).c) && Balanced(l, BeginLogin(l, reconnect))
  {
    hide Store;
    StoreUntouched(cfg, i, l.c, BeginLogin(l, reconnect).c);
  }

  lemma LoginNotSentKeeps(cfg: Config, i: nat, l: Local, reconnect: bool)
    requires ConnInv(cfg, i, l.c) && AwaitsLogin(l.c) && reconnect == l.c.recoveryPending
    ensures ConnInv(cfg, i, LoginNotSent(l, reconnect).c) && Balanced(l, LoginNotSent(l, reconnect))
  {
    hide Store;
    StoreUntouched(cfg, i, l.c, LoginNotSent(l, reconnect).c);
  }

  /** A connection that logged in once stays one that did, and one that was used stays used. */
  predicate Onward(c: Conn, c': Conn) {
    (c.everOnline ==> c'.everOnline) && (c.state != Unused ==> c'.state != Unused)
  }

  /** A handler leaves the connection in order and the ledger balanced. */
  ghost predicate InOrder(cfg: Config, x: Ctx, i: nat, l: Local, l': Local) {
    ConnInv(cfg, i, l'.c) && AtRest(l'.c) && Tracked(cfg, x, l'.c) && Balanced(l, l') && Onward(l.c, l'.c)
  }

  /** Most handlers, moreover, neither send a new message nor dial. */
  ghost predicate Keeps(cfg: Config, x: Ctx, i: nat, l: Local, l': Local) {
    InOrder(cfg, x, i, l, l') && Quiet(l.m, l'.m)
  }

  lemma ConnectedKeeps(cfg: Config, x: Ctx, i: nat, l: Local, reconnect: bool)
    requires cfg.Valid() && x.now >= 0
    requires ConnInv(cfg, i, l.c) && Tracked(cfg, x, l.c)
    requires l.c.state == Connecting && reconnect == l.c.recoveryPending
    ensures Keeps(cfg, x, i, l, Connected(cfg, x, l, reconnect))
  {
    hide Store, Drift, Queue, Close;
    var l1 := BeginLogin(l, reconnect);
    var l2 := l1.(c := Draw(l1.c));
    DrawKeeps(cfg, i, l);
    BeginLoginKeeps(cfg, i, l.(c := Draw(l.c)), reconnect);
    assert l2 == BeginLogin(l.(c := Draw(l.c)), reconnect);
    var body := LoginBody(l1.c.uid);
    var l3 := Queue(cfg, l2, body, DrawnSeq(l1.c.seq_));
    LatestAfterDraw(cfg, i, l.c);
    GreetingKeeps(cfg, i, l2, DrawnSeq(l1.c.seq_));
    if !CanQueue(cfg, l2.c, body) {
      LoginNotSentKeeps(cfg, i, l3, reconnect);
      CloseKeeps(cfg, x, i, LoginNotSent(l3, reconnect), reconnect);
    }
  }

  /** The request to log in is the first packet on the socket, or cannot be queued. */
  lemma GreetingKeeps(cfg: Config, i: nat, l: Local, seq_: nat)
    requires ConnInv(cfg, i, l.c) && AwaitsLogin(l.c) && l.c.trace.since == |l.c.trace.packets|
    requires LatestNumber(l.c.draws, l.c.trace.packets, seq_)
    ensures var body := LoginBody(l.c.uid);
            var l' := Queue(cfg, l, body, seq_);
            && ConnInv(cfg, i, l'.c) && Balanced(l, l') && l'.m == l.m.(protocolErrors := l'.m.protocolErrors)
            && l'.c == l.c.(out := l'.c.out, trace := l'.c.trace)
            && (if CanQueue(cfg, l.c, body) then Greeted(l'.c) else l'.c == l.c)
  {
    hide ConnInv, Drift, Queue, Push, Owed, Booked, LatestNumber;
    var body := LoginBody(l.c.uid);
    QueueIs(cfg, l, body, seq_);
    if CanQueue(cfg, l.c, body) {
      PostKeeps(cfg, i, l.c, body, seq_);
      assert Balanced(l, Queue(cfg, l, body, seq_)) by { PostUncharged(cfg, l, body, seq_); }
    } else {
      CountersKeep(l, Queue(cfg, l, body, seq_).m);
    }
  }

  lemma PostUncharged(cfg: Config, l: Local, body: Body, seq_: nat)
    requires body.LoginBody?
    ensures Balanced(l, l.(c := Post(cfg, l.c, body, seq_)))
  {
    hide Owed, Booked, Post;
    PostOwed(cfg, l.c, body, seq_);
  }

  lemma ConnectFailedKeeps(cfg: Config, x: Ctx, i: nat, l: Local, reconnect: bool)
    requires cfg.Valid() && x.now >= 0
    requires ConnInv(cfg, i, l.c) && Tracked(cfg, x, l.c)
    requires l.c.state == Connecting && reconnect == l.c.recoveryPending
    ensures var c1 := l.c.(fd := -1, state := Closed, out := EMPTY, trace := l.c.trace.Detached());
            Keeps(cfg, x, i, l, ConnectFailed(cfg, x, l.(c := c1), reconnect))
  {
    hide Store, Drift, ScheduleReconnect;
    var c1 := l.c.(fd := -1, state := Closed, out := EMPTY, trace := l.c.trace.Detached());
    var l1 := Local(c1, if reconnect then l.m.(reconnectConnectFail := l.m.reconnectConnectFail + 1)
                        else l.m.(connectFail := l.m.connectFail + 1));
    StoreUntouched(cfg, i, l.c, c1);
    ConnectFailedBalanced(cfg, i, l, l1, reconnect);
    if reconnect { ScheduleKeeps(cfg, x, i, l1); }
  }

  lemma ConnectFailedBalanced(cfg: Config, i: nat, l: Local, l1: Local, reconnect: bool)
    requires Life(cfg, i, l.c) && l.c.state == Connecting && reconnect == l.c.recoveryPending
    requires l1 == Local(l.c.(fd := -1, state := Closed, out := EMPTY, trace := l.c.trace.Detached()),
                         if reconnect then l.m.(reconnectConnectFail := l.m.reconnectConnectFail + 1)
                         else l.m.(connectFail := l.m.connectFail + 1))
    ensures Life(cfg, i, l1.c) && Balanced(l, l1)
  {
  }

  /** The connection as it enters `connect`, whatever comes of it. */
  function Dialing(cfg: Config, i: nat, l: Local, reconnect: bool, fd: nat): Local
    requires cfg.Valid()
  {
    var c := l.c.(out := EMPTY, trace := l.c.trace.Detached(), loginResolved := false, redial := reconnect,
                  fd := fd, state := Connecting,
                  uid := cfg.UserId(i), peer := cfg.PeerUserId(i));
    if reconnect
    then Local(c.(attemptNo := c.attemptNo + 1), l.m.(reconnectAttempts := l.m.reconnectAttempts + 1))
    else Local(c, l.m.(connectAttempts := l.m.connectAttempts + 1))
  }

  ghost predicate MayOpen(cfg: Config, c: Conn, reconnect: bool) {
    if reconnect then c.fd < 0 && c.recoveryPending && c.attemptNo < cfg.maxAttempts else c.state == Unused
  }

  lemma DialingKeeps(cfg: Config, x: Ctx, i: nat, l: Local, reconnect: bool, fd: nat)
    requires cfg.Valid() && ConnInv(cfg, i, l.c) && MayOpen(cfg, l.c, reconnect)
    requires Tracked(cfg, x, l.c)
    ensures var l1 := Dialing(cfg, i, l, reconnect, fd);
            && ConnInv(cfg, i, l1.c) && Balanced(l, l1) && Tracked(cfg, x, l1.c)
            && l1.c.state == Connecting && reconnect == l1.c.recoveryPending
            && Onward(l.c, l1.c)
            && l1.m.sendAttempts == l.m.sendAttempts
            && l1.m.reconnectAttempts == l.m.reconnectAttempts + One(reconnect)
  {
    hide Store, Drift;
    StoreUntouched(cfg, i, l.c, Dialing(cfg, i, l, reconnect, fd).c);
    DialingBalanced(cfg, i, l, reconnect, fd);
  }

  lemma DialingBalanced(cfg: Config, i: nat, l: Local, reconnect: bool, fd: nat)
    requires cfg.Valid() && Life(cfg, i, l.c) && MayOpen(cfg, l.c, reconnect)
    ensures Balanced(l, Dialing(cfg, i, l, reconnect, fd))
  {
    hide Config.PeerUserId, Config.UserId;
  }

  lemma OpenKeeps(cfg: Config, x: Ctx, i: nat, l: Local, reconnect: bool, r: OpenResult)
    requires cfg.Valid() && x.now >= 0
    requires ConnInv(cfg, i, l.c) && Tracked(cfg, x, l.c) && MayOpen(cfg, l.c, reconnect)
    ensures InOrder(cfg, x, i, l, OpenSocket(cfg, x, i, l, reconnect, r))
    ensures var m' := OpenSocket(cfg, x, i, l, reconnect, r).m;
            m'.sendAttempts == l.m.sendAttempts && m'.reconnectAttempts == l.m.reconnectAttempts + One(reconnect)
    ensures OpenSocket(cfg, x, i, l, reconnect, r).c.state != Unused
  {
    hide Store, Drift, OpenSocket, Connected, ConnectFailed, Dialing;
    var fd := if r.InProgress? || r.Immediate? then r.fd else 0;
    var l1 := Dialing(cfg, i, l, reconnect, fd);
    DialingKeeps(cfg, x, i, l, reconnect, fd);
    if !r.NoSocket? { DialingThen(cfg, x, i, l, reconnect, r); }
    match r
    case NoSocket => NoSocketKeeps(cfg, x, i, l, reconnect);
    case Refused => ConnectFailedKeeps(cfg, x, i, l1, reconnect);
    case NotWatched => ConnectFailedKeeps(cfg, x, i, l1, reconnect);
    case InProgress(_) =>
    case Immediate(_) =>
      ConnectedKeeps(cfg, x, i, l1, reconnect);
  }

  lemma DialingThen(cfg: Config, x: Ctx, i: nat, l: Local, reconnect: bool, r: OpenResult)
    requires cfg.Valid() && !r.NoSocket?
    ensures var l1 := Dialing(cfg, i, l, reconnect, if r.InProgress? || r.Immediate? then r.fd else 0);
            OpenSocket(cfg, x, i, l, reconnect, r) ==
              match r
              case InProgress(_) => l1
              case Immediate(_) => Connected(cfg, x, l1, reconnect)
              case _ =>
                var c1 := l1.c.(fd := -1, state := Closed, out := EMPTY, trace := l1.c.trace.Detached());
                ConnectFailed(cfg, x, l1.(c := c1), reconnect)
  {
    hide Connected, ConnectFailed, Config.UserId, Config.PeerUserId;
    var l1 := Dialing(cfg, i, l, reconnect, if r.InProgress? || r.Immediate? then r.fd else 0);
    ConnectedAnyState(cfg, x, l1, reconnect);
  }

  /** The state a socket had before does not matter once it is connected. */
  lemma ConnectedAnyState(cfg: Config, x: Ctx, l: Local, reconnect: bool)
    requires cfg.Valid()
    ensures Connected(cfg, x, l.(c := l.c.(state := LoginPending)), reconnect) == Connected(cfg, x, l, reconnect)
  {
    hide Close, Queue, CanQueue, SeqAfter, DrawnSeq;
  }

  /** Without a descriptor nothing is dialled; the connection stays, or becomes, closed. */
  lemma NoSocketKeeps(cfg: Config, x: Ctx, i: nat, l: Local, reconnect: bool)
    requires cfg.Valid() && x.now >= 0
    requires ConnInv(cfg, i, l.c) && Tracked(cfg, x, l.c) && MayOpen(cfg, l.c, reconnect)
    ensures InOrder(cfg, x, i, l, OpenSocket(cfg, x, i, l, reconnect, NoSocket))
    ensures var m' := OpenSocket(cfg, x, i, l, reconnect, NoSocket).m;
            m'.sendAttempts == l.m.sendAttempts && m'.reconnectAttempts == l.m.reconnectAttempts + One(reconnect)
    ensures OpenSocket(cfg, x, i, l, reconnect, NoSocket).c.state != Unused
  {
    hide Store, Drift, ScheduleReconnect;
    var c0 := l.c.(out := EMPTY, trace := l.c.trace.Detached(), loginResolved := false, redial := reconnect);
    var c1 := if reconnect then c0.(attemptNo := c0.attemptNo + 1) else c0.(state := Closed);
    var l1 := Local(c1, if reconnect
                        then l.m.(reconnectAttempts := l.m.reconnectAttempts + 1,
                                  reconnectConnectFail := l.m.reconnectConnectFail + 1)
                        else l.m.(connectAttempts := l.m.connectAttempts + 1,
                                  connectFail := l.m.connectFail + 1));
    StoreUntouched(cfg, i, l.c, c1);
    NoSocketBalanced(cfg, i, l, l1, reconnect);
    if reconnect { ScheduleKeeps(cfg, x, i, l1); }
  }

  lemma NoSocketBalanced(cfg: Config, i: nat, l: Local, l1: Local, reconnect: bool)
    requires Life(cfg, i, l.c) && MayOpen(cfg, l.c, reconnect)
    requires var c0 := l.c.(out := EMPTY, trace := l.c.trace.Detached(), loginResolved := false, redial := reconnect);
             l1 == Local(if reconnect then c0.(attemptNo := c0.attemptNo + 1) else c0.(state := Closed),
                         if reconnect
                         then l.m.(reconnectAttempts := l.m.reconnectAttempts + 1,
                                   reconnectConnectFail := l.m.reconnectConnectFail + 1)
                         else l.m.(connectAttempts := l.m.connectAttempts + 1,
                                   connectFail := l.m.connectFail + 1))
    ensures Life(cfg, i, l1.c) && Balanced(l, l1)
  {
  }

  // ---- handlers: logging in and replaying ----------------------------------------------------

  /** The items are sends of this user that are neither in flight nor settled, each once. */
  ghost predicate Fresh(cfg: Config, i: nat, c: Conn, items: seq<Pending>) {
    && (forall k :: 0 <= k < |items| ==>
          && Issued(cfg, cfg.UserId(i), c.logical, items[k].clientId)
          && cfg.encodes(ChatBody(items[k].clientId, items[k].to)) && items[k].to == Peer(cfg, i)
          && items[k].clientId !in c.resolved && c.queued[items[k].clientId] <= c.attemptNo
          && forall s :: s in c.pending ==> c.pending[s].clientId != items[k].clientId)
    && (forall j, k :: 0 <= j < k < |items| ==> items[j].clientId != items[k].clientId)
  }

  lemma InsertIds(cfg: Config, uid: nat, logical: nat, pending: map<nat, Pending>, resolved: seq<string>,
                  seq_: nat, item: Pending)
    requires Ids(cfg, uid, logical, pending, map[], resolved)
    requires Issued(cfg, uid, logical, item.clientId) && cfg.encodes(ChatBody(item.clientId, item.to))
    requires item.clientId !in resolved && seq_ !in pending
    requires forall s :: s in pending ==> pending[s].clientId != item.clientId
    ensures Ids(cfg, uid, logical, pending[seq_ := item], map[], resolved)
  {
    hide Issued;
  }

  /** A queued message after its number is drawn: in flight, or dropped if the number is taken. */
  function Landed(cfg: Config, c: Conn, item: Pending): Conn {
    var seq_ := DrawnSeq(c.seq_);
    Launch(Post(cfg, Draw(c), ChatBody(item.clientId, item.to), seq_), seq_, item)
  }

  lemma LandedSequenced(cfg: Config, c: Conn, item: Pending)
    requires Sequenced(c.draws, c.seq_, c.pending, c.lost) && c.draws > 0
    ensures var c' := Landed(cfg, c, item); Sequenced(c'.draws, c'.seq_, c'.pending, c'.lost)
  {
    hide Push;
    DrawFresh(c.draws, c.seq_, c.pending, c.lost);
  }

  lemma RepeatsOneMore(cfg: Config, uid: nat, logical: nat, queued: multiset<string>, id: string, most: nat)
    requires Repeats(cfg, uid, logical, queued, most + 1) && Issued(cfg, uid, logical, id) && queued[id] <= most
    ensures Repeats(cfg, uid, logical, queued + multiset{id}, most + 1)
  {
    hide Issued;
  }

  /** The message is on the socket under the number it is in flight under. */
  lemma LandedTraced(cfg: Config, i: nat, c: Conn, item: Pending)
    requires Traced(cfg, i, c) && item.to == Peer(cfg, i)
    ensures Traced(cfg, i, Landed(cfg, c, item))
  {
    hide Push, Wired, Addressed, DrawnSeq, SeqAfter;
    var body, seq_ := ChatBody(item.clientId, item.to), DrawnSeq(c.seq_);
    PushLogs(c.out, cfg.frame(body, seq_));
    PostWired(cfg, c.trace, c.out.log, c.pending, body, seq_);
    PostAddressed(cfg.UserId(i), Peer(cfg, i), c.trace, c.retryPending, c.resolved, body, seq_);
    OnePacketMore(cfg, c.trace.packets, body, seq_);
    LaunchWired(cfg, c.trace.Posted(body, seq_), c.out.log + cfg.frame(body, seq_), c.pending, seq_, item);
  }

  lemma LaunchWired(cfg: Config, t: Trace, log: Bytes, pending: map<nat, Pending>, seq_: nat, item: Pending)
    requires Wired(cfg, t, log, pending) && (ChatBody(item.clientId, item.to), seq_) in OnSocket(t)
    ensures Wired(cfg, t, log, Emplace(pending, seq_, item))
  {
  }

  /** An open connection with room launches a message under the sequence number just drawn. */
  lemma InsertStore(cfg: Config, i: nat, c: Conn, item: Pending)
    requires Store(cfg, i, c) && c.retryPending == map[] && Fresh(cfg, i, c, [item])
    requires c.draws > 0 && c.state == Online
    requires |c.pending| < cfg.maxOutstanding
    ensures Store(cfg, i, Landed(cfg, c, item)) && |Landed(cfg, c, item).pending| <= |c.pending| + 1
  {
    hide Ids, Faithful, Sequenced, Repeats, Issued, Traced, Push, Numbered, LatestNumber;
    DrawNumbers(c.draws, c.seq_, c.pending, c.lost, c.trace.packets);
    PostNumbers(c.draws + 1, c.trace, ChatBody(item.clientId, item.to), DrawnSeq(c.seq_));
    PushFaithful(c.out, cfg.frame(ChatBody(item.clientId, item.to), DrawnSeq(c.seq_)));
    LandedSequenced(cfg, c, item);
    assert Fresh(cfg, i, c, [item]) ==> [item][0] == item;
    LandedTraced(cfg, i, c, item);
    RepeatsOneMore(cfg, cfg.UserId(i), c.logical, c.queued, item.clientId, c.attemptNo);
    if DrawnSeq(c.seq_) !in c.pending {
      InsertIds(cfg, cfg.UserId(i), c.logical, c.pending, c.resolved, DrawnSeq(c.seq_), item);
    }
  }

  /** Either way the send is accounted for: one more in flight, or one more dropped. */
  lemma LandedOwed(cfg: Config, c: Conn, item: Pending)
    ensures Owed(Landed(cfg, c, item)) == Owed(c).(sends := Owed(c).sends + 1, frames := Owed(c).frames + 1)
  {
    hide Owed, Post, Launch;
    var body, seq_ := ChatBody(item.clientId, item.to), DrawnSeq(c.seq_);
    DrawOwed(c);
    PostOwed(cfg, Draw(c), body, seq_);
    LaunchOwed(Post(cfg, Draw(c), body, seq_), seq_, item);
  }

  lemma DrawOwed(c: Conn)
    ensures Owed(Draw(c)) == Owed(c)
  {
    hide Carried;
  }

  lemma LaunchOwed(c: Conn, seq_: nat, item: Pending)
    ensures Owed(Launch(c, seq_, item)) == Owed(c).(sends := Owed(c).sends + 1, frames := Owed(c).frames + 1)
  {
    hide Carried;
  }

  lemma ReplayOneBalanced(cfg: Config, l: Local, item: Pending)
    requires CanQueue(cfg, Draw(l.c), ChatBody(item.clientId, item.to))
    ensures Drift(ReplayOne(cfg, l, item)) == Drift(l).(sends := Drift(l).sends - 1)
  {
    hide Owed, ReplayOne, Landed;
    ReplayOneIs(cfg, l, item);
    LandedOwed(cfg, l.c, item);
    ReplayOwed(Landed(cfg, l.c, item));
  }

  lemma ReplayOneIs(cfg: Config, l: Local, item: Pending)
    requires CanQueue(cfg, Draw(l.c), ChatBody(item.clientId, item.to))
    ensures var l' := ReplayOne(cfg, l, item);
            && l'.c == Landed(cfg, l.c, item).(replays := l.c.replays + 1) && Landed(cfg, l.c, item).replays == l.c.replays
            && l'.m == l.m.(messageRetryAttempts := l.m.messageRetryAttempts + 1)
  {
    hide Push;
  }

  lemma ReplayOwed(c: Conn)
    ensures Owed(c.(replays := c.replays + 1)) == Owed(c).(retries := Owed(c).retries + 1)
  {
    hide Carried;
  }

  /** Replaying touches the flight, the output queue and the counts of what was drawn and queued. */
  predicate Replayed(c: Conn, c': Conn) {
    && c' == c.(out := c'.out, pending := c'.pending, draws := c'.draws, seq_ := c'.seq_, lost := c'.lost,
                queued := c'.queued, replays := c'.replays, trace := c'.trace)
    && c'.trace == c.trace.(packets := c'.trace.packets) && c.trace.packets <= c'.trace.packets
  }

  lemma ReplayOneKeeps(cfg: Config, i: nat, l: Local, items: seq<Pending>)
    requires ConnInv(cfg, i, l.c) && l.c.state == Online && items != [] && Fresh(cfg, i, l.c, items)
    requires |l.c.pending| < cfg.maxOutstanding && l.c.replays < l.c.recoveries * cfg.maxOutstanding
    ensures var l' := ReplayOne(cfg, l, items[0]);
            && ConnInv(cfg, i, l'.c) && Fresh(cfg, i, l'.c, items[1..])
            && Replayed(l.c, l'.c) && l'.c.replays == l.c.replays + 1
            && |l'.c.pending| <= |l.c.pending| + 1 && Quiet(l.m, l'.m)
            && Drift(l') == Drift(l).(sends := Drift(l).sends - 1)
  {
    hide Drift, ReplayOne, Fresh, Store, Push;
    var item := items[0];
    var l' := ReplayOne(cfg, l, item);
    FreshFirst(cfg, i, l.c, items);
    ReplayOneIs(cfg, l, item);
    ReplayOneBalanced(cfg, l, item);
    InsertStore(cfg, i, l.c, item);
    ReplayCounted(cfg, i, Landed(cfg, l.c, item), l'.c);
    FreshRest(cfg, i, l.c, items);
  }

  lemma FreshFirst(cfg: Config, i: nat, c: Conn, items: seq<Pending>)
    requires items != [] && Fresh(cfg, i, c, items)
    ensures Fresh(cfg, i, c, [items[0]]) && cfg.encodes(ChatBody(items[0].clientId, items[0].to))
  {
    hide Issued;
  }

  lemma ReplayCounted(cfg: Config, i: nat, c: Conn, c': Conn)
    requires Store(cfg, i, c) && c' == c.(replays := c.replays + 1) && c.replays < c.recoveries * cfg.maxOutstanding
    ensures Store(cfg, i, c')
  {
  }

  lemma FreshRest(cfg: Config, i: nat, c: Conn, items: seq<Pending>)
    requires items != [] && Fresh(cfg, i, c, items)
    ensures forall n: nat :: Fresh(cfg, i, Landed(cfg, c, items[0]).(replays := n), items[1..])
  {
    hide Issued, Push, DrawnSeq, SeqAfter;
  }

  lemma {:induction false} ReplayKeeps(cfg: Config, i: nat, l: Local, items: seq<Pending>)
    requires ConnInv(cfg, i, l.c) && l.c.state == Online && Fresh(cfg, i, l.c, items)
    requires |l.c.pending| + |items| <= cfg.maxOutstanding
    requires l.c.replays + |items| <= l.c.recoveries * cfg.maxOutstanding
    ensures var l' := Replay(cfg, l, items);
            && ConnInv(cfg, i, l'.c)
            && Replayed(l.c, l'.c)
            && Quiet(l.m, l'.m)
            && Drift(l') == Drift(l).(sends := Drift(l).sends - |items|)
    decreases |items|
  {
    hide Store, Life, Drift, ReplayOne, Fresh;
    if items != [] {
      ReplayOneKeeps(cfg, i, l, items);
      ReplayKeeps(cfg, i, ReplayOne(cfg, l, items[0]), items[1..]);
    }
  }

  lemma {:induction false} ListingLength(order: seq<string>, ids: set<string>)
    requires Lists(order, ids)
    ensures |order| == |ids|
    decreases |order|
  {
    if order == [] {
      assert ids == {};
    } else {
      var rest := order[1..];
      forall id | id in ids - {order[0]}
        ensures id in rest
      {
        var k :| 0 <= k < |order| && order[k] == id;
        assert rest[k - 1] == id;
      }
      ListingLength(rest, ids - {order[0]});
      assert order[0] in ids;
    }
  }

  lemma EmptyIds(cfg: Config, uid: nat, logical: nat, retry: map<string, Pending>, resolved: seq<string>)
    requires Ids(cfg, uid, logical, map[], retry, resolved)
    ensures Ids(cfg, uid, logical, map[], map[], resolved)
  {
    hide Issued;
  }

  /** A stash is fresh for a connection with nothing in flight. */
  lemma StashIsFresh(cfg: Config, i: nat, c: Conn, order: seq<string>)
    requires Ids(cfg, cfg.UserId(i), c.logical, map[], c.retryPending, c.resolved) && c.pending == map[]
    requires Repeats(cfg, cfg.UserId(i), c.logical, c.queued, c.attemptNo)
    requires forall id :: id in c.retryPending ==> c.retryPending[id].to == Peer(cfg, i)
    requires Lists(order, c.retryPending.Keys)
    ensures Fresh(cfg, i, c, Items(c.retryPending, order))
    ensures |Items(c.retryPending, order)| == |c.retryPending|
  {
    hide Issued, Items;
    var items := Items(c.retryPending, order);
    ListingLength(order, c.retryPending.Keys);
    assert |c.retryPending.Keys| == |c.retryPending|;
    forall k | 0 <= k < |order|
      ensures order[k] in c.retryPending && items[k] == c.retryPending[order[k]] && items[k].clientId == order[k]
    {
      assert order[k] in order;
    }
    hide Lists;
    StashItemsFresh(cfg, i, c, order, items);
  }

  lemma StashItemsFresh(cfg: Config, i: nat, c: Conn, order: seq<string>, items: seq<Pending>)
    requires Ids(cfg, cfg.UserId(i), c.logical, map[], c.retryPending, c.resolved) && c.pending == map[]
    requires Repeats(cfg, cfg.UserId(i), c.logical, c.queued, c.attemptNo)
    requires forall id :: id in c.retryPending ==> c.retryPending[id].to == Peer(cfg, i)
    requires |items| == |order| && forall j, k :: 0 <= j < k < |order| ==> order[j] != order[k]
    requires forall k :: 0 <= k < |order| ==> order[k] in c.retryPending && items[k] == c.retryPending[order[k]]
    ensures Fresh(cfg, i, c, items)
  {
    hide Issued;
    forall k | 0 <= k < |items|
      ensures items[k].clientId == order[k]
    {
      assert order[k] in c.retryPending;
    }
  }

  /** The connection has just logged in again; its stash is about to be replayed. */
  function Resumed(l: Local, heartbeatAt: int): Local {
    var c, m := l.c, l.m;
    Local(c.(loginResolved := true, state := Online, nextHeartbeat := heartbeatAt,
             recoveredOnce := true, recoveryPending := false, recoveries := c.recoveries + 1, retryPending := map[]),
          m.(reauthOk := m.reauthOk + 1,
             recoveredClients := if c.recoveredOnce then m.recoveredClients else m.recoveredClients + 1))
  }

  lemma ResumedBalanced(cfg: Config, i: nat, l: Local, heartbeatAt: int)
    requires Life(cfg, i, l.c) && AwaitsLogin(l.c) && l.c.recoveryPending
    ensures Life(cfg, i, Resumed(l, heartbeatAt).c)
    ensures Drift(Resumed(l, heartbeatAt)) == Drift(l).(sends := Drift(l).sends + |l.c.retryPending|)
  {
  }

  lemma ResumedStore(cfg: Config, i: nat, l: Local, heartbeatAt: int, order: seq<string>)
    requires ConnInv(cfg, i, l.c) && AwaitsLogin(l.c) && Lists(order, l.c.retryPending.Keys)
    ensures Store(cfg, i, Resumed(l, heartbeatAt).c)
    ensures Fresh(cfg, i, Resumed(l, heartbeatAt).c, Items(l.c.retryPending, order))
    ensures |Items(l.c.retryPending, order)| == |l.c.retryPending| <= cfg.maxOutstanding
    ensures var c := Resumed(l, heartbeatAt).c; c.replays + |l.c.retryPending| <= c.recoveries * cfg.maxOutstanding
  {
    hide Issued, Items, Faithful, Ids, Repeats, Sequenced, Fresh, Wired, Heeded, Addressed, Numbered;
    var c := Resumed(l, heartbeatAt).c;
    EmptyAddressed(cfg.UserId(i), Peer(cfg, i), c.trace, l.c.retryPending, c.resolved);
    StashIsFresh(cfg, i, l.c, order);
    FreshFor(cfg, i, l.c, c, Items(l.c.retryPending, order));
    EmptyIds(cfg, cfg.UserId(i), l.c.logical, l.c.retryPending, l.c.resolved);
    MoreRepeats(cfg, cfg.UserId(i), c.logical, c.queued, l.c.attemptNo);
    OneRecoveryMore(l.c.recoveries, cfg.maxOutstanding);
  }

  lemma EmptyAddressed(uid: nat, peer: nat, t: Trace, retry: map<string, Pending>, resolved: seq<string>)
    requires Addressed(uid, peer, t, retry, resolved)
    ensures Addressed(uid, peer, t, map[], resolved)
    ensures forall id :: id in retry ==> retry[id].to == peer
  {
  }

  lemma OneRecoveryMore(recoveries: nat, window: nat)
    ensures (recoveries + 1) * window == recoveries * window + window
  {
  }

  lemma MoreRepeats(cfg: Config, uid: nat, logical: nat, queued: multiset<string>, most: nat)
    requires Repeats(cfg, uid, logical, queued, most)
    ensures Repeats(cfg, uid, logical, queued, most + 1)
  {
    hide Issued;
  }

  lemma FreshFor(cfg: Config, i: nat, c: Conn, c': Conn, items: seq<Pending>)
    requires Fresh(cfg, i, c, items)
    requires c'.pending == c.pending && c'.resolved == c.resolved && c'.logical == c.logical
    requires c'.queued == c.queued && c'.attemptNo == c.attemptNo
    ensures Fresh(cfg, i, c', items)
  {
    hide Issued;
  }

  lemma RecoveryLoginUnfolds(cfg: Config, x: Ctx, l: Local, order: seq<string>)
    requires cfg.Valid() && AwaitsLogin(l.c) && l.c.recoveryPending && l.c.everOnline
    ensures Login(cfg, x, l, true, l.c.uid, order)
         == Replay(cfg, Resumed(l, x.now + cfg.heartbeat),
                   Items(l.c.retryPending, WalkOrder(l.c.retryPending.Keys, order)))
  {
    hide Replay, Items, WalkOrder;
  }

  /** A client that logs in again is online with its whole stash back in flight. */
  lemma RecoveryLoginKeeps(cfg: Config, x: Ctx, i: nat, l: Local, order: seq<string>)
    requires cfg.Valid() && ConnInv(cfg, i, l.c) && Tracked(cfg, x, l.c)
    requires AwaitsLogin(l.c) && AtRest(l.c) && l.c.recoveryPending
    ensures Keeps(cfg, x, i, l, Login(cfg, x, l, true, l.c.uid, order))
    ensures Login(cfg, x, l, true, l.c.uid, order).c.state == Online
  {
    hide Login, Replay, Fresh, Store, Drift, Items, WalkOrder;
    var at := x.now + cfg.heartbeat;
    var walk := WalkOrder(l.c.retryPending.Keys, order);
    ResumedBalanced(cfg, i, l, at);
    ResumedStore(cfg, i, l, at, walk);
    ReplayKeeps(cfg, i, Resumed(l, at), Items(l.c.retryPending, walk));
    RecoveryLoginUnfolds(cfg, x, l, order);
  }

  function LoginRefused(l: Local): Local {
    var m := l.m;
    Local(l.c.(loginResolved := true),
          if l.c.recoveryPending && l.c.everOnline then m.(reauthFail := m.reauthFail + 1)
          else m.(loginFail := m.loginFail + 1, loginResponseFail := m.loginResponseFail + 1))
  }

  lemma LoginRefusedKeeps(cfg: Config, i: nat, l: Local)
    requires ConnInv(cfg, i, l.c) && AwaitsLogin(l.c)
    ensures ConnInv(cfg, i, LoginRefused(l).c) && Balanced(l, LoginRefused(l))
  {
    hide Store;
    StoreUntouched(cfg, i, l.c, LoginRefused(l).c);
  }

  lemma FirstLoginKeeps(cfg: Config, x: Ctx, i: nat, l: Local)
    requires cfg.Valid() && ConnInv(cfg, i, l.c) && AwaitsLogin(l.c) && !l.c.recoveryPending
    ensures var l' := Login(cfg, x, l, true, l.c.uid, []);
            && ConnInv(cfg, i, l'.c) && Balanced(l, l') && l'.c.state == Online && !l'.c.countedDisconnect
            && Quiet(l.m, l'.m) && l'.c.trace == l.c.trace && l'.c.uid == l.c.uid
  {
    hide Store;
    StoreUntouched(cfg, i, l.c, Login(cfg, x, l, true, l.c.uid, []).c);
  }

  lemma LoginKeeps(cfg: Config, x: Ctx, i: nat, l: Local, success: bool, userId: nat, order: seq<string>)
    requires cfg.Valid() && x.now >= 0
    requires ConnInv(cfg, i, l.c) && AtRest(l.c) && Tracked(cfg, x, l.c)
    requires l.c.state == LoginPending || l.c.state == Online
    ensures Keeps(cfg, x, i, l, Login(cfg, x, l, success, userId, order))
    ensures Login(cfg, x, l, success, userId, order).c.state != Connecting
  {
    hide Login, Store, Drift, Close;
    if l.c.loginResolved {
      LoginIgnored(cfg, x, l, success, userId, order);
      CountersKeep(l, l.m.(protocolErrors := l.m.protocolErrors + 1));
    } else if !(success && userId == l.c.uid) {
      LoginRefusedUnfolds(cfg, x, l, success, userId, order);
      LoginRefusedKeeps(cfg, i, l);
      CloseKeeps(cfg, x, i, LoginRefused(l), l.c.recoveryPending && l.c.everOnline);
    } else if l.c.recoveryPending {
      RecoveryLoginKeeps(cfg, x, i, l, order);
    } else {
      FirstLoginAnyOrder(cfg, x, l, order);
      FirstLoginKeeps(cfg, x, i, l);
    }
  }

  lemma LoginIgnored(cfg: Config, x: Ctx, l: Local, success: bool, userId: nat, order: seq<string>)
    requires cfg.Valid() && l.c.loginResolved
    ensures Login(cfg, x, l, success, userId, order) == l.(m := l.m.(protocolErrors := l.m.protocolErrors + 1))
  {
    hide Close, RetryPending;
  }

  lemma LoginRefusedUnfolds(cfg: Config, x: Ctx, l: Local, success: bool, userId: nat, order: seq<string>)
    requires cfg.Valid() && !l.c.loginResolved && !(success && userId == l.c.uid)
    ensures Login(cfg, x, l, success, userId, order)
         == Close(cfg, x, LoginRefused(l), l.c.recoveryPending && l.c.everOnline)
  {
    hide Close, RetryPending;
  }

  lemma FirstLoginAnyOrder(cfg: Config, x: Ctx, l: Local, order: seq<string>)
    requires cfg.Valid() && !l.c.loginResolved && !l.c.everOnline
    ensures Login(cfg, x, l, true, l.c.uid, order) == Login(cfg, x, l, true, l.c.uid, [])
  {
    hide RetryPending, Close;
  }

  // ---- handlers: packets ---------------------------------------------------------------------

  lemma SettleIds(cfg: Config, uid: nat, logical: nat, pending: map<nat, Pending>, retry: map<string, Pending>,
                  resolved: seq<string>, seq_: nat)
    requires Ids(cfg, uid, logical, pending, retry, resolved) && seq_ in pending
    ensures Ids(cfg, uid, logical, pending - {seq_}, retry, resolved + [pending[seq_].clientId])
  {
    hide Issued;
  }

  /** How the send under `seq_` ends if `ack` answers it. */
  function OutcomeOf(c: Conn, seq_: nat, ack: AckBody): Outcome
    requires seq_ in c.pending
  {
    Outcome(c.pending[seq_].clientId, c.uid, c.pending[seq_].to, Some(ack))
  }

  function SettledBy(c: Conn, seq_: nat, ack: AckBody): Conn
    requires seq_ in c.pending
  {
    c.(pending := c.pending - {seq_}, resolved := c.resolved + [c.pending[seq_].clientId],
       trace := c.trace.Ended(OutcomeOf(c, seq_, ack)))
  }

  lemma SettleStore(cfg: Config, i: nat, c: Conn, seq_: nat, ack: AckBody)
    requires Store(cfg, i, c) && seq_ in c.pending && c.uid == cfg.UserId(i)
    ensures Store(cfg, i, SettledBy(c, seq_, ack))
    ensures |c.pending - {seq_}| == |c.pending| - 1
  {
    hide Ids, Faithful, Traced, Repeats, Numbered, Config.UserId;
    assert (c.pending - {seq_}).Keys == c.pending.Keys - {seq_};
    assert |c.pending.Keys| == |c.pending| && |(c.pending - {seq_}).Keys| == |c.pending - {seq_}|;
    SettleIds(cfg, cfg.UserId(i), c.logical, c.pending, c.retryPending, c.resolved, seq_);
    SettleTraced(cfg, i, c, seq_, ack);
  }

  lemma SettleTraced(cfg: Config, i: nat, c: Conn, seq_: nat, ack: AckBody)
    requires Traced(cfg, i, c) && seq_ in c.pending && c.uid == cfg.UserId(i)
    ensures Traced(cfg, i, SettledBy(c, seq_, ack))
  {
    hide Heeded;
    InFlightToPeer(cfg, i, c, seq_);
    hide Addressed;
    EndAddressed(cfg.UserId(i), Peer(cfg, i), c.trace, c.retryPending, c.resolved, OutcomeOf(c, seq_, ack));
    HeededAlike(cfg, cfg.UserId(i), c.trace, c.trace.Ended(OutcomeOf(c, seq_, ack)), c.seenDeliveries);
  }

  lemma EndAddressed(uid: nat, peer: nat, t: Trace, retry: map<string, Pending>, resolved: seq<string>, o: Outcome)
    requires Addressed(uid, peer, t, retry, resolved) && o.from == uid && o.to == peer
    ensures Addressed(uid, peer, t.Ended(o), retry, resolved + [o.clientId])
  {
  }

  /** An answer settles exactly the send it answers: its id leaves the flight for the settled ones. */
  lemma AckKeeps(cfg: Config, x: Ctx, i: nat, l: Local, seq_: nat, ack: AckBody)
    requires ConnInv(cfg, i, l.c) && AtRest(l.c) && Tracked(cfg, x, l.c)
    ensures Keeps(cfg, x, i, l, HandleChatAck(l, seq_, ack))
    ensures HandleChatAck(l, seq_, ack).c.state == l.c.state
  {
    hide Store, Drift, HandleChatAck;
    AnswerCounts(l, seq_, ack);
    if seq_ in l.c.pending {
      SettleStore(cfg, i, l.c, seq_, ack);
      AckBalanced(l, seq_, ack);
    } else {
      CountersKeep(l, HandleChatAck(l, seq_, ack).m);
    }
  }

  /** The server turned the message down. */
  predicate TurnsDown(ack: AckBody) {
    ack.AckBody? && !ack.success
  }

  /**
   * An answer to a send in flight settles it and is counted as good exactly if it confirms that
   * send, and otherwise as bad. Errors are counted for an answer to nothing, an unreadable one, and
   * a success that is not the one due, and not for a refusal.
   */
  lemma AnswerCounts(l: Local, seq_: nat, ack: AckBody)
    ensures var l' := HandleChatAck(l, seq_, ack);
            if seq_ in l.c.pending then
              var good := Confirmed(OutcomeOf(l.c, seq_, ack));
              && l'.c == SettledBy(l.c, seq_, ack)
              && l'.m == l.m.(chatAckOk := l.m.chatAckOk + One(good), chatAckFail := l.m.chatAckFail + One(!good),
                              protocolErrors := l.m.protocolErrors + One(!good && !TurnsDown(ack)))
            else l' == l.(m := l.m.(protocolErrors := l.m.protocolErrors + 1))
  {
  }

  lemma AckBalanced(l: Local, seq_: nat, ack: AckBody)
    requires seq_ in l.c.pending && |l.c.pending - {seq_}| == |l.c.pending| - 1
    ensures Balanced(l, HandleChatAck(l, seq_, ack))
  {
    hide HandleChatAck, Owed, SettledBy;
    AnswerCounts(l, seq_, ack);
    SettledOwed(l.c, seq_, ack);
  }

  lemma SettledOwed(c: Conn, seq_: nat, ack: AckBody)
    requires seq_ in c.pending && |c.pending - {seq_}| == |c.pending| - 1
    ensures var o := Owed(c);
            Owed(SettledBy(c, seq_, ack)) ==
              o.(settled := o.settled + 1,
                 traffic := o.traffic.(confirmed := o.traffic.confirmed + One(Confirmed(OutcomeOf(c, seq_, ack)))))
  {
    hide Confirmed;
    OneOutcomeMore(c.trace.outcomes, OutcomeOf(c, seq_, ack));
  }

  lemma CountersKeep(l: Local, m: Metrics)
    requires m == l.m.(protocolErrors := m.protocolErrors)
    ensures Balanced(l, l.(m := m))
  {
    hide Carried;
  }

  // ---- handlers: what is heard ---------------------------------------------------------------

  /** A packet handled moves the account of its sound. */
  function Noted(t: Traffic, sound: Sound): Traffic {
    match sound
    case Pong => t.(pongs := t.pongs + 1)
    case Fault => t.(faults := t.faults + 1)
    case PrivateMessage => t.(privates := t.privates + 1)
    case GroupMessage => t.(groups := t.groups + 1)
    case Other => t
  }

  lemma HearOwed(cfg: Config, c: Conn, p: Packet)
    ensures Owed(c.(trace := c.trace.Heard(p))) == Owed(c).(traffic := Noted(Owed(c).traffic, SoundOf(c.uid, p)))
  {
    hide SoundOf;
    OneHearingMore(cfg, c.uid, c.trace.heard, p);
  }

  /** A packet that is no delivery this user can take leaves nothing to acknowledge. */
  lemma HearKeeps(cfg: Config, i: nat, c: Conn, p: Packet)
    requires ConnInv(cfg, i, c) && c.fd >= 0 && !Takes(cfg.UserId(i), p)
    ensures ConnInv(cfg, i, c.(trace := c.trace.Heard(p)))
  {
    hide Ids, Faithful, Sequenced, Repeats, Takes, Traced, Numbered;
    HearTraced(cfg, i, c, p);
  }

  lemma HearTraced(cfg: Config, i: nat, c: Conn, p: Packet)
    requires Traced(cfg, i, c) && !Takes(cfg.UserId(i), p)
    ensures Traced(cfg, i, c.(trace := c.trace.Heard(p)))
  {
    hide Takes, Wired, Addressed;
    OneHearingMore(cfg, cfg.UserId(i), c.trace.heard, p);
    WiredAlike(cfg, c.trace, c.trace.Heard(p), c.out.log, c.pending);
    AddressedAlike(cfg.UserId(i), Peer(cfg, i), c.trace, c.trace.Heard(p), c.retryPending, c.resolved);
  }

  lemma HearBalanced(cfg: Config, l: Local, p: Packet)
    requires SoundOf(l.c.uid, p) == Other
    ensures Balanced(l, Hear(l, p))
  {
    hide Owed, Booked;
    HearOwed(cfg, l.c, p);
  }

  lemma SignalBalanced(cfg: Config, l: Local, p: Packet, m: Metrics)
    requires !p.Delivery?
    requires m == l.m.(protocolErrors := m.protocolErrors,
                       heartbeatAck := l.m.heartbeatAck + One(p == HeartbeatReply(true)),
                       serverErrors := l.m.serverErrors + One(p.ServerError?))
    ensures Balanced(l, Local(Hear(l, p).c, m))
  {
    hide Owed;
    HearOwed(cfg, l.c, p);
  }

  /** The connection after a delivery was taken and, if the codec allows, acknowledged. */
  function Taken(cfg: Config, c: Conn, p: Packet): Conn
    requires p.Delivery?
  {
    var body := DeliveryAckBody(p.group, p.messageId);
    var c1 := Noticed(c, p);
    if cfg.encodes(body) then Post(cfg, c1, body, p.seq_) else c1
  }

  function Noticed(c: Conn, p: Packet): Conn
    requires p.Delivery?
  {
    c.(trace := c.trace.Heard(p), seenDeliveries := if p.group then c.seenDeliveries else c.seenDeliveries + {p.messageId})
  }

  lemma TakenTraced(cfg: Config, i: nat, c: Conn, p: Packet)
    requires Traced(cfg, i, c) && p.Delivery? && Takes(cfg.UserId(i), p)
    ensures Traced(cfg, i, Taken(cfg, c, p))
  {
    hide Wired, Addressed, Heeded, Taken, Takes, Peer, Config.UserId;
    TakenIs(cfg, c, p);
    var body, uid, peer := DeliveryAckBody(p.group, p.messageId), cfg.UserId(i), Peer(cfg, i);
    TakenHeeded(cfg, uid, c.trace, c.seenDeliveries, p);
    HeardKeeps(cfg, uid, peer, c.trace, c.out.log, c.pending, c.retryPending, c.resolved, p);
    if cfg.encodes(body) {
      PostedKeeps(cfg, uid, peer, c.trace.Heard(p), c.out.log, c.pending, c.retryPending, c.resolved, body, p.seq_);
    }
  }

  lemma TakenIs(cfg: Config, c: Conn, p: Packet)
    requires p.Delivery?
    ensures var c', body := Taken(cfg, c, p), DeliveryAckBody(p.group, p.messageId);
            && c' == c.(trace := c'.trace, out := c'.out, seenDeliveries := c'.seenDeliveries)
            && c'.trace == (if cfg.encodes(body) then c.trace.Heard(p).Posted(body, p.seq_) else c.trace.Heard(p))
            && c'.out.log == (if cfg.encodes(body) then c.out.log + cfg.frame(body, p.seq_) else c.out.log)
            && c'.seenDeliveries == if p.group then c.seenDeliveries else c.seenDeliveries + {p.messageId}
  {
    hide Push;
    PushLogs(c.out, cfg.frame(DeliveryAckBody(p.group, p.messageId), p.seq_));
  }

  lemma HeardKeeps(cfg: Config, uid: nat, peer: nat, t: Trace, log: Bytes, pending: map<nat, Pending>,
                   retry: map<string, Pending>, resolved: seq<string>, p: Packet)
    requires Wired(cfg, t, log, pending) && Addressed(uid, peer, t, retry, resolved)
    ensures Wired(cfg, t.Heard(p), log, pending) && Addressed(uid, peer, t.Heard(p), retry, resolved)
  {
    hide Wired, Addressed;
    WiredAlike(cfg, t, t.Heard(p), log, pending);
    AddressedAlike(uid, peer, t, t.Heard(p), retry, resolved);
  }

  lemma PostedKeeps(cfg: Config, uid: nat, peer: nat, t: Trace, log: Bytes, pending: map<nat, Pending>,
                    retry: map<string, Pending>, resolved: seq<string>, body: Body, seq_: nat)
    requires Wired(cfg, t, log, pending) && Addressed(uid, peer, t, retry, resolved) && !body.ChatBody?
    ensures var t' := t.Posted(body, seq_);
            && Wired(cfg, t', log + cfg.frame(body, seq_), pending) && Addressed(uid, peer, t', retry, resolved)
            && ChatIds(t'.packets) == ChatIds(t.packets)
  {
    hide Wired, Addressed;
    PostWired(cfg, t, log, pending, body, seq_);
    PostAddressed(uid, peer, t, retry, resolved, body, seq_);
    OnePacketMore(cfg, t.packets, body, seq_);
  }

  lemma TakenHeeded(cfg: Config, uid: nat, t: Trace, seen: set<nat>, p: Packet)
    requires Heeded(cfg, uid, t, seen) && p.Delivery? && Takes(uid, p)
    ensures var body := DeliveryAckBody(p.group, p.messageId);
            Heeded(cfg, uid, if cfg.encodes(body) then t.Heard(p).Posted(body, p.seq_) else t.Heard(p),
                   if p.group then seen else seen + {p.messageId})
  {
    hide AcksIn, AcksDue, MessagesIn, Takes;
    OneHearingMore(cfg, uid, t.heard, p);
    OnePacketMore(cfg, t.packets, DeliveryAckBody(p.group, p.messageId), p.seq_);
  }

  lemma TakenKeeps(cfg: Config, i: nat, c: Conn, p: Packet)
    requires ConnInv(cfg, i, c) && c.fd >= 0 && c.state != Connecting && p.Delivery? && Takes(cfg.UserId(i), p)
    ensures ConnInv(cfg, i, Taken(cfg, c, p))
  {
    hide Ids, Faithful, Sequenced, Repeats, Traced, Push, Numbered;
    TakenTraced(cfg, i, c, p);
    PostNumbers(c.draws, c.trace.Heard(p), DeliveryAckBody(p.group, p.messageId), p.seq_);
    PushFaithful(c.out, cfg.frame(DeliveryAckBody(p.group, p.messageId), p.seq_));
  }

  lemma NoticedBalanced(cfg: Config, l: Local, p: Packet)
    requires p.Delivery? && Takes(l.c.uid, p)
    ensures var l' := Seen(Hear(l, p), p.group, p.messageId);
            Balanced(l, l') && l'.c == Noticed(l.c, p) && Quiet(l.m, l'.m)
  {
    hide Owed, Seen, Takes, Noticed;
    NoticedOwed(cfg, l.c, p);
    SeenCounts(l, p);
  }

  lemma SeenCounts(l: Local, p: Packet)
    requires p.Delivery?
    ensures var l', m := Seen(Hear(l, p), p.group, p.messageId), l.m;
            var new_ := One(!p.group && p.messageId !in l.c.seenDeliveries);
            && l'.c == Noticed(l.c, p)
            && l'.m == m.(groupDelivery := m.groupDelivery + One(p.group),
                          receiverDelivery := m.receiverDelivery + One(!p.group),
                          receiverDeliveryUnique := m.receiverDeliveryUnique + new_,
                          receiverDeliveryDuplicates := m.receiverDeliveryDuplicates + One(!p.group) - new_)
  {
    assert p.messageId in l.c.seenDeliveries ==> l.c.seenDeliveries + {p.messageId} == l.c.seenDeliveries;
  }

  lemma NoticedOwed(cfg: Config, c: Conn, p: Packet)
    requires Takes(c.uid, p)
    ensures var o := Owed(c);
            Owed(Noticed(c, p)) ==
              o.(uniqueDeliveries := o.uniqueDeliveries + One(!p.group && p.messageId !in c.seenDeliveries),
                 traffic := Noted(o.traffic, if p.group then GroupMessage else PrivateMessage))
  {
    var seen := if p.group then c.seenDeliveries else c.seenDeliveries + {p.messageId};
    HearOwed(cfg, c, p);
    assert |seen| == |c.seenDeliveries| + One(!p.group && p.messageId !in c.seenDeliveries) by {
      assert p.messageId in c.seenDeliveries ==> c.seenDeliveries + {p.messageId} == c.seenDeliveries;
    }
    SeenOwed(c.(trace := c.trace.Heard(p)), seen);
    hide Owed;
  }

  lemma SeenOwed(c: Conn, seen: set<nat>)
    ensures Owed(c.(seenDeliveries := seen)) ==
            Owed(c).(uniqueDeliveries := |seen|)
    ensures Owed(c).uniqueDeliveries == |c.seenDeliveries|
  {
    hide Carried;
  }

  lemma AckPosted(cfg: Config, l: Local, group: bool, messageId: nat, seq_: nat)
    ensures var m := l.m;
            var m' := if group then m.(groupAckSent := m.groupAckSent + 1) else m.(receiverAckSent := m.receiverAckSent + 1);
            Balanced(l, Local(Post(cfg, l.c, DeliveryAckBody(group, messageId), seq_), m'))
  {
    hide Owed, Post;
    PostOwed(cfg, l.c, DeliveryAckBody(group, messageId), seq_);
  }

  /** A delivery taken is seen and acknowledged; one that is not is an error and nothing else. */
  lemma DeliveryIs(cfg: Config, x: Ctx, l: Local, p: Packet)
    requires cfg.Valid() && p.Delivery? && l.c.fd >= 0 && l.c.state != Closed
    ensures var l' := HandlePacket(cfg, x, l, p);
            var l1 := Seen(Hear(l, p), p.group, p.messageId);
            var body := DeliveryAckBody(p.group, p.messageId);
            if !Takes(l.c.uid, p) then l' == Hear(l, p).(m := l.m.(protocolErrors := l.m.protocolErrors + 1))
            else if !cfg.encodes(body) then l' == l1.(m := l1.m.(protocolErrors := l1.m.protocolErrors + 2))
            else l' == Local(Post(cfg, l1.c, body, p.seq_),
                             if p.group then l1.m.(groupAckSent := l1.m.groupAckSent + 1)
                             else l1.m.(receiverAckSent := l1.m.receiverAckSent + 1))
  {
    hide Login, HandleChatAck, HandleDelivery, Seen, Post, Takes, HandlePacket;
    PacketIs(cfg, x, l, p);
    SeenCounts(l, p);
    DeliveryUnfolds(cfg, Hear(l, p), p);
  }

  lemma DeliveryUnfolds(cfg: Config, l: Local, p: Packet)
    requires p.Delivery?
    ensures var l' := HandleDelivery(cfg, l, p.group, p.seq_, p.parsed, p.messageId, p.to);
            var l1 := Seen(l, p.group, p.messageId);
            var body := DeliveryAckBody(p.group, p.messageId);
            if !Takes(l.c.uid, p) then l' == l.(m := l.m.(protocolErrors := l.m.protocolErrors + 1))
            else if CanQueue(cfg, l1.c, body) then
              l' == Local(Post(cfg, l1.c, body, p.seq_),
                          if p.group then l1.m.(groupAckSent := l1.m.groupAckSent + 1)
                          else l1.m.(receiverAckSent := l1.m.receiverAckSent + 1))
            else l1.c.fd >= 0 && l1.c.state != Closed ==> l' == l1.(m := l1.m.(protocolErrors := l1.m.protocolErrors + 2))
  {
    hide Seen, Push;
  }

  lemma DeliveryKeeps(cfg: Config, x: Ctx, i: nat, l: Local, p: Packet)
    requires cfg.Valid() && ConnInv(cfg, i, l.c) && AtRest(l.c) && Tracked(cfg, x, l.c) && p.Delivery?
    requires l.c.state == LoginPending || l.c.state == Online
    ensures Keeps(cfg, x, i, l, HandlePacket(cfg, x, l, p))
    ensures HandlePacket(cfg, x, l, p).c.state == l.c.state
  {
    hide Store, Drift, HandlePacket, Push, Seen, Takes;
    DeliveryIs(cfg, x, l, p);
    if Takes(l.c.uid, p) {
      TakenKeeps(cfg, i, l.c, p);
      TakenBalanced(cfg, x, l, p);
    } else {
      HearKeeps(cfg, i, l.c, p);
      NotTakenIsOther(l.c.uid, p);
      HearBalanced(cfg, l, p);
      CountersKeep(Hear(l, p), HandlePacket(cfg, x, l, p).m);
    }
  }

  lemma NotTakenIsOther(uid: nat, p: Packet)
    requires p.Delivery? && !Takes(uid, p)
    ensures SoundOf(uid, p) == Other
  {
  }

  lemma TakenBalanced(cfg: Config, x: Ctx, l: Local, p: Packet)
    requires cfg.Valid() && l.c.fd >= 0 && l.c.state != Closed && p.Delivery? && Takes(l.c.uid, p)
    ensures var l' := HandlePacket(cfg, x, l, p);
            l'.c == Taken(cfg, l.c, p) && Balanced(l, l') && Quiet(l.m, l'.m)
  {
    hide HandlePacket, Drift, Post, Seen, Noticed;
    DeliveryIs(cfg, x, l, p);
    NoticedBalanced(cfg, l, p);
    var l1 := Seen(Hear(l, p), p.group, p.messageId);
    AckPosted(cfg, l1, p.group, p.messageId, p.seq_);
    CountersKeep(l1, l1.m.(protocolErrors := l1.m.protocolErrors + 2));
  }

  /** Any other packet is noted, and then handled as if it were already noted. */
  lemma PacketIs(cfg: Config, x: Ctx, l: Local, p: Packet)
    requires cfg.Valid()
    ensures var l', l1 := HandlePacket(cfg, x, l, p), Hear(l, p);
            match p
            case LoginResponse(success, userId, walk) => l' == Login(cfg, x, l1, success, userId, walk)
            case ChatAck(seq_, ack) => l' == HandleChatAck(l1, seq_, ack)
            case Delivery(group, seq_, parsed, messageId, to) =>
              l' == HandleDelivery(cfg, l1, group, seq_, parsed, messageId, to)
            case _ => l' == l1.(m := l.m.(protocolErrors := l'.m.protocolErrors,
                                          heartbeatAck := l.m.heartbeatAck + One(p == HeartbeatReply(true)),
                                          serverErrors := l.m.serverErrors + One(p.ServerError?)))
  {
    hide Login, HandleChatAck, HandleDelivery;
  }

  lemma PacketKeeps(cfg: Config, x: Ctx, i: nat, l: Local, p: Packet)
    requires cfg.Valid() && x.now >= 0
    requires ConnInv(cfg, i, l.c) && AtRest(l.c) && Tracked(cfg, x, l.c)
    requires l.c.state == LoginPending || l.c.state == Online
    ensures Keeps(cfg, x, i, l, HandlePacket(cfg, x, l, p))
    ensures HandlePacket(cfg, x, l, p).c.state != Connecting
  {
    hide Store, Drift, Login, HandleDelivery, HandleChatAck, HandlePacket;
    if p.Delivery? {
      DeliveryKeeps(cfg, x, i, l, p);
    } else {
      PacketIs(cfg, x, l, p);
      HearKeeps(cfg, i, l.c, p);
      if p.LoginResponse? {
        HearBalanced(cfg, l, p);
        LoginKeeps(cfg, x, i, Hear(l, p), p.success, p.userId, p.walk);
      } else if p.ChatAck? {
        HearBalanced(cfg, l, p);
        AckKeeps(cfg, x, i, Hear(l, p), p.seq_, p.ack);
      } else {
        SignalBalanced(cfg, l, p, HandlePacket(cfg, x, l, p).m);
      }
    }
  }

  lemma QueueShape(cfg: Config, l: Local, body: Body, seq_: nat)
    ensures var c' := Queue(cfg, l, body, seq_).c; c' == l.c.(out := c'.out, trace := c'.trace)
  {
  }

  lemma {:induction false} PacketsKeep(cfg: Config, x: Ctx, i: nat, l: Local, ps: seq<Packet>)
    requires cfg.Valid() && x.now >= 0
    requires ConnInv(cfg, i, l.c) && AtRest(l.c) && Tracked(cfg, x, l.c)
    requires l.c.state != Connecting || ps == []
    ensures Keeps(cfg, x, i, l, HandlePackets(cfg, x, l, ps))
    decreases |ps|
  {
    hide HandlePacket, Store, Drift;
    if ps != [] && l.c.fd >= 0 {
      var l1 := HandlePacket(cfg, x, l, ps[0]);
      PacketKeeps(cfg, x, i, l, ps[0]);
      PacketsKeep(cfg, x, i, l1, ps[1..]);
    }
  }

  lemma ReadKeeps(cfg: Config, x: Ctx, i: nat, l: Local, r: ReadResult)
    requires cfg.Valid() && x.now >= 0 && l.c.fd >= 0
    requires ConnInv(cfg, i, l.c) && AtRest(l.c) && Tracked(cfg, x, l.c)
    requires l.c.state == Connecting ==> r.PeerGone? || r.packets == []
    ensures Keeps(cfg, x, i, l, Read(cfg, x, l, r))
  {
    hide HandlePackets, Store, Drift, Close;
    match r
    case PeerGone => CloseKeeps(cfg, x, i, l, x.testStarted);
    case Received(ps, corrupt) =>
      var l1 := HandlePackets(cfg, x, l, ps);
      var l2 := l1.(m := l1.m.(protocolErrors := l1.m.protocolErrors + 1));
      PacketsKeep(cfg, x, i, l, ps);
      CountersKeep(l1, l2.m);
      CloseKeeps(cfg, x, i, l2, x.testStarted);
  }

  lemma FlushKeeps(cfg: Config, x: Ctx, i: nat, l: Local, sends: seq<SendResult>)
    requires cfg.Valid() && x.now >= 0 && l.c.fd >= 0
    requires ConnInv(cfg, i, l.c) && AtRest(l.c) && Tracked(cfg, x, l.c)
    ensures Keeps(cfg, x, i, l, FlushOut(cfg, x, l, sends))
    ensures FlushOut(cfg, x, l, sends).c.state in {l.c.state, Closed}
  {
    hide ConnInv, Tracked, Drift, Close, Flush;
    var l1 := l.(c := l.c.(out := Flush(l.c.out, sends).0));
    DrainedKeeps(cfg, x, i, l, sends);
    if Flush(l.c.out, sends).1 { CloseKeeps(cfg, x, i, l1, x.testStarted); }
  }

  lemma DrainedKeeps(cfg: Config, x: Ctx, i: nat, l: Local, sends: seq<SendResult>)
    requires ConnInv(cfg, i, l.c) && Tracked(cfg, x, l.c)
    ensures var l1 := l.(c := l.c.(out := Flush(l.c.out, sends).0));
            && ConnInv(cfg, i, l1.c) && Balanced(l, l1) && Tracked(cfg, x, l1.c)
            && (if x.testStarted then true else !l1.c.countedDisconnect)
  {
    StoreIsFaithful(cfg, i, l.c);
    hide ConnInv, Drift, Flush, Faithful;
    FlushFaithful(l.c.out, sends);
    OutKeeps(cfg, i, l, Flush(l.c.out, sends).0);
  }

  lemma ConnectFailureKeeps(cfg: Config, x: Ctx, i: nat, l: Local)
    requires cfg.Valid() && x.now >= 0
    requires ConnInv(cfg, i, l.c) && Tracked(cfg, x, l.c) && l.c.state == Connecting
    ensures Keeps(cfg, x, i, l, HandleConnectFailure(cfg, x, l))
  {
    hide Store, Drift, ConnectFailed;
    ConnectFailedKeeps(cfg, x, i, l, l.c.recoveryPending && l.c.everOnline);
  }

  /** No data arrives on a socket whose connect has not completed. */
  predicate Plausible(c: Conn, e: Ready) {
    c.state == Connecting && !e.writable ==> e.read.PeerGone? || e.read.packets == []
  }

  /** While a socket is connecting, the recovery flags still say how it was opened. */
  lemma DialerKnown(cfg: Config, i: nat, c: Conn)
    requires ConnInv(cfg, i, c) && (c.state == Connecting || c.state == LoginPending)
    ensures (c.recoveryPending && c.everOnline) == c.recoveryPending == c.redial
  {
  }

  lemma KeepsThen(cfg: Config, x: Ctx, i: nat, l: Local, l1: Local, l2: Local)
    requires Keeps(cfg, x, i, l, l1) && Keeps(cfg, x, i, l1, l2)
    ensures Keeps(cfg, x, i, l, l2)
  {
    hide ConnInv, Tracked, Drift;
  }

  lemma KeepsGives(cfg: Config, x: Ctx, i: nat, l: Local, l': Local)
    requires Keeps(cfg, x, i, l, l')
    ensures Good(cfg, x, i, l'.c)
  {
  }

  lemma NothingKeeps(cfg: Config, x: Ctx, i: nat, l: Local)
    requires ConnInv(cfg, i, l.c) && AtRest(l.c) && Tracked(cfg, x, l.c)
    ensures Keeps(cfg, x, i, l, l)
  {
    hide ConnInv, Tracked, Drift;
  }

  ghost predicate Good(cfg: Config, x: Ctx, i: nat, c: Conn) {
    ConnInv(cfg, i, c) && AtRest(c) && Tracked(cfg, x, c)
  }

  lemma OnConnectedKeeps(cfg: Config, x: Ctx, i: nat, l: Local, e: Ready)
    requires cfg.Valid() && x.now >= 0 && Good(cfg, x, i, l.c)
    ensures Keeps(cfg, x, i, l, OnConnected(cfg, x, l, e))
    ensures e.writable ==> OnConnected(cfg, x, l, e).c.state != Connecting
  {
    var reconnect := l.c.recoveryPending && l.c.everOnline;
    if l.c.state == Connecting { DialerKnown(cfg, i, l.c); }
    hide ConnInv, Tracked, Drift, Connected;
    if e.writable && l.c.state == Connecting {
      ConnectedKeeps(cfg, x, i, l, reconnect);
      ConnectedLeaves(cfg, x, l, reconnect);
    } else {
      NothingKeeps(cfg, x, i, l);
    }
  }

  lemma OnWritableKeeps(cfg: Config, x: Ctx, i: nat, l: Local, e: Ready)
    requires cfg.Valid() && x.now >= 0 && Good(cfg, x, i, l.c)
    ensures Keeps(cfg, x, i, l, OnWritable(cfg, x, l, e))
    ensures OnWritable(cfg, x, l, e).c.state in {l.c.state, Closed}
  {
    hide ConnInv, Tracked, Drift, FlushOut;
    if e.writable && l.c.fd >= 0 { FlushKeeps(cfg, x, i, l, e.sends); } else { NothingKeeps(cfg, x, i, l); }
  }

  lemma OnReadableKeeps(cfg: Config, x: Ctx, i: nat, l: Local, e: Ready)
    requires cfg.Valid() && x.now >= 0 && Good(cfg, x, i, l.c)
    requires l.c.state == Connecting ==> e.read.PeerGone? || e.read.packets == []
    ensures Keeps(cfg, x, i, l, OnReadable(cfg, x, l, e))
  {
    hide ConnInv, Tracked, Drift, Read;
    if e.readable && l.c.fd >= 0 { ReadKeeps(cfg, x, i, l, e.read); } else { NothingKeeps(cfg, x, i, l); }
  }

  lemma OnHangupKeeps(cfg: Config, x: Ctx, i: nat, l: Local, e: Ready)
    requires cfg.Valid() && x.now >= 0 && Good(cfg, x, i, l.c)
    ensures Keeps(cfg, x, i, l, OnHangup(cfg, x, l, e))
  {
    hide ConnInv, Drift, Close;
    if e.hangup && l.c.fd >= 0 { CloseKeeps(cfg, x, i, l, x.testStarted); } else { NothingKeeps(cfg, x, i, l); }
  }

  /** One readiness notification, whatever it reports, keeps a connection in order. */
  lemma EventKeeps(cfg: Config, x: Ctx, i: nat, l: Local, e: Ready)
    requires cfg.Valid() && x.now >= 0 && Plausible(l.c, e)
    requires Good(cfg, x, i, l.c)
    ensures Keeps(cfg, x, i, l, HandleEvent(cfg, x, l, e))
  {
    if l.c.fd < 0 {
      NothingKeeps(cfg, x, i, l);
    } else if e.writable && l.c.state == Connecting && e.connectError {
      ConnectFailureKeeps(cfg, x, i, l);
    } else {
      hide Good, Keeps, HandleEvent;
      StagesKeep(cfg, x, i, l, e);
    }
  }

  lemma StagesKeep(cfg: Config, x: Ctx, i: nat, l: Local, e: Ready)
    requires cfg.Valid() && x.now >= 0 && Plausible(l.c, e) && Good(cfg, x, i, l.c)
    requires l.c.fd >= 0 && !(e.writable && l.c.state == Connecting && e.connectError)
    ensures Keeps(cfg, x, i, l, HandleEvent(cfg, x, l, e))
  {
    hide Good, Keeps, OnConnected, OnWritable, OnReadable, OnHangup, HandleConnectFailure;
    var l1 := OnConnected(cfg, x, l, e);
    var l2 := OnWritable(cfg, x, l1, e);
    var l3 := OnReadable(cfg, x, l2, e);
    OnConnectedKeeps(cfg, x, i, l, e);
    KeepsGives(cfg, x, i, l, l1);
    UnlessConnected(cfg, x, l, e);
    OnWritableKeeps(cfg, x, i, l1, e);
    KeepsGives(cfg, x, i, l1, l2);
    KeepsThen(cfg, x, i, l, l1, l2);
    OnReadableKeeps(cfg, x, i, l2, e);
    KeepsGives(cfg, x, i, l2, l3);
    KeepsThen(cfg, x, i, l, l2, l3);
    OnHangupKeeps(cfg, x, i, l3, e);
    KeepsThen(cfg, x, i, l, l3, OnHangup(cfg, x, l3, e));
  }

  lemma UnlessConnected(cfg: Config, x: Ctx, l: Local, e: Ready)
    requires cfg.Valid()
    ensures !e.writable ==> OnConnected(cfg, x, l, e) == l
  {
  }

  lemma ConnectedLeaves(cfg: Config, x: Ctx, l: Local, reconnect: bool)
    requires cfg.Valid()
    ensures Connected(cfg, x, l, reconnect).c.state != Connecting
  {
    hide Close, Queue, CanQueue;
    var l1 := BeginLogin(l, reconnect);
    var l2 := l1.(c := Draw(l1.c));
    var l3 := Queue(cfg, l2, LoginBody(l1.c.uid), DrawnSeq(l1.c.seq_));
    QueueShape(cfg, l2, LoginBody(l1.c.uid), DrawnSeq(l1.c.seq_));
    CloseState(cfg, x, LoginNotSent(l3, reconnect), reconnect);
  }

  lemma CloseState(cfg: Config, x: Ctx, l: Local, count: bool)
    requires cfg.Valid()
    ensures var c' := Close(cfg, x, l, count).c; if l.c.fd < 0 then c' == l.c else c'.state == Closed && c'.fd < 0
  {
    hide CloseDown, ScheduleReconnect;
    CloseDownIs(cfg, l, count);
    SchedulePlace(cfg, x, CloseDown(cfg, l, count));
  }

  lemma SchedulePlace(cfg: Config, x: Ctx, l: Local)
    requires cfg.Valid()
    ensures var c' := ScheduleReconnect(cfg, x, l).c; c'.state == l.c.state && c'.fd == l.c.fd
  {
    hide ReconnectAt;
    if cfg.reconnect && l.c.everOnline && !x.draining && l.c.attemptNo < cfg.maxAttempts {
      assert ScheduleReconnect(cfg, x, l).c == l.c.(recoveryPending := true, nextReconnect := ReconnectAt(cfg, x, l.c));
    }
  }

  // ---- handlers: sending ---------------------------------------------------------------------

  lemma HeartbeatKeeps(cfg: Config, x: Ctx, i: nat, l: Local)
    requires ConnInv(cfg, i, l.c) && AtRest(l.c) && Tracked(cfg, x, l.c)
    ensures Keeps(cfg, x, i, l, Heartbeat(cfg, x, l))
  {
    hide Store, Drift;
    var l' := Heartbeat(cfg, x, l);
    if l.c.state == Online && x.now >= l.c.nextHeartbeat {
      DrawKeeps(cfg, i, l);
      var l1 := l.(c := Draw(l.c));
      LatestAfterDraw(cfg, i, l.c);
      BeatKeeps(cfg, i, l1, DrawnSeq(l.c.seq_), x.now + cfg.heartbeat);
    }
  }

  lemma BeatKeeps(cfg: Config, i: nat, l: Local, seq_: nat, at: int)
    requires ConnInv(cfg, i, l.c) && l.c.state == Online && AtRest(l.c)
    requires LatestNumber(l.c.draws, l.c.trace.packets, seq_)
    ensures var l1 := Queue(cfg, l, HeartbeatBody, seq_);
            var l' := Local(l1.c.(nextHeartbeat := at),
                            l1.m.(heartbeatSent := l1.m.heartbeatSent + One(CanQueue(cfg, l.c, HeartbeatBody))));
            && ConnInv(cfg, i, l'.c) && Balanced(l, l') && Quiet(l.m, l'.m) && AtRest(l'.c)
            && l'.c == l.c.(out := l'.c.out, trace := l'.c.trace, nextHeartbeat := at)
  {
    hide Store, Drift, Queue, Push, Life, LatestNumber;
    QueueIs(cfg, l, HeartbeatBody, seq_);
    var l1 := Queue(cfg, l, HeartbeatBody, seq_);
    if CanQueue(cfg, l.c, HeartbeatBody) {
      PostKeeps(cfg, i, l.c, HeartbeatBody, seq_);
      BeatPosted(cfg, l, seq_);
      HeartbeatTimerKeeps(cfg, i, l1.(m := l1.m.(heartbeatSent := l1.m.heartbeatSent + 1)), at);
    } else {
      CountersKeep(l, l1.m);
      HeartbeatTimerKeeps(cfg, i, l1, at);
    }
  }

  lemma BeatPosted(cfg: Config, l: Local, seq_: nat)
    ensures Balanced(l, Local(Post(cfg, l.c, HeartbeatBody, seq_), l.m.(heartbeatSent := l.m.heartbeatSent + 1)))
  {
    hide Owed, Post;
    PostOwed(cfg, l.c, HeartbeatBody, seq_);
  }

  lemma HeartbeatTimerKeeps(cfg: Config, i: nat, l: Local, at: int)
    requires ConnInv(cfg, i, l.c)
    ensures ConnInv(cfg, i, l.c.(nextHeartbeat := at)) && Balanced(l, l.(c := l.c.(nextHeartbeat := at)))
  {
    hide Store;
    StoreUntouched(cfg, i, l.c, l.c.(nextHeartbeat := at));
  }

  lemma GrowIds(cfg: Config, uid: nat, logical: nat, pending: map<nat, Pending>, retry: map<string, Pending>, resolved: seq<string>)
    requires Ids(cfg, uid, logical, pending, retry, resolved)
    ensures Ids(cfg, uid, logical + 1, pending, retry, resolved)
    ensures forall s :: s in pending ==> pending[s].clientId != ClientId(cfg.runId, uid, logical + 1)
    ensures ClientId(cfg.runId, uid, logical + 1) !in resolved
    ensures Issued(cfg, uid, logical + 1, ClientId(cfg.runId, uid, logical + 1))
  {
    NewIdIsNew(cfg, uid, logical);
    forall id | Issued(cfg, uid, logical, id)
      ensures Issued(cfg, uid, logical + 1, id)
    {
      IssuedLater(cfg, uid, logical, id);
    }
    hide Issued, ClientId;
  }

  lemma GrowRepeats(cfg: Config, uid: nat, logical: nat, queued: multiset<string>, most: nat)
    requires Repeats(cfg, uid, logical, queued, most)
    ensures Repeats(cfg, uid, logical + 1, queued, most)
    ensures queued[ClientId(cfg.runId, uid, logical + 1)] == 0
  {
    NewIdIsNew(cfg, uid, logical);
    forall id | Issued(cfg, uid, logical, id)
      ensures Issued(cfg, uid, logical + 1, id)
    {
      IssuedLater(cfg, uid, logical, id);
    }
    hide Issued, ClientId;
  }

  /** A logical send takes a number: its id is new to this connection. */
  lemma NumberKeeps(cfg: Config, i: nat, l: Local)
    requires ConnInv(cfg, i, l.c) && l.c.fd >= 0
    ensures var c1 := l.c.(logical := l.c.logical + 1);
            && ConnInv(cfg, i, c1) && Balanced(l, l.(c := c1))
            && Issued(cfg, cfg.UserId(i), c1.logical, NewId(cfg, l.c))
            && NewId(cfg, l.c) !in c1.resolved && c1.queued[NewId(cfg, l.c)] == 0
            && forall s :: s in c1.pending ==> c1.pending[s].clientId != NewId(cfg, l.c)
  {
    hide ClientId, Ids, Repeats, Issued, Faithful, Sequenced, Drift, Traced, Numbered;
    TracedAlike(cfg, i, l.c, l.c.(logical := l.c.logical + 1));
    GrowIds(cfg, cfg.UserId(i), l.c.logical, l.c.pending, l.c.retryPending, l.c.resolved);
    GrowRepeats(cfg, cfg.UserId(i), l.c.logical, l.c.queued, Budget(l.c));
    NumberBalanced(l);
  }

  lemma NumberBalanced(l: Local)
    ensures Balanced(l, l.(c := l.c.(logical := l.c.logical + 1)))
  {
  }

  lemma RefuseIds(cfg: Config, uid: nat, logical: nat, pending: map<nat, Pending>, resolved: seq<string>, id: string)
    requires Ids(cfg, uid, logical, pending, map[], resolved)
    requires Issued(cfg, uid, logical, id) && id !in resolved
    requires forall s :: s in pending ==> pending[s].clientId != id
    ensures Ids(cfg, uid, logical, pending, map[], resolved + [id])
  {
    hide Issued;
  }

  lemma RefuseKeeps(cfg: Config, i: nat, l: Local, id: string)
    requires ConnInv(cfg, i, l.c) && l.c.state == Online
    requires Issued(cfg, cfg.UserId(i), l.c.logical, id) && id !in l.c.resolved
    requires forall s :: s in l.c.pending ==> l.c.pending[s].clientId != id
    ensures ConnInv(cfg, i, RefusedSend(l, id).c) && Balanced(l, RefusedSend(l, id))
  {
    hide Drift, Store, Issued;
    RefuseStore(cfg, i, l, id);
    RefuseBalanced(l, id);
  }

  lemma RefuseStore(cfg: Config, i: nat, l: Local, id: string)
    requires Store(cfg, i, l.c) && l.c.retryPending == map[] && l.c.uid == cfg.UserId(i) && l.c.peer == Peer(cfg, i)
    requires Issued(cfg, cfg.UserId(i), l.c.logical, id) && id !in l.c.resolved
    requires forall s :: s in l.c.pending ==> l.c.pending[s].clientId != id
    ensures Store(cfg, i, RefusedSend(l, id).c)
  {
    hide Ids, Issued, Faithful, Sequenced, Traced, Repeats, Numbered, Config.UserId, Peer;
    RefuseIds(cfg, cfg.UserId(i), l.c.logical, l.c.pending, l.c.resolved, id);
    RefuseTraced(cfg, i, l, id);
  }

  lemma RefuseTraced(cfg: Config, i: nat, l: Local, id: string)
    requires Traced(cfg, i, l.c) && l.c.uid == cfg.UserId(i) && l.c.peer == Peer(cfg, i)
    ensures Traced(cfg, i, RefusedSend(l, id).c)
  {
    hide Addressed, Heeded;
    var o := Outcome(id, l.c.uid, l.c.peer, None);
    EndAddressed(cfg.UserId(i), Peer(cfg, i), l.c.trace, l.c.retryPending, l.c.resolved, o);
    HeededAlike(cfg, cfg.UserId(i), l.c.trace, l.c.trace.Ended(o), l.c.seenDeliveries);
  }

  lemma RefuseBalanced(l: Local, id: string)
    ensures Balanced(l, RefusedSend(l, id))
  {
    OneOutcomeMore(l.c.trace.outcomes, Outcome(id, l.c.uid, l.c.peer, None));
  }

  lemma AcceptBalanced(cfg: Config, l: Local, item: Pending)
    ensures Balanced(l, Local(Landed(cfg, l.c, item), l.m.(sendAttempts := l.m.sendAttempts + 1)))
  {
    LandedOwed(cfg, l.c, item);
    hide Owed, Landed;
  }

  lemma AcceptKeeps(cfg: Config, i: nat, l: Local, item: Pending)
    requires ConnInv(cfg, i, l.c) && l.c.state == Online && Fresh(cfg, i, l.c, [item])
    requires |l.c.pending| < cfg.maxOutstanding
    ensures var l' := Local(Landed(cfg, l.c, item), l.m.(sendAttempts := l.m.sendAttempts + 1));
            ConnInv(cfg, i, l'.c) && Balanced(l, l')
  {
    hide Store, Drift, Fresh, Issued, Push;
    InsertStore(cfg, i, l.c, item);
    AcceptBalanced(cfg, l, item);
  }

  /** The three outcomes of a send: no usable id, refused by the codec, or in flight. */
  lemma SendOutcome(cfg: Config, x: Ctx, l: Local)
    ensures var id := NewId(cfg, l.c);
            var l1 := l.(c := l.c.(logical := l.c.logical + 1));
            var l2 := l1.(c := Draw(l1.c));
            var body := ChatBody(id, l.c.peer);
            var l' := SendOne(cfg, x, l);
            if |id| > 64 then l' == l2.(m := l2.m.(protocolErrors := l2.m.protocolErrors + 1))
            else if !CanQueue(cfg, l2.c, body) then
              l' == RefusedSend(l2.(m := l2.m.(protocolErrors := l'.m.protocolErrors)), id)
            else
              l' == Local(Landed(cfg, l1.c, Pending(id, l.c.peer, x.now)), l.m.(sendAttempts := l.m.sendAttempts + 1))
  {
    hide Queue, Post, CanQueue, NewId, DrawnSeq, Launch, Draw, SendOne;
    var c1 := Draw(l.c.(logical := l.c.logical + 1));
    NumberThenDraw(l.c);
    SendUnfolds(cfg, x, l, c1);
    QueueIs(cfg, Local(c1, l.m), ChatBody(NewId(cfg, l.c), l.c.peer), DrawnSeq(l.c.seq_));
  }

  lemma NumberThenDraw(c: Conn)
    ensures Draw(c).(logical := c.logical + 1) == Draw(c.(logical := c.logical + 1))
    ensures Draw(c.(logical := c.logical + 1)).peer == c.peer && Draw(c.(logical := c.logical + 1)).uid == c.uid
  {
  }

  lemma SendUnfolds(cfg: Config, x: Ctx, l: Local, c1: Conn)
    requires c1 == Draw(l.c).(logical := l.c.logical + 1) && c1.peer == l.c.peer
    ensures var id, seq_ := NewId(cfg, l.c), DrawnSeq(l.c.seq_);
            var l2 := Queue(cfg, Local(c1, l.m), ChatBody(id, l.c.peer), seq_);
            SendOne(cfg, x, l) ==
              if |id| > 64 then Local(c1, l.m.(protocolErrors := l.m.protocolErrors + 1))
              else if !CanQueue(cfg, c1, ChatBody(id, l.c.peer)) then RefusedSend(l2, id)
              else
                Local(Launch(l2.c, seq_, Pending(id, l.c.peer, x.now)), l2.m.(sendAttempts := l2.m.sendAttempts + 1))
  {
    hide Queue, CanQueue, NewId, DrawnSeq, Launch, Draw, RefusedSend;
  }

  /** A send puts one new message in flight, or settles it at once because it was refused. */
  lemma SendKeeps(cfg: Config, x: Ctx, i: nat, l: Local)
    requires ConnInv(cfg, i, l.c) && AtRest(l.c) && Tracked(cfg, x, l.c) && CanSend(cfg, l.c)
    ensures InOrder(cfg, x, i, l, SendOne(cfg, x, l))
    ensures SendOne(cfg, x, l).m.sendAttempts <= l.m.sendAttempts + 1
    ensures SendOne(cfg, x, l).m.reconnectAttempts == l.m.reconnectAttempts
  {
    hide Store, Drift, Push, NewId, Issued, SendOne;
    var id := NewId(cfg, l.c);
    var l1 := l.(c := l.c.(logical := l.c.logical + 1));
    var l2 := l1.(c := Draw(l1.c));
    var body := ChatBody(id, l.c.peer);
    SendOutcome(cfg, x, l);
    NumberKeeps(cfg, i, l);
    DrawKeeps(cfg, i, l1);
    var l3 := l2.(m := l2.m.(protocolErrors := SendOne(cfg, x, l).m.protocolErrors));
    CountersKeep(l2, l3.m);
    if |id| <= 64 {
      if CanQueue(cfg, l2.c, body) {
        AcceptKeeps(cfg, i, l1, Pending(id, l.c.peer, x.now));
      } else {
        RefuseKeeps(cfg, i, l3, id);
      }
    }
  }

  lemma StoreIsFaithful(cfg: Config, i: nat, c: Conn)
    requires Store(cfg, i, c)
    ensures Faithful(c.out)
  {
  }
}
