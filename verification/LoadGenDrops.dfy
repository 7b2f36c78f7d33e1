/**
 * Losing a socket while the test runs: whatever takes it away, the client is counted, and its next
 * attempt is set or it is found out of attempts.
 */
module LoadGenDrops {
  import opened Basics
  import opened LoadGenModel
  import opened LoadGenTrace
  import opened LoadGenInvariant
  import opened LoadGenRuns
  import Backoff
  import opened OutputQueue

  /** The next attempt lies ahead by at least a millisecond and at most the capped exponential. */
  ghost predicate PutOff(cfg: Config, now: int, c: Conn) {
    now + MILLI <= c.nextReconnect <= now + MILLI * Backoff.Cap(cfg.baseMs, cfg.maxMs, c.attemptNo)
  }

  /** A client to be recovered, before the drain: its next attempt is put off, or none is left. */
  ghost predicate Rescheduled(cfg: Config, x: Ctx, c: Conn) {
    cfg.reconnect && !x.draining ==>
      c.recoveryPending && if c.attemptNo >= cfg.maxAttempts then c.exhausted == 1 else PutOff(cfg, x.now, c)
  }

  /** What closing a socket during the test amounts to. */
  ghost predicate Lost(cfg: Config, x: Ctx, l: Local, l': Local) {
    && l'.c.countedDisconnect && Rescheduled(cfg, x, l'.c)
    && l'.m.disconnectEvents == l.m.disconnectEvents + 1
  }

  /** A stage of a notification leaves the socket open and nothing counted, or loses it. */
  ghost predicate Stage(cfg: Config, x: Ctx, l: Local, l': Local) {
    if l.c.fd < 0 then l' == l
    else if l'.c.fd < 0 then Lost(cfg, x, l, l')
    else l'.m.disconnectEvents == l.m.disconnectEvents && l'.c.everOnline
  }

  /** A connection of a running test, in order and logged in at least once. */
  ghost predicate Live(cfg: Config, x: Ctx, i: nat, c: Conn) {
    cfg.Valid() && x.now >= 0 && x.testStarted && Good(cfg, x, i, c) && c.everOnline
  }

  lemma StageThen(cfg: Config, x: Ctx, l: Local, l1: Local, l2: Local)
    requires Stage(cfg, x, l, l1) && Stage(cfg, x, l1, l2)
    ensures Stage(cfg, x, l, l2)
  {
    hide Rescheduled;
  }

  lemma CapPositive(base: nat, max: nat, attempt: int)
    requires 0 < base <= max
    ensures Backoff.Cap(base, max, attempt) >= 1
  {
    var e := Min(Max(0, attempt), Backoff.MAX_DOUBLINGS);
    Backoff.PowGrows(2, 0, e);
    Backoff.Grow(Backoff.Pow(2, e), base);
  }

  lemma Reschedules(cfg: Config, x: Ctx, l: Local)
    requires cfg.Valid() && l.c.everOnline && l.c.recoveryPending && l.c.exhausted == 0
    ensures var l' := ScheduleReconnect(cfg, x, l);
            && Rescheduled(cfg, x, l'.c) && l'.m.disconnectEvents == l.m.disconnectEvents
            && l'.c.countedDisconnect == l.c.countedDisconnect && l'.c.fd == l.c.fd
  {
    CapPositive(cfg.baseMs, cfg.maxMs, l.c.attemptNo);
    hide Backoff.Cap, Backoff.Delay;
    var cap := Backoff.Cap(cfg.baseMs, cfg.maxMs, l.c.attemptNo);
    var ms := Backoff.Delay(cfg.baseMs, cfg.maxMs, l.c.attemptNo, cfg.mix(l.c.uid, l.c.attemptNo));
    assert MILLI * 1 <= MILLI * ms <= MILLI * cap;
  }

  lemma CloseDownEvents(cfg: Config, l: Local, count: bool)
    ensures CloseDown(cfg, l, count).m.disconnectEvents == l.m.disconnectEvents + One(count)
  {
    hide Stashed, CountDisconnect, FailOpenLogin;
    var l1 := FailOpenLogin(l.(c := Shut(l.c)));
    DisconnectCounts(l1);
    FailCountsNoEvent(l.(c := Shut(l.c)));
  }

  lemma FailCountsNoEvent(l: Local)
    ensures FailOpenLogin(l).m.disconnectEvents == l.m.disconnectEvents
  {
  }

  lemma CloseLoses(cfg: Config, x: Ctx, i: nat, l: Local)
    requires cfg.Valid() && Life(cfg, i, l.c) && l.c.everOnline && l.c.fd >= 0
    ensures var l' := Close(cfg, x, l, true); l'.c.fd < 0 && Lost(cfg, x, l, l')
  {
    hide Close, CloseDown, ScheduleReconnect, Rescheduled;
    CloseSchedules(cfg, x, i, l, true);
    CloseDownShape(cfg, i, l, true);
    CloseDownEvents(cfg, l, true);
    var l1 := CloseDown(cfg, l, true);
    if cfg.reconnect {
      Reschedules(cfg, x, l1);
    } else {
      NothingToReschedule(cfg, x, l1.c);
    }
  }

  lemma NothingToReschedule(cfg: Config, x: Ctx, c: Conn)
    requires !cfg.reconnect
    ensures Rescheduled(cfg, x, c)
  {
  }

  // ---- the stages of a notification ----------------------------------------------------------

  /** A socket that was opened again and cannot ask to log in is lost. */
  lemma ConnectedStage(cfg: Config, x: Ctx, i: nat, l: Local)
    requires Live(cfg, x, i, l.c) && l.c.state == Connecting
    ensures Stage(cfg, x, l, Connected(cfg, x, l, true))
  {
    LiveHasLife(cfg, x, i, l.c);
    hide Live, Close, Lost, Connected, Config.UserId, Peer, Push;
    var seq_, body := DrawnSeq(l.c.seq_), LoginBody(l.c.uid);
    var l1 := BeginLogin(l, true);
    var l2 := l1.(c := Draw(l1.c));
    ConnectedIs(cfg, x, l);
    hide Draw;
    if !CanQueue(cfg, l2.c, body) {
      var l3 := LoginNotSent(Queue(cfg, l2, body, seq_), true);
      AskingLife(cfg, i, l, l3);
      CloseLoses(cfg, x, i, l3);
      LostBefore(cfg, x, l, l3, Close(cfg, x, l3, true));
    }
  }

  lemma ConnectedIs(cfg: Config, x: Ctx, l: Local)
    requires cfg.Valid() && l.c.fd >= 0
    ensures var l' := Connected(cfg, x, l, true);
            var l1, body := BeginLogin(l, true), LoginBody(l.c.uid);
            var l2 := l1.(c := Draw(l1.c));
            var l3 := Queue(cfg, l2, body, DrawnSeq(l.c.seq_));
            if CanQueue(cfg, l2.c, body) then
              l' == l3 && l'.c.fd == l.c.fd && l'.m == l2.m && l'.c.everOnline == l.c.everOnline
            else
              && l' == Close(cfg, x, LoginNotSent(l3, true), true) && l3.c == l2.c
              && l3.m == l2.m.(protocolErrors := l3.m.protocolErrors)
              && LoginNotSent(l3, true).c == Draw(l.c).(state := LoginPending, loginResolved := true)
  {
    hide Close, Push, DrawnSeq, SeqAfter;
  }

  lemma AskingLife(cfg: Config, i: nat, l: Local, l1: Local)
    requires Life(cfg, i, l.c) && l.c.state == Connecting && l.c.everOnline
    requires l1.c == Draw(l.c).(state := LoginPending, loginResolved := true)
    ensures Life(cfg, i, l1.c) && l1.c.fd >= 0
  {
    hide Config.UserId, Peer, SeqAfter;
  }

  lemma LostBefore(cfg: Config, x: Ctx, l: Local, l1: Local, l': Local)
    requires Lost(cfg, x, l1, l') && l1.m.disconnectEvents == l.m.disconnectEvents
    ensures Lost(cfg, x, l, l')
  {
  }

  lemma OnConnectedStage(cfg: Config, x: Ctx, i: nat, l: Local, e: Ready)
    requires Live(cfg, x, i, l.c)
    ensures Stage(cfg, x, l, OnConnected(cfg, x, l, e))
  {
    if l.c.state == Connecting { DialerKnown(cfg, i, l.c); LiveRedials(cfg, x, i, l.c); }
    hide Live, Connected, Lost;
    if e.writable && l.c.state == Connecting { ConnectedStage(cfg, x, i, l); } else { Untouched(cfg, x, i, l); }
  }

  lemma LiveRedials(cfg: Config, x: Ctx, i: nat, c: Conn)
    requires Live(cfg, x, i, c) && Opening(c)
    ensures c.recoveryPending && c.countedDisconnect
  {
  }

  lemma Untouched(cfg: Config, x: Ctx, i: nat, l: Local)
    requires Live(cfg, x, i, l.c)
    ensures Stage(cfg, x, l, l)
  {
  }

  lemma LiveHasLife(cfg: Config, x: Ctx, i: nat, c: Conn)
    requires Live(cfg, x, i, c)
    ensures cfg.Valid() && x.testStarted && Life(cfg, i, c) && c.everOnline
  {
  }

  lemma CloseStage(cfg: Config, x: Ctx, i: nat, l: Local, l1: Local)
    requires Live(cfg, x, i, l.c) && l.c.fd >= 0
    requires l1 == Local(l.c.(out := l1.c.out), l.m.(protocolErrors := l1.m.protocolErrors))
    ensures Stage(cfg, x, l, Close(cfg, x, l1, x.testStarted))
  {
    LiveHasLife(cfg, x, i, l.c);
    hide Live, Close, Lost;
    LifeAnyQueue(cfg, i, l.c, l1.c);
    CloseLoses(cfg, x, i, l1);
    LostBefore(cfg, x, l, l1, Close(cfg, x, l1, true));
  }

  lemma LifeAnyQueue(cfg: Config, i: nat, c: Conn, c': Conn)
    requires Life(cfg, i, c) && c' == c.(out := c'.out)
    ensures Life(cfg, i, c')
  {
  }

  lemma OnWritableStage(cfg: Config, x: Ctx, i: nat, l: Local, e: Ready)
    requires Live(cfg, x, i, l.c)
    ensures Stage(cfg, x, l, OnWritable(cfg, x, l, e))
  {
    LiveHasLife(cfg, x, i, l.c);
    hide Live, Close, Lost, Life, Flush;
    if e.writable && l.c.fd >= 0 {
      CloseStage(cfg, x, i, l, l.(c := l.c.(out := Flush(l.c.out, e.sends).0)));
    } else {
      Untouched(cfg, x, i, l);
    }
  }

  lemma OnHangupStage(cfg: Config, x: Ctx, i: nat, l: Local, e: Ready)
    requires Live(cfg, x, i, l.c)
    ensures Stage(cfg, x, l, OnHangup(cfg, x, l, e))
  {
    LiveHasLife(cfg, x, i, l.c);
    hide Live, Close, Lost, Life;
    if e.hangup && l.c.fd >= 0 { CloseStage(cfg, x, i, l, l); } else { Untouched(cfg, x, i, l); }
  }

  // ---- packets -------------------------------------------------------------------------------

  lemma {:induction false} ReplayCountsNoEvent(cfg: Config, l: Local, items: seq<Pending>)
    ensures var l' := Replay(cfg, l, items);
            l'.m.disconnectEvents == l.m.disconnectEvents && l'.c.fd == l.c.fd && l'.c.everOnline == l.c.everOnline
    decreases |items|
  {
    if items != [] {
      hide ReplayOne;
      ReplayOneCountsNoEvent(cfg, l, items[0]);
      ReplayCountsNoEvent(cfg, ReplayOne(cfg, l, items[0]), items[1..]);
    }
  }

  lemma ReplayOneCountsNoEvent(cfg: Config, l: Local, item: Pending)
    ensures var l' := ReplayOne(cfg, l, item);
            l'.m.disconnectEvents == l.m.disconnectEvents && l'.c.fd == l.c.fd && l'.c.everOnline == l.c.everOnline
  {
    hide DrawnSeq, SeqAfter, Emplace;
  }

  lemma LoginStage(cfg: Config, x: Ctx, i: nat, l: Local, success: bool, userId: nat, order: seq<string>)
    requires Live(cfg, x, i, l.c) && (l.c.state == LoginPending || l.c.state == Online)
    ensures Stage(cfg, x, l, Login(cfg, x, l, success, userId, order))
  {
    LiveHasLife(cfg, x, i, l.c);
    if l.c.state == LoginPending { LiveRedials(cfg, x, i, l.c); }
    hide Live, Close, Login, Lost, Replay, Items, WalkOrder, Config.UserId, Peer;
    if l.c.loginResolved {
      LoginIgnored(cfg, x, l, success, userId, order);
    } else if !(success && userId == l.c.uid) {
      LoginRefusedUnfolds(cfg, x, l, success, userId, order);
      CloseLoses(cfg, x, i, LoginRefused(l));
      LostBefore(cfg, x, l, LoginRefused(l), Close(cfg, x, LoginRefused(l), true));
    } else {
      RecoveryLoginUnfolds(cfg, x, l, order);
      ReplayCountsNoEvent(cfg, Resumed(l, x.now + cfg.heartbeat),
                          Items(l.c.retryPending, WalkOrder(l.c.retryPending.Keys, order)));
    }
  }

  lemma DeliveryCountsNoEvent(cfg: Config, x: Ctx, l: Local, p: Packet)
    requires cfg.Valid() && p.Delivery? && l.c.fd >= 0 && l.c.state != Closed
    ensures var l' := HandlePacket(cfg, x, l, p);
            l'.m.disconnectEvents == l.m.disconnectEvents && l'.c.fd == l.c.fd && l'.c.everOnline == l.c.everOnline
  {
    hide HandlePacket, Takes, Seen;
    DeliveryIs(cfg, x, l, p);
    SeenCounts(l, p);
  }

  lemma PacketStage(cfg: Config, x: Ctx, i: nat, l: Local, p: Packet)
    requires Live(cfg, x, i, l.c) && (l.c.state == LoginPending || l.c.state == Online)
    ensures Stage(cfg, x, l, HandlePacket(cfg, x, l, p))
  {
    LiveHasLife(cfg, x, i, l.c);
    var l1 := Hear(l, p);
    if !p.Delivery? { HearsAlive(cfg, x, i, l, p); }
    hide Live, HandlePacket, Login, HandleChatAck, Lost, Life, HandleDelivery;
    PacketIs(cfg, x, l, p);
    if p.Delivery? {
      DeliveryCountsNoEvent(cfg, x, l, p);
    } else if p.LoginResponse? {
      LoginStage(cfg, x, i, l1, p.success, p.userId, p.walk);
      HeardStage(cfg, x, l, p, HandlePacket(cfg, x, l, p));
    } else if p.ChatAck? {
      AnswerCounts(l1, p.seq_, p.ack);
    }
  }

  lemma HearsAlive(cfg: Config, x: Ctx, i: nat, l: Local, p: Packet)
    requires Live(cfg, x, i, l.c) && l.c.fd >= 0 && !p.Delivery?
    ensures Live(cfg, x, i, Hear(l, p).c)
  {
    hide ConnInv;
    HearKeeps(cfg, i, l.c, p);
  }

  lemma HeardStage(cfg: Config, x: Ctx, l: Local, p: Packet, l': Local)
    requires Stage(cfg, x, Hear(l, p), l') && l.c.fd >= 0
    ensures Stage(cfg, x, l, l')
  {
    hide Rescheduled;
  }

  lemma {:induction false} PacketsStage(cfg: Config, x: Ctx, i: nat, l: Local, ps: seq<Packet>)
    requires Live(cfg, x, i, l.c) && (l.c.state != Connecting || ps == [])
    ensures Stage(cfg, x, l, HandlePackets(cfg, x, l, ps))
    decreases |ps|
  {
    if ps == [] || l.c.fd < 0 {
      Untouched(cfg, x, i, l);
    } else {
      var l1 := HandlePacket(cfg, x, l, ps[0]);
      PacketLeavesLive(cfg, x, i, l, ps[0]);
      hide Live, HandlePacket, Stage;
      PacketsStage(cfg, x, i, l1, ps[1..]);
      StageThen(cfg, x, l, l1, HandlePackets(cfg, x, l1, ps[1..]));
    }
  }

  lemma PacketLeavesLive(cfg: Config, x: Ctx, i: nat, l: Local, p: Packet)
    requires Live(cfg, x, i, l.c) && l.c.fd >= 0 && l.c.state != Connecting
    ensures var l1 := HandlePacket(cfg, x, l, p);
            Stage(cfg, x, l, l1) && Live(cfg, x, i, l1.c) && l1.c.state != Connecting
  {
    LiveHasLife(cfg, x, i, l.c);
    hide HandlePacket, Store, Drift, Stage;
    PacketKeeps(cfg, x, i, l, p);
    PacketStage(cfg, x, i, l, p);
  }

  lemma ReceivedStage(cfg: Config, x: Ctx, i: nat, l: Local, ps: seq<Packet>, corrupt: bool)
    requires Live(cfg, x, i, l.c) && l.c.fd >= 0 && (l.c.state == Connecting ==> ps == []) && cfg.Valid()
    ensures Stage(cfg, x, l, Read(cfg, x, l, Received(ps, corrupt)))
  {
    hide Live, Close, HandlePackets, Stage;
    var l1 := HandlePackets(cfg, x, l, ps);
    PacketsStage(cfg, x, i, l, ps);
    if corrupt && l1.c.fd >= 0 {
      PacketsLeaveLive(cfg, x, i, l, ps);
      var l2 := l1.(m := l1.m.(protocolErrors := l1.m.protocolErrors + 1));
      CloseStage(cfg, x, i, l1, l2);
      StageThen(cfg, x, l, l1, Close(cfg, x, l2, x.testStarted));
    }
  }

  lemma OnReadableStage(cfg: Config, x: Ctx, i: nat, l: Local, e: Ready)
    requires Live(cfg, x, i, l.c)
    requires l.c.state == Connecting ==> e.read.PeerGone? || e.read.packets == []
    ensures Stage(cfg, x, l, OnReadable(cfg, x, l, e))
  {
    LiveHasLife(cfg, x, i, l.c);
    hide Live, Close, Stage, Life, HandlePackets;
    if e.readable && l.c.fd >= 0 {
      match e.read
      case PeerGone => CloseStage(cfg, x, i, l, l);
      case Received(ps, corrupt) => ReceivedStage(cfg, x, i, l, ps, corrupt);
    } else {
      Untouched(cfg, x, i, l);
    }
  }

  lemma PacketsLeaveLive(cfg: Config, x: Ctx, i: nat, l: Local, ps: seq<Packet>)
    requires Live(cfg, x, i, l.c) && (l.c.state != Connecting || ps == [])
    ensures Live(cfg, x, i, HandlePackets(cfg, x, l, ps).c)
  {
    hide HandlePackets, ConnInv, Tracked, Drift;
    PacketsKeep(cfg, x, i, l, ps);
  }

  // ---- the notification ----------------------------------------------------------------------

  /** The notification reports that the connect failed. */
  predicate ConnectFails(c: Conn, e: Ready) {
    e.writable && c.state == Connecting && e.connectError
  }

  lemma LiveThroughout(cfg: Config, x: Ctx, i: nat, l: Local, l': Local)
    requires Live(cfg, x, i, l.c) && Keeps(cfg, x, i, l, l')
    ensures Live(cfg, x, i, l'.c)
  {
    hide ConnInv, Tracked, Drift;
  }

  lemma LiveIsGood(cfg: Config, x: Ctx, i: nat, c: Conn)
    requires Live(cfg, x, i, c)
    ensures cfg.Valid() && x.now >= 0 && Good(cfg, x, i, c)
  {
  }

  lemma NotificationStage(cfg: Config, x: Ctx, i: nat, l: Local, e: Ready)
    requires cfg.Valid() && Live(cfg, x, i, l.c) && l.c.fd >= 0 && Plausible(l.c, e) && !ConnectFails(l.c, e)
    ensures Stage(cfg, x, l, HandleEvent(cfg, x, l, e))
  {
    hide Live, Stage, Good, Keeps, OnConnected, OnWritable, OnReadable, OnHangup, HandleConnectFailure;
    LiveIsGood(cfg, x, i, l.c);
    var l1 := OnConnected(cfg, x, l, e);
    var l2 := OnWritable(cfg, x, l1, e);
    var l3 := OnReadable(cfg, x, l2, e);
    OnConnectedKeeps(cfg, x, i, l, e);
    KeepsGives(cfg, x, i, l, l1);
    LiveThroughout(cfg, x, i, l, l1);
    UnlessConnected(cfg, x, l, e);
    OnWritableKeeps(cfg, x, i, l1, e);
    KeepsGives(cfg, x, i, l1, l2);
    LiveThroughout(cfg, x, i, l1, l2);
    OnReadableKeeps(cfg, x, i, l2, e);
    LiveThroughout(cfg, x, i, l2, l3);
    OnConnectedStage(cfg, x, i, l, e);
    OnWritableStage(cfg, x, i, l1, e);
    StageThen(cfg, x, l, l1, l2);
    OnReadableStage(cfg, x, i, l2, e);
    StageThen(cfg, x, l, l2, l3);
    OnHangupStage(cfg, x, i, l3, e);
    StageThen(cfg, x, l, l3, OnHangup(cfg, x, l3, e));
  }

  // ---- what takes a socket away --------------------------------------------------------------

  /** The notification says that the socket is gone or its bytes make no sense. */
  predicate SaysGone(e: Ready) {
    e.hangup || (e.readable && (e.read.PeerGone? || e.read.corrupt))
  }

  /** Whatever state the connection is in, such a notification takes the socket away. */
  lemma GoneIsGone(cfg: Config, x: Ctx, l: Local, e: Ready)
    requires cfg.Valid() && l.c.fd >= 0 && (SaysGone(e) || ConnectFails(l.c, e))
    ensures HandleEvent(cfg, x, l, e).c.fd < 0
  {
    hide OnConnected, OnWritable, OnReadable, OnHangup, HandleConnectFailure;
    if ConnectFails(l.c, e) {
      FailedConnectCloses(cfg, x, l);
    } else {
      var l2 := OnWritable(cfg, x, OnConnected(cfg, x, l, e), e);
      ReadingGone(cfg, x, l2, e);
      HangingUp(cfg, x, OnReadable(cfg, x, l2, e), e);
    }
  }

  lemma HangingUp(cfg: Config, x: Ctx, l: Local, e: Ready)
    requires cfg.Valid()
    ensures e.hangup || l.c.fd < 0 ==> OnHangup(cfg, x, l, e).c.fd < 0
  {
    hide Close;
    CloseState(cfg, x, l, x.testStarted);
  }

  lemma ReadingGone(cfg: Config, x: Ctx, l: Local, e: Ready)
    requires cfg.Valid()
    ensures e.readable && (e.read.PeerGone? || e.read.corrupt) ==> OnReadable(cfg, x, l, e).c.fd < 0
  {
    hide Close, HandlePackets;
    CloseState(cfg, x, l, x.testStarted);
    if e.read.Received? {
      var l1 := HandlePackets(cfg, x, l, e.read.packets);
      CloseState(cfg, x, l1.(m := l1.m.(protocolErrors := l1.m.protocolErrors + 1)), x.testStarted);
    }
  }

  lemma FailedConnectCloses(cfg: Config, x: Ctx, l: Local)
    requires cfg.Valid()
    ensures HandleConnectFailure(cfg, x, l).c.fd < 0
  {
    var c1 := l.c.(fd := -1, state := Closed, out := EMPTY, trace := l.c.trace.Detached());
    hide ScheduleReconnect;
    SchedulePlace(cfg, x, Local(c1, l.m.(reconnectConnectFail := l.m.reconnectConnectFail + 1)));
  }

  /** No packet takes the socket of a client that is online. */
  lemma {:induction false} PacketsLeaveOnline(cfg: Config, x: Ctx, l: Local, ps: seq<Packet>)
    requires cfg.Valid() && l.c.state == Online && l.c.loginResolved && l.c.fd >= 0
    ensures var c' := HandlePackets(cfg, x, l, ps).c; c'.state == Online && c'.loginResolved && c'.fd == l.c.fd
    decreases |ps|
  {
    if ps != [] {
      hide HandlePacket;
      PacketLeavesOnline(cfg, x, l, ps[0]);
      PacketsLeaveOnline(cfg, x, HandlePacket(cfg, x, l, ps[0]), ps[1..]);
    }
  }

  lemma PacketLeavesOnline(cfg: Config, x: Ctx, l: Local, p: Packet)
    requires cfg.Valid() && l.c.state == Online && l.c.loginResolved && l.c.fd >= 0
    ensures var c' := HandlePacket(cfg, x, l, p).c; c'.state == Online && c'.loginResolved && c'.fd == l.c.fd
  {
    hide HandlePacket, Login, HandleChatAck, HandleDelivery, Takes, Seen;
    PacketIs(cfg, x, l, p);
    if p.Delivery? {
      DeliveryIs(cfg, x, l, p);
      SeenCounts(l, p);
    } else if p.LoginResponse? {
      LoginIgnored(cfg, x, Hear(l, p), p.success, p.userId, p.walk);
    } else if p.ChatAck? {
      AnswerCounts(Hear(l, p), p.seq_, p.ack);
    }
  }

  /**
   * A client that is online loses its socket exactly if the notification says that it is gone, or
   * that writing to it failed: nothing else does, whatever packets it is sent.
   */
  lemma OnlineDropsExactly(cfg: Config, x: Ctx, l: Local, e: Ready)
    requires cfg.Valid() && l.c.state == Online && l.c.loginResolved && l.c.fd >= 0
    ensures HandleEvent(cfg, x, l, e).c.fd < 0 <==> SaysGone(e) || (e.writable && Flush(l.c.out, e.sends).1)
  {
    if SaysGone(e) {
      GoneIsGone(cfg, x, l, e);
    } else {
      hide Close, HandlePackets, Flush;
      var l1 := l.(c := l.c.(out := Flush(l.c.out, e.sends).0));
      CloseState(cfg, x, l1, x.testStarted);
      var l2 := OnWritable(cfg, x, l, e);
      if l2.c.fd >= 0 && e.readable { PacketsLeaveOnline(cfg, x, l2, e.read.packets); }
    }
  }

  // ---- every turn ----------------------------------------------------------------------------

  /** Only a notification takes a socket away from a client while the test runs. */
  lemma OnlyEventsDrop(cfg: Config, w: World, t: Turn, i: nat)
    requires cfg.Valid() && Enabled(cfg, w, t) && w.testStarted && !t.Shutdown? && i < |w.conns| && w.conns[i].fd >= 0
    requires i < |Step(cfg, w, t).conns| && Step(cfg, w, t).conns[i].fd < 0
    ensures t.Event? && t.i == i
  {
    hide OpenSocket, HandleEvent, CanSend, Choose, Heartbeat, SendOne;
    if t.HeartbeatTo? { SendingKeepsSocket(cfg, CtxOf(w, t.now), LocalOf(w, t.i)); }
    if t.SendNext? {
      var chosen := Choose(Sendable(cfg, w.conns), w.sendCursor);
      if chosen.Some? { SendingKeepsSocket(cfg, CtxOf(w, t.now), LocalOf(w, chosen.value)); }
    }
  }

  lemma SendingKeepsSocket(cfg: Config, x: Ctx, l: Local)
    ensures Heartbeat(cfg, x, l).c.fd == l.c.fd && SendOne(cfg, x, l).c.fd == l.c.fd
  {
    hide NewId, DrawnSeq, SeqAfter, Queue, SendOne, Landed, Post, Emplace;
    QueueIs(cfg, l.(c := Draw(l.c)), HeartbeatBody, DrawnSeq(l.c.seq_));
    PostKeepsSocket(cfg, Draw(l.c), HeartbeatBody, DrawnSeq(l.c.seq_));
    SendOutcome(cfg, x, l);
    LandedKeepsSocket(cfg, l.c.(logical := l.c.logical + 1), Pending(NewId(cfg, l.c), l.c.peer, x.now));
  }

  lemma PostKeepsSocket(cfg: Config, c: Conn, body: Body, seq_: nat)
    ensures Post(cfg, c, body, seq_).fd == c.fd
  {
    hide Push;
  }

  lemma LandedKeepsSocket(cfg: Config, c: Conn, item: Pending)
    ensures Landed(cfg, c, item).fd == c.fd
  {
    hide Post, Emplace, DrawnSeq, SeqAfter;
    PostKeepsSocket(cfg, Draw(c), ChatBody(item.clientId, item.to), DrawnSeq(c.seq_));
  }

  lemma ConnectFailureRescheduled(cfg: Config, x: Ctx, i: nat, l: Local)
    requires Live(cfg, x, i, l.c) && l.c.state == Connecting
    ensures var l' := HandleConnectFailure(cfg, x, l);
            && l'.c.countedDisconnect && Rescheduled(cfg, x, l'.c) && l'.m.disconnectEvents == l.m.disconnectEvents
  {
    LiveHasLife(cfg, x, i, l.c);
    hide Live, ScheduleReconnect, Rescheduled, Config.UserId, Peer;
    Reschedules(cfg, x, Local(l.c.(fd := -1, state := Closed, out := EMPTY, trace := l.c.trace.Detached()),
                              l.m.(reconnectConnectFail := l.m.reconnectConnectFail + 1)));
  }

  lemma LiveInTest(cfg: Config, w: World, now: int, i: nat)
    requires cfg.Valid() && WorldInv(cfg, w) && w.testStarted && !w.shut && now >= w.clock && i < |w.conns|
    ensures Live(cfg, CtxOf(w, now), i, w.conns[i])
  {
    hide ConnInv, Booked, Total, Paced;
    TrackedAnyTime(cfg, CtxOf(w, 0), CtxOf(w, now), w.conns[i]);
  }

  /**
   * A client that loses its socket while the test runs is counted and looked after, whatever took
   * the socket away: it counts as affected, once; as a disconnect event, unless it was a connect
   * that failed; and with reconnecting on it is to be recovered and, before the drain, its next
   * attempt is put off by the capped backoff or it is found out of attempts.
   */
  lemma DropIsCounted(cfg: Config, w: World, t: Turn, i: nat)
    requires cfg.Valid() && Reachable(cfg, w) && w.testStarted && !w.shut && Enabled(cfg, w, t) && !t.Shutdown?
    requires i < |w.conns| && i < |Step(cfg, w, t).conns|
    requires w.conns[i].fd >= 0 && Step(cfg, w, t).conns[i].fd < 0
    ensures t.Event? && t.i == i
    ensures var w' := Step(cfg, w, t);
            var c, c', m, m' := w.conns[i], w'.conns[i], w.m, w'.m;
            && c'.state == Closed && c'.countedDisconnect && (cfg.reconnect ==> c'.recoveryPending)
            && (cfg.reconnect && !w.draining ==>
                  if c'.attemptNo >= cfg.maxAttempts then c'.exhausted == 1 else PutOff(cfg, t.now, c'))
            && m'.affectedClients - m.affectedClients == m'.disconnects - m.disconnects == One(!c.countedDisconnect)
            && m'.disconnectEvents - m.disconnectEvents == One(!ConnectFails(c, t.ready))
  {
    hide Reachable, WorldInv, Step, Total, Live, HandleEvent, HandleConnectFailure, Enabled;
    ReachableInv(cfg, w);
    OnlyEventsDrop(cfg, w, t, i);
    StepNotifies(cfg, w, t.now, i, t.ready);
    EventIsPlausible(cfg, w, t);
    var x, l := CtxOf(w, t.now), LocalOf(w, i);
    var l' := HandleEvent(cfg, x, l, t.ready);
    LiveInTest(cfg, w, t.now, i);
    EventDrops(cfg, x, i, l, t.ready);
  }

  lemma EventIsPlausible(cfg: Config, w: World, t: Turn)
    requires Enabled(cfg, w, t) && t.Event?
    ensures t.i < |w.conns| && Plausible(w.conns[t.i], t.ready) && t.now >= w.clock
  {
  }

  lemma EventDrops(cfg: Config, x: Ctx, i: nat, l: Local, e: Ready)
    requires Live(cfg, x, i, l.c) && cfg.Valid() && Plausible(l.c, e) && l.c.fd >= 0 && HandleEvent(cfg, x, l, e).c.fd < 0
    ensures var l' := HandleEvent(cfg, x, l, e);
            && l'.c.state == Closed && l'.c.countedDisconnect && (cfg.reconnect ==> l'.c.recoveryPending)
            && Rescheduled(cfg, x, l'.c)
            && l'.m.affectedClients - l.m.affectedClients == l'.m.disconnects - l.m.disconnects == One(!l.c.countedDisconnect)
            && l'.m.disconnectEvents - l.m.disconnectEvents == One(!ConnectFails(l.c, e))
  {
    var l' := HandleEvent(cfg, x, l, e);
    if ConnectFails(l.c, e) {
      ConnectFailureRescheduled(cfg, x, i, l);
    } else {
      NotificationStage(cfg, x, i, l, e);
    }
    EventKeepsDrop(cfg, x, i, l, e);
    hide HandleEvent, Rescheduled, Live;
  }

  lemma EventKeepsDrop(cfg: Config, x: Ctx, i: nat, l: Local, e: Ready)
    requires Live(cfg, x, i, l.c) && cfg.Valid() && Plausible(l.c, e) && l.c.fd >= 0 && HandleEvent(cfg, x, l, e).c.fd < 0
    ensures var l' := HandleEvent(cfg, x, l, e);
            && l'.c.state == Closed && (l'.c.countedDisconnect && cfg.reconnect ==> l'.c.recoveryPending)
            && l'.m.affectedClients - l.m.affectedClients == l'.m.disconnects - l.m.disconnects
               == One(l'.c.countedDisconnect) - One(l.c.countedDisconnect)
  {
    assert Good(cfg, x, i, l.c) && x.now >= 0;
    LiveHasLife(cfg, x, i, l.c);
    hide HandleEvent, Drift, Store, Live;
    EventKeeps(cfg, x, i, l, e);
    AffectedMoves(l, HandleEvent(cfg, x, l, e));
  }

  lemma AffectedMoves(l: Local, l': Local)
    requires Balanced(l, l')
    ensures l'.m.affectedClients - l.m.affectedClients == l'.m.disconnects - l.m.disconnects
         == One(l'.c.countedDisconnect) - One(l.c.countedDisconnect)
  {
    hide Carried;
  }

  // ---- failed attempts -----------------------------------------------------------------------

  lemma DialerIsLive(cfg: Config, x: Ctx, i: nat, l: Local, fd: nat)
    requires Live(cfg, x, i, l.c) && MayOpen(cfg, l.c, true)
    ensures cfg.Valid() && Live(cfg, x, i, Dialing(cfg, i, l, true, fd).c)
  {
    hide Store, Drift, Config.UserId, Config.PeerUserId;
    DialingKeeps(cfg, x, i, l, true, fd);
  }

  lemma DialFails(cfg: Config, x: Ctx, i: nat, l: Local, r: OpenResult)
    requires cfg.Valid() && Live(cfg, x, i, l.c) && MayOpen(cfg, l.c, true)
    requires OpenSocket(cfg, x, i, l, true, r).c.fd < 0
    ensures Rescheduled(cfg, x, OpenSocket(cfg, x, i, l, true, r).c)
  {
    LiveHasLife(cfg, x, i, l.c);
    NeverExhausted(cfg, i, l.c);
    hide Live, Rescheduled, Connected, ConnectFailed, Life, OpenSocket, Stage;
    match r
    case NoSocket =>
      NoSocketFails(cfg, x, i, l);
    case InProgress(_) =>
      DialingThen(cfg, x, i, l, true, r);
    case Immediate(fd) =>
      DialerIsLive(cfg, x, i, l, fd);
      DialingThen(cfg, x, i, l, true, r);
      var l1 := Dialing(cfg, i, l, true, fd);
      ConnectedStage(cfg, x, i, l1);
      LostIsRescheduled(cfg, x, l1, Connected(cfg, x, l1, true));
    case _ =>
      DialingThen(cfg, x, i, l, true, r);
      var l1 := Dialing(cfg, i, l, true, 0);
      FailureReschedules(cfg, x, l1.(c := l1.c.(fd := -1, state := Closed, out := EMPTY, trace := l1.c.trace.Detached())));
  }

  lemma NeverExhausted(cfg: Config, i: nat, c: Conn)
    requires Life(cfg, i, c) && MayOpen(cfg, c, true)
    ensures c.exhausted == 0 && c.recoveryPending && c.everOnline
  {
  }

  lemma LostIsRescheduled(cfg: Config, x: Ctx, l: Local, l': Local)
    requires Stage(cfg, x, l, l') && l.c.fd >= 0 && l'.c.fd < 0
    ensures Rescheduled(cfg, x, l'.c)
  {
    hide Rescheduled;
  }

  lemma FailureReschedules(cfg: Config, x: Ctx, l: Local)
    requires cfg.Valid() && l.c.everOnline && l.c.recoveryPending && l.c.exhausted == 0
    ensures Rescheduled(cfg, x, ConnectFailed(cfg, x, l, true).c)
  {
    hide ScheduleReconnect, Rescheduled;
    Reschedules(cfg, x, l.(m := l.m.(reconnectConnectFail := l.m.reconnectConnectFail + 1)));
  }

  lemma NoSocketFails(cfg: Config, x: Ctx, i: nat, l: Local)
    requires cfg.Valid() && l.c.everOnline && l.c.recoveryPending && l.c.exhausted == 0
    ensures Rescheduled(cfg, x, OpenSocket(cfg, x, i, l, true, NoSocket).c)
  {
    hide ConnectFailed, Rescheduled, Config.UserId, Config.PeerUserId;
    var c1 := l.c.(out := EMPTY, trace := l.c.trace.Detached(), loginResolved := false, redial := true,
                   attemptNo := l.c.attemptNo + 1);
    FailureReschedules(cfg, x, Local(c1, l.m.(reconnectAttempts := l.m.reconnectAttempts + 1)));
  }

  /**
   * A reconnect attempt that leaves the client without a socket, at whatever point it failed, uses up
   * one attempt and puts the next one off by the capped backoff, or finds that none is left.
   */
  lemma FailedDialIsPutOff(cfg: Config, w: World, now: int, r: OpenResult)
    requires cfg.Valid() && Reachable(cfg, w) && Enabled(cfg, w, ReconnectNext(now, r))
    ensures match Choose(Reconnectable(cfg, now, w.conns), w.reconnectCursor)
            case None => true
            case Some(i) =>
              var w' := Step(cfg, w, ReconnectNext(now, r));
              && i < |w'.conns| && w'.conns[i].attemptNo == w.conns[i].attemptNo + 1
              && (w'.conns[i].fd < 0 ==>
                    && w'.conns[i].recoveryPending
                    && if w'.conns[i].attemptNo >= cfg.maxAttempts then w'.conns[i].exhausted == 1
                       else PutOff(cfg, now, w'.conns[i]))
  {
    hide Reachable, WorldInv, Step, Total, Live, OpenSocket, Choose, PutOff;
    ReachableInv(cfg, w);
    StepReconnects(cfg, w, now, r);
    var chosen := Choose(Reconnectable(cfg, now, w.conns), w.reconnectCursor);
    if chosen.Some? {
      var i, x := chosen.value, CtxOf(w, now);
      LiveInTest(cfg, w, now, i);
      AttemptUsed(cfg, x, i, LocalOf(w, i), r);
      if OpenSocket(cfg, x, i, LocalOf(w, i), true, r).c.fd < 0 {
        DialFails(cfg, x, i, LocalOf(w, i), r);
      }
    }
  }

  lemma AttemptUsed(cfg: Config, x: Ctx, i: nat, l: Local, r: OpenResult)
    requires cfg.Valid() && Live(cfg, x, i, l.c) && MayOpen(cfg, l.c, true)
    ensures OpenSocket(cfg, x, i, l, true, r).c.attemptNo == l.c.attemptNo + 1
  {
    LiveHasLife(cfg, x, i, l.c);
    assert ConnInv(cfg, i, l.c) && Tracked(cfg, x, l.c) && x.now >= 0;
    hide Live, Store, Life, OpenSocket, Drift;
    OpenKeeps(cfg, x, i, l, true, r);
    AttemptsMove(l, OpenSocket(cfg, x, i, l, true, r));
  }

  lemma AttemptsMove(l: Local, l': Local)
    requires Balanced(l, l')
    ensures l'.c.attemptNo - l.c.attemptNo == l'.m.reconnectAttempts - l.m.reconnectAttempts
  {
    hide Carried;
  }
}
