/**
 * Runs of the main loop, round by round, that show where its promises stop. In all of them the
 * sockets write what they are offered before the server answers.
 */
module LoadGenWitnesses {
  import opened Basics
  import opened ClientIds
  import opened OutputQueue
  import opened RoundRobin
  import opened LoadGenModel
  import opened LoadGenInvariant
  import opened LoadGenRuns
  import opened LoadGenRounds
  import opened LoadGenLimits

  // ---- building a run ------------------------------------------------------------------------

  /** Some turns of this round lead from `w` to `w'`. */
  ghost predicate RoundTo(cfg: Config, w: World, r: Round, w': World)
    requires cfg.Valid()
  {
    exists ts :: RoundTurns(cfg, w, r, ts) && w' == Exec(cfg, w, ts)
  }

  /** The program, started at zero, is in `w` after these rounds of a possible environment. */
  ghost predicate Leads(cfg: Config, rounds: seq<Round>, w: World)
    requires cfg.Valid()
  {
    && AllGenuine(rounds) && Timely(rounds, 0)
    && (if rounds == [] then w.clock == 0 else rounds[|rounds| - 1].later == w.clock)
    && exists ts :: Played(cfg, Init(cfg, 0), rounds, ts) && w == Exec(cfg, Init(cfg, 0), ts)
  }

  lemma LeadsNowhere(cfg: Config)
    requires cfg.Valid()
    ensures Leads(cfg, [], Init(cfg, 0))
  {
    hide Step;
    assert Played(cfg, Init(cfg, 0), [], []) && Exec(cfg, Init(cfg, 0), []) == Init(cfg, 0);
  }

  lemma {:induction false} TimelyMore(rounds: seq<Round>, since: int, r: Round)
    requires Timely(rounds, since) && r.now <= r.later
    requires if rounds == [] then since <= r.now else rounds[|rounds| - 1].later <= r.now
    ensures Timely(rounds + [r], since)
    decreases |rounds|
  {
    if rounds == [] {
      assert Timely([], r.later);
    } else {
      assert (rounds + [r])[1..] == rounds[1..] + [r];
      TimelyMore(rounds[1..], rounds[0].later, r);
    }
  }

  /** A round at time `now` that takes no time, with one arrival at most. */
  function At(now: int, outcome: OpenResult, arrivals: seq<Arrival>): Round {
    Round(now, _ => outcome, now, arrivals)
  }

  lemma LeadsOn(cfg: Config, rounds: seq<Round>, w: World, r: Round, w': World)
    requires cfg.Valid() && Leads(cfg, rounds, w) && !w.finished && RoundTo(cfg, w, r, w')
    requires w.clock <= r.now == r.later == w'.clock
    requires forall j :: 0 <= j < |r.arrivals| ==> Genuine(r.arrivals[j])
    ensures Leads(cfg, rounds + [r], w')
  {
    hide Exec, Init, RoundTurns, Genuine;
    var ts :| Played(cfg, Init(cfg, 0), rounds, ts) && w == Exec(cfg, Init(cfg, 0), ts);
    var more :| RoundTurns(cfg, w, r, more) && w' == Exec(cfg, w, more);
    hide Played;
    PlayedMore(cfg, Init(cfg, 0), rounds, ts, r, more);
    ExecJoins(cfg, Init(cfg, 0), ts, more);
    TimelyMore(rounds, 0, r);
  }

  // ---- what sockets report -------------------------------------------------------------------

  const IDLE: Ready := Ready(false, false, [], false, Received([], false), false)

  /** The peer closed the connection. */
  const GONE: Ready := Ready(false, false, [], true, PeerGone, true)

  function Reads(packet: Packet, corrupt: bool): Ready {
    Ready(false, false, [], true, Received([packet], corrupt), false)
  }

  /** A notification that comes once the socket is connected. */
  function Told(i: nat, e: Ready): Arrival {
    Arrival(i, (c: Conn) => if c.state == Connecting then IDLE else e)
  }

  /** The socket takes the whole frame it is offered, and then there is no more to read. */
  function Writes(c: Conn): Ready {
    Ready(true, false, if c.out.frames == [] then [] else [Wrote(|c.out.frames[0]|)], false, Received([], false), false)
  }

  function Takes(i: nat): Arrival {
    Arrival(i, (c: Conn) => Writes(c))
  }

  lemma AllAreGenuine(i: nat, e: Ready)
    ensures Genuine(Told(i, e)) && Genuine(Takes(i))
  {
  }

  /** One frame waits, untouched. */
  predicate OneFrame(t: Transport) {
    |t.frames| == 1 && t.offset == 0 && t.frames[0] != []
  }

  function Drained(t: Transport): Transport
    requires OneFrame(t)
  {
    t.(frames := [], wire := t.wire + t.frames[0])
  }

  lemma FlushesFrame(t: Transport)
    requires OneFrame(t)
    ensures Flush(t, [Wrote(|t.frames[0]|)]) == (Drained(t), false)
  {
    var sends, f := [Wrote(|t.frames[0]|)], t.frames[0];
    assert f[0..|f|] == f && t.frames[1..] == [];
    assert sends[1..] == [];
    assert Flush(Drained(t), []) == (Drained(t), false);
  }

  lemma WritesFrame(cfg: Config, x: Ctx, l: Local)
    requires cfg.Valid() && l.c.fd >= 0 && l.c.state != Connecting && OneFrame(l.c.out)
    ensures HandleEvent(cfg, x, l, Writes(l.c)) == l.(c := l.c.(out := Drained(l.c.out)))
  {
    hide Close, Connected, HandleConnectFailure, Read, Flush;
    FlushesFrame(l.c.out);
  }

  // ---- rounds with one arrival ---------------------------------------------------------------

  lemma NoEvent(cfg: Config, w: World, now: int)
    requires cfg.Valid()
    ensures EventStage(cfg, w, now, [], []) && Exec(cfg, w, []) == w
  {
    hide Step;
  }

  lemma OneEvent(cfg: Config, w: World, now: int, a: Arrival, t: Turn)
    requires cfg.Valid() && Handles(cfg, w, now, a, t)
    ensures EventStage(cfg, w, now, [a], [t]) && Exec(cfg, w, [t]) == Step(cfg, w, t)
  {
    hide Step, Handles;
    NoEvent(cfg, w, now);
    assert [a][..0] == [] && [t][..0] == [];
  }

  lemma ToldHandles(cfg: Config, w: World, now: int, i: nat, e: Ready)
    requires i < |w.conns| && w.conns[i].state != Connecting && !w.shut && w.clock <= now
    ensures Handles(cfg, w, now, Told(i, e), Event(now, i, e))
  {
    hide SameReady;
    SameReadyItself(e);
  }

  lemma TakesHandles(cfg: Config, w: World, now: int, i: nat)
    requires i < |w.conns| && !w.shut && w.clock <= now
    ensures Handles(cfg, w, now, Takes(i), Event(now, i, Writes(w.conns[i])))
  {
    hide SameReady;
    SameReadyItself(Writes(w.conns[i]));
  }

  /** The events of a round with the given arrivals: none, or one that the turn `t` handles. */
  ghost predicate AtMostOne(cfg: Config, w: World, now: int, arrivals: seq<Arrival>, t: Turn, w': World)
    requires cfg.Valid()
  {
    if arrivals == [] then w' == w
    else |arrivals| == 1 && Handles(cfg, w, now, arrivals[0], t) && w' == Step(cfg, w, t)
  }

  lemma EventsOf(cfg: Config, w: World, now: int, arrivals: seq<Arrival>, t: Turn, w': World) returns (events: seq<Turn>)
    requires cfg.Valid() && AtMostOne(cfg, w, now, arrivals, t, w')
    ensures EventStage(cfg, w, now, arrivals, events) && Exec(cfg, w, events) == w'
  {
    hide Exec, Step, EventStage, Handles;
    if arrivals == [] {
      events := [];
      NoEvent(cfg, w, now);
    } else {
      events := [t];
      OneEvent(cfg, w, now, arrivals[0], t);
      assert arrivals == [arrivals[0]];
    }
  }

  /** A setup round that opens nothing. */
  lemma SetupRoundQuiet(cfg: Config, w: World, r: Round, t: Turn, w': World)
    requires cfg.Valid() && Enabled(cfg, w, EvaluateSetup(r.now))
    requires w.created == cfg.connections || r.now < w.nextConnect
    requires AtMostOne(cfg, Step(cfg, w, EvaluateSetup(r.now)), r.later, r.arrivals, t, w')
    ensures RoundTo(cfg, w, r, w')
  {
    assert !w.testStarted;
    hide Step, Enabled, AtMostOne, EventStage, RoundTurns;
    SelectingStarts(cfg, w);
    NoEvent(cfg, w, r.now);
    SetupRoundGoes(cfg, w, r, [], t, w');
  }

  /** A setup round that opens the next connection, which is the only one due. */
  lemma SetupRoundOpens(cfg: Config, w: World, r: Round, t: Turn, w': World)
    requires cfg.Valid() && Enabled(cfg, w, OpenNext(r.now, r.outcome(0)))
    requires var w1 := Step(cfg, w, OpenNext(r.now, r.outcome(0)));
             && (w1.created == cfg.connections || r.now < w1.nextConnect)
             && Enabled(cfg, w1, EvaluateSetup(r.now))
             && AtMostOne(cfg, Step(cfg, w1, EvaluateSetup(r.now)), r.later, r.arrivals, t, w')
    ensures RoundTo(cfg, w, r, w')
  {
    var open := OpenNext(r.now, r.outcome(0));
    assert !w.testStarted;
    assert Selects(cfg, w, open);
    hide Step, Enabled, AtMostOne, EventStage, Selects, RoundTurns;
    SelectingStarts(cfg, w);
    NoEvent(cfg, w, r.now);
    AllSelectMore(cfg, w, [], open);
    assert [] + [open] == [open];
    ExecOneMore(cfg, w, [], open);
    SetupRoundGoes(cfg, w, r, [open], t, w');
  }

  lemma SetupRoundGoes(cfg: Config, w: World, r: Round, opens: seq<Turn>, t: Turn, w': World)
    requires cfg.Valid() && !w.testStarted && OpenStage(cfg, w, r.now, r.outcome, opens)
    requires Enabled(cfg, Exec(cfg, w, opens), EvaluateSetup(r.now))
    requires AtMostOne(cfg, Step(cfg, Exec(cfg, w, opens), EvaluateSetup(r.now)), r.later, r.arrivals, t, w')
    ensures RoundTo(cfg, w, r, w')
  {
    hide Exec, Step, Enabled, AtMostOne, EventStage, OpenStage;
    var setup := EvaluateSetup(r.now);
    var events := EventsOf(cfg, Step(cfg, Exec(cfg, w, opens), setup), r.later, r.arrivals, t, w');
    ExecTurnJoins(cfg, w, opens, setup, events);
    assert SetupRound(cfg, w, r, opens, events);
    assert RoundTurns(cfg, w, r, opens + [setup] + events);
  }

  /** A test round of one connection, with reconnecting switched off, in which nothing has to be dialled. */
  lemma TestRoundGoes(cfg: Config, w: World, r: Round, sends: seq<Turn>, t: Turn, w': World)
    requires cfg.Valid() && !cfg.reconnect && w.testStarted && |w.conns| == 1
    requires var w2 := Step(cfg, w, HeartbeatTo(r.now, 0));
             var w3 := Exec(cfg, w2, sends);
             var w4 := Step(cfg, w3, DrainCheck(r.now));
             && SendStage(cfg, w2, r.now, sends) && Enabled(cfg, w3, DrainCheck(r.now)) && !w4.finished
             && AtMostOne(cfg, w4, r.later, r.arrivals, t, w')
    ensures RoundTo(cfg, w, r, w')
  {
    hide Exec, Step, Enabled, AtMostOne, EventStage, SendStage, DialStage, BeatTurns, RoundTurns;
    var w2 := Step(cfg, w, HeartbeatTo(r.now, 0));
    var w3 := Exec(cfg, w2, sends);
    var w4 := Step(cfg, w3, DrainCheck(r.now));
    NoDialStage(cfg, w, r.now, r.outcome);
    OneBeat(cfg, w, r.now);
    var events := EventsOf(cfg, w4, r.later, r.arrivals, t, w');
    TestRoundDone(cfg, w, r, w2, w3, w4, [], sends, events);
  }

  lemma OneBeat(cfg: Config, w: World, now: int)
    requires cfg.Valid()
    ensures Exec(cfg, w, [] + BeatTurns(now, 1)) == Step(cfg, w, HeartbeatTo(now, 0))
  {
    hide Step;
    var beat := HeartbeatTo(now, 0);
    assert [] + BeatTurns(now, 1) == [beat];
    NoEvent(cfg, w, now);
    ExecOneMore(cfg, w, [], beat);
    assert [] + [beat] == [beat];
  }

  // ---- handlers in a setup that goes well ----------------------------------------------------

  /** The codec accepts everything and no frame is empty. */
  ghost predicate Encodes(cfg: Config) {
    (forall body :: cfg.encodes(body)) && forall body, seq_ :: cfg.frame(body, seq_) != []
  }

  lemma OpensAtOnce(cfg: Config, x: Ctx, i: nat, l: Local, fd: nat)
    requires cfg.Valid() && Encodes(cfg)
    ensures var l' := OpenSocket(cfg, x, i, l, false, Immediate(fd));
            && l'.c == l.c.(out := l'.c.out, trace := l'.c.trace, loginResolved := false, redial := false, fd := fd, state := LoginPending,
                            uid := cfg.UserId(i), peer := cfg.PeerUserId(i),
                            seq_ := SeqAfter(l.c.seq_), draws := l.c.draws + 1)
            && l'.m == l.m.(connectAttempts := l.m.connectAttempts + 1, connected := l.m.connected + 1)
            && OneFrame(l'.c.out)
  {
    hide Close, Config.UserId, Config.PeerUserId, ScheduleReconnect, SeqAfter, DrawnSeq;
  }

  function LoggedIn(cfg: Config, x: Ctx, l: Local): Local {
    Local(l.c.(loginResolved := true, everOnline := true, state := Online, nextHeartbeat := x.now + cfg.heartbeat,
               trace := l.c.trace.Heard(LoginResponse(true, l.c.uid, []))),
          l.m.(loginOk := l.m.loginOk + 1))
  }

  lemma LogsIn(cfg: Config, x: Ctx, l: Local)
    requires cfg.Valid() && l.c.fd >= 0 && AwaitsLogin(l.c) && !l.c.everOnline
    ensures Login(cfg, x, Hear(l, LoginResponse(true, l.c.uid, [])), true, l.c.uid, []) == LoggedIn(cfg, x, l)
  {
    hide Close, RetryPending;
  }

  /** The login answer, alone or followed by bytes that cannot be decoded. */
  function LoginAnswer(uid: nat, corrupt: bool): Ready {
    Reads(LoginResponse(true, uid, []), corrupt)
  }

  lemma AnswerLogsIn(cfg: Config, x: Ctx, l: Local, corrupt: bool)
    requires cfg.Valid() && l.c.fd >= 0 && AwaitsLogin(l.c) && !l.c.everOnline
    ensures var l1 := LoggedIn(cfg, x, l);
            HandleEvent(cfg, x, l, LoginAnswer(l.c.uid, corrupt)) ==
              if corrupt then Close(cfg, x, l1.(m := l1.m.(protocolErrors := l1.m.protocolErrors + 1)), x.testStarted)
              else l1
  {
    hide Login, Close;
    var l1 := LoggedIn(cfg, x, l);
    LogsIn(cfg, x, l);
    assert HandlePackets(cfg, x, l, [LoginResponse(true, l.c.uid, [])]) == HandlePackets(cfg, x, l1, []) == l1;
    hide HandlePackets;
  }

  lemma GoneCloses(cfg: Config, x: Ctx, l: Local)
    requires cfg.Valid() && !x.testStarted && Up(l.c)
    ensures HandleEvent(cfg, x, l, GONE) == Close(cfg, x, l, false)
  {
    hide Close;
    DropsQuietly(cfg, x, l);
  }

  lemma DropsQuietly(cfg: Config, x: Ctx, l: Local)
    requires cfg.Valid() && l.c.fd >= 0 && l.c.loginResolved && !l.c.recoveryPending && !l.c.countedDisconnect
    ensures var l' := Close(cfg, x, l, false);
            && l'.c.state == Closed && l'.c.fd < 0 && l'.c.everOnline == l.c.everOnline && l'.m == l.m
            && !l'.c.recoveryPending && !l'.c.countedDisconnect
  {
    hide Stashed, ScheduleReconnect;
  }

  // ---- rounds of a setup that goes well ------------------------------------------------------

  /** The setup is on, with so many logins and no failure, and its deadline lies ahead. */
  ghost predicate SettingUp(cfg: Config, w: World, logins: int) {
    && |w.conns| == cfg.connections && !w.testStarted && !w.finished && !w.setupFailed && !w.shut && !w.draining
    && w.clock < w.setupDeadline && w.m.loginOk == logins && w.m.loginFail == w.m.connectFail == 0
    && w.m.affectedClients == 0 && w.sendCursor == 0
  }

  predicate Untouched(c: Conn) {
    !c.everOnline && !c.recoveryPending && !c.countedDisconnect
  }

  predicate Waiting(cfg: Config, i: nat, c: Conn) {
    c.fd >= 0 && AwaitsLogin(c) && Untouched(c) && c.uid == cfg.UserId(i)
  }

  predicate Up(c: Conn) {
    c.fd >= 0 && c.state == Online && c.loginResolved && !c.recoveryPending && !c.countedDisconnect
  }

  /** Logged in once and gone, and out of reach of every later turn. */
  predicate DownForGood(c: Conn) {
    c.state == Closed && c.everOnline && !c.recoveryPending && !c.countedDisconnect
  }

  /** Only connection `i` and what the counters and the clock show may differ. */
  ghost predicate OnlyConn(w: World, i: nat, w': World) {
    && |w'.conns| == |w.conns| && w'.setupDeadline == w.setupDeadline
    && forall j :: 0 <= j < |w.conns| && j != i ==> w'.conns[j] == w.conns[j]
  }

  /** No counter but those of sockets and logins has moved. */
  predicate NothingSent(m: Metrics) {
    m.sendAttempts == m.chatAckOk == m.chatAckFail == 0
  }

  /** Connection `i` as it is after its login request has left. */
  ghost predicate Asked(cfg: Config, w: World, i: nat, w': World)
    requires cfg.Valid() && i < |w.conns| == |w'.conns|
  {
    var c, c' := w.conns[i], w'.conns[i];
    && Waiting(cfg, i, c') && c'.peer == cfg.PeerUserId(i) && c'.out.frames == [] && c'.out.offset == 0
    && c'.draws == c.draws + 1 && c'.seq_ == SeqAfter(c.seq_) && c'.pending == c.pending
    && c'.logical == c.logical && c'.lost == c.lost && (NothingSent(w.m) ==> NothingSent(w'.m))
  }

  /** An iteration in which the setup is neither complete nor out of time changes nothing. */
  lemma SetupGoesOn(cfg: Config, w: World, logins: int)
    requires cfg.Valid() && SettingUp(cfg, w, logins)
    requires w.created < cfg.connections || logins < cfg.connections
    ensures Enabled(cfg, w, EvaluateSetup(w.clock)) && Step(cfg, w, EvaluateSetup(w.clock)) == w
  {
    StepEvaluates(cfg, w, w.clock);
    hide Step;
  }

  lemma OpenTurnGoes(cfg: Config, w: World, now: int, fd: nat, logins: int)
    requires cfg.Valid() && Encodes(cfg) && SettingUp(cfg, w, logins) && w.clock <= now < w.setupDeadline
    requires w.created < |w.conns| && w.nextConnect <= now && Untouched(w.conns[w.created])
    ensures var i, w' := w.created, Step(cfg, w, OpenNext(now, Immediate(fd)));
            && Enabled(cfg, w, OpenNext(now, Immediate(fd)))
            && SettingUp(cfg, w', logins) && OnlyConn(w, i, w') && w'.clock == now
            && w'.created == i + 1 && w'.nextConnect == w.nextConnect + cfg.connectInterval
            && OneFrame(w'.conns[i].out)
            && Asked(cfg, w, i, w'.(conns := w'.conns[i := w'.conns[i].(out := EMPTY)]))
  {
    hide OpenSocket, Config.UserId, Config.PeerUserId, SeqAfter;
    OpensAtOnce(cfg, CtxOf(w, now), w.created, LocalOf(w, w.created), fd);
    StepOpens(cfg, w, now, Immediate(fd));
    hide Step;
  }

  /** A round that opens the next connection, whose login request then leaves. */
  lemma OpenRound(cfg: Config, w: World, now: int, fd: nat, logins: int) returns (w': World)
    requires cfg.Valid() && Encodes(cfg) && SettingUp(cfg, w, logins) && w.clock <= now < w.setupDeadline
    requires w.created < |w.conns| && w.nextConnect <= now && Untouched(w.conns[w.created]) && logins < cfg.connections
    requires w.created + 1 == cfg.connections || now < w.nextConnect + cfg.connectInterval
    ensures var i := w.created;
            && RoundTo(cfg, w, At(now, Immediate(fd), [Takes(i)]), w')
            && SettingUp(cfg, w', logins) && OnlyConn(w, i, w') && Asked(cfg, w, i, w')
            && w'.created == i + 1 && w'.nextConnect == w.nextConnect + cfg.connectInterval && w'.clock == now
  {
    hide Step, Config.UserId, Config.PeerUserId, RoundTo, HandleEvent;
    var i := w.created;
    OpenTurnGoes(cfg, w, now, fd, logins);
    var w1 := Step(cfg, w, OpenNext(now, Immediate(fd)));
    SetupGoesOn(cfg, w1, logins);
    var t := Event(now, i, Writes(w1.conns[i]));
    TakesHandles(cfg, w1, now, i);
    WritesFrame(cfg, CtxOf(w1, now), LocalOf(w1, i));
    StepNotifies(cfg, w1, now, i, Writes(w1.conns[i]));
    w' := Step(cfg, w1, t);
    SetupRoundOpens(cfg, w, At(now, Immediate(fd), [Takes(i)]), t, w');
    hide SeqAfter;
  }

  /** A round of the setup that only brings a notification. */
  lemma SetupEventRound(cfg: Config, w: World, a: Arrival, t: Turn, logins: int)
    requires cfg.Valid() && SettingUp(cfg, w, logins) && w.created == cfg.connections && logins < cfg.connections
    requires Handles(cfg, w, w.clock, a, t)
    ensures RoundTo(cfg, w, At(w.clock, NoSocket, [a]), Step(cfg, w, t))
  {
    hide Step, RoundTo, Handles;
    SetupGoesOn(cfg, w, logins);
    SetupRoundQuiet(cfg, w, At(w.clock, NoSocket, [a]), t, Step(cfg, w, t));
  }

  lemma LoginRound(cfg: Config, w: World, i: nat, logins: int) returns (w': World)
    requires cfg.Valid() && SettingUp(cfg, w, logins) && w.created == cfg.connections && logins < cfg.connections
    requires i < |w.conns| && Waiting(cfg, i, w.conns[i])
    ensures RoundTo(cfg, w, At(w.clock, NoSocket, [Told(i, LoginAnswer(cfg.UserId(i), false))]), w')
    ensures w' == Put(w, i, LoggedIn(cfg, CtxOf(w, w.clock), LocalOf(w, i))) && SettingUp(cfg, w', logins + 1)
  {
    hide HandleEvent, Step, Config.UserId, RoundTo;
    var e := LoginAnswer(cfg.UserId(i), false);
    AnswerLogsIn(cfg, CtxOf(w, w.clock), LocalOf(w, i), false);
    ToldHandles(cfg, w, w.clock, i, e);
    StepNotifies(cfg, w, w.clock, i, e);
    SetupEventRound(cfg, w, Told(i, e), Event(w.clock, i, e), logins);
    w' := Step(cfg, w, Event(w.clock, i, e));
  }

  lemma GarbageRound(cfg: Config, w: World, i: nat, logins: int) returns (w': World)
    requires cfg.Valid() && SettingUp(cfg, w, logins) && w.created == cfg.connections && logins < cfg.connections
    requires i < |w.conns| && Waiting(cfg, i, w.conns[i])
    ensures RoundTo(cfg, w, At(w.clock, NoSocket, [Told(i, LoginAnswer(cfg.UserId(i), true))]), w')
    ensures SettingUp(cfg, w', logins + 1) && OnlyConn(w, i, w') && w'.created == w.created && w'.clock == w.clock
    ensures DownForGood(w'.conns[i])
  {
    hide HandleEvent, Close, Step, Config.UserId, RoundTo;
    var x, l := CtxOf(w, w.clock), LocalOf(w, i);
    var l1, e := LoggedIn(cfg, x, l), LoginAnswer(cfg.UserId(i), true);
    AnswerLogsIn(cfg, x, l, true);
    DropsQuietly(cfg, x, l1.(m := l1.m.(protocolErrors := l1.m.protocolErrors + 1)));
    ToldHandles(cfg, w, w.clock, i, e);
    StepNotifies(cfg, w, w.clock, i, e);
    SetupEventRound(cfg, w, Told(i, e), Event(w.clock, i, e), logins);
    w' := Step(cfg, w, Event(w.clock, i, e));
  }

  lemma GoneRound(cfg: Config, w: World, i: nat, logins: int) returns (w': World)
    requires cfg.Valid() && SettingUp(cfg, w, logins) && w.created == cfg.connections && logins < cfg.connections
    requires i < |w.conns| && Up(w.conns[i]) && w.conns[i].everOnline
    ensures RoundTo(cfg, w, At(w.clock, NoSocket, [Told(i, GONE)]), w')
    ensures SettingUp(cfg, w', logins) && OnlyConn(w, i, w') && w'.created == w.created && w'.clock == w.clock
    ensures DownForGood(w'.conns[i])
  {
    hide HandleEvent, Close, Step, RoundTo;
    var x, l := CtxOf(w, w.clock), LocalOf(w, i);
    GoneCloses(cfg, x, l);
    DropsQuietly(cfg, x, l);
    ToldHandles(cfg, w, w.clock, i, GONE);
    StepNotifies(cfg, w, w.clock, i, GONE);
    SetupEventRound(cfg, w, Told(i, GONE), Event(w.clock, i, GONE), logins);
    w' := Step(cfg, w, Event(w.clock, i, GONE));
  }

  /** The round in which the test starts. */
  lemma GateRound(cfg: Config, w: World) returns (w': World)
    requires cfg.Valid() && SettingUp(cfg, w, cfg.connections) && w.created == cfg.connections
    ensures RoundTo(cfg, w, At(w.clock, NoSocket, []), w')
    ensures w' == w.(testStarted := true, testStart := w.clock, testEnd := w.clock + cfg.duration,
                     nextSend := w.clock, nextReconnectGlobal := w.clock)
  {
    hide Step, RoundTo;
    StepEvaluates(cfg, w, w.clock);
    w' := Step(cfg, w, EvaluateSetup(w.clock));
    SetupRoundQuiet(cfg, w, At(w.clock, NoSocket, []), EvaluateSetup(w.clock), w');
  }

  lemma SetupBegins(cfg: Config)
    requires cfg.Valid()
    ensures var w := Init(cfg, 0);
            && SettingUp(cfg, w, 0) && w.clock == w.nextConnect == w.created == 0 && w.setupDeadline == cfg.setupBudget
            && (forall i :: 0 <= i < |w.conns| ==> w.conns[i] == NEW_CONN)
            && NothingSent(w.m) && w.m.connectAttempts == w.m.connected == 0
    ensures Untouched(NEW_CONN) && NEW_CONN.aborts == NEW_CONN.draws == NEW_CONN.logical == NEW_CONN.lost == 0
    ensures NEW_CONN.seq_ == 1 && NEW_CONN.pending == map[]
  {
  }

  // ---- the setup gate counts logins ----------------------------------------------------------

  /**
   * One connection: its login answer is followed by bytes that cannot be decoded, so it is closed in
   * the same read; the next iteration starts the test, with nobody online.
   */
  lemma TestCanStartWithoutClients(cfg: Config) returns (rounds: seq<Round>, w: World)
    requires cfg.Valid() && Encodes(cfg) && cfg.connections == 1
    ensures Leads(cfg, rounds, w)
    ensures w.testStarted && !w.setupFailed && w.m.loginOk == |w.conns| == 1
    ensures DownForGood(w.conns[0]) && w.m.affectedClients == 0
  {
    hide Init, Config.UserId, Config.PeerUserId, RoundTo, Leads, Genuine, Encodes;
    SetupBegins(cfg);
    LeadsNowhere(cfg);
    AllAreGenuine(0, LoginAnswer(cfg.UserId(0), true));
    var w0 := Init(cfg, 0);
    var w1 := OpenRound(cfg, w0, 0, 3, 0);
    var r1 := At(0, Immediate(3), [Takes(0)]);
    LeadsOn(cfg, [], w0, r1, w1);
    var w2 := GarbageRound(cfg, w1, 0, 0);
    var r2 := At(0, NoSocket, [Told(0, LoginAnswer(cfg.UserId(0), true))]);
    LeadsOn(cfg, [] + [r1], w1, r2, w2);
    w := GateRound(cfg, w2);
    var r3 := At(0, NoSocket, []);
    LeadsOn(cfg, [] + [r1] + [r2], w2, r3, w);
    rounds := [] + [r1] + [r2] + [r3];
  }

  /** Two connections: the first logs in and drops while the second is still logging in. */
  lemma TestCanStartOneClientShort(cfg: Config) returns (rounds: seq<Round>, w: World)
    requires cfg.Valid() && Encodes(cfg) && cfg.connections == 2 && cfg.connectInterval > 0
    ensures Leads(cfg, rounds, w)
    ensures w.testStarted && !w.setupFailed && w.m.loginOk == |w.conns| == 2
    ensures DownForGood(w.conns[0]) && Up(w.conns[1]) && w.m.affectedClients == 0
  {
    hide Init, Config.UserId, Config.PeerUserId, RoundTo, Leads, Genuine, Encodes;
    SetupBegins(cfg);
    LeadsNowhere(cfg);
    var at := cfg.connectInterval;
    AllAreGenuine(0, GONE);
    AllAreGenuine(1, GONE);
    var w0 := Init(cfg, 0);
    var w1 := OpenRound(cfg, w0, 0, 3, 0);
    var r1 := At(0, Immediate(3), [Takes(0)]);
    LeadsOn(cfg, [], w0, r1, w1);
    var w2 := OpenRound(cfg, w1, at, 4, 0);
    var r2 := At(at, Immediate(4), [Takes(1)]);
    LeadsOn(cfg, [] + [r1], w1, r2, w2);
    rounds, w := OneDropsOneLogsIn(cfg, [] + [r1] + [r2], w2);
  }

  lemma OneDropsOneLogsIn(cfg: Config, before: seq<Round>, w2: World) returns (rounds: seq<Round>, w: World)
    requires cfg.Valid() && cfg.connections == 2 && Leads(cfg, before, w2)
    requires SettingUp(cfg, w2, 0) && w2.created == 2 && Waiting(cfg, 0, w2.conns[0]) && Waiting(cfg, 1, w2.conns[1])
    ensures Leads(cfg, rounds, w)
    ensures w.testStarted && !w.setupFailed && w.m.loginOk == |w.conns| == 2
    ensures DownForGood(w.conns[0]) && Up(w.conns[1]) && w.m.affectedClients == 0
  {
    hide Config.UserId, RoundTo, Leads, Genuine;
    var at := w2.clock;
    var in0, in1 := Told(0, LoginAnswer(cfg.UserId(0), false)), Told(1, LoginAnswer(cfg.UserId(1), false));
    AllAreGenuine(0, LoginAnswer(cfg.UserId(0), false));
    AllAreGenuine(0, GONE);
    AllAreGenuine(1, LoginAnswer(cfg.UserId(1), false));
    var w3 := LoginRound(cfg, w2, 0, 0);
    LeadsOn(cfg, before, w2, At(at, NoSocket, [in0]), w3);
    var w4 := GoneRound(cfg, w3, 0, 1);
    rounds := before + [At(at, NoSocket, [in0])];
    LeadsOn(cfg, rounds, w3, At(at, NoSocket, [Told(0, GONE)]), w4);
    var w5 := LoginRound(cfg, w4, 1, 1);
    rounds := rounds + [At(at, NoSocket, [Told(0, GONE)])];
    LeadsOn(cfg, rounds, w4, At(at, NoSocket, [in1]), w5);
    w := GateRound(cfg, w5);
    rounds := rounds + [At(at, NoSocket, [in1])];
    LeadsOn(cfg, rounds, w5, At(at, NoSocket, []), w);
    rounds := rounds + [At(at, NoSocket, [])];
  }

  // ---- sockets that never report -------------------------------------------------------------

  lemma DialsInProgress(cfg: Config, x: Ctx, i: nat, l: Local, fd: nat)
    requires cfg.Valid()
    ensures var l' := OpenSocket(cfg, x, i, l, false, InProgress(fd));
            && l'.c.fd == fd && l'.c.state == Connecting && l'.c.everOnline == l.c.everOnline
            && l'.c.aborts == l.c.aborts && l'.c.recoveryPending == l.c.recoveryPending
            && l'.m == l.m.(connectAttempts := l.m.connectAttempts + 1)
  {
    hide Connected, ConnectFailed, Config.UserId, Config.PeerUserId;
  }

  /** Closing a socket that is still connecting leaves every counter as it is. */
  lemma AbortsUncounted(cfg: Config, x: Ctx, l: Local)
    requires cfg.Valid() && l.c.fd >= 0 && l.c.state == Connecting && !l.c.everOnline && !l.c.recoveryPending
    ensures Close(cfg, x, l, false).m == l.m && Close(cfg, x, l, false).c.aborts == l.c.aborts + 1
  {
    hide ScheduleReconnect, Stashed;
  }

  lemma DialRound(cfg: Config) returns (w': World)
    requires cfg.Valid() && cfg.connections == 1
    ensures var w := Init(cfg, 0);
            && RoundTo(cfg, w, At(0, InProgress(3), []), w') && SettingUp(cfg, w', 0)
            && w'.clock == 0 && w'.created == 1 && w'.setupDeadline == cfg.setupBudget
            && w'.conns[0].fd == 3 && w'.conns[0].state == Connecting && !w'.conns[0].everOnline
            && !w'.conns[0].recoveryPending && w'.conns[0].aborts == 0
            && w'.m.connectAttempts == 1 && w'.m.connected == w'.m.connectFail == 0
  {
    hide Init, OpenSocket, Step, RoundTo;
    SetupBegins(cfg);
    var w := Init(cfg, 0);
    DialsInProgress(cfg, CtxOf(w, 0), 0, LocalOf(w, 0), 3);
    StepOpens(cfg, w, 0, InProgress(3));
    w' := Step(cfg, w, OpenNext(0, InProgress(3)));
    SetupGoesOn(cfg, w', 0);
    SetupRoundOpens(cfg, w, At(0, InProgress(3), []), EvaluateSetup(0), w');
  }

  /** The round in which the setup runs out of time. */
  lemma DeadlineRound(cfg: Config, w: World, now: int) returns (w': World)
    requires cfg.Valid() && SettingUp(cfg, w, 0) && w.created == cfg.connections && now >= w.setupDeadline
    ensures RoundTo(cfg, w, At(now, NoSocket, []), w')
    ensures w' == w.(setupFailed := true, finished := true, clock := now)
  {
    hide Step, RoundTo;
    StepEvaluates(cfg, w, now);
    w' := Step(cfg, w, EvaluateSetup(now));
    SetupRoundQuiet(cfg, w, At(now, NoSocket, []), EvaluateSetup(now), w');
  }

  /**
   * The only socket is still connecting when the setup runs out of time: the program shuts down, and
   * the socket is counted neither as connected nor as failed.
   */
  lemma SocketCanGoUnreported(cfg: Config) returns (rounds: seq<Round>, w: World)
    requires cfg.Valid() && cfg.connections == 1
    ensures Leads(cfg, rounds, w) && w.finished
    ensures var w' := Step(cfg, w, Shutdown(w.clock));
            && w'.shut && |w'.conns| == 1 && w'.conns[0].aborts == 1
            && w'.m.connectAttempts == 1 && w'.m.connected == w'.m.connectFail == 0
  {
    hide Init, Close, Step, RoundTo, Leads, Genuine;
    LeadsNowhere(cfg);
    SetupBegins(cfg);
    var end := cfg.setupBudget;
    var w1 := DialRound(cfg);
    var r1, r2 := At(0, InProgress(3), []), At(end, NoSocket, []);
    LeadsOn(cfg, [], Init(cfg, 0), r1, w1);
    w := DeadlineRound(cfg, w1, end);
    LeadsOn(cfg, [] + [r1], w1, r2, w);
    rounds := [] + [r1] + [r2];
    StepShuts(cfg, w, end);
    AbortsUncounted(cfg, CtxOf(w, end), LocalOf(w, 0));
    CloseOnly(cfg, CtxOf(w, end), w);
  }

  lemma CloseOnly(cfg: Config, x: Ctx, w: World)
    requires cfg.Valid() && |w.conns| == 1
    ensures CloseFrom(cfg, x, w, 0) == Put(w, 0, Close(cfg, x, LocalOf(w, 0), false))
  {
    hide Close;
    var w' := Put(w, 0, Close(cfg, x, LocalOf(w, 0), false));
    assert CloseFrom(cfg, x, w', 1) == w';
  }

  // ---- a send that is dropped ----------------------------------------------------------------

  /** One client, reconnecting off, no heartbeat within the test, and room for a second message. */
  ghost predicate Talkative(cfg: Config) {
    && cfg.Valid() && Encodes(cfg) && cfg.connections == 1 && cfg.privateMode && !cfg.reconnect
    && cfg.maxOutstanding >= 2 && cfg.heartbeat >= cfg.duration && cfg.sendInterval > 0
  }

  /** The test is on; the only client is online and has nothing left to write. */
  ghost predicate Sole(cfg: Config, w: World)
    requires cfg.Valid()
  {
    && w.testStarted && !w.draining && !w.finished && !w.shut && |w.conns| == 1 && w.sendCursor == 0
    && w.testEnd == cfg.duration && w.clock >= 0
    && var c := w.conns[0];
       && c.fd >= 0 && c.state == Online && c.uid == cfg.UserId(0) && c.peer == cfg.PeerUserId(0)
       && c.nextHeartbeat >= cfg.duration && c.out.frames == [] && c.out.offset == 0
  }

  lemma NotDueYet(cfg: Config, x: Ctx, l: Local)
    requires x.now < l.c.nextHeartbeat
    ensures Heartbeat(cfg, x, l) == l
  {
    hide Queue;
  }

  lemma NoBeat(cfg: Config, w: World, now: int)
    requires cfg.Valid() && Sole(cfg, w) && w.clock <= now < cfg.duration <= cfg.heartbeat
    ensures Step(cfg, w, HeartbeatTo(now, 0)) == w.(clock := now)
  {
    hide Heartbeat, Step, Config.UserId, Config.PeerUserId;
    NotDueYet(cfg, CtxOf(w, now), LocalOf(w, 0));
    StepBeats(cfg, w, now, 0);
    assert w.conns[0 := w.conns[0]] == w.conns;
  }

  lemma NoDrain(cfg: Config, w: World, now: int)
    requires cfg.Valid() && Sole(cfg, w) && w.clock <= now < cfg.duration
    ensures Enabled(cfg, w, DrainCheck(now)) && Step(cfg, w, DrainCheck(now)) == w.(clock := now)
  {
    hide Config.UserId, Config.PeerUserId;
    StepDrains(cfg, w, now);
    hide Step;
  }

  lemma SoleChoice(cfg: Config, conns: seq<Conn>)
    requires |conns| == 1 && CanSend(cfg, conns[0])
    ensures Choose(Sendable(cfg, conns), 0) == Some(0)
  {
    hide CanSend;
    var ok := Sendable(cfg, conns);
    assert ok[0];
    assert PickFrom(ok, 0, 0) == Some(0);
  }

  /** What a send makes of a connection that can queue its message. */
  ghost predicate Sent(cfg: Config, c: Conn, c': Conn) {
    && c' == c.(seq_ := SeqAfter(c.seq_), draws := c.draws + 1, logical := c.logical + 1, out := c'.out,
                pending := c'.pending, lost := c'.lost, queued := c'.queued, trace := c'.trace)
    && c'.lost == c.lost + (if DrawnSeq(c.seq_) in c.pending then 1 else 0)
    && c'.pending.Keys == c.pending.Keys + {DrawnSeq(c.seq_)}
    && (DrawnSeq(c.seq_) !in c.pending ==>
          c'.pending[DrawnSeq(c.seq_)].clientId == NewId(cfg, c) && c'.pending[DrawnSeq(c.seq_)].to == c.peer)
    && forall s :: s in c.pending ==> c'.pending[s] == c.pending[s]
  }

  lemma SendOneShape(cfg: Config, x: Ctx, l: Local)
    requires |NewId(cfg, l.c)| <= 64 && CanQueue(cfg, l.c, ChatBody(NewId(cfg, l.c), l.c.peer))
    ensures Sent(cfg, l.c, SendOne(cfg, x, l).c)
    ensures SendOne(cfg, x, l).m == l.m.(sendAttempts := l.m.sendAttempts + 1)
    ensures SendOne(cfg, x, l).c.out == Push(l.c.out, cfg.frame(ChatBody(NewId(cfg, l.c), l.c.peer), DrawnSeq(l.c.seq_)))
  {
    hide NewId, Push, SeqAfter, DrawnSeq;
  }

  /** One send turn of the only client. */
  lemma SendTurnGoes(cfg: Config, w: World, now: int)
    requires Talkative(cfg) && Sole(cfg, w) && w.clock <= now && w.nextSend <= now
    requires |w.conns[0].pending| < cfg.maxOutstanding && w.conns[0].logical + 1 < 10_000_000_000
    ensures var w' := Step(cfg, w, SendNext(now));
            && Selects(cfg, w, SendNext(now))
            && |w'.conns| == 1 && Sent(cfg, w.conns[0], w'.conns[0]) && OneFrame(w'.conns[0].out)
            && w' == w.(conns := w'.conns, m := w.m.(sendAttempts := w.m.sendAttempts + 1), clock := now,
                        nextSend := w.nextSend + cfg.sendInterval, selections := w.selections + 1)
  {
    hide SendOne, Config.PeerUserId, ClientId, Choose, Step, DrawnSeq, SeqAfter, Sent;
    var l := LocalOf(w, 0);
    ClientIdFits(cfg.runId, w.conns[0].uid, w.conns[0].logical + 1);
    hide Config.UserId;
    SendOneShape(cfg, CtxOf(w, now), l);
    SoleChoice(cfg, w.conns);
    StepSends(cfg, w, now);
  }

  lemma SendStageOne(cfg: Config, w: World, now: int)
    requires cfg.Valid() && cfg.privateMode && !w.draining && Selects(cfg, w, SendNext(now))
    requires now < Step(cfg, w, SendNext(now)).nextSend
    ensures SendStage(cfg, w, now, [SendNext(now)]) && Exec(cfg, w, [SendNext(now)]) == Step(cfg, w, SendNext(now))
  {
    hide Step, Selects;
    SelectingStarts(cfg, w);
    NoEvent(cfg, w, now);
    AllSelectMore(cfg, w, [], SendNext(now));
    ExecOneMore(cfg, w, [], SendNext(now));
    assert [] + [SendNext(now)] == [SendNext(now)];
    hide Exec, AllSelect;
  }

  lemma SendStageNone(cfg: Config, w: World, now: int)
    requires cfg.Valid() && now < w.nextSend
    ensures SendStage(cfg, w, now, []) && Exec(cfg, w, []) == w
  {
    hide Step;
    SelectingStarts(cfg, w);
    NoEvent(cfg, w, now);
    hide Exec, AllSelect;
  }

  /** A round in which one message is sent and its frame leaves. */
  lemma SendRound(cfg: Config, w: World, now: int) returns (w': World)
    requires Talkative(cfg) && Sole(cfg, w) && w.clock <= now == w.nextSend < cfg.duration
    requires |w.conns[0].pending| < cfg.maxOutstanding && w.conns[0].logical + 1 < 10_000_000_000
    ensures RoundTo(cfg, w, At(now, NoSocket, [Takes(0)]), w') && Sole(cfg, w')
    ensures Sent(cfg, w.conns[0], w'.conns[0]) && w'.nextSend == now + cfg.sendInterval && w'.clock == now
    ensures w'.m == w.m.(sendAttempts := w.m.sendAttempts + 1)
  {
    hide Step, Config.UserId, Config.PeerUserId, RoundTo, HandleEvent, SendStage, Selects, Encodes, SeqAfter, DrawnSeq, NewId;
    NoBeat(cfg, w, now);
    var w2 := w.(clock := now);
    SendTurnGoes(cfg, w2, now);
    var w3 := Step(cfg, w2, SendNext(now));
    SendStageOne(cfg, w2, now);
    DrainAfterSend(cfg, w2, w3, now);
    var t := Event(now, 0, Writes(w3.conns[0]));
    TakesHandles(cfg, w3, now, 0);
    WritesFrame(cfg, CtxOf(w3, now), LocalOf(w3, 0));
    StepNotifies(cfg, w3, now, 0, Writes(w3.conns[0]));
    w' := Step(cfg, w3, t);
    TestRoundGoes(cfg, w, At(now, NoSocket, [Takes(0)]), [SendNext(now)], t, w');
  }

  lemma DrainAfterSend(cfg: Config, w: World, w': World, now: int)
    requires cfg.Valid() && w.testStarted && !w.draining && !w.finished && !w.shut && now < w.testEnd && w.clock == now
    requires w' == w.(conns := w'.conns, m := w'.m, nextSend := w'.nextSend, selections := w'.selections)
    ensures Enabled(cfg, w', DrainCheck(now)) && Step(cfg, w', DrainCheck(now)) == w'
  {
    StepDrains(cfg, w', now);
    hide Step;
  }

  /** The server's answer to the message in flight under `s`. */
  function Answer(c: Conn, s: nat): Packet
    requires s in c.pending
  {
    ChatAck(s, AckBody(true, c.pending[s].clientId, 1, c.uid, c.pending[s].to, true))
  }

  lemma AnswerSettles(cfg: Config, x: Ctx, l: Local, s: nat)
    requires cfg.Valid() && l.c.fd >= 0 && l.c.state == Online && s in l.c.pending
    ensures HandleEvent(cfg, x, l, Reads(Answer(l.c, s), false)) ==
            Local(SettledBy(Hear(l, Answer(l.c, s)).c, s, Answer(l.c, s).ack), l.m.(chatAckOk := l.m.chatAckOk + 1))
  {
    hide Login, Close, HandleDelivery;
    var l1 := HandleChatAck(Hear(l, Answer(l.c, s)), s, Answer(l.c, s).ack);
    AnswerCounts(Hear(l, Answer(l.c, s)), s, Answer(l.c, s).ack);
    assert HandlePackets(cfg, x, l, [Answer(l.c, s)]) == HandlePackets(cfg, x, l1, []) == l1;
    hide HandlePackets;
  }

  /** A round in which nothing is due and the message in flight under `s` is answered. */
  lemma AnswerRound(cfg: Config, w: World, s: nat) returns (w': World)
    requires Talkative(cfg) && Sole(cfg, w) && w.clock < w.nextSend && w.clock < cfg.duration && s in w.conns[0].pending
    ensures RoundTo(cfg, w, At(w.clock, NoSocket, [Told(0, Reads(Answer(w.conns[0], s), false))]), w') && Sole(cfg, w')
    ensures var c := w.conns[0];
            w'.conns[0] == c.(pending := c.pending - {s}, resolved := c.resolved + [c.pending[s].clientId],
                              trace := w'.conns[0].trace)
    ensures w' == w.(conns := w'.conns, m := w.m.(chatAckOk := w.m.chatAckOk + 1))
  {
    hide Step, Config.UserId, Config.PeerUserId, RoundTo, HandleEvent, SendStage, Encodes;
    var now, e := w.clock, Reads(Answer(w.conns[0], s), false);
    NoBeat(cfg, w, now);
    assert w.(clock := now) == w;
    SendStageNone(cfg, w, now);
    NoDrain(cfg, w, now);
    var t := Event(now, 0, e);
    ToldHandles(cfg, w, now, 0, e);
    AnswerSettles(cfg, CtxOf(w, now), LocalOf(w, 0), s);
    StepNotifies(cfg, w, now, 0, e);
    w' := Step(cfg, w, t);
    TestRoundGoes(cfg, w, At(now, NoSocket, [Told(0, e)]), [], t, w');
  }

  /** When message `k` falls due. */
  function SendAt(cfg: Config, k: nat): nat {
    k * cfg.sendInterval
  }

  lemma NextSendAt(cfg: Config, k: nat)
    ensures SendAt(cfg, k + 1) == SendAt(cfg, k) + cfg.sendInterval && SendAt(cfg, 0) == 0
  {
  }

  lemma SendsRise(cfg: Config, j: nat, k: nat)
    requires j <= k
    ensures SendAt(cfg, j) <= SendAt(cfg, k)
  {
  }

  /** The first message is unanswered, and so many after it have been sent and answered. */
  ghost predicate Unanswered(cfg: Config, w: World, answered: nat)
    requires cfg.Valid()
  {
    && Sole(cfg, w) && w.clock == SendAt(cfg, answered) && w.nextSend == SendAt(cfg, answered + 1)
    && w.m.sendAttempts == answered + 1 && w.m.chatAckOk == answered && w.m.chatAckFail == 0
    && var c := w.conns[0];
       && c.draws == answered + 2 && c.seq_ == SeqAt(answered + 2) && c.logical == answered + 1 && c.lost == 0
       && c.pending.Keys == {2}
  }

  lemma OneInFlight(pending: map<nat, Pending>)
    requires pending.Keys == {2}
    ensures |pending| == 1
  {
    assert |pending| == |pending.Keys|;
  }

  /** One more message is sent and answered. */
  lemma OneMoreAnswered(cfg: Config, rounds: seq<Round>, w: World, k: nat) returns (rounds': seq<Round>, w': World)
    requires Talkative(cfg) && Leads(cfg, rounds, w) && Unanswered(cfg, w, k)
    requires k + 1 < SEQUENCES && SendAt(cfg, k + 1) < cfg.duration
    ensures Leads(cfg, rounds', w') && Unanswered(cfg, w', k + 1)
  {
    hide Config.UserId, Config.PeerUserId, RoundTo, Leads, Genuine, Encodes, SendAt, NewId, Sole;
    NextSendAt(cfg, k);
    NextSendAt(cfg, k + 1);
    FreeNumber(k);
    SoleHasOne(cfg, w);
    OneInFlight(w.conns[0].pending);
    var c, now, s := w.conns[0], SendAt(cfg, k + 1), NumberAt(k + 2);
    var w1 := SendRound(cfg, w, now);
    AllAreGenuine(0, GONE);
    LeadsOn(cfg, rounds, w, At(now, NoSocket, [Takes(0)]), w1);
    hide SeqAt, SeqAfter, DrawnSeq;
    SoleHasOne(cfg, w1);
    var e := Reads(Answer(w1.conns[0], s), false);
    w' := AnswerRound(cfg, w1, s);
    AllAreGenuine(0, e);
    LeadsOn(cfg, rounds + [At(now, NoSocket, [Takes(0)])], w1, At(now, NoSocket, [Told(0, e)]), w');
    rounds' := rounds + [At(now, NoSocket, [Takes(0)])] + [At(now, NoSocket, [Told(0, e)])];
  }

  lemma SoleHasOne(cfg: Config, w: World)
    requires cfg.Valid() && Sole(cfg, w)
    ensures |w.conns| == 1 && !w.finished
  {
  }

  /** Until they come round, the numbers drawn differ from the first message's. */
  lemma FreeNumber(k: nat)
    ensures k + 1 < SEQUENCES ==> NumberAt(k + 2) != 2
    ensures NumberAt(k + 2) == DrawnSeq(SeqAt(k + 2)) && SeqAfter(SeqAt(k + 2)) == SeqAt(k + 3)
  {
    DrawsCycle(k + 2);
  }

  lemma {:induction false} AllAnswered(cfg: Config, rounds: seq<Round>, w: World, k: nat)
    returns (rounds': seq<Round>, w': World)
    requires Talkative(cfg) && Leads(cfg, rounds, w) && Unanswered(cfg, w, 0)
    requires k < SEQUENCES && SendAt(cfg, k) < cfg.duration
    ensures Leads(cfg, rounds', w') && Unanswered(cfg, w', k)
    decreases k
  {
    hide Leads, Unanswered, SendAt, Encodes;
    if k == 0 {
      rounds', w' := rounds, w;
    } else {
      NextSendAt(cfg, k - 1);
      rounds', w' := AllAnswered(cfg, rounds, w, k - 1);
      rounds', w' := OneMoreAnswered(cfg, rounds', w', k - 1);
    }
  }

  /** The only client logs in, the test starts, and it sends a first message. */
  lemma FirstMessage(cfg: Config) returns (rounds: seq<Round>, w: World)
    requires Talkative(cfg)
    ensures Leads(cfg, rounds, w) && Unanswered(cfg, w, 0)
  {
    hide Init, Config.UserId, Config.PeerUserId, RoundTo, Leads, Genuine, Encodes, NewId;
    SetupBegins(cfg);
    LeadsNowhere(cfg);
    AllAreGenuine(0, LoginAnswer(cfg.UserId(0), false));
    var w0 := Init(cfg, 0);
    var w1 := OpenRound(cfg, w0, 0, 3, 0);
    var r1 := At(0, Immediate(3), [Takes(0)]);
    LeadsOn(cfg, [], w0, r1, w1);
    var w2 := LoginRound(cfg, w1, 0, 0);
    var r2 := At(0, NoSocket, [Told(0, LoginAnswer(cfg.UserId(0), false))]);
    LeadsOn(cfg, [] + [r1], w1, r2, w2);
    var w3 := GateRound(cfg, w2);
    var r3 := At(0, NoSocket, []);
    LeadsOn(cfg, [] + [r1] + [r2], w2, r3, w3);
    FirstNumbers();
    NextSendAt(cfg, 0);
    hide SendAt, SeqAt, SeqAfter, DrawnSeq;
    w := SendRound(cfg, w3, 0);
    var r4 := At(0, NoSocket, [Takes(0)]);
    LeadsOn(cfg, [] + [r1] + [r2] + [r3], w3, r4, w);
    rounds := [] + [r1] + [r2] + [r3] + [r4];
  }

  lemma FirstNumbers()
    ensures DrawnSeq(SeqAt(1)) == 2 && SeqAfter(SeqAt(1)) == SeqAt(2) && SeqAfter(1) == SeqAt(1)
  {
  }

  /**
   * The bound on the draws is exact, within the limits of the command line: 50,000 messages a second
   * for a day are enough. The first message is never answered, all others are at once, and when
   * their numbers come round the next message draws the number of the first and is dropped, though
   * it is counted as sent.
   */
  lemma SendCanBeDropped(cfg: Config) returns (rounds: seq<Round>, w: World)
    requires Talkative(cfg) && SEQUENCES * cfg.sendInterval < cfg.duration
    ensures Leads(cfg, rounds, w)
    ensures |w.conns| == 1 && w.conns[0].draws == SEQUENCES + 2 && w.conns[0].lost == 1
    ensures w.m.sendAttempts == SEQUENCES + 1 && w.m.chatAckOk == SEQUENCES - 1 && w.m.chatAckFail == 0
    ensures |w.conns[0].pending| == 1
  {
    hide Config.UserId, Config.PeerUserId, RoundTo, Leads, Genuine, Encodes, NewId, SeqAfter;
    var first, w1 := FirstMessage(cfg);
    SendsRise(cfg, SEQUENCES - 1, SEQUENCES);
    hide SendAt;
    var before, w2 := AllAnswered(cfg, first, w1, SEQUENCES - 1);
    OneInFlight(w2.conns[0].pending);
    DrawsCycle(SEQUENCES + 1);
    hide SeqAt, DrawnSeq;
    var now := w2.nextSend;
    w := SendRound(cfg, w2, now);
    AllAreGenuine(0, GONE);
    LeadsOn(cfg, before, w2, At(now, NoSocket, [Takes(0)]), w);
    rounds := before + [At(now, NoSocket, [Takes(0)])];
    OneInFlight(w.conns[0].pending);
  }

  /** Such a configuration: one client, a window of two, 50,000 messages a second for a day. */
  lemma DroppingConfig() returns (cfg: Config)
    ensures Talkative(cfg) && SEQUENCES * cfg.sendInterval < cfg.duration
  {
    var day := 86400 * SECOND;
    cfg := Config(1, 500000, None, true, 2, false, 100, 3000, 20, 10_000_000, 3_333_333, 20_000, day, day, 10 * SECOND,
                  60 * SECOND, 0, _ => true, (_, _) => [0], (_, _) => 0);
  }
}
