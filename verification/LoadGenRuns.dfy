/**
 * Whole runs of the failover load generator. A run is any sequence of the turns of its main loop,
 * each with whatever the environment answered; what holds of every state a run can reach follows
 * from what every handler keeps.
 */
module LoadGenRuns {
  import opened Basics
  import opened RoundRobin
  import opened LoadGenModel
  import opened LoadGenTrace
  import opened LoadGenInvariant

  datatype World = World(
    conns: seq<Conn>,
    m: Metrics,
    created: nat,
    sendCursor: nat,
    reconnectCursor: nat,
    testStarted: bool,
    setupFailed: bool,
    draining: bool,
    finished: bool,
    nextConnect: int,
    nextReconnectGlobal: int,
    setupDeadline: int,
    testStart: int,
    testEnd: int,
    nextSend: int,
    drainEnd: int,
    clock: int,         // history: the latest clock reading
    selections: nat,    // history: connections selected for sending
    shut: bool)         // history: the controlled shutdown happened

  function Init(cfg: Config, start: nat): World {
    World(seq(cfg.connections, _ => NEW_CONN), ZERO, 0, 0, 0, false, false, false, false,
          start, start, start + cfg.setupBudget, 0, 0, 0, 0, start, 0, false)
  }

  /** One iteration of a loop body of the generator, with what the environment answered. */
  datatype Turn =
    | OpenNext(now: int, result: OpenResult)
    | EvaluateSetup(now: int)
    | ReconnectNext(now: int, result: OpenResult)
    | ReconnectPass(now: int)
    | HeartbeatTo(now: int, i: nat)
    | SendNext(now: int)
    | DrainCheck(now: int)
    | Event(now: int, i: nat, ready: Ready)
    | Stray(now: int)
    | Shutdown(now: int)

  function CtxOf(w: World, now: int): Ctx {
    Ctx(w.testStarted, w.draining, now)
  }

  function LocalOf(w: World, i: nat): Local
    requires i < |w.conns|
  {
    Local(w.conns[i], w.m)
  }

  function Put(w: World, i: nat, l: Local): World
    requires i < |w.conns|
  {
    w.(conns := w.conns[i := l.c], m := l.m)
  }

  function Sendable(cfg: Config, conns: seq<Conn>): (ok: seq<bool>)
    ensures |ok| == |conns|
    ensures forall i :: 0 <= i < |conns| ==> ok[i] == CanSend(cfg, conns[i])
  {
    seq(|conns|, i requires 0 <= i < |conns| => CanSend(cfg, conns[i]))
  }

  function Reconnectable(cfg: Config, now: int, conns: seq<Conn>): (ok: seq<bool>)
    ensures |ok| == |conns|
    ensures forall i :: 0 <= i < |conns| ==> ok[i] == CanReconnect(cfg, now, conns[i])
  {
    seq(|conns|, i requires 0 <= i < |conns| => CanReconnect(cfg, now, conns[i]))
  }

  /** A chosen index, or none if the cursor is out of range, which no run produces. */
  function Choose(ok: seq<bool>, cursor: nat): (r: Option<nat>)
    ensures r.Some? ==> r.value < |ok| && ok[r.value]
  {
    if cursor >= |ok| then None
    else PickFromIsNearest(ok, cursor, 0); Pick(ok, cursor)
  }

  // ---- the turns -----------------------------------------------------------------------------

  ghost function OpenTurn(cfg: Config, w: World, now: int, r: OpenResult): World
    requires cfg.Valid() && w.created < |w.conns|
  {
    Put(w, w.created, OpenSocket(cfg, CtxOf(w, now), w.created, LocalOf(w, w.created), false, r))
      .(created := w.created + 1, nextConnect := w.nextConnect + cfg.connectInterval)
  }

  function SetupTurn(cfg: Config, w: World, now: int): World {
    var terminal := w.m.connectFail + w.m.loginOk + w.m.loginFail;
    if w.created == cfg.connections && terminal >= cfg.connections then
      if w.m.loginOk != cfg.connections then w.(setupFailed := true, finished := true)
      else w.(testStarted := true, testStart := now, testEnd := now + cfg.duration,
              nextSend := now, nextReconnectGlobal := now)
    else if now >= w.setupDeadline then w.(setupFailed := true, finished := true)
    else w
  }

  ghost function ReconnectTurn(cfg: Config, w: World, now: int, r: OpenResult): World
    requires cfg.Valid()
  {
    match Choose(Reconnectable(cfg, now, w.conns), w.reconnectCursor)
    case None => w
    case Some(i) =>
      Put(w, i, OpenSocket(cfg, CtxOf(w, now), i, LocalOf(w, i), true, r))
        .(reconnectCursor := Advance(i, |w.conns|), nextReconnectGlobal := w.nextReconnectGlobal + cfg.reconnectInterval)
  }

  function SendTurn(cfg: Config, w: World, now: int): World {
    match Choose(Sendable(cfg, w.conns), w.sendCursor)
    case None =>
      w.(m := w.m.(backpressureSkips := w.m.backpressureSkips + 1), nextSend := now + cfg.sendInterval)
    case Some(i) =>
      Put(w, i, SendOne(cfg, CtxOf(w, now), LocalOf(w, i)))
        .(sendCursor := Advance(i, |w.conns|), nextSend := w.nextSend + cfg.sendInterval,
          selections := w.selections + 1)
  }

  function DrainTurn(cfg: Config, w: World, now: int): World {
    if !w.draining then
      if now >= w.testEnd then w.(draining := true, drainEnd := now + cfg.drain) else w
    else if now >= w.drainEnd then w.(finished := true)
    else w
  }

  /** A notification for no connection. */
  function StrayTurn(w: World): World {
    w.(m := w.m.(protocolErrors := w.m.protocolErrors + 1))
  }

  ghost function CloseFrom(cfg: Config, x: Ctx, w: World, i: nat): World
    requires cfg.Valid() && i <= |w.conns|
    decreases |w.conns| - i
  {
    if i == |w.conns| then w
    else CloseFrom(cfg, x, Put(w, i, Close(cfg, x, LocalOf(w, i), false)), i + 1)
  }

  /** Whether the main loop can take this turn now. The clock never runs backwards. */
  ghost predicate Enabled(cfg: Config, w: World, t: Turn) {
    && !w.shut && t.now >= w.clock
    && match t
       case OpenNext(now, _) => !w.finished && !w.testStarted && w.created < |w.conns| && now >= w.nextConnect
       case EvaluateSetup(_) => !w.finished && !w.testStarted
       case ReconnectNext(now, _) =>
         !w.finished && w.testStarted && cfg.reconnect && !w.draining && now >= w.nextReconnectGlobal
       case ReconnectPass(_) => !w.finished && w.testStarted && cfg.reconnect && !w.draining
       case HeartbeatTo(_, i) => !w.finished && w.testStarted && i < |w.conns|
       case SendNext(now) => !w.finished && w.testStarted && !w.draining && cfg.privateMode && now >= w.nextSend
       case DrainCheck(_) => !w.finished && w.testStarted
       case Event(_, i, ready) => i < |w.conns| && Plausible(w.conns[i], ready)
       case Stray(_) => true
       case Shutdown(_) => w.finished
  }

  /** A turn that is not enabled leaves everything as it is. */
  ghost function Step(cfg: Config, w: World, t: Turn): World
    requires cfg.Valid()
  {
    if !Enabled(cfg, w, t) then w
    else
      var w' :=
        match t
        case OpenNext(now, r) => OpenTurn(cfg, w, now, r)
        case EvaluateSetup(now) => SetupTurn(cfg, w, now)
        case ReconnectNext(now, r) => ReconnectTurn(cfg, w, now, r)
        case ReconnectPass(now) =>
          if w.nextReconnectGlobal < now - SECOND then w.(nextReconnectGlobal := now) else w
        case HeartbeatTo(now, i) => Put(w, i, Heartbeat(cfg, CtxOf(w, now), LocalOf(w, i)))
        case SendNext(now) => SendTurn(cfg, w, now)
        case DrainCheck(now) => DrainTurn(cfg, w, now)
        case Event(now, i, ready) => Put(w, i, HandleEvent(cfg, CtxOf(w, now), LocalOf(w, i), ready))
        case Stray(now) => StrayTurn(w)
        case Shutdown(now) => CloseFrom(cfg, CtxOf(w, now), w, 0).(shut := true);
      w'.(clock := t.now)
  }

  lemma StepIdles(cfg: Config, w: World, t: Turn)
    requires cfg.Valid() && !Enabled(cfg, w, t)
    ensures Step(cfg, w, t) == w
  {
    hide Enabled, OpenTurn, SetupTurn, ReconnectTurn, SendTurn, DrainTurn, HandleEvent, Heartbeat, StrayTurn, CloseFrom;
  }

  lemma StepOpens(cfg: Config, w: World, now: int, r: OpenResult)
    requires cfg.Valid() && Enabled(cfg, w, OpenNext(now, r))
    ensures Step(cfg, w, OpenNext(now, r)) == OpenTurn(cfg, w, now, r).(clock := now)
  {
    hide OpenTurn;
  }

  lemma StepEvaluates(cfg: Config, w: World, now: int)
    requires cfg.Valid() && Enabled(cfg, w, EvaluateSetup(now))
    ensures Step(cfg, w, EvaluateSetup(now)) == SetupTurn(cfg, w, now).(clock := now)
  {
    hide SetupTurn;
  }

  lemma StepReconnects(cfg: Config, w: World, now: int, r: OpenResult)
    requires cfg.Valid() && Enabled(cfg, w, ReconnectNext(now, r))
    ensures Step(cfg, w, ReconnectNext(now, r)) == ReconnectTurn(cfg, w, now, r).(clock := now)
  {
    hide ReconnectTurn;
  }

  lemma StepBeats(cfg: Config, w: World, now: int, i: nat)
    requires cfg.Valid() && Enabled(cfg, w, HeartbeatTo(now, i))
    ensures Step(cfg, w, HeartbeatTo(now, i)) == Put(w, i, Heartbeat(cfg, CtxOf(w, now), LocalOf(w, i))).(clock := now)
  {
    hide Heartbeat;
  }

  lemma StepSends(cfg: Config, w: World, now: int)
    requires cfg.Valid() && Enabled(cfg, w, SendNext(now))
    ensures var w' := Step(cfg, w, SendNext(now));
            match Choose(Sendable(cfg, w.conns), w.sendCursor)
            case None => w' == w.(m := w.m.(backpressureSkips := w.m.backpressureSkips + 1),
                                  nextSend := now + cfg.sendInterval, clock := now)
            case Some(i) =>
              w' == Put(w, i, SendOne(cfg, CtxOf(w, now), LocalOf(w, i)))
                      .(sendCursor := Advance(i, |w.conns|), nextSend := w.nextSend + cfg.sendInterval,
                        selections := w.selections + 1, clock := now)
  {
    hide SendOne, Choose, Sendable;
  }

  lemma StepDrains(cfg: Config, w: World, now: int)
    requires cfg.Valid() && Enabled(cfg, w, DrainCheck(now))
    ensures Step(cfg, w, DrainCheck(now)) == DrainTurn(cfg, w, now).(clock := now)
  {
    hide DrainTurn;
  }

  lemma StepNotifies(cfg: Config, w: World, now: int, i: nat, e: Ready)
    requires cfg.Valid() && Enabled(cfg, w, Event(now, i, e))
    ensures Step(cfg, w, Event(now, i, e)) == Put(w, i, HandleEvent(cfg, CtxOf(w, now), LocalOf(w, i), e)).(clock := now)
  {
    hide HandleEvent;
  }

  lemma StepStrays(cfg: Config, w: World, now: int)
    requires cfg.Valid() && Enabled(cfg, w, Stray(now))
    ensures Step(cfg, w, Stray(now)) == StrayTurn(w).(clock := now)
  {
  }

  lemma StepShuts(cfg: Config, w: World, now: int)
    requires cfg.Valid() && Enabled(cfg, w, Shutdown(now))
    ensures Step(cfg, w, Shutdown(now)) == CloseFrom(cfg, CtxOf(w, now), w, 0).(shut := true, clock := now)
  {
    hide CloseFrom;
  }

  ghost function Exec(cfg: Config, w: World, run: seq<Turn>): World
    requires cfg.Valid()
  {
    if run == [] then w else Step(cfg, Exec(cfg, w, run[..|run| - 1]), run[|run| - 1])
  }

  lemma ExecOneMore(cfg: Config, w: World, run: seq<Turn>, t: Turn)
    requires cfg.Valid()
    ensures Exec(cfg, w, run + [t]) == Step(cfg, Exec(cfg, w, run), t)
  {
    hide Step;
    assert (run + [t])[..|run|] == run;
  }

  lemma {:induction false} ExecJoins(cfg: Config, w: World, run: seq<Turn>, more: seq<Turn>)
    requires cfg.Valid()
    ensures Exec(cfg, w, run + more) == Exec(cfg, Exec(cfg, w, run), more)
    decreases |more|
  {
    hide Step;
    if more == [] {
      assert run + more == run;
    } else {
      var front, last := more[..|more| - 1], more[|more| - 1];
      assert (run + more)[..|run + more| - 1] == run + front;
      ExecJoins(cfg, w, run, front);
    }
  }

  // ---- totals --------------------------------------------------------------------------------

  function Total(conns: seq<Conn>): Ledger {
    if conns == [] then NOTHING else Plus(Total(conns[..|conns| - 1]), Owed(conns[|conns| - 1]))
  }

  lemma {:induction false} TotalUpdate(conns: seq<Conn>, i: nat, c: Conn)
    requires i < |conns|
    ensures Total(conns[i := c]) == Plus(Minus(Total(conns), Owed(conns[i])), Owed(c))
  {
    hide Owed, Plus, Minus;
    var n := |conns| - 1;
    if i == n {
      assert conns[i := c][..n] == conns[..n];
      Replace(Total(conns[..n]), Owed(conns[n]), Owed(c));
    } else {
      assert conns[i := c][..n] == conns[..n][i := c];
      TotalUpdate(conns[..n], i, c);
      Exchange(Total(conns[..n]), Owed(conns[i]), Owed(c), Owed(conns[n]));
    }
  }

  lemma Replace(t: Ledger, owed: Ledger, owed': Ledger)
    ensures Plus(t, owed') == Plus(Minus(Plus(t, owed), owed), owed')
  {
  }

  lemma Exchange(t: Ledger, owed: Ledger, owed': Ledger, last: Ledger)
    ensures Plus(Plus(Minus(t, owed), owed'), last) == Plus(Minus(Plus(t, last), owed), owed')
  {
  }

  /** A balanced change of one connection keeps the books of all of them. */
  lemma BooksKept(w: World, i: nat, l: Local)
    requires i < |w.conns| && Booked(w.m) == Total(w.conns)
    requires Balanced(LocalOf(w, i), l)
    ensures Booked(Put(w, i, l).m) == Total(Put(w, i, l).conns)
  {
    TotalUpdate(w.conns, i, l.c);
    Rebook(Booked(w.m), Owed(w.conns[i]), Booked(l.m), Owed(l.c));
  }

  lemma Rebook(booked: Ledger, owed: Ledger, booked': Ledger, owed': Ledger)
    requires Minus(booked, owed) == Minus(booked', owed')
    ensures booked' == Plus(Minus(booked, owed), owed')
  {
  }

  // ---- the invariant of every reachable state ------------------------------------------------

  ghost predicate ConnsInv(cfg: Config, w: World) {
    && |w.conns| == cfg.connections
    && forall i :: 0 <= i < |w.conns| ==>
         && ConnInv(cfg, i, w.conns[i]) && AtRest(w.conns[i])
         && (!w.shut ==> Tracked(cfg, CtxOf(w, 0), w.conns[i]))
         && (w.conns[i].state == Unused <==> i >= w.created)
         && (if w.testStarted then w.conns[i].everOnline else !w.conns[i].countedDisconnect)
  }

  /** The send timer is at least one interval per selection past the start of the test. */
  ghost predicate Paced(cfg: Config, w: World) {
    && (!w.testStarted ==> w.selections == 0)
    && (w.testStarted ==> w.testStart <= w.clock && w.nextSend >= w.testStart + w.selections * cfg.sendInterval)
    && (w.selections > 0 ==> w.clock >= w.testStart + (w.selections - 1) * cfg.sendInterval)
    && w.m.sendAttempts <= w.selections
  }

  ghost predicate ShutDown(w: World) {
    w.shut ==> forall i :: 0 <= i < |w.conns| ==> w.conns[i].fd < 0
  }

  ghost predicate Cursors(cfg: Config, w: World) {
    && w.sendCursor < cfg.connections && w.reconnectCursor < cfg.connections && w.created <= cfg.connections
    && w.clock >= 0 && (w.draining ==> w.testStarted) && (w.testStarted ==> w.created == cfg.connections)
    && (w.finished && w.testStarted ==> w.draining) && (w.shut ==> w.finished)
  }

  /** Connections are opened one interval apart, counted from the start of the run. */
  ghost predicate Ramped(cfg: Config, w: World) {
    var start := w.setupDeadline - cfg.setupBudget;
    && w.nextConnect == start + w.created * cfg.connectInterval
    && (w.created > 0 ==> w.clock >= start + (w.created - 1) * cfg.connectInterval)
  }

  /** The phases of a run follow one another no sooner than configured. */
  ghost predicate Phased(cfg: Config, w: World) {
    && (w.testStarted ==> w.testEnd == w.testStart + cfg.duration && !w.setupFailed)
    && (w.draining ==> w.testEnd + cfg.drain <= w.drainEnd <= w.clock + cfg.drain)
    && (w.finished ==> if w.testStarted then w.drainEnd <= w.clock else w.setupFailed)
    && (w.setupFailed ==> w.finished)
  }

  ghost predicate WorldInv(cfg: Config, w: World) {
    && Cursors(cfg, w) && Phased(cfg, w) && Ramped(cfg, w) && ConnsInv(cfg, w)
    && Booked(w.m) == Total(w.conns) && Paced(cfg, w) && ShutDown(w)
  }

  /**
   * What a turn does to the meters: a first send needs a selection; a reconnect attempt needs its
   * token to be due, takes the nearest client after the cursor, and moves the token timer on by an
   * interval. Otherwise the timer only moves forward and the cursor not at all.
   */
  ghost predicate Metered(cfg: Config, w: World, dialling: bool, w': World) {
    && w'.m.sendAttempts - w.m.sendAttempts <= w'.selections - w.selections
    && (|| (&& w'.m.reconnectAttempts == w.m.reconnectAttempts
            && w'.reconnectCursor == w.reconnectCursor
            && (w.testStarted ==> w'.nextReconnectGlobal >= w.nextReconnectGlobal))
        || (&& dialling && w'.m.reconnectAttempts == w.m.reconnectAttempts + 1
            && w'.nextReconnectGlobal == w.nextReconnectGlobal + cfg.reconnectInterval
            && w'.clock >= w.nextReconnectGlobal
            && var chosen := Choose(Reconnectable(cfg, w'.clock, w.conns), w.reconnectCursor);
               chosen.Some? && w'.reconnectCursor == Advance(chosen.value, |w.conns|)))
  }

  /** A connection nothing has happened to yet. */
  predicate Blank(c: Conn) {
    && c.state == Unused && c.aborts == 0 && c.refused == 0 && c.lost == 0 && c.attemptNo == 0
    && c.replays == c.recoveries == c.exhausted == |c.queued| == 0
    && !c.everOnline && !c.countedDisconnect && !c.recoveredOnce
    && |c.resolved| == |c.pending| == |c.retryPending| == |c.seenDeliveries| == 0
    && |c.trace.packets| == |c.trace.outcomes| == |c.trace.heard| == 0
  }

  lemma BlankOwesNothing(t: Ledger, c: Conn)
    requires Blank(c)
    ensures Plus(t, Owed(c)) == t
  {
    BlankOwes(c);
    var owed := Owed(c);
    hide Owed;
  }

  lemma BlankOwes(c: Conn)
    requires Blank(c)
    ensures var o := Owed(c);
            && o.loginsOk == o.firstLogins == o.reauths == o.affected == o.disconnects == o.recovered == 0
            && o.reconnectTries == o.settled == o.sends == o.setupOutcomes == o.started == o.firstConnects == 0
            && o.reconnects == o.reauthPerReconnect == o.loginFailures == o.deliveries == o.uniqueDeliveries == 0
            && o.reauthOks == o.retries == o.frames == o.exhaustions == 0 && o.traffic == NO_TRAFFIC
  {
  }

  lemma {:induction false} TotalOfBlank(conns: seq<Conn>)
    requires forall i :: 0 <= i < |conns| ==> Blank(conns[i])
    ensures Total(conns) == NOTHING
  {
    hide Owed, Plus, Blank;
    if conns != [] {
      BlankOwesNothing(NOTHING, conns[|conns| - 1]);
      TotalOfBlank(conns[..|conns| - 1]);
    }
  }

  lemma NothingBooked(m: Metrics)
    requires m == ZERO
    ensures Booked(m) == NOTHING
  {
  }

  lemma InitInv(cfg: Config, start: nat)
    requires cfg.Valid()
    ensures WorldInv(cfg, Init(cfg, start))
  {
    hide Total, Owed, Booked, ConnInv;
    TotalOfBlank(Init(cfg, start).conns);
    NothingBooked(ZERO);
    NewConnInv(cfg);
  }

  lemma NewConnInv(cfg: Config)
    ensures forall i: nat :: ConnInv(cfg, i, NEW_CONN)
  {
  }

  /** The phase as seen by a connection does not depend on the clock. */
  lemma TrackedAnyTime(cfg: Config, x: Ctx, y: Ctx, c: Conn)
    requires x.testStarted == y.testStarted && x.draining == y.draining
    ensures Tracked(cfg, x, c) == Tracked(cfg, y, c)
    ensures Tracked(cfg, x, c) && !x.testStarted ==> !c.countedDisconnect
  {
  }

  /** Replacing one connection by what a handler made of it keeps every connection in order. */
  lemma PutInv(cfg: Config, w: World, now: int, i: nat, l: Local)
    requires ConnsInv(cfg, w) && Booked(w.m) == Total(w.conns) && i < |w.conns|
    requires InOrder(cfg, CtxOf(w, now), i, LocalOf(w, i), l)
    requires l.c.state == Unused <==> w.conns[i].state == Unused
    requires w.conns[i].everOnline ==> l.c.everOnline
    ensures ConnsInv(cfg, Put(w, i, l)) && Booked(l.m) == Total(Put(w, i, l).conns)
  {
    hide ConnInv, Tracked, Drift, Booked, Total;
    BooksKept(w, i, l);
    TrackedAnyTime(cfg, CtxOf(w, now), CtxOf(w, 0), l.c);
  }

  /** A turn taken before the shutdown keeps the connections, the books and the meters. */
  ghost predicate Advances(cfg: Config, w: World, now: int, dialling: bool, w': World) {
    && ConnsInv(cfg, w') && Booked(w'.m) == Total(w'.conns) && !w'.shut
    && Metered(cfg, w, dialling, w'.(clock := now))
  }

  // ---- every turn keeps the invariant --------------------------------------------------------

  lemma OpenTurnInv(cfg: Config, w: World, now: int, r: OpenResult)
    requires cfg.Valid() && WorldInv(cfg, w) && now >= 0
    requires w.created < |w.conns| && !w.testStarted && !w.shut
    ensures Advances(cfg, w, now, false, OpenTurn(cfg, w, now, r))
  {
    hide ConnInv, Tracked, Drift, Booked, Total, OpenSocket;
    var i, x, l := w.created, CtxOf(w, now), LocalOf(w, w.created);
    var l' := OpenSocket(cfg, x, i, l, false, r);
    assert OpenTurn(cfg, w, now, r).conns[i] == l'.c;
    TrackedAnyTime(cfg, CtxOf(w, 0), x, l.c);
    OpenKeeps(cfg, x, i, l, false, r);
    BooksKept(w, i, l');
    TrackedAnyTime(cfg, x, CtxOf(w, 0), l'.c);
  }

  lemma ReconnectTurnInv(cfg: Config, w: World, now: int, r: OpenResult)
    requires cfg.Valid() && WorldInv(cfg, w) && now >= 0 && !w.shut && now >= w.nextReconnectGlobal
    ensures Advances(cfg, w, now, true, ReconnectTurn(cfg, w, now, r))
  {
    hide ConnInv, Tracked, Drift, Booked, Total, OpenSocket, Choose;
    var chosen := Choose(Reconnectable(cfg, now, w.conns), w.reconnectCursor);
    if chosen.Some? {
      var i, x := chosen.value, CtxOf(w, now);
      var l := LocalOf(w, i);
      var l' := OpenSocket(cfg, x, i, l, true, r);
      assert ReconnectTurn(cfg, w, now, r).conns[i] == l'.c;
      RecoveringWasUsed(cfg, i, l.c);
      TrackedAnyTime(cfg, CtxOf(w, 0), x, l.c);
      OpenKeeps(cfg, x, i, l, true, r);
      PutInv(cfg, w, now, i, l');
    }
  }

  lemma RecoveringWasUsed(cfg: Config, i: nat, c: Conn)
    requires ConnInv(cfg, i, c) && c.recoveryPending
    ensures c.state != Unused
  {
  }

  lemma EventTurnInv(cfg: Config, w: World, now: int, i: nat, e: Ready)
    requires cfg.Valid() && WorldInv(cfg, w) && now >= 0 && !w.shut
    requires i < |w.conns| && Plausible(w.conns[i], e)
    ensures Advances(cfg, w, now, false, Put(w, i, HandleEvent(cfg, CtxOf(w, now), LocalOf(w, i), e)))
  {
    hide ConnInv, Tracked, Drift, Booked, Total, HandleEvent;
    var x, l := CtxOf(w, now), LocalOf(w, i);
    TrackedAnyTime(cfg, CtxOf(w, 0), x, l.c);
    assert Good(cfg, x, i, l.c);
    EventKeeps(cfg, x, i, l, e);
    UnusedIgnoresEvents(cfg, x, i, l, e);
    PutInv(cfg, w, now, i, HandleEvent(cfg, x, l, e));
  }

  lemma UnusedIgnoresEvents(cfg: Config, x: Ctx, i: nat, l: Local, e: Ready)
    requires cfg.Valid() && ConnInv(cfg, i, l.c)
    ensures l.c.state == Unused ==> HandleEvent(cfg, x, l, e) == l
  {
    hide OnConnected, OnWritable, OnReadable, OnHangup, HandleConnectFailure, Store;
  }

  lemma HeartbeatTurnInv(cfg: Config, w: World, now: int, i: nat)
    requires cfg.Valid() && WorldInv(cfg, w) && !w.shut && i < |w.conns|
    ensures Advances(cfg, w, now, false, Put(w, i, Heartbeat(cfg, CtxOf(w, now), LocalOf(w, i))))
  {
    hide ConnInv, Tracked, Drift, Booked, Total, Queue;
    var x, l := CtxOf(w, now), LocalOf(w, i);
    TrackedAnyTime(cfg, CtxOf(w, 0), x, l.c);
    HeartbeatKeeps(cfg, x, i, l);
    PutInv(cfg, w, now, i, Heartbeat(cfg, x, l));
  }

  lemma SendTurnInv(cfg: Config, w: World, now: int)
    requires cfg.Valid() && WorldInv(cfg, w) && !w.shut
    ensures Advances(cfg, w, now, false, SendTurn(cfg, w, now))
  {
    hide ConnInv, Tracked, Drift, Total, SendOne, Choose;
    var chosen := Choose(Sendable(cfg, w.conns), w.sendCursor);
    if chosen.Some? {
      hide Booked;
      var i, x := chosen.value, CtxOf(w, now);
      var l := LocalOf(w, i);
      var l' := SendOne(cfg, x, l);
      assert SendTurn(cfg, w, now).conns[i] == l'.c;
      TrackedAnyTime(cfg, CtxOf(w, 0), x, l.c);
      SendKeeps(cfg, x, i, l);
      PutInv(cfg, w, now, i, l');
    }
  }

  lemma {:induction false} LoginsCount(conns: seq<Conn>)
    ensures 0 <= Total(conns).loginsOk <= |conns|
    ensures Total(conns).loginsOk == |conns| ==> forall i :: 0 <= i < |conns| ==> conns[i].everOnline
  {
    if conns != [] {
      LoginsCount(conns[..|conns| - 1]);
    }
  }

  lemma SetupTurnInv(cfg: Config, w: World, now: int)
    requires cfg.Valid() && WorldInv(cfg, w) && !w.shut && !w.testStarted
    ensures Advances(cfg, w, now, false, SetupTurn(cfg, w, now))
  {
    hide ConnInv, Total, Booked;
    LoginsCount(w.conns);
    LoginsBooked(w.m);
  }

  lemma LoginsBooked(m: Metrics)
    ensures Booked(m).loginsOk == m.loginOk
  {
  }

  lemma StrayTurnInv(cfg: Config, w: World, now: int)
    requires cfg.Valid() && WorldInv(cfg, w) && !w.shut
    ensures Advances(cfg, w, now, false, StrayTurn(w))
  {
    hide ConnInv, Total;
  }

  lemma DrainTurnInv(cfg: Config, w: World, now: int)
    requires cfg.Valid() && WorldInv(cfg, w) && !w.shut
    ensures Advances(cfg, w, now, false, DrainTurn(cfg, w, now))
  {
    hide ConnInv, Total, Booked;
  }

  /** Controlled shutdown: connection by connection, with nothing counted as a disconnect. */
  lemma {:induction false} CloseFromInv(cfg: Config, x: Ctx, w: World, i: nat)
    requires cfg.Valid() && x.now >= 0 && i <= |w.conns|
    requires ConnsInv(cfg, w.(shut := true)) && Booked(w.m) == Total(w.conns)
    requires forall j :: 0 <= j < i ==> w.conns[j].fd < 0
    ensures var w' := CloseFrom(cfg, x, w, i);
            && ConnsInv(cfg, w'.(shut := true)) && Booked(w'.m) == Total(w'.conns)
            && w' == w.(conns := w'.conns, m := w'.m) && Quiet(w.m, w'.m)
            && (forall j :: 0 <= j < |w'.conns| ==> w'.conns[j].fd < 0)
    decreases |w.conns| - i
  {
    hide ConnInv, Drift, Booked, Total, Close;
    if i < |w.conns| {
      var l := LocalOf(w, i);
      var l' := Close(cfg, x, l, false);
      CloseKeeps(cfg, x, i, l, false);
      ClosedHasNoSocket(cfg, x, i, l);
      BooksKept(w, i, l');
      CloseFromInv(cfg, x, Put(w, i, l'), i + 1);
    }
  }

  lemma ClosedHasNoSocket(cfg: Config, x: Ctx, i: nat, l: Local)
    requires cfg.Valid() && ConnInv(cfg, i, l.c) && x.now >= 0
    ensures var c' := Close(cfg, x, l, false).c;
            c'.fd < 0 && (l.c.state == Unused <==> c'.state == Unused) && AtRest(c')
  {
    CloseKeeps(cfg, x, i, l, false);
    assert l.c.fd < 0 ==> Close(cfg, x, l, false) == l;
    hide Store, Close, Drift;
  }

  /** Connections come and go by no turn. */
  lemma StepKeepsCount(cfg: Config, w: World, t: Turn)
    requires cfg.Valid()
    ensures |Step(cfg, w, t).conns| == |w.conns|
  {
    hide OpenSocket, HandleEvent, Heartbeat, SendOne, CloseFrom, Choose, CanSend, CanReconnect;
    if Enabled(cfg, w, t) && t.Shutdown? { CloseFromFrame(cfg, CtxOf(w, t.now), w, 0); }
  }

  lemma StepConnsInv(cfg: Config, w: World, t: Turn)
    requires cfg.Valid() && WorldInv(cfg, w) && Enabled(cfg, w, t)
    ensures var w' := Step(cfg, w, t);
            ConnsInv(cfg, w') && Booked(w'.m) == Total(w'.conns) && ShutDown(w') && Metered(cfg, w, t.ReconnectNext?, w')
  {
    hide ConnInv, Tracked, Booked, Total, OpenTurn, ReconnectTurn, SendTurn, SetupTurn, DrainTurn, StrayTurn, HandleEvent, Heartbeat, CloseFrom;
    match t
    case OpenNext(now, r) => OpenTurnInv(cfg, w, now, r);
    case EvaluateSetup(now) => SetupTurnInv(cfg, w, now);
    case ReconnectNext(now, r) => ReconnectTurnInv(cfg, w, now, r);
    case ReconnectPass(now) =>
    case HeartbeatTo(now, i) =>
      assert Step(cfg, w, t).conns[i] == Heartbeat(cfg, CtxOf(w, now), LocalOf(w, i)).c;
      HeartbeatTurnInv(cfg, w, now, i);
    case SendNext(now) => SendTurnInv(cfg, w, now);
    case DrainCheck(now) => DrainTurnInv(cfg, w, now);
    case Event(now, i, e) =>
      assert Step(cfg, w, t).conns[i] == HandleEvent(cfg, CtxOf(w, now), LocalOf(w, i), e).c;
      EventTurnInv(cfg, w, now, i, e);
    case Stray(now) => StrayTurnInv(cfg, w, now);
    case Shutdown(now) => CloseFromInv(cfg, CtxOf(w, now), w, 0);
  }

  lemma StepPacing(cfg: Config, w: World, t: Turn)
    requires cfg.Valid() && WorldInv(cfg, w) && Enabled(cfg, w, t)
    requires Metered(cfg, w, t.ReconnectNext?, Step(cfg, w, t))
    ensures Paced(cfg, Step(cfg, w, t)) && Cursors(cfg, Step(cfg, w, t)) && Phased(cfg, Step(cfg, w, t))
  {
    hide ConnInv, Booked, Total, OpenSocket, SendOne, HandleEvent, Heartbeat, CloseFrom, Choose;
    if t.Shutdown? {
      CloseFromFrame(cfg, CtxOf(w, t.now), w, 0);
    } else if t.SendNext? {
      OneMore(w.selections, cfg.sendInterval);
    }
  }

  lemma StepRamped(cfg: Config, w: World, t: Turn)
    requires cfg.Valid() && Ramped(cfg, w) && Enabled(cfg, w, t)
    ensures Ramped(cfg, Step(cfg, w, t))
  {
    hide ConnInv, OpenSocket, SendOne, HandleEvent, Heartbeat, CloseFrom, Choose;
    if t.Shutdown? {
      CloseFromFrame(cfg, CtxOf(w, t.now), w, 0);
    } else if t.OpenNext? {
      OneMore(w.created, cfg.connectInterval);
    }
  }

  lemma OneMore(k: nat, d: nat)
    ensures (k + 1) * d == k * d + d
  {
  }

  lemma {:induction false} CloseFromFrame(cfg: Config, x: Ctx, w: World, i: nat)
    requires cfg.Valid() && i <= |w.conns|
    ensures var w' := CloseFrom(cfg, x, w, i); w' == w.(conns := w'.conns, m := w'.m) && |w'.conns| == |w.conns|
    decreases |w.conns| - i
  {
    hide Close;
    if i < |w.conns| {
      CloseFromFrame(cfg, x, Put(w, i, Close(cfg, x, LocalOf(w, i), false)), i + 1);
    }
  }

  /** One turn of the main loop keeps the invariant, whatever the environment answers. */
  lemma StepInv(cfg: Config, w: World, t: Turn)
    requires cfg.Valid() && WorldInv(cfg, w)
    ensures WorldInv(cfg, Step(cfg, w, t))
    ensures Metered(cfg, w, t.ReconnectNext?, Step(cfg, w, t))
  {
    if Enabled(cfg, w, t) {
      hide ConnsInv, Paced, Cursors, Phased, Ramped, Booked, Total, Step;
      StepConnsInv(cfg, w, t);
      StepPacing(cfg, w, t);
      StepRamped(cfg, w, t);
    }
  }

  lemma {:induction false} RunInvFrom(cfg: Config, w: World, run: seq<Turn>)
    requires cfg.Valid() && WorldInv(cfg, w)
    ensures WorldInv(cfg, Exec(cfg, w, run))
    decreases |run|
  {
    hide WorldInv, Step;
    if run != [] {
      var before := Exec(cfg, w, run[..|run| - 1]);
      RunInvFrom(cfg, w, run[..|run| - 1]);
      StepInv(cfg, before, run[|run| - 1]);
    }
  }

  /** `w` ends some run from some start. */
  ghost predicate Reachable(cfg: Config, w: World)
    requires cfg.Valid()
  {
    exists start: nat, run: seq<Turn> :: w == Exec(cfg, Init(cfg, start), run)
  }

  /** The invariant holds in every reachable state. */
  lemma ReachableInv(cfg: Config, w: World)
    requires cfg.Valid() && Reachable(cfg, w)
    ensures WorldInv(cfg, w)
  {
    hide WorldInv, Step;
    var start: nat, run: seq<Turn> :| w == Exec(cfg, Init(cfg, start), run);
    InitInv(cfg, start);
    RunInvFrom(cfg, Init(cfg, start), run);
  }
}
