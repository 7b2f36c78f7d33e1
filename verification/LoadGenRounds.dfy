/**
 * The rounds of the main loop: which turns one iteration takes, given the clock, what the sockets
 * answer and what is ready; and that a run whose rounds reach far enough comes to its end.
 */
module LoadGenRounds {
  import opened LoadGenModel
  import opened LoadGenInvariant
  import opened LoadGenRuns

  // ---- what the environment supplies ---------------------------------------------------------

  /** A notification for an index, and what the socket of a connection in a given state reports. */
  datatype Arrival = Arrival(i: nat, ready: Conn -> Ready)

  /** One iteration: the clock, the outcomes of opening sockets, and what the wait brings, by when. */
  datatype Round = Round(now: int, outcome: nat -> OpenResult, later: int, arrivals: seq<Arrival>)

  /** No socket reports data before its connect has completed. */
  ghost predicate Genuine(a: Arrival) {
    forall c: Conn :: Plausible(c, a.ready(c))
  }

  ghost predicate AllGenuine(rounds: seq<Round>) {
    forall k, j :: 0 <= k < |rounds| && 0 <= j < |rounds[k].arrivals| ==> Genuine(rounds[k].arrivals[j])
  }

  /** The clock never runs backwards. */
  ghost predicate Timely(rounds: seq<Round>, since: int) {
    rounds == [] || (since <= rounds[0].now <= rounds[0].later && Timely(rounds[1..], rounds[0].later))
  }

  lemma {:induction false} TimelyEnds(rounds: seq<Round>, since: int)
    requires Timely(rounds, since) && rounds != []
    ensures since <= rounds[0].later <= rounds[|rounds| - 1].later
    decreases |rounds|
  {
    if |rounds| > 1 {
      TimelyEnds(rounds[1..], rounds[0].later);
    }
  }

  lemma {:induction false} TimelyRises(rounds: seq<Round>, since: int, j: nat, k: nat)
    requires Timely(rounds, since) && j <= k < |rounds|
    ensures since <= rounds[j].now <= rounds[k].now
    decreases |rounds|
  {
    if j > 0 {
      TimelyRises(rounds[1..], rounds[0].later, j - 1, k - 1);
    } else if k > 0 {
      TimelyRises(rounds[1..], rounds[0].later, 0, k - 1);
    }
  }

  // ---- equal but for the order of a replay ---------------------------------------------------

  ghost predicate SamePacket(p: Packet, p': Packet) {
    p' == p || (p.LoginResponse? && p'.LoginResponse? && p' == p.(walk := p'.walk))
  }

  ghost predicate SamePackets(ps: seq<Packet>, ps': seq<Packet>) {
    |ps'| == |ps| && forall k :: 0 <= k < |ps| ==> SamePacket(ps[k], ps'[k])
  }

  ghost predicate SameRead(r: ReadResult, r': ReadResult) {
    if r.PeerGone? then r' == r else r'.Received? && r'.corrupt == r.corrupt && SamePackets(r.packets, r'.packets)
  }

  /** The same notification; the order in which a replay walks the retry store is its own. */
  ghost predicate SameReady(e: Ready, e': Ready) {
    e' == e.(read := e'.read) && SameRead(e.read, e'.read)
  }

  lemma SameReadyItself(e: Ready)
    ensures SameReady(e, e)
  {
  }

  lemma SamePlausible(c: Conn, e: Ready, e': Ready)
    requires Plausible(c, e) && SameReady(e, e')
    ensures Plausible(c, e')
  {
    hide SamePacket;
  }

  // ---- the stages of a round -----------------------------------------------------------------

  /** The turn can be taken, and if it selects a connection there is one to select. */
  ghost predicate Selects(cfg: Config, w: World, t: Turn) {
    && Enabled(cfg, w, t)
    && (t.ReconnectNext? ==> Choose(Reconnectable(cfg, t.now, w.conns), w.reconnectCursor).Some?)
    && (t.SendNext? ==> Choose(Sendable(cfg, w.conns), w.sendCursor).Some?)
  }

  /** The turn can be taken, but there is nobody to select. */
  ghost predicate FindsNobody(cfg: Config, w: World, t: Turn) {
    Enabled(cfg, w, t) && !Selects(cfg, w, t)
  }

  /** Every turn could be taken when its time came, and found whom to select. */
  ghost predicate AllSelect(cfg: Config, w: World, ts: seq<Turn>)
    requires cfg.Valid()
  {
    ts == [] ||
    (AllSelect(cfg, w, ts[..|ts| - 1]) && Selects(cfg, Exec(cfg, w, ts[..|ts| - 1]), ts[|ts| - 1]))
  }

  lemma AllSelectMore(cfg: Config, w: World, ts: seq<Turn>, t: Turn)
    requires cfg.Valid() && AllSelect(cfg, w, ts) && Selects(cfg, Exec(cfg, w, ts), t)
    ensures AllSelect(cfg, w, ts + [t])
  {
    hide Exec, Selects;
    assert (ts + [t])[..|ts|] == ts;
  }

  /** Opening sockets: all that are due, up to 256. */
  ghost predicate OpenStage(cfg: Config, w: World, now: int, outcome: nat -> OpenResult, ts: seq<Turn>)
    requires cfg.Valid()
  {
    var w' := Exec(cfg, w, ts);
    && (forall k :: 0 <= k < |ts| ==> ts[k] == OpenNext(now, outcome(k)))
    && AllSelect(cfg, w, ts) && |ts| <= 256
    && (w'.created == cfg.connections || now < w'.nextConnect || |ts| == 256)
  }

  /** Selections until `limit` are made or the time is `over` for more, or until one finds nobody. */
  ghost predicate SelectionStage(cfg: Config, w: World, ts: seq<Turn>, limit: nat, over: bool)
    requires cfg.Valid()
  {
    var n := |ts|;
    && n <= limit
    && (|| (AllSelect(cfg, w, ts) && (n == limit || over))
        || (n > 0 && AllSelect(cfg, w, ts[..n - 1]) && FindsNobody(cfg, Exec(cfg, w, ts[..n - 1]), ts[n - 1])))
  }

  /** How far a selection loop has come; once a selection has found nobody there are no `more`. */
  ghost predicate Selecting(cfg: Config, w: World, ts: seq<Turn>, more: bool)
    requires cfg.Valid()
  {
    var n := |ts|;
    if more then AllSelect(cfg, w, ts)
    else n > 0 && AllSelect(cfg, w, ts[..n - 1]) && FindsNobody(cfg, Exec(cfg, w, ts[..n - 1]), ts[n - 1])
  }

  lemma SelectingStarts(cfg: Config, w: World)
    requires cfg.Valid()
    ensures Selecting(cfg, w, [], true) && AllSelect(cfg, w, [])
  {
  }

  lemma SelectingMore(cfg: Config, w: World, ts: seq<Turn>, t: Turn, more: bool)
    requires cfg.Valid() && Selecting(cfg, w, ts, true) && Enabled(cfg, Exec(cfg, w, ts), t)
    requires more <==> Selects(cfg, Exec(cfg, w, ts), t)
    ensures Selecting(cfg, w, ts + [t], more)
  {
    hide Exec, Enabled;
    if more {
      hide Selects;
      AllSelectMore(cfg, w, ts, t);
    } else {
      assert (ts + [t])[..|ts|] == ts;
      hide AllSelect;
    }
  }

  lemma SelectingEnds(cfg: Config, w: World, ts: seq<Turn>, limit: nat, over: bool, more: bool)
    requires cfg.Valid() && Selecting(cfg, w, ts, more) && |ts| <= limit && (more ==> |ts| == limit || over)
    ensures SelectionStage(cfg, w, ts, limit, over)
  {
    hide Exec, AllSelect, FindsNobody;
  }

  /** Dialling again: while tokens and due clients last, up to 256; then the timer is refilled. */
  ghost predicate DialStage(cfg: Config, w: World, now: int, outcome: nat -> OpenResult, ts: seq<Turn>)
    requires cfg.Valid()
  {
    if !cfg.reconnect || w.draining then ts == []
    else
      && ts != [] && ts[|ts| - 1] == ReconnectPass(now)
      && (forall k :: 0 <= k < |ts| - 1 ==> ts[k] == ReconnectNext(now, outcome(k)))
      && SelectionStage(cfg, w, ts[..|ts| - 1], 256, now < Exec(cfg, w, ts[..|ts| - 1]).nextReconnectGlobal)
  }

  lemma DialStageDone(cfg: Config, w: World, now: int, outcome: nat -> OpenResult, ts: seq<Turn>)
    requires cfg.Valid() && cfg.reconnect && !w.draining
    requires forall k :: 0 <= k < |ts| ==> ts[k] == ReconnectNext(now, outcome(k))
    requires SelectionStage(cfg, w, ts, 256, now < Exec(cfg, w, ts).nextReconnectGlobal)
    ensures DialStage(cfg, w, now, outcome, ts + [ReconnectPass(now)])
  {
    hide SelectionStage, Exec;
    var all := ts + [ReconnectPass(now)];
    assert all[..|all| - 1] == ts;
  }

  lemma NoDialStage(cfg: Config, w: World, now: int, outcome: nat -> OpenResult)
    requires cfg.Valid() && (!cfg.reconnect || w.draining)
    ensures DialStage(cfg, w, now, outcome, [])
  {
  }

  /** Sending: while sends are due and somebody can send, up to 4096. */
  ghost predicate SendStage(cfg: Config, w: World, now: int, ts: seq<Turn>)
    requires cfg.Valid()
  {
    if w.draining || !cfg.privateMode then ts == []
    else
      && (forall k :: 0 <= k < |ts| ==> ts[k] == SendNext(now))
      && SelectionStage(cfg, w, ts, 4096, now < Exec(cfg, w, ts).nextSend)
  }

  /** One look at every connection, in order. */
  function BeatTurns(now: int, n: nat): (ts: seq<Turn>)
    ensures |ts| == n && forall i :: 0 <= i < n ==> ts[i] == HeartbeatTo(now, i)
  {
    seq(n, i requires 0 <= i < n => HeartbeatTo(now, i))
  }

  /**
   * What one look does: a client online and due gets one heartbeat, under a number of its own, unless
   * the codec refuses, and is next due one period from now; every other client is left alone.
   */
  ghost predicate LookedAt(cfg: Config, now: int, c: Conn, c': Conn) {
    if c.state == Online && now >= c.nextHeartbeat then
      && c' == c.(seq_ := SeqAfter(c.seq_), draws := c.draws + 1, nextHeartbeat := now + cfg.heartbeat,
                  out := c'.out, trace := c'.trace)
      && c'.trace == if c.fd >= 0 && cfg.encodes(HeartbeatBody) then c.trace.Posted(HeartbeatBody, DrawnSeq(c.seq_))
                     else c.trace
    else c' == c
  }

  lemma BeatLooks(cfg: Config, x: Ctx, l: Local)
    ensures LookedAt(cfg, x.now, l.c, Heartbeat(cfg, x, l).c)
  {
    hide DrawnSeq, SeqAfter, Queue, Post;
    QueueIs(cfg, l.(c := Draw(l.c)), HeartbeatBody, DrawnSeq(l.c.seq_));
    PostIs(cfg, Draw(l.c), HeartbeatBody, DrawnSeq(l.c.seq_));
  }

  lemma PostIs(cfg: Config, c: Conn, body: Body, seq_: nat)
    ensures var c' := Post(cfg, c, body, seq_);
            c' == c.(out := c'.out, trace := c.trace.Posted(body, seq_))
  {
  }

  /** One pass of heartbeats serves every client that is due and disturbs nobody else. */
  lemma {:induction false} HeartbeatsGoOut(cfg: Config, w: World, now: int, n: nat)
    requires cfg.Valid() && w.testStarted && !w.finished && !w.shut && w.clock <= now && n <= |w.conns|
    ensures var w' := Exec(cfg, w, BeatTurns(now, n));
            && w' == w.(conns := w'.conns, m := w'.m, clock := w'.clock) && w'.clock <= now
            && |w'.conns| == |w.conns|
            && (forall i :: 0 <= i < n ==> LookedAt(cfg, now, w.conns[i], w'.conns[i]))
            && (forall i :: n <= i < |w.conns| ==> w'.conns[i] == w.conns[i])
            && (forall i :: 0 <= i < n && w'.conns[i].state == Online ==> now < w'.conns[i].nextHeartbeat)
  {
    if n > 0 {
      hide Step, Heartbeat, Exec, LookedAt;
      HeartbeatsGoOut(cfg, w, now, n - 1);
      var ts, t := BeatTurns(now, n - 1), HeartbeatTo(now, n - 1);
      var w1 := Exec(cfg, w, ts);
      assert BeatTurns(now, n) == ts + [t];
      hide BeatTurns;
      ExecOneMore(cfg, w, ts, t);
      StepBeats(cfg, w1, now, n - 1);
      BeatLooks(cfg, CtxOf(w1, now), LocalOf(w1, n - 1));
      NextBeatAhead(cfg, now, w.conns[n - 1], Step(cfg, w1, t).conns[n - 1]);
    }
  }

  lemma NextBeatAhead(cfg: Config, now: int, c: Conn, c': Conn)
    requires cfg.Valid() && LookedAt(cfg, now, c, c')
    ensures c'.state == Online ==> now < c'.nextHeartbeat
  {
  }

  /** The turn is the handling of this arrival. */
  ghost predicate Handles(cfg: Config, w: World, now: int, a: Arrival, t: Turn) {
    && Enabled(cfg, w, t)
    && if a.i < |w.conns| then t.Event? && t.now == now && t.i == a.i && SameReady(a.ready(w.conns[a.i]), t.ready)
       else t == Stray(now)
  }

  /** One turn per arrival, in order. */
  ghost predicate EventStage(cfg: Config, w: World, now: int, arrivals: seq<Arrival>, ts: seq<Turn>)
    requires cfg.Valid()
  {
    |ts| == |arrivals| &&
    (ts == [] ||
     (&& EventStage(cfg, w, now, arrivals[..|ts| - 1], ts[..|ts| - 1])
      && Handles(cfg, Exec(cfg, w, ts[..|ts| - 1]), now, arrivals[|ts| - 1], ts[|ts| - 1])))
  }

  lemma NothingHandled(cfg: Config, w: World, now: int, arrivals: seq<Arrival>)
    requires cfg.Valid()
    ensures EventStage(cfg, w, now, arrivals[..0], [])
  {
  }

  lemma EventStageMore(cfg: Config, w: World, now: int, arrivals: seq<Arrival>, ts: seq<Turn>, k: nat, t: Turn)
    requires cfg.Valid() && k < |arrivals| && EventStage(cfg, w, now, arrivals[..k], ts)
    requires Handles(cfg, Exec(cfg, w, ts), now, arrivals[k], t)
    ensures EventStage(cfg, w, now, arrivals[..k + 1], ts + [t])
  {
    hide Exec, Handles;
    assert |ts| == k;
    var more, done := ts + [t], arrivals[..k + 1];
    assert more[..k] == ts && more[k] == t && done[..k] == arrivals[..k] && done[k] == arrivals[k];
    HandledIs(cfg, w, now, done, more);
    hide EventStage;
  }

  lemma HandledIs(cfg: Config, w: World, now: int, arrivals: seq<Arrival>, ts: seq<Turn>)
    requires cfg.Valid() && ts != [] && |ts| == |arrivals|
    requires EventStage(cfg, w, now, arrivals[..|ts| - 1], ts[..|ts| - 1])
    requires Handles(cfg, Exec(cfg, w, ts[..|ts| - 1]), now, arrivals[|ts| - 1], ts[|ts| - 1])
    ensures EventStage(cfg, w, now, arrivals, ts)
  {
    hide Exec, Handles;
  }

  /** An iteration during the setup. */
  ghost predicate SetupRound(cfg: Config, w: World, r: Round, opens: seq<Turn>, events: seq<Turn>)
    requires cfg.Valid()
  {
    var w1 := Exec(cfg, w, opens);
    && !w.testStarted && OpenStage(cfg, w, r.now, r.outcome, opens)
    && Enabled(cfg, w1, EvaluateSetup(r.now))
    && EventStage(cfg, Step(cfg, w1, EvaluateSetup(r.now)), r.later, r.arrivals, events)
  }

  /** An iteration during the test; the one that ends the drain waits for nothing any more. */
  ghost predicate TestRound(cfg: Config, w: World, r: Round, dials: seq<Turn>, sends: seq<Turn>, events: seq<Turn>)
    requires cfg.Valid()
  {
    var w1 := Exec(cfg, w, dials);
    var w2 := Exec(cfg, w1, BeatTurns(r.now, |w.conns|));
    var w3 := Exec(cfg, w2, sends);
    var w4 := Step(cfg, w3, DrainCheck(r.now));
    && w.testStarted && DialStage(cfg, w, r.now, r.outcome, dials)
    && SendStage(cfg, w2, r.now, sends)
    && Enabled(cfg, w3, DrainCheck(r.now))
    && (if w4.finished then events == [] else EventStage(cfg, w4, r.later, r.arrivals, events))
  }

  /** The turns of one iteration of the main loop. */
  ghost predicate RoundTurns(cfg: Config, w: World, r: Round, ts: seq<Turn>)
    requires cfg.Valid()
  {
    || (exists opens, events ::
          SetupRound(cfg, w, r, opens, events) && ts == opens + [EvaluateSetup(r.now)] + events)
    || (exists dials, sends, events ::
          TestRound(cfg, w, r, dials, sends, events)
          && ts == dials + BeatTurns(r.now, |w.conns|) + sends + [DrainCheck(r.now)] + events)
  }

  /** The stages of a test iteration, put together. */
  lemma TestRoundDone(cfg: Config, w: World, r: Round, w2: World, w3: World, w4: World,
                      dials: seq<Turn>, sends: seq<Turn>, events: seq<Turn>)
    requires cfg.Valid() && w.testStarted && DialStage(cfg, w, r.now, r.outcome, dials)
    requires w2 == Exec(cfg, w, dials + BeatTurns(r.now, |w.conns|)) && SendStage(cfg, w2, r.now, sends)
    requires w3 == Exec(cfg, w2, sends) && Enabled(cfg, w3, DrainCheck(r.now))
    requires w4 == Step(cfg, w3, DrainCheck(r.now))
    requires if w4.finished then events == [] else EventStage(cfg, w4, r.later, r.arrivals, events)
    ensures var ts := dials + BeatTurns(r.now, |w.conns|) + sends + [DrainCheck(r.now)] + events;
            RoundTurns(cfg, w, r, ts) && Exec(cfg, w, ts) == Exec(cfg, w4, events)
  {
    hide Exec, Step, DialStage, SendStage, EventStage, BeatTurns, Enabled;
    var beats := BeatTurns(r.now, |w.conns|);
    ExecJoins(cfg, w, dials, beats);
    ExecJoins(cfg, w, dials + beats, sends);
    ExecTurnJoins(cfg, w, dials + beats + sends, DrainCheck(r.now), events);
    assert TestRound(cfg, w, r, dials, sends, events);
  }

  /** The turns of iteration after iteration, none of them after the run has finished. */
  ghost predicate Played(cfg: Config, w: World, rounds: seq<Round>, ts: seq<Turn>)
    requires cfg.Valid()
    decreases |rounds|
  {
    if rounds == [] then ts == []
    else
      exists n: nat :: n <= |ts| && Played(cfg, w, rounds[..|rounds| - 1], ts[..n])
                       && !Exec(cfg, w, ts[..n]).finished
                       && RoundTurns(cfg, Exec(cfg, w, ts[..n]), rounds[|rounds| - 1], ts[n..])
  }

  lemma PlayedMore(cfg: Config, w: World, rounds: seq<Round>, ts: seq<Turn>, r: Round, more: seq<Turn>)
    requires cfg.Valid() && Played(cfg, w, rounds, ts) && !Exec(cfg, w, ts).finished
    requires RoundTurns(cfg, Exec(cfg, w, ts), r, more)
    ensures Played(cfg, w, rounds + [r], ts + more)
  {
    hide Exec, RoundTurns;
    assert (rounds + [r])[..|rounds|] == rounds;
    assert (ts + more)[..|ts|] == ts && (ts + more)[|ts|..] == more;
  }

  lemma ExecTurnJoins(cfg: Config, w: World, run: seq<Turn>, t: Turn, more: seq<Turn>)
    requires cfg.Valid()
    ensures Exec(cfg, w, run + [t] + more) == Exec(cfg, Step(cfg, Exec(cfg, w, run), t), more)
  {
    hide Step, Exec;
    ExecOneMore(cfg, w, run, t);
    ExecJoins(cfg, w, run + [t], more);
  }

  // ---- phases --------------------------------------------------------------------------------

  /** The phase of the run and its deadlines are as they were. */
  predicate SamePhase(w: World, w': World) {
    && w'.testStarted == w.testStarted && w'.draining == w.draining && w'.finished == w.finished
    && w'.setupDeadline == w.setupDeadline && w'.testEnd == w.testEnd && w'.drainEnd == w.drainEnd
  }

  /** Only the setup turn and the drain turn change the phase. */
  lemma PhaseFixed(cfg: Config, w: World, t: Turn)
    requires cfg.Valid() && !t.EvaluateSetup? && !t.DrainCheck?
    ensures SamePhase(w, Step(cfg, w, t))
  {
    hide OpenSocket, SendOne, HandleEvent, Heartbeat, CloseFrom, Choose, CanSend, CanReconnect;
    if t.Shutdown? && Enabled(cfg, w, t) { CloseFromFrame(cfg, CtxOf(w, t.now), w, 0); }
  }

  predicate NoPhaseTurns(ts: seq<Turn>) {
    forall k :: 0 <= k < |ts| ==> !ts[k].EvaluateSetup? && !ts[k].DrainCheck?
  }

  lemma {:induction false} PhaseFixedThroughout(cfg: Config, w: World, ts: seq<Turn>)
    requires cfg.Valid() && NoPhaseTurns(ts)
    ensures SamePhase(w, Exec(cfg, w, ts))
  {
    hide Step;
    if ts != [] {
      PhaseFixedThroughout(cfg, w, ts[..|ts| - 1]);
      PhaseFixed(cfg, Exec(cfg, w, ts[..|ts| - 1]), ts[|ts| - 1]);
    }
  }

  lemma {:induction false} EventsKeepPhase(cfg: Config, w: World, now: int, arrivals: seq<Arrival>, ts: seq<Turn>)
    requires cfg.Valid() && EventStage(cfg, w, now, arrivals, ts)
    ensures NoPhaseTurns(ts)
  {
    hide Exec;
    if ts != [] {
      EventsKeepPhase(cfg, w, now, arrivals[..|ts| - 1], ts[..|ts| - 1]);
    }
  }

  /** What an iteration at `now` does to the phase. */
  ghost predicate PhaseStep(cfg: Config, w: World, now: int, w': World) {
    && w'.setupDeadline == w.setupDeadline && (w.testStarted ==> w'.testStarted && w'.testEnd == w.testEnd)
    && (w.draining ==> w'.draining && w'.drainEnd == w.drainEnd)
    && (!w'.finished ==>
          if !w.testStarted then
            w'.draining == w.draining
            && if w'.testStarted then w'.testEnd == now + cfg.duration else now < w.setupDeadline
          else if !w.draining then
            if w'.draining then w'.drainEnd == now + cfg.drain else now < w.testEnd
          else now < w.drainEnd)
  }

  lemma SetupPhase(cfg: Config, w: World, now: int)
    requires cfg.Valid() && Enabled(cfg, w, EvaluateSetup(now))
    ensures PhaseStep(cfg, w, now, Step(cfg, w, EvaluateSetup(now)))
  {
    StepEvaluates(cfg, w, now);
    hide Step;
  }

  lemma DrainPhase(cfg: Config, w: World, now: int)
    requires cfg.Valid() && Enabled(cfg, w, DrainCheck(now))
    ensures PhaseStep(cfg, w, now, Step(cfg, w, DrainCheck(now)))
  {
    StepDrains(cfg, w, now);
    hide Step;
  }

  lemma RoundPhase(cfg: Config, w: World, r: Round, ts: seq<Turn>)
    requires cfg.Valid() && RoundTurns(cfg, w, r, ts)
    ensures PhaseStep(cfg, w, r.now, Exec(cfg, w, ts))
  {
    hide Exec, Step, SetupRound, TestRound, BeatTurns, PhaseStep;
    if opens, events :| SetupRound(cfg, w, r, opens, events) && ts == opens + [EvaluateSetup(r.now)] + events {
      SetupRoundPhase(cfg, w, r, opens, events);
    } else {
      var dials, sends, events :|
        && TestRound(cfg, w, r, dials, sends, events)
        && ts == dials + BeatTurns(r.now, |w.conns|) + sends + [DrainCheck(r.now)] + events;
      TestRoundPhase(cfg, w, r, dials, sends, events);
    }
  }

  lemma SetupRoundPhase(cfg: Config, w: World, r: Round, opens: seq<Turn>, events: seq<Turn>)
    requires cfg.Valid() && SetupRound(cfg, w, r, opens, events)
    ensures PhaseStep(cfg, w, r.now, Exec(cfg, w, opens + [EvaluateSetup(r.now)] + events))
  {
    hide Exec, Step, Enabled, AllSelect, EventStage;
    var w1 := Exec(cfg, w, opens);
    var w2 := Step(cfg, w1, EvaluateSetup(r.now));
    PhaseFixedThroughout(cfg, w, opens);
    SetupPhase(cfg, w1, r.now);
    EventsKeepPhase(cfg, w2, r.later, r.arrivals, events);
    PhaseFixedThroughout(cfg, w2, events);
    ExecTurnJoins(cfg, w, opens, EvaluateSetup(r.now), events);
  }

  lemma TestRoundPhase(cfg: Config, w: World, r: Round, dials: seq<Turn>, sends: seq<Turn>, events: seq<Turn>)
    requires cfg.Valid() && TestRound(cfg, w, r, dials, sends, events)
    ensures PhaseStep(cfg, w, r.now,
                      Exec(cfg, w, dials + BeatTurns(r.now, |w.conns|) + sends + [DrainCheck(r.now)] + events))
  {
    hide Exec, Step, Enabled, SelectionStage, EventStage, BeatTurns;
    var beats := BeatTurns(r.now, |w.conns|);
    var w1 := Exec(cfg, w, dials);
    var w2 := Exec(cfg, w1, beats);
    var w3 := Exec(cfg, w2, sends);
    var w4 := Step(cfg, w3, DrainCheck(r.now));
    PhaseFixedThroughout(cfg, w, dials);
    PhaseFixedThroughout(cfg, w1, beats);
    PhaseFixedThroughout(cfg, w2, sends);
    DrainPhase(cfg, w3, r.now);
    if !w4.finished { EventsKeepPhase(cfg, w4, r.later, r.arrivals, events); }
    PhaseFixedThroughout(cfg, w4, events);
    ExecJoins(cfg, w, dials, beats);
    ExecJoins(cfg, w, dials + beats, sends);
    ExecTurnJoins(cfg, w, dials + beats + sends, DrainCheck(r.now), events);
  }

  // ---- every run that goes on long enough ends -----------------------------------------------

  /** In the setup phase all rounds so far came before the deadline. */
  ghost predicate Awaiting(w: World, rounds: seq<Round>, deadline: int) {
    !w.testStarted && !w.draining && forall a :: 0 <= a < |rounds| ==> rounds[a].now < deadline
  }

  /** The test started in round `s`, and all rounds since came before its end. */
  ghost predicate Testing(cfg: Config, w: World, rounds: seq<Round>, deadline: int, s: nat) {
    && w.testStarted && s < |rounds| && w.testEnd == rounds[s].now + cfg.duration
    && (forall a :: 0 <= a < s ==> rounds[a].now < deadline)
    && (!w.draining ==> forall b :: s < b < |rounds| ==> rounds[b].now < w.testEnd)
  }

  /** The drain began in round `d`, and all rounds since came before its end. */
  ghost predicate Draining(cfg: Config, w: World, rounds: seq<Round>, s: nat, d: nat) {
    && w.draining && s < d < |rounds| && w.drainEnd == rounds[d].now + cfg.drain
    && (forall b :: s < b < d ==> rounds[b].now < w.testEnd)
    && forall c :: d < c < |rounds| ==> rounds[c].now < w.drainEnd
  }

  ghost predicate PhaseKnown(cfg: Config, w: World, rounds: seq<Round>, deadline: int) {
    && w.setupDeadline == deadline
    && (w.finished || Awaiting(w, rounds, deadline)
        || exists s: nat :: Testing(cfg, w, rounds, deadline, s)
                            && (!w.draining || exists d: nat :: Draining(cfg, w, rounds, s, d)))
  }

  lemma PhaseKnownMore(cfg: Config, w: World, rounds: seq<Round>, deadline: int, r: Round, w': World)
    requires PhaseKnown(cfg, w, rounds, deadline) && !w.finished && PhaseStep(cfg, w, r.now, w')
    ensures PhaseKnown(cfg, w', rounds + [r], deadline)
  {
    var more := rounds + [r];
    if w'.finished {
    } else if Awaiting(w, rounds, deadline) {
      if w'.testStarted {
        assert Testing(cfg, w', more, deadline, |rounds|);
      } else {
        assert Awaiting(w', more, deadline);
      }
    } else {
      var s: nat :| Testing(cfg, w, rounds, deadline, s)
                    && (!w.draining || exists d: nat :: Draining(cfg, w, rounds, s, d));
      assert Testing(cfg, w', more, deadline, s);
      if w.draining {
        var d: nat :| Draining(cfg, w, rounds, s, d);
        assert Draining(cfg, w', more, s, d);
      } else if w'.draining {
        assert Draining(cfg, w', more, s, |rounds|);
      }
    }
  }

  lemma {:induction false} PhaseAlwaysKnown(cfg: Config, start: nat, rounds: seq<Round>, ts: seq<Turn>)
    requires cfg.Valid() && Played(cfg, Init(cfg, start), rounds, ts)
    ensures PhaseKnown(cfg, Exec(cfg, Init(cfg, start), ts), rounds, start + cfg.setupBudget)
    decreases |rounds|
  {
    hide Exec, Init, RoundTurns, PhaseKnown, PhaseStep;
    if rounds == [] {
      InitAwaits(cfg, start);
    } else {
      var w0, deadline, last := Init(cfg, start), start + cfg.setupBudget, |rounds| - 1;
      var n: nat :| n <= |ts| && Played(cfg, w0, rounds[..last], ts[..n]) && !Exec(cfg, w0, ts[..n]).finished
                    && RoundTurns(cfg, Exec(cfg, w0, ts[..n]), rounds[last], ts[n..]);
      PhaseAlwaysKnown(cfg, start, rounds[..last], ts[..n]);
      RoundPhase(cfg, Exec(cfg, w0, ts[..n]), rounds[last], ts[n..]);
      ExecJoins(cfg, w0, ts[..n], ts[n..]);
      assert ts[..n] + ts[n..] == ts && rounds[..last] + [rounds[last]] == rounds;
      PhaseKnownMore(cfg, Exec(cfg, w0, ts[..n]), rounds[..last], deadline, rounds[last], Exec(cfg, w0, ts));
    }
  }

  lemma InitAwaits(cfg: Config, start: nat)
    requires cfg.Valid()
    ensures PhaseKnown(cfg, Exec(cfg, Init(cfg, start), []), [], start + cfg.setupBudget)
  {
    hide Step;
    assert Awaiting(Init(cfg, start), [], start + cfg.setupBudget);
  }

  /**
   * One round falls past the setup deadline, a later one a whole test after it, and a still later
   * one a whole drain after that.
   */
  ghost predicate LongEnough(cfg: Config, start: nat, rounds: seq<Round>) {
    exists a, b, c ::
      && 0 <= a < b < c < |rounds| && rounds[a].now >= start + cfg.setupBudget
      && rounds[b].now >= rounds[a].now + cfg.duration && rounds[c].now >= rounds[b].now + cfg.drain
  }

  /** Such a run has finished, whatever the sockets and the server did. */
  lemma LongRunsFinish(cfg: Config, start: nat, rounds: seq<Round>, ts: seq<Turn>)
    requires cfg.Valid() && Played(cfg, Init(cfg, start), rounds, ts)
    requires Timely(rounds, start) && LongEnough(cfg, start, rounds)
    ensures Exec(cfg, Init(cfg, start), ts).finished
  {
    hide Exec, Init, Played, Timely;
    var w := Exec(cfg, Init(cfg, start), ts);
    PhaseAlwaysKnown(cfg, start, rounds, ts);
    forall j, k | 0 <= j <= k < |rounds|
      ensures rounds[j].now <= rounds[k].now
    {
      TimelyRises(rounds, start, j, k);
    }
  }
}
