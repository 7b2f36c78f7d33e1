/**
 * What the main loop gets done: a client that is due is dialled in time, and a client that can still
 * be recovered can come back with everything it had in flight.
 */
module LoadGenProgress {
  import opened Basics
  import opened RoundRobin
  import opened LoadGenModel
  import opened LoadGenInvariant
  import opened LoadGenRuns
  import opened LoadGenRounds
  import opened LoadGenTheorems
  import opened LoadGenLimits

  // ---- tokens --------------------------------------------------------------------------------

  /** A reconnect turn that finds somebody makes one attempt and uses one token. */
  lemma DialCounts(cfg: Config, w: World, t: Turn)
    requires cfg.Valid() && WorldInv(cfg, w) && t.ReconnectNext? && LoadGenRounds.Selects(cfg, w, t)
    ensures var w' := Step(cfg, w, t);
            && w'.m.reconnectAttempts == w.m.reconnectAttempts + 1
            && w'.nextReconnectGlobal == w.nextReconnectGlobal + cfg.reconnectInterval
  {
    var chosen := Choose(Reconnectable(cfg, t.now, w.conns), w.reconnectCursor);
    var i, x := chosen.value, CtxOf(w, t.now);
    StepReconnects(cfg, w, t.now, t.result);
    hide Step, ConnInv, Tracked, Drift, Booked, Total, OpenSocket, Choose, Paced;
    TrackedAnyTime(cfg, CtxOf(w, 0), x, w.conns[i]);
    OpenKeeps(cfg, x, i, LocalOf(w, i), true, t.result);
  }

  predicate IsDial(t: Turn) {
    t.ReconnectNext?
  }

  lemma {:induction false} DialsCount(cfg: Config, w: World, ts: seq<Turn>)
    requires cfg.Valid() && WorldInv(cfg, w) && AllSelect(cfg, w, ts) && forall k :: 0 <= k < |ts| ==> IsDial(ts[k])
    ensures var w' := Exec(cfg, w, ts);
            && w'.m.reconnectAttempts == w.m.reconnectAttempts + |ts|
            && w'.nextReconnectGlobal == w.nextReconnectGlobal + |ts| * cfg.reconnectInterval
  {
    hide WorldInv, Step, LoadGenRounds.Selects;
    if ts != [] {
      var front := ts[..|ts| - 1];
      DialsCount(cfg, w, front);
      RunInvFrom(cfg, w, front);
      assert IsDial(ts[|ts| - 1]);
      DialCounts(cfg, Exec(cfg, w, front), ts[|ts| - 1]);
      OneMore(|ts| - 1, cfg.reconnectInterval);
    }
  }

  /** A turn that touches neither the tokens nor the attempts. */
  predicate TokenFree(t: Turn) {
    !t.ReconnectNext? && !t.ReconnectPass? && !t.EvaluateSetup?
  }

  lemma TokenFixed(cfg: Config, w: World, t: Turn)
    requires cfg.Valid() && WorldInv(cfg, w) && TokenFree(t)
    ensures var w' := Step(cfg, w, t);
            w'.nextReconnectGlobal == w.nextReconnectGlobal && w'.m.reconnectAttempts == w.m.reconnectAttempts
  {
    TimerFixed(cfg, w, t);
    hide Step, WorldInv;
    StepInv(cfg, w, t);
  }

  lemma TimerFixed(cfg: Config, w: World, t: Turn)
    requires cfg.Valid() && TokenFree(t)
    ensures Step(cfg, w, t).nextReconnectGlobal == w.nextReconnectGlobal
  {
    hide OpenSocket, SendOne, HandleEvent, Heartbeat, CloseFrom, Choose, CanSend;
    if t.Shutdown? && Enabled(cfg, w, t) { CloseFromFrame(cfg, CtxOf(w, t.now), w, 0); }
  }

  lemma {:induction false} TokenFixedThroughout(cfg: Config, w: World, ts: seq<Turn>)
    requires cfg.Valid() && WorldInv(cfg, w) && forall k :: 0 <= k < |ts| ==> TokenFree(ts[k])
    ensures var w' := Exec(cfg, w, ts);
            w'.nextReconnectGlobal == w.nextReconnectGlobal && w'.m.reconnectAttempts == w.m.reconnectAttempts
  {
    hide WorldInv, Step;
    if ts != [] {
      var front := ts[..|ts| - 1];
      TokenFixedThroughout(cfg, w, front);
      RunInvFrom(cfg, w, front);
      assert TokenFree(ts[|ts| - 1]);
      TokenFixed(cfg, Exec(cfg, w, front), ts[|ts| - 1]);
    }
  }

  // ---- runs that never dial a client ---------------------------------------------------------

  lemma {:induction false} NeverDialsSplits(cfg: Config, w: World, a: seq<Turn>, b: seq<Turn>, i: nat)
    requires cfg.Valid() && NeverDials(cfg, w, a + b, i)
    ensures NeverDials(cfg, w, a, i) && NeverDials(cfg, Exec(cfg, w, a), b, i)
    decreases |b|
  {
    hide Step, Dials, Enabled;
    if b == [] {
      assert a + b == a;
    } else {
      var front := b[..|b| - 1];
      assert (a + b)[..|a + b| - 1] == a + front;
      NeverDialsSplits(cfg, w, a, front, i);
      ExecJoins(cfg, w, a, front);
    }
  }

  /** A due client is somebody to dial. */
  lemma DueIsFound(cfg: Config, w: World, t: Turn, i: nat)
    requires WorldInv(cfg, w) && i < |w.conns| && CanReconnect(cfg, w.clock, w.conns[i])
    requires t.ReconnectNext? && Enabled(cfg, w, t)
    ensures LoadGenRounds.Selects(cfg, w, t)
  {
    hide ConnInv, Total, Booked, Paced;
    var ok := Reconnectable(cfg, t.now, w.conns);
    assert ok[i];
    PickIsNearest(ok, w.reconnectCursor);
  }

  /** As long as a due client is not dialled, a dial stage ends only at its limit or out of tokens. */
  lemma DialStageFinds(cfg: Config, w: World, now: int, dials: seq<Turn>, over: bool, i: nat)
    requires cfg.Valid() && Reachable(cfg, w) && i < |w.conns| && CanReconnect(cfg, w.clock, w.conns[i])
    requires (forall k :: 0 <= k < |dials| ==> IsDial(dials[k])) && NeverDials(cfg, w, dials, i)
    requires SelectionStage(cfg, w, dials, 256, over)
    ensures AllSelect(cfg, w, dials) && |dials| <= 256 && (|dials| == 256 || over)
  {
    hide Reachable, Exec, AllSelect, WorldInv, CanReconnect, Distance, NeverDials, Enabled;
    if !(AllSelect(cfg, w, dials) && (|dials| == 256 || over)) {
      var front, last := dials[..|dials| - 1], dials[|dials| - 1];
      assert dials == front + [last] && IsDial(last);
      NeverDialsSplits(cfg, w, front, [last], i);
      DueNotOvertaken(cfg, w, front, i);
      ReachableInv(cfg, w);
      RunInvFrom(cfg, w, front);
      DueIsFound(cfg, Exec(cfg, w, front), last, i);
      assert false;
    }
  }

  // ---- one round -----------------------------------------------------------------------------

  lemma {:induction false} EventsTokenFree(cfg: Config, w: World, now: int, arrivals: seq<Arrival>, ts: seq<Turn>)
    requires cfg.Valid() && EventStage(cfg, w, now, arrivals, ts)
    ensures forall k :: 0 <= k < |ts| ==> TokenFree(ts[k])
  {
    hide Exec;
    if ts != [] {
      EventsTokenFree(cfg, w, now, arrivals[..|ts| - 1], ts[..|ts| - 1]);
    }
  }

  /** What follows the dials in an iteration touches no token. */
  lemma RestTokenFree(cfg: Config, w: World, r: Round, dials: seq<Turn>, sends: seq<Turn>, events: seq<Turn>)
    requires cfg.Valid() && TestRound(cfg, w, r, dials, sends, events)
    ensures var rest := BeatTurns(r.now, |w.conns|) + sends + [DrainCheck(r.now)] + events;
            forall k :: 0 <= k < |rest| ==> TokenFree(rest[k])
  {
    hide Exec, Step, Enabled, SelectionStage, DialStage, EventStage, BeatTurns;
    var w4 := Step(cfg, Exec(cfg, Exec(cfg, Exec(cfg, w, dials), BeatTurns(r.now, |w.conns|)), sends), DrainCheck(r.now));
    if !w4.finished { EventsTokenFree(cfg, w4, r.later, r.arrivals, events); }
    assert forall k :: 0 <= k < |sends| ==> TokenFree(sends[k]);
  }

  lemma ExecOfReachable(cfg: Config, w: World, more: seq<Turn>)
    requires cfg.Valid() && Reachable(cfg, w)
    ensures Reachable(cfg, Exec(cfg, w, more))
  {
    hide Exec, Init;
    var start: nat, run: seq<Turn> :| w == Exec(cfg, Init(cfg, start), run);
    ExecJoins(cfg, Init(cfg, start), run, more);
  }

  /** The refill changes the timer only if tokens were left over, and makes no attempt. */
  lemma PassCounts(cfg: Config, w: World, now: int)
    requires cfg.Valid()
    ensures var w' := Step(cfg, w, ReconnectPass(now));
            && w'.m.reconnectAttempts == w.m.reconnectAttempts
            && (w'.nextReconnectGlobal == w.nextReconnectGlobal
                || (w'.nextReconnectGlobal == now && w.nextReconnectGlobal < now))
  {
  }

  /**
   * What an iteration does about a client that is due but not dialled: `attempts` others are dialled,
   * 256 of them if the burst is `full`; otherwise the tokens ran out.
   */
  ghost predicate Passed(cfg: Config, w: World, now: int, attempts: nat, full: bool, w': World) {
    var after := w.nextReconnectGlobal + attempts * cfg.reconnectInterval;
    && w'.m.reconnectAttempts == w.m.reconnectAttempts + attempts
    && (full ==> attempts == 256) && (!full ==> now < after)
    && (w'.nextReconnectGlobal == after || (full && w'.nextReconnectGlobal == now))
  }

  lemma DialsPass(cfg: Config, w: World, r: Round, dials: seq<Turn>, i: nat) returns (attempts: nat, full: bool)
    requires cfg.Valid() && Reachable(cfg, w) && cfg.reconnect && !w.draining
    requires i < |w.conns| && CanReconnect(cfg, w.clock, w.conns[i])
    requires DialStage(cfg, w, r.now, r.outcome, dials) && NeverDials(cfg, w, dials, i)
    ensures Passed(cfg, w, r.now, attempts, full, Exec(cfg, w, dials))
  {
    hide Reachable, Exec, AllSelect, WorldInv, CanReconnect, NeverDials, SelectionStage, Step;
    var d, pass := dials[..|dials| - 1], ReconnectPass(r.now);
    assert dials == d + [pass];
    NeverDialsSplits(cfg, w, d, [pass], i);
    ReachableInv(cfg, w);
    assert forall k :: 0 <= k < |d| ==> IsDial(d[k]);
    DialStageFinds(cfg, w, r.now, d, r.now < Exec(cfg, w, d).nextReconnectGlobal, i);
    DialsCount(cfg, w, d);
    ExecOneMore(cfg, w, d, pass);
    PassCounts(cfg, Exec(cfg, w, d), r.now);
    attempts := |d|;
    full := !(r.now < Exec(cfg, w, d).nextReconnectGlobal);
  }

  lemma RoundPasses(cfg: Config, w: World, r: Round, ts: seq<Turn>, i: nat) returns (attempts: nat, full: bool)
    requires cfg.Valid() && Reachable(cfg, w) && cfg.reconnect && w.testStarted && !w.draining
    requires i < |w.conns| && CanReconnect(cfg, w.clock, w.conns[i])
    requires RoundTurns(cfg, w, r, ts) && NeverDials(cfg, w, ts, i)
    ensures Passed(cfg, w, r.now, attempts, full, Exec(cfg, w, ts))
  {
    hide Reachable, Exec, WorldInv, CanReconnect, NeverDials, TestRound, Step, BeatTurns, OpenStage, EventStage;
    var dials, sends, events :|
      && TestRound(cfg, w, r, dials, sends, events)
      && ts == dials + BeatTurns(r.now, |w.conns|) + sends + [DrainCheck(r.now)] + events;
    var rest := BeatTurns(r.now, |w.conns|) + sends + [DrainCheck(r.now)] + events;
    assert ts == dials + rest;
    NeverDialsSplits(cfg, w, dials, rest, i);
    RestTokenFree(cfg, w, r, dials, sends, events);
    DialsOfRound(cfg, w, r, dials, sends, events);
    attempts, full := DialsPass(cfg, w, r, dials, i);
    ReachableInv(cfg, w);
    RunInvFrom(cfg, w, dials);
    TokenFixedThroughout(cfg, Exec(cfg, w, dials), rest);
    ExecJoins(cfg, w, dials, rest);
  }

  lemma DialsOfRound(cfg: Config, w: World, r: Round, dials: seq<Turn>, sends: seq<Turn>, events: seq<Turn>)
    requires cfg.Valid() && TestRound(cfg, w, r, dials, sends, events)
    ensures DialStage(cfg, w, r.now, r.outcome, dials)
  {
    hide Exec, Step, DialStage, SendStage, EventStage, BeatTurns;
  }

  // ---- many rounds ---------------------------------------------------------------------------

  function CountFull(full: seq<bool>): nat {
    if full == [] then 0 else CountFull(full[..|full| - 1]) + (if full[|full| - 1] then 1 else 0)
  }

  /** The longest the tokens for all other connections can last. */
  function Others(cfg: Config): int {
    (cfg.connections - 1) * cfg.reconnectInterval
  }

  /** Round `j` was a full burst, or came within `span` of `since` or of an earlier full burst. */
  ghost predicate Excused(rounds: seq<Round>, full: seq<bool>, since: int, span: int, j: nat)
    requires j < |rounds| == |full|
  {
    || full[j] || rounds[j].now < since + span
    || exists f :: 0 <= f < j && full[f] && rounds[j].now < rounds[f].now + span
  }

  /** The token timer stands where the attempts put it, counted from `since` or a full burst. */
  ghost predicate TimerExplained(cfg: Config, rounds: seq<Round>, full: seq<bool>, since: int, attempts: int, timer: int)
    requires |full| == |rounds|
  {
    || timer <= since + attempts * cfg.reconnectInterval
    || exists f :: 0 <= f < |rounds| && full[f] && timer <= rounds[f].now + attempts * cfg.reconnectInterval
  }

  ghost predicate Patient(cfg: Config, w: World, rounds: seq<Round>, full: seq<bool>, w': World) {
    var attempts := w'.m.reconnectAttempts - w.m.reconnectAttempts;
    && |full| == |rounds| && 256 * CountFull(full) <= attempts
    && TimerExplained(cfg, rounds, full, w.nextReconnectGlobal, attempts, w'.nextReconnectGlobal)
    && forall j :: 0 <= j < |rounds| ==> Excused(rounds, full, w.nextReconnectGlobal, Others(cfg), j)
  }

  lemma SpanFits(cfg: Config, attempts: int)
    requires attempts < cfg.connections
    ensures attempts * cfg.reconnectInterval <= Others(cfg)
  {
  }

  lemma Adds(cfg: Config, a: int, b: int)
    ensures (a + b) * cfg.reconnectInterval == a * cfg.reconnectInterval + b * cfg.reconnectInterval
  {
  }

  lemma ExcusedStill(rounds: seq<Round>, full: seq<bool>, since: int, span: int, j: nat, r: Round, burst: bool)
    requires j < |rounds| == |full| && Excused(rounds, full, since, span, j)
    ensures Excused(rounds + [r], full + [burst], since, span, j)
  {
    var all, flags := rounds + [r], full + [burst];
    if !full[j] && rounds[j].now >= since + span {
      var f :| 0 <= f < j && full[f] && rounds[j].now < rounds[f].now + span;
      assert flags[f] && all[f] == rounds[f];
    }
  }

  /** A round that is not a full burst came before the timer, and so within the span. */
  lemma LastExcused(rounds: seq<Round>, full: seq<bool>, since: int, ahead: int, span: int, timer: int, r: Round)
    requires |full| == |rounds| && ahead <= span && r.now < timer
    requires timer <= since + ahead || exists f :: 0 <= f < |rounds| && full[f] && timer <= rounds[f].now + ahead
    ensures Excused(rounds + [r], full + [false], since, span, |rounds|)
  {
    var all, flags := rounds + [r], full + [false];
    if timer > since + ahead {
      var f :| 0 <= f < |rounds| && full[f] && timer <= rounds[f].now + ahead;
      assert flags[f] && all[f] == rounds[f];
    }
  }

  lemma TimerAfter(cfg: Config, rounds: seq<Round>, full: seq<bool>, since: int, before: int, timer: int,
                   r: Round, more: nat, burst: bool, timer': int)
    requires |full| == |rounds| && TimerExplained(cfg, rounds, full, since, before, timer) && before >= 0
    requires timer' == timer + more * cfg.reconnectInterval || (burst && timer' == r.now)
    ensures TimerExplained(cfg, rounds + [r], full + [burst], since, before + more, timer')
  {
    var all, flags := rounds + [r], full + [burst];
    Adds(cfg, before, more);
    if burst && timer' == r.now {
      assert flags[|rounds|] && all[|rounds|] == r;
      assert (before + more) * cfg.reconnectInterval >= 0;
    } else if timer > since + before * cfg.reconnectInterval {
      var f :| 0 <= f < |rounds| && full[f] && timer <= rounds[f].now + before * cfg.reconnectInterval;
      assert flags[f] && all[f] == rounds[f];
    }
  }

  lemma PatientMore(cfg: Config, w: World, rounds: seq<Round>, full: seq<bool>, w1: World,
                    r: Round, more: nat, burst: bool, w2: World)
    requires Patient(cfg, w, rounds, full, w1) && Passed(cfg, w1, r.now, more, burst, w2)
    requires w2.m.reconnectAttempts - w.m.reconnectAttempts < cfg.connections
    ensures Patient(cfg, w, rounds + [r], full + [burst], w2)
  {
    var all, flags, since := rounds + [r], full + [burst], w.nextReconnectGlobal;
    var before := w1.m.reconnectAttempts - w.m.reconnectAttempts;
    var ahead, timer := (before + more) * cfg.reconnectInterval, w1.nextReconnectGlobal + more * cfg.reconnectInterval;
    assert flags[..|full|] == full;
    Adds(cfg, before, more);
    SpanFits(cfg, before + more);
    TimerAfter(cfg, rounds, full, since, before, w1.nextReconnectGlobal, r, more, burst, w2.nextReconnectGlobal);
    hide Others;
    forall j | 0 <= j < |all|
      ensures Excused(all, flags, since, Others(cfg), j)
    {
      if j < |rounds| {
        ExcusedStill(rounds, full, since, Others(cfg), j, r, burst);
      } else if !burst {
        TimerShifted(cfg, rounds, full, since, before, w1.nextReconnectGlobal, more);
        LastExcused(rounds, full, since, ahead, Others(cfg), timer, r);
      }
    }
  }

  lemma TimerShifted(cfg: Config, rounds: seq<Round>, full: seq<bool>, since: int, before: int, timer: int, more: nat)
    requires |full| == |rounds| && TimerExplained(cfg, rounds, full, since, before, timer)
    ensures var ahead, timer' := (before + more) * cfg.reconnectInterval, timer + more * cfg.reconnectInterval;
            timer' <= since + ahead || exists f :: 0 <= f < |rounds| && full[f] && timer' <= rounds[f].now + ahead
  {
    Adds(cfg, before, more);
  }

  /**
   * As long as a due client is not dialled, every iteration of the test is a full burst of 256 dials
   * or comes within the span of the other connections' tokens, counted from the first token or from
   * an earlier full burst; and the full bursts are few.
   */
  lemma {:induction false} Patience(cfg: Config, w: World, rounds: seq<Round>, ts: seq<Turn>, i: nat)
    returns (full: seq<bool>)
    requires cfg.Valid() && Reachable(cfg, w) && w.testStarted && i < |w.conns|
    requires CanReconnect(cfg, w.clock, w.conns[i])
    requires Played(cfg, w, rounds, ts) && NeverDials(cfg, w, ts, i) && !Exec(cfg, w, ts).draining
    ensures Patient(cfg, w, rounds, full, Exec(cfg, w, ts))
    ensures Exec(cfg, w, ts).m.reconnectAttempts - w.m.reconnectAttempts < cfg.connections
    ensures Exec(cfg, w, ts).testStarted && 256 * CountFull(full) < cfg.connections
    decreases |rounds|
  {
    hide Exec, Reachable, RoundTurns, NeverDials, CanReconnect, Patient, Passed, WorldInv, Distance, Others;
    DueNotOvertaken(cfg, w, ts, i);
    DueIsRecovering(cfg, w, i);
    if rounds == [] {
      full := [];
      NothingPlayed(cfg, w);
    } else {
      var last := |rounds| - 1;
      var n: nat :| n <= |ts| && Played(cfg, w, rounds[..last], ts[..n]) && !Exec(cfg, w, ts[..n]).finished
                    && RoundTurns(cfg, Exec(cfg, w, ts[..n]), rounds[last], ts[n..]);
      hide Played;
      var w1 := Exec(cfg, w, ts[..n]);
      assert ts[..n] + ts[n..] == ts && rounds[..last] + [rounds[last]] == rounds;
      NeverDialsSplits(cfg, w, ts[..n], ts[n..], i);
      ExecJoins(cfg, w, ts[..n], ts[n..]);
      RoundPhase(cfg, w1, rounds[last], ts[n..]);
      ExecOfReachable(cfg, w, ts[..n]);
      DueNotOvertaken(cfg, w, ts[..n], i);
      var front := Patience(cfg, w, rounds[..last], ts[..n], i);
      var attempts, burst := RoundPasses(cfg, w1, rounds[last], ts[n..], i);
      PatientMore(cfg, w, rounds[..last], front, w1, rounds[last], attempts, burst, Exec(cfg, w, ts));
      full := front + [burst];
    }
    FewFull(cfg, w, rounds, full, Exec(cfg, w, ts));
  }

  lemma DueIsRecovering(cfg: Config, w: World, i: nat)
    requires cfg.Valid() && Reachable(cfg, w) && i < |w.conns| && CanReconnect(cfg, w.clock, w.conns[i])
    ensures |w.conns| == cfg.connections && cfg.reconnect
  {
    hide Reachable, Total, Booked, Store;
    ReachableInv(cfg, w);
    assert ConnInv(cfg, i, w.conns[i]);
  }

  lemma NothingPlayed(cfg: Config, w: World)
    requires cfg.Valid()
    ensures Exec(cfg, w, []) == w && Patient(cfg, w, [], [], w)
  {
    hide Step;
  }

  lemma FewFull(cfg: Config, w: World, rounds: seq<Round>, full: seq<bool>, w': World)
    requires Patient(cfg, w, rounds, full, w') && w'.m.reconnectAttempts - w.m.reconnectAttempts < cfg.connections
    ensures 256 * CountFull(full) < cfg.connections
  {
  }

  lemma {:induction false} CountFullRises(full: seq<bool>, a: nat, b: nat)
    requires a <= b <= |full|
    ensures CountFull(full[..a]) <= CountFull(full[..b])
    decreases b
  {
    if a < b {
      assert full[..b][..b - 1] == full[..b - 1];
      CountFullRises(full, a, b - 1);
    }
  }

  lemma FullCounts(full: seq<bool>, f: nat)
    requires f < |full| && full[f]
    ensures CountFull(full[..f + 1]) == CountFull(full[..f]) + 1
  {
    assert full[..f + 1][..f] == full[..f];
  }

  /** Rounds picked out of a run, the first a span after `since` and each a span after the one before. */
  ghost predicate Spaced(rounds: seq<Round>, marks: seq<nat>, since: int, span: int) {
    && (forall k :: 0 <= k < |marks| ==> marks[k] < |rounds|)
    && (forall k :: 0 < k < |marks| ==>
          marks[k - 1] < marks[k] && rounds[marks[k]].now >= rounds[marks[k - 1]].now + span)
    && (marks != [] ==> rounds[marks[0]].now >= since + span)
  }

  predicate Rising(rounds: seq<Round>) {
    forall j, k :: 0 <= j <= k < |rounds| ==> rounds[j].now <= rounds[k].now
  }

  /** Up to each of the rounds picked there is one full burst more. */
  lemma {:induction false} MarksCount(rounds: seq<Round>, full: seq<bool>, marks: seq<nat>, since: int, span: int, k: nat)
    requires |full| == |rounds| && Rising(rounds) && Spaced(rounds, marks, since, span) && k < |marks| && span >= 0
    requires forall j :: 0 <= j < |rounds| ==> Excused(rounds, full, since, span, j)
    ensures CountFull(full[..marks[k] + 1]) >= k + 1 && rounds[marks[k]].now >= since + span
  {
    hide CountFull;
    var j := marks[k];
    var before := if k == 0 then 0 else marks[k - 1] + 1;
    if k > 0 { MarksCount(rounds, full, marks, since, span, k - 1); }
    assert k <= CountFull(full[..before]);
    assert Excused(rounds, full, since, span, j);
    var f := j;
    if !full[j] {
      f :| 0 <= f < j && full[f] && rounds[j].now < rounds[f].now + span;
    }
    assert f >= before;
    CountFullRises(full, before, f);
    FullCounts(full, f);
    CountFullRises(full, f + 1, j + 1);
  }

  /**
   * A due client is dialled in time: if enough rounds of the running test, one for every 256
   * connections, come a span apart, where the span covers a token for every other connection, then
   * one of the turns dials it, whatever the sockets and the server do.
   */
  lemma DueClientIsDialled(cfg: Config, w: World, rounds: seq<Round>, ts: seq<Turn>, i: nat, marks: seq<nat>)
    requires cfg.Valid() && Reachable(cfg, w) && w.testStarted && i < |w.conns|
    requires CanReconnect(cfg, w.clock, w.conns[i])
    requires Played(cfg, w, rounds, ts) && Timely(rounds, w.clock) && !Exec(cfg, w, ts).draining
    requires Spaced(rounds, marks, w.nextReconnectGlobal, Others(cfg)) && 256 * |marks| >= cfg.connections
    ensures !NeverDials(cfg, w, ts, i)
  {
    hide Exec, Reachable, NeverDials, CanReconnect, Played, Timely, CountFull, Spaced;
    if NeverDials(cfg, w, ts, i) {
      var full := Patience(cfg, w, rounds, ts, i);
      forall j, k | 0 <= j <= k < |rounds|
        ensures rounds[j].now <= rounds[k].now
      {
        TimelyRises(rounds, w.clock, j, k);
      }
      BurstsForMarks(cfg, w, rounds, full, marks, Exec(cfg, w, ts));
      assert false;
    }
  }

  lemma BurstsForMarks(cfg: Config, w: World, rounds: seq<Round>, full: seq<bool>, marks: seq<nat>, w': World)
    requires cfg.Valid() && Patient(cfg, w, rounds, full, w') && Rising(rounds)
    requires Spaced(rounds, marks, w.nextReconnectGlobal, Others(cfg)) && marks != []
    ensures CountFull(full) >= |marks|
  {
    var last := |marks| - 1;
    assert marks[last] < |rounds|;
    MarksCount(rounds, full, marks, w.nextReconnectGlobal, Others(cfg), last);
    CountFullRises(full, marks[last] + 1, |full|);
    assert full[..|full|] == full;
  }

  // ---- a client that can still be recovered --------------------------------------------------

  /** The test is running. */
  predicate TestOn(w: World) {
    w.testStarted && !w.draining && !w.finished && !w.shut
  }

  lemma TestStaysOn(cfg: Config, w: World, t: Turn)
    requires cfg.Valid() && (t.ReconnectNext? || t.ReconnectPass? || t.Event?)
    ensures TestOn(w) ==> TestOn(Step(cfg, w, t))
  {
    hide OpenSocket, HandleEvent, Choose, CanReconnect;
  }

  /** What a client keeps on its way back. */
  predicate OnItsWay(c: Conn, c': Conn) {
    c'.recoveryPending && c'.everOnline && c'.retryPending == c.retryPending && c'.lost == c.lost
  }

  lemma DialsBack(cfg: Config, x: Ctx, i: nat, l: Local)
    requires cfg.Valid() && cfg.encodes(LoginBody(cfg.UserId(i))) && l.c.recoveryPending && l.c.everOnline
    ensures var c' := OpenSocket(cfg, x, i, l, true, Immediate(3)).c; AwaitsLogin(c') && OnItsWay(l.c, c')
  {
    hide Close, Config.UserId, Config.PeerUserId, ScheduleReconnect, SeqAfter, DrawnSeq;
  }

  const CONNECTED: Ready := Ready(true, false, [], false, Received([], false), false)

  lemma ConnectsBack(cfg: Config, x: Ctx, l: Local)
    requires cfg.Valid() && cfg.encodes(LoginBody(l.c.uid)) && l.c.fd >= 0 && l.c.state == Connecting
    requires l.c.recoveryPending && l.c.everOnline
    ensures var c' := HandleEvent(cfg, x, l, CONNECTED).c; AwaitsLogin(c') && OnItsWay(l.c, c')
  {
    hide Close, SeqAfter, DrawnSeq;
  }

  /** The client is down, and due by the clock. */
  ghost predicate Due(cfg: Config, w: World, i: nat)
    requires cfg.Valid()
  {
    Reachable(cfg, w) && TestOn(w) && i < |w.conns| && CanReconnect(cfg, w.clock, w.conns[i])
  }

  /** The client asks to log in again. */
  ghost predicate Asking(cfg: Config, w: World, i: nat, c: Conn)
    requires cfg.Valid()
  {
    Reachable(cfg, w) && TestOn(w) && i < |w.conns| && AwaitsLogin(w.conns[i]) && OnItsWay(c, w.conns[i])
  }

  lemma DialTurnTaken(cfg: Config, w: World, now: int, i: nat)
    requires cfg.Valid() && Due(cfg, w, i) && cfg.encodes(LoginBody(cfg.UserId(i)))
    requires Enabled(cfg, w, ReconnectNext(now, Immediate(3))) && Dials(cfg, w, ReconnectNext(now, Immediate(3)), i)
    ensures Asking(cfg, Step(cfg, w, ReconnectNext(now, Immediate(3))), i, w.conns[i])
  {
    var t := ReconnectNext(now, Immediate(3));
    StepOfReachable(cfg, w, t);
    TestStaysOn(cfg, w, t);
    StepReconnects(cfg, w, now, Immediate(3));
    StillRecovering(cfg, w, i);
    hide Reachable, Step, OpenSocket, Choose, Config.UserId, Enabled;
    DialsBack(cfg, CtxOf(w, now), i, LocalOf(w, i));
  }

  lemma StillRecovering(cfg: Config, w: World, i: nat)
    requires cfg.Valid() && Reachable(cfg, w) && i < |w.conns| && w.conns[i].recoveryPending
    ensures |w.conns| == cfg.connections && cfg.reconnect && w.conns[i].everOnline
    ensures w.reconnectCursor < |w.conns|
    ensures TestOn(w) && w.conns[i].state == Closed && w.conns[i].attemptNo < cfg.maxAttempts ==>
              w.conns[i].nextReconnect > 0 && w.conns[i].fd < 0
    ensures w.conns[i].fd >= 0 ==> w.conns[i].uid == cfg.UserId(i)
    ensures w.conns[i].state == LoginPending ==> AwaitsLogin(w.conns[i])
    ensures w.conns[i].state != Online && w.conns[i].state != Unused
    ensures w.conns[i].state == Connecting ==> w.conns[i].fd >= 0
  {
    hide Reachable, Total, Booked, Store, Paced, Config.UserId;
    ReachableInv(cfg, w);
    assert ConnInv(cfg, i, w.conns[i]);
  }

  /** Turn by turn the cursor comes to a client that is due. */
  lemma {:induction false} CanBeDialled(cfg: Config, w: World, i: nat) returns (run: seq<Turn>)
    requires cfg.Valid() && Due(cfg, w, i) && cfg.encodes(LoginBody(cfg.UserId(i)))
    requires w.reconnectCursor < |w.conns|
    ensures Asking(cfg, Exec(cfg, w, run), i, w.conns[i])
    decreases Distance(w.reconnectCursor, i, |w.conns|)
  {
    hide Reachable, Exec, Step, WorldInv, Config.UserId, Distance, Choose;
    var now := Max(w.clock, w.nextReconnectGlobal);
    StillRecovering(cfg, w, i);
    ReachableInv(cfg, w);
    var t := ReconnectNext(now, Immediate(3));
    DueIsFound(cfg, w, t, i);
    if Dials(cfg, w, t, i) {
      DialTurnTaken(cfg, w, now, i);
      run := [t];
      SingleTurn(cfg, w, t);
    } else {
      var skip := ReconnectNext(now, NoSocket);
      var w1 := Step(cfg, w, skip);
      DueIsFound(cfg, w, skip, i);
      DialCounts(cfg, w, skip);
      DueStaysDue(cfg, w, skip, i);
      DownUntilDialled(cfg, w, skip, i);
      CursorApproaches(cfg, w, skip, i);
      StepKeepsCount(cfg, w, skip);
      StepOfReachable(cfg, w, skip);
      TestStaysOn(cfg, w, skip);
      var rest := CanBeDialled(cfg, w1, i);
      run := [skip] + rest;
      SingleTurn(cfg, w, skip);
      ExecJoins(cfg, w, [skip], rest);
    }
  }

  lemma SingleTurn(cfg: Config, w: World, t: Turn)
    requires cfg.Valid()
    ensures Exec(cfg, w, [t]) == Step(cfg, w, t)
  {
    hide Step;
    assert [t][..0] == [];
  }

  /** Waiting makes a client due whose time is set. */
  lemma BecomesDue(cfg: Config, w: World, i: nat) returns (t: Turn)
    requires cfg.Valid() && Reachable(cfg, w) && TestOn(w) && i < |w.conns|
    requires w.conns[i].recoveryPending && w.conns[i].state == Closed && w.conns[i].attemptNo < cfg.maxAttempts
    ensures var w' := Step(cfg, w, t);
            Due(cfg, w', i) && w'.conns == w.conns && w'.reconnectCursor < |w'.conns|
  {
    StillRecovering(cfg, w, i);
    t := ReconnectPass(Max(w.clock, w.conns[i].nextReconnect));
    StepOfReachable(cfg, w, t);
    TestStaysOn(cfg, w, t);
    PassKeeps(cfg, w, t.now);
    hide Reachable, Step;
  }

  lemma PassKeeps(cfg: Config, w: World, now: int)
    requires cfg.Valid() && cfg.reconnect && TestOn(w) && now >= w.clock
    ensures var w' := Step(cfg, w, ReconnectPass(now));
            w'.conns == w.conns && w'.clock == now && w'.reconnectCursor == w.reconnectCursor
  {
  }

  /** From wherever it is on its way back, a client can come to ask for its login. */
  lemma CanAsk(cfg: Config, w: World, i: nat) returns (run: seq<Turn>)
    requires cfg.Valid() && Reachable(cfg, w) && TestOn(w) && i < |w.conns| && cfg.encodes(LoginBody(cfg.UserId(i)))
    requires w.conns[i].recoveryPending && (Opening(w.conns[i]) || w.conns[i].attemptNo < cfg.maxAttempts)
    ensures Asking(cfg, Exec(cfg, w, run), i, w.conns[i])
  {
    hide Reachable, Exec, Step, Config.UserId, CanReconnect, HandleEvent;
    StillRecovering(cfg, w, i);
    if w.conns[i].state == LoginPending {
      run := [];
      NothingPlayed(cfg, w);
    } else if w.conns[i].state == Connecting {
      var t := Event(w.clock, i, CONNECTED);
      run := [t];
      SingleTurn(cfg, w, t);
      StepOfReachable(cfg, w, t);
      TestStaysOn(cfg, w, t);
      ConnectsBack(cfg, CtxOf(w, w.clock), LocalOf(w, i));
      StepNotifies(cfg, w, w.clock, i, CONNECTED);
    } else {
      var wait := BecomesDue(cfg, w, i);
      var rest := CanBeDialled(cfg, Step(cfg, w, wait), i);
      SingleTurn(cfg, w, wait);
      ExecJoins(cfg, w, [wait], rest);
      run := [wait] + rest;
    }
  }

  lemma LoginArrives(cfg: Config, x: Ctx, l: Local)
    requires cfg.Valid() && l.c.fd >= 0 && l.c.state == LoginPending
    ensures var p := LoginResponse(true, l.c.uid, []);
            HandleEvent(cfg, x, l, Ready(false, false, [], true, Received([p], false), false)) == HandlePacket(cfg, x, l, p)
  {
    hide HandlePacket, Close, FlushOut, Connected, HandleConnectFailure;
    var p := LoginResponse(true, l.c.uid, []);
    var l1 := HandlePacket(cfg, x, l, p);
    assert HandlePackets(cfg, x, l, [p]) == HandlePackets(cfg, x, l1, []) == l1;
    hide HandlePackets;
  }

  /** The login of a recovering client puts its whole stash in flight. */
  lemma LoginRestores(cfg: Config, w: World, i: nat)
    requires cfg.Valid() && Reachable(cfg, w) && i < |w.conns|
    requires AwaitsLogin(w.conns[i]) && w.conns[i].recoveryPending
    ensures var l := LocalOf(w, i);
            var l' := HandlePacket(cfg, CtxOf(w, w.clock), l, LoginResponse(true, l.c.uid, []));
            && Back(l.c.retryPending, l'.c) && l'.c.lost == l.c.lost && l'.c.fd == l.c.fd >= 0
  {
    hide Reachable, Login, HandlePacket, Replay, Items, WalkOrder, Recent, Stands, Restored, Config.UserId, CanQueue;
    RecoveryDropsNothing(cfg, w, i, w.clock, []);
    var x, p := CtxOf(w, w.clock), LoginResponse(true, w.conns[i].uid, []);
    var l := Hear(LocalOf(w, i), p);
    PacketIs(cfg, x, LocalOf(w, i), p);
    var stash := l.c.retryPending;
    var walk := WalkOrder(stash.Keys, []);
    var resumed, items := Resumed(l, x.now + cfg.heartbeat), Items(stash, walk);
    StashCanQueue(cfg, w, i, walk);
    RecoveringConn(cfg, w, i);
    RecoveryLoginUnfolds(cfg, x, l, []);
    ListingLength(walk, stash.Keys);
    assert |stash.Keys| == |stash|;
    var k := OnTheCycle(l.c.seq_);
    NothingRecent(resumed.c.pending, k);
    ReplayRestores(cfg, resumed, items, k, k);
    ReplayKeepsFd(cfg, resumed, items);
    RestoredIsBack(stash, walk, Replay(cfg, resumed, items).c.pending);
  }

  lemma {:induction false} ReplayKeepsFd(cfg: Config, l: Local, items: seq<Pending>)
    ensures Replay(cfg, l, items).c.fd == l.c.fd
    decreases |items|
  {
    if items != [] {
      ReplayOneFd(cfg, l, items[0]);
      hide ReplayOne;
      ReplayKeepsFd(cfg, ReplayOne(cfg, l, items[0]), items[1..]);
    }
  }

  lemma ReplayOneFd(cfg: Config, l: Local, item: Pending)
    ensures ReplayOne(cfg, l, item).c.fd == l.c.fd
  {
    hide DrawnSeq, SeqAfter;
  }

  /** Online, with exactly the stash in flight, each message as it was, and nothing left to replay. */
  ghost predicate Back(stash: map<string, Pending>, c: Conn) {
    && c.state == Online && c.retryPending == map[] && PendingIds(c.pending) == stash.Keys
    && forall s :: s in c.pending ==> c.pending[s].clientId in stash && c.pending[s] == stash[c.pending[s].clientId]
  }

  lemma StashCanQueue(cfg: Config, w: World, i: nat, walk: seq<string>)
    requires cfg.Valid() && Reachable(cfg, w) && i < |w.conns| && AwaitsLogin(w.conns[i])
    requires Lists(walk, w.conns[i].retryPending.Keys)
    ensures var stash, items := w.conns[i].retryPending, Items(w.conns[i].retryPending, walk);
            && w.conns[i].fd >= 0 && (forall id :: id in stash ==> stash[id].clientId == id)
            && forall j, c: Conn :: 0 <= j < |items| && c.fd >= 0 && c.state == Online ==>
                 CanQueue(cfg, c, ChatBody(items[j].clientId, items[j].to))
  {
    hide Reachable, Total, Booked, Paced, Items;
    ReachableInv(cfg, w);
    assert ConnInv(cfg, i, w.conns[i]);
    hide Issued, Sequenced, Repeats;
    forall j | 0 <= j < |walk|
      ensures walk[j] in w.conns[i].retryPending
    {
      assert walk[j] in walk;
    }
  }

  lemma RestoredIsBack(stash: map<string, Pending>, walk: seq<string>, after: map<nat, Pending>)
    requires Lists(walk, stash.Keys) && (forall id :: id in stash ==> stash[id].clientId == id)
    requires Restored(map[], Items(stash, walk), after)
    ensures PendingIds(after) == stash.Keys
    ensures forall s :: s in after ==> after[s].clientId in stash && after[s] == stash[after[s].clientId]
  {
    var items := Items(stash, walk);
    hide Items;
    forall s | s in after
      ensures after[s].clientId in stash && after[s] == stash[after[s].clientId]
    {
      var k :| 0 <= k < |items| && items[k] == after[s];
      assert walk[k] in walk;
    }
    forall id | id in stash
      ensures id in PendingIds(after)
    {
      var k :| 0 <= k < |walk| && walk[k] == id;
      var s :| s in after && after[s] == items[k];
    }
  }

  /**
   * Nobody is stuck: from every reachable state of a running test, a recovering client that is on its
   * way back or has attempts left has a continuation in which it is online with its whole stash in
   * flight and nothing dropped.
   */
  lemma CanStillRecover(cfg: Config, w: World, i: nat) returns (run: seq<Turn>)
    requires cfg.Valid() && Reachable(cfg, w) && TestOn(w) && i < |w.conns| && cfg.encodes(LoginBody(cfg.UserId(i)))
    requires w.conns[i].recoveryPending && (Opening(w.conns[i]) || w.conns[i].attemptNo < cfg.maxAttempts)
    ensures var w' := Exec(cfg, w, run);
            && i < |w'.conns| && Back(w.conns[i].retryPending, w'.conns[i]) && w'.conns[i].lost == w.conns[i].lost
  {
    hide Reachable, Exec, Step, Config.UserId, HandleEvent, HandlePacket, Back;
    var ask := CanAsk(cfg, w, i);
    var w1 := Exec(cfg, w, ask);
    var l := LocalOf(w1, i);
    var e := Ready(false, false, [], true, Received([LoginResponse(true, l.c.uid, [])], false), false);
    var t := Event(w1.clock, i, e);
    LoginRestores(cfg, w1, i);
    LoginArrives(cfg, CtxOf(w1, w1.clock), l);
    StepNotifies(cfg, w1, w1.clock, i, e);
    ExecOneMore(cfg, w, ask, t);
    run := ask + [t];
  }
}
