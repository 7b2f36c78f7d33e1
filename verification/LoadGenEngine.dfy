/** The load generator as it runs: handlers that update one connection and the counters in place. */
module LoadGenEngine {
  import opened Basics
  import opened ClientIds
  import opened OutputQueue
  import opened RoundRobin
  import opened LoadGenModel
  import opened LoadGenRuns
  import opened LoadGenRounds
  import Invariant = LoadGenInvariant

  lemma IdsOfMore(done: map<nat, Pending>, s: nat, item: Pending)
    requires s !in done
    ensures PendingIds(done[s := item]) == PendingIds(done) + {item.clientId}
  {
    var more := done[s := item];
    forall id | id in PendingIds(more)
      ensures id in PendingIds(done) + {item.clientId}
    {
      var t :| t in more && more[t].clientId == id;
      assert t != s ==> t in done && done[t].clientId == id;
    }
    forall id | id in PendingIds(done) + {item.clientId}
      ensures id in PendingIds(more)
    {
      if id == item.clientId {
        assert s in more && more[s].clientId == id;
      } else {
        var t :| t in done && done[t].clientId == id;
        assert t in more && more[t].clientId == id;
      }
    }
  }

  lemma FirstOfMore(done: map<nat, Pending>, s: nat, item: Pending, id: string)
    requires (forall t :: t in done ==> s < t) && id in PendingIds(done[s := item])
    requires id != item.clientId ==> id in PendingIds(done)
    ensures done[s := item][FirstWith(done[s := item], id)] == if id == item.clientId then item else done[FirstWith(done, id)]
  {
    var more := done[s := item];
    var a := FirstWith(more, id);
    if id == item.clientId {
      assert s in more && more[s].clientId == id;
      assert a <= s;
    } else {
      var b := FirstWith(done, id);
      assert a in done && done[a].clientId == id;
      assert b in more && more[b].clientId == id;
    }
  }

  /** Adding an entry below all others decides its id: the entry written last is the lowest. */
  lemma StashBelow(done: map<nat, Pending>, retry: map<string, Pending>, s: nat, item: Pending)
    requires forall t :: t in done ==> s < t
    ensures Stashed(done[s := item], retry) == Stashed(done, retry)[item.clientId := item]
  {
    hide FirstWith, PendingIds;
    var more := done[s := item];
    IdsOfMore(done, s, item);
    forall id | id in PendingIds(more)
      ensures more[FirstWith(more, id)] == if id == item.clientId then item else done[FirstWith(done, id)]
    {
      FirstOfMore(done, s, item, id);
    }
  }

  lemma {:induction false} Greatest(keys: set<nat>) returns (s: nat)
    requires keys != {}
    ensures s in keys && forall t :: t in keys ==> t <= s
  {
    var k :| k in keys;
    s := k;
    if keys != {k} {
      var m := Greatest(keys - {k});
      assert forall t :: t in keys ==> t == k || t in keys - {k};
      s := if k < m then m else k;
    }
  }

  lemma StashOfNothing(retry: map<string, Pending>)
    ensures Stashed(map[], retry) == retry
  {
    assert PendingIds(map[]) == {};
  }

  lemma SameAsItself(ps: seq<Packet>)
    ensures SamePackets(ps, ps)
  {
  }

  /** A flight split in two, everything in `rest` numbered below everything in `done`. */
  ghost predicate Split(whole: map<nat, Pending>, rest: map<nat, Pending>, done: map<nat, Pending>) {
    && (forall t :: t in done ==> t in whole && whole[t] == done[t])
    && (forall t :: t in rest ==> t in whole && whole[t] == rest[t])
    && (forall t :: t in whole ==> t in rest || t in done)
    && (forall s, t :: s in rest && t in done ==> s < t)
  }

  lemma SplitStep(whole: map<nat, Pending>, rest: map<nat, Pending>, done: map<nat, Pending>, s: nat)
    requires Split(whole, rest, done) && s in rest && forall t :: t in rest ==> t <= s
    ensures Split(whole, rest - {s}, done[s := rest[s]])
    ensures |rest - {s}| < |rest| && forall t :: t in done ==> s < t
  {
    assert rest.Keys == (rest - {s}).Keys + {s};
  }

  lemma SplitStart(whole: map<nat, Pending>)
    ensures Split(whole, whole, map[])
  {
  }

  lemma SplitDone(whole: map<nat, Pending>, done: map<nat, Pending>)
    requires Split(whole, map[], done)
    ensures done == whole
  {
  }

  class FailoverLoadGen {
    const cfg: Config
    const conns: array<Conn>
    var metrics: Metrics
    var created: nat
    var sendCursor: nat
    var reconnectCursor: nat
    var testStarted: bool
    var setupFailed: bool
    var draining: bool
    var finished: bool
    var nextConnect: int
    var nextReconnectGlobal: int
    var setupDeadline: int
    var testStart: int
    var testEnd: int
    var nextSend: int
    var drainEnd: int
    ghost var clock: int
    ghost var selections: nat
    ghost var shut: bool
    ghost const start: nat
    ghost var turns: seq<Turn>

    ghost function View(): World
      reads this, conns
    {
      World(conns[..], metrics, created, sendCursor, reconnectCursor, testStarted, setupFailed, draining, finished,
            nextConnect, nextReconnectGlobal, setupDeadline, testStart, testEnd, nextSend, drainEnd,
            clock, selections, shut)
    }

    /** The fields hold what the turns taken so far make of the initial state. */
    ghost predicate Valid()
      reads this, conns
    {
      && cfg.Valid() && conns.Length == cfg.connections
      && sendCursor < conns.Length && reconnectCursor < conns.Length && created <= conns.Length
      && View() == Exec(cfg, Init(cfg, start), turns)
    }

    /** One connection with the shared counters, as the handlers see them. */
    ghost function At(i: nat): Local
      reads this`metrics, conns
      requires i < conns.Length
    {
      Local(conns[i], metrics)
    }

    function Now(now: int): Ctx
      reads this
    {
      Ctx(testStarted, draining, now)
    }

    twostate predicate OthersSame(i: nat)
      reads conns
    {
      forall j :: 0 <= j < conns.Length && j != i ==> conns[j] == old(conns[j])
    }

    constructor (cfg: Config, start: nat)
      requires cfg.Valid()
      ensures Valid() && this.cfg == cfg && this.start == start && turns == [] && fresh(conns)
      ensures clock == start && !shut && !finished
    {
      this.cfg := cfg;
      conns := new Conn[cfg.connections](_ => NEW_CONN);
      metrics := ZERO;
      created, sendCursor, reconnectCursor := 0, 0, 0;
      testStarted, setupFailed, draining, finished := false, false, false, false;
      nextConnect, nextReconnectGlobal, setupDeadline := start, start, start + cfg.setupBudget;
      testStart, testEnd, nextSend, drainEnd := 0, 0, 0, 0;
      clock, selections, shut := start, 0, false;
      this.start := start;
      turns := [];
      new;
      assert conns[..] == Init(cfg, start).conns;
    }

    // ---- transport and sequence numbers ------------------------------------------------------

    /** Zero is skipped, so the loop runs at most twice. */
    method NextSeq(i: nat) returns (seq_: nat)
      requires i < conns.Length
      modifies conns
      ensures seq_ == DrawnSeq(old(conns[i].seq_)) && seq_ != 0
      ensures conns[i] == Draw(old(conns[i])) && OthersSame(i)
    {
      seq_ := conns[i].seq_;
      conns[i] := conns[i].(seq_ := (seq_ + 1) % U32, draws := conns[i].draws + 1);
      while seq_ == 0
        invariant seq_ == 0 || seq_ == DrawnSeq(old(conns[i].seq_))
        invariant seq_ == 0 ==> old(conns[i].seq_) == 0
        invariant conns[i] == old(conns[i]).(seq_ := (seq_ + 1) % U32, draws := old(conns[i]).draws + 1)
        invariant OthersSame(i)
        decreases seq_ == 0
      {
        seq_ := conns[i].seq_;
        conns[i] := conns[i].(seq_ := (seq_ + 1) % U32);
      }
    }

    method QueuePacket(i: nat, body: Body, seq_: nat) returns (ok: bool)
      requires i < conns.Length
      modifies this`metrics, conns
      ensures At(i) == Queue(cfg, old(At(i)), body, seq_) && OthersSame(i)
      ensures ok == CanQueue(cfg, old(conns[i]), body)
    {
      if conns[i].fd < 0 || conns[i].state == Closed { return false; }
      if !cfg.encodes(body) {
        metrics := metrics.(protocolErrors := metrics.protocolErrors + 1);
        return false;
      }
      conns[i] := conns[i].(out := Push(conns[i].out, cfg.frame(body, seq_)), trace := conns[i].trace.Posted(body, seq_));
      return true;
    }

    // ---- closing and reconnecting ------------------------------------------------------------

    method StashInFlight(i: nat)
      requires i < conns.Length
      modifies conns
      ensures conns[i] == StashPending(old(conns[i])) && OthersSame(i)
    {
      hide Stashed, Split;
      ghost var whole, retry := conns[i].pending, conns[i].retryPending;
      var rest, stash := conns[i].pending, conns[i].retryPending;
      ghost var done: map<nat, Pending> := map[];
      StashOfNothing(retry);
      SplitStart(whole);
      while rest != map[]
        invariant Split(whole, rest, done) && stash == Stashed(done, retry)
        modifies {}
        decreases |rest|
      {
        ghost var top := Greatest(rest.Keys);
        assert top in rest;
        var s :| s in rest && forall t :: t in rest ==> t <= s;
        SplitStep(whole, rest, done, s);
        StashBelow(done, retry, s, rest[s]);
        stash := stash[rest[s].clientId := rest[s]];
        done := done[s := rest[s]];
        rest := rest - {s};
      }
      SplitDone(whole, done);
      conns[i] := conns[i].(retryPending := stash, pending := map[]);
    }

    method BackoffMs(i: nat) returns (ms: int)
      requires i < conns.Length && cfg.Valid()
      ensures ms == Backoff.Delay(cfg.baseMs, cfg.maxMs, conns[i].attemptNo, cfg.mix(conns[i].uid, conns[i].attemptNo))
    {
      ms := Backoff.BackoffMs(cfg.baseMs, cfg.maxMs, conns[i].attemptNo, cfg.mix(conns[i].uid, conns[i].attemptNo));
    }

    method Reschedule(i: nat, now: int)
      requires i < conns.Length && cfg.Valid()
      modifies this`metrics, conns
      ensures At(i) == ScheduleReconnect(cfg, Now(now), old(At(i))) && OthersSame(i)
    {
      if !cfg.reconnect || !conns[i].everOnline || draining { return; }
      if conns[i].attemptNo >= cfg.maxAttempts {
        metrics := metrics.(reconnectExhausted := metrics.reconnectExhausted + 1);
        conns[i] := conns[i].(exhausted := conns[i].exhausted + 1);
        return;
      }
      var ms := BackoffMs(i);
      conns[i] := conns[i].(recoveryPending := true, nextReconnect := now + MILLI * ms);
    }

    method ShutConn(i: nat, count: bool)
      requires i < conns.Length
      modifies this`metrics, conns
      ensures At(i) == CloseDown(cfg, old(At(i)), count) && OthersSame(i)
    {
      hide Stashed, FailOpenLogin, CountDisconnect;
      conns[i] := Shut(conns[i]);
      FailLogin(i);
      if count { CountDrop(i); }
      if conns[i].everOnline { StashInFlight(i); }
      conns[i] := conns[i].(state := Closed);
      if count && conns[i].everOnline && cfg.reconnect {
        conns[i] := conns[i].(recoveryPending := true);
      }
    }

    method CloseConn(i: nat, now: int, count: bool)
      requires i < conns.Length && cfg.Valid()
      modifies this`metrics, conns
      ensures At(i) == Close(cfg, Now(now), old(At(i)), count) && OthersSame(i)
    {
      hide CloseDown, ScheduleReconnect;
      if conns[i].fd < 0 { return; }
      var wasOnline := conns[i].state == Online;
      var wasReauth := conns[i].recoveryPending && conns[i].everOnline;
      ShutConn(i, count);
      if count && conns[i].everOnline && cfg.reconnect {
        Reschedule(i, now);
      } else if !wasOnline && wasReauth && cfg.reconnect {
        Reschedule(i, now);
      }
    }

    method FailLogin(i: nat)
      requires i < conns.Length
      modifies this`metrics, conns
      ensures At(i) == FailOpenLogin(old(At(i))) && OthersSame(i)
    {
      var c := conns[i];
      if !c.loginResolved && c.state != Connecting && c.state != Unused {
        conns[i] := c.(loginResolved := true);
        if c.recoveryPending && c.everOnline {
          metrics := metrics.(reauthFail := metrics.reauthFail + 1);
        } else if !c.everOnline {
          metrics := metrics.(loginFail := metrics.loginFail + 1,
                              loginUnresolvedFail := metrics.loginUnresolvedFail + 1);
        }
      }
    }

    method CountDrop(i: nat)
      requires i < conns.Length
      modifies this`metrics, conns
      ensures At(i) == CountDisconnect(old(At(i))) && OthersSame(i)
    {
      metrics := metrics.(disconnectEvents := metrics.disconnectEvents + 1);
      if !conns[i].countedDisconnect && conns[i].everOnline {
        conns[i] := conns[i].(countedDisconnect := true);
        metrics := metrics.(disconnects := metrics.disconnects + 1, affectedClients := metrics.affectedClients + 1);
      }
    }

    // ---- connecting --------------------------------------------------------------------------

    method OnceConnected(i: nat, now: int, reconnect: bool)
      requires i < conns.Length && cfg.Valid()
      modifies this`metrics, conns
      ensures At(i) == Connected(cfg, Now(now), old(At(i)), reconnect) && OthersSame(i)
    {
      hide Close, Queue;
      conns[i] := conns[i].(state := LoginPending, loginResolved := false);
      if reconnect {
        metrics := metrics.(reconnectConnected := metrics.reconnectConnected + 1,
                            reauthAttempts := metrics.reauthAttempts + 1);
      } else {
        metrics := metrics.(connected := metrics.connected + 1);
      }
      var uid := conns[i].uid;
      var seq_ := NextSeq(i);
      var ok := QueuePacket(i, LoginBody(uid), seq_);
      if !ok {
        conns[i] := conns[i].(loginResolved := true);
        if reconnect {
          metrics := metrics.(reauthFail := metrics.reauthFail + 1);
          CloseConn(i, now, true);
        } else {
          metrics := metrics.(loginFail := metrics.loginFail + 1,
                              loginUnresolvedFail := metrics.loginUnresolvedFail + 1);
          CloseConn(i, now, false);
        }
      }
    }

    method CountConnectFailure(i: nat, now: int, reconnect: bool)
      requires i < conns.Length && cfg.Valid()
      modifies this`metrics, conns
      ensures At(i) == ConnectFailed(cfg, Now(now), old(At(i)), reconnect) && OthersSame(i)
    {
      hide ScheduleReconnect;
      if reconnect {
        metrics := metrics.(reconnectConnectFail := metrics.reconnectConnectFail + 1);
        Reschedule(i, now);
      } else {
        metrics := metrics.(connectFail := metrics.connectFail + 1);
      }
    }

    method OnConnectError(i: nat, now: int)
      requires i < conns.Length && cfg.Valid()
      modifies this`metrics, conns
      ensures At(i) == HandleConnectFailure(cfg, Now(now), old(At(i))) && OthersSame(i)
    {
      hide ConnectFailed;
      var reconnect := conns[i].recoveryPending && conns[i].everOnline;
      conns[i] := conns[i].(fd := -1, state := Closed, out := EMPTY, trace := conns[i].trace.Detached());
      CountConnectFailure(i, now, reconnect);
    }

    method Open(i: nat, now: int, reconnect: bool, r: OpenResult)
      requires i < conns.Length && cfg.Valid()
      modifies this`metrics, conns
      ensures At(i) == OpenSocket(cfg, Now(now), i, old(At(i)), reconnect, r) && OthersSame(i)
    {
      hide ConnectFailed, Connected, Config.UserId, Config.PeerUserId;
      conns[i] := conns[i].(out := EMPTY, trace := conns[i].trace.Detached(), loginResolved := false, redial := reconnect);
      if reconnect {
        metrics := metrics.(reconnectAttempts := metrics.reconnectAttempts + 1);
        conns[i] := conns[i].(attemptNo := conns[i].attemptNo + 1);
      } else {
        metrics := metrics.(connectAttempts := metrics.connectAttempts + 1);
      }
      if r.NoSocket? {
        if !reconnect { conns[i] := conns[i].(state := Closed); }
        CountConnectFailure(i, now, reconnect);
      } else {
        conns[i] := conns[i].(uid := cfg.UserId(i), peer := cfg.PeerUserId(i));
        if r.InProgress? {
          conns[i] := conns[i].(fd := r.fd, state := Connecting);
        } else if r.Immediate? {
          conns[i] := conns[i].(fd := r.fd, state := LoginPending);
          OnceConnected(i, now, reconnect);
        } else {
          conns[i] := conns[i].(fd := -1, state := Closed);
          CountConnectFailure(i, now, reconnect);
        }
      }
    }

    // ---- packets -----------------------------------------------------------------------------

    /** The stash is taken out and walked once, in an order the hash table chooses. */
    method ReplayStash(i: nat) returns (ghost order: seq<string>)
      requires i < conns.Length
      modifies this`metrics, conns
      ensures At(i) == RetryPending(cfg, old(At(i)), order) && OthersSame(i)
      ensures Lists(order, old(conns[i]).retryPending.Keys)
    {
      var stash := conns[i].retryPending;
      var items: seq<Pending>;
      items, order := ListStash(stash);
      conns[i] := conns[i].(retryPending := map[]);
      ghost var l0 := At(i);
      var k := 0;
      hide ReplayOne, Lists, Items;
      while k < |items|
        invariant 0 <= k <= |items|
        invariant Replay(cfg, At(i), items[k..]) == Replay(cfg, l0, items) && OthersSame(i)
      {
        assert items[k..][1..] == items[k + 1..];
        ReplayItem(i, items[k]);
        k := k + 1;
      }
    }

    method ListStash(stash: map<string, Pending>) returns (items: seq<Pending>, ghost order: seq<string>)
      ensures Lists(order, stash.Keys) && items == Items(stash, order)
    {
      items, order := [], [];
      var rest := stash.Keys;
      while rest != {}
        invariant rest <= stash.Keys && Lists(order, stash.Keys - rest)
        invariant |items| == |order| && forall k :: 0 <= k < |order| ==> order[k] in stash && items[k] == stash[order[k]]
        decreases rest
      {
        var id :| id in rest;
        items, order := items + [stash[id]], order + [id];
        rest := rest - {id};
      }
      assert stash.Keys - rest == stash.Keys;
    }

    /** `emplace` keeps the entry that is there; the new message is then nowhere. */
    method PutInFlight(i: nat, seq_: nat, item: Pending)
      requires i < conns.Length
      modifies conns
      ensures conns[i] == Launch(old(conns[i]), seq_, item) && OthersSame(i)
    {
      var queued := conns[i].queued + multiset{item.clientId};
      if seq_ !in conns[i].pending {
        conns[i] := conns[i].(pending := conns[i].pending[seq_ := item], queued := queued);
      } else {
        conns[i] := conns[i].(lost := conns[i].lost + 1, queued := queued);
      }
    }

    method ReplayItem(i: nat, item: Pending)
      requires i < conns.Length
      modifies this`metrics, conns
      ensures At(i) == ReplayOne(cfg, old(At(i)), item) && OthersSame(i)
    {
      hide Queue;
      ghost var l0 := At(i);
      var seq_ := NextSeq(i);
      ghost var l1 := At(i);
      Invariant.QueueShape(cfg, l1, ChatBody(item.clientId, item.to), seq_);
      var ok := QueuePacket(i, ChatBody(item.clientId, item.to), seq_);
      if ok {
        PutInFlight(i, seq_, item);
        conns[i] := conns[i].(replays := conns[i].replays + 1);
        metrics := metrics.(messageRetryAttempts := metrics.messageRetryAttempts + 1);
      } else {
        conns[i] := conns[i].(retryPending := conns[i].retryPending[item.clientId := item]);
      }
    }

    method OnLogin(i: nat, now: int, success: bool, userId: nat) returns (ghost order: seq<string>)
      requires i < conns.Length && cfg.Valid()
      modifies this`metrics, conns
      ensures At(i) == Login(cfg, Now(now), old(At(i)), success, userId, order) && OthersSame(i)
    {
      hide Close, RetryPending;
      order := [];
      if conns[i].loginResolved {
        metrics := metrics.(protocolErrors := metrics.protocolErrors + 1);
        return;
      }
      var recovery := conns[i].recoveryPending && conns[i].everOnline;
      conns[i] := conns[i].(loginResolved := true);
      if !(success && userId == conns[i].uid) {
        OnLoginRefused(i, now, recovery);
        return;
      }
      conns[i] := conns[i].(state := Online, nextHeartbeat := now + cfg.heartbeat);
      if !conns[i].everOnline {
        conns[i] := conns[i].(everOnline := true);
        metrics := metrics.(loginOk := metrics.loginOk + 1);
        return;
      }
      if recovery { order := OnRecovered(i); }
    }

    method OnLoginRefused(i: nat, now: int, recovery: bool)
      requires i < conns.Length && cfg.Valid()
      modifies this`metrics, conns
      ensures var c, m := old(conns[i]), old(metrics);
              var refused := if recovery then m.(reauthFail := m.reauthFail + 1)
                             else m.(loginFail := m.loginFail + 1, loginResponseFail := m.loginResponseFail + 1);
              At(i) == Close(cfg, Now(now), Local(c, refused), recovery) && OthersSame(i)
    {
      hide Close;
      if recovery {
        metrics := metrics.(reauthFail := metrics.reauthFail + 1);
      } else {
        metrics := metrics.(loginFail := metrics.loginFail + 1, loginResponseFail := metrics.loginResponseFail + 1);
      }
      CloseConn(i, now, recovery);
    }

    method OnRecovered(i: nat) returns (ghost order: seq<string>)
      requires i < conns.Length
      modifies this`metrics, conns
      ensures var c, m := old(conns[i]), old(metrics);
              var back := Local(c.(recoveredOnce := true, recoveryPending := false, recoveries := c.recoveries + 1),
                                m.(reauthOk := m.reauthOk + 1,
                                   recoveredClients := if c.recoveredOnce then m.recoveredClients
                                                       else m.recoveredClients + 1));
              At(i) == RetryPending(cfg, back, order) && OthersSame(i)
    {
      hide RetryPending;
      metrics := metrics.(reauthOk := metrics.reauthOk + 1);
      if !conns[i].recoveredOnce {
        conns[i] := conns[i].(recoveredOnce := true);
        metrics := metrics.(recoveredClients := metrics.recoveredClients + 1);
      }
      conns[i] := conns[i].(recoveryPending := false, recoveries := conns[i].recoveries + 1);
      order := ReplayStash(i);
    }

    method OnChatAck(i: nat, seq_: nat, ack: AckBody)
      requires i < conns.Length
      modifies this`metrics, conns
      ensures At(i) == HandleChatAck(old(At(i)), seq_, ack) && OthersSame(i)
    {
      if seq_ !in conns[i].pending {
        metrics := metrics.(protocolErrors := metrics.protocolErrors + 1);
        return;
      }
      var item := conns[i].pending[seq_];
      conns[i] := conns[i].(pending := conns[i].pending - {seq_}, resolved := conns[i].resolved + [item.clientId],
                            trace := conns[i].trace.Ended(Outcome(item.clientId, conns[i].uid, item.to, Some(ack))));
      if ack.Malformed? {
        metrics := metrics.(chatAckFail := metrics.chatAckFail + 1, protocolErrors := metrics.protocolErrors + 1);
      } else if !ack.success {
        metrics := metrics.(chatAckFail := metrics.chatAckFail + 1);
      } else if ack.clientId != item.clientId || ack.messageId == 0 || ack.from != conns[i].uid
                || ack.to != item.to || !ack.persistent {
        metrics := metrics.(chatAckFail := metrics.chatAckFail + 1, protocolErrors := metrics.protocolErrors + 1);
      } else {
        metrics := metrics.(chatAckOk := metrics.chatAckOk + 1);
      }
    }

    method NoteSeen(i: nat, group: bool, messageId: nat)
      requires i < conns.Length
      modifies this`metrics, conns
      ensures At(i) == Seen(old(At(i)), group, messageId) && OthersSame(i)
    {
      if group {
        metrics := metrics.(groupDelivery := metrics.groupDelivery + 1);
      } else if messageId in conns[i].seenDeliveries {
        metrics := metrics.(receiverDelivery := metrics.receiverDelivery + 1,
                            receiverDeliveryDuplicates := metrics.receiverDeliveryDuplicates + 1);
      } else {
        conns[i] := conns[i].(seenDeliveries := conns[i].seenDeliveries + {messageId});
        metrics := metrics.(receiverDelivery := metrics.receiverDelivery + 1,
                            receiverDeliveryUnique := metrics.receiverDeliveryUnique + 1);
      }
    }

    method OnDelivery(i: nat, group: bool, seq_: nat, parsed: bool, messageId: nat, to: nat)
      requires i < conns.Length
      modifies this`metrics, conns
      ensures At(i) == HandleDelivery(cfg, old(At(i)), group, seq_, parsed, messageId, to) && OthersSame(i)
    {
      hide Queue, Seen;
      if seq_ == 0 || !parsed || messageId == 0 || (!group && to != conns[i].uid) {
        metrics := metrics.(protocolErrors := metrics.protocolErrors + 1);
        return;
      }
      NoteSeen(i, group, messageId);
      var ok := QueuePacket(i, DeliveryAckBody(group, messageId), seq_);
      if !ok {
        metrics := metrics.(protocolErrors := metrics.protocolErrors + 1);
      } else if group {
        metrics := metrics.(groupAckSent := metrics.groupAckSent + 1);
      } else {
        metrics := metrics.(receiverAckSent := metrics.receiverAckSent + 1);
      }
    }

    method OnPacket(i: nat, now: int, p: Packet) returns (ghost p': Packet)
      requires i < conns.Length && cfg.Valid()
      modifies this`metrics, conns
      ensures At(i) == HandlePacket(cfg, Now(now), old(At(i)), p') && OthersSame(i) && SamePacket(p, p')
    {
      hide Login, HandleChatAck, HandleDelivery;
      p' := p;
      conns[i] := conns[i].(trace := conns[i].trace.Heard(p));
      match p
      case LoginResponse(success, userId, _) =>
        ghost var walk := OnLogin(i, now, success, userId);
        p' := p.(walk := walk);
      case ChatAck(seq_, ack) => OnChatAck(i, seq_, ack);
      case Delivery(group, seq_, parsed, messageId, to) => OnDelivery(i, group, seq_, parsed, messageId, to);
      case HeartbeatReply(pong) =>
        if pong {
          metrics := metrics.(heartbeatAck := metrics.heartbeatAck + 1);
        } else {
          metrics := metrics.(protocolErrors := metrics.protocolErrors + 1);
        }
      case ServerError => metrics := metrics.(serverErrors := metrics.serverErrors + 1);
      case Unknown => metrics := metrics.(protocolErrors := metrics.protocolErrors + 1);
    }

    /** Packets are handled one by one until one of them closes the connection. */
    method OnPackets(i: nat, now: int, ps: seq<Packet>) returns (ghost ps': seq<Packet>)
      requires i < conns.Length && cfg.Valid()
      modifies this`metrics, conns
      ensures At(i) == HandlePackets(cfg, Now(now), old(At(i)), ps') && OthersSame(i) && SamePackets(ps, ps')
      decreases |ps|
    {
      hide HandlePacket, SamePacket;
      if ps == [] || conns[i].fd < 0 {
        ps' := ps;
        assert SamePackets(ps, ps') by { SameAsItself(ps); }
        return;
      }
      ghost var p' := OnPacket(i, now, ps[0]);
      ghost var rest := OnPackets(i, now, ps[1..]);
      ps' := [p'] + rest;
      assert ps'[0] == p' && ps'[1..] == rest;
    }

    method OnRead(i: nat, now: int, r: ReadResult) returns (ghost r': ReadResult)
      requires i < conns.Length && cfg.Valid()
      modifies this`metrics, conns
      ensures At(i) == Read(cfg, Now(now), old(At(i)), r') && OthersSame(i) && SameRead(r, r')
    {
      hide HandlePackets, Close, SamePackets;
      match r
      case PeerGone =>
        r' := r;
        CloseConn(i, now, testStarted);
      case Received(ps, corrupt) =>
        ghost var ps' := OnPackets(i, now, ps);
        r' := Received(ps', corrupt);
        if corrupt && conns[i].fd >= 0 {
          metrics := metrics.(protocolErrors := metrics.protocolErrors + 1);
          CloseConn(i, now, testStarted);
        }
    }

    /** Write until the queue is empty, the socket blocks, or it fails. */
    method FlushConn(i: nat, now: int, sends: seq<SendResult>)
      requires i < conns.Length && cfg.Valid()
      modifies this`metrics, conns
      ensures At(i) == FlushOut(cfg, Now(now), old(At(i)), sends) && OthersSame(i)
    {
      hide Close;
      ghost var c0 := conns[i];
      var k := 0;
      while conns[i].out.frames != [] && k < |sends|
        invariant 0 <= k <= |sends|
        invariant conns[i] == c0.(out := conns[i].out) && metrics == old(metrics) && OthersSame(i)
        invariant Flush(conns[i].out, sends[k..]) == Flush(c0.out, sends)
        decreases |sends| - k
      {
        var out, result := conns[i].out, sends[k];
        assert sends[k..][1..] == sends[k + 1..];
        k := k + 1;
        match result
        case Wrote(n) =>
          var written := Min(n, Remaining(out));
          if written == 0 {
            CloseConn(i, now, testStarted);
            return;
          }
          conns[i] := conns[i].(out := Written(out, written));
        case Interrupted =>
        case WouldBlock => return;
        case Failed =>
          CloseConn(i, now, testStarted);
          return;
      }
    }

    method OnEvent(i: nat, now: int, e: Ready) returns (ghost e': Ready)
      requires i < conns.Length && cfg.Valid()
      modifies this`metrics, conns
      ensures At(i) == HandleEvent(cfg, Now(now), old(At(i)), e') && OthersSame(i)
      ensures SameReady(e, e')
    {
      hide Connected, FlushOut, Read, Close, HandleConnectFailure, SamePackets;
      e' := e;
      assert SameRead(e.read, e.read) by { if e.read.Received? { SameAsItself(e.read.packets); } }
      if conns[i].fd < 0 { return; }
      if e.writable && conns[i].state == Connecting {
        if e.connectError {
          OnConnectError(i, now);
          return;
        }
        OnceConnected(i, now, conns[i].recoveryPending && conns[i].everOnline);
      }
      if e.writable && conns[i].fd >= 0 { FlushConn(i, now, e.sends); }
      if e.readable && conns[i].fd >= 0 {
        ghost var read := OnRead(i, now, e.read);
        e' := e.(read := read);
      }
      if e.hangup && conns[i].fd >= 0 { CloseConn(i, now, testStarted); }
    }

    // ---- sending -----------------------------------------------------------------------------

    method Beat(i: nat, now: int)
      requires i < conns.Length
      modifies this`metrics, conns
      ensures At(i) == Heartbeat(cfg, Now(now), old(At(i))) && OthersSame(i)
    {
      hide Queue;
      if conns[i].state != Online || now < conns[i].nextHeartbeat { return; }
      var seq_ := NextSeq(i);
      var ok := QueuePacket(i, HeartbeatBody, seq_);
      if ok { metrics := metrics.(heartbeatSent := metrics.heartbeatSent + 1); }
      conns[i] := conns[i].(nextHeartbeat := now + cfg.heartbeat);
    }

    method Send(i: nat, now: int)
      requires i < conns.Length
      modifies this`metrics, conns
      ensures At(i) == SendOne(cfg, Now(now), old(At(i))) && OthersSame(i)
    {
      hide Queue, ClientId;
      var seq_ := NextSeq(i);
      var id := NewId(cfg, conns[i]);
      conns[i] := conns[i].(logical := conns[i].logical + 1);
      if |id| > 64 {
        metrics := metrics.(protocolErrors := metrics.protocolErrors + 1);
        return;
      }
      var to := conns[i].peer;
      ghost var l1 := At(i);
      Invariant.QueueShape(cfg, l1, ChatBody(id, to), seq_);
      var ok := QueuePacket(i, ChatBody(id, to), seq_);
      if !ok {
        conns[i] := conns[i].(resolved := conns[i].resolved + [id], refused := conns[i].refused + 1,
                              trace := conns[i].trace.Ended(Outcome(id, conns[i].uid, conns[i].peer, None)));
        metrics := metrics.(chatAckFail := metrics.chatAckFail + 1);
        return;
      }
      PutInFlight(i, seq_, Pending(id, to, now));
      metrics := metrics.(sendAttempts := metrics.sendAttempts + 1);
    }

    // ---- the main loop -----------------------------------------------------------------------

    /** The step just taken is recorded; the fields are what it makes of the state before it. */
    ghost method Record(t: Turn, before: World)
      requires cfg.Valid() && conns.Length == cfg.connections
      requires sendCursor < conns.Length && reconnectCursor < conns.Length && created <= conns.Length
      requires before == Exec(cfg, Init(cfg, start), turns)
      requires View().(clock := t.now) == Step(cfg, before, t)
      modifies this`turns, this`clock
      ensures Valid() && turns == old(turns) + [t] && View() == Step(cfg, before, t)
    {
      hide Step, Exec, Init;
      ExecOneMore(cfg, Init(cfg, start), turns, t);
      turns, clock := turns + [t], t.now;
    }

    /** Since the world `before` and the turns `past` the turns `ts` have been taken. */
    ghost predicate Took(before: World, past: seq<Turn>, ts: seq<Turn>)
      reads this, conns
    {
      Valid() && turns == past + ts && View() == Exec(cfg, before, ts)
    }

    lemma TookNothing()
      requires Valid()
      ensures Took(View(), turns, [])
    {
      hide Step;
      assert turns + [] == turns;
      assert Exec(cfg, View(), []) == View();
    }

    lemma TookOneMore(before: World, past: seq<Turn>, ts: seq<Turn>, t: Turn, here: World)
      requires Valid() && here == Exec(cfg, before, ts)
      requires turns == past + ts + [t] && View() == Step(cfg, here, t)
      ensures Took(before, past, ts + [t])
    {
      hide Step, Exec, Init;
      ExecOneMore(cfg, before, ts, t);
    }

    method OpenOne(now: int, r: OpenResult)
      requires Valid() && Enabled(cfg, View(), OpenNext(now, r))
      modifies this, conns
      ensures Valid() && turns == old(turns) + [OpenNext(now, r)]
      ensures View() == Step(cfg, old(View()), OpenNext(now, r))
      ensures clock == now && !shut && !finished && !testStarted
    {
      hide OpenSocket, Exec, Init, Step;
      ghost var before := View();
      StepOpens(cfg, before, now, r);
      Open(created, now, false, r);
      assert View() == Put(before, created, At(created)) by {
        assert conns[..] == before.conns[created := conns[created]];
      }
      CountOpened();
      Record(OpenNext(now, r), before);
    }

    method CountOpened()
      modifies this`created, this`nextConnect
      ensures View() == old(View()).(created := old(created) + 1, nextConnect := old(nextConnect) + cfg.connectInterval)
    {
      created := created + 1;
      nextConnect := nextConnect + cfg.connectInterval;
    }

    /** Opens what is due, at most 256 per call, and no faster than the ramp allows. */
    method OpenDue(now: int, outcome: nat -> OpenResult) returns (ghost ts: seq<Turn>)
      requires Valid() && !shut && clock <= now && !finished && !testStarted
      modifies this, conns
      ensures Took(old(View()), old(turns), ts) && OpenStage(cfg, old(View()), now, outcome, ts)
      ensures !shut && clock <= now && !finished && !testStarted
    {
      hide Exec, Init, Step, AllSelect;
      ghost var before, past := View(), turns;
      var burst := 0;
      ts := [];
      TookNothing();
      SelectingStarts(cfg, before);
      while created < cfg.connections && now >= nextConnect && burst < 256
        invariant Took(before, past, ts) && !shut && clock <= now && !finished && !testStarted
        invariant 0 <= burst <= 256 && |ts| == burst && AllSelect(cfg, before, ts)
        invariant forall k :: 0 <= k < |ts| ==> ts[k] == OpenNext(now, outcome(k))
        decreases 256 - burst
      {
        ghost var t, here := OpenNext(now, outcome(burst)), View();
        AllSelectMore(cfg, before, ts, t);
        OpenOne(now, outcome(burst));
        TookOneMore(before, past, ts, t, here);
        ts := ts + [t];
        burst := burst + 1;
      }
    }

    method Evaluate(now: int)
      requires Valid() && !shut && clock <= now && !finished && !testStarted
      modifies this
      ensures Valid() && turns == old(turns) + [EvaluateSetup(now)] && clock == now && !shut
      ensures View() == Step(cfg, old(View()), EvaluateSetup(now))
    {
      hide Exec, Init, Step;
      ghost var before := View();
      StepEvaluates(cfg, before, now);
      var terminal := metrics.connectFail + metrics.loginOk + metrics.loginFail;
      if created == cfg.connections && terminal >= cfg.connections {
        if metrics.loginOk != cfg.connections { FailSetup(); } else { StartTest(now); }
      } else if now >= setupDeadline {
        FailSetup();
      }
      Record(EvaluateSetup(now), before);
    }

    method FailSetup()
      modifies this`setupFailed, this`finished
      ensures View() == old(View()).(setupFailed := true, finished := true)
    {
      setupFailed, finished := true, true;
    }

    method StartTest(now: int)
      modifies this`testStarted, this`testStart, this`testEnd, this`nextSend, this`nextReconnectGlobal
      ensures View() == old(View()).(testStarted := true, testStart := now, testEnd := now + cfg.duration,
                                     nextSend := now, nextReconnectGlobal := now)
    {
      testStarted, testStart, testEnd := true, now, now + cfg.duration;
      nextSend, nextReconnectGlobal := now, now;
    }

    method SelectReconnect(now: int) returns (selected: Option<nat>)
      requires cfg.Valid() && reconnectCursor < conns.Length
      ensures selected == Choose(Reconnectable(cfg, now, conns[..]), reconnectCursor)
      ensures selected.Some? ==> selected.value < conns.Length
    {
      ghost var ok := Reconnectable(cfg, now, conns[..]);
      hide CanReconnect;
      var attempt := 0;
      while attempt < conns.Length
        invariant 0 <= attempt <= conns.Length
        invariant PickFrom(ok, reconnectCursor, attempt) == Pick(ok, reconnectCursor)
      {
        var i := Wrap(reconnectCursor + attempt, conns.Length);
        if CanReconnect(cfg, now, conns[i]) { return Some(i); }
        attempt := attempt + 1;
      }
      return None;
    }

    method SelectSend() returns (selected: Option<nat>)
      requires sendCursor < conns.Length
      ensures selected == Choose(Sendable(cfg, conns[..]), sendCursor)
      ensures selected.Some? ==> selected.value < conns.Length
    {
      ghost var ok := Sendable(cfg, conns[..]);
      hide CanSend;
      var attempt := 0;
      while attempt < conns.Length
        invariant 0 <= attempt <= conns.Length
        invariant PickFrom(ok, sendCursor, attempt) == Pick(ok, sendCursor)
      {
        var i := Wrap(sendCursor + attempt, conns.Length);
        if CanSend(cfg, conns[i]) { return Some(i); }
        attempt := attempt + 1;
      }
      return None;
    }

    /** The test is on. */
    ghost predicate Running()
      reads this
    {
      testStarted && !finished && !shut
    }

    method ReconnectOne(now: int, r: OpenResult) returns (found: bool)
      requires Valid() && Enabled(cfg, View(), ReconnectNext(now, r))
      modifies this, conns
      ensures Valid() && turns == old(turns) + [ReconnectNext(now, r)]
      ensures View() == Step(cfg, old(View()), ReconnectNext(now, r))
      ensures found <==> Selects(cfg, old(View()), ReconnectNext(now, r))
      ensures clock == now && Running() && !draining
    {
      hide OpenSocket, Exec, Init, Choose, Step;
      ghost var before := View();
      StepReconnects(cfg, before, now, r);
      var selected := SelectReconnect(now);
      found := selected.Some?;
      if found {
        var i := selected.value;
        Open(i, now, true, r);
        assert View() == Put(before, i, At(i)) by { assert conns[..] == before.conns[i := conns[i]]; }
        ChargeReconnect(i);
      }
      Record(ReconnectNext(now, r), before);
    }

    method ChargeReconnect(i: nat)
      requires i < conns.Length
      modifies this`reconnectCursor, this`nextReconnectGlobal
      ensures View() == old(View()).(reconnectCursor := Advance(i, conns.Length),
                                     nextReconnectGlobal := old(nextReconnectGlobal) + cfg.reconnectInterval)
      ensures reconnectCursor < conns.Length
    {
      reconnectCursor := Advance(i, conns.Length);
      nextReconnectGlobal := nextReconnectGlobal + cfg.reconnectInterval;
    }

    /**
     * Dials as long as a token and a client are due, at most 256 times per call; then the token timer
     * is at most a second behind the clock.
     */
    method ReconnectDue(now: int, outcome: nat -> OpenResult) returns (ghost ts: seq<Turn>)
      requires Valid() && Running() && clock <= now
      modifies this, conns
      ensures Took(old(View()), old(turns), ts) && DialStage(cfg, old(View()), now, outcome, ts)
      ensures Running() && clock <= now && draining == old(draining)
      ensures cfg.reconnect && !draining ==> nextReconnectGlobal >= now - SECOND
    {
      hide Exec, Init, Step, SelectionStage, DialStage;
      ghost var before, past := View(), turns;
      TookNothing();
      if !cfg.reconnect || draining {
        NoDialStage(cfg, before, now, outcome);
        return [];
      }
      ts := DialWhileDue(now, outcome);
      ghost var here := View();
      DialStageDone(cfg, before, now, outcome, ts);
      RefillTokens(now);
      TookOneMore(before, past, ts, ReconnectPass(now), here);
      ts := ts + [ReconnectPass(now)];
    }

    method DialWhileDue(now: int, outcome: nat -> OpenResult) returns (ghost ts: seq<Turn>)
      requires Valid() && Running() && clock <= now && cfg.reconnect && !draining
      modifies this, conns
      ensures Took(old(View()), old(turns), ts) && Running() && clock <= now && !draining
      ensures forall k :: 0 <= k < |ts| ==> ts[k] == ReconnectNext(now, outcome(k))
      ensures SelectionStage(cfg, old(View()), ts, 256, now < View().nextReconnectGlobal)
    {
      hide Exec, Init, Step, Selecting, SelectionStage, Selects;
      ghost var before, past := View(), turns;
      var burst, more := 0, true;
      ts := [];
      TookNothing();
      SelectingStarts(cfg, before);
      while more && now >= nextReconnectGlobal && burst < 256
        invariant Took(before, past, ts) && Running() && clock <= now && !draining
        invariant 0 <= burst <= 256 && |ts| == (if more then burst else burst + 1) <= 256
        invariant Selecting(cfg, before, ts, more)
        invariant forall k :: 0 <= k < |ts| ==> ts[k] == ReconnectNext(now, outcome(k))
        decreases 256 - burst, more
      {
        ghost var t, here := ReconnectNext(now, outcome(burst)), View();
        more := ReconnectOne(now, outcome(burst));
        SelectingMore(cfg, before, ts, t, more);
        TookOneMore(before, past, ts, t, here);
        ts := ts + [t];
        if more { burst := burst + 1; }
      }
      SelectingEnds(cfg, before, ts, 256, now < nextReconnectGlobal, more);
    }

    method RefillTokens(now: int)
      requires Valid() && Enabled(cfg, View(), ReconnectPass(now))
      modifies this
      ensures Valid() && turns == old(turns) + [ReconnectPass(now)]
      ensures View() == Step(cfg, old(View()), ReconnectPass(now))
      ensures clock == now && Running() && !draining && nextReconnectGlobal >= now - SECOND
    {
      hide Exec, Init;
      ghost var before := View();
      if nextReconnectGlobal < now - SECOND {
        nextReconnectGlobal := now;
      }
      Record(ReconnectPass(now), before);
    }

    /** Looks at every connection once, in order. */
    method BeatAll(now: int) returns (ghost ts: seq<Turn>)
      requires Valid() && Running() && clock <= now
      modifies this, conns
      ensures Took(old(View()), old(turns), ts) && ts == BeatTurns(now, conns.Length)
      ensures Running() && clock <= now && draining == old(draining)
      ensures forall i :: 0 <= i < conns.Length ==> LookedAt(cfg, now, old(conns[i]), conns[i])
    {
      hide Exec, Init, Heartbeat, Step;
      ghost var before, past := View(), turns;
      var i := 0;
      ts := [];
      TookNothing();
      while i < conns.Length
        invariant 0 <= i <= conns.Length && Took(before, past, ts) && ts == BeatTurns(now, i)
        invariant Running() && clock <= now && draining == old(draining)
      {
        ghost var t, here := HeartbeatTo(now, i), View();
        BeatOne(i, now);
        TookOneMore(before, past, ts, t, here);
        ts := ts + [t];
        i := i + 1;
      }
      HeartbeatsGoOut(cfg, before, now, |before.conns|);
    }

    method BeatOne(i: nat, now: int)
      requires Valid() && i < conns.Length && Running() && clock <= now
      modifies this, conns
      ensures Valid() && turns == old(turns) + [HeartbeatTo(now, i)]
      ensures View() == Step(cfg, old(View()), HeartbeatTo(now, i))
      ensures clock == now && Running() && draining == old(draining)
    {
      hide Exec, Init, Heartbeat, Step;
      ghost var before := View();
      StepBeats(cfg, before, now, i);
      Beat(i, now);
      assert View() == Put(before, i, At(i)) by { assert conns[..] == before.conns[i := conns[i]]; }
      Record(HeartbeatTo(now, i), before);
    }

    method SendNextDue(now: int) returns (found: bool)
      requires Valid() && Enabled(cfg, View(), SendNext(now))
      modifies this, conns
      ensures Valid() && turns == old(turns) + [SendNext(now)] && View() == Step(cfg, old(View()), SendNext(now))
      ensures found <==> Selects(cfg, old(View()), SendNext(now))
      ensures clock == now && Running() && !draining
    {
      hide Exec, Init, Choose, Step;
      var selected := SelectSend();
      found := selected.Some?;
      if found { SendTo(selected.value, now); } else { SkipSend(now); }
    }

    method SendTo(i: nat, now: int)
      requires Valid() && Enabled(cfg, View(), SendNext(now))
      requires Choose(Sendable(cfg, conns[..]), sendCursor) == Some(i) && i < conns.Length
      modifies this, conns
      ensures Valid() && turns == old(turns) + [SendNext(now)] && View() == Step(cfg, old(View()), SendNext(now))
      ensures clock == now && Running() && !draining
    {
      hide SendOne, Exec, Init, Choose, Step, SendTurn, Sendable;
      ghost var before := View();
      StepSends(cfg, before, now);
      Send(i, now);
      assert View() == Put(before, i, At(i)) by { assert conns[..] == before.conns[i := conns[i]]; }
      ChargeSend(i);
      Record(SendNext(now), before);
    }

    method ChargeSend(i: nat)
      requires i < conns.Length
      modifies this`sendCursor, this`nextSend, this`selections
      ensures View() == old(View()).(sendCursor := Advance(i, conns.Length), nextSend := old(nextSend) + cfg.sendInterval,
                                     selections := old(selections) + 1)
      ensures sendCursor < conns.Length
    {
      sendCursor := Advance(i, conns.Length);
      nextSend := nextSend + cfg.sendInterval;
      selections := selections + 1;
    }

    method SkipSend(now: int)
      requires Valid() && Enabled(cfg, View(), SendNext(now))
      requires Choose(Sendable(cfg, conns[..]), sendCursor) == None
      modifies this
      ensures Valid() && turns == old(turns) + [SendNext(now)] && View() == Step(cfg, old(View()), SendNext(now))
      ensures clock == now && Running() && !draining
    {
      hide Exec, Init, Choose, Step, SendTurn, Sendable;
      ghost var before := View();
      StepSends(cfg, before, now);
      metrics := metrics.(backpressureSkips := metrics.backpressureSkips + 1);
      nextSend := now + cfg.sendInterval;
      Record(SendNext(now), before);
    }

    /** Sends as long as one is due, at most 4096 times per call, and stops when nobody can send. */
    method SendDue(now: int) returns (ghost ts: seq<Turn>)
      requires Valid() && Running() && !draining && clock <= now
      modifies this, conns
      ensures Took(old(View()), old(turns), ts) && SendStage(cfg, old(View()), now, ts)
      ensures Running() && !draining && clock <= now
    {
      hide Exec, Init, Step, Selecting, SelectionStage, Selects;
      ghost var before, past := View(), turns;
      ts := [];
      TookNothing();
      if !cfg.privateMode { return; }
      SelectingStarts(cfg, before);
      var burst, more := 0, true;
      while more && now >= nextSend && burst < 4096
        invariant Took(before, past, ts) && Running() && !draining && clock <= now
        invariant 0 <= burst <= 4096 && |ts| == burst && Selecting(cfg, before, ts, more)
        invariant forall k :: 0 <= k < |ts| ==> ts[k] == SendNext(now)
        decreases 4096 - burst
      {
        ghost var t, here := SendNext(now), View();
        more := SendNextDue(now);
        SelectingMore(cfg, before, ts, t, more);
        TookOneMore(before, past, ts, t, here);
        ts := ts + [t];
        burst := burst + 1;
      }
      SelectingEnds(cfg, before, ts, 4096, now < nextSend, more);
    }

    method CheckDrain(now: int)
      requires Valid() && Running() && clock <= now
      modifies this
      ensures Valid() && turns == old(turns) + [DrainCheck(now)] && clock == now && testStarted && !shut
      ensures View() == Step(cfg, old(View()), DrainCheck(now))
    {
      hide Exec, Init, Step;
      ghost var before := View();
      StepDrains(cfg, before, now);
      if !draining {
        if now >= testEnd {
          draining, drainEnd := true, now + cfg.drain;
        }
      } else if now >= drainEnd {
        finished := true;
      }
      Record(DrainCheck(now), before);
    }

    method Notify(now: int, a: Arrival) returns (ghost t: Turn)
      requires Valid() && !shut && clock <= now && Genuine(a)
      modifies this, conns
      ensures Valid() && turns == old(turns) + [t] && View() == Step(cfg, old(View()), t)
      ensures Handles(cfg, old(View()), now, a, t)
      ensures !shut && clock == now && finished == old(finished)
    {
      hide Exec, Init, Step, SameReady;
      if a.i >= conns.Length {
        t := Stray(now);
        CountStray(now);
      } else {
        var e := a.ready(conns[a.i]);
        assert Invariant.Plausible(conns[a.i], e);
        ghost var e' := Hear(a.i, now, e);
        t := Event(now, a.i, e');
      }
    }

    method CountStray(now: int)
      requires Valid() && !shut && clock <= now
      modifies this
      ensures Valid() && turns == old(turns) + [Stray(now)] && View() == Step(cfg, old(View()), Stray(now))
      ensures !shut && clock == now && finished == old(finished)
    {
      hide Exec, Init, Step;
      ghost var before := View();
      StepStrays(cfg, before, now);
      metrics := metrics.(protocolErrors := metrics.protocolErrors + 1);
      Record(Stray(now), before);
    }

    method Hear(i: nat, now: int, e: Ready) returns (ghost e': Ready)
      requires Valid() && !shut && clock <= now && i < conns.Length && Invariant.Plausible(conns[i], e)
      modifies this, conns
      ensures Valid() && turns == old(turns) + [Event(now, i, e')]
      ensures View() == Step(cfg, old(View()), Event(now, i, e')) && SameReady(e, e')
      ensures Enabled(cfg, old(View()), Event(now, i, e'))
      ensures !shut && clock == now && finished == old(finished)
    {
      hide Exec, Init, HandleEvent, Step, SameReady;
      ghost var before := View();
      e' := OnEvent(i, now, e);
      SamePlausible(before.conns[i], e, e');
      assert View() == Put(before, i, At(i)) by { assert conns[..] == before.conns[i := conns[i]]; }
      StepNotifies(cfg, before, now, i, e');
      Record(Event(now, i, e'), before);
    }

    /** Every arrival is handled, in order. */
    method NotifyAll(now: int, arrivals: seq<Arrival>) returns (ghost ts: seq<Turn>)
      requires Valid() && !shut && clock <= now && forall k :: 0 <= k < |arrivals| ==> Genuine(arrivals[k])
      modifies this, conns
      ensures Took(old(View()), old(turns), ts) && EventStage(cfg, old(View()), now, arrivals, ts)
      ensures !shut && clock <= now && finished == old(finished)
    {
      hide Exec, Init, Step, Genuine, Handles, EventStage;
      ghost var before, past := View(), turns;
      ts := [];
      TookNothing();
      NothingHandled(cfg, before, now, arrivals);
      for k := 0 to |arrivals|
        invariant Took(before, past, ts) && !shut && clock <= now && finished == old(finished)
        invariant EventStage(cfg, before, now, arrivals[..k], ts)
      {
        ghost var here := View();
        ghost var t := Notify(now, arrivals[k]);
        EventStageMore(cfg, before, now, arrivals, ts, k, t);
        TookOneMore(before, past, ts, t, here);
        ts := ts + [t];
      }
      assert arrivals[..|arrivals|] == arrivals;
    }

    method CloseAll(now: int)
      requires Valid() && !shut && finished && clock <= now
      modifies this, conns
      ensures Valid() && turns == old(turns) + [Shutdown(now)] && shut
      ensures finished && setupFailed == old(setupFailed)
    {
      hide Exec, Init, CloseFrom, Step;
      ghost var before := View();
      StepShuts(cfg, before, now);
      CloseEach(now);
      CloseFromFrame(cfg, CtxOf(before, now), before, 0);
      shut := true;
      Record(Shutdown(now), before);
    }

    method CloseEach(now: int)
      requires cfg.Valid()
      modifies this`metrics, conns
      ensures View() == CloseFrom(cfg, Now(now), old(View()), 0)
    {
      hide Close;
      var i := 0;
      while i < conns.Length
        invariant 0 <= i <= conns.Length
        invariant CloseFrom(cfg, Now(now), View(), i) == CloseFrom(cfg, Now(now), old(View()), 0)
      {
        ghost var here := View();
        CloseConn(i, now, false);
        assert View() == Put(here, i, At(i)) by { assert conns[..] == here.conns[i := conns[i]]; }
        i := i + 1;
      }
    }

    /** One iteration: exactly the turns the main loop takes in it. */
    method PlayRound(r: Round) returns (ghost ts: seq<Turn>)
      requires Valid() && !shut && !finished && clock <= r.now <= r.later
      requires forall k :: 0 <= k < |r.arrivals| ==> Genuine(r.arrivals[k])
      modifies this, conns
      ensures Took(old(View()), old(turns), ts) && RoundTurns(cfg, old(View()), r, ts)
      ensures !shut && clock <= r.later
    {
      hide Exec, Init, Step, SetupRound, TestRound;
      if !testStarted { ts := PlaySetup(r); } else { ts := PlayTest(r); }
    }

    method PlaySetup(r: Round) returns (ghost ts: seq<Turn>)
      requires Valid() && !shut && !finished && !testStarted && clock <= r.now <= r.later
      requires forall k :: 0 <= k < |r.arrivals| ==> Genuine(r.arrivals[k])
      modifies this, conns
      ensures Took(old(View()), old(turns), ts) && RoundTurns(cfg, old(View()), r, ts)
      ensures !shut && clock <= r.later
    {
      hide Exec, Init, Step, OpenStage, EventStage, Genuine;
      ghost var w, past := View(), turns;
      ghost var opens := OpenDue(r.now, r.outcome);
      ghost var w1 := View();
      Evaluate(r.now);
      ghost var w2 := View();
      ghost var events := NotifyAll(r.later, r.arrivals);
      assert SetupRound(cfg, w, r, opens, events);
      hide SetupRound;
      ts := opens + [EvaluateSetup(r.now)] + events;
      ExecTurnJoins(cfg, w, opens, EvaluateSetup(r.now), events);
    }

    method PlayTest(r: Round) returns (ghost ts: seq<Turn>)
      requires Valid() && Running() && clock <= r.now <= r.later
      requires forall k :: 0 <= k < |r.arrivals| ==> Genuine(r.arrivals[k])
      modifies this, conns
      ensures Took(old(View()), old(turns), ts) && RoundTurns(cfg, old(View()), r, ts)
      ensures !shut && clock <= r.later
    {
      hide Exec, Init, Step, DialStage, SendStage, EventStage, Genuine, BeatTurns, RoundTurns;
      ghost var w, past := View(), turns;
      ghost var dials := DialAndBeat(r);
      ghost var w2, past2 := View(), turns;
      ghost var sends := SendUnlessDraining(r.now);
      ghost var w3 := View();
      CheckDrain(r.now);
      ghost var w4 := View();
      ghost var events := HearUnlessFinished(r);
      TestRoundDone(cfg, w, r, w2, w3, w4, dials, sends, events);
      ts := dials + BeatTurns(r.now, |w.conns|) + sends + [DrainCheck(r.now)] + events;
    }

    method DialAndBeat(r: Round) returns (ghost dials: seq<Turn>)
      requires Valid() && Running() && clock <= r.now
      modifies this, conns
      ensures Took(old(View()), old(turns), dials + BeatTurns(r.now, |old(View()).conns|))
      ensures DialStage(cfg, old(View()), r.now, r.outcome, dials)
      ensures Running() && clock <= r.now && draining == old(draining)
    {
      hide Exec, Init, DialStage, BeatTurns;
      ghost var w := View();
      dials := ReconnectDue(r.now, r.outcome);
      ghost var beats := BeatAll(r.now);
      ExecJoins(cfg, w, dials, beats);
    }

    method SendUnlessDraining(now: int) returns (ghost sends: seq<Turn>)
      requires Valid() && Running() && clock <= now
      modifies this, conns
      ensures Took(old(View()), old(turns), sends) && SendStage(cfg, old(View()), now, sends)
      ensures Running() && clock <= now
    {
      hide Exec, Init, SelectionStage;
      sends := [];
      TookNothing();
      if !draining { sends := SendDue(now); }
    }

    method HearUnlessFinished(r: Round) returns (ghost events: seq<Turn>)
      requires Valid() && !shut && clock <= r.later
      requires forall k :: 0 <= k < |r.arrivals| ==> Genuine(r.arrivals[k])
      modifies this, conns
      ensures Took(old(View()), old(turns), events)
      ensures if old(finished) then events == [] else EventStage(cfg, old(View()), r.later, r.arrivals, events)
      ensures !shut && clock <= r.later
    {
      hide Exec, Init, EventStage, Genuine;
      events := [];
      TookNothing();
      if !finished { events := NotifyAll(r.later, r.arrivals); }
    }

    /**
     * The main loop, round by round until it finishes or waiting for events fails. What it does is
     * exactly the turns of the rounds played, so the fields are a reachable state, and a finished run
     * is shut down. Rounds that reach past the setup deadline, then past the test, then past the
     * drain bring it to its end. The result is 2 after a failed setup, 65 if waiting fails, else 0.
     */
    method Run(rounds: seq<Round>, end: int) returns (code: int, ghost played: nat, ghost ts: seq<Turn>)
      requires Valid() && turns == [] && !shut && !finished && clock == start
      requires Timely(rounds, start) && AllGenuine(rounds)
      requires (rounds == [] || rounds[|rounds| - 1].later <= end) && start <= end
      modifies this, conns
      ensures Valid() && Reachable(cfg, View())
      ensures played <= |rounds| && Played(cfg, Init(cfg, start), rounds[..played], ts)
      ensures if finished then turns == ts + [Shutdown(end)] && shut else turns == ts && played == |rounds|
      ensures code == if !finished then 65 else if setupFailed then 2 else 0
      ensures LongEnough(cfg, start, rounds) ==> finished
    {
      played, ts := PlayAll(rounds, end);
      hide Exec, Init, Reachable, Played, LongEnough, Timely;
      if finished {
        CloseAll(end);
        code := if setupFailed then 2 else 0;
      } else {
        code := 65;
        assert rounds[..played] == rounds;
        if LongEnough(cfg, start, rounds) { LongRunsFinish(cfg, start, rounds, ts); }
      }
      ValidIsReachable();
    }

    method PlayAll(rounds: seq<Round>, end: int) returns (played: nat, ghost ts: seq<Turn>)
      requires Valid() && turns == [] && !shut && !finished && clock == start
      requires Timely(rounds, start) && AllGenuine(rounds)
      requires (rounds == [] || rounds[|rounds| - 1].later <= end) && start <= end
      modifies this, conns
      ensures Valid() && turns == ts && !shut && clock <= end
      ensures played <= |rounds| && (finished || played == |rounds|)
      ensures Played(cfg, Init(cfg, start), rounds[..played], ts)
    {
      hide Exec, Init, RoundTurns, Genuine;
      played, ts := 0, [];
      ghost var since: int := start;
      while played < |rounds| && !finished
        invariant 0 <= played <= |rounds| && Valid() && turns == ts && !shut && clock <= since <= end
        invariant Played(cfg, Init(cfg, start), rounds[..played], ts)
        invariant Timely(rounds[played..], since)
        decreases |rounds| - played
      {
        hide Played;
        var r := rounds[played];
        assert rounds[played..][1..] == rounds[played + 1..] && rounds[played..][0] == r;
        TimelyEnds(rounds[played..], since);
        ghost var more := PlayRound(r);
        PlayedMore(cfg, Init(cfg, start), rounds[..played], ts, r, more);
        assert rounds[..played] + [r] == rounds[..played + 1];
        ts := ts + more;
        since := r.later;
        played := played + 1;
      }
    }

    lemma ValidIsReachable()
      requires Valid()
      ensures Reachable(cfg, View())
    {
      hide Exec, Init;
    }
  }
}
