/** Where the promises of the load generator stop, and exactly when. */
module LoadGenLimits {
  import opened LoadGenModel
  import opened LoadGenInvariant
  import opened LoadGenRuns

  // ---- the setup gate counts logins ----------------------------------------------------------

  /**
   * The setup gate counts logins, not live connections: when it opens, a connection is online if and
   * only if its socket is still open, and one whose socket is gone will not be dialled again.
   */
  lemma GateOpensOnline(cfg: Config, w: World, now: int, i: nat)
    requires cfg.Valid() && Reachable(cfg, w) && i < |w.conns|
    requires Enabled(cfg, w, EvaluateSetup(now)) && Step(cfg, w, EvaluateSetup(now)).testStarted
    ensures var c := Step(cfg, w, EvaluateSetup(now)).conns[i];
            && (c.state == Online <==> c.fd >= 0)
            && (c.fd < 0 ==> c.state == Closed && !c.recoveryPending && !c.countedDisconnect)
  {
    GateStep(cfg, w, now);
    hide Reachable, Step, Total, Booked, Store, Enabled;
    ReachableInv(cfg, w);
    LoginsCount(w.conns);
    LoginsBooked(w.m);
    assert ConnInv(cfg, i, w.conns[i]) && Tracked(cfg, CtxOf(w, 0), w.conns[i]);
  }

  lemma GateStep(cfg: Config, w: World, now: int)
    requires cfg.Valid() && Enabled(cfg, w, EvaluateSetup(now))
    ensures var w' := Step(cfg, w, EvaluateSetup(now));
            && w'.conns == w.conns && !w.testStarted && !w.shut
            && (w'.testStarted ==> w.m.loginOk == cfg.connections)
  {
  }

  // ---- sequence numbers that come round ------------------------------------------------------

  /** The counter after `k` draws from its initial value. */
  function SeqAt(k: nat): nat {
    if k == 0 then 1 else SeqAfter(SeqAt(k - 1))
  }

  /** The counter never yields zero and repeats a value after exactly as many draws as there are values. */
  lemma {:induction false} DrawsCycle(k: nat)
    ensures DrawnSeq(SeqAt(k)) == 1 + k % SEQUENCES
  {
    if k > 0 {
      DrawsCycle(k - 1);
      NextInCycle(k - 1);
    }
  }

  lemma NextInCycle(k: nat)
    ensures (k + 1) % SEQUENCES == if k % SEQUENCES == SEQUENCES - 1 then 0 else k % SEQUENCES + 1
  {
  }

  /** The number drawn by draw `d`, counted from zero. */
  function NumberAt(d: nat): nat {
    DrawnSeq(SeqAt(d))
  }

  /** Every number in flight was drawn by one of the draws from `k` up to `n`. */
  ghost predicate Recent(pending: map<nat, Pending>, k: nat, n: nat) {
    forall s :: s in pending ==> exists d: nat :: k <= d < n && s == NumberAt(d)
  }

  lemma RecentIsFree(pending: map<nat, Pending>, k: nat, n: nat)
    requires Recent(pending, k, n) && k <= n < k + SEQUENCES
    ensures NumberAt(n) !in pending
  {
    forall d: nat | k <= d < n
      ensures NumberAt(d) != NumberAt(n)
    {
      DrawsCycle(n);
      DrawsCycle(d);
      SameRemainder(d, n - d);
    }
  }

  lemma SameRemainder(a: nat, gap: nat)
    requires 0 < gap < SEQUENCES
    ensures a % SEQUENCES != (a + gap) % SEQUENCES
  {
    var q, r := a / SEQUENCES, a % SEQUENCES;
    if r + gap < SEQUENCES {
      assert (a + gap) == q * SEQUENCES + (r + gap);
    } else {
      assert (a + gap) == (q + 1) * SEQUENCES + (r + gap - SEQUENCES);
    }
  }

  lemma RecentGrows(pending: map<nat, Pending>, k: nat, n: nat, item: Pending)
    requires Recent(pending, k, n) && k <= n
    ensures Recent(pending[NumberAt(n) := item], k, n + 1) && Recent(pending, k, n + 1)
  {
    hide NumberAt;
  }

  /** The counter stands where it stands before draw `n`. */
  predicate Stands(seq_: nat, n: nat) {
    DrawnSeq(seq_) == NumberAt(n) && SeqAfter(seq_) == SeqAt(n + 1)
  }

  lemma StandsNext(n: nat)
    ensures Stands(SeqAt(n), n)
  {
  }

  lemma ReplayOneFlight(cfg: Config, l: Local, item: Pending)
    ensures var c' := ReplayOne(cfg, l, item).c;
            && c'.seq_ == SeqAfter(l.c.seq_)
            && (DroppedIffTaken(l.c, c', item) || (c'.lost == l.c.lost && c'.pending == l.c.pending))
  {
    hide SeqAfter;
  }

  lemma ReplayOneLands(cfg: Config, l: Local, item: Pending, k: nat, n: nat)
    requires Recent(l.c.pending, k, n) && k <= n < k + SEQUENCES && Stands(l.c.seq_, n)
    ensures var c' := ReplayOne(cfg, l, item).c;
            c'.lost == l.c.lost && Recent(c'.pending, k, n + 1) && Stands(c'.seq_, n + 1)
  {
    hide Recent, SeqAt, NumberAt, ReplayOne;
    RecentIsFree(l.c.pending, k, n);
    RecentGrows(l.c.pending, k, n, item);
    ReplayOneFlight(cfg, l, item);
    StandsNext(n + 1);
  }

  lemma {:induction false} ReplayLands(cfg: Config, l: Local, items: seq<Pending>, k: nat, n: nat)
    requires Recent(l.c.pending, k, n) && k <= n && n + |items| <= k + SEQUENCES && Stands(l.c.seq_, n)
    ensures Replay(cfg, l, items).c.lost == l.c.lost
    decreases |items|
  {
    hide ReplayOne, Recent, Stands;
    if items != [] {
      ReplayOneLands(cfg, l, items[0], k, n);
      ReplayLands(cfg, ReplayOne(cfg, l, items[0]), items[1..], k, n + 1);
    }
  }

  lemma ReplayOneQueued(cfg: Config, l: Local, item: Pending)
    requires CanQueue(cfg, l.c, ChatBody(item.clientId, item.to))
    ensures var c' := ReplayOne(cfg, l, item).c;
            && DroppedIffTaken(l.c, c', item) && c'.fd == l.c.fd && c'.state == l.c.state
            && c'.retryPending == l.c.retryPending
  {
    hide SeqAfter;
  }

  /** What is in flight is what was before and the items, all of them. */
  ghost predicate Restored(before: map<nat, Pending>, items: seq<Pending>, after: map<nat, Pending>) {
    && (forall s :: s in before ==> s in after && after[s] == before[s])
    && (forall k :: 0 <= k < |items| ==> exists s :: s in after && after[s] == items[k])
    && (forall s :: s in after ==> (s in before && after[s] == before[s]) || after[s] in items)
  }

  lemma RestoredMore(before: map<nat, Pending>, items: seq<Pending>, seq_: nat, after: map<nat, Pending>)
    requires items != [] && seq_ !in before && Restored(before[seq_ := items[0]], items[1..], after)
    ensures Restored(before, items, after)
  {
    var mid := before[seq_ := items[0]];
    forall s | s in before
      ensures s in after && after[s] == before[s]
    {
      assert s in mid && mid[s] == before[s];
    }
    forall k | 0 <= k < |items|
      ensures exists s :: s in after && after[s] == items[k]
    {
      if k == 0 {
        assert seq_ in mid && mid[seq_] == items[0];
        assert seq_ in after && after[seq_] == items[0];
      } else {
        assert items[1..][k - 1] == items[k];
      }
    }
  }

  /** A stash that can be queued is back in flight, whole, after its replay. */
  lemma {:induction false} ReplayRestores(cfg: Config, l: Local, items: seq<Pending>, k: nat, n: nat)
    requires Recent(l.c.pending, k, n) && k <= n && n + |items| <= k + SEQUENCES && Stands(l.c.seq_, n)
    requires forall j :: 0 <= j < |items| ==> CanQueue(cfg, l.c, ChatBody(items[j].clientId, items[j].to))
    ensures var c' := Replay(cfg, l, items).c;
            && Restored(l.c.pending, items, c'.pending) && c'.state == l.c.state && c'.retryPending == l.c.retryPending
    decreases |items|
  {
    hide ReplayOne, Recent, Restored;
    if items == [] {
      NothingRestored(l.c.pending);
    } else {
      var l1 := ReplayOne(cfg, l, items[0]);
      ReplayOneQueued(cfg, l, items[0]);
      ReplayOneLands(cfg, l, items[0], k, n);
      RecentIsFree(l.c.pending, k, n);
      hide Stands;
      ReplayRestores(cfg, l1, items[1..], k, n + 1);
      RestoredMore(l.c.pending, items, DrawnSeq(l.c.seq_), Replay(cfg, l1, items[1..]).c.pending);
    }
  }

  lemma NothingRestored(before: map<nat, Pending>)
    ensures Restored(before, [], before)
  {
  }

  /**
   * A recovery never drops anything, however often the numbers have come round: the flight is empty
   * when the stash is replayed, and the stash is smaller than the cycle.
   */
  lemma RecoveryDropsNothing(cfg: Config, w: World, i: nat, now: int, order: seq<string>)
    requires cfg.Valid() && Reachable(cfg, w) && i < |w.conns|
    requires AwaitsLogin(w.conns[i]) && w.conns[i].recoveryPending
    ensures var p := LoginResponse(true, w.conns[i].uid, order);
            HandlePacket(cfg, CtxOf(w, now), LocalOf(w, i), p).c.lost == w.conns[i].lost
  {
    var x, p := CtxOf(w, now), LoginResponse(true, w.conns[i].uid, order);
    var l := Hear(LocalOf(w, i), p);
    RecoveringConn(cfg, w, i);
    hide Reachable, Login, Replay, Items, WalkOrder, Recent, Stands, HandlePacket;
    PacketIs(cfg, x, LocalOf(w, i), p);
    var walk := WalkOrder(l.c.retryPending.Keys, order);
    var resumed := Resumed(l, x.now + cfg.heartbeat);
    RecoveryLoginUnfolds(cfg, x, l, order);
    ListingLength(walk, l.c.retryPending.Keys);
    assert |l.c.retryPending.Keys| == |l.c.retryPending|;
    var k := OnTheCycle(l.c.seq_);
    NothingRecent(resumed.c.pending, k);
    ReplayLands(cfg, resumed, Items(l.c.retryPending, walk), k, k);
  }

  /** Any value of the counter is one it takes before some draw. */
  lemma OnTheCycle(seq_: nat) returns (k: nat)
    requires seq_ < U32
    ensures Stands(seq_, k)
  {
    k := DrawnSeq(seq_) - 1;
    DrawsCycle(k);
  }

  lemma NothingRecent(pending: map<nat, Pending>, k: nat)
    requires pending == map[]
    ensures Recent(pending, k, k)
  {
  }

  lemma RecoveringConn(cfg: Config, w: World, i: nat)
    requires cfg.Valid() && Reachable(cfg, w) && i < |w.conns| && AwaitsLogin(w.conns[i]) && w.conns[i].recoveryPending
    ensures var c := w.conns[i]; c.everOnline && c.pending == map[] && |c.retryPending| <= 128 && c.seq_ < U32
  {
    ReachableInv(cfg, w);
    hide Reachable, Total, Booked, Ids, Repeats;
    assert ConnInv(cfg, i, w.conns[i]);
  }

  /**
   * Both places that put a message in flight drop it if and only if its sequence number is still
   * taken: a first send, which is then counted all the same, and a replay.
   */
  lemma DroppedIffSequenceTaken(cfg: Config, x: Ctx, l: Local, item: Pending)
    ensures |NewId(cfg, l.c)| <= 64 && CanQueue(cfg, l.c, ChatBody(NewId(cfg, l.c), l.c.peer)) ==>
              var l' := SendOne(cfg, x, l);
              && l'.m.sendAttempts == l.m.sendAttempts + 1
              && DroppedIffTaken(l.c, l'.c, Pending(NewId(cfg, l.c), l.c.peer, x.now))
    ensures CanQueue(cfg, l.c, ChatBody(item.clientId, item.to)) ==>
              var l' := ReplayOne(cfg, l, item);
              && l'.m.messageRetryAttempts == l.m.messageRetryAttempts + 1
              && DroppedIffTaken(l.c, l'.c, item)
  {
    hide NewId;
  }

  predicate DroppedIffTaken(c: Conn, c': Conn, item: Pending) {
    var seq_ := DrawnSeq(c.seq_);
    if seq_ in c.pending then c'.lost == c.lost + 1 && c'.pending == c.pending
    else c'.lost == c.lost && c'.pending == c.pending[seq_ := item]
  }
}
