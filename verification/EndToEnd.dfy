/**
 * Any number of logical sends, a network that loses, repeats and reorders, a server that forgets
 * everything but its message table, and a receiver that applies each message once.
 *
 * The network is a growing set of what was ever put into it: a packet is lost if nobody takes it,
 * repeated if it is taken twice, late if it is taken after others. The server is an assumption: it
 * stores a message under its sender and client id at most once and then answers with the stored id.
 */
module EndToEnd {
  import opened LogicalSend
  import opened ReceiverDedup

  /** Who sent it and under which client id: the unique key of the message table. */
  datatype Key = Key(user: nat, id: string)

  datatype Sender = Sender(user: nat, send: Send, resumes: nat)

  datatype World = World(
    senders: seq<Sender>,
    stored: map<Key, nat>,            // durable: the message table
    memory: map<Key, nat>,            // volatile: what the process remembers of it
    requests: set<Key>,
    acks: set<(Key, nat)>,
    deliveries: set<nat>,
    receiver: Dedup,
    effects: seq<nat>)                // history: the business effects at the receiver, in order

  datatype Event =
    | Attempt(i: nat, seq_: nat)
    | TimeOut(i: nat)
    | ResumeSend(i: nat)
    | Declined(i: nat)
    | Hear(i: nat, packet: LogicalSend.Packet)
    | Process(key: Key, fresh_: nat, replies: bool)
    | Crash
    | Push(messageId: nat)
    | Arrive(messageId: nat)

  function KeyOf(s: Sender): Key {
    Key(s.user, s.send.clientMessageId)
  }

  /** An operation of the client of logical send `i`. */
  function Client(w: World, max: nat, i: nat, op: Op): World
    requires i < |w.senders|
  {
    var s := w.senders[i];
    var resumed := op == Resume && s.send.state == Uncertain;
    w.(senders := w.senders[i := Sender(s.user, Do(s.send, max, op), if resumed then s.resumes + 1 else s.resumes)])
  }

  /** The id the server answers with: remembered, stored, or given to a new message. */
  function Answer(w: World, key: Key, fresh_: nat): nat {
    if key in w.memory then w.memory[key] else if key in w.stored then w.stored[key] else fresh_
  }

  predicate Enabled(w: World, e: Event) {
    match e
    case Attempt(i, _) => i < |w.senders|
    case TimeOut(i) => i < |w.senders|
    case ResumeSend(i) => i < |w.senders|
    case Declined(i) => i < |w.senders|
    case Hear(i, p) =>
      // A success acknowledgement reaches the user it was sent to, and only if it was sent.
      i < |w.senders| && (p.Ack? && p.success ==> (Key(w.senders[i].user, p.clientMessageId), p.messageId) in w.acks)
    case Process(key, fresh_, _) => key in w.requests && (key in w.stored || (fresh_ != 0 && fresh_ !in w.stored.Values))
    case Crash => true
    case Push(m) => m in w.stored.Values
    case Arrive(m) => m in w.deliveries
  }

  function Next(w: World, max: nat, e: Event): World {
    if !Enabled(w, e) then w
    else match e
      case Attempt(i, seq_) =>
        var w' := Client(w, max, i, Begin(seq_));
        if Begun(w.senders[i].send, max, seq_).1 then w'.(requests := w.requests + {KeyOf(w.senders[i])}) else w'
      case TimeOut(i) => Client(w, max, i, Fail)
      case ResumeSend(i) => Client(w, max, i, Resume)
      case Declined(i) => Client(w, max, i, Refuse)
      case Hear(i, p) => Client(w, max, i, Receive(p))
      case Process(key, fresh_, replies) =>
        var m := Answer(w, key, fresh_);
        w.(stored := w.stored[key := m], memory := w.memory[key := m],
           acks := if replies then w.acks + {(key, m)} else w.acks)
      case Crash => w.(memory := map[])
      case Push(m) => w.(deliveries := w.deliveries + {m})
      case Arrive(m) =>
        var (d, applied) := Once(w.receiver, m);
        w.(receiver := d, effects := if applied then w.effects + [m] else w.effects)
  }

  function Play(w: World, max: nat, run: seq<Event>): World {
    if run == [] then w else Next(Play(w, max, run[..|run| - 1]), max, run[|run| - 1])
  }

  /** All sends new, nothing stored, nothing under way. */
  predicate Initial(w: World) {
    && (forall i :: 0 <= i < |w.senders| ==>
          w.senders[i].send == NewSend(w.senders[i].send.clientMessageId) && w.senders[i].resumes == 0)
    && w.stored == map[] && w.memory == map[] && w.requests == {} && w.acks == {} && w.deliveries == {}
    && w.receiver == Dedup({}, 0) && w.effects == []
  }

  // ---- the invariant -------------------------------------------------------------------------

  ghost predicate ServerInv(w: World) {
    && (forall k :: k in w.stored ==> w.stored[k] != 0 && k in w.requests)
    && (forall k, l :: k in w.stored && l in w.stored && w.stored[k] == w.stored[l] ==> k == l)
    && (forall k :: k in w.memory ==> k in w.stored && w.memory[k] == w.stored[k])
    && (forall a :: a in w.acks ==> a.0 in w.stored && w.stored[a.0] == a.1)
  }

  ghost predicate SenderInv(w: World, max: nat, s: Sender) {
    && Sound(s.send, max, s.resumes)
    && (s.send.total > 0 ==> KeyOf(s) in w.requests)
    && (s.send.state == Accepted ==> KeyOf(s) in w.stored && w.stored[KeyOf(s)] == s.send.serverMessageId)
  }

  ghost predicate Requested(w: World) {
    forall k :: k in w.requests ==>
      exists i :: 0 <= i < |w.senders| && KeyOf(w.senders[i]) == k && w.senders[i].send.total > 0
  }

  ghost predicate ReceiverInv(w: World) {
    && (forall m :: m in w.deliveries ==> m in w.stored.Values)
    && (forall m :: m in w.receiver.applied <==> m in w.effects)
    && (forall m :: m in w.effects ==> m in w.stored.Values)
    && (forall j, k :: 0 <= j < k < |w.effects| ==> w.effects[j] != w.effects[k])
    && w.receiver.count == |w.effects|
  }

  ghost predicate SendersInv(w: World, max: nat) {
    forall i :: 0 <= i < |w.senders| ==> SenderInv(w, max, w.senders[i])
  }

  ghost predicate WorldInv(w: World, max: nat) {
    ServerInv(w) && SendersInv(w, max) && Requested(w) && ReceiverInv(w)
  }

  lemma InitialInv(w: World, max: nat)
    requires Initial(w)
    ensures WorldInv(w, max)
  {
  }

  /** A client operation that leaves the server alone keeps its send sound. */
  lemma ClientKeeps(w: World, max: nat, i: nat, op: Op)
    requires WorldInv(w, max) && i < |w.senders|
    requires op.Begin? ==> !Begun(w.senders[i].send, max, op.seq_).1
    requires op.Receive? ==> Enabled(w, Hear(i, op.packet))
    ensures WorldInv(Client(w, max, i, op), max)
  {
    hide Sound, ServerInv, ReceiverInv;
    var s, w' := w.senders[i], Client(w, max, i, op);
    assert SenderInv(w, max, s);
    StepSound(s.send, max, s.resumes, op);
    OperationMeans(w, max, s, op);
    hide Do;
    assert forall k :: 0 <= k < |w.senders| ==> w'.senders[k] == if k == i then w'.senders[i] else w.senders[k];
    RequestedStill(w, w', i);
    ServerUntouched(w, w');
    assert SenderInv(w', max, w'.senders[i]);
    forall k | 0 <= k < |w'.senders|
      ensures SenderInv(w', max, w'.senders[k])
    {
      assert SenderInv(w, max, w.senders[k]);
    }
  }

  lemma ServerUntouched(w: World, w': World)
    requires ServerInv(w) && ReceiverInv(w) && w' == w.(senders := w'.senders)
    ensures ServerInv(w') && ReceiverInv(w')
  {
  }

  lemma RequestedStill(w: World, w': World, i: nat)
    requires Requested(w) && w'.requests == w.requests && |w'.senders| == |w.senders| && i < |w.senders|
    requires forall k :: 0 <= k < |w.senders| && k != i ==> w'.senders[k] == w.senders[k]
    requires KeyOf(w'.senders[i]) == KeyOf(w.senders[i]) && w'.senders[i].send.total >= w.senders[i].send.total
    ensures Requested(w')
  {
    forall k | k in w'.requests
      ensures exists j :: 0 <= j < |w'.senders| && KeyOf(w'.senders[j]) == k && w'.senders[j].send.total > 0
    {
      var j :| 0 <= j < |w.senders| && KeyOf(w.senders[j]) == k && w.senders[j].send.total > 0;
      assert KeyOf(w'.senders[j]) == k && w'.senders[j].send.total > 0;
    }
  }

  /** An operation begins no attempt unasked, and accepts only what the server stored. */
  lemma OperationMeans(w: World, max: nat, s: Sender, op: Op)
    requires ServerInv(w) && SenderInv(w, max, s)
    requires op.Begin? ==> !Begun(s.send, max, op.seq_).1
    requires op.Receive? && op.packet.Ack? && op.packet.success ==>
               (Key(s.user, op.packet.clientMessageId), op.packet.messageId) in w.acks
    ensures var t := Do(s.send, max, op);
            && t.clientMessageId == s.send.clientMessageId && t.total == s.send.total
            && (t.state == Accepted ==> KeyOf(s) in w.stored && w.stored[KeyOf(s)] == t.serverMessageId)
  {
  }

  lemma AttemptKeeps(w: World, max: nat, i: nat, seq_: nat)
    requires WorldInv(w, max) && i < |w.senders|
    ensures WorldInv(Next(w, max, Attempt(i, seq_)), max)
  {
    hide Sound, ServerInv, ReceiverInv;
    var s := w.senders[i];
    assert SenderInv(w, max, s);
    if !Begun(s.send, max, seq_).1 {
      ClientKeeps(w, max, i, Begin(seq_));
    } else {
      var w' := Next(w, max, Attempt(i, seq_));
      StepSound(s.send, max, s.resumes, Begin(seq_));
      assert w'.senders[i].send == Begun(s.send, max, seq_).0;
      assert forall k :: 0 <= k < |w.senders| ==> w'.senders[k] == if k == i then w'.senders[i] else w.senders[k];
      RequestAdded(w, w', i);
      forall k | 0 <= k < |w'.senders|
        ensures SenderInv(w', max, w'.senders[k])
      {
        assert SenderInv(w, max, w.senders[k]);
      }
    }
  }

  lemma RequestAdded(w: World, w': World, i: nat)
    requires ServerInv(w) && ReceiverInv(w) && Requested(w) && i < |w.senders| == |w'.senders|
    requires w' == w.(senders := w'.senders, requests := w.requests + {KeyOf(w.senders[i])})
    requires forall k :: 0 <= k < |w.senders| && k != i ==> w'.senders[k] == w.senders[k]
    requires KeyOf(w'.senders[i]) == KeyOf(w.senders[i]) && w'.senders[i].send.total > 0
    ensures ServerInv(w') && ReceiverInv(w') && Requested(w')
  {
    forall k | k in w'.requests
      ensures exists j :: 0 <= j < |w'.senders| && KeyOf(w'.senders[j]) == k && w'.senders[j].send.total > 0
    {
      if k == KeyOf(w.senders[i]) {
        assert KeyOf(w'.senders[i]) == k && w'.senders[i].send.total > 0;
      } else {
        var j :| 0 <= j < |w.senders| && KeyOf(w.senders[j]) == k && w.senders[j].send.total > 0;
        assert KeyOf(w'.senders[j]) == k && w'.senders[j].send.total > 0;
      }
    }
  }

  /** Storing adds at most one row and changes none. */
  lemma StoreGrows(w: World, max: nat, key: Key, fresh_: nat, replies: bool)
    requires ServerInv(w) && Enabled(w, Process(key, fresh_, replies))
    ensures var w' := Next(w, max, Process(key, fresh_, replies));
            && ServerInv(w')
            && (forall k :: k in w.stored ==> k in w'.stored && w'.stored[k] == w.stored[k])
            && w'.stored.Values >= w.stored.Values
  {
    var m := Answer(w, key, fresh_);
    assert key in w.stored ==> m == w.stored[key];
    assert key !in w.stored ==> m !in w.stored.Values && m != 0;
    assert forall k :: k in w.stored ==> w.stored[k] in w.stored.Values;
    var w' := Next(w, max, Process(key, fresh_, replies));
    forall v | v in w.stored.Values
      ensures v in w'.stored.Values
    {
      var k :| k in w.stored && w.stored[k] == v;
      assert w'.stored[k] == v;
    }
  }

  lemma ProcessKeeps(w: World, max: nat, key: Key, fresh_: nat, replies: bool)
    requires WorldInv(w, max) && Enabled(w, Process(key, fresh_, replies))
    ensures WorldInv(Next(w, max, Process(key, fresh_, replies)), max)
  {
    StoreGrows(w, max, key, fresh_, replies);
    var w' := Next(w, max, Process(key, fresh_, replies));
    assert w' == w.(stored := w'.stored, memory := w'.memory, acks := w'.acks);
    hide ServerInv, Sound, Next, Enabled;
    forall i | 0 <= i < |w'.senders|
      ensures SenderInv(w', max, w'.senders[i])
    {
      assert SenderInv(w, max, w.senders[i]);
    }
  }

  lemma ArriveKeeps(w: World, max: nat, m: nat)
    requires WorldInv(w, max) && Enabled(w, Arrive(m))
    ensures WorldInv(Next(w, max, Arrive(m)), max)
  {
    var w' := Next(w, max, Arrive(m));
    assert w' == w.(receiver := w'.receiver, effects := w'.effects);
    assert ReceiverInv(w');
    hide Sound, Next, ReceiverInv;
    forall i | 0 <= i < |w'.senders|
      ensures SenderInv(w', max, w'.senders[i])
    {
      assert SenderInv(w, max, w.senders[i]);
    }
  }

  lemma ForgetOrPushKeeps(w: World, max: nat, e: Event)
    requires WorldInv(w, max) && Enabled(w, e) && (e.Crash? || e.Push?)
    ensures WorldInv(Next(w, max, e), max)
  {
    hide Sound;
    var w' := Next(w, max, e);
    forall i | 0 <= i < |w'.senders|
      ensures SenderInv(w', max, w'.senders[i])
    {
      assert SenderInv(w, max, w.senders[i]);
    }
  }

  lemma NextKeeps(w: World, max: nat, e: Event)
    requires WorldInv(w, max)
    ensures WorldInv(Next(w, max, e), max)
  {
    hide WorldInv, Client, Answer, Begun, Once;
    if Enabled(w, e) {
      match e
      case Attempt(i, seq_) => AttemptKeeps(w, max, i, seq_);
      case TimeOut(i) => ClientKeeps(w, max, i, Fail);
      case ResumeSend(i) => ClientKeeps(w, max, i, Resume);
      case Declined(i) => ClientKeeps(w, max, i, Refuse);
      case Hear(i, p) => ClientKeeps(w, max, i, Receive(p));
      case Process(key, fresh_, replies) => ProcessKeeps(w, max, key, fresh_, replies);
      case Crash => ForgetOrPushKeeps(w, max, e);
      case Push(m) => ForgetOrPushKeeps(w, max, e);
      case Arrive(m) => ArriveKeeps(w, max, m);
    }
  }

  lemma {:induction false} PlayKeeps(w: World, max: nat, run: seq<Event>)
    requires WorldInv(w, max)
    ensures WorldInv(Play(w, max, run), max)
  {
    hide WorldInv, Next;
    if run != [] {
      PlayKeeps(w, max, run[..|run| - 1]);
      NextKeeps(Play(w, max, run[..|run| - 1]), max, run[|run| - 1]);
    }
  }

  ghost predicate Reachable(w: World, max: nat) {
    exists w0: World, run: seq<Event> :: Initial(w0) && w == Play(w0, max, run)
  }

  lemma ReachableInv(w: World, max: nat)
    requires Reachable(w, max)
    ensures WorldInv(w, max)
  {
    hide WorldInv, Next;
    var w0: World, run: seq<Event> :| Initial(w0) && w == Play(w0, max, run);
    InitialInv(w0, max);
    PlayKeeps(w0, max, run);
  }

  // ---- what is promised ----------------------------------------------------------------------

  /** An accepted send completed once and holds the one id stored for its client message id. */
  lemma AcceptedHoldsStoredId(w: World, max: nat, i: nat)
    requires Reachable(w, max) && i < |w.senders| && w.senders[i].send.state == Accepted
    ensures var s := w.senders[i];
            && KeyOf(s) in w.stored && s.send.serverMessageId == w.stored[KeyOf(s)] != 0
            && s.send.completions == 1
  {
    ReachableInv(w, max);
    hide Reachable, ReceiverInv, Requested;
    assert SenderInv(w, max, w.senders[i]);
  }

  /** Two accepted sends hold the same id if and only if they are the same logical message. */
  lemma IdsIdentifyMessages(w: World, max: nat, i: nat, j: nat)
    requires Reachable(w, max) && i < |w.senders| && j < |w.senders|
    requires w.senders[i].send.state == Accepted && w.senders[j].send.state == Accepted
    ensures w.senders[i].send.serverMessageId == w.senders[j].send.serverMessageId
            <==> KeyOf(w.senders[i]) == KeyOf(w.senders[j])
  {
    ReachableInv(w, max);
    hide Reachable, ReceiverInv, Requested;
    assert SenderInv(w, max, w.senders[i]) && SenderInv(w, max, w.senders[j]);
  }

  lemma NextStores(w: World, max: nat, e: Event, key: Key)
    requires ServerInv(w) && key in w.stored
    ensures var w' := Next(w, max, e);
            key in w'.stored && w'.stored[key] == w.stored[key] && |w'.senders| == |w.senders|
  {
    if Enabled(w, e) && e.Process? {
      StoreGrows(w, max, e.key, e.fresh_, e.replies);
    }
  }

  lemma NextKeepsKeys(w: World, max: nat, e: Event, i: nat)
    requires i < |w.senders|
    ensures var w' := Next(w, max, e); |w'.senders| == |w.senders| && KeyOf(w'.senders[i]) == KeyOf(w.senders[i])
  {
  }

  /**
   * Once the server has stored a message, nothing that happens later, crashes included, makes its
   * sender accept any other id: an uncertain send that is resumed finds the same message again.
   */
  lemma {:induction false} StoredIdIsFinal(w: World, max: nat, run: seq<Event>, i: nat)
    requires Reachable(w, max) && i < |w.senders| && KeyOf(w.senders[i]) in w.stored
    ensures var w', m := Play(w, max, run), w.stored[KeyOf(w.senders[i])];
            && |w'.senders| == |w.senders| && KeyOf(w'.senders[i]) == KeyOf(w.senders[i])
            && KeyOf(w.senders[i]) in w'.stored && w'.stored[KeyOf(w.senders[i])] == m
            && (w'.senders[i].send.state == Accepted ==> w'.senders[i].send.serverMessageId == m)
  {
    ReachableInv(w, max);
    hide Reachable, Next, WorldInv;
    PlayKeeps(w, max, run);
    if run != [] {
      var before := Play(w, max, run[..|run| - 1]);
      StoredIdIsFinal(w, max, run[..|run| - 1], i);
      PlayKeeps(w, max, run[..|run| - 1]);
      InvServes(before, max);
      NextStores(before, max, run[|run| - 1], KeyOf(w.senders[i]));
      NextKeepsKeys(before, max, run[|run| - 1], i);
    }
    InvAccepts(Play(w, max, run), max, i);
  }

  lemma InvServes(w: World, max: nat)
    requires WorldInv(w, max)
    ensures ServerInv(w)
  {
  }

  lemma InvAccepts(w: World, max: nat, i: nat)
    requires WorldInv(w, max)
    ensures i < |w.senders| && w.senders[i].send.state == Accepted ==>
              KeyOf(w.senders[i]) in w.stored && w.stored[KeyOf(w.senders[i])] == w.senders[i].send.serverMessageId
  {
    if i < |w.senders| {
      assert SenderInv(w, max, w.senders[i]);
    }
  }

  /**
   * The receiver's business effect happens at most once per message, and only for a message some
   * client attempted to send.
   */
  lemma EffectAtMostOnce(w: World, max: nat, m: nat)
    requires Reachable(w, max)
    ensures multiset(w.effects)[m] <= 1
    ensures m in w.effects ==> m != 0
    ensures m in w.effects ==>
              exists i :: 0 <= i < |w.senders| && w.senders[i].send.total > 0
                          && KeyOf(w.senders[i]) in w.stored && w.stored[KeyOf(w.senders[i])] == m
    ensures w.receiver.count == |w.effects| <= |w.stored|
  {
    ReachableInv(w, max);
    hide Reachable, SendersInv;
    DistinctOccursOnce(w.effects, m);
    EffectsFewerThan(w.effects, w.stored.Values);
    ValuesFewerThan(w.stored);
    if m in w.effects {
      assert m in w.stored.Values;
      var k :| k in w.stored && w.stored[k] == m;
      var i :| 0 <= i < |w.senders| && KeyOf(w.senders[i]) == k && w.senders[i].send.total > 0;
      assert w.stored[KeyOf(w.senders[i])] == m;
    }
  }

  lemma {:induction false} DistinctOccursOnce(s: seq<nat>, m: nat)
    requires forall j, k :: 0 <= j < k < |s| ==> s[j] != s[k]
    ensures multiset(s)[m] <= 1
  {
    if s != [] {
      var front, last := s[..|s| - 1], s[|s| - 1];
      DistinctOccursOnce(front, m);
      assert s == front + [last];
      assert last !in front;
      assert multiset(front)[last] == 0;
    }
  }

  lemma {:induction false} EffectsFewerThan(s: seq<nat>, among: set<nat>)
    requires forall j, k :: 0 <= j < k < |s| ==> s[j] != s[k]
    requires forall m :: m in s ==> m in among
    ensures |s| <= |among|
    decreases |s|
  {
    if s != [] {
      var front, last := s[..|s| - 1], s[|s| - 1];
      assert last in s;
      forall m | m in front
        ensures m in among - {last}
      {
        assert m in s;
      }
      EffectsFewerThan(front, among - {last});
    }
  }

  lemma {:induction false} ValuesFewerThan(stored: map<Key, nat>)
    ensures |stored.Values| <= |stored|
    decreases |stored|
  {
    if stored == map[] {
      assert stored.Values == {};
    } else {
      var k :| k in stored;
      var rest := stored - {k};
      ValuesFewerThan(rest);
      forall v | v in stored.Values
        ensures v in rest.Values + {stored[k]}
      {
        var l :| l in stored && stored[l] == v;
        assert l != k ==> l in rest && rest[l] == v;
      }
      assert stored.Values <= rest.Values + {stored[k]};
      WithinSize(stored.Values, rest.Values + {stored[k]});
      assert stored.Keys == rest.Keys + {k};
    }
  }

  lemma {:induction false} WithinSize(a: set<nat>, b: set<nat>)
    requires a <= b
    ensures |a| <= |b|
  {
    assert b == a + (b - a);
  }

  // ---- nothing is stuck ----------------------------------------------------------------------

  lemma {:induction false} Above(taken: set<nat>) returns (m: nat)
    ensures m != 0 && forall t :: t in taken ==> t < m
  {
    m := 1;
    if taken != {} {
      var t :| t in taken;
      var n := Above(taken - {t});
      m := if n > t then n else t + 1;
      assert forall u :: u in taken ==> u == t || u in taken - {t};
    }
  }

  lemma PlayOn(w: World, max: nat, run: seq<Event>, e: Event)
    ensures Play(w, max, run + [e]) == Next(Play(w, max, run), max, e)
  {
    hide Next;
    assert (run + [e])[..|run|] == run;
  }

  lemma PlayOne(w: World, max: nat, e: Event)
    ensures Play(w, max, [e]) == Next(w, max, e)
  {
    hide Next;
    assert [e][..0] == [];
  }

  /** Whoever is not refused has put its request into the network, or can do so now. */
  lemma CanAsk(w: World, max: nat, i: nat) returns (run: seq<Event>)
    requires WorldInv(w, max) && max > 0 && i < |w.senders| && w.senders[i].send.state != Rejected
    ensures var w' := Play(w, max, run);
            && WorldInv(w', max) && |w'.senders| == |w.senders| && KeyOf(w'.senders[i]) == KeyOf(w.senders[i])
            && KeyOf(w.senders[i]) in w'.requests && w'.senders[i].send.state != Rejected
  {
    var s := w.senders[i];
    assert SenderInv(w, max, s);
    if KeyOf(s) in w.requests {
      run := [];
    } else {
      assert s.send.state == Created && s.send.round == 0;
      run := [Attempt(i, 1)];
      PlayOne(w, max, Attempt(i, 1));
      AttemptKeeps(w, max, i, 1);
    }
  }

  lemma ServerAnswers(w: World, max: nat, key: Key, fresh_: nat)
    requires WorldInv(w, max) && Enabled(w, Process(key, fresh_, true))
    ensures var w' := Next(w, max, Process(key, fresh_, true));
            && WorldInv(w', max) && w'.senders == w.senders
            && key in w'.stored && w'.stored[key] != 0 && (key, w'.stored[key]) in w'.acks
  {
    ProcessKeeps(w, max, key, fresh_, true);
    hide Sound, SendersInv, Requested, ReceiverInv;
  }

  lemma ClientAccepts(w: World, max: nat, i: nat)
    requires WorldInv(w, max) && i < |w.senders| && w.senders[i].send.state != Rejected
    requires KeyOf(w.senders[i]) in w.stored && w.stored[KeyOf(w.senders[i])] != 0
    requires (KeyOf(w.senders[i]), w.stored[KeyOf(w.senders[i])]) in w.acks
    ensures var m := w.stored[KeyOf(w.senders[i])];
            var w' := Next(w, max, Hear(i, Ack(true, w.senders[i].send.clientMessageId, m)));
            && WorldInv(w', max) && w' == w.(senders := w'.senders) && |w'.senders| == |w.senders|
            && KeyOf(w'.senders[i]) == KeyOf(w.senders[i])
            && w'.senders[i].send.state == Accepted && w'.senders[i].send.serverMessageId == m
  {
    var s := w.senders[i];
    var p := Ack(true, s.send.clientMessageId, w.stored[KeyOf(s)]);
    assert SenderInv(w, max, s);
    NextKeeps(w, max, Hear(i, p));
    hide WorldInv;
  }

  lemma ReceiverApplies(w: World, max: nat, m: nat)
    requires WorldInv(w, max) && m in w.stored.Values && m != 0
    ensures var w1 := Next(w, max, Push(m));
            var w2 := Next(w1, max, Arrive(m));
            w2.senders == w.senders && w2.stored == w.stored && m in w2.effects
  {
    var w1 := Next(w, max, Push(m));
    ForgetOrPushKeeps(w, max, Push(m));
    hide ServerInv, SendersInv, Requested;
  }

  /**
   * From every reachable state, whatever was lost, repeated or forgotten, and also from an uncertain
   * send, there is a continuation in which the send is accepted and its message takes effect.
   */
  lemma CanStillComplete(w: World, max: nat, i: nat) returns (run: seq<Event>)
    requires Reachable(w, max) && max > 0 && i < |w.senders| && w.senders[i].send.state != Rejected
    ensures var w' := Play(w, max, run);
            && i < |w'.senders| && w'.senders[i].send.state == Accepted
            && multiset(w'.effects)[w'.senders[i].send.serverMessageId] == 1
  {
    ReachableInv(w, max);
    hide Reachable, WorldInv, Next;
    run := CanAsk(w, max, i);
    var w1, key := Play(w, max, run), KeyOf(w.senders[i]);
    var fresh_ := Above(w1.stored.Values);
    var ask := Process(key, fresh_, true);
    ServerAnswers(w1, max, key, fresh_);
    var w2 := Next(w1, max, ask);
    var m := w2.stored[key];
    var hear := Hear(i, Ack(true, w2.senders[i].send.clientMessageId, m));
    ClientAccepts(w2, max, i);
    var w3 := Next(w2, max, hear);
    assert m in w3.stored.Values;
    ReceiverApplies(w3, max, m);
    PlayOn(w, max, run, ask);
    PlayOn(w, max, run + [ask], hear);
    PlayOn(w, max, run + [ask] + [hear], Push(m));
    PlayOn(w, max, run + [ask] + [hear] + [Push(m)], Arrive(m));
    run := run + [ask] + [hear] + [Push(m)] + [Arrive(m)];
    PlayKeeps(w, max, run);
    EffectsOnce(Play(w, max, run), max, m);
  }

  lemma EffectsOnce(w: World, max: nat, m: nat)
    requires WorldInv(w, max) && m in w.effects
    ensures multiset(w.effects)[m] == 1
  {
    DistinctOccursOnce(w.effects, m);
    assert m in multiset(w.effects);
  }
}
