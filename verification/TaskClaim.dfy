/**
 * Submitter threads that share an atomic counter: each takes the next task number, stops when the
 * numbers are used up, and otherwise submits that task and writes the status it got.
 */
module TaskClaim {

  datatype Status = Accepted | Overloaded | HotKeyOverloaded | DeadlineExpired | ShuttingDown | InvalidArgument

  datatype Thread = Claiming | Submitting(task: nat) | Stopped

  datatype World = World(
    tasks: nat,
    counter: nat,
    threads: seq<Thread>,
    statuses: seq<Status>,
    writes: seq<(nat, Status)>)    // history: task and status of each write, in order

  function Init(tasks: nat, submitters: nat): World {
    World(tasks, 0, seq(submitters, _ => Claiming), seq(tasks, _ => InvalidArgument), [])
  }

  /** Thread `t` takes its next step; `status` is what the executor answers if it submits. */
  datatype Step = Step(t: nat, status: Status)

  predicate Enabled(w: World, s: Step) {
    s.t < |w.threads| && w.threads[s.t] != Stopped
  }

  function Next(w: World, s: Step): World {
    if !Enabled(w, s) then w
    else match w.threads[s.t]
      case Claiming =>
        var id := w.counter;
        w.(counter := w.counter + 1, threads := w.threads[s.t := if id >= w.tasks then Stopped else Submitting(id)])
      case Submitting(id) =>
        w.(statuses := if id < |w.statuses| then w.statuses[id := s.status] else w.statuses,
           writes := w.writes + [(id, s.status)], threads := w.threads[s.t := Claiming])
      case Stopped => w
  }

  function Run(w: World, steps: seq<Step>): World {
    if steps == [] then w else Next(Run(w, steps[..|steps| - 1]), steps[|steps| - 1])
  }

  function CountStopped(threads: seq<Thread>): nat {
    if threads == [] then 0
    else CountStopped(threads[..|threads| - 1]) + (if threads[|threads| - 1] == Stopped then 1 else 0)
  }

  // ---- the invariant -------------------------------------------------------------------------

  ghost predicate Held(w: World, id: nat) {
    exists t :: 0 <= t < |w.threads| && w.threads[t] == Submitting(id)
  }

  ghost predicate Among(writes: seq<(nat, Status)>, id: nat) {
    exists k :: 0 <= k < |writes| && writes[k].0 == id
  }

  ghost predicate Written(w: World, id: nat) {
    Among(w.writes, id)
  }

  /** Every number handed out below the limit is with one thread, or was written, once. */
  ghost predicate Claims(w: World) {
    && (forall t :: 0 <= t < |w.threads| && w.threads[t].Submitting? ==>
          w.threads[t].task < w.counter && w.threads[t].task < w.tasks && !Written(w, w.threads[t].task))
    && (forall t, u :: 0 <= t < u < |w.threads| && w.threads[t].Submitting? ==> w.threads[t] != w.threads[u])
    && (forall k :: 0 <= k < |w.writes| ==> w.writes[k].0 < w.counter && w.writes[k].0 < w.tasks)
    && (forall j, k :: 0 <= j < k < |w.writes| ==> w.writes[j].0 != w.writes[k].0)
    && (forall id: nat :: id < w.counter && id < w.tasks ==> Held(w, id) || Written(w, id))
  }

  ghost predicate Slots(w: World) {
    && |w.statuses| == w.tasks
    && (forall k :: 0 <= k < |w.writes| && w.writes[k].0 < w.tasks ==> w.statuses[w.writes[k].0] == w.writes[k].1)
    && (forall id: nat :: id < w.tasks && !Written(w, id) ==> w.statuses[id] == InvalidArgument)
  }

  ghost predicate Counted(w: World) {
    CountStopped(w.threads) == if w.counter > w.tasks then w.counter - w.tasks else 0
  }

  ghost predicate Inv(w: World) {
    Claims(w) && Slots(w) && Counted(w)
  }

  lemma {:induction false} StoppedUpdate(threads: seq<Thread>, t: nat, x: Thread)
    requires t < |threads|
    ensures CountStopped(threads[t := x]) ==
            CountStopped(threads) - (if threads[t] == Stopped then 1 else 0) + (if x == Stopped then 1 else 0)
  {
    var n := |threads| - 1;
    if t == n {
      assert threads[t := x][..n] == threads[..n];
    } else {
      assert threads[t := x][..n] == threads[..n][t := x];
      StoppedUpdate(threads[..n], t, x);
    }
  }

  lemma {:induction false} StoppedAtMost(threads: seq<Thread>)
    ensures CountStopped(threads) <= |threads|
    ensures CountStopped(threads) == |threads| <==> forall t :: 0 <= t < |threads| ==> threads[t] == Stopped
  {
    if threads != [] {
      StoppedAtMost(threads[..|threads| - 1]);
    }
  }

  lemma {:induction false} NoneStopped(threads: seq<Thread>)
    requires forall t :: 0 <= t < |threads| ==> threads[t] == Claiming
    ensures CountStopped(threads) == 0
  {
    if threads != [] {
      NoneStopped(threads[..|threads| - 1]);
    }
  }

  lemma ClaimKeeps(w: World, s: Step)
    requires Inv(w) && Enabled(w, s) && w.threads[s.t] == Claiming
    ensures Inv(Next(w, s))
  {
    var w' := Next(w, s);
    StoppedUpdate(w.threads, s.t, w'.threads[s.t]);
    assert forall id: nat :: Written(w', id) == Written(w, id);
    assert Slots(w');
    forall id: nat | id < w'.counter && id < w'.tasks
      ensures Held(w', id) || Written(w', id)
    {
      if id == w.counter {
        assert w'.threads[s.t] == Submitting(id);
      } else if !Written(w, id) {
        var t :| 0 <= t < |w.threads| && w.threads[t] == Submitting(id);
        assert w'.threads[t] == Submitting(id);
      }
    }
  }

  lemma WrittenAfter(w: World, s: Step, id: nat)
    requires Enabled(w, s) && w.threads[s.t].Submitting?
    ensures Written(Next(w, s), id) <==> Written(w, id) || id == w.threads[s.t].task
  {
    var w', n := Next(w, s), |w.writes|;
    assert w'.writes[n].0 == w.threads[s.t].task;
    if Written(w, id) {
      var k :| 0 <= k < n && w.writes[k].0 == id;
      assert w'.writes[k].0 == id;
    }
  }

  lemma SubmitKeeps(w: World, s: Step)
    requires Inv(w) && Enabled(w, s) && w.threads[s.t].Submitting?
    ensures Inv(Next(w, s))
  {
    StoppedUpdate(w.threads, s.t, Claiming);
    SubmitKeepsSlots(w, s);
    SubmitKeepsClaims(w, s);
    hide Slots, Claims;
  }

  lemma SubmitKeepsClaims(w: World, s: Step)
    requires Claims(w) && Enabled(w, s) && w.threads[s.t].Submitting?
    ensures Claims(Next(w, s))
  {
    var w', task := Next(w, s), w.threads[s.t].task;
    forall id: nat
      ensures Written(w', id) <==> Written(w, id) || id == task
    {
      WrittenAfter(w, s, id);
    }
    assert forall k :: 0 <= k < |w.writes| ==> Among(w.writes, w.writes[k].0);
    assert w'.threads == w.threads[s.t := Claiming] && w'.writes == w.writes + [(task, s.status)];
    hide Among, Next;
    forall id: nat | id < w'.counter && id < w'.tasks
      ensures Held(w', id) || Written(w', id)
    {
      if id != task && !Written(w, id) {
        var t :| 0 <= t < |w.threads| && w.threads[t] == Submitting(id);
        assert w'.threads[t] == Submitting(id);
      }
    }
  }

  lemma SubmitKeepsSlots(w: World, s: Step)
    requires Inv(w) && Enabled(w, s) && w.threads[s.t].Submitting?
    ensures Slots(Next(w, s))
  {
    var w', task := Next(w, s), w.threads[s.t].task;
    forall id: nat
      ensures Written(w', id) <==> Written(w, id) || id == task
    {
      WrittenAfter(w, s, id);
    }
    forall k | 0 <= k < |w'.writes| && w'.writes[k].0 < w.tasks
      ensures w'.statuses[w'.writes[k].0] == w'.writes[k].1
    {
      if k < |w.writes| {
        assert w'.writes[k] == w.writes[k] && Written(w, w.writes[k].0);
      }
    }
  }

  lemma NextKeeps(w: World, s: Step)
    requires Inv(w)
    ensures Inv(Next(w, s))
  {
    hide Inv;
    if Enabled(w, s) {
      if w.threads[s.t] == Claiming { ClaimKeeps(w, s); } else { SubmitKeeps(w, s); }
    }
  }

  lemma {:induction false} RunKeeps(tasks: nat, submitters: nat, steps: seq<Step>)
    ensures var w := Run(Init(tasks, submitters), steps);
            Inv(w) && w.tasks == tasks && |w.threads| == submitters
  {
    if steps == [] {
      NoneStopped(Init(tasks, submitters).threads);
    } else {
      hide Inv;
      RunKeeps(tasks, submitters, steps[..|steps| - 1]);
      NextKeeps(Run(Init(tasks, submitters), steps[..|steps| - 1]), steps[|steps| - 1]);
    }
  }

  // ---- what is promised ----------------------------------------------------------------------

  ghost predicate AllStopped(w: World) {
    forall t :: 0 <= t < |w.threads| ==> w.threads[t] == Stopped
  }

  /**
   * In every interleaving that runs to its end, each task was submitted and its status written
   * exactly once, the status array holds what was written, and the counter overshoots by one per
   * thread.
   */
  lemma EveryTaskOnce(tasks: nat, submitters: nat, steps: seq<Step>)
    requires submitters > 0 && AllStopped(Run(Init(tasks, submitters), steps))
    ensures var w := Run(Init(tasks, submitters), steps);
            && w.counter == tasks + submitters
            && |w.writes| == |w.statuses| == tasks
            && (forall id: nat :: id < tasks ==> Written(w, id))
            && (forall j, k :: 0 <= j < k < |w.writes| ==> w.writes[j].0 != w.writes[k].0)
            && (forall k :: 0 <= k < |w.writes| ==> w.writes[k].0 < tasks && w.statuses[w.writes[k].0] == w.writes[k].1)
  {
    var w := Run(Init(tasks, submitters), steps);
    RunKeeps(tasks, submitters, steps);
    StoppedAtMost(w.threads);
    hide Run;
    forall id: nat | id < tasks
      ensures Written(w, id) && Among(w.writes, id)
    {
      assert !Held(w, id);
    }
    OnePerNumber(w.writes, tasks);
  }

  /**
   * The status kept for a task is the one answered to the thread that claimed it: if step `k` claims
   * a task and `j` is the next step of the same thread, the slot holds what step `j` was answered,
   * whatever the other threads did in between and everyone did after.
   */
  lemma StatusIsTheAnswer(tasks: nat, submitters: nat, steps: seq<Step>, k: nat, j: nat)
    requires k < j < |steps| && steps[k].t == steps[j].t < submitters
    requires forall i :: k < i < j ==> steps[i].t != steps[k].t
    requires Run(Init(tasks, submitters), steps[..k]).counter < tasks
    requires |Run(Init(tasks, submitters), steps[..k]).threads| == submitters
    requires Run(Init(tasks, submitters), steps[..k]).threads[steps[k].t] == Claiming
    ensures var w := Run(Init(tasks, submitters), steps);
            var id := Run(Init(tasks, submitters), steps[..k]).counter;
            |w.statuses| == tasks && w.statuses[id] == steps[j].status && (id, steps[j].status) in w.writes
  {
    hide Run, Claims, Counted;
    var w0 := Init(tasks, submitters);
    RunKeeps(tasks, submitters, steps[..k]);
    RunKeeps(tasks, submitters, steps);
    HeldUntil(w0, steps, k, j);
    AnswerWritten(w0, steps, j);
    WritesStay(w0, steps, j + 1);
  }

  lemma AnswerWritten(w: World, steps: seq<Step>, j: nat)
    requires j < |steps|
    requires steps[j].t < |Run(w, steps[..j]).threads| && Run(w, steps[..j]).threads[steps[j].t].Submitting?
    ensures (Run(w, steps[..j]).threads[steps[j].t].task, steps[j].status) in Run(w, steps[..j + 1]).writes
  {
    assert steps[..j + 1][..j] == steps[..j];
  }

  lemma {:induction false} HeldUntil(w: World, steps: seq<Step>, k: nat, j: nat)
    requires k < j <= |steps|
    requires forall i :: k < i < j ==> steps[i].t != steps[k].t
    requires var v := Run(w, steps[..k]);
             v.counter < v.tasks && steps[k].t < |v.threads| && v.threads[steps[k].t] == Claiming
    ensures var v := Run(w, steps[..j]);
            steps[k].t < |v.threads| && v.threads[steps[k].t] == Submitting(Run(w, steps[..k]).counter)
    decreases j
  {
    assert steps[..j][..j - 1] == steps[..j - 1];
    if j > k + 1 {
      HeldUntil(w, steps, k, j - 1);
    }
  }

  lemma {:induction false} WritesStay(w: World, steps: seq<Step>, j: nat)
    requires j <= |steps|
    ensures Run(w, steps[..j]).writes <= Run(w, steps).writes
    decreases |steps|
  {
    if j == |steps| {
      assert steps[..j] == steps;
    } else {
      var front := steps[..|steps| - 1];
      assert front[..j] == steps[..j];
      WritesStay(w, front, j);
    }
  }

  /** Pairwise distinct numbers that are exactly those below `n` are `n` in number. */
  lemma {:induction false} OnePerNumber(writes: seq<(nat, Status)>, n: nat)
    requires forall j, k :: 0 <= j < k < |writes| ==> writes[j].0 != writes[k].0
    requires forall k :: 0 <= k < |writes| ==> writes[k].0 < n
    ensures |writes| <= n
    ensures (forall id: nat :: id < n ==> Among(writes, id)) ==> |writes| == n
    decreases n
  {
    assert writes == [] || writes[0].0 < n;
    if n == 0 {
    } else if Among(writes, n - 1) {
      var k :| 0 <= k < |writes| && writes[k].0 == n - 1;
      var rest := writes[..k] + writes[k + 1..];
      OnePerNumber(rest, n - 1);
      forall id: nat | id < n - 1 && Among(writes, id)
        ensures Among(rest, id)
      {
        var j :| 0 <= j < |writes| && writes[j].0 == id;
        assert rest[if j < k then j else j - 1] == writes[j];
      }
    } else {
      assert forall k :: 0 <= k < |writes| ==> Among(writes, writes[k].0);
      OnePerNumber(writes, n - 1);
    }
  }

  /** Steps that change something. */
  function Work(w: World, steps: seq<Step>): nat {
    if steps == [] then 0
    else Work(w, steps[..|steps| - 1])
           + (if Enabled(Run(w, steps[..|steps| - 1]), steps[|steps| - 1]) then 1 else 0)
  }

  /**
   * Every run ends: each step of a thread that has not stopped hands out a number or writes a
   * status, and there are `tasks + submitters` and `tasks` of these at most.
   */
  lemma WorkBounded(tasks: nat, submitters: nat, steps: seq<Step>)
    ensures Work(Init(tasks, submitters), steps) <= 2 * tasks + submitters
  {
    var w := Run(Init(tasks, submitters), steps);
    WorkIsCounted(tasks, submitters, steps);
    RunKeeps(tasks, submitters, steps);
    StoppedAtMost(w.threads);
    hide Run, Work;
    OnePerNumber(w.writes, tasks);
  }

  lemma {:induction false} WorkIsCounted(tasks: nat, submitters: nat, steps: seq<Step>)
    ensures var w := Run(Init(tasks, submitters), steps);
            Work(Init(tasks, submitters), steps) == w.counter + |w.writes|
  {
    if steps != [] {
      WorkIsCounted(tasks, submitters, steps[..|steps| - 1]);
    }
  }

  // ---- counting the statuses -----------------------------------------------------------------

  datatype StatusCounts = StatusCounts(
    accepted: nat, overload: nat, hotKey: nat, deadline: nat, shutdown: nat, invalid: nat)

  function Occurrences(statuses: seq<Status>, s: Status): nat {
    if statuses == [] then 0
    else Occurrences(statuses[..|statuses| - 1], s) + (if statuses[|statuses| - 1] == s then 1 else 0)
  }

  /** Each status is counted under its own name, and together they are as many as the tasks. */
  method CountStatuses(statuses: seq<Status>) returns (counts: StatusCounts)
    ensures counts == StatusCounts(
              Occurrences(statuses, Accepted), Occurrences(statuses, Overloaded),
              Occurrences(statuses, HotKeyOverloaded), Occurrences(statuses, DeadlineExpired),
              Occurrences(statuses, ShuttingDown), Occurrences(statuses, InvalidArgument))
    ensures counts.accepted + counts.overload + counts.hotKey + counts.deadline + counts.shutdown + counts.invalid
            == |statuses|
  {
    counts := StatusCounts(0, 0, 0, 0, 0, 0);
    for i := 0 to |statuses|
      invariant counts == StatusCounts(
                  Occurrences(statuses[..i], Accepted), Occurrences(statuses[..i], Overloaded),
                  Occurrences(statuses[..i], HotKeyOverloaded), Occurrences(statuses[..i], DeadlineExpired),
                  Occurrences(statuses[..i], ShuttingDown), Occurrences(statuses[..i], InvalidArgument))
      invariant counts.accepted + counts.overload + counts.hotKey + counts.deadline + counts.shutdown + counts.invalid == i
    {
      assert statuses[..i + 1][..i] == statuses[..i];
      counts := CountStatus(statuses[i], counts);
    }
    assert statuses[..|statuses|] == statuses;
  }

  method CountStatus(status: Status, counts: StatusCounts) returns (r: StatusCounts)
    ensures r == StatusCounts(
              counts.accepted + (if status == Accepted then 1 else 0),
              counts.overload + (if status == Overloaded then 1 else 0),
              counts.hotKey + (if status == HotKeyOverloaded then 1 else 0),
              counts.deadline + (if status == DeadlineExpired then 1 else 0),
              counts.shutdown + (if status == ShuttingDown then 1 else 0),
              counts.invalid + (if status == InvalidArgument then 1 else 0))
  {
    match status
    case Accepted => r := counts.(accepted := counts.accepted + 1);
    case Overloaded => r := counts.(overload := counts.overload + 1);
    case HotKeyOverloaded => r := counts.(hotKey := counts.hotKey + 1);
    case DeadlineExpired => r := counts.(deadline := counts.deadline + 1);
    case ShuttingDown => r := counts.(shutdown := counts.shutdown + 1);
    case InvalidArgument => r := counts.(invalid := counts.invalid + 1);
  }
}
