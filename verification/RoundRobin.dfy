/** Round-robin choice of a connection: first eligible index in cyclic order from a moving cursor. */
module RoundRobin {
  import opened Basics

  /** `i` modulo `n` for an index less than two rounds ahead. */
  function Wrap(i: nat, n: nat): (r: nat)
    requires 0 < n && i < 2 * n
    ensures r < n && r == i % n
  {
    if i < n then i else i - n
  }

  /** How many steps after the cursor an index comes up. */
  function Distance(cursor: nat, i: nat, n: nat): (d: nat)
    requires cursor < n && i < n
    ensures d < n && Wrap(cursor + d, n) == i
  {
    if cursor <= i then i - cursor else i + n - cursor
  }

  function PickFrom(ok: seq<bool>, cursor: nat, attempt: nat): Option<nat>
    requires cursor < |ok| && attempt <= |ok|
    decreases |ok| - attempt
  {
    if attempt == |ok| then None
    else if ok[Wrap(cursor + attempt, |ok|)] then Some(Wrap(cursor + attempt, |ok|))
    else PickFrom(ok, cursor, attempt + 1)
  }

  /** The selection loop, started at the cursor. */
  function Pick(ok: seq<bool>, cursor: nat): Option<nat>
    requires cursor < |ok|
  {
    PickFrom(ok, cursor, 0)
  }

  function Advance(i: nat, n: nat): (cursor: nat)
    requires i < n
    ensures cursor < n && cursor == (i + 1) % n
  {
    Wrap(i + 1, n)
  }

  lemma {:induction false} PickFromIsNearest(ok: seq<bool>, cursor: nat, attempt: nat)
    requires cursor < |ok| && attempt <= |ok|
    ensures match PickFrom(ok, cursor, attempt)
            case Some(i) =>
              && i < |ok| && ok[i] && Distance(cursor, i, |ok|) >= attempt
              && forall j :: 0 <= j < |ok| && ok[j] && Distance(cursor, j, |ok|) >= attempt
                    ==> Distance(cursor, i, |ok|) <= Distance(cursor, j, |ok|)
            case None =>
              forall j :: 0 <= j < |ok| && Distance(cursor, j, |ok|) >= attempt ==> !ok[j]
    decreases |ok| - attempt
  {
    if attempt < |ok| && !ok[Wrap(cursor + attempt, |ok|)] {
      PickFromIsNearest(ok, cursor, attempt + 1);
    }
  }

  /** The choice is the eligible index nearest after the cursor, and fails only if none is eligible. */
  lemma PickIsNearest(ok: seq<bool>, cursor: nat)
    requires cursor < |ok|
    ensures Pick(ok, cursor).None? <==> (forall j :: 0 <= j < |ok| ==> !ok[j])
    ensures forall i :: Pick(ok, cursor) == Some(i) <==>
              && 0 <= i < |ok| && ok[i]
              && forall j :: 0 <= j < |ok| && ok[j] ==> Distance(cursor, i, |ok|) <= Distance(cursor, j, |ok|)
  {
    PickFromIsNearest(ok, cursor, 0);
    forall i, j | 0 <= i < |ok| && 0 <= j < |ok| && Distance(cursor, i, |ok|) == Distance(cursor, j, |ok|)
      ensures i == j
    {
      assert Wrap(cursor + Distance(cursor, i, |ok|), |ok|) == Wrap(cursor + Distance(cursor, j, |ok|), |ok|);
    }
  }

  /** Choosing someone else brings the cursor strictly nearer to an eligible index. */
  lemma ChoosingAnotherApproaches(ok: seq<bool>, cursor: nat, i: nat)
    requires cursor < |ok| && i < |ok| && ok[i] && Pick(ok, cursor) != Some(i)
    ensures Pick(ok, cursor).Some? && Pick(ok, cursor).value < |ok|
    ensures Distance(Advance(Pick(ok, cursor).value, |ok|), i, |ok|) < Distance(cursor, i, |ok|)
  {
    PickFromIsNearest(ok, cursor, 0);
    var j := Pick(ok, cursor).value;
    assert Distance(Advance(j, |ok|), i, |ok|) == Distance(cursor, i, |ok|) - Distance(cursor, j, |ok|) - 1;
  }

  /**
   * The indices chosen by successive selections, each starting after the previous choice. `oks[k]`
   * says who is eligible at selection `k`; anything may change between two selections.
   */
  function Choices(n: nat, oks: seq<seq<bool>>, cursor: nat): (r: seq<Option<nat>>)
    requires cursor < n && forall k :: 0 <= k < |oks| ==> |oks[k]| == n
    ensures |r| == |oks|
    decreases |oks|
  {
    if oks == [] then []
    else
      var chosen := Pick(oks[0], cursor);
      PickFromIsNearest(oks[0], cursor, 0);
      [chosen] + Choices(n, oks[1..], if chosen.Some? then Advance(chosen.value, n) else cursor)
  }

  lemma {:induction false} ChosenInTime(n: nat, oks: seq<seq<bool>>, cursor: nat, j: nat)
    requires cursor < n && j < n
    requires forall k :: 0 <= k < |oks| ==> |oks[k]| == n && oks[k][j]
    requires Distance(cursor, j, n) < |oks|
    ensures Some(j) in Choices(n, oks, cursor)
    decreases |oks|
  {
    if Pick(oks[0], cursor) != Some(j) {
      ChoosingAnotherApproaches(oks[0], cursor, j);
      ChosenInTime(n, oks[1..], Advance(Pick(oks[0], cursor).value, n), j);
    }
  }

  /** A connection that stays eligible is chosen within as many selections as there are connections. */
  lemma NoStarvation(n: nat, oks: seq<seq<bool>>, cursor: nat, j: nat)
    requires cursor < n && j < n && |oks| >= n
    requires forall k :: 0 <= k < |oks| ==> |oks[k]| == n && oks[k][j]
    ensures exists k :: 0 <= k < n && Choices(n, oks[..n], cursor)[k] == Some(j)
  {
    ChosenInTime(n, oks[..n], cursor, j);
  }
}
