/** Client message identifiers, `b<run>-u<uid>-n<logical>`, and why no two logical sends share one. */
module ClientIds {

  predicate IsDigit(ch: char) {
    '0' <= ch <= '9'
  }

  predicate AllDigits(s: string) {
    forall i :: 0 <= i < |s| ==> IsDigit(s[i])
  }

  function Digit(n: nat): (ch: char)
    requires n < 10
    ensures IsDigit(ch)
  {
    "0123456789"[n]
  }

  /** Decimal text of a number, as an output stream prints it. */
  function Decimal(n: nat): (s: string)
    ensures AllDigits(s) && s != []
    ensures n != 0 ==> s[0] != '0'
  {
    if n < 10 then [Digit(n)] else Decimal(n / 10) + [Digit(n % 10)]
  }

  lemma {:induction false} DecimalInjective(a: nat, b: nat)
    requires Decimal(a) == Decimal(b)
    ensures a == b
  {
    var s, t := Decimal(a), Decimal(b);
    assert s[|s| - 1] == t[|t| - 1];
    if a >= 10 && b >= 10 {
      assert s[..|s| - 1] == Decimal(a / 10);
      assert t[..|t| - 1] == Decimal(b / 10);
      DecimalInjective(a / 10, b / 10);
    }
  }

  function ClientId(run: nat, uid: nat, logical: nat): (id: string) {
    "b" + (Decimal(run) + ("-u" + (Decimal(uid) + ("-n" + Decimal(logical)))))
  }

  /** A run of digits is delimited by the first character that is not one. */
  lemma DigitsThenRest(a: string, b: string, x: string, y: string)
    requires AllDigits(a) && AllDigits(b)
    requires x != [] && !IsDigit(x[0])
    requires y != [] && !IsDigit(y[0])
    requires a + x == b + y
    ensures a == b && x == y
  {
    var w := a + x;
    assert forall i :: 0 <= i < |a| ==> w[i] == a[i];
    assert forall i :: 0 <= i < |b| ==> w[i] == b[i];
    assert w[|a|] == x[0] && w[|b|] == y[0];
    assert |a| == |b|;
    assert a == w[..|a|] && x == w[|a|..] && y == w[|b|..];
  }

  /** Within one run an identifier determines both the user and the logical send it was made for. */
  lemma ClientIdInjective(run: nat, uid: nat, logical: nat, uid': nat, logical': nat)
    requires ClientId(run, uid, logical) == ClientId(run, uid', logical')
    ensures uid == uid' && logical == logical'
  {
    var tail := "-n" + Decimal(logical);
    var tail' := "-n" + Decimal(logical');
    var mid := "-u" + (Decimal(uid) + tail);
    var mid' := "-u" + (Decimal(uid') + tail');
    var full, full' := Decimal(run) + mid, Decimal(run) + mid';
    assert full == ("b" + full)[1..] && full' == ("b" + full')[1..];
    DigitsThenRest(Decimal(run), Decimal(run), mid, mid');
    assert Decimal(uid) + tail == mid[2..] && Decimal(uid') + tail' == mid'[2..];
    DigitsThenRest(Decimal(uid), Decimal(uid'), tail, tail');
    assert Decimal(logical) == tail[2..] && Decimal(logical') == tail'[2..];
    DecimalInjective(uid, uid');
    DecimalInjective(logical, logical');
  }

  function PowerOfTen(d: nat): nat {
    if d == 0 then 1 else 10 * PowerOfTen(d - 1)
  }

  lemma {:induction false} DecimalLength(n: nat, d: nat)
    requires n < PowerOfTen(d) && d > 0
    ensures |Decimal(n)| <= d
  {
    if n >= 10 {
      DecimalLength(n / 10, d - 1);
    }
  }

  /** With 64-bit runs and users an id fits the limit of 64 characters up to ten digits of sends. */
  lemma ClientIdFits(run: nat, uid: nat, logical: nat)
    requires run < 0x1_0000_0000_0000_0000 && uid < 0x1_0000_0000_0000_0000 && logical < 10_000_000_000
    ensures |ClientId(run, uid, logical)| <= 64
  {
    assert PowerOfTen(20) == 100_000_000_000_000_000_000 && PowerOfTen(10) == 10_000_000_000;
    DecimalLength(run, 20);
    DecimalLength(uid, 20);
    DecimalLength(logical, 10);
  }
}
