/** Share tickets: a payload in hexadecimal, a dot, and its signature. */
module Ticket {
  import opened Basics

  datatype Result<T> = Ok(value: T) | Err(error: Error)
  datatype Error = TooLong | NoSeparator | BadHex | BadSignature

  const DIGITS: string := "0123456789abcdef"

  /** The value of a hexadecimal digit; capital letters are not digits here. */
  function Nibble(c: char): int {
    if '0' <= c <= '9' then c as int - '0' as int
    else if 'a' <= c <= 'f' then c as int - 'a' as int + 10
    else -1
  }

  lemma NibbleInverts(d: nat, c: char)
    requires d < 16
    ensures Nibble(c) == d <==> c == DIGITS[d]
    ensures DIGITS[d] != '.'
  {
  }

  function HexOf(bytes: Bytes): string {
    if bytes == [] then []
    else HexOf(bytes[..|bytes| - 1]) + [DIGITS[bytes[|bytes| - 1] / 16], DIGITS[bytes[|bytes| - 1] % 16]]
  }

  /** The character code of a digit: `0` to `9`, then `a` to `f`. */
  function DigitCode(d: nat): nat {
    if d < 10 then 48 + d else 87 + d
  }

  /** Each byte is printed as the codes of its high and its low half, in this order. */
  lemma {:induction false} HexCodes(bytes: Bytes, k: nat)
    requires k < |bytes|
    ensures |HexOf(bytes)| == 2 * |bytes|
    ensures HexOf(bytes)[2 * k] as int == DigitCode(bytes[k] / 16)
    ensures HexOf(bytes)[2 * k + 1] as int == DigitCode(bytes[k] % 16)
  {
    hide HexOf, DigitCode, IsHex;
    var n := |bytes| - 1;
    HexShape(bytes);
    HexShape(bytes[..n]);
    HexLast(bytes);
    if k < n {
      HexCodes(bytes[..n], k);
      assert HexOf(bytes)[2 * k] == HexOf(bytes[..n])[2 * k] && HexOf(bytes)[2 * k + 1] == HexOf(bytes[..n])[2 * k + 1];
    }
  }

  lemma HexLast(bytes: Bytes)
    requires bytes != [] && |HexOf(bytes)| == 2 * |bytes| && |HexOf(bytes[..|bytes| - 1])| == 2 * |bytes| - 2
    ensures var n, s := |bytes| - 1, HexOf(bytes);
            && s[..2 * n] == HexOf(bytes[..n])
            && s[2 * n] as int == DigitCode(bytes[n] / 16) && s[2 * n + 1] as int == DigitCode(bytes[n] % 16)
  {
    var n := |bytes| - 1;
    DigitIs(bytes[n] / 16);
    DigitIs(bytes[n] % 16);
    hide DigitCode;
  }

  lemma DigitIs(d: nat)
    requires d < 16
    ensures DIGITS[d] as int == DigitCode(d)
  {
  }

  method Hex(bytes: Bytes) returns (out: string)
    ensures out == HexOf(bytes)
    ensures |out| == 2 * |bytes|
    ensures forall k :: 0 <= k < |bytes| ==>
      out[2 * k] as int == DigitCode(bytes[k] / 16) && out[2 * k + 1] as int == DigitCode(bytes[k] % 16)
  {
    out := "";
    for i := 0 to |bytes|
      invariant out == HexOf(bytes[..i])
    {
      assert bytes[..i + 1][..i] == bytes[..i];
      out := out + [DIGITS[bytes[i] / 16]];
      out := out + [DIGITS[bytes[i] % 16]];
    }
    assert bytes[..|bytes|] == bytes;
    HexShape(bytes);
    forall k | 0 <= k < |bytes|
      ensures out[2 * k] as int == DigitCode(bytes[k] / 16) && out[2 * k + 1] as int == DigitCode(bytes[k] % 16)
    {
      HexCodes(bytes, k);
    }
  }

  predicate IsHex(s: string) {
    |s| % 2 == 0 && forall k :: 0 <= k < |s| ==> Nibble(s[k]) >= 0
  }

  lemma NibbleRange(c: char)
    ensures -1 <= Nibble(c) < 16
  {
  }

  lemma Halves(high: nat, low: nat)
    requires low < 16
    ensures (high * 16 + low) / 16 == high && (high * 16 + low) % 16 == low
  {
  }

  lemma EmptyHex()
    ensures HexOf([]) == ""
  {
  }

  lemma HexAppend(out: Bytes, high: char, low: char)
    requires 0 <= Nibble(high) < 16 && 0 <= Nibble(low) < 16
    ensures HexOf(out + [Nibble(high) * 16 + Nibble(low)]) == HexOf(out) + [high, low]
  {
    hide Nibble, HexOf;
    NibbleInverts(Nibble(high), high);
    NibbleInverts(Nibble(low), low);
    HexPair(out, Nibble(high), Nibble(low));
  }

  lemma HexPair(out: Bytes, h: nat, l: nat)
    requires h < 16 && l < 16
    ensures HexOf(out + [h * 16 + l]) == HexOf(out) + [DIGITS[h], DIGITS[l]]
  {
    hide HexOf;
    Halves(h, l);
    HexStep(out, h * 16 + l);
  }

  lemma HexStep(out: Bytes, b: Byte)
    ensures HexOf(out + [b]) == HexOf(out) + [DIGITS[b / 16], DIGITS[b % 16]]
  {
    assert (out + [b])[..|out|] == out;
  }

  /** Reads back exactly what `Hex` writes and refuses everything else. */
  method Unhex(s: string) returns (r: Result<Bytes>)
    ensures r.Ok? <==> IsHex(s)
    ensures r.Ok? ==> HexOf(r.value) == s
    ensures r.Err? ==> r.error == BadHex
  {
    hide Nibble, HexOf;
    if |s| % 2 != 0 { return Err(BadHex); }
    EmptyHex();
    var out: Bytes := [];
    var i := 0;
    while i < |s|
      invariant 0 <= i <= |s| && i % 2 == 0
      invariant HexOf(out) == s[..i]
      invariant forall k :: 0 <= k < i ==> Nibble(s[k]) >= 0
    {
      var high, low := Nibble(s[i]), Nibble(s[i + 1]);
      NibbleRange(s[i]);
      NibbleRange(s[i + 1]);
      if high < 0 || low < 0 { return Err(BadHex); }
      var b: Byte := high * 16 + low;
      HexAppend(out, s[i], s[i + 1]);
      assert s[..i + 2] == s[..i] + [s[i], s[i + 1]];
      out := out + [b];
      i := i + 2;
    }
    assert s[..|s|] == s;
    return Ok(out);
  }

  lemma {:induction false} HexShape(bytes: Bytes)
    ensures |HexOf(bytes)| == 2 * |bytes| && IsHex(HexOf(bytes))
    ensures '.' !in HexOf(bytes)
  {
    if bytes != [] {
      var last := bytes[|bytes| - 1];
      HexShape(bytes[..|bytes| - 1]);
      NibbleInverts(last / 16, DIGITS[last / 16]);
      NibbleInverts(last % 16, DIGITS[last % 16]);
    }
  }

  lemma HexSplit(a: Bytes)
    requires a != []
    ensures var s := HexOf(a);
            && |s| == 2 * |a| && s[..|s| - 2] == HexOf(a[..|a| - 1])
            && a[|a| - 1] == Nibble(s[|s| - 2]) * 16 + Nibble(s[|s| - 1])
  {
    HexShape(a);
    HexShape(a[..|a| - 1]);
    var last := a[|a| - 1];
    NibbleInverts(last / 16, DIGITS[last / 16]);
    NibbleInverts(last % 16, DIGITS[last % 16]);
    hide Nibble;
  }

  /** Different byte strings are written differently. */
  lemma {:induction false} HexInjective(a: Bytes, b: Bytes)
    requires HexOf(a) == HexOf(b)
    ensures a == b
  {
    HexShape(a);
    HexShape(b);
    hide HexOf, Nibble;
    if a != [] {
      HexSplit(a);
      HexSplit(b);
      HexInjective(a[..|a| - 1], b[..|b| - 1]);
      assert a == a[..|a| - 1] + [a[|a| - 1]] && b == b[..|b| - 1] + [b[|b| - 1]];
    }
  }

  /** The place of the first dot, or the length if there is none. */
  method Find(s: string) returns (p: nat)
    ensures p <= |s| && '.' !in s[..p] && (p < |s| ==> s[p] == '.')
  {
    p := 0;
    while p < |s| && s[p] != '.'
      invariant 0 <= p <= |s| && '.' !in s[..p]
    {
      assert s[..p + 1] == s[..p] + [s[p]];
      p := p + 1;
    }
  }

  /** The ticket of a payload under a signature function. */
  ghost function TicketOf(payload: Bytes, signature: Bytes -> string): string {
    HexOf(payload) + "." + signature(payload)
  }

  method MakeTicket(payload: Bytes, signature: Bytes -> string) returns (value: string)
    ensures value == TicketOf(payload, signature)
  {
    var hex := Hex(payload);
    value := hex + "." + signature(payload);
  }

  /** The first dot of a ticket is the one after the payload: no hexadecimal digit is a dot. */
  lemma DotPlace(h: string, rest: string, p: nat)
    requires '.' !in h && p < |h| + 1 + |rest|
    requires var s := h + "." + rest; s[p] == '.' && '.' !in s[..p]
    ensures p == |h|
  {
    var s := h + "." + rest;
    assert s[|h|] == '.';
    assert forall k :: 0 <= k < |h| ==> s[k] == h[k] && h[k] in h;
    assert forall k :: 0 <= k < p ==> s[..p][k] == s[k] && s[k] in s[..p];
  }

  lemma SplitTicket(value: string, p: nat, payload: Bytes, signature: Bytes -> string)
    requires p < |value| && value[p] == '.' && '.' !in value[..p]
    ensures value == TicketOf(payload, signature) <==> value[..p] == HexOf(payload) && value[p + 1..] == signature(payload)
  {
    HexShape(payload);
    assert value == value[..p] + "." + value[p + 1..];
    if value == TicketOf(payload, signature) {
      DotPlace(HexOf(payload), signature(payload), p);
    }
  }

  lemma TicketHasDot(value: string, payload: Bytes, signature: Bytes -> string)
    requires value == TicketOf(payload, signature)
    ensures '.' in value
  {
    assert value[|HexOf(payload)|] == '.';
  }

  /**
   * A ticket passes if and only if it is the ticket of some payload and not too long, and then that
   * payload, and no other, is recovered.
   */
  method Verify(value: string, signature: Bytes -> string) returns (r: Result<Bytes>)
    ensures forall payload: Bytes :: r == Ok(payload) <==> |value| <= 4096 && value == TicketOf(payload, signature)
    ensures r == Err(TooLong) <==> |value| > 4096
    ensures r == Err(NoSeparator) <==> |value| <= 4096 && '.' !in value
  {
    if |value| > 4096 { return Err(TooLong); }
    var p := Find(value);
    if p == |value| {
      assert value[..p] == value;
      forall payload: Bytes
        ensures value != TicketOf(payload, signature)
      {
        if value == TicketOf(payload, signature) { TicketHasDot(value, payload, signature); }
      }
      return Err(NoSeparator);
    }
    forall payload: Bytes
      ensures value == TicketOf(payload, signature) <==> value[..p] == HexOf(payload) && value[p + 1..] == signature(payload)
    {
      SplitTicket(value, p, payload, signature);
    }
    var payload := Unhex(value[..p]);
    if payload.Err? {
      forall other: Bytes
        ensures value[..p] != HexOf(other)
      {
        HexShape(other);
      }
      return Err(BadHex);
    }
    forall other: Bytes | value[..p] == HexOf(other)
      ensures other == payload.value
    {
      HexInjective(other, payload.value);
    }
    if signature(payload.value) != value[p + 1..] { return Err(BadSignature); }
    return payload;
  }
}
