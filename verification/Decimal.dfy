/**
  Printing a scaled 64-bit column: the digits of the stored integer with a decimal
  point put in front of the last `scale` of them. The text is built back to front,
  digit by digit, and reversed.
 */
module Decimal {

  import opened Common

  predicate AllDigits(s: string) {
    forall k :: 0 <= k < |s| ==> IsDigit(s[k])
  }

  function Power10(k: nat): (p: nat)
    ensures p > 0
  {
    if k == 0 then 1 else 10 * Power10(k - 1)
  }

  function DigitValue(c: char): (d: nat)
    requires IsDigit(c)
    ensures d < 10
  {
    (c - '0') as int
  }

  /** The number a digit string spells; nothing spells 0. */
  function Val(s: string): nat
    requires AllDigits(s)
  {
    if s == "" then 0 else 10 * Val(s[..|s| - 1]) + DigitValue(s[|s| - 1])
  }

  function Digit(d: nat): (c: char)
    requires d < 10
    ensures IsDigit(c) && DigitValue(c) == d
  {
    '0' + d as char
  }

  /** The text of a natural number without leading zeros. */
  function Digits(n: nat): (s: string)
    ensures s != "" && AllDigits(s) && Val(s) == n
    ensures s[0] == '0' ==> n == 0 && |s| == 1
  {
    if n < 10 then [Digit(n)] else
      var s := Digits(n / 10) + [Digit(n % 10)];
      assert s[..|s| - 1] == Digits(n / 10);
      s
  }

  /** What the C format "%ld" gives. */
  function LongText(data: int): string {
    if data < 0 then "-" + Digits(-data) else Digits(data)
  }

  function Magnitude(data: int): nat {
    if data < 0 then -data else data
  }

  function Sign(data: int): string {
    if data < 0 then "-" else ""
  }

  // ---------------------------------------------------------------- the written form

  /** How many digits follow the point: a negative scale asks for none. */
  function Places(scale: int): nat {
    if scale < 0 then 0 else scale
  }

  function Zeros(k: nat): (s: string)
    ensures |s| == k && AllDigits(s)
  {
    seq(k, _ => '0')
  }

  /** The digits in front of the point, of a number whose digits are d. */
  function Whole(d: string, places: nat): string {
    if |d| <= places then "" else d[..|d| - places]
  }

  /** The digits after the point. */
  function Fraction(d: string, places: nat): (s: string)
    ensures |s| == places
  {
    if |d| <= places then Zeros(places - |d|) + d else d[|d| - places..]
  }

  function Written(data: int, scale: int): string {
    var d := Digits(Magnitude(data));
    if scale == 0 then LongText(data)
    else Sign(data) + Whole(d, Places(scale)) + "." + Fraction(d, Places(scale))
  }

  // ---------------------------------------------------------------- what it spells

  lemma ValSnoc(s: string, c: char)
    requires AllDigits(s) && IsDigit(c)
    ensures AllDigits(s + [c]) && Val(s + [c]) == 10 * Val(s) + DigitValue(c)
  {
    assert (s + [c])[..|s|] == s;
  }

  lemma Shifted(v: int, p: int, w: int, c: int)
    ensures 10 * (v * p + w) + c == v * (10 * p) + (10 * w + c)
  {
    assert 10 * (v * p) == v * (10 * p);
  }

  lemma {:induction false} ValJoin(a: string, b: string)
    requires AllDigits(a) && AllDigits(b)
    ensures AllDigits(a + b)
    ensures Val(a + b) == Val(a) * Power10(|b|) + Val(b)
  {
    hide DigitValue;
    if b == "" {
      assert a + b == a;
    } else {
      var front, c := b[..|b| - 1], b[|b| - 1];
      ValJoin(a, front);
      ValSnoc(a + front, c);
      assert a + b == (a + front) + [c];
      ValSnoc(front, c);
      assert b == front + [c];
      assert Power10(|b|) == 10 * Power10(|front|);
      Shifted(Val(a), Power10(|front|), Val(front), DigitValue(c));
    }
  }

  lemma {:induction false} ValZeros(k: nat)
    ensures Val(Zeros(k)) == 0
  {
    if k > 0 {
      ValZeros(k - 1);
      assert Zeros(k)[..k - 1] == Zeros(k - 1);
    }
  }

  lemma {:induction false} ValBound(s: string)
    requires AllDigits(s)
    ensures Val(s) < Power10(|s|)
  {
    if s != "" {
      ValBound(s[..|s| - 1]);
    }
  }

  lemma {:induction false} ValNonzero(s: string)
    requires AllDigits(s) && s != "" && s[0] != '0'
    ensures Val(s) > 0
  {
    if |s| > 1 {
      ValNonzero(s[..|s| - 1]);
    }
  }

  /** The digits before and after the point spell the stored number exactly. */
  lemma SplitSpells(d: string, places: nat)
    requires AllDigits(d)
    ensures AllDigits(Whole(d, places)) && AllDigits(Fraction(d, places))
    ensures Val(Whole(d, places)) * Power10(places) + Val(Fraction(d, places)) == Val(d)
  {
    hide Val, Power10;
    if |d| <= places {
      ValNothing();
      ValZeros(places - |d|);
      ValJoin(Zeros(places - |d|), d);
    } else {
      ValJoin(d[..|d| - places], d[|d| - places..]);
      assert d == d[..|d| - places] + d[|d| - places..];
    }
  }

  lemma SmallMultiple(k: int, m: int)
    requires -m < k * m < m
    ensures k == 0
  {
  }

  lemma QuotientUnique(q: nat, r: nat, m: nat)
    requires r < m
    ensures (q * m + r) / m == q && (q * m + r) % m == r
  {
    var a := q * m + r;
    Distribute(q, a / m, m);
    SmallMultiple(q - a / m, m);
  }

  lemma Distribute(q: int, p: int, m: int)
    ensures (q - p) * m == q * m - p * m
  {
  }

  /** For every scale but 0 the text is the sign, the whole part of |data| / 10^places
      without leading zeros, a point and the remainder in exactly `places` digits. */
  lemma ExactRendering(data: int, scale: int) returns (whole: string, fraction: string)
    requires scale != 0
    ensures AllDigits(whole) && AllDigits(fraction)
    ensures Written(data, scale) == Sign(data) + whole + "." + fraction
    ensures |fraction| == Places(scale)
    ensures Val(whole) * Power10(Places(scale)) + Val(fraction) == Magnitude(data)
    ensures Val(whole) == Magnitude(data) / Power10(Places(scale))
    ensures Val(fraction) == Magnitude(data) % Power10(Places(scale))
    ensures whole != "" && whole[0] == '0' ==> data == 0 && scale < 0
  {
    var places := Places(scale);
    var d := Digits(Magnitude(data));
    whole, fraction := Whole(d, places), Fraction(d, places);
    SplitSpells(d, places);
    ValBound(fraction);
    QuotientUnique(Val(whole), Val(fraction), Power10(places));
  }

  /** A whole part of 0 is shown by no digit at all once there are places to show. */
  lemma NoWholeDigits(data: int, scale: int)
    requires scale > 0
    ensures Whole(Digits(Magnitude(data)), scale) == "" <==> Magnitude(data) < Power10(scale)
  {
    hide Digits, Power10, Val, Fraction;
    var d := Digits(Magnitude(data));
    var whole := Whole(d, scale);
    SplitSpells(d, scale);
    ValBound(Fraction(d, scale));
    if |d| <= scale {
      ValNothing();
    } else {
      assert whole[0] == d[0];
      ValNonzero(whole);
      AtLeast(Val(whole), Power10(scale));
    }
  }

  lemma ValNothing()
    ensures Val("") == 0
  {
  }

  lemma AtLeast(v: nat, p: nat)
    requires v > 0
    ensures v * p >= p
  {
  }

  // ---------------------------------------------------------------- reading it back

  /** The position of the first point, or the end of the text. */
  function Point(s: string): (k: nat)
    ensures k <= |s|
    ensures forall j :: 0 <= j < k ==> s[j] != '.'
    ensures k < |s| ==> s[k] == '.'
  {
    if s == "" || s[0] == '.' then 0 else 1 + Point(s[1..])
  }

  function DigitsOnly(s: string): (d: string)
    ensures AllDigits(d)
    ensures AllDigits(s) ==> d == s
  {
    if s == "" then "" else
      var rest := DigitsOnly(s[..|s| - 1]);
      if IsDigit(s[|s| - 1]) then rest + [s[|s| - 1]] else rest
  }

  /** The scaled integer a text stands for: its digits without the point, with its sign. */
  function ReadBack(s: string): int {
    if s != "" && s[0] == '-' then 0 - Unsigned(s[1..]) else Unsigned(s)
  }

  function Unsigned(s: string): nat {
    var k := Point(s);
    var after := if k < |s| then s[k + 1..] else "";
    Val(DigitsOnly(s[..k])) * Power10(|after|) + Val(DigitsOnly(after))
  }

  lemma PointAt(whole: string, fraction: string)
    requires AllDigits(whole)
    ensures Point(whole + "." + fraction) == |whole|
    ensures Point(whole) == |whole|
  {
    var s := whole + "." + fraction;
    assert s[|whole|] == '.';
    assert forall j :: 0 <= j < |whole| ==> s[j] == whole[j] && IsDigit(whole[j]);
    assert Point(s) >= |whole|;
  }

  /** Every stored integer is read back from its text, at every scale. */
  lemma RoundTrip(data: int, scale: int)
    ensures ReadBack(Written(data, scale)) == data
  {
    hide Val, Power10, Digits, LongText, Whole, Fraction, ReadBack;
    if scale == 0 {
      LongTextAt(data);
      PlainReadBack(data, Digits(Magnitude(data)));
    } else {
      var whole, fraction := ExactRendering(data, scale);
      PointedReadBack(data, whole, fraction);
    }
  }

  lemma PlainReadBack(data: int, d: string)
    requires d != "" && AllDigits(d) && Val(d) == Magnitude(data)
    ensures ReadBack(Sign(data) + d) == data
  {
    hide Unsigned, AllDigits, Val;
    var s := Sign(data) + d;
    UnsignedPlain(d);
    assert s[|Sign(data)|..] == d;
    FirstIsDigit(d);
  }

  lemma UnsignedPlain(d: string)
    requires AllDigits(d)
    ensures Unsigned(d) == Val(d)
  {
    hide Val, Power10, Point;
    PointAt(d, "");
    assert d[..|d|] == d;
    ValNothing();
    PowerNone();
  }

  lemma PowerNone()
    ensures Power10(0) == 1
  {
  }

  lemma PointedReadBack(data: int, whole: string, fraction: string)
    requires AllDigits(whole) && AllDigits(fraction)
    requires Val(whole) * Power10(|fraction|) + Val(fraction) == Magnitude(data)
    ensures ReadBack(Sign(data) + whole + "." + fraction) == data
  {
    hide Unsigned, AllDigits, Val, Power10;
    var s := Sign(data) + whole + "." + fraction;
    var body := whole + "." + fraction;
    UnsignedPointed(whole, fraction);
    assert s[|Sign(data)|..] == body;
    assert data >= 0 ==> s[0] != '-' by {
      if whole != "" {
        FirstIsDigit(whole);
      }
    }
  }

  lemma FirstIsDigit(s: string)
    requires AllDigits(s) && s != ""
    ensures IsDigit(s[0])
  {
  }

  lemma UnsignedPointed(whole: string, fraction: string)
    requires AllDigits(whole) && AllDigits(fraction)
    ensures Unsigned(whole + "." + fraction) == Val(whole) * Power10(|fraction|) + Val(fraction)
  {
    hide Val, Power10, Point;
    var s := whole + "." + fraction;
    PointAt(whole, fraction);
    assert s[..|whole|] == whole;
    assert s[|whole| + 1..] == fraction;
  }

  /** Two stored integers never print alike at one scale. */
  lemma Injective(a: int, b: int, scale: int)
    requires Written(a, scale) == Written(b, scale)
    ensures a == b
  {
    RoundTrip(a, scale);
    RoundTrip(b, scale);
  }

  /** Some columns as they are written. */
  lemma Samples()
    ensures Written(-305, 2) == "-3.05" && Written(305, 0) == "305" && Written(305, -1) == "305."
    ensures Written(-305, 3) == "-.305" && Written(305, 4) == ".0305"
  {
    hide Digits;
    SampleDigits();
    assert Zeros(1) == "0";
  }

  lemma SampleDigits()
    ensures Digits(305) == "305"
  {
    assert Digits(3) == "3";
    assert Digits(30) == Digits(3) + "0";
  }

  // ---------------------------------------------------------------- the printing loops

  function Reversed(s: string): (r: string)
    ensures |r| == |s|
  {
    if s == "" then "" else Reversed(s[1..]) + [s[0]]
  }

  lemma {:induction false} ReversedSnoc(s: string, c: char)
    ensures Reversed(s + [c]) == [c] + Reversed(s)
  {
    if s != "" {
      ReversedSnoc(s[1..], c);
      assert (s + [c])[1..] == s[1..] + [c];
    }
  }

  /** The text built so far, back to front, reads t. */
  predicate Holds(sbuf: string, t: string) {
    Reversed(sbuf) == t
  }

  lemma HoldsReversed(sbuf: string, t: string)
    requires Holds(sbuf, t)
    ensures Reversed(sbuf) == t
  {
  }

  lemma Append(sbuf: string, c: char, t: string)
    requires Holds(sbuf, t)
    ensures Holds(sbuf + [c], [c] + t)
  {
    ReversedSnoc(sbuf, c);
  }

  lemma AppendPlace(sbuf: string, c: char, d: string, x: nat)
    requires Holds(sbuf, Fraction(d, x))
    requires c == if x < |d| then d[|d| - 1 - x] else '0'
    ensures Holds(sbuf + [c], Fraction(d, x + 1))
  {
    hide Holds;
    Append(sbuf, c, Fraction(d, x));
    assert Fraction(d, x + 1) == [c] + Fraction(d, x);
  }

  /** The digits before the last `from`, from the right as far as `used`, then the rest. */
  function Digited(d: string, from: nat, used: nat, tail: string): string
    requires from <= used <= |d|
  {
    d[|d| - used..|d| - from] + tail
  }

  lemma AppendDigit(sbuf: string, c: char, d: string, from: nat, used: nat, tail: string)
    requires from <= used < |d| && c == d[|d| - 1 - used]
    requires Holds(sbuf, Digited(d, from, used, tail))
    ensures Holds(sbuf + [c], Digited(d, from, used + 1, tail))
  {
    hide Holds;
    Append(sbuf, c, Digited(d, from, used, tail));
    assert [c] + Digited(d, from, used, tail) == Digited(d, from, used + 1, tail);
  }

  lemma AppendPoint(sbuf: string, d: string, from: nat, places: nat)
    requires from <= |d|
    requires Holds(sbuf, Fraction(d, places))
    ensures Holds(sbuf + ['.'], Digited(d, from, from, ['.'] + Fraction(d, places)))
  {
    hide Holds;
    Append(sbuf, '.', Fraction(d, places));
    assert Digited(d, from, from, ['.'] + Fraction(d, places)) == ['.'] + Fraction(d, places);
  }

  lemma AppendSign(sbuf: string, data: int, t: string)
    requires Holds(sbuf, t)
    ensures data < 0 ==> Holds(sbuf + ['-'], Sign(data) + t)
    ensures data >= 0 ==> Holds(sbuf, Sign(data) + t)
  {
    hide Holds;
    Append(sbuf, '-', t);
    assert data >= 0 ==> Sign(data) + t == t;
  }

  lemma LongTextAt(data: int)
    ensures LongText(data) == Sign(data) + Digits(Magnitude(data))
    ensures forall k :: 0 <= k < |LongText(data)| ==> (LongText(data)[k] == '-' <==> k < |Sign(data)|)
  {
  }

  lemma WrittenPlain(data: int)
    ensures Written(data, 0) == LongText(data)
  {
  }

  lemma WrittenParts(data: int, scale: int, from: nat)
    requires scale != 0
    requires var d := Digits(Magnitude(data));
      from == if Places(scale) < |d| then Places(scale) else |d|
    ensures var d := Digits(Magnitude(data));
      Written(data, scale) == Sign(data) + Digited(d, from, |d|, ['.'] + Fraction(d, Places(scale)))
  {
    hide Digits, Fraction;
  }

  lemma NothingYet(d: string)
    ensures Holds("", Fraction(d, 0))
  {
    assert Fraction(d, 0) == "";
  }

  /** The text of a column's value, made by the two loops over the digit buffer. */
  method WriteColumn(data: int, scale: int) returns (text: string)
    ensures text == Written(data, scale)
  {
    hide Digits, Fraction, Digited, Holds, LongText, Written;
    if scale == 0 {
      WrittenPlain(data);
      return LongText(data);
    }
    var buf := LongText(data);
    LongTextAt(data);
    var len := |buf| - 1;
    var sbuf := "";
    var x := 0;
    ghost var d := Digits(Magnitude(data));
    ghost var used := 0;
    NothingYet(d);
    while x < scale
      invariant 0 <= x <= Places(scale)
      invariant used == (if x < |d| then x else |d|) && len == |buf| - 1 - used
      invariant Holds(sbuf, Fraction(d, x))
    {
      if len < 0 || buf[len] == '-' {
        AppendPlace(sbuf, '0', d, x);
        sbuf := sbuf + ['0'];
      } else {
        AppendPlace(sbuf, buf[len], d, x);
        sbuf := sbuf + [buf[len]];
        len := len - 1;
        used := used + 1;
      }
      x := x + 1;
    }
    ghost var from := used;
    ghost var tail := ['.'] + Fraction(d, x);
    AppendPoint(sbuf, d, from, x);
    sbuf := sbuf + ['.'];
    while len >= 0 && buf[len] != '-'
      invariant from <= used <= |d| && len == |buf| - 1 - used
      invariant Holds(sbuf, Digited(d, from, used, tail))
    {
      AppendDigit(sbuf, buf[len], d, from, used, tail);
      sbuf := sbuf + [buf[len]];
      len := len - 1;
      used := used + 1;
    }
    WrittenParts(data, scale, from);
    AppendSign(sbuf, data, Digited(d, from, used, tail));
    if data < 0 {
      sbuf := sbuf + ['-'];
    }
    HoldsReversed(sbuf, Written(data, scale));
    text := Reversed(sbuf);
  }
}
