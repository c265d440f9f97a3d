/** What `Number(text)` makes of a text without a dot, and what of it an octet of an address can be. */
module Numerals {
  import opened Frames
  import opened Text
  import TunnelId

  type Positive = n: nat | n > 0 witness 1

  function Pow2(n: nat): Positive {
    if n == 0 then 1 else 2 * Pow2(n - 1)
  }

  function Pow10(n: nat): Positive {
    if n == 0 then 1 else 10 * Pow10(n - 1)
  }

  // ---------------------------------------------------------------------------
  // Reading a numeric literal
  // ---------------------------------------------------------------------------

  /** The exact value read: num / den, negated if `negative`. */
  datatype Quantity = Quantity(negative: bool, num: nat, den: Positive)

  function Whole(n: nat): Quantity {
    Quantity(false, n, 1)
  }

  /** m * 10^x */
  function Scaled(negative: bool, m: nat, x: int): Quantity {
    if x >= 0 then Quantity(negative, m * Pow10(x), 1) else Quantity(negative, m, Pow10(-x))
  }

  /** A digit in any base; 16 for a character that is none. */
  function DigitIn(c: char): nat {
    if '0' <= c <= '9' then c as nat - '0' as nat
    else if 'a' <= c <= 'f' then c as nat - 'a' as nat + 10
    else if 'A' <= c <= 'F' then c as nat - 'A' as nat + 10
    else 16
  }

  predicate DigitsIn(s: string, base: nat) {
    s != "" && forall i :: 0 <= i < |s| ==> DigitIn(s[i]) < base
  }

  function ValueIn(s: string, base: nat): nat {
    if s == "" then 0 else base * ValueIn(s[..|s| - 1], base) + DigitIn(s[|s| - 1])
  }

  /** The base a prefix 0x, 0o or 0b announces, and 10 without one. */
  function Base(s: string): nat {
    if |s| < 2 || s[0] != '0' then 10
    else if s[1] == 'x' || s[1] == 'X' then 16
    else if s[1] == 'o' || s[1] == 'O' then 8
    else if s[1] == 'b' || s[1] == 'B' then 2
    else 10
  }

  predicate Signed(s: string) {
    s != "" && (s[0] == '+' || s[0] == '-')
  }

  function Unsigned(s: string): string {
    if Signed(s) then s[1..] else s
  }

  predicate Negative(s: string) {
    Signed(s) && s[0] == '-'
  }

  /** The position of the exponent indicator, or the end. */
  function ExponentAt(s: string): (i: nat)
    ensures i <= |s|
  {
    if s == "" || s[0] == 'e' || s[0] == 'E' then 0 else 1 + ExponentAt(s[1..])
  }

  function DecimalLiteral(s: string): Option<Quantity> {
    var u := Unsigned(s);
    var i := ExponentAt(u);
    if !IsDigits(u[..i]) then None
    else if i == |u| then Some(Quantity(Negative(s), Value(u), 1))
    else
      var x := u[i + 1..];
      if !IsDigits(Unsigned(x)) then None
      else
        var power: int := Value(Unsigned(x));
        Some(Scaled(Negative(s), Value(u[..i]), if Negative(x) then -power else power))
  }

  /** Number(text); None stands for NaN and the infinities. Blank text is zero, and only decimal literals take a sign. */
  function Number(text: string): Option<Quantity> {
    var t := TunnelId.Trim(text);
    if t == "" then Some(Whole(0))
    else if Base(t) == 10 then DecimalLiteral(t)
    else if DigitsIn(t[2..], Base(t)) then Some(Whole(ValueIn(t[2..], Base(t))))
    else None
  }

  // ---------------------------------------------------------------------------
  // The spellings read
  // ---------------------------------------------------------------------------

  const LOWER := "0123456789abcdef"
  const UPPER := "0123456789ABCDEF"

  /** The sixteen digits, in either case, and nothing else. */
  lemma DigitInIs(c: char, d: nat)
    ensures d < 16 ==> DigitIn(LOWER[d]) == d && DigitIn(UPPER[d]) == d
    ensures DigitIn(c) < 16 ==> c == LOWER[DigitIn(c)] || c == UPPER[DigitIn(c)]
  {
  }

  /** Each digit counts for its own place. */
  lemma PlacesAddUp(s: string, c: char, base: nat)
    ensures ValueIn([c], base) == DigitIn(c) && ValueIn(s + [c], base) == base * ValueIn(s, base) + DigitIn(c)
  {
    hide DigitIn;
    assert (s + [c])[..|s|] == s && [c][..0] == "";
  }

  /** Powers of ten. */
  lemma {:induction false} Pow10Is(a: nat, b: nat)
    ensures Pow10(1) == 10 && Pow10(a + b) == Pow10(a) * Pow10(b)
  {
    if a > 0 { Pow10Is(a - 1, b); }
  }

  /** The letter after the zero that announces a base. */
  predicate Announces(c: char, base: nat) {
    (base == 16 && c in {'x', 'X'}) || (base == 8 && c in {'o', 'O'}) || (base == 2 && c in {'b', 'B'})
  }

  ghost predicate SpellsBased(t: string, q: Quantity) {
    exists c, digits, base: nat :: t == "0" + [c] + digits && Announces(c, base) && IsBased(digits, base, q)
  }

  predicate IsBased(digits: string, base: nat, q: Quantity) {
    digits != "" && (forall i :: 0 <= i < |digits| ==> DigitIn(digits[i]) < base) && q == Whole(ValueIn(digits, base))
  }

  /** A sign or none, decimal digits, and an exponent or none. */
  ghost predicate SpellsDecimal(t: string, q: Quantity) {
    exists sign, m, tail :: t == sign + m + tail && IsSign(sign) && IsDigits(m) && SpellsExponent(tail, sign == "-", Value(m), q)
  }

  /** e or E, a sign or none, and the decimal digits of the power of ten. */
  ghost predicate SpellsExponent(tail: string, negative: bool, m: nat, q: Quantity) {
    || (tail == "" && q == Quantity(negative, m, 1))
    || exists e, sign, x :: tail == [e] + sign + x && e in {'e', 'E'} && IsSign(sign) && IsDigits(x) && TenTimes(sign, Value(x), negative, m, q)
  }

  predicate TenTimes(sign: string, x: nat, negative: bool, m: nat, q: Quantity) {
    q == if sign == "-" then Quantity(negative, m, Pow10(x)) else Quantity(negative, m * Pow10(x), 1)
  }

  /** With white space around it: nothing, a whole number in base 16, 8 or 2, or a decimal. */
  ghost predicate SpellsNumber(text: string, q: Quantity) {
    exists t :: TunnelId.TrimsTo(text, t) && ((t == "" && q == Whole(0)) || SpellsBased(t, q) || SpellsDecimal(t, q))
  }

  lemma {:induction false} ExponentIs(m: string, tail: string)
    requires (forall i :: 0 <= i < |m| ==> IsDigit(m[i])) && (tail != "" ==> tail[0] in {'e', 'E'})
    ensures ExponentAt(m + tail) == |m|
  {
    if m == "" {
      assert m + tail == tail;
    } else {
      ExponentIs(m[1..], tail);
      assert (m + tail)[1..] == m[1..] + tail;
    }
  }

  lemma {:induction false} ExponentStops(s: string)
    ensures ExponentAt(s) < |s| ==> s[ExponentAt(s)] in {'e', 'E'}
  {
    if s != "" && s[0] != 'e' && s[0] != 'E' { ExponentStops(s[1..]); }
  }

  /** The sign of a text, and what follows it. */
  lemma SignedIs(sign: string, u: string)
    requires IsSign(sign) && u != "" && u[0] != '+' && u[0] != '-'
    ensures Unsigned(sign + u) == u && (Negative(sign + u) <==> sign == "-")
  {
    assert sign != "" ==> (sign + u)[1..] == u;
    assert "" + u == u;
  }

  lemma SignOf(s: string) returns (sign: string)
    ensures IsSign(sign) && s == sign + Unsigned(s) && (Negative(s) <==> sign == "-")
  {
    sign := if Signed(s) then [s[0]] else "";
    assert Signed(s) ==> s == [s[0]] + s[1..];
  }

  /** A numeral that starts with a sign or a decimal digit, and goes on with digits or an exponent, announces no base. */
  lemma PlainBase(sign: string, m: string, tail: string)
    requires IsSign(sign) && IsDigits(m) && (tail != "" ==> tail[0] in {'e', 'E'})
    ensures var t := sign + m + tail; t != "" && Base(t) == 10
  {
    var t := sign + m + tail;
    assert sign != "" ==> t[0] == sign[0];
    assert sign == "" ==> t == m + tail;
    assert |t| >= 2 && sign == "" ==> t[1] == if |m| > 1 then m[1] else tail[0];
    assert |m| > 1 ==> IsDigit(m[1]);
  }

  /** What an exponent makes of the digits before it. */
  predicate Reads(tail: string, negative: bool, m: nat, q: Quantity) {
    if tail == "" then q == Quantity(negative, m, 1)
    else
      var x := tail[1..];
      IsDigits(Unsigned(x)) && var power: int := Value(Unsigned(x)); q == Scaled(negative, m, if Negative(x) then -power else power)
  }

  lemma LiteralIs(t: string, m: string, tail: string, q: Quantity)
    requires Unsigned(t) == m + tail && ExponentAt(m + tail) == |m|
    ensures DecimalLiteral(t) == Some(q) <==> IsDigits(m) && Reads(tail, Negative(t), Value(m), q)
  {
    hide Value, ExponentAt, Scaled, Unsigned, Negative;
    var u := m + tail;
    assert u[..|m|] == m;
    if tail == "" { assert u == m; } else { assert u[|m| + 1..] == tail[1..]; }
  }

  lemma ExponentReads(tail: string, negative: bool, m: nat, q: Quantity)
    requires SpellsExponent(tail, negative, m, q)
    ensures Reads(tail, negative, m, q) && (tail != "" ==> tail[0] in {'e', 'E'})
  {
    hide Value, Unsigned, Negative;
    if tail != "" {
      var e, sign, x :| tail == [e] + sign + x && e in {'e', 'E'} && IsSign(sign) && IsDigits(x) && TenTimes(sign, Value(x), negative, m, q);
      assert IsDigit(x[0]) && tail[1..] == sign + x;
      SignedIs(sign, x);
    }
  }

  lemma DecimalReads(t: string, q: Quantity)
    requires SpellsDecimal(t, q)
    ensures t != "" && Base(t) == 10 && DecimalLiteral(t) == Some(q)
  {
    hide Value, SpellsExponent, ExponentAt, Scaled, DecimalLiteral, Base, Unsigned, Negative, Reads, IsSign;
    var sign, m, tail :| t == sign + m + tail && IsSign(sign) && IsDigits(m) && SpellsExponent(tail, sign == "-", Value(m), q);
    ExponentReads(tail, sign == "-", Value(m), q);
    PlainBase(sign, m, tail);
    assert t == sign + (m + tail);
    assert (m + tail)[0] == m[0] && IsDigit(m[0]);
    SignedIs(sign, m + tail);
    ExponentIs(m, tail);
    LiteralIs(t, m, tail, q);
  }

  lemma ExponentSpelled(tail: string, negative: bool, m: nat, q: Quantity)
    requires Reads(tail, negative, m, q) && (tail != "" ==> tail[0] in {'e', 'E'})
    ensures SpellsExponent(tail, negative, m, q)
  {
    hide Value, Scaled, Unsigned, Negative, TenTimes;
    if tail != "" {
      var x := tail[1..];
      var power := SignOf(x);
      assert tail == [tail[0]] + power + Unsigned(x) by { assert tail == [tail[0]] + x; }
      PowerSpelled(power, Value(Unsigned(x)), Negative(x), negative, m, q);
    }
  }

  lemma DecimalSpelled(t: string, q: Quantity)
    requires DecimalLiteral(t) == Some(q)
    ensures SpellsDecimal(t, q)
  {
    hide Value, ExponentAt, DecimalLiteral, Unsigned, Negative, Reads, SpellsExponent, IsSign;
    var u := Unsigned(t);
    var i := ExponentAt(u);
    var sign := SignOf(t);
    var m, tail := u[..i], u[i..];
    assert u == m + tail;
    assert t == sign + m + tail;
    ExponentStops(u);
    LiteralIs(t, m, tail, q);
    ExponentSpelled(tail, sign == "-", Value(m), q);
  }

  lemma PowerSpelled(sign: string, x: nat, down: bool, negative: bool, m: nat, q: Quantity)
    requires (down <==> sign == "-") && q == Scaled(negative, m, if down then -(x as int) else x)
    ensures TenTimes(sign, x, negative, m, q)
  {
  }

  lemma BasedReads(t: string, q: Quantity)
    requires SpellsBased(t, q)
    ensures |t| >= 2 && Base(t) != 10 && DigitsIn(t[2..], Base(t)) && q == Whole(ValueIn(t[2..], Base(t)))
  {
    hide ValueIn, DigitIn;
    var c, digits, base: nat :| t == "0" + [c] + digits && Announces(c, base) && IsBased(digits, base, q);
    assert t[2..] == digits && Base(t) == base;
  }

  lemma BasedSpelled(t: string, q: Quantity)
    requires t != "" && Base(t) != 10 && DigitsIn(t[2..], Base(t)) && q == Whole(ValueIn(t[2..], Base(t)))
    ensures SpellsBased(t, q)
  {
    hide ValueIn, DigitIn;
    assert t == "0" + [t[1]] + t[2..] && Announces(t[1], Base(t)) && IsBased(t[2..], Base(t), q);
  }

  /** Number reads exactly the numerals so spelled, as their exact values. */
  lemma NumberIff(text: string, q: Quantity)
    ensures Number(text) == Some(q) <==> SpellsNumber(text, q)
  {
    hide SpellsBased, SpellsDecimal, DecimalLiteral, Base, DigitsIn, ValueIn, TunnelId.Trim, TunnelId.TrimsTo;
    TunnelId.TrimIs(text);
    var t := TunnelId.Trim(text);
    if Number(text) == Some(q) {
      if t != "" {
        if Base(t) == 10 { DecimalSpelled(t, q); } else { BasedSpelled(t, q); }
      }
    }
    if SpellsNumber(text, q) {
      var core :| TunnelId.TrimsTo(text, core) && ((core == "" && q == Whole(0)) || SpellsBased(core, q) || SpellsDecimal(core, q));
      TunnelId.TrimUnique(text, core, t);
      if SpellsBased(core, q) { BasedReads(core, q); }
      if SpellsDecimal(core, q) { DecimalReads(core, q); }
    }
  }

  // ---------------------------------------------------------------------------
  // Rounding to a double
  // ---------------------------------------------------------------------------

  /** The nearest whole number, ties to even. */
  function HalfEven(num: nat, den: Positive): nat {
    var q, r := num / den, num % den;
    if 2 * r < den || (2 * r == den && q % 2 == 0) then q else q + 1
  }

  /**
   * How many binary places a double has after the point at num / den < 2^k: 53 significant bits in all. Below 1
   * the grid of [1/2, 1) is as good as any finer one to tell whether the value rounds up to 1.
   */
  function Places(num: nat, den: Positive, k: nat): (places: nat)
    requires k <= 53
    ensures places >= 53 - k
  {
    if k == 0 then 53 else if num >= Pow2(k - 1) * den then 53 - k else Places(num, den, k - 1)
  }

  type OctetValue = n: nat | n <= 255 witness 0

  /** Half the smallest positive double is 2^-1075. */
  const UNDERFLOW: nat := 1075

  /** What the shifts make of a double in units of its last place, if it is not over 255. */
  function Truncated(d: nat, unit: Positive): Option<OctetValue> {
    Quotients(d, unit);
    if d > 255 * unit then None else Some(d / unit)
  }

  /** A value this small rounds to zero; with a sign, that is minus zero, which is not below zero. */
  predicate Vanishes(q: Quantity) {
    q.num * Pow2(UNDERFLOW) <= q.den
  }

  /** The octet a number stands for: its double must lie in 0..255, and the shifts truncate it. */
  function OctetOf(q: Quantity): Option<OctetValue> {
    if q.negative then if Vanishes(q) then Some(0) else None
    else if q.num >= 256 * q.den then None
    else
      var unit := Pow2(Places(q.num, q.den, 8));
      Truncated(HalfEven(q.num * unit, q.den), unit)
  }

  // ---------------------------------------------------------------------------
  // What that comes to
  // ---------------------------------------------------------------------------

  lemma MulMono(a: int, b: int, c: nat)
    requires a <= b
    ensures a * c <= b * c
  {
    assert b * c == a * c + (b - a) * c;
  }

  lemma Quotients(d: nat, unit: Positive)
    ensures d <= 255 * unit ==> d / unit <= 255
  {
  }

  /** Rounding moves a value by half a unit at most. */
  lemma HalfEvenNear(num: nat, den: Positive)
    ensures var d := HalfEven(num, den); 2 * d * den <= 2 * num + den && 2 * num <= 2 * d * den + den
  {
    var q, r := num / den, num % den;
    assert num == q * den + r;
    assert (q + 1) * den == q * den + den;
  }

  /** It stays at or below an even number exactly if the value is not past the middle above it. */
  lemma HalfEvenAtMost(num: nat, den: Positive, top: nat)
    requires top % 2 == 0
    ensures HalfEven(num, den) <= top <==> 2 * num <= (2 * top + 1) * den
  {
    var q, r := num / den, num % den;
    var low, middle := q * den, top * den;
    assert num == low + r;
    assert (2 * top + 1) * den == 2 * middle + den;
    if q < top {
      MulMono(q + 1, top, den);
      assert (q + 1) * den == low + den;
    } else if q > top {
      MulMono(top + 1, q, den);
      assert (top + 1) * den == middle + den;
    }
  }

  lemma Exact(n: nat, unit: Positive)
    ensures HalfEven(n * unit, 1) == n * unit && n * unit / unit == n
  {
  }

  lemma WholeOctet(n: nat)
    ensures OctetOf(Whole(n)) == if n <= 255 then Some(n) else None
  {
    hide Pow2, Places, HalfEven;
    if n <= 255 {
      var unit := Pow2(Places(n, 1, 8));
      MulMono(n, 255, unit);
      Exact(n, unit);
    }
  }

  /** The unit of the doubles in [128, 256), and its half. */
  lemma Units()
    ensures Pow2(7) == 128 && Pow2(46) == 2 * Pow2(45) && Pow2(45) % 2 == 0 && Pow2(46) > 1
  {
    assert Pow2(45) == 2 * Pow2(44);
    assert Pow2(3) == 8;
  }

  predicate NearRange(q: Quantity) {
    q.num * Pow2(46) <= (255 * Pow2(46) + 1) * q.den
  }

  lemma AboveRange(q: Quantity)
    requires q.num >= 256 * q.den
    ensures !NearRange(q)
  {
    hide Pow2;
    Units();
    var half, den := Pow2(46), q.den;
    MulMono(256 * den, q.num, half);
    assert 256 * den * half == 256 * (den * half) && (255 * half + 1) * den == 255 * (den * half) + den;
    MulMono(2, half, den);
  }

  lemma UpperHalf(q: Quantity)
    requires 128 * q.den <= q.num < 256 * q.den && !q.negative
    ensures OctetOf(q).Some? <==> NearRange(q)
  {
    hide Pow2, HalfEven;
    Units();
    var unit := Pow2(45);
    HalfEvenAtMost(q.num * unit, q.den, 255 * unit);
    assert 2 * (q.num * unit) == q.num * (2 * unit);
  }

  lemma LowerHalf(q: Quantity)
    requires q.num < 128 * q.den && !q.negative
    ensures OctetOf(q).Some? && NearRange(q)
  {
    hide Pow2, HalfEven;
    Units();
    var unit, half := Pow2(Places(q.num, q.den, 8)), Pow2(46);
    MulMono(q.num, 128 * q.den, unit);
    assert 128 * q.den * unit == 128 * unit * q.den;
    assert (2 * (128 * unit) + 1) * q.den == 2 * (128 * unit * q.den) + q.den;
    HalfEvenAtMost(q.num * unit, q.den, 128 * unit);
    MulMono(q.num, 128 * q.den, half);
    assert 128 * q.den * half == 128 * (half * q.den) && (255 * half + 1) * q.den == 255 * (half * q.den) + q.den;
  }

  /** Without a sign, the value must not be over 255 by more than half the distance of doubles there, 2^-45. */
  lemma OctetInRange(q: Quantity)
    requires !q.negative
    ensures OctetOf(q).Some? <==> NearRange(q)
  {
    hide NearRange;
    if q.num >= 256 * q.den {
      AboveRange(q);
    } else if q.num >= 128 * q.den {
      hide OctetOf;
      UpperHalf(q);
    } else {
      hide OctetOf;
      LowerHalf(q);
    }
  }

  lemma {:induction false} Pow2Grows(a: nat, b: nat)
    requires a <= b
    ensures Pow2(a) <= Pow2(b)
  {
    if a < b { Pow2Grows(a, b - 1); }
  }

  /** n is the integer part of num / den, up to half a unit below. */
  predicate Truncates(num: nat, den: Positive, unit: Positive, n: nat) {
    num < (n + 1) * den && 2 * unit * (n * den - num) <= den
  }

  lemma Swap(a: int, b: int, c: int)
    ensures a * b * c == a * c * b
  {
  }

  lemma NotOver(num: nat, den: Positive, unit: Positive, d: nat, n: nat)
    requires d + 1 <= (n + 1) * unit && 2 * (num * unit) <= 2 * (d * den) + den
    ensures num < (n + 1) * den
  {
    var next := (n + 1) * den;
    MulMono(d + 1, (n + 1) * unit, den);
    Swap(n + 1, unit, den);
    assert (d + 1) * den == d * den + den;
    if num >= next { MulMono(next, num, unit); }
  }

  lemma NotFarUnder(num: nat, den: Positive, unit: Positive, d: nat, n: nat)
    requires n * unit <= d && 2 * (d * den) <= 2 * (num * unit) + den
    ensures 2 * unit * (n * den - num) <= den
  {
    var whole := n * den;
    MulMono(n * unit, d, den);
    Swap(n, unit, den);
    assert 2 * unit * (whole - num) == 2 * (whole * unit) - 2 * (num * unit);
  }

  lemma QuotientTruncates(num: nat, den: Positive, unit: Positive)
    ensures Truncates(num, den, unit, HalfEven(num * unit, den) / unit)
  {
    hide HalfEven;
    var d := HalfEven(num * unit, den);
    var n := d / unit;
    HalfEvenNear(num * unit, den);
    assert d == n * unit + d % unit;
    assert (n + 1) * unit == n * unit + unit;
    assert 2 * d * den == 2 * (d * den);
    NotOver(num, den, unit, d, n);
    NotFarUnder(num, den, unit, d, n);
  }

  lemma {:induction false} PlacesEnough(num: nat, den: Positive, k: nat, top: nat)
    requires k <= top <= 53 && num < Pow2(k) * den
    ensures Places(num, den, top) >= 53 - k
  {
    if k < top {
      Pow2Grows(k, top - 1);
      MulMono(Pow2(k), Pow2(top - 1), den);
      PlacesEnough(num, den, k, top - 1);
    }
  }

  lemma Coarser(num: nat, den: Positive, unit: Positive, coarse: Positive, n: nat)
    requires coarse <= unit && Truncates(num, den, unit, n)
    ensures Truncates(num, den, coarse, n)
  {
    if n * den > num { MulMono(2 * coarse, 2 * unit, n * den - num); }
  }

  lemma OctetIs(q: Quantity, n: nat)
    requires !q.negative && OctetOf(q) == Some(n)
    ensures var unit := Pow2(Places(q.num, q.den, 8)); n == HalfEven(q.num * unit, q.den) / unit
  {
    hide Pow2, HalfEven, Places;
  }

  /**
   * The octet of a value below 2^k is its integer part, or that of a value less than 2^(k-54) above it, which is as
   * far as rounding goes there.
   */
  lemma OctetTruncates(q: Quantity, k: nat, n: nat)
    requires !q.negative && k <= 8 && q.num < Pow2(k) * q.den && OctetOf(q) == Some(n)
    ensures Truncates(q.num, q.den, Pow2(53 - k), n)
  {
    hide Pow2, HalfEven, Truncates, Places;
    var unit := Pow2(Places(q.num, q.den, 8));
    QuotientTruncates(q.num, q.den, unit);
    OctetIs(q, n);
    PlacesEnough(q.num, q.den, k, 8);
    Pow2Grows(53 - k, Places(q.num, q.den, 8));
    Coarser(q.num, q.den, unit, Pow2(53 - k), n);
  }

  /** A value with a minus sign is out of range, unless it is so small that its double is minus zero. */
  lemma NegativeOctet(q: Quantity)
    requires q.negative
    ensures OctetOf(q).Some? <==> q.num == 0 || q.num * Pow2(1075) <= q.den
    ensures OctetOf(q).Some? ==> OctetOf(q) == Some(0)
  {
    hide Pow2;
  }

  // ---------------------------------------------------------------------------
  // Plain spellings
  // ---------------------------------------------------------------------------

  lemma {:induction false} NoExponent(s: string)
    requires forall i :: 0 <= i < |s| ==> IsDigit(s[i])
    ensures ExponentAt(s) == |s|
  {
    if s != "" { NoExponent(s[1..]); }
  }

  /** Decimal digits, leading zeros included, are their value. */
  lemma DigitsAreNumber(s: string)
    requires IsDigits(s)
    ensures Number(s) == Some(Whole(Value(s)))
  {
    hide Value;
    DigitsPlain(s);
    NoExponent(s);
    assert s[..|s|] == s;
    assert |s| >= 2 ==> IsDigit(s[1]);
    assert IsDigit(s[0]);
  }

  /** A numeral starts with white space, a sign or a digit. */
  lemma NotNumber(s: string)
    requires s != "" && !TunnelId.IsSpace(s[0]) && !IsDigit(s[0]) && !Signed(s)
    ensures Number(s).None?
  {
    TrimKeepsStart(s);
    var t := TunnelId.Trim(s);
    var i := ExponentAt(t);
    if i > 0 { assert t[..i][0] == t[0]; }
  }

  lemma TrimKeepsStart(s: string)
    requires s != "" && !TunnelId.IsSpace(s[0])
    ensures TunnelId.Trim(s) != "" && TunnelId.Trim(s)[0] == s[0]
  {
    assert TunnelId.TrimStart(s) == s;
    TrimEndKeepsStart(s);
    TunnelId.TrimEndOk(s);
  }

  lemma {:induction false} TrimEndKeepsStart(s: string)
    requires s != "" && !TunnelId.IsSpace(s[0])
    ensures TunnelId.TrimEnd(s) != ""
  {
    if |s| > 1 && TunnelId.IsSpace(s[|s| - 1]) { TrimEndKeepsStart(s[..|s| - 1]); }
  }
}
