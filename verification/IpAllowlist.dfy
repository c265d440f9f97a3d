/** The IPv4 allowlist: CIDR matching with shifts, ors and masks, and what it means. */
module IpAllowlist {
  import opened Frames
  import opened Numerals
  import opened Text
  import TunnelId

  // ---------------------------------------------------------------------------
  // 32-bit operations on unsigned integers
  // ---------------------------------------------------------------------------

  const WORD: nat := 0x1_0000_0000

  function BitAnd(a: nat, b: nat): nat {
    if a == 0 || b == 0 then 0 else 2 * BitAnd(a / 2, b / 2) + (a % 2) * (b % 2)
  }

  function BitOr(a: nat, b: nat): nat {
    if a == 0 && b == 0 then 0 else 2 * BitOr(a / 2, b / 2) + (if a % 2 == 1 || b % 2 == 1 then 1 else 0)
  }

  /** `(a << n) >>> 0` */
  function ShiftLeft(a: nat, n: nat): nat {
    a * Pow2(n) % WORD
  }

  // ---------------------------------------------------------------------------
  // Parsing addresses
  // ---------------------------------------------------------------------------

  /** Number(part), as the range check and the shifts see it. */
  function Octet(part: string): Option<OctetValue> {
    var n := Number(part);
    if n.None? then None else OctetOf(n.value)
  }

  datatype Quad = Quad(a: OctetValue, b: OctetValue, c: OctetValue, d: OctetValue)

  /** The four octets of a dotted address. */
  function Octets(ip: string): Option<Quad> {
    var parts := Split(ip, '.');
    if |parts| != 4 then None
    else
      var a, b, c, d := Octet(parts[0]), Octet(parts[1]), Octet(parts[2]), Octet(parts[3]);
      if a.Some? && b.Some? && c.Some? && d.Some? then Some(Quad(a.value, b.value, c.value, d.value)) else None
  }

  /** The octets put together by shifts and ors. */
  function Assemble(o: Quad): nat {
    BitOr(BitOr(BitOr(ShiftLeft(o.a, 24), ShiftLeft(o.b, 16)), ShiftLeft(o.c, 8)), o.d)
  }

  function IpToInt(ip: string): Option<nat> {
    var o := Octets(ip);
    if o.None? then None else Some(Assemble(o.value))
  }

  function LeadingDigits(s: string): (d: string)
    ensures forall i :: 0 <= i < |d| ==> IsDigit(d[i])
  {
    if s != "" && IsDigit(s[0]) then [s[0]] + LeadingDigits(s[1..]) else ""
  }

  /** Number.parseInt(s, 10); None stands for NaN. */
  function ParseInt(s: string): Option<int> {
    var t := TunnelId.TrimStart(s);
    var signed := t != "" && (t[0] == '+' || t[0] == '-');
    var d := LeadingDigits(if signed then t[1..] else t);
    if d == "" then None else Some(if signed && t[0] == '-' then 0 - Value(d) else Value(d))
  }

  /** normalizeIp: the prefix of an IPv4-mapped address is dropped. */
  function NormalizeIp(addr: string): string {
    if |addr| >= 7 && addr[..7] == "::ffff:" then addr[7..] else addr
  }

  // ---------------------------------------------------------------------------
  // Matching
  // ---------------------------------------------------------------------------

  /** The mask of a prefix length: ~0 << (32 - bits), and 0 for length 0. */
  function Mask(bits: nat): nat
    requires bits <= 32
  {
    if bits == 0 then 0 else ShiftLeft(WORD - 1, 32 - bits)
  }

  predicate Masked(ip: nat, range: nat, bits: nat)
    requires bits <= 32
  {
    BitAnd(ip, Mask(bits)) == BitAnd(range, Mask(bits))
  }

  predicate MatchCidr(ip: string, cidr: string) {
    if '/' !in cidr then ip == cidr
    else
      var parts := Split(cidr, '/');
      var bits := if |parts| > 1 then ParseInt(parts[1]) else None;
      if bits.None? || bits.value < 0 || bits.value > 32 then false
      else
        var x, r := IpToInt(ip), IpToInt(parts[0]);
        x.Some? && r.Some? && Masked(x.value, r.value, bits.value)
  }

  predicate IsIpAllowed(addr: string, allowlist: seq<string>) {
    allowlist == [] || exists i :: 0 <= i < |allowlist| && MatchCidr(NormalizeIp(addr), allowlist[i])
  }

  /** isValidIpOrCidr, applied to the configuration before it is used. */
  predicate IsValidIpOrCidr(entry: string) {
    if entry == "" then false
    else if '/' !in entry then IpToInt(entry).Some?
    else
      var parts := Split(entry, '/');
      var bits := if |parts| > 1 then ParseInt(parts[1]) else None;
      bits.Some? && 0 <= bits.value <= 32 && IpToInt(parts[0]).Some?
  }

  // ---------------------------------------------------------------------------
  // What the bit operations compute
  // ---------------------------------------------------------------------------

  /** Or-ing numbers that share no bits adds them. */
  lemma {:induction false} OrAdds(a: nat, j: nat, b: nat)
    requires b < Pow2(j)
    ensures BitOr(a * Pow2(j), b) == a * Pow2(j) + b
  {
    if j == 0 {
      OrZero(a);
    } else {
      var p := a * Pow2(j);
      assert p == 2 * (a * Pow2(j - 1));
      assert p / 2 == a * Pow2(j - 1) && p % 2 == 0;
      OrAdds(a, j - 1, b / 2);
    }
  }

  lemma {:induction false} OrZero(a: nat)
    ensures BitOr(a, 0) == a
  {
    if a > 0 { OrZero(a / 2); }
  }

  lemma Powers()
    ensures Pow2(8) == 0x100 && Pow2(16) == 0x1_0000 && Pow2(24) == 0x100_0000 && Pow2(32) == WORD
  {
    assert Pow2(4) == 16 by { assert Pow2(2) == 4; }
    hide Pow2;
    PowAdd(4, 4);
    PowAdd(8, 8);
    PowAdd(16, 8);
    PowAdd(16, 16);
  }

  lemma {:induction false} PowAdd(m: nat, n: nat)
    ensures Pow2(m + n) == Pow2(m) * Pow2(n)
  {
    if m > 0 {
      PowAdd(m - 1, n);
      assert Pow2(m + n) == 2 * Pow2(m - 1 + n);
    }
  }

  /** The assembled word is the positional value of the octets. */
  lemma AssembleIsPositional(o: Quad)
    ensures Assemble(o) == o.a * 0x100_0000 + o.b * 0x1_0000 + o.c * 0x100 + o.d < WORD
  {
    hide BitOr, Pow2;
    Powers();
    var high := o.a * 0x100_0000;
    OrAdds(o.a, 24, o.b * 0x1_0000);
    OrAdds(o.a * 0x100 + o.b, 16, o.c * 0x100);
    OrAdds((o.a * 0x100 + o.b) * 0x100 + o.c, 8, o.d);
    assert (o.a * 0x100 + o.b) * 0x1_0000 == high + o.b * 0x1_0000;
    assert ((o.a * 0x100 + o.b) * 0x100 + o.c) * 0x100 == high + o.b * 0x1_0000 + o.c * 0x100;
  }

  lemma {:induction false} AndOnes(x: nat, w: nat)
    requires x < Pow2(w)
    ensures BitAnd(x, Pow2(w) - 1) == x
  {
    if w > 0 {
      assert (Pow2(w) - 1) / 2 == Pow2(w - 1) - 1 && (Pow2(w) - 1) % 2 == 1;
      AndOnes(x / 2, w - 1);
    }
  }

  lemma {:induction false} PowGrows(k: nat, w: nat)
    requires k <= w
    ensures Pow2(k) <= Pow2(w)
  {
    if k < w { PowGrows(k, w - 1); }
  }

  lemma AndEven(x: nat, h: nat)
    ensures BitAnd(x, 2 * h) == 2 * BitAnd(x / 2, h)
  {
    if x == 0 || h == 0 {
    } else {
      var b := 2 * h;
      assert b / 2 == h && b % 2 == 0;
    }
  }

  /** And-ing with a block of ones from bit k to bit w clears the bits below k. */
  lemma {:induction false} AndClears(x: nat, w: nat, k: nat)
    requires k <= w && x < Pow2(w)
    ensures Pow2(k) <= Pow2(w) && BitAnd(x, Pow2(w) - Pow2(k)) == x - x % Pow2(k)
  {
    hide BitAnd;
    PowGrows(k, w);
    if k == 0 {
      AndOnes(x, w);
    } else {
      AndClears(x / 2, w - 1, k - 1);
      AndEven(x, Pow2(w - 1) - Pow2(k - 1));
      HalfMod(x, Pow2(k - 1));
    }
  }

  lemma HalfMod(x: nat, p: nat)
    requires p > 0
    ensures x % (2 * p) == 2 * (x / 2 % p) + x % 2
  {
    var q, r := x / 2 / p, x / 2 % p;
    assert x / 2 == q * p + r;
    assert x == q * (2 * p) + (2 * r + x % 2);
    DivUnique(x, 2 * p, q, 2 * r + x % 2);
  }

  lemma MulGap(a: int, b: int, c: nat)
    ensures a < b ==> (a + 1) * c <= b * c
  {
    if a < b {
      assert b * c == (a + 1) * c + (b - a - 1) * c;
    }
  }

  lemma DivUnique(x: nat, d: nat, q: nat, r: nat)
    requires d > 0 && x == q * d + r && r < d
    ensures x / d == q && x % d == r
  {
    assert x == x / d * d + x % d;
    MulGap(x / d, q, d);
    MulGap(q, x / d, d);
  }

  /** Shifting 2^32 - 1 left by a power s that divides 2^32 leaves 2^32 - s. */
  lemma ShiftedOnes(s: nat)
    requires 0 < s <= WORD
    ensures (WORD - 1) * s % WORD == WORD - s
  {
    assert (WORD - 1) * s == (s - 1) * WORD + (WORD - s);
    DivUnique((WORD - 1) * s, WORD, s - 1, WORD - s);
  }

  lemma MaskIsOnes(bits: nat)
    requires bits <= 32
    ensures Pow2(32) == WORD && Pow2(32 - bits) <= WORD && Mask(bits) == WORD - Pow2(32 - bits)
  {
    hide Pow2;
    Powers();
    PowGrows(32 - bits, 32);
    if bits > 0 {
      ShiftedOnes(Pow2(32 - bits));
    }
  }

  /** The block of addresses a prefix names: `size` addresses from an aligned start. */
  function BlockSize(bits: nat): (size: nat)
    requires bits <= 32
    ensures size > 0
  {
    Pow2(32 - bits)
  }

  lemma ModAtMost(x: nat, d: nat)
    requires d > 0
    ensures x % d <= x
  {
    if x < d {
    } else {
    }
  }

  function BlockStart(range: nat, bits: nat): nat
    requires bits <= 32
  {
    ModAtMost(range, BlockSize(bits));
    range - range % BlockSize(bits)
  }

  predicate InBlock(ip: nat, range: nat, bits: nat)
    requires bits <= 32
  {
    BlockStart(range, bits) <= ip < BlockStart(range, bits) + BlockSize(bits)
  }

  /** The mask test is membership in the block (section 3.1 of RFC 4632). */
  lemma MaskedIsBlock(ip: nat, range: nat, bits: nat)
    requires bits <= 32 && ip < WORD && range < WORD
    ensures Masked(ip, range, bits) <==> InBlock(ip, range, bits)
  {
    hide BitAnd, Mask, Pow2;
    MaskIsOnes(bits);
    AndClears(ip, 32, 32 - bits);
    AndClears(range, 32, 32 - bits);
    SameBlock(ip, range, BlockSize(bits));
  }

  lemma SameBlock(x: nat, y: nat, size: nat)
    requires size > 0
    ensures x - x % size == y - y % size <==> y - y % size <= x < y - y % size + size
  {
    var lo := y - y % size;
    assert y == y / size * size + y % size;
    if lo <= x < lo + size {
      assert x == y / size * size + (x - lo);
      DivUnique(x, size, y / size, x - lo);
    }
  }

  /** The block is aligned, and holds the address that names it. */
  lemma BlockIsAligned(range: nat, bits: nat)
    requires bits <= 32
    ensures BlockStart(range, bits) % BlockSize(bits) == 0 && InBlock(range, range, bits)
  {
    var size := BlockSize(bits);
    assert range == range / size * size + range % size;
    DivUnique(BlockStart(range, bits), size, range / size, 0);
  }

  /** Shortening a prefix only enlarges the accepted set. */
  lemma ShorterIsLarger(ip: nat, range: nat, bits: nat, shorter: nat)
    requires shorter <= bits <= 32 && ip < WORD && range < WORD && Masked(ip, range, bits)
    ensures Masked(ip, range, shorter)
  {
    hide BitAnd, Mask, Pow2;
    MaskIsOnes(bits);
    MaskIsOnes(shorter);
    AndClears(ip, 32, 32 - bits);
    AndClears(range, 32, 32 - bits);
    AndClears(ip, 32, 32 - shorter);
    AndClears(range, 32, 32 - shorter);
    PowAdd(bits - shorter, 32 - bits);
    BlocksNest(ip, range, Pow2(32 - bits), Pow2(bits - shorter));
  }

  lemma BlocksNest(x: nat, y: nat, size: nat, f: nat)
    requires size > 0 && f > 0 && x - x % size == y - y % size
    ensures f * size > 0 && x - x % (f * size) == y - y % (f * size)
  {
    Quotient(x, size);
    Quotient(y, size);
    MulGap(x / size, y / size, size);
    MulGap(y / size, x / size, size);
    Outer(x, size, f);
    Outer(y, size, f);
  }

  lemma Quotient(x: nat, d: nat)
    requires d > 0
    ensures x == x / d * d + x % d
  {
  }

  lemma Outer(x: nat, size: nat, f: nat)
    requires size > 0 && f > 0
    ensures f * size > 0 && x - x % (f * size) == x / size / f * (f * size)
  {
    var q := x / size;
    var d, a, b := f * size, q / f, q % f;
    Quotient(x, size);
    Quotient(q, f);
    MulGap(b, f, size);
    Distribute(a, f, b, size);
    DivUnique(x, d, a, b * size + x % size);
  }

  lemma Distribute(a: nat, f: nat, b: nat, size: nat)
    ensures (a * f + b) * size == a * (f * size) + b * size
  {
  }

  // ---------------------------------------------------------------------------
  // What parseInt reads
  // ---------------------------------------------------------------------------

  /** White space, a sign or none, the digits of the value, and then anything that is no digit. */
  ghost predicate SpellsInt(s: string, v: int) {
    exists blank, sign, digits, rest ::
      s == blank + sign + digits + rest && (forall c :: c in blank ==> TunnelId.IsSpace(c)) && IsSign(sign) && IsInt(sign, digits, rest, v)
  }

  predicate IsInt(sign: string, digits: string, rest: string, v: int) {
    IsDigits(digits) && (rest != "" ==> !IsDigit(rest[0])) && v == if sign == "-" then 0 - Value(digits) else Value(digits)
  }

  lemma {:induction false} LeadingDigitsAre(digits: string, rest: string)
    requires (forall i :: 0 <= i < |digits| ==> IsDigit(digits[i])) && (rest != "" ==> !IsDigit(rest[0]))
    ensures LeadingDigits(digits + rest) == digits
  {
    if digits == "" {
      assert digits + rest == rest;
    } else {
      LeadingDigitsAre(digits[1..], rest);
      assert (digits + rest)[1..] == digits[1..] + rest && digits == [digits[0]] + digits[1..];
    }
  }

  lemma {:induction false} LeadingDigitsLead(s: string)
    ensures var d := LeadingDigits(s); |d| <= |s| && s == d + s[|d|..] && (|d| < |s| ==> !IsDigit(s[|d|]))
  {
    if s != "" && IsDigit(s[0]) {
      LeadingDigitsLead(s[1..]);
      var d := LeadingDigits(s[1..]);
      assert s[1..][|d|..] == s[|d| + 1..] && s == [s[0]] + s[1..];
    }
  }

  lemma {:induction false} TrimStartDrops(blank: string, s: string)
    requires (forall c :: c in blank ==> TunnelId.IsSpace(c)) && s != "" && !TunnelId.IsSpace(s[0])
    ensures TunnelId.TrimStart(blank + s) == s
  {
    if blank == "" {
      assert blank + s == s;
    } else {
      TrimStartDrops(blank[1..], s);
      assert blank[0] in blank && (blank + s)[1..] == blank[1..] + s;
    }
  }

  /** The sign of a text, if it starts with one. */
  function SignOf(t: string): (sign: string)
    ensures IsSign(sign) && |sign| <= |t| && t[..|sign|] == sign
  {
    if t != "" && (t[0] == '+' || t[0] == '-') then [t[0]] else ""
  }

  /** The sign of a text that has one before its digits, or none. */
  lemma SignIs(sign: string, digits: string, rest: string)
    requires IsSign(sign) && IsDigits(digits)
    ensures var t := sign + digits + rest; SignOf(t) == sign && t[|sign|..] == digits + rest
  {
    var t := sign + digits + rest;
    assert t[0] == if sign == "" then digits[0] else sign[0];
  }

  /** Number.parseInt reads exactly the integers so spelled. */
  lemma ParseIntIff(s: string, v: int)
    ensures ParseInt(s) == Some(v) <==> SpellsInt(s, v)
  {
    hide ParseInt, SpellsInt;
    if ParseInt(s) == Some(v) { ParseIntSpelled(s, v); }
    if SpellsInt(s, v) { SpelledIntParses(s, v); }
  }

  lemma ParseIntOf(s: string)
    ensures var t := TunnelId.TrimStart(s); var sign := SignOf(t); var d := LeadingDigits(t[|sign|..]);
            ParseInt(s) == if d == "" then None else Some(if sign == "-" then 0 - Value(d) else Value(d))
  {
    hide LeadingDigits, Value, TunnelId.TrimStart;
    var t := TunnelId.TrimStart(s);
    assert t[|""|..] == t;
  }

  lemma SpelledIntParses(s: string, v: int)
    requires SpellsInt(s, v)
    ensures ParseInt(s) == Some(v)
  {
    hide LeadingDigits, Value, TunnelId.TrimStart, TunnelId.IsSpace, ParseInt, SignOf;
    var blank, sign, digits, rest :|
      s == blank + sign + digits + rest && (forall c :: c in blank ==> TunnelId.IsSpace(c)) && IsSign(sign) && IsInt(sign, digits, rest, v);
    var t := sign + digits + rest;
    assert s == blank + t && t[0] == if sign == "" then digits[0] else sign[0];
    assert !TunnelId.IsSpace(t[0]) by { NoSpace(t[0]); }
    TrimStartDrops(blank, t);
    SignIs(sign, digits, rest);
    LeadingDigitsAre(digits, rest);
    ParseIntOf(s);
  }

  lemma NoSpace(c: char)
    ensures IsDigit(c) || c == '+' || c == '-' ==> !TunnelId.IsSpace(c)
  {
  }

  /** The white space trimmed off the front. */
  lemma Blank(s: string) returns (blank: string)
    ensures s == blank + TunnelId.TrimStart(s) && forall c :: c in blank ==> TunnelId.IsSpace(c)
  {
    hide TunnelId.IsSpace;
    TunnelId.TrimStartIs(s);
    var i :| 0 <= i <= |s| && TunnelId.TrimStart(s) == s[i..] && forall k :: 0 <= k < i ==> TunnelId.IsSpace(s[k]);
    blank := s[..i];
  }

  /** Sign, digits and the rest of a text that parses. */
  lemma Parts(t: string, v: int) returns (sign: string, digits: string, rest: string)
    requires var d := LeadingDigits(t[|SignOf(t)|..]); d != "" && v == if SignOf(t) == "-" then 0 - Value(d) else Value(d)
    ensures t == sign + digits + rest && IsSign(sign) && IsInt(sign, digits, rest, v)
  {
    hide LeadingDigits, Value;
    sign := SignOf(t);
    var u := t[|sign|..];
    digits := LeadingDigits(u);
    LeadingDigitsLead(u);
    rest := u[|digits|..];
    assert t == sign + u;
  }

  lemma ParseIntSpelled(s: string, v: int)
    requires ParseInt(s) == Some(v)
    ensures SpellsInt(s, v)
  {
    hide LeadingDigits, Value, TunnelId.TrimStart, TunnelId.IsSpace, ParseInt, SignOf, IsInt, IsSign;
    ParseIntOf(s);
    var blank := Blank(s);
    var sign, digits, rest := Parts(TunnelId.TrimStart(s), v);
    assert s == blank + sign + digits + rest;
  }

  /** The address meant: an IPv4-mapped one stands for the IPv4 address in it, any other for itself. */
  lemma NormalizeIpIff(addr: string, ip: string)
    ensures NormalizeIp("::ffff:" + addr) == addr
    ensures !("::ffff:" <= addr) ==> NormalizeIp(addr) == addr
    ensures NormalizeIp(addr) == ip <==> addr == "::ffff:" + ip || (addr == ip && !("::ffff:" <= addr))
  {
    assert ("::ffff:" + addr)[..7] == "::ffff:" && ("::ffff:" + addr)[7..] == addr;
    if "::ffff:" <= addr { assert addr == "::ffff:" + addr[7..] && addr[..7] == "::ffff:"; }
    if addr == "::ffff:" + ip { assert addr[7..] == ip; }
  }

  // ---------------------------------------------------------------------------
  // What the allowlist means
  // ---------------------------------------------------------------------------

  /** The value of a dotted address. */
  function Address(ip: string): Option<nat> {
    var o := Octets(ip);
    if o.None? then None
    else Some(o.value.a * 0x100_0000 + o.value.b * 0x1_0000 + o.value.c * 0x100 + o.value.d)
  }

  /** An address in dotted decimal notation. */
  function Dotted(o: Quad): string {
    Join([Numeral(o.a), Numeral(o.b), Numeral(o.c), Numeral(o.d)], '.')
  }

  lemma NumeralOctet(n: OctetValue)
    ensures Octet(Numeral(n)) == Some(n)
  {
    hide Numeral, Number, OctetOf;
    DigitsAreNumber(Numeral(n));
    NumeralValue(n);
    WholeOctet(n);
  }

  /** The usual spelling of four octets is the address they make up. */
  lemma DottedAddress(o: Quad)
    ensures Octets(Dotted(o)) == Some(o)
    ensures IpToInt(Dotted(o)) == Some(o.a * 0x100_0000 + o.b * 0x1_0000 + o.c * 0x100 + o.d)
  {
    hide Assemble, Numeral, Octet;
    var parts := [Numeral(o.a), Numeral(o.b), Numeral(o.c), Numeral(o.d)];
    forall i | 0 <= i < 4 ensures '.' !in parts[i] {
      assert IsDigits(parts[i]);
    }
    SplitJoin(parts, '.');
    NumeralOctet(o.a);
    NumeralOctet(o.b);
    NumeralOctet(o.c);
    NumeralOctet(o.d);
    AssembleIsPositional(o);
  }

  lemma AddressIsInt(ip: string)
    ensures Address(ip) == IpToInt(ip)
    ensures Address(ip).Some? ==> Address(ip).value < WORD
  {
    hide Assemble, Octets;
    var o := Octets(ip);
    if o.Some? { AssembleIsPositional(o.value); }
  }

  /** The text spells a prefix length, and the address lies in the block it makes of the range. */
  ghost predicate Prefixed(text: string, range: nat, bits: nat, ip: nat) {
    bits <= 32 && SpellsInt(text, bits) && InBlock(ip, range, bits)
  }

  /** Whether a configured entry covers an address: an exact spelling, or a block it lies in. */
  ghost predicate Covers(entry: string, ip: string) {
    if '/' !in entry then ip == entry
    else
      var parts := Split(entry, '/');
      && |parts| > 1 && Address(ip).Some? && Address(parts[0]).Some?
      && exists bits: nat :: Prefixed(parts[1], Address(parts[0]).value, bits, Address(ip).value)
  }

  lemma PrefixedIff(text: string, range: nat, ip: nat)
    requires ip < WORD && range < WORD
    ensures var v := ParseInt(text);
            (exists bits: nat :: Prefixed(text, range, bits, ip)) <==> v.Some? && 0 <= v.value <= 32 && Masked(ip, range, v.value)
  {
    hide Masked, InBlock, ParseInt, SpellsInt;
    var v := ParseInt(text);
    forall bits: nat ensures SpellsInt(text, bits) <==> v == Some(bits) { ParseIntIff(text, bits); }
    if v.Some? && 0 <= v.value <= 32 {
      MaskedIsBlock(ip, range, v.value);
      assert Prefixed(text, range, v.value, ip) <==> Masked(ip, range, v.value);
    }
  }

  lemma MatchIsCover(ip: string, entry: string)
    ensures MatchCidr(ip, entry) <==> Covers(entry, ip)
  {
    hide IpToInt, Address, Masked, InBlock, ParseInt, Split, SpellsInt;
    if '/' in entry {
      var parts := Split(entry, '/');
      AddressIsInt(ip);
      AddressIsInt(parts[0]);
      if |parts| > 1 && Address(ip).Some? && Address(parts[0]).Some? { PrefixedIff(parts[1], Address(parts[0]).value, Address(ip).value); }
    }
  }

  /** An address is let in exactly when the list is empty or an entry covers it, IPv4-mapped spellings included. */
  lemma AllowedIff(addr: string, allowlist: seq<string>)
    ensures IsIpAllowed(addr, allowlist) <==>
            allowlist == [] || exists i :: 0 <= i < |allowlist| && Covers(allowlist[i], NormalizeIp(addr))
  {
    hide MatchCidr, Covers;
    forall i | 0 <= i < |allowlist| ensures MatchCidr(NormalizeIp(addr), allowlist[i]) <==> Covers(allowlist[i], NormalizeIp(addr)) {
      MatchIsCover(NormalizeIp(addr), allowlist[i]);
    }
  }

  /** The IPv4-mapped spelling of an address (section 2.5.5.2 of RFC 4291) is treated as the address itself. */
  lemma MappedSpelling(v4: string, allowlist: seq<string>)
    requires Address(v4).Some?
    ensures IsIpAllowed("::ffff:" + v4, allowlist) == IsIpAllowed(v4, allowlist)
  {
    var mapped := "::ffff:" + v4;
    assert mapped[..7] == "::ffff:" && mapped[7..] == v4;
    NotMapped(v4);
  }

  lemma NotMapped(v4: string)
    requires Address(v4).Some?
    ensures NormalizeIp(v4) == v4
  {
    hide Octets;
    if |v4| >= 7 && v4[..7] == "::ffff:" {
      assert v4[0] == v4[..7][0] == ':';
      FirstPart(v4);
    }
  }

  /** A text that starts with a colon has a first part that is no number. */
  lemma FirstPart(s: string)
    requires s != "" && s[0] == ':'
    ensures Octets(s).None?
  {
    var parts := Split(s, '.');
    var first := parts[0];
    assert first != "" && first[0] == ':';
    assert !TunnelId.IsSpace(':');
    NotNumber(first);
  }

  /**
   * The configuration check accepts exactly the entries that can match something: an address, or a block of at
   * least the address that names it.
   */
  lemma ValidEntryIff(entry: string)
    ensures '/' !in entry ==> (IsValidIpOrCidr(entry) <==> Address(entry).Some?)
    ensures '/' in entry ==> (IsValidIpOrCidr(entry) <==> exists ip :: Covers(entry, ip))
    ensures IsValidIpOrCidr(entry) ==> Covers(entry, Split(entry, '/')[0])
  {
    hide Octets, Assemble, InBlock, ParseInt, SpellsInt, Covers;
    AddressIsInt(entry);
    var parts := Split(entry, '/');
    if '/' !in entry {
      SplitNone(entry, '/');
      NoAddress();
    } else {
      AddressIsInt(parts[0]);
      if IsValidIpOrCidr(entry) { NamesItself(entry); }
      if exists ip :: Covers(entry, ip) {
        var ip :| Covers(entry, ip);
        CoversValid(entry, ip);
      }
    }
    if '/' !in entry { assert Covers(entry, entry) by { SameCovers(entry); } }
  }

  lemma SameCovers(entry: string)
    requires '/' !in entry
    ensures Covers(entry, entry)
  {
  }

  lemma NoAddress()
    ensures Address("").None?
  {
    assert Split("", '.') == [""];
  }

  lemma NamesItself(entry: string)
    requires IsValidIpOrCidr(entry) && '/' in entry
    ensures Covers(entry, Split(entry, '/')[0])
  {
    hide Octets, Assemble, InBlock, ParseInt, SpellsInt;
    var parts := Split(entry, '/');
    AddressIsInt(parts[0]);
    var bits := ParseInt(parts[1]).value;
    BlockIsAligned(Address(parts[0]).value, bits);
    ParseIntIff(parts[1], bits);
    assert Prefixed(parts[1], Address(parts[0]).value, bits, Address(parts[0]).value);
  }

  lemma CoversValid(entry: string, ip: string)
    requires '/' in entry && Covers(entry, ip)
    ensures IsValidIpOrCidr(entry)
  {
    hide Octets, Assemble, InBlock, ParseInt, SpellsInt;
    var parts := Split(entry, '/');
    AddressIsInt(parts[0]);
    var bits: nat :| Prefixed(parts[1], Address(parts[0]).value, bits, Address(ip).value);
    ParseIntIff(parts[1], bits);
  }
}
