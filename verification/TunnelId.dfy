/** normalizeTunnelId: trimming and the tunnel id grammar. */
module TunnelId {
  import opened Frames

  /** The characters String.prototype.trim removes. */
  predicate IsSpace(c: char) {
    || '\U{0009}' <= c <= '\U{000D}'
    || c in {' ', '\U{00A0}', '\U{1680}', '\U{2028}', '\U{2029}', '\U{202F}', '\U{205F}', '\U{3000}', '\U{FEFF}'}
    || '\U{2000}' <= c <= '\U{200A}'
  }

  function TrimStart(s: string): string {
    if s != [] && IsSpace(s[0]) then TrimStart(s[1..]) else s
  }

  function TrimEnd(s: string): string {
    if s != [] && IsSpace(s[|s| - 1]) then TrimEnd(s[..|s| - 1]) else s
  }

  function Trim(s: string): string {
    TrimEnd(TrimStart(s))
  }

  lemma {:induction false} TrimStartOk(s: string)
    ensures var r := TrimStart(s); r != [] ==> !IsSpace(r[0])
  {
    if s != [] { TrimStartOk(s[1..]); }
  }

  lemma {:induction false} TrimEndOk(s: string)
    ensures var r := TrimEnd(s); r != [] ==> !IsSpace(r[|r| - 1]) && s != [] && r[0] == s[0]
  {
    if s != [] { TrimEndOk(s[..|s| - 1]); }
  }

  /** Neither end of a trimmed string is white space, and such a string is left alone. */
  lemma TrimOk(s: string)
    ensures var r := Trim(s); r != [] ==> !IsSpace(r[0]) && !IsSpace(r[|r| - 1])
    ensures s != [] && !IsSpace(s[0]) && !IsSpace(s[|s| - 1]) ==> Trim(s) == s
  {
    TrimStartOk(s);
    TrimEndOk(TrimStart(s));
  }

  predicate IsAlphanumeric(c: char) {
    'A' <= c <= 'Z' || 'a' <= c <= 'z' || '0' <= c <= '9'
  }

  /** The tunnel id grammar: 1 to 64 characters, the first a letter or digit. */
  predicate IsTunnelId(s: string) {
    && 1 <= |s| <= 64
    && IsAlphanumeric(s[0])
    && forall i :: 0 <= i < |s| ==> IsAlphanumeric(s[i]) || s[i] in {'.', '_', '-'}
  }

  /** The letters and digits, one by one. */
  predicate LetterOrDigit(c: char) {
    || c in {'A', 'B', 'C', 'D', 'E', 'F', 'G', 'H', 'I', 'J', 'K', 'L', 'M', 'N', 'O', 'P', 'Q', 'R', 'S', 'T', 'U', 'V', 'W', 'X', 'Y', 'Z'}
    || c in {'a', 'b', 'c', 'd', 'e', 'f', 'g', 'h', 'i', 'j', 'k', 'l', 'm', 'n', 'o', 'p', 'q', 'r', 's', 't', 'u', 'v', 'w', 'x', 'y', 'z'}
    || c in {'0', '1', '2', '3', '4', '5', '6', '7', '8', '9'}
  }

  /** White space and line terminators, one by one (sections 12.2 and 12.3 of ECMA-262). */
  predicate WhiteSpace(c: char) {
    || c in {'\U{0009}', '\U{000A}', '\U{000B}', '\U{000C}', '\U{000D}', '\U{0020}', '\U{00A0}', '\U{1680}'}
    || c in {'\U{2000}', '\U{2001}', '\U{2002}', '\U{2003}', '\U{2004}', '\U{2005}', '\U{2006}', '\U{2007}', '\U{2008}'}
    || c in {'\U{2009}', '\U{200A}', '\U{2028}', '\U{2029}', '\U{202F}', '\U{205F}', '\U{3000}', '\U{FEFF}'}
  }

  lemma IsSpaceIff(c: char)
    ensures IsSpace(c) <==> WhiteSpace(c)
  {
  }

  lemma IsAlphanumericIff(c: char)
    ensures IsAlphanumeric(c) <==> LetterOrDigit(c)
  {
  }

  /** An id is a letter or digit followed by at most 63 letters, digits, dots, underscores and hyphens. */
  lemma IsTunnelIdIff(first: char, rest: string)
    ensures !IsTunnelId("")
    ensures IsTunnelId([first] + rest) <==>
            LetterOrDigit(first) && |rest| < 64 && forall c :: c in rest ==> LetterOrDigit(c) || c == '.' || c == '_' || c == '-'
  {
    hide LetterOrDigit;
    forall c ensures IsAlphanumeric(c) <==> LetterOrDigit(c) { IsAlphanumericIff(c); }
    var s := [first] + rest;
    assert forall i :: 1 <= i < |s| ==> s[i] == rest[i - 1];
    assert forall i :: 0 <= i < |rest| ==> rest[i] == s[i + 1];
  }

  /** The normalized id, "" for an absent one; None when the value is rejected. */
  function Normalize(value: string): (r: Option<string>)
    ensures r.Some? && r.value != "" ==> IsTunnelId(r.value)
    ensures IsTunnelId(value) ==> r == Some(value)
  {
    TrimOk(value);
    var t := Trim(value);
    if t == "" then Some("") else if IsTunnelId(t) then Some(t) else None
  }

  /** Normalizing twice changes nothing. */
  lemma NormalizeIdempotent(value: string)
    requires Normalize(value).Some?
    ensures Normalize(Normalize(value).value) == Normalize(value)
  {
    TrimOk("");
  }

  /** White space around a core. */
  ghost predicate TrimsTo(s: string, core: string) {
    exists i, j :: 0 <= i <= j <= |s| && Trimmed(s, core, i, j)
  }

  ghost predicate Trimmed(s: string, core: string, i: int, j: int)
    requires 0 <= i <= j <= |s|
  {
    && s[i..j] == core && (core != "" ==> !IsSpace(core[0]) && !IsSpace(core[|core| - 1]))
    && (forall k :: 0 <= k < i || j <= k < |s| ==> IsSpace(s[k]))
  }

  lemma {:induction false} TrimStartIs(s: string)
    ensures exists i :: 0 <= i <= |s| && TrimStart(s) == s[i..] && forall k :: 0 <= k < i ==> IsSpace(s[k])
  {
    if s != [] && IsSpace(s[0]) {
      TrimStartIs(s[1..]);
      var i :| 0 <= i <= |s[1..]| && TrimStart(s[1..]) == s[1..][i..] && forall k :: 0 <= k < i ==> IsSpace(s[1..][k]);
      assert s[1..][i..] == s[i + 1..];
      assert forall k :: 0 < k < i + 1 ==> s[k] == s[1..][k - 1];
      assert 0 <= i + 1 <= |s| && TrimStart(s) == s[i + 1..];
    } else {
      assert s[0..] == s;
    }
  }

  lemma {:induction false} TrimEndIs(s: string)
    ensures exists j :: 0 <= j <= |s| && TrimEnd(s) == s[..j] && forall k :: j <= k < |s| ==> IsSpace(s[k])
  {
    if s != [] && IsSpace(s[|s| - 1]) {
      var n := |s| - 1;
      TrimEndIs(s[..n]);
      var j :| 0 <= j <= n && TrimEnd(s[..n]) == s[..n][..j] && forall k :: j <= k < n ==> IsSpace(s[..n][k]);
      assert s[..n][..j] == s[..j];
      assert forall k :: 0 <= k < n ==> s[..n][k] == s[k];
    } else {
      assert s[..|s|] == s;
    }
  }

  /** Trimming takes the white space at both ends, all of it and nothing else. */
  lemma TrimIs(s: string)
    ensures TrimsTo(s, Trim(s))
  {
    TrimOk(s);
    TrimStartIs(s);
    var i :| 0 <= i <= |s| && TrimStart(s) == s[i..] && forall k :: 0 <= k < i ==> IsSpace(s[k]);
    TrimEndIs(s[i..]);
    var j :| 0 <= j <= |s[i..]| && TrimEnd(s[i..]) == s[i..][..j] && forall k :: j <= k < |s[i..]| ==> IsSpace(s[i..][k]);
    assert s[i..][..j] == s[i..i + j];
    assert forall k :: i + j <= k < |s| ==> s[k] == s[i..][k - i];
    assert Trimmed(s, Trim(s), i, i + j);
  }

  /** The normalized id is the core of the value: nothing, or a tunnel id; any other value is rejected. */
  lemma NormalizeIff(value: string, id: string)
    ensures Normalize(value) == Some(id) ==> TrimsTo(value, id) && (id == "" || IsTunnelId(id))
    ensures Normalize(value) == None ==> forall core :: TrimsTo(value, core) ==> core != "" && !IsTunnelId(core)
  {
    TrimIs(value);
    forall core | TrimsTo(value, core) ensures core == Trim(value) { TrimUnique(value, core, Trim(value)); }
  }

  lemma TrimUnique(s: string, a: string, b: string)
    requires TrimsTo(s, a) && TrimsTo(s, b)
    ensures a == b
  {
    var i, j :| 0 <= i <= j <= |s| && Trimmed(s, a, i, j);
    var i', j' :| 0 <= i' <= j' <= |s| && Trimmed(s, b, i', j');
    if a != "" {
      assert s[i] == a[0] && s[j - 1] == a[|a| - 1];
      if b != "" { assert s[i'] == b[0] && s[j' - 1] == b[|b| - 1]; }
    }
  }
}
