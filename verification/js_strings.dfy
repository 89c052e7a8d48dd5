/**
 * The JavaScript string primitives the application relies on:
 * `includes`, `indexOf`, `split`, `join`, `trim` and the decimal
 * rendering of integers. Strings are sequences of characters.
 */
module JsStrings {
  import opened Wrappers

  /** The ECMAScript WhiteSpace and LineTerminator code points: what `trim` removes and `\s` matches. */
  predicate IsSpace(c: char) {
    || c == '\t' || c == '\n' || c == '\U{000B}' || c == '\U{000C}' || c == '\r' || c == ' '
    || c == '\U{00A0}' || c == '\U{1680}' || ('\U{2000}' <= c <= '\U{200A}')
    || c == '\U{2028}' || c == '\U{2029}' || c == '\U{202F}' || c == '\U{205F}'
    || c == '\U{3000}' || c == '\U{FEFF}'
  }

  predicate AllSpace(s: string) {
    forall i :: 0 <= i < |s| ==> IsSpace(s[i])
  }

  /** `s.startsWith(p)`. */
  predicate StartsWith(s: string, p: string) {
    |p| <= |s| && s[..|p|] == p
  }

  /** `s.endsWith(t)`. */
  predicate EndsWith(s: string, t: string) {
    |t| <= |s| && s[|s| - |t|..] == t
  }

  /** A concatenation ends with its last part. */
  lemma EndsWithConcat(front: string, tail: string)
    ensures EndsWith(front + tail, tail)
  {
  }

  /** A text that ends with `tail` still does after something is put in front of it. */
  lemma EndsWithExtend(front: string, s: string, tail: string)
    requires EndsWith(s, tail)
    ensures EndsWith(front + s, tail)
  {
    assert (front + s)[|front + s| - |tail|..] == s[|s| - |tail|..];
  }

  /** `m` occurs in `s` starting at position `k`. */
  predicate OccursAt(s: string, m: string, k: nat) {
    k + |m| <= |s| && s[k..k + |m|] == m
  }

  /**
   * `s.indexOf(m, from)` for `from <= |s|`, with `None` for -1. Past the
   * end JavaScript clamps `from` to `|s|`; every use here starts at 0.
   */
  function IndexOfFrom(s: string, m: string, from: nat): (r: Option<nat>)
    ensures r.Some? ==> from <= r.value && OccursAt(s, m, r.value)
    ensures r.Some? ==> forall k :: from <= k < r.value ==> !OccursAt(s, m, k)
    ensures r.None? ==> forall k :: from <= k ==> !OccursAt(s, m, k)
    decreases |s| - from
  {
    if |s| < from + |m| then None
    else if s[from..from + |m|] == m then Some(from)
    else IndexOfFrom(s, m, from + 1)
  }

  /** `s.indexOf(m)`: the first occurrence of `m` in `s`. */
  function IndexOf(s: string, m: string): (r: Option<nat>)
    ensures r.Some? ==> OccursAt(s, m, r.value)
    ensures r.Some? ==> forall k :: 0 <= k < r.value ==> !OccursAt(s, m, k)
    ensures r.None? ==> forall k :: 0 <= k ==> !OccursAt(s, m, k)
  {
    IndexOfFrom(s, m, 0)
  }

  /** `s.includes(m)`. */
  predicate Includes(s: string, m: string) {
    IndexOf(s, m).Some?
  }

  /** `includes` holds exactly when some position carries an occurrence. */
  lemma IncludesIff(s: string, m: string)
    ensures Includes(s, m) <==> exists k: nat :: OccursAt(s, m, k)
  {
    if !Includes(s, m) {
      forall k: nat ensures !OccursAt(s, m, k) {}
    }
  }

  /** A position carrying an occurrence with none before it is what `indexOf` finds. */
  lemma IndexOfFirst(s: string, m: string, k: nat)
    requires OccursAt(s, m, k)
    requires forall j :: 0 <= j < k ==> !OccursAt(s, m, j)
    ensures IndexOf(s, m) == Some(k)
  {
  }

  /** The text before the first occurrence of a separator holds no occurrence of it. */
  lemma PrefixBeforeFirst(s: string, m: string, i: nat)
    requires |m| > 0 && IndexOf(s, m) == Some(i)
    ensures !Includes(s[..i], m)
  {
    var p := s[..i];
    forall k: nat ensures !OccursAt(p, m, k) {
      if k + |m| <= |p| {
        assert p[k..k + |m|] == s[k..k + |m|];
        assert !OccursAt(s, m, k);
      }
    }
    IncludesIff(p, m);
  }

  /** `s.split(sep)` for a non-empty separator. */
  function Split(s: string, sep: string): (parts: seq<string>)
    requires |sep| > 0
    ensures |parts| >= 1
    ensures Includes(s, sep) <==> |parts| >= 2
    ensures forall i :: 0 <= i < |parts| ==> !Includes(parts[i], sep)
    decreases |s|
  {
    match IndexOf(s, sep)
    case None => [s]
    case Some(i) =>
      PrefixBeforeFirst(s, sep, i);
      [s[..i]] + Split(s[i + |sep|..], sep)
  }

  /** `parts.join(sep)`; the join of an empty array is the empty string. */
  function Join(parts: seq<string>, sep: string): (r: string)
    ensures |parts| == 1 ==> r == parts[0]
    decreases |parts|
  {
    if |parts| == 0 then ""
    else if |parts| == 1 then parts[0]
    else parts[0] + sep + Join(parts[1..], sep)
  }

  /** Joining the pieces of a split with the same separator restores the string. */
  lemma {:induction false} JoinSplit(s: string, sep: string)
    requires |sep| > 0
    ensures Join(Split(s, sep), sep) == s
    decreases |s|
  {
    match IndexOf(s, sep)
    case None =>
    case Some(i) =>
      var rest := s[i + |sep|..];
      JoinSplit(rest, sep);
      var tail := Split(rest, sep);
      assert Split(s, sep) == [s[..i]] + tail;
      assert ([s[..i]] + tail)[1..] == tail;
      assert s == s[..i] + sep + rest;
  }

  /** Splitting on a one-character separator that no part contains recovers the parts. */
  lemma {:induction false} SplitJoin(parts: seq<string>, sep: string)
    requires |sep| == 1 && |parts| >= 1
    requires forall i :: 0 <= i < |parts| ==> sep[0] !in parts[i]
    ensures Split(Join(parts, sep), sep) == parts
    decreases |parts|
  {
    var s := Join(parts, sep);
    if |parts| == 1 {
      forall k: nat | OccursAt(s, sep, k) ensures false {}
      assert IndexOf(s, sep).None?;
    } else {
      var p := parts[0];
      var rest := Join(parts[1..], sep);
      assert s == p + sep + rest;
      assert OccursAt(s, sep, |p|) by {
        assert s[|p|..|p| + 1] == sep;
      }
      forall j | 0 <= j < |p| ensures !OccursAt(s, sep, j) {}
      IndexOfFirst(s, sep, |p|);
      assert s[..|p|] == p;
      assert s[|p| + |sep|..] == rest;
      SplitJoin(parts[1..], sep);
    }
  }

  /** `s.trimStart()`: drops leading white space. */
  function TrimStart(s: string): (r: string)
    ensures |r| <= |s| && r == s[|s| - |r|..]
    ensures AllSpace(s[..|s| - |r|])
    ensures r == [] || !IsSpace(r[0])
    decreases |s|
  {
    if |s| > 0 && IsSpace(s[0]) then
      var r := TrimStart(s[1..]);
      assert s[..|s| - |r|] == [s[0]] + s[1..][..|s| - 1 - |r|];
      r
    else s
  }

  /** `s.trimEnd()`: drops trailing white space. */
  function TrimEnd(s: string): (r: string)
    ensures |r| <= |s| && r == s[..|r|]
    ensures AllSpace(s[|r|..])
    ensures r == [] || !IsSpace(r[|r| - 1])
    decreases |s|
  {
    if |s| > 0 && IsSpace(s[|s| - 1]) then
      var init := s[..|s| - 1];
      var r := TrimEnd(init);
      assert s[|r|..] == init[|r|..] + [s[|s| - 1]];
      r
    else s
  }

  /** `s.trim()`: what remains of `s` once white space is dropped from both ends. */
  function Trim(s: string): (r: string)
    ensures |r| <= |s|
    ensures r == [] || (!IsSpace(r[0]) && !IsSpace(r[|r| - 1]))
  {
    var a := TrimStart(s);
    var r := TrimEnd(a);
    assert r == [] || r[0] == a[0];
    r
  }

  /** What `trim` drops is white space: `s` is the trimmed text with white space on either side. */
  lemma TrimSurrounds(s: string)
    ensures exists lead, trail :: AllSpace(lead) && AllSpace(trail) && s == lead + Trim(s) + trail
  {
    var a := TrimStart(s);
    var r := TrimEnd(a);
    assert Trim(s) == r;
    var lead, trail := s[..|s| - |a|], a[|r|..];
    Reassemble(s, a, r);
    assert AllSpace(lead) && AllSpace(trail) && s == lead + r + trail;
  }

  /** A suffix `a` of `s` and a prefix `r` of `a` cut `s` into three pieces. */
  lemma Reassemble(s: string, a: string, r: string)
    requires |a| <= |s| && a == s[|s| - |a|..]
    requires |r| <= |a| && r == a[..|r|]
    ensures s == s[..|s| - |a|] + r + a[|r|..]
  {
    assert a == r + a[|r|..];
    assert s == s[..|s| - |a|] + a;
  }

  lemma {:induction false} TrimStartSkips(lead: string, rest: string)
    requires AllSpace(lead)
    requires rest == [] || !IsSpace(rest[0])
    ensures TrimStart(lead + rest) == rest
    decreases |lead|
  {
    if |lead| > 0 {
      assert (lead + rest)[1..] == lead[1..] + rest;
      TrimStartSkips(lead[1..], rest);
    } else {
      assert lead + rest == rest;
    }
  }

  lemma {:induction false} TrimEndSkips(rest: string, trail: string)
    requires AllSpace(trail)
    requires rest == [] || !IsSpace(rest[|rest| - 1])
    ensures TrimEnd(rest + trail) == rest
    decreases |trail|
  {
    if |trail| > 0 {
      var s := rest + trail;
      assert s[..|s| - 1] == rest + trail[..|trail| - 1];
      TrimEndSkips(rest, trail[..|trail| - 1]);
    } else {
      assert rest + trail == rest;
    }
  }

  /**
   * `trim` is determined by its two promises: any way of writing `s` as
   * white space, a text with no white space at either end, and white space
   * again, has that text as the trimmed string.
   */
  lemma TrimUnique(s: string, lead: string, t: string, trail: string)
    requires AllSpace(lead) && AllSpace(trail)
    requires t == [] || (!IsSpace(t[0]) && !IsSpace(t[|t| - 1]))
    requires s == lead + t + trail
    ensures Trim(s) == t
  {
    if t == [] {
      assert s == lead + trail;
      assert AllSpace(trail + []) by { assert trail + [] == trail; }
      TrimStartSkips(s, []);
      assert s + [] == s;
    } else {
      assert s == lead + (t + trail);
      TrimStartSkips(lead, t + trail);
      TrimEndSkips(t, trail);
    }
  }

  /** Trimming twice is trimming once. */
  lemma TrimIdempotent(s: string)
    ensures Trim(Trim(s)) == Trim(s)
  {
    TrimTrimmed(Trim(s));
  }

  /** A string with no white space at either end is its own trim. */
  lemma TrimTrimmed(t: string)
    requires t == [] || (!IsSpace(t[0]) && !IsSpace(t[|t| - 1]))
    ensures Trim(t) == t
  {
    assert t == [] + t + [];
    TrimUnique(t, [], t, []);
  }

  predicate IsDigit(c: char) {
    '0' <= c <= '9'
  }

  predicate AllDigits(s: string) {
    forall i :: 0 <= i < |s| ==> IsDigit(s[i])
  }

  function DigitValue(c: char): nat
    requires IsDigit(c)
  {
    (c as int) - ('0' as int)
  }

  function DigitChar(d: nat): (c: char)
    requires d < 10
    ensures IsDigit(c) && DigitValue(c) == d
  {
    (('0' as int) + d) as char
  }

  /** The number a string of decimal digits denotes. */
  function DigitsValue(s: string): nat
    requires AllDigits(s)
    decreases |s|
  {
    if |s| == 0 then 0 else DigitsValue(s[..|s| - 1]) * 10 + DigitValue(s[|s| - 1])
  }

  /** Digits with no superfluous leading zero: the form JavaScript prints a non-negative integer in. */
  predicate IsCanonicalNat(s: string) {
    |s| >= 1 && AllDigits(s) && (s[0] != '0' || |s| == 1)
  }

  /** The decimal rendering of a natural number, `String(n)`. */
  function NatToDecimal(n: nat): (r: string)
    ensures IsCanonicalNat(r)
    ensures DigitsValue(r) == n
    decreases n
  {
    if n < 10 then [DigitChar(n)]
    else
      var p := NatToDecimal(n / 10);
      var r := p + [DigitChar(n % 10)];
      assert r[..|r| - 1] == p;
      r
  }

  lemma {:induction false} LeadingNonZero(s: string)
    requires AllDigits(s) && |s| >= 1 && s[0] != '0'
    ensures DigitsValue(s) >= 1
    decreases |s|
  {
    if |s| > 1 {
      LeadingNonZero(s[..|s| - 1]);
    }
  }

  /** Reading a canonical digit string and printing the number gives the string back. */
  lemma {:induction false} DecimalRoundTrip(s: string)
    requires IsCanonicalNat(s)
    ensures NatToDecimal(DigitsValue(s)) == s
    decreases |s|
  {
    if |s| > 1 {
      var p := s[..|s| - 1];
      LeadingNonZero(p);
      DecimalRoundTrip(p);
      var n := DigitsValue(s);
      assert n / 10 == DigitsValue(p) && n % 10 == DigitValue(s[|s| - 1]);
      assert s == p + [s[|s| - 1]];
    }
  }

  /** The decimal rendering of an integer, with a minus sign when negative. */
  function IntToDecimal(n: int): (r: string)
    ensures n >= 0 ==> r == NatToDecimal(n)
    ensures n < 0 ==> r == "-" + NatToDecimal(-n)
  {
    if n < 0 then "-" + NatToDecimal(-n) else NatToDecimal(n)
  }
}
