/**
 * The Python string operations the work-order extractor relies on, on
 * `string` (a `seq<char>` of Unicode scalar values):
 *  - `str.isspace`, which `split()` and `strip()` without arguments use;
 *  - the substring test `sub in s`;
 *  - `s.split()[0]`, the first whitespace-delimited token;
 *  - `int(token)` for a token made of an optional sign and ASCII digits;
 *  - `str(n)` for a non-negative integer;
 *  - `s.strip()` and `sep.join(parts)`.
 */
module Text {
  import opened Wrappers

  /** The characters for which Python's `str.isspace()` holds. */
  predicate IsSpace(c: char) {
    || c == ' '
    || ('\t' <= c <= '\r')
    || ('\U{1C}' <= c <= '\U{1F}')
    || c == '\U{85}' || c == '\U{A0}' || c == '\U{1680}'
    || ('\U{2000}' <= c <= '\U{200A}')
    || c == '\U{2028}' || c == '\U{2029}' || c == '\U{202F}' || c == '\U{205F}' || c == '\U{3000}'
  }

  predicate AllSpace(s: string) {
    forall i :: 0 <= i < |s| ==> IsSpace(s[i])
  }

  predicate NoSpace(s: string) {
    forall i :: 0 <= i < |s| ==> !IsSpace(s[i])
  }

  predicate IsDigit(c: char) {
    '0' <= c <= '9'
  }

  // ---------------------------------------------------------------------------
  // Substring test

  /** `sub` occurs in `s` starting at index `i`. */
  ghost predicate OccursAt(s: string, sub: string, i: int) {
    0 <= i && i + |sub| <= |s| && s[i..i + |sub|] == sub
  }

  /** Python's `sub in s`. */
  function Contains(s: string, sub: string): (r: bool)
    ensures r <==> exists i :: OccursAt(s, sub, i)
    decreases |s|
  {
    if |s| < |sub| then
      NoRoomForSub(s, sub);
      false
    else if s[..|sub|] == sub then
      assert OccursAt(s, sub, 0);
      true
    else
      var r := Contains(s[1..], sub);
      ShiftOccurrence(s, sub);
      r
  }

  lemma NoRoomForSub(s: string, sub: string)
    requires |s| < |sub|
    ensures forall i :: !OccursAt(s, sub, i)
  {
  }

  /** Away from index 0, occurrences in `s` are those of `s[1..]` shifted by one. */
  lemma ShiftOccurrence(s: string, sub: string)
    requires |s| > 0 && !OccursAt(s, sub, 0)
    ensures (exists i :: OccursAt(s, sub, i)) <==> (exists i :: OccursAt(s[1..], sub, i))
  {
    if i :| OccursAt(s, sub, i) {
      assert i > 0;
      assert s[1..][i - 1..i - 1 + |sub|] == s[i..i + |sub|];
      assert OccursAt(s[1..], sub, i - 1);
    }
    if i :| OccursAt(s[1..], sub, i) {
      assert s[i + 1..i + 1 + |sub|] == s[1..][i..i + |sub|];
      assert OccursAt(s, sub, i + 1);
    }
  }

  /** An occurrence inside an occurrence is an occurrence. */
  lemma OccursWithin(s: string, mid: string, sub: string, p: int, q: int)
    requires OccursAt(s, mid, p) && OccursAt(mid, sub, q)
    ensures OccursAt(s, sub, p + q)
  {
    forall j | 0 <= j < |sub|
      ensures s[p + q + j] == sub[j]
    {
      assert sub[j] == mid[q + j] == s[p..p + |mid|][q + j];
    }
    assert s[p + q..p + q + |sub|] == sub;
  }

  /** The second part of a concatenation occurs in it right after the first. */
  lemma OccursAsSuffix(a: string, b: string)
    ensures OccursAt(a + b, b, |a|)
  {
    assert (a + b)[|a|..|a| + |b|] == b;
  }

  /** The middle part of a concatenation occurs in it right after the first part. */
  lemma OccursInMiddle(a: string, b: string, c: string)
    ensures OccursAt(a + b + c, b, |a|)
  {
    assert (a + b + c)[|a|..|a| + |b|] == b;
  }

  /** An occurrence at a known position is an occurrence. */
  lemma ContainsAt(s: string, sub: string, i: int)
    requires OccursAt(s, sub, i)
    ensures Contains(s, sub)
  {
  }

  /** An occurrence in a prefix is an occurrence in the whole. */
  lemma OccursInPrefix(a: string, b: string, sub: string, i: int)
    requires OccursAt(a, sub, i)
    ensures OccursAt(a + b, sub, i)
  {
    assert (a + b)[i..i + |sub|] == a[i..i + |sub|];
  }

  // ---------------------------------------------------------------------------
  // s.split()[0]

  /** The index of the first non-space character at or after `i`, or `|s|`. */
  function SkipSpaces(s: string, i: nat): (k: nat)
    requires i <= |s|
    ensures i <= k <= |s|
    decreases |s| - i
  {
    if i == |s| || !IsSpace(s[i]) then i else SkipSpaces(s, i + 1)
  }

  /** The index of the first space character at or after `i`, or `|s|`. */
  function SkipToken(s: string, i: nat): (k: nat)
    requires i <= |s|
    ensures i <= k <= |s|
    decreases |s| - i
  {
    if i == |s| || IsSpace(s[i]) then i else SkipToken(s, i + 1)
  }

  /** `t` is the maximal run of non-space characters of `s` starting at `k`,
      and only spaces come before `k`: the first token `split()` yields. */
  ghost predicate FirstTokenAt(s: string, k: nat, t: string) {
    && t != []
    && k + |t| <= |s|
    && AllSpace(s[..k])
    && s[k..k + |t|] == t
    && NoSpace(t)
    && (k + |t| == |s| || IsSpace(s[k + |t|]))
  }

  /** Python's `s.split()[0]`, or `None` where that raises `IndexError`. */
  function FirstToken(s: string): Option<string> {
    var k := SkipSpaces(s, 0);
    if k == |s| then None else Some(s[k..SkipToken(s, k)])
  }

  lemma {:induction false} SkipSpacesSpec(s: string, i: nat)
    requires i <= |s|
    ensures forall j :: i <= j < SkipSpaces(s, i) ==> IsSpace(s[j])
    ensures SkipSpaces(s, i) < |s| ==> !IsSpace(s[SkipSpaces(s, i)])
    decreases |s| - i
  {
    if i < |s| && IsSpace(s[i]) {
      SkipSpacesSpec(s, i + 1);
    }
  }

  lemma {:induction false} SkipTokenSpec(s: string, i: nat)
    requires i <= |s|
    ensures forall j :: i <= j < SkipToken(s, i) ==> !IsSpace(s[j])
    ensures SkipToken(s, i) < |s| ==> IsSpace(s[SkipToken(s, i)])
    decreases |s| - i
  {
    if i < |s| && !IsSpace(s[i]) {
      SkipTokenSpec(s, i + 1);
    }
  }

  /** `split()[0]` fails exactly on an all-space string; otherwise it is the
      first maximal run of non-space characters. */
  lemma FirstTokenSpec(s: string)
    ensures FirstToken(s).None? <==> AllSpace(s)
    ensures FirstToken(s).Some? ==> FirstTokenAt(s, SkipSpaces(s, 0), FirstToken(s).value)
  {
    SkipSpacesSpec(s, 0);
    var k := SkipSpaces(s, 0);
    if k < |s| {
      SkipTokenSpec(s, k);
      assert SkipToken(s, k) > k;
      assert !AllSpace(s);
    }
  }

  // ---------------------------------------------------------------------------
  // int(token) and str(n)

  function DigitValue(c: char): (d: nat)
    requires IsDigit(c)
    ensures d < 10
  {
    (c as int - '0' as int) as nat
  }

  function DigitChar(d: nat): (c: char)
    requires d < 10
    ensures IsDigit(c) && DigitValue(c) == d
  {
    ('0' as int + d) as char
  }

  predicate IsDigits(s: string) {
    |s| > 0 && forall i :: 0 <= i < |s| ==> IsDigit(s[i])
  }

  /** The value of a string of decimal digits, most significant first. */
  function DigitsValue(s: string): (v: nat)
    requires forall i :: 0 <= i < |s| ==> IsDigit(s[i])
  {
    if s == [] then 0 else DigitsValue(s[..|s| - 1]) * 10 + DigitValue(s[|s| - 1])
  }

  /** Python's `int(token)`, restricted to an optional `+` or `-` followed by
      one or more ASCII digits; `None` where `int` raises `ValueError`. */
  function ParseInt(t: string): (r: Option<int>)
  {
    if |t| > 0 && (t[0] == '+' || t[0] == '-') then
      if IsDigits(t[1..]) then
        Some(if t[0] == '-' then -(DigitsValue(t[1..]) as int) else DigitsValue(t[1..]))
      else
        None
    else if IsDigits(t) then
      Some(DigitsValue(t))
    else
      None
  }

  /** Python's `str(n)` for `n >= 0`: decimal, no sign, no leading zero. */
  function NatToString(n: nat): (s: string)
    ensures IsDigits(s)
    ensures s[0] == '0' ==> n == 0
  {
    if n < 10 then [DigitChar(n)] else NatToString(n / 10) + [DigitChar(n % 10)]
  }

  // ---------------------------------------------------------------------------
  // s.strip() and sep.join(parts)

  function LStrip(s: string): (r: string)
  {
    if |s| > 0 && IsSpace(s[0]) then LStrip(s[1..]) else s
  }

  function RStrip(s: string): (r: string)
  {
    if |s| > 0 && IsSpace(s[|s| - 1]) then RStrip(s[..|s| - 1]) else s
  }

  /** Python's `s.strip()`. */
  function Strip(s: string): string {
    RStrip(LStrip(s))
  }

  /** Python's `sep.join(parts)`. */
  function Join(parts: seq<string>, sep: string): string
  {
    if |parts| == 0 then []
    else if |parts| == 1 then parts[0]
    else parts[0] + sep + Join(parts[1..], sep)
  }

  // ---------------------------------------------------------------------------
  // Lemmas

  /** `int(str(n)) == n`: the parse undoes the rendering. */
  lemma {:induction false} DigitsValueOfNatToString(n: nat)
    ensures DigitsValue(NatToString(n)) == n
  {
    if n >= 10 {
      DigitsValueOfNatToString(n / 10);
      var s := NatToString(n);
      assert s[..|s| - 1] == NatToString(n / 10);
    }
  }

  lemma ParseIntOfNatToString(n: nat)
    ensures ParseInt(NatToString(n)) == Some(n)
  {
    DigitsValueOfNatToString(n);
  }

  /** `str` is injective on non-negative integers. */
  lemma NatToStringInjective(m: nat, n: nat)
    requires NatToString(m) == NatToString(n)
    ensures m == n
  {
    DigitsValueOfNatToString(m);
    DigitsValueOfNatToString(n);
  }

  /** `lstrip` removes exactly a leading run of spaces. */
  lemma {:induction false} LStripSpaces(w: string, t: string)
    requires AllSpace(w)
    requires t == [] || !IsSpace(t[0])
    ensures LStrip(w + t) == t
  {
    if w != [] {
      assert (w + t)[1..] == w[1..] + t;
      LStripSpaces(w[1..], t);
    }
  }

  /** Trailing spaces make no difference to `rstrip`. */
  lemma {:induction false} RStripSpaces(t: string, w: string)
    requires AllSpace(w)
    ensures RStrip(t + w) == RStrip(t)
  {
    if w != [] {
      assert (t + w)[..|t + w| - 1] == t + w[..|w| - 1];
      RStripSpaces(t, w[..|w| - 1]);
    } else {
      assert t + w == t;
    }
  }

  /** A prefix ending in a non-space character survives `rstrip` unchanged. */
  lemma {:induction false} RStripKeepsPrefix(p: string, q: string)
    requires |p| > 0 && !IsSpace(p[|p| - 1])
    ensures RStrip(p + q) == p + RStrip(q)
  {
    if q == [] {
      assert p + q == p;
    } else if IsSpace(q[|q| - 1]) {
      assert (p + q)[..|p + q| - 1] == p + q[..|q| - 1];
      RStripKeepsPrefix(p, q[..|q| - 1]);
    }
  }

  lemma {:induction false} JoinAppend(xs: seq<string>, ys: seq<string>, sep: string)
    requires xs != [] && ys != []
    ensures Join(xs + ys, sep) == Join(xs, sep) + sep + Join(ys, sep)
  {
    if |xs| == 1 {
      assert (xs + ys)[1..] == ys;
    } else {
      assert (xs + ys)[1..] == xs[1..] + ys;
      JoinAppend(xs[1..], ys, sep);
    }
  }

  /** Where the `i`-th part starts in `sep.join(xs)`. */
  function JoinOffset(xs: seq<string>, sep: string, i: nat): nat
    requires i <= |xs|
  {
    if i == 0 then 0 else |Join(xs[..i], sep)| + |sep|
  }

  /** Each part occurs in the join, at its offset. */
  lemma {:induction false} JoinPartAt(xs: seq<string>, sep: string, i: nat)
    requires i < |xs|
    ensures OccursAt(Join(xs, sep), xs[i], JoinOffset(xs, sep, i))
  {
    if |xs| == 1 {
      assert Join(xs, sep)[0..|xs[0]|] == xs[0];
    } else if i == 0 {
      OccursInMiddle([], xs[0], sep + Join(xs[1..], sep));
      assert [] + xs[0] + (sep + Join(xs[1..], sep)) == Join(xs, sep);
    } else {
      var rest := xs[1..];
      var lead := xs[0] + sep;
      JoinPartAt(rest, sep, i - 1);
      assert Join(xs, sep) == lead + Join(rest, sep);
      OccursAsSuffix(lead, Join(rest, sep));
      OccursWithin(Join(xs, sep), Join(rest, sep), xs[i], |lead|, JoinOffset(rest, sep, i - 1));
      JoinOffsetShift(xs, sep, i);
    }
  }

  /** Past the first part and its separator, offsets are those of the rest. */
  lemma JoinOffsetShift(xs: seq<string>, sep: string, i: nat)
    requires 0 < i < |xs|
    ensures JoinOffset(xs, sep, i) == |xs[0]| + |sep| + JoinOffset(xs[1..], sep, i - 1)
  {
    if i > 1 {
      assert xs[..i] == [xs[0]] + xs[1..][..i - 1];
      JoinAppend([xs[0]], xs[1..][..i - 1], sep);
    }
  }

  /** Later parts start after earlier parts end. */
  lemma JoinOffsetsOrdered(xs: seq<string>, sep: string, i: nat, j: nat)
    requires i < j < |xs|
    ensures JoinOffset(xs, sep, i) + |xs[i]| <= JoinOffset(xs, sep, j)
  {
    assert xs[..j] == xs[..i + 1] + xs[i + 1..j];
    if i + 1 < j {
      JoinAppend(xs[..i + 1], xs[i + 1..j], sep);
    }
    if i > 0 {
      assert xs[..i + 1] == xs[..i] + [xs[i]];
      JoinAppend(xs[..i], [xs[i]], sep);
    }
  }
}
