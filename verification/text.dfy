/** The string operations the modelled Python code relies on: `strip`,
    `split`, `join`, `lower`, `capitalize`, `in` (substring test),
    `startswith`, slicing with a non-negative bound, and decimal rendering
    of integers. Case mapping and digit tests cover ASCII only. */
module Text {

  /** The characters Python's `str.isspace` accepts. */
  predicate IsSpace(c: char) {
    c in SpaceChars || ('\U{2000}' <= c <= '\U{200A}')
  }

  const SpaceChars: set<char> :=
    {' ', '\t', '\n', '\r', '\U{B}', '\U{C}', '\U{1C}', '\U{1D}', '\U{1E}', '\U{1F}',
     '\U{85}', '\U{A0}', '\U{1680}', '\U{2028}', '\U{2029}', '\U{202F}', '\U{205F}', '\U{3000}'}

  predicate IsDigit(c: char) {
    '0' <= c <= '9'
  }

  predicate HasDigit(s: string) {
    exists i :: 0 <= i < |s| && IsDigit(s[i])
  }

  function ToLower(c: char): char {
    if 'A' <= c <= 'Z' then (c as int + 32) as char else c
  }

  function ToUpper(c: char): char {
    if 'a' <= c <= 'z' then (c as int - 32) as char else c
  }

  /** `s.lower()` */
  function Lower(s: string): (r: string)
    ensures |r| == |s|
  {
    seq(|s|, i requires 0 <= i < |s| => ToLower(s[i]))
  }

  /** `s.capitalize()`: first character upper case, the rest lower case. */
  function Capitalize(s: string): (r: string)
    ensures |r| == |s|
  {
    if s == [] then [] else [ToUpper(s[0])] + Lower(s[1..])
  }

  predicate StartsWith(s: string, p: string) {
    |p| <= |s| && s[..|p|] == p
  }

  /** `sub in s` */
  predicate Contains(s: string, sub: string)
    decreases |s|
  {
    StartsWith(s, sub) || (s != [] && Contains(s[1..], sub))
  }

  lemma {:induction false} ContainsSlice(s: string, i: nat, j: nat, sub: string)
    requires i <= j <= |s|
    requires Contains(s[i..j], sub)
    ensures Contains(s, sub)
    decreases j - i, |s|
  {
    if StartsWith(s[i..j], sub) {
      assert s[i..j][..|sub|] == s[i..][..|sub|];
      ContainsSuffix(s, i, sub);
    } else {
      assert s[i..j][1..] == s[i + 1..j];
      ContainsSlice(s, i + 1, j, sub);
    }
  }

  lemma {:induction false} ContainsSuffix(s: string, i: nat, sub: string)
    requires i <= |s|
    requires StartsWith(s[i..], sub)
    ensures Contains(s, sub)
    decreases i
  {
    if i > 0 {
      assert s[1..][i - 1..] == s[i..];
      ContainsSuffix(s[1..], i - 1, sub);
    }
  }

  lemma {:induction false} ContainsTransitive(a: string, b: string, c: string)
    requires Contains(a, b) && Contains(b, c)
    ensures Contains(a, c)
    decreases |a|
  {
    if StartsWith(a, b) {
      assert a[..|b|] == b;
      ContainsSlice(a, 0, |b|, c);
    } else {
      ContainsTransitive(a[1..], b, c);
    }
  }

  /** `s.lstrip()` */
  function TrimStart(s: string): (r: string)
    ensures |r| <= |s|
    ensures r == [] || !IsSpace(r[0])
  {
    if s != [] && IsSpace(s[0]) then TrimStart(s[1..]) else s
  }

  /** `lstrip` drops a run of white space from the front and keeps the rest. */
  lemma {:induction false} TrimStartSpec(s: string)
    ensures var r := TrimStart(s);
      && r == s[|s| - |r|..]
      && forall i :: 0 <= i < |s| - |r| ==> IsSpace(s[i])
  {
    if s != [] && IsSpace(s[0]) {
      TrimStartSpec(s[1..]);
      var r := TrimStart(s);
      forall i | 0 <= i < |s| - |r| ensures IsSpace(s[i]) {
        if i > 0 { assert s[i] == s[1..][i - 1]; }
      }
    }
  }

  /** `s.rstrip()` */
  function TrimEnd(s: string): (r: string)
    ensures |r| <= |s|
    ensures r == [] || !IsSpace(r[|r| - 1])
  {
    if s != [] && IsSpace(s[|s| - 1]) then TrimEnd(s[..|s| - 1]) else s
  }

  /** `rstrip` drops a run of white space from the back and keeps the rest. */
  lemma {:induction false} TrimEndSpec(s: string)
    ensures var r := TrimEnd(s);
      && r == s[..|r|]
      && forall i :: |r| <= i < |s| ==> IsSpace(s[i])
  {
    if s != [] && IsSpace(s[|s| - 1]) {
      TrimEndSpec(s[..|s| - 1]);
    }
  }

  /** `s.strip()` */
  function Strip(s: string): (r: string)
    ensures |r| <= |s|
  {
    TrimEnd(TrimStart(s))
  }

  /** `r` is what is left of `s` once the white space before `off` and the
      white space after `off + |r|` are cut away, and `r` neither starts nor
      ends with white space. */
  ghost predicate CutAtBothEnds(s: string, off: int, r: string)
  {
    && 0 <= off && off + |r| <= |s|
    && r == s[off..off + |r|]
    && (forall i :: 0 <= i < off ==> IsSpace(s[i]))
    && (forall i :: off + |r| <= i < |s| ==> IsSpace(s[i]))
    && (r == [] || (!IsSpace(r[0]) && !IsSpace(r[|r| - 1])))
  }

  /** `strip` cuts a run of white space from each end and keeps the middle. */
  lemma StripSpec(s: string)
    ensures CutAtBothEnds(s, |s| - |TrimStart(s)|, Strip(s))
  {
    var a := TrimStart(s);
    var r := TrimEnd(a);
    TrimStartSpec(s);
    TrimEndSpec(a);
    TrimBoth(s, a, r);
  }

  /** Cutting white space from the front of `s` (leaving `a`) and then from
      the back of `a` (leaving `r`) cuts `s` at both ends. */
  lemma TrimBoth(s: string, a: string, r: string)
    requires |a| <= |s| && a == s[|s| - |a|..] && forall i :: 0 <= i < |s| - |a| ==> IsSpace(s[i])
    requires |r| <= |a| && r == a[..|r|] && forall i :: |r| <= i < |a| ==> IsSpace(a[i])
    requires a == [] || !IsSpace(a[0])
    requires r == [] || !IsSpace(r[|r| - 1])
    ensures CutAtBothEnds(s, |s| - |a|, r)
  {
    var off := |s| - |a|;
    assert r == s[off..off + |r|];
    forall i | off + |r| <= i < |s| ensures IsSpace(s[i]) {
      assert s[i] == a[i - off];
    }
    if r != [] {
      assert r[0] == a[0];
    }
  }

  lemma DigitNotSpace(c: char)
    requires IsDigit(c)
    ensures !IsSpace(c)
  {
  }

  /** Stripping removes only white space, so a digit survives it. */
  lemma StripKeepsDigit(s: string)
    requires HasDigit(s)
    ensures HasDigit(Strip(s))
  {
    var i :| 0 <= i < |s| && IsDigit(s[i]);
    DigitNotSpace(s[i]);
    var a := TrimStart(s);
    var off := |s| - |a|;
    TrimStartKeeps(s, i);
    assert a[i - off] == s[i] by { TrimStartSpec(s); }
    TrimEndKeeps(a, i - off);
    var r := TrimEnd(a);
    assert r[i - off] == a[i - off] by { TrimEndSpec(a); }
    assert IsDigit(r[i - off]);
    assert Strip(s) == r;
  }

  /** `lstrip` stops at the first character that is not white space. */
  lemma {:induction false} TrimStartKeeps(s: string, i: nat)
    requires i < |s| && !IsSpace(s[i])
    ensures |s| - |TrimStart(s)| <= i
  {
    if s != [] && IsSpace(s[0]) {
      assert s[i] == s[1..][i - 1];
      TrimStartKeeps(s[1..], i - 1);
    }
  }

  /** `rstrip` stops at the last character that is not white space. */
  lemma {:induction false} TrimEndKeeps(s: string, i: nat)
    requires i < |s| && !IsSpace(s[i])
    ensures i < |TrimEnd(s)|
  {
    if s != [] && IsSpace(s[|s| - 1]) {
      assert s[i] == s[..|s| - 1][i];
      TrimEndKeeps(s[..|s| - 1], i);
    }
  }

  /** Case mapping leaves digits alone. */
  lemma CapitalizeKeepsDigit(s: string)
    requires HasDigit(s)
    ensures HasDigit(Capitalize(s))
  {
    var i :| 0 <= i < |s| && IsDigit(s[i]);
    var c := s[i];
    var r := Capitalize(s);
    assert r[i] == c by {
      assert ToUpper(c) == c && ToLower(c) == c;
      if i == 0 {
        assert r[0] == ToUpper(c);
      } else {
        assert s[1..][i - 1] == c;
        assert r[i] == Lower(s[1..])[i - 1];
      }
    }
    assert IsDigit(r[i]);
  }

  function FirstIndex(s: string, c: char): (i: nat)
    requires c in s
    ensures i < |s| && s[i] == c && c !in s[..i]
  {
    if s[0] == c then 0 else 1 + FirstIndex(s[1..], c)
  }

  /** `s.split(sep)` for a one-character separator. */
  function Split(s: string, sep: char): (parts: seq<string>)
    ensures |parts| >= 1
    ensures forall k :: 0 <= k < |parts| ==> sep !in parts[k]
    decreases |s|
  {
    if sep !in s then [s]
    else
      var i := FirstIndex(s, sep);
      [s[..i]] + Split(s[i + 1..], sep)
  }

  /** `sep.join(parts)` */
  function Join(parts: seq<string>, sep: string): string {
    if |parts| == 0 then ""
    else if |parts| == 1 then parts[0]
    else parts[0] + sep + Join(parts[1..], sep)
  }

  /** A join starts with its first part. */
  lemma JoinStarts(parts: seq<string>, sep: string)
    requires parts != []
    ensures |parts[0]| <= |Join(parts, sep)| && Join(parts, sep)[..|parts[0]|] == parts[0]
  {
    if |parts| > 1 {
      assert Join(parts, sep) == parts[0] + (sep + Join(parts[1..], sep));
    }
  }

  /** Splitting on a character and joining with it again gives back the input. */
  lemma {:induction false} SplitJoin(s: string, sep: char)
    ensures Join(Split(s, sep), [sep]) == s
    decreases |s|
  {
    if sep in s {
      var i := FirstIndex(s, sep);
      var rest := Split(s[i + 1..], sep);
      SplitJoin(s[i + 1..], sep);
      var parts := [s[..i]] + rest;
      assert parts[0] == s[..i] && parts[1..] == rest;
      assert s == s[..i] + [sep] + s[i + 1..];
    }
  }

  /** What occurs in a text occurs in any text ending with it. */
  lemma ContainsRight(a: string, b: string, sub: string)
    requires Contains(b, sub)
    ensures Contains(a + b, sub)
  {
    var s := a + b;
    assert s[|a|..|s|] == b;
    ContainsSlice(s, |a|, |s|, sub);
  }

  /** A string occurs in any text built around it. */
  lemma ContainsMiddle(a: string, b: string, c: string)
    ensures Contains(a + b + c, b)
  {
    var s := a + b + c;
    assert s[|a|..|a| + |b|] == b;
    assert Contains(b, b) by { assert StartsWith(b, b); }
    ContainsSlice(s, |a|, |a| + |b|, b);
  }

  /** A text framed by a head `p` and a heading `h` starts with the head
      and contains its body `b`. */
  lemma Framed(p: string, h: string, b: string, c: string)
    ensures StartsWith(p + h + b + c, p)
    ensures Contains(p + h + b + c, b)
  {
    ContainsMiddle(p + h, b, c);
    assert (p + h + b + c)[..|p|] == p;
  }

  /** The second and fourth of five concatenated parts occur in the whole. */
  lemma InnerParts(a: string, b: string, c: string, d: string, e: string)
    ensures Contains(a + b + c + d + e, b)
    ensures Contains(a + b + c + d + e, d)
  {
    ContainsMiddle(a, b, c + d + e);
    assert a + b + (c + d + e) == a + b + c + d + e;
    ContainsMiddle(a + b + c, d, e);
  }

  /** Every part occurs in the joined text. */
  lemma {:induction false} JoinContainsPart(parts: seq<string>, sep: string, k: nat)
    requires k < |parts|
    ensures Contains(Join(parts, sep), parts[k])
    decreases |parts|
  {
    var j := Join(parts, sep);
    if |parts| == 1 {
      ContainsMiddle([], parts[0], []);
      assert [] + parts[0] + [] == j;
    } else {
      var rest := Join(parts[1..], sep);
      assert j == parts[0] + sep + rest;
      if k == 0 {
        ContainsMiddle([], parts[0], sep + rest);
        assert [] + parts[0] + (sep + rest) == j;
      } else {
        JoinContainsPart(parts[1..], sep, k - 1);
        var off := |parts[0]| + |sep|;
        assert j[off..|j|] == rest;
        ContainsSlice(j, off, |j|, parts[k]);
      }
    }
  }

  function WordLength(s: string): (n: nat)
    ensures n <= |s|
    ensures forall i :: 0 <= i < n ==> !IsSpace(s[i])
    ensures n == |s| || IsSpace(s[n])
  {
    if s == [] || IsSpace(s[0]) then 0 else 1 + WordLength(s[1..])
  }

  /** `s.split()`: the maximal runs of non-space characters, in order. */
  function Words(s: string): (ws: seq<string>)
    ensures forall k :: 0 <= k < |ws| ==> ws[k] != []
    decreases |s|
  {
    var t := TrimStart(s);
    if t == [] then []
    else
      var n := WordLength(t);
      [t[..n]] + Words(t[n..])
  }

  /** Every word of `s.split()` occurs in `s`. */
  lemma {:induction false} WordsOccur(s: string)
    ensures forall k :: 0 <= k < |Words(s)| ==> Contains(s, Words(s)[k])
    decreases |s|
  {
    var t := TrimStart(s);
    TrimStartSpec(s);
    if t != [] {
      var n := WordLength(t);
      var rest := Words(t[n..]);
      var ws := Words(s);
      assert ws == [t[..n]] + rest;
      WordsOccur(t[n..]);
      HeadWordOccurs(s, t, n);
      forall k | 1 <= k < |ws| ensures Contains(s, ws[k]) {
        assert ws[k] == rest[k - 1];
        InnerWordOccurs(s, t, n, rest[k - 1]);
      }
    }
  }

  lemma HeadWordOccurs(s: string, t: string, n: nat)
    requires |t| <= |s| && t == s[|s| - |t|..] && n <= |t|
    ensures Contains(s, t[..n])
  {
    var w := t[..n];
    assert StartsWith(s[|s| - |t|..], w);
    ContainsSuffix(s, |s| - |t|, w);
  }

  lemma InnerWordOccurs(s: string, t: string, n: nat, w: string)
    requires |t| <= |s| && t == s[|s| - |t|..] && n <= |t|
    requires Contains(t[n..], w)
    ensures Contains(s, w)
  {
    var k := |s| - |t| + n;
    assert t[n..] == s[k..|s|] by {
      assert forall j :: 0 <= j < |t| - n ==> t[n..][j] == t[n + j];
    }
    ContainsSlice(s, k, |s|, w);
  }

  function DigitChar(d: nat): (c: char)
    requires d < 10
    ensures IsDigit(c)
  {
    "0123456789"[d]
  }

  function DigitValue(c: char): nat
    requires IsDigit(c)
  {
    c as int - '0' as int
  }

  /** Decimal rendering, as `str(n)` and f-strings do for a non-negative int. */
  function NatToString(n: nat): (r: string)
    ensures |r| >= 1
    ensures forall i :: 0 <= i < |r| ==> IsDigit(r[i])
  {
    if n < 10 then [DigitChar(n)] else NatToString(n / 10) + [DigitChar(n % 10)]
  }

  function IntToString(i: int): string {
    if i < 0 then "-" + NatToString(-i) else NatToString(i)
  }

  /** Reads a string of decimal digits back as a number. */
  function ParseDigits(s: string): nat
    requires forall i :: 0 <= i < |s| ==> IsDigit(s[i])
  {
    if s == [] then 0 else 10 * ParseDigits(s[..|s| - 1]) + DigitValue(s[|s| - 1])
  }

  /** Decimal rendering loses nothing: it reads back as the same number. */
  lemma {:induction false} NatToStringRoundTrip(n: nat)
    ensures ParseDigits(NatToString(n)) == n
  {
    if n >= 10 {
      var r := NatToString(n);
      assert r[..|r| - 1] == NatToString(n / 10);
      NatToStringRoundTrip(n / 10);
    }
  }

  /** The lines `"{i}. {item}"` that `enumerate(items, first)` and an
      f-string produce, one per item. */
  function Numbered(items: seq<string>, first: nat): (r: seq<string>)
    ensures |r| == |items|
  {
    seq(|items|, i requires 0 <= i < |items| => NatToString(first + i) + ". " + items[i])
  }
}
