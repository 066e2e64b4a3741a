/**
 * String helpers standing in for the parts of Go's strings, strconv and
 * path/filepath packages that the booth's code relies on. Case mapping is
 * ASCII only; white space is Go's unicode.IsSpace set.
 */
module Text {
  import opened Wrappers

  // ---------------------------------------------------------------- characters

  /** ASCII lower-casing of one character; other characters are unchanged. */
  function LowerChar(c: char): char {
    if 'A' <= c <= 'Z' then (c as int + 32) as char else c
  }

  /** ASCII upper-casing of one character; other characters are unchanged. */
  function UpperChar(c: char): char {
    if 'a' <= c <= 'z' then (c as int - 32) as char else c
  }

  function ToLower(s: string): (r: string)
    ensures |r| == |s|
    ensures forall i :: 0 <= i < |s| ==> r[i] == LowerChar(s[i])
  {
    seq(|s|, i requires 0 <= i < |s| => LowerChar(s[i]))
  }

  function ToUpper(s: string): (r: string)
    ensures |r| == |s|
    ensures forall i :: 0 <= i < |s| ==> r[i] == UpperChar(s[i])
  {
    seq(|s|, i requires 0 <= i < |s| => UpperChar(s[i]))
  }

  /** Go's unicode.IsSpace: the Latin-1 spaces plus the Unicode White_Space code points. */
  predicate IsSpace(c: char) {
    var n := c as int;
    n == 9 || n == 10 || n == 11 || n == 12 || n == 13 || n == 32 || n == 0x85 || n == 0xA0
    || n == 0x1680 || (0x2000 <= n <= 0x200A) || n == 0x2028 || n == 0x2029
    || n == 0x202F || n == 0x205F || n == 0x3000
  }

  predicate IsDigit(c: char) {
    '0' <= c <= '9'
  }

  predicate AllDigits(s: string) {
    forall i :: 0 <= i < |s| ==> IsDigit(s[i])
  }

  // ---------------------------------------------------------------- trimming

  function TrimLeftSpace(s: string): (r: string)
    ensures |r| <= |s| && r == s[|s| - |r|..]
    ensures r == [] || !IsSpace(r[0])
  {
    if s != [] && IsSpace(s[0]) then TrimLeftSpace(s[1..]) else s
  }

  function TrimRightSpace(s: string): (r: string)
    ensures |r| <= |s| && r == s[..|r|]
    ensures r == [] || !IsSpace(r[|r| - 1])
  {
    if s != [] && IsSpace(s[|s| - 1]) then TrimRightSpace(s[..|s| - 1]) else s
  }

  /** strings.TrimSpace. */
  function TrimSpace(s: string): string {
    TrimRightSpace(TrimLeftSpace(s))
  }

  function TrimLeftChar(s: string, c: char): (r: string)
    ensures |r| <= |s| && r == s[|s| - |r|..]
    ensures r == [] || r[0] != c
  {
    if s != [] && s[0] == c then TrimLeftChar(s[1..], c) else s
  }

  function TrimRightChar(s: string, c: char): (r: string)
    ensures |r| <= |s| && r == s[..|r|]
    ensures r == [] || r[|r| - 1] != c
  {
    if s != [] && s[|s| - 1] == c then TrimRightChar(s[..|s| - 1], c) else s
  }

  /** strings.Trim(s, cutset) for a one-character cutset. */
  function TrimChar(s: string, c: char): string {
    TrimRightChar(TrimLeftChar(s, c), c)
  }

  /** A string that neither starts nor ends with white space is its own TrimSpace. */
  lemma TrimSpaceKeepsEdges(s: string)
    requires s != [] && !IsSpace(s[0]) && !IsSpace(s[|s| - 1])
    ensures TrimSpace(s) == s
  {
  }

  lemma TrimSpaceNoSpace(s: string)
    requires forall i :: 0 <= i < |s| ==> !IsSpace(s[i])
    ensures TrimSpace(s) == s
  {
  }

  // ---------------------------------------------------------------- searching

  predicate HasSuffix(s: string, suffix: string) {
    |suffix| <= |s| && s[|s| - |suffix|..] == suffix
  }

  /** strings.Contains. */
  predicate Contains(s: string, sub: string)
    decreases |s|
  {
    sub <= s || (s != [] && Contains(s[1..], sub))
  }

  /** Index of the first occurrence of c in s, or -1. */
  function IndexOf(s: string, c: char): (r: int)
    ensures -1 <= r < |s|
    ensures r == -1 ==> c !in s
    ensures r >= 0 ==> s[r] == c && c !in s[..r]
  {
    if s == [] then -1
    else if s[0] == c then 0
    else
      var k := IndexOf(s[1..], c);
      if k == -1 then -1 else k + 1
  }

  /** strings.SplitN(s, sep, 2) for a one-character separator, when it yields two parts. */
  function CutFirst(s: string, sep: char): (r: Option<(string, string)>)
    ensures r.None? <==> sep !in s
    ensures r.Some? ==> s == r.value.0 + [sep] + r.value.1 && sep !in r.value.0
  {
    var i := IndexOf(s, sep);
    if i < 0 then None
    else
      assert s == s[..i] + [sep] + s[i + 1..];
      Some((s[..i], s[i + 1..]))
  }

  /** The line splits at its FIRST separator, so the second part may hold more of them. */
  lemma CutFirstAt(k: string, sep: char, v: string)
    requires sep !in k
    ensures CutFirst(k + [sep] + v, sep) == Some((k, v))
  {
    var s := k + [sep] + v;
    var i := IndexOf(s, sep);
    assert s[|k|] == sep;
    assert s[..|k|] == k;
    assert i == |k|;
    assert s[..i] == k;
    assert s[i + 1..] == v;
  }

  /** strings.Split(s, sep) for a one-character separator. */
  function Split(s: string, sep: char): (r: seq<string>)
    ensures |r| >= 1
    decreases |s|
  {
    var i := IndexOf(s, sep);
    if i < 0 then [s] else [s[..i]] + Split(s[i + 1..], sep)
  }

  // ---------------------------------------------------------------- paths

  /** filepath.Ext: the suffix starting at the final '.' of the final path element, or "". */
  function Ext(p: string): string
    decreases |p|
  {
    if p == [] || p[|p| - 1] == '/' then []
    else if p[|p| - 1] == '.' then "."
    else
      var e := Ext(p[..|p| - 1]);
      if e == [] then [] else e + [p[|p| - 1]]
  }

  /** The extension is empty or a suffix of the path that starts with its only '.' and has no '/'. */
  lemma {:induction false} ExtShape(p: string)
    ensures var r := Ext(p);
      r == [] || (r[0] == '.' && HasSuffix(p, r) && '/' !in r && '.' !in r[1..])
    decreases |p|
  {
    if p != [] && p[|p| - 1] != '/' && p[|p| - 1] != '.' {
      var init := p[..|p| - 1];
      ExtShape(init);
      var e := Ext(init);
      if e != [] {
        var c := p[|p| - 1];
        assert Ext(p) == e + [c];
        assert init[|init| - |e|..] == p[|p| - 1 - |e|..|p| - 1];
        assert (e + [c])[1..] == e[1..] + [c];
        assert p[|p| - |e + [c]|..] == p[|p| - 1 - |e|..|p| - 1] + [c];
      }
    }
  }

  /** A name ending in '.' followed by a dot-free, slash-free tail has that extension. */
  lemma {:induction false} ExtOfTail(q: string, x: string)
    requires '.' !in x && '/' !in x
    ensures Ext(q + ['.'] + x) == ['.'] + x
    decreases |x|
  {
    var p := q + ['.'] + x;
    if x == [] {
      assert p[|p| - 1] == '.';
    } else {
      var c := x[|x| - 1];
      var x' := x[..|x| - 1];
      assert c in x;
      assert p[|p| - 1] == c;
      assert p[..|p| - 1] == q + ['.'] + x';
      assert '.' !in x' && '/' !in x' by {
        assert forall i :: 0 <= i < |x'| ==> x'[i] == x[i];
      }
      ExtOfTail(q, x');
      assert Ext(p) == Ext(p[..|p| - 1]) + [c];
      assert ['.'] + x' + [c] == ['.'] + x;
    }
  }

  /** filepath.Join without the lexical Clean step. */
  function JoinPath(a: string, b: string): string {
    if a == "" then b else if b == "" then a else a + "/" + b
  }

  // ---------------------------------------------------------------- decimal numbers

  function DigitChar(d: nat): (c: char)
    requires d < 10
    ensures IsDigit(c) && c as int - '0' as int == d
  {
    ('0' as int + d) as char
  }

  /** The decimal digits of n, as strconv.Itoa and %d print them. */
  function NatToString(n: nat): (r: string)
    ensures r != [] && AllDigits(r)
    decreases n
  {
    if n < 10 then [DigitChar(n)] else NatToString(n / 10) + [DigitChar(n % 10)]
  }

  function DigitsValue(s: string): nat
    requires AllDigits(s)
  {
    if s == [] then 0 else DigitsValue(s[..|s| - 1]) * 10 + (s[|s| - 1] as int - '0' as int)
  }

  lemma {:induction false} NatToStringValue(n: nat)
    ensures DigitsValue(NatToString(n)) == n
    decreases n
  {
    if n >= 10 {
      NatToStringValue(n / 10);
      var s := NatToString(n);
      assert s[..|s| - 1] == NatToString(n / 10);
    }
  }

  /** fmt's %0<width>d for a non-negative value: zero-padded to at least width digits. */
  function ZeroPad(n: nat, width: nat): (r: string)
    ensures AllDigits(r) && |r| >= width && r != []
  {
    var s := NatToString(n);
    if |s| >= width then s else seq(width - |s|, _ => '0') + s
  }

  lemma {:induction false} NatToStringShort(n: nat, width: nat)
    requires 0 < width && n < Pow10(width)
    ensures |NatToString(n)| <= width
    decreases n
  {
    if n >= 10 {
      NatToStringShort(n / 10, width - 1);
    }
  }

  function Pow10(k: nat): nat {
    if k == 0 then 1 else 10 * Pow10(k - 1)
  }

  /** Leading zeros do not change the value of a digit string. */
  lemma {:induction false} DigitsValueZeros(z: nat, s: string)
    requires AllDigits(s)
    ensures AllDigits(seq(z, _ => '0') + s)
    ensures DigitsValue(seq(z, _ => '0') + s) == DigitsValue(s)
    decreases |s|
  {
    var zs: string := seq(z, _ => '0');
    if s == [] {
      assert zs + s == zs;
      ZerosValue(z);
    } else {
      var t := zs + s;
      assert t[..|t| - 1] == zs + s[..|s| - 1];
      DigitsValueZeros(z, s[..|s| - 1]);
    }
  }

  lemma {:induction false} ZerosValue(z: nat)
    ensures AllDigits(seq(z, _ => '0'))
    ensures DigitsValue(seq(z, _ => '0')) == 0
    decreases z
  {
    if z > 0 {
      var zs: string := seq(z, _ => '0');
      assert zs[..z - 1] == seq(z - 1, _ => '0');
      ZerosValue(z - 1);
    }
  }

  /** A zero-padded field reads back as the number it was printed from. */
  lemma ZeroPadValue(n: nat, width: nat)
    ensures DigitsValue(ZeroPad(n, width)) == n
  {
    NatToStringValue(n);
    var s := NatToString(n);
    if |s| < width {
      DigitsValueZeros(width - |s|, s);
    }
  }

  /** A value below 10^width fills exactly width digits once padded. */
  lemma ZeroPadLength(n: nat, width: nat)
    requires 0 < width && n < Pow10(width)
    ensures |ZeroPad(n, width)| == width
  {
    NatToStringShort(n, width);
  }

  /** The three pieces of a concatenation are where their lengths put them. */
  lemma ThreeParts(a: string, b: string, c: string)
    ensures (a + b + c)[..|a|] == a
    ensures (a + b + c)[|a|..|a| + |b|] == b
    ensures (a + b + c)[|a| + |b|..] == c
  {
  }

  /** Zero padding a value below 10^width and reading it back gives the value. */
  lemma PadBack(n: nat, width: nat)
    requires n < Pow10(width) && width > 0
    ensures |ZeroPad(n, width)| == width && AllDigits(ZeroPad(n, width))
    ensures DigitsValue(ZeroPad(n, width)) == n
  {
    ZeroPadLength(n, width);
    ZeroPadValue(n, width);
  }

  const MinInt64: int := -0x8000_0000_0000_0000
  const MaxInt64: int := 0x7FFF_FFFF_FFFF_FFFF

  /**
   * strconv.Atoi on a 64-bit platform: an optional sign, then at least one
   * ASCII digit and nothing else; the value must fit in int64.
   */
  function Atoi(s: string): (r: Option<int>)
    ensures r.Some? ==> MinInt64 <= r.value <= MaxInt64
  {
    if s == [] then None
    else
      var digits := if s[0] == '+' || s[0] == '-' then s[1..] else s;
      if digits == [] || !AllDigits(digits) then None
      else
        var mag: int := DigitsValue(digits);
        var v: int := if s[0] == '-' then 0 - mag else mag;
        if MinInt64 <= v <= MaxInt64 then Some(v) else None
  }

  /** Atoi reads back what %d printed, for every non-negative int64. */
  lemma AtoiNatToString(n: nat)
    requires n <= MaxInt64
    ensures Atoi(NatToString(n)) == Some(n)
  {
    NatToStringValue(n);
    var s := NatToString(n);
    assert IsDigit(s[0]);
  }
}
