/**
 The few operations of java.lang.String (and Integer.toString) that the program depends on,
 written out over Dafny strings so that their edge cases are visible.
 */
module JavaStrings {
  import opened Wrappers

  // ---------------------------------------------------------------------------
  // indexOf, startsWith, trim

  /** `s.indexOf(c)`: the first position of `c`, or None where Java returns -1. */
  function IndexOf(s: string, c: char): (r: Option<nat>)
    ensures r.None? <==> c !in s
    ensures r.Some? ==> r.value < |s| && s[r.value] == c && c !in s[..r.value]
  {
    if |s| == 0 then None
    else if s[0] == c then Some(0)
    else match IndexOf(s[1..], c)
      case None => None
      case Some(i) =>
        assert s[1..][..i] == s[1..i + 1];
        Some(i + 1)
  }

  predicate StartsWith(s: string, prefix: string) {
    |prefix| <= |s| && s[..|prefix|] == prefix
  }

  /** The characters that `String.trim` removes: every code point up to and including the space. */
  predicate IsTrimmable(c: char) {
    c <= ' '
  }

  /** A string with nothing for `trim` to remove at either end. */
  predicate IsTrimmed(s: string) {
    s == [] || (!IsTrimmable(s[0]) && !IsTrimmable(s[|s| - 1]))
  }

  /** The first loop of `trim`: from `st`, the first position whose character is not trimmable (or the end). */
  function TrimStartIndex(s: string, st: nat): (r: nat)
    requires st <= |s|
    ensures st <= r <= |s| && (r == |s| || !IsTrimmable(s[r]))
    ensures forall i :: st <= i < r ==> IsTrimmable(s[i])
    decreases |s| - st
  {
    if st < |s| && IsTrimmable(s[st]) then TrimStartIndex(s, st + 1) else st
  }

  /** The second loop of `trim`: the end `len` moves left over trimmable characters, never past `st`. */
  function TrimEndIndex(s: string, st: nat, len: nat): (r: nat)
    requires st <= len <= |s|
    ensures st <= r <= len && (r == st || !IsTrimmable(s[r - 1]))
    ensures forall i :: r <= i < len ==> IsTrimmable(s[i])
    decreases len
  {
    if st < len && IsTrimmable(s[len - 1]) then TrimEndIndex(s, st, len - 1) else len
  }

  /** `s.trim()`: the longest infix that neither starts nor ends with a trimmable character. */
  function Trim(s: string): (r: string)
    ensures IsTrimmed(r) && |r| <= |s|
    ensures r == [] <==> forall i :: 0 <= i < |s| ==> IsTrimmable(s[i])
  {
    var st := TrimStartIndex(s, 0);
    var len := TrimEndIndex(s, st, |s|);
    assert len > st ==> !IsTrimmable(s[st]);
    s[st..len]
  }

  /** Trimming cuts away only trimmable characters: a string with none at its ends is unchanged. */
  lemma TrimOfTrimmed(s: string)
    requires IsTrimmed(s)
    ensures Trim(s) == s
  {
  }

  lemma TrimIdempotent(s: string)
    ensures Trim(Trim(s)) == Trim(s)
  {
    TrimOfTrimmed(Trim(s));
  }

  // ---------------------------------------------------------------------------
  // split and join

  /** Every field between separators, empty ones included (what `split` computes before its clean-up). */
  function SplitAll(s: string, c: char): (r: seq<string>)
    ensures |r| >= 1
    ensures forall i :: 0 <= i < |r| ==> c !in r[i]
    decreases |s|
  {
    match IndexOf(s, c)
    case None => [s]
    case Some(i) => [s[..i]] + SplitAll(s[i + 1..], c)
  }

  /** The fields joined back together with the separator between them. */
  function Join(parts: seq<string>, c: char): string {
    if |parts| == 0 then ""
    else if |parts| == 1 then parts[0]
    else parts[0] + [c] + Join(parts[1..], c)
  }

  /** Java's `split` with limit 0 drops every trailing empty field. */
  function DropTrailingEmpty(parts: seq<string>): (r: seq<string>)
    ensures |r| <= |parts| && r == parts[..|r|]
    ensures r == [] || r[|r| - 1] != ""
    ensures forall i :: |r| <= i < |parts| ==> parts[i] == ""
  {
    if |parts| > 0 && parts[|parts| - 1] == "" then DropTrailingEmpty(parts[..|parts| - 1]) else parts
  }

  /**
   `s.split(Pattern.quote([c]))`: when the separator does not occur the result is the input itself;
   otherwise the fields, with trailing empty ones removed.
   */
  function JavaSplit(s: string, c: char): (r: seq<string>)
    ensures forall i :: 0 <= i < |r| ==> c !in r[i]
  {
    if c !in s then [s] else DropTrailingEmpty(SplitAll(s, c))
  }

  lemma {:induction false} JoinSplitAll(s: string, c: char)
    ensures Join(SplitAll(s, c), c) == s
    decreases |s|
  {
    match IndexOf(s, c)
    case None =>
    case Some(i) =>
      var rest := SplitAll(s[i + 1..], c);
      JoinSplitAll(s[i + 1..], c);
      assert SplitAll(s, c) == [s[..i]] + rest;
      assert s == s[..i] + [c] + s[i + 1..];
  }

  lemma {:induction false} SplitAllJoin(parts: seq<string>, c: char)
    requires |parts| >= 1
    requires forall i :: 0 <= i < |parts| ==> c !in parts[i]
    ensures SplitAll(Join(parts, c), c) == parts
  {
    if |parts| > 1 {
      JoinFirstSeparator(parts, c);
      SplitAllJoin(parts[1..], c);
      assert SplitAll(Join(parts, c), c) == [parts[0]] + SplitAll(Join(parts[1..], c), c);
    }
  }

  /** In the joined string, the first separator is the one written after the first part. */
  lemma JoinFirstSeparator(parts: seq<string>, c: char)
    requires |parts| > 1 && c !in parts[0]
    ensures var s := Join(parts, c); var n := |parts[0]|;
      IndexOf(s, c) == Some(n) && s[..n] == parts[0] && s[n + 1..] == Join(parts[1..], c)
  {
    var s := Join(parts, c);
    var p := parts[0];
    assert s == p + ([c] + Join(parts[1..], c));
    assert s[|p|] == c;
    assert s[..|p|] == p;
  }

  /** The last field of SplitAll is empty exactly when the string is empty or ends with the separator. */
  lemma {:induction false} LastFieldEmpty(s: string, c: char)
    ensures var f := SplitAll(s, c); (f[|f| - 1] == "") <==> (s == "" || s[|s| - 1] == c)
    decreases |s|
  {
    match IndexOf(s, c)
    case None =>
    case Some(i) =>
      LastFieldEmpty(s[i + 1..], c);
  }

  /**
   Joining the result of `split` gives back the input whenever the input does not end with the
   separator; only trailing separators are lost.
   */
  lemma JoinJavaSplit(s: string, c: char)
    requires s == "" || s[|s| - 1] != c
    ensures Join(JavaSplit(s, c), c) == s
  {
    if c in s {
      LastFieldEmpty(s, c);
      JoinSplitAll(s, c);
    }
  }

  /** A trailing separator is lost: ",a,".split(",") gives back "a" only. */
  lemma SplitLosesTrailingSeparators()
    ensures JavaSplit(",a,", ',') == ["", "a"]
  {
    assert IndexOf(",a,", ',') == Some(0);
    assert ",a,"[1..] == "a,";
    assert IndexOf("a,", ',') == Some(1);
    assert "a,"[2..] == "" && "a,"[..1] == "a" && ",a,"[..0] == "";
    assert IndexOf("", ',') == None;
    assert SplitAll("", ',') == [""];
    assert SplitAll("a,", ',') == ["a"] + SplitAll("", ',');
    assert SplitAll(",a,", ',') == [""] + SplitAll("a,", ',');
  }

  // ---------------------------------------------------------------------------
  // case-insensitive comparison

  function ToLowerAscii(c: char): char {
    if 'A' <= c <= 'Z' then (c as int - 'A' as int + 'a' as int) as char else c
  }

  /** `a.equalsIgnoreCase(b)`, with case folding restricted to the ASCII letters. */
  predicate EqualsIgnoreCase(a: string, b: string) {
    |a| == |b| && forall i :: 0 <= i < |a| ==> ToLowerAscii(a[i]) == ToLowerAscii(b[i])
  }

  // ---------------------------------------------------------------------------
  // decimal digits

  predicate IsDigit(c: char) {
    '0' <= c <= '9'
  }

  predicate AllDigits(s: string) {
    forall i :: 0 <= i < |s| ==> IsDigit(s[i])
  }

  function DigitChar(d: nat): (c: char)
    requires d < 10
    ensures IsDigit(c) && c as int - '0' as int == d
  {
    ('0' as int + d) as char
  }

  /** `Integer.toString(n)` / `Long.toString(n)` for n >= 0: decimal digits, no leading zero. */
  function NatToString(n: nat): (r: string)
    ensures |r| >= 1 && AllDigits(r)
    ensures r[0] == '0' ==> n == 0
  {
    if n < 10 then [DigitChar(n)] else NatToString(n / 10) + [DigitChar(n % 10)]
  }

  /** `Integer.toString(i)`: a minus sign before the digits of a negative number. */
  function IntToString(i: int): (r: string)
    ensures |r| >= 1
    ensures (r[0] == '-') <==> i < 0
  {
    if i < 0 then "-" + NatToString(-i) else NatToString(i)
  }

  /** The value of a string of decimal digits (an independent reading of NatToString's output). */
  function ParseNat(s: string): nat
    requires AllDigits(s)
  {
    if s == [] then 0 else 10 * ParseNat(s[..|s| - 1]) + (s[|s| - 1] as int - '0' as int)
  }

  lemma {:induction false} ParseNatToString(n: nat)
    ensures ParseNat(NatToString(n)) == n
  {
    if n >= 10 {
      var s := NatToString(n);
      assert s[..|s| - 1] == NatToString(n / 10);
      ParseNatToString(n / 10);
    }
  }

  /** Different integers have different decimal strings. */
  lemma IntToStringInjective(a: int, b: int)
    requires IntToString(a) == IntToString(b)
    ensures a == b
  {
    var sa, sb := IntToString(a), IntToString(b);
    if a < 0 {
      assert b < 0;
      assert sa == "-" + NatToString(-a) && sb == "-" + NatToString(-b);
      assert NatToString(-a) == sa[1..] == sb[1..] == NatToString(-b);
      ParseNatToString(-a);
      ParseNatToString(-b);
    } else {
      assert b >= 0;
      assert NatToString(a) == sa == sb == NatToString(b);
      ParseNatToString(a);
      ParseNatToString(b);
    }
  }

  /** The `pad + n` idiom of the source: a "0" before a value below 10. */
  function ZeroPadded(n: nat): string {
    (if n < 10 then "0" else "") + NatToString(n)
  }

  /** For values below 100 the padded form always has two digits and reads back as the value. */
  lemma ZeroPaddedTwoDigits(n: nat)
    requires n < 100
    ensures |ZeroPadded(n)| == 2 && AllDigits(ZeroPadded(n))
    ensures ParseNat(ZeroPadded(n)) == n
  {
    ParseNatToString(n);
    var s := ZeroPadded(n);
    if n < 10 {
      assert s == "0" + NatToString(n);
      assert s[..1] == "0";
    } else {
      assert NatToString(n) == NatToString(n / 10) + [DigitChar(n % 10)];
    }
  }

  /** `n` copies of `s`, concatenated. */
  function Repeat(s: string, n: nat): (r: string)
    ensures |r| == n * |s|
  {
    if n == 0 then "" else Repeat(s, n - 1) + s
  }
}
