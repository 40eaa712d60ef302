/**
 * The JavaScript string primitives the budget code relies on: `trim`,
 * `toLowerCase`, `indexOf`/`includes`, `split`, `Number.prototype.toString`,
 * `slice(-2)` and `parseInt`. Strings are sequences of UTF-16 code units,
 * modelled as `seq<char>`.
 */
module Text {
  import opened Wrappers

  /** The white-space and line-terminator characters `trim` and `parseInt` skip. */
  predicate IsSpace(c: char) {
    var k := c as int;
    k == 0x20 || (0x09 <= k <= 0x0D) || k == 0xA0 || k == 0x1680
    || (0x2000 <= k <= 0x200A) || k == 0x2028 || k == 0x2029 || k == 0x202F
    || k == 0x205F || k == 0x3000 || k == 0xFEFF
  }

  /** `s.trimStart()`: drops the leading white space and nothing else. */
  function TrimStart(s: string): (r: string)
    ensures |r| <= |s| && r == s[|s| - |r|..]
    ensures forall i :: 0 <= i < |s| - |r| ==> IsSpace(s[i])
    ensures r != [] ==> !IsSpace(r[0])
  {
    if s != [] && IsSpace(s[0]) then TrimStart(s[1..]) else s
  }

  /** `s.trimEnd()`: drops the trailing white space and nothing else. */
  function TrimEnd(s: string): (r: string)
    ensures |r| <= |s| && r == s[..|r|]
    ensures forall i :: |r| <= i < |s| ==> IsSpace(s[i])
    ensures r != [] ==> !IsSpace(r[|r| - 1])
  {
    if s != [] && IsSpace(s[|s| - 1]) then TrimEnd(s[..|s| - 1]) else s
  }

  /**
   * `s.trim()`: the slice of `s` that starts after its leading white space,
   * without white space at either end.
   */
  function Trim(s: string): (r: string)
    ensures SliceAt(s, r, |s| - |TrimStart(s)|)
    ensures r != [] ==> !IsSpace(r[0]) && !IsSpace(r[|r| - 1])
    ensures r == [] <==> forall i :: 0 <= i < |s| ==> IsSpace(s[i])
  {
    TrimBoth(s);
    TrimEnd(TrimStart(s))
  }

  /** Trimming the end of the trimmed start leaves the slice after the leading white space. */
  lemma TrimBoth(s: string)
    ensures SliceAt(s, TrimEnd(TrimStart(s)), |s| - |TrimStart(s)|)
    ensures var r := TrimEnd(TrimStart(s)); r != [] ==> !IsSpace(r[0]) && !IsSpace(r[|r| - 1])
    ensures TrimEnd(TrimStart(s)) == [] <==> forall i :: 0 <= i < |s| ==> IsSpace(s[i])
  {
    var t := TrimStart(s);
    var r := TrimEnd(t);
    SuffixPrefix(s, t, r);
    if r != [] {
      assert r[0] == t[0];
    }
    if t == [] {
      assert |s| - |t| == |s|;
    } else {
      assert t[0] == s[|s| - |t|];
    }
  }

  /** A prefix of a suffix of `s` is a slice of `s`. */
  lemma SuffixPrefix(s: string, t: string, r: string)
    requires |t| <= |s| && t == s[|s| - |t|..]
    requires |r| <= |t| && r == t[..|r|]
    ensures SliceAt(s, r, |s| - |t|)
  {
    assert s[|s| - |t|..|s| - |t| + |r|] == r;
  }

  /** `part` occurs in `s` starting at position `i`. */
  predicate SliceAt(s: string, part: string, i: int) {
    0 <= i <= |s| - |part| && s[i..i + |part|] == part
  }

  /** ASCII case folding, as `toLowerCase` does for ASCII letters. */
  function LowerChar(c: char): char {
    if 'A' <= c <= 'Z' then (c as int + 32) as char else c
  }

  /** `s.toLowerCase()` restricted to ASCII letters. */
  function ToLower(s: string): (r: string)
    ensures |r| == |s|
    ensures forall i :: 0 <= i < |s| ==> r[i] == LowerChar(s[i])
  {
    if s == [] then [] else [LowerChar(s[0])] + ToLower(s[1..])
  }

  /** `s.indexOf(pat)`: the first position where `pat` occurs, `None` for -1. */
  function Find(s: string, pat: string): (r: Option<nat>)
    ensures r.Some? ==> SliceAt(s, pat, r.value)
    ensures forall i :: 0 <= i && (r.None? || i < r.value) ==> !SliceAt(s, pat, i)
    decreases |s|
  {
    if |s| < |pat| then None
    else if s[..|pat|] == pat then Some(0)
    else
      var rest := Find(s[1..], pat);
      assert s[0..|pat|] == s[..|pat|];
      assert forall i :: 1 <= i ==> (SliceAt(s, pat, i) <==> SliceAt(s[1..], pat, i - 1));
      match rest
      case None => None
      case Some(k) => Some(k + 1)
  }

  /** `s.includes(pat)`. */
  predicate Contains(s: string, pat: string) {
    Find(s, pat).Some?
  }

  /** `s.split(sep)[k]`, `None` when the split has at most `k` parts. */
  function Field(s: string, sep: string, k: nat): (r: Option<string>)
    requires |sep| > 0
    ensures k == 0 ==> r.Some? && |r.value| <= |s| && r.value == s[..|r.value|]
    ensures k == 0 ==> forall i :: 0 <= i < |r.value| ==> !SliceAt(s, sep, i)
    ensures k == 0 && r.Some? && |r.value| < |s| ==>
      |r.value| + |sep| <= |s| && s[|r.value|..|r.value| + |sep|] == sep
    ensures k > 0 && r.Some? ==> Find(s, sep).Some?
    decreases k
  {
    match Find(s, sep)
    case None => if k == 0 then Some(s) else None
    case Some(i) => if k == 0 then Some(s[..i]) else Field(s[i + |sep|..], sep, k - 1)
  }

  /** In `a + [c] + b` with no `c` in `a`, the first `c` is the one after `a`. */
  lemma FindFirst(a: string, c: char, b: string)
    requires c !in a
    ensures Find(a + [c] + b, [c]) == Some(|a|)
  {
    var s := a + [c] + b;
    assert SliceAt(s, [c], |a|);
    var r := Find(s, [c]);
    assert r.Some?;
    assert s[r.value] == c;
  }

  /** A string without `c` has no `c` to find. */
  lemma FindNone(s: string, c: char)
    requires c !in s
    ensures Find(s, [c]) == None
  {
    forall i
      ensures !SliceAt(s, [c], i)
    {
      if 0 <= i < |s| {
        assert s[i..i + 1] == [s[i]];
      }
    }
  }

  /**
   * A month label `a + " '" + b`, with neither a space nor an apostrophe in
   * `a` and no apostrophe in `b`, splits at its first space into `a` and at
   * its apostrophe into `a + " "` and `b`.
   */
  lemma LabelFields(a: string, b: string)
    requires ' ' !in a && '\'' !in a && '\'' !in b
    ensures Field(a + " '" + b, " ", 0) == Some(a)
    ensures Field(a + " '" + b, "'", 1) == Some(b)
  {
    var m := a + " '" + b;
    assert m == a + [' '] + ("'" + b);
    FindFirst(a, ' ', "'" + b);
    assert m[..|a|] == a;
    assert m == (a + " ") + ['\''] + b;
    FindFirst(a + " ", '\'', b);
    assert m[|a| + 2..] == b;
    FindNone(b, '\'');
  }

  predicate IsDigit(c: char) {
    '0' <= c <= '9'
  }

  function DigitChar(d: nat): (c: char)
    requires d < 10
    ensures IsDigit(c) && c as int - '0' as int == d
  {
    (d + '0' as int) as char
  }

  /** The decimal digits of `n`, as `n.toString()` writes them. */
  function NatToString(n: nat): (r: string)
    ensures |r| >= 1 && forall i :: 0 <= i < |r| ==> IsDigit(r[i])
    ensures n >= 10 ==> |r| >= 2
    decreases n
  {
    if n < 10 then [DigitChar(n)] else NatToString(n / 10) + [DigitChar(n % 10)]
  }

  /** Decimal digits hold no space and no apostrophe. */
  lemma NatToStringHasNoSeparator(n: nat)
    ensures ' ' !in NatToString(n) && '\'' !in NatToString(n)
  {
    var r := NatToString(n);
    assert forall i :: 0 <= i < |r| ==> IsDigit(r[i]);
  }

  /** `n.toString()` for an integer `n`. */
  function IntToString(n: int): string {
    if n < 0 then "-" + NatToString(-n) else NatToString(n)
  }

  /** `s.slice(-2)`: the last two code units, or all of `s` when it is shorter. */
  function LastTwo(s: string): string {
    if |s| <= 2 then s else s[|s| - 2..]
  }

  /** `slice(-2)` keeps a suffix of `s` of length two, or all of a shorter `s`. */
  lemma LastTwoSuffix(s: string)
    ensures |LastTwo(s)| == if |s| < 2 then |s| else 2
    ensures LastTwo(s) == s[|s| - |LastTwo(s)|..]
  {
  }

  /** The value of a character as a digit in bases up to 36 (36 when it is none). */
  function DigitValue(c: char): nat {
    if '0' <= c <= '9' then c as int - '0' as int
    else if 'a' <= c <= 'z' then c as int - 'a' as int + 10
    else if 'A' <= c <= 'Z' then c as int - 'A' as int + 10
    else 36
  }

  /** The number of leading characters of `s` that are digits in base `radix`. */
  function DigitRun(s: string, radix: nat): (n: nat)
    ensures n <= |s|
    ensures forall i :: 0 <= i < n ==> DigitValue(s[i]) < radix
    ensures n < |s| ==> DigitValue(s[n]) >= radix
  {
    if s != [] && DigitValue(s[0]) < radix then 1 + DigitRun(s[1..], radix) else 0
  }

  /** The value of a digit string read most-significant digit first. */
  function DigitsValue(ds: string, radix: nat): nat {
    if ds == [] then 0
    else DigitsValue(ds[..|ds| - 1], radix) * radix + (if DigitValue(ds[|ds| - 1]) < radix then DigitValue(ds[|ds| - 1]) else 0)
  }

  /**
   * `parseInt(s)` with no radix: leading white space is skipped, one sign is
   * read, a `0x`/`0X` prefix selects base 16, and the longest run of digits
   * that follows is the value. `None` stands for `NaN` (no digit at all).
   */
  function ParseInt(s: string): (r: Option<int>)
    ensures r.Some? ==> exists i :: 0 <= i < |s| && DigitValue(s[i]) < 16
  {
    var t := TrimStart(s);
    var negative := t != [] && t[0] == '-';
    var u := if t != [] && (t[0] == '-' || t[0] == '+') then t[1..] else t;
    var hex := |u| >= 2 && u[0] == '0' && (u[1] == 'x' || u[1] == 'X');
    var radix := if hex then 16 else 10;
    var body := if hex then u[2..] else u;
    var n := DigitRun(body, radix);
    if n == 0 then None
    else
      DigitInSuffix(s, t, u, body, radix);
      var v: int := DigitsValue(body[..n], radix);
      Some(if negative then -v else v)
  }

  /** A digit at the head of what is left after the sign and the base prefix is a digit of the input. */
  lemma DigitInSuffix(s: string, t: string, u: string, body: string, radix: nat)
    requires |t| <= |s| && t == s[|s| - |t|..]
    requires (t != [] && u == t[1..]) || u == t
    requires (|u| >= 2 && body == u[2..]) || body == u
    requires body != [] && DigitValue(body[0]) < radix <= 16
    ensures exists i :: 0 <= i < |s| && DigitValue(s[i]) < 16
  {
    assert body[0] == s[|s| - |body|];
  }

  /** Reading back the digits `NatToString` writes gives the number. */
  lemma {:induction false} DigitsValueOfNatToString(n: nat)
    ensures DigitsValue(NatToString(n), 10) == n
    decreases n
  {
    var s := NatToString(n);
    if n >= 10 {
      DigitsValueOfNatToString(n / 10);
      assert s[..|s| - 1] == NatToString(n / 10);
    }
  }

  /** `parseInt(String(n)) === n` for every natural number. */
  lemma ParseIntOfNatToString(n: nat)
    ensures ParseInt(NatToString(n)) == Some(n)
  {
    var s := NatToString(n);
    assert IsDigit(s[0]);
    assert !IsSpace(s[0]);
    assert TrimStart(s) == s;
    assert s[0] != '-' && s[0] != '+';
    assert !(|s| >= 2 && s[0] == '0' && (s[1] == 'x' || s[1] == 'X')) by {
      if |s| >= 2 { assert IsDigit(s[1]); }
    }
    assert forall i :: 0 <= i < |s| ==> DigitValue(s[i]) < 10;
    assert DigitRun(s, 10) == |s|;
    assert s[..|s|] == s;
    DigitsValueOfNatToString(n);
  }
}
