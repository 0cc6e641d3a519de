/**
 * Python string operations that the scripts rely on, restated over `seq<char>`.
 *
 * Character classes are the ASCII ones: `str.isspace`, `str.isdigit`,
 * `str.isalpha`, `str.lower` and `str.upper` are modelled for ASCII input only.
 */
module TextUtil {

  datatype Option<+T> = None | Some(value: T)

  datatype Result<+T, +E> = Ok(value: T) | Err(error: E)

  // ---------------------------------------------------------------------
  // Character classes
  // ---------------------------------------------------------------------

  /** The ASCII characters for which Python's `str.isspace` is true. */
  predicate IsSpace(c: char)
  {
    c == ' ' || c == '\t' || c == '\n' || c == '\r' || c == '\U{B}' || c == '\U{C}'
    || c == '\U{1C}' || c == '\U{1D}' || c == '\U{1E}' || c == '\U{1F}'
  }

  predicate IsDigit(c: char) { '0' <= c <= '9' }

  predicate IsUpperChar(c: char) { 'A' <= c <= 'Z' }

  predicate IsLowerChar(c: char) { 'a' <= c <= 'z' }

  predicate IsAlphaChar(c: char) { IsUpperChar(c) || IsLowerChar(c) }

  function LowerChar(c: char): char
  {
    if IsUpperChar(c) then (c as int + 32) as char else c
  }

  function UpperChar(c: char): char
  {
    if IsLowerChar(c) then (c as int - 32) as char else c
  }

  /** Python `s.lower()` on ASCII letters. */
  function Lower(s: string): (r: string)
    ensures |r| == |s|
    ensures forall i :: 0 <= i < |s| ==> r[i] == LowerChar(s[i])
  {
    seq(|s|, i requires 0 <= i < |s| => LowerChar(s[i]))
  }

  /** Python `s.upper()` on ASCII letters. */
  function Upper(s: string): (r: string)
    ensures |r| == |s|
    ensures forall i :: 0 <= i < |s| ==> r[i] == UpperChar(s[i])
  {
    seq(|s|, i requires 0 <= i < |s| => UpperChar(s[i]))
  }

  /** Python `s.isdigit()`: non-empty and all digits. */
  predicate AllDigits(s: string)
  {
    |s| > 0 && forall i :: 0 <= i < |s| ==> IsDigit(s[i])
  }

  /** Python `s.isalpha()`: non-empty and all letters. */
  predicate AllAlpha(s: string)
  {
    |s| > 0 && forall i :: 0 <= i < |s| ==> IsAlphaChar(s[i])
  }

  // ---------------------------------------------------------------------
  // Searching
  // ---------------------------------------------------------------------

  predicate StartsWith(s: string, p: string)
  {
    |p| <= |s| && s[..|p|] == p
  }

  predicate EndsWith(s: string, p: string)
  {
    |p| <= |s| && s[|s| - |p|..] == p
  }

  /** `p` occurs in `s` at position `i`. */
  predicate OccursAt(s: string, p: string, i: int)
  {
    0 <= i && i + |p| <= |s| && s[i..i + |p|] == p
  }

  /** Python `p in s`. */
  predicate Contains(s: string, p: string)
  {
    exists i :: 0 <= i <= |s| - |p| && OccursAt(s, p, i)
  }

  /** Python `kw in s.lower()`, the keyword test of every keyword scanner. */
  predicate ContainsLower(s: string, kw: string)
  {
    Contains(Lower(s), kw)
  }

  /** Python `any(k in s for k in kws)`. */
  predicate ContainsAny(s: string, kws: seq<string>)
  {
    exists k :: 0 <= k < |kws| && Contains(s, kws[k])
  }

  // ---------------------------------------------------------------------
  // Trimming and padding
  // ---------------------------------------------------------------------

  /** Python `s.lstrip()`. */
  function LStrip(s: string): (r: string)
    ensures |r| <= |s|
    ensures r == [] || !IsSpace(r[0])
    ensures forall i :: 0 <= i < |s| - |r| ==> IsSpace(s[i])
  {
    if s != [] && IsSpace(s[0]) then LStrip(s[1..]) else s
  }

  /** `s.lstrip()` is a suffix of `s`. */
  lemma {:induction false} LStripSuffix(s: string)
    ensures LStrip(s) == s[|s| - |LStrip(s)|..]
  {
    if s != [] && IsSpace(s[0]) {
      LStripSuffix(s[1..]);
    }
  }

  /** Python `s.rstrip()`. */
  function RStrip(s: string): (r: string)
    ensures |r| <= |s| && r == s[..|r|]
    ensures r == [] || !IsSpace(r[|r| - 1])
    ensures forall i :: |r| <= i < |s| ==> IsSpace(s[i])
  {
    if s != [] && IsSpace(s[|s| - 1]) then RStrip(s[..|s| - 1]) else s
  }

  /** Python `s.strip()`. */
  function Strip(s: string): string
  {
    RStrip(LStrip(s))
  }

  /** Python `s.rstrip(chars)` for an explicit character set. */
  function RStripChars(s: string, chars: set<char>): (r: string)
    ensures |r| <= |s| && r == s[..|r|]
    ensures r == [] || r[|r| - 1] !in chars
    ensures forall i :: |r| <= i < |s| ==> s[i] in chars
  {
    if s != [] && s[|s| - 1] in chars then RStripChars(s[..|s| - 1], chars) else s
  }

  /** `n` spaces. */
  function Spaces(n: nat): (r: string)
    ensures |r| == n
    ensures forall i :: 0 <= i < n ==> r[i] == ' '
  {
    seq(n, _ => ' ')
  }

  /** Python `s.ljust(w)`: `s` followed by the spaces that fill `w` columns. */
  function LJust(s: string, w: int): (r: string)
    ensures |r| == if |s| >= w then |s| else w
    ensures |s| <= |r| && r == s + Spaces(|r| - |s|)
  {
    if |s| >= w then s else s + Spaces(w - |s|)
  }

  /** Python `s.rjust(w)`: the spaces that fill `w` columns, then `s`. */
  function RJust(s: string, w: int): (r: string)
    ensures |r| == if |s| >= w then |s| else w
    ensures |s| <= |r| && r == Spaces(|r| - |s|) + s
  {
    if |s| >= w then s else Spaces(w - |s|) + s
  }

  /** Python `s[:n]` for a non-negative `n`. */
  function Take(s: string, n: nat): (r: string)
    ensures |r| == if n < |s| then n else |s|
    ensures r == s[..|r|]
  {
    if n < |s| then s[..n] else s
  }

  /** Resolves a Python slice bound against a sequence of length `len`. */
  function SliceIndex(i: int, len: nat): (r: nat)
    ensures r <= len
    ensures 0 <= i <= len ==> r == i
  {
    if i < 0 then (if i + len < 0 then 0 else i + len) else if i > len then len else i
  }

  /** Python `s[i:j]`, negative bounds counting from the end, both clamped. */
  function PySlice<T>(s: seq<T>, i: int, j: int): (r: seq<T>)
    ensures 0 <= i <= j <= |s| ==> r == s[i..j]
    ensures |r| <= |s|
  {
    var a := SliceIndex(i, |s|);
    var b := SliceIndex(j, |s|);
    if a <= b then s[a..b] else []
  }

  /** Python `s.split("\n")[0]`: everything before the first line feed. */
  function FirstLine(s: string): (r: string)
    ensures StartsWith(s, r) && '\n' !in r
    ensures r == s || s[|r|] == '\n'
  {
    if s == [] then [] else if s[0] == '\n' then [] else [s[0]] + FirstLine(s[1..])
  }

  /** Python `sep.join(parts)`. */
  function Join(parts: seq<string>, sep: string): string
  {
    if parts == [] then []
    else if |parts| == 1 then parts[0]
    else parts[0] + sep + Join(parts[1..], sep)
  }

  /** Python `s.replace(pat, rep)` for a non-empty `pat`, left to right. */
  function ReplaceAll(s: string, pat: string, rep: string): string
    requires pat != []
    decreases |s|
  {
    if |s| < |pat| then s
    else if s[..|pat|] == pat then rep + ReplaceAll(s[|pat|..], pat, rep)
    else [s[0]] + ReplaceAll(s[1..], pat, rep)
  }

  /** Python `s.split()`: the maximal runs of non-whitespace, in order. */
  function SplitWs(s: string): (r: seq<string>)
    ensures forall k :: 0 <= k < |r| ==> r[k] != [] && forall i :: 0 <= i < |r[k]| ==> !IsSpace(r[k][i])
    decreases |s|
  {
    var t := LStrip(s);
    if t == [] then []
    else
      var w := Word(t);
      [w] + SplitWs(t[|w|..])
  }

  /** The leading run of non-whitespace of `s`. */
  function Word(s: string): (r: string)
    ensures StartsWith(s, r)
    ensures forall i :: 0 <= i < |r| ==> !IsSpace(r[i])
    ensures s != [] && !IsSpace(s[0]) ==> r != []
  {
    if s == [] || IsSpace(s[0]) then [] else [s[0]] + Word(s[1..])
  }

  // ---------------------------------------------------------------------
  // Decimal integers
  // ---------------------------------------------------------------------

  function DigitChar(d: nat): char
    requires d < 10
  {
    ('0' as int + d) as char
  }

  function DigitValue(c: char): nat
    requires IsDigit(c)
  {
    c as int - '0' as int
  }

  /** Decimal digits of `n`, most significant first, no leading zeros. */
  function NatToStr(n: nat): (r: string)
    ensures AllDigits(r)
    ensures r[0] == '0' ==> n == 0
  {
    if n < 10 then [DigitChar(n)] else NatToStr(n / 10) + [DigitChar(n % 10)]
  }

  /** Python `str(n)`. */
  function IntToStr(n: int): string
  {
    if n < 0 then "-" + NatToStr(-n) else NatToStr(n)
  }

  /** Python `f"{n:Wd}"`: the decimal form right-justified to width `w`. */
  function FormatInt(n: int, w: nat): string
  {
    RJust(IntToStr(n), w)
  }

  /** Value of a string of decimal digits. */
  function DigitsValue(s: string): nat
    requires forall i :: 0 <= i < |s| ==> IsDigit(s[i])
  {
    if s == [] then 0 else DigitsValue(s[..|s| - 1]) * 10 + DigitValue(s[|s| - 1])
  }

  /**
   * Python `int(s)` on text: surrounding whitespace, an optional sign and at
   * least one digit. `None` stands for the `ValueError` Python raises.
   */
  function ParseInt(s: string): (r: Option<int>)
    ensures r.Some? ==> Strip(s) != []
  {
    var t := Strip(s);
    if t == [] then None
    else
      var neg := t[0] == '-';
      var body := if t[0] == '-' || t[0] == '+' then t[1..] else t;
      if AllDigits(body) then
        var v: int := DigitsValue(body);
        Some(if neg then -v else v)
      else None
  }

  lemma {:induction false} DigitsValueOfNatToStr(n: nat)
    ensures DigitsValue(NatToStr(n)) == n
  {
    if n >= 10 {
      var s := NatToStr(n);
      assert s[..|s| - 1] == NatToStr(n / 10);
      DigitsValueOfNatToStr(n / 10);
    }
  }

  lemma StripOfTrimmed(s: string)
    requires s != [] && !IsSpace(s[0]) && !IsSpace(s[|s| - 1])
    ensures Strip(s) == s
  {
    assert LStrip(s) == s;
    assert RStrip(s) == s;
  }

  /** Reading back a rendered integer gives the integer: `int(str(n)) == n`. */
  lemma ParseIntOfIntToStr(n: int)
    ensures ParseInt(IntToStr(n)) == Some(n)
  {
    var s := IntToStr(n);
    var d := NatToStr(if n < 0 then -n else n);
    assert AllDigits(d) && d != [];
    assert IsDigit(d[|d| - 1]) && IsDigit(d[0]);
    if n < 0 {
      DigitsValueOfNatToStr(-n);
      assert s == "-" + d;
      assert s[1..] == d;
      StripOfTrimmed(s);
    } else {
      DigitsValueOfNatToStr(n);
      assert s == d;
      StripOfTrimmed(s);
    }
  }

  /** `{n:Wd}` of a number with at most `w` digits fills exactly `w` columns. */
  lemma {:induction false} NatToStrLength(n: nat, w: nat)
    requires 0 < w && n < Pow10(w)
    ensures |NatToStr(n)| <= w
  {
    if n >= 10 {
      Pow10Step(w - 1);
      NatToStrLength(n / 10, w - 1);
    }
  }

  function Pow10(k: nat): (r: nat)
    ensures r >= 1
  {
    if k == 0 then 1 else 10 * Pow10(k - 1)
  }

  lemma Pow10Step(k: nat)
    ensures Pow10(k + 1) == 10 * Pow10(k)
  {
  }

  lemma FormatIntWidth(n: nat, w: nat)
    requires 0 < w && n < Pow10(w)
    ensures |FormatInt(n, w)| == w
  {
    NatToStrLength(n, w);
  }

  /** A serial below 100000 fills the five serial columns and reads back. */
  lemma FormatSerialWidth5(serial: nat)
    requires serial < 100000
    ensures |FormatInt(serial, 5)| == 5 && ParseInt(FormatInt(serial, 5)) == Some(serial)
  {
    FormatSerialShape(serial);
    PaddedReadsBack(serial, 5);
  }

  /** A serial below 100000 fills the five serial columns and ends in a digit. */
  lemma FormatSerialShape(serial: nat)
    requires serial < 100000
    ensures var f := FormatInt(serial, 5);
      |f| == 5 && IsDigit(f[4])
  {
    assert Pow10(5) == 100000 by {
      assert Pow10(1) == 10;
      assert Pow10(2) == 100;
      assert Pow10(3) == 1000;
      assert Pow10(4) == 10000;
    }
    FormatIntWidth(serial, 5);
    FormatIntEndsWithDigit(serial, 5);
  }

  /** A residue number from 0 to 9999 fills the four residue-number columns and reads back. */
  lemma FormatResidueWidth4(n: nat)
    requires n < 10000
    ensures |FormatInt(n, 4)| == 4 && ParseInt(FormatInt(n, 4)) == Some(n)
  {
    assert Pow10(4) == 10000 by {
      assert Pow10(1) == 10;
      assert Pow10(2) == 100;
      assert Pow10(3) == 1000;
    }
    FormatIntWidth(n, 4);
    PaddedReadsBack(n, 4);
  }

  /** A right-justified natural number reads back whatever the width. */
  lemma PaddedReadsBack(n: nat, w: nat)
    ensures ParseInt(FormatInt(n, w)) == Some(n)
  {
    ParseIntOfIntToStr(n);
    var d := NatToStr(n);
    assert IntToStr(n) == d;
    assert IsDigit(d[0]) && IsDigit(d[|d| - 1]);
    StripOfPadded(d, w);
  }

  /** Stripping a right-justified number gives the number back. */
  lemma StripOfPadded(d: string, w: nat)
    requires d != [] && !IsSpace(d[0]) && !IsSpace(d[|d| - 1])
    ensures Strip(RJust(d, w)) == d
    decreases w
  {
    var f := RJust(d, w);
    if |f| > |d| {
      assert f == [' '] + RJust(d, w - 1) by {
        assert Spaces(|f| - |d|) == [' '] + Spaces(|f| - |d| - 1);
      }
      StripOfPadded(d, w - 1);
      assert LStrip(f) == LStrip(f[1..]);
    } else {
      assert f == d;
      StripOfTrimmed(d);
    }
  }

  /** A formatted integer ends with a digit, so it is never all blank. */
  lemma FormatIntEndsWithDigit(n: int, w: nat)
    ensures var f := FormatInt(n, w);
      f != [] && IsDigit(f[|f| - 1])
  {
    var d := NatToStr(if n < 0 then -n else n);
    assert IsDigit(d[|d| - 1]);
    assert IntToStr(n) == (if n < 0 then "-" + d else d);
    assert IntToStr(n)[|IntToStr(n)| - 1] == d[|d| - 1];
  }
}
