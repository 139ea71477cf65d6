/** The few string operations of Go's `fmt` and `strings` packages that
    the model needs, each with the property the callers rely on. */
module Text {

  /** The character of a decimal digit. */
  function DigitChar(d: nat): (c: char)
    requires d < 10
    ensures '0' <= c <= '9'
    ensures c as int - '0' as int == d
  {
    "0123456789"[d]
  }

  /** `fmt.Sprintf("%d", n)` for a non-negative `n`: shortest decimal
      numeral, no sign, no leading zero. */
  function NatToString(n: nat): (s: string)
    ensures |s| >= 1
    ensures forall i :: 0 <= i < |s| ==> '0' <= s[i] <= '9'
    ensures s[0] == '0' <==> n == 0
    decreases n
  {
    if n < 10 then [DigitChar(n)] else NatToString(n / 10) + [DigitChar(n % 10)]
  }

  /** The value of a string of decimal digits: the reading direction of
      `NatToString`. */
  function DigitsValue(s: string): nat
  {
    if |s| == 0 then 0
    else
      var d := s[|s| - 1] as int - '0' as int;
      DigitsValue(s[..|s| - 1]) * 10 + (if 0 <= d then d else 0)
  }

  /** Reading back the numeral that `NatToString` writes gives the number. */
  lemma {:induction false} NatToStringRoundTrip(n: nat)
    ensures DigitsValue(NatToString(n)) == n
    decreases n
  {
    if n >= 10 {
      var s := NatToString(n);
      var prefix := NatToString(n / 10);
      assert s == prefix + [DigitChar(n % 10)];
      assert s[..|s| - 1] == prefix;
      NatToStringRoundTrip(n / 10);
    }
  }

  /** Distinct numbers are written as distinct numerals. */
  lemma NatToStringInjective(a: nat, b: nat)
    ensures NatToString(a) == NatToString(b) ==> a == b
  {
    NatToStringRoundTrip(a);
    NatToStringRoundTrip(b);
  }

  /** `fmt.Sprintf("%d", i)` for any `int`: a minus sign before the
      magnitude of a negative number. */
  function IntToString(i: int): (s: string)
    ensures |s| >= 1
    ensures s[0] == '-' <==> i < 0
  {
    if i < 0 then "-" + NatToString(-i) else NatToString(i)
  }

  /** Distinct integers are written as distinct numerals. */
  lemma IntToStringInjective(a: int, b: int)
    ensures IntToString(a) == IntToString(b) ==> a == b
  {
    if IntToString(a) == IntToString(b) {
      if a < 0 && b < 0 {
        var sa, sb := NatToString(-a), NatToString(-b);
        assert ("-" + sa)[1..] == sa && ("-" + sb)[1..] == sb;
        NatToStringInjective(-a, -b);
      } else if 0 <= a && 0 <= b {
        NatToStringInjective(a, b);
      }
    }
  }

  /** The runes of the Unicode White_Space property, which Go's
      `unicode.IsSpace` tests: the Latin-1 ones first, carriage return
      leading, then U+1680, U+2000 to U+200A and the rest. */
  const SpaceRunes: seq<char> :=
    [ '\r', '\t', '\n', '\U{000B}', '\U{000C}', ' ', '\U{0085}', '\U{00A0}', '\U{1680}',
      '\U{2000}', '\U{2001}', '\U{2002}', '\U{2003}', '\U{2004}', '\U{2005}', '\U{2006}',
      '\U{2007}', '\U{2008}', '\U{2009}', '\U{200A}',
      '\U{2028}', '\U{2029}', '\U{202F}', '\U{205F}', '\U{3000}' ]

  /** `c` is one of `SpaceRunes[i..]`. */
  predicate SpaceFrom(c: char, i: nat)
    decreases |SpaceRunes| - i
  {
    i < |SpaceRunes| && (SpaceRunes[i] == c || SpaceFrom(c, i + 1))
  }

  /** Go's `unicode.IsSpace`. */
  predicate IsSpace(c: char)
  {
    SpaceFrom(c, 0)
  }

  /** Carriage return is white space. */
  lemma CarriageReturnIsSpace()
    ensures IsSpace('\r')
  {
  }

  /** Every character of `t` is white space. */
  predicate AllSpace(t: string)
  {
    forall k :: 0 <= k < |t| ==> IsSpace(t[k])
  }

  /** Where the run of white space starting at `i` ends: the leading
      white space `strings.TrimLeft` cuts when `i` is 0. */
  function SpaceEnd(s: string, i: nat): (j: nat)
    requires i <= |s|
    ensures i <= j <= |s|
    ensures forall k :: i <= k < j ==> IsSpace(s[k])
    ensures j < |s| ==> !IsSpace(s[j])
    decreases |s| - i
  {
    if i < |s| && IsSpace(s[i]) then SpaceEnd(s, i + 1) else i
  }

  /** Where the run of white space ending at `j` starts, looking no
      further back than `lo`: the trailing white space `strings.TrimRight`
      cuts. */
  function SpaceStart(s: string, lo: nat, j: nat): (i: nat)
    requires lo <= j <= |s|
    ensures lo <= i <= j
    ensures forall k :: i <= k < j ==> IsSpace(s[k])
    ensures i > lo ==> !IsSpace(s[i - 1])
    decreases j
  {
    if j > lo && IsSpace(s[j - 1]) then SpaceStart(s, lo, j - 1) else j
  }

  /** `strings.TrimSpace`: `s` without its leading and trailing white
      space; the result neither starts nor ends with it. */
  function TrimSpace(s: string): (r: string)
    ensures |r| <= |s|
    ensures |r| > 0 ==> !IsSpace(r[0]) && !IsSpace(r[|r| - 1])
  {
    var lo := SpaceEnd(s, 0);
    s[lo..SpaceStart(s, lo, |s|)]
  }

  /** The trim is a contiguous piece of `s`, and everything cut off on
      either side is white space. */
  lemma TrimSpaceCutsSpace(s: string)
    ensures exists lo, hi :: 0 <= lo <= hi <= |s| && TrimSpace(s) == s[lo..hi]
                             && (forall k :: 0 <= k < lo ==> IsSpace(s[k]))
                             && (forall k :: hi <= k < |s| ==> IsSpace(s[k]))
  {
    var lo := SpaceEnd(s, 0);
    var hi := SpaceStart(s, lo, |s|);
    assert TrimSpace(s) == s[lo..hi];
  }

  /** A string that neither starts nor ends with white space is its own
      trim. */
  lemma TrimSpaceOfTrimmed(s: string)
    requires |s| > 0 ==> !IsSpace(s[0]) && !IsSpace(s[|s| - 1])
    ensures TrimSpace(s) == s
  {
  }

  /** The trim is empty exactly when the string is all white space. */
  lemma TrimSpaceEmpty(s: string)
    ensures TrimSpace(s) == [] <==> AllSpace(s)
  {
    var lo := SpaceEnd(s, 0);
    var hi := SpaceStart(s, lo, |s|);
    if TrimSpace(s) == [] {
      assert hi == lo;
    } else {
      assert !IsSpace(s[lo]);
    }
  }

  /** `strings.ReplaceAll(s, [c], "")`: `s` with every `c` deleted. */
  function RemoveAll(s: string, c: char): (r: string)
    ensures c !in r
    ensures forall x :: x != c ==> multiset(r)[x] == multiset(s)[x]
  {
    if |s| == 0 then []
    else
      assert s == [s[0]] + s[1..];
      if s[0] == c then RemoveAll(s[1..], c) else [s[0]] + RemoveAll(s[1..], c)
  }

  /** Deleting is done character by character, in order: a single
      character is kept exactly when it is not `c`, and the deletion of a
      concatenation is the concatenation of the deletions.  Together these
      pin `RemoveAll` down completely, order included. */
  lemma RemoveAllOne(x: char, c: char)
    ensures RemoveAll([x], c) == if x == c then [] else [x]
  {
    assert [x][1..] == [];
  }

  /** The deletion of a concatenation is the concatenation of the deletions. */
  lemma {:induction false} RemoveAllAppend(a: string, b: string, c: char)
    ensures RemoveAll(a + b, c) == RemoveAll(a, c) + RemoveAll(b, c)
    decreases |a|
  {
    if |a| == 0 {
      assert a + b == b;
    } else {
      assert (a + b)[0] == a[0];
      assert (a + b)[1..] == a[1..] + b;
      RemoveAllAppend(a[1..], b, c);
    }
  }

  /** Deleting a character other than the last keeps the last. */
  lemma {:induction false} RemoveAllKeepsLast(s: string, c: char)
    requires |s| > 0 && s[|s| - 1] != c
    ensures |RemoveAll(s, c)| > 0
    ensures RemoveAll(s, c)[|RemoveAll(s, c)| - 1] == s[|s| - 1]
  {
    if |s| > 1 {
      RemoveAllKeepsLast(s[1..], c);
    }
  }

  /** `strings.ToLower` for one rune, as far as it can matter when the
      result is compared with an ASCII word: ASCII upper case letters, and
      the two non-ASCII runes Go lowers to ASCII letters (KELVIN SIGN and
      LATIN CAPITAL LETTER I WITH DOT ABOVE).  Every other rune is kept;
      Go lowers some of them, always to a non-ASCII rune. */
  function LowerRune(c: char): (l: char)
    ensures 'A' <= c <= 'Z' ==> l as int == c as int + 32
  {
    if 'A' <= c <= 'Z' then (c as int + 32) as char
    else if c == '\U{212A}' then 'k'
    else if c == '\U{0130}' then 'i'
    else c
  }

  /** `strings.ToLower`, rune by rune. */
  function ToLower(s: string): (r: string)
    ensures |r| == |s|
    ensures forall i :: 0 <= i < |s| ==> r[i] == LowerRune(s[i])
  {
    if |s| == 0 then [] else [LowerRune(s[0])] + ToLower(s[1..])
  }
}
