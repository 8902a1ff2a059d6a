/** The pieces of Go's `strings`, `unicode`, `strconv`/`fmt` and UTF-8
    conversion that the web layer relies on, stated on `seq<char>`. */
module Text {

  /** An octet of a request or response body. */
  newtype byte = x: int | 0 <= x < 256

  // ---------------------------------------------------------------------------
  // Whitespace and trimming (strings.TrimSpace)
  // ---------------------------------------------------------------------------

  /** Go's `unicode.IsSpace`: the Unicode White_Space property. */
  predicate IsSpace(c: char) {
    || ('\t' <= c <= '\r')
    || c == ' '
    || c == '\U{85}'
    || c == '\U{A0}'
    || c == '\U{1680}'
    || ('\U{2000}' <= c <= '\U{200A}')
    || c == '\U{2028}'
    || c == '\U{2029}'
    || c == '\U{202F}'
    || c == '\U{205F}'
    || c == '\U{3000}'
  }

  /** Every character of `s` from `lo` up to `hi` is white space. */
  predicate SpaceBetween(s: string, lo: int, hi: int)
    requires 0 <= lo && hi <= |s|
  {
    forall k :: lo <= k < hi ==> IsSpace(s[k])
  }

  /** Drops leading white space; the result is a suffix of `s`. */
  function TrimLeftSpace(s: string): (r: string)
    ensures |r| <= |s| && r == s[|s| - |r|..]
    ensures r == [] || !IsSpace(r[0])
  {
    if |s| > 0 && IsSpace(s[0]) then TrimLeftSpace(s[1..]) else s
  }

  /** Drops trailing white space; the result is a prefix of `s`. */
  function TrimRightSpace(s: string): (r: string)
    ensures |r| <= |s| && r == s[..|r|]
    ensures r == [] || !IsSpace(r[|r| - 1])
  {
    if |s| > 0 && IsSpace(s[|s| - 1]) then TrimRightSpace(s[..|s| - 1]) else s
  }

  /** `strings.TrimSpace`: the characters left are a contiguous run of the
      input, starting where the leading white space ends, with no white
      space at either end. */
  function TrimSpace(s: string): (r: string)
    ensures |s| - |TrimLeftSpace(s)| + |r| <= |s|
    ensures r == s[|s| - |TrimLeftSpace(s)|..|s| - |TrimLeftSpace(s)| + |r|]
    ensures r == [] || (!IsSpace(r[0]) && !IsSpace(r[|r| - 1]))
  {
    var l := TrimLeftSpace(s);
    PrefixOfSuffix(s, l, TrimRightSpace(l));
    TrimRightSpace(l)
  }

  /** What `TrimLeftSpace` drops is white space. */
  lemma {:induction false} TrimLeftSpaceCutsOnlySpace(s: string)
    ensures SpaceBetween(s, 0, |s| - |TrimLeftSpace(s)|)
    decreases |s|
  {
    if |s| > 0 && IsSpace(s[0]) {
      TrimLeftSpaceCutsOnlySpace(s[1..]);
      forall k | 1 <= k < |s| - |TrimLeftSpace(s)|
        ensures IsSpace(s[k])
      {
        assert s[k] == s[1..][k - 1];
      }
    }
  }

  /** What `TrimRightSpace` drops is white space. */
  lemma {:induction false} TrimRightSpaceCutsOnlySpace(s: string)
    ensures SpaceBetween(s, |TrimRightSpace(s)|, |s|)
    decreases |s|
  {
    if |s| > 0 && IsSpace(s[|s| - 1]) {
      var init := s[..|s| - 1];
      TrimRightSpaceCutsOnlySpace(init);
      forall k | |TrimRightSpace(s)| <= k < |s| - 1
        ensures IsSpace(s[k])
      {
        assert s[k] == init[k];
      }
    }
  }

  /** A prefix of a suffix of `s` is a slice of `s`. */
  lemma PrefixOfSuffix(s: string, l: string, r: string)
    requires |l| <= |s| && l == s[|s| - |l|..]
    requires |r| <= |l| && r == l[..|r|]
    ensures var i := |s| - |l|; i + |r| <= |s| && r == s[i..i + |r|]
  {
    var i := |s| - |l|;
    forall k | 0 <= k < |r|
      ensures r[k] == s[i + k]
    {
      assert r[k] == l[k];
    }
  }

  /** `TrimSpace` removes only white space: everything before and after the
      slice it keeps is white space. */
  lemma TrimSpaceCutsOnlySpace(s: string)
    ensures var i := |s| - |TrimLeftSpace(s)|;
      i + |TrimSpace(s)| <= |s| && SpaceBetween(s, 0, i) && SpaceBetween(s, i + |TrimSpace(s)|, |s|)
  {
    var l := TrimLeftSpace(s);
    var r := TrimRightSpace(l);
    var i := |s| - |l|;
    TrimLeftSpaceCutsOnlySpace(s);
    TrimRightSpaceCutsOnlySpace(l);
    assert TrimSpace(s) == r;
    forall k | i + |r| <= k < |s|
      ensures IsSpace(s[k])
    {
      assert s[k] == l[k - i];
    }
  }

  /** A string that already has no white space at either end is left alone. */
  lemma TrimSpaceOfTrimmed(s: string)
    requires s == [] || (!IsSpace(s[0]) && !IsSpace(s[|s| - 1]))
    ensures TrimSpace(s) == s
  {
  }

  /** Trimming twice is trimming once. */
  lemma TrimSpaceIdempotent(s: string)
    ensures TrimSpace(TrimSpace(s)) == TrimSpace(s)
  {
    TrimSpaceOfTrimmed(TrimSpace(s));
  }

  /** Every character of `TrimSpace(s)` is a character of `s`. */
  lemma TrimSpaceKeepsCharacters(s: string, c: char)
    requires c in TrimSpace(s)
    ensures c in s
  {
    var r := TrimSpace(s);
    var i := |s| - |TrimLeftSpace(s)|;
    var k :| 0 <= k < |r| && r[k] == c;
    assert s[i + k] == r[k];
  }

  // ---------------------------------------------------------------------------
  // Upper-casing (strings.ToUpper) and separator rewriting (strings.ReplaceAll)
  // ---------------------------------------------------------------------------

  /** Upper-cases one character (ASCII letters only, see README). */
  function UpperChar(c: char): char {
    if 'a' <= c <= 'z' then (c as int - 32) as char else c
  }

  /** `strings.ToUpper`, character by character. */
  function ToUpper(s: string): (r: string)
  {
    seq(|s|, i requires 0 <= i < |s| => UpperChar(s[i]))
  }

  /** Upper-casing is idempotent, so comparing upper-cased strings is an
      equivalence that ignores the case of letters. */
  lemma ToUpperIdempotent(s: string)
    ensures ToUpper(ToUpper(s)) == ToUpper(s)
  {
  }

  /** `strings.ReplaceAll(s, "\\", "/")`. */
  function SlashBackslashes(s: string): (r: string)
    ensures |r| == |s|
    ensures '\\' !in r
  {
    seq(|s|, i requires 0 <= i < |s| => if s[i] == '\\' then '/' else s[i])
  }

  /** Rewriting separators in a string that has no backslash changes nothing. */
  lemma SlashBackslashesNoop(s: string)
    requires '\\' !in s
    ensures SlashBackslashes(s) == s
  {
  }

  // ---------------------------------------------------------------------------
  // Decimal rendering (`%v` of an integer) and its inverse
  // ---------------------------------------------------------------------------

  predicate IsDigit(c: char) {
    '0' <= c <= '9'
  }

  function DigitChar(d: nat): (c: char)
    requires d < 10
    ensures IsDigit(c)
  {
    (48 + d) as char
  }

  /** Decimal text of a natural number, most significant digit first. */
  function NatToString(n: nat): (s: string)
    ensures |s| >= 1
    ensures forall i :: 0 <= i < |s| ==> IsDigit(s[i])
  {
    if n < 10 then [DigitChar(n)] else NatToString(n / 10) + [DigitChar(n % 10)]
  }

  /** `fmt.Sprintf("%v", i)` for an integer. */
  function IntToString(i: int): (s: string)
    ensures |s| >= 1
  {
    if i < 0 then "-" + NatToString(-i) else NatToString(i)
  }

  /** Reads back a string of decimal digits (what a client does with a
      Content-Length header). */
  function ParseDecimal(s: string): int
    requires forall i :: 0 <= i < |s| ==> IsDigit(s[i])
  {
    if s == [] then 0
    else 10 * ParseDecimal(s[..|s| - 1]) + (s[|s| - 1] as int - 48)
  }

  /** Rendering a number in decimal loses nothing: parsing gives it back. */
  lemma {:induction false} ParseNatToString(n: nat)
    ensures ParseDecimal(NatToString(n)) == n
  {
    var s := NatToString(n);
    if n >= 10 {
      ParseNatToString(n / 10);
      assert s[..|s| - 1] == NatToString(n / 10);
    } else {
      assert s[..|s| - 1] == [];
    }
  }

  // ---------------------------------------------------------------------------
  // UTF-8 (Go's conversion from string to []byte)
  // ---------------------------------------------------------------------------

  /** The UTF-8 encoding of one Unicode scalar value. */
  function Utf8Char(c: char): (bs: seq<byte>)
    ensures 1 <= |bs| <= 4
    ensures c as int < 0x80 <==> |bs| == 1
  {
    var cp := c as int;
    if cp < 0x80 then [cp as byte]
    else if cp < 0x800 then [(0xC0 + cp / 64) as byte, (0x80 + cp % 64) as byte]
    else if cp < 0x1_0000 then
      [(0xE0 + cp / 4096) as byte, (0x80 + cp / 64 % 64) as byte, (0x80 + cp % 64) as byte]
    else
      [(0xF0 + cp / 262144) as byte, (0x80 + cp / 4096 % 64) as byte,
       (0x80 + cp / 64 % 64) as byte, (0x80 + cp % 64) as byte]
  }

  /** `[]byte(s)`. */
  function Utf8(s: string): (bs: seq<byte>)
    ensures |s| <= |bs| <= 4 * |s|
  {
    if s == [] then [] else Utf8Char(s[0]) + Utf8(s[1..])
  }
}
