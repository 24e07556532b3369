/**
 * Decimal text as Python writes it with `str(int)` and `'%02d'`, and reads it with `int(str)`.
 * Only ASCII digits are modelled.
 */
module Text {

  predicate IsDigit(c: char) {
    '0' <= c <= '9'
  }

  predicate AllDigits(s: string) {
    forall i :: 0 <= i < |s| ==> IsDigit(s[i])
  }

  /** A run of one or more digits, what the regular expression `\d+` matches. */
  predicate IsDigitRun(s: string) {
    |s| > 0 && AllDigits(s)
  }

  function DigitValue(c: char): (v: nat)
    requires IsDigit(c)
    ensures v < 10
  {
    c as int - '0' as int
  }

  function DigitChar(d: nat): (c: char)
    requires d < 10
    ensures IsDigit(c) && DigitValue(c) == d
  {
    ('0' as int + d) as char
  }

  /** `int(s)` for a string of ASCII digits; leading zeros are accepted. A string of k digits denotes a number below 10^k. */
  function ParseNat(s: string): (n: nat)
    requires AllDigits(s)
    ensures n < Pow10(|s|)
  {
    if s == [] then 0 else ParseNat(s[..|s| - 1]) * 10 + DigitValue(s[|s| - 1])
  }

  /** `str(n)` for a non-negative integer: no leading zeros. */
  function NatToString(n: nat): (s: string)
    ensures IsDigitRun(s)
  {
    if n < 10 then [DigitChar(n)] else NatToString(n / 10) + [DigitChar(n % 10)]
  }

  /** `str(i)` for any integer: a minus sign exactly for a negative number, then the digits of its magnitude. */
  function IntToString(i: int): (s: string)
    ensures |s| > 0 && (s[0] == '-' <==> i < 0)
    ensures i >= 0 ==> IsDigitRun(s) && ParseNat(s) == i
    ensures i < 0 ==> IsDigitRun(s[1..]) && ParseNat(s[1..]) == -i
  {
    if i < 0 then
      ParseNatToString(-i);
      assert ("-" + NatToString(-i))[1..] == NatToString(-i);
      "-" + NatToString(-i)
    else
      ParseNatToString(i);
      NatToString(i)
  }

  /** `'%0<width>d' % n`: the decimal digits of `n`, left-padded with zeros to `width`. */
  function ZeroPad(n: nat, width: nat): (s: string)
    ensures IsDigitRun(s)
    decreases width
  {
    var digits := NatToString(n);
    if |digits| >= width then digits else "0" + ZeroPad(n, width - 1)
  }

  lemma {:induction false} ParseNatToString(n: nat)
    ensures ParseNat(NatToString(n)) == n
  {
    if n >= 10 {
      var s := NatToString(n);
      assert s[..|s| - 1] == NatToString(n / 10);
      ParseNatToString(n / 10);
    }
  }

  lemma {:induction false} ParseNatLeadingZero(s: string)
    requires AllDigits(s)
    ensures AllDigits("0" + s) && ParseNat("0" + s) == ParseNat(s)
  {
    if s != [] {
      assert ("0" + s)[..|"0" + s| - 1] == "0" + s[..|s| - 1];
      ParseNatLeadingZero(s[..|s| - 1]);
    }
  }

  lemma {:induction false} ParseZeroPad(n: nat, width: nat)
    ensures ParseNat(ZeroPad(n, width)) == n
    decreases width
  {
    var digits := NatToString(n);
    if |digits| >= width {
      ParseNatToString(n);
    } else {
      ParseZeroPad(n, width - 1);
      ParseNatLeadingZero(ZeroPad(n, width - 1));
    }
  }

  function Pow10(k: nat): (p: nat)
    ensures p >= 1
  {
    if k == 0 then 1 else 10 * Pow10(k - 1)
  }

  /** A number below 10^k has at most k digits. */
  lemma {:induction false} NatToStringLength(n: nat, k: nat)
    requires k >= 1 && n < Pow10(k)
    ensures |NatToString(n)| <= k
  {
    if n >= 10 {
      NatToStringLength(n / 10, k - 1);
    }
  }

  /** Padding to a width at least the digit count gives exactly that width. */
  lemma {:induction false} ZeroPadLength(n: nat, width: nat)
    requires |NatToString(n)| <= width
    ensures |ZeroPad(n, width)| == width
    decreases width
  {
    if |NatToString(n)| < width {
      ZeroPadLength(n, width - 1);
    }
  }


  /** `separator.join(texts)`: the texts in order, with the separator between each two. */
  function JoinWith(texts: seq<string>, separator: string): (s: string)
    ensures texts == [] ==> s == ""
    ensures texts != [] ==> |texts[0]| <= |s| && s[..|texts[0]|] == texts[0]
  {
    if texts == [] then "" else if |texts| == 1 then texts[0] else texts[0] + separator + JoinWith(texts[1..], separator)
  }

  /** `s.find(c)`, with `|s|` for -1: the first position of `c`. */
  function Find(s: string, c: char): (i: nat)
    ensures i <= |s| && (i < |s| ==> s[i] == c)
    ensures forall k :: 0 <= k < i ==> s[k] != c
  {
    if s == [] then 0 else if s[0] == c then 0 else 1 + Find(s[1..], c)
  }

  /** `s.split(c)` for a one-character separator: the pieces between the separators, none holding one. */
  function SplitOn(s: string, c: char): (parts: seq<string>)
    ensures |parts| >= 1 && forall k :: 0 <= k < |parts| ==> c !in parts[k]
    decreases |s|
  {
    var i := Find(s, c);
    if i == |s| then [s] else [s[..i]] + SplitOn(s[i + 1..], c)
  }

  /** Joining the pieces of a split with the same character gives the text back. */
  lemma {:induction false} JoinSplit(s: string, c: char)
    ensures JoinWith(SplitOn(s, c), [c]) == s
    decreases |s|
  {
    var i := Find(s, c);
    if i < |s| {
      JoinSplit(s[i + 1..], c);
      var parts := SplitOn(s, c);
      assert parts == [s[..i]] + SplitOn(s[i + 1..], c);
      assert s == s[..i] + [c] + s[i + 1..];
    }
  }

  /** Splitting a join of texts free of the separator character gives the texts back. */
  lemma {:induction false} SplitJoin(texts: seq<string>, c: char)
    requires texts != [] && forall k :: 0 <= k < |texts| ==> c !in texts[k]
    ensures SplitOn(JoinWith(texts, [c]), c) == texts
  {
    var t := texts[0];
    var s := JoinWith(texts, [c]);
    if |texts| == 1 {
      assert c !in t;
      assert Find(s, c) == |s|;
    } else {
      var rest := JoinWith(texts[1..], [c]);
      SplitAfterPiece(t, c, rest);
      SplitJoin(texts[1..], c);
      assert texts == [t] + texts[1..];
    }
  }

  /** A piece free of the separator, then the separator: the split's first part is that piece. */
  lemma SplitAfterPiece(t: string, c: char, rest: string)
    requires c !in t
    ensures SplitOn(t + [c] + rest, c) == [t] + SplitOn(rest, c)
  {
    var s := t + [c] + rest;
    FindAfter(t, c, rest);
    assert s[..|t|] == t && s[|t| + 1..] == rest;
  }

  /** The first separator after a piece free of it is right after that piece. */
  lemma {:induction false} FindAfter(t: string, c: char, rest: string)
    requires c !in t
    ensures Find(t + [c] + rest, c) == |t|
  {
    if t != [] {
      assert (t + [c] + rest)[1..] == t[1..] + [c] + rest;
      FindAfter(t[1..], c, rest);
    }
  }
}
