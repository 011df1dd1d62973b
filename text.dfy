/**
  The few Java string operations the firewall relies on: `String.startsWith`
  and `java.util.StringTokenizer` with a one-character delimiter, stated
  exactly, and the decimal text `Float.toString` writes for an amount, which
  the model matches for zero and for magnitudes from 0.001 to below 16384
  units.
*/
module Text {
  import opened Wrappers

  /** `s.startsWith(p)`. */
  predicate StartsWith(s: string, p: string) {
    |p| <= |s| && s[..|p|] == p
  }

  // ---------------------------------------------------------------------------
  // Splitting and tokenizing
  // ---------------------------------------------------------------------------

  /** The pieces of `s` between occurrences of `d`, empty pieces included. */
  function Split(s: string, d: char): (r: seq<string>)
    ensures |r| >= 1
    ensures forall i :: 0 <= i < |r| ==> d !in r[i]
  {
    if s == [] then [""]
    else
      var rest := Split(s[1..], d);
      if s[0] == d then [""] + rest
      else [[s[0]] + rest[0]] + rest[1..]
  }

  /** The pieces joined with `d` between neighbours. */
  function Join(pieces: seq<string>, d: char): (r: string)
    requires |pieces| >= 1
  {
    if |pieces| == 1 then pieces[0]
    else pieces[0] + [d] + Join(pieces[1..], d)
  }

  /** The non-empty pieces, in order. */
  function NonEmpty(pieces: seq<string>): (r: seq<string>)
    ensures forall i :: 0 <= i < |r| ==> |r[i]| > 0 && r[i] in pieces
  {
    if pieces == [] then []
    else (if pieces[0] == "" then [] else [pieces[0]]) + NonEmpty(pieces[1..])
  }

  /**
    The tokens `new StringTokenizer(s, d)` yields: the maximal runs of
    characters other than `d`. Delimiters next to each other, or at either end,
    give no empty token.
  */
  function Tokens(s: string, d: char): (r: seq<string>)
    ensures forall i :: 0 <= i < |r| ==> |r[i]| > 0 && d !in r[i]
  {
    NonEmpty(Split(s, d))
  }

  /** Splitting a piece free of `d` followed by `d` starts with that piece. */
  lemma {:induction false} SplitPrefix(a: string, d: char, b: string)
    requires d !in a
    ensures Split(a + [d] + b, d) == [a] + Split(b, d)
  {
    if a == [] {
      assert a + [d] + b == [d] + b;
      assert ([d] + b)[1..] == b;
    } else {
      assert (a + [d] + b)[1..] == a[1..] + [d] + b;
      SplitPrefix(a[1..], d, b);
      assert [a[0]] + a[1..] == a;
    }
  }

  /** A piece free of `d` splits to itself. */
  lemma {:induction false} SplitPlain(a: string, d: char)
    requires d !in a
    ensures Split(a, d) == [a]
  {
    if a != [] {
      SplitPlain(a[1..], d);
      assert [a[0]] + a[1..] == a;
    }
  }

  /** Splitting undoes joining when no piece contains the delimiter. */
  lemma {:induction false} SplitJoin(pieces: seq<string>, d: char)
    requires |pieces| >= 1
    requires forall i :: 0 <= i < |pieces| ==> d !in pieces[i]
    ensures Split(Join(pieces, d), d) == pieces
  {
    if |pieces| == 1 {
      SplitPlain(pieces[0], d);
    } else {
      SplitJoin(pieces[1..], d);
      SplitPrefix(pieces[0], d, Join(pieces[1..], d));
      assert [pieces[0]] + pieces[1..] == pieces;
    }
  }

  /** Filtering a list of non-empty pieces keeps all of them. */
  lemma {:induction false} NonEmptyKeepsAll(pieces: seq<string>)
    requires forall i :: 0 <= i < |pieces| ==> |pieces[i]| > 0
    ensures NonEmpty(pieces) == pieces
  {
    if pieces != [] {
      NonEmptyKeepsAll(pieces[1..]);
      assert [pieces[0]] + pieces[1..] == pieces;
    }
  }

  /**
    Tokenizing a string built by joining non-empty, delimiter-free tokens gives
    those tokens back: the structured `PREFIX^a^b` format round-trips.
  */
  lemma TokensOfJoin(tokens: seq<string>, d: char)
    requires |tokens| >= 1
    requires forall i :: 0 <= i < |tokens| ==> |tokens[i]| > 0 && d !in tokens[i]
    ensures Tokens(Join(tokens, d), d) == tokens
  {
    SplitJoin(tokens, d);
    NonEmptyKeepsAll(tokens);
  }

  // ---------------------------------------------------------------------------
  // Decimal text of amounts
  // ---------------------------------------------------------------------------

  predicate IsDigit(c: char) {
    '0' <= c <= '9'
  }

  /** Every character is a decimal digit. */
  predicate AllDigits(s: string) {
    forall i :: 0 <= i < |s| ==> IsDigit(s[i])
  }

  function DigitChar(n: nat): (c: char)
    requires n < 10
    ensures IsDigit(c)
  {
    "0123456789"[n]
  }

  function DigitValue(c: char): (n: nat)
    requires IsDigit(c)
    ensures n < 10
  {
    (c as int - '0' as int) as nat
  }

  /** The decimal digits of `n`, without leading zeros. */
  function NatText(n: nat): (s: string)
    ensures |s| >= 1
    ensures AllDigits(s)
  {
    if n < 10 then [DigitChar(n)] else NatText(n / 10) + [DigitChar(n % 10)]
  }

  /** The value of a string of decimal digits. */
  function DigitsValue(s: string): (r: nat)
    requires AllDigits(s)
  {
    if s == [] then 0 else DigitsValue(s[..|s| - 1]) * 10 + DigitValue(s[|s| - 1])
  }

  lemma DigitRoundTrip(n: nat)
    requires n < 10
    ensures DigitValue(DigitChar(n)) == n
  {
  }

  /** Reading the digits of `n` gives `n` back. */
  lemma {:induction false} NatTextRoundTrip(n: nat)
    ensures DigitsValue(NatText(n)) == n
  {
    DigitRoundTrip(n % 10);
    if n >= 10 {
      var s := NatText(n);
      assert s[..|s| - 1] == NatText(n / 10);
      NatTextRoundTrip(n / 10);
    } else {
      assert [DigitChar(n)][..0] == [];
    }
  }

  /**
    The fractional digits of `f` thousandths as `Float.toString` prints them:
    at least one digit, no trailing zero after the first.
  */
  function FractionText(f: nat): (s: string)
    requires f < 1000
    ensures 1 <= |s| <= 3
    ensures AllDigits(s)
  {
    var d1, d2, d3 := f / 100, f % 100 / 10, f % 100 % 10;
    if d3 != 0 then [DigitChar(d1), DigitChar(d2), DigitChar(d3)]
    else if d2 != 0 then [DigitChar(d1), DigitChar(d2)]
    else [DigitChar(d1)]
  }

  /** The thousandths a string of one to three fractional digits stands for. */
  function FractionValue(s: string): (r: nat)
    requires 1 <= |s| <= 3
    requires AllDigits(s)
  {
    if |s| == 1 then DigitValue(s[0]) * 100
    else if |s| == 2 then DigitValue(s[0]) * 100 + DigitValue(s[1]) * 10
    else DigitValue(s[0]) * 100 + DigitValue(s[1]) * 10 + DigitValue(s[2])
  }

  lemma FractionRoundTrip(f: nat)
    requires f < 1000
    ensures FractionValue(FractionText(f)) == f
  {
    var d1, d2, d3 := f / 100, f % 100 / 10, f % 100 % 10;
    assert f == d1 * 100 + f % 100;
    assert f % 100 == d2 * 10 + d3;
    DigitRoundTrip(d1);
    DigitRoundTrip(d2);
    DigitRoundTrip(d3);
  }

  /**
    The text of an amount held in thousandths, as `Float.toString` prints the
    float of that many units: "4.2", "4.0", "0.05", "-1.5". Exact for zero and
    for magnitudes from 0.001 to below 16384 (2^14) units, where floats lie
    closer together than 0.001; from 16384 on, the float nearest a number of
    thousandths can print with a different last digit.
  */
  function AmountText(milli: int): (s: string)
    ensures |s| >= 3
  {
    var m: nat := if milli < 0 then -milli else milli;
    (if milli < 0 then "-" else "") + MagnitudeText(m)
  }

  /** The unsigned text of `m` thousandths: whole units, a dot, the fractional digits. */
  function MagnitudeText(m: nat): (s: string)
    ensures |s| >= 3 && IsDigit(s[0])
  {
    NatText(m / 1000) + "." + FractionText(m % 1000)
  }

  /**
    Reads unsigned decimal text `W.F` back as thousandths: one dot, at least
    one whole digit and one to three fractional digits; None when malformed.
  */
  function ParseUnsigned(body: string): (r: Option<nat>) {
    var parts := Split(body, '.');
    if |parts| == 2 && |parts[0]| >= 1 && 1 <= |parts[1]| <= 3 && AllDigits(parts[0]) && AllDigits(parts[1])
    then Some(DigitsValue(parts[0]) * 1000 + FractionValue(parts[1]))
    else None
  }

  /** Reads an amount in thousandths back from decimal text; None when malformed. */
  function ParseAmount(s: string): (r: Option<int>) {
    if |s| > 0 && s[0] == '-' then
      match ParseUnsigned(s[1..])
      case Some(m) => Some(-(m as int))
      case None => None
    else
      match ParseUnsigned(s)
      case Some(m) => Some(m)
      case None => None
  }

  /** A string of digits holds no dot. */
  lemma DigitsHaveNoDot(s: string)
    requires AllDigits(s)
    ensures '.' !in s
  {
    assert forall i :: 0 <= i < |s| ==> s[i] != '.';
  }

  /** Text that splits at its one dot into valid whole and fractional digits reads back as their value. */
  lemma ParseUnsignedOfSplit(body: string, whole: string, fraction: string)
    requires Split(body, '.') == [whole, fraction]
    requires |whole| >= 1 && AllDigits(whole) && 1 <= |fraction| <= 3 && AllDigits(fraction)
    ensures ParseUnsigned(body) == Some(DigitsValue(whole) * 1000 + FractionValue(fraction))
  {
  }

  /** Digits, a dot and one to three fractional digits read back as whole and fraction. */
  lemma ParseUnsignedParts(whole: string, fraction: string)
    requires |whole| >= 1 && AllDigits(whole)
    requires 1 <= |fraction| <= 3 && AllDigits(fraction)
    ensures ParseUnsigned(whole + "." + fraction) == Some(DigitsValue(whole) * 1000 + FractionValue(fraction))
  {
    DigitsHaveNoDot(whole);
    DigitsHaveNoDot(fraction);
    var pieces := [whole, fraction];
    assert pieces[1..] == [fraction];
    assert Join(pieces, '.') == whole + "." + fraction;
    SplitJoin(pieces, '.');
    ParseUnsignedOfSplit(Join(pieces, '.'), whole, fraction);
  }

  /** The text of `q` units and `r` thousandths reads back as q * 1000 + r. */
  lemma UnsignedPartsRoundTrip(q: nat, r: nat)
    requires r < 1000
    ensures ParseUnsigned(NatText(q) + "." + FractionText(r)) == Some(q * 1000 + r)
  {
    ParseUnsignedParts(NatText(q), FractionText(r));
    NatTextRoundTrip(q);
    FractionRoundTrip(r);
  }

  /** The unsigned part of an amount's text reads back to its magnitude. */
  lemma UnsignedRoundTrip(m: nat)
    ensures ParseUnsigned(MagnitudeText(m)) == Some(m)
  {
    var q, r := m / 1000, m % 1000;
    assert q * 1000 + r == m;
    UnsignedPartsRoundTrip(q, r);
  }

  /** A leading minus sign negates the magnitude that follows it. */
  lemma ParseNegative(body: string, m: nat)
    requires ParseUnsigned(body) == Some(m)
    ensures ParseAmount("-" + body) == Some(-(m as int))
  {
    assert ("-" + body)[1..] == body;
  }

  /** Text starting with a digit is read as an unsigned magnitude. */
  lemma ParsePositive(body: string, m: nat)
    requires |body| > 0 && IsDigit(body[0])
    requires ParseUnsigned(body) == Some(m)
    ensures ParseAmount(body) == Some(m)
  {
  }

  /** The text of an amount determines it: reading it back gives the amount. */
  lemma AmountTextRoundTrip(milli: int)
    ensures ParseAmount(AmountText(milli)) == Some(milli)
  {
    var m: nat := if milli < 0 then -milli else milli;
    var body := MagnitudeText(m);
    UnsignedRoundTrip(m);
    if milli < 0 {
      assert AmountText(milli) == "-" + body;
      ParseNegative(body, m);
    } else {
      assert AmountText(milli) == body;
      ParsePositive(body, m);
    }
  }

  /** Different amounts never share a text. */
  lemma AmountTextInjective(a: int, b: int)
    requires AmountText(a) == AmountText(b)
    ensures a == b
  {
    AmountTextRoundTrip(a);
    AmountTextRoundTrip(b);
  }
}
