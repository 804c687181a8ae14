/**
 * The preference blob every part writes and reads: its fields as decimal
 * integers joined by commas, in the order the part defines ("%hhu,%hhu,%i" and
 * so on). Reading splits at the commas and parses each field back.
 */
module Prefs {
  import opened Wrappers

  predicate IsDigit(c: char) {
    '0' <= c <= '9'
  }

  predicate AllDigits(s: string) {
    forall i :: 0 <= i < |s| ==> IsDigit(s[i])
  }

  function DigitChar(d: int): (c: char)
    requires 0 <= d < 10
    ensures IsDigit(c) && c as int - '0' as int == d
  {
    ('0' as int + d) as char
  }

  /** The decimal digits of n, most significant first, without leading zeros. */
  function Decimal(n: nat): (s: string)
    ensures |s| > 0 && AllDigits(s) && ',' !in s
    ensures n > 0 ==> s[0] != '0'
    decreases n
  {
    if n < 10 then [DigitChar(n)] else Decimal(n / 10) + [DigitChar(n % 10)]
  }

  /** The value of a string of decimal digits. */
  function DigitsValue(s: string): nat
    requires AllDigits(s)
  {
    if s == [] then 0 else DigitsValue(s[..|s| - 1]) * 10 + (s[|s| - 1] as int - '0' as int)
  }

  lemma {:induction false} DecimalValue(n: nat)
    ensures DigitsValue(Decimal(n)) == n
    decreases n
  {
    if n >= 10 {
      var s := Decimal(n);
      assert s[..|s| - 1] == Decimal(n / 10);
      DecimalValue(n / 10);
    }
  }

  function ParseNat(s: string): Option<nat> {
    if |s| > 0 && AllDigits(s) then Some(DigitsValue(s)) else None
  }

  /** What "%i" / "%u" / "%hhu" print for a value in their range. */
  function FormatInt(i: int): (s: string)
    ensures ',' !in s && |s| > 0
  {
    if i < 0 then "-" + Decimal(-i) else Decimal(i)
  }

  /** An optional minus sign followed by decimal digits. */
  function ParseInt(s: string): (r: Option<int>)
    ensures r.Some? ==> |s| > 0
  {
    if |s| > 0 && s[0] == '-' then
      match ParseNat(s[1..])
      case Some(n) => Some(-(n as int))
      case None => None
    else
      match ParseNat(s)
      case Some(n) => Some(n)
      case None => None
  }

  lemma FormatIntParses(i: int)
    ensures ParseInt(FormatInt(i)) == Some(i)
  {
    if i < 0 {
      assert FormatInt(i)[1..] == Decimal(-i);
      DecimalValue(-i);
    } else {
      DecimalValue(i);
    }
  }

  /** The fields separated by single commas. */
  function Join(fields: seq<string>): string
    requires |fields| > 0
  {
    if |fields| == 1 then fields[0] else Join(fields[..|fields| - 1]) + "," + fields[|fields| - 1]
  }

  /** The pieces of s between commas; a string without commas is one piece. */
  function Split(s: string): (pieces: seq<string>)
    ensures |pieces| > 0
  {
    if s == [] then [""]
    else
      var init := Split(s[..|s| - 1]);
      if s[|s| - 1] == ',' then init + [""]
      else init[..|init| - 1] + [init[|init| - 1] + [s[|s| - 1]]]
  }

  lemma {:induction false} SplitAfterComma(prefix: string, f: string)
    requires ',' !in f
    ensures Split(prefix + "," + f) == Split(prefix) + [f]
    decreases |f|
  {
    if f == [] {
      assert (prefix + "," + f)[..|prefix + "," + f| - 1] == prefix;
    } else {
      var g := f[..|f| - 1];
      assert (prefix + "," + f)[..|prefix + "," + f| - 1] == prefix + "," + g;
      SplitAfterComma(prefix, g);
      assert g + [f[|f| - 1]] == f;
    }
  }

  lemma {:induction false} SplitPiece(f: string)
    requires ',' !in f
    ensures Split(f) == [f]
    decreases |f|
  {
    if f != [] {
      var g := f[..|f| - 1];
      SplitPiece(g);
      assert g + [f[|f| - 1]] == f;
    }
  }

  lemma {:induction false} SplitJoin(fields: seq<string>)
    requires |fields| > 0
    requires forall i :: 0 <= i < |fields| ==> ',' !in fields[i]
    ensures Split(Join(fields)) == fields
    decreases |fields|
  {
    if |fields| == 1 {
      SplitPiece(fields[0]);
    } else {
      var init := fields[..|fields| - 1];
      SplitJoin(init);
      SplitAfterComma(Join(init), fields[|fields| - 1]);
    }
  }

  /** Parses every piece; fails if any piece is not an integer. */
  function ParseAll(pieces: seq<string>): (r: Option<seq<int>>)
    ensures r.Some? ==> |r.value| == |pieces|
  {
    if pieces == [] then Some([])
    else
      match (ParseAll(pieces[..|pieces| - 1]), ParseInt(pieces[|pieces| - 1]))
      case (Some(init), Some(x)) => Some(init + [x])
      case _ => None
  }

  function Encode(xs: seq<int>): string
    requires |xs| > 0
  {
    Join(seq(|xs|, i requires 0 <= i < |xs| => FormatInt(xs[i])))
  }

  function Decode(s: string): Option<seq<int>> {
    ParseAll(Split(s))
  }

  lemma {:induction false} ParseAllFormatted(xs: seq<int>)
    ensures ParseAll(seq(|xs|, i requires 0 <= i < |xs| => FormatInt(xs[i]))) == Some(xs)
    decreases |xs|
  {
    if xs != [] {
      var pieces := seq(|xs|, i requires 0 <= i < |xs| => FormatInt(xs[i]));
      var init := xs[..|xs| - 1];
      assert pieces[..|pieces| - 1] == seq(|init|, i requires 0 <= i < |init| => FormatInt(init[i]));
      ParseAllFormatted(init);
      FormatIntParses(xs[|xs| - 1]);
      assert init + [xs[|xs| - 1]] == xs;
    }
  }

  /** Reading back what was written gives the same fields, in the same order. */
  lemma DecodeEncode(xs: seq<int>)
    requires |xs| > 0
    ensures Decode(Encode(xs)) == Some(xs)
  {
    var pieces := seq(|xs|, i requires 0 <= i < |xs| => FormatInt(xs[i]));
    SplitJoin(pieces);
    ParseAllFormatted(xs);
  }
}
