/**
 * Price texts: the numeric price read back out of a display price
 * (`extractNumericPrice`, src/services/aiService.ts:326-332) and the Indian
 * digit grouping that `toLocaleString('en-IN')` gives a whole number of rupees.
 */
module Prices {
  import opened Wrappers
  import opened Text

  const Rupee: char := '₹'

  /** A JavaScript number as the price code can produce it: a non-negative integer, or `NaN`. */
  datatype Numeric = Num(value: nat) | NaN

  /** The characters of the regular-expression class `[\d,]`. */
  predicate IsPriceChar(c: char) { IsDigit(c) || c == ',' }

  predicate AllPriceChars(s: string) { forall i :: 0 <= i < |s| ==> IsPriceChar(s[i]) }

  /** The longest prefix of `s` made of digits and commas (the greedy `[\d,]+`). */
  function PriceRun(s: string): (r: string)
    ensures r <= s && AllPriceChars(r)
    ensures |r| < |s| ==> !IsPriceChar(s[|r|])
    decreases |s|
  {
    if s != [] && IsPriceChar(s[0]) then [s[0]] + PriceRun(s[1..]) else []
  }

  /** The pattern `/₹?[\d,]+/` can start matching at offset `j` of `s`. */
  predicate MatchStartsAt(s: string, j: nat)
    requires j < |s|
  {
    IsPriceChar(s[j]) || (s[j] == Rupee && j + 1 < |s| && IsPriceChar(s[j + 1]))
  }

  /** No match of the pattern starts before offset `i`. */
  predicate NoMatchBefore(s: string, i: nat)
  {
    forall j :: 0 <= j < i && j < |s| ==> !MatchStartsAt(s, j)
  }

  /**
   * `m` is the match at offset `i`: it occurs there, a leading rupee sign is
   * followed by at least one digit or comma, and the run of digits and commas
   * is not continued in `s`.
   */
  predicate GreedyMatchAt(s: string, m: string, i: nat)
  {
    OccursAt(s, m, i) && |m| > 0 &&
    (m[0] == Rupee ==> |m| >= 2) &&
    (i + |m| == |s| || !IsPriceChar(s[i + |m|]))
  }

  /**
   * The first match of `/₹?[\d,]+/` in `s`: at the leftmost offset where the
   * pattern matches, an optional rupee sign followed by the longest run of
   * digits and commas (`PriceMatchIsFirstMatch`).
   */
  function PriceMatch(s: string): (m: Option<string>)
    ensures m.None? <==> forall i :: 0 <= i < |s| ==> !IsPriceChar(s[i])
    ensures m.Some? ==> |m.value| > 0 && (m.value[0] == Rupee || IsPriceChar(m.value[0]))
    ensures m.Some? ==> AllPriceChars(m.value[1..])
    decreases |s|
  {
    if s == [] then None
    else if s[0] == Rupee && |s| > 1 && IsPriceChar(s[1]) then Some([s[0]] + PriceRun(s[1..]))
    else if IsPriceChar(s[0]) then Some(PriceRun(s))
    else
      var m := PriceMatch(s[1..]);
      assert m.None? ==> forall i :: 0 <= i < |s| ==> !IsPriceChar(s[i]) by {
        if m.None? {
          forall i | 0 <= i < |s| ensures !IsPriceChar(s[i]) {
            if i > 0 { assert s[i] == s[1..][i - 1]; }
          }
        }
      }
      m
  }

  /**
   * `PriceMatch` is the match the regular expression finds: it occurs in `s`
   * at an offset before which no match starts, and it takes the whole run.
   */
  lemma {:induction false} PriceMatchIsFirstMatch(s: string)
    ensures PriceMatch(s).Some? ==> exists i: nat :: GreedyMatchAt(s, PriceMatch(s).value, i) && NoMatchBefore(s, i)
    decreases |s|
  {
    if s == [] {
    } else if s[0] == Rupee && |s| > 1 && IsPriceChar(s[1]) {
      var run := PriceRun(s[1..]);
      var m := [s[0]] + run;
      assert PriceMatch(s) == Some(m);
      assert s[1..][0] == s[1];
      assert s[..|m|] == m by {
        assert s == [s[0]] + s[1..];
      }
      if |m| < |s| { assert s[|m|] == s[1..][|run|]; }
      assert GreedyMatchAt(s, m, 0);
    } else if IsPriceChar(s[0]) {
      assert GreedyMatchAt(s, PriceRun(s), 0);
    } else {
      assert PriceMatch(s) == PriceMatch(s[1..]);
      PriceMatchIsFirstMatch(s[1..]);
      if PriceMatch(s).Some? {
        var i: nat :| GreedyMatchAt(s[1..], PriceMatch(s).value, i) && NoMatchBefore(s[1..], i);
        MatchShifted(s, PriceMatch(s).value, i);
      }
    }
  }

  /** A match in `s[1..]` is a match in `s` one place later, when none starts at offset 0. */
  lemma MatchShifted(s: string, m: string, i: nat)
    requires |s| > 0 && !MatchStartsAt(s, 0)
    requires GreedyMatchAt(s[1..], m, i) && NoMatchBefore(s[1..], i)
    ensures GreedyMatchAt(s, m, i + 1) && NoMatchBefore(s, i + 1)
  {
    assert s[i + 1..i + 1 + |m|] == s[1..][i..i + |m|];
    if i + 1 + |m| < |s| {
      assert s[i + 1 + |m|] == s[1..][i + |m|];
    }
    forall j | 0 < j < i + 1 && j < |s| ensures !MatchStartsAt(s, j) {
      assert !MatchStartsAt(s[1..], j - 1);
      assert s[j] == s[1..][j - 1];
      if j + 1 < |s| { assert s[j + 1] == s[1..][j]; }
    }
  }

  /** `replace(/[₹,]/g, '')`: drop every rupee sign and comma. */
  function RemoveSymbols(s: string): (r: string)
    ensures |r| <= |s|
    ensures Rupee !in r && ',' !in r
    decreases |s|
  {
    if s == [] then []
    else (if s[0] == Rupee || s[0] == ',' then [] else [s[0]]) + RemoveSymbols(s[1..])
  }

  /** `parseInt` applied to a string of decimal digits (`NaN` when it is empty). */
  function ParseDigits(d: string): (n: Numeric)
    requires AllDigits(d)
    ensures n.NaN? <==> d == []
  {
    if d == [] then NaN else Num(DigitsValue(d))
  }

  lemma {:induction false} RemoveSymbolsOfPriceChars(s: string)
    requires AllPriceChars(s)
    ensures AllDigits(RemoveSymbols(s))
    decreases |s|
  {
    if s != [] {
      RemoveSymbolsOfPriceChars(s[1..]);
      var head := if s[0] == Rupee || s[0] == ',' then [] else [s[0]];
      assert RemoveSymbols(s) == head + RemoveSymbols(s[1..]);
      assert AllDigits(head + RemoveSymbols(s[1..])) by {
        forall i | 0 <= i < |head + RemoveSymbols(s[1..])|
          ensures IsDigit((head + RemoveSymbols(s[1..]))[i])
        {
          if i >= |head| { assert (head + RemoveSymbols(s[1..]))[i] == RemoveSymbols(s[1..])[i - |head|]; }
        }
      }
    }
  }

  /** The digits left once the symbols are dropped from a regular-expression match. */
  function MatchDigits(m: string): (d: string)
    requires |m| > 0 && (m[0] == Rupee || IsPriceChar(m[0])) && AllPriceChars(m[1..])
    ensures AllDigits(d)
  {
    assert m == [m[0]] + m[1..];
    RemoveSymbolsOfPriceChars(m[1..]);
    assert RemoveSymbols(m) == (if m[0] == Rupee || m[0] == ',' then [] else [m[0]]) + RemoveSymbols(m[1..]);
    RemoveSymbols(m)
  }

  /**
   * `extractNumericPrice`: the first digit-and-comma run of the text, commas
   * dropped, read as a decimal number; 2000 when the text has no digit and no
   * comma. A run made only of commas reads as `NaN`.
   */
  function ExtractNumericPrice(s: string): (n: Numeric)
    ensures (forall i :: 0 <= i < |s| ==> !IsPriceChar(s[i])) ==> n == Num(2000)
  {
    match PriceMatch(s)
    case None => Num(2000)
    case Some(m) => ParseDigits(MatchDigits(m))
  }

  // ---------------------------------------------------------------------------
  // Reading back a rupee amount

  lemma {:induction false} PriceRunOfPriceChars(s: string)
    requires AllPriceChars(s)
    ensures PriceRun(s) == s
    decreases |s|
  {
    if s != [] {
      PriceRunOfPriceChars(s[1..]);
    }
  }

  lemma {:induction false} RemoveSymbolsOfDigits(s: string)
    requires AllDigits(s)
    ensures RemoveSymbols(s) == s
    decreases |s|
  {
    if s != [] {
      RemoveSymbolsOfDigits(s[1..]);
    }
  }

  lemma {:induction false} RemoveSymbolsAppend(a: string, b: string)
    ensures RemoveSymbols(a + b) == RemoveSymbols(a) + RemoveSymbols(b)
    decreases |a|
  {
    if a != [] {
      assert (a + b)[1..] == a[1..] + b;
      RemoveSymbolsAppend(a[1..], b);
    } else {
      assert a + b == b;
    }
  }

  /** A rupee sign followed by a digit-and-comma text starting with a digit reads back as that text's digits. */
  lemma ExtractOfRupeeText(t: string)
    requires |t| > 0 && IsDigit(t[0]) && AllPriceChars(t)
    ensures AllDigits(RemoveSymbols(t))
    ensures ExtractNumericPrice([Rupee] + t) == Num(DigitsValue(RemoveSymbols(t)))
  {
    var s := [Rupee] + t;
    assert s[1..] == t;
    PriceRunOfPriceChars(t);
    assert PriceMatch(s) == Some(s);
    RemoveSymbolsOfPriceChars(t);
    assert RemoveSymbols(s) == [] + RemoveSymbols(t);
    assert RemoveSymbols(t) == [t[0]] + RemoveSymbols(t[1..]);
    assert MatchDigits(s) == RemoveSymbols(t);
  }

  /** The rupee text `₹${n}` the rule engine writes reads back as `n`. */
  lemma ExtractOfPriceTag(n: nat)
    ensures ExtractNumericPrice([Rupee] + NatToString(n)) == Num(n)
  {
    var t := NatToString(n);
    ExtractOfRupeeText(t);
    RemoveSymbolsOfDigits(t);
    DigitsValueOfNatToString(n);
  }

  /** Text without digits or commas in front of a non-matching start does not move the match. */
  lemma {:induction false} PriceMatchSkip(x: string, r: string)
    requires forall i :: 0 <= i < |x| ==> !IsPriceChar(x[i])
    requires r == [] || !IsPriceChar(r[0])
    ensures PriceMatch(x + r) == PriceMatch(r)
    decreases |x|
  {
    if x != [] {
      var s := x + r;
      assert s[0] == x[0];
      assert |s| > 1 ==> s[1] == (if |x| > 1 then x[1] else r[0]);
      assert s[1..] == x[1..] + r;
      PriceMatchSkip(x[1..], r);
    } else {
      assert x + r == r;
    }
  }

  /** The greedy run stops where the digits and commas do. */
  lemma {:induction false} PriceRunStops(t: string, y: string)
    requires AllPriceChars(t)
    requires y == [] || !IsPriceChar(y[0])
    ensures PriceRun(t + y) == t
    decreases |t|
  {
    if t != [] {
      assert (t + y)[1..] == t[1..] + y;
      PriceRunStops(t[1..], y);
    } else {
      assert t + y == y;
    }
  }

  /**
   * A price inside a longer text: with no digit or comma before the rupee
   * sign, the first run after it is read, and whatever follows the run is
   * ignored.
   */
  lemma ExtractOfEmbeddedPrice(x: string, t: string, y: string)
    requires forall i :: 0 <= i < |x| ==> !IsPriceChar(x[i])
    requires |t| > 0 && IsDigit(t[0]) && AllPriceChars(t)
    requires y == [] || !IsPriceChar(y[0])
    ensures AllDigits(RemoveSymbols(t))
    ensures ExtractNumericPrice(x + [Rupee] + t + y) == Num(DigitsValue(RemoveSymbols(t)))
  {
    var tag := [Rupee] + t;
    var r := tag + y;
    Regroup(x, [Rupee], t, y);
    PriceMatchSkip(x, r);
    RupeeRunMatch(t, y);
    RupeeRunMatch(t, []);
    assert tag + [] == tag;
    SameMatchSameReading(x + r, tag);
    ExtractOfRupeeText(t);
  }

  lemma Regroup(x: string, a: string, b: string, c: string)
    ensures x + a + b + c == x + (a + b + c)
  {
  }

  /** The numeric price depends only on the regular-expression match. */
  lemma SameMatchSameReading(a: string, b: string)
    requires PriceMatch(a) == PriceMatch(b)
    ensures ExtractNumericPrice(a) == ExtractNumericPrice(b)
  {
  }

  /** A rupee sign and a digit-and-comma run match as a whole, however the text goes on. */
  lemma RupeeRunMatch(t: string, y: string)
    requires |t| > 0 && IsDigit(t[0]) && AllPriceChars(t)
    requires y == [] || !IsPriceChar(y[0])
    ensures PriceMatch([Rupee] + t + y) == Some([Rupee] + t)
  {
    var r := [Rupee] + t + y;
    assert r[1..] == t + y;
    PriceRunStops(t, y);
    RupeeStartMatch(r);
  }

  lemma RupeeStartMatch(r: string)
    requires |r| > 1 && r[0] == Rupee && IsPriceChar(r[1])
    ensures PriceMatch(r) == Some([Rupee] + PriceRun(r[1..]))
  {
  }

  /** A price range as a generator may write it reads as its lower end. */
  lemma ExtractOfPriceRange()
    ensures ExtractNumericPrice([Rupee] + "1,500" + (" - " + [Rupee] + "2,000")) == Num(1500)
  {
    var t := "1,500";
    var y := " - " + [Rupee] + "2,000";
    assert AllPriceChars(t) by {
      forall i | 0 <= i < 5 ensures IsPriceChar(t[i]) { }
    }
    assert y[0] == ' ';
    ExtractOfEmbeddedPrice([], t, y);
    assert [] + [Rupee] == [Rupee];
    FifteenHundred();
  }

  lemma FifteenHundred()
    ensures RemoveSymbols("1,500") == "1500"
    ensures AllDigits("1500") && DigitsValue("1500") == 1500
  {
    assert "1,500"[1..] == ",500";
    assert ",500"[1..] == "500";
    assert "500"[1..] == "00";
    assert "00"[1..] == "0";
    assert "1500"[..3] == "150";
    assert "150"[..2] == "15";
    assert "15"[..1] == "1";
  }

  // ---------------------------------------------------------------------------
  // toLocaleString('en-IN') on whole numbers

  /** Exactly two decimal digits. */
  function Pad2(r: nat): (s: string)
    requires r < 100
    ensures |s| == 2 && AllDigits(s) && DigitsValue(s) == r
  {
    var s := [DigitChar(r / 10), DigitChar(r % 10)];
    assert s[..1] == [DigitChar(r / 10)];
    assert [DigitChar(r / 10)][..0] == [];
    assert DigitsValue(s[..1]) == r / 10;
    s
  }

  /** Exactly three decimal digits. */
  function Pad3(r: nat): (s: string)
    requires r < 1000
    ensures |s| == 3 && AllDigits(s) && DigitsValue(s) == r
  {
    var s := [DigitChar(r / 100), DigitChar(r / 10 % 10), DigitChar(r % 10)];
    assert s[..2] == [DigitChar(r / 100), DigitChar(r / 10 % 10)];
    assert s[..2][..1] == [DigitChar(r / 100)];
    assert [DigitChar(r / 100)][..0] == [];
    assert DigitsValue(s[..2][..1]) == r / 100;
    assert DigitsValue(s[..2]) == r / 100 * 10 + r / 10 % 10;
    assert (r / 100 * 10 + r / 10 % 10) * 10 + r % 10 == r;
    s
  }

  /**
   * The commas of `s` are exactly where digit groups meet, read from the
   * right: the last group has `last` digits and every group before it two
   * (the first may be shorter).
   */
  predicate GroupedBy(s: string, last: nat)
  {
    forall p :: 0 <= p < |s| ==> (s[p] == ',' <==> p + last + 1 <= |s| && (|s| - last - 1 - p) % 3 == 0)
  }

  lemma NatToStringBelow100(n: nat)
    requires n < 100
    ensures |NatToString(n)| <= 2
  {
  }

  lemma NatToStringBelow1000(n: nat)
    requires n < 1000
    ensures |NatToString(n)| <= 3
  {
    if n >= 10 {
      NatToStringBelow100(n / 10);
    }
  }

  /** A short run of digits has no comma and no room for one. */
  lemma ShortDigitsGrouped(s: string, last: nat)
    requires AllDigits(s) && |s| <= last
    ensures GroupedBy(s, last)
  {
  }

  /** Appending `,` and a group of `last` digits to text grouped in pairs keeps the grouping. */
  lemma GroupedAppend(high: string, group: string, last: nat)
    requires GroupedBy(high, 2) && AllDigits(group) && |group| == last
    ensures GroupedBy(high + "," + group, last)
  {
    var s := high + "," + group;
    forall p | 0 <= p < |s|
      ensures s[p] == ',' <==> p + last + 1 <= |s| && (|s| - last - 1 - p) % 3 == 0
    {
      if p < |high| {
        assert s[p] == high[p];
        assert |s| - last - 1 - p == |high| - p;
      } else if p > |high| {
        assert s[p] == group[p - |high| - 1];
      }
    }
  }

  /** The digits above the last three, grouped in pairs from the right, as the Indian system does. */
  function GroupPairs(m: nat): (s: string)
    requires m >= 1
    ensures |s| > 0 && IsDigit(s[0]) && AllPriceChars(s) && GroupedBy(s, 2)
    ensures s[0] != '0'
    ensures AllDigits(RemoveSymbols(s)) && DigitsValue(RemoveSymbols(s)) == m
    decreases m
  {
    if m < 100 then
      var s := NatToString(m);
      RemoveSymbolsOfDigits(s);
      DigitsValueOfNatToString(m);
      NatToStringBelow100(m);
      ShortDigitsGrouped(s, 2);
      s
    else
      var high := GroupPairs(m / 100);
      var s := high + "," + Pad2(m % 100);
      assert s[0] == high[0];
      GroupedTail(high, Pad2(m % 100), m / 100, m % 100, 100);
      GroupedAppend(high, Pad2(m % 100), 2);
      s
  }

  /** `n.toLocaleString('en-IN')`: the last three digits, then groups of two, separated by commas, with no leading zero. */
  function FormatIndian(n: nat): (s: string)
    ensures |s| > 0 && IsDigit(s[0]) && AllPriceChars(s) && GroupedBy(s, 3)
    ensures s[0] == '0' ==> s == "0"
    ensures AllDigits(RemoveSymbols(s)) && DigitsValue(RemoveSymbols(s)) == n
  {
    if n < 1000 then
      var s := NatToString(n);
      RemoveSymbolsOfDigits(s);
      DigitsValueOfNatToString(n);
      NatToStringBelow1000(n);
      ShortDigitsGrouped(s, 3);
      s
    else
      var high := GroupPairs(n / 1000);
      var s := high + "," + Pad3(n % 1000);
      assert s[0] == high[0];
      GroupedTail(high, Pad3(n % 1000), n / 1000, n % 1000, 1000);
      GroupedAppend(high, Pad3(n % 1000), 3);
      s
  }

  /** Appending `,` and a fixed-width digit group multiplies the value by its width and adds the group. */
  lemma GroupedTail(high: string, group: string, h: nat, g: nat, base: nat)
    requires |high| > 0 && IsDigit(high[0]) && AllPriceChars(high)
    requires AllDigits(RemoveSymbols(high)) && DigitsValue(RemoveSymbols(high)) == h
    requires AllDigits(group) && DigitsValue(group) == g && base == Pow10(|group|)
    ensures var s := high + "," + group;
      |s| > 0 && IsDigit(s[0]) && AllPriceChars(s) &&
      AllDigits(RemoveSymbols(s)) && DigitsValue(RemoveSymbols(s)) == h * base + g
  {
    GroupedTailChars(high, group);
    GroupedTailSymbols(high, group);
    DigitsValueAppend(RemoveSymbols(high), group);
  }

  lemma GroupedTailChars(high: string, group: string)
    requires |high| > 0 && AllPriceChars(high) && AllDigits(group)
    ensures (high + "," + group)[0] == high[0]
    ensures AllPriceChars(high + "," + group)
  {
    var s := high + "," + group;
    forall i | 0 <= i < |s| ensures IsPriceChar(s[i]) {
      if i < |high| { assert s[i] == high[i]; }
      else if i > |high| { assert s[i] == group[i - |high| - 1]; }
    }
  }

  lemma GroupedTailSymbols(high: string, group: string)
    requires AllDigits(group)
    ensures RemoveSymbols(high + "," + group) == RemoveSymbols(high) + group
  {
    var comma := ",";
    assert comma[1..] == [];
    assert RemoveSymbols(comma) == [];
    RemoveSymbolsAppend(high, comma);
    RemoveSymbolsAppend(high + comma, group);
    RemoveSymbolsOfDigits(group);
    assert RemoveSymbols(high + comma) == RemoveSymbols(high);
  }

  /** The grouped display price `₹${n.toLocaleString('en-IN')}` reads back as `n`. */
  lemma ExtractOfIndianPrice(n: nat)
    ensures ExtractNumericPrice([Rupee] + FormatIndian(n)) == Num(n)
  {
    ExtractOfRupeeText(FormatIndian(n));
  }
}
