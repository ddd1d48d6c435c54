// The text codecs of utils.ts: the display form of an ISO date and the
// Brazilian currency mask ("1.234,56") with its parser. Amounts are integer
// cents here, so the mask of a digit string `v` is the number `v` read as cents.

module Utils {
  import opened Collections
  import opened Text

  // Dates

  /** `${day}/${month}/${year.slice(2)}` from the pieces of `iso.split('-')`. */
  function SwapDateParts(iso: string): string
  {
    var parts := Split(iso, '-');
    Part(parts, 2) + "/" + Part(parts, 1) + "/" + SliceFrom(parts[0], 2)
  }

  /** `formatDateDisplay`: "-" for a missing date, otherwise DD/MM/YY. */
  function FormatDateDisplay(iso: string): string
  {
    if iso == "" then "-" else SwapDateParts(iso)
  }

  /** An ISO calendar date as the app stores it: YYYY-MM-DD. */
  predicate IsIsoDate(s: string)
  {
    |s| == 10 && s[4] == '-' && s[7] == '-'
    && AllDigits(s[..4]) && AllDigits(s[5..7]) && AllDigits(s[8..])
  }

  lemma NoDash(s: string)
    requires AllDigits(s)
    ensures '-' !in s
  {
  }

  /** The pieces of an ISO date split at its dashes. */
  lemma SplitIsoDate(s: string)
    requires IsIsoDate(s)
    ensures Split(s, '-') == [s[..4], s[5..7], s[8..]]
  {
    NoDash(s[..4]);
    NoDash(s[5..7]);
    NoDash(s[8..]);
    assert s == s[..4] + ['-'] + (s[5..7] + ['-'] + s[8..]);
    SplitAt(s[..4], '-', s[5..7] + ['-'] + s[8..]);
    SplitAt(s[5..7], '-', s[8..]);
    SplitWhole(s[8..], '-');
  }

  /** YYYY-MM-DD is shown as DD/MM/YY. */
  lemma FormatIsoDate(s: string)
    requires IsIsoDate(s)
    ensures FormatDateDisplay(s) == s[8..] + "/" + s[5..7] + "/" + s[2..4]
  {
    SplitIsoDate(s);
  }

  // The currency mask

  /** `toFixed(2)`'s two decimals of a number of cents below 100. */
  function Pad2(k: nat): (r: string)
    requires k < 100
    ensures |r| == 2 && AllDigits(r) && DigitsValue(r) == k
  {
    var r := [DigitChar(k / 10), DigitChar(k % 10)];
    assert r[..1] == [DigitChar(k / 10)] && r[..1][..0] == [];
    assert DigitsValue(r[..1]) == k / 10;
    r
  }

  /** The thousands separators of the mask: a '.' before every group of three digits counted from the right. */
  function Group(s: string): (r: string)
    ensures |r| >= |s|
  {
    if |s| <= 3 then s else Group(s[..|s| - 3]) + "." + s[|s| - 3..]
  }

  /** Digit groups joined by '.': the first has one to three digits, every later one exactly three. */
  predicate Grouped(g: string)
  {
    if |g| <= 3 then 1 <= |g| && AllDigits(g)
    else g[|g| - 4] == '.' && AllDigits(g[|g| - 3..]) && Grouped(g[..|g| - 4])
  }

  /** `maskCurrency` on a count of cents: grouped reais, a comma, two digits of cents. */
  function FormatCents(n: nat): string
  {
    Group(Decimal(n / 100)) + "," + Pad2(n % 100)
  }

  /** `maskCurrency`: the digits of the input, read as cents. */
  function MaskCurrency(v: string): string
  {
    FormatCents(DigitsValue(KeepDigits(v)))
  }

  // The parser

  predicate NotDot(c: char) { c != '.' }
  predicate IsDot(c: char) { c == '.' }

  /** `s.replace(/\./g, '')`. */
  function RemoveDots(s: string): string
  {
    Filter(s, NotDot)
  }

  /** `s.replace(a, b)` with a one-character pattern: only the first occurrence is replaced. */
  function ReplaceFirst(s: string, a: char, b: char): (r: string)
    ensures |r| == |s|
  {
    if s == [] then []
    else if s[0] == a then [b] + s[1..]
    else [s[0]] + ReplaceFirst(s[1..], a, b)
  }

  /**
   * `parseFloat` read in cents, for a run of digits with up to two decimals
   * after a '.'. Anything else (NaN, or a value finer than a cent) is `None`.
   */
  function ParseCents(s: string): Option<nat>
  {
    var k := FirstIndex(s, IsDot);
    if k == |s| then ParseParts(s, None) else ParseParts(s[..k], Some(s[k + 1..]))
  }

  /** The digits before the first '.' and, when there is one, those after it. */
  function ParseParts(whole: string, frac: Option<string>): Option<nat>
  {
    if whole == [] || !AllDigits(whole) then None
    else if frac.None? then Some(DigitsValue(whole) * 100)
    else if |frac.value| <= 2 && AllDigits(frac.value) then Some(DigitsValue(whole) * 100 + FractionCents(frac.value))
    else None
  }

  /** Up to two decimals as cents: "5" is 50 cents, "05" is 5. */
  function FractionCents(frac: string): nat
    requires AllDigits(frac)
  {
    if |frac| == 2 then DigitsValue(frac) else DigitsValue(frac) * 10
  }

  /** `parseCurrency`: 0 for the empty text; otherwise drop the dots, turn the comma into a point and parse. */
  function ParseCurrency(value: string): Option<nat>
  {
    if value == "" then Some(0)
    else ParseCents(ReplaceFirst(RemoveDots(value), ',', '.'))
  }

  // Properties

  /** Dropping the separators of a grouped run of digits gives the digits back. */
  lemma {:induction false} GroupRemoveDots(s: string)
    requires AllDigits(s)
    ensures RemoveDots(Group(s)) == s
  {
    if |s| <= 3 {
      FilterAll(s, NotDot);
    } else {
      var a, b := s[..|s| - 3], s[|s| - 3..];
      GroupRemoveDots(a);
      FilterAll(b, NotDot);
      FilterAppend(Group(a) + ".", b, NotDot);
      FilterAppend(Group(a), ".", NotDot);
      assert s == a + b;
    }
  }

  /** The digits of a grouped run of digits are that run. */
  lemma {:induction false} GroupKeepDigits(s: string)
    requires AllDigits(s)
    ensures KeepDigits(Group(s)) == s
  {
    if |s| <= 3 {
      FilterAll(s, IsDigit);
    } else {
      var a, b := s[..|s| - 3], s[|s| - 3..];
      var g := Group(a);
      GroupKeepDigits(a);
      FilterAll(b, IsDigit);
      FilterAppend(g + ".", b, IsDigit);
      FilterAppend(g, ".", IsDigit);
      assert Filter(".", IsDigit) == [];
      assert Filter(g + ".", IsDigit) == a;
      assert Group(s) == g + "." + b;
      assert s == a + b;
    }
  }

  /** Grouping a run of digits adds dots and nothing else: no comma. */
  lemma {:induction false} GroupNoComma(s: string)
    requires AllDigits(s)
    ensures ',' !in Group(s)
  {
    if |s| > 3 {
      GroupNoComma(s[..|s| - 3]);
    }
  }

  /** The three facts about `Group` the parser relies on. */
  lemma GroupDigits(s: string)
    requires AllDigits(s)
    ensures RemoveDots(Group(s)) == s
    ensures KeepDigits(Group(s)) == s
    ensures ',' !in Group(s)
  {
    GroupRemoveDots(s);
    GroupKeepDigits(s);
    GroupNoComma(s);
  }

  /** The separators `Group` inserts are the ones `Grouped` describes. */
  lemma {:induction false} GroupGrouped(s: string)
    requires AllDigits(s) && |s| >= 1
    ensures Grouped(Group(s))
  {
    if |s| > 3 {
      var a, b := s[..|s| - 3], s[|s| - 3..];
      GroupGrouped(a);
      var g := Group(s);
      assert g == Group(a) + "." + b;
      assert g[|g| - 4] == '.' && g[|g| - 3..] == b && g[..|g| - 4] == Group(a);
    }
  }

  lemma {:induction false} ReplaceFirstAt(a: string, b: string)
    requires ',' !in a
    ensures ReplaceFirst(a + "," + b, ',', '.') == a + "." + b
  {
    if a != [] {
      ReplaceFirstAt(a[1..], b);
      assert (a + "," + b)[1..] == a[1..] + "," + b;
    }
  }

  lemma {:induction false} DigitsNoDot(s: string)
    requires AllDigits(s)
    ensures FirstIndex(s, IsDot) == |s|
  {
    if s != [] {
      DigitsNoDot(s[1..]);
    }
  }

  /** The first '.' after a run of digits is the one that ends it. */
  lemma {:induction false} FirstDotAfter(a: string, b: string)
    requires AllDigits(a)
    ensures FirstIndex(a + "." + b, IsDot) == |a|
  {
    if a != [] {
      assert (a + "." + b)[1..] == a[1..] + "." + b;
      FirstDotAfter(a[1..], b);
    }
  }

  /** The reais and the cents of the mask put back together give the amount. */
  lemma CentsValue(n: nat)
    ensures AllDigits(Decimal(n / 100) + Pad2(n % 100))
    ensures DigitsValue(Decimal(n / 100) + Pad2(n % 100)) == n
  {
    DecimalValue(n / 100);
    DigitsValueAppend(Decimal(n / 100), Pad2(n % 100));
    assert Pow10(2) == 100;
  }

  /** Dropping the dots of a formatted amount leaves the plain reais, the comma and the cents. */
  lemma RemoveDotsFormat(n: nat)
    ensures RemoveDots(FormatCents(n)) == Decimal(n / 100) + "," + Pad2(n % 100)
  {
    var d, p := Decimal(n / 100), Pad2(n % 100);
    var g := Group(d);
    GroupDigits(d);
    FilterAppend(g + ",", p, NotDot);
    FilterAppend(g, ",", NotDot);
    FilterAll(p, NotDot);
  }

  /** A run of digits, a point and two digits parse as reais and cents. */
  lemma ParseWholeAndCents(d: string, p: string)
    requires AllDigits(d) && |d| >= 1 && AllDigits(p) && |p| == 2
    ensures ParseCents(d + "." + p) == Some(DigitsValue(d) * 100 + DigitsValue(p))
  {
    ParseAtDot(d, p);
  }

  /** The first '.' after a run of digits splits the text into that run and the rest. */
  lemma ParseAtDot(d: string, p: string)
    requires AllDigits(d)
    ensures ParseCents(d + "." + p) == ParseParts(d, Some(p))
  {
    var s := d + "." + p;
    FirstDotAfter(d, p);
    assert s[..|d|] == d;
    assert s[|d| + 1..] == p;
  }

  /** Round trip: parsing a formatted amount gives the amount back. */
  lemma ParseFormatCents(n: nat)
    ensures ParseCurrency(FormatCents(n)) == Some(n)
  {
    var d, p := Decimal(n / 100), Pad2(n % 100);
    RemoveDotsFormat(n);
    ReplaceFirstAt(d, p);
    ParseWholeAndCents(d, p);
    DecimalValue(n / 100);
  }

  /** `parseCurrency(maskCurrency(s))` is the digits of `s` read as cents. */
  lemma ParseMask(s: string)
    ensures ParseCurrency(MaskCurrency(s)) == Some(DigitsValue(KeepDigits(s)))
  {
    ParseFormatCents(DigitsValue(KeepDigits(s)));
  }

  /** The digits of a formatted amount are the amount's digits. */
  lemma KeepDigitsFormat(n: nat)
    ensures KeepDigits(FormatCents(n)) == Decimal(n / 100) + Pad2(n % 100)
  {
    var d, p := Decimal(n / 100), Pad2(n % 100);
    GroupDigits(d);
    FilterAppend(Group(d) + ",", p, IsDigit);
    FilterAppend(Group(d), ",", IsDigit);
    FilterAll(p, IsDigit);
  }

  /** Masking a masked amount changes nothing. */
  lemma MaskIdempotent(s: string)
    ensures MaskCurrency(MaskCurrency(s)) == MaskCurrency(s)
  {
    var n := DigitsValue(KeepDigits(s));
    KeepDigitsFormat(n);
    CentsValue(n);
  }

  /**
   * The shape of a mask: grouped reais, then the only comma, then exactly two
   * digits; and the reais have no leading zero unless they are just "0".
   */
  lemma MaskShape(s: string)
    ensures var r := MaskCurrency(s);
      |r| >= 4 && r[|r| - 3] == ',' && AllDigits(r[|r| - 2..])
      && Grouped(r[..|r| - 3]) && ',' !in r[..|r| - 3]
      && (r[0] == '0' ==> r[..|r| - 3] == "0")
  {
    var n := DigitsValue(KeepDigits(s));
    var d := Decimal(n / 100);
    var r := MaskCurrency(s);
    GroupGrouped(d);
    GroupDigits(d);
    assert r == Group(d) + "," + Pad2(n % 100);
    assert r[..|r| - 3] == Group(d);
    assert r[|r| - 2..] == Pad2(n % 100);
    GroupFirst(d);
  }

  /** Grouping keeps the leading digit, and leaves a single digit alone. */
  lemma {:induction false} GroupFirst(s: string)
    requires |s| >= 1
    ensures Group(s)[0] == s[0]
    ensures |s| == 1 ==> Group(s) == s
  {
    if |s| > 3 {
      GroupFirst(s[..|s| - 3]);
    }
  }

  /** The mask ignores every character that is not a digit. */
  lemma MaskIgnoresNonDigits(s: string)
    ensures MaskCurrency(s) == MaskCurrency(KeepDigits(s))
  {
    FilterAll(KeepDigits(s), IsDigit);
  }

  lemma MaskExamples()
    ensures MaskCurrency("1000") == "10,00"
    ensures MaskCurrency("") == "0,00"
    ensures ParseCurrency("") == Some(0)
  {
    assert KeepDigits("1000") == "1000";
    assert DigitsValue("1000") == 1000 by {
      assert "1000"[..3] == "100" && "100"[..2] == "10" && "10"[..1] == "1";
    }
  }
}
