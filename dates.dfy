/**
 * Calendar dates written `YYYY-MM-DD`, the format `datetime.strptime(s, "%Y-%m-%d")`
 * reads in the historical-price tool. The tool filters on parsed dates but sorts on
 * the raw strings; DateOrderAgreement shows the two orders coincide for such strings.
 */
module Dates {
  import opened Wrappers
  import opened PyText

  predicate IsDigit(c: char) { '0' <= c <= '9' }

  predicate AllDigits(s: string) { forall k :: 0 <= k < |s| ==> IsDigit(s[k]) }

  function Pow10(n: nat): (p: nat)
    ensures p >= 1
  {
    if n == 0 then 1 else 10 * Pow10(n - 1)
  }

  /** Each step up in the multiplier adds one more `p`. */
  lemma {:induction false} MultipleGrows(a: nat, b: nat, p: nat)
    requires a < b
    ensures a * p + p <= b * p
    decreases b - a
  {
    assert (a + 1) * p == a * p + p;
    if a + 1 < b {
      MultipleGrows(a + 1, b, p);
    }
  }

  /** The decimal value of a digit string, most significant digit first. */
  function Num(s: string): (v: nat)
    requires AllDigits(s)
    ensures v < Pow10(|s|)
  {
    if s == [] then 0
    else
      var d: nat := (s[0] as int) - ('0' as int);
      var rest := Num(s[1..]);
      MultipleGrows(d, 10, Pow10(|s| - 1));
      d * Pow10(|s| - 1) + rest
  }

  /** A larger leading digit outweighs anything the lower digits contribute. */
  lemma LeadingDigitDominates(da: nat, db: nat, ra: nat, rb: nat, p: nat)
    requires da < db && ra < p && rb < p
    ensures da * p + ra < db * p + rb
  {
    MultipleGrows(da, db, p);
  }

  /** On digit strings of one length, string order is numeric order. */
  lemma {:induction false} NumOrder(a: string, b: string)
    requires AllDigits(a) && AllDigits(b) && |a| == |b|
    ensures LexLt(a, b) <==> Num(a) < Num(b)
  {
    if a != [] {
      var p := Pow10(|a| - 1);
      var da: nat, db: nat := (a[0] as int) - ('0' as int), (b[0] as int) - ('0' as int);
      var ra, rb := Num(a[1..]), Num(b[1..]);
      assert Num(a) == da * p + ra;
      assert Num(b) == db * p + rb;
      if da < db {
        LeadingDigitDominates(da, db, ra, rb, p);
      } else if db < da {
        LeadingDigitDominates(db, da, rb, ra, p);
      } else {
        assert a[0] == b[0];
        NumOrder(a[1..], b[1..]);
      }
    }
  }

  /** On digit strings of one length, equal values mean equal strings. */
  lemma NumInjective(a: string, b: string)
    requires AllDigits(a) && AllDigits(b) && |a| == |b|
    ensures a == b <==> Num(a) == Num(b)
  {
    if a != b {
      LexLtTotal(a, b);
      NumOrder(a, b);
      NumOrder(b, a);
    }
  }

  /** The exact shape `YYYY-MM-DD`: four, two and two digits separated by dashes. */
  predicate WellFormedDate(s: string)
  {
    |s| == 10 && s[4] == '-' && s[7] == '-'
    && AllDigits(s[..4]) && AllDigits(s[5..7]) && AllDigits(s[8..])
  }

  datatype Ymd = Ymd(year: nat, month: nat, day: nat)

  /** Chronological order of parsed dates: year, then month, then day. */
  predicate YmdLt(a: Ymd, b: Ymd)
  {
    a.year < b.year
    || (a.year == b.year && (a.month < b.month || (a.month == b.month && a.day < b.day)))
  }

  predicate YmdLe(a: Ymd, b: Ymd) { a == b || YmdLt(a, b) }

  /** `strptime(s, "%Y-%m-%d")` for the `YYYY-MM-DD` shape; None where it would raise. */
  function ParseDate(s: string): (r: Option<Ymd>)
    ensures r.Some? <==> WellFormedDate(s)
  {
    if WellFormedDate(s) then Some(Ymd(Num(s[..4]), Num(s[5..7]), Num(s[8..]))) else None
  }

  /** Splits a well-formed date into its five pieces. */
  lemma DatePieces(s: string)
    requires WellFormedDate(s)
    ensures s == s[..4] + ("-" + (s[5..7] + ("-" + s[8..])))
  {
  }

  /** For `YYYY-MM-DD` strings, the string order `sorted` uses is the chronological order the filter uses. */
  lemma DateOrderAgreement(a: string, b: string)
    requires WellFormedDate(a) && WellFormedDate(b)
    ensures LexLt(a, b) <==> YmdLt(ParseDate(a).value, ParseDate(b).value)
  {
    DatePieces(a);
    DatePieces(b);
    LexLtConcat(a[..4], "-" + (a[5..7] + ("-" + a[8..])), b[..4], "-" + (b[5..7] + ("-" + b[8..])));
    LexLtConcat("-", a[5..7] + ("-" + a[8..]), "-", b[5..7] + ("-" + b[8..]));
    LexLtConcat(a[5..7], "-" + a[8..], b[5..7], "-" + b[8..]);
    LexLtConcat("-", a[8..], "-", b[8..]);
    LexLtIrreflexive("-");
    NumOrder(a[..4], b[..4]);
    NumOrder(a[5..7], b[5..7]);
    NumOrder(a[8..], b[8..]);
    NumInjective(a[..4], b[..4]);
    NumInjective(a[5..7], b[5..7]);
  }
}
