/** The stat counters of the about section (app/components/Presentation.tsx, lines
    151-208): the suffix and the numeric prefix of a target such as "10+", the
    initial text, and the text written on every frame of the count-up. Counter values
    are naturals in the unit the tween snaps to: ones for an integral target, tenths
    otherwise. The tween itself (easing, duration, scroll trigger) is not modelled. */
module Presentation {
  import opened Wrappers
  import opened Decimal

  // ---------------------------------------------------------------------------
  // Reading a target

  predicate IsNumeric(c: char) {
    IsDigit(c) || c == '.'
  }

  /** `targetText.replace(/[\d.]/g, "")`. */
  function Suffix(target: string): (r: string)
    ensures forall i :: 0 <= i < |r| ==> !IsNumeric(r[i])
    ensures |r| <= |target|
  {
    if target == [] then []
    else (if IsNumeric(target[0]) then [] else [target[0]]) + Suffix(target[1..])
  }

  lemma {:induction false} SuffixAppend(a: string, b: string)
    ensures Suffix(a + b) == Suffix(a) + Suffix(b)
  {
    if a == [] {
      assert a + b == b;
    } else {
      assert (a + b)[0] == a[0];
      assert (a + b)[1..] == a[1..] + b;
      SuffixAppend(a[1..], b);
    }
  }

  /** A text with no digit and no '.' is its own suffix. */
  lemma {:induction false} SuffixOfPlain(s: string)
    requires forall i :: 0 <= i < |s| ==> !IsNumeric(s[i])
    ensures Suffix(s) == s
  {
    if s != [] {
      SuffixOfPlain(s[1..]);
      assert s == [s[0]] + s[1..];
    }
  }

  /** A run of digits and dots has the empty suffix. */
  lemma {:induction false} SuffixOfNumeric(s: string)
    requires forall i :: 0 <= i < |s| ==> IsNumeric(s[i])
    ensures Suffix(s) == []
  {
    if s != [] {
      SuffixOfNumeric(s[1..]);
    }
  }

  /** Removing digits and dots a second time changes nothing. */
  lemma SuffixIdempotent(target: string)
    ensures Suffix(Suffix(target)) == Suffix(target)
  {
    SuffixOfPlain(Suffix(target));
  }

  /** The longest run of digits at the start of s. */
  function LeadingDigits(s: string): (r: string)
    ensures AllDigits(r) && r <= s
    ensures |r| < |s| ==> !IsDigit(s[|r|])
  {
    if s != [] && IsDigit(s[0]) then [s[0]] + LeadingDigits(s[1..]) else []
  }

  lemma {:induction false} LeadingDigitsOf(ds: string, rest: string)
    requires AllDigits(ds)
    requires rest == [] || !IsDigit(rest[0])
    ensures LeadingDigits(ds + rest) == ds
  {
    if ds != [] {
      assert (ds + rest)[1..] == ds[1..] + rest;
      LeadingDigitsOf(ds[1..], rest);
      assert ds == [ds[0]] + ds[1..];
    } else {
      assert ds + rest == rest;
    }
  }

  /** A decimal literal: the digits before the point and those after it. */
  datatype Literal = Literal(whole: string, fraction: string)

  /** `parseFloat` on the forms a target takes: digits, optionally a point and more
      digits, with at least one digit in all; NaN (None) when the target does not
      start that way. */
  function ParseNumber(s: string): (r: Option<Literal>)
    ensures r.None? <==>
      !(|s| > 0 && IsDigit(s[0])) && !(|s| > 1 && s[0] == '.' && IsDigit(s[1]))
    ensures r.Some? ==> AllDigits(r.value.whole) && AllDigits(r.value.fraction)
  {
    var w := LeadingDigits(s);
    var rest := s[|w|..];
    var f := if |rest| > 0 && rest[0] == '.' then LeadingDigits(rest[1..]) else "";
    if |w| == 0 && |f| == 0 then None else Some(Literal(w, f))
  }

  /** `numericPart % 1 === 0`: no non-zero digit after the point. */
  predicate IsIntegral(lit: Literal) {
    forall i :: 0 <= i < |lit.fraction| ==> lit.fraction[i] == '0'
  }

  /** The whole part of the literal. */
  function WholeValue(lit: Literal): nat
    requires AllDigits(lit.whole)
  {
    DigitsValue(lit.whole)
  }

  /** The literal snapped to tenths: Math.round(value / 0.1), rounding half up. */
  function RoundedTenths(lit: Literal): nat
    requires AllDigits(lit.whole) && AllDigits(lit.fraction)
  {
    var first := if |lit.fraction| > 0 then DigitValue(lit.fraction[0]) else 0;
    var up := if |lit.fraction| > 1 && DigitValue(lit.fraction[1]) >= 5 then 1 else 0;
    WholeValue(lit) * 10 + first + up
  }

  // ---------------------------------------------------------------------------
  // The counter

  /** A running counter: the suffix re-appended on every frame, whether frames are
      whole numbers, and the last value in that unit. */
  datatype Counter = Counter(suffix: string, integral: bool, last: nat)

  predicate PlainSuffix(c: Counter) {
    forall i :: 0 <= i < |c.suffix| ==> !IsNumeric(c.suffix[i])
  }

  /** Which targets get a counter: a non-empty target whose numeric prefix is a
      number. */
  function CounterFor(target: string): (r: Option<Counter>)
    ensures r.Some? <==> target != "" && ParseNumber(target).Some?
    ensures r.Some? ==> r.value.suffix == Suffix(target) && PlainSuffix(r.value)
  {
    if target == "" then None
    else match ParseNumber(target)
      case None => None
      case Some(lit) =>
        var integral := IsIntegral(lit);
        Some(Counter(Suffix(target), integral,
                     if integral then WholeValue(lit) else RoundedTenths(lit)))
  }

  /** `Math.round(counter.val)` or `counter.val.toFixed(1)` for a snapped value. */
  function FormatValue(integral: bool, v: nat): string {
    if integral then NatToString(v)
    else NatToString(v / 10) + "." + [DigitChar(v % 10)]
  }

  /** A formatted value is a whole number with no point, or has exactly one digit
      after the point, and reads back as v in the counter's unit. */
  lemma FormatValueReadsBack(integral: bool, v: nat)
    ensures var r := FormatValue(integral, v);
      integral ==> AllDigits(r) && DigitsValue(r) == v
    ensures var r := FormatValue(integral, v);
      !integral ==>
        (|r| >= 3 && r[|r| - 2] == '.' && IsDigit(r[|r| - 1])
         && AllDigits(r[..|r| - 2]) && DigitsValue(r[..|r| - 2]) == v / 10
         && DigitValue(r[|r| - 1]) == v % 10)
  {
    if integral {
      NatToStringRoundTrip(v);
    } else {
      var w := NatToString(v / 10);
      var r := w + "." + [DigitChar(v % 10)];
      assert r[..|r| - 2] == w;
      NatToStringRoundTrip(v / 10);
    }
  }

  /** The text the `onUpdate` callback writes for value v. */
  function FrameText(c: Counter, v: nat): string {
    FormatValue(c.integral, v) + c.suffix
  }

  /** The text before the counter starts: `"0" + suffix`, or the target itself when
      there is no counter. */
  function InitialText(target: string): (r: string)
    ensures CounterFor(target).None? ==> r == target
    ensures CounterFor(target).Some? ==> r == "0" + Suffix(target)
  {
    match CounterFor(target)
    case None => target
    case Some(c) => "0" + c.suffix
  }

  /** The text once the count-up has finished. */
  function FinalText(target: string): string {
    match CounterFor(target)
    case None => target
    case Some(c) => FrameText(c, c.last)
  }

  /** The suffix of a number written out and followed by a plain suffix is that suffix. */
  lemma SuffixAfterNumber(num: string, suffix: string)
    requires forall i :: 0 <= i < |num| ==> IsNumeric(num[i])
    requires forall i :: 0 <= i < |suffix| ==> !IsNumeric(suffix[i])
    ensures Suffix(num + suffix) == suffix
  {
    SuffixAppend(num, suffix);
    SuffixOfNumeric(num);
    SuffixOfPlain(suffix);
  }

  /** parseFloat of digits followed by neither a digit nor a point. */
  lemma ParseWhole(w: string, rest: string)
    requires AllDigits(w) && |w| > 0
    requires rest == [] || (!IsDigit(rest[0]) && rest[0] != '.')
    ensures ParseNumber(w + rest) == Some(Literal(w, ""))
  {
    LeadingDigitsOf(w, rest);
    assert (w + rest)[|w|..] == rest;
  }

  /** parseFloat of digits, a point and digits, followed by no digit. */
  lemma ParseDecimal(w: string, f: string, rest: string)
    requires AllDigits(w) && AllDigits(f) && |f| > 0
    requires rest == [] || !IsDigit(rest[0])
    ensures ParseNumber(w + "." + f + rest) == Some(Literal(w, f))
  {
    var text := w + "." + f + rest;
    assert text == w + ("." + f + rest);
    LeadingDigitsOf(w, "." + f + rest);
    assert text[|w|..] == "." + f + rest;
    assert ("." + f + rest)[1..] == f + rest;
    LeadingDigitsOf(f, rest);
  }

  /** Every frame reads back as its own value followed by the suffix: for an integral
      target a whole number with no point, otherwise exactly one digit after the
      point. */
  lemma FrameReadsBack(c: Counter, v: nat)
    requires PlainSuffix(c)
    ensures var r := ParseNumber(FrameText(c, v));
      r.Some? && WholeValue(r.value) == (if c.integral then v else v / 10)
    ensures c.integral ==> ParseNumber(FrameText(c, v)).value.fraction == ""
    ensures !c.integral ==> ParseNumber(FrameText(c, v)).value.fraction == [DigitChar(v % 10)]
    ensures Suffix(FrameText(c, v)) == c.suffix
  {
    if c.integral {
      var w := NatToString(v);
      assert FrameText(c, v) == w + c.suffix;
      ParseWhole(w, c.suffix);
      NatToStringRoundTrip(v);
      SuffixAfterNumber(w, c.suffix);
    } else {
      var w := NatToString(v / 10);
      var d := [DigitChar(v % 10)];
      assert FrameText(c, v) == w + "." + d + c.suffix;
      ParseDecimal(w, d, c.suffix);
      NatToStringRoundTrip(v / 10);
      SuffixAfterNumber(w + "." + d, c.suffix);
    }
  }

  /** A whole-number target written in shortest form, followed by a suffix with no
      digit and no point, ends the count-up showing exactly itself. */
  lemma WholeTargetRoundTrip(n: nat, suffix: string)
    requires forall i :: 0 <= i < |suffix| ==> !IsNumeric(suffix[i])
    ensures FinalText(NatToString(n) + suffix) == NatToString(n) + suffix
  {
    var w := NatToString(n);
    ParseWhole(w, suffix);
    NatToStringRoundTrip(n);
    SuffixAfterNumber(w, suffix);
    assert CounterFor(w + suffix) == Some(Counter(suffix, true, n));
  }

  /** A whole-number target followed by a plain suffix starts as "0" and that suffix. */
  lemma WholeTargetStartsAtZero(n: nat, suffix: string)
    requires forall i :: 0 <= i < |suffix| ==> !IsNumeric(suffix[i])
    ensures InitialText(NatToString(n) + suffix) == "0" + suffix
  {
    var w := NatToString(n);
    ParseWhole(w, suffix);
    SuffixAfterNumber(w, suffix);
  }

  /** A target with one non-zero decimal, followed by a plain suffix, ends the count-up
      showing exactly itself. */
  lemma OneDecimalTargetRoundTrip(n: nat, d: nat, suffix: string)
    requires 0 < d < 10
    requires forall i :: 0 <= i < |suffix| ==> !IsNumeric(suffix[i])
    ensures FinalText(NatToString(n) + "." + [DigitChar(d)] + suffix)
         == NatToString(n) + "." + [DigitChar(d)] + suffix
  {
    var w := NatToString(n);
    var ds := [DigitChar(d)];
    var target := w + "." + ds + suffix;
    var lit := Literal(w, ds);
    var v := n * 10 + d;
    var c := Counter(suffix, false, v);
    assert ParseNumber(target) == Some(lit) by {
      ParseDecimal(w, ds, suffix);
    }
    assert Suffix(target) == suffix by {
      SuffixAfterNumber(w + "." + ds, suffix);
    }
    assert !IsIntegral(lit);
    assert RoundedTenths(lit) == v by {
      NatToStringRoundTrip(n);
    }
    assert CounterFor(target) == Some(c);
    assert v / 10 == n && v % 10 == d;
    assert FrameText(c, v) == target;
  }

  /** A target with one decimal, followed by a plain suffix, starts as "0" and that
      suffix. */
  lemma OneDecimalTargetStartsAtZero(n: nat, d: nat, suffix: string)
    requires d < 10
    requires forall i :: 0 <= i < |suffix| ==> !IsNumeric(suffix[i])
    ensures InitialText(NatToString(n) + "." + [DigitChar(d)] + suffix) == "0" + suffix
  {
    var w := NatToString(n);
    var ds := [DigitChar(d)];
    ParseDecimal(w, ds, suffix);
    SuffixAfterNumber(w + "." + ds, suffix);
  }

  /** The three stats of the section: each starts at "0" plus its suffix and ends
      showing its own text. */
  lemma SiteStats()
    ensures InitialText("2.5") == "0" && FinalText("2.5") == "2.5"
    ensures InitialText("10+") == "0+" && FinalText("10+") == "10+"
    ensures InitialText("100%") == "0%" && FinalText("100%") == "100%"
  {
    ExperienceStat();
    ProjectsStat();
    SatisfactionStat();
  }

  lemma ExperienceStat()
    ensures InitialText("2.5") == "0" && FinalText("2.5") == "2.5"
  {
    var text := NatToString(2) + "." + [DigitChar(5)] + "";
    assert text == "2.5";
    OneDecimalTargetRoundTrip(2, 5, "");
    OneDecimalTargetStartsAtZero(2, 5, "");
  }

  lemma ProjectsStat()
    ensures InitialText("10+") == "0+" && FinalText("10+") == "10+"
  {
    var text := NatToString(10) + "+";
    assert text == "10+" by {
      assert NatToString(1) == "1";
      assert NatToString(10) == NatToString(1) + [DigitChar(0)];
    }
    WholeTargetRoundTrip(10, "+");
    WholeTargetStartsAtZero(10, "+");
  }

  lemma SatisfactionStat()
    ensures InitialText("100%") == "0%" && FinalText("100%") == "100%"
  {
    var text := NatToString(100) + "%";
    assert text == "100%" by {
      assert NatToString(1) == "1";
      assert NatToString(10) == NatToString(1) + [DigitChar(0)];
      assert NatToString(100) == NatToString(10) + [DigitChar(0)];
    }
    WholeTargetRoundTrip(100, "%");
    WholeTargetStartsAtZero(100, "%");
  }

  // ---------------------------------------------------------------------------
  // The effect over the stat elements

  /** The `forEach` over the stat elements: each value element gets its initial text. */
  method SetUpStats(targets: seq<string>) returns (texts: seq<string>)
    ensures |texts| == |targets|
    ensures forall i :: 0 <= i < |targets| ==> texts[i] == InitialText(targets[i])
  {
    texts := [];
    var i := 0;
    while i < |targets|
      invariant 0 <= i <= |targets|
      invariant |texts| == i
      invariant forall k :: 0 <= k < i ==> texts[k] == InitialText(targets[k])
    {
      var text := targets[i];
      if text != "" {
        match ParseNumber(text)
        case None =>
        case Some(_) => text := "0" + Suffix(text);
      }
      texts := texts + [text];
      i := i + 1;
    }
  }

  /** One stat value element: its target, its text and the counter's current value. */
  class StatValue {
    const target: string
    var textContent: string
    var val: nat

    /** As rendered: the element shows its target. */
    constructor (target: string)
      ensures this.target == target && textContent == target && val == 0
    {
      this.target := target;
      textContent := target;
      val := 0;
    }

    /** The effect's set-up: the initial text when the target gets a counter. */
    method Start()
      modifies this`textContent
      ensures textContent == InitialText(target)
    {
      textContent := InitialText(target);
    }

    /** One `onUpdate` frame with snapped value v, between zero and the target. */
    method Update(v: nat)
      requires CounterFor(target).Some? && v <= CounterFor(target).value.last
      modifies this`textContent, this`val
      ensures val == v && textContent == FrameText(CounterFor(target).value, v)
      ensures v == CounterFor(target).value.last ==> textContent == FinalText(target)
    {
      val := v;
      textContent := FrameText(CounterFor(target).value, v);
    }
  }
}
