/**
  The numeric parts of the analysis: the overall score read from an
  `N/100` token (three patterns in fallback order), the per-category scores
  read from `N/40`, `N/30` or `N/20` tokens or derived from the overall score,
  and the colour band the page paints the overall score in.
 */
module Scores {
  import opened Wrappers
  import opened Text

  /** The two shapes of score pattern: `Label\s*(\d+)/D` with a
      case-insensitive label, and a bare `(\d+)/D`. */
  datatype ScorePattern = Labelled(heading: string) | Bare

  /** `(\d+)` followed by the denominator, starting at `j`: the digit run is
      maximal, because a shorter run would leave a digit where the `/` must be. */
  function NumberAt(s: string, j: nat, denominator: string): Option<nat>
    requires j <= |s|
  {
    if j < |s| && IsDigit(s[j]) then
      var e := DigitRunEnd(s, j);
      DigitsOfRun(s, j, e);
      if StartsAt(s, e, denominator) then Some(DecimalValue(s[j..e])) else None
    else None
  }

  /** The captured number when the whole pattern matches starting at `i`. */
  function ScoreAt(s: string, i: nat, p: ScorePattern, denominator: string): Option<nat>
    requires i <= |s|
  {
    match p
    case Bare => NumberAt(s, i, denominator)
    case Labelled(heading) =>
      if StartsWithCi(s, i, heading) then NumberAt(s, SkipSpaces(s, i + |heading|), denominator) else None
  }

  /** The pattern matches nowhere in `s`. */
  ghost predicate NoScore(s: string, p: ScorePattern, denominator: string) {
    forall i :: 0 <= i <= |s| ==> ScoreAt(s, i, p, denominator).None?
  }

  /** `v` is what the leftmost match of the pattern captures. */
  ghost predicate FirstScoreIs(s: string, p: ScorePattern, denominator: string, v: nat) {
    exists i :: 0 <= i <= |s| && ScoreAt(s, i, p, denominator) == Some(v)
                && forall j :: 0 <= j < i ==> ScoreAt(s, j, p, denominator).None?
  }

  /** `r` is what the leftmost match at or after `from` captures, or `None`
      when there is no match there. */
  ghost predicate LeftmostFrom(s: string, p: ScorePattern, denominator: string, from: nat, r: Option<nat>)
    requires from <= |s|
  {
    && (r.Some? ==> exists i :: from <= i <= |s| && ScoreAt(s, i, p, denominator) == r
                                && forall j :: from <= j < i ==> ScoreAt(s, j, p, denominator).None?)
    && (r.None? ==> forall i :: from <= i <= |s| ==> ScoreAt(s, i, p, denominator).None?)
  }

  /** Leftmost match of a score pattern at or after `from`. */
  function FirstScore(s: string, p: ScorePattern, denominator: string, from: nat): (r: Option<nat>)
    requires from <= |s|
    ensures LeftmostFrom(s, p, denominator, from, r)
    decreases |s| - from
  {
    match ScoreAt(s, from, p, denominator)
    case Some(v) => Some(v)
    case None =>
      if from == |s| then None
      else
        var r := FirstScore(s, p, denominator, from + 1);
        LeftmostStep(s, p, denominator, from, r);
        r
  }

  /** No match at `from` moves the leftmost match on to `from + 1`. */
  lemma LeftmostStep(s: string, p: ScorePattern, denominator: string, from: nat, r: Option<nat>)
    requires from < |s| && ScoreAt(s, from, p, denominator).None?
    requires LeftmostFrom(s, p, denominator, from + 1, r)
    ensures LeftmostFrom(s, p, denominator, from, r)
  {
    if r.Some? {
      var i :| from + 1 <= i <= |s| && ScoreAt(s, i, p, denominator) == r
               && forall j :: from + 1 <= j < i ==> ScoreAt(s, j, p, denominator).None?;
      assert forall j :: from <= j < i ==> ScoreAt(s, j, p, denominator).None?;
    }
  }

  const TotalScorePattern: ScorePattern := Labelled("Total Score:")
  const PlainScorePattern: ScorePattern := Labelled("Score:")
  const OutOfHundred := "/100"

  /** The overall score: the first `Total Score: N/100` if there is one, else
      the first `Score: N/100`, else the first bare `N/100`, else 0. It is not
      clamped to 100. */
  function OverallScore(s: string): (r: nat)
    ensures !NoScore(s, TotalScorePattern, OutOfHundred) ==> FirstScoreIs(s, TotalScorePattern, OutOfHundred, r)
    ensures (NoScore(s, TotalScorePattern, OutOfHundred) && !NoScore(s, PlainScorePattern, OutOfHundred))
              ==> FirstScoreIs(s, PlainScorePattern, OutOfHundred, r)
    ensures (NoScore(s, TotalScorePattern, OutOfHundred) && NoScore(s, PlainScorePattern, OutOfHundred)
             && !NoScore(s, Bare, OutOfHundred))
              ==> FirstScoreIs(s, Bare, OutOfHundred, r)
    ensures (NoScore(s, TotalScorePattern, OutOfHundred) && NoScore(s, PlainScorePattern, OutOfHundred)
             && NoScore(s, Bare, OutOfHundred))
              ==> r == 0
  {
    match FirstScore(s, TotalScorePattern, OutOfHundred, 0)
    case Some(v) => v
    case None =>
      match FirstScore(s, PlainScorePattern, OutOfHundred, 0)
      case Some(v) => v
      case None =>
        match FirstScore(s, Bare, OutOfHundred, 0)
        case Some(v) => v
        case None => 0
  }

  /** The three weighted categories and their maxima. */
  datatype Category = Skills | Experience | Education {
    function Max(): nat {
      match this
      case Skills => 40
      case Experience => 30
      case Education => 20
    }

    /** The `/40`, `/30` or `/20` that follows an explicit category score. */
    function Denominator(): string {
      match this
      case Skills => "/40"
      case Experience => "/30"
      case Education => "/20"
    }
  }

  /** `Math.round(overall * max / 100)` on integers: round half up. */
  function DerivedScore(overall: nat, max: nat): (r: nat)
    ensures 100 * r <= overall * max + 50 < 100 * r + 100
  {
    (overall * max + 50) / 100
  }

  /** A category score: the number in the first `N/max` token of the
      category's section, else the overall score scaled to the category's
      maximum. Neither is clamped to the maximum. */
  function CategoryScore(section: string, overall: nat, c: Category): (r: nat)
    ensures !NoScore(section, Bare, c.Denominator()) ==> FirstScoreIs(section, Bare, c.Denominator(), r)
    ensures NoScore(section, Bare, c.Denominator()) ==> 100 * r <= overall * c.Max() + 50 < 100 * r + 100
  {
    match FirstScore(section, Bare, c.Denominator(), 0)
    case Some(v) => v
    case None => DerivedScore(overall, c.Max())
  }

  /** A section that opens with `N/max` scores `N`, whatever follows it,
      whatever the overall score and however large `N` is: an explicit score
      wins and is not clamped to the category's maximum. */
  lemma ExplicitCategoryScore(d: string, rest: string, overall: nat, c: Category)
    requires |d| > 0 && AllDigits(d)
    ensures CategoryScore(d + c.Denominator() + rest, overall, c) == DecimalValue(d)
  {
    var s := d + c.Denominator() + rest;
    var den := c.Denominator();
    EmptyPrefix(d, den, rest);
    NumberAfterPrefix("", d, den, rest);
    FirstScoreAtStart(s, Bare, den, DecimalValue(d));
  }

  /** Proof step: an empty prefix adds nothing to the concatenation. */
  lemma EmptyPrefix(d: string, denominator: string, rest: string)
    ensures "" + d + denominator + rest == d + denominator + rest
  {
  }

  /** A match at index 0 is the leftmost one. */
  lemma FirstScoreAtStart(s: string, p: ScorePattern, denominator: string, v: nat)
    requires ScoreAt(s, 0, p, denominator) == Some(v)
    ensures FirstScore(s, p, denominator, 0) == Some(v)
  {
  }

  /** `Label N/D` at the start of a text is a match of the labelled
      pattern capturing `N`, whatever follows the denominator. */
  lemma LabelledScoreAtStart(lit: string, d: string, denominator: string, rest: string)
    requires |d| > 0 && AllDigits(d)
    requires |denominator| > 0 && !IsDigit(denominator[0])
    ensures ScoreAt(lit + " " + d + denominator + rest, 0, Labelled(lit), denominator) == Some(DecimalValue(d))
  {
    var s := lit + " " + d + denominator + rest;
    LabelAtStart(lit, " " + d + denominator + rest);
    assert lit + (" " + d + denominator + rest) == s;
    SpaceBeforeDigits(lit, d, denominator + rest);
    assert lit + " " + d + (denominator + rest) == s;
    NumberAfterPrefix(lit + " ", d, denominator, rest);
  }

  /** A literal occurs, ignoring case, at the start of any text it begins. */
  lemma LabelAtStart(lit: string, rest: string)
    ensures StartsWithCi(lit + rest, 0, lit)
  {
    ExactPrefixIgnoringCase(lit, (lit + rest)[0..]);
  }

  /** `\s*` after the label stops right after the single space, at the
      first digit. */
  lemma SpaceBeforeDigits(lit: string, d: string, tail: string)
    requires |d| > 0
    requires AllDigits(d)
    ensures SkipSpaces(lit + " " + d + tail, |lit|) == |lit| + 1
  {
    var s := lit + " " + d + tail;
    var n := |lit|;
    assert s[n] == ' ' && s[n + 1] == d[0];
    SkipSpacesStopsAt(s, n, n + 1);
  }

  /** `N/D` right after a prefix is a number match capturing `N`, whatever
      follows the denominator. */
  lemma NumberAfterPrefix(prefix: string, d: string, denominator: string, rest: string)
    requires |d| > 0 && AllDigits(d)
    requires |denominator| > 0 && !IsDigit(denominator[0])
    ensures NumberAt(prefix + d + denominator + rest, |prefix|, denominator) == Some(DecimalValue(d))
  {
    var s := prefix + d + denominator + rest;
    var n := |prefix|;
    var e := n + |d|;
    PartsOfNumber(prefix, d, denominator, rest);
    DigitRunOfSlice(s, n, d);
    DigitRunEndsAt(s, n, e);
  }

  /** Where the digits and the denominator sit in `prefix + d + denominator + rest`. */
  lemma PartsOfNumber(prefix: string, d: string, denominator: string, rest: string)
    requires |denominator| > 0
    ensures var s := prefix + d + denominator + rest; var e := |prefix| + |d|;
      && e + |denominator| <= |s|
      && s[|prefix|..e] == d
      && s[e] == denominator[0]
      && StartsAt(s, e, denominator)
  {
    var s := prefix + d + denominator + rest;
    var e := |prefix| + |d|;
    assert s[|prefix|..e] == d;
    assert s[e..e + |denominator|] == denominator;
  }

  /** A text that opens with `Total Score: N/100` has overall score `N`,
      whatever follows, with no upper bound. */
  lemma TotalScoreLine(d: string, rest: string)
    requires |d| > 0 && AllDigits(d)
    ensures OverallScore("Total Score: " + d + OutOfHundred + rest) == DecimalValue(d)
  {
    assert "Total Score: " == "Total Score:" + " ";
    LabelledScoreAtStart("Total Score:", d, OutOfHundred, rest);
  }

  /** The colour band of the overall score card. */
  datatype Band = Green | Yellow | Red {
    /** The utility classes the page applies for the band. */
    function Classes(): string {
      match this
      case Green => "text-green-600 bg-green-50 border-green-200"
      case Yellow => "text-yellow-600 bg-yellow-50 border-yellow-200"
      case Red => "text-red-600 bg-red-50 border-red-200"
    }

    /** Bands ordered from worst to best. */
    function Rank(): nat {
      match this
      case Red => 0
      case Yellow => 1
      case Green => 2
    }
  }

  /** `getScoreColor`: green from 80 up, yellow from 60 up, red below. */
  function ScoreBand(score: int): (b: Band)
    ensures b == Green <==> score >= 80
    ensures b == Yellow <==> 60 <= score < 80
    ensures b == Red <==> score < 60
  {
    if score >= 80 then Green else if score >= 60 then Yellow else Red
  }

  /** `getScoreColor`: the green classes exactly from 80 up, the yellow
      ones exactly from 60 to 79, and the red ones exactly below 60. */
  function ScoreColor(score: int): (r: string)
    ensures r == Green.Classes() <==> score >= 80
    ensures r == Yellow.Classes() <==> 60 <= score < 80
    ensures r == Red.Classes() <==> score < 60
  {
    ClassesDistinct();
    ScoreBand(score).Classes()
  }

  /** A higher score never gets a worse band, and the classes the page
      applies tell the bands apart. */
  lemma ScoreColorMonotone(a: int, b: int)
    requires a <= b
    ensures ScoreBand(a).Rank() <= ScoreBand(b).Rank()
    ensures ScoreColor(a) == ScoreColor(b) <==> ScoreBand(a) == ScoreBand(b)
  {
    ClassesDistinct();
  }

  lemma ClassesDistinct()
    ensures Green.Classes() != Yellow.Classes()
    ensures Green.Classes() != Red.Classes()
    ensures Yellow.Classes() != Red.Classes()
  {
    assert Green.Classes()[5] == 'g';
    assert Yellow.Classes()[5] == 'y';
    assert Red.Classes()[5] == 'r';
  }
}
