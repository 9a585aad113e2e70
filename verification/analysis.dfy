/**
  `parseAnalysisText`: the assembly of the structured analysis record from
  the model's free-text answer. Five sections are cut out of the text with
  lazy heading patterns, item lists are pulled out of them between labels,
  category scores are read from each section or derived from the overall
  score, and the overall fit is a trimmed free-text span of the summary.
 */
module Analysis {
  import opened Wrappers
  import opened Text
  import opened Search
  import opened Scores
  import opened Bullets

  datatype SkillsMatching = SkillsMatching(matching: seq<string>, missing: seq<string>, score: nat)

  datatype ExperienceMatching = ExperienceMatching(relevant: seq<string>, missing: seq<string>, score: nat)

  datatype EducationMatching = EducationMatching(matching: seq<string>, missing: seq<string>, score: nat)

  datatype Recommendations = Recommendations(
    skillsToAdd: seq<string>,
    experienceToHighlight: seq<string>,
    educationToInclude: seq<string>,
    formatting: seq<string>)

  /** The record the analysis page renders. */
  datatype ParsedAnalysis = ParsedAnalysis(
    score: nat,
    skillsMatching: SkillsMatching,
    experienceMatching: ExperienceMatching,
    educationMatching: EducationMatching,
    recommendations: Recommendations,
    strengths: seq<string>,
    weaknesses: seq<string>,
    overallFit: string)

  // Section headings and the terminators of their lazy patterns.
  const SkillsHeading: Pattern := ["Skills Matching"]
  const SkillsEnds: Pattern := ["Experience Matching", "Education Matching", "Scoring"]
  const ExperienceHeading: Pattern := ["Experience Matching"]
  const ExperienceEnds: Pattern := ["Education Matching", "Scoring", "Recommendations"]
  const EducationHeading: Pattern := ["Education Matching"]
  const EducationEnds: Pattern := ["Scoring", "Recommendations", "Summary"]
  const RecommendationsHeading: Pattern := ["Recommendations:"]
  const RecommendationsEnds: Pattern := ["Summary", "Create an"]
  const SummaryHeading: Pattern := ["Summary:"]
  const SummaryEnds: Pattern := ["Create an"]

  // Item labels; `Skills?:` is the two alternatives `Skills:` and `Skill:`.
  const MatchingSkillsLabel: Pattern := ["Matching Skills:", "Matching Skill:"]
  const MissingSkillsLabel: Pattern := ["Missing Skills:", "Missing Skill:"]
  const RelevantExperienceLabel: Pattern := ["Relevant Experience:"]
  const MissingExperienceLabel: Pattern := ["Missing Experience:"]
  const MatchingEducationLabel: Pattern := ["Matching Education:"]
  const MissingEducationLabel: Pattern := ["Missing Education:"]
  const SkillsToAddLabel: Pattern := ["Skills to Add:"]
  const SkillsToAddEnds: Pattern := ["Experience to Highlight:", "Education to Include:", "Formatting", "Summary"]
  const ExperienceToHighlightLabel: Pattern := ["Experience to Highlight:"]
  const ExperienceToHighlightEnds: Pattern := ["Education to Include:", "Formatting", "Summary"]
  const EducationToIncludeLabel: Pattern := ["Education to Include:"]
  const EducationToIncludeEnds: Pattern := ["Formatting", "Summary"]
  const FormattingLabel: Pattern := ["Formatting and Presentation:"]
  const FormattingEnds: Pattern := ["Summary"]
  const StrengthsLabel: Pattern := ["Strengths:"]
  const StrengthsEnds: Pattern := ["Weaknesses:", "Overall Fit:"]
  const WeaknessesLabel: Pattern := ["Weaknesses:"]
  const OverallFitLabel: Pattern := ["Overall Fit:"]
  const OverallFitEnds: Pattern := ["Create an", "\n\n"]

  function SkillsSection(s: string): string { Section(s, SkillsHeading, SkillsEnds) }
  function ExperienceSection(s: string): string { Section(s, ExperienceHeading, ExperienceEnds) }
  function EducationSection(s: string): string { Section(s, EducationHeading, EducationEnds) }
  function RecommendationsSection(s: string): string { Section(s, RecommendationsHeading, RecommendationsEnds) }
  function SummarySection(s: string): string { Section(s, SummaryHeading, SummaryEnds) }

  /** Two newlines in a row are an occurrence of the `\n\n` terminator. */
  lemma BlankLineOccurs(s: string, p: nat)
    requires p + 1 < |s| && s[p] == '\n' && s[p + 1] == '\n'
    ensures Occurs(s, p, OverallFitEnds)
  {
    assert s[p..][1..] == s[p + 1..];
    assert s[p + 1..][1..] == s[p + 2..];
    assert PrefixIgnoringCase("", s[p + 2..]);
    assert PrefixIgnoringCase("\n", s[p + 1..]);
    assert StartsWithCi(s, p, OverallFitEnds[1]);
  }

  // `m.replace(/Overall Fit:\s*/i, "").trim()`: the first occurrence of
  // the label, ignoring case, and the whitespace after it are cut out, and
  // the rest is trimmed.
  function StripFitLabel(m: string): string {
    match Find(m, OverallFitLabel, 0)
    case None => Trim(m)
    case Some(h) => Trim(m[..h.at] + m[SkipSpaces(m, h.at + h.len)..])
  }

  /** `overallFit`: the span from `Overall Fit:` to the first `Create an`,
      `\n\n` or end of the summary, with the label stripped, or `""`
      when there is no such span. */
  function OverallFit(summary: string): string {
    match SectionSpan(summary, OverallFitLabel, OverallFitEnds)
    case None => ""
    case Some(sp) => StripFitLabel(summary[sp.start..sp.end])
  }

  /** The overall fit is `""` without an `Overall Fit:` span, and otherwise
      the trimmed text between the label and the end of the span. */
  lemma OverallFitText(summary: string)
    ensures SectionSpan(summary, OverallFitLabel, OverallFitEnds).None? ==> OverallFit(summary) == ""
    ensures SectionSpan(summary, OverallFitLabel, OverallFitEnds).Some? ==>
      var sp := SectionSpan(summary, OverallFitLabel, OverallFitEnds).value;
      && sp.start + |OverallFitLabel[0]| <= sp.end <= |summary|
      && OverallFit(summary) == Trim(summary[sp.start + |OverallFitLabel[0]|..sp.end])
  {
    var span := SectionSpan(summary, OverallFitLabel, OverallFitEnds);
    if span.Some? {
      FitSpanBounds(summary, span.value);
      FitOfSpan(summary, span.value);
    }
  }

  /** When the text begins with the label, stripping it is trimming what
      follows the label: the whitespace `\s*` removes would be trimmed
      anyway. */
  lemma StripLeadingFitLabel(m: string)
    requires Occurs(m, 0, OverallFitLabel)
    ensures |OverallFitLabel[0]| <= |m|
    ensures StripFitLabel(m) == Trim(m[|OverallFitLabel[0]|..])
  {
    var n := |OverallFitLabel[0]|;
    FitLabelFoundAtStart(m);
    CutAtStart(m, SkipSpaces(m, n));
    TrimAfterCut(m, n);
  }

  /** A text that begins with the label has its first label at index 0. */
  lemma FitLabelFoundAtStart(m: string)
    requires Occurs(m, 0, OverallFitLabel)
    ensures Find(m, OverallFitLabel, 0) == Some(Hit(0, |OverallFitLabel[0]|))
  {
    assert MatchAt(m, 0, OverallFitLabel) == Some(|OverallFitLabel[0]|);
  }

  /** A paragraph: no whitespace at either end and no two consecutive
      newlines (`\n\n`) inside. */
  predicate OneParagraph(r: string) {
    && (r == "" || (!IsSpace(r[0]) && !IsSpace(r[|r| - 1])))
    && forall q :: 0 <= q < |r| - 1 ==> !(r[q] == '\n' && r[q + 1] == '\n')
  }

  /** The overall fit never starts or ends with whitespace and never
      contains two consecutive newlines. */
  lemma OverallFitIsOneParagraph(summary: string)
    ensures OneParagraph(OverallFit(summary))
  {
    match SectionSpan(summary, OverallFitLabel, OverallFitEnds)
    case None =>
      assert OverallFit(summary) == "";
    case Some(sp) =>
      var lo := sp.start + |OverallFitLabel[0]|;
      FitSpanBounds(summary, sp);
      FitOfSpan(summary, sp);
      NoBlankLineBetween(summary, lo, sp.end);
  }

  /** Where the text of a given `Overall Fit:` span lies, and that no
      terminator occurs inside it. */
  lemma FitSpanBounds(summary: string, sp: Span)
    requires SectionSpan(summary, OverallFitLabel, OverallFitEnds) == Some(sp)
    ensures sp.start + |OverallFitLabel[0]| <= sp.end <= |summary|
    ensures forall j :: sp.start + |OverallFitLabel[0]| <= j < sp.end ==> !Occurs(summary, j, OverallFitEnds)
  {
    assert MatchAt(summary, sp.start, OverallFitLabel) == Some(|OverallFitLabel[0]|);
  }

  /** The overall fit read from a given `Overall Fit:` span. */
  lemma FitOfSpan(summary: string, sp: Span)
    requires SectionSpan(summary, OverallFitLabel, OverallFitEnds) == Some(sp)
    requires sp.start + |OverallFitLabel[0]| <= sp.end <= |summary|
    ensures OverallFit(summary) == Trim(summary[sp.start + |OverallFitLabel[0]|..sp.end])
  {
    var m := summary[sp.start..sp.end];
    OccursInSlice(summary, sp.start, sp.end, OverallFitLabel);
    StripLeadingFitLabel(m);
    assert m[|OverallFitLabel[0]|..] == summary[sp.start + |OverallFitLabel[0]|..sp.end];
  }

  /** Trimming a stretch with no terminator of the overall fit inside it
      gives a string without whitespace at either end and without two
      consecutive newlines. */
  lemma NoBlankLineBetween(s: string, lo: nat, hi: nat)
    requires lo <= hi <= |s|
    requires forall j :: lo <= j < hi ==> !Occurs(s, j, OverallFitEnds)
    ensures OneParagraph(Trim(s[lo..hi]))
  {
    var r := Trim(s[lo..hi]);
    var a := lo + SkipSpaces(s[lo..hi], 0);
    TrimShape(s[lo..hi]);
    forall q | 0 <= q < |r| - 1
      ensures !(r[q] == '\n' && r[q + 1] == '\n')
    {
      TrimOfSliceAt(s, lo, hi, q);
      TrimOfSliceAt(s, lo, hi, q + 1);
      if r[q] == '\n' && r[q + 1] == '\n' {
        BlankLineOccurs(s, a + q);
        assert false;
      }
    }
  }

  /** The skills block: items between `Matching Skills:` and
      `Missing Skills:`, items after `Missing Skills:`, and the `N/40` score. */
  function SkillsOf(s: string, score: nat): SkillsMatching {
    var skills := SkillsSection(s);
    SkillsMatching(
      ExtractItems(skills, MatchingSkillsLabel, Some(MissingSkillsLabel)),
      ExtractItems(skills, MissingSkillsLabel, Some(SkillsEnds)),
      CategoryScore(skills, score, Category.Skills))
  }

  /** The experience block, scored out of 30. */
  function ExperienceOf(s: string, score: nat): ExperienceMatching {
    var experience := ExperienceSection(s);
    ExperienceMatching(
      ExtractItems(experience, RelevantExperienceLabel, Some(MissingExperienceLabel)),
      ExtractItems(experience, MissingExperienceLabel, Some(ExperienceEnds)),
      CategoryScore(experience, score, Category.Experience))
  }

  /** The education block, scored out of 20. */
  function EducationOf(s: string, score: nat): EducationMatching {
    var education := EducationSection(s);
    EducationMatching(
      ExtractItems(education, MatchingEducationLabel, Some(MissingEducationLabel)),
      ExtractItems(education, MissingEducationLabel, Some(EducationEnds)),
      CategoryScore(education, score, Category.Education))
  }

  /** The four recommendation lists, each cut off at the labels that may
      follow it. */
  function RecommendationsOf(s: string): Recommendations {
    var recommendations := RecommendationsSection(s);
    Recommendations(
      ExtractItems(recommendations, SkillsToAddLabel, Some(SkillsToAddEnds)),
      ExtractItems(recommendations, ExperienceToHighlightLabel, Some(ExperienceToHighlightEnds)),
      ExtractItems(recommendations, EducationToIncludeLabel, Some(EducationToIncludeEnds)),
      ExtractItems(recommendations, FormattingLabel, Some(FormattingEnds)))
  }

  /** `parseAnalysisText`: the overall score first, since the category
      scores fall back on it, then each block read from its own section. */
  function ParseAnalysis(s: string): ParsedAnalysis {
    var score := OverallScore(s);
    var summary := SummarySection(s);
    ParsedAnalysis(
      score,
      SkillsOf(s, score),
      ExperienceOf(s, score),
      EducationOf(s, score),
      RecommendationsOf(s),
      ExtractItems(summary, StrengthsLabel, Some(StrengthsEnds)),
      ExtractItems(summary, WeaknessesLabel, Some(OverallFitLabel)),
      OverallFit(summary))
  }

  /** No item of a list is the empty string. */
  predicate NoEmptyItems(items: seq<string>) {
    forall k :: 0 <= k < |items| ==> items[k] != ""
  }

  /** Every list of the parsed record is free of empty entries, so the final
      `filter` of `extractBulletPoints` never has anything to drop. */
  lemma ParsedListsHaveNoEmptyItems(s: string)
    ensures var a := ParseAnalysis(s);
      && NoEmptyItems(a.skillsMatching.matching) && NoEmptyItems(a.skillsMatching.missing)
      && NoEmptyItems(a.experienceMatching.relevant) && NoEmptyItems(a.experienceMatching.missing)
      && NoEmptyItems(a.educationMatching.matching) && NoEmptyItems(a.educationMatching.missing)
      && NoEmptyItems(a.recommendations.skillsToAdd) && NoEmptyItems(a.recommendations.experienceToHighlight)
      && NoEmptyItems(a.recommendations.educationToInclude) && NoEmptyItems(a.recommendations.formatting)
      && NoEmptyItems(a.strengths) && NoEmptyItems(a.weaknesses)
  {
    var score := OverallScore(s);
    var skills := SkillsSection(s);
    var experience := ExperienceSection(s);
    var education := EducationSection(s);
    var recommendations := RecommendationsSection(s);
    var summary := SummarySection(s);
    ExtractedItemsNonEmpty(skills, MatchingSkillsLabel, Some(MissingSkillsLabel));
    ExtractedItemsNonEmpty(skills, MissingSkillsLabel, Some(SkillsEnds));
    ExtractedItemsNonEmpty(experience, RelevantExperienceLabel, Some(MissingExperienceLabel));
    ExtractedItemsNonEmpty(experience, MissingExperienceLabel, Some(ExperienceEnds));
    ExtractedItemsNonEmpty(education, MatchingEducationLabel, Some(MissingEducationLabel));
    ExtractedItemsNonEmpty(education, MissingEducationLabel, Some(EducationEnds));
    ExtractedItemsNonEmpty(recommendations, SkillsToAddLabel, Some(SkillsToAddEnds));
    ExtractedItemsNonEmpty(recommendations, ExperienceToHighlightLabel, Some(ExperienceToHighlightEnds));
    ExtractedItemsNonEmpty(recommendations, EducationToIncludeLabel, Some(EducationToIncludeEnds));
    ExtractedItemsNonEmpty(recommendations, FormattingLabel, Some(FormattingEnds));
    ExtractedItemsNonEmpty(summary, StrengthsLabel, Some(StrengthsEnds));
    ExtractedItemsNonEmpty(summary, WeaknessesLabel, Some(OverallFitLabel));
  }

  /** Proof step: `ExtractItems`'s own contract, restated for one call. */
  lemma ExtractedItemsNonEmpty(text: string, start: Pattern, end: Option<Pattern>)
    ensures NoEmptyItems(ExtractItems(text, start, end))
  {
  }

  /** The empty text has no item lists: no start label fits in it. */
  lemma NoItemsInEmptyText(start: Pattern, end: Option<Pattern>)
    requires forall k :: 0 <= k < |start| ==> |start[k]| > 0
    ensures ExtractItems("", start, end) == []
  {
    assert Absent("", start);
  }

  /** The empty text has no explicit score, so the derived one is used. */
  lemma DerivedScoreForEmptySection(overall: nat, c: Category)
    ensures CategoryScore("", overall, c) == DerivedScore(overall, c.Max())
  {
    assert ScoreAt("", 0, Bare, c.Denominator()).None?;
  }

  /** Without a `Skills Matching` heading both skill lists are empty and the
      skills score is the overall score scaled to 40. */
  lemma MissingSkillsSection(s: string, score: nat)
    requires Absent(s, SkillsHeading)
    ensures SkillsOf(s, score) == SkillsMatching([], [], DerivedScore(score, 40))
  {
    assert SkillsSection(s) == "";
    NoItemsInEmptyText(MatchingSkillsLabel, Some(MissingSkillsLabel));
    NoItemsInEmptyText(MissingSkillsLabel, Some(SkillsEnds));
    DerivedScoreForEmptySection(score, Category.Skills);
  }

  /** Without an `Experience Matching` heading both experience lists are
      empty and the score is the overall score scaled to 30. */
  lemma MissingExperienceSection(s: string, score: nat)
    requires Absent(s, ExperienceHeading)
    ensures ExperienceOf(s, score) == ExperienceMatching([], [], DerivedScore(score, 30))
  {
    assert ExperienceSection(s) == "";
    NoItemsInEmptyText(RelevantExperienceLabel, Some(MissingExperienceLabel));
    NoItemsInEmptyText(MissingExperienceLabel, Some(ExperienceEnds));
    DerivedScoreForEmptySection(score, Category.Experience);
  }

  /** Without an `Education Matching` heading both education lists are
      empty and the score is the overall score scaled to 20. */
  lemma MissingEducationSection(s: string, score: nat)
    requires Absent(s, EducationHeading)
    ensures EducationOf(s, score) == EducationMatching([], [], DerivedScore(score, 20))
  {
    assert EducationSection(s) == "";
    NoItemsInEmptyText(MatchingEducationLabel, Some(MissingEducationLabel));
    NoItemsInEmptyText(MissingEducationLabel, Some(EducationEnds));
    DerivedScoreForEmptySection(score, Category.Education);
  }

  /** Without a `Recommendations:` heading all four recommendation lists are
      empty. */
  lemma MissingRecommendationsSection(s: string)
    requires Absent(s, RecommendationsHeading)
    ensures RecommendationsOf(s) == Recommendations([], [], [], [])
  {
    assert RecommendationsSection(s) == "";
    NoItemsInEmptyText(SkillsToAddLabel, Some(SkillsToAddEnds));
    NoItemsInEmptyText(ExperienceToHighlightLabel, Some(ExperienceToHighlightEnds));
    NoItemsInEmptyText(EducationToIncludeLabel, Some(EducationToIncludeEnds));
    NoItemsInEmptyText(FormattingLabel, Some(FormattingEnds));
  }

  /** Without a `Summary:` heading there are no strengths or weaknesses and
      the overall fit is empty. */
  lemma MissingSummarySection(s: string)
    requires Absent(s, SummaryHeading)
    ensures ParseAnalysis(s).strengths == [] && ParseAnalysis(s).weaknesses == []
    ensures ParseAnalysis(s).overallFit == ""
  {
    assert SummarySection(s) == "";
    NoItemsInEmptyText(StrengthsLabel, Some(StrengthsEnds));
    NoItemsInEmptyText(WeaknessesLabel, Some(OverallFitLabel));
    assert Absent("", OverallFitLabel);
  }

  /** A text with none of the five section headings parses to the overall
      score, empty lists, category scores derived from the overall score,
      and an empty overall fit. */
  lemma ParseWithoutSections(s: string)
    requires Absent(s, SkillsHeading) && Absent(s, ExperienceHeading) && Absent(s, EducationHeading)
    requires Absent(s, RecommendationsHeading) && Absent(s, SummaryHeading)
    ensures var score := OverallScore(s);
      ParseAnalysis(s) == ParsedAnalysis(
        score,
        SkillsMatching([], [], DerivedScore(score, 40)),
        ExperienceMatching([], [], DerivedScore(score, 30)),
        EducationMatching([], [], DerivedScore(score, 20)),
        Recommendations([], [], [], []),
        [], [], "")
  {
    var score := OverallScore(s);
    MissingSkillsSection(s, score);
    MissingExperienceSection(s, score);
    MissingEducationSection(s, score);
    MissingRecommendationsSection(s);
    MissingSummarySection(s);
  }
}
