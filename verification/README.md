# Analysis-text parser of the resume analysis page

The analysis page of Anora asks a language model to compare a resume with a
job description. It then turns the model's free-text answer into a structured
record with `parseAnalysisText`. The record holds:

- an overall score;
- three matching blocks (skills, experience, education), each with two item
  lists and a category score;
- four recommendation lists;
- strengths, weaknesses, and an overall-fit paragraph.

The parser is a chain of regular-expression searches. This project models
each of those searches as an explicit leftmost search in Dafny, and proves
what the record contains in terms of the input text.

- `Text` models the character classes and string helpers: `\s`, `\d`,
  case-insensitive literal comparison, `trim`, `split("\n")`, and
  `parseInt` of a digit run.
- `Search` models leftmost matching of a literal alternation, the lazy
  section patterns `Heading[\s\S]*?(?=T1|…|$)`, and the region between a
  start label and an optional end label.
- `Scores` models the overall score, with its three patterns tried in
  fallback order, and the category scores: an explicit `N/40`, `N/30` or
  `N/20` if there is one, else `Math.round` of the overall score times the
  category weight. It also models the score colour of `getScoreColor`.
- `Bullets` models `extractBulletPoints`. Its loop is a fold over the lines.
  `ItemsOf` is an independent reference description: one item per bullet
  line, followed by its continuation lines. The fold is proved equal to it.
- `Analysis` models the five sections, the item lists read from them, the
  overall fit, and the assembled `ParsedAnalysis` record.

Regular expressions are literal alternations (`Pattern`). `Skills?:` is the
two alternatives `Skills:` and `Skill:`, longer first. Case-insensitive
matching upper-cases ASCII letters. For ASCII patterns this is exactly what a
non-unicode `/i` regular expression compares.

`Math.round(score * 0.4)` (and `0.3`, `0.2`) is modelled on integers as
`(score * max + 50) / 100`, which rounds halves up. The floating-point
product differs from the exact product by far less than the distance to the
nearest rounding boundary. The only products that land on a half are for
weight `0.3`, where the floating-point result is exactly the half, so both
round the same way. This holds for overall scores far below 2^50.

Three behaviours of the code worth noting:

- The overall and category scores are not clamped. A text saying
  `Total Score: 250/100` yields 250 (`Scores.TotalScoreLine`), and `55/40`
  yields 55 (`Scores.ExplicitCategoryScore`). The model follows the code.
- The overall score field of the record is named `score`.
- `replace(/Overall Fit:\s*/i, "")` removes the first occurrence of the label
  anywhere in the matched text. `Analysis.StripFitLabel` models exactly that.
  The match always begins with the label, so that occurrence is the one at
  the start (`Analysis.StripLeadingFitLabel`).

## Model

| member | source | states |
|---|---|---|
| Scores.OverallScore | app/analyze/page.tsx:79-83 | The score is the number captured by the leftmost `Total Score: N/100` match. If there is none, it is the leftmost `Score: N/100`. If there is none, it is the leftmost bare `N/100`. Otherwise it is 0. |
| Scores.ScoreAt | app/analyze/page.tsx:79-82 | One score regex tried at one index. No contract of its own: `Scores.FirstScore` states the leftmost match, and `Scores.LabelledScoreAtStart` and `Scores.NumberAfterPrefix` state what it captures. |
| Scores.NumberAt | app/analyze/page.tsx:80-82 | `(\d+)` followed by the denominator. No contract of its own: `Scores.NumberAfterPrefix` states that it captures the whole digit run before the denominator. |
| Scores.NumberAfterPrefix | app/analyze/page.tsx:80-82 | Digits followed by the denominator, whatever precedes and follows them, are a number match capturing their decimal value. |
| Scores.FirstScore | app/analyze/page.tsx:79-82 | Leftmost match of a score pattern: a match at the reported index, none before it, and none at all when the result is absent. |
| Scores.TotalScoreLine | app/analyze/page.tsx:80-83 | A text opening with `Total Score: N/100` has overall score `N`, whatever follows it and for every digit string `N`, so there is no upper clamp. |
| Scores.LabelledScoreAtStart | app/analyze/page.tsx:80-81 | `Label N/D` at the start of a text, whatever follows it, is a labelled-pattern match capturing `N`: `\s*` stops at the digits and `\d+` stops at the denominator. |
| Scores.DerivedScore | app/analyze/page.tsx:128 | The derived score is the nearest integer to `overall * max / 100`, with halves rounded up. |
| Scores.CategoryScore | app/analyze/page.tsx:126-128 | A category score is the number of the first `N/max` token in its section. Without one, it is the overall score scaled to the maximum and rounded. |
| Scores.ExplicitCategoryScore | app/analyze/page.tsx:138-140 | A section opening with `N/max` scores `N`, whatever follows the token, whatever the overall score and however large `N` is. |
| Scores.ScoreColor | app/analyze/page.tsx:207-211 | `getScoreColor` returns the green classes exactly from 80 up, the yellow ones exactly from 60 to 79, and the red ones exactly below 60. |
| Scores.ScoreBand | app/analyze/page.tsx:207-211 | Green exactly from 80 up, yellow exactly from 60 to 79, red exactly below 60. |
| Scores.ScoreColorMonotone | app/analyze/page.tsx:207-211 | A higher score never gets a worse band, and two scores get the same classes exactly when they are in the same band. |
| Search.MatchAt | app/analyze/page.tsx:120 | An alternation matches at an index exactly when one of its alternatives occurs there. The length reported is that of the first alternative that occurs. |
| Search.Find | app/analyze/page.tsx:86 | `match` without the global flag reports the leftmost occurrence: one at the result, none before it, none anywhere when absent. |
| Search.SectionSpan | app/analyze/page.tsx:118-119 | A lazy section is absent exactly when its heading never occurs. Otherwise it starts at the first heading, ends at the first terminator after the heading or at the end of the text, and has no terminator in between. |
| Analysis.SkillsSection | app/analyze/page.tsx:118-119 | The `Skills Matching` section, cut at `Experience Matching`, `Education Matching`, `Scoring` or the end. No contract of its own: `Search.SectionIsSlice` and `Analysis.MissingSkillsSection` state it. |
| Analysis.ExperienceSection | app/analyze/page.tsx:130-131 | The `Experience Matching` section, cut at `Education Matching`, `Scoring`, `Recommendations` or the end. No contract of its own: `Search.SectionIsSlice` and `Analysis.MissingExperienceSection` state it. |
| Analysis.EducationSection | app/analyze/page.tsx:142-143 | The `Education Matching` section, cut at `Scoring`, `Recommendations`, `Summary` or the end. No contract of its own: `Search.SectionIsSlice` and `Analysis.MissingEducationSection` state it. |
| Analysis.RecommendationsSection | app/analyze/page.tsx:154 | The `Recommendations:` section, cut at `Summary`, `Create an` or the end. No contract of its own: `Search.SectionIsSlice` and `Analysis.MissingRecommendationsSection` state it. |
| Analysis.SummarySection | app/analyze/page.tsx:172 | The `Summary:` section, cut at `Create an` or the end. No contract of its own: `Search.SectionIsSlice` and `Analysis.MissingSummarySection` state it. |
| Analysis.SkillsOf | app/analyze/page.tsx:118-128 | The skills block: the lists between `Matching Skills:` and `Missing Skills:` and after `Missing Skills:`, and the `N/40` score. No contract of its own: `Analysis.MissingSkillsSection`, `Analysis.ParsedListsHaveNoEmptyItems` and `Scores.ExplicitCategoryScore` state it. |
| Analysis.ExperienceOf | app/analyze/page.tsx:130-140 | The experience block with its `N/30` score. No contract of its own: `Analysis.MissingExperienceSection`, `Analysis.ParsedListsHaveNoEmptyItems` and `Scores.ExplicitCategoryScore` state it. |
| Analysis.EducationOf | app/analyze/page.tsx:142-152 | The education block with its `N/20` score. No contract of its own: `Analysis.MissingEducationSection`, `Analysis.ParsedListsHaveNoEmptyItems` and `Scores.ExplicitCategoryScore` state it. |
| Analysis.RecommendationsOf | app/analyze/page.tsx:154-170 | The four recommendation lists, each cut at the labels that may follow it. No contract of its own: `Analysis.MissingRecommendationsSection` and `Analysis.ParsedListsHaveNoEmptyItems` state it. |
| Search.Section | app/analyze/page.tsx:118-119 | `s.match(re)?.[0] \|\| ""` for a lazy section pattern. No contract of its own: `Search.SectionIsSlice` and `Search.SectionSpan` state it. |
| Search.SectionIsSlice | app/analyze/page.tsx:130-131 | A section is `""` when its heading is absent. Otherwise it is the slice of the text named by its span, and it begins with its heading. |
| Search.ItemRegion | app/analyze/page.tsx:86-96 | The item region is absent exactly when the start label never occurs. Otherwise it starts right after the first start label. It ends at the first end label after that, or at the end of the text, with no end label inside it. |
| Bullets.ExtractItems | app/analyze/page.tsx:85-116 | No start label gives `[]`. Otherwise the result is exactly the reference items of the region's lines: one per bullet line, none empty, each beginning with its bullet line's text. |
| Bullets.IsBullet | app/analyze/page.tsx:103-104 | The bullet test on a trimmed line. No contract of its own: `Bullets.ItemsOfShape` and `Bullets.CollectIsItemsOf` state how bullet lines shape the result. |
| Bullets.BulletText | app/analyze/page.tsx:105-108 | The dash marker is stripped first, then a number marker, then the text is trimmed. No contract of its own: `Bullets.DashItemRoundTrip` and `Bullets.NumberItemRoundTrip` state that it gives back the item a bullet line was built from, and `Bullets.BulletTextNonEmpty` states it never yields `""`. |
| Bullets.StripDash | app/analyze/page.tsx:106 | `.replace(/^[-•*]\s+/, "")`. No contract of its own: `Bullets.StripDashOf` states it. |
| Bullets.StripNumber | app/analyze/page.tsx:107 | `.replace(/^\d+\.\s+/, "")`. No contract of its own: `Bullets.StripNumberOf` states it. |
| Bullets.StripDashOf | app/analyze/page.tsx:103-106 | A marker, then at least one whitespace character, then text not starting with whitespace is a dash bullet. Stripping removes exactly the marker and all of that whitespace, so `\s+` is greedy. |
| Bullets.StripNumberOf | app/analyze/page.tsx:103-107 | Digits, `.`, at least one whitespace character, then text not starting with whitespace is a number bullet. Stripping removes exactly the digits, the period and all of that whitespace. |
| Bullets.DashItemRoundTrip | app/analyze/page.tsx:103-108 | A line built as marker, whitespace and a trimmed item (one that does not itself open like `N. `) is a bullet, and its item is exactly that text. A second dash marker inside the item is kept, because the dash pattern is removed once. |
| Bullets.NumberItemRoundTrip | app/analyze/page.tsx:103-108 | A line built as `N.`, whitespace and any trimmed item is a bullet, and its item is exactly that text. |
| Bullets.IsLabel | app/analyze/page.tsx:110 | `^[A-Z][^:]*:` on a trimmed line. No contract of its own: `Bullets.StepOnOther` states that such lines are dropped. |
| Bullets.Step | app/analyze/page.tsx:101-113 | One iteration of the line loop. No contract of its own: `Bullets.StepOnOther` and `Bullets.CollectAfterItem` state its effect. |
| Bullets.Collect | app/analyze/page.tsx:98-113 | The line loop as a fold. No contract of its own: `Bullets.CollectIsItemsOf` states it equals the reference items. |
| Bullets.CollectIsItemsOf | app/analyze/page.tsx:98-113 | The source's line loop gives the same list as the per-bullet reference description. |
| Bullets.CollectAfterItem | app/analyze/page.tsx:101-113 | Once an item is open, the loop appends the continuation lines to it and then produces the reference items of the rest. |
| Bullets.StepOnOther | app/analyze/page.tsx:110-112 | Any other line changes only the last item, extending it by that line's glue. |
| Bullets.BulletTextNonEmpty | app/analyze/page.tsx:103-109 | Stripping a bullet marker from a trimmed bullet line never leaves an empty item. |
| Bullets.ItemsOfShape | app/analyze/page.tsx:99-115 | There are as many items as bullet lines. Each item is non-empty and begins with its bullet's text. |
| Bullets.KeepNonEmpty | app/analyze/page.tsx:115 | The filter keeps no empty item and keeps every non-empty item as often as it occurs (equal multisets once `""` is removed). It never grows the list, and it is the identity when no item is empty. |
| Bullets.KeepNonEmptyAppend | app/analyze/page.tsx:115 | The filter keeps order: filtering a concatenation is concatenating the filtered parts. |
| Text.Trim | app/analyze/page.tsx:102 | `String.prototype.trim`. No contract of its own: `Text.TrimShape` and `Text.TrimUnique` state it. |
| Text.TrimShape | app/analyze/page.tsx:102 | The trimmed string follows the leading whitespace and is followed only by whitespace. It neither starts nor ends with whitespace, and it is empty exactly when the string is all whitespace. |
| Text.TrimUnique | app/analyze/page.tsx:102 | Any split into leading whitespace, a middle without whitespace at either end, and trailing whitespace is the one trim makes. |
| Text.TrimSkip | app/analyze/page.tsx:176 | Trimming a suffix that starts anywhere inside a run of whitespace gives the same result as trimming from the start of that run. |
| Text.TrimAfterCut | app/analyze/page.tsx:176 | Cutting out a prefix and the whitespace after it, then trimming, is trimming what follows the prefix. |
| Text.Lines | app/analyze/page.tsx:98 | `split("\n")` gives at least one piece, no piece contains a newline, and joining the pieces with newlines gives the text back. |
| Text.LinesOfJoin | app/analyze/page.tsx:98 | Splitting newline-free lines joined with newlines gives the same lines back. |
| Text.DecimalValue | app/analyze/page.tsx:83 | `parseInt` of a digit string, as an exact base-10 value. No contract of its own: `Scores.TotalScoreLine` and `Scores.ExplicitCategoryScore` state that it is what a score captures. |
| Text.SkipSpacesStopsAt | app/analyze/page.tsx:80 | A greedy `\s*` stops exactly at the first non-space character. |
| Text.DigitRunEndsAt | app/analyze/page.tsx:82 | A greedy `\d+` stops exactly at the first non-digit. |
| Analysis.OverallFit | app/analyze/page.tsx:175-176 | `overallFit`. No contract of its own: `Analysis.OverallFitText` and `Analysis.OverallFitIsOneParagraph` state it. |
| Analysis.StripFitLabel | app/analyze/page.tsx:176 | `replace(/Overall Fit:\s*/i, "").trim()`. No contract of its own: `Analysis.StripLeadingFitLabel` states it for a match that begins with the label. |
| Analysis.OverallFitText | app/analyze/page.tsx:175-176 | Without an `Overall Fit:` span the fit is `""`. Otherwise it is the trimmed text between the label and the end of that span. |
| Analysis.FitSpanBounds | app/analyze/page.tsx:175 | The text after the label lies inside the span, and no `Create an` and no two consecutive newlines (`\n\n`) occur in it. |
| Analysis.StripLeadingFitLabel | app/analyze/page.tsx:176 | In a match that begins with the label, `replace` removes that label. Because `\s*` only removes whitespace that `trim` would remove anyway, the result is the trimmed text after the label. |
| Analysis.OverallFitIsOneParagraph | app/analyze/page.tsx:175-176 | The overall fit neither starts nor ends with whitespace, and it never contains two consecutive newlines (`\n\n`). A line holding only spaces or `\r` does not end the fit, because the terminator is the literal `\n\n`. |
| Analysis.NoBlankLineBetween | app/analyze/page.tsx:175-176 | Trimming a stretch with no `Create an` and no `\n\n` inside it gives a string with no whitespace at either end and no two consecutive newlines. |
| Analysis.ParseAnalysis | app/analyze/page.tsx:78-205 | `parseAnalysisText`. No contract of its own: `Analysis.ParsedListsHaveNoEmptyItems`, `Analysis.ParseWithoutSections` and the lemmas on its blocks state it. |
| Analysis.ParsedListsHaveNoEmptyItems | app/analyze/page.tsx:178-204 | None of the twelve lists of the parsed record contains an empty string. |
| Analysis.NoItemsInEmptyText | app/analyze/page.tsx:86-87 | A missing section yields no items, because no label fits in the empty text. |
| Analysis.DerivedScoreForEmptySection | app/analyze/page.tsx:150-152 | A missing section's category score is the derived one. |
| Analysis.MissingSkillsSection | app/analyze/page.tsx:118-128 | Without a `Skills Matching` heading both skill lists are empty, and the score is the overall score scaled to 40. |
| Analysis.MissingExperienceSection | app/analyze/page.tsx:130-140 | Without an `Experience Matching` heading both lists are empty, and the score is the overall score scaled to 30. |
| Analysis.MissingEducationSection | app/analyze/page.tsx:142-152 | Without an `Education Matching` heading both lists are empty, and the score is the overall score scaled to 20. |
| Analysis.MissingRecommendationsSection | app/analyze/page.tsx:154-170 | Without a `Recommendations:` heading all four recommendation lists are empty. |
| Analysis.MissingSummarySection | app/analyze/page.tsx:172-176 | Without a `Summary:` heading the strengths and weaknesses are empty and the overall fit is `""`. |
| Analysis.ParseWithoutSections | app/analyze/page.tsx:78-205 | A text with none of the five headings parses to its overall score, twelve empty lists, category scores derived from the overall score, and an empty overall fit. |

## Left out

- The page's React state, effects, fetch calls, JSX rendering and
  `getLlmDisplayName`: they are UI and I/O, not parsing.
- The API routes, the upload form and `parseResume`: they produce the text
  the parser reads and are not part of this model.
- Scores.DerivedScore: it is exact integer rounding. For overall scores near
  2^50 and above, the floating-point product can drift by more than half a
  unit, and that drift is not modelled.
- Scores.OverallScore: `parseInt` is modelled as exact, so digit strings above
  2^53 do not lose precision as JavaScript numbers do.
- Strings are sequences of Unicode scalar values rather than UTF-16 code
  units. Lone surrogates cannot be written. Indices differ for characters
  outside the Basic Multilingual Plane, but no result depends on them.
