/**
  Character classes and string helpers that stand in for the regular-expression
  building blocks the analysis parser uses: `\s`, `\d`, case-insensitive literal
  matching, `String.prototype.trim`, `split("\n")` and `Number.parseInt` on a
  run of decimal digits.
 */
module Text {

  /** JavaScript's WhiteSpace and LineTerminator code points: exactly the
      characters `\s` matches and `trim` removes. */
  predicate IsSpace(c: char) {
    || c == ' ' || c == '\t' || c == '\n' || c == '\U{B}' || c == '\U{C}' || c == '\r'
    || c == '\U{A0}' || c == '\U{1680}' || ('\U{2000}' <= c <= '\U{200A}')
    || c == '\U{2028}' || c == '\U{2029}' || c == '\U{202F}' || c == '\U{205F}'
    || c == '\U{3000}' || c == '\U{FEFF}'
  }

  /** `\d`: the ASCII decimal digits only. */
  predicate IsDigit(c: char) {
    '0' <= c <= '9'
  }

  predicate AllSpace(s: string) {
    forall j :: 0 <= j < |s| ==> IsSpace(s[j])
  }

  predicate AllDigits(s: string) {
    forall j :: 0 <= j < |s| ==> IsDigit(s[j])
  }

  /** ASCII upper-casing: the canonical form a case-insensitive, non-unicode
      regular expression compares when the pattern is plain ASCII. */
  function Upper(c: char): char {
    if 'a' <= c <= 'z' then (c as int - 32) as char else c
  }

  predicate EqualIgnoringCase(a: char, b: char) {
    Upper(a) == Upper(b)
  }

  /** `lit` is a case-insensitive prefix of `t`. */
  predicate PrefixIgnoringCase(lit: string, t: string)
    decreases |lit|
  {
    && |lit| <= |t|
    && (|lit| == 0 || (EqualIgnoringCase(lit[0], t[0]) && PrefixIgnoringCase(lit[1..], t[1..])))
  }

  /** The literal `lit` occurs, ignoring case, in `s` starting at index `i`. */
  predicate StartsWithCi(s: string, i: nat, lit: string) {
    i <= |s| && PrefixIgnoringCase(lit, s[i..])
  }

  /** The literal `lit` occurs exactly in `s` starting at index `i`. */
  predicate StartsAt(s: string, i: nat, lit: string) {
    i + |lit| <= |s| && s[i..i + |lit|] == lit
  }

  /** Every character of `s` in `[i, j)` is whitespace. */
  predicate SpaceRun(s: string, i: nat, j: nat) {
    j <= |s| && forall k :: i <= k < j ==> IsSpace(s[k])
  }

  /** Every character of `s` in `[i, j)` is a digit. */
  predicate DigitRun(s: string, i: nat, j: nat) {
    j <= |s| && forall k :: i <= k < j ==> IsDigit(s[k])
  }

  /** The characters of a digit run, cut out, are all digits. */
  lemma DigitsOfRun(s: string, i: nat, j: nat)
    requires i <= j && DigitRun(s, i, j)
    ensures AllDigits(s[i..j])
  {
    forall k | 0 <= k < j - i ensures IsDigit(s[i..j][k]) {
      assert s[i..j][k] == s[i + k];
    }
  }

  /** A run of digits cut out of `s` at `i` makes `[i, i + |d|)` a digit run. */
  lemma DigitRunOfSlice(s: string, i: nat, d: string)
    requires i + |d| <= |s| && s[i..i + |d|] == d && AllDigits(d)
    ensures DigitRun(s, i, i + |d|)
  {
    forall k | i <= k < i + |d| ensures IsDigit(s[k]) {
      assert s[k] == d[k - i];
    }
  }

  /** The index of the first non-space character at or after `i` (or `|s|`):
      where a greedy `\s*` starting at `i` stops. */
  function SkipSpaces(s: string, i: nat): (j: nat)
    requires i <= |s|
    ensures i <= j <= |s|
    ensures SpaceRun(s, i, j)
    ensures j == |s| || !IsSpace(s[j])
    decreases |s| - i
  {
    if i < |s| && IsSpace(s[i]) then SkipSpaces(s, i + 1) else i
  }

  /** The end of the maximal digit run starting at `i`: where a greedy `\d+`
      (or `\d*`) starting at `i` stops. */
  function DigitRunEnd(s: string, i: nat): (j: nat)
    requires i <= |s|
    ensures i <= j <= |s|
    ensures DigitRun(s, i, j)
    ensures j == |s| || !IsDigit(s[j])
    decreases |s| - i
  {
    if i < |s| && IsDigit(s[i]) then DigitRunEnd(s, i + 1) else i
  }

  /** `SkipSpaces` stops at the first non-space: any index with only
      whitespace before it and a non-space (or the end) at it is that stop. */
  lemma {:induction false} SkipSpacesStopsAt(s: string, i: nat, j: nat)
    requires i <= j && SpaceRun(s, i, j) && (j == |s| || !IsSpace(s[j]))
    ensures SkipSpaces(s, i) == j
    decreases j - i
  {
    if i < j {
      SkipSpacesStopsAt(s, i + 1, j);
    }
  }

  /** `DigitRunEnd` stops at the first non-digit. */
  lemma {:induction false} DigitRunEndsAt(s: string, i: nat, j: nat)
    requires i <= j && DigitRun(s, i, j) && (j == |s| || !IsDigit(s[j]))
    ensures DigitRunEnd(s, i) == j
    decreases j - i
  {
    if i < j {
      DigitRunEndsAt(s, i + 1, j);
    }
  }

  /** `SkipSpaces` never stops inside a run of whitespace. */
  lemma {:induction false} SkipPastSpaces(s: string, i: nat, y: nat)
    requires i <= y && SpaceRun(s, i, y)
    ensures y <= SkipSpaces(s, i)
    decreases y - i
  {
    if i < y {
      SkipPastSpaces(s, i + 1, y);
    }
  }

  /** A literal is a case-insensitive prefix of any string it is an exact
      prefix of. */
  lemma {:induction false} ExactPrefixIgnoringCase(lit: string, t: string)
    requires lit <= t
    ensures PrefixIgnoringCase(lit, t)
    decreases |lit|
  {
    if |lit| > 0 {
      ExactPrefixIgnoringCase(lit[1..], t[1..]);
    }
  }

  /** The end of `s[..hi]` once trailing whitespace is dropped, never before
      `lo`, when everything from `hi` on is whitespace already. */
  function TrailingStart(s: string, lo: nat, hi: nat): (j: nat)
    requires lo <= hi <= |s| && SpaceRun(s, hi, |s|)
    ensures lo <= j <= hi
    ensures SpaceRun(s, j, |s|)
    ensures j == lo || !IsSpace(s[j - 1])
    decreases hi
  {
    if hi > lo && IsSpace(s[hi - 1]) then TrailingStart(s, lo, hi - 1) else hi
  }

  /** `String.prototype.trim`: the string with leading and trailing
      whitespace removed. The result sits right after the leading whitespace,
      everything after it is whitespace, and it neither starts nor ends with
      whitespace, which pins it down uniquely. */
  function Trim(s: string): string {
    var a := SkipSpaces(s, 0);
    s[a..TrailingStart(s, a, |s|)]
  }

  /** What `Trim` leaves: the slice right after the leading whitespace,
      followed only by whitespace, neither starting nor ending with
      whitespace, and empty exactly when the string is all whitespace. These
      facts pin the result down (`TrimUnique`). */
  lemma TrimShape(s: string)
    ensures var r := Trim(s); var a := SkipSpaces(s, 0);
      && a + |r| <= |s| && r == s[a..a + |r|] && SpaceRun(s, a + |r|, |s|)
      && (r == "" || (!IsSpace(r[0]) && !IsSpace(r[|r| - 1])))
      && (r == "" <==> AllSpace(s))
  {
    var r := Trim(s);
    var a := SkipSpaces(s, 0);
    if r == "" {
      assert forall k :: 0 <= k < |s| ==> IsSpace(s[k]);
    }
  }

  /** Trimming is determined by its shape: any cut of `s` into leading
      whitespace, a middle that neither starts nor ends with whitespace, and
      trailing whitespace is the one `Trim` makes. */
  lemma TrimUnique(s: string, a: nat, b: nat)
    requires a <= b <= |s|
    requires SpaceRun(s, 0, a) && SpaceRun(s, b, |s|)
    requires a == b || (!IsSpace(s[a]) && !IsSpace(s[b - 1]))
    ensures Trim(s) == s[a..b]
  {
    if a < b {
      SkipSpacesStopsAt(s, 0, a);
      var r := Trim(s);
      assert r[|r| - 1] == s[a + |r| - 1];
    }
  }

  /** `s` neither starts nor ends with whitespace: what `trim` returns. */
  predicate Trimmed(s: string) {
    s == "" || (!IsSpace(s[0]) && !IsSpace(s[|s| - 1]))
  }

  /** Trimming a string that is already trimmed changes nothing. */
  lemma TrimOfTrimmed(s: string)
    requires Trimmed(s)
    ensures Trim(s) == s
  {
    TrimUnique(s, 0, |s|);
  }

  /** Skipping whitespace that follows index `i` before trimming the rest
      of `x` makes no difference. */
  lemma TrimSkip(x: string, i: nat, y: nat)
    requires i <= y && SpaceRun(x, i, y)
    ensures Trim(x[y..]) == Trim(x[i..])
  {
    var a := SkipSpaces(x, i);
    var b := TrailingStart(x, a, |x|);
    SkipPastSpaces(x, i, y);
    TrimOfSuffix(x, i, a, b);
    TrimOfSuffix(x, y, a, b);
  }

  /** Skipping the whitespace after a prefix of length `n` and then
      trimming is trimming what follows the prefix. */
  lemma TrimAfterCut(m: string, n: nat)
    requires n <= |m|
    ensures Trim(m[SkipSpaces(m, n)..]) == Trim(m[n..])
  {
    TrimSkip(m, n, SkipSpaces(m, n));
  }

  /** Proof step: cutting out an empty prefix leaves the rest as it is. */
  lemma CutAtStart(m: string, y: nat)
    requires y <= |m|
    ensures m[..0] + m[y..] == m[y..]
  {
  }

  /** A trim-shaped cut of `t` is the trimmed form of any suffix of `t`
      that starts inside the leading whitespace. */
  lemma TrimOfSuffix(t: string, y: nat, a: nat, b: nat)
    requires y <= a <= b <= |t| && SpaceRun(t, y, a) && SpaceRun(t, b, |t|)
    requires a == b || (!IsSpace(t[a]) && !IsSpace(t[b - 1]))
    ensures Trim(t[y..]) == t[a..b]
  {
    var u := t[y..];
    RunOfSuffix(t, y, y, a);
    RunOfSuffix(t, y, b, |t|);
    SliceOfSuffix(t, y, a, b);
    TrimUnique(u, a - y, b - y);
  }

  lemma SliceOfSuffix(t: string, y: nat, i: nat, j: nat)
    requires y <= i <= j <= |t|
    ensures t[y..][i - y..j - y] == t[i..j]
    ensures i < j ==> t[y..][i - y] == t[i] && t[y..][j - y - 1] == t[j - 1]
  {
  }

  /** A run of whitespace is still one after cutting off a prefix before it. */
  lemma RunOfSuffix(t: string, y: nat, i: nat, j: nat)
    requires y <= i <= j && SpaceRun(t, i, j)
    ensures SpaceRun(t[y..], i - y, j - y)
  {
    forall k | i - y <= k < j - y ensures IsSpace(t[y..][k]) {
      assert t[y..][k] == t[y + k];
    }
  }

  /** Where a character of a trimmed slice sits in the whole string. */
  lemma TrimOfSliceAt(s: string, lo: nat, hi: nat, q: nat)
    requires lo <= hi <= |s| && q < |Trim(s[lo..hi])|
    ensures lo + SkipSpaces(s[lo..hi], 0) + q < hi
    ensures s[lo + SkipSpaces(s[lo..hi], 0) + q] == Trim(s[lo..hi])[q]
  {
    var t := s[lo..hi];
    var a := SkipSpaces(t, 0);
    TrimShape(t);
    assert Trim(t)[q] == t[a + q];
  }

  /** `split("\n")`: the pieces between newline characters, always at least
      one (the empty string splits into one empty line). */
  function Lines(s: string): (r: seq<string>)
    ensures |r| >= 1
    ensures forall k :: 0 <= k < |r| ==> '\n' !in r[k]
    ensures JoinLines(r) == s
  {
    if |s| == 0 then [""]
    else
      var rest := Lines(s[1..]);
      if s[0] == '\n' then
        [""] + rest
      else
        assert JoinLines(rest) == s[1..];
        var r := [[s[0]] + rest[0]] + rest[1..];
        assert r[1..] == rest[1..];
        r
  }

  /** `join("\n")`, the inverse of `Lines`. */
  function JoinLines(lines: seq<string>): string
    requires |lines| >= 1
  {
    if |lines| == 1 then lines[0] else lines[0] + "\n" + JoinLines(lines[1..])
  }

  /** Splitting a joined list of newline-free lines gives the list back. */
  lemma {:induction false} LinesOfJoin(lines: seq<string>)
    requires |lines| >= 1
    requires forall k :: 0 <= k < |lines| ==> '\n' !in lines[k]
    ensures Lines(JoinLines(lines)) == lines
    decreases |lines|, |lines[0]|
  {
    if |lines| == 1 {
      LinesOfNewlineFree(lines[0]);
    } else if |lines[0]| == 0 {
      var tail := JoinLines(lines[1..]);
      assert JoinLines(lines) == "\n" + tail;
      assert ("\n" + tail)[1..] == tail;
      LinesOfJoin(lines[1..]);
      assert lines == [""] + lines[1..];
    } else {
      var c := lines[0][0];
      var shorter := [lines[0][1..]] + lines[1..];
      assert '\n' !in shorter[0];
      assert forall k :: 1 <= k < |shorter| ==> shorter[k] == lines[k];
      LinesOfJoin(shorter);
      JoinFirstChar(lines);
      LinesOfCons(c, JoinLines(shorter));
      assert [c] + shorter[0] == lines[0];
      assert [[c] + shorter[0]] + shorter[1..] == lines;
    }
  }

  /** The first character of a non-empty first line leads the joined text. */
  lemma JoinFirstChar(lines: seq<string>)
    requires |lines| >= 2 && |lines[0]| > 0
    ensures JoinLines(lines) == [lines[0][0]] + JoinLines([lines[0][1..]] + lines[1..])
  {
    var shorter := [lines[0][1..]] + lines[1..];
    TailOfCons(lines[0][1..], lines[1..]);
    SplitFirstChar(lines[0], JoinLines(lines[1..]));
  }

  lemma TailOfCons(x: string, rest: seq<string>)
    ensures ([x] + rest)[1..] == rest && ([x] + rest)[0] == x
  {
  }

  lemma SplitFirstChar(x: string, rest: string)
    requires |x| > 0
    ensures x + "\n" + rest == [x[0]] + (x[1..] + "\n" + rest)
  {
    assert x == [x[0]] + x[1..];
  }

  /** A leading non-newline character belongs to the first line. */
  lemma LinesOfCons(c: char, rest: string)
    requires c != '\n'
    ensures Lines([c] + rest) == [[c] + Lines(rest)[0]] + Lines(rest)[1..]
  {
    assert ([c] + rest)[1..] == rest;
  }

  /** A string with no newline is one line. */
  lemma {:induction false} LinesOfNewlineFree(s: string)
    requires '\n' !in s
    ensures Lines(s) == [s]
    decreases |s|
  {
    if |s| > 0 {
      assert '\n' !in s[1..];
      LinesOfNewlineFree(s[1..]);
      assert [s[0]] + s[1..] == s;
    }
  }

  function DigitValue(c: char): nat
    requires IsDigit(c)
  {
    c as int - '0' as int
  }

  /** `Number.parseInt` of a run of decimal digits (no overflow). */
  function DecimalValue(d: string): nat
    requires AllDigits(d)
    decreases |d|
  {
    if |d| == 0 then 0 else DecimalValue(d[..|d| - 1]) * 10 + DigitValue(d[|d| - 1])
  }
}
