/**
  Leftmost search for a case-insensitive alternation of literals, and the two
  span shapes the parser cuts out of text with it: a lazy section
  (`Heading[\s\S]*?(?=T1|T2|...|$)`) and a bullet-list region (the text after a
  start label up to an optional end label).
 */
module Search {
  import opened Wrappers
  import opened Text

  /** An alternation of literals `A|B|C`, tried left to right at each position.
      An optional letter (`Skills?:`) is written as two alternatives, the longer
      first, which is the order a greedy `?` tries them in. */
  type Pattern = seq<string>

  /** A match: where it starts and how many characters it covers. */
  datatype Hit = Hit(at: nat, len: nat)

  /** A half-open range `[start, end)` of a text. */
  datatype Span = Span(start: nat, end: nat)

  /** Some alternative of `p` occurs at index `i`, ignoring case. */
  predicate Occurs(s: string, i: nat, p: Pattern) {
    exists k :: 0 <= k < |p| && StartsWithCi(s, i, p[k])
  }

  /** No alternative of `p` occurs anywhere in `s`. */
  predicate Absent(s: string, p: Pattern) {
    forall j :: 0 <= j <= |s| ==> !Occurs(s, j, p)
  }

  /** The length of the first alternative of `p` that occurs at `i`, if any. */
  function MatchAt(s: string, i: nat, p: Pattern): (r: Option<nat>)
    ensures r.Some? <==> Occurs(s, i, p)
    ensures r.Some? ==> i + r.value <= |s|
    ensures r.Some? ==> exists k :: 0 <= k < |p| && StartsWithCi(s, i, p[k]) && r.value == |p[k]|
                                      && forall m :: 0 <= m < k ==> !StartsWithCi(s, i, p[m])
    decreases |p|
  {
    if |p| == 0 then None
    else if StartsWithCi(s, i, p[0]) then Some(|p[0]|)
    else
      var r := MatchAt(s, i, p[1..]);
      assert Occurs(s, i, p) <==> Occurs(s, i, p[1..]) by {
        if Occurs(s, i, p) {
          var k :| 0 <= k < |p| && StartsWithCi(s, i, p[k]);
          assert k > 0 && p[1..][k - 1] == p[k];
        }
        if Occurs(s, i, p[1..]) {
          var k :| 0 <= k < |p[1..]| && StartsWithCi(s, i, p[1..][k]);
          assert p[k + 1] == p[1..][k];
        }
      }
      if r.Some? then
        var k :| 0 <= k < |p[1..]| && StartsWithCi(s, i, p[1..][k]) && r.value == |p[1..][k]|
                 && forall m :: 0 <= m < k ==> !StartsWithCi(s, i, p[1..][m]);
        assert p[k + 1] == p[1..][k];
        assert forall m :: 0 <= m < k + 1 ==> !StartsWithCi(s, i, p[m]) by {
          forall m | 0 <= m < k + 1 ensures !StartsWithCi(s, i, p[m]) {
            if m > 0 { assert p[m] == p[1..][m - 1]; }
          }
        }
        r
      else
        r
  }

  /** Leftmost match of `p` at or after `from`: what `String.prototype.match`
      reports for a pattern without the global flag. */
  function Find(s: string, p: Pattern, from: nat): (r: Option<Hit>)
    requires from <= |s|
    ensures r.Some? ==> from <= r.value.at <= |s| && MatchAt(s, r.value.at, p) == Some(r.value.len)
    ensures r.Some? ==> forall j :: from <= j < r.value.at ==> !Occurs(s, j, p)
    ensures r.None? ==> forall j :: from <= j <= |s| ==> !Occurs(s, j, p)
    decreases |s| - from
  {
    match MatchAt(s, from, p)
    case Some(len) => Some(Hit(from, len))
    case None => if from == |s| then None else Find(s, p, from + 1)
  }

  /** The span a lazy section pattern `Heading[\s\S]*?(?=T1|...|$)` matches:
      it begins at the first occurrence of the heading, which it includes, and
      ends at the earliest terminator occurring at or after the heading's end,
      or at the end of the text. */
  function SectionSpan(s: string, heading: Pattern, terminators: Pattern): (r: Option<Span>)
    ensures r.None? <==> Absent(s, heading)
    ensures r.Some? ==>
      var sp := r.value;
      && Occurs(s, sp.start, heading)
      && (forall j :: 0 <= j < sp.start ==> !Occurs(s, j, heading))
      && sp.start + MatchAt(s, sp.start, heading).value <= sp.end <= |s|
      && (sp.end == |s| || Occurs(s, sp.end, terminators))
      && forall j :: sp.start + MatchAt(s, sp.start, heading).value <= j < sp.end ==> !Occurs(s, j, terminators)
  {
    match Find(s, heading, 0)
    case None => None
    case Some(h) =>
      match Find(s, terminators, h.at + h.len)
      case None => Some(Span(h.at, |s|))
      case Some(t) => Some(Span(h.at, t.at))
  }

  /** The text of a lazy section match, `""` when the heading is absent
      (`s.match(re)?.[0] || ""`). */
  function Section(s: string, heading: Pattern, terminators: Pattern): string {
    match SectionSpan(s, heading, terminators)
    case None => ""
    case Some(sp) => s[sp.start..sp.end]
  }

  /** A section is `""` exactly when its heading is absent; otherwise it is
      the slice of the text its span names, and it begins with the heading. */
  lemma SectionIsSlice(s: string, heading: Pattern, terminators: Pattern)
    ensures SectionSpan(s, heading, terminators).None? ==> Section(s, heading, terminators) == ""
    ensures SectionSpan(s, heading, terminators).Some? ==>
      var sp := SectionSpan(s, heading, terminators).value;
      && Section(s, heading, terminators) == s[sp.start..sp.end]
      && Occurs(Section(s, heading, terminators), 0, heading)
  {
    if SectionSpan(s, heading, terminators).Some? {
      var sp := SectionSpan(s, heading, terminators).value;
      OccursInSlice(s, sp.start, sp.end, heading);
    }
  }

  /** A match survives cutting the text down to a slice that starts at the
      match and contains all of it. */
  lemma OccursInSlice(s: string, i: nat, e: nat, p: Pattern)
    requires i <= e <= |s| && MatchAt(s, i, p).Some? && i + MatchAt(s, i, p).value <= e
    ensures Occurs(s[i..e], 0, p)
  {
    var k :| 0 <= k < |p| && StartsWithCi(s, i, p[k]) && MatchAt(s, i, p).value == |p[k]|;
    PrefixOfSlice(p[k], s[i..], e - i);
    assert s[i..][..e - i] == s[i..e];
    assert s[i..e][0..] == s[i..e];
    assert StartsWithCi(s[i..e], 0, p[k]);
  }

  /** A case-insensitive prefix survives cutting the text anywhere after it. */
  lemma {:induction false} PrefixOfSlice(lit: string, t: string, n: nat)
    requires PrefixIgnoringCase(lit, t)
    requires |lit| <= n <= |t|
    ensures PrefixIgnoringCase(lit, t[..n])
    decreases |lit|
  {
    if |lit| > 0 {
      PrefixOfSlice(lit[1..], t[1..], n - 1);
      assert t[..n][1..] == t[1..][..n - 1];
    }
  }

  /** The region `extractBulletPoints` reads: from just after the first match
      of `start` to the first match of `end` after it (when `end` is given and
      found), else to the end of the text. Searching the remainder
      `text.substring(a)` for `end` finds the same matches as searching
      `text` from `a`, since a literal match only reads forward. */
  function ItemRegion(text: string, start: Pattern, end: Option<Pattern>): (r: Option<Span>)
    ensures r.None? <==> Absent(text, start)
    ensures r.Some? ==>
      var sp := r.value;
      && (exists i :: 0 <= i <= |text| && Occurs(text, i, start) && sp.start == i + MatchAt(text, i, start).value
                      && forall j :: 0 <= j < i ==> !Occurs(text, j, start))
      && sp.start <= sp.end <= |text|
      && (end.None? ==> sp.end == |text|)
      && (end.Some? ==> (sp.end == |text| || Occurs(text, sp.end, end.value))
                        && forall j :: sp.start <= j < sp.end ==> !Occurs(text, j, end.value))
  {
    match Find(text, start, 0)
    case None => None
    case Some(h) =>
      var a := h.at + h.len;
      if end.None? then Some(Span(a, |text|))
      else
        match Find(text, end.value, a)
        case None => Some(Span(a, |text|))
        case Some(t) => Some(Span(a, t.at))
  }
}
