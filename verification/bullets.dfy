/**
  `extractBulletPoints`: the line-by-line state machine that turns the text
  between a start label and an optional end label into a list of items.

  A trimmed line that starts with a `-`, `•` or `*` marker, or with `N.`,
  followed by whitespace opens a new item. Any other non-empty line that does
  not look like a label (`^[A-Z][^:]*:`) is appended, after one space, to the
  last item, when there is one; everything else is dropped. Empty items are
  filtered out at the end.

  The fold `Collect` is the source's loop; `ItemsOf` is an independent,
  per-bullet description of the same result, and `CollectIsItemsOf` proves
  the two agree.
 */
module Bullets {
  import opened Wrappers
  import opened Text
  import opened Search

  predicate IsMarker(c: char) {
    c == '-' || c == '\U{2022}' || c == '*'
  }

  /** `^[-•*]\s+` */
  predicate IsDashBullet(t: string) {
    |t| >= 2 && IsMarker(t[0]) && IsSpace(t[1])
  }

  /** `^\d+\.\s+` */
  predicate IsNumberBullet(t: string) {
    var e := DigitRunEnd(t, 0);
    0 < e && e + 1 < |t| && t[e] == '.' && IsSpace(t[e + 1])
  }

  predicate IsBullet(t: string) {
    IsDashBullet(t) || IsNumberBullet(t)
  }

  /** `.replace(/^[-•*]\s+/, "")` */
  function StripDash(t: string): string {
    if IsDashBullet(t) then t[SkipSpaces(t, 1)..] else t
  }

  /** `.replace(/^\d+\.\s+/, "")` */
  function StripNumber(t: string): string {
    if IsNumberBullet(t) then t[SkipSpaces(t, DigitRunEnd(t, 0) + 1)..] else t
  }

  /** The item a bullet line opens: the dash-style marker is stripped first,
      then a number marker, then the rest is trimmed. */
  function BulletText(t: string): string {
    Trim(StripNumber(StripDash(t)))
  }

  /** `^[A-Z][^:]*:` (case-sensitive): an upper-case ASCII letter followed,
      somewhere later on the line, by a colon. */
  predicate IsLabel(t: string) {
    |t| > 0 && 'A' <= t[0] <= 'Z' && ':' in t[1..]
  }

  /** One iteration of the source's loop over lines. */
  function Step(items: seq<string>, line: string): seq<string> {
    var t := Trim(line);
    if IsBullet(t) then items + [BulletText(t)]
    else if t != "" && !IsLabel(t) && |items| > 0 then items[..|items| - 1] + [items[|items| - 1] + " " + t]
    else items
  }

  /** The loop: `Step` folded over the lines, left to right. */
  function Collect(items: seq<string>, lines: seq<string>): seq<string>
    decreases |lines|
  {
    if |lines| == 0 then items else Collect(Step(items, lines[0]), lines[1..])
  }

  /** `items.filter((item) => item.length > 0)`: every non-empty item is
      kept as often as it occurs, and every empty one is dropped. */
  function KeepNonEmpty(items: seq<string>): (r: seq<string>)
    ensures forall k :: 0 <= k < |r| ==> r[k] != ""
    ensures multiset(r) == multiset(items)["" := 0]
    ensures |r| <= |items|
    ensures (forall k :: 0 <= k < |items| ==> items[k] != "") ==> r == items
  {
    if |items| == 0 then []
    else
      assert items == [items[0]] + items[1..];
      KeepOne(items[0]) + KeepNonEmpty(items[1..])
  }

  /** What the filter keeps of one item. */
  function KeepOne(item: string): seq<string> {
    if item != "" then [item] else []
  }

  /** The filter keeps the order of the items: filtering two lists one
      after the other is filtering their concatenation. */
  lemma {:induction false} KeepNonEmptyAppend(a: seq<string>, b: seq<string>)
    ensures KeepNonEmpty(a + b) == KeepNonEmpty(a) + KeepNonEmpty(b)
    decreases |a|
  {
    if |a| > 0 {
      KeepNonEmptyCons(a, b);
      KeepNonEmptyAppend(a[1..], b);
      Associative(KeepOne(a[0]), KeepNonEmpty(a[1..]), KeepNonEmpty(b));
    } else {
      assert a + b == b;
    }
  }

  lemma KeepNonEmptyCons(a: seq<string>, b: seq<string>)
    requires |a| > 0
    ensures KeepNonEmpty(a + b) == KeepOne(a[0]) + KeepNonEmpty(a[1..] + b)
  {
    assert (a + b)[0] == a[0] && (a + b)[1..] == a[1..] + b;
  }

  /** Proof step: concatenation of item lists is associative. */
  lemma Associative(x: seq<string>, y: seq<string>, z: seq<string>)
    ensures x + (y + z) == (x + y) + z
  {
  }

  /** What a non-bullet line adds to the item before it: the trimmed line
      after one space, or nothing when it is empty or looks like a label. */
  function Glue(line: string): string {
    var t := Trim(line);
    if !IsBullet(t) && t != "" && !IsLabel(t) then " " + t else ""
  }

  /** The continuation text of the lines before the next bullet line. */
  function Continuation(lines: seq<string>): string
    decreases |lines|
  {
    if |lines| == 0 || IsBullet(Trim(lines[0])) then "" else Glue(lines[0]) + Continuation(lines[1..])
  }

  /** Reference description of the result: one item per bullet line, in
      order, made of the bullet's text followed by the continuation lines
      up to the next bullet; lines before the first bullet are dropped. */
  function ItemsOf(lines: seq<string>): seq<string>
    decreases |lines|
  {
    if |lines| == 0 then []
    else if IsBullet(Trim(lines[0])) then [BulletText(Trim(lines[0])) + Continuation(lines[1..])] + ItemsOf(lines[1..])
    else ItemsOf(lines[1..])
  }

  /** The trimmed bullet lines, in order. */
  function BulletLines(lines: seq<string>): seq<string>
    decreases |lines|
  {
    if |lines| == 0 then []
    else if IsBullet(Trim(lines[0])) then [Trim(lines[0])] + BulletLines(lines[1..])
    else BulletLines(lines[1..])
  }

  /** A bullet line always opens a new item. */
  lemma StepOnBullet(acc: seq<string>, line: string)
    requires IsBullet(Trim(line))
    ensures Step(acc, line) == acc + [BulletText(Trim(line))]
  {
  }

  /** Any other line extends the last item by its glue, when there is one. */
  lemma StepOnOther(acc: seq<string>, line: string)
    requires |acc| > 0 && !IsBullet(Trim(line))
    ensures Step(acc, line) == acc[..|acc| - 1] + [acc[|acc| - 1] + Glue(line)]
  {
    var n := |acc|;
    var t := Trim(line);
    if Glue(line) != "" {
      assert acc[n - 1] + " " + t == acc[n - 1] + Glue(line);
    } else {
      assert acc[n - 1] + Glue(line) == acc[n - 1];
      assert acc[..n - 1] + [acc[n - 1]] == acc;
    }
  }

  /** Once an item exists, the loop extends the last item with the
      continuation text and appends the reference items of the rest. */
  lemma {:induction false} CollectAfterItem(acc: seq<string>, lines: seq<string>)
    requires |acc| > 0
    ensures Collect(acc, lines) == acc[..|acc| - 1] + [acc[|acc| - 1] + Continuation(lines)] + ItemsOf(lines)
    decreases |lines|, 1
  {
    var n := |acc|;
    if |lines| == 0 {
      assert acc[n - 1] + "" == acc[n - 1];
      assert acc[..n - 1] + [acc[n - 1]] == acc;
    } else if IsBullet(Trim(lines[0])) {
      CollectAfterItemBullet(acc, lines);
    } else {
      CollectAfterItemOther(acc, lines);
    }
  }

  lemma {:induction false} CollectAfterItemBullet(acc: seq<string>, lines: seq<string>)
    requires |acc| > 0 && |lines| > 0 && IsBullet(Trim(lines[0]))
    ensures Collect(acc, lines) == acc[..|acc| - 1] + [acc[|acc| - 1] + Continuation(lines)] + ItemsOf(lines)
    decreases |lines|, 0
  {
    var b := BulletText(Trim(lines[0]));
    StepOnBullet(acc, lines[0]);
    CollectAfterItem(acc + [b], lines[1..]);
    AppendThenExtend(acc, b, Continuation(lines[1..]), ItemsOf(lines[1..]));
  }

  lemma {:induction false} CollectAfterItemOther(acc: seq<string>, lines: seq<string>)
    requires |acc| > 0 && |lines| > 0 && !IsBullet(Trim(lines[0]))
    ensures Collect(acc, lines) == acc[..|acc| - 1] + [acc[|acc| - 1] + Continuation(lines)] + ItemsOf(lines)
    decreases |lines|, 0
  {
    var n := |acc|;
    var g := Glue(lines[0]);
    StepOnOther(acc, lines[0]);
    CollectAfterItem(acc[..n - 1] + [acc[n - 1] + g], lines[1..]);
    ExtendTwice(acc, g, Continuation(lines[1..]), ItemsOf(lines[1..]));
  }

  /** Sequence bookkeeping for the bullet case of `CollectAfterItem`. */
  lemma AppendThenExtend(acc: seq<string>, b: string, rest: string, tail: seq<string>)
    requires |acc| > 0
    ensures var next := acc + [b];
      next[..|next| - 1] + [next[|next| - 1] + rest] + tail == acc[..|acc| - 1] + [acc[|acc| - 1] + ""] + ([b + rest] + tail)
  {
    var n := |acc|;
    assert acc[n - 1] + "" == acc[n - 1];
    assert acc[..n - 1] + [acc[n - 1]] == acc;
  }

  /** Sequence bookkeeping for the continuation case of `CollectAfterItem`. */
  lemma ExtendTwice(acc: seq<string>, g: string, rest: string, tail: seq<string>)
    requires |acc| > 0
    ensures var n := |acc|; var next := acc[..n - 1] + [acc[n - 1] + g];
      next[..|next| - 1] + [next[|next| - 1] + rest] + tail == acc[..n - 1] + [acc[n - 1] + (g + rest)] + tail
  {
    var n := |acc|;
    var next := acc[..n - 1] + [acc[n - 1] + g];
    assert next[..n - 1] == acc[..n - 1];
    assert (acc[n - 1] + g) + rest == acc[n - 1] + (g + rest);
  }

  /** The source's loop computes the reference description. */
  lemma {:induction false} CollectIsItemsOf(lines: seq<string>)
    ensures Collect([], lines) == ItemsOf(lines)
    decreases |lines|
  {
    if |lines| > 0 {
      if IsBullet(Trim(lines[0])) {
        CollectFromBullet(lines);
      } else {
        assert Step([], lines[0]) == [];
        CollectIsItemsOf(lines[1..]);
      }
    }
  }

  /** The first bullet line opens the first item, and the loop continues as
      after any open item. */
  lemma CollectFromBullet(lines: seq<string>)
    requires |lines| > 0 && IsBullet(Trim(lines[0]))
    ensures Collect([], lines) == ItemsOf(lines)
  {
    FirstStepOnBullet(lines);
    CollectAfterOne(BulletText(Trim(lines[0])), lines[1..]);
    ItemsOfOnBullet(lines);
  }

  /** A bullet line contributes the first reference item. */
  lemma ItemsOfOnBullet(lines: seq<string>)
    requires |lines| > 0 && IsBullet(Trim(lines[0]))
    ensures ItemsOf(lines) == [BulletText(Trim(lines[0])) + Continuation(lines[1..])] + ItemsOf(lines[1..])
  {
  }

  /** With a single item open, the loop completes it with the continuation
      and appends the reference items of the rest. */
  lemma CollectAfterOne(b: string, lines: seq<string>)
    ensures Collect([b], lines) == [b + Continuation(lines)] + ItemsOf(lines)
  {
    CollectAfterItem([b], lines);
    assert [b][..0] == [] && [b][0] == b;
  }

  lemma FirstStepOnBullet(lines: seq<string>)
    requires |lines| > 0 && IsBullet(Trim(lines[0]))
    ensures Collect([], lines) == Collect([BulletText(Trim(lines[0]))], lines[1..])
  {
    var none: seq<string> := [];
    var b := BulletText(Trim(lines[0]));
    StepOnBullet(none, lines[0]);
    assert none + [b] == [b];
    CollectFromOne(lines, b);
  }

  /** A first step that opens one item leaves the fold of the rest. */
  lemma CollectFromOne(lines: seq<string>, b: string)
    requires |lines| > 0 && Step([], lines[0]) == [b]
    ensures Collect([], lines) == Collect([b], lines[1..])
  {
  }

  /** Stripping whitespace-led markers off a string that ends in a
      non-space keeps it non-empty and keeps that last character. */
  lemma StripKeepsLast(t: string)
    requires |t| > 0 && !IsSpace(t[|t| - 1])
    ensures |StripDash(t)| > 0 && StripDash(t)[|StripDash(t)| - 1] == t[|t| - 1]
    ensures |StripNumber(t)| > 0 && StripNumber(t)[|StripNumber(t)| - 1] == t[|t| - 1]
  {
    if IsDashBullet(t) {
      var k := SkipSpaces(t, 1);
    }
    if IsNumberBullet(t) {
      var k := SkipSpaces(t, DigitRunEnd(t, 0) + 1);
    }
  }

  /** Every bullet line yields a non-empty item. */
  lemma BulletTextNonEmpty(line: string)
    requires IsBullet(Trim(line))
    ensures BulletText(Trim(line)) != ""
  {
    var t := Trim(line);
    StripKeepsLast(t);
    var u := StripDash(t);
    StripKeepsLast(u);
    var w := StripNumber(u);
    assert !IsSpace(w[|w| - 1]);
  }

  /** A marker, whitespace, then text that does not start with whitespace
      is a dash bullet, and stripping its marker leaves exactly that text. */
  lemma StripDashOf(c: char, w: string, x: string)
    requires IsMarker(c) && |w| > 0 && AllSpace(w)
    requires x == "" || !IsSpace(x[0])
    ensures IsDashBullet([c] + w + x) && StripDash([c] + w + x) == x
  {
    var t := [c] + w + x;
    var e := 1 + |w|;
    assert t[1] == w[0];
    assert SpaceRun(t, 1, e) by {
      forall k | 1 <= k < e ensures IsSpace(t[k]) {
        assert t[k] == w[k - 1];
      }
    }
    assert e < |t| ==> t[e] == x[0];
    SkipSpacesStopsAt(t, 1, e);
    assert t[e..] == x;
  }

  /** Digits, a period, whitespace, then text that does not start with
      whitespace is a number bullet, and stripping its marker leaves exactly
      that text. */
  lemma StripNumberOf(d: string, w: string, x: string)
    requires |d| > 0 && AllDigits(d) && |w| > 0 && AllSpace(w)
    requires x == "" || !IsSpace(x[0])
    ensures IsNumberBullet(d + "." + w + x) && StripNumber(d + "." + w + x) == x
  {
    var t := d + "." + w + x;
    var n := |d|;
    var e := n + 1 + |w|;
    assert t[..n] == d;
    DigitRunOfSlice(t, 0, d);
    assert t[n] == '.';
    DigitRunEndsAt(t, 0, n);
    assert t[n + 1] == w[0];
    assert SpaceRun(t, n + 1, e) by {
      forall k | n + 1 <= k < e ensures IsSpace(t[k]) {
        assert t[k] == w[k - n - 1];
      }
    }
    assert e < |t| ==> t[e] == x[0];
    SkipSpacesStopsAt(t, n + 1, e);
    assert t[e..] == x;
  }

  /** A dash-style bullet line rebuilt from its item gives that item back:
      the marker and the whitespace after it are stripped, and a trimmed
      item that does not itself start like a number bullet is kept whole. */
  lemma DashItemRoundTrip(c: char, w: string, x: string)
    requires IsMarker(c) && |w| > 0 && AllSpace(w)
    requires Trimmed(x) && !IsNumberBullet(x)
    ensures IsBullet([c] + w + x) && BulletText([c] + w + x) == x
  {
    StripDashOf(c, w, x);
    TrimOfTrimmed(x);
  }

  /** A numbered bullet line `N.` rebuilt from its item gives that item
      back: the number, the period and the whitespace after it are stripped,
      and a trimmed item is kept whole. */
  lemma NumberItemRoundTrip(d: string, w: string, x: string)
    requires |d| > 0 && AllDigits(d) && |w| > 0 && AllSpace(w)
    requires Trimmed(x)
    ensures IsBullet(d + "." + w + x) && BulletText(d + "." + w + x) == x
  {
    var t := d + "." + w + x;
    assert t[0] == d[0];
    assert !IsDashBullet(t);
    StripNumberOf(d, w, x);
    TrimOfTrimmed(x);
  }

  /** The reference items are non-empty, one per bullet line, and each begins
      with the text of its own bullet line, in the order of the lines. */
  lemma {:induction false} ItemsOfShape(lines: seq<string>)
    ensures |ItemsOf(lines)| == |BulletLines(lines)|
    ensures forall k :: 0 <= k < |ItemsOf(lines)| ==>
      ItemsOf(lines)[k] != "" && BulletText(BulletLines(lines)[k]) <= ItemsOf(lines)[k]
    decreases |lines|
  {
    if |lines| > 0 {
      ItemsOfShape(lines[1..]);
      var t := Trim(lines[0]);
      if IsBullet(t) {
        BulletTextNonEmpty(lines[0]);
        var head := BulletText(t) + Continuation(lines[1..]);
        assert BulletText(t) <= head;
        var items := ItemsOf(lines);
        assert items == [head] + ItemsOf(lines[1..]);
        assert BulletLines(lines) == [t] + BulletLines(lines[1..]);
        forall k | 0 <= k < |items|
          ensures items[k] != "" && BulletText(BulletLines(lines)[k]) <= items[k]
        {
          if k > 0 {
            assert items[k] == ItemsOf(lines[1..])[k - 1];
            assert BulletLines(lines)[k] == BulletLines(lines[1..])[k - 1];
          }
        }
      }
    }
  }

  /** `extractBulletPoints(text, start, end)`: `[]` when the start label is
      absent; otherwise exactly the reference items of the lines of the
      region between the start label and the end label, so text outside that
      region contributes nothing. There is one item per bullet line, none is
      empty, and each begins with its bullet line's text. */
  function ExtractItems(text: string, start: Pattern, end: Option<Pattern>): (r: seq<string>)
    ensures ItemRegion(text, start, end).None? ==> r == []
    ensures ItemRegion(text, start, end).Some? ==>
      var sp := ItemRegion(text, start, end).value;
      var lines := Lines(text[sp.start..sp.end]);
      && r == ItemsOf(lines)
      && |r| == |BulletLines(lines)|
      && forall k :: 0 <= k < |r| ==> r[k] != "" && BulletText(BulletLines(lines)[k]) <= r[k]
  {
    match ItemRegion(text, start, end)
    case None => []
    case Some(sp) =>
      var lines := Lines(text[sp.start..sp.end]);
      CollectIsItemsOf(lines);
      ItemsOfShape(lines);
      KeepNonEmpty(Collect([], lines))
  }
}
