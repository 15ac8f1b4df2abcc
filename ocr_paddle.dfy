/**
 * The older OCR engine wrapper: Russian text normalisation with its digit
 * heuristic, and the ordering, line merging and filtering of the recognised
 * tokens. The recogniser itself is an input: its page result is given as a
 * sequence of polygons with text and score.
 */
module OcrPaddle {
  import opened Text
  import opened Seqs
  import opened Sorting
  import opened ImageTools
  import PostOcrCorrector

  // ------------------------------------------------------------ _keep_allowed

  /** ALLOWED: the Russian alphabet, the digits and a little punctuation. */
  predicate Allowed(c: char) {
    || ('\U{0410}' <= c <= '\U{044F}')
    || c == '\U{0401}' || c == '\U{0451}'
    || IsDigit(c)
    || c in {' ', '-', '.', ',', ':', ';', '(', ')', '/', '%', '\U{2116}', '"', '\U{00AB}', '\U{00BB}'}
  }

  /** `_keep_allowed`: the allowed characters of `s`, in order. */
  function KeepAllowed(s: string): (r: string)
    ensures forall i :: 0 <= i < |r| ==> Allowed(r[i])
    ensures |r| <= |s|
  {
    if s == [] then s
    else (if Allowed(s[0]) then [s[0]] else []) + KeepAllowed(s[1..])
  }

  /** `a` can be obtained from `b` by deleting characters. */
  predicate IsSubsequence(a: string, b: string)
    decreases |b|
  {
    if a == [] then true
    else if b == [] then false
    else (a[0] == b[0] && IsSubsequence(a[1..], b[1..])) || IsSubsequence(a, b[1..])
  }

  lemma {:induction false} KeepAllowedIsSubsequence(s: string)
    ensures IsSubsequence(KeepAllowed(s), s)
  {
    if s != [] {
      KeepAllowedIsSubsequence(s[1..]);
      var r := KeepAllowed(s);
      if Allowed(s[0]) {
        assert r[0] == s[0] && r[1..] == KeepAllowed(s[1..]);
      } else {
        assert r == KeepAllowed(s[1..]);
      }
    }
  }

  /** Filtering splits over concatenation. */
  lemma {:induction false} KeepAllowedAppend(a: string, b: string)
    ensures KeepAllowed(a + b) == KeepAllowed(a) + KeepAllowed(b)
  {
    if a == [] {
      assert a + b == b;
    } else {
      assert (a + b)[0] == a[0] && (a + b)[1..] == a[1..] + b;
      KeepAllowedAppend(a[1..], b);
    }
  }

  /** A text made only of allowed characters is returned unchanged. */
  lemma {:induction false} KeepAllowedOfAllowed(s: string)
    requires forall i :: 0 <= i < |s| ==> Allowed(s[i])
    ensures KeepAllowed(s) == s
  {
    if s != [] {
      KeepAllowedOfAllowed(s[1..]);
      assert s == [s[0]] + s[1..];
    }
  }

  // --------------------------------------------------------- _smart_digit_fix

  /** DIGIT_CONFUSIONS: zero to Cyrillic O, one to the Ukrainian I. */
  const DigitConfusions: map<char, char> := map['0' := '\U{041E}', '1' := '\U{0406}']

  /** What position `i` becomes, given its left neighbour as already rewritten and its right neighbour as in the input. */
  function FixedChar(left: char, c: char, right: char): char {
    if c in DigitConfusions && (IsAlpha(left) || IsAlpha(right)) then DigitConfusions[c] else c
  }

  /** The left neighbour the loop sees at position `i`: the rewritten character, or a space at the start. */
  function LeftOf(r: string, i: nat): char
    requires i <= |r|
  {
    if i > 0 then r[i - 1] else ' '
  }

  /** The right neighbour the loop sees at position `i`: the original character, or a space at the end. */
  function RightOf(text: string, i: nat): char {
    if i + 1 < |text| then text[i + 1] else ' '
  }

  /** The first `n` characters after the left-to-right pass of `_smart_digit_fix`. */
  function DigitFixPrefix(text: string, n: nat): (r: string)
    requires n <= |text|
    ensures |r| == n
  {
    if n == 0 then []
    else
      var p := DigitFixPrefix(text, n - 1);
      p + [FixedChar(LeftOf(p, n - 1), text[n - 1], RightOf(text, n - 1))]
  }

  /** `_smart_digit_fix(text)`. */
  function DigitFixed(text: string): string {
    DigitFixPrefix(text, |text|)
  }

  /** Every position is rewritten from its rewritten left neighbour and its original right neighbour. */
  lemma {:induction false} DigitFixPrefixAt(text: string, n: nat)
    requires n <= |text|
    ensures forall i :: 0 <= i < n ==> DigitFixPrefix(text, n)[i] == FixedChar(LeftOf(DigitFixPrefix(text, n), i), text[i], RightOf(text, i))
  {
    if n > 0 {
      DigitFixPrefixAt(text, n - 1);
      var p := DigitFixPrefix(text, n - 1);
      var r := DigitFixPrefix(text, n);
      var c := FixedChar(LeftOf(p, n - 1), text[n - 1], RightOf(text, n - 1));
      assert r == p + [c];
      forall i | 0 <= i < n
        ensures r[i] == FixedChar(LeftOf(r, i), text[i], RightOf(text, i))
      {
        assert LeftOf(r, i) == LeftOf(p, i);
        if i < n - 1 {
          assert r[i] == p[i];
        } else {
          assert r[i] == c;
        }
      }
    }
  }

  /**
   * `_smart_digit_fix` keeps the length and only turns '0' into 'О' and '1'
   * into 'І'; a digit is rewritten exactly when its left neighbour, as already
   * rewritten, or its right neighbour, as in the input, is a letter.
   */
  lemma DigitFixedSpec(text: string)
    ensures |DigitFixed(text)| == |text|
    ensures forall i :: 0 <= i < |text| ==> var r := DigitFixed(text);
      r[i] == FixedChar(LeftOf(r, i), text[i], RightOf(text, i))
    ensures forall i :: 0 <= i < |text| ==> var r := DigitFixed(text);
      r[i] == text[i] || (text[i] == '0' && r[i] == '\U{041E}') || (text[i] == '1' && r[i] == '\U{0406}')
  {
    DigitFixPrefixAt(text, |text|);
  }

  /** With no letter in the text no digit has a letter beside it, so nothing changes. */
  lemma {:induction false} DigitFixPrefixWithoutLetters(text: string, n: nat)
    requires n <= |text|
    requires forall i :: 0 <= i < |text| ==> !IsAlpha(text[i])
    ensures DigitFixPrefix(text, n) == text[..n]
  {
    if n > 0 {
      DigitFixPrefixWithoutLetters(text, n - 1);
      assert text[..n] == text[..n - 1] + [text[n - 1]];
    }
  }

  lemma DigitFixedWithoutLetters(text: string)
    requires forall i :: 0 <= i < |text| ==> !IsAlpha(text[i])
    ensures DigitFixed(text) == text
  {
    DigitFixPrefixWithoutLetters(text, |text|);
  }

  /** The rewritten 'І' makes the next '0' a letter's neighbour: "А10" becomes "АІО". */
  lemma DigitFixCascades()
    ensures DigitFixed("\U{0410}10") == "\U{0410}\U{0406}\U{041E}"
  {
    var t := "\U{0410}10";
    assert DigitFixPrefix(t, 1) == "\U{0410}";
    assert DigitFixPrefix(t, 2) == "\U{0410}\U{0406}";
  }

  /**
   * The right neighbour is read before it is rewritten, so the pass is not
   * idempotent: "01А" becomes "0ІА", and a second pass turns that into "ОІА".
   */
  lemma DigitFixNotIdempotent()
    ensures DigitFixed("01\U{0410}") == "0\U{0406}\U{0410}"
    ensures DigitFixed("0\U{0406}\U{0410}") == "\U{041E}\U{0406}\U{0410}"
  {
    var t := "01\U{0410}";
    assert DigitFixPrefix(t, 1) == "0";
    assert DigitFixPrefix(t, 2) == "0\U{0406}";
    var u := "0\U{0406}\U{0410}";
    assert DigitFixPrefix(u, 1) == "\U{041E}";
    assert DigitFixPrefix(u, 2) == "\U{041E}\U{0406}";
  }

  /** The in-place loop of `_smart_digit_fix` over the list of characters. */
  method SmartDigitFix(text: string) returns (r: string)
    ensures r == DigitFixed(text)
  {
    var chars := new char[|text|](i requires 0 <= i < |text| => text[i]);
    for i := 0 to chars.Length
      invariant chars[..i] == DigitFixPrefix(text, i)
      invariant forall j :: i <= j < chars.Length ==> chars[j] == text[j]
    {
      ghost var p := chars[..i];
      var ch := chars[i];
      if ch in DigitConfusions {
        var left := if i > 0 then chars[i - 1] else ' ';
        var right := if i + 1 < chars.Length then chars[i + 1] else ' ';
        assert left == LeftOf(p, i);
        assert right == RightOf(text, i);
        if IsAlpha(left) || IsAlpha(right) {
          chars[i] := DigitConfusions[ch];
        }
      }
      assert chars[..i + 1] == p + [chars[i]];
    }
    r := chars[..];
  }

  // ------------------------------------------------------------- normalize_ru

  predicate IsLongDash(c: char) { c == '\U{2013}' || c == '\U{2014}' }

  function DashToHyphen(c: char): char { if IsLongDash(c) then '-' else c }

  /** The two `replace` calls: en and em dashes become '-'. */
  function ReplaceLongDashes(s: string): (r: string)
    ensures |r| == |s|
    ensures forall i :: 0 <= i < |s| ==> r[i] == DashToHyphen(s[i])
  {
    seq(|s|, i requires 0 <= i < |s| => DashToHyphen(s[i]))
  }

  predicate NoLongDash(s: string) { forall i :: 0 <= i < |s| ==> !IsLongDash(s[i]) }

  lemma CollapseKeepsNoLongDash(x: string)
    requires NoLongDash(x)
    ensures NoLongDash(CollapseWhitespace(x))
  {
    var r := CollapseWhitespace(x);
    CollapseKeepsNonSpace(x);
    forall i | 0 <= i < |r| ensures !IsLongDash(r[i]) {
      var c := r[i];
      if IsLongDash(c) {
        PostOcrCorrector.DashIsNotSpace(c);
        PostOcrCorrector.InNonSpace(r, c);
        PostOcrCorrector.InNonSpace(x, c);
      }
    }
  }

  /**
   * `normalize_ru`: an empty text is returned as is; otherwise the output has
   * no en or em dash, no leading, trailing or repeated whitespace, and only
   * single spaces between words.
   */
  function NormalizeRu(text: string): (r: string)
    ensures text == [] ==> r == []
    ensures Collapsed(r)
    ensures NoLongDash(r)
  {
    if text == [] then text
    else
      var t := ReplaceLongDashes(DigitFixed(PostOcrCorrector.Translate(text)));
      CollapseIsCollapsed(t);
      CollapseKeepsNoLongDash(t);
      CollapseWhitespace(t)
  }

  /** The words of the output are those of the translated, digit-fixed, dash-replaced text. */
  lemma NormalizeRuKeepsNonSpace(text: string)
    requires text != []
    ensures NonSpace(NormalizeRu(text)) == NonSpace(ReplaceLongDashes(DigitFixed(PostOcrCorrector.Translate(text))))
  {
    CollapseKeepsNonSpace(ReplaceLongDashes(DigitFixed(PostOcrCorrector.Translate(text))));
  }

  // ------------------------------------------------------------ _poly_to_ltrb

  datatype Pt = Pt(x: real, y: real)

  function Xs(poly: seq<Pt>): seq<real> { seq(|poly|, i requires 0 <= i < |poly| => poly[i].x) }
  function Ys(poly: seq<Pt>): seq<real> { seq(|poly|, i requires 0 <= i < |poly| => poly[i].y) }

  /** `int()` of a real is monotone, so it commutes with min and max. */
  lemma TruncMonotone(a: real, b: real)
    requires a <= b
    ensures Trunc(a) <= Trunc(b)
  {
  }

  /**
   * `_poly_to_ltrb`: the truncated extremes of the polygon. Every vertex,
   * truncated, lies inside the box, and each side is reached by a vertex.
   */
  function PolyToLtrb(poly: seq<Pt>): (b: Box)
    requires |poly| > 0
    ensures forall i :: 0 <= i < |poly| ==> b.l <= Trunc(poly[i].x) <= b.r && b.t <= Trunc(poly[i].y) <= b.b
    ensures exists i :: 0 <= i < |poly| && Trunc(poly[i].x) == b.l
    ensures exists i :: 0 <= i < |poly| && Trunc(poly[i].x) == b.r
    ensures exists i :: 0 <= i < |poly| && Trunc(poly[i].y) == b.t
    ensures exists i :: 0 <= i < |poly| && Trunc(poly[i].y) == b.b
  {
    var xs, ys := Xs(poly), Ys(poly);
    var b := Box(Trunc(MinOf(xs)), Trunc(MinOf(ys)), Trunc(MaxOf(xs)), Trunc(MaxOf(ys)));
    forall i | 0 <= i < |poly|
      ensures b.l <= Trunc(poly[i].x) <= b.r && b.t <= Trunc(poly[i].y) <= b.b
    {
      assert xs[i] == poly[i].x && ys[i] == poly[i].y;
      TruncMonotone(MinOf(xs), xs[i]);
      TruncMonotone(xs[i], MaxOf(xs));
      TruncMonotone(MinOf(ys), ys[i]);
      TruncMonotone(ys[i], MaxOf(ys));
    }
    b
  }

  // --------------------------------------------------------------- OCRItem

  datatype OcrItem = OcrItem(text: string, bbox: Option<Box>, conf: real)

  // ------------------------------------------------------------- _sort_boxes

  /** The sort key stands in for the missing coordinates of a box-less item. */
  const Missing: int := 999999

  function BoxKey(it: OcrItem): Key {
    Key(if it.bbox.None? then Missing as real else it.bbox.value.t as real,
        if it.bbox.None? then Missing as real else it.bbox.value.l as real)
  }

  /** `_sort_boxes`: Python's stable sort by (top, left). */
  function SortBoxes(items: seq<OcrItem>): (r: seq<OcrItem>)
    ensures multiset(r) == multiset(items)
  {
    SortBy(items, BoxKey)
  }

  /**
   * The result is ordered by (top, left), is a permutation of the input, and
   * keeps the input order among items with the same key.
   */
  lemma SortBoxesSpec(items: seq<OcrItem>)
    ensures SortedBy(SortBoxes(items), BoxKey)
    ensures multiset(SortBoxes(items)) == multiset(items)
    ensures forall k :: WithKey(SortBoxes(items), BoxKey, k) == WithKey(items, BoxKey, k)
  {
    SortBySorted(items, BoxKey);
    forall k ensures WithKey(SortBoxes(items), BoxKey, k) == WithKey(items, BoxKey, k) {
      SortByStable(items, BoxKey, k);
    }
  }

  /** Items without a box come after every item whose box starts above row 999999. */
  lemma SortBoxesBoxlessLast(items: seq<OcrItem>)
    requires forall i :: 0 <= i < |items| && items[i].bbox.Some? ==> items[i].bbox.value.t < Missing
    ensures forall i, j :: 0 <= i < j < |SortBoxes(items)| && SortBoxes(items)[i].bbox.None? ==> SortBoxes(items)[j].bbox.None?
  {
    var r := SortBoxes(items);
    SortBySorted(items, BoxKey);
    forall j | 0 <= j < |r| && r[j].bbox.Some? ensures r[j].bbox.value.t < Missing {
      assert r[j] in multiset(items);
      var k :| 0 <= k < |items| && items[k] == r[j];
    }
    forall i, j | 0 <= i < j < |r| && r[i].bbox.None? ensures r[j].bbox.None? {
      assert KeyLe(BoxKey(r[i]), BoxKey(r[j]));
    }
  }

  // -------------------------------------------------- _merge_tokens_to_lines

  function Abs(a: int): nat { if a >= 0 then a else -a }

  /** `y_center`: the middle row of the box, rounded down, or 0 without a box. */
  function YCenter(it: OcrItem): int {
    if it.bbox.None? then 0 else (it.bbox.value.t + it.bbox.value.b) / 2
  }

  /** A new line starts before `b` iff its centre is more than `yTol` rows from the previous token's. */
  function Apart(yTol: int): (OcrItem, OcrItem) -> bool {
    (a: OcrItem, b: OcrItem) => Abs(YCenter(b) - YCenter(a)) > yTol
  }

  lemma ApartIff(yTol: int, a: OcrItem, b: OcrItem)
    ensures Apart(yTol)(a, b) <==> Abs(YCenter(b) - YCenter(a)) > yTol
  {
  }

  /** The groups of `_merge_tokens_to_lines`. */
  function LineGroups(items: seq<OcrItem>, yTol: int): seq<seq<OcrItem>> {
    SplitWhen(items, Apart(yTol))
  }

  /** The member texts kept for a line: normalised, and only the non-empty ones. */
  function LineTexts(line: seq<OcrItem>): (ts: seq<string>)
    ensures forall i :: 0 <= i < |ts| ==> ts[i] != [] && Collapsed(ts[i]) && NoLongDash(ts[i])
  {
    if line == [] then []
    else
      var n := NormalizeRu(line[0].text);
      (if line[0].text != [] && n != [] then [n] else []) + LineTexts(line[1..])
  }

  /** The boxes of the members that have one, in order. */
  function Boxes(line: seq<OcrItem>): seq<Box> {
    if line == [] then []
    else
      var it := line[|line| - 1];
      Boxes(line[..|line| - 1]) + (if it.bbox.Some? then [it.bbox.value] else [])
  }

  function Confs(line: seq<OcrItem>): seq<real> {
    seq(|line|, i requires 0 <= i < |line| => line[i].conf)
  }

  function Sum(xs: seq<real>): real {
    if xs == [] then 0.0 else Sum(xs[..|xs| - 1]) + xs[|xs| - 1]
  }

  /** The arithmetic mean, or 0.0 for no values. */
  function Mean(xs: seq<real>): real {
    if xs == [] then 0.0 else Sum(xs) / (|xs| as real)
  }

  function IntMin(xs: seq<int>): (m: int)
    requires |xs| > 0
    ensures m in xs && forall i :: 0 <= i < |xs| ==> m <= xs[i]
  {
    if |xs| == 1 then xs[0]
    else var m := IntMin(xs[..|xs| - 1]); if xs[|xs| - 1] < m then xs[|xs| - 1] else m
  }

  function IntMax(xs: seq<int>): (m: int)
    requires |xs| > 0
    ensures m in xs && forall i :: 0 <= i < |xs| ==> xs[i] <= m
  {
    if |xs| == 1 then xs[0]
    else var m := IntMax(xs[..|xs| - 1]); if xs[|xs| - 1] > m then xs[|xs| - 1] else m
  }

  function Lefts(bs: seq<Box>): seq<int> { seq(|bs|, i requires 0 <= i < |bs| => bs[i].l) }
  function Tops(bs: seq<Box>): seq<int> { seq(|bs|, i requires 0 <= i < |bs| => bs[i].t) }
  function Rights(bs: seq<Box>): seq<int> { seq(|bs|, i requires 0 <= i < |bs| => bs[i].r) }
  function Bottoms(bs: seq<Box>): seq<int> { seq(|bs|, i requires 0 <= i < |bs| => bs[i].b) }

  /** The box covering all member boxes, or None when no member has one. */
  function UnionBox(bs: seq<Box>): Option<Box> {
    if bs == [] then None
    else Some(Box(IntMin(Lefts(bs)), IntMin(Tops(bs)), IntMax(Rights(bs)), IntMax(Bottoms(bs))))
  }

  /** One output item of `_merge_tokens_to_lines` for one group. */
  function MergedLine(line: seq<OcrItem>): OcrItem {
    OcrItem(Join(" ", LineTexts(line)), UnionBox(Boxes(line)), Mean(Confs(line)))
  }

  /** `_merge_tokens_to_lines(items, y_tol)`. */
  function MergeTokensToLines(items: seq<OcrItem>, yTol: int): (r: seq<OcrItem>)
    ensures items == [] ==> r == []
    ensures |r| == |LineGroups(items, yTol)|
  {
    var gs := LineGroups(items, yTol);
    seq(|gs|, k requires 0 <= k < |gs| => MergedLine(gs[k]))
  }

  /**
   * The groups, concatenated, are the input in order; no group holds two
   * neighbours more than `yTol` rows apart, and each new group starts with a
   * token more than `yTol` rows from the last one of the group before.
   */
  lemma LineGroupsSplit(items: seq<OcrItem>, yTol: int)
    ensures Flatten(LineGroups(items, yTol)) == items
    ensures NonEmptyRuns(LineGroups(items, yTol))
    ensures NoBreakInside(LineGroups(items, yTol), Apart(yTol))
    ensures BreakBetween(LineGroups(items, yTol), Apart(yTol))
  {
    SplitWhenFlattens(items, Apart(yTol));
    SplitWhenBreaks(items, Apart(yTol));
  }

  lemma {:induction false} BoxesOf(line: seq<OcrItem>)
    ensures |Boxes(line)| <= |line|
    ensures forall b :: b in Boxes(line) <==> exists i :: 0 <= i < |line| && line[i].bbox == Some(b)
    ensures forall i :: 0 <= i < |line| && line[i].bbox.Some? ==> line[i].bbox.value in Boxes(line)
  {
    if line != [] {
      var front := line[..|line| - 1];
      BoxesOf(front);
      forall b ensures b in Boxes(line) <==> exists i :: 0 <= i < |line| && line[i].bbox == Some(b) {
        if b in Boxes(front) {
          var i :| 0 <= i < |front| && front[i].bbox == Some(b);
          assert line[i] == front[i];
        }
        if i :| 0 <= i < |line| && line[i].bbox == Some(b) {
          if i < |front| { assert front[i] == line[i]; }
        }
      }
    }
  }

  /**
   * A merged line has no box iff no member has one; otherwise its box covers
   * every member box and each side is reached by a member box.
   */
  lemma MergedLineBox(line: seq<OcrItem>)
    ensures MergedLine(line).bbox.None? <==> forall i :: 0 <= i < |line| ==> line[i].bbox.None?
    ensures MergedLine(line).bbox.Some? ==> var u := MergedLine(line).bbox.value;
      && (forall i :: 0 <= i < |line| && line[i].bbox.Some? ==> var b := line[i].bbox.value;
            u.l <= b.l && u.t <= b.t && b.r <= u.r && b.b <= u.b)
      && (exists i :: 0 <= i < |line| && line[i].bbox.Some? && line[i].bbox.value.l == u.l)
      && (exists i :: 0 <= i < |line| && line[i].bbox.Some? && line[i].bbox.value.t == u.t)
      && (exists i :: 0 <= i < |line| && line[i].bbox.Some? && line[i].bbox.value.r == u.r)
      && (exists i :: 0 <= i < |line| && line[i].bbox.Some? && line[i].bbox.value.b == u.b)
  {
    var bs := Boxes(line);
    BoxesOf(line);
    if bs != [] {
      assert bs[0] in bs;
      var u := MergedLine(line).bbox.value;
      forall i | 0 <= i < |line| && line[i].bbox.Some?
        ensures var b := line[i].bbox.value; u.l <= b.l && u.t <= b.t && b.r <= u.r && b.b <= u.b
      {
        var b := line[i].bbox.value;
        assert b in bs;
        var j :| 0 <= j < |bs| && bs[j] == b;
        assert Lefts(bs)[j] == b.l && Tops(bs)[j] == b.t && Rights(bs)[j] == b.r && Bottoms(bs)[j] == b.b;
      }
      var jl :| 0 <= jl < |bs| && Lefts(bs)[jl] == u.l;
      var jt :| 0 <= jt < |bs| && Tops(bs)[jt] == u.t;
      var jr :| 0 <= jr < |bs| && Rights(bs)[jr] == u.r;
      var jb :| 0 <= jb < |bs| && Bottoms(bs)[jb] == u.b;
      assert bs[jl] in bs && bs[jt] in bs && bs[jr] in bs && bs[jb] in bs;
    }
  }

  /** Two non-empty collapsed texts joined by one space stay collapsed. */
  lemma CollapsedJoinTwo(a: string, b: string)
    requires a != [] && b != [] && Collapsed(a) && Collapsed(b)
    ensures Collapsed(a + " " + b)
  {
    var s := a + " " + b;
    assert s[0] == a[0] && s[|s| - 1] == b[|b| - 1];
    forall i | 0 <= i < |s| && IsSpace(s[i]) ensures s[i] == ' ' {
      if i > |a| { assert s[i] == b[i - |a| - 1]; }
      else if i < |a| { assert s[i] == a[i]; }
    }
    forall i | 0 <= i < |s| - 1 ensures !(IsSpace(s[i]) && IsSpace(s[i + 1])) {
      if i > |a| { assert s[i] == b[i - |a| - 1] && s[i + 1] == b[i - |a|]; }
      else if i + 1 < |a| { assert s[i] == a[i] && s[i + 1] == a[i + 1]; }
      else if i + 1 == |a| { assert s[i] == a[|a| - 1]; }
      else { assert s[i + 1] == b[0]; }
    }
  }

  lemma {:induction false} JoinOfCollapsed(ts: seq<string>)
    requires forall i :: 0 <= i < |ts| ==> ts[i] != [] && Collapsed(ts[i])
    ensures Collapsed(Join(" ", ts))
    ensures |ts| > 0 ==> Join(" ", ts) != []
  {
    if |ts| > 1 {
      JoinOfCollapsed(ts[1..]);
      CollapsedJoinTwo(ts[0], Join(" ", ts[1..]));
    }
  }

  /** A merged line's text is collapsed: single spaces between the members' words, none at the ends. */
  lemma MergedLineTextCollapsed(line: seq<OcrItem>)
    ensures Collapsed(MergedLine(line).text)
  {
    JoinOfCollapsed(LineTexts(line));
  }

  /** A member whose text normalises to something non-empty contributes it to the line's text, in order. */
  lemma {:induction false} LineTextsOfCons(it: OcrItem, rest: seq<OcrItem>)
    ensures LineTexts([it] + rest) == (if NormalizeRu(it.text) != [] then [NormalizeRu(it.text)] else []) + LineTexts(rest)
  {
    var line := [it] + rest;
    assert line[0] == it && line[1..] == rest;
  }

  lemma BoxesSnoc(line: seq<OcrItem>, k: nat)
    requires k < |line|
    ensures Boxes(line[..k + 1]) == Boxes(line[..k]) + (if line[k].bbox.Some? then [line[k].bbox.value] else [])
    ensures Confs(line[..k + 1]) == Confs(line[..k]) + [line[k].conf]
  {
    assert line[..k + 1][..k] == line[..k];
  }

  lemma CoordsSnoc(bs: seq<Box>, b: Box)
    ensures Lefts(bs + [b]) == Lefts(bs) + [b.l] && Tops(bs + [b]) == Tops(bs) + [b.t]
    ensures Rights(bs + [b]) == Rights(bs) + [b.r] && Bottoms(bs + [b]) == Bottoms(bs) + [b.b]
  {
  }

  /** The loop over one group: texts, the four coordinate lists and the confidences. */
  method MergeLine(line: seq<OcrItem>) returns (m: OcrItem)
    ensures m == MergedLine(line)
  {
    var texts := LineTexts(line);
    var text := Join(" ", texts);
    var xs1, ys1, xs2, ys2 := [], [], [], [];
    var confs := [];
    for k := 0 to |line|
      invariant xs1 == Lefts(Boxes(line[..k])) && ys1 == Tops(Boxes(line[..k]))
      invariant xs2 == Rights(Boxes(line[..k])) && ys2 == Bottoms(Boxes(line[..k]))
      invariant confs == Confs(line[..k])
    {
      var t := line[k];
      BoxesSnoc(line, k);
      if t.bbox.Some? {
        var b := t.bbox.value;
        CoordsSnoc(Boxes(line[..k]), b);
        xs1 := xs1 + [b.l];
        ys1 := ys1 + [b.t];
        xs2 := xs2 + [b.r];
        ys2 := ys2 + [b.b];
      }
      confs := confs + [t.conf];
    }
    assert line[..|line|] == line;
    var bbox := None;
    if xs1 != [] && ys1 != [] && xs2 != [] && ys2 != [] {
      bbox := Some(Box(IntMin(xs1), IntMin(ys1), IntMax(xs2), IntMax(ys2)));
    }
    var conf := if confs != [] then Sum(confs) / (|confs| as real) else 0.0;
    m := OcrItem(text, bbox, conf);
  }

  /** The first loop of `_merge_tokens_to_lines`: a new group whenever the centre jumps by more than `yTol`. */
  method GroupLines(items: seq<OcrItem>, yTol: int) returns (lines: seq<seq<OcrItem>>)
    requires items != []
    ensures lines == LineGroups(items, yTol)
  {
    lines := [];
    var curr: seq<OcrItem> := [items[0]];
    SplitWhenOne(items, Apart(yTol));
    for i := 1 to |items|
      invariant curr != [] && curr[|curr| - 1] == items[i - 1]
      invariant lines + [curr] == LineGroups(items[..i], yTol)
    {
      var it, prev := items[i], curr[|curr| - 1];
      if Abs(YCenter(it) - YCenter(prev)) <= yTol {
        assert LineGroups(items[..i + 1], yTol) == lines + [curr + [it]] by {
          ApartIff(yTol, prev, it);
          SplitWhenStep(items, i, Apart(yTol), lines, curr);
        }
        curr := curr + [it];
      } else {
        assert LineGroups(items[..i + 1], yTol) == (lines + [curr]) + [[it]] by {
          ApartIff(yTol, prev, it);
          SplitWhenStep(items, i, Apart(yTol), lines, curr);
        }
        lines := lines + [curr];
        curr := [it];
      }
    }
    assert items[..|items|] == items;
    lines := lines + [curr];
  }

  /** The two loops of `_merge_tokens_to_lines`: grouping by centre, then merging each group. */
  method MergeTokens(items: seq<OcrItem>, yTol: int) returns (merged: seq<OcrItem>)
    ensures merged == MergeTokensToLines(items, yTol)
  {
    if items == [] {
      return [];
    }
    var lines := GroupLines(items, yTol);
    merged := [];
    for k := 0 to |lines|
      invariant merged == MapSeq(lines[..k], MergedLine)
    {
      var m := MergeLine(lines[k]);
      MapSeqSnoc(lines, k, MergedLine);
      merged := merged + [m];
    }
    assert lines[..|lines|] == lines;
  }

  // ------------------------------------------------------------------- run

  /** The garbage rule of `run`: a line of at most two characters read with confidence below 0.6. */
  predicate Dropped(it: OcrItem) { |it.text| <= 2 && it.conf < 0.6 }

  function Cleaned(lines: seq<OcrItem>): (r: seq<OcrItem>)
    ensures |r| <= |lines|
  {
    if lines == [] then []
    else
      var it := lines[|lines| - 1];
      Cleaned(lines[..|lines| - 1]) + (if Dropped(it) then [] else [it])
  }

  /** The filter keeps exactly the lines that are not garbage, each as often as it occurs. */
  lemma {:induction false} CleanedSpec(lines: seq<OcrItem>)
    ensures forall x :: multiset(Cleaned(lines))[x] == if Dropped(x) then 0 else multiset(lines)[x]
  {
    if lines != [] {
      var front := lines[..|lines| - 1];
      CleanedSpec(front);
      assert lines == front + [lines[|lines| - 1]];
    }
  }

  lemma CleanedMembers(lines: seq<OcrItem>)
    ensures forall x :: x in Cleaned(lines) <==> x in lines && !Dropped(x)
  {
    CleanedSpec(lines);
    forall x ensures x in Cleaned(lines) <==> x in lines && !Dropped(x) {
      assert x in Cleaned(lines) <==> multiset(Cleaned(lines))[x] > 0;
      assert x in lines <==> multiset(lines)[x] > 0;
    }
  }

  /** The filtering loop at the end of `run`. */
  method CleanLines(lines: seq<OcrItem>) returns (cleaned: seq<OcrItem>)
    ensures cleaned == Cleaned(lines)
  {
    cleaned := [];
    for k := 0 to |lines|
      invariant cleaned == Cleaned(lines[..k])
    {
      assert lines[..k + 1][..k] == lines[..k];
      var it := lines[k];
      if |it.text| <= 2 && it.conf < 0.6 {
        continue;
      }
      cleaned := cleaned + [it];
    }
    assert lines[..|lines|] == lines;
  }

  /** One entry of the recogniser's page result: polygon, text and score (None for a missing score). */
  datatype Recognised = Recognised(poly: seq<Pt>, text: string, score: Option<real>)

  /** The item `run` builds from one entry: `float(sc or 0.0)` and a box only for a non-empty polygon. */
  function RawItem(e: Recognised): (it: OcrItem)
    ensures it.bbox.None? <==> e.poly == []
    ensures it.text == NormalizeRu(e.text)
  {
    OcrItem(NormalizeRu(e.text),
            if e.poly == [] then None else Some(PolyToLtrb(e.poly)),
            if e.score.Some? then e.score.value else 0.0)
  }

  /** The line tolerance `run` passes. */
  const RunYTol: int := 10

  /** What `run` returns for a page result (an empty or missing page is the empty sequence). */
  function RawItems(page: seq<Recognised>): (raw: seq<OcrItem>)
    ensures |raw| == |page| && forall i :: 0 <= i < |page| ==> raw[i] == RawItem(page[i])
  {
    seq(|page|, i requires 0 <= i < |page| => RawItem(page[i]))
  }

  function RunOutput(page: seq<Recognised>): seq<OcrItem> {
    Cleaned(MergeTokensToLines(SortBoxes(RawItems(page)), RunYTol))
  }

  /** `run` after the recogniser call: build the items, sort, merge with tolerance 10, filter. */
  method Run(page: seq<Recognised>) returns (cleaned: seq<OcrItem>)
    ensures cleaned == RunOutput(page)
  {
    var raw := MapEach(page, RawItem);
    assert raw == RawItems(page);
    raw := SortBoxes(raw);
    var lines := MergeTokens(raw, RunYTol);
    cleaned := CleanLines(lines);
  }

  /** Every line `run` returns has a collapsed text and is not garbage. */
  lemma RunOutputLines(page: seq<Recognised>)
    ensures forall x :: x in RunOutput(page) ==> !Dropped(x) && Collapsed(x.text)
  {
    var raw := RawItems(page);
    var lines := MergeTokensToLines(SortBoxes(raw), RunYTol);
    CleanedMembers(lines);
    forall x | x in RunOutput(page) ensures !Dropped(x) && Collapsed(x.text) {
      var k :| 0 <= k < |lines| && lines[k] == x;
      MergedLineTextCollapsed(LineGroups(SortBoxes(raw), RunYTol)[k]);
    }
  }
}
