/**
 * `build_sections` of src/section_parser.py: the stack of open sections keyed
 * by heading level, their page spans, and the paragraphs of every finished
 * section.
 *
 * `State` and the functions over it are the specification; the methods keep
 * the same state in local `seq` variables and update it line by line, each
 * proved equal to its specification function, and `BuildSections` drives them
 * page by page.
 */
module SectionBuilder {
  import opened Text
  import opened Seqs
  import opened Sorting
  import opened SectionParser

  /**
   * One section record. `num` is the numbering, `pageFrom` and `pageTo` are 1-based.
   * `body` is not a key of the record: it holds the lines whose text went into `content`,
   * which the intended paragraph pass needs and the code as written does not keep.
   */
  datatype Section = Section(id: string, title: string, level: int, num: Option<string>, content: string,
                             paragraphs: seq<string>, pageFrom: int, pageTo: int, body: seq<Line>)

  /** The open sections (innermost last), the closed ones in closing order, and the next fallback id. */
  datatype State = State(stack: seq<Section>, sections: seq<Section>, fallbackId: nat)

  const Start := State([], [], 1)

  /** A closed section is emitted when its stripped content is long enough or it has a title. */
  predicate Keep(sec: Section, minLen: int) {
    StrippedLength(sec.content) >= minLen || sec.title != ""
  }

  /** `len(s.strip())`, counted by dropping whitespace from both ends one character at a time. */
  function StrippedLength(s: string): nat
    decreases |s|
  {
    if s == [] then 0
    else if IsSpace(s[0]) then StrippedLength(s[1..])
    else if IsSpace(s[|s| - 1]) then StrippedLength(s[..|s| - 1])
    else |s|
  }

  lemma {:induction false} StrippedLengthIsStrip(s: string)
    ensures StrippedLength(s) == |Strip(s)|
    decreases |s|
  {
    if s == [] {
    } else if IsSpace(s[0]) {
      StrippedLengthIsStrip(s[1..]);
      assert LStrip(s) == LStrip(s[1..]);
    } else if IsSpace(s[|s| - 1]) {
      var front := s[..|s| - 1];
      StrippedLengthIsStrip(front);
      assert LStrip(s) == s;
      assert front[0] == s[0];
      assert LStrip(front) == front;
      assert RStrip(s) == RStrip(front);
    } else {
      assert LStrip(s) == s;
      assert RStrip(s) == s;
    }
  }

  /** The section as emitted: itself when kept, nothing otherwise. */
  function Emit(sec: Section, minLen: int): (r: seq<Section>)
    ensures |r| <= 1
  {
    if Keep(sec, minLen) then [sec] else []
  }

  /** A section with its last page set to `stamp`, when given. */
  function Stamped(sec: Section, stamp: Option<int>): Section {
    if stamp.Some? then sec.(pageTo := stamp.value) else sec
  }

  /** Popped sections in the order they are popped (top first), stamped when `stamp` is given, and filtered by `Keep`. */
  function Closed(popped: seq<Section>, stamp: Option<int>, minLen: int): (r: seq<Section>)
    ensures |r| <= |popped|
    decreases |popped|
  {
    if popped == [] then []
    else
      Emit(Stamped(popped[|popped| - 1], stamp), minLen) + Closed(popped[..|popped| - 1], stamp, minLen)
  }

  lemma ClosedSnoc(popped: seq<Section>, top: Section, stamp: Option<int>, minLen: int)
    ensures Closed(popped + [top], stamp, minLen) == Emit(Stamped(top, stamp), minLen) + Closed(popped, stamp, minLen)
  {
    assert (popped + [top])[..|popped|] == popped;
  }

  /** Closing a suffix of a stack: its top first, then the rest of the suffix. */
  lemma ClosedSuffix(stack: seq<Section>, d: nat, stamp: Option<int>, minLen: int)
    requires d < |stack|
    ensures Closed(stack[d..], stamp, minLen) ==
      Emit(Stamped(stack[|stack| - 1], stamp), minLen) + Closed(stack[..|stack| - 1][d..], stamp, minLen)
  {
    SuffixSnoc(stack, d);
    ClosedSnoc(stack[..|stack| - 1][d..], stack[|stack| - 1], stamp, minLen);
  }

  /** How many open sections, from the bottom, stay open when closing to `level`. */
  function KeptDepth(stack: seq<Section>, level: int): (d: nat)
    ensures d <= |stack|
    ensures forall j :: d <= j < |stack| ==> stack[j].level >= level
    ensures d == 0 || stack[d - 1].level < level
    decreases |stack|
  {
    if stack != [] && stack[|stack| - 1].level >= level then KeptDepth(stack[..|stack| - 1], level) else |stack|
  }

  /**
   * `close_to_level`: the open sections above depth `KeptDepth` are popped, top first, each
   * stamped with `pageNo` as its last page and emitted when kept.
   */
  function CloseTo(st: State, level: int, pageNo: int, minLen: int): State {
    var d := KeptDepth(st.stack, level);
    State(st.stack[..d], st.sections + Closed(st.stack[d..], Some(pageNo), minLen), st.fallbackId)
  }

  /** The final `while current_stack` loop: pops every open section, without stamping. */
  function CloseAll(st: State, minLen: int): (r: State)
    ensures r.stack == []
    ensures r.sections == st.sections + Closed(st.stack, None, minLen)
    ensures r.fallbackId == st.fallbackId
    decreases |st.stack|
  {
    var n := |st.stack|;
    if n == 0 then st
    else
      var sec := st.stack[n - 1];
      CloseAll(State(st.stack[..n - 1], st.sections + Emit(sec, minLen), st.fallbackId), minLen)
  }

  /** A heading line on page `pi` (0-based): close to its level, then open its section. */
  function OpenSection(st: State, text: string, h: Heading, pi: nat, minLen: int): State {
    var c := CloseTo(st, h.level, pi + 1, minLen);
    var sec := Section(SectionId(h.numbering, c.fallbackId), text, h.level, h.numbering, "", [], pi + 1, pi + 1, []);
    State(c.stack + [sec], c.sections, c.fallbackId + 1)
  }

  /** A body line: its text appended with a newline to the innermost open section, dropped when none is open. */
  function AddBody(st: State, ln: Line): State {
    var n := |st.stack|;
    if n == 0 then st
    else
      var top := st.stack[n - 1];
      st.(stack := st.stack[..n - 1] + [top.(content := top.content + ln.text + "\n", body := top.body + [ln])])
  }

  /** The end of a page: every open section now reaches page `pageNo`. */
  function StampPage(stack: seq<Section>, pageNo: int): (r: seq<Section>)
    ensures |r| == |stack| && forall k :: 0 <= k < |stack| ==> r[k] == stack[k].(pageTo := pageNo)
  {
    seq(|stack|, k requires 0 <= k < |stack| => stack[k].(pageTo := pageNo))
  }

  /** A line with the classifier's verdict on it. */
  datatype Classified = Classified(line: Line, verdict: Heading)

  /** The verdict on every line of a page, each line judged with the gap to the line above it. */
  function Classify(lines: seq<Line>, medianH: real): (cs: seq<Classified>)
    ensures |cs| == |lines|
  {
    ClassifyWith(lines, medianH, LooksLikeHeading)
  }

  /** The verdicts of a given line classifier (text, line height, median height, gap above). */
  function ClassifyWith(lines: seq<Line>, medianH: real, judge: (string, real, real, real) -> Heading): (cs: seq<Classified>)
    ensures |cs| == |lines|
  {
    seq(|lines|, i requires 0 <= i < |lines| =>
      Classified(lines[i], judge(lines[i].text, lines[i].lineH, medianH, FindGapAbove(i, lines))))
  }

  /** Every heading verdict has a level 1..4. */
  predicate ValidVerdicts(cs: seq<Classified>) {
    forall i :: 0 <= i < |cs| ==> (cs[i].verdict.isHead ==> 1 <= cs[i].verdict.level <= 4)
  }

  lemma ClassifyValid(lines: seq<Line>, medianH: real)
    ensures ValidVerdicts(Classify(lines, medianH))
  {
    var cs := Classify(lines, medianH);
    forall i | 0 <= i < |cs| ensures cs[i].verdict.isHead ==> 1 <= cs[i].verdict.level <= 4 {
      var h := LooksLikeHeading(lines[i].text, lines[i].lineH, medianH, FindGapAbove(i, lines));
      assert cs[i].verdict == h;
    }
  }

  /** One line of page `pi`: a heading opens a section, any other line is body text. */
  function Step(st: State, c: Classified, pi: nat, minLen: int): State {
    if c.verdict.isHead then OpenSection(st, c.line.text, c.verdict, pi, minLen) else AddBody(st, c.line)
  }

  /** The first `n` lines of page `pi`. */
  function PageSteps(st: State, cs: seq<Classified>, n: nat, pi: nat, minLen: int): State
    requires n <= |cs|
  {
    if n == 0 then st else Step(PageSteps(st, cs, n - 1, pi, minLen), cs[n - 1], pi, minLen)
  }

  /**
   * Induction over the lines of a page: a property `P(state, i)` that holds before line 0
   * and that each line `i` carries to `i + 1` holds after the first `n` lines.
   */
  lemma {:induction false} PageStepsKeep(P: (State, nat) -> bool, st: State, cs: seq<Classified>, n: nat, pi: nat, minLen: int)
    requires n <= |cs| && P(st, 0)
    requires forall s, i :: 0 <= i < |cs| && P(s, i) ==> P(Step(s, cs[i], pi, minLen), i + 1)
    ensures P(PageSteps(st, cs, n, pi, minLen), n)
  {
    if n > 0 {
      PageStepsKeep(P, st, cs, n - 1, pi, minLen);
    }
  }

  /** A whole page, then the page-end stamp. */
  function ProcessPage(st: State, cs: seq<Classified>, pi: nat, minLen: int): State {
    var r := PageSteps(st, cs, |cs|, pi, minLen);
    r.(stack := StampPage(r.stack, pi + 1))
  }

  /** The state after the first `k` pages. */
  function Pages(doc: seq<seq<Classified>>, k: nat, minLen: int): State
    requires k <= |doc|
  {
    if k == 0 then Start else ProcessPage(Pages(doc, k - 1, minLen), doc[k - 1], k - 1, minLen)
  }

  /** Induction over the pages: a property each page carries from `j` to `j + 1` holds after `k` pages. */
  lemma {:induction false} PagesKeep(P: (State, nat) -> bool, doc: seq<seq<Classified>>, k: nat, minLen: int)
    requires k <= |doc| && P(Start, 0)
    requires forall s, j :: 0 <= j < |doc| && P(s, j) ==> P(ProcessPage(s, doc[j], j, minLen), j + 1)
    ensures P(Pages(doc, k, minLen), k)
  {
    if k > 0 {
      PagesKeep(P, doc, k - 1, minLen);
    }
  }

  /** The heights the global median is taken over: those that are not 0. */
  function NonZeroHeights(lines: seq<Line>): (hs: seq<real>)
    ensures |hs| <= |lines|
    ensures forall h :: h in hs ==> h != 0.0
  {
    if lines == [] then []
    else NonZeroHeights(lines[..|lines| - 1]) + (if lines[|lines| - 1].lineH != 0.0 then [lines[|lines| - 1].lineH] else [])
  }

  function AllHeights(pageLines: seq<seq<Line>>): seq<real> {
    if pageLines == [] then [] else AllHeights(pageLines[..|pageLines| - 1]) + NonZeroHeights(pageLines[|pageLines| - 1])
  }

  /** The global median line height, 12 when no line has a height. */
  function GlobalMedian(pageLines: seq<seq<Line>>): real {
    var hs := AllHeights(pageLines);
    if hs == [] then 12.0 else Median(hs)
  }

  // ---------------------------------------------------------------------------
  // Invariants of the section stack
  // ---------------------------------------------------------------------------

  /** A section of a document whose first `p` pages have been seen: a level 1..4 and a span within them. */
  predicate SecOk(sec: Section, p: int) {
    1 <= sec.level <= 4 && 1 <= sec.pageFrom <= sec.pageTo <= p
  }

  /** Open levels strictly increase from the bottom of the stack. */
  predicate Nested(stack: seq<Section>) {
    forall i, j :: 0 <= i < j < |stack| ==> stack[i].level < stack[j].level
  }

  predicate Inv(st: State, p: int) {
    Nested(st.stack) &&
    (forall sec :: sec in st.stack ==> SecOk(sec, p)) &&
    (forall sec :: sec in st.sections ==> SecOk(sec, p))
  }

  lemma {:induction false} ClosedOk(popped: seq<Section>, stamp: Option<int>, minLen: int, p: int)
    requires forall sec :: sec in popped ==> SecOk(Stamped(sec, stamp), p)
    ensures forall sec :: sec in Closed(popped, stamp, minLen) ==> SecOk(sec, p)
    decreases |popped|
  {
    if popped != [] {
      var front := popped[..|popped| - 1];
      assert forall sec :: sec in front ==> sec in popped;
      ClosedOk(front, stamp, minLen, p);
      assert popped[|popped| - 1] in popped;
    }
  }

  /** With every title non-empty nothing is filtered: the popped sections come out top first, stamped. */
  lemma {:induction false} ClosedKeepsAll(popped: seq<Section>, stamp: Option<int>, minLen: int)
    requires forall sec :: sec in popped ==> sec.title != ""
    ensures |Closed(popped, stamp, minLen)| == |popped|
    ensures forall k :: 0 <= k < |popped| ==> Closed(popped, stamp, minLen)[k] == Stamped(popped[|popped| - 1 - k], stamp)
    decreases |popped|
  {
    if popped != [] {
      var front := popped[..|popped| - 1];
      assert forall sec :: sec in front ==> sec in popped;
      ClosedKeepsAll(front, stamp, minLen);
      assert popped[|popped| - 1] in popped;
      assert Emit(Stamped(popped[|popped| - 1], stamp), minLen) == [Stamped(popped[|popped| - 1], stamp)];
    }
  }

  /**
   * Closing to `level` on page `p` keeps the invariant, leaves only levels below `level` open,
   * and keeps the bottom of the stack as it was.
   */
  lemma CloseToInv(st: State, level: int, p: int, minLen: int)
    requires Inv(st, p)
    ensures var c := CloseTo(st, level, p, minLen);
      Inv(c, p) && c.fallbackId == st.fallbackId &&
      c.stack == st.stack[..|c.stack|] &&
      (c.stack == [] || c.stack[|c.stack| - 1].level < level) &&
      (forall j :: |c.stack| <= j < |st.stack| ==> st.stack[j].level >= level)
  {
    var d := KeptDepth(st.stack, level);
    var top := st.stack[d..];
    forall sec | sec in top ensures SecOk(Stamped(sec, Some(p)), p) {
      assert sec in st.stack;
    }
    ClosedOk(top, Some(p), minLen, p);
    assert forall sec :: sec in st.stack[..d] ==> sec in st.stack;
  }

  /** A heading at a deeper level than every open section nests: nothing is closed. */
  lemma DeeperHeadingNests(st: State, text: string, h: Heading, pi: nat, minLen: int)
    requires st.stack == [] || st.stack[|st.stack| - 1].level < h.level
    ensures var r := OpenSection(st, text, h, pi, minLen);
      r.sections == st.sections && |r.stack| == |st.stack| + 1 && r.stack[..|st.stack|] == st.stack &&
      r.stack[|st.stack|] == Section(SectionId(h.numbering, st.fallbackId), text, h.level, h.numbering, "", [], pi + 1, pi + 1, [])
  {
    assert st.stack[|st.stack|..] == [];
  }

  /** A heading at the level of the open top section closes exactly that sibling, on the current page. */
  lemma SameLevelClosesSibling(st: State, text: string, h: Heading, pi: nat, minLen: int)
    requires Nested(st.stack) && st.stack != [] && st.stack[|st.stack| - 1].level == h.level
    requires st.stack[|st.stack| - 1].title != ""
    ensures var r := OpenSection(st, text, h, pi, minLen);
      var n := |st.stack|;
      r.sections == st.sections + [st.stack[n - 1].(pageTo := pi + 1)] &&
      |r.stack| == n && r.stack[..n - 1] == st.stack[..n - 1] &&
      r.stack[n - 1] == Section(SectionId(h.numbering, st.fallbackId), text, h.level, h.numbering, "", [], pi + 1, pi + 1, [])
  {
    var n := |st.stack|;
    var front := st.stack[..n - 1];
    assert KeptDepth(front, h.level) == n - 1 by {
      if n > 1 {
        assert front[n - 2].level < h.level;
      }
    }
    assert st.stack[n - 1..] == [st.stack[n - 1]];
    assert Emit(st.stack[n - 1].(pageTo := pi + 1), minLen) == [st.stack[n - 1].(pageTo := pi + 1)];
  }

  /**
   * A body line changes only the innermost open section, whose content gains the line's text
   * and a newline (and whose body gains the line).
   */
  lemma AddBodyTouchesTop(st: State, ln: Line)
    ensures var r := AddBody(st, ln);
      r.sections == st.sections && r.fallbackId == st.fallbackId && |r.stack| == |st.stack| &&
      (st.stack == [] ==> r == st) &&
      (st.stack != [] ==> (r.stack[..|st.stack| - 1] == st.stack[..|st.stack| - 1] &&
        r.stack[|st.stack| - 1] == st.stack[|st.stack| - 1].(content := st.stack[|st.stack| - 1].content + ln.text + "\n",
                                                             body := st.stack[|st.stack| - 1].body + [ln])))
  {
  }

  lemma InvMono(st: State, p: int, q: int)
    requires Inv(st, p) && p <= q
    ensures Inv(st, q)
  {
  }

  /** Opening a section on page `pi` keeps the stack nested: everything left open is below the new level. */
  lemma OpenSectionInv(st: State, text: string, h: Heading, pi: nat, minLen: int)
    requires Inv(st, pi + 1) && 1 <= h.level <= 4
    ensures Inv(OpenSection(st, text, h, pi, minLen), pi + 1)
  {
    CloseToInv(st, h.level, pi + 1, minLen);
    var c := CloseTo(st, h.level, pi + 1, minLen);
    var sec := Section(SectionId(h.numbering, c.fallbackId), text, h.level, h.numbering, "", [], pi + 1, pi + 1, []);
    PushInv(c, sec, c.fallbackId + 1, pi + 1);
  }

  /** Pushing a section deeper than the current top keeps the invariant. */
  lemma PushInv(c: State, sec: Section, id: nat, p: int)
    requires Inv(c, p) && SecOk(sec, p)
    requires c.stack == [] || c.stack[|c.stack| - 1].level < sec.level
    ensures Inv(State(c.stack + [sec], c.sections, id), p)
  {
    var s := c.stack + [sec];
    forall i, j | 0 <= i < j < |s| ensures s[i].level < s[j].level {
      if j < |c.stack| {
        assert s[i] == c.stack[i] && s[j] == c.stack[j];
      } else {
        assert s[i] == c.stack[i] && c.stack[i].level <= c.stack[|c.stack| - 1].level;
      }
    }
  }

  lemma AddBodyInv(st: State, ln: Line, p: int)
    requires Inv(st, p)
    ensures Inv(AddBody(st, ln), p)
  {
    var n := |st.stack|;
    if n > 0 {
      var r := AddBody(st, ln);
      assert forall i :: 0 <= i < n ==> (r.stack[i].level == st.stack[i].level &&
        r.stack[i].pageFrom == st.stack[i].pageFrom && r.stack[i].pageTo == st.stack[i].pageTo);
      forall sec | sec in r.stack ensures SecOk(sec, p) {
        var i :| 0 <= i < n && r.stack[i] == sec;
        assert st.stack[i] in st.stack;
      }
    }
  }

  lemma StepInv(st: State, c: Classified, pi: nat, minLen: int)
    requires Inv(st, pi + 1) && (c.verdict.isHead ==> 1 <= c.verdict.level <= 4)
    ensures Inv(Step(st, c, pi, minLen), pi + 1)
  {
    if c.verdict.isHead {
      OpenSectionInv(st, c.line.text, c.verdict, pi, minLen);
    } else {
      AddBodyInv(st, c.line, pi + 1);
    }
  }

  lemma {:induction false} PageStepsInv(st: State, cs: seq<Classified>, n: nat, pi: nat, minLen: int)
    requires n <= |cs| && ValidVerdicts(cs) && Inv(st, pi + 1)
    ensures Inv(PageSteps(st, cs, n, pi, minLen), pi + 1)
  {
    if n > 0 {
      PageStepsInv(st, cs, n - 1, pi, minLen);
      StepInv(PageSteps(st, cs, n - 1, pi, minLen), cs[n - 1], pi, minLen);
    }
  }

  /** The page-end stamp keeps the invariant: every open section started on this page or earlier. */
  lemma StampPageInv(st: State, p: int)
    requires Inv(st, p)
    ensures Inv(st.(stack := StampPage(st.stack, p)), p)
  {
    var r := StampPage(st.stack, p);
    forall sec | sec in r ensures SecOk(sec, p) {
      var k :| 0 <= k < |r| && r[k] == sec;
      assert st.stack[k] in st.stack;
    }
  }

  /** After `k` pages every open or closed section has a level 1..4 and a span within those pages. */
  lemma {:induction false} PagesInv(doc: seq<seq<Classified>>, k: nat, minLen: int)
    requires k <= |doc| && forall j :: 0 <= j < |doc| ==> ValidVerdicts(doc[j])
    ensures Inv(Pages(doc, k, minLen), k)
  {
    if k > 0 {
      PagesInv(doc, k - 1, minLen);
      PageInv(doc, k, minLen);
    }
  }

  /** Page `k` keeps the invariant. */
  lemma PageInv(doc: seq<seq<Classified>>, k: nat, minLen: int)
    requires 0 < k <= |doc| && ValidVerdicts(doc[k - 1]) && Inv(Pages(doc, k - 1, minLen), k - 1)
    ensures Inv(Pages(doc, k, minLen), k)
  {
    ProcessPageInv(Pages(doc, k - 1, minLen), doc[k - 1], k - 1, minLen);
  }

  /** A page keeps the invariant, the span now reaching that page. */
  lemma ProcessPageInv(st: State, cs: seq<Classified>, pi: nat, minLen: int)
    requires ValidVerdicts(cs) && Inv(st, pi)
    ensures Inv(ProcessPage(st, cs, pi, minLen), pi + 1)
  {
    InvMono(st, pi, pi + 1);
    PageStepsInv(st, cs, |cs|, pi, minLen);
    StampPageInv(PageSteps(st, cs, |cs|, pi, minLen), pi + 1);
  }

  lemma CloseAllOk(st: State, p: int, minLen: int)
    requires Inv(st, p)
    ensures forall sec :: sec in CloseAll(st, minLen).sections ==> SecOk(sec, p)
  {
    ClosedOk(st.stack, None, minLen, p);
  }

  // ---------------------------------------------------------------------------
  // One section per heading
  // ---------------------------------------------------------------------------

  /** Every line of a page has text (as every line `_group_tokens_to_lines` returns does). */
  predicate HasText(cs: seq<Classified>) {
    forall i :: 0 <= i < |cs| ==> cs[i].line.text != ""
  }

  /** How many of the first `n` lines are headings. */
  function Heads(cs: seq<Classified>, n: nat): (h: nat)
    requires n <= |cs|
    ensures h <= n
  {
    if n == 0 then 0 else Heads(cs, n - 1) + (if cs[n - 1].verdict.isHead then 1 else 0)
  }

  /** How many lines of the first `k` pages are headings. */
  function HeadsIn(doc: seq<seq<Classified>>, k: nat): nat
    requires k <= |doc|
  {
    if k == 0 then 0 else HeadsIn(doc, k - 1) + Heads(doc[k - 1], |doc[k - 1]|)
  }

  /** Every section has a title, and each opened section is either still open or emitted. */
  predicate Counted(st: State) {
    (forall sec :: sec in st.stack ==> sec.title != "") &&
    (forall sec :: sec in st.sections ==> sec.title != "") &&
    |st.stack| + |st.sections| + 1 == st.fallbackId
  }

  lemma CloseToCounted(st: State, level: int, p: int, minLen: int)
    requires Counted(st)
    ensures Counted(CloseTo(st, level, p, minLen))
  {
    var d := KeptDepth(st.stack, level);
    var top := st.stack[d..];
    assert forall sec :: sec in top ==> sec in st.stack;
    assert forall sec :: sec in st.stack[..d] ==> sec in st.stack;
    ClosedKeepsAll(top, Some(p), minLen);
    var out := Closed(top, Some(p), minLen);
    forall sec | sec in out ensures sec.title != "" {
      var k :| 0 <= k < |out| && out[k] == sec;
      assert top[|top| - 1 - k] in top;
    }
  }

  lemma StepCounted(st: State, c: Classified, pi: nat, minLen: int)
    requires Counted(st) && c.line.text != ""
    ensures var r := Step(st, c, pi, minLen);
      Counted(r) && r.fallbackId == st.fallbackId + (if c.verdict.isHead then 1 else 0)
  {
    if c.verdict.isHead {
      CloseToCounted(st, c.verdict.level, pi + 1, minLen);
    } else if st.stack != [] {
      var n := |st.stack|;
      assert st.stack[n - 1] in st.stack;
      assert forall sec :: sec in st.stack[..n - 1] ==> sec in st.stack;
    }
  }

  lemma PageStepsCounted(st: State, cs: seq<Classified>, n: nat, pi: nat, minLen: int)
    requires n <= |cs| && HasText(cs) && Counted(st)
    ensures Counted(PageSteps(st, cs, n, pi, minLen))
    ensures PageSteps(st, cs, n, pi, minLen).fallbackId == st.fallbackId + Heads(cs, n)
  {
    var P := (s: State, k: nat) => k <= |cs| && Counted(s) && s.fallbackId == st.fallbackId + Heads(cs, k);
    forall s, i | 0 <= i < |cs| && P(s, i) ensures P(Step(s, cs[i], pi, minLen), i + 1) {
      StepCounted(s, cs[i], pi, minLen);
    }
    PageStepsKeep(P, st, cs, n, pi, minLen);
  }

  lemma PagesCounted(doc: seq<seq<Classified>>, k: nat, minLen: int)
    requires k <= |doc| && forall j :: 0 <= j < |doc| ==> HasText(doc[j])
    ensures Counted(Pages(doc, k, minLen))
    ensures Pages(doc, k, minLen).fallbackId == 1 + HeadsIn(doc, k)
  {
    var P := (s: State, j: nat) => j <= |doc| && Counted(s) && s.fallbackId == 1 + HeadsIn(doc, j);
    forall s, j | 0 <= j < |doc| && P(s, j) ensures P(ProcessPage(s, doc[j], j, minLen), j + 1) {
      ProcessPageCounted(s, doc[j], j, minLen);
      assert HeadsIn(doc, j + 1) == HeadsIn(doc, j) + Heads(doc[j], |doc[j]|);
    }
    assert Counted(Start) && HeadsIn(doc, 0) == 0;
    assert P(Start, 0);
    PagesKeep(P, doc, k, minLen);
  }

  /** A page opens one section per heading on it, and keeps the count. */
  lemma ProcessPageCounted(st: State, cs: seq<Classified>, pi: nat, minLen: int)
    requires HasText(cs) && Counted(st)
    ensures Counted(ProcessPage(st, cs, pi, minLen))
    ensures ProcessPage(st, cs, pi, minLen).fallbackId == st.fallbackId + Heads(cs, |cs|)
  {
    PageStepsCounted(st, cs, |cs|, pi, minLen);
    StampPageCounted(PageSteps(st, cs, |cs|, pi, minLen), pi + 1);
  }

  lemma StampPageCounted(st: State, p: int)
    requires Counted(st)
    ensures Counted(st.(stack := StampPage(st.stack, p)))
  {
    var r := StampPage(st.stack, p);
    forall sec | sec in r ensures sec.title != "" {
      var j :| 0 <= j < |r| && r[j] == sec;
      assert st.stack[j] in st.stack;
    }
  }

  /**
   * Whatever `min_content_len` is, every heading line of the document yields exactly one
   * section: a section always has its heading line as its title, so none is filtered out.
   */
  lemma OneSectionPerHeading(doc: seq<seq<Classified>>, minLen: int)
    requires forall j :: 0 <= j < |doc| ==> HasText(doc[j])
    ensures |CloseAll(Pages(doc, |doc|, minLen), minLen).sections| == HeadsIn(doc, |doc|)
  {
    var st := Pages(doc, |doc|, minLen);
    PagesCounted(doc, |doc|, minLen);
    ClosedKeepsAll(st.stack, None, minLen);
  }

  // ---------------------------------------------------------------------------
  // The whole of `build_sections`
  // ---------------------------------------------------------------------------

  /** The lines of every page. */
  function PageLinesOf(ocrPages: seq<seq<OcrToken>>): (pageLines: seq<seq<Line>>)
    ensures |pageLines| == |ocrPages|
    ensures forall k :: 0 <= k < |ocrPages| ==> pageLines[k] == LinesOf(ocrPages[k])
  {
    MapSeq(ocrPages, LinesOf)
  }

  /** Every page's lines with their verdicts, judged against the global median height. */
  function Document(pageLines: seq<seq<Line>>, medianH: real): (doc: seq<seq<Classified>>)
    ensures |doc| == |pageLines|
    ensures forall k :: 0 <= k < |pageLines| ==> doc[k] == Classify(pageLines[k], medianH)
  {
    seq(|pageLines|, k requires 0 <= k < |pageLines| => Classify(pageLines[k], medianH))
  }

  lemma DocumentValid(pageLines: seq<seq<Line>>, medianH: real)
    ensures forall k :: 0 <= k < |pageLines| ==> ValidVerdicts(Document(pageLines, medianH)[k])
  {
    forall k | 0 <= k < |pageLines| ensures ValidVerdicts(Document(pageLines, medianH)[k]) {
      ClassifyValid(pageLines[k], medianH);
    }
  }

  /** The lines of pages `from` to `to` (1-based, inclusive), in page order. */
  function SpanLines(pageLines: seq<seq<Line>>, from: int, to: int): seq<Line>
    requires 1 <= from <= to <= |pageLines|
  {
    Flatten(pageLines[from - 1..to])
  }

  /**
   * The closing pass: the content loses its trailing whitespace, and the paragraphs are
   * those of every line of the section's pages as written, or of the lines that went
   * into its content as intended.
   */
  function Finished(reading: Reading, sec: Section, pageLines: seq<seq<Line>>, medianH: real): Section
    requires SecOk(sec, |pageLines|)
  {
    var lines := if reading == AsWritten then SpanLines(pageLines, sec.pageFrom, sec.pageTo) else sec.body;
    sec.(paragraphs := Paragraphs(lines, medianH), content := RStrip(sec.content))
  }

  /** The sections before the closing pass, in the order they were closed. */
  function ClosedSections(pageLines: seq<seq<Line>>, minLen: int): (r: seq<Section>)
    ensures forall sec :: sec in r ==> SecOk(sec, |pageLines|)
  {
    var doc := Document(pageLines, GlobalMedian(pageLines));
    DocumentValid(pageLines, GlobalMedian(pageLines));
    PagesInv(doc, |doc|, minLen);
    CloseAllOk(Pages(doc, |doc|, minLen), |doc|, minLen);
    CloseAll(Pages(doc, |doc|, minLen), minLen).sections
  }

  /** `build_sections(ocr_pages, min_content_len=minLen)`, its paragraph pass read as `reading`. */
  function Sections(reading: Reading, ocrPages: seq<seq<OcrToken>>, minLen: int): (r: seq<Section>)
  {
    var pageLines := PageLinesOf(ocrPages);
    var closed := ClosedSections(pageLines, minLen);
    seq(|closed|, k requires 0 <= k < |closed| => Finished(reading, closed[k], pageLines, GlobalMedian(pageLines)))
  }

  /** Lines with text give classified lines with text. */
  lemma ClassifyHasText(lines: seq<Line>, medianH: real)
    requires forall k :: 0 <= k < |lines| ==> lines[k].text != ""
    ensures HasText(Classify(lines, medianH))
  {
  }

  predicate LinesHaveTextIn(pageLines: seq<seq<Line>>) {
    forall j, k :: 0 <= j < |pageLines| && 0 <= k < |pageLines[j]| ==> pageLines[j][k].text != ""
  }

  lemma PagesHaveText(ocrPages: seq<seq<OcrToken>>)
    ensures LinesHaveTextIn(PageLinesOf(ocrPages))
  {
    var pageLines: seq<seq<Line>> := PageLinesOf(ocrPages);
    forall j: int, k: int | 0 <= j < |pageLines| && 0 <= k < |pageLines[j]| ensures pageLines[j][k].text != "" {
      LinesHaveText(ocrPages[j]);
    }
  }

  /** With every line carrying text, one section is closed per heading line, each with a title. */
  lemma ClosedSectionsCount(pageLines: seq<seq<Line>>, minLen: int)
    requires LinesHaveTextIn(pageLines)
    ensures var closed := ClosedSections(pageLines, minLen);
      |closed| == HeadsIn(Document(pageLines, GlobalMedian(pageLines)), |pageLines|) &&
      forall k :: 0 <= k < |closed| ==> closed[k].title != ""
  {
    var doc := Document(pageLines, GlobalMedian(pageLines));
    forall j | 0 <= j < |doc| ensures HasText(doc[j]) {
      ClassifyHasText(pageLines[j], GlobalMedian(pageLines));
    }
    OneSectionPerHeading(doc, minLen);
    var st := Pages(doc, |doc|, minLen);
    PagesCounted(doc, |doc|, minLen);
    ClosedKeepsAll(st.stack, None, minLen);
    var closed := ClosedSections(pageLines, minLen);
    forall k | 0 <= k < |closed| ensures closed[k].title != "" {
      assert closed[k] in closed;
    }
  }

  /**
   * `build_sections` emits one section per heading line of the document, each with a non-empty
   * title, a level 1..4 and a span `page_from <= page_to` within the document.
   */
  lemma SectionsShape(reading: Reading, ocrPages: seq<seq<OcrToken>>, minLen: int)
    ensures var pageLines := PageLinesOf(ocrPages);
      var r := Sections(reading, ocrPages, minLen);
      |r| == HeadsIn(Document(pageLines, GlobalMedian(pageLines)), |ocrPages|) &&
      forall k :: 0 <= k < |r| ==> SecOk(r[k], |ocrPages|) && r[k].title != ""
  {
    var pageLines := PageLinesOf(ocrPages);
    var closed := ClosedSections(pageLines, minLen);
    var r := Sections(reading, ocrPages, minLen);
    assert |pageLines| == |ocrPages|;
    assert |closed| == HeadsIn(Document(pageLines, GlobalMedian(pageLines)), |pageLines|) &&
      forall k :: 0 <= k < |closed| ==> closed[k].title != "" by {
      PagesHaveText(ocrPages);
      ClosedSectionsCount(pageLines, minLen);
    }
    assert |r| == |closed|;
    forall k | 0 <= k < |r| ensures SecOk(r[k], |ocrPages|) && r[k].title != "" {
      assert closed[k] in closed;
      assert r[k] == Finished(reading, closed[k], pageLines, GlobalMedian(pageLines));
    }
  }

  // ---------------------------------------------------------------------------
  // What the paragraphs of a section hold
  // ---------------------------------------------------------------------------

  /** The text a run of body lines leaves in `content`: each line's text and a newline. */
  function BodyText(lines: seq<Line>): string {
    if lines == [] then "" else BodyText(lines[..|lines| - 1]) + lines[|lines| - 1].text + "\n"
  }

  /** Text that is non-empty and neither starts nor ends with whitespace, as every line's text is. */
  predicate Trimmed(s: string) {
    s != [] && !IsSpace(s[0]) && !IsSpace(s[|s| - 1])
  }

  predicate PageTrimmed(page: seq<Classified>) {
    forall i :: 0 <= i < |page| ==> Trimmed(page[i].line.text)
  }

  predicate DocTrimmed(doc: seq<seq<Classified>>) {
    forall j {:trigger PageTrimmed(doc[j])} :: 0 <= j < |doc| ==> PageTrimmed(doc[j])
  }

  /** `text` is the text of a line of `page`. */
  predicate LineOf(text: string, page: seq<Classified>) {
    exists i :: 0 <= i < |page| && page[i].line.text == text
  }

  /**
   * A section traced back to the document: its content is the text of the lines in its
   * body, each trimmed, and its title is the text of a line of its first page.
   */
  predicate Traced(sec: Section, doc: seq<seq<Classified>>) {
    sec.content == BodyText(sec.body) &&
    (forall i :: 0 <= i < |sec.body| ==> Trimmed(sec.body[i].text)) &&
    1 <= sec.pageFrom <= |doc| && LineOf(sec.title, doc[sec.pageFrom - 1])
  }

  predicate AllTraced(st: State, doc: seq<seq<Classified>>) {
    (forall sec :: sec in st.stack ==> Traced(sec, doc)) &&
    (forall sec :: sec in st.sections ==> Traced(sec, doc))
  }

  lemma {:induction false} ClosedTraced(popped: seq<Section>, stamp: Option<int>, minLen: int, doc: seq<seq<Classified>>)
    requires forall sec :: sec in popped ==> Traced(sec, doc)
    ensures forall sec :: sec in Closed(popped, stamp, minLen) ==> Traced(sec, doc)
    decreases |popped|
  {
    if popped != [] {
      var front, top := popped[..|popped| - 1], popped[|popped| - 1];
      assert forall sec :: sec in front ==> sec in popped;
      ClosedTraced(front, stamp, minLen, doc);
      assert top in popped;
    }
  }

  lemma CloseToTraced(st: State, level: int, p: int, minLen: int, doc: seq<seq<Classified>>)
    requires AllTraced(st, doc)
    ensures AllTraced(CloseTo(st, level, p, minLen), doc)
  {
    var d := KeptDepth(st.stack, level);
    assert forall sec :: sec in st.stack[d..] ==> sec in st.stack;
    assert forall sec :: sec in st.stack[..d] ==> sec in st.stack;
    ClosedTraced(st.stack[d..], Some(p), minLen, doc);
  }

  /** Line `n` of page `pi` keeps every section traced. */
  lemma StepTraced(st: State, doc: seq<seq<Classified>>, pi: nat, n: nat, minLen: int)
    requires pi < |doc| && n < |doc[pi]| && DocTrimmed(doc) && AllTraced(st, doc)
    ensures AllTraced(Step(st, doc[pi][n], pi, minLen), doc)
  {
    var c := doc[pi][n];
    if c.verdict.isHead {
      OpenTraced(st, doc, pi, n, minLen);
    } else {
      assert PageTrimmed(doc[pi]);
      AddBodyTraced(st, c.line, doc);
    }
  }

  /** A heading opens a section whose title is that line of page `pi`. */
  lemma OpenTraced(st: State, doc: seq<seq<Classified>>, pi: nat, n: nat, minLen: int)
    requires pi < |doc| && n < |doc[pi]| && AllTraced(st, doc)
    ensures AllTraced(OpenSection(st, doc[pi][n].line.text, doc[pi][n].verdict, pi, minLen), doc)
  {
    var c := doc[pi][n];
    var cl := CloseTo(st, c.verdict.level, pi + 1, minLen);
    CloseToTraced(st, c.verdict.level, pi + 1, minLen, doc);
    var r := OpenSection(st, c.line.text, c.verdict, pi, minLen);
    var sec := r.stack[|r.stack| - 1];
    assert r.stack == cl.stack + [sec];
    assert doc[pi][n].line.text == sec.title;
  }

  /** A body line of trimmed text keeps the top section traced. */
  lemma AddBodyTraced(st: State, ln: Line, doc: seq<seq<Classified>>)
    requires Trimmed(ln.text) && AllTraced(st, doc)
    ensures AllTraced(AddBody(st, ln), doc)
  {
    if st.stack != [] {
      var m := |st.stack|;
      var top := st.stack[m - 1];
      assert top in st.stack;
      BodyTextSnoc(top.body, ln);
      var top' := top.(content := top.content + ln.text + "\n", body := top.body + [ln]);
      assert Traced(top', doc);
      var r := AddBody(st, ln);
      forall sec | sec in r.stack ensures Traced(sec, doc) {
        var i :| 0 <= i < m && r.stack[i] == sec;
        if i < m - 1 {
          assert st.stack[i] in st.stack;
        }
      }
    }
  }

  lemma PageStepsTraced(st: State, doc: seq<seq<Classified>>, pi: nat, n: nat, minLen: int)
    requires pi < |doc| && n <= |doc[pi]| && DocTrimmed(doc) && AllTraced(st, doc)
    ensures AllTraced(PageSteps(st, doc[pi], n, pi, minLen), doc)
  {
    var cs := doc[pi];
    forall s, i | 0 <= i < |cs| && AllTraced(s, doc) ensures AllTraced(Step(s, cs[i], pi, minLen), doc) {
      StepTraced(s, doc, pi, i, minLen);
    }
    PageStepsKeep((s: State, k: nat) => AllTraced(s, doc), st, cs, n, pi, minLen);
  }

  lemma StampPageTraced(st: State, p: int, doc: seq<seq<Classified>>)
    requires AllTraced(st, doc)
    ensures AllTraced(st.(stack := StampPage(st.stack, p)), doc)
  {
    var r := StampPage(st.stack, p);
    forall sec | sec in r ensures Traced(sec, doc) {
      var k :| 0 <= k < |r| && r[k] == sec;
      assert st.stack[k] in st.stack;
    }
  }

  /** After `k` pages every section, open or closed, is traced back to the document. */
  lemma PagesTraced(doc: seq<seq<Classified>>, k: nat, minLen: int)
    requires k <= |doc| && DocTrimmed(doc)
    ensures AllTraced(Pages(doc, k, minLen), doc)
  {
    forall s, j | 0 <= j < |doc| && AllTraced(s, doc) ensures AllTraced(ProcessPage(s, doc[j], j, minLen), doc) {
      ProcessPageTraced(s, doc, j, minLen);
    }
    PagesKeep((s: State, j: nat) => AllTraced(s, doc), doc, k, minLen);
  }

  /** A whole page, stamp included, keeps every section traced. */
  lemma ProcessPageTraced(st: State, doc: seq<seq<Classified>>, pi: nat, minLen: int)
    requires pi < |doc| && DocTrimmed(doc) && AllTraced(st, doc)
    ensures AllTraced(ProcessPage(st, doc[pi], pi, minLen), doc)
  {
    PageStepsTraced(st, doc, pi, |doc[pi]|, minLen);
    StampPageTraced(PageSteps(st, doc[pi], |doc[pi]|, pi, minLen), pi + 1, doc);
  }

  /** Every line `_group_tokens_to_lines` returns has trimmed text. */
  lemma LinesTrimmed(page: seq<OcrToken>)
    ensures forall k :: 0 <= k < |LinesOf(page)| ==> Trimmed(LinesOf(page)[k].text)
  {
    var lines := LinesOf(page);
    LinesHaveText(page);
    LinesOfGroups(page);
    forall k | 0 <= k < |lines| ensures Trimmed(lines[k].text) {
      var g := LineGroups(page)[k];
      var xs := SortBy(g, XKey);
      assert lines[k].text == Strip(Join(" ", Texts(xs)));
    }
  }

  lemma DocumentTrimmed(ocrPages: seq<seq<OcrToken>>)
    ensures var pageLines := PageLinesOf(ocrPages); DocTrimmed(Document(pageLines, GlobalMedian(pageLines)))
  {
    forall j | 0 <= j < |ocrPages| ensures forall k :: 0 <= k < |LinesOf(ocrPages[j])| ==> Trimmed(LinesOf(ocrPages[j])[k].text) {
      LinesTrimmed(ocrPages[j]);
    }
  }

  /** Every closed section is traced back to the document. */
  lemma ClosedSectionsTraced(ocrPages: seq<seq<OcrToken>>, minLen: int)
    ensures var pageLines := PageLinesOf(ocrPages);
      forall sec :: sec in ClosedSections(pageLines, minLen) ==> Traced(sec, Document(pageLines, GlobalMedian(pageLines)))
  {
    var pageLines := PageLinesOf(ocrPages);
    var doc := Document(pageLines, GlobalMedian(pageLines));
    DocumentTrimmed(ocrPages);
    PagesTraced(doc, |doc|, minLen);
    ClosedTraced(Pages(doc, |doc|, minLen).stack, None, minLen, doc);
  }

  lemma {:induction false} FlattenHolds<T>(gs: seq<seq<T>>, m: nat, i: nat)
    requires m < |gs| && i < |gs[m]|
    ensures gs[m][i] in Flatten(gs)
    decreases |gs|
  {
    var init := gs[..|gs| - 1];
    if m < |gs| - 1 {
      assert init[m] == gs[m];
      FlattenHolds(init, m, i);
    }
  }

  /** A line of one of the pages `from..to` has its stripped text among those of the span. */
  lemma SpanHoldsLine(pageLines: seq<seq<Line>>, from: int, to: int, j: int, i: int)
    requires 1 <= from <= to <= |pageLines| && from - 1 <= j < to && 0 <= i < |pageLines[j]|
    ensures LineText(pageLines[j][i]) in StrippedTexts(SpanLines(pageLines, from, to))
  {
    var gs := pageLines[from - 1..to];
    assert gs[j - (from - 1)] == pageLines[j];
    FlattenHolds(gs, j - (from - 1), i);
    var span := SpanLines(pageLines, from, to);
    var q :| 0 <= q < |span| && span[q] == pageLines[j][i];
    assert StrippedTexts(span)[q] == LineText(pageLines[j][i]);
  }

  /** The span of a traced section holds its heading line, and its paragraphs hold the whole span. */
  lemma SpanHoldsTitle(ocrPages: seq<seq<OcrToken>>, sec: Section)
    requires var pageLines := PageLinesOf(ocrPages);
      SecOk(sec, |pageLines|) && Traced(sec, Document(pageLines, GlobalMedian(pageLines)))
    ensures var pageLines := PageLinesOf(ocrPages);
      var span := SpanLines(pageLines, sec.pageFrom, sec.pageTo);
      sec.title in StrippedTexts(span) &&
      Join("\n", Paragraphs(span, GlobalMedian(pageLines))) == Join("\n", StrippedTexts(span))
  {
    var pageLines := PageLinesOf(ocrPages);
    TitleInSpan(ocrPages, sec);
    ParagraphsKeepLines(SpanLines(pageLines, sec.pageFrom, sec.pageTo), GlobalMedian(pageLines));
  }

  /** A traced section's title is the stripped text of a line of its first page. */
  lemma TitleInSpan(ocrPages: seq<seq<OcrToken>>, sec: Section)
    requires var pageLines := PageLinesOf(ocrPages);
      SecOk(sec, |pageLines|) && Traced(sec, Document(pageLines, GlobalMedian(pageLines)))
    ensures sec.title in StrippedTexts(SpanLines(PageLinesOf(ocrPages), sec.pageFrom, sec.pageTo))
  {
    var pageLines := PageLinesOf(ocrPages);
    TitleOnFirstPage(ocrPages, pageLines, GlobalMedian(pageLines), sec);
  }

  lemma TitleOnFirstPage(ocrPages: seq<seq<OcrToken>>, pageLines: seq<seq<Line>>, medianH: real, sec: Section)
    requires pageLines == PageLinesOf(ocrPages)
    requires SecOk(sec, |pageLines|) && Traced(sec, Document(pageLines, medianH))
    ensures sec.title in StrippedTexts(SpanLines(pageLines, sec.pageFrom, sec.pageTo))
  {
    var f := sec.pageFrom - 1;
    var lines := pageLines[f];
    var page := Document(pageLines, medianH)[f];
    assert LineOf(sec.title, page);
    var i :| 0 <= i < |page| && page[i].line.text == sec.title;
    ClassifyLine(lines, medianH, i);
    assert lines[i].text == sec.title && lines == LinesOf(ocrPages[f]);
    LinesTrimmed(ocrPages[f]);
    assert Trimmed(lines[i].text);
    StripOfTrimmed(lines[i].text);
    assert LineText(lines[i]) == sec.title;
    SpanHoldsLine(pageLines, sec.pageFrom, sec.pageTo, f, i);
  }

  lemma ClassifyLine(lines: seq<Line>, medianH: real, i: nat)
    requires i < |lines|
    ensures Classify(lines, medianH)[i].line == lines[i]
  {
  }


  /**
   * As written, a section's paragraphs come from every line of its pages: joined by newlines
   * they are the stripped texts of all those lines, its own heading line among them, and
   * sections on the same pages get the same paragraphs.
   */
  lemma SpanParagraphsHoldTitle(ocrPages: seq<seq<OcrToken>>, minLen: int)
    ensures var r := Sections(AsWritten, ocrPages, minLen);
      forall k :: 0 <= k < |r| ==> SecOk(r[k], |PageLinesOf(ocrPages)|)
    ensures var pageLines, r := PageLinesOf(ocrPages), Sections(AsWritten, ocrPages, minLen);
      forall k :: 0 <= k < |r| ==>
        var span := SpanLines(pageLines, r[k].pageFrom, r[k].pageTo);
        r[k].title in StrippedTexts(span) && Join("\n", r[k].paragraphs) == Join("\n", StrippedTexts(span))
    ensures var r := Sections(AsWritten, ocrPages, minLen);
      forall j, k :: 0 <= j < |r| && 0 <= k < |r| && r[j].pageFrom == r[k].pageFrom && r[j].pageTo == r[k].pageTo ==>
        r[j].paragraphs == r[k].paragraphs
  {
    var pageLines := PageLinesOf(ocrPages);
    var medianH := GlobalMedian(pageLines);
    var closed := ClosedSections(pageLines, minLen);
    var r := Sections(AsWritten, ocrPages, minLen);
    SectionsShape(AsWritten, ocrPages, minLen);
    ClosedSectionsTraced(ocrPages, minLen);
    forall k | 0 <= k < |r|
      ensures var span := SpanLines(pageLines, r[k].pageFrom, r[k].pageTo);
        r[k].title in StrippedTexts(span) && Join("\n", r[k].paragraphs) == Join("\n", StrippedTexts(span))
    {
      assert closed[k] in closed;
      FinishedHoldsTitle(ocrPages, closed[k], r[k]);
    }
    SameSpanSameParagraphs(ocrPages, minLen);
  }

  /** One section finished as written: its paragraphs and title come from its span. */
  lemma FinishedHoldsTitle(ocrPages: seq<seq<OcrToken>>, c: Section, s: Section)
    requires var pageLines := PageLinesOf(ocrPages);
      SecOk(c, |pageLines|) && Traced(c, Document(pageLines, GlobalMedian(pageLines))) &&
      s == Finished(AsWritten, c, pageLines, GlobalMedian(pageLines))
    ensures var span := SpanLines(PageLinesOf(ocrPages), s.pageFrom, s.pageTo);
      s.title in StrippedTexts(span) && Join("\n", s.paragraphs) == Join("\n", StrippedTexts(span))
  {
    SpanHoldsTitle(ocrPages, c);
  }

  /** As written, two sections spanning the same pages get the same paragraphs. */
  lemma SameSpanSameParagraphs(ocrPages: seq<seq<OcrToken>>, minLen: int)
    ensures var r := Sections(AsWritten, ocrPages, minLen);
      forall j, k :: 0 <= j < |r| && 0 <= k < |r| && r[j].pageFrom == r[k].pageFrom && r[j].pageTo == r[k].pageTo ==>
        r[j].paragraphs == r[k].paragraphs
  {
    var pageLines := PageLinesOf(ocrPages);
    var medianH := GlobalMedian(pageLines);
    var closed := ClosedSections(pageLines, minLen);
    var r := Sections(AsWritten, ocrPages, minLen);
    forall j, k | 0 <= j < |r| && 0 <= k < |r| && r[j].pageFrom == r[k].pageFrom && r[j].pageTo == r[k].pageTo
      ensures r[j].paragraphs == r[k].paragraphs
    {
      assert r[j] == Finished(AsWritten, closed[j], pageLines, medianH);
      assert r[k] == Finished(AsWritten, closed[k], pageLines, medianH);
    }
  }

  lemma BodyTextSnoc(init: seq<Line>, l: Line)
    ensures BodyText(init + [l]) == BodyText(init) + l.text + "\n"
  {
    assert (init + [l])[..|init|] == init;
  }


  /** Body lines of trimmed text leave their texts joined by newlines, and a final newline. */
  lemma {:induction false} BodyTextIsJoin(body: seq<Line>)
    requires body != [] && forall i :: 0 <= i < |body| ==> Trimmed(body[i].text)
    ensures BodyText(body) == Join("\n", StrippedTexts(body)) + "\n"
    ensures Trimmed(Join("\n", StrippedTexts(body)))
    decreases |body|
  {
    var init, l := body[..|body| - 1], body[|body| - 1];
    assert body == init + [l];
    assert Trimmed(l.text);
    StripOfTrimmed(l.text);
    StrippedTextsSnoc(init, l);
    BodyTextSnoc(init, l);
    if init == [] {
      assert StrippedTexts(body) == [l.text];
    } else {
      var j0 := Join("\n", StrippedTexts(init));
      BodyTextIsJoin(init);
      JoinAppend("\n", StrippedTexts(init), [l.text]);
      JoinLine(j0, l.text);
    }
  }

  /** Two trimmed texts joined by a newline are trimmed. */
  lemma JoinLine(a: string, b: string)
    requires Trimmed(a) && Trimmed(b)
    ensures Trimmed(a + "\n" + b)
  {
    var j := a + "\n" + b;
    assert j[0] == a[0] && j[|j| - 1] == b[|b| - 1];
  }

  /** The content of trimmed body lines, right-stripped, is their texts joined by newlines. */
  lemma ContentIsJoin(body: seq<Line>)
    requires body != [] && forall i :: 0 <= i < |body| ==> Trimmed(body[i].text)
    ensures RStrip(BodyText(body)) == Join("\n", StrippedTexts(body)) != ""
  {
    BodyTextIsJoin(body);
    RStripNewline(BodyText(body), Join("\n", StrippedTexts(body)));
  }

  /** A trimmed text plus a newline right-strips to the text. */
  lemma RStripNewline(c: string, j: string)
    requires c == j + "\n" && Trimmed(j)
    ensures RStrip(c) == j != ""
  {
    assert c[..|j|] == j;
  }

  /**
   * As intended, a section's paragraphs re-segment its own content: joined by newlines they
   * give back the content, and there are none exactly when the content is empty.
   */
  lemma ParagraphsResegmentContent(ocrPages: seq<seq<OcrToken>>, minLen: int)
    ensures var r := Sections(AsIntended, ocrPages, minLen);
      forall k :: 0 <= k < |r| ==>
        Join("\n", r[k].paragraphs) == r[k].content && (r[k].paragraphs == [] <==> r[k].content == "")
  {
    var pageLines := PageLinesOf(ocrPages);
    var medianH := GlobalMedian(pageLines);
    var closed := ClosedSections(pageLines, minLen);
    var r := Sections(AsIntended, ocrPages, minLen);
    ClosedSectionsTraced(ocrPages, minLen);
    forall k | 0 <= k < |r|
      ensures Join("\n", r[k].paragraphs) == r[k].content && (r[k].paragraphs == [] <==> r[k].content == "")
    {
      var sec := closed[k];
      assert sec in closed;
      assert r[k] == Finished(AsIntended, sec, pageLines, medianH);
      ParagraphsKeepLines(sec.body, medianH);
      if sec.body != [] {
        ContentIsJoin(sec.body);
      }
    }
  }

  /** The two readings build the same sections, apart from their paragraphs. */
  lemma ReadingsDifferInParagraphs(ocrPages: seq<seq<OcrToken>>, minLen: int)
    ensures var w, i := Sections(AsWritten, ocrPages, minLen), Sections(AsIntended, ocrPages, minLen);
      |w| == |i| && forall k :: 0 <= k < |w| ==> w[k].(paragraphs := []) == i[k].(paragraphs := [])
  {
  }

  function Titles(secs: seq<Section>): (r: seq<string>)
    ensures |r| == |secs| && forall k :: 0 <= k < |secs| ==> r[k] == secs[k].title
  {
    seq(|secs|, k requires 0 <= k < |secs| => secs[k].title)
  }

  /** A line with the given text, at the top of the page and of no height. */
  function Plain(text: string): Line {
    Line(text, 0.0, 0.0, 0.0, 0.0, [], 0.0, 0.0)
  }

  /** A heading line without numbering at `level`, as the visual rule classifies it. */
  function Head(text: string, level: int): Classified {
    Classified(Plain(text), Heading(true, level, None))
  }

  /** A freshly opened section on page 1, numbered by the counter. */
  function Fresh(text: string, level: int, counter: nat): Section {
    Section(SectionId(None, counter), text, level, None, "", [], 1, 1, [])
  }

  lemma ExampleNests(a: string, b: string, c: string, d: string, minLen: int)
    ensures PageSteps(Start, [Head(a, 1), Head(b, 2), Head(c, 2), Head(d, 1)], 2, 0, minLen) ==
      State([Fresh(a, 1, 1), Fresh(b, 2, 2)], [], 3)
  {
    var cs := [Head(a, 1), Head(b, 2), Head(c, 2), Head(d, 1)];
    var s1 := State([Fresh(a, 1, 1)], [], 2);
    assert PageSteps(Start, cs, 1, 0, minLen) == s1 by {
      assert PageSteps(Start, cs, 1, 0, minLen) == OpenSection(Start, a, cs[0].verdict, 0, minLen);
      DeeperHeadingNests(Start, a, cs[0].verdict, 0, minLen);
    }
    var r := OpenSection(s1, b, cs[1].verdict, 0, minLen);
    assert PageSteps(Start, cs, 2, 0, minLen) == r;
    DeeperHeadingNests(s1, b, cs[1].verdict, 0, minLen);
    assert r.stack == r.stack[..1] + [r.stack[1]];
  }

  lemma ExampleSibling(a: string, b: string, c: string, d: string, minLen: int)
    requires b != ""
    ensures PageSteps(Start, [Head(a, 1), Head(b, 2), Head(c, 2), Head(d, 1)], 3, 0, minLen) ==
      State([Fresh(a, 1, 1), Fresh(c, 2, 3)], [Fresh(b, 2, 2)], 4)
  {
    var cs := [Head(a, 1), Head(b, 2), Head(c, 2), Head(d, 1)];
    var s2 := State([Fresh(a, 1, 1), Fresh(b, 2, 2)], [], 3);
    ExampleNests(a, b, c, d, minLen);
    var r := OpenSection(s2, c, cs[2].verdict, 0, minLen);
    assert PageSteps(Start, cs, 3, 0, minLen) == r;
    SameLevelClosesSibling(s2, c, cs[2].verdict, 0, minLen);
    assert r.stack[0] == r.stack[..1][0];
    assert r.stack == [Fresh(a, 1, 1), Fresh(c, 2, 3)];
  }

  lemma ExampleCloses(a: string, b: string, c: string, d: string, minLen: int)
    requires a != "" && b != "" && c != ""
    ensures PageSteps(Start, [Head(a, 1), Head(b, 2), Head(c, 2), Head(d, 1)], 4, 0, minLen) ==
      State([Fresh(d, 1, 4)], [Fresh(b, 2, 2), Fresh(c, 2, 3), Fresh(a, 1, 1)], 5)
  {
    var cs := [Head(a, 1), Head(b, 2), Head(c, 2), Head(d, 1)];
    var sa, sc := Fresh(a, 1, 1), Fresh(c, 2, 3);
    var s3 := State([sa, sc], [Fresh(b, 2, 2)], 4);
    assert PageSteps(Start, cs, 4, 0, minLen) == OpenSection(s3, d, cs[3].verdict, 0, minLen) by {
      ExampleSibling(a, b, c, d, minLen);
    }
    assert CloseTo(s3, 1, 1, minLen) == State([], [Fresh(b, 2, 2), sc, sa], 4) by {
      CloseTwo(sa, sc, [Fresh(b, 2, 2)], minLen);
    }
  }

  /** A level-1 heading on page 1 closes a level-1 section with a level-2 one above it: the upper first. */
  lemma CloseTwo(sa: Section, sc: Section, done: seq<Section>, minLen: int)
    requires sa.level == 1 && sc.level == 2 && sa.title != "" && sc.title != ""
    requires sa.pageTo == 1 && sc.pageTo == 1
    ensures CloseTo(State([sa, sc], done, 4), 1, 1, minLen) == State([], done + [sc, sa], 4)
  {
    assert KeptDepth([sa, sc], 1) == 0 by {
      assert [sa, sc][..1] == [sa] && [sa, sc][..1][..0] == [];
    }
    ClosedCons(sa, [sc], Some(1), minLen);
    assert [sa] + [sc] == [sa, sc];
    assert [sc][..0] == [];
    assert [sa, sc][0..] == [sa, sc];
  }

  lemma OnePage(cs: seq<Classified>, minLen: int)
    ensures var r := PageSteps(Start, cs, |cs|, 0, minLen);
      Pages([cs], 1, minLen) == r.(stack := StampPage(r.stack, 1))
  {
    assert [cs][0] == cs;
  }

  /**
   * Whatever `min_content_len` is, headings "a", "b", "c", "d" of levels 1, 2, 2, 1 on one
   * page give four sections in closing order: "b" (closed by its sibling), then "c" and "a"
   * (closed by "d"), then "d" at the end.
   */
  lemma SiblingsExample(a: string, b: string, c: string, d: string, minLen: int)
    requires a != "" && b != "" && c != "" && d != ""
    ensures Titles(CloseAll(Pages([[Head(a, 1), Head(b, 2), Head(c, 2), Head(d, 1)]], 1, minLen), minLen).sections) ==
      [b, c, a, d]
  {
    var cs := [Head(a, 1), Head(b, 2), Head(c, 2), Head(d, 1)];
    var fin := State([Fresh(d, 1, 4)], [Fresh(b, 2, 2), Fresh(c, 2, 3), Fresh(a, 1, 1)], 5);
    assert Pages([cs], 1, minLen) == fin by {
      OnePage(cs, minLen);
      ExampleCloses(a, b, c, d, minLen);
      assert StampPage([Fresh(d, 1, 4)], 1) == [Fresh(d, 1, 4)];
    }
    var out := [Fresh(b, 2, 2), Fresh(c, 2, 3), Fresh(a, 1, 1), Fresh(d, 1, 4)];
    assert CloseAll(fin, minLen).sections == out by {
      assert Closed([Fresh(d, 1, 4)], None, minLen) == [Fresh(d, 1, 4)];
    }
    assert Titles(out) == [b, c, a, d];
  }

  // ---------------------------------------------------------------------------
  // `build_sections` as it runs: loops over pages and lines, the stack and the
  // section list as local variables, `close_to_level` as a loop of its own.
  // ---------------------------------------------------------------------------

  /** The emission of one popped section, as a function value. */
  function EmitStamped(stamp: Option<int>, minLen: int): Section -> seq<Section> {
    sec => Emit(Stamped(sec, stamp), minLen)
  }

  lemma {:induction false} ClosedIsRevFlatMap(popped: seq<Section>, stamp: Option<int>, minLen: int)
    ensures Closed(popped, stamp, minLen) == RevFlatMap(popped, EmitStamped(stamp, minLen))
    decreases |popped|
  {
    if popped != [] {
      ClosedIsRevFlatMap(popped[..|popped| - 1], stamp, minLen);
    }
  }

  lemma ClosedCons(x: Section, popped: seq<Section>, stamp: Option<int>, minLen: int)
    ensures Closed([x] + popped, stamp, minLen) == Closed(popped, stamp, minLen) + Emit(Stamped(x, stamp), minLen)
  {
    ClosedIsRevFlatMap([x] + popped, stamp, minLen);
    ClosedIsRevFlatMap(popped, stamp, minLen);
    RevFlatMapCons(x, popped, EmitStamped(stamp, minLen));
  }

  /** Popping one more section, from below the ones already popped, appends it at the end. */
  lemma PopStep(stack0: seq<Section>, n: nat, sections0: seq<Section>, stamp: Option<int>, minLen: int)
    requires 0 < n <= |stack0|
    ensures sections0 + Closed(stack0[n - 1..], stamp, minLen) ==
      sections0 + Closed(stack0[n..], stamp, minLen) + Emit(Stamped(stack0[n - 1], stamp), minLen)
  {
    var rest := stack0[n..];
    assert stack0[n - 1..] == [stack0[n - 1]] + rest;
    ClosedCons(stack0[n - 1], rest, stamp, minLen);
    var c, e := Closed(rest, stamp, minLen), Emit(Stamped(stack0[n - 1], stamp), minLen);
    assert sections0 + (c + e) == sections0 + c + e;
  }


  /** `close_to_level(level, page_idx)`. */
  method CloseToLevel(stack0: seq<Section>, sections0: seq<Section>, level: int, pageIdx: nat, minLen: int)
    returns (stack: seq<Section>, sections: seq<Section>)
    ensures var c := CloseTo(State(stack0, sections0, 0), level, pageIdx + 1, minLen);
      stack == c.stack && sections == c.sections
  {
    stack, sections := stack0, sections0;
    ghost var d := KeptDepth(stack0, level);
    while stack != [] && stack[|stack| - 1].level >= level
      invariant d <= |stack| <= |stack0| && stack == stack0[..|stack|]
      invariant sections == sections0 + Closed(stack0[|stack|..], Some(pageIdx + 1), minLen)
      decreases |stack|
    {
      var n := |stack|;
      var sec := stack[n - 1];
      assert sec == stack0[n - 1] && n - 1 >= d;
      stack := stack[..n - 1];
      sec := sec.(pageTo := pageIdx + 1);
      PopStep(stack0, n, sections0, Some(pageIdx + 1), minLen);
      assert Emit(Stamped(stack0[n - 1], Some(pageIdx + 1)), minLen) == if Keep(sec, minLen) then [sec] else [];
      if StrippedLength(sec.content) >= minLen || sec.title != "" {
        sections := sections + [sec];
      }
    }
    assert |stack| == d;
  }

  /** The final `while current_stack` loop: pops the rest, without stamping. */
  method CloseTails(stack0: seq<Section>, sections0: seq<Section>, minLen: int) returns (sections: seq<Section>)
    ensures sections == CloseAll(State(stack0, sections0, 0), minLen).sections
  {
    var stack := stack0;
    sections := sections0;
    while stack != []
      invariant |stack| <= |stack0| && stack == stack0[..|stack|]
      invariant sections == sections0 + Closed(stack0[|stack|..], None, minLen)
      decreases |stack|
    {
      var n := |stack|;
      var sec := stack[n - 1];
      stack := stack[..n - 1];
      PopStep(stack0, n, sections0, None, minLen);
      assert Emit(Stamped(stack0[n - 1], None), minLen) == if Keep(sec, minLen) then [sec] else [];
      if StrippedLength(sec.content) >= minLen || sec.title != "" {
        sections := sections + [sec];
      }
    }
    assert stack0[0..] == stack0;
  }

  /** The page-end loop: every open section now reaches page `pageNo`. */
  method StampOpen(stack0: seq<Section>, pageNo: int) returns (stack: seq<Section>)
    ensures stack == StampPage(stack0, pageNo)
  {
    stack := stack0;
    for k := 0 to |stack0|
      invariant |stack| == |stack0|
      invariant forall j :: 0 <= j < k ==> stack[j] == stack0[j].(pageTo := pageNo)
      invariant forall j :: k <= j < |stack0| ==> stack[j] == stack0[j]
    {
      stack := stack[k := stack[k].(pageTo := pageNo)];
    }
  }

  /** The body of the line loop, given the line and its verdict. */
  method HandleLine(stack0: seq<Section>, sections0: seq<Section>, fid0: nat, ln: Line, h: Heading, pi: nat, minLen: int)
    returns (stack: seq<Section>, sections: seq<Section>, fid: nat)
    ensures State(stack, sections, fid) == Step(State(stack0, sections0, fid0), Classified(ln, h), pi, minLen)
  {
    stack, sections, fid := stack0, sections0, fid0;
    if h.isHead {
      stack, sections := CloseToLevel(stack, sections, h.level, pi, minLen);
      var sec := Section(SectionId(h.numbering, fid), ln.text, h.level, h.numbering, "", [], pi + 1, pi + 1, []);
      stack := stack + [sec];
      fid := fid + 1;
    } else if stack != [] {
      var top := stack[|stack| - 1];
      stack := stack[..|stack| - 1] + [top.(content := top.content + ln.text + "\n", body := top.body + [ln])];
    }
  }

  /** The loop over the lines of page `pi`, each judged by `judge`. */
  method RunLines(stack0: seq<Section>, sections0: seq<Section>, fid0: nat, lines: seq<Line>, pi: nat,
                  medianH: real, minLen: int, judge: (string, real, real, real) -> Heading)
    returns (stack: seq<Section>, sections: seq<Section>, fid: nat)
    ensures State(stack, sections, fid) ==
      PageSteps(State(stack0, sections0, fid0), ClassifyWith(lines, medianH, judge), |lines|, pi, minLen)
  {
    ghost var cs := ClassifyWith(lines, medianH, judge);
    ghost var st0 := State(stack0, sections0, fid0);
    stack, sections, fid := stack0, sections0, fid0;
    for i := 0 to |lines|
      invariant State(stack, sections, fid) == PageSteps(st0, cs, i, pi, minLen)
    {
      var ln := lines[i];
      var yGap := FindGapAbove(i, lines);
      var h := judge(ln.text, ln.lineH, medianH, yGap);
      stack, sections, fid := HandleLine(stack, sections, fid, ln, h, pi, minLen);
    }
  }

  /** The lines of one page, then the page-end stamp. */
  method RunPage(stack0: seq<Section>, sections0: seq<Section>, fid0: nat, lines: seq<Line>, pi: nat,
                 medianH: real, minLen: int)
    returns (stack: seq<Section>, sections: seq<Section>, fid: nat)
    ensures State(stack, sections, fid) == ProcessPage(State(stack0, sections0, fid0), Classify(lines, medianH), pi, minLen)
  {
    stack, sections, fid := RunLines(stack0, sections0, fid0, lines, pi, medianH, minLen, LooksLikeHeading);
    stack := StampOpen(stack, pi + 1);
  }

  /** The loop over pages. */
  method RunPages(pageLines: seq<seq<Line>>, medianH: real, minLen: int)
    returns (stack: seq<Section>, sections: seq<Section>, fid: nat)
    ensures State(stack, sections, fid) == Pages(Document(pageLines, medianH), |pageLines|, minLen)
  {
    ghost var doc := Document(pageLines, medianH);
    stack, sections, fid := [], [], 1;
    for pi := 0 to |pageLines|
      invariant State(stack, sections, fid) == Pages(doc, pi, minLen)
    {
      stack, sections, fid := RunPage(stack, sections, fid, pageLines[pi], pi, medianH, minLen);
    }
  }

  lemma PageLinesSnoc(ocrPages: seq<seq<OcrToken>>, k: nat)
    requires k < |ocrPages|
    ensures PageLinesOf(ocrPages[..k + 1]) == PageLinesOf(ocrPages[..k]) + [LinesOf(ocrPages[k])]
  {
    MapSeqSnoc(ocrPages, k, LinesOf);
  }

  lemma AllHeightsSnoc(pageLines: seq<seq<Line>>, lines: seq<Line>)
    ensures AllHeights(pageLines + [lines]) == AllHeights(pageLines) + NonZeroHeights(lines)
  {
    assert (pageLines + [lines])[..|pageLines|] == pageLines;
  }

  /** The first loop of `build_sections`: the lines of every page and the non-zero line heights. */
  method CollectLines(ocrPages: seq<seq<OcrToken>>) returns (pageLines: seq<seq<Line>>, medianH: real)
    ensures pageLines == PageLinesOf(ocrPages)
    ensures medianH == GlobalMedian(pageLines)
  {
    pageLines := [];
    var heights: seq<real> := [];
    for k := 0 to |ocrPages|
      invariant pageLines == PageLinesOf(ocrPages[..k])
      invariant heights == AllHeights(pageLines)
    {
      var lines := GroupTokensToLines(ocrPages[k]);
      PageLinesSnoc(ocrPages, k);
      AllHeightsSnoc(pageLines, lines);
      pageLines := pageLines + [lines];
      heights := heights + NonZeroHeights(lines);
    }
    assert ocrPages[..|ocrPages|] == ocrPages;
    medianH := if heights == [] then 12.0 else Median(heights);
  }

  lemma FlattenSnoc<T>(gs: seq<seq<T>>, a: nat, b: nat)
    requires a <= b < |gs|
    ensures Flatten(gs[a..b + 1]) == Flatten(gs[a..b]) + gs[b]
  {
    assert gs[a..b + 1][..b - a] == gs[a..b];
  }

  /**
   * The closing pass over the sections: paragraphs from the lines of their pages (as written)
   * or from the lines of their content (as intended), content right-stripped.
   */
  method FinishSections(reading: Reading, closed: seq<Section>, pageLines: seq<seq<Line>>, medianH: real)
    returns (out: seq<Section>)
    requires forall sec :: sec in closed ==> SecOk(sec, |pageLines|)
    ensures |out| == |closed|
    ensures forall k :: 0 <= k < |closed| ==> out[k] == Finished(reading, closed[k], pageLines, medianH)
  {
    out := closed;
    for k := 0 to |closed|
      invariant |out| == |closed|
      invariant forall j :: 0 <= j < k ==> out[j] == Finished(reading, closed[j], pageLines, medianH)
      invariant forall j :: k <= j < |closed| ==> out[j] == closed[j]
    {
      var sec := out[k];
      assert sec in closed;
      var linesForSec: seq<Line> := [];
      if reading == AsWritten {
        for pi := sec.pageFrom - 1 to sec.pageTo
          invariant linesForSec == Flatten(pageLines[sec.pageFrom - 1..pi])
        {
          FlattenSnoc(pageLines, sec.pageFrom - 1, pi);
          linesForSec := linesForSec + pageLines[pi];
        }
      } else {
        linesForSec := sec.body;
      }
      var paragraphs := BuildParagraphs(linesForSec, medianH);
      out := out[k := sec.(paragraphs := paragraphs, content := RStrip(sec.content))];
    }
  }

  /** `build_sections(ocr_pages, min_content_len=minLen)`, its paragraph pass read as `reading`. */
  method BuildSections(reading: Reading, ocrPages: seq<seq<OcrToken>>, minLen: int) returns (sections: seq<Section>)
    ensures sections == Sections(reading, ocrPages, minLen)
  {
    var pageLines, medianH := CollectLines(ocrPages);
    var stack, closed, fid := RunPages(pageLines, medianH, minLen);
    closed := CloseTails(stack, closed, minLen);
    assert closed == ClosedSections(pageLines, minLen);
    sections := FinishSections(reading, closed, pageLines, medianH);
  }
}
