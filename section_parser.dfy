/**
 * Line assembly, heading classification, the section stack and the paragraph
 * split of src/section_parser.py.
 *
 * Coordinates and heights are exact reals. The two regular expressions are
 * explicit recognisers: `MatchNumbering` for the numbering pattern and
 * `IsSubpoint` for the sub-point pattern (see `SubpointClassAsWritten` for the
 * character class as it stands in the source).
 */
module SectionParser {
  import opened Text
  import opened Seqs
  import opened Sorting
  import ImageTools

  // ---------------------------------------------------------------------------
  // The numbering pattern: optional leading whitespace, then a Roman numeral and
  // a dot, or a number of up to four dot-separated parts and an optional dot;
  // then whitespace and a title of at least two characters (case-insensitive).
  // ---------------------------------------------------------------------------

  predicate IsRomanLetter(c: char) {
    c == 'I' || c == 'V' || c == 'X' || c == 'L' || c == 'C' || c == 'D' || c == 'M' ||
    c == 'i' || c == 'v' || c == 'x' || c == 'l' || c == 'c' || c == 'd' || c == 'm'
  }

  /** The end of the run of digits that starts at `i`. */
  function DigitsEnd(s: string, i: nat): (j: nat)
    requires i <= |s|
    ensures i <= j <= |s| && (forall k :: i <= k < j ==> IsDigit(s[k])) && (j == |s| || !IsDigit(s[j]))
    decreases |s| - i
  {
    if i < |s| && IsDigit(s[i]) then DigitsEnd(s, i + 1) else i
  }

  /** The end of the run of Roman-numeral letters that starts at `i`. */
  function RomanEnd(s: string, i: nat): (j: nat)
    requires i <= |s|
    ensures i <= j <= |s| && (forall k :: i <= k < j ==> IsRomanLetter(s[k])) && (j == |s| || !IsRomanLetter(s[j]))
    decreases |s| - i
  {
    if i < |s| && IsRomanLetter(s[i]) then RomanEnd(s, i + 1) else i
  }

  /** The end of the greedy repetition of "dot, digits" from `i`, at most `max` times. */
  function DotGroupsEnd(s: string, i: nat, max: nat): (j: nat)
    requires i <= |s|
    ensures i <= j <= |s|
    decreases max
  {
    if max > 0 && i + 1 < |s| && s[i] == '.' && IsDigit(s[i + 1]) then DotGroupsEnd(s, DigitsEnd(s, i + 1), max - 1)
    else i
  }

  /** The number of occurrences of `c` in `s` (Python's `s.count(c)`). */
  function CountChar(s: string, c: char): (n: nat)
    ensures n <= |s|
  {
    if s == [] then 0 else CountChar(s[..|s| - 1], c) + (if s[|s| - 1] == c then 1 else 0)
  }

  lemma {:induction false} CountCharAppend(a: string, b: string, c: char)
    ensures CountChar(a + b, c) == CountChar(a, c) + CountChar(b, c)
    decreases |b|
  {
    if b == [] {
      assert a + b == a;
    } else {
      assert (a + b)[..|a + b| - 1] == a + b[..|b| - 1];
      CountCharAppend(a, b[..|b| - 1], c);
    }
  }

  lemma {:induction false} CountCharNone(s: string, c: char)
    requires forall k :: 0 <= k < |s| ==> s[k] != c
    ensures CountChar(s, c) == 0
    decreases |s|
  {
    if s != [] {
      CountCharNone(s[..|s| - 1], c);
    }
  }

  /** A dotted number from `i` is made of digits and dots, and ends with a digit. */
  lemma {:induction false} DotGroupsChars(s: string, i: nat, max: nat)
    requires i <= |s|
    ensures forall k :: i <= k < DotGroupsEnd(s, i, max) ==> IsDigit(s[k]) || s[k] == '.'
    ensures i < DotGroupsEnd(s, i, max) ==> IsDigit(s[DotGroupsEnd(s, i, max) - 1])
    decreases max
  {
    if max > 0 && i + 1 < |s| && s[i] == '.' && IsDigit(s[i + 1]) {
      DotGroupsChars(s, DigitsEnd(s, i + 1), max - 1);
    }
  }

  /** A dotted number from `i` has no more dots than repetitions allowed. */
  lemma {:induction false} DotGroupsDots(s: string, i: nat, max: nat)
    requires i <= |s|
    ensures CountChar(s[i..DotGroupsEnd(s, i, max)], '.') <= max
    decreases max
  {
    var j := DotGroupsEnd(s, i, max);
    if max > 0 && i + 1 < |s| && s[i] == '.' && IsDigit(s[i + 1]) {
      var d := DigitsEnd(s, i + 1);
      DotGroupsDots(s, d, max - 1);
      DotDigitsCount(s, i, d);
      assert s[i..j] == s[i..d] + s[d..j];
      CountCharAppend(s[i..d], s[d..j], '.');
    } else {
      assert s[i..j] == [];
    }
  }

  /** A dot followed by digits holds one dot. */
  lemma DotDigitsCount(s: string, i: nat, d: nat)
    requires i < d <= |s| && s[i] == '.' && forall k :: i + 1 <= k < d ==> IsDigit(s[k])
    ensures CountChar(s[i..d], '.') == 1
  {
    var head, digits := [s[i]], s[i + 1..d];
    assert s[i..d] == head + digits;
    CountCharAppend(head, digits, '.');
    CountCharNone(digits, '.');
    assert head[..0] == [];
  }

  predicate NoNewline(s: string) { forall k :: 0 <= k < |s| ==> s[k] != '\n' }

  /**
   * Whitespace, then a title of at least two characters other than a newline up to
   * the end (`$` also matches before one final newline).
   */
  predicate TitleTail(rest: string) {
    exists j :: 1 <= j <= |rest| && AllSpace(rest[..j]) &&
      ((|rest| - j >= 2 && NoNewline(rest[j..])) ||
       (|rest| - j >= 3 && rest[|rest| - 1] == '\n' && NoNewline(rest[j..|rest| - 1])))
  }

  /** What the numbering pattern captures: the Roman letters, or the dotted number. */
  datatype Numbering = Roman(letters: string) | Numeric(number: string)

  /** The end of the number alternative: digits, then up to three groups of a dot and digits. */
  function NumberEnd(s: string): (e: nat)
    requires |s| > 0
    ensures e <= |s|
  {
    DotGroupsEnd(s, DigitsEnd(s, 0), 3)
  }

  /** After the number: an optional dot, then the title. */
  predicate NumberTail(s: string)
    requires |s| > 0
  {
    var e := NumberEnd(s);
    (e < |s| && s[e] == '.' && TitleTail(s[e + 1..])) || TitleTail(s[e..])
  }

  /** After the Roman letters: a dot, then the title. */
  predicate RomanTail(s: string) {
    var re := RomanEnd(s, 0);
    0 < re < |s| && s[re] == '.' && TitleTail(s[re + 1..])
  }

  /** `RE_NUM.match(t)`: the captured numbering, or None when the pattern does not match. */
  function MatchNumbering(t: string): (r: Option<Numbering>)
  {
    var s := LStrip(t);
    if RomanTail(s) then Some(Roman(s[..RomanEnd(s, 0)]))
    else if |s| > 0 && IsDigit(s[0]) && NumberTail(s) then Some(Numeric(s[..NumberEnd(s)]))
    else None
  }

  /** What a Roman match captures: the run of Roman letters at the head of the left-stripped text. */
  lemma RomanCapture(t: string)
    requires MatchNumbering(t).Some? && MatchNumbering(t).value.Roman?
    ensures var s := LStrip(t);
      0 < RomanEnd(s, 0) && MatchNumbering(t).value.letters == s[..RomanEnd(s, 0)]
  {
  }

  /** What a numeric match captures: the number at the head of the left-stripped text. */
  lemma NumericCapture(t: string)
    requires MatchNumbering(t).Some? && MatchNumbering(t).value.Numeric?
    ensures var s := LStrip(t);
      |s| > 0 && IsDigit(s[0]) && MatchNumbering(t).value.number == s[..NumberEnd(s)]
  {
  }

  /** A captured Roman numbering is a non-empty run of Roman-numeral letters. */
  lemma RomanNumberingShape(t: string)
    requires MatchNumbering(t).Some? && MatchNumbering(t).value.Roman?
    ensures var r := MatchNumbering(t).value.letters;
      |r| > 0 && forall k :: 0 <= k < |r| ==> IsRomanLetter(r[k])
  {
    RomanCapture(t);
  }

  /** The number at the head of a text that starts with a digit starts and ends with a digit, with digits and dots between. */
  lemma NumberShape(s: string)
    requires |s| > 0 && IsDigit(s[0])
    ensures var n := s[..NumberEnd(s)];
      |n| > 0 && IsDigit(n[0]) && IsDigit(n[|n| - 1]) && forall k :: 0 <= k < |n| ==> IsDigit(n[k]) || n[k] == '.'
  {
    var d := DigitsEnd(s, 0);
    DotGroupsChars(s, d, 3);
    var n := s[..NumberEnd(s)];
    assert forall k :: 0 <= k < |n| ==> n[k] == s[k];
  }

  /** A captured number starts and ends with a digit, and has only digits and dots in between. */
  lemma NumericNumberingShape(t: string)
    requires MatchNumbering(t).Some? && MatchNumbering(t).value.Numeric?
    ensures var n := MatchNumbering(t).value.number;
      |n| > 0 && IsDigit(n[0]) && IsDigit(n[|n| - 1]) && forall k :: 0 <= k < |n| ==> IsDigit(n[k]) || n[k] == '.'
  {
    NumericCapture(t);
    NumberShape(LStrip(t));
  }

  /** The number at the head of a text has at most three dots. */
  lemma NumberDots(s: string)
    requires |s| > 0
    ensures CountChar(s[..NumberEnd(s)], '.') <= 3
  {
    var d := DigitsEnd(s, 0);
    var e := DotGroupsEnd(s, d, 3);
    DotGroupsDots(s, d, 3);
    assert s[..e] == s[..d] + s[d..e];
    CountCharAppend(s[..d], s[d..e], '.');
    CountCharNone(s[..d], '.');
  }

  /** A numeric numbering has at most three dots. */
  lemma NumericNumberingDots(t: string)
    requires MatchNumbering(t).Some? && MatchNumbering(t).value.Numeric?
    ensures CountChar(MatchNumbering(t).value.number, '.') <= 3
  {
    NumericCapture(t);
    NumberDots(LStrip(t));
  }

  /** `_heading_level_from_num`. */
  function HeadingLevelFromNum(num: Option<string>, roman: Option<string>): (level: int)
    ensures 1 <= level <= 4
    ensures roman.Some? && roman.value != "" ==> level == 1
    ensures (roman.None? || roman.value == "") && num.Some? && num.value != "" && CountChar(num.value, '.') <= 3
      ==> level == 1 + CountChar(num.value, '.')
  {
    if roman.Some? && roman.value != "" then 1
    else if num.Some? && num.value != "" then (if 1 + CountChar(num.value, '.') < 4 then 1 + CountChar(num.value, '.') else 4)
    else 1
  }

  // ---------------------------------------------------------------------------
  // Upper-case ratio and the heading decision
  // ---------------------------------------------------------------------------

  function CountLetters(s: string): (n: nat)
    ensures n <= |s|
  {
    if s == [] then 0 else CountLetters(s[..|s| - 1]) + (if IsAlpha(s[|s| - 1]) then 1 else 0)
  }

  /** The letters equal to their own upper case. */
  function CountUpperLetters(s: string): (n: nat)
    ensures n <= CountLetters(s)
  {
    if s == [] then 0
    else CountUpperLetters(s[..|s| - 1]) + (if IsAlpha(s[|s| - 1]) && IsOwnUpper(s[|s| - 1]) then 1 else 0)
  }

  /** `_upper_ratio`: the share of upper-case letters among the letters, 0 without letters. */
  function UpperRatio(s: string): (r: real)
    ensures CountLetters(s) == 0 ==> r == 0.0
    ensures 0.0 <= r <= 1.0
  {
    var letters := CountLetters(s);
    if letters == 0 then 0.0 else CountUpperLetters(s) as real / letters as real
  }

  predicate AllLettersUpper(s: string) {
    forall k :: 0 <= k < |s| && IsAlpha(s[k]) ==> IsOwnUpper(s[k])
  }

  lemma {:induction false} CountUpperAll(s: string)
    ensures CountUpperLetters(s) == CountLetters(s) <==> AllLettersUpper(s)
    decreases |s|
  {
    if s != [] {
      var s' := s[..|s| - 1];
      CountUpperAll(s');
      assert forall k :: 0 <= k < |s'| ==> s'[k] == s[k];
      if AllLettersUpper(s) {
        assert AllLettersUpper(s');
      }
    }
  }

  lemma RatioOne(u: real, n: real)
    requires n > 0.0
    ensures u / n == 1.0 <==> u == n
  {
    if u / n == 1.0 {
      assert u == (u / n) * n;
    }
  }

  /** The ratio is 1 exactly when the text has a letter and every letter is upper case. */
  lemma UpperRatioOne(s: string)
    ensures UpperRatio(s) == 1.0 <==> CountLetters(s) > 0 && AllLettersUpper(s)
  {
    CountUpperAll(s);
    var n, u := CountLetters(s), CountUpperLetters(s);
    if n > 0 {
      RatioOne(u as real, n as real);
    }
  }

  /** The classifier's verdict: heading or not, its level, and its numbering. */
  datatype Heading = Heading(isHead: bool, level: int, numbering: Option<string>)

  /** The visual rule: short, mostly upper case, taller than usual and set apart from the line above. */
  predicate VisualHeading(t: string, lineH: real, medianH: real, gapAbove: real) {
    |t| <= 120 && UpperRatio(t) >= 0.6 && lineH >= medianH * 1.12 && gapAbove >= medianH * 0.8
  }

  /** `_looks_like_heading`: explicit numbering first, then the visual rule. */
  function LooksLikeHeading(text: string, lineH: real, medianH: real, gapAbove: real): (h: Heading)
    ensures h.isHead ==> 1 <= h.level <= 4
    ensures !h.isHead ==> h.level == 0 && h.numbering.None?
    ensures h.numbering.Some? <==> MatchNumbering(Strip(text)).Some?
    ensures h.numbering.Some? ==> h.isHead
    ensures h.numbering.None? ==> (h.isHead <==> VisualHeading(Strip(text), lineH, medianH, gapAbove))
    ensures h.isHead && h.numbering.None? ==> h.level == 1
  {
    var t := Strip(text);
    match MatchNumbering(t)
    case Some(Roman(r)) => Heading(true, HeadingLevelFromNum(None, Some(r)), Some(r + "."))
    case Some(Numeric(n)) => Heading(true, HeadingLevelFromNum(Some(n), None), Some(n))
    case None =>
      if VisualHeading(t, lineH, medianH, gapAbove) then Heading(true, 1, None) else Heading(false, 0, None)
  }

  /** A numbered heading's level: 1 for a Roman numeral, one more than the dots of a number. */
  lemma NumberedHeadingLevel(text: string, lineH: real, medianH: real, gapAbove: real)
    requires MatchNumbering(Strip(text)).Some?
    ensures var h := LooksLikeHeading(text, lineH, medianH, gapAbove);
      match MatchNumbering(Strip(text)).value
      case Roman(r) => h.level == 1 && h.numbering == Some(r + ".")
      case Numeric(n) => h.level == 1 + CountChar(n, '.') && h.numbering == Some(n)
  {
    if MatchNumbering(Strip(text)).value.Numeric? {
      NumericNumberingDots(Strip(text));
    }
  }

  /** One space, then at least two characters and no newline: a title. */
  lemma TitleAfterSpace(rest: string)
    requires |rest| >= 3 && rest[0] == ' ' && NoNewline(rest[1..])
    ensures TitleTail(rest)
  {
    assert AllSpace(rest[..1]);
  }

  /** Roman letters up to a dot, then a title: the letters are the numbering. */
  lemma RomanMatch(s: string, n: nat)
    requires 0 < n < |s| && !IsSpace(s[0])
    requires forall k :: 0 <= k < n ==> IsRomanLetter(s[k])
    requires s[n] == '.' && TitleTail(s[n + 1..])
    ensures MatchNumbering(s) == Some(Roman(s[..n]))
  {
    assert LStrip(s) == s;
    assert !IsRomanLetter(s[n]);
    assert RomanEnd(s, 0) == n;
  }

  /** A digit first, and a title after the number: the number is the numbering. */
  lemma NumericMatch(s: string)
    requires |s| > 0 && IsDigit(s[0]) && !IsSpace(s[0]) && TitleTail(s[NumberEnd(s)..])
    ensures MatchNumbering(s) == Some(Numeric(s[..NumberEnd(s)]))
  {
    assert LStrip(s) == s;
    assert !IsRomanLetter(s[0]);
    assert RomanEnd(s, 0) == 0;
  }

  /** The run of digits from `i` ends at `j`. */
  lemma DigitsEndAt(s: string, i: nat, j: nat)
    requires i <= j <= |s| && (forall k :: i <= k < j ==> IsDigit(s[k])) && (j == |s| || !IsDigit(s[j]))
    ensures DigitsEnd(s, i) == j
  {
  }

  /** Roman letters up to `n`, a dot, a space and a title: stripped already, numbered by the letters. */
  lemma RomanNumberedAt(s: string, n: nat)
    requires 0 < n && n + 4 <= |s| && forall k :: 0 <= k < n ==> IsRomanLetter(s[k])
    requires s[n] == '.' && s[n + 1] == ' ' && NoNewline(s[n + 2..]) && !IsSpace(s[|s| - 1])
    ensures Strip(s) == s && MatchNumbering(s) == Some(Roman(s[..n]))
  {
    assert IsRomanLetter(s[0]);
    StripOfTrimmed(s);
    assert s[n + 1..][1..] == s[n + 2..];
    TitleAfterSpace(s[n + 1..]);
    RomanMatch(s, n);
  }

  /**
   * Roman letters up to `n`, a dot, a space and a title ("II. ЦЕНА ТОВАРА"): a
   * level-1 heading numbered by the letters and the dot, whatever its geometry.
   */
  lemma RomanHeading(s: string, n: nat, lineH: real, medianH: real, gapAbove: real)
    requires 0 < n && n + 4 <= |s| && forall k :: 0 <= k < n ==> IsRomanLetter(s[k])
    requires s[n] == '.' && s[n + 1] == ' ' && NoNewline(s[n + 2..]) && !IsSpace(s[|s| - 1])
    ensures LooksLikeHeading(s, lineH, medianH, gapAbove) == Heading(true, 1, Some(s[..n] + "."))
  {
    RomanNumberedAt(s, n);
    NumberedHeadingLevel(s, lineH, medianH, gapAbove);
  }

  /** Digits up to `d`, a dot, digits up to `e`, then a space: the number ends at `e`. */
  lemma TwoPartEnd(s: string, d: nat, e: nat)
    requires 0 < d && d + 1 < e < |s| && AllDigits(s[..d]) && s[d] == '.' && AllDigits(s[d + 1..e]) && s[e] == ' '
    ensures NumberEnd(s) == e
  {
    assert forall k :: 0 <= k < d ==> s[k] == s[..d][k];
    assert forall k :: d + 1 <= k < e ==> s[k] == s[d + 1..e][k - d - 1];
    DigitsEndAt(s, 0, d);
    DigitsEndAt(s, d + 1, e);
  }

  /** "a.b" has exactly one dot. */
  lemma TwoPartDots(a: string, b: string)
    requires AllDigits(a) && AllDigits(b)
    ensures CountChar(a + "." + b, '.') == 1
  {
    CountCharAppend(a, "." + b, '.');
    CountCharAppend(".", b, '.');
    CountCharNone(a, '.');
    CountCharNone(b, '.');
    assert "."[..0] == [];
    assert a + ("." + b) == a + "." + b;
  }

  /**
   * Digits, a dot, digits up to `e`, a space and a title ("2.1 Порядок оплаты"):
   * a level-2 heading numbered by the number, whatever its geometry.
   */
  lemma TwoPartHeading(s: string, d: nat, e: nat, lineH: real, medianH: real, gapAbove: real)
    requires 0 < d && d + 1 < e && e + 3 <= |s|
    requires AllDigits(s[..d]) && s[d] == '.' && AllDigits(s[d + 1..e])
    requires s[e] == ' ' && NoNewline(s[e + 1..]) && !IsSpace(s[|s| - 1])
    ensures LooksLikeHeading(s, lineH, medianH, gapAbove) == Heading(true, 2, Some(s[..e]))
  {
    assert s[0] == s[..d][0];
    StripOfTrimmed(s);
    TwoPartEnd(s, d, e);
    assert s[e..][1..] == s[e + 1..];
    TitleAfterSpace(s[e..]);
    NumericMatch(s);
    assert s[..e] == s[..d] + "." + s[d + 1..e];
    TwoPartDots(s[..d], s[d + 1..e]);
    NumberedHeadingLevel(s, lineH, medianH, gapAbove);
  }

  /** A line longer than 120 characters without numbering is never a heading, however it looks. */
  lemma LongLineIsNotHeading(text: string, lineH: real, medianH: real, gapAbove: real)
    requires |Strip(text)| > 120 && MatchNumbering(Strip(text)).None?
    ensures !LooksLikeHeading(text, lineH, medianH, gapAbove).isHead
  {
  }

  // ---------------------------------------------------------------------------
  // Line assembly (`_group_tokens_to_lines`)
  // ---------------------------------------------------------------------------

  /** One OCR token as the section builder receives it; a missing or None "text" is "". */
  datatype OcrToken = OcrToken(text: string, bbox: Option<seq<real>>)

  /** A kept token: its stripped text, its box, and its height (at least 1). */
  datatype Token = Token(text: string, x1: real, y1: real, x2: real, y2: real, h: real)

  /** An assembled line: text, box, member tokens in x order, height and top. */
  datatype Line = Line(text: string, x1: real, y1: real, x2: real, y2: real, items: seq<Token>, lineH: real, yTop: real)

  function RMax(a: real, b: real): real { if a >= b then a else b }
  function RAbs(a: real): real { if a >= 0.0 then a else -a }

  /** A token is kept when its stripped text is not blank and its box has four coordinates. */
  function KeepToken(o: OcrToken): (r: Option<Token>)
    ensures r.Some? ==> r.value.text == Strip(o.text) && r.value.h >= 1.0
  {
    var txt := Strip(o.text);
    if txt == "" || o.bbox.None? || |o.bbox.value| != 4 then None
    else
      var b := o.bbox.value;
      Some(Token(txt, b[0], b[1], b[2], b[3], RMax(1.0, b[3] - b[1])))
  }

  function KeptTokens(page: seq<OcrToken>): (r: seq<Token>)
    ensures |r| <= |page|
  {
    if page == [] then []
    else KeptTokens(page[..|page| - 1]) + (match KeepToken(page[|page| - 1]) case Some(t) => [t] case None => [])
  }

  /** A token text as kept: not blank, and with no whitespace at either end. */
  predicate CleanText(t: string) {
    t != "" && !IsSpace(t[0]) && !IsSpace(t[|t| - 1])
  }

  /** Every kept token comes from an input token. */
  lemma {:induction false} KeptTokensFrom(page: seq<OcrToken>)
    ensures forall t :: t in KeptTokens(page) ==> exists k :: 0 <= k < |page| && KeepToken(page[k]) == Some(t)
    decreases |page|
  {
    if page != [] {
      var init, last := page[..|page| - 1], page[|page| - 1];
      var tail := match KeepToken(last) case Some(t) => [t] case None => [];
      assert KeptTokens(page) == KeptTokens(init) + tail;
      KeptTokensFrom(init);
      forall t | t in KeptTokens(page)
        ensures exists k :: 0 <= k < |page| && KeepToken(page[k]) == Some(t)
      {
        if t in KeptTokens(init) {
          var k :| 0 <= k < |init| && KeepToken(init[k]) == Some(t);
          assert page[k] == init[k];
        } else {
          assert t in tail;
          assert KeepToken(page[|page| - 1]) == Some(t);
        }
      }
    }
  }

  /** Every kept token has clean text. */
  lemma {:induction false} KeptTokensClean(page: seq<OcrToken>)
    ensures forall t :: t in KeptTokens(page) ==> CleanText(t.text)
    decreases |page|
  {
    if page != [] {
      var init, last := page[..|page| - 1], page[|page| - 1];
      KeptTokensClean(init);
      KeepTokenClean(last);
    }
  }

  /** A kept token's text is clean. */
  lemma KeepTokenClean(o: OcrToken)
    ensures KeepToken(o).Some? ==> CleanText(KeepToken(o).value.text)
  {
  }

  /** Every input token with non-blank text and a four-coordinate box is kept. */
  lemma {:induction false} KeptTokensComplete(page: seq<OcrToken>, k: int)
    requires 0 <= k < |page| && Strip(page[k].text) != "" && page[k].bbox.Some? && |page[k].bbox.value| == 4
    ensures KeepToken(page[k]).Some? && KeepToken(page[k]).value in KeptTokens(page)
    decreases |page|
  {
    var init := page[..|page| - 1];
    if k < |page| - 1 {
      KeptTokensComplete(init, k);
      assert init[k] == page[k];
    }
  }

  function YCenter(t: Token): real { (t.y1 + t.y2) / 2.0 }

  /** The sort key of the line assembly: vertical centre, then left edge. */
  function YKey(t: Token): Key { Key(YCenter(t), t.x1) }

  /** The sort key within a line: the left edge. */
  function XKey(t: Token): Key { Key(t.x1, 0.0) }

  function Heights(items: seq<Token>): (hs: seq<real>)
    ensures |hs| == |items| && forall i :: 0 <= i < |items| ==> hs[i] == items[i].h
  {
    seq(|items|, i requires 0 <= i < |items| => items[i].h)
  }

  /** The vertical tolerance: 0.6 times the median token height, and at least 3. */
  function Tolerance(items: seq<Token>): (tol: real)
    requires |items| > 0
    ensures tol >= 3.0
  {
    RMax(3.0, Median(Heights(items)) * 0.6)
  }

  /** Two neighbouring tokens belong to different lines when their centres are more than `tol` apart. */
  function LineBreak(tol: real): (Token, Token) -> bool {
    (a: Token, b: Token) => RAbs(YCenter(b) - YCenter(a)) > tol
  }

  lemma LineBreakIff(tol: real, a: Token, b: Token)
    ensures LineBreak(tol)(a, b) <==> RAbs(YCenter(b) - YCenter(a)) > tol
  {
  }

  function Texts(ts: seq<Token>): (r: seq<string>)
    ensures |r| == |ts| && forall i :: 0 <= i < |ts| ==> r[i] == ts[i].text
  {
    seq(|ts|, i requires 0 <= i < |ts| => ts[i].text)
  }

  function X1s(ts: seq<Token>): (r: seq<real>)
    ensures |r| == |ts| && forall i :: 0 <= i < |ts| ==> r[i] == ts[i].x1
  {
    seq(|ts|, i requires 0 <= i < |ts| => ts[i].x1)
  }

  function Y1s(ts: seq<Token>): (r: seq<real>)
    ensures |r| == |ts| && forall i :: 0 <= i < |ts| ==> r[i] == ts[i].y1
  {
    seq(|ts|, i requires 0 <= i < |ts| => ts[i].y1)
  }

  function X2s(ts: seq<Token>): (r: seq<real>)
    ensures |r| == |ts| && forall i :: 0 <= i < |ts| ==> r[i] == ts[i].x2
  {
    seq(|ts|, i requires 0 <= i < |ts| => ts[i].x2)
  }

  function Y2s(ts: seq<Token>): (r: seq<real>)
    ensures |r| == |ts| && forall i :: 0 <= i < |ts| ==> r[i] == ts[i].y2
  {
    seq(|ts|, i requires 0 <= i < |ts| => ts[i].y2)
  }

  /** One line from one run of tokens: sorted by left edge, texts joined by spaces, boxes united. */
  function MakeLine(g: seq<Token>): (ln: Line)
    requires |g| > 0
  {
    var xs := SortBy(g, XKey);
    var y1 := ImageTools.MinOf(Y1s(xs));
    var y2 := ImageTools.MaxOf(Y2s(xs));
    Line(Strip(Join(" ", Texts(xs))), ImageTools.MinOf(X1s(xs)), y1, ImageTools.MaxOf(X2s(xs)), y2, xs, y2 - y1, y1)
  }

  /** The runs of vertically close tokens, in order of vertical centre. */
  function LineGroups(page: seq<OcrToken>): (gs: seq<seq<Token>>)
  {
    var items := SortBy(KeptTokens(page), YKey);
    if items == [] then [] else SplitWhen(items, LineBreak(Tolerance(items)))
  }

  lemma LineGroupsNonEmpty(page: seq<OcrToken>)
    ensures NonEmptyRuns(LineGroups(page))
  {
    var items := SortBy(KeptTokens(page), YKey);
    if items != [] {
      SplitWhenFlattens(items, LineBreak(Tolerance(items)));
    }
  }

  /** The lines `_group_tokens_to_lines` returns. */
  function LinesOf(page: seq<OcrToken>): (lines: seq<Line>)
  {
    var gs := LineGroups(page);
    LineGroupsNonEmpty(page);
    seq(|gs|, k requires 0 <= k < |gs| => MakeLine(gs[k]))
  }

  /** The grouping loop of `_group_tokens_to_lines`: a token joins the current line when its centre is within `tol` of the previous token's. */
  method GroupByCentre(items: seq<Token>, tol: real) returns (groups: seq<seq<Token>>)
    ensures groups == SplitWhen(items, LineBreak(tol))
  {
    groups := [];
    var cur: seq<Token> := [];
    for i := 0 to |items|
      invariant i == 0 ==> groups == [] && cur == []
      invariant i > 0 ==> cur != [] && cur[|cur| - 1] == items[i - 1]
      invariant i > 0 ==> groups + [cur] == SplitWhen(items[..i], LineBreak(tol))
    {
      if cur == [] {
        SplitWhenOne(items, LineBreak(tol));
        cur := [items[i]];
      } else {
        var it, prev := items[i], cur[|cur| - 1];
        LineBreakIff(tol, items[i - 1], items[i]);
        SplitWhenStep(items, i, LineBreak(tol), groups, cur);
        if RAbs(YCenter(it) - YCenter(prev)) <= tol {
          cur := cur + [it];
        } else {
          groups := groups + [cur];
          cur := [it];
        }
      }
    }
    assert items[..|items|] == items;
    if cur != [] {
      groups := groups + [cur];
    }
  }

  /** The filtering loop of `_group_tokens_to_lines`. */
  method CollectTokens(page: seq<OcrToken>) returns (items: seq<Token>)
    ensures items == KeptTokens(page)
  {
    items := [];
    for k := 0 to |page|
      invariant items == KeptTokens(page[..k])
    {
      assert page[..k + 1][..k] == page[..k];
      var t := KeepToken(page[k]);
      if t.Some? {
        items := items + [t.value];
      }
    }
    assert page[..|page|] == page;
  }

  lemma LinesOfGroups(page: seq<OcrToken>)
    ensures NonEmptyRuns(LineGroups(page))
    ensures |LinesOf(page)| == |LineGroups(page)|
    ensures forall j :: 0 <= j < |LineGroups(page)| ==> LinesOf(page)[j] == MakeLine(LineGroups(page)[j])
  {
    LineGroupsNonEmpty(page);
  }

  /** Any list holding, in order, one `make_line` per group is the list of lines. */
  lemma LinesFromGroups(page: seq<OcrToken>, lines: seq<Line>)
    requires NonEmptyRuns(LineGroups(page)) && |lines| == |LineGroups(page)|
    requires forall j :: 0 <= j < |lines| ==> lines[j] == MakeLine(LineGroups(page)[j])
    ensures lines == LinesOf(page)
  {
  }

  /** `_group_tokens_to_lines`. */
  method GroupTokensToLines(page: seq<OcrToken>) returns (lines: seq<Line>)
    ensures lines == LinesOf(page)
  {
    var items := CollectTokens(page);
    if items == [] {
      LinesEmpty(page);
      return [];
    }
    items := SortBy(items, YKey);
    var tol := Tolerance(items);
    var groups := GroupByCentre(items, tol);
    GroupsOfSorted(page, items);
    lines := MakeLines(groups);
    LinesFromGroups(page, lines);
  }

  /** The output loop of `_group_tokens_to_lines`: one line per run, in order. */
  method MakeLines(groups: seq<seq<Token>>) returns (lines: seq<Line>)
    requires NonEmptyRuns(groups)
    ensures |lines| == |groups|
    ensures forall j :: 0 <= j < |groups| ==> lines[j] == MakeLine(groups[j])
  {
    lines := MapEach(groups, MakeLine);
  }

  /** The groups of a page are the runs of its sorted kept tokens. */
  lemma GroupsOfSorted(page: seq<OcrToken>, items: seq<Token>)
    requires items == SortBy(KeptTokens(page), YKey) && items != []
    ensures LineGroups(page) == SplitWhen(items, LineBreak(Tolerance(items)))
    ensures NonEmptyRuns(LineGroups(page))
  {
    LineGroupsNonEmpty(page);
  }

  /** No line comes out exactly when no token is kept. */
  lemma LinesEmpty(page: seq<OcrToken>)
    ensures LinesOf(page) == [] <==> KeptTokens(page) == []
  {
    var items := SortBy(KeptTokens(page), YKey);
    if items != [] {
      SplitWhenFlattens(items, LineBreak(Tolerance(items)));
    }
  }

  /**
   * The runs are the kept tokens in (centre, left) order, cut exactly between two
   * neighbours whose centres are more than the tolerance apart.
   */
  lemma LineGroupsSplit(page: seq<OcrToken>)
    requires KeptTokens(page) != []
    ensures var items := SortBy(KeptTokens(page), YKey);
      var gs, brk := LineGroups(page), LineBreak(Tolerance(items));
      Flatten(gs) == items && SortedBy(items, YKey) && NonEmptyRuns(gs) &&
      NoBreakInside(gs, brk) && BreakBetween(gs, brk)
  {
    var items := SortBy(KeptTokens(page), YKey);
    SortBySorted(KeptTokens(page), YKey);
    SplitWhenFlattens(items, LineBreak(Tolerance(items)));
    SplitWhenBreaks(items, LineBreak(Tolerance(items)));
  }

  function LineItems(lines: seq<Line>): (r: seq<seq<Token>>)
    ensures |r| == |lines| && forall k :: 0 <= k < |lines| ==> r[k] == lines[k].items
  {
    seq(|lines|, k requires 0 <= k < |lines| => lines[k].items)
  }

  lemma {:induction false} FlattenPermutes<T>(a: seq<seq<T>>, b: seq<seq<T>>)
    requires |a| == |b| && forall k :: 0 <= k < |a| ==> multiset(a[k]) == multiset(b[k])
    ensures multiset(Flatten(a)) == multiset(Flatten(b))
    decreases |a|
  {
    if a != [] {
      FlattenPermutes(a[..|a| - 1], b[..|b| - 1]);
    }
  }

  /** Every kept token lands in exactly one line: the lines' tokens are a permutation of the kept tokens. */
  lemma LinesPartitionTokens(page: seq<OcrToken>)
    ensures multiset(Flatten(LineItems(LinesOf(page)))) == multiset(KeptTokens(page))
  {
    var lines, gs := LinesOf(page), LineGroups(page);
    LinesOfGroups(page);
    var its := LineItems(lines);
    assert forall k :: 0 <= k < |gs| ==> multiset(its[k]) == multiset(gs[k]);
    FlattenPermutes(its, gs);
    var items := SortBy(KeptTokens(page), YKey);
    if items != [] {
      SplitWhenFlattens(items, LineBreak(Tolerance(items)));
    }
  }

  /** A line's tokens lie within its box, and each side of the box is some token's side. */
  lemma LineBoxIsUnion(g: seq<Token>)
    requires |g| > 0
    ensures var ln := MakeLine(g);
      (forall t :: t in ln.items ==> ln.x1 <= t.x1 && ln.y1 <= t.y1 && t.x2 <= ln.x2 && t.y2 <= ln.y2) &&
      (exists t :: t in ln.items && t.x1 == ln.x1) && (exists t :: t in ln.items && t.y1 == ln.y1) &&
      (exists t :: t in ln.items && t.x2 == ln.x2) && (exists t :: t in ln.items && t.y2 == ln.y2) &&
      ln.lineH == ln.y2 - ln.y1 && ln.yTop == ln.y1
  {
    var ln := MakeLine(g);
    var xs := ln.items;
    forall t | t in xs ensures ln.x1 <= t.x1 && ln.y1 <= t.y1 && t.x2 <= ln.x2 && t.y2 <= ln.y2 {
      var i :| 0 <= i < |xs| && xs[i] == t;
      assert X1s(xs)[i] == t.x1 && Y1s(xs)[i] == t.y1 && X2s(xs)[i] == t.x2 && Y2s(xs)[i] == t.y2;
    }
    var a :| 0 <= a < |xs| && X1s(xs)[a] == ln.x1;
    var b :| 0 <= b < |xs| && Y1s(xs)[b] == ln.y1;
    var c :| 0 <= c < |xs| && X2s(xs)[c] == ln.x2;
    var d :| 0 <= d < |xs| && Y2s(xs)[d] == ln.y2;
    assert xs[a] in xs && xs[b] in xs && xs[c] in xs && xs[d] in xs;
  }

  /** A line's tokens are its run in left-edge order, and its text is their texts joined by spaces. */
  lemma LineTextInXOrder(g: seq<Token>)
    requires |g| > 0
    ensures var ln := MakeLine(g);
      SortedBy(ln.items, XKey) && multiset(ln.items) == multiset(g) && ln.text == Strip(Join(" ", Texts(ln.items)))
  {
    SortBySorted(g, XKey);
  }

  /** A run of kept tokens makes a line with non-empty text. */
  lemma LineTextNonEmpty(g: seq<Token>)
    requires |g| > 0 && forall t :: t in g ==> CleanText(t.text)
    ensures MakeLine(g).text != ""
  {
    var xs := SortBy(g, XKey);
    assert xs[0] in multiset(g);
    StripJoinNonEmpty(" ", Texts(xs));
  }

  /** Every line `_group_tokens_to_lines` returns has non-empty text. */
  lemma LinesHaveText(page: seq<OcrToken>)
    ensures forall k :: 0 <= k < |LinesOf(page)| ==> LinesOf(page)[k].text != ""
  {
    var gs := LineGroups(page);
    LinesOfGroups(page);
    forall k | 0 <= k < |gs| ensures MakeLine(gs[k]).text != "" {
      GroupMembersClean(page, k);
      LineTextNonEmpty(gs[k]);
    }
  }

  /** The tokens of every group are kept tokens, so their texts are clean. */
  lemma GroupMembersClean(page: seq<OcrToken>, k: int)
    requires 0 <= k < |LineGroups(page)|
    ensures |LineGroups(page)[k]| > 0
    ensures forall t :: t in LineGroups(page)[k] ==> CleanText(t.text)
  {
    var gs := LineGroups(page);
    LineGroupsNonEmpty(page);
    KeptTokensClean(page);
    var items := SortBy(KeptTokens(page), YKey);
    SplitWhenFlattens(items, LineBreak(Tolerance(items)));
    forall t | t in gs[k] ensures t in KeptTokens(page) {
      FlattenHas(gs, k, t);
      assert t in multiset(items);
    }
  }

  lemma {:induction false} FlattenHas<T>(gs: seq<seq<T>>, k: int, t: T)
    requires 0 <= k < |gs| && t in gs[k]
    ensures t in Flatten(gs)
    decreases |gs|
  {
    if k < |gs| - 1 {
      FlattenHas(gs[..|gs| - 1], k, t);
    }
  }

  // ---------------------------------------------------------------------------
  // The gap above a line and the section id.
  // ---------------------------------------------------------------------------

  /**
   * `_find_gap_above`: 9999 for the first line of a page, otherwise the distance from the
   * bottom of the line before to the top of this one, never below zero.
   */
  function FindGapAbove(i: nat, lines: seq<Line>): (gap: real)
    requires i < |lines| || i == 0
    ensures i == 0 ==> gap == 9999.0
    ensures i > 0 ==> (gap >= 0.0 && gap >= lines[i].y1 - lines[i - 1].y2 &&
                       (gap == 0.0 || gap == lines[i].y1 - lines[i - 1].y2))
  {
    if i == 0 then 9999.0 else RMax(0.0, lines[i].y1 - lines[i - 1].y2)
  }

  /** `_section_id`: the numbering when there is a non-empty one, else the counter in decimal. */
  function SectionId(num: Option<string>, counter: nat): (id: string)
    ensures id != ""
    ensures num.Some? && num.value != "" ==> id == num.value
    ensures num.None? || num.value == "" ==> AllDigits(id) && ParseNat(id) == counter
  {
    if num.Some? && num.value != "" then num.value
    else
      ParseNatToString(counter);
      NatToString(counter)
  }

  // ---------------------------------------------------------------------------
  // The sub-point pattern: optional leading whitespace; a dotted number with at
  // least two parts, a bullet, or a Cyrillic letter and ")"; then whitespace and
  // at least one more character that is not a newline (case-insensitive).
  // ---------------------------------------------------------------------------

  /** Whitespace, then one character other than a newline. */
  predicate MarkerTail(rest: string) {
    exists j :: 1 <= j < |rest| && AllSpace(rest[..j]) && rest[j] != '\n'
  }

  predicate IsBullet(c: char) { c == '-' || c == '\U{2022}' || c == '*' }

  /** The letters `а` to `я` of the class, matched ignoring case. */
  predicate IsSubpointLetter(c: char) {
    ('\U{430}' <= c <= '\U{44F}') || ('\U{410}' <= c <= '\U{42F}')
  }

  /** The end of the dotted number `\d+(\.\d+)*` that starts the string. */
  function SubNumberEnd(s: string): (e: nat)
    ensures e <= |s|
  {
    DotGroupsEnd(s, DigitsEnd(s, 0), |s|)
  }

  /**
   * `RE_SUBPOINT.match(t) is not None`. A number must have a second part; since a shorter
   * number would be followed by a digit or a dot rather than whitespace, only the longest
   * one can be followed by the tail.
   */
  predicate IsSubpoint(t: string) {
    var s := LStrip(t);
    (|s| > 0 && IsDigit(s[0]) && SubNumberEnd(s) > DigitsEnd(s, 0) && MarkerTail(s[SubNumberEnd(s)..])) ||
    (|s| > 0 && IsBullet(s[0]) && MarkerTail(s[1..])) ||
    (|s| > 1 && IsSubpointLetter(s[0]) && s[1] == ')' && MarkerTail(s[2..]))
  }

  /** One item of a bracketed character class: a character or a range. */
  datatype ClassItem = Single(c: char) | Range(lo: char, hi: char)

  /**
   * Compiling a character class the way `re` does: the first range whose end comes
   * before its start raises "bad character range".
   */
  function CompileClass(items: seq<ClassItem>): (r: Result<seq<ClassItem>>)
    ensures r.Ok? <==> forall k :: 0 <= k < |items| && items[k].Range? ==> items[k].lo <= items[k].hi
    ensures r.Ok? ==> r.value == items
    ensures r.Raises? ==> exists k :: (0 <= k < |items| && items[k].Range? && items[k].hi < items[k].lo &&
                                       r.error == "bad character range " + [items[k].lo] + "-" + [items[k].hi])
  {
    if items == [] then Ok([])
    else if items[0].Range? && items[0].hi < items[0].lo then
      Raises("bad character range " + [items[0].lo] + "-" + [items[0].hi])
    else
      var rest := CompileClass(items[1..]);
      if rest.Raises? then rest else Ok([items[0]] + rest.value)
  }

  predicate InClass(items: seq<ClassItem>, c: char) {
    exists k :: 0 <= k < |items| && (match items[k] case Single(d) => c == d case Range(lo, hi) => lo <= c <= hi)
  }

  /** The letter class as the source file spells it: a dash, a range from the infinity sign back to the em dash, and `è`. */
  const SubpointLetterClassWritten: seq<ClassItem> := [Single('\U{2013}'), Range('\U{221E}', '\U{2014}'), Single('\U{E8}')]

  /** The bullet class as the source file spells it. */
  const BulletClassWritten: seq<ClassItem> := [Single('-'), Single('\U{201A}'), Single('\U{C4}'), Single('\U{A2}'), Single('*')]

  /** The letter class the pattern evidently means: `а` to `я`. */
  const SubpointLetterClass: seq<ClassItem> := [Range('\U{430}', '\U{44F}')]

  /**
   * As written, the sub-point pattern cannot be compiled: its letter class holds a
   * reversed range, so loading the module raises. Its bullet class does not hold `•`.
   */
  lemma SubpointClassAsWritten()
    ensures CompileClass(SubpointLetterClassWritten) == Raises("bad character range \U{221E}-\U{2014}")
    ensures !InClass(BulletClassWritten, '\U{2022}')
  {
    assert SubpointLetterClassWritten[1..][0] == Range('\U{221E}', '\U{2014}');
  }

  /** The intended letter class compiles, and `IsSubpointLetter` is membership in it ignoring case. */
  lemma SubpointLetterIsClass(c: char)
    ensures CompileClass(SubpointLetterClass).Ok?
    ensures IsSubpointLetter(c) <==> InClass(SubpointLetterClass, c) || InClass(SubpointLetterClass, Lower(c))
  {
    if InClass(SubpointLetterClass, c) || InClass(SubpointLetterClass, Lower(c)) {
      assert '\U{430}' <= c <= '\U{44F}' || '\U{430}' <= Lower(c) <= '\U{44F}';
    }
    if '\U{410}' <= c <= '\U{42F}' {
      assert '\U{430}' <= Lower(c) <= '\U{44F}';
    }
  }

  /** A bullet item is a sub-point. */
  lemma BulletIsSubpoint()
    ensures IsSubpoint("- item")
  {
    var s := "- item";
    assert !IsSpace(s[0]);
    assert LStrip(s) == s;
    assert IsBullet(s[0]);
    assert s[1..][..1] == " ";
    assert MarkerTail(s[1..]);
  }

  /** A number with a single part is not a sub-point. */
  lemma SinglePartNumberIsNotSubpoint()
    ensures !IsSubpoint("1. Text")
  {
    var s := "1. Text";
    assert !IsSpace(s[0]);
    assert LStrip(s) == s;
    assert !IsBullet(s[0]) && !IsSubpointLetter(s[0]);
    assert DigitsEnd(s, 1) == 1;
    assert DigitsEnd(s, 0) == 1;
    assert SubNumberEnd(s) == 1;
  }

  // ---------------------------------------------------------------------------
  // Paragraphs: a section's lines cut before every sub-point line and before every
  // line that sits more than 1.5 median heights below the line before it.
  // ---------------------------------------------------------------------------

  /** A line's text as the paragraph loop reads it: stripped. */
  function LineText(ln: Line): string { Strip(ln.text) }

  /** The vertical gap the paragraph loop measures; a previous bottom of 0 counts as none. */
  function ParaGap(prev: Line, cur: Line): real {
    if prev.y2 != 0.0 then cur.yTop - prev.y2 else 0.0
  }

  /** A new paragraph starts at a line the sub-point test accepts, or after a large gap. */
  function ParaBreak(isSubpoint: string -> bool, medianH: real): (Line, Line) -> bool {
    (prev: Line, cur: Line) => isSubpoint(LineText(cur)) || ParaGap(prev, cur) > medianH * 1.5
  }

  function StrippedTexts(lines: seq<Line>): (r: seq<string>)
    ensures |r| == |lines| && forall k :: 0 <= k < |lines| ==> r[k] == LineText(lines[k])
  {
    seq(|lines|, k requires 0 <= k < |lines| => LineText(lines[k]))
  }

  /** A paragraph: its lines' stripped texts, one per row. */
  function ParaText(g: seq<Line>): string {
    Join("\n", StrippedTexts(g))
  }

  function ParaTexts(gs: seq<seq<Line>>): (r: seq<string>)
    ensures |r| == |gs| && forall k :: 0 <= k < |gs| ==> r[k] == ParaText(gs[k])
  {
    seq(|gs|, k requires 0 <= k < |gs| => ParaText(gs[k]))
  }

  /** What `_build_paragraphs` returns. */
  function Paragraphs(lines: seq<Line>, medianH: real): seq<string> {
    ParaTexts(SplitWhen(lines, ParaBreak(IsSubpoint, medianH)))
  }

  /**
   * The test the paragraph loop makes on a line, given the bottom of the line before it
   * (None before the first line): a sub-point, or a gap over 1.5 median heights.
   */
  predicate StartsParagraph(isSubpoint: string -> bool, lastY: Option<real>, ln: Line, medianH: real) {
    var gap := if lastY.Some? && lastY.value != 0.0 then ln.yTop - lastY.value else 0.0;
    isSubpoint(LineText(ln)) || gap > medianH * 1.5
  }

  lemma StartsParagraphIsBreak(isSubpoint: string -> bool, prev: Line, ln: Line, medianH: real)
    ensures StartsParagraph(isSubpoint, Some(prev.y2), ln, medianH) == ParaBreak(isSubpoint, medianH)(prev, ln)
  {
  }

  /**
   * How one more line changes the runs: after a break (`cut`, which never splits off an
   * empty run) a new run starts, otherwise the last run grows.
   */
  lemma ParaRunsStep(lines: seq<Line>, i: nat, brk: (Line, Line) -> bool, cut: bool,
                     groups: seq<seq<Line>>, curLines: seq<Line>)
      returns (groups': seq<seq<Line>>, curLines': seq<Line>)
    requires i < |lines|
    requires i == 0 ==> groups == [] && curLines == []
    requires i > 0 ==> curLines != [] && groups + [curLines] == SplitWhen(lines[..i], brk)
    requires i > 0 ==> cut == brk(lines[i - 1], lines[i])
    ensures groups' == if cut && curLines != [] then groups + [curLines] else groups
    ensures curLines' == (if cut && curLines != [] then [] else curLines) + [lines[i]]
    ensures groups' + [curLines'] == SplitWhen(lines[..i + 1], brk)
  {
    if cut && curLines != [] {
      groups', curLines' := groups + [curLines], [] + [lines[i]];
      assert curLines' == [lines[i]];
    } else {
      groups', curLines' := groups, curLines + [lines[i]];
    }
    if i == 0 {
      SplitWhenOne(lines, brk);
      assert curLines' == [lines[0]];
    } else {
      SplitWhenStep(lines, i, brk, groups, curLines);
    }
  }

  /** `_build_paragraphs`. */
  method BuildParagraphs(lines: seq<Line>, medianH: real) returns (paragraphs: seq<string>)
    ensures paragraphs == Paragraphs(lines, medianH)
  {
    paragraphs := SplitParagraphs(lines, medianH, IsSubpoint);
  }

  /** The loop of `_build_paragraphs`, for a given sub-point test. */
  method SplitParagraphs(lines: seq<Line>, medianH: real, isSubpoint: string -> bool) returns (paragraphs: seq<string>)
    ensures paragraphs == ParaTexts(SplitWhen(lines, ParaBreak(isSubpoint, medianH)))
  {
    ghost var brk := ParaBreak(isSubpoint, medianH);
    ghost var groups: seq<seq<Line>> := [];
    ghost var curLines: seq<Line> := [];
    paragraphs := [];
    var cur: seq<string> := [];
    var lastY: Option<real> := None;
    for i := 0 to |lines|
      invariant i == 0 ==> groups == [] && curLines == [] && lastY.None?
      invariant i > 0 ==> curLines != [] && lastY == Some(lines[i - 1].y2) &&
                          groups + [curLines] == SplitWhen(lines[..i], brk)
      invariant cur == StrippedTexts(curLines)
      invariant paragraphs == ParaTexts(groups)
    {
      var text := LineText(lines[i]);
      var cut := StartsParagraph(isSubpoint, lastY, lines[i], medianH);
      if i > 0 {
        StartsParagraphIsBreak(isSubpoint, lines[i - 1], lines[i], medianH);
      }
      ghost var groups', curLines' := ParaRunsStep(lines, i, brk, cut, groups, curLines);
      assert |cur| == |curLines|;
      ghost var kept := if cut && curLines != [] then [] else curLines;
      StrippedTextsSnoc(kept, lines[i]);
      if cut && cur != [] {
        ParaTextsSnoc(groups, curLines);
        paragraphs := paragraphs + [Join("\n", cur)];
        cur := [];
      }
      assert cur == StrippedTexts(kept);
      cur := cur + [text];
      groups, curLines := groups', curLines';
      lastY := Some(lines[i].y2);
    }
    assert lines[..|lines|] == lines;
    if cur != [] {
      ParaTextsSnoc(groups, curLines);
      paragraphs := paragraphs + [Join("\n", cur)];
      groups := groups + [curLines];
    }
  }

  lemma StrippedTextsSnoc(a: seq<Line>, l: Line)
    ensures StrippedTexts([]) == []
    ensures StrippedTexts(a + [l]) == StrippedTexts(a) + [LineText(l)]
  {
    StrippedTextsAppend(a, [l]);
  }

  lemma StrippedTextsAppend(a: seq<Line>, b: seq<Line>)
    ensures StrippedTexts(a + b) == StrippedTexts(a) + StrippedTexts(b)
  {
    var l, r := StrippedTexts(a + b), StrippedTexts(a) + StrippedTexts(b);
    forall k | 0 <= k < |l| ensures l[k] == r[k] {
      if k < |a| {
        assert (a + b)[k] == a[k];
      } else {
        assert (a + b)[k] == b[k - |a|];
      }
    }
  }

  lemma ParaTextsSnoc(gs: seq<seq<Line>>, g: seq<Line>)
    ensures ParaTexts(gs + [g]) == ParaTexts(gs) + [ParaText(g)]
  {
  }

  /** Joining the paragraphs row by row gives back every line's text, once each and in order. */
  lemma {:induction false} JoinParaTexts(gs: seq<seq<Line>>)
    requires |gs| > 0 && NonEmptyRuns(gs)
    ensures Join("\n", ParaTexts(gs)) == Join("\n", StrippedTexts(Flatten(gs)))
    decreases |gs|
  {
    var init, last := gs[..|gs| - 1], gs[|gs| - 1];
    StrippedTextsAppend(Flatten(init), last);
    assert gs == init + [last];
    ParaTextsSnoc(init, last);
    if |init| == 0 {
      assert Flatten(gs) == last;
    } else {
      assert NonEmptyRuns(init);
      JoinParaTexts(init);
      JoinAppend("\n", ParaTexts(init), [ParaText(last)]);
      JoinAppend("\n", StrippedTexts(Flatten(init)), StrippedTexts(last));
    }
  }

  /**
   * The paragraphs hold every input line's stripped text once, in order; there are none
   * exactly when there are no lines, and never more paragraphs than lines.
   */
  lemma ParagraphsKeepLines(lines: seq<Line>, medianH: real)
    ensures |Paragraphs(lines, medianH)| <= |lines|
    ensures Paragraphs(lines, medianH) == [] <==> lines == []
    ensures lines != [] ==> Join("\n", Paragraphs(lines, medianH)) == Join("\n", StrippedTexts(lines))
  {
    if lines != [] {
      SplitWhenFlattens(lines, ParaBreak(IsSubpoint, medianH));
      JoinParaTexts(SplitWhen(lines, ParaBreak(IsSubpoint, medianH)));
    }
  }

  /**
   * A paragraph starts exactly at a sub-point line or after a large gap: within a
   * paragraph no line breaks from the one before it, and each later paragraph's first line does.
   */
  lemma ParagraphBreaks(lines: seq<Line>, medianH: real)
    ensures var gs := SplitWhen(lines, ParaBreak(IsSubpoint, medianH));
      Flatten(gs) == lines && NonEmptyRuns(gs) && Paragraphs(lines, medianH) == ParaTexts(gs) &&
      NoBreakInside(gs, ParaBreak(IsSubpoint, medianH)) && BreakBetween(gs, ParaBreak(IsSubpoint, medianH))
  {
    SplitWhenFlattens(lines, ParaBreak(IsSubpoint, medianH));
    SplitWhenBreaks(lines, ParaBreak(IsSubpoint, medianH));
  }
}
