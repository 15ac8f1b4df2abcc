/**
 * src/post_ocr_corrector.py: the clean-up applied to every OCR line.
 *
 * Stage (a) maps the Latin letters that look like Cyrillic ones, stage (b)
 * turns dash runs into '-' and collapses whitespace, stage (c) swaps the digits
 * 0, 1 and 3 for look-alike letters inside tokens that mix digits and letters.
 * Then come the canonical rewrite rules, the snap of a whole line to a known
 * heading and the snap of single tokens to known terms.
 *
 * The `difflib.SequenceMatcher` ratio is a parameter `ratio`, and each
 * CANON_REPLACEMENTS rule is an abstract `string -> string` function.
 */
module PostOcrCorrector {
  import opened Text
  import opened Recognizers

  // ------------------------------------------------------------------ tables

  /** LATIN_TO_CYR: the Latin letters that look like Cyrillic ones. */
  const LatinToCyr: map<char, char> := map[
    'A' := '\U{410}', 'B' := '\U{412}', 'C' := '\U{421}', 'E' := '\U{415}', 'H' := '\U{41D}',
    'K' := '\U{41A}', 'M' := '\U{41C}', 'O' := '\U{41E}', 'P' := '\U{420}', 'T' := '\U{422}',
    'X' := '\U{425}', 'Y' := '\U{423}',
    'a' := '\U{430}', 'c' := '\U{441}', 'e' := '\U{435}', 'o' := '\U{43E}', 'p' := '\U{440}',
    'x' := '\U{445}', 'y' := '\U{443}']

  /** DIGIT_TO_CYR_IN_WORD: 0 to Cyrillic О, 1 to Ukrainian І, 3 to Cyrillic З. */
  const DigitToCyr: map<char, char> := map['0' := '\U{41E}', '1' := '\U{406}', '3' := '\U{417}']

  /** The heading lines a whole line may be snapped to (PHRASES). */
  const Phrases: seq<string> := [
    "ДОГОВОР",
    "I. ПРЕДМЕТ ДОГОВОРА",
    "II. ЦЕНА ТОВАРА, ОБЩАЯ СТОИМОСТЬ ДОГОВОРА",
    "III. КАЧЕСТВО, УПАКОВКА И МАРКИРОВКА",
    "IV. ПРИЕМКА ТОВАРА",
    "V. ПРЕТЕНЗИИ",
    "VI. СРОКИ И ПОРЯДОК ПОСТАВКИ",
    "VII. ПОРЯДОК РАСЧЕТОВ",
    "VIII. ОТВЕТСТВЕННОСТЬ СТОРОН",
    "IX. ФОРС-МАЖОР",
    "X. АРБИТРАЖ",
    "XI. ПРОЧИЕ УСЛОВИЯ",
    "Инкотермс 2010",
    "Продавец",
    "Покупатель",
    "Республика Беларусь",
    "Республика Казахстан",
    "товарная накладная",
    "сертификат качества",
    "сертификат происхождения",
    "железнодорожная накладная",
    "корректировочный акт",
    "счет-фактура"]

  /**
   * The terms a single token may be snapped to (TERMS). The entry "качеств" + "a"
   * ends in the Latin letter a, as in the source table.
   */
  const Terms: seq<string> := [
    "Договор", "Предмет", "Цена", "Товара", "Стоимость", "Качество", "Упаковка", "Маркировка",
    "Приемка", "Претензии", "Сроки", "Порядок", "Поставки", "Расчетов", "Ответственность",
    "Форс-мажор", "Арбитраж", "Прочие", "Условия", "Продавец", "Покупатель", "Инкотермс",
    "Республика", "Беларусь", "Казахстан", "накладная", "паспорт", "декларация", "счет-фактура",
    "происхождения", "качеств" + "a", "железнодорожная", "корректировочный", "акт"]

  // ------------------------------------------------- stage (a): look-alikes

  function TranslateChar(c: char): char {
    if c in LatinToCyr then LatinToCyr[c] else c
  }

  /**
   * `s.translate(LATIN_TO_CYR)`: exactly the mapped characters change, each into
   * a Cyrillic letter, and no mapped Latin letter is left.
   */
  function Translate(s: string): (r: string)
    ensures |r| == |s|
    ensures forall i :: 0 <= i < |s| ==> (r[i] != s[i] <==> s[i] in LatinToCyr)
    ensures forall i :: 0 <= i < |s| && s[i] in LatinToCyr ==> IsCyrillic(r[i])
    ensures forall i :: 0 <= i < |r| ==> r[i] !in LatinToCyr
  {
    seq(|s|, i requires 0 <= i < |s| => TranslateChar(s[i]))
  }

  /** Translating twice changes nothing more. */
  lemma TranslateIdempotent(s: string)
    ensures Translate(Translate(s)) == Translate(s)
  {
  }

  // ---------------------------------------------- stage (b): dashes, spaces

  /** The class `[–—−]` of RE_DASH: en dash, em dash and minus sign. */
  predicate IsDash(c: char) { c == '\U{2013}' || c == '\U{2014}' || c == '\U{2212}' }

  predicate NoDash(s: string) { forall i :: 0 <= i < |s| ==> !IsDash(s[i]) }

  /** The characters other than dashes and '-', in order. */
  function Undashed(s: string): string {
    if s == [] then [] else (if IsDash(s[0]) || s[0] == '-' then [] else [s[0]]) + Undashed(s[1..])
  }

  /** The length of the run of dashes that starts `s`; dropping it keeps `Undashed`. */
  function DashRun(s: string): (n: nat)
    ensures n <= |s| && (n == |s| || !IsDash(s[n]))
    ensures Undashed(s[n..]) == Undashed(s)
  {
    if s != [] && IsDash(s[0]) then
      var m := DashRun(s[1..]);
      assert s[1..][m..] == s[1 + m..];
      1 + m
    else 0
  }

  /**
   * `RE_DASH.sub("-", s)`: every maximal run of dashes becomes one '-'. No dash
   * is left, every other character is kept in order, and a string without
   * dashes is returned unchanged.
   */
  function NormalizeDashes(s: string): (r: string)
    ensures NoDash(r)
    ensures Undashed(r) == Undashed(s)
    ensures NoDash(s) ==> r == s
    decreases |s|
  {
    if s == [] then []
    else if IsDash(s[0]) then
      var rest := NormalizeDashes(s[DashRun(s)..]);
      assert ("-" + rest)[1..] == rest;
      "-" + rest
    else
      var rest := NormalizeDashes(s[1..]);
      assert ([s[0]] + rest)[1..] == rest;
      [s[0]] + rest
  }

  lemma {:induction false} InNonSpace(x: string, c: char)
    ensures c in NonSpace(x) <==> c in x && !IsSpace(c)
  {
    if x != [] {
      InNonSpace(x[1..], c);
      assert x == [x[0]] + x[1..];
    }
  }

  lemma DashIsNotSpace(c: char)
    requires IsDash(c)
    ensures !IsSpace(c)
  {
  }

  /** Collapsing whitespace brings in no dash. */
  lemma CollapseKeepsNoDash(x: string)
    requires NoDash(x)
    ensures NoDash(CollapseWhitespace(x))
  {
    var r := CollapseWhitespace(x);
    CollapseKeepsNonSpace(x);
    forall i | 0 <= i < |r| ensures !IsDash(r[i]) {
      var c := r[i];
      if IsDash(c) {
        DashIsNotSpace(c);
        InNonSpace(r, c);
        InNonSpace(x, c);
      }
    }
  }

  /**
   * Stages (a) and (b): translate, `RE_DASH.sub("-", s)`, then
   * `RE_SPACE.sub(" ", s).strip()`. No dash is left, and whitespace is single
   * ' ' characters between words.
   */
  function Normalize(s: string): (r: string)
    ensures NoDash(r) && Collapsed(r)
  {
    var d := NormalizeDashes(Translate(s));
    CollapseKeepsNoDash(d);
    CollapseIsCollapsed(d);
    CollapseWhitespace(d)
  }

  // ------------------------------------------------------------ the tokens

  /** A character of RE_TOKEN's class `[A-Za-zА-Яа-яЁё0-9\-]`. */
  predicate IsTokenChar(c: char) {
    IsLatin(c) || ('\U{410}' <= c <= '\U{44F}') || c == '\U{401}' || c == '\U{451}' || IsDigit(c) || c == '-'
  }

  /** The length of the run of characters on the same side of the token class that starts `s`. */
  function RunLength(s: string, tok: bool): (n: nat)
    ensures n <= |s| && (n == |s| || IsTokenChar(s[n]) != tok)
    ensures forall i :: 0 <= i < n ==> IsTokenChar(s[i]) == tok
  {
    if s != [] && IsTokenChar(s[0]) == tok then 1 + RunLength(s[1..], tok) else 0
  }

  predicate IsTokenRun(g: string) { g != [] && IsTokenChar(g[0]) }

  /** Non-empty runs, each entirely inside or outside the token class, alternating between the two. */
  predicate RunsOk(rs: seq<string>) {
    && (forall i :: 0 <= i < |rs| ==> rs[i] != [])
    && (forall i, j :: 0 <= i < |rs| && 0 <= j < |rs[i]| ==> IsTokenChar(rs[i][j]) == IsTokenChar(rs[i][0]))
    && (forall i :: 0 <= i < |rs| - 1 ==> IsTokenChar(rs[i][0]) != IsTokenChar(rs[i + 1][0]))
  }

  lemma RunsOkTail(rs: seq<string>)
    requires RunsOk(rs) && rs != []
    ensures RunsOk(rs[1..])
  {
    assert forall i :: 0 <= i < |rs| - 1 ==> rs[1..][i] == rs[i + 1];
  }

  lemma ConcatCons(g: string, rest: seq<string>)
    ensures Concat([g] + rest) == g + Concat(rest)
  {
    assert ([g] + rest)[1..] == rest;
  }

  /** `s` cut into its maximal runs of token and of non-token characters. */
  function Runs(s: string): (rs: seq<string>)
    ensures Concat(rs) == s && RunsOk(rs)
    decreases |s|
  {
    if s == [] then [] else
      var n := RunLength(s, IsTokenChar(s[0]));
      var rest := Runs(s[n..]);
      ConcatCons(s[..n], rest);
      assert s[..n] + s[n..] == s;
      assert forall i :: 0 < i < |[s[..n]] + rest| ==> ([s[..n]] + rest)[i] == rest[i - 1];
      assert rest != [] ==> rest[0][0] == s[n];
      [s[..n]] + rest
  }

  /** The token runs, in order. */
  function TokensOf(rs: seq<string>): seq<string> {
    if rs == [] then [] else (if IsTokenRun(rs[0]) then [rs[0]] else []) + TokensOf(rs[1..])
  }

  /** `RE_TOKEN.findall(s)`: the maximal runs of token characters, left to right. */
  function Tokens(s: string): seq<string> {
    TokensOf(Runs(s))
  }

  /** Every token found is non-empty and made of token characters only. */
  lemma {:induction false} TokensAreTokens(rs: seq<string>)
    requires RunsOk(rs)
    ensures forall t :: t in TokensOf(rs) ==> t != [] && forall j :: 0 <= j < |t| ==> IsTokenChar(t[j])
  {
    if rs != [] {
      RunsOkTail(rs);
      TokensAreTokens(rs[1..]);
    }
  }

  // ------------------------------------------- stage (c): digits in words

  predicate HasDigit(t: string) { exists i :: 0 <= i < |t| && IsDigit(t[i]) }
  predicate HasAlpha(t: string) { exists i :: 0 <= i < |t| && IsAlpha(t[i]) }

  /** `any(ch.isdigit() ...) and any(ch.isalpha() ...)`. */
  predicate MixesDigitsAndLetters(t: string) { HasDigit(t) && HasAlpha(t) }

  function SwapDigit(c: char): char {
    if c in DigitToCyr then DigitToCyr[c] else c
  }

  /**
   * `_fix_token`: a token holding both a digit and a letter gets 0, 1 and 3
   * swapped for their look-alike letters; any other token comes back unchanged.
   */
  function FixToken(t: string): (r: string)
    ensures |r| == |t|
    ensures forall i :: 0 <= i < |t| ==> r[i] == t[i] || (t[i] in DigitToCyr && r[i] == DigitToCyr[t[i]])
    ensures r != t ==> MixesDigitsAndLetters(t)
    ensures MixesDigitsAndLetters(t) ==> forall i :: 0 <= i < |r| ==> r[i] !in DigitToCyr
  {
    if MixesDigitsAndLetters(t) then seq(|t|, i requires 0 <= i < |t| => SwapDigit(t[i])) else t
  }

  /** The character loop inside `_fix_token`. */
  method FixTokenChars(token: string) returns (r: string)
    ensures r == FixToken(token)
  {
    if !MixesDigitsAndLetters(token) {
      return token;
    }
    var chars: string := [];
    for i := 0 to |token|
      invariant chars == seq(i, j requires 0 <= j < i => SwapDigit(token[j]))
    {
      if token[i] in DigitToCyr {
        chars := chars + [DigitToCyr[token[i]]];
      } else {
        chars := chars + [token[i]];
      }
    }
    r := chars;
  }

  /** A run after stage (c): token runs go through `_fix_token`, the others stay. */
  function FixRun(g: string): string {
    if IsTokenRun(g) then FixToken(g) else g
  }

  function FixAll(rs: seq<string>): seq<string> {
    if rs == [] then [] else [FixRun(rs[0])] + FixAll(rs[1..])
  }

  /**
   * What `_fix_latin_and_digits` returns: the normalised string with every token
   * replaced, where it stands, by its `_fix_token` form.
   */
  function FixedLatinAndDigits(s: string): string {
    Concat(FixAll(Runs(Normalize(s))))
  }

  // ------------------------------------------------- str.replace(t, u, 1)

  /** `s.replace(pat, repl, 1)`: the first occurrence of `pat`, if any, replaced by `repl`. */
  function Replace1(s: string, pat: string, repl: string): string
    decreases |s|
  {
    if OccursAt(s, pat, 0) then repl + s[|pat|..]
    else if s == [] then s
    else [s[0]] + Replace1(s[1..], pat, repl)
  }

  /** Without an occurrence of `pat` the string comes back unchanged. */
  lemma {:induction false} Replace1NoMatch(s: string, pat: string, repl: string)
    requires forall i :: 0 <= i <= |s| ==> !OccursAt(s, pat, i)
    ensures Replace1(s, pat, repl) == s
    decreases |s|
  {
    if s != [] {
      assert !OccursAt(s, pat, 0);
      forall i | 0 <= i <= |s| - 1 ensures !OccursAt(s[1..], pat, i) {
        if OccursAt(s[1..], pat, i) {
          assert s[i + 1..i + 1 + |pat|] == s[1..][i..i + |pat|];
          assert OccursAt(s, pat, i + 1);
        }
      }
      Replace1NoMatch(s[1..], pat, repl);
      assert [s[0]] + s[1..] == s;
    }
  }

  /** Replacing the first occurrence at position `p` splices `repl` in there. */
  lemma {:induction false} Replace1First(s: string, pat: string, repl: string, p: nat)
    requires OccursAt(s, pat, p) && forall i :: 0 <= i < p ==> !OccursAt(s, pat, i)
    ensures Replace1(s, pat, repl) == s[..p] + repl + s[p + |pat|..]
    decreases p
  {
    if p > 0 {
      var t := s[1..];
      assert Replace1(s, pat, repl) == [s[0]] + Replace1(t, pat, repl) by {
        assert !OccursAt(s, pat, 0);
      }
      FirstOccurrenceInTail(s, pat, p);
      Replace1First(t, pat, repl, p - 1);
      SpliceInTail(s, repl, p, |pat|);
    } else {
      assert s[..0] + repl == repl;
    }
  }

  /** Splicing into the tail at `p - 1` is splicing into the whole string at `p`. */
  lemma SpliceInTail(s: string, repl: string, p: nat, n: nat)
    requires 0 < p && p + n <= |s|
    ensures [s[0]] + (s[1..][..p - 1] + repl + s[1..][p - 1 + n..]) == s[..p] + repl + s[p + n..]
  {
    assert [s[0]] + s[1..][..p - 1] == s[..p];
    assert s[1..][p - 1 + n..] == s[p + n..];
  }

  /** The first occurrence at `p > 0` is the first occurrence at `p - 1` in the tail. */
  lemma FirstOccurrenceInTail(s: string, pat: string, p: nat)
    requires 0 < p && OccursAt(s, pat, p) && forall i :: 0 <= i < p ==> !OccursAt(s, pat, i)
    ensures OccursAt(s[1..], pat, p - 1) && forall i :: 0 <= i < p - 1 ==> !OccursAt(s[1..], pat, i)
  {
    var t := s[1..];
    assert t[p - 1..p - 1 + |pat|] == s[p..p + |pat|];
    forall i | 0 <= i < p - 1 ensures !OccursAt(t, pat, i) {
      if OccursAt(t, pat, i) {
        OccursShiftTail(s, pat, i);
      }
    }
  }

  /** Replacing a string by itself changes nothing. */
  lemma {:induction false} Replace1Same(s: string, t: string)
    ensures Replace1(s, t, t) == s
    decreases |s|
  {
    if OccursAt(s, t, 0) {
      assert s == s[..|t|] + s[|t|..];
    } else if s != [] {
      Replace1Same(s[1..], t);
      assert s == [s[0]] + s[1..];
    }
  }

  /** One occurrence test, read one character further on. */
  lemma OccursShiftTail(s: string, t: string, i: nat)
    requires s != [] && OccursAt(s[1..], t, i)
    ensures OccursAt(s, t, i + 1)
  {
    assert s[i + 1..i + 1 + |t|] == s[1..][i..i + |t|];
  }

  /** No occurrence of `t` starts inside `a`, so the replacement happens in `b`. */
  lemma {:induction false} Replace1Skip(a: string, b: string, t: string, u: string)
    requires forall i :: 0 <= i < |a| ==> !OccursAt(a + b, t, i)
    ensures Replace1(a + b, t, u) == a + Replace1(b, t, u)
    decreases |a|
  {
    if a == [] {
      assert a + b == b;
    } else {
      var s := a + b;
      assert !OccursAt(s, t, 0);
      assert Replace1(s, t, u) == [s[0]] + Replace1(s[1..], t, u);
      assert s[1..] == a[1..] + b;
      forall i | 0 <= i < |a| - 1 ensures !OccursAt(a[1..] + b, t, i) {
        if OccursAt(a[1..] + b, t, i) {
          OccursShiftTail(s, t, i);
        }
      }
      Replace1Skip(a[1..], b, t, u);
      assert s[0] == a[0];
      assert [a[0]] + (a[1..] + Replace1(b, t, u)) == a + Replace1(b, t, u);
    }
  }

  // ----------------------------------------- the replace loop is in place

  /**
   * The runs after the first `k` tokens have been through the replace loop of
   * `_fix_latin_and_digits`.
   */
  function Rebuilt(rs: seq<string>, k: nat): seq<string> {
    if rs == [] || k == 0 then rs
    else [FixRun(rs[0])] + Rebuilt(rs[1..], if IsTokenRun(rs[0]) then k - 1 else k)
  }

  /** A rebuilt string that starts with a non-token run starts with a non-token character. */
  lemma RebuiltHead(rs: seq<string>, k: nat)
    requires RunsOk(rs) && rs != [] && !IsTokenRun(rs[0])
    ensures Concat(Rebuilt(rs, k)) != [] && !IsTokenChar(Concat(Rebuilt(rs, k))[0])
  {
    if k == 0 {
      ConcatCons(rs[0], rs[1..]);
      assert [rs[0]] + rs[1..] == rs;
    } else {
      ConcatCons(rs[0], Rebuilt(rs[1..], k));
    }
  }

  /** Inside an already fixed token there is no occurrence of a later token that its fix changes. */
  lemma NoEarlyOccurrence(g: string, x: string, t: string)
    requires t != [] && forall j :: 0 <= j < |t| ==> IsTokenChar(t[j])
    requires x == [] || !IsTokenChar(x[0])
    requires FixToken(t) != t
    ensures forall i :: 0 <= i < |g| ==> !OccursAt(FixToken(g) + x, t, i)
  {
    var f := FixToken(g);
    var q :| 0 <= q < |t| && FixToken(t)[q] != t[q];
    assert t[q] in DigitToCyr;
    var l :| 0 <= l < |t| && IsAlpha(t[l]);
    forall i | 0 <= i < |g| ensures !OccursAt(f + x, t, i) {
      if i + |t| <= |f| {
        var w := (f + x)[i..i + |t|];
        assert w[q] == f[i + q] && w[l] == f[i + l];
        if !MixesDigitsAndLetters(g) {
          assert f == g;
          assert w == t ==> HasDigit(g) && HasAlpha(g);
        }
      } else if i + |t| <= |f| + |x| {
        var w := (f + x)[i..i + |t|];
        assert w[|f| - i] == x[0];
      }
    }
  }

  /** A non-token run ahead of the tokens: the replacement happens after it. */
  lemma StepPastGap(rs: seq<string>, k: nat)
    requires RunsOk(rs) && rs != [] && !IsTokenRun(rs[0]) && k < |TokensOf(rs[1..])|
    requires var t := TokensOf(rs[1..])[k];
      Replace1(Concat(Rebuilt(rs[1..], k)), t, FixToken(t)) == Concat(Rebuilt(rs[1..], k + 1))
    ensures TokensOf(rs) == TokensOf(rs[1..])
    ensures var t := TokensOf(rs)[k];
      Replace1(Concat(Rebuilt(rs, k)), t, FixToken(t)) == Concat(Rebuilt(rs, k + 1))
  {
    var g, rest := rs[0], rs[1..];
    RunsOkTail(rs);
    TokensAreTokens(rest);
    var t := TokensOf(rest)[k];
    assert t in TokensOf(rest);
    var x := Concat(Rebuilt(rest, k));
    assert Rebuilt(rs, k) == [g] + Rebuilt(rest, k) by {
      if k == 0 { assert rs == [g] + rest; }
    }
    ConcatCons(g, Rebuilt(rest, k));
    ConcatCons(g, Rebuilt(rest, k + 1));
    NoOccurrenceInGap(g, x, t);
    Replace1Skip(g, x, t, FixToken(t));
  }

  /** A token cannot start inside a run of non-token characters. */
  lemma NoOccurrenceInGap(g: string, x: string, t: string)
    requires t != [] && IsTokenChar(t[0])
    requires forall j :: 0 <= j < |g| ==> !IsTokenChar(g[j])
    ensures forall i :: 0 <= i < |g| ==> !OccursAt(g + x, t, i)
  {
    forall i | 0 <= i < |g| ensures !OccursAt(g + x, t, i) {
      if i + |t| <= |g| + |x| {
        assert (g + x)[i..i + |t|][0] == g[i];
      }
    }
  }

  /** The first token run heads the runs: it is the one replaced. */
  lemma StepAtToken(rs: seq<string>)
    requires RunsOk(rs) && rs != [] && IsTokenRun(rs[0])
    ensures TokensOf(rs) != [] && TokensOf(rs)[0] == rs[0]
    ensures Replace1(Concat(Rebuilt(rs, 0)), rs[0], FixToken(rs[0])) == Concat(Rebuilt(rs, 1))
  {
    var g, rest := rs[0], rs[1..];
    assert rs == [g] + rest;
    ConcatCons(g, rest);
    assert OccursAt(Concat(rs), g, 0);
    assert (g + Concat(rest))[|g|..] == Concat(rest);
    ConcatCons(FixToken(g), rest);
  }

  /** A token run that is already fixed: the replacement happens after it. */
  lemma StepPastToken(rs: seq<string>, k: nat)
    requires RunsOk(rs) && rs != [] && IsTokenRun(rs[0]) && 0 < k && k - 1 < |TokensOf(rs[1..])|
    requires var t := TokensOf(rs[1..])[k - 1];
      Replace1(Concat(Rebuilt(rs[1..], k - 1)), t, FixToken(t)) == Concat(Rebuilt(rs[1..], k))
    ensures TokensOf(rs) == [rs[0]] + TokensOf(rs[1..])
    ensures var t := TokensOf(rs)[k];
      Replace1(Concat(Rebuilt(rs, k)), t, FixToken(t)) == Concat(Rebuilt(rs, k + 1))
  {
    var g, rest := rs[0], rs[1..];
    assert TokensOf(rs) == [g] + TokensOf(rest);
    RunsOkTail(rs);
    var t := TokensOf(rest)[k - 1];
    assert TokensOf(rs)[k] == t;
    var f := FixToken(g);
    var x, y := Concat(Rebuilt(rest, k - 1)), Concat(Rebuilt(rest, k));
    assert Concat(Rebuilt(rs, k)) == f + x by {
      assert Rebuilt(rs, k) == [f] + Rebuilt(rest, k - 1);
      ConcatCons(f, Rebuilt(rest, k - 1));
    }
    assert Concat(Rebuilt(rs, k + 1)) == f + y by {
      assert Rebuilt(rs, k + 1) == [f] + Rebuilt(rest, k);
      ConcatCons(f, Rebuilt(rest, k));
    }
    assert Replace1(x, t, FixToken(t)) == y;
    StepPastFixedToken(g, rest, k, x, y, t);
  }

  /** `StepPastToken` once the strings are named: `f + x` becomes `f + y`. */
  lemma StepPastFixedToken(g: string, rest: seq<string>, k: nat, x: string, y: string, t: string)
    requires RunsOk([g] + rest) && IsTokenRun(g) && 0 < k && k - 1 < |TokensOf(rest)|
    requires RunsOk(rest) && t == TokensOf(rest)[k - 1] && x == Concat(Rebuilt(rest, k - 1))
    requires Replace1(x, t, FixToken(t)) == y
    ensures Replace1(FixToken(g) + x, t, FixToken(t)) == FixToken(g) + y
  {
    var f := FixToken(g);
    assert t != [] && forall j :: 0 <= j < |t| ==> IsTokenChar(t[j]) by {
      TokensAreTokens(rest);
      assert t in TokensOf(rest);
    }
    if FixToken(t) == t {
      Replace1Same(f + x, t);
      Replace1Same(x, t);
    } else {
      assert rest != [] && !IsTokenRun(rest[0]) by {
        var rs := [g] + rest;
        assert rest != [] by { assert TokensOf(rest) != []; }
        assert rs[0] == g && rs[1] == rest[0];
      }
      RebuiltHead(rest, k - 1);
      StepPastChangedToken(g, x, y, t);
    }
  }

  /** A token the fix changes cannot occur inside an earlier fixed token: the replacement lands in `x`. */
  lemma StepPastChangedToken(g: string, x: string, y: string, t: string)
    requires t != [] && forall j :: 0 <= j < |t| ==> IsTokenChar(t[j])
    requires x == [] || !IsTokenChar(x[0])
    requires FixToken(t) != t && Replace1(x, t, FixToken(t)) == y
    ensures Replace1(FixToken(g) + x, t, FixToken(t)) == FixToken(g) + y
  {
    NoEarlyOccurrence(g, x, t);
    Replace1Skip(FixToken(g), x, t, FixToken(t));
  }

  /**
   * One turn of the replace loop: `rebuilt.replace(t, _fix_token(t), 1)` on
   * token number `k` fixes exactly that token where it stands.
   */
  lemma {:induction false} ReplaceStep(rs: seq<string>, k: nat)
    requires RunsOk(rs) && k < |TokensOf(rs)|
    ensures var t := TokensOf(rs)[k];
      Replace1(Concat(Rebuilt(rs, k)), t, FixToken(t)) == Concat(Rebuilt(rs, k + 1))
    decreases |rs|
  {
    RunsOkTail(rs);
    if !IsTokenRun(rs[0]) {
      assert TokensOf(rs) == TokensOf(rs[1..]);
      ReplaceStep(rs[1..], k);
      StepPastGap(rs, k);
    } else if k == 0 {
      StepAtToken(rs);
    } else {
      assert TokensOf(rs) == [rs[0]] + TokensOf(rs[1..]);
      ReplaceStep(rs[1..], k - 1);
      StepPastToken(rs, k);
    }
  }

  /** Without tokens every run stays as it is. */
  lemma {:induction false} FixAllNoTokens(rs: seq<string>)
    requires TokensOf(rs) == []
    ensures FixAll(rs) == rs
  {
    if rs != [] {
      FixAllNoTokens(rs[1..]);
      assert [rs[0]] + rs[1..] == rs;
    }
  }

  /** After the last token the rebuilt runs are `FixAll`. */
  lemma {:induction false} RebuiltAll(rs: seq<string>)
    ensures Rebuilt(rs, |TokensOf(rs)|) == FixAll(rs)
  {
    if rs != [] {
      if |TokensOf(rs)| == 0 {
        FixAllNoTokens(rs);
      } else {
        RebuiltAll(rs[1..]);
      }
    }
  }

  /** The loop building `out_tokens`: the `_fix_token` of every token, in order. */
  method FixEachToken(tokens: seq<string>) returns (outTokens: seq<string>)
    ensures |outTokens| == |tokens|
    ensures forall j :: 0 <= j < |tokens| ==> outTokens[j] == FixToken(tokens[j])
  {
    outTokens := [];
    for k := 0 to |tokens|
      invariant |outTokens| == k && forall j :: 0 <= j < k ==> outTokens[j] == FixToken(tokens[j])
    {
      var f := FixTokenChars(tokens[k]);
      outTokens := outTokens + [f];
    }
  }

  /**
   * The loop of `rebuilt = rebuilt.replace(t, out_tokens.pop(0), 1)` over the
   * tokens of `s`: each replacement lands on the token it came from.
   */
  method ReplaceTokens(s: string, tokens: seq<string>, outTokens0: seq<string>) returns (rebuilt: string)
    requires tokens == Tokens(s) && |outTokens0| == |tokens|
    requires forall j :: 0 <= j < |tokens| ==> outTokens0[j] == FixToken(tokens[j])
    ensures rebuilt == Concat(FixAll(Runs(s)))
  {
    ghost var rs := Runs(s);
    var outTokens := outTokens0;
    rebuilt := s;
    for k := 0 to |tokens|
      invariant rebuilt == Concat(Rebuilt(rs, k))
      invariant outTokens == outTokens0[k..]
    {
      ReplaceStep(rs, k);
      rebuilt := Replace1(rebuilt, tokens[k], outTokens[0]);
      outTokens := outTokens[1..];
    }
    RebuiltAll(rs);
  }

  /**
   * `_fix_latin_and_digits`: stages (a) and (b), the `_fix_token` of every
   * token, then the replace loop. The result is the normalised string with
   * each token fixed where it stands.
   */
  method FixLatinAndDigits(s0: string) returns (rebuilt: string)
    ensures rebuilt == FixedLatinAndDigits(s0)
  {
    var s := Normalize(s0);
    var tokens := Tokens(s);
    var outTokens := FixEachToken(tokens);
    rebuilt := ReplaceTokens(s, tokens, outTokens);
  }

  // --------------------------------------------- properties of stage (c)

  /** `y` is `x` with some of its 0, 1 and 3 swapped for their look-alike letters. */
  predicate DigitsSwapped(x: string, y: string) {
    |y| == |x| && forall i :: 0 <= i < |x| ==> y[i] == x[i] || (x[i] in DigitToCyr && y[i] == DigitToCyr[x[i]])
  }

  lemma DigitsSwappedAppend(a: string, b: string, c: string, d: string)
    requires DigitsSwapped(a, b) && DigitsSwapped(c, d)
    ensures DigitsSwapped(a + c, b + d)
  {
    forall i | |a| <= i < |a| + |c| ensures (b + d)[i] == d[i - |a|] && (a + c)[i] == c[i - |a|] { }
  }

  lemma {:induction false} FixAllSwapsDigits(rs: seq<string>)
    ensures DigitsSwapped(Concat(rs), Concat(FixAll(rs)))
  {
    if rs != [] {
      FixAllSwapsDigits(rs[1..]);
      DigitsSwappedAppend(rs[0], FixRun(rs[0]), Concat(rs[1..]), Concat(FixAll(rs[1..])));
    }
  }

  /** Swapping digits for letters touches no whitespace and brings in no dash. */
  lemma DigitsSwappedKeepsShape(n: string, r: string)
    requires DigitsSwapped(n, r) && NoDash(n) && Collapsed(n)
    ensures NoDash(r) && Collapsed(r)
  {
    forall i | 0 <= i < |r| ensures !IsDash(r[i]) && (IsSpace(r[i]) <==> IsSpace(n[i])) && (IsSpace(r[i]) ==> r[i] == n[i]) {
      SwappedChar(n[i], r[i]);
    }
  }

  /** One swapped character: a dash or a space only where there was one already. */
  lemma SwappedChar(x: char, y: char)
    requires y == x || (x in DigitToCyr && y == DigitToCyr[x])
    ensures (IsDash(y) ==> IsDash(x)) && (IsSpace(y) <==> IsSpace(x)) && (IsSpace(y) ==> y == x)
  {
    if y != x {
      if x == '0' {
        assert y == '\U{41E}';
      } else if x == '1' {
        assert y == '\U{406}';
      } else {
        assert y == '\U{417}';
      }
    }
  }

  /**
   * The result of `_fix_latin_and_digits` is the normalised string with only
   * 0, 1 and 3 possibly swapped: it has no dash, and its whitespace is single
   * ' ' characters between words.
   */
  lemma FixedLatinAndDigitsShape(s: string)
    ensures DigitsSwapped(Normalize(s), FixedLatinAndDigits(s))
    ensures NoDash(FixedLatinAndDigits(s)) && Collapsed(FixedLatinAndDigits(s))
  {
    var n := Normalize(s);
    FixAllSwapsDigits(Runs(n));
    DigitsSwappedKeepsShape(n, FixedLatinAndDigits(s));
  }

  lemma {:induction false} FixAllUnmixed(rs: seq<string>)
    requires forall t :: t in TokensOf(rs) ==> !MixesDigitsAndLetters(t)
    ensures FixAll(rs) == rs
  {
    if rs != [] {
      FixAllUnmixed(rs[1..]);
      assert [rs[0]] + rs[1..] == rs;
    }
  }

  /**
   * When no token mixes digits and letters, `_fix_latin_and_digits` returns the
   * translated, dash- and space-normalised string unchanged.
   */
  lemma UnmixedTokensUnchanged(s: string)
    requires forall t :: t in Tokens(Normalize(s)) ==> !MixesDigitsAndLetters(t)
    ensures FixedLatinAndDigits(s) == Normalize(s)
  {
    FixAllUnmixed(Runs(Normalize(s)));
  }

  // ------------------------------------------------------------- _closer

  /** `difflib.SequenceMatcher(None, a, b).ratio()`, supplied by the caller. */
  type Ratio = (string, string) -> real

  /** The ratio of `a` against every candidate, both upper-cased. */
  function Ratios(a: string, cands: seq<string>, ratio: Ratio): (rs: seq<real>)
    ensures |rs| == |cands|
  {
    seq(|cands|, i requires 0 <= i < |cands| => ratio(UpperStr(a), UpperStr(cands[i])))
  }

  /** Candidate `i` has a ratio above 0, beats every earlier one and is not beaten by a later one. */
  predicate FirstBest(rs: seq<real>, i: int) {
    && 0 <= i < |rs| && rs[i] > 0.0
    && (forall j :: 0 <= j < i ==> rs[j] < rs[i])
    && (forall j :: i < j < |rs| ==> rs[j] <= rs[i])
  }

  /** `best` (as an index) and `best_ratio` of `_closer`'s loop. */
  datatype Best = Best(index: Option<nat>, ratio: real)

  /**
   * The loop state after the ratios `rs`: the best ratio bounds every ratio and
   * 0, and the index is the first candidate reaching it (none while it is 0).
   */
  function Scan(rs: seq<real>): (b: Best)
    ensures b.ratio >= 0.0 && forall j :: 0 <= j < |rs| ==> rs[j] <= b.ratio
    ensures b.index.None? ==> b.ratio == 0.0
    ensures b.index.Some? ==> FirstBest(rs, b.index.value) && b.ratio == rs[b.index.value]
  {
    if rs == [] then Best(None, 0.0)
    else
      var front := rs[..|rs| - 1];
      assert forall j :: 0 <= j < |rs| - 1 ==> front[j] == rs[j];
      var b := Scan(front);
      if rs[|rs| - 1] > b.ratio then Best(Some(|rs| - 1), rs[|rs| - 1]) else b
  }

  /**
   * What `_closer(a, candidates, cutoff)` returns: a candidate whose ratio
   * reaches `cutoff` and which no other candidate beats, or None.
   */
  function BestMatch(a: string, cands: seq<string>, cutoff: real, ratio: Ratio): (r: Option<string>)
    ensures r.Some? ==> r.value in cands && ratio(UpperStr(a), UpperStr(r.value)) >= cutoff
    ensures r.Some? ==> forall c :: c in cands ==> ratio(UpperStr(a), UpperStr(c)) <= ratio(UpperStr(a), UpperStr(r.value))
  {
    var rs := Ratios(a, cands, ratio);
    var b := Scan(rs);
    if b.index.Some? && b.ratio >= cutoff then
      assert forall c :: c in cands ==> exists j :: 0 <= j < |cands| && cands[j] == c && rs[j] == ratio(UpperStr(a), UpperStr(c));
      Some(cands[b.index.value])
    else None
  }

  /**
   * `_closer` returns candidate `c` exactly when `c` is the earliest of the
   * candidates with the highest ratio, that ratio is above 0 and it reaches
   * the cutoff; on equal ratios the earlier candidate wins.
   */
  lemma BestMatchIsFirstBest(a: string, cands: seq<string>, cutoff: real, ratio: Ratio, c: string)
    ensures var rs := Ratios(a, cands, ratio);
      BestMatch(a, cands, cutoff, ratio) == Some(c)
      <==> exists i :: FirstBest(rs, i) && rs[i] >= cutoff && cands[i] == c
  {
    var rs := Ratios(a, cands, ratio);
    var b := Scan(rs);
    if i :| FirstBest(rs, i) && rs[i] >= cutoff && cands[i] == c {
      assert b.index.Some?;
    }
  }

  /** `_closer`: the running best over the candidates, then the cutoff test. */
  method Closer(a: string, candidates: seq<string>, cutoff: real, ratio: Ratio) returns (r: Option<string>)
    ensures r == BestMatch(a, candidates, cutoff, ratio)
  {
    var best: Option<string> := None;
    var bestRatio := 0.0;
    var ua := UpperStr(a);
    ghost var rs := Ratios(a, candidates, ratio);
    for k := 0 to |candidates|
      invariant bestRatio == Scan(rs[..k]).ratio
      invariant best == if Scan(rs[..k]).index.Some? then Some(candidates[Scan(rs[..k]).index.value]) else None
    {
      var rk := ratio(ua, UpperStr(candidates[k]));
      assert rs[..k + 1][..k] == rs[..k];
      if rk > bestRatio {
        bestRatio := rk;
        best := Some(candidates[k]);
      }
    }
    assert rs[..|candidates|] == rs;
    r := if bestRatio >= cutoff then best else None;
  }

  // ---------------------------------------------------- heading snapping

  /**
   * `_fix_heading_like`: the line itself, or the PHRASES entry that `_closer`
   * picks at cutoff 0.82, which no other phrase beats.
   */
  function FixHeadingLike(line: string, ratio: Ratio): (r: string)
    ensures r == line || r in Phrases
    ensures r != line ==> ratio(UpperStr(line), UpperStr(r)) >= 0.82
    ensures r != line ==> forall p :: p in Phrases ==> ratio(UpperStr(line), UpperStr(p)) <= ratio(UpperStr(line), UpperStr(r))
  {
    match BestMatch(line, Phrases, 0.82, ratio)
    case Some(c) => if c != "" then c else line
    case None => line
  }

  /** A line close to no phrase is left alone. */
  lemma HeadingKeptWhenFar(line: string, ratio: Ratio)
    requires forall p :: p in Phrases ==> ratio(UpperStr(line), UpperStr(p)) < 0.82
    ensures FixHeadingLike(line, ratio) == line
  {
  }

  // ------------------------------------------------------- term snapping

  /** `[А-Яа-яЁё]`. */
  predicate IsRussianLetter(c: char) { '\U{410}' <= c <= '\U{44F}' || c == '\U{401}' || c == '\U{451}' }

  predicate HasLatin(t: string) { exists i :: 0 <= i < |t| && IsLatin(t[i]) }
  predicate HasRussian(t: string) { exists i :: 0 <= i < |t| && IsRussianLetter(t[i]) }

  /** `str.isupper()`: there is a letter, and every letter is upper-case. */
  predicate IsUpperWord(t: string) {
    HasAlpha(t) && forall i :: 0 <= i < |t| && IsAlpha(t[i]) ==> IsOwnUpper(t[i])
  }

  /** The tokens `_fix_terms_in_line` looks up: mixed-script, digit-in-word or all upper-case. */
  predicate Suspicious(t: string) {
    (HasLatin(t) && HasRussian(t)) || MixesDigitsAndLetters(t) || IsUpperWord(t)
  }

  /** One entry `src: dst` of the `replaced` dict. */
  datatype Replacement = Replacement(src: string, dst: string)

  /** `d[src] = dst` on a dict kept as its entries in insertion order. */
  function Put(d: seq<Replacement>, src: string, dst: string): (r: seq<Replacement>)
    ensures Replacement(src, dst) in r
    ensures forall p :: p in r ==> p in d || p == Replacement(src, dst)
  {
    if d == [] then [Replacement(src, dst)]
    else if d[0].src == src then [Replacement(src, dst)] + d[1..]
    else [d[0]] + Put(d[1..], src, dst)
  }

  /** The `replaced` dict after the tokens `ts` have been looked up in TERMS at cutoff 0.9. */
  function Replacements(ts: seq<string>, ratio: Ratio): seq<Replacement> {
    if ts == [] then [] else
      var d := Replacements(ts[..|ts| - 1], ratio);
      var tok := ts[|ts| - 1];
      if !Suspicious(tok) then d
      else match BestMatch(tok, Terms, 0.9, ratio)
        case Some(near) => if near != "" then Put(d, tok, near) else d
        case None => d
  }

  /**
   * Every entry of `replaced` maps a suspicious token of the line to a TERMS
   * entry whose ratio against it is at least 0.9.
   */
  lemma {:induction false} ReplacementsSound(ts: seq<string>, ratio: Ratio)
    ensures forall p :: p in Replacements(ts, ratio) ==>
      p.src in ts && Suspicious(p.src) && p.dst in Terms && ratio(UpperStr(p.src), UpperStr(p.dst)) >= 0.9
  {
    if ts != [] {
      ReplacementsSound(ts[..|ts| - 1], ratio);
      assert forall t :: t in ts[..|ts| - 1] ==> t in ts;
    }
  }

  /** No suspicious token, no entry. */
  lemma {:induction false} NoSuspiciousNoReplacements(ts: seq<string>, ratio: Ratio)
    requires forall t :: t in ts ==> !Suspicious(t)
    ensures Replacements(ts, ratio) == []
  {
    if ts != [] {
      assert forall t :: t in ts[..|ts| - 1] ==> t in ts;
      NoSuspiciousNoReplacements(ts[..|ts| - 1], ratio);
    }
  }

  /** `re.sub(rf"\b{re.escape(src)}\b", dst, s)`, scanning from position `i`. */
  function SubWordFrom(s: string, i: nat, src: string, dst: string): string
    requires src != [] && i <= |s|
    decreases |s| - i
  {
    if i == |s| then []
    else if OccursAt(s, src, i) && Boundary(s, i) && Boundary(s, i + |src|) then dst + SubWordFrom(s, i + |src|, src, dst)
    else [s[i]] + SubWordFrom(s, i + 1, src, dst)
  }

  function SubWord(s: string, src: string, dst: string): string
    requires src != []
  {
    SubWordFrom(s, 0, src, dst)
  }

  /** A whole-word match of `src` at position `j`. */
  predicate WordAt(s: string, src: string, j: int) {
    OccursAt(s, src, j) && Boundary(s, j) && Boundary(s, j + |src|)
  }

  /** Without a whole-word occurrence of `src` the substitution changes nothing. */
  lemma {:induction false} SubWordNoMatch(s: string, i: nat, src: string, dst: string)
    requires src != [] && i <= |s|
    requires forall j :: i <= j < |s| ==> !WordAt(s, src, j)
    ensures SubWordFrom(s, i, src, dst) == s[i..]
    decreases |s| - i
  {
    if i < |s| {
      assert !WordAt(s, src, i);
      assert SubWordFrom(s, i, src, dst) == [s[i]] + SubWordFrom(s, i + 1, src, dst);
      SubWordNoMatch(s, i + 1, src, dst);
      assert s[i..] == [s[i]] + s[i + 1..];
    }
  }

  /** Substituting a word by itself changes nothing. */
  lemma {:induction false} SubWordSame(s: string, i: nat, src: string)
    requires src != [] && i <= |s|
    ensures SubWordFrom(s, i, src, src) == s[i..]
    decreases |s| - i
  {
    if i < |s| {
      if WordAt(s, src, i) {
        SubWordSame(s, i + |src|, src);
        assert s[i..] == s[i..i + |src|] + s[i + |src|..];
      } else {
        SubWordSame(s, i + 1, src);
        assert s[i..] == [s[i]] + s[i + 1..];
      }
    }
  }

  /** The substitutions of `replaced`, in its order. */
  function ApplyReplacements(s: string, reps: seq<Replacement>): string
    requires forall p :: p in reps ==> p.src != []
    decreases |reps|
  {
    if reps == [] then s else ApplyReplacements(SubWord(s, reps[0].src, reps[0].dst), reps[1..])
  }

  /** What `_fix_terms_in_line` returns. */
  function FixedTermsInLine(line: string, ratio: Ratio): string {
    var ts := Tokens(line);
    if ts == [] then line
    else
      ReplacementsSound(ts, ratio);
      TokensAreTokens(Runs(line));
      ApplyReplacements(line, Replacements(ts, ratio))
  }

  /**
   * Substitutions the term stage may make on `line`: each replaces whole-word
   * occurrences of a suspicious token of the line by a TERMS entry whose ratio
   * against it is at least 0.9.
   */
  predicate TermSwaps(line: string, reps: seq<Replacement>, ratio: Ratio) {
    forall p :: p in reps ==>
      p.src != [] && p.src in Tokens(line) && Suspicious(p.src) && p.dst in Terms
      && ratio(UpperStr(p.src), UpperStr(p.dst)) >= 0.9
  }

  /** The only changes `_fix_terms_in_line` makes are whole-word swaps of suspicious tokens for TERMS entries. */
  lemma TermStageSwapsWords(line: string, ratio: Ratio)
    ensures exists reps :: TermSwaps(line, reps, ratio) && FixedTermsInLine(line, ratio) == ApplyReplacements(line, reps)
  {
    var ts := Tokens(line);
    if ts == [] {
      assert TermSwaps(line, [], ratio) && FixedTermsInLine(line, ratio) == ApplyReplacements(line, []);
    } else {
      var reps := Replacements(ts, ratio);
      ReplacementsSound(ts, ratio);
      TokensAreTokens(Runs(line));
      assert TermSwaps(line, reps, ratio);
      assert FixedTermsInLine(line, ratio) == ApplyReplacements(line, reps);
    }
  }

  /** A line without a suspicious token is returned unchanged. */
  lemma TermsKeptWhenNoneSuspicious(line: string, ratio: Ratio)
    requires forall t :: t in Tokens(line) ==> !Suspicious(t)
    ensures FixedTermsInLine(line, ratio) == line
  {
    NoSuspiciousNoReplacements(Tokens(line), ratio);
  }

  /**
   * `_fix_terms_in_line`: look every token up, collect the `replaced` dict,
   * then apply its whole-word substitutions in insertion order.
   */
  method FixTermsInLine(line: string, ratio: Ratio) returns (out: string)
    ensures out == FixedTermsInLine(line, ratio)
  {
    var tokens := Tokens(line);
    if tokens == [] {
      return line;
    }
    var replaced: seq<Replacement> := [];
    for k := 0 to |tokens|
      invariant replaced == Replacements(tokens[..k], ratio)
    {
      var tok := tokens[k];
      ReplacementsSnoc(tokens, k, ratio);
      if Suspicious(tok) {
        var near := Closer(tok, Terms, 0.9, ratio);
        if near.Some? && near.value != "" {
          replaced := Put(replaced, tok, near.value);
        }
      }
    }
    assert tokens[..|tokens|] == tokens;
    ReplacementsSound(tokens, ratio);
    TokensAreTokens(Runs(line));
    out := SubWords(line, replaced);
  }

  /** One more token looked up: its entry, if any, is put into the dict. */
  lemma ReplacementsSnoc(ts: seq<string>, k: nat, ratio: Ratio)
    requires k < |ts|
    ensures var d := Replacements(ts[..k], ratio);
      Replacements(ts[..k + 1], ratio) ==
        if !Suspicious(ts[k]) then d
        else match BestMatch(ts[k], Terms, 0.9, ratio)
          case Some(near) => if near != "" then Put(d, ts[k], near) else d
          case None => d
  {
    assert ts[..k + 1][..k] == ts[..k];
  }

  /** The substitution loop of `_fix_terms_in_line`: each entry in turn, first entry first. */
  method SubWords(line: string, reps: seq<Replacement>) returns (out: string)
    requires forall p :: p in reps ==> p.src != []
    ensures out == ApplyReplacements(line, reps)
  {
    out := line;
    for k := 0 to |reps|
      invariant ApplyReplacements(out, reps[k..]) == ApplyReplacements(line, reps)
    {
      assert reps[k..][1..] == reps[k + 1..];
      out := SubWord(out, reps[k].src, reps[k].dst);
    }
  }

  // --------------------------------------------------------- canon rules

  /** One CANON_REPLACEMENTS entry, `re.sub(pat, repl, t, flags=re.IGNORECASE)`, left abstract. */
  type Rule = string -> string

  /** The rules applied one after the other, first rule first. */
  function ApplyRules(rules: seq<Rule>, s: string): string
    decreases |rules|
  {
    if rules == [] then s else ApplyRules(rules[1..], rules[0](s))
  }

  /** Running two rule lists in a row is running their concatenation. */
  lemma {:induction false} ApplyRulesAppend(r1: seq<Rule>, r2: seq<Rule>, s: string)
    ensures ApplyRules(r1 + r2, s) == ApplyRules(r2, ApplyRules(r1, s))
    decreases |r1|
  {
    if r1 != [] {
      assert (r1 + r2)[1..] == r1[1..] + r2;
      ApplyRulesAppend(r1[1..], r2, r1[0](s));
    } else {
      assert r1 + r2 == r2;
    }
  }

  /** `_apply_canon_rules`: reassigns the text once per rule. */
  method ApplyCanonRules(s: string, rules: seq<Rule>) returns (t: string)
    ensures t == ApplyRules(rules, s)
  {
    t := s;
    for k := 0 to |rules|
      invariant ApplyRules(rules[k..], t) == ApplyRules(rules, s)
    {
      assert rules[k..][1..] == rules[k + 1..];
      t := rules[k](t);
    }
  }

  // ------------------------------------------------------- PostCorrector

  type Item = map<string, Value>

  /** A "text" value `fix_text` cannot handle: a truthy non-string has no `translate`. */
  predicate BadText(it: Item) {
    "text" in it && it["text"].Other? && it["text"].truthy
  }

  /** The PostCorrector dataclass: whether the heading and the term stages run. */
  datatype PostCorrector = PostCorrector(enableHeadings: bool, enableTerms: bool)
  {
    /**
     * `fix_text`: empty input is returned as is; otherwise the stages run in
     * order: the result is the cleaned text or, with the heading stage on, a
     * PHRASES entry, passed through the term stage when that is on.
     */
    function FixText(s: string, rules: seq<Rule>, ratio: Ratio): (r: string)
      ensures s == [] ==> r == s
      ensures s != [] && !enableTerms ==>
        r == ApplyRules(rules, FixedLatinAndDigits(s)) || (enableHeadings && r in Phrases)
      ensures s != [] && enableTerms ==>
        r == FixedTermsInLine(ApplyRules(rules, FixedLatinAndDigits(s)), ratio)
        || (enableHeadings && exists p :: p in Phrases && r == FixedTermsInLine(p, ratio))
    {
      if s == [] then s
      else
        var t := ApplyRules(rules, FixedLatinAndDigits(s));
        var h := if enableHeadings then FixHeadingLike(t, ratio) else t;
        if enableTerms then FixedTermsInLine(h, ratio) else h
    }

    /**
     * One entry of `correct_items`: the item with "text" replaced by its
     * `fix_text` (a missing text counts as ""); a truthy non-string text raises.
     */
    function CorrectedItem(it: Item, rules: seq<Rule>, ratio: Ratio): (r: Result<Item>)
      ensures r.Ok? <==> !BadText(it)
      ensures r.Ok? ==> r.value.Keys == it.Keys + {"text"}
      ensures r.Ok? ==> forall key :: key in it && key != "text" ==> r.value[key] == it[key]
      ensures r.Ok? && "text" in it && it["text"].Str? ==> r.value["text"] == Str(FixText(it["text"].s, rules, ratio))
    {
      var v := if "text" in it then it["text"] else Str("");
      match v
      case Str(s) => Ok(it["text" := Str(FixText(s, rules, ratio))])
      case Other(truthy) => if truthy then Raises("AttributeError") else Ok(it["text" := v])
    }

    /**
     * `correct_items`: one output item per input item, in order, each the
     * corrected copy; it raises exactly when some item's text is a truthy
     * non-string.
     */
    method CorrectItems(items: seq<Item>, rules: seq<Rule>, ratio: Ratio) returns (out: Result<seq<Item>>)
      ensures out.Ok? <==> forall i :: 0 <= i < |items| ==> !BadText(items[i])
      ensures out.Ok? ==> |out.value| == |items|
      ensures out.Ok? ==> forall i :: 0 <= i < |items| ==> CorrectedItem(items[i], rules, ratio) == Ok(out.value[i])
    {
      var acc: seq<Item> := [];
      for k := 0 to |items|
        invariant |acc| == k
        invariant forall i :: 0 <= i < k ==> !BadText(items[i]) && CorrectedItem(items[i], rules, ratio) == Ok(acc[i])
      {
        var c := CorrectedItem(items[k], rules, ratio);
        if c.Raises? {
          assert BadText(items[k]);
          return Raises(c.error);
        }
        acc := acc + [c.value];
        assert acc[k] == c.value;
      }
      assert |acc| == |items|;
      return Ok(acc);
    }
  }

  /**
   * With the term stage on, `fix_text` changes the cleaned text (or the
   * PHRASES entry the heading stage picked) only by whole-word swaps of
   * suspicious tokens for TERMS entries.
   */
  lemma FixTextSwapsOnlyTerms(pc: PostCorrector, s: string, rules: seq<Rule>, ratio: Ratio)
    requires s != [] && pc.enableTerms
    ensures exists h, reps ::
      (h == ApplyRules(rules, FixedLatinAndDigits(s)) || (pc.enableHeadings && h in Phrases))
      && TermSwaps(h, reps, ratio) && pc.FixText(s, rules, ratio) == ApplyReplacements(h, reps)
  {
    var t := ApplyRules(rules, FixedLatinAndDigits(s));
    var h := if pc.enableHeadings then FixHeadingLike(t, ratio) else t;
    assert pc.FixText(s, rules, ratio) == FixedTermsInLine(h, ratio);
    TermStageSwapsWords(h, ratio);
    var reps :| TermSwaps(h, reps, ratio) && FixedTermsInLine(h, ratio) == ApplyReplacements(h, reps);
  }

  /**
   * With no canon rule and both snapping stages off, `fix_text` is stage (c)
   * over the normalised text: no dash, single spaces, only 0, 1 and 3 swapped.
   */
  lemma PlainFixTextShape(s: string, ratio: Ratio)
    requires s != []
    ensures var r := PostCorrector(false, false).FixText(s, [], ratio);
      DigitsSwapped(Normalize(s), r) && NoDash(r) && Collapsed(r)
  {
    FixedLatinAndDigitsShape(s);
  }
}
