/**
 * The rule-based field extractor the LLM client falls back on when it is
 * disabled: regular-expression searches for the amount, currency, date,
 * identifiers and parties of a payment document.
 *
 * Each pattern is written out as a matcher for `Recognizers.Search`. Where the
 * pattern could backtrack, the comment says which paths `re` tries and why the
 * matcher's answer is the first one that succeeds. `(?i)` is modelled by
 * comparing `Text.Lower` of the text with the lower-case pattern.
 */
module PostLlm {
  import opened Text
  import opened Recognizers
  import opened Dates

  // ------------------------------------------------------------ small matchers

  /** The lower-case word `w` at `p`, case-insensitively. */
  predicate CiAt(s: string, p: nat, w: string) {
    p + |w| <= |s| && forall i :: 0 <= i < |w| ==> Lower(s[p + i]) == w[i]
  }

  /** The end of the whitespace run (`\s*`) that starts at `p`. */
  function SpaceRunEnd(s: string, p: nat): (e: nat)
    ensures p <= e && (p <= |s| ==> e <= |s|) && (e == p || e <= |s|)
    ensures forall i :: p <= i < e ==> IsSpace(s[i])
    ensures e < |s| ==> !IsSpace(s[e])
    decreases |s| - p
  {
    if p < |s| && IsSpace(s[p]) then SpaceRunEnd(s, p + 1) else p
  }

  /** The end of the run of ASCII digits that starts at `p`. */
  function DigitRunEnd(s: string, p: nat): (e: nat)
    ensures p <= e && (p <= |s| ==> e <= |s|) && (e == p || e <= |s|)
    ensures forall i :: p <= i < e ==> IsDigit(s[i])
    ensures e < |s| ==> !IsDigit(s[e])
    decreases |s| - p
  {
    if p < |s| && IsDigit(s[p]) then DigitRunEnd(s, p + 1) else p
  }

  /** The end of the run of non-digits (`\D*`) that starts at `p`. */
  function NonDigitRunEnd(s: string, p: nat): (e: nat)
    ensures p <= e && (p <= |s| ==> e <= |s|) && (e == p || e <= |s|)
    ensures forall i :: p <= i < e ==> !IsDigit(s[i])
    ensures e < |s| ==> IsDigit(s[e])
    decreases |s| - p
  {
    if p < |s| && !IsDigit(s[p]) then NonDigitRunEnd(s, p + 1) else p
  }

  /**
   * `\s*w` for a word `w` starting with a letter: the greedy `\s*` can only be
   * followed by `w` when it takes the whole whitespace run.
   */
  function WordAfterSpaces(s: string, q: nat, w: string): seq<nat> {
    var a := SpaceRunEnd(s, q);
    if CiAt(s, a, w) then [a + |w|] else []
  }

  /** `\s*к\s*оплате`, starting at `q`. */
  function ToPayAfter(s: string, q: nat): seq<nat> {
    var a := SpaceRunEnd(s, q);
    if CiAt(s, a, "к") then WordAfterSpaces(s, a + 1, "оплате") else []
  }

  /** The ends, in the order `re` tries them, of the alternatives in `words` at `p`. */
  function WordEnds(s: string, p: nat, words: seq<string>): seq<nat> {
    if words == [] then []
    else (if CiAt(s, p, words[0]) then [p + |words[0]|] else []) + WordEnds(s, p, words[1..])
  }

  // ---------------------------------------------------------------- _norm_num

  /**
   * `_norm_num` is `Text.CleanNumber`: spaces and no-break spaces go, ',' becomes
   * '.', and every other character stays where it is.
   */
  lemma NormNumSpec(s: string)
    ensures CleanNumber(s) == ReplaceChar(RemoveChar(RemoveChar(s, ' '), '\U{A0}'), ',', '.')
    ensures NoNumberSeparator(CleanNumber(s))
  {
    CleanNumberIsReplaceChain(s);
  }

  // ------------------------------------------------------- _try_parse_ru_date

  /** `_RU_MONTHS`: the genitive month names; the name at index `i` is month `i + 1`. */
  const RuMonths: seq<string> := [
    "января", "февраля", "марта", "апреля", "мая", "июня",
    "июля", "августа", "сентября", "октября", "ноября", "декабря"]

  /** The month whose name starts at `p`, the first of `RuMonths[i..]` that does, with the name's length. */
  function MonthFrom(s: string, p: nat, i: nat): (r: Option<(nat, nat)>)
    requires i <= |RuMonths|
    ensures r.Some? ==> i < r.value.0 <= 12 && CiAt(s, p, RuMonths[r.value.0 - 1]) && r.value.1 == |RuMonths[r.value.0 - 1]|
    ensures r.None? ==> forall j :: i <= j < 12 ==> !CiAt(s, p, RuMonths[j])
    decreases 12 - i
  {
    if i == 12 then None
    else if CiAt(s, p, RuMonths[i]) then Some((i + 1, |RuMonths[i]|))
    else MonthFrom(s, p, i + 1)
  }

  /**
   * The rest of the Russian date pattern after the day: `\s+(month)\s+20(\d{2})\b`.
   * Each `\s+` is followed by a letter or '2', so only the whole whitespace
   * run can be followed by the rest; no month name is a prefix of another.
   * The result is the month and the year.
   */
  function RuDateRest(s: string, e: nat): (r: Option<(nat, nat)>)
    ensures r.Some? ==> 1 <= r.value.0 <= 12 && 2000 <= r.value.1 <= 2099
  {
    var a := SpaceRunEnd(s, e);
    if a == e then None
    else match MonthFrom(s, a, 0)
      case None => None
      case Some((month, len)) =>
        var b := SpaceRunEnd(s, a + len);
        if b > a + len && b + 4 <= |s| && s[b] == '2' && s[b + 1] == '0'
           && DigitAt(s, b + 2) && DigitAt(s, b + 3) && Boundary(s, b + 4)
        then Some((month, 2000 + Two(s, b + 2)))
        else None
  }

  /** The day alternatives `0?[1-9]|[12]\d|3[01]` tried in order, each followed by the rest of the pattern. */
  function TryDays(ts: seq<Tok>, s: string, p: nat): (r: Option<Date>)
    requires ToksOk(LooseDay, s, p, ts)
    ensures r.Some? ==> 1 <= r.value.day <= 31 && 1 <= r.value.month <= 12 && 2000 <= r.value.year <= 2099
  {
    if ts == [] then None
    else
      assert ts[0] in ts && forall t :: t in ts[1..] ==> t in ts;
      match RuDateRest(s, p + ts[0].len)
      case Some((month, year)) => Some(Date(year, month, ts[0].val))
      case None => TryDays(ts[1..], s, p)
  }

  /** The Russian date pattern at `p`, after its leading `\b`. */
  function RuDateAt(s: string, p: nat): (r: Option<Date>)
    ensures r.Some? ==> 1 <= r.value.day <= 31 && 1 <= r.value.month <= 12 && 2000 <= r.value.year <= 2099
  {
    if Boundary(s, p) then TryDays(Alts(LooseDay, s, p), s, p) else None
  }

  /** `_try_parse_ru_date(t)`: `f"{yyyy:04d}-{mm:02d}-{dd:02d}"` of the first match, or None. */
  function TryParseRuDate(t: string): (r: Option<string>)
  {
    match Search(t, RuDateAt)
    case Some((_, d)) => Some(DateText(d))
    case None => None
  }

  /**
   * A month-name date comes out as `20YY-MM-DD` for a month in 1..12 and a day
   * in 1..31; the day is not checked against the month.
   */
  lemma TryParseRuDateShape(t: string)
    ensures TryParseRuDate(t).Some? ==> exists d: Date ::
      && 2000 <= d.year <= 2099 && 1 <= d.month <= 12 && 1 <= d.day <= 31
      && TryParseRuDate(t).value == DateText(d)
    ensures TryParseRuDate(t).Some? ==> IsoShape(TryParseRuDate(t).value)
  {
    match Search(t, RuDateAt)
    case Some((p, d)) =>
      assert RuDateAt(t, p) == Some(d);
      DateTextShape(d);
    case None =>
  }

  // ------------------------------------------------------------------ amount

  /** `[0-9]+(?:[ .][0-9]{3})*(?:[.,][0-9]{2})?` from its first digit at `f`: greedy, with nothing after it in either pattern to backtrack for. */
  function GroupsEnd(s: string, q: nat): (e: nat)
    ensures q <= e && (q <= |s| ==> e <= |s|)
    decreases |s| - q
  {
    if q + 4 <= |s| && (s[q] == ' ' || s[q] == '.') && IsDigit(s[q + 1]) && IsDigit(s[q + 2]) && IsDigit(s[q + 3])
    then GroupsEnd(s, q + 4)
    else q
  }

  function DecimalEnd(s: string, q: nat): (e: nat)
    ensures q <= e && (q <= |s| ==> e <= |s|)
  {
    if q + 3 <= |s| && (s[q] == '.' || s[q] == ',') && IsDigit(s[q + 1]) && IsDigit(s[q + 2]) then q + 3 else q
  }

  function NumberEnd(s: string, f: nat): (e: nat)
    requires f < |s| && IsDigit(s[f])
    ensures f < e <= |s|
  {
    DecimalEnd(s, GroupsEnd(s, DigitRunEnd(s, f)))
  }

  /**
   * The ends of the label alternatives of the first amount pattern at `p`, in
   * the order `re` tries them:
   * `итог(?:овая)?\s*сумма|итого(?:\s*к\s*оплате)?|сумма\s*к\s*оплате|к\s*оплате|total|amount|sum`.
   */
  function AmountLabelEnds(s: string, p: nat): seq<nat> {
    TotalSumEnds(s, p) + TotalEnds(s, p) + SumToPayEnds(s, p) + ToPayEnds(s, p)
    + WordEnds(s, p, ["total", "amount", "sum"])
  }

  /** `итог(?:овая)?\s*сумма`: the longer form first. */
  function TotalSumEnds(s: string, p: nat): seq<nat> {
    (if CiAt(s, p, "итоговая") then WordAfterSpaces(s, p + 8, "сумма") else [])
    + (if CiAt(s, p, "итог") then WordAfterSpaces(s, p + 4, "сумма") else [])
  }

  /** `итого(?:\s*к\s*оплате)?`: with the optional part first. */
  function TotalEnds(s: string, p: nat): seq<nat> {
    if CiAt(s, p, "итого") then ToPayAfter(s, p + 5) + [p + 5] else []
  }

  /** `сумма\s*к\s*оплате`. */
  function SumToPayEnds(s: string, p: nat): seq<nat> {
    if CiAt(s, p, "сумма") then ToPayAfter(s, p + 5) else []
  }

  /** `к\s*оплате`. */
  function ToPayEnds(s: string, p: nat): seq<nat> {
    if CiAt(s, p, "к") then WordAfterSpaces(s, p + 1, "оплате") else []
  }

  /**
   * `\D{0,40}` then the number, after a label ending at `e`: the number must
   * start at the first digit, which the greedy `\D{0,40}` reaches iff at most
   * 40 non-digits come first. The result is where the number starts.
   */
  function NumberAfterLabel(s: string, e: nat): (r: Option<nat>)
    ensures r.Some? ==> e <= r.value < |s| && IsDigit(s[r.value])
  {
    var f := NonDigitRunEnd(s, e);
    if f < |s| && f - e <= 40 then Some(f) else None
  }

  /** The first label end in `ends` after which the number is found, with where the number starts. */
  function FirstLabelled(s: string, ends: seq<nat>): (r: Option<(nat, nat)>)
    ensures r.Some? ==> r.value.0 <= r.value.1 < |s| && IsDigit(s[r.value.1])
  {
    if ends == [] then None
    else match NumberAfterLabel(s, ends[0])
      case Some(f) => Some((ends[0], f))
      case None => FirstLabelled(s, ends[1..])
  }

  /** Which amount pattern matched, with its two groups. */
  datatype AmountHit =
    | Labelled(name: string, number: string)          // group 1 the label, group 2 the number
    | BeforeCurrency(number: string, word: string)   // group 1 the number, group 2 the currency word

  /** The first amount pattern at `p`. */
  function LabelledAmountAt(s: string, p: nat): (r: Option<AmountHit>)
    ensures r.Some? ==> r.value.Labelled? && r.value.number != [] && IsDigit(r.value.number[0])
  {
    match FirstLabelled(s, AmountLabelEnds(s, p))
    case Some((e, f)) => if p <= e then Some(Labelled(s[p..e], s[f..NumberEnd(s, f)])) else None
    case None => None
  }

  /** `тенге|₸|kzt` at `a`: the length of the first alternative that matches, or 0. */
  function CurrencyWordLen(s: string, a: nat): (n: nat)
    ensures n == 0 || n == 5 || n == 1 || n == 3
  {
    if CiAt(s, a, "тенге") then 5 else if CiAt(s, a, "\U{20B8}") then 1 else if CiAt(s, a, "kzt") then 3 else 0
  }

  /**
   * The second amount pattern at `p`: `\b(number)\s*(тенге|₸|kzt)\b`. Giving
   * back part of the number leaves a digit, ' ', '.' or ',' before the `\s*`,
   * and then the currency word cannot follow; the three words begin with
   * different letters. So only the greedy path can succeed.
   */
  function CurrencyAmountAt(s: string, p: nat): (r: Option<AmountHit>)
    ensures r.Some? ==> r.value.BeforeCurrency? && r.value.number != [] && IsDigit(r.value.number[0])
  {
    if !(p < |s| && IsDigit(s[p]) && Boundary(s, p)) then None
    else
      var n := NumberEnd(s, p);
      var a := SpaceRunEnd(s, n);
      var w := CurrencyWordLen(s, a);
      if w > 0 && a + w <= |s| && Boundary(s, a + w) then Some(BeforeCurrency(s[p..n], s[a..a + w])) else None
  }

  /** The two searches of `_fallback`, the second only when the first finds nothing. */
  function AmountSearch(t: string): (r: Option<AmountHit>)
    ensures r.Some? ==> r.value.number != [] && IsDigit(r.value.number[0])
  {
    match Search(t, LabelledAmountAt)
    case Some((_, h)) => Some(h)
    case None =>
      match Search(t, CurrencyAmountAt)
      case Some((_, h)) => Some(h)
      case None => None
  }

  /** `m.group(2) if m.lastindex and m.lastindex >= 2 else m.group(1)`: both patterns end with their second group, so `lastindex` is 2. */
  function LastGroup(h: AmountHit): string {
    match h
    case Labelled(_, number) => number
    case BeforeCurrency(_, word) => word
  }

  /** The amount as the code writes it. */
  function AmountAsWritten(t: string): Option<string> {
    match AmountSearch(t)
    case Some(h) => Some(CleanNumber(LastGroup(h)))
    case None => None
  }

  lemma CleanNumberLeadingDigit(n: string)
    requires n != [] && IsDigit(n[0])
    ensures CleanNumber(n) != [] && CleanNumber(n)[0] == n[0]
  {
  }

  /** The amount as intended: `_norm_num` of the number group of whichever pattern matched. */
  function Amount(t: string): (r: Option<string>)
    ensures r.Some? ==> r.value != [] && IsDigit(r.value[0])
  {
    match AmountSearch(t)
    case Some(h) =>
      CleanNumberLeadingDigit(h.number);
      Some(CleanNumber(h.number))
    case None => None
  }

  /**
   * "500 тенге": the second pattern matches, and the code stores the currency
   * word as the amount where the number was meant.
   */
  lemma AmountTakesCurrencyWord(t: string)
    requires t == "500 тенге"
    ensures AmountAsWritten(t) == Some("тенге")
    ensures Amount(t) == Some("500")
  {
    FiveHundredTengeSearch(t);
    AmountOfSearch(t, BeforeCurrency("500", "тенге"));
    CleanGroups();
  }

  lemma CleanGroups()
    ensures CleanNumber("тенге") == "тенге" && CleanNumber("500") == "500"
  {
    assert NoNumberSeparator("тенге") by {
      forall i | 0 <= i < 5 ensures !IsNumberSeparator("тенге"[i]) { }
    }
    CleanNumberOfClean("тенге");
    CleanNumberOfClean("500");
  }

  lemma AmountOfSearch(t: string, h: AmountHit)
    requires AmountSearch(t) == Some(h)
    ensures Amount(t) == Some(CleanNumber(h.number)) && AmountAsWritten(t) == Some(CleanNumber(LastGroup(h)))
  {
  }

  lemma FiveHundredTengeSearch(t: string)
    requires t == "500 тенге"
    ensures AmountSearch(t) == Some(BeforeCurrency("500", "тенге"))
  {
    FiveHundredTengeNoLabel(t);
    FiveHundredTengeAt(t);
  }

  lemma FiveHundredTengeNoLabel(t: string)
    requires t == "500 тенге"
    ensures Search(t, LabelledAmountAt).None?
  {
    NoLabelledAmount(t);
  }

  lemma FiveHundredTengeAt(t: string)
    requires t == "500 тенге"
    ensures CurrencyAmountAt(t, 0) == Some(BeforeCurrency("500", "тенге"))
  {
    assert NumberEnd(t, 0) == 3 by {
      assert DigitRunEnd(t, 3) == 3;
      assert DigitRunEnd(t, 2) == 3;
      assert DigitRunEnd(t, 1) == 3;
      assert GroupsEnd(t, 3) == 3;
    }
    LetterIsNotSpace(t[4]);
    assert SpaceRunEnd(t, 3) == 4;
    assert CurrencyWordLen(t, 4) == 5;
    assert t[..3] == "500" && t[4..9] == "тенге";
  }

  lemma LetterIsNotSpace(c: char)
    requires IsAlpha(c)
    ensures !IsSpace(c)
  {
  }

  /** The first letters of the amount labels, lower-cased. */
  predicate LabelInitial(c: char) { c == 'и' || c == 'с' || c == 'к' || c == 't' || c == 'a' || c == 's' }

  lemma NotCiAt(s: string, p: nat, w: string)
    requires |w| > 0 && (p < |s| ==> Lower(s[p]) != w[0])
    ensures !CiAt(s, p, w)
  {
  }

  lemma WordEndsNone(s: string, p: nat, words: seq<string>)
    requires forall i :: 0 <= i < |words| ==> |words[i]| > 0 && (p < |s| ==> Lower(s[p]) != words[i][0])
    ensures WordEnds(s, p, words) == []
    decreases |words|
  {
    if words != [] {
      NotCiAt(s, p, words[0]);
      WordEndsNone(s, p, words[1..]);
    }
  }

  /** A text none of whose characters can begin a label has no labelled amount. */
  lemma NoLabelledAmount(t: string)
    requires forall i :: 0 <= i < |t| ==> !LabelInitial(Lower(t[i]))
    ensures Search(t, LabelledAmountAt).None?
  {
    forall p | 0 <= p <= |t| ensures LabelledAmountAt(t, p).None? {
      WordEndsNone(t, p, ["total", "amount", "sum"]);
      NotCiAt(t, p, "итоговая");
      NotCiAt(t, p, "итог");
      NotCiAt(t, p, "итого");
      NotCiAt(t, p, "сумма");
      NotCiAt(t, p, "к");
      assert AmountLabelEnds(t, p) == [];
    }
    SearchNone(t, LabelledAmountAt, 0);
  }

  lemma {:induction false} SearchNone<T>(s: string, at: (string, nat) -> Option<T>, p: nat)
    requires forall q :: p <= q <= |s| ==> at(s, q).None?
    ensures SearchFrom(s, at, p).None?
    decreases |s| + 1 - p
  {
    if p <= |s| {
      SearchNone(s, at, p + 1);
    }
  }

  // ---------------------------------------------------------------- currency

  /** `(?i)\bKZT\b|₸|тенге` at `p`. */
  function KztAt(s: string, p: nat): Option<nat> {
    if Boundary(s, p) && CiAt(s, p, "kzt") && Boundary(s, p + 3) then Some(3)
    else if CiAt(s, p, "\U{20B8}") then Some(1)
    else if CiAt(s, p, "тенге") then Some(5)
    else None
  }

  /** `(?i)\b(USD|EUR|RUB)\b` at `p`: the matched code as written in the text. */
  function ForeignCodeAt(s: string, p: nat): (r: Option<string>)
    ensures r.Some? ==> |r.value| == 3 && (CiAt(r.value, 0, "usd") || CiAt(r.value, 0, "eur") || CiAt(r.value, 0, "rub"))
  {
    if Boundary(s, p) && (CiAt(s, p, "usd") || CiAt(s, p, "eur") || CiAt(s, p, "rub")) && Boundary(s, p + 3)
    then Some(s[p..p + 3]) else None
  }

  /** The currency `_fallback` stores: "KZT" when the text mentions the tenge, else the first foreign code upper-cased. */
  function Currency(t: string): Option<string> {
    if Search(t, KztAt).Some? then Some("KZT")
    else match Search(t, ForeignCodeAt)
      case Some((_, code)) => Some(UpperStr(code))
      case None => None
  }

  /** A character that lower-cases to an ASCII letter upper-cases to that letter's capital. */
  lemma UpperOfCiLetter(c: char, l: char)
    requires IsAsciiLower(l) && Lower(c) == l
    ensures Upper(c) == Upper(l)
  {
  }

  lemma UpperOfCiCode(x: string, w: string, up: string)
    requires |x| == 3 && |w| == 3 && |up| == 3 && CiAt(x, 0, w)
    requires IsAsciiLower(w[0]) && IsAsciiLower(w[1]) && IsAsciiLower(w[2])
    requires Upper(w[0]) == up[0] && Upper(w[1]) == up[1] && Upper(w[2]) == up[2]
    ensures UpperStr(x) == up
  {
    UpperOfCiLetter(x[0], w[0]);
    UpperOfCiLetter(x[1], w[1]);
    UpperOfCiLetter(x[2], w[2]);
  }

  /**
   * The currency is "KZT" exactly when the text mentions KZT, ₸ or тенге;
   * otherwise it is the first of USD, EUR or RUB found, upper-cased, and
   * absent when there is none.
   */
  lemma CurrencySpec(t: string)
    ensures Search(t, KztAt).Some? ==> Currency(t) == Some("KZT")
    ensures Search(t, KztAt).None? && Search(t, ForeignCodeAt).None? ==> Currency(t).None?
    ensures Search(t, KztAt).None? && Search(t, ForeignCodeAt).Some? ==>
      Currency(t).Some? && Currency(t).value in {"USD", "EUR", "RUB"}
      && Currency(t).value == UpperStr(Search(t, ForeignCodeAt).value.1)
  {
    if Search(t, KztAt).None? && Search(t, ForeignCodeAt).Some? {
      ForeignCodeUpper(Search(t, ForeignCodeAt).value.1);
    }
  }

  /** A code matched case-insensitively upper-cases to the code itself. */
  lemma ForeignCodeUpper(code: string)
    requires |code| == 3 && (CiAt(code, 0, "usd") || CiAt(code, 0, "eur") || CiAt(code, 0, "rub"))
    ensures UpperStr(code) in {"USD", "EUR", "RUB"}
  {
    if CiAt(code, 0, "usd") {
      UpperOfCiCode(code, "usd", "USD");
    } else if CiAt(code, 0, "eur") {
      UpperOfCiCode(code, "eur", "EUR");
    } else {
      UpperOfCiCode(code, "rub", "RUB");
    }
  }

  // -------------------------------------------------------------------- date

  const YearFirstFields: seq<Field> := [Year20, LooseMonth, LooseDay]
  const DayFirstFields: seq<Field> := [LooseDay, LooseMonth, Year20]

  /**
   * The numeric date pattern at `p`: `\b(` year-first `|` day-first `)\b`, each
   * alternative with a free choice of '-', '.' or '/' per separator. Every
   * path of the first alternative is tried with the closing `\b` before the
   * second. The result is the length of the match.
   */
  function NumericDateAt(s: string, p: nat): (r: Option<nat>)
    ensures r.Some? ==> 0 < r.value && p + r.value <= |s|
  {
    if !Boundary(s, p) then None
    else match MatchFields(YearFirstFields, LooseSeps, WordEnd, s, p)
      case Some(m) => Some(m.end - p)
      case None =>
        match MatchFields(DayFirstFields, LooseSeps, WordEnd, s, p)
        case Some(m) => Some(m.end - p)
        case None => None
  }

  /**
   * `re.match(r"^\d{1,2}[./-]\d{1,2}[./-]20\d{2}$", x)` and, when it matches,
   * the three pieces `re.split(r"[./-]", x)` returns. A `\d{1,2}` is followed
   * by a separator, so it matches only a whole digit run of one or two digits;
   * the two separators are then the only ones in `x`.
   */
  function ShortDate(x: string): (r: Option<(string, string, string)>)
    ensures r.Some? ==> AllDigits(r.value.0) && AllDigits(r.value.1) && AllDigits(r.value.2)
    ensures r.Some? ==> 1 <= |r.value.0| <= 2 && 1 <= |r.value.1| <= 2 && |r.value.2| == 4
  {
    var a := DigitRunEnd(x, 0);
    if !(1 <= a <= 2 && a < |x| && x[a] in LooseSeps) then None
    else
      var b := DigitRunEnd(x, a + 1);
      if !(1 <= b - a - 1 <= 2 && b < |x| && x[b] in LooseSeps) then None
      else if b + 5 <= |x| && x[b + 1] == '2' && x[b + 2] == '0' && IsDigit(x[b + 3]) && IsDigit(x[b + 4])
              && (|x| == b + 5 || (|x| == b + 6 && x[b + 5] == '\n'))
      then
        var y := x[b + 1..b + 5];
        assert AllDigits(y) by {
          forall i | 0 <= i < 4 ensures IsDigit(y[i]) { assert y[i] == x[b + 1 + i]; }
        }
        Some((x[..a], x[a + 1..b], x[b + 1..b + 5]))
      else None
  }

  /** What `_fallback` does with the matched text: a day-first date is reordered, anything else kept. */
  function DateOfMatch(x: string): string {
    match ShortDate(x)
    case Some((dd, mm, yyyy)) => DateText(Date(ParseNat(yyyy), ParseNat(mm), ParseNat(dd)))
    case None => x
  }

  /** The date `_fallback` stores: the numeric date if there is one, else the month-name date. */
  function FallbackDate(t: string): Option<string> {
    match SearchText(t, NumericDateAt)
    case Some(x) => Some(DateOfMatch(x))
    case None =>
      match TryParseRuDate(t)
      case Some(ru) => if ru != [] then Some(ru) else None
      case None => None
  }

  lemma DigitRunEndAt(x: string, p: nat, e: nat)
    requires p <= e <= |x| && AllDigits(x[p..e]) && (e == |x| || !IsDigit(x[e]))
    ensures DigitRunEnd(x, p) == e
    decreases e - p
  {
    if p < e {
      assert x[p] == x[p..e][0];
      assert x[p + 1..e] == x[p..e][1..];
      DigitRunEndAt(x, p + 1, e);
    }
  }

  /** `ShortDate` on a text laid out as one or two digits, a separator, one or two digits, a separator and `20DD`. */
  lemma ShortDateAt(x: string, a: nat, b: nat)
    requires 1 <= a <= 2 && a + 1 < b <= a + 3 && |x| == b + 5
    requires AllDigits(x[..a]) && x[a] in LooseSeps && AllDigits(x[a + 1..b]) && x[b] in LooseSeps
    requires x[b + 1] == '2' && x[b + 2] == '0' && IsDigit(x[b + 3]) && IsDigit(x[b + 4])
    ensures ShortDate(x) == Some((x[..a], x[a + 1..b], x[b + 1..]))
  {
    DigitRunEndAt(x, 0, a);
    DigitRunEndAt(x, a + 1, b);
    assert x[b + 1..b + 5] == x[b + 1..];
  }

  /** `ShortDate` splits a day-first date back into its day, month and year. */
  lemma DayFirstSplit(dd: string, c1: char, mm: string, c2: char, yyyy: string)
    requires 1 <= |dd| <= 2 && 1 <= |mm| <= 2 && AllDigits(dd) && AllDigits(mm)
    requires |yyyy| == 4 && yyyy[0] == '2' && yyyy[1] == '0' && AllDigits(yyyy)
    requires c1 in LooseSeps && c2 in LooseSeps
    ensures ShortDate(dd + [c1] + mm + [c2] + yyyy) == Some((dd, mm, yyyy))
  {
    var x := dd + [c1] + mm + [c2] + yyyy;
    var a := |dd|;
    var b := a + 1 + |mm|;
    assert x[..a] == dd;
    assert x[a + 1..b] == mm;
    assert x[b + 1..] == yyyy;
    ShortDateAt(x, a, b);
  }

  /** Four, two and two digits at most give a date text of the ISO shape. */
  lemma ParsedDateShape(yyyy: string, mm: string, dd: string)
    requires |yyyy| == 4 && |mm| <= 2 && |dd| <= 2 && AllDigits(yyyy) && AllDigits(mm) && AllDigits(dd)
    ensures IsoShape(DateText(Date(ParseNat(yyyy), ParseNat(mm), ParseNat(dd))))
  {
    var y, m, d := ParseNat(yyyy), ParseNat(mm), ParseNat(dd);
    assert y < 10000 by { ParseNatBound(yyyy); assert Pow10(4) == 10000; }
    assert m < 100 by { ParseNatBound(mm); assert Pow10(|mm|) <= 100; }
    assert d < 100 by { ParseNatBound(dd); assert Pow10(|dd|) <= 100; }
    DateTextShape(Date(y, m, d));
  }

  /** A day-first date `D.M.20YY` is reordered to `20YY-MM-DD`, month and day zero-padded. */
  lemma DayFirstReordered(dd: string, c1: char, mm: string, c2: char, yyyy: string)
    requires 1 <= |dd| <= 2 && 1 <= |mm| <= 2 && AllDigits(dd) && AllDigits(mm)
    requires |yyyy| == 4 && yyyy[0] == '2' && yyyy[1] == '0' && AllDigits(yyyy)
    requires c1 in LooseSeps && c2 in LooseSeps
    ensures DateOfMatch(dd + [c1] + mm + [c2] + yyyy) == DateText(Date(ParseNat(yyyy), ParseNat(mm), ParseNat(dd)))
    ensures IsoShape(DateOfMatch(dd + [c1] + mm + [c2] + yyyy))
  {
    DayFirstSplit(dd, c1, mm, c2, yyyy);
    ParsedDateShape(yyyy, mm, dd);
  }

  lemma {:induction false} ParseNatBound(s: string)
    requires AllDigits(s)
    ensures ParseNat(s) < Pow10(|s|)
  {
    if s != [] {
      ParseNatBound(s[..|s| - 1]);
    }
  }

  /** A match that starts with three digits, as every year-first match does, is kept as it is. */
  lemma YearFirstKept(x: string)
    requires |x| >= 3 && IsDigit(x[0]) && IsDigit(x[1]) && IsDigit(x[2])
    ensures DateOfMatch(x) == x
  {
    assert DigitRunEnd(x, 0) >= 3 by {
      assert DigitRunEnd(x, 0) == DigitRunEnd(x, 1) == DigitRunEnd(x, 2);
    }
  }

  /** The branch the first field took when a run of fields matched at `p`, and what follows it. */
  lemma {:induction false} TryAltsTook(ts: seq<Tok>, ks: seq<Field>, seps: set<char>, tail: Tail, s: string, p: nat)
    returns (t: Tok)
    requires ks != [] && ToksOk(ks[0], s, p, ts) && TryAlts(ts, ks, seps, tail, s, p).Some?
    ensures t in ts && TokOk(ks[0], s, p, t) && AfterTok(t, ks, seps, tail, s, p) == TryAlts(ts, ks, seps, tail, s, p)
    decreases |ts|
  {
    assert ts[0] in ts;
    if AfterTok(ts[0], ks, seps, tail, s, p).Some? {
      t := ts[0];
    } else {
      assert forall u :: u in ts[1..] ==> u in ts;
      t := TryAltsTook(ts[1..], ks, seps, tail, s, p);
    }
  }

  /** One field of a match: a branch of its own at `p`, then a separator and the rest, or the end. */
  lemma MatchStep(ks: seq<Field>, seps: set<char>, tail: Tail, s: string, p: nat) returns (t: Tok)
    requires ks != [] && MatchFields(ks, seps, tail, s, p).Some?
    ensures Covers(ks[0], s, p, t)
    ensures |ks| == 1 ==> MatchFields(ks, seps, tail, s, p).value.end == p + t.len
    ensures |ks| > 1 ==> (p + t.len < |s| && s[p + t.len] in seps &&
      MatchFields(ks[1..], seps, tail, s, p + t.len + 1).Some? &&
      MatchFields(ks[1..], seps, tail, s, p + t.len + 1).value.end == MatchFields(ks, seps, tail, s, p).value.end)
  {
    t := TryAltsTook(Alts(ks[0], s, p), ks, seps, tail, s, p);
    AltCovers(ks[0], s, p, t);
  }

  /** What a branch of a day, month or year field covers: one or two digits, or `20` and two digits. */
  predicate Covers(k: Field, s: string, p: nat, t: Tok) {
    p + t.len <= |s| &&
    ((k == LooseDay || k == LooseMonth) ==> 1 <= t.len <= 2 && DigitsIn(s, p, p + t.len)) &&
    (k == Year20 ==> t.len == 4 && DigitsIn(s, p, p + 4) && s[p] == '2' && s[p + 1] == '0')
  }

  /** Every branch of a field covers what `Covers` says. */
  lemma AltCovers(k: Field, s: string, p: nat, t: Tok)
    requires t in Alts(k, s, p)
    ensures Covers(k, s, p, t)
  {
  }

  /**
   * Every numeric date `_fallback` finds is stored kept or reordered: a year-first match
   * starts with three digits and is stored as it is; a day-first match splits into a day,
   * a month and a year and is stored as the `YYYY-MM-DD` text of those numbers.
   */
  lemma NumericDateStored(t: string)
    requires SearchText(t, NumericDateAt).Some?
    ensures var x := SearchText(t, NumericDateAt).value;
      (|x| >= 3 && IsDigit(x[0]) && IsDigit(x[1]) && IsDigit(x[2]) && FallbackDate(t) == Some(x)) ||
      (ShortDate(x).Some? &&
       FallbackDate(t) == Some(DateText(Date(ParseNat(ShortDate(x).value.2), ParseNat(ShortDate(x).value.1),
                                             ParseNat(ShortDate(x).value.0)))) &&
       IsoShape(FallbackDate(t).value))
  {
    var x := SearchText(t, NumericDateAt).value;
    FallbackDateOrder(t);
    var (p, n) := Search(t, NumericDateAt).value;
    assert NumericDateAt(t, p) == Some(n);
    assert x == t[p..p + n];
    if MatchFields(YearFirstFields, LooseSeps, WordEnd, t, p).Some? {
      var ty := MatchStep(YearFirstFields, LooseSeps, WordEnd, t, p);
      assert x[0] == t[p] && x[1] == t[p + 1] && x[2] == t[p + 2];
      YearFirstKept(x);
    } else {
      DayFirstStored(t, p, n);
    }
  }

  /** A day-first match at `p` is split by `ShortDate` and stored reordered. */
  lemma DayFirstStored(t: string, p: nat, n: nat)
    requires MatchFields(DayFirstFields, LooseSeps, WordEnd, t, p).Some?
    requires MatchFields(DayFirstFields, LooseSeps, WordEnd, t, p).value.end == p + n
    ensures var x := t[p..p + n];
      ShortDate(x).Some? &&
      DateOfMatch(x) == DateText(Date(ParseNat(ShortDate(x).value.2), ParseNat(ShortDate(x).value.1),
                                      ParseNat(ShortDate(x).value.0))) &&
      IsoShape(DateOfMatch(x))
  {
    var dd, c1, mm, c2, yyyy := DayFirstParts(t, p, n);
    FiveParts(dd, c1, mm, c2, yyyy);
    DayFirstReordered(dd, c1, mm, c2, yyyy);
  }

  /** A day-first match is a day, a separator, a month, a separator and a `20YY` year. */
  lemma DayFirstParts(t: string, p: nat, n: nat) returns (dd: string, c1: char, mm: string, c2: char, yyyy: string)
    requires MatchFields(DayFirstFields, LooseSeps, WordEnd, t, p).Some?
    requires MatchFields(DayFirstFields, LooseSeps, WordEnd, t, p).value.end == p + n
    ensures 1 <= |dd| <= 2 && 1 <= |mm| <= 2 && AllDigits(dd) && AllDigits(mm)
    ensures |yyyy| == 4 && yyyy[0] == '2' && yyyy[1] == '0' && AllDigits(yyyy)
    ensures c1 in LooseSeps && c2 in LooseSeps
    ensures p + n <= |t| && t[p..p + n] == dd + [c1] + mm + [c2] + yyyy
  {
    var td, tm, ty := DayFirstFieldsAt(t, p);
    var e0 := p + td.len;
    var e1 := e0 + 1 + tm.len;
    dd := DigitSlice(t, p, e0);
    mm := DigitSlice(t, e0 + 1, e1);
    yyyy := DigitSlice(t, e1 + 1, e1 + 5);
    c1, c2 := t[e0], t[e1];
    SliceFive(t, p, e0, e1, p + n);
  }

  lemma SliceFive(t: string, p: nat, e0: nat, e1: nat, e: nat)
    requires p <= e0 < e1 < e <= |t|
    ensures t[p..e] == t[p..e0] + [t[e0]] + t[e0 + 1..e1] + [t[e1]] + t[e1 + 1..e]
  {
  }

  /** A day-first match: the branch each field took, with one separator between them. */
  lemma DayFirstFieldsAt(s: string, p: nat) returns (t0: Tok, t1: Tok, t2: Tok)
    requires MatchFields(DayFirstFields, LooseSeps, WordEnd, s, p).Some?
    ensures Covers(LooseDay, s, p, t0) && Covers(LooseMonth, s, p + t0.len + 1, t1)
    ensures Covers(Year20, s, p + t0.len + 1 + t1.len + 1, t2)
    ensures p + t0.len < |s| && s[p + t0.len] in LooseSeps
    ensures p + t0.len + 1 + t1.len < |s| && s[p + t0.len + 1 + t1.len] in LooseSeps
    ensures MatchFields(DayFirstFields, LooseSeps, WordEnd, s, p).value.end == p + t0.len + 1 + t1.len + 1 + t2.len
  {
    assert DayFirstFields[1..] == [LooseMonth, Year20];
    assert [LooseMonth, Year20][1..] == [Year20];
    t0 := MatchStep(DayFirstFields, LooseSeps, WordEnd, s, p);
    var e0 := p + t0.len + 1;
    t1 := MatchStep([LooseMonth, Year20], LooseSeps, WordEnd, s, e0);
    t2 := MatchStep([Year20], LooseSeps, WordEnd, s, e0 + t1.len + 1);
  }

  /** The digits `t[a..b]` of a field, as a string of digits. */
  lemma DigitSlice(t: string, a: nat, b: nat) returns (d: string)
    requires a <= b <= |t| && forall i :: a <= i < b ==> IsDigit(t[i])
    ensures d == t[a..b] && AllDigits(d)
  {
    d := t[a..b];
  }

  /** `ShortDate` splits a day, separator, month, separator and `20YY` year back into its parts. */
  lemma FiveParts(dd: string, c1: char, mm: string, c2: char, yyyy: string)
    requires 1 <= |dd| <= 2 && 1 <= |mm| <= 2 && AllDigits(dd) && AllDigits(mm)
    requires |yyyy| == 4 && yyyy[0] == '2' && yyyy[1] == '0' && AllDigits(yyyy)
    requires c1 in LooseSeps && c2 in LooseSeps
    ensures ShortDate(dd + [c1] + mm + [c2] + yyyy) == Some((dd, mm, yyyy))
  {
    var x := dd + [c1] + mm + [c2] + yyyy;
    var a, b := |dd|, |dd| + 1 + |mm|;
    assert x[..a] == dd && x[a] == c1 && x[a + 1..b] == mm && x[b] == c2 && x[b + 1..] == yyyy;
    assert x[b + 1] == '2' && x[b + 2] == '0' && x[b + 3] == yyyy[2] && x[b + 4] == yyyy[3];
    ShortDateAt(x, a, b);
  }

  /** A date `_fallback` stores is never empty. */
  lemma FallbackDateNonEmpty(t: string)
    requires FallbackDate(t).Some?
    ensures FallbackDate(t).value != []
  {
    match Search(t, NumericDateAt)
    case Some((p, n)) =>
      assert NumericDateAt(t, p) == Some(n);
      var x := t[p..p + n];
      assert |DateText(Date(0, 0, 0))| >= 1;
    case None =>
  }

  /** The month-name date is used only when no numeric date is found. */
  lemma FallbackDateOrder(t: string)
    ensures SearchText(t, NumericDateAt).Some? ==> FallbackDate(t) == Some(DateOfMatch(SearchText(t, NumericDateAt).value))
    ensures SearchText(t, NumericDateAt).None? ==> FallbackDate(t) == TryParseRuDate(t)
  {
    if SearchText(t, NumericDateAt).None? && TryParseRuDate(t).Some? {
      TryParseRuDateShape(t);
    }
  }

  // ------------------------------------------------------------ invoice_no

  predicate IdChar(c: char) { IsWordChar(c) || c == '-' || c == '_' || c == '/' }

  function IdRunEnd(s: string, p: nat): (e: nat)
    ensures p <= e && (p <= |s| ==> e <= |s|) && (e == p || e <= |s|)
    ensures forall i :: p <= i < e ==> IdChar(s[i])
    decreases |s| - p
  {
    if p < |s| && IdChar(s[p]) then IdRunEnd(s, p + 1) else p
  }

  function PunctRunEnd(s: string, p: nat): (e: nat)
    ensures p <= e && (p <= |s| ==> e <= |s|)
    decreases |s| - p
  {
    if p < |s| && (s[p] == ':' || s[p] == '#' || s[p] == '\U{2116}') then PunctRunEnd(s, p + 1) else p
  }

  predicate YeAt(s: string, i: nat) { i < |s| && (Lower(s[i]) == 'е' || Lower(s[i]) == 'ё') }

  /** The label ends of `сч(?:е|ё)т|номер\s*сч[её]та|invoice|inv|doc\s*no\.?` at `p`, in the order `re` tries them. */
  function InvoiceLabelEnds(s: string, p: nat): seq<nat> {
    SchetEnds(s, p) + NomerSchetaEnds(s, p) + WordEnds(s, p, ["invoice", "inv"]) + DocNoEnds(s, p)
  }

  /** `сч(?:е|ё)т`. */
  function SchetEnds(s: string, p: nat): seq<nat> {
    if CiAt(s, p, "сч") && YeAt(s, p + 2) && CiAt(s, p + 3, "т") then [p + 4] else []
  }

  /** `номер\s*сч[её]та`. */
  function NomerSchetaEnds(s: string, p: nat): seq<nat> {
    if CiAt(s, p, "номер") then
      var a := SpaceRunEnd(s, p + 5);
      if CiAt(s, a, "сч") && YeAt(s, a + 2) && CiAt(s, a + 3, "та") then [a + 5] else []
    else []
  }

  /** `doc\s*no\.?`: with the dot first, then without, as the greedy `?` tries them. */
  function DocNoEnds(s: string, p: nat): seq<nat> {
    if CiAt(s, p, "doc") then
      var a := SpaceRunEnd(s, p + 3);
      if CiAt(s, a, "no") then (if a + 2 < |s| && s[a + 2] == '.' then [a + 3] else []) + [a + 2] else []
    else []
  }

  /**
   * `\s*[:#№]*\s*([\w\-_/]{3,})` after a label ending at `e`. A shorter `\s*` or
   * `[:#№]*` leaves a space or one of ":#№" where the number must start, and
   * none of them is in its class; so only the greedy path can succeed.
   */
  function IdAfter(s: string, e: nat): (r: Option<string>)
    ensures r.Some? ==> |r.value| >= 3 && forall i :: 0 <= i < |r.value| ==> IdChar(r.value[i])
  {
    var c := SpaceRunEnd(s, PunctRunEnd(s, SpaceRunEnd(s, e)));
    var n := IdRunEnd(s, c);
    if n - c >= 3 && n <= |s| then
      assert forall i :: 0 <= i < n - c ==> s[c..n][i] == s[c + i];
      Some(s[c..n])
    else None
  }

  function FirstId(s: string, ends: seq<nat>): (r: Option<string>)
    ensures r.Some? ==> |r.value| >= 3 && forall i :: 0 <= i < |r.value| ==> IdChar(r.value[i])
  {
    if ends == [] then None
    else match IdAfter(s, ends[0])
      case Some(v) => Some(v)
      case None => FirstId(s, ends[1..])
  }

  function InvoiceAt(s: string, p: nat): (r: Option<string>)
    ensures r.Some? ==> |r.value| >= 3 && forall i :: 0 <= i < |r.value| ==> IdChar(r.value[i])
  {
    FirstId(s, InvoiceLabelEnds(s, p))
  }

  /** The invoice number: group 1 of the first match, at least three word characters, '-', '_' or '/'. */
  function Invoice(t: string): (r: Option<string>)
    ensures r.Some? ==> |r.value| >= 3 && forall i :: 0 <= i < |r.value| ==> IdChar(r.value[i])
  {
    match Search(t, InvoiceAt)
    case Some((_, v)) => Some(v)
    case None => None
  }

  // ------------------------------------------------------- receiver, payer

  /** The characters at which `str.splitlines` breaks a line. */
  predicate LineBreak(c: char) {
    || c == '\n' || c == '\r' || c == '\U{B}' || c == '\U{C}' || '\U{1C}' <= c <= '\U{1E}'
    || c == '\U{85}' || c == '\U{2028}' || c == '\U{2029}'
  }

  /** `g.splitlines()[0]` for a non-empty `g`: everything before the first line break. */
  function FirstLine(g: string): (r: string)
    requires g != []
    ensures |r| <= |g| && r == g[..|r|] && forall i :: 0 <= i < |r| ==> !LineBreak(r[i])
    ensures |r| < |g| ==> LineBreak(g[|r|])
  {
    if LineBreak(g[0]) then []
    else if |g| == 1 then g
    else [g[0]] + FirstLine(g[1..])
  }

  /** Where `.+` stops: the next '\n', or the end. */
  function LineEnd(s: string, c: nat): (e: nat)
    ensures c <= e && (c <= |s| ==> e <= |s|) && (e == c || e <= |s|)
    ensures forall i :: c <= i < e ==> s[i] != '\n'
    decreases |s| - c
  {
    if c < |s| && s[c] != '\n' then LineEnd(s, c + 1) else c
  }

  /** `.+` at `c`: the start of the group, if there is at least one character before the line ends. */
  function DotPlus(s: string, c: nat): Option<nat> {
    if c < |s| && s[c] != '\n' then Some(c) else None
  }

  /** The first of `f(hi), f(hi - 1), …, f(lo)` that succeeds: a greedy `\s*` giving back one character at a time. */
  function FirstDown(lo: nat, hi: nat, f: nat -> Option<nat>): Option<nat>
    decreases hi
  {
    if hi < lo then None
    else if f(hi).Some? then f(hi)
    else if hi == lo then None
    else FirstDown(lo, hi - 1, f)
  }

  /** `\s*(.+)` from `b`. */
  function SpacesThenLine(s: string, b: nat): Option<nat> {
    FirstDown(b, SpaceRunEnd(s, b), (c: nat) => DotPlus(s, c))
  }

  /** `[:\-]?\s*(.+)` from `a`: with the ':' or '-' first, then without it. */
  function ColonThenLine(s: string, a: nat): Option<nat> {
    var with := if a < |s| && (s[a] == ':' || s[a] == '-') then SpacesThenLine(s, a + 1) else None;
    if with.Some? then with else SpacesThenLine(s, a)
  }

  /** `\s*[:\-]?\s*(.+)` after a label ending at `e`, with every backtracking path in `re`'s order: where the group starts. */
  function ValueStart(s: string, e: nat): Option<nat> {
    FirstDown(e, SpaceRunEnd(s, e), (a: nat) => ColonThenLine(s, a))
  }

  lemma StripNoLineBreak(g: string)
    requires forall i :: 0 <= i < |g| ==> !LineBreak(g[i])
    ensures forall i :: 0 <= i < |Strip(g)| ==> !LineBreak(Strip(g)[i])
  {
    var v := Strip(g);
    forall i | 0 <= i < |v| ensures !LineBreak(v[i]) {
      assert v[i] == g[StripStart(g) + i];
    }
  }

  /** `group(1).splitlines()[0].strip()` for the group that starts at `c`. */
  function LineValue(s: string, c: nat): (v: string)
    requires c < |s| && s[c] != '\n'
    ensures v == [] || (!IsSpace(v[0]) && !IsSpace(v[|v| - 1]))
    ensures forall i :: 0 <= i < |v| ==> !LineBreak(v[i])
  {
    var e := LineEnd(s, c);
    var g := FirstLine(s[c..e]);
    StripNoLineBreak(g);
    Strip(g)
  }

  function FirstValue(s: string, ends: seq<nat>): Option<string> {
    if ends == [] then None
    else match ValueStart(s, ends[0])
      case Some(c) => if c < |s| && s[c] != '\n' then Some(LineValue(s, c)) else None
      case None => FirstValue(s, ends[1..])
  }

  const ReceiverLabels: seq<string> := ["получатель", "receiver", "beneficiary"]
  const PayerLabels: seq<string> := ["плательщик", "payer", "customer"]

  function ReceiverAt(s: string, p: nat): Option<string> { FirstValue(s, WordEnds(s, p, ReceiverLabels)) }
  function PayerAt(s: string, p: nat): Option<string> { FirstValue(s, WordEnds(s, p, PayerLabels)) }

  function Receiver(t: string): Option<string> {
    match Search(t, ReceiverAt)
    case Some((_, v)) => Some(v)
    case None => None
  }

  function Payer(t: string): Option<string> {
    match Search(t, PayerAt)
    case Some((_, v)) => Some(v)
    case None => None
  }

  lemma FirstDownTop(lo: nat, hi: nat, f: nat -> Option<nat>)
    requires lo <= hi && f(hi).Some?
    ensures FirstDown(lo, hi, f) == f(hi)
  {
  }

  /**
   * When something other than whitespace follows the label, its optional ':'
   * or '-' and the whitespace after that, the first path succeeds: the value
   * starts at that character.
   */
  lemma ValueStartPlain(s: string, e: nat)
    requires e <= |s|
    ensures var a := SpaceRunEnd(s, e);
      var b := if a < |s| && (s[a] == ':' || s[a] == '-') then a + 1 else a;
      var c := SpaceRunEnd(s, b);
      c < |s| ==> ValueStart(s, e) == Some(c)
  {
    var a := SpaceRunEnd(s, e);
    var b := if a < |s| && (s[a] == ':' || s[a] == '-') then a + 1 else a;
    var c := SpaceRunEnd(s, b);
    if c < |s| {
      assert DotPlus(s, c) == Some(c);
      FirstDownTop(b, c, (x: nat) => DotPlus(s, x));
      FirstDownTop(e, a, (x: nat) => ColonThenLine(s, x));
    }
  }

  /**
   * A receiver or payer value is the first line of the text that follows its
   * label: no line break inside, stripped of surrounding whitespace.
   */
  lemma LabelValueShape(s: string, ends: seq<nat>)
    requires FirstValue(s, ends).Some?
    ensures var v := FirstValue(s, ends).value;
      (v == [] || (!IsSpace(v[0]) && !IsSpace(v[|v| - 1]))) && forall i :: 0 <= i < |v| ==> !LineBreak(v[i])
  {
    if ends != [] && ValueStart(s, ends[0]).None? {
      LabelValueShape(s, ends[1..]);
    }
  }

  // --------------------------------------------------------------- _fallback

  /** The keys `_fallback` can fill; `Key` gives the string each is stored under in the dict. */
  datatype FieldName =
    | AmountField | CurrencyField | DateField | IbanField | BicField
    | IinBinField | InvoiceNoField | ReceiverField | PayerField

  function Key(f: FieldName): string {
    match f
    case AmountField => "amount"
    case CurrencyField => "currency"
    case DateField => "date"
    case IbanField => "iban"
    case BicField => "bic"
    case IinBinField => "iin_bin"
    case InvoiceNoField => "invoice_no"
    case ReceiverField => "receiver"
    case PayerField => "payer"
  }

  const AllFields: set<FieldName> :=
    {AmountField, CurrencyField, DateField, IbanField, BicField, IinBinField, InvoiceNoField, ReceiverField, PayerField}

  /** The amount `_fallback` stores: the last group as written, the number group as intended. */
  function FallbackAmount(reading: Reading, t: string): Option<string> {
    match reading
    case AsWritten => AmountAsWritten(t)
    case AsIntended => Amount(t)
  }

  /** What the searches of `_fallback` find in a text, one result per field. */
  datatype Searched = Searched(
    amount: Option<string>, currency: Option<string>, date: Option<string>,
    iban: Option<string>, bic: Option<string>, iinBin: Option<string>,
    invoiceNo: Option<string>, receiver: Option<string>, payer: Option<string>)

  /** The nine searches of `_fallback` on the text `t`. */
  function Searches(reading: Reading, t: string): Searched {
    Searched(FallbackAmount(reading, t), Currency(t), FallbackDate(t),
      SearchText(t, IbanMatcher(true)), SearchText(t, BicAt), SearchText(t, TwelveDigitsAt),
      Invoice(t), Receiver(t), Payer(t))
  }

  /** The result for field `k`. */
  function Hit(s: Searched, k: FieldName): Option<string> {
    match k
    case AmountField => s.amount
    case CurrencyField => s.currency
    case DateField => s.date
    case IbanField => s.iban
    case BicField => s.bic
    case IinBinField => s.iinBin
    case InvoiceNoField => s.invoiceNo
    case ReceiverField => s.receiver
    case PayerField => s.payer
  }

  /** `text or ""`. */
  function TextOrEmpty(text: Option<string>): string {
    if text.Some? then text.value else ""
  }

  /**
   * The dict `_fallback` returns: a field is present exactly when its search
   * finds something, and then holds what it found.
   */
  function FallbackFields(reading: Reading, text: Option<string>): (r: map<FieldName, string>)
    ensures forall k :: k in r <==> Hit(Searches(reading, TextOrEmpty(text)), k).Some?
    ensures forall k :: k in r ==> r[k] == Hit(Searches(reading, TextOrEmpty(text)), k).value
  {
    AllFieldsComplete();
    Found(Searches(reading, TextOrEmpty(text)), AllFields)
  }

  lemma AllFieldsComplete()
    ensures forall k :: k in AllFields
  {
    forall k ensures k in AllFields {
      match k
      case AmountField =>
      case CurrencyField =>
      case DateField =>
      case IbanField =>
      case BicField =>
      case IinBinField =>
      case InvoiceNoField =>
      case ReceiverField =>
      case PayerField =>
    }
  }

  /** The fields among `among` for which the search found something, with what it found. */
  function Found(s: Searched, among: set<FieldName>): map<FieldName, string> {
    map k | k in among && Hit(s, k).Some? :: Hit(s, k).value
  }

  /** `if m: fields[k] = v`. */
  function Put(fields: map<FieldName, string>, k: FieldName, o: Option<string>): map<FieldName, string> {
    if o.Some? then fields[k := o.value] else fields
  }

  /** Storing what was found for one more field extends the fields found so far by that field. */
  lemma FoundPut(s: Searched, among: set<FieldName>, k: FieldName)
    ensures Put(Found(s, among), k, Hit(s, k)) == Found(s, among + {k})
  {
  }

  lemma FoundNone(s: Searched)
    ensures Found(s, {}) == map[]
  {
  }

  /** Storing, field after field in the order of `_fallback`, whatever each search found gives `Found` over all fields. */
  lemma PutsFound(found: Searched)
    ensures Put(Put(Put(Put(Put(Put(Put(Put(Put(map[], AmountField, found.amount), CurrencyField, found.currency), DateField, found.date),
              IbanField, found.iban), BicField, found.bic), IinBinField, found.iinBin), InvoiceNoField, found.invoiceNo), ReceiverField, found.receiver),
              PayerField, found.payer)
            == Found(found, AllFields)
  {
    var s0: set<FieldName> := {};
    FoundNone(found);
    FoundPut(found, s0, AmountField);
    var s1 := s0 + {AmountField};
    FoundPut(found, s1, CurrencyField);
    var s2 := s1 + {CurrencyField};
    FoundPut(found, s2, DateField);
    var s3 := s2 + {DateField};
    FoundPut(found, s3, IbanField);
    var s4 := s3 + {IbanField};
    FoundPut(found, s4, BicField);
    var s5 := s4 + {BicField};
    FoundPut(found, s5, IinBinField);
    var s6 := s5 + {IinBinField};
    FoundPut(found, s6, InvoiceNoField);
    var s7 := s6 + {InvoiceNoField};
    FoundPut(found, s7, ReceiverField);
    var s8 := s7 + {ReceiverField};
    FoundPut(found, s8, PayerField);
    var s9 := s8 + {PayerField};
    assert s9 == AllFields;
  }

  /**
   * `_fallback`: the searches in the order of the code, each filling its field
   * when it finds something; `reading` chooses the amount group as written or
   * as intended.
   */
  method Fallback(reading: Reading, text: Option<string>) returns (fields: map<FieldName, string>)
    ensures fields == FallbackFields(reading, text)
  {
    var t := if text.Some? then text.value else "";
    fields := map[];
    var amount := FindAmount(reading, t);
    fields := Put(fields, AmountField, amount);
    var currency := FindCurrency(t);
    fields := Put(fields, CurrencyField, currency);
    var date := FindDate(t);
    fields := Put(fields, DateField, date);
    var iban := SearchText(t, IbanMatcher(true));
    fields := Put(fields, IbanField, iban);
    var bic := SearchText(t, BicAt);
    fields := Put(fields, BicField, bic);
    var iin := SearchText(t, TwelveDigitsAt);
    fields := Put(fields, IinBinField, iin);
    var inv := Invoice(t);
    fields := Put(fields, InvoiceNoField, inv);
    var recv := Receiver(t);
    fields := Put(fields, ReceiverField, recv);
    var pay := Payer(t);
    fields := Put(fields, PayerField, pay);
    var found := Searched(amount, currency, date, iban, bic, iin, inv, recv, pay);
    assert found == Searches(reading, t);
    PutsFound(found);
  }

  /**
   * The amount block of `_fallback`: the labelled pattern, else the currency
   * pattern, and `_norm_num` of the group the code picks (as written, the last
   * group; as intended, the number).
   */
  method FindAmount(reading: Reading, t: string) returns (amount: Option<string>)
    ensures amount == FallbackAmount(reading, t)
  {
    var m := Search(t, LabelledAmountAt);
    if m.None? {
      m := Search(t, CurrencyAmountAt);
    }
    if m.Some? {
      var group := if reading == AsWritten then LastGroup(m.value.1) else m.value.1.number;
      amount := Some(CleanNumber(group));
    } else {
      amount := None;
    }
  }

  /** The currency block of `_fallback`. */
  method FindCurrency(t: string) returns (currency: Option<string>)
    ensures currency == Currency(t)
  {
    currency := None;
    if Search(t, KztAt).Some? {
      currency := Some("KZT");
    } else {
      var cur := Search(t, ForeignCodeAt);
      if cur.Some? {
        currency := Some(UpperStr(cur.value.1));
      }
    }
  }

  /** The date block of `_fallback`. */
  method FindDate(t: string) returns (date: Option<string>)
    ensures date == FallbackDate(t)
  {
    date := None;
    var d := SearchText(t, NumericDateAt);
    if d.Some? {
      date := Some(DateOfMatch(d.value));
    } else {
      var ru := TryParseRuDate(t);
      if ru.Some? && ru.value != [] {
        date := ru;
      }
    }
  }

  /** A stored amount starts with a digit and has no space, no-break space or ','. */
  lemma AmountShape(t: string)
    ensures Amount(t).Some? ==> var a := Amount(t).value; a != [] && IsDigit(a[0]) && NoNumberSeparator(a)
  {
    if Amount(t).Some? {
      NormNumSpec(AmountSearch(t).value.number);
    }
  }

  /** The result of `map_to_fields` on a disabled client: the fallback's fields under "fields", nothing else. */
  function MapToFieldsDisabled(reading: Reading, text: Option<string>): (r: map<string, map<FieldName, string>>)
    ensures r.Keys == {"fields"} && r["fields"] == FallbackFields(reading, text)
  {
    map["fields" := FallbackFields(reading, text)]
  }
}
