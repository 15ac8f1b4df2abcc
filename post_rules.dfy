/**
 * The rule-based canonicalisation of extracted fields (`src/post_rules.py`):
 * amounts, currency codes, dates, and the IBAN, BIC and IIN/BIN identifiers.
 *
 * A fields dict is a `map<string, Value>`; `None` is `Value.Other(false)`.
 */
module PostRules {
  import opened Text
  import opened Recognizers
  import opened Dates

  type Fields = map<string, Value>

  // ------------------------------------------------------------ norm_amount

  /** A number as `\d+\.?\d*` matches it: digits, then optionally a dot and more digits. */
  predicate AmountShape(t: string) {
    |t| >= 1 && IsDigit(t[0])
    && forall i :: 0 <= i < |t| ==> IsDigit(t[i]) || (t[i] == '.' && AllDigits(t[..i]))
  }

  /** The run of digits starting at `p`. */
  function DigitRun(s: string, p: nat): (n: nat)
    requires p <= |s|
    ensures p + n <= |s| && (p + n == |s| || !IsDigit(s[p + n]))
    ensures forall i :: p <= i < p + n ==> IsDigit(s[i])
    decreases |s| - p
  {
    if p < |s| && IsDigit(s[p]) then 1 + DigitRun(s, p + 1) else 0
  }

  /**
   * The length of the `\d+\.?\d*` match at a digit: every part is greedy and
   * the optional parts can always match empty, so no backtracking happens.
   */
  function AmountLen(s: string, p: nat): (n: nat)
    requires p < |s| && IsDigit(s[p])
    ensures 1 <= n && p + n <= |s|
  {
    var k := DigitRun(s, p);
    if p + k < |s| && s[p + k] == '.' then k + 1 + DigitRun(s, p + k + 1) else k
  }

  /**
   * The last match of `re.findall(r"\d+\.?\d*", s)` from `p` on, as (start,
   * length): matches do not overlap and every digit after the last one
   * belongs to it, so only non-digits follow the last match.
   */
  function LastAmountFrom(s: string, p: nat): (r: Option<(nat, nat)>)
    requires p <= |s|
    ensures r.None? <==> forall i :: p <= i < |s| ==> !IsDigit(s[i])
    ensures r.Some? ==> p <= r.value.0 && r.value.0 < |s| && IsDigit(s[r.value.0])
                        && r.value.1 == AmountLen(s, r.value.0)
                        && forall i :: r.value.0 + r.value.1 <= i < |s| ==> !IsDigit(s[i])
    decreases |s| - p
  {
    if p == |s| then None
    else if IsDigit(s[p]) then
      var n := AmountLen(s, p);
      match LastAmountFrom(s, p + n)
      case Some(m) => Some(m)
      case None => Some((p, n))
    else LastAmountFrom(s, p + 1)
  }

  /** `norm_amount`: the last number of the cleaned text, or None. */
  function NormAmount(x: Option<string>): (r: Option<string>)
  {
    if x.None? || x.value == [] then None
    else
      var s := CleanNumber(x.value);
      match LastAmountFrom(s, 0)
      case Some((p, n)) => Some(s[p..p + n])
      case None => None
  }

  lemma AmountLenShape(s: string, p: nat)
    requires p < |s| && IsDigit(s[p])
    ensures AmountShape(s[p..p + AmountLen(s, p)])
  {
    var n := AmountLen(s, p);
    var t := s[p..p + n];
    var k := DigitRun(s, p);
    if p + k < |s| && s[p + k] == '.' {
      forall i | 0 <= i < |t| ensures IsDigit(t[i]) || (t[i] == '.' && AllDigits(t[..i])) {
        if i == k {
          assert forall j :: 0 <= j < i ==> t[..i][j] == s[p + j];
        }
      }
    }
  }

  /** `a` occurs in `s` at `p` and no digit follows it. */
  predicate LastNumberAt(s: string, a: string, p: int) {
    0 <= p && p + |a| <= |s| && s[p..p + |a|] == a
    && forall i :: p + |a| <= i < |s| ==> !IsDigit(s[i])
  }

  /**
   * `norm_amount` is None for None or empty input, is None exactly when the
   * cleaned text has no digit, and otherwise returns the last number of the
   * cleaned text: a number-shaped piece of it after which no digit follows.
   */
  lemma NormAmountIsLastNumber(x: Option<string>)
    ensures x.None? || x.value == [] ==> NormAmount(x).None?
    ensures x.Some? && x.value != [] ==>
      (NormAmount(x).None? <==> forall i :: 0 <= i < |CleanNumber(x.value)| ==> !IsDigit(CleanNumber(x.value)[i]))
    ensures NormAmount(x).Some? ==>
      var s, a := CleanNumber(x.value), NormAmount(x).value;
      AmountShape(a) && exists p :: LastNumberAt(s, a, p)
  {
    if x.Some? && x.value != [] {
      var s := CleanNumber(x.value);
      var m := LastAmountFrom(s, 0);
      NormAmountOfText(x);
      if m.Some? {
        var p, n := m.value.0, m.value.1;
        AmountLenShape(s, p);
        assert LastNumberAt(s, s[p..p + n], p);
      }
    }
  }

  /** `norm_amount` of a non-empty text: the last match in the cleaned text, if any. */
  lemma NormAmountOfText(x: Option<string>)
    requires x.Some? && x.value != []
    ensures var s := CleanNumber(x.value); var m := LastAmountFrom(s, 0);
      NormAmount(x) == if m.Some? then Some(s[m.value.0..m.value.0 + m.value.1]) else None
  {
  }

  lemma DigitRunOfDigits(s: string, p: nat, n: nat)
    requires p + n <= |s| && (p + n == |s| || !IsDigit(s[p + n]))
    requires forall i :: p <= i < p + n ==> IsDigit(s[i])
    ensures DigitRun(s, p) == n
    decreases n
  {
    if n > 0 {
      DigitRunOfDigits(s, p + 1, n - 1);
    }
  }

  /** A number-shaped text is one whole match. */
  lemma AmountLenOfShape(t: string)
    requires AmountShape(t)
    ensures AmountLen(t, 0) == |t|
  {
    if forall i :: 0 <= i < |t| ==> IsDigit(t[i]) {
      DigitRunOfDigits(t, 0, |t|);
    } else {
      var k :| 0 <= k < |t| && !IsDigit(t[k]);
      assert t[k] == '.' && AllDigits(t[..k]);
      assert forall i :: 0 <= i < k ==> IsDigit(t[..k][i]);
      DigitRunOfDigits(t, 0, k);
      forall i | k < i < |t| ensures IsDigit(t[i]) {
        assert !AllDigits(t[..i]) by { assert t[..i][k] == '.'; }
      }
      DigitRunOfDigits(t, k + 1, |t| - k - 1);
    }
  }

  /** `norm_amount` gives back a number it produced. */
  lemma NormAmountOfAmount(a: string)
    requires AmountShape(a)
    ensures NormAmount(Some(a)) == Some(a)
  {
    CleanNumberOfClean(a);
    AmountLenOfShape(a);
    assert LastAmountFrom(a, |a|).None?;
    assert a[0..|a|] == a;
  }

  /** Digits carry no separator, so the cleaning leaves them as they are. */
  lemma CleanDigits(d: string)
    requires AllDigits(d)
    ensures CleanNumber(d) == d
  {
    forall i | 0 <= i < |d| ensures !IsNumberSeparator(d[i]) {
      assert IsDigit(d[i]);
    }
    CleanNumberOfClean(d);
  }

  /** A grouped amount such as "12 345,67": the space goes and the comma becomes the point. */
  lemma CleanGroupedAmount(a: string, b: string, c: string)
    requires AllDigits(a) && AllDigits(b) && AllDigits(c)
    ensures CleanNumber(a + " " + b + "," + c) == a + b + "." + c
  {
    CleanDigits(a);
    CleanDigits(b);
    CleanDigits(c);
    var x1 := a + " ";
    CleanNumberAppend(a, " ");
    assert CleanNumber(" ") == [];
    assert CleanNumber(x1) == a;
    var x2 := x1 + b;
    CleanNumberAppend(x1, b);
    var x3 := x2 + ",";
    CleanNumberAppend(x2, ",");
    assert CleanNumber(",") == ".";
    assert CleanNumber(x3) == a + b + ".";
    CleanNumberAppend(x3, c);
  }

  /** Digits, a point, digits: the shape `norm_amount` returns. */
  lemma DecimalShape(a: string, c: string)
    requires a != [] && AllDigits(a) && AllDigits(c)
    ensures AmountShape(a + "." + c)
  {
    var t := a + "." + c;
    forall i | 0 <= i < |t| ensures IsDigit(t[i]) || (t[i] == '.' && AllDigits(t[..i])) {
      if i < |a| {
        assert t[i] == a[i];
      } else if i == |a| {
        assert t[..i] == a;
      } else {
        assert t[i] == c[i - |a| - 1];
      }
    }
  }

  /** A text whose cleaning is already a number reads as that number. */
  lemma NormAmountOfCleaned(x: string, a: string)
    requires CleanNumber(x) == a && AmountShape(a)
    ensures NormAmount(Some(x)) == Some(a)
  {
    NormAmountOfAmount(a);
    CleanNumberOfClean(a);
  }

  /**
   * The amount rule on a grouped amount with a decimal comma: "12 345,67" is read as
   * "12345.67".
   */
  lemma NormGroupedAmount(a: string, b: string, c: string)
    requires a != [] && AllDigits(a) && AllDigits(b) && AllDigits(c)
    ensures NormAmount(Some(a + " " + b + "," + c)) == Some(a + b + "." + c)
  {
    CleanGroupedAmount(a, b, c);
    assert AllDigits(a + b) by {
      forall i | 0 <= i < |a + b| ensures IsDigit((a + b)[i]) {
        if i >= |a| { assert (a + b)[i] == b[i - |a|]; }
      }
    }
    DecimalShape(a + b, c);
    NormAmountOfCleaned(a + " " + b + "," + c, a + b + "." + c);
  }

  // ------------------------------------------------------------ norm_currency

  /** The currency codes, in the order the loop tries them. */
  const CurrencyCodes: seq<string> := ["USD", "EUR", "RUB", "KZT"]

  /** The tenge sign U+20B8. */
  const TengeSign: string := "\U{20B8}"

  /**
   * The literal the source tests for the tenge sign: the UTF-8 bytes of U+20B8
   * read as Windows-1252, "â‚¸".
   */
  const MisdecodedTengeSign: string := "\U{E2}\U{201A}\U{B8}"

  /** `for c in codes: if c in u: return c`. */
  function FirstCodeIn(u: string, codes: seq<string>): (r: Option<string>)
    ensures r.Some? ==> r.value in codes && Contains(u, r.value)
    ensures r.None? <==> forall c :: c in codes ==> !Contains(u, c)
  {
    if codes == [] then None
    else if Contains(u, codes[0]) then Some(codes[0])
    else FirstCodeIn(u, codes[1..])
  }

  /** `norm_currency` with `sign` as the symbol that means tenge. */
  function CurrencyWithSign(sign: string, t: Option<string>): Option<string> {
    if t.None? || t.value == [] then None
    else
      var u := UpperStr(t.value);
      if Contains(u, sign) || Contains(u, "KZT") then Some("KZT")
      else FirstCodeIn(u, CurrencyCodes)
  }

  /** The symbol the test of post_rules.py:19 looks for, as written and as intended. */
  function TengeSymbol(reading: Reading): string {
    match reading
    case AsWritten => MisdecodedTengeSign
    case AsIntended => TengeSign
  }

  /** `norm_currency` as written: its symbol test looks for the mis-decoded literal. */
  function NormCurrencyAsWritten(t: Option<string>): Option<string> {
    CurrencyWithSign(TengeSymbol(AsWritten), t)
  }

  /** `norm_currency` as intended: the symbol test looks for the tenge sign. */
  function NormCurrency(t: Option<string>): Option<string> {
    CurrencyWithSign(TengeSymbol(AsIntended), t)
  }

  /** No upper-cased text contains the mis-decoded literal, whose first character is a small letter. */
  lemma UpperNeverHasMisdecodedSign(u: string)
    ensures !Contains(UpperStr(u), MisdecodedTengeSign)
  {
    UpperIsNeverSmallA();
    var w := UpperStr(u);
    forall i | 0 <= i <= |w| - 3 ensures !OccursAt(w, MisdecodedTengeSign, i) {
      assert w[i..i + 3][0] == Upper(u[i]) != MisdecodedTengeSign[0];
    }
  }

  /** As written, the symbol test never fires: a text with only the tenge sign gives None. */
  lemma NormCurrencyAsWrittenMissesSign()
    ensures NormCurrencyAsWritten(Some(TengeSign)) == None
    ensures NormCurrency(Some(TengeSign)) == Some("KZT")
  {
    var u := UpperStr(TengeSign);
    assert u == TengeSign;
    assert OccursAt(u, TengeSign, 0);
    UpperNeverHasMisdecodedSign(TengeSign);
    forall c | c in CurrencyCodes + ["KZT"] ensures !Contains(u, c) {
      assert |c| == 3;
    }
  }

  /** Both versions agree on every text without the tenge sign. */
  lemma NormCurrencyAgreesWithoutSign(t: Option<string>)
    requires t.Some? ==> !Contains(UpperStr(t.value), TengeSign)
    ensures NormCurrency(t) == NormCurrencyAsWritten(t)
  {
    if t.Some? { UpperNeverHasMisdecodedSign(t.value); }
  }

  /**
   * `norm_currency` is None for empty input and otherwise one of the four
   * codes or None: KZT when the symbol or "KZT" occurs in the upper-cased
   * text, else the first of USD, EUR, RUB found, else None.
   */
  lemma NormCurrencyCases(sign: string, t: Option<string>)
    ensures t.None? || t.value == [] ==> CurrencyWithSign(sign, t).None?
    ensures CurrencyWithSign(sign, t).Some? ==> CurrencyWithSign(sign, t).value in {"KZT", "USD", "EUR", "RUB"}
    ensures t.Some? && t.value != [] ==>
      var u, r := UpperStr(t.value), CurrencyWithSign(sign, t);
      var kzt := Contains(u, sign) || Contains(u, "KZT");
      (r == Some("KZT") <==> kzt)
      && (r == Some("USD") <==> !kzt && Contains(u, "USD"))
      && (r == Some("EUR") <==> !kzt && !Contains(u, "USD") && Contains(u, "EUR"))
      && (r == Some("RUB") <==> !kzt && !Contains(u, "USD") && !Contains(u, "EUR") && Contains(u, "RUB"))
  {
    if t.Some? && t.value != [] {
      var u := UpperStr(t.value);
      var cs := CurrencyCodes;
      assert cs[1..] == ["EUR", "RUB", "KZT"] && cs[1..][1..] == ["RUB", "KZT"] && cs[1..][1..][1..] == ["KZT"];
      assert "KZT" != "USD" && "KZT" != "EUR" && "KZT" != "RUB" && "USD" != "EUR" && "USD" != "RUB" && "EUR" != "RUB";
      var kzt := Contains(u, sign) || Contains(u, "KZT");
      if !kzt {
        if Contains(u, "USD") {
          assert FirstCodeIn(u, cs) == Some("USD");
        } else if Contains(u, "EUR") {
          assert FirstCodeIn(u, cs) == FirstCodeIn(u, cs[1..]) == Some("EUR");
        } else if Contains(u, "RUB") {
          assert FirstCodeIn(u, cs) == FirstCodeIn(u, cs[1..][1..]) == Some("RUB");
        } else {
          assert FirstCodeIn(u, cs).None?;
        }
      }
    }
  }

  lemma UpperOfCode(c: string)
    requires c in ["KZT", "USD", "EUR", "RUB"]
    ensures UpperStr(c) == c
  {
  }

  /** `norm_currency` gives back a code it produced, as written and as intended. */
  lemma NormCurrencyOfCode(reading: Reading, c: string)
    requires c in {"KZT", "USD", "EUR", "RUB"}
    ensures CurrencyWithSign(TengeSymbol(reading), Some(c)) == Some(c)
  {
    var sign := TengeSymbol(reading);
    UpperOfCode(c);
    assert OccursAt(c, c, 0);
    var cs := CurrencyCodes;
    assert cs[1..] == ["EUR", "RUB", "KZT"] && cs[1..][1..] == ["RUB", "KZT"];
    forall x, i | x in ["KZT", "USD", "EUR", "RUB"] && x != c && 0 <= i <= |c| - |x| ensures !OccursAt(c, x, i) {
      assert i == 0 && c[0..3] == c;
    }
    forall i | 0 <= i <= |c| - |sign| ensures !OccursAt(c, sign, i) {
      assert c[i..i + |sign|][0] == c[i] != sign[0];
    }
  }

  // ------------------------------------------------------------ norm_date

  /**
   * `norm_date`: None for a falsy input; else the first of the five formats
   * that parses, printed as YYYY-MM-DD; else the loose pattern's numbers,
   * zero-padded without any range check; else None.
   */
  function NormDate(s: Option<string>): (r: Option<string>)
  {
    if s.None? || s.value == [] then None
    else match FirstFormat(s.value, NormDateFormats)
      case Some(d) => Some(DateText(d))
      case None =>
        match Search(s.value, LooseDateAt)
        case Some((_, m)) => Some(DateText(Date(m.vals[0], m.vals[1], m.vals[2])))
        case None => None
  }

  /** The dates `norm_date` prints: a valid date, or any numbers of the loose pattern. */
  predicate NormDateSource(d: Date) {
    ValidDate(d) || (2000 <= d.year <= 2099 && d.month < 100 && d.day < 100)
  }

  /** What `norm_date` returns is the ISO text of a valid date or of a loose 20xx match. */
  lemma NormDateOutput(s: Option<string>)
    requires NormDate(s).Some?
    ensures exists d :: NormDateSource(d) && NormDate(s) == Some(DateText(d))
  {
    var x := s.value;
    match FirstFormat(x, NormDateFormats)
    case Some(d) =>
      assert NormDateSource(d);
    case None =>
      var hit := Search(x, LooseDateAt).value;
      assert LooseDateAt(x, hit.0) == Some(hit.1);
      var m := hit.1;
      assert InRange(LooseFields[0], m.vals[0]) && InRange(LooseFields[1], m.vals[1]) && InRange(LooseFields[2], m.vals[2]);
      assert NormDateSource(Date(m.vals[0], m.vals[1], m.vals[2]));
  }

  /** `norm_date` returns None or a text of the shape `DDDD-DD-DD`. */
  lemma NormDateShape(s: Option<string>)
    ensures NormDate(s).Some? ==> IsoShape(NormDate(s).value)
    ensures s.None? || s.value == [] ==> NormDate(s).None?
  {
    if NormDate(s).Some? {
      NormDateOutput(s);
      var d :| NormDateSource(d) && NormDate(s) == Some(DateText(d));
      DateTextShape(d);
    }
  }

  /** `norm_date` gives back the text of every date it can print. */
  lemma NormDateOfDateText(d: Date)
    requires NormDateSource(d)
    ensures NormDate(Some(DateText(d))) == Some(DateText(d))
  {
    var r := DateText(d);
    DateTextDigits(d);
    FirstFormatOfIsoText(r);
    StrptimeOfIsoText(r);
    if !ValidDate(d) {
      PadFour(d.year);
      assert r[0] == '2' && r[1] == '0';
      LooseOfIsoText(r);
      assert [d.year, d.month, d.day][0] == d.year;
    }
  }

  /** `norm_date` is idempotent. */
  lemma NormDateIdempotent(s: Option<string>)
    ensures NormDate(NormDate(s)) == NormDate(s)
  {
    if NormDate(s).Some? {
      NormDateOutput(s);
      var d :| NormDateSource(d) && NormDate(s) == Some(DateText(d));
      NormDateOfDateText(d);
    }
  }

  /** "%d.%m.%Y" reads "10.09.2025" as the tenth of September 2025. */
  lemma StrptimeDayFirstExample()
    ensures Strptime("10.09.2025", NormDateFormats[1]) == Some(Date(2025, 9, 10))
  {
    var s := "10.09.2025";
    var ks := [StrpDay, StrpMonth, Year4];
    var seps := {'.'};
    assert ks[1..] == [StrpMonth, Year4] && ks[1..][1..] == [Year4];
    assert s[2] in seps && s[5] in seps;
    assert Alts(Year4, s, 6) == [Tok(4, 2025)];
    assert AfterTok(Tok(4, 2025), ks[1..][1..], seps, Free, s, 6) == Some(Parsed(10, [2025]));
    assert MatchFields(ks[1..][1..], seps, Free, s, 3 + 2 + 1) == Some(Parsed(10, [2025]));
    assert Alts(StrpMonth, s, 3) == [Tok(2, 9)];
    assert [9] + [2025] == [9, 2025];
    assert AfterTok(Tok(2, 9), ks[1..], seps, Free, s, 3) == Some(Parsed(10, [9, 2025]));
    assert MatchFields(ks[1..], seps, Free, s, 0 + 2 + 1) == Some(Parsed(10, [9, 2025]));
    assert Alts(StrpDay, s, 0) == [Tok(2, 10), Tok(1, 1)];
    assert [10] + [9, 2025] == [10, 9, 2025];
    assert AfterTok(Tok(2, 10), ks, seps, Free, s, 0) == Some(Parsed(10, [10, 9, 2025]));
    assert MatchFields(ks, seps, Free, s, 0) == Some(Parsed(10, [10, 9, 2025]));
  }

  /** "%Y-%m-%d" does not read "10.09.2025". */
  lemma StrptimeIsoRejectsExample()
    ensures Strptime("10.09.2025", NormDateFormats[0]).None?
  {
    var s := "10.09.2025";
    assert Alts(Year4, s, 0) == [];
  }

  lemma DateTextExample()
    ensures DateText(Date(2025, 9, 10)) == "2025-09-10"
  {
    PadFour(2025);
    PadTwo(9);
    PadTwo(10);
  }

  /** The example of the date rule: "10.09.2025" is read day first and printed as "2025-09-10". */
  lemma NormDateExample()
    ensures NormDate(Some("10.09.2025")) == Some("2025-09-10")
  {
    StrptimeIsoRejectsExample();
    StrptimeDayFirstExample();
    DateTextExample();
    var fs := NormDateFormats;
    assert FirstFormat("10.09.2025", fs) == FirstFormat("10.09.2025", fs[1..]) == Some(Date(2025, 9, 10));
  }

  /** The loose fallback does not check ranges: a thirteenth month and a 45th day are printed as they are. */
  lemma NormDateLooseExample()
    ensures NormDate(Some("2025-13-45")) == Some("2025-13-45")
    ensures Strptime("2025-13-45", IsoFormat).None?
  {
    var d := Date(2025, 13, 45);
    PadFour(2025);
    PadTwo(13);
    PadTwo(45);
    assert DateText(d) == "2025-13-45";
    NormDateOfDateText(d);
    DateTextDigits(d);
    StrptimeOfIsoText(DateText(d));
  }

  // ------------------------------------------------------------ fix_fields

  /** The keys `fix_fields` normalises; every other key passes through. */
  const NormalisedKeys: set<string> := {"iban", "bic", "amount", "currency", "date", "iin_bin"}

  /** `s.replace(" ", "")`. */
  function RemoveSpaces(s: string): (r: string)
    ensures forall i :: 0 <= i < |r| ==> r[i] != ' '
  {
    if s == [] then [] else (if s[0] == ' ' then [] else [s[0]]) + RemoveSpaces(s[1..])
  }

  lemma {:induction false} RemoveSpacesOfNoSpace(s: string)
    requires forall i :: 0 <= i < |s| ==> s[i] != ' '
    ensures RemoveSpaces(s) == s
  {
    if s != [] { RemoveSpacesOfNoSpace(s[1..]); }
  }

  /** A value some step of `fix_fields` cannot handle: a truthy non-string. */
  predicate Unhandled(v: Value) {
    v.Other? && v.truthy
  }

  /** The key whose value raises first, in the order `fix_fields` reaches them. */
  function FirstUnhandled(d: Fields): (r: Option<string>)
    ensures r.Some? ==> r.value in NormalisedKeys && Unhandled(Lookup(d, r.value))
    ensures r.None? <==> forall k :: k in NormalisedKeys ==> !Unhandled(Lookup(d, k))
  {
    if Unhandled(Lookup(d, "iban")) then Some("iban")
    else if Unhandled(Lookup(d, "bic")) then Some("bic")
    else if Unhandled(Lookup(d, "amount")) then Some("amount")
    else if Unhandled(Lookup(d, "currency")) then Some("currency")
    else if Unhandled(Lookup(d, "date")) then Some("date")
    else if Unhandled(Lookup(d, "iin_bin")) then Some("iin_bin")
    else None
  }

  /** A value that is a string or falsy, read as an optional string (falsy non-strings are None). */
  function OptionalText(v: Value): Option<string> {
    if v.Str? then Some(v.s) else None
  }

  /** A search step: a truthy string is replaced by the match, or None. */
  function SearchStep(v: Value, at: (string, nat) -> Option<nat>): Value {
    if Truthy(v) && v.Str? then OptionValue(SearchText(v.s, at)) else v
  }

  /** What `fix_fields` leaves under key `k` before it drops the falsy values. */
  function FixedValue(reading: Reading, d: Fields, k: string): Value {
    var v := Lookup(d, k);
    if k == "iban" then
      if Truthy(v) && v.Str? then OptionValue(SearchText(RemoveSpaces(v.s), IbanMatcher(false))) else v
    else if k == "bic" then SearchStep(v, BicAt)
    else if k == "amount" then OptionValue(NormAmount(OptionalText(v)))
    else if k == "currency" then OptionValue(CurrencyWithSign(TengeSymbol(reading), OptionalText(v)))
    else if k == "date" then OptionValue(NormDate(OptionalText(v)))
    else if k == "iin_bin" then SearchStep(v, TwelveDigitsAt)
    else v
  }

  /** The message of the error `fix_fields` raises on a non-string under `k`. */
  function NotAString(k: string): string {
    k + " is not a string"
  }

  /** The fields of `d` after fixing, the falsy ones dropped. */
  function FixedMap(reading: Reading, d: Fields): Fields {
    map k | k in d.Keys + NormalisedKeys && Truthy(FixedValue(reading, d, k)) :: FixedValue(reading, d, k)
  }

  /** `{k: v for k, v in out.items() if v}`. */
  function TruthyPart(out: Fields): (r: Fields)
    ensures forall k :: k in r <==> k in out && Truthy(out[k])
    ensures forall k :: k in r ==> r[k] == out[k]
  {
    map k | k in out && Truthy(out[k]) :: out[k]
  }

  /**
   * `fix_fields(raw)`: the normalised fields with the falsy ones dropped, or the
   * error a non-string raises; the currency is normalised as written or as intended.
   */
  function FixedFields(reading: Reading, raw: Option<Fields>): (r: Result<Fields>)
    ensures r.Raises? <==> exists k :: k in NormalisedKeys && Unhandled(Lookup(if raw.Some? then raw.value else map[], k))
    ensures r.Ok? ==> forall k :: k in r.value ==> Truthy(r.value[k])
  {
    var d := if raw.Some? then raw.value else map[];
    match FirstUnhandled(d)
    case Some(k) => Raises(NotAString(k))
    case None => Ok(FixedMap(reading, d))
  }

  /**
   * The state of the copy `fix_fields` updates once the keys in `done` are
   * handled: every key of the input is still there, the handled keys hold their
   * fixed value (or are absent when that value is falsy and the input had none),
   * and the rest are untouched.
   */
  predicate Stage(reading: Reading, out: Fields, d: Fields, done: set<string>) {
    (forall k :: k in d ==> k in out)
    && (forall k :: k in out ==> k in d || k in done)
    && (forall k :: k in out ==> out[k] == if k in done then FixedValue(reading, d, k) else d[k])
    && (forall k :: k in done && Truthy(FixedValue(reading, d, k)) ==> k in out)
  }

  lemma StageGet(reading: Reading, out: Fields, d: Fields, done: set<string>, k: string)
    requires Stage(reading, out, d, done) && k !in done
    ensures Lookup(out, k) == Lookup(d, k)
  {
  }

  /** Writing the fixed value of one more key. */
  lemma StageWrite(reading: Reading, out: Fields, d: Fields, done: set<string>, k: string, v: Value)
    requires Stage(reading, out, d, done) && k !in done && v == FixedValue(reading, d, k)
    ensures Stage(reading, out[k := v], d, done + {k})
  {
  }

  /** Leaving a key whose fixed value is its input value. */
  lemma StageKeep(reading: Reading, out: Fields, d: Fields, done: set<string>, k: string)
    requires Stage(reading, out, d, done) && k !in done && FixedValue(reading, d, k) == Lookup(d, k)
    ensures Stage(reading, out, d, done + {k})
  {
  }

  /** Dropping the falsy values of the finished copy gives the value of `fix_fields`. */
  lemma StageDone(reading: Reading, out: Fields, d: Fields)
    requires Stage(reading, out, d, NormalisedKeys)
    ensures TruthyPart(out) == FixedMap(reading, d)
  {
    forall k | k in d && k !in NormalisedKeys ensures FixedValue(reading, d, k) == d[k] {
      assert k != "iban" && k != "bic" && k != "amount" && k != "currency" && k != "date" && k != "iin_bin";
    }
  }

  lemma FixedFieldsOfUnhandled(reading: Reading, raw: Option<Fields>, d: Fields, k: string)
    requires d == (if raw.Some? then raw.value else map[]) && FirstUnhandled(d) == Some(k)
    ensures FixedFields(reading, raw) == Raises(NotAString(k))
  {
  }

  lemma FixedFieldsOfHandled(reading: Reading, raw: Option<Fields>, d: Fields)
    requires d == (if raw.Some? then raw.value else map[]) && FirstUnhandled(d).None?
    ensures FixedFields(reading, raw) == Ok(FixedMap(reading, d))
  {
  }

  /**
   * A currency given as the tenge sign alone: as written, `fix_fields` drops
   * the key; as intended, it keeps "KZT".
   */
  lemma FixedFieldsTengeSign(d: Fields)
    requires FirstUnhandled(d).None? && Lookup(d, "currency") == Str(TengeSign)
    ensures FixedFields(AsWritten, Some(d)).Ok? && "currency" !in FixedFields(AsWritten, Some(d)).value
    ensures FixedFields(AsIntended, Some(d)).Ok? && "currency" in FixedFields(AsIntended, Some(d)).value
      && FixedFields(AsIntended, Some(d)).value["currency"] == Str("KZT")
  {
    NormCurrencyAsWrittenMissesSign();
    FixedFieldsOfHandled(AsWritten, Some(d), d);
    FixedFieldsOfHandled(AsIntended, Some(d), d);
    assert FixedValue(AsWritten, d, "currency") == NoneValue;
    assert "currency" !in FixedMap(AsWritten, d);
    assert FixedValue(AsIntended, d, "currency") == Str("KZT");
    assert FixedMap(AsIntended, d)["currency"] == Str("KZT");
  }

  /**
   * One line of `fix_fields` on the copy `out`: the search for an IBAN, a BIC or a
   * 12-digit IIN/BIN when the value is truthy, or the normalisation of the amount,
   * the currency or the date. `bad` reports the non-string on which the line raises.
   */
  method FixKey(reading: Reading, out: Fields, d: Fields, done: set<string>, k: string) returns (next: Fields, bad: bool)
    requires Stage(reading, out, d, done) && k in NormalisedKeys && k !in done
    ensures bad <==> Unhandled(Lookup(d, k))
    ensures !bad ==> Stage(reading, next, d, done + {k})
  {
    StageGet(reading, out, d, done, k);
    var v := Lookup(out, k);
    next, bad := out, Unhandled(v);
    if bad {
      return;
    }
    if k == "iban" || k == "bic" || k == "iin_bin" {
      if Truthy(v) {
        var m := if k == "iban" then SearchText(RemoveSpaces(v.s), IbanMatcher(false))
          else if k == "bic" then SearchText(v.s, BicAt)
          else SearchText(v.s, TwelveDigitsAt);
        StageWrite(reading, out, d, done, k, OptionValue(m));
        next := out[k := OptionValue(m)];
      } else {
        StageKeep(reading, out, d, done, k);
      }
    } else {
      var x := if k == "amount" then NormAmount(OptionalText(v))
        else if k == "currency" then CurrencyWithSign(TengeSymbol(reading), OptionalText(v))
        else NormDate(OptionalText(v));
      StageWrite(reading, out, d, done, k, OptionValue(x));
      next := out[k := OptionValue(x)];
    }
  }

  /**
   * `fix_fields`: updates a copy of the dict key by key, then keeps the truthy
   * values. `reading` chooses the currency step as written or as intended.
   */
  method FixFields(reading: Reading, raw: Option<Fields>) returns (r: Result<Fields>)
    ensures r == FixedFields(reading, raw)
  {
    var d := if raw.Some? then raw.value else map[];
    var out, bad := d, false;
    assert Stage(reading, out, d, {});
    out, bad := FixKey(reading, out, d, {}, "iban");
    if bad {
      FixedFieldsOfUnhandled(reading, raw, d, "iban");
      return Raises(NotAString("iban"));
    }
    out, bad := FixKey(reading, out, d, {"iban"}, "bic");
    if bad {
      FixedFieldsOfUnhandled(reading, raw, d, "bic");
      return Raises(NotAString("bic"));
    }
    out, bad := FixKey(reading, out, d, {"iban", "bic"}, "amount");
    if bad {
      FixedFieldsOfUnhandled(reading, raw, d, "amount");
      return Raises(NotAString("amount"));
    }
    out, bad := FixKey(reading, out, d, {"iban", "bic", "amount"}, "currency");
    if bad {
      FixedFieldsOfUnhandled(reading, raw, d, "currency");
      return Raises(NotAString("currency"));
    }
    out, bad := FixKey(reading, out, d, {"iban", "bic", "amount", "currency"}, "date");
    if bad {
      FixedFieldsOfUnhandled(reading, raw, d, "date");
      return Raises(NotAString("date"));
    }
    out, bad := FixKey(reading, out, d, {"iban", "bic", "amount", "currency", "date"}, "iin_bin");
    if bad {
      FixedFieldsOfUnhandled(reading, raw, d, "iin_bin");
      return Raises(NotAString("iin_bin"));
    }
    StageDone(reading, out, d);
    FixedFieldsOfHandled(reading, raw, d);
    r := Ok(TruthyPart(out));
  }

  // ------------------------------------------------------------ properties of fix_fields

  /** The shape of what `fix_fields` keeps under a normalised key. */
  predicate FixedShape(k: string, x: string) {
    if k == "iban" then KzIbanShape(x, false)
    else if k == "bic" then BicShape(x)
    else if k == "amount" then AmountShape(x)
    else if k == "currency" then x in {"KZT", "USD", "EUR", "RUB"}
    else if k == "date" then IsoShape(x) && NormDate(Some(x)) == Some(x)
    else |x| == 12 && AllDigits(x)
  }

  /** A normalised key that keeps a value holds a string of that key's shape. */
  lemma FixedValueShape(reading: Reading, d: Fields, k: string)
    requires FirstUnhandled(d).None? && k in NormalisedKeys && Truthy(FixedValue(reading, d, k))
    ensures FixedValue(reading, d, k).Str? && FixedShape(k, FixedValue(reading, d, k).s)
  {
    var v := Lookup(d, k);
    if k == "iban" {
      if Truthy(v) && v.Str? { IbanSearchShape(RemoveSpaces(v.s), false); }
    } else if k == "bic" {
      if Truthy(v) && v.Str? { BicSearchShape(v.s); }
    } else if k == "amount" {
      NormAmountIsLastNumber(OptionalText(v));
    } else if k == "currency" {
      NormCurrencyCases(TengeSymbol(reading), OptionalText(v));
    } else if k == "date" {
      NormDateShape(OptionalText(v));
      NormDateIdempotent(OptionalText(v));
    } else {
      if Truthy(v) && v.Str? { TwelveDigitsSearchShape(v.s); }
    }
  }

  /** A string of its key's shape is left as it is. */
  lemma FixedValueOfShape(reading: Reading, e: Fields, k: string)
    requires k in NormalisedKeys && Lookup(e, k).Str? && FixedShape(k, Lookup(e, k).s)
    ensures FixedValue(reading, e, k) == Lookup(e, k)
  {
    var x := Lookup(e, k).s;
    if k == "iban" {
      RemoveSpacesOfNoSpace(x);
      IbanSearchOfShape(x, false);
    } else if k == "bic" {
      BicSearchOfShape(x);
    } else if k == "amount" {
      NormAmountOfAmount(x);
    } else if k == "currency" {
      NormCurrencyOfCode(reading, x);
    } else if k == "date" {
    } else {
      TwelveDigitsSearchOfShape(x);
    }
  }

  /**
   * What `fix_fields` returns: under each normalised key a string of that key's
   * shape, or no entry; every other key kept exactly when its value is truthy,
   * with that value.
   */
  lemma FixedFieldsShapes(reading: Reading, raw: Option<Fields>)
    requires FixedFields(reading, raw).Ok?
    ensures var r := FixedFields(reading, raw).value;
      forall k :: k in r && k in NormalisedKeys ==> r[k].Str? && FixedShape(k, r[k].s)
    ensures var d, r := (if raw.Some? then raw.value else map[]), FixedFields(reading, raw).value;
      forall k :: k !in NormalisedKeys ==> (k in r <==> k in d && Truthy(d[k])) && (k in r ==> r[k] == d[k])
  {
    var d := if raw.Some? then raw.value else map[];
    forall k | k in FixedMap(reading, d) && k in NormalisedKeys
      ensures FixedMap(reading, d)[k].Str? && FixedShape(k, FixedMap(reading, d)[k].s)
    {
      FixedValueShape(reading, d, k);
    }
    forall k | k !in NormalisedKeys ensures FixedValue(reading, d, k) == Lookup(d, k) {
      assert k != "iban" && k != "bic" && k != "amount" && k != "currency" && k != "date" && k != "iin_bin";
    }
  }

  /** The values `fix_fields` returns: truthy, and of their key's shape under the normalised keys. */
  predicate FixedOutput(e: Fields) {
    (forall k :: k in e ==> Truthy(e[k]))
    && forall k :: k in e && k in NormalisedKeys ==> e[k].Str? && FixedShape(k, e[k].s)
  }

  lemma FixedValueOfFixed(reading: Reading, e: Fields, k: string)
    requires FixedOutput(e)
    ensures FixedValue(reading, e, k) == Lookup(e, k)
  {
    if k in NormalisedKeys {
      if k in e {
        FixedValueOfShape(reading, e, k);
      }
    } else {
      assert k != "iban" && k != "bic" && k != "amount" && k != "currency" && k != "date" && k != "iin_bin";
    }
  }

  /** Fixing fields that are already fixed raises nothing and changes nothing. */
  lemma FixedMapOfFixed(reading: Reading, e: Fields)
    requires FixedOutput(e)
    ensures FirstUnhandled(e).None? && FixedMap(reading, e) == e
  {
    forall k | k in NormalisedKeys ensures !Unhandled(Lookup(e, k)) {
      if k in e { assert e[k].Str?; }
    }
    var m := FixedMap(reading, e);
    forall k | k in e.Keys + NormalisedKeys ensures FixedValue(reading, e, k) == Lookup(e, k) {
      FixedValueOfFixed(reading, e, k);
    }
    assert m.Keys == e.Keys;
    assert forall k :: k in m ==> m[k] == e[k];
  }

  /** `fix_fields` is idempotent: fixing its own output changes nothing. */
  lemma FixFieldsIdempotent(reading: Reading, raw: Option<Fields>)
    requires FixedFields(reading, raw).Ok?
    ensures FixedFields(reading, Some(FixedFields(reading, raw).value)) == FixedFields(reading, raw)
  {
    var e := FixedFields(reading, raw).value;
    FixedFieldsShapes(reading, raw);
    FixedMapOfFixed(reading, e);
  }
}
