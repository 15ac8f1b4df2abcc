/**
 * The field validator: a fixed list of checks over the extracted fields and
 * the page text, each a rule name, a verdict and a detail string.
 *
 * `datetime.strptime` is the engine of module Dates; Python's `float()` of a
 * string is the recogniser `FloatText`; `str()` and `float()` of a value that is
 * not a string are parameters (`show`, `floatable`).
 */
module PostValidate {
  import opened Text
  import opened Recognizers
  import opened Dates
  import PostRules

  /** `_ok_date_iso`: `strptime(s, "%Y-%m-%d")` succeeds. */
  predicate OkDateIso(s: string) {
    Strptime(s, IsoFormat).Some?
  }

  /**
   * The ISO text of a date passes `_ok_date_iso` exactly when the date is a
   * real calendar date.
   */
  lemma OkDateIsoOfDateText(d: Date)
    requires d.year < 10000 && d.month < 100 && d.day < 100
    ensures OkDateIso(DateText(d)) <==> ValidDate(d)
  {
    DateTextDigits(d);
    StrptimeOfIsoText(DateText(d));
  }

  // ------------------------------------------------------------ float()

  /** An underscore at `i` with a digit on each side. */
  predicate SeparatorAt(x: string, i: int) {
    0 < i < |x| - 1 && x[i] == '_' && IsDigit(x[i - 1]) && IsDigit(x[i + 1])
  }

  /** Digits with single underscores between digits, as `float()` takes them. */
  predicate DigitGroups(x: string) {
    |x| >= 1 && IsDigit(x[0]) && IsDigit(x[|x| - 1])
    && forall i :: 0 <= i < |x| ==> IsDigit(x[i]) || SeparatorAt(x, i)
  }

  predicate OptionalGroups(x: string) {
    x == [] || DigitGroups(x)
  }

  /** Digits, or digits with one point, with a digit on at least one side. */
  predicate Mantissa(m: string) {
    DigitGroups(m)
    || exists i :: 0 <= i < |m| && m[i] == '.' && |m| >= 2 && OptionalGroups(m[..i]) && OptionalGroups(m[i + 1..])
  }

  /** `e` or `E`, an optional sign and digits. */
  predicate Exponent(x: string) {
    |x| >= 2 && (x[0] == 'e' || x[0] == 'E')
    && (DigitGroups(x[1..]) || (|x| >= 3 && (x[1] == '+' || x[1] == '-') && DigitGroups(x[2..])))
  }

  predicate DecimalText(b: string) {
    Mantissa(b) || exists j :: 0 < j < |b| && Mantissa(b[..j]) && Exponent(b[j..])
  }

  /** The text after an optional leading sign. */
  function Unsigned(t: string): (b: string)
    ensures |b| <= |t| && b == t[|t| - |b|..]
  {
    if |t| > 0 && (t[0] == '+' || t[0] == '-') then t[1..] else t
  }

  /** Whether `float(s)` accepts the string `s`. */
  predicate FloatText(s: string) {
    var b := Unsigned(Strip(s));
    LowerStr(b) in {"inf", "infinity", "nan"} || DecimalText(b)
  }

  lemma StripOfSolid(s: string)
    requires |s| >= 1 && !IsSpace(s[0]) && !IsSpace(s[|s| - 1])
    ensures Strip(s) == s
  {
  }

  lemma DigitGroupsOfDigits(x: string)
    requires |x| >= 1 && AllDigits(x)
    ensures DigitGroups(x)
  {
  }

  /** Every number `norm_amount` returns is accepted by `float()`. */
  lemma AmountIsFloat(a: string)
    requires PostRules.AmountShape(a)
    ensures FloatText(a)
  {
    assert IsDigit(a[|a| - 1]) || a[|a| - 1] == '.';
    StripOfSolid(a);
    assert Unsigned(a) == a;
    AmountIsMantissa(a);
  }

  /** The digits and the optional point of an amount form a mantissa. */
  lemma AmountIsMantissa(a: string)
    requires PostRules.AmountShape(a)
    ensures Mantissa(a)
  {
    if AllDigits(a) {
      DigitGroupsOfDigits(a);
    } else {
      var k :| 0 <= k < |a| && !IsDigit(a[k]);
      assert a[k] == '.' && AllDigits(a[..k]);
      forall i | k < i < |a| ensures IsDigit(a[i]) {
        assert !AllDigits(a[..i]) by { assert a[..i][k] == '.'; }
      }
      assert |a[..k]| >= 1 by { assert a[0] != '.'; }
      DigitGroupsOfDigits(a[..k]);
      if k + 1 < |a| {
        var tail := a[k + 1..];
        forall i | 0 <= i < |tail| ensures IsDigit(tail[i]) { assert tail[i] == a[k + 1 + i]; }
        DigitGroupsOfDigits(tail);
      }
      assert |a| >= 2 && OptionalGroups(a[..k]) && OptionalGroups(a[k + 1..]);
    }
  }

  /** `float()` takes underscores between digits and an exponent. */
  lemma FloatTextExample()
    ensures FloatText("1_5e3")
  {
    var b := "1_5e3";
    StripOfSolid(b);
    assert b[..3] == "1_5" && b[3..] == "e3" && b[3..][1..] == "3";
    assert DigitGroups("1_5");
    assert Mantissa(b[..3]) && Exponent(b[3..]);
  }

  /** `float()` does not take a decimal comma: digits with a comma between them are refused. */
  lemma CommaDecimalIsNotFloat(c: string, k: nat)
    requires 0 < k < |c| - 1 && c[k] == ','
    requires forall i :: 0 <= i < |c| && i != k ==> IsDigit(c[i])
    ensures !FloatText(c)
  {
    SolidDigitsAreBare(c);
    EndsInDigitIsNoWord(c);
    CommaIsNotDecimal(c, k);
  }

  /** Text that starts and ends with a digit has nothing to strip and no sign. */
  lemma SolidDigitsAreBare(c: string)
    requires |c| >= 1 && IsDigit(c[0]) && IsDigit(c[|c| - 1])
    ensures Unsigned(Strip(c)) == c
  {
    DigitIsNotSpace(c[0]);
    DigitIsNotSpace(c[|c| - 1]);
    StripOfSolid(c);
  }

  lemma DigitIsNotSpace(c: char)
    requires IsDigit(c)
    ensures !IsSpace(c)
  {
  }

  /** Lower-cased, text that ends with a digit is none of the words `float()` takes. */
  lemma EndsInDigitIsNoWord(c: string)
    requires |c| >= 1 && IsDigit(c[|c| - 1])
    ensures LowerStr(c) !in {"inf", "infinity", "nan"}
  {
    var l := LowerStr(c);
    assert l[|l| - 1] == c[|c| - 1];
  }

  lemma CommaIsNotDecimal(c: string, k: nat)
    requires k < |c| && c[k] == ','
    requires forall i :: 0 <= i < |c| ==> IsDigit(c[i]) || c[i] == ','
    ensures !DecimalText(c)
  {
    assert !DigitGroups(c) by { assert !SeparatorAt(c, k); }
    assert !Mantissa(c) by { assert forall i :: 0 <= i < |c| ==> c[i] != '.'; }
    forall j | 0 < j < |c| ensures !(Mantissa(c[..j]) && Exponent(c[j..])) {
      assert c[j..][0] == c[j];
    }
  }

  // ------------------------------------------------------------ checks

  /** A `Check`: a rule name, its verdict and a detail string. */
  datatype Check = Check(rule: string, ok: bool, details: string)

  const IbanFormat: string := "iban_format"
  const IbanPresentInText: string := "iban_present_in_text"
  const BicFormat: string := "bic_format"
  const DateIso: string := "date_iso_yyyy_mm_dd"
  const CurrencyIso: string := "currency_iso"
  const AmountNumeric: string := "amount_numeric"
  const SymbolConsistency: string := "currency_symbol_consistency"

  /** The codes `currency_iso` accepts (ISO 4217 codes). */
  const IsoCurrencies: set<string> := {"KZT", "USD", "EUR", "RUB"}

  /** `f"{v}"` for a field value; `show` is `str()` of a value that is not a string. */
  function Shown(v: Value, show: Value -> string): string {
    if v.Str? then v.s else show(v)
  }

  /** `(fields.get("currency") or "").upper()`, for a currency that is a string or falsy. */
  function CurrencyText(v: Value): string {
    if v.Str? then UpperStr(v.s) else []
  }

  /** Whether the amount check passes: a truthy amount that `float()` accepts. */
  predicate AmountOk(v: Value, floatable: Value -> bool) {
    Truthy(v) && if v.Str? then FloatText(v.s) else floatable(v)
  }

  /** Check 1: the IBAN format when an iban is given, else whether the text holds one. */
  function IbanCheck(ib: Value, t: string): Check
    requires !PostRules.Unhandled(ib)
  {
    if Truthy(ib) then Check(IbanFormat, IbanFullMatch(ib.s, true), "iban=" + ib.s)
    else
      var hint := SearchText(t, IbanMatcher(true));
      Check(IbanPresentInText, hint.Some?, "candidate=" + (if hint.Some? then hint.value else ""))
  }

  /** Check 2, only for a given bic: the whole bic has the BIC pattern. */
  function BicChecks(bic: Value): seq<Check>
    requires !PostRules.Unhandled(bic)
  {
    if Truthy(bic) then [Check(BicFormat, BicFullMatch(bic.s), "bic=" + bic.s)] else []
  }

  function DateCheck(dt: Value, show: Value -> string): Check {
    Check(DateIso, Truthy(dt) && dt.Str? && OkDateIso(dt.s), "date=" + Shown(dt, show))
  }

  function CurrencyCheck(cur: string): Check {
    Check(CurrencyIso, cur in IsoCurrencies, "currency=" + cur)
  }

  function AmountCheck(amt: Value, show: Value -> string, floatable: Value -> bool): Check {
    Check(AmountNumeric, AmountOk(amt, floatable), "amount=" + Shown(amt, show))
  }

  /** The last check: the tenge sign in the text with a currency other than KZT fails it. */
  function SymbolCheck(t: string, cur: string): Check {
    if Contains(t, PostRules.TengeSign) && cur != [] && cur != "KZT"
    then Check(SymbolConsistency, false, "Text contains '" + PostRules.TengeSign + "' but currency!=KZT")
    else Check(SymbolConsistency, true, "")
  }

  /**
   * `validate_fields(fields, text)`: the checks in their fixed order, or the
   * error of the first field whose value is a truthy non-string where a string
   * operation needs a string (iban, bic, then currency).
   */
  function Validation(fields: map<string, Value>, text: Option<string>, show: Value -> string, floatable: Value -> bool)
    : (r: Result<seq<Check>>)
    ensures r.Raises? <==> PostRules.Unhandled(Lookup(fields, "iban")) || PostRules.Unhandled(Lookup(fields, "bic"))
                           || PostRules.Unhandled(Lookup(fields, "currency"))
    ensures r.Ok? ==> |r.value| == if Truthy(Lookup(fields, "bic")) then 6 else 5
  {
    var t := if text.Some? then text.value else [];
    var ib, bic, cv := Lookup(fields, "iban"), Lookup(fields, "bic"), Lookup(fields, "currency");
    if PostRules.Unhandled(ib) then Raises("iban")
    else if PostRules.Unhandled(bic) then Raises("bic")
    else if PostRules.Unhandled(cv) then Raises("currency")
    else
      var cur := CurrencyText(cv);
      Ok([IbanCheck(ib, t)] + BicChecks(bic) + [
        DateCheck(Lookup(fields, "date"), show),
        CurrencyCheck(cur),
        AmountCheck(Lookup(fields, "amount"), show, floatable),
        SymbolCheck(t, cur)])
  }

  lemma AppendFour<T>(p: seq<T>, a: T, b: T, c: T, d: T)
    ensures p + [a] + [b] + [c] + [d] == p + [a, b, c, d]
  {
  }

  /** `validate_fields`: appends the checks to `out` one by one. */
  method ValidateFields(fields: map<string, Value>, text: Option<string>, show: Value -> string, floatable: Value -> bool)
    returns (r: Result<seq<Check>>)
    ensures r == Validation(fields, text, show, floatable)
  {
    var t := if text.Some? then text.value else [];
    var out: seq<Check> := [];
    var ib := Lookup(fields, "iban");
    if Truthy(ib) && ib.Other? { return Raises("iban"); }
    out := out + [IbanCheck(ib, t)];
    var bic := Lookup(fields, "bic");
    if Truthy(bic) {
      if bic.Other? { return Raises("bic"); }
      out := out + [Check(BicFormat, BicFullMatch(bic.s), "bic=" + bic.s)];
    }
    ghost var front := out;
    assert front == [IbanCheck(ib, t)] + BicChecks(bic);
    var dateCheck := DateCheck(Lookup(fields, "date"), show);
    out := out + [dateCheck];
    var cv := Lookup(fields, "currency");
    if PostRules.Unhandled(cv) { return Raises("currency"); }
    var cur := CurrencyText(cv);
    var currencyCheck := CurrencyCheck(cur);
    out := out + [currencyCheck];
    var amt := Lookup(fields, "amount");
    var okAmt := false;
    if Truthy(amt) {
      okAmt := if amt.Str? then FloatText(amt.s) else floatable(amt);
    }
    var amountCheck := Check(AmountNumeric, okAmt, "amount=" + Shown(amt, show));
    assert amountCheck == AmountCheck(amt, show, floatable);
    out := out + [amountCheck];
    var symbolCheck := SymbolCheck(t, cur);
    out := out + [symbolCheck];
    AppendFour(front, dateCheck, currencyCheck, amountCheck, symbolCheck);
    r := Ok(out);
  }

  /** The position of the date check: after the iban check and the bic check when there is one. */
  function DateAt(fields: map<string, Value>): nat {
    if Truthy(Lookup(fields, "bic")) then 2 else 1
  }

  /**
   * The rules come in a fixed order: exactly one of the two IBAN rules (the
   * format rule when an iban is given), the BIC rule only when a bic is given,
   * then date, currency, amount and symbol consistency.
   */
  lemma ValidationRules(fields: map<string, Value>, text: Option<string>, show: Value -> string, floatable: Value -> bool)
    requires Validation(fields, text, show, floatable).Ok?
    ensures var cs, k := Validation(fields, text, show, floatable).value, DateAt(fields);
      |cs| == k + 4
      && cs[0].rule == (if Truthy(Lookup(fields, "iban")) then IbanFormat else IbanPresentInText)
      && (k == 2 <==> Truthy(Lookup(fields, "bic"))) && (k == 2 ==> cs[1].rule == BicFormat)
      && cs[k].rule == DateIso && cs[k + 1].rule == CurrencyIso
      && cs[k + 2].rule == AmountNumeric && cs[k + 3].rule == SymbolConsistency
  {
  }

  /** Some position of `t` starts a match of the IBAN pattern, in any case. */
  ghost predicate IbanInText(t: string) {
    exists p: nat :: KzIbanAt(t, p, true).Some?
  }

  /**
   * The verdicts in terms of the shapes they test: the IBAN format is "KZ" and
   * twenty digits in any case, the IBAN hint is a search of the text, the BIC
   * is the ISO 9362 shape, the date is a real calendar date read by
   * "%Y-%m-%d", the currency is one of the four codes after upper-casing.
   */
  lemma ValidationVerdicts(fields: map<string, Value>, text: Option<string>, show: Value -> string, floatable: Value -> bool)
    requires Validation(fields, text, show, floatable).Ok?
    ensures var cs, k := Validation(fields, text, show, floatable).value, DateAt(fields);
      var ib, bic, dt, cv := Lookup(fields, "iban"), Lookup(fields, "bic"), Lookup(fields, "date"), Lookup(fields, "currency");
      (Truthy(ib) ==> (cs[0].ok <==> KzIbanShape(ib.s, true)))
      && (!Truthy(ib) ==> (cs[0].ok <==> IbanInText(if text.Some? then text.value else [])))
      && (k == 2 ==> (cs[1].ok <==> BicShape(bic.s)))
      && (cs[k].ok <==> dt.Str? && dt.s != [] && Strptime(dt.s, IsoFormat).Some?)
      && (cs[k + 1].ok <==> cv.Str? && UpperStr(cv.s) in IsoCurrencies)
  {
    var t := if text.Some? then text.value else [];
    var ib, bic := Lookup(fields, "iban"), Lookup(fields, "bic");
    if Truthy(ib) {
      IbanFullMatchIsShape(ib.s, true);
    } else {
      var m := IbanMatcher(true);
      if SearchText(t, m).Some? {
        var h := Search(t, m).value;
        assert KzIbanAt(t, h.0, true).Some?;
      }
      if IbanInText(t) {
        var p: nat :| KzIbanAt(t, p, true).Some?;
        assert m(t, p).Some?;
        assert SearchFrom(t, m, 0).Some?;
      }
    }
    if Truthy(bic) {
      BicFullMatchIsShape(bic.s);
    }
  }

  /**
   * `currency_symbol_consistency` fails exactly when the text holds the tenge
   * sign and the currency is given and is not KZT; the amount check passes
   * exactly for a truthy amount that `float()` accepts.
   */
  lemma ValidationLastChecks(fields: map<string, Value>, text: Option<string>, show: Value -> string, floatable: Value -> bool)
    requires Validation(fields, text, show, floatable).Ok?
    ensures var cs, k := Validation(fields, text, show, floatable).value, DateAt(fields);
      var t, cur := (if text.Some? then text.value else []), CurrencyText(Lookup(fields, "currency"));
      (!cs[k + 3].ok <==> PostRules.TengeSign[0] in t && cur != [] && cur != "KZT")
      && (cs[k + 2].ok <==> AmountOk(Lookup(fields, "amount"), floatable))
  {
    var t := if text.Some? then text.value else [];
    if PostRules.TengeSign[0] in t {
      var i :| 0 <= i < |t| && t[i] == PostRules.TengeSign[0];
      assert OccursAt(t, PostRules.TengeSign, i);
    }
    if Contains(t, PostRules.TengeSign) {
      var i :| 0 <= i <= |t| - 1 && OccursAt(t, PostRules.TengeSign, i);
      assert t[i..i + 1][0] == t[i];
    }
  }

  // ------------------------------------------------------------ after fix_fields

  lemma FixedIdentifiersPass(f: map<string, Value>, t: string)
    requires PostRules.FixedOutput(f)
    ensures !PostRules.Unhandled(Lookup(f, "iban")) && !PostRules.Unhandled(Lookup(f, "bic"))
    ensures "iban" in f ==> IbanCheck(Lookup(f, "iban"), t).rule == IbanFormat && IbanCheck(Lookup(f, "iban"), t).ok
    ensures |BicChecks(Lookup(f, "bic"))| == (if "bic" in f then 1 else 0)
    ensures "bic" in f ==> BicChecks(Lookup(f, "bic"))[0].ok
  {
    if "iban" in f {
      var x := f["iban"].s;
      assert PostRules.FixedShape("iban", x);
      IbanFullMatchIsShape(x, true);
    }
    if "bic" in f {
      var x := f["bic"].s;
      assert PostRules.FixedShape("bic", x);
      BicFullMatchIsShape(x);
    }
  }

  lemma FixedDatePasses(f: map<string, Value>, show: Value -> string)
    requires PostRules.FixedOutput(f) && "date" in f
    ensures f["date"].Str? && IsoShape(f["date"].s)
    ensures DateCheck(Lookup(f, "date"), show).ok <==> ValidDate(IsoDate(f["date"].s))
  {
    var x := f["date"].s;
    assert PostRules.FixedShape("date", x);
    StrptimeOfIsoText(x);
  }

  lemma FixedCurrencyAndAmountPass(f: map<string, Value>, show: Value -> string, floatable: Value -> bool)
    requires PostRules.FixedOutput(f)
    ensures !PostRules.Unhandled(Lookup(f, "currency"))
    ensures CurrencyCheck(CurrencyText(Lookup(f, "currency"))).ok <==> "currency" in f
    ensures AmountCheck(Lookup(f, "amount"), show, floatable).ok <==> "amount" in f
  {
    if "currency" in f {
      var x := f["currency"].s;
      assert PostRules.FixedShape("currency", x);
      PostRules.UpperOfCode(x);
    }
    if "amount" in f {
      var x := f["amount"].s;
      assert PostRules.FixedShape("amount", x);
      AmountIsFloat(x);
    }
  }

  /** Validation of fields of the shapes `fix_fields` produces. */
  lemma FixedOutputValidates(f: map<string, Value>, text: Option<string>, show: Value -> string, floatable: Value -> bool)
    requires PostRules.FixedOutput(f)
    ensures var v := Validation(f, text, show, floatable);
      v.Ok?
      && ("iban" in f ==> v.value[0].rule == IbanFormat && v.value[0].ok)
      && ("bic" in f <==> DateAt(f) == 2) && ("bic" in f ==> v.value[1].ok)
      && ("date" in f ==>
            f["date"].Str? && IsoShape(f["date"].s) && (v.value[DateAt(f)].ok <==> ValidDate(IsoDate(f["date"].s))))
      && (v.value[DateAt(f) + 1].ok <==> "currency" in f)
      && (v.value[DateAt(f) + 2].ok <==> "amount" in f)
  {
    var t := if text.Some? then text.value else [];
    FixedIdentifiersPass(f, t);
    FixedCurrencyAndAmountPass(f, show, floatable);
    if "date" in f { FixedDatePasses(f, show); }
    ValidationLayout(f, text, show, floatable);
  }

  /** Where each check sits in the list `validate_fields` returns. */
  lemma ValidationLayout(fields: map<string, Value>, text: Option<string>, show: Value -> string, floatable: Value -> bool)
    requires Validation(fields, text, show, floatable).Ok?
    ensures var cs, k, t := Validation(fields, text, show, floatable).value, DateAt(fields), (if text.Some? then text.value else []);
      var cur := CurrencyText(Lookup(fields, "currency"));
      |cs| == k + 4 && cs[0] == IbanCheck(Lookup(fields, "iban"), t)
      && (k == 2 ==> cs[1] == BicChecks(Lookup(fields, "bic"))[0])
      && cs[k] == DateCheck(Lookup(fields, "date"), show) && cs[k + 1] == CurrencyCheck(cur)
      && cs[k + 2] == AmountCheck(Lookup(fields, "amount"), show, floatable) && cs[k + 3] == SymbolCheck(t, cur)
  {
    var t := if text.Some? then text.value else [];
    var cur := CurrencyText(Lookup(fields, "currency"));
    var front := [IbanCheck(Lookup(fields, "iban"), t)] + BicChecks(Lookup(fields, "bic"));
    var cs := front + [DateCheck(Lookup(fields, "date"), show), CurrencyCheck(cur), AmountCheck(Lookup(fields, "amount"), show, floatable), SymbolCheck(t, cur)];
    assert Validation(fields, text, show, floatable).value == cs;
    assert |front| == DateAt(fields);
  }

  /**
   * Fields that `fix_fields` produced pass validation without error, and pass
   * the IBAN, BIC, currency and amount checks whenever those fields are
   * present; the date check passes exactly when the date printed is a real
   * calendar date (the loose date rule may render a thirteenth month).
   */
  lemma ValidateFixedFields(reading: Reading, raw: Option<map<string, Value>>, text: Option<string>, show: Value -> string, floatable: Value -> bool)
    requires PostRules.FixedFields(reading, raw).Ok?
    ensures var f := PostRules.FixedFields(reading, raw).value;
      var v := Validation(f, text, show, floatable);
      v.Ok?
      && ("iban" in f ==> v.value[0].rule == IbanFormat && v.value[0].ok)
      && ("bic" in f <==> DateAt(f) == 2) && ("bic" in f ==> v.value[1].ok)
      && ("date" in f ==>
            f["date"].Str? && IsoShape(f["date"].s) && (v.value[DateAt(f)].ok <==> ValidDate(IsoDate(f["date"].s))))
      && (v.value[DateAt(f) + 1].ok <==> "currency" in f)
      && (v.value[DateAt(f) + 2].ok <==> "amount" in f)
  {
    PostRules.FixedFieldsShapes(reading, raw);
    FixedOutputValidates(PostRules.FixedFields(reading, raw).value, text, show, floatable);
  }
}
