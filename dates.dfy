/**
 * Calendar dates and the numeric date patterns the modelled code matches.
 *
 * Every date pattern of the code is three numeric fields with a separator
 * between them: `datetime.strptime` with "%Y-%m-%d" and its four siblings,
 * the loose fallback `(20\d{2})[-./](\d{1,2})[-./](\d{1,2})` and the numeric
 * date of the rule-based extractor. Each field is an alternation whose
 * branches `re` tries in order, backtracking into the next branch when the
 * rest of the pattern fails; `MatchFields` is that backtracking search, and
 * `Alts` lists, per field, the branches that match at a position (with the
 * number `int()` reads from the matched text).
 */
module Dates {
  import opened Text
  import opened Recognizers

  datatype Date = Date(year: nat, month: nat, day: nat)

  predicate IsLeap(y: nat) {
    y % 4 == 0 && (y % 100 != 0 || y % 400 == 0)
  }

  function DaysInMonth(y: nat, m: nat): (n: nat)
    requires 1 <= m <= 12
    ensures 28 <= n <= 31
    ensures n == 31 <==> m in {1, 3, 5, 7, 8, 10, 12}
  {
    if m == 2 then (if IsLeap(y) then 29 else 28)
    else if m in {4, 6, 9, 11} then 30
    else 31
  }

  /** The dates `datetime.date` accepts: years 1..9999 and a day that exists in its month. */
  predicate ValidDate(d: Date) {
    1 <= d.year <= 9999 && 1 <= d.month <= 12 && 1 <= d.day <= DaysInMonth(d.year, d.month)
  }

  // ------------------------------------------------------------ fields

  /** The numeric fields of the date patterns. */
  datatype Field =
    | Year4           // strptime %Y: \d\d\d\d
    | StrpMonth       // strptime %m: 1[0-2]|0[1-9]|[1-9]
    | StrpDay         // strptime %d: 3[01]|[12]\d|0[1-9]|[1-9]| [1-9]
    | Year20          // 20\d{2}
    | OneOrTwoDigits  // \d{1,2}, greedy: two digits are tried before one
    | LooseMonth      // 0?[1-9]|1[0-2]
    | LooseDay        // 0?[1-9]|[12]\d|3[01]

  /** The numbers a field's text can stand for. */
  predicate InRange(k: Field, v: nat) {
    match k
    case Year4 => v < 10000
    case StrpMonth => 1 <= v <= 12
    case StrpDay => 1 <= v <= 31
    case Year20 => 2000 <= v <= 2099
    case OneOrTwoDigits => v < 100
    case LooseMonth => 1 <= v <= 12
    case LooseDay => 1 <= v <= 31
  }

  /** A branch that matched: how many characters it took and the number `int()` reads from them. */
  datatype Tok = Tok(len: nat, val: nat)

  predicate DigitAt(s: string, i: int) { 0 <= i < |s| && IsDigit(s[i]) }
  predicate CharIn(s: string, i: int, lo: char, hi: char) { 0 <= i < |s| && lo <= s[i] <= hi }

  function Digit(s: string, i: int): nat
    requires DigitAt(s, i)
  {
    DigitValue(s[i])
  }

  function Two(s: string, p: int): nat
    requires DigitAt(s, p) && DigitAt(s, p + 1)
  {
    10 * Digit(s, p) + Digit(s, p + 1)
  }

  /** The most characters a branch of field `k` takes. */
  function Width(k: Field): nat {
    if k == Year4 || k == Year20 then 4 else 2
  }

  predicate TokOk(k: Field, s: string, p: nat, t: Tok) {
    1 <= t.len <= Width(k) && p + t.len <= |s| && InRange(k, t.val)
  }

  predicate ToksOk(k: Field, s: string, p: nat, ts: seq<Tok>) {
    forall t :: t in ts ==> TokOk(k, s, p, t)
  }

  /** The branches of field `k` that match at `p`, in the order `re` tries them. */
  function Alts(k: Field, s: string, p: nat): (ts: seq<Tok>)
    ensures ToksOk(k, s, p, ts)
  {
    match k
    case Year4 => Year4Alts(s, p)
    case StrpMonth => StrpMonthAlts(s, p)
    case StrpDay => StrpDayAlts(s, p)
    case Year20 => Year20Alts(s, p)
    case OneOrTwoDigits => OneOrTwoAlts(s, p)
    case LooseMonth => LooseMonthAlts(s, p)
    case LooseDay => LooseDayAlts(s, p)
  }

  function Year4Alts(s: string, p: nat): (ts: seq<Tok>)
    ensures ToksOk(Year4, s, p, ts)
  {
    if DigitAt(s, p) && DigitAt(s, p + 1) && DigitAt(s, p + 2) && DigitAt(s, p + 3)
    then [Tok(4, 100 * Two(s, p) + Two(s, p + 2))] else []
  }

  function StrpMonthAlts(s: string, p: nat): (ts: seq<Tok>)
    ensures ToksOk(StrpMonth, s, p, ts)
  {
    (if CharIn(s, p, '1', '1') && CharIn(s, p + 1, '0', '2') then [Tok(2, Two(s, p))] else [])
    + (if CharIn(s, p, '0', '0') && CharIn(s, p + 1, '1', '9') then [Tok(2, Two(s, p))] else [])
    + (if CharIn(s, p, '1', '9') then [Tok(1, Digit(s, p))] else [])
  }

  function StrpDayAlts(s: string, p: nat): (ts: seq<Tok>)
    ensures ToksOk(StrpDay, s, p, ts)
  {
    (if CharIn(s, p, '3', '3') && CharIn(s, p + 1, '0', '1') then [Tok(2, Two(s, p))] else [])
    + (if CharIn(s, p, '1', '2') && DigitAt(s, p + 1) then [Tok(2, Two(s, p))] else [])
    + (if CharIn(s, p, '0', '0') && CharIn(s, p + 1, '1', '9') then [Tok(2, Two(s, p))] else [])
    + (if CharIn(s, p, '1', '9') then [Tok(1, Digit(s, p))] else [])
    + (if CharIn(s, p, ' ', ' ') && CharIn(s, p + 1, '1', '9') then [Tok(2, Digit(s, p + 1))] else [])
  }

  function Year20Alts(s: string, p: nat): (ts: seq<Tok>)
    ensures ToksOk(Year20, s, p, ts)
  {
    if CharIn(s, p, '2', '2') && CharIn(s, p + 1, '0', '0') && DigitAt(s, p + 2) && DigitAt(s, p + 3)
    then [Tok(4, 2000 + Two(s, p + 2))] else []
  }

  function OneOrTwoAlts(s: string, p: nat): (ts: seq<Tok>)
    ensures ToksOk(OneOrTwoDigits, s, p, ts)
  {
    (if DigitAt(s, p) && DigitAt(s, p + 1) then [Tok(2, Two(s, p))] else [])
    + (if DigitAt(s, p) then [Tok(1, Digit(s, p))] else [])
  }

  function LooseMonthAlts(s: string, p: nat): (ts: seq<Tok>)
    ensures ToksOk(LooseMonth, s, p, ts)
  {
    (if CharIn(s, p, '0', '0') && CharIn(s, p + 1, '1', '9') then [Tok(2, Two(s, p))] else [])
    + (if CharIn(s, p, '1', '9') then [Tok(1, Digit(s, p))] else [])
    + (if CharIn(s, p, '1', '1') && CharIn(s, p + 1, '0', '2') then [Tok(2, Two(s, p))] else [])
  }

  function LooseDayAlts(s: string, p: nat): (ts: seq<Tok>)
    ensures ToksOk(LooseDay, s, p, ts)
  {
    (if CharIn(s, p, '0', '0') && CharIn(s, p + 1, '1', '9') then [Tok(2, Two(s, p))] else [])
    + (if CharIn(s, p, '1', '9') then [Tok(1, Digit(s, p))] else [])
    + (if CharIn(s, p, '1', '2') && DigitAt(s, p + 1) then [Tok(2, Two(s, p))] else [])
    + (if CharIn(s, p, '3', '3') && CharIn(s, p + 1, '0', '1') then [Tok(2, Two(s, p))] else [])
  }

  // ------------------------------------------------------------ matching

  /** What must hold where the match ends: nothing, or `\b`. */
  datatype Tail = Free | WordEnd

  predicate TailOk(tail: Tail, s: string, e: int) {
    tail == Free || Boundary(s, e)
  }

  /** A match: where it ends and the numbers of its fields. */
  datatype Parsed = Parsed(end: nat, vals: seq<nat>)

  predicate ParsedOk(ks: seq<Field>, s: string, p: nat, m: Parsed) {
    p < m.end <= |s| && |m.vals| == |ks| && forall i :: 0 <= i < |ks| ==> InRange(ks[i], m.vals[i])
  }

  /**
   * `re.match` at `p` of the fields `ks` with one character of `seps` between
   * consecutive fields, followed by `tail`: the first match in `re`'s
   * backtracking order.
   */
  function MatchFields(ks: seq<Field>, seps: set<char>, tail: Tail, s: string, p: nat): (r: Option<Parsed>)
    requires ks != []
    ensures r.Some? ==> ParsedOk(ks, s, p, r.value)
    decreases |ks|, 1, 0
  {
    TryAlts(Alts(ks[0], s, p), ks, seps, tail, s, p)
  }

  /** The branches `ts` of the first field, tried in order until the rest of the pattern matches. */
  function TryAlts(ts: seq<Tok>, ks: seq<Field>, seps: set<char>, tail: Tail, s: string, p: nat): (r: Option<Parsed>)
    requires ks != [] && ToksOk(ks[0], s, p, ts)
    ensures r.Some? ==> ParsedOk(ks, s, p, r.value)
    decreases |ks|, 0, |ts|
  {
    if ts == [] then None
    else
      assert ts[0] in ts && forall t :: t in ts[1..] ==> t in ts;
      var here := AfterTok(ts[0], ks, seps, tail, s, p);
      if here.Some? then here else TryAlts(ts[1..], ks, seps, tail, s, p)
  }

  /** The rest of the pattern after the first field took `t`. */
  function AfterTok(t: Tok, ks: seq<Field>, seps: set<char>, tail: Tail, s: string, p: nat): (r: Option<Parsed>)
    requires ks != [] && TokOk(ks[0], s, p, t)
    ensures r.Some? ==> ParsedOk(ks, s, p, r.value)
    decreases |ks|, 0, 0
  {
    var e := p + t.len;
    if |ks| == 1 then
      if TailOk(tail, s, e) then Some(Parsed(e, [t.val])) else None
    else if e < |s| && s[e] in seps then
      match MatchFields(ks[1..], seps, tail, s, e + 1)
      case Some(m) =>
        assert forall i :: 1 <= i < |ks| ==> ks[i] == ks[1..][i - 1];
        Some(Parsed(m.end, [t.val] + m.vals))
      case None => None
    else None
  }

  // ------------------------------------------------------------ strptime

  /** A `strptime` format of three numeric fields: year first or day first, with one separator. */
  datatype Format = Format(yearFirst: bool, sep: char)

  /** "%Y-%m-%d", "%d.%m.%Y", "%d/%m/%Y", "%Y.%m.%d", "%d-%m-%Y", in the order they are tried. */
  const NormDateFormats: seq<Format> :=
    [Format(true, '-'), Format(false, '.'), Format(false, '/'), Format(true, '.'), Format(false, '-')]

  /** "%Y-%m-%d". */
  const IsoFormat: Format := Format(true, '-')

  function FormatFields(f: Format): (ks: seq<Field>)
    ensures |ks| == 3
  {
    if f.yearFirst then [Year4, StrpMonth, StrpDay] else [StrpDay, StrpMonth, Year4]
  }

  /**
   * `datetime.strptime(s, f)`: the date, or None where it raises ValueError
   * (no match, "unconverted data remains", or a day the month does not have).
   */
  function Strptime(s: string, f: Format): (r: Option<Date>)
    ensures r.Some? ==> ValidDate(r.value)
  {
    match MatchFields(FormatFields(f), {f.sep}, Free, s, 0)
    case None => None
    case Some(m) =>
      var d := if f.yearFirst then Date(m.vals[0], m.vals[1], m.vals[2]) else Date(m.vals[2], m.vals[1], m.vals[0]);
      if m.end == |s| && ValidDate(d) then Some(d) else None
  }

  /** The date of the first format in `fs` that `s` parses with. */
  function FirstFormat(s: string, fs: seq<Format>): (r: Option<Date>)
    ensures r.Some? ==> ValidDate(r.value)
    ensures r.None? <==> forall i :: 0 <= i < |fs| ==> Strptime(s, fs[i]).None?
  {
    if fs == [] then None
    else if Strptime(s, fs[0]).Some? then Strptime(s, fs[0])
    else
      var r := FirstFormat(s, fs[1..]);
      assert forall i :: 1 <= i < |fs| ==> fs[i] == fs[1..][i - 1];
      r
  }

  /** The pattern of the loose fallback of `norm_date`: `(20\d{2})[-./](\d{1,2})[-./](\d{1,2})`. */
  const LooseFields: seq<Field> := [Year20, OneOrTwoDigits, OneOrTwoDigits]
  const LooseSeps: set<char> := {'-', '.', '/'}

  function LooseDateAt(s: string, p: nat): (r: Option<Parsed>)
    ensures r.Some? ==> ParsedOk(LooseFields, s, p, r.value)
  {
    MatchFields(LooseFields, LooseSeps, Free, s, p)
  }

  // ------------------------------------------------------------ backtracking facts

  lemma {:induction false} TryAltsNone(ts: seq<Tok>, ks: seq<Field>, seps: set<char>, tail: Tail, s: string, p: nat)
    requires ks != [] && ToksOk(ks[0], s, p, ts)
    requires forall t :: t in ts ==> AfterTok(t, ks, seps, tail, s, p).None?
    ensures TryAlts(ts, ks, seps, tail, s, p).None?
    decreases |ts|
  {
    if ts != [] {
      assert ts[0] in ts && forall t :: t in ts[1..] ==> t in ts;
      TryAltsNone(ts[1..], ks, seps, tail, s, p);
    }
  }

  /** A field followed by a character that is not a separator cannot be completed. */
  lemma BlockedField(ts: seq<Tok>, ks: seq<Field>, seps: set<char>, tail: Tail, s: string, p: nat)
    requires |ks| > 1 && ToksOk(ks[0], s, p, ts)
    requires forall t :: t in ts ==> p + t.len < |s| && s[p + t.len] !in seps
    ensures TryAlts(ts, ks, seps, tail, s, p).None?
  {
    TryAltsNone(ts, ks, seps, tail, s, p);
  }

  /** The last field, with nothing required after it, takes its first matching branch. */
  lemma LastFieldFree(k: Field, seps: set<char>, s: string, p: nat)
    requires Alts(k, s, p) != []
    ensures MatchFields([k], seps, Free, s, p) == Some(Parsed(p + Alts(k, s, p)[0].len, [Alts(k, s, p)[0].val]))
  {
    var ts := Alts(k, s, p);
    assert ts[0] in ts;
    assert AfterTok(ts[0], [k], seps, Free, s, p) == Some(Parsed(p + ts[0].len, [ts[0].val]));
  }

  // ------------------------------------------------------------ ISO text

  /** `f"{y:04d}-{m:02d}-{d:02d}"`, which is also `strftime("%Y-%m-%d")` on a date. */
  function DateText(d: Date): string {
    ZeroPad(d.year, 4) + "-" + ZeroPad(d.month, 2) + "-" + ZeroPad(d.day, 2)
  }

  /** The shape `DDDD-DD-DD`. */
  predicate IsoShape(r: string) {
    |r| == 10 && r[4] == '-' && r[7] == '-'
    && forall i :: 0 <= i < 10 && i != 4 && i != 7 ==> IsDigit(r[i])
  }

  lemma PadTwo(n: nat)
    requires n < 100
    ensures ZeroPad(n, 2) == [DigitChar(n / 10), DigitChar(n % 10)]
  {
    if n >= 10 {
      assert NatToString(n) == NatToString(n / 10) + [DigitChar(n % 10)];
    }
  }

  lemma PadFour(n: nat)
    requires n < 10000
    ensures ZeroPad(n, 4) == [DigitChar(n / 1000), DigitChar(n / 100 % 10), DigitChar(n / 10 % 10), DigitChar(n % 10)]
  {
    ZeroPadLastDigit(n, 3);
    ZeroPadLastDigit(n / 10, 2);
    ZeroPadLastDigit(n / 100, 1);
    assert n / 10 / 10 == n / 100 && n / 100 / 10 == n / 1000;
    assert ZeroPad(n / 1000, 1) == [DigitChar(n / 1000)];
  }

  /** A date whose numbers fit their widths prints as `DDDD-DD-DD`. */
  lemma DateTextShape(d: Date)
    requires d.year < 10000 && d.month < 100 && d.day < 100
    ensures IsoShape(DateText(d))
  {
    PadFour(d.year);
    PadTwo(d.month);
    PadTwo(d.day);
  }

  lemma DigitOfDigitChar(k: nat)
    requires k < 10
    ensures DigitValue(DigitChar(k)) == k
  {
  }

  lemma FourDigitsSum(y: nat)
    requires y < 10000
    ensures 100 * (10 * (y / 1000) + y / 100 % 10) + (10 * (y / 10 % 10) + y % 10) == y
  {
    var hi, lo := y / 100, y % 100;
    assert y == 100 * hi + lo;
    assert hi == 10 * (y / 1000) + y / 100 % 10;
    assert lo == 10 * (y / 10 % 10) + y % 10;
  }

  /** The date an ISO-shaped text spells. */
  function IsoDate(s: string): Date
    requires IsoShape(s)
  {
    Date(100 * Two(s, 0) + Two(s, 2), Two(s, 5), Two(s, 8))
  }

  /** `DateText` is ISO-shaped and spells its date. */
  lemma DateTextDigits(d: Date)
    requires d.year < 10000 && d.month < 100 && d.day < 100
    ensures IsoShape(DateText(d)) && IsoDate(DateText(d)) == d
  {
    var y, m, dd := d.year, d.month, d.day;
    PadFour(y);
    PadTwo(m);
    PadTwo(dd);
    var r := DateText(d);
    assert r == [DigitChar(y / 1000), DigitChar(y / 100 % 10), DigitChar(y / 10 % 10), DigitChar(y % 10), '-',
                 DigitChar(m / 10), DigitChar(m % 10), '-', DigitChar(dd / 10), DigitChar(dd % 10)];
    DigitOfDigitChar(y / 1000);
    DigitOfDigitChar(y / 100 % 10);
    DigitOfDigitChar(y / 10 % 10);
    DigitOfDigitChar(y % 10);
    DigitOfDigitChar(m / 10);
    DigitOfDigitChar(m % 10);
    DigitOfDigitChar(dd / 10);
    DigitOfDigitChar(dd % 10);
    FourDigitsSum(y);
  }

  /** `%m` on two digits: the two-digit branch comes first when it is a month, and otherwise only one digit can match. */
  lemma StrpMonthOnTwoDigits(s: string, p: nat)
    requires DigitAt(s, p) && DigitAt(s, p + 1)
    ensures 1 <= Two(s, p) <= 12 ==> Alts(StrpMonth, s, p) != [] && Alts(StrpMonth, s, p)[0] == Tok(2, Two(s, p))
    ensures !(1 <= Two(s, p) <= 12) ==> forall t :: t in Alts(StrpMonth, s, p) ==> t.len == 1
  {
  }

  /** `%d` on two digits, likewise with 1..31. */
  lemma StrpDayOnTwoDigits(s: string, p: nat)
    requires DigitAt(s, p) && DigitAt(s, p + 1)
    ensures 1 <= Two(s, p) <= 31 ==> Alts(StrpDay, s, p) != [] && Alts(StrpDay, s, p)[0] == Tok(2, Two(s, p))
    ensures !(1 <= Two(s, p) <= 31) ==> forall t :: t in Alts(StrpDay, s, p) ==> t.len == 1
  {
  }

  /** A match that ends at `end` with `vals` when `ok`, and otherwise fails or ends elsewhere. */
  predicate ReadsAs(r: Option<Parsed>, end: nat, vals: seq<nat>, ok: bool) {
    (ok ==> r == Some(Parsed(end, vals))) && (!ok ==> r.None? || r.value.end != end)
  }

  lemma IsoDayField(s: string)
    requires IsoShape(s)
    ensures ReadsAs(MatchFields([StrpDay], {'-'}, Free, s, 8), 10, [Two(s, 8)], 1 <= Two(s, 8) <= 31)
  {
    StrpDayOnTwoDigits(s, 8);
    var dayTs := Alts(StrpDay, s, 8);
    if dayTs != [] {
      assert dayTs[0] in dayTs;
      LastFieldFree(StrpDay, {'-'}, s, 8);
    }
  }

  lemma IsoMonthDayFields(s: string)
    requires IsoShape(s)
    ensures ReadsAs(MatchFields([StrpMonth, StrpDay], {'-'}, Free, s, 5), 10, [Two(s, 5), Two(s, 8)],
                    1 <= Two(s, 5) <= 12 && 1 <= Two(s, 8) <= 31)
  {
    var ks := [StrpMonth, StrpDay];
    var seps := {'-'};
    StrpMonthOnTwoDigits(s, 5);
    IsoDayField(s);
    var monthTs := Alts(StrpMonth, s, 5);
    var last := MatchFields([StrpDay], seps, Free, s, 8);
    assert ks[1..] == [StrpDay];
    if 1 <= Two(s, 5) <= 12 && last.Some? {
      assert monthTs[0] in monthTs;
      assert MatchFields(ks[1..], seps, Free, s, 5 + monthTs[0].len + 1) == last;
      assert AfterTok(monthTs[0], ks, seps, Free, s, 5) == Some(Parsed(last.value.end, [Two(s, 5)] + last.value.vals));
      if 1 <= Two(s, 8) <= 31 {
        assert [Two(s, 5)] + last.value.vals == [Two(s, 5), Two(s, 8)];
      }
    } else if 1 <= Two(s, 5) <= 12 {
      forall t | t in monthTs ensures AfterTok(t, ks, seps, Free, s, 5).None? {
        if t.len == 1 { assert s[6] != '-'; }
      }
      TryAltsNone(monthTs, ks, seps, Free, s, 5);
    } else {
      BlockedField(monthTs, ks, seps, Free, s, 5);
    }
  }

  /**
   * "%Y-%m-%d" on an ISO-shaped text: it parses to the date the text spells
   * when that date is valid, and raises otherwise.
   */
  lemma StrptimeOfIsoText(s: string)
    requires IsoShape(s)
    ensures Strptime(s, IsoFormat) == if ValidDate(IsoDate(s)) then Some(IsoDate(s)) else None
  {
    var ks := FormatFields(IsoFormat);
    var seps := {'-'};
    assert Alts(Year4, s, 0) == [Tok(4, IsoDate(s).year)];
    IsoMonthDayFields(s);
    assert ks[1..] == [StrpMonth, StrpDay];
    var rest := MatchFields(ks[1..], seps, Free, s, 0 + 4 + 1);
    assert 4 < |s| && s[4] in seps;
    if rest.Some? {
      assert AfterTok(Tok(4, IsoDate(s).year), ks, seps, Free, s, 0) == Some(Parsed(rest.value.end, [IsoDate(s).year] + rest.value.vals));
      assert MatchFields(ks, seps, Free, s, 0) == Some(Parsed(rest.value.end, [IsoDate(s).year] + rest.value.vals));
    } else {
      assert AfterTok(Tok(4, IsoDate(s).year), ks, seps, Free, s, 0).None?;
      TryAltsNone(Alts(Year4, s, 0), ks, seps, Free, s, 0);
    }
  }

  /** The other four formats of `norm_date` never accept an ISO-shaped text. */
  lemma OtherFormatsRejectIsoText(s: string, i: int)
    requires IsoShape(s)
    requires 1 <= i < |NormDateFormats|
    ensures Strptime(s, NormDateFormats[i]).None?
  {
    var f := NormDateFormats[i];
    var ks := FormatFields(f);
    if f.yearFirst {
      assert f.sep == '.';
      BlockedField(Alts(Year4, s, 0), ks, {f.sep}, Free, s, 0);
    } else {
      BlockedField(Alts(StrpDay, s, 0), ks, {f.sep}, Free, s, 0);
    }
  }

  /** Among the formats `norm_date` tries, only "%Y-%m-%d" can read an ISO-shaped text. */
  lemma FirstFormatOfIsoText(s: string)
    requires IsoShape(s)
    ensures FirstFormat(s, NormDateFormats) == Strptime(s, IsoFormat)
  {
    var fs := NormDateFormats;
    forall i | 1 <= i < |fs| ensures Strptime(s, fs[i]).None? {
      OtherFormatsRejectIsoText(s, i);
    }
    assert forall i :: 0 <= i < |fs[1..]| ==> Strptime(s, fs[1..][i]).None?;
  }

  /** The loose fallback reads an ISO-shaped text of a year 20xx back as its three numbers. */
  lemma LooseOfIsoText(s: string)
    requires IsoShape(s) && s[0] == '2' && s[1] == '0'
    ensures LooseDateAt(s, 0) == Some(Parsed(10, [IsoDate(s).year, IsoDate(s).month, IsoDate(s).day]))
  {
    var d := IsoDate(s);
    assert Alts(Year20, s, 0) == [Tok(4, d.year)];
    var ms := Alts(OneOrTwoDigits, s, 5);
    assert ms == [Tok(2, d.month), Tok(1, Digit(s, 5))];
    assert Alts(OneOrTwoDigits, s, 8)[0] == Tok(2, d.day);
    LastFieldFree(OneOrTwoDigits, LooseSeps, s, 8);
    assert LooseFields[1..][1..] == [OneOrTwoDigits];
    assert s[7] in LooseSeps && s[4] in LooseSeps;
    assert MatchFields(LooseFields[1..][1..], LooseSeps, Free, s, 5 + 2 + 1) == Some(Parsed(10, [d.day]));
    assert [d.month] + [d.day] == [d.month, d.day];
    assert AfterTok(ms[0], LooseFields[1..], LooseSeps, Free, s, 5) == Some(Parsed(10, [d.month, d.day]));
    assert MatchFields(LooseFields[1..], LooseSeps, Free, s, 0 + 4 + 1) == Some(Parsed(10, [d.month, d.day]));
    assert [d.year] + [d.month, d.day] == [d.year, d.month, d.day];
    assert AfterTok(Tok(4, d.year), LooseFields, LooseSeps, Free, s, 0) == Some(Parsed(10, [d.year, d.month, d.day]));
  }
}
