/**
 * The regular expressions of the modelled code, written out as explicit
 * recognisers over `string`.
 *
 * A matcher `XAt(s, p)` answers what `re.match` of the pattern would answer at
 * position `p` of `s` (the length or the captured text of the match, or None);
 * `Search` is `re.search`: the match at the leftmost position where there is one.
 * `\b` is Python's word boundary over the `\w` class of `Text.IsWordChar`.
 */
module Recognizers {
  import opened Text

  /** `\b` at position `i` of `s`. */
  predicate Boundary(s: string, i: int) {
    (0 < i <= |s| && IsWordChar(s[i - 1])) != (0 <= i < |s| && IsWordChar(s[i]))
  }

  predicate DigitsIn(s: string, a: int, b: int)
    requires 0 <= a <= b <= |s|
  {
    forall i :: a <= i < b ==> IsDigit(s[i])
  }

  predicate UpperIn(s: string, a: int, b: int)
    requires 0 <= a <= b <= |s|
  {
    forall i :: a <= i < b ==> IsAsciiUpper(s[i])
  }

  predicate UpperOrDigitIn(s: string, a: int, b: int)
    requires 0 <= a <= b <= |s|
  {
    forall i :: a <= i < b ==> IsAsciiUpper(s[i]) || IsDigit(s[i])
  }

  /** `re.search`: the leftmost position from `p` on where `at` matches, with what it matched. */
  function SearchFrom<T>(s: string, at: (string, nat) -> Option<T>, p: nat): (r: Option<(nat, T)>)
    ensures r.Some? ==> p <= r.value.0 <= |s| && at(s, r.value.0) == Some(r.value.1)
    ensures r.Some? ==> forall q :: p <= q < r.value.0 ==> at(s, q).None?
    ensures r.None? ==> forall q :: p <= q <= |s| ==> at(s, q).None?
    decreases |s| + 1 - p
  {
    if p > |s| then None
    else match at(s, p)
      case Some(v) => Some((p, v))
      case None => SearchFrom(s, at, p + 1)
  }

  function Search<T>(s: string, at: (string, nat) -> Option<T>): Option<(nat, T)> {
    SearchFrom(s, at, 0)
  }

  /** The text `re.search` returns (`m.group(0)` for a matcher giving the match length). */
  function SearchText(s: string, at: (string, nat) -> Option<nat>): (r: Option<string>)
  {
    match Search(s, at)
    case Some((p, n)) => if p + n <= |s| then Some(s[p..p + n]) else None
    case None => None
  }

  predicate IsK(c: char, ignoreCase: bool) { c == 'K' || (ignoreCase && c == 'k') }
  predicate IsZ(c: char, ignoreCase: bool) { c == 'Z' || (ignoreCase && c == 'z') }

  /** `\bKZ\d{20}\b` at `p` (with `re.I` when `ignoreCase`): the match length, 22. */
  function KzIbanAt(s: string, p: nat, ignoreCase: bool): (r: Option<nat>)
    ensures r.Some? ==> r.value == 22 && p + 22 <= |s|
  {
    if p + 22 <= |s| && Boundary(s, p) && IsK(s[p], ignoreCase) && IsZ(s[p + 1], ignoreCase)
       && DigitsIn(s, p + 2, p + 22) && Boundary(s, p + 22)
    then Some(22) else None
  }

  /** The IBAN pattern as a matcher for `Search`. */
  function IbanMatcher(ignoreCase: bool): (string, nat) -> Option<nat> {
    (t: string, p: nat) => KzIbanAt(t, p, ignoreCase)
  }

  /** `\b[A-Z]{6}[A-Z0-9]{2}([A-Z0-9]{3})?\b` at `p`: the match length, 11 tried before 8. */
  function BicAt(s: string, p: nat): (r: Option<nat>)
    ensures r.Some? ==> (r.value == 8 || r.value == 11) && p + r.value <= |s|
  {
    if !(p + 8 <= |s| && Boundary(s, p) && UpperIn(s, p, p + 6) && UpperOrDigitIn(s, p + 6, p + 8)) then None
    else if p + 11 <= |s| && UpperOrDigitIn(s, p + 8, p + 11) && Boundary(s, p + 11) then Some(11)
    else if Boundary(s, p + 8) then Some(8)
    else None
  }

  /** `\b\d{12}\b` at `p`. */
  function TwelveDigitsAt(s: string, p: nat): (r: Option<nat>)
    ensures r.Some? ==> r.value == 12 && p + 12 <= |s|
  {
    if p + 12 <= |s| && Boundary(s, p) && DigitsIn(s, p, p + 12) && Boundary(s, p + 12) then Some(12) else None
  }

  /** The shape of a Kazakh IBAN as the code checks it: "KZ" and twenty digits. */
  predicate KzIbanShape(s: string, ignoreCase: bool) {
    |s| == 22 && IsK(s[0], ignoreCase) && IsZ(s[1], ignoreCase) && DigitsIn(s, 2, 22)
  }

  /** The ISO 9362 shape the code checks: six letters, two letters or digits, optionally three more. */
  predicate BicShape(s: string) {
    (|s| == 8 || |s| == 11) && UpperIn(s, 0, 6) && UpperOrDigitIn(s, 6, |s|)
  }

  /** `re.fullmatch` of the IBAN pattern: the whole string is the match at 0. */
  predicate IbanFullMatch(s: string, ignoreCase: bool) {
    KzIbanAt(s, 0, ignoreCase) == Some(|s|)
  }

  predicate BicFullMatch(s: string) {
    BicAt(s, 0) == Some(|s|)
  }

  lemma IbanFullMatchIsShape(s: string, ignoreCase: bool)
    ensures IbanFullMatch(s, ignoreCase) <==> KzIbanShape(s, ignoreCase)
  {
    if KzIbanShape(s, ignoreCase) {
      assert IsWordChar(s[0]);
      assert IsWordChar(s[21]);
    }
  }

  lemma BicFullMatchIsShape(s: string)
    ensures BicFullMatch(s) <==> BicShape(s)
  {
    if BicShape(s) {
      assert IsWordChar(s[0]);
      assert IsWordChar(s[|s| - 1]);
      if |s| == 11 {
        assert UpperOrDigitIn(s, 6, 8) && UpperOrDigitIn(s, 8, 11);
      }
    }
    if BicFullMatch(s) {
      if |s| == 8 { assert UpperOrDigitIn(s, 6, 8); }
    }
  }

  /** A search hit is found where the matcher matches, so the text it returns has the matcher's shape. */
  lemma SearchTextIsMatch(s: string, at: (string, nat) -> Option<nat>)
    requires SearchText(s, at).Some?
    ensures exists p: nat :: p <= |s| && at(s, p).Some? && p + at(s, p).value <= |s|
                             && SearchText(s, at).value == s[p..p + at(s, p).value]
  {
    var r := Search(s, at);
    var p := r.value.0;
    assert at(s, p) == Some(r.value.1);
  }

  /** What the IBAN search finds is an IBAN-shaped substring. */
  lemma IbanSearchShape(s: string, ignoreCase: bool)
    requires SearchText(s, IbanMatcher(ignoreCase)).Some?
    ensures KzIbanShape(SearchText(s, IbanMatcher(ignoreCase)).value, ignoreCase)
  {
    var r := Search(s, IbanMatcher(ignoreCase));
    var p := r.value.0;
    assert KzIbanAt(s, p, ignoreCase) == Some(22);
    var m := s[p..p + 22];
    assert forall i :: 2 <= i < 22 ==> m[i] == s[p + i];
  }

  lemma BicSearchShape(s: string)
    requires SearchText(s, BicAt).Some?
    ensures BicShape(SearchText(s, BicAt).value)
  {
    var r := Search(s, BicAt);
    var p := r.value.0;
    var n := r.value.1;
    assert BicAt(s, p) == Some(n);
    var m := s[p..p + n];
    assert forall i :: 0 <= i < n ==> m[i] == s[p + i];
  }

  lemma TwelveDigitsSearchShape(s: string)
    requires SearchText(s, TwelveDigitsAt).Some?
    ensures |SearchText(s, TwelveDigitsAt).value| == 12 && AllDigits(SearchText(s, TwelveDigitsAt).value)
  {
    var r := Search(s, TwelveDigitsAt);
    var p := r.value.0;
    assert TwelveDigitsAt(s, p) == Some(12);
    var m := s[p..p + 12];
    assert forall i :: 0 <= i < 12 ==> m[i] == s[p + i];
  }

  /** A string of the IBAN shape is found by searching it: the search returns the string itself. */
  lemma IbanSearchOfShape(s: string, ignoreCase: bool)
    requires KzIbanShape(s, ignoreCase)
    ensures SearchText(s, IbanMatcher(ignoreCase)) == Some(s)
  {
    IbanFullMatchIsShape(s, ignoreCase);
    assert s[0..22] == s;
  }

  lemma BicSearchOfShape(s: string)
    requires BicShape(s)
    ensures SearchText(s, BicAt) == Some(s)
  {
    BicFullMatchIsShape(s);
    assert s[0..|s|] == s;
  }

  lemma TwelveDigitsSearchOfShape(s: string)
    requires |s| == 12 && AllDigits(s)
    ensures SearchText(s, TwelveDigitsAt) == Some(s)
  {
    assert IsWordChar(s[0]) && IsWordChar(s[11]);
    assert TwelveDigitsAt(s, 0) == Some(12);
    assert s[0..12] == s;
  }
}
