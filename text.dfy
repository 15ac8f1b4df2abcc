/**
 * Character classes and string helpers shared by the whole model.
 *
 * Python's `str` methods and the `re` character classes used by the modelled
 * code are stated here once, as explicit predicates and functions:
 * `isspace`/`\s`, `isdigit`/`\d`, `isalpha`, `\w`, `upper`/`lower`, `strip`,
 * `" ".join(s.split())`, `str(n)` and `f"{n:0Wd}"`.
 */
module Text {

  datatype Option<T> = None | Some(value: T)

  /** The outcome of a Python operation that may raise: its value, or the exception it raises. */
  datatype Result<T> = Ok(value: T) | Raises(error: string)

  /**
   * Which version of a line with an evident defect a model follows: the code
   * as written, or the code as its authors evidently intended it.
   */
  datatype Reading = AsWritten | AsIntended

  /** A value of a Python dict: a string, or another object, falsy or not (None is falsy). */
  datatype Value = Str(s: string) | Other(truthy: bool)

  /** Python truthiness: a string is truthy when non-empty. */
  predicate Truthy(v: Value) {
    match v
    case Str(s) => s != []
    case Other(t) => t
  }

  /** `None`, as a dict value. */
  const NoneValue: Value := Other(false)

  /** An optional string as a dict value: the string, or `None`. */
  function OptionValue(o: Option<string>): (v: Value)
    ensures Truthy(v) <==> o.Some? && o.value != []
  {
    match o
    case Some(s) => Str(s)
    case None => NoneValue
  }

  /** `d.get(k)`: the value under `k`, or `None`. */
  function Lookup(d: map<string, Value>, k: string): Value {
    if k in d then d[k] else NoneValue
  }

  /** Python's `str.isspace()`, which is also what `\s` and `str.split()` use. */
  const Whitespace: set<char> := {' ', '\t', '\n', '\U{B}', '\U{C}', '\r', '\U{1C}', '\U{1D}', '\U{1E}', '\U{1F}', '\U{85}', '\U{A0}', '\U{1680}', '\U{2000}', '\U{2001}', '\U{2002}', '\U{2003}', '\U{2004}', '\U{2005}', '\U{2006}', '\U{2007}', '\U{2008}', '\U{2009}', '\U{200A}', '\U{2028}', '\U{2029}', '\U{202F}', '\U{205F}', '\U{3000}'}

  predicate IsSpace(c: char) { c in Whitespace }

  /** `\d` and `str.isdigit()`, restricted to the ASCII digits. */
  predicate IsDigit(c: char) { '0' <= c <= '9' }

  predicate IsAsciiUpper(c: char) { 'A' <= c <= 'Z' }
  predicate IsAsciiLower(c: char) { 'a' <= c <= 'z' }
  predicate IsLatin(c: char) { IsAsciiUpper(c) || IsAsciiLower(c) }

  /** The letters of the Latin-1 supplement (U+00C0..U+00FF without × and ÷). */
  predicate IsLatin1Letter(c: char) {
    ('\U{C0}' <= c <= '\U{FF}' && c != '\U{D7}' && c != '\U{F7}') || c == '\U{178}'
  }

  /**
   * The letters of the Cyrillic block U+0400..U+04FF: all of it except the
   * sign and the combining marks U+0482..U+0489. This takes in the Kazakh
   * letters Ә Ғ Қ Ң Ө Ұ Ү Һ І.
   */
  predicate IsCyrillic(c: char) { '\U{400}' <= c <= '\U{481}' || '\U{48A}' <= c <= '\U{4FF}' }

  /** The Cyrillic letters after U+045F that pair as capital at an even code point, small at the next. */
  predicate EvenCapitalPair(c: char) {
    '\U{460}' <= c <= '\U{481}' || '\U{48A}' <= c <= '\U{4BF}' || '\U{4D0}' <= c <= '\U{4FF}'
  }

  /** U+04C1..U+04CE pair the other way round: capital at an odd code point. */
  predicate OddCapitalPair(c: char) { '\U{4C1}' <= c <= '\U{4CE}' }

  /** `str.isalpha()` on the scripts the documents use. */
  predicate IsAlpha(c: char) { IsLatin(c) || IsLatin1Letter(c) || IsCyrillic(c) }

  /** A character of the `\w` class of `re` on str patterns. */
  predicate IsWordChar(c: char) { IsAlpha(c) || IsDigit(c) || c == '_' }

  /** `str.upper()` on one character. */
  function Upper(c: char): (u: char)
    ensures IsAlpha(c) <==> IsAlpha(u)
    ensures !IsAlpha(c) ==> u == c
  {
    if IsAsciiLower(c) then (c as int - 32) as char
    else if '\U{E0}' <= c <= '\U{FE}' && c != '\U{F7}' then (c as int - 32) as char
    else if c == '\U{FF}' then '\U{178}'
    else if '\U{430}' <= c <= '\U{44F}' then (c as int - 32) as char
    else if '\U{450}' <= c <= '\U{45F}' then (c as int - 80) as char
    else if EvenCapitalPair(c) && c as int % 2 == 1 then (c as int - 1) as char
    else if OddCapitalPair(c) && c as int % 2 == 0 then (c as int - 1) as char
    else if c == '\U{4CF}' then '\U{4C0}'
    else c
  }

  /** `str.lower()` on one character. */
  function Lower(c: char): (l: char)
    ensures IsAlpha(c) <==> IsAlpha(l)
    ensures !IsAlpha(c) ==> l == c
  {
    if IsAsciiUpper(c) then (c as int + 32) as char
    else if '\U{C0}' <= c <= '\U{DE}' && c != '\U{D7}' then (c as int + 32) as char
    else if '\U{410}' <= c <= '\U{42F}' then (c as int + 32) as char
    else if '\U{400}' <= c <= '\U{40F}' then (c as int + 80) as char
    else if c == '\U{178}' then '\U{FF}'
    else if EvenCapitalPair(c) && c as int % 2 == 0 then (c as int + 1) as char
    else if OddCapitalPair(c) && c as int % 2 == 1 then (c as int + 1) as char
    else if c == '\U{4C0}' then '\U{4CF}'
    else c
  }

  /** `c == c.upper()`; 'ß' is excluded because `'ß'.upper()` is "SS". */
  predicate IsOwnUpper(c: char) { Upper(c) == c && c != 'ß' }

  function UpperStr(s: string): (r: string)
    ensures |r| == |s| && forall i :: 0 <= i < |s| ==> r[i] == Upper(s[i])
  {
    seq(|s|, i requires 0 <= i < |s| => Upper(s[i]))
  }

  function LowerStr(s: string): (r: string)
    ensures |r| == |s| && forall i :: 0 <= i < |s| ==> r[i] == Lower(s[i])
  {
    seq(|s|, i requires 0 <= i < |s| => Lower(s[i]))
  }

  lemma UpperIsNeverSmallA()
    ensures forall c :: Upper(c) != 'â'
  {
    forall c ensures Upper(c) != 'â' {
      if '\U{E0}' <= c <= '\U{FE}' && c != '\U{F7}' {
        assert Upper(c) as int < 0xE0;
      }
    }
  }

  /** Python's `sub in s`. */
  predicate OccursAt(s: string, sub: string, i: int) {
    0 <= i && i + |sub| <= |s| && s[i..i + |sub|] == sub
  }

  predicate Contains(s: string, sub: string) {
    exists i :: 0 <= i <= |s| - |sub| && OccursAt(s, sub, i)
  }

  predicate ContainsChar(s: string, c: char) { c in s }

  predicate AllSpace(s: string) { forall i :: 0 <= i < |s| ==> IsSpace(s[i]) }
  predicate NoSpace(s: string) { forall i :: 0 <= i < |s| ==> !IsSpace(s[i]) }
  predicate AllDigits(s: string) { forall i :: 0 <= i < |s| ==> IsDigit(s[i]) }

  /** `s.lstrip()`. */
  function LStrip(s: string): (r: string)
    ensures |r| <= |s| && r == s[|s| - |r|..]
    ensures r == [] || !IsSpace(r[0])
    ensures AllSpace(s[..|s| - |r|])
  {
    if s == [] || !IsSpace(s[0]) then s
    else
      var r := LStrip(s[1..]);
      assert s[..|s| - |r|] == [s[0]] + s[1..][..|s| - 1 - |r|];
      r
  }

  /** `s.rstrip()`. */
  function RStrip(s: string): (r: string)
    ensures |r| <= |s| && r == s[..|r|]
    ensures r == [] || !IsSpace(r[|r| - 1])
    ensures AllSpace(s[|r|..])
  {
    if s == [] || !IsSpace(s[|s| - 1]) then s
    else
      var r := RStrip(s[..|s| - 1]);
      assert s[|r|..] == s[..|s| - 1][|r|..] + [s[|s| - 1]];
      r
  }

  /** Where `s.strip()` starts: the length of the leading whitespace run. */
  function StripStart(s: string): nat {
    |s| - |LStrip(s)|
  }

  /** `s.strip()`: the middle of `s` between two runs of whitespace. */
  function Strip(s: string): (r: string)
    ensures r == [] || (!IsSpace(r[0]) && !IsSpace(r[|r| - 1]))
    ensures StripStart(s) + |r| <= |s| && r == s[StripStart(s)..StripStart(s) + |r|]
    ensures AllSpace(s[..StripStart(s)]) && AllSpace(s[StripStart(s) + |r|..])
  {
    var l := LStrip(s);
    var r := RStrip(l);
    var a := |s| - |l|;
    assert a == StripStart(s);
    assert l == s[a..];
    assert r == l[..|r|] == s[a..a + |r|];
    assert s[a + |r|..] == l[|r|..];
    r
  }

  /** A string that neither starts nor ends with whitespace is its own strip. */
  lemma StripOfTrimmed(s: string)
    requires s != [] && !IsSpace(s[0]) && !IsSpace(s[|s| - 1])
    ensures LStrip(s) == s && Strip(s) == s
  {
    assert RStrip(s) == s;
  }

  lemma StripOfAllSpace(s: string)
    requires AllSpace(s)
    ensures Strip(s) == []
  {
  }

  /** `sep.join(parts)`. */
  function Join(sep: string, parts: seq<string>): string
  {
    if |parts| == 0 then "" else if |parts| == 1 then parts[0] else parts[0] + sep + Join(sep, parts[1..])
  }

  lemma OccursShift(a: string, b: string, x: string, j: int)
    requires OccursAt(b, x, j)
    ensures OccursAt(a + b, x, |a| + j)
  {
    assert (a + b)[|a| + j..|a| + j + |x|] == b[j..j + |x|];
  }

  lemma ContainsTrans(a: string, b: string, c: string)
    requires Contains(a, b) && Contains(b, c)
    ensures Contains(a, c)
  {
    var i :| 0 <= i <= |a| - |b| && OccursAt(a, b, i);
    var j :| 0 <= j <= |b| - |c| && OccursAt(b, c, j);
    assert b == a[i..i + |b|];
    forall k | 0 <= k < |c| ensures a[i + j + k] == c[k] {
      assert c[k] == b[j + k] == a[i + j + k];
    }
    assert a[i + j..i + j + |c|] == c;
    assert OccursAt(a, c, i + j);
  }

  /** Every part of `sep.join(parts)` occurs in it. */
  lemma {:induction false} JoinContainsParts(sep: string, parts: seq<string>, i: int)
    requires 0 <= i < |parts|
    ensures Contains(Join(sep, parts), parts[i])
    decreases i
  {
    var j := Join(sep, parts);
    if i == 0 {
      if |parts| > 1 {
        assert j == parts[0] + (sep + Join(sep, parts[1..]));
      }
      assert j[0..|parts[0]|] == parts[0];
      assert OccursAt(j, parts[0], 0);
    } else {
      JoinContainsParts(sep, parts[1..], i - 1);
      var rest := Join(sep, parts[1..]);
      var k :| 0 <= k <= |rest| - |parts[i]| && OccursAt(rest, parts[i], k);
      assert j == (parts[0] + sep) + rest;
      OccursShift(parts[0] + sep, rest, parts[i], k);
    }
  }

  /** Joining two non-empty lists is joining each and putting one separator between. */
  lemma {:induction false} JoinAppend(sep: string, a: seq<string>, b: seq<string>)
    requires |a| > 0 && |b| > 0
    ensures Join(sep, a + b) == Join(sep, a) + sep + Join(sep, b)
    decreases |a|
  {
    if |a| > 1 {
      assert (a + b)[1..] == a[1..] + b;
      JoinAppend(sep, a[1..], b);
    } else {
      assert (a + b)[1..] == b;
    }
  }

  /** A join whose first part starts with a non-space character does not strip to nothing. */
  lemma StripJoinNonEmpty(sep: string, parts: seq<string>)
    requires |parts| > 0 && parts[0] != "" && !IsSpace(parts[0][0])
    ensures Strip(Join(sep, parts)) != ""
  {
    var j := Join(sep, parts);
    if |parts| > 1 {
      assert j == parts[0] + (sep + Join(sep, parts[1..]));
    }
    assert j[0] == parts[0][0];
    assert LStrip(j) == j;
    assert Strip(j) == RStrip(j);
  }

  /** Length of the run of non-space characters that starts `t`. */
  function WordLen(t: string): (n: nat)
    ensures n <= |t| && NoSpace(t[..n]) && (n == |t| || IsSpace(t[n]))
    ensures t != [] && !IsSpace(t[0]) ==> n >= 1
  {
    if t == [] || IsSpace(t[0]) then 0 else 1 + WordLen(t[1..])
  }

  /** `s.split()`: the maximal runs of non-whitespace characters. */
  function Words(s: string): seq<string>
    decreases |s|
  {
    var t := LStrip(s);
    if t == [] then [] else
      var n := WordLen(t);
      [t[..n]] + Words(t[n..])
  }

  predicate AreWords(ws: seq<string>) {
    forall i :: 0 <= i < |ws| ==> ws[i] != [] && NoSpace(ws[i])
  }

  /** Every piece `str.split()` returns is non-empty and free of whitespace. */
  lemma {:induction false} WordsAreWords(s: string)
    ensures AreWords(Words(s))
    decreases |s|
  {
    var t := LStrip(s);
    if t != [] {
      var n := WordLen(t);
      var w, rest := t[..n], Words(t[n..]);
      WordsAreWords(t[n..]);
      assert Words(s) == [w] + rest;
      forall i | 0 <= i < |[w] + rest| ensures ([w] + rest)[i] != [] && NoSpace(([w] + rest)[i]) {
        if i > 0 { assert ([w] + rest)[i] == rest[i - 1]; }
      }
    }
  }

  /** `" ".join(s.split())`, equivalently `re.sub(r"\s+", " ", s).strip()`. */
  function CollapseWhitespace(s: string): string {
    Join(" ", Words(s))
  }

  /** The non-whitespace characters of `s`, in order. */
  function NonSpace(s: string): string {
    if s == [] then [] else (if IsSpace(s[0]) then [] else [s[0]]) + NonSpace(s[1..])
  }

  lemma {:induction false} NonSpaceAppend(a: string, b: string)
    ensures NonSpace(a + b) == NonSpace(a) + NonSpace(b)
  {
    if a == [] {
      assert a + b == b;
    } else {
      var h := if IsSpace(a[0]) then [] else [a[0]];
      assert (a + b)[0] == a[0];
      assert (a + b)[1..] == a[1..] + b;
      assert NonSpace(a) == h + NonSpace(a[1..]);
      assert NonSpace(a + b) == h + NonSpace(a[1..] + b);
      NonSpaceAppend(a[1..], b);
    }
  }

  lemma {:induction false} NonSpaceOfAllSpace(a: string)
    requires AllSpace(a)
    ensures NonSpace(a) == []
  {
    if a != [] { NonSpaceOfAllSpace(a[1..]); }
  }

  lemma {:induction false} NonSpaceOfNoSpace(a: string)
    requires NoSpace(a)
    ensures NonSpace(a) == a
  {
    if a != [] { NonSpaceOfNoSpace(a[1..]); }
  }

  function Concat(parts: seq<string>): string {
    if parts == [] then [] else parts[0] + Concat(parts[1..])
  }

  lemma {:induction false} NonSpaceOfJoin(parts: seq<string>)
    requires forall i :: 0 <= i < |parts| ==> NoSpace(parts[i])
    ensures NonSpace(Join(" ", parts)) == Concat(parts)
  {
    if |parts| == 1 {
      NonSpaceOfNoSpace(parts[0]);
      assert Concat(parts[1..]) == [];
    } else if |parts| > 1 {
      NonSpaceOfJoin(parts[1..]);
      NonSpaceAppend(parts[0] + " ", Join(" ", parts[1..]));
      NonSpaceAppend(parts[0], " ");
      NonSpaceOfNoSpace(parts[0]);
      assert NonSpace(" ") == [];
    }
  }

  lemma NonSpaceAfterLStrip(s: string)
    ensures NonSpace(s) == NonSpace(LStrip(s))
  {
    var t := LStrip(s);
    var k := |s| - |t|;
    assert s == s[..k] + t;
    NonSpaceAppend(s[..k], t);
    NonSpaceOfAllSpace(s[..k]);
  }

  lemma NonSpaceOfWordThenRest(t: string, n: nat)
    requires n <= |t| && NoSpace(t[..n])
    ensures NonSpace(t) == t[..n] + NonSpace(t[n..])
  {
    assert t == t[..n] + t[n..];
    NonSpaceAppend(t[..n], t[n..]);
    NonSpaceOfNoSpace(t[..n]);
  }

  lemma {:induction false} WordsKeepNonSpace(s: string)
    ensures Concat(Words(s)) == NonSpace(s)
    decreases |s|
  {
    NonSpaceAfterLStrip(s);
    var t := LStrip(s);
    if t != [] {
      var n := WordLen(t);
      NonSpaceOfWordThenRest(t, n);
      WordsKeepNonSpace(t[n..]);
      assert Words(s) == [t[..n]] + Words(t[n..]);
      assert Concat([t[..n]] + Words(t[n..])) == t[..n] + Concat(Words(t[n..]));
    }
  }

  /** Collapsing whitespace keeps every other character, in order. */
  lemma CollapseKeepsNonSpace(s: string)
    ensures NonSpace(CollapseWhitespace(s)) == NonSpace(s)
  {
    WordsAreWords(s);
    NonSpaceOfJoin(Words(s));
    WordsKeepNonSpace(s);
  }

  /** Whitespace in a collapsed string is single ' ' characters between words. */
  predicate Collapsed(s: string) {
    && (s == [] || (!IsSpace(s[0]) && !IsSpace(s[|s| - 1])))
    && (forall i :: 0 <= i < |s| && IsSpace(s[i]) ==> s[i] == ' ')
    && (forall i :: 0 <= i < |s| - 1 ==> !(IsSpace(s[i]) && IsSpace(s[i + 1])))
  }

  lemma {:induction false} JoinOfWordsCollapsed(ws: seq<string>)
    requires AreWords(ws)
    ensures Collapsed(Join(" ", ws))
  {
    if |ws| > 1 {
      JoinOfWordsCollapsed(ws[1..]);
      var rest := Join(" ", ws[1..]);
      var r := ws[0] + " " + rest;
      assert r == Join(" ", ws);
      forall i | 0 <= i < |r| && IsSpace(r[i]) ensures r[i] == ' ' {
        if i > |ws[0]| { assert r[i] == rest[i - |ws[0]| - 1]; }
      }
      forall i | 0 <= i < |r| - 1 ensures !(IsSpace(r[i]) && IsSpace(r[i + 1])) {
        if i > |ws[0]| { assert r[i] == rest[i - |ws[0]| - 1]; assert r[i + 1] == rest[i - |ws[0]|]; }
        else if i == |ws[0]| { assert r[i + 1] == rest[0]; }
      }
    }
  }

  /** The result of `" ".join(s.split())` has no leading, trailing, repeated or non-' ' whitespace. */
  lemma CollapseIsCollapsed(s: string)
    ensures Collapsed(CollapseWhitespace(s))
  {
    WordsAreWords(s);
    JoinOfWordsCollapsed(Words(s));
  }

  lemma WordsOfNoSpace(w: string)
    requires w != [] && NoSpace(w)
    ensures Words(w) == [w]
  {
    assert LStrip(w) == w by { assert !IsSpace(w[0]); }
    assert WordLen(w) == |w| by { WordLenOfNoSpace(w); }
    assert Words(w[|w|..]) == [] by {
      assert w[|w|..] == [];
      assert LStrip([]) == [];
    }
    assert Words(w) == [w[..|w|]] + Words(w[|w|..]);
    assert w[..|w|] == w;
  }

  /** A text without whitespace is one word to its end. */
  lemma {:induction false} WordLenOfNoSpace(w: string)
    requires NoSpace(w)
    ensures WordLen(w) == |w|
    decreases |w|
  {
    if w != [] {
      assert !IsSpace(w[0]);
      assert NoSpace(w[1..]) by {
        forall i | 0 <= i < |w| - 1 ensures !IsSpace(w[1..][i]) {
          assert w[1..][i] == w[i + 1];
        }
      }
      WordLenOfNoSpace(w[1..]);
    }
  }

  lemma WordsAfterSpace(x: string)
    ensures Words(" " + x) == Words(x)
  {
    assert (" " + x)[1..] == x;
    assert LStrip(" " + x) == LStrip(x);
  }

  lemma WordsOfWordThenRest(w: string, rest: string)
    requires w != [] && NoSpace(w) && rest != [] && IsSpace(rest[0])
    ensures Words(w + rest) == [w] + Words(rest)
  {
    var t := w + rest;
    assert LStrip(t) == t;
    var n := WordLen(t);
    assert n >= |w| by {
      assert NoSpace(t[..|w|]) by { assert t[..|w|] == w; }
    }
    assert n <= |w| by {
      assert IsSpace(t[|w|]);
    }
    assert t[..n] == w && t[n..] == rest;
  }

  lemma WordsOfJoinStep(ws: seq<string>)
    requires |ws| > 1 && ws[0] != [] && NoSpace(ws[0])
    requires Words(Join(" ", ws[1..])) == ws[1..]
    ensures Words(Join(" ", ws)) == ws
  {
    var tail := Join(" ", ws[1..]);
    var whole := ws[0] + (" " + tail);
    JoinCons(ws);
    assert Join(" ", ws) == whole;
    WordsOfWordThenSpaced(ws[0], tail);
    assert Words(whole) == [ws[0]] + ws[1..];
    assert [ws[0]] + ws[1..] == ws;
  }

  lemma JoinCons(ws: seq<string>)
    requires |ws| > 1
    ensures Join(" ", ws) == ws[0] + (" " + Join(" ", ws[1..]))
  {
  }

  /** A word, a space, then any text: the word, then the words of the text. */
  lemma WordsOfWordThenSpaced(w: string, x: string)
    requires w != [] && NoSpace(w)
    ensures Words(w + (" " + x)) == [w] + Words(x)
  {
    var rest := " " + x;
    assert IsSpace(rest[0]);
    WordsOfWordThenRest(w, rest);
    WordsAfterSpace(x);
  }

  lemma {:induction false} WordsOfJoin(ws: seq<string>)
    requires AreWords(ws)
    ensures Words(Join(" ", ws)) == ws
  {
    if |ws| == 1 {
      WordsOfNoSpace(ws[0]);
    } else if |ws| > 1 {
      var tl := ws[1..];
      assert forall i :: 0 <= i < |tl| ==> tl[i] == ws[i + 1];
      WordsOfJoin(tl);
      WordsOfJoinStep(ws);
    }
  }

  /** Collapsing whitespace twice changes nothing more. */
  lemma CollapseIdempotent(s: string)
    ensures CollapseWhitespace(CollapseWhitespace(s)) == CollapseWhitespace(s)
  {
    WordsAreWords(s);
    WordsOfJoin(Words(s));
  }

  /** The characters the number cleaning removes or rewrites: ' ', NBSP and ','. */
  predicate IsNumberSeparator(c: char) { c == ' ' || c == '\U{A0}' || c == ',' }

  predicate NoNumberSeparator(s: string) {
    forall i :: 0 <= i < |s| ==> !IsNumberSeparator(s[i])
  }

  /**
   * `s.replace(" ", "").replace("\u00A0", "").replace(",", ".")`: none of the
   * three replacements creates an occurrence of a later one, so this is one
   * left-to-right pass over the characters.
   */
  function CleanNumber(s: string): (r: string)
    ensures |r| <= |s| && NoNumberSeparator(r)
  {
    if s == [] then []
    else
      var head := if s[0] == ' ' || s[0] == '\U{A0}' then [] else if s[0] == ',' then ['.'] else [s[0]];
      head + CleanNumber(s[1..])
  }

  /** The cleaning works character by character: it distributes over concatenation. */
  lemma {:induction false} CleanNumberAppend(a: string, b: string)
    ensures CleanNumber(a + b) == CleanNumber(a) + CleanNumber(b)
  {
    if a == [] {
      assert a + b == b;
    } else {
      assert (a + b)[0] == a[0] && (a + b)[1..] == a[1..] + b;
      CleanNumberAppend(a[1..], b);
    }
  }

  /** A text without separators is left as it is; in particular the cleaning is idempotent. */
  lemma {:induction false} CleanNumberOfClean(s: string)
    requires NoNumberSeparator(s)
    ensures CleanNumber(s) == s
  {
    if s != [] {
      CleanNumberOfClean(s[1..]);
    }
  }

  /** `s.replace(c, "")` for one character `c`. */
  function RemoveChar(s: string, c: char): (r: string)
    ensures c !in r
  {
    if s == [] then [] else (if s[0] == c then [] else [s[0]]) + RemoveChar(s[1..], c)
  }

  /** `s.replace(a, b)` for single characters. */
  function ReplaceChar(s: string, a: char, b: char): (r: string)
    ensures |r| == |s| && forall i :: 0 <= i < |s| ==> r[i] == if s[i] == a then b else s[i]
  {
    seq(|s|, i requires 0 <= i < |s| => if s[i] == a then b else s[i])
  }

  lemma RemoveCharCons(x: char, t: string, c: char)
    ensures RemoveChar([x] + t, c) == (if x == c then [] else [x]) + RemoveChar(t, c)
  {
    assert ([x] + t)[1..] == t;
  }

  lemma ReplaceCharCons(x: char, t: string, a: char, b: char)
    ensures ReplaceChar([x] + t, a, b) == [if x == a then b else x] + ReplaceChar(t, a, b)
  {
  }

  /** The one-pass cleaning is the chain of the three `replace` calls, applied in order. */
  lemma {:induction false} CleanNumberIsReplaceChain(s: string)
    ensures CleanNumber(s) == ReplaceChar(RemoveChar(RemoveChar(s, ' '), '\U{A0}'), ',', '.')
  {
    if s != [] {
      var x, t := s[0], s[1..];
      assert s == [x] + t;
      CleanNumberIsReplaceChain(t);
      var head := if x == ' ' || x == '\U{A0}' then [] else if x == ',' then ['.'] else [x];
      assert CleanNumber(s) == head + CleanNumber(t);
      var a' := RemoveChar(t, ' ');
      var b' := RemoveChar(a', '\U{A0}');
      RemoveCharCons(x, t, ' ');
      if x == ' ' {
        assert RemoveChar(s, ' ') == a';
      } else {
        assert RemoveChar(s, ' ') == [x] + a';
        RemoveCharCons(x, a', '\U{A0}');
        if x == '\U{A0}' {
          assert RemoveChar([x] + a', '\U{A0}') == b';
        } else {
          assert RemoveChar([x] + a', '\U{A0}') == [x] + b';
          ReplaceCharCons(x, b', ',', '.');
        }
      }
    }
  }

  function DigitChar(d: nat): (c: char)
    requires d < 10
    ensures IsDigit(c)
  {
    ('0' as int + d) as char
  }

  function DigitValue(c: char): nat
    requires IsDigit(c)
  {
    c as int - '0' as int
  }

  /** `str(n)` for a natural number. */
  function NatToString(n: nat): (r: string)
    ensures |r| >= 1 && AllDigits(r)
    ensures |r| > 1 ==> r[0] != '0'
  {
    if n < 10 then [DigitChar(n)] else NatToString(n / 10) + [DigitChar(n % 10)]
  }

  /** `int(s)` for a string of ASCII digits. */
  function ParseNat(s: string): nat
    requires AllDigits(s)
  {
    if s == [] then 0 else ParseNat(s[..|s| - 1]) * 10 + DigitValue(s[|s| - 1])
  }

  /** Printing a number in decimal and reading it back gives the number. */
  lemma {:induction false} ParseNatToString(n: nat)
    ensures ParseNat(NatToString(n)) == n
  {
    if n >= 10 {
      var r := NatToString(n);
      assert r[..|r| - 1] == NatToString(n / 10);
      ParseNatToString(n / 10);
    }
  }

  function Zeros(k: nat): (r: string)
    ensures |r| == k && forall i :: 0 <= i < k ==> r[i] == '0'
  {
    if k == 0 then [] else Zeros(k - 1) + ['0']
  }

  /** `f"{n:0{w}d}"`: `str(n)` left-padded with zeros to at least `w` characters. */
  function ZeroPad(n: nat, w: nat): (r: string)
    ensures AllDigits(r)
  {
    var d := NatToString(n);
    if |d| >= w then d else Zeros(w - |d|) + d
  }

  lemma {:induction false} ParseNatLeadingZeros(k: nat, d: string)
    requires AllDigits(d)
    ensures AllDigits(Zeros(k) + d) && ParseNat(Zeros(k) + d) == ParseNat(d)
    decreases |d|, k
  {
    var s := Zeros(k) + d;
    if d == [] {
      assert s == Zeros(k);
      if k > 0 {
        assert s[..|s| - 1] == Zeros(k - 1) + [];
        ParseNatLeadingZeros(k - 1, []);
      }
    } else {
      assert s[..|s| - 1] == Zeros(k) + d[..|d| - 1];
      ParseNatLeadingZeros(k, d[..|d| - 1]);
    }
  }

  /** Padding to `w + 1` places is padding `n / 10` to `w` places, then the last digit. */
  lemma ZeroPadLastDigit(n: nat, w: nat)
    requires w >= 1
    ensures ZeroPad(n, w + 1) == ZeroPad(n / 10, w) + [DigitChar(n % 10)]
  {
    var e := [DigitChar(n % 10)];
    if n < 10 {
      assert NatToString(n) == e;
      assert ZeroPad(n, w + 1) == Zeros(w) + e;
      assert NatToString(0) == ['0'];
      assert ZeroPad(0, w) == Zeros(w - 1) + ['0'] == Zeros(w);
    } else {
      var d := NatToString(n / 10);
      assert NatToString(n) == d + e;
      if |d| < w {
        calc {
          ZeroPad(n, w + 1);
          Zeros(w - |d|) + (d + e);
          (Zeros(w - |d|) + d) + e;
          ZeroPad(n / 10, w) + e;
        }
      } else {
        assert ZeroPad(n, w + 1) == d + e;
      }
    }
  }

  lemma ZeroPadFacts(n: nat, w: nat)
    ensures ParseNat(ZeroPad(n, w)) == n
    ensures n < Pow10(w) && w > 0 ==> |ZeroPad(n, w)| == w
  {
    ParseNatToString(n);
    var d := NatToString(n);
    if |d| < w { ParseNatLeadingZeros(w - |d|, d); }
    if n < Pow10(w) && w > 0 { NatToStringLength(n, w); }
  }

  function Pow10(k: nat): nat {
    if k == 0 then 1 else 10 * Pow10(k - 1)
  }

  lemma {:induction false} NatToStringLength(n: nat, w: nat)
    requires w > 0 && n < Pow10(w)
    ensures |NatToString(n)| <= w
  {
    if n >= 10 {
      assert Pow10(1) == 10;
      assert w > 1;
      assert n / 10 < Pow10(w - 1);
      NatToStringLength(n / 10, w - 1);
    }
  }
}
