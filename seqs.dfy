/**
 * Splitting a sequence into runs of neighbours, the shape shared by the loops
 * that group OCR tokens into lines and lines into paragraphs: a new run starts
 * before an element exactly when it "breaks" from the element just before it.
 */
module Seqs {

  function Flatten<T>(gs: seq<seq<T>>): seq<T> {
    if gs == [] then [] else Flatten(gs[..|gs| - 1]) + gs[|gs| - 1]
  }

  /** The runs of `s`, a new one starting before `s[i]` iff `brk(s[i - 1], s[i])`. */
  function SplitWhen<T>(s: seq<T>, brk: (T, T) -> bool): (gs: seq<seq<T>>)
    ensures |gs| == 0 <==> |s| == 0
    ensures |gs| <= |s|
  {
    if |s| == 0 then []
    else
      var gs := SplitWhen(s[..|s| - 1], brk);
      var x := s[|s| - 1];
      if |gs| == 0 then [[x]]
      else if brk(s[|s| - 2], x) then gs + [[x]]
      else gs[..|gs| - 1] + [gs[|gs| - 1] + [x]]
  }

  predicate NonEmptyRuns<T>(gs: seq<seq<T>>) {
    forall k :: 0 <= k < |gs| ==> |gs[k]| > 0
  }

  /** No run holds a break between two of its neighbours. */
  predicate NoBreakInside<T>(gs: seq<seq<T>>, brk: (T, T) -> bool) {
    forall k, j :: 0 <= k < |gs| && 0 < j < |gs[k]| ==> !brk(gs[k][j - 1], gs[k][j])
  }

  /** Every run after the first starts with a break from the end of the run before it. */
  predicate BreakBetween<T>(gs: seq<seq<T>>, brk: (T, T) -> bool)
    requires NonEmptyRuns(gs)
  {
    forall k :: 0 < k < |gs| ==> brk(gs[k - 1][|gs[k - 1]| - 1], gs[k][0])
  }

  lemma {:induction false} SplitWhenFlattens<T>(s: seq<T>, brk: (T, T) -> bool)
    ensures Flatten(SplitWhen(s, brk)) == s
    ensures NonEmptyRuns(SplitWhen(s, brk))
    ensures |s| > 0 ==> var gs := SplitWhen(s, brk); gs[|gs| - 1][|gs[|gs| - 1]| - 1] == s[|s| - 1]
    decreases |s|
  {
    if |s| > 0 {
      var s' := s[..|s| - 1];
      var x := s[|s| - 1];
      var gs := SplitWhen(s', brk);
      SplitWhenFlattens(s', brk);
      assert s == s' + [x];
      var r := SplitWhen(s, brk);
      if |gs| == 0 || brk(s[|s| - 2], x) {
        SplitWhenStarts(s, brk);
        FlattenSnoc(gs, [x]);
      } else {
        SplitWhenExtends(s, brk);
        FlattenExtendLast(gs, x);
      }
    }
  }

  /** The step of `SplitWhen` that starts a new run with the last element. */
  lemma SplitWhenStarts<T>(s: seq<T>, brk: (T, T) -> bool)
    requires |s| > 0
    requires var gs := SplitWhen(s[..|s| - 1], brk); |gs| == 0 || brk(s[|s| - 2], s[|s| - 1])
    ensures SplitWhen(s, brk) == SplitWhen(s[..|s| - 1], brk) + [[s[|s| - 1]]]
  {
  }

  /** The step of `SplitWhen` that grows the last run by the last element. */
  lemma SplitWhenExtends<T>(s: seq<T>, brk: (T, T) -> bool)
    requires |s| > 0
    requires var gs := SplitWhen(s[..|s| - 1], brk); |gs| > 0 && !brk(s[|s| - 2], s[|s| - 1])
    ensures var gs := SplitWhen(s[..|s| - 1], brk);
      SplitWhen(s, brk) == gs[..|gs| - 1] + [gs[|gs| - 1] + [s[|s| - 1]]]
  {
  }

  lemma FlattenSnoc<T>(gs: seq<seq<T>>, g: seq<T>)
    ensures Flatten(gs + [g]) == Flatten(gs) + g
    ensures NonEmptyRuns(gs) && g != [] ==> NonEmptyRuns(gs + [g])
  {
    assert (gs + [g])[..|gs|] == gs;
  }

  /** Growing the last run by `x` grows the flattening by `x`, and keeps the runs non-empty. */
  lemma FlattenExtendLast<T>(gs: seq<seq<T>>, x: T)
    requires |gs| > 0
    ensures var r := gs[..|gs| - 1] + [gs[|gs| - 1] + [x]];
      Flatten(r) == Flatten(gs) + [x] && (NonEmptyRuns(gs) ==> NonEmptyRuns(r)) && r[|r| - 1][|r[|r| - 1]| - 1] == x
  {
    var init, last := gs[..|gs| - 1], gs[|gs| - 1];
    FlattenSnoc(init, last + [x]);
    FlattenSnoc(init, last);
    assert init + [last] == gs;
  }

  /** Starting a new run with `x` after a break keeps both run properties. */
  lemma StartRunKeeps<T>(gs: seq<seq<T>>, x: T, brk: (T, T) -> bool)
    requires |gs| > 0 && NonEmptyRuns(gs) && NoBreakInside(gs, brk) && BreakBetween(gs, brk)
    requires brk(gs[|gs| - 1][|gs[|gs| - 1]| - 1], x)
    ensures NonEmptyRuns(gs + [[x]]) && NoBreakInside(gs + [[x]], brk) && BreakBetween(gs + [[x]], brk)
  {
    var r := gs + [[x]];
    assert forall k :: 0 <= k < |gs| ==> r[k] == gs[k];
  }

  /** Extending the last run with `x`, when there is no break, keeps both run properties. */
  lemma ExtendRunKeeps<T>(gs: seq<seq<T>>, x: T, brk: (T, T) -> bool)
    requires |gs| > 0 && NonEmptyRuns(gs) && NoBreakInside(gs, brk) && BreakBetween(gs, brk)
    requires !brk(gs[|gs| - 1][|gs[|gs| - 1]| - 1], x)
    ensures var r := gs[..|gs| - 1] + [gs[|gs| - 1] + [x]];
      NonEmptyRuns(r) && NoBreakInside(r, brk) && BreakBetween(r, brk)
  {
    var r := gs[..|gs| - 1] + [gs[|gs| - 1] + [x]];
    assert forall k :: 0 <= k < |gs| - 1 ==> r[k] == gs[k];
    assert r[|r| - 1][0] == gs[|gs| - 1][0];
    forall k, j | 0 <= k < |r| && 0 < j < |r[k]| ensures !brk(r[k][j - 1], r[k][j]) {
      if k == |r| - 1 && j < |r[k]| - 1 {
        assert r[k][j - 1] == gs[k][j - 1] && r[k][j] == gs[k][j];
      }
    }
  }

  lemma {:induction false} SplitWhenBreaks<T>(s: seq<T>, brk: (T, T) -> bool)
    ensures NonEmptyRuns(SplitWhen(s, brk))
    ensures NoBreakInside(SplitWhen(s, brk), brk)
    ensures BreakBetween(SplitWhen(s, brk), brk)
    decreases |s|
  {
    SplitWhenFlattens(s, brk);
    if |s| > 0 {
      var s' := s[..|s| - 1];
      var x := s[|s| - 1];
      var gs := SplitWhen(s', brk);
      SplitWhenBreaks(s', brk);
      if |gs| > 0 {
        SplitWhenFlattens(s', brk);
        assert gs[|gs| - 1][|gs[|gs| - 1]| - 1] == s[|s| - 2];
        if brk(s[|s| - 2], x) {
          StartRunKeeps(gs, x, brk);
        } else {
          ExtendRunKeeps(gs, x, brk);
        }
      }
    }
  }

  /** One more element either starts a new run after a break or extends the last run. */
  lemma SplitWhenSnoc<T>(s: seq<T>, i: nat, brk: (T, T) -> bool)
    requires 0 < i < |s|
    ensures var gs := SplitWhen(s[..i], brk);
      |gs| > 0 &&
      SplitWhen(s[..i + 1], brk) == if brk(s[i - 1], s[i]) then gs + [[s[i]]] else gs[..|gs| - 1] + [gs[|gs| - 1] + [s[i]]]
  {
    assert s[..i + 1][..i] == s[..i];
  }

  /** `[f(x) for x in xs]`. */
  function MapSeq<T, U>(xs: seq<T>, f: T -> U): (ys: seq<U>)
    ensures |ys| == |xs| && forall k :: 0 <= k < |xs| ==> ys[k] == f(xs[k])
  {
    if xs == [] then [] else MapSeq(xs[..|xs| - 1], f) + [f(xs[|xs| - 1])]
  }

  lemma MapSeqSnoc<T, U>(xs: seq<T>, k: nat, f: T -> U)
    requires k < |xs|
    ensures MapSeq(xs[..k + 1], f) == MapSeq(xs[..k], f) + [f(xs[k])]
  {
    assert xs[..k + 1][..k] == xs[..k];
  }

  /** The images `f(x)` of the elements, the last element's first, concatenated. */
  function RevFlatMap<T, U>(xs: seq<T>, f: T -> seq<U>): seq<U> {
    if xs == [] then [] else f(xs[|xs| - 1]) + RevFlatMap(xs[..|xs| - 1], f)
  }

  /** The first element comes out last. */
  lemma {:induction false} RevFlatMapCons<T, U>(x: T, xs: seq<T>, f: T -> seq<U>)
    ensures RevFlatMap([x] + xs, f) == RevFlatMap(xs, f) + f(x)
  {
    var whole := [x] + xs;
    if xs == [] {
      assert whole[..0] == [];
    } else {
      var front := xs[..|xs| - 1];
      assert whole[..|whole| - 1] == [x] + front;
      RevFlatMapCons(x, front, f);
      var fl := f(xs[|xs| - 1]);
      assert fl + (RevFlatMap(front, f) + f(x)) == (fl + RevFlatMap(front, f)) + f(x);
    }
  }

  /** A loop that appends `f(x)` for each `x` in turn: the images, in order. */
  method MapEach<T, U>(xs: seq<T>, f: T --> U) returns (ys: seq<U>)
    requires forall i :: 0 <= i < |xs| ==> f.requires(xs[i])
    ensures |ys| == |xs|
    ensures forall i :: 0 <= i < |xs| ==> ys[i] == f(xs[i])
  {
    ys := [];
    for k := 0 to |xs|
      invariant |ys| == k
      invariant forall i :: 0 <= i < k ==> ys[i] == f(xs[i])
    {
      ys := ys + [f(xs[k])];
    }
  }

  /** The first element alone is one run. */
  lemma SplitWhenOne<T>(s: seq<T>, brk: (T, T) -> bool)
    requires s != []
    ensures SplitWhen(s[..1], brk) == [] + [[s[0]]]
  {
    assert s[..1][..0] == [];
  }

  /** The same step, read on the split of the prefix as its closed runs followed by the open one. */
  lemma SplitWhenStep<T>(s: seq<T>, i: nat, brk: (T, T) -> bool, closed: seq<seq<T>>, open: seq<T>)
    requires 0 < i < |s| && closed + [open] == SplitWhen(s[..i], brk)
    ensures brk(s[i - 1], s[i]) ==> SplitWhen(s[..i + 1], brk) == (closed + [open]) + [[s[i]]]
    ensures !brk(s[i - 1], s[i]) ==> SplitWhen(s[..i + 1], brk) == closed + [open + [s[i]]]
  {
    SplitWhenSnoc(s, i, brk);
    var gs := closed + [open];
    assert gs[..|gs| - 1] == closed;
  }

  /** A suffix of a non-empty sequence is the same suffix of its front, then its last element. */
  lemma SuffixSnoc<T>(s: seq<T>, d: nat)
    requires d < |s|
    ensures s[d..] == s[..|s| - 1][d..] + [s[|s| - 1]]
    ensures s[..|s| - 1][..d] == s[..d]
  {
  }
}
