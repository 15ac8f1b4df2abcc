/**
 * Bounding-box normalisation and clamping (utils/image_tools.py).
 *
 * Coordinates are exact reals; Python's `int()` on them is `Trunc`, which
 * rounds toward zero. `safe_crop` returns the clamped crop box instead of
 * cutting the image.
 */
module ImageTools {
  import opened Text

  /** One element of a bbox list: a number, or a point given as a list or tuple of numbers. */
  datatype Item = Scalar(v: real) | Point(coords: seq<real>)

  /**
   * The bbox shapes a caller may pass: a dict of numbers, a list or tuple of items
   * (`isList` tells a list from a tuple), or any other value.
   */
  datatype RawBox = BoxDict(entries: map<string, real>) | BoxSeq(items: seq<Item>, isList: bool) | BoxOther

  /** A left-top-right-bottom box of integer pixel coordinates. */
  datatype Box = Box(l: int, t: int, r: int, b: int)

  /** Python's `int()` of a float: truncation toward zero. */
  function Trunc(x: real): (n: int)
    ensures 0.0 <= x ==> 0 <= n && n as real <= x < n as real + 1.0
    ensures x < 0.0 ==> n <= 0 && n as real - 1.0 < x <= n as real
  {
    if x >= 0.0 then x.Floor else -((-x).Floor)
  }

  lemma TruncOfInt(n: int)
    ensures Trunc(n as real) == n
  {
  }

  lemma TruncMonotone(x: real, y: real)
    requires x <= y
    ensures Trunc(x) <= Trunc(y)
  {
  }

  function MinOf(xs: seq<real>): (m: real)
    requires |xs| > 0
    ensures m in xs && forall i :: 0 <= i < |xs| ==> m <= xs[i]
  {
    if |xs| == 1 then xs[0]
    else var m' := MinOf(xs[1..]); if xs[0] <= m' then xs[0] else m'
  }

  function MaxOf(xs: seq<real>): (m: real)
    requires |xs| > 0
    ensures m in xs && forall i :: 0 <= i < |xs| ==> xs[i] <= m
  {
    if |xs| == 1 then xs[0]
    else var m' := MaxOf(xs[1..]); if xs[0] >= m' then xs[0] else m'
  }

  function Max(a: int, b: int): int { if a >= b then a else b }
  function Min(a: int, b: int): int { if a <= b then a else b }

  /** `d.get(key, d.get(alias, 0))`. */
  function Get(d: map<string, real>, key: string, alias: string): (v: real)
    ensures key in d ==> v == d[key]
    ensures key !in d && alias in d ==> v == d[alias]
    ensures key !in d && alias !in d ==> v == 0.0
  {
    if key in d then d[key] else if alias in d then d[alias] else 0.0
  }

  /** A polygon of points, each with at least an x and a y (the coordinates `p[0]`, `p[1]` exist). */
  predicate IsPolygon(items: seq<Item>) {
    forall i :: 0 <= i < |items| ==> items[i].Point? && |items[i].coords| >= 2
  }

  function Xs(items: seq<Item>): (xs: seq<real>)
    requires IsPolygon(items)
    ensures |xs| == |items| && forall i :: 0 <= i < |items| ==> xs[i] == items[i].coords[0]
  {
    seq(|items|, i requires 0 <= i < |items| => items[i].coords[0])
  }

  function Ys(items: seq<Item>): (ys: seq<real>)
    requires IsPolygon(items)
    ensures |ys| == |items| && forall i :: 0 <= i < |items| ==> ys[i] == items[i].coords[1]
  {
    seq(|items|, i requires 0 <= i < |items| => items[i].coords[1])
  }

  /**
   * `_points_to_ltrb`: the truncated minima and maxima of the xs and ys. A point
   * without two coordinates, or a number in the list, raises; so does an empty list.
   */
  function PointsToLtrb(items: seq<Item>): (r: Result<Box>)
    ensures r.Ok? <==> |items| > 0 && IsPolygon(items)
  {
    if |items| > 0 && IsPolygon(items) then
      Ok(Box(Trunc(MinOf(Xs(items))), Trunc(MinOf(Ys(items))), Trunc(MaxOf(Xs(items))), Trunc(MaxOf(Ys(items)))))
    else Raises("TypeError or IndexError")
  }

  /** The box the points span: every point lies inside it, on or after its truncation. */
  lemma PointsToLtrbSpans(items: seq<Item>)
    requires PointsToLtrb(items).Ok?
    ensures var bx := PointsToLtrb(items).value;
      forall i :: 0 <= i < |items| ==>
        Trunc(items[i].coords[0]) >= bx.l && Trunc(items[i].coords[0]) <= bx.r &&
        Trunc(items[i].coords[1]) >= bx.t && Trunc(items[i].coords[1]) <= bx.b
  {
    var xs, ys := Xs(items), Ys(items);
    forall i | 0 <= i < |items|
      ensures Trunc(items[i].coords[0]) >= Trunc(MinOf(xs)) && Trunc(items[i].coords[0]) <= Trunc(MaxOf(xs))
      ensures Trunc(items[i].coords[1]) >= Trunc(MinOf(ys)) && Trunc(items[i].coords[1]) <= Trunc(MaxOf(ys))
    {
      TruncMonotone(MinOf(xs), xs[i]);
      TruncMonotone(xs[i], MaxOf(xs));
      TruncMonotone(MinOf(ys), ys[i]);
      TruncMonotone(ys[i], MaxOf(ys));
    }
  }

  predicate AllScalars(items: seq<Item>) {
    forall i :: 0 <= i < |items| ==> items[i].Scalar?
  }

  /** The unclamped real box a bbox value denotes, or the exception `_bbox_to_ltrb` raises. */
  function RawLtrb(bbox: RawBox): (r: Result<(real, real, real, real)>)
  {
    match bbox
    case BoxDict(d) =>
      var x, y := Get(d, "x", "left"), Get(d, "y", "top");
      Ok((x, y, x + Get(d, "w", "width"), y + Get(d, "h", "height")))
    case BoxSeq(items, _) =>
      if |items| > 0 && items[0].Point? && |items[0].coords| == 2 then
        match PointsToLtrb(items)
        case Ok(bx) => Ok((bx.l as real, bx.t as real, bx.r as real, bx.b as real))
        case Raises(e) => Raises(e)
      else if |items| == 4 then
        if AllScalars(items) then Ok((items[0].v, items[1].v, items[2].v, items[3].v))
        else Raises("TypeError")
      else Raises("ValueError: Unsupported bbox format")
    case BoxOther => Raises("ValueError: Unsupported bbox format")
  }

  /** `_bbox_to_ltrb`: truncate, clamp into the image, and swap an inverted pair. */
  function BboxToLtrb(bbox: RawBox, imgW: nat, imgH: nat): (r: Result<Box>)
    ensures r.Ok? <==> RawLtrb(bbox).Ok?
    ensures r.Ok? ==> 0 <= r.value.l <= r.value.r <= imgW && 0 <= r.value.t <= r.value.b <= imgH
  {
    match RawLtrb(bbox)
    case Raises(e) => Raises(e)
    case Ok((l0, t0, r0, b0)) =>
      var l := Max(0, Min(Trunc(l0), imgW - 1));
      var t := Max(0, Min(Trunc(t0), imgH - 1));
      var r := Max(0, Min(Trunc(r0), imgW));
      var b := Max(0, Min(Trunc(b0), imgH));
      var (l', r') := if r < l then (r, l) else (l, r);
      var (t', b') := if b < t then (b, t) else (t, b);
      Ok(Box(l', t', r', b'))
  }

  /** A box already inside the image comes back as its truncation, untouched by clamping. */
  lemma BboxInsideIsKept(bbox: RawBox, imgW: nat, imgH: nat)
    requires RawLtrb(bbox).Ok?
    requires var (l, t, r, b) := RawLtrb(bbox).value;
      0 <= Trunc(l) <= Trunc(r) <= imgW && Trunc(l) < imgW &&
      0 <= Trunc(t) <= Trunc(b) <= imgH && Trunc(t) < imgH
    ensures var (l, t, r, b) := RawLtrb(bbox).value;
      BboxToLtrb(bbox, imgW, imgH) == Ok(Box(Trunc(l), Trunc(t), Trunc(r), Trunc(b)))
  {
    var (l, t, r, b) := RawLtrb(bbox).value;
    assert Max(0, Min(Trunc(l), imgW - 1)) == Trunc(l) && Max(0, Min(Trunc(r), imgW)) == Trunc(r);
    assert Max(0, Min(Trunc(t), imgH - 1)) == Trunc(t) && Max(0, Min(Trunc(b), imgH)) == Trunc(b);
  }

  /** The dict form `{x, y, w, h}` gives the same box as the flat list `[x, y, x + w, y + h]`. */
  lemma DictMatchesFlatList(d: map<string, real>, imgW: nat, imgH: nat)
    ensures var x, y := Get(d, "x", "left"), Get(d, "y", "top");
      var w, h := Get(d, "w", "width"), Get(d, "h", "height");
      BboxToLtrb(BoxDict(d), imgW, imgH)
        == BboxToLtrb(BoxSeq([Scalar(x), Scalar(y), Scalar(x + w), Scalar(y + h)], true), imgW, imgH)
  {
  }

  /** The size of a PIL image, (width, height). */
  datatype Size = Size(w: nat, h: nat)

  /**
   * `safe_crop`, returning the crop box: None for a missing image or bbox, for a
   * bbox `_bbox_to_ltrb` rejects, and for a box left empty after expanding and
   * clamping.
   */
  function SafeCrop(image: Option<Size>, bbox: Option<RawBox>, expand: int): (r: Option<Box>)
    ensures r.Some? ==> image.Some? && bbox.Some? && BboxToLtrb(bbox.value, image.value.w, image.value.h).Ok?
    ensures r.Some? ==> 0 <= r.value.l < r.value.r <= image.value.w && 0 <= r.value.t < r.value.b <= image.value.h
    ensures image.Some? && bbox.Some? && BboxToLtrb(bbox.value, image.value.w, image.value.h).Ok? ==>
      var bx, w, h := BboxToLtrb(bbox.value, image.value.w, image.value.h).value, image.value.w, image.value.h;
      (r.Some? <==> Max(0, bx.l - expand) < Min(w, bx.r + expand) && Max(0, bx.t - expand) < Min(h, bx.b + expand))
  {
    if image.None? || bbox.None? then None
    else
      var w, h := image.value.w, image.value.h;
      match BboxToLtrb(bbox.value, w, h)
      case Raises(_) => None
      case Ok(bx) =>
        var l := Max(0, bx.l - expand);
        var t := Max(0, bx.t - expand);
        var r := Min(w, bx.r + expand);
        var b := Min(h, bx.b + expand);
        if r <= l || b <= t then None else Some(Box(l, t, r, b))
  }

  /** The crop box grows by `expand` on every side, as far as the image allows. */
  lemma SafeCropExpands(size: Size, bbox: RawBox, expand: int)
    requires BboxToLtrb(bbox, size.w, size.h).Ok?
    requires SafeCrop(Some(size), Some(bbox), expand).Some?
    ensures var bx, c := BboxToLtrb(bbox, size.w, size.h).value, SafeCrop(Some(size), Some(bbox), expand).value;
      c.l == Max(0, bx.l - expand) && c.t == Max(0, bx.t - expand) &&
      c.r == Min(size.w, bx.r + expand) && c.b == Min(size.h, bx.b + expand)
  {
  }

  /** With a non-negative margin, a non-empty clamped box always gives a crop, containing that box. */
  lemma SafeCropOfNonEmpty(size: Size, bbox: RawBox, expand: nat)
    requires BboxToLtrb(bbox, size.w, size.h).Ok?
    requires var bx := BboxToLtrb(bbox, size.w, size.h).value; bx.l < bx.r && bx.t < bx.b
    ensures SafeCrop(Some(size), Some(bbox), expand).Some?
    ensures var bx, c := BboxToLtrb(bbox, size.w, size.h).value, SafeCrop(Some(size), Some(bbox), expand).value;
      c.l <= bx.l && bx.r <= c.r && c.t <= bx.t && bx.b <= c.b
  {
  }

  /** A zero-area box still gives a crop once a positive margin widens it: (5, 5, 5, 5) with 2 crops (3, 3, 7, 7). */
  lemma SafeCropOfPointBox()
    ensures SafeCrop(Some(Size(100, 100)), Some(BoxSeq([Scalar(5.0), Scalar(5.0), Scalar(5.0), Scalar(5.0)], true)), 2)
      == Some(Box(3, 3, 7, 7))
  {
    TruncOfInt(5);
  }

  /** A bbox of an unsupported shape gives no crop. */
  lemma SafeCropOfUnsupported(size: Size, bbox: RawBox, expand: int)
    requires RawLtrb(bbox).Raises?
    ensures SafeCrop(Some(size), Some(bbox), expand).None?
  {
  }
}
