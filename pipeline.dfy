/**
 * The per-page loop of `run_pipeline` (src/pipeline.py): bbox normalisation of
 * the OCR items, per-page and document text, and the document-type choice.
 *
 * The OCR engine and the Donut model are inputs: `pages` holds what the OCR
 * engine returned for each page and `donut` what Donut inferred for it.
 */
module Pipeline {
  import opened Text
  import opened ImageTools

  /** A dict entry that may be absent, present with `None`, or present with a number. */
  datatype Field = Missing | Null | Number(x: real)

  /** One OCR item as the engine returns it; a missing "text" is "". */
  datatype OcrItem = OcrItem(text: string, bbox: Option<RawBox>, conf: Field, score: Field)

  /** One entry of `ocr_norm`. */
  datatype NormItem = NormItem(text: string, bbox: Option<seq<int>>, conf: real)

  /** What Donut returned: not a dict, or a dict whose two type keys are given ("" for absent, None or empty). */
  datatype DonutOut = NotDict | DonutDict(documentType: string, doctype: string)

  datatype Output = Output(ocrPages: seq<seq<NormItem>>, rawText: string, docType: string)

  /** The bbox dispatch: LTRB from four points, a dict, or a flat list of four; no clamping, no swapping. */
  function NormalizeBox(bb: Option<RawBox>): (r: Result<Option<seq<int>>>)
    ensures r.Ok? && r.value.Some? ==> |r.value.value| == 4
  {
    match bb
    case None => Ok(None)
    case Some(BoxSeq(items, true)) =>
      if |items| == 4 && items[0].Point? then
        match PointsToLtrb(items)
        case Ok(b) => Ok(Some([b.l, b.t, b.r, b.b]))
        case Raises(e) => Raises(e)
      else if |items| == 4 then
        if AllScalars(items) then Ok(Some([Trunc(items[0].v), Trunc(items[1].v), Trunc(items[2].v), Trunc(items[3].v)]))
        else Raises("TypeError")
      else Ok(None)
    case Some(BoxDict(d)) =>
      if d == map[] then Ok(None)
      else
        var x, y := Get(d, "x", "left"), Get(d, "y", "top");
        var w, h := Get(d, "w", "width"), Get(d, "h", "height");
        Ok(Some([Trunc(x), Trunc(y), Trunc(x + w), Trunc(y + h)]))
    case Some(_) => Ok(None)
  }

  /** `o.get("conf", o.get("score", 0.0))`, with `None` read as 0.0. */
  function Confidence(conf: Field, score: Field): real {
    match conf
    case Number(x) => x
    case Null => 0.0
    case Missing => if score.Number? then score.x else 0.0
  }

  function NormalizeItem(o: OcrItem): (r: Result<NormItem>)
    ensures r.Ok? <==> NormalizeBox(o.bbox).Ok?
    ensures r.Ok? ==> r.value.text == o.text && r.value.bbox == NormalizeBox(o.bbox).value
  {
    match NormalizeBox(o.bbox)
    case Ok(bb) => Ok(NormItem(o.text, bb, Confidence(o.conf, o.score)))
    case Raises(e) => Raises(e)
  }

  /** `ocr_norm` for one page: the normalised items in order, or the first exception. */
  function NormalizePage(items: seq<OcrItem>): (r: Result<seq<NormItem>>)
    ensures r.Ok? ==> |r.value| == |items|
  {
    if items == [] then Ok([])
    else
      match NormalizePage(items[..|items| - 1])
      case Raises(e) => Raises(e)
      case Ok(xs) =>
        match NormalizeItem(items[|items| - 1])
        case Raises(e) => Raises(e)
        case Ok(x) => Ok(xs + [x])
  }

  function NormalizePages(pages: seq<seq<OcrItem>>): (r: Result<seq<seq<NormItem>>>)
    ensures r.Ok? ==> |r.value| == |pages|
  {
    if pages == [] then Ok([])
    else
      match NormalizePages(pages[..|pages| - 1])
      case Raises(e) => Raises(e)
      case Ok(xs) =>
        match NormalizePage(pages[|pages| - 1])
        case Raises(e) => Raises(e)
        case Ok(x) => Ok(xs + [x])
  }

  /** The texts of the items whose text is non-empty, in order. */
  function NonEmptyTexts(items: seq<NormItem>): (r: seq<string>)
    ensures forall i :: 0 <= i < |r| ==> r[i] != ""
  {
    if items == [] then []
    else NonEmptyTexts(items[..|items| - 1]) + (if items[|items| - 1].text != "" then [items[|items| - 1].text] else [])
  }

  /** The text of one page: its non-empty item texts joined by single spaces. */
  function PageText(items: seq<NormItem>): string {
    Join(" ", NonEmptyTexts(items))
  }

  function PageTexts(pages: seq<seq<NormItem>>): (r: seq<string>)
    ensures |r| == |pages|
  {
    seq(|pages|, p requires 0 <= p < |pages| => PageText(pages[p]))
  }

  /** `dj.get("document_type") or dj.get("doctype")`. */
  function Guess(d: DonutOut): string
    requires d.DonutDict?
  {
    if d.documentType != "" then d.documentType else d.doctype
  }

  /** `donut_guess` after the pages seen: set from a dict result while it is still falsy. */
  function DonutGuess(ds: seq<DonutOut>): string {
    if ds == [] then ""
    else
      var g := DonutGuess(ds[..|ds| - 1]);
      if g == "" && ds[|ds| - 1].DonutDict? then Guess(ds[|ds| - 1]) else g
  }

  /** `doc_type_hint or donut_guess or "receipt"` (an absent hint is ""). */
  function DocType(hint: string, guess: string): (r: string)
    ensures r != ""
    ensures hint != "" ==> r == hint
    ensures hint == "" && guess != "" ==> r == guess
  {
    if hint != "" then hint else if guess != "" then guess else "receipt"
  }

  /** What `run_pipeline` computes up to the LLM call, or the exception it raises. */
  function Run(pages: seq<seq<OcrItem>>, donut: seq<DonutOut>, hint: string): Result<Output> {
    match NormalizePages(pages)
    case Raises(e) => Raises(e)
    case Ok(ps) => Ok(Output(ps, Join(" ", PageTexts(ps)), DocType(hint, DonutGuess(donut))))
  }

  lemma {:induction false} NormalizePageFails(items: seq<OcrItem>, i: nat)
    requires i < |items| && NormalizePage(items[..i]).Ok? && NormalizeItem(items[i]).Raises?
    ensures NormalizePage(items).Raises?
    decreases |items|
  {
    if i + 1 < |items| {
      assert items[..|items| - 1][..i] == items[..i];
      NormalizePageFails(items[..|items| - 1], i);
    } else {
      assert items[..|items| - 1] == items[..i];
    }
  }

  lemma {:induction false} NormalizePagesFails(pages: seq<seq<OcrItem>>, p: nat)
    requires p < |pages| && NormalizePages(pages[..p]).Ok? && NormalizePage(pages[p]).Raises?
    ensures NormalizePages(pages).Raises?
    decreases |pages|
  {
    if p + 1 < |pages| {
      assert pages[..|pages| - 1][..p] == pages[..p];
      NormalizePagesFails(pages[..|pages| - 1], p);
    } else {
      assert pages[..|pages| - 1] == pages[..p];
    }
  }

  /** The item loop of `run_pipeline` over one page. */
  method NormalizeItems(items: seq<OcrItem>) returns (r: Result<seq<NormItem>>)
    ensures r.Ok? <==> NormalizePage(items).Ok?
    ensures r.Ok? ==> r == NormalizePage(items)
  {
    var ocrNorm: seq<NormItem> := [];
    var i := 0;
    while i < |items|
      invariant 0 <= i <= |items|
      invariant NormalizePage(items[..i]) == Ok(ocrNorm)
    {
      var n := NormalizeItem(items[i]);
      if n.Raises? {
        NormalizePageFails(items, i);
        return Raises(n.error);
      }
      assert items[..i + 1][..i] == items[..i];
      ocrNorm := ocrNorm + [n.value];
      i := i + 1;
    }
    assert items[..i] == items;
    r := Ok(ocrNorm);
  }

  /** The page loop of `run_pipeline`. */
  method RunPipeline(pages: seq<seq<OcrItem>>, donut: seq<DonutOut>, hint: string) returns (r: Result<Output>)
    requires |donut| == |pages|
    ensures r.Ok? <==> Run(pages, donut, hint).Ok?
    ensures r.Ok? ==> r == Run(pages, donut, hint)
  {
    var ocrPages: seq<seq<NormItem>> := [];
    var allText: seq<string> := [];
    var donutGuess := "";
    var p := 0;
    while p < |pages|
      invariant 0 <= p <= |pages|
      invariant NormalizePages(pages[..p]) == Ok(ocrPages)
      invariant allText == PageTexts(ocrPages)
      invariant donutGuess == DonutGuess(donut[..p])
    {
      var page := NormalizeItems(pages[p]);
      if page.Raises? {
        NormalizePagesFails(pages, p);
        return Raises(page.error);
      }
      var ocrNorm := page.value;
      assert NormalizePages(pages[..p + 1]) == Ok(ocrPages + [ocrNorm]) by {
        assert pages[..p + 1][..p] == pages[..p];
      }
      assert PageTexts(ocrPages + [ocrNorm]) == allText + [PageText(ocrNorm)];
      assert DonutGuess(donut[..p + 1]) == (if donutGuess == "" && donut[p].DonutDict? then Guess(donut[p]) else donutGuess) by {
        assert donut[..p + 1][..p] == donut[..p];
      }
      ocrPages := ocrPages + [ocrNorm];
      allText := allText + [PageText(ocrNorm)];
      if donut[p].DonutDict? && donutGuess == "" {
        donutGuess := Guess(donut[p]);
      }
      p := p + 1;
    }
    assert pages[..p] == pages;
    assert donut[..p] == donut;
    r := Ok(Output(ocrPages, Join(" ", allText), DocType(hint, donutGuess)));
  }

  lemma {:induction false} NormalizePageKeepsItems(items: seq<OcrItem>)
    requires NormalizePage(items).Ok?
    ensures forall i :: 0 <= i < |items| ==>
      NormalizeItem(items[i]).Ok? && NormalizePage(items).value[i] == NormalizeItem(items[i]).value
    decreases |items|
  {
    if items != [] {
      var init := items[..|items| - 1];
      NormalizePageKeepsItems(init);
      forall i | 0 <= i < |items| - 1 ensures items[i] == init[i] { }
    }
  }

  /** `ocr_norm` has one entry per OCR item, in order, with the item's text and its dispatched box. */
  lemma NormalizedPageMatchesItems(items: seq<OcrItem>)
    requires NormalizePage(items).Ok?
    ensures var n := NormalizePage(items).value;
      |n| == |items| && forall i :: 0 <= i < |items| ==>
        n[i].text == items[i].text && NormalizeBox(items[i].bbox).Ok? && n[i].bbox == NormalizeBox(items[i].bbox).value &&
        n[i].conf == Confidence(items[i].conf, items[i].score)
  {
    NormalizePageKeepsItems(items);
  }

  /** The whole run fails exactly when some item's bbox dispatch raises. */
  lemma {:induction false} NormalizePageOk(items: seq<OcrItem>)
    ensures NormalizePage(items).Ok? <==> forall i :: 0 <= i < |items| ==> NormalizeBox(items[i].bbox).Ok?
    decreases |items|
  {
    if items != [] {
      var init := items[..|items| - 1];
      NormalizePageOk(init);
      forall i | 0 <= i < |items| - 1 ensures items[i] == init[i] { }
    }
  }

  lemma {:induction false} NonEmptyTextsCover(items: seq<NormItem>, i: int)
    requires 0 <= i < |items| && items[i].text != ""
    ensures items[i].text in NonEmptyTexts(items)
    decreases |items|
  {
    if i < |items| - 1 {
      NonEmptyTextsCover(items[..|items| - 1], i);
    }
  }

  /** Every non-empty OCR text of every page occurs in the document text. */
  lemma RawTextContainsItemTexts(pages: seq<seq<OcrItem>>, donut: seq<DonutOut>, hint: string, p: int, i: int)
    requires Run(pages, donut, hint).Ok?
    requires 0 <= p < |pages| && 0 <= i < |pages[p]| && pages[p][i].text != ""
    ensures Contains(Run(pages, donut, hint).value.rawText, pages[p][i].text)
  {
    var out := Run(pages, donut, hint).value;
    var ps := out.ocrPages;
    NormalizePagesKeepsPages(pages);
    NormalizedPageMatchesItems(pages[p]);
    NonEmptyTextsCover(ps[p], i);
    var ts := NonEmptyTexts(ps[p]);
    var k :| 0 <= k < |ts| && ts[k] == pages[p][i].text;
    JoinContainsParts(" ", ts, k);
    JoinContainsParts(" ", PageTexts(ps), p);
    ContainsTrans(out.rawText, PageText(ps[p]), pages[p][i].text);
  }

  lemma {:induction false} NormalizePagesKeepsPages(pages: seq<seq<OcrItem>>)
    requires NormalizePages(pages).Ok?
    ensures forall p :: 0 <= p < |pages| ==>
      NormalizePage(pages[p]).Ok? && NormalizePages(pages).value[p] == NormalizePage(pages[p]).value
    decreases |pages|
  {
    if pages != [] {
      var init := pages[..|pages| - 1];
      NormalizePagesKeepsPages(init);
      forall p | 0 <= p < |pages| - 1 ensures pages[p] == init[p] { }
    }
  }

  /** A flat list of four integers is kept as it is, even when inverted or outside any image. */
  lemma FlatIntListKept(a: int, b: int, c: int, d: int)
    ensures NormalizeBox(Some(BoxSeq([Scalar(a as real), Scalar(b as real), Scalar(c as real), Scalar(d as real)], true)))
      == Ok(Some([a, b, c, d]))
  {
    TruncOfInt(a); TruncOfInt(b); TruncOfInt(c); TruncOfInt(d);
  }

  /** Inside the image, the pipeline's unclamped box is the box the crop helper computes. */
  lemma DispatchAgreesWithClampInside(items: seq<Item>, imgW: nat, imgH: nat)
    requires |items| == 4 && AllScalars(items)
    requires 0 <= Trunc(items[0].v) <= Trunc(items[2].v) <= imgW && Trunc(items[0].v) < imgW
    requires 0 <= Trunc(items[1].v) <= Trunc(items[3].v) <= imgH && Trunc(items[1].v) < imgH
    ensures var bx := BboxToLtrb(BoxSeq(items, true), imgW, imgH).value;
      NormalizeBox(Some(BoxSeq(items, true))) == Ok(Some([bx.l, bx.t, bx.r, bx.b]))
  {
    BboxInsideIsKept(BoxSeq(items, true), imgW, imgH);
  }

  /** The document type: the hint, else the first truthy Donut guess, else "receipt". */
  lemma {:induction false} DonutGuessIsFirst(ds: seq<DonutOut>, k: int)
    requires 0 <= k < |ds| && ds[k].DonutDict? && Guess(ds[k]) != ""
    requires forall j :: 0 <= j < k && ds[j].DonutDict? ==> Guess(ds[j]) == ""
    ensures DonutGuess(ds) == Guess(ds[k])
    decreases |ds|
  {
    var init := ds[..|ds| - 1];
    if k < |ds| - 1 {
      DonutGuessIsFirst(init, k);
    } else {
      DonutGuessEmpty(init);
    }
  }

  lemma {:induction false} DonutGuessEmpty(ds: seq<DonutOut>)
    requires forall j :: 0 <= j < |ds| && ds[j].DonutDict? ==> Guess(ds[j]) == ""
    ensures DonutGuess(ds) == ""
    decreases |ds|
  {
    if ds != [] {
      DonutGuessEmpty(ds[..|ds| - 1]);
    }
  }

  lemma NoGuessMeansReceipt(pages: seq<seq<OcrItem>>, donut: seq<DonutOut>)
    requires Run(pages, donut, "").Ok?
    requires forall j :: 0 <= j < |donut| && donut[j].DonutDict? ==> Guess(donut[j]) == ""
    ensures Run(pages, donut, "").value.docType == "receipt"
  {
    DonutGuessEmpty(donut);
  }
}
