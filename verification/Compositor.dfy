/** Where the layers of an advertisement go and how they are composited (composition.py). */
module Compositor {
  import opened Prelude
  import opened Contracts

  datatype AssetKind = SourceAdKind | LogoAsset | ProductUiAsset | LayoutTemplate | BackgroundAsset | RenderedAd

  datatype RegisteredAsset = RegisteredAsset(assetId: AssetId, kind: AssetKind)

  datatype CompositionError = LockedAssetMissing | LockedContentDrift | InvalidOutput

  datatype Size = Size(width: int, height: int)

  const CANVAS_WIDTH := 1600
  const CANVAS_HEIGHT := 900
  const CANVAS := Size(CANVAS_WIDTH, CANVAS_HEIGHT)
  const PRODUCT_UI_BOX := Size(650, 520)
  const LOGO_BOX := Size(220, 96)
  const HEADLINE_SIZE := Size(660, 124)
  const BODY_SIZE := Size(680, 86)
  const CTA_SIZE := Size(330, 76)
  const DISCLOSURE_SIZE := Size(430, 44)

  /** What a thumbnail keeps to: at least one pixel, and no larger than the box. */
  predicate FitsBox(size: Size, box: Size) {
    1 <= size.width <= box.width && 1 <= size.height <= box.height
  }

  function Place(kind: LayerKind, source: Option<AssetId>, size: Size, left: int, top: int): Layer {
    Layer(kind, source, Bounds(left, top, left + size.width, top + size.height), size.width, size.height)
  }

  function ValidateRequest(lock: BrandLock, adCopy: AdCopy, logo: RegisteredAsset, productUi: RegisteredAsset):
    Option<CompositionError>
  {
    if logo.assetId != lock.logoAssetId || logo.kind != LogoAsset
       || productUi.assetId !in lock.productUiAssetIds || productUi.kind != ProductUiAsset
    then Some(LockedAssetMissing)
    else if adCopy.ctaActionMeaning != lock.ctaActionMeaning then Some(LockedContentDrift)
    else None
  }

  function Layout(logo: AssetId, productUi: AssetId, logoSize: Size, productUiSize: Size): seq<Layer> {
    [ Place(Background, None, CANVAS, 0, 0),
      Place(ProductUi, Some(productUi), productUiSize, 850, 170),
      Place(Logo, Some(logo), logoSize, 100, 70),
      Place(Headline, None, HEADLINE_SIZE, 100, 220),
      Place(Body, None, BODY_SIZE, 100, 390),
      Place(Cta, None, CTA_SIZE, 100, 560),
      Place(Disclosure, None, DISCLOSURE_SIZE, 100, 820) ]
  }

  /** The evidence of a composition; the rendering of text and of the PNG itself is not modelled. */
  function ComposeLayers(lock: BrandLock, adCopy: AdCopy, logo: RegisteredAsset, productUi: RegisteredAsset,
                         logoSize: Size, productUiSize: Size): Result<seq<Layer>, CompositionError>
  {
    var refused := ValidateRequest(lock, adCopy, logo, productUi);
    if refused.Some? then Err(refused.value)
    else Ok(Layout(logo.assetId, productUi.assetId, logoSize, productUiSize))
  }

  predicate Inside(bounds: Bounds, x: int, y: int) {
    bounds.left <= x < bounds.right && bounds.top <= y < bounds.bottom
  }

  ghost predicate Disjoint(a: Bounds, b: Bounds) {
    forall x, y :: !(Inside(a, x, y) && Inside(b, x, y))
  }

  /** Two boxes with a gap between them in one direction share no pixel. */
  lemma SeparatedDisjoint(a: Bounds, b: Bounds)
    requires a.right <= b.left || b.right <= a.left || a.bottom <= b.top || b.bottom <= a.top
    ensures Disjoint(a, b)
  {
  }

  /** For every size a thumbnail can have, the layers satisfy the contract and only the background is overlapped. */
  lemma LayoutProtects(logo: AssetId, productUi: AssetId, logoSize: Size, productUiSize: Size)
    requires FitsBox(logoSize, LOGO_BOX) && FitsBox(productUiSize, PRODUCT_UI_BOX)
    ensures
      var layers := Layout(logo, productUi, logoSize, productUiSize);
      && Kinds(layers) == FULL_ORDER
      && (forall i :: 0 <= i < |layers| ==> layers[i].Valid())
      && (forall i, j :: 1 <= i < j < |layers| ==> Disjoint(layers[i].bounds, layers[j].bounds))
  {
    var layers := Layout(logo, productUi, logoSize, productUiSize);
    forall i, j | 1 <= i < j < |layers|
      ensures Disjoint(layers[i].bounds, layers[j].bounds)
    {
      SeparatedDisjoint(layers[i].bounds, layers[j].bounds);
    }
  }

  /** The sources read back from the layers are those of the two protected assets. */
  lemma LayoutSources(logo: AssetId, productUi: AssetId, logoSize: Size, productUiSize: Size)
    ensures
      var layers := Layout(logo, productUi, logoSize, productUiSize);
      SourceOf(layers, Logo) == Some(logo) && SourceOf(layers, ProductUi) == Some(productUi)
  {
    var layers := Layout(logo, productUi, logoSize, productUiSize);
    assert SourceOf(layers[..3], Logo) == Some(logo);
    assert layers[..3][..2] == layers[..2];
    assert SourceOf(layers[..2], ProductUi) == Some(productUi);
    SourceOfSkips(layers, Logo, 3);
    SourceOfSkips(layers, ProductUi, 2);
  }

  lemma {:induction false} SourceOfSkips(layers: seq<Layer>, kind: LayerKind, n: nat)
    requires n <= |layers|
    requires forall i :: n <= i < |layers| ==> layers[i].kind != kind || layers[i].source.None?
    ensures SourceOf(layers, kind) == SourceOf(layers[..n], kind)
  {
    if n == |layers| {
      assert layers[..n] == layers;
    } else {
      SourceOfSkips(layers[..|layers| - 1], kind, n);
      assert layers[..|layers| - 1][..n] == layers[..n];
    }
  }

  /** A successful composition shows the two assets of the lock and nothing else from outside. */
  lemma ComposedFromLock(lock: BrandLock, adCopy: AdCopy, logo: RegisteredAsset, productUi: RegisteredAsset,
                         logoSize: Size, productUiSize: Size)
    requires FitsBox(logoSize, LOGO_BOX) && FitsBox(productUiSize, PRODUCT_UI_BOX)
    ensures
      var r := ComposeLayers(lock, adCopy, logo, productUi, logoSize, productUiSize);
      && (r.Ok? <==>
            && logo == RegisteredAsset(lock.logoAssetId, LogoAsset)
            && productUi.kind.ProductUiAsset? && productUi.assetId in lock.productUiAssetIds
            && adCopy.ctaActionMeaning == lock.ctaActionMeaning)
      && (r.Ok? ==>
            && SourceOf(r.value, Logo) == Some(lock.logoAssetId)
            && SourceOf(r.value, ProductUi) == Some(productUi.assetId)
            && Kinds(r.value) == FULL_ORDER
            && forall i :: 0 <= i < |r.value| ==> r.value[i].Valid())
  {
    LayoutSources(logo.assetId, productUi.assetId, logoSize, productUiSize);
    LayoutProtects(logo.assetId, productUi.assetId, logoSize, productUiSize);
  }

  // Pixels

  datatype Pixel = Pixel(red: int, green: int, blue: int, alpha: int)

  const TRANSPARENT := Pixel(0, 0, 0, 0)

  /** An image as a function from a position inside it; what it gives outside is never read. */
  type Image = (int, int) -> Pixel

  datatype RenderedLayer = RenderedLayer(evidence: Layer, image: Image) {
    function PixelAt(x: int, y: int): Pixel {
      image(x - evidence.bounds.left, y - evidence.bounds.top)
    }
  }

  /** The colour at one position after compositing the first n layers over a transparent canvas. */
  function Stacked(over: (Pixel, Pixel) -> Pixel, layers: seq<RenderedLayer>, n: nat, x: int, y: int): Pixel
    requires n <= |layers|
  {
    if n == 0 then TRANSPARENT
    else
      var below := Stacked(over, layers, n - 1, x, y);
      if Inside(layers[n - 1].evidence.bounds, x, y) then over(layers[n - 1].PixelAt(x, y), below) else below
  }

  predicate OnCanvas(bounds: Bounds) {
    0 <= bounds.left && 0 <= bounds.top && bounds.right <= CANVAS_WIDTH && bounds.bottom <= CANVAS_HEIGHT
  }

  /** Image.alpha_composite: draws one layer onto the canvas in place. Canvas cells are indexed [row, column]. */
  method AlphaComposite(canvas: array2<Pixel>, layer: RenderedLayer, over: (Pixel, Pixel) -> Pixel)
    requires canvas.Length0 == CANVAS_HEIGHT && canvas.Length1 == CANVAS_WIDTH
    requires OnCanvas(layer.evidence.bounds)
    modifies canvas
    ensures forall y, x :: 0 <= y < CANVAS_HEIGHT && 0 <= x < CANVAS_WIDTH ==>
      canvas[y, x] ==
        if Inside(layer.evidence.bounds, x, y) then over(layer.PixelAt(x, y), old(canvas[y, x])) else old(canvas[y, x])
  {
    var bounds := layer.evidence.bounds;
    var y := bounds.top;
    while y < bounds.bottom
      invariant bounds.top <= y && (y <= bounds.bottom || y == bounds.top)
      invariant forall v, u :: 0 <= v < CANVAS_HEIGHT && 0 <= u < CANVAS_WIDTH ==>
        canvas[v, u] ==
          if v < y && Inside(bounds, u, v) then over(layer.PixelAt(u, v), old(canvas[v, u])) else old(canvas[v, u])
    {
      var x := bounds.left;
      while x < bounds.right
        invariant bounds.left <= x && (x <= bounds.right || x == bounds.left)
        invariant forall v, u :: 0 <= v < CANVAS_HEIGHT && 0 <= u < CANVAS_WIDTH ==>
          canvas[v, u] ==
            if (v < y || (v == y && u < x)) && Inside(bounds, u, v)
            then over(layer.PixelAt(u, v), old(canvas[v, u])) else old(canvas[v, u])
      {
        canvas[y, x] := over(layer.PixelAt(x, y), canvas[y, x]);
        x := x + 1;
      }
      y := y + 1;
    }
  }

  /** The compositing loop of PillowCompositor.compose. */
  method CompositeAll(layers: seq<RenderedLayer>, over: (Pixel, Pixel) -> Pixel) returns (canvas: array2<Pixel>)
    requires forall i :: 0 <= i < |layers| ==> OnCanvas(layers[i].evidence.bounds)
    ensures fresh(canvas) && canvas.Length0 == CANVAS_HEIGHT && canvas.Length1 == CANVAS_WIDTH
    ensures forall y, x :: 0 <= y < CANVAS_HEIGHT && 0 <= x < CANVAS_WIDTH ==>
      canvas[y, x] == Stacked(over, layers, |layers|, x, y)
  {
    canvas := new Pixel[CANVAS_HEIGHT, CANVAS_WIDTH]((_, _) => TRANSPARENT);
    var i := 0;
    while i < |layers|
      invariant 0 <= i <= |layers|
      invariant forall y, x :: 0 <= y < CANVAS_HEIGHT && 0 <= x < CANVAS_WIDTH ==>
        canvas[y, x] == Stacked(over, layers, i, x, y)
    {
      AlphaComposite(canvas, layers[i], over);
      i := i + 1;
    }
  }

  lemma {:induction false} StackedAbove(over: (Pixel, Pixel) -> Pixel, layers: seq<RenderedLayer>, n: nat, x: int,
                                        y: int, k: nat)
    requires 1 <= k <= n <= |layers|
    requires forall j :: k <= j < n ==> !Inside(layers[j].evidence.bounds, x, y)
    ensures Stacked(over, layers, n, x, y) == Stacked(over, layers, k, x, y)
  {
    if k < n {
      StackedAbove(over, layers, n - 1, x, y, k);
    }
  }

  /**
   * Protected pixels: when the layers are laid out for thumbnails of any size, a pixel of the finished
   * canvas inside layer k shows that layer over the background and over nothing else, and a pixel inside
   * no layer shows the background alone.
   */
  lemma ProtectedPixels(over: (Pixel, Pixel) -> Pixel, layers: seq<RenderedLayer>, logo: AssetId, productUi: AssetId,
                        logoSize: Size, productUiSize: Size, x: int, y: int)
    requires FitsBox(logoSize, LOGO_BOX) && FitsBox(productUiSize, PRODUCT_UI_BOX)
    requires |layers| == 7
    requires forall i :: 0 <= i < 7 ==> layers[i].evidence == Layout(logo, productUi, logoSize, productUiSize)[i]
    requires 0 <= x < CANVAS_WIDTH && 0 <= y < CANVAS_HEIGHT
    ensures
      var background := over(layers[0].PixelAt(x, y), TRANSPARENT);
      && (forall k :: 1 <= k < 7 && Inside(layers[k].evidence.bounds, x, y) ==>
            Stacked(over, layers, 7, x, y) == over(layers[k].PixelAt(x, y), background))
      && ((forall k :: 1 <= k < 7 ==> !Inside(layers[k].evidence.bounds, x, y)) ==>
            Stacked(over, layers, 7, x, y) == background)
  {
    LayoutProtects(logo, productUi, logoSize, productUiSize);
    assert Stacked(over, layers, 1, x, y) == over(layers[0].PixelAt(x, y), TRANSPARENT) by {
      assert Stacked(over, layers, 0, x, y) == TRANSPARENT;
    }
    forall k | 1 <= k < 7 && Inside(layers[k].evidence.bounds, x, y)
      ensures Stacked(over, layers, 7, x, y)
        == over(layers[k].PixelAt(x, y), over(layers[0].PixelAt(x, y), TRANSPARENT))
    {
      forall j | 1 <= j < 7 && j != k
        ensures !Inside(layers[j].evidence.bounds, x, y)
      {
        var all := Layout(logo, productUi, logoSize, productUiSize);
        assert Disjoint(all[if j < k then j else k].bounds, all[if j < k then k else j].bounds);
      }
      StackedAbove(over, layers, k, x, y, 1);
      StackedAbove(over, layers, 7, x, y, k + 1);
    }
    if forall k :: 1 <= k < 7 ==> !Inside(layers[k].evidence.bounds, x, y) {
      StackedAbove(over, layers, 7, x, y, 1);
    }
  }
}
