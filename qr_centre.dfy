/** QrCentre (class `QrComposer` in package com.example.qr): draws a
    background image, placed relative to a fixed-size QR square centred in
    the canvas and rotated about its own centre, and then the QR image on top
    of it in that square. */
module QrCentre {
  import opened JavaMath
  import opened Geometry
  import opened AffineTransforms
  import opened Imaging

  /** The `transform` entry of the parameter map. `rotation` holds cos and
      sin of `Math.toRadians(rotation degrees)`. `anchorAx` and `anchorAy`
      may be present in the map but are never read. */
  datatype TransformParams = TransformParams(
    relX: real,       // left edge, as a fraction of qrSizePx, from the QR square's left edge
    relY: real,       // top edge, likewise
    relW: real,       // width, as a fraction of qrSizePx
    rotation: Angle,
    anchorAx: real,
    anchorAy: real,
    opacity: real)

  /** The parameter map `params`. */
  datatype Params = Params(canvasWidth: int, canvasHeight: int, qrSizePx: int, transform: TransformParams)

  /** The QR square's corner and the background's box, before rotation. */
  datatype Layout = Layout(qrX: int, qrY: int, bgX: real, bgY: real, bgTargetW: real, bgTargetH: real, scale: real)

  /** The layout `compose` computes: the QR square of side qrSizePx centred
      with Java's truncating `/`, and the background's box measured against
      that square; its height follows from one scale factor on both axes. */
  function LayoutOf(bg: Image, p: Params): Layout
  {
    var qrSize := p.qrSizePx;
    var t := p.transform;
    var bgTargetW := qrSize as real * t.relW;
    var scale := bgTargetW / bg.width as real;
    var bgTargetH := bg.height as real * scale;
    var qrX := Div(p.canvasWidth - qrSize, 2);
    var qrY := Div(p.canvasHeight - qrSize, 2);
    Layout(qrX, qrY, qrX as real + t.relX * qrSize as real, qrY as real + t.relY * qrSize as real,
           bgTargetW, bgTargetH, scale)
  }

  /** The QR square is centred: its left and right margins (top and bottom)
      differ by at most one pixel. When the square fits, the extra pixel of
      an odd margin is on the right; when it overhangs, Java's `/` truncates
      toward zero and the extra pixel of overhang is on the right too. */
  lemma QrSquareIsCentred(bg: Image, p: Params)
    ensures var l, d := LayoutOf(bg, p), p.canvasWidth - p.qrSizePx;
            var left, right := l.qrX, p.canvasWidth - (l.qrX + p.qrSizePx);
            (d >= 0 ==> 0 <= right - left <= 1) && (d < 0 ==> -1 <= right - left <= 0)
    ensures var l, d := LayoutOf(bg, p), p.canvasHeight - p.qrSizePx;
            var top, bottom := l.qrY, p.canvasHeight - (l.qrY + p.qrSizePx);
            (d >= 0 ==> 0 <= bottom - top <= 1) && (d < 0 ==> -1 <= bottom - top <= 0)
  {
    var l := LayoutOf(bg, p);
    assert l.qrX == Div(p.canvasWidth - p.qrSizePx, 2);
    assert l.qrY == Div(p.canvasHeight - p.qrSizePx, 2);
  }

  /** The background's box is measured against the QR square: its corner is
      `relX`, `relY` square-sides from the square's corner and its width is
      `relW` square-sides, wherever the square sits in the canvas; and the
      box keeps the background's aspect ratio exactly, with the one factor
      `scale` taking the background's width to the box's width. */
  lemma LayoutMeasuredAgainstSquare(bg: Image, p: Params)
    ensures var l, q, t := LayoutOf(bg, p), p.qrSizePx as real, p.transform;
            && l.bgX - l.qrX as real == t.relX * q
            && l.bgY - l.qrY as real == t.relY * q
            && l.bgTargetW == t.relW * q
    ensures var l := LayoutOf(bg, p);
            && ScalesImage(l, bg)
            && l.bgTargetH * bg.width as real == l.bgTargetW * bg.height as real
  {
    var l := LayoutOf(bg, p);
    var w, h := bg.width as real, bg.height as real;
    assert l.scale * w == l.bgTargetW;
    assert l.bgTargetH * w == h * (l.scale * w);
  }

  /** The centre of the background image, in its own pixels. */
  function SourceCentre(bg: Image): Point
  {
    Point(bg.width as real / 2.0, bg.height as real / 2.0)
  }

  /** The centre of the background's box on the canvas. */
  function BoxCentre(l: Layout): Point
  {
    Point(l.bgX + l.bgTargetW / 2.0, l.bgY + l.bgTargetH / 2.0)
  }

  /** The layout's scale takes the background's width and height to the
      box's. */
  ghost predicate ScalesImage(l: Layout, bg: Image)
  {
    l.scale * bg.width as real == l.bgTargetW && l.scale * bg.height as real == l.bgTargetH
  }

  /** The background's transform in closed form: scale uniformly by `scale`
      and turn by `a`, both about the background's centre, and put that
      centre on the box's centre. */
  function OverlayMatrix(bg: Image, l: Layout, a: Angle): Matrix
  {
    PivotPlacement(SourceCentre(bg), BoxCentre(l), a, l.scale, l.scale)
  }

  /** The calls `compose` makes on a new AffineTransform `tx`:
      `translate(x, y)`, `rotate(theta, px, py)`, `scale(k, k)`. */
  method TransformCalls(x: real, y: real, a: Angle, px: real, py: real, k: real) returns (m: Matrix)
    ensures m == Concatenate(Concatenate(Concatenate(Concatenate(Concatenate(
                   Identity(), Translation(x, y)), Translation(px, py)), Rotation(a)), Translation(-px, -py)), Scaling(k, k))
  {
    var tx := new AffineTransform();
    tx.Translate(x, y);
    tx.RotateAbout(a, px, py);
    tx.Scale(k, k);
    m := tx.Entries();
  }

  /** The background's transform as `compose` builds it: to the box's
      corner, rotate by `a` about the box's centre
      `(bgTargetW / 2, bgTargetH / 2)`, scale by `scale` on both axes. It is
      the closed-form overlay placement. */
  method BuildOverlayTransform(bg: Image, l: Layout, a: Angle) returns (m: Matrix)
    requires ScalesImage(l, bg)
    ensures m == OverlayMatrix(bg, l, a)
  {
    var px, py := l.bgTargetW / 2.0, l.bgTargetH / 2.0;
    m := TransformCalls(l.bgX, l.bgY, a, px, py, l.scale);
    ghost var m1 := Concatenate(Identity(), Translation(l.bgX, l.bgY));
    ghost var m2 := Concatenate(m1, Translation(px, py));
    ghost var m3 := Concatenate(m2, Rotation(a));
    ghost var m4 := Concatenate(m3, Translation(-px, -py));
    HalfScaled(l.scale, bg.width as real, l.bgTargetW);
    HalfScaled(l.scale, bg.height as real, l.bgTargetH);
    CentreChainIsPivotPlacement(m1, m2, m3, m4, m, SourceCentre(bg), l.bgX, l.bgY, px, py, a, l.scale);
  }

  /** Half of a scaled length is the scaled half. */
  lemma HalfScaled(k: real, size: real, target: real)
    requires k * size == target
    ensures k * (size / 2.0) == target / 2.0
  {
  }

  /** Centre invariance: whatever the rotation, the background's centre
      lands on the centre of its box. */
  lemma CentreStaysPut(bg: Image, l: Layout, a: Angle)
    ensures Apply(OverlayMatrix(bg, l, a), SourceCentre(bg)) == BoxCentre(l)
  {
    PivotPlacementFixesPivot(SourceCentre(bg), BoxCentre(l), a, l.scale, l.scale);
  }

  /** At rotation 0 every background pixel `q` goes to the box's corner plus
      `q` scaled by `scale`. */
  lemma UnrotatedMaps(bg: Image, l: Layout, q: Point)
    requires ScalesImage(l, bg)
    ensures Apply(OverlayMatrix(bg, l, NoRotation), q) == Point(l.bgX + l.scale * q.x, l.bgY + l.scale * q.y)
  {
    PivotPlacementMaps(SourceCentre(bg), BoxCentre(l), NoRotation, l.scale, l.scale, q);
    CentredAxis(l.scale, bg.width as real, l.bgTargetW, q.x);
    CentredAxis(l.scale, bg.height as real, l.bgTargetH, q.y);
  }

  /** At rotation 0 the background's corners `(0, 0)` and `(bgW, bgH)` land
      on the box's corners. */
  lemma UnrotatedFillsBox(bg: Image, l: Layout)
    requires ScalesImage(l, bg)
    ensures Apply(OverlayMatrix(bg, l, NoRotation), Point(0.0, 0.0)) == Point(l.bgX, l.bgY)
    ensures Apply(OverlayMatrix(bg, l, NoRotation), Point(bg.width as real, bg.height as real))
         == Point(l.bgX + l.bgTargetW, l.bgY + l.bgTargetH)
  {
    var origin, corner := Point(0.0, 0.0), Point(bg.width as real, bg.height as real);
    UnrotatedMaps(bg, l, origin);
    UnrotatedMaps(bg, l, corner);
    assert l.scale * origin.x == 0.0 && l.scale * origin.y == 0.0;
    assert l.scale * corner.x == l.bgTargetW && l.scale * corner.y == l.bgTargetH;
  }

  /** One axis of an unrotated centre placement: the two halves cancel. */
  lemma CentredAxis(k: real, size: real, target: real, u: real)
    requires k * size == target
    ensures k * (u - size / 2.0) == k * u - target / 2.0
  {
  }

  /** The background keeps its shape: for a true rotation every distance
      between background pixels is multiplied by `|scale|`. */
  lemma OverlayIsSimilarity(bg: Image, l: Layout, a: Angle, q1: Point, q2: Point)
    requires a.IsUnit()
    ensures Dist2(Apply(OverlayMatrix(bg, l, a), q1), Apply(OverlayMatrix(bg, l, a), q2)) == l.scale * l.scale * Dist2(q1, q2)
  {
    UniformPlacementIsSimilarity(SourceCentre(bg), BoxCentre(l), a, l.scale, q1, q2);
  }

  /** The anchor entries of the map change nothing: two parameter maps that
      differ only in `anchorAx` and `anchorAy` give the same layout and the
      same transform. */
  lemma AnchorsIgnored(bg: Image, p: Params, ax: real, ay: real)
    ensures var p' := p.(transform := p.transform.(anchorAx := ax, anchorAy := ay));
            var l, l' := LayoutOf(bg, p), LayoutOf(bg, p');
            l' == l && OverlayMatrix(bg, l', p'.transform.rotation) == OverlayMatrix(bg, l, p.transform.rotation)
  {
    var p' := p.(transform := p.transform.(anchorAx := ax, anchorAy := ay));
    assert p'.canvasWidth == p.canvasWidth && p'.canvasHeight == p.canvasHeight && p'.qrSizePx == p.qrSizePx;
    assert p'.transform.relX == p.transform.relX && p'.transform.relY == p.transform.relY;
    assert p'.transform.relW == p.transform.relW && p'.transform.rotation == p.transform.rotation;
    var l, l' := LayoutOf(bg, p), LayoutOf(bg, p');
    assert l'.qrX == l.qrX && l'.qrY == l.qrY;
    assert l'.bgTargetW == l.bgTargetW && l'.scale == l.scale && l'.bgTargetH == l.bgTargetH;
    assert l'.bgX == l.bgX && l'.bgY == l.bgY;
  }

  /** The example in `main`: a 1024 x 1024 canvas, qrSizePx 720, relX 0.10,
      relY 0.15 and relW 0.35. For a 400 x 200 background the box is
      252 x 126 and its centre, where the background's centre goes at every
      rotation, is (350, 323). */
  lemma MainExample(bg: Image, t: TransformParams)
    requires t.relX == 0.10 && t.relY == 0.15 && t.relW == 0.35
    ensures var l := LayoutOf(bg, Params(1024, 1024, 720, t));
            l.qrX == 152 && l.qrY == 152 && l.bgX == 224.0 && l.bgY == 260.0 && l.bgTargetW == 252.0
    ensures bg == Image(400, 200) ==>
              var p := Params(1024, 1024, 720, t);
              var l := LayoutOf(bg, p);
              l.bgTargetH == 126.0 && Apply(OverlayMatrix(bg, l, t.rotation), Point(200.0, 100.0)) == Point(350.0, 323.0)
  {
    var p := Params(1024, 1024, 720, t);
    assert Div(1024 - 720, 2) == 152;
    if bg == Image(400, 200) {
      var l := LayoutOf(bg, p);
      assert l.scale == 0.63;
      CentreStaysPut(bg, l, t.rotation);
    }
  }

  /** `compose(qrImg, bgImg, params)`. It fails on a canvas size
      `new BufferedImage` refuses, and then on an opacity that
      `AlphaComposite.getInstance` refuses; the opacity is not clamped.
      Otherwise the canvas has the requested size and holds two layers: the
      background at the given opacity, placed by the overlay transform, and
      on top of it the QR image at full alpha, drawn at `qrSizePx` x
      `qrSizePx` in the centred square. */
  method Compose(qrImg: Image, bgImg: Image, p: Params) returns (r: Result<Rendering>)
    ensures p.canvasWidth <= 0 || p.canvasHeight <= 0 ==> r == Err(NonPositiveCanvas)
    ensures p.canvasWidth > 0 && p.canvasHeight > 0 && !(0.0 <= p.transform.opacity <= 1.0) ==> r == Err(AlphaOutOfRange)
    ensures p.canvasWidth > 0 && p.canvasHeight > 0 && 0.0 <= p.transform.opacity <= 1.0 ==>
              var l := LayoutOf(bgImg, p);
              r == Ok(Rendering(p.canvasWidth, p.canvasHeight,
                        [DrawTransformed(bgImg, OverlayMatrix(bgImg, l, p.transform.rotation), p.transform.opacity),
                         DrawScaled(qrImg, l.qrX, l.qrY, p.qrSizePx, p.qrSizePx, 1.0)]))
  {
    var canvasW, canvasH, qrSize := p.canvasWidth, p.canvasHeight, p.qrSizePx;
    if canvasW <= 0 || canvasH <= 0 {
      return Err(NonPositiveCanvas);
    }
    var g := new Canvas(canvasW, canvasH);
    // 1. the background, with the transform
    var layout := LayoutOf(bgImg, p);
    LayoutMeasuredAgainstSquare(bgImg, p);
    var tx := BuildOverlayTransform(bgImg, layout, p.transform.rotation);
    var composite := AlphaInstance(p.transform.opacity);
    if composite.Err? {
      return Err(composite.error);
    }
    g.SetComposite(composite.value);
    g.DrawImage(bgImg, tx);
    // 2. the QR image, in the centred square
    var qrDrawX := Div(canvasW - qrSize, 2);
    var qrDrawY := Div(canvasH - qrSize, 2);
    g.SetComposite(1.0);
    g.DrawImageScaled(qrImg, qrDrawX, qrDrawY, qrSize, qrSize);
    assert g.layers == [DrawTransformed(bgImg, tx, p.transform.opacity), DrawScaled(qrImg, layout.qrX, layout.qrY, qrSize, qrSize, 1.0)];
    return Ok(g.Snapshot());
  }
}
