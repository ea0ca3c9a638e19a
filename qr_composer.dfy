/** QRComposer: draws the QR image so that it covers the canvas, and lays a
    background image over it at a rectangle given as fractions of the canvas,
    rotated and scaled about an anchor inside the background image. */
module QRComposer {
  import opened Arith
  import opened JavaMath
  import opened Geometry
  import opened AffineTransforms
  import opened Imaging

  /** The normalized placement of the background image. `rotation` holds
      cos and sin of `Math.toRadians(rotation degrees)`; a positive angle
      turns clockwise on the y-down canvas. */
  datatype Transform = Transform(
    normX: real,      // left edge, as a fraction of the canvas width
    normY: real,      // top edge, as a fraction of the canvas height
    normW: real,      // width, as a fraction of the canvas width
    rotation: Angle,
    anchorAx: real,   // pivot, as a fraction of the background's width
    anchorAy: real,   // pivot, as a fraction of the background's height
    opacity: real)

  /** A `Transform` as `new Transform()` leaves it: every double field is 0,
      so the rotation is 0 degrees and the anchor is the background's
      top-left corner (not the centre that the field's comment names), and
      the opacity is 1. */
  const DefaultTransform := Transform(0.0, 0.0, 0.0, NoRotation, 0.0, 0.0, 1.0)

  // ---------------------------------------------------------------------
  // Base fill (drawImageCenteredFill)
  // ---------------------------------------------------------------------

  /** The drawn size and top-left pixel of the base image. */
  datatype Fill = Fill(drawW: int, drawH: int, offsetX: int, offsetY: int)

  /** The size and position at which `drawImageCenteredFill` draws `img`
      on a `canvasW` x `canvasH` canvas. */
  function CenteredFill(img: Image, canvasW: int, canvasH: int): Fill
    requires canvasW > 0 && canvasH > 0
  {
    var imgAspect := img.width as real / img.height as real;
    var canvasAspect := canvasW as real / canvasH as real;
    var drawW := if imgAspect > canvasAspect then Round(canvasH as real * imgAspect) else canvasW;
    var drawH := if imgAspect > canvasAspect then canvasH else Round(canvasW as real / imgAspect);
    Fill(drawW, drawH, Div(canvasW - drawW, 2), Div(canvasH - drawH, 2))
  }

  /** Cover with the aspect ratio kept: an image wider than the canvas
      (`w / h` compared) is fitted to the canvas height and its width is
      `canvasH * w / h` rounded, which is at least the canvas width; any
      other image is fitted to the canvas width and its height is
      `canvasW * h / w` rounded, at least the canvas height. The roundings
      are stated in integers: `2 * canvasH * w` lies in
      `[h * (2 drawW - 1), h * (2 drawW + 1))`. */
  lemma CenteredFillCovers(img: Image, canvasW: int, canvasH: int)
    requires canvasW > 0 && canvasH > 0
    ensures var f := CenteredFill(img, canvasW, canvasH);
            img.width * canvasH > canvasW * img.height ==>
              && f.drawH == canvasH && f.drawW >= canvasW
              && img.height * (2 * f.drawW - 1) <= 2 * (canvasH * img.width) < img.height * (2 * f.drawW + 1)
    ensures var f := CenteredFill(img, canvasW, canvasH);
            img.width * canvasH <= canvasW * img.height ==>
              && f.drawW == canvasW && f.drawH >= canvasH
              && img.width * (2 * f.drawH - 1) <= 2 * (canvasW * img.height) < img.width * (2 * f.drawH + 1)
  {
    var f := CenteredFill(img, canvasW, canvasH);
    FitBranches(img.width, img.height, canvasW, canvasH, f.drawW, f.drawH);
  }

  /** The size chosen by `drawImageCenteredFill`, with its aspect test and
      its two roundings named. */
  lemma FitBranches(iw: int, ih: int, canvasW: int, canvasH: int, drawW: int, drawH: int)
    requires iw > 0 && ih > 0 && canvasW > 0 && canvasH > 0
    requires var imgAspect, canvasAspect := iw as real / ih as real, canvasW as real / canvasH as real;
             && drawW == (if imgAspect > canvasAspect then Round(canvasH as real * imgAspect) else canvasW)
             && drawH == (if imgAspect > canvasAspect then canvasH else Round(canvasW as real / imgAspect))
    ensures iw * canvasH > canvasW * ih ==>
              drawH == canvasH && drawW >= canvasW && ih * (2 * drawW - 1) <= 2 * (canvasH * iw) < ih * (2 * drawW + 1)
    ensures iw * canvasH <= canvasW * ih ==>
              drawW == canvasW && drawH >= canvasH && iw * (2 * drawH - 1) <= 2 * (canvasW * ih) < iw * (2 * drawH + 1)
  {
    AspectComparison(iw, ih, canvasW, canvasH);
    if iw * canvasH > canvasW * ih {
      WideFit(iw, ih, canvasW, canvasH, drawW);
    } else {
      TallFit(iw, ih, canvasW, canvasH, drawH);
    }
  }

  /** The wide branch: `r == Math.round(canvasH * (w / h))` covers the canvas
      width and is stated in integers. */
  lemma WideFit(iw: int, ih: int, canvasW: int, canvasH: int, r: int)
    requires iw > 0 && ih > 0 && iw * canvasH > canvasW * ih
    requires r == Round(canvasH as real * (iw as real / ih as real))
    ensures r >= canvasW && ih * (2 * r - 1) <= 2 * (canvasH * iw) < ih * (2 * r + 1)
  {
    RoundTimesRatio(canvasH, iw, ih, r);
    RoundCovers(ih, canvasH * iw, canvasW, r);
  }

  /** The tall branch: `r == Math.round(canvasW / (w / h))` covers the
      canvas height and is stated in integers. */
  lemma TallFit(iw: int, ih: int, canvasW: int, canvasH: int, r: int)
    requires iw > 0 && ih > 0 && iw * canvasH <= canvasW * ih
    requires r == Round(canvasW as real / (iw as real / ih as real))
    ensures r >= canvasH && iw * (2 * r - 1) <= 2 * (canvasW * ih) < iw * (2 * r + 1)
  {
    RoundOverRatio(canvasW, iw, ih, r);
    RoundCovers(iw, canvasW * ih, canvasH, r);
  }

  /** A length `r` whose `h`-fold, rounded up by half a unit, exceeds an
      `n` that itself exceeds `c * h`, is at least `c`. */
  lemma RoundCovers(h: int, n: int, c: int, r: int)
    requires h > 0 && n >= c * h && h * (2 * r + 1) > 2 * n
    ensures r >= c
  {
    assert 2 * (c * h) == h * (2 * c);
    CancelPos(h, 2 * r + 1, 2 * c);
  }

  /** Centring: the image overflows the canvas on both sides, and the right
      (bottom) overflow is the left (top) one or one pixel more, because
      Java's `/` truncates the negative `canvasW - drawW` toward zero. */
  lemma CenteredFillIsCentred(img: Image, canvasW: int, canvasH: int)
    requires canvasW > 0 && canvasH > 0
    ensures var f := CenteredFill(img, canvasW, canvasH);
            && f.offsetX <= 0 && canvasW <= f.offsetX + f.drawW
            && 0 <= (f.offsetX + f.drawW - canvasW) - (-f.offsetX) <= 1
    ensures var f := CenteredFill(img, canvasW, canvasH);
            && f.offsetY <= 0 && canvasH <= f.offsetY + f.drawH
            && 0 <= (f.offsetY + f.drawH - canvasH) - (-f.offsetY) <= 1
  {
    var f := CenteredFill(img, canvasW, canvasH);
    CenteredFillCovers(img, canvasW, canvasH);
    CentredOverflow(canvasW, f.drawW);
    CentredOverflow(canvasH, f.drawH);
  }

  /** Centring a length `d` at least the canvas length `c` at
      `(c - d) / 2`, with Java's division. */
  lemma CentredOverflow(c: int, d: int)
    requires c <= d
    ensures var o := Div(c - d, 2);
            o <= 0 && c <= o + d && 0 <= (o + d - c) - (-o) <= 1
  {
  }

  /** Comparing `a / b` with `c / d` is comparing `a * d` with `c * b`. */
  lemma AspectComparison(a: int, b: int, c: int, d: int)
    requires b > 0 && d > 0
    ensures a as real / b as real > c as real / d as real <==> a * d > c * b
  {
    var p, q := a as real / b as real, c as real / d as real;
    var bd := b as real * d as real;
    MulPos(b as real, d as real);
    assert p * bd == a as real * d as real by {
      assert p * b as real == a as real;
    }
    assert q * bd == c as real * b as real by {
      assert q * d as real == c as real;
    }
    MulStrict(p, q, bd);
    CastMul(a, d);
    CastMul(c, b);
  }

  /** `r == Math.round(n * (a / b))`, cleared of the division. */
  lemma RoundTimesRatio(n: int, a: int, b: int, r: int)
    requires b > 0 && r == Round(n as real * (a as real / b as real))
    ensures b * (2 * r - 1) <= 2 * (n * a) < b * (2 * r + 1)
  {
    var x := n as real * (a as real / b as real);
    assert x * b as real == n as real * a as real by {
      assert (a as real / b as real) * b as real == a as real;
    }
    CastMul(n, a);
    RoundedQuotient(x, r, b, n * a);
  }

  /** `r == Math.round(n / (a / b))`, cleared of the divisions. */
  lemma RoundOverRatio(n: int, a: int, b: int, r: int)
    requires a > 0 && b > 0 && r == Round(n as real / (a as real / b as real))
    ensures a * (2 * r - 1) <= 2 * (n * b) < a * (2 * r + 1)
  {
    var ratio := a as real / b as real;
    var x := n as real / ratio;
    assert ratio * b as real == a as real;
    assert x * ratio == n as real;
    assert x * a as real == n as real * b as real by {
      assert x * a as real == (x * ratio) * b as real;
    }
    CastMul(n, b);
    RoundedQuotient(x, r, a, n * b);
  }

  /** `drawImageCenteredFill(g, img, canvasW, canvasH)`: one drawImage call
      with the current composite. */
  method DrawImageCenteredFill(g: Canvas, img: Image)
    requires g.Valid()
    modifies g
    ensures g.Valid() && g.alpha == old(g.alpha)
    ensures var f := CenteredFill(img, g.width, g.height);
            g.layers == old(g.layers) + [DrawScaled(img, f.offsetX, f.offsetY, f.drawW, f.drawH, old(g.alpha))]
  {
    var f := CenteredFill(img, g.width, g.height);
    g.DrawImageScaled(img, f.offsetX, f.offsetY, f.drawW, f.drawH);
  }

  // ---------------------------------------------------------------------
  // Overlay placement
  // ---------------------------------------------------------------------

  /** The background's target rectangle in whole canvas pixels. */
  datatype Placement = Placement(targetX: int, targetY: int, targetW: int, targetH: int)

  /** The target rectangle: each normalized coordinate scaled by the canvas
      and rounded to the nearest pixel, and the height chosen to keep the
      background's aspect ratio, also rounded. */
  function PlaceOverlay(bg: Image, canvasW: int, canvasH: int, t: Transform): (p: Placement)
    ensures t.normX * canvasW as real - 0.5 < p.targetX as real <= t.normX * canvasW as real + 0.5
    ensures t.normY * canvasH as real - 0.5 < p.targetY as real <= t.normY * canvasH as real + 0.5
    ensures t.normW * canvasW as real - 0.5 < p.targetW as real <= t.normW * canvasW as real + 0.5
  {
    var targetW := Round(t.normW * canvasW as real);
    var bgAspect := bg.height as real / bg.width as real;
    Placement(Round(t.normX * canvasW as real), Round(t.normY * canvasH as real), targetW, Round(targetW as real * bgAspect))
  }

  /** Aspect preservation up to rounding: targetH is the integer nearest to
      `targetW * bgH / bgW`, stated without division:
      `2 * targetW * bgH` lies in `[bgW * (2 targetH - 1), bgW * (2 targetH + 1))`. */
  lemma TargetHeightKeepsAspect(bg: Image, canvasW: int, canvasH: int, t: Transform)
    ensures var p := PlaceOverlay(bg, canvasW, canvasH, t);
            bg.width * (2 * p.targetH - 1) <= 2 * (p.targetW * bg.height) < bg.width * (2 * p.targetH + 1)
  {
    var p := PlaceOverlay(bg, canvasW, canvasH, t);
    RoundTimesRatio(p.targetW, bg.height, bg.width, p.targetH);
  }

  /** The pivot inside the background image, in its own pixels. */
  function SourceAnchor(bg: Image, t: Transform): Point
  {
    Point(t.anchorAx * bg.width as real, t.anchorAy * bg.height as real)
  }

  /** Where the pivot goes: the same fractions of the target rectangle. */
  function TargetAnchor(p: Placement, t: Transform): Point
  {
    Point(p.targetX as real + t.anchorAx * p.targetW as real, p.targetY as real + t.anchorAy * p.targetH as real)
  }

  /** The background's transform in closed form: scale the background to the
      target size, `targetW / bgW` across and `targetH / bgH` down, and turn
      it, both about the anchor, and put the anchor on the target anchor. */
  function OverlayMatrix(bg: Image, p: Placement, t: Transform): Matrix
  {
    PivotPlacement(SourceAnchor(bg, t), TargetAnchor(p, t), t.rotation,
                   p.targetW as real / bg.width as real, p.targetH as real / bg.height as real)
  }

  /** The calls `compose` makes on a new AffineTransform `tx`:
      `translate(x1, y1)`, `translate(x2, y2)`, `rotate`, `scale(sx, sy)`,
      `translate(u, v)`, with the matrix after each call. Each call
      post-concatenates its operation. */
  method TransformCalls(x1: real, y1: real, x2: real, y2: real, a: Angle, sx: real, sy: real, u: real, v: real)
    returns (m1: Matrix, m2: Matrix, m3: Matrix, m4: Matrix, m: Matrix)
    ensures m1 == Concatenate(Identity(), Translation(x1, y1))
    ensures m2 == Concatenate(m1, Translation(x2, y2))
    ensures m3 == Concatenate(m2, Rotation(a))
    ensures m4 == Concatenate(m3, Scaling(sx, sy))
    ensures m == Concatenate(m4, Translation(u, v))
  {
    var tx := new AffineTransform();
    tx.Translate(x1, y1);
    m1 := tx.Entries();
    tx.Translate(x2, y2);
    m2 := tx.Entries();
    tx.Rotate(a);
    m3 := tx.Entries();
    tx.Scale(sx, sy);
    m4 := tx.Entries();
    tx.Translate(u, v);
    m := tx.Entries();
  }

  /** The background's transform as `compose` builds it: to the target
      corner, to the anchor's place in the target rectangle
      (`anchorAx * targetW`, `anchorAy * targetH`), rotate, scale by
      `targetW / bgW` and `targetH / bgH`, and back by the anchor in the
      background's own pixels. It is the closed-form overlay placement. */
  method BuildOverlayTransform(bg: Image, p: Placement, t: Transform) returns (m: Matrix)
    ensures m == OverlayMatrix(bg, p, t)
  {
    var bgW, bgH := bg.width as real, bg.height as real;
    var x, y := p.targetX as real, p.targetY as real;
    var anchorPx := t.anchorAx * p.targetW as real;
    var anchorPy := t.anchorAy * p.targetH as real;
    var sx := p.targetW as real / bgW;
    var sy := p.targetH as real / bgH;
    var backX, backY := -t.anchorAx * bgW, -t.anchorAy * bgH;
    var m1, m2, m3, m4;
    m1, m2, m3, m4, m := TransformCalls(x, y, anchorPx, anchorPy, t.rotation, sx, sy, backX, backY);
    NegLeft(t.anchorAx, bgW);
    NegLeft(t.anchorAy, bgH);
    assert TargetAnchor(p, t) == Point(x + anchorPx, y + anchorPy);
    AnchorChainIsPivotPlacement(m1, m2, m3, m4, m, SourceAnchor(bg, t), x, y, anchorPx, anchorPy, t.rotation, sx, sy, backX, backY);
  }

  /** Anchor invariance: whatever the rotation, the anchor of the background
      lands on the same fractions of the target rectangle. */
  lemma AnchorStaysPut(bg: Image, p: Placement, t: Transform)
    ensures Apply(OverlayMatrix(bg, p, t), SourceAnchor(bg, t)) == TargetAnchor(p, t)
  {
    PivotPlacementFixesPivot(SourceAnchor(bg, t), TargetAnchor(p, t), t.rotation,
                             p.targetW as real / bg.width as real, p.targetH as real / bg.height as real);
  }

  /** At rotation 0 the transform has no shear, whatever the anchor: every
      background pixel `q` goes to the target corner plus `q` scaled by
      `targetW / bgW` and `targetH / bgH`, so the background's corners
      `(0, 0)` and `(bgW, bgH)` land on the target rectangle's corners. */
  lemma UnrotatedFillsTarget(bg: Image, p: Placement, t: Transform, q: Point)
    requires t.rotation == NoRotation
    ensures var m := OverlayMatrix(bg, p, t);
            m.m01 == 0.0 && m.m10 == 0.0
    ensures Apply(OverlayMatrix(bg, p, t), q)
         == Point(p.targetX as real + q.x * (p.targetW as real / bg.width as real),
                  p.targetY as real + q.y * (p.targetH as real / bg.height as real))
    ensures Apply(OverlayMatrix(bg, p, t), Point(0.0, 0.0)) == Point(p.targetX as real, p.targetY as real)
    ensures Apply(OverlayMatrix(bg, p, t), Point(bg.width as real, bg.height as real))
         == Point((p.targetX + p.targetW) as real, (p.targetY + p.targetH) as real)
  {
    var sx, sy := p.targetW as real / bg.width as real, p.targetH as real / bg.height as real;
    var src, dst := SourceAnchor(bg, t), TargetAnchor(p, t);
    PivotPlacementMaps(src, dst, t.rotation, sx, sy, q);
    UnscaledOffset(t.anchorAx, p.targetW, bg.width, q.x);
    UnscaledOffset(t.anchorAy, p.targetH, bg.height, q.y);
    PivotPlacementMaps(src, dst, t.rotation, sx, sy, Point(0.0, 0.0));
    UnscaledOffset(t.anchorAx, p.targetW, bg.width, 0.0);
    UnscaledOffset(t.anchorAy, p.targetH, bg.height, 0.0);
    PivotPlacementMaps(src, dst, t.rotation, sx, sy, Point(bg.width as real, bg.height as real));
    UnscaledOffset(t.anchorAx, p.targetW, bg.width, bg.width as real);
    UnscaledOffset(t.anchorAy, p.targetH, bg.height, bg.height as real);
  }

  /** One axis of an unrotated placement: the anchor fraction cancels. */
  lemma UnscaledOffset(f: real, target: int, size: int, u: real)
    requires size > 0
    ensures var s := target as real / size as real;
            f * target as real + 1.0 * s * (u - f * size as real) == u * s
  {
    var s := target as real / size as real;
    assert s * size as real == target as real;
    assert s * (u - f * size as real) == u * s - f * (s * size as real);
  }

  /** The two scale factors differ by at most `1 / (2 * bgH)`, half a pixel
      of the background's height: `targetW / bgW` lies in
      `[targetH / bgH - 1 / (2 * bgH), targetH / bgH + 1 / (2 * bgH))`, the
      lower end reached at a rounding tie, so the background is stretched
      only by the rounding of targetH. */
  lemma ScalesAgree(bg: Image, canvasW: int, canvasH: int, t: Transform)
    ensures var p := PlaceOverlay(bg, canvasW, canvasH, t);
            var sx, sy := p.targetW as real / bg.width as real, p.targetH as real / bg.height as real;
            sy - 1.0 / (2.0 * bg.height as real) <= sx < sy + 1.0 / (2.0 * bg.height as real)
  {
    var p := PlaceOverlay(bg, canvasW, canvasH, t);
    TargetHeightKeepsAspect(bg, canvasW, canvasH, t);
    CastMul(bg.width, 2 * p.targetH - 1);
    CastMul(bg.width, 2 * p.targetH + 1);
    CastMul(p.targetW, bg.height);
    BandDivided(bg.width as real, bg.height as real, p.targetW as real, p.targetH as real);
  }

  /** `W * (2 TH - 1) <= 2 TW H < W * (2 TH + 1)`, divided by `2 W H`. */
  lemma BandDivided(w: real, h: real, tw: real, th: real)
    requires w > 0.0 && h > 0.0
    requires w * (2.0 * th - 1.0) <= 2.0 * (tw * h) < w * (2.0 * th + 1.0)
    ensures th / h - 1.0 / (2.0 * h) <= tw / w < th / h + 1.0 / (2.0 * h)
  {
    var sx, sy, e := tw / w, th / h, 1.0 / (2.0 * h);
    var k := 2.0 * w * h;
    MulPos(2.0 * w, h);
    assert sx * w == tw && sy * h == th && e * (2.0 * h) == 1.0;
    assert sx * k == 2.0 * (tw * h) by {
      assert sx * k == 2.0 * (sx * w) * h;
    }
    assert (sy - e) * k == w * (2.0 * th - 1.0) by {
      assert (sy - e) * k == 2.0 * w * (sy * h) - w * (e * (2.0 * h));
    }
    assert (sy + e) * k == w * (2.0 * th + 1.0) by {
      assert (sy + e) * k == 2.0 * w * (sy * h) + w * (e * (2.0 * h));
    }
    MulStrict(sy - e, sx, k);
    MulStrict(sy + e, sx, k);
  }

  /** The placement computed for the example in `main`: a 1024 x 1024
      canvas, normX 0.2, normY 0.25, normW 0.4, and a 400 x 200 background. */
  lemma MainExamplePlacement(t: Transform)
    requires t.normX == 0.2 && t.normY == 0.25 && t.normW == 0.4
    ensures PlaceOverlay(Image(400, 200), 1024, 1024, t) == Placement(205, 256, 410, 205)
  {
    assert Round(0.2 * 1024.0) == 205;
    assert Round(0.25 * 1024.0) == 256;
    assert Round(0.4 * 1024.0) == 410;
    assert Round(410.0 * (200.0 / 400.0)) == 205;
  }

  // ---------------------------------------------------------------------
  // Opacity
  // ---------------------------------------------------------------------

  /** The composite alpha for the background: the opacity clamped to
      [0, 1] when it is below 1 (`AlphaComposite.getInstance`), and 1
      otherwise (`AlphaComposite.SrcOver`). It is always an alpha that
      `getInstance` accepts. */
  function CompositeAlpha(opacity: real): (a: real)
    ensures 0.0 <= a <= 1.0 && AlphaInstance(a) == Ok(a)
    ensures 0.0 <= opacity <= 1.0 ==> a == opacity
    ensures opacity < 0.0 ==> a == 0.0
    ensures opacity > 1.0 ==> a == 1.0
  {
    if opacity < 1.0 then Max(0.0, Min(1.0, opacity)) else 1.0
  }

  /** A caller that sets no field gets the SrcOver composite, and the
      background turns and scales about its top-left corner, which goes to
      the target rectangle's top-left corner. */
  lemma DefaultTransformPivotsAtCorner(bg: Image, p: Placement)
    ensures CompositeAlpha(DefaultTransform.opacity) == 1.0
    ensures SourceAnchor(bg, DefaultTransform) == Point(0.0, 0.0)
    ensures TargetAnchor(p, DefaultTransform) == Point(p.targetX as real, p.targetY as real)
    ensures Apply(OverlayMatrix(bg, p, DefaultTransform), Point(0.0, 0.0)) == Point(p.targetX as real, p.targetY as real)
  {
    var t := DefaultTransform;
    assert t.anchorAx * bg.width as real == 0.0 && t.anchorAy * bg.height as real == 0.0;
    assert t.anchorAx * p.targetW as real == 0.0 && t.anchorAy * p.targetH as real == 0.0;
    AnchorStaysPut(bg, p, t);
  }

  // ---------------------------------------------------------------------
  // compose
  // ---------------------------------------------------------------------

  /** `compose(qrImageStream, bgImageStream, canvasWidth, canvasHeight, t)`,
      given what `ImageIO.read` made of the two streams. It fails on an
      unreadable QR image, then on an unreadable background, then on a
      canvas size `new BufferedImage` refuses. Otherwise the canvas has the
      requested size, the QR image covers it at full alpha, and the
      background lies on top of it, placed by the overlay transform at the
      clamped opacity. */
  method Compose(qrImg: Option<Image>, bgImg: Option<Image>, canvasWidth: int, canvasHeight: int, t: Transform)
    returns (r: Result<Rendering>)
    ensures qrImg.None? ==> r == Err(UnreadableQrImage)
    ensures qrImg.Some? && bgImg.None? ==> r == Err(UnreadableBackgroundImage)
    ensures qrImg.Some? && bgImg.Some? && (canvasWidth <= 0 || canvasHeight <= 0) ==> r == Err(NonPositiveCanvas)
    ensures qrImg.Some? && bgImg.Some? && canvasWidth > 0 && canvasHeight > 0 ==>
              var f := CenteredFill(qrImg.value, canvasWidth, canvasHeight);
              var bg := bgImg.value;
              r == Ok(Rendering(canvasWidth, canvasHeight,
                        [DrawScaled(qrImg.value, f.offsetX, f.offsetY, f.drawW, f.drawH, 1.0),
                         DrawTransformed(bg, OverlayMatrix(bg, PlaceOverlay(bg, canvasWidth, canvasHeight, t), t),
                                         CompositeAlpha(t.opacity))]))
  {
    if qrImg.None? {
      return Err(UnreadableQrImage);
    }
    if bgImg.None? {
      return Err(UnreadableBackgroundImage);
    }
    if canvasWidth <= 0 || canvasHeight <= 0 {
      return Err(NonPositiveCanvas);
    }
    var qr, bg := qrImg.value, bgImg.value;
    var g := new Canvas(canvasWidth, canvasHeight);
    DrawImageCenteredFill(g, qr);
    ghost var f := CenteredFill(qr, canvasWidth, canvasHeight);
    ghost var base := g.layers;
    assert base == [DrawScaled(qr, f.offsetX, f.offsetY, f.drawW, f.drawH, 1.0)];
    var p := PlaceOverlay(bg, canvasWidth, canvasHeight, t);
    var tx := BuildOverlayTransform(bg, p, t);
    if t.opacity < 1.0 {
      var alpha := AlphaInstance(Max(0.0, Min(1.0, t.opacity)));
      g.SetComposite(alpha.value);
    } else {
      g.SetComposite(AlphaInstance(1.0).value);
    }
    assert g.alpha == CompositeAlpha(t.opacity) && g.layers == base;
    g.DrawImage(bg, tx);
    assert g.layers == [DrawScaled(qr, f.offsetX, f.offsetY, f.drawW, f.drawH, 1.0),
                        DrawTransformed(bg, tx, CompositeAlpha(t.opacity))];
    assert g.width == canvasWidth && g.height == canvasHeight;
    return Ok(g.Snapshot());
  }
}
