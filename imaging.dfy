/** Decoded images, the drawing calls a composer makes on a java.awt
    Graphics2D, the canvas they are made on, and the ways a composition fails. */
module Imaging {
  import opened Geometry

  /** A strictly positive pixel count. */
  type Pos = n: int | n > 0 witness 1

  /** A decoded BufferedImage; a BufferedImage always has a positive size.
      Its pixels are not modelled. */
  datatype Image = Image(width: Pos, height: Pos)

  /** `ImageIO.read` returns `null` when it cannot decode its input. */
  datatype Option<T> = None | Some(value: T)

  datatype Error =
    | UnreadableQrImage          // IOException "Could not read qr image"
    | UnreadableBackgroundImage  // IOException "Could not read background image"
    | NonPositiveCanvas          // IllegalArgumentException from new BufferedImage(w, h, type)
    | AlphaOutOfRange            // IllegalArgumentException from AlphaComposite.getInstance

  datatype Result<T> = Ok(value: T) | Err(error: Error)

  /** One drawing call, with the SRC_OVER alpha in force when it was made. */
  datatype DrawOp =
    | DrawTransformed(image: Image, transform: Matrix, alpha: real)
      // g.drawImage(img, xform, null)
    | DrawScaled(image: Image, x: int, y: int, width: int, height: int, alpha: real)
      // g.drawImage(img, x, y, width, height, null)

  /** A finished canvas: its size and its drawing calls, first call first, so
      that a later layer lies on top of an earlier one. */
  datatype Rendering = Rendering(width: int, height: int, layers: seq<DrawOp>)

  /** `AlphaComposite.getInstance(SRC_OVER, alpha)`: it accepts exactly the
      alphas in [0, 1]. */
  function AlphaInstance(alpha: real): (r: Result<real>)
    ensures r.Ok? <==> 0.0 <= alpha <= 1.0
    ensures r.Ok? ==> r.value == alpha
    ensures r.Err? ==> r.error == AlphaOutOfRange
  {
    if 0.0 <= alpha <= 1.0 then Ok(alpha) else Err(AlphaOutOfRange)
  }

  /** A TYPE_INT_ARGB BufferedImage together with the Graphics2D drawing on
      it: the Graphics2D keeps the current composite's alpha, and every
      drawImage call is recorded with that alpha. */
  class Canvas {
    const width: int
    const height: int
    var alpha: real
    var layers: seq<DrawOp>

    ghost predicate Valid()
      reads this
    {
      && width > 0 && height > 0
      && 0.0 <= alpha <= 1.0
      && forall i :: 0 <= i < |layers| ==> 0.0 <= layers[i].alpha <= 1.0
    }

    /** `new BufferedImage(w, h, TYPE_INT_ARGB)` followed by
        `createGraphics()`: blank, with the default SrcOver composite of
        alpha 1. */
    constructor (w: int, h: int)
      requires w > 0 && h > 0
      ensures Valid()
      ensures width == w && height == h && alpha == 1.0 && layers == []
    {
      width, height := w, h;
      alpha, layers := 1.0, [];
    }

    /** `g.setComposite(AlphaComposite.getInstance(SRC_OVER, a))`;
        `AlphaComposite.SrcOver` is the instance with a == 1. */
    method SetComposite(a: real)
      requires Valid() && 0.0 <= a <= 1.0
      modifies this
      ensures Valid()
      ensures alpha == a && layers == old(layers)
    {
      alpha := a;
    }

    /** `g.drawImage(img, m, null)`. */
    method DrawImage(img: Image, m: Matrix)
      requires Valid()
      modifies this
      ensures Valid()
      ensures alpha == old(alpha) && layers == old(layers) + [DrawTransformed(img, m, old(alpha))]
    {
      layers := layers + [DrawTransformed(img, m, alpha)];
    }

    /** `g.drawImage(img, x, y, w, h, null)`. */
    method DrawImageScaled(img: Image, x: int, y: int, w: int, h: int)
      requires Valid()
      modifies this
      ensures Valid()
      ensures alpha == old(alpha) && layers == old(layers) + [DrawScaled(img, x, y, w, h, old(alpha))]
    {
      layers := layers + [DrawScaled(img, x, y, w, h, alpha)];
    }

    /** The finished canvas. */
    function Snapshot(): Rendering
      reads this
    {
      Rendering(width, height, layers)
    }
  }
}
