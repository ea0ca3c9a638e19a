# QR image composer: a Dafny model

The repository composes two raster images on one canvas. The base layer is a
QR code. The overlay is a decorative background or logo, placed with
normalized position, width, rotation and opacity. There are two variants:

- `QRComposer.compose` draws the QR image so that it covers the whole canvas,
  keeping its aspect ratio and centring it. It then lays the background on
  top. The background sits in a target rectangle given as fractions of the
  canvas, rounded to whole pixels. It is rotated and scaled about an anchor
  point inside the background image.
- `QrCentre` (class `QrComposer` in package `com.example.qr`) draws the
  background first. Its box is measured against a QR square of fixed size
  centred in the canvas, and it is rotated about the box's centre. The QR
  image is drawn on top, in that square.

How the model is built:

- Both variants build a `java.awt.geom.AffineTransform` by a sequence of
  mutating calls. The model has a class `AffineTransforms.AffineTransform`
  with the six matrix entries as fields. Each mutator is proved to
  post-multiply the current matrix by its operation.
- For each variant, the call sequence is proved equal to one closed-form map,
  `Geometry.PivotPlacement`. That map scales and rotates about a source pivot
  and carries the pivot onto a target point.
- The properties are proved on that closed form: the pivot stays put, there
  is no shear at rotation 0, and uniform scaling gives a similarity.
- The canvas is a class `Imaging.Canvas`, standing for a `BufferedImage`
  together with its `Graphics2D`. It records the current composite alpha and
  the log of `drawImage` calls. `Compose` returns the final size and the
  ordered layer list.

Modules:

- `Arith`: small real and integer facts.
- `JavaMath`: `Math.round`, Java's truncating `/`, `Math.min` and `Math.max`.
- `Geometry`: points, angles, matrices and pivot placements.
- `AffineTransforms`: the mutable Java transform.
- `Imaging`: images, drawing calls, the canvas and errors.
- `QRComposer` and `QrCentre`: the two composers.

Points where the code is easy to misread; the model follows the code:

- `QrCentre` does not clamp its opacity. `AlphaComposite.getInstance` throws
  for a value outside [0, 1], and the model returns `Err(AlphaOutOfRange)`
  for it.
- The layer order is the two files' own. `QRComposer` draws the background
  on top of the QR code. `QrCentre` draws the QR code on top of the
  background.
- `QRComposer` passes `Math.toRadians(rotation)` to `rotate` unchanged,
  although the comment at QRComposer.java:97 mentions negating it. On the
  y-down canvas a positive angle already turns clockwise.
- `QRComposer.Transform` leaves every double field at 0 unless the caller
  sets it, so the default anchor is the background's top-left corner, although
  the comment at QRComposer.java:30 gives a default of 0.5. The default
  opacity is 1 (QRComposer.java:32). The model's `DefaultTransform` is this
  default object.

## Model

| member | source | states |
|---|---|---|
| JavaMath.Round | QRComposer.java:73-75 | `(int) Math.round(x)` is within half a unit of `x`, and a tie rounds up |
| JavaMath.Min | QRComposer.java:111 | `Math.min` is a lower bound of both arguments and is one of them |
| JavaMath.Max | QRComposer.java:111 | `Math.max` is an upper bound of both arguments and is one of them |
| JavaMath.Div | QrCentre.java:41-42 | Java's `int` division truncates toward zero: the remainder has the dividend's sign and is smaller than the divisor's magnitude |
| Imaging.AlphaInstance | QrCentre.java:52 | `AlphaComposite.getInstance` succeeds exactly for alphas in [0, 1], keeps the alpha, and otherwise fails with the range error |
| Imaging.Canvas.constructor | QRComposer.java:61-62 | a new canvas has the requested size, no layers, and the default SrcOver alpha 1 |
| Imaging.Canvas.SetComposite | QRComposer.java:110-114 | sets the alpha used by later draws and leaves the layers alone |
| Imaging.Canvas.DrawImage | QRComposer.java:117 | appends one transformed layer with the current alpha |
| Imaging.Canvas.DrawImageScaled | QRComposer.java:149 | appends one scaled layer at the given rectangle with the current alpha |
| AffineTransforms.AffineTransform.constructor | QRComposer.java:89 | a new transform is the identity |
| AffineTransforms.AffineTransform.Translate | QRComposer.java:92-95 | `translate` replaces the matrix `M` by `M * T(tx, ty)` |
| AffineTransforms.AffineTransform.Rotate | QRComposer.java:98-99 | `rotate(theta)` replaces `M` by `M * R(theta)` |
| AffineTransforms.AffineTransform.RotateAbout | QrCentre.java:49 | `rotate(theta, x, y)` replaces `M` by `M * T(x, y) * R(theta) * T(-x, -y)` |
| AffineTransforms.AffineTransform.Scale | QRComposer.java:102-104 | `scale` replaces `M` by `M * S(sx, sy)` |
| Geometry.RotationAboutIsConjugate | QrCentre.java:49 | translate, rotate and translate back is the closed-form rotation about the pivot |
| Geometry.RotationAboutTurnsAboutPivot | QrCentre.java:49 | the rotation about a pivot fixes the pivot and turns every offset from it by the angle |
| Geometry.PivotPlacementMaps | QRComposer.java:85-107 | a pivot placement scales a point's offset from the source pivot, turns it, and lays it off from the target point |
| Geometry.PivotPlacementFixesPivot | QRComposer.java:81-107 | the source pivot lands on the target point at every rotation and scale |
| Geometry.AnchorChainIsPivotPlacement | QRComposer.java:89-107 | the five calls of the anchor composer equal the pivot placement that carries the anchor onto the sum of the two translations |
| Geometry.CentreChainIsPivotPlacement | QrCentre.java:47-50 | translate, rotate about `(px, py)` and uniform scale equal the pivot placement about the source point that the scale takes onto `(px, py)` |
| Geometry.AxisAlignedPlacement | QRComposer.java:89-107 | without rotation a pivot placement is a translation after a scaling: no shear |
| Geometry.UniformPlacementIsSimilarity | QrCentre.java:47-50 | with equal scales and a true rotation, every squared distance is multiplied by `k * k` |
| QRComposer.CenteredFill | QRComposer.java:133-148 | the drawn size and offset of the base image; no contract of its own: CenteredFillCovers and CenteredFillIsCentred state its result |
| QRComposer.CenteredFillCovers | QRComposer.java:132-145 | a wider image is fitted to the canvas height, with its width the rounded `canvasH * w / h` and at least the canvas width; otherwise the image is fitted to the width, with the height at least the canvas height; each rounding is stated exactly in integers |
| QRComposer.CenteredFillIsCentred | QRComposer.java:147-148 | the drawn image covers the canvas on both axes, and the far overflow is the near one or one pixel more |
| QRComposer.FitBranches | QRComposer.java:133-145 | for either outcome of the aspect test, the fitted side equals the canvas side and the rounded side covers the other canvas side, stated in integers |
| QRComposer.WideFit | QRComposer.java:137-140 | the rounded `canvasH * w / h` of a wider image is at least the canvas width and is exactly that rounding |
| QRComposer.TallFit | QRComposer.java:141-144 | the rounded `canvasW / (w / h)` of a taller image is at least the canvas height and is exactly that rounding |
| QRComposer.AspectComparison | QRComposer.java:133-137 | comparing the two aspect doubles is comparing the cross products |
| QRComposer.DrawImageCenteredFill | QRComposer.java:132-150 | appends one layer drawn at the centred cover rectangle with the current alpha |
| QRComposer.PlaceOverlay | QRComposer.java:73-75 | target x, y and width are the normalized values times the canvas, each within half a pixel |
| QRComposer.TargetHeightKeepsAspect | QRComposer.java:77-79 | targetH is the integer nearest `targetW * bgH / bgW`, stated without division |
| QRComposer.ScalesAgree | QRComposer.java:101-103 | the horizontal and vertical scale factors differ by at most `1 / (2 * bgH)`; `sx` is strictly below `sy + 1 / (2 * bgH)` and reaches `sy - 1 / (2 * bgH)` only at a rounding tie |
| QRComposer.TransformCalls | QRComposer.java:89-107 | the matrix after each call on a fresh AffineTransform is the previous one times that call's operation: identity, T, T, R, S, T in call order |
| QRComposer.BuildOverlayTransform | QRComposer.java:81-107 | the transform `compose` builds equals the pivot placement of the anchor onto the same fractions of the target rectangle, with scales `targetW / bgW` and `targetH / bgH` |
| QRComposer.AnchorStaysPut | QRComposer.java:81-107 | at every rotation the background's anchor lands on the same fractions of the target rectangle |
| QRComposer.UnrotatedFillsTarget | QRComposer.java:89-107 | at rotation 0, whatever the anchor, the map has no shear, sends each pixel to the target corner plus the scaled pixel, and sends the background's corners onto the target rectangle's corners |
| QRComposer.MainExamplePlacement | QRComposer.java:157-166 | the example parameters on a 1024 x 1024 canvas with a 400 x 200 background place the overlay at (205, 256), 410 x 205 |
| QRComposer.CompositeAlpha | QRComposer.java:110-114 | the alpha is always accepted by `getInstance`; it equals the opacity inside [0, 1], is 0 below it and 1 above it |
| QRComposer.DefaultTransformPivotsAtCorner | QRComposer.java:25-34 | a `Transform` whose fields are left at their defaults gets alpha 1, and the background pivots about its top-left corner, which lands on the target's top-left corner |
| QRComposer.Compose | QRComposer.java:47-129 | the QR image is checked first, then the background, then the canvas size; on success the canvas has the requested size, the QR layer covers it at alpha 1, and the background lies on top, placed by the overlay transform at the clamped opacity |
| QrCentre.LayoutOf | QrCentre.java:37-45 | the QR square and the background's box; no contract of its own: QrSquareIsCentred and LayoutMeasuredAgainstSquare state its result |
| QrCentre.QrSquareIsCentred | QrCentre.java:41-42 | the QR square's margins differ by at most one pixel; the extra pixel is on the right or bottom, both when the square fits and when it overhangs |
| QrCentre.LayoutMeasuredAgainstSquare | QrCentre.java:37-45 | the box's corner is offset from the QR square's corner by `relX`, `relY` square sides; its width is `relW` square sides; one scale factor gives both sides, so the box keeps the background's aspect ratio exactly |
| QrCentre.TransformCalls | QrCentre.java:47-50 | translate, rotate about a point, and uniform scale on a fresh transform give the product identity, T, T, R, T, S |
| QrCentre.BuildOverlayTransform | QrCentre.java:47-50 | the transform `compose` builds equals the uniform pivot placement of the background's centre onto the box's centre |
| QrCentre.CentreStaysPut | QrCentre.java:47-50 | at every rotation the background's centre lands on the centre of its box |
| QrCentre.UnrotatedMaps | QrCentre.java:47-50 | at rotation 0 each background pixel goes to the box's corner plus the pixel times `scale` |
| QrCentre.UnrotatedFillsBox | QrCentre.java:37-50 | at rotation 0 the background's corners land on the box's corners |
| QrCentre.OverlayIsSimilarity | QrCentre.java:47-50 | for a true rotation the background keeps its shape: squared distances are multiplied by `scale * scale` |
| QrCentre.AnchorsIgnored | QrCentre.java:23-28 | the map's anchor entries change neither the layout nor the transform |
| QrCentre.MainExample | QrCentre.java:71-79 | the example parameters give the square at (152, 152) and the box at (224, 260), 252 wide; for a 400 x 200 background the box is 126 high and its centre is (350, 323) |
| QrCentre.Compose | QrCentre.java:14-63 | the canvas size is checked first, then the opacity, which is not clamped; on success the background is drawn first at the given opacity with the overlay transform, and the QR image on top at alpha 1 in the centred square |

## Left out

- Decoding and encoding: `ImageIO.read` and the PNG written by `ImageIO.write`. A decoded image is a width and a height; an unreadable stream is `None`. Pixel contents are not modelled.
- Rendering hints, interpolation and resampling, antialiasing, and the per-pixel SRC_OVER blend. A layer records the image, where it goes and its alpha.
- Floating point. Doubles and floats are exact reals, so neither the `(float)` cast of the opacity nor rounding error in the scale factors is modelled.
- `Math.toRadians`, `Math.sin` and `Math.cos`. A rotation is given as its cosine and sine. The similarity lemmas assume that the cosine and sine belong to one angle (`IsUnit`).
- The special cases inside `AffineTransform.rotate` that snap angles near multiples of 90 degrees. Mathematically they give the same matrix, and the model uses the general formula.
- Integer width. `Math.round` returns a `long` that is cast to `int`, and Java `int` arithmetic wraps. The model uses unbounded integers, so overflow for huge canvases is not modelled.
- `Graphics2D.dispose`, the `try`/`finally`, and the `BufferedImage` type constant.
- The `main` methods, which do file I/O. Their parameters are checked by `QRComposer.MainExamplePlacement` and `QrCentre.MainExample`.
- In `QrCentre`, the `Map` lookups: a missing key, a wrong type (`NullPointerException`, `ClassCastException`) and null images. The model takes the parameters as a record and the images as decoded.
- In `QrCentre`, `qrSizePx` is passed to `drawImage` unchanged. Java draws nothing for 0 and draws the QR image mirrored for a negative size. The model records the call as it is made.
- `QRComposer.Compose`: `new BufferedImage` throws for a non-positive canvas size, and the model returns `Err(NonPositiveCanvas)` for it. Likewise `QrCentre.Compose` returns `Err(AlphaOutOfRange)` where `getInstance` throws.
- The Excel demo application in the repository is not part of this model.
