/**
  The SkiaSharp values both colour pickers hand to the drawing surface:
  colours, points, sizes and linear gradients. Drawing itself is not
  modelled; a frame is described by the values passed to the shaders and
  to DrawCircle.
*/
module Skia {

  /** One 8-bit colour channel. */
  type Channel = x: int | 0 <= x < 256

  /** SKColor: a 32-bit ARGB colour. */
  datatype SKColor = SKColor(alpha: Channel, red: Channel, green: Channel, blue: Channel)
  {
    /** A stop with alpha 0 lets the layer underneath show through unchanged. */
    predicate IsFullyTransparent() { alpha == 0 }
  }

  /** SkiaSharp's SKColors.Transparent (0x00FFFFFF), SKColors.Black and SKColors.White. */
  const Transparent: SKColor := SKColor(0, 255, 255, 255)
  const Black: SKColor := SKColor(255, 0, 0, 0)
  const White: SKColor := SKColor(255, 255, 255, 255)

  /** The three colours a secondary (shade / tint) layer is made of. */
  predicate IsShadeStop(c: SKColor) {
    c == Transparent || c == Black || c == White
  }

  /** Exchanges the shade (black) and tint (white) stops; the hue stop stays. */
  function SwapBlackWhite(c: SKColor): (r: SKColor)
    ensures IsShadeStop(c) ==> IsShadeStop(r) && r.alpha == c.alpha
  {
    if c == Black then White else if c == White then Black else c
  }

  /** SwapBlackWhite applied to every stop of a gradient. */
  function SwapShades(stops: seq<SKColor>): (r: seq<SKColor>)
    ensures |r| == |stops|
    ensures forall i :: 0 <= i < |stops| ==> r[i] == SwapBlackWhite(stops[i])
  {
    seq(|stops|, i requires 0 <= i < |stops| => SwapBlackWhite(stops[i]))
  }

  /** The stops of a gradient read from its far end. */
  function Reversed(stops: seq<SKColor>): (r: seq<SKColor>)
    ensures |r| == |stops|
    ensures forall i :: 0 <= i < |stops| ==> r[i] == stops[|stops| - 1 - i]
  {
    seq(|stops|, i requires 0 <= i < |stops| => stops[|stops| - 1 - i])
  }

  /** SKPoint: a point of the canvas, in pixels (an idealised float pair). */
  datatype SKPoint = SKPoint(x: real, y: real)

  /** SKSize: the canvas size in pixels, as SKCanvasView.CanvasSize reports it. */
  datatype SKSize = SKSize(width: real, height: real)

  const Origin: SKPoint := SKPoint(0.0, 0.0)

  /** The dot product of two vectors from the origin. */
  function Dot(p: SKPoint, q: SKPoint): real {
    p.x * q.x + p.y * q.y
  }

  /** True when `p` lies strictly inside a canvas of size `size`. */
  predicate StrictlyInside(p: SKPoint, size: SKSize) {
    0.0 < p.x < size.width && 0.0 < p.y < size.height
  }

  /** C#'s `(int)` cast of a floating-point value, which rounds toward zero. */
  function Truncate(r: real): (t: int)
    ensures 0.0 <= r ==> 0 <= t && t as real <= r < t as real + 1.0
    ensures r < 0.0 ==> t <= 0 && t as real - 1.0 < r <= t as real
  {
    if r >= 0.0 then r.Floor else -((-r).Floor)
  }

  /**
    The arguments of SKShader.CreateLinearGradient as both pickers call it:
    from `start` to `end`, evenly spaced `colors`, clamped beyond the ends.
  */
  datatype LinearGradient = LinearGradient(start: SKPoint, end: SKPoint, colors: seq<SKColor>)
}
