/**
  The first version of the colour picker control (XFColorPickerControl.Controls):
  a spectrum of the colours in ColorList crossed with a dark / light layer
  chosen by GradientOrder, a fixed-size pointer ring that follows touches,
  and the colour under the ring reported as PickedColor.
*/
module XFColorPicker {
  import opened Skia
  import opened Wrappers
  import ColorLists

  /** The members of the GradientOrder enum, in declaration order. */
  datatype GradientOrder =
    | Colors
    | ColorsToDark
    | DarkToColors
    | ColorsToLight
    | LightToColors
    | LightToColorsToDark
    | DarkToColorsToLight

  /** The underlying value of an enum member: its position in the declaration. */
  function OrderValue(o: GradientOrder): (v: int)
    ensures 0 <= v < 7
  {
    match o
    case Colors => 0
    case ColorsToDark => 1
    case DarkToColors => 2
    case ColorsToLight => 3
    case LightToColors => 4
    case LightToColorsToDark => 5
    case DarkToColorsToLight => 6
  }

  /** The default of the GradientOrder property. */
  const DefaultGradientOrder: GradientOrder := ColorsToDark

  /** The members of the ColorListDirection enum, in declaration order. */
  datatype ColorListDirection = Horizontal | Vertical

  /** The underlying value of an enum member: its position in the declaration. */
  function DirectionValue(d: ColorListDirection): (v: int)
    ensures 0 <= v < 2
  {
    match d
    case Horizontal => 0
    case Vertical => 1
  }

  /**
    GetGradientOrder: the stops of the dark / light layer for the value of
    the GradientOrder property. The enum property can hold any integer; a
    value that names no member gets the last branch.
  */
  function GetGradientOrder(order: int): seq<SKColor>
  {
    if order == OrderValue(Colors) then
      [Transparent]
    else if order == OrderValue(ColorsToDark) then
      [Transparent, Black]
    else if order == OrderValue(DarkToColors) then
      [Black, Transparent]
    else if order == OrderValue(ColorsToLight) then
      [Transparent, White]
    else if order == OrderValue(LightToColors) then
      [White, Transparent]
    else if order == OrderValue(LightToColorsToDark) then
      [White, Transparent, Black]
    else if order == OrderValue(DarkToColorsToLight) then
      [Black, Transparent, White]
    else
      [Transparent, Black]
  }

  /**
    Every layer, named or fallback, has one to three stops drawn from
    transparent, black and white. Exactly one stop is transparent, and it is
    the only fully transparent one, so the hues show through exactly once;
    a three-stop layer has it in the middle.
  */
  lemma GradientOrderShape(order: int)
    ensures var stops := GetGradientOrder(order);
      && 1 <= |stops| <= 3
      && (forall i :: 0 <= i < |stops| ==> IsShadeStop(stops[i]))
      && multiset(stops)[Transparent] == 1
      && (forall i :: 0 <= i < |stops| ==> (stops[i].IsFullyTransparent() <==> stops[i] == Transparent))
      && (|stops| == 3 ==> stops[1] == Transparent)
  {
  }

  /** The stops of a named order. */
  function OrderStops(o: GradientOrder): seq<SKColor> {
    GetGradientOrder(OrderValue(o))
  }

  /**
    A value outside the seven members falls back to the stops of
    ColorsToDark, which is also the property's default.
  */
  lemma GradientOrderFallback(order: int)
    requires forall o :: order != OrderValue(o)
    ensures GetGradientOrder(order) == [Transparent, Black]
    ensures GetGradientOrder(order) == OrderStops(DefaultGradientOrder)
  {
  }

  /** The order that runs the other way: "colors to X" against "X to colors". */
  function ReversedOrder(o: GradientOrder): GradientOrder {
    match o
    case Colors => Colors
    case ColorsToDark => DarkToColors
    case DarkToColors => ColorsToDark
    case ColorsToLight => LightToColors
    case LightToColors => ColorsToLight
    case LightToColorsToDark => DarkToColorsToLight
    case DarkToColorsToLight => LightToColorsToDark
  }

  /** The order with "dark" and "light" exchanged in its name. */
  function LightForDark(o: GradientOrder): GradientOrder {
    match o
    case Colors => Colors
    case ColorsToDark => ColorsToLight
    case DarkToColors => LightToColors
    case ColorsToLight => ColorsToDark
    case LightToColors => DarkToColors
    case LightToColorsToDark => DarkToColorsToLight
    case DarkToColorsToLight => LightToColorsToDark
  }

  /** Every order's layer is the reverse of its counterpart's, and the pairing is an involution. */
  lemma GradientOrderReversal(o: GradientOrder)
    ensures OrderStops(ReversedOrder(o)) == Reversed(OrderStops(o))
    ensures ReversedOrder(ReversedOrder(o)) == o
  {
  }

  /**
    Naming "light" for "dark" swaps black and white in the stops and leaves
    the transparent stop where it is.
  */
  lemma GradientOrderLightDarkSymmetry(o: GradientOrder)
    ensures OrderStops(LightForDark(o)) == SwapShades(OrderStops(o))
    ensures LightForDark(LightForDark(o)) == o
  {
  }

  /** The end point of the colour-list gradient, which starts at the origin. */
  function PrimaryGradientEnd(direction: int, width: nat, height: nat): SKPoint {
    if direction == DirectionValue(Horizontal) then SKPoint(width as real, 0.0)
    else SKPoint(0.0, height as real)
  }

  /** The end point of the dark / light gradient, which starts at the origin. */
  function SecondaryGradientEnd(direction: int, width: nat, height: nat): SKPoint {
    if direction == DirectionValue(Horizontal) then SKPoint(0.0, height as real)
    else SKPoint(width as real, 0.0)
  }

  /**
    Horizontal runs the colours along the width and the dark / light layer
    along the height; any other value swaps the two. The axes are perpendicular.
  */
  lemma GradientAxesPerpendicular(direction: int, width: nat, height: nat)
    ensures Dot(PrimaryGradientEnd(direction, width, height), SecondaryGradientEnd(direction, width, height)) == 0.0
    ensures direction == DirectionValue(Horizontal) ==>
      PrimaryGradientEnd(direction, width, height) == SKPoint(width as real, 0.0) &&
      SecondaryGradientEnd(direction, width, height) == SKPoint(0.0, height as real)
    ensures direction != DirectionValue(Horizontal) ==>
      PrimaryGradientEnd(direction, width, height) == SecondaryGradientEnd(DirectionValue(Horizontal), width, height) &&
      SecondaryGradientEnd(direction, width, height) == PrimaryGradientEnd(DirectionValue(Horizontal), width, height)
  {
  }

  /**
    The canvas aspect ratio width / height that scales the ring. A zero height
    makes the float division produce infinity or NaN: None.
  */
  function AspectRatio(width: nat, height: nat): Option<real> {
    if height == 0 then None else Some(width as real / height as real)
  }

  /** The radius of the white outer circle: 18 times the aspect ratio. */
  function OuterRingRadius(width: nat, height: nat): Option<real> {
    match AspectRatio(width, height)
    case None => None
    case Some(ratio) => Some(ratio * 18.0)
  }

  /** The radius of the inner circle filled with the picked colour: 12 times the aspect ratio. */
  function InnerRingRadius(width: nat, height: nat): Option<real> {
    match AspectRatio(width, height)
    case None => None
    case Some(ratio) => Some(ratio * 12.0)
  }

  /**
    Both radii are finite exactly when the canvas has a height; then the
    inner radius is two thirds of the outer one, and on a canvas with both
    sides positive the inner circle lies strictly inside the outer one.
  */
  lemma RingRadiiProportion(width: nat, height: nat)
    ensures OuterRingRadius(width, height).Some? <==> height > 0
    ensures InnerRingRadius(width, height).Some? <==> height > 0
    ensures height > 0 ==>
      InnerRingRadius(width, height).value * 3.0 == OuterRingRadius(width, height).value * 2.0
    ensures width > 0 && height > 0 ==>
      0.0 < InnerRingRadius(width, height).value < OuterRingRadius(width, height).value
  {
  }

  /** The white outer circle and the inner circle filled with the sampled colour. */
  datatype PointerRing = PointerRing(
    center: SKPoint,
    outerRadius: Option<real>, outerColor: SKColor,
    innerRadius: Option<real>, innerColor: SKColor)

  /** What one paint pass hands to SkiaSharp, in drawing order. */
  datatype Frame = Frame(spectrum: LinearGradient, secondaryLayer: LinearGradient, ring: PointerRing)

  /** The default ColorList: the hex strings of red, yellow, lime, aqua, blue, fuchsia and red. */
  const DefaultColorList: seq<string> :=
    ["#FFFF0000", "#FFFFFF00", "#FF00FF00", "#FF00FFFF", "#FF0000FF", "#FFFF00FF", "#FFFF0000"]

  class ColorPicker {
    // Bindable properties set by the host.
    var gradientOrder: int
    var colorList: seq<string>
    var colorListDirection: int

    // PickedColor (private set); None until the first paint.
    var pickedColor: Option<SKColor>

    // The arguments of every PickedColorChanged event raised so far.
    var pickedColorChangedEvents: seq<SKColor>

    // The centre of the pointer ring, in canvas pixels.
    var lastTouchPoint: SKPoint

    // How many times InvalidateSurface has requested a redraw.
    var redrawRequests: nat

    /** The property defaults and the initial field values. */
    constructor ()
      ensures gradientOrder == OrderValue(DefaultGradientOrder)
      ensures colorList == DefaultColorList
      ensures colorListDirection == DirectionValue(Horizontal)
      ensures pickedColor == None && pickedColorChangedEvents == []
      ensures lastTouchPoint == Origin && redrawRequests == 0
    {
      gradientOrder := OrderValue(DefaultGradientOrder);
      colorList := DefaultColorList;
      colorListDirection := DirectionValue(Horizontal);
      pickedColor := None;
      pickedColorChangedEvents := [];
      lastTouchPoint := Origin;
      redrawRequests := 0;
    }

    /**
      One paint pass on a surface of `width` x `height` pixels. `fromHex`
      stands for Color.FromHex followed by ToSKColor, `sample` for reading
      back the pixel at an integer coordinate of the painted surface.
    */
    method OnPaintSurface(width: nat, height: nat, fromHex: string -> SKColor, sample: (int, int) -> SKColor)
      returns (frame: Frame)
      modifies this
      ensures gradientOrder == old(gradientOrder) && colorList == old(colorList)
      ensures colorListDirection == old(colorListDirection)
      ensures lastTouchPoint == old(lastTouchPoint) && redrawRequests == old(redrawRequests)
      // the colour under the ring is always picked and announced
      ensures pickedColor == Some(sample(Truncate(lastTouchPoint.x), Truncate(lastTouchPoint.y)))
      ensures pickedColorChangedEvents == old(pickedColorChangedEvents) + [pickedColor.value]
      // what is drawn
      ensures frame.spectrum == LinearGradient(Origin,
        PrimaryGradientEnd(colorListDirection, width, height), ColorLists.Converted(colorList, fromHex))
      ensures frame.secondaryLayer == LinearGradient(Origin,
        SecondaryGradientEnd(colorListDirection, width, height), GetGradientOrder(gradientOrder))
      ensures frame.ring == PointerRing(lastTouchPoint,
        OuterRingRadius(width, height), White, InnerRingRadius(width, height), pickedColor.value)
    {
      var colors := ColorLists.ConvertAll(colorList, fromHex);
      var spectrum := LinearGradient(Origin, PrimaryGradientEnd(colorListDirection, width, height), colors);
      var secondary := LinearGradient(Origin,
        SecondaryGradientEnd(colorListDirection, width, height), GetGradientOrder(gradientOrder));

      var touchPointColor := sample(Truncate(lastTouchPoint.x), Truncate(lastTouchPoint.y));
      var ring := PointerRing(lastTouchPoint,
        OuterRingRadius(width, height), White, InnerRingRadius(width, height), touchPointColor);

      pickedColor := Some(touchPointColor);
      pickedColorChangedEvents := pickedColorChangedEvents + [touchPointColor];
      frame := Frame(spectrum, secondary, ring);
    }

    /**
      A touch at `location` on a canvas of `canvasSize`: the ring always moves
      to the touch point; only a touch strictly inside the canvas is handled
      and requests a redraw.
    */
    method OnTouch(location: SKPoint, canvasSize: SKSize) returns (handled: bool)
      modifies this
      ensures lastTouchPoint == location
      ensures handled <==> StrictlyInside(location, canvasSize)
      ensures redrawRequests == old(redrawRequests) + (if handled then 1 else 0)
      ensures gradientOrder == old(gradientOrder) && colorList == old(colorList)
      ensures colorListDirection == old(colorListDirection)
      ensures pickedColor == old(pickedColor) && pickedColorChangedEvents == old(pickedColorChangedEvents)
    {
      lastTouchPoint := location;
      handled := false;
      if StrictlyInside(location, canvasSize) {
        handled := true;
        redrawRequests := redrawRequests + 1;
      }
    }
  }

  /**
    A touch followed by a paint: whether or not the touch lands inside the
    canvas, the paint samples and announces the colour at the touch point.
  */
  method TouchThenPaint(location: SKPoint, canvasSize: SKSize, width: nat, height: nat,
                        fromHex: string -> SKColor, sample: (int, int) -> SKColor)
    returns (handled: bool, picked: SKColor)
    ensures handled <==> StrictlyInside(location, canvasSize)
    ensures picked == sample(Truncate(location.x), Truncate(location.y))
  {
    var picker := new ColorPicker();
    handled := picker.OnTouch(location, canvasSize);
    var frame := picker.OnPaintSurface(width, height, fromHex, sample);
    picked := picker.pickedColor.value;
    assert frame.ring.center == location;
  }
}
