/**
  The colour picker control of the NuGet package (Udara.Plugin.XFColorPickerControl):
  a hue spectrum crossed with a shade / tint layer, a pointer ring that the
  user moves by touch, and the colour under the ring reported as PickedColor.
*/
module NugetColorPicker {
  import opened Skia
  import opened Wrappers
  import ColorLists

  /** The members of the ColorSpectrumStyle enum, in declaration order. */
  datatype ColorSpectrumStyle =
    | HueOnlyStyle
    | HueToShadeStyle
    | ShadeToHueStyle
    | HueToTintStyle
    | TintToHueStyle
    | TintToHueToShadeStyle
    | ShadeToHueToTintStyle

  /** The underlying value of an enum member: its position in the declaration. */
  function StyleValue(s: ColorSpectrumStyle): (v: int)
    ensures 0 <= v < 7
  {
    match s
    case HueOnlyStyle => 0
    case HueToShadeStyle => 1
    case ShadeToHueStyle => 2
    case HueToTintStyle => 3
    case TintToHueStyle => 4
    case TintToHueToShadeStyle => 5
    case ShadeToHueToTintStyle => 6
  }

  /** Distinct members have distinct values, and every value 0..6 names a member. */
  lemma StyleValuesAreTheNamedRange(s: ColorSpectrumStyle, t: ColorSpectrumStyle, v: int)
    ensures StyleValue(s) == StyleValue(t) ==> s == t
    ensures 0 <= v < 7 ==> exists u :: StyleValue(u) == v
  {
    if 0 <= v < 7 {
      var u := match v
        case 0 => HueOnlyStyle
        case 1 => HueToShadeStyle
        case 2 => ShadeToHueStyle
        case 3 => HueToTintStyle
        case 4 => TintToHueStyle
        case 5 => TintToHueToShadeStyle
        case _ => ShadeToHueToTintStyle;
      assert StyleValue(u) == v;
    }
  }

  /** The default of the ColorSpectrumStyle property. */
  const DefaultColorSpectrumStyle: ColorSpectrumStyle := HueToShadeStyle

  /** The members of the ColorFlowDirection enum, in declaration order. */
  datatype ColorFlowDirection = Horizontal | Vertical

  /** The underlying value of an enum member: its position in the declaration. */
  function DirectionValue(d: ColorFlowDirection): (v: int)
    ensures 0 <= v < 2
  {
    match d
    case Horizontal => 0
    case Vertical => 1
  }

  /**
    The stops of the secondary layer for a ColorSpectrumStyle value. The enum
    property can hold any integer; a value that names no member gets the
    last branch.
  */
  function GetSecondaryLayerColors(style: int): seq<SKColor>
  {
    if style == StyleValue(HueOnlyStyle) then
      [Transparent]
    else if style == StyleValue(HueToShadeStyle) then
      [Transparent, Black]
    else if style == StyleValue(ShadeToHueStyle) then
      [Black, Transparent]
    else if style == StyleValue(HueToTintStyle) then
      [Transparent, White]
    else if style == StyleValue(TintToHueStyle) then
      [White, Transparent]
    else if style == StyleValue(TintToHueToShadeStyle) then
      [White, Transparent, Black]
    else if style == StyleValue(ShadeToHueToTintStyle) then
      [Black, Transparent, White]
    else
      [Transparent, Black]
  }

  /**
    Every layer, named or fallback, has one to three stops drawn from
    transparent, black and white. Exactly one stop is transparent, and it is
    the only fully transparent one, so the hues show through exactly once;
    a three-stop layer has it in the middle.
  */
  lemma SecondaryLayerShape(style: int)
    ensures var stops := GetSecondaryLayerColors(style);
      && 1 <= |stops| <= 3
      && (forall i :: 0 <= i < |stops| ==> IsShadeStop(stops[i]))
      && multiset(stops)[Transparent] == 1
      && (forall i :: 0 <= i < |stops| ==> (stops[i].IsFullyTransparent() <==> stops[i] == Transparent))
      && (|stops| == 3 ==> stops[1] == Transparent)
  {
  }

  /** The stops of a named style. */
  function SecondaryStops(s: ColorSpectrumStyle): seq<SKColor> {
    GetSecondaryLayerColors(StyleValue(s))
  }

  /**
    A value outside the seven members falls back to the stops of
    HueToShadeStyle, which is also the property's default style.
  */
  lemma SecondaryLayerFallback(style: int)
    requires forall s :: style != StyleValue(s)
    ensures GetSecondaryLayerColors(style) == [Transparent, Black]
    ensures GetSecondaryLayerColors(style) == SecondaryStops(DefaultColorSpectrumStyle)
  {
  }

  /** The named style that draws the layer `stops`, if any. */
  function StyleOfLayer(stops: seq<SKColor>): Option<ColorSpectrumStyle> {
    if stops == [Transparent] then Some(HueOnlyStyle)
    else if stops == [Transparent, Black] then Some(HueToShadeStyle)
    else if stops == [Black, Transparent] then Some(ShadeToHueStyle)
    else if stops == [Transparent, White] then Some(HueToTintStyle)
    else if stops == [White, Transparent] then Some(TintToHueStyle)
    else if stops == [White, Transparent, Black] then Some(TintToHueToShadeStyle)
    else if stops == [Black, Transparent, White] then Some(ShadeToHueToTintStyle)
    else None
  }

  /**
    Each of the seven named styles has its own branch: the style can be read
    back from its layer, so distinct styles draw distinct layers.
  */
  lemma SecondaryLayerComplete(s: ColorSpectrumStyle)
    ensures StyleOfLayer(SecondaryStops(s)) == Some(s)
    ensures forall t :: SecondaryStops(t) == SecondaryStops(s) ==> t == s
  {
    forall t | SecondaryStops(t) == SecondaryStops(s) ensures t == s {
      NamedLayer(t);
    }
    NamedLayer(s);
  }

  /** The layer of a named style, read back through StyleOfLayer. */
  lemma NamedLayer(s: ColorSpectrumStyle)
    ensures StyleOfLayer(SecondaryStops(s)) == Some(s)
  {
  }

  /** The style whose layer runs the other way: "hue to X" against "X to hue". */
  function ReversedStyle(s: ColorSpectrumStyle): ColorSpectrumStyle {
    match s
    case HueOnlyStyle => HueOnlyStyle
    case HueToShadeStyle => ShadeToHueStyle
    case ShadeToHueStyle => HueToShadeStyle
    case HueToTintStyle => TintToHueStyle
    case TintToHueStyle => HueToTintStyle
    case TintToHueToShadeStyle => ShadeToHueToTintStyle
    case ShadeToHueToTintStyle => TintToHueToShadeStyle
  }

  /** Every style's layer is the reverse of its counterpart's, and the pairing is an involution. */
  lemma SecondaryLayerReversal(s: ColorSpectrumStyle)
    ensures SecondaryStops(ReversedStyle(s)) == Reversed(SecondaryStops(s))
    ensures ReversedStyle(ReversedStyle(s)) == s
  {
  }

  /** The end point of the primary (hue) gradient, which starts at the origin. */
  function PrimaryGradientEnd(flow: int, width: nat, height: nat): SKPoint {
    if flow == DirectionValue(Horizontal) then SKPoint(width as real, 0.0)
    else SKPoint(0.0, height as real)
  }

  /** The end point of the secondary (shade / tint) gradient, which starts at the origin. */
  function SecondaryGradientEnd(flow: int, width: nat, height: nat): SKPoint {
    if flow == DirectionValue(Horizontal) then SKPoint(0.0, height as real)
    else SKPoint(width as real, 0.0)
  }

  /**
    Horizontal flow runs the hues along the width and the shades along the
    height; any other value swaps the two. The two axes are perpendicular.
  */
  lemma GradientAxesPerpendicular(flow: int, width: nat, height: nat)
    ensures Dot(PrimaryGradientEnd(flow, width, height), SecondaryGradientEnd(flow, width, height)) == 0.0
    ensures flow == DirectionValue(Horizontal) ==>
      PrimaryGradientEnd(flow, width, height) == SKPoint(width as real, 0.0) &&
      SecondaryGradientEnd(flow, width, height) == SKPoint(0.0, height as real)
    ensures flow != DirectionValue(Horizontal) ==>
      PrimaryGradientEnd(flow, width, height) == SecondaryGradientEnd(DirectionValue(Horizontal), width, height) &&
      SecondaryGradientEnd(flow, width, height) == PrimaryGradientEnd(DirectionValue(Horizontal), width, height)
  {
  }

  /** The pointer ring's diameter: a tenth of the diameter units of the larger canvas side. */
  function PointerRingDiameter(width: nat, height: nat, diameterUnits: real): real {
    (if width > height then width else height) as real * (diameterUnits / 10.0)
  }

  /** The radius of the white outer circle. */
  function OuterRingRadius(diameter: real): real {
    diameter / 2.0
  }

  /** The radius of the inner circle filled with the picked colour. */
  function InnerRingRadius(diameter: real, borderUnits: real): real {
    (diameter - diameter * borderUnits) / 2.0
  }

  /**
    With diameter and border units in [0,1], as the properties document, the
    inner circle lies within the outer one, whose radius is at most a
    twentieth of the larger canvas side; the border takes the fraction
    `borderUnits` of the outer radius.
  */
  lemma PointerRingBounds(width: nat, height: nat, diameterUnits: real, borderUnits: real)
    requires 0.0 <= diameterUnits <= 1.0 && 0.0 <= borderUnits <= 1.0
    ensures var d := PointerRingDiameter(width, height, diameterUnits);
      && 0.0 <= InnerRingRadius(d, borderUnits) <= OuterRingRadius(d)
      && OuterRingRadius(d) <= (if width > height then width else height) as real / 20.0
      && InnerRingRadius(d, borderUnits) == OuterRingRadius(d) * (1.0 - borderUnits)
  {
    var m := (if width > height then width else height) as real;
    var u := diameterUnits / 10.0;
    var d := PointerRingDiameter(width, height, diameterUnits);
    assert d == m * u;
    MulMonotone(m, u, 0.1);
    assert d <= m / 10.0;
    MulMonotone(d, borderUnits, 1.0);
    assert 0.0 <= d * borderUnits <= d;
    var outer, inner := OuterRingRadius(d), InnerRingRadius(d, borderUnits);
    assert outer * (1.0 - borderUnits) == d / 2.0 - (d * borderUnits) / 2.0;
  }

  /** Multiplying by a non-negative factor keeps an order between non-negative reals. */
  lemma MulMonotone(m: real, a: real, b: real)
    requires 0.0 <= m && 0.0 <= a <= b
    ensures 0.0 <= m * a <= m * b
  {
  }

  /** Units computed as coordinate / size scale back to the coordinate. */
  lemma ScaledUnitsRoundTrip(size: real, coordinate: real)
    requires size != 0.0
    ensures size * (coordinate / size) == coordinate
  {
  }

  /** The white outer circle and the inner circle filled with the sampled colour. */
  datatype PointerRing = PointerRing(
    center: SKPoint,
    outerRadius: real, outerColor: SKColor,
    innerRadius: real, innerColor: SKColor)

  /** What one paint pass hands to SkiaSharp, in drawing order. */
  datatype Frame = Frame(spectrum: LinearGradient, secondaryLayer: LinearGradient, ring: PointerRing)

  /** The default BaseColorList: the hex strings of red, yellow, lime, aqua, blue, fuchsia and red. */
  const DefaultBaseColorList: seq<string> :=
    ["#FFFF0000", "#FFFFFF00", "#FF00FF00", "#FF00FFFF", "#FF0000FF", "#FFFF00FF", "#FFFF0000"]

  class ColorPicker {
    // Bindable properties set by the host.
    var colorSpectrumStyle: int
    var baseColorList: seq<string>
    var colorFlowDirection: int
    var pointerRingDiameterUnits: real
    var pointerRingBorderUnits: real
    var pointerPositionXUnits: real
    var pointerPositionYUnits: real

    // PickedColor (private set); None until the first paint.
    var pickedColor: Option<SKColor>

    // The arguments of every PickedColorChanged event raised so far.
    var pickedColorChangedEvents: seq<SKColor>

    // The centre of the pointer ring, in canvas pixels.
    var lastTouchPoint: SKPoint
    var checkPointerInitPositionDone: bool

    // How many times InvalidateSurface has requested a redraw.
    var redrawRequests: nat

    /** The pointer ring sits where the position units place it on a canvas of `size`. */
    predicate PointerAtUnits(size: SKSize)
      reads this
    {
      lastTouchPoint == SKPoint(size.width * pointerPositionXUnits, size.height * pointerPositionYUnits)
    }

    /** The property defaults and the initial field values. */
    constructor ()
      ensures colorSpectrumStyle == StyleValue(DefaultColorSpectrumStyle)
      ensures baseColorList == DefaultBaseColorList
      ensures colorFlowDirection == DirectionValue(Horizontal)
      ensures pointerRingDiameterUnits == 0.6 && pointerRingBorderUnits == 0.3
      ensures pointerPositionXUnits == 0.5 && pointerPositionYUnits == 0.5
      ensures pickedColor == None && pickedColorChangedEvents == []
      ensures lastTouchPoint == Origin && !checkPointerInitPositionDone
      ensures redrawRequests == 0
    {
      colorSpectrumStyle := StyleValue(DefaultColorSpectrumStyle);
      baseColorList := DefaultBaseColorList;
      colorFlowDirection := DirectionValue(Horizontal);
      pointerRingDiameterUnits := 0.6;
      pointerRingBorderUnits := 0.3;
      pointerPositionXUnits := 0.5;
      pointerPositionYUnits := 0.5;
      pickedColor := None;
      pickedColorChangedEvents := [];
      lastTouchPoint := Origin;
      checkPointerInitPositionDone := false;
      redrawRequests := 0;
    }

    /**
      One paint pass on a surface of `width` x `height` pixels. `parse` stands
      for the colour-string conversion, `sample` for reading back the pixel
      at an integer coordinate of the painted surface.
    */
    method OnPaintSurface(width: nat, height: nat, parse: string -> SKColor, sample: (int, int) -> SKColor)
      returns (frame: Frame)
      modifies this
      ensures colorSpectrumStyle == old(colorSpectrumStyle) && baseColorList == old(baseColorList)
      ensures colorFlowDirection == old(colorFlowDirection)
      ensures pointerRingDiameterUnits == old(pointerRingDiameterUnits)
      ensures pointerRingBorderUnits == old(pointerRingBorderUnits)
      ensures pointerPositionXUnits == old(pointerPositionXUnits)
      ensures pointerPositionYUnits == old(pointerPositionYUnits)
      ensures redrawRequests == old(redrawRequests)
      // the pointer is placed from the position units on the first paint only
      ensures checkPointerInitPositionDone
      ensures !old(checkPointerInitPositionDone) ==>
        lastTouchPoint == SKPoint(width as real * pointerPositionXUnits, height as real * pointerPositionYUnits)
      ensures old(checkPointerInitPositionDone) ==> lastTouchPoint == old(lastTouchPoint)
      // the colour under the ring is always picked and announced
      ensures pickedColor == Some(sample(Truncate(lastTouchPoint.x), Truncate(lastTouchPoint.y)))
      ensures pickedColorChangedEvents == old(pickedColorChangedEvents) + [pickedColor.value]
      // what is drawn
      ensures frame.spectrum == LinearGradient(Origin,
        PrimaryGradientEnd(colorFlowDirection, width, height), ColorLists.Converted(baseColorList, parse))
      ensures frame.secondaryLayer == LinearGradient(Origin,
        SecondaryGradientEnd(colorFlowDirection, width, height), GetSecondaryLayerColors(colorSpectrumStyle))
      ensures var d := PointerRingDiameter(width, height, pointerRingDiameterUnits);
        frame.ring == PointerRing(lastTouchPoint,
          OuterRingRadius(d), White, InnerRingRadius(d, pointerRingBorderUnits), pickedColor.value)
    {
      var colors := ColorLists.ConvertAll(baseColorList, parse);
      var spectrum := LinearGradient(Origin, PrimaryGradientEnd(colorFlowDirection, width, height), colors);
      var secondary := LinearGradient(Origin,
        SecondaryGradientEnd(colorFlowDirection, width, height), GetSecondaryLayerColors(colorSpectrumStyle));

      if !checkPointerInitPositionDone {
        lastTouchPoint := SKPoint(width as real * pointerPositionXUnits, height as real * pointerPositionYUnits);
        checkPointerInitPositionDone := true;
      }

      var touchPointColor := sample(Truncate(lastTouchPoint.x), Truncate(lastTouchPoint.y));

      var diameter := PointerRingDiameter(width, height, pointerRingDiameterUnits);
      var ring := PointerRing(lastTouchPoint,
        OuterRingRadius(diameter), White, InnerRingRadius(diameter, pointerRingBorderUnits), touchPointColor);

      pickedColor := Some(touchPointColor);
      pickedColorChangedEvents := pickedColorChangedEvents + [touchPointColor];
      frame := Frame(spectrum, secondary, ring);
    }

    /**
      SetPickerPosition: assigns the position units back to the properties and
      moves the ring to the matching pixel of a canvas of `canvasSize`, then
      requests a redraw. Both of its callers pass the units already stored, so
      the two assignments leave the properties as they are and run no
      property-changed callback.
    */
    method SetPickerPosition(xPositionUnits: real, yPositionUnits: real, canvasSize: SKSize)
      requires xPositionUnits == pointerPositionXUnits && yPositionUnits == pointerPositionYUnits
      modifies this
      ensures pointerPositionXUnits == xPositionUnits && pointerPositionYUnits == yPositionUnits
      ensures PointerAtUnits(canvasSize)
      ensures redrawRequests == old(redrawRequests) + 1
      ensures colorSpectrumStyle == old(colorSpectrumStyle) && baseColorList == old(baseColorList)
      ensures colorFlowDirection == old(colorFlowDirection)
      ensures pointerRingDiameterUnits == old(pointerRingDiameterUnits)
      ensures pointerRingBorderUnits == old(pointerRingBorderUnits)
      ensures pickedColor == old(pickedColor) && pickedColorChangedEvents == old(pickedColorChangedEvents)
      ensures checkPointerInitPositionDone == old(checkPointerInitPositionDone)
    {
      pointerPositionXUnits := xPositionUnits;
      pointerPositionYUnits := yPositionUnits;
      lastTouchPoint := SKPoint(canvasSize.width * xPositionUnits, canvasSize.height * yPositionUnits);
      redrawRequests := redrawRequests + 1;
    }

    /**
      Assigning PointerPositionXUnits. The property-changed callback runs only
      when the value differs from the stored one, and calls SetPickerPosition
      with the new X units and the current Y units.
    */
    method SetPointerPositionXUnits(value: real, canvasSize: SKSize)
      modifies this
      ensures value == old(pointerPositionXUnits) ==> unchanged(this)
      ensures pointerPositionXUnits == value && pointerPositionYUnits == old(pointerPositionYUnits)
      ensures value != old(pointerPositionXUnits) ==>
        PointerAtUnits(canvasSize) && redrawRequests == old(redrawRequests) + 1
      ensures colorSpectrumStyle == old(colorSpectrumStyle) && baseColorList == old(baseColorList)
      ensures colorFlowDirection == old(colorFlowDirection)
      ensures pointerRingDiameterUnits == old(pointerRingDiameterUnits)
      ensures pointerRingBorderUnits == old(pointerRingBorderUnits)
      ensures pickedColor == old(pickedColor) && pickedColorChangedEvents == old(pickedColorChangedEvents)
      ensures checkPointerInitPositionDone == old(checkPointerInitPositionDone)
    {
      if value != pointerPositionXUnits {
        pointerPositionXUnits := value;
        SetPickerPosition(value, pointerPositionYUnits, canvasSize);
      }
    }

    /** Assigning PointerPositionYUnits; as for the X units, with the axes exchanged. */
    method SetPointerPositionYUnits(value: real, canvasSize: SKSize)
      modifies this
      ensures value == old(pointerPositionYUnits) ==> unchanged(this)
      ensures pointerPositionYUnits == value && pointerPositionXUnits == old(pointerPositionXUnits)
      ensures value != old(pointerPositionYUnits) ==>
        PointerAtUnits(canvasSize) && redrawRequests == old(redrawRequests) + 1
      ensures colorSpectrumStyle == old(colorSpectrumStyle) && baseColorList == old(baseColorList)
      ensures colorFlowDirection == old(colorFlowDirection)
      ensures pointerRingDiameterUnits == old(pointerRingDiameterUnits)
      ensures pointerRingBorderUnits == old(pointerRingBorderUnits)
      ensures pickedColor == old(pickedColor) && pickedColorChangedEvents == old(pickedColorChangedEvents)
      ensures checkPointerInitPositionDone == old(checkPointerInitPositionDone)
    {
      if value != pointerPositionYUnits {
        pointerPositionYUnits := value;
        SetPickerPosition(pointerPositionXUnits, value, canvasSize);
      }
    }

    /**
      A touch at `location` on a canvas of `canvasSize`. On UWP (`onUwp`) a
      touch that is not in contact is ignored. Otherwise the ring moves to the
      touch point, even outside the canvas; only a touch strictly inside the
      canvas updates the position units, is handled and requests a redraw.
    */
    method OnTouch(onUwp: bool, inContact: bool, location: SKPoint, canvasSize: SKSize)
      returns (handled: bool)
      modifies this
      ensures onUwp && !inContact ==> unchanged(this) && !handled
      ensures !(onUwp && !inContact) ==> lastTouchPoint == location
      ensures handled <==> !(onUwp && !inContact) && StrictlyInside(location, canvasSize)
      ensures handled ==>
        && pointerPositionXUnits == location.x / canvasSize.width
        && pointerPositionYUnits == location.y / canvasSize.height
        && PointerAtUnits(canvasSize)
        // one redraw per position property whose value changed, then the handler's own
        && redrawRequests == old(redrawRequests)
             + (if pointerPositionXUnits != old(pointerPositionXUnits) then 1 else 0)
             + (if pointerPositionYUnits != old(pointerPositionYUnits) then 1 else 0)
             + 1
      ensures !handled ==>
        && pointerPositionXUnits == old(pointerPositionXUnits)
        && pointerPositionYUnits == old(pointerPositionYUnits)
        && redrawRequests == old(redrawRequests)
      ensures colorSpectrumStyle == old(colorSpectrumStyle) && baseColorList == old(baseColorList)
      ensures colorFlowDirection == old(colorFlowDirection)
      ensures pointerRingDiameterUnits == old(pointerRingDiameterUnits)
      ensures pointerRingBorderUnits == old(pointerRingBorderUnits)
      ensures pickedColor == old(pickedColor) && pickedColorChangedEvents == old(pickedColorChangedEvents)
      ensures checkPointerInitPositionDone == old(checkPointerInitPositionDone)
    {
      handled := false;
      if onUwp && !inContact {
        return;
      }
      lastTouchPoint := location;
      if StrictlyInside(location, canvasSize) {
        handled := true;
        var xUnits, yUnits := location.x / canvasSize.width, location.y / canvasSize.height;
        ScaledUnitsRoundTrip(canvasSize.width, location.x);
        ScaledUnitsRoundTrip(canvasSize.height, location.y);
        SetPointerPositionXUnits(xUnits, canvasSize);
        // between the two assignments the ring is at the touch point or at the new X units and the old Y units
        assert lastTouchPoint == location || PointerAtUnits(canvasSize);
        SetPointerPositionYUnits(yUnits, canvasSize);
        assert lastTouchPoint == location;
        redrawRequests := redrawRequests + 1;
      }
    }
  }

  /**
    A fresh picker's first paint on a `width` x `height` surface puts the ring
    at the default position units, the centre of the surface, and picks the
    colour there.
  */
  method FirstPaint(width: nat, height: nat, parse: string -> SKColor, sample: (int, int) -> SKColor)
    returns (picked: SKColor, center: SKPoint)
    ensures center == SKPoint(width as real / 2.0, height as real / 2.0)
    ensures picked == sample(Truncate(center.x), Truncate(center.y))
  {
    var picker := new ColorPicker();
    var frame := picker.OnPaintSurface(width, height, parse, sample);
    picked, center := picker.pickedColor.value, frame.ring.center;
  }

  /**
    Paint, touch, paint: the pointer is initialised on the first paint only,
    so the second paint samples at the touch point, even a touch outside the
    canvas; only a touch strictly inside it moves the position units.
  */
  method PaintTouchPaint(width: nat, height: nat, location: SKPoint, canvasSize: SKSize,
                         parse: string -> SKColor, sample: (int, int) -> SKColor)
    returns (handled: bool, xUnits: real, yUnits: real, events: seq<SKColor>)
    ensures handled <==> StrictlyInside(location, canvasSize)
    ensures handled ==> xUnits == location.x / canvasSize.width && yUnits == location.y / canvasSize.height
    ensures !handled ==> xUnits == 0.5 && yUnits == 0.5
    ensures |events| == 2
    ensures events[0] == sample(Truncate(width as real / 2.0), Truncate(height as real / 2.0))
    ensures events[1] == sample(Truncate(location.x), Truncate(location.y))
  {
    var picker := new ColorPicker();
    var first := picker.OnPaintSurface(width, height, parse, sample);
    handled := picker.OnTouch(false, true, location, canvasSize);
    var second := picker.OnPaintSurface(width, height, parse, sample);
    xUnits, yUnits, events := picker.pointerPositionXUnits, picker.pointerPositionYUnits, picker.pickedColorChangedEvents;
  }
}
