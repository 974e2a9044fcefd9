# XFColorPickerControl in Dafny

A model of the two colour-picker controls in the XFColorPickerControl repository:

- the NuGet control `Udara.Plugin.XFColorPickerControl.ColorPicker`;
- the first control, `XFColorPickerControl.Controls.ColorPicker`.

Each control paints a hue spectrum built from a list of colour strings. Over it goes a second layer of transparent, black and white stops chosen by a style enum. A pointer ring sits at the last touch point. The colour under the ring is reported as `PickedColor` together with a `PickedColorChanged` event.

The model covers the parts of the controls that compute something:

- the style-to-stops tables (`GetSecondaryLayerColors`, `GetGradientOrder`) and their fallback branch;
- the end points of the two gradients for each flow direction;
- the stop list built from the colour list;
- the pointer-ring radii;
- the pointer state machine: the NuGet control's init-once placement on the first paint, `SetPickerPosition` and the position-unit properties, and the touch handlers of both controls.

Files:

- `skia.dfy` (module `Skia`): the SkiaSharp values handed to the surface. This covers `SKColor` and the stock colours, `SKPoint`, `SKSize`, the arguments of a linear gradient, and C#'s `(int)` cast (`Truncate`).
- `color_lists.dfy` (module `ColorLists`): the loop that converts the colour list into the primary stop list.
- `nuget_color_picker.dfy` (module `NugetColorPicker`): the NuGet control.
- `xf_color_picker.dfy` (module `XFColorPicker`): the first control.
- `agreement.dfy` (module `Agreement`): the two versions draw the same thing.
- `wrappers.dfy` (module `Wrappers`): `Option`.

Modelling choices:

- **Enum properties.** A C# enum property can hold any integer. The properties `ColorSpectrumStyle`, `GradientOrder`, `ColorFlowDirection` and `ColorListDirection` are therefore fields of type `int`. The named members are datatypes, and `StyleValue`/`OrderValue`/`DirectionValue` give each member's underlying value (its declaration position). The lookup tables take the integer, so the fallback branch is reachable in the model as it is in the source.
- **Flow direction.** The gradient end points test `== Horizontal` only, so any other value behaves as vertical.
- **Coordinates and units.** Coordinates, units and radii are `real`, an idealisation of `float`/`double`. The `(int)` casts before the pixel read-back truncate toward zero, as C# does. This matters because a touch outside the canvas can leave the ring at negative coordinates.
- **Redraws.** `InvalidateSurface` is modelled as a counter of redraw requests (`redrawRequests`).
- **Picked colour.** `PickedColor` is `None` until the first paint. Each `PickedColorChanged?.Invoke` is appended, with its argument, to `pickedColorChangedEvents`: the log records what a subscriber would see. With no handler subscribed the `?.` raises nothing, and the log then only records that the paint reached the raise.
- **Property-changed callbacks.** Xamarin.Forms runs a property-changed callback only when the assigned value differs from the stored one. `SetPointerPositionXUnits`/`YUnits` model the assignment of `PointerPositionXUnits`/`YUnits` with that rule; their callbacks call `SetPickerPosition`. Hence the touch handler's two unit assignments reach `SetPickerPosition` zero, one or two times. In each case the ring ends at the touch point, which `OnTouch`'s contract states.
- **Colour constants.** `Transparent` is SkiaSharp's `SKColors.Transparent` (ARGB `0x00FFFFFF`). The properties proved rely only on its alpha being 0 and on the three stop colours being distinct.

Where the code behaves differently from what the controls' comments and names suggest, the model follows the code:

- The touch handlers overwrite `_lastTouchPoint` for every touch (in the NuGet control on UWP, every touch in contact), including one outside the canvas, although the comment says such touches are ignored. Only the unit update and the redraw request are guarded.
- `PickedColorChanged` is raised on every paint, not only when the colour changes.
- Neither control searches for the pixel nearest a programmatically set colour. `PickedColor` has a private setter, and there is no distance metric and no "unresolved" pointer state, so none of these is modelled.
- Neither control rejects a zero-sized canvas, and neither clamps the sampled coordinate. The pixel is read at the truncated ring centre by a foreign call. In the first control a zero canvas height makes the ring radii non-finite, which the model represents as `None`.

## Model

| member | source | states |
|---|---|---|
| `Skia.Truncate` | Nuget/Udara.Plugin.XFColorPickerControl/ColorPicker.xaml.cs:327-330 | the `(int)` cast of a ring coordinate rounds toward zero: for a non-negative value the result is the largest integer not above it, for a negative one the smallest integer not below it |
| `ColorLists.ConvertAll` | Nuget/Udara.Plugin.XFColorPickerControl/ColorPicker.xaml.cs:262-265 | the foreach over `BaseColorList` yields one stop per item, in iteration order, each the conversion of its item; the stop list equals `Converted` of the colour list |
| `ColorLists.ConvertedAt` | XFColorPickerControl/XFColorPickerControl/Controls/ColorPicker.xaml.cs:118-119 | the primary stop list has as many stops as the colour list, and stop k is the conversion of item k |
| `ColorLists.Converted` | Nuget/Udara.Plugin.XFColorPickerControl/ColorPicker.xaml.cs:262-265 | the primary stop list built from the colour list: one conversion per item, in order; its length and k-th stop are proved in `ConvertedAt`, and the paint loop is proved equal to it in `ConvertAll` |
| `NugetColorPicker.StyleValue` | Nuget/Udara.Plugin.XFColorPickerControl/ColorPicker.xaml.cs:485-494 | each `ColorSpectrumStyle` member has an underlying value in 0..6 |
| `NugetColorPicker.StyleValuesAreTheNamedRange` | Nuget/Udara.Plugin.XFColorPickerControl/ColorPicker.xaml.cs:485-494 | distinct members have distinct values, and every value 0..6 names a member |
| `NugetColorPicker.DirectionValue` | Nuget/Udara.Plugin.XFColorPickerControl/ColorPicker.xaml.cs:496-500 | each `ColorFlowDirection` member has an underlying value in 0..1 (Horizontal 0, Vertical 1) |
| `NugetColorPicker.GetSecondaryLayerColors` | Nuget/Udara.Plugin.XFColorPickerControl/ColorPicker.xaml.cs:403-469 | the if-chain from a style value to its stops, fallback branch included. Its shape is proved in `SecondaryLayerShape`, the fallback in `SecondaryLayerFallback`, the distinct branches in `SecondaryLayerComplete`, the reversal pairs in `SecondaryLayerReversal`, and equality with the first control's table in `Agreement.SecondaryTablesAgree` |
| `NugetColorPicker.PrimaryGradientEnd` | Nuget/Udara.Plugin.XFColorPickerControl/ColorPicker.xaml.cs:268-274 | the end point of the hue gradient: (W,0) for Horizontal flow, (0,H) for any other value; perpendicular to the secondary gradient by `GradientAxesPerpendicular` |
| `NugetColorPicker.SecondaryGradientEnd` | Nuget/Udara.Plugin.XFColorPickerControl/ColorPicker.xaml.cs:290-296 | the end point of the secondary layer: (0,H) for Horizontal flow, (W,0) for any other value; perpendicular to the hue gradient by `GradientAxesPerpendicular` |
| `NugetColorPicker.PointerRingDiameter` | Nuget/Udara.Plugin.XFColorPickerControl/ColorPicker.xaml.cs:343-347 | the ring diameter: the larger canvas side times a tenth of the diameter units; bounded by max(W,H)/10 for units in [0,1] in `PointerRingBounds` |
| `NugetColorPicker.OuterRingRadius` | Nuget/Udara.Plugin.XFColorPickerControl/ColorPicker.xaml.cs:349-353 | the outer radius, half the diameter; at most max(W,H)/20 and not below the inner radius by `PointerRingBounds` |
| `NugetColorPicker.InnerRingRadius` | Nuget/Udara.Plugin.XFColorPickerControl/ColorPicker.xaml.cs:358-366 | the inner radius, half of the diameter less the border width; equal to outer·(1 − border units) and between 0 and the outer radius by `PointerRingBounds` |
| `NugetColorPicker.SecondaryLayerShape` | Nuget/Udara.Plugin.XFColorPickerControl/ColorPicker.xaml.cs:403-469 | for every enum value, named or not, the layer has 1 to 3 stops, all transparent, black or white. Exactly one stop is transparent, and it is the only fully transparent stop. In a 3-stop layer it is the middle one |
| `NugetColorPicker.SecondaryLayerFallback` | Nuget/Udara.Plugin.XFColorPickerControl/ColorPicker.xaml.cs:403-469 | a value naming no member gets [Transparent, Black], the stops of `HueToShadeStyle`, which is the property's default (line 45) |
| `NugetColorPicker.SecondaryLayerComplete` | Nuget/Udara.Plugin.XFColorPickerControl/ColorPicker.xaml.cs:403-461 | each of the seven named styles has its own branch: the style can be read back from its layer (`StyleOfLayer`), so distinct styles draw distinct layers |
| `NugetColorPicker.SecondaryLayerReversal` | Nuget/Udara.Plugin.XFColorPickerControl/ColorPicker.xaml.cs:403-461 | "X to hue" is "hue to X" reversed for every style: ShadeToHue = reverse(HueToShade), TintToHue = reverse(HueToTint), ShadeToHueToTint = reverse(TintToHueToShade); the pairing is an involution |
| `NugetColorPicker.GradientAxesPerpendicular` | Nuget/Udara.Plugin.XFColorPickerControl/ColorPicker.xaml.cs:268-296 | horizontal flow: hues run (0,0)→(W,0) and the secondary layer (0,0)→(0,H); any other value swaps them. The two axes are perpendicular |
| `NugetColorPicker.PointerRingBounds` | Nuget/Udara.Plugin.XFColorPickerControl/ColorPicker.xaml.cs:343-366 | with diameter and border units in [0,1], as the property comments require (lines 140-176): 0 ≤ inner radius ≤ outer radius ≤ max(W,H)/20, and inner = outer·(1 − border units) |
| `NugetColorPicker.ColorPicker.constructor` | Nuget/Udara.Plugin.XFColorPickerControl/ColorPicker.xaml.cs:40-243 | property defaults (HueToShadeStyle, the seven-colour list, Horizontal, 0.6, 0.3, 0.5, 0.5); ring at (0,0); pointer not yet initialised; nothing picked |
| `NugetColorPicker.ColorPicker.OnPaintSurface` | Nuget/Udara.Plugin.XFColorPickerControl/ColorPicker.xaml.cs:245-372 | the hue gradient stops are the converted colour list; the secondary layer is the style's table entry along the other axis. The first paint places the ring at (W·XUnits, H·YUnits) and sets the init flag; later paints leave the ring where it is. Every paint picks the colour sampled at the truncated ring centre and raises one PickedColorChanged with it. The ring radii come from the diameter and border units |
| `NugetColorPicker.ColorPicker.SetPickerPosition` | Nuget/Udara.Plugin.XFColorPickerControl/ColorPicker.xaml.cs:472-482 | called, as the control does, with the units already stored: the units stay, the ring moves to (W·xUnits, H·yUnits) of the canvas size, and one redraw is requested; nothing else changes |
| `NugetColorPicker.ColorPicker.SetPointerPositionXUnits` | Nuget/Udara.Plugin.XFColorPickerControl/ColorPicker.xaml.cs:179-205 | assigning the stored value changes nothing; a new value is stored, and the ring moves to the position the units give and a redraw is requested |
| `NugetColorPicker.ColorPicker.SetPointerPositionYUnits` | Nuget/Udara.Plugin.XFColorPickerControl/ColorPicker.xaml.cs:208-234 | as for the X units, with the axes exchanged |
| `NugetColorPicker.ColorPicker.OnTouch` | Nuget/Udara.Plugin.XFColorPickerControl/ColorPicker.xaml.cs:374-401 | on UWP a touch not in contact changes nothing. Any other touch moves the ring to the touch location, even outside the canvas. It is handled exactly when 0<x<W and 0<y<H; then the units become x/W and y/H, the ring sits at (W·XUnits, H·YUnits), and the redraw count rises by one for each unit property whose value changed (its callback's `SetPickerPosition`) plus one for the handler's own request. Otherwise the units and redraw requests are unchanged |
| `NugetColorPicker.FirstPaint` | Nuget/Udara.Plugin.XFColorPickerControl/ColorPicker.xaml.cs:303-311 | a new control's first paint puts the ring at the centre of the surface (default units 0.5) and picks the colour there |
| `NugetColorPicker.PaintTouchPaint` | Nuget/Udara.Plugin.XFColorPickerControl/ColorPicker.xaml.cs:303-400 | paint, touch, paint: two events are raised; the second paint samples at the touch point, not from the units, whether or not the touch was inside; only an inside touch changes the units |
| `XFColorPicker.OrderValue` | XFColorPickerControl/XFColorPickerControl/Controls/ColorPicker.xaml.cs:300-309 | each `GradientOrder` member has an underlying value in 0..6 |
| `XFColorPicker.DirectionValue` | XFColorPickerControl/XFColorPickerControl/Controls/ColorPicker.xaml.cs:311-315 | each `ColorListDirection` member has an underlying value in 0..1 (Horizontal 0, Vertical 1) |
| `XFColorPicker.GetGradientOrder` | XFColorPickerControl/XFColorPickerControl/Controls/ColorPicker.xaml.cs:230-297 | the if-chain from an order value to its stops, fallback branch included. Its shape is proved in `GradientOrderShape`, the fallback in `GradientOrderFallback`, the reversal pairs in `GradientOrderReversal`, the dark/light exchange in `GradientOrderLightDarkSymmetry`, and equality with the NuGet table in `Agreement.SecondaryTablesAgree` |
| `XFColorPicker.GradientOrderShape` | XFColorPickerControl/XFColorPickerControl/Controls/ColorPicker.xaml.cs:230-297 | for every enum value, the layer has 1 to 3 stops, all transparent, black or white. Exactly one stop is transparent, and it is the only fully transparent stop. In a 3-stop layer it is the middle one |
| `XFColorPicker.GradientOrderFallback` | XFColorPickerControl/XFColorPickerControl/Controls/ColorPicker.xaml.cs:289-296 | a value naming no member gets [Transparent, Black], the stops of `ColorsToDark`, which is the property's default (line 38) |
| `XFColorPicker.GradientOrderReversal` | XFColorPickerControl/XFColorPickerControl/Controls/ColorPicker.xaml.cs:239-288 | DarkToColors = reverse(ColorsToDark), LightToColors = reverse(ColorsToLight), DarkToColorsToLight = reverse(LightToColorsToDark); the pairing is an involution |
| `XFColorPicker.GradientOrderLightDarkSymmetry` | XFColorPickerControl/XFColorPickerControl/Controls/ColorPicker.xaml.cs:239-288 | exchanging "Dark" and "Light" in an order's name exchanges black and white in its stops and leaves the transparent stop in place |
| `XFColorPicker.PrimaryGradientEnd` | XFColorPickerControl/XFColorPickerControl/Controls/ColorPicker.xaml.cs:122-128 | the end point of the colour gradient: (W,0) for Horizontal, (0,H) for any other value; perpendicular to the dark/light gradient by `GradientAxesPerpendicular`, and equal to the NuGet one by `Agreement.GradientAxesAgree` |
| `XFColorPicker.SecondaryGradientEnd` | XFColorPickerControl/XFColorPickerControl/Controls/ColorPicker.xaml.cs:144-150 | the end point of the dark/light gradient: (0,H) for Horizontal, (W,0) for any other value; perpendicular to the colour gradient by `GradientAxesPerpendicular` |
| `XFColorPicker.GradientAxesPerpendicular` | XFColorPickerControl/XFColorPickerControl/Controls/ColorPicker.xaml.cs:122-150 | Horizontal: colours run (0,0)→(W,0) and the dark/light layer (0,0)→(0,H); any other value swaps them. The axes are perpendicular |
| `XFColorPicker.AspectRatio` | XFColorPickerControl/XFColorPickerControl/Controls/ColorPicker.xaml.cs:187-204 | the float ratio W/H that scales both radii; `None` (infinite or NaN) when H = 0, by `RingRadiiProportion` |
| `XFColorPicker.OuterRingRadius` | XFColorPickerControl/XFColorPickerControl/Controls/ColorPicker.xaml.cs:187-193 | 18 times the aspect ratio; finite exactly when H > 0 and 3/2 of the inner radius, by `RingRadiiProportion` |
| `XFColorPicker.InnerRingRadius` | XFColorPickerControl/XFColorPickerControl/Controls/ColorPicker.xaml.cs:198-204 | 12 times the aspect ratio; finite exactly when H > 0, 2/3 of the outer radius and strictly inside it for W, H > 0, by `RingRadiiProportion` |
| `XFColorPicker.RingRadiiProportion` | XFColorPickerControl/XFColorPickerControl/Controls/ColorPicker.xaml.cs:187-204 | the radii are finite exactly when H > 0; then inner = 2/3 · outer; with W, H > 0, 0 < inner < outer |
| `XFColorPicker.ColorPicker.constructor` | XFColorPickerControl/XFColorPickerControl/Controls/ColorPicker.xaml.cs:33-100 | property defaults (ColorsToDark, the seven-colour list, Horizontal); ring at (0,0); nothing picked |
| `XFColorPicker.ColorPicker.OnPaintSurface` | XFColorPickerControl/XFColorPickerControl/Controls/ColorPicker.xaml.cs:102-210 | the colour gradient stops are the converted `ColorList`; the dark/light layer is the order's table entry along the other axis. The ring stays at the last touch point and its radii come from the aspect ratio. Every paint picks the colour sampled at the truncated ring centre and raises one PickedColorChanged |
| `XFColorPicker.ColorPicker.OnTouch` | XFColorPickerControl/XFColorPickerControl/Controls/ColorPicker.xaml.cs:212-228 | every touch moves the ring to its location; the touch is handled, and one redraw requested, exactly when 0<x<W and 0<y<H |
| `XFColorPicker.TouchThenPaint` | XFColorPickerControl/XFColorPickerControl/Controls/ColorPicker.xaml.cs:157-214 | after a touch anywhere, the next paint picks the colour at the truncated touch point |
| `Agreement.SecondaryTablesAgree` | XFColorPickerControl/XFColorPickerControl/Controls/ColorPicker.xaml.cs:230-297 | for every integer value, `GetGradientOrder` and the NuGet `GetSecondaryLayerColors` return the same stops, fallback included |
| `Agreement.RenamingPreservesMembers` | Nuget/Udara.Plugin.XFColorPickerControl/ColorPicker.xaml.cs:485-494 | renaming GradientOrder members to ColorSpectrumStyle members (Colors→Hue, Dark→Shade, Light→Tint) keeps values and stops, is one-to-one, and maps the default to the default |
| `Agreement.GradientAxesAgree` | Nuget/Udara.Plugin.XFColorPickerControl/ColorPicker.xaml.cs:268-296 | for the same direction value, both versions end the primary and the secondary gradients at the same points |

## Left out

- SkiaSharp drawing is not modelled: the shader's interpolation, alpha compositing, `Clear`, `DrawPaint` and `DrawCircle`. A paint is described by the gradients and circles it hands to SkiaSharp (`Frame`).
- Pixel read-back (`ReadPixels`, `GetPixel`) is a foreign call. It is the parameter `sample`, a function of the truncated integer coordinate. What it returns for coordinates outside the surface is not modelled.
- Colour conversion is also foreign. `ColorTypeConverter.ConvertFromInvariantString` with `ToSKColor`, and `Color.FromHex` with `ToSKColor`, are the parameters `parse`/`fromHex`. The exception that converter throws for a malformed string is not modelled. `ToFormsColor` is taken as the identity on colours.
- `GetSecondaryLayerColors` and `GetGradientOrder` allocate a new array on each call; the model returns a sequence.
- Property plumbing is not modelled for the style, colour-list, direction and ring properties: host assignments to them are plain field writes, and their redraw requests are not counted. For the value-type properties (the enums and the `double` units) the `newValue != null` test is always true, so those else branches, including the ones at lines 193 and 222 that reset `ColorFlowDirection`, are dead and not modelled.
- A null colour list is not modelled; `baseColorList` and `colorList` are always sequences. In the NuGet control `BaseColorList` is an `IEnumerable`, a reference type, so assigning null runs the else branch at line 86, which stores `default` (null) and requests no redraw; the next paint's `foreach` at line 264 then throws a `NullReferenceException`. In the first control a null `ColorList` makes `ForEach` throw in the same way (XFColorPickerControl/XFColorPickerControl/Controls/ColorPicker.xaml.cs:119).
- The items of `BaseColorList` are arbitrary objects, each passed through `ToString()` before conversion (line 265). The model holds the resulting strings, `seq<string>`, and does not model the objects or their `ToString`.
- NugetColorPicker.ColorPicker.SetPickerPosition: modelled only for calls that pass the units already stored, the only calls the control makes (lines 190 and 219, after the property has taken the new value). With other units its two property assignments would re-run the callbacks and call it again, which the model does not capture.
- `Device.RuntimePlatform == Device.UWP` is the boolean parameter `onUwp` of the NuGet `OnTouch`.
- Floating-point rounding and the `float`/`double` conversions are not modelled; all arithmetic is exact over `real`. `OnTouch`'s promise that the ring lands exactly on the touch point holds only in that idealisation.
- `e.Handled` is the `handled` result of the touch handlers.
- `PickerRingPositionChanged` is declared in the NuGet control but never raised, so it has no counterpart.
- The demo pages and `ColorHelpers.IsColorDark` are demo UI, not part of the controls.
