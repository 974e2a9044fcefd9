/**
  The NuGet control renamed the first control's GradientOrder to
  ColorSpectrumStyle ("colors" became "hue", "dark" became "shade", "light"
  became "tint") and ColorListDirection to ColorFlowDirection. The
  lemmas here show that the renaming kept the drawing the same.
*/
module Agreement {
  import Nuget = NugetColorPicker
  import XF = XFColorPicker

  /** The NuGet style that an order of the first control was renamed to. */
  function RenamedStyle(o: XF.GradientOrder): Nuget.ColorSpectrumStyle {
    match o
    case Colors => Nuget.HueOnlyStyle
    case ColorsToDark => Nuget.HueToShadeStyle
    case DarkToColors => Nuget.ShadeToHueStyle
    case ColorsToLight => Nuget.HueToTintStyle
    case LightToColors => Nuget.TintToHueStyle
    case LightToColorsToDark => Nuget.TintToHueToShadeStyle
    case DarkToColorsToLight => Nuget.ShadeToHueToTintStyle
  }

  /**
    For every value the enum property can hold, named or not, both versions
    draw the same secondary layer.
  */
  lemma SecondaryTablesAgree(value: int)
    ensures Nuget.GetSecondaryLayerColors(value) == XF.GetGradientOrder(value)
  {
  }

  /**
    The renaming keeps each member's value and stops, is one-to-one, and maps
    the default order to the default style.
  */
  lemma RenamingPreservesMembers(o: XF.GradientOrder, p: XF.GradientOrder)
    ensures Nuget.StyleValue(RenamedStyle(o)) == XF.OrderValue(o)
    ensures Nuget.SecondaryStops(RenamedStyle(o)) == XF.OrderStops(o)
    ensures RenamedStyle(o) == RenamedStyle(p) ==> o == p
    ensures RenamedStyle(XF.DefaultGradientOrder) == Nuget.DefaultColorSpectrumStyle
  {
    SecondaryTablesAgree(XF.OrderValue(o));
  }

  /** Both versions place the two gradients along the same axes for the same direction value. */
  lemma GradientAxesAgree(direction: int, width: nat, height: nat)
    ensures Nuget.DirectionValue(Nuget.Horizontal) == XF.DirectionValue(XF.Horizontal)
    ensures Nuget.PrimaryGradientEnd(direction, width, height) == XF.PrimaryGradientEnd(direction, width, height)
    ensures Nuget.SecondaryGradientEnd(direction, width, height) == XF.SecondaryGradientEnd(direction, width, height)
  {
  }
}
