/** The conversion engine of src/lib/unitConversions.ts: pixel-based unit
    conversion, the context-keyed unit suggestion and the display formatting.
    Numbers are exact reals; the viewport size that the source reads from the
    browser window is an explicit parameter. */
module Conversions {
  import opened Units

  /** Base font size of the document root, in pixels. */
  const BaseFontSize: real := 16.0

  /** The viewport dimensions, in pixels, read at conversion time. */
  datatype Viewport = Viewport(width: real, height: real)

  /** Both viewport dimensions are positive: the only viewports the
      viewport-relative divisions are defined for. */
  predicate ValidViewport(vp: Viewport)
  {
    vp.width > 0.0 && vp.height > 0.0
  }

  /** `Math.min` and `Math.max` on two reals. */
  function Min(a: real, b: real): real { if a <= b then a else b }
  function Max(a: real, b: real): real { if a <= b then b else a }

  /** How many pixels one unit of `u` stands for: the reference scale against
      which both stages of `Convert` are proved. */
  function PixelsPerUnit(u: Unit, vp: Viewport): real
  {
    match u
    case Px => 1.0
    case Rem => BaseFontSize
    case Em => BaseFontSize
    case Vh => vp.height / 100.0
    case Vw => vp.width / 100.0
    case Percent => vp.width / 100.0
    case Vmin => Min(vp.width, vp.height) / 100.0
    case Vmax => Max(vp.width, vp.height) / 100.0
    case Cm => 37.8
    case Mm => 3.78
    case In => 96.0
    case Pt => 1.33
    case Pc => 16.0
  }

  /** Every unit stands for a positive number of pixels on a valid viewport. */
  lemma PixelsPerUnitPositive(u: Unit, vp: Viewport)
    requires ValidViewport(vp)
    ensures PixelsPerUnit(u, vp) > 0.0
  {
  }

  /** `pxToRem`: pixels to root ems; undone by `RemToPx`. */
  function PxToRem(px: real): (rem: real)
    ensures rem * BaseFontSize == px
  {
    px / BaseFontSize
  }

  /** `remToPx`: root ems to pixels; undone by `PxToRem`. */
  function RemToPx(rem: real): (px: real)
    ensures PxToRem(px) == rem
  {
    rem * BaseFontSize
  }

  /** Stage one of `convertUnits`: the value expressed in pixels, one rule per
      source unit; each rule scales by the unit's pixel size. */
  function ToPx(value: real, u: Unit, vp: Viewport): (px: real)
    ensures px == value * PixelsPerUnit(u, vp)
  {
    match u
    case Px => value
    case Rem => RemToPx(value)
    case Em => value * BaseFontSize
    case Vh => (value / 100.0) * vp.height
    case Vw => (value / 100.0) * vp.width
    case Percent => (value / 100.0) * vp.width
    case Vmin => (value / 100.0) * Min(vp.width, vp.height)
    case Vmax => (value / 100.0) * Max(vp.width, vp.height)
    case Cm => value * 37.8
    case Mm => value * 3.78
    case In => value * 96.0
    case Pt => value * 1.33
    case Pc => value * 16.0
  }

  /** Stage two of `convertUnits`: a pixel amount expressed in the target unit,
      by inverting that unit's rule; the result, scaled back by the unit's
      pixel size, is the pixel amount. */
  function FromPx(px: real, u: Unit, vp: Viewport): (value: real)
    requires ValidViewport(vp)
    ensures value * PixelsPerUnit(u, vp) == px
  {
    match u
    case Px => px
    case Rem => PxToRem(px)
    case Em => px / BaseFontSize
    case Vh => Hundredths(px, vp.height)
    case Vw => Hundredths(px, vp.width)
    case Percent => Hundredths(px, vp.width)
    case Vmin => Hundredths(px, Min(vp.width, vp.height))
    case Vmax => Hundredths(px, Max(vp.width, vp.height))
    case Cm => px / 37.8
    case Mm => px / 3.78
    case In => px / 96.0
    case Pt => px / 1.33
    case Pc => px / 16.0
  }

  /** `(px / side) * 100`: how many hundredths of a positive viewport side a
      pixel amount spans; scaling back by a hundredth of the side gives the
      pixels. */
  function Hundredths(px: real, side: real): (h: real)
    requires side > 0.0
    ensures h * (side / 100.0) == px
  {
    assert ((px / side) * 100.0) * (side / 100.0) == (px / side) * side;
    (px / side) * 100.0
  }

  /** The two stages are mutually inverse, and each scales by the unit's
      pixel size: the facts every conversion law below rests on. */
  predicate StagesInverse(x: real, u: Unit, vp: Viewport)
    requires ValidViewport(vp)
  {
    && FromPx(ToPx(x, u, vp), u, vp) == x
    && ToPx(FromPx(x, u, vp), u, vp) == x
    && ToPx(x, u, vp) == x * PixelsPerUnit(u, vp)
    && FromPx(x, u, vp) * PixelsPerUnit(u, vp) == x
  }

  /** Taking a percentage of a positive dimension `d` and dividing it back
      out are inverse, in either order, and amount to scaling by `p`, a
      hundredth of `d`. */
  lemma PercentOfDimension(x: real, d: real, p: real, up: real, back: real, down: real, forth: real)
    requires d > 0.0 && p == d / 100.0
    requires up == (x / 100.0) * d && back == (up / d) * 100.0
    requires down == (x / d) * 100.0 && forth == (down / 100.0) * d
    ensures back == x && forth == x
    ensures up == x * p && down * p == x
  {
    assert down * p == (x / d) * d;
  }

  /** The stages are inverse for the units measured against one viewport
      side (`vh`, `vw`, `%`). */
  lemma SideStagesInverse(x: real, u: Unit, vp: Viewport)
    requires ValidViewport(vp) && (u == Vh || u == Vw || u == Percent)
    ensures StagesInverse(x, u, vp)
  {
    var d := if u == Vh then vp.height else vp.width;
    PercentOfDimension(x, d, PixelsPerUnit(u, vp), ToPx(x, u, vp), FromPx(ToPx(x, u, vp), u, vp),
                       FromPx(x, u, vp), ToPx(FromPx(x, u, vp), u, vp));
  }

  /** The stages are inverse for `vmin`, measured against the smaller
      viewport side. */
  lemma VminStagesInverse(x: real, vp: Viewport)
    requires ValidViewport(vp)
    ensures StagesInverse(x, Vmin, vp)
  {
    PercentOfDimension(x, Min(vp.width, vp.height), PixelsPerUnit(Vmin, vp), ToPx(x, Vmin, vp),
                       FromPx(ToPx(x, Vmin, vp), Vmin, vp), FromPx(x, Vmin, vp), ToPx(FromPx(x, Vmin, vp), Vmin, vp));
  }

  /** The stages are inverse for `vmax`, measured against the larger viewport
      side. */
  lemma VmaxStagesInverse(x: real, vp: Viewport)
    requires ValidViewport(vp)
    ensures StagesInverse(x, Vmax, vp)
  {
    PercentOfDimension(x, Max(vp.width, vp.height), PixelsPerUnit(Vmax, vp), ToPx(x, Vmax, vp),
                       FromPx(ToPx(x, Vmax, vp), Vmax, vp), FromPx(x, Vmax, vp), ToPx(FromPx(x, Vmax, vp), Vmax, vp));
  }

  /** The stages are inverse for the units of fixed pixel size. */
  lemma FixedStagesInverse(x: real, u: Unit, vp: Viewport)
    requires ValidViewport(vp)
    requires u in {Px, Rem, Em, Cm, Mm, In, Pt, Pc}
    ensures StagesInverse(x, u, vp)
  {
  }

  /** The stages are inverse for every unit. */
  lemma StagesInverseForAll(x: real, u: Unit, vp: Viewport)
    requires ValidViewport(vp)
    ensures StagesInverse(x, u, vp)
  {
    if u == Vh || u == Vw || u == Percent {
      SideStagesInverse(x, u, vp);
    } else if u == Vmin {
      VminStagesInverse(x, vp);
    } else if u == Vmax {
      VmaxStagesInverse(x, vp);
    } else {
      FixedStagesInverse(x, u, vp);
    }
  }

  /** `convertUnits`: the same length, re-expressed from `fromUnit` in
      `toUnit` through pixels: both stand for the same number of pixels. */
  function Convert(value: real, fromUnit: Unit, toUnit: Unit, vp: Viewport): (r: real)
    requires ValidViewport(vp)
    ensures ToPx(r, toUnit, vp) == ToPx(value, fromUnit, vp)
  {
    StagesInverseForAll(ToPx(value, fromUnit, vp), toUnit, vp);
    FromPx(ToPx(value, fromUnit, vp), toUnit, vp)
  }

  /** A positive length converts to a positive length, whatever the units. */
  lemma ConvertPositive(value: real, fromUnit: Unit, toUnit: Unit, vp: Viewport)
    requires ValidViewport(vp) && value > 0.0
    ensures Convert(value, fromUnit, toUnit, vp) > 0.0
  {
    ToPxPositive(value, fromUnit, vp);
    FromPxPositive(ToPx(value, fromUnit, vp), toUnit, vp);
  }

  /** Stage one keeps a positive value positive. */
  lemma ToPxPositive(value: real, u: Unit, vp: Viewport)
    requires ValidViewport(vp) && value > 0.0
    ensures ToPx(value, u, vp) > 0.0
  {
    match u
    case Vh => assert (value / 100.0) * vp.height > 0.0;
    case Vw => assert (value / 100.0) * vp.width > 0.0;
    case Percent => assert (value / 100.0) * vp.width > 0.0;
    case Vmin => assert (value / 100.0) * Min(vp.width, vp.height) > 0.0;
    case Vmax => assert (value / 100.0) * Max(vp.width, vp.height) > 0.0;
    case _ =>
  }

  /** Stage two keeps a positive pixel amount positive. */
  lemma FromPxPositive(px: real, u: Unit, vp: Viewport)
    requires ValidViewport(vp) && px > 0.0
    ensures FromPx(px, u, vp) > 0.0
  {
    match u
    case Vh => assert (px / vp.height) * 100.0 > 0.0;
    case Vw => assert (px / vp.width) * 100.0 > 0.0;
    case Percent => assert (px / vp.width) * 100.0 > 0.0;
    case Vmin => assert (px / Min(vp.width, vp.height)) * 100.0 > 0.0;
    case Vmax => assert (px / Max(vp.width, vp.height)) * 100.0 > 0.0;
    case _ =>
  }

  /** Converting a unit into itself returns the value unchanged. */
  lemma Identity(value: real, u: Unit, vp: Viewport)
    requires ValidViewport(vp)
    ensures Convert(value, u, u, vp) == value
  {
    StagesInverseForAll(value, u, vp);
  }

  /** Converting through an intermediate unit is the same as converting
      directly. */
  lemma Compose(value: real, a: Unit, b: Unit, c: Unit, vp: Viewport)
    requires ValidViewport(vp)
    ensures Convert(Convert(value, a, b, vp), b, c, vp) == Convert(value, a, c, vp)
  {
    StagesInverseForAll(ToPx(value, a, vp), b, vp);
  }

  /** Converting there and back returns the original value, for every pair. */
  lemma RoundTrip(value: real, a: Unit, b: Unit, vp: Viewport)
    requires ValidViewport(vp)
    ensures Convert(Convert(value, a, b, vp), b, a, vp) == value
  {
    Compose(value, a, b, a, vp);
    Identity(value, a, vp);
  }

  /** The canonical fixed points: 16px is 1rem, 1rem is 16px, 96px is 1in,
      and 1in is 96/1.33pt under the engine's own point multiplier. */
  lemma FixedPoints(vp: Viewport)
    requires ValidViewport(vp)
    ensures Convert(16.0, Px, Rem, vp) == 1.0
    ensures Convert(1.0, Rem, Px, vp) == 16.0
    ensures Convert(96.0, Px, In, vp) == 1.0
    ensures Convert(1.0, In, Pt, vp) == 96.0 / 1.33
  {
  }

  /** Viewport-height units follow the current viewport height: 50vh is 400px
      at a height of 800 and 500px at a height of 1000. */
  lemma FollowsViewportHeight(width: real)
    requires width > 0.0
    ensures Convert(50.0, Vh, Px, Viewport(width, 800.0)) == 400.0
    ensures Convert(50.0, Vh, Px, Viewport(width, 1000.0)) == 500.0
  {
  }

  /** `em` is computed against the root font size, so it is an alias of
      `rem`, both as source and as target. */
  lemma EmIsRem(value: real, u: Unit, vp: Viewport)
    requires ValidViewport(vp)
    ensures Convert(value, Em, u, vp) == Convert(value, Rem, u, vp)
    ensures Convert(value, u, Em, vp) == Convert(value, u, Rem, vp)
  {
  }

  /** `%` is taken relative to the viewport width, so it is an alias of `vw`,
      both as source and as target. */
  lemma PercentIsVw(value: real, u: Unit, vp: Viewport)
    requires ValidViewport(vp)
    ensures Convert(value, Percent, u, vp) == Convert(value, Vw, u, vp)
    ensures Convert(value, u, Percent, vp) == Convert(value, u, Vw, vp)
  {
  }

  /** For a non-negative value, `vmin` never stands for more pixels than
      `vmax`, and on a square viewport the two coincide. */
  lemma VminAtMostVmax(value: real, vp: Viewport)
    requires ValidViewport(vp)
    requires value >= 0.0
    ensures ToPx(value, Vmin, vp) <= ToPx(value, Vmax, vp)
    ensures vp.width == vp.height ==> ToPx(value, Vmin, vp) == ToPx(value, Vmax, vp)
  {
    assert (value / 100.0) * Min(vp.width, vp.height) <= (value / 100.0) * Max(vp.width, vp.height);
  }

  /** The four usage contexts the editor offers. */
  const TypographyContext: string := "typography"
  const BordersContext: string := "borders"
  const SpacingContext: string := "spacing"
  const LayoutContext: string := "layout"

  /** The fallback ordering of the default branch of `suggestBestUnit`. */
  const DefaultOptions: seq<Unit> := [Rem, Em, Vh, Vw, Percent]

  /** `suggestBestUnit`: a unit for a usage context. It never looks at
      `fromUnit`; only the layout context looks at the value. */
  function SuggestBestUnit(context: string, value: real, fromUnit: Unit): (r: Unit)
    ensures r == Px <==> context == BordersContext
    ensures r == Percent <==> context == LayoutContext && value > 100.0
    ensures r == Rem <==> context != BordersContext && !(context == LayoutContext && value > 100.0)
  {
    if context == TypographyContext then Rem
    else if context == LayoutContext then (if value < 10.0 then Rem else if value > 100.0 then Percent else Rem)
    else if context == SpacingContext then (if value < 5.0 then Rem else Rem)
    else if context == BordersContext then Px
    else DefaultOptions[0]
  }

  /** The suggestion is the same whatever unit the value is in. */
  lemma SuggestionIgnoresFromUnit(context: string, value: real, a: Unit, b: Unit)
    ensures SuggestBestUnit(context, value, a) == SuggestBestUnit(context, value, b)
  {
  }

  /** Decimal places `formatUnitValue` uses for a unit. */
  function FormatPrecision(u: Unit): (p: nat)
    ensures p == 3 <==> u == Rem || u == Em
    ensures p == 2 <==> u in {Vw, Vh, Vmin, Vmax, Percent, Cm, Mm, In}
  {
    if u == Rem || u == Em then 3
    else if u == Vw || u == Vh || u == Vmin || u == Vmax || u == Percent then 2
    else if u == Cm || u == Mm || u == In then 2
    else 0
  }

  /** The remaining units, and only they, are formatted without decimals. */
  lemma NoDecimalsForPixelsAndPrintUnits(u: Unit)
    ensures FormatPrecision(u) == 0 <==> u in {Px, Pt, Pc}
  {
    match u
    case Px =>
    case Pt =>
    case Pc =>
    case _ =>
  }

  /** `formatUnitValue`: the value rendered with the unit's precision, followed
      by the unit's suffix. `toFixed` stands for the digit rendering of
      `Number.prototype.toFixed`. */
  function FormatUnitValue(value: real, u: Unit, toFixed: (real, nat) -> string): (s: string)
    ensures |s| >= |Symbol(u)|
    ensures s[|s| - |Symbol(u)|..] == Symbol(u)
    ensures s[..|s| - |Symbol(u)|] == toFixed(value, FormatPrecision(u))
  {
    toFixed(value, FormatPrecision(u)) + Symbol(u)
  }
}
