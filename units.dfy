/** The closed set of CSS length units the converter knows, their textual
    suffixes, their declaration order, and the constant metadata catalogue
    (src/lib/unitConversions.ts, lines 2-131). */
module Units {

  /** The 13 unit kinds, in the order the `UnitType` union declares them. */
  datatype Unit = Px | Rem | Em | Vh | Vw | Percent | Vmin | Vmax | Cm | Mm | In | Pt | Pc

  /** The literal string that names a unit in CSS and in the UI: one to four
      characters, and `%` only for the percentage. */
  function Symbol(u: Unit): (s: string)
    ensures 1 <= |s| <= 4
    ensures s == "%" <==> u == Percent
  {
    match u
    case Px => "px"
    case Rem => "rem"
    case Em => "em"
    case Vh => "vh"
    case Vw => "vw"
    case Percent => "%"
    case Vmin => "vmin"
    case Vmax => "vmax"
    case Cm => "cm"
    case Mm => "mm"
    case In => "in"
    case Pt => "pt"
    case Pc => "pc"
  }

  /** Different units have different suffixes, so a suffix names its unit. */
  lemma SymbolInjective(u: Unit, v: Unit)
    ensures Symbol(u) == Symbol(v) <==> u == v
  {
  }

  /** The list of all units in declaration order. */
  const AllUnits: seq<Unit> := [Px, Rem, Em, Vh, Vw, Percent, Vmin, Vmax, Cm, Mm, In, Pt, Pc]

  /** `AllUnits` lists every unit, and lists none twice. */
  lemma AllUnitsComplete(u: Unit)
    ensures u in AllUnits
    ensures forall i, j :: 0 <= i < j < |AllUnits| ==> AllUnits[i] != AllUnits[j]
  {
  }

  /** One descriptor of the `UNITS_INFO` catalogue. */
  datatype UnitInfo = UnitInfo(
    name: string,
    description: string,
    bestFor: seq<string>,
    avoid: seq<string>,
    responsiveRating: int,
    browserSupport: int)

  /** The constant catalogue `UNITS_INFO`, total over the enumeration; one
      constant per entry below. Only rem has the top responsive rating; px,
      rem, em and % have full browser support, and cm, mm, in and pc the
      lowest. */
  function Info(u: Unit): (info: UnitInfo)
    ensures info.responsiveRating == 5 <==> u == Rem
    ensures info.browserSupport == 5 <==> u in {Px, Rem, Em, Percent}
    ensures info.browserSupport == 3 <==> u in {Cm, Mm, In, Pc}
  {
    match u
    case Px => PxInfo
    case Rem => RemInfo
    case Em => EmInfo
    case Vh => VhInfo
    case Vw => VwInfo
    case Percent => PercentInfo
    case Vmin => VminInfo
    case Vmax => VmaxInfo
    case Cm => CmInfo
    case Mm => MmInfo
    case In => InInfo
    case Pt => PtInfo
    case Pc => PcInfo
  }

  const PxInfo: UnitInfo := UnitInfo(
    "Pixels",
    "Pixels (px) are a fixed-size unit that corresponds to actual pixels on the screen.",
    ["Borders", "Shadows", "Small, fixed-size elements", "Precise positioning"],
    ["Text sizing", "Responsive layouts", "Container widths"],
    1, 5)

  const RemInfo: UnitInfo := UnitInfo(
    "Root EM",
    "Relative to the font-size of the root element (html). 1rem equals the font-size of the html element.",
    ["Text sizing", "Responsive layouts", "Component sizing", "Margins and padding"],
    ["When you need pixel-precise measurements"],
    5, 5)

  const EmInfo: UnitInfo := UnitInfo(
    "EM",
    "Relative to the font-size of the parent element. Creates a compounding effect when nested.",
    ["Text sizing", "Element sizing relative to text", "Component internal spacing"],
    ["Deep nested elements", "When you need predictable sizing"],
    4, 5)

  const VhInfo: UnitInfo := UnitInfo(
    "Viewport Height",
    "1vh is equal to 1% of the viewport height.",
    ["Full-height layouts", "Vertical spacing relative to screen", "Hero sections"],
    ["Mobile layouts (due to address bar issues)", "When height depends on content"],
    4, 4)

  const VwInfo: UnitInfo := UnitInfo(
    "Viewport Width",
    "1vw is equal to 1% of the viewport width.",
    ["Full-width layouts", "Responsive typography", "Horizontal spacing"],
    ["Text sizing (accessibility issues)", "When width depends on content"],
    4, 4)

  const PercentInfo: UnitInfo := UnitInfo(
    "Percentage",
    "Relative to the parent element's size.",
    ["Fluid layouts", "Responsive columns", "Padding and margin"],
    ["When parent size is unknown or variable"],
    4, 5)

  const VminInfo: UnitInfo := UnitInfo(
    "Viewport Minimum",
    "1vmin is equal to 1% of the viewport's smaller dimension (height or width).",
    ["Responsive elements that should scale with the smaller dimension", "Maintaining aspect ratios"],
    ["When you need explicit control over horizontal/vertical scaling"],
    4, 4)

  const VmaxInfo: UnitInfo := UnitInfo(
    "Viewport Maximum",
    "1vmax is equal to 1% of the viewport's larger dimension (height or width).",
    ["Elements that should scale with the larger dimension", "Full-screen layouts"],
    ["Mobile interfaces (can cause overflow)", "When size predictability is important"],
    3, 4)

  const CmInfo: UnitInfo := UnitInfo(
    "Centimeters",
    "Physical unit of measurement, primarily for print.",
    ["Print layouts", "Physical dimension references"],
    ["Screen layouts", "Responsive designs"],
    1, 3)

  const MmInfo: UnitInfo := UnitInfo(
    "Millimeters",
    "Physical unit of measurement, primarily for print.",
    ["Print layouts", "Physical dimension references"],
    ["Screen layouts", "Responsive designs"],
    1, 3)

  const InInfo: UnitInfo := UnitInfo(
    "Inches",
    "Physical unit of measurement, primarily for print.",
    ["Print layouts", "Physical dimension references"],
    ["Screen layouts", "Responsive designs"],
    1, 3)

  const PtInfo: UnitInfo := UnitInfo(
    "Points",
    "1pt is equal to 1/72 of an inch. Used in print and sometimes for text sizing.",
    ["Print layouts", "Text in emails"],
    ["Web layouts", "Responsive designs"],
    1, 4)

  const PcInfo: UnitInfo := UnitInfo(
    "Picas",
    "1pc is equal to 12 points or 1/6 of an inch. Used in typography and print.",
    ["Print layouts", "Traditional typography"],
    ["Web layouts", "Responsive designs"],
    1, 3)

  /** A descriptor is well formed when both ratings lie in 1..5 and both tag
      lists are non-empty. */
  predicate WellFormed(info: UnitInfo)
  {
    && 1 <= info.responsiveRating <= 5
    && 1 <= info.browserSupport <= 5
    && |info.bestFor| > 0
    && |info.avoid| > 0
  }

  /** The catalogue is total and every descriptor in it is well formed. */
  lemma CatalogueWellFormed(u: Unit)
    ensures WellFormed(Info(u))
  {
    match u
    case Px =>
    case Rem =>
    case Em =>
    case Vh =>
    case Vw =>
    case Percent =>
    case Vmin =>
    case Vmax =>
    case Cm =>
    case Mm =>
    case In =>
    case Pt =>
    case Pc =>
  }
}
