/** The decimal-precision rule of the animated value display
    (src/components/AnimatedValue.tsx): the number of decimals is chosen by
    membership of the unit string in three lists, and the unit is shown as a
    separate suffix after the digits. The digit rendering itself is the
    `toFixed` parameter. */
module AnimatedValue {
  import opened Units
  import opened Conversions

  const ThreeDecimals: seq<string> := ["rem", "em"]
  const ViewportUnits: seq<string> := ["vw", "vh", "vmin", "vmax", "%"]
  const PhysicalUnits: seq<string> := ["cm", "mm", "in", "pt", "pc"]

  /** The precision `formattedValue` picks for a unit string. */
  function DisplayPrecision(unit: string): (p: nat)
    ensures p == 3 <==> unit in ThreeDecimals
    ensures p == 2 <==> unit !in ThreeDecimals && (unit in ViewportUnits || unit in PhysicalUnits)
    ensures p == 0 <==> unit !in ThreeDecimals + ViewportUnits + PhysicalUnits
  {
    if unit in ThreeDecimals then 3
    else if unit in ViewportUnits then 2
    else if unit in PhysicalUnits then 2
    else 0
  }

  /** By unit: 3 decimals for rem and em, 0 for px, 2 for every other unit. */
  lemma DisplayPrecisionOfUnit(u: Unit)
    ensures DisplayPrecision(Symbol(u)) == 3 <==> u == Rem || u == Em
    ensures DisplayPrecision(Symbol(u)) == 0 <==> u == Px
  {
    match u
    case Px =>
    case Rem =>
    case Em =>
    case Vh =>
    case Vw =>
    case Percent =>
    case Vmin =>
    case Vmax =>
    case Cm =>
    case Mm =>
    case In =>
    case Pt =>
    case Pc =>
  }

  /** The display and `formatUnitValue` choose the same precision for every
      unit except pt and pc, which the display shows with 2 decimals and the
      formatter with none. */
  lemma AgreesWithFormatterExceptPrintUnits(u: Unit)
    ensures DisplayPrecision(Symbol(u)) == FormatPrecision(u) <==> u != Pt && u != Pc
    ensures u == Pt || u == Pc ==> DisplayPrecision(Symbol(u)) == 2 && FormatPrecision(u) == 0
  {
    match u
    case Px =>
    case Rem =>
    case Em =>
    case Vh =>
    case Vw =>
    case Percent =>
    case Vmin =>
    case Vmax =>
    case Cm =>
    case Mm =>
    case In =>
    case Pt =>
    case Pc =>
  }

  /** A string that names no unit gets no decimals. */
  lemma UnknownUnitGetsNoDecimals(unit: string)
    requires forall u: Unit :: Symbol(u) != unit
    ensures DisplayPrecision(unit) == 0
  {
    assert Symbol(Rem) == "rem" && Symbol(Em) == "em";
    assert Symbol(Vw) == "vw" && Symbol(Vh) == "vh" && Symbol(Vmin) == "vmin";
    assert Symbol(Vmax) == "vmax" && Symbol(Percent) == "%";
    assert Symbol(Cm) == "cm" && Symbol(Mm) == "mm" && Symbol(In) == "in";
    assert Symbol(Pt) == "pt" && Symbol(Pc) == "pc";
  }

  /** What the component shows: the formatted digits, then the unit. */
  datatype Shown = Shown(digits: string, suffix: string)

  /** The content of `AnimatedValue` for a value and unit string: the value
      rendered at the display precision, and the unit unchanged. */
  function Render(value: real, unit: string, toFixed: (real, nat) -> string): (s: Shown)
    ensures s.digits == toFixed(value, DisplayPrecision(unit))
    ensures s.suffix == unit
  {
    Shown(toFixed(value, DisplayPrecision(unit)), unit)
  }

  /** Away from pt and pc, the digits followed by the suffix are exactly
      the text `formatUnitValue` produces. */
  lemma RenderMatchesFormatter(value: real, u: Unit, toFixed: (real, nat) -> string)
    requires u != Pt && u != Pc
    ensures Render(value, Symbol(u), toFixed).digits + Render(value, Symbol(u), toFixed).suffix
         == FormatUnitValue(value, u, toFixed)
  {
    AgreesWithFormatterExceptPrintUnits(u);
  }
}
