/** The quick-reference conversion matrix of the conversion table
    (src/components/UnitConversionTable.tsx, `getConversions`): a 13 by 13
    matrix filled with "N/A", then the 6 by 6 block of displayed units
    overwritten cell by cell with hand-written factors or notes. */
module ConversionTable {
  import opened Units
  import opened Conversions

  /** A matrix cell: a numeric factor (how many target units one source unit
      makes) or a note. */
  datatype Entry = Num(value: real) | Text(note: string)

  const NotApplicable: string := "N/A"
  const DependsOnParent: string := "Depends on parent"
  const DependsOnContext: string := "Depends on context"

  /** The units the table shows, in column order. */
  const DisplayUnits: seq<Unit> := [Px, Rem, Em, Percent, Vh, Vw]

  /** The units the matrix is initialised over, in the order they are visited. */
  const MatrixUnits: seq<Unit> := [Px, Rem, Em, Percent, Vh, Vw, Vmin, Vmax, Cm, Mm, In, Pt, Pc]

  lemma MatrixUnitsComplete(u: Unit)
    ensures u in MatrixUnits
  {
  }

  /** The cell the table should hold for one source unit `f` and target unit
      `t`: outside the displayed block "N/A"; on the diagonal 1; from em and %
      a note, since both depend on an element the table does not know; into
      % a note; everywhere else the converter's value of one `f` in `t`.
      Every numeric cell is a positive factor. */
  function Expected(f: Unit, t: Unit, vp: Viewport): (e: Entry)
    requires ValidViewport(vp)
    ensures e.Num? ==> e.value > 0.0
  {
    ConvertPositive(1.0, f, t, vp);
    if f !in DisplayUnits || t !in DisplayUnits then Text(NotApplicable)
    else if f == t then Num(1.0)
    else if f == Em || f == Percent then
      (if t == Vh || t == Vw then Text(DependsOnContext) else Text(DependsOnParent))
    else if t == Percent then Text(DependsOnParent)
    else Num(Convert(1.0, f, t, vp))
  }

  /** The hand-written factors for one pixel agree with the converter. */
  lemma PixelFactors(vp: Viewport)
    requires ValidViewport(vp)
    ensures Convert(1.0, Px, Rem, vp) == 1.0 / 16.0
    ensures Convert(1.0, Px, Em, vp) == 1.0 / 16.0
    ensures Convert(1.0, Px, Vh, vp) == 100.0 / vp.height
    ensures Convert(1.0, Px, Vw, vp) == 100.0 / vp.width
  {
  }

  /** The hand-written factors for one rem agree with the converter. */
  lemma RemFactors(vp: Viewport)
    requires ValidViewport(vp)
    ensures Convert(1.0, Rem, Px, vp) == 16.0
    ensures Convert(1.0, Rem, Em, vp) == 1.0
    ensures Convert(1.0, Rem, Vh, vp) == 1600.0 / vp.height
    ensures Convert(1.0, Rem, Vw, vp) == 1600.0 / vp.width
  {
  }

  /** The hand-written factors for one vh agree with the converter. */
  lemma VhFactors(vp: Viewport)
    requires ValidViewport(vp)
    ensures Convert(1.0, Vh, Px, vp) == vp.height / 100.0
    ensures Convert(1.0, Vh, Rem, vp) == (vp.height / 100.0) / 16.0
    ensures Convert(1.0, Vh, Em, vp) == (vp.height / 100.0) / 16.0
    ensures Convert(1.0, Vh, Vw, vp) == vp.height / vp.width
  {
  }

  /** The hand-written factors for one vw agree with the converter. */
  lemma VwFactors(vp: Viewport)
    requires ValidViewport(vp)
    ensures Convert(1.0, Vw, Px, vp) == vp.width / 100.0
    ensures Convert(1.0, Vw, Rem, vp) == (vp.width / 100.0) / 16.0
    ensures Convert(1.0, Vw, Em, vp) == (vp.width / 100.0) / 16.0
    ensures Convert(1.0, Vw, Vh, vp) == vp.width / vp.height
  {
  }

  /** The diagonal of the displayed block is 1. */
  lemma DiagonalIsOne(u: Unit, vp: Viewport)
    requires ValidViewport(vp) && u in DisplayUnits
    ensures Expected(u, u, vp) == Num(1.0)
    ensures Convert(1.0, u, u, vp) == 1.0
  {
    Identity(1.0, u, vp);
  }

  /** One pixel is 1/16 rem and 1/16 em; one rem is 16 pixels. */
  lemma RootFontCells(vp: Viewport)
    requires ValidViewport(vp)
    ensures Expected(Px, Rem, vp) == Num(1.0 / 16.0)
    ensures Expected(Px, Em, vp) == Num(1.0 / 16.0)
    ensures Expected(Rem, Px, vp) == Num(16.0)
  {
    PixelFactors(vp);
    RemFactors(vp);
  }

  /** Every displayed row but % maps to % as "Depends on parent", and the %
      row holds no number except its diagonal. */
  lemma PercentColumnAndRow(u: Unit, vp: Viewport)
    requires ValidViewport(vp)
    ensures u in DisplayUnits && u != Percent ==> Expected(u, Percent, vp) == Text(DependsOnParent)
    ensures Expected(Percent, u, vp).Num? <==> u == Percent
  {
  }

  /** Every numeric cell, the literal 1 on the diagonal included, is the
      converter's value of one source unit in the target unit. */
  lemma NumericCellsAreConversions(f: Unit, t: Unit, vp: Viewport)
    requires ValidViewport(vp)
    ensures Expected(f, t, vp).Num? ==> Expected(f, t, vp).value == Convert(1.0, f, t, vp)
  {
    if f == t {
      Identity(1.0, f, vp);
    }
  }

  /** The em column repeats the rem column in every row that has numbers,
      since em is taken relative to the root font size. */
  lemma EmColumnIsRemColumn(f: Unit, vp: Viewport)
    requires ValidViewport(vp) && f in {Px, Rem, Vh, Vw}
    ensures Expected(f, Em, vp) == Expected(f, Rem, vp)
  {
    if f == Rem {
      Identity(1.0, Rem, vp);
      EmIsRem(1.0, Rem, vp);
    } else {
      EmIsRem(1.0, f, vp);
    }
  }

  /** The rem row is the px row scaled by the 16px root font size. */
  lemma RemRowScalesPixelRow(t: Unit, vp: Viewport)
    requires ValidViewport(vp) && t in {Px, Rem, Em, Vh, Vw}
    ensures Expected(Rem, t, vp).Num? && Expected(Px, t, vp).Num?
    ensures Expected(Rem, t, vp).value == 16.0 * Expected(Px, t, vp).value
  {
    PixelFactors(vp);
    RemFactors(vp);
    if t == Vh {
      assert 1600.0 / vp.height == 16.0 * (100.0 / vp.height);
    } else if t == Vw {
      assert 1600.0 / vp.width == 16.0 * (100.0 / vp.width);
    }
  }

  /** The vh-to-vw and vw-to-vh cells are reciprocal. */
  lemma ViewportCellsReciprocal(vp: Viewport)
    requires ValidViewport(vp)
    ensures Expected(Vh, Vw, vp) == Num(vp.height / vp.width)
    ensures Expected(Vw, Vh, vp) == Num(vp.width / vp.height)
    ensures Expected(Vh, Vw, vp).value * Expected(Vw, Vh, vp).value == 1.0
  {
    VhFactors(vp);
    VwFactors(vp);
    ReciprocalRatio(vp.height, vp.width);
  }

  lemma ReciprocalRatio(a: real, b: real)
    requires a > 0.0 && b > 0.0
    ensures (a / b) * (b / a) == 1.0
  {
  }

  /** A row holding "N/A" for every unit. */
  function BlankRow(): map<Unit, Entry>
  {
    map t | t in MatrixUnits :: Text(NotApplicable)
  }

  /** A matrix whose every row is blank. */
  ghost predicate Blank(m: map<Unit, map<Unit, Entry>>)
  {
    forall f: Unit :: f in m && m[f] == BlankRow()
  }

  /** A row with "N/A" for every unit is the blank row. */
  lemma FullRowIsBlank(row: map<Unit, Entry>)
    requires forall t: Unit :: t in row && row[t] == Text(NotApplicable)
    ensures row == BlankRow()
  {
    forall t: Unit ensures t in BlankRow() { MatrixUnitsComplete(t); }
  }

  /** The nested loop at the start of `getConversions`: a row for every unit,
      each holding "N/A" for every unit. */
  method InitMatrix() returns (m: map<Unit, map<Unit, Entry>>)
    ensures Blank(m)
  {
    m := map[];
    var i := 0;
    while i < |MatrixUnits|
      invariant 0 <= i <= |MatrixUnits|
      invariant forall f :: f in m <==> f in MatrixUnits[..i]
      invariant forall f :: f in m ==> m[f] == BlankRow()
    {
      var fromUnit := MatrixUnits[i];
      m := m[fromUnit := map[]];
      var j := 0;
      while j < |MatrixUnits|
        invariant 0 <= j <= |MatrixUnits|
        invariant forall f :: f in m <==> f in MatrixUnits[..i + 1]
        invariant forall f :: f in m && f != fromUnit ==> m[f] == BlankRow()
        invariant forall t :: t in m[fromUnit] <==> t in MatrixUnits[..j]
        invariant forall t :: t in m[fromUnit] ==> m[fromUnit][t] == Text(NotApplicable)
      {
        m := m[fromUnit := m[fromUnit][MatrixUnits[j] := Text(NotApplicable)]];
        j := j + 1;
      }
      forall t: Unit ensures t in m[fromUnit] {
        MatrixUnitsComplete(t);
        assert MatrixUnits[..j] == MatrixUnits;
      }
      FullRowIsBlank(m[fromUnit]);
      i := i + 1;
    }
    forall f: Unit
      ensures f in m && m[f] == BlankRow()
    {
      MatrixUnitsComplete(f);
      assert MatrixUnits[..i] == MatrixUnits;
    }
  }

  /** Rows and columns of undisplayed units are never written: their cells
      keep the blank "N/A". */
  lemma HiddenCellIsBlank(f: Unit, t: Unit, vp: Viewport)
    requires ValidViewport(vp) && (f !in DisplayUnits || t !in DisplayUnits)
    ensures Expected(f, t, vp) == Text(NotApplicable)
    ensures t in BlankRow() && BlankRow()[t] == Expected(f, t, vp)
  {
    MatrixUnitsComplete(t);
  }

  /** The block of `getConversions` that writes the px row. */
  method FillPixelRow(row: map<Unit, Entry>, vp: Viewport) returns (r: map<Unit, Entry>)
    requires ValidViewport(vp) && row == BlankRow()
    ensures forall t: Unit :: t in r && r[t] == Expected(Px, t, vp)
  {
    PixelFactors(vp);
    r := row;
    r := r[Px := Num(1.0)];
    r := r[Rem := Num(1.0 / 16.0)];
    r := r[Em := Num(1.0 / 16.0)];
    r := r[Percent := Text(DependsOnParent)];
    r := r[Vh := Num(100.0 / vp.height)];
    r := r[Vw := Num(100.0 / vp.width)];
    forall t: Unit
      ensures t in r && r[t] == Expected(Px, t, vp)
    {
      if t !in DisplayUnits {
        HiddenCellIsBlank(Px, t, vp);
      }
    }
  }

  /** The block of `getConversions` that writes the rem row. */
  method FillRemRow(row: map<Unit, Entry>, vp: Viewport) returns (r: map<Unit, Entry>)
    requires ValidViewport(vp) && row == BlankRow()
    ensures forall t: Unit :: t in r && r[t] == Expected(Rem, t, vp)
  {
    RemFactors(vp);
    r := row;
    r := r[Px := Num(16.0)];
    r := r[Rem := Num(1.0)];
    r := r[Em := Num(1.0)];
    r := r[Percent := Text(DependsOnParent)];
    r := r[Vh := Num(1600.0 / vp.height)];
    r := r[Vw := Num(1600.0 / vp.width)];
    forall t: Unit
      ensures t in r && r[t] == Expected(Rem, t, vp)
    {
      if t !in DisplayUnits {
        HiddenCellIsBlank(Rem, t, vp);
      }
    }
  }

  /** The block of `getConversions` that writes the em row. */
  method FillEmRow(row: map<Unit, Entry>, vp: Viewport) returns (r: map<Unit, Entry>)
    requires ValidViewport(vp) && row == BlankRow()
    ensures forall t: Unit :: t in r && r[t] == Expected(Em, t, vp)
  {
    r := row;
    r := r[Px := Text(DependsOnParent)];
    r := r[Rem := Text(DependsOnParent)];
    r := r[Em := Num(1.0)];
    r := r[Percent := Text(DependsOnParent)];
    r := r[Vh := Text(DependsOnContext)];
    r := r[Vw := Text(DependsOnContext)];
    forall t: Unit
      ensures t in r && r[t] == Expected(Em, t, vp)
    {
      if t !in DisplayUnits {
        HiddenCellIsBlank(Em, t, vp);
      }
    }
  }

  /** The block of `getConversions` that writes the % row. */
  method FillPercentRow(row: map<Unit, Entry>, vp: Viewport) returns (r: map<Unit, Entry>)
    requires ValidViewport(vp) && row == BlankRow()
    ensures forall t: Unit :: t in r && r[t] == Expected(Percent, t, vp)
  {
    r := row;
    r := r[Px := Text(DependsOnParent)];
    r := r[Rem := Text(DependsOnParent)];
    r := r[Em := Text(DependsOnParent)];
    r := r[Percent := Num(1.0)];
    r := r[Vh := Text(DependsOnContext)];
    r := r[Vw := Text(DependsOnContext)];
    forall t: Unit
      ensures t in r && r[t] == Expected(Percent, t, vp)
    {
      if t !in DisplayUnits {
        HiddenCellIsBlank(Percent, t, vp);
      }
    }
  }

  /** The block of `getConversions` that writes the vh row. */
  method FillVhRow(row: map<Unit, Entry>, vp: Viewport) returns (r: map<Unit, Entry>)
    requires ValidViewport(vp) && row == BlankRow()
    ensures forall t: Unit :: t in r && r[t] == Expected(Vh, t, vp)
  {
    VhFactors(vp);
    r := row;
    r := r[Px := Num(vp.height / 100.0)];
    r := r[Rem := Num((vp.height / 100.0) / 16.0)];
    r := r[Em := Num((vp.height / 100.0) / 16.0)];
    r := r[Percent := Text(DependsOnParent)];
    r := r[Vh := Num(1.0)];
    r := r[Vw := Num(vp.height / vp.width)];
    forall t: Unit
      ensures t in r && r[t] == Expected(Vh, t, vp)
    {
      if t !in DisplayUnits {
        HiddenCellIsBlank(Vh, t, vp);
      }
    }
  }

  /** The block of `getConversions` that writes the vw row. */
  method FillVwRow(row: map<Unit, Entry>, vp: Viewport) returns (r: map<Unit, Entry>)
    requires ValidViewport(vp) && row == BlankRow()
    ensures forall t: Unit :: t in r && r[t] == Expected(Vw, t, vp)
  {
    VwFactors(vp);
    r := row;
    r := r[Px := Num(vp.width / 100.0)];
    r := r[Rem := Num((vp.width / 100.0) / 16.0)];
    r := r[Em := Num((vp.width / 100.0) / 16.0)];
    r := r[Percent := Text(DependsOnParent)];
    r := r[Vh := Num(vp.width / vp.height)];
    r := r[Vw := Num(1.0)];
    forall t: Unit
      ensures t in r && r[t] == Expected(Vw, t, vp)
    {
      if t !in DisplayUnits {
        HiddenCellIsBlank(Vw, t, vp);
      }
    }
  }

  /** `getConversions`: fills the whole matrix with "N/A", then writes the
      displayed block one row at a time. The viewport stands in for the
      window's inner size. */
  method GetConversions(vp: Viewport) returns (units: seq<Unit>, conversions: map<Unit, map<Unit, Entry>>)
    requires ValidViewport(vp)
    ensures units == DisplayUnits
    ensures forall f: Unit :: f in conversions
    ensures forall f: Unit, t: Unit :: t in conversions[f] && conversions[f][t] == Expected(f, t, vp)
  {
    units := DisplayUnits;
    conversions := InitMatrix();
    var pxRow := FillPixelRow(conversions[Px], vp);
    conversions := conversions[Px := pxRow];
    var remRow := FillRemRow(conversions[Rem], vp);
    conversions := conversions[Rem := remRow];
    var emRow := FillEmRow(conversions[Em], vp);
    conversions := conversions[Em := emRow];
    var percentRow := FillPercentRow(conversions[Percent], vp);
    conversions := conversions[Percent := percentRow];
    var vhRow := FillVhRow(conversions[Vh], vp);
    conversions := conversions[Vh := vhRow];
    var vwRow := FillVwRow(conversions[Vw], vp);
    conversions := conversions[Vw := vwRow];
    forall f: Unit, t: Unit
      ensures t in conversions[f] && conversions[f][t] == Expected(f, t, vp)
    {
      if f !in DisplayUnits {
        HiddenCellIsBlank(f, t, vp);
      }
    }
  }
}
