/** The decision logic of the unit recommendation panel
    (src/components/UnitRecommendation.tsx): the per-context rating table,
    the lookup with its fallbacks, the three rating bands, and what the panel
    shows (suggestion item, current-unit item, support and responsiveness
    dots). The JSX markup and animation are not modelled. */
module Recommendation {
  import opened Units
  import opened Conversions

  datatype Option<T> = None | Some(value: T)

  /** One cell of the table: a rating out of 5 and the reason shown for it. */
  datatype Rated = Rated(rating: int, reason: string)

  /** The recommendations for one usage context. */
  datatype ContextTable = ContextTable(title: string, recommendations: map<Unit, Rated>)

  /** A table that holds, for every unit, the row `entry` gives it. */
  function TableOf(title: string, entry: Unit -> Rated): (table: ContextTable)
    ensures table.title == title
    ensures forall u: Unit :: u in table.recommendations && table.recommendations[u] == entry(u)
  {
    assert forall u: Unit :: u in AllUnits by {
      forall u: Unit ensures u in AllUnits { AllUnitsComplete(u); }
    }
    ContextTable(title, map u | u in AllUnits :: entry(u))
  }

  /** The rows of the typography table, one constant per unit. */
  function TypographyEntry(u: Unit): (e: Rated)
    ensures 1 <= e.rating <= 5 && |e.reason| > 0
  {
    match u
    case Px => TypographyPx
    case Rem => TypographyRem
    case Em => TypographyEm
    case Percent => TypographyPercent
    case Vh => TypographyVh
    case Vw => TypographyVw
    case Vmin => TypographyVmin
    case Vmax => TypographyVmax
    case Cm => TypographyCm
    case Mm => TypographyMm
    case In => TypographyIn
    case Pt => TypographyPt
    case Pc => TypographyPc
  }

  const TypographyPx: Rated := Rated(2, "Pixels don't scale with user preferences, poor accessibility")
  const TypographyRem: Rated := Rated(5, "Scales with root font size, best for accessibility")
  const TypographyEm: Rated := Rated(4, "Good for relative sizing, but can compound when nested")
  const TypographyPercent: Rated := Rated(3, "Works for responsive text, but less predictable than rem/em")
  const TypographyVh: Rated := Rated(2, "Not ideal for text, as it relates to viewport height, not font size")
  const TypographyVw: Rated := Rated(3, "Can be used for fluid typography, but accessibility concerns")
  const TypographyVmin: Rated := Rated(3, "Can be good for maintaining readable text on various screens")
  const TypographyVmax: Rated := Rated(2, "Less predictable for typography")
  const TypographyCm: Rated := Rated(1, "Print-specific, not for screen typography")
  const TypographyMm: Rated := Rated(1, "Print-specific, not for screen typography")
  const TypographyIn: Rated := Rated(1, "Print-specific, not for screen typography")
  const TypographyPt: Rated := Rated(2, "Traditional print unit, not ideal for web")
  const TypographyPc: Rated := Rated(1, "Print-specific, not for screen typography")

  const TypographyTitle: string := "Typography Recommendations"
  const TypographyTable: ContextTable := TableOf(TypographyTitle, TypographyEntry)

  /** The rows of the borders table, one constant per unit. */
  function BordersEntry(u: Unit): (e: Rated)
    ensures 1 <= e.rating <= 5 && |e.reason| > 0
  {
    match u
    case Px => BordersPx
    case Rem => BordersRem
    case Em => BordersEm
    case Percent => BordersPercent
    case Vh => BordersVh
    case Vw => BordersVw
    case Vmin => BordersVmin
    case Vmax => BordersVmax
    case Cm => BordersCm
    case Mm => BordersMm
    case In => BordersIn
    case Pt => BordersPt
    case Pc => BordersPc
  }

  const BordersPx: Rated := Rated(5, "Perfect for borders - precise and consistent across devices")
  const BordersRem: Rated := Rated(3, "Can scale with user preference, but may be too precise for most borders")
  const BordersEm: Rated := Rated(2, "Depends on parent font size, usually not needed for borders")
  const BordersPercent: Rated := Rated(1, "Percentage of parent - unpredictable for borders")
  const BordersVh: Rated := Rated(1, "Not suitable for borders")
  const BordersVw: Rated := Rated(1, "Not suitable for borders")
  const BordersVmin: Rated := Rated(1, "Not suitable for borders")
  const BordersVmax: Rated := Rated(1, "Not suitable for borders")
  const BordersCm: Rated := Rated(1, "Print-specific, not for screen")
  const BordersMm: Rated := Rated(1, "Print-specific, not for screen")
  const BordersIn: Rated := Rated(1, "Print-specific, not for screen")
  const BordersPt: Rated := Rated(2, "Print unit, use px instead")
  const BordersPc: Rated := Rated(1, "Print-specific, not for screen")

  const BordersTitle: string := "Border Recommendations"
  const BordersTable: ContextTable := TableOf(BordersTitle, BordersEntry)

  /** The rows of the spacing table, one constant per unit. */
  function SpacingEntry(u: Unit): (e: Rated)
    ensures 1 <= e.rating <= 5 && |e.reason| > 0
  {
    match u
    case Px => SpacingPx
    case Rem => SpacingRem
    case Em => SpacingEm
    case Percent => SpacingPercent
    case Vh => SpacingVh
    case Vw => SpacingVw
    case Vmin => SpacingVmin
    case Vmax => SpacingVmax
    case Cm => SpacingCm
    case Mm => SpacingMm
    case In => SpacingIn
    case Pt => SpacingPt
    case Pc => SpacingPc
  }

  const SpacingPx: Rated := Rated(3, "Good for small, precise gaps but doesn't scale with preferences")
  const SpacingRem: Rated := Rated(5, "Best for consistent spacing that respects user font-size preferences")
  const SpacingEm: Rated := Rated(4, "Good for spacing related to text size in component")
  const SpacingPercent: Rated := Rated(4, "Excellent for fluid layouts and responsive spacing")
  const SpacingVh: Rated := Rated(3, "Useful for vertical spacing related to viewport height")
  const SpacingVw: Rated := Rated(3, "Useful for horizontal spacing related to viewport width")
  const SpacingVmin: Rated := Rated(3, "Good for maintaining proportional spacing on extreme screens")
  const SpacingVmax: Rated := Rated(2, "Less predictable for spacing")
  const SpacingCm: Rated := Rated(1, "Print-specific, not for screen")
  const SpacingMm: Rated := Rated(1, "Print-specific, not for screen")
  const SpacingIn: Rated := Rated(1, "Print-specific, not for screen")
  const SpacingPt: Rated := Rated(1, "Print unit, use rem instead")
  const SpacingPc: Rated := Rated(1, "Print-specific, not for screen")

  const SpacingTitle: string := "Spacing Recommendations"
  const SpacingTable: ContextTable := TableOf(SpacingTitle, SpacingEntry)

  /** The rows of the layout table, one constant per unit. */
  function LayoutEntry(u: Unit): (e: Rated)
    ensures 1 <= e.rating <= 5 && |e.reason| > 0
  {
    match u
    case Px => LayoutPx
    case Rem => LayoutRem
    case Em => LayoutEm
    case Percent => LayoutPercent
    case Vh => LayoutVh
    case Vw => LayoutVw
    case Vmin => LayoutVmin
    case Vmax => LayoutVmax
    case Cm => LayoutCm
    case Mm => LayoutMm
    case In => LayoutIn
    case Pt => LayoutPt
    case Pc => LayoutPc
  }

  const LayoutPx: Rated := Rated(2, "Fixed sizes don't adapt to screen size or user preferences")
  const LayoutRem: Rated := Rated(4, "Good for layouts that should respect user's font preferences")
  const LayoutEm: Rated := Rated(3, "Can be unpredictable in deeply nested layouts")
  const LayoutPercent: Rated := Rated(5, "Perfect for responsive layouts that adapt to parent containers")
  const LayoutVh: Rated := Rated(4, "Excellent for full-height sections and vertical layouts")
  const LayoutVw: Rated := Rated(4, "Excellent for full-width sections and horizontal layouts")
  const LayoutVmin: Rated := Rated(4, "Good for maintaining proportions on various screen orientations")
  const LayoutVmax: Rated := Rated(3, "Can cause overflow on small screens")
  const LayoutCm: Rated := Rated(1, "Print-specific, not for screen layouts")
  const LayoutMm: Rated := Rated(1, "Print-specific, not for screen layouts")
  const LayoutIn: Rated := Rated(1, "Print-specific, not for screen layouts")
  const LayoutPt: Rated := Rated(1, "Print unit, not for screen layouts")
  const LayoutPc: Rated := Rated(1, "Print-specific, not for screen layouts")

  const LayoutTitle: string := "Layout Recommendations"
  const LayoutTable: ContextTable := TableOf(LayoutTitle, LayoutEntry)

  /** `contextRecommendations`, keyed by the context string. */
  const ContextRecommendations: map<string, ContextTable> := map[
    TypographyContext := TypographyTable,
    BordersContext := BordersTable,
    SpacingContext := SpacingTable,
    LayoutContext := LayoutTable]

  /** The table for a context; an unknown context falls back to typography.
      Whatever the context, the table rates all 13 units in 1..5 and gives a
      reason for each. */
  function ContextData(context: string): (table: ContextTable)
    ensures Complete(table)
  {
    if context in ContextRecommendations then ContextRecommendations[context]
    else ContextRecommendations[TypographyContext]
  }

  /** `recommendations[unit]?.rating || fallback`: the rating, or the fallback
      when the entry is missing or its rating is 0 (falsy). */
  function RatingOr(table: ContextTable, u: Unit, fallback: int): (r: int)
    ensures u in table.recommendations && table.recommendations[u].rating != 0 ==> r == table.recommendations[u].rating
    ensures r != fallback ==> u in table.recommendations && r == table.recommendations[u].rating
    ensures r == 0 ==> fallback == 0
  {
    if u in table.recommendations && table.recommendations[u].rating != 0
    then table.recommendations[u].rating
    else fallback
  }

  /** `recommendations[unit]?.reason || fallback`: the reason, or the fallback
      when the entry is missing or its reason is empty (falsy). */
  function ReasonOr(table: ContextTable, u: Unit, fallback: string): (r: string)
    ensures u in table.recommendations && |table.recommendations[u].reason| > 0 ==> r == table.recommendations[u].reason
    ensures r != fallback ==> u in table.recommendations && r == table.recommendations[u].reason
    ensures |r| == 0 ==> |fallback| == 0
  {
    if u in table.recommendations && |table.recommendations[u].reason| > 0
    then table.recommendations[u].reason
    else fallback
  }

  /** What `getRecommendationData` returns. */
  datatype RecommendationData = RecommendationData(
    suggestedRating: int,
    suggestedReason: string,
    currentRating: int,
    currentReason: string,
    title: string)

  /** The reasons shown when a table has no usable entry for a unit. */
  const DefaultSuggestedReason: string := "Generally recommended for this context"
  const DefaultCurrentReason: string := "Not typically recommended for this context"

  /** `getRecommendationData`: the ratings and reasons of the suggested and
      the current unit in the context's table, with the source's defaults. */
  function GetRecommendationData(context: string, suggestedUnit: Unit, currentUnit: Unit): (data: RecommendationData)
    ensures 1 <= data.suggestedRating <= 5 && 1 <= data.currentRating <= 5
    ensures |data.suggestedReason| > 0 && |data.currentReason| > 0
  {
    var table := ContextData(context);
    RecommendationData(
      RatingOr(table, suggestedUnit, 3),
      ReasonOr(table, suggestedUnit, DefaultSuggestedReason),
      RatingOr(table, currentUnit, 2),
      ReasonOr(table, currentUnit, DefaultCurrentReason),
      table.title)
  }

  /** A table is complete when it rates every unit in 1..5 with a reason. */
  ghost predicate Complete(table: ContextTable)
  {
    forall u: Unit :: u in table.recommendations
      && 1 <= table.recommendations[u].rating <= 5
      && |table.recommendations[u].reason| > 0
  }

  /** In a complete table the fallbacks of the lookups never apply. */
  lemma CompleteTableNeedsNoFallback(table: ContextTable, u: Unit, rating: int, reason: string)
    requires Complete(table)
    ensures u in table.recommendations
    ensures RatingOr(table, u, rating) == table.recommendations[u].rating
    ensures ReasonOr(table, u, reason) == table.recommendations[u].reason
    ensures 1 <= RatingOr(table, u, rating) <= 5
  {
  }

  /** For every context string, known or not, both looked-up entries come
      from the table, so the default ratings 3 and 2 and the default reasons
      are never used. */
  lemma DefaultsNeverUsed(context: string, suggestedUnit: Unit, currentUnit: Unit)
    ensures suggestedUnit in ContextData(context).recommendations
    ensures currentUnit in ContextData(context).recommendations
    ensures var data, table := GetRecommendationData(context, suggestedUnit, currentUnit), ContextData(context);
      && data.suggestedRating == table.recommendations[suggestedUnit].rating
      && data.suggestedReason == table.recommendations[suggestedUnit].reason
      && data.currentRating == table.recommendations[currentUnit].rating
      && data.currentReason == table.recommendations[currentUnit].reason
      && 1 <= data.suggestedRating <= 5 && 1 <= data.currentRating <= 5
  {
    CompleteTableNeedsNoFallback(ContextData(context), suggestedUnit, 3, DefaultSuggestedReason);
    CompleteTableNeedsNoFallback(ContextData(context), currentUnit, 2, DefaultCurrentReason);
  }

  /** An unknown context string is answered from the typography table,
      title included. */
  lemma UnknownContextIsTypography(context: string, suggestedUnit: Unit, currentUnit: Unit)
    requires context !in ContextRecommendations
    ensures GetRecommendationData(context, suggestedUnit, currentUnit)
         == GetRecommendationData(TypographyContext, suggestedUnit, currentUnit)
    ensures GetRecommendationData(context, suggestedUnit, currentUnit).title == TypographyTitle
  {
  }

  /** The unit each context rates 5, and the only one. */
  lemma TopRatedUnit(u: Unit)
    ensures TypographyEntry(u).rating == 5 <==> u == Rem
    ensures BordersEntry(u).rating == 5 <==> u == Px
    ensures SpacingEntry(u).rating == 5 <==> u == Rem
    ensures LayoutEntry(u).rating == 5 <==> u == Percent
  {
  }

  /** The icons `getRatingIcon` chooses from. */
  datatype Icon = Check | InfoIcon | AlertTriangle

  /** `getRatingIcon`: the icon for a rating. */
  function RatingIcon(rating: int): (icon: Icon)
    ensures icon == Check <==> rating >= 4
    ensures icon == InfoIcon <==> rating == 3
    ensures icon == AlertTriangle <==> rating <= 2
  {
    if rating >= 4 then Check
    else if rating >= 3 then InfoIcon
    else AlertTriangle
  }

  /** The three verdicts the panel prints for the current unit. */
  const HighlyRecommended: string := "Highly Recommended"
  const Acceptable: string := "Acceptable"
  const NotIdeal: string := "Not Ideal"

  /** The verdict shown next to the current unit. */
  function RatingLabel(rating: int): (verdict: string)
    ensures verdict == HighlyRecommended <==> rating >= 4
    ensures verdict == Acceptable <==> rating == 3
    ensures verdict == NotIdeal <==> rating <= 2
  {
    if rating >= 4 then HighlyRecommended
    else if rating >= 3 then Acceptable
    else NotIdeal
  }

  /** The icon and the label use the same three bands. */
  lemma IconAgreesWithLabel(rating: int)
    ensures RatingIcon(rating) == Check <==> RatingLabel(rating) == HighlyRecommended
    ensures RatingIcon(rating) == InfoIcon <==> RatingLabel(rating) == Acceptable
    ensures RatingIcon(rating) == AlertTriangle <==> RatingLabel(rating) == NotIdeal
  {
  }

  /** The dot positions of the two five-dot meters. */
  const DotScale: seq<int> := [1, 2, 3, 4, 5]

  /** `scale.map(dot => dot <= level)`: which dots are filled. */
  function Filled(scale: seq<int>, level: int): (dots: seq<bool>)
    ensures |dots| == |scale|
    ensures forall i :: 0 <= i < |scale| ==> dots[i] == (scale[i] <= level)
  {
    if scale == [] then [] else [scale[0] <= level] + Filled(scale[1..], level)
  }

  /** The number of filled dots. */
  function CountFilled(dots: seq<bool>): nat
  {
    if dots == [] then 0 else (if dots[0] then 1 else 0) + CountFilled(dots[1..])
  }

  /** The consecutive positions `lo`, `lo + 1`, ..., `hi - 1`. */
  function Range(lo: int, hi: int): seq<int>
    decreases hi - lo
  {
    if lo >= hi then [] else [lo] + Range(lo + 1, hi)
  }

  /** Over consecutive positions, the filled dots are those from `lo` up to
      `level`. */
  lemma {:induction false} CountFilledRange(lo: int, hi: int, level: int)
    requires lo <= hi
    ensures CountFilled(Filled(Range(lo, hi), level))
         == if level < lo then 0 else if level >= hi then hi - lo else level - lo + 1
    decreases hi - lo
  {
    if lo < hi {
      var rest := Range(lo + 1, hi);
      assert Range(lo, hi) == [lo] + rest;
      assert Filled(Range(lo, hi), level) == [lo <= level] + Filled(rest, level);
      CountFilledRange(lo + 1, hi, level);
    }
  }

  /** A level between 0 and 5 fills exactly that many of the five dots: the
      first `level` of them. */
  lemma DotsShowLevel(level: int)
    requires 0 <= level <= 5
    ensures |Filled(DotScale, level)| == 5
    ensures forall i :: 0 <= i < 5 ==> Filled(DotScale, level)[i] == (i < level)
    ensures CountFilled(Filled(DotScale, level)) == level
  {
    assert DotScale == Range(1, 6);
    CountFilledRange(1, 6, level);
  }

  /** The suggestion item of the panel. */
  datatype SuggestionItem = SuggestionItem(icon: Icon, suggestedUnit: Unit, currentUnit: Unit, reason: string)

  /** The item about the current unit. */
  datatype CurrentItem = CurrentItem(icon: Icon, unit: Unit, context: string, verdict: string, reason: string)

  /** What the panel shows. */
  datatype Panel = Panel(
    title: string,
    suggestion: Option<SuggestionItem>,
    current: CurrentItem,
    supportDots: seq<bool>,
    responsiveDots: seq<bool>)

  /** The content of the `UnitRecommendation` component for its props: the
      looked-up data laid out by `PanelFor`. */
  function RenderPanel(context: string, suggestedUnit: Unit, currentUnit: Unit): (p: Panel)
    ensures p.suggestion.Some? <==> currentUnit != suggestedUnit
  {
    PanelFor(GetRecommendationData(context, suggestedUnit, currentUnit), context, suggestedUnit, currentUnit)
  }

  /** The panel for looked-up data: the suggestion item appears only when the
      current unit is not the suggested one and carries the suggested unit's
      icon; the two meters fill as many of their five dots as the current
      unit's browser-support and responsive ratings. */
  function PanelFor(data: RecommendationData, context: string, suggestedUnit: Unit, currentUnit: Unit): (p: Panel)
    ensures p.suggestion.Some? <==> currentUnit != suggestedUnit
    ensures p.suggestion.Some? ==> p.suggestion.value.icon == RatingIcon(data.suggestedRating)
    ensures |p.supportDots| == 5 && CountFilled(p.supportDots) == Info(currentUnit).browserSupport
    ensures |p.responsiveDots| == 5 && CountFilled(p.responsiveDots) == Info(currentUnit).responsiveRating
  {
    CatalogueWellFormed(currentUnit);
    DotsShowLevel(Info(currentUnit).browserSupport);
    DotsShowLevel(Info(currentUnit).responsiveRating);
    Panel(
      data.title,
      if currentUnit != suggestedUnit
      then Some(SuggestionItem(RatingIcon(data.suggestedRating), suggestedUnit, currentUnit, data.suggestedReason))
      else None,
      CurrentItem(RatingIcon(data.currentRating), currentUnit, context, RatingLabel(data.currentRating), data.currentReason),
      Filled(DotScale, Info(currentUnit).browserSupport),
      Filled(DotScale, Info(currentUnit).responsiveRating))
  }

  /** Whatever `suggestBestUnit` proposes is rated at least 4 in the
      context's table. */
  lemma SuggestionRatedHighly(context: string, value: real, fromUnit: Unit, currentUnit: Unit)
    ensures GetRecommendationData(context, SuggestBestUnit(context, value, fromUnit), currentUnit).suggestedRating >= 4
  {
    var suggested := SuggestBestUnit(context, value, fromUnit);
    DefaultsNeverUsed(context, suggested, currentUnit);
    SuggestionInTable(context, suggested);
  }

  /** The unit suggested for a context, looked up in that context's table,
      is rated at least 4: px for borders, rem or % for layout, rem
      elsewhere. */
  lemma SuggestionInTable(context: string, suggested: Unit)
    requires suggested == Px <==> context == BordersContext
    requires suggested == Percent ==> context == LayoutContext
    requires suggested == Px || suggested == Percent || suggested == Rem
    ensures suggested in ContextData(context).recommendations
    ensures ContextData(context).recommendations[suggested].rating >= 4
  {
    if context == BordersContext {
      assert ContextData(context) == BordersTable;
      assert BordersTable.recommendations[Px] == BordersEntry(Px);
    } else if context == LayoutContext {
      assert ContextData(context) == LayoutTable;
      assert LayoutTable.recommendations[suggested] == LayoutEntry(suggested);
    } else if context == SpacingContext {
      assert ContextData(context) == SpacingTable;
      assert SpacingTable.recommendations[Rem] == SpacingEntry(Rem);
    } else {
      assert ContextData(context) == TypographyTable;
      assert TypographyTable.recommendations[Rem] == TypographyEntry(Rem);
    }
  }

  /** So the suggestion item, whenever the panel shows one, carries the check
      icon. */
  lemma SuggestionShowsCheck(context: string, value: real, fromUnit: Unit, currentUnit: Unit)
    ensures var p := RenderPanel(context, SuggestBestUnit(context, value, fromUnit), currentUnit);
      p.suggestion.Some? ==> p.suggestion.value.icon == Check
  {
    var suggested := SuggestBestUnit(context, value, fromUnit);
    var data := GetRecommendationData(context, suggested, currentUnit);
    SuggestionRatedHighly(context, value, fromUnit, currentUnit);
    assert RenderPanel(context, suggested, currentUnit) == PanelFor(data, context, suggested, currentUnit);
  }
}
