# CSS unit converter: verified model of the unit engine

This project models the logic of a web tool that converts CSS lengths between
13 units (px, rem, em, vh, vw, %, vmin, vmax, cm, mm, in, pt, pc), recommends a
unit for a usage context (typography, borders, spacing, layout), shows a
quick-reference conversion matrix, and displays values with a unit-dependent
number of decimals. Everything is stated in Dafny and proved. Nothing was run
or tested.

Modules, one per part of the program:

- `Units` (`units.dfy`) holds the closed unit enumeration, the unit suffix
  strings and the constant `UNITS_INFO` catalogue.
- `Conversions` (`conversions.dfy`) holds the conversion engine:
  - `pxToRem` and `remToPx`;
  - the two-stage `convertUnits`, which takes the value to pixels through the
    source unit's rule and then inverts the target unit's rule;
  - `suggestBestUnit`;
  - the precision choice and suffix of `formatUnitValue`.
  The program's own constants are kept: 16 px per rem and em, 37.8 px/cm,
  3.78 px/mm, 96 px/in, 1.33 px/pt and 16 px/pc. The unit `%` is taken as a
  share of the viewport width, as the code does.
- `Recommendation` (`recommendation.dfy`) covers the recommendation panel:
  - the 4 × 13 rating and reason table;
  - `getRecommendationData`, with its fallback to the typography table and
    its default ratings and reasons;
  - the three rating bands shared by the icon and the label;
  - when the suggestion item is shown;
  - the two five-dot meters.
- `ConversionTable` (`conversion_table.dfy`) models `getConversions`
  imperatively. `InitMatrix` is the nested loop that fills a 13 × 13 map
  with "N/A". The six `Fill…Row` methods are the six blocks of
  assignments that overwrite the displayed 6 × 6 block. `GetConversions`
  puts these together. Its result matches a reference table, `Expected`,
  whose numeric cells are values of the engine's `Convert`. So the proof
  checks that every hand-written factor agrees with the converter.
- `AnimatedValue` (`animated_value.dfy`) covers the animated display: the
  precision it picks by list membership, and the unit rendered as a
  separate suffix.

The ambient `window.innerWidth` / `window.innerHeight` reads become an explicit
`Viewport(width, height)` parameter. The functions that divide by them
require both to be positive. `Number.prototype.toFixed` becomes a function
parameter `toFixed: (real, nat) -> string`, so the model fixes which precision
is asked for and where the suffix goes, but not the digits.

## Model

| member | source | states |
|---|---|---|
| `Units.SymbolInjective` | src/lib/unitConversions.ts:2-15 | two units have the same suffix string exactly when they are the same unit |
| `Units.AllUnitsComplete` | src/lib/unitConversions.ts:2-15 | the list of the 13 units contains every unit and none twice |
| `Units.Symbol` | src/lib/unitConversions.ts:2-15 | each unit is named by a suffix of one to four characters, and `%` names the percentage and nothing else |
| `Units.Info` | src/lib/unitConversions.ts:26-131 | the catalogue is total; rem alone has the top responsive rating, px, rem, em and % alone have full browser support, and cm, mm, in and pc alone have the lowest |
| `Units.CatalogueWellFormed` | src/lib/unitConversions.ts:26-131 | every catalogue entry has responsive rating and browser support in 1..5 and non-empty best-for and avoid lists |
| `Conversions.PixelsPerUnitPositive` | src/lib/unitConversions.ts:155-201 | on a viewport with positive sides every unit stands for a positive number of pixels |
| `Conversions.PxToRem` | src/lib/unitConversions.ts:141 | the rem amount times the 16 px base font size gives back the pixels |
| `Conversions.RemToPx` | src/lib/unitConversions.ts:144 | `pxToRem` undoes `remToPx` |
| `Conversions.ToPx` | src/lib/unitConversions.ts:152-204 | the first switch turns a value into pixels by scaling it with the unit's pixel size |
| `Conversions.FromPx` | src/lib/unitConversions.ts:206-238 | the second switch turns pixels into the target unit so that scaling back by that unit's pixel size gives the pixels |
| `Conversions.Hundredths` | src/lib/unitConversions.ts:215-225 | `(px / side) * 100` for a positive viewport side, scaled back by a hundredth of the side, gives `px` |
| `Conversions.Convert` | src/lib/unitConversions.ts:147-239 | the result, read in the target unit, stands for the same number of pixels as the value read in the source unit |
| `Conversions.ConvertPositive` | src/lib/unitConversions.ts:147-239 | a positive value converts to a positive value between any two units |
| `Conversions.ToPxPositive` | src/lib/unitConversions.ts:155-204 | the first switch keeps a positive value positive |
| `Conversions.FromPxPositive` | src/lib/unitConversions.ts:207-238 | the second switch keeps a positive pixel amount positive |
| `Conversions.SideStagesInverse` | src/lib/unitConversions.ts:166-175 | for vh, vw and %, the to-pixel arm (lines 166-175) and the from-pixel arm (lines 215-221) undo each other, both scaling by one hundredth of the viewport side |
| `Conversions.VminStagesInverse` | src/lib/unitConversions.ts:176-178 | for vmin the to-pixel arm and the from-pixel arm (lines 222-223) undo each other and scale by one hundredth of the smaller side |
| `Conversions.VmaxStagesInverse` | src/lib/unitConversions.ts:179-181 | for vmax the to-pixel arm and the from-pixel arm (lines 224-225) undo each other and scale by one hundredth of the larger side |
| `Conversions.FixedStagesInverse` | src/lib/unitConversions.ts:155-201 | for px, rem, em and the physical units the to-pixel arm and the from-pixel arm (lines 208-214, 226-235) undo each other and scale by the unit's constant |
| `Conversions.StagesInverseForAll` | src/lib/unitConversions.ts:155-238 | for every unit, the two switch arms of `convertUnits` are mutually inverse and linear in a positive per-unit scale |
| `Conversions.Identity` | src/lib/unitConversions.ts:147-239 | converting any value from a unit to itself returns the value exactly |
| `Conversions.Compose` | src/lib/unitConversions.ts:147-239 | converting a to b and then b to c equals converting a to c |
| `Conversions.RoundTrip` | src/lib/unitConversions.ts:147-239 | converting a to b and back returns the original value, for every pair of units |
| `Conversions.FixedPoints` | src/lib/unitConversions.ts:141-233 | 16 px is 1 rem, 1 rem is 16 px, 96 px is 1 in, and 1 in is 96/1.33 pt |
| `Conversions.FollowsViewportHeight` | src/lib/unitConversions.ts:166-168 | 50 vh is 400 px on an 800 px high viewport and 500 px on a 1000 px high one, whatever the width |
| `Conversions.EmIsRem` | src/lib/unitConversions.ts:159-164 | em converts exactly like rem both as source and as target (target arms at lines 210-214) |
| `Conversions.PercentIsVw` | src/lib/unitConversions.ts:169-174 | % converts exactly like vw both as source and as target (target arms at lines 217-221) |
| `Conversions.VminAtMostVmax` | src/lib/unitConversions.ts:176-181 | for a non-negative value, vmin gives no more pixels than vmax, and the same amount on a square viewport |
| `Conversions.SuggestBestUnit` | src/lib/unitConversions.ts:241-257 | the suggestion is px exactly for borders, % exactly for layout with a value above 100, and rem in every other case, unknown contexts included |
| `Conversions.SuggestionIgnoresFromUnit` | src/lib/unitConversions.ts:241-257 | the suggestion does not depend on the source unit |
| `Conversions.FormatPrecision` | src/lib/unitConversions.ts:261-269 | 3 decimals exactly for rem and em; 2 exactly for vw, vh, vmin, vmax, %, cm, mm and in |
| `Conversions.NoDecimalsForPixelsAndPrintUnits` | src/lib/unitConversions.ts:261-269 | the formatter uses 0 decimals exactly for px, pt and pc |
| `Conversions.FormatUnitValue` | src/lib/unitConversions.ts:259-273 | the text ends with the unit's suffix, and what precedes it is the value rendered at the unit's precision |
| `Recommendation.TableOf` | src/components/UnitRecommendation.tsx:21-178 | a context table keeps its title and holds an entry for every one of the 13 units, the one its row list gives |
| `Recommendation.TypographyEntry` | src/components/UnitRecommendation.tsx:22-63 | every typography row has a rating in 1..5 and a non-empty reason |
| `Recommendation.BordersEntry` | src/components/UnitRecommendation.tsx:64-93 | every borders row has a rating in 1..5 and a non-empty reason |
| `Recommendation.SpacingEntry` | src/components/UnitRecommendation.tsx:94-135 | every spacing row has a rating in 1..5 and a non-empty reason |
| `Recommendation.LayoutEntry` | src/components/UnitRecommendation.tsx:136-177 | every layout row has a rating in 1..5 and a non-empty reason |
| `Recommendation.ContextData` | src/components/UnitRecommendation.tsx:182 | whatever the context string, the table looked up rates all 13 units in 1..5 with a reason for each |
| `Recommendation.RatingOr` | src/components/UnitRecommendation.tsx:184-186 | the rating lookup with its fallback: a present, non-zero rating is returned; any other result is the fallback; the result is 0 only when the fallback is |
| `Recommendation.ReasonOr` | src/components/UnitRecommendation.tsx:185-187 | the reason lookup with its fallback: a present, non-empty reason is returned; any other result is the fallback; the result is empty only when the fallback is |
| `Recommendation.GetRecommendationData` | src/components/UnitRecommendation.tsx:181-190 | for every context and pair of units both ratings lie in 1..5 and both reasons are non-empty |
| `Recommendation.DefaultsNeverUsed` | src/components/UnitRecommendation.tsx:181-190 | the returned ratings and reasons are the table's own entries for the two units, so the defaults 3 and 2 and the default reasons never apply |
| `Recommendation.UnknownContextIsTypography` | src/components/UnitRecommendation.tsx:182-188 | an unknown context gets exactly the data of the typography context, title "Typography Recommendations" included |
| `Recommendation.TopRatedUnit` | src/components/UnitRecommendation.tsx:29-153 | the only unit rated 5 is rem for typography, px for borders, rem for spacing and % for layout |
| `Recommendation.RatingIcon` | src/components/UnitRecommendation.tsx:195-199 | check icon exactly for ratings of at least 4, info icon exactly for 3, warning icon exactly for 2 and below |
| `Recommendation.RatingLabel` | src/components/UnitRecommendation.tsx:261-263 | "Highly Recommended" exactly for ratings of at least 4, "Acceptable" exactly for 3, "Not Ideal" exactly for 2 and below |
| `Recommendation.IconAgreesWithLabel` | src/components/UnitRecommendation.tsx:195-263 | the icon and the label fall into the same band for every rating |
| `Recommendation.Filled` | src/components/UnitRecommendation.tsx:277-286 | the meter has one dot per scale position, and the dot at a position is filled exactly when the position is at most the level |
| `Recommendation.CountFilledRange` | src/components/UnitRecommendation.tsx:277-286 | over consecutive positions lo..hi-1, how many dots are filled: none below lo, all of them at hi-1 or above, and level-lo+1 in between |
| `Recommendation.DotsShowLevel` | src/components/UnitRecommendation.tsx:277-286 | a level between 0 and 5 fills the first `level` of the five dots and no others, so exactly `level` of them |
| `Recommendation.RenderPanel` | src/components/UnitRecommendation.tsx:192-230 | the suggestion item is present exactly when the current unit differs from the suggested one |
| `Recommendation.PanelFor` | src/components/UnitRecommendation.tsx:225-301 | the suggestion item appears exactly when the units differ and carries the suggested unit's rating icon; the two meters have five dots each and fill as many as the current unit's browser support and responsive rating |
| `Recommendation.SuggestionRatedHighly` | src/components/UnitRecommendation.tsx:184 | the unit `suggestBestUnit` proposes has a looked-up rating of at least 4 in every context |
| `Recommendation.SuggestionInTable` | src/components/UnitRecommendation.tsx:21-182 | px in the borders table, rem or % in the layout table and rem in every other table are rated at least 4 |
| `Recommendation.SuggestionShowsCheck` | src/components/UnitRecommendation.tsx:230-234 | whenever the panel shows the item for the unit `suggestBestUnit` proposes, that item carries the check icon |
| `ConversionTable.Expected` | src/components/UnitConversionTable.tsx:27-81 | the reference table the method is proved against: "N/A" outside the displayed block, 1 on the diagonal, notes for em, % and the % column, the converter's value elsewhere; every numeric cell is positive |
| `ConversionTable.PixelFactors` | src/components/UnitConversionTable.tsx:41-46 | the hand-written px row factors 1/16, 1/16, 100/H and 100/W are the converter's values of 1 px in rem, em, vh and vw |
| `ConversionTable.RemFactors` | src/components/UnitConversionTable.tsx:48-53 | the rem row factors 16, 1, 1600/H and 1600/W are the converter's values of 1 rem |
| `ConversionTable.VhFactors` | src/components/UnitConversionTable.tsx:69-74 | the vh row factors H/100, (H/100)/16 twice and H/W are the converter's values of 1 vh |
| `ConversionTable.VwFactors` | src/components/UnitConversionTable.tsx:76-81 | the vw row factors W/100, (W/100)/16 twice and W/H are the converter's values of 1 vw |
| `ConversionTable.DiagonalIsOne` | src/components/UnitConversionTable.tsx:41-81 | each displayed unit's diagonal cell is 1, which is also the converter's value |
| `ConversionTable.RootFontCells` | src/components/UnitConversionTable.tsx:42-48 | px to rem and px to em are 1/16, and rem to px is 16 |
| `ConversionTable.PercentColumnAndRow` | src/components/UnitConversionTable.tsx:44-79 | every displayed row but % maps to % as "Depends on parent", and the % row has a number only on its diagonal |
| `ConversionTable.NumericCellsAreConversions` | src/components/UnitConversionTable.tsx:41-81 | every numeric cell, diagonal included, is the converter's value of one source unit in the target unit |
| `ConversionTable.EmColumnIsRemColumn` | src/components/UnitConversionTable.tsx:42-78 | in the px, rem, vh and vw rows the em column equals the rem column |
| `ConversionTable.RemRowScalesPixelRow` | src/components/UnitConversionTable.tsx:41-53 | each numeric cell of the rem row is 16 times the px row's cell, rem to vh included |
| `ConversionTable.ViewportCellsReciprocal` | src/components/UnitConversionTable.tsx:74-80 | vh to vw is H/W, vw to vh is W/H, and their product is 1 |
| `ConversionTable.HiddenCellIsBlank` | src/components/UnitConversionTable.tsx:33-81 | every cell in the row or column of vmin, vmax, cm, mm, in, pt or pc stays "N/A" |
| `ConversionTable.InitMatrix` | src/components/UnitConversionTable.tsx:27-38 | after the nested loop every unit has a row, and every row holds "N/A" for every unit |
| `ConversionTable.FillPixelRow` | src/components/UnitConversionTable.tsx:41-46 | after the px block the px row holds the reference cell for every target unit |
| `ConversionTable.FillRemRow` | src/components/UnitConversionTable.tsx:48-53 | after the rem block the rem row holds the reference cell for every target unit |
| `ConversionTable.FillEmRow` | src/components/UnitConversionTable.tsx:55-60 | after the em block the em row holds the reference cell for every target unit |
| `ConversionTable.FillPercentRow` | src/components/UnitConversionTable.tsx:62-67 | after the % block the % row holds the reference cell for every target unit |
| `ConversionTable.FillVhRow` | src/components/UnitConversionTable.tsx:69-74 | after the vh block the vh row holds the reference cell for every target unit |
| `ConversionTable.FillVwRow` | src/components/UnitConversionTable.tsx:76-81 | after the vw block the vw row holds the reference cell for every target unit |
| `ConversionTable.GetConversions` | src/components/UnitConversionTable.tsx:20-84 | the displayed units are px, rem, em, %, vh, vw in that order, and every ordered pair of the 13 units has a cell equal to the reference table |
| `AnimatedValue.DisplayPrecision` | src/components/AnimatedValue.tsx:40-50 | 3 decimals exactly for "rem" and "em"; 2 exactly for the viewport and physical unit strings; 0 for every other string |
| `AnimatedValue.DisplayPrecisionOfUnit` | src/components/AnimatedValue.tsx:40-50 | among the 13 units, rem and em get 3 decimals, px alone gets 0, and all others get 2 |
| `AnimatedValue.AgreesWithFormatterExceptPrintUnits` | src/components/AnimatedValue.tsx:46-47 | the display picks the same precision as `formatUnitValue` for every unit except pt and pc, which it shows with 2 decimals where the formatter uses 0 |
| `AnimatedValue.UnknownUnitGetsNoDecimals` | src/components/AnimatedValue.tsx:41-49 | a string that names no unit gets 0 decimals |
| `AnimatedValue.Render` | src/components/AnimatedValue.tsx:40-63 | the digits are the value rendered at the display precision, and the unit string follows unchanged as a separate suffix |
| `AnimatedValue.RenderMatchesFormatter` | src/components/AnimatedValue.tsx:49-63 | for every unit but pt and pc, the digits followed by the suffix are exactly the text of `formatUnitValue` |

## Left out

- The digits of `Number.prototype.toFixed` and of JavaScript's number-to-string conversion are left out. They follow IEEE-754 rounding. `toFixed` is a parameter, and table cells hold the exact `real` (`Num`) instead of its printed text.
- IEEE-754 double arithmetic is left out. The identities are proved over exact reals; the program only approximates them. NaN and Infinity are excluded by requiring positive viewport sides, and so is division by a zero-sized window.
- The window reads are parameters. This includes the `||` fallback to `document.documentElement.clientWidth/clientHeight`, which only applies when the inner size is 0.
- The `default:` arms of the two switches in `convertUnits` are left out. The unit type is closed, so they cannot run.
- Inherited JavaScript object keys are left out of the context lookup. For a context string such as "constructor" or "toString", `contextRecommendations[context]` is an inherited value and truthy, so the source keeps it; reading its `recommendations` then throws a TypeError. The model answers such strings from the typography table, like every other unknown context. The converter only ever passes the four context names (src/components/UnitConverter.tsx:34-39).
- The text colour classes next to the rating label are left out. They use the same three bands as the label.
- The `value` property of the recommendation panel is left out, because the panel never reads it.
- The unused `baseValue` parameter of `getConversions` is left out.
- The static reference tables that follow `getConversions` are left out, and so are the JSX of every component, the animation effects and refs, and the remaining components and pages.
- `Conversions.FollowsViewportHeight` states two sample points only. The general fact, that a vh value is that many hundredths of the height in pixels, is stated by `Conversions.SideStagesInverse`.
