# Aluminium window and door estimator — a Dafny model

The estimator (`13EX.cpp`) prices aluminium windows and doors for a
fabricator. There are ten shapes. Each one turns its entered dimensions
(inches) and construction options into a **cutting list**: a map from a
profile section name (`DC30F`, `D54A`, `M23`, `D29`, …) to a length in
inches.

To price a window, each length is rounded to **market feet** and multiplied
by the rate per foot of that section. Most shapes use the floor rule: whole
feet plus 0.6 when the leftover is at most six inches, whole feet plus 1
otherwise. The flexible panel window bills an exact number of feet
unrounded. The products are then summed.

A menu selector from 1 to 14 picks the shape and its fixed options. For a
batch of windows of one selector, the program:

- collects the union of the section names the windows need;
- asks once for the rate of each of those names;
- prices every window;
- adds the prices and glass areas to running totals.

The final summary applies a discount to the aluminium total. It then adds
glass and labour per square foot and hardware per window.

The model has six modules:

- `Rounding`: the two rounding variants, with lemmas on the tiers and where
  the variants agree.
- `Pricing`: the shared pricing loop. It is a method proved against an
  order-free specification sum `LineSum`. The rate lookup policy is a
  parameter: a throwing lookup (`MissingRate` outcome) or a skipping one
  (the name is reported in `unpriced`).
- `Frames`: the `Window` datatype with the ten shapes, their cutting-list
  tables, the area, the acceptance predicate `Valid` of the input dialogues,
  and `CalculateTotalPrice`.
- `FrameProperties`: per-shape facts about the cutting lists.
- `Factory`: the selector function.
- `Batch`: the batch loops of the main menu and the final summary.

The source's `float` arithmetic is modelled with exact reals. Its
`static_cast<int>` is modelled as truncation toward zero (`Rounding.Trunc`)
and `floor` as `real.Floor`.

The worked example for the three-panel window (48 × 36 inches, collar 1)
bills the 141-inch `DC30F` section, 11.75 ft, as 12 feet. The code adds a
whole foot because 9 leftover inches exceed six
(`FrameProperties.ThreePanelExample`).

## Model

| member | source | states |
|---|---|---|
| Rounding.Trunc | 13EX.cpp:136 | `static_cast<int>` drops the fraction: the result is within one of the input, on the side of zero |
| Rounding.WholeFeet | 13EX.cpp:276 | `floor(inches/12)` is the number of whole feet: 12·n ≤ inches < 12·n + 12 |
| Rounding.MarketFeet | 13EX.cpp:274-283 | the floor rule always bills strictly more than the exact feet and less than one foot more |
| Rounding.HalfTier | 13EX.cpp:274-283 | a length from n feet up to n feet 6 inches (both ends included) is billed n + 0.6 |
| Rounding.FullTier | 13EX.cpp:274-283 | a length more than 6 inches past n feet, short of n + 1 feet, is billed n + 1 |
| Rounding.SixInchTieBreak | 13EX.cpp:279-282 | 18 inches is billed 1.6 ft, and 18.01 inches is billed 2 ft |
| Rounding.ExactFootMarketFeet | 13EX.cpp:134-148 | the flexible panel's variant bills at least the exact feet and less than one foot more, for every non-negative length |
| Rounding.ExactFootVariantsDiffer | 13EX.cpp:134-148 | on exactly n feet, the flexible panel bills n and the floor rule bills n + 0.6 |
| Rounding.VariantsAgreeOffFoot | 13EX.cpp:134-148 | off exact feet, the two variants bill the same for every non-negative length |
| Rounding.Round | 13EX.cpp:119 | either variant bills between the exact feet and one foot more, and a positive length is never billed zero |
| Pricing.LineAmount | 13EX.cpp:467-473 | a section without a rate contributes nothing; with non-negative length and rate it contributes a non-negative amount |
| Pricing.LineSumSplit | 13EX.cpp:462-475 | the total does not depend on the order in which sections are visited |
| Pricing.LineSumRatesAgree | 13EX.cpp:462-475 | two rate tables that agree on a window's section names give it the same total |
| Pricing.DroppingARate | 13EX.cpp:467-473 | removing one section's rate lowers the skipping total by exactly that section's amount |
| Pricing.LineSumNonNegative | 13EX.cpp:253-271 | with non-negative lengths and rates, the total is non-negative |
| Pricing.PriceSections | 13EX.cpp:253-271 | the pricing loop: the total is the sum of rounded length × rate over all sections; a throwing lookup stops exactly when some section has no rate, and names such a section; a skipping lookup reports exactly the sections without a rate |
| Frames.Sections | 13EX.cpp:66-110 | the cutting list of each of the ten shapes, one `getRequiredSections` each (flexible panel 66-110, triple glass 207-251, fixed 335-365, random fixed 443-456, openable 535-564, door 656-686, quadrant arch 761-785, round arch 864-883, fixed corner 962-978, slide corner 1074-1115): collar rows first, later rows overwriting earlier ones of the same name; its properties are the FrameProperties rows below |
| Frames.PanelCollarRows | 13EX.cpp:83-99 | the 14-row collar table shared by both panel windows (also 218-233): only the four 30/26 frame/coupled names, a 26-series row for every type 1–14, nothing for other types |
| Frames.D54CollarRows | 13EX.cpp:340-355 | the 14-row D54 table of the fixed and openable windows (also 540-555): only D54F and D54A, some row exactly for types 1–14, D54A exactly for types 2–14 |
| Frames.DoorCollarRows | 13EX.cpp:661-670 | the 8-row D54 table of the doors: only D54F and D54A, some row exactly for types 1–8, D54F for all of them but type 2 |
| Frames.QadialCollarRows | 13EX.cpp:765-774 | the 8-row D50 table of the quadrant arch: only D50F and D50A, D50A exactly for types 1–8, D50F for all of them but type 2 |
| Frames.NetD29Rows | 13EX.cpp:242-247 | the triple-glass D29 by net type: present exactly for net types 1–4, with 2(h + n) for a single custom net and 4(h + n) for a double one |
| Frames.TeeRows | 13EX.cpp:357-362 | the divider rows: the tee section and D41 with a tee, D41 alone without; D41 runs the frame plus twice the tee |
| Frames.FlexibleCommonRows | 13EX.cpp:101-107 | the flexible panel's rails M23, M28, M24 and its optional D29 (stated by FrameProperties.FlexiblePanelRows) |
| Frames.TripleGlassCommonRows | 13EX.cpp:235-248 | the triple-glass panel's rails and its optional D29 by net type (stated by FrameProperties.ThreePanel3GlassRows) |
| Frames.SlideSubtypeRows | 13EX.cpp:1076-1108 | the slide corner's 30/26 and D29 rows by subtype and collar style (stated by FrameProperties.SlideRowsCollarStyle and SlideCornerRows) |
| Frames.Valid | 13EX.cpp:38-57 | what the input dialogues' re-prompt loops accept: positive dimensions, a collar type in range (1–14, or 1–8 for doors and the quadrant arch), a positive tee, a positive custom net or D29 width when one is asked for |
| Frames.RuleOf | 13EX.cpp:134-148 | the flexible panel rounds with the exact-foot variant, every other shape with the floor rule (274-283) |
| Frames.PolicyOf | 13EX.cpp:467-473 | the fixed, random fixed and openable windows skip a section without a rate (also 571-574), every other shape uses the throwing `rates.at` (262) |
| Frames.SquareFeet | 13EX.cpp:62-64 | height by width in inches, in square feet: non-negative for non-negative sides, and 144 times it is the product in square inches |
| Frames.Area | 13EX.cpp:439-441 | the glass area of an accepted window is non-negative, and the random fixed window has none |
| Frames.CalculateTotalPrice | 13EX.cpp:367-392 | each shape prices its own cutting list with its own rounding variant; the fixed, random fixed and openable windows always give a price; the other shapes fail exactly when a section has no rate |
| FrameProperties.PanelRowsNames | 13EX.cpp:83-99 | the panel collar table writes only the four 30/26 frame/coupled names, always writes a 26-series name for collar types 1–14, and writes nothing for other types |
| FrameProperties.PanelRowsRename | 13EX.cpp:70-79 | the collar table under one set of names is the same table under another, entry for entry |
| FrameProperties.FlexiblePanelRows | 13EX.cpp:101-107 | the flexible panel always has M23 = M28 = 2h and M24 = 2w, has D29 = 2h + w exactly when built with D29, and keeps every collar row |
| FrameProperties.FlexiblePanelUnknownCollar | 13EX.cpp:98 | a collar type outside 1–14 leaves only the rails and the optional D29 |
| FrameProperties.FlexiblePanelMSeries | 13EX.cpp:71-79 | the M-series panel's cutting list is the DC-series list with DC30F, DC30C, DC26F and DC26C renamed to M30F, M30, M26F and M26, both ways |
| FrameProperties.MSeriesRowsHaveNoDCName | 13EX.cpp:72-77 | the M-series collar rows name no DC section |
| FrameProperties.FlexiblePanelMSeriesHasNoDCName | 13EX.cpp:66-110 | an M-series flexible panel's cutting list names no DC section |
| FrameProperties.ThreePanel3GlassRows | 13EX.cpp:235-248 | the triple-glass panel has M23 = 2h, M28 = 4h and M24 = 2w; it has D29 exactly when built with D29 and the net type is 1–4, with the four net formulas |
| FrameProperties.WithTee | 13EX.cpp:357-362 | the same tee shape with only its tee option and length replaced: same constructor, frame rows, bead frame, tee key and area, and the window itself when nothing changes |
| FrameProperties.TeeAddsDivider | 13EX.cpp:357-362 | on the tee shapes (fixed, random fixed, quadrant arch, round arch, fixed corner), the tee adds its own section of the tee's length and lengthens the D41 bead by twice the tee |
| FrameProperties.NoTeeNoDivider | 13EX.cpp:776-782 | without a tee there is no tee section, there is a D41 bead, and the tee length is ignored |
| FrameProperties.OpenableRows | 13EX.cpp:557-561 | the openable window always has D50 round its perimeter, and has D29 of the same length exactly when it has a net |
| FrameProperties.DoorRows | 13EX.cpp:672-683 | a door has D46 of one width exactly when built with D46, has D52 of the tee's length exactly with a tee, always has D50, and a single door without D46 runs D50 round its perimeter |
| FrameProperties.DoorD50Variants | 13EX.cpp:673-678 | D46 takes one width off D50, and a double door adds two heights to D50 |
| FrameProperties.SlideCornerRows | 13EX.cpp:1084-1112 | M23 is 4h exactly for subtype 5, M28 is 2h exactly for subtypes 1 and 2, M24 is both widths twice, and D29 is present exactly when built with D29 and the subtype is 1–5 |
| FrameProperties.SlideRowsCollarStyle | 13EX.cpp:1076-1108 | the collar style renames the 30 and 26 sections from suffix A to F and adds 12 and 6 inches to them |
| FrameProperties.SlideCornerCollarStyle | 13EX.cpp:1074-1115 | the same for the slide corner's whole cutting list: with the collar style the A sections are absent |
| FrameProperties.ValidLengthsPositive | 13EX.cpp:38-57 | every window the input dialogues accept has only positive section lengths |
| FrameProperties.ValidWindowPriceNonNegative | 13EX.cpp:112-131 | with non-negative rates, an accepted window never gets a negative price |
| FrameProperties.AreaInSquareInches | 13EX.cpp:957-960 | 144 × area is height × width, with the two widths added for the corner shapes, and zero for the random fixed window |
| FrameProperties.ThreePanelExample | 13EX.cpp:84-107 | the 48 × 36 three-panel window with collar 1 needs DC30F 141, DC26F 39, M23 96, M28 96, M24 72 and D29 132; 141 inches is billed 12 feet |
| Factory.CreateComponent | 13EX.cpp:1188-1205 | the factory gives a window kind exactly for selectors 1–14; D29 is included exactly for selectors 1, 3 and 13 among the shapes with that option (the full mapping is stated by Factory.KindDeterminesShape) |
| Factory.CreateComponentInjective | 13EX.cpp:1188-1205 | no two selectors give the same kind |
| Factory.KindDeterminesShape | 13EX.cpp:1188-1205 | the whole selector mapping: 1–2 flexible panels (1 with D29, 2 in the M series), 3–4 triple-glass panels (3 with D29 and DC30/DC26, 4 with M30/M26), 5 fixed, 6 random fixed, 7 openable, 8–9 doors (9 double), 10 quadrant arch, 11 round arch, 12 fixed corner, 13–14 slide corners (13 with D29 and DC30/DC26, 14 with M30/M26) |
| Factory.MSeriesTripleGlassHasNoDCName | 13EX.cpp:218-232 | a triple-glass panel with the M30/M26 prefixes names no DC section |
| Factory.MSeriesSlideCornerHasNoDCName | 13EX.cpp:1076-1112 | a slide corner with the M30/M26 prefixes names no DC section |
| Factory.MSeriesSelectors | 13EX.cpp:1190-1202 | selectors 2, 4 and 14 build windows that need no D29 and no DC section, whatever is entered |
| Batch.NeededNames | 13EX.cpp:1274-1275 | the union of the section names of a batch's windows (both inclusions stated by WindowNamesAreNeeded and NeededNamesComeFromWindows) |
| Batch.WindowNamesAreNeeded | 13EX.cpp:1274-1275 | every section name of every window in the batch is in the needed set |
| Batch.NeededNamesComeFromWindows | 13EX.cpp:1274-1275 | a name is needed only when some window of the batch needs it |
| Batch.TotalArea | 13EX.cpp:1276 | the batch's glass area is non-negative when every window is accepted |
| Batch.CollectNeededSections | 13EX.cpp:1270-1278 | the first loop collects exactly the union of the windows' section names and adds their areas to the area total |
| Batch.EnterRates | 13EX.cpp:1280-1288 | the rate prompts produce one rate for each needed name and for no other |
| Batch.PriceBatch | 13EX.cpp:1290-1295 | the last loop keeps every window and adds the batch's full price; no window meets a missing rate |
| Batch.AddBatch | 13EX.cpp:1250-1295 | an unknown selector or a quantity that is not positive adds nothing; otherwise the windows, the price and the area are added to the totals |
| Batch.NeededNamesAppend | 13EX.cpp:1275 | the names two batches need together are the union of what each needs |
| Batch.SharedRatesPriceEachWindowAlone | 13EX.cpp:1280-1293 | pricing a batch with one shared rate table gives each window the price it would get from its own rates alone |
| Batch.BatchPriceNonNegative | 13EX.cpp:1283-1286 | with non-negative rates, a batch of accepted windows adds a non-negative price |
| Batch.AddBatchKeepsSound | 13EX.cpp:1283-1293 | adding a batch keeps the windows accepted and both totals non-negative |
| Batch.FinalSummary | 13EX.cpp:1302-1307 | there is a summary exactly when some window was added; the discount and the discounted aluminium add up to the aluminium total |
| Batch.DiscountBounds | 13EX.cpp:1164-1170 | a discount of 0–100 % keeps the discounted aluminium between zero and the full aluminium, the net is at least the discounted aluminium, and the net equals aluminium × (1 − p/100) plus glass, labour and hardware |

## Left out

- Console input and output are not modelled: the prompts, the re-prompt loops, `displayType`, the per-line printing, the warning messages and the menu loop itself. Entered dimensions are parameters (`AddBatch`'s `entered` windows). The rate answers are a function `quote` from name to rate. What the re-prompt loops guarantee is the predicate `Frames.Valid` and the hypotheses of the lemmas.
- `Frames.Valid` does not constrain the triple-glass panel's net type or the slide corner's subtype. The source reads both without checking them.
- Floating point is not modelled: lengths, rates and totals are exact reals. Float rounding, and the way a float sum depends on the order of the `std::map` iteration, are not captured. The float equality test of the flexible panel's rounding becomes an exact comparison.
- Pricing.PriceSections: the sum is order-free. The model does not fix which missing section a throwing lookup reports first (the source stops at the first in key order). It only guarantees that the reported section has no rate.
- The exception that a throwing lookup raises becomes the `MissingRate` outcome. The batch loop never reaches it, and `Batch.PriceBatch` proves this.
- The out-of-range behaviour of `static_cast<int>` on huge floats is not modelled, because integers are unbounded here.
- The unused `sec` helper of the triple-glass panel (13EX.cpp:212-216) has no effect on its cutting list and is not modelled.
- Heap ownership (`unique_ptr`), virtual dispatch and the `windows` vector's storage become a `Window` datatype and `seq<Window>` values.
- The "Length Derivation" menu entry only prints a message and is not modelled.
