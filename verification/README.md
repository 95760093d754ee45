# Scrollytelling mediation chart — a Dafny model

This project models the pure logic of a two-part data visualisation of a
placebo-controlled trial. The trial has a placebo arm (treatment 0) and an
active arm (treatment 1), and the chart explains how itch mediates the
treatment's effect on DLQI, a quality-of-life score.

The first part is a scrolling chart (`initializeScrolling.ts`). Its model covers:

- the extents of itch and dlqi over all records;
- the visit-1 cohort;
- the two marker packings (`setX1Position`, `setX2Position`);
- the fitted regression and the guide constants derived from it;
- the settled scene that the nine scroll handlers leave behind;
- the callback that dispatches a scroll index to its handler.

The second part is a static summary chart (`drawSummaryGraph.ts`). Its model covers:

- the table of arm means and its lookups;
- the per-panel regression coefficients;
- the horizontal panel geometry;
- the significance marks after each panel label;
- the guide lines of a panel, in data units: as the chart draws them, and as the lookups evidently intend them.

Modules, in dependency order:

| module | file | contents |
|---|---|---|
| `Records` | records.dfy | one trial record (`Datum`) |
| `Packing` | packing.dfy | the group / sort / assign pipeline that both packings share |
| `Rows` | rows.dfy | the entry rows that the two packings run over (all records, or one arm) |
| `Layout` | layout.dfy | `setX1Position` and `setX2Position` |
| `Narrative` | narrative.dfy | the arm means, the midpoints and the mediation regression |
| `Session` | session.dfy | `getExtent`, the cohort filter, initialisation, circle placements |
| `Scene` | scene.dfy | scene elements and the draw, erase and attribute primitives |
| `Steps` | steps.dfy | scroll handlers 0–8, the dispatcher, idempotence |
| `Summary` | summary.dfy | the summary chart's tables, lookups, geometry and labels |

Modelling choices:

- **Settled scene.** A D3 transition chain is reduced to the values it leaves behind once it completes. Start points, delays and durations do not survive.
  - A draw of an element whose opacity is not positive leaves it at opacity 1 with the requested endpoints.
  - An erase of an element whose opacity is not exactly 0 leaves it at opacity 0, with both ends collapsed onto the end point.
  - Otherwise the element, and the whole scene, is unchanged.
- **Line endpoints** are kept in data units, before the scales map them to pixels.
- **Scales.** The x and y scales are parameters (`real -> real`). The packings apply the x scale to their anchors 5, 3 and 7 (`Layout.SetX1Position`, `Layout.ArmSlot`). The circle placements (`Session.CircleCentre`) apply both scales to the values they place.
- **Markup classes.** Which lines carry the `mean` and `dlqi-mean` classes is set in markup, so it is a parameter (`Scene.Markup`). `Scene.ValidMarkup` requires only that those classes name mean lines.
- **Packing centre.** The packing formula places the i-th of n markers at `anchor − n·r + 2·r·i`, so a group is centred on `anchor − r`, not on the anchor. The model follows the code; `Packing.SlotSymmetry` states the centre.
- **Ids.** Record identity is the record's index in the row. The source writes `x1` and `x2` onto the record objects; the model returns maps from index to position.
- **Numbers.** All numbers are exact `real`s. JavaScript's `|| 0` fallback only replaces NaN or undefined, so on a finite real it is the identity, and the lookups model only its "no row found" case.

## Model

| member | source | states |
|---|---|---|
| Packing.AddToGroups | src/lib/actions/initializeScrolling.ts:379-389 | one reduce step adds the entry's id at the end of the member list for its dlqi and leaves every other key's members as they were; it opens a new group, at the end, only when no group has that dlqi |
| Packing.AddToGroupsDistinct | src/lib/actions/initializeScrolling.ts:379-389 | the reduce step never creates a second group for a dlqi that already has one |
| Packing.GroupByDlqi | src/lib/actions/initializeScrolling.ts:378-390 | for every dlqi, the grouping lists exactly the ids carrying it, in input order, and no two groups share a dlqi |
| Packing.GroupedOnce | src/lib/actions/initializeScrolling.ts:378-390 | every entry's dlqi has a group, and an id is listed in exactly one group at exactly one position |
| Packing.SortByDlqi | src/lib/actions/initializeScrolling.ts:391 | the groups come out in ascending dlqi order and are a permutation of the groups that went in |
| Packing.AssignAll | src/lib/actions/initializeScrolling.ts:392-398 | the assigned keys are the old keys plus every listed member; an unlisted key keeps its value; a member listed only once is written at its group's slot |
| Packing.PackRow | src/lib/actions/initializeScrolling.ts:377-399 | every entry of the row gets a position, other keys keep theirs, and the entry whose dlqi class has n members, k of them before it, sits at anchor − r·n + 2·r·k |
| Packing.GroupOrderIrrelevant | src/lib/actions/initializeScrolling.ts:391 | any rearrangement of the groups assigns exactly what the ascending sort assigns |
| Packing.PackRowSpacing | src/lib/actions/initializeScrolling.ts:392-397 | within one dlqi class, positions follow input order and are exactly 2·r apart per rank, so they are distinct |
| Packing.SlotSymmetry | src/lib/actions/initializeScrolling.ts:393-396 | the slots of a group of n are symmetric about anchor − r |
| Rows.ArmEntriesShape | src/lib/actions/initializeScrolling.ts:404 | the arm filter keeps exactly the records of that arm, in increasing index order, each with its own dlqi |
| Rows.ArmIds | src/lib/actions/initializeScrolling.ts:404 | an index is in an arm's row exactly when its record belongs to that arm |
| Layout.SetX1Position | src/lib/actions/initializeScrolling.ts:377-399 | x1 is defined exactly on the indices of the cohort; record i sits at xScale(5) − r·(records with its dlqi) + 2·r·(earlier records with its dlqi) |
| Layout.SetX2Position | src/lib/actions/initializeScrolling.ts:401-428 | x2 is defined exactly on the records of arm 0 or arm 1; each sits at the packing of its own arm's row around xScale(3) or xScale(7) |
| Layout.X2DependsOnOwnClass | src/lib/actions/initializeScrolling.ts:401-428 | a record's x2 depends only on the records of its own arm with its own dlqi: two cohorts that agree on those give it the same x2 |
| Narrative.Regression | src/lib/actions/initializeScrolling.ts:57-59 | the fitted line bIntercept + bTreatment·t + bItch·itch; what it promises is stated by `Narrative.TreatmentEffect` (the arms differ by bTreatment at every itch) and `Narrative.ItchSlope` (it rises by bItch per unit of itch) |
| Narrative.TreatmentEffect | src/lib/actions/initializeScrolling.ts:53-59 | switching from placebo to active shifts the prediction by bTreatment at every itch |
| Narrative.ItchSlope | src/lib/actions/initializeScrolling.ts:53-59 | within an arm the prediction rises by bItch per unit of itch |
| Narrative.MidpointsBetweenMeans | src/lib/actions/initializeScrolling.ts:47-52 | each midpoint lies strictly between the two arm means and is equally far from both |
| Narrative.MediatorBracket | src/lib/actions/initializeScrolling.ts:212-215 | the bracket at the itch midpoint is −bTreatment long and yMid is exactly halfway between its ends |
| Narrative.MediatorBracketOnLines | src/lib/actions/initializeScrolling.ts:212-214 | the bracket's ends lie on the two arms' regression lines |
| Session.GetExtent | src/lib/actions/initializeScrolling.ts:346-355 | (0, 0) on empty input; otherwise lo ≤ hi, every value lies in [lo, hi], and both bounds are attained |
| Session.ExtentUnique | src/lib/actions/initializeScrolling.ts:346-355 | the bounds that contain every value and are both attained are unique |
| Session.Cohort | src/lib/actions/initializeScrolling.ts:633 | the cohort holds exactly the records of visit 1, no more records than the input |
| Session.CohortShape | src/lib/actions/initializeScrolling.ts:633 | the cohort is the subsequence of visit-1 records: a strictly increasing index map sends each cohort position to the same record in the input and reaches every visit-1 record, so input order and repeats are kept |
| Session.CohortIdempotent | src/lib/actions/initializeScrolling.ts:633 | filtering the cohort again changes nothing |
| Session.Initialize | src/lib/actions/initializeScrolling.ts:625-655 | both extents are the attained minimum and maximum over every record, before the visit filter, and (0, 0) for no records; the scales are built from those extents; x1 and x2 are the two packings of the cohort |
| Session.CircleCentre | src/lib/actions/initializeScrolling.ts:452-512 | the `cx`/`cy` a circle is given under each placement (also the first rendering at lines 68-69); `Session.PackedAllSeparates`, `Session.PackedByArmSeparates`, `Session.ArmPlacementsShareCentre`, `Session.ArmsApart` and `Session.OtherArmAtLeftEdge` state what the placements promise |
| Session.PackedAllSeparates | src/lib/actions/initializeScrolling.ts:377-399 | packed together (cx = x1), two records with the same dlqi share a row and the later one sits at least a circle diameter to the right, so they never overlap |
| Session.PackedByArmSeparates | src/lib/actions/initializeScrolling.ts:401-428 | packed by arm (cx = x2), two records of the same arm with the same dlqi share a row and the later one sits at least a diameter to the right |
| Session.ArmPlacementsShareCentre | src/lib/actions/initializeScrolling.ts:472-479 | at the arm anchors and at the arm itch means, all records of one arm are moved to one shared centre |
| Session.ArmsApart | src/lib/actions/initializeScrolling.ts:504-512 | on an increasing x scale the placebo arm stands left of the active arm at the anchors (3 < 7) and right of it at the itch means (6.5363 > 4.7133) |
| Session.OtherArmAtLeftEdge | src/lib/actions/initializeScrolling.ts:465 | a record of neither arm has no x2 and is drawn at x = 0 when the circles are split by arm |
| Scene.Draw | src/lib/actions/initializeScrolling.ts:74-130 | an element with positive opacity leaves the scene unchanged; otherwise it ends at opacity 1 with the requested endpoints; no other element changes |
| Scene.Erase | src/lib/actions/initializeScrolling.ts:226-284 | an element with opacity exactly 0 leaves the scene unchanged; otherwise it ends at opacity 0 with both ends on the end point; no other element changes |
| Scene.DrawIdempotent | src/lib/actions/initializeScrolling.ts:102-130 | drawing an element twice with the same target is drawing it once |
| Scene.EraseIdempotent | src/lib/actions/initializeScrolling.ts:256-284 | erasing an element twice with the same end point is erasing it once |
| Scene.DrawShows | src/lib/actions/initializeScrolling.ts:102-130 | after a draw the element is visible, whether or not the draw acted |
| Scene.DrawHorizontalLine | src/lib/actions/initializeScrolling.ts:102-115 | guarded draw of a line at height y from x1 to x2 |
| Scene.DrawVerticalLine | src/lib/actions/initializeScrolling.ts:117-130 | guarded draw of a line at x from y1 to y2 |
| Scene.RegressionElement | src/lib/actions/initializeScrolling.ts:133-134 | treatment 0 selects the placebo regression line and any other value the active one |
| Scene.DrawRegressionLine | src/lib/actions/initializeScrolling.ts:132-149 | guarded draw of the arm's fitted line from itch 0 to itch 10 |
| Scene.RegressionLineSlope | src/lib/actions/initializeScrolling.ts:132-149 | a freshly drawn regression line spans 10 itch units and rises by 10·bItch |
| Scene.EraseHorizontalLine | src/lib/actions/initializeScrolling.ts:256-269 | guarded erase that collapses the line onto (xEnd, y) |
| Scene.EraseVerticalLine | src/lib/actions/initializeScrolling.ts:271-284 | guarded erase that collapses the line onto (x, yEnd) |
| Scene.EraseRegressionLine | src/lib/actions/initializeScrolling.ts:313-330 | the arm's regression line ends hidden, collapsed onto its intercept at itch 0 if it was showing |
| Scene.EraseDlqiMeanDifference | src/lib/actions/initializeScrolling.ts:286-295 | the dlqi bracket ends hidden, collapsed onto (1.5, dlqi midpoint) if it was showing; the whole scene is unchanged if it was already hidden |
| Scene.EraseItchMeanDifference | src/lib/actions/initializeScrolling.ts:297-306 | the itch bracket ends hidden, collapsed onto (itch midpoint, 4) if it was showing; the whole scene is unchanged if it was already hidden |
| Scene.EraseHorizontalMeanLines | src/lib/actions/initializeScrolling.ts:308-311 | both dlqi mean lines end hidden, each collapsed onto itch 0 at its own mean; only those two lines change |
| Scene.DrawHorizontalMeanLines | src/lib/actions/initializeScrolling.ts:193-210 | both dlqi mean lines end visible, spanning itch 0 to 10 at their arm's mean if they were hidden; only those two lines change |
| Scene.DrawMediatorEffect | src/lib/actions/initializeScrolling.ts:212-224 | the mediator bracket ends visible; if it was hidden, it now spans the two regression lines at the itch midpoint with length −bTreatment; the whole scene is unchanged if it was already showing |
| Scene.EraseMediatorEffect | src/lib/actions/initializeScrolling.ts:332-344 | the mediator bracket ends hidden, collapsed onto the point halfway between the regression lines if it was showing; the whole scene is unchanged if it was already hidden |
| Scene.MediatorCollapsesToMidpoint | src/lib/actions/initializeScrolling.ts:332-344 | erasing a freshly drawn bracket collapses it onto the midpoint of its two ends |
| Scene.SetOpacity | src/lib/actions/initializeScrolling.ts:528 | every line of the class takes the opacity at once, with its endpoints kept; lines outside the class and the rest of the scene are untouched |
| Scene.DrawXAxis | src/lib/actions/initializeScrolling.ts:151-172 | the x axis takes the requested offset and opacity; nothing else changes |
| Scene.DrawYAxis | src/lib/actions/initializeScrolling.ts:174-191 | the y axis takes the requested offset and opacity; nothing else changes |
| Steps.Step0 | src/lib/actions/initializeScrolling.ts:435-446 | from any scene: both regressions and both brackets hidden, both axes at offset 200 and opacity 0, circles unclassed at opacity 1 and left where they were; mean lines, mediator and annotation untouched |
| Steps.Step1 | src/lib/actions/initializeScrolling.ts:447-456 | y axis shown at offset 0; circles unclassed and packed by dlqi; lines, x axis and annotation untouched |
| Steps.Step2 | src/lib/actions/initializeScrolling.ts:457-467 | dlqi mean lines and dlqi bracket hidden; circles classed by arm and packed by arm; every other line untouched |
| Steps.Step3 | src/lib/actions/initializeScrolling.ts:468-490 | circles at the arm anchors; dlqi mean lines and dlqi bracket visible, the bracket spanning the two means at itch 1.5 if it was hidden |
| Steps.Step4 | src/lib/actions/initializeScrolling.ts:491-525 | dlqi bracket, itch mean lines and itch bracket hidden; x axis shown; circles at the arm itch means |
| Steps.Step5 | src/lib/actions/initializeScrolling.ts:526-561 | dlqi-mean lines opaque; itch mean lines and itch bracket visible, the bracket spanning the two itch means at dlqi 4 if it was hidden; dlqi bracket hidden |
| Steps.Step6 | src/lib/actions/initializeScrolling.ts:562-573 | itch bracket and both regressions hidden; mean lines at opacity 0.5; circles at (itch, dlqi) |
| Steps.Step7 | src/lib/actions/initializeScrolling.ts:574-603 | from any scene: regressions visible; both brackets and the mediator hidden; mean lines and circles at opacity 0.5; circles at (itch, dlqi); annotation at opacity 0 |
| Steps.Step8 | src/lib/actions/initializeScrolling.ts:604-622 | from any scene: mediator and dlqi bracket visible; itch bracket hidden; annotation at opacity 1 at (0.5, 17.5) |
| Steps.Dispatch | src/lib/actions/initializeScrolling.ts:659-666 | an index without a handler leaves the scene unchanged; an index with one runs exactly that handler |
| Steps.StepIdempotent | src/lib/actions/initializeScrolling.ts:434-623 | running any handler twice gives the scene it gives once |
| Steps.DispatchIdempotent | src/lib/actions/initializeScrolling.ts:659-666 | delivering the same scroll index twice in a row is delivering it once |
| Summary.FittedCells | src/lib/actions/drawSummaryGraph.ts:119-160 | the switch lists a cell exactly for visits 0 and 1 crossed with BSA, Redness and Itch |
| Summary.CoefficientsMatchCells | src/lib/actions/drawSummaryGraph.ts:114-164 | the switch returns each listed cell's coefficients from the table, and all-zero coefficients for any other visit or label |
| Summary.Regression | src/lib/actions/drawSummaryGraph.ts:114-164 | for a visit or label the switch does not list the prediction is 0 |
| Summary.RegressionUsesCell | src/lib/actions/drawSummaryGraph.ts:163 | in a listed cell the prediction is intercept + bTreatment·treatment + bX·x with that cell's coefficients |
| Summary.ParallelArms | src/lib/actions/drawSummaryGraph.ts:303-316 | the active-minus-placebo gap is the same at every x, so a panel's two regression lines are parallel |
| Summary.ItchCellIsNarrated | src/lib/actions/drawSummaryGraph.ts:155-158 | the visit-1 Itch coefficients are the scrolling chart's bIntercept, bTreatment and bItch, and so are its predictions |
| Summary.Find | src/lib/actions/drawSummaryGraph.ts:250-251 | find returns the first row satisfying the test, or nothing when no row does |
| Summary.MeasureOf | src/lib/actions/drawSummaryGraph.ts:254-272 | exactly the three panel labels select a measure: BSA reads bsa, Redness reads easi, Itch reads itch; no label reads dlqi |
| Summary.PanelsReadEachMeasureOnce | src/lib/actions/drawSummaryGraph.ts:254-272 | the three panels read three different measures and together cover every measure but dlqi |
| Summary.Lookup | src/lib/actions/drawSummaryGraph.ts:250-251 | the measure of the first matching row, and 0 when no row matches |
| Summary.StatsOnePerCell | src/lib/actions/drawSummaryGraph.ts:53-86 | every (treatment, visit) in {0, 1}² has exactly one row |
| Summary.RowOf | src/lib/actions/drawSummaryGraph.ts:53-86 | the row of an arm and a visit is in the table with that arm and that visit |
| Summary.PboMean | src/lib/actions/drawSummaryGraph.ts:250-251 | the placebo lookup `stats.find(d => d.visit === visit && d.treatment === 0)?.m`, falling back to 0; `Summary.PboMeanIsRow` states that it reads the requested visit's unique placebo row, or 0 |
| Summary.RxMean | src/lib/actions/drawSummaryGraph.ts:252-253 | the intended active lookup, `d.visit === visit && d.treatment === 1`; `Summary.RxMeanIsRow` states that it reads the requested visit's unique active row, or 0 |
| Summary.RxMeanAsWritten | src/lib/actions/drawSummaryGraph.ts:252-271 | the active lookups as written, filtering on the truthiness of `d.visit`; `Summary.RxMeanAsWrittenIgnoresVisit` states that they read the visit-1 active row whatever visit is asked for |
| Summary.PboMeanIsRow | src/lib/actions/drawSummaryGraph.ts:250-251 | the placebo lookup reads the unique placebo row of the visit, and 0 for a visit without rows |
| Summary.RxMeanIsRow | src/lib/actions/drawSummaryGraph.ts:252-253 | the corrected active lookup reads the unique active row of the requested visit, and 0 for a visit without rows |
| Summary.RxMeanAsWrittenIgnoresVisit | src/lib/actions/drawSummaryGraph.ts:252-253 | as written, the active lookup reads the visit-1 row whatever visit is requested |
| Summary.RxMeanAsWrittenDiffersAtVisitZero | src/lib/actions/drawSummaryGraph.ts:252-253 | at visit 0, the visit the chart draws, the as-written active dlqi mean is 10.81 while the visit-0 row holds 11.115 |
| Summary.PanelLeft | src/lib/actions/drawSummaryGraph.ts:207-214 | a panel's left edge is never left of the margin plus one gap |
| Summary.PanelsTile | src/lib/actions/drawSummaryGraph.ts:176-177 | graphWidth is 352, consecutive panels are exactly 32 apart, and the third panel ends at width − margin.right |
| Summary.SigLabel | src/lib/actions/drawSummaryGraph.ts:205 | every suffix starts with " +", and it carries "#" exactly from the third panel on |
| Summary.SigLabelsOfPanels | src/lib/actions/drawSummaryGraph.ts:205 | of the three panels only the Itch panel carries "#" |
| Summary.PanelGuides | src/lib/actions/drawSummaryGraph.ts:248-316 | for a given active-arm lookup: a panel's horizontal guides sit at the two arms' dlqi means, its vertical guides at the arm means of the panel's measure, and its regression lines run from the arm's prediction at x = 0 to its prediction at the axis maximum, in parallel |
| Summary.DrawnGuides | src/lib/actions/drawSummaryGraph.ts:248-272 | as drawn, the active-arm dlqi guide and vertical guide stand at the visit-1 row's values whatever the visit, while the placebo dlqi guide follows the visit |
| Summary.ItchPanelGuides | src/lib/actions/drawSummaryGraph.ts:266-270 | as drawn, the Itch panel's active vertical guide stands at the visit-1 itch mean for every visit, and its placebo guide at the placebo itch mean of the visit |
| Summary.DrawnDlqiGuideAtVisitZero | src/lib/actions/drawSummaryGraph.ts:252-253 | at visit 0 the drawn active dlqi guide is at 10.81, where the intended lookup puts it at 11.115 |
| Summary.DrawnItchGuideAtVisitZero | src/lib/actions/drawSummaryGraph.ts:270 | at visit 0 the drawn active itch guide is at 4.7133, where the intended lookup puts it at 5.64805 |
| Summary.CorrectedItchPanelGuides | src/lib/actions/drawSummaryGraph.ts:266-270 | with the intended lookup, the Itch panel's vertical guides of visit 0 or 1 stand at both arms' itch means of that visit |

## Left out

- D3 transitions, delays and durations, including in-flight retargeting when a handler runs before an earlier one settles. Only the settled scene is modelled.
- Pixel geometry of the scrolling chart: `setDimensions`, margins, `transformGData`, transform strings, and axis and tick rendering. Axes are kept as (offset, opacity).
- `d3.scaleLinear().nice()`. The scales are opaque function parameters.
- Line endpoints are in data units, so the scales are not applied to them.
- NaN and undefined values. `|| 0` is modelled only as the 0 returned when a lookup finds no row.
- Vue-id discovery (`setVueId`), console logging, and scrollama's threshold detection. The dispatcher receives the index directly.
- `drawCircles` (initializeScrolling.ts:61-72): the scrolling chart's first rendering of the circles. Its placement is the `PackedAll` placement of `Session.CircleCentre`; the element creation is not modelled.
- All SVG appending in the summary chart: its circles, axes and labels.
- The per-visit record filter of the summary chart (drawSummaryGraph.ts:188). It only selects which circles to draw.
- Membership of the `mean` and `dlqi-mean` classes. It lives in markup that is not part of this model, so it is a parameter. It is constrained to name mean lines; with arbitrary membership, an immediate attribute write could land on an element with a pending transition, and the settled-scene reduction would no longer hold.
- Order-independence between handlers, which the code does not provide:
  - step 0 leaves the mean lines and the mediator as they were (the ensures of `Steps.Step0` that keeps every mean line and the mediator);
  - no handler after 7 restores circle opacity from 0.5.
- A record with no packed position is placed at x = 0 by `Session.CircleCentre`; the source gets there through `undefined || 0`.

## Findings

| source | as written | input that shows it | evidently intended | confidence | as-written member | corrected member |
|---|---|---|---|---|---|---|
| src/lib/actions/drawSummaryGraph.ts:252-253 | the active-arm lookups test `d.visit` for truthiness, not `d.visit === visit`, so any non-zero visit matches and the visit-1 row is returned whatever visit is requested | visit 0, the only visit the chart draws: the active dlqi mean line is drawn at 10.81 (the visit-1 row) instead of 11.115 (the visit-0 row); the bsa, easi and itch lookups at lines 258, 264 and 270 do the same | `d.visit === visit && d.treatment === 1`, as in the placebo lookups | not executed | Summary.RxMeanAsWrittenDiffersAtVisitZero | Summary.RxMeanIsRow |
