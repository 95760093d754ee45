/**
  The summary chart: per-arm summary statistics, the fitted regression of
  dlqi on treatment and one explanatory variable per panel, the horizontal
  panel geometry and the panel labels. Only the values the chart computes
  are modelled; the SVG it draws from them is not.
 */
module Summary {
  import Narrative

  datatype Option<T> = None | Some(value: T)

  /** One row of the summary statistics: arm means at one visit. */
  datatype SummaryStat = SummaryStat(treatment: int, visit: int, dlqi: real, bsa: real, easi: real, itch: real)

  /** The statistics table, in source order. */
  const Stats: seq<SummaryStat> := [
    SummaryStat(0, 0, 16.005, 37.7986, 24.12815, 7.35945),
    SummaryStat(0, 1, 16.245, 27.4341, 17.3549, 6.5363),
    SummaryStat(1, 0, 11.115, 35.39355, 21.47455, 5.64805),
    SummaryStat(1, 1, 10.81, 24.56045, 12.6407, 4.7133)
  ]

  /** The explanatory variables, one per panel, left to right. */
  const XLabels: seq<string> := ["BSA", "Redness", "Itch"]

  /** The axis maximum of each panel's explanatory variable. */
  const XMaxima: seq<real> := [100.0, 60.0, 10.0]

  /** The visits the chart draws. */
  const Visits: seq<int> := [0]

  // ---------------------------------------------------------------------
  // Regression coefficients
  // ---------------------------------------------------------------------

  datatype Coefficients = Coefficients(intercept: real, treatment: real, x: real)

  const NoCoefficients: Coefficients := Coefficients(0.0, 0.0, 0.0)

  /** The nested switch on visit and label; a case it does not list keeps all three coefficients at 0. */
  function CoefficientsFor(visit: int, xLabel: string): Coefficients
  {
    match visit
    case 0 =>
      if xLabel == "BSA" then Coefficients(16.0292312, -4.8915418, -0.0006411)
      else if xLabel == "Redness" then Coefficients(16.90054, -4.98849, -0.03712)
      else if xLabel == "Itch" then Coefficients(2.3492, -1.7144, 1.8556)
      else NoCoefficients
    case 1 =>
      if xLabel == "BSA" then Coefficients(16.2347477, -5.4339261, 0.0003737)
      else if xLabel == "Redness" then Coefficients(16.213779, -5.426519, 0.001799)
      else if xLabel == "Itch" then Coefficients(4.60514, -2.1886, 1.7808)
      else NoCoefficients
    case _ => NoCoefficients
  }

  /** One fitted cell: the visit and label it applies to and its coefficients. */
  datatype Cell = Cell(visit: int, xLabel: string, coefficients: Coefficients)

  /** The six fitted cells, as a table read row by row. */
  const Cells: seq<Cell> := [
    Cell(0, "BSA", Coefficients(16.0292312, -4.8915418, -0.0006411)),
    Cell(0, "Redness", Coefficients(16.90054, -4.98849, -0.03712)),
    Cell(0, "Itch", Coefficients(2.3492, -1.7144, 1.8556)),
    Cell(1, "BSA", Coefficients(16.2347477, -5.4339261, 0.0003737)),
    Cell(1, "Redness", Coefficients(16.213779, -5.426519, 0.001799)),
    Cell(1, "Itch", Coefficients(4.60514, -2.1886, 1.7808))
  ]

  /** A visit and label the switch lists. */
  predicate Fitted(visit: int, xLabel: string)
  {
    exists i | 0 <= i < |Cells| :: Cells[i].visit == visit && Cells[i].xLabel == xLabel
  }

  /** The fitted cells are the visits 0 and 1 crossed with the three panel labels. */
  lemma FittedCells(visit: int, xLabel: string)
    ensures Fitted(visit, xLabel) <==> (visit == 0 || visit == 1) && xLabel in XLabels
  {
    if (visit == 0 || visit == 1) && xLabel in XLabels {
      var i := 3 * visit + (if xLabel == "BSA" then 0 else if xLabel == "Redness" then 1 else 2);
      assert Cells[i].visit == visit && Cells[i].xLabel == xLabel;
    }
  }

  /** The switch returns each listed cell's coefficients, and zeros for every pair it does not list. */
  lemma CoefficientsMatchCells(visit: int, xLabel: string)
    ensures forall i | 0 <= i < |Cells| && Cells[i].visit == visit && Cells[i].xLabel == xLabel ::
              CoefficientsFor(visit, xLabel) == Cells[i].coefficients
    ensures !Fitted(visit, xLabel) ==> CoefficientsFor(visit, xLabel) == NoCoefficients
  {
    if !Fitted(visit, xLabel) {
      FittedCells(visit, xLabel);
    }
  }

  /** regression(visit, treatment, xLabel, x) of the summary chart. */
  function Regression(visit: int, treatment: real, xLabel: string, x: real): (y: real)
    ensures !Fitted(visit, xLabel) ==> y == 0.0
  {
    CoefficientsMatchCells(visit, xLabel);
    var c := CoefficientsFor(visit, xLabel);
    c.intercept + c.treatment * treatment + c.x * x
  }

  /** In every fitted cell the prediction is linear in treatment and x with that cell's coefficients. */
  lemma RegressionUsesCell(i: nat, treatment: real, x: real)
    requires i < |Cells|
    ensures var c := Cells[i].coefficients;
      Regression(Cells[i].visit, treatment, Cells[i].xLabel, x) == c.intercept + c.treatment * treatment + c.x * x
  {
    CoefficientsMatchCells(Cells[i].visit, Cells[i].xLabel);
  }

  /**
    The two arms' lines in a panel are parallel: the active-minus-placebo
    gap is the same at every x.
   */
  lemma ParallelArms(visit: int, xLabel: string, x: real, x': real)
    ensures Regression(visit, 1.0, xLabel, x) - Regression(visit, 0.0, xLabel, x)
         == Regression(visit, 1.0, xLabel, x') - Regression(visit, 0.0, xLabel, x')
  {
  }

  /** The visit-1 itch cell is the model the scrolling chart narrates. */
  lemma ItchCellIsNarrated(treatment: real, x: real)
    ensures CoefficientsFor(1, "Itch") == Coefficients(Narrative.BIntercept, Narrative.BTreatment, Narrative.BItch)
    ensures Regression(1, treatment, "Itch", x) == Narrative.Regression(treatment, x)
  {
  }

  // ---------------------------------------------------------------------
  // Statistics lookups
  // ---------------------------------------------------------------------

  /** Array.prototype.find: the first row satisfying p, if any. */
  function Find(rows: seq<SummaryStat>, p: SummaryStat -> bool): (r: Option<SummaryStat>)
    ensures r.Some? ==> exists i | 0 <= i < |rows| :: rows[i] == r.value && p(rows[i]) && forall j | 0 <= j < i :: !p(rows[j])
    ensures r.None? ==> forall i | 0 <= i < |rows| :: !p(rows[i])
  {
    if |rows| == 0 then None
    else if p(rows[0]) then Some(rows[0])
    else
      var r := Find(rows[1..], p);
      assert forall i | 1 <= i < |rows| :: rows[i] == rows[1..][i - 1];
      r
  }

  /** The quantities a row holds. */
  datatype Measure = Dlqi | Bsa | Easi | ItchScore

  function Value(d: SummaryStat, m: Measure): real
  {
    match m
    case Dlqi => d.dlqi
    case Bsa => d.bsa
    case Easi => d.easi
    case ItchScore => d.itch
  }

  /** The measure of the panel with this label: BSA reads bsa, Redness reads easi, Itch reads itch. */
  function MeasureOf(xLabel: string): (m: Option<Measure>)
    ensures m.Some? <==> xLabel in XLabels
    ensures xLabel == "BSA" ==> m == Some(Bsa)
    ensures xLabel == "Redness" ==> m == Some(Easi)
    ensures xLabel == "Itch" ==> m == Some(ItchScore)
    ensures m != Some(Dlqi)
  {
    if xLabel == "BSA" then Some(Bsa)
    else if xLabel == "Redness" then Some(Easi)
    else if xLabel == "Itch" then Some(ItchScore)
    else None
  }

  /**
    The three panels read three different measures, and between them every
    measure except dlqi, which is the y axis of every panel.
   */
  lemma PanelsReadEachMeasureOnce(k: nat, l: nat, m: Measure)
    requires k < l < |XLabels|
    ensures MeasureOf(XLabels[k]).Some? && MeasureOf(XLabels[k]) != MeasureOf(XLabels[l])
    ensures m != Dlqi ==> exists j :: 0 <= j < |XLabels| && MeasureOf(XLabels[j]) == Some(m)
  {
    match m
    case Dlqi =>
    case Bsa => assert MeasureOf(XLabels[0]) == Some(Bsa);
    case Easi => assert MeasureOf(XLabels[1]) == Some(Easi);
    case ItchScore => assert MeasureOf(XLabels[2]) == Some(ItchScore);
  }

  /** `stats.find(p)?.m || 0`: the measure of the first matching row, 0 when no row matches. */
  function Lookup(p: SummaryStat -> bool, m: Measure): (v: real)
    ensures (forall i | 0 <= i < |Stats| :: !p(Stats[i])) ==> v == 0.0
    ensures forall i | 0 <= i < |Stats| && p(Stats[i]) && (forall j | 0 <= j < i :: !p(Stats[j])) :: v == Value(Stats[i], m)
  {
    match Find(Stats, p)
    case Some(d) => Value(d, m)
    case None => 0.0
  }

  /** A row of the placebo arm at the requested visit. */
  predicate IsPboRow(visit: int, d: SummaryStat)
  {
    d.visit == visit && d.treatment == 0
  }

  /** A row of the active arm at the requested visit. */
  predicate IsRxRow(visit: int, d: SummaryStat)
  {
    d.visit == visit && d.treatment == 1
  }

  /** The active-arm filter as written: `d.visit` is tested for truthiness, so any non-zero visit matches. */
  predicate IsRxRowAsWritten(visit: int, d: SummaryStat)
  {
    d.visit != 0 && d.treatment == 1
  }

  /** The placebo mean of a measure at a visit. */
  function PboMean(visit: int, m: Measure): real
  {
    Lookup(d => IsPboRow(visit, d), m)
  }

  /** The active-arm mean of a measure at a visit, as the chart intends it. */
  function RxMean(visit: int, m: Measure): real
  {
    Lookup(d => IsRxRow(visit, d), m)
  }

  /** The active-arm mean of a measure, as the chart computes it. */
  function RxMeanAsWritten(visit: int, m: Measure): real
  {
    Lookup(d => IsRxRowAsWritten(visit, d), m)
  }

  /** Every pair of arm and visit in {0, 1} has exactly one row. */
  lemma StatsOnePerCell(t: int, v: int)
    requires t in {0, 1} && v in {0, 1}
    ensures exists i | 0 <= i < |Stats| :: Stats[i].treatment == t && Stats[i].visit == v
    ensures forall i, j | 0 <= i < |Stats| && 0 <= j < |Stats|
              && Stats[i].treatment == t && Stats[i].visit == v
              && Stats[j].treatment == t && Stats[j].visit == v :: i == j
  {
    var i := 2 * t + v;
    assert Stats[i].treatment == t && Stats[i].visit == v;
  }

  /** The row of arm t at visit v; 2t + v in source order. */
  function RowOf(t: int, v: int): (d: SummaryStat)
    requires t in {0, 1} && v in {0, 1}
    ensures d in Stats && d.treatment == t && d.visit == v
  {
    Stats[2 * t + v]
  }

  /** The placebo lookup reads the unique placebo row of the visit, and 0 for a visit the table lacks. */
  lemma PboMeanIsRow(visit: int, m: Measure)
    ensures visit in {0, 1} ==> PboMean(visit, m) == Value(RowOf(0, visit), m)
    ensures visit !in {0, 1} ==> PboMean(visit, m) == 0.0
  {
    if visit in {0, 1} {
      var i := visit;
      assert IsPboRow(visit, Stats[i]);
      assert forall j | 0 <= j < i :: !IsPboRow(visit, Stats[j]);
    } else {
      assert forall i | 0 <= i < |Stats| :: !IsPboRow(visit, Stats[i]);
    }
  }

  /** The intended active-arm lookup reads the unique active row of the visit. */
  lemma RxMeanIsRow(visit: int, m: Measure)
    ensures visit in {0, 1} ==> RxMean(visit, m) == Value(RowOf(1, visit), m)
    ensures visit !in {0, 1} ==> RxMean(visit, m) == 0.0
  {
    if visit in {0, 1} {
      var i := 2 + visit;
      assert IsRxRow(visit, Stats[i]);
      assert forall j | 0 <= j < i :: !IsRxRow(visit, Stats[j]);
    } else {
      assert forall i | 0 <= i < |Stats| :: !IsRxRow(visit, Stats[i]);
    }
  }

  /** As written, the active-arm lookup ignores the requested visit and always reads the visit-1 row. */
  lemma RxMeanAsWrittenIgnoresVisit(visit: int, m: Measure)
    ensures RxMeanAsWritten(visit, m) == Value(RowOf(1, 1), m)
  {
    assert IsRxRowAsWritten(visit, Stats[3]);
    assert forall j | 0 <= j < 3 :: !IsRxRowAsWritten(visit, Stats[j]);
  }

  /** At visit 0, the visit the chart draws, the as-written active dlqi mean is the visit-1 value 10.81, not 11.115. */
  lemma RxMeanAsWrittenDiffersAtVisitZero()
    ensures RxMeanAsWritten(0, Dlqi) == 10.81
    ensures RxMean(0, Dlqi) == 11.115
    ensures 0 in Visits
  {
    RxMeanAsWrittenIgnoresVisit(0, Dlqi);
    RxMeanIsRow(0, Dlqi);
  }

  // ---------------------------------------------------------------------
  // Panel geometry and labels
  // ---------------------------------------------------------------------

  const Width: real := 1200.0
  const MarginLeft: real := 40.0
  const MarginRight: real := 8.0
  const SpaceBetweenGraphs: real := 32.0

  /** graphWidth: three panels and three gaps fill the width between the margins. */
  const GraphWidth: real := (Width - MarginLeft - MarginRight - 3.0 * SpaceBetweenGraphs) / 3.0

  /** Left edge of panel k: the left margin, k + 1 gaps and k panels. */
  function PanelLeft(k: nat): (x: real)
    ensures x >= MarginLeft + SpaceBetweenGraphs
  {
    MarginLeft + (k + 1) as real * SpaceBetweenGraphs + k as real * GraphWidth
  }

  /** The three panels tile the width: each is 352 wide, 32 apart, and the last ends at the right margin. */
  lemma PanelsTile(k: nat)
    ensures GraphWidth == 352.0
    ensures PanelLeft(k + 1) - (PanelLeft(k) + GraphWidth) == SpaceBetweenGraphs
    ensures PanelLeft(|XLabels| - 1) + GraphWidth == Width - MarginRight
  {
  }

  /** Significance marks after a panel's label: the first two panels get " +", the third " +#". */
  function SigLabel(xIdx: nat): (s: string)
    ensures |s| >= 2 && s[..2] == " +"
    ensures '#' in s <==> xIdx >= 2
  {
    if xIdx < 2 then " +" else " +#"
  }

  /** Only the itch panel carries the extra mark. */
  lemma SigLabelsOfPanels()
    ensures forall k | 0 <= k < |XLabels| :: ('#' in SigLabel(k) <==> XLabels[k] == "Itch")
  {
  }

  // ---------------------------------------------------------------------
  // The guides of one panel, in data units
  // ---------------------------------------------------------------------

  datatype Segment = Segment(x1: real, x2: real, y1: real, y2: real)

  /** The six guide lines of a panel: two horizontal dlqi means, two vertical x means, two regression lines. */
  datatype Guides = Guides(pboDlqi: Segment, rxDlqi: Segment, pboX: Segment, rxX: Segment, pboFit: Segment, rxFit: Segment)

  /** The measure a panel's x mean reads, or 0 for a label the switch does not list. */
  function XMean(mean: (int, Measure) -> real, visit: int, xLabel: string): real
  {
    match MeasureOf(xLabel)
    case Some(m) => mean(visit, m)
    case None => 0.0
  }

  /**
    The guides of panel xIdx at a visit. The active-arm lookup is a parameter:
    the chart draws with RxMeanAsWritten, and RxMean is the intended lookup.
   */
  function PanelGuides(rxMean: (int, Measure) -> real, visit: int, xIdx: nat): (g: Guides)
    requires xIdx < |XLabels|
    ensures g.pboDlqi.y1 == g.pboDlqi.y2 == PboMean(visit, Dlqi)
    ensures g.rxDlqi.y1 == g.rxDlqi.y2 == rxMean(visit, Dlqi)
    ensures g.pboX.x1 == g.pboX.x2 == XMean(PboMean, visit, XLabels[xIdx])
    ensures g.rxX.x1 == g.rxX.x2 == XMean(rxMean, visit, XLabels[xIdx])
    ensures g.pboFit.x1 == g.rxFit.x1 == 0.0 && g.pboFit.x2 == g.rxFit.x2 == XMaxima[xIdx]
    ensures g.pboFit.y1 == Regression(visit, 0.0, XLabels[xIdx], 0.0)
    ensures g.pboFit.y2 == Regression(visit, 0.0, XLabels[xIdx], XMaxima[xIdx])
    ensures g.rxFit.y1 == Regression(visit, 1.0, XLabels[xIdx], 0.0)
    ensures g.rxFit.y2 == Regression(visit, 1.0, XLabels[xIdx], XMaxima[xIdx])
    ensures g.rxFit.y1 - g.pboFit.y1 == g.rxFit.y2 - g.pboFit.y2
  {
    var xLabel := XLabels[xIdx];
    var max := XMaxima[xIdx];
    var yPbo := PboMean(visit, Dlqi);
    var yRx := rxMean(visit, Dlqi);
    var xPbo := XMean(PboMean, visit, xLabel);
    var xRx := XMean(rxMean, visit, xLabel);
    ParallelArms(visit, xLabel, 0.0, max);
    Guides(
      Segment(0.0, max, yPbo, yPbo),
      Segment(0.0, max, yRx, yRx),
      Segment(xPbo, xPbo, 0.0, 30.0),
      Segment(xRx, xRx, 0.0, 30.0),
      Segment(0.0, max, Regression(visit, 0.0, xLabel, 0.0), Regression(visit, 0.0, xLabel, max)),
      Segment(0.0, max, Regression(visit, 1.0, xLabel, 0.0), Regression(visit, 1.0, xLabel, max)))
  }

  /** The guides the chart draws: the active-arm means come from the lookup as written. */
  function DrawnGuides(visit: int, xIdx: nat): (g: Guides)
    requires xIdx < |XLabels|
    ensures g.rxDlqi.y1 == g.rxDlqi.y2 == Value(RowOf(1, 1), Dlqi)
    ensures g.rxX.x1 == g.rxX.x2 == Value(RowOf(1, 1), MeasureOf(XLabels[xIdx]).value)
    ensures visit in {0, 1} ==> g.pboDlqi.y1 == Value(RowOf(0, visit), Dlqi)
  {
    RxMeanAsWrittenIgnoresVisit(visit, Dlqi);
    RxMeanAsWrittenIgnoresVisit(visit, MeasureOf(XLabels[xIdx]).value);
    PboMeanIsRow(visit, Dlqi);
    PanelGuides(RxMeanAsWritten, visit, xIdx)
  }

  /** The third panel is the itch panel: its x means read the itch score. */
  lemma ItchPanelReadsItch(mean: (int, Measure) -> real, visit: int)
    ensures XMean(mean, visit, XLabels[2]) == mean(visit, ItchScore)
  {
    assert XLabels[2] == "Itch";
  }

  /** The vertical guides of the itch panel stand at the two arms' itch means, read by the given lookups. */
  lemma ItchGuides(rxMean: (int, Measure) -> real, visit: int)
    ensures PanelGuides(rxMean, visit, 2).pboX.x1 == PboMean(visit, ItchScore)
    ensures PanelGuides(rxMean, visit, 2).rxX.x1 == rxMean(visit, ItchScore)
  {
    ItchPanelReadsItch(PboMean, visit);
    ItchPanelReadsItch(rxMean, visit);
  }

  lemma PboItchMeanIsRow(visit: int)
    requires visit in {0, 1}
    ensures PboMean(visit, ItchScore) == RowOf(0, visit).itch
  {
    PboMeanIsRow(visit, ItchScore);
  }

  lemma RxItchMeanIsRow(visit: int)
    requires visit in {0, 1}
    ensures RxMean(visit, ItchScore) == RowOf(1, visit).itch
  {
    RxMeanIsRow(visit, ItchScore);
  }

  lemma RxItchMeanAsWritten(visit: int)
    ensures RxMeanAsWritten(visit, ItchScore) == RowOf(1, 1).itch
  {
    RxMeanAsWrittenIgnoresVisit(visit, ItchScore);
  }

  /**
    As drawn, the itch panel's active vertical guide stands at the visit-1
    itch mean whatever the visit, while the placebo guide follows the visit.
   */
  lemma ItchPanelGuides(visit: int)
    ensures DrawnGuides(visit, 2).rxX.x1 == RowOf(1, 1).itch
    ensures visit in {0, 1} ==> DrawnGuides(visit, 2).pboX.x1 == RowOf(0, visit).itch
  {
    ItchGuides(RxMeanAsWritten, visit);
    RxItchMeanAsWritten(visit);
    if visit in {0, 1} {
      PboItchMeanIsRow(visit);
    }
  }

  /** At visit 0, the visit the chart draws, the active dlqi guide sits at the visit-1 mean instead of the visit-0 one. */
  lemma DrawnDlqiGuideAtVisitZero()
    ensures DrawnGuides(0, 0).rxDlqi.y1 == 10.81
    ensures PanelGuides(RxMean, 0, 0).rxDlqi.y1 == 11.115
  {
    var h := PanelGuides(RxMean, 0, 0);
    assert h.rxDlqi.y1 == RxMean(0, Dlqi);
    RxMeanIsRow(0, Dlqi);
  }

  /** At visit 0 the active itch guide likewise sits at the visit-1 itch mean instead of the visit-0 one. */
  lemma DrawnItchGuideAtVisitZero()
    ensures DrawnGuides(0, 2).rxX.x1 == 4.7133
    ensures PanelGuides(RxMean, 0, 2).rxX.x1 == 5.64805
  {
    ItchGuides(RxMeanAsWritten, 0);
    ItchGuides(RxMean, 0);
    RxItchMeanAsWritten(0);
    RxItchMeanIsRow(0);
  }

  /** With the intended lookup, the itch panel's vertical guides stand at both arms' itch means of the visit. */
  lemma CorrectedItchPanelGuides(visit: int)
    requires visit in {0, 1}
    ensures PanelGuides(RxMean, visit, 2).pboX.x1 == RowOf(0, visit).itch
    ensures PanelGuides(RxMean, visit, 2).rxX.x1 == RowOf(1, visit).itch
  {
    ItchGuides(RxMean, visit);
    PboItchMeanIsRow(visit);
    RxItchMeanIsRow(visit);
  }
}
