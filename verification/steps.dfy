/**
  The nine scroll steps of the chart and the callback that dispatches to
  them. Each step is a composition of the scene primitives, in the order
  the handler issues them; its contract describes the settled scene it
  leaves from any prior scene.
 */
module Steps {
  import opened Narrative
  import opened Scene
  import opened Session
  import Rows

  const AxisOffset: real := 200.0

  /** Step 0: hide both axes, unclass the circles, hide the regressions and both difference brackets. */
  function Step0(s: Scene, m: Markup): (r: Scene)
    requires ValidMarkup(m)
    ensures r.lines.At(PboRegressionLine).opacity == 0.0 && r.lines.At(RxRegressionLine).opacity == 0.0
    ensures r.lines.At(DlqiDifference).opacity == 0.0 && r.lines.At(ItchDifference).opacity == 0.0
    ensures r.xAxis == Axis(AxisOffset, 0.0) && r.yAxis == Axis(AxisOffset, 0.0)
    ensures r.circles == Circles(Unclassed, s.circles.at, 1.0)
    ensures forall e | IsMeanLine(e) || e == MediatorEffect :: r.lines.At(e) == s.lines.At(e)
    ensures r.annotation == s.annotation
  {
    var s1 := DrawXAxis(s, AxisOffset, 0.0);
    var s2 := DrawYAxis(s1, AxisOffset, 0.0);
    var s3 := s2.(circles := s2.circles.(cls := Unclassed, opacity := 1.0));
    var s4 := EraseRegressionLine(s3, Rows.PboTreatment);
    var s5 := EraseRegressionLine(s4, Rows.RxTreatment);
    var s6 := EraseDlqiMeanDifference(s5);
    EraseItchMeanDifference(s6)
  }

  /** Step 1: show the y axis and pack all circles by dlqi around the centre. */
  function Step1(s: Scene, m: Markup): (r: Scene)
    requires ValidMarkup(m)
    ensures r.yAxis == Axis(0.0, 1.0)
    ensures r.circles == Circles(Unclassed, PackedAll, s.circles.opacity)
    ensures r.lines == s.lines && r.xAxis == s.xAxis && r.annotation == s.annotation
  {
    var s1 := DrawYAxis(s, 0.0, 1.0);
    s1.(circles := s1.circles.(cls := Unclassed, at := PackedAll))
  }

  /** Step 2: hide the dlqi mean lines and the dlqi bracket; split the circles by arm. */
  function Step2(s: Scene, m: Markup): (r: Scene)
    requires ValidMarkup(m)
    ensures r.lines.At(PboDlqiMeanLine).opacity == 0.0 && r.lines.At(RxDlqiMeanLine).opacity == 0.0
    ensures r.lines.At(DlqiDifference).opacity == 0.0
    ensures r.circles == Circles(ByArm, PackedByArm, s.circles.opacity)
    ensures r.xAxis == s.xAxis && r.yAxis == s.yAxis && r.annotation == s.annotation
    ensures forall e | e != PboDlqiMeanLine && e != RxDlqiMeanLine && e != DlqiDifference :: r.lines.At(e) == s.lines.At(e)
  {
    var s1 := EraseHorizontalMeanLines(s);
    var s2 := EraseDlqiMeanDifference(s1);
    s2.(circles := s2.circles.(cls := ByArm, at := PackedByArm))
  }

  /** Step 3: gather each arm at its anchor and show the dlqi mean lines and the dlqi bracket. */
  function Step3(s: Scene, m: Markup): (r: Scene)
    requires ValidMarkup(m)
    ensures r.circles == s.circles.(at := ArmAnchors)
    ensures r.lines.At(PboDlqiMeanLine).opacity > 0.0 && r.lines.At(RxDlqiMeanLine).opacity > 0.0
    ensures r.lines.At(DlqiDifference).opacity > 0.0
    ensures s.lines.At(DlqiDifference).opacity <= 0.0 ==>
              r.lines.At(DlqiDifference) == Line(1.0, 1.5, 1.5, PboDlqiMean, RxDlqiMean)
    ensures r.xAxis == s.xAxis && r.yAxis == s.yAxis && r.annotation == s.annotation
    ensures forall e | e != PboDlqiMeanLine && e != RxDlqiMeanLine && e != DlqiDifference :: r.lines.At(e) == s.lines.At(e)
  {
    var s1 := s.(circles := s.circles.(at := ArmAnchors));
    var s2 := DrawHorizontalMeanLines(s1);
    DrawVerticalLine(s2, DlqiDifference, 1.5, PboDlqiMean, RxDlqiMean)
  }

  /** Step 4: hide the dlqi bracket, the itch mean lines and the itch bracket; show the x axis; move each arm to its itch mean. */
  function Step4(s: Scene, m: Markup): (r: Scene)
    requires ValidMarkup(m)
    ensures r.lines.At(DlqiDifference).opacity == 0.0
    ensures r.lines.At(PboItchMeanLine).opacity == 0.0 && r.lines.At(RxItchMeanLine).opacity == 0.0
    ensures r.lines.At(ItchDifference).opacity == 0.0
    ensures r.xAxis == Axis(0.0, 1.0)
    ensures r.circles == s.circles.(at := ArmItchMeans)
    ensures r.yAxis == s.yAxis && r.annotation == s.annotation
    ensures forall e | e != DlqiDifference && e != PboItchMeanLine && e != RxItchMeanLine && e != ItchDifference ::
              r.lines.At(e) == s.lines.At(e)
  {
    var s1 := EraseVerticalLine(s, DlqiDifference, 1.5, DlqiMidpoint);
    var s2 := DrawXAxis(s1, 0.0, 1.0);
    var s3 := s2.(circles := s2.circles.(at := ArmItchMeans));
    var s4 := EraseVerticalLine(s3, PboItchMeanLine, PboItchMean, 0.0);
    var s5 := EraseVerticalLine(s4, RxItchMeanLine, RxItchMean, 0.0);
    EraseHorizontalLine(s5, ItchDifference, ItchMidpoint, 4.0)
  }

  /** Step 5: make the dlqi mean lines opaque, show the itch mean lines and the itch bracket, hide the dlqi bracket. */
  function Step5(s: Scene, m: Markup): (r: Scene)
    requires ValidMarkup(m)
    ensures forall e | e in m.dlqiMean :: r.lines.At(e) == s.lines.At(e).(opacity := 1.0)
    ensures r.lines.At(PboItchMeanLine).opacity > 0.0 && r.lines.At(RxItchMeanLine).opacity > 0.0
    ensures r.lines.At(ItchDifference).opacity > 0.0
    ensures s.lines.At(ItchDifference).opacity <= 0.0 ==>
              r.lines.At(ItchDifference) == Line(1.0, RxItchMean, PboItchMean, 4.0, 4.0)
    ensures r.lines.At(DlqiDifference).opacity == 0.0
    ensures r.circles == s.circles.(at := ArmItchMeans)
    ensures r.xAxis == s.xAxis && r.yAxis == s.yAxis && r.annotation == s.annotation
    ensures forall e | e !in m.dlqiMean && e != PboItchMeanLine && e != RxItchMeanLine && e != ItchDifference && e != DlqiDifference ::
              r.lines.At(e) == s.lines.At(e)
  {
    var s1 := SetOpacity(s, m.dlqiMean, 1.0);
    var s2 := DrawVerticalLine(s1, PboItchMeanLine, PboItchMean, 0.0, 30.0);
    var s3 := DrawVerticalLine(s2, RxItchMeanLine, RxItchMean, 0.0, 30.0);
    var s4 := DrawHorizontalLine(s3, ItchDifference, RxItchMean, PboItchMean, 4.0);
    var s5 := s4.(circles := s4.circles.(at := ArmItchMeans));
    EraseDlqiMeanDifference(s5)
  }

  /** Step 6: hide the itch bracket and both regressions, soften the mean lines, plot each circle at (itch, dlqi). */
  function Step6(s: Scene, m: Markup): (r: Scene)
    requires ValidMarkup(m)
    ensures r.lines.At(ItchDifference).opacity == 0.0
    ensures forall e | e in m.mean :: r.lines.At(e) == s.lines.At(e).(opacity := 0.5)
    ensures r.lines.At(PboRegressionLine).opacity == 0.0 && r.lines.At(RxRegressionLine).opacity == 0.0
    ensures r.circles == s.circles.(at := ItchByDlqi)
    ensures r.xAxis == s.xAxis && r.yAxis == s.yAxis && r.annotation == s.annotation
    ensures forall e | e !in m.mean && e != ItchDifference && e != PboRegressionLine && e != RxRegressionLine ::
              r.lines.At(e) == s.lines.At(e)
  {
    var s1 := EraseItchMeanDifference(s);
    var s2 := SetOpacity(s1, m.mean, 0.5);
    var s3 := s2.(circles := s2.circles.(at := ItchByDlqi));
    var s4 := EraseRegressionLine(s3, Rows.PboTreatment);
    EraseRegressionLine(s4, Rows.RxTreatment)
  }

  /**
    Step 7: soften the mean lines and the circles, show both regressions,
    hide both brackets and the mediator effect, fade out the annotation.
   */
  function Step7(s: Scene, m: Markup): (r: Scene)
    requires ValidMarkup(m)
    ensures forall e | e in m.mean :: r.lines.At(e) == s.lines.At(e).(opacity := 0.5)
    ensures r.circles == s.circles.(at := ItchByDlqi, opacity := 0.5)
    ensures r.lines.At(PboRegressionLine).opacity > 0.0 && r.lines.At(RxRegressionLine).opacity > 0.0
    ensures r.lines.At(DlqiDifference).opacity == 0.0 && r.lines.At(ItchDifference).opacity == 0.0
    ensures r.lines.At(MediatorEffect).opacity == 0.0
    ensures r.annotation == s.annotation.(opacity := 0.0)
    ensures r.xAxis == s.xAxis && r.yAxis == s.yAxis
    ensures forall e | e !in m.mean && e != PboRegressionLine && e != RxRegressionLine && e != DlqiDifference
                && e != ItchDifference && e != MediatorEffect ::
              r.lines.At(e) == s.lines.At(e)
  {
    var s1 := SetOpacity(s, m.mean, 0.5);
    var s2 := s1.(circles := s1.circles.(at := ItchByDlqi, opacity := 0.5));
    var s3 := DrawRegressionLine(s2, Rows.PboTreatment);
    var s4 := DrawRegressionLine(s3, Rows.RxTreatment);
    var s5 := EraseDlqiMeanDifference(s4);
    var s6 := EraseItchMeanDifference(s5);
    var s7 := EraseMediatorEffect(s6);
    s7.(annotation := s7.annotation.(opacity := 0.0))
  }

  /** Step 8: show the mediator effect and the dlqi bracket, hide the itch bracket, place and show the annotation. */
  function Step8(s: Scene, m: Markup): (r: Scene)
    requires ValidMarkup(m)
    ensures r.lines.At(MediatorEffect).opacity > 0.0
    ensures r.lines.At(DlqiDifference).opacity > 0.0
    ensures r.lines.At(ItchDifference).opacity == 0.0
    ensures r.annotation == Annotation(1.0, PlacedAt(0.5, 17.5))
    ensures r.circles == s.circles && r.xAxis == s.xAxis && r.yAxis == s.yAxis
    ensures forall e | e != MediatorEffect && e != DlqiDifference && e != ItchDifference :: r.lines.At(e) == s.lines.At(e)
  {
    var s1 := DrawMediatorEffect(s);
    var s2 := EraseItchMeanDifference(s1);
    var s3 := DrawVerticalLine(s2, DlqiDifference, 1.5, PboDlqiMean, RxDlqiMean);
    s3.(annotation := Annotation(1.0, PlacedAt(0.5, 17.5)))
  }

  /** The indices the steps table defines. */
  predicate HasStep(index: int)
  {
    0 <= index <= 8
  }

  /** The handler the steps table holds at index k. */
  function RunStep(k: int, s: Scene, m: Markup): Scene
    requires HasStep(k) && ValidMarkup(m)
  {
    match k
    case 0 => Step0(s, m)
    case 1 => Step1(s, m)
    case 2 => Step2(s, m)
    case 3 => Step3(s, m)
    case 4 => Step4(s, m)
    case 5 => Step5(s, m)
    case 6 => Step6(s, m)
    case 7 => Step7(s, m)
    case _ => Step8(s, m)
  }

  /** The step callback: run the handler the index names, or leave the scene as it is when there is none. */
  function Dispatch(s: Scene, m: Markup, index: int): (r: Scene)
    requires ValidMarkup(m)
    ensures !HasStep(index) ==> r == s
    ensures HasStep(index) ==> r == RunStep(index, s, m)
  {
    if HasStep(index) then RunStep(index, s, m) else s
  }

  /** Running a handler a second time leaves the scene it settled as it is. */
  lemma StepIdempotent(k: int, s: Scene, m: Markup)
    requires HasStep(k) && ValidMarkup(m)
    ensures RunStep(k, RunStep(k, s, m), m) == RunStep(k, s, m)
  {
    match k
    case 0 => Step0Idempotent(s, m);
    case 1 => Step1Idempotent(s, m);
    case 2 => Step2Idempotent(s, m);
    case 3 => Step3Idempotent(s, m);
    case 4 => Step4Idempotent(s, m);
    case 5 => Step5Idempotent(s, m);
    case 6 => Step6Idempotent(s, m);
    case 7 => Step7Idempotent(s, m);
    case _ => Step8Idempotent(s, m);
  }

  lemma Step0Idempotent(s: Scene, m: Markup)
    requires ValidMarkup(m)
    ensures Step0(Step0(s, m), m) == Step0(s, m)
  {
  }

  lemma Step1Idempotent(s: Scene, m: Markup)
    requires ValidMarkup(m)
    ensures Step1(Step1(s, m), m) == Step1(s, m)
  {
  }

  lemma Step2Idempotent(s: Scene, m: Markup)
    requires ValidMarkup(m)
    ensures Step2(Step2(s, m), m) == Step2(s, m)
  {
  }

  lemma Step3Idempotent(s: Scene, m: Markup)
    requires ValidMarkup(m)
    ensures Step3(Step3(s, m), m) == Step3(s, m)
  {
  }

  lemma Step4Idempotent(s: Scene, m: Markup)
    requires ValidMarkup(m)
    ensures Step4(Step4(s, m), m) == Step4(s, m)
  {
  }

  lemma Step5Idempotent(s: Scene, m: Markup)
    requires ValidMarkup(m)
    ensures Step5(Step5(s, m), m) == Step5(s, m)
  {
  }

  lemma Step6Idempotent(s: Scene, m: Markup)
    requires ValidMarkup(m)
    ensures Step6(Step6(s, m), m) == Step6(s, m)
  {
  }

  lemma Step7Idempotent(s: Scene, m: Markup)
    requires ValidMarkup(m)
    ensures Step7(Step7(s, m), m) == Step7(s, m)
  {
  }

  lemma Step8Idempotent(s: Scene, m: Markup)
    requires ValidMarkup(m)
    ensures Step8(Step8(s, m), m) == Step8(s, m)
  {
  }

  /** Delivering the same scroll index twice in a row is delivering it once. */
  lemma DispatchIdempotent(s: Scene, m: Markup, index: int)
    requires ValidMarkup(m)
    ensures Dispatch(Dispatch(s, m, index), m, index) == Dispatch(s, m, index)
  {
    if HasStep(index) {
      StepIdempotent(index, s, m);
    }
  }
}
