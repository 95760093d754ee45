/**
  The settled scene of the scrolling chart and the primitives that change
  it. A primitive's transitions are reduced to the values they leave behind
  once they complete: start points, delays and durations do not survive.
  Line endpoints are kept in data units, before the scales map them to
  pixels.
 */
module Scene {
  import opened Narrative
  import Session
  import Rows

  /** The lines of the chart's markup that the steps draw and erase. */
  datatype Element =
    | PboRegressionLine | RxRegressionLine
    | PboDlqiMeanLine | RxDlqiMeanLine
    | PboItchMeanLine | RxItchMeanLine
    | DlqiDifference | ItchDifference
    | MediatorEffect

  /** A line's opacity and endpoints. */
  datatype Line = Line(opacity: real, x1: real, x2: real, y1: real, y2: real)

  /**
    The line of every element. Each element always has a line; one nothing
    has touched holds all zeros, since unary plus on the missing opacity
    attribute reads 0 and SVG endpoints default to 0.
   */
  datatype Lines = Lines(
    pboRegression: Line, rxRegression: Line,
    pboDlqiMean: Line, rxDlqiMean: Line,
    pboItchMean: Line, rxItchMean: Line,
    dlqiDifference: Line, itchDifference: Line,
    mediatorEffect: Line)
  {
    /** The line of element x. */
    function At(x: Element): Line
    {
      match x
      case PboRegressionLine => pboRegression
      case RxRegressionLine => rxRegression
      case PboDlqiMeanLine => pboDlqiMean
      case RxDlqiMeanLine => rxDlqiMean
      case PboItchMeanLine => pboItchMean
      case RxItchMeanLine => rxItchMean
      case DlqiDifference => dlqiDifference
      case ItchDifference => itchDifference
      case MediatorEffect => mediatorEffect
    }

    /** The same lines with the line of x replaced by l. */
    function With(x: Element, l: Line): (r: Lines)
      ensures r.At(x) == l
      ensures forall y | y != x :: r.At(y) == At(y)
    {
      match x
      case PboRegressionLine => this.(pboRegression := l)
      case RxRegressionLine => this.(rxRegression := l)
      case PboDlqiMeanLine => this.(pboDlqiMean := l)
      case RxDlqiMeanLine => this.(rxDlqiMean := l)
      case PboItchMeanLine => this.(pboItchMean := l)
      case RxItchMeanLine => this.(rxItchMean := l)
      case DlqiDifference => this.(dlqiDifference := l)
      case ItchDifference => this.(itchDifference := l)
      case MediatorEffect => this.(mediatorEffect := l)
    }

    /** The same lines with every line of the class cls at opacity o. */
    function WithOpacity(cls: set<Element>, o: real): (r: Lines)
      ensures forall y | y in cls :: r.At(y) == At(y).(opacity := o)
      ensures forall y | y !in cls :: r.At(y) == At(y)
    {
      Lines(
        Faded(PboRegressionLine, cls, o), Faded(RxRegressionLine, cls, o),
        Faded(PboDlqiMeanLine, cls, o), Faded(RxDlqiMeanLine, cls, o),
        Faded(PboItchMeanLine, cls, o), Faded(RxItchMeanLine, cls, o),
        Faded(DlqiDifference, cls, o), Faded(ItchDifference, cls, o),
        Faded(MediatorEffect, cls, o))
    }

    function Faded(x: Element, cls: set<Element>, o: real): Line
    {
      if x in cls then At(x).(opacity := o) else At(x)
    }
  }

  /** An axis group together with its label: vertical or horizontal offset and opacity. */
  datatype Axis = Axis(offset: real, opacity: real)

  /** Whether the circles carry the per-arm classes pbo-datum and rx-datum. */
  datatype CircleClass = Unclassed | ByArm

  /** All circles move and fade together, so one record describes them. */
  datatype Circles = Circles(cls: CircleClass, at: Session.Placement, opacity: real)

  datatype AnnotationPlacement = Unplaced | PlacedAt(x: real, y: real)

  /** The dlqi annotation text. */
  datatype Annotation = Annotation(opacity: real, placement: AnnotationPlacement)

  datatype Scene = Scene(lines: Lines, xAxis: Axis, yAxis: Axis, circles: Circles, annotation: Annotation)

  /**
    Which lines carry the classes `mean` and `dlqi-mean`. The membership is
    fixed by markup; the steps rely only on it naming mean lines.
   */
  datatype Markup = Markup(mean: set<Element>, dlqiMean: set<Element>)

  predicate IsMeanLine(e: Element)
  {
    e == PboDlqiMeanLine || e == RxDlqiMeanLine || e == PboItchMeanLine || e == RxItchMeanLine
  }

  predicate ValidMarkup(m: Markup)
  {
    && (forall e | e in m.mean :: IsMeanLine(e))
    && (forall e | e in m.dlqiMean :: e == PboDlqiMeanLine || e == RxDlqiMeanLine)
  }

  /** r and s agree on everything but the lines. */
  predicate SameFrame(s: Scene, r: Scene)
  {
    r.xAxis == s.xAxis && r.yAxis == s.yAxis && r.circles == s.circles && r.annotation == s.annotation
  }

  /** r differs from s at most in the line of element e. */
  predicate OnlyTouches(s: Scene, r: Scene, e: Element)
  {
    && r.lines == s.lines.With(e, r.lines.At(e))
    && SameFrame(s, r)
  }

  /** r differs from s at most in the lines of elements e and f. */
  predicate OnlyTouchesTwo(s: Scene, r: Scene, e: Element, f: Element)
  {
    && r.lines == s.lines.With(e, r.lines.At(e)).With(f, r.lines.At(f))
    && SameFrame(s, r)
  }

  // ---------------------------------------------------------------------
  // Lines: drawLine, eraseLine and their guarded wrappers
  // ---------------------------------------------------------------------

  /** The settled line of drawLine: fully opaque at the requested endpoints. */
  function Drawn(x1: real, x2: real, y1: real, y2: real): Line
  {
    Line(1.0, x1, x2, y1, y2)
  }

  /** The settled line of eraseLine: transparent, both ends collapsed onto the end point. */
  function Erased(xEnd: real, yEnd: real): Line
  {
    Line(0.0, xEnd, xEnd, yEnd, yEnd)
  }

  /**
    The guard shared by drawHorizontalLine, drawVerticalLine and
    drawRegressionLine: an element that already shows is left alone.
   */
  function Draw(s: Scene, e: Element, x1: real, x2: real, y1: real, y2: real): (r: Scene)
    ensures s.lines.At(e).opacity > 0.0 ==> r == s
    ensures s.lines.At(e).opacity <= 0.0 ==> r.lines.At(e) == Drawn(x1, x2, y1, y2)
    ensures OnlyTouches(s, r, e)
  {
    if s.lines.At(e).opacity > 0.0 then s
    else s.(lines := s.lines.With(e, Drawn(x1, x2, y1, y2)))
  }

  /** The guard shared by the erase wrappers: an element whose opacity is exactly 0 is left alone. */
  function Erase(s: Scene, e: Element, xEnd: real, yEnd: real): (r: Scene)
    ensures s.lines.At(e).opacity == 0.0 ==> r == s
    ensures s.lines.At(e).opacity != 0.0 ==> r.lines.At(e) == Erased(xEnd, yEnd)
    ensures r.lines.At(e).opacity == 0.0
    ensures OnlyTouches(s, r, e)
  {
    if s.lines.At(e).opacity == 0.0 then s
    else s.(lines := s.lines.With(e, Erased(xEnd, yEnd)))
  }

  /** Drawing twice with the same target is drawing once. */
  lemma DrawIdempotent(s: Scene, e: Element, x1: real, x2: real, y1: real, y2: real)
    ensures Draw(Draw(s, e, x1, x2, y1, y2), e, x1, x2, y1, y2) == Draw(s, e, x1, x2, y1, y2)
  {
  }

  /** Erasing twice with the same end point is erasing once. */
  lemma EraseIdempotent(s: Scene, e: Element, xEnd: real, yEnd: real)
    ensures Erase(Erase(s, e, xEnd, yEnd), e, xEnd, yEnd) == Erase(s, e, xEnd, yEnd)
  {
  }

  /** After a draw the element shows, whether or not the draw acted. */
  lemma DrawShows(s: Scene, e: Element, x1: real, x2: real, y1: real, y2: real)
    ensures Draw(s, e, x1, x2, y1, y2).lines.At(e).opacity > 0.0
  {
  }

  /** A horizontal line at height y; the start point xStart only seeds the animation. */
  function DrawHorizontalLine(s: Scene, e: Element, x1: real, x2: real, y: real): (r: Scene)
    ensures s.lines.At(e).opacity > 0.0 ==> r == s
    ensures s.lines.At(e).opacity <= 0.0 ==> r.lines.At(e) == Line(1.0, x1, x2, y, y)
    ensures OnlyTouches(s, r, e)
  {
    Draw(s, e, x1, x2, y, y)
  }

  /** A vertical line at x; the start point yStart only seeds the animation. */
  function DrawVerticalLine(s: Scene, e: Element, x: real, y1: real, y2: real): (r: Scene)
    ensures s.lines.At(e).opacity > 0.0 ==> r == s
    ensures s.lines.At(e).opacity <= 0.0 ==> r.lines.At(e) == Line(1.0, x, x, y1, y2)
    ensures OnlyTouches(s, r, e)
  {
    Draw(s, e, x, x, y1, y2)
  }

  /** The regression line of an arm: the placebo treatment selects the placebo line, anything else the active one. */
  function RegressionElement(treatment: int): (e: Element)
    ensures e == PboRegressionLine || e == RxRegressionLine
    ensures e == PboRegressionLine <==> treatment == Rows.PboTreatment
  {
    if treatment == Rows.PboTreatment then PboRegressionLine else RxRegressionLine
  }

  /** drawRegressionLine: the arm's fitted line over itch 0 to 10. */
  function DrawRegressionLine(s: Scene, treatment: int): (r: Scene)
    ensures var e := RegressionElement(treatment);
      && (s.lines.At(e).opacity > 0.0 ==> r == s)
      && (s.lines.At(e).opacity <= 0.0 ==>
            r.lines.At(e) == Line(1.0, 0.0, 10.0, Regression(treatment as real, 0.0), Regression(treatment as real, 10.0)))
      && OnlyTouches(s, r, e)
  {
    var t := treatment as real;
    Draw(s, RegressionElement(treatment), 0.0, 10.0, Regression(t, 0.0), Regression(t, 10.0))
  }

  /** A drawn regression line rises by 10 * BItch over its length. */
  lemma RegressionLineSlope(s: Scene, treatment: int)
    requires s.lines.At(RegressionElement(treatment)).opacity <= 0.0
    ensures var l := DrawRegressionLine(s, treatment).lines.At(RegressionElement(treatment));
      l.y2 - l.y1 == 10.0 * BItch && l.x2 - l.x1 == 10.0
  {
    ItchSlope(treatment as real, 0.0, 10.0);
  }

  /** eraseHorizontalLine: the line shrinks onto (xEnd, y). */
  function EraseHorizontalLine(s: Scene, e: Element, xEnd: real, y: real): (r: Scene)
    ensures s.lines.At(e).opacity == 0.0 ==> r == s
    ensures s.lines.At(e).opacity != 0.0 ==> r.lines.At(e) == Line(0.0, xEnd, xEnd, y, y)
    ensures OnlyTouches(s, r, e)
  {
    Erase(s, e, xEnd, y)
  }

  /** eraseVerticalLine: the line shrinks onto (x, yEnd). */
  function EraseVerticalLine(s: Scene, e: Element, x: real, yEnd: real): (r: Scene)
    ensures s.lines.At(e).opacity == 0.0 ==> r == s
    ensures s.lines.At(e).opacity != 0.0 ==> r.lines.At(e) == Line(0.0, x, x, yEnd, yEnd)
    ensures OnlyTouches(s, r, e)
  {
    Erase(s, e, x, yEnd)
  }

  /** eraseRegressionLine: the arm's line shrinks onto its intercept at itch 0. */
  function EraseRegressionLine(s: Scene, treatment: int): (r: Scene)
    ensures var e := RegressionElement(treatment);
      && (s.lines.At(e).opacity == 0.0 ==> r == s)
      && (s.lines.At(e).opacity != 0.0 ==> r.lines.At(e) == Line(0.0, 0.0, 0.0, Regression(treatment as real, 0.0), Regression(treatment as real, 0.0)))
      && r.lines.At(e).opacity == 0.0
      && OnlyTouches(s, r, e)
  {
    Erase(s, RegressionElement(treatment), 0.0, Regression(treatment as real, 0.0))
  }

  /** eraseDlqiMeanDifference: the vertical dlqi bracket at itch 1.5 shrinks onto the dlqi midpoint. */
  function EraseDlqiMeanDifference(s: Scene): (r: Scene)
    ensures s.lines.At(DlqiDifference).opacity == 0.0 ==> r == s
    ensures s.lines.At(DlqiDifference).opacity != 0.0 ==>
              r.lines.At(DlqiDifference) == Line(0.0, 1.5, 1.5, DlqiMidpoint, DlqiMidpoint)
    ensures r.lines.At(DlqiDifference).opacity == 0.0
    ensures OnlyTouches(s, r, DlqiDifference)
  {
    EraseVerticalLine(s, DlqiDifference, 1.5, DlqiMidpoint)
  }

  /** eraseItchMeanDifference: the horizontal itch bracket at dlqi 4 shrinks onto the itch midpoint. */
  function EraseItchMeanDifference(s: Scene): (r: Scene)
    ensures s.lines.At(ItchDifference).opacity == 0.0 ==> r == s
    ensures s.lines.At(ItchDifference).opacity != 0.0 ==>
              r.lines.At(ItchDifference) == Line(0.0, ItchMidpoint, ItchMidpoint, 4.0, 4.0)
    ensures r.lines.At(ItchDifference).opacity == 0.0
    ensures OnlyTouches(s, r, ItchDifference)
  {
    EraseHorizontalLine(s, ItchDifference, ItchMidpoint, 4.0)
  }

  /** eraseHorizontalMeanLines: both dlqi mean lines shrink onto itch 0 at their own height. */
  function EraseHorizontalMeanLines(s: Scene): (r: Scene)
    ensures r.lines.At(PboDlqiMeanLine).opacity == 0.0 && r.lines.At(RxDlqiMeanLine).opacity == 0.0
    ensures s.lines.At(PboDlqiMeanLine).opacity != 0.0 ==>
              r.lines.At(PboDlqiMeanLine) == Line(0.0, 0.0, 0.0, PboDlqiMean, PboDlqiMean)
    ensures s.lines.At(RxDlqiMeanLine).opacity != 0.0 ==>
              r.lines.At(RxDlqiMeanLine) == Line(0.0, 0.0, 0.0, RxDlqiMean, RxDlqiMean)
    ensures s.lines.At(PboDlqiMeanLine).opacity == 0.0 ==> r.lines.At(PboDlqiMeanLine) == s.lines.At(PboDlqiMeanLine)
    ensures s.lines.At(RxDlqiMeanLine).opacity == 0.0 ==> r.lines.At(RxDlqiMeanLine) == s.lines.At(RxDlqiMeanLine)
    ensures OnlyTouchesTwo(s, r, PboDlqiMeanLine, RxDlqiMeanLine)
  {
    var s1 := EraseHorizontalLine(s, PboDlqiMeanLine, 0.0, PboDlqiMean);
    EraseHorizontalLine(s1, RxDlqiMeanLine, 0.0, RxDlqiMean)
  }

  /** drawHorizontalMeanLines: both dlqi mean lines across itch 0 to 10 at their arm's mean. */
  function DrawHorizontalMeanLines(s: Scene): (r: Scene)
    ensures r.lines.At(PboDlqiMeanLine).opacity > 0.0 && r.lines.At(RxDlqiMeanLine).opacity > 0.0
    ensures s.lines.At(PboDlqiMeanLine).opacity <= 0.0 ==>
              r.lines.At(PboDlqiMeanLine) == Line(1.0, 0.0, 10.0, PboDlqiMean, PboDlqiMean)
    ensures s.lines.At(RxDlqiMeanLine).opacity <= 0.0 ==>
              r.lines.At(RxDlqiMeanLine) == Line(1.0, 0.0, 10.0, RxDlqiMean, RxDlqiMean)
    ensures s.lines.At(PboDlqiMeanLine).opacity > 0.0 ==> r.lines.At(PboDlqiMeanLine) == s.lines.At(PboDlqiMeanLine)
    ensures s.lines.At(RxDlqiMeanLine).opacity > 0.0 ==> r.lines.At(RxDlqiMeanLine) == s.lines.At(RxDlqiMeanLine)
    ensures OnlyTouchesTwo(s, r, PboDlqiMeanLine, RxDlqiMeanLine)
  {
    var s1 := DrawHorizontalLine(s, PboDlqiMeanLine, 0.0, 10.0, PboDlqiMean);
    DrawHorizontalLine(s1, RxDlqiMeanLine, 0.0, 10.0, RxDlqiMean)
  }

  /**
    drawMediatorEffect: the vertical bracket at the itch midpoint between the
    two regression lines; its length is the treatment effect.
   */
  function DrawMediatorEffect(s: Scene): (r: Scene)
    ensures s.lines.At(MediatorEffect).opacity > 0.0 ==> r == s
    ensures s.lines.At(MediatorEffect).opacity <= 0.0 ==>
              && r.lines.At(MediatorEffect) == Line(1.0, ItchMidpoint, ItchMidpoint, MediatorBracket().0, MediatorBracket().1)
              && r.lines.At(MediatorEffect).y1 - r.lines.At(MediatorEffect).y2 == -BTreatment
    ensures r.lines.At(MediatorEffect).opacity > 0.0
    ensures OnlyTouches(s, r, MediatorEffect)
  {
    var b := MediatorBracket();
    DrawVerticalLine(s, MediatorEffect, ItchMidpoint, b.0, b.1)
  }

  /** eraseMediatorEffect: the bracket shrinks onto its midpoint. */
  function EraseMediatorEffect(s: Scene): (r: Scene)
    ensures s.lines.At(MediatorEffect).opacity == 0.0 ==> r == s
    ensures s.lines.At(MediatorEffect).opacity != 0.0 ==>
              r.lines.At(MediatorEffect) == Line(0.0, ItchMidpoint, ItchMidpoint, MediatorBracket().2, MediatorBracket().2)
    ensures r.lines.At(MediatorEffect).opacity == 0.0
    ensures OnlyTouches(s, r, MediatorEffect)
  {
    EraseVerticalLine(s, MediatorEffect, ItchMidpoint, MediatorBracket().2)
  }

  /**
    Erasing the drawn mediator bracket collapses it onto the point halfway
    between its two ends.
   */
  lemma MediatorCollapsesToMidpoint(s: Scene)
    requires s.lines.At(MediatorEffect).opacity <= 0.0
    ensures var drawn := DrawMediatorEffect(s).lines.At(MediatorEffect);
      var erased := EraseMediatorEffect(DrawMediatorEffect(s)).lines.At(MediatorEffect);
      erased.y1 == erased.y2 == (drawn.y1 + drawn.y2) / 2.0 && erased.x1 == drawn.x1
  {
  }

  // ---------------------------------------------------------------------
  // Immediate attribute writes
  // ---------------------------------------------------------------------

  /** selectAll(cls).attr("opacity", o): every element of the class gets opacity o at once. */
  function SetOpacity(s: Scene, cls: set<Element>, o: real): (r: Scene)
    ensures forall e | e in cls :: r.lines.At(e) == s.lines.At(e).(opacity := o)
    ensures forall e | e !in cls :: r.lines.At(e) == s.lines.At(e)
    ensures SameFrame(s, r)
  {
    s.(lines := s.lines.WithOpacity(cls, o))
  }

  /** drawXAxis: the x axis and its label move down by offset and fade to opacity. */
  function DrawXAxis(s: Scene, offset: real, opacity: real): (r: Scene)
    ensures r.xAxis == Axis(offset, opacity)
    ensures r == s.(xAxis := r.xAxis)
  {
    s.(xAxis := Axis(offset, opacity))
  }

  /** drawYAxis: the y axis and its label move left by offset and fade to opacity. */
  function DrawYAxis(s: Scene, offset: real, opacity: real): (r: Scene)
    ensures r.yAxis == Axis(offset, opacity)
    ensures r == s.(yAxis := r.yAxis)
  {
    s.(yAxis := Axis(offset, opacity))
  }
}
