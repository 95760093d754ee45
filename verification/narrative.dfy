/**
  The fitted mediation model the scrolling chart narrates: the arm means at
  visit 1, the two midpoints the guides are drawn at, and the regression of
  dlqi on treatment and itch. All values are exact decimals.
 */
module Narrative {

  const PboDlqiMean: real := 16.245
  const PboItchMean: real := 6.5363
  const RxDlqiMean: real := 10.81
  const RxItchMean: real := 4.7133

  const DlqiMidpoint: real := (PboDlqiMean + RxDlqiMean) / 2.0
  const ItchMidpoint: real := (PboItchMean + RxItchMean) / 2.0

  const BIntercept: real := 4.60514
  const BTreatment: real := -2.1886
  const BItch: real := 1.7808

  /** Predicted dlqi for a treatment indicator and an itch score. */
  function Regression(treatment: real, itch: real): real
  {
    BIntercept + BTreatment * treatment + BItch * itch
  }

  /** Switching from placebo to active shifts the prediction by BTreatment, whatever the itch. */
  lemma TreatmentEffect(itch: real)
    ensures Regression(1.0, itch) - Regression(0.0, itch) == BTreatment
  {
  }

  /** Within an arm the prediction rises by BItch per unit of itch. */
  lemma ItchSlope(treatment: real, a: real, b: real)
    ensures Regression(treatment, b) - Regression(treatment, a) == BItch * (b - a)
  {
  }

  /** Each midpoint lies strictly between the two arm means it splits, at equal distance from both. */
  lemma MidpointsBetweenMeans()
    ensures RxDlqiMean < DlqiMidpoint < PboDlqiMean
    ensures DlqiMidpoint - RxDlqiMean == PboDlqiMean - DlqiMidpoint
    ensures RxItchMean < ItchMidpoint < PboItchMean
    ensures ItchMidpoint - RxItchMean == PboItchMean - ItchMidpoint
  {
  }

  /**
    The mediator-effect bracket at the itch midpoint: the placebo and active
    predictions and the point halfway between them.
   */
  function MediatorBracket(): (b: (real, real, real))
    ensures b.0 - b.1 == -BTreatment
    ensures b.0 - b.2 == b.2 - b.1
    ensures b.1 < b.2 < b.0
  {
    var yPbo := Regression(0.0, ItchMidpoint);
    var yRx := Regression(1.0, ItchMidpoint);
    (yPbo, yRx, (yPbo + yRx) / 2.0)
  }

  /** The bracket sits at the itch midpoint on both regression lines. */
  lemma MediatorBracketOnLines()
    ensures MediatorBracket().0 == Regression(0.0, ItchMidpoint)
    ensures MediatorBracket().1 == Regression(1.0, ItchMidpoint)
  {
  }
}
