/**
  Set-up of the scrolling chart: the extents of itch and dlqi over all
  records, the visit-1 cohort, the two packings and the circle centres each
  symbolic placement resolves to.
 */
module Session {
  import opened Records
  import opened Packing
  import opened Rows
  import opened Layout
  import Narrative

  /** The visit the chart shows. */
  const VisitShown: int := 1

  /** The smallest and the largest value of path over data; (0, 0) when data is empty. */
  method GetExtent(data: seq<Datum>, path: Datum -> real) returns (lo: real, hi: real)
    ensures |data| == 0 ==> lo == 0.0 && hi == 0.0
    ensures |data| > 0 ==> lo <= hi
    ensures forall i | 0 <= i < |data| :: lo <= path(data[i]) <= hi
    ensures |data| > 0 ==> exists i :: 0 <= i < |data| && path(data[i]) == lo
    ensures |data| > 0 ==> exists i :: 0 <= i < |data| && path(data[i]) == hi
  {
    if |data| == 0 {
      return 0.0, 0.0;
    }
    lo, hi := path(data[0]), path(data[0]);
    ghost var loAt, hiAt := 0, 0;
    var k := 1;
    while k < |data|
      invariant 1 <= k <= |data|
      invariant forall i | 0 <= i < k :: lo <= path(data[i]) <= hi
      invariant 0 <= loAt < k && path(data[loAt]) == lo
      invariant 0 <= hiAt < k && path(data[hiAt]) == hi
    {
      var v := path(data[k]);
      if v < lo {
        lo, loAt := v, k;
      }
      if v > hi {
        hi, hiAt := v, k;
      }
      k := k + 1;
    }
  }

  /** Bounds that contain every value and are both attained are the extent: there is only one such pair. */
  lemma ExtentUnique(data: seq<Datum>, path: Datum -> real, lo: real, hi: real, lo': real, hi': real)
    requires forall i | 0 <= i < |data| :: lo <= path(data[i]) <= hi
    requires forall i | 0 <= i < |data| :: lo' <= path(data[i]) <= hi'
    requires exists i :: 0 <= i < |data| && path(data[i]) == lo
    requires exists i :: 0 <= i < |data| && path(data[i]) == hi
    requires exists i :: 0 <= i < |data| && path(data[i]) == lo'
    requires exists i :: 0 <= i < |data| && path(data[i]) == hi'
    ensures lo == lo' && hi == hi'
  {
    var a :| 0 <= a < |data| && path(data[a]) == lo;
    var b :| 0 <= b < |data| && path(data[b]) == hi;
    var a' :| 0 <= a' < |data| && path(data[a']) == lo';
    var b' :| 0 <= b' < |data| && path(data[b']) == hi';
    assert lo <= path(data[a']) && lo' <= path(data[a]);
    assert path(data[b']) <= hi && path(data[b]) <= hi';
  }

  /** The records of the visit the chart shows, in their original order. */
  function Cohort(data: seq<Datum>): (c: seq<Datum>)
    ensures |c| <= |data|
    ensures forall d | d in c :: d in data && d.visit == VisitShown
    ensures forall d | d in data && d.visit == VisitShown :: d in c
  {
    if |data| == 0 then []
    else
      var rest := Cohort(data[..|data| - 1]);
      var last := data[|data| - 1];
      assert data == data[..|data| - 1] + [last];
      if last.visit == VisitShown then rest + [last] else rest
  }

  /** Position k of c holds record idx[k] of data, and that record is of the visit shown. */
  predicate IndexedBy(data: seq<Datum>, c: seq<Datum>, idx: seq<nat>)
  {
    |idx| == |c| && forall k | 0 <= k < |c| :: idx[k] < |data| && c[k] == data[idx[k]] && data[idx[k]].visit == VisitShown
  }

  predicate StrictlyIncreasing(idx: seq<nat>)
  {
    forall k, l | 0 <= k < l < |idx| :: idx[k] < idx[l]
  }

  /** Every index of a visit-shown record is reached. */
  predicate ReachesVisitShown(data: seq<Datum>, idx: seq<nat>)
  {
    forall i | 0 <= i < |data| && data[i].visit == VisitShown :: exists k :: 0 <= k < |idx| && idx[k] == i
  }

  /** The indices of the visit-shown records, in increasing order. */
  function CohortIndices(data: seq<Datum>): seq<nat>
  {
    if |data| == 0 then []
    else CohortIndices(data[..|data| - 1]) + (if data[|data| - 1].visit == VisitShown then [|data| - 1] else [])
  }

  lemma {:induction false} CohortIndexed(data: seq<Datum>)
    ensures IndexedBy(data, Cohort(data), CohortIndices(data))
  {
    if |data| > 0 {
      var n := |data| - 1;
      CohortIndexed(data[..n]);
      var c', idx' := Cohort(data[..n]), CohortIndices(data[..n]);
      var c, idx := Cohort(data), CohortIndices(data);
      if data[n].visit == VisitShown {
        assert c == c' + [data[n]] && idx == idx' + [n];
      } else {
        assert c == c' && idx == idx';
      }
      forall k | 0 <= k < |c|
        ensures idx[k] < |data| && c[k] == data[idx[k]] && data[idx[k]].visit == VisitShown
      {
        if k < |c'| {
          assert data[..n][idx'[k]] == data[idx'[k]];
        }
      }
    }
  }

  lemma {:induction false} CohortIndicesIncreasing(data: seq<Datum>)
    ensures StrictlyIncreasing(CohortIndices(data))
    ensures forall k | 0 <= k < |CohortIndices(data)| :: CohortIndices(data)[k] < |data|
  {
    if |data| > 0 {
      var n := |data| - 1;
      CohortIndicesIncreasing(data[..n]);
      var idx', idx := CohortIndices(data[..n]), CohortIndices(data);
      assert forall k | 0 <= k < |idx'| :: idx[k] == idx'[k];
      assert |idx| == |idx'| + 1 ==> idx[|idx'|] == n;
    }
  }

  lemma {:induction false} CohortIndicesComplete(data: seq<Datum>)
    ensures ReachesVisitShown(data, CohortIndices(data))
  {
    if |data| > 0 {
      var n := |data| - 1;
      CohortIndicesComplete(data[..n]);
      var idx', idx := CohortIndices(data[..n]), CohortIndices(data);
      assert forall k | 0 <= k < |idx'| :: idx[k] == idx'[k];
      assert data[n].visit == VisitShown ==> idx[|idx'|] == n;
      forall i | 0 <= i < |data| && data[i].visit == VisitShown
        ensures exists k :: 0 <= k < |idx| && idx[k] == i
      {
        if i < n {
          assert data[..n][i].visit == VisitShown;
          var k :| 0 <= k < |idx'| && idx'[k] == i;
          assert idx[k] == i;
        }
      }
    }
  }

  /** The cohort keeps the visit-shown records in input order, each exactly once. */
  lemma CohortShape(data: seq<Datum>)
    ensures exists idx :: IndexedBy(data, Cohort(data), idx) && StrictlyIncreasing(idx) && ReachesVisitShown(data, idx)
  {
    CohortIndexed(data);
    CohortIndicesIncreasing(data);
    CohortIndicesComplete(data);
  }

  /** Filtering the cohort again keeps it as it is. */
  lemma {:induction false} CohortIdempotent(data: seq<Datum>)
    ensures Cohort(Cohort(data)) == Cohort(data)
  {
    if |data| > 0 {
      var n := |data| - 1;
      CohortIdempotent(data[..n]);
      var rest := Cohort(data[..n]);
      if data[n].visit == VisitShown {
        var c := rest + [data[n]];
        assert Cohort(data) == c;
        assert c[..|c| - 1] == rest && c[|c| - 1] == data[n];
        assert Cohort(c) == Cohort(rest) + [data[n]];
      } else {
        assert Cohort(data) == rest;
      }
    }
  }

  /**
    The state the chart keeps once initialised: the extents of the whole
    data, the cohort, the two scales and the two packings of the cohort.
   */
  datatype Session = Session(
    itchExtent: (real, real),
    dlqiExtent: (real, real),
    cohort: seq<Datum>,
    xScale: real -> real,
    yScale: real -> real,
    x1: map<nat, real>,
    x2: map<nat, real>)

  /**
    initializeScrolling: both extents are taken over every record, before the
    visit filter; the scales are built from those extents by the given scale
    constructors; both packings run on the cohort.
   */
  method Initialize(data: seq<Datum>, makeXScale: (real, real) -> (real -> real), makeYScale: (real, real) -> (real -> real))
    returns (s: Session)
    ensures forall i | 0 <= i < |data| :: s.itchExtent.0 <= data[i].itch <= s.itchExtent.1
    ensures forall i | 0 <= i < |data| :: s.dlqiExtent.0 <= data[i].dlqi <= s.dlqiExtent.1
    ensures |data| == 0 ==> s.itchExtent == (0.0, 0.0) && s.dlqiExtent == (0.0, 0.0)
    ensures |data| > 0 ==> exists i :: 0 <= i < |data| && data[i].itch == s.itchExtent.0
    ensures |data| > 0 ==> exists i :: 0 <= i < |data| && data[i].itch == s.itchExtent.1
    ensures |data| > 0 ==> exists i :: 0 <= i < |data| && data[i].dlqi == s.dlqiExtent.0
    ensures |data| > 0 ==> exists i :: 0 <= i < |data| && data[i].dlqi == s.dlqiExtent.1
    ensures s.cohort == Cohort(data)
    ensures s.xScale == makeXScale(s.itchExtent.0, s.itchExtent.1)
    ensures s.yScale == makeYScale(s.dlqiExtent.0, s.dlqiExtent.1)
    ensures forall i | i in s.x1 :: i < |s.cohort|
    ensures forall i | 0 <= i < |s.cohort| :: i in s.x1 && s.x1[i] == s.xScale(PackedAllAt)
              - CircleRadius * CountDlqi(s.cohort, |s.cohort|, s.cohort[i].dlqi) as real
              + 2.0 * CircleRadius * CountDlqi(s.cohort, i, s.cohort[i].dlqi) as real
    ensures forall j: nat :: j in s.x2 <==>
              j < |s.cohort| && (s.cohort[j].treatment == PboTreatment || s.cohort[j].treatment == RxTreatment)
    ensures forall j | j in s.x2 :: s.x2[j] == ArmSlot(s.cohort, s.xScale, j)
    ensures Packed(s)
  {
    var itchLo, itchHi := GetExtent(data, (d: Datum) => d.itch);
    assert forall i | 0 <= i < |data| :: itchLo <= data[i].itch <= itchHi;
    var dlqiLo, dlqiHi := GetExtent(data, (d: Datum) => d.dlqi);
    assert forall i | 0 <= i < |data| :: dlqiLo <= data[i].dlqi <= dlqiHi;
    var cohort := Cohort(data);
    var xScale := makeXScale(itchLo, itchHi);
    var yScale := makeYScale(dlqiLo, dlqiHi);
    var x1, x2 := SetX1Position(cohort, xScale), SetX2Position(cohort, xScale);
    s := Session((itchLo, itchHi), (dlqiLo, dlqiHi), cohort, xScale, yScale, x1, x2);
    PackedPositions(s);
  }

  /** The positions a packed session holds: the two packings' contracts, read off the session. */
  lemma PackedPositions(s: Session)
    requires Packed(s)
    ensures forall i | i in s.x1 :: i < |s.cohort|
    ensures forall i | 0 <= i < |s.cohort| :: i in s.x1 && s.x1[i] == s.xScale(PackedAllAt)
              - CircleRadius * CountDlqi(s.cohort, |s.cohort|, s.cohort[i].dlqi) as real
              + 2.0 * CircleRadius * CountDlqi(s.cohort, i, s.cohort[i].dlqi) as real
    ensures forall j: nat :: j in s.x2 <==>
              j < |s.cohort| && (s.cohort[j].treatment == PboTreatment || s.cohort[j].treatment == RxTreatment)
    ensures forall j | j in s.x2 :: s.x2[j] == ArmSlot(s.cohort, s.xScale, j)
  {
  }

  /** Where the circles can be: the symbolic placements the steps move them between. */
  datatype Placement = PackedAll | PackedByArm | ArmAnchors | ArmItchMeans | ItchByDlqi

  /** The two packings the session keeps are the packings of its cohort, on its scale. */
  predicate Packed(s: Session)
  {
    s.x1 == SetX1Position(s.cohort, s.xScale) && s.x2 == SetX2Position(s.cohort, s.xScale)
  }

  /**
    The centre, in pixels, of the circle of cohort record j under a placement;
    a missing packed position reads as 0.
   */
  function CircleCentre(s: Session, at: Placement, j: nat): (real, real)
    requires j < |s.cohort|
  {
    var d := s.cohort[j];
    var pbo := d.treatment == PboTreatment;
    match at
    case PackedAll => (if j in s.x1 then s.x1[j] else 0.0, s.yScale(d.dlqi))
    case PackedByArm => (if j in s.x2 then s.x2[j] else 0.0, s.yScale(d.dlqi))
    case ArmAnchors =>
      (s.xScale(ArmAnchorAt(d.treatment)),
       s.yScale(if pbo then Narrative.PboDlqiMean else Narrative.RxDlqiMean))
    case ArmItchMeans =>
      (s.xScale(if pbo then Narrative.PboItchMean else Narrative.RxItchMean),
       s.yScale(if pbo then Narrative.PboDlqiMean else Narrative.RxDlqiMean))
    case ItchByDlqi => (s.xScale(d.itch), s.yScale(d.dlqi))
  }

  /**
    Packed together, two records with the same dlqi share a row and never
    overlap: the later one sits at least a diameter to the right.
   */
  lemma PackedAllSeparates(s: Session, i: nat, j: nat)
    requires Packed(s)
    requires i < j < |s.cohort| && s.cohort[i].dlqi == s.cohort[j].dlqi
    ensures CircleCentre(s, PackedAll, i).1 == CircleCentre(s, PackedAll, j).1
    ensures CircleCentre(s, PackedAll, j).0 - CircleCentre(s, PackedAll, i).0 >= 2.0 * CircleRadius
  {
    CountDlqiGrows(s.cohort, i, j);
  }

  /**
    Packed by arm, two records of the same arm with the same dlqi share a row
    and never overlap: the later one sits at least a diameter to the right.
   */
  lemma PackedByArmSeparates(s: Session, i: nat, j: nat)
    requires Packed(s)
    requires i < j < |s.cohort| && s.cohort[i].dlqi == s.cohort[j].dlqi
    requires s.cohort[i].treatment == s.cohort[j].treatment
    requires s.cohort[i].treatment == PboTreatment || s.cohort[i].treatment == RxTreatment
    ensures CircleCentre(s, PackedByArm, i).1 == CircleCentre(s, PackedByArm, j).1
    ensures CircleCentre(s, PackedByArm, j).0 - CircleCentre(s, PackedByArm, i).0 >= 2.0 * CircleRadius
  {
    CountArmDlqiGrows(s.cohort, i, j);
  }

  /** At the arm anchors and at the arm itch means, all records of one arm share one centre. */
  lemma ArmPlacementsShareCentre(s: Session, at: Placement, i: nat, j: nat)
    requires at == ArmAnchors || at == ArmItchMeans
    requires i < |s.cohort| && j < |s.cohort|
    requires s.cohort[i].treatment == s.cohort[j].treatment
    ensures CircleCentre(s, at, i) == CircleCentre(s, at, j)
  {
  }

  /**
    On an increasing horizontal scale the two arms stand apart: the placebo
    arm left of the active arm at the anchors, and right of it at the itch
    means, since the placebo arm itches more.
   */
  lemma ArmsApart(s: Session, i: nat, j: nat)
    requires forall a: real, b: real | a < b :: s.xScale(a) < s.xScale(b)
    requires i < |s.cohort| && j < |s.cohort|
    requires s.cohort[i].treatment == PboTreatment && s.cohort[j].treatment == RxTreatment
    ensures CircleCentre(s, ArmAnchors, i).0 < CircleCentre(s, ArmAnchors, j).0
    ensures CircleCentre(s, ArmItchMeans, j).0 < CircleCentre(s, ArmItchMeans, i).0
  {
    assert ArmAnchorAt(PboTreatment) < ArmAnchorAt(RxTreatment);
    assert Narrative.RxItchMean < Narrative.PboItchMean;
  }

  /** A record of neither arm has no arm packing and is drawn at the left edge when packed by arm. */
  lemma OtherArmAtLeftEdge(s: Session, j: nat)
    requires Packed(s)
    requires j < |s.cohort|
    requires s.cohort[j].treatment != PboTreatment && s.cohort[j].treatment != RxTreatment
    ensures CircleCentre(s, PackedByArm, j).0 == 0.0
  {
  }
}
