/**
  The two layout passes of the scrolling chart. The first packs every
  record of the cohort around xScale(5); the second packs each treatment arm
  separately, the placebo arm around xScale(3) and the active arm around
  xScale(7). The horizontal scale is a parameter: it is built by d3 from the
  itch extent and the canvas width, which this model does not follow.
 */
module Layout {
  import opened Records
  import opened Packing
  import opened Rows

  /** Data value whose scaled position anchors the single pack. */
  const PackedAllAt: real := 5.0

  /** Data value whose scaled position anchors an arm's pack. */
  function ArmAnchorAt(treatment: int): real
  {
    if treatment == PboTreatment then 3.0 else 7.0
  }

  // ---------------------------------------------------------------------
  // The two passes
  // ---------------------------------------------------------------------

  /**
    setX1Position: record i gets x1 = xScale(5) - 5 * n + 10 * k, where n
    records share its dlqi and k of them come before it.
   */
  function SetX1Position(data: seq<Datum>, xScale: real -> real): (x1: map<nat, real>)
    ensures forall i: nat :: i in x1 <==> i < |data|
    ensures forall i | 0 <= i < |data| ::
              x1[i] == xScale(PackedAllAt) - CircleRadius * CountDlqi(data, |data|, data[i].dlqi) as real
                       + 2.0 * CircleRadius * CountDlqi(data, i, data[i].dlqi) as real
  {
    X1Correct(data, xScale);
    PackRow(Entries(data), xScale(PackedAllAt), map[])
  }

  lemma X1Correct(data: seq<Datum>, xScale: real -> real)
    ensures var x1 := PackRow(Entries(data), xScale(PackedAllAt), map[]);
      && (forall i: nat :: i in x1 <==> i < |data|)
      && (forall i | 0 <= i < |data| ::
            i in x1 && x1[i] == xScale(PackedAllAt) - CircleRadius * CountDlqi(data, |data|, data[i].dlqi) as real
                                + 2.0 * CircleRadius * CountDlqi(data, i, data[i].dlqi) as real)
  {
    X1Domain(data, xScale(PackedAllAt));
    forall i | 0 <= i < |data|
      ensures var x1 := PackRow(Entries(data), xScale(PackedAllAt), map[]);
        i in x1 && x1[i] == xScale(PackedAllAt) - CircleRadius * CountDlqi(data, |data|, data[i].dlqi) as real
                            + 2.0 * CircleRadius * CountDlqi(data, i, data[i].dlqi) as real
    {
      X1ValueAt(data, xScale, i);
    }
  }

  lemma X1Domain(data: seq<Datum>, anchor: real)
    ensures forall i: nat :: i in PackRow(Entries(data), anchor, map[]) <==> i < |data|
  {
    var es := Entries(data);
    var x1 := PackRow(es, anchor, map[]);
    assert x1.Keys == IdsOf(es);
    forall i | i in x1 ensures i < |data| {
      var e :| e in es && e.id == i;
    }
    forall i: nat | i < |data| ensures i in x1 {
      assert es[i] in es;
    }
  }

  lemma X1ValueAt(data: seq<Datum>, xScale: real -> real, i: nat)
    requires i < |data|
    ensures var x1 := PackRow(Entries(data), xScale(PackedAllAt), map[]);
      i in x1 && x1[i] == xScale(PackedAllAt) - CircleRadius * CountDlqi(data, |data|, data[i].dlqi) as real
               + 2.0 * CircleRadius * CountDlqi(data, i, data[i].dlqi) as real
  {
    X1PackedAt(data, xScale(PackedAllAt), i);
    X1Count(data, i);
  }

  lemma X1PackedAt(data: seq<Datum>, anchor: real, i: nat)
    requires i < |data|
    ensures var es := Entries(data);
      var x1 := PackRow(es, anchor, map[]);
      i in x1 && x1[i] == anchor - CircleRadius * |Members(es, data[i].dlqi)| as real
                      + 2.0 * CircleRadius * |Members(es[..i], data[i].dlqi)| as real
  {
    var es := Entries(data);
    EntriesShape(data);
    EntriesDistinct(data);
    assert es[i].id == i && es[i].dlqi == data[i].dlqi;
    assert es[i] in es;
    var x1 := PackRow(es, anchor, map[]);
    assert x1[es[i].id] == anchor - CircleRadius * |Members(es, es[i].dlqi)| as real
                                  + 2.0 * CircleRadius * |Members(es[..i], es[i].dlqi)| as real;
  }

  lemma X1Count(data: seq<Datum>, i: nat)
    requires i < |data|
    ensures |Members(Entries(data), data[i].dlqi)| == CountDlqi(data, |data|, data[i].dlqi)
    ensures |Members(Entries(data)[..i], data[i].dlqi)| == CountDlqi(data, i, data[i].dlqi)
  {
    assert data[..|data|] == data;
    EntriesCount(data, |data|, data[i].dlqi);
    EntriesPrefix(data, i);
    EntriesCount(data, i, data[i].dlqi);
  }

  /** The packed position of record j within its own arm. */
  function ArmSlot(data: seq<Datum>, xScale: real -> real, j: nat): real
    requires j < |data|
  {
    var t := data[j].treatment;
    xScale(ArmAnchorAt(t)) - CircleRadius * CountArmDlqi(data, |data|, t, data[j].dlqi) as real
      + 2.0 * CircleRadius * CountArmDlqi(data, j, t, data[j].dlqi) as real
  }

  /**
    setX2Position: a record of arm 0 or 1 gets x2 = xScale(anchor) - 5 * n
    + 10 * k, where n records of its own arm share its dlqi and k of them come
    before it; a record of any other arm gets no x2.
   */
  function SetX2Position(data: seq<Datum>, xScale: real -> real): (x2: map<nat, real>)
    ensures forall j: nat :: j in x2 <==> j < |data| && (data[j].treatment == PboTreatment || data[j].treatment == RxTreatment)
    ensures forall j | j in x2 :: x2[j] == ArmSlot(data, xScale, j)
  {
    X2Values(data, xScale);
    ArmPasses(data, xScale)
  }

  /** The placebo pass, which writes x2 for the placebo records only. */
  function PboPass(data: seq<Datum>, xScale: real -> real): map<nat, real>
  {
    PackRow(ArmEntries(data, PboTreatment), xScale(ArmAnchorAt(PboTreatment)), map[])
  }

  /** Both passes in source order: the active pass runs over the placebo result. */
  function ArmPasses(data: seq<Datum>, xScale: real -> real): map<nat, real>
  {
    PackRow(ArmEntries(data, RxTreatment), xScale(ArmAnchorAt(RxTreatment)), PboPass(data, xScale))
  }

  lemma ArmRowValue(data: seq<Datum>, xScale: real -> real, t: int, acc: map<nat, real>, j: nat)
    requires j < |data| && data[j].treatment == t
    ensures var x := PackRow(ArmEntries(data, t), xScale(ArmAnchorAt(t)), acc);
      j in x && x[j] == ArmSlot(data, xScale, j)
  {
    var es := ArmEntries(data, t);
    ArmEntriesDistinct(data, t);
    ArmEntriesPosition(data, t, j);
    var p := |ArmEntries(data[..j], t)|;
    assert data[..|data|] == data;
    ArmEntriesCount(data, |data|, t, data[j].dlqi);
    ArmEntriesCount(data, j, t, data[j].dlqi);
    assert es[p].id == j && es[p].dlqi == data[j].dlqi;
  }

  lemma X2Domain(data: seq<Datum>, xScale: real -> real)
    ensures forall j: nat :: j in PboPass(data, xScale) <==> j < |data| && data[j].treatment == PboTreatment
    ensures forall j: nat :: j in ArmPasses(data, xScale) <==>
              j < |data| && (data[j].treatment == PboTreatment || data[j].treatment == RxTreatment)
  {
    forall j: nat
      ensures j in PboPass(data, xScale) <==> j < |data| && data[j].treatment == PboTreatment
      ensures j in ArmPasses(data, xScale) <==>
                j < |data| && (data[j].treatment == PboTreatment || data[j].treatment == RxTreatment)
    {
      PboDomainAt(data, xScale, j);
      X2DomainAt(data, xScale, j);
    }
  }

  lemma PboDomainAt(data: seq<Datum>, xScale: real -> real, j: nat)
    ensures j in PboPass(data, xScale) <==> j < |data| && data[j].treatment == PboTreatment
  {
    var pboIds := IdsOf(ArmEntries(data, PboTreatment));
    assert PboPass(data, xScale).Keys == pboIds;
    ArmIds(data, PboTreatment);
  }

  lemma X2DomainAt(data: seq<Datum>, xScale: real -> real, j: nat)
    ensures j in ArmPasses(data, xScale) <==>
              j < |data| && (data[j].treatment == PboTreatment || data[j].treatment == RxTreatment)
  {
    var pboIds := IdsOf(ArmEntries(data, PboTreatment));
    var rxIds := IdsOf(ArmEntries(data, RxTreatment));
    var x2 := ArmPasses(data, xScale);
    assert x2.Keys == pboIds + rxIds;
    ArmIds(data, PboTreatment);
    ArmIds(data, RxTreatment);
    assert j in x2 <==> j in pboIds || j in rxIds;
  }

  lemma X2ValueAt(data: seq<Datum>, xScale: real -> real, j: nat)
    requires j < |data| && (data[j].treatment == PboTreatment || data[j].treatment == RxTreatment)
    ensures var x2 := ArmPasses(data, xScale);
      j in x2 && x2[j] == ArmSlot(data, xScale, j)
  {
    var afterPbo := PboPass(data, xScale);
    var x2 := ArmPasses(data, xScale);
    PboDomainAt(data, xScale, j);
    if data[j].treatment == RxTreatment {
      ArmRowValue(data, xScale, RxTreatment, afterPbo, j);
    } else {
      ArmIds(data, RxTreatment);
      assert j !in IdsOf(ArmEntries(data, RxTreatment));
      ArmRowValue(data, xScale, PboTreatment, map[], j);
    }
  }

  lemma X2Values(data: seq<Datum>, xScale: real -> real)
    ensures var x2 := ArmPasses(data, xScale);
      forall j: nat :: j in x2 <==> j < |data| && (data[j].treatment == PboTreatment || data[j].treatment == RxTreatment)
    ensures var x2 := ArmPasses(data, xScale);
      forall j | j in x2 :: j < |data| && x2[j] == ArmSlot(data, xScale, j)
  {
    var afterPbo := PboPass(data, xScale);
    var x2 := ArmPasses(data, xScale);
    X2Domain(data, xScale);
    forall j: nat | j in x2 ensures j < |data| && x2[j] == ArmSlot(data, xScale, j) {
      X2ValueAt(data, xScale, j);
    }
  }

  /**
    A record's x2 depends only on the records of its own arm with its own
    dlqi: two datasets that agree on which earlier and which records share
    j's arm and dlqi give j the same x2.
   */
  lemma {:induction false} X2DependsOnOwnClass(data: seq<Datum>, other: seq<Datum>, xScale: real -> real, j: nat)
    requires |data| == |other| && j < |data|
    requires data[j].treatment == other[j].treatment
    requires data[j].treatment == PboTreatment || data[j].treatment == RxTreatment
    requires forall k | 0 <= k < |data| ::
      (data[k].treatment == data[j].treatment && data[k].dlqi == data[j].dlqi)
      <==> (other[k].treatment == other[j].treatment && other[k].dlqi == other[j].dlqi)
    ensures SetX2Position(data, xScale)[j] == SetX2Position(other, xScale)[j]
  {
    SameClassCount(data, other, j, |data|);
    SameClassCount(data, other, j, j);
  }

  lemma {:induction false} SameClassCount(data: seq<Datum>, other: seq<Datum>, j: nat, n: nat)
    requires |data| == |other| && j < |data| && n <= |data|
    requires forall k | 0 <= k < |data| ::
      (data[k].treatment == data[j].treatment && data[k].dlqi == data[j].dlqi)
      <==> (other[k].treatment == other[j].treatment && other[k].dlqi == other[j].dlqi)
    ensures CountArmDlqi(data, n, data[j].treatment, data[j].dlqi)
            == CountArmDlqi(other, n, other[j].treatment, other[j].dlqi)
  {
    if n > 0 {
      SameClassCount(data, other, j, n - 1);
    }
  }
}
