/**
  The record rows the layout passes pack: every record, or the records of
  one arm, each identified by its index in the data, together with the
  counting functions that state the packed positions in terms of the data.
 */
module Rows {
  import opened Records
  import opened Packing

  /** The two treatment arms: placebo and active. */
  const PboTreatment: int := 0
  const RxTreatment: int := 1

  /** Number of the first n records whose dlqi equals key. */
  function CountDlqi(data: seq<Datum>, n: nat, key: real): nat
    requires n <= |data|
  {
    if n == 0 then 0
    else CountDlqi(data, n - 1, key) + (if data[n - 1].dlqi == key then 1 else 0)
  }

  /** Number of the first n records of arm t whose dlqi equals key. */
  function CountArmDlqi(data: seq<Datum>, n: nat, t: int, key: real): nat
    requires n <= |data|
  {
    if n == 0 then 0
    else CountArmDlqi(data, n - 1, t, key)
         + (if data[n - 1].treatment == t && data[n - 1].dlqi == key then 1 else 0)
  }

  /** A record counts towards its own class in every longer prefix: later records of a class have larger counts. */
  lemma {:induction false} CountDlqiGrows(data: seq<Datum>, i: nat, n: nat)
    requires i < n <= |data|
    ensures CountDlqi(data, i, data[i].dlqi) < CountDlqi(data, n, data[i].dlqi)
  {
    if n > i + 1 {
      CountDlqiGrows(data, i, n - 1);
    }
  }

  /** The same within one arm: a record counts towards its arm's class in every longer prefix. */
  lemma {:induction false} CountArmDlqiGrows(data: seq<Datum>, i: nat, n: nat)
    requires i < n <= |data|
    ensures CountArmDlqi(data, i, data[i].treatment, data[i].dlqi) < CountArmDlqi(data, n, data[i].treatment, data[i].dlqi)
  {
    if n > i + 1 {
      CountArmDlqiGrows(data, i, n - 1);
    }
  }

  /** Every record, identified by its index. */
  function Entries(data: seq<Datum>): (es: seq<Entry>)
    ensures |es| == |data|
  {
    seq(|data|, i requires 0 <= i < |data| => Entry(i, data[i].dlqi))
  }

  /** The records of arm t (the `treatment === t` filter in setX2Position), identified by index. */
  function ArmEntries(data: seq<Datum>, t: int): (es: seq<Entry>)
    ensures |es| <= |data|
  {
    if |data| == 0 then []
    else ArmEntries(data[..|data| - 1], t)
         + (if data[|data| - 1].treatment == t then [Entry(|data| - 1, data[|data| - 1].dlqi)] else [])
  }

  // ---------------------------------------------------------------------
  // Facts about the entry rows
  // ---------------------------------------------------------------------

  lemma EntriesShape(data: seq<Datum>)
    ensures |Entries(data)| == |data|
    ensures forall i | 0 <= i < |data| :: Entries(data)[i] == Entry(i, data[i].dlqi)
  {
  }

  lemma EntriesDistinct(data: seq<Datum>)
    ensures DistinctIds(Entries(data))
  {
    EntriesShape(data);
  }

  lemma EntriesPrefix(data: seq<Datum>, i: nat)
    requires i <= |data|
    ensures Entries(data)[..i] == Entries(data[..i])
  {
    EntriesShape(data);
    EntriesShape(data[..i]);
  }

  lemma {:induction false} EntriesCount(data: seq<Datum>, n: nat, key: real)
    requires n <= |data|
    ensures |Members(Entries(data[..n]), key)| == CountDlqi(data, n, key)
  {
    if n > 0 {
      EntriesCount(data, n - 1, key);
      var d := data[..n];
      assert d[..n - 1] == data[..n - 1];
      assert Entries(d) == Entries(data[..n - 1]) + [Entry(n - 1, data[n - 1].dlqi)];
      MembersAppend(Entries(data[..n - 1]), Entry(n - 1, data[n - 1].dlqi), key);
    }
  }

  /** Every entry of es is a record of arm t, under its own index and dlqi. */
  predicate ArmRowSound(data: seq<Datum>, t: int, es: seq<Entry>)
  {
    forall p | 0 <= p < |es| :: es[p].id < |data| && data[es[p].id].treatment == t && es[p].dlqi == data[es[p].id].dlqi
  }

  predicate IdsIncreasing(es: seq<Entry>)
  {
    forall p, q | 0 <= p < q < |es| :: es[p].id < es[q].id
  }

  /** Every record of arm t has an entry in es. */
  predicate ArmRowComplete(data: seq<Datum>, t: int, es: seq<Entry>)
  {
    forall i | 0 <= i < |data| && data[i].treatment == t :: exists p :: 0 <= p < |es| && es[p].id == i
  }

  /** Each entry of an arm row is a record of that arm, under its own index and dlqi. */
  lemma {:induction false} ArmEntriesSound(data: seq<Datum>, t: int)
    ensures ArmRowSound(data, t, ArmEntries(data, t))
  {
    if |data| > 0 {
      var n := |data| - 1;
      ArmEntriesSound(data[..n], t);
      var es' := ArmEntries(data[..n], t);
      var es := ArmEntries(data, t);
      assert forall i | 0 <= i < n :: data[..n][i] == data[i];
      assert forall p | 0 <= p < |es'| :: es[p] == es'[p];
      assert |es| == |es'| + 1 ==> es[|es'|] == Entry(n, data[n].dlqi) && data[n].treatment == t;
    }
  }

  /** An arm row lists its records in increasing index order. */
  lemma {:induction false} ArmEntriesIncreasing(data: seq<Datum>, t: int)
    ensures IdsIncreasing(ArmEntries(data, t))
  {
    if |data| > 0 {
      var n := |data| - 1;
      ArmEntriesIncreasing(data[..n], t);
      ArmEntriesSound(data[..n], t);
      var es' := ArmEntries(data[..n], t);
      var es := ArmEntries(data, t);
      assert forall p | 0 <= p < |es'| :: es[p] == es'[p];
      assert |es| == |es'| + 1 ==> es[|es'|] == Entry(n, data[n].dlqi);
    }
  }

  /** Every record of the arm has an entry in the arm row. */
  lemma {:induction false} ArmEntriesComplete(data: seq<Datum>, t: int)
    ensures ArmRowComplete(data, t, ArmEntries(data, t))
  {
    if |data| > 0 {
      var n := |data| - 1;
      ArmEntriesComplete(data[..n], t);
      var es' := ArmEntries(data[..n], t);
      var es := ArmEntries(data, t);
      assert |es| == |es'| + 1 ==> es[|es'|] == Entry(n, data[n].dlqi);
      forall i | 0 <= i < |data| && data[i].treatment == t ensures exists p :: 0 <= p < |es| && es[p].id == i {
        if i == n {
          assert es[|es| - 1].id == n;
        } else {
          assert data[..n][i].treatment == t;
          var p :| 0 <= p < |es'| && es'[p].id == i;
          assert es[p] == es'[p];
        }
      }
    }
  }

  lemma ArmEntriesShape(data: seq<Datum>, t: int)
    ensures var es := ArmEntries(data, t);
      && (forall p | 0 <= p < |es| :: es[p].id < |data| && data[es[p].id].treatment == t && es[p].dlqi == data[es[p].id].dlqi)
      && (forall p, q | 0 <= p < q < |es| :: es[p].id < es[q].id)
      && (forall i | 0 <= i < |data| && data[i].treatment == t :: exists p :: 0 <= p < |es| && es[p].id == i)
  {
    ArmEntriesSound(data, t);
    ArmEntriesIncreasing(data, t);
    ArmEntriesComplete(data, t);
  }

  lemma ArmIds(data: seq<Datum>, t: int)
    ensures forall i: nat :: i in IdsOf(ArmEntries(data, t)) <==> i < |data| && data[i].treatment == t
  {
    var es := ArmEntries(data, t);
    ArmEntriesShape(data, t);
    forall id: nat | id in IdsOf(es) ensures id < |data| && data[id].treatment == t {
      var e :| e in es && e.id == id;
      var p :| 0 <= p < |es| && es[p] == e;
      assert es[p].id == id;
    }
    forall i | 0 <= i < |data| && data[i].treatment == t ensures i in IdsOf(es) {
      var p :| 0 <= p < |es| && es[p].id == i;
      assert es[p] in es;
    }
  }

  lemma ArmEntriesDistinct(data: seq<Datum>, t: int)
    ensures DistinctIds(ArmEntries(data, t))
  {
    ArmEntriesShape(data, t);
  }

  /** Extending the records only extends an arm row. */
  lemma {:induction false} ArmEntriesGrow(data: seq<Datum>, m: nat, n: nat, t: int)
    requires m <= n <= |data|
    ensures var short := ArmEntries(data[..m], t);
      var long := ArmEntries(data[..n], t);
      |short| <= |long| && long[..|short|] == short
  {
    if m < n {
      ArmEntriesGrow(data, m, n - 1, t);
      assert data[..n][..n - 1] == data[..n - 1];
    }
  }

  /** Record j of arm t sits in the arm row right after the arm records before it. */
  lemma ArmEntriesPosition(data: seq<Datum>, t: int, j: nat)
    requires j < |data| && data[j].treatment == t
    ensures var es := ArmEntries(data, t);
      var p := |ArmEntries(data[..j], t)|;
      p < |es| && es[p] == Entry(j, data[j].dlqi) && es[..p] == ArmEntries(data[..j], t)
  {
    var d := data[..j + 1];
    assert d[..j] == data[..j];
    assert ArmEntries(d, t) == ArmEntries(data[..j], t) + [Entry(j, data[j].dlqi)];
    ArmEntriesGrow(data, j + 1, |data|, t);
    assert data[..|data|] == data;
  }

  lemma {:induction false} ArmEntriesCount(data: seq<Datum>, n: nat, t: int, key: real)
    requires n <= |data|
    ensures |Members(ArmEntries(data[..n], t), key)| == CountArmDlqi(data, n, t, key)
  {
    if n > 0 {
      ArmEntriesCount(data, n - 1, t, key);
      var d := data[..n];
      assert d[..n - 1] == data[..n - 1] && d[n - 1] == data[n - 1];
      var es' := ArmEntries(data[..n - 1], t);
      if data[n - 1].treatment == t {
        assert ArmEntries(d, t) == es' + [Entry(n - 1, data[n - 1].dlqi)];
        MembersAppend(es', Entry(n - 1, data[n - 1].dlqi), key);
      } else {
        assert ArmEntries(d, t) == es';
      }
    }
  }
}
