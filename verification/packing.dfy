/**
  Marker packing: the group / sort / assign pipeline shared by the two
  layout passes. A row of entries (an id and its dlqi value) is grouped by
  exactly equal dlqi, first-seen group first; the groups are sorted by
  ascending dlqi; then within each group of n markers the i-th member, in
  input order, is placed at `anchor - (2 * r * n) / 2 + i * 2 * r`.
 */
module Packing {

  /** Marker radius r of the scrolling canvas. */
  const CircleRadius: real := 5.0

  /** One record taking part in a packing pass: its id and its dlqi value. */
  datatype Entry = Entry(id: nat, dlqi: real)

  /** Records sharing one dlqi value, in the order they were met. */
  datatype Group = Group(dlqi: real, members: seq<nat>)

  /** The ids of a row. */
  function IdsOf(es: seq<Entry>): set<nat>
  {
    set e | e in es :: e.id
  }

  predicate DistinctIds(es: seq<Entry>)
  {
    forall p, q | 0 <= p < q < |es| :: es[p].id != es[q].id
  }

  /** Ids of the entries whose dlqi equals `key`, in input order. */
  function Members(es: seq<Entry>, key: real): seq<nat>
  {
    if |es| == 0 then []
    else Members(es[..|es| - 1], key) + (if es[|es| - 1].dlqi == key then [es[|es| - 1].id] else [])
  }

  /** Position of the i-th of n packed markers. */
  function Slot(anchor: real, n: nat, i: nat): real
  {
    var length := 2.0 * CircleRadius * n as real;
    var halfLength := length / 2.0;
    anchor - halfLength + i as real * 2.0 * CircleRadius
  }

  // ---------------------------------------------------------------------
  // Facts about Members
  // ---------------------------------------------------------------------

  lemma {:induction false} MembersAppend(es: seq<Entry>, e: Entry, key: real)
    ensures Members(es + [e], key) == Members(es, key) + (if e.dlqi == key then [e.id] else [])
  {
    assert (es + [e])[..|es|] == es;
  }

  /** Every id listed for `key` is the id of an entry with that dlqi. */
  lemma {:induction false} MembersSound(es: seq<Entry>, key: real, id: nat)
    requires id in Members(es, key)
    ensures exists p :: 0 <= p < |es| && es[p].id == id && es[p].dlqi == key
  {
    var n := |es| - 1;
    if id in Members(es[..n], key) {
      MembersSound(es[..n], key, id);
      var p :| 0 <= p < n && es[..n][p].id == id && es[..n][p].dlqi == key;
      assert es[p] == es[..n][p];
    } else {
      assert es[n].id == id && es[n].dlqi == key;
    }
  }

  /** A key carried by no entry has no members. */
  lemma {:induction false} MembersOfAbsentKey(es: seq<Entry>, key: real)
    requires forall p | 0 <= p < |es| :: es[p].dlqi != key
    ensures Members(es, key) == []
  {
    if |es| > 0 {
      MembersOfAbsentKey(es[..|es| - 1], key);
    }
  }

  /**
    The entry at position p is listed for its own dlqi exactly at index
    "number of earlier entries with that dlqi", and not again after it.
   */
  lemma {:induction false} MembersRank(es: seq<Entry>, p: nat)
    requires DistinctIds(es)
    requires p < |es|
    ensures var ms := Members(es, es[p].dlqi);
      var i := |Members(es[..p], es[p].dlqi)|;
      i < |ms| && ms[i] == es[p].id && es[p].id !in ms[i + 1..]
  {
    var key := es[p].dlqi;
    var n := |es| - 1;
    var tail := if es[n].dlqi == key then [es[n].id] else [];
    assert Members(es, key) == Members(es[..n], key) + tail;
    if p == n {
      assert es[..p] == es[..n];
    } else {
      assert DistinctIds(es[..n]);
      MembersRank(es[..n], p);
      assert es[..n][p] == es[p];
      assert es[..n][..p] == es[..p];
      var ms' := Members(es[..n], key);
      var i := |Members(es[..p], key)|;
      assert Members(es, key)[i + 1..] == ms'[i + 1..] + tail;
      assert es[n].id != es[p].id;
    }
  }

  predicate NoDuplicates(ms: seq<nat>)
  {
    forall i, j | 0 <= i < j < |ms| :: ms[i] != ms[j]
  }

  /** Members lists no id twice when ids are distinct. */
  lemma {:induction false} MembersDistinct(es: seq<Entry>, key: real)
    requires DistinctIds(es)
    ensures NoDuplicates(Members(es, key))
  {
    if |es| > 0 {
      var n := |es| - 1;
      assert DistinctIds(es[..n]);
      MembersDistinct(es[..n], key);
      var ms' := Members(es[..n], key);
      assert NoDuplicates(ms');
      if es[n].dlqi == key {
        if es[n].id in ms' {
          MembersSound(es[..n], key, es[n].id);
          assert false;
        }
        var ms := ms' + [es[n].id];
        assert Members(es, key) == ms;
        forall i, j | 0 <= i < j < |ms| ensures ms[i] != ms[j] {
          if j == |ms'| {
            assert ms[i] == ms'[i] && ms'[i] in ms';
          } else {
            assert ms[i] == ms'[i] && ms[j] == ms'[j];
          }
        }
      } else {
        assert Members(es, key) == ms';
      }
    }
  }

  // ---------------------------------------------------------------------
  // Grouping (the reduce step)
  // ---------------------------------------------------------------------

  /** Members of the first group with this dlqi, or none. */
  function MembersOf(gs: seq<Group>, key: real): seq<nat>
  {
    if |gs| == 0 then []
    else if gs[0].dlqi == key then gs[0].members
    else MembersOf(gs[1..], key)
  }

  function KeysOf(gs: seq<Group>): set<real>
  {
    set g | g in gs :: g.dlqi
  }

  predicate DistinctKeys(gs: seq<Group>)
  {
    forall a, b | 0 <= a < b < |gs| :: gs[a].dlqi != gs[b].dlqi
  }

  /**
    One reduce step: append the entry to the first group with its dlqi, or
    open a new group at the end when there is none.
   */
  function AddToGroups(gs: seq<Group>, e: Entry): (r: seq<Group>)
    ensures forall key :: MembersOf(r, key) == MembersOf(gs, key) + (if key == e.dlqi then [e.id] else [])
    ensures |gs| <= |r| <= |gs| + 1
    ensures forall a | 0 <= a < |gs| :: r[a].dlqi == gs[a].dlqi
    ensures |r| == |gs| + 1 ==> r[|gs|].dlqi == e.dlqi && forall a | 0 <= a < |gs| :: gs[a].dlqi != e.dlqi
  {
    if |gs| == 0 then [Group(e.dlqi, [e.id])]
    else if gs[0].dlqi == e.dlqi then
      var r := [gs[0].(members := gs[0].members + [e.id])] + gs[1..];
      assert r[1..] == gs[1..];
      r
    else
      var rest := AddToGroups(gs[1..], e);
      var r := [gs[0]] + rest;
      assert r[1..] == rest;
      r
  }

  /** Adding an entry never makes two groups share a dlqi. */
  lemma AddToGroupsDistinct(gs: seq<Group>, e: Entry)
    requires DistinctKeys(gs)
    ensures DistinctKeys(AddToGroups(gs, e))
  {
    var r := AddToGroups(gs, e);
    forall a, b | 0 <= a < b < |r| ensures r[a].dlqi != r[b].dlqi {
      if b < |gs| {
        assert r[a].dlqi == gs[a].dlqi && r[b].dlqi == gs[b].dlqi;
      }
    }
  }

  /** The `reduce` in setX1Position and setX2Position: groups in order of first appearance. */
  function GroupByDlqi(es: seq<Entry>): (gs: seq<Group>)
    ensures forall key :: MembersOf(gs, key) == Members(es, key)
    ensures DistinctKeys(gs)
  {
    if |es| == 0 then []
    else
      var gs := GroupByDlqi(es[..|es| - 1]);
      AddToGroupsDistinct(gs, es[|es| - 1]);
      AddToGroups(gs, es[|es| - 1])
  }

  /** A group with a non-empty member list exists for the key. */
  lemma {:induction false} MembersOfFound(gs: seq<Group>, key: real)
    requires MembersOf(gs, key) != []
    ensures key in KeysOf(gs)
  {
    if gs[0].dlqi == key {
      assert gs[0] in gs;
    } else {
      MembersOfFound(gs[1..], key);
      var g :| g in gs[1..] && g.dlqi == key;
      assert g in gs;
    }
  }

  /** Every dlqi of the row has a group. */
  lemma GroupByDlqiCovers(es: seq<Entry>, p: nat)
    requires p < |es|
    ensures es[p].dlqi in KeysOf(GroupByDlqi(es))
  {
    MembersIn(es, p);
    MembersOfFound(GroupByDlqi(es), es[p].dlqi);
  }

  /** With distinct keys, each group's members are what MembersOf finds for its key. */
  lemma {:induction false} MembersOfOwnKey(gs: seq<Group>, a: nat)
    requires DistinctKeys(gs)
    requires a < |gs|
    ensures MembersOf(gs, gs[a].dlqi) == gs[a].members
  {
    if a > 0 {
      assert DistinctKeys(gs[1..]);
      MembersOfOwnKey(gs[1..], a - 1);
    }
  }

  /** Every group lists exactly the entries carrying its dlqi. */
  predicate GroupsMatch(es: seq<Entry>, gs: seq<Group>)
  {
    forall g | g in gs :: g.members == Members(es, g.dlqi)
  }

  lemma GroupByDlqiMatches(es: seq<Entry>)
    ensures GroupsMatch(es, GroupByDlqi(es))
  {
    var gs := GroupByDlqi(es);
    forall g | g in gs ensures g.members == Members(es, g.dlqi) {
      var a :| 0 <= a < |gs| && gs[a] == g;
      MembersOfOwnKey(gs, a);
    }
  }

  // ---------------------------------------------------------------------
  // Sorting the groups (ascending dlqi)
  // ---------------------------------------------------------------------

  predicate SortedByDlqi(gs: seq<Group>)
  {
    forall a, b | 0 <= a < b < |gs| :: gs[a].dlqi <= gs[b].dlqi
  }

  function InsertByDlqi(g: Group, gs: seq<Group>): (r: seq<Group>)
    requires SortedByDlqi(gs)
    ensures SortedByDlqi(r)
    ensures multiset(r) == multiset(gs) + multiset{g}
    ensures forall x | x in r :: x == g || x in gs
  {
    if |gs| == 0 then [g]
    else if g.dlqi <= gs[0].dlqi then [g] + gs
    else
      var rest := InsertByDlqi(g, gs[1..]);
      InsertBehindHead(g, gs, rest);
      [gs[0]] + rest
  }

  /** Inserting behind the head: the head stays first, and the insertion into the tail keeps every promise. */
  lemma InsertBehindHead(g: Group, gs: seq<Group>, rest: seq<Group>)
    requires SortedByDlqi(gs) && |gs| > 0 && gs[0].dlqi < g.dlqi
    requires SortedByDlqi(rest)
    requires multiset(rest) == multiset(gs[1..]) + multiset{g}
    requires forall x | x in rest :: x == g || x in gs[1..]
    ensures SortedByDlqi([gs[0]] + rest)
    ensures multiset([gs[0]] + rest) == multiset(gs) + multiset{g}
    ensures forall x | x in [gs[0]] + rest :: x == g || x in gs
  {
    assert gs == [gs[0]] + gs[1..];
    forall b | 0 <= b < |rest| ensures gs[0].dlqi <= rest[b].dlqi {
      assert rest[b] in rest;
      if rest[b] != g {
        var c :| 0 <= c < |gs[1..]| && gs[1..][c] == rest[b];
        assert gs[c + 1] == rest[b];
      }
    }
    var r := [gs[0]] + rest;
    forall a, b | 0 <= a < b < |r| ensures r[a].dlqi <= r[b].dlqi {
      if a > 0 {
        assert r[a] == rest[a - 1] && r[b] == rest[b - 1];
      } else {
        assert r[b] == rest[b - 1];
      }
    }
  }

  /** The `d3.ascending` sort in setX1Position and setX2Position. */
  function SortByDlqi(gs: seq<Group>): (r: seq<Group>)
    ensures SortedByDlqi(r)
    ensures multiset(r) == multiset(gs)
  {
    if |gs| == 0 then []
    else
      assert gs == [gs[0]] + gs[1..];
      InsertByDlqi(gs[0], SortByDlqi(gs[1..]))
  }

  // ---------------------------------------------------------------------
  // Assigning positions (the forEach steps)
  // ---------------------------------------------------------------------

  /** All ids the groups list, in group order. */
  function AllMembers(gs: seq<Group>): seq<nat>
  {
    if |gs| == 0 then [] else gs[0].members + AllMembers(gs[1..])
  }

  /**
    The inner forEach of setX1Position and setX2Position, from member i on: member k of
    the group is written at Slot(anchor, |ms|, k); a later write wins.
   */
  function AssignFrom(ms: seq<nat>, i: nat, anchor: real, acc: map<nat, real>): (x: map<nat, real>)
    requires i <= |ms|
    ensures forall id :: id in x <==> id in acc || id in ms[i..]
    ensures forall id | id in acc && id !in ms[i..] :: x[id] == acc[id]
    ensures forall k | i <= k < |ms| && ms[k] !in ms[k + 1..] :: x[ms[k]] == Slot(anchor, |ms|, k)
    decreases |ms| - i
  {
    if i == |ms| then acc
    else
      assert ms[i..] == [ms[i]] + ms[i + 1..];
      AssignFrom(ms, i + 1, anchor, acc[ms[i] := Slot(anchor, |ms|, i)])
  }

  /**
    The outer forEach of setX1Position and setX2Position: groups are written in order,
    and an id keeps the value of the last group (and the last place in it)
    that lists it.
   */
  function AssignAll(gs: seq<Group>, anchor: real, acc: map<nat, real>): (x: map<nat, real>)
    ensures forall id :: id in x <==> id in acc || id in AllMembers(gs)
    ensures forall id | id in acc && id !in AllMembers(gs) :: x[id] == acc[id]
    ensures forall a, k | 0 <= a < |gs| && 0 <= k < |gs[a].members|
              && gs[a].members[k] !in gs[a].members[k + 1..]
              && gs[a].members[k] !in AllMembers(gs[a + 1..]) ::
              gs[a].members[k] in x && x[gs[a].members[k]] == Slot(anchor, |gs[a].members|, k)
  {
    if |gs| == 0 then acc
    else
      var y := AssignFrom(gs[0].members, 0, anchor, acc);
      var x := AssignAll(gs[1..], anchor, y);
      assert gs[0].members[0..] == gs[0].members;
      assert forall a | 1 <= a < |gs| :: gs[1..][a - 1] == gs[a] && gs[1..][a..] == gs[a + 1..];
      x
  }

  /** Index of the last group with this dlqi, or -1. */
  function LastWithKey(gs: seq<Group>, key: real): (a: int)
    ensures key in KeysOf(gs) ==> 0 <= a < |gs| && gs[a].dlqi == key
    ensures key in KeysOf(gs) ==> forall b | a < b < |gs| :: gs[b].dlqi != key
  {
    if |gs| == 0 then -1
    else if gs[|gs| - 1].dlqi == key then |gs| - 1
    else
      var init := gs[..|gs| - 1];
      assert forall g | g in gs :: g in init || g == gs[|gs| - 1];
      assert key in KeysOf(gs) ==> key in KeysOf(init);
      LastWithKey(init, key)
  }

  lemma {:induction false} AllMembersSound(gs: seq<Group>, id: nat)
    requires id in AllMembers(gs)
    ensures exists g :: g in gs && id in g.members
  {
    if id !in gs[0].members {
      AllMembersSound(gs[1..], id);
    }
  }

  /** The id of an entry is listed by no group with another key. */
  lemma NotListedUnderOtherKey(es: seq<Entry>, gs: seq<Group>, p: nat)
    requires DistinctIds(es) && GroupsMatch(es, gs)
    requires p < |es|
    requires forall g | g in gs :: g.dlqi != es[p].dlqi
    ensures es[p].id !in AllMembers(gs)
  {
    if es[p].id in AllMembers(gs) {
      AllMembersSound(gs, es[p].id);
      var g :| g in gs && es[p].id in g.members;
      MembersSound(es, g.dlqi, es[p].id);
      assert false;
    }
  }

  /**
    Whatever order the groups come in, as long as each lists exactly the
    entries of its dlqi and every dlqi has a group, the i-th entry of a dlqi
    class of size n is written at anchor - r * n + 2 * r * i.
   */
  lemma AssignAllPacks(es: seq<Entry>, gs: seq<Group>, anchor: real, acc: map<nat, real>, p: nat)
    requires DistinctIds(es) && GroupsMatch(es, gs)
    requires p < |es| && es[p].dlqi in KeysOf(gs)
    ensures var key := es[p].dlqi;
      var x := AssignAll(gs, anchor, acc);
      es[p].id in x &&
      x[es[p].id] == anchor - CircleRadius * |Members(es, key)| as real
                     + 2.0 * CircleRadius * |Members(es[..p], key)| as real
  {
    var key := es[p].dlqi;
    var a := LastWithKey(gs, key);
    assert gs[a] in gs;
    var ms := gs[a].members;
    assert ms == Members(es, key);
    MembersRank(es, p);
    var k := |Members(es[..p], key)|;
    assert ms[k] == es[p].id && ms[k] !in ms[k + 1..];
    var later := gs[a + 1..];
    forall g | g in later ensures g.dlqi != key && g in gs {
      var b :| 0 <= b < |later| && later[b] == g;
      assert gs[a + 1 + b] == g;
    }
    assert GroupsMatch(es, later);
    NotListedUnderOtherKey(es, later, p);
    var x := AssignAll(gs, anchor, acc);
    assert x[ms[k]] == Slot(anchor, |ms|, k);
  }

  /** Entries that every group of a matching list covers: the whole row. */
  lemma AllMembersCovered(es: seq<Entry>, gs: seq<Group>, id: nat)
    requires GroupsMatch(es, gs)
    requires id in AllMembers(gs)
    ensures exists p :: 0 <= p < |es| && es[p].id == id
  {
    AllMembersSound(gs, id);
    var g :| g in gs && id in g.members;
    MembersSound(es, g.dlqi, id);
  }

  /** The grouped, sorted list of one packing pass. */
  function SortedGroups(es: seq<Entry>): seq<Group>
  {
    SortByDlqi(GroupByDlqi(es))
  }

  /** Sorting keeps the groups matched to the row and every dlqi covered. */
  lemma SortedGroupsMatch(es: seq<Entry>)
    ensures GroupsMatch(es, SortedGroups(es))
    ensures Covers(es, SortedGroups(es))
  {
    var grouped := GroupByDlqi(es);
    var gs := SortedGroups(es);
    forall g ensures g in gs <==> g in grouped {
      assert g in gs <==> g in multiset(gs);
    }
    GroupByDlqiMatches(es);
    forall p | 0 <= p < |es| ensures es[p].dlqi in KeysOf(gs) {
      GroupByDlqiCovers(es, p);
      var g :| g in grouped && g.dlqi == es[p].dlqi;
      assert g in gs;
    }
  }

  /** Every entry's dlqi has a group in the list. */
  predicate Covers(es: seq<Entry>, gs: seq<Group>)
  {
    forall p | 0 <= p < |es| :: es[p].dlqi in KeysOf(gs)
  }

  /** A matched, covering group list lists exactly the ids of the row. */
  lemma AllMembersExactly(es: seq<Entry>, gs: seq<Group>)
    requires GroupsMatch(es, gs) && Covers(es, gs)
    ensures forall id :: id in AllMembers(gs) <==> exists p :: 0 <= p < |es| && es[p].id == id
  {
    forall id | id in AllMembers(gs) ensures exists p :: 0 <= p < |es| && es[p].id == id {
      AllMembersCovered(es, gs, id);
    }
    forall p | 0 <= p < |es| ensures es[p].id in AllMembers(gs) {
      var a := LastWithKey(gs, es[p].dlqi);
      assert gs[a] in gs;
      MembersIn(es, p);
      AllMembersHas(gs, a, es[p].id);
    }
  }

  lemma PackRowDomain(es: seq<Entry>, anchor: real, acc: map<nat, real>)
    ensures AssignAll(SortedGroups(es), anchor, acc).Keys == acc.Keys + IdsOf(es)
  {
    SortedGroupsMatch(es);
    AllMembersExactly(es, SortedGroups(es));
    var x := AssignAll(SortedGroups(es), anchor, acc);
    forall id | id in IdsOf(es) ensures exists p :: 0 <= p < |es| && es[p].id == id {
      var e :| e in es && e.id == id;
      var p :| 0 <= p < |es| && es[p] == e;
    }
  }

  lemma PackRowValues(es: seq<Entry>, anchor: real, acc: map<nat, real>)
    requires DistinctIds(es)
    ensures var x := AssignAll(SortedGroups(es), anchor, acc);
      forall p | 0 <= p < |es| ::
        es[p].id in x &&
        x[es[p].id] == anchor - CircleRadius * |Members(es, es[p].dlqi)| as real
                       + 2.0 * CircleRadius * |Members(es[..p], es[p].dlqi)| as real
  {
    SortedGroupsMatch(es);
    forall p | 0 <= p < |es|
      ensures var x := AssignAll(SortedGroups(es), anchor, acc);
        es[p].id in x &&
        x[es[p].id] == anchor - CircleRadius * |Members(es, es[p].dlqi)| as real
                       + 2.0 * CircleRadius * |Members(es[..p], es[p].dlqi)| as real
    {
      AssignAllPacks(es, SortedGroups(es), anchor, acc, p);
    }
  }

  /**
    One packing pass of setX1Position (or of setX2Position for one arm) over a row of entries: every
    entry gets a position, nothing else changes, and the i-th entry (input
    order) of a dlqi class of size n sits at anchor - r * n + 2 * r * i.
   */
  function PackRow(es: seq<Entry>, anchor: real, acc: map<nat, real>): (x: map<nat, real>)
    ensures x.Keys == acc.Keys + IdsOf(es)
    ensures forall id | id in acc && id !in IdsOf(es) :: x[id] == acc[id]
    ensures DistinctIds(es) ==> forall p | 0 <= p < |es| ::
              x[es[p].id] == anchor - CircleRadius * |Members(es, es[p].dlqi)| as real
                             + 2.0 * CircleRadius * |Members(es[..p], es[p].dlqi)| as real
  {
    PackRowDomain(es, anchor, acc);
    PackRowFrame(es, anchor, acc);
    if DistinctIds(es) then
      PackRowValues(es, anchor, acc);
      AssignAll(SortedGroups(es), anchor, acc)
    else
      AssignAll(SortedGroups(es), anchor, acc)
  }

  lemma PackRowFrame(es: seq<Entry>, anchor: real, acc: map<nat, real>)
    ensures var x := AssignAll(SortedGroups(es), anchor, acc);
      forall id | id in acc && id !in IdsOf(es) :: x[id] == acc[id]
  {
    var gs := SortedGroups(es);
    SortedGroupsMatch(es);
    forall id | id in acc && id !in IdsOf(es) ensures id !in AllMembers(gs) {
      if id in AllMembers(gs) {
        AllMembersCovered(es, gs, id);
        assert false;
      }
    }
  }

  /** An entry is listed under its own dlqi. */
  lemma {:induction false} MembersIn(es: seq<Entry>, p: nat)
    requires p < |es|
    ensures es[p].id in Members(es, es[p].dlqi)
  {
    var n := |es| - 1;
    if p < n {
      MembersIn(es[..n], p);
      assert es[..n][p] == es[p];
    }
  }

  lemma {:induction false} AllMembersHas(gs: seq<Group>, a: nat, id: nat)
    requires a < |gs| && id in gs[a].members
    ensures id in AllMembers(gs)
  {
    if a > 0 {
      AllMembersHas(gs[1..], a - 1, id);
    }
  }

  /** Any rearrangement of the grouping is still matched and covering. */
  lemma RearrangedGroupsMatch(es: seq<Entry>, hs: seq<Group>)
    requires multiset(hs) == multiset(GroupByDlqi(es))
    ensures GroupsMatch(es, hs) && Covers(es, hs)
  {
    var grouped := GroupByDlqi(es);
    forall g ensures g in hs <==> g in grouped {
      assert g in hs <==> g in multiset(hs);
    }
    GroupByDlqiMatches(es);
    forall p | 0 <= p < |es| ensures es[p].dlqi in KeysOf(hs) {
      GroupByDlqiCovers(es, p);
      var g :| g in grouped && g.dlqi == es[p].dlqi;
      assert g in hs;
    }
  }

  /** Two matched, covering group lists assign the same positions. */
  lemma SameAssignment(es: seq<Entry>, gs: seq<Group>, hs: seq<Group>, anchor: real, acc: map<nat, real>)
    requires DistinctIds(es)
    requires GroupsMatch(es, gs) && Covers(es, gs)
    requires GroupsMatch(es, hs) && Covers(es, hs)
    ensures AssignAll(gs, anchor, acc) == AssignAll(hs, anchor, acc)
  {
    var x := AssignAll(gs, anchor, acc);
    var y := AssignAll(hs, anchor, acc);
    SameDomain(es, gs, hs, anchor, acc);
    forall id | id in x ensures x[id] == y[id] {
      SameValueAt(es, gs, hs, anchor, acc, id);
    }
  }

  lemma SameDomain(es: seq<Entry>, gs: seq<Group>, hs: seq<Group>, anchor: real, acc: map<nat, real>)
    requires GroupsMatch(es, gs) && Covers(es, gs)
    requires GroupsMatch(es, hs) && Covers(es, hs)
    ensures AssignAll(gs, anchor, acc).Keys == AssignAll(hs, anchor, acc).Keys
  {
    AllMembersExactly(es, gs);
    AllMembersExactly(es, hs);
    assert forall id :: id in AllMembers(gs) <==> id in AllMembers(hs);
  }

  lemma SameValueAt(es: seq<Entry>, gs: seq<Group>, hs: seq<Group>, anchor: real, acc: map<nat, real>, id: nat)
    requires DistinctIds(es)
    requires GroupsMatch(es, gs) && Covers(es, gs)
    requires GroupsMatch(es, hs) && Covers(es, hs)
    requires id in AssignAll(gs, anchor, acc) && id in AssignAll(hs, anchor, acc)
    ensures AssignAll(gs, anchor, acc)[id] == AssignAll(hs, anchor, acc)[id]
  {
    AllMembersExactly(es, gs);
    AllMembersExactly(es, hs);
    if id in AllMembers(gs) {
      var p :| 0 <= p < |es| && es[p].id == id;
      AssignAllPacks(es, gs, anchor, acc, p);
      AssignAllPacks(es, hs, anchor, acc, p);
    }
  }

  /**
    The order of the groups does not matter: any rearrangement of the
    grouping assigns exactly what the ascending sort assigns.
   */
  lemma GroupOrderIrrelevant(es: seq<Entry>, hs: seq<Group>, anchor: real, acc: map<nat, real>)
    requires DistinctIds(es)
    requires multiset(hs) == multiset(GroupByDlqi(es))
    ensures AssignAll(hs, anchor, acc) == PackRow(es, anchor, acc)
  {
    RearrangedGroupsMatch(es, hs);
    SortedGroupsMatch(es);
    SameAssignment(es, hs, SortedGroups(es), anchor, acc);
  }

  /** An id listed by two groups of the reduce is listed by one group, once. */
  lemma ListedOnce(es: seq<Entry>, a: nat, k: nat, b: nat, l: nat)
    requires DistinctIds(es)
    requires var gs := GroupByDlqi(es);
      a < |gs| && k < |gs[a].members| && b < |gs| && l < |gs[b].members|
      && gs[a].members[k] == gs[b].members[l]
    ensures a == b && k == l
  {
    var gs := GroupByDlqi(es);
    var id := gs[a].members[k];
    var ga, gb := gs[a], gs[b];
    GroupByDlqiMatches(es);
    assert ga in gs && gb in gs;
    assert ga.members == Members(es, ga.dlqi) && gb.members == Members(es, gb.dlqi);
    assert id in ga.members && id in gb.members;
    MembersSound(es, ga.dlqi, id);
    var p :| 0 <= p < |es| && es[p].id == id && es[p].dlqi == ga.dlqi;
    MembersSound(es, gb.dlqi, id);
    var q :| 0 <= q < |es| && es[q].id == id && es[q].dlqi == gb.dlqi;
    assert p == q;
    assert DistinctKeys(gs);
    assert a == b;
    MembersDistinct(es, ga.dlqi);
    assert NoDuplicates(ga.members);
  }

  /**
    The reduce lists every entry exactly once: in exactly one group, at
    exactly one place.
   */
  lemma GroupedOnce(es: seq<Entry>)
    requires DistinctIds(es)
    ensures var gs := GroupByDlqi(es);
      && Covers(es, gs)
      && forall a, k, b, l | 0 <= a < |gs| && 0 <= k < |gs[a].members| && 0 <= b < |gs| && 0 <= l < |gs[b].members|
           && gs[a].members[k] == gs[b].members[l] :: a == b && k == l
  {
    var gs := GroupByDlqi(es);
    forall p | 0 <= p < |es| ensures es[p].dlqi in KeysOf(gs) {
      GroupByDlqiCovers(es, p);
    }
    forall a, k, b, l | 0 <= a < |gs| && 0 <= k < |gs[a].members| && 0 <= b < |gs| && 0 <= l < |gs[b].members|
      && gs[a].members[k] == gs[b].members[l]
      ensures a == b && k == l
    {
      ListedOnce(es, a, k, b, l);
    }
  }

  /** Later entries of a dlqi class have strictly more predecessors in it. */
  lemma {:induction false} RankGrows(es: seq<Entry>, p: nat, q: nat)
    requires p < q <= |es|
    ensures |Members(es[..q], es[p].dlqi)| >= |Members(es[..p], es[p].dlqi)| + 1
  {
    var key := es[p].dlqi;
    if q == p + 1 {
      assert es[..q][..p] == es[..p];
    } else {
      RankGrows(es, p, q - 1);
      assert es[..q][..q - 1] == es[..q - 1];
    }
  }

  /**
    Within one dlqi class the packed positions follow input order and are
    exactly 2 * r apart per rank: distinct, and consecutive members sit
    exactly one marker diameter apart.
   */
  lemma PackRowSpacing(es: seq<Entry>, anchor: real, acc: map<nat, real>, p: nat, q: nat)
    requires DistinctIds(es)
    requires p < q < |es| && es[p].dlqi == es[q].dlqi
    ensures var x := PackRow(es, anchor, acc);
      var key := es[p].dlqi;
      var rp := |Members(es[..p], key)|;
      var rq := |Members(es[..q], key)|;
      rq > rp && x[es[q].id] - x[es[p].id] == 2.0 * CircleRadius * (rq - rp) as real
  {
    RankGrows(es, p, q);
  }

  /** Packed centres of a group of n are symmetric about anchor - r. */
  lemma SlotSymmetry(anchor: real, n: nat, i: nat)
    requires i < n
    ensures Slot(anchor, n, i) + Slot(anchor, n, n - 1 - i) == 2.0 * (anchor - CircleRadius)
  {
  }
}
