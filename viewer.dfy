/** The data viewer's arithmetic: the per-row net weight and bag count, the grouping of
    all entries by village with a running total of rounded bag counts, the rounded total
    shown in each group's header, and the empty-state test. */
module Viewer {
  import opened Weighment
  import opened Rounding

  /** One group of the accumulator: its entries and its running bag total. */
  datatype VillageData = VillageData(entries: seq<EntryData>, totalBags: real)

  /** The accumulated `Record<string, VillageData>`: the groups by key, and the object's
      own keys in the order they were created. */
  datatype VillageTable = VillageTable(villages: seq<string>, groups: map<string, VillageData>)

  /** Every entry has a bag weight one can divide by. */
  predicate BagWeightsNonzero(s: seq<EntryData>) {
    forall e :: e in s ==> e.bagWeight != 0.0
  }

  predicate Distinct(ks: seq<string>) {
    forall i, j :: 0 <= i < j < |ks| ==> ks[i] != ks[j]
  }

  /** Net weight as the viewer computes it: the bag weight is not subtracted. */
  function NetWeight(e: EntryData): (n: real)
    ensures n + e.emptyWeight == e.loadedWeight
  {
    e.loadedWeight - e.emptyWeight
  }

  /** The bag count a table row computes before formatting it for display: net weight
      over bag weight, unrounded, so that that many bags weigh exactly the net weight. */
  function RowBags(e: EntryData): (b: real)
    requires e.bagWeight != 0.0
    ensures b * e.bagWeight == NetWeight(e)
  {
    NetWeight(e) / e.bagWeight
  }

  /** The bag count an entry adds to its group's total: the row's count rounded to hundredths. */
  function EntryBags(e: EntryData): real
    requires e.bagWeight != 0.0
  {
    Round2(NetWeight(e) / e.bagWeight)
  }

  /** An entry's contribution to its group total is its row's count rounded to hundredths. */
  lemma EntryBagsNearRow(e: EntryData)
    requires e.bagWeight != 0.0
    ensures RowBags(e) - 0.005 < EntryBags(e) <= RowBags(e) + 0.005
    ensures OnGrid(EntryBags(e))
  {
    Round2Bounds(RowBags(e));
  }

  /** The entries of `s` whose village is exactly `v`, in their original order. */
  function Filter(s: seq<EntryData>, v: string): (r: seq<EntryData>)
    ensures BagWeightsNonzero(s) ==> BagWeightsNonzero(r)
  {
    if s == [] then
      []
    else
      var p, e := s[..|s| - 1], s[|s| - 1];
      assert forall x :: x in p ==> x in s;
      Filter(p, v) + (if e.village == v then [e] else [])
  }

  /** The sum of the rounded bag counts of `s`. */
  function SumBags(s: seq<EntryData>): real
    requires BagWeightsNonzero(s)
  {
    if s == [] then
      0.0
    else
      var p := s[..|s| - 1];
      assert forall x :: x in p ==> x in s;
      SumBags(p) + EntryBags(s[|s| - 1])
  }

  lemma SumBagsAppend(s: seq<EntryData>, e: EntryData)
    requires BagWeightsNonzero(s + [e])
    ensures BagWeightsNonzero(s)
    ensures SumBags(s + [e]) == SumBags(s) + EntryBags(e)
  {
    assert (s + [e])[..|s|] == s;
  }

  /** The sum of the unrounded row bag counts of `s`. */
  function SumRowBags(s: seq<EntryData>): real
    requires BagWeightsNonzero(s)
  {
    if s == [] then
      0.0
    else
      var p := s[..|s| - 1];
      assert forall x :: x in p ==> x in s;
      SumRowBags(p) + RowBags(s[|s| - 1])
  }

  /** The distinct villages of `s`, each where it first occurs. */
  function FirstSeen(s: seq<EntryData>): (ks: seq<string>)
    ensures Distinct(ks)
  {
    if s == [] then
      []
    else
      var p, e := s[..|s| - 1], s[|s| - 1];
      var ps := FirstSeen(p);
      assert forall i :: 0 <= i < |p| ==> p[i] == s[i];
      if e.village in ps then ps else ps + [e.village]
  }

  /** A village is among the first-seen keys exactly when some entry carries it. */
  lemma {:induction false} FirstSeenMembers(s: seq<EntryData>, v: string)
    ensures v in FirstSeen(s) <==> exists i :: 0 <= i < |s| && s[i].village == v
  {
    if s != [] {
      var p, e := s[..|s| - 1], s[|s| - 1];
      FirstSeenMembers(p, v);
      assert forall i :: 0 <= i < |p| ==> p[i] == s[i];
    }
  }

  /** The accumulator after the entries `done`: its keys are the villages of `done` in
      first-seen order, and each group holds that village's entries and their rounded total. */
  ghost predicate Accumulated(done: seq<EntryData>, villages: seq<string>, acc: map<string, VillageData>) {
    && BagWeightsNonzero(done)
    && villages == FirstSeen(done)
    && (forall v :: v in acc <==> v in villages)
    && (forall v :: v in acc ==> acc[v] == VillageData(Filter(done, v), SumBags(Filter(done, v))))
  }

  /** The reduce callback at DataViewerPage.tsx:15-27 for one entry: the entry's group is
      created (empty, total zero) only if its village has no group yet; the entry is then
      appended to it and its rounded bag count added to the total. No other group changes. */
  method AddEntry(acc: map<string, VillageData>, villages: seq<string>, entry: EntryData)
    returns (acc': map<string, VillageData>, villages': seq<string>)
    requires entry.bagWeight != 0.0
    ensures villages' == if entry.village in acc then villages else villages + [entry.village]
    ensures acc'.Keys == acc.Keys + {entry.village}
    ensures forall v :: v in acc && v != entry.village ==> acc'[v] == acc[v]
    ensures acc'[entry.village] ==
      if entry.village in acc
      then VillageData(acc[entry.village].entries + [entry], acc[entry.village].totalBags + EntryBags(entry))
      else VillageData([entry], EntryBags(entry))
  {
    acc', villages' := acc, villages;
    if entry.village !in acc' {
      acc' := acc'[entry.village := VillageData([], 0.0)];
      villages' := villages' + [entry.village];
    }
    var netWeight := NetWeight(entry);
    var bags := Round2(netWeight / entry.bagWeight);
    var group := acc'[entry.village];
    acc' := acc'[entry.village := VillageData(group.entries + [entry], group.totalBags + bags)];
  }

  /** One turn of the reduce callback keeps the accumulator in step with the entries seen. */
  lemma AccumulateStep(done: seq<EntryData>, entry: EntryData,
                       villages0: seq<string>, acc0: map<string, VillageData>,
                       villages: seq<string>, acc: map<string, VillageData>)
    requires Accumulated(done, villages0, acc0)
    requires entry.bagWeight != 0.0
    requires villages == if entry.village in acc0 then villages0 else villages0 + [entry.village]
    requires acc.Keys == acc0.Keys + {entry.village}
    requires forall v :: v in acc0 && v != entry.village ==> acc[v] == acc0[v]
    requires acc[entry.village] ==
      if entry.village in acc0
      then VillageData(acc0[entry.village].entries + [entry], acc0[entry.village].totalBags + EntryBags(entry))
      else VillageData([entry], EntryBags(entry))
    ensures Accumulated(done + [entry], villages, acc)
  {
    var next := done + [entry];
    assert BagWeightsNonzero(next);
    FilterAppend(done, entry);
    forall v | v in acc
      ensures acc[v] == VillageData(Filter(next, v), SumBags(Filter(next, v)))
    {
      if v == entry.village {
        if v !in acc0 {
          UnseenFilterEmpty(done, v);
          assert Filter(next, v) == [entry];
          SumBagsAppend([], entry);
        } else {
          assert Filter(next, v) == Filter(done, v) + [entry];
          SumBagsAppend(Filter(done, v), entry);
        }
      } else {
        assert Filter(next, v) == Filter(done, v);
      }
    }
  }

  /** `entries.reduce(callback, {})` at DataViewerPage.tsx:15-27: one pass over `entries`
      grouping them by exact village string. */
  method Aggregate(entries: seq<EntryData>) returns (table: VillageTable)
    requires BagWeightsNonzero(entries)
    ensures table.villages == FirstSeen(entries)
    ensures forall v :: v in table.groups <==> v in table.villages
    ensures forall v :: v in table.groups ==>
      table.groups[v] == VillageData(Filter(entries, v), SumBags(Filter(entries, v)))
  {
    var acc: map<string, VillageData> := map[];
    var villages: seq<string> := [];
    var i := 0;
    while i < |entries|
      invariant 0 <= i <= |entries|
      invariant Accumulated(entries[..i], villages, acc)
    {
      var entry := entries[i];
      assert entry in entries;
      ghost var done, villages0, acc0 := entries[..i], villages, acc;
      acc, villages := AddEntry(acc, villages, entry);
      assert entries[..i + 1] == done + [entry];
      AccumulateStep(done, entry, villages0, acc0, villages, acc);
      i := i + 1;
    }
    assert entries[..i] == entries;
    table := VillageTable(villages, acc);
  }

  /** The total shown in a group's header: the running total rounded once more. */
  function DisplayedTotal(g: VillageData): (t: real)
    ensures g.totalBags - 0.005 < t <= g.totalBags + 0.005
    ensures OnGrid(t)
  {
    Round2Bounds(g.totalBags);
    Round2(g.totalBags)
  }

  /** The accumulated table has no group at all: the viewer then shows its empty-state message. */
  predicate IsEmptyState(table: VillageTable) {
    |table.villages| == 0
  }

  /** One more entry: its group gains it at the end, every other group is untouched, and a
      group is created only when its village has not been seen before. */
  lemma FilterAppend(s: seq<EntryData>, e: EntryData)
    ensures forall v :: Filter(s + [e], v) == Filter(s, v) + (if e.village == v then [e] else [])
    ensures FirstSeen(s + [e]) == if e.village in FirstSeen(s) then FirstSeen(s) else FirstSeen(s) + [e.village]
  {
    assert (s + [e])[..|s|] == s;
  }

  /** Grouping distributes over concatenation, so it keeps the original relative order. */
  lemma {:induction false} FilterConcat(a: seq<EntryData>, b: seq<EntryData>, v: string)
    ensures Filter(a + b, v) == Filter(a, v) + Filter(b, v)
  {
    if b == [] {
      assert a + b == a;
    } else {
      var p, e := b[..|b| - 1], b[|b| - 1];
      assert b == p + [e];
      assert a + b == (a + p) + [e];
      FilterConcat(a, p, v);
      FilterAppend(a + p, e);
      FilterAppend(p, e);
    }
  }

  /** A group holds every occurrence of every entry of its village and nothing else. */
  lemma {:induction false} FilterCounts(s: seq<EntryData>, v: string, x: EntryData)
    ensures multiset(Filter(s, v))[x] == if x.village == v then multiset(s)[x] else 0
  {
    if s != [] {
      var p, e := s[..|s| - 1], s[|s| - 1];
      assert s == p + [e];
      FilterCounts(p, v, x);
      FilterAppend(p, e);
    }
  }

  /** Every entry lands in exactly one group, the one keyed by its own village. */
  lemma EveryEntryInOneGroup(s: seq<EntryData>, j: int)
    requires 0 <= j < |s|
    ensures s[j].village in FirstSeen(s)
    ensures s[j] in Filter(s, s[j].village)
    ensures forall w :: w != s[j].village ==> s[j] !in Filter(s, w)
  {
    var v := s[j].village;
    FirstSeenMembers(s, v);
    FilterCounts(s, v, s[j]);
    assert s[j] in multiset(s);
    assert multiset(Filter(s, v))[s[j]] > 0;
    forall w | w != v
      ensures s[j] !in Filter(s, w)
    {
      FilterCounts(s, w, s[j]);
    }
  }

  /** A village that does not occur has an empty group. */
  lemma {:induction false} UnseenFilterEmpty(s: seq<EntryData>, v: string)
    requires v !in FirstSeen(s)
    ensures Filter(s, v) == []
  {
    if s != [] {
      var p, e := s[..|s| - 1], s[|s| - 1];
      assert s == p + [e];
      FilterAppend(p, e);
      UnseenFilterEmpty(p, v);
    }
  }

  /** The sum of the sizes of the groups keyed by `ks`. */
  function SumSizes(ks: seq<string>, s: seq<EntryData>): int {
    if ks == [] then 0 else SumSizes(ks[..|ks| - 1], s) + |Filter(s, ks[|ks| - 1])|
  }

  /** The sum of the totals of the groups keyed by `ks`. */
  function SumTotals(ks: seq<string>, s: seq<EntryData>): real
    requires BagWeightsNonzero(s)
  {
    if ks == [] then 0.0 else SumTotals(ks[..|ks| - 1], s) + SumBags(Filter(s, ks[|ks| - 1]))
  }

  lemma {:induction false} SumSizesAppend(ks: seq<string>, s: seq<EntryData>, e: EntryData)
    requires Distinct(ks)
    ensures SumSizes(ks, s + [e]) == SumSizes(ks, s) + (if e.village in ks then 1 else 0)
  {
    FilterAppend(s, e);
    if ks != [] {
      var q := ks[..|ks| - 1];
      assert ks == q + [ks[|ks| - 1]];
      SumSizesAppend(q, s, e);
    }
  }

  lemma {:induction false} SumTotalsAppend(ks: seq<string>, s: seq<EntryData>, e: EntryData)
    requires Distinct(ks)
    requires BagWeightsNonzero(s + [e])
    ensures BagWeightsNonzero(s)
    ensures SumTotals(ks, s + [e]) == SumTotals(ks, s) + (if e.village in ks then EntryBags(e) else 0.0)
  {
    assert forall x :: x in s ==> x in s + [e];
    if ks != [] {
      var q, k := ks[..|ks| - 1], ks[|ks| - 1];
      assert ks == q + [k];
      SumTotalsAppend(q, s, e);
      FilterAppend(s, e);
      var f := Filter(s, k);
      if e.village == k {
        assert Filter(s + [e], k) == f + [e];
        SumBagsAppend(f, e);
        assert SumBags(Filter(s + [e], k)) == SumBags(f) + EntryBags(e);
        assert e.village !in q;
      } else {
        assert Filter(s + [e], k) == f;
      }
    }
  }

  /** The group sizes add up to the number of entries. */
  lemma {:induction false} GroupSizesSum(s: seq<EntryData>)
    ensures SumSizes(FirstSeen(s), s) == |s|
  {
    if s != [] {
      var p, e := s[..|s| - 1], s[|s| - 1];
      assert s == p + [e];
      var ks := FirstSeen(p);
      GroupSizesSum(p);
      SumSizesAppend(ks, p, e);
      FilterAppend(p, e);
      if e.village !in ks {
        assert (ks + [e.village])[..|ks|] == ks;
        UnseenFilterEmpty(p, e.village);
      }
    }
  }

  /** The group a new village opens adds exactly that entry's rounded bag count. */
  lemma NewGroupTotal(p: seq<EntryData>, e: EntryData)
    requires BagWeightsNonzero(p + [e])
    requires e.village !in FirstSeen(p)
    ensures BagWeightsNonzero(p)
    ensures SumTotals(FirstSeen(p) + [e.village], p + [e]) == SumTotals(FirstSeen(p), p + [e]) + EntryBags(e)
  {
    var ks, v := FirstSeen(p), e.village;
    assert forall x :: x in p ==> x in p + [e];
    assert (ks + [v])[..|ks|] == ks;
    UnseenFilterEmpty(p, v);
    FilterAppend(p, e);
    assert Filter(p + [e], v) == [] + [e];
    SumBagsAppend([], e);
  }

  /** The group totals add up to the sum of all entries' rounded bag counts. */
  lemma {:induction false} GroupTotalsSum(s: seq<EntryData>)
    requires BagWeightsNonzero(s)
    ensures SumTotals(FirstSeen(s), s) == SumBags(s)
  {
    if s != [] {
      var p, e := s[..|s| - 1], s[|s| - 1];
      assert s == p + [e];
      var ks := FirstSeen(p);
      SumTotalsAppend(ks, p, e);
      GroupTotalsSum(p);
      SumBagsAppend(p, e);
      if e.village !in ks {
        NewGroupTotal(p, e);
      }
    }
  }

  /** A sum of rounded bag counts is on the 0.01 grid. */
  lemma {:induction false} SumBagsOnGrid(s: seq<EntryData>)
    requires BagWeightsNonzero(s)
    ensures OnGrid(SumBags(s))
  {
    if s == [] {
      assert 0.0 * 100.0 == 0.0;
    } else {
      var p := s[..|s| - 1];
      assert forall x :: x in p ==> x in s;
      SumBagsOnGrid(p);
      OnGridAdd(SumBags(p), EntryBags(s[|s| - 1]));
    }
  }

  /** Over exact reals the header's second rounding changes nothing: the displayed total
      is the sum of the rounded per-entry bag counts. */
  lemma DisplayedTotalOfGroup(s: seq<EntryData>, v: string)
    requires BagWeightsNonzero(s)
    ensures BagWeightsNonzero(Filter(s, v))
    ensures DisplayedTotal(VillageData(Filter(s, v), SumBags(Filter(s, v)))) == SumBags(Filter(s, v))
  {
    SumBagsOnGrid(Filter(s, v));
    Round2OfGrid(SumBags(Filter(s, v)));
  }

  /** The rounded total of a group stays within half a hundredth per entry of the sum of
      the unrounded counts its rows compute (the rows format theirs only for display). */
  lemma {:induction false} RoundedTotalNearRowSum(s: seq<EntryData>)
    requires BagWeightsNonzero(s)
    ensures SumRowBags(s) - 0.005 * |s| as real < SumBags(s) || s == []
    ensures SumBags(s) <= SumRowBags(s) + 0.005 * |s| as real
  {
    if s != [] {
      var p := s[..|s| - 1];
      assert forall x :: x in p ==> x in s;
      RoundedTotalNearRowSum(p);
    }
  }

  /** The viewer shows its empty state exactly when there are no entries. */
  lemma EmptyStateIffNoEntries(entries: seq<EntryData>, table: VillageTable)
    requires table.villages == FirstSeen(entries)
    ensures IsEmptyState(table) <==> entries == []
  {
    if entries != [] {
      FirstSeenMembers(entries, entries[0].village);
    }
  }

  /** One entry of 1000 kg loaded, 800 kg empty, 40 kg bags: net 200 kg, 5 bags, total 5. */
  lemma SingleEntryExample()
    ensures var e := EntryData("Alpha", "AB1", 1000.0, 800.0, 40.0);
      && NetWeight(e) == 200.0 && RowBags(e) == 5.0 && EntryBags(e) == 5.0
      && Filter([e], "Alpha") == [e] && SumBags([e]) == 5.0
      && DisplayedTotal(VillageData([e], SumBags([e]))) == 5.0
  {
    var e := EntryData("Alpha", "AB1", 1000.0, 800.0, 40.0);
    assert RowBags(e) == 5.0;
    assert Round(5.0 * 100.0) == 500 by { RoundOfInteger(500); }
    SumBagsAppend([], e);
    assert [] + [e] == [e];
    Round2OfGrid(5.0);
  }

  /** Two entries of one village with 3 and 2.5 bags: the group total is 5.5. */
  lemma TwoEntryExample()
    ensures var e1, e2 := EntryData("Beta", "B1", 1120.0, 1000.0, 40.0), EntryData("Beta", "B2", 1100.0, 1000.0, 40.0);
      && EntryBags(e1) == 3.0 && EntryBags(e2) == 2.5
      && SumBags(Filter([e1, e2], "Beta")) == 5.5
      && DisplayedTotal(VillageData(Filter([e1, e2], "Beta"), 5.5)) == 5.5
  {
    var e1, e2 := EntryData("Beta", "B1", 1120.0, 1000.0, 40.0), EntryData("Beta", "B2", 1100.0, 1000.0, 40.0);
    assert EntryBags(e1) == 3.0 by {
      assert RowBags(e1) == 3.0;
      RoundOfInteger(300);
    }
    assert EntryBags(e2) == 2.5 by {
      assert RowBags(e2) == 2.5;
      RoundOfInteger(250);
    }
    assert Filter([e1, e2], "Beta") == [e1, e2] by {
      FilterAppend([e1], e2);
      FilterAppend([], e1);
      assert [e1, e2] == [e1] + [e2] && [e1] == [] + [e1];
    }
    assert SumBags([e1, e2]) == 5.5 by {
      assert [e1, e2] == [e1] + [e2] && [e1] == [] + [e1];
      SumBagsAppend([e1], e2);
      SumBagsAppend([], e1);
    }
    assert Round2(5.5) == 5.5 by {
      assert OnGrid(5.5) by { assert 5.5 * 100.0 == 550 as real; }
      Round2OfGrid(5.5);
    }
  }

  /** Village names are compared exactly: a change of case or a trailing space makes a new group. */
  lemma ExactVillageKeys()
    ensures var s := [EntryData("Alpha", "A1", 10.0, 0.0, 1.0), EntryData("alpha", "A2", 10.0, 0.0, 1.0),
                      EntryData("Alpha ", "A3", 10.0, 0.0, 1.0)];
      && FirstSeen(s) == ["Alpha", "alpha", "Alpha "]
      && Filter(s, "Alpha") == [s[0]]
  {
    var s := [EntryData("Alpha", "A1", 10.0, 0.0, 1.0), EntryData("alpha", "A2", 10.0, 0.0, 1.0),
              EntryData("Alpha ", "A3", 10.0, 0.0, 1.0)];
    assert "Alpha" != "alpha" && "Alpha" != "Alpha " && "alpha" != "Alpha ";
    FilterAppend([], s[0]);
    assert [] + [s[0]] == [s[0]];
    FilterAppend([s[0]], s[1]);
    assert [s[0]] + [s[1]] == s[..2];
    FilterAppend(s[..2], s[2]);
    assert s[..2] + [s[2]] == s;
  }
}
