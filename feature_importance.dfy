/** The FeatureImportance component: the importance entries sorted by signed importance,
    the three leading entries as numbered badges, and the chart's label and data columns.

    `Object.entries` of the importance map is taken as its list of (feature, importance)
    pairs in key order. */
module FeatureImportance {
  import Ranking

  type Entry = (string, real)

  const TopCount := 3

  function Importance(e: Entry): real {
    e.1
  }

  /** `Object.entries(m).sort((a, b) => b[1] - a[1])`: signed, not absolute, importance. */
  function SortedFeatures(entries: seq<Entry>): (r: seq<Entry>)
    ensures multiset(r) == multiset(entries)
    ensures |r| == |entries|
    ensures forall i, j :: 0 <= i < j < |r| ==> r[i].1 >= r[j].1
    ensures Ranking.KeepsTieOrder(r, entries, Importance)
  {
    Ranking.SortDescKeepsTieOrder(entries, Importance);
    Ranking.SortDesc(entries, Importance)
  }

  function Min(a: nat, b: nat): nat {
    if a <= b then a else b
  }

  /** `sortedFeatures.slice(0, 3)`. */
  function TopFeatures(entries: seq<Entry>): (top: seq<Entry>)
    ensures |top| == Min(TopCount, |entries|)
    ensures top == SortedFeatures(entries)[..|top|]
    ensures forall i, e :: 0 <= i < |top| && e in entries && e !in top ==> top[i].1 >= e.1
  {
    var sorted := SortedFeatures(entries);
    var top := sorted[..Min(TopCount, |sorted|)];
    forall i, e | 0 <= i < |top| && e in entries && e !in top ensures top[i].1 >= e.1 {
      assert e in multiset(sorted);
      LeftOutRanksLower(sorted, |top|, i, e);
    }
    top
  }

  /** In a list sorted by importance, an entry outside the first `n` ranks no higher than any
      entry inside them. */
  lemma LeftOutRanksLower(sorted: seq<Entry>, n: nat, i: nat, e: Entry)
    requires i < n <= |sorted|
    requires forall a, b :: 0 <= a < b < |sorted| ==> sorted[a].1 >= sorted[b].1
    requires e in sorted && e !in sorted[..n]
    ensures sorted[i].1 >= e.1
  {
    var j :| 0 <= j < |sorted| && sorted[j] == e;
    assert forall k :: 0 <= k < n ==> sorted[..n][k] == sorted[k];
    assert j >= n;
  }

  /** The chart's labels and data, one of each per sorted entry. */
  datatype Chart = Chart(labels: seq<string>, data: seq<real>)

  function ChartData(entries: seq<Entry>): (c: Chart)
    ensures |c.labels| == |c.data| == |entries|
    ensures forall i :: 0 <= i < |c.labels| ==> (c.labels[i], c.data[i]) in entries
    ensures forall i, j :: 0 <= i < j < |c.data| ==> c.data[i] >= c.data[j]
  {
    var sorted := SortedFeatures(entries);
    var c := Chart(seq(|sorted|, i requires 0 <= i < |sorted| => sorted[i].0),
                   seq(|sorted|, i requires 0 <= i < |sorted| => sorted[i].1));
    assert forall i :: 0 <= i < |sorted| ==> sorted[i] in multiset(entries);
    c
  }

  /** Zipping labels with data gives back the sorted entries: both columns come from the
      same entry at every index. */
  function Zip(labels: seq<string>, data: seq<real>): (es: seq<Entry>)
    requires |labels| == |data|
    ensures |es| == |labels|
    ensures forall i :: 0 <= i < |es| ==> es[i] == (labels[i], data[i])
  {
    if labels == [] then [] else [(labels[0], data[0])] + Zip(labels[1..], data[1..])
  }

  lemma ChartColumnsAlign(entries: seq<Entry>)
    ensures var c := ChartData(entries);
            Zip(c.labels, c.data) == SortedFeatures(entries)
  {
    var c := ChartData(entries);
    var z := Zip(c.labels, c.data);
    var s := SortedFeatures(entries);
    assert |z| == |s|;
    forall i | 0 <= i < |z| ensures z[i] == s[i] {
      assert z[i] == (s[i].0, s[i].1);
    }
  }

  datatype Badge = Badge(rank: nat, feature: string, importance: real)

  /** The badges: `index + 1`, feature and importance of each top entry. */
  function Badges(entries: seq<Entry>): (bs: seq<Badge>)
    ensures |bs| == Min(TopCount, |entries|)
    ensures forall i :: 0 <= i < |bs| ==> bs[i].rank == i + 1
    ensures forall i :: 0 <= i < |bs| ==> (bs[i].feature, bs[i].importance) == SortedFeatures(entries)[i]
  {
    var top := TopFeatures(entries);
    seq(|top|, i requires 0 <= i < |top| => Badge(i + 1, top[i].0, top[i].1))
  }

  lemma SignedImportanceExample()
    ensures SortedFeatures([("a", 0.2), ("b", -0.9), ("c", 0.5)]) == [("c", 0.5), ("a", 0.2), ("b", -0.9)]
  {
    var a, b, c := ("a", 0.2), ("b", -0.9), ("c", 0.5);
    var e: seq<Entry> := [a, b, c];
    assert e[1..] == [b, c];
    SortTwoExample();
    InsertExample();
    assert Ranking.SortDesc(e, Importance) == Ranking.Insert(a, [c, b], Importance);
  }

  lemma SortTwoExample()
    ensures Ranking.SortDesc([("b", -0.9), ("c", 0.5)], Importance) == [("c", 0.5), ("b", -0.9)]
  {
    var b, c := ("b", -0.9), ("c", 0.5);
    var bc: seq<Entry> := [b, c];
    assert bc[1..] == [c] && bc[1..][1..] == [];
    assert Ranking.SortDesc([c], Importance) == Ranking.Insert(c, [], Importance) == [c];
    assert Ranking.Insert(b, [c], Importance) == [c] + Ranking.Insert(b, [], Importance) == [c, b];
  }

  lemma InsertExample()
    ensures Ranking.Insert(("a", 0.2), [("c", 0.5), ("b", -0.9)], Importance)
            == [("c", 0.5), ("a", 0.2), ("b", -0.9)]
  {
    var a, b, c := ("a", 0.2), ("b", -0.9), ("c", 0.5);
    var cb: seq<Entry> := [c, b];
    assert cb[1..] == [b];
    assert Ranking.Insert(a, [b], Importance) == [a, b];
    assert Ranking.Insert(a, [c, b], Importance) == [c] + Ranking.Insert(a, [b], Importance);
  }
}
