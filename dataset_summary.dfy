/** The DatasetSummary component: the Features tile, the feature-column list and its badge,
    and the target-class section with its proportion bars. */
module DatasetSummary {
  import opened JsValues

  /** `columns.filter(col => col !== 'stabf' && col !== 'stab')`. */
  function FeatureColumns(columns: seq<string>): (fs: seq<string>)
    ensures forall c :: c in fs <==> c in columns && c != "stabf" && c != "stab"
    ensures |fs| <= |columns|
  {
    Without(Without(columns, "stabf"), "stab")
  }

  /** The listed features keep the order of `columns`. */
  lemma FeatureColumnsKeepOrder(columns: seq<string>, i: nat, j: nat)
    requires i < j < |columns|
    requires columns[i] !in {"stabf", "stab"} && columns[j] !in {"stabf", "stab"}
    ensures exists p, q :: 0 <= p < q < |FeatureColumns(columns)| &&
              FeatureColumns(columns)[p] == columns[i] && FeatureColumns(columns)[q] == columns[j]
  {
    WithoutKeepsOrder(columns, "stabf", i, j);
    var w := Without(columns, "stabf");
    var p, q :| 0 <= p < q < |w| && w[p] == columns[i] && w[q] == columns[j];
    WithoutKeepsOrder(w, "stab", p, q);
    var fs := Without(w, "stab");
    assert fs == FeatureColumns(columns);
    var p', q' :| 0 <= p' < q' < |fs| && fs[p'] == columns[i] && fs[q'] == columns[j];
    assert 0 <= p' < q' < |FeatureColumns(columns)| && FeatureColumns(columns)[p'] == columns[i];
  }

  /** The badge over the list: `columns?.filter(...).length`, nothing when `columns` is absent. */
  function FeatureBadge(columns: Option<seq<string>>): (n: Option<nat>)
    ensures n.Some? <==> columns.Some?
    ensures columns.Some? ==> n.value == |FeatureColumns(columns.value)|
  {
    match columns
    case None => None
    case Some(cs) => Some(|FeatureColumns(cs)|)
  }

  lemma {:induction false} WithoutLength(s: seq<string>, drop: string)
    ensures |Without(s, drop)| == |s| - multiset(s)[drop]
  {
    if s != [] {
      WithoutLength(s[1..], drop);
      assert s == [s[0]] + s[1..];
      assert multiset(s) == multiset{s[0]} + multiset(s[1..]);
    }
  }

  // ---------------------------------------------------------------- the Features tile

  /** The tile as written, `num_columns||0 - 2`: the subtraction binds first, so this is
      `num_columns || -2`. An absent or zero count shows -2; any other count shows itself. */
  function FeaturesTileAsWritten(numColumns: Option<real>): real {
    if numColumns.Some? && numColumns.value != 0.0 then numColumns.value else -2.0
  }

  /** The tile as evidently intended, `(num_columns || 0) - 2`. */
  function FeaturesTile(numColumns: Option<real>): real {
    (if numColumns.Some? then numColumns.value else 0.0) - 2.0
  }

  /** A 14-column dataset (12 features and the two targets) shows 14 features, not 12. */
  lemma FeaturesTileAsWrittenCountsTargets()
    ensures FeaturesTileAsWritten(Some(14.0)) == 14.0
    ensures FeaturesTile(Some(14.0)) == 12.0
  {
  }

  /** As written, a non-zero count is shown unchanged: the two targets are never taken off. */
  lemma FeaturesTileAsWrittenNeverSubtracts(n: real)
    requires n != 0.0
    ensures FeaturesTileAsWritten(Some(n)) == n
    ensures FeaturesTileAsWritten(Some(n)) != n - 2.0
  {
  }

  /** Corrected, the tile agrees with the feature list when the dataset's columns hold each
      target once and `num_columns` counts them. */
  lemma FeaturesTileMatchesList(columns: seq<string>)
    requires multiset(columns)["stabf"] == 1 && multiset(columns)["stab"] == 1
    ensures FeaturesTile(Some(|columns| as real)) == |FeatureColumns(columns)| as real
  {
    var w := Without(columns, "stabf");
    WithoutLength(columns, "stabf");
    WithoutLength(w, "stab");
    WithoutCount(columns, "stabf", "stab");
  }

  lemma {:induction false} WithoutCount(s: seq<string>, drop: string, x: string)
    requires x != drop
    ensures multiset(Without(s, drop))[x] == multiset(s)[x]
  {
    if s != [] {
      WithoutCount(s[1..], drop, x);
      assert s == [s[0]] + s[1..];
    }
  }

  // ---------------------------------------------------------------- target classes

  type Distribution = seq<(string, real)>

  /** `Object.values(dist).reduce((a, b) => a + b, 0)`. */
  function Total(dist: Distribution): real {
    if dist == [] then 0.0 else dist[0].1 + Total(dist[1..])
  }

  datatype ClassBar = ClassBar(name: string, count: real, width: Option<real>)

  /** `count / total * 100`; with a zero total the width is not a number. */
  function Width(count: real, total: real): (w: Option<real>)
    ensures w.None? <==> total == 0.0
    ensures w.Some? ==> w.value * total == count * 100.0
  {
    if total == 0.0 then None else Some(count / total * 100.0)
  }

  /** One bar per class, in key order. */
  function Bars(d: Distribution, total: real): (bars: seq<ClassBar>)
    ensures |bars| == |d|
    ensures forall i :: 0 <= i < |d| ==> bars[i] == ClassBar(d[i].0, d[i].1, Width(d[i].1, total))
  {
    if d == [] then [] else [ClassBar(d[0].0, d[0].1, Width(d[0].1, total))] + Bars(d[1..], total)
  }

  /** The Target Classes section: shown only for a present, non-empty distribution, with one
      bar per class (the badge count). */
  function ClassSection(dist: Option<Distribution>): (bars: Option<seq<ClassBar>>)
    ensures bars.Some? <==> dist.Some? && |dist.value| > 0
    ensures bars.Some? ==> bars.value == Bars(dist.value, Total(dist.value))
  {
    if dist.None? || |dist.value| == 0 then None
    else Some(Bars(dist.value, Total(dist.value)))
  }

  function SumWidths(bars: seq<ClassBar>): real
    requires forall i :: 0 <= i < |bars| ==> bars[i].width.Some?
  {
    if bars == [] then 0.0 else bars[0].width.value + SumWidths(bars[1..])
  }

  lemma {:induction false} SumOfShares(d: Distribution, total: real)
    requires total != 0.0
    ensures SumWidths(Bars(d, total)) * total == Total(d) * 100.0
  {
    if d != [] {
      SumOfShares(d[1..], total);
      var bars := Bars(d, total);
      assert bars[1..] == Bars(d[1..], total);
      assert bars[0].width.value * total == d[0].1 * 100.0;
      assert SumWidths(bars) * total == bars[0].width.value * total + SumWidths(bars[1..]) * total;
    }
  }

  lemma Cancel(a: real, b: real, t: real)
    requires t > 0.0 && a * t == b * t
    ensures a == b
  {
  }

  /** With a positive total every bar has a width, and the widths add up to 100. */
  lemma WidthsSumToHundred(dist: Distribution)
    requires Total(dist) > 0.0
    ensures var bars := Bars(dist, Total(dist));
            (forall i :: 0 <= i < |bars| ==> bars[i].width.Some?) && SumWidths(bars) == 100.0
  {
    var total := Total(dist);
    SumOfShares(dist, total);
    Cancel(SumWidths(Bars(dist, total)), 100.0, total);
  }
}
