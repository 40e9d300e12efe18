/** Classification reports, as the ModelPerformance component shows one and as the Dashboard
    and ModelComparison components chart several side by side.

    A report maps class names, plus the reserved keys "accuracy", "macro avg" and
    "weighted avg", to metric rows (or, for "accuracy", to a bare score). It is kept as a list
    of entries in key order. */
module Reports {
  import opened JsValues
  import ModelNames

  datatype Metrics = Metrics(precision: real, recall: real, f1: real, support: real)

  datatype ReportValue = ClassRow(metrics: Metrics) | Score(value: real)

  type Report = seq<(string, ReportValue)>

  const Reserved: seq<string> := ["accuracy", "macro avg", "weighted avg"]

  /** `report[k]`, the first entry under `k`. */
  function Find(report: Report, k: string): (r: Option<ReportValue>)
    ensures r.Some? <==> k in FieldKeys(report)
    ensures r.Some? ==> (k, r.value) in report
  {
    if report == [] then None
    else if report[0].0 == k then Some(report[0].1)
    else Find(report[1..], k)
  }

  /** `Object.keys(report).filter(key => !reserved.includes(key))`. */
  function ClassNames(report: Report): (names: seq<string>)
    ensures forall n :: n in names <==> n in FieldKeys(report) && n !in Reserved
    ensures |names| <= |report|
  {
    Without(Without(Without(FieldKeys(report), "accuracy"), "macro avg"), "weighted avg")
  }

  /** Class names keep the report's key order. */
  lemma ClassNamesKeepOrder(report: Report, i: nat, j: nat)
    requires i < j < |report|
    requires report[i].0 !in Reserved && report[j].0 !in Reserved
    ensures exists p, q :: 0 <= p < q < |ClassNames(report)| &&
              ClassNames(report)[p] == report[i].0 && ClassNames(report)[q] == report[j].0
  {
    var k0 := FieldKeys(report);
    assert k0[i] == report[i].0 && k0[j] == report[j].0;
    WithoutKeepsOrder(k0, "accuracy", i, j);
    var k1 := Without(k0, "accuracy");
    var p1, q1 :| 0 <= p1 < q1 < |k1| && k1[p1] == report[i].0 && k1[q1] == report[j].0;
    WithoutKeepsOrder(k1, "macro avg", p1, q1);
    var k2 := Without(k1, "macro avg");
    var p2, q2 :| 0 <= p2 < q2 < |k2| && k2[p2] == report[i].0 && k2[q2] == report[j].0;
    WithoutKeepsOrder(k2, "weighted avg", p2, q2);
    var k3 := Without(k2, "weighted avg");
    assert k3 == ClassNames(report);
    var p3, q3 :| 0 <= p3 < q3 < |k3| && k3[p3] == report[i].0 && k3[q3] == report[j].0;
  }

  // ---------------------------------------------------------------- one report

  datatype Metric = Precision | Recall | F1 | Support

  function Field(m: Metrics, which: Metric): real {
    match which
    case Precision => m.precision
    case Recall => m.recall
    case F1 => m.f1
    case Support => m.support
  }

  /** `report[cls][metric]`, `None` when that is `undefined` (no row, or a bare score). */
  function Value(report: Report, cls: string, which: Metric): Option<real> {
    match Find(report, cls)
    case Some(ClassRow(m)) => Some(Field(m, which))
    case _ => None
  }

  /** `classNames.map(cls => report[cls][metric])`: one value per class, in class order,
      and every class that has a metric row contributes a value. */
  function MetricSeries(report: Report, which: Metric): (data: seq<Option<real>>)
    ensures |data| == |ClassNames(report)|
    ensures forall i :: 0 <= i < |data| ==> data[i] == Value(report, ClassNames(report)[i], which)
    ensures forall i :: 0 <= i < |data| ==> (data[i].Some? <==> Find(report, ClassNames(report)[i]).value.ClassRow?)
  {
    var names := ClassNames(report);
    seq(|names|, i requires 0 <= i < |names| => Value(report, names[i], which))
  }

  /** Hue of slice `i` of `count`: `i * 360 / count`. */
  function Hue(i: nat, count: nat): real
    requires count > 0
  {
    (i as real) * 360.0 / (count as real)
  }

  /** `generateColorScale(count)`, as its hues. */
  function ColorScale(count: nat): (hues: seq<real>)
    ensures |hues| == count
    ensures forall i :: 0 <= i < count ==> hues[i] == Hue(i, count)
    ensures forall i :: 0 <= i < count ==> 0.0 <= hues[i] < 360.0
    ensures forall i, j :: 0 <= i < j < count ==> hues[i] < hues[j]
  {
    var hues := seq(count, i requires 0 <= i < count => Hue(i, count));
    forall i | 0 <= i < count ensures 0.0 <= hues[i] < 360.0 {
      HueBounds(i, count);
    }
    forall i, j | 0 <= i < j < count ensures hues[i] < hues[j] {
      HueIncreases(i, j, count);
    }
    hues
  }

  lemma HueBounds(i: nat, count: nat)
    requires i < count
    ensures 0.0 <= Hue(i, count) < 360.0
  {
    var c := count as real;
    assert (i as real) * 360.0 < c * 360.0;
    assert Hue(i, count) * c == (i as real) * 360.0;
  }

  lemma HueIncreases(i: nat, j: nat, count: nat)
    requires i < j < count
    ensures Hue(i, count) < Hue(j, count)
  {
    var c := count as real;
    assert Hue(i, count) * c == (i as real) * 360.0;
    assert Hue(j, count) * c == (j as real) * 360.0;
    assert (i as real) * 360.0 < (j as real) * 360.0;
  }

  /** The support chart colours slice `idx` with `classColors[idx]`. */
  function SupportColours(report: Report): (hues: seq<real>)
    ensures |hues| == |ClassNames(report)|
    ensures forall idx :: 0 <= idx < |hues| ==> hues[idx] == Hue(idx, |ClassNames(report)|)
  {
    var n := |ClassNames(report)|;
    var scale := ColorScale(n);
    seq(n, idx requires 0 <= idx < n => scale[idx])
  }

  /** The sample count under the accuracy badge: `report['macro avg'].support`; `None` when
      there is no such row and the render throws. */
  function SampleCount(report: Report): Option<real> {
    Value(report, "macro avg", Support)
  }

  /** The two rows under the class rows of the detailed table. */
  function AverageRows(report: Report): Option<(Metrics, Metrics)> {
    match (Find(report, "macro avg"), Find(report, "weighted avg"))
    case (Some(ClassRow(macro)), Some(ClassRow(weighted))) => Some((macro, weighted))
    case _ => None
  }

  /** The sample count and the average rows read nothing but the two reserved rows. */
  lemma AveragesReadOnlyReservedRows(r1: Report, r2: Report)
    requires Find(r1, "macro avg") == Find(r2, "macro avg")
    requires Find(r1, "weighted avg") == Find(r2, "weighted avg")
    ensures SampleCount(r1) == SampleCount(r2)
    ensures AverageRows(r1) == AverageRows(r2)
  {
  }

  /** With both average rows present, the sample count is the macro-average row's support. */
  lemma SampleCountIsMacroSupport(report: Report)
    requires AverageRows(report).Some?
    ensures SampleCount(report) == Some(AverageRows(report).value.0.support)
  {
  }

  // ---------------------------------------------------------------- comparison chart

  datatype ModelResult = ModelResult(accuracy: real, report: Report)

  /** `model_comparison`, in key order. */
  type Comparison = seq<(string, ModelResult)>

  const Palette: seq<string> := [
    "rgba(53, 162, 235, 0.7)",
    "rgba(75, 192, 192, 0.7)",
    "rgba(153, 102, 255, 0.7)",
    "rgba(255, 159, 64, 0.7)",
    "rgba(255, 99, 132, 0.7)"]
  const AccuracyColour := "rgba(54, 162, 235, 0.7)"
  const AccuracyLabel := "Accuracy"
  const F1Prefix := "F1 Score - "

  datatype Series = Series(title: string, data: seq<real>, colour: string)

  datatype ChartOutcome =
    | NoChart                                           // no comparison data yet: `null`
    | Throws                                            // no model: `firstModel` is undefined
    | Built(labels: seq<string>, datasets: seq<Series>)

  /** `report[cls]?.['f1-score'] * 100 || 0`. */
  function F1Percent(report: Report, cls: string): (p: real)
    ensures Value(report, cls, F1).None? ==> p == 0.0
    ensures Value(report, cls, F1).Some? ==> p == Value(report, cls, F1).value * 100.0
  {
    match Value(report, cls, F1)
    case Some(f1) => f1 * 100.0
    case None => 0.0
  }

  /** The F1 series of one class across all models. */
  function ClassSeries(models: Comparison, cls: string, index: nat): (s: Series)
    ensures s.title == F1Prefix + cls
    ensures |s.data| == |models|
    ensures forall m :: 0 <= m < |models| ==> s.data[m] == F1Percent(models[m].1.report, cls)
    ensures s.colour == Palette[index % |Palette|]
  {
    Series(F1Prefix + cls,
           seq(|models|, m requires 0 <= m < |models| => F1Percent(models[m].1.report, cls)),
           Palette[index % |Palette|])
  }

  /** `getComparisonChartData`: the class series of the first model's classes, then the
      accuracy series put in front of them with `unshift`. */
  method ComparisonChartData(data: Option<Comparison>) returns (r: ChartOutcome)
    ensures r.NoChart? <==> data.None?
    ensures r.Throws? <==> data == Some([])
    ensures r.Built? ==>
              var models := data.value;
              var classes := ClassNames(models[0].1.report);
              && |r.labels| == |models|
              && (forall i :: 0 <= i < |models| ==> r.labels[i] == ModelNames.FormatModelName(models[i].0))
              && |r.datasets| == |classes| + 1
              && r.datasets[0].title == AccuracyLabel
              && r.datasets[0].colour == AccuracyColour
              && |r.datasets[0].data| == |models|
              && (forall i :: 0 <= i < |models| ==> r.datasets[0].data[i] == models[i].1.accuracy * 100.0)
              && (forall c :: 1 <= c < |r.datasets| ==> r.datasets[c] == ClassSeries(models, classes[c - 1], c - 1))
  {
    if data.None? {
      return NoChart;
    }
    var models := data.value;
    var labels := seq(|models|, i requires 0 <= i < |models| => ModelNames.FormatModelName(models[i].0));
    var accuracyData := seq(|models|, i requires 0 <= i < |models| => models[i].1.accuracy * 100.0);
    if models == [] {
      return Throws;
    }
    var classNames := ClassNames(models[0].1.report);
    var classSeries := seq(|classNames|, c requires 0 <= c < |classNames| => ClassSeries(models, classNames[c], c));
    var datasets := [Series(AccuracyLabel, accuracyData, AccuracyColour)] + classSeries;
    AccuracyGoesFirst(models, classNames, accuracyData, classSeries);
    r := Built(labels, datasets);
  }

  /** `unshift` of the accuracy series moves the class series one place back. */
  lemma AccuracyGoesFirst(models: Comparison, classes: seq<string>, accuracy: seq<real>, series: seq<Series>)
    requires |series| == |classes|
    requires forall c :: 0 <= c < |classes| ==> series[c] == ClassSeries(models, classes[c], c)
    ensures var ds := [Series(AccuracyLabel, accuracy, AccuracyColour)] + series;
            forall c :: 1 <= c < |ds| ==> ds[c] == ClassSeries(models, classes[c - 1], c - 1)
  {
    var ds := [Series(AccuracyLabel, accuracy, AccuracyColour)] + series;
    forall c | 1 <= c < |ds| ensures ds[c] == ClassSeries(models, classes[c - 1], c - 1) {
      assert ds[c] == series[c - 1];
    }
  }

  /** No class series carries the accuracy label: the accuracy series is the only one. */
  lemma ClassSeriesNeverAccuracy(models: Comparison, cls: string, index: nat)
    ensures ClassSeries(models, cls, index).title != AccuracyLabel
  {
    var title := ClassSeries(models, cls, index).title;
    assert title[0] == 'F';
  }

  /** The palette repeats every five classes. */
  lemma PaletteCycles(models: Comparison, cls: string, index: nat)
    ensures ClassSeries(models, cls, index).colour == ClassSeries(models, cls, index + 5).colour
  {
  }
}
