/** The CorrelationMatrix component: the payload normaliser run in its effect, the ranking
    of features by the magnitude of their correlation with the target "stab", and the
    heatmap cell rule.

    The normaliser turns an untyped payload into a matrix, a per-feature vector, a feature
    list and a ranked feature list, or into one of two error messages. It first tries the
    fields `correlation_matrix` and `stab_correlations`; failing that it scans the payload's
    top-level keys in order, and the first key of each shape wins. */
module CorrelationMatrix {
  import opened JsValues
  import Ranking

  const Target := "stab"
  const ExtractFailure := "Could not extract feature information from the data"
  const ProcessingFailure := "Error processing correlation data"
  const Empty := JObj([])

  /** `ProcessedData`. */
  datatype View = View(
    matrix: Json,
    vector: Json,
    features: seq<string>,
    allFeatures: seq<string>,
    ranked: seq<string>)

  /** What the effect leaves behind: the processed data, or the error message. */
  datatype Outcome = Processed(view: View) | Failed(message: string)

  /** The matrix and vector the two paths select. */
  datatype Sources = Sources(matrix: Json, vector: Json)

  // ---------------------------------------------------------------- selection

  predicate PreferredPath(data: Json) {
    Truthy(data) && Present(Get(data, "correlation_matrix")) && Present(Get(data, "stab_correlations"))
  }

  /** `v[Object.keys(v || {})[0]]` for a non-null object-typed `v` with at least one key. */
  function FirstValue(data: Json, key: string): Option<Json> {
    var v := Get(data, key);
    if v.Some? && TypeofObject(v.value) && v.value != JNull && |Keys(v.value)| > 0
    then Get(v.value, Keys(v.value)[0])
    else None
  }

  /** The matrix test: the first value is itself object-typed (null included). */
  predicate LooksLikeMatrix(data: Json, key: string) {
    var first := FirstValue(data, key);
    first.Some? && TypeofObject(first.value)
  }

  /** The vector test: the first value is a number. */
  predicate LooksLikeVector(data: Json, key: string) {
    var first := FirstValue(data, key);
    first.Some? && first.value.JNum?
  }

  /** `keys.findIndex(p)`, with `None` for -1. */
  function FirstIndex(keys: seq<string>, p: string -> bool): (r: Option<nat>)
    ensures r.Some? ==> r.value < |keys| && p(keys[r.value])
    ensures r.Some? ==> forall j :: 0 <= j < r.value ==> !p(keys[j])
    ensures r.None? ==> forall j :: 0 <= j < |keys| ==> !p(keys[j])
  {
    if keys == [] then None
    else if p(keys[0]) then Some(0)
    else
      var rest := FirstIndex(keys[1..], p);
      if rest.Some? then Some(rest.value + 1) else None
  }

  /** `keys.find(p)` followed by the truthiness test `if (key)`: an empty key is not taken. */
  function FoundKey(keys: seq<string>, p: string -> bool): Option<string> {
    var i := FirstIndex(keys, p);
    if i.Some? && keys[i.value] != "" then Some(keys[i.value]) else None
  }

  /** The value under a key the matrix or vector test accepted. */
  function Chosen(data: Json, key: Option<string>): Json
    requires key.Some? ==> Get(data, key.value).Some?
  {
    if key.Some? then Get(data, key.value).value else Empty
  }

  /** Both paths of the normaliser's selection step (source lines 85-129). */
  function SelectSources(data: Json): Sources {
    if !Truthy(data) then Sources(Empty, Empty)
    else if PreferredPath(data) then
      Sources(Get(data, "correlation_matrix").value, Get(data, "stab_correlations").value)
    else if TypeofObject(data) then
      var keys := Keys(data);
      Sources(Chosen(data, FoundKey(keys, k => LooksLikeMatrix(data, k))),
              Chosen(data, FoundKey(keys, k => LooksLikeVector(data, k))))
    else Sources(Empty, Empty)
  }

  // ---------------------------------------------------------------- features

  /** The row the matrix-only path reads features from: the matrix's FIRST row. */
  function FirstRow(matrix: Json): Option<Json> {
    if |Keys(matrix)| > 0 && Keys(matrix)[0] != "" && Present(Get(matrix, Keys(matrix)[0]))
    then Get(matrix, Keys(matrix)[0])
    else None
  }

  /** The key list the features are read from: the vector's keys, else the first row's. */
  function FeatureSource(matrix: Json, vector: Json): seq<string> {
    if |Keys(vector)| > 0 then Keys(vector)
    else if FirstRow(matrix).Some? then Keys(FirstRow(matrix).value)
    else []
  }

  function DeriveFeatures(matrix: Json, vector: Json): (fs: seq<string>)
    ensures Target !in fs
    ensures |Keys(vector)| > 0 ==> forall f :: f in fs <==> f in Keys(vector) && f != Target
    ensures |Keys(vector)| == 0 && FirstRow(matrix).Some? ==>
              forall f :: f in fs <==> f in Keys(FirstRow(matrix).value) && f != Target
    ensures |Keys(vector)| == 0 && FirstRow(matrix).None? ==> fs == []
  {
    if |Keys(vector)| > 0 then Without(Keys(vector), Target)
    else if FirstRow(matrix).Some? then Without(Keys(FirstRow(matrix).value), Target)
    else []
  }

  /** The features keep the order of the keys they are read from. */
  lemma DeriveFeaturesKeepOrder(matrix: Json, vector: Json, i: nat, j: nat)
    requires i < j < |FeatureSource(matrix, vector)|
    requires FeatureSource(matrix, vector)[i] != Target && FeatureSource(matrix, vector)[j] != Target
    ensures exists p, q :: 0 <= p < q < |DeriveFeatures(matrix, vector)| &&
              DeriveFeatures(matrix, vector)[p] == FeatureSource(matrix, vector)[i] &&
              DeriveFeatures(matrix, vector)[q] == FeatureSource(matrix, vector)[j]
  {
    var src := FeatureSource(matrix, vector);
    assert DeriveFeatures(matrix, vector) == Without(src, Target);
    WithoutKeepsOrder(src, Target, i, j);
  }

  // ---------------------------------------------------------------- back-fill

  predicate NeedsBackFill(matrix: Json, vector: Json) {
    |Keys(vector)| == 0 && |Keys(matrix)| > 0 && Present(Get(matrix, Target))
  }

  /** `row[f] || 0`. */
  function FillValue(row: Json, f: string): Json {
    var v := Get(row, f);
    if Present(v) then v.value else JNum(0.0)
  }

  /** The vector's fields after `features.forEach(f => stabCorr[f] = row[f] || 0)`. */
  function FillFields(features: seq<string>, row: Json): seq<(string, Json)> {
    if features == [] then []
    else
      var n := |features| - 1;
      SetField(FillFields(features[..n], row), features[n], FillValue(row, features[n]))
  }

  /** One more turn of the fill loop assigns one more feature. */
  lemma FillFieldsStep(features: seq<string>, i: nat, row: Json)
    requires i < |features|
    ensures FillFields(features[..i + 1], row)
            == SetField(FillFields(features[..i], row), features[i], FillValue(row, features[i]))
  {
    assert features[..i + 1][..i] == features[..i];
  }

  /** Assigning a property to a primitive throws in strict mode; only objects and arrays take it. */
  predicate Assignable(v: Json) {
    v.JObj? || v.JArr?
  }

  function Magnitude(v: Option<Json>): (m: real)
    ensures m >= 0.0
  {
    if !Present(v) then 0.0
    else match v.value
      case JNum(n) => if n < 0.0 then -n else n
      case JBool(_) => 1.0
      case _ => 0.0
  }

  /** `[...features].sort((a, b) => Math.abs(v[b] || 0) - Math.abs(v[a] || 0))`. */
  function Rank(features: seq<string>, vector: Json): seq<string> {
    Ranking.SortDesc(features, f => Magnitude(Get(vector, f)))
  }

  // ---------------------------------------------------------------- the effect

  /** The normaliser as a function of the payload. */
  function Normalised(data: Json): Outcome {
    var src := SelectSources(data);
    var features := DeriveFeatures(src.matrix, src.vector);
    var fill := NeedsBackFill(src.matrix, src.vector);
    if fill && features != [] && !Assignable(src.vector) then Failed(ProcessingFailure)
    else
      var vector := if fill then JObj(FillFields(features, Get(src.matrix, Target).value)) else src.vector;
      if features == [] then Failed(ExtractFailure)
      else Processed(View(src.matrix, vector, features, [Target] + features, Rank(features, vector)))
  }

  /** The selection step (source lines 85-129): the preferred fields, else the key scan. */
  method Select(data: Json) returns (matrix: Json, stabCorr: Json)
    ensures Sources(matrix, stabCorr) == SelectSources(data)
  {
    matrix := Empty;
    stabCorr := Empty;
    if Truthy(data) {
      if PreferredPath(data) {
        matrix := Get(data, "correlation_matrix").value;
        stabCorr := Get(data, "stab_correlations").value;
      } else if TypeofObject(data) {
        var keys := Keys(data);
        var matrixKey := FoundKey(keys, k => LooksLikeMatrix(data, k));
        if matrixKey.Some? {
          matrix := Get(data, matrixKey.value).value;
        }
        var stabKey := FoundKey(keys, k => LooksLikeVector(data, k));
        if stabKey.Some? {
          stabCorr := Get(data, stabKey.value).value;
        }
      }
    }
  }

  /** The feature step (source lines 131-140): the vector's keys, else the first row's. */
  method ExtractFeatures(matrix: Json, stabCorr: Json) returns (features: seq<string>)
    ensures features == DeriveFeatures(matrix, stabCorr)
  {
    features := [];
    if |Keys(stabCorr)| > 0 {
      features := Without(Keys(stabCorr), Target);
    } else if |Keys(matrix)| > 0 {
      var firstKey := Keys(matrix)[0];
      if firstKey != "" && Present(Get(matrix, firstKey)) {
        features := Without(Keys(Get(matrix, firstKey).value), Target);
      }
    }
  }

  /** `stabCorr[features[i]] = value` on the vector filled so far. */
  function FillNext(features: seq<string>, i: nat, row: Json, fields: seq<(string, Json)>)
    : (next: seq<(string, Json)>)
    requires i < |features|
    requires fields == FillFields(features[..i], row)
    ensures next == FillFields(features[..i + 1], row)
  {
    FillFieldsStep(features, i, row);
    SetField(fields, features[i], FillValue(row, features[i]))
  }

  lemma FillFieldsWhole(features: seq<string>, row: Json)
    ensures FillFields(features[..|features|], row) == FillFields(features, row)
  {
    assert features[..|features|] == features;
  }

  /** The back-fill loop: `None` when the first assignment throws because the vector is a
      primitive; otherwise the filled vector. */
  method BackFill(features: seq<string>, row: Json, stabCorr: Json) returns (r: Option<Json>)
    ensures features != [] && !Assignable(stabCorr) ==> r.None?
    ensures features == [] || Assignable(stabCorr) ==> r == Some(JObj(FillFields(features, row)))
  {
    var fields: seq<(string, Json)> := [];
    var i := 0;
    while i < |features|
      invariant 0 <= i <= |features|
      invariant fields == FillFields(features[..i], row)
      invariant i > 0 ==> Assignable(stabCorr)
    {
      if !Assignable(stabCorr) {
        return None;
      }
      fields := FillNext(features, i, row, fields);
      i := i + 1;
    }
    FillFieldsWhole(features, row);
    r := Some(JObj(fields));
  }

  /** The effect body, step by step as the component runs it. */
  method Normalise(data: Json) returns (r: Outcome)
    ensures r == Normalised(data)
  {
    var matrix, stabCorr := Select(data);
    var features := ExtractFeatures(matrix, stabCorr);

    if |Keys(stabCorr)| == 0 && |Keys(matrix)| > 0 && Present(Get(matrix, Target)) {
      var filled := BackFill(features, Get(matrix, Target).value, stabCorr);
      if filled.None? {
        r := Failed(ProcessingFailure);
        return;
      }
      stabCorr := filled.value;
    }

    if |features| == 0 {
      r := Failed(ExtractFailure);
      return;
    }
    var ranked := Rank(features, stabCorr);
    r := Processed(View(matrix, stabCorr, features, [Target] + features, ranked));
  }

  // ---------------------------------------------------------------- properties

  /** With both preferred fields truthy, nothing but those two fields matters: the key scan
      does not run. */
  lemma PreferredPathIgnoresOtherKeys(d1: Json, d2: Json)
    requires PreferredPath(d1)
    requires Get(d2, "correlation_matrix") == Get(d1, "correlation_matrix")
    requires Get(d2, "stab_correlations") == Get(d1, "stab_correlations")
    ensures PreferredPath(d2)
    ensures SelectSources(d2) == SelectSources(d1)
    ensures SelectSources(d1) == Sources(Get(d1, "correlation_matrix").value, Get(d1, "stab_correlations").value)
  {
    assert d2.JObj?;
  }

  lemma FirstIndexIsUnique(keys: seq<string>, p: string -> bool, i: nat)
    requires i < |keys| && p(keys[i])
    requires forall j :: 0 <= j < i ==> !p(keys[j])
    ensures FirstIndex(keys, p) == Some(i)
  {
  }

  /** On the fallback path the matrix is the value of the first key that looks like a
      matrix: earlier keys win, and an empty first match selects nothing. */
  lemma FallbackMatrixIsFirstMatch(data: Json, i: nat)
    requires Truthy(data) && !PreferredPath(data) && TypeofObject(data)
    requires i < |Keys(data)| && LooksLikeMatrix(data, Keys(data)[i])
    requires forall j :: 0 <= j < i ==> !LooksLikeMatrix(data, Keys(data)[j])
    ensures Keys(data)[i] != "" ==> SelectSources(data).matrix == Get(data, Keys(data)[i]).value
    ensures Keys(data)[i] == "" ==> SelectSources(data).matrix == Empty
  {
    FirstIndexIsUnique(Keys(data), k => LooksLikeMatrix(data, k), i);
  }

  /** On the fallback path the vector is the value of the first key whose first value is a number. */
  lemma FallbackVectorIsFirstMatch(data: Json, i: nat)
    requires Truthy(data) && !PreferredPath(data) && TypeofObject(data)
    requires i < |Keys(data)| && LooksLikeVector(data, Keys(data)[i])
    requires forall j :: 0 <= j < i ==> !LooksLikeVector(data, Keys(data)[j])
    ensures Keys(data)[i] != "" ==> SelectSources(data).vector == Get(data, Keys(data)[i]).value
    ensures Keys(data)[i] == "" ==> SelectSources(data).vector == Empty
  {
    FirstIndexIsUnique(Keys(data), k => LooksLikeVector(data, k), i);
  }

  /** Nothing of either shape among the keys: both stay empty. */
  lemma FallbackFindsNothing(data: Json)
    requires Truthy(data) && !PreferredPath(data)
    requires forall j :: 0 <= j < |Keys(data)| ==>
               !LooksLikeMatrix(data, Keys(data)[j]) && !LooksLikeVector(data, Keys(data)[j])
    ensures SelectSources(data) == Sources(Empty, Empty)
  {
  }

  /** Every key the fill loop visits gets exactly one entry, `row[f] || 0`; no other key does. */
  lemma {:induction false} FillFieldsLookup(features: seq<string>, row: Json, f: string)
    ensures Lookup(FillFields(features, row), f)
            == if f in features then Some(FillValue(row, f)) else None
  {
    if features != [] {
      var n := |features| - 1;
      var prefix, last := features[..n], features[n];
      var before := FillFields(prefix, row);
      assert FillFields(features, row) == SetField(before, last, FillValue(row, last));
      SetFieldLookup(before, last, FillValue(row, last), f);
      LastOrPrefix(features, f);
      if f != last {
        FillFieldsLookup(prefix, row, f);
      }
    }
  }

  /** An element of a non-empty sequence is its last element or an element of the rest. */
  lemma LastOrPrefix(s: seq<string>, x: string)
    requires s != []
    ensures x in s <==> x == s[|s| - 1] || x in s[..|s| - 1]
  {
    assert s == s[..|s| - 1] + [s[|s| - 1]];
  }

  ghost predicate Distinct(s: seq<string>) {
    forall i, j :: 0 <= i < j < |s| ==> s[i] != s[j]
  }

  /** For distinct features the filled vector's keys are the features, in order. */
  lemma {:induction false} FillFieldsKeys(features: seq<string>, row: Json)
    requires Distinct(features)
    ensures FieldKeys(FillFields(features, row)) == features
  {
    if features != [] {
      var n := |features| - 1;
      var prefix, last := features[..n], features[n];
      DistinctPrefix(features);
      FillFieldsKeys(prefix, row);
      FillFieldsStep(features, n, row);
      assert features[..n + 1] == features;
      assert features == prefix + [last];
    }
  }

  /** A distinct sequence's prefix is distinct and does not hold its last element. */
  lemma DistinctPrefix(s: seq<string>)
    requires s != [] && Distinct(s)
    ensures Distinct(s[..|s| - 1]) && s[|s| - 1] !in s[..|s| - 1]
  {
    var n := |s| - 1;
    assert forall i :: 0 <= i < n ==> s[..n][i] == s[i];
  }

  /** The error outcomes, each exactly when the source reaches it. */
  lemma OutcomeCases(data: Json)
    ensures var src := SelectSources(data);
            var features := DeriveFeatures(src.matrix, src.vector);
            && (Normalised(data) == Failed(ExtractFailure) <==> features == [])
            && (Normalised(data) == Failed(ProcessingFailure) <==>
                  features != [] && NeedsBackFill(src.matrix, src.vector) && !Assignable(src.vector))
            && (Normalised(data).Processed? <==>
                  features != [] && (NeedsBackFill(src.matrix, src.vector) ==> Assignable(src.vector)))
  {
  }

  /** What a processed view holds: the derived features without the target, the target in
      front of them for display, and the ranking. */
  lemma ProcessedView(data: Json)
    requires Normalised(data).Processed?
    ensures var v := Normalised(data).view;
            var src := SelectSources(data);
            && v.matrix == src.matrix
            && v.features == DeriveFeatures(src.matrix, src.vector)
            && v.features != [] && Target !in v.features
            && v.allFeatures == [Target] + v.features
            && |v.allFeatures| == |v.features| + 1
            && multiset(v.ranked) == multiset(v.features)
            && Ranking.NonIncreasing(v.ranked, f => Magnitude(Get(v.vector, f)))
            && Ranking.KeepsTieOrder(v.ranked, v.features, f => Magnitude(Get(v.vector, f)))
  {
    var v := Normalised(data).view;
    Ranking.SortDescKeepsTieOrder(v.features, f => Magnitude(Get(v.vector, f)));
  }

  /** Without a vector but with a "stab" row, the view's vector has one entry per feature,
      `matrix["stab"][f] || 0`, and nothing else. */
  lemma BackFilledVector(data: Json, f: string)
    requires Normalised(data).Processed?
    requires var src := SelectSources(data); NeedsBackFill(src.matrix, src.vector)
    ensures var v := Normalised(data).view;
            Get(v.vector, f) ==
              if f in v.features then Some(FillValue(Get(v.matrix, Target).value, f)) else None
  {
    var src := SelectSources(data);
    var features := DeriveFeatures(src.matrix, src.vector);
    FillFieldsLookup(features, Get(src.matrix, Target).value, f);
  }

  /** With a non-empty vector, the view keeps it as it is. */
  lemma VectorKeptWhenPresent(data: Json)
    requires Normalised(data).Processed?
    requires |Keys(SelectSources(data).vector)| > 0
    ensures Normalised(data).view.vector == SelectSources(data).vector
  {
  }

  lemma EmptyPayloadFails()
    ensures Normalised(JObj([])) == Failed(ExtractFailure)
  {
    FallbackFindsNothing(JObj([]));
    assert DeriveFeatures(Empty, Empty) == [];
  }

  lemma ScalarPayloadFails()
    ensures Normalised(JObj([("foo", JNum(1.0))])) == Failed(ExtractFailure)
  {
    var data := JObj([("foo", JNum(1.0))]);
    FallbackFindsNothing(data);
  }

  // ---------------------------------------------------------------- heatmap

  /** `matrix[row][col]` when the row is truthy, `undefined` otherwise. */
  function Entry(matrix: Json, row: string, col: string): Option<Json> {
    if Present(Get(matrix, row)) then Get(Get(matrix, row).value, col) else None
  }

  /** `(matrix[row] || {})[col] || 0`; `None` when a truthy non-number reaches `toFixed`. */
  function CellValue(matrix: Json, row: string, col: string): (r: Option<real>)
    ensures !Present(Get(matrix, row)) ==> r == Some(0.0)
    ensures !Present(Entry(matrix, row, col)) ==> r == Some(0.0)
    ensures Present(Entry(matrix, row, col)) && Entry(matrix, row, col).value.JNum? ==>
              r == Some(Entry(matrix, row, col).value.n)
    ensures Present(Entry(matrix, row, col)) && !Entry(matrix, row, col).value.JNum? ==> r.None?
  {
    var rowData := Get(matrix, row);
    var v := Get(if Present(rowData) then rowData.value else Empty, col);
    if !Present(v) then Some(0.0)
    else if v.value.JNum? then Some(v.value.n)
    else None
  }

  datatype Shade = Neutral | Blue(intensity: real) | Red(intensity: real)

  datatype Cell = Cell(value: real, shade: Shade, whiteText: bool)

  function Abs(x: real): real {
    if x < 0.0 then -x else x
  }

  /** Diagonal cells are neutral, others blue for non-negative and red for negative values,
      with intensity |value| * 100; the text is white iff |value| > 0.5. */
  function HeatCell(matrix: Json, row: string, col: string): (c: Option<Cell>)
    ensures c.Some? <==> CellValue(matrix, row, col).Some?
    ensures c.Some? ==> c.value.value == CellValue(matrix, row, col).value
    ensures c.Some? ==> (c.value.shade.Neutral? <==> row == col)
    ensures c.Some? && row != col ==> (c.value.shade.Blue? <==> c.value.value >= 0.0)
    ensures c.Some? && !c.value.shade.Neutral? ==> c.value.shade.intensity == Abs(c.value.value) * 100.0
    ensures c.Some? ==> (c.value.whiteText <==> Abs(c.value.value) > 0.5)
  {
    var v := CellValue(matrix, row, col);
    if v.None? then None
    else
      var x := v.value;
      var shade := if row == col then Neutral
                   else if x >= 0.0 then Blue(Abs(x) * 100.0)
                   else Red(Abs(x) * 100.0);
      Some(Cell(x, shade, Abs(x) > 0.5))
  }

  /** The heatmap: one row per display feature, one cell per display feature in each row. */
  function Heatmap(view: View): (grid: seq<seq<Option<Cell>>>)
    ensures |grid| == |view.allFeatures|
    ensures forall i :: 0 <= i < |grid| ==> |grid[i]| == |view.allFeatures|
    ensures forall i, j :: 0 <= i < |grid| && 0 <= j < |grid[i]| ==>
              grid[i][j] == HeatCell(view.matrix, view.allFeatures[i], view.allFeatures[j])
  {
    var fs := view.allFeatures;
    seq(|fs|, i requires 0 <= i < |fs| =>
      seq(|fs|, j requires 0 <= j < |fs| => HeatCell(view.matrix, fs[i], fs[j])))
  }
}
