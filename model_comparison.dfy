/** The ModelComparison component: the performance fetch guard, the model-switch and compare
    handlers (split at their `await` as in the Dashboard module), and the accuracy table. */
module ModelComparison {
  import opened JsValues
  import opened Responses
  import Ranking
  import ModelNames
  import Reports

  const PerformanceFailed := "Failed to load model performance metrics"
  const SwitchModelFailed := "Failed to switch model"
  const UnknownError := "An unknown error occurred"
  const CompareFailed := "Failed to compare models"
  const PerformanceTab := "performance"
  const ComparisonTab := "comparison"

  /** The performance effect returns at once when `currentModel` is falsy. */
  predicate FetchesPerformance(currentModel: string) {
    currentModel != ""
  }

  class ComparisonState {
    var currentModel: string
    var modelPerformance: Option<Reports.ModelResult>
    var comparisonData: Option<Reports.Comparison>
    var loading: bool
    var switchingModel: bool
    var error: string
    var activeTab: string

    constructor ()
      ensures currentModel == "" && modelPerformance.None? && comparisonData.None?
      ensures loading && !switchingModel && error == "" && activeTab == PerformanceTab
    {
      currentModel := "";
      modelPerformance := None;
      comparisonData := None;
      loading := true;
      switchingModel := false;
      error := "";
      activeTab := PerformanceTab;
    }

    /** The performance effect up to its `fetch`: nothing at all without a current model. */
    method StartFetchPerformance() returns (fetching: bool)
      modifies this
      ensures fetching <==> FetchesPerformance(currentModel)
      ensures !fetching ==> unchanged(this)
      ensures fetching ==> loading
      ensures currentModel == old(currentModel) && modelPerformance == old(modelPerformance)
      ensures comparisonData == old(comparisonData) && switchingModel == old(switchingModel)
      ensures error == old(error) && activeTab == old(activeTab)
    {
      if currentModel == "" {
        return false;
      }
      loading := true;
      fetching := true;
    }

    /** The rest of the performance effect: any failure gives the one fixed message. */
    method FinishFetchPerformance(outcome: Response<Reports.ModelResult>)
      modifies this
      ensures !loading
      ensures outcome.Ok? ==> modelPerformance == Some(outcome.body) && error == old(error)
      ensures !outcome.Ok? ==> modelPerformance == old(modelPerformance) && error == PerformanceFailed
      ensures currentModel == old(currentModel) && comparisonData == old(comparisonData)
      ensures switchingModel == old(switchingModel) && activeTab == old(activeTab)
    {
      if outcome.Ok? {
        modelPerformance := Some(outcome.body);
      } else {
        error := PerformanceFailed;
      }
      loading := false;
    }

    /** `handleModelChange` up to its `fetch`: the error is cleared. */
    method StartModelChange()
      modifies this
      ensures switchingModel && error == ""
      ensures currentModel == old(currentModel) && modelPerformance == old(modelPerformance)
      ensures comparisonData == old(comparisonData) && loading == old(loading)
      ensures activeTab == old(activeTab)
    {
      switchingModel := true;
      error := "";
    }

    /** The rest of `handleModelChange`: only success switches the model. */
    method FinishModelChange(value: string, outcome: Response<()>)
      modifies this
      ensures !switchingModel
      ensures outcome.Ok? ==> currentModel == value && error == old(error)
      ensures !outcome.Ok? ==> currentModel == old(currentModel)
                               && error == FailureMessage(outcome, SwitchModelFailed, UnknownError)
      ensures modelPerformance == old(modelPerformance) && comparisonData == old(comparisonData)
      ensures loading == old(loading) && activeTab == old(activeTab)
    {
      if outcome.Ok? {
        currentModel := value;
      } else {
        error := FailureMessage(outcome, SwitchModelFailed, UnknownError);
      }
      switchingModel := false;
    }

    /** `handleCompareModels` up to its `fetch`. */
    method StartCompare()
      modifies this
      ensures loading && error == ""
      ensures currentModel == old(currentModel) && modelPerformance == old(modelPerformance)
      ensures comparisonData == old(comparisonData) && switchingModel == old(switchingModel)
      ensures activeTab == old(activeTab)
    {
      loading := true;
      error := "";
    }

    /** The rest of `handleCompareModels`: only success stores the comparison and opens its tab. */
    method FinishCompare(outcome: Response<Reports.Comparison>)
      modifies this
      ensures !loading
      ensures outcome.Ok? ==> comparisonData == Some(outcome.body) && activeTab == ComparisonTab
                              && error == old(error)
      ensures !outcome.Ok? ==> comparisonData == old(comparisonData) && activeTab == old(activeTab)
                               && error == FixedFailureMessage(outcome, CompareFailed)
      ensures currentModel == old(currentModel) && modelPerformance == old(modelPerformance)
      ensures switchingModel == old(switchingModel)
    {
      if outcome.Ok? {
        comparisonData := Some(outcome.body);
        activeTab := ComparisonTab;
      } else {
        error := FixedFailureMessage(outcome, CompareFailed);
      }
      loading := false;
    }
  }

  // ---------------------------------------------------------------- accuracy table

  datatype Action = Activate | CurrentModel

  datatype Row = Row(modelType: string, name: string, accuracy: real, action: Action)

  function Accuracy(m: (string, Reports.ModelResult)): real {
    m.1.accuracy
  }

  /** `Object.entries(model_comparison).sort((a, b) => b[1].accuracy - a[1].accuracy)`. */
  function ByAccuracy(models: Reports.Comparison): (r: Reports.Comparison)
    ensures multiset(r) == multiset(models)
    ensures |r| == |models|
    ensures forall i, j :: 0 <= i < j < |r| ==> r[i].1.accuracy >= r[j].1.accuracy
    ensures Ranking.KeepsTieOrder(r, models, Accuracy)
  {
    Ranking.SortDescKeepsTieOrder(models, Accuracy);
    Ranking.SortDesc(models, Accuracy)
  }

  /** The rows of the accuracy table: by non-increasing accuracy, each with its model's display
      name, and an Activate button on every row but the current model's. */
  function AccuracyTable(models: Reports.Comparison, currentModel: string): (rows: seq<Row>)
    ensures |rows| == |models|
    ensures forall i, j :: 0 <= i < j < |rows| ==> rows[i].accuracy >= rows[j].accuracy
    ensures forall i :: 0 <= i < |rows| ==> (rows[i].modelType, rows[i].accuracy) == (ByAccuracy(models)[i].0, ByAccuracy(models)[i].1.accuracy)
    ensures forall i :: 0 <= i < |rows| ==> rows[i].name == ModelNames.FormatModelName(rows[i].modelType)
    ensures forall i :: 0 <= i < |rows| ==> (rows[i].action == CurrentModel <==> rows[i].modelType == currentModel)
  {
    var sorted := ByAccuracy(models);
    seq(|sorted|, i requires 0 <= i < |sorted| =>
      Row(sorted[i].0, ModelNames.FormatModelName(sorted[i].0), sorted[i].1.accuracy,
          if sorted[i].0 != currentModel then Activate else CurrentModel))
  }

  /** Every model of the comparison has a row, and every row is a model of the comparison. */
  lemma TableListsEveryModel(models: Reports.Comparison, currentModel: string, modelType: string)
    ensures (exists i :: 0 <= i < |AccuracyTable(models, currentModel)| &&
               AccuracyTable(models, currentModel)[i].modelType == modelType)
            <==> (exists j :: 0 <= j < |models| && models[j].0 == modelType)
  {
    var rows := AccuracyTable(models, currentModel);
    var sorted := ByAccuracy(models);
    if i :| 0 <= i < |rows| && rows[i].modelType == modelType {
      assert sorted[i] in multiset(models);
      var j :| 0 <= j < |models| && models[j] == sorted[i];
    }
    if j :| 0 <= j < |models| && models[j].0 == modelType {
      assert models[j] in multiset(sorted);
      var i :| 0 <= i < |sorted| && sorted[i] == models[j];
      assert rows[i].modelType == modelType;
    }
  }
}
