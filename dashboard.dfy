/** The Dashboard component's upload, dataset-switch, model-switch and compare handlers.

    Each handler is `async`: the part before its `await` runs at once and the rest when the
    request settles, so each is modelled as a `Start` method and a `Finish` method that takes
    the request's outcome. The simulated progress bar is a counter advanced by an interval
    callback (`Tick`) and cleared by a timeout (`ResetProgress`). */
module Dashboard {
  import opened JsValues
  import opened Responses
  import Reports

  const CsvRequired := "Please upload a CSV file"
  const UploadFailed := "Failed to upload dataset"
  const UnknownError := "An unknown error occurred"
  const SwitchModelFailed := "Failed to switch model"
  const CompareFailed := "Failed to compare models"
  const PerformanceTab := "performance"
  const ComparisonTab := "comparison"
  const ProgressCap := 90
  const ProgressStep := 10

  /** `name.endsWith('.csv')`, case-sensitive. */
  predicate IsCsvName(name: string) {
    |name| >= 4 && name[|name| - 4..] == ".csv"
  }

  /** The interval callback's updater: `prev >= 90 ? 90 : prev + 10`. */
  function NextProgress(prev: int): (next: int)
    ensures prev >= ProgressCap ==> next == ProgressCap
    ensures prev < ProgressCap ==> next == prev + ProgressStep
  {
    if prev >= ProgressCap then ProgressCap else prev + ProgressStep
  }

  /** The progress after `n` ticks from `p`. */
  function AfterTicks(p: int, n: nat): int
    decreases n
  {
    if n == 0 then p else AfterTicks(NextProgress(p), n - 1)
  }

  function Min(a: int, b: int): int {
    if a <= b then a else b
  }

  /** From a multiple of ten at most 90, `n` ticks reach `min(p + 10n, 90)`. */
  lemma {:induction false} AfterTicksFrom(p: int, n: nat)
    requires 0 <= p <= ProgressCap && p % ProgressStep == 0
    ensures AfterTicks(p, n) == Min(p + ProgressStep * n, ProgressCap)
    decreases n
  {
    if n > 0 {
      if p == ProgressCap {
        AfterTicksFrom(p, n - 1);
      } else {
        AfterTicksFrom(p + ProgressStep, n - 1);
      }
    }
  }

  /** Started at 0, the bar shows `min(10n, 90)` after `n` ticks: it stays in [0, 90] and
      never goes back. */
  lemma ProgressFromZero(n: nat)
    ensures AfterTicks(0, n) == Min(ProgressStep * n, ProgressCap)
    ensures 0 <= AfterTicks(0, n) <= ProgressCap
    ensures AfterTicks(0, n) <= AfterTicks(0, n + 1)
  {
    AfterTicksFrom(0, n);
    AfterTicksFrom(0, n + 1);
  }

  class DashboardState {
    var uploading: bool
    var uploadProgress: int
    var uploadSuccess: bool
    var uploadError: string
    /** Whether the progress interval is still scheduled. */
    var progressTimer: bool
    var currentDataset: string
    var refreshDataset: bool
    var loading: bool
    var currentModel: string
    var modelError: string
    var switchingModel: bool
    var comparisonData: Option<Reports.Comparison>
    var activeTab: string

    /** The bar is within [0, 100], and a multiple of ten no higher than the cap while the
        interval runs. */
    predicate Valid()
      reads this
    {
      && 0 <= uploadProgress <= 100
      && (progressTimer ==> uploadProgress <= ProgressCap && uploadProgress % ProgressStep == 0)
    }

    /** The initial state; `currentDataset` starts as `datasetInfo?.current_dataset || ""`. */
    constructor (initialDataset: Option<string>)
      ensures Valid()
      ensures !uploading && uploadProgress == 0 && !uploadSuccess && uploadError == "" && !progressTimer
      ensures currentDataset == initialDataset.GetOr("") && !refreshDataset && loading
      ensures currentModel == "" && modelError == "" && !switchingModel
      ensures comparisonData.None? && activeTab == PerformanceTab
    {
      uploading := false;
      uploadProgress := 0;
      uploadSuccess := false;
      uploadError := "";
      progressTimer := false;
      currentDataset := initialDataset.GetOr("");
      refreshDataset := false;
      loading := true;
      currentModel := "";
      modelError := "";
      switchingModel := false;
      comparisonData := None;
      activeTab := PerformanceTab;
    }

    // ------------------------------------------------------------ upload

    /** `handleFileUpload` up to its `fetch`. No file: nothing happens. A name not ending in
        ".csv": only the error is set and no request is made. Otherwise the upload starts with
        the bar at 0 and the interval running. `started` says whether a request goes out. */
    method StartUpload(fileName: Option<string>) returns (started: bool)
      requires Valid()
      modifies this
      ensures Valid()
      ensures started <==> fileName.Some? && IsCsvName(fileName.value)
      ensures fileName.None? ==> unchanged(this)
      ensures fileName.Some? && !IsCsvName(fileName.value) ==>
                uploadError == CsvRequired
                && uploading == old(uploading) && uploadProgress == old(uploadProgress)
                && uploadSuccess == old(uploadSuccess) && progressTimer == old(progressTimer)
      ensures started ==>
                uploading && uploadProgress == 0 && !uploadSuccess && uploadError == "" && progressTimer
      ensures currentDataset == old(currentDataset) && refreshDataset == old(refreshDataset)
      ensures loading == old(loading) && currentModel == old(currentModel)
      ensures modelError == old(modelError) && switchingModel == old(switchingModel)
      ensures comparisonData == old(comparisonData) && activeTab == old(activeTab)
    {
      if fileName.None? {
        return false;
      }
      if !IsCsvName(fileName.value) {
        uploadError := CsvRequired;
        return false;
      }
      uploading := true;
      uploadProgress := 0;
      uploadSuccess := false;
      uploadError := "";
      progressTimer := true;
      started := true;
    }

    /** One run of the interval callback: advance the bar, and at the cap clear the interval. */
    method Tick()
      requires Valid()
      modifies this
      ensures Valid()
      ensures old(progressTimer) ==> uploadProgress == NextProgress(old(uploadProgress))
      ensures old(progressTimer) ==> old(uploadProgress) <= uploadProgress <= ProgressCap
      ensures old(progressTimer) ==> (progressTimer <==> old(uploadProgress) < ProgressCap)
      ensures !old(progressTimer) ==> unchanged(this)
      ensures uploading == old(uploading) && uploadSuccess == old(uploadSuccess)
      ensures uploadError == old(uploadError)
      ensures currentDataset == old(currentDataset) && refreshDataset == old(refreshDataset)
      ensures loading == old(loading) && currentModel == old(currentModel)
      ensures modelError == old(modelError) && switchingModel == old(switchingModel)
      ensures comparisonData == old(comparisonData) && activeTab == old(activeTab)
    {
      if progressTimer {
        if uploadProgress >= ProgressCap {
          progressTimer := false;
        }
        uploadProgress := NextProgress(uploadProgress);
      }
    }

    /** The rest of `handleFileUpload` once the request settles. When a response arrives the
        interval is cleared and the bar jumps to 100; when `fetch` itself throws, neither
        happens. `uploading` is false afterwards in every case. */
    method FinishUpload(outcome: Response<()>)
      requires Valid()
      modifies this
      ensures Valid()
      ensures !uploading
      ensures outcome.Threw? ==> progressTimer == old(progressTimer) && uploadProgress == old(uploadProgress)
      ensures !outcome.Threw? ==> !progressTimer && uploadProgress == 100
      ensures outcome.Ok? ==> uploadSuccess && uploadError == old(uploadError)
                              && refreshDataset == !old(refreshDataset)
      ensures !outcome.Ok? ==> uploadSuccess == old(uploadSuccess)
                               && uploadError == FailureMessage(outcome, UploadFailed, UnknownError)
                               && refreshDataset == old(refreshDataset)
      ensures currentDataset == old(currentDataset) && loading == old(loading)
      ensures currentModel == old(currentModel) && modelError == old(modelError)
      ensures switchingModel == old(switchingModel)
      ensures comparisonData == old(comparisonData) && activeTab == old(activeTab)
    {
      if !outcome.Threw? {
        progressTimer := false;
        uploadProgress := 100;
      }
      if outcome.Ok? {
        uploadSuccess := true;
        refreshDataset := !refreshDataset;
      } else {
        uploadError := FailureMessage(outcome, UploadFailed, UnknownError);
      }
      uploading := false;
    }

    /** The two-second timeout after an upload: the bar goes back to 0. */
    method ResetProgress()
      requires Valid()
      modifies this
      ensures Valid()
      ensures uploadProgress == 0
      ensures uploading == old(uploading) && uploadSuccess == old(uploadSuccess)
      ensures uploadError == old(uploadError) && progressTimer == old(progressTimer)
      ensures currentDataset == old(currentDataset) && refreshDataset == old(refreshDataset)
      ensures loading == old(loading) && currentModel == old(currentModel)
      ensures modelError == old(modelError) && switchingModel == old(switchingModel)
      ensures comparisonData == old(comparisonData) && activeTab == old(activeTab)
    {
      uploadProgress := 0;
    }

    // ------------------------------------------------------------ dataset switch

    /** `handleDatasetChange` up to its `fetch`. */
    method StartDatasetChange()
      requires Valid()
      modifies this
      ensures Valid()
      ensures loading
      ensures uploading == old(uploading) && uploadProgress == old(uploadProgress)
      ensures uploadSuccess == old(uploadSuccess) && uploadError == old(uploadError)
      ensures progressTimer == old(progressTimer)
      ensures currentDataset == old(currentDataset) && refreshDataset == old(refreshDataset)
      ensures currentModel == old(currentModel)
      ensures modelError == old(modelError) && switchingModel == old(switchingModel)
      ensures comparisonData == old(comparisonData) && activeTab == old(activeTab)
    {
      loading := true;
    }

    /** The rest of `handleDatasetChange`: only an ok response switches the dataset and
        toggles the refresh flag; a failure is only logged. */
    method FinishDatasetChange(value: string, outcome: Response<()>)
      requires Valid()
      modifies this
      ensures Valid()
      ensures !loading
      ensures outcome.Ok? ==> currentDataset == value && refreshDataset == !old(refreshDataset)
      ensures !outcome.Ok? ==> currentDataset == old(currentDataset) && refreshDataset == old(refreshDataset)
      ensures uploading == old(uploading) && uploadProgress == old(uploadProgress)
      ensures uploadSuccess == old(uploadSuccess) && uploadError == old(uploadError)
      ensures progressTimer == old(progressTimer)
      ensures currentModel == old(currentModel)
      ensures modelError == old(modelError) && switchingModel == old(switchingModel)
      ensures comparisonData == old(comparisonData) && activeTab == old(activeTab)
    {
      if outcome.Ok? {
        currentDataset := value;
        refreshDataset := !refreshDataset;
      }
      loading := false;
    }

    // ------------------------------------------------------------ model switch

    /** `handleModelChange` up to its `fetch`: the error is cleared. */
    method StartModelChange()
      requires Valid()
      modifies this
      ensures Valid()
      ensures switchingModel && modelError == ""
      ensures uploading == old(uploading) && uploadProgress == old(uploadProgress)
      ensures uploadSuccess == old(uploadSuccess) && uploadError == old(uploadError)
      ensures progressTimer == old(progressTimer)
      ensures currentDataset == old(currentDataset) && refreshDataset == old(refreshDataset)
      ensures loading == old(loading) && currentModel == old(currentModel)
      ensures comparisonData == old(comparisonData) && activeTab == old(activeTab)
    {
      switchingModel := true;
      modelError := "";
    }

    /** The rest of `handleModelChange`: only an ok response switches the model; otherwise
        the model stays and the error is the server's `error` field or the fallback. */
    method FinishModelChange(value: string, outcome: Response<()>)
      requires Valid()
      modifies this
      ensures Valid()
      ensures !switchingModel
      ensures outcome.Ok? ==> currentModel == value && modelError == old(modelError)
      ensures !outcome.Ok? ==> currentModel == old(currentModel)
                               && modelError == FailureMessage(outcome, SwitchModelFailed, UnknownError)
      ensures uploading == old(uploading) && uploadProgress == old(uploadProgress)
      ensures uploadSuccess == old(uploadSuccess) && uploadError == old(uploadError)
      ensures progressTimer == old(progressTimer)
      ensures currentDataset == old(currentDataset) && refreshDataset == old(refreshDataset)
      ensures loading == old(loading)
      ensures comparisonData == old(comparisonData) && activeTab == old(activeTab)
    {
      if outcome.Ok? {
        currentModel := value;
      } else {
        modelError := FailureMessage(outcome, SwitchModelFailed, UnknownError);
      }
      switchingModel := false;
    }

    // ------------------------------------------------------------ compare

    /** `handleCompareModels` up to its `fetch`. */
    method StartCompare()
      requires Valid()
      modifies this
      ensures Valid()
      ensures loading && modelError == ""
      ensures uploading == old(uploading) && uploadProgress == old(uploadProgress)
      ensures uploadSuccess == old(uploadSuccess) && uploadError == old(uploadError)
      ensures progressTimer == old(progressTimer)
      ensures currentDataset == old(currentDataset) && refreshDataset == old(refreshDataset)
      ensures currentModel == old(currentModel) && switchingModel == old(switchingModel)
      ensures comparisonData == old(comparisonData) && activeTab == old(activeTab)
    {
      loading := true;
      modelError := "";
    }

    /** The rest of `handleCompareModels`: an ok response stores the comparison and opens the
        comparison tab; any failure leaves both alone and sets the error. */
    method FinishCompare(outcome: Response<Reports.Comparison>)
      requires Valid()
      modifies this
      ensures Valid()
      ensures !loading
      ensures outcome.Ok? ==> comparisonData == Some(outcome.body) && activeTab == ComparisonTab
                              && modelError == old(modelError)
      ensures !outcome.Ok? ==> comparisonData == old(comparisonData) && activeTab == old(activeTab)
                               && modelError == FixedFailureMessage(outcome, CompareFailed)
      ensures uploading == old(uploading) && uploadProgress == old(uploadProgress)
      ensures uploadSuccess == old(uploadSuccess) && uploadError == old(uploadError)
      ensures progressTimer == old(progressTimer)
      ensures currentDataset == old(currentDataset) && refreshDataset == old(refreshDataset)
      ensures currentModel == old(currentModel) && switchingModel == old(switchingModel)
    {
      if outcome.Ok? {
        comparisonData := Some(outcome.body);
        activeTab := ComparisonTab;
      } else {
        modelError := FixedFailureMessage(outcome, CompareFailed);
      }
      loading := false;
    }
  }

}
