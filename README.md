# Smart-Grid dashboard: the data-shaping core in Dafny

The Smart-Grid front end is a Next.js dashboard over a grid-stability classifier. Its
components receive untyped JSON from a backend and reshape it before rendering:

- the correlation matrix component normalises a correlation payload, ranks the features by
  the strength of their correlation with the target `stab`, and colours heatmap cells;
- the feature-importance component sorts importances and picks the top three;
- the dashboard and model-comparison components validate uploads, run a simulated progress
  bar, switch datasets and models, compare models, and build the comparison chart;
- the model-performance component filters class reports and builds per-class series and a
  hue scale;
- the dataset-summary component lists feature columns and draws class proportions;
- the prediction form keeps a twelve-parameter record, submits it, and shows the result;
- the sample-data table projects rows onto the first row's columns.

This project models that reshaping and proves what it promises.

Layout, one module per file:

| module | file | models |
|---|---|---|
| `JsValues` | `js_values.dfy` | JSON values with ordered keys, truthiness, `typeof … === "object"`, `Object.keys` and property reads on objects, arrays and strings, property assignment, `filter(x => x !== d)` |
| `Ranking` | `ranking.dfy` | the stable descending sort `sort((a, b) => key(b) - key(a))`, shown unique |
| `Responses` | `responses.dfy` | what an awaited `fetch` comes back with, and the message each handler's `catch` shows |
| `ModelNames` | `model_names.dfy` | `formatModelName` (identical in the dashboard and the comparison component) |
| `CorrelationMatrix` | `correlation_matrix.dfy` | the normaliser (imperative, as a method proved against a function), ranking, heatmap cells |
| `FeatureImportance` | `feature_importance.dfy` | sorted entries, top three, chart columns, badges |
| `Reports` | `reports.dfy` | class names, metric series, hue scale, average rows, the comparison chart builder |
| `Dashboard` | `dashboard.dfy` | the dashboard's handlers as a class whose methods update its fields |
| `ModelComparison` | `model_comparison.dfy` | the comparison component's handlers as a class, and the accuracy table |
| `DatasetSummary` | `dataset_summary.dfy` | feature columns, the Features tile, class proportions |
| `PredictionForm` | `prediction_form.dfy` | the form record as a class, the parameter catalogue, the result display |
| `SampleDataTable` | `sample_data_table.dfy` | the table projection |

Each `async` handler is split at its `await`. A `Start…` method does what runs at once.
A `Finish…` method takes the request's outcome (`Responses.Response`) and does the rest.
A numeric value is a `real`. Formatting (`toFixed`, `toLocaleString`) is abstract.

## Model

| member | source | states |
|---|---|---|
| `JsValues.IndexKeyRoundTrip` | app/components/CorrelationMatrix.tsx:104-106 | the index keys `Object.keys` reports for an array or string parse back to the index they name |
| `JsValues.KeysAreReadable` | app/components/CorrelationMatrix.tsx:104-106 | every key `Object.keys(v)` reports reads back a defined value, so `v[Object.keys(v)[0]]` is defined when there is a key |
| `JsValues.SetFieldLookup` | app/components/CorrelationMatrix.tsx:150 | after `obj[k] = v`, reading `k` gives `v` and every other property reads as before |
| `JsValues.SetField` | app/components/CorrelationMatrix.tsx:150 | assignment keeps the key order when the key exists and appends the key otherwise |
| `JsValues.Without` | app/components/CorrelationMatrix.tsx:133 | `filter(f => f !== d)` keeps exactly the elements other than `d` and never lengthens the list |
| `JsValues.WithoutKeepsOrder` | app/components/DatasetSummary.tsx:39 | filtering keeps the surviving elements in their original relative order |
| `Responses.CaughtMessage` | app/components/Dashboard.tsx:291-296 | a caught `Error` shows its message; anything else shows the fallback text |
| `Responses.FailureMessage` | app/components/Dashboard.tsx:279-296 | a non-ok response shows the body's `error` field or the handler's fallback; an unreadable body shows the parse error; a thrown fetch shows its message or the non-`Error` text |
| `Responses.FixedFailureMessage` | app/components/Dashboard.tsx:366-376 | a non-ok response shows the handler's fixed text, which also stands in for a thrown non-`Error` |
| `ModelNames.FormatModelName` | app/components/Dashboard.tsx:110-112 | the display name has the input's length; position i is a space for `_`, upper-cased at the start of a piece, and the input character otherwise |
| `ModelNames.SplitFormatsPointwise` | app/components/ModelComparison.tsx:78-80 | split on `_`, capitalise each piece, join with spaces equals the character-by-character reading |
| `ModelNames.NoUnderscoreShown` | app/components/Dashboard.tsx:111 | no `_` survives formatting |
| `ModelNames.SpacesMarkUnderscores` | app/components/Dashboard.tsx:111 | the display shows a space at i exactly when the name has `_` or a space there |
| `Ranking.SortDesc` | app/components/CorrelationMatrix.tsx:163-165 | the sorted list is a permutation of the input, in non-increasing key order |
| `Ranking.SortDescIsStable` | app/components/CorrelationMatrix.tsx:163-165 | elements with equal keys keep their input order |
| `Ranking.SortedStableIsUnique` | app/components/FeatureImportance.tsx:17-18 | any non-increasing permutation that keeps ties in input order is exactly the sorted list, so a stable engine sort yields it |
| `Ranking.SortDescIdempotent` | app/components/CorrelationMatrix.tsx:163-165 | sorting a sorted list changes nothing |
| `CorrelationMatrix.FirstIndex` | app/components/CorrelationMatrix.tsx:100-108 | `findIndex` returns the first index satisfying the test, or none when no key does |
| `CorrelationMatrix.FirstIndexIsUnique` | app/components/CorrelationMatrix.tsx:115-123 | the first satisfying index is the one `findIndex` returns |
| `CorrelationMatrix.DeriveFeatures` | app/components/CorrelationMatrix.tsx:132-140 | `stab` is never a feature; with a non-empty vector the features are its keys minus `stab`; otherwise the keys of the matrix's first row minus `stab`, or none |
| `CorrelationMatrix.DeriveFeaturesKeepOrder` | app/components/CorrelationMatrix.tsx:132-140 | the features keep the order of the keys they are read from (the vector's, else the first row's), so the ranking's ties and the heatmap's rows and columns follow that key order |
| `CorrelationMatrix.Select` | app/components/CorrelationMatrix.tsx:85-129 | the step-by-step selection yields exactly the preferred fields or the key-scan results |
| `CorrelationMatrix.ExtractFeatures` | app/components/CorrelationMatrix.tsx:131-140 | the features are the vector's keys without "stab" when it has any, else the keys of the matrix's first row without "stab" when that key is non-empty and its row truthy, else none |
| `CorrelationMatrix.BackFill` | app/components/CorrelationMatrix.tsx:143-153 | the fill loop throws on a primitive vector when there is a feature to assign; otherwise the vector gets one field per feature, `row[f] || 0` |
| `CorrelationMatrix.Normalise` | app/components/CorrelationMatrix.tsx:75-184 | the effect body computes the normaliser's outcome: processed data or one of its two error messages |
| `CorrelationMatrix.PreferredPathIgnoresOtherKeys` | app/components/CorrelationMatrix.tsx:87-93 | with both preferred fields truthy they are used as they are, and no other key affects the selection |
| `CorrelationMatrix.FallbackMatrixIsFirstMatch` | app/components/CorrelationMatrix.tsx:97-112 | on the fallback path the matrix is the first key whose value is a non-null object with an object-typed first value; an empty-string key selects nothing |
| `CorrelationMatrix.FallbackVectorIsFirstMatch` | app/components/CorrelationMatrix.tsx:114-127 | on the fallback path the vector is the first key whose first value is a number |
| `CorrelationMatrix.FallbackFindsNothing` | app/components/CorrelationMatrix.tsx:97-128 | without a key of either shape, both matrix and vector stay empty |
| `CorrelationMatrix.FillFieldsLookup` | app/components/CorrelationMatrix.tsx:148-152 | after the fill loop, each feature reads `row[f] || 0` and no other key is defined |
| `CorrelationMatrix.FillFieldsKeys` | app/components/CorrelationMatrix.tsx:148-152 | for distinct features the filled vector's keys are the features in order |
| `CorrelationMatrix.OutcomeCases` | app/components/CorrelationMatrix.tsx:143-183 | "Could not extract…" exactly when no feature is found; "Error processing…" exactly when the back-fill assigns to a primitive; processed data otherwise |
| `CorrelationMatrix.ProcessedView` | app/components/CorrelationMatrix.tsx:162-176 | a processed view keeps the matrix and features, has `allFeatures = ["stab"] + features` of length one more, and ranks a permutation of the features by non-increasing magnitude with ties in feature order |
| `CorrelationMatrix.BackFilledVector` | app/components/CorrelationMatrix.tsx:143-153 | when the vector was back-filled it holds exactly one entry per feature, `matrix["stab"][f] || 0` |
| `CorrelationMatrix.VectorKeptWhenPresent` | app/components/CorrelationMatrix.tsx:132-153 | a non-empty selected vector is passed through untouched |
| `CorrelationMatrix.EmptyPayloadFails` | app/components/CorrelationMatrix.tsx:156-160 | an empty payload yields the extraction error |
| `CorrelationMatrix.ScalarPayloadFails` | app/components/CorrelationMatrix.tsx:97-160 | a payload of scalars matches neither shape and yields the extraction error |
| `CorrelationMatrix.CellValue` | app/components/CorrelationMatrix.tsx:341-344 | a missing row, or a missing or falsy entry, reads as 0; a numeric entry reads as `matrix[row][col]` itself; a truthy non-number gives no value (the `toFixed` throw) |
| `CorrelationMatrix.HeatCell` | app/components/CorrelationMatrix.tsx:341-366 | diagonal cells are neutral; off the diagonal blue iff the value is at least 0, red otherwise; intensity is abs(value) * 100; white text iff abs(value) > 0.5; no cell when a non-number reaches `toFixed` |
| `CorrelationMatrix.Heatmap` | app/components/CorrelationMatrix.tsx:334-369 | the grid is square over `allFeatures`, cell (i, j) for row feature i and column feature j |
| `FeatureImportance.SortedFeatures` | app/components/FeatureImportance.tsx:17-18 | a permutation of the entries in non-increasing signed importance, ties in key order |
| `FeatureImportance.TopFeatures` | app/components/FeatureImportance.tsx:21 | the first min(3, n) sorted entries, none smaller than an entry left out |
| `FeatureImportance.ChartData` | app/components/FeatureImportance.tsx:23-34 | labels and data have one element per entry, pair up to an input entry at every index, and are non-increasing |
| `FeatureImportance.ChartColumnsAlign` | app/components/FeatureImportance.tsx:24-28 | zipping labels with data gives back the sorted entries |
| `FeatureImportance.Badges` | app/components/FeatureImportance.tsx:82-88 | min(3, n) badges numbered 1, 2, 3 in sorted order |
| `FeatureImportance.SignedImportanceExample` | app/components/FeatureImportance.tsx:17-18 | a = 0.2, b = -0.9, c = 0.5 sort as c, a, b |
| `Reports.ClassNames` | app/components/ModelPerformance.tsx:21-23 | the class names are the report keys other than "accuracy", "macro avg" and "weighted avg" |
| `Reports.ClassNamesKeepOrder` | app/components/ModelPerformance.tsx:21-23 | class names keep the report's key order |
| `Reports.MetricSeries` | app/components/ModelPerformance.tsx:54-104 | each metric series has one value per class name, in class order, defined exactly for classes with a metric row |
| `Reports.ColorScale` | app/components/ModelPerformance.tsx:42-50 | `count` hues, hue `i` being `i * 360 / count`, each in [0, 360), strictly increasing |
| `Reports.HueBounds` | app/components/ModelPerformance.tsx:44 | hue i of count lies in [0, 360) |
| `Reports.HueIncreases` | app/components/ModelPerformance.tsx:44 | hues strictly increase with the index |
| `Reports.SupportColours` | app/components/ModelPerformance.tsx:99-100 | support slice idx is coloured with hue idx of the class count |
| `Reports.AveragesReadOnlyReservedRows` | app/components/ModelPerformance.tsx:218-231 | the sample count and the two average rows depend only on the "macro avg" and "weighted avg" entries |
| `Reports.SampleCountIsMacroSupport` | app/components/ModelPerformance.tsx:124 | the sample count shown is the "macro avg" support |
| `Reports.F1Percent` | app/components/Dashboard.tsx:399 | a model's F1 for a class is its f1-score times 100, or 0 when the class has no metric row |
| `Reports.ClassSeries` | app/components/Dashboard.tsx:397-418 | a class series is titled "F1 Score - " and the class, has one value per model, and takes palette colour index mod 5 |
| `Reports.ComparisonChartData` | app/components/Dashboard.tsx:383-433 | no chart without data; a throw for an empty comparison; otherwise labels are the formatted model names, dataset 0 is "Accuracy" (accuracy * 100 per model), then one F1 series per class of the first model |
| `Reports.ClassSeriesNeverAccuracy` | app/components/ModelComparison.tsx:208-224 | no class series carries the "Accuracy" title, so the unshifted series is the only one |
| `Reports.PaletteCycles` | app/components/ModelComparison.tsx:200-211 | class series i and i + 5 share a colour |
| `Dashboard.NextProgress` | app/components/Dashboard.tsx:262-268 | at or above 90 the bar stays at 90; below it rises by 10 |
| `Dashboard.AfterTicksFrom` | app/components/Dashboard.tsx:261-269 | from a multiple of ten at most 90, n ticks reach min(p + 10n, 90) |
| `Dashboard.ProgressFromZero` | app/components/Dashboard.tsx:252-269 | from 0 the bar shows min(10n, 90): it stays within [0, 90] and never decreases |
| `Dashboard.DashboardState.constructor` | app/components/Dashboard.tsx:89-106 | the initial state, with the dataset taken from the props or "" |
| `Dashboard.DashboardState.StartUpload` | app/components/Dashboard.tsx:240-254 | no file: no change; a name not ending in ".csv": only the CSV error is set and no request starts; otherwise uploading with the bar at 0 and the interval running |
| `Dashboard.DashboardState.Tick` | app/components/Dashboard.tsx:261-269 | the interval advances the bar by the updater and stops itself at 90 |
| `Dashboard.DashboardState.FinishUpload` | app/components/Dashboard.tsx:271-298 | a response clears the interval and sets 100; success sets the flag and toggles refresh; failure sets the message; uploading ends in every case |
| `Dashboard.DashboardState.ResetProgress` | app/components/Dashboard.tsx:300-302 | the delayed reset puts the bar back to 0 and nothing else |
| `Dashboard.DashboardState.StartDatasetChange` | app/components/Dashboard.tsx:306-308 | loading starts and nothing else changes |
| `Dashboard.DashboardState.FinishDatasetChange` | app/components/Dashboard.tsx:310-329 | only an ok response switches the dataset and toggles refresh; loading ends |
| `Dashboard.DashboardState.StartModelChange` | app/components/Dashboard.tsx:333-336 | switching starts and the model error is cleared |
| `Dashboard.DashboardState.FinishModelChange` | app/components/Dashboard.tsx:338-357 | only an ok response switches the model; otherwise the model stays and the error shows the failure message |
| `Dashboard.DashboardState.StartCompare` | app/components/Dashboard.tsx:361-364 | loading starts and the error is cleared |
| `Dashboard.DashboardState.FinishCompare` | app/components/Dashboard.tsx:366-379 | only an ok response stores the comparison and opens the comparison tab; a failure sets the error and leaves both alone |
| `ModelComparison.ComparisonState.constructor` | app/components/ModelComparison.tsx:68-75 | the initial state: no model, loading, the performance tab |
| `ModelComparison.ComparisonState.StartFetchPerformance` | app/components/ModelComparison.tsx:106-111 | the fetch runs exactly when a current model is set; otherwise nothing changes |
| `ModelComparison.ComparisonState.FinishFetchPerformance` | app/components/ModelComparison.tsx:112-123 | success stores the performance; any failure sets the fixed message; loading ends |
| `ModelComparison.ComparisonState.StartModelChange` | app/components/ModelComparison.tsx:130-133 | switching starts and the error is cleared |
| `ModelComparison.ComparisonState.FinishModelChange` | app/components/ModelComparison.tsx:135-154 | only success switches the model; otherwise the error is the body's `error` or "Failed to switch model" |
| `ModelComparison.ComparisonState.StartCompare` | app/components/ModelComparison.tsx:158-161 | loading starts and the error is cleared |
| `ModelComparison.ComparisonState.FinishCompare` | app/components/ModelComparison.tsx:163-176 | only success stores the comparison and opens its tab; failure sets the error and leaves the tab alone |
| `ModelComparison.ByAccuracy` | app/components/ModelComparison.tsx:419-420 | a permutation of the models by non-increasing accuracy, ties in key order |
| `ModelComparison.AccuracyTable` | app/components/ModelComparison.tsx:419-437 | rows by non-increasing accuracy with formatted names; "Current model" on exactly the current model's row, Activate on the rest |
| `ModelComparison.TableListsEveryModel` | app/components/ModelComparison.tsx:419-421 | a model has a row exactly when it is in the comparison |
| `DatasetSummary.FeatureColumns` | app/components/DatasetSummary.tsx:39 | the listed features are the columns other than "stabf" and "stab" |
| `DatasetSummary.FeatureColumnsKeepOrder` | app/components/DatasetSummary.tsx:39-42 | listed features keep the columns' order |
| `DatasetSummary.FeatureBadge` | app/components/DatasetSummary.tsx:33 | the badge is the length of the filtered list, absent without columns |
| `DatasetSummary.FeaturesTileAsWrittenCountsTargets` | app/components/DatasetSummary.tsx:25 | as written, 14 columns show 14 features; as intended, 12 |
| `DatasetSummary.FeaturesTileAsWrittenNeverSubtracts` | app/components/DatasetSummary.tsx:25 | as written, any non-zero column count is shown unchanged |
| `DatasetSummary.FeaturesTileMatchesList` | app/components/DatasetSummary.tsx:25-41 | the corrected tile equals the length of the listed features when each target column occurs once |
| `DatasetSummary.WithoutLength` | app/components/DatasetSummary.tsx:39 | filtering a value out removes exactly its occurrences |
| `DatasetSummary.Width` | app/components/DatasetSummary.tsx:68 | a width is defined iff the total is non-zero, and then width * total = count * 100 |
| `DatasetSummary.Bars` | app/components/DatasetSummary.tsx:59-68 | one bar per class in key order, with its count and width |
| `DatasetSummary.ClassSection` | app/components/DatasetSummary.tsx:50-68 | the section shows exactly for a present, non-empty distribution, with one bar per class |
| `DatasetSummary.SumOfShares` | app/components/DatasetSummary.tsx:68 | the widths times the total add up to 100 times the sum of counts |
| `DatasetSummary.WidthsSumToHundred` | app/components/DatasetSummary.tsx:59-68 | with a positive total every bar has a width and the widths add up to 100 |
| `PredictionForm.InitialFormData` | app/components/PredictionForm.tsx:13-26 | the record has the twelve fields: tau1-4 = 8.0, p1-4 = 0.5, g1-4 = 0.1 |
| `PredictionForm.CatalogueNamesAreFields` | app/components/PredictionForm.tsx:81-112 | three sections of four parameters whose names, in order, are the record's fields |
| `PredictionForm.CatalogueRangesAreSound` | app/components/PredictionForm.tsx:81-112 | every parameter has min < max and a positive step |
| `PredictionForm.CatalogueCoversRecord` | app/components/PredictionForm.tsx:81-112 | the catalogue's names are exactly the record's keys |
| `PredictionForm.FormState.constructor` | app/components/PredictionForm.tsx:13-35 | the initial record, no prediction, not loading, no error |
| `PredictionForm.FormState.HandleChange` | app/components/PredictionForm.tsx:37-43 | only the named field changes, to the parsed value, unclamped |
| `PredictionForm.FormState.HandleSliderChange` | app/components/PredictionForm.tsx:45-50 | only the named field changes, to the slider's first value |
| `PredictionForm.FormState.StartSubmit` | app/components/PredictionForm.tsx:52-55 | loading starts and the error is cleared |
| `PredictionForm.FormState.FinishSubmit` | app/components/PredictionForm.tsx:57-78 | ok stores the prediction; non-ok shows `data.error` or "Failed to make prediction"; a throw shows the network error; loading ends every time |
| `PredictionForm.Shouted` | app/components/PredictionForm.tsx:187 | the prediction with every ASCII lower-case letter upper-cased and every other character kept, so no `a`-`z` is left |
| `PredictionForm.ClassCaption` | app/components/PredictionForm.tsx:196 | only the first character of a class name is upper-cased (ASCII); the rest is kept |
| `PredictionForm.ProbabilityBars` | app/components/PredictionForm.tsx:193-203 | one bar per class in key order, at probability * 100, emerald exactly for "stable" |
| `PredictionForm.Headline` | app/components/PredictionForm.tsx:186-188 | the headline shouts the class and is emerald exactly for "stable" |
| `PredictionForm.OnlyLowerCaseStableIsEmerald` | app/components/PredictionForm.tsx:186-187 | "STABLE" shows in red although it reads the same shouted as "stable" |
| `SampleDataTable.Cell` | app/components/SampleDataTable.tsx:31 | a number shows to three decimals, any other value verbatim, a missing one blank |
| `SampleDataTable.Render` | app/components/SampleDataTable.tsx:8-33 | null or empty data shows "No sample data available."; otherwise the columns are the first row's keys and each data row gives one cell per column |
| `SampleDataTable.FirstRowHasNoBlanks` | app/components/SampleDataTable.tsx:12-31 | the first row has a value in every column |
| `SampleDataTable.BlankMeansMissing` | app/components/SampleDataTable.tsx:29-31 | a cell is blank exactly when its row lacks that column |

## Left out

- Requests themselves (`fetch`, endpoints, request bodies) are not modelled. Each handler takes the request's outcome as a parameter: ok with a body, non-ok with the body's `error` field, an unreadable body, or a thrown fetch. `String(errorData.error)` is taken as already computed.
- Timing and concurrency are not modelled: interval and timeout scheduling, `Promise.all`, and effects racing on one `loading` flag. The interval is one `progressTimer` flag, so a second upload started while an earlier interval is still scheduled (two intervals at once) is not captured.
- The data-loading effects are not modelled: the dashboard's dataset, model, model-performance and sample-data effects (app/components/Dashboard.tsx:115-238) and the comparison component's model list effect (app/components/ModelComparison.tsx:83-103). They are fetch-and-store only.
- Rendering is not modelled: Chart.js options, layout, the stab-correlation bar chart (app/components/CorrelationMatrix.tsx:212-233), and the border colours derived with `replace('0.7', '1')`.
- `Navigation.tsx`, `Loading.tsx`, `Footer.tsx` and the page files are not part of this model. They only fetch and compose components.
- Number formatting (`toFixed`, `toLocaleString`) and `parseFloat` are abstract. A field that `parseFloat` turns into NaN is `None`. In the sample table a number is only marked as shown to three decimals.
- `CorrelationMatrix.Magnitude`: the model ranks a non-numeric truthy value as 0 and `true` as 1. `Math.abs` would coerce a numeric string or a one-element array to its number, and give NaN elsewhere. A NaN comparator result leaves the engine's order implementation-defined, so that order is not modelled.
- `CorrelationMatrix.BackFill`: the model builds the filled vector as a new object. The source writes into the selected vector in place, and on the preferred path that vector is the caller's own object (aliasing). An array vector is taken to gain named fields like an object.
- `CorrelationMatrix.HeatCell`: a truthy non-number reaching `toFixed` makes the render throw; the model returns no cell.
- `ModelNames.FormatModelName`: upper-casing is ASCII only. Non-ASCII `toUpperCase` can change a string's length.
- `PredictionForm.Shouted`: upper-casing is ASCII only. JavaScript `toUpperCase` also maps non-ASCII letters ("é" to "É") and can lengthen a string ("ß" to "SS"), so the same-length ensures holds only for the ASCII model.
- `PredictionForm.ClassCaption`: the first character is upper-cased ASCII only, for the same reason; a non-ASCII first letter is left as it is.
- `Reports.SampleCount`: a report without a "macro avg" row makes the render throw; the model returns no value.
- Object keys are taken in the order `Object.keys` reports them. The engine's placement of integer-like keys first is assumed already applied. Inherited prototype properties are not modelled.
- `DatasetSummary.Width`: a zero total gives NaN widths in the source; the model gives no width.

## Findings

| source | as written | input that shows it | evidently intended | confidence | as-written member | corrected member |
|---|---|---|---|---|---|---|
| app/components/DatasetSummary.tsx:25 | `num_columns\|\|0 - 2` parses as `num_columns \|\| (0 - 2)`: a non-zero count is shown unchanged and an absent or zero count shows -2 | `num_columns = 14` (12 features plus `stab` and `stabf`) shows 14 features | `(num_columns \|\| 0) - 2`, the column count less the two target columns, matching the feature list below it | not executed | `DatasetSummary.FeaturesTileAsWritten`, exhibited by `DatasetSummary.FeaturesTileAsWrittenCountsTargets` | `DatasetSummary.FeaturesTile`, proved by `DatasetSummary.FeaturesTileMatchesList` |
