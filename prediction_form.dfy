/** The PredictionForm component: the twelve-parameter record, its two change handlers, the
    submit handler (split at its `await`), the parameter catalogue and the result display.

    A field holds `Some(x)` for a number and `None` for what is not one: `parseFloat` of a
    non-numeric input gives NaN, and a slider callback without a value gives `undefined`. */
module PredictionForm {
  import opened JsValues
  import opened Responses
  import ModelNames

  const TauNames: seq<string> := ["tau1", "tau2", "tau3", "tau4"]
  const PowerNames: seq<string> := ["p1", "p2", "p3", "p4"]
  const GammaNames: seq<string> := ["g1", "g2", "g3", "g4"]
  /** The record's fields, in order. */
  const FieldNames: seq<string> := TauNames + PowerNames + GammaNames
  const PredictFailed := "Failed to make prediction"
  const NetworkError := "Network error. Please try again."
  const StableClass := "stable"

  type FormData = map<string, Option<real>>

  function InitialFormData(): (d: FormData)
    ensures forall n :: n in d <==> n in TauNames || n in PowerNames || n in GammaNames
    ensures forall n :: n in TauNames ==> d[n] == Some(8.0)
    ensures forall n :: n in PowerNames ==> d[n] == Some(0.5)
    ensures forall n :: n in GammaNames ==> d[n] == Some(0.1)
  {
    map["tau1" := Some(8.0), "tau2" := Some(8.0), "tau3" := Some(8.0), "tau4" := Some(8.0),
        "p1" := Some(0.5), "p2" := Some(0.5), "p3" := Some(0.5), "p4" := Some(0.5),
        "g1" := Some(0.1), "g2" := Some(0.1), "g3" := Some(0.1), "g4" := Some(0.1)]
  }

  // ---------------------------------------------------------------- the catalogue

  datatype Param = Param(name: string, caption: string, min: real, max: real, step: real)

  datatype Section = Section(title: string, description: string, params: seq<Param>)

  const TimeConstants := Section("Time Constants", "Time constants of first order system", [
    Param("tau1", "\U{03C4}\U{2081}", 0.1, 20.0, 0.1),
    Param("tau2", "\U{03C4}\U{2082}", 0.1, 20.0, 0.1),
    Param("tau3", "\U{03C4}\U{2083}", 0.1, 20.0, 0.1),
    Param("tau4", "\U{03C4}\U{2084}", 0.1, 20.0, 0.1)])
  const GainValues := Section("Gain Values", "Gain parameters of the system", [
    Param("p1", "p\U{2081}", 0.0, 1.0, 0.01),
    Param("p2", "p\U{2082}", 0.0, 1.0, 0.01),
    Param("p3", "p\U{2083}", 0.0, 1.0, 0.01),
    Param("p4", "p\U{2084}", 0.0, 1.0, 0.01)])
  const LoadParameters := Section("Load Parameters", "Grid loading parameters", [
    Param("g1", "g\U{2081}", 0.0, 1.0, 0.01),
    Param("g2", "g\U{2082}", 0.0, 1.0, 0.01),
    Param("g3", "g\U{2083}", 0.0, 1.0, 0.01),
    Param("g4", "g\U{2084}", 0.0, 1.0, 0.01)])

  const ParameterSections: seq<Section> := [TimeConstants, GainValues, LoadParameters]

  /** The catalogue's parameters, section after section. */
  function AllParams(sections: seq<Section>): seq<Param> {
    if sections == [] then [] else sections[0].params + AllParams(sections[1..])
  }

  function Names(ps: seq<Param>): (ns: seq<string>)
    ensures |ns| == |ps|
    ensures forall i :: 0 <= i < |ps| ==> ns[i] == ps[i].name
  {
    if ps == [] then [] else [ps[0].name] + Names(ps[1..])
  }

  lemma NamesAppend(a: seq<Param>, b: seq<Param>)
    ensures Names(a + b) == Names(a) + Names(b)
  {
    var l, r := Names(a + b), Names(a) + Names(b);
    forall i | 0 <= i < |l| ensures l[i] == r[i] {
      if i < |a| {
        assert (a + b)[i] == a[i];
      } else {
        assert (a + b)[i] == b[i - |a|];
      }
    }
  }

  lemma CatalogueFlattens()
    ensures AllParams(ParameterSections) == TimeConstants.params + GainValues.params + LoadParameters.params
  {
    var ss := ParameterSections;
    var t, g, l := TimeConstants.params, GainValues.params, LoadParameters.params;
    assert ss[1..] == [GainValues, LoadParameters];
    assert ss[1..][1..] == [LoadParameters];
    assert ss[1..][1..][1..] == [];
    assert AllParams([LoadParameters]) == l + [] == l;
    assert AllParams(ss[1..]) == g + l;
    assert t + (g + l) == t + g + l;
  }

  /** Three sections of four parameters whose names are the record's fields, in order. */
  lemma CatalogueNamesAreFields()
    ensures |ParameterSections| == 3
    ensures forall s :: s in ParameterSections ==> |s.params| == 4
    ensures Names(AllParams(ParameterSections)) == FieldNames
  {
    CatalogueFlattens();
    NamesAppend(TimeConstants.params + GainValues.params, LoadParameters.params);
    NamesAppend(TimeConstants.params, GainValues.params);
    assert Names(TimeConstants.params) == TauNames;
    assert Names(GainValues.params) == PowerNames;
    assert Names(LoadParameters.params) == GammaNames;
  }

  /** Every parameter's range is non-empty and its step positive. */
  lemma CatalogueRangesAreSound()
    ensures forall p :: p in AllParams(ParameterSections) ==> p.min < p.max && p.step > 0.0
  {
    CatalogueFlattens();
    var ps := TimeConstants.params + GainValues.params + LoadParameters.params;
    forall p | p in ps ensures p.min < p.max && p.step > 0.0 {
      assert p in TimeConstants.params || p in GainValues.params || p in LoadParameters.params;
    }
  }

  /** The catalogue names exactly the record's fields. */
  lemma CatalogueCoversRecord()
    ensures (set p | p in AllParams(ParameterSections) :: p.name) == InitialFormData().Keys
  {
    var ps := AllParams(ParameterSections);
    var d := InitialFormData();
    CatalogueNamesAreFields();
    forall n ensures n in d <==> n in FieldNames {
      assert n in FieldNames <==> n in TauNames || n in PowerNames || n in GammaNames;
    }
    forall n | n in FieldNames ensures exists p :: p in ps && p.name == n {
      var i :| 0 <= i < |FieldNames| && FieldNames[i] == n;
      assert Names(ps)[i] == n;
      assert ps[i].name == n;
    }
    forall p | p in ps ensures p.name in FieldNames {
      var i :| 0 <= i < |ps| && ps[i] == p;
      assert Names(ps)[i] == p.name;
    }
  }

  // ---------------------------------------------------------------- the record

  datatype Prediction = Prediction(predicted: string, probabilities: seq<(string, real)>)

  class FormState {
    var formData: FormData
    var prediction: Option<Prediction>
    var loading: bool
    var error: string

    constructor ()
      ensures formData == InitialFormData()
      ensures prediction.None? && !loading && error == ""
    {
      formData := InitialFormData();
      prediction := None;
      loading := false;
      error := "";
    }

    /** `setFormData({...formData, [name]: value})`: the named field takes the value as given,
        unclamped, and every other field keeps its value. An unknown name adds a field. */
    method SetField(name: string, value: Option<real>)
      modifies this
      ensures formData.Keys == old(formData).Keys + {name}
      ensures formData[name] == value
      ensures forall k :: k in old(formData) && k != name ==> formData[k] == old(formData)[k]
      ensures prediction == old(prediction) && loading == old(loading) && error == old(error)
    {
      formData := formData[name := value];
    }

    /** `handleChange`: the input's `parseFloat`-ed value, `None` when that is NaN. */
    method HandleChange(name: string, parsed: Option<real>)
      modifies this
      ensures formData.Keys == old(formData).Keys + {name}
      ensures formData[name] == parsed
      ensures forall k :: k in old(formData) && k != name ==> formData[k] == old(formData)[k]
      ensures prediction == old(prediction) && loading == old(loading) && error == old(error)
    {
      SetField(name, parsed);
    }

    /** `handleSliderChange`: the slider's first value, `None` when it passes none. */
    method HandleSliderChange(name: string, value: seq<real>)
      modifies this
      ensures formData.Keys == old(formData).Keys + {name}
      ensures formData[name] == (if |value| > 0 then Some(value[0]) else None)
      ensures forall k :: k in old(formData) && k != name ==> formData[k] == old(formData)[k]
      ensures prediction == old(prediction) && loading == old(loading) && error == old(error)
    {
      SetField(name, if |value| > 0 then Some(value[0]) else None);
    }

    /** `handleSubmit` up to its `fetch`. */
    method StartSubmit()
      modifies this
      ensures loading && error == ""
      ensures formData == old(formData) && prediction == old(prediction)
    {
      loading := true;
      error := "";
    }

    /** The rest of `handleSubmit`. The body is read before the status is looked at, so an
        unreadable body counts as a network error like a failed request. Loading ends in
        every case; a failure leaves the previous prediction on screen. */
    method FinishSubmit(outcome: Response<Prediction>)
      modifies this
      ensures !loading
      ensures formData == old(formData)
      ensures outcome.Ok? ==> prediction == Some(outcome.body) && error == old(error)
      ensures outcome.NotOk? ==> prediction == old(prediction) && error == outcome.errorText.GetOr(PredictFailed)
      ensures (outcome.Unreadable? || outcome.Threw?) ==> prediction == old(prediction) && error == NetworkError
    {
      match outcome {
        case Ok(p) => prediction := Some(p);
        case NotOk(text) => error := text.GetOr(PredictFailed);
        case Unreadable(_) => error := NetworkError;
        case Threw(_) => error := NetworkError;
      }
      loading := false;
    }
  }

  // ---------------------------------------------------------------- display

  /** `prediction.toUpperCase()`, ASCII only. */
  function Shouted(s: string): (r: string)
    ensures |r| == |s|
    ensures forall i :: 0 <= i < |s| ==> r[i] == ModelNames.Upper(s[i])
    ensures forall i :: 0 <= i < |s| ==> !('a' <= r[i] <= 'z')
  {
    if s == [] then [] else [ModelNames.Upper(s[0])] + Shouted(s[1..])
  }

  /** `className.charAt(0).toUpperCase() + className.slice(1)`, ASCII only. */
  function ClassCaption(name: string): (r: string)
    ensures |r| == |name|
    ensures |name| > 0 ==> r[0] == ModelNames.Upper(name[0]) && r[1..] == name[1..]
  {
    ModelNames.Capitalise(name)
  }

  datatype Bar = Bar(caption: string, percent: real, emerald: bool)

  /** One bar per class probability, in key order; only the class `stable` is emerald. */
  function ProbabilityBars(probabilities: seq<(string, real)>): (bars: seq<Bar>)
    ensures |bars| == |probabilities|
    ensures forall i :: 0 <= i < |bars| ==> bars[i].caption == ClassCaption(probabilities[i].0)
    ensures forall i :: 0 <= i < |bars| ==> bars[i].percent == probabilities[i].1 * 100.0
    ensures forall i :: 0 <= i < |bars| ==> (bars[i].emerald <==> probabilities[i].0 == StableClass)
  {
    seq(|probabilities|, i requires 0 <= i < |probabilities| =>
      Bar(ClassCaption(probabilities[i].0), probabilities[i].1 * 100.0, probabilities[i].0 == StableClass))
  }

  /** The headline: the predicted class shouted, emerald only for `stable`. */
  function Headline(p: Prediction): (r: (string, bool))
    ensures r.0 == Shouted(p.predicted)
    ensures r.1 <==> p.predicted == StableClass
  {
    (Shouted(p.predicted), p.predicted == StableClass)
  }

  /** Case matters: `Stable` or `STABLE` is shown in red, although it reads the same shouted. */
  lemma OnlyLowerCaseStableIsEmerald()
    ensures !Headline(Prediction("STABLE", [])).1
    ensures Headline(Prediction("STABLE", [])).0 == Headline(Prediction("stable", [])).0
  {
  }
}
