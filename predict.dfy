/**
 * The prediction page: the map of feature inputs (kept as an ordered list
 * of entries, as a JavaScript object keeps its string keys in insertion
 * order), the missing-input check before a request, the input kind of each
 * feature, and the clear-form reset. Server responses are parameters.
 */
module Predict {
  import opened Wrappers
  import opened Text
  import opened Lists

  /** One property of `inputValues`. */
  datatype Entry = Entry(feature: string, value: string)

  function Keys(m: seq<Entry>): (ks: seq<string>)
    ensures |ks| == |m|
    ensures forall i :: 0 <= i < |m| ==> ks[i] == m[i].feature
  {
    if m == [] then [] else [m[0].feature] + Keys(m[1..])
  }

  /** An object has each key once. */
  predicate UniqueKeys(m: seq<Entry>) {
    NoDuplicates(Keys(m))
  }

  /** `inputValues[feature]`, or None when the key is absent. */
  function Lookup(m: seq<Entry>, feature: string): Option<string> {
    if m == [] then None
    else if m[0].feature == feature then Some(m[0].value)
    else Lookup(m[1..], feature)
  }

  /** Lookup finds nothing exactly for the keys the object does not have. */
  lemma {:induction false} LookupAbsent(m: seq<Entry>, feature: string)
    ensures Lookup(m, feature).None? <==> feature !in Keys(m)
  {
    if m != [] {
      LookupAbsent(m[1..], feature);
      assert Keys(m) == [m[0].feature] + Keys(m[1..]);
    }
  }

  /**
   * `{...m, [feature]: value}` (and `m[feature] = value`): an existing key
   * keeps its place and gets the new value; a new key goes at the end.
   */
  function SetInput(m: seq<Entry>, feature: string, value: string): (r: seq<Entry>)
    ensures Lookup(r, feature) == Some(value)
    ensures forall f :: f != feature ==> Lookup(r, f) == Lookup(m, f)
    ensures feature in Keys(m) ==> Keys(r) == Keys(m)
    ensures feature !in Keys(m) ==> Keys(r) == Keys(m) + [feature]
  {
    if m == [] then
      Cons(Entry(feature, value), []);
      assert [Entry(feature, value)] + [] == [Entry(feature, value)];
      [Entry(feature, value)]
    else
      assert m == [m[0]] + m[1..];
      Cons(m[0], m[1..]);
      if m[0].feature == feature then
        Cons(Entry(feature, value), m[1..]);
        [Entry(feature, value)] + m[1..]
      else
        var rest := SetInput(m[1..], feature, value);
        Cons(m[0], rest);
        assert feature !in Keys(m[1..]) ==> [m[0].feature] + (Keys(m[1..]) + [feature]) == Keys(m) + [feature];
        [m[0]] + rest
  }

  /** Keys and lookup of an object with one more entry in front. */
  lemma Cons(e: Entry, m: seq<Entry>)
    ensures Keys([e] + m) == [e.feature] + Keys(m)
    ensures forall f :: Lookup([e] + m, f) == if e.feature == f then Some(e.value) else Lookup(m, f)
  {
    assert ([e] + m)[1..] == m;
  }

  /** Setting a value never duplicates a key. */
  lemma SetInputUnique(m: seq<Entry>, feature: string, value: string)
    requires UniqueKeys(m)
    ensures UniqueKeys(SetInput(m, feature, value))
  {
  }

  /** The object the forEach over `features` builds, each feature mapped to ''. */
  function EmptyInputs(features: seq<string>): (m: seq<Entry>)
    decreases |features|
  {
    if features == [] then []
    else
      var n := |features| - 1;
      SetInput(EmptyInputs(features[..n]), features[n], "")
  }

  /**
   * The built object has each listed feature once, mapped to '', nothing
   * else, and its keys in the order the features first occur.
   */
  lemma EmptyInputsShape(features: seq<string>)
    ensures var m := EmptyInputs(features);
            && UniqueKeys(m)
            && (forall i :: 0 <= i < |m| ==> m[i].value == "")
            && (forall f :: Lookup(m, f) == if f in features then Some("") else None)
            && IsSubsequence(Keys(m), features)
            && FirstOccurrenceOrder(Keys(m), features)
            && (NoDuplicates(features) ==> Keys(m) == features)
  {
    EmptyInputsUnique(features);
    EmptyInputsLookup(features);
    EmptyInputsValues(features);
    EmptyInputsOrder(features);
    EmptyInputsFirstOccurrence(features);
    EmptyInputsDistinct(features);
  }

  lemma {:induction false} EmptyInputsUnique(features: seq<string>)
    ensures UniqueKeys(EmptyInputs(features))
    decreases |features|
  {
    if features != [] {
      var n := |features| - 1;
      EmptyInputsUnique(features[..n]);
      SetInputUnique(EmptyInputs(features[..n]), features[n], "");
    }
  }

  lemma {:induction false} EmptyInputsLookup(features: seq<string>)
    ensures forall f :: Lookup(EmptyInputs(features), f) == if f in features then Some("") else None
    decreases |features|
  {
    if features != [] {
      var n := |features| - 1;
      var prefix, last := features[..n], features[n];
      var m := SetInput(EmptyInputs(prefix), last, "");
      assert EmptyInputs(features) == m;
      EmptyInputsLookup(prefix);
      assert features == prefix + [last];
      forall f ensures Lookup(m, f) == if f in features then Some("") else None {
        if f != last {
          assert f in features <==> f in prefix;
        }
      }
    }
  }

  lemma {:induction false} EmptyInputsValues(features: seq<string>)
    ensures forall i :: 0 <= i < |EmptyInputs(features)| ==> EmptyInputs(features)[i].value == ""
    decreases |features|
  {
    if features != [] {
      var n := |features| - 1;
      var before := EmptyInputs(features[..n]);
      var m := SetInput(before, features[n], "");
      assert EmptyInputs(features) == m;
      EmptyInputsValues(features[..n]);
      SetInputEntries(before, features[n], "");
      forall i | 0 <= i < |m|
        ensures m[i].value == ""
      {
        assert m[i] in m;
        assert m[i] in before || m[i] == Entry(features[n], "");
      }
    }
  }

  lemma {:induction false} EmptyInputsOrder(features: seq<string>)
    ensures IsSubsequence(Keys(EmptyInputs(features)), features)
    decreases |features|
  {
    if features != [] {
      var n := |features| - 1;
      var before := EmptyInputs(features[..n]);
      EmptyInputsOrder(features[..n]);
      assert features == features[..n] + [features[n]];
      SubsequenceExtend(Keys(before), features[..n], features[n]);
      SubsequenceAppend(Keys(before), features[..n], features[n]);
    }
  }

  /** The keys are exactly the listed features. */
  lemma {:induction false} EmptyInputsKeys(features: seq<string>)
    ensures forall f :: f in Keys(EmptyInputs(features)) <==> f in features
    decreases |features|
  {
    if features != [] {
      var n := |features| - 1;
      EmptyInputsKeys(features[..n]);
      assert features == features[..n] + [features[n]];
    }
  }

  /** The keys come in the order of the features' first occurrences. */
  lemma {:induction false} EmptyInputsFirstOccurrence(features: seq<string>)
    ensures FirstOccurrenceOrder(Keys(EmptyInputs(features)), features)
    decreases |features|
  {
    if features != [] {
      var n := |features| - 1;
      var prefix, last := features[..n], features[n];
      assert features == prefix + [last];
      EmptyInputsFirstOccurrence(prefix);
      FirstOccurrenceExtend(prefix, last, Keys(EmptyInputs(prefix)));
    }
  }

  /** Features listed once each become the keys in exactly their order. */
  lemma {:induction false} EmptyInputsDistinct(features: seq<string>)
    ensures NoDuplicates(features) ==> Keys(EmptyInputs(features)) == features
    decreases |features|
  {
    if features != [] && NoDuplicates(features) {
      var n := |features| - 1;
      assert features == features[..n] + [features[n]];
      assert NoDuplicates(features[..n]);
      EmptyInputsDistinct(features[..n]);
      assert features[n] !in features[..n];
    }
  }

  /** Every entry after a set is an old entry or the new one. */
  lemma {:induction false} SetInputEntries(m: seq<Entry>, feature: string, value: string)
    ensures forall e :: e in SetInput(m, feature, value) ==> e in m || e == Entry(feature, value)
  {
    if m != [] && m[0].feature != feature {
      SetInputEntries(m[1..], feature, value);
      assert SetInput(m, feature, value) == [m[0]] + SetInput(m[1..], feature, value);
      assert forall e :: e in m[1..] ==> e in m;
    } else if m != [] {
      assert forall e :: e in m[1..] ==> e in m;
    }
  }

  /** With unique keys, the entry at a position is what lookup of its key finds. */
  lemma {:induction false} EntryFound(m: seq<Entry>, i: int)
    requires UniqueKeys(m) && 0 <= i < |m|
    ensures Lookup(m, m[i].feature) == Some(m[i].value)
  {
    if i > 0 {
      assert Keys(m)[0] != Keys(m)[i];
      assert Keys(m[1..]) == Keys(m)[1..];
      EntryFound(m[1..], i - 1);
    }
  }

  /** The forEach loop that builds the empty inputs, one feature at a time. */
  method BuildEmptyInputs(features: seq<string>) returns (m: seq<Entry>)
    ensures m == EmptyInputs(features)
  {
    m := [];
    for i := 0 to |features|
      invariant m == EmptyInputs(features[..i])
    {
      assert features[..i + 1][..i] == features[..i];
      m := SetInput(m, features[i], "");
    }
    assert features[..|features|] == features;
  }

  // ---------------------------------------------------------------- missing inputs

  /** The keys whose value is '', in key order. */
  function Missing(m: seq<Entry>): (ks: seq<string>)
    ensures ks == [] <==> forall i :: 0 <= i < |m| ==> m[i].value != ""
    ensures IsSubsequence(ks, Keys(m))
    ensures UniqueKeys(m) ==> forall f :: f in ks <==> Lookup(m, f) == Some("")
  {
    if m == [] then []
    else
      var rest := Missing(m[1..]);
      assert Keys(m) == [m[0].feature] + Keys(m[1..]);
      assert UniqueKeys(m) ==> UniqueKeys(m[1..]) && m[0].feature !in Keys(m[1..]) by {
        if UniqueKeys(m) {
          assert Keys(m[1..]) == Keys(m)[1..];
          forall j | 0 <= j < |m| - 1 ensures Keys(m[1..])[j] != m[0].feature {
            assert Keys(m)[0] != Keys(m)[j + 1];
          }
        }
      }
      SubsequenceMembers(rest, Keys(m[1..]));
      if m[0].value == "" then
        assert ([m[0].feature] + rest)[1..] == rest;
        [m[0].feature] + rest
      else
        SubsequencePrepend(rest, Keys(m[1..]), m[0].feature);
        rest
  }

  lemma {:induction false} SubsequenceMembers(a: seq<string>, b: seq<string>)
    requires IsSubsequence(a, b)
    ensures forall x :: x in a ==> x in b
    decreases |b|
  {
    if a != [] && b != [] {
      if a[0] == b[0] {
        SubsequenceMembers(a[1..], b[1..]);
      } else {
        SubsequenceMembers(a, b[1..]);
      }
      assert a == [a[0]] + a[1..];
      assert b == [b[0]] + b[1..];
    }
  }

  const MissingPrefix := "Please fill in all required inputs: "

  /** The error listing the missing keys. */
  function MissingMessage(m: seq<Entry>): string {
    MissingPrefix + Join(Missing(m), ", ")
  }

  /** Right after initialising or clearing, every listed feature is missing. */
  lemma {:induction false} FreshInputsAllMissing(m: seq<Entry>)
    requires forall i :: 0 <= i < |m| ==> m[i].value == ""
    ensures Missing(m) == Keys(m)
  {
    if m != [] {
      FreshInputsAllMissing(m[1..]);
    }
  }

  /** So a form cleared over a non-empty feature list cannot be submitted. */
  lemma ClearedFormIsIncomplete(features: seq<string>)
    requires features != []
    ensures Missing(EmptyInputs(features)) != []
  {
    var m := EmptyInputs(features);
    EmptyInputsShape(features);
    FreshInputsAllMissing(m);
    assert Lookup(m, features[0]) == Some("");
  }

  // ---------------------------------------------------------------- input kinds

  /** The model description the server returns (its accuracy, a float, is not modelled). */
  datatype ModelInfo = ModelInfo(
    id: string,
    name: string,
    modelType: string,
    status: Option<string>,
    features: Option<seq<string>>,
    numericalFeatures: Option<seq<string>>,
    categoricalFeatures: Option<seq<string>>,
    categoricalOptions: Option<map<string, seq<string>>>)

  /** `list && list.includes(feature)`. */
  predicate Listed(list: Option<seq<string>>, feature: string) {
    list.Some? && feature in list.value
  }

  datatype InputKind = SelectInput(options: seq<string>) | NumberInput | TextInput

  /** `renderInputField`'s choice: a dropdown needs the options too, and it wins over numeric. */
  function InputKindFor(info: ModelInfo, feature: string): (k: InputKind)
    ensures k.SelectInput? <==>
              Listed(info.categoricalFeatures, feature)
              && info.categoricalOptions.Some? && feature in info.categoricalOptions.value
    ensures k.SelectInput? ==> k.options == info.categoricalOptions.value[feature]
    ensures k.NumberInput? <==> !k.SelectInput? && Listed(info.numericalFeatures, feature)
    ensures k.TextInput? <==> !k.SelectInput? && !Listed(info.numericalFeatures, feature)
  {
    if Listed(info.categoricalFeatures, feature) && info.categoricalOptions.Some?
       && feature in info.categoricalOptions.value
    then SelectInput(info.categoricalOptions.value[feature])
    else if Listed(info.numericalFeatures, feature) then NumberInput
    else TextInput
  }

  /** A categorical feature without options falls back to a number or text input. */
  lemma CategoricalWithoutOptions(info: ModelInfo, feature: string)
    requires Listed(info.categoricalFeatures, feature)
    requires info.categoricalOptions.None? || feature !in info.categoricalOptions.value
    ensures InputKindFor(info, feature) == if Listed(info.numericalFeatures, feature) then NumberInput else TextInput
  {
  }

  // ---------------------------------------------------------------- the page

  /** How the model-information request ended. */
  datatype LoadOutcome = ModelLoaded(info: ModelInfo) | ModelNotFound | ModelLoadFailed(detail: string)

  function LoadErrorText(outcome: LoadOutcome): (text: string)
    requires !outcome.ModelLoaded?
    ensures text != ""
    ensures outcome.ModelNotFound? ==> text == "Model not found"
    ensures outcome.ModelLoadFailed? ==> text == MessageOr(outcome.detail, "Failed to fetch model information")
  {
    if outcome.ModelNotFound? then "Model not found"
    else MessageOr(outcome.detail, "Failed to fetch model information")
  }

  /** A prediction as the server returns it; its fields are shown, not computed with. */
  datatype Prediction = Prediction(value: string, confidence: string, time: string)

  /** How the prediction request ended; `detail` is the error's text, possibly empty. */
  datatype PredictOutcome = Predicted(result: Prediction) | PredictFailed(detail: string)

  /** The request body, `{model_id, features}`. */
  datatype PredictionRequest = PredictionRequest(modelId: string, features: seq<Entry>)

  datatype PageState = PageState(
    loading: bool,
    error: string,
    modelInfo: Option<ModelInfo>,
    inputValues: seq<Entry>,
    prediction: Option<Prediction>,
    makingPrediction: bool,
    trainingStatus: string)

  class PredictPage {
    var loading: bool
    var error: string
    var modelInfo: Option<ModelInfo>
    var inputValues: seq<Entry>
    var prediction: Option<Prediction>
    var makingPrediction: bool
    var trainingStatus: string

    function State(): PageState
      reads this
    {
      PageState(loading, error, modelInfo, inputValues, prediction, makingPrediction, trainingStatus)
    }

    /** The inputs object never holds a key twice. */
    predicate Valid()
      reads this
    {
      UniqueKeys(inputValues)
    }

    constructor ()
      ensures Valid()
      ensures State() == PageState(true, "", None, [], None, false, "loading")
    {
      loading, error, modelInfo := true, "", None;
      inputValues, prediction := [], None;
      makingPrediction, trainingStatus := false, "loading";
    }

    /**
     * `fetchModelInfo`, given the response: the inputs start empty for every
     * listed feature and the status defaults to 'ready'; a failure records
     * its message and marks training failed. A success leaves `error` as it was.
     */
    method FinishModelLoad(outcome: LoadOutcome)
      modifies this
      requires Valid()
      ensures Valid()
      ensures outcome.ModelLoaded? ==>
                var info := outcome.info;
                State() == old(State()).(
                  modelInfo := Some(info),
                  inputValues := EmptyInputs(info.features.GetOr([])),
                  trainingStatus := MessageOr(info.status.GetOr(""), "ready"),
                  loading := false)
      ensures !outcome.ModelLoaded? ==>
                State() == old(State()).(error := LoadErrorText(outcome), loading := false, trainingStatus := "failed")
    {
      loading := true;
      if outcome.ModelLoaded? {
        var info := outcome.info;
        modelInfo := Some(info);
        inputValues := BuildEmptyInputs(info.features.GetOr([]));
        EmptyInputsShape(info.features.GetOr([]));
        trainingStatus := MessageOr(info.status.GetOr(""), "ready");
        loading := false;
      } else {
        error := LoadErrorText(outcome);
        loading := false;
        trainingStatus := "failed";
      }
    }

    /** `handleInputChange`: only this feature's value changes. */
    method HandleInputChange(feature: string, value: string)
      modifies this
      requires Valid()
      ensures Valid()
      ensures State() == old(State()).(inputValues := SetInput(old(inputValues), feature, value))
    {
      SetInputUnique(inputValues, feature, value);
      inputValues := SetInput(inputValues, feature, value);
    }

    /**
     * `handleMakePrediction`, given how the request would end. Any missing
     * input is reported by name and nothing is sent. The form that calls it
     * only exists once the model information is loaded.
     */
    method HandleMakePrediction(outcome: PredictOutcome) returns (request: Option<PredictionRequest>)
      modifies this
      requires modelInfo.Some?
      ensures var missing := Missing(old(inputValues));
              && (missing != [] ==>
                    request.None?
                    && State() == old(State()).(prediction := None, error := MissingMessage(old(inputValues)), makingPrediction := false))
              && (missing == [] ==> request == Some(PredictionRequest(old(modelInfo).value.id, old(inputValues))))
              && (missing == [] && outcome.Predicted? ==>
                    State() == old(State()).(prediction := Some(outcome.result), error := "", makingPrediction := false))
              && (missing == [] && outcome.PredictFailed? ==>
                    State() == old(State()).(prediction := None, error := MessageOr(outcome.detail, "Failed to make prediction"),
                                             makingPrediction := false))
    {
      makingPrediction := true;
      prediction := None;
      request := None;
      var missing := Missing(inputValues);
      if missing != [] {
        error := MissingMessage(inputValues);
        makingPrediction := false;
        return;
      }
      request := Some(PredictionRequest(modelInfo.value.id, inputValues));
      if outcome.Predicted? {
        prediction := Some(outcome.result);
        error := "";
      } else {
        error := MessageOr(outcome.detail, "Failed to make prediction");
      }
      makingPrediction := false;
    }

    /**
     * The Clear Form button: every listed feature back to '' and no
     * prediction. Without a feature list the handler throws before changing anything.
     */
    method ClearForm()
      modifies this
      requires modelInfo.Some?
      requires Valid()
      ensures Valid()
      ensures old(modelInfo).value.features.None? ==> State() == old(State())
      ensures old(modelInfo).value.features.Some? ==>
                State() == old(State()).(inputValues := EmptyInputs(old(modelInfo).value.features.value), prediction := None)
    {
      if modelInfo.value.features.Some? {
        inputValues := BuildEmptyInputs(modelInfo.value.features.value);
        EmptyInputsShape(modelInfo.value.features.value);
        prediction := None;
      }
    }
  }
}
