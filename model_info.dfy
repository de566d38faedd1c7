/**
 * The normalisation `getModelInfo` applies to the decoded `/model/info`
 * response: every canonical field is resolved from an ordered list of
 * backend field names, with `||` (skip falsy values) for the descriptive
 * fields and `??` (skip only null and undefined) for the metrics.
 *
 * `Normalise` is the object literal as the client writes it; `ByTable` is
 * the same mapping stated as a table of candidate names resolved
 * first-match-wins by `Pick`. `NormaliseMatchesTable` proves they agree.
 */
module ModelInfoNormalisation {
  import opened JsValues

  datatype Metrics = Metrics(
    accuracy: JsValue,
    precision: JsValue,
    recall: JsValue,
    f1Score: JsValue,
    aucScore: JsValue)

  /** The canonical ModelInfoResponse shape. */
  datatype ModelInfo = ModelInfo(
    modelName: JsValue,
    modelVersion: JsValue,
    trainingDate: JsValue,
    totalSamplesTrained: JsValue,
    metrics: Metrics)

  /** Every field of the result except `model_name` is defined (neither null nor undefined). */
  predicate Defined(info: ModelInfo) {
    && !Nullish(info.modelVersion)
    && !Nullish(info.trainingDate)
    && !Nullish(info.totalSamplesTrained)
    && !Nullish(info.metrics.accuracy)
    && !Nullish(info.metrics.precision)
    && !Nullish(info.metrics.recall)
    && !Nullish(info.metrics.f1Score)
    && !Nullish(info.metrics.aucScore)
  }

  /**
   * The object literal `getModelInfo` returns for the decoded body `data`.
   * Reading `data.model_name` first throws a TypeError when `data` is null;
   * on any other value every later read succeeds.
   */
  function Normalise(data: JsValue): (r: Completion<ModelInfo>)
    ensures r.Throw? <==> Nullish(data)
    ensures r.Throw? ==> r.error == NullReadError(data, "model_name")
    ensures r.Normal? ==> Defined(r.value)
  {
    match Read(data, "model_name")
    case Throw(e) => Throw(e)
    case Normal(name) =>
      Normal(ModelInfo(
        modelName := name,
        modelVersion := Or(Or(Prop(data, "model_version"), Prop(data, "model_type")), Str("")),
        trainingDate := Or(Or(Prop(data, "last_trained"), Prop(data, "training_date")), Str("")),
        totalSamplesTrained := Or(Prop(data, "total_samples_trained"), Zero),
        metrics := Metrics(
          accuracy := Coalesce(Prop(data, "accuracy"), Zero),
          precision := Coalesce(Prop(data, "precision"), Zero),
          recall := Coalesce(Prop(data, "recall"), Zero),
          f1Score := Coalesce(Prop(data, "f1_score"), Zero),
          aucScore := Coalesce(Coalesce(Prop(data, "roc_auc"), Prop(data, "auc_score")), Zero))))
  }

  // ---------------------------------------------------------------------------
  // Reference: an ordered candidate list per canonical field
  // ---------------------------------------------------------------------------

  /** Which candidates a rule accepts: `||` takes the first truthy one, `??` the first non-nullish one. */
  datatype Choice = FirstTruthy | FirstPresent

  predicate Accepts(choice: Choice, v: JsValue) {
    match choice
    case FirstTruthy => Truthy(v)
    case FirstPresent => !Nullish(v)
  }

  /** A canonical field's backend names in order of preference, and its default. */
  datatype Candidates = Candidates(keys: seq<string>, choice: Choice, fallback: JsValue)

  /** The first candidate value the rule accepts, or the default when it accepts none. */
  function Pick(data: JsValue, keys: seq<string>, choice: Choice, fallback: JsValue): (r: JsValue)
    ensures Accepts(choice, r) || r == fallback
  {
    if keys == [] then fallback
    else if Accepts(choice, Prop(data, keys[0])) then Prop(data, keys[0])
    else Pick(data, keys[1..], choice, fallback)
  }

  function Resolve(data: JsValue, rule: Candidates): JsValue {
    Pick(data, rule.keys, rule.choice, rule.fallback)
  }

  const ModelVersionRule := Candidates(["model_version", "model_type"], FirstTruthy, Str(""))
  const TrainingDateRule := Candidates(["last_trained", "training_date"], FirstTruthy, Str(""))
  const SamplesRule := Candidates(["total_samples_trained"], FirstTruthy, Zero)
  const AccuracyRule := Candidates(["accuracy"], FirstPresent, Zero)
  const PrecisionRule := Candidates(["precision"], FirstPresent, Zero)
  const RecallRule := Candidates(["recall"], FirstPresent, Zero)
  const F1Rule := Candidates(["f1_score"], FirstPresent, Zero)
  const AucRule := Candidates(["roc_auc", "auc_score"], FirstPresent, Zero)

  /** Every backend field name the normalisation reads. */
  const ReadKeys: set<string> := {
    "model_name", "model_version", "model_type", "last_trained", "training_date",
    "total_samples_trained", "accuracy", "precision", "recall", "f1_score", "roc_auc", "auc_score"}

  /** The canonical record resolved from the table; `model_name` is copied with no fallback. */
  function ByTable(data: JsValue): ModelInfo {
    ModelInfo(
      Prop(data, "model_name"),
      Resolve(data, ModelVersionRule),
      Resolve(data, TrainingDateRule),
      Resolve(data, SamplesRule),
      Metrics(
        Resolve(data, AccuracyRule),
        Resolve(data, PrecisionRule),
        Resolve(data, RecallRule),
        Resolve(data, F1Rule),
        Resolve(data, AucRule)))
  }

  /** Pick returns the first accepted candidate: the one at `i` when all before it are rejected. */
  lemma {:induction false} PickFirstAccepted(data: JsValue, keys: seq<string>, choice: Choice, fallback: JsValue, i: nat)
    requires i < |keys| && Accepts(choice, Prop(data, keys[i]))
    requires forall j :: 0 <= j < i ==> !Accepts(choice, Prop(data, keys[j]))
    ensures Pick(data, keys, choice, fallback) == Prop(data, keys[i])
  {
    if i > 0 {
      assert !Accepts(choice, Prop(data, keys[0]));
      var rest := keys[1..];
      assert forall j :: 0 <= j < i - 1 ==> rest[j] == keys[j + 1];
      PickFirstAccepted(data, rest, choice, fallback, i - 1);
    }
  }

  /** When the rule accepts no candidate, Pick returns the default (for the `??` metrics: 0). */
  lemma {:induction false} PickNoneAccepted(data: JsValue, keys: seq<string>, choice: Choice, fallback: JsValue)
    requires forall j :: 0 <= j < |keys| ==> !Accepts(choice, Prop(data, keys[j]))
    ensures Pick(data, keys, choice, fallback) == fallback
  {
    if keys != [] {
      var rest := keys[1..];
      assert forall j :: 0 <= j < |rest| ==> rest[j] == keys[j + 1];
      PickNoneAccepted(data, rest, choice, fallback);
    }
  }

  /**
   * Conversely, when the default itself is not accepted (the `||` fields),
   * Pick returns the default only when the rule accepts no candidate.
   */
  lemma {:induction false} PickFallback(data: JsValue, keys: seq<string>, choice: Choice, fallback: JsValue)
    requires !Accepts(choice, fallback)
    requires Pick(data, keys, choice, fallback) == fallback
    ensures forall j :: 0 <= j < |keys| ==> !Accepts(choice, Prop(data, keys[j]))
  {
    if keys != [] {
      var rest := keys[1..];
      assert forall j :: 1 <= j < |keys| ==> keys[j] == rest[j - 1];
      PickFallback(data, rest, choice, fallback);
    }
  }

  lemma PickPair(data: JsValue, a: string, b: string, choice: Choice, fallback: JsValue)
    ensures Pick(data, [a, b], choice, fallback)
         == if Accepts(choice, Prop(data, a)) then Prop(data, a)
            else if Accepts(choice, Prop(data, b)) then Prop(data, b)
            else fallback
  {
    assert [a, b][1..] == [b];
    PickSingle(data, b, choice, fallback);
  }

  lemma PickSingle(data: JsValue, a: string, choice: Choice, fallback: JsValue)
    ensures Pick(data, [a], choice, fallback)
         == if Accepts(choice, Prop(data, a)) then Prop(data, a) else fallback
  {
    assert [a][1..] == [];
  }

  /** The `||`/`??` chains compute exactly the candidate table, and throw only on a null or undefined body. */
  lemma NormaliseMatchesTable(data: JsValue)
    ensures Normalise(data) == if Nullish(data) then Throw(NullReadError(data, "model_name")) else Normal(ByTable(data))
  {
    PickPair(data, "model_version", "model_type", FirstTruthy, Str(""));
    PickPair(data, "last_trained", "training_date", FirstTruthy, Str(""));
    PickSingle(data, "total_samples_trained", FirstTruthy, Zero);
    PickSingle(data, "accuracy", FirstPresent, Zero);
    PickSingle(data, "precision", FirstPresent, Zero);
    PickSingle(data, "recall", FirstPresent, Zero);
    PickSingle(data, "f1_score", FirstPresent, Zero);
    PickPair(data, "roc_auc", "auc_score", FirstPresent, Zero);
  }

  // ---------------------------------------------------------------------------
  // Precedence and defaults, field by field
  // ---------------------------------------------------------------------------

  /**
   * model_version: a truthy `model_version` wins; a falsy one (such as "")
   * gives way to a truthy `model_type`; otherwise "".
   */
  lemma ModelVersionPrecedence(data: JsValue)
    requires !Nullish(data)
    ensures var v := Normalise(data).value.modelVersion;
      && (Truthy(Prop(data, "model_version")) ==> v == Prop(data, "model_version"))
      && (!Truthy(Prop(data, "model_version")) && Truthy(Prop(data, "model_type")) ==> v == Prop(data, "model_type"))
      && (!Truthy(Prop(data, "model_version")) && !Truthy(Prop(data, "model_type")) ==> v == Str(""))
  {
  }

  /** An empty-string model_version falls through to model_type. */
  lemma EmptyModelVersionFallsThrough(data: JsValue, modelType: string)
    requires Prop(data, "model_version") == Str("")
    requires Prop(data, "model_type") == Str(modelType) && modelType != ""
    ensures Normalise(data).value.modelVersion == Str(modelType)
  {
  }

  /** training_date: a truthy `last_trained` wins over `training_date`; otherwise `training_date` if truthy, else "". */
  lemma TrainingDatePrecedence(data: JsValue)
    requires !Nullish(data)
    ensures var v := Normalise(data).value.trainingDate;
      && (Truthy(Prop(data, "last_trained")) ==> v == Prop(data, "last_trained"))
      && (!Truthy(Prop(data, "last_trained")) && Truthy(Prop(data, "training_date")) ==> v == Prop(data, "training_date"))
      && (!Truthy(Prop(data, "last_trained")) && !Truthy(Prop(data, "training_date")) ==> v == Str(""))
  {
  }

  /** total_samples_trained: the raw value when truthy, otherwise 0 (so a raw "" or false becomes 0). */
  lemma SamplesDefault(data: JsValue)
    requires !Nullish(data)
    ensures var v := Normalise(data).value.totalSamplesTrained;
      && (Truthy(Prop(data, "total_samples_trained")) ==> v == Prop(data, "total_samples_trained"))
      && (!Truthy(Prop(data, "total_samples_trained")) ==> v == Zero)
  {
  }

  /**
   * accuracy, precision, recall and f1_score keep any raw value that is not
   * null or undefined, including the falsy 0, "" and false, and default to 0
   * otherwise.
   */
  lemma MetricsKeepPresentValues(data: JsValue)
    requires !Nullish(data)
    ensures var m := Normalise(data).value.metrics;
      && m.accuracy == (if Nullish(Prop(data, "accuracy")) then Zero else Prop(data, "accuracy"))
      && m.precision == (if Nullish(Prop(data, "precision")) then Zero else Prop(data, "precision"))
      && m.recall == (if Nullish(Prop(data, "recall")) then Zero else Prop(data, "recall"))
      && m.f1Score == (if Nullish(Prop(data, "f1_score")) then Zero else Prop(data, "f1_score"))
  {
  }

  /**
   * auc_score: `roc_auc` wins whenever it is present, even when it is 0;
   * otherwise `auc_score` when present; otherwise 0.
   */
  lemma AucPrecedence(data: JsValue)
    requires !Nullish(data)
    ensures var v := Normalise(data).value.metrics.aucScore;
      && (!Nullish(Prop(data, "roc_auc")) ==> v == Prop(data, "roc_auc"))
      && (Nullish(Prop(data, "roc_auc")) && !Nullish(Prop(data, "auc_score")) ==> v == Prop(data, "auc_score"))
      && (Nullish(Prop(data, "roc_auc")) && Nullish(Prop(data, "auc_score")) ==> v == Zero)
  {
  }

  /** roc_auc 0.9 and auc_score 0.5 give 0.9; a roc_auc of 0 is kept rather than replaced by auc_score. */
  lemma AucExamples()
    ensures Normalise(Obj(map["roc_auc" := Num(9, 1), "auc_score" := Num(5, 1)])).value.metrics.aucScore == Num(9, 1)
    ensures Normalise(Obj(map["auc_score" := Num(7, 1)])).value.metrics.aucScore == Num(7, 1)
    ensures Normalise(Obj(map["roc_auc" := Zero, "auc_score" := Num(5, 1)])).value.metrics.aucScore == Zero
    ensures Normalise(Obj(map[])).value.metrics.aucScore == Zero
  {
  }

  /** model_name is copied as it is, undefined included: it has no fallback. */
  lemma ModelNamePassThrough(data: JsValue)
    requires !Nullish(data)
    ensures Normalise(data).value.modelName == Prop(data, "model_name")
  {
  }

  /** Two bodies that agree on the twelve field names read give the same result: no other field matters. */
  lemma OnlyReadKeysMatter(a: JsValue, b: JsValue)
    requires !Nullish(a) && !Nullish(b)
    requires forall k :: k in ReadKeys ==> Prop(a, k) == Prop(b, k)
    ensures Normalise(a) == Normalise(b)
  {
  }

  /** A body holding only a name, accuracy, f1_score and roc_auc normalises with every other field at its default. */
  lemma DashboardExample()
    ensures Normalise(Obj(map[
        "model_name" := Str("churn-v2"), "accuracy" := Num(91, 2),
        "f1_score" := Num(88, 2), "roc_auc" := Num(93, 2)]))
      == Normal(ModelInfo(Str("churn-v2"), Str(""), Str(""), Zero,
           Metrics(Num(91, 2), Zero, Zero, Num(88, 2), Num(93, 2))))
  {
  }
}
