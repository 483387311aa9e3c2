/** The model builder: a problem type picks a table of models, a model picks its list of
    optional hyperparameters, and the choices are posted as a training request. */
module ModelBuilder {
  import opened Wrappers
  import opened Json
  import opened Effects

  const TrainEndpoint := "/process/train_model"
  const StartedNotice := "Model training initiated successfully!"
  const FailedNotice := "Failed to initiate model training. Please try again."
  const FailedResult := "Failed to initiate model training"

  /** One model of a problem type's table and the hyperparameters it offers, in menu order. */
  datatype ModelEntry = ModelEntry(name: string, params: seq<string>)

  const ProblemTypes := ["classification", "regression"]

  const ClassificationModels := [
    ModelEntry("logistic_regression", [
      "penalty", "C", "solver", "multi_class", "max_iter", "tol",
      "fit_intercept", "intercept_scaling", "class_weight", "random_state",
      "verbose", "n_jobs", "l1_ratio"]),
    ModelEntry("random_forest", [
      "n_estimators", "criterion", "max_depth", "min_samples_split", "min_samples_leaf",
      "max_features", "bootstrap", "oob_score", "n_jobs", "random_state",
      "verbose", "class_weight", "max_samples"]),
    ModelEntry("xgb_classifier", [
      "booster", "n_estimators", "learning_rate", "max_depth", "min_child_weight",
      "subsample", "colsample_bytree", "colsample_bylevel", "colsample_bynode",
      "gamma", "reg_alpha", "reg_lambda", "objective", "num_class", "eval_metric",
      "random_state", "n_jobs"]),
    ModelEntry("lightgbm", [
      "boosting_type", "objective", "num_class", "metric", "n_estimators", "learning_rate",
      "num_leaves", "max_depth", "min_child_samples", "subsample", "colsample_bytree",
      "reg_alpha", "reg_lambda", "class_weight", "is_unbalance", "random_state", "n_jobs",
      "verbosity"])]

  const RegressionModels := [
    ModelEntry("linear_regression", [
      "fit_intercept", "normalize", "copy_X", "n_jobs", "positive"]),
    ModelEntry("random_forest", [
      "n_estimators", "criterion", "max_depth", "min_samples_split", "min_samples_leaf",
      "max_features", "bootstrap", "oob_score", "n_jobs", "random_state",
      "verbose", "max_samples"]),
    ModelEntry("xgb_regressor", [
      "booster", "n_estimators", "learning_rate", "max_depth", "min_child_weight",
      "subsample", "colsample_bytree", "colsample_bylevel", "colsample_bynode",
      "gamma", "reg_alpha", "reg_lambda", "objective", "eval_metric", "random_state",
      "n_jobs"]),
    ModelEntry("lightgbm", [
      "boosting_type", "objective", "metric", "n_estimators", "learning_rate", "num_leaves",
      "max_depth", "min_child_samples", "subsample", "colsample_bytree", "reg_alpha",
      "reg_lambda", "random_state", "n_jobs", "verbosity"])]

  /** `modelOptions[problemType]` for the two problem types the menu offers. */
  function ModelTable(problemType: string): seq<ModelEntry>
    requires problemType in ProblemTypes
  {
    if problemType == "classification" then ClassificationModels else RegressionModels
  }

  function EntryNames(entries: seq<ModelEntry>): (names: seq<string>)
    ensures |names| == |entries|
    ensures forall i :: 0 <= i < |entries| ==> names[i] == entries[i].name
  {
    seq(|entries|, i requires 0 <= i < |entries| => entries[i].name)
  }

  /** `table[name]`, with `None` for `undefined`. */
  function FindParams(entries: seq<ModelEntry>, name: string): (r: Option<seq<string>>)
    ensures r.None? <==> forall i :: 0 <= i < |entries| ==> entries[i].name != name
    ensures r.Some? ==> exists i :: 0 <= i < |entries| && entries[i] == ModelEntry(name, r.value)
  {
    if entries == [] then None
    else if entries[0].name == name then Some(entries[0].params)
    else
      var r := FindParams(entries[1..], name);
      assert forall i :: 1 <= i < |entries| ==> entries[i] == entries[1..][i - 1];
      r
  }

  /** The lookup finds an entry whose name no earlier entry has. */
  lemma {:induction false} FindParamsAt(entries: seq<ModelEntry>, i: nat)
    requires i < |entries| && forall j :: 0 <= j < i ==> entries[j].name != entries[i].name
    ensures FindParams(entries, entries[i].name) == Some(entries[i].params)
  {
    if i > 0 {
      assert entries[0].name != entries[i].name;
      assert entries[1..][i - 1] == entries[i];
      assert forall j :: 0 <= j < i - 1 ==> entries[1..][j] == entries[j + 1];
      FindParamsAt(entries[1..], i - 1);
    }
  }

  /** `modelsForProblem`: nothing until a problem type is chosen, then that table's model
      names in order. The select offers only `""` and the two table keys. */
  function ModelsForProblem(problemType: string): (models: seq<string>)
    requires problemType == "" || problemType in ProblemTypes
    ensures problemType == "" ==> models == []
    ensures problemType != "" ==> models == EntryNames(ModelTable(problemType))
  {
    if problemType == "" then [] else EntryNames(ModelTable(problemType))
  }

  /** `paramsForModel`: `[]` unless both a problem type and a model are chosen, otherwise the
      table entry (`None` when the table has no such model). */
  function ParamsForModel(problemType: string, modelName: string): (params: Option<seq<string>>)
    requires problemType == "" || problemType in ProblemTypes
    ensures problemType == "" || modelName == "" ==> params == Some([])
    ensures problemType != "" && modelName != "" ==>
      (params.None? <==> modelName !in EntryNames(ModelTable(problemType)))
    ensures problemType != "" && modelName != "" && params.Some? ==>
      exists i :: 0 <= i < |ModelTable(problemType)| && ModelTable(problemType)[i] == ModelEntry(modelName, params.value)
  {
    if problemType == "" || modelName == "" then Some([]) else FindParams(ModelTable(problemType), modelName)
  }

  /** The model menus: four models per problem type, in table order. */
  lemma MenuFacts()
    ensures ModelsForProblem("classification") == ["logistic_regression", "random_forest", "xgb_classifier", "lightgbm"]
    ensures ModelsForProblem("regression") == ["linear_regression", "random_forest", "xgb_regressor", "lightgbm"]
  {
  }

  /** How many optional hyperparameters each model offers. */
  lemma ParamCounts()
    ensures seq(4, i requires 0 <= i < 4 => |ClassificationModels[i].params|) == [13, 13, 17, 18]
    ensures seq(4, i requires 0 <= i < 4 => |RegressionModels[i].params|) == [5, 12, 16, 15]
  {
  }

  /** Every model a menu offers has its own table entry as its parameter list. */
  lemma MenuModelsHaveParams(problemType: string, i: nat)
    requires problemType in ProblemTypes && i < |ModelTable(problemType)|
    ensures ParamsForModel(problemType, ModelsForProblem(problemType)[i]) == Some(ModelTable(problemType)[i].params)
  {
    assert ModelsForProblem(problemType)[i] == ModelTable(problemType)[i].name;
    MenuFacts();
    forall j | 0 <= j < i
      ensures ModelTable(problemType)[j].name != ModelTable(problemType)[i].name
    {
      assert ModelsForProblem(problemType)[j] == ModelTable(problemType)[j].name;
    }
    FindParamsAt(ModelTable(problemType), i);
  }

  /** The payload `handleSubmit` posts; the user's ids are dropped when `undefined`. */
  function TrainPayload(target: string, problemType: string, modelName: string, hyperparameters: Object,
                        user: Option<User>): Object {
    [Field("target", JString(target)), Field("problem_type", JString(problemType)),
     Field("model", JString(modelName)), Field("hyperparameters", JObject(hyperparameters))]
    + OptionalField("project_id", if user.Some? then IdJson(user.value.projectId) else None)
    + OptionalField("preprocess_id", if user.Some? then IdJson(user.value.preprocessId) else None)
    + OptionalField("user_id", if user.Some? then Some(JNumber(user.value.userId as real)) else None)
  }

  /** What `setResult` receives after a failed call. */
  const FailureResult := JObject([Field("message", JString(FailedResult))])

  class ModelBuilderPage {
    const user: Option<User>
    var target: string
    var problemType: string
    var modelName: string
    var hyperparameters: Object
    var loading: bool
    var result: Option<Json>
    var log: seq<Event>

    /** The problem type is the select's value, so it is empty or one of the table keys. */
    ghost predicate Valid()
      reads this
    {
      problemType == "" || problemType in ProblemTypes
    }

    constructor (user: Option<User>)
      ensures Valid()
      ensures this.user == user && target == "" && problemType == "" && modelName == ""
      ensures hyperparameters == [] && !loading && result.None? && log == []
    {
      this.user := user;
      target, problemType, modelName, hyperparameters := "", "", "", [];
      loading, result, log := false, None, [];
    }

    /** `handleParamChange(param, value)`: `{...prev, [param]: value}`. Exactly one key changes;
        an existing key keeps its place and a new one goes last. */
    method HandleParamChange(param: string, value: string)
      modifies this`hyperparameters
      ensures hyperparameters == Set(old(hyperparameters), param, JString(value))
      ensures forall k :: Get(hyperparameters, k) == if k == param then Some(JString(value)) else Get(old(hyperparameters), k)
      ensures Keys(hyperparameters) == if param in Keys(old(hyperparameters)) then Keys(old(hyperparameters)) else Keys(old(hyperparameters)) + [param]
    {
      hyperparameters := Set(hyperparameters, param, JString(value));
      forall k {
        SetGet(old(hyperparameters), param, JString(value), k);
      }
    }

    /** The target select. */
    method ChooseTarget(t: string)
      modifies this`target
      ensures target == t
    {
      target := t;
    }

    /** The problem-type select: also clears the model and the hyperparameters. */
    method ChooseProblemType(p: string)
      requires p == "" || p in ProblemTypes
      modifies this`problemType, this`modelName, this`hyperparameters
      ensures Valid()
      ensures problemType == p && modelName == "" && hyperparameters == []
      ensures ParamsForModel(problemType, modelName) == Some([])
    {
      problemType, modelName, hyperparameters := p, "", [];
    }

    /** The model select: also clears the hyperparameters. */
    method ChooseModel(m: string)
      modifies this`modelName, this`hyperparameters
      ensures modelName == m && hyperparameters == []
    {
      modelName, hyperparameters := m, [];
    }

    /** `handleSubmit`: posts the payload; a reply becomes the result, a failure the fixed
        failure message. Both notices use the default severity, so the failure notice is shown
        as a success. `loading` is false afterwards in all cases. */
    method HandleSubmit(reply: Call<Json>)
      modifies this`loading, this`result, this`log
      ensures !loading
      ensures var post := Request(HttpPost, TrainEndpoint, TrainPayload(target, problemType, modelName, hyperparameters, user));
        match reply
        case Answered(data) => result == Some(data) && log == old(log) + [post, Notify(StartedNotice, Success)]
        case Threw(_) => result == Some(FailureResult) && log == old(log) + [post, Notify(FailedNotice, Success)]
    {
      loading := true;
      log := log + [Request(HttpPost, TrainEndpoint, TrainPayload(target, problemType, modelName, hyperparameters, user))];
      match reply {
      case Answered(data) =>
        log := log + [Notify(StartedNotice, Success)];
        result := Some(data);
      case Threw(_) =>
        log := log + [Notify(FailedNotice, Success)];
        result := Some(FailureResult);
      }
      loading := false;
    }
  }
}
