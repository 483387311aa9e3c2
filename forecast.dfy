/** The gradient-boosting notebook after its samples are built: boosting rounds added one per
    epoch, and a recursive forecast that feeds each prediction back into the input window.
    Fitting, predicting and the error measure belong to the learning library and are parameters:
    `predict` is the fitted model, and `validationMse(n)` the validation error of the model
    fitted with `n` boosting rounds (the fit is deterministic for fixed data and settings). */
module Forecast {
  import opened Wrappers

  const Epochs: nat := 30
  const Objective := "reg:squarederror"
  const LearningRate: real := 0.1

  /** The regressor whose `n_estimators` the training loop raises in place. */
  class Regressor {
    const objective: string
    const learningRate: real
    var nEstimators: nat

    constructor (objective: string, nEstimators: nat, learningRate: real)
      ensures this.objective == objective && this.nEstimators == nEstimators && this.learningRate == learningRate
    {
      this.objective, this.nEstimators, this.learningRate := objective, nEstimators, learningRate;
    }
  }

  /** The training epochs: each first adds one boosting round, then refits and records one
      validation loss. Epoch `e` (from 0) therefore trains with `rounds + e + 1` rounds, where
      `rounds` is what the model had before. */
  method TrainEpochs(model: Regressor, epochs: nat, validationMse: nat -> real) returns (losses: seq<real>)
    modifies model
    ensures model.nEstimators == old(model.nEstimators) + epochs
    ensures |losses| == epochs
    ensures forall e :: 0 <= e < epochs ==> losses[e] == validationMse(old(model.nEstimators) + e + 1)
  {
    losses := [];
    for epoch := 0 to epochs
      invariant model.nEstimators == old(model.nEstimators) + epoch
      invariant |losses| == epoch
      invariant forall e :: 0 <= e < epoch ==> losses[e] == validationMse(old(model.nEstimators) + e + 1)
    {
      model.nEstimators := model.nEstimators + 1;
      losses := losses + [validationMse(model.nEstimators)];
    }
  }

  /** The training cell: a regressor with one round, then thirty epochs. The first loss is that
      of a two-round model, and the model evaluated afterwards has thirty-one rounds. */
  method TrainingCell(validationMse: nat -> real) returns (model: Regressor, losses: seq<real>)
    ensures fresh(model)
    ensures model.objective == Objective && model.learningRate == LearningRate
    ensures model.nEstimators == Epochs + 1
    ensures |losses| == Epochs
    ensures forall e :: 0 <= e < Epochs ==> losses[e] == validationMse(e + 2)
  {
    model := new Regressor(Objective, 1, LearningRate);
    losses := TrainEpochs(model, Epochs, validationMse);
  }

  /** Why the forecast cell raises: `X_test[0]` of an empty test set, or `new_row[0, -1]` of a
      window without features. */
  datatype ForecastError = NoTestSample | EmptyWindow

  /** The next input: `np.roll(w, -1)` moves every feature one place to the left and the first
      to the end, and the prediction then overwrites that last place. The shift is by one feature,
      not by one row of the original frame. */
  function NextWindow<T>(w: seq<T>, prediction: T): (next: seq<T>)
    requires |w| > 0
    ensures |next| == |w|
    ensures forall i :: 0 <= i < |w| - 1 ==> next[i] == w[i + 1]
    ensures next[|w| - 1] == prediction
  {
    w[1..] + [prediction]
  }

  /** The `n` predictions made from window `w` onwards. */
  function Predictions<T>(w: seq<T>, n: nat, predict: seq<T> -> T): seq<T>
    requires |w| > 0
    decreases n
  {
    if n == 0 then [] else [predict(w)] + Predictions(NextWindow(w, predict(w)), n - 1, predict)
  }

  lemma {:induction false} PredictionsLength<T>(w: seq<T>, n: nat, predict: seq<T> -> T)
    requires |w| > 0
    ensures |Predictions(w, n, predict)| == n
    decreases n
  {
    if n > 0 {
      PredictionsLength(NextWindow(w, predict(w)), n - 1, predict);
    }
  }

  /** What the recursive forecast means: prediction `k` is made from the `|w|` values that end
      just before it in the series "first window, then the forecast so far". */
  lemma {:induction false} PredictionsSlide<T>(w: seq<T>, n: nat, predict: seq<T> -> T)
    requires |w| > 0
    ensures var f := Predictions(w, n, predict);
      |f| == n && forall k :: 0 <= k < n ==> f[k] == predict((w + f)[k..k + |w|])
    decreases n
  {
    PredictionsLength(w, n, predict);
    if n > 0 {
      var p := predict(w);
      var w' := NextWindow(w, p);
      var rest := Predictions(w', n - 1, predict);
      var f := Predictions(w, n, predict);
      PredictionsSlide(w', n - 1, predict);
      assert f == [p] + rest;
      assert (w + f)[1..] == w' + rest;
      assert (w + f)[0..|w|] == w;
      forall k | 0 < k < n
        ensures f[k] == predict((w + f)[k..k + |w|])
      {
        assert f[k] == rest[k - 1];
        SliceAfterFirst(w + f, w' + rest, k, |w|);
      }
    }
  }

  /** A slice of `s` starting past its first element is the slice of `s[1..]` one place
      earlier. */
  lemma SliceAfterFirst<T>(s: seq<T>, t: seq<T>, k: nat, m: nat)
    requires |s| > 0 && s[1..] == t && 0 < k && k + m <= |s|
    ensures s[k..k + m] == t[k - 1..k - 1 + m]
  {
  }

  /** Once the forecast is longer than the window, the model sees only its own predictions. */
  lemma PredictionsFeedBack<T>(w: seq<T>, n: nat, predict: seq<T> -> T, k: nat)
    requires |w| > 0 && |w| <= k < n
    ensures var f := Predictions(w, n, predict);
      |f| == n && f[k] == predict(f[k - |w|..k])
  {
    PredictionsSlide(w, n, predict);
    var f := Predictions(w, n, predict);
    assert (w + f)[k..k + |w|] == f[k - |w|..k];
  }

  /** The forecast cell as a value: an error when there is no first test sample, or when a
      prediction must be written into a window without features. */
  function ForecastResult<T>(xTest: seq<seq<T>>, horizon: nat, predict: seq<T> -> T): (r: Result<seq<T>, ForecastError>)
    ensures r.Err? <==> xTest == [] || (|xTest[0]| == 0 && horizon > 0)
  {
    if xTest == [] then Err(NoTestSample)
    else if |xTest[0]| == 0 then (if horizon == 0 then Ok([]) else Err(EmptyWindow))
    else Ok(Predictions(xTest[0], horizon, predict))
  }

  /** The forecast cell: starting from the first test sample, `horizon` times predict, record the
      prediction and move to the next window. The window keeps its length throughout. */
  method RecursiveForecast<T>(xTest: seq<seq<T>>, horizon: nat, predict: seq<T> -> T)
    returns (r: Result<seq<T>, ForecastError>)
    ensures r == ForecastResult(xTest, horizon, predict)
  {
    if xTest == [] {
      return Err(NoTestSample);
    }
    var input := xTest[0];
    var forecast: seq<T> := [];
    for step := 0 to horizon
      invariant |input| == |xTest[0]|
      invariant |xTest[0]| > 0 ==> forecast + Predictions(input, horizon - step, predict) == Predictions(xTest[0], horizon, predict)
      invariant |forecast| == step
      invariant |xTest[0]| == 0 ==> step == 0
    {
      var prediction := predict(input);
      ghost var before := forecast;
      forecast := forecast + [prediction];
      if |input| == 0 {
        assert ForecastResult(xTest, horizon, predict) == Err(EmptyWindow);
        return Err(EmptyWindow);
      }
      ghost var later := Predictions(NextWindow(input, prediction), horizon - step - 1, predict);
      assert Predictions(input, horizon - step, predict) == [prediction] + later;
      ConcatAssoc(before, [prediction], later);
      input := NextWindow(input, prediction);
    }
    if |xTest[0]| == 0 {
      return Ok([]);
    }
    assert Predictions(input, 0, predict) == [];
    assert forecast == Predictions(xTest[0], horizon, predict);
    assert ForecastResult(xTest, horizon, predict) == Ok(Predictions(xTest[0], horizon, predict));
    r := Ok(forecast);
  }

  /** With the samples of the test set, the forecast has one entry per test target. */
  lemma ForecastCoversTestSet<T>(xTest: seq<seq<T>>, horizon: nat, predict: seq<T> -> T)
    requires xTest != [] && |xTest[0]| > 0
    ensures ForecastResult(xTest, horizon, predict).Ok?
    ensures |ForecastResult(xTest, horizon, predict).value| == horizon
  {
    PredictionsLength(xTest[0], horizon, predict);
  }
}
