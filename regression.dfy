/**
 * The sample buffer and training state of the slippage regression model.
 * The least-squares fit itself belongs to a numerics library; here a fit is
 * an opaque outcome handed to `Train` (a fitted linear function, or `None`
 * when fitting raised), and a prediction applies that linear function.
 */
module Regression {
  import opened Wrappers

  /** A fitted linear model: one coefficient per feature, plus an intercept. */
  datatype LinearFit = LinearFit(coefficients: seq<real>, intercept: real)

  /** Sum of the pairwise products of two equally long vectors. */
  function Dot(xs: seq<real>, ys: seq<real>): real
    requires |xs| == |ys|
    decreases |xs|
  {
    if xs == [] then 0.0 else xs[0] * ys[0] + Dot(xs[1..], ys[1..])
  }

  /** The fitted model's value at `features`. */
  function Evaluate(fit: LinearFit, features: seq<real>): real
    requires |fit.coefficients| == |features|
  {
    fit.intercept + Dot(fit.coefficients, features)
  }

  class SlippageRegressionModel {
    /** The last successful fit, if any. */
    var model: Option<LinearFit>
    var isTrained: bool
    /** Feature vectors, one per sample. */
    var dataX: seq<seq<real>>
    /** Observed slippage percentages, parallel to `dataX`. */
    var dataY: seq<real>
    const minSamplesToTrain: int
    const featuresDim: int

    /**
     * The two sample lists stay parallel, every stored vector has the
     * configured dimension, and a trained model holds a fit made when the
     * buffer had reached the training threshold, with one coefficient per
     * feature.
     */
    predicate Valid()
      reads this
    {
      && |dataX| == |dataY|
      && (forall k :: 0 <= k < |dataX| ==> |dataX[k]| == featuresDim)
      && (isTrained ==> model.Some? && |dataX| >= minSamplesToTrain
                        && |model.value.coefficients| == featuresDim)
    }

    /** A fresh model with empty buffers, untrained. The defaults are 50 samples and 3 features. */
    constructor (minSamplesToTrain: int, featuresDim: int)
      ensures Valid()
      ensures this.minSamplesToTrain == minSamplesToTrain && this.featuresDim == featuresDim
      ensures dataX == [] && dataY == [] && !isTrained && model == None
    {
      this.minSamplesToTrain := minSamplesToTrain;
      this.featuresDim := featuresDim;
      model := None;
      isTrained := false;
      dataX := [];
      dataY := [];
    }

    /**
     * Appends one sample, or leaves the buffer as it is when the feature
     * vector has the wrong dimension. The buffer is never trimmed.
     */
    method AddDataPoint(features: seq<real>, targetSlippagePct: real)
      requires Valid()
      modifies this
      ensures Valid()
      ensures |features| == featuresDim ==> dataX == old(dataX) + [features] && dataY == old(dataY) + [targetSlippagePct]
      ensures |features| != featuresDim ==> dataX == old(dataX) && dataY == old(dataY)
      ensures isTrained == old(isTrained) && model == old(model)
    {
      if |features| != featuresDim {
        return;
      }
      dataX := dataX + [features];
      dataY := dataY + [targetSlippagePct];
    }

    /**
     * Below the threshold, marks the model untrained and reports failure.
     * Otherwise `fit` is the outcome of fitting the buffer: on success it
     * becomes the model, on failure the model is marked untrained. The
     * samples are never touched. A fit is made over samples of `featuresDim`
     * features, so it has one coefficient per feature.
     */
    method Train(fit: Option<LinearFit>) returns (ok: bool)
      requires Valid()
      requires fit.Some? ==> |fit.value.coefficients| == featuresDim
      modifies this
      ensures Valid()
      ensures ok <==> |dataX| >= minSamplesToTrain && fit.Some?
      ensures isTrained == ok
      ensures ok ==> model == fit
      ensures !ok ==> model == old(model)
      ensures dataX == old(dataX) && dataY == old(dataY)
    {
      if |dataX| < minSamplesToTrain {
        isTrained := false;
        return false;
      }
      if fit.None? {
        isTrained := false;
        return false;
      }
      model := fit;
      isTrained := true;
      ok := true;
    }

    /**
     * The fitted model's value at `features`; `None` when untrained, when the
     * vector has the wrong dimension, or when the fit rejects the vector
     * because its coefficient count differs.
     */
    function Predict(features: seq<real>): (p: Option<real>)
      reads this
      ensures p.Some? <==>
        isTrained && |features| == featuresDim
        && model.Some? && |model.value.coefficients| == |features|
      ensures p.Some? ==> p.value == Evaluate(model.value, features)
      ensures Valid() && isTrained && |features| == featuresDim ==> p.Some?
    {
      if !isTrained then None
      else if |features| != featuresDim then None
      else match model
        case None => None
        case Some(fit) =>
          if |fit.coefficients| != |features| then None
          else Some(Evaluate(fit, features))
    }
  }

  /** A model whose buffer has not reached the threshold cannot predict. */
  lemma NoPredictionBelowThreshold(m: SlippageRegressionModel, features: seq<real>)
    requires m.Valid() && |m.dataX| < m.minSamplesToTrain
    ensures m.Predict(features) == None
  {
  }

  /** Once trained, the model predicts a value for every vector of the configured dimension. */
  lemma TrainedPredicts(m: SlippageRegressionModel, features: seq<real>)
    requires m.Valid() && m.isTrained && |features| == m.featuresDim
    ensures m.Predict(features).Some?
    ensures m.Predict(features).value == m.model.value.intercept + Dot(m.model.value.coefficients, features)
  {
  }
}
