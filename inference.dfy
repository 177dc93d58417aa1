/**
 * What the two recorders share: the `isInferenceBusy` reference both are
 * handed, the outcome of one call into an opaque classifier, and the
 * result of one inference run.
 */
module Inference {

  /** The shared mutable `isInferenceBusy` reference. */
  class BusyFlag {
    var current: bool

    constructor()
      ensures !current
    {
      current := false;
    }
  }

  /**
   * What awaiting the model gave: its output already turned into
   * probabilities, or an error thrown by the tokenizer or the model.
   */
  datatype ModelOutcome = Probabilities(probs: seq<real>) | Threw

  /** A label with the probability the classifier gave it. */
  datatype Prediction<L> = Prediction(predicted: L, confidence: real)

  /**
   * One run: skipped before the model is called, failed with the error
   * caught and logged, ended by an error that escaped it uncaught, or a
   * prediction passed to the detection callback.
   */
  datatype RunResult<L> = Skipped | Failed | Escaped | Detected(prediction: Prediction<L>)
}
