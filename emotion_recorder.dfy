/**
 * The speech-emotion path: the handler for frames posted by the audio
 * worklet, which runs the classifier at once when the shared busy flag is
 * clear and otherwise arms one 100 ms retry, and the inference run itself,
 * which accepts only whole frames and reports the first most probable of
 * the seven emotions.
 */
module EmotionRecorder {
  import opened Types
  import opened Argmax
  import opened Inference
  import AudioProcessor

  /**
   * What the steps of one run on a whole frame gave: the tensor
   * constructor, which runs before the `try`, threw; or the awaited model
   * call, inside the `try`, finished with this outcome.
   */
  datatype AudioOutcome = TensorThrew | ModelCall(model: ModelOutcome)

  /**
   * One inference run on a frame, given what its steps gave. A frame that
   * is not exactly 32000 samples long is skipped before anything else; an
   * error from the tensor constructor escapes the run; an error from the
   * model is swallowed; otherwise the label is the emotion at the first
   * position of the highest probability, reported with that probability.
   */
  function RunInference(samples: seq<real>, outcome: AudioOutcome): (r: RunResult<Emotion>)
    requires outcome.ModelCall? && outcome.model.Probabilities? ==>
      |outcome.model.probs| == |AllEmotions|
    ensures r.Skipped? <==> |samples| != AudioProcessor.FrameLength
    ensures r.Escaped? <==> |samples| == AudioProcessor.FrameLength && outcome.TensorThrew?
    ensures r.Failed? <==> |samples| == AudioProcessor.FrameLength && outcome == ModelCall(Threw)
    ensures r.Detected? ==>
      outcome.ModelCall? && outcome.model.Probabilities? &&
      var i := EmotionIndex(r.prediction.predicted);
      IsFirstMax(outcome.model.probs, i) && r.prediction.confidence == outcome.model.probs[i]
  {
    if |samples| != AudioProcessor.FrameLength then Skipped
    else match outcome
      case TensorThrew => Escaped
      case ModelCall(Threw) => Failed
      case ModelCall(Probabilities(probs)) =>
        var i := ArgMax(probs);
        Detected(Prediction(AllEmotions[i], probs[i]))
  }

  /** The label chosen for a vector is determined by where its first maximum is. */
  lemma {:induction false} RunInferencePicksFirstMax(samples: seq<real>, probs: seq<real>, i: nat)
    requires |samples| == AudioProcessor.FrameLength && |probs| == |AllEmotions|
    requires IsFirstMax(probs, i)
    ensures RunInference(samples, ModelCall(Probabilities(probs))) ==
      Detected(Prediction(AllEmotions[i], probs[i]))
  {
    ArgMaxUnique(probs, i);
  }

  /**
   * The component's message handling. `deferred` holds the frames whose
   * 100 ms retry timer is armed, oldest first; `running` the frames whose
   * run is awaiting the model. The speaking copy starts from the prop's
   * value at mount.
   */
  class EmotionRecorder {
    const busy: BusyFlag
    var speaking: bool
    var deferred: seq<seq<real>>
    var running: seq<seq<real>>

    constructor(busy: BusyFlag, speaking: bool)
      ensures this.busy == busy && this.speaking == speaking && deferred == [] && running == []
    {
      this.busy := busy;
      this.speaking := speaking;
      deferred := [];
      running := [];
    }

    /** The speaking prop changed; the handler reads the copy kept here. */
    method SetSpeaking(speaking: bool)
      modifies this`speaking
      ensures this.speaking == speaking
    {
      this.speaking := speaking;
    }

    /**
     * A frame posted by the worklet. While the user is not speaking it is
     * ignored. Otherwise a clear flag starts a run at once (the run sets
     * the flag), and a set flag arms one retry for this frame.
     */
    method OnMessage(frame: seq<real>)
      modifies this`deferred, this`running, busy
      ensures !speaking ==>
        deferred == old(deferred) && running == old(running) && busy.current == old(busy.current)
      ensures speaking && old(busy.current) ==>
        deferred == old(deferred) + [frame] && running == old(running) && busy.current
      ensures speaking && !old(busy.current) ==>
        deferred == old(deferred) && running == old(running) + [frame] && busy.current
    {
      if !speaking {
        return;
      }
      if busy.current {
        deferred := deferred + [frame];
      } else {
        busy.current := true;
        running := running + [frame];
      }
    }

    /**
     * The retry timer of `deferred[k]` fires: the run sets the flag and
     * starts without looking at the flag first (the handler as written).
     */
    method RetryFires(k: nat)
      requires k < |deferred|
      modifies this`deferred, this`running, busy
      ensures deferred == old(deferred[..k] + deferred[k + 1..])
      ensures running == old(running) + [old(deferred[k])]
      ensures busy.current
    {
      var frame := deferred[k];
      deferred := deferred[..k] + deferred[k + 1..];
      busy.current := true;
      running := running + [frame];
    }

    /**
     * The retry timer of `deferred[k]` fires and the flag is checked
     * again: still set re-arms the timer, which then fires after every
     * timer already armed; clear starts the run.
     */
    method RetryFiresChecked(k: nat)
      requires k < |deferred|
      modifies this`deferred, this`running, busy
      ensures old(busy.current) ==>
        deferred == old(deferred[..k] + deferred[k + 1..]) + [old(deferred[k])] &&
        running == old(running) && busy.current
      ensures !old(busy.current) ==>
        deferred == old(deferred[..k] + deferred[k + 1..]) &&
        running == old(running) + [old(deferred[k])] && busy.current
    {
      var frame := deferred[k];
      deferred := deferred[..k] + deferred[k + 1..];
      if busy.current {
        deferred := deferred + [frame];
      } else {
        busy.current := true;
        running := running + [frame];
      }
    }

    /**
     * The run of `running[k]` ends (the handler as written). Its last line
     * clears the flag, whether or not another run is still in flight; an
     * error escaping the run skips that line, so the flag stays as it was.
     */
    method Finish(k: nat, outcome: AudioOutcome) returns (r: RunResult<Emotion>)
      requires k < |running|
      requires outcome.ModelCall? && outcome.model.Probabilities? ==>
        |outcome.model.probs| == |AllEmotions|
      modifies this`running, busy
      ensures r == RunInference(old(running[k]), outcome)
      ensures running == old(running[..k] + running[k + 1..])
      ensures r.Escaped? ==> busy.current == old(busy.current)
      ensures !r.Escaped? ==> !busy.current
    {
      r := RunInference(running[k], outcome);
      running := running[..k] + running[k + 1..];
      if !r.Escaped? {
        busy.current := false;
      }
    }

    /**
     * The run of `running[k]` ends, with the flag cleared in a `finally`:
     * however the run ends, the flag is clear afterwards.
     */
    method FinishGuarded(k: nat, outcome: AudioOutcome) returns (r: RunResult<Emotion>)
      requires k < |running|
      requires outcome.ModelCall? && outcome.model.Probabilities? ==>
        |outcome.model.probs| == |AllEmotions|
      modifies this`running, busy
      ensures r == RunInference(old(running[k]), outcome)
      ensures running == old(running[..k] + running[k + 1..])
      ensures !busy.current
    {
      r := RunInference(running[k], outcome);
      running := running[..k] + running[k + 1..];
      busy.current := false;
    }
  }
}
