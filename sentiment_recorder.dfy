/**
 * The directed-sentiment path: transcript fragments accumulate while the
 * user speaks, every non-blank accumulated transcript is queued, and the
 * queue is drained one transcript at a time under the shared busy flag,
 * each run reporting the first most probable of the three sentiments.
 */
module SentimentRecorder {
  import opened Types
  import opened Argmax
  import opened Inference

  /** The characters `String.prototype.trim` removes. */
  predicate IsJsWhitespace(c: char)
  {
    || c == ' ' || c == '\t' || c == '\n' || c == '\r'
    || c == '\U{B}' || c == '\U{C}' || c == '\U{A0}' || c == '\U{1680}'
    || ('\U{2000}' <= c <= '\U{200A}')
    || c == '\U{2028}' || c == '\U{2029}' || c == '\U{202F}' || c == '\U{205F}'
    || c == '\U{3000}' || c == '\U{FEFF}'
  }

  /** `s.trim()` is the empty string. */
  predicate IsBlank(s: string)
  {
    forall i :: 0 <= i < |s| ==> IsJsWhitespace(s[i])
  }

  /**
   * The sentiment of a finished classifier call: an error is swallowed,
   * otherwise the label at the first position of the highest probability
   * in the order Neutral, Positive, Negative, with that probability.
   */
  function Classify(outcome: ModelOutcome): (r: RunResult<DirectedSentiment>)
    requires outcome.Probabilities? ==> |outcome.probs| == |AllSentiments|
    ensures !r.Skipped? && !r.Escaped?
    ensures r.Failed? <==> outcome.Threw?
    ensures r.Detected? ==>
      var i := SentimentIndex(r.prediction.predicted);
      IsFirstMax(outcome.probs, i) && r.prediction.confidence == outcome.probs[i]
  {
    match outcome
    case Threw => Failed
    case Probabilities(probs) =>
      var i := ArgMax(probs);
      Detected(Prediction(AllSentiments[i], probs[i]))
  }

  /**
   * The component's transcript and queue. `running` holds the transcripts
   * whose classification is awaiting the model. The ghost `pushed` and
   * `taken` record every transcript ever queued and ever taken off the
   * queue, oldest first. The speaking copy starts from the prop's value
   * at mount.
   */
  class SentimentRecorder {
    const busy: BusyFlag
    var speaking: bool
    var transcript: string
    var queue: seq<string>
    var running: seq<string>
    ghost var pushed: seq<string>
    ghost var taken: seq<string>

    /** The queue is first-in first-out: transcripts leave in the order they came. */
    ghost predicate Valid()
      reads this
    {
      pushed == taken + queue
    }

    constructor(busy: BusyFlag, speaking: bool)
      ensures Valid()
      ensures this.busy == busy && this.speaking == speaking && transcript == ""
      ensures queue == [] && running == [] && pushed == [] && taken == []
    {
      this.busy := busy;
      this.speaking := speaking;
      transcript := "";
      queue := [];
      running := [];
      pushed := [];
      taken := [];
    }

    /**
     * The speaking prop changes: the copy read by the transcript handler
     * follows it, and becoming true clears the transcript. A cleared
     * transcript is blank, so nothing is queued. A prop that does not
     * change runs nothing.
     */
    method SetSpeaking(speaking: bool)
      modifies this`speaking, this`transcript
      ensures this.speaking == speaking
      ensures transcript == if speaking && !old(this.speaking) then "" else old(transcript)
    {
      if speaking != this.speaking {
        this.speaking := speaking;
        if speaking {
          transcript := "";
        }
      }
    }

    /**
     * Take the oldest queued transcript and start classifying it, unless
     * the flag is set or the queue is empty.
     */
    method ProcessQueue()
      requires Valid()
      modifies this`queue, this`running, this`taken, busy
      ensures Valid() && pushed == old(pushed)
      ensures old(busy.current) || old(queue) == [] ==>
        queue == old(queue) && running == old(running) && taken == old(taken) &&
        busy.current == old(busy.current)
      ensures !old(busy.current) && old(queue) != [] ==>
        busy.current &&
        queue == old(queue[1..]) &&
        running == old(running) + [old(queue[0])] &&
        taken == old(taken) + [old(queue[0])]
    {
      if busy.current || |queue| == 0 {
        return;
      }
      busy.current := true;
      var next := queue[0];
      queue := queue[1..];
      taken := taken + [next];
      running := running + [next];
    }

    /**
     * A transcript fragment arrives. A non-empty fragment heard while
     * speaking is appended with one trailing space; a transcript that is
     * then not blank is queued whole, untrimmed, and the queue is drained.
     */
    method OnTranscript(fragment: string)
      requires Valid()
      modifies this`transcript, this`queue, this`running, this`pushed, this`taken, busy
      ensures Valid()
      ensures fragment == "" || !speaking ==>
        transcript == old(transcript) && queue == old(queue) && running == old(running) &&
        pushed == old(pushed) && busy.current == old(busy.current)
      ensures fragment != "" && speaking ==> transcript == old(transcript) + fragment + " "
      ensures fragment != "" && speaking && IsBlank(transcript) ==>
        queue == old(queue) && running == old(running) && pushed == old(pushed) &&
        busy.current == old(busy.current)
      ensures fragment != "" && speaking && !IsBlank(transcript) ==>
        pushed == old(pushed) + [transcript] &&
        (if old(busy.current) then
           queue == old(queue) + [transcript] && running == old(running) && busy.current
         else
           queue == (old(queue) + [transcript])[1..] &&
           running == old(running) + [(old(queue) + [transcript])[0]] && busy.current)
    {
      if fragment != "" && speaking {
        transcript := transcript + fragment + " ";
        if !IsBlank(transcript) {
          queue := queue + [transcript];
          pushed := pushed + [transcript];
          ProcessQueue();
        }
      }
    }

    /**
     * The classification of `running[k]` completes with `outcome`. The
     * flag is cleared on success and on error alike, then the queue is
     * drained again if it is not empty.
     */
    method Finish(k: nat, outcome: ModelOutcome) returns (r: RunResult<DirectedSentiment>)
      requires Valid() && k < |running|
      requires outcome.Probabilities? ==> |outcome.probs| == |AllSentiments|
      modifies this`queue, this`running, this`taken, busy
      ensures Valid() && pushed == old(pushed)
      ensures r == Classify(outcome)
      ensures old(queue) == [] ==>
        queue == [] && running == old(running[..k] + running[k + 1..]) &&
        taken == old(taken) && !busy.current
      ensures old(queue) != [] ==>
        queue == old(queue[1..]) &&
        running == old(running[..k] + running[k + 1..]) + [old(queue[0])] &&
        taken == old(taken) + [old(queue[0])] && busy.current
    {
      r := Classify(outcome);
      running := running[..k] + running[k + 1..];
      busy.current := false;
      if |queue| > 0 {
        ProcessQueue();
      }
    }
  }

  /** A fragment of spaces alone never gets a transcript queued. */
  lemma SpacesAloneStayBlank(t: string, fragment: string)
    requires IsBlank(t) && forall i :: 0 <= i < |fragment| ==> fragment[i] == ' '
    ensures IsBlank(t + fragment + " ")
  {
  }
}
