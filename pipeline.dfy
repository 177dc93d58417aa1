/**
 * The two recorders as the page mounts them: both are handed the same
 * busy flag and the same speaking signal. The flag is meant to let at most
 * one classifier call be in flight at a time. The text path checks it
 * before every start; the audio path's retry, as written, does not, so the
 * two paths can run together (TwoRunsInFlight), and an error escaping an
 * audio run leaves the flag set until a later audio run ends without
 * escaping (EscapedRunBlocksText). With the
 * retry that checks the flag again (RetryFiresChecked) and the run that
 * clears the flag however it ends (FinishGuarded), every step keeps at
 * most one run in flight and the flag set exactly while one is.
 */
module Pipeline {
  import opened Types
  import opened Inference
  import ER = EmotionRecorder
  import SR = SentimentRecorder

  class Session {
    const busy: BusyFlag
    const audio: ER.EmotionRecorder
    const text: SR.SentimentRecorder

    ghost predicate Valid()
      reads this, audio, text
    {
      audio.busy == busy && text.busy == busy && text.Valid()
    }

    /** Runs in flight on both paths together. */
    ghost function InFlight(): nat
      reads this, audio, text
    {
      |audio.running| + |text.running|
    }

    /** At most one run is in flight, and the flag is set exactly while one is. */
    ghost predicate Exclusive()
      reads this, audio, text, busy
    {
      InFlight() <= 1 && (busy.current <==> InFlight() == 1)
    }

    constructor(speaking: bool)
      ensures Valid() && Exclusive()
      ensures audio.speaking == speaking && text.speaking == speaking && !busy.current
      ensures audio.deferred == [] && audio.running == []
      ensures text.transcript == "" && text.queue == [] && text.running == []
      ensures fresh(busy) && fresh(audio) && fresh(text)
    {
      var flag := new BusyFlag();
      busy := flag;
      audio := new ER.EmotionRecorder(flag, speaking);
      text := new SR.SentimentRecorder(flag, speaking);
    }

    /**
     * Speech starts or stops: both recorders see the new value, and speech
     * starting clears the transcript. Nothing is started or queued.
     */
    method SetSpeaking(speaking: bool)
      requires Valid() && Exclusive()
      modifies audio, text
      ensures Valid() && Exclusive()
      ensures audio.speaking == speaking && text.speaking == speaking
      ensures text.transcript == if speaking && !old(text.speaking) then "" else old(text.transcript)
      ensures audio.deferred == old(audio.deferred) && audio.running == old(audio.running)
      ensures text.queue == old(text.queue) && text.running == old(text.running)
    {
      audio.SetSpeaking(speaking);
      text.SetSpeaking(speaking);
    }

    /**
     * A posted frame: ignored while the user is not speaking, started when
     * the flag is clear, given a retry when it is set.
     */
    method AudioMessage(frame: seq<real>)
      requires Valid() && Exclusive()
      modifies audio, busy
      ensures Valid() && Exclusive()
      ensures audio.speaking == old(audio.speaking)
      ensures !audio.speaking ==>
        audio.deferred == old(audio.deferred) && audio.running == old(audio.running)
      ensures audio.speaking && old(busy.current) ==>
        audio.deferred == old(audio.deferred) + [frame] && audio.running == old(audio.running)
      ensures audio.speaking && !old(busy.current) ==>
        audio.deferred == old(audio.deferred) && audio.running == old(audio.running) + [frame]
    {
      audio.OnMessage(frame);
    }

    /** A retry that checks the flag again keeps the runs exclusive. */
    method AudioRetry(k: nat)
      requires Valid() && Exclusive() && k < |audio.deferred|
      modifies audio, busy
      ensures Valid() && Exclusive()
      ensures audio.speaking == old(audio.speaking)
      ensures old(busy.current) ==>
        audio.deferred == old(audio.deferred[..k] + audio.deferred[k + 1..]) + [old(audio.deferred[k])] &&
        audio.running == old(audio.running)
      ensures !old(busy.current) ==>
        audio.deferred == old(audio.deferred[..k] + audio.deferred[k + 1..]) &&
        audio.running == old(audio.running) + [old(audio.deferred[k])]
    {
      audio.RetryFiresChecked(k);
    }

    /** An audio run ends, the flag cleared however it ended. */
    method AudioDone(k: nat, outcome: ER.AudioOutcome) returns (r: RunResult<Emotion>)
      requires Valid() && Exclusive() && k < |audio.running|
      requires outcome.ModelCall? && outcome.model.Probabilities? ==>
        |outcome.model.probs| == |AllEmotions|
      modifies audio, busy
      ensures Valid() && Exclusive() && InFlight() == 0
      ensures r == ER.RunInference(old(audio.running[k]), outcome)
      ensures audio.speaking == old(audio.speaking) && audio.deferred == old(audio.deferred)
    {
      r := audio.FinishGuarded(k, outcome);
    }

    /** A transcript fragment arrives; queuing and draining keep the runs exclusive. */
    method TranscriptFragment(fragment: string)
      requires Valid() && Exclusive()
      modifies text, busy
      ensures Valid() && Exclusive()
      ensures text.speaking == old(text.speaking)
      ensures fragment != "" && text.speaking ==> text.transcript == old(text.transcript) + fragment + " "
      ensures fragment == "" || !text.speaking ==>
        text.transcript == old(text.transcript) && text.queue == old(text.queue) &&
        text.running == old(text.running)
    {
      text.OnTranscript(fragment);
    }

    /** A text run ends; the next queued transcript, if any, starts. */
    method TextDone(k: nat, outcome: ModelOutcome) returns (r: RunResult<DirectedSentiment>)
      requires Valid() && Exclusive() && k < |text.running|
      requires outcome.Probabilities? ==> |outcome.probs| == |AllSentiments|
      modifies text, busy
      ensures Valid() && Exclusive()
      ensures r == SR.Classify(outcome)
      ensures InFlight() == (if old(text.queue) == [] then 0 else 1)
      ensures text.speaking == old(text.speaking) && text.transcript == old(text.transcript)
      ensures text.queue == if old(text.queue) == [] then [] else old(text.queue[1..])
      ensures text.running == if old(text.queue) == [] then [] else [old(text.queue[0])]
    {
      r := text.Finish(k, outcome);
    }
  }

  /**
   * The handler as written lets the two paths overlap: a transcript starts
   * a text run, a frame arriving meanwhile arms a retry, and the retry
   * starts an audio run without checking the flag. When the audio run then
   * finishes it clears the flag although the text run is still in flight.
   */
  method TwoRunsInFlight() returns (audioRuns: nat, textRuns: nat, flagAfterAudioDone: bool)
    ensures audioRuns == 1 && textRuns == 1
    ensures !flagAfterAudioDone
  {
    var s := new Session(true);
    s.text.OnTranscript("hello");
    assert !SR.IsJsWhitespace(s.text.transcript[0]);
    assert |s.text.running| == 1 && s.busy.current;
    s.audio.OnMessage(seq(32000, _ => 0.0));
    assert |s.audio.deferred| == 1;
    s.audio.RetryFires(0);
    audioRuns, textRuns := |s.audio.running|, |s.text.running|;
    var _ := s.audio.Finish(0, ER.ModelCall(Threw));
    assert |s.text.running| == 1;
    flagAfterAudioDone := s.busy.current;
  }

  /**
   * The handler as written clears the flag only on the run's last line. A
   * whole frame whose tensor cannot be built ends its run with the flag
   * still set and nothing in flight, and a transcript heard afterwards is
   * queued but not started. It stays unstarted while later audio runs
   * escape as well (a second frame, retried and escaping, then another
   * fragment); the first later audio run that ends without escaping clears
   * the flag, and the next fragment starts the oldest waiting transcript.
   */
  method EscapedRunBlocksText()
    returns (flag: bool, inFlight: nat, waiting: nat,
             flagAfterSecondEscape: bool, textRunsAfterSecondEscape: nat,
             flagAfterRecovery: bool, startedAfterRecovery: seq<string>)
    ensures flag && inFlight == 0 && waiting == 1
    ensures flagAfterSecondEscape && textRunsAfterSecondEscape == 0
    ensures !flagAfterRecovery && startedAfterRecovery == ["hello "]
  {
    var s := new Session(true);
    s.audio.OnMessage(seq(32000, _ => 0.0));
    var r := s.audio.Finish(0, ER.TensorThrew);
    assert r == Escaped;
    s.text.OnTranscript("hello");
    assert s.text.transcript == "hello ";
    assert !SR.IsJsWhitespace(s.text.transcript[0]);
    flag, inFlight, waiting := s.busy.current, |s.audio.running| + |s.text.running|, |s.text.queue|;

    // A second frame is deferred, its retry runs, and its tensor throws too.
    s.audio.OnMessage(seq(32000, _ => 0.0));
    s.audio.RetryFires(0);
    r := s.audio.Finish(0, ER.TensorThrew);
    assert r == Escaped;
    s.text.OnTranscript("again");
    assert !SR.IsJsWhitespace(s.text.transcript[0]);
    flagAfterSecondEscape, textRunsAfterSecondEscape := s.busy.current, |s.text.running|;

    // A third frame's run reaches the model; its last line clears the flag.
    s.audio.OnMessage(seq(32000, _ => 0.0));
    s.audio.RetryFires(0);
    r := s.audio.Finish(0, ER.ModelCall(Threw));
    assert r == Failed;
    flagAfterRecovery := s.busy.current;
    s.text.OnTranscript("now");
    assert !SR.IsJsWhitespace(s.text.transcript[0]);
    startedAfterRecovery := s.text.running;
  }
}
