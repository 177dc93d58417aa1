/**
 * The audio worklet that frames microphone audio for the speech-emotion
 * model: each render callback downmixes its input to mono, appends it to a
 * buffer, and once the buffer holds a whole two-second window (32000
 * samples at 16 kHz) posts the first 32000 samples and empties the buffer.
 * Sample values are reals; 32-bit float arithmetic is not modelled.
 */
module AudioProcessor {
  import opened Wrappers

  /** Samples in one posted frame: two seconds at 16 kHz. */
  const FrameLength: nat := 32000

  /** Samples per channel in one Web Audio render callback. */
  const RenderQuantum: nat := 128

  /** What one `process` call does: it returns normally or throws. */
  datatype ProcessOutcome =
    | Returned(posted: Option<seq<real>>, keepAlive: bool)
    | Threw

  /** One channel as mono, or two channels averaged sample by sample. */
  function Downmix(channels: seq<seq<real>>): (mono: seq<real>)
    requires 1 <= |channels| <= 2
    requires |channels| == 2 ==> |channels[0]| <= |channels[1]|
    ensures |mono| == |channels[0]|
    ensures |channels| == 1 ==> mono == channels[0]
    ensures |channels| == 2 ==>
      forall i :: 0 <= i < |mono| ==> mono[i] == (channels[0][i] + channels[1][i]) / 2.0
  {
    if |channels| == 1 then channels[0]
    else seq(|channels[0]|, i requires 0 <= i < |channels[0]| => (channels[0][i] + channels[1][i]) / 2.0)
  }

  /** Averaging a signal with itself gives the signal back. */
  lemma DownmixOfEqualChannels(x: seq<real>)
    ensures Downmix([x, x]) == x
  {
  }

  /** The buffer after one append, and the frame posted by it, if any. */
  datatype Step = Step(buffer: seq<real>, posted: Option<seq<real>>)

  /** Append `samples`; a buffer of at least FrameLength posts its prefix and is emptied. */
  function Accept(buffer: seq<real>, samples: seq<real>): (r: Step)
    ensures |buffer + samples| < FrameLength ==> r == Step(buffer + samples, None)
    ensures |buffer + samples| >= FrameLength ==>
      r.buffer == [] && r.posted.Some? && |r.posted.value| == FrameLength &&
      r.posted.value + (buffer + samples)[FrameLength..] == buffer + samples
    ensures |r.buffer| < FrameLength
  {
    var grown := buffer + samples;
    if |grown| >= FrameLength then Step([], Some(grown[..FrameLength]))
    else Step(grown, None)
  }

  class EmotionAudioProcessor {
    var buffer: seq<real>

    /** Between callbacks the buffer never holds a whole frame. */
    ghost predicate Valid()
      reads this
    {
      |buffer| < FrameLength
    }

    constructor()
      ensures Valid() && buffer == []
    {
      buffer := [];
    }

    /**
     * One render callback on the channels of the node's single input.
     * No channel: nothing happens. More than two: `samples` stays
     * undefined and spreading it into `push` throws before the buffer
     * changes. Otherwise the downmixed samples are accepted.
     */
    method Process(input: seq<seq<real>>) returns (r: ProcessOutcome)
      requires Valid()
      requires |input| == 2 ==> |input[0]| <= |input[1]|
      modifies this
      ensures Valid()
      ensures |input| == 0 ==> r == Returned(None, true) && buffer == old(buffer)
      ensures |input| > 2 ==> r == Threw && buffer == old(buffer)
      ensures 1 <= |input| <= 2 ==>
        r.Returned? && r.keepAlive &&
        Step(buffer, r.posted) == Accept(old(buffer), Downmix(input))
    {
      if |input| > 0 {
        if |input| > 2 {
          return Threw;
        }
        var samples := Downmix(input);
        var grown := buffer + samples;
        var posted := None;
        if |grown| >= FrameLength {
          posted := Some(grown[..FrameLength]);
          buffer := [];
        } else {
          buffer := grown;
        }
        return Returned(posted, true);
      }
      return Returned(None, true);
    }
  }

  /** Frames posted and the final buffer after accepting `chunks` in order. */
  function FeedAll(buffer: seq<real>, chunks: seq<seq<real>>): (r: (seq<seq<real>>, seq<real>))
    decreases |chunks|
  {
    if chunks == [] then ([], buffer)
    else
      var step := Accept(buffer, chunks[0]);
      var (frames, rest) := FeedAll(step.buffer, chunks[1..]);
      (if step.posted.Some? then [step.posted.value] + frames else frames, rest)
  }

  function Concat(ss: seq<seq<real>>): seq<real>
  {
    if ss == [] then [] else ss[0] + Concat(ss[1..])
  }

  ghost predicate AllFrames(frames: seq<seq<real>>)
  {
    forall k :: 0 <= k < |frames| ==> |frames[k]| == FrameLength
  }

  /**
   * With render-quantum sized chunks (128 samples, and 32000 is 250 of
   * them) no sample is ever discarded: the posted frames followed by the
   * remaining buffer are exactly the buffered and fed samples in order, so
   * k * 32000 + r samples give k whole frames and r < 32000 left over.
   */
  lemma {:induction false} QuantumChunksLoseNothing(buffer: seq<real>, chunks: seq<seq<real>>)
    requires |buffer| < FrameLength && |buffer| % RenderQuantum == 0
    requires forall k :: 0 <= k < |chunks| ==> |chunks[k]| == RenderQuantum
    ensures AllFrames(FeedAll(buffer, chunks).0)
    ensures Concat(FeedAll(buffer, chunks).0) + FeedAll(buffer, chunks).1 == buffer + Concat(chunks)
    ensures |FeedAll(buffer, chunks).1| < FrameLength
    decreases |chunks|
  {
    if chunks != [] {
      var step := Accept(buffer, chunks[0]);
      var grown := buffer + chunks[0];
      assert |grown| <= FrameLength;
      assert |step.buffer| % RenderQuantum == 0;
      QuantumChunksLoseNothing(step.buffer, chunks[1..]);
      var (frames, rest) := FeedAll(step.buffer, chunks[1..]);
      assert Concat(chunks) == chunks[0] + Concat(chunks[1..]);
      if step.posted.Some? {
        assert step.posted.value == grown;
        var all := [step.posted.value] + frames;
        assert all[1..] == frames;
        assert Concat(all) == grown + Concat(frames);
        assert FeedAll(buffer, chunks) == (all, rest);
        calc {
          Concat(all) + rest;
          grown + (Concat(frames) + rest);
          grown + (step.buffer + Concat(chunks[1..]));
          { assert step.buffer == []; }
          buffer + (chunks[0] + Concat(chunks[1..]));
        }
      } else {
        assert FeedAll(buffer, chunks) == (frames, rest);
        assert step.buffer == grown;
      }
    }
  }

  /**
   * A chunk that overshoots the window loses its excess: 31999 buffered
   * samples and a 2-sample chunk post one frame and keep nothing, so one
   * fed sample is neither posted nor buffered.
   */
  lemma OvershootDiscardsExcess()
    ensures var buffer := seq(FrameLength - 1, _ => 0.0);
      var r := Accept(buffer, [1.0, 2.0]);
      r.posted.Some? && r.buffer == [] &&
      |r.posted.value| + |r.buffer| == |buffer| + 2 - 1 &&
      r.posted.value[FrameLength - 1] == 1.0
  {
    var buffer := seq(FrameLength - 1, _ => 0.0);
    var grown := buffer + [1.0, 2.0];
    assert grown[FrameLength - 1] == 1.0;
  }
}
