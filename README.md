# Emotionally responsive character: verified model of the reactive core

This project models, in Dafny, the logic that turns a user's speech into the
reactions of an animated robot:

- **Audio framer** (`AudioProcessor`): the audio worklet. It downmixes each render
  callback's input to mono and appends it to a buffer. When the buffer reaches
  32000 samples (two seconds at 16 kHz), it posts the first 32000 samples and
  empties the buffer.
- **Emotion recorder** (`EmotionRecorder`): handles the posted frames under the
  busy flag that both recorders share. A clear flag starts a run at once. A set
  flag arms one 100 ms retry. A run skips any frame that is not exactly 32000
  samples. Otherwise it reports the first most probable of the seven emotions.
  The run clears the flag on its last line, so an error escaping it leaves the
  flag set.
- **Sentiment recorder** (`SentimentRecorder`):
  - It accumulates transcript fragments while the user speaks.
  - It queues every non-blank accumulated transcript.
  - It drains the queue one transcript at a time under the same flag.
- **Pipeline** (`Pipeline`): both recorders sharing one flag. This is where
  mutual exclusion between the two paths is stated (see Findings).
- **Robot scene** (`RobotScene`):
  - Per-frame easing of the face's morph targets.
  - Gestures that start only when the emotion changes.
  - The split of the wave clip into head and body halves, and the hand-over
    from the body half to the idle loop.
- **Reaction tables and types** (`RobotProfiles`, `Types`): the two profiles'
  tables and their data invariants.
- **Console log** (`ConsoleLog`): the log keeps only its latest 50 entries.
  `useLog` fails when no provider is mounted.

Collaborators are modelled as inputs:

- The classifier models and the tokenizer: a `ModelOutcome` argument, either the
  probabilities or an error caught by the run.
- The emotion run's tensor constructor, which runs outside the run's `try`: an
  `AudioOutcome` argument, `TensorThrew` when it throws.
- The render loop: calls to the per-frame methods.
- Timers and awaited completions: explicit steps (`RetryFires`, `Finish`).
- Starting a clip: the returned `PlayOnce` command.

Two behaviours of the code are worth stating plainly:

- Excess samples. When a callback takes the buffer past 32000 samples, the
  first 32000 are posted and the buffer is emptied, so samples past the 32000th
  are dropped (`OvershootDiscardsExcess`). With 128-sample render callbacks
  nothing is lost, because 32000 is a multiple of 128 (`QuantumChunksLoseNothing`).
- Transcript queueing. After every fragment, the whole accumulated transcript
  is queued untrimmed, so each fragment queues one more, longer, transcript.

## Model

| member | source | states |
|---|---|---|
| `Types.EmotionIndex` | src/lib/types.ts:1-8 | every emotion sits at exactly one position of the seven-label order |
| `Types.SentimentIndex` | src/lib/types.ts:10-13 | every directed sentiment sits at exactly one position of the three-label order |
| `Types.LabelSetsClosed` | src/lib/types.ts:1-13 | the label lists have 7 and 3 entries, each label listed once |
| `Argmax.Max` | src/app/components/emotion-recorder.tsx:145 | the result occurs in the vector and is at least every entry |
| `Argmax.IndexOf` | src/app/components/emotion-recorder.tsx:145 | first position of the value, -1 exactly when it is absent |
| `Argmax.ArgMax` | src/app/components/sentiment-recorder.tsx:187 | the position holds the maximum and every earlier entry is strictly smaller |
| `Argmax.ArgMaxUnique` | src/app/components/emotion-recorder.tsx:145 | that property singles out one position |
| `AudioProcessor.Downmix` | public/emotion-audio-processor.js:12-20 | mono passes through unchanged; stereo gives one average per left sample, as many samples as the left channel |
| `AudioProcessor.DownmixOfEqualChannels` | public/emotion-audio-processor.js:16-19 | two identical channels downmix to that channel |
| `AudioProcessor.Accept` | public/emotion-audio-processor.js:22-31 | below 32000 the samples are appended in order and nothing is posted; otherwise the post is the first 32000 samples and the buffer is empty; the buffer always stays below 32000 |
| `AudioProcessor.EmotionAudioProcessor.constructor` | public/emotion-audio-processor.js:2-5 | the buffer starts empty |
| `AudioProcessor.EmotionAudioProcessor.Process` | public/emotion-audio-processor.js:7-34 | no channel: nothing changes or is posted; one or two: the downmix is accepted, at most one frame is posted, true is returned; more than two: throws with the buffer unchanged |
| `AudioProcessor.QuantumChunksLoseNothing` | public/emotion-audio-processor.js:22-31 | with 128-sample callbacks every post is a whole frame, and the frames then the buffer are exactly the fed samples in order |
| `AudioProcessor.OvershootDiscardsExcess` | public/emotion-audio-processor.js:25-30 | a chunk crossing 32000 loses its excess: one sample is neither posted nor buffered |
| `EmotionRecorder.RunInference` | src/app/components/emotion-recorder.tsx:102-160 | skipped exactly when the frame is not 32000 samples; escapes exactly when the tensor constructor (before the `try`) throws; failed exactly on a model error; otherwise the label is at the first maximum and the confidence is its probability |
| `EmotionRecorder.RunInferencePicksFirstMax` | src/app/components/emotion-recorder.tsx:144-147 | the first maximum position of the probabilities decides the emotion and confidence reported |
| `EmotionRecorder.EmotionRecorder.constructor` | src/app/components/emotion-recorder.tsx:30-33 | no retry armed, no run in flight, holds the shared flag; the speaking copy starts from the prop |
| `EmotionRecorder.EmotionRecorder.SetSpeaking` | src/app/components/emotion-recorder.tsx:30-33 | the handler's copy of the speaking flag follows the prop |
| `EmotionRecorder.EmotionRecorder.OnMessage` | src/app/components/emotion-recorder.tsx:59-80 | not speaking: nothing and the flag untouched; flag clear: run starts, flag set; flag set: exactly one retry armed |
| `EmotionRecorder.EmotionRecorder.RetryFires` | src/app/components/emotion-recorder.tsx:68-76 | the retry sets the flag and starts its run without checking the flag |
| `EmotionRecorder.EmotionRecorder.RetryFiresChecked` | src/app/components/emotion-recorder.tsx:74-76 | corrected retry: a set flag re-arms it behind every armed timer, a clear one starts the run |
| `EmotionRecorder.EmotionRecorder.Finish` | src/app/components/emotion-recorder.tsx:68-72 | the run's result is RunInference of its frame and the run leaves the in-flight list; the flag is cleared unless the error escaped, in which case it keeps its value |
| `EmotionRecorder.EmotionRecorder.FinishGuarded` | src/app/components/emotion-recorder.tsx:68-72 | corrected run with the clearing in a `finally`: same result and in-flight list, and the flag is clear however the run ended |
| `SentimentRecorder.Classify` | src/app/components/sentiment-recorder.tsx:159-202 | never skipped and never escapes, since tokenizing and the model call are inside the `try`; failed exactly on an error; otherwise the first maximum of Neutral, Positive, Negative and its probability |
| `SentimentRecorder.SentimentRecorder.constructor` | src/app/components/sentiment-recorder.tsx:33-42 | empty transcript and queue, nothing running; the speaking copy starts from the prop |
| `SentimentRecorder.SentimentRecorder.SetSpeaking` | src/app/components/sentiment-recorder.tsx:42-48 | becoming true clears the transcript; otherwise the transcript is kept; nothing is queued |
| `SentimentRecorder.SentimentRecorder.ProcessQueue` | src/app/components/sentiment-recorder.tsx:150-158 | no-op when the flag is set or the queue is empty; otherwise sets the flag and takes exactly the oldest transcript; the queue stays first-in first-out |
| `SentimentRecorder.SentimentRecorder.OnTranscript` | src/app/components/sentiment-recorder.tsx:109-113 | a non-empty fragment while speaking appends fragment and one space; a non-blank transcript is then queued untrimmed and the queue drained (lines 50-57); otherwise nothing changes |
| `SentimentRecorder.SentimentRecorder.Finish` | src/app/components/sentiment-recorder.tsx:159-209 | result is Classify of the outcome; the flag is cleared on success and error; the next transcript starts if the queue is not empty |
| `SentimentRecorder.SpacesAloneStayBlank` | src/app/components/sentiment-recorder.tsx:51 | appending spaces to a blank transcript keeps it blank, so it is never queued |
| `Pipeline.Session.constructor` | src/app/components/sentiment-recorder.tsx:26 | both recorders hold the same fresh, clear flag and the speaking prop; nothing in flight |
| `Pipeline.Session.SetSpeaking` | src/app/components/sentiment-recorder.tsx:42-48 | both recorders see the new speaking value; speech starting clears the transcript, otherwise it is kept; no retry, queue or run changes; exclusivity kept |
| `Pipeline.Session.AudioMessage` | src/app/components/emotion-recorder.tsx:59-80 | ignored while not speaking, started on a clear flag, given a retry on a set flag; at most one run stays in flight, with the flag set exactly while one is |
| `Pipeline.Session.AudioRetry` | src/app/components/emotion-recorder.tsx:74-76 | the corrected retry re-arms on a set flag and starts on a clear one, and keeps that exclusivity |
| `Pipeline.Session.AudioDone` | src/app/components/emotion-recorder.tsx:68-72 | with the corrected finish, an audio run's end leaves nothing in flight and the flag clear; retries and speaking are untouched |
| `Pipeline.Session.TranscriptFragment` | src/app/components/sentiment-recorder.tsx:50-57 | the fragment is appended while speaking, otherwise nothing changes; queuing and draining keep exclusivity |
| `Pipeline.Session.TextDone` | src/app/components/sentiment-recorder.tsx:203-208 | after a text run the oldest waiting transcript is the one in flight and leaves the queue, one run is in flight exactly when transcripts were waiting, and the transcript is untouched |
| `Pipeline.TwoRunsInFlight` | src/app/components/emotion-recorder.tsx:68-79 | as written, an audio retry and a text run are in flight together, and the audio completion clears the flag while the text run continues |
| `Pipeline.EscapedRunBlocksText` | src/app/components/emotion-recorder.tsx:68-72 | as written, a run whose tensor constructor throws leaves the flag set with nothing in flight; a later transcript is queued but not started, and stays unstarted while the next audio run escapes too; once an audio run ends without escaping, the flag is clear and the next fragment starts the oldest waiting transcript |
| `RobotScene.ReactionMapShape` | src/app/components/robot-scene.tsx:51-59 | face targets lie in [0, 1]; Neutral, Sad and Angry have no animation; the rest have a one-entry record |
| `RobotScene.Smooth` | src/app/components/robot-scene.tsx:211 | the distance to the target shrinks to 0.9 of itself, never overshooting; [0, 1] is preserved |
| `RobotScene.SmoothNClosedForm` | src/app/components/robot-scene.tsx:211 | after n frames the distance is (t - v0) * 0.9^n |
| `RobotScene.SmoothNMonotone` | src/app/components/robot-scene.tsx:211 | the value moves monotonically toward the target and stays between start and target |
| `RobotScene.SmoothAll` | src/app/components/robot-scene.tsx:206-212 | one pass over the dictionary keeps the number of influences |
| `RobotScene.SmoothAllPerSlot` | src/app/components/robot-scene.tsx:206-212 | each listed slot eases once toward its key's target (0 when the reaction lacks the key); unlisted slots keep their value |
| `RobotScene.SmoothAllInUnit` | src/app/components/robot-scene.tsx:206-212 | influences and targets in [0, 1] keep every influence in [0, 1] |
| `RobotScene.SmoothInfluences` | src/app/components/robot-scene.tsx:206-212 | the in-place loop leaves the array equal to SmoothAll of its old contents |
| `RobotScene.FindClip` | src/app/components/robot-scene.tsx:224 | none exactly when no clip has the name; otherwise a loaded clip with that name |
| `RobotScene.FindClipFirst` | src/app/components/robot-scene.tsx:224 | the clip found is the one at the first position holding the name |
| `RobotScene.GestureFor` | src/app/components/robot-scene.tsx:220-233 | a clip only with loaded animations and a mounted group; it is a loaded clip named by the first animation entry, at its rate; never for Neutral, Sad, Angry |
| `RobotScene.GestureForComplete` | src/app/components/robot-scene.tsx:220-233 | a clip exactly when the reaction has an animation entry, the animations are loaded, the group is mounted and a loaded clip has the entry's name; it is then the clip `find` returns for that name |
| `RobotScene.ChangesOfExample` | src/app/components/robot-scene.tsx:219 | for A,A,B,B,B,A after A the emotion changes exactly at frames 2 and 5 |
| `RobotScene.Robot.constructor` | src/app/components/robot-scene.tsx:32-33 | both emotion refs start Neutral |
| `RobotScene.Robot.SetEmotion` | src/app/components/robot-scene.tsx:79-81 | the emotion ref follows the prop |
| `RobotScene.Robot.ExpressionFrame` | src/app/components/robot-scene.tsx:198-213 | missing dictionary leaves influences unchanged; otherwise they become SmoothAll toward the current emotion |
| `RobotScene.Robot.GestureFrame` | src/app/components/robot-scene.tsx:217-238 | no clip unless the emotion changed; on a change the clip is GestureFor; the last emotion is recorded either way |
| `RobotScene.Robot.RenderFrames` | src/app/components/robot-scene.tsx:217-238 | over a run of frames, clips start exactly at the frames where the emotion changes and a clip is available |
| `RobotScene.FilterTracks` | src/app/components/robot-scene.tsx:135-136 | every kept track matches the filter; the kept tracks are a subsequence of the input, in its order |
| `RobotScene.HeadBodySplit` | src/app/components/robot-scene.tsx:135-136 | head and body tracks are disjoint and together are all the wave's tracks |
| `RobotScene.SetupActions` | src/app/components/robot-scene.tsx:125-159 | actions exist exactly when animations, group, Wave and Idle exist; head/body halves of Wave; idle without head tracks, named with "_NoHead" |
| `RobotScene.OnFinish` | src/app/components/robot-scene.tsx:177-182 | one "finished" event restarts the idle action exactly when it is the body half of the wave; any other action gives nothing |
| `RobotScene.IdleOnlyAfterWaveBody` | src/app/components/robot-scene.tsx:177-184 | over any sequence of "finished" events, the listener has started idle exactly when the body half of the wave is among them, never on the head half alone |
| `RobotProfiles.ProfileReactionsAreCells` | src/lib/robot-profiles.ts:12-97 | looking up Jim's or Louisa's table at an emotion and sentiment gives exactly the cell written for that pair |
| `RobotProfiles.TableOf` | src/lib/types.ts:29 | the nested map holds a reaction for every emotion and sentiment, the cell's own |
| `RobotProfiles.JimCellWellFormed` | src/lib/robot-profiles.ts:12-48 | every Jim cell: keys among Angry, Surprised, Sad; weights in [0, 1]; duration 750..4000; animation only Yes 1.1 at Happy/Positive and No 1.0 at Angry/Negative |
| `RobotProfiles.LouisaCellWellFormed` | src/lib/robot-profiles.ts:61-97 | the same invariants for every Louisa cell |
| `RobotProfiles.ProfilesWellFormed` | src/lib/robot-profiles.ts:12-97 | both profiles' tables are total and every cell keeps the invariants |
| `RobotProfiles.NeutralFaceIsZero` | src/lib/robot-profiles.ts:30 | Neutral/Neutral is the all-zero face in both profiles |
| `RobotProfiles.CellsAgreeOffNegative` | src/lib/robot-profiles.ts:13-96 | the two profiles' cells coincide wherever the sentiment is not Negative |
| `RobotProfiles.ProfilesDifferOnlyOnNegative` | src/lib/robot-profiles.ts:13-96 | the profiles agree on all Positive and Neutral cells and differ on a Negative one |
| `ConsoleLog.AddLog` | src/app/context/console-context.tsx:21-24 | length is min(old + 1, 50); the entry is last; the log is a suffix of old plus entry; under 50 it is exactly old plus entry |
| `ConsoleLog.LastNOfAppend` | src/app/context/console-context.tsx:23 | trimming to 50 before appending changes nothing once trimmed again |
| `ConsoleLog.AddAllKeepsLatest` | src/app/context/console-context.tsx:23 | after any number of additions the log is the latest 50 entries in arrival order |
| `ConsoleLog.UseLog` | src/app/context/console-context.tsx:33-37 | an error with the provider message exactly when no context is present |

## Left out

- Numerics: z-score normalisation, softmax, Float16 conversion and IEEE rounding. Samples, probabilities and weights are reals. The model outcome is taken to be the probability vector.
- The ONNX sessions, the tokenizer and tensor construction are opaque. A model call's result is the `ModelOutcome` argument: probabilities, or an error the run catches. Whether the emotion run's tensor constructor throws is the `AudioOutcome` argument; that error escapes the run.
- Timing: the 100 ms `setTimeout` and the awaited model calls are explicit steps (`RetryFires`, `Finish`), not wall-clock time.
- Log messages are not modelled: those written during a run (latency, predicted label), the `transcription` entry added for every queued transcript, and `console.error` calls.
- Audio setup and teardown (AudioContext, worklet registration, `getUserMedia`) are I/O and not modelled.
- The transcription socket, MediaRecorder and keep-alive, the WebRTC chat, and both credential routes are network I/O. Speech start and stop enter only as `SetSpeaking`.
- React batching of state updates: each transcript fragment is modelled as its own render.
- three.js: loading, recolouring, `mixer.update`, fades, loop and clamp settings. Starting a gesture is the `PlayOnce` command. The wave and idle actions are the `ActionSet` value. Their "finished" events are `ActionName` values.
- The scene's button panel, the layout and the page are UI and not modelled.
- The profiles' persona prompt text is not modelled. It is only forwarded to the voice service.
- The consumer of detected emotions and sentiments (confidence gating, decay timers) is not part of this model.
- `SentimentRecorder.IsBlank` treats as whitespace the characters `String.prototype.trim` removes, as listed in the model. No Unicode tables beyond that list are modelled.
- `AudioProcessor.EmotionAudioProcessor.Process` requires the right channel to be at least as long as the left one. Web Audio always delivers channels of equal length.
- `EmotionRecorder.RunInference` requires 7 probabilities and `SentimentRecorder.Classify` requires 3, the models' declared output sizes. With any other size the source would read an undefined label.
- `Pipeline.Session.constructor` starts the shared flag clear. The component that creates the flag is not part of this model.
- `Pipeline.Session.TranscriptFragment`: states the transcript and exclusivity but not the new queue. The full queue state is the contract of `SentimentRecorder.SentimentRecorder.OnTranscript`, which it calls.

## Findings

| source | as written | input that shows it | evidently intended | confidence | as-written member | corrected member |
|---|---|---|---|---|---|---|
| src/app/components/emotion-recorder.tsx:68-76 | the deferred retry sets the shared busy flag and runs without checking it again, and each completion clears the flag | while speaking, a transcript "hello" starts a text run; a frame then arrives, arms a retry, and the retry fires: two runs are in flight, and when the audio run ends the flag is clear while the text run continues | the retry waits until the flag is clear, so at most one classifier call is in flight and the flag is set exactly while one is | medium (not executed) | `Pipeline.TwoRunsInFlight` | `Pipeline.Session.AudioRetry` |
| src/app/components/emotion-recorder.tsx:68-72 | `run` clears the shared flag on its last line, with no `finally`, and the tensor is built before `runInference`'s `try` (line 119) | a whole 32000-sample frame for which `new ort.Tensor` throws: the run ends with the flag still set and nothing in flight, and every later transcript is queued but not classified until some later audio run ends without escaping | the flag is cleared however the run ends, so a failed run never blocks either path | low (not executed) | `Pipeline.EscapedRunBlocksText` | `Pipeline.Session.AudioDone` |
