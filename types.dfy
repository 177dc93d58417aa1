/**
 * The shared vocabulary of the character: the two closed label sets the
 * classifiers produce, a Reaction (face targets, an optional gesture and a
 * duration) and a robot profile holding a reaction for every
 * (emotion, directed sentiment) pair.
 */
module Types {
  import opened Wrappers

  /** The seven speech-emotion labels, in the classifier's output order. */
  datatype Emotion = Happy | Fearful | Surprised | Neutral | Disgusted | Sad | Angry

  /** The three directed-sentiment labels, in the classifier's output order. */
  datatype DirectedSentiment = Neutral | Positive | Negative

  const AllEmotions: seq<Emotion> :=
    [Happy, Fearful, Surprised, Emotion.Neutral, Disgusted, Sad, Angry]

  const AllSentiments: seq<DirectedSentiment> :=
    [DirectedSentiment.Neutral, Positive, Negative]

  /** Position of an emotion in AllEmotions (the inverse of indexing it). */
  function EmotionIndex(e: Emotion): (i: nat)
    ensures i < |AllEmotions| && AllEmotions[i] == e
  {
    match e
    case Happy => 0
    case Fearful => 1
    case Surprised => 2
    case Neutral => 3
    case Disgusted => 4
    case Sad => 5
    case Angry => 6
  }

  /** Position of a sentiment in AllSentiments. */
  function SentimentIndex(s: DirectedSentiment): (i: nat)
    ensures i < |AllSentiments| && AllSentiments[i] == s
  {
    match s
    case Neutral => 0
    case Positive => 1
    case Negative => 2
  }

  /** Both label lists list every label exactly once. */
  lemma LabelSetsClosed()
    ensures |AllEmotions| == 7 && |AllSentiments| == 3
    ensures forall i :: 0 <= i < |AllEmotions| ==> EmotionIndex(AllEmotions[i]) == i
    ensures forall i :: 0 <= i < |AllSentiments| ==> SentimentIndex(AllSentiments[i]) == i
  {
  }

  /** A one-shot gesture: the clip's name and its playback rate. */
  datatype Gesture = Gesture(name: string, timeScale: real)

  /**
   * A reaction: a weight per morph target named in `expression`, an optional
   * animation record (its entries in insertion order) and a duration in ms.
   */
  datatype Reaction = Reaction(
    expression: map<string, real>,
    animation: Option<seq<Gesture>>,
    duration: int)

  type ReactionTable = map<Emotion, map<DirectedSentiment, Reaction>>

  /** The table holds a reaction for every emotion and every sentiment. */
  ghost predicate TotalTable(t: ReactionTable)
  {
    forall e: Emotion :: e in t && forall s: DirectedSentiment :: s in t[e]
  }

  datatype RobotProfile = RobotProfile(
    name: string,
    color: string,
    voice: string,
    reactionTable: ReactionTable)

  /** The reaction a profile assigns to an (emotion, sentiment) pair. */
  function ReactionFor(p: RobotProfile, e: Emotion, s: DirectedSentiment): (r: Reaction)
    requires TotalTable(p.reactionTable)
    ensures r in p.reactionTable[e].Values
  {
    p.reactionTable[e][s]
  }
}
