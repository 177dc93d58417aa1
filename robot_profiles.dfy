/**
 * The two character profiles and their reaction tables: for every
 * (emotion, directed sentiment) pair, face weights on the Angry,
 * Surprised and Sad morph targets, an optional gesture and a duration in
 * milliseconds. Each table is written cell by cell, as its object literal
 * is, and turned into the nested map the profile holds.
 */
module RobotProfiles {
  import opened Wrappers
  import opened Types

  function JimCell(e: Emotion, s: DirectedSentiment): Reaction
  {
    match (e, s)
    case (Happy, Positive) =>
      Reaction(map["Angry" := 0.25, "Surprised" := 0.4, "Sad" := 0.1], Some([Gesture("Yes", 1.1)]), 1500)
    case (Happy, Neutral) => Reaction(map["Surprised" := 0.3], None, 1000)
    case (Happy, Negative) => Reaction(map["Angry" := 1.0, "Surprised" := 0.35, "Sad" := 0.15], None, 2000)
    case (Fearful, Positive) => Reaction(map["Surprised" := 0.65, "Sad" := 1.0], None, 2000)
    case (Fearful, Neutral) => Reaction(map["Surprised" := 0.45, "Sad" := 1.0], None, 2000)
    case (Fearful, Negative) => Reaction(map["Surprised" := 1.0, "Sad" := 1.0], None, 2500)
    case (Surprised, Positive) => Reaction(map["Surprised" := 1.0], None, 750)
    case (Surprised, Neutral) => Reaction(map["Surprised" := 0.5], None, 750)
    case (Surprised, Negative) => Reaction(map["Angry" := 1.0, "Surprised" := 0.6], None, 1500)
    case (Neutral, Positive) => Reaction(map["Angry" := 0.0, "Surprised" := 0.3, "Sad" := 0.0], None, 1500)
    case (Neutral, Neutral) => Reaction(map["Angry" := 0.0, "Surprised" := 0.0, "Sad" := 0.0], None, 1500)
    case (Neutral, Negative) => Reaction(map["Angry" := 0.7], None, 2500)
    case (Disgusted, Positive) => Reaction(map["Angry" := 0.3, "Surprised" := 0.5], None, 750)
    case (Disgusted, Neutral) => Reaction(map["Angry" := 0.55, "Surprised" := 0.3, "Sad" := 0.7], None, 1000)
    case (Disgusted, Negative) => Reaction(map["Angry" := 1.0, "Surprised" := 0.35, "Sad" := 1.0], None, 2500)
    case (Sad, Positive) => Reaction(map["Surprised" := 0.5, "Sad" := 0.3], None, 2500)
    case (Sad, Neutral) => Reaction(map["Surprised" := 0.25, "Sad" := 0.6], None, 2500)
    case (Sad, Negative) => Reaction(map["Surprised" := 0.3, "Sad" := 1.0], None, 2500)
    case (Angry, Positive) => Reaction(map["Angry" := 0.7, "Surprised" := 0.5, "Sad" := 0.1], None, 1000)
    case (Angry, Neutral) => Reaction(map["Angry" := 0.7, "Surprised" := 0.2], None, 2000)
    case (Angry, Negative) => Reaction(map["Angry" := 1.0], Some([Gesture("No", 1.0)]), 3000)
  }

  function LouisaCell(e: Emotion, s: DirectedSentiment): Reaction
  {
    match (e, s)
    case (Happy, Positive) =>
      Reaction(map["Angry" := 0.25, "Surprised" := 0.4, "Sad" := 0.1], Some([Gesture("Yes", 1.1)]), 1500)
    case (Happy, Neutral) => Reaction(map["Surprised" := 0.3], None, 1000)
    case (Happy, Negative) => Reaction(map["Angry" := 1.0, "Surprised" := 0.35, "Sad" := 0.15], None, 2000)
    case (Fearful, Positive) => Reaction(map["Surprised" := 0.65, "Sad" := 1.0], None, 2000)
    case (Fearful, Neutral) => Reaction(map["Surprised" := 0.45, "Sad" := 1.0], None, 2000)
    case (Fearful, Negative) => Reaction(map["Angry" := 0.8], None, 2500)
    case (Surprised, Positive) => Reaction(map["Surprised" := 1.0], None, 750)
    case (Surprised, Neutral) => Reaction(map["Surprised" := 0.5], None, 750)
    case (Surprised, Negative) => Reaction(map["Angry" := 1.0, "Surprised" := 0.6], None, 1500)
    case (Neutral, Positive) => Reaction(map["Angry" := 0.0, "Surprised" := 0.3, "Sad" := 0.0], None, 1500)
    case (Neutral, Neutral) => Reaction(map["Angry" := 0.0, "Surprised" := 0.0, "Sad" := 0.0], None, 1500)
    case (Neutral, Negative) => Reaction(map["Angry" := 0.9], None, 2500)
    case (Disgusted, Positive) => Reaction(map["Angry" := 0.3, "Surprised" := 0.5], None, 750)
    case (Disgusted, Neutral) => Reaction(map["Angry" := 0.55, "Surprised" := 0.3, "Sad" := 0.7], None, 1000)
    case (Disgusted, Negative) => Reaction(map["Angry" := 1.0, "Surprised" := 0.35, "Sad" := 1.0], None, 3500)
    case (Sad, Positive) => Reaction(map["Surprised" := 0.5, "Sad" := 0.3], None, 2500)
    case (Sad, Neutral) => Reaction(map["Surprised" := 0.25, "Sad" := 0.6], None, 2500)
    case (Sad, Negative) => Reaction(map["Angry" := 0.6], None, 2500)
    case (Angry, Positive) => Reaction(map["Angry" := 0.7, "Surprised" := 0.5, "Sad" := 0.1], None, 1000)
    case (Angry, Neutral) => Reaction(map["Angry" := 0.7, "Surprised" := 0.2], None, 2000)
    case (Angry, Negative) => Reaction(map["Angry" := 1.0], Some([Gesture("No", 1.0)]), 4000)
  }

  /** The nested emotion-then-sentiment map holding `cell` at every pair. */
  function TableOf(cell: (Emotion, DirectedSentiment) -> Reaction): (t: ReactionTable)
    ensures TotalTable(t)
    ensures forall e: Emotion, s: DirectedSentiment :: t[e][s] == cell(e, s)
  {
    var emotions := set i | 0 <= i < |AllEmotions| :: AllEmotions[i];
    var sentiments := set i | 0 <= i < |AllSentiments| :: AllSentiments[i];
    assert forall e: Emotion :: e in emotions by {
      forall e: Emotion ensures e in emotions { assert AllEmotions[EmotionIndex(e)] == e; }
    }
    assert forall s: DirectedSentiment :: s in sentiments by {
      forall s: DirectedSentiment ensures s in sentiments { assert AllSentiments[SentimentIndex(s)] == s; }
    }
    map e | e in emotions :: map s | s in sentiments :: cell(e, s)
  }

  const Jim: RobotProfile := RobotProfile("Jim", "#4f63ad", "ballad", TableOf(JimCell))

  const Louisa: RobotProfile := RobotProfile("Louisa", "#b700ff", "sage", TableOf(LouisaCell))

  /** The data invariants every cell of a reaction table is meant to keep. */
  ghost predicate WellFormedCell(e: Emotion, s: DirectedSentiment, r: Reaction)
  {
    && (forall key :: key in r.expression ==> key in {"Angry", "Surprised", "Sad"})
    && (forall key :: key in r.expression ==> 0.0 <= r.expression[key] <= 1.0)
    && 750 <= r.duration <= 4000
    && (r.animation.Some? <==> (e, s) == (Happy, Positive) || (e, s) == (Angry, Negative))
    && ((e, s) == (Happy, Positive) ==> r.animation == Some([Gesture("Yes", 1.1)]))
    && ((e, s) == (Angry, Negative) ==> r.animation == Some([Gesture("No", 1.0)]))
  }

  lemma JimCellWellFormed(e: Emotion, s: DirectedSentiment)
    ensures WellFormedCell(e, s, JimCell(e, s))
  {
  }

  lemma LouisaCellWellFormed(e: Emotion, s: DirectedSentiment)
    ensures WellFormedCell(e, s, LouisaCell(e, s))
  {
  }

  /** Each profile's lookup gives, for every pair, exactly that pair's cell. */
  lemma ProfileReactionsAreCells(e: Emotion, s: DirectedSentiment)
    ensures ReactionFor(Jim, e, s) == JimCell(e, s)
    ensures ReactionFor(Louisa, e, s) == LouisaCell(e, s)
  {
  }

  /** Both profiles give every pair a reaction that keeps the data invariants. */
  lemma ProfilesWellFormed()
    ensures TotalTable(Jim.reactionTable) && TotalTable(Louisa.reactionTable)
    ensures forall e: Emotion, s: DirectedSentiment ::
      WellFormedCell(e, s, ReactionFor(Jim, e, s)) && WellFormedCell(e, s, ReactionFor(Louisa, e, s))
  {
    forall e: Emotion, s: DirectedSentiment
      ensures WellFormedCell(e, s, ReactionFor(Jim, e, s)) && WellFormedCell(e, s, ReactionFor(Louisa, e, s))
    {
      JimCellWellFormed(e, s);
      LouisaCellWellFormed(e, s);
    }
  }

  /** Neutral emotion with neutral sentiment is the all-zero face in both profiles. */
  lemma NeutralFaceIsZero()
    ensures ReactionFor(Jim, Emotion.Neutral, DirectedSentiment.Neutral).expression ==
      map["Angry" := 0.0, "Surprised" := 0.0, "Sad" := 0.0]
    ensures ReactionFor(Louisa, Emotion.Neutral, DirectedSentiment.Neutral).expression ==
      map["Angry" := 0.0, "Surprised" := 0.0, "Sad" := 0.0]
  {
  }

  lemma CellsAgreeOffNegative(e: Emotion, s: DirectedSentiment)
    requires s != Negative
    ensures JimCell(e, s) == LouisaCell(e, s)
  {
  }

  /** The profiles agree on every Positive and Neutral cell and differ on some Negative ones. */
  lemma ProfilesDifferOnlyOnNegative()
    ensures forall e: Emotion, s: DirectedSentiment :: s != Negative ==>
      ReactionFor(Jim, e, s) == ReactionFor(Louisa, e, s)
    ensures ReactionFor(Jim, Angry, Negative).duration == 3000
    ensures ReactionFor(Louisa, Angry, Negative).duration == 4000
  {
    forall e: Emotion, s: DirectedSentiment | s != Negative
      ensures ReactionFor(Jim, e, s) == ReactionFor(Louisa, e, s)
    {
      CellsAgreeOffNegative(e, s);
    }
  }
}
