/**
 * The robot's per-frame behaviour: the face eases every morph target 10%
 * of the way to the current emotion's weight each frame, a gesture clip is
 * started only on the frame the emotion changes, and the opening wave is
 * split into head and body clips whose body half hands over to the idle
 * loop. Rendering, loading and the mixer's blending are not modelled;
 * starting a clip is the emitted command PlayOnce. Weights are reals, so
 * floating-point rounding is not modelled.
 */
module RobotScene {
  import opened Wrappers
  import opened Types

  /** The scene's own reaction record: face weights and an optional animation record. */
  datatype SceneReaction = SceneReaction(
    expression: Option<map<string, real>>,
    animation: Option<seq<Gesture>>)

  /** The scene's reaction per emotion. */
  function ReactionMap(e: Emotion): SceneReaction
  {
    match e
    case Neutral => SceneReaction(Some(map["Angry" := 0.0, "Surprised" := 0.0, "Sad" := 0.0]), None)
    case Happy => SceneReaction(Some(map["Angry" := 0.5, "Surprised" := 0.3, "Sad" := 0.15]),
                                Some([Gesture("Yes", 1.1)]))
    case Sad => SceneReaction(Some(map["Sad" := 1.0]), None)
    case Angry => SceneReaction(Some(map["Angry" := 1.0]), None)
    case Fearful => SceneReaction(Some(map["Surprised" := 0.75]), Some([Gesture("Death", 0.5)]))
    case Surprised => SceneReaction(Some(map["Surprised" := 1.0]), Some([Gesture("Jump", 1.2)]))
    case Disgusted => SceneReaction(Some(map["Angry" := 1.0, "Sad" := 1.0]), Some([Gesture("No", 1.1)]))
  }

  /** The weight a morph target eases toward: its entry, or 0 when it has none. */
  function Target(r: SceneReaction, key: string): real
  {
    if r.expression.Some? && key in r.expression.value then r.expression.value[key] else 0.0
  }

  /**
   * Every scene reaction has face weights in [0, 1]; Neutral, Sad and
   * Angry carry no animation, and every other emotion a one-entry record.
   */
  lemma ReactionMapShape(e: Emotion)
    ensures forall key :: 0.0 <= Target(ReactionMap(e), key) <= 1.0
    ensures ReactionMap(e).animation.None? <==> e in {Emotion.Neutral, Sad, Angry}
    ensures ReactionMap(e).animation.Some? ==> |ReactionMap(e).animation.value| == 1
  {
  }

  // ---------------------------------------------------------------------
  // Expression smoothing

  /** One frame of easing: 10% of the remaining distance to the target. */
  function Smooth(v: real, t: real): (v': real)
    ensures t - v' == (t - v) * 0.9
    ensures v <= t ==> v <= v' <= t
    ensures t <= v ==> t <= v' <= v
    ensures 0.0 <= v <= 1.0 && 0.0 <= t <= 1.0 ==> 0.0 <= v' <= 1.0
  {
    v + (t - v) * 0.1
  }

  function Pow(x: real, n: nat): real
  {
    if n == 0 then 1.0 else x * Pow(x, n - 1)
  }

  /** The value after `n` frames toward a fixed target. */
  function SmoothN(v: real, t: real, n: nat): real
  {
    if n == 0 then v else Smooth(SmoothN(v, t, n - 1), t)
  }

  /** After n frames the distance to the target has shrunk by 0.9^n. */
  lemma {:induction false} SmoothNClosedForm(v: real, t: real, n: nat)
    ensures t - SmoothN(v, t, n) == (t - v) * Pow(0.9, n)
  {
    if n > 0 {
      SmoothNClosedForm(v, t, n - 1);
      var d := t - v;
      calc {
        t - SmoothN(v, t, n);
        (t - SmoothN(v, t, n - 1)) * 0.9;
        (d * Pow(0.9, n - 1)) * 0.9;
        d * (0.9 * Pow(0.9, n - 1));
      }
    }
  }

  /** Easing toward a fixed target never passes it, and the distance never grows. */
  lemma {:induction false} SmoothNMonotone(v: real, t: real, n: nat)
    ensures v <= t ==> v <= SmoothN(v, t, n) <= SmoothN(v, t, n + 1) <= t
    ensures t <= v ==> t <= SmoothN(v, t, n + 1) <= SmoothN(v, t, n) <= v
  {
    if n > 0 {
      SmoothNMonotone(v, t, n - 1);
    }
  }

  /** A morph-target dictionary entry: a target's name and its influence slot. */
  datatype MorphKey = MorphKey(name: string, index: nat)

  ghost predicate IndicesIn(dict: seq<MorphKey>, n: nat)
  {
    forall k :: 0 <= k < |dict| ==> dict[k].index < n
  }

  ghost predicate DistinctIndices(dict: seq<MorphKey>)
  {
    forall k, m :: 0 <= k < m < |dict| ==> dict[k].index != dict[m].index
  }

  /** The influences after easing every dictionary entry once, in key order. */
  function SmoothAll(infl: seq<real>, dict: seq<MorphKey>, r: SceneReaction): (out: seq<real>)
    requires IndicesIn(dict, |infl|)
    ensures |out| == |infl|
  {
    if dict == [] then infl
    else
      var prev := SmoothAll(infl, dict[..|dict| - 1], r);
      var key := dict[|dict| - 1];
      prev[key.index := Smooth(prev[key.index], Target(r, key.name))]
  }

  /**
   * With one slot per key, each listed slot moves once toward its key's
   * target and every other slot keeps its value.
   */
  lemma {:induction false} SmoothAllPerSlot(infl: seq<real>, dict: seq<MorphKey>, r: SceneReaction)
    requires IndicesIn(dict, |infl|) && DistinctIndices(dict)
    ensures forall k :: 0 <= k < |dict| ==>
      SmoothAll(infl, dict, r)[dict[k].index] == Smooth(infl[dict[k].index], Target(r, dict[k].name))
    ensures forall j :: 0 <= j < |infl| && (forall k :: 0 <= k < |dict| ==> dict[k].index != j) ==>
      SmoothAll(infl, dict, r)[j] == infl[j]
  {
    if dict != [] {
      var init := dict[..|dict| - 1];
      SmoothAllPerSlot(infl, init, r);
      forall k | 0 <= k < |init| ensures init[k] == dict[k] { }
    }
  }

  /** Influences and targets in [0, 1] keep every influence in [0, 1]. */
  lemma {:induction false} SmoothAllInUnit(infl: seq<real>, dict: seq<MorphKey>, r: SceneReaction)
    requires IndicesIn(dict, |infl|)
    requires forall j :: 0 <= j < |infl| ==> 0.0 <= infl[j] <= 1.0
    requires forall key :: 0.0 <= Target(r, key) <= 1.0
    ensures forall j :: 0 <= j < |infl| ==> 0.0 <= SmoothAll(infl, dict, r)[j] <= 1.0
  {
    if dict != [] {
      SmoothAllInUnit(infl, dict[..|dict| - 1], r);
    }
  }

  /** The head mesh with its morph-target dictionary and influences, either possibly missing. */
  class HeadMesh {
    var dictionary: Option<seq<MorphKey>>
    var influences: array?<real>

    constructor(dictionary: Option<seq<MorphKey>>, influences: array?<real>)
      ensures this.dictionary == dictionary && this.influences == influences
    {
      this.dictionary := dictionary;
      this.influences := influences;
    }
  }

  /** Ease every influence named in `dict` one frame toward the reaction's targets, in key order. */
  method SmoothInfluences(dict: seq<MorphKey>, infl: array<real>, r: SceneReaction)
    requires IndicesIn(dict, infl.Length)
    modifies infl
    ensures infl[..] == SmoothAll(old(infl[..]), dict, r)
  {
    ghost var start := infl[..];
    for n := 0 to |dict|
      invariant infl[..] == SmoothAll(start, dict[..n], r)
    {
      var i := dict[n].index;
      infl[i] := infl[i] + (Target(r, dict[n].name) - infl[i]) * 0.1;
      assert dict[..n + 1][..n] == dict[..n];
    }
    assert dict[..|dict|] == dict;
  }

  /** A one-shot gesture command: play this clip once at this rate. */
  datatype Clip = Clip(name: string, duration: real, tracks: seq<string>)

  datatype PlayOnce = PlayOnce(clip: Clip, timeScale: real)

  /** The first clip with the given name (`Array.prototype.find`). */
  function FindClip(clips: seq<Clip>, name: string): (r: Option<Clip>)
    ensures r.None? <==> forall i :: 0 <= i < |clips| ==> clips[i].name != name
    ensures r.Some? ==> r.value in clips && r.value.name == name
  {
    if clips == [] then None
    else if clips[0].name == name then Some(clips[0])
    else FindClip(clips[1..], name)
  }

  /** The clip found is the one at the first position holding the name. */
  lemma {:induction false} FindClipFirst(clips: seq<Clip>, name: string, i: nat)
    requires i < |clips| && clips[i].name == name
    requires forall j :: 0 <= j < i ==> clips[j].name != name
    ensures FindClip(clips, name) == Some(clips[i])
  {
    if i > 0 {
      FindClipFirst(clips[1..], name, i - 1);
    }
  }

  /**
   * The clip an emotion's reaction asks for once the animations are loaded
   * and the group is mounted: the first animation entry's clip at its rate.
   */
  function GestureFor(e: Emotion, animations: Option<seq<Clip>>, groupMounted: bool): (r: Option<PlayOnce>)
    ensures r.Some? ==>
      ReactionMap(e).animation.Some? && |ReactionMap(e).animation.value| > 0 &&
      animations.Some? && groupMounted &&
      r.value.clip.name == ReactionMap(e).animation.value[0].name &&
      r.value.clip in animations.value &&
      r.value.timeScale == ReactionMap(e).animation.value[0].timeScale
    ensures e in {Emotion.Neutral, Sad, Angry} ==> r.None?
  {
    match ReactionMap(e).animation
    case None => None
    case Some(entries) =>
      if animations.None? || !groupMounted || |entries| == 0 then None
      else
        match FindClip(animations.value, entries[0].name)
        case None => None
        case Some(clip) => Some(PlayOnce(clip, entries[0].timeScale))
  }

  /**
   * The converse: whenever the reaction names a clip, the animations are
   * loaded, the group is mounted and a loaded clip has that name, the
   * gesture is the first such clip; when any of these fails, there is none.
   */
  lemma GestureForComplete(e: Emotion, animations: Option<seq<Clip>>, groupMounted: bool)
    ensures GestureFor(e, animations, groupMounted).Some? <==>
      ReactionMap(e).animation.Some? && |ReactionMap(e).animation.value| > 0 &&
      animations.Some? && groupMounted &&
      exists i :: 0 <= i < |animations.value| &&
        animations.value[i].name == ReactionMap(e).animation.value[0].name
    ensures GestureFor(e, animations, groupMounted).Some? ==>
      var g := GestureFor(e, animations, groupMounted).value;
      Some(g.clip) == FindClip(animations.value, ReactionMap(e).animation.value[0].name) &&
      g.timeScale == ReactionMap(e).animation.value[0].timeScale
  {
  }

  /** Frame `i` of `es` shows an emotion other than the one before it (`last` before frame 0). */
  ghost predicate ChangesAt(last: Emotion, es: seq<Emotion>, i: int)
  {
    0 <= i < |es| && es[i] != (if i == 0 then last else es[i - 1])
  }

  /** For A, A, B, B, B, A starting from A, the emotion changes only at frames 2 and 5. */
  lemma ChangesOfExample(a: Emotion, b: Emotion)
    requires a != b
    ensures forall i :: ChangesAt(a, [a, a, b, b, b, a], i) <==> i == 2 || i == 5
  {
  }

  /** The scene's refs: the current emotion and the emotion seen at the previous frame. */
  class Robot {
    var emotion: Emotion
    var lastEmotion: Emotion

    constructor()
      ensures emotion == Emotion.Neutral && lastEmotion == Emotion.Neutral
    {
      emotion := Emotion.Neutral;
      lastEmotion := Emotion.Neutral;
    }

    method SetEmotion(e: Emotion)
      modifies this`emotion
      ensures emotion == e
    {
      emotion := e;
    }

    /**
     * One frame of facial expression. Without a head mesh, a dictionary or
     * influences nothing changes; otherwise every influence eases toward
     * the current emotion's weight for it.
     */
    method ExpressionFrame(head: HeadMesh?)
      requires head != null && head.dictionary.Some? && head.influences != null ==>
        IndicesIn(head.dictionary.value, head.influences.Length)
      modifies if head != null && head.influences != null then {head.influences} else {}
      ensures head != null && head.dictionary.Some? && head.influences != null ==>
        head.influences[..] == SmoothAll(old(head.influences[..]), head.dictionary.value, ReactionMap(emotion))
      ensures head != null && head.dictionary.None? && head.influences != null ==>
        head.influences[..] == old(head.influences[..])
    {
      if head == null {
        return;
      }
      var dict, infl := head.dictionary, head.influences;
      if dict.None? || infl == null {
        return;
      }
      SmoothInfluences(dict.value, infl, ReactionMap(emotion));
    }

    /**
     * One frame of gesture handling: only a change of emotion since the
     * previous frame can start a clip, and the new emotion is recorded
     * whether or not a clip was started.
     */
    method GestureFrame(animations: Option<seq<Clip>>, groupMounted: bool) returns (play: Option<PlayOnce>)
      modifies this`lastEmotion
      ensures lastEmotion == emotion
      ensures old(lastEmotion) == emotion ==> play.None?
      ensures old(lastEmotion) != emotion ==> play == GestureFor(emotion, animations, groupMounted)
    {
      play := None;
      if emotion != lastEmotion {
        var anim := ReactionMap(emotion).animation;
        if anim.Some? && animations.Some? && groupMounted {
          assert |anim.value| == 1;
          var entry := anim.value[0];
          var clip := FindClip(animations.value, entry.name);
          if clip.Some? {
            play := Some(PlayOnce(clip.value, entry.timeScale));
          }
        }
        lastEmotion := emotion;
      }
    }

    /**
     * Frames showing the emotions `es` in turn: a clip is started exactly
     * at the frames where the emotion changes and a clip is available.
     */
    method RenderFrames(es: seq<Emotion>, animations: Option<seq<Clip>>, groupMounted: bool)
      returns (fired: seq<nat>)
      modifies this`emotion, this`lastEmotion
      ensures forall i :: i in fired <==>
        ChangesAt(old(lastEmotion), es, i) && GestureFor(es[i], animations, groupMounted).Some?
      ensures es != [] ==> emotion == lastEmotion == es[|es| - 1]
    {
      ghost var last0 := lastEmotion;
      fired := [];
      for n := 0 to |es|
        invariant forall i {:trigger ChangesAt(last0, es, i)} {:trigger i in fired} :: i in fired <==>
          i < n && ChangesAt(last0, es, i) && GestureFor(es[i], animations, groupMounted).Some?
        invariant lastEmotion == if n == 0 then last0 else es[n - 1]
        invariant n > 0 ==> emotion == es[n - 1]
      {
        SetEmotion(es[n]);
        var play := GestureFrame(animations, groupMounted);
        if play.Some? {
          fired := fired + [n];
        }
      }
    }
  }

  // ---------------------------------------------------------------------
  // Wave and idle clips

  /** `part` occurs in `s` (`String.prototype.includes`). */
  predicate Includes(s: string, part: string)
    decreases |s|
  {
    if |s| < |part| then false
    else s[..|part|] == part || Includes(s[1..], part)
  }

  /** The track name contains "Head". */
  predicate NamesHead(track: string)
  {
    Includes(track, "Head")
  }

  /** `a` is `b` with some elements left out, the rest in their order. */
  ghost predicate Subsequence(a: seq<string>, b: seq<string>)
    decreases |b|
  {
    if a == [] then true
    else if b == [] then false
    else if a[0] == b[0] then Subsequence(a[1..], b[1..])
    else Subsequence(a, b[1..])
  }

  /** The tracks whose `NamesHead` is `head`, in their original order. */
  function FilterTracks(tracks: seq<string>, head: bool): (r: seq<string>)
    ensures forall k :: 0 <= k < |r| ==> NamesHead(r[k]) == head
    ensures multiset(r) <= multiset(tracks)
    ensures Subsequence(r, tracks)
  {
    if tracks == [] then []
    else
      var rest := FilterTracks(tracks[1..], head);
      assert tracks == [tracks[0]] + tracks[1..];
      if NamesHead(tracks[0]) == head then
        assert ([tracks[0]] + rest)[1..] == rest;
        [tracks[0]] + rest
      else
        assert rest != [] ==> rest[0] != tracks[0];
        rest
  }

  /** The head and body filters split the tracks: no track in both, none lost. */
  lemma {:induction false} HeadBodySplit(tracks: seq<string>)
    ensures multiset(FilterTracks(tracks, true)) + multiset(FilterTracks(tracks, false)) == multiset(tracks)
    ensures forall t :: t in FilterTracks(tracks, true) ==> t !in FilterTracks(tracks, false)
  {
    if tracks != [] {
      HeadBodySplit(tracks[1..]);
      assert tracks == [tracks[0]] + tracks[1..];
    }
  }

  /** The three actions built from the loaded clips. */
  datatype ActionSet = ActionSet(waveHead: Clip, waveBody: Clip, idle: Clip)

  /**
   * Building the actions needs the animations, the mounted group and both
   * a "Wave" and an "Idle" clip. The wave splits into its head tracks and
   * its other tracks; the idle clip keeps only its tracks not naming the
   * head. All keep their source clip's duration.
   */
  function SetupActions(animations: Option<seq<Clip>>, groupMounted: bool): (r: Option<ActionSet>)
    ensures r.Some? <==>
      animations.Some? && groupMounted &&
      FindClip(animations.value, "Wave").Some? && FindClip(animations.value, "Idle").Some?
    ensures r.Some? ==>
      var wave := FindClip(animations.value, "Wave").value;
      var idle := FindClip(animations.value, "Idle").value;
      && r.value.waveHead == Clip("Wave_Head", wave.duration, FilterTracks(wave.tracks, true))
      && r.value.waveBody == Clip("Wave_Body", wave.duration, FilterTracks(wave.tracks, false))
      && r.value.idle == Clip(idle.name + "_NoHead", idle.duration, FilterTracks(idle.tracks, false))
  {
    if animations.None? || !groupMounted then None
    else
      match (FindClip(animations.value, "Wave"), FindClip(animations.value, "Idle"))
      case (Some(wave), Some(idle)) =>
        Some(ActionSet(
          Clip("Wave_Head", wave.duration, FilterTracks(wave.tracks, true)),
          Clip("Wave_Body", wave.duration, FilterTracks(wave.tracks, false)),
          Clip(idle.name + "_NoHead", idle.duration, FilterTracks(idle.tracks, false))))
      case _ => None
  }

  /** The mixer actions whose "finished" event the scene listens to. */
  datatype ActionName = WaveHead | WaveBody | IdleAction | GestureAction

  /** Restart the idle loop from its start: the one command `onFinish` gives. */
  datatype IdleCommand = RestartIdle(clip: Clip)

  /**
   * The scene's listener for one "finished" event: only the body half of
   * the wave restarts the idle action; every other action finishing,
   * including the head half and the idle loop itself, gives nothing.
   */
  function OnFinish(actions: ActionSet, finished: ActionName): (cmd: Option<IdleCommand>)
    ensures cmd.Some? <==> finished == WaveBody
    ensures cmd.Some? ==> cmd.value.clip == actions.idle
  {
    if finished == WaveBody then Some(RestartIdle(actions.idle)) else None
  }

  /** Whether the listener has started the idle loop after the given "finished" events, oldest first. */
  function IdleAfter(actions: ActionSet, finished: seq<ActionName>): bool
  {
    if finished == [] then false
    else IdleAfter(actions, finished[..|finished| - 1]) || OnFinish(actions, finished[|finished| - 1]).Some?
  }

  /** Idle starts on the body half of the wave finishing, and on nothing else. */
  lemma {:induction false} IdleOnlyAfterWaveBody(actions: ActionSet, finished: seq<ActionName>)
    ensures IdleAfter(actions, finished) <==> WaveBody in finished
  {
    if finished != [] {
      var init := finished[..|finished| - 1];
      IdleOnlyAfterWaveBody(actions, init);
      assert finished == init + [finished[|finished| - 1]];
    }
  }
}
