/** `buildStoryContext`: the context sent with every step request. It holds
    the type of the next step, the story progress and the history amended
    with the choice just made. */
module StoryContextBuilder {
  import opened Base
  import opened JsValues
  import opened Adventure
  import opened StepTarget

  /** `getStepsComplete(history)`: the number of educational steps in the
      history. */
  function StepsComplete(h: seq<HistoryEntry>): (r: nat)
    ensures r <= |h|
    ensures r == 0 <==> forall k :: 0 <= k < |h| ==> h[k].step.stepType != Educational
    ensures r == |h| <==> forall k :: 0 <= k < |h| ==> h[k].step.stepType == Educational
  {
    if h == [] then 0
    else
      var init := h[..|h| - 1];
      assert forall k :: 0 <= k < |init| ==> init[k] == h[k];
      StepsComplete(init) + (if h[|h| - 1].step.stepType == Educational then 1 else 0)
  }

  /** Appending a step counts it exactly when it is educational. */
  lemma StepsCompleteAppend(h: seq<HistoryEntry>, e: HistoryEntry)
    ensures StepsComplete(h + [e]) == StepsComplete(h) + (if e.step.stepType == Educational then 1 else 0)
  {
    assert (h + [e])[..|h|] == h;
  }

  /** Half-up rounding of `100 * sc / m` for the three targets. */
  function RoundedPercent(sc: nat, m: nat): nat
    requires m > 0
  {
    (200 * sc + m) / (2 * m)
  }

  lemma RoundedPercentFacts(sc: nat, m: nat)
    requires m == 7 || m == 10 || m == 15
    ensures RoundedPercent(sc, m) == 100 <==> sc == m
    ensures RoundedPercent(sc, m) == 0 <==> sc == 0
    ensures sc <= m ==> RoundedPercent(sc, m) <= 100
  {
    if m == 7 {
      assert RoundedPercent(sc, m) == (200 * sc + 7) / 14;
    } else if m == 10 {
      assert RoundedPercent(sc, m) == (200 * sc + 10) / 20;
    } else {
      assert RoundedPercent(sc, m) == (200 * sc + 15) / 30;
    }
  }

  /** The level `getMaxSteps` is given: the metadata's difficulty, if any. */
  function LevelOf(metadata: Option<AdventureMetadata>): Option<string>
  {
    if metadata.Some? then metadata.value.difficultyLevel else None
  }

  /** `getProgress`: `Math.round(stepsComplete / maxSteps * 100)`. The value
      rounded is never negative, where `Math.round` rounds halves up, and it
      never lies exactly halfway for these targets. It is 100 exactly when
      the target is reached and 0 exactly when no educational step was
      taken. */
  function Progress(h: seq<HistoryEntry>, level: Option<string>): (r: nat)
    ensures r == 100 <==> StepsComplete(h) == MaxSteps(level)
    ensures r == 0 <==> StepsComplete(h) == 0
    ensures StepsComplete(h) <= MaxSteps(level) ==> r <= 100
  {
    RoundedPercentFacts(StepsComplete(h), MaxSteps(level));
    RoundedPercent(StepsComplete(h), MaxSteps(level))
  }

  /** The probability that an open step is educational. */
  const EducationalChance: real := 0.7

  /** The conditions of the step-type chain, each taken on its own. */
  predicate Applies(t: StepType, metadata: Option<AdventureMetadata>, prev: PreviousChoice,
                    gs: GameState, h: seq<HistoryEntry>, draw: real)
  {
    match t
    case Death => gs.hearts <= 0
    case ConsequencePositive => prev.effectType == Some(Positive)
    case ConsequenceNegative => prev.effectType == Some(Negative)
    case Ending => StepsComplete(h) >= MaxSteps(LevelOf(metadata))
    case Educational => draw < EducationalChance
    case Regular => true
  }

  /** The position of each condition in the chain. */
  function Rank(t: StepType): nat
  {
    match t
    case Death => 0
    case ConsequencePositive => 1
    case ConsequenceNegative => 1
    case Ending => 2
    case Educational => 3
    case Regular => 4
  }

  /** `getStepType`, with the value of `Math.random()` passed in as `draw`:
      the applicable type that comes first in the chain death, consequence,
      ending, educational, regular. */
  function StepTypeFor(metadata: Option<AdventureMetadata>, prev: PreviousChoice,
                       gs: GameState, h: seq<HistoryEntry>, draw: real): (r: StepType)
    ensures Applies(r, metadata, prev, gs, h, draw)
    ensures forall t :: Applies(t, metadata, prev, gs, h, draw) ==> Rank(r) <= Rank(t)
  {
    if gs.hearts <= 0 then Death
    else if prev.effectType == Some(Positive) then ConsequencePositive
    else if prev.effectType == Some(Negative) then ConsequenceNegative
    else if StepsComplete(h) >= MaxSteps(LevelOf(metadata)) then Ending
    else if draw < EducationalChance then Educational
    else Regular
  }

  /** No hearts left means death, whatever else holds. */
  lemma DeathDominates(metadata: Option<AdventureMetadata>, prev: PreviousChoice,
                       gs: GameState, h: seq<HistoryEntry>, draw: real)
    ensures StepTypeFor(metadata, prev, gs, h, draw) == Death <==> gs.hearts <= 0
  {
    var r := StepTypeFor(metadata, prev, gs, h, draw);
    if r == Death {
      assert Applies(Death, metadata, prev, gs, h, draw);
    }
  }

  /** A pending effect is told as a consequence even when the ending target
      has been reached. */
  lemma ConsequenceBeforeEnding(metadata: Option<AdventureMetadata>, prev: PreviousChoice,
                                gs: GameState, h: seq<HistoryEntry>, draw: real)
    requires gs.hearts > 0 && prev.effectType.Some?
    ensures StepTypeFor(metadata, prev, gs, h, draw) ==
      (if prev.effectType.value == Positive then ConsequencePositive else ConsequenceNegative)
  {
    var r := StepTypeFor(metadata, prev, gs, h, draw);
    assert !Applies(Death, metadata, prev, gs, h, draw);
    if prev.effectType.value == Positive {
      assert Applies(ConsequencePositive, metadata, prev, gs, h, draw);
    } else {
      assert Applies(ConsequenceNegative, metadata, prev, gs, h, draw);
    }
  }

  /** Reaching the target with no effect pending ends the story; below the
      target the draw alone decides between educational and regular, with no
      special case for an empty history. */
  lemma EndingOrDraw(metadata: Option<AdventureMetadata>, prev: PreviousChoice,
                     gs: GameState, h: seq<HistoryEntry>, draw: real)
    requires gs.hearts > 0 && prev.effectType.None?
    ensures StepTypeFor(metadata, prev, gs, h, draw) == Ending <==>
      StepsComplete(h) >= MaxSteps(LevelOf(metadata))
    ensures StepsComplete(h) < MaxSteps(LevelOf(metadata)) ==>
      (StepTypeFor(metadata, prev, gs, h, draw) == Educational <==> draw < 0.7) &&
      (StepTypeFor(metadata, prev, gs, h, draw) == Regular <==> draw >= 0.7)
  {
    var r := StepTypeFor(metadata, prev, gs, h, draw);
    assert !Applies(Death, metadata, prev, gs, h, draw);
    if StepsComplete(h) >= MaxSteps(LevelOf(metadata)) {
      assert Applies(Ending, metadata, prev, gs, h, draw);
    } else if draw < 0.7 {
      assert Applies(Educational, metadata, prev, gs, h, draw);
    }
  }

  /** A history entry as sent in the context. */
  function Entry(e: HistoryEntry): ContextEntry
  {
    ContextEntry(Some(e.step), e.choice)
  }

  function Entries(h: seq<HistoryEntry>): (r: seq<ContextEntry>)
    ensures |r| == |h|
    ensures forall k :: 0 <= k < |h| ==> r[k] == Entry(h[k])
  {
    if h == [] then [] else [Entry(h[0])] + Entries(h[1..])
  }

  /** `[...history.slice(0, -1), ...(text ? [{...history.slice(-1)[0], choice: text}] : [])]`:
      every entry but the last is kept; with a truthy choice text the last
      entry comes back carrying that text (or, for an empty history, an
      entry holding nothing but the text), otherwise it is dropped. */
  function AmendedHistory(h: seq<HistoryEntry>, text: JsValue): (r: seq<ContextEntry>)
    ensures Truthy(text) && h != [] ==> |r| == |h| && r[|h| - 1] == ContextEntry(Some(h[|h| - 1].step), text)
    ensures Truthy(text) && h == [] ==> r == [ContextEntry(None, text)]
    ensures !Truthy(text) ==> |r| == Max(|h| - 1, 0)
    ensures forall k :: 0 <= k < |h| - 1 ==> r[k] == Entry(h[k])
  {
    var kept := if h == [] then [] else Entries(h[..|h| - 1]);
    var last := ContextEntry(if h == [] then None else Some(h[|h| - 1].step), text);
    kept + (if Truthy(text) then [last] else [])
  }

  /** `buildStoryContext`. The metadata's fields are spread into the
      context; `theme` and `subject` default to "" and `level` to "easy".
      The default level has the same step target as an absent one, so the
      level the context reports agrees with the target its step type and
      progress were computed against. */
  function BuildStoryContext(metadata: Option<AdventureMetadata>, prev: PreviousChoice,
                             gs: GameState, h: seq<HistoryEntry>, draw: real): (r: StoryContext)
    ensures r.stepType == StepTypeFor(metadata, prev, gs, h, draw)
    ensures r.stepsComplete == StepsComplete(h)
    ensures r.progress == Progress(h, LevelOf(metadata))
    ensures r.history == AmendedHistory(h, prev.text)
    ensures r.previousChoice == prev && r.gameState == gs && r.metadata == metadata
    ensures metadata.None? ==> r.theme == "" && r.subject == "" && r.level == "easy"
    ensures metadata.Some? ==> r.theme == metadata.value.theme
    ensures metadata.Some? ==>
      r.subject == (if metadata.value.educationalSubject.Some? then metadata.value.educationalSubject.value else "")
    ensures metadata.Some? ==>
      r.level == (if metadata.value.difficultyLevel.Some? then metadata.value.difficultyLevel.value else "easy")
    ensures MaxSteps(Some(r.level)) == MaxSteps(LevelOf(metadata))
  {
    StoryContext(
      metadata,
      StepTypeFor(metadata, prev, gs, h, draw),
      if metadata.Some? then metadata.value.theme else "",
      prev,
      gs,
      if metadata.Some? && metadata.value.educationalSubject.Some? then metadata.value.educationalSubject.value else "",
      if LevelOf(metadata).Some? then LevelOf(metadata).value else "easy",
      Progress(h, LevelOf(metadata)),
      StepsComplete(h),
      AmendedHistory(h, prev.text))
  }
}
