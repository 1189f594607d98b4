/** The records the game passes between the browser and the server: story
    steps, the history of steps taken, the game state, the adventure's
    metadata and the choice effects shown to the player. */
module Adventure {
  import opened Base
  import opened JsValues

  datatype StepType =
    | Regular
    | Educational
    | ConsequencePositive
    | ConsequenceNegative
    | Ending
    | Death

  /** The name a step type has on the wire and in prompts. */
  function StepTypeName(t: StepType): string
  {
    match t
    case Regular => "regular"
    case Educational => "educational"
    case ConsequencePositive => "consequence-positive"
    case ConsequenceNegative => "consequence-negative"
    case Ending => "ending"
    case Death => "death"
  }

  /** The effect type attached to the previous choice. */
  datatype Polarity = Positive | Negative

  /** A story step. Its choices are the raw values read from the model's
      YAML, so they are untyped until validated. */
  datatype StoryStep = StoryStep(
    title: string,
    content: string,
    choices: seq<JsValue>,
    stepType: StepType,
    hasLoadedContent: bool,
    isStreaming: bool)

  /** A history entry: a step plus the text of the choice made on it
      (`Undefined` while no choice has been made). */
  datatype HistoryEntry = HistoryEntry(step: StoryStep, choice: JsValue)

  datatype GameState = GameState(hearts: int, score: int)

  /** The adventure's metadata; `null` metadata is `None` where it is used. */
  datatype AdventureMetadata = AdventureMetadata(
    title: string,
    description: string,
    theme: string,
    educationalSubject: Option<string>,
    difficultyLevel: Option<string>)

  /** The choice that led to the step being generated. */
  datatype PreviousChoice = PreviousChoice(text: JsValue, effectType: Option<Polarity>)

  /** An entry of the history sent to the server. The entry amended with the
      previous choice has no step fields at all when the history was empty. */
  datatype ContextEntry = ContextEntry(step: Option<StoryStep>, choice: JsValue)

  /** The context `buildStoryContext` produces. */
  datatype StoryContext = StoryContext(
    metadata: Option<AdventureMetadata>,
    stepType: StepType,
    theme: string,
    previousChoice: PreviousChoice,
    gameState: GameState,
    subject: string,
    level: string,
    progress: nat,
    stepsComplete: nat,
    history: seq<ContextEntry>)

  /** The effects a choice can have, with their displayed values. */
  datatype GameEffect = GainScore(value: int) | LoseScore(value: int) | LoseHeart
}
