/** The `generate-content` route: the guards in front of the stream, and
    the choice of the user prompt by a priority chain over the request's
    context. */
module GenerateContent {
  import opened Base
  import opened Text
  import opened JsValues
  import opened Adventure
  import opened StoryContextBuilder
  import opened Prompts
  import opened OpenAiStream

  /** The context as the route reads it from the JSON body. A field the
      route reads that the body may lack is optional; `storyHistory` is only
      ever read for its length. */
  datatype WireContext = WireContext(
    history: Option<seq<ContextEntry>>,
    storyHistoryLength: Option<nat>,
    theme: string,
    stepType: StepType,
    progress: int,
    choiceHadEffects: bool,
    choiceEffectType: Option<Polarity>,
    choiceType: Option<string>,
    educationalSubject: JsValue,
    difficultyLevel: JsValue)

  /** The request body: not JSON, JSON `null`, or an object whose `context`
      is absent (or falsy) or present. */
  datatype RequestBody = Malformed | NullBody | Body(context: Option<WireContext>)

  /** The route's response: a plain-text error, or the stream with the
      parameters it was started with. */
  datatype ContentResponse =
    | ErrorResponse(status: nat, message: string)
    | Streaming(systemPrompt: string, userPrompt: string, maxTokens: nat, temperature: real, context: WireContext)

  const GenericFailure := "Failed to generate content"

  /** The user prompts, highest priority first. */
  datatype PromptKind =
    | Introduction
    | DeathPrompt
    | NegativePrompt
    | PositivePrompt
    | EndingPrompt
    | EducationalPrompt
    | RegularPrompt

  /** The inputs the chain looks at. */
  datatype ChainInput = ChainInput(
    storyHistoryLength: nat,
    isGameOver: bool,
    choiceHadEffects: bool,
    choiceEffectType: Option<Polarity>,
    isGameCompleted: bool,
    choiceType: Option<string>)

  /** Each condition of the chain on its own. */
  predicate PromptApplies(k: PromptKind, c: ChainInput)
  {
    match k
    case Introduction => c.storyHistoryLength == 0
    case DeathPrompt => c.isGameOver
    case NegativePrompt => c.choiceHadEffects && c.choiceEffectType == Some(Negative)
    case PositivePrompt => c.choiceHadEffects && c.choiceEffectType == Some(Positive)
    case EndingPrompt => c.isGameCompleted
    case EducationalPrompt => c.choiceType == Some("educational")
    case RegularPrompt => true
  }

  function PromptRank(k: PromptKind): nat
  {
    match k
    case Introduction => 0
    case DeathPrompt => 1
    case NegativePrompt => 2
    case PositivePrompt => 3
    case EndingPrompt => 4
    case EducationalPrompt => 5
    case RegularPrompt => 6
  }

  /** The nested conditional that picks the user prompt: the applicable
      prompt that comes first in the order introduction, death, negative
      consequence, positive consequence, ending, educational, regular. */
  function SelectPrompt(c: ChainInput): (k: PromptKind)
    ensures PromptApplies(k, c)
    ensures forall j :: PromptApplies(j, c) ==> PromptRank(k) <= PromptRank(j)
  {
    if c.storyHistoryLength == 0 then Introduction
    else if c.isGameOver then DeathPrompt
    else if c.choiceHadEffects && c.choiceEffectType == Some(Negative) then NegativePrompt
    else if c.choiceHadEffects && c.choiceEffectType == Some(Positive) then PositivePrompt
    else if c.isGameCompleted then EndingPrompt
    else if c.choiceType == Some("educational") then EducationalPrompt
    else RegularPrompt
  }

  /** An empty story always gets the introduction, and a consequence prompt
      needs `choiceHadEffects` together with the matching effect type. */
  lemma PromptChainFacts(c: ChainInput)
    ensures c.storyHistoryLength == 0 ==> SelectPrompt(c) == Introduction
    ensures SelectPrompt(c) == NegativePrompt ==> c.choiceHadEffects && c.choiceEffectType == Some(Negative)
    ensures SelectPrompt(c) == PositivePrompt ==> c.choiceHadEffects && c.choiceEffectType == Some(Positive)
  {
    if c.storyHistoryLength == 0 {
      assert PromptApplies(Introduction, c);
    }
  }

  const IntroductionText := "GENERATE THE INTRODUCTION: Set the opening scene for the story with 2-3 meaningful choices in a random order."
  const DeathText := "GENERATE A DEATH STEP: The player has run out of hearts and died. Create a dramatic death scene that explains how they met their demise based on the story so far. This should be a definitive game over."
  const NegativeText := "GENERATE A CONSEQUENCE-NEGATIVE STEP: Show the bad consequences of the player's choice, losing a heart."
  const PositiveText := "GENERATE A CONSEQUENCE-POSITIVE STEP: Show the positive results of the player's choice."
  const EndingText := "GENERATE AN ENDING STEP: The adventure should conclude. Create a satisfying ending based on the player's journey and choices."
  const EducationalOpening := "GENERATE AN EDUCATIONAL STEP: An educational challenge with 3-4 choices related to "
  const EducationalMiddle := ".\n- Integrate the question naturally into the story context. Make it feel like part of the adventure, not a quiz.\n- Only one choice should be correct (marked with correct: true), others should be incorrect (marked with correct: false).\n- Questions should be age-appropriate for 8-12 year olds at "
  const EducationalClosing := " difficulty level.\n- Do not repeat a question that has already been asked in the story."
  const RegularText := "GENERATE A REGULAR STEP: Normal story progression with 2-3 meaningful choices in a random order.\n- Focus on story progression and character development\n- Mark safe choices with correct: true and dangerous choices with correct: false.\n- Include choices that could have positive or negative consequences."

  /** The subject-and-difficulty clause of the educational prompt; a
      missing field is rendered as "undefined". */
  function SubjectClause(subject: JsValue, level: JsValue): string
  {
    Display(subject) + ". Difficulty: " + Display(level)
  }

  /** The text of each user prompt. The educational one names the subject
      and the difficulty. */
  function UserPrompt(k: PromptKind, subject: JsValue, level: JsValue): (r: string)
    ensures k == EducationalPrompt ==> Contains(r, SubjectClause(subject, level))
  {
    match k
    case Introduction => IntroductionText
    case DeathPrompt => DeathText
    case NegativePrompt => NegativeText
    case PositivePrompt => PositiveText
    case EndingPrompt => EndingText
    case EducationalPrompt =>
      var tail := EducationalMiddle + Display(level) + EducationalClosing;
      OccursInMiddle(EducationalOpening, SubjectClause(subject, level), tail);
      ContainsIffOccurs(EducationalOpening + SubjectClause(subject, level) + tail, SubjectClause(subject, level));
      EducationalOpening + SubjectClause(subject, level) + tail
    case RegularPrompt => RegularText
  }

  /** `POST`: the body is read first, then the API key is checked, then the
      context. Building the system prompt reads `context.history.length`
      and choosing the user prompt reads `context.storyHistory.length`; a
      missing one throws, and every throw becomes a 500 with a fixed
      message. `gameOver` and `gameCompleted` are the predicates the route
      imports. */
  function Post(body: RequestBody, apiKey: Option<string>,
                gameOver: WireContext -> bool, gameCompleted: WireContext -> bool): (r: ContentResponse)
    ensures body.Malformed? ==> r == ErrorResponse(500, GenericFailure)
    ensures !body.Malformed? && ValidateApiKey(apiKey).Some? ==> r == ErrorResponse(500, MissingKeyMessage)
    ensures body == Body(None) && ValidateApiKey(apiKey).None? ==> r.ErrorResponse? && r.status == 400
    ensures r.Streaming? <==> (!body.Malformed? && ValidateApiKey(apiKey).None? && body.Body? && body.context.Some?
                               && body.context.value.history.Some? && body.context.value.storyHistoryLength.Some?)
    ensures r.Streaming? ==> r.maxTokens == 1200 && r.temperature == 0.8 && r.context == body.context.value
    ensures r.Streaming? ==>
      r.systemPrompt == CreateStoryStepPrompt(|body.context.value.history.value|, body.context.value.theme,
                                              body.context.value.stepType, body.context.value.progress)
  {
    if body.Malformed? then ErrorResponse(500, GenericFailure)
    else if ValidateApiKey(apiKey).Some? then ErrorResponse(500, ValidateApiKey(apiKey).value)
    else if body.NullBody? then ErrorResponse(500, GenericFailure)
    else if body.context.None? then ErrorResponse(400, "Story context is required")
    else Respond(body.context.value, gameOver, gameCompleted)
  }

  /** The part of `POST` after the guards, for a context that is present. */
  function Respond(context: WireContext, gameOver: WireContext -> bool, gameCompleted: WireContext -> bool): (r: ContentResponse)
    ensures r.Streaming? <==> context.history.Some? && context.storyHistoryLength.Some?
    ensures r.ErrorResponse? ==> r == ErrorResponse(500, GenericFailure)
    ensures r.Streaming? ==> r.maxTokens == 1200 && r.temperature == 0.8 && r.context == context
    ensures r.Streaming? ==>
      r.systemPrompt == CreateStoryStepPrompt(|context.history.value|, context.theme, context.stepType, context.progress)
    ensures r.Streaming? ==>
      r.userPrompt == UserPrompt(SelectPrompt(ChainInput(context.storyHistoryLength.value, gameOver(context),
                                                         context.choiceHadEffects, context.choiceEffectType,
                                                         gameCompleted(context), context.choiceType)),
                                 context.educationalSubject, context.difficultyLevel)
  {
    if context.history.None? then ErrorResponse(500, GenericFailure)
    else
      var systemPrompt := CreateStoryStepPrompt(|context.history.value|, context.theme, context.stepType, context.progress);
      var isGameOver := gameOver(context);
      var isGameCompleted := gameCompleted(context);
      if context.storyHistoryLength.None? then ErrorResponse(500, GenericFailure)
      else
        var chain := ChainInput(context.storyHistoryLength.value, isGameOver, context.choiceHadEffects,
                                context.choiceEffectType, isGameCompleted, context.choiceType);
        var userPrompt := UserPrompt(SelectPrompt(chain), context.educationalSubject, context.difficultyLevel);
        Streaming(systemPrompt, userPrompt, 1200, 0.8, context)
  }

  function OptionToJs(o: Option<string>): JsValue
  {
    if o.Some? then Str(o.value) else Undefined
  }

  /** The JSON the game sends: the context built by `buildStoryContext`,
      which has `history` but no `storyHistory`, `choiceHadEffects`,
      `choiceEffectType` or `choiceType`; the metadata's subject and level
      come along from the spread. */
  function ToWire(ctx: StoryContext): (w: WireContext)
    ensures w.history == Some(ctx.history) && w.storyHistoryLength.None?
    ensures !w.choiceHadEffects && w.choiceEffectType.None? && w.choiceType.None?
  {
    WireContext(
      Some(ctx.history),
      None,
      ctx.theme,
      ctx.stepType,
      ctx.progress,
      false,
      None,
      None,
      if ctx.metadata.Some? then OptionToJs(ctx.metadata.value.educationalSubject) else Undefined,
      if ctx.metadata.Some? then OptionToJs(ctx.metadata.value.difficultyLevel) else Undefined)
  }

  /** As written, a context built by `buildStoryContext` never reaches the
      model: reading `storyHistory.length` throws, so with the key set the
      route answers 500 to every request the game makes. */
  lemma GameRequestsFail(ctx: StoryContext, apiKey: Option<string>,
                         gameOver: WireContext -> bool, gameCompleted: WireContext -> bool)
    requires ValidateApiKey(apiKey).None?
    ensures Post(Body(Some(ToWire(ctx))), apiKey, gameOver, gameCompleted) == ErrorResponse(500, GenericFailure)
  {
  }

  /** Even with a story history supplied, the fields the game sends leave
      the consequence and educational prompts unreachable: the game's
      context carries neither `choiceHadEffects` nor `choiceType`. */
  lemma GameContextPrompts(ctx: StoryContext, storyHistoryLength: nat, isGameOver: bool, isGameCompleted: bool)
    ensures var w := ToWire(ctx);
      var k := SelectPrompt(ChainInput(storyHistoryLength, isGameOver, w.choiceHadEffects,
                                       w.choiceEffectType, isGameCompleted, w.choiceType));
      k != NegativePrompt && k != PositivePrompt && k != EducationalPrompt
  {
  }

  /** The messages the stream of a `Streaming` response sends to the model,
      with `dump` standing for `yaml.dump`. */
  function StreamMessages(r: ContentResponse, dump: seq<JsValue> -> string): Result<seq<Message>>
    requires r.Streaming? && r.context.history.Some?
  {
    BuildMessages(r.systemPrompt, r.userPrompt, r.context.history.value, r.context.progress, dump)
  }
}
