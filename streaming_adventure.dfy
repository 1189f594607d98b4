/** The browser side of a game, `useStreamingAdventure`: the session state
    the hook keeps, the scoring of a choice, the generation of each step with
    its image request, and the history the steps are committed to. The
    server's replies are parameters of the methods; the image request's
    completion arrives as a separate call. */
module StreamingAdventure {
  import opened Base
  import opened JsValues
  import opened Adventure
  import opened ChoiceValidator
  import opened StoryContextBuilder
  import opened StreamParser
  import opened StepStream
  import GenerateContent
  import GenerateImage
  import OpenAiStream

  const ContinueText := "Continue"
  const GainedScore := 10
  const LostScore := -5
  const StartingHearts := 3

  /** A request the session sent to the image route. */
  datatype ImageRequest = ImageRequest(stepDescription: string, theme: string)

  /** The reply to an image request: none, or the route's response. */
  datatype ImageReply = ImageUnreachable | ImageAnswered(response: GenerateImage.ImageResponse)

  /** The new game state and the effects shown for a choice. */
  datatype Scoring = Scoring(state: GameState, effects: seq<GameEffect>)

  /** The scoring of `makeChoice`. On an educational step a correct answer
      (`correct === true`) gains 10 points, and an incorrect one
      (`correct === false`) loses 5 points if that leaves the score
      non-negative, and a heart; elsewhere an incorrect choice loses a heart.
      Hearts never drop below zero, and every effect shown is one that
      happened. */
  function Score(educational: bool, correct: JsValue, gs: GameState): (r: Scoring)
    ensures LoseHeart in r.effects <==> correct == Bool(false)
    ensures GainScore(GainedScore) in r.effects <==> r.state.score > gs.score
    ensures LoseScore(LostScore) in r.effects <==> r.state.score < gs.score
    ensures r.effects != [] <==> correct == Bool(false) || (educational && correct == Bool(true))
    ensures r.state.score > gs.score <==> educational && correct == Bool(true)
    ensures r.state.score != gs.score ==> educational
    ensures r.state.hearts == (if correct == Bool(false) then Max(0, gs.hearts - 1) else gs.hearts)
    ensures r.state.score == (if educational && correct == Bool(true) then gs.score + GainedScore
                              else if educational && correct == Bool(false) && gs.score + LostScore >= 0 then gs.score + LostScore
                              else gs.score)
    ensures r.effects == (if educational && correct == Bool(true) then [GainScore(GainedScore)]
                          else if correct == Bool(false) then
                            (if educational && gs.score + LostScore >= 0 then [LoseScore(LostScore)] else []) + [LoseHeart]
                          else [])
    ensures 0 <= gs.hearts <= StartingHearts && gs.score >= 0 ==>
      0 <= r.state.hearts <= StartingHearts && r.state.score >= 0
  {
    if educational then
      if correct == Bool(true) then
        Scoring(gs.(score := gs.score + GainedScore), [GainScore(GainedScore)])
      else if correct == Bool(false) then
        var lost := if gs.score + LostScore >= 0 then [LoseScore(LostScore)] else [];
        var score := if gs.score + LostScore >= 0 then gs.score + LostScore else gs.score;
        Scoring(GameState(Max(0, gs.hearts - 1), score), lost + [LoseHeart])
      else Scoring(gs, [])
    else if correct == Bool(false) then
      Scoring(gs.(hearts := Max(0, gs.hearts - 1)), [LoseHeart])
    else Scoring(gs, [])
  }

  /** The effect type `makeChoice` reports: negative whenever the choice had
      any effect, so no choice is ever reported as positive. */
  function EffectTypeOf(effects: seq<GameEffect>): (r: Option<Polarity>)
    ensures r.Some? <==> effects != []
    ensures r != Some(Positive)
  {
    if effects != [] then Some(Negative) else None
  }

  /** The context `generateStreamingStep` builds: the effect type counts
      only when the choice had effects. */
  function ContextFor(metadata: Option<AdventureMetadata>, gs: GameState, h: seq<HistoryEntry>,
                      text: JsValue, hadEffects: bool, effectType: Option<Polarity>, draw: real): (r: StoryContext)
    ensures r.previousChoice.effectType.Some? ==> hadEffects
    ensures r.history == AmendedHistory(h, text) && r.gameState == gs
  {
    BuildStoryContext(metadata, PreviousChoice(text, if hadEffects then effectType else None), gs, h, draw)
  }

  /** A correct educational answer is reported as a negative effect, so the
      step that follows it is told as a setback. */
  lemma CorrectAnswerToldAsSetback(metadata: Option<AdventureMetadata>, h: seq<HistoryEntry>,
                                   gs: GameState, text: JsValue, draw: real)
    requires gs.hearts > 0
    ensures var s := Score(true, Bool(true), gs);
      && s.effects == [GainScore(GainedScore)]
      && ContextFor(metadata, s.state, h, text, true, EffectTypeOf(s.effects), draw).stepType == ConsequenceNegative
  {
    var s := Score(true, Bool(true), gs);
    ConsequenceBeforeEnding(metadata, PreviousChoice(text, Some(Negative)), s.state, h, draw);
  }

  /** The history after a step is committed: the step, without a choice,
      follows the previous step amended with the choice made on it; the
      amended entry takes the place of the history's last entry. */
  function Committed(h: seq<HistoryEntry>, prev: Option<StoryStep>, choice: JsValue, step: StoryStep): (r: seq<HistoryEntry>)
    ensures r != [] && r[|r| - 1] == HistoryEntry(step, Undefined)
    ensures prev.None? ==> r == h + [HistoryEntry(step, Undefined)]
    ensures prev.Some? ==> |r| == Max(|h| - 1, 0) + 2 && r[|r| - 2] == HistoryEntry(prev.value, choice)
    ensures forall k :: 0 <= k < |h| - 1 ==> r[k] == h[k]
  {
    if prev.Some? then h[..Max(|h| - 1, 0)] + [HistoryEntry(prev.value, choice), HistoryEntry(step, Undefined)]
    else h + [HistoryEntry(step, Undefined)]
  }

  /** When the step shown is the one last committed, a commit grows the
      history by one entry and records the choice on that step. */
  lemma CommitAfterCommit(h: seq<HistoryEntry>, choice: JsValue, step: StoryStep)
    requires h != []
    ensures var r := Committed(h, Some(h[|h| - 1].step), choice, step);
      && |r| == |h| + 1
      && r[..|h|] == h[..|h| - 1] + [h[|h| - 1].(choice := choice)]
  {
    var r := Committed(h, Some(h[|h| - 1].step), choice, step);
    assert r[..|h|] == h[..|h| - 1] + [HistoryEntry(h[|h| - 1].step, choice)];
  }

  /** After a failed generation the step shown is a streaming copy that was
      never committed; the next commit puts that copy where the last
      finished step was, so that step drops out of the history. */
  lemma FailedStepDisplacesEntry(h: seq<HistoryEntry>, shown: StoryStep, choice: JsValue, step: StoryStep)
    requires h != [] && !h[|h| - 1].step.isStreaming && shown.isStreaming
    ensures var r := Committed(h, Some(shown), choice, step);
      |r| == |h| + 1 && r[|h| - 1] != h[|h| - 1] && r[|h| - 1].step.isStreaming
  {
  }

  /** What each content request comes to, as the route is written: with or
      without an API key it answers with an error status, so the step fails
      with "Failed to generate step" and nothing is committed. */
  function ReplyTo(response: GenerateContent.ContentResponse, chunks: seq<string>): StreamReply
  {
    if response.ErrorResponse? then NotOk else Stream(chunks, None)
  }

  lemma GameStepsFail(ctx: StoryContext, apiKey: Option<string>,
                      gameOver: GenerateContent.WireContext -> bool, gameCompleted: GenerateContent.WireContext -> bool,
                      chunks: seq<string>, parsing: Parsing, regen: RegenCall)
    ensures var response := GenerateContent.Post(GenerateContent.Body(Some(GenerateContent.ToWire(ctx))), apiKey, gameOver, gameCompleted);
      Generation(ctx.stepType, ReplyTo(response, chunks), parsing, regen) == Outcome(StreamingStart(ctx.stepType), Some(StepFailed), None)
  {
    var response := GenerateContent.Post(GenerateContent.Body(Some(GenerateContent.ToWire(ctx))), apiKey, gameOver, gameCompleted);
    if OpenAiStream.ValidateApiKey(apiKey).None? {
      GenerateContent.GameRequestsFail(ctx, apiKey, gameOver, gameCompleted);
    }
    assert ReplyTo(response, chunks) == NotOk;
    NotOkFails(ctx.stepType, parsing, regen);
  }

  /** An error status fails the step with "Failed to generate step". */
  lemma NotOkFails(t: StepType, parsing: Parsing, regen: RegenCall)
    ensures Generation(t, NotOk, parsing, regen) == Outcome(StreamingStart(t), Some(StepFailed), None)
  {
  }

  /** The image request `generateStepImage` sends for the step content that
      fired it, if any: none when images are off, the adventure has no
      theme, or an image is already being generated. */
  function ImageStart(enabled: bool, metadata: Option<AdventureMetadata>, busy: bool, fired: Option<string>): (r: seq<ImageRequest>)
    ensures |r| <= 1
    ensures r != [] <==> fired.Some? && fired.value != "" && enabled && metadata.Some? && metadata.value.theme != "" && !busy
    ensures r != [] ==> r[0] == ImageRequest(fired.value, metadata.value.theme)
  {
    if fired.Some? && enabled && metadata.Some? && metadata.value.theme != "" && fired.value != "" && !busy
    then [ImageRequest(fired.value, metadata.value.theme)]
    else []
  }

  /** The content that fires the image request during a generation: only a
      step reached without effects is illustrated. */
  function Fired(t: StepType, reply: StreamReply, hadEffects: bool, parsing: Parsing): (r: Option<string>)
    ensures r.Some? ==> Fires(r.value) && !hadEffects && reply.Stream?
  {
    if reply.Stream? && !hadEffects then
      TriggerFires(reply.chunks, |reply.chunks|, t, ParserFor(t, parsing), Fires);
      Read(reply.chunks, |reply.chunks|, t, ParserFor(t, parsing), Fires).trigger
    else None
  }

  class Session {
    const metadata: Option<AdventureMetadata>
    /** `NEXT_PUBLIC_ENABLE_IMAGE_GENERATION === "true"` */
    const imagesEnabled: bool
    var gameState: GameState
    var isStarted: bool
    var currentStep: Option<StoryStep>
    var isLoadingStep: bool
    var error: Option<string>
    var recentEffects: seq<GameEffect>
    /** The image shown, `Null` until one arrives. */
    var currentStepImage: JsValue
    var isGeneratingImage: bool
    var storyHistory: seq<HistoryEntry>
    /** The contexts sent to the content route, in order. */
    var contentRequests: seq<StoryContext>
    /** The requests sent to the image route, in order. */
    var imageRequests: seq<ImageRequest>

    /** Hearts stay between zero and the three a game starts with, and the
        score never goes negative. */
    predicate Valid()
      reads this
    {
      0 <= gameState.hearts <= StartingHearts && gameState.score >= 0
    }

    constructor(metadata: Option<AdventureMetadata>, imagesEnabled: bool)
      ensures this.metadata == metadata && this.imagesEnabled == imagesEnabled
      ensures gameState == GameState(StartingHearts, 0) && !isStarted && currentStep.None?
      ensures !isLoadingStep && error.None? && recentEffects == []
      ensures currentStepImage == Null && !isGeneratingImage
      ensures storyHistory == [] && contentRequests == [] && imageRequests == []
      ensures Valid()
    {
      this.metadata := metadata;
      this.imagesEnabled := imagesEnabled;
      gameState := GameState(StartingHearts, 0);
      isStarted := false;
      currentStep := None;
      isLoadingStep := false;
      error := None;
      recentEffects := [];
      currentStepImage := Null;
      isGeneratingImage := false;
      storyHistory := [];
      contentRequests := [];
      imageRequests := [];
    }

    /** The state a generation leaves, given the state before it and the
        context it built: the context sent, the step shown, the error
        reported, the history with the committed step, and the image request
        the step fired. */
    ghost predicate Generated(h: seq<HistoryEntry>, shown: Option<StoryStep>, busy: bool,
                              requests: seq<StoryContext>, images: seq<ImageRequest>, ctx: StoryContext,
                              text: JsValue, hadEffects: bool, reply: StreamReply, parsing: Parsing, regen: RegenCall)
      reads this
    {
      var o := Generation(ctx.stepType, reply, parsing, regen);
      var started := ImageStart(imagesEnabled, metadata, busy, Fired(ctx.stepType, reply, hadEffects, parsing));
      && contentRequests == requests + [ctx]
      && currentStep == Some(o.shown)
      && error == o.error
      && !isLoadingStep
      && storyHistory == (if o.committed.Some? then Committed(h, shown, text, o.committed.value) else h)
      && imageRequests == images + started
      && isGeneratingImage == (busy || started != [])
    }

    /** `generateStreamingStep`: builds the context, then makes the request
        with it. */
    method GenerateStreamingStep(gs: GameState, choiceText: JsValue, choiceHadEffects: bool, choiceEffectType: Option<Polarity>,
                                 draw: real, reply: StreamReply, parsing: Parsing, regen: RegenCall)
      modifies this
      ensures Generated(old(storyHistory), old(currentStep), old(isGeneratingImage), old(contentRequests), old(imageRequests),
                        ContextFor(metadata, gs, old(storyHistory), choiceText, choiceHadEffects, choiceEffectType, draw),
                        choiceText, choiceHadEffects, reply, parsing, regen)
      ensures gameState == old(gameState) && isStarted == old(isStarted)
      ensures recentEffects == old(recentEffects) && currentStepImage == old(currentStepImage)
    {
      var ctx := ContextFor(metadata, gs, storyHistory, choiceText, choiceHadEffects, choiceEffectType, draw);
      Request(ctx, choiceText, choiceHadEffects, reply, parsing, regen);
    }

    /** The request of `generateStreamingStep`: marks the session loading,
        shows an empty streaming step, sends the context, handles the reply
        and ends loading. */
    method Request(ctx: StoryContext, choiceText: JsValue, choiceHadEffects: bool,
                   reply: StreamReply, parsing: Parsing, regen: RegenCall)
      modifies this
      ensures Generated(old(storyHistory), old(currentStep), old(isGeneratingImage), old(contentRequests), old(imageRequests),
                        ctx, choiceText, choiceHadEffects, reply, parsing, regen)
      ensures gameState == old(gameState) && isStarted == old(isStarted)
      ensures recentEffects == old(recentEffects) && currentStepImage == old(currentStepImage)
    {
      isLoadingStep := true;
      error := None;
      var prevStep := currentStep;
      currentStep := Some(StreamingStart(ctx.stepType));
      contentRequests := contentRequests + [ctx];
      Receive(ctx.stepType, prevStep, choiceText, choiceHadEffects, reply, parsing, regen);
      isLoadingStep := false;
    }

    /** The part of `generateStreamingStep` after the empty step is shown:
        the reply is read, an educational step is gated, and a finished step
        is committed after the step shown before the request. */
    method Receive(t: StepType, prevStep: Option<StoryStep>, choiceText: JsValue, choiceHadEffects: bool,
                   reply: StreamReply, parsing: Parsing, regen: RegenCall)
      requires currentStep == Some(StreamingStart(t)) && error.None?
      modifies this`currentStep, this`error, this`storyHistory, this`isGeneratingImage, this`imageRequests
      ensures var o := Generation(t, reply, parsing, regen);
        && currentStep == Some(o.shown) && error == o.error
        && storyHistory == (if o.committed.Some? then Committed(old(storyHistory), prevStep, choiceText, o.committed.value) else old(storyHistory))
      ensures var started := ImageStart(imagesEnabled, metadata, old(isGeneratingImage), Fired(t, reply, choiceHadEffects, parsing));
        imageRequests == old(imageRequests) + started && isGeneratingImage == (old(isGeneratingImage) || started != [])
    {
      match reply {
        case FetchRejected(m) =>
          error := Some(m);
        case NotOk =>
          error := Some(StepFailed);
        case NoBody =>
          error := Some(NoStream);
        case Stream(chunks, readError) =>
          var r := ReadStream(chunks, t, choiceHadEffects, ParserFor(t, parsing), Fires);
          Conclude(t, prevStep, choiceText, r, readError, regen);
      }
    }

    /** The end of `generateStreamingStep` once the reply is read: a throw
        or a read error is reported, otherwise the finished step, gated when
        educational, is committed and shown. */
    method Conclude(t: StepType, prevStep: Option<StoryStep>, choiceText: JsValue,
                    r: Result<StoryStep>, readError: Option<string>, regen: RegenCall)
      requires currentStep.Some? && error.None?
      requires r.Success? ==> currentStep == Some(r.value)
      modifies this`currentStep, this`error, this`storyHistory
      ensures var o := Settle(t, old(currentStep).value, r, readError, regen);
        && currentStep == Some(o.shown) && error == o.error
        && storyHistory == (if o.committed.Some? then Committed(old(storyHistory), prevStep, choiceText, o.committed.value) else old(storyHistory))
    {
      if r.Failure? {
        error := Some(r.message);
      } else if readError.Some? {
        error := readError;
      } else {
        var step := r.value.(isStreaming := false, hasLoadedContent := true);
        var gated := true;
        if t == Educational {
          var choices := RegeneratedChoices(regen);
          if choices.None? {
            error := Some(ChoicesFailed);
            gated := false;
          } else {
            step := step.(choices := choices.value);
          }
        }
        if gated {
          storyHistory := Committed(storyHistory, prevStep, choiceText, step);
          currentStep := Some(step);
        }
      }
    }

    /** The read loop: after each chunk the text received so far is parsed
        into the step, the step is shown, and the image is asked for the
        first time the content is sufficient. A parse that throws ends the
        loop. `parse` is `parseMetadata` for the step's type, with its YAML
        loader and the draws of its shuffle (`ParserFor`); `fires` is the
        test that content is present and sufficient (`Fires`). */
    method ReadStream(chunks: seq<string>, t: StepType, choiceHadEffects: bool, parse: Parse, fires: string -> bool)
      returns (r: Result<StoryStep>)
      requires currentStep == Some(StreamingStart(t))
      modifies this`currentStep, this`isGeneratingImage, this`imageRequests
      ensures var reading := Read(chunks, |chunks|, t, parse, fires);
        && r == reading.result && currentStep == Some(reading.shown)
        && var started := ImageStart(imagesEnabled, metadata, old(isGeneratingImage), if choiceHadEffects then None else reading.trigger);
           imageRequests == old(imageRequests) + started && isGeneratingImage == (old(isGeneratingImage) || started != [])
    {
      var full := "";
      var step := StreamingStart(t);
      var triggered := false;
      ghost var fired: Option<string> := None;
      var i := 0;
      while i < |chunks|
        invariant 0 <= i <= |chunks|
        invariant full == Received(chunks, i)
        invariant Read(chunks, i, t, parse, fires) == Reading(Success(step), step, fired) && currentStep == Some(step)
        invariant triggered <==> !choiceHadEffects && fired.Some?
        invariant ImagesAfter(old(isGeneratingImage), old(imageRequests), if choiceHadEffects then None else fired)
      {
        full := full + chunks[i];
        ReadStep(chunks, i + 1, t, parse, fires, step, fired);
        var merged := Merge(step, parse(full, i));
        if merged.Failure? {
          AfterFailure(chunks, i + 1, |chunks|, t, parse, fires);
          return merged;
        }
        step := merged.value;
        triggered := ShowStep(step, triggered, choiceHadEffects, fires, fired, old(isGeneratingImage), old(imageRequests));
        fired := FirstFiring(fired, step.content, fires);
        i := i + 1;
      }
      return Success(step);
    }

    /** The image requests and the busy flag once the content `fired` has
        asked for the illustration, starting from `busy` and `requests`. */
    ghost predicate ImagesAfter(busy: bool, requests: seq<ImageRequest>, fired: Option<string>)
      reads this
    {
      var started := ImageStart(imagesEnabled, metadata, busy, fired);
      imageRequests == requests + started && isGeneratingImage == (busy || started != [])
    }

    /** Shows a step that parsed, and asks for its image when it is the
        first one with enough content and the choice had no effects.
        `fired` is the content that asked before, if any, and `busy` and
        `requests` the image state when the loop began. */
    method ShowStep(step: StoryStep, triggered: bool, choiceHadEffects: bool, fires: string -> bool,
                    ghost fired: Option<string>, ghost busy: bool, ghost requests: seq<ImageRequest>)
      returns (nowTriggered: bool)
      requires triggered <==> !choiceHadEffects && fired.Some?
      requires ImagesAfter(busy, requests, if choiceHadEffects then None else fired)
      modifies this`currentStep, this`isGeneratingImage, this`imageRequests
      ensures currentStep == Some(step)
      ensures var next := FirstFiring(fired, step.content, fires);
        && (nowTriggered <==> !choiceHadEffects && next.Some?)
        && ImagesAfter(busy, requests, if choiceHadEffects then None else next)
    {
      currentStep := Some(step);
      nowTriggered := triggered;
      if !triggered && !choiceHadEffects && fires(step.content) {
        nowTriggered := true;
        StartImage(step);
      }
    }

    /** `generateStepImage` up to its request: it does nothing when images
        are off, the adventure has no theme, the step has no content, or an
        image is already being generated. */
    method StartImage(step: StoryStep)
      modifies this`isGeneratingImage, this`imageRequests
      ensures var started := ImageStart(imagesEnabled, metadata, old(isGeneratingImage), Some(step.content));
        imageRequests == old(imageRequests) + started && isGeneratingImage == (old(isGeneratingImage) || started != [])
    {
      if !imagesEnabled {
        return;
      }
      if metadata.None? || metadata.value.theme == "" || step.content == "" || isGeneratingImage {
        return;
      }
      isGeneratingImage := true;
      imageRequests := imageRequests + [ImageRequest(step.content, metadata.value.theme)];
    }

    /** The rest of `generateStepImage`, when the reply arrives: a created
        image is shown, any other reply is ignored, and the session is free
        to ask for the next image. */
    method SettleImage(reply: ImageReply)
      modifies this`currentStepImage, this`isGeneratingImage
      ensures !isGeneratingImage
      ensures reply.ImageAnswered? && reply.response.ImageCreated? ==> currentStepImage == reply.response.imageUrl
      ensures !(reply.ImageAnswered? && reply.response.ImageCreated?) ==> currentStepImage == old(currentStepImage)
    {
      if reply.ImageAnswered? && reply.response.ImageCreated? {
        currentStepImage := reply.response.imageUrl;
      }
      isGeneratingImage := false;
    }

    /** `regenerateMetadata` with its caller's check: the approved choices
        are run through `validateChoices` and kept only when they pass. */
    method RegeneratedChoices(regen: RegenCall) returns (r: Option<seq<JsValue>>)
      ensures r == GateChoices(regen)
    {
      if regen.RegenUnreachable? || !regen.response.Approved? {
        return None;
      }
      var sent := regen.response.choices;
      var choices := new JsValue[|sent|](k requires 0 <= k < |sent| => sent[k]);
      assert choices[..] == sent;
      var ok := ValidateChoices(choices);
      if !ok {
        return None;
      }
      return Some(choices[..]);
    }

    /** `makeChoice`: a falsy choice is ignored; otherwise the choice is
        scored against the step shown, its effects are shown, and the next
        step is generated from the new state. */
    method MakeChoice(choice: JsValue, draw: real, reply: StreamReply, parsing: Parsing, regen: RegenCall)
      requires Valid()
      modifies this
      ensures Valid()
      ensures !Truthy(choice) ==> unchanged(this)
      ensures Truthy(choice) ==>
        var s := Score(old(currentStep).Some? && old(currentStep).value.stepType == Educational, CorrectOf(choice), old(gameState));
        && gameState == s.state && recentEffects == s.effects && isStarted == old(isStarted)
        && currentStepImage == old(currentStepImage)
        && Generated(old(storyHistory), old(currentStep), old(isGeneratingImage), old(contentRequests), old(imageRequests),
                     ContextFor(metadata, s.state, old(storyHistory), TextOf(choice), s.effects != [], EffectTypeOf(s.effects), draw),
                     TextOf(choice), s.effects != [], reply, parsing, regen)
    {
      if !Truthy(choice) {
        return;
      }
      var s := Score(currentStep.Some? && currentStep.value.stepType == Educational, CorrectOf(choice), gameState);
      recentEffects := s.effects;
      gameState := s.state;
      var hasEffects := s.effects != [];
      GenerateStreamingStep(s.state, TextOf(choice), hasEffects, EffectTypeOf(s.effects), draw, reply, parsing, regen);
    }

    /** The mount effect: once started with metadata it does nothing;
        otherwise it clears the history, records whether there is metadata,
        and generates the first step. Without metadata every run starts
        over. */
    method Start(draw: real, reply: StreamReply, parsing: Parsing, regen: RegenCall)
      requires Valid()
      modifies this
      ensures Valid()
      ensures old(isStarted) && metadata.Some? ==> unchanged(this)
      ensures !(old(isStarted) && metadata.Some?) ==>
        && isStarted == metadata.Some? && gameState == old(gameState)
        && recentEffects == old(recentEffects) && currentStepImage == old(currentStepImage)
        && Generated([], old(currentStep), old(isGeneratingImage), old(contentRequests), old(imageRequests),
                     ContextFor(metadata, old(gameState), [], Undefined, false, None, draw), Undefined, false, reply, parsing, regen)
    {
      if isStarted && metadata.Some? {
        return;
      }
      storyHistory := [];
      isStarted := metadata.Some?;
      GenerateStreamingStep(gameState, Undefined, false, None, draw, reply, parsing, regen);
    }

    /** `continueStory`: with a step shown, generates the next one as if
        "Continue" had been chosen without effects. */
    method ContinueStory(draw: real, reply: StreamReply, parsing: Parsing, regen: RegenCall)
      requires Valid()
      modifies this
      ensures Valid()
      ensures old(currentStep).None? ==> unchanged(this)
      ensures old(currentStep).Some? ==>
        && gameState == old(gameState) && isStarted == old(isStarted)
        && recentEffects == old(recentEffects) && currentStepImage == old(currentStepImage)
        && Generated(old(storyHistory), old(currentStep), old(isGeneratingImage), old(contentRequests), old(imageRequests),
                     ContextFor(metadata, old(gameState), old(storyHistory), Str(ContinueText), false, None, draw),
                     Str(ContinueText), false, reply, parsing, regen)
    {
      if currentStep.None? {
        return;
      }
      GenerateStreamingStep(gameState, Str(ContinueText), false, None, draw, reply, parsing, regen);
    }

    /** `dismissEffects`: clears the effects shown. */
    method DismissEffects()
      modifies this`recentEffects
      ensures recentEffects == []
    {
      recentEffects := [];
    }
  }
}
