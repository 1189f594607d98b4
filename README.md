# eduventure step pipeline in Dafny

This project models the part of the eduventure game that produces and checks
story steps. A browser hook streams each step from a content route and parses
it. Educational steps go through a metadata-repair route, and an image is
requested once the text is long enough. The model covers:

- `validateChoices`, the all-or-nothing schema check that also rewrites a
  numeric or boolean `text` in place (`ChoiceValidator`).
- The step classifier `getStepType` and its helpers `getMaxSteps`,
  `getStepsComplete` and `getProgress`, plus `buildStoryContext`
  (`StepTarget`, `StoryContextBuilder`).
- The system prompt `createStoryStepPrompt` with its pacing band,
  instructions and example metadata (`Prompts`).
- The `generate-content` route: its guard order and its user-prompt priority
  chain (`GenerateContent`).
- The server stream `OpenAIStreamingService` (`OpenAiStream`):
  - the API-key check;
  - the window of recent history;
  - the summary messages;
  - the stream that forwards text and emits `---ERROR---` on failure.
- The browser hook `useStreamingAdventure`:
  - `parseMetadata` and `hasSufficientContent` (`StreamParser`);
  - the outcome of `generateStreamingStep` as values (`StepStream`);
  - the session state and its methods `makeChoice`, `continueStory`,
    `dismissEffects`, the mount effect and `generateStepImage`, as the class
    `StreamingAdventure.Session`.
- The `regenerate-metadata` route: its three-round check-and-regenerate loop,
  `generateNewChoices` and the `VALID` verdict (`RegenerateMetadata`).
- The `generate-image` route: `createImagePrompt` and the guards of `POST`
  (`GenerateImage`).

Shared modules hold the value types:

- `Base`: `Option` and `Result`.
- `Text`: the JavaScript string operations the code uses, such as `trim`,
  `includes`, `split`/`join` and `replace` of a literal.
- `JsValues`: untyped JSON/YAML values with JavaScript truthiness.
- `Adventure`: steps, history entries, game state and contexts.
- `Shuffle`: the random-comparator sort, modelled as a permutation driven by
  injected draws.

The outside world is passed in as parameters or oracles:

- the chat model's replies;
- `yaml.load` and `yaml.dump`;
- `fetch` results and the chunks of a stream;
- `Math.random` draws;
- the image model;
- the `process.env` flags.

The code is followed where it departs from its own comments:

- **Numeric `text` still fails.** A numeric `text` is rewritten to a string
  in place, but the element still fails, because the check reads the stale
  local.
- **A correct answer counts as a setback.** A correct educational answer is
  reported as a "negative" effect, so the next step is a negative
  consequence.
- **The history window is short for three or four steps.** It is
  `slice(len - 5, len)` under negative-index rules, so it holds two steps
  for a history of three and one step for a history of four.
- **The OUTPUT FORMAT separator lines are inverted.** They appear exactly
  for the step types whose example metadata is empty.
- **Choices are shuffled on every parse,** not only when the stream ends.
- **Every request the game makes fails.** The content route reads
  `context.storyHistory.length`, but `buildStoryContext` never produces
  `storyHistory`. With the key set, the route therefore answers 500 to every
  request the game makes (`GenerateContent.GameRequestsFail`,
  `StreamingAdventure.GameStepsFail`).

## Model

| member | source | states |
|---|---|---|
| StepTarget.MaxSteps | src/app/helpers/getMaxSteps.ts:4-15 | the target is always 7, 10 or 15, and it is 7 exactly when the level is neither "medium" nor "hard" |
| StepTarget.UnknownLevelIsEasy | src/app/helpers/getMaxSteps.ts:12-13 | an absent or unknown level gets the same target as "easy" |
| StepTarget.MaxStepsIncreasing | src/app/helpers/getMaxSteps.ts:5-11 | the target strictly increases from easy to medium to hard |
| StoryContextBuilder.StepsComplete | src/app/helpers/buildStoryContext.ts:15-16 | the count of educational entries is at most the history length; it is zero exactly when no entry is educational and the full length exactly when all are |
| StoryContextBuilder.StepsCompleteAppend | src/app/helpers/buildStoryContext.ts:15-16 | appending an entry adds one to the count exactly when that entry is educational |
| StoryContextBuilder.RoundedPercentFacts | src/app/helpers/buildStoryContext.ts:12-13 | for the targets 7, 10 and 15, the half-up rounded percentage is 100 exactly when the target is met, 0 exactly when nothing is complete, and never above 100 before the target is passed |
| StoryContextBuilder.Progress | src/app/helpers/buildStoryContext.ts:12-13 | progress is 100 exactly when the educational count equals the level's target, 0 exactly when it is zero, and at most 100 while the target is not exceeded |
| StoryContextBuilder.StepTypeFor | src/app/helpers/buildStoryContext.ts:18-45 | the type chosen is one whose condition holds, and no type whose condition holds ranks higher in the chain death, consequence, ending, educational or regular |
| StoryContextBuilder.DeathDominates | src/app/helpers/buildStoryContext.ts:24-26 | the step is a death exactly when hearts are at most 0, whatever the other inputs |
| StoryContextBuilder.ConsequenceBeforeEnding | src/app/helpers/buildStoryContext.ts:30-38 | with hearts left and an effect type set, the step is the consequence of that polarity, even when the ending target has been reached |
| StoryContextBuilder.EndingOrDraw | src/app/helpers/buildStoryContext.ts:36-44 | with hearts left and no effect, the step is an ending exactly when the target is reached; otherwise it is educational exactly when the draw is below 0.7, and regular otherwise |
| StoryContextBuilder.Entries | src/app/helpers/buildStoryContext.ts:68-69 | the history is carried into the context entry by entry, with the same length |
| StoryContextBuilder.AmendedHistory | src/app/helpers/buildStoryContext.ts:68-73 | all but the last entry are kept; with a truthy choice text the last entry, or an entry with no step for an empty history, carries the choice; without one the last entry is dropped |
| StoryContextBuilder.BuildStoryContext | src/app/helpers/buildStoryContext.ts:47-75 | the context carries the classified step type, the educational count, the progress and the amended history; theme is the metadata's theme, subject its educational subject and level its difficulty level, defaulting to "", "" and "easy"; the level gives the same target as the metadata's |
| ChoiceValidator.FirstFailure | src/lib/choice-validator.ts:37-58 | the index where `every` stops is the first failing element, and every earlier element passes; there is none exactly when all pass |
| ChoiceValidator.AfterValidation | src/lib/choice-validator.ts:37-58 | the length is kept and a list that passes is unchanged; at most one element changes, the first failing one, and only when its `text` was a number or a boolean, which becomes its string form |
| ChoiceValidator.ValidateChoices | src/lib/choice-validator.ts:32-59 | a non-array is rejected; otherwise the answer is true exactly when the list is non-empty and every element passes, and the array afterwards is the in-place-coerced list |
| ChoiceValidator.CoercedTextStillFails | src/lib/choice-validator.ts:42-50 | an element with a number or boolean `text` fails, even though its `text` is rewritten to a non-blank string |
| ChoiceValidator.RevalidationAfterCoercion | src/lib/choice-validator.ts:42-50 | a list whose only flaw is a numeric `text` is rejected, yet the same list after the call passes a second check |
| ChoiceValidator.CoercedNumberPasses | src/lib/choice-validator.ts:44-50 | the rewritten form of an element with a numeric `text` and a valid `correct` passes |
| Prompts.BandOf | src/lib/adventure-prompts.ts:23-33 | the pacing band is EARLY exactly for progress at most 20, EARLY-MID exactly for 21 to 40, MID exactly for 41 to 60, LATE-MID exactly for 61 to 80, and LATE exactly above 80 |
| Prompts.BandMonotone | src/lib/adventure-prompts.ts:23-33 | higher progress never selects an earlier band, and equal band positions mean equal bands |
| Prompts.WordRange | src/lib/adventure-prompts.ts:56-84 | every word range asked for lies within 50 to 180 words and is non-empty |
| Prompts.Instructions | src/lib/adventure-prompts.ts:56-84 | the instructions for a type contain the sentence asking for that type's word range |
| Prompts.MetadataExample | src/lib/adventure-prompts.ts:86-120 | the example metadata is empty exactly for the types without example choices, and otherwise starts with the `---` line |
| Prompts.EducationalExample | src/lib/adventure-prompts.ts:95-106 | the educational example has four choices, exactly one of them correct |
| Prompts.FormatLinesInverted | src/lib/adventure-prompts.ts:38-42 | the separator and YAML lines of OUTPUT FORMAT are absent exactly when the type's example metadata is present |
| Prompts.CreateStoryStepPrompt | src/lib/adventure-prompts.ts:4-53 | the prompt asks for the OPENING step exactly when the history is empty and for the NEXT step otherwise, and the theme line sits right after the step sentence |
| GenerateContent.SelectPrompt | src/app/api/generate-content/route.ts:32-52 | the prompt chosen is one whose condition holds, and no prompt whose condition holds ranks higher in the chain introduction, death, negative, positive, ending, educational, regular |
| GenerateContent.PromptChainFacts | src/app/api/generate-content/route.ts:33-40 | an empty story history always selects the introduction; a consequence prompt is chosen only when the choice had effects of the matching polarity |
| GenerateContent.UserPrompt | src/app/api/generate-content/route.ts:43-48 | the educational prompt names the subject and the difficulty |
| GenerateContent.Post | src/app/api/generate-content/route.ts:7-68 | a malformed body gives 500; a missing key gives 500 before the context is looked at; a missing context gives 400; the route streams exactly when the context has both `history` and `storyHistory`, with 1200 tokens, temperature 0.8 and the system prompt built from the context |
| GenerateContent.Respond | src/app/api/generate-content/route.ts:26-60 | after the guards the route streams exactly when both histories are present, with the user prompt picked by the chain; any throw becomes the fixed 500 |
| GenerateContent.ToWire | src/app/helpers/buildStoryContext.ts:58-74 | the context the game sends has `history` but no `storyHistory`, no effect flags and no `choiceType` |
| GenerateContent.GameRequestsFail | src/app/api/generate-content/route.ts:32-66 | with the key set, every context the game builds is answered with the fixed 500 |
| GenerateContent.GameContextPrompts | src/app/api/generate-content/route.ts:37-44 | the fields the game sends can never select the consequence or educational prompts |
| OpenAiStream.ValidateApiKey | src/lib/openai-stream.ts:19-24 | there is no error exactly when the key is set and non-empty, and the error is the fixed message |
| OpenAiStream.Window | src/lib/openai-stream.ts:41-42 | the window is a suffix of the history of at most five entries: five for five or more, all for at most two, two for three and one for four |
| OpenAiStream.BeforeSeparator | src/lib/openai-stream.ts:49 | the text kept is a prefix of the content with no `---` in it |
| OpenAiStream.AbridgedKeepsEnds | src/lib/openai-stream.ts:50-59 | a text of more than 100 words is cut to its own first 50 and last 50 words around the ellipsis; a shorter one is kept whole |
| OpenAiStream.SummaryKeepsEnds | src/lib/openai-stream.ts:48-64 | the summary of a step with choices holds the text before its separator whole when it has at most 100 words, and otherwise starts with its first 50 words and the ellipsis and ends, before the choices, with its last 50 words |
| OpenAiStream.Summary | src/lib/openai-stream.ts:45-68 | a summary exists exactly when the entry has a step; it starts with the step's title header, and for a step without choices it continues with the first 200 characters of the content; for a step with choices it continues with the abridged text before the first `---`, a separator line and the dump of the choices |
| OpenAiStream.StepMessages | src/lib/openai-stream.ts:41-80 | the messages exist exactly when every entry can be summarised, two per entry |
| OpenAiStream.StepMessagesRoles | src/lib/openai-stream.ts:70-79 | the messages alternate assistant, user, starting with the assistant |
| OpenAiStream.SummaryAt | src/lib/openai-stream.ts:43-74 | the assistant message of each entry is that entry's summary |
| OpenAiStream.UserTurnAt | src/lib/openai-stream.ts:75-78 | the user message of each entry is its choice, or "Continue" |
| OpenAiStream.BuildMessages | src/lib/openai-stream.ts:36-86 | the list exists exactly when every entry of the window has a step; it is the system prompt, two messages per window entry alternating assistant and user, and the user prompt with the progress line, at most 12 messages |
| OpenAiStream.ErrorTextHasMarker | src/lib/openai-stream.ts:106-108 | the failure text contains `---ERROR---` |
| OpenAiStream.NonEmpty | src/lib/openai-stream.ts:99-102 | no empty delta is forwarded |
| OpenAiStream.ConcatNonEmpty | src/lib/openai-stream.ts:99-102 | dropping the empty deltas does not change the text streamed |
| OpenAiStream.FailureStreamsMarker | src/lib/openai-stream.ts:104-109 | when building the messages or the completion throws, the text streamed contains `---ERROR---` |
| OpenAiStream.SuccessStreamsDeltas | src/lib/openai-stream.ts:98-103 | otherwise the text streamed is exactly the model's text |
| OpenAiStream.Start | src/lib/openai-stream.ts:34-113 | the stream is closed in every case, and what it enqueued is the non-empty deltas followed by the failure text if something threw |
| StreamParser.Title | src/hooks/useStreamingAdventure.ts:107-108 | the title is never empty and lies on one line; it is the rest of the first `# ` line or "Untitled Step" |
| StreamParser.ContentStart | src/hooks/useStreamingAdventure.ts:123 | story text is found only when the text starts with a `# ` line directly followed by a blank line |
| StreamParser.PlainBranchContent | src/hooks/useStreamingAdventure.ts:134-140 | the content read before a separator arrives contains no `---` |
| StreamParser.YamlUpdate | src/hooks/useStreamingAdventure.ts:115-147 | once YAML has loaded, the update keeps the step type and title and marks the content loaded; a non-array `choices` throws from `sort` |
| StreamParser.ParseMetadata | src/hooks/useStreamingAdventure.ts:98-151 | a text holding `---ERROR---` or YAML that does not load gives the empty update; an update keeps the step type and title and is loaded exactly when a separator has arrived; before that, choices are empty and the content has no `---`; only a text with a separator can throw |
| StreamParser.MarkerSticky | src/hooks/useStreamingAdventure.ts:101-104 | once the error marker has arrived, every later parse gives the empty update |
| StreamParser.StreamFailureLeavesStep | src/hooks/useStreamingAdventure.ts:101-104 | a stream whose server side failed is always parsed as the empty update |
| StreamParser.ReplyShape | src/hooks/useStreamingAdventure.ts:111-124 | a reply `# title`, blank line, story text, `---` line, YAML is split at its separator into exactly that title, story text and YAML |
| StreamParser.YamlBranchAt | src/hooks/useStreamingAdventure.ts:123-124 | the story text read with YAML present is the trimmed text between the blank line and the first separator |
| StreamParser.ParsedWithYaml | src/hooks/useStreamingAdventure.ts:115-147 | when the YAML after the first separator loads with a `choices` array, the update is loaded, with the title, the story text and the choices shuffled |
| StreamParser.FullReplyParses | src/hooks/useStreamingAdventure.ts:111-147 | a reply of the expected shape yields its own title, trimmed story text and a permutation of its YAML choices, marked loaded |
| StreamParser.UnsortableChoicesThrow | src/hooks/useStreamingAdventure.ts:129-147 | a truthy `choices` that is not a list makes the parse throw |
| StreamParser.PartialReplyParses | src/hooks/useStreamingAdventure.ts:134-140 | a reply cut before its separator yields the title, the trimmed text with every `---` removed, no choices, and not loaded |
| StreamParser.ShortContentInsufficient | src/hooks/useStreamingAdventure.ts:154-157 | a text shorter than 98 characters after trimming and free of `---` has too few words to illustrate |
| StreamParser.FiftyWordsSuffice | src/hooks/useStreamingAdventure.ts:154-157 | fifty space-joined words are enough to illustrate |
| Shuffle.Shuffled | src/hooks/useStreamingAdventure.ts:147 | the random sort returns a permutation of its input |
| Shuffle.EveryOrderReachable | src/app/api/regenerate-metadata/route.ts:171 | every permutation of the input is the outcome of some draws |
| StepStream.Merge | src/hooks/useStreamingAdventure.ts:271 | `Object.assign` of an update: the empty update keeps the step, a throw fails, and an update sets the content and step type and keeps the streaming flag |
| StepStream.ReceivedIsConcat | src/hooks/useStreamingAdventure.ts:262-268 | the text accumulated after n chunks is the concatenation of those chunks |
| StepStream.Read | src/hooks/useStreamingAdventure.ts:262-285 | while no parse has thrown, the step on screen is the merged step, and it is always marked streaming |
| StepStream.ReadStep | src/hooks/useStreamingAdventure.ts:262-285 | each further chunk merges the parse of the whole text received so far into the step, and keeps the first content that fired |
| StepStream.TriggerFires | src/hooks/useStreamingAdventure.ts:276-284 | the illustration is asked for only with a content that is non-empty and sufficient |
| StepStream.ParserKeepsType | src/hooks/useStreamingAdventure.ts:142-148 | every update the parser gives carries the context's step type |
| StepStream.ParsedStepsKeepType | src/hooks/useStreamingAdventure.ts:227-271 | the step streamed keeps the type it was started with |
| StepStream.AfterFailure | src/hooks/useStreamingAdventure.ts:262-285 | after a parse throws, later chunks change nothing |
| StepStream.MarkerChunkKeepsStep | src/hooks/useStreamingAdventure.ts:101-104 | a chunk that brings in the error marker leaves the step as it was |
| StepStream.NoFiringNoTrigger | src/hooks/useStreamingAdventure.ts:276-284 | if no merged step passes the test, the illustration is never asked for |
| StepStream.ShortTextDoesNotFire | src/hooks/useStreamingAdventure.ts:154-157 | a short text free of `---` does not fire |
| StepStream.ShortStepsNotIllustrated | src/hooks/useStreamingAdventure.ts:276-284 | a step whose parsed texts are all short and free of `---` is never illustrated |
| StepStream.GateChoices | src/hooks/useStreamingAdventure.ts:78-89 | the regenerated choices are kept exactly when the route approved them and they pass `validateChoices` |
| StepStream.GeneratedApprovalPassesGate | src/hooks/useStreamingAdventure.ts:84-86 | a list the route approved after generating it always passes the browser's check |
| StepStream.GenerationFacts | src/hooks/useStreamingAdventure.ts:204-323 | a generation commits exactly when it reports no error; a committed step is finished, loaded and on screen; an error leaves a streaming step on screen; the step keeps its type; a committed educational step has valid choices; only a fully read stream commits |
| StepStream.EducationalGate | src/hooks/useStreamingAdventure.ts:291-302 | an educational step is committed only after an approval with valid choices, and other steps never depend on the check |
| StreamingAdventure.Score | src/hooks/useStreamingAdventure.ts:339-390 | a heart is lost exactly when `correct === false`, floored at 0; a correct educational answer gains 10 points, and an incorrect one loses 5 only when the score stays non-negative; other choices keep the score; the effects are exactly "Score gained", or "Score lost" (when points were lost) followed by "Heart lost", or "Heart lost", or none; hearts and score stay in range |
| StreamingAdventure.EffectTypeOf | src/hooks/useStreamingAdventure.ts:393-394 | an effect type is reported exactly when there were effects, and it is never positive |
| StreamingAdventure.ContextFor | src/hooks/useStreamingAdventure.ts:216-224 | the effect type is passed on only when the choice had effects, and the context carries the amended history and the game state |
| StreamingAdventure.CorrectAnswerToldAsSetback | src/hooks/useStreamingAdventure.ts:346-401 | a correct educational answer gains 10 points, yet the next step is a negative consequence |
| StreamingAdventure.Committed | src/hooks/useStreamingAdventure.ts:305-313 | the new step ends the history; with a previous step, that step carrying the choice replaces the last entry; without one the step is appended |
| StreamingAdventure.CommitAfterCommit | src/hooks/useStreamingAdventure.ts:305-310 | when the step shown was the last one committed, the history grows by one and records the choice on it |
| StreamingAdventure.FailedStepDisplacesEntry | src/hooks/useStreamingAdventure.ts:305-310 | after a failed generation the next commit puts the unfinished copy in place of the last finished step |
| StreamingAdventure.GameStepsFail | src/hooks/useStreamingAdventure.ts:238-251 | against the content route as written, every step the game asks for fails with "Failed to generate step" and nothing is committed |
| StreamingAdventure.NotOkFails | src/hooks/useStreamingAdventure.ts:249-251 | an error status fails the step and commits nothing |
| StreamingAdventure.ImageStart | src/hooks/useStreamingAdventure.ts:160-181 | at most one image request, made exactly when images are on, there is a theme, the content is non-empty and no image is being generated |
| StreamingAdventure.Fired | src/hooks/useStreamingAdventure.ts:276-284 | a content fires only during a stream, only without effects, and only when it is sufficient |
| StreamingAdventure.Session.constructor | src/hooks/useStreamingAdventure.ts:42-55 | a new session has three hearts, no score, no step, no error, no effects, no image and an empty history |
| StreamingAdventure.Session.GenerateStreamingStep | src/hooks/useStreamingAdventure.ts:204-333 | the context built from the state is sent; the step on screen, the error, the history and the image requests are those of the generation's outcome; game state and effects are untouched |
| StreamingAdventure.Session.Request | src/hooks/useStreamingAdventure.ts:211-322 | loading is set and cleared around the request, and the state afterwards is the outcome of the generation for the context sent |
| StreamingAdventure.Session.Receive | src/hooks/useStreamingAdventure.ts:249-315 | the step on screen, the error and the history are the generation's outcome, and at most one image request is made, for the content that fired |
| StreamingAdventure.Session.ReadStream | src/hooks/useStreamingAdventure.ts:258-285 | the read loop leaves on screen the step the chunks read to, and makes the image request for the first content that fires, unless the choice had effects |
| StreamingAdventure.Session.ShowStep | src/hooks/useStreamingAdventure.ts:273-284 | one pass of the loop shows the step and sets the trigger flag once, starting the image for the first content that fires |
| StreamingAdventure.Session.Conclude | src/hooks/useStreamingAdventure.ts:287-315 | after the loop, the step is finished, an educational step gated, and the history committed as the settled outcome says |
| StreamingAdventure.Session.StartImage | src/hooks/useStreamingAdventure.ts:160-181 | the image request is made exactly when `ImageStart` allows it, and marks the session busy |
| StreamingAdventure.Session.SettleImage | src/hooks/useStreamingAdventure.ts:183-199 | a created image is shown, any other reply leaves the image as it was, and the session is no longer busy |
| StreamingAdventure.Session.RegeneratedChoices | src/hooks/useStreamingAdventure.ts:78-89 | the choices kept are those of `GateChoices` |
| StreamingAdventure.Session.MakeChoice | src/hooks/useStreamingAdventure.ts:335-404 | a falsy choice changes nothing; otherwise the state and effects are the scoring of the choice, and the next step is generated with the effects flag and type |
| StreamingAdventure.Session.Start | src/hooks/useStreamingAdventure.ts:406-413 | once started with metadata nothing happens; otherwise the history is cleared, the start flag set from the metadata, and the first step generated |
| StreamingAdventure.Session.ContinueStory | src/hooks/useStreamingAdventure.ts:415-418 | with a step shown, the next step is generated as if "Continue" had been chosen without effects; without one nothing changes |
| StreamingAdventure.Session.DismissEffects | src/hooks/useStreamingAdventure.ts:420 | the effects shown are cleared |
| RegenerateMetadata.AcceptsValidPrefix | src/app/api/regenerate-metadata/route.ts:60-62 | any answer starting with "VALID" is accepted, whatever follows it |
| RegenerateMetadata.RejectsInvalid | src/app/api/regenerate-metadata/route.ts:60-66 | an answer starting with "INVALID", a failed call and a missing message are all rejections |
| RegenerateMetadata.ValidationPromptMentions | src/app/api/regenerate-metadata/route.ts:21-35 | the check's prompt contains the story content and one numbered line per choice |
| RegenerateMetadata.StripFencesFrom | src/app/api/regenerate-metadata/route.ts:118-120 | stripping fences never lengthens the text |
| RegenerateMetadata.NoFenceUnchanged | src/app/api/regenerate-metadata/route.ts:118-120 | a text without a fence is left as it is |
| RegenerateMetadata.FencedReply | src/app/api/regenerate-metadata/route.ts:118-120 | a reply wrapped in a yaml code fence is reduced to its body between newlines |
| RegenerateMetadata.GeneratedChoices | src/app/api/regenerate-metadata/route.ts:118-138 | generated choices are returned only from a reply with content, and they pass `validateChoices` |
| RegenerateMetadata.ChoicesIn | src/app/api/regenerate-metadata/route.ts:122-138 | choices come only from non-empty text that loads as YAML, and they pass `validateChoices` |
| RegenerateMetadata.GenerateNewChoices | src/app/api/regenerate-metadata/route.ts:70-139 | the method returns exactly `GeneratedChoices` of the reply |
| RegenerateMetadata.LoadChoices | src/app/api/regenerate-metadata/route.ts:122-138 | the in-place schema check leaves an accepted list as the YAML held it |
| RegenerateMetadata.RoundFacts | src/app/api/regenerate-metadata/route.ts:165-180 | a round makes at most one check and one generation; it checks exactly a non-empty list; an approval returns that list reordered; a generation that throws ends the request |
| RegenerateMetadata.AttemptsCounts | src/app/api/regenerate-metadata/route.ts:164-183 | the remaining rounds make at most one check and one generation each; using every generation means failure; approval needs a check |
| RegenerateMetadata.AttemptsApproved | src/app/api/regenerate-metadata/route.ts:164-181 | an approved list is the list as it stood, reordered, or a generated list that passed the schema check |
| RegenerateMetadata.Post | src/app/api/regenerate-metadata/route.ts:141-161 | a parsed body with the key unset gets the 500 key error before its fields are read; with the key set, a non-null body lacking a truthy `stepContent` or `context` gets the 400; a body that is not JSON, or is null, fails; no check or generation happens unless all guards pass |
| RegenerateMetadata.RegeneratePost | src/app/api/regenerate-metadata/route.ts:141-195 | the route's loop computes the specified response |
| RegenerateMetadata.Rounds3 | src/app/api/regenerate-metadata/route.ts:164-183 | the three-round `for` loop computes the rounds as specified |
| RegenerateMetadata.RegenerationBounds | src/app/api/regenerate-metadata/route.ts:141-195 | at most three checks and three generations; three generations mean failure; approval needs a check; the request's own list is returned only reordered, and any other approved list passes the schema check |
| RegenerateMetadata.NullChoiceFails | src/app/api/regenerate-metadata/route.ts:27-34 | a request whose list holds a null or undefined element fails before any model call |
| RegenerateMetadata.FirstCheckApproves | src/app/api/regenerate-metadata/route.ts:165-173 | when the first check approves the request's own list, the answer is that list shuffled, after one check and no generation |
| RegenerateMetadata.PostStartsLoop | src/app/api/regenerate-metadata/route.ts:143-164 | a request with the key set and both fields present goes into the loop with its list, or an empty one |
| GenerateImage.HeaderRemoved | src/app/api/generate-image/route.ts:61 | one to six `#` followed by whitespace are removed |
| GenerateImage.SeventhHashKept | src/app/api/generate-image/route.ts:61 | of seven `#`, one survives |
| GenerateImage.YouPassOnYour | src/app/api/generate-image/route.ts:62 | "your" loses its "you" to "the character" |
| GenerateImage.PossessivePassAfterYou | src/app/api/generate-image/route.ts:63 | after that, the possessive rewrite finds nothing left to replace |
| GenerateImage.YourIsMangled | src/app/api/generate-image/route.ts:58-64 | "your map" is cleaned to "the characterr map" |
| GenerateImage.TaxiRewritten | src/app/api/generate-image/route.ts:58-64 | a word ending in "i" loses it, so "taxi" becomes "tax" followed by "the character" |
| GenerateImage.EnemyRewritten | src/app/api/generate-image/route.ts:58-64 | a word ending in "my" loses it, so "enemy" becomes "ene" followed by "the character's" |
| GenerateImage.NoMarkupUnchanged | src/app/api/generate-image/route.ts:59-61 | a text without `*` or `#` passes the markdown removals unchanged |
| GenerateImage.CleanDescription | src/app/api/generate-image/route.ts:58-64 | the cleaned description has no `*`, is at most 200 characters, and holds only characters of the description or of the replacement text |
| GenerateImage.ImagePrompt | src/app/api/generate-image/route.ts:56-77 | the prompt starts with the lead and the theme, contains the cleaned description, and ends with the no-text directive and the style block |
| GenerateImage.Post | src/app/api/generate-image/route.ts:8-54 | with the flag off, 403 before the body is read; a missing description or theme gives 400; the status is 400, 403 or 500 on error; an image is returned only when the flag is on, and its URL is what the image model returned for the prompt |
| GenerateImage.GameRequestPrompt | src/app/api/generate-image/route.ts:17-46 | for the body the game sends, an image is returned exactly when the image model answers with a URL for the prompt built from the step and theme |

## Left out

- **User interface.** All rendering components, the markdown renderer and the setup screens are left out.
- **React scheduling.**
  - The model runs the hook's callbacks one after another on one session state.
  - State captured by stale closures is not modelled.
  - The image request is not concurrent with the stream: its completion is the separate call `Session.SettleImage`.
  - The mount effect builds its context from the history it has just cleared; the hook's closure may still see the old history.
- **External calls are parameters.** These stand in for `fetch`, the OpenAI chat and image calls, `ReadableStream`/`TextDecoder`, `yaml.load`/`yaml.dump`, `Math.random` and the `process.env` flags.
  - The chat model's replies and the chunks of a stream are sequences or oracles.
  - The random-comparator sort is an arbitrary permutation chosen by injected draws; its distribution is not modelled.
  - A throwing call is an explicit error value.
  - The logging is not modelled.
- **Progress uses integer arithmetic.** The floating-point `Math.round(100 * done / max)` is modelled as half-up integer rounding. For the targets 7, 10 and 15 this agrees with the code.
- **The regenerate-metadata response is not serialised.** Its JSON round trip to the browser is taken as the identity on the list. The session's metadata is fixed for the session's lifetime.
- **Engine-specific details.**
  - The message of a `TypeError` is the V8 wording, taken as a constant.
  - `undefined` holes in arrays are not modelled.
- **JavaScript numbers are integers.** `JsValues.Num` holds an unbounded integer. A fractional number, or one of 1e21 or more, is not representable. So the model cannot show `validateChoices` turning such a `text` into "3.5" or "1e+21"; it only covers integer `text` values and their decimal form.
- **Strings are sequences of Unicode scalar values, not UTF-16 code units.** The `slice(0, 200)` cuts in the summary of a step without choices (`OpenAiStream.Summary`) and in the image description (`GenerateImage.CleanDescription`) count characters. On text outside the Basic Multilingual Plane, such as emoji, the code counts two units per character and may split a surrogate pair. The model keeps up to 200 characters, which can be up to 400 code units, and never splits a character.
- **Prompt wording.** The wording of the prompts is kept only where a property reads it: the opening word, the theme line, the word ranges, the example metadata and the error marker.
- **`gameOver` and `gameCompleted` are parameters.** The route imports them from `src/constants.ts`, which does not define them, so the model takes them as arbitrary predicates.
- **The OpenAI clients created at module load** are not modelled.
- **Prompts.WordRange** states only the common bounds of the ranges (within 50 to 180 words, lower below upper). The range of each step type is not restated in its contract.
