/** What one run of `generateStreamingStep` makes of the replies it gets:
    the step as it grows chunk by chunk, the moment the illustration is
    asked for, the gate educational steps must pass, and the outcome that
    is shown, reported and committed. The browser state it changes is in
    `StreamingAdventure`; this module states the outcome as values. */
module StepStream {
  import opened Base
  import opened Text
  import opened JsValues
  import opened Adventure
  import opened ChoiceValidator
  import opened StreamParser
  import OpenAiStream
  import RegenerateMetadata

  const StepFailed := "Failed to generate step"
  const NoStream := "No response stream available"
  const ChoicesFailed := "Failed to generate valid choices. Please try again."

  /** The reply to the step request: the fetch rejects, the status is not
      2xx, there is no body to read, or the body yields these chunks and then
      ends, or fails with a read error. */
  datatype StreamReply =
    | FetchRejected(message: string)
    | NotOk
    | NoBody
    | Stream(chunks: seq<string>, readError: Option<string>)

  /** The reply to the metadata check: no answer, or the route's response. */
  datatype RegenCall = RegenUnreachable | RegenAnswered(response: RegenerateMetadata.RegenResponse)

  /** The oracles of the parses: `yaml.load`, and the order the random sort
      of the n-th parse puts the choices in. */
  datatype Parsing = Parsing(load: string -> YamlResult, draws: nat -> seq<nat>)

  /** A parse of the text received so far, given the index of the chunk
      that completed it. */
  type Parse = (string, nat) -> StepUpdate

  /** `parseMetadata` as the read loop of a step of type `t` runs it. */
  function ParserFor(t: StepType, parsing: Parsing): Parse
  {
    (buffer: string, n: nat) => ParseMetadata(buffer, t, parsing.load, parsing.draws(n))
  }

  /** The step shown as soon as the request starts. */
  function StreamingStart(t: StepType): StoryStep
  {
    StoryStep("", "", [], t, false, true)
  }

  /** `Object.assign(streamingStep, update)`, or the exception the parse
      threw. The streaming flag is never part of an update. */
  function Merge(step: StoryStep, u: StepUpdate): (r: Result<StoryStep>)
    ensures r.Failure? <==> u.ParseThrows?
    ensures u.NoChange? ==> r == Success(step)
    ensures r.Success? ==> r.value.isStreaming == step.isStreaming
    ensures r.Success? && u.Update? ==> r.value.content == u.content && r.value.stepType == u.stepType
  {
    match u
    case NoChange => Success(step)
    case ParseThrows(m) => Failure(m)
    case Update(t, loaded, title, content, choices) =>
      Success(step.(stepType := t, hasLoadedContent := loaded, title := title, content := content, choices := choices))
  }

  /** The text received after the first `n` chunks: `fullContent += chunk`
      once per chunk. */
  function Received(chunks: seq<string>, n: nat): string
    requires n <= |chunks|
  {
    if n == 0 then "" else Received(chunks, n - 1) + chunks[n - 1]
  }

  /** The text received after the first `n` chunks is their concatenation,
      the text the server streamed. */
  lemma {:induction false} ReceivedIsConcat(chunks: seq<string>, n: nat)
    requires n <= |chunks|
    ensures Received(chunks, n) == OpenAiStream.Concat(chunks[..n])
  {
    if n == 0 {
      assert chunks[..0] == [];
    } else {
      ReceivedIsConcat(chunks, n - 1);
      assert chunks[..n] == chunks[..n - 1] + [chunks[n - 1]];
      OpenAiStream.ConcatAppend(chunks[..n - 1], [chunks[n - 1]]);
      OpenAiStream.ConcatSingle(chunks[n - 1]);
    }
  }

  /** The state of the read loop: the step it holds or the exception that
      ended it, the copy last shown on screen, and the content for which the
      illustration was first asked, if any. */
  datatype Reading = Reading(result: Result<StoryStep>, shown: StoryStep, trigger: Option<string>)

  /** The content at which the illustration is asked for: non-empty and
      sufficient. */
  predicate Fires(content: string)
  {
    content != "" && HasSufficientContent(content)
  }

  /** The read loop after the first `n` chunks: each chunk is followed by a
      parse of everything received so far, merged into the step. The first
      exception ends the loop; until then each merged step is shown, and
      the first one whose content passes `fires` asks for the illustration.
      The loop of `generateStreamingStep` uses `Fires`. */
  function Read(chunks: seq<string>, n: nat, t: StepType, parse: Parse, fires: string -> bool): (r: Reading)
    requires n <= |chunks|
    ensures r.result.Success? ==> r.shown == r.result.value
    ensures r.shown.isStreaming
  {
    if n == 0 then Reading(Success(StreamingStart(t)), StreamingStart(t), None)
    else
      var before := Read(chunks, n - 1, t, parse, fires);
      match before.result
      case Failure(_) => before
      case Success(s) =>
        match Merge(s, parse(Received(chunks, n), n - 1))
        case Failure(m) => Reading(Failure(m), before.shown, before.trigger)
        case Success(next) =>
          Reading(Success(next), next, FirstFiring(before.trigger, next.content, fires))
  }

  /** The content that asked for the illustration after `content` is shown:
      the earlier one, if any, else `content` when it fires. */
  function FirstFiring(fired: Option<string>, content: string, fires: string -> bool): Option<string>
  {
    if fired.Some? then fired else if fires(content) then Some(content) else None
  }

  /** One chunk of a loop that has not ended: its parse is merged into the
      step, and the loop ends there if that throws. */
  lemma ReadStep(chunks: seq<string>, k: nat, t: StepType, parse: Parse, fires: string -> bool, step: StoryStep, fired: Option<string>)
    requires 1 <= k <= |chunks| && Read(chunks, k - 1, t, parse, fires) == Reading(Success(step), step, fired)
    ensures var m := Merge(step, parse(Received(chunks, k), k - 1));
      Read(chunks, k, t, parse, fires) ==
        if m.Failure? then Reading(m, step, fired)
        else Reading(m, m.value, FirstFiring(fired, m.value.content, fires))
  {
  }

  /** The illustration is only ever asked for with content that fires it. */
  lemma {:induction false} TriggerFires(chunks: seq<string>, n: nat, t: StepType, parse: Parse, fires: string -> bool)
    requires n <= |chunks|
    ensures Read(chunks, n, t, parse, fires).trigger.Some? ==> fires(Read(chunks, n, t, parse, fires).trigger.value)
  {
    if n > 0 {
      TriggerFires(chunks, n - 1, t, parse, fires);
    }
  }

  /** Every update `parse` makes carries the type `t`. */
  ghost predicate KeepsType(parse: Parse, t: StepType)
  {
    forall buffer, n :: parse(buffer, n).Update? ==> parse(buffer, n).stepType == t
  }

  /** `parseMetadata` for a step of type `t` only ever updates to type `t`. */
  lemma ParserKeepsType(t: StepType, parsing: Parsing)
    ensures KeepsType(ParserFor(t, parsing), t)
  {
    forall buffer, n ensures ParserFor(t, parsing)(buffer, n).Update? ==> ParserFor(t, parsing)(buffer, n).stepType == t {
      assert ParserFor(t, parsing)(buffer, n) == ParseMetadata(buffer, t, parsing.load, parsing.draws(n));
    }
  }

  /** Every step the read loop of a step of type `t` produces has that
      type. */
  lemma {:induction false} ParsedStepsKeepType(chunks: seq<string>, n: nat, t: StepType, parse: Parse, fires: string -> bool)
    requires n <= |chunks| && KeepsType(parse, t)
    ensures var r := Read(chunks, n, t, parse, fires);
      (r.result.Success? ==> r.result.value.stepType == t) && r.shown.stepType == t
  {
    if n > 0 {
      ParsedStepsKeepType(chunks, n - 1, t, parse, fires);
      var before := Read(chunks, n - 1, t, parse, fires);
      if before.result.Success? {
        var u := parse(Received(chunks, n), n - 1);
        assert u.Update? ==> u.stepType == t;
        assert Read(chunks, n, t, parse, fires).result == Merge(before.result.value, u);
      }
    }
  }

  /** After the parse of chunk `k` throws, nothing that follows changes: the
      loop has already ended. */
  lemma {:induction false} AfterFailure(chunks: seq<string>, k: nat, j: nat, t: StepType, parse: Parse, fires: string -> bool)
    requires k <= j <= |chunks|
    requires Read(chunks, k, t, parse, fires).result.Failure?
    ensures Read(chunks, j, t, parse, fires) == Read(chunks, k, t, parse, fires)
  {
    if j > k {
      AfterFailure(chunks, k, j - 1, t, parse, fires);
    }
  }

  /** A chunk that brings in the server's error marker leaves the step as
      it was. */
  lemma MarkerChunkKeepsStep(chunks: seq<string>, n: nat, t: StepType, parsing: Parsing, fires: string -> bool)
    requires 1 <= n <= |chunks| && Read(chunks, n - 1, t, ParserFor(t, parsing), fires).result.Success?
    requires Contains(Received(chunks, n), OpenAiStream.ErrorMarker)
    ensures Read(chunks, n, t, ParserFor(t, parsing), fires).result == Read(chunks, n - 1, t, ParserFor(t, parsing), fires).result
  {
    var u := ParseMetadata(Received(chunks, n), t, parsing.load, parsing.draws(n - 1));
    assert ParserFor(t, parsing)(Received(chunks, n), n - 1) == u == NoChange;
  }

  /** A parse that did not throw left a short text free of `---`. */
  predicate ShortText(r: Result<StoryStep>)
  {
    r.Success? ==> |Trim(r.value.content)| < 98 && !Contains(r.value.content, "---")
  }

  /** A loop in which no merged step passes `fires` never asks for the
      illustration. */
  lemma {:induction false} NoFiringNoTrigger(chunks: seq<string>, n: nat, t: StepType, parse: Parse, fires: string -> bool)
    requires n <= |chunks|
    requires forall j :: 1 <= j <= n && Read(chunks, j, t, parse, fires).result.Success? ==>
      !fires(Read(chunks, j, t, parse, fires).result.value.content)
    ensures Read(chunks, n, t, parse, fires).trigger.None?
  {
    if n > 0 {
      NoFiringNoTrigger(chunks, n - 1, t, parse, fires);
    }
  }

  /** A short text free of `---` does not fire the illustration. */
  lemma ShortTextDoesNotFire(r: Result<StoryStep>)
    requires ShortText(r) && r.Success?
    ensures !Fires(r.value.content)
  {
    ShortContentInsufficient(r.value.content);
  }

  /** A step whose every parsed text is short and free of `---` is never
      illustrated. */
  lemma ShortStepsNotIllustrated(chunks: seq<string>, n: nat, t: StepType, parse: Parse)
    requires n <= |chunks|
    requires forall j :: 1 <= j <= n ==> ShortText(Read(chunks, j, t, parse, Fires).result)
    ensures Read(chunks, n, t, parse, Fires).trigger.None?
  {
    forall j | 1 <= j <= n && Read(chunks, j, t, parse, Fires).result.Success?
      ensures !Fires(Read(chunks, j, t, parse, Fires).result.value.content)
    {
      ShortTextDoesNotFire(Read(chunks, j, t, parse, Fires).result);
    }
    NoFiringNoTrigger(chunks, n, t, parse, Fires);
  }

  /** The metadata check as `regenerateMetadata` and its caller use it: a
      2xx answer whose choices pass `validateChoices` replaces the step's
      choices; anything else fails the step. Only an approval has a 2xx
      status. */
  function GateChoices(regen: RegenCall): (r: Option<seq<JsValue>>)
    ensures r.Some? ==> Validates(r.value)
    ensures r.Some? <==> regen.RegenAnswered? && regen.response.Approved? && Validates(regen.response.choices)
  {
    if regen.RegenAnswered? && regen.response.Approved? && Validates(regen.response.choices)
    then Some(regen.response.choices)
    else None
  }

  /** A list the route approved after generating it passes the browser's
      check too; only a list approved as sent, at the first check, can be
      turned back. */
  lemma GeneratedApprovalPassesGate(body: RegenerateMetadata.RequestJson, apiKey: Option<string>, o: RegenerateMetadata.Oracles)
    requires var r := RegenerateMetadata.Post(body, apiKey, o);
      r.response.Approved? && !(r.checks == 1 && body.Parsed? && RegenerateMetadata.NonEmptyList(Get(body.value, "stepChoices")))
    ensures var r := RegenerateMetadata.Post(body, apiKey, o);
      GateChoices(RegenAnswered(r.response)) == Some(r.response.choices)
  {
    RegenerateMetadata.RegenerationBounds(body, apiKey, o);
  }

  /** The outcome of one generation: the step left on screen, the error
      reported, and the step committed to the history, if any. */
  datatype Outcome = Outcome(shown: StoryStep, error: Option<string>, committed: Option<StoryStep>)

  /** The outcome of `generateStreamingStep` for a step of type `t`. A
      finished stream marks the step loaded and no longer streaming, but the
      copy on screen is only replaced by that step when it is committed. */
  function Generation(t: StepType, reply: StreamReply, parsing: Parsing, regen: RegenCall): Outcome
  {
    match reply
    case FetchRejected(m) => Outcome(StreamingStart(t), Some(m), None)
    case NotOk => Outcome(StreamingStart(t), Some(StepFailed), None)
    case NoBody => Outcome(StreamingStart(t), Some(NoStream), None)
    case Stream(chunks, readError) =>
      var reading := Read(chunks, |chunks|, t, ParserFor(t, parsing), Fires);
      Settle(t, reading.shown, reading.result, readError, regen)
  }

  /** What follows the read loop, given the step on screen and the loop's
      result: a throw or a read error is reported, otherwise the step is
      finished, an educational step gated, and the step committed. */
  function Settle(t: StepType, shown: StoryStep, result: Result<StoryStep>, readError: Option<string>, regen: RegenCall): Outcome
  {
    match result
    case Failure(m) => Outcome(shown, Some(m), None)
    case Success(s) =>
      if readError.Some? then Outcome(s, readError, None)
      else
        var done := s.(isStreaming := false, hasLoadedContent := true);
        if t != Educational then Outcome(done, None, Some(done))
        else
          match GateChoices(regen)
          case None => Outcome(s, Some(ChoicesFailed), None)
          case Some(cs) => Outcome(done.(choices := cs), None, Some(done.(choices := cs)))
  }

  /** A generation either commits a finished step, which is also the one on
      screen, or reports an error and commits nothing, leaving on screen a
      step still marked as streaming. A committed educational step carries
      choices that pass the schema check. */
  lemma GenerationFacts(t: StepType, reply: StreamReply, parsing: Parsing, regen: RegenCall)
    ensures var o := Generation(t, reply, parsing, regen);
      && (o.committed.Some? <==> o.error.None?)
      && (o.committed.Some? ==> o.shown == o.committed.value && !o.shown.isStreaming && o.shown.hasLoadedContent)
      && o.shown.stepType == t
      && (o.error.Some? ==> o.shown.isStreaming)
      && (o.committed.Some? && t == Educational ==> Validates(o.committed.value.choices))
      && (o.committed.Some? ==> reply.Stream? && reply.readError.None? && Read(reply.chunks, |reply.chunks|, t, ParserFor(t, parsing), Fires).result.Success?)
  {
    if reply.Stream? {
      ParserKeepsType(t, parsing);
      ParsedStepsKeepType(reply.chunks, |reply.chunks|, t, ParserFor(t, parsing), Fires);
    }
  }

  /** An educational step is committed only when the metadata check
      approved it and its choices pass the schema check; the check is never
      consulted for other steps. */
  lemma EducationalGate(reply: StreamReply, parsing: Parsing, regen: RegenCall)
    ensures Generation(Educational, reply, parsing, regen).committed.Some? ==>
      regen.RegenAnswered? && regen.response.Approved? && Validates(regen.response.choices)
    ensures forall t: StepType, other: RegenCall :: t != Educational ==> Generation(t, reply, parsing, regen) == Generation(t, reply, parsing, other)
  {
  }
}
