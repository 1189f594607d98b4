/** The `regenerate-metadata` route: up to three rounds of asking the model
    whether the current choices fit the step, and generating a fresh list
    when they do not. The model's replies and the YAML parser are oracles
    passed in; the route's control flow, its schema checks and its error
    answers are modelled. */
module RegenerateMetadata {
  import opened Base
  import opened Text
  import opened JsValues
  import opened Shuffle
  import opened ChoiceValidator
  import opened OpenAiStream

  /** One chat completion: the call throws, or it answers with the first
      choice's message content, which may be missing. */
  datatype ModelReply = Throws | Reply(content: Option<string>)

  /** `validateChoicesForContent`'s reading of the model's answer: the
      trimmed content starts with "VALID"; a failed call or a missing
      content counts as a rejection. */
  predicate Verdict(reply: ModelReply)
  {
    reply.Reply? && reply.content.Some? && StartsWith(Trim(reply.content.value), "VALID")
  }

  /** An answer that begins with "VALID" is accepted whatever follows it,
      "VALIDATION FAILED" included. */
  lemma AcceptsValidPrefix(rest: string)
    ensures Verdict(Reply(Some("VALID" + rest)))
  {
    var s := "VALID" + rest;
    assert s[0] == 'V' && s[4] == 'D';
    assert TrimStart(s) == s;
    var r := TrimEnd(s);
    assert !IsSpace(s[4]);
    assert |r| >= 5;
    assert Trim(s) == r;
    assert r[..5] == s[..5];
  }

  /** An answer whose trimmed text begins with "INVALID" is rejected, as is a
      failed call or a missing message. */
  lemma RejectsInvalid(text: string)
    ensures StartsWith(Trim(text), "INVALID") ==> !Verdict(Reply(Some(text)))
    ensures !Verdict(Throws) && !Verdict(Reply(None))
  {
    if StartsWith(Trim(text), "INVALID") {
      assert Trim(text)[0] == 'I';
    }
  }

  const ValidationLead := "Validate if the given choices are appropriate and correct for the story content. Respond only with 'VALID' or 'INVALID'.\n\nSTORY CONTENT:\n"
  const ChoicesHeader := "\n\nCHOICES:\n"

  /** `${index + 1}. "${choice.text}" (marked as CORRECT)` or `INCORRECT`,
      by the truthiness of `correct`. */
  function ChoiceLine(index: nat, c: JsValue): string
  {
    NatToString(index + 1) + ". \"" + Display(Get(c, "text")) + "\" (marked as "
    + (if Truthy(Get(c, "correct")) then "CORRECT" else "INCORRECT") + ")"
  }

  predicate Nullish(v: JsValue)
  {
    v.Null? || v.Undefined?
  }

  /** `[...].join("\n")`, which is "" for no lines. */
  function Lines(ws: seq<string>): string
  {
    if ws == [] then "" else Join(ws, '\n')
  }

  /** Building the semantic check's prompt throws when an element is null
      or undefined: reading its `text` is a TypeError. */
  predicate PromptThrows(choices: seq<JsValue>)
  {
    exists k :: 0 <= k < |choices| && Nullish(choices[k])
  }

  /** The user message of the semantic check, built when no element is null
      or undefined. */
  function ValidationPrompt(stepContent: JsValue, choices: seq<JsValue>): string
  {
    ValidationLead + Display(stepContent) + ChoicesHeader
    + Lines(seq(|choices|, k requires 0 <= k < |choices| => ChoiceLine(k, choices[k]))) + "\n"
  }

  /** The prompt carries the step's content and every choice, numbered from
      1. */
  lemma ValidationPromptMentions(stepContent: JsValue, choices: seq<JsValue>)
    ensures Contains(ValidationPrompt(stepContent, choices), Display(stepContent))
    ensures forall k :: 0 <= k < |choices| ==> Contains(ValidationPrompt(stepContent, choices), ChoiceLine(k, choices[k]))
  {
    var lines := seq(|choices|, k requires 0 <= k < |choices| => ChoiceLine(k, choices[k]));
    var text := ValidationPrompt(stepContent, choices);
    PromptMentions(stepContent, lines);
    assert forall k :: 0 <= k < |choices| ==> Contains(text, lines[k]) && lines[k] == ChoiceLine(k, choices[k]);
  }

  lemma PromptMentions(stepContent: JsValue, lines: seq<string>)
    ensures var text := ValidationLead + Display(stepContent) + ChoicesHeader + Lines(lines) + "\n";
      Contains(text, Display(stepContent)) && forall k :: 0 <= k < |lines| ==> Contains(text, lines[k])
  {
    var text := ValidationLead + Display(stepContent) + ChoicesHeader + Lines(lines) + "\n";
    OccursInMiddle(ValidationLead, Display(stepContent), ChoicesHeader + Lines(lines) + "\n");
    assert text == ValidationLead + Display(stepContent) + (ChoicesHeader + Lines(lines) + "\n");
    ContainsIffOccurs(text, Display(stepContent));
    forall k | 0 <= k < |lines|
      ensures Contains(text, lines[k])
    {
      JoinContains(lines, '\n', k);
      ContainsExtended(ValidationLead + Display(stepContent) + ChoicesHeader, Lines(lines), "\n", lines[k]);
    }
  }

  /** Every piece of a join occurs in it. */
  lemma {:induction false} JoinContains(ws: seq<string>, sep: char, k: nat)
    requires k < |ws|
    ensures Contains(Join(ws, sep), ws[k])
  {
    if |ws| == 1 {
      assert OccursAt(Join(ws, sep), ws[k], 0);
    } else if k == 0 {
      assert Join(ws, sep) == ws[0] + ([sep] + Join(ws[1..], sep));
      assert OccursAt(Join(ws, sep), ws[0], 0);
    } else {
      JoinContains(ws[1..], sep, k - 1);
      assert Join(ws, sep) == ws[0] + [sep] + Join(ws[1..], sep) + "";
      ContainsExtended(ws[0] + [sep], Join(ws[1..], sep), "", ws[k]);
    }
    ContainsIffOccurs(Join(ws, sep), ws[k]);
  }

  /** Drops the longest prefix of word characters. */
  function SkipWord(s: string): (r: string)
    ensures |r| <= |s| && r == s[|s| - |r|..]
    ensures r != [] ==> !IsWordChar(r[0])
  {
    if s != [] && IsWordChar(s[0]) then SkipWord(s[1..]) else s
  }

  /** `replace(/^```[\w]*`/gm, "")` from a position that is (or is not) the
      start of a line: a fence of three backquotes and the word after it are
      removed where a line starts. */
  function StripFencesFrom(s: string, lineStart: bool): (r: string)
    ensures |r| <= |s|
    decreases |s|
  {
    if s == [] then []
    else if lineStart && StartsWith(s, "```") then StripFencesFrom(SkipWord(s[3..]), false)
    else [s[0]] + StripFencesFrom(s[1..], IsLineTerminator(s[0]))
  }

  function StripFences(s: string): string
  {
    StripFencesFrom(s, true)
  }

  /** Text without three backquotes in a row passes through unchanged. */
  lemma {:induction false} NoFenceUnchanged(s: string, lineStart: bool)
    requires forall i :: !OccursAt(s, "```", i)
    ensures StripFencesFrom(s, lineStart) == s
  {
    if s != [] {
      assert !OccursAt(s, "```", 0);
      forall i ensures !OccursAt(s[1..], "```", i) {
        if 0 <= i && i + 3 <= |s[1..]| {
          assert s[1..][i..i + 3] == s[i + 1..i + 4];
          assert !OccursAt(s, "```", i + 1);
        }
      }
      NoFenceUnchanged(s[1..], IsLineTerminator(s[0]));
    }
  }

  /** Whether the position after `x` is a line start, given whether the
      position before it was. */
  function LineStartAfter(x: string, lineStart: bool): bool
  {
    if x == [] then lineStart else IsLineTerminator(x[|x| - 1])
  }

  /** The fence-free prefix condition survives dropping the first
      character. */
  lemma NoFenceInTail(x: string, y: string)
    requires x != []
    requires forall i :: 0 <= i < |x| ==> !OccursAt(x + y, "```", i)
    ensures forall i :: 0 <= i < |x[1..]| ==> !OccursAt(x[1..] + y, "```", i)
  {
    assert (x + y)[1..] == x[1..] + y;
    forall i | 0 <= i < |x[1..]|
      ensures !OccursAt(x[1..] + y, "```", i)
    {
      assert !OccursAt(x + y, "```", i + 1);
      if i + 3 <= |x[1..] + y| {
        assert (x + y)[i + 1..i + 4] == (x[1..] + y)[i..i + 3];
      }
    }
  }

  lemma LineStartAfterTail(x: string, lineStart: bool)
    requires x != []
    ensures LineStartAfter(x[1..], IsLineTerminator(x[0])) == LineStartAfter(x, lineStart)
  {
    if |x| > 1 {
      assert x[1..][|x[1..]| - 1] == x[|x| - 1];
    }
  }

  /** One step of the rewrite over a character that starts no fence. */
  lemma StripPlainStep(s: string, lineStart: bool)
    requires s != [] && !OccursAt(s, "```", 0)
    ensures StripFencesFrom(s, lineStart) == [s[0]] + StripFencesFrom(s[1..], IsLineTerminator(s[0]))
  {
    assert !StartsWith(s, "```");
  }

  /** A prefix in which no fence starts passes through unchanged. */
  lemma {:induction false} StripThrough(x: string, y: string, lineStart: bool)
    requires forall i :: 0 <= i < |x| ==> !OccursAt(x + y, "```", i)
    ensures StripFencesFrom(x + y, lineStart) == x + StripFencesFrom(y, LineStartAfter(x, lineStart))
  {
    if x != [] {
      StripPlainStep(x + y, lineStart);
      NoFenceInTail(x, y);
      StripThrough(x[1..], y, IsLineTerminator(x[0]));
      LineStartAfterTail(x, lineStart);
      HeadAndTail(x, y, StripFencesFrom(y, LineStartAfter(x, lineStart)));
    } else {
      assert x + y == y;
    }
  }

  /** Splitting off the first character of `x` commutes with appending. */
  lemma HeadAndTail(x: string, y: string, r: string)
    requires x != []
    ensures (x + y)[1..] == x[1..] + y && [x[0]] + (x[1..] + r) == x + r
  {
    assert [x[0]] + x[1..] == x;
  }

  lemma {:induction false} SkipWordPrefix(w: string, rest: string)
    requires forall i :: 0 <= i < |w| ==> IsWordChar(w[i])
    requires rest == [] || !IsWordChar(rest[0])
    ensures SkipWord(w + rest) == rest
  {
    if w != [] {
      assert (w + rest)[1..] == w[1..] + rest;
      SkipWordPrefix(w[1..], rest);
    }
  }

  /** A reply fenced as a YAML code block ("```yaml", the body, "```" on
      lines of their own) loses both fences and the language word, keeping
      the newlines around the body. */
  lemma FencedReply(body: string)
    requires forall i :: !OccursAt(body, "```", i)
    ensures StripFences("```yaml\n" + body + "\n```") == "\n" + body + "\n"
  {
    var x := "\n" + body + "\n";
    assert "```yaml\n" + body + "\n```" == "```yaml" + (x + "```");
    OpeningFence(x + "```");
    NoFenceInLines(body);
    StripThrough(x, "```", false);
    assert LineStartAfter(x, false);
    ClosingFence("```");
    assert x + [] == x;
  }

  /** An opening fence at a line start goes together with its language
      word. */
  lemma OpeningFence(rest: string)
    requires rest != [] && rest[0] == '\n'
    ensures StripFencesFrom("```yaml" + rest, true) == StripFencesFrom(rest, false)
  {
    var s := "```yaml" + rest;
    assert StartsWith(s, "```") && s[3..] == "yaml" + rest;
    SkipWordPrefix("yaml", rest);
  }

  /** A closing fence at a line start disappears. */
  lemma ClosingFence(s: string)
    requires s == "```"
    ensures StripFencesFrom(s, true) == []
  {
    assert StartsWith(s, "```") && s[3..] == [];
    assert SkipWord(s[3..]) == [];
  }

  /** No fence starts inside a body framed by newlines when the body has
      none. */
  lemma NoFenceInLines(body: string)
    requires forall i :: !OccursAt(body, "```", i)
    ensures var x := "\n" + body + "\n"; forall i :: 0 <= i < |x| ==> !OccursAt(x + "```", "```", i)
  {
    var x := "\n" + body + "\n";
    var t := x + "```";
    forall i | 0 <= i < |x|
      ensures !OccursAt(t, "```", i)
    {
      if i + 3 <= |t| {
        if i == 0 {
          assert t[i..i + 3][0] == '\n';
        } else if i + 3 <= |x| - 1 {
          assert t[i..i + 3] == body[i - 1..i + 2];
          assert !OccursAt(body, "```", i - 1);
        } else {
          var j := |x| - 1 - i;
          assert 0 <= j < 3;
          assert t[|x| - 1] == x[|x| - 1] == '\n';
          assert t[i..i + 3][j] == t[|x| - 1];
        }
      }
    }
  }

  const NoContent := "No content generated"
  const InvalidStructure := "Invalid YAML structure"
  const SchemaMismatch := "Generated choices don't match expected schema"
  const CallFailed := "The model call failed"

  /** `generateNewChoices` as a function of the model's reply and of
      `yaml.load`: the reply is trimmed and stripped of code fences, must be
      non-empty, must load to a value with an array `choices`, and that
      array must pass `validateChoices`. Every other case throws. */
  function GeneratedChoices(reply: ModelReply, load: string -> YamlResult): (r: Result<seq<JsValue>>)
    ensures r.Success? ==> Validates(r.value)
    ensures r.Success? ==> reply.Reply? && reply.content.Some?
  {
    if reply.Throws? then Failure(CallFailed)
    else if reply.content.None? then Failure(NoContent)
    else ChoicesIn(StripFences(Trim(reply.content.value)), load)
  }

  /** The part of `generateNewChoices` after the reply has been cleaned. */
  function ChoicesIn(text: string, load: string -> YamlResult): (r: Result<seq<JsValue>>)
    ensures r.Success? ==> Validates(r.value)
    ensures r.Success? ==> text != [] && load(text).Loaded?
  {
    if text == [] then Failure(NoContent)
    else
      match load(text)
      case YamlError => Failure("YAML parse error")
      case Loaded(metadata) =>
        if Nullish(metadata) then Failure(InvalidStructure)
        else
          var choices := Get(metadata, "choices");
          if !Truthy(choices) || !choices.Arr? then Failure(InvalidStructure)
          else if !Validates(choices.items) then Failure(SchemaMismatch)
          else Success(choices.items)
  }

  /** `generateNewChoices`: the parsed list is checked in place by
      `validateChoices`, which leaves a list that passes unchanged, so the
      list returned is the one the YAML held. */
  method GenerateNewChoices(reply: ModelReply, load: string -> YamlResult) returns (r: Result<seq<JsValue>>)
    ensures r == GeneratedChoices(reply, load)
  {
    if reply.Throws? {
      return Failure(CallFailed);
    }
    if reply.content.None? {
      return Failure(NoContent);
    }
    var text := StripFences(Trim(reply.content.value));
    r := LoadChoices(text, load);
  }

  method LoadChoices(text: string, load: string -> YamlResult) returns (r: Result<seq<JsValue>>)
    ensures r == ChoicesIn(text, load)
  {
    if text == [] {
      return Failure(NoContent);
    }
    var loaded := load(text);
    if loaded.YamlError? {
      return Failure("YAML parse error");
    }
    var metadata := loaded.value;
    if Nullish(metadata) {
      return Failure(InvalidStructure);
    }
    var choices := Get(metadata, "choices");
    if !Truthy(choices) || !choices.Arr? {
      return Failure(InvalidStructure);
    }
    var items := choices.items;
    assert ChoicesIn(text, load) == if Validates(items) then Success(items) else Failure(SchemaMismatch);
    var a := new JsValue[|items|](k requires 0 <= k < |items| => items[k]);
    assert a[..] == items;
    var ok := ValidateChoices(a);
    if !ok {
      return Failure(SchemaMismatch);
    }
    r := Success(a[..]);
  }

  /** The answers of the route: 200 with the approved choices in shuffled
      order, the 500 JSON failure (with an empty `choices`), or a plain-text
      error from the guards. */
  datatype RegenResponse =
    | Approved(choices: seq<JsValue>)
    | RegenFailed
    | PlainError(status: nat, message: string)

  /** The oracles of one request: the semantic checker's reply to its n-th
      call with a prompt, the generator's reply to its n-th call, the YAML
      parser, and the draws behind the shuffle. */
  datatype Oracles = Oracles(
    check: (nat, string) -> ModelReply,
    generate: nat -> ModelReply,
    load: string -> YamlResult,
    draws: seq<nat>)

  /** A response together with the number of semantic checks and of
      generations made. */
  datatype Run = Run(response: RegenResponse, checks: nat, generations: nat)

  const Rounds := 3

  /** What one semantic check and one generation come to: the verdict on the
      n-th check of a list, and the list (or the throw) of the n-th
      generation. */
  datatype Steps = Steps(approves: (nat, seq<JsValue>) -> bool, generated: nat -> Result<seq<JsValue>>)

  function Approves(st: Steps, n: nat, cs: seq<JsValue>): bool
  {
    st.approves(n, cs)
  }

  function Generated(st: Steps, n: nat): Result<seq<JsValue>>
  {
    st.generated(n)
  }

  function StepsOf(stepContent: JsValue, o: Oracles): Steps
  {
    Steps((n: nat, cs: seq<JsValue>) => Verdict(o.check(n, ValidationPrompt(stepContent, cs))),
          (n: nat) => GeneratedChoices(o.generate(n), o.load))
  }

  /** The outcome of one round: the request ends, or the loop goes on with
      a generated list and the updated counts. */
  datatype RoundResult =
    | Finished(run: Run)
    | Continue(next: seq<JsValue>, checks: nat, generations: nat)

  /** One round of the loop with `finalChoices` as it stands. A non-empty
      array is checked first (building the prompt throws on a null element);
      approval ends the request with the list shuffled. Otherwise a new list
      is generated, and a throw ends the request with a 500. */
  function Round(finalChoices: JsValue, checks: nat, generations: nat, st: Steps, draws: seq<nat>): RoundResult
  {
    var checked := NonEmptyList(finalChoices);
    if checked && PromptThrows(finalChoices.items) then Finished(Run(RegenFailed, checks, generations))
    else if checked && Approves(st, checks, finalChoices.items) then
      Finished(Run(Approved(Shuffled(finalChoices.items, draws)), checks + 1, generations))
    else
      var checks' := if checked then checks + 1 else checks;
      match Generated(st, generations)
      case Failure(_) => Finished(Run(RegenFailed, checks', generations + 1))
      case Success(cs) => Continue(cs, checks', generations + 1)
  }

  /** Rounds `i` to 2 of the loop; after the third round the request fails. */
  function Attempts(i: nat, finalChoices: JsValue, checks: nat, generations: nat, st: Steps, draws: seq<nat>): (r: Run)
    requires i <= Rounds
    decreases Rounds - i
  {
    if i == Rounds then Run(RegenFailed, checks, generations)
    else
      match Round(finalChoices, checks, generations, st, draws)
      case Finished(run) => run
      case Continue(cs, c, g) => Attempts(i + 1, Arr(cs), c, g, st, draws)
  }

  /** The parsed request body, or a body that is not JSON. */
  datatype RequestJson = Malformed | Parsed(value: JsValue)

  const MissingFields := "Story content, step title, and context are required"

  /** `POST`: the body is read, then the API key is checked, then the body is
      destructured (a null body throws) and `stepContent` and `context` must
      be truthy; a missing `stepChoices` starts the loop from an empty
      list. */
  function Post(body: RequestJson, apiKey: Option<string>, o: Oracles): (r: Run)
    ensures body.Parsed? && ValidateApiKey(apiKey).Some? ==> r == Run(PlainError(500, MissingKeyMessage), 0, 0)
    ensures body.Parsed? && ValidateApiKey(apiKey).None? && !Nullish(body.value) &&
            (!Truthy(Get(body.value, "stepContent")) || !Truthy(Get(body.value, "context"))) ==>
              r == Run(PlainError(400, MissingFields), 0, 0)
    ensures body.Malformed? || (ValidateApiKey(apiKey).None? && Nullish(body.value)) ==> r == Run(RegenFailed, 0, 0)
    ensures r.checks > 0 || r.generations > 0 ==>
      body.Parsed? && ValidateApiKey(apiKey).None? && !Nullish(body.value) &&
      Truthy(Get(body.value, "stepContent")) && Truthy(Get(body.value, "context"))
  {
    if body.Malformed? then Run(RegenFailed, 0, 0)
    else if ValidateApiKey(apiKey).Some? then Run(PlainError(500, MissingKeyMessage), 0, 0)
    else if Nullish(body.value) then Run(RegenFailed, 0, 0)
    else
      var stepContent := Get(body.value, "stepContent");
      var context := Get(body.value, "context");
      var finalChoices := OrElse(Get(body.value, "stepChoices"), Arr([]));
      if !Truthy(stepContent) || !Truthy(context) then Run(PlainError(400, MissingFields), 0, 0)
      else Attempts(0, finalChoices, 0, 0, StepsOf(stepContent, o), o.draws)
  }

  /** The route as a loop over `finalChoices`. */
  method RegeneratePost(body: RequestJson, apiKey: Option<string>, o: Oracles) returns (r: Run)
    ensures r == Post(body, apiKey, o)
  {
    if body.Malformed? {
      return Run(RegenFailed, 0, 0);
    }
    if ValidateApiKey(apiKey).Some? {
      return Run(PlainError(500, MissingKeyMessage), 0, 0);
    }
    if Nullish(body.value) {
      return Run(RegenFailed, 0, 0);
    }
    var stepContent := Get(body.value, "stepContent");
    var context := Get(body.value, "context");
    var finalChoices := OrElse(Get(body.value, "stepChoices"), Arr([]));
    if !Truthy(stepContent) || !Truthy(context) {
      return Run(PlainError(400, MissingFields), 0, 0);
    }
    ghost var st := StepsOf(stepContent, o);
    assert forall n: nat, cs {:trigger o.check(n, ValidationPrompt(stepContent, cs))} :: Approves(st, n, cs) == Verdict(o.check(n, ValidationPrompt(stepContent, cs)));
    assert forall n: nat {:trigger o.generate(n)} :: Generated(st, n) == GeneratedChoices(o.generate(n), o.load);
    r := Rounds3(stepContent, finalChoices, o, st);
  }

  /** One semantic check: `validateChoicesForContent`. */
  method CheckChoices(stepContent: JsValue, choices: seq<JsValue>, n: nat, o: Oracles, ghost st: Steps) returns (ok: bool)
    requires forall n: nat, cs {:trigger o.check(n, ValidationPrompt(stepContent, cs))} :: Approves(st, n, cs) == Verdict(o.check(n, ValidationPrompt(stepContent, cs)))
    ensures ok == Approves(st, n, choices)
  {
    var reply := o.check(n, ValidationPrompt(stepContent, choices));
    ok := Verdict(reply);
  }

  /** One generation, as the loop sees it. */
  method GenerateRound(n: nat, o: Oracles, ghost st: Steps) returns (g: Result<seq<JsValue>>)
    requires forall n: nat {:trigger o.generate(n)} :: Generated(st, n) == GeneratedChoices(o.generate(n), o.load)
    ensures g == Generated(st, n)
  {
    g := GenerateNewChoices(o.generate(n), o.load);
  }

  /** One pass through the loop body. */
  method PlayRound(stepContent: JsValue, finalChoices: JsValue, checks: nat, generations: nat, o: Oracles, ghost st: Steps)
    returns (res: RoundResult)
    requires forall n: nat, cs {:trigger o.check(n, ValidationPrompt(stepContent, cs))} :: Approves(st, n, cs) == Verdict(o.check(n, ValidationPrompt(stepContent, cs)))
    requires forall n: nat {:trigger o.generate(n)} :: Generated(st, n) == GeneratedChoices(o.generate(n), o.load)
    ensures res == Round(finalChoices, checks, generations, st, o.draws)
  {
    var checks' := checks;
    if NonEmptyList(finalChoices) {
      if PromptThrows(finalChoices.items) {
        return Finished(Run(RegenFailed, checks, generations));
      }
      var approved := CheckChoices(stepContent, finalChoices.items, checks, o, st);
      checks' := checks + 1;
      if approved {
        return Finished(Run(Approved(Shuffled(finalChoices.items, o.draws)), checks', generations));
      }
    }
    var generated := GenerateRound(generations, o, st);
    if generated.Failure? {
      return Finished(Run(RegenFailed, checks', generations + 1));
    }
    res := Continue(generated.value, checks', generations + 1);
  }

  /** Round `i` of the loop either ends the request with its run or hands
      the rest of the rounds its generated list and counts. */
  lemma AttemptsStep(i: nat, finalChoices: JsValue, checks: nat, generations: nat, st: Steps, draws: seq<nat>,
                     res: RoundResult)
    requires i < Rounds && res == Round(finalChoices, checks, generations, st, draws)
    ensures res.Finished? ==> Attempts(i, finalChoices, checks, generations, st, draws) == res.run
    ensures res.Continue? ==>
      Attempts(i, finalChoices, checks, generations, st, draws) ==
      Attempts(i + 1, Arr(res.next), res.checks, res.generations, st, draws)
  {
  }

  /** The `for` loop of `POST`: at most three rounds of checking the current
      list and generating the next. */
  method Rounds3(stepContent: JsValue, initial: JsValue, o: Oracles, ghost st: Steps) returns (r: Run)
    requires forall n: nat, cs {:trigger o.check(n, ValidationPrompt(stepContent, cs))} :: Approves(st, n, cs) == Verdict(o.check(n, ValidationPrompt(stepContent, cs)))
    requires forall n: nat {:trigger o.generate(n)} :: Generated(st, n) == GeneratedChoices(o.generate(n), o.load)
    ensures r == Attempts(0, initial, 0, 0, st, o.draws)
  {
    var finalChoices := initial;
    var checks, generations := 0, 0;
    var i := 0;
    ghost var goal := Attempts(i, finalChoices, checks, generations, st, o.draws);
    while i < Rounds
      invariant 0 <= i <= Rounds
      invariant Attempts(i, finalChoices, checks, generations, st, o.draws) == goal
    {
      var res := PlayRound(stepContent, finalChoices, checks, generations, o, st);
      AttemptsStep(i, finalChoices, checks, generations, st, o.draws, res);
      if res.Finished? {
        return res.run;
      }
      finalChoices, checks, generations := Arr(res.next), res.checks, res.generations;
      i := i + 1;
    }
    r := Run(RegenFailed, checks, generations);
  }

  /** Checking a list is blind to its order. */
  lemma ValidatesPermutation(s: seq<JsValue>, t: seq<JsValue>)
    requires multiset(s) == multiset(t)
    requires Validates(s)
    ensures Validates(t)
  {
    assert |t| == |multiset(t)| == |s|;
    forall k | 0 <= k < |t|
      ensures ChoicePasses(t[k])
    {
      assert t[k] in multiset(s);
      var j :| 0 <= j < |s| && s[j] == t[k];
    }
  }

  /** `Array.isArray(v) && v.length > 0`. */
  predicate NonEmptyList(v: JsValue)
  {
    v.Arr? && |v.items| > 0
  }

  /** Every list a generation hands back passes the schema check. */
  ghost predicate GenerationsValidate(st: Steps)
  {
    forall n: nat :: Generated(st, n).Success? ==> Validates(Generated(st, n).value)
  }

  lemma StepsOfValidate(stepContent: JsValue, o: Oracles)
    ensures GenerationsValidate(StepsOf(stepContent, o))
  {
    var st := StepsOf(stepContent, o);
    forall n: nat
      ensures Generated(st, n).Success? ==> Validates(Generated(st, n).value)
    {
      assert Generated(st, n) == GeneratedChoices(o.generate(n), o.load);
    }
  }

  /** One round makes at most one check and one generation, checks only a
      non-empty list, and an approval it gives is of that list, reordered. */
  lemma RoundFacts(finalChoices: JsValue, checks: nat, generations: nat, st: Steps, draws: seq<nat>)
    ensures match Round(finalChoices, checks, generations, st, draws)
      case Finished(r) =>
        && checks <= r.checks <= checks + 1 && generations <= r.generations <= generations + 1
        && (r.checks == checks + 1 ==> NonEmptyList(finalChoices))
        && (r.response.Approved? ==>
              r.checks == checks + 1 && r.generations == generations
              && multiset(r.response.choices) == multiset(finalChoices.items))
        && !r.response.PlainError?
      case Continue(cs, c, g) =>
        && (c == checks + 1 <==> NonEmptyList(finalChoices)) && (c == checks || c == checks + 1)
        && g == generations + 1
        && Generated(st, generations) == Success(cs)
  {
  }

  /** What rounds `i` to 2 can do: at most one check and one generation per
      round, a check is skipped only where there is nothing to check, and
      using every remaining generation means failure. */
  lemma {:induction false} AttemptsCounts(i: nat, finalChoices: JsValue, checks: nat, generations: nat, st: Steps, draws: seq<nat>)
    requires i <= Rounds
    ensures var r := Attempts(i, finalChoices, checks, generations, st, draws);
      && checks <= r.checks <= checks + (Rounds - i)
      && generations <= r.generations <= generations + (Rounds - i)
      && (r.generations == generations + (Rounds - i) ==> r.response == RegenFailed)
      && (r.response.Approved? ==> r.checks > checks)
      && r.checks - checks <= r.generations - generations + 1
      && (!NonEmptyList(finalChoices) ==> r.checks - checks <= r.generations - generations)
    decreases Rounds - i
  {
    if i < Rounds {
      RoundFacts(finalChoices, checks, generations, st, draws);
      match Round(finalChoices, checks, generations, st, draws)
      case Finished(_) =>
      case Continue(cs, c, g) =>
        AttemptsCounts(i + 1, Arr(cs), c, g, st, draws);
    }
  }

  /** An approved list is a reordering either of the list as it stood, when
      it was approved at the first check, or of a generated list that passed
      the schema check. */
  lemma {:induction false} AttemptsApproved(i: nat, finalChoices: JsValue, checks: nat, generations: nat, st: Steps, draws: seq<nat>)
    requires i <= Rounds
    requires GenerationsValidate(st)
    ensures var r := Attempts(i, finalChoices, checks, generations, st, draws);
      && (r.response.Approved? && r.checks == checks + 1 && NonEmptyList(finalChoices) ==>
            multiset(r.response.choices) == multiset(finalChoices.items))
      && (r.response.Approved? && !(r.checks == checks + 1 && NonEmptyList(finalChoices)) ==>
            Validates(r.response.choices))
    decreases Rounds - i
  {
    if i < Rounds {
      RoundFacts(finalChoices, checks, generations, st, draws);
      match Round(finalChoices, checks, generations, st, draws)
      case Finished(_) =>
      case Continue(cs, c, g) =>
        var r := Attempts(i + 1, Arr(cs), c, g, st, draws);
        AttemptsApproved(i + 1, Arr(cs), c, g, st, draws);
        AttemptsCounts(i + 1, Arr(cs), c, g, st, draws);
        if r.response.Approved? && r.checks == c + 1 {
          assert Validates(cs);
          ValidatesPermutation(cs, r.response.choices);
        }
    }
  }

  /** The route makes at most three checks and three generations; a third
      generated list is never checked, so a run that generates three times
      fails; approval needs a check, and what is approved is the request's
      own list reordered (after the first check) or a generated list that
      passed the schema check. */
  lemma RegenerationBounds(body: RequestJson, apiKey: Option<string>, o: Oracles)
    ensures var r := Post(body, apiKey, o);
      && r.checks <= 3 && r.generations <= 3
      && (r.generations == 3 ==> r.response == RegenFailed)
      && (r.response.Approved? ==> r.checks >= 1)
      && (r.response.Approved? && r.checks == 1 && body.Parsed? && NonEmptyList(Get(body.value, "stepChoices")) ==>
            multiset(r.response.choices) == multiset(Get(body.value, "stepChoices").items))
      && (r.response.Approved? && !(r.checks == 1 && body.Parsed? && NonEmptyList(Get(body.value, "stepChoices"))) ==>
            Validates(r.response.choices))
  {
    if body.Parsed? && ValidateApiKey(apiKey).None? && !Nullish(body.value) {
      var stepContent := Get(body.value, "stepContent");
      var finalChoices := OrElse(Get(body.value, "stepChoices"), Arr([]));
      StepsOfValidate(stepContent, o);
      AttemptsCounts(0, finalChoices, 0, 0, StepsOf(stepContent, o), o.draws);
      AttemptsApproved(0, finalChoices, 0, 0, StepsOf(stepContent, o), o.draws);
    }
  }

  /** A request whose own list holds a null or undefined element fails
      before the model is ever asked: building the first check's prompt
      throws. */
  lemma NullChoiceFails(body: RequestJson, apiKey: Option<string>, o: Oracles)
    requires body.Parsed? && !Nullish(body.value) && ValidateApiKey(apiKey).None?
    requires Truthy(Get(body.value, "stepContent")) && Truthy(Get(body.value, "context"))
    requires NonEmptyList(Get(body.value, "stepChoices")) && PromptThrows(Get(body.value, "stepChoices").items)
    ensures Post(body, apiKey, o) == Run(RegenFailed, 0, 0)
  {
  }

  /** When the first check approves the request's own non-empty list, the
      answer is that list in shuffled order, after one check and no
      generation. */
  lemma FirstCheckApproves(body: RequestJson, apiKey: Option<string>, o: Oracles)
    requires body.Parsed? && !Nullish(body.value) && ValidateApiKey(apiKey).None?
    requires Truthy(Get(body.value, "stepContent")) && Truthy(Get(body.value, "context"))
    requires NonEmptyList(Get(body.value, "stepChoices")) && !PromptThrows(Get(body.value, "stepChoices").items)
    requires Verdict(o.check(0, ValidationPrompt(Get(body.value, "stepContent"), Get(body.value, "stepChoices").items)))
    ensures Post(body, apiKey, o) == Run(Approved(Shuffled(Get(body.value, "stepChoices").items, o.draws)), 1, 0)
  {
    var choices := Get(body.value, "stepChoices");
    var st := StepsOf(Get(body.value, "stepContent"), o);
    PostStartsLoop(body, apiKey, o);
    assert OrElse(choices, Arr([])) == choices;
    assert Approves(st, 0, choices.items);
    FirstRoundApproves(choices, st, o.draws);
  }

  /** A well-formed request with its fields present goes into the loop. */
  lemma PostStartsLoop(body: RequestJson, apiKey: Option<string>, o: Oracles)
    requires body.Parsed? && !Nullish(body.value) && ValidateApiKey(apiKey).None?
    requires Truthy(Get(body.value, "stepContent")) && Truthy(Get(body.value, "context"))
    ensures Post(body, apiKey, o) ==
      Attempts(0, OrElse(Get(body.value, "stepChoices"), Arr([])), 0, 0, StepsOf(Get(body.value, "stepContent"), o), o.draws)
  {
  }

  /** A first list that is checked and approved ends the loop at once. */
  lemma FirstRoundApproves(finalChoices: JsValue, st: Steps, draws: seq<nat>)
    requires NonEmptyList(finalChoices) && !PromptThrows(finalChoices.items) && Approves(st, 0, finalChoices.items)
    ensures Attempts(0, finalChoices, 0, 0, st, draws) == Run(Approved(Shuffled(finalChoices.items, draws)), 1, 0)
  {
  }
}
