/** The browser's reading of the streamed reply: `parseMetadata`, run on the
    whole text received so far after every chunk, and `hasSufficientContent`,
    which decides when a step is long enough to illustrate. The reply is
    expected to look like `# Title`, a blank line, the story text, a line
    `---`, and YAML holding the choices. */
module StreamParser {
  import opened Base
  import opened Text
  import opened JsValues
  import opened Shuffle
  import opened Adventure
  import OpenAiStream

  /** The line that separates the story text from the YAML. */
  const Separator := "\n---\n"
  const DefaultTitle := "Untitled Step"

  /** The message of the `TypeError` thrown by `choices.sort` when `choices`
      is truthy but not an array; its wording is the JavaScript engine's. */
  const NotSortable := "choices.sort is not a function"

  /** What one parse contributes to the step being streamed: nothing (the
      empty object), the five fields `Object.assign` copies, or an exception. */
  datatype StepUpdate =
    | NoChange
    | Update(stepType: StepType, hasLoadedContent: bool, title: string, content: string, choices: seq<JsValue>)
    | ParseThrows(message: string)

  /** The characters `.+` or `.*` consume from the start of `s`: everything
      up to the first line terminator. */
  function LineOf(s: string): (r: string)
    ensures |r| <= |s| && r == s[..|r|]
    ensures forall i :: 0 <= i < |r| ==> !IsLineTerminator(r[i])
    ensures |r| < |s| ==> IsLineTerminator(s[|r|])
  {
    if s == [] || IsLineTerminator(s[0]) then [] else [s[0]] + LineOf(s[1..])
  }

  /** A line of text followed by a line terminator (or by nothing) is what
      `LineOf` reads back. */
  lemma {:induction false} LineOfPrefix(t: string, rest: string)
    requires forall i :: 0 <= i < |t| ==> !IsLineTerminator(t[i])
    requires rest != [] ==> IsLineTerminator(rest[0])
    ensures LineOf(t + rest) == t
  {
    if t != [] {
      LineOfPrefix(t[1..], rest);
      assert (t + rest)[1..] == t[1..] + rest;
    } else {
      assert t + rest == rest;
    }
  }

  /** `^` under the `m` flag: the start of the text or just after a line
      terminator. */
  predicate LineStart(s: string, p: int)
  {
    p == 0 || (0 < p <= |s| && IsLineTerminator(s[p - 1]))
  }

  /** `/^# (.+)/m` matches at `p`: a line starting with `# ` and at least
      one more character on that line. */
  predicate TitleAt(s: string, p: int)
  {
    LineStart(s, p) && OccursAt(s, "# ", p) && p + 2 < |s| && !IsLineTerminator(s[p + 2])
  }

  /** The leftmost match of the title pattern at or after `from`. */
  function FirstTitle(s: string, from: nat): (r: Option<nat>)
    requires from <= |s|
    ensures r.Some? ==> from <= r.value && TitleAt(s, r.value)
    ensures r.Some? ==> forall j :: from <= j < r.value ==> !TitleAt(s, j)
    ensures r.None? ==> forall j :: from <= j ==> !TitleAt(s, j)
    decreases |s| - from
  {
    if from == |s| then None
    else if TitleAt(s, from) then Some(from)
    else FirstTitle(s, from + 1)
  }

  /** The step's title: the rest of the first `# ` line with text after the
      marker, or "Untitled Step". It is never empty and is a single line. */
  function Title(s: string): (r: string)
    ensures r != []
    ensures forall i :: 0 <= i < |r| ==> !IsLineTerminator(r[i])
  {
    match FirstTitle(s, 0)
    case Some(p) => LineOf(s[p + 2..])
    case None => DefaultTitle
  }

  /** Where the story text begins for the anchored patterns
      `/^# .+\n\n/`: the text must start with a `# ` line holding at least
      one character, immediately followed by a blank line. Only the very
      start of the text is tried, since these patterns have no `m` flag. */
  function ContentStart(s: string): (r: Option<nat>)
    ensures r.Some? ==> 4 < r.value <= |s| && StartsWith(s, "# ") && OccursAt(s, "\n\n", r.value - 2)
  {
    if StartsWith(s, "# ") then
      var line := LineOf(s[2..]);
      if line != [] && OccursAt(s, "\n\n", 2 + |line|) then Some(4 + |line|) else None
    else None
  }

  /** The story text when YAML is present: `/^# .+\n\n([\s\S]*?)\n---\n/`
      captures up to the first separator after the blank line, trimmed; the
      text is empty when that pattern does not match. */
  function YamlBranchContent(s: string): string
  {
    match ContentStart(s)
    case None => ""
    case Some(q) =>
      match IndexOfFrom(s, Separator, q)
      case None => ""
      case Some(e) => Trim(s[q..e])
  }

  /** The story text when no separator has arrived: everything after the
      blank line, trimmed, with every `---` removed. */
  function PlainBranchContent(s: string): (r: string)
    ensures forall i :: !OccursAt(r, "---", i)
  {
    match ContentStart(s)
    case None => ""
    case Some(q) => RemoveDashesLeavesNone(Trim(s[q..])); RemoveAll(Trim(s[q..]), "---")
  }

  /** `metadata.choices || []`. */
  function ChoicesOf(metadata: JsValue): JsValue
  {
    if Truthy(Get(metadata, "choices")) then Get(metadata, "choices") else Arr([])
  }

  /** The branch of `parseMetadata` taken once a separator has arrived,
      given what `yaml.load` made of the text after it. */
  function YamlUpdate(buffer: string, loaded: YamlResult, stepType: StepType, draws: seq<nat>): (r: StepUpdate)
    ensures r.Update? ==> r.stepType == stepType && r.title == Title(buffer) && r.hasLoadedContent
    ensures r.ParseThrows? ==> r.message == NotSortable
  {
    match loaded
    case YamlError => NoChange
    case Loaded(metadata) =>
      if metadata.Undefined? || metadata.Null? then NoChange
      else
        var choices := ChoicesOf(metadata);
        if !choices.Arr? then ParseThrows(NotSortable)
        else Update(stepType, true, Title(buffer), YamlBranchContent(buffer), Shuffled(choices.items, draws))
  }

  /** `parseMetadata(fullContent, context)`, with `yaml.load` as the oracle
      `load` and the random comparator of the final sort as the shuffle
      `draws`. The separator is searched for from the start, and the YAML is
      everything after the first one. A YAML error and a null or undefined
      document are both caught and give the empty update; a truthy
      `choices` that is not a list makes `sort` throw outside the `try`. */
  function ParseMetadata(buffer: string, stepType: StepType, load: string -> YamlResult, draws: seq<nat>): (r: StepUpdate)
    ensures Contains(buffer, OpenAiStream.ErrorMarker) ==> r == NoChange
    ensures r.Update? ==> r.stepType == stepType && r.title == Title(buffer)
    ensures r.Update? ==> (r.hasLoadedContent <==> Contains(buffer, Separator))
    ensures r.Update? && !r.hasLoadedContent ==> r.choices == [] && forall i :: !OccursAt(r.content, "---", i)
    ensures !r.NoChange? ==> Contains(buffer, Separator) || r.Update?
    ensures r.ParseThrows? ==> r.message == NotSortable && Contains(buffer, Separator)
    ensures (!Contains(buffer, OpenAiStream.ErrorMarker) && IndexOf(buffer, Separator).Some? &&
             load(Trim(buffer[IndexOf(buffer, Separator).value + |Separator|..])).YamlError?) ==> r == NoChange
  {
    if Contains(buffer, OpenAiStream.ErrorMarker) then NoChange
    else
      match IndexOf(buffer, Separator)
      case Some(p) => YamlUpdate(buffer, load(Trim(buffer[p + |Separator|..])), stepType, draws)
      case None =>
        Update(stepType, false, Title(buffer), PlainBranchContent(buffer), [])
  }

  /** Once the server's error marker has been received, no later parse of the
      growing text changes the step again. */
  lemma MarkerSticky(buffer: string, more: string, stepType: StepType, load: string -> YamlResult, draws: seq<nat>)
    requires Contains(buffer, OpenAiStream.ErrorMarker)
    ensures ParseMetadata(buffer + more, stepType, load, draws) == NoChange
  {
    ContainsExtended([], buffer, more, OpenAiStream.ErrorMarker);
    assert [] + buffer + more == buffer + more;
  }

  /** When the server's stream fails, before or during the completion, the
      text the browser has received at the end parses to the empty update:
      the step keeps whatever it showed before the failure. */
  lemma StreamFailureLeavesStep(messages: Result<seq<OpenAiStream.Message>>, completion: OpenAiStream.Completion,
                                stepType: StepType, load: string -> YamlResult, draws: seq<nat>)
    requires messages.Failure? || completion.failure.Some?
    ensures ParseMetadata(OpenAiStream.Concat(OpenAiStream.StreamedChunks(messages, completion)), stepType, load, draws) == NoChange
  {
    OpenAiStream.FailureStreamsMarker(messages, completion);
  }

  /** Positions in a reply of the expected shape `# t`, blank line, `body`,
      separator, `yaml`. */
  lemma {:induction false} Layout(t: string, body: string, mid: string, rest: string, s: string)
    requires t != [] && forall i :: 0 <= i < |t| ==> !IsLineTerminator(t[i])
    requires s == "# " + t + "\n\n" + body + mid + rest
    ensures TitleAt(s, 0) && FirstTitle(s, 0) == Some(0) && Title(s) == t
    ensures ContentStart(s) == Some(4 + |t|)
    ensures s[4 + |t|..] == body + mid + rest
  {
    assert s[2..] == t + ("\n\n" + body + mid + rest);
    LineOfPrefix(t, "\n\n" + body + mid + rest);
    assert s[2 + |t|..2 + |t| + 2] == "\n\n";
    assert s[..2] == "# ";
    assert s[2] == t[0];
    assert TitleAt(s, 0);
  }

  /** In a reply of that shape whose story text holds no separator, the
      first separator is the one after the story text. */
  lemma {:induction false} FirstSeparator(t: string, body: string, yaml: string, s: string)
    requires t != [] && forall i :: 0 <= i < |t| ==> !IsLineTerminator(t[i])
    requires !Contains("\n" + body + "\n---", Separator)
    requires s == "# " + t + "\n\n" + body + Separator + yaml
    ensures IndexOf(s, Separator) == Some(4 + |t| + |body|)
    ensures IndexOfFrom(s, Separator, 4 + |t|) == Some(4 + |t| + |body|)
    ensures s[4 + |t| + |body| + |Separator|..] == yaml
    ensures s[4 + |t|..4 + |t| + |body|] == body
  {
    var k := 4 + |t| + |body|;
    var w := "\n" + body + "\n---";
    assert s[3 + |t|..k + 4] == w;
    ContainsIffOccurs(w, Separator);
    assert s[k..k + 5] == Separator;
    assert OccursAt(s, Separator, k);
    forall j | 0 <= j < k
      ensures !OccursAt(s, Separator, j)
    {
      if j < 2 + |t| {
        if j < 2 {
          assert s[j] == "# "[j];
        } else {
          assert s[j] == t[j - 2];
        }
        assert s[j..j + 5][0] == s[j];
      } else if j == 2 + |t| {
        assert s[j + 1] == '\n';
        assert s[j..j + 5][1] == s[j + 1];
      } else {
        assert s[j..j + 5] == w[j - 3 - |t|..j - 3 - |t| + 5];
        assert !OccursAt(w, Separator, j - 3 - |t|);
      }
    }
    var r := IndexOfFrom(s, Separator, 0);
    assert r == Some(k);
    var r2 := IndexOfFrom(s, Separator, 4 + |t|);
    assert r2 == Some(k);
    assert s[k + |Separator|..] == yaml;
    assert s[4 + |t|..k] == body;
  }

  /** The round trip of a complete reply: for `# t`, a blank line, a story
      text without separator, the separator and YAML whose `choices` is a
      list, the parse yields title `t`, the trimmed story text, and the
      choices in some order. */
  lemma FullReplyParses(s: string, t: string, body: string, yaml: string, metadata: JsValue, choices: seq<JsValue>,
                        stepType: StepType, load: string -> YamlResult, draws: seq<nat>)
    requires s == "# " + t + "\n\n" + body + Separator + yaml
    requires t != [] && forall i :: 0 <= i < |t| ==> !IsLineTerminator(t[i])
    requires !Contains("\n" + body + "\n---", Separator)
    requires !Contains(s, OpenAiStream.ErrorMarker)
    requires load(Trim(yaml)) == Loaded(metadata) && Get(metadata, "choices") == Arr(choices)
    ensures var r := ParseMetadata(s, stepType, load, draws);
      && r == Update(stepType, true, t, Trim(body), Shuffled(choices, draws))
      && multiset(r.choices) == multiset(choices)
  {
    var k := ReplyShape(s, t, body, yaml);
    ParsedWithYaml(s, k, t, Trim(body), metadata, choices, stepType, load, draws);
  }

  /** What the parse reads off a reply of the expected shape: the title,
      the story text and where the YAML starts. */
  lemma ReplyShape(s: string, t: string, body: string, yaml: string) returns (k: nat)
    requires s == "# " + t + "\n\n" + body + Separator + yaml
    requires t != [] && forall i :: 0 <= i < |t| ==> !IsLineTerminator(t[i])
    requires !Contains("\n" + body + "\n---", Separator)
    ensures IndexOf(s, Separator) == Some(k) && k + |Separator| <= |s| && s[k + |Separator|..] == yaml
    ensures Title(s) == t && YamlBranchContent(s) == Trim(body)
  {
    Layout(t, body, Separator, yaml, s);
    FirstSeparator(t, body, yaml, s);
    k := 4 + |t| + |body|;
    YamlBranchAt(s, 4 + |t|, k);
  }

  /** The story text of a reply whose text starts at `q` and whose first
      separator after that is at `k`. */
  lemma YamlBranchAt(s: string, q: nat, k: nat)
    requires ContentStart(s) == Some(q) && IndexOfFrom(s, Separator, q) == Some(k)
    ensures q <= k <= |s| && YamlBranchContent(s) == Trim(s[q..k])
  {
  }

  /** The parse of a text holding no error marker, whose first separator is
      at `k` and whose YAML after it gives the list `choices`. */
  lemma ParsedWithYaml(s: string, k: nat, title: string, content: string, metadata: JsValue, choices: seq<JsValue>,
                       stepType: StepType, load: string -> YamlResult, draws: seq<nat>)
    requires !Contains(s, OpenAiStream.ErrorMarker)
    requires IndexOf(s, Separator) == Some(k) && k + |Separator| <= |s|
    requires load(Trim(s[k + |Separator|..])) == Loaded(metadata) && Get(metadata, "choices") == Arr(choices)
    requires Title(s) == title && YamlBranchContent(s) == content
    ensures ParseMetadata(s, stepType, load, draws) == Update(stepType, true, title, content, Shuffled(choices, draws))
  {
    YamlBranchTaken(s, k, stepType, load, draws);
    LoadedChoices(s, metadata, choices, stepType, draws);
  }

  /** Without the marker, the parse is the YAML branch on the text after
      the first separator. */
  lemma YamlBranchTaken(s: string, k: nat, stepType: StepType, load: string -> YamlResult, draws: seq<nat>)
    requires !Contains(s, OpenAiStream.ErrorMarker)
    requires IndexOf(s, Separator) == Some(k) && k + |Separator| <= |s|
    ensures ParseMetadata(s, stepType, load, draws) == YamlUpdate(s, load(Trim(s[k + |Separator|..])), stepType, draws)
  {
  }

  /** A loaded document whose `choices` is a list updates the step with
      that list, shuffled. */
  lemma LoadedChoices(s: string, metadata: JsValue, choices: seq<JsValue>, stepType: StepType, draws: seq<nat>)
    requires Get(metadata, "choices") == Arr(choices)
    ensures YamlUpdate(s, Loaded(metadata), stepType, draws) ==
      Update(stepType, true, Title(s), YamlBranchContent(s), Shuffled(choices, draws))
  {
    assert metadata.Obj?;
    assert ChoicesOf(metadata) == Arr(choices);
  }

  /** A reply whose YAML sets `choices` to a truthy value that is not a list
      makes the parse throw, which ends the whole step generation. */
  lemma UnsortableChoicesThrow(s: string, t: string, body: string, yaml: string, metadata: JsValue,
                               stepType: StepType, load: string -> YamlResult, draws: seq<nat>)
    requires s == "# " + t + "\n\n" + body + Separator + yaml
    requires t != [] && forall i :: 0 <= i < |t| ==> !IsLineTerminator(t[i])
    requires !Contains("\n" + body + "\n---", Separator)
    requires !Contains(s, OpenAiStream.ErrorMarker)
    requires load(Trim(yaml)) == Loaded(metadata)
    requires Truthy(Get(metadata, "choices")) && !Get(metadata, "choices").Arr?
    ensures ParseMetadata(s, stepType, load, draws) == ParseThrows(NotSortable)
  {
    FirstSeparator(t, body, yaml, s);
  }

  /** A reply cut off before the separator shows its story text so far,
      trimmed and with every `---` removed, and no choices. */
  lemma PartialReplyParses(t: string, body: string, stepType: StepType, load: string -> YamlResult, draws: seq<nat>)
    requires t != [] && forall i :: 0 <= i < |t| ==> !IsLineTerminator(t[i])
    requires !Contains("# " + t + "\n\n" + body, Separator)
    requires !Contains("# " + t + "\n\n" + body, OpenAiStream.ErrorMarker)
    ensures ParseMetadata("# " + t + "\n\n" + body, stepType, load, draws) ==
      Update(stepType, false, t, RemoveAll(Trim(body), "---"), [])
  {
    var s := "# " + t + "\n\n" + body;
    Layout(t, body, [], [], s);
    ContainsIffOccurs(s, Separator);
    assert IndexOf(s, Separator).None?;
  }

  /** The number of runs of whitespace in `s` (a run already under way when
      `afterSpace` holds is not counted again). */
  function Runs(s: string, afterSpace: bool): nat
  {
    if s == [] then 0
    else (if IsSpace(s[0]) && !afterSpace then 1 else 0) + Runs(s[1..], IsSpace(s[0]))
  }

  /** `content.trim().split(/\s+/).length`: one piece more than there are
      whitespace runs in the trimmed text (a blank text gives one empty piece). */
  function WordCount(content: string): nat
  {
    1 + Runs(Trim(content), false)
  }

  /** `hasSufficientContent`: at least fifty words, or a `---` anywhere. */
  predicate HasSufficientContent(content: string)
  {
    WordCount(content) >= 50 || Contains(content, "---")
  }

  /** Each whitespace run inside a text that ends in a non-space character is
      followed by a non-space character, so the runs take at least two
      characters each. */
  lemma {:induction false} RunsBound(s: string, afterSpace: bool)
    requires s != [] && !IsSpace(s[|s| - 1])
    ensures 2 * Runs(s, afterSpace) + 1 <= |s| + (if afterSpace then 0 else 1)
  {
    if |s| > 1 {
      RunsBound(s[1..], IsSpace(s[0]));
    }
  }

  /** Fifty words need at least 98 characters after trimming: a shorter text
      without `---` never triggers the illustration. */
  lemma ShortContentInsufficient(content: string)
    requires |Trim(content)| < 98 && !Contains(content, "---")
    ensures !HasSufficientContent(content)
  {
    var t := Trim(content);
    if t != [] {
      RunsBound(t, false);
    }
  }

  /** Runs of a concatenation: the second part starts after the first
      part's last character. */
  lemma {:induction false} RunsConcat(a: string, b: string, afterSpace: bool)
    ensures Runs(a + b, afterSpace) == Runs(a, afterSpace) + Runs(b, if a == [] then afterSpace else IsSpace(a[|a| - 1]))
  {
    if a == [] {
      assert a + b == b;
    } else {
      RunsConcat(a[1..], b, IsSpace(a[0]));
      assert (a + b)[1..] == a[1..] + b;
      if |a| > 1 {
        assert a[1..][|a| - 2] == a[|a| - 1];
      }
    }
  }

  /** A text without whitespace has no whitespace runs. */
  lemma {:induction false} NoRuns(w: string, afterSpace: bool)
    requires forall i :: 0 <= i < |w| ==> !IsSpace(w[i])
    ensures Runs(w, afterSpace) == 0
  {
    if w != [] {
      NoRuns(w[1..], false);
    }
  }

  /** Words joined by single spaces form exactly one run between each pair. */
  lemma {:induction false} JoinedRuns(ws: seq<string>)
    requires |ws| >= 1
    requires forall k :: 0 <= k < |ws| ==> ws[k] != [] && forall i :: 0 <= i < |ws[k]| ==> !IsSpace(ws[k][i])
    ensures var s := Join(ws, ' ');
      && s != [] && !IsSpace(s[0]) && !IsSpace(s[|s| - 1])
      && Runs(s, false) == |ws| - 1
  {
    var s := Join(ws, ' ');
    NoRuns(ws[0], false);
    if |ws| > 1 {
      var rest := Join(ws[1..], ' ');
      JoinedRuns(ws[1..]);
      assert ws[1..][0] == ws[1];
      assert s == ws[0] + ([' '] + rest);
      RunsConcat(ws[0], [' '] + rest, false);
      assert ([' '] + rest)[1..] == rest;
      assert Runs([' '] + rest, false) == 1 + Runs(rest, true);
      assert Runs(rest, true) == Runs(rest[1..], false);
      assert Runs(rest, false) == Runs(rest[1..], false);
      assert s[|s| - 1] == rest[|rest| - 1];
    }
  }

  /** Fifty or more words separated by single spaces are enough. */
  lemma FiftyWordsSuffice(ws: seq<string>)
    requires |ws| >= 50
    requires forall k :: 0 <= k < |ws| ==> ws[k] != [] && forall i :: 0 <= i < |ws[k]| ==> !IsSpace(ws[k][i])
    ensures HasSufficientContent(Join(ws, ' '))
  {
    JoinedRuns(ws);
    TrimOfTrimmed(Join(ws, ' '));
  }
}
