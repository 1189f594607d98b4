/** The server side of a streamed step: the API-key check, the chat
    messages built from the recent history, and the stream that forwards
    the model's text and, on failure, an error marker. */
module OpenAiStream {
  import opened Base
  import opened Text
  import opened JsValues
  import opened Adventure

  const MissingKeyMessage := "OpenAI API key not configured. Please set OPENAI_API_KEY in your .env.local file."

  /** `validateApiKey`, with the value of OPENAI_API_KEY passed in (`None`
      when it is unset): no message exactly when the key is set and
      non-empty. */
  function ValidateApiKey(key: Option<string>): (r: Option<string>)
    ensures r.None? <==> key.Some? && key.value != ""
    ensures r.Some? ==> r.value == MissingKeyMessage
  {
    if key.None? || key.value == "" then Some(MissingKeyMessage) else None
  }

  /** The index `slice` starts from: a negative start counts back from the
      end, and one still negative after that becomes 0. */
  function SliceIndex(i: int, len: nat): (r: nat)
    ensures r <= len
  {
    if i < 0 then (if len + i < 0 then 0 else len + i)
    else if i > len then len
    else i
  }

  /** `history.slice(history.length - 5, history.length)`. For a history of
      three or four entries the start `len - 5` is negative and is counted
      back from the end, so the window holds two entries or one, not all of
      them. */
  function Window<T>(h: seq<T>): (r: seq<T>)
    ensures |r| <= 5 && |r| <= |h|
    ensures r == h[|h| - |r|..]
    ensures |h| >= 5 ==> |r| == 5
    ensures |h| <= 2 ==> r == h
    ensures |h| == 3 ==> |r| == 2
    ensures |h| == 4 ==> |r| == 1
  {
    h[SliceIndex(|h| - 5, |h|)..]
  }

  datatype Role = System | Assistant | User
  datatype Message = Message(role: Role, content: string)

  /** `content.split("---")[0]`: the text before the first "---". */
  function BeforeSeparator(s: string): (r: string)
    ensures StartsWith(s, r)
    ensures forall j :: !OccursAt(r, "---", j)
  {
    match IndexOf(s, "---")
    case None => s
    case Some(i) =>
      assert forall j :: OccursAt(s[..i], "---", j) ==> OccursAt(s, "---", j) by {
        forall j | OccursAt(s[..i], "---", j) ensures OccursAt(s, "---", j) {
          assert s[..i][j..j + 3] == s[j..j + 3];
        }
      }
      s[..i]
  }

  const Ellipsis := "...\n\n..."

  /** The content kept for a step with choices: whole when it has at most 100
      space-separated words, otherwise its first 50 words and its last 50
      words around an ellipsis. */
  function Abridged(content: string): string
  {
    var words := Split(content, ' ');
    if |words| > 100 then Join(words[..50], ' ') + Ellipsis + Join(words[|words| - 50..], ' ')
    else content
  }

  /** An abridged content begins with the content's own first 50 words and
      ends with its own last 50 words; a short content is kept whole. */
  lemma AbridgedKeepsEnds(content: string)
    ensures var words := Split(content, ' ');
      |words| > 100 ==>
        var first := Join(words[..50], ' ');
        var last := Join(words[|words| - 50..], ' ');
        StartsWith(content, first + " ") && StartsWith(Abridged(content), first + Ellipsis) &&
        EndsWith(content, last) && EndsWith(Abridged(content), last)
    ensures |Split(content, ' ')| <= 100 ==> Abridged(content) == content
  {
    var words := Split(content, ' ');
    if |words| > 100 {
      var first := Join(words[..50], ' ');
      var last := Join(words[|words| - 50..], ' ');
      JoinSplit(content, ' ');
      JoinAt(words, ' ', 50);
      JoinAt(words, ' ', |words| - 50);
      var middle := Join(words[..|words| - 50], ' ');
      assert content == first + [' '] + Join(words[50..], ' ');
      assert (first + [' '] + Join(words[50..], ' '))[..|first| + 1] == first + " ";
      assert content == middle + [' '] + last;
      assert (middle + [' '] + last)[|middle| + 1..] == last;
      var a := Abridged(content);
      assert a == first + Ellipsis + last;
      StartsWithConcat(first + Ellipsis, last);
      assert (first + Ellipsis + last)[|first + Ellipsis|..] == last;
      assert (first + Ellipsis + last)[..|first + Ellipsis|] == first + Ellipsis;
    }
  }

  /** The message V8 gives for reading a property of `undefined`. */
  const UndefinedSliceMessage := "Cannot read properties of undefined (reading 'slice')"

  /** The header every summary starts with. */
  function SummaryHeader(title: string): string
  {
    "# " + title + "\n\n"
  }

  /** The summary of one history entry sent as an assistant message; `dump`
      is `yaml.dump` applied to `{ choices }`. An entry without step fields
      (the one made up for an empty history) has no content to slice, so
      building its summary throws. */
  function Summary(e: ContextEntry, dump: seq<JsValue> -> string): (r: Result<string>)
    ensures r.Success? <==> e.step.Some?
    ensures r.Success? ==> StartsWith(r.value, SummaryHeader(e.step.value.title))
    ensures r.Success? && e.step.value.choices == [] ==>
      r.value == SummaryHeader(e.step.value.title) + e.step.value.content[..Min(200, |e.step.value.content|)]
    ensures r.Success? && e.step.value.choices != [] ==>
      r.value == SummaryHeader(e.step.value.title) + Abridged(BeforeSeparator(e.step.value.content)) +
                 "\n\n---\n" + dump(e.step.value.choices)
  {
    match e.step
    case None => Failure(UndefinedSliceMessage)
    case Some(step) =>
      var header := SummaryHeader(step.title);
      var body :=
        if |step.choices| > 0 then
          Abridged(BeforeSeparator(step.content)) + "\n\n---\n" + dump(step.choices)
        else step.content[..Min(200, |step.content|)];
      StartsWithConcat(header, body);
      Success(header + body)
  }

  /** The summary of a step with choices keeps the text before its
      separator: whole when it has at most 100 words, otherwise starting
      with its first 50 words and the ellipsis, and ending with its last 50
      words just before the choices. */
  lemma SummaryKeepsEnds(e: ContextEntry, dump: seq<JsValue> -> string)
    requires e.step.Some? && e.step.value.choices != []
    ensures var c := BeforeSeparator(e.step.value.content);
      var words := Split(c, ' ');
      var tail := "\n\n---\n" + dump(e.step.value.choices);
      var body := Summary(e, dump).value[|SummaryHeader(e.step.value.title)|..];
      && (|words| <= 100 ==> body == c + tail)
      && (|words| > 100 ==>
            StartsWith(body, Join(words[..50], ' ') + Ellipsis) &&
            EndsWith(body[..|body| - |tail|], Join(words[|words| - 50..], ' ')))
  {
    var c := BeforeSeparator(e.step.value.content);
    var words := Split(c, ' ');
    var tail := "\n\n---\n" + dump(e.step.value.choices);
    var header := SummaryHeader(e.step.value.title);
    var a := Abridged(c);
    assert Summary(e, dump).value == header + a + tail;
    assert (header + a + tail)[|header|..] == a + tail;
    AbridgedKeepsEnds(c);
    if |words| > 100 {
      var first := Join(words[..50], ' ') + Ellipsis;
      assert (a + tail)[..|first|] == a[..|first|];
      assert (a + tail)[..|a + tail| - |tail|] == a;
    }
  }

  /** The user message that follows a summary: the choice made on that step,
      or "Continue". */
  function UserTurn(e: ContextEntry): string
  {
    if Truthy(e.choice) then Display(e.choice) else "Continue"
  }

  /** `Summary` with the given dump of the choices, as a function of the
      entry. */
  function Summarizer(dump: seq<JsValue> -> string): ContextEntry -> Result<string>
  {
    e => Summary(e, dump)
  }

  /** The `flatMap` over the window: two messages per entry, a summary from
      the assistant and then the user's turn; the first summary that throws
      ends it. `summarize` is `Summary` with the dump of the choices
      (`Summarizer`). */
  function StepMessages(w: seq<ContextEntry>, summarize: ContextEntry -> Result<string>): (r: Result<seq<Message>>)
    ensures r.Success? <==> forall k :: 0 <= k < |w| ==> summarize(w[k]).Success?
    ensures r.Success? ==> |r.value| == 2 * |w|
  {
    if w == [] then Success([])
    else
      var rest := StepMessages(w[1..], summarize);
      assert forall k :: 1 <= k < |w| ==> w[1..][k - 1] == w[k];
      match summarize(w[0])
      case Failure(m) => Failure(m)
      case Success(summary) =>
        if rest.Failure? then rest
        else
          Success([Message(Assistant, summary), Message(User, UserTurn(w[0]))] + rest.value)
  }

  /** The messages of a window alternate, from the assistant first. */
  lemma {:induction false} StepMessagesRoles(w: seq<ContextEntry>, summarize: ContextEntry -> Result<string>)
    requires StepMessages(w, summarize).Success?
    ensures var r := StepMessages(w, summarize).value;
      forall k :: 0 <= k < |r| ==> r[k].role == (if k % 2 == 0 then Assistant else User)
  {
    if w != [] {
      StepMessagesCons(w, summarize);
      StepMessagesRoles(w[1..], summarize);
      RolesAlternate(StepMessages(w, summarize).value, StepMessages(w[1..], summarize).value);
    }
  }

  /** Two messages, from the assistant and then the user, in front of
      alternating messages keep them alternating. */
  lemma RolesAlternate(r: seq<Message>, rest: seq<Message>)
    requires |r| == |rest| + 2 && r[0].role == Assistant && r[1].role == User && r[2..] == rest
    requires forall k :: 0 <= k < |rest| ==> rest[k].role == (if k % 2 == 0 then Assistant else User)
    ensures forall k :: 0 <= k < |r| ==> r[k].role == (if k % 2 == 0 then Assistant else User)
  {
    forall k | 2 <= k < |r|
      ensures r[k].role == (if k % 2 == 0 then Assistant else User)
    {
      assert r[k] == rest[k - 2];
      assert (k - 2) % 2 == k % 2;
    }
  }

  /** The first two messages of a window's messages come from its first
      entry; the rest are the messages of the rest of the window. */
  lemma StepMessagesCons(w: seq<ContextEntry>, summarize: ContextEntry -> Result<string>)
    requires w != [] && StepMessages(w, summarize).Success?
    ensures var full := StepMessages(w, summarize).value;
      && summarize(w[0]) == Success(full[0].content)
      && full[1].content == UserTurn(w[0])
      && full[0].role == Assistant && full[1].role == User
      && StepMessages(w[1..], summarize).Success?
      && full[2..] == StepMessages(w[1..], summarize).value
  {
  }

  /** After the first two messages come those of the rest of the window. */
  lemma StepMessagesTail(w: seq<ContextEntry>, summarize: ContextEntry -> Result<string>)
    requires w != [] && StepMessages(w, summarize).Success?
    ensures StepMessages(w[1..], summarize).Success?
    ensures StepMessages(w, summarize).value[2..] == StepMessages(w[1..], summarize).value
  {
  }

  /** Dropping the first two messages moves every pair one place down. */
  lemma PairShift(full: seq<Message>, rest: seq<Message>, k: nat)
    requires 0 < k && 2 * k + 1 < |full| && full[2..] == rest
    ensures full[2 * k] == rest[2 * (k - 1)] && full[2 * k + 1] == rest[2 * (k - 1) + 1]
  {
    var i := 2 * (k - 1);
    assert 2 * k == i + 2 && 2 * k + 1 == i + 3 && 2 * (k - 1) + 1 == i + 1;
    assert full[2..][i] == full[i + 2];
    assert full[2..][i + 1] == full[i + 3];
  }

  /** The first message for the `k`-th entry of the window is its
      summary. */
  lemma {:induction false} SummaryAt(w: seq<ContextEntry>, summarize: ContextEntry -> Result<string>, k: nat)
    requires StepMessages(w, summarize).Success? && k < |w|
    ensures summarize(w[k]) == Success(StepMessages(w, summarize).value[2 * k].content)
  {
    if k == 0 {
      StepMessagesCons(w, summarize);
    } else {
      StepMessagesTail(w, summarize);
      SummaryAt(w[1..], summarize, k - 1);
      PairShift(StepMessages(w, summarize).value, StepMessages(w[1..], summarize).value, k);
      assert w[1..][k - 1] == w[k];
    }
  }

  /** The second message for the `k`-th entry of the window is the user's
      turn on it. */
  lemma {:induction false} UserTurnAt(w: seq<ContextEntry>, summarize: ContextEntry -> Result<string>, k: nat)
    requires StepMessages(w, summarize).Success? && k < |w|
    ensures StepMessages(w, summarize).value[2 * k + 1].content == UserTurn(w[k])
  {
    if k == 0 {
      StepMessagesCons(w, summarize);
    } else {
      StepMessagesTail(w, summarize);
      UserTurnAt(w[1..], summarize, k - 1);
      PairShift(StepMessages(w, summarize).value, StepMessages(w[1..], summarize).value, k);
      assert w[1..][k - 1] == w[k];
    }
  }

  function ProgressLine(userPrompt: string, progress: int): string
  {
    userPrompt + "\n\nCURRENT GAME STATE:\n- Progress: " + IntToString(progress) + "%"
  }

  /** The messages of `createStreamingResponse`: the system prompt, two
      messages per entry of the history window, and the user prompt with the
      progress. */
  function BuildMessages(systemPrompt: string, userPrompt: string, history: seq<ContextEntry>,
                         progress: int, dump: seq<JsValue> -> string): (r: Result<seq<Message>>)
    ensures r.Success? <==> forall k :: 0 <= k < |Window(history)| ==> Window(history)[k].step.Some?
    ensures r.Success? ==> |r.value| == 2 * |Window(history)| + 2 <= 12
    ensures r.Success? ==> r.value[0] == Message(System, systemPrompt)
    ensures r.Success? ==> r.value[|r.value| - 1] == Message(User, ProgressLine(userPrompt, progress))
    ensures r.Success? ==> forall k :: 1 <= k < |r.value| - 1 ==>
      r.value[k].role == (if k % 2 == 1 then Assistant else User)
  {
    var w := Window(history);
    match StepMessages(w, Summarizer(dump))
    case Failure(m) => Failure(m)
    case Success(middle) =>
      var last := Message(User, ProgressLine(userPrompt, progress));
      StepMessagesRoles(w, Summarizer(dump));
      FramedRoles(Message(System, systemPrompt), middle, last);
      Success([Message(System, systemPrompt)] + middle + [last])
  }

  /** Framing an alternating list keeps it alternating from index 1 on. */
  lemma FramedRoles(first: Message, middle: seq<Message>, last: Message)
    requires forall k :: 0 <= k < |middle| ==> middle[k].role == (if k % 2 == 0 then Assistant else User)
    ensures var r := [first] + middle + [last];
      |r| == |middle| + 2 && r[0] == first && r[|r| - 1] == last &&
      forall k :: 1 <= k < |r| - 1 ==> r[k].role == (if k % 2 == 1 then Assistant else User)
  {
    var r := [first] + middle + [last];
    forall k | 1 <= k < |r| - 1 ensures r[k].role == (if k % 2 == 1 then Assistant else User) {
      assert r[k] == middle[k - 1];
      assert (k - 1) % 2 == 0 <==> k % 2 == 1;
    }
  }

  /** Something thrown while streaming: an `Error` with its message, or any
      other value. */
  datatype Thrown = ErrorWith(message: string) | NonError

  /** What the chat completion yields: the text deltas that arrive (an
      absent delta is ""), then possibly a throw. A throw with no deltas is
      the request itself failing. */
  datatype Completion = Completion(deltas: seq<string>, failure: Option<Thrown>)

  const ErrorMarker := "---ERROR---"

  /** The text enqueued when the stream fails. */
  function ErrorText(t: Thrown): string
  {
    "\n\n" + ErrorMarker + "\nFailed to generate content: " + (if t.ErrorWith? then t.message else "Unknown error")
  }

  lemma ErrorTextHasMarker(t: Thrown)
    ensures Contains(ErrorText(t), ErrorMarker)
  {
    var rest := "\nFailed to generate content: " + (if t.ErrorWith? then t.message else "Unknown error");
    OccursInMiddle("\n\n", ErrorMarker, rest);
    assert ErrorText(t) == "\n\n" + ErrorMarker + rest;
    ContainsIffOccurs(ErrorText(t), ErrorMarker);
  }

  function NonEmpty(xs: seq<string>): (r: seq<string>)
    ensures forall k :: 0 <= k < |r| ==> r[k] != ""
  {
    if xs == [] then []
    else if xs[0] == "" then NonEmpty(xs[1..])
    else [xs[0]] + NonEmpty(xs[1..])
  }

  /** Dropping the empty chunks does not change the text. */
  lemma {:induction false} ConcatNonEmpty(xs: seq<string>)
    ensures Concat(NonEmpty(xs)) == Concat(xs)
  {
    if xs != [] {
      ConcatNonEmpty(xs[1..]);
    }
  }

  function Concat(xs: seq<string>): string
  {
    if xs == [] then "" else xs[0] + Concat(xs[1..])
  }

  lemma {:induction false} ConcatAppend(xs: seq<string>, ys: seq<string>)
    ensures Concat(xs + ys) == Concat(xs) + Concat(ys)
  {
    if xs != [] {
      assert (xs + ys)[1..] == xs[1..] + ys;
      ConcatAppend(xs[1..], ys);
      assert Concat(xs + ys) == xs[0] + Concat(xs[1..] + ys);
    } else {
      assert xs + ys == ys;
    }
  }

  /** The chunks the stream enqueues, in order. */
  function StreamedChunks(messages: Result<seq<Message>>, completion: Completion): seq<string>
  {
    if messages.Failure? then [ErrorText(ErrorWith(messages.message))]
    else NonEmpty(completion.deltas) + (if completion.failure.Some? then [ErrorText(completion.failure.value)] else [])
  }

  /** Whenever building the messages or streaming fails, the text the client
      receives holds the error marker. */
  lemma FailureStreamsMarker(messages: Result<seq<Message>>, completion: Completion)
    requires messages.Failure? || completion.failure.Some?
    ensures Contains(Concat(StreamedChunks(messages, completion)), ErrorMarker)
  {
    if messages.Failure? {
      var e := ErrorText(ErrorWith(messages.message));
      ErrorTextHasMarker(ErrorWith(messages.message));
      ConcatSingle(e);
    } else {
      var e := ErrorText(completion.failure.value);
      var pre := NonEmpty(completion.deltas);
      ConcatAppend(pre, [e]);
      ConcatSingle(e);
      ErrorTextHasMarker(completion.failure.value);
      ContainsExtended(Concat(pre), e, "", ErrorMarker);
      assert Concat(pre) + e + "" == Concat(pre) + e;
    }
  }

  /** Otherwise the client receives exactly the model's text. */
  lemma SuccessStreamsDeltas(messages: Result<seq<Message>>, completion: Completion)
    requires messages.Success? && completion.failure.None?
    ensures Concat(StreamedChunks(messages, completion)) == Concat(completion.deltas)
  {
    assert StreamedChunks(messages, completion) == NonEmpty(completion.deltas) + [];
    assert NonEmpty(completion.deltas) + [] == NonEmpty(completion.deltas);
    ConcatNonEmpty(completion.deltas);
  }

  lemma ConcatSingle(e: string)
    ensures Concat([e]) == e
  {
    assert [e][1..] == [];
  }

  /** The stream's controller: the chunks enqueued so far and whether it is
      closed. */
  class StreamController {
    var enqueued: seq<string>
    var closed: bool

    constructor ()
      ensures enqueued == [] && !closed
    {
      enqueued := [];
      closed := false;
    }

    method Enqueue(chunk: string)
      requires !closed
      modifies this
      ensures enqueued == old(enqueued) + [chunk] && !closed
    {
      enqueued := enqueued + [chunk];
    }

    method Close()
      requires !closed
      modifies this
      ensures closed && enqueued == old(enqueued)
    {
      closed := true;
    }
  }

  /** `start(controller)`: forwards every non-empty delta, enqueues the
      error text if building the messages or streaming throws, and closes
      the stream in every case. */
  method Start(c: StreamController, messages: Result<seq<Message>>, completion: Completion)
    requires !c.closed
    modifies c
    ensures c.closed
    ensures c.enqueued == old(c.enqueued) + StreamedChunks(messages, completion)
  {
    if messages.Failure? {
      c.Enqueue(ErrorText(ErrorWith(messages.message)));
    } else {
      var i := 0;
      while i < |completion.deltas|
        invariant 0 <= i <= |completion.deltas|
        invariant !c.closed
        invariant c.enqueued == old(c.enqueued) + NonEmpty(completion.deltas[..i])
      {
        var content := completion.deltas[i];
        NonEmptyAppend(completion.deltas[..i], content);
        assert completion.deltas[..i + 1] == completion.deltas[..i] + [content];
        if content != "" {
          c.Enqueue(content);
        }
        i := i + 1;
      }
      assert completion.deltas[..i] == completion.deltas;
      if completion.failure.Some? {
        c.Enqueue(ErrorText(completion.failure.value));
      }
    }
    c.Close();
  }

  lemma {:induction false} NonEmptyAppend(xs: seq<string>, x: string)
    ensures NonEmpty(xs + [x]) == NonEmpty(xs) + (if x == "" then [] else [x])
  {
    if xs != [] {
      assert (xs + [x])[1..] == xs[1..] + [x];
      NonEmptyAppend(xs[1..], x);
    } else {
      assert [x][1..] == [];
    }
  }
}
