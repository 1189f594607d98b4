/** The illustration endpoint: a feature flag, a check of the two request
    fields, and `createImagePrompt`, which strips markdown from the step's
    text, rewrites first and second person words, cuts the text to 200
    characters and wraps it in fixed instructions for the image model. */
module GenerateImage {
  import opened Base
  import opened Text
  import opened JsValues

  const DisabledMessage := "Image generation is disabled"
  const MissingMessage := "Step description and theme are required"
  const FailureMessage := "Failed to generate image"

  const PromptLead := "A photorealistic fantasy illustration: "
  const DescriptionEnd := "...\"\n\n"
  const NoTextDirective := "DO NOT include any text, letters, numbers, or writing in the image.\n\n"
  const StyleBlock := "The artwork should be:\n  - Safe and appropriate for children aged 8-12\n  - Fantasy/adventure themed with enchanted elements\n  - Inspiring sense of wonder and adventure\n\n"
  const MaxDescription := 200

  const Character := "the character"
  const Possessive := "the character's"

  /** The number of `#` at the start of `s`, at most `cap`. */
  function HashRun(s: string, cap: nat): (r: nat)
    ensures r <= cap && r <= |s|
    ensures forall i :: 0 <= i < r ==> s[i] == '#'
    ensures r < cap && r < |s| ==> s[r] != '#'
  {
    if cap == 0 || s == [] || s[0] != '#' then 0 else 1 + HashRun(s[1..], cap - 1)
  }

  /** The length of the match of `#{1,6}\s` at the start of `s`. The marks
      are taken greedily; giving some back cannot help, since a `#` then
      stands where the whitespace must be. */
  function HeaderAt(s: string): (r: Option<nat>)
    ensures r.Some? ==> 2 <= r.value <= 7 && r.value <= |s|
  {
    var h := HashRun(s, 6);
    if h >= 1 && h < |s| && IsSpace(s[h]) then Some(h + 1) else None
  }

  /** `replace(/#{1,6}\s/g, "")`: left to right, resuming after each
      removed match. */
  function RemoveHeaders(s: string): string
    decreases |s|
  {
    if s == [] then []
    else
      match HeaderAt(s)
      case Some(n) => RemoveHeaders(s[n..])
      case None => [s[0]] + RemoveHeaders(s[1..])
  }

  /** Only characters of the input survive header removal. */
  lemma {:induction false} RemoveHeadersKeeps(s: string)
    ensures forall x :: x in RemoveHeaders(s) ==> x in s
    decreases |s|
  {
    if s != [] {
      match HeaderAt(s)
      case Some(n) =>
        RemoveHeadersKeeps(s[n..]);
      case None =>
        RemoveHeadersKeeps(s[1..]);
    }
  }

  /** `n` header marks. */
  function Hashes(n: nat): (r: string)
    ensures |r| == n && forall i :: 0 <= i < n ==> r[i] == '#'
  {
    if n == 0 then [] else "#" + Hashes(n - 1)
  }

  /** A header of one to six marks and a whitespace character is removed. */
  lemma HeaderRemoved(n: nat, c: char, rest: string)
    requires 1 <= n <= 6 && IsSpace(c)
    ensures RemoveHeaders(Hashes(n) + [c] + rest) == RemoveHeaders(rest)
  {
    var s := Hashes(n) + [c] + rest;
    assert forall i :: 0 <= i < n ==> s[i] == '#';
    assert s[n] == c;
    assert HashRun(s, 6) == n;
    assert s[n + 1..] == rest;
  }

  /** A run of seven or more marks keeps its extra marks: the match of six
      marks and the whitespace starts one position later. */
  lemma SeventhHashKept(c: char, rest: string)
    requires IsSpace(c)
    ensures RemoveHeaders(Hashes(7) + [c] + rest) == "#" + RemoveHeaders(rest)
  {
    var s := Hashes(7) + [c] + rest;
    assert HashRun(s, 6) == 6;
    assert s[6] == '#';
    assert s[1..] == Hashes(6) + [c] + rest;
    HeaderRemoved(6, c, rest);
  }

  /** ASCII lower case. The patterns matched case-insensitively here are
      made of ASCII letters, and no non-ASCII character folds onto an ASCII
      letter without the `u` flag, so ASCII folding decides every match. */
  function Lower(c: char): char
  {
    if 'A' <= c <= 'Z' then (c as int + 32) as char else c
  }

  /** `w` (lower case) occurs at `p` ignoring case. */
  predicate MatchesFold(s: string, p: nat, w: string)
  {
    p + |w| <= |s| && FoldsFrom(s, p, w, 0)
  }

  /** The characters of `w` from index `i` on match those of `s` from
      `p + i` on, ignoring case. */
  predicate FoldsFrom(s: string, p: nat, w: string, i: nat)
    requires p + |w| <= |s| && i <= |w|
    decreases |w| - i
  {
    i == |w| || (Lower(s[p + i]) == w[i] && FoldsFrom(s, p, w, i + 1))
  }

  predicate WordAt(s: string, p: int)
  {
    0 <= p < |s| && IsWordChar(s[p])
  }

  /** `\b` at position `p`: a word character on exactly one side. */
  predicate Boundary(s: string, p: int)
  {
    WordAt(s, p - 1) != WordAt(s, p)
  }

  /** The length of the match of `/\ba|b\b/i` at `p`: the alternation binds
      loosest, so the first branch is `a` after a boundary and the second
      is `b` before one. */
  function AltMatch(s: string, p: nat, a: string, b: string): (r: Option<nat>)
    ensures r.Some? ==> (r.value == |a| && MatchesFold(s, p, a)) || (r.value == |b| && MatchesFold(s, p, b))
  {
    if Boundary(s, p) && MatchesFold(s, p, a) then Some(|a|)
    else if MatchesFold(s, p, b) && Boundary(s, p + |b|) then Some(|b|)
    else None
  }

  /** `s.replace(/\ba|b\b/gi, repl)` from position `p` of the input on;
      boundaries are judged on the input, not on the text already written. */
  function ReplaceWords(s: string, p: nat, a: string, b: string, repl: string): string
    requires p <= |s| && |a| > 0 && |b| > 0
    decreases |s| - p
  {
    if p == |s| then []
    else
      match AltMatch(s, p, a, b)
      case Some(n) => repl + ReplaceWords(s, p + n, a, b, repl)
      case None => [s[p]] + ReplaceWords(s, p + 1, a, b, repl)
  }

  /** Every character written is one of the input's or one of the
      replacement's. */
  lemma {:induction false} ReplaceWordsKeeps(s: string, p: nat, a: string, b: string, repl: string)
    requires p <= |s| && |a| > 0 && |b| > 0
    ensures forall x :: x in ReplaceWords(s, p, a, b, repl) ==> x in s || x in repl
    decreases |s| - p
  {
    if p < |s| {
      match AltMatch(s, p, a, b)
      case Some(n) =>
        ReplaceWordsKeeps(s, p + n, a, b, repl);
      case None =>
        ReplaceWordsKeeps(s, p + 1, a, b, repl);
    }
  }

  /** `s.slice(0, n)`. */
  function Take(s: string, n: nat): (r: string)
    ensures |r| <= n && |r| <= |s| && r == s[..|r|]
    ensures |s| <= n ==> r == s
  {
    if |s| <= n then s else s[..n]
  }

  /** The cleaned description: no asterisk survives and it is at most 200
      characters long; every character comes from the step's text or from
      the replacement words. */
  function CleanDescription(d: string): (r: string)
    ensures '*' !in r
    ensures |r| <= MaxDescription
    ensures forall x :: x in r ==> x in d || x in Possessive
  {
    var noBold := RemoveAll(d, "**");
    var noMarks := RemoveAll(noBold, "*");
    RemoveAllKeeps(d, "**");
    RemoveAllChar(noBold, '*');
    var noHeaders := RemoveHeaders(noMarks);
    RemoveHeadersKeeps(noMarks);
    var second := ReplaceWords(noHeaders, 0, "you", "i", Character);
    ReplaceWordsKeeps(noHeaders, 0, "you", "i", Character);
    var third := ReplaceWords(second, 0, "your", "my", Possessive);
    ReplaceWordsKeeps(second, 0, "your", "my", Possessive);
    assert forall x :: x in Character ==> x in Possessive;
    assert '*' !in Possessive;
    Take(third, MaxDescription)
  }

  /** `createImagePrompt(stepDescription, theme)`, with the theme already
      converted to text by the template literal. */
  function ImagePrompt(description: string, theme: string): (r: string)
    ensures StartsWith(r, PromptLead + theme + ". ")
    ensures EndsWith(r, NoTextDirective + StyleBlock)
    ensures Contains(r, CleanDescription(description))
  {
    Framed(PromptLead + theme + ". ", CleanDescription(description))
  }

  /** The prompt around a cleaned description: it starts with the given
      head, ends with the directives and contains the description. */
  function Framed(head: string, clean: string): (r: string)
    ensures StartsWith(r, head) && EndsWith(r, NoTextDirective + StyleBlock) && Contains(r, clean)
  {
    FrameAround(head, clean, DescriptionEnd, NoTextDirective + StyleBlock);
    head + clean + (DescriptionEnd + (NoTextDirective + StyleBlock))
  }

  /** `head + clean + (mid + end)` starts with `head`, ends with `end` and
      contains `clean`. */
  lemma FrameAround(head: string, clean: string, mid: string, end: string)
    ensures var r := head + clean + (mid + end);
      StartsWith(r, head) && EndsWith(r, end) && Contains(r, clean)
  {
    var r := head + clean + (mid + end);
    StartsWithConcat(head, clean + (mid + end));
    assert r == head + (clean + (mid + end));
    assert r[|r| - |end|..] == end;
    OccursInMiddle(head, clean, mid + end);
    ContainsIffOccurs(r, clean);
  }

  /** In "your" the first rewrite replaces "you" and leaves the "r". */
  lemma YouPassOnYour()
    ensures ReplaceWords("your map", 0, "you", "i", Character) == "the characterr map"
  {
    var s := "your map";
    assert ReplaceWords(s, 8, "you", "i", Character) == "";
    assert ReplaceWords(s, 7, "you", "i", Character) == "p";
    assert ReplaceWords(s, 6, "you", "i", Character) == "ap";
    assert ReplaceWords(s, 5, "you", "i", Character) == "map";
    assert ReplaceWords(s, 4, "you", "i", Character) == " map";
    assert ReplaceWords(s, 3, "you", "i", Character) == "r map";
    assert ReplaceWords(s, 0, "you", "i", Character) == "the characterr map";
  }

  /** No character in `s[p..q]` starts either branch, ignoring case. */
  predicate NoCandidates(s: string, p: nat, q: nat, a: char, b: char)
    requires p <= q <= |s|
    decreases q - p
  {
    p == q || (Lower(s[p]) != a && Lower(s[p]) != b && NoCandidates(s, p + 1, q, a, b))
  }

  /** A stretch where neither branch can start is copied unchanged. */
  lemma {:induction false} PlainRunCopied(s: string, p: nat, q: nat, a: string, b: string, repl: string)
    requires p <= q <= |s| && |a| > 0 && |b| > 0
    requires NoCandidates(s, p, q, a[0], b[0])
    ensures ReplaceWords(s, p, a, b, repl) == s[p..q] + ReplaceWords(s, q, a, b, repl)
    decreases q - p
  {
    if p < q {
      assert !MatchesFold(s, p, a) && !MatchesFold(s, p, b);
      PlainRunCopied(s, p + 1, q, a, b, repl);
      assert s[p..q] == [s[p]] + s[p + 1..q];
    }
  }

  /** Two adjacent stretches without candidates make one. */
  lemma {:induction false} NoCandidatesJoin(s: string, p: nat, m: nat, q: nat, a: char, b: char)
    requires p <= m <= q <= |s|
    requires NoCandidates(s, p, m, a, b) && NoCandidates(s, m, q, a, b)
    ensures NoCandidates(s, p, q, a, b)
    decreases m - p
  {
    if p < m {
      NoCandidatesJoin(s, p + 1, m, q, a, b);
    }
  }

  /** The first fifteen characters of "the characterr map" hold no "y" and
      no "m". */
  lemma AfterYouHead(s: string)
    requires s == "the characterr map"
    ensures NoCandidates(s, 0, 15, 'y', 'm')
  {
    assert NoCandidates(s, 12, 15, 'y', 'm');
    assert NoCandidates(s, 8, 12, 'y', 'm');
    assert NoCandidates(s, 4, 8, 'y', 'm');
    assert NoCandidates(s, 0, 4, 'y', 'm');
    NoCandidatesJoin(s, 8, 12, 15, 'y', 'm');
    NoCandidatesJoin(s, 4, 8, 15, 'y', 'm');
    NoCandidatesJoin(s, 0, 4, 15, 'y', 'm');
  }

  /** "map" has an "m" but no "my" and no "your". */
  lemma AfterYouTail(s: string)
    requires s == "the characterr map"
    ensures ReplaceWords(s, 15, "your", "my", Possessive) == "map"
  {
    assert ReplaceWords(s, 18, "your", "my", Possessive) == "";
    assert ReplaceWords(s, 17, "your", "my", Possessive) == "p";
    assert ReplaceWords(s, 16, "your", "my", Possessive) == "ap";
  }

  /** The second rewrite then finds no "your" left to replace. */
  lemma PossessivePassAfterYou(s: string)
    requires s == "the characterr map"
    ensures ReplaceWords(s, 0, "your", "my", Possessive) == s
  {
    AfterYouTail(s);
    AfterYouHead(s);
    PlainRunCopied(s, 0, 15, "your", "my", Possessive);
    assert s[0..15] + "map" == s;
  }

  /** The first rewrite's second branch has no boundary before it: "taxi"
      loses its "i". */
  lemma YouPassOnTaxi()
    ensures ReplaceWords("taxi", 0, "you", "i", Character) == "tax" + Character
  {
    var s := "taxi";
    assert ReplaceWords(s, 3, "you", "i", Character) == Character;
    PlainRunCopied(s, 0, 3, "you", "i", Character);
  }

  /** "enemy" holds no "you" and no "i" at a word's end. */
  lemma YouPassOnEnemy()
    ensures ReplaceWords("enemy", 0, "you", "i", Character) == "enemy"
  {
    var s := "enemy";
    assert ReplaceWords(s, 4, "you", "i", Character) == "y";
    PlainRunCopied(s, 0, 4, "you", "i", Character);
  }

  /** The second rewrite's second branch likewise takes the end of "enemy". */
  lemma PossessivePassOnEnemy()
    ensures ReplaceWords("enemy", 0, "your", "my", Possessive) == "ene" + Possessive
  {
    var s := "enemy";
    assert ReplaceWords(s, 3, "your", "my", Possessive) == Possessive;
    PlainRunCopied(s, 0, 3, "your", "my", Possessive);
  }

  /** "taxthe character" holds neither "your" nor "my". */
  lemma PossessivePassOnTaxi()
    ensures ReplaceWords("tax" + Character, 0, "your", "my", Possessive) == "tax" + Character
  {
    var s := "tax" + Character;
    TaxiPlain(s);
    PlainRunCopied(s, 0, 16, "your", "my", Possessive);
    assert s[0..16] == s;
  }

  /** "tax the character" holds no "y" and no "m". */
  lemma TaxiPlain(s: string)
    requires s == "tax" + Character
    ensures |s| == 16 && NoCandidates(s, 0, 16, 'y', 'm')
  {
    assert NoCandidates(s, 12, 16, 'y', 'm');
    assert NoCandidates(s, 8, 12, 'y', 'm');
    assert NoCandidates(s, 4, 8, 'y', 'm');
    assert NoCandidates(s, 0, 4, 'y', 'm');
    NoCandidatesJoin(s, 8, 12, 16, 'y', 'm');
    NoCandidatesJoin(s, 4, 8, 16, 'y', 'm');
    NoCandidatesJoin(s, 0, 4, 16, 'y', 'm');
  }

  /** Text without `*` or `#` passes the markdown removal unchanged. */
  lemma {:induction false} NoMarkupUnchanged(s: string)
    requires '*' !in s && '#' !in s
    ensures RemoveAll(s, "**") == s && RemoveAll(s, "*") == s && RemoveHeaders(s) == s
  {
    if s != [] {
      NoMarkupUnchanged(s[1..]);
      assert s[0] != '*' && s[0] != '#';
      assert HashRun(s, 6) == 0;
      assert [s[0]] + s[1..] == s;
    }
  }

  /** "your" is not rewritten to "the character's": the first rewrite has
      already turned its "you" into "the character", leaving the "r". */
  lemma YourIsMangled()
    ensures CleanDescription("your map") == "the characterr map"
  {
    NoMarkupUnchanged("your map");
    YouPassOnYour();
    PossessivePassAfterYou("the characterr map");
  }

  /** The first rewrite's second branch has no boundary before it, so the
      end of a word is rewritten: "taxi" loses its "i". */
  lemma TaxiRewritten()
    ensures CleanDescription("taxi") == "tax" + Character
  {
    NoMarkupUnchanged("taxi");
    YouPassOnTaxi();
    PossessivePassOnTaxi();
  }

  /** The second rewrite's second branch likewise has no boundary before
      it: "enemy" loses its "my". */
  lemma EnemyRewritten()
    ensures CleanDescription("enemy") == "ene" + Possessive
  {
    NoMarkupUnchanged("enemy");
    YouPassOnEnemy();
    PossessivePassOnEnemy();
  }

  /** The request body as `request.json()` yields it, or malformed JSON. */
  datatype ImageBody = Malformed | Parsed(value: JsValue)

  /** The image model's reply: a thrown error, or the `url` field of its
      first result (undefined when absent). */
  datatype ImageResult = ImageThrows | ImageData(url: JsValue)

  datatype ImageResponse = ImageError(status: nat, message: string) | ImageCreated(imageUrl: JsValue)

  /** `POST /api/generate-image`, with the flag `ENABLE_IMAGE_GENERATION ===
      "true"` as `enabled` and the image model as the oracle `generate`,
      applied to the prompt it is sent. Destructuring a null body throws, and
      so does `replace` on a description that is not a string; both land in
      the catch-all 500, like a failed or URL-less generation. */
  function Post(enabled: bool, body: ImageBody, generate: string -> ImageResult): (r: ImageResponse)
    ensures !enabled ==> r == ImageError(403, DisabledMessage)
    ensures enabled && body.Parsed? && IsObject(body.value) &&
            (!Truthy(Get(body.value, "stepDescription")) || !Truthy(Get(body.value, "theme")))
            ==> r == ImageError(400, MissingMessage)
    ensures r.ImageError? ==> r.status in {400, 403, 500}
    ensures r.ImageCreated? ==>
      && enabled && body.Parsed? && Get(body.value, "stepDescription").Str? && Truthy(Get(body.value, "theme"))
      && Truthy(r.imageUrl)
      && generate(ImagePrompt(Get(body.value, "stepDescription").s, Display(Get(body.value, "theme")))) == ImageData(r.imageUrl)
  {
    if !enabled then ImageError(403, DisabledMessage)
    else if body.Malformed? || body.value.Null? || body.value.Undefined? then ImageError(500, FailureMessage)
    else
      var description := Get(body.value, "stepDescription");
      var theme := Get(body.value, "theme");
      if !Truthy(description) || !Truthy(theme) then ImageError(400, MissingMessage)
      else if !description.Str? then ImageError(500, FailureMessage)
      else
        match generate(ImagePrompt(description.s, Display(theme)))
        case ImageThrows => ImageError(500, FailureMessage)
        case ImageData(url) => if Truthy(url) then ImageCreated(url) else ImageError(500, FailureMessage)
  }

  /** The body the game sends: the step's text and the adventure's theme,
      both strings. When both are non-empty and the flag is on, the image
      model is asked with the prompt built from them, and the reply carries
      the URL it returned. */
  lemma GameRequestPrompt(content: string, theme: string, generate: string -> ImageResult)
    requires content != [] && theme != []
    ensures var r := Post(true, Parsed(Obj(map["stepDescription" := Str(content), "theme" := Str(theme)])), generate);
      && (r.ImageCreated? <==> generate(ImagePrompt(content, theme)).ImageData? && Truthy(generate(ImagePrompt(content, theme)).url))
      && (r.ImageCreated? ==> ImageData(r.imageUrl) == generate(ImagePrompt(content, theme)))
  {
    var body := Obj(map["stepDescription" := Str(content), "theme" := Str(theme)]);
    assert Get(body, "stepDescription") == Str(content);
    assert Get(body, "theme") == Str(theme);
    assert Display(Str(theme)) == theme;
  }
}
