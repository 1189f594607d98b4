/** The system prompt for one story step: the opening/next wording, the
    theme, per-type instructions with their word range, the pacing band for
    the story's progress, the output format and an example of the metadata
    block. */
module Prompts {
  import opened Text
  import opened JsValues
  import opened Adventure

  /** The five pacing bands, chosen by progress with inclusive upper bounds
      20, 40, 60 and 80. */
  datatype PacingBand = Early | EarlyMid | Mid | LateMid | Late

  function BandOf(progress: int): (b: PacingBand)
    ensures b == Early <==> progress <= 20
    ensures b == EarlyMid <==> 20 < progress <= 40
    ensures b == Mid <==> 40 < progress <= 60
    ensures b == LateMid <==> 60 < progress <= 80
    ensures b == Late <==> progress > 80
  {
    if progress <= 20 then Early
    else if progress <= 40 then EarlyMid
    else if progress <= 60 then Mid
    else if progress <= 80 then LateMid
    else Late
  }

  function BandIndex(b: PacingBand): nat
  {
    match b
    case Early => 0
    case EarlyMid => 1
    case Mid => 2
    case LateMid => 3
    case Late => 4
  }

  /** More progress never selects an earlier band, and each band covers the
      progress values from just above the previous bound up to its own. */
  lemma BandMonotone(p: int, q: int)
    requires p <= q
    ensures BandIndex(BandOf(p)) <= BandIndex(BandOf(q))
    ensures BandIndex(BandOf(p)) == BandIndex(BandOf(q)) ==> BandOf(p) == BandOf(q)
  {
  }

  function BandText(b: PacingBand): string
  {
    match b
    case Early => "- EARLY STORY (0-20%): Establish setting, introduce characters, build world. Focus on exploration and discovery."
    case EarlyMid => "- EARLY-MID STORY (20-40%): Develop the main conflict, introduce challenges. Start building tension."
    case Mid => "- MID STORY (40-60%): Escalate conflicts, present major obstacles. This is the heart of the adventure."
    case LateMid => "- LATE-MID STORY (60-80%): Approach climax, increase stakes. Prepare for resolution."
    case Late => "- LATE STORY (80%+): Build toward climax and resolution. Prepare for adventure conclusion."
  }

  /** The word range each step type asks for. */
  function WordRange(t: StepType): (r: (nat, nat))
    ensures 50 <= r.0 < r.1 <= 180
  {
    match t
    case Ending => (100, 180)
    case Death => (50, 150)
    case ConsequenceNegative => (50, 100)
    case ConsequencePositive => (50, 100)
    case _ => (80, 180)
  }

  function WriteClause(t: StepType): string
  {
    "Write " + NatToString(WordRange(t).0) + "-" + NatToString(WordRange(t).1) + " words"
  }

  /** The text of the instructions before and after the word-range clause. */
  function InstructionsBefore(t: StepType): string
  {
    match t
    case Ending => "- The adventure should conclude. Create a satisfying ending based on the player's journey and choices.\n- "
    case Death => "- The player has run out of hearts and died. Create a dramatic death scene that explains how they met their demise based on the story so far. This should be a definitive game over.\n- "
    case ConsequenceNegative => "- "
    case ConsequencePositive => "- "
    case _ => "- Only provide the story content followed by a metadata section, no other text.\n- Create a compelling next step that flows naturally from the story so far.\n- "
  }

  function InstructionsAfter(t: StepType): string
  {
    match t
    case Ending => " in short readable paragraphs of engaging content to finish the story, and nothing else."
    case Death => " in short readable paragraphs of engaging story content and nothing else."
    case ConsequenceNegative => " in short readable paragraphs of engaging story content and nothing else.\n- The player has made a bad choice and lost a heart. Create a compelling next step that flows naturally from the story and explain the negative consequences."
    case ConsequencePositive => " in short readable paragraphs of engaging story content and nothing else.\n- The player has made a good choice. Create a compelling next step that flows positively from the story so far."
    case _ => " in short readable paragraphs of engaging story content, followed by \"---\" and the YAML metadata.\n- Include choices where some are correct (safe) and up to one may be incorrect (causing the player to lose a heart).\n- Mark choices with correct: true for safe choices and correct: false for dangerous ones.\n- Do not give obvious hints about which choices are correct or incorrect.\n- Do not repeat a question that has already been asked in the story."
  }

  /** `createStoryStepInstructions`: the instructions for the step type,
      which always state the type's word range. */
  function Instructions(t: StepType): (r: string)
    ensures Contains(r, WriteClause(t))
  {
    OccursInMiddle(InstructionsBefore(t), WriteClause(t), InstructionsAfter(t));
    ContainsIffOccurs(InstructionsBefore(t) + WriteClause(t) + InstructionsAfter(t), WriteClause(t));
    InstructionsBefore(t) + WriteClause(t) + InstructionsAfter(t)
  }

  /** One choice of an example metadata block. */
  datatype ExampleChoice = ExampleChoice(text: string, correct: bool)

  /** The example choices: none for the types whose example is empty, four
      with one correct answer for educational steps, three for the rest. */
  function ExampleChoices(t: StepType): seq<ExampleChoice>
  {
    match t
    case Educational => [
      ExampleChoice("An incorrect answer", false),
      ExampleChoice("The correct answer", true),
      ExampleChoice("Another incorrect answer", false),
      ExampleChoice("Another incorrect answer", false)]
    case Regular => [
      ExampleChoice("A good choice", true),
      ExampleChoice("A bad choice", false),
      ExampleChoice("Another good choice", true)]
    case _ => []
  }

  function RenderChoices(cs: seq<ExampleChoice>): string
  {
    if cs == [] then ""
    else "  - text: \"" + cs[0].text + "\"\n    correct: " + BoolToString(cs[0].correct) + "\n" + RenderChoices(cs[1..])
  }

  /** `createStoryStepMetadata`: the example metadata block in YAML after a
      "---" line; empty for consequences, death and ending. The regular
      example ends with two stray spaces. */
  function MetadataExample(t: StepType): (r: string)
    ensures r == "" <==> ExampleChoices(t) == []
    ensures r != "" ==> StartsWith(r, "---\n")
  {
    if ExampleChoices(t) == [] then ""
    else
      var tail := if t == Regular then "  " else "";
      StartsWithConcat("---\n", "choices:\n" + RenderChoices(ExampleChoices(t)) + tail);
      "---\n" + ("choices:\n" + RenderChoices(ExampleChoices(t)) + tail)
  }

  function CountCorrect(cs: seq<ExampleChoice>): nat
  {
    if cs == [] then 0 else (if cs[0].correct then 1 else 0) + CountCorrect(cs[1..])
  }

  /** The educational example offers four choices of which exactly one is
      marked correct. */
  lemma EducationalExample()
    ensures |ExampleChoices(Educational)| == 4 && CountCorrect(ExampleChoices(Educational)) == 1
  {
  }

  /** The OUTPUT FORMAT lines for the separator and the YAML block. They are
      left out for regular and educational steps and given for the others. */
  function FormatLines(t: StepType): string
  {
    if t == Regular || t == Educational then "" else "(3) --- (separator)\n(4) YAML METADATA BLOCK"
  }

  /** As written, the format lines that announce a metadata block appear
      exactly for the step types whose example has no metadata block, and
      are missing exactly where the example has one. */
  lemma FormatLinesInverted(t: StepType)
    ensures FormatLines(t) == "" <==> MetadataExample(t) != ""
  {
  }

  const Lead := "You are an expert interactive storyteller creating a choose-your-own-adventure game for young children. Generate the "

  function Opening(historyLength: nat): string
  {
    if historyLength == 0 then "OPENING" else "NEXT"
  }

  function ThemeLine(theme: string): string
  {
    "ADVENTURE THEME: \"" + theme + "\""
  }

  /** The fixed parts of the prompt after the theme line. */
  const InstructionsHeader := "\n\nINSTRUCTIONS:\n- Do not put any choices, status updates, hearts count or button text within the main content, only define them in the metadata.\n"
  const StyleRules := "\n- Use rich descriptions with **bold** and *italic* markdown formatting.\n- Consider the player's hearts when crafting the story.\n- Keep story coherent with what came before.\n- Generate descriptive step IDs that reflect the story path (e.g., \"ancient-temple-entrance\", \"mountain-cave-exploration\", \"village-merchant-meeting\").\n- Step IDs should be unique and descriptive of the story location/situation.\n\nSTORY PACING GUIDANCE:\n"
  const FormatHeader := "\n\nOUTPUT FORMAT:\n(1) HEADING (e.g. \"# Step Title Here\")\n(2) STORY CONTENT (markdown-formatted)\n"
  const ExampleHeader := "\n\nEXAMPLE OUTPUT:\n\n# Step Title Here\n\nThe story content goes here with **bold** and *italic* formatting. This should be engaging and move the story forward based on what happened before.\n\n"
  const PromptEnd := "\n\n"

  /** Everything after the theme line. */
  function PromptBody(t: StepType, progress: int): string
  {
    InstructionsHeader
    + Instructions(t)
    + StyleRules
    + BandText(BandOf(progress))
    + FormatHeader
    + FormatLines(t)
    + ExampleHeader
    + MetadataExample(t)
    + PromptEnd
  }

  const StepLine := " story step based on the context provided.\n\n"

  /** `createStoryStepPrompt`. It says OPENING exactly when the history is
      empty and NEXT otherwise, and quotes the theme verbatim. */
  function CreateStoryStepPrompt(historyLength: nat, theme: string, t: StepType, progress: int): (r: string)
    ensures StartsWith(r, Lead + "OPENING") <==> historyLength == 0
    ensures StartsWith(r, Lead + "NEXT") <==> historyLength != 0
    ensures OccursAt(r, ThemeLine(theme), |Lead| + |Opening(historyLength)| + |StepLine|)
  {
    assert StartsWith(StepLine, " ") by {
      assert StepLine[0] == ' ';
      assert StepLine[..1] == [StepLine[0]];
    }
    PromptPieces(Lead, historyLength, StepLine, ThemeLine(theme), PromptBody(t, progress));
    Lead + Opening(historyLength) + StepLine + ThemeLine(theme) + PromptBody(t, progress)
  }

  lemma PromptPieces(lead: string, h: nat, stepLine: string, themeLine: string, body: string)
    requires StartsWith(stepLine, " ")
    ensures StartsWith(lead + Opening(h) + stepLine + themeLine + body, lead + "OPENING") <==> h == 0
    ensures StartsWith(lead + Opening(h) + stepLine + themeLine + body, lead + "NEXT") <==> h != 0
    ensures OccursAt(lead + Opening(h) + stepLine + themeLine + body, themeLine, |lead| + |Opening(h)| + |stepLine|)
  {
    var r := lead + Opening(h) + stepLine + themeLine + body;
    OccursInMiddle(lead + Opening(h) + stepLine, themeLine, body);
    assert StartsWith(stepLine + themeLine + body, " ") by {
      assert (stepLine + themeLine + body)[..1] == stepLine[..1];
    }
    OpeningWord(lead, h, stepLine + themeLine + body);
    assert r == lead + Opening(h) + (stepLine + themeLine + body);
  }

  /** Whatever precedes it, the word after the lead tells the two cases
      apart. */
  lemma OpeningWord(lead: string, historyLength: nat, tail: string)
    requires StartsWith(tail, " ")
    ensures StartsWith(lead + Opening(historyLength) + tail, lead + "OPENING") <==> historyLength == 0
    ensures StartsWith(lead + Opening(historyLength) + tail, lead + "NEXT") <==> historyLength != 0
  {
    var n := |lead|;
    var r := lead + Opening(historyLength) + tail;
    if historyLength == 0 {
      assert r[..n + 7] == lead + "OPENING";
      assert r[n + 1] == 'P' && (lead + "NEXT")[n + 1] == 'E';
    } else {
      assert r[..n + 4] == lead + "NEXT";
      assert r[n + 4] == ' ' && (lead + "OPENING")[n + 4] == 'I';
    }
  }
}
