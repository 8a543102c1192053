/**
 * The question bank and the prompt template of constants.ts: the fixed
 * 24 questions, the greeting, the persona instruction, and the analysis
 * prompt that places one numbered line per answer between a fixed head and
 * a fixed tail. Reading a prompt back (ReadPrompt) is the partner that the
 * lemmas below use to show the answers are numbered from 1, in order and
 * verbatim.
 */
module Constants {
  import opened Wrappers
  import opened Numerals
  import opened Strings

  /** The 24 questions, asked in this order. */
  const Questions: seq<string> := [
    // Phase 1: identification and somatic awareness
    "What is the specific scenario you replay in your mind that triggers the most anxiety?",
    "When you feel fear, where does it live in your body? Describe the sensation.",
    "What is a dream or goal you\U{2019}ve abandoned purely because you were afraid to fail?",
    "If your fear had a voice, what specific phrase does it repeat to you?",
    "What part of your personality do you suppress because you fear it will be rejected?",

    // Phase 2: root causes and childhood
    "Who was the first person in your life to make you feel unsafe or judged?",
    "What did your caregivers teach you about fear? Was it something to be felt or hidden?",
    "Recall your earliest memory of feeling this specific fear. What was happening?",
    "When you make a small mistake, what does your inner critic immediately say? Whose voice does it sound like?",
    "What does 'safety' mean to you, and why do you feel you lack it?",

    // Phase 3: patterns and defence mechanisms
    "Are you secretly more afraid of succeeding than failing? If so, why?",
    "What responsibility are you currently avoiding because it feels too heavy?",
    "Who are you constantly trying to please, and what do you fear happens if you stop?",
    "In what subtle ways do you try to control others or your environment to avoid feeling uncertain?",
    "What distraction (phone, food, work, etc.) do you use to numb yourself when fear arises?",
    "How does your fear actually serve you? What is it trying to protect you from?",

    // Phase 4: worst fears and vulnerability
    "What is the absolute worst outcome you imagine if you were completely vulnerable?",
    "What is a negative belief about yourself that you are terrified might be true?",
    "What specific label or criticism from others scares you the most?",
    "What relationships or situations do you tolerate only because you fear being alone?",

    // Phase 5: integration and the self
    "If stripped of your achievements and possessions, who would you be?",
    "What is one opportunity you said 'no' to recently, solely out of fear?",
    "If you were guaranteed not to be judged, what is the first thing you would change about your life?",
    "If you could walk through your fear right now, who is the version of you waiting on the other side?"
  ]

  datatype Role = User | Model

  datatype ChatMessage = ChatMessage(role: Role, content: string)

  /** The greeting that opens the chat. */
  const InitialBotMessage: ChatMessage :=
    ChatMessage(Model, "Hey bestie. I'm Kai. I'm here to help you do the " +
                       "deep work, but like, gently. No judgment, just real " +
                       "talk and good vibes. Let's decode what's going on " +
                       "inside. Ready?")

  /** The persona instruction sent with every analysis request. */
  const SystemInstruction: string :=
    "You are Kai, a warm, relatable, and supportive AI " +
    "companion for shadow work. \n" +
    "Tone: \"Gen Z therapy friend\".\n" +
    "- Use accessible, modern language (e.g., \"valid\", " +
    "\"healing era\", \"protect your peace\", \"heavy\", \"vibe " +
    "check\", \"main character energy\", \"it's giving...\", " +
    "\"delulu\" (use carefully for denial), \"inner child\", " +
    "\"slay\", \"go off\").\n" +
    "- **Psychological Depth:** Even with the slang, " +
    "the analysis must be profound. Connect the user's " +
    "answers to uncover deep patterns.\n" +
    "- **Reality Check:** If the user is lying to themselves, " +
    "call it out with love (\"Bestie, I'm gonna hold your " +
    "hand when I say this...\").\n" +
    "- Your goal is to help them analyze their shadow " +
    "self, specifically focusing on FEAR, its roots, " +
    "and self-sabotage behaviors."

  /** The text of the analysis prompt before the answer block. */
  const PromptHead: string :=
    "\n" +
    "You are Kai. The user has just finished a 24-question " +
    "deep dive shadow work session focusing on FEAR and " +
    "its ROOT CAUSES. \n" +
    "Based on their answers below, provide a \"Gen Z\" " +
    "coded but deeply psychological analysis.\n" +
    "\n" +
    "**User Answers:**\n"

  /** The text of the analysis prompt after the answer block: the output requirements and JSON shape. */
  const PromptTail: string :=
    "\n" +
    "\n" +
    "**Output Requirements:**\n" +
    "You MUST return a valid JSON object containing the " +
    "analysis. Do not use Markdown formatting (no **, " +
    "no #, no -) inside the JSON strings. Keep the text " +
    "clean, punchy, and \"aesthetic\".\n" +
    "\n" +
    "The JSON structure must be EXACTLY this:\n" +
    "```json\n" +
    "{\n" +
    "  \"assessment\": [\n" +
    "    {\"name\": \"Fear Awareness\", \"percentage\": 0-100},\n" +
    "    {\"name\": \"Root Cause Clarity\", \"percentage\": " +
    "0-100},\n" +
    "    {\"name\": \"Emotional Regulation\", \"percentage\": " +
    "0-100},\n" +
    "    {\"name\": \"Self-Trust\", \"percentage\": 0-100},\n" +
    "    {\"name\": \"Courage Potential\", \"percentage\": 0-100}\n" +
    "  ],\n" +
    "  \"theme\": \"A short, poetic 2-3 word title for their " +
    "journey through fear (e.g. 'Walking Through Fire')\",\n" +
    "  \"vibeCheck\": \"A quick 2-sentence summary of how " +
    "fear is currently showing up in their vibe. Keep " +
    "it real.\",\n" +
    "  \"deepDive\": [\n" +
    "    \"Analysis point 1: Connect their somatic fear " +
    "to its root cause.\",\n" +
    "    \"Analysis point 2: Identify the specific protective " +
    "mechanism of their fear.\",\n" +
    "    \"Analysis point 3: Highlight a self-limiting " +
    "belief they need to release.\"\n" +
    "  ],\n" +
    "  \"realityCheck\": \"A gentle but firm paragraph pointing " +
    "out where they are letting fear make decisions for " +
    "them. Start with 'Bestie...'\",\n" +
    "  \"healingRoadmap\": [\n" +
    "    \"Actionable Step 1 (Somatic practice or grounding)\",\n" +
    "    \"Actionable Step 2 (Journal prompt or mindset " +
    "shift)\",\n" +
    "    \"Actionable Step 3 (A small exposure challenge)\"\n" +
    "  ],\n" +
    "  \"visualDescription\": \"A poetic, 1-2 sentence explanation " +
    "of WHY this visual represents their liberation from " +
    "fear. E.g., 'The open cage represents the freedom " +
    "that has always been available to you.'\"\n" +
    "}\n" +
    "```\n"

  /** The answer line numbered `n`: "Q", the number, ": ", then the answer as given. */
  function AnswerLine(n: nat, answer: string): string {
    "Q" + NatToString(n) + ": " + answer
  }

  /** The indexed map over the answers, numbering them from `first`. */
  function NumberAnswers(answers: seq<string>, first: nat): seq<string>
    decreases |answers|
  {
    if answers == [] then [] else [AnswerLine(first, answers[0])] + NumberAnswers(answers[1..], first + 1)
  }

  /** One line per answer, in order: the line for answers[i] is numbered first + i and holds answers[i]. */
  lemma {:induction false} NumberAnswersLines(answers: seq<string>, first: nat)
    ensures |NumberAnswers(answers, first)| == |answers|
    ensures forall i | 0 <= i < |answers| :: NumberAnswers(answers, first)[i] == AnswerLine(first + i, answers[i])
    decreases |answers|
  {
    if answers != [] {
      NumberAnswersLines(answers[1..], first + 1);
    }
  }

  /** The block of answer lines, numbered from 1 and joined by '\n'. */
  function AnswerBlock(answers: seq<string>): string {
    JoinLines(NumberAnswers(answers, 1))
  }

  /** ANALYSIS_PROMPT_TEMPLATE: the fixed head, the answer block, the fixed tail. */
  function AnalysisPrompt(answers: seq<string>): string {
    PromptHead + AnswerBlock(answers) + PromptTail
  }

  // Reading a prompt back

  /** Splits an answer line into its number and its answer; None if the line is not of that form. */
  function ParseAnswerLine(line: string): Option<(nat, string)> {
    if |line| == 0 || line[0] != 'Q' then None
    else
      var k := LeadingDigits(line[1..]);
      if k == 0 || |line| < k + 3 || line[k + 1..k + 3] != ": " then None
      else
        assert line[1..k + 1] == line[1..][..k];
        Some((DigitsToNat(line[1..k + 1]), line[k + 3..]))
  }

  /** The answers of consecutive lines numbered first, first + 1, ...; None on any other line. */
  function ReadAnswerLines(lines: seq<string>, first: nat): Option<seq<string>>
    decreases |lines|
  {
    if lines == [] then Some([])
    else match ParseAnswerLine(lines[0])
      case None => None
      case Some((n, answer)) =>
        if n != first then None
        else match ReadAnswerLines(lines[1..], first + 1)
          case None => None
          case Some(rest) => Some([answer] + rest)
  }

  /** The answers recorded in a block of lines numbered from 1; the empty block records none. */
  function ReadBlock(block: string): Option<seq<string>> {
    if block == "" then Some([]) else ReadAnswerLines(SplitLines(block), 1)
  }

  /** The answers recorded in a prompt, if it is the fixed head, a block numbered from 1, and the fixed tail. */
  function ReadPrompt(prompt: string): Option<seq<string>> {
    match StripFrame(prompt, PromptHead, PromptTail)
    case None => None
    case Some(block) => ReadBlock(block)
  }

  // Properties of the question bank

  /** The bank holds 24 questions, no two alike. */
  lemma QuestionBank()
    ensures |Questions| == 24
    ensures forall i, j | 0 <= i < j < |Questions| :: Questions[i] != Questions[j]
  {
  }

  // Properties of the answer lines and the prompt

  /** An answer line gives back its number and its answer exactly: nothing is escaped or trimmed. */
  lemma AnswerLineRoundTrip(n: nat, answer: string)
    ensures ParseAnswerLine(AnswerLine(n, answer)) == Some((n, answer))
  {
    var d := NatToString(n);
    var line := AnswerLine(n, answer);
    var k := |d|;
    assert line[1..] == d + (": " + answer);
    LeadingDigitsOfNumeral(d, ": " + answer);
    assert line[1..k + 1] == d;
    assert line[k + 1..k + 3] == ": ";
    assert line[k + 3..] == answer;
    NatToStringRoundTrip(n);
  }

  /** Two answer lines are equal only when their numbers and their answers are. */
  lemma AnswerLineInjective(n: nat, a: string, m: nat, b: string)
    requires AnswerLine(n, a) == AnswerLine(m, b)
    ensures n == m && a == b
  {
    AnswerLineRoundTrip(n, a);
    AnswerLineRoundTrip(m, b);
  }

  /** The lines of the block are pairwise distinct, whatever the answers, since their numbers differ. */
  lemma NumberedLinesDistinct(answers: seq<string>)
    ensures |NumberAnswers(answers, 1)| == |answers|
    ensures forall i, j | 0 <= i < j < |answers| ::
      NumberAnswers(answers, 1)[i] != NumberAnswers(answers, 1)[j]
  {
    var lines := NumberAnswers(answers, 1);
    NumberAnswersLines(answers, 1);
    forall i, j | 0 <= i < j < |answers| ensures lines[i] != lines[j] {
      if lines[i] == lines[j] {
        AnswerLineInjective(1 + i, answers[i], 1 + j, answers[j]);
      }
    }
  }

  /** 24 identical answers still give 24 different lines. */
  lemma IdenticalAnswersDistinctLines(answer: string)
    ensures var lines := NumberAnswers(seq(24, _ => answer), 1);
      |lines| == 24 && forall i, j | 0 <= i < j < 24 :: lines[i] != lines[j]
  {
    NumberedLinesDistinct(seq(24, _ => answer));
    NumberAnswersLines(seq(24, _ => answer), 1);
  }

  /** With no line break inside an answer, the block has one line per answer, line i being "Q(i+1): answers[i]". */
  lemma BlockLines(answers: seq<string>)
    requires answers != []
    requires forall i | 0 <= i < |answers| :: '\n' !in answers[i]
    ensures SplitLines(AnswerBlock(answers)) == NumberAnswers(answers, 1)
    ensures |SplitLines(AnswerBlock(answers))| == |answers|
  {
    var lines := NumberAnswers(answers, 1);
    NumberAnswersLines(answers, 1);
    forall i | 0 <= i < |lines| ensures '\n' !in lines[i] {
      var d := NatToString(1 + i);
      assert lines[i] == "Q" + d + ": " + answers[i];
      assert forall k | 0 <= k < |d| :: d[k] != '\n';
    }
    SplitJoin(lines);
  }

  /** A line break inside an answer adds a line to the block: the line count above needs its precondition. */
  lemma MultiLineAnswerAddsLine()
    ensures SplitLines(AnswerBlock(["a\nb"])) == ["Q1: a", "b"]
  {
    assert NatToString(1) == "1";
    assert AnswerBlock(["a\nb"]) == "Q1: a" + "\n" + "b";
    SplitFirstLine("Q1: a", "b");
    SplitSingleLine("b");
  }

  /** No answers, no block: the prompt is the head followed directly by the tail. */
  lemma EmptyAnswersPrompt()
    ensures AnswerBlock([]) == ""
    ensures AnalysisPrompt([]) == PromptHead + PromptTail
  {
    assert NumberAnswers([], 1) == [];
    assert PromptHead + "" == PromptHead;
  }

  /** The head and tail do not depend on the answers, and the block sits between them. */
  lemma PromptFrame(answers: seq<string>)
    ensures StripFrame(AnalysisPrompt(answers), PromptHead, PromptTail) == Some(AnswerBlock(answers))
  {
    StripFrameConcat(PromptHead, AnswerBlock(answers), PromptTail);
  }

  lemma {:induction false} ReadAnswerLinesNumbered(answers: seq<string>, first: nat)
    ensures ReadAnswerLines(NumberAnswers(answers, first), first) == Some(answers)
    decreases |answers|
  {
    if answers != [] {
      var lines := NumberAnswers(answers, first);
      assert lines == [AnswerLine(first, answers[0])] + NumberAnswers(answers[1..], first + 1);
      AnswerLineRoundTrip(first, answers[0]);
      assert ParseAnswerLine(lines[0]) == Some((first, answers[0]));
      ReadAnswerLinesNumbered(answers[1..], first + 1);
      assert lines[1..] == NumberAnswers(answers[1..], first + 1);
      assert ReadAnswerLines(lines[1..], first + 1) == Some(answers[1..]);
      assert [answers[0]] + answers[1..] == answers;
    }
  }

  /** The block records the answers numbered from 1, as long as no answer holds a line break. */
  lemma BlockRoundTrip(answers: seq<string>)
    requires forall i | 0 <= i < |answers| :: '\n' !in answers[i]
    ensures ReadBlock(AnswerBlock(answers)) == Some(answers)
  {
    var block := AnswerBlock(answers);
    if answers == [] {
      assert block == "";
    } else {
      var lines := NumberAnswers(answers, 1);
      JoinLinesEnds(lines);
      NumberAnswersLines(answers, 1);
      assert lines[0] <= block && |lines[0]| > 0;
      BlockLines(answers);
      ReadAnswerLinesNumbered(answers, 1);
    }
  }

  /**
   * The prompt records the answers numbered 1, 2, ..., k with no gap, in
   * their order and verbatim, as long as no answer holds a line break.
   */
  lemma PromptRoundTrip(answers: seq<string>)
    requires forall i | 0 <= i < |answers| :: '\n' !in answers[i]
    ensures ReadPrompt(AnalysisPrompt(answers)) == Some(answers)
  {
    PromptFrame(answers);
    BlockRoundTrip(answers);
  }
}
