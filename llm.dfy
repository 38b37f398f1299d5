/**
 * The language-model service (Services/Implementations/LlmService.cs): the answer
 * fallbacks, the question-correction call, and the two prompt builders.
 * The chat completion itself is a foreign call, given as an oracle.
 */
module Llm {
  import opened Wrappers
  import opened Clr
  import opened History

  // ------------------------------------------------------------ answers

  const Apology: string := "I apologize, but " + "I couldn't generate a response."

  /** The echo answer given when no language-model endpoint is configured. */
  function EchoAnswer(userQuery: string): string {
    "I understand you said: '" + userQuery + "'."
  }

  /**
   * `GenerateAnswerAsync`: with `LLM:Endpoint` null or empty, the echo; otherwise
   * the fixed apology, since the request code after the guard is commented out.
   * History and retrieved chunks do not influence the answer.
   */
  function GenerateAnswer(endpoint: Option<string>, userQuery: string): (answer: string)
    ensures IsNullOrEmpty(endpoint) ==> answer == EchoAnswer(userQuery)
    ensures !IsNullOrEmpty(endpoint) ==> answer == Apology
  {
    if IsNullOrEmpty(endpoint) then EchoAnswer(userQuery) else Apology
  }

  /** Unlike the earlier revision, the placeholder endpoint text is not special: it yields the apology. */
  lemma PlaceholderEndpointNotSpecial(userQuery: string)
    ensures GenerateAnswer(Some("YOUR_LLM_ENDPOINT"), userQuery) == Apology
  {
  }

  // ------------------------------------------------------- text helpers

  predicate StartsWith(s: string, prefix: string) {
    |prefix| <= |s| && s[..|prefix|] == prefix
  }

  predicate EndsWith(s: string, suffix: string) {
    |suffix| <= |s| && s[|s| - |suffix|..] == suffix
  }

  lemma {:induction false} StartsWithAppend(a: string, b: string, prefix: string)
    requires StartsWith(a, prefix)
    ensures StartsWith(a + b, prefix)
  {
    assert (a + b)[..|prefix|] == a[..|prefix|];
  }

  lemma {:induction false} EndsWithPrepend(a: string, b: string)
    ensures EndsWith(a + b, b)
  {
    assert (a + b)[|a + b| - |b|..] == b;
  }

  /** Where the three parts of `a + b + c` sit. */
  lemma {:induction false} ThreeParts(a: string, b: string, c: string)
    ensures |a + b + c| == |a| + |b| + |c|
    ensures StartsWith(a + b + c, a)
    ensures (a + b + c)[|a|..|a| + |b|] == b
    ensures EndsWith(a + b + c, c)
  {
    var s := a + b + c;
    assert s[..|a|] == a;
    assert s[|a|..|a| + |b|] == b;
    assert s[|s| - |c|..] == c;
  }

  // ------------------------------------------------------- BuildPrompt

  const ContextHeader: string := "Relevant context:\n"
  const HistoryHeader: string := "Conversation history:\n"
  const Instruction: string := "Please provide a helpful and concise response."

  /** One `AppendLine($"- {chunk}")`. */
  function Bullet(chunk: string): string {
    "- " + chunk + "\n"
  }

  /** The bullet lines of `chunks`, appended in order. */
  function Bullets(chunks: seq<string>): string {
    if chunks == [] then "" else Bullets(chunks[..|chunks| - 1]) + Bullet(chunks[|chunks| - 1])
  }

  /** The context block: present only when some chunk was retrieved. */
  function ContextBlock(chunks: seq<string>): string {
    if chunks == [] then "" else ContextHeader + Bullets(chunks) + "\n"
  }

  /** The history block: present only when the formatted history is not empty. */
  function HistoryBlock(recentHistory: string): string {
    if recentHistory == "" then "" else HistoryHeader + (recentHistory + "\n") + "\n"
  }

  /** One `AppendLine($"User question: {userQuery}")`. */
  function QuestionLine(userQuery: string): string {
    "User question: " + userQuery + "\n"
  }

  /** The two lines every prompt ends with. */
  function QuestionBlock(userQuery: string): string {
    QuestionLine(userQuery) + (Instruction + "\n")
  }

  /** The prompt text for the given chunks, formatted history and question. */
  function PromptText(chunks: seq<string>, recentHistory: string, userQuery: string): string {
    ContextBlock(chunks) + HistoryBlock(recentHistory) + QuestionBlock(userQuery)
  }

  lemma {:induction false} AppendAssoc(a: string, b: string, c: string)
    ensures a + b + c == a + (b + c)
  {
  }

  /** The StringBuilder steps of `BuildPrompt` once the history has been formatted. */
  method AssemblePrompt(chunks: seq<string>, recentHistory: string, userQuery: string) returns (prompt: string)
    ensures prompt == PromptText(chunks, recentHistory, userQuery)
  {
    var sb := "";
    if |chunks| > 0 {
      sb := sb + ContextHeader;
      assert sb == ContextHeader + Bullets(chunks[..0]);
      for i := 0 to |chunks|
        invariant sb == ContextHeader + Bullets(chunks[..i])
      {
        assert chunks[..i + 1][..i] == chunks[..i];
        AppendAssoc(ContextHeader, Bullets(chunks[..i]), Bullet(chunks[i]));
        sb := sb + Bullet(chunks[i]);
      }
      assert chunks[..|chunks|] == chunks;
      sb := sb + "\n";
    }
    ghost var context := sb;
    assert context == ContextBlock(chunks);
    if recentHistory != "" {
      sb := sb + HistoryHeader;
      sb := sb + (recentHistory + "\n");
      sb := sb + "\n";
      AppendAssoc(context + HistoryHeader, recentHistory + "\n", "\n");
      AppendAssoc(context, HistoryHeader, recentHistory + "\n");
      AppendAssoc(context, HistoryHeader + (recentHistory + "\n"), "\n");
    }
    assert sb == ContextBlock(chunks) + HistoryBlock(recentHistory);
    ghost var beforeQuestion := sb;
    sb := sb + QuestionLine(userQuery);
    sb := sb + (Instruction + "\n");
    AppendAssoc(beforeQuestion, QuestionLine(userQuery), Instruction + "\n");
    prompt := sb;
  }

  /** `BuildPrompt`: the last five messages of the history feed the history block. */
  method BuildPrompt(history: SessionHistory, chunks: seq<string>, userQuery: string) returns (prompt: string)
    ensures prompt == PromptText(chunks, FormattedHistory(history.messages, 5), userQuery)
  {
    var recentHistory := history.GetFormattedHistory(5);
    prompt := AssemblePrompt(chunks, recentHistory, userQuery);
  }

  lemma {:induction false} BulletsAppend(a: seq<string>, b: seq<string>)
    ensures Bullets(a + b) == Bullets(a) + Bullets(b)
    decreases |b|
  {
    if b == [] {
      assert a + b == a;
    } else {
      assert (a + b)[..|a + b| - 1] == a + b[..|b| - 1];
      BulletsAppend(a, b[..|b| - 1]);
    }
  }

  /** Every chunk gets its own bullet line, in the order the chunks were retrieved. */
  lemma {:induction false} BulletsInOrder(chunks: seq<string>, i: nat)
    requires i < |chunks|
    ensures Bullets(chunks) == Bullets(chunks[..i]) + Bullet(chunks[i]) + Bullets(chunks[i + 1..])
  {
    assert chunks == chunks[..i] + [chunks[i]] + chunks[i + 1..];
    BulletsAppend(chunks[..i] + [chunks[i]], chunks[i + 1..]);
    BulletsAppend(chunks[..i], [chunks[i]]);
    assert [chunks[i]][..0] == [];
  }

  lemma {:induction false} HeadChar(a: string, b: string)
    requires a != ""
    ensures (a + b)[0] == a[0]
  {
  }

  lemma {:induction false} FirstCharRules(s: string, prefix: string)
    requires s != "" && prefix != "" && s[0] != prefix[0]
    ensures !StartsWith(s, prefix)
  {
  }

  /** A prompt without context opens with the history header or, lacking history, the question. */
  lemma {:induction false} RestFirstChar(recentHistory: string, userQuery: string)
    ensures var rest := HistoryBlock(recentHistory) + QuestionBlock(userQuery);
            rest != "" && rest[0] == if recentHistory == "" then 'U' else 'C'
  {
    HeadChar(QuestionLine(userQuery), Instruction + "\n");
    HeadChar("User question: " + userQuery, "\n");
    HeadChar("User question: ", userQuery);
    if recentHistory != "" {
      HeadChar(HistoryBlock(recentHistory), QuestionBlock(userQuery));
      HeadChar(HistoryHeader + (recentHistory + "\n"), "\n");
      HeadChar(HistoryHeader, recentHistory + "\n");
    }
  }

  /** The prompt opens with the context header exactly when some chunk was retrieved. */
  lemma {:induction false} PromptContextIff(chunks: seq<string>, recentHistory: string, userQuery: string)
    ensures StartsWith(PromptText(chunks, recentHistory, userQuery), ContextHeader) <==> chunks != []
  {
    var rest := HistoryBlock(recentHistory) + QuestionBlock(userQuery);
    var p := PromptText(chunks, recentHistory, userQuery);
    AppendAssoc(ContextBlock(chunks), HistoryBlock(recentHistory), QuestionBlock(userQuery));
    if chunks != [] {
      StartsWithAppend(ContextHeader, Bullets(chunks), ContextHeader);
      StartsWithAppend(ContextHeader + Bullets(chunks), "\n", ContextHeader);
      StartsWithAppend(ContextBlock(chunks), rest, ContextHeader);
    } else {
      assert p == rest;
      RestFirstChar(recentHistory, userQuery);
      assert ContextHeader[0] == 'R';
      FirstCharRules(p, ContextHeader);
    }
  }

  /** After the context block, the history header appears exactly when the formatted history is not empty. */
  lemma {:induction false} PromptHistoryIff(chunks: seq<string>, recentHistory: string, userQuery: string)
    ensures var rest := HistoryBlock(recentHistory) + QuestionBlock(userQuery);
            && PromptText(chunks, recentHistory, userQuery) == ContextBlock(chunks) + rest
            && (StartsWith(rest, HistoryHeader) <==> recentHistory != "")
  {
    var rest := HistoryBlock(recentHistory) + QuestionBlock(userQuery);
    if recentHistory != "" {
      StartsWithAppend(HistoryHeader, recentHistory + "\n", HistoryHeader);
      StartsWithAppend(HistoryHeader + (recentHistory + "\n"), "\n", HistoryHeader);
      StartsWithAppend(HistoryBlock(recentHistory), QuestionBlock(userQuery), HistoryHeader);
    } else {
      RestFirstChar(recentHistory, userQuery);
      assert HistoryHeader[0] == 'C';
      FirstCharRules(rest, HistoryHeader);
    }
  }

  /** Whatever the chunks and history, the prompt ends with the question line and the instruction line. */
  lemma PromptEndsWithQuestion(chunks: seq<string>, recentHistory: string, userQuery: string)
    ensures EndsWith(PromptText(chunks, recentHistory, userQuery), QuestionBlock(userQuery))
  {
    EndsWithPrepend(ContextBlock(chunks) + HistoryBlock(recentHistory), QuestionBlock(userQuery));
  }

  /** The history block of `BuildPrompt` is present exactly when the session has messages. */
  lemma BuildPromptHistoryIff(messages: seq<Message>, chunks: seq<string>, userQuery: string)
    ensures var rest := HistoryBlock(FormattedHistory(messages, 5)) + QuestionBlock(userQuery);
            StartsWith(rest, HistoryHeader) <==> messages != []
  {
    FormattedHistoryEmptyIff(messages, 5);
    PromptHistoryIff(chunks, FormattedHistory(messages, 5), userQuery);
  }

  // ---------------------------------------- BuildCorrectionSystemPrompt

  /** The instructions of the correction prompt, up to the history header. */
  const CorrectionPreamble: string :=
    "## Role and Context\n"
    + "You are a specialized speech correction AI supporting Bulgaria Air's customer service assistant. "
    + "Your function is to process speech-to-text output in Bulgarian and ensure accurate interpretation of customer inquiries.\n"
    + "\n"
    + "## Primary Objectives\n"
    + "- Analyze input text for speech recognition errors\n"
    + "- Correct misheard words, phrases, and grammatical mistakes\n"
    + "- Remove duplicate words or phrases\n"
    + "- Produce clear, coherent, and contextually accurate output\n"
    + "\n"
    + "## Input Context\n"
    + "Conversation history is provided to inform your corrections and maintain contextual accuracy.\n"
    + "\n"
    + "## Language\n"
    + "All input and output text is in Bulgarian.\n"
    + "\n"
    + "## Output Format\n"
    + "Return only the corrected text without explanations, comments, or metadata.\n"
    + "\n"
    + "---\n"
    + "\n"

  const CorrectionHistoryHeader: string := "CONVERSATION HISTORY:\n"
  const CorrectionQuestionHeader: string := "TEXT TO CORRECT:\n"

  /**
   * The raw interpolated string of `BuildCorrectionSystemPrompt` (its common
   * indentation removed, as C# raw literals do) for a formatted history.
   */
  function CorrectionPrompt(question: string, recentHistory: string): (prompt: string)
    ensures StartsWith(prompt, CorrectionPreamble + CorrectionHistoryHeader)
    ensures |prompt| == |CorrectionPreamble + CorrectionHistoryHeader| + |recentHistory| + |CorrectionQuestionHeader| + |question| + 2
    ensures var start := |CorrectionPreamble + CorrectionHistoryHeader|;
            prompt[start..start + |recentHistory|] == recentHistory
    ensures EndsWith(prompt, "\n\n" + CorrectionQuestionHeader + question)
  {
    var head := CorrectionPreamble + CorrectionHistoryHeader;
    var tail := "\n\n" + CorrectionQuestionHeader + question;
    ThreeParts(head, recentHistory, tail);
    head + recentHistory + tail
  }

  /**
   * `BuildCorrectionSystemPrompt`: the instructions, then the formatted last ten
   * messages right after the history header, and the question at the very end.
   */
  function BuildCorrectionSystemPrompt(question: string, messages: seq<Message>): (prompt: string)
    ensures StartsWith(prompt, CorrectionPreamble + CorrectionHistoryHeader)
    ensures var start := |CorrectionPreamble + CorrectionHistoryHeader|;
            var recent := FormattedHistory(messages, 10);
            start + |recent| <= |prompt| && prompt[start..start + |recent|] == recent
    ensures EndsWith(prompt, "\n\n" + CorrectionQuestionHeader + question)
  {
    CorrectionPrompt(question, FormattedHistory(messages, 10))
  }

  // ---------------------------------------------------- CorrectQuestion

  /** The chat-completion request `CorrectQuestion` issues. */
  datatype ChatRequest = ChatRequest(
    model: string,
    systemPrompt: string,
    temperature: real,
    maxOutputTokens: int,
    topP: real)

  function CorrectionRequest(question: string, messages: seq<Message>): (req: ChatRequest)
    ensures req.model == "gpt-4o-mini" && req.temperature == 0.2
    ensures req.maxOutputTokens == 500 && req.topP == 1.0
    ensures req.systemPrompt == BuildCorrectionSystemPrompt(question, messages)
  {
    ChatRequest("gpt-4o-mini", BuildCorrectionSystemPrompt(question, messages), 0.2, 500, 1.0)
  }

  /**
   * `CorrectQuestion`: the first content part's text, or the question itself when
   * that text is null. `complete` is the chat client: the content parts of its
   * reply, or the exception it threw. An empty reply makes `Content[0]` throw.
   */
  function CorrectQuestion(
    question: string, messages: seq<Message>,
    complete: ChatRequest -> Result<seq<Option<string>>, Exception>): (r: Result<string, Exception>)
    ensures var reply := complete(CorrectionRequest(question, messages));
            && (reply.Failure? ==> r == Failure(reply.error))
            && (reply.Success? && |reply.value| > 0 ==>
                  r == Success(reply.value[0].GetOr(question)))
            && (reply.Success? && |reply.value| == 0 ==> r.Failure?)
  {
    match complete(CorrectionRequest(question, messages))
    case Failure(e) => Failure(e)
    case Success(parts) =>
      if |parts| == 0 then Failure(Exception("ArgumentOutOfRangeException",
                                              ["ArgumentException", "SystemException", "Exception"],
                                              "Index was out of range."))
      else if parts[0].Some? then Success(parts[0].value)
      else Success(question)
  }
}
