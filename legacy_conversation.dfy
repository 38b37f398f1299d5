/**
 * The earlier, single-file revision of the conversation services
 * (ConversationService.cs): its own SessionHistory, a placeholder retrieval
 * service, an LLM service whose answers depend only on configuration, and the
 * conversation flow. The prompt texts are the same as in the later revision
 * and are shared with module Llm.
 */
module LegacyConversation {
  import opened Wrappers
  import opened Clr
  import History
  import Llm

  /**
   * The history of this revision. `GetMessages` hands out the list itself, so a
   * caller that changes it changes the history.
   */
  class SessionHistory {
    const messages: History.MessageList

    constructor ()
      ensures fresh(messages) && messages.items == []
    {
      messages := new History.MessageList([]);
    }

    method AddUserUtterance(text: string)
      modifies messages
      ensures messages.items == old(messages.items) + [History.Message(History.UserRole, text)]
    {
      messages.Add(History.Message(History.UserRole, text));
    }

    method AddAgentResponse(text: string)
      modifies messages
      ensures messages.items == old(messages.items) + [History.Message(History.AssistantRole, text)]
    {
      messages.Add(History.Message(History.AssistantRole, text));
    }

    /** The live list, not a copy. */
    method GetMessages() returns (r: History.MessageList)
      ensures r == messages
    {
      r := messages;
    }

    method GetFormattedHistory(maxMessages: int := History.DefaultWindow) returns (text: string)
      ensures text == History.FormattedHistory(messages.items, maxMessages)
    {
      text := History.FormatRecent(messages.items, maxMessages);
    }
  }

  /** A message added to the list `GetMessages` returned shows up in the history. */
  method GetMessagesAliases(h: SessionHistory, m: History.Message) returns (formatted: string)
    modifies h.messages
    ensures h.messages.items == old(h.messages.items) + [m]
    ensures formatted == History.FormattedHistory(old(h.messages.items) + [m], History.DefaultWindow)
  {
    var list := h.GetMessages();
    list.Add(m);
    formatted := h.GetFormattedHistory();
  }

  // ------------------------------------------------------ RetrievalService

  const PlaceholderApiKey: string := "YOUR_API_KEY"

  /**
   * `QueryAsync`: both the unconfigured path and the stub of the configured one
   * return an empty list, so no context ever reaches the prompt.
   */
  function QueryAsync(pineconeApiKey: Option<string>, query: string): (chunks: seq<string>)
    ensures chunks == []
  {
    if IsNullOrEmpty(pineconeApiKey) || pineconeApiKey == Some(PlaceholderApiKey) then []
    else []
  }

  // ------------------------------------------------------------ LlmService

  const PlaceholderEndpoint: string := "YOUR_LLM_ENDPOINT"

  /**
   * `GenerateAnswerAsync` of this revision: the echo when `LLM:Endpoint` is null,
   * empty or the placeholder text, the fixed apology otherwise (the request code
   * is commented out, so its catch is never reached).
   */
  function GenerateAnswer(endpoint: Option<string>, userQuery: string): (answer: string)
    ensures IsNullOrEmpty(endpoint) || endpoint == Some(PlaceholderEndpoint) ==> answer == Llm.EchoAnswer(userQuery)
    ensures !IsNullOrEmpty(endpoint) && endpoint != Some(PlaceholderEndpoint) ==> answer == Llm.Apology
  {
    if IsNullOrEmpty(endpoint) || endpoint == Some(PlaceholderEndpoint) then Llm.EchoAnswer(userQuery)
    else Llm.Apology
  }

  /** The echo is never the apology: the texts differ at their third character. */
  lemma EchoIsNotApology(userQuery: string)
    ensures Llm.EchoAnswer(userQuery) != Llm.Apology
  {
    var echo := Llm.EchoAnswer(userQuery);
    assert echo == "I understand you said: '" + (userQuery + "'.");
    assert echo[2] == 'u';
    assert Llm.Apology[2] == 'a';
  }

  /** The two revisions answer alike except on the placeholder endpoint. */
  lemma RevisionsDifferOnlyOnPlaceholder(endpoint: Option<string>, userQuery: string)
    ensures GenerateAnswer(endpoint, userQuery) != Llm.GenerateAnswer(endpoint, userQuery)
            <==> endpoint == Some(PlaceholderEndpoint)
  {
    EchoIsNotApology(userQuery);
  }

  /** `BuildPrompt` over this revision's history; the text is that of the later revision. */
  method BuildPrompt(history: SessionHistory, chunks: seq<string>, userQuery: string) returns (prompt: string)
    ensures prompt == Llm.PromptText(chunks, History.FormattedHistory(history.messages.items, 5), userQuery)
  {
    var recentHistory := history.GetFormattedHistory(5);
    prompt := Llm.AssemblePrompt(chunks, recentHistory, userQuery);
  }

  /** `BuildCorrectionSystemPrompt` over this revision's history: the last ten messages, then the question. */
  method BuildCorrectionSystemPrompt(question: string, history: SessionHistory) returns (prompt: string)
    ensures prompt == Llm.BuildCorrectionSystemPrompt(question, history.messages.items)
  {
    var recentHistory := history.GetFormattedHistory(10);
    prompt := Llm.CorrectionPrompt(question, recentHistory);
  }

  // --------------------------------------------------- ConversationService

  /** One observable step of the service, in the order it happens. */
  datatype Step =
    | UserAppended(text: string)
    | ContextQueried(query: string)
    | AnswerRequested(historySize: nat, chunks: seq<string>)
    | AgentAppended(text: string)

  class ConversationService {
    const history: SessionHistory
    /** The `LLM:Endpoint` and `Pinecone:ApiKey` settings. */
    const endpoint: Option<string>
    const pineconeApiKey: Option<string>
    ghost var log: seq<Step>

    constructor (endpoint: Option<string>, pineconeApiKey: Option<string>)
      ensures fresh(history) && fresh(history.messages) && history.messages.items == [] && log == []
      ensures this.endpoint == endpoint && this.pineconeApiKey == pineconeApiKey
    {
      history := new SessionHistory();
      this.endpoint := endpoint;
      this.pineconeApiKey := pineconeApiKey;
      log := [];
    }

    /** `ProcessUserTextAsync`: nothing here can fail, so every turn adds exactly two messages. */
    method ProcessUserText(userText: string) returns (answer: string)
      modifies this, history.messages
      ensures answer == GenerateAnswer(endpoint, userText)
      ensures history.messages.items == old(history.messages.items)
                + [History.Message(History.UserRole, userText), History.Message(History.AssistantRole, answer)]
      ensures log == old(log) + [UserAppended(userText), ContextQueried(userText),
                                 AnswerRequested(|old(history.messages.items)| + 1, []), AgentAppended(answer)]
    {
      history.AddUserUtterance(userText);
      log := log + [UserAppended(userText)];

      var chunks := QueryAsync(pineconeApiKey, userText);
      log := log + [ContextQueried(userText)];

      log := log + [AnswerRequested(|history.messages.items|, chunks)];
      answer := GenerateAnswer(endpoint, userText);

      history.AddAgentResponse(answer);
      log := log + [AgentAppended(answer)];
    }

    /** `CorrectUserTextAsync`: the corrected question; the history is only read. */
    method CorrectUserText(userText: string, complete: Llm.ChatRequest -> Result<seq<Option<string>>, Exception>)
      returns (r: Result<string, Exception>)
      ensures r == Llm.CorrectQuestion(userText, history.messages.items, complete)
    {
      r := Llm.CorrectQuestion(userText, history.messages.items, complete);
    }
  }
}
