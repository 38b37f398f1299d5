/**
 * The conversation flow of a session (Services/Implementations/ConversationService.cs):
 * record the user turn, embed it, search the knowledge base, generate the
 * answer, record the answer. The embedding generator and the vector search are
 * foreign calls, given as oracles that return a value or the exception thrown.
 */
module Conversation {
  import opened Wrappers
  import opened Clr
  import opened History
  import Llm
  import VectorDb

  /** How many documents the knowledge-base search asks for. */
  const TopK: nat := 3

  /** One observable step of the service, in the order it happens. */
  datatype Step =
    | UserAppended(text: string)
    | EmbeddingRequested(text: string)
    | SearchRequested(vector: seq<real>, topK: nat)
    /** The answer is generated from a history of `historySize` messages and the retrieved documents. */
    | AnswerRequested(historySize: nat, chunks: seq<VectorDb.RetrievedDocument>)
    | AgentAppended(text: string)
    | CorrectionRequested(historySize: nat)

  class ConversationService {
    const history: SessionHistory
    /** The `LLM:Endpoint` setting. */
    const endpoint: Option<string>
    ghost var log: seq<Step>

    constructor (endpoint: Option<string>)
      ensures fresh(history) && history.messages == [] && log == []
      ensures this.endpoint == endpoint
    {
      history := new SessionHistory();
      this.endpoint := endpoint;
      log := [];
    }

    /**
     * `ProcessUserTextAsync`. The user turn is recorded first; a failing embedding
     * or search propagates and leaves it recorded without an answer.
     */
    method ProcessUserText(
      userText: string,
      embed: string -> Result<seq<real>, Exception>,
      search: (seq<real>, nat) -> Result<seq<VectorDb.RetrievedDocument>, Exception>)
      returns (r: Result<string, Exception>)
      modifies this, history
      ensures var user := Message(UserRole, userText);
              var n := |old(history.messages)|;
              var vector := embed(userText);
              match vector
              case Failure(e) =>
                && r == Failure(e)
                && history.messages == old(history.messages) + [user]
                && log == old(log) + [UserAppended(userText), EmbeddingRequested(userText)]
              case Success(v) =>
                match search(v, TopK)
                case Failure(e) =>
                  && r == Failure(e)
                  && history.messages == old(history.messages) + [user]
                  && log == old(log) + [UserAppended(userText), EmbeddingRequested(userText), SearchRequested(v, TopK)]
                case Success(chunks) =>
                  var answer := Llm.GenerateAnswer(endpoint, userText);
                  && r == Success(answer)
                  && history.messages == old(history.messages) + [user, Message(AssistantRole, answer)]
                  && log == old(log) + [UserAppended(userText), EmbeddingRequested(userText), SearchRequested(v, TopK),
                                        AnswerRequested(n + 1, chunks), AgentAppended(answer)]
    {
      history.AddUserUtterance(userText);
      log := log + [UserAppended(userText)];

      var vector := embed(userText);
      log := log + [EmbeddingRequested(userText)];
      if vector.Failure? {
        return Failure(vector.error);
      }

      var found := search(vector.value, TopK);
      log := log + [SearchRequested(vector.value, TopK)];
      if found.Failure? {
        return Failure(found.error);
      }

      log := log + [AnswerRequested(|history.messages|, found.value)];
      var answer := Llm.GenerateAnswer(endpoint, userText);

      history.AddAgentResponse(answer);
      log := log + [AgentAppended(answer)];
      r := Success(answer);
    }

    /** `CorrectUserTextAsync`: the corrected question, with the history read but not changed. */
    method CorrectUserText(userText: string, complete: Llm.ChatRequest -> Result<seq<Option<string>>, Exception>)
      returns (r: Result<string, Exception>)
      modifies this
      ensures history.messages == old(history.messages)
      ensures r == Llm.CorrectQuestion(userText, history.messages, complete)
      ensures log == old(log) + [CorrectionRequested(|history.messages|)]
    {
      log := log + [CorrectionRequested(|history.messages|)];
      r := Llm.CorrectQuestion(userText, history.messages, complete);
    }
  }

  /**
   * Two completed turns without an endpoint configured: each answer is the echo
   * of its question, and the history alternates user and assistant in turn order.
   */
  method TwoTurns(
    first: string, second: string,
    embed: string -> Result<seq<real>, Exception>,
    search: (seq<real>, nat) -> Result<seq<VectorDb.RetrievedDocument>, Exception>)
    returns (answers: seq<string>, messages: seq<Message>)
    requires embed(first).Success? && search(embed(first).value, TopK).Success?
    requires embed(second).Success? && search(embed(second).value, TopK).Success?
    ensures answers == [Llm.EchoAnswer(first), Llm.EchoAnswer(second)]
    ensures messages == [Message(UserRole, first), Message(AssistantRole, answers[0]),
                         Message(UserRole, second), Message(AssistantRole, answers[1])]
  {
    var service := new ConversationService(None);
    var a := service.ProcessUserText(first, embed, search);
    var b := service.ProcessUserText(second, embed, search);
    answers := [a.value, b.value];
    messages := service.history.messages;
  }
}
