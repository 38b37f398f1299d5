# Voice agent: a verified model of the session protocol

The repository is a voice assistant. A browser client captures microphone
audio and streams it over a WebSocket to an ASP.NET server. The server feeds
the audio to a speech recognizer. For every final recognition result it runs
one *turn*: it corrects the text with a language model, pauses recognition,
asks the conversation service for an answer, sends the synthesized speech
back and resumes recognition. The client plays the speech through a FIFO
queue and pauses capture while a chunk plays.

This project models, in Dafny:

- the server's session handler in both revisions:
  - `Handlers/VoiceSessionHandler.cs`, module `SessionHandler`, which shows transcripts;
  - the earlier `VoiceSessionHandler.cs`, module `LegacySessionHandler`, which does not;
  - their shared plumbing (guarded sends, the receive loop, text-frame classification, the audio intake, speech synthesis, cleanup), module `SessionCommon`;
  - the turn as a pure function producing a trace of effects, module `Turns`. Each handler's `ProcessRecognizedText` is proved to perform exactly that trace;
- the services behind a turn:
  - the session history (`History`);
  - both conversation services (`Conversation`, `LegacyConversation`);
  - the prompt builders and answer fallbacks of the LLM service (`Llm`);
  - the mapping code of the vector database service (`VectorDb`);
  - the exception middleware (`ExceptionHandling`);
  - the two settings validators (`Settings`);
- the client:
  - the capture worklet (`PcmCapture`);
  - the playback service (`PlaybackQueue` for its state machine, `AudioPlayback` for the class);
  - the WebSocket service (`WsClient`) and the hook over it (`UseWebSocket`);
  - the session component's playback queue and message handling (`SessionView` for the state machine, `VoiceSessionUi` for the component object);
  - shared client values (`JsClient`).

Shared helpers live in `common.dfy`: an `Option`/`Result` pair, .NET exceptions and string helpers, and a JSON value type.

Foreign services are parameters: the speech recognizer's and synthesizer's outcomes, the language model's completion, the embedding generator and the vector index. Each is an oracle that returns a value or fails. Asynchronous callbacks are atomic events on one thread. Browser completions, such as a decode settling or a source ending, are separate operations that take the browser's verdict as a parameter.

Where the code and its design description disagree, the model follows the code:

- a pause message to the capture worklet does not clear its buffer, so samples buffered before a pause are sent after the resume (`PcmCapture.PauseKeepsBuffered`);
- a text frame whose JSON is not an object, or whose `type` is neither a string nor null, makes the server throw `InvalidOperationException`. Only `JsonException` is caught, so this ends the receive loop (`SessionCommon.ClassifyText`);
- the recognition flag starts false although the session starts the recognizer, so the catch block of a first turn restarts a running recognizer (`Turns.FirstTurnRestartsRunningRecognizer`).

## Model

| member | source | states |
|---|---|---|
| Settings.OpenAIDefaults | VoiceAgentApi/Models/Settings/OpenAISettings.cs:7-12 | the initialisers: empty key, "gpt-4", "text-embedding-3-small", temperature 0.2, 500 tokens, top-p 1.0 |
| Settings.ValidateOpenAI | VoiceAgentApi/Models/Settings/OpenAISettings.cs:18-31 | a blank key fails first; the settings pass exactly when the key is non-blank, 0 <= temperature <= 2, MaxTokens > 0 and 0 <= TopP <= 1; each later failure implies every earlier check passed |
| Settings.OpenAIDefaultsValid | VoiceAgentApi/Models/Settings/OpenAISettings.cs:7-31 | the defaults with any non-blank key validate |
| Settings.PineconeDefaults | VoiceAgentApi/PineconeSettings.cs:8-14 | the initialisers: empty key, region "us-east-1", model "text-embedding-3-small", dimension 1536, namespace "__default__", index "bulgariaair" |
| Settings.ValidatePinecone | VoiceAgentApi/PineconeSettings.cs:20-30 | a blank key fails first; the settings pass exactly when the key is non-blank, Dimension > 0 and the region is non-blank; region and dimension failures imply the earlier checks passed |
| Settings.PineconeDefaultsValid | VoiceAgentApi/PineconeSettings.cs:8-30 | the defaults with any non-blank key validate |
| ExceptionHandling.StatusFor | VoiceAgentApi/Middleware/ExceptionHandlingMiddleware.cs:41-48 | argument exceptions and invalid-operation exceptions give 400; 401 exactly for an unauthorized-access exception that is no argument exception; 500 exactly for every other exception; nothing else comes out |
| ExceptionHandling.GetTitle | VoiceAgentApi/Middleware/ExceptionHandlingMiddleware.cs:75-83 | the reason phrases of 400, 401 and 500; the generic title exactly for a code outside 400, 401, 403, 404 and 500 |
| ExceptionHandling.ProblemFor | VoiceAgentApi/Middleware/ExceptionHandlingMiddleware.cs:50-62 | status and title follow the exception; the generic title never appears; the message is shown, and traceId and exception type are added, exactly in development |
| ExceptionHandling.HttpResponse.HandleException | VoiceAgentApi/Middleware/ExceptionHandlingMiddleware.cs:39-73 | the response gets the problem+json content type, the problem's status code, and exactly one problem document appended |
| History.TakeLast | VoiceAgentApi/Services/Implementations/SessionHistory.cs:43 | LINQ TakeLast: min(n, length) elements, none when n <= 0, and they are the suffix of the list |
| History.FormatAllAppend | VoiceAgentApi/Services/Implementations/SessionHistory.cs:44-49 | formatting distributes over concatenation, so lines appear oldest first |
| History.FormatAllCons | VoiceAgentApi/Services/Implementations/SessionHistory.cs:44-49 | read front to back, the text is the first message's line followed by the rest |
| History.FormatAllEmptyIff | VoiceAgentApi/Services/Implementations/SessionHistory.cs:44-49 | the formatted text is empty exactly when there is no message |
| History.FormattedHistoryEmptyIff | VoiceAgentApi/Services/Implementations/SessionHistory.cs:39-51 | the formatted history is empty exactly when there is no message or the window is not positive |
| History.FormattedHistoryWholeWhenWide | VoiceAgentApi/Services/Implementations/SessionHistory.cs:39-51 | a window at least the history's length formats the whole history |
| History.FormatRecent | VoiceAgentApi/Services/Implementations/SessionHistory.cs:43-49 | the StringBuilder loop yields the role and content lines of the last maxMessages messages |
| History.MessageList.Add | VoiceAgentApi/Services/Implementations/SessionHistory.cs:19 | List.Add appends the message at the end |
| History.SessionHistory.constructor | VoiceAgentApi/Services/Implementations/SessionHistory.cs:12 | a new history is empty |
| History.SessionHistory.AddUserUtterance | VoiceAgentApi/Services/Implementations/SessionHistory.cs:15-21 | appends exactly one user message with the text |
| History.SessionHistory.AddAgentResponse | VoiceAgentApi/Services/Implementations/SessionHistory.cs:23-29 | appends exactly one assistant message with the text |
| History.SessionHistory.GetMessages | VoiceAgentApi/Services/Implementations/SessionHistory.cs:31-37 | returns a fresh list holding the current messages, which the caller cannot use to change the history |
| History.SessionHistory.GetFormattedHistory | VoiceAgentApi/Services/Implementations/SessionHistory.cs:39-51 | the returned text is the formatted last maxMessages messages, with a default window of 10 |
| History.TurnFormatsInOrder | VoiceAgentApi/Services/Implementations/SessionHistory.cs:15-51 | a user turn followed by an agent turn formats as the user line, then the assistant line, after the earlier history |
| Llm.GenerateAnswer | VoiceAgentApi/Services/Implementations/LlmService.cs:49-108 | with LLM:Endpoint null or empty, the echo of the query; otherwise the fixed apology, because the request code is commented out |
| Llm.PlaceholderEndpointNotSpecial | VoiceAgentApi/Services/Implementations/LlmService.cs:51-56 | the placeholder endpoint text of the earlier revision gets the apology here, not the echo |
| Llm.AssemblePrompt | VoiceAgentApi/Services/Implementations/LlmService.cs:112-135 | the StringBuilder steps yield the context block (only when chunks exist), the history block (only when the history text is non-empty), then the question and instruction lines |
| Llm.BuildPrompt | VoiceAgentApi/Services/Implementations/LlmService.cs:110-136 | the prompt is built with the session's last five messages as history |
| Llm.BulletsAppend | VoiceAgentApi/Services/Implementations/LlmService.cs:117-120 | bullet lines distribute over concatenation of the chunk list |
| Llm.BulletsInOrder | VoiceAgentApi/Services/Implementations/LlmService.cs:117-120 | every chunk gets its own bullet line, in retrieval order |
| Llm.PromptContextIff | VoiceAgentApi/Services/Implementations/LlmService.cs:114-122 | the prompt opens with the context header exactly when some chunk was retrieved |
| Llm.PromptHistoryIff | VoiceAgentApi/Services/Implementations/LlmService.cs:124-130 | after the context block, the history header appears exactly when the formatted history is non-empty |
| Llm.PromptEndsWithQuestion | VoiceAgentApi/Services/Implementations/LlmService.cs:132-135 | every prompt ends with the question line and the instruction line |
| Llm.BuildPromptHistoryIff | VoiceAgentApi/Services/Implementations/LlmService.cs:124-130 | the history block of BuildPrompt appears exactly when the session has messages |
| Llm.CorrectionPrompt | VoiceAgentApi/Services/Implementations/LlmService.cs:141-167 | the prompt starts with the instructions and the history header, carries the history text right after it, and ends with the question header and the question; its length is the sum of its parts |
| Llm.BuildCorrectionSystemPrompt | VoiceAgentApi/Services/Implementations/LlmService.cs:138-170 | the last ten messages, formatted, sit right after the history header, and the prompt ends with the question |
| Llm.CorrectionRequest | VoiceAgentApi/Services/Implementations/LlmService.cs:30-37 | model gpt-4o-mini, temperature 0.2, 500 output tokens, top-p 1.0, and the correction prompt |
| Llm.CorrectQuestion | VoiceAgentApi/Services/Implementations/LlmService.cs:28-47 | a failing chat call propagates its exception; an empty reply throws; otherwise the first part's text, or the question when that text is null |
| VectorDb.MetadataText | VoiceAgentApi/Services/Implementations/VectorDatabaseService.cs:74-76 | null metadata or a null value gives ""; a missing key makes the indexer throw KeyNotFoundException; otherwise the stored text |
| VectorDb.SearchRequest | VoiceAgentApi/Services/Implementations/VectorDatabaseService.cs:54-60 | the query carries the vector and topK, asks for metadata and not for values |
| VectorDb.Search | VoiceAgentApi/Services/Implementations/VectorDatabaseService.cs:48-88 | a failing query rethrows its exception; a null response or null Matches gives the empty list; otherwise the documents of the matches, in order, or the first exception a match throws |
| VectorDb.MapMatchesFailurePropagates | VoiceAgentApi/Services/Implementations/VectorDatabaseService.cs:69-79 | once a match throws, the loop's result is that exception |
| VectorDb.MapMatchesPointwise | VoiceAgentApi/Services/Implementations/VectorDatabaseService.cs:69-79 | one document per match, in match order, each built from its own match, ids copied |
| VectorDb.MapMatchesFailsIff | VoiceAgentApi/Services/Implementations/VectorDatabaseService.cs:69-79 | the search fails exactly when some match has a metadata dictionary that lacks title, url or content |
| VectorDb.MapMatchDefaults | VoiceAgentApi/Services/Implementations/VectorDatabaseService.cs:73-77 | a match without metadata yields empty texts, and a null score yields 0 |
| VectorDb.MapMatchFields | VoiceAgentApi/Services/Implementations/VectorDatabaseService.cs:73-77 | a complete dictionary supplies the three texts, null values becoming "" |
| VectorDb.SearchResultEmpty | VoiceAgentApi/Services/Implementations/VectorDatabaseService.cs:62-66 | a null response, null Matches or no matches yield the empty list |
| VectorDb.ConvertToMetadataValue | VoiceAgentApi/Services/Implementations/VectorDatabaseService.cs:200-212 | strings, ints, longs, floats, doubles and booleans keep their value; null becomes ""; any other object becomes its text, or "" when that is null |
| VectorDb.EnrichedMetadataContents | VoiceAgentApi/Services/Implementations/VectorDatabaseService.cs:101-107 | the stored keys are the caller's keys plus "content"; content overrides a caller's "content"; every other caller value is converted |
| VectorDb.StoreDocument | VoiceAgentApi/Services/Implementations/VectorDatabaseService.cs:90-124 | without an index client nothing is upserted; otherwise exactly one vector with the id, the embedding and the enriched metadata |
| VectorDb.DeleteDocument | VoiceAgentApi/Services/Implementations/VectorDatabaseService.cs:126-141 | true exactly when the delete of that one id on the configured index went through |
| VectorDb.CreateIndexIfNotExists | VoiceAgentApi/Services/Implementations/VectorDatabaseService.cs:143-189 | a create request is issued exactly when the listing succeeded, is not null and lacks the name; it asks for the settings' dimension, cosine, AWS, the settings' region and no deletion protection |
| VectorDb.CreateIndexIdempotent | VoiceAgentApi/Services/Implementations/VectorDatabaseService.cs:153 | once the index is listed, a second call creates nothing |
| Conversation.ConversationService.constructor | VoiceAgentApi/Services/Implementations/ConversationService.cs:15-24 | the service starts with an empty history of its own |
| Conversation.ConversationService.ProcessUserText | VoiceAgentApi/Services/Implementations/ConversationService.cs:26-40 | the user turn is appended first, then the embedding and the top-3 search are requested; a failing embedding or search propagates and leaves only the user turn; otherwise the answer is generated from a history that already holds the user turn, appended as the assistant turn, and returned |
| Conversation.ConversationService.CorrectUserText | VoiceAgentApi/Services/Implementations/ConversationService.cs:42-46 | the corrected question from the current history, which is left unchanged |
| Conversation.TwoTurns | VoiceAgentApi/Services/Implementations/ConversationService.cs:26-40 | two completed turns without an endpoint answer each question with its echo and leave the history alternating user and assistant in turn order |
| LegacyConversation.SessionHistory.constructor | VoiceAgentApi/ConversationService.cs:42 | a new history holds a fresh, empty list |
| LegacyConversation.SessionHistory.AddUserUtterance | VoiceAgentApi/ConversationService.cs:44-47 | appends exactly one user message with the text |
| LegacyConversation.SessionHistory.AddAgentResponse | VoiceAgentApi/ConversationService.cs:49-52 | appends exactly one assistant message with the text |
| LegacyConversation.SessionHistory.GetMessages | VoiceAgentApi/ConversationService.cs:54 | returns the live list itself, not a copy |
| LegacyConversation.SessionHistory.GetFormattedHistory | VoiceAgentApi/ConversationService.cs:56-65 | the formatted last maxMessages messages, the same text as the later revision, default window 10 |
| LegacyConversation.GetMessagesAliases | VoiceAgentApi/ConversationService.cs:54-65 | a message added to the list GetMessages returned becomes part of the history and of its formatted text |
| LegacyConversation.QueryAsync | VoiceAgentApi/ConversationService.cs:91-117 | every path returns the empty list |
| LegacyConversation.GenerateAnswer | VoiceAgentApi/ConversationService.cs:153-211 | the echo when LLM:Endpoint is null, empty or "YOUR_LLM_ENDPOINT"; the fixed apology otherwise |
| LegacyConversation.EchoIsNotApology | VoiceAgentApi/ConversationService.cs:156-210 | the echo answer never equals the apology |
| LegacyConversation.RevisionsDifferOnlyOnPlaceholder | VoiceAgentApi/ConversationService.cs:153-211 | the two revisions give different answers exactly on the placeholder endpoint |
| LegacyConversation.BuildPrompt | VoiceAgentApi/ConversationService.cs:213-239 | the prompt text of the later revision over the last five messages of this history |
| LegacyConversation.BuildCorrectionSystemPrompt | VoiceAgentApi/ConversationService.cs:241-273 | the correction prompt of the later revision over this history's last ten messages |
| LegacyConversation.ConversationService.constructor | VoiceAgentApi/ConversationService.cs:12-17 | the service starts with a fresh, empty history |
| LegacyConversation.ConversationService.ProcessUserText | VoiceAgentApi/ConversationService.cs:19-31 | the user turn is appended, the context queried, the answer generated from a history holding the user turn and no chunks, then appended and returned; the history grows by exactly those two messages |
| LegacyConversation.ConversationService.CorrectUserText | VoiceAgentApi/ConversationService.cs:33-37 | the corrected question from the current history, which is only read |
| SessionCommon.ServerSocket.Send | VoiceAgentApi/Handlers/VoiceSessionHandler.cs:258-263 | a send goes through exactly when the socket is open and its transport works; otherwise it throws and nothing is sent; the state is untouched |
| SessionCommon.ServerSocket.Close | VoiceAgentApi/Handlers/VoiceSessionHandler.cs:123 | the close handshake leaves the socket Closed with the given description and sends no frame |
| SessionCommon.Emit | VoiceAgentApi/Handlers/VoiceSessionHandler.cs:285-294 | a guarded send writes the frame exactly when the socket is writable, and nothing otherwise |
| SessionCommon.SendMessage | VoiceAgentApi/Handlers/VoiceSessionHandler.cs:279-344 | a transcript, status or error message goes out only while the socket is open, and a failed send is caught: the socket gains that frame or nothing, and its state is untouched |
| SessionCommon.SpeakFrames | VoiceAgentApi/Handlers/VoiceSessionHandler.cs:248-277 | synthesis sends at most one frame: the audio, only when synthesis completed on a writable socket; an error frame exactly when synthesis was canceled or threw on a writable socket; nothing on a closed socket |
| SessionCommon.SpeakAndSend | VoiceAgentApi/Handlers/VoiceSessionHandler.cs:248-277 | the socket gains exactly the frames of the synthesis step, whose outcome is the synthesizer's: audio, a "TTS error" frame, or nothing; the socket state is untouched |
| SessionCommon.CatchReports | VoiceAgentApi/Handlers/VoiceSessionHandler.cs:227-245 | the catch block sends one "Processing error" frame on a writable socket and nothing else; afterwards the flag is set exactly when it was set or the restart succeeded |
| SessionCommon.CatchRestarts | VoiceAgentApi/Handlers/VoiceSessionHandler.cs:233-244 | a restart is requested exactly when the flag says recognition is off |
| SessionCommon.Recognizer.Start | VoiceAgentApi/Handlers/VoiceSessionHandler.cs:113 | a start that succeeds leaves the recognizer running; a failed one leaves it as it was and returns the exception |
| SessionCommon.Recognizer.Stop | VoiceAgentApi/Handlers/VoiceSessionHandler.cs:204 | a stop that succeeds leaves the recognizer stopped; a failed one leaves it as it was and returns the exception |
| SessionCommon.AudioIntake.Push | VoiceAgentApi/Handlers/VoiceSessionHandler.cs:164-188 | the chunk is written to the push stream unchanged and at the end; the chunk count grows by one and the byte total by the chunk's length, both with 32-bit wrap-around |
| SessionCommon.Wrap32Add | VoiceAgentApi/Handlers/VoiceSessionHandler.cs:172-173 | adding in two wrapped steps equals adding once and wrapping |
| SessionCommon.ClassifyText | VoiceAgentApi/Handlers/VoiceSessionHandler.cs:148-162 | unparseable text is ignored; the session ends exactly for an object whose "type" is the string "endSession"; a non-object, or a "type" that is neither a string nor null, throws InvalidOperationException, which the JsonException catch does not stop |
| SessionCommon.HandleTextMessage | VoiceAgentApi/Handlers/VoiceSessionHandler.cs:148-162 | an endSession request closes the socket with "Session ended"; any other frame leaves the socket as it was; nothing is sent |
| SessionCommon.StopIndex | VoiceAgentApi/Handlers/VoiceSessionHandler.cs:117-136 | the first frame from position i on that ends the loop, or the end of the messages; no frame before it ends the loop |
| SessionCommon.TakeBinary | VoiceAgentApi/Handlers/VoiceSessionHandler.cs:126-130 | one binary frame is forwarded to the push stream and counted |
| SessionCommon.HandleFrame | VoiceAgentApi/Handlers/VoiceSessionHandler.cs:119-135 | a Close frame closes the socket with "Client closed" and stops the loop; a binary frame goes to the push stream; a text frame goes to the text handler, which may end the loop; nothing is sent |
| SessionCommon.ReceiveLoop | VoiceAgentApi/Handlers/VoiceSessionHandler.cs:117-136 | the loop reads until the first frame that ends it; exactly the binary frames before that frame reach the push stream, unchanged and in order, with the counters following them; the socket ends closed, aborted or as it was, and nothing is sent |
| SessionCommon.Cleanup | VoiceAgentApi/Handlers/VoiceSessionHandler.cs:346-359 | the recognizer is stopped, then disposed and the push stream closed; a failed stop skips the rest |
| SessionCommon.RunSession | VoiceAgentApi/Handlers/VoiceSessionHandler.cs:106-146 | a failing start ends the session before any frame is read; otherwise the receive loop runs as above; cleanup runs in every case |
| Turns.ReplyNotListening | VoiceAgentApi/Handlers/VoiceSessionHandler.cs:211-217 | delivering the answer never sends the listening status |
| Turns.FromReplySucceeds | VoiceAgentApi/Handlers/VoiceSessionHandler.cs:211-225 | once the answer is in and the restart works, the assistant transcript (later revision), speaking, the synthesis frames and listening go out in that order, and recognition is on |
| Turns.SucceedingTurn | VoiceAgentApi/Handlers/VoiceSessionHandler.cs:190-225 | a turn in which nothing throws shows the user's words, then requests the correction, the stop and the answer, in that order, before delivering the reply |
| Turns.TurnSucceeds | VoiceAgentApi/Handlers/VoiceSessionHandler.cs:190-225 | a turn in which nothing throws sends the user transcript and the assistant transcript (later revision), status speaking, at most the synthesis frame, then status listening, and leaves the flag set and the recognizer running |
| Turns.FromReplyFails | VoiceAgentApi/Handlers/VoiceSessionHandler.cs:221-245 | a failed restart after speaking ends with the processing error and no listening status |
| Turns.FromAnswerFails | VoiceAgentApi/Handlers/VoiceSessionHandler.cs:208-245 | a failing answer request, or a failed restart after it, ends with the processing error and no listening status |
| Turns.FromPauseFails | VoiceAgentApi/Handlers/VoiceSessionHandler.cs:204-245 | a failing stop, answer or restart ends with the processing error and no listening status |
| Turns.TurnFails | VoiceAgentApi/Handlers/VoiceSessionHandler.cs:190-245 | when a step throws, the last frame on a writable socket is the processing error for that exception, listening is never sent, and the flag ends set exactly when the catch block's restart succeeded or it was set and recognition had not been paused yet |
| Turns.TurnFailsReporting | VoiceAgentApi/Handlers/VoiceSessionHandler.cs:227-230 | the failing turn ends with the error frame of the first exception and without listening |
| Turns.TurnFailsFlag | VoiceAgentApi/Handlers/VoiceSessionHandler.cs:232-244 | after a failure the flag is set exactly when the restart succeeded or it was set before a pause happened |
| Turns.TurnSilentWhenClosed | VoiceAgentApi/Handlers/VoiceSessionHandler.cs:279-344 | on a socket that cannot be written, a turn sends no frame at all |
| Turns.TurnKeepsFlagHonest | VoiceAgentApi/Handlers/VoiceSessionHandler.cs:204-244 | once the flag implies a running recognizer, every turn keeps it so |
| Turns.TranscriptFirst | VoiceAgentApi/Handlers/VoiceSessionHandler.cs:197 | in the later revision a turn on a writable socket first shows the user's words |
| Turns.FirstTurnRestartsRunningRecognizer | VoiceAgentApi/Handlers/VoiceSessionHandler.cs:23 | the flag starts false although the session starts the recognizer, so a first turn whose correction throws starts the running recognizer again |
| Turns.DropCatch | VoiceAgentApi/Handlers/VoiceSessionHandler.cs:227-245 | the catch block sends no transcript |
| Turns.DropSpeak | VoiceAgentApi/Handlers/VoiceSessionHandler.cs:248-277 | the synthesis step sends no transcript |
| Turns.DropReply | VoiceAgentApi/Handlers/VoiceSessionHandler.cs:211-217 | the reply of the later revision without its transcript is the reply of the earlier one |
| Turns.DropFromReply | VoiceAgentApi/Handlers/VoiceSessionHandler.cs:211-225 | from the reply on, the revisions differ only in the transcript |
| Turns.DropFromAnswer | VoiceAgentApi/Handlers/VoiceSessionHandler.cs:208-225 | from the answer request on, the revisions differ only in the transcript |
| Turns.DropFromPause | VoiceAgentApi/Handlers/VoiceSessionHandler.cs:204-225 | from the pause on, the revisions differ only in the transcripts |
| Turns.RevisionsDifferInTranscriptsOnly | VoiceAgentApi/VoiceSessionHandler.cs:184-238 | the earlier revision does exactly what the later one does minus the transcript frames: the same requests in the same order, the same other frames, the same flag and recognizer state |
| SessionHandler.VoiceSessionHandler.constructor | VoiceAgentApi/Handlers/VoiceSessionHandler.cs:27-55 | a new handler owns a fresh, stopped recognizer and an empty open push stream with zero counters, remembers no text and has the recognition flag false |
| SessionHandler.VoiceSessionHandler.HandleSession | VoiceAgentApi/Handlers/VoiceSessionHandler.cs:106-146 | a failed start reports the failure and never touches the socket; otherwise the receive loop runs up to the first frame that ends it, the push stream gets exactly the audio before that point, the socket's state and close description follow how the loop ended, and cleanup stops, closes and disposes what it can |
| SessionHandler.VoiceSessionHandler.RecoverFromError | VoiceAgentApi/Handlers/VoiceSessionHandler.cs:227-245 | the catch block sends the processing error, restarts the recognizer only if the flag is false, and sets the flag only when that restart succeeds |
| SessionHandler.VoiceSessionHandler.ProcessRecognizedText | VoiceAgentApi/Handlers/VoiceSessionHandler.cs:190-246 | the method sends exactly the frames of the turn function with transcripts and leaves the flag and recognizer as it says, so the turn lemmas hold of it |
| SessionHandler.VoiceSessionHandler.ShowUserText | VoiceAgentApi/Handlers/VoiceSessionHandler.cs:196-199 | the user's transcript goes out (when the socket is writable), then the correction is requested |
| SessionHandler.VoiceSessionHandler.PauseAndAnswer | VoiceAgentApi/Handlers/VoiceSessionHandler.cs:201-225 | the steps from stopping recognition on do what the turn function says from the pause |
| SessionHandler.VoiceSessionHandler.Answer | VoiceAgentApi/Handlers/VoiceSessionHandler.cs:207-225 | the steps from asking for the answer on do what the turn function says from there |
| SessionHandler.VoiceSessionHandler.ReplyAndResume | VoiceAgentApi/Handlers/VoiceSessionHandler.cs:210-225 | the steps from showing the answer on do what the turn function says from the reply |
| SessionHandler.VoiceSessionHandler.SpeakReply | VoiceAgentApi/Handlers/VoiceSessionHandler.cs:210-217 | the assistant transcript, the speaking status and the synthesis frames go out in that order |
| SessionHandler.VoiceSessionHandler.OnRecognizerEvent | VoiceAgentApi/Handlers/VoiceSessionHandler.cs:67-83 | a final result with non-empty text is remembered and runs a turn on it; every other event changes nothing |
| LegacySessionHandler.VoiceSessionHandler.constructor | VoiceAgentApi/VoiceSessionHandler.cs:20-46 | a new handler owns a fresh, stopped recognizer and an empty open push stream with zero counters, remembers no text and has the recognition flag false |
| LegacySessionHandler.VoiceSessionHandler.HandleSession | VoiceAgentApi/VoiceSessionHandler.cs:97-137 | the same session life cycle as the later revision: failed start leaves the socket alone, the loop feeds exactly the audio before the frame that ends it, cleanup follows the stop outcome |
| LegacySessionHandler.VoiceSessionHandler.RecoverFromError | VoiceAgentApi/VoiceSessionHandler.cs:215-233 | the catch block sends the processing error, restarts the recognizer only if the flag is false, and sets the flag only when that restart succeeds |
| LegacySessionHandler.VoiceSessionHandler.ProcessRecognizedText | VoiceAgentApi/VoiceSessionHandler.cs:184-238 | the method sends exactly the frames of the turn function without transcripts and leaves the flag and recognizer as it says |
| LegacySessionHandler.VoiceSessionHandler.PauseAndAnswer | VoiceAgentApi/VoiceSessionHandler.cs:192-213 | the steps from stopping recognition on do what the turn function says from the pause |
| LegacySessionHandler.VoiceSessionHandler.Answer | VoiceAgentApi/VoiceSessionHandler.cs:198-213 | the steps from asking for the answer on do what the turn function says from there |
| LegacySessionHandler.VoiceSessionHandler.ReplyAndResume | VoiceAgentApi/VoiceSessionHandler.cs:200-213 | from the answer on: speaking, the synthesis frames, the restart, then listening or the catch block |
| LegacySessionHandler.VoiceSessionHandler.SpeakReply | VoiceAgentApi/VoiceSessionHandler.cs:200-204 | the speaking status and the synthesis frames go out in that order, with no transcript |
| LegacySessionHandler.VoiceSessionHandler.OnRecognizerEvent | VoiceAgentApi/VoiceSessionHandler.cs:58-74 | a final result with non-empty text is remembered and runs a turn on it; every other event changes nothing |
| PcmCapture.Clamp | voice-agent-ui/src/services/audio/pcm-processor.worklet.js:32 | the sample is held to the interval from -1 to 1, unchanged inside it |
| PcmCapture.Truncate | voice-agent-ui/src/services/audio/pcm-processor.worklet.js:34 | a store into an Int16Array rounds toward zero: the result lies within one of the value, on the side of zero |
| PcmCapture.Sample16InRange | voice-agent-ui/src/services/audio/pcm-processor.worklet.js:32-34 | every converted sample fits a signed 16-bit integer, keeps the sign of its input, and full-scale inputs map to 32767 and -32768 |
| PcmCapture.Pcm | voice-agent-ui/src/services/audio/pcm-processor.worklet.js:28-37 | the converted block has the length of the input and holds each sample converted at the same position |
| PcmCapture.Float32ToInt16 | voice-agent-ui/src/services/audio/pcm-processor.worklet.js:28-37 | the loop fills a new array with the converted samples, each within the 16-bit range |
| PcmCapture.FlattenAppend | voice-agent-ui/src/services/audio/pcm-processor.worklet.js:63-79 | appending a sent buffer to the log appends its samples |
| PcmCapture.FlattenLength | voice-agent-ui/src/services/audio/pcm-processor.worklet.js:8 | full buffers hold 4096 samples each, so the sent samples number 4096 times the buffers sent |
| PcmCapture.SplitCount | voice-agent-ui/src/services/audio/pcm-processor.worklet.js:63-79 | a count of samples splits in exactly one way into full buffers and a remainder below 4096 |
| PcmCapture.PCMProcessor.constructor | voice-agent-ui/src/services/audio/pcm-processor.worklet.js:6-23 | a new processor has a zeroed buffer of 4096 samples, index 0, not paused, and has sent nothing |
| PcmCapture.PCMProcessor.OnPortMessage | voice-agent-ui/src/services/audio/pcm-processor.worklet.js:14-22 | "pause" sets the flag, "resume" clears it, any other type leaves it; the buffer is kept either way |
| PcmCapture.PCMProcessor.Take | voice-agent-ui/src/services/audio/pcm-processor.worklet.js:64-79 | a sample is stored at the index; when that fills the buffer, the buffer goes out converted and a fresh one starts at index 0 |
| PcmCapture.PCMProcessor.Flush | voice-agent-ui/src/services/audio/pcm-processor.worklet.js:67-78 | the full buffer is sent as one converted message and replaced by a new zeroed buffer |
| PcmCapture.PCMProcessor.Process | voice-agent-ui/src/services/audio/pcm-processor.worklet.js:42-83 | paused or without samples on the first channel nothing changes; otherwise every sample is taken in order, one message goes out per 4096 samples crossed, the index becomes the remainder, and the processor always stays alive |
| PcmCapture.PostedThenBuffered | voice-agent-ui/src/services/audio/pcm-processor.worklet.js:62-80 | the sent buffers followed by the live part of the buffer are every sample taken, in order, and the number sent and the index are the quotient and remainder of that count by 4096 |
| PcmCapture.PauseKeepsBuffered | voice-agent-ui/src/services/audio/pcm-processor.worklet.js:14-48 | a pause, however much input arrives, and a resume leave the buffered samples and the sent messages as they were |
| PlaybackQueue.InitialConsistent | voice-agent-ui/src/services/audio/AudioPlaybackService.js:5-9 | a new service, with an empty queue and not playing, is consistent |
| PlaybackQueue.PlayNextConsistent | voice-agent-ui/src/services/audio/AudioPlaybackService.js:38-57 | taking the head from the queue, running its start callback and starting its decode keeps each chunk's starts equal to its ends plus its copies in flight |
| PlaybackQueue.FinishConsistent | voice-agent-ui/src/services/audio/AudioPlaybackService.js:62-86 | ending a chunk, on the source's end or through the catch block, runs its end callback and keeps the starts and ends balanced |
| PlaybackQueue.ApplyConsistent | voice-agent-ui/src/services/audio/AudioPlaybackService.js:27-109 | every method and every completion of the browser keeps the service consistent: chunks wait only while playing, playing means something is in flight, callbacks are balanced |
| PlaybackQueue.EndsFollowStarts | voice-agent-ui/src/services/audio/AudioPlaybackService.js:53-82 | for a chunk with both callbacks, the end callback never runs more often than the start one, and once nothing is in flight they have run equally often and the service is idle with an empty queue |
| PlaybackQueue.QueueIsFifo | voice-agent-ui/src/services/audio/AudioPlaybackService.js:27-96 | the queue is first in, first out: a push appends at the tail and every other step only drops chunks from the head |
| PlaybackQueue.FailedDecodeStillEnds | voice-agent-ui/src/services/audio/AudioPlaybackService.js:76-86 | a chunk pushed to an idle service whose decode fails has its start and end callbacks run in that order, and the service is idle again |
| PlaybackQueue.DecodeAfterCleanupEnds | voice-agent-ui/src/services/audio/AudioPlaybackService.js:57-86 | a decode that succeeds after the context was dropped ends the chunk through the catch block, without playing |
| PlaybackQueue.ClearThenPushOverlaps | voice-agent-ui/src/services/audio/AudioPlaybackService.js:92-96 | clearing the queue does not stop the chunk that sounds, so the next push starts a second chunk while the first still plays |
| AudioPlayback.AudioPlaybackService.constructor | voice-agent-ui/src/services/audio/AudioPlaybackService.js:5-9 | a new service has no context, an empty queue, is not playing and is consistent |
| AudioPlayback.AudioPlaybackService.Initialize | voice-agent-ui/src/services/audio/AudioPlaybackService.js:14-19 | the context is created when it does not exist; nothing else changes, so a consistent service stays consistent |
| AudioPlayback.AudioPlaybackService.Enqueue | voice-agent-ui/src/services/audio/AudioPlaybackService.js:27-33 | the chunk joins the tail and playback starts if it was not running, keeping the service consistent |
| AudioPlayback.AudioPlaybackService.PlayNext | voice-agent-ui/src/services/audio/AudioPlaybackService.js:38-57 | an empty queue stops playback; otherwise the head leaves the queue, the context is created if needed, the start callback runs and the decode begins |
| AudioPlayback.AudioPlaybackService.DecodeFinished | voice-agent-ui/src/services/audio/AudioPlaybackService.js:57-86 | after the decode, a source plays if the decode worked and the context still exists; otherwise the chunk ends through the catch block; the service stays consistent |
| AudioPlayback.AudioPlaybackService.SourceEnded | voice-agent-ui/src/services/audio/AudioPlaybackService.js:62-72 | the end of a source runs its end callback and plays the next chunk, keeping the service consistent |
| AudioPlayback.AudioPlaybackService.Finish | voice-agent-ui/src/services/audio/AudioPlaybackService.js:66-71 | the chunk leaves the in-flight set, its end callback runs if given, then the next chunk is taken |
| AudioPlayback.AudioPlaybackService.ClearQueue | voice-agent-ui/src/services/audio/AudioPlaybackService.js:92-96 | the queue is emptied and the service marked not playing; a consistent service stays consistent |
| AudioPlayback.AudioPlaybackService.Cleanup | voice-agent-ui/src/services/audio/AudioPlaybackService.js:101-109 | the queue is cleared and the context closed and dropped; a consistent service stays consistent |
| AudioPlayback.AudioPlaybackService.GetIsPlaying | voice-agent-ui/src/services/audio/AudioPlaybackService.js:115-117 | a consistent service that says it is not playing has an empty queue |
| AudioPlayback.AudioPlaybackService.GetQueueLength | voice-agent-ui/src/services/audio/AudioPlaybackService.js:123-125 | the number of waiting chunks, which is positive only while playing |
| JsClient.Member | voice-agent-ui/src/services/websocket/WebSocketService.js:85-96 | reading a key of null throws; of an object, yields its member or undefined; anything defined came from the object |
| JsClient.Code | voice-agent-ui/src/utils/constants.js:22-29 | the ready states are numbered 0 to 3, and 1 is exactly open |
| JsClient.BrowserSocket.Send | voice-agent-ui/src/services/websocket/WebSocketService.js:102-121 | an open socket appends the frame to what it sent |
| JsClient.BrowserSocket.Close | voice-agent-ui/src/services/websocket/WebSocketService.js:134-140 | a connecting or open socket starts closing; a closing or closed one is left as it is |
| JsClient.EndSessionReachesServer | voice-agent-ui/src/services/websocket/WebSocketService.js:126-129 | the end-session message the client sends is the one text message the server classifies as a request to end |
| WsClient.Merge | voice-agent-ui/src/services/websocket/WebSocketService.js:23-25 | the merged callbacks have every key of both; a given key takes the given value and every other key keeps its own |
| WsClient.RouteDelivers | voice-agent-ui/src/services/websocket/WebSocketService.js:45-55 | a frame reaches at most one callback: parsed text reaches onTextMessage with the parsed value, binary data reaches onAudioData with the bytes, and only when that slot holds a function |
| WsClient.MalformedIsDropped | voice-agent-ui/src/services/websocket/WebSocketService.js:85-96 | text that does not parse reaches no callback, whatever the slots hold |
| WsClient.Settle | voice-agent-ui/src/services/websocket/WebSocketService.js:31-79 | a promise settles once: the first resolve or reject decides it and later ones change nothing |
| WsClient.WebSocketService.constructor | voice-agent-ui/src/services/websocket/WebSocketService.js:7-17 | a new service keeps the URL, has no socket and every callback slot empty |
| WsClient.WebSocketService.SetCallbacks | voice-agent-ui/src/services/websocket/WebSocketService.js:23-25 | the slots become the old ones overridden by the given ones; nothing else changes |
| WsClient.WebSocketService.AssignSlot | voice-agent-ui/src/hooks/useWebSocket.js:98-102 | one slot takes the given value; nothing else changes |
| WsClient.WebSocketService.Connect | voice-agent-ui/src/services/websocket/WebSocketService.js:31-79 | a new socket in the connecting state and a pending promise; when the socket constructor throws, the old socket stays, onError hears the failure and the promise is rejected |
| WsClient.WebSocketService.Opened | voice-agent-ui/src/services/websocket/WebSocketService.js:37-43 | the socket is open, onOpen runs, and the promise resolves unless it already settled |
| WsClient.WebSocketService.Errored | voice-agent-ui/src/services/websocket/WebSocketService.js:57-63 | onError hears of a connection error, and the promise is rejected unless it already settled |
| WsClient.WebSocketService.ClosedByBrowser | voice-agent-ui/src/services/websocket/WebSocketService.js:65-70 | the socket is closed and onClose runs |
| WsClient.WebSocketService.Received | voice-agent-ui/src/services/websocket/WebSocketService.js:45-55 | the frame is routed to its one callback, as the routing function says |
| WsClient.WebSocketService.HandleTextMessage | voice-agent-ui/src/services/websocket/WebSocketService.js:85-96 | parsed text goes to onTextMessage; text that does not parse is dropped |
| WsClient.WebSocketService.SendAudio | voice-agent-ui/src/services/websocket/WebSocketService.js:102-108 | the bytes go out as one binary frame exactly when the socket is set and open; otherwise nothing is sent |
| WsClient.WebSocketService.SendMessage | voice-agent-ui/src/services/websocket/WebSocketService.js:114-121 | the message goes out as one JSON frame exactly when the socket is set and open; otherwise nothing is sent |
| WsClient.WebSocketService.Close | voice-agent-ui/src/services/websocket/WebSocketService.js:134-140 | a connecting or open socket starts closing, and the service forgets it |
| WsClient.WebSocketService.EndSession | voice-agent-ui/src/services/websocket/WebSocketService.js:126-129 | the end-session message goes out only on an open socket, then the socket is closed and forgotten |
| WsClient.WebSocketService.IsConnected | voice-agent-ui/src/services/websocket/WebSocketService.js:146-148 | truthy exactly when the socket is set and open, and null rather than false without a socket |
| WsClient.WebSocketService.GetReadyState | voice-agent-ui/src/services/websocket/WebSocketService.js:154-156 | the state's number when a socket is set, null otherwise; 1 exactly when the service can send |
| WsClient.CloseTwice | voice-agent-ui/src/services/websocket/WebSocketService.js:134-140 | a second close changes nothing, and the forgotten socket was no longer open |
| UseWebSocket.HandleTextMessageFrame | voice-agent-ui/src/hooks/useWebSocket.js:58-69 | only null throws; only a status message changes the status, only an error message the error, exactly a transcript extends the messages, by one entry at the end, and other types change nothing |
| UseWebSocket.ServerMessagesReachHook | voice-agent-ui/src/hooks/useWebSocket.js:58-69 | every message the server serializes lands where it is meant: a status as the status, an error as the error, a transcript as a new entry with its text and role |
| UseWebSocket.WebSocketHook.constructor | voice-agent-ui/src/hooks/useWebSocket.js:11-14 | the hook starts connecting, with no error, no messages and no service |
| UseWebSocket.WebSocketHook.Mount | voice-agent-ui/src/hooks/useWebSocket.js:17-50 | without a URL nothing happens; otherwise a new service for that URL gets the hook's four callbacks and connects; when the socket cannot be created the state shows the failure to connect |
| UseWebSocket.WebSocketHook.SocketOpened | voice-agent-ui/src/hooks/useWebSocket.js:25-29 | the status becomes connected, the error is cleared and the connection promise resolves unless already settled |
| UseWebSocket.WebSocketHook.SocketErrored | voice-agent-ui/src/hooks/useWebSocket.js:34-49 | a connection error sets the error and the error status; before the socket opened, the rejected promise then replaces the error with the failure to connect |
| UseWebSocket.WebSocketHook.SocketClosed | voice-agent-ui/src/hooks/useWebSocket.js:30-33 | the status becomes disconnected |
| UseWebSocket.WebSocketHook.FrameReceived | voice-agent-ui/src/hooks/useWebSocket.js:39-41 | a frame changes the state exactly as routing it to the hook's callbacks does |
| UseWebSocket.WebSocketHook.SendAudio | voice-agent-ui/src/hooks/useWebSocket.js:72-76 | the bytes reach the socket only when a service exists and its socket is open |
| UseWebSocket.WebSocketHook.SendMessage | voice-agent-ui/src/hooks/useWebSocket.js:79-83 | the message reaches the socket only when a service exists and its socket is open |
| UseWebSocket.WebSocketHook.EndSession | voice-agent-ui/src/hooks/useWebSocket.js:86-90 | with a service whose socket is open, the end-session message goes out on it; the socket is then closed and forgotten; the state does not change |
| UseWebSocket.WebSocketHook.IsConnected | voice-agent-ui/src/hooks/useWebSocket.js:93-95 | false without a service; truthy exactly when the service's socket is open |
| UseWebSocket.WebSocketHook.OnAudioData | voice-agent-ui/src/hooks/useWebSocket.js:98-102 | the callback replaces the service's audio slot and no other; the socket, the invocations and the connection promise are unchanged |
| UseWebSocket.WebSocketHook.Unmount | voice-agent-ui/src/hooks/useWebSocket.js:52-54 | the service's socket is closed and forgotten, and the state is kept |
| SessionView.ApplyConsistent | voice-agent-ui/src/components/VoiceSession.jsx:69-266 | every handler and every completion of the browser keeps the component consistent: chunks wait only while one plays, and one is in flight whenever playback is said to run |
| SessionView.QueueIsFifo | voice-agent-ui/src/components/VoiceSession.jsx:89-139 | the component's audio queue is first in, first out: audio joins at the tail and leaves only from the head |
| SessionView.PostsFollowPlayback | voice-agent-ui/src/components/VoiceSession.jsx:96-139 | only the playback handlers post to the worklet, only while recording with a worklet node, and only by appending |
| SessionView.PlaybackPostsWhileCapturing | voice-agent-ui/src/components/VoiceSession.jsx:106-136 | while capture runs, starting playback posts a pause, and the end of a chunk or a failed decode posts a resume first |
| SessionView.ChunkIsBracketed | voice-agent-ui/src/components/VoiceSession.jsx:89-139 | while capture runs, a chunk arriving at an idle component is bracketed by exactly one pause and one resume whether it plays or fails, the component ends idle, and only a failure shows the playback error |
| SessionView.HandleTextMessageFrame | voice-agent-ui/src/components/VoiceSession.jsx:69-87 | text that does not parse or a null message changes nothing; a changed status, error or transcript comes only from a message of that type; a transcript shows its text; the audio state is never touched |
| SessionView.GetStatusColor | voice-agent-ui/src/components/VoiceSession.jsx:268-276 | one of five colours, and the grey one exactly for a status other than listening, speaking, connected and error |
| SessionView.GetStatusText | voice-agent-ui/src/components/VoiceSession.jsx:278-288 | every known status gets a label of its own; any other value is shown as it is |
| SessionView.ServerStatusesAreLabelled | voice-agent-ui/src/components/VoiceSession.jsx:268-288 | the two statuses the server sends, listening and speaking, get their own label and colour |
| VoiceSessionUi.VoiceSession.constructor | voice-agent-ui/src/components/VoiceSession.jsx:4-18 | the component starts connecting, without error or transcript, with an empty queue, not playing, not recording and without contexts |
| VoiceSessionUi.VoiceSession.HandleTextMessage | voice-agent-ui/src/components/VoiceSession.jsx:69-87 | the state changes as the text-message function says; the socket is not touched |
| VoiceSessionUi.VoiceSession.HandleAudioData | voice-agent-ui/src/components/VoiceSession.jsx:89-94 | the chunk joins the tail and playback starts if it was not running |
| VoiceSessionUi.VoiceSession.PostToWorklet | voice-agent-ui/src/components/VoiceSession.jsx:107-109 | the message is posted to the worklet only while recording with a worklet node; nothing else changes |
| VoiceSessionUi.VoiceSession.PlayNextAudio | voice-agent-ui/src/components/VoiceSession.jsx:96-116 | an empty queue stops playback; otherwise the head leaves the queue, capture is paused, the context is created if needed and the decode begins |
| VoiceSessionUi.VoiceSession.DecodeFinished | voice-agent-ui/src/components/VoiceSession.jsx:116-138 | a decoded chunk starts its source; a failed one shows the playback error, resumes capture and moves on to the next chunk |
| VoiceSessionUi.VoiceSession.OnSourceEnded | voice-agent-ui/src/components/VoiceSession.jsx:121-127 | the end of a source resumes capture and plays the next chunk |
| VoiceSessionUi.VoiceSession.Cleanup | voice-agent-ui/src/components/VoiceSession.jsx:258-266 | the microphone stops, the playback context is dropped, and the queue is emptied and marked not playing |
| VoiceSessionUi.VoiceSession.HandleEndSession | voice-agent-ui/src/components/VoiceSession.jsx:249-256 | cleanup runs; an open socket gets the end-session message and starts closing, any other socket is left alone; the end callback runs once when given |

## Left out

- Azure Speech SDK internals (`SpeechRecognizer`, `SpeechSynthesizer`, `PushAudioInputStream`): the recognizer is a running flag with start and stop outcomes, the push stream is a byte log, and synthesis is an oracle outcome.
- The OpenAI client, the Pinecone client and the embedding generator are oracles. `GenerateEmbeddingAsync` and the options it builds are only a request to that oracle.
- Concurrency: the `lock` in the session history and the `SemaphoreSlim`, which is declared but never acquired. Overlapping `Recognized` callbacks are out of scope as well; turns are taken to run one after the other, and no single-flight guarantee is claimed.
- `async`/`await` scheduling, `CancellationToken` and `Dispose` details: every callback is one atomic event, and only the state changes of cleanup are kept.
- Logging and console output on both ends.
- JSON serialization and parsing: a text frame is either a parsed JSON value or a parse failure. UTF-8 decoding of frames is not modelled.
- `PcmCapture.Float32ToInt16`: samples are reals, so float32 rounding, NaN and infinities are not modelled.
- `Settings.ValidateOpenAI`: temperature and TopP are reals, so a NaN value, which passes the C# range checks because every comparison with NaN is false, is not modelled.
- `VectorDb.ConvertToMetadataValue`: numbers are reals, so the precision lost when a `long` or a `float` becomes a `double` is not modelled.
- Line ends: `StringBuilder.AppendLine` writes `Environment.NewLine`; the history and prompt texts take it to be "\n" (it is "\r\n" on Windows).
- `SessionCommon.ReceiveLoop`: the server reads into an 8192-byte buffer and never checks `EndOfMessage`, so a longer message arrives as several reads. The model takes each read as one `InFrame` and does not bound its size by 8192 bytes; each fragment of a text message is classified on its own, as the source does; WebSocket fragmentation itself is not modelled.
- Relevance scores and embedding vectors are opaque values.
- The `ArgumentNullException` that the constructors throw on missing configuration: configuration values are given as options.
- Message timestamps (`Date.now()`), React rendering, styling and the mute toggle of the session component.
- `startMic` is modelled only up to its outcome: failures that happen after the worklet node exists are not modelled. `stopMic` is modelled only through `cleanup`'s effect on the recording flags.
- The catch block of the earlier revision's `GenerateAnswerAsync`: nothing inside its `try` can throw, so that catch is unreachable.
- Dependency injection, CORS, routing and versioning (`Program.cs`, the extension classes, `WebSocketMiddleware.cs`), the controllers, the interfaces and the DTOs.
- The audio-capture service and hooks, the second session component and `App.js`: thin wiring over browser media APIs.
