/**
 * Configuration records of the server and their `Validate` guard chains
 * (Models/Settings/OpenAISettings.cs and PineconeSettings.cs).
 * `Validate` throws InvalidOperationException on the first failed check; here it
 * returns which check failed.
 */
module Settings {
  import opened Wrappers
  import opened Clr

  // ---------------------------------------------------------------- OpenAI

  datatype OpenAISettings = OpenAISettings(
    apiKey: Option<string>,
    chatModel: string,
    embeddingModel: string,
    temperature: real,
    maxTokens: int,
    topP: real)

  /** Why `OpenAISettings.Validate` threw. */
  datatype OpenAIError =
    | OpenAIApiKeyMissing
    | TemperatureOutOfRange(temperature: real)
    | MaxTokensNotPositive(maxTokens: int)
    | TopPOutOfRange(topP: real)

  const OpenAISectionName: string := "OpenAI"

  /** The property initialisers of OpenAISettings. */
  function OpenAIDefaults(): (s: OpenAISettings)
    ensures s.apiKey == Some("") && s.chatModel == "gpt-4"
    ensures s.embeddingModel == "text-embedding-3-small"
    ensures s.temperature == 0.2 && s.maxTokens == 500 && s.topP == 1.0
  {
    OpenAISettings(Some(""), "gpt-4", "text-embedding-3-small", 0.2, 500, 1.0)
  }

  /** The guard chain of `OpenAISettings.Validate`, checked in source order. */
  function ValidateOpenAI(s: OpenAISettings): (r: Outcome<OpenAIError>)
    // the key is checked first: a blank key wins over every other fault
    ensures IsNullOrWhiteSpace(s.apiKey) ==> r == Fail(OpenAIApiKeyMissing)
    // both bounds of each range are valid
    ensures r == Pass <==>
              && !IsNullOrWhiteSpace(s.apiKey)
              && 0.0 <= s.temperature <= 2.0
              && s.maxTokens > 0
              && 0.0 <= s.topP <= 1.0
    ensures r.Fail? && r.error.TemperatureOutOfRange? ==>
              !IsNullOrWhiteSpace(s.apiKey) && (s.temperature < 0.0 || s.temperature > 2.0)
    ensures r.Fail? && r.error.MaxTokensNotPositive? ==>
              0.0 <= s.temperature <= 2.0 && s.maxTokens <= 0
    ensures r.Fail? && r.error.TopPOutOfRange? ==>
              0.0 <= s.temperature <= 2.0 && s.maxTokens > 0 && (s.topP < 0.0 || s.topP > 1.0)
  {
    if IsNullOrWhiteSpace(s.apiKey) then Fail(OpenAIApiKeyMissing)
    else if s.temperature < 0.0 || s.temperature > 2.0 then Fail(TemperatureOutOfRange(s.temperature))
    else if s.maxTokens <= 0 then Fail(MaxTokensNotPositive(s.maxTokens))
    else if s.topP < 0.0 || s.topP > 1.0 then Fail(TopPOutOfRange(s.topP))
    else Pass
  }

  /** The defaults with any non-blank key are a valid configuration. */
  lemma OpenAIDefaultsValid(key: string)
    requires !IsNullOrWhiteSpace(Some(key))
    ensures ValidateOpenAI(OpenAIDefaults().(apiKey := Some(key))) == Pass
  {
  }

  // -------------------------------------------------------------- Pinecone

  datatype PineconeSettings = PineconeSettings(
    apiKey: Option<string>,
    region: Option<string>,
    model: string,
    dimension: int,
    namespace: string,
    indexName: string)

  /** Why `PineconeSettings.Validate` threw. */
  datatype PineconeError =
    | PineconeApiKeyMissing
    | DimensionNotPositive(dimension: int)
    | RegionMissing

  const PineconeSectionName: string := "Pinecone"

  /** The property initialisers of PineconeSettings. */
  function PineconeDefaults(): (s: PineconeSettings)
    ensures s.apiKey == Some("") && s.region == Some("us-east-1") && s.dimension == 1536
    ensures s.model == "text-embedding-3-small" && s.namespace == "__default__"
    ensures s.indexName == "bulgariaair"
  {
    PineconeSettings(Some(""), Some("us-east-1"), "text-embedding-3-small", 1536, "__default__", "bulgariaair")
  }

  /** The guard chain of `PineconeSettings.Validate`, checked in source order. */
  function ValidatePinecone(s: PineconeSettings): (r: Outcome<PineconeError>)
    ensures IsNullOrWhiteSpace(s.apiKey) ==> r == Fail(PineconeApiKeyMissing)
    ensures r == Pass <==>
              !IsNullOrWhiteSpace(s.apiKey) && s.dimension > 0 && !IsNullOrWhiteSpace(s.region)
    ensures r == Fail(RegionMissing) ==> s.dimension > 0 && IsNullOrWhiteSpace(s.region)
    ensures r.Fail? && r.error.DimensionNotPositive? ==>
              !IsNullOrWhiteSpace(s.apiKey) && s.dimension <= 0
  {
    if IsNullOrWhiteSpace(s.apiKey) then Fail(PineconeApiKeyMissing)
    else if s.dimension <= 0 then Fail(DimensionNotPositive(s.dimension))
    else if IsNullOrWhiteSpace(s.region) then Fail(RegionMissing)
    else Pass
  }

  /** The defaults (region "us-east-1", dimension 1536) with a non-blank key are valid. */
  lemma PineconeDefaultsValid(key: string)
    requires !IsNullOrWhiteSpace(Some(key))
    ensures ValidatePinecone(PineconeDefaults().(apiKey := Some(key))) == Pass
  {
    var region := PineconeDefaults().region.value;
    assert region[0] == 'u' && !IsWhiteSpaceChar(region[0]);
  }
}
