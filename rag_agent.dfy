/**
 * The RAG agent (rag_agent.py): the fixed prompt template, the contract that
 * turns every outcome of the Ollama call into text, and the answer envelope
 * that `get_response` assembles from the vector store and the model.
 *
 * The agent's settings are fixed when it is created and only read afterwards,
 * so the agent is a value. Its vector store is the `ChromaTool` object it owns;
 * the Ollama server is a parameter `generate` from request to reply.
 */
module Rag {
  import opened Wrappers
  import opened Text
  import opened ChromaStore

  const DefaultOllamaUrl := "http://localhost:11434"
  const DefaultModel := "mistral"
  const DefaultMaxTokens := 1024
  const DefaultTemperature := 0.7

  datatype RagAgent = RagAgent(
    ollamaUrl: string,
    model: string,
    maxTokens: int,
    temperature: real,
    vectorStore: ChromaTool)

  /** The answer returned to callers. */
  datatype Envelope = Envelope(
    query: string,
    response: string,
    retrievedDocuments: seq<string>,
    contextUsed: bool,
    model: string)

  /** Creates the agent and opens its vector store under `vectorStorePath`. */
  method NewRagAgent(ollamaUrl: string, model: string, vectorStorePath: string, maxTokens: int,
                     temperature: real, engine: Engine, persisted: seq<Batch>) returns (agent: RagAgent)
    ensures agent.ollamaUrl == ollamaUrl && agent.model == model
    ensures agent.maxTokens == maxTokens && agent.temperature == temperature
    ensures fresh(agent.vectorStore) && fresh(agent.vectorStore.collection)
    ensures agent.vectorStore.persistDir == vectorStorePath
    ensures agent.vectorStore.collectionName == DefaultCollectionName
    ensures agent.vectorStore.collection.engine == engine && agent.vectorStore.collection.batches == persisted
  {
    var store := new ChromaTool(vectorStorePath, DefaultCollectionName, engine, persisted);
    agent := RagAgent(ollamaUrl, model, maxTokens, temperature, store);
  }

  // ---------------------------------------------------------------------------
  // The call to Ollama (_call_ollama)
  // ---------------------------------------------------------------------------

  /** The JSON body posted to `{ollama_url}/api/generate`. */
  datatype GenerateRequest = GenerateRequest(
    url: string,
    model: string,
    prompt: string,
    stream: bool,
    temperature: real,
    numPredict: int)

  /**
   * How one request ended: a reply whose JSON body has (or lacks) a
   * `response` field, a connection error (refused, unresolved host, connect
   * time-out, TLS failure), or any other exception.
   */
  datatype LlmReply = Replied(response: Option<string>) | ConnectionFailed | Failed(message: string)

  const ConnectionErrorText := "Error: Unable to connect to Ollama server. Make sure it's running."
  const FailurePrefix := "Error calling Ollama: "

  function Request(agent: RagAgent, prompt: string): GenerateRequest {
    GenerateRequest(agent.ollamaUrl + "/api/generate", agent.model, prompt, false, agent.temperature, agent.maxTokens)
  }

  /**
   * The text `_call_ollama` returns for a reply: it never raises. A reply's
   * `response` field is returned stripped (empty when absent); a connection
   * failure gives the fixed message; any other failure gives its message
   * after a fixed prefix.
   */
  function ReplyText(reply: LlmReply): (r: string)
    ensures reply.Replied? ==> r == Strip(reply.response.GetOr(""))
    ensures reply.Replied? && r != [] ==> !IsSpace(r[0]) && !IsSpace(r[|r| - 1])
    ensures reply.ConnectionFailed? ==> r == ConnectionErrorText
    ensures reply.Failed? ==>
      |FailurePrefix| <= |r| && r[..|FailurePrefix|] == FailurePrefix && r[|FailurePrefix|..] == reply.message
  {
    match reply
    case Replied(response) => Strip(response.GetOr(""))
    case ConnectionFailed => ConnectionErrorText
    case Failed(message) => FailurePrefix + message
  }

  /** `_call_ollama(prompt)`: the reply text for the request built from the agent's settings. */
  function CallOllama(agent: RagAgent, prompt: string, generate: GenerateRequest -> LlmReply): (r: string)
    ensures var req := Request(agent, prompt);
      && req.url == agent.ollamaUrl + "/api/generate" && req.model == agent.model && req.prompt == prompt
      && !req.stream && req.temperature == agent.temperature && req.numPredict == agent.maxTokens
      && r == ReplyText(generate(req))
  {
    ReplyText(generate(Request(agent, prompt)))
  }

  // ---------------------------------------------------------------------------
  // The prompt (build_prompt)
  // ---------------------------------------------------------------------------

  const PromptIntro := "You are a helpful AI assistant. Use the provided context to answer the user's question accurately and concisely.\n\nContext Information:\n"
  const PromptQuestion := "\n\nUser Question: "
  const PromptOutro := "\n\nPlease provide a clear and informative answer based on the context provided. If the context doesn't contain relevant information, say so and provide your best response based on your knowledge."

  /**
   * The prompt is the fixed introduction, the context, the fixed question
   * label, the query and the fixed closing instruction, in that order; the
   * context therefore always precedes the question.
   */
  function BuildPrompt(query: string, context: string): (p: string)
    ensures var c := |PromptIntro|;
      var q := c + |context| + |PromptQuestion|;
      && |p| == q + |query| + |PromptOutro|
      && p[..c] == PromptIntro
      && p[c..c + |context|] == context
      && p[c + |context|..q] == PromptQuestion
      && p[q..q + |query|] == query
      && p[q + |query|..] == PromptOutro
  {
    Join5(PromptIntro, context, PromptQuestion, query, PromptOutro)
  }

  /** Five strings one after another, each found at its own offset. */
  function Join5(a: string, b: string, c: string, d: string, e: string): (s: string)
    ensures |s| == |a| + |b| + |c| + |d| + |e|
      && s[..|a|] == a
      && s[|a|..|a| + |b|] == b
      && s[|a| + |b|..|a| + |b| + |c|] == c
      && s[|a| + |b| + |c|..|a| + |b| + |c| + |d|] == d
      && s[|a| + |b| + |c| + |d|..] == e
  {
    a + b + c + d + e
  }

  /** With the context fixed, different queries give different prompts. */
  lemma PromptDeterminesQuery(q1: string, q2: string, context: string)
    requires BuildPrompt(q1, context) == BuildPrompt(q2, context)
    ensures q1 == q2
  {
  }

  // ---------------------------------------------------------------------------
  // The answer (get_response)
  // ---------------------------------------------------------------------------

  /** `retrieve_context`: the store's formatted search result. */
  method RetrieveContext(agent: RagAgent, query: string, nResults: int) returns (context: string)
    ensures context == Format(agent.vectorStore.Search(query, nResults))
  {
    context := agent.vectorStore.SearchFormatted(query, nResults);
  }

  /** The prompt `get_response` sends: the query alone, or the template around the formatted search. */
  function PromptFor(agent: RagAgent, query: string, useContext: bool, nResults: int): string
    reads agent.vectorStore.collection
  {
    if useContext then BuildPrompt(query, Format(agent.vectorStore.Search(query, nResults))) else query
  }

  function GetResponse(agent: RagAgent, query: string, useContext: bool, nResults: int,
                       generate: GenerateRequest -> LlmReply): (e: Envelope)
    reads agent.vectorStore.collection
    ensures e.query == query && e.model == agent.model
    ensures e.response == CallOllama(agent, PromptFor(agent, query, useContext, nResults), generate)
    ensures e.contextUsed == useContext
    ensures !useContext ==> e.retrievedDocuments == [] && PromptFor(agent, query, useContext, nResults) == query
    ensures useContext ==> e.retrievedDocuments == agent.vectorStore.Search(query, nResults).documents
    ensures useContext ==>
      PromptFor(agent, query, useContext, nResults) == BuildPrompt(query, Format(agent.vectorStore.Search(query, nResults)))
  {
    var retrievedDocs := if useContext then agent.vectorStore.Search(query, nResults).documents else [];
    var prompt := PromptFor(agent, query, useContext, nResults);
    var response := CallOllama(agent, prompt, generate);
    Envelope(query, response, retrievedDocs, useContext, agent.model)
  }

  /**
   * Without context the answer does not depend on the vector store at all:
   * two agents with the same settings and different stores answer alike.
   */
  lemma NoContextIgnoresStore(a1: RagAgent, a2: RagAgent, query: string, nResults: int,
                              generate: GenerateRequest -> LlmReply)
    requires a1.ollamaUrl == a2.ollamaUrl && a1.model == a2.model
    requires a1.maxTokens == a2.maxTokens && a1.temperature == a2.temperature
    ensures GetResponse(a1, query, false, nResults, generate) == GetResponse(a2, query, false, nResults, generate)
  {
  }

  /**
   * With context requested and nothing found, the envelope still reports
   * `context_used` and the prompt carries the "no documents" message.
   */
  lemma EmptySearchStillUsesContext(agent: RagAgent, query: string, nResults: int,
                                    generate: GenerateRequest -> LlmReply)
    requires agent.vectorStore.Search(query, nResults).documents == []
    ensures var e := GetResponse(agent, query, true, nResults, generate);
      && e.contextUsed && e.retrievedDocuments == []
      && PromptFor(agent, query, true, nResults) == BuildPrompt(query, NoDocumentsText)
  {
  }

  /** An envelope that reports no context carries no documents. */
  lemma NoContextNoDocuments(agent: RagAgent, query: string, useContext: bool, nResults: int,
                             generate: GenerateRequest -> LlmReply)
    ensures var e := GetResponse(agent, query, useContext, nResults, generate);
      !e.contextUsed ==> e.retrievedDocuments == []
  {
  }

  /** `get_rag_response`: a fresh agent with the default settings answers with context. */
  method GetRagResponse(query: string, ollamaUrl: string, engine: Engine, persisted: seq<Batch>,
                        generate: GenerateRequest -> LlmReply) returns (e: Envelope)
    ensures e.query == query && e.model == DefaultModel && e.contextUsed
    ensures var raw := engine.query(persisted, query, DefaultNResults);
      var sr := SearchResult(FirstOrEmpty(raw.documents), FirstOrEmpty(raw.ids),
                             FirstOrEmpty(raw.distances), FirstOrEmpty(raw.metadatas));
      && e.retrievedDocuments == sr.documents
      && e.response == ReplyText(generate(GenerateRequest(ollamaUrl + "/api/generate", DefaultModel,
                                                          BuildPrompt(query, Format(sr)), false,
                                                          DefaultTemperature, DefaultMaxTokens)))
  {
    var agent := NewRagAgent(ollamaUrl, DefaultModel, DefaultPersistDir, DefaultMaxTokens, DefaultTemperature, engine, persisted);
    e := GetResponse(agent, query, true, DefaultNResults, generate);
  }
}
