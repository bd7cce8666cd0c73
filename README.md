# MCP-Powered Agentic RAG — a Dafny model of its core

This project models the retrieval-augmented answering core of the MCP-Powered
Agentic RAG system in Dafny 4.11 and proves properties of it. The modelled core:

- **The vector-store tool** (`tools/chromadb_tool.py`, module `ChromaStore`):
  - how `add_documents` fills in default ids (`doc_0`, `doc_1`, …) and default
    metadata (`{"source": "unknown"}`);
  - how `search` unwraps ChromaDB's per-query lists;
  - how `search_formatted` renders results as a numbered context block: a 500-character
    preview, a `Source:` line and the "no documents" message;
  - what `get_collection_stats` reports.
- **The RAG agent** (`rag_agent.py`, module `Rag`):
  - the fixed prompt template of `build_prompt`;
  - `_call_ollama`, which never raises: every outcome becomes text;
  - the answer envelope built by `get_response` and `get_rag_response`.
- **The system tester** (`test_utils.py`, module `TestUtils`):
  - the five checks, each of which records exactly one result dict under its own name;
  - the pass/fail tally of `run_all_tests`;
  - the plain-text report of `generate_test_report`.

Three support modules model the Python behaviour that the code relies on:

- `Wrappers`: `Option`.
- `Text`:
  - `str()` of ints and booleans;
  - `str.upper()` on ASCII letters;
  - `str.strip()` with Python's whitespace set;
  - a string built with repeated `+=`.
- `PyDict`: a `dict` with string keys, as an association list in insertion order.
  Assigning an existing key replaces its value where it stands; a new key is appended.

## How the model is shaped

- **Foreign code.** The ChromaDB collection is a `class Collection`. It keeps a log of the
  batches handed to `add` and an `Engine`, which is two total functions standing for what
  ChromaDB answers to `query` and to `count()` given those batches. `ChromaTool` is a class
  whose methods modify that collection. `search_formatted` is a method with the source's loop.
  It is proved against the function `Format`.
- **The agent.** Its settings are fixed at construction and never reassigned, so
  `RagAgent` is a value. Its store is the `ChromaTool` object it owns.
- **The Ollama server** is a parameter `generate: GenerateRequest -> LlmReply`. A reply
  either carries a JSON body that may lack `response`, or is a connection error of any kind
  (refused, unresolved host, connect time-out, TLS failure), or is
  any other exception.
- **The tester.** Each check's network request, or opening the store, becomes a parameter
  `Probe<T>`: the decoded reply, or the message of the raised exception. A result dict holds
  the `str()` of each value, which is what the report prints.
- **`SystemTester`** is a class. Its `results` field is reassigned by each check. Its
  invariant `Valid` says that keys are distinct and are among the five check names.

`get_response` reports `context_used` as the `use_context` flag it was given
(rag_agent.py:136), even when the search finds nothing and the prompt carries the
"no documents" message. `Rag.EmptySearchStillUsesContext` states this.

## Model

| member | source | states |
|---|---|---|
| ChromaStore.ResolveIds | tools/chromadb_tool.py:55-56 | caller ids are kept when non-empty; otherwise one id `doc_k` per document, at position k |
| ChromaStore.DefaultIdsDistinct | tools/chromadb_tool.py:55-56 | generated ids are pairwise distinct |
| ChromaStore.DefaultIdsPositional | tools/chromadb_tool.py:55-56 | generated ids depend only on the number of documents, not their text |
| ChromaStore.ResolveMetadata | tools/chromadb_tool.py:58-59 | caller metadata is kept when non-empty; otherwise `{"source": "unknown"}` for every document |
| ChromaStore.ChromaTool.constructor | tools/chromadb_tool.py:16-43 | the tool keeps its directory and collection name and opens a fresh collection of that name over what is already persisted |
| ChromaStore.ChromaTool.AddDocuments | tools/chromadb_tool.py:45-65 | exactly one batch is appended to the collection: the documents with the resolved ids and metadata |
| ChromaStore.ChromaTool.Search | tools/chromadb_tool.py:68-89 | each of documents, ids, distances and metadatas is the first inner list of the store's answer, or empty when the store's list is empty |
| ChromaStore.Preview | tools/chromadb_tool.py:112 | a document of at most 500 characters is shown whole; a longer one as its first 500 characters plus `...` |
| ChromaStore.SourceLine | tools/chromadb_tool.py:113-114 | no line for empty metadata; otherwise `Source:` with the `source` value, or `Unknown` when the key is missing |
| ChromaStore.Entries | tools/chromadb_tool.py:110-114 | one entry per pair of `zip(documents, metadatas)`, numbered from 1, as many as the shorter list |
| ChromaStore.FormatNoDocuments | tools/chromadb_tool.py:104-105 | the fixed "no documents" message is produced if and only if no document was found |
| ChromaStore.Format | tools/chromadb_tool.py:104-116 | no documents give the fixed "no documents" message; otherwise the text starts with the 72-character header: the title line and a rule of 50 dashes |
| ChromaStore.FormatEntryAt | tools/chromadb_tool.py:107-116 | entry k stands right after the header and entries 0 .. k-1 |
| ChromaStore.EntryStartsWithHeading | tools/chromadb_tool.py:111 | each entry opens with `[Document n]` for its own number n |
| ChromaStore.EntryHeadingsDistinct | tools/chromadb_tool.py:110-111 | two different entry numbers give two different headings |
| ChromaStore.ChromaTool.SearchFormatted | tools/chromadb_tool.py:91-116 | the loop's text equals the rendering function applied to the search result |
| ChromaStore.ChromaTool.GetCollectionStats | tools/chromadb_tool.py:123-130 | reports the name and directory the tool was opened with and the collection's count |
| Rag.NewRagAgent | rag_agent.py:16-40 | the agent keeps its URL, model, token limit and temperature, and opens a fresh store under the given path with the default collection name, answering with the given engine over the persisted batches |
| Rag.ReplyText | rag_agent.py:62-71 | a reply gives its `response` field stripped, or empty when the field is absent; a connection failure gives the fixed message; any other failure gives `Error calling Ollama: ` followed by its message |
| Rag.CallOllama | rag_agent.py:52-71 | the request goes to `{ollama_url}/api/generate` with the agent's model, temperature and token limit, not streamed; the result is the text of the reply |
| Rag.BuildPrompt | rag_agent.py:86-106 | the prompt is the fixed introduction, the context, the question label, the query and the closing instruction, in that order |
| Rag.PromptDeterminesQuery | rag_agent.py:97-104 | with the context fixed, different queries give different prompts |
| Rag.RetrieveContext | rag_agent.py:73-84 | the context is the formatted search result |
| Rag.GetResponse | rag_agent.py:108-138 | echoes the query and model; `context_used` is the flag; without context the prompt is the bare query and no documents are listed; with context the prompt wraps the formatted search and the documents are the search's |
| Rag.NoContextIgnoresStore | rag_agent.py:120-130 | without context, agents with the same settings answer alike whatever their stores hold |
| Rag.NoContextNoDocuments | rag_agent.py:120-138 | an envelope with `context_used` false carries no documents |
| Rag.EmptySearchStillUsesContext | rag_agent.py:123-136 | with context requested and nothing found, `context_used` is still true and the prompt carries the "no documents" message |
| Rag.GetRagResponse | rag_agent.py:181-193 | a fresh default agent answers with context, echoing the query and the default model; its documents are those the store finds for the query with 3 results, and its response is the text of the reply to the default request whose prompt wraps the formatted search |
| Text.Strip | rag_agent.py:66 | the result is the run of the text left after removing Python whitespace at both ends: everything removed is whitespace, and the result neither starts nor ends with whitespace |
| Text.StripIdempotent | rag_agent.py:66 | stripping a reply twice gives the same text as stripping it once |
| Text.ParseNatToString | tools/chromadb_tool.py:56 | the decimal rendering of a number reads back as that number |
| TestUtils.FailureResult | test_utils.py:32-36 | a raised request records the FAIL status and the exception message, and does not pass |
| TestUtils.ListRepr | test_utils.py:30 | the list of model names is rendered in brackets, and is `[]` exactly when there are no models |
| TestUtils.OllamaResult | test_utils.py:20-36 | passes if and only if the server lists at least one model and warns when it lists none; records the model count and the list of names |
| TestUtils.ApiHealthResult | test_utils.py:42-57 | passes if and only if the API reports `healthy`, otherwise warns; the message carries the document count, or 0 when absent |
| TestUtils.QueryPerformanceResult | test_utils.py:63-90 | passes if and only if the query answers 200; records the elapsed time with `s`, the status code and whether a response came back |
| TestUtils.DocumentOperationsResult | test_utils.py:96-134 | passes if and only if both the add and the search answer 200; records each outcome |
| TestUtils.VectorStoreResult | test_utils.py:140-159 | passes if and only if the store opens; records its collection name, document count and location |
| TestUtils.OpenedStoreStats | test_utils.py:146-147 | a store that fails to open gives the exception message; one that opens reports the default collection name and directory and its engine's count |
| TestUtils.SystemTester.constructor | test_utils.py:15-18 | a new tester keeps its URLs and starts with no results |
| TestUtils.SystemTester.Record | test_utils.py:38 | `results[name] = result` keeps every key distinct and among the five check names |
| TestUtils.SystemTester.TestOllamaConnection | test_utils.py:20-40 | records exactly its own result under `ollama_connection` and returns it |
| TestUtils.SystemTester.TestApiHealth | test_utils.py:42-61 | records exactly its own result under `api_health` and returns it |
| TestUtils.SystemTester.TestQueryPerformance | test_utils.py:63-94 | records exactly its own result under `query_performance` and returns it |
| TestUtils.SystemTester.TestDocumentOperations | test_utils.py:96-138 | records exactly its own result under `document_operations` and returns it |
| TestUtils.SystemTester.TestVectorStore | test_utils.py:140-163 | opens the store at the default location and records its statistics under `vector_store` |
| TestUtils.SystemTester.RunAllTests | test_utils.py:165-190 | afterwards each of the five names holds its own check's result; from a fresh tester the names stand in run order; total is 5, passed is the number of results whose status carries the pass mark, failed is the rest |
| TestUtils.NamesDistinct | test_utils.py:38-161 | the five result keys are pairwise different |
| TestUtils.Passed | test_utils.py:181 | a result whose status is PASS counts as passed; WARNING, FAIL and a missing status do not |
| TestUtils.PassedCount | test_utils.py:181 | the tally never exceeds the number of results |
| TestUtils.AllPassed | test_utils.py:181-185 | the tally equals the total if and only if every result passed |
| TestUtils.NonePassed | test_utils.py:181-185 | the tally is zero if and only if no result passed; warnings count as failures |
| PyDict.Get | test_utils.py:181 | a lookup fails if and only if the key is absent; a found value is stored under the key |
| PyDict.Put | test_utils.py:38 | assigning an existing key keeps the key order; a new key is appended at the end |
| PyDict.GetPut | test_utils.py:38 | after `d[key] = value`, `d[key]` is `value` |
| PyDict.GetPutOther | test_utils.py:38 | `d[key] = value` leaves every other key's lookup unchanged |
| PyDict.FiveLookups | test_utils.py:171-175 | after five distinct names are recorded in turn, each holds the result recorded under it |
| PyDict.OneEntryPerName | test_utils.py:171-182 | distinct keys drawn from five names, with all five present, make exactly five entries |
| PyDict.KeysFromEmpty | test_utils.py:171-175 | five names recorded into an empty dict stand in the order recorded |
| TestUtils.Report | test_utils.py:261-269 | the report starts with the banner |
| TestUtils.SectionHead | test_utils.py:272-273 | a section opens on a new line with the check name in capitals, a colon and the status, or `N/A` when the dict has none |
| TestUtils.NonStatus | test_utils.py:275-277 | a section lists exactly the entries other than `status`, each taken from the dict |
| TestUtils.NonStatusAppend | test_utils.py:275-277 | leaving out the status keeps the other entries in dict order |
| TestUtils.NonStatusKeepsAll | test_utils.py:275-277 | a dict without a status entry is listed whole |
| TestUtils.SectionListsFields | test_utils.py:271-277 | every entry but the status gives a line, and every line comes from such an entry |
| TestUtils.SectionBodyStep | test_utils.py:275-277 | each further entry adds its line unless it is the status |
| TestUtils.ReportSectionAt | test_utils.py:271-277 | the k-th check's section stands right after the banner and the sections of the checks before it |
| TestUtils.AppendSection | test_utils.py:272-277 | one pass of the outer loop appends exactly the check's section: its upper-cased name with its status (`N/A` when missing), then its other entries |
| TestUtils.GenerateTestReport | test_utils.py:261-279 | the loop's text equals the report function: the banner followed by each check's section in the order recorded |

## Left out

- ChromaDB internals are left out: embeddings, cosine HNSW ranking, persistence to disk, and
  what `collection.add` does with duplicate ids or with lists of unequal length. The engine's
  `query` and `count` stand for them.
- `os.makedirs`, the `SentenceTransformerEmbeddingFunction` and the `PersistentClient` are
  left out. Opening a store is the `ChromaTool` constructor over the batches already persisted.
- `delete_collection` is left out. It only forwards to ChromaDB and prints.
- `load_sample_documents` is left out: it is fixed sample data passed to `add_documents`,
  which is modelled.
- `chat_loop`, every `print`, and the `__main__` blocks are left out. They are console I/O.
- HTTP transport, timeouts, `raise_for_status` and JSON decoding are left out. Their outcome is
  the `LlmReply` and `Probe` parameters.
- `PerformanceBenchmark` is left out. It measures wall-clock latency with `time.time()`.
- TestUtils.QueryPerformanceResult: the elapsed time is taken already rendered with two
  decimals. `time.time()` and the float formatting are not modelled.
- Text.Upper: only ASCII letters are upper-cased. Python's full Unicode case mapping is not
  modelled.
- TestUtils.ListRepr: a model name is rendered as `'name'`. The escaping Python's `repr`
  applies to quotes and control characters is not modelled.
- Metadata values and JSON reply fields are modelled as their `str()` text, not as typed values.
- The temperature is a `real`. Floating-point behaviour is not modelled.
- ChromaStore.ChromaTool.constructor: two tools opened over the same directory share one
  ChromaDB collection in the source. In the model each tool opens its own fresh `Collection`
  over a copy of the persisted batches, so an `AddDocuments` on one tool is not seen by another.
- ChromaStore.ChromaTool.AddDocuments: ChromaDB can reject a batch (for example duplicate ids,
  lists of unequal length or a failed embedding) and raise. The model's `Collection.Add` always
  appends the batch.
- Rag.GetResponse: `get_response` queries the store twice, once through `search` and once
  through `search_formatted`. The model reads one search result for both, so the listed
  documents and the prompt's context always agree. A query that ChromaDB rejects (for example
  `n_results <= 0`) raises in the source. The model's engine always answers, so `GetResponse`
  always returns an envelope.
- `streamlit_app.py`, `main.py`, `quickstart.py` and `tools/__init__.py` are not part of this model.
