/**
 * The system tester (test_utils.py): five checks that each record one result
 * dict under a fixed name, the pass tally `run_all_tests` prints, and the
 * plain-text report `generate_test_report` renders from the recorded results.
 *
 * Every check talks to a server or opens the vector store; what it got back is
 * a parameter `Probe<T>`, either the decoded reply or the text of the
 * exception that was raised. A result dict maps each key to the `str()` of its
 * value, which is exactly what the report prints.
 */
module TestUtils {
  import opened Wrappers
  import opened Text
  import opened PyDict
  import opened ChromaStore

  /** One check's result dict, values already rendered with `str()`. */
  type ResultDict = Dict<string>

  /** `SystemTester.results`: check name to result dict, in the order first recorded. */
  type Results = Dict<ResultDict>

  /** What a check's request produced: the decoded reply, or the message of the exception raised. */
  datatype Probe<T> = Answered(value: T) | Raised(message: string)

  const DefaultApiUrl := "http://localhost:8000"

  const PassStatus := "\U{2705} PASS"
  const WarningStatus := "\U{26A0}\U{FE0F} WARNING"
  const FailStatus := "\U{274C} FAIL"
  /** The mark the tally looks for inside a status. */
  const PassMark := '\U{2705}'

  const OllamaConnection := "ollama_connection"
  const ApiHealth := "api_health"
  const VectorStore := "vector_store"
  const DocumentOperations := "document_operations"
  const QueryPerformance := "query_performance"

  /** The checks in the order `run_all_tests` runs them. */
  const TestNames := [OllamaConnection, ApiHealth, VectorStore, DocumentOperations, QueryPerformance]

  /** `str(r.get("status", ""))`. */
  function StatusOf(r: ResultDict): string {
    Get(r, "status").GetOr("")
  }

  /**
   * A result counts as passed when its status contains the check mark: the
   * PASS status does, the WARNING and FAIL statuses and a missing status do not.
   */
  function Passed(r: ResultDict): (b: bool)
    ensures StatusOf(r) == PassStatus ==> b
    ensures StatusOf(r) == WarningStatus || StatusOf(r) == FailStatus || Get(r, "status").None? ==> !b
  {
    StatusMarks();
    PassMark in StatusOf(r)
  }

  /** Every result dict the checks build: the status first, no key twice. */
  predicate WellFormed(r: ResultDict) {
    r != [] && r[0].0 == "status" && Distinct(Keys(r))
  }

  // ---------------------------------------------------------------------------
  // The five result dicts
  // ---------------------------------------------------------------------------

  /** Which statuses carry the pass mark. */
  lemma StatusMarks()
    ensures PassMark in PassStatus && PassMark !in WarningStatus && PassMark !in FailStatus
  {
    assert PassStatus[0] == PassMark;
  }

  /** The keys and lookups of a dict written out with two distinct keys. */
  lemma Dict2<V>(k1: string, k2: string, v1: V, v2: V)
    requires k1 != k2
    ensures var r := [(k1, v1), (k2, v2)];
      && Keys(r) == [k1, k2] && Distinct(Keys(r))
      && Get(r, k1) == Some(v1) && Get(r, k2) == Some(v2)
  {
    var r := [(k1, v1), (k2, v2)];
    assert r[1..] == [(k2, v2)];
  }

  /** The keys and lookups of a dict written out with three distinct keys. */
  lemma Dict3<V>(k1: string, k2: string, k3: string, v1: V, v2: V, v3: V)
    requires k1 != k2 && k1 != k3 && k2 != k3
    ensures var r := [(k1, v1), (k2, v2), (k3, v3)];
      && Keys(r) == [k1, k2, k3] && Distinct(Keys(r))
      && Get(r, k1) == Some(v1) && Get(r, k2) == Some(v2) && Get(r, k3) == Some(v3)
  {
    var r := [(k1, v1), (k2, v2), (k3, v3)];
    assert r[1..] == [(k2, v2), (k3, v3)];
    Dict2(k2, k3, v2, v3);
  }

  /** The keys and lookups of a dict written out with four distinct keys. */
  lemma Dict4<V>(k1: string, k2: string, k3: string, k4: string, v1: V, v2: V, v3: V, v4: V)
    requires k1 != k2 && k1 != k3 && k1 != k4 && k2 != k3 && k2 != k4 && k3 != k4
    ensures var r := [(k1, v1), (k2, v2), (k3, v3), (k4, v4)];
      && Keys(r) == [k1, k2, k3, k4] && Distinct(Keys(r))
      && Get(r, k1) == Some(v1) && Get(r, k2) == Some(v2) && Get(r, k3) == Some(v3) && Get(r, k4) == Some(v4)
  {
    var r := [(k1, v1), (k2, v2), (k3, v3), (k4, v4)];
    assert r[1..] == [(k2, v2), (k3, v3), (k4, v4)];
    Dict3(k2, k3, k4, v2, v3, v4);
  }

  /** The dict every check records when its request raises. */
  function FailureResult(message: string): (r: ResultDict)
    ensures WellFormed(r) && Keys(r) == ["status", "message"]
    ensures StatusOf(r) == FailStatus && !Passed(r)
    ensures Get(r, "message") == Some(message)
  {
    StatusMarks();
    Dict2("status", "message", FailStatus, message);
    [("status", FailStatus), ("message", message)]
  }

  /** Python's `repr` of one model name (`None` when the entry has no name). */
  function NameRepr(name: Option<string>): string {
    match name
    case Some(s) => "'" + s + "'"
    case None => "None"
  }

  function JoinReprs(names: seq<Option<string>>): string {
    if names == [] then ""
    else if |names| == 1 then NameRepr(names[0])
    else JoinReprs(names[..|names| - 1]) + ", " + NameRepr(names[|names| - 1])
  }

  /** `str()` of the list of model names. */
  function ListRepr(names: seq<Option<string>>): (s: string)
    ensures |s| >= 2 && s[0] == '[' && s[|s| - 1] == ']'
    ensures names == [] <==> s == "[]"
  {
    "[" + JoinReprs(names) + "]"
  }

  /**
   * `test_ollama_connection`: given the `name` of each model the server
   * lists, passes when there is at least one and warns when there is none.
   */
  function OllamaResult(probe: Probe<seq<Option<string>>>): (r: ResultDict)
    ensures WellFormed(r)
    ensures Passed(r) <==> probe.Answered? && probe.value != []
    ensures probe.Answered? && probe.value == [] ==> StatusOf(r) == WarningStatus
    ensures probe.Answered? ==>
      Keys(r) == ["status", "message", "models"]
      && Get(r, "message") == Some("Found " + NatToString(|probe.value|) + " model(s)")
      && Get(r, "models") == Some(ListRepr(probe.value))
    ensures probe.Raised? ==> r == FailureResult(probe.message)
  {
    match probe
    case Raised(message) => FailureResult(message)
    case Answered(names) =>
      StatusMarks();
      Dict3("status", "message", "models", if names != [] then PassStatus else WarningStatus,
            "Found " + NatToString(|names|) + " model(s)", ListRepr(names));
      [("status", if names != [] then PassStatus else WarningStatus),
       ("message", "Found " + NatToString(|names|) + " model(s)"),
       ("models", ListRepr(names))]
  }

  /** The fields of the `/health` reply the check reads (each rendered as text when present). */
  datatype HealthReply = HealthReply(status: Option<string>, vectorStoreDocuments: Option<string>)

  /** `test_api_health`: passes exactly when the API reports itself "healthy", warns otherwise. */
  function ApiHealthResult(probe: Probe<HealthReply>): (r: ResultDict)
    ensures WellFormed(r)
    ensures Passed(r) <==> probe.Answered? && probe.value.status == Some("healthy")
    ensures probe.Answered? && !Passed(r) ==> StatusOf(r) == WarningStatus
    ensures probe.Answered? ==>
      Keys(r) == ["status", "message"]
      && Get(r, "message") == Some("API healthy, " + probe.value.vectorStoreDocuments.GetOr("0") + " documents")
    ensures probe.Raised? ==> r == FailureResult(probe.message)
  {
    match probe
    case Raised(message) => FailureResult(message)
    case Answered(reply) =>
      StatusMarks();
      Dict2("status", "message", if reply.status == Some("healthy") then PassStatus else WarningStatus,
            "API healthy, " + reply.vectorStoreDocuments.GetOr("0") + " documents");
      [("status", if reply.status == Some("healthy") then PassStatus else WarningStatus),
       ("message", "API healthy, " + reply.vectorStoreDocuments.GetOr("0") + " documents")]
  }

  /** `test_vector_store`: passes whenever the store opens, and reports its statistics. */
  function VectorStoreResult(probe: Probe<CollectionStats>): (r: ResultDict)
    ensures WellFormed(r)
    ensures Passed(r) <==> probe.Answered?
    ensures probe.Answered? ==>
      Keys(r) == ["status", "collection", "documents", "location"]
      && Get(r, "collection") == Some(probe.value.collectionName)
      && Get(r, "documents") == Some(NatToString(probe.value.documentCount))
      && Get(r, "location") == Some(probe.value.persistDir)
    ensures probe.Raised? ==> r == FailureResult(probe.message)
  {
    match probe
    case Raised(message) => FailureResult(message)
    case Answered(stats) =>
      StatusMarks();
      Dict4("status", "collection", "documents", "location",
            PassStatus, stats.collectionName, NatToString(stats.documentCount), stats.persistDir);
      [("status", PassStatus),
       ("collection", stats.collectionName),
       ("documents", NatToString(stats.documentCount)),
       ("location", stats.persistDir)]
  }

  /** The HTTP status codes of the add request and of the search request that follows it. */
  datatype DocumentReplies = DocumentReplies(addStatusCode: int, searchStatusCode: int)

  /** `test_document_operations`: passes exactly when both requests answer 200. */
  function DocumentOperationsResult(probe: Probe<DocumentReplies>): (r: ResultDict)
    ensures WellFormed(r)
    ensures Passed(r) <==> probe.Answered? && probe.value.addStatusCode == 200 && probe.value.searchStatusCode == 200
    ensures probe.Answered? ==>
      Keys(r) == ["status", "add_success", "search_success"]
      && StatusOf(r) == (if Passed(r) then PassStatus else FailStatus)
      && Get(r, "add_success") == Some(BoolToString(probe.value.addStatusCode == 200))
      && Get(r, "search_success") == Some(BoolToString(probe.value.searchStatusCode == 200))
    ensures probe.Raised? ==> r == FailureResult(probe.message)
  {
    match probe
    case Raised(message) => FailureResult(message)
    case Answered(replies) =>
      var addSuccess := replies.addStatusCode == 200;
      var searchSuccess := replies.searchStatusCode == 200;
      StatusMarks();
      Dict3("status", "add_success", "search_success", if addSuccess && searchSuccess then PassStatus else FailStatus,
            BoolToString(addSuccess), BoolToString(searchSuccess));
      [("status", if addSuccess && searchSuccess then PassStatus else FailStatus),
       ("add_success", BoolToString(addSuccess)),
       ("search_success", BoolToString(searchSuccess))]
  }

  /**
   * The `/query` reply as the check sees it: the elapsed time already
   * rendered with two decimals, the status code, and whether the body had a
   * non-empty `response`.
   */
  datatype QueryReply = QueryReply(elapsed: string, statusCode: int, hasResponse: bool)

  /** `test_query_performance`: passes exactly when the query answers 200, and records the timing. */
  function QueryPerformanceResult(probe: Probe<QueryReply>): (r: ResultDict)
    ensures WellFormed(r)
    ensures Passed(r) <==> probe.Answered? && probe.value.statusCode == 200
    ensures probe.Answered? ==>
      Keys(r) == ["status", "response_time", "status_code", "has_response"]
      && StatusOf(r) == (if Passed(r) then PassStatus else FailStatus)
      && Get(r, "response_time") == Some(probe.value.elapsed + "s")
      && Get(r, "status_code") == Some(IntToString(probe.value.statusCode))
      && Get(r, "has_response") == Some(BoolToString(probe.value.hasResponse))
    ensures probe.Raised? ==> r == FailureResult(probe.message)
  {
    match probe
    case Raised(message) => FailureResult(message)
    case Answered(reply) =>
      StatusMarks();
      Dict4("status", "response_time", "status_code", "has_response",
            if reply.statusCode == 200 then PassStatus else FailStatus, reply.elapsed + "s",
            IntToString(reply.statusCode), BoolToString(reply.hasResponse));
      [("status", if reply.statusCode == 200 then PassStatus else FailStatus),
       ("response_time", reply.elapsed + "s"),
       ("status_code", IntToString(reply.statusCode)),
       ("has_response", BoolToString(reply.hasResponse))]
  }

  /**
   * The statistics `test_vector_store` reads from a store opened at the
   * default location, given the engine and the batches it already holds.
   */
  function OpenedStoreStats(opening: Probe<(Engine, seq<Batch>)>): (stats: Probe<CollectionStats>)
    ensures opening.Raised? ==> stats == Raised(opening.message)
    ensures opening.Answered? ==>
      && stats.Answered?
      && stats.value.collectionName == DefaultCollectionName
      && stats.value.persistDir == DefaultPersistDir
      && stats.value.documentCount == opening.value.0.count(opening.value.1)
  {
    match opening
    case Raised(message) => Raised(message)
    case Answered(store) => Answered(CollectionStats(DefaultCollectionName, store.0.count(store.1), DefaultPersistDir))
  }

  // ---------------------------------------------------------------------------
  // The tally
  // ---------------------------------------------------------------------------

  /** How many recorded results passed. */
  function PassedCount(rs: Results): (n: nat)
    ensures n <= |rs|
  {
    if rs == [] then 0
    else PassedCount(rs[..|rs| - 1]) + (if Passed(rs[|rs| - 1].1) then 1 else 0)
  }

  /** The tally equals the number of results exactly when every result passed. */
  lemma {:induction false} AllPassed(rs: Results)
    ensures PassedCount(rs) == |rs| <==> forall i :: 0 <= i < |rs| ==> Passed(rs[i].1)
  {
    if rs != [] {
      var init := rs[..|rs| - 1];
      AllPassed(init);
      assert forall i :: 0 <= i < |init| ==> init[i] == rs[i];
    }
  }

  /** The tally is zero exactly when no result passed; warnings count as failures. */
  lemma {:induction false} NonePassed(rs: Results)
    ensures PassedCount(rs) == 0 <==> forall i :: 0 <= i < |rs| ==> !Passed(rs[i].1)
  {
    if rs != [] {
      var init := rs[..|rs| - 1];
      NonePassed(init);
      assert forall i :: 0 <= i < |init| ==> init[i] == rs[i];
    }
  }

  // ---------------------------------------------------------------------------
  // The tester
  // ---------------------------------------------------------------------------

  class SystemTester {
    const apiUrl: string
    const ollamaUrl: string
    var results: Results

    /** Each check is recorded under its own name, at most once. */
    ghost predicate Valid()
      reads this
    {
      Distinct(Keys(results)) && forall k :: k in Keys(results) ==> k in TestNames
    }

    constructor (apiUrl: string, ollamaUrl: string)
      ensures this.apiUrl == apiUrl && this.ollamaUrl == ollamaUrl
      ensures results == [] && Valid()
    {
      this.apiUrl := apiUrl;
      this.ollamaUrl := ollamaUrl;
      results := [];
    }

    /** `self.results[name] = result`. */
    method Record(name: string, result: ResultDict)
      requires Valid() && name in TestNames
      modifies this
      ensures Valid()
      ensures results == Put(old(results), name, result)
    {
      var ks := Keys(results);
      results := Put(results, name, result);
      if name !in ks {
        assert Keys(results) == ks + [name];
      }
    }

    method TestOllamaConnection(probe: Probe<seq<Option<string>>>) returns (result: ResultDict)
      requires Valid()
      modifies this
      ensures Valid()
      ensures result == OllamaResult(probe)
      ensures results == Put(old(results), OllamaConnection, result)
    {
      result := OllamaResult(probe);
      Record(OllamaConnection, result);
    }

    method TestApiHealth(probe: Probe<HealthReply>) returns (result: ResultDict)
      requires Valid()
      modifies this
      ensures Valid()
      ensures result == ApiHealthResult(probe)
      ensures results == Put(old(results), ApiHealth, result)
    {
      result := ApiHealthResult(probe);
      Record(ApiHealth, result);
    }

    method TestQueryPerformance(probe: Probe<QueryReply>) returns (result: ResultDict)
      requires Valid()
      modifies this
      ensures Valid()
      ensures result == QueryPerformanceResult(probe)
      ensures results == Put(old(results), QueryPerformance, result)
    {
      result := QueryPerformanceResult(probe);
      Record(QueryPerformance, result);
    }

    method TestDocumentOperations(probe: Probe<DocumentReplies>) returns (result: ResultDict)
      requires Valid()
      modifies this
      ensures Valid()
      ensures result == DocumentOperationsResult(probe)
      ensures results == Put(old(results), DocumentOperations, result)
    {
      result := DocumentOperationsResult(probe);
      Record(DocumentOperations, result);
    }

    /**
     * Opens the store at the default location (the engine and the batches it
     * already holds, or the exception opening it raised) and records its
     * statistics.
     */
    method TestVectorStore(opening: Probe<(Engine, seq<Batch>)>) returns (result: ResultDict)
      requires Valid()
      modifies this
      ensures Valid()
      ensures result == VectorStoreResult(OpenedStoreStats(opening))
      ensures results == Put(old(results), VectorStore, result)
    {
      var stats: Probe<CollectionStats>;
      match opening {
        case Raised(message) =>
          stats := Raised(message);
        case Answered(store) =>
          var tool := new ChromaTool(DefaultPersistDir, DefaultCollectionName, store.0, store.1);
          stats := Answered(tool.GetCollectionStats());
      }
      result := VectorStoreResult(stats);
      Record(VectorStore, result);
    }

    /**
     * `run_all_tests`: runs the five checks, each recording its own result,
     * and tallies how many of all recorded results passed and failed.
     */
    method RunAllTests(ollama: Probe<seq<Option<string>>>, health: Probe<HealthReply>,
                       opening: Probe<(Engine, seq<Batch>)>, documents: Probe<DocumentReplies>,
                       query: Probe<QueryReply>)
      returns (summary: Results, passed: nat, failed: nat, total: nat)
      requires Valid()
      modifies this
      ensures Valid() && summary == results
      ensures Get(results, OllamaConnection) == Some(OllamaResult(ollama))
      ensures Get(results, ApiHealth) == Some(ApiHealthResult(health))
      ensures Get(results, VectorStore) == Some(VectorStoreResult(OpenedStoreStats(opening)))
      ensures Get(results, DocumentOperations) == Some(DocumentOperationsResult(documents))
      ensures Get(results, QueryPerformance) == Some(QueryPerformanceResult(query))
      ensures old(results) == [] ==> Keys(results) == TestNames
      ensures total == |results| == |TestNames|
      ensures passed == PassedCount(results) && passed <= total && failed == total - passed
    {
      ghost var start := results;
      var r1 := TestOllamaConnection(ollama);
      ghost var s1 := results;
      var r2 := TestApiHealth(health);
      ghost var s2 := results;
      var r3 := TestVectorStore(opening);
      ghost var s3 := results;
      var r4 := TestDocumentOperations(documents);
      ghost var s4 := results;
      var r5 := TestQueryPerformance(query);
      NamesDistinct();
      FiveLookups(OllamaConnection, ApiHealth, VectorStore, DocumentOperations, QueryPerformance,
                  start, s1, s2, s3, s4, results, r1, r2, r3, r4, r5);
      FiveFound(OllamaConnection, ApiHealth, VectorStore, DocumentOperations, QueryPerformance, results);
      OneEntryPerName(OllamaConnection, ApiHealth, VectorStore, DocumentOperations, QueryPerformance, results);
      if start == [] {
        KeysFromEmpty(OllamaConnection, ApiHealth, VectorStore, DocumentOperations, QueryPerformance,
                      start, s1, s2, s3, s4, results, r1, r2, r3, r4, r5);
      }
      summary := results;
      passed := PassedCount(results);
      total := |results|;
      failed := total - passed;
    }
  }

  /** The five check names differ (already in their first letters). */
  lemma NamesDistinct()
    ensures OllamaConnection != ApiHealth && OllamaConnection != VectorStore
    ensures OllamaConnection != DocumentOperations && OllamaConnection != QueryPerformance
    ensures ApiHealth != VectorStore && ApiHealth != DocumentOperations && ApiHealth != QueryPerformance
    ensures VectorStore != DocumentOperations && VectorStore != QueryPerformance
    ensures DocumentOperations != QueryPerformance
  {
    assert OllamaConnection[0] == 'o' && ApiHealth[0] == 'a' && VectorStore[0] == 'v';
    assert DocumentOperations[0] == 'd' && QueryPerformance[0] == 'q';
  }

  // ---------------------------------------------------------------------------
  // The report
  // ---------------------------------------------------------------------------

  const Banner := "\n╔════════════════════════════════════════════════════════════════╗\n║         MCP-Powered Agentic RAG - Test Report                 ║\n╚════════════════════════════════════════════════════════════════╝\n\nTEST RESULTS:\n"

  /** The entries of a result dict other than its status, in dict order. */
  function NonStatus(r: ResultDict): (l: ResultDict)
    ensures |l| <= |r|
    ensures forall i :: 0 <= i < |l| ==> l[i].0 != "status" && l[i] in r
    ensures forall i :: 0 <= i < |r| && r[i].0 != "status" ==> r[i] in l
  {
    if r == [] then []
    else
      var init, last := r[..|r| - 1], r[|r| - 1];
      assert forall i :: 0 <= i < |init| ==> init[i] == r[i];
      if last.0 != "status" then NonStatus(init) + [last] else NonStatus(init)
  }

  function ItemLine(item: (string, string)): string {
    "  - " + item.0 + ": " + item.1 + "\n"
  }

  function ItemLines(items: ResultDict): seq<string> {
    seq(|items|, i requires 0 <= i < |items| => ItemLine(items[i]))
  }

  /**
   * The line naming a check and its status: a blank line, the name in
   * capitals, a colon, and the status ("N/A" when the dict has none).
   */
  function SectionHead(name: string, r: ResultDict): (h: string)
    ensures var s := Get(r, "status").GetOr("N/A");
      && |h| == |name| + |s| + 4 && h[0] == '\n' && h[|h| - 1] == '\n'
      && h[1..1 + |name|] == Upper(name) && h[1 + |name|..3 + |name|] == ": "
      && h[3 + |name|..|h| - 1] == s
    ensures Get(r, "status").None? ==> h[3 + |name|..|h| - 1] == "N/A"
  {
    "\n" + Upper(name) + ": " + Get(r, "status").GetOr("N/A") + "\n"
  }

  /** One line per entry other than the status. */
  function SectionBody(r: ResultDict): string {
    Concat(ItemLines(NonStatus(r)))
  }

  /** The body of a section grows by one line for each further entry that is not the status. */
  lemma SectionBodyStep(r: ResultDict, j: nat)
    requires j < |r|
    ensures SectionBody(r[..j + 1]) == SectionBody(r[..j]) + (if r[j].0 != "status" then ItemLine(r[j]) else "")
  {
    assert r[..j + 1][..j] == r[..j];
    var lines := ItemLines(NonStatus(r[..j]));
    if r[j].0 != "status" {
      ItemLinesPush(NonStatus(r[..j]), r[j]);
      ConcatPush(lines, ItemLine(r[j]));
    } else {
      assert lines + [] == lines;
    }
  }

  function Section(name: string, r: ResultDict): string {
    SectionHead(name, r) + SectionBody(r)
  }

  function Sections(rs: Results): seq<string> {
    seq(|rs|, k requires 0 <= k < |rs| => Section(rs[k].0, rs[k].1))
  }

  lemma ItemLinesPush(items: ResultDict, item: (string, string))
    ensures ItemLines(items + [item]) == ItemLines(items) + [ItemLine(item)]
  {
  }

  /** The report: the banner, then one section per check in the order recorded. */
  function Report(rs: Results): (r: string)
    ensures |Banner| <= |r| && r[..|Banner|] == Banner
  {
    Banner + Concat(Sections(rs))
  }

  /**
   * Filtering out the status keeps the other entries in their order: the
   * filter of a concatenation is the concatenation of the filters.
   */
  lemma {:induction false} NonStatusAppend(a: ResultDict, b: ResultDict)
    ensures NonStatus(a + b) == NonStatus(a) + NonStatus(b)
    decreases |b|
  {
    if b == [] {
      assert a + b == a;
    } else {
      var b' := b[..|b| - 1];
      assert (a + b)[..|a + b| - 1] == a + b';
      assert b[..|b| - 1] == b';
      NonStatusAppend(a, b');
    }
  }

  /** A dict without a status entry is listed whole. */
  lemma {:induction false} NonStatusKeepsAll(r: ResultDict)
    requires forall i :: 0 <= i < |r| ==> r[i].0 != "status"
    ensures NonStatus(r) == r
  {
    if r != [] {
      NonStatusKeepsAll(r[..|r| - 1]);
    }
  }

  /** Each section lists every entry but the status, and only those. */
  lemma SectionListsFields(name: string, r: ResultDict)
    ensures forall i :: 0 <= i < |r| && r[i].0 != "status" ==> ItemLine(r[i]) in ItemLines(NonStatus(r))
    ensures forall line :: line in ItemLines(NonStatus(r)) ==>
      exists i :: 0 <= i < |r| && r[i].0 != "status" && line == ItemLine(r[i])
  {
    var l := NonStatus(r);
    forall i | 0 <= i < |r| && r[i].0 != "status"
      ensures ItemLine(r[i]) in ItemLines(l)
    {
      var j :| 0 <= j < |l| && l[j] == r[i];
      assert ItemLines(l)[j] == ItemLine(r[i]);
    }
    forall line | line in ItemLines(l)
      ensures exists i :: 0 <= i < |r| && r[i].0 != "status" && line == ItemLine(r[i])
    {
      var j :| 0 <= j < |l| && ItemLines(l)[j] == line;
      var i :| 0 <= i < |r| && r[i] == l[j];
      assert r[i].0 != "status" && line == ItemLine(r[i]);
    }
  }

  /**
   * The section of the `k`-th recorded check sits right after the banner and
   * the sections of the checks before it.
   */
  lemma ReportSectionAt(rs: Results, k: nat)
    requires k < |rs|
    ensures var section := Section(rs[k].0, rs[k].1);
      var off := |Banner| + |Concat(Sections(rs)[..k])|;
      && off + |section| <= |Report(rs)|
      && Report(rs)[off..off + |section|] == section
  {
    ConcatSliceAfter(Banner, Sections(rs), k);
  }

  /**
   * `generate_test_report`: appends, for each recorded check, its name in
   * capitals with its status and then one line per other entry.
   */
  method GenerateTestReport(results: Results) returns (report: string)
    ensures report == Report(results)
  {
    ghost var sections := Sections(results);
    report := Banner;
    assert sections[..0] == [];
    for i := 0 to |results|
      invariant report == Banner + Concat(sections[..i])
    {
      report := AppendSection(report, results[i].0, results[i].1);
      ConcatSnoc(sections, i);
      AppendAssoc(Banner, Concat(sections[..i]), sections[i]);
    }
    assert sections[..|results|] == sections;
  }

  /** One pass of the outer loop of `generate_test_report`: the section of one check. */
  method AppendSection(report: string, testName: string, result: ResultDict) returns (extended: string)
    ensures extended == report + Section(testName, result)
  {
    var status := Get(result, "status").GetOr("N/A");
    var head := "\n" + Upper(testName) + ": " + status + "\n";
    extended := report + head;
    assert result[..0] == [];
    for j := 0 to |result|
      invariant extended == report + head + SectionBody(result[..j])
    {
      var key, value := result[j].0, result[j].1;
      SectionBodyStep(result, j);
      if key != "status" {
        var line := "  - " + key + ": " + value + "\n";
        AppendAssoc(report + head, SectionBody(result[..j]), line);
        extended := extended + line;
      }
    }
    assert result[..|result|] == result;
    AppendAssoc(report, head, SectionBody(result));
  }
}
