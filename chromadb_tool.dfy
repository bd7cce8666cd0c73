/**
 * The ChromaDB wrapper of the RAG system (tools/chromadb_tool.py): how a
 * batch of documents is completed with default ids and metadata before it is
 * handed to the store, how the store's per-query answer is unwrapped, and how
 * a search result is rendered as the numbered context block.
 *
 * The ChromaDB collection itself is foreign code. It is modelled as an object
 * that records every batch handed to it, plus an `Engine`: two total functions
 * that stand for what ChromaDB answers to a query and to `count()` given the
 * batches it has received. Nothing here depends on how the engine embeds,
 * ranks or de-duplicates.
 */
module ChromaStore {
  import opened Wrappers
  import opened Text
  import opened PyDict

  /** A metadata dict: each key to the `str()` of its scalar value. */
  type Metadata = map<string, string>

  /** One call of `collection.add(documents=..., ids=..., metadatas=...)`. */
  datatype Batch = Batch(documents: seq<string>, ids: seq<string>, metadatas: seq<Metadata>)

  /**
   * What `collection.query(query_texts=[q], ...)` returns: for each field, one
   * inner list per query text.
   */
  datatype QueryResult = QueryResult(
    documents: seq<seq<string>>,
    ids: seq<seq<string>>,
    distances: seq<seq<real>>,
    metadatas: seq<seq<Metadata>>)

  /** The flat record `ChromaTool.search` returns. */
  datatype SearchResult = SearchResult(
    documents: seq<string>,
    ids: seq<string>,
    distances: seq<real>,
    metadatas: seq<Metadata>)

  /** The record `ChromaTool.get_collection_stats` returns. */
  datatype CollectionStats = CollectionStats(collectionName: string, documentCount: nat, persistDir: string)

  /** The behaviour of the foreign vector store, as a function of what it was given. */
  datatype Engine = Engine(
    query: (seq<Batch>, string, int) -> QueryResult,
    count: seq<Batch> -> nat)

  const DefaultPersistDir := "./vector_store"
  const DefaultCollectionName := "documents"
  const DefaultNResults := 3

  const NoDocumentsText := "No documents found matching the query."
  /** The title line and a rule of 50 dashes (`"-" * 50`). */
  const Rule := "--------------------------------------------------"
  const Header := "Retrieved Documents:\n" + Rule + "\n"
  /** Documents longer than this many characters are cut in the context block. */
  const PreviewLimit := 500

  /** A ChromaDB collection: the batches it has been given and the engine that answers queries. */
  class Collection {
    const name: string
    const engine: Engine
    var batches: seq<Batch>

    constructor (name: string, engine: Engine, persisted: seq<Batch>)
      ensures this.name == name && this.engine == engine && batches == persisted
    {
      this.name := name;
      this.engine := engine;
      batches := persisted;
    }

    method Add(batch: Batch)
      modifies this
      ensures batches == old(batches) + [batch]
    {
      batches := batches + [batch];
    }

    function Query(queryText: string, nResults: int): QueryResult
      reads this
    {
      engine.query(batches, queryText, nResults)
    }

    function Count(): nat
      reads this
    {
      engine.count(batches)
    }
  }

  // ---------------------------------------------------------------------------
  // Default ids and metadata (add_documents)
  // ---------------------------------------------------------------------------

  function DefaultIds(n: nat): seq<string> {
    seq(n, k requires 0 <= k < n => "doc_" + NatToString(k))
  }

  /** The ids handed to the store: the caller's when non-empty, otherwise `doc_0 .. doc_{n-1}`. */
  function ResolveIds(documents: seq<string>, ids: Option<seq<string>>): (r: seq<string>)
    ensures ids.Some? && ids.value != [] ==> r == ids.value
    ensures ids.None? || ids.value == [] ==>
      && |r| == |documents|
      && forall k :: 0 <= k < |r| ==> r[k] == "doc_" + NatToString(k)
  {
    if ids.None? || ids.value == [] then DefaultIds(|documents|) else ids.value
  }

  /** Generated ids never collide with one another. */
  lemma DefaultIdsDistinct(documents: seq<string>, ids: Option<seq<string>>)
    requires ids.None? || ids.value == []
    ensures Distinct(ResolveIds(documents, ids))
  {
    var r := ResolveIds(documents, ids);
    forall i, j | 0 <= i < j < |r|
      ensures r[i] != r[j]
    {
      PrefixedNumbersDistinct("doc_", i, j);
    }
  }

  /** Generated ids depend on the number of documents only, not on their text. */
  lemma DefaultIdsPositional(d1: seq<string>, d2: seq<string>)
    requires |d1| == |d2|
    ensures ResolveIds(d1, None) == ResolveIds(d2, None)
  {
  }

  const UnknownSource: Metadata := map["source" := "unknown"]

  /** The metadata handed to the store: the caller's when non-empty, otherwise `{"source": "unknown"}` per document. */
  function ResolveMetadata(documents: seq<string>, metadata: Option<seq<Metadata>>): (r: seq<Metadata>)
    ensures metadata.Some? && metadata.value != [] ==> r == metadata.value
    ensures metadata.None? || metadata.value == [] ==>
      && |r| == |documents|
      && forall k :: 0 <= k < |r| ==> r[k] == UnknownSource
  {
    if metadata.None? || metadata.value == [] then seq(|documents|, _ => UnknownSource) else metadata.value
  }

  // ---------------------------------------------------------------------------
  // Unwrapping a query result (search)
  // ---------------------------------------------------------------------------

  /** `outer[0] if outer else []`. */
  function FirstOrEmpty<T>(outer: seq<seq<T>>): seq<T> {
    if outer == [] then [] else outer[0]
  }

  // ---------------------------------------------------------------------------
  // The context block (search_formatted)
  // ---------------------------------------------------------------------------

  function Min(a: nat, b: nat): nat {
    if a <= b then a else b
  }

  /** The document text as shown: whole, or its first 500 characters followed by `...`. */
  function Preview(doc: string): (r: string)
    ensures |doc| <= PreviewLimit ==> r == doc
    ensures |doc| > PreviewLimit ==> |r| == PreviewLimit + 3 && r[PreviewLimit..] == "..."
    ensures Min(|doc|, PreviewLimit) <= |r| && r[..Min(|doc|, PreviewLimit)] == doc[..Min(|doc|, PreviewLimit)]
  {
    if |doc| > PreviewLimit then doc[..PreviewLimit] + "..." else doc
  }

  /** The `Source:` line: none for empty metadata, `Unknown` when there is no `source` key. */
  function SourceLine(meta: Metadata): (r: string)
    ensures meta == map[] ==> r == ""
    ensures meta != map[] && "source" in meta ==> r == "Source: " + meta["source"] + "\n"
    ensures meta != map[] && "source" !in meta ==> r == "Source: Unknown\n"
  {
    if meta == map[] then "" else "Source: " + (if "source" in meta then meta["source"] else "Unknown") + "\n"
  }

  /** The heading that opens entry number `number`. */
  function EntryHeading(number: nat): string {
    "\n[Document " + NatToString(number) + "]\n"
  }

  /** The `Content:` line. */
  function ContentLine(doc: string): string {
    "Content: " + Preview(doc) + "\n"
  }

  function Entry(number: nat, doc: string, meta: Metadata): string {
    EntryHeading(number) + ContentLine(doc) + SourceLine(meta)
  }

  /** One entry per pair of `zip(documents, metadatas)`, numbered from 1. */
  function Entries(docs: seq<string>, metas: seq<Metadata>): (r: seq<string>)
    ensures |r| == Min(|docs|, |metas|)
    ensures forall k :: 0 <= k < |r| ==> r[k] == Entry(k + 1, docs[k], metas[k])
  {
    seq(Min(|docs|, |metas|), k requires 0 <= k < Min(|docs|, |metas|) => Entry(k + 1, docs[k], metas[k]))
  }

  /**
   * The text `search_formatted` produces for a search result: the fixed
   * message when nothing was found, otherwise the title line and a rule of
   * 50 dashes followed by the entries.
   */
  function Format(sr: SearchResult): (r: string)
    ensures sr.documents == [] ==> r == NoDocumentsText
    ensures sr.documents != [] ==> |Header| == 72 && |Header| <= |r| && r[..|Header|] == Header
  {
    if sr.documents == [] then NoDocumentsText else Header + Concat(Entries(sr.documents, sr.metadatas))
  }

  /** The fixed message is produced exactly when no document was found. */
  lemma FormatNoDocuments(sr: SearchResult)
    ensures Format(sr) == NoDocumentsText <==> sr.documents == []
  {
    if sr.documents != [] {
      assert Format(sr)[0] == 'R' != NoDocumentsText[0];
    }
  }

  /**
   * Entry `k` (counting from 0) is the `k+1`-th block of the text: it follows
   * the header and the entries before it. By the contract of `Entries`, that
   * block is `Entry(k + 1, documents[k], metadatas[k])`.
   */
  lemma FormatEntryAt(sr: SearchResult, k: nat)
    requires sr.documents != [] && k < Min(|sr.documents|, |sr.metadatas|)
    ensures var entries := Entries(sr.documents, sr.metadatas);
      var off := |Header| + |Concat(entries[..k])|;
      && off + |entries[k]| <= |Format(sr)|
      && Format(sr)[off..off + |entries[k]|] == entries[k]
  {
    ConcatSliceAfter(Header, Entries(sr.documents, sr.metadatas), k);
  }

  /** Every entry opens with its own number. */
  lemma EntryStartsWithHeading(number: nat, doc: string, meta: Metadata)
    ensures var e := Entry(number, doc, meta);
      var h := "\n[Document " + NatToString(number) + "]\n";
      |h| <= |e| && e[..|h|] == h
  {
    var h := EntryHeading(number);
    var rest := ContentLine(doc) + SourceLine(meta);
    assert Entry(number, doc, meta) == h + rest;
    assert (h + rest)[..|h|] == h;
  }

  /** No two entries carry the same heading. */
  lemma EntryHeadingsDistinct(i: nat, j: nat)
    requires i != j
    ensures EntryHeading(i) != EntryHeading(j)
  {
    var p := "\n[Document ";
    PrefixedNumbersDistinct(p, i, j);
    var a, b := p + NatToString(i), p + NatToString(j);
    assert EntryHeading(i) == a + "]\n" && EntryHeading(j) == b + "]\n";
    if |a| == |b| {
      assert (a + "]\n")[..|a|] == a;
      assert (b + "]\n")[..|b|] == b;
    }
  }

  // ---------------------------------------------------------------------------
  // The tool object
  // ---------------------------------------------------------------------------

  class ChromaTool {
    const persistDir: string
    const collectionName: string
    const collection: Collection

    /**
     * Opens (or creates) the collection `collectionName` under `persistDir`.
     * `persisted` stands for what an existing collection already holds.
     */
    constructor (persistDir: string, collectionName: string, engine: Engine, persisted: seq<Batch>)
      ensures this.persistDir == persistDir && this.collectionName == collectionName
      ensures fresh(collection) && collection.name == collectionName
      ensures collection.engine == engine && collection.batches == persisted
    {
      this.persistDir := persistDir;
      this.collectionName := collectionName;
      collection := new Collection(collectionName, engine, persisted);
    }

    /** Completes the batch with default ids and metadata and hands it to the collection. */
    method AddDocuments(documents: seq<string>, ids: Option<seq<string>>, metadata: Option<seq<Metadata>>)
      modifies collection
      ensures collection.batches == old(collection.batches)
        + [Batch(documents, ResolveIds(documents, ids), ResolveMetadata(documents, metadata))]
    {
      var batchIds := ids.GetOr([]);
      if batchIds == [] {
        batchIds := DefaultIds(|documents|);
      }
      var batchMetadata := metadata.GetOr([]);
      if batchMetadata == [] {
        batchMetadata := seq(|documents|, _ => UnknownSource);
      }
      collection.Add(Batch(documents, batchIds, batchMetadata));
    }

    /** Each field is the first inner list of the store's answer, or `[]` when that list is empty. */
    function Search(query: string, nResults: int): (r: SearchResult)
      reads collection
      ensures collection.Query(query, nResults).documents == [] ==> r.documents == []
      ensures collection.Query(query, nResults).documents != [] ==> r.documents == collection.Query(query, nResults).documents[0]
      ensures collection.Query(query, nResults).ids == [] ==> r.ids == []
      ensures collection.Query(query, nResults).ids != [] ==> r.ids == collection.Query(query, nResults).ids[0]
      ensures collection.Query(query, nResults).distances == [] ==> r.distances == []
      ensures collection.Query(query, nResults).distances != [] ==> r.distances == collection.Query(query, nResults).distances[0]
      ensures collection.Query(query, nResults).metadatas == [] ==> r.metadatas == []
      ensures collection.Query(query, nResults).metadatas != [] ==> r.metadatas == collection.Query(query, nResults).metadatas[0]
    {
      var raw := collection.Query(query, nResults);
      SearchResult(FirstOrEmpty(raw.documents), FirstOrEmpty(raw.ids),
                   FirstOrEmpty(raw.distances), FirstOrEmpty(raw.metadatas))
    }

    /** Renders the search result for `query` as the numbered context block. */
    method SearchFormatted(query: string, nResults: int) returns (formatted: string)
      ensures formatted == Format(Search(query, nResults))
    {
      var results := Search(query, nResults);
      if results.documents == [] {
        return NoDocumentsText;
      }
      formatted := "Retrieved Documents:\n";
      formatted := formatted + Rule + "\n";
      var docs, metas := results.documents, results.metadatas;
      ghost var entries := Entries(docs, metas);
      assert formatted == Header;
      assert Header + Concat(entries[..0]) == Header by {
        assert entries[..0] == [];
      }
      for i := 0 to Min(|docs|, |metas|)
        invariant formatted == Header + Concat(entries[..i])
      {
        var doc, meta := docs[i], metas[i];
        var heading := "\n[Document " + NatToString(i + 1) + "]\n";
        var content := "Content: " + (if |doc| > 500 then doc[..500] + "..." else doc) + "\n";
        var source := "";
        if meta != map[] {
          source := "Source: " + (if "source" in meta then meta["source"] else "Unknown") + "\n";
        }
        ghost var prev := formatted;
        formatted := formatted + heading;
        formatted := formatted + content;
        formatted := formatted + source;
        assert entries[i] == heading + content + source by {
          assert heading == EntryHeading(i + 1);
          assert content == ContentLine(doc);
          assert source == SourceLine(meta);
        }
        assert formatted == prev + entries[i] by {
          AppendAssoc(prev, heading, content);
          AppendAssoc(prev, heading + content, source);
        }
        AppendAssoc(Header, Concat(entries[..i]), entries[i]);
        ConcatSnoc(entries, i);
      }
      assert entries[..|entries|] == entries;
    }

    /** Echoes the name and directory the tool was opened with, and the collection's count. */
    function GetCollectionStats(): (s: CollectionStats)
      reads collection
      ensures s.collectionName == collectionName && s.persistDir == persistDir
      ensures s.documentCount == collection.Count()
    {
      CollectionStats(collectionName, collection.Count(), persistDir)
    }
  }
}
