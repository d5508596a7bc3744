/**
 * The HTTP server (app.py): the process-wide vector store handle, the health
 * flag, `query_rag`'s shaping of a search result into a response, and
 * `api_query`'s validation and status mapping. FAISS, the embedding service
 * and the chat model are parameters; Flask routing and `jsonify` are not modelled.
 */
module Server {
  import opened Wrappers
  import opened Text
  import opened Documents

  const TopK: nat := 3
  const SnippetLength: nat := 300
  const Ellipsis := "..."
  const ContextSeparator := "\n\n"
  const UnknownSource := "Unknown"
  const EmptyQueryError := "Query cannot be empty"
  const IndexDir := "embeddings/wealth_kb_index"
  const MissingIndexError := "\U{274C} No FAISS index found at '" + IndexDir + "'. Run ingest.py first."
  /** What `query_rag` raises when the vector store was never loaded. */
  const NoVectorstoreError := "'NoneType' object has no attribute 'similarity_search_with_score'"
  const HealthOk := "ok"

  function Min(a: nat, b: nat): nat { if a <= b then a else b }

  /**
   * What `str.strip()` removes: the characters for which Python's `str.isspace`
   * holds (ASCII tab to carriage return, the four information separators,
   * space, next line, no-break space and the Unicode space separators, line
   * and paragraph separators).
   */
  predicate IsPyWhitespace(c: char)
    ensures c <= '\U{7F}' ==> (IsPyWhitespace(c) <==> '\t' <= c <= '\r' || '\U{1C}' <= c <= ' ')
  {
    ('\t' <= c <= '\r') || ('\U{1C}' <= c <= '\U{1F}') || c == ' ' || c == '\U{85}' || c == '\U{A0}'
    || c == '\U{1680}' || ('\U{2000}' <= c <= '\U{200A}') || c == '\U{2028}' || c == '\U{2029}'
    || c == '\U{202F}' || c == '\U{205F}' || c == '\U{3000}'
  }

  /** One `(doc, score)` pair of `similarity_search_with_score`; the score is opaque. */
  datatype Hit<S> = Hit(doc: Document, score: S)

  /**
   * The loaded FAISS index, seen through its one query: for a query text,
   * every indexed chunk ranked by ascending distance, or the error that
   * embedding the query raised.
   */
  datatype VectorStore<S> = VectorStore(rank: string -> Result<seq<Hit<S>>, string>)

  /** `similarity_search_with_score(query, k)`: the best `k` of the ranking, best first. */
  function SimilaritySearch<S>(vs: VectorStore<S>, query: string, k: nat): (r: Result<seq<Hit<S>>, string>)
    ensures r.Failure? <==> vs.rank(query).Failure?
    ensures r.Failure? ==> r.error == vs.rank(query).error
    ensures r.Success? ==>
              |r.value| == Min(k, |vs.rank(query).value|) && r.value <= vs.rank(query).value
  {
    match vs.rank(query)
    case Failure(e) => Failure(e)
    case Success(ranked) => Success(ranked[..Min(k, |ranked|)])
  }

  /** `doc.metadata.get("source", "Unknown")` */
  function SourceOf(d: Document): (s: string)
    ensures SourceKey in d.metadata ==> s == d.metadata[SourceKey]
    ensures SourceKey !in d.metadata ==> s == UnknownSource
  {
    MetadataGet(d, SourceKey, UnknownSource)
  }

  /** The `page_content` of each result, in retrieval order. */
  function Contents<S>(results: seq<Hit<S>>): (cs: seq<string>)
    ensures |cs| == |results|
    ensures forall i :: 0 <= i < |results| ==> cs[i] == results[i].doc.pageContent
  {
    seq(|results|, i requires 0 <= i < |results| => results[i].doc.pageContent)
  }

  /** `"\n\n".join(doc.page_content for doc, _ in results)` */
  function Context<S>(results: seq<Hit<S>>): (c: string)
    ensures results == [] ==> c == []
    ensures |results| == 1 ==> c == results[0].doc.pageContent
    ensures results != [] ==> |c| == TotalLength(Contents(results)) + |ContextSeparator| * (|results| - 1)
  {
    if results == [] then []
    else
      JoinLength(ContextSeparator, Contents(results));
      Join(ContextSeparator, Contents(results))
  }

  /**
   * The context holds each retrieved text in retrieval order: the `i`-th
   * `page_content` starts where the earlier ones and their separators end,
   * and a blank line follows every one but the last.
   */
  lemma ContextInRetrievalOrder<S>(results: seq<Hit<S>>, i: nat)
    requires i < |results|
    ensures var o := Offset(ContextSeparator, Contents(results), i);
      var text := results[i].doc.pageContent;
      o + |text| <= |Context(results)| && Context(results)[o..o + |text|] == text
      && (i + 1 < |results| ==>
            o + |text| + 2 <= |Context(results)| && Context(results)[o + |text|..o + |text| + 2] == "\n\n")
  {
    JoinPieceAt(ContextSeparator, Contents(results), i);
    if i + 1 < |results| {
      JoinSeparatorAfter(ContextSeparator, Contents(results), i);
    }
  }

  predicate NoDuplicates<T(==)>(xs: seq<T>) {
    forall i, j :: 0 <= i < j < |xs| ==> xs[i] != xs[j]
  }

  /**
   * `list(set(xs))`: every value of `xs` once. Python leaves the order to the
   * set; this model keeps first occurrences, and the contract promises no order.
   */
  function Dedup(xs: seq<string>): (r: seq<string>)
    ensures NoDuplicates(r)
    ensures forall x :: x in r <==> x in xs
    ensures |r| <= |xs|
    decreases |xs|
  {
    if xs == [] then []
    else
      var rest := Dedup(xs[..|xs| - 1]);
      var last := xs[|xs| - 1];
      assert forall x :: x in xs <==> x in xs[..|xs| - 1] || x == last by {
        assert xs == xs[..|xs| - 1] + [last];
      }
      if last in rest then rest else rest + [last]
  }

  /** `doc.page_content[:300] + "..."`: the ellipsis is appended even to short texts. */
  function Snippet(pageContent: string): (r: string)
    ensures |r| == Min(|pageContent|, SnippetLength) + |Ellipsis|
    ensures |r| <= SnippetLength + |Ellipsis|
    ensures r[..|r| - |Ellipsis|] <= pageContent
    ensures r[|r| - |Ellipsis|..] == Ellipsis
  {
    pageContent[..Min(|pageContent|, SnippetLength)] + Ellipsis
  }

  /** One entry of `context_chunks`. */
  datatype ContextChunk<S> = ContextChunk(content: string, source: string, score: S)

  /** The dictionary `query_rag` returns. */
  datatype QueryResult<S> = QueryResult(answer: string, sources: seq<string>, contextChunks: seq<ContextChunk<S>>)

  /** One `context_chunks` entry: a truncated prefix of the text, its source and its score. */
  function ChunkOf<S>(h: Hit<S>): (c: ContextChunk<S>)
    ensures |c.content| == Min(|h.doc.pageContent|, SnippetLength) + |Ellipsis|
    ensures c.content[..|c.content| - |Ellipsis|] <= h.doc.pageContent
    ensures c.content[|c.content| - |Ellipsis|..] == Ellipsis
    ensures c.source == SourceOf(h.doc) && c.score == h.score
  {
    ContextChunk(Snippet(h.doc.pageContent), SourceOf(h.doc), h.score)
  }

  function SourcesOf<S>(results: seq<Hit<S>>): (r: seq<string>)
    ensures |r| == |results|
    ensures forall i :: 0 <= i < |results| ==> r[i] == SourceOf(results[i].doc)
  {
    seq(|results|, i requires 0 <= i < |results| => SourceOf(results[i].doc))
  }

  function ChunksOf<S>(results: seq<Hit<S>>): (r: seq<ContextChunk<S>>)
    ensures |r| == |results|
    ensures forall i :: 0 <= i < |results| ==> r[i] == ChunkOf(results[i])
  {
    seq(|results|, i requires 0 <= i < |results| => ChunkOf(results[i]))
  }

  /** The sources of the results are exactly the sources the chunks name, and those the results' documents carry. */
  lemma SourcesMatchChunks<S>(results: seq<Hit<S>>)
    ensures forall s :: s in SourcesOf(results) <==> exists i :: 0 <= i < |results| && SourceOf(results[i].doc) == s
    ensures forall s :: s in SourcesOf(results) <==> exists c :: c in ChunksOf(results) && c.source == s
  {
    var all, chunks := SourcesOf(results), ChunksOf(results);
    forall s | s in all
      ensures exists c :: c in chunks && c.source == s
      ensures exists i :: 0 <= i < |results| && SourceOf(results[i].doc) == s
    {
      var i :| 0 <= i < |all| && all[i] == s;
      assert chunks[i] in chunks;
    }
    forall c | c in chunks ensures c.source in all {
      var i :| 0 <= i < |chunks| && chunks[i] == c;
      assert all[i] == c.source;
    }
    forall i | 0 <= i < |results| ensures SourceOf(results[i].doc) in all {
      assert all[i] == SourceOf(results[i].doc);
    }
  }

  /**
   * The response built from the answer and the search results: `sources` holds
   * each result's source exactly once, and `context_chunks` one truncated entry
   * per result, in retrieval order, with its score passed through.
   */
  function Shape<S>(answer: string, results: seq<Hit<S>>): (r: QueryResult<S>)
    ensures r.answer == answer
    ensures NoDuplicates(r.sources)
    ensures forall s :: s in r.sources <==> exists i :: 0 <= i < |results| && SourceOf(results[i].doc) == s
    ensures |r.contextChunks| == |results|
    ensures forall i :: 0 <= i < |results| ==>
              && r.contextChunks[i].content == Snippet(results[i].doc.pageContent)
              && r.contextChunks[i].source == SourceOf(results[i].doc)
              && r.contextChunks[i].score == results[i].score
    ensures forall s :: s in r.sources <==> exists c :: c in r.contextChunks && c.source == s
  {
    SourcesMatchChunks(results);
    QueryResult(answer, Dedup(SourcesOf(results)), ChunksOf(results))
  }

  const PromptHeader := "You are a professional financial adviser assistant.\n"
    + "Answer the user's question using the context below. Be helpful, accurate, and concise.\n\n"
    + "Context:\n"
  const PromptQuestion := "\n\nQuestion: "
  const PromptAnswer := "\n\nAnswer:"

  /** The prompt sent to the chat model: a fixed instruction, then the context, then the question. */
  function Prompt(context: string, query: string): (p: string)
    ensures |p| == |PromptHeader| + |context| + |PromptQuestion| + |query| + |PromptAnswer|
    ensures p[|PromptHeader|..|PromptHeader| + |context|] == context
    ensures p[|PromptHeader| + |context| + |PromptQuestion|..|p| - |PromptAnswer|] == query
  {
    var p := PromptHeader + context + PromptQuestion + query + PromptAnswer;
    assert p == (PromptHeader + context) + (PromptQuestion + query) + PromptAnswer;
    p
  }

  /**
   * `query_rag(user_query)`. `llm` is `ChatOpenAI(model="gpt-4o-mini",
   * temperature=0.7).invoke` followed by `.content`; a failure of either
   * external call is the exception that call raises.
   */
  function QueryRag<S>(vs: Option<VectorStore<S>>, llm: string -> Result<string, string>, query: string)
    : (r: Result<QueryResult<S>, string>)
    ensures vs.None? ==> r.Failure? && r.error == NoVectorstoreError
    ensures vs.Some? && SimilaritySearch(vs.value, query, TopK).Failure? ==>
              r == Failure(SimilaritySearch(vs.value, query, TopK).error)
    ensures vs.Some? && SimilaritySearch(vs.value, query, TopK).Success? ==>
              var prompt := Prompt(Context(SimilaritySearch(vs.value, query, TopK).value), query);
              llm(prompt).Failure? ==> r == Failure(llm(prompt).error)
    ensures r.Success? ==>
              && |r.value.contextChunks| <= TopK
              && NoDuplicates(r.value.sources)
              && (forall c :: c in r.value.contextChunks ==> |c.content| <= SnippetLength + |Ellipsis|)
              && (forall s :: s in r.value.sources <==> exists c :: c in r.value.contextChunks && c.source == s)
  {
    match vs
    case None => Failure(NoVectorstoreError)
    case Some(store) =>
      match SimilaritySearch(store, query, TopK)
      case Failure(e) => Failure(e)
      case Success(results) =>
        match llm(Prompt(Context(results), query))
        case Failure(e) => Failure(e)
        case Success(answer) =>
          Success(Shape(answer, results))
  }

  /**
   * How `query_rag` reaches its answer: it succeeds exactly when the store is
   * loaded, the search succeeds and the chat model answers the prompt built
   * from the search results and the query, and the response is then shaped
   * from that answer and those results.
   */
  lemma QueryRagSucceedsIff<S>(vs: Option<VectorStore<S>>, llm: string -> Result<string, string>, query: string)
    ensures QueryRag(vs, llm, query).Success? <==>
      && vs.Some?
      && SimilaritySearch(vs.value, query, TopK).Success?
      && llm(Prompt(Context(SimilaritySearch(vs.value, query, TopK).value), query)).Success?
    ensures QueryRag(vs, llm, query).Success? ==>
      var results := SimilaritySearch(vs.value, query, TopK).value;
      var answer := llm(Prompt(Context(results), query)).value;
      var r := QueryRag(vs, llm, query).value;
      && r.answer == answer
      && |r.contextChunks| == |results|
      && forall i :: 0 <= i < |results| ==> r.contextChunks[i] == ChunkOf(results[i])
  {
  }

  /** The parsed request body, as Python's `json` module builds it (a float is kept as its literal). */
  datatype Json =
    | JNull
    | JBool(b: bool)
    | JInt(n: int)
    | JFloat(literal: string)
    | JString(s: string)
    | JArray(items: seq<Json>)
    | JObject(fields: map<string, Json>)

  /** `request.json`, or the error Flask raises when the body is not JSON. */
  datatype RequestBody = JsonBody(value: Json) | NotJson(error: string)

  /** Python's name for the type of a parsed JSON value. */
  function TypeName(j: Json): string {
    match j
    case JNull => "NoneType"
    case JBool(_) => "bool"
    case JInt(_) => "int"
    case JFloat(_) => "float"
    case JString(_) => "str"
    case JArray(_) => "list"
    case JObject(_) => "dict"
  }

  /** The message of the `AttributeError` raised by looking up a missing method. */
  function NoAttribute(j: Json, attr: string): string {
    "'" + TypeName(j) + "' object has no attribute '" + attr + "'"
  }

  /** `data.get("query", "").strip()`, or the exception that expression raises. */
  function QueryField(body: RequestBody): (r: Result<string, string>)
    ensures body.NotJson? ==> r == Failure(body.error)
    ensures body.JsonBody? && !body.value.JObject? ==> r == Failure(NoAttribute(body.value, "get"))
    ensures body.JsonBody? && body.value.JObject? && "query" !in body.value.fields ==> r == Success([])
    ensures body.JsonBody? && body.value.JObject? && "query" in body.value.fields ==>
              var q := body.value.fields["query"];
              && (!q.JString? ==> r == Failure(NoAttribute(q, "strip")))
              && (q.JString? ==> r.Success? && IsStripOf(q.s, r.value, IsPyWhitespace))
  {
    match body
    case NotJson(e) => Failure(e)
    case JsonBody(JObject(fields)) =>
      var q := if "query" in fields then fields["query"] else JString("");
      if q.JString? then Success(Strip(q.s, IsPyWhitespace)) else Failure(NoAttribute(q, "strip"))
    case JsonBody(data) => Failure(NoAttribute(data, "get"))
  }

  /** The query field can be read exactly when it is missing or a string, and is empty exactly when it is blank. */
  lemma QueryFieldCases(body: RequestBody)
    ensures QueryField(body).Success? <==> HasStringQuery(body)
    ensures QueryField(body).Success? ==> (QueryField(body).value == [] <==> IsBlankQuery(body))
    ensures HasStringQuery(body) && "query" in body.value.fields ==>
              QueryField(body).value == Strip(body.value.fields["query"].s, IsPyWhitespace)
  {
    match body
    case JsonBody(JObject(fields)) =>
      if "query" in fields && fields["query"].JString? {
        StripEmptyIff(fields["query"].s, IsPyWhitespace);
      }
    case _ =>
  }

  /** The body is a JSON object whose `query` is missing or a string of whitespace only. */
  predicate IsBlankQuery(body: RequestBody) {
    && body.JsonBody? && body.value.JObject?
    && var fields := body.value.fields;
       "query" !in fields || (fields["query"].JString? && AllWs(fields["query"].s, IsPyWhitespace))
  }

  /** The body is a JSON object whose `query` is missing or a string. */
  predicate HasStringQuery(body: RequestBody) {
    && body.JsonBody? && body.value.JObject?
    && ("query" !in body.value.fields || body.value.fields["query"].JString?)
  }

  /** The three outcomes of `api_query`, in place of Flask's `(jsonify(...), status)` pairs. */
  datatype ApiResponse<S> =
    | Answered(result: QueryResult<S>)   // 200, the `query_rag` dictionary
    | Invalid(error: string)             // 400, {"error": ...}
    | Crashed(error: string)             // 500, {"error": str(e)}

  function StatusCode<S>(r: ApiResponse<S>): nat {
    match r
    case Answered(_) => 200
    case Invalid(_) => 400
    case Crashed(_) => 500
  }

  /**
   * `api_query()`: a blank query is refused with 400 before anything is
   * retrieved; every exception, from the body, the query field or `query_rag`,
   * becomes 500 with its message; otherwise 200 with the `query_rag` result.
   */
  function ApiQuery<S>(body: RequestBody, vs: Option<VectorStore<S>>, llm: string -> Result<string, string>)
    : (r: ApiResponse<S>)
    ensures r.Invalid? <==> IsBlankQuery(body)
    ensures r.Invalid? ==> r.error == EmptyQueryError && StatusCode(r) == 400
    ensures !HasStringQuery(body) ==> r.Crashed? && StatusCode(r) == 500
    ensures body.NotJson? ==> r.Crashed? && r.error == body.error
    ensures body.JsonBody? && !body.value.JObject? ==> r.Crashed? && r.error == NoAttribute(body.value, "get")
    ensures r.Answered? ==> HasStringQuery(body) && !IsBlankQuery(body) && StatusCode(r) == 200
  {
    QueryFieldCases(body);
    match QueryField(body)
    case Failure(e) => Crashed(e)
    case Success(query) =>
      if query == [] then Invalid(EmptyQueryError)
      else
        match QueryRag(vs, llm, query)
        case Failure(e) => Crashed(e)
        case Success(result) => Answered(result)
  }

  /**
   * A query that is not blank reaches `query_rag` stripped, and the response is
   * 200 exactly when `query_rag` returns, 500 with its message when it raises.
   */
  lemma ApiQueryDelegates<S>(body: RequestBody, vs: Option<VectorStore<S>>, llm: string -> Result<string, string>)
    ensures HasStringQuery(body) && !IsBlankQuery(body) ==>
      var query := Strip(body.value.fields["query"].s, IsPyWhitespace);
      var r := ApiQuery(body, vs, llm);
      var q := QueryRag(vs, llm, query);
      && (r.Answered? <==> q.Success?)
      && (r.Answered? ==> r.result == q.value)
      && (r.Crashed? ==> q.Failure? && r.error == q.error)
  {
    QueryFieldCases(body);
  }

  /** `{"status": "ok", "vectorstore_loaded": ...}`, sent with status 200. */
  datatype HealthReport = HealthReport(code: nat, status: string, vectorstoreLoaded: bool)

  /** The server process: its one piece of state is the module-global `vectorstore`. */
  class App<S> {
    var vectorstore: Option<VectorStore<S>>

    /** Importing app.py: `vectorstore = None`. */
    constructor ()
      ensures vectorstore.None?
    {
      vectorstore := None;
    }

    /**
     * `load_vectorstore()`: refuses when the index directory is missing and
     * otherwise assigns the loaded index; `loadLocal` is what
     * `FAISS.load_local` returns or raises. On failure the global is untouched.
     */
    method LoadVectorstore(indexExists: bool, loadLocal: Result<VectorStore<S>, string>) returns (outcome: Result<(), string>)
      modifies this`vectorstore
      ensures !indexExists ==> outcome.Failure? && outcome.error == MissingIndexError
      ensures indexExists && loadLocal.Failure? ==> outcome.Failure? && outcome.error == loadLocal.error
      ensures outcome.Failure? ==> vectorstore == old(vectorstore)
      ensures outcome.Success? <==> indexExists && loadLocal.Success?
      ensures outcome.Success? ==> vectorstore == Some(loadLocal.value)
    {
      if !indexExists {
        return Failure(MissingIndexError);
      }
      match loadLocal
      case Failure(e) =>
        return Failure(e);
      case Success(store) =>
        vectorstore := Some(store);
        return Success(());
    }

    /** `health()`: always 200 and "ok"; the flag says whether the global has been assigned. */
    function Health(): (h: HealthReport)
      reads this
      ensures h.code == 200 && h.status == HealthOk
      ensures h.vectorstoreLoaded <==> vectorstore.Some?
    {
      HealthReport(200, HealthOk, vectorstore.Some?)
    }

    /** A POST to `/api/query` against the current global. */
    function HandleQuery(body: RequestBody, llm: string -> Result<string, string>): (r: ApiResponse<S>)
      reads this
      ensures vectorstore.None? && HasStringQuery(body) && !IsBlankQuery(body) ==>
                r.Crashed? && r.error == NoVectorstoreError
      ensures IsBlankQuery(body) ==> r.Invalid?
    {
      ApiQueryDelegates(body, vectorstore, llm);
      ApiQuery(body, vectorstore, llm)
    }

    /** Running app.py: the server only starts once the index is loaded, and then reports it loaded. */
    method Start(indexExists: bool, loadLocal: Result<VectorStore<S>, string>) returns (serving: bool)
      modifies this`vectorstore
      ensures serving <==> indexExists && loadLocal.Success?
      ensures serving ==> Health().vectorstoreLoaded
      ensures !serving ==> vectorstore == old(vectorstore)
    {
      var outcome := LoadVectorstore(indexExists, loadLocal);
      serving := outcome.Success?;
    }
  }
}
