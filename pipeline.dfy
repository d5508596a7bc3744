/**
 * The browser client and the server together: what the client posts for a
 * query, what the server answers, and how the page renders that answer.
 */
module Pipeline {
  import opened Wrappers
  import opened Text
  import opened HtmlEscape
  import C = Client
  import S = Server

  /** `JSON.stringify({ query })`, as the server parses it. */
  function RequestFor(query: string): (body: S.RequestBody)
    ensures S.HasStringQuery(body)
    ensures "query" in body.value.fields && body.value.fields["query"] == S.JString(query)
  {
    S.JsonBody(S.JObject(map["query" := S.JString(query)]))
  }

  /**
   * The JSON of a 200 response as the client reads it. Scores are dropped:
   * the client only formats them, and that formatting is not modelled.
   */
  function Transmit<T>(r: S.QueryResult<T>): (d: C.ResultData)
    ensures d.answer == r.answer && d.sources == Some(r.sources) && d.contextChunks.Some?
    ensures |d.contextChunks.value| == |r.contextChunks|
    ensures forall i :: 0 <= i < |r.contextChunks| ==>
              d.contextChunks.value[i] == C.ChunkData(r.contextChunks[i].content, r.contextChunks[i].source)
  {
    var chunks := r.contextChunks;
    C.ResultData(r.answer, Some(r.sources),
      Some(seq(|chunks|, i requires 0 <= i < |chunks| => C.ChunkData(chunks[i].content, chunks[i].source))))
  }

  /**
   * A query the client lets through is refused by the server only when it
   * consists of characters Python treats as whitespace; otherwise the server
   * answers exactly what `query_rag` makes of it, stripped once more.
   */
  lemma SentQueryReachesQueryRag<T>(input: string, vs: Option<S.VectorStore<T>>, llm: string -> Result<string, string>)
    requires !AllWs(input, C.IsJsWhitespace)
    ensures C.OnClick(input).Send?
    ensures var query := C.OnClick(input).query;
      var r := S.ApiQuery(RequestFor(query), vs, llm);
      && (r.Invalid? <==> AllWs(query, S.IsPyWhitespace))
      && (!r.Invalid? ==>
            var q := S.QueryRag(vs, llm, Strip(query, S.IsPyWhitespace));
            && (r.Answered? <==> q.Success?)
            && (r.Answered? ==> r.result == q.value)
            && (r.Crashed? ==> r.error == q.error))
  {
    var query := C.OnClick(input).query;
    S.ApiQueryDelegates(RequestFor(query), vs, llm);
  }

  /**
   * `trim` and `str.strip` disagree on exactly six characters: the four
   * information separators and next line are whitespace only to Python, the
   * zero-width no-break space only to JavaScript.
   */
  lemma WhitespaceTablesDiffer(c: char)
    ensures C.IsJsWhitespace(c) && !S.IsPyWhitespace(c) <==> c == '\U{FEFF}'
    ensures S.IsPyWhitespace(c) && !C.IsJsWhitespace(c) <==> '\U{1C}' <= c <= '\U{1F}' || c == '\U{85}'
  {
  }

  /**
   * The two guards disagree: an information separator (U+001C) is not
   * whitespace to `trim`, so the client sends it, but it is whitespace to
   * `str.strip`, so the server answers 400 "Query cannot be empty".
   */
  lemma SeparatorPassesOnlyTheClient<T>(vs: Option<S.VectorStore<T>>, llm: string -> Result<string, string>)
    ensures C.OnClick("\U{1C}") == C.Send("\U{1C}")
    ensures S.ApiQuery(RequestFor("\U{1C}"), vs, llm) == S.Invalid(S.EmptyQueryError)
  {
    var input := "\U{1C}";
    assert input[0..1] == input;
    assert StrippedAt(input, input, 0, 1, C.IsJsWhitespace);
    StripUnique(input, input, C.IsJsWhitespace);
    assert AllWs(input, S.IsPyWhitespace);
  }

  /** The texts of a list of tags, in order. */
  function TagTexts(tags: seq<C.Tag>): (texts: seq<string>)
    ensures |texts| == |tags|
    ensures forall k :: 0 <= k < |tags| ==> texts[k] == tags[k].text
  {
    seq(|tags|, k requires 0 <= k < |tags| => tags[k].text)
  }

  /**
   * The sources list of a rendered answer: the placeholder when nothing was
   * retrieved, and otherwise one tag per distinct source of the retrieved
   * documents, each named once.
   */
  lemma RenderedSources<T>(answer: string, results: seq<S.Hit<T>>)
    ensures var tags := C.SourceTags(Transmit(S.Shape(answer, results)).sources);
      && (results == [] ==> tags == [C.Tag(C.SourceTagClass, C.NoSourcesText)])
      && (results != [] ==>
            && S.NoDuplicates(TagTexts(tags))
            && forall s :: s in TagTexts(tags) <==> exists i :: 0 <= i < |results| && S.SourceOf(results[i].doc) == s)
  {
    var r := S.Shape(answer, results);
    if results != [] {
      assert S.SourceOf(results[0].doc) in r.sources;
      var texts := TagTexts(C.SourceTags(Some(r.sources)));
      assert texts == r.sources;
    }
  }

  /**
   * The context list of a rendered answer: one item per retrieved document,
   * in retrieval order, whose markup decodes back to the truncated text and
   * the source the server sent, with no raw markup characters in either.
   */
  lemma RenderedContext<T>(answer: string, results: seq<S.Hit<T>>, i: nat)
    requires i < |results|
    ensures var views := C.ContextViews(Transmit(S.Shape(answer, results)).contextChunks);
      && |views| == |results|
      && NoRawMarkup(views[i].contentHtml) && NoRawMarkup(views[i].sourceHtml)
      && Unescape(views[i].contentHtml) == Some(S.Snippet(results[i].doc.pageContent))
      && Unescape(views[i].sourceHtml) == Some(S.SourceOf(results[i].doc))
  {
    var chunks := Transmit(S.Shape(answer, results)).contextChunks.value;
    C.ContextViewsEscaped(chunks, i);
  }
}
