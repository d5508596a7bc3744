/**
 * The browser client (static/script.js): the submit guard, the effects of a
 * submitted query on the page, and how a server reply is rendered.
 * The page is a `Page` object whose fields stand for the DOM state the
 * script changes; the request sent to the server is recorded, not performed.
 */
module Client {
  import opened Wrappers
  import opened Text
  import opened HtmlEscape

  /**
   * What `String.prototype.trim` removes: the ECMAScript WhiteSpace characters
   * (tab, vertical tab, form feed, space, no-break space, zero-width no-break
   * space and the Unicode space separators) and the LineTerminator characters.
   */
  predicate IsJsWhitespace(c: char)
    ensures c <= '\U{7F}' ==> (IsJsWhitespace(c) <==> '\t' <= c <= '\r' || c == ' ')
  {
    c == '\t' || c == '\n' || c == '\U{B}' || c == '\U{C}' || c == '\r' || c == ' '
    || c == '\U{A0}' || c == '\U{1680}' || ('\U{2000}' <= c <= '\U{200A}')
    || c == '\U{2028}' || c == '\U{2029}' || c == '\U{202F}' || c == '\U{205F}'
    || c == '\U{3000}' || c == '\U{FEFF}'
  }

  const EmptyQueryMessage := "Please enter a question."
  const RequestFailedMessage := "Failed to get response"
  const GenericErrorMessage := "An error occurred. Please try again."
  const SourceTagClass := "source-tag"
  const NoSourcesText := "No sources found"
  const ContextChunkClass := "context-chunk"

  /** What a click on the submit button leads to. */
  datatype ClickAction = Warn(message: string) | Send(query: string)

  /**
   * The click handler's guard: the trimmed input is submitted, unless it is
   * empty, in which case the user is asked for a question and nothing is sent.
   */
  function OnClick(inputValue: string): (a: ClickAction)
    ensures a.Warn? <==> AllWs(inputValue, IsJsWhitespace)
    ensures a.Warn? ==> a.message == EmptyQueryMessage
    ensures a.Send? ==> a.query != [] && IsStripOf(inputValue, a.query, IsJsWhitespace)
  {
    var query := Strip(inputValue, IsJsWhitespace);
    StripEmptyIff(inputValue, IsJsWhitespace);
    if query == [] then Warn(EmptyQueryMessage) else Send(query)
  }

  /** A `<span>` of the sources list. */
  datatype Tag = Tag(className: string, text: string)

  /** One entry of `context_chunks` as the client reads it (the score is not modelled). */
  datatype ChunkData = ChunkData(content: string, source: string)

  /** The parsed JSON of a successful reply; `None` for a field that is absent or null. */
  datatype ResultData = ResultData(answer: string, sources: Option<seq<string>>, contextChunks: Option<seq<ChunkData>>)

  /** A `<div class="context-chunk">`: the markup of its paragraph and of its source line. */
  datatype ChunkView = ChunkView(className: string, contentHtml: string, sourceHtml: string)

  /** How `fetch('/api/query', ...)` ended. */
  datatype Reply =
    | Answered(data: ResultData)   // `response.ok`, its JSON parsed
    | Rejected(error: string)      // not ok; the `error` field of its JSON, "" when absent or empty
    | Failed(message: string)      // `fetch` or JSON parsing threw an error with this message

  /** `sources && sources.length > 0` */
  predicate HasSources(sources: Option<seq<string>>) {
    sources.Some? && |sources.value| > 0
  }

  /**
   * The tags of the sources list: one per source in the given order, or the
   * single placeholder tag when the list is absent or empty.
   */
  function SourceTags(sources: Option<seq<string>>): (tags: seq<Tag>)
    ensures |tags| >= 1
    ensures forall i :: 0 <= i < |tags| ==> tags[i].className == SourceTagClass
    ensures HasSources(sources) ==>
              |tags| == |sources.value| && forall i :: 0 <= i < |tags| ==> tags[i].text == sources.value[i]
    ensures !HasSources(sources) ==> tags == [Tag(SourceTagClass, NoSourcesText)]
  {
    if HasSources(sources) then
      seq(|sources.value|, i requires 0 <= i < |sources.value| => Tag(SourceTagClass, sources.value[i]))
    else
      [Tag(SourceTagClass, NoSourcesText)]
  }

  /**
   * One `context-chunk` item: the chunk's content and source, each escaped, so
   * the markup holds no raw markup characters and decodes back to the text received.
   */
  function ChunkViewOf(chunk: ChunkData): (v: ChunkView)
    ensures v.className == ContextChunkClass
    ensures NoRawMarkup(v.contentHtml) && NoRawMarkup(v.sourceHtml)
    ensures Unescape(v.contentHtml) == Some(chunk.content) && Unescape(v.sourceHtml) == Some(chunk.source)
  {
    UnescapeEscape(chunk.content);
    UnescapeEscape(chunk.source);
    ChunkView(ContextChunkClass, EscapeHtml(chunk.content), EscapeHtml(chunk.source))
  }

  /** The context list: one view per chunk, in order; nothing when the list is absent or empty. */
  function ContextViews(chunks: Option<seq<ChunkData>>): (views: seq<ChunkView>)
    ensures chunks.None? ==> views == []
    ensures chunks.Some? ==> |views| == |chunks.value|
  {
    if chunks.Some? && |chunks.value| > 0 then
      seq(|chunks.value|, i requires 0 <= i < |chunks.value| => ChunkViewOf(chunks.value[i]))
    else
      []
  }

  /**
   * Every piece of server text put into the context list's markup is escaped:
   * no raw `<`, `>`, `"` or `'`, and it decodes back to exactly the text received.
   */
  lemma ContextViewsEscaped(chunks: seq<ChunkData>, i: nat)
    requires i < |chunks|
    ensures var v := ContextViews(Some(chunks))[i];
      v.className == ContextChunkClass
      && NoRawMarkup(v.contentHtml) && NoRawMarkup(v.sourceHtml)
      && Unescape(v.contentHtml) == Some(chunks[i].content)
      && Unescape(v.sourceHtml) == Some(chunks[i].source)
  {
    assert ContextViews(Some(chunks))[i] == ChunkViewOf(chunks[i]);
  }

  /** The message `showError` gets after a request that did not produce results. */
  function FailureMessage(reply: Reply): (m: string)
    requires !reply.Answered?
    ensures m != []
    ensures reply.Rejected? && reply.error != [] ==> m == reply.error
    ensures reply.Failed? && reply.message != [] ==> m == reply.message
    ensures reply.Rejected? && reply.error == [] ==> m == RequestFailedMessage
    ensures reply.Failed? && reply.message == [] ==> m == GenericErrorMessage
  {
    match reply
    case Rejected(e) => if e == [] then RequestFailedMessage else e
    case Failed(e) => if e == [] then GenericErrorMessage else e
  }

  /** The `forEach` over the sources list in `displayResults`, one tag appended per source. */
  method RenderSourceTags(sources: Option<seq<string>>) returns (tags: seq<Tag>)
    ensures tags == SourceTags(sources)
  {
    if HasSources(sources) {
      var list := sources.value;
      tags := [];
      var i := 0;
      while i < |list|
        invariant 0 <= i <= |list|
        invariant |tags| == i
        invariant forall j :: 0 <= j < i ==> tags[j] == Tag(SourceTagClass, list[j])
      {
        tags := tags + [Tag(SourceTagClass, list[i])];
        i := i + 1;
      }
    } else {
      tags := [Tag(SourceTagClass, NoSourcesText)];
    }
  }

  /** The `forEach` over the context chunks in `displayResults`, one list item appended per chunk. */
  method RenderContext(chunks: Option<seq<ChunkData>>) returns (views: seq<ChunkView>)
    ensures views == ContextViews(chunks)
  {
    views := [];
    if chunks.Some? && |chunks.value| > 0 {
      var list := chunks.value;
      var i := 0;
      while i < |list|
        invariant 0 <= i <= |list|
        invariant |views| == i
        invariant forall j :: 0 <= j < i ==> views[j] == ChunkViewOf(list[j])
      {
        views := views + [ChunkViewOf(list[i])];
        i := i + 1;
      }
    }
  }

  /** The part of the page the script changes. */
  class Page {
    var inputValue: string
    var errorText: string
    var errorShown: bool
    var welcomeHidden: bool
    var resultHidden: bool
    var loadingHidden: bool
    var submitDisabled: bool
    var answerText: string
    var sourceTags: seq<Tag>
    var contextItems: seq<ChunkView>
    /** The queries POSTed to `/api/query`, oldest first. */
    var sentQueries: seq<string>

    /** The page as loaded: the welcome message showing, everything else hidden, nothing sent. */
    constructor ()
      ensures inputValue == [] && !errorShown && !welcomeHidden && resultHidden
      ensures loadingHidden && !submitDisabled && sentQueries == []
    {
      inputValue, errorText, errorShown := [], [], false;
      welcomeHidden, resultHidden, loadingHidden, submitDisabled := false, true, true, false;
      answerText, sourceTags, contextItems, sentQueries := [], [], [], [];
    }

    method ShowError(message: string)
      modifies this`errorText, this`errorShown
      ensures errorText == message && errorShown
    {
      errorText := message;
      errorShown := true;
    }

    /** `displayResults(data)`: fills in the answer, the source tags and the context list, then shows them. */
    method DisplayResults(data: ResultData)
      modifies this`answerText, this`sourceTags, this`contextItems, this`resultHidden
      ensures answerText == data.answer
      ensures sourceTags == SourceTags(data.sources)
      ensures contextItems == ContextViews(data.contextChunks)
      ensures !resultHidden
    {
      answerText := data.answer;
      sourceTags := RenderSourceTags(data.sources);
      contextItems := RenderContext(data.contextChunks);
      resultHidden := false;
    }

    /**
     * `submitQuery(query)`: clears the input, hides the welcome message and old
     * results, sends the query, and renders `reply`; on failure shows the error
     * and the welcome message again. The spinner and the button are reset at the end.
     */
    method SubmitQuery(query: string, reply: Reply)
      modifies this
      ensures inputValue == [] && sentQueries == old(sentQueries) + [query]
      ensures loadingHidden && !submitDisabled
      ensures reply.Answered? ==>
                && !errorShown && errorText == old(errorText) && welcomeHidden && !resultHidden
                && answerText == reply.data.answer
                && sourceTags == SourceTags(reply.data.sources)
                && contextItems == ContextViews(reply.data.contextChunks)
      ensures !reply.Answered? ==>
                && errorShown && errorText == FailureMessage(reply) && !welcomeHidden && resultHidden
                && answerText == old(answerText) && sourceTags == old(sourceTags)
                && contextItems == old(contextItems)
    {
      inputValue := [];
      welcomeHidden := true;
      resultHidden := true;
      errorShown := false;
      loadingHidden := false;
      submitDisabled := true;

      sentQueries := sentQueries + [query];
      ShowReply(reply);

      loadingHidden := true;
      submitDisabled := false;
    }

    /** The `try`/`catch` of `submitQuery`: the results on success, the error and the welcome message otherwise. */
    method ShowReply(reply: Reply)
      modifies this`answerText, this`sourceTags, this`contextItems, this`resultHidden
      modifies this`errorText, this`errorShown, this`welcomeHidden
      ensures reply.Answered? ==>
                && errorShown == old(errorShown) && errorText == old(errorText)
                && welcomeHidden == old(welcomeHidden) && !resultHidden
                && answerText == reply.data.answer
                && sourceTags == SourceTags(reply.data.sources)
                && contextItems == ContextViews(reply.data.contextChunks)
      ensures !reply.Answered? ==>
                && errorShown && errorText == FailureMessage(reply) && !welcomeHidden
                && resultHidden == old(resultHidden)
                && answerText == old(answerText) && sourceTags == old(sourceTags)
                && contextItems == old(contextItems)
    {
      if reply.Answered? {
        DisplayResults(reply.data);
      } else {
        ShowError(FailureMessage(reply));
        welcomeHidden := false;
      }
    }

    /** The submit button's click handler. */
    method OnSubmitClick(reply: Reply)
      modifies this
      ensures OnClick(old(inputValue)).Warn? ==>
                && errorShown && errorText == EmptyQueryMessage && sentQueries == old(sentQueries)
                && inputValue == old(inputValue) && welcomeHidden == old(welcomeHidden)
                && resultHidden == old(resultHidden) && loadingHidden == old(loadingHidden)
                && submitDisabled == old(submitDisabled) && answerText == old(answerText)
                && sourceTags == old(sourceTags) && contextItems == old(contextItems)
      ensures OnClick(old(inputValue)).Send? ==>
                && sentQueries == old(sentQueries) + [OnClick(old(inputValue)).query]
                && inputValue == [] && loadingHidden && !submitDisabled
                && (errorShown <==> !reply.Answered?) && (resultHidden <==> !reply.Answered?)
                && (reply.Answered? ==>
                      && answerText == reply.data.answer
                      && sourceTags == SourceTags(reply.data.sources)
                      && contextItems == ContextViews(reply.data.contextChunks)
                      && welcomeHidden && errorText == old(errorText))
                && (!reply.Answered? ==>
                      && errorText == FailureMessage(reply) && !welcomeHidden
                      && answerText == old(answerText) && sourceTags == old(sourceTags)
                      && contextItems == old(contextItems))
    {
      match OnClick(inputValue)
      case Warn(message) =>
        ShowError(message);
      case Send(query) =>
        SubmitQuery(query, reply);
    }
  }
}
