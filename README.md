# RAG demo: a verified model of its request handling, rendering and ingestion

The system answers questions about a folder of financial-adviser documents.
`ingest.py` loads the documents and indexes them in FAISS. `app.py` serves a
Flask API that retrieves the three nearest chunks and asks a chat model for an
answer. `static/script.js` is the browser page that sends the question and
renders the answer, its sources and the retrieved chunks.

The loaders, the text splitter, the embeddings, FAISS, the chat model, Flask
and the DOM are all outside this repository. The splitter, the embeddings used
at ingestion, building and saving the FAISS index, Flask and the DOM are not
modelled. Three of the outside pieces are parameters: the index's query (a
ranking per query), the chat model (a function from prompt to answer) and the
loader classes (a construct and a load function). Around these parameters the
model states, and proves, what the repository's own code does with their
results.

Modules:

- `Wrappers`: the `Option` and `Result` types that stand in for `None` and for
  raised exceptions.
- `Text`: stripping whitespace at both ends over a whitespace predicate, and
  Python's `str.join`.
  - `Strip` is characterised by `IsStripOf`, and `StripUnique` shows that this
    characterisation pins the result down.
  - `JoinPieceAt` and `JoinSeparatorAfter` give the layout of a join.
- `HtmlEscape`: `escapeHtml`, and a decoder `Unescape` that is its exact
  inverse.
- `Client`: the browser page.
  - The click guard, modelled on JavaScript's `trim`.
  - The source-tag and context-list rendering, as functions and as the loops
    that build them.
  - A `Page` class whose fields are the DOM state that `submitQuery`,
    `displayResults` and `showError` change.
- `Documents`: a LangChain document and `metadata.get`.
- `Server`: everything in `app.py`.
  - The top-3 search.
  - `query_rag`'s shaping: the context join, the deduplicated sources and the
    truncated chunks.
  - `api_query`'s mapping to 200, 400 and 500.
  - An `App` class holding the module-global `vectorstore`, with
    `load_vectorstore` and `health`.
- `Ingest`: `load_documents` and the `__main__` gate.
  - Classification by the lowercased `os.path.splitext` extension against the
    table of five loaders.
  - Source stamping.
  - The loop itself, proved against the reference function `LoadedDocs`.
- `Pipeline`: the client and the server together.
  - What a query the page sends becomes at the server.
  - How a server answer is rendered.

The two guards do not agree. `trim` and `str.strip` remove different
characters: U+001C–U+001F and U+0085 count as whitespace only to Python, and
U+FEFF only to JavaScript (`Pipeline.WhitespaceTablesDiffer`). So the page sends a query of information
separators, and the server answers it with 400 "Query cannot be empty"
(`Pipeline.SeparatorPassesOnlyTheClient`). The page shows that message as its
error.

`ingest.py` constructs the loader (`loader_cls(path)`, ingest.py:52) before
its `try`. Only `loader.load()` is inside the `try`. A loader whose
constructor raises therefore ends `load_documents` with that exception, and
the documents loaded so far are lost. Only failures of `load()` are
swallowed; a failure of the loader's constructor is not.
`Ingest.ConstructorFailureAborts` and `Ingest.FailedLoadIsSwallowed` state the
two cases.

## Model

| member | source | states |
|---|---|---|
| Text.Strip | static/script.js:19 | the result is the input with a whitespace prefix and a whitespace suffix removed, and it neither begins nor ends with whitespace |
| Text.StripUnique | static/script.js:19 | any string meeting that description equals `Strip`'s result, so the description is complete |
| Text.StripEmptyIff | app.py:92-94 | stripping gives the empty string exactly when every character is whitespace |
| Text.StripIdempotent | app.py:92 | stripping an already stripped string changes nothing |
| Text.Join | app.py:47 | joining no pieces gives the empty string and joining one piece gives that piece |
| Text.JoinLength | app.py:47 | a join is as long as its pieces plus one separator between each two |
| Text.JoinPieceAt | app.py:47 | piece `i` occurs in the join at the offset of the earlier pieces and separators |
| Text.JoinSeparatorAfter | app.py:47 | the separator follows every piece except the last |
| HtmlEscape.EscapeChar | static/script.js:115-121 | each of the five special characters becomes a reference that starts with `&` and ends with `;`; every other character is kept as is; no output contains a raw `<`, `>`, `"` or `'` |
| HtmlEscape.EscapeHtml | static/script.js:114-123 | the output is at least as long as the input and holds no raw `<`, `>`, `"` or `'` |
| HtmlEscape.EscapeSingle | static/script.js:115-122 | `&`, `<`, `>`, `"` and `'` become `&amp;`, `&lt;`, `&gt;`, `&quot;` and `&#039;`; any other character stays unchanged |
| HtmlEscape.EscapeConcat | static/script.js:122 | escaping works character by character and keeps the order: escaping a concatenation concatenates the escapes |
| HtmlEscape.EscapeLength | static/script.js:122 | the output length lies between input length plus 3 and input length plus 5 per special character |
| HtmlEscape.EscapeLengthUnchangedIff | static/script.js:122 | the length is unchanged exactly when the input has no special character |
| HtmlEscape.EscapeIdentityIff | static/script.js:122 | escaping changes nothing exactly when the input has no special character |
| HtmlEscape.LeadingReference | static/script.js:116-120 | a recognised reference is the escape of some special character and is a prefix of the text |
| HtmlEscape.LeadingReferenceOfEscaped | static/script.js:116-120 | the reference that starts an escaped special character is recognised as that character |
| HtmlEscape.UnescapeEscape | static/script.js:114-123 | decoding an escaped string gives back the original string |
| HtmlEscape.EscapeUnescape | static/script.js:114-123 | whatever decodes to `s` is exactly the escape of `s` |
| HtmlEscape.EscapeInjective | static/script.js:115-122 | two different strings never escape to the same text |
| Client.OnClick | static/script.js:18-27 | a warning with "Please enter a question." exactly when the input is all whitespace; otherwise it sends the non-empty trimmed input |
| Client.IsJsWhitespace | static/script.js:19 | the characters `trim` removes; among ASCII, exactly tab to carriage return and space |
| Client.SourceTags | static/script.js:76-85 | at least one `source-tag`; one per source, in order, when the list is present and non-empty; otherwise exactly the "No sources found" tag |
| Client.HasSources | static/script.js:76 | the test `data.sources && data.sources.length > 0`: the list is present and non-empty |
| Client.ContextViews | static/script.js:90-103 | no items for an absent list; otherwise one item per chunk |
| Client.ChunkViewOf | static/script.js:92-100 | an item of class `context-chunk` whose content and source markup hold no raw markup and decode back to the chunk's content and source |
| Client.ContextViewsEscaped | static/script.js:92-100 | each context item has class `context-chunk`, holds no raw markup, and decodes back to the chunk's content and source |
| Client.FailureMessage | static/script.js:51-60 | the error shown is the server's `error`, or "Failed to get response" when that is empty; for a thrown error, its message, or "An error occurred. Please try again." when that is empty |
| Client.RenderSourceTags | static/script.js:74-85 | the `forEach` loop builds exactly `SourceTags` |
| Client.RenderContext | static/script.js:87-103 | the `forEach` loop builds exactly `ContextViews` |
| Client.Page.constructor | static/script.js:3-8 | the page as loaded: welcome shown, results, spinner and error hidden, button enabled, nothing sent |
| Client.Page.ShowError | static/script.js:109-112 | sets the error text and shows it, and changes nothing else |
| Client.Page.DisplayResults | static/script.js:69-107 | answer, tags and context list become those of the data, the results are shown, and nothing else changes |
| Client.Page.ShowReply | static/script.js:51-61 | on success, the results are shown and the error and welcome state are kept; on failure, the error is shown with its message, the welcome message returns, and the results are kept |
| Client.Page.SubmitQuery | static/script.js:29-67 | the input is cleared and the query recorded as sent; the spinner is hidden and the button enabled at the end; success or failure updates the page as above |
| Client.Page.OnSubmitClick | static/script.js:18-27 | a blank input shows the warning and leaves everything else, sent queries included, unchanged; otherwise exactly the trimmed query is sent, and the error and the results are shown exactly when the reply is not, respectively is, a success; a successful reply puts its answer, source tags and context list on the page and hides the welcome message; a failed one shows `FailureMessage` and the welcome message and leaves the old results in place |
| Documents.MetadataGet | app.py:73 | the stored value when the key is present, the default otherwise |
| Server.SimilaritySearch | app.py:44 | the best `k` of the ranking, as a prefix of it, or the ranking's error |
| Server.IsPyWhitespace | app.py:92 | the characters `str.strip` removes; among ASCII, exactly tab to carriage return, the four information separators and space |
| Server.SourceOf | app.py:50 | the document's `source`, or "Unknown" when it has none |
| Server.Contents | app.py:47 | one `page_content` per result, in retrieval order |
| Server.Context | app.py:47 | empty for no results, the text itself for one result, and otherwise as long as the texts plus one "\n\n" between each two |
| Server.ContextInRetrievalOrder | app.py:47 | the `i`-th retrieved text appears in the context at its offset, and "\n\n" follows each text except the last |
| Server.Dedup | app.py:50 | no duplicates, the same set of values, and no longer than the input |
| Server.Snippet | app.py:72 | the first min(300, length) characters followed by "...", so at most 303 characters long |
| Server.SourcesOf | app.py:50 | one source per result, in order |
| Server.ChunksOf | app.py:70-77 | one chunk per result, in order |
| Server.ChunkOf | app.py:71-75 | the first min(300, length) characters of the text followed by "...", the result's source, and its score unchanged |
| Server.SourcesMatchChunks | app.py:50-77 | the sources are exactly those the chunks name, and exactly those the results carry |
| Server.Shape | app.py:67-78 | the answer; `sources` without duplicates and exactly the results' sources; one chunk per result, in order, with its snippet, its source and its score unchanged |
| Server.Prompt | app.py:55-63 | the prompt holds the context and then the question, each at its fixed place in the template |
| Server.QueryField | app.py:92 | a non-JSON body gives its error, a non-object body the `.get` AttributeError, a missing query the empty string, a non-string query the `.strip` AttributeError, and a string query its strip |
| Server.QueryRag | app.py:41-78 | fails when no index is loaded; a failing search or chat call makes it fail with that call's own error; on success, at most 3 chunks, each at most 303 characters, and sources without duplicates that are exactly the chunks' sources |
| Server.QueryRagSucceedsIff | app.py:44-65 | succeeds exactly when the index is loaded, the search succeeds and the chat model answers the prompt; one chunk per retrieved result |
| Server.QueryFieldCases | app.py:92 | the query can be read exactly when it is missing or a string, and it is empty exactly when it is blank |
| Server.ApiQuery | app.py:87-102 | 400 "Query cannot be empty" exactly for a missing or blank query; 500 for a non-JSON body (with its error), for a non-object body (with the `.get` AttributeError) and for a non-string query; 200 only for a readable non-blank query |
| Server.ApiQueryDelegates | app.py:94-98 | a non-blank query reaches `query_rag` stripped; the response is 200 with its result exactly when it succeeds, and 500 with its message when it raises |
| Server.App.constructor | app.py:25 | the global starts as None |
| Server.App.LoadVectorstore | app.py:28-38 | a missing index directory fails with the ❌ message and leaves the global unchanged; a failing load leaves it unchanged too; otherwise the global holds the loaded index |
| Server.App.Health | app.py:105-108 | always 200 and "ok"; `vectorstore_loaded` is true exactly when the global is set |
| Server.App.HandleQuery | app.py:90-102 | with no index loaded, a non-blank query fails with the `NoneType` AttributeError; a blank query is refused |
| Server.App.Start | app.py:111-114 | the server starts exactly when the index loads, and then health reports it loaded |
| Ingest.LoaderFor | ingest.py:33-39 | a loader exactly for `.pdf`, `.txt`, `.html`, `.docx` and `.pptx` |
| Ingest.LoaderForInjective | ingest.py:33-39 | no two extensions share a loader class |
| Ingest.RFind | ingest.py:44 | the last index of the character, or -1 when it does not occur |
| Ingest.SplitExt | ingest.py:44 | root and extension concatenate to the path; a non-empty extension is a dot followed by no other dot or slash |
| Ingest.SplitExtOfName | ingest.py:44 | a name made of a root that is not all dots and a dotted extension splits into exactly that root and extension |
| Ingest.LeadingDotsAreNoExtension | ingest.py:44 | a name whose only dots come first, like `.pdf`, has no extension |
| Ingest.Lower | ingest.py:44 | same length, each character lowercased |
| Ingest.SupportedIff | ingest.py:44-47 | a file is loadable exactly when its lowercased extension is one of the five |
| Ingest.SupportedByLastExtension | ingest.py:44-47 | only the last extension counts, in any letter case |
| Ingest.PathJoin | ingest.py:43 | an absolute file name is kept; otherwise the path starts with the directory, ends with the file name, and has a single "/" between them when the directory does not already end with one |
| Ingest.Extension | ingest.py:44 | the `splitext` extension, lowercased: empty or a dot followed by no other dot or slash, with no upper-case ASCII letter |
| Ingest.StampOne | ingest.py:56 | the text is the same, `source` is the file name, and every other metadata entry is kept |
| Ingest.Stamp | ingest.py:55-56 | every document of a file is stamped, in the loader's order |
| Ingest.ProcessFile | ingest.py:46-59 | skipped exactly when unsupported; aborted exactly when the loader constructor raises, with its error; a failed load keeps the load's error; a successful load gives the loaded documents, stamped |
| Ingest.LoadedDocs | ingest.py:41-62 | the reference result of `load_documents`: each entry's contribution in listing order, or the first constructor error |
| Ingest.FailureIsAConstructorError | ingest.py:52 | a failed run fails with the constructor error of some listed file |
| Ingest.LoadedDocsAppend | ingest.py:41-57 | loading a listing in two parts is loading the first part and then the second; documents concatenate in listing order |
| Ingest.LoadedDocsSingle | ingest.py:42-59 | a one-entry listing gives that entry's contribution |
| Ingest.UnsupportedIsSkipped | ingest.py:46-49 | an unsupported file contributes nothing, and the files after it are still processed |
| Ingest.FailedLoadIsSwallowed | ingest.py:53-59 | a file whose `load()` raises contributes nothing, and the files after it are still processed |
| Ingest.FailurePersists | ingest.py:52 | once the listing so far has failed, the entries after it change nothing: the first constructor error ends the run |
| Ingest.ConstructorFailureAborts | ingest.py:52 | a supported file whose loader constructor raises ends the whole run with that error |
| Ingest.SourcesAreFileNames | ingest.py:43-56 | every returned document's `source` is the bare name of a listed, supported file |
| Ingest.StampSources | ingest.py:55-56 | the loop stamps exactly as `Stamp` does |
| Ingest.LoadFile | ingest.py:43-59 | one pass of the loop body gives exactly the entry's outcome |
| Ingest.LoadDocuments | ingest.py:31-62 | the loop returns exactly the reference result `LoadedDocs` for the listing |
| Ingest.RunIngest | ingest.py:89-95 | nothing is indexed, and the "No documents found" message is given, exactly when no document was loaded; otherwise all loaded documents are handed to the splitter and indexer, or the loading error ends the run |
| Pipeline.RequestFor | static/script.js:48 | the body the server parses is an object whose `query` is the sent string |
| Pipeline.Transmit | app.py:98 | the client receives the answer, the sources and one chunk per server chunk with its content and source |
| Pipeline.SentQueryReachesQueryRag | app.py:92-98 | a query the page sends is refused exactly when it is all Python whitespace; otherwise the response is what `query_rag` gives for it |
| Pipeline.WhitespaceTablesDiffer | app.py:92 | `trim` and `str.strip` disagree exactly on U+001C to U+001F and U+0085, which only Python strips, and U+FEFF, which only JavaScript strips |
| Pipeline.SeparatorPassesOnlyTheClient | static/script.js:19-24 | "\u001C" passes the page's guard and is refused by the server with 400 |
| Pipeline.RenderedSources | static/script.js:76-85 | nothing retrieved renders the single placeholder; otherwise one tag per distinct source of the retrieved documents, with no duplicates |
| Pipeline.RenderedContext | static/script.js:90-102 | one item per retrieved document; each item decodes to the snippet and source that the server sent |

## Left out

- query.py: an interactive `input()`/`print()` loop around the same library calls; its context join is the one modelled for app.py.
- The splitter (chunk size 500, overlap 100), the embeddings used at ingestion, and building and saving the FAISS index (`FAISS.from_documents`, `save_local`) are not modelled. The index's query, the chat model and the loader classes are parameters: for the index, a ranking per query; for the chat model, a function from prompt to answer; for the loaders, a construct and a load function.
- Ingest.RunIngest: failures of splitting, embedding and saving (`split_documents` and `embed_and_store`, ingest.py:94-95) are not modelled. `Indexed(docs)` only records that the loaded documents are handed to the splitter and indexer; it does not say that an index was written.
- Flask routing, `jsonify`, template rendering, `load_dotenv`, `os.listdir` and `os.path.exists`. The request body is given already parsed, the listing as a sequence of names, and the existence of the index directory as a boolean.
- Scores are opaque values of a type parameter. `float(score)` and `toFixed(1)` are not modelled, and the client model drops the score.
- JSON numbers keep only whether they are integers or floats (a float is kept as its literal text); only their Python type name reaches the error messages.
- `fetch`, `async`/`await`, the Enter-key handler (static/script.js:11-15), input focus, console logging, and the health check on page load (static/script.js:126-135). A reply is given to `SubmitQuery` as a value.
- `print` logging in app.py and ingest.py.
- The temperature of 0.7 passed to the chat model: it is one of the chat-model parameter's inputs.
- Ingest.Lower: lowercases ASCII letters only. No other character lowercases to a letter of `.pdf`, `.txt`, `.html`, `.docx` or `.pptx`, so acceptance is the same as under Python's full `str.lower`.
- Server.Dedup: keeps first occurrences, whereas Python's `list(set(...))` has an unspecified order. The contracts built on it (Server.Shape, Server.QueryRag, Pipeline.RenderedSources) promise no order.
- Ingest.StampSources: `load_documents` changes each document's metadata in place. The model builds stamped copies, so documents that the loader shares among several results are not modelled.
- Server.SimilaritySearch: the ranking is the index's whole answer for a query, so ties and FAISS's approximate search are whatever the parameter says.
- Server.App.Start: `app.run` itself is not modelled; the result only says whether the server would start.
