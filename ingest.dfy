/**
 * Ingestion (ingest.py): classifying the files of the data directory by
 * extension, loading the supported ones, stamping each loaded document with
 * its file name, and building an index only when something was loaded.
 * The directory listing and the loader classes are parameters; the splitter,
 * the embeddings and FAISS are not modelled.
 */
module Ingest {
  import opened Wrappers
  import opened Documents

  const DataDir := "data"
  const NoDocumentsMessage := "No documents found. Please place files in the 'data/' folder."

  /** The LangChain loader classes of the extension table. */
  datatype LoaderKind =
    | PyPDFLoader
    | UnstructuredFileLoader
    | UnstructuredHTMLLoader
    | UnstructuredWordDocumentLoader
    | UnstructuredPowerPointLoader

  const SupportedExtensions: set<string> := {".pdf", ".txt", ".html", ".docx", ".pptx"}

  /** `loaders.get(ext)`: the extension table. */
  function LoaderFor(ext: string): (r: Option<LoaderKind>)
    ensures r.Some? <==> ext in SupportedExtensions
  {
    match ext
    case ".pdf" => Some(PyPDFLoader)
    case ".txt" => Some(UnstructuredFileLoader)
    case ".html" => Some(UnstructuredHTMLLoader)
    case ".docx" => Some(UnstructuredWordDocumentLoader)
    case ".pptx" => Some(UnstructuredPowerPointLoader)
    case _ => None
  }

  /** No two extensions of the table share a loader class. */
  lemma LoaderForInjective(e1: string, e2: string)
    requires LoaderFor(e1).Some? && LoaderFor(e1) == LoaderFor(e2)
    ensures e1 == e2
  {
  }

  /** `s.rfind(c)`: the last index of `c` in `s`, or -1. */
  function RFind(s: string, c: char): (i: int)
    ensures -1 <= i < |s|
    ensures i >= 0 ==> s[i] == c
    ensures forall j :: i < j < |s| ==> s[j] != c
    decreases |s|
  {
    if s == [] then -1 else if s[|s| - 1] == c then |s| - 1 else RFind(s[..|s| - 1], c)
  }

  /**
   * `os.path.splitext(p)` on POSIX: the extension runs from the last dot of
   * the last path component, unless only dots precede that dot in the component.
   */
  function SplitExt(p: string): (r: (string, string))
    ensures r.0 + r.1 == p
    ensures r.1 != [] ==> r.1[0] == '.' && forall i :: 1 <= i < |r.1| ==> r.1[i] != '.' && r.1[i] != '/'
  {
    var sepIndex := RFind(p, '/');
    var dotIndex := RFind(p, '.');
    if dotIndex > sepIndex && exists j :: sepIndex + 1 <= j < dotIndex && p[j] != '.' then
      assert p[..dotIndex] + p[dotIndex..] == p;
      (p[..dotIndex], p[dotIndex..])
    else
      assert p + [] == p;
      (p, [])
  }

  /**
   * A file name made of a root that is not all dots and an extension: a dot
   * followed by no further dot or slash. Its extension is found exactly.
   */
  lemma SplitExtOfName(root: string, ext: string)
    requires forall i :: 0 <= i < |root| ==> root[i] != '/'
    requires exists i :: 0 <= i < |root| && root[i] != '.'
    requires |ext| >= 1 && ext[0] == '.' && forall i :: 1 <= i < |ext| ==> ext[i] != '.' && ext[i] != '/'
    ensures SplitExt(root + ext) == (root, ext)
  {
    var p := root + ext;
    var sepIndex := RFind(p, '/');
    var dotIndex := RFind(p, '.');
    assert sepIndex == -1;
    assert p[|root|] == '.';
    assert dotIndex == |root|;
    var j :| 0 <= j < |root| && root[j] != '.';
    assert p[j] == root[j];
    assert p[..dotIndex] == root && p[dotIndex..] == ext;
  }

  /** A file name whose only dots lead it, like `.pdf` or `..pdf`, has no extension. */
  lemma {:induction false} LeadingDotsAreNoExtension(dots: nat, name: string)
    requires forall i :: 0 <= i < |name| ==> name[i] != '.' && name[i] != '/'
    ensures SplitExt(seq(dots, _ => '.') + name).1 == []
  {
    var p := seq(dots, _ => '.') + name;
    var dotIndex := RFind(p, '.');
    if dotIndex >= 0 {
      assert dotIndex < dots;
      assert forall j :: 0 <= j < dotIndex ==> p[j] == '.';
    }
  }

  /** `c.lower()` for ASCII letters. */
  function LowerChar(c: char): char {
    if 'A' <= c <= 'Z' then (c as int + 32) as char else c
  }

  /** `s.lower()`, modelled on ASCII letters only. */
  function Lower(s: string): (r: string)
    ensures |r| == |s|
    ensures forall i :: 0 <= i < |s| ==> r[i] == LowerChar(s[i])
  {
    seq(|s|, i requires 0 <= i < |s| => LowerChar(s[i]))
  }

  /** `os.path.splitext(file)[1].lower()` */
  function Extension(file: string): (ext: string)
    ensures |ext| == |SplitExt(file).1|
    ensures ext != [] ==> ext[0] == '.' && forall i :: 1 <= i < |ext| ==> ext[i] != '.' && ext[i] != '/'
    ensures forall i :: 0 <= i < |ext| ==> !('A' <= ext[i] <= 'Z')
  {
    Lower(SplitExt(file).1)
  }

  /** The file has a loader in the table. */
  predicate IsSupported(file: string) {
    LoaderFor(Extension(file)).Some?
  }

  /** Supported exactly when the lowercased extension is one of the five. */
  lemma SupportedIff(file: string)
    ensures IsSupported(file) <==> Extension(file) in SupportedExtensions
    ensures IsSupported(file) ==> |SplitExt(file).1| >= 4 && SplitExt(file).1[0] == '.'
  {
  }

  /** A file is classified by its last extension alone, in any letter case. */
  lemma SupportedByLastExtension(root: string, ext: string)
    requires forall i :: 0 <= i < |root| ==> root[i] != '/'
    requires exists i :: 0 <= i < |root| && root[i] != '.'
    requires |ext| >= 1 && ext[0] == '.' && forall i :: 1 <= i < |ext| ==> ext[i] != '.' && ext[i] != '/'
    ensures IsSupported(root + ext) <==> Lower(ext) in SupportedExtensions
  {
    SplitExtOfName(root, ext);
  }

  /** `os.path.join(dir, file)` on POSIX. */
  function PathJoin(dir: string, file: string): (p: string)
    ensures file != [] && file[0] == '/' ==> p == file
    ensures (file == [] || file[0] != '/') ==>
              && |dir| + |file| <= |p| <= |dir| + |file| + 1
              && p[..|dir|] == dir && p[|p| - |file|..] == file
              && (|p| == |dir| + |file| + 1 ==> p[|dir|] == '/')
              && (dir != [] && dir[|dir| - 1] != '/' ==> |p| == |dir| + |file| + 1)
  {
    if file != [] && file[0] == '/' then file
    else if dir == [] || dir[|dir| - 1] == '/' then dir + file
    else dir + "/" + file
  }

  /**
   * The loader classes. Constructing a loader can raise (`construct` gives the
   * message) and `load()` returns documents or raises.
   */
  datatype Loaders = Loaders(
    construct: (LoaderKind, string) -> Option<string>,
    load: (LoaderKind, string) -> Result<seq<Document>, string>)

  /** `d.metadata["source"] = file` */
  function StampOne(d: Document, file: string): (r: Document)
    ensures r.pageContent == d.pageContent
    ensures SourceKey in r.metadata && r.metadata[SourceKey] == file
    ensures forall k :: k in d.metadata && k != SourceKey ==> k in r.metadata && r.metadata[k] == d.metadata[k]
    ensures r.metadata.Keys == d.metadata.Keys + {SourceKey}
  {
    d.(metadata := d.metadata[SourceKey := file])
  }

  /** All documents of one file, stamped, in the order the loader returned them. */
  function Stamp(docs: seq<Document>, file: string): (r: seq<Document>)
    ensures |r| == |docs|
    ensures forall i :: 0 <= i < |docs| ==> r[i] == StampOne(docs[i], file)
  {
    seq(|docs|, i requires 0 <= i < |docs| => StampOne(docs[i], file))
  }

  /** What one directory entry leads to. */
  datatype FileOutcome =
    | Skipped                      // unsupported extension
    | Aborted(error: string)       // the loader's constructor raised: outside the try, so it ends the run
    | LoadFailed(error: string)    // `load()` raised: reported and swallowed
    | Loaded(docs: seq<Document>)  // stamped documents

  function ProcessFile(dataDir: string, file: string, loaders: Loaders): (r: FileOutcome)
    ensures r.Skipped? <==> !IsSupported(file)
    ensures !r.Skipped? ==>
              var kind, path := LoaderFor(Extension(file)).value, PathJoin(dataDir, file);
              && (r.Aborted? <==> loaders.construct(kind, path).Some?)
              && (r.Aborted? ==> r.error == loaders.construct(kind, path).value)
              && (r.LoadFailed? ==> loaders.load(kind, path) == Failure(r.error))
              && (r.Loaded? ==> loaders.load(kind, path).Success? && r.docs == Stamp(loaders.load(kind, path).value, file))
  {
    match LoaderFor(Extension(file))
    case None => Skipped
    case Some(kind) =>
      var path := PathJoin(dataDir, file);
      match loaders.construct(kind, path)
      case Some(e) => Aborted(e)
      case None =>
        match loaders.load(kind, path)
        case Failure(e) => LoadFailed(e)
        case Success(docs) => Loaded(Stamp(docs, file))
  }

  /** What one entry adds to the run: its constructor's error, or its contribution. */
  function FileResult(outcome: FileOutcome): Result<seq<Document>, string> {
    match outcome
    case Aborted(e) => Failure(e)
    case Loaded(docs) => Success(docs)
    case _ => Success([])
  }

  /** Running one part of the listing after another: the first error wins, otherwise the documents concatenate. */
  function Then(first: Result<seq<Document>, string>, second: Result<seq<Document>, string>): Result<seq<Document>, string> {
    if first.Failure? then first else if second.Failure? then second else Success(first.value + second.value)
  }

  lemma ThenAssociative(x: Result<seq<Document>, string>, y: Result<seq<Document>, string>, z: Result<seq<Document>, string>)
    ensures Then(Then(x, y), z) == Then(x, Then(y, z))
  {
    if x.Success? && y.Success? && z.Success? {
      assert (x.value + y.value) + z.value == x.value + (y.value + z.value);
    }
  }

  /** `load_documents(data_dir)` for a listing: the raised error, or every contribution in listing order. */
  function LoadedDocs(dataDir: string, listing: seq<string>, loaders: Loaders): Result<seq<Document>, string>
    decreases |listing|
  {
    if listing == [] then Success([])
    else Then(LoadedDocs(dataDir, listing[..|listing| - 1], loaders),
              FileResult(ProcessFile(dataDir, listing[|listing| - 1], loaders)))
  }

  /** Loading a listing in two parts is loading the first part, then the second. */
  lemma {:induction false} LoadedDocsAppend(dataDir: string, a: seq<string>, b: seq<string>, loaders: Loaders)
    ensures LoadedDocs(dataDir, a + b, loaders) == Then(LoadedDocs(dataDir, a, loaders), LoadedDocs(dataDir, b, loaders))
    decreases |b|
  {
    if b == [] {
      assert a + b == a;
      var x := LoadedDocs(dataDir, a, loaders);
      if x.Success? {
        assert x.value + [] == x.value;
      }
    } else {
      var b' := b[..|b| - 1];
      LoadedDocsAppend(dataDir, a, b', loaders);
      assert (a + b)[..|a + b| - 1] == a + b';
      assert (a + b)[|a + b| - 1] == b[|b| - 1];
      ThenAssociative(LoadedDocs(dataDir, a, loaders), LoadedDocs(dataDir, b', loaders),
                      FileResult(ProcessFile(dataDir, b[|b| - 1], loaders)));
    }
  }

  /** Loading a single entry gives its contribution, or its constructor's error. */
  lemma LoadedDocsSingle(dataDir: string, file: string, loaders: Loaders)
    ensures LoadedDocs(dataDir, [file], loaders) == FileResult(ProcessFile(dataDir, file, loaders))
  {
    assert [file][..0] == [];
    var r := FileResult(ProcessFile(dataDir, file, loaders));
    if r.Success? {
      assert [] + r.value == r.value;
    }
  }

  /** The run fails only with the error of a listed file whose loader constructor raised. */
  lemma {:induction false} FailureIsAConstructorError(dataDir: string, listing: seq<string>, loaders: Loaders)
    ensures LoadedDocs(dataDir, listing, loaders).Failure? ==>
              exists f :: f in listing && ProcessFile(dataDir, f, loaders) == Aborted(LoadedDocs(dataDir, listing, loaders).error)
    decreases |listing|
  {
    if listing == [] {
      return;
    }
    var init, last := listing[..|listing| - 1], listing[|listing| - 1];
    if LoadedDocs(dataDir, init, loaders).Failure? {
      FailureIsAConstructorError(dataDir, init, loaders);
      var f :| f in init && ProcessFile(dataDir, f, loaders) == Aborted(LoadedDocs(dataDir, init, loaders).error);
      assert f in listing;
    } else if LoadedDocs(dataDir, listing, loaders).Failure? {
      assert last in listing;
    }
  }

  lemma SkipsAreNeutral(dataDir: string, before: seq<string>, file: string, after: seq<string>, loaders: Loaders)
    requires FileResult(ProcessFile(dataDir, file, loaders)) == Success([])
    ensures LoadedDocs(dataDir, before + [file] + after, loaders) == LoadedDocs(dataDir, before + after, loaders)
  {
    LoadedDocsSingle(dataDir, file, loaders);
    LoadedDocsAppend(dataDir, before, [file], loaders);
    var x := LoadedDocs(dataDir, before, loaders);
    if x.Success? {
      assert x.value + [] == x.value;
    }
    LoadedDocsAppend(dataDir, before + [file], after, loaders);
    LoadedDocsAppend(dataDir, before, after, loaders);
  }

  /** An unsupported file contributes nothing and the files after it are still processed. */
  lemma UnsupportedIsSkipped(dataDir: string, before: seq<string>, file: string, after: seq<string>, loaders: Loaders)
    requires !IsSupported(file)
    ensures LoadedDocs(dataDir, before + [file] + after, loaders) == LoadedDocs(dataDir, before + after, loaders)
  {
    SkipsAreNeutral(dataDir, before, file, after, loaders);
  }

  /** A file whose loader fails to load contributes nothing and the files after it are still processed. */
  lemma FailedLoadIsSwallowed(dataDir: string, before: seq<string>, file: string, after: seq<string>, loaders: Loaders)
    requires IsSupported(file)
    requires loaders.construct(LoaderFor(Extension(file)).value, PathJoin(dataDir, file)).None?
    requires loaders.load(LoaderFor(Extension(file)).value, PathJoin(dataDir, file)).Failure?
    ensures LoadedDocs(dataDir, before + [file] + after, loaders) == LoadedDocs(dataDir, before + after, loaders)
  {
    SkipsAreNeutral(dataDir, before, file, after, loaders);
  }

  /** A supported file whose loader constructor raises ends the whole run with that error. */
  lemma ConstructorFailureAborts(dataDir: string, before: seq<string>, file: string, after: seq<string>, loaders: Loaders)
    ensures LoadedDocs(dataDir, before, loaders).Success? && IsSupported(file)
            && loaders.construct(LoaderFor(Extension(file)).value, PathJoin(dataDir, file)).Some? ==>
              LoadedDocs(dataDir, before + [file] + after, loaders)
                == Failure(loaders.construct(LoaderFor(Extension(file)).value, PathJoin(dataDir, file)).value)
  {
    if LoadedDocs(dataDir, before, loaders).Success? && IsSupported(file) {
      LoadedDocsSingle(dataDir, file, loaders);
      LoadedDocsAppend(dataDir, before, [file], loaders);
      LoadedDocsAppend(dataDir, before + [file], after, loaders);
    }
  }

  /**
   * Every document returned carries as its source the bare name of a listed,
   * supported file, never the joined path.
   */
  lemma {:induction false} SourcesAreFileNames(dataDir: string, listing: seq<string>, loaders: Loaders)
    ensures LoadedDocs(dataDir, listing, loaders).Success? ==>
              forall d :: d in LoadedDocs(dataDir, listing, loaders).value ==>
                SourceKey in d.metadata && d.metadata[SourceKey] in listing && IsSupported(d.metadata[SourceKey])
    decreases |listing|
  {
    if listing != [] {
      var init := listing[..|listing| - 1];
      var file := listing[|listing| - 1];
      SourcesAreFileNames(dataDir, init, loaders);
      var outcome := ProcessFile(dataDir, file, loaders);
      if outcome.Loaded? {
        forall d | d in outcome.docs
          ensures SourceKey in d.metadata && d.metadata[SourceKey] == file && IsSupported(file)
        {
          var i :| 0 <= i < |outcome.docs| && outcome.docs[i] == d;
        }
      }
      assert forall f :: f in init ==> f in listing;
    }
  }

  /** Processing entry `i` extends the result for the entries before it. */
  lemma LoadedDocsStep(dataDir: string, listing: seq<string>, i: nat, loaders: Loaders)
    requires i < |listing|
    ensures LoadedDocs(dataDir, listing[..i + 1], loaders)
              == Then(LoadedDocs(dataDir, listing[..i], loaders), FileResult(ProcessFile(dataDir, listing[i], loaders)))
  {
    assert listing[..i + 1][..i] == listing[..i];
  }

  /** An entry that does not abort adds its contribution to the documents loaded before it. */
  lemma LoadedDocsContinue(dataDir: string, listing: seq<string>, i: nat, docs: seq<Document>, loaders: Loaders)
    requires i < |listing| && LoadedDocs(dataDir, listing[..i], loaders) == Success(docs)
    requires !ProcessFile(dataDir, listing[i], loaders).Aborted?
    ensures var outcome := ProcessFile(dataDir, listing[i], loaders);
      LoadedDocs(dataDir, listing[..i + 1], loaders)
        == Success(if outcome.Loaded? then docs + outcome.docs else docs)
  {
    LoadedDocsStep(dataDir, listing, i, loaders);
    assert docs + [] == docs;
  }

  /** Once a part of the listing has failed, the entries after it change nothing. */
  lemma {:induction false} FailurePersists(dataDir: string, a: seq<string>, b: seq<string>, loaders: Loaders)
    ensures LoadedDocs(dataDir, a, loaders).Failure? ==> LoadedDocs(dataDir, a + b, loaders) == LoadedDocs(dataDir, a, loaders)
    decreases |b|
  {
    if b == [] {
      assert a + b == a;
    } else {
      var b' := b[..|b| - 1];
      FailurePersists(dataDir, a, b', loaders);
      assert (a + b)[..|a + b| - 1] == a + b';
    }
  }

  /** An entry whose loader constructor raises ends the whole listing with that error. */
  lemma LoadedDocsAbort(dataDir: string, listing: seq<string>, i: nat, docs: seq<Document>, loaders: Loaders)
    requires i < |listing| && LoadedDocs(dataDir, listing[..i], loaders) == Success(docs)
    requires ProcessFile(dataDir, listing[i], loaders).Aborted?
    ensures LoadedDocs(dataDir, listing, loaders) == Failure(ProcessFile(dataDir, listing[i], loaders).error)
  {
    LoadedDocsStep(dataDir, listing, i, loaders);
    FailurePersists(dataDir, listing[..i + 1], listing[i + 1..], loaders);
    assert listing[..i + 1] + listing[i + 1..] == listing;
  }

  /** The inner loop of `load_documents`: `d.metadata["source"] = file` for each loaded document. */
  method StampSources(loaded: seq<Document>, file: string) returns (stamped: seq<Document>)
    ensures stamped == Stamp(loaded, file)
  {
    stamped := [];
    var j := 0;
    while j < |loaded|
      invariant 0 <= j <= |loaded|
      invariant |stamped| == j
      invariant forall k :: 0 <= k < j ==> stamped[k] == StampOne(loaded[k], file)
    {
      var d := loaded[j];
      stamped := stamped + [d.(metadata := d.metadata[SourceKey := file])];
      j := j + 1;
    }
  }

  /**
   * The body of `load_documents`'s loop for one entry: look the loader class up
   * by extension, construct it on the joined path, and load, swallowing a
   * failure of `load()`.
   */
  method LoadFile(dataDir: string, file: string, loaders: Loaders) returns (outcome: FileOutcome)
    ensures outcome == ProcessFile(dataDir, file, loaders)
  {
    var path := PathJoin(dataDir, file);
    var ext := Lower(SplitExt(file).1);
    var loaderCls := LoaderFor(ext);
    if loaderCls.None? {
      return Skipped;
    }
    var constructError := loaders.construct(loaderCls.value, path);
    if constructError.Some? {
      return Aborted(constructError.value);
    }
    var loadedDocs := loaders.load(loaderCls.value, path);
    if loadedDocs.Failure? {
      return LoadFailed(loadedDocs.error);
    }
    var stamped := StampSources(loadedDocs.value, file);
    return Loaded(stamped);
  }

  /**
   * `load_documents(data_dir)` over the entries `os.listdir` returned, in that
   * order: unsupported files are skipped, a failing `load()` is swallowed, a
   * failing loader constructor ends the run, and every document loaded gets
   * the file name as its `source`.
   */
  method LoadDocuments(dataDir: string, listing: seq<string>, loaders: Loaders) returns (r: Result<seq<Document>, string>)
    ensures r == LoadedDocs(dataDir, listing, loaders)
  {
    var docs := [];
    var i := 0;
    while i < |listing|
      invariant 0 <= i <= |listing|
      invariant LoadedDocs(dataDir, listing[..i], loaders) == Success(docs)
    {
      var outcome := LoadFile(dataDir, listing[i], loaders);
      if outcome.Aborted? {
        LoadedDocsAbort(dataDir, listing, i, docs, loaders);
        return Failure(outcome.error);
      }
      LoadedDocsContinue(dataDir, listing, i, docs, loaders);
      if outcome.Loaded? {
        docs := docs + outcome.docs;
      }
      i := i + 1;
    }
    assert listing[..i] == listing;
    return Success(docs);
  }

  /** How running ingest.py ends. */
  datatype IngestRun =
    | NothingToIndex(message: string)  // no documents: nothing is split, embedded or saved
    | Indexed(docs: seq<Document>)     // these documents go to the splitter and then into a new FAISS index
    | IngestFailed(error: string)      // `load_documents` raised

  /** The `__main__` block: build an index only when at least one document was loaded. */
  method RunIngest(listing: seq<string>, loaders: Loaders) returns (run: IngestRun)
    ensures run.NothingToIndex? <==> LoadedDocs(DataDir, listing, loaders) == Success([])
    ensures run.NothingToIndex? ==> run.message == NoDocumentsMessage
    ensures run.Indexed? <==> LoadedDocs(DataDir, listing, loaders).Success? && LoadedDocs(DataDir, listing, loaders).value != []
    ensures run.Indexed? ==> run.docs == LoadedDocs(DataDir, listing, loaders).value
    ensures run.IngestFailed? ==> LoadedDocs(DataDir, listing, loaders) == Failure(run.error)
  {
    var docs := LoadDocuments(DataDir, listing, loaders);
    match docs
    case Failure(e) =>
      run := IngestFailed(e);
    case Success(loaded) =>
      if loaded == [] {
        run := NothingToIndex(NoDocumentsMessage);
      } else {
        run := Indexed(loaded);
      }
  }
}
