/**
 * The unified document loader: `load_documents` infers or takes a source
 * type, hands the source to exactly one per-source helper, and optionally
 * chunks what comes back. The helpers guard the toolkit's loaders with a
 * file-existence check or an optional-import check.
 */
module ContentLoader {
  import opened Wrappers
  import opened PyText
  import opened Library

  /** The six kinds of source `load_documents` can route to. */
  datatype SourceType = Text | Pdf | Csv | Web | Arxiv | Wikipedia

  /**
   * `source: Union[str, Iterable[str]]`: one string, or an iterable of
   * strings together with the text `str()` renders it as.
   */
  datatype Source = Single(s: string) | Many(items: seq<string>, rendered: string)

  const DefaultChunkSize: int := 1000
  const DefaultChunkOverlap: int := 150
  const DefaultAddStartIndex: bool := true
  const DefaultLoadMaxDocs: int := 2
  const DefaultEncoding: string := "utf-8"
  const DefaultLang: string := "en"
  const DefaultCssClasses: seq<string> := ["post-title", "post-content", "post-header"]

  /** The only keyword arguments the text loader is given. */
  const TextLoaderKeys: set<string> := {"encoding", "autodetect_encoding"}

  const UnresolvedMessage: string :=
    "Unable to determine source_type. "
    + "Pass source_type explicitly: one of {'text','pdf','csv','web','arxiv','wikipedia'} "
    + "or provide a file path with a known extension."
  const ArxivUnavailableMessage: string :=
    "ArxivLoader not available. Install langchain_community extras if needed."
  const WikipediaUnavailableMessage: string :=
    "WikipediaLoader not available. Install langchain_community extras if needed."

  // ---------------------------------------------------------------------
  // Source types and their names
  // ---------------------------------------------------------------------

  /** The `source_type` string a caller passes for each kind. */
  function TypeName(t: SourceType): string {
    match t
    case Text => "text"
    case Pdf => "pdf"
    case Csv => "csv"
    case Web => "web"
    case Arxiv => "arxiv"
    case Wikipedia => "wikipedia"
  }

  /** The `if source_type == ... elif ...` chain: which kind a type string selects, if any. */
  function ParseTypeName(name: string): (r: Option<SourceType>)
    ensures r.Some? ==> TypeName(r.value) == name
    ensures r.None? ==> forall t :: TypeName(t) != name
  {
    if name == "text" then Some(Text)
    else if name == "pdf" then Some(Pdf)
    else if name == "csv" then Some(Csv)
    else if name == "web" then Some(Web)
    else if name == "arxiv" then Some(Arxiv)
    else if name == "wikipedia" then Some(Wikipedia)
    else None
  }

  /** Every kind is selected by its own name and by no other. */
  lemma ParseTypeNameInvertsTypeName(t: SourceType, name: string)
    ensures ParseTypeName(TypeName(t)) == Some(t)
    ensures ParseTypeName(name) == Some(t) <==> name == TypeName(t)
  {
  }

  // ---------------------------------------------------------------------
  // Inference from the file extension
  // ---------------------------------------------------------------------

  /** The kind a path's lower-cased extension names, if it names one. */
  function InferSourceType(path: string): (r: Option<SourceType>)
    ensures r.Some? ==> r.value in {Text, Pdf, Csv}
  {
    KindOfExtension(Lower(Extension(path)))
  }

  /** The extension table: .txt/.md/.rst are text, .pdf is pdf, .csv is csv. */
  function KindOfExtension(ext: string): (r: Option<SourceType>)
    ensures r == Some(Text) <==> ext in {".txt", ".md", ".rst"}
    ensures r == Some(Pdf) <==> ext == ".pdf"
    ensures r == Some(Csv) <==> ext == ".csv"
    ensures r == None <==> ext !in {".txt", ".md", ".rst", ".pdf", ".csv"}
  {
    if ext in {".txt", ".md", ".rst"} then Some(Text)
    else if ext in {".pdf"} then Some(Pdf)
    else if ext in {".csv"} then Some(Csv)
    else None
  }

  /**
   * The local `source_type` after the inference step: inference runs only
   * when no type was given and the source is a single string.
   */
  function EffectiveTypeName(source: Source, sourceType: Option<string>): Option<string> {
    if sourceType.None? && source.Single? then
      match InferSourceType(source.s)
      case Some(t) => Some(TypeName(t))
      case None => None
    else
      sourceType
  }

  /** The kind `load_documents` dispatches on, or None when it raises ValueError. */
  function ResolveSourceType(source: Source, sourceType: Option<string>): Option<SourceType> {
    match EffectiveTypeName(source, sourceType)
    case Some(name) => ParseTypeName(name)
    case None => None
  }

  /** `str(source)`. */
  function Render(source: Source): string {
    match source
    case Single(s) => s
    case Many(_, rendered) => rendered
  }

  // ---------------------------------------------------------------------
  // The per-source helpers
  // ---------------------------------------------------------------------

  /** `os.path.exists(path)` followed by the FileNotFoundError guard, with the helper's message prefix. */
  function ExistingPath(env: Env, path: Source, prefix: string): (r: Result<string, Error>)
    ensures path.Many? ==> r == Failure(NotAPath)
    ensures path.Single? && path.s !in env.existing ==> r == Failure(FileNotFoundError(prefix + path.s))
    ensures path.Single? && path.s in env.existing ==> r == Success(path.s)
  {
    match path
    case Many(_, _) => Failure(NotAPath)
    case Single(p) => if p in env.existing then Success(p) else Failure(FileNotFoundError(prefix + p))
  }

  /** `load_from_text`: the text loader is reached only for an existing path. */
  function LoadFromText(env: Env, path: Source, encoding: Value, autodetectEncoding: Value): (r: Result<seq<Document>, Error>)
    ensures path.Many? ==> r == Failure(NotAPath)
    ensures path.Single? && path.s !in env.existing ==>
              r == Failure(FileNotFoundError("Text file not found: " + path.s))
    ensures path.Single? && path.s in env.existing ==>
              r == env.load(TextLoaderCall(path.s, encoding, autodetectEncoding))
  {
    var p :- ExistingPath(env, path, "Text file not found: ");
    env.load(TextLoaderCall(p, encoding, autodetectEncoding))
  }

  /** `load_from_pdf`: the PDF loader is reached only for an existing path. */
  function LoadFromPdf(env: Env, path: Source): (r: Result<seq<Document>, Error>)
    ensures path.Many? ==> r == Failure(NotAPath)
    ensures path.Single? && path.s !in env.existing ==>
              r == Failure(FileNotFoundError("PDF not found: " + path.s))
    ensures path.Single? && path.s in env.existing ==> r == env.load(PdfLoaderCall(path.s))
  {
    var p :- ExistingPath(env, path, "PDF not found: ");
    env.load(PdfLoaderCall(p))
  }

  /** `load_from_csv`: the CSV loader is reached only for an existing path; falsy `csv_args` become `{}`. */
  function LoadFromCsv(env: Env, path: Source, csvArgs: Value): (r: Result<seq<Document>, Error>)
    ensures path.Many? ==> r == Failure(NotAPath)
    ensures path.Single? && path.s !in env.existing ==>
              r == Failure(FileNotFoundError("CSV not found: " + path.s))
    ensures path.Single? && path.s in env.existing && Truthy(csvArgs) ==>
              r == env.load(CsvLoaderCall(path.s, csvArgs))
    ensures path.Single? && path.s in env.existing && !Truthy(csvArgs) ==>
              r == env.load(CsvLoaderCall(path.s, DictVal([])))
  {
    var p :- ExistingPath(env, path, "CSV not found: ");
    env.load(CsvLoaderCall(p, Or(csvArgs, DictVal([]))))
  }

  /** `load_from_web`: a single URL string becomes a one-element tuple of URLs. */
  function LoadFromWeb(env: Env, urls: Source, cssClasses: Value): (r: Result<seq<Document>, Error>)
    ensures ToTuple(cssClasses).Failure? ==> r == Failure(NotIterable(cssClasses))
    ensures ToTuple(cssClasses).Success? && urls.Single? ==>
              r == env.load(WebLoaderCall([urls.s], ToTuple(cssClasses).value))
    ensures ToTuple(cssClasses).Success? && urls.Many? ==>
              r == env.load(WebLoaderCall(urls.items, ToTuple(cssClasses).value))
  {
    var webPaths := match urls case Single(u) => [u] case Many(items, _) => items;
    var classes :- ToTuple(cssClasses);
    env.load(WebLoaderCall(webPaths, classes))
  }

  /** `load_from_arxiv`: raises ImportError when the ArXiv loader could not be imported. */
  function LoadFromArxiv(env: Env, query: string, loadMaxDocs: int): (r: Result<seq<Document>, Error>)
    ensures !env.arxivInstalled ==> r == Failure(ImportError(ArxivUnavailableMessage))
    ensures env.arxivInstalled ==> r == env.load(ArxivLoaderCall(query, loadMaxDocs))
  {
    if !env.arxivInstalled then Failure(ImportError(ArxivUnavailableMessage))
    else env.load(ArxivLoaderCall(query, loadMaxDocs))
  }

  /** `load_from_wikipedia`: raises ImportError when the Wikipedia loader could not be imported. */
  function LoadFromWikipedia(env: Env, query: string, loadMaxDocs: int, lang: Value): (r: Result<seq<Document>, Error>)
    ensures !env.wikipediaInstalled ==> r == Failure(ImportError(WikipediaUnavailableMessage))
    ensures env.wikipediaInstalled ==> r == env.load(WikipediaLoaderCall(query, loadMaxDocs, lang))
  {
    if !env.wikipediaInstalled then Failure(ImportError(WikipediaUnavailableMessage))
    else env.load(WikipediaLoaderCall(query, loadMaxDocs, lang))
  }

  /** `chunk_docs`: one recursive character split of all documents. */
  function ChunkDocs(env: Env, docs: seq<Document>, chunkSize: int, chunkOverlap: int, addStartIndex: bool): Result<seq<Document>, Error> {
    env.split(RecursiveSplitDocuments(AsItems(docs), chunkSize, chunkOverlap, addStartIndex))
  }

  // ---------------------------------------------------------------------
  // load_documents
  // ---------------------------------------------------------------------

  /** The helper `load_documents` calls, with its arguments already evaluated. */
  datatype LoaderRequest =
    | FromText(path: Source, encoding: Value, autodetectEncoding: Value)
    | FromPdf(path: Source)
    | FromCsv(path: Source, csvArgs: Value)
    | FromWeb(urls: Source, cssClasses: Value)
    | FromArxiv(query: string, loadMaxDocs: int)
    | FromWikipedia(query: string, loadMaxDocs: int, lang: Value)

  function RequestType(request: LoaderRequest): SourceType {
    match request
    case FromText(_, _, _) => Text
    case FromPdf(_) => Pdf
    case FromCsv(_, _) => Csv
    case FromWeb(_, _) => Web
    case FromArxiv(_, _) => Arxiv
    case FromWikipedia(_, _, _) => Wikipedia
  }

  /** `kwargs` keeping only the keys in `keys`. */
  function Restrict(kwargs: map<string, Value>, keys: set<string>): (r: map<string, Value>)
    ensures r.Keys == kwargs.Keys * keys
    ensures forall k :: k in r ==> r[k] == kwargs[k]
  {
    map k | k in kwargs && k in keys :: kwargs[k]
  }

  /**
   * The branch of `load_documents` that picks a helper for the resolved
   * kind and evaluates its arguments (`int(...)` of `load_max_docs` can
   * raise here, before the helper runs).
   */
  function Dispatch(source: Source, kind: Option<SourceType>, kwargs: map<string, Value>): (r: Result<LoaderRequest, Error>)
    ensures r.Success? ==> kind == Some(RequestType(r.value))
    ensures kind.None? <==> r == Failure(ValueError(UnresolvedMessage))
    ensures kind == Some(Pdf) ==> r == Success(FromPdf(source))
    ensures kind == Some(Csv) ==> r == Success(FromCsv(source, Get(kwargs, "csv_args", NoneVal)))
    ensures kind == Some(Web) ==> r == Success(FromWeb(source, Get(kwargs, "css_classes", StrListVal(DefaultCssClasses))))
  {
    match kind
    case None => Failure(ValueError(UnresolvedMessage))
    case Some(Text) =>
      var textKwargs := Restrict(kwargs, TextLoaderKeys);
      Success(FromText(source,
                       Get(textKwargs, "encoding", StrVal(DefaultEncoding)),
                       Get(textKwargs, "autodetect_encoding", BoolVal(true))))
    case Some(Pdf) => Success(FromPdf(source))
    case Some(Csv) => Success(FromCsv(source, Get(kwargs, "csv_args", NoneVal)))
    case Some(Web) => Success(FromWeb(source, Get(kwargs, "css_classes", StrListVal(DefaultCssClasses))))
    case Some(Arxiv) =>
      var maxDocs :- ToInt(Get(kwargs, "load_max_docs", IntVal(DefaultLoadMaxDocs)));
      Success(FromArxiv(Render(source), maxDocs))
    case Some(Wikipedia) =>
      var maxDocs :- ToInt(Get(kwargs, "load_max_docs", IntVal(DefaultLoadMaxDocs)));
      Success(FromWikipedia(Render(source), maxDocs, Get(kwargs, "lang", StrVal(DefaultLang))))
  }

  /** Run the helper a request names. */
  function RunRequest(env: Env, request: LoaderRequest): Result<seq<Document>, Error> {
    match request
    case FromText(path, encoding, autodetect) => LoadFromText(env, path, encoding, autodetect)
    case FromPdf(path) => LoadFromPdf(env, path)
    case FromCsv(path, csvArgs) => LoadFromCsv(env, path, csvArgs)
    case FromWeb(urls, cssClasses) => LoadFromWeb(env, urls, cssClasses)
    case FromArxiv(query, maxDocs) => LoadFromArxiv(env, query, maxDocs)
    case FromWikipedia(query, maxDocs, lang) => LoadFromWikipedia(env, query, maxDocs, lang)
  }

  /** `load_documents(source, source_type, chunk, chunk_size, chunk_overlap, **kwargs)`. */
  function LoadDocuments(env: Env, source: Source, sourceType: Option<string>, chunk: bool,
                         chunkSize: int, chunkOverlap: int, kwargs: map<string, Value>): (r: Result<seq<Document>, Error>)
    ensures ResolveSourceType(source, sourceType).None? ==> r == Failure(ValueError(UnresolvedMessage))
    ensures r.Success? ==> ResolveSourceType(source, sourceType).Some?
  {
    LoadResolved(env, source, ResolveSourceType(source, sourceType), chunk, chunkSize, chunkOverlap, kwargs)
  }

  /** What `load_documents` does once the source type is resolved: dispatch, load, optionally chunk. */
  function LoadResolved(env: Env, source: Source, kind: Option<SourceType>, chunk: bool,
                        chunkSize: int, chunkOverlap: int, kwargs: map<string, Value>): (r: Result<seq<Document>, Error>)
    ensures kind.None? ==> r == Failure(ValueError(UnresolvedMessage))
    ensures r.Success? ==> kind.Some?
  {
    var request :- Dispatch(source, kind, kwargs);
    var docs :- RunRequest(env, request);
    if chunk then ChunkDocs(env, docs, chunkSize, chunkOverlap, DefaultAddStartIndex) else Success(docs)
  }

  // ---------------------------------------------------------------------
  // Properties of the router
  // ---------------------------------------------------------------------

  /**
   * Inference reads the final extension only, ignoring case:
   * .txt/.md/.rst give text, .pdf gives pdf, .csv gives csv, anything else nothing.
   */
  lemma InferFromFinalExtension(stem: string, name: string)
    requires BaseHasNonDot(stem)
    requires '.' !in name && '/' !in name
    ensures Lower(name) in {"txt", "md", "rst"} ==> InferSourceType(stem + "." + name) == Some(Text)
    ensures Lower(name) == "pdf" ==> InferSourceType(stem + "." + name) == Some(Pdf)
    ensures Lower(name) == "csv" ==> InferSourceType(stem + "." + name) == Some(Csv)
    ensures Lower(name) !in {"txt", "md", "rst", "pdf", "csv"} ==> InferSourceType(stem + "." + name) == None
  {
    ExtensionIsFinalSuffix(stem, name);
    LowerOfConcat(".", name);
    assert Lower(".") == ".";
    KindOfDottedName(Lower(name));
  }

  lemma KindOfDottedName(n: string)
    ensures n in {"txt", "md", "rst"} ==> KindOfExtension("." + n) == Some(Text)
    ensures n == "pdf" ==> KindOfExtension("." + n) == Some(Pdf)
    ensures n == "csv" ==> KindOfExtension("." + n) == Some(Csv)
    ensures n !in {"txt", "md", "rst", "pdf", "csv"} ==> KindOfExtension("." + n) == None
  {
    var ext := "." + n;
    assert ext[1..] == n;
    if n == "txt" {
      assert ext == ".txt";
    } else if n == "md" {
      assert ext == ".md";
    } else if n == "rst" {
      assert ext == ".rst";
    } else if n == "pdf" {
      assert ext == ".pdf";
    } else if n == "csv" {
      assert ext == ".csv";
    }
  }

  /** Two paths that agree after lower-casing infer the same kind. */
  lemma InferIgnoresCase(p: string, q: string)
    requires Lower(p) == Lower(q)
    ensures InferSourceType(p) == InferSourceType(q)
  {
    ExtensionOfLower(p);
    ExtensionOfLower(q);
  }

  /** A dot-file such as ".txt" or "notes/.csv" infers nothing. */
  lemma DotFileInfersNothing(dir: string, dots: string, name: string)
    requires dir == [] || dir[|dir| - 1] == '/'
    requires |dots| > 0 && forall i :: 0 <= i < |dots| ==> dots[i] == '.'
    requires '.' !in name && '/' !in name
    ensures InferSourceType(dir + dots + name) == None
  {
    DotFileHasNoExtension(dir, dots, name);
    assert Lower([]) == [];
  }

  /** A path whose final component has no dot infers nothing. */
  lemma NoExtensionInfersNothing(p: string)
    requires forall i :: LastIndexOf(p, '/') < i < |p| ==> p[i] != '.'
    ensures InferSourceType(p) == None
  {
    NoDotInBaseMeansNoExtension(p);
    assert Lower(Extension(p)) == [];
  }

  /** "report.PDF" resolves to pdf: case is ignored. */
  lemma UpperCaseExtensionExample()
    ensures InferSourceType("report.PDF") == Some(Pdf)
  {
    var p := "report.PDF";
    LastIndexOfIs(p, '/', -1);
    LastIndexOfIs(p, '.', 6);
    assert p[0] != '.';
    assert Extension(p) == ".PDF";
    assert Lower(".PDF") == ".pdf";
  }

  /** "a.csv.txt" resolves to text: only the final extension is read. */
  lemma DoubleExtensionExample()
    ensures InferSourceType("a.csv.txt") == Some(Text)
  {
    var p := "a.csv.txt";
    LastIndexOfIs(p, '/', -1);
    LastIndexOfIs(p, '.', 5);
    assert p[0] != '.';
    assert Extension(p) == ".txt";
    assert Lower(".txt") == ".txt";
  }

  /** ".txt" is a dot-file and "some/plain/string" has no extension: neither infers a kind. */
  lemma NoInferenceExamples()
    ensures InferSourceType(".txt") == None
    ensures InferSourceType("some/plain/string") == None
  {
    DotFileInfersNothing([], ".", "txt");
    assert [] + "." + "txt" == ".txt";
    var p := "some/plain/string";
    LastIndexOfIs(p, '/', 10);
    NoExtensionInfersNothing(p);
  }

  /** An explicitly given `source_type` is never replaced by inference. */
  lemma ExplicitTypeNotOverridden(source: Source, name: string)
    ensures EffectiveTypeName(source, Some(name)) == Some(name)
    ensures ResolveSourceType(source, Some(name)) == ParseTypeName(name)
  {
  }

  /** Without a type, a single string resolves to exactly what its extension infers. */
  lemma ImplicitTypeIsInferred(path: string)
    ensures ResolveSourceType(Single(path), None) == InferSourceType(path)
  {
    match InferSourceType(path)
    case Some(t) => ParseTypeNameInvertsTypeName(t, TypeName(t));
    case None =>
  }

  /**
   * An iterable source without a type, and any type string that names no
   * kind, cannot be resolved; then `load_documents` raises ValueError
   * whatever the environment, so no loader is reached.
   */
  lemma UnresolvedRaisesValueError(env: Env, source: Source, sourceType: Option<string>, chunk: bool,
                                   chunkSize: int, chunkOverlap: int, kwargs: map<string, Value>)
    requires || (source.Many? && sourceType.None?)
             || (sourceType.Some? && forall t :: TypeName(t) != sourceType.value)
             || (source.Single? && sourceType.None? && InferSourceType(source.s).None?)
    ensures LoadDocuments(env, source, sourceType, chunk, chunkSize, chunkOverlap, kwargs)
            == Failure(ValueError(UnresolvedMessage))
  {
    if sourceType.Some? {
      assert ParseTypeName(sourceType.value).None?;
    }
  }

  /** Only `encoding` and `autodetect_encoding` reach the text loader, with "utf-8" and True as defaults. */
  lemma TextLoaderKeepsOnlyEncodingKeys(source: Source, kwargs: map<string, Value>)
    ensures Dispatch(source, Some(Text), kwargs)
            == Success(FromText(source,
                                Get(kwargs, "encoding", StrVal("utf-8")),
                                Get(kwargs, "autodetect_encoding", BoolVal(true))))
  {
  }

  /** Two keyword maps that agree on the encoding keys route a text source identically. */
  lemma TextLoaderIgnoresOtherKwargs(source: Source, kwargs1: map<string, Value>, kwargs2: map<string, Value>)
    requires forall k :: k in TextLoaderKeys ==> (k in kwargs1 <==> k in kwargs2)
    requires forall k :: k in TextLoaderKeys && k in kwargs1 ==> kwargs1[k] == kwargs2[k]
    ensures Dispatch(source, Some(Text), kwargs1) == Dispatch(source, Some(Text), kwargs2)
  {
    assert Restrict(kwargs1, TextLoaderKeys) == Restrict(kwargs2, TextLoaderKeys);
  }

  /**
   * arxiv and wikipedia receive `str(source)` and `int(load_max_docs)`,
   * 2 when absent; wikipedia's `lang` is "en" when absent. A value `int()`
   * rejects raises before the helper (and its ImportError guard) runs.
   */
  lemma QueryLoadersArguments(source: Source, kwargs: map<string, Value>)
    ensures var maxDocs := ToInt(Get(kwargs, "load_max_docs", IntVal(2)));
            && ("load_max_docs" !in kwargs ==> maxDocs == Success(2))
            && (maxDocs.Failure? ==> Dispatch(source, Some(Arxiv), kwargs) == Failure(maxDocs.error))
            && (maxDocs.Failure? ==> Dispatch(source, Some(Wikipedia), kwargs) == Failure(maxDocs.error))
            && (maxDocs.Success? ==>
                  Dispatch(source, Some(Arxiv), kwargs) == Success(FromArxiv(Render(source), maxDocs.value)))
            && (maxDocs.Success? ==>
                  Dispatch(source, Some(Wikipedia), kwargs)
                  == Success(FromWikipedia(Render(source), maxDocs.value, Get(kwargs, "lang", StrVal("en")))))
  {
  }

  /** Each resolved kind reaches the helper of that kind and no other. */
  lemma DispatchReachesOneHelper(source: Source, kwargs: map<string, Value>, t: SourceType)
    requires t !in {Arxiv, Wikipedia} || ToInt(Get(kwargs, "load_max_docs", IntVal(2))).Success?
    ensures Dispatch(source, Some(t), kwargs).Success?
    ensures RequestType(Dispatch(source, Some(t), kwargs).value) == t
  {
  }

  /**
   * A missing file raises FileNotFoundError before any loader is called,
   * whatever the environment's loaders would do; an iterable given as a
   * file path raises TypeError from the existence check.
   */
  lemma MissingFileRaisesBeforeLoading(env: Env, source: Source, sourceType: Option<string>, chunk: bool,
                                       chunkSize: int, chunkOverlap: int, kwargs: map<string, Value>)
    requires ResolveSourceType(source, sourceType) in {Some(Text), Some(Pdf), Some(Csv)}
    requires source.Single? ==> source.s !in env.existing
    ensures var r := LoadDocuments(env, source, sourceType, chunk, chunkSize, chunkOverlap, kwargs);
            && (source.Many? ==> r == Failure(NotAPath))
            && (source.Single? && ResolveSourceType(source, sourceType) == Some(Text) ==>
                  r == Failure(FileNotFoundError("Text file not found: " + source.s)))
            && (source.Single? && ResolveSourceType(source, sourceType) == Some(Pdf) ==>
                  r == Failure(FileNotFoundError("PDF not found: " + source.s)))
            && (source.Single? && ResolveSourceType(source, sourceType) == Some(Csv) ==>
                  r == Failure(FileNotFoundError("CSV not found: " + source.s)))
  {
    var kind := ResolveSourceType(source, sourceType);
    MissingFileRaisesForKind(env, source, kind.value, chunk, chunkSize, chunkOverlap, kwargs);
  }

  /** `MissingFileRaisesBeforeLoading` for an already resolved kind. */
  lemma MissingFileRaisesForKind(env: Env, source: Source, t: SourceType, chunk: bool,
                                 chunkSize: int, chunkOverlap: int, kwargs: map<string, Value>)
    requires t == Text || t == Pdf || t == Csv
    requires source.Single? ==> source.s !in env.existing
    ensures var r := LoadResolved(env, source, Some(t), chunk, chunkSize, chunkOverlap, kwargs);
            && (source.Many? ==> r == Failure(NotAPath))
            && (source.Single? && t == Text ==> r == Failure(FileNotFoundError("Text file not found: " + source.s)))
            && (source.Single? && t == Pdf ==> r == Failure(FileNotFoundError("PDF not found: " + source.s)))
            && (source.Single? && t == Csv ==> r == Failure(FileNotFoundError("CSV not found: " + source.s)))
  {
    match t
    case Text =>
      assert Dispatch(source, Some(t), kwargs).value.FromText?;
    case Pdf =>
      assert Dispatch(source, Some(t), kwargs).value.FromPdf?;
    case Csv =>
      assert Dispatch(source, Some(t), kwargs).value.FromCsv?;
  }

  /** A query loader whose import failed raises ImportError, once its arguments have been evaluated. */
  lemma MissingCapabilityRaisesImportError(env: Env, source: Source, sourceType: Option<string>, chunk: bool,
                                           chunkSize: int, chunkOverlap: int, kwargs: map<string, Value>)
    requires ToInt(Get(kwargs, "load_max_docs", IntVal(2))).Success?
    ensures ResolveSourceType(source, sourceType) == Some(Arxiv) && !env.arxivInstalled ==>
              LoadDocuments(env, source, sourceType, chunk, chunkSize, chunkOverlap, kwargs)
              == Failure(ImportError(ArxivUnavailableMessage))
    ensures ResolveSourceType(source, sourceType) == Some(Wikipedia) && !env.wikipediaInstalled ==>
              LoadDocuments(env, source, sourceType, chunk, chunkSize, chunkOverlap, kwargs)
              == Failure(ImportError(WikipediaUnavailableMessage))
  {
    MissingCapabilityRaisesForKind(env, source, chunk, chunkSize, chunkOverlap, kwargs);
  }

  /** `MissingCapabilityRaisesImportError` for an already resolved kind. */
  lemma MissingCapabilityRaisesForKind(env: Env, source: Source, chunk: bool,
                                       chunkSize: int, chunkOverlap: int, kwargs: map<string, Value>)
    requires ToInt(Get(kwargs, "load_max_docs", IntVal(2))).Success?
    ensures !env.arxivInstalled ==>
              LoadResolved(env, source, Some(Arxiv), chunk, chunkSize, chunkOverlap, kwargs)
              == Failure(ImportError(ArxivUnavailableMessage))
    ensures !env.wikipediaInstalled ==>
              LoadResolved(env, source, Some(Wikipedia), chunk, chunkSize, chunkOverlap, kwargs)
              == Failure(ImportError(WikipediaUnavailableMessage))
  {
    assert Dispatch(source, Some(Arxiv), kwargs).value.FromArxiv?;
    assert Dispatch(source, Some(Wikipedia), kwargs).value.FromWikipedia?;
  }

  /**
   * Without `chunk` the helper's result is returned unchanged (the chunk
   * sizes are unused); with it, a successful result goes through one
   * recursive split with the given sizes and `add_start_index` True, and a
   * failure propagates.
   */
  lemma ChunkingPostProcessesResult(env: Env, source: Source, sourceType: Option<string>,
                                    chunkSize: int, chunkOverlap: int, kwargs: map<string, Value>)
    ensures var plain := LoadDocuments(env, source, sourceType, false, chunkSize, chunkOverlap, kwargs);
            var chunked := LoadDocuments(env, source, sourceType, true, chunkSize, chunkOverlap, kwargs);
            && plain == LoadDocuments(env, source, sourceType, false, DefaultChunkSize, DefaultChunkOverlap, kwargs)
            && (plain.Failure? ==> chunked == plain)
            && (plain.Success? ==>
                  chunked == env.split(RecursiveSplitDocuments(AsItems(plain.value), chunkSize, chunkOverlap, true)))
  {
  }

  /**
   * Without chunking, `load_documents` returns exactly what the helper of
   * the resolved kind returns for the arguments it is handed.
   */
  lemma HelperResultWithoutChunking(env: Env, source: Source, chunkSize: int, chunkOverlap: int, kwargs: map<string, Value>)
    ensures LoadResolved(env, source, Some(Text), false, chunkSize, chunkOverlap, kwargs)
            == LoadFromText(env, source, Get(kwargs, "encoding", StrVal("utf-8")),
                            Get(kwargs, "autodetect_encoding", BoolVal(true)))
    ensures LoadResolved(env, source, Some(Pdf), false, chunkSize, chunkOverlap, kwargs) == LoadFromPdf(env, source)
    ensures LoadResolved(env, source, Some(Csv), false, chunkSize, chunkOverlap, kwargs)
            == LoadFromCsv(env, source, Get(kwargs, "csv_args", NoneVal))
    ensures LoadResolved(env, source, Some(Web), false, chunkSize, chunkOverlap, kwargs)
            == LoadFromWeb(env, source, Get(kwargs, "css_classes", StrListVal(DefaultCssClasses)))
    ensures var maxDocs := ToInt(Get(kwargs, "load_max_docs", IntVal(2)));
            maxDocs.Success? ==>
              && LoadResolved(env, source, Some(Arxiv), false, chunkSize, chunkOverlap, kwargs)
                 == LoadFromArxiv(env, Render(source), maxDocs.value)
              && LoadResolved(env, source, Some(Wikipedia), false, chunkSize, chunkOverlap, kwargs)
                 == LoadFromWikipedia(env, Render(source), maxDocs.value, Get(kwargs, "lang", StrVal("en")))
  {
    TextLoaderKeepsOnlyEncodingKeys(source, kwargs);
    QueryLoadersArguments(source, kwargs);
  }

  /** Loading an existing "data.csv" with no type and no kwargs calls the CSV loader once with `{}`. */
  lemma CsvFileExample(env: Env)
    requires "data.csv" in env.existing
    ensures LoadDocuments(env, Single("data.csv"), None, false, DefaultChunkSize, DefaultChunkOverlap, map[])
            == env.load(CsvLoaderCall("data.csv", DictVal([])))
  {
    var p := "data.csv";
    LastIndexOfIs(p, '/', -1);
    LastIndexOfIs(p, '.', 4);
    assert p[0] != '.';
    assert Extension(p) == ".csv";
    assert Lower(".csv") == ".csv";
    ImplicitTypeIsInferred(p);
    HelperResultWithoutChunking(env, Single(p), DefaultChunkSize, DefaultChunkOverlap, map[]);
  }

  /** A single URL string is loaded exactly as the one-element list holding it. */
  lemma SingleUrlIsWrapped(env: Env, url: string, rendered: string, cssClasses: Value)
    ensures LoadFromWeb(env, Single(url), cssClasses) == LoadFromWeb(env, Many([url], rendered), cssClasses)
  {
  }
}
