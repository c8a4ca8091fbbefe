/**
 * Reusable splitting helpers over the toolkit's splitters, and `split_auto`,
 * which picks one of them from the shape of its input: a list of Documents,
 * a `.pdf` path, code, or plain text.
 */
module TextSplitter {
  import opened Wrappers
  import opened PyText
  import opened Library

  /** `SplitConfig`, a dataclass that is only read. */
  datatype SplitConfig = SplitConfig(chunkSize: int, chunkOverlap: int, addStartIndex: bool)

  const DefaultChunkSize: int := 500
  const DefaultChunkOverlap: int := 50

  /** `SplitConfig()` with every field at its default. */
  const DefaultSplitConfig: SplitConfig := SplitConfig(DefaultChunkSize, DefaultChunkOverlap, true)

  /** The separator `split_auto` uses for plain text: a blank line. */
  const ParagraphSeparator: string := "\n\n"

  /** The metadata every token chunk carries. */
  const TokenMetadata: map<string, Value> := map["splitter" := StrVal("token")]

  const PdfNotFoundPrefix: string := "PDF not found: "

  const UnsupportedInputMessage: string :=
    "Unsupported input for split_auto. Pass a PDF path, raw text, or a list of Documents."

  // ---------------------------------------------------------------------
  // The helpers
  // ---------------------------------------------------------------------

  /** `split_documents_recursive`: one recursive character split with the three config fields. */
  function SplitDocumentsRecursive(env: Env, docs: seq<Item>, cfg: SplitConfig): Result<seq<Document>, Error> {
    env.split(RecursiveSplitDocuments(docs, cfg.chunkSize, cfg.chunkOverlap, cfg.addStartIndex))
  }

  /** `split_text_character`: the text is split as a one-element list of texts. */
  function SplitTextCharacter(env: Env, text: string, separator: string, chunkSize: int, chunkOverlap: int): Result<seq<Document>, Error> {
    env.split(CharacterCreateDocuments(text, separator, chunkSize, chunkOverlap))
  }

  /** `split_code`: a language-aware recursive split of one text. */
  function SplitCode(env: Env, text: string, language: Language, chunkSize: int, chunkOverlap: int): Result<seq<Document>, Error> {
    env.split(CodeCreateDocuments(text, language, chunkSize, chunkOverlap))
  }

  /** One Document per token chunk, in order, each tagged as a token chunk. */
  function TokenDocuments(chunks: seq<string>): (r: seq<Document>)
    ensures |r| == |chunks|
    ensures forall i :: 0 <= i < |r| ==> r[i] == Document(chunks[i], TokenMetadata)
  {
    if chunks == [] then [] else TokenDocuments(chunks[..|chunks| - 1]) + [Document(chunks[|chunks| - 1], TokenMetadata)]
  }

  /**
   * `split_text_by_tokens`: the token splitter's chunks, each wrapped into a
   * Document whose text is the chunk and whose metadata is exactly
   * {"splitter": "token"}; a failure of the token splitter propagates.
   */
  function SplitTextByTokens(env: Env, text: string, tokensPerChunk: int, tokensOverlap: int,
                             encodingName: Option<string>): (r: Result<seq<Document>, Error>)
    ensures var chunks := env.splitText(TokenSplitText(text, tokensPerChunk, tokensOverlap, encodingName));
            && (chunks.Failure? ==> r == Failure(chunks.error))
            && (chunks.Success? ==>
                  && r.Success?
                  && |r.value| == |chunks.value|
                  && forall i :: 0 <= i < |r.value| ==> r.value[i] == Document(chunks.value[i], TokenMetadata))
  {
    var chunks :- env.splitText(TokenSplitText(text, tokensPerChunk, tokensOverlap, encodingName));
    Success(TokenDocuments(chunks))
  }

  /** `split_pdf`: a missing file raises before the PDF loader runs; otherwise the loaded pages are split recursively with `cfg`. */
  function SplitPdf(env: Env, path: string, cfg: SplitConfig): (r: Result<seq<Document>, Error>)
    ensures path !in env.existing ==> r == Failure(FileNotFoundError(PdfNotFoundPrefix + path))
    ensures path in env.existing && env.load(PdfLoaderCall(path)).Failure? ==> r == env.load(PdfLoaderCall(path))
    ensures path in env.existing && env.load(PdfLoaderCall(path)).Success? ==>
              r == SplitDocumentsRecursive(env, AsItems(env.load(PdfLoaderCall(path)).value), cfg)
  {
    if path !in env.existing then
      Failure(FileNotFoundError(PdfNotFoundPrefix + path))
    else
      var docs :- env.load(PdfLoaderCall(path));
      SplitDocumentsRecursive(env, AsItems(docs), cfg)
  }

  // ---------------------------------------------------------------------
  // split_auto
  // ---------------------------------------------------------------------

  /** What `split_auto` is given: a string, a Python list, or any other object. */
  datatype SplitSource = TextSource(s: string) | ListSource(items: seq<Item>) | OtherSource

  /** The helper `split_auto` calls, with its arguments. */
  datatype SplitPlan =
    | DocumentsPlan(docs: seq<Item>, cfg: SplitConfig)
    | PdfPlan(path: string, cfg: SplitConfig)
    | CodePlan(text: string, language: Language, chunkSize: int, chunkOverlap: int)
    | CharacterPlan(text: string, separator: string, chunkSize: int, chunkOverlap: int)

  /** A non-empty list whose first element is a Document. */
  predicate StartsWithDocument(source: SplitSource) {
    source.ListSource? && |source.items| > 0 && source.items[0].DocItem?
  }

  /** A string whose lower-cased extension is ".pdf". */
  predicate IsPdfPath(s: string) {
    Lower(Extension(s)) == ".pdf"
  }

  /** The tests of `split_auto`, in their order: Document list, `.pdf` path, code, plain text, error. */
  function Route(source: SplitSource, cfg: SplitConfig, assumeLanguage: Option<Language>): (r: Result<SplitPlan, Error>)
    ensures r.Success? && r.value.DocumentsPlan? <==> StartsWithDocument(source)
    ensures r.Success? && r.value.PdfPlan? <==> source.TextSource? && IsPdfPath(source.s)
    ensures r.Success? && r.value.CodePlan? <==> source.TextSource? && !IsPdfPath(source.s) && assumeLanguage.Some?
    ensures r.Success? && r.value.CharacterPlan? <==> source.TextSource? && !IsPdfPath(source.s) && assumeLanguage.None?
    ensures r.Failure? ==> r.error == ValueError(UnsupportedInputMessage)
  {
    if StartsWithDocument(source) then
      Success(DocumentsPlan(source.items, cfg))
    else if source.TextSource? then
      if IsPdfPath(source.s) then
        Success(PdfPlan(source.s, cfg))
      else if assumeLanguage.Some? then
        Success(CodePlan(source.s, assumeLanguage.value, cfg.chunkSize, cfg.chunkOverlap))
      else
        Success(CharacterPlan(source.s, ParagraphSeparator, cfg.chunkSize, cfg.chunkOverlap))
    else
      Failure(ValueError(UnsupportedInputMessage))
  }

  function RunPlan(env: Env, plan: SplitPlan): Result<seq<Document>, Error> {
    match plan
    case DocumentsPlan(docs, cfg) => SplitDocumentsRecursive(env, docs, cfg)
    case PdfPlan(path, cfg) => SplitPdf(env, path, cfg)
    case CodePlan(text, language, chunkSize, chunkOverlap) => SplitCode(env, text, language, chunkSize, chunkOverlap)
    case CharacterPlan(text, separator, chunkSize, chunkOverlap) => SplitTextCharacter(env, text, separator, chunkSize, chunkOverlap)
  }

  /** `split_auto(source, cfg, assume_language=...)`. */
  function SplitAuto(env: Env, source: SplitSource, cfg: SplitConfig, assumeLanguage: Option<Language>): (r: Result<seq<Document>, Error>)
    ensures StartsWithDocument(source) ==> r == SplitDocumentsRecursive(env, source.items, cfg)
    ensures source.TextSource? && IsPdfPath(source.s) ==> r == SplitPdf(env, source.s, cfg)
    ensures source.TextSource? && !IsPdfPath(source.s) && assumeLanguage.Some? ==>
              r == SplitCode(env, source.s, assumeLanguage.value, cfg.chunkSize, cfg.chunkOverlap)
    ensures source.TextSource? && !IsPdfPath(source.s) && assumeLanguage.None? ==>
              r == SplitTextCharacter(env, source.s, ParagraphSeparator, cfg.chunkSize, cfg.chunkOverlap)
    ensures !StartsWithDocument(source) && !source.TextSource? ==> r == Failure(ValueError(UnsupportedInputMessage))
  {
    var plan :- Route(source, cfg, assumeLanguage);
    RunPlan(env, plan)
  }

  // ---------------------------------------------------------------------
  // Properties of the dispatcher
  // ---------------------------------------------------------------------

  /** The Document-list route is taken exactly for a non-empty list starting with a Document, and gets `cfg` whole. */
  lemma DocumentListRoute(source: SplitSource, cfg: SplitConfig, assumeLanguage: Option<Language>)
    ensures Route(source, cfg, assumeLanguage).Success? && Route(source, cfg, assumeLanguage).value.DocumentsPlan?
            <==> StartsWithDocument(source)
    ensures StartsWithDocument(source) ==>
              forall env: Env :: SplitAuto(env, source, cfg, assumeLanguage) == SplitDocumentsRecursive(env, source.items, cfg)
  {
  }

  /** A `.pdf` string goes to `split_pdf` whether or not a language is assumed, even when it is really raw text. */
  lemma PdfRouteTakesPrecedence(env: Env, s: string, cfg: SplitConfig, assumeLanguage: Option<Language>)
    requires IsPdfPath(s)
    ensures Route(TextSource(s), cfg, assumeLanguage) == Success(PdfPlan(s, cfg))
    ensures SplitAuto(env, TextSource(s), cfg, assumeLanguage) == SplitPdf(env, s, cfg)
  {
  }

  /** Raw text whose last word ends in ".PDF" is still treated as a PDF path. */
  lemma RawTextEndingInPdfExample(env: Env, cfg: SplitConfig, assumeLanguage: Option<Language>)
    ensures Route(TextSource("see the attached summary.PDF"), cfg, assumeLanguage)
            == Success(PdfPlan("see the attached summary.PDF", cfg))
    ensures SplitAuto(env, TextSource("see the attached summary.PDF"), cfg, assumeLanguage)
            == SplitPdf(env, "see the attached summary.PDF", cfg)
  {
    var p := "see the attached summary.PDF";
    LastIndexOfIs(p, '/', -1);
    LastIndexOfIs(p, '.', 24);
    assert p[0] != '.';
    assert Extension(p) == ".PDF";
    assert Lower(".PDF") == ".pdf";
    PdfRouteTakesPrecedence(env, p, cfg, assumeLanguage);
  }

  /** A non-pdf string goes to `split_code` when a language is assumed, with the config's sizes. */
  lemma CodeRoute(env: Env, s: string, cfg: SplitConfig, language: Language)
    requires !IsPdfPath(s)
    ensures Route(TextSource(s), cfg, Some(language)) == Success(CodePlan(s, language, cfg.chunkSize, cfg.chunkOverlap))
    ensures SplitAuto(env, TextSource(s), cfg, Some(language)) == SplitCode(env, s, language, cfg.chunkSize, cfg.chunkOverlap)
  {
  }

  /** Any other string goes to `split_text_character` on blank lines, with the config's sizes. */
  lemma CharacterRoute(env: Env, s: string, cfg: SplitConfig)
    requires !IsPdfPath(s)
    ensures Route(TextSource(s), cfg, None) == Success(CharacterPlan(s, "\n\n", cfg.chunkSize, cfg.chunkOverlap))
    ensures SplitAuto(env, TextSource(s), cfg, None) == SplitTextCharacter(env, s, "\n\n", cfg.chunkSize, cfg.chunkOverlap)
  {
  }

  /** On both non-pdf string routes `add_start_index` has no effect. */
  lemma StringRoutesIgnoreAddStartIndex(env: Env, s: string, cfg: SplitConfig, addStartIndex: bool, assumeLanguage: Option<Language>)
    requires !IsPdfPath(s)
    ensures SplitAuto(env, TextSource(s), cfg, assumeLanguage)
            == SplitAuto(env, TextSource(s), cfg.(addStartIndex := addStartIndex), assumeLanguage)
  {
  }

  /**
   * An empty list, a list not starting with a Document, or any object that
   * is neither a list nor a string raises ValueError before any splitter or
   * loader runs.
   */
  lemma UnsupportedInputRaisesValueError(env: Env, source: SplitSource, cfg: SplitConfig, assumeLanguage: Option<Language>)
    ensures Route(source, cfg, assumeLanguage).Failure? <==> !StartsWithDocument(source) && !source.TextSource?
    ensures !StartsWithDocument(source) && !source.TextSource? ==>
              SplitAuto(env, source, cfg, assumeLanguage) == Failure(ValueError(UnsupportedInputMessage))
  {
  }

  /** `SplitConfig()` is (500, 50, True), and those three values reach the recursive splitter unchanged. */
  lemma DefaultConfigForwarded(env: Env, docs: seq<Item>)
    ensures DefaultSplitConfig.chunkSize == 500 && DefaultSplitConfig.chunkOverlap == 50 && DefaultSplitConfig.addStartIndex
    ensures SplitDocumentsRecursive(env, docs, DefaultSplitConfig) == env.split(RecursiveSplitDocuments(docs, 500, 50, true))
  {
  }
}
