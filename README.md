# Document loading and splitting routers, modelled in Dafny

This project models the two routing components of a small document-processing toolkit:

- **The source router** (`load_documents` in `contentLoader/loader.py`). When no `source_type` is given and the source is a single string, it infers one from the path's extension. It hands the source to exactly one of six per-source helpers (text, pdf, csv, web, arxiv, wikipedia). It raises `ValueError` when no type can be resolved, and it optionally chunks the result with `chunk_docs`. The helpers guard the loaders: file-based helpers check that the path exists, and the arxiv and wikipedia helpers check that their optional import succeeded.
- **The split dispatcher** (`split_auto` in `TextSplitter/splitters.py`). It sends any non-empty list whose first element is a Document to the recursive splitter, a `.pdf` path to `split_pdf`, text to the code splitter when a language is assumed and to the character splitter otherwise. Anything else raises `ValueError`. The module's small helpers are modelled too: `split_pdf`, `split_text_by_tokens`, `split_documents_recursive`, `split_text_character`, `split_code`, and the `SplitConfig` defaults.

Modules, one per file:

- `wrappers.dfy` (`Wrappers`): `Option` and a failure-compatible `Result`. A raised exception is a `Failure`.
- `pytext.dfy` (`PyText`): the Python behaviour the routers rely on. This covers `str.lower()` on ASCII letters and `str.rfind`. It covers `os.path.splitext` with the POSIX separator `/`: the split is at the last `.` after the last `/`, and only when the final component has a non-dot character before that dot. It also covers `int()` of a string.
- `library.dfy` (`Library`): the third-party toolkit, seen from outside. Each loader or splitter is a *call description*: a constructor that holds the arguments the call receives. An environment `Env` maps each call to what it returns or raises. `Env` also holds the set of paths `os.path.exists` accepts and two flags that say whether the optional ArXiv and Wikipedia loaders were imported. This module also defines Python values passed through `**kwargs`, Python truthiness, `kwargs.get`, `int()` and `tuple()`.
- `loader.dfy` (`ContentLoader`): `load_documents` is `ResolveSourceType` (take or infer the type) followed by `LoadResolved`. `LoadResolved` is `Dispatch` (pick the helper for the resolved kind and evaluate its arguments), then `RunRequest` (run that helper), then optional `ChunkDocs`.
- `splitters.dfy` (`TextSplitter`): `split_auto` is `Route` (the ordered tests, giving a `SplitPlan`) followed by `RunPlan`.

When a lemma says a result holds "for every `env`", that result cannot depend on any loader or splitter. This is how the model says that an error is raised before any loader is called.

## Model

| member | source | states |
|---|---|---|
| `PyText.SplitExt` | contentLoader/loader.py:166 | root + extension is the whole path; the extension is empty or is one `.` followed by text with no `.` and no `/` |
| `PyText.ExtensionIsFinalSuffix` | contentLoader/loader.py:166 | when the stem's final component has a non-dot character, `stem + "." + name` has extension `"." + name`, so only the last extension counts |
| `PyText.DotFileHasNoExtension` | contentLoader/loader.py:166 | a final component made of leading dots plus a dot-free name (".txt", "dir/..md") has no extension |
| `PyText.ExtensionOfLower` | contentLoader/loader.py:166 | taking the extension commutes with ASCII lower-casing |
| `PyText.ParseIntOfDecimal` | contentLoader/loader.py:183 | `int()` of a number's decimal spelling, surrounded by any run of tab, line feed, vertical tab, form feed, carriage return or space, gives the number back |
| `PyText.ParseIntOfNegatedDecimal` | contentLoader/loader.py:183 | the same for a minus sign followed by the spelling |
| `PyText.ParseIntOfPaddedNegative` | contentLoader/loader.py:183 | `int()` of a minus sign and any digits, surrounded by that same ASCII whitespace, is the negated value of the digits |
| `PyText.SeparatorIsNotStripped` | contentLoader/loader.py:183 | the information separators 0x1C-0x1F are not stripped, so `int("\x1c5")` and `int("5\x1f")` raise `ValueError` |
| `Library.ToInt` | contentLoader/loader.py:183 | `int(v)` returns an int unchanged and a bool as 1 or 0; a string succeeds exactly when it parses, giving the parsed value; None, lists and dicts raise |
| `Library.ToIntOfDecimal` | contentLoader/loader.py:183 | `int()` of the decimal spelling of `n` is `n` |
| `Library.ToTuple` | contentLoader/loader.py:102-103 | `tuple(v)` fails exactly for None, bools and ints; a string gives its characters and a dict gives its keys, in order |
| `Library.Or` | contentLoader/loader.py:84 | `a or b` is one of its operands and is truthy exactly when either operand is; it is `a` when `a` is truthy and `b` otherwise, so `None or {}` is `{}` |
| `ContentLoader.ParseTypeName` | contentLoader/loader.py:174-186 | a type string selects the kind whose name it is, and selects nothing when it names no kind |
| `ContentLoader.ParseTypeNameInvertsTypeName` | contentLoader/loader.py:174-185 | each kind is selected by its own name and by no other string |
| `ContentLoader.InferSourceType` | contentLoader/loader.py:166-172 | inference only ever yields text, pdf or csv |
| `ContentLoader.InferFromFinalExtension` | contentLoader/loader.py:164-172 | a lower-cased final extension of txt/md/rst gives text, pdf gives pdf, csv gives csv, and anything else gives nothing |
| `ContentLoader.InferIgnoresCase` | contentLoader/loader.py:166 | two paths that are equal after lower-casing infer the same kind |
| `ContentLoader.DotFileInfersNothing` | contentLoader/loader.py:166-172 | a dot-file such as ".txt" infers no kind |
| `ContentLoader.NoExtensionInfersNothing` | contentLoader/loader.py:166-172 | a path whose final component has no dot infers no kind |
| `ContentLoader.UpperCaseExtensionExample` | contentLoader/loader.py:166-170 | "report.PDF" infers pdf |
| `ContentLoader.DoubleExtensionExample` | contentLoader/loader.py:166-168 | "a.csv.txt" infers text |
| `ContentLoader.NoInferenceExamples` | contentLoader/loader.py:166-172 | ".txt" and "some/plain/string" infer nothing |
| `ContentLoader.ExplicitTypeNotOverridden` | contentLoader/loader.py:164 | an explicit `source_type` is kept as given and alone decides the kind |
| `ContentLoader.ImplicitTypeIsInferred` | contentLoader/loader.py:164-172 | with no type, a single string resolves to exactly the kind its extension infers |
| `ContentLoader.KindOfExtension` | contentLoader/loader.py:167-172 | .txt/.md/.rst give text, .pdf gives pdf, .csv gives csv, and exactly the other extensions give nothing |
| `ContentLoader.Dispatch` | contentLoader/loader.py:174-191 | a successful dispatch calls the helper of the resolved kind; the unresolved-type `ValueError` is raised exactly when no kind was resolved; pdf, csv and web get `source` unchanged, csv gets `kwargs.get("csv_args")` and web gets `css_classes` with the three-class default |
| `ContentLoader.UnresolvedRaisesValueError` | contentLoader/loader.py:186-191 | an iterable with no type, an unknown type string, or a string with no known extension raises `ValueError`, whatever the environment's loaders do |
| `ContentLoader.DispatchReachesOneHelper` | contentLoader/loader.py:174-185 | every kind reaches the helper of that kind; for arxiv and wikipedia this needs `load_max_docs` to convert |
| `ContentLoader.TextLoaderKeepsOnlyEncodingKeys` | contentLoader/loader.py:175 | the text helper gets `encoding` and `autodetect_encoding` from kwargs, defaulting to "utf-8" and True |
| `ContentLoader.TextLoaderIgnoresOtherKwargs` | contentLoader/loader.py:175 | kwargs that agree on those two keys route a text source identically, so every other key is dropped |
| `ContentLoader.QueryLoadersArguments` | contentLoader/loader.py:182-185 | arxiv and wikipedia get `str(source)` and `int(load_max_docs)`, which defaults to 2; `lang` defaults to "en"; a failing `int()` raises before the helper runs |
| `ContentLoader.LoadFromText` | contentLoader/loader.py:55-63 | a missing path raises `FileNotFoundError("Text file not found: ...")` without calling the loader; an existing path calls `TextLoader` once with the encoding arguments |
| `ContentLoader.LoadFromPdf` | contentLoader/loader.py:66-74 | a missing path raises `FileNotFoundError("PDF not found: ...")`; otherwise `PyPDFLoader` is called once |
| `ContentLoader.LoadFromCsv` | contentLoader/loader.py:77-85 | a missing path raises `FileNotFoundError("CSV not found: ...")`; otherwise `CSVLoader` is called with `csv_args`, or with `{}` when they are falsy |
| `ContentLoader.LoadFromWeb` | contentLoader/loader.py:91-105 | a single URL string becomes a one-element list of URLs; a non-iterable `css_classes` raises `TypeError` |
| `ContentLoader.LoadFromArxiv` | contentLoader/loader.py:108-116 | raises `ImportError` when the ArXiv loader is not installed; otherwise calls it with the query and `load_max_docs` |
| `ContentLoader.LoadFromWikipedia` | contentLoader/loader.py:119-127 | raises `ImportError` when the Wikipedia loader is not installed; otherwise calls it with the query, `load_max_docs` and `lang` |
| `ContentLoader.MissingFileRaisesBeforeLoading` | contentLoader/loader.py:55-85 | for text, pdf and csv, a missing path makes `load_documents` raise that helper's `FileNotFoundError`, and an iterable source raises `TypeError`, in every environment |
| `ContentLoader.MissingCapabilityRaisesImportError` | contentLoader/loader.py:108-127 | `load_documents` for arxiv or wikipedia raises that loader's `ImportError` when it is not installed and `load_max_docs` converts; a failing `int()` raises first |
| `ContentLoader.ChunkingPostProcessesResult` | contentLoader/loader.py:193-195 | without `chunk` the loaded documents come back unchanged and the chunk sizes are unused; with `chunk`, they go through one recursive split with the given sizes and `add_start_index` True; a loader failure propagates |
| `ContentLoader.SingleUrlIsWrapped` | contentLoader/loader.py:98-99 | loading one URL string is the same as loading the one-element list holding it |
| `ContentLoader.ExistingPath` | contentLoader/loader.py:59-60 | a path not in the existing set raises `FileNotFoundError` with the helper's prefix, an iterable raises `TypeError`, and an existing path passes through unchanged |
| `ContentLoader.LoadDocuments` | contentLoader/loader.py:133-195 | raises the unresolved-type `ValueError` whenever no kind resolves, and succeeds only for a resolved kind; its per-case behaviour is in `UnresolvedRaisesValueError`, `MissingFileRaisesBeforeLoading`, `MissingCapabilityRaisesImportError`, `ChunkingPostProcessesResult` and `CsvFileExample` |
| `ContentLoader.LoadResolved` | contentLoader/loader.py:174-195 | with no resolved kind it raises the unresolved-type `ValueError`, and it succeeds only for a resolved kind; `HelperResultWithoutChunking` gives its result for each kind |
| `ContentLoader.HelperResultWithoutChunking` | contentLoader/loader.py:174-185 | without chunking, each kind returns exactly its helper's result on the arguments `load_documents` evaluates (encoding defaults, `csv_args`, `css_classes` default, `str(source)`, `int(load_max_docs)`, `lang`) |
| `ContentLoader.CsvFileExample` | contentLoader/loader.py:164-195 | with "data.csv" present, no type and no kwargs, loading calls `CSVLoader("data.csv", csv_args={})` once and returns its result |
| `ContentLoader.MissingFileRaisesForKind` | contentLoader/loader.py:55-85 | the missing-file errors of the text, pdf and csv kinds, after resolution |
| `ContentLoader.MissingCapabilityRaisesForKind` | contentLoader/loader.py:108-127 | the `ImportError`s of the arxiv and wikipedia kinds, after resolution |
| `ContentLoader.ChunkDocs` | contentLoader/loader.py:35-49 | no contract of its own: one recursive split of all documents; `ChunkingPostProcessesResult` states how `load_documents` uses it, with `add_start_index` True |
| `TextSplitter.TokenDocuments` | TextSplitter/splitters.py:99 | one Document per chunk, the i-th holding the i-th chunk as its text and exactly {"splitter": "token"} as its metadata |
| `TextSplitter.SplitTextByTokens` | TextSplitter/splitters.py:86-99 | the result holds the token splitter's chunks as Document texts, in order, each tagged {"splitter": "token"}; a splitter failure propagates |
| `TextSplitter.SplitPdf` | TextSplitter/splitters.py:137-145 | a missing path raises `FileNotFoundError("PDF not found: ...")` before loading; otherwise the loaded pages are split recursively with the same config |
| `TextSplitter.SplitDocumentsRecursive` | TextSplitter/splitters.py:58-68 | no contract of its own: one recursive split with the config's three fields; `DefaultConfigForwarded` and `DocumentListRoute` state it |
| `TextSplitter.SplitTextCharacter` | TextSplitter/splitters.py:71-83 | no contract of its own: one character split of the text as a one-element list; `CharacterRoute` states how `split_auto` calls it |
| `TextSplitter.SplitCode` | TextSplitter/splitters.py:116-131 | no contract of its own: one language-aware split of the text; `CodeRoute` states how `split_auto` calls it |
| `TextSplitter.Route` | TextSplitter/splitters.py:200-226 | the routes partition the inputs: a Document-led list, a `.pdf` string, another string with a language, another string without one; all else fails with the unsupported-input `ValueError` |
| `TextSplitter.SplitAuto` | TextSplitter/splitters.py:200-226 | each of the four input cases calls its helper with the config or its sizes (blank-line separator for plain text), and any other input raises the unsupported-input `ValueError` |
| `TextSplitter.DocumentListRoute` | TextSplitter/splitters.py:212-213 | the Document-list route is taken exactly for a non-empty list whose first element is a Document, and it gets the whole config |
| `TextSplitter.PdfRouteTakesPrecedence` | TextSplitter/splitters.py:215-218 | a string with a lower-cased `.pdf` extension goes to `split_pdf`, whether or not a language is assumed |
| `TextSplitter.RawTextEndingInPdfExample` | TextSplitter/splitters.py:215-218 | raw text "see the attached summary.PDF" is routed as a PDF path and handed to `split_pdf` |
| `TextSplitter.CodeRoute` | TextSplitter/splitters.py:220-222 | a non-pdf string with an assumed language goes to `split_code` with the config's chunk size and overlap |
| `TextSplitter.CharacterRoute` | TextSplitter/splitters.py:223-224 | a non-pdf string without a language goes to `split_text_character` with separator "\n\n" and the config's sizes |
| `TextSplitter.StringRoutesIgnoreAddStartIndex` | TextSplitter/splitters.py:220-224 | on both non-pdf string routes the config's `add_start_index` does not change the result |
| `TextSplitter.UnsupportedInputRaisesValueError` | TextSplitter/splitters.py:212-226 | routing fails exactly for inputs that are neither a list starting with a Document nor a string; then `ValueError` is raised in every environment |
| `TextSplitter.DefaultConfigForwarded` | TextSplitter/splitters.py:45-68 | `SplitConfig()` is (500, 50, True), and the recursive splitter receives those three values unchanged |

## Left out

- The toolkit's loaders (`TextLoader`, `PyPDFLoader`, `CSVLoader`, `WebBaseLoader`, `ArxivLoader`, `WikipediaLoader`) and splitters (`RecursiveCharacterTextSplitter`, `CharacterTextSplitter`, `TokenTextSplitter`, the language-aware splitter) are not modelled. They do file, PDF and network I/O or live outside this code. Each is a call description whose outcome the environment supplies. Nothing is claimed about chunk length, overlap or reconstruction.
- The try/except imports at contentLoader/loader.py:18-26 are not modelled as code. They become the two flags `arxivInstalled` and `wikipediaInstalled`. `os.path.exists` becomes membership in a set of existing paths.
- `split_html_from_url` and `split_json_from_url` are not modelled, because they are network fetches around library splitters. `split_markdown` and `split_json_obj` are not modelled either, because each is one library call with nothing decided in this code and `split_auto` never reaches them.
- The other files are not part of this model. `VectorDB/vectorDB.py` and `Embedding/embed.py` are commented-out demos over embeddings and vector stores. `ContextLoader/context.py` and `TextSplitter/splitter.py` are scripts with hard-coded loads. `utils/pretty_print.py` only prints, `cli/cli.py` is an input loop, and the `__init__.py` files only re-export names.
- `str.lower()` is modelled for ASCII letters only, and `os.path.splitext` for the POSIX separator `/` only.
- `PyText.ParseInt` is `int()` of a string and accepts only the ASCII whitespace tab, line feed, vertical tab, form feed, carriage return and space, an optional sign and ASCII digits. Underscores between digits and non-ASCII digits and whitespace are not modelled. Floats are not a modelled kwarg value, so `int()` of a float is left out.
- `PyText.ParseInt`: does not model the limit on the length of integer strings in recent Python releases. There, `int()` of a string with more than 4300 digits raises `ValueError`, but `ParseInt` and `Library.ToIntOfDecimal` accept digit strings of any length. The limit depends on the interpreter version and can be configured at runtime.
- `str()` of an iterable source is not computed. The iterable carries its own rendering (`Source.Many.rendered`).
- `split_auto` takes an assumed language as an `Option`: a given language counts as set. Every member of the toolkit's `Language` enumeration is truthy, so this matches the source. A falsy non-enum value passed as `assume_language` is not modelled.
- The message texts of exceptions raised by Python itself (from `int()`, `tuple()` and `os.stat`) are not modelled. The `int()` and `tuple()` errors carry the offending value instead. The error for an iterable passed to `os.path.exists` (`NotAPath`) carries nothing. `Library.ExceptionClass` gives the Python class of each error.
