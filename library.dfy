/**
 * The third-party document toolkit and the Python runtime facts the loader
 * and the splitters depend on. The toolkit's loaders and splitters are not
 * modelled: each one is described by the call it receives (its constructor
 * and arguments), and an environment `Env` says what that call returns or
 * raises. The file system and the optional imports are part of `Env` too.
 */
module Library {
  import opened Wrappers
  import opened PyText

  /** A Python value passed through `**kwargs` or stored in metadata. */
  datatype Value =
    | NoneVal
    | BoolVal(b: bool)
    | IntVal(i: int)
    | StrVal(s: string)
    | StrListVal(items: seq<string>)              // a list or tuple of strings
    | DictVal(entries: seq<(string, string)>)     // a dict, in insertion order

  /** A loaded or split unit of content: `Document(page_content, metadata)`. */
  datatype Document = Document(pageContent: string, metadata: map<string, Value>)

  /** An element of a Python list handed to a splitter: a Document or anything else. */
  datatype Item = DocItem(doc: Document) | NonDocument

  /** A member of the toolkit's `Language` enumeration, identified by its value. */
  datatype Language = Language(value: string)

  /** The exceptions that reach the caller. */
  datatype Error =
    | ValueError(message: string)                   // raised by the routing code itself
    | FileNotFoundError(message: string)
    | ImportError(message: string)
    | IntConversionFailed(arg: Value)               // `int(arg)` raised
    | NotIterable(arg: Value)                       // `tuple(arg)` raised TypeError
    | NotAPath                                      // `os.path.exists` of a non-path raised TypeError
    | LibraryError(exceptionClass: string, message: string)  // raised inside the toolkit

  /** The Python exception class a caller sees for each error. */
  function ExceptionClass(e: Error): string {
    match e
    case ValueError(_) => "ValueError"
    case FileNotFoundError(_) => "FileNotFoundError"
    case ImportError(_) => "ImportError"
    case IntConversionFailed(arg) => if arg.StrVal? then "ValueError" else "TypeError"
    case NotIterable(_) => "TypeError"
    case NotAPath => "TypeError"
    case LibraryError(name, _) => name
  }

  /** Python truthiness. */
  predicate Truthy(v: Value) {
    match v
    case NoneVal => false
    case BoolVal(b) => b
    case IntVal(i) => i != 0
    case StrVal(s) => |s| > 0
    case StrListVal(items) => |items| > 0
    case DictVal(entries) => |entries| > 0
  }

  /**
   * Python's `a or b`: one of the operands, truthy exactly when either one
   * is; the left one when it is truthy and the right one otherwise.
   */
  function Or(a: Value, b: Value): (r: Value)
    ensures r == a || r == b
    ensures Truthy(r) <==> Truthy(a) || Truthy(b)
    ensures Truthy(a) ==> r == a
    ensures !Truthy(a) ==> r == b
  {
    if Truthy(a) then a else b
  }

  /** `kwargs.get(key, default)`. */
  function Get(kwargs: map<string, Value>, key: string, default: Value): (r: Value)
    ensures key in kwargs ==> r == kwargs[key]
    ensures key !in kwargs ==> r == default
  {
    if key in kwargs then kwargs[key] else default
  }

  /** `int(v)` for the values a caller may pass; floats are not modelled. */
  function ToInt(v: Value): (r: Result<int, Error>)
    ensures r.Failure? ==> r.error == IntConversionFailed(v)
    ensures v.IntVal? ==> r == Success(v.i)
    ensures v.BoolVal? ==> r == Success(if v.b then 1 else 0)
    ensures v.StrVal? ==> (r.Success? <==> ParseInt(v.s).Some?)
    ensures v.StrVal? && ParseInt(v.s).Some? ==> r == Success(ParseInt(v.s).value)
    ensures v.NoneVal? || v.StrListVal? || v.DictVal? ==> r.Failure?
  {
    match v
    case BoolVal(b) => Success(if b then 1 else 0)
    case IntVal(i) => Success(i)
    case StrVal(s) =>
      (match ParseInt(s)
       case Some(n) => Success(n)
       case None => Failure(IntConversionFailed(v)))
    case _ => Failure(IntConversionFailed(v))
  }

  /** `int()` of the decimal spelling of a number gives the number back. */
  lemma ToIntOfDecimal(n: nat)
    ensures ToInt(StrVal(Decimal(n))) == Success(n)
  {
    ParseIntOfDecimal(n, [], []);
    assert [] + Decimal(n) + [] == Decimal(n);
  }

  /** `tuple(v)`: a string gives its characters, a dict its keys, a list its items. */
  function ToTuple(v: Value): (r: Result<seq<string>, Error>)
    ensures r.Failure? <==> v.NoneVal? || v.BoolVal? || v.IntVal?
    ensures r.Failure? ==> r.error == NotIterable(v)
    ensures v.StrListVal? ==> r == Success(v.items)
    ensures v.StrVal? ==>
              && r.Success? && |r.value| == |v.s|
              && forall i :: 0 <= i < |v.s| ==> r.value[i] == [v.s[i]]
    ensures v.DictVal? ==>
              && r.Success? && |r.value| == |v.entries|
              && forall i :: 0 <= i < |v.entries| ==> r.value[i] == v.entries[i].0
  {
    match v
    case StrListVal(items) => Success(items)
    case StrVal(s) => Success(seq(|s|, i requires 0 <= i < |s| => [s[i]]))
    case DictVal(entries) => Success(seq(|entries|, i requires 0 <= i < |entries| => entries[i].0))
    case _ => Failure(NotIterable(v))
  }

  /** Documents as the elements of a Python list. */
  function AsItems(docs: seq<Document>): (r: seq<Item>)
    ensures |r| == |docs|
    ensures forall i :: 0 <= i < |docs| ==> r[i] == DocItem(docs[i])
  {
    seq(|docs|, i requires 0 <= i < |docs| => DocItem(docs[i]))
  }

  /** The toolkit's document loaders, each with the arguments it is constructed with, followed by `.load()`. */
  datatype LoaderCall =
    | TextLoaderCall(path: string, encoding: Value, autodetectEncoding: Value)
    | PdfLoaderCall(path: string)
    | CsvLoaderCall(filePath: string, csvArgs: Value)
    | WebLoaderCall(webPaths: seq<string>, cssClasses: seq<string>)
    | ArxivLoaderCall(query: string, loadMaxDocs: int)
    | WikipediaLoaderCall(query: string, loadMaxDocs: int, lang: Value)

  /** The toolkit's splitters that produce Documents, with their constructor arguments. */
  datatype SplitterCall =
    | RecursiveSplitDocuments(docs: seq<Item>, chunkSize: int, chunkOverlap: int, addStartIndex: bool)
    | CharacterCreateDocuments(text: string, separator: string, chunkSize: int, chunkOverlap: int)
    | CodeCreateDocuments(text: string, language: Language, chunkSize: int, chunkOverlap: int)

  /** `TokenTextSplitter(...).split_text(text)`, which produces plain strings. */
  datatype TokenSplitCall = TokenSplitText(text: string, chunkSize: int, chunkOverlap: int, encodingName: Option<string>)

  /**
   * Everything outside the core: which paths `os.path.exists` accepts, which
   * optional loaders imported successfully, and what each toolkit call
   * returns or raises.
   */
  datatype Env = Env(
    existing: set<string>,
    arxivInstalled: bool,
    wikipediaInstalled: bool,
    load: LoaderCall -> Result<seq<Document>, Error>,
    split: SplitterCall -> Result<seq<Document>, Error>,
    splitText: TokenSplitCall -> Result<seq<string>, Error>
  )
}
