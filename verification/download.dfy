/** The `/download` request handler as a pure decision pipeline: read the
    form, build the provider query, check the returned table, select the
    requested columns, and either hand back a named CSV attachment or map the
    way it stopped to an HTTP status and an alert message. The price provider
    and the text of exceptions raised by library code are collaborators passed
    in as functions. */
module Download {
  import opened Wrappers
  import opened Seqs
  import opened Text
  import opened Frames

  /** Exchange suffix appended to the symbol to form the provider ticker. */
  const MarketSuffix: string := ".TW"

  /** The provider is always asked for daily bars. */
  const DailyInterval: string := "1d"

  /** Columns used when the form selects none. */
  const DefaultFields: seq<string> := ["Open", "High", "Low", "Close"]

  const CsvExtension: string := ".csv"
  const CsvMediaType: string := "text/csv"

  /** Alert texts of the three error responses. */
  const BlankSymbolAlert: string := "股票代號不得為空"
  const NoDataAlert: string := "找不到任何資料，請確認代號或日期區間"
  const FailurePrefix: string := "下載失敗："

  /** The submitted form. A single-valued field may be absent; `fields` holds
      every value submitted under that name, in order (none when absent). */
  datatype Form = Form(symbol: Option<string>, start: Option<string>, end: Option<string>, fields: seq<string>)

  /** The request once read from the form: the stripped symbol, the two date
      strings exactly as submitted, and the column selection. */
  datatype DownloadRequest = DownloadRequest(symbol: string, start: string, end: string, fields: seq<string>)

  /** What the price provider is asked for. */
  datatype Query = Query(ticker: string, start: string, end: string, interval: string)

  /** What the price provider gives back: it raised, or it returned a table. */
  datatype ProviderAnswer = FetchFailed(text: string) | Fetched(frame: Frame)

  /** The exceptions the handler's `except` clause can catch. */
  datatype Caught =
    | MissingFormKey(key: string)       // `request.form['start']` or `['end']` on an absent field
    | ProviderFailed(text: string)      // the provider call raised; `text` is its message
    | MissingColumns(labels: seq<string>) // `df[fields]` named columns the table lacks

  /** The code the handler calls but the model cannot see: the provider, and
      the message text of exceptions raised inside the form and table
      libraries. */
  datatype Collaborators = Collaborators(fetch: Query -> ProviderAnswer, describe: Caught -> string)

  /** Why the pipeline stopped before producing a file. */
  datatype Halt = BlankSymbol | EmptyTable | Raised(failure: Caught)

  /** A file download. */
  datatype Attachment = Attachment(filename: string, mediaType: string, content: Table)

  /** How a request ends. */
  datatype Outcome =
    | Rejected(alert: string)                          // 400
    | NotFound(alert: string)                          // 404
    | ServerError(failure: Caught, alert: string)     // 500
    | Download(file: Attachment)                       // 200
  {
    /** The HTTP status of the response. */
    function Status(): int
    {
      match this
      case Rejected(_) => 400
      case NotFound(_) => 404
      case ServerError(_, _) => 500
      case Download(_) => 200
    }
  }

  /** The ticker the provider is asked about. */
  function Ticker(symbol: string): (r: string)
    ensures |r| == |symbol| + |MarketSuffix|
    ensures r[..|symbol|] == symbol && r[|symbol|..] == MarketSuffix
  {
    symbol + MarketSuffix
  }

  /** Recovers the symbol from a ticker of this market, if it is one. */
  function SymbolOfTicker(ticker: string): (r: Option<string>)
    ensures r.Some? <==> |ticker| >= |MarketSuffix| && ticker[|ticker| - |MarketSuffix|..] == MarketSuffix
    ensures r.Some? ==> Ticker(r.value) == ticker
  {
    if |ticker| >= |MarketSuffix| && ticker[|ticker| - |MarketSuffix|..] == MarketSuffix then
      var symbol := ticker[..|ticker| - |MarketSuffix|];
      assert symbol + MarketSuffix == ticker;
      Some(symbol)
    else
      None
  }

  /** The column selection actually used: the submitted one, or the default
      when none was submitted. No deduplication, no check against known names. */
  function SelectFields(submitted: seq<string>): (r: seq<string>)
    ensures |r| > 0
    ensures |submitted| > 0 ==> r == submitted
    ensures |submitted| == 0 ==> r == DefaultFields
  {
    if |submitted| > 0 then submitted else DefaultFields
  }

  /** The download's file name: symbol, start and end joined by underscores,
      then the `.csv` extension. */
  function Filename(symbol: string, start: string, end: string): (r: string)
    ensures |r| == |symbol| + |start| + |end| + 2 + |CsvExtension|
    ensures r[..|symbol|] == symbol && r[|symbol|] == '_'
    ensures r[|symbol| + 1..|symbol| + 1 + |start|] == start && r[|symbol| + 1 + |start|] == '_'
    ensures r[|symbol| + 2 + |start|..|r| - |CsvExtension|] == end
    ensures r[|r| - |CsvExtension|..] == CsvExtension
  {
    symbol + "_" + start + "_" + end + CsvExtension
  }

  /** The three parts of a file name, split at its first two underscores. */
  datatype FilenameParts = FilenameParts(symbol: string, start: string, end: string)

  /** Inverse of `Filename` for names whose symbol and start hold no
      underscore. */
  function SplitFilename(name: string): (r: Option<FilenameParts>)
  {
    if |name| < |CsvExtension| || name[|name| - |CsvExtension|..] != CsvExtension then None
    else
      var stem := name[..|name| - |CsvExtension|];
      match IndexOf(stem, '_')
      case None => None
      case Some(i) =>
        var rest := stem[i + 1..];
        match IndexOf(rest, '_')
        case None => None
        case Some(j) => Some(FilenameParts(stem[..i], rest[..j], rest[j + 1..]))
  }

  /** Reads the form: strips the symbol (absent counts as empty) and stops on
      a blank one before anything else is looked at; then looks up both dates,
      failing on an absent one, and settles the column selection. */
  function Prepare(form: Form): (r: Result<DownloadRequest, Halt>)
    ensures r == Failure(BlankSymbol) <==> AllSpace(form.symbol.GetOr(""))
    ensures r.Success? <==> !AllSpace(form.symbol.GetOr("")) && form.start.Some? && form.end.Some?
    ensures r.Failure? && r.error != BlankSymbol ==>
              r.error == Raised(MissingFormKey(if form.start.None? then "start" else "end"))
    ensures r.Success? ==>
              && r.value.symbol == Strip(form.symbol.GetOr(""))
              && r.value.symbol != [] && Trimmed(r.value.symbol)
              && r.value.start == form.start.value && r.value.end == form.end.value
              && r.value.fields == SelectFields(form.fields)
  {
    var symbol := Strip(form.symbol.GetOr(""));
    StripEmptyIffAllSpace(form.symbol.GetOr(""));
    if symbol == [] then Failure(BlankSymbol)
    else if form.start.None? then Failure(Raised(MissingFormKey("start")))
    else if form.end.None? then Failure(Raised(MissingFormKey("end")))
    else Success(DownloadRequest(symbol, form.start.value, form.end.value, SelectFields(form.fields)))
  }

  /** The provider query for a prepared request. */
  function QueryFor(req: DownloadRequest): (q: Query)
    ensures SymbolOfTicker(q.ticker) == Some(req.symbol)
    ensures q.start == req.start && q.end == req.end && q.interval == DailyInterval
  {
    Query(Ticker(req.symbol), req.start, req.end, DailyInterval)
  }

  /** Checks the provider's answer and selects the requested columns. */
  function Shape(fetched: ProviderAnswer, fields: seq<string>): (r: Result<Table, Halt>)
    ensures fetched.FetchFailed? ==> r == Failure(Raised(ProviderFailed(fetched.text)))
    ensures fetched.Fetched? && IsEmpty(fetched.frame) ==> r == Failure(EmptyTable)
    ensures r.Success? <==> fetched.Fetched? && !IsEmpty(fetched.frame)
                            && forall x :: x in fields ==> x in fetched.frame.columns
    ensures r.Success? ==> Select(fetched.frame, fields) == Success(r.value)
    ensures r.Failure? && r.error.Raised? && r.error.failure.MissingColumns? ==>
              Select(fetched.frame, fields) == Failure(r.error.failure.labels)
    ensures fetched.Fetched? && !IsEmpty(fetched.frame) && Select(fetched.frame, fields).Failure? ==>
              r == Failure(Raised(MissingColumns(Select(fetched.frame, fields).error)))
  {
    match fetched
    case FetchFailed(text) => Failure(Raised(ProviderFailed(text)))
    case Fetched(frame) =>
      if IsEmpty(frame) then Failure(EmptyTable)
      else match Select(frame, fields)
        case Failure(missing) => Failure(Raised(MissingColumns(missing)))
        case Success(table) => Success(table)
  }

  /** The message text of a caught exception, before sanitising. */
  function ExceptionText(failure: Caught, describe: Caught -> string): string
  {
    match failure
    case ProviderFailed(text) => text
    case _ => describe(failure)
  }

  /** The error mapper: a blank symbol is a 400, an empty table a 404, and
      every caught exception a 500 whose alert carries the sanitised
      exception text. */
  function Report(halt: Halt, describe: Caught -> string): (o: Outcome)
    ensures !o.Download?
    ensures o.Status() == 400 <==> halt == BlankSymbol
    ensures o.Status() == 404 <==> halt == EmptyTable
    ensures o.Status() == 500 <==> halt.Raised?
    ensures o.ServerError? ==>
              && o.failure == halt.failure
              && |o.alert| >= |FailurePrefix| && o.alert[..|FailurePrefix|] == FailurePrefix
              && '"' !in o.alert[|FailurePrefix|..] && '\n' !in o.alert[|FailurePrefix|..]
    ensures o.ServerError? ==> o.alert == FailurePrefix + Sanitize(ExceptionText(halt.failure, describe))
    ensures halt == BlankSymbol ==> o == Rejected(BlankSymbolAlert)
    ensures halt == EmptyTable ==> o == NotFound(NoDataAlert)
  {
    match halt
    case BlankSymbol => Rejected(BlankSymbolAlert)
    case EmptyTable => NotFound(NoDataAlert)
    case Raised(failure) =>
      var alert := FailurePrefix + Sanitize(ExceptionText(failure, describe));
      assert alert[|FailurePrefix|..] == Sanitize(ExceptionText(failure, describe));
      ServerError(failure, alert)
  }

  /** The whole handler. */
  function Handle(form: Form, env: Collaborators): (o: Outcome)
    ensures o.Status() == 400 <==> AllSpace(form.symbol.GetOr(""))
    ensures o.Download? ==>
              && form.start.Some? && form.end.Some?
              && o.file.mediaType == CsvMediaType
              && o.file.filename == Filename(Strip(form.symbol.GetOr("")), form.start.value, form.end.value)
  {
    match Prepare(form)
    case Failure(halt) => Report(halt, env.describe)
    case Success(req) =>
      match Shape(env.fetch(QueryFor(req)), req.fields)
      case Failure(halt) => Report(halt, env.describe)
      case Success(table) => Download(Attachment(Filename(req.symbol, req.start, req.end), CsvMediaType, table))
  }
}
