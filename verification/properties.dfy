/** Properties of the `/download` handler as a whole: which outcome each way
    through it produces, what the provider is asked, and what the file is
    named and holds. */
module DownloadProperties {
  import opened Wrappers
  import opened Seqs
  import opened Text
  import opened Frames
  import opened Download

  /** The raw symbol as the handler reads it: an absent field reads as empty. */
  function RawSymbol(form: Form): string
  {
    form.symbol.GetOr("")
  }

  /** An empty or whitespace-only symbol is a 400, whatever the provider does. */
  lemma BlankSymbolIsRejected(form: Form, env: Collaborators)
    requires AllSpace(RawSymbol(form))
    ensures Handle(form, env) == Rejected(BlankSymbolAlert)
    ensures Handle(form, env).Status() == 400
  {
  }

  /** Under a blank symbol neither the dates, nor the field selection, nor
      the provider, nor the exception texts have any say in the outcome. */
  lemma BlankSymbolConsultsNothingElse(form: Form, form': Form, env: Collaborators, env': Collaborators)
    requires form.symbol == form'.symbol && AllSpace(RawSymbol(form))
    ensures Handle(form, env) == Handle(form', env')
  {
  }

  /** Once the form is read, the provider is asked, daily, for the stripped
      symbol with the market suffix over the submitted date strings; the
      stripped symbol is non-empty and has no whitespace at either end. */
  lemma ProviderIsAskedForTicker(form: Form)
    ensures Prepare(form).Success? ==>
              && Strip(RawSymbol(form)) != [] && Trimmed(Strip(RawSymbol(form)))
              && QueryFor(Prepare(form).value) ==
                 Query(Strip(RawSymbol(form)) + MarketSuffix, form.start.value, form.end.value, DailyInterval)
  {
    if Prepare(form).Success? {
      var req := Prepare(form).value;
      assert req.symbol == Strip(RawSymbol(form));
    }
  }

  /** The outcome depends on the provider only through its answer to the one
      query the request makes. */
  lemma OnlyTheQueryIsConsulted(form: Form, env: Collaborators, env': Collaborators)
    ensures && Prepare(form).Success?
            && env'.fetch(QueryFor(Prepare(form).value)) == env.fetch(QueryFor(Prepare(form).value))
            && (forall f :: env'.describe(f) == env.describe(f))
            ==> Handle(form, env) == Handle(form, env')
  {
    if Prepare(form).Success? && env'.fetch(QueryFor(Prepare(form).value)) == env.fetch(QueryFor(Prepare(form).value))
       && (forall f :: env'.describe(f) == env.describe(f))
    {
      var req := Prepare(form).value;
      var shaped := Shape(env.fetch(QueryFor(req)), req.fields);
      if shaped.Failure? {
        assert Report(shaped.error, env.describe) == Report(shaped.error, env'.describe);
      }
    }
  }

  /** The market suffix can be taken off again, so distinct symbols reach the
      provider as distinct tickers. */
  lemma TickerRoundTrip(symbol: string, other: string)
    ensures SymbolOfTicker(Ticker(symbol)) == Some(symbol)
    ensures Ticker(symbol) == Ticker(other) ==> symbol == other
  {
    assert Ticker(symbol)[|Ticker(symbol)| - |MarketSuffix|..] == MarketSuffix;
  }

  /** Settling the column selection twice is settling it once. */
  lemma SelectFieldsIdempotent(submitted: seq<string>)
    ensures SelectFields(SelectFields(submitted)) == SelectFields(submitted)
  {
  }

  /** An absent `start` or `end` field is a caught exception: a 500 whose
      alert carries the sanitised text of that exception. */
  lemma MissingDateIsServerError(form: Form, env: Collaborators)
    requires !AllSpace(RawSymbol(form))
    requires form.start.None? || form.end.None?
    ensures Handle(form, env).ServerError? && Handle(form, env).Status() == 500
    ensures Handle(form, env).failure == MissingFormKey(if form.start.None? then "start" else "end")
    ensures Handle(form, env).alert ==
              FailurePrefix + Sanitize(env.describe(MissingFormKey(if form.start.None? then "start" else "end")))
  {
  }

  /** A provider that raises gives a 500 whose alert carries its sanitised message. */
  lemma ProviderFailureIsServerError(form: Form, env: Collaborators)
    requires Prepare(form).Success?
    requires env.fetch(QueryFor(Prepare(form).value)).FetchFailed?
    ensures Handle(form, env).Status() == 500
    ensures Handle(form, env) ==
              ServerError(ProviderFailed(env.fetch(QueryFor(Prepare(form).value)).text),
                          FailurePrefix + Sanitize(env.fetch(QueryFor(Prepare(form).value)).text))
  {
  }

  /** A table with no rows (or no columns) is a 404, whatever columns were
      requested. */
  lemma EmptyTableIsNotFound(form: Form, env: Collaborators)
    ensures && Prepare(form).Success?
            && env.fetch(QueryFor(Prepare(form).value)).Fetched?
            && IsEmpty(env.fetch(QueryFor(Prepare(form).value)).frame)
            ==> Handle(form, env) == NotFound(NoDataAlert) && Handle(form, env).Status() == 404
  {
  }

  /** Requesting a column the table lacks is a 500 naming exactly the
      requested columns that are missing, whose alert carries the sanitised
      text of that exception. */
  lemma MissingColumnIsServerError(form: Form, env: Collaborators)
    requires Prepare(form).Success?
    requires env.fetch(QueryFor(Prepare(form).value)).Fetched?
    requires !IsEmpty(env.fetch(QueryFor(Prepare(form).value)).frame)
    requires exists x :: x in SelectFields(form.fields) && x !in env.fetch(QueryFor(Prepare(form).value)).frame.columns
    ensures Handle(form, env).ServerError? && Handle(form, env).Status() == 500
    ensures Handle(form, env).failure.MissingColumns?
    ensures forall x :: x in Handle(form, env).failure.labels <==>
                        x in SelectFields(form.fields) && x !in env.fetch(QueryFor(Prepare(form).value)).frame.columns
    ensures Handle(form, env).alert == FailurePrefix + Sanitize(env.describe(Handle(form, env).failure))
  {
  }

  /** The handler hands back a file exactly when the symbol is not blank,
      both dates are present, the provider answers with a non-empty table,
      and that table has every requested column. */
  lemma DownloadIff(form: Form, env: Collaborators)
    ensures Handle(form, env).Download? <==>
              && !AllSpace(RawSymbol(form)) && form.start.Some? && form.end.Some?
              && env.fetch(QueryFor(Prepare(form).value)).Fetched?
              && !IsEmpty(env.fetch(QueryFor(Prepare(form).value)).frame)
              && forall x :: x in SelectFields(form.fields) ==> x in env.fetch(QueryFor(Prepare(form).value)).frame.columns
  {
    match Prepare(form)
    case Failure(halt) =>
      assert Handle(form, env) == Report(halt, env.describe);
    case Success(req) =>
      var fetched := env.fetch(QueryFor(req));
      match Shape(fetched, req.fields)
      case Failure(halt) =>
        assert Handle(form, env) == Report(halt, env.describe);
      case Success(table) =>
        assert Handle(form, env).Download?;
  }

  /** On success the file is a CSV named after the stripped symbol (without
      the market suffix) and the date strings as submitted, and it holds the
      provider's rows with exactly the selected columns in the selected order. */
  lemma DownloadContents(form: Form, env: Collaborators)
    ensures Handle(form, env).Download? ==>
            var file := Handle(form, env).file;
            var frame := env.fetch(QueryFor(Prepare(form).value)).frame;
            && file.filename == Strip(RawSymbol(form)) + "_" + form.start.value + "_" + form.end.value + ".csv"
            && file.mediaType == "text/csv"
            && file.content.columns == SelectFields(form.fields)
            && |file.content.rows| == |frame.rows|
            && (forall i :: 0 <= i < |frame.rows| ==> file.content.rows[i].date == frame.rows[i].date)
            && (forall i, k, j :: 0 <= i < |frame.rows| && 0 <= k < |file.content.columns| && 0 <= j < |frame.columns|
                                  && frame.columns[j] == file.content.columns[k]
                                  ==> file.content.rows[i].cells[k] == frame.rows[i].cells[j])
  {
    if Handle(form, env).Download? {
      var req := Prepare(form).value;
      var frame := env.fetch(QueryFor(req)).frame;
      assert Shape(Fetched(frame), req.fields) == Success(Handle(form, env).file.content);
    }
  }

  /** Exactly the caught exceptions end as a 500, and a 500 never carries a
      file; its alert text holds no double quote and no line feed after the
      fixed prefix. */
  lemma ServerErrorIff(form: Form, env: Collaborators)
    ensures Handle(form, env).Status() == 500 <==>
              && !AllSpace(RawSymbol(form))
              && (|| form.start.None? || form.end.None?
                  || env.fetch(QueryFor(Prepare(form).value)).FetchFailed?
                  || (&& !IsEmpty(env.fetch(QueryFor(Prepare(form).value)).frame)
                      && exists x :: x in SelectFields(form.fields) && x !in env.fetch(QueryFor(Prepare(form).value)).frame.columns))
    ensures Handle(form, env).Status() == 500 ==>
              && Handle(form, env).ServerError?
              && var alert := Handle(form, env).alert;
                 && |alert| >= |FailurePrefix| && '"' !in alert[|FailurePrefix|..] && '\n' !in alert[|FailurePrefix|..]
  {
    match Prepare(form)
    case Failure(halt) =>
      assert Handle(form, env) == Report(halt, env.describe);
    case Success(req) =>
      var fetched := env.fetch(QueryFor(req));
      match Shape(fetched, req.fields)
      case Failure(halt) =>
        assert Handle(form, env) == Report(halt, env.describe);
      case Success(table) =>
        assert Handle(form, env).Download?;
  }

  /** The file name splits back into its three parts when the symbol and
      the start date hold no underscore. */
  lemma FilenameRoundTrip(symbol: string, start: string, end: string)
    requires '_' !in symbol && '_' !in start
    ensures SplitFilename(Filename(symbol, start, end)) == Some(FilenameParts(symbol, start, end))
  {
    var tail := start + ['_'] + end;
    var stem := symbol + ['_'] + tail;
    var name := Filename(symbol, start, end);
    assert name[..|name| - |CsvExtension|] == stem && name[|name| - |CsvExtension|..] == CsvExtension by {
      assert name == stem + CsvExtension;
    }
    IndexOfAfterPrefix(symbol, '_', tail);
    IndexOfAfterPrefix(start, '_', end);
  }

  /** The file name of a two-month request for symbol 2330. */
  lemma FilenameExample()
    ensures Filename("2330", "2024-01-01", "2024-01-31") == "2330_2024-01-01_2024-01-31.csv"
  {
  }

  /** The file name of the two-day request below. */
  lemma TwoDayFilename()
    ensures Filename("2330", "2024-01-02", "2024-01-03") == "2330_2024-01-02_2024-01-03.csv"
  {
  }

  /** A two-day table the provider is assumed to return in this scenario. */
  const TwoDayFrame: Frame :=
    Table(["Open", "High", "Low", "Close"],
          [Row("2024-01-02", [100.0, 102.0, 99.5, 101.505]),
           Row("2024-01-03", [101.0, 101.5, 99.0, 100.0])])

  /** A request for symbol 2330 (padded with spaces) with only Close selected. */
  const TwoDayCloseForm: Form := Form(Some(" 2330 "), Some("2024-01-02"), Some("2024-01-03"), ["Close"])

  /** The Close column of `TwoDayFrame`. */
  const TwoDayCloseTable: Table := Table(["Close"], [Row("2024-01-02", [101.505]), Row("2024-01-03", [100.0])])

  /** The padded symbol of `TwoDayCloseForm` strips to 2330. */
  lemma TwoDayCloseFormIsRead()
    ensures Prepare(TwoDayCloseForm) == Success(DownloadRequest("2330", "2024-01-02", "2024-01-03", ["Close"]))
  {
    assert !IsSpace('2') && IsSpace(' ');
    assert SkipSpaceForward(" 2330 ", 0) == 1;
    assert SkipSpaceBackward(" 2330 ", 1, 6) == 5;
    assert " 2330 "[1..5] == "2330";
  }

  /** Selecting Close from `TwoDayFrame` keeps both days. */
  lemma TwoDayCloseSelection()
    ensures Select(TwoDayFrame, ["Close"]) == Success(TwoDayCloseTable)
  {
    assert IndexOf(TwoDayFrame.columns, "Close") == Some(3);
    assert Missing(TwoDayFrame.columns, ["Close"]) == [];
    var got := Select(TwoDayFrame, ["Close"]).value;
    assert got.rows[0].cells == [101.505];
    assert got.rows[1].cells == [100.0];
    assert got.rows == TwoDayCloseTable.rows;
  }

  /** End to end: against a provider that answers with `TwoDayFrame`, the
      request downloads `2330_2024-01-02_2024-01-03.csv` holding the Close
      column only. */
  lemma TwoDayCloseScenario(env: Collaborators)
    requires forall q :: env.fetch(q) == Fetched(TwoDayFrame)
    ensures Handle(TwoDayCloseForm, env) ==
              Download(Attachment("2330_2024-01-02_2024-01-03.csv", "text/csv", TwoDayCloseTable))
  {
    var req := DownloadRequest("2330", "2024-01-02", "2024-01-03", ["Close"]);
    TwoDayCloseFormIsRead();
    TwoDayCloseSelection();
    assert env.fetch(QueryFor(req)) == Fetched(TwoDayFrame);
    assert !IsEmpty(TwoDayFrame);
    assert Shape(Fetched(TwoDayFrame), ["Close"]) == Success(TwoDayCloseTable);
    TwoDayFilename();
  }
}
