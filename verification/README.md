# Taiwan stock history download — verified model of the `/download` handler

The repository is a small Flask app. A user submits a ticker symbol, a start
and end date and a choice of price columns (Open, High, Low, Close). The app
asks Yahoo Finance (through `yfinance`) for daily bars of that symbol on the
Taiwan Stock Exchange (`<symbol>.TW`). It keeps the chosen columns and returns
them as a CSV attachment named `<symbol>_<start>_<end>.csv`. Each failure
becomes an HTML alert with a 400, 404 or 500 status.

This project models the handler body of `download()` as a pure decision
pipeline:

- `Text` — Python's `str.strip()` over `str.isspace()` characters, and the
  exception-message sanitiser (`"` → `'`, then line feed → space).
- `Frames` — the provider's table (column labels, rows of prices indexed by
  date) and the column selection `df[fields]`, including its failure on a
  missing label.
- `Download` — the form, the provider query (`symbol + ".TW"`, the two date
  strings as submitted, daily interval), the field-selection default, the
  empty-table check, the file name, and the error mapper that turns every way
  of stopping into a status and alert text. `Handle` composes them.
- `DownloadProperties` — whole-handler lemmas: which inputs give which status,
  what the provider is asked, and what the downloaded file holds.
- `Seqs`, `Wrappers` — first-index lookup, and `Option` / `Result`.

The price provider (`yf.download`) is passed in as a function
`fetch: Query -> ProviderAnswer`. It either fails with a message or returns a table.
The message text of exceptions raised inside the form and table libraries is
passed in as `describe: Caught -> string`.

Three behaviours of the handler that a reader might not expect:

- `df.empty` is true when either axis has length zero. A table with rows but
  no columns is therefore a 404 too, not only a table with zero rows.
- The date strings are never parsed. An absent `start` or `end` field raises
  inside the `try`, so it is a 500, not a 400.
- The field selection is neither deduplicated nor checked against the four
  known names. An unknown name only fails at `df[fields]`, as a 500.

## Model

| member | source | states |
|---|---|---|
| Text.Strip | app.py:56 | the stripped symbol is the slice of the input left after cutting a whitespace run from each end; it neither starts nor ends with whitespace |
| Text.SkipSpaceForward | app.py:56 | the left scan of `strip` stops at the first position holding no whitespace, and everything it passed is whitespace |
| Text.SkipSpaceBackward | app.py:56 | the right scan of `strip` stops just after the last character that is not whitespace, not below its lower bound, and everything it passed is whitespace |
| Text.StripEmptyIffAllSpace | app.py:56-57 | the stripped symbol is empty exactly when the raw symbol is empty or whitespace only |
| Text.StripIsUnique | app.py:56 | any trimmed slice of the input with only whitespace outside it is the stripped symbol, so the contract of `Strip` determines its result |
| Text.StripOfTrimmed | app.py:56 | a symbol with no leading or trailing whitespace is left unchanged |
| Text.StripIdempotent | app.py:56 | stripping twice is the same as stripping once |
| Text.ReplaceChar | app.py:84 | `str.replace` with single characters keeps the length and rewrites exactly the positions holding the old character |
| Text.Sanitize | app.py:84 | the sanitised message keeps its length and holds no `"` and no line feed; `"` becomes `'`, line feed becomes space, every other character is unchanged at its position |
| Text.SanitizeIdempotent | app.py:84 | sanitising twice is the same as sanitising once |
| Text.SanitizeKeepsCleanText | app.py:84 | a message with no `"` and no line feed passes through unchanged |
| Frames.EmptyIffNoCells | app.py:67 | `df.empty` (`IsEmpty`: either axis has length zero) holds exactly when no row of the table has any cell |
| Frames.Select | app.py:70 | `df[fields]` succeeds exactly when every requested label is a column; it then has exactly the requested columns in the requested order, repeats kept, the same rows and dates, and each cell is the source cell under the same label; otherwise it fails naming exactly the missing labels |
| Frames.Missing | app.py:70 | the labels reported missing are exactly the requested labels that are not columns |
| Frames.ProjectRow | app.py:70 | proof helper for `Select`: one row of `df[fields]` keeps its date, has one cell per requested label, and each cell is the row's cell under the first column carrying that label |
| Frames.SelectOwnColumns | app.py:70 | selecting a table's own columns in their own order gives the table back |
| Download.SymbolOfTicker | app.py:60 | a ticker ending in `.TW` yields the symbol that, suffixed again, gives that ticker back |
| Download.Ticker | app.py:60 | the provider ticker is the symbol followed by `.TW`; `SymbolOfTicker` and `TickerRoundTrip` give its inverse |
| Download.SelectFields | app.py:63 | the selection is never empty; an empty submission becomes Open, High, Low, Close in that order; a non-empty one is used as submitted |
| Download.Filename | app.py:77 | the file name is the symbol, `_`, the start string, `_`, the end string and `.csv`, each part at its own position; `FilenameRoundTrip` splits it back |
| Download.Prepare | app.py:55-63 | the form is accepted exactly when the stripped symbol is non-empty and both dates are present; a blank symbol stops first; otherwise the first absent date key fails; an accepted request carries the trimmed non-empty symbol, the date strings as submitted and the settled selection |
| Download.QueryFor | app.py:60-65 | the provider is asked, daily, for a ticker whose market suffix strips back to the request's symbol, over the submitted date strings |
| Download.Shape | app.py:65-70 | a provider failure stops with that failure, an empty table with the 404 halt; a non-empty table gives the column selection when every requested label is a column, and otherwise the caught missing-column failure naming exactly the missing labels |
| Download.Report | app.py:57-85 | a blank symbol maps to 400 with its fixed alert, an empty table to 404 with its fixed alert, every caught exception to 500; no error carries a file; a 500 alert is the fixed prefix followed by the sanitised text of the caught exception, so it holds no `"` and no line feed after the prefix |
| Download.Handle | app.py:54-85 | the whole handler: a 400 happens exactly when the symbol is blank, and a download only with both dates present, as `text/csv`, named from the stripped symbol and the date strings; the full dispatch is stated by `DownloadIff`, `ServerErrorIff` and the lemmas below |
| DownloadProperties.BlankSymbolIsRejected | app.py:56-58 | an absent, empty or whitespace-only symbol ends in a 400 with the fixed alert |
| DownloadProperties.BlankSymbolConsultsNothingElse | app.py:56-58 | under a blank symbol the dates, the field selection, the provider and the exception texts do not affect the outcome |
| DownloadProperties.ProviderIsAskedForTicker | app.py:56-65 | the provider query is the stripped, non-empty, trimmed symbol followed by `.TW`, the submitted dates and interval `1d` |
| DownloadProperties.OnlyTheQueryIsConsulted | app.py:65-85 | the outcome depends on the provider only through its answer to that one query |
| DownloadProperties.TickerRoundTrip | app.py:60 | removing the suffix recovers the symbol, so distinct symbols give distinct tickers |
| DownloadProperties.SelectFieldsIdempotent | app.py:63 | settling the field selection twice is the same as settling it once |
| DownloadProperties.MissingDateIsServerError | app.py:61-62 | with a non-blank symbol, an absent `start` or `end` field is a 500 for that key, `start` checked first, whose alert is the prefix and the sanitised exception text |
| DownloadProperties.ProviderFailureIsServerError | app.py:65 | a failing provider gives a 500 whose alert is the prefix and the sanitised provider message |
| DownloadProperties.EmptyTableIsNotFound | app.py:67-68 | an empty table is a 404 with the fixed alert, whatever columns were requested |
| DownloadProperties.MissingColumnIsServerError | app.py:70 | requesting a column the table lacks is a 500 naming exactly the requested columns that are missing, whose alert is the prefix and the sanitised exception text |
| DownloadProperties.DownloadIff | app.py:55-81 | a file is returned exactly when the symbol is not blank, both dates are present, the provider returns a non-empty table and that table has every requested column |
| DownloadProperties.DownloadContents | app.py:70-81 | a returned file is `text/csv`, named stripped symbol `_` start `_` end `.csv` (no `.TW`, dates unparsed), with the selected columns in order and the provider's rows, dates and cells |
| DownloadProperties.ServerErrorIff | app.py:83-85 | a 500 happens exactly on an absent date, a provider failure or a missing column (with a non-blank symbol and, for the last, a non-empty table); a 500 carries no file and its message has no `"` and no line feed |
| DownloadProperties.FilenameRoundTrip | app.py:77 | when the symbol and start date hold no underscore, the file name splits back into symbol, start and end |
| DownloadProperties.FilenameExample | app.py:77 | symbol 2330 from 2024-01-01 to 2024-01-31 gives `2330_2024-01-01_2024-01-31.csv` |
| DownloadProperties.TwoDayCloseScenario | app.py:54-81 | a padded symbol ` 2330 ` with only Close selected, against a two-day table, downloads `2330_2024-01-02_2024-01-03.csv` holding just the Close column for both days |

## Left out

- Flask routing, the `index()` page and `HOME_HTML` (app.py:7-50): HTTP and UI plumbing.
- The HTML `<script>alert(...)</script>` wrapping of error messages and `window.history.back()`: only the status and alert text are modelled.
- `send_file`, `io.StringIO` / `io.BytesIO` and UTF-8 encoding (app.py:72-81): library behaviour. The attachment's content is the selected table itself.
- `round(2)` and `to_csv(float_format='%.2f')` (app.py:70, 73): floating-point rounding and pandas CSV layout.
- DownloadProperties.DownloadContents: states the provider's prices as they are, because the two-decimal rounding applied to them is not modelled.
- The internals of `yf.download`: its result is the `fetch` collaborator. yfinance's two-level column header (price, ticker) is modelled as flat price labels, so `df[fields]` selects by price label.
- Duplicate column labels in the provider's table: the `Frame` type excludes them, since yfinance produces one column per price field.
- The exact text of exceptions raised by the form and table libraries (a missing form key, a missing column): the `describe` collaborator supplies it.
- Exceptions raised after the column selection, by rounding, CSV writing or `send_file`: they are assumed not to happen.
- A form that repeats `symbol`, `start` or `end`: Flask takes the first value, and the model has one value per field.
- The sanitised text only excludes `"` and line feed. Carriage return, backslash and other characters that matter inside a JavaScript string pass through, as in the code.
