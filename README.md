# Precious-metals price updater, modelled in Dafny

The updater fetches the latest closing prices of gold (`gc.f`) and silver (`si.f`) from
stooq's CSV endpoints and writes them into the "Current Prices" sheet of a spreadsheet
workbook. Before it changes the file, it makes a timestamped backup copy.

This project models the three pieces of `update_precious_metals.py` that make decisions:

- **Quote fetcher** (`Quotes`, `fetch_last_close`). Each of the two source URLs is
  tried in order. A failed request, an HTTP error status or a CSV error is an
  `Attempt` of kind `Failed`. A parsed body is `Rows(rows)`. The first source that
  yields at least one row is used, and later sources are not asked. No row from any
  source is the "No data returned" error. The result is the Close field of the
  chosen source's last row. A silver close above 500 is divided by 100 (the cents
  correction). `FetchLastClose` is the imperative loop, proved equal to the
  specification function `LastClose`. The lemmas beside it state the fallback rules.
- **Sheet scan** (`Sheets`, the loop in `update_prices`). A `Sheet` holds an
  `array<Row>`. Element 0 is spreadsheet row 1, the header. `Sheet.Scan` walks
  the rows from row 2 onwards and updates them in place. It is proved equal to the
  specification function `Scanned`, whose contract says what changes: each row
  labelled gold or silver gets its price and date cells. Every other part of the
  sheet stays as it was.
- **Run orchestration and backup name** (`Updater`, `update_prices` and
  `backup_workbook`). The file system is a `Disk`: a map from paths to workbook
  contents, plus a log of copy, load and save events. `UpdatePrices` is proved to
  do what the specification function `Run` describes. `Run`'s contract states the
  ordering rules. A dry run touches no file. Otherwise the backup copy comes first
  and holds the original content. A missing sheet is reported after the backup
  exists. Only the workbook and its backup are ever written.

The network, the clock and the file contents are inputs:

- the network is a function `respond` from URL to `Attempt`;
- the run date is `today`;
- the backup stamp is the 14-digit string `stamp`;
- the workbook name's stem and suffix are given as `stem` and `suffix`.

The code fetches both prices before it looks at `dry_run`, so a fetch failure ends
a normal run before any backup exists. A backup is therefore made on every non-dry
run that gets past the two fetches, not on every non-dry run, and the model does
the same.

## Model

| member | source | states |
|---|---|---|
| `Quotes.SourceUrls` | update_precious_metals.py:19-22 | there are two sources, the daily series first and then the latest quote, and each URL carries the symbol right after its stooq prefix |
| `Quotes.FetchLastClose` | update_precious_metals.py:18-44 | the loop over the URLs, which stops at the first non-empty row list, returns exactly what `LastClose` specifies for the responses of those URLs |
| `Quotes.Corrected` | update_precious_metals.py:40-44 | the close changes if and only if the symbol is silver (`IsSilverSymbol`: it lower-cases to "si.f") and the close is above 500; when it changes, it is read as cents (result × 100 = close) |
| `Quotes.Fallback` | update_precious_metals.py:24-35 | the rows kept, when there are any, are exactly the rows one of the sources answered with |
| `Quotes.LastClose` | update_precious_metals.py:24-44 | an error always names the symbol asked for, and a close is returned only when some source yielded rows |
| `Quotes.Quote` | update_precious_metals.py:18-44 | an error names the symbol; when the daily series yields rows, the latest-quote source makes no difference to the result |
| `Quotes.FallbackPicksFirstYield` | update_precious_metals.py:25-31 | the rows kept are those of the first source, in list order, that parsed to at least one row |
| `Quotes.FallbackEmptyIffNoYield` | update_precious_metals.py:24-35 | no rows are kept if and only if every source failed or parsed to zero rows |
| `Quotes.FirstYieldDecides` | update_precious_metals.py:25-38 | the result is the corrected Close of the last row of the first yielding source, or a Close error if that field is unreadable |
| `Quotes.NoDataIffNoSourceYields` | update_precious_metals.py:35-36 | the "No data returned for <symbol>" error is raised if and only if no source yields a row |
| `Quotes.LaterSourcesIgnored` | update_precious_metals.py:30-31 | once a source yields rows, changing what any later source would answer does not change the result |
| `Quotes.SecondSourceUsedAfterFirstFails` | update_precious_metals.py:25-38 | when the daily series yields nothing and the latest-quote source yields rows, the result is that source's last close, corrected |
| `Quotes.SilverSymbolSpellings` | update_precious_metals.py:41 | the lower-cased symbol equals "si.f" exactly for the eight upper/lower-case spellings of si.f |
| `Quotes.GoldNeverCorrected` | update_precious_metals.py:41-44 | the gold symbol's close is returned unchanged |
| `Strings.IsSpace` | update_precious_metals.py:86 | no whitespace character is an ASCII letter, so lower-casing cannot create or remove whitespace at the ends of a stripped label (used by `Sheets.Normalised`) |
| `Strings.Strip` | update_precious_metals.py:86 | the stripped string is no longer than the original and neither starts nor ends with whitespace |
| `Strings.Lower` | update_precious_metals.py:86 | lower-casing keeps the length; `Strings.LowerAt` pins each character |
| `Strings.StripStartShape` | update_precious_metals.py:86 | `lstrip` (`StripStart`) keeps a suffix preceded only by whitespace and not starting with whitespace |
| `Strings.StripEndShape` | update_precious_metals.py:86 | `rstrip` (`StripEnd`) keeps a prefix followed only by whitespace and not ending with whitespace |
| `Strings.StripIgnoresPadding` | update_precious_metals.py:86 | whitespace of any length around a string does not change what `strip` makes of it |
| `Strings.AllSpaceStripsToEmpty` | update_precious_metals.py:86 | a whitespace-only string strips to the empty string |
| `Strings.LowerAt` | update_precious_metals.py:86 | `lower` maps each character on its own |
| `Sheets.Truthy` | update_precious_metals.py:83 | a label is falsy exactly when it is blank, the empty string, zero or False |
| `Sheets.Display` | update_precious_metals.py:86 | `str` of a text label is the text itself; only text and boolean labels have a rendering that can spell a word |
| `Sheets.Normalised` | update_precious_metals.py:86 | the normalised label is no longer than the label and, when not empty, neither starts nor ends with whitespace |
| `Sheets.MetalOf` | update_precious_metals.py:83-94 | only a truthy text label can select a price; an empty, falsy, numeric or date label never does |
| `Sheets.BooleanLabelsNeverMatch` | update_precious_metals.py:86 | a boolean label renders as "True" or "False" and normalises to "true" or "false", never to gold or silver |
| `Sheets.NormalisedIgnoresPadding` | update_precious_metals.py:86 | surrounding whitespace is dropped before the label is compared |
| `Sheets.MetalIgnoresPadding` | update_precious_metals.py:83-94 | surrounding whitespace never changes which price a row receives |
| `Sheets.SameNormalisedSameMetal` | update_precious_metals.py:86-94 | two text labels that normalise alike select the same price |
| `Sheets.MetalOfText` | update_precious_metals.py:83-94 | a text label selects gold exactly when it normalises to "gold", and silver exactly when it normalises to "silver" |
| `Sheets.Round2` | update_precious_metals.py:89 | the result is a whole number of hundredths within half a hundredth of the input, and a value already in hundredths is kept |
| `Sheets.ScanRow` | update_precious_metals.py:79-98 | a row keeps its label and its columns past the third; it changes only if labelled gold or silver, and then gets that metal's rounded price in `$#,##0.00` (`PriceCell`, lines 89-90 and 95-96) and today in `m/d/yy` (`DateCell`, lines 91-92 and 97-98) |
| `Sheets.Scanned` | update_precious_metals.py:77-98 | the header, every label and every column past the third are kept; every gold row and every silver row below the header gets the rounded price in `$#,##0.00` and today in `m/d/yy`; no other row changes |
| `Sheets.Sheet.constructor` | update_precious_metals.py:75 | the sheet's rows are the given rows, in a fresh array |
| `Sheets.Sheet.Scan` | update_precious_metals.py:77-98 | the in-place loop leaves the array equal to `Scanned` of its old contents |
| `Sheets.ScanIdempotent` | update_precious_metals.py:77-98 | scanning a second time with the same prices and date changes nothing |
| `Sheets.WhitespaceLabelUntouched` | update_precious_metals.py:83-94 | a row whose label is whitespace only is left exactly as it was |
| `Updater.BackupName` | update_precious_metals.py:49 | the backup name is 22 characters longer than stem plus suffix (".backup." and the 14-digit stamp) |
| `Updater.StampOf` | update_precious_metals.py:48-49 | a name it accepts is exactly stem, ".backup.", a 14-character stamp, and suffix |
| `Updater.BackupNameRoundTrip` | update_precious_metals.py:48-49 | the stamp written into a backup name is read back out of it |
| `Updater.BackupNamesDistinct` | update_precious_metals.py:48-49 | backups with different stamps have different names |
| `Updater.BackupPath` | update_precious_metals.py:49 | the backup is in the workbook's directory and never has the workbook's own path |
| `Updater.Updated` | update_precious_metals.py:75-100 | the saved workbook has the same sheets; the prices sheet is scanned and every other sheet is unchanged |
| `Updater.Run` | update_precious_metals.py:54-106 | a dry run, and every failed run except a missing sheet (a missing workbook or a failed fetch), leaves the files and the log untouched; otherwise the first event is the backup copy, which holds the original content, and no second copy is made; a completed update copies, loads and saves in that order and saves the scanned workbook; a missing workbook is `WorkbookNotFound`, a failed fetch is that fetch's own error with gold checked before silver, and a missing sheet is `SheetNotFound`, reported after the backup and the load with nothing else written; only the workbook and its backup are written; success happens exactly when the workbook exists, both fetches succeed and (unless dry) the sheet exists, and it returns the fetched prices |
| `Updater.Disk.Copy` | update_precious_metals.py:50 | the destination now holds the source's content, and a copy event is logged |
| `Updater.Disk.Load` | update_precious_metals.py:71 | the returned workbook is the file's content, no file changes, and a load event is logged |
| `Updater.Disk.Save` | update_precious_metals.py:100 | the file now holds the workbook, and a save event is logged |
| `Updater.BackupWorkbook` | update_precious_metals.py:47-51 | the backup path is `BackupPath` of the workbook, and it now holds the workbook's content |
| `Updater.UpdatePrices` | update_precious_metals.py:54-106 | the returned value, the files and the appended events are exactly those of `Run` |
| `Updater.ExampleRun` | update_precious_metals.py:54-106 | worked run: Gold 1800.00 and Silver 22.50 with sources quoting 1950.35 and 24.118 give prices 1950.35 and 24.118, rows 1950.35 and 24.12 dated today, and a backup `metals.backup.<stamp>.xlsx` holding the original sheet |

## Left out

- HTTP requests, the 20-second timeout and `raise_for_status` (lines 27-28) are network I/O. Each request is an `Attempt` value given by `respond`.
- `csv.DictReader` parsing and `float(...)` (lines 29 and 38) are library parsing. A CSV error is a `Failed` attempt. A missing or non-numeric Close on the last row is `QuoteRow(None)`, which gives the `BadClose` error. The source does not catch that error either.
- Quotes.Corrected: closes are exact reals. Binary floating point and the rounding of `close / 100.0` are not modelled.
- Sheets.Round2: rounds the exact decimal value half-to-even. Python's `round` works on the binary double nearest the printed value, so results can differ at exact ties such as 2.675. The number formats are kept only as display strings.
- Strings.Lower: maps only ASCII letters. No other code point lower-cases to a single letter of "gold", "silver" or "si.f", so the three comparisons agree with Python's full `str.lower()`.
- Sheets.Display: numbers and dates get no text rendering. `str()` of them contains digits, which never normalise to "gold" or "silver", so they are treated as labels that cannot match.
- `load_workbook` and `save` (lines 71 and 100) are file I/O. A workbook is a map from sheet titles to rows of cells. Unreadable files, formulas, styles other than number formats, and save failures are not modelled.
- `shutil.copy2` (line 50) is modelled as a content copy. File metadata and copy failures are not modelled.
- `datetime.now()` and `strftime` (lines 48 and 60) are replaced by the inputs `today` and `stamp`. `pathlib` is replaced by the inputs `stem` and `suffix`, with `name == stem + suffix`.
- Console output (lines 63-65, 69, 102-104), the argparse `main` and the default workbook path (lines 14 and 109-120) are left out. They are CLI plumbing with no decisions.
