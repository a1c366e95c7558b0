/**
 * `update_prices` and `backup_workbook`: fetch both closes, stop there on a dry
 * run, otherwise copy the workbook to a timestamped backup, load it, scan the
 * "Current Prices" sheet and save it over the original.  The file system is a
 * map from paths to workbook contents plus a log of the file operations.
 */
module Updater {
  import opened Results
  import Quotes
  import Sheets
  import Strings

  const SHEET_NAME := "Current Prices"
  const GOLD_SYMBOL := "gc.f"
  const SILVER_SYMBOL := "si.f"
  const BACKUP_MARK := ".backup."

  /** A file location: its directory and its name within that directory. */
  datatype Path = Path(dir: string, name: string)

  /** The content of a workbook file: its sheets by title. */
  datatype Workbook = Workbook(sheets: map<string, seq<Sheets.Row>>)

  /** The file operations of a run, in the order they happen. */
  datatype Event = Copied(src: Path, dst: Path) | Loaded(path: Path) | Saved(path: Path)

  datatype RunError =
    | WorkbookNotFound(path: Path)         // "Workbook not found: ..."
    | FetchFailed(cause: Quotes.FetchError)
    | SheetNotFound(sheet: string)         // "Sheet 'Current Prices' not found"

  datatype Prices = Prices(gold: real, silver: real)

  /** A timestamp as `strftime("%Y%m%d%H%M%S")` writes it: fourteen digits. */
  predicate IsStamp(s: string) {
    |s| == 14 && forall k :: 0 <= k < |s| ==> '0' <= s[k] <= '9'
  }

  /** The backup's file name: the workbook's stem, ".backup.", the stamp, the workbook's suffix. */
  function BackupName(stem: string, suffix: string, stamp: string): (name: string)
    requires IsStamp(stamp)
    ensures |name| == |stem| + |BACKUP_MARK| + |stamp| + |suffix|
  {
    stem + BACKUP_MARK + stamp + suffix
  }

  /** Reads the stamp back out of a backup name for the given stem and suffix. */
  function StampOf(name: string, stem: string, suffix: string): (stamp: Option<string>)
    ensures stamp.Some? ==> |stamp.value| == 14 && name == stem + BACKUP_MARK + stamp.value + suffix
  {
    var start := |stem| + |BACKUP_MARK|;
    if |name| == start + 14 + |suffix| && name[..start] == stem + BACKUP_MARK && name[start + 14..] == suffix
    then
      var stamp := name[start..start + 14];
      assert name == name[..start] + stamp + name[start + 14..];
      Some(stamp)
    else None
  }

  /** The stamp written into a backup name is the one read back from it. */
  lemma BackupNameRoundTrip(stem: string, suffix: string, stamp: string)
    requires IsStamp(stamp)
    ensures StampOf(BackupName(stem, suffix, stamp), stem, suffix) == Some(stamp)
  {
  }

  /** Backups taken at different times have different names. */
  lemma BackupNamesDistinct(stem: string, suffix: string, stamp: string, other: string)
    requires IsStamp(stamp) && IsStamp(other) && stamp != other
    ensures BackupName(stem, suffix, stamp) != BackupName(stem, suffix, other)
  {
    BackupNameRoundTrip(stem, suffix, stamp);
    BackupNameRoundTrip(stem, suffix, other);
  }

  /**
   * `path.with_name(...)`: the backup lies in the workbook's directory, under a
   * name that is never the workbook's own.  `stem` and `suffix` are the workbook
   * name's two parts.
   */
  function BackupPath(workbook: Path, stem: string, suffix: string, stamp: string): (backup: Path)
    requires workbook.name == stem + suffix && IsStamp(stamp)
    ensures backup.dir == workbook.dir && backup != workbook
  {
    Path(workbook.dir, BackupName(stem, suffix, stamp))
  }

  /** What a run returns, the files it leaves and the file operations it performs. */
  datatype Outcome = Outcome(result: Result<Prices, RunError>, files: map<Path, Workbook>, events: seq<Event>)

  /** The workbook after a successful scan: the prices sheet replaced, every other sheet kept. */
  function Updated(book: Workbook, gold: real, silver: real, today: Sheets.Date): (r: Workbook)
    requires SHEET_NAME in book.sheets
    ensures r.sheets.Keys == book.sheets.Keys
    ensures forall title :: title in book.sheets && title != SHEET_NAME ==> r.sheets[title] == book.sheets[title]
    ensures r.sheets[SHEET_NAME] == Sheets.Scanned(book.sheets[SHEET_NAME], gold, silver, today)
  {
    Workbook(book.sheets[SHEET_NAME := Sheets.Scanned(book.sheets[SHEET_NAME], gold, silver, today)])
  }

  /**
   * `update_prices(workbook, dry_run)` over the files `files`, with the network
   * `respond`, the run date `today` and the backup timestamp `stamp`.
   */
  function Run(files: map<Path, Workbook>, workbook: Path, stem: string, suffix: string, dryRun: bool,
               respond: string -> Quotes.Attempt, today: Sheets.Date, stamp: string): (o: Outcome)
    requires workbook.name == stem + suffix && IsStamp(stamp)
    // a dry run, and any run that fails before the backup, leaves the files alone
    ensures dryRun || o.events == [] ==> o.files == files && o.events == []
    ensures o.result.Failure? && !o.result.error.SheetNotFound? ==> o.files == files && o.events == []
    // when anything happens on disk, the first thing is a copy of the untouched workbook
    ensures o.events != [] ==>
      var backup := BackupPath(workbook, stem, suffix, stamp);
      workbook in files && o.events[0] == Copied(workbook, backup)
      && backup in o.files && o.files[backup] == files[workbook]
      && forall j :: 0 < j < |o.events| ==> !o.events[j].Copied?
    // a missing sheet is reported after the backup exists, and nothing else is written
    ensures o.result == Failure(SheetNotFound(SHEET_NAME)) ==>
      var backup := BackupPath(workbook, stem, suffix, stamp);
      workbook in files && o.events == [Copied(workbook, backup), Loaded(workbook)]
      && o.files == files[backup := files[workbook]]
    // only the workbook and its backup are ever written
    ensures forall p :: p in files && p != workbook && p != BackupPath(workbook, stem, suffix, stamp) ==>
      p in o.files && o.files[p] == files[p]
    ensures o.files.Keys <= files.Keys + {BackupPath(workbook, stem, suffix, stamp)}
    // success exactly when the workbook exists, both fetches succeed and, unless dry, the sheet exists;
    // the prices returned are the fetched ones
    ensures o.result.Success? <==>
      workbook in files && Quotes.Quote(GOLD_SYMBOL, respond).Success? && Quotes.Quote(SILVER_SYMBOL, respond).Success?
      && (dryRun || SHEET_NAME in files[workbook].sheets)
    ensures o.result.Success? ==>
      o.result.value == Prices(Quotes.Quote(GOLD_SYMBOL, respond).value, Quotes.Quote(SILVER_SYMBOL, respond).value)
    // a completed update saves the workbook with its prices sheet scanned
    ensures o.result.Success? && !dryRun ==>
      workbook in files && SHEET_NAME in files[workbook].sheets && workbook in o.files
      && o.files[workbook] == Updated(files[workbook], o.result.value.gold, o.result.value.silver, today)
    // a completed update backs the workbook up, then loads it, then saves it
    ensures o.result.Success? && !dryRun ==>
      var backup := BackupPath(workbook, stem, suffix, stamp);
      o.events == [Copied(workbook, backup), Loaded(workbook), Saved(workbook)]
      && backup in o.files && o.files[backup] == files[workbook]
    // which error a failed run reports: a missing workbook before any fetch, then
    // the gold fetch's own error, then the silver fetch's, then the missing sheet
    ensures workbook !in files ==> o.result == Failure(WorkbookNotFound(workbook))
    ensures workbook in files && Quotes.Quote(GOLD_SYMBOL, respond).Failure? ==>
      o.result == Failure(FetchFailed(Quotes.Quote(GOLD_SYMBOL, respond).error))
    ensures
      (workbook in files && Quotes.Quote(GOLD_SYMBOL, respond).Success?
       && Quotes.Quote(SILVER_SYMBOL, respond).Failure?) ==>
      o.result == Failure(FetchFailed(Quotes.Quote(SILVER_SYMBOL, respond).error))
    ensures
      (workbook in files && Quotes.Quote(GOLD_SYMBOL, respond).Success?
       && Quotes.Quote(SILVER_SYMBOL, respond).Success? && !dryRun && SHEET_NAME !in files[workbook].sheets) ==>
      o.result == Failure(SheetNotFound(SHEET_NAME))
  {
    if workbook !in files then Outcome(Failure(WorkbookNotFound(workbook)), files, [])
    else match Quotes.Quote(GOLD_SYMBOL, respond)
      case Failure(e) => Outcome(Failure(FetchFailed(e)), files, [])
      case Success(gold) =>
        match Quotes.Quote(SILVER_SYMBOL, respond)
        case Failure(e) => Outcome(Failure(FetchFailed(e)), files, [])
        case Success(silver) =>
          if dryRun then Outcome(Success(Prices(gold, silver)), files, [])
          else
            var backup := BackupPath(workbook, stem, suffix, stamp);
            var copied := files[backup := files[workbook]];
            var book := copied[workbook];
            if SHEET_NAME !in book.sheets then
              Outcome(Failure(SheetNotFound(SHEET_NAME)), copied, [Copied(workbook, backup), Loaded(workbook)])
            else
              Outcome(Success(Prices(gold, silver)), copied[workbook := Updated(book, gold, silver, today)],
                      [Copied(workbook, backup), Loaded(workbook), Saved(workbook)])
  }

  /** The files of the machine the updater runs on, and the log of what it did to them. */
  class Disk {
    var files: map<Path, Workbook>
    var events: seq<Event>

    constructor (contents: map<Path, Workbook>)
      ensures files == contents && events == []
    {
      files := contents;
      events := [];
    }

    /** `shutil.copy2(src, dst)`: `dst` is created or overwritten with the content of `src`. */
    method Copy(src: Path, dst: Path)
      requires src in files
      modifies this
      ensures files == old(files)[dst := old(files)[src]]
      ensures events == old(events) + [Copied(src, dst)]
    {
      files := files[dst := files[src]];
      events := events + [Copied(src, dst)];
    }

    /** `load_workbook(path)`: reads the file without changing it. */
    method Load(path: Path) returns (book: Workbook)
      requires path in files
      modifies this
      ensures book == old(files)[path] && files == old(files)
      ensures events == old(events) + [Loaded(path)]
    {
      book := files[path];
      events := events + [Loaded(path)];
    }

    /** `wb.save(path)`: the file now holds `book`. */
    method Save(path: Path, book: Workbook)
      modifies this
      ensures files == old(files)[path := book]
      ensures events == old(events) + [Saved(path)]
    {
      files := files[path := book];
      events := events + [Saved(path)];
    }
  }

  /** `backup_workbook(path)`: copies the workbook next to itself under its backup name. */
  method BackupWorkbook(disk: Disk, workbook: Path, stem: string, suffix: string, stamp: string)
    returns (backup: Path)
    requires workbook in disk.files && workbook.name == stem + suffix && IsStamp(stamp)
    modifies disk
    ensures backup == BackupPath(workbook, stem, suffix, stamp)
    ensures disk.files == old(disk.files)[backup := old(disk.files)[workbook]]
    ensures disk.events == old(disk.events) + [Copied(workbook, backup)]
  {
    backup := BackupPath(workbook, stem, suffix, stamp);
    disk.Copy(workbook, backup);
  }

  /** `update_prices(workbook, dry_run)`: does on `disk` what Run describes. */
  method UpdatePrices(disk: Disk, workbook: Path, stem: string, suffix: string, dryRun: bool,
                      respond: string -> Quotes.Attempt, today: Sheets.Date, stamp: string)
    returns (r: Result<Prices, RunError>)
    requires workbook.name == stem + suffix && IsStamp(stamp)
    modifies disk
    ensures var o := Run(old(disk.files), workbook, stem, suffix, dryRun, respond, today, stamp);
      r == o.result && disk.files == o.files && disk.events == old(disk.events) + o.events
  {
    if workbook !in disk.files {
      return Failure(WorkbookNotFound(workbook));
    }
    var gold := Quotes.FetchLastClose(GOLD_SYMBOL, respond);
    if gold.Failure? {
      return Failure(FetchFailed(gold.error));
    }
    var silver := Quotes.FetchLastClose(SILVER_SYMBOL, respond);
    if silver.Failure? {
      return Failure(FetchFailed(silver.error));
    }
    if dryRun {
      return Success(Prices(gold.value, silver.value));
    }
    var backup := BackupWorkbook(disk, workbook, stem, suffix, stamp);
    var book := disk.Load(workbook);
    if SHEET_NAME !in book.sheets {
      return Failure(SheetNotFound(SHEET_NAME));
    }
    var sheet := new Sheets.Sheet(book.sheets[SHEET_NAME]);
    sheet.Scan(gold.value, silver.value, today);
    disk.Save(workbook, Workbook(book.sheets[SHEET_NAME := sheet.rows[..]]));
    r := Success(Prices(gold.value, silver.value));
  }

  /** The quote sources of the worked run below: 1950.35 for gold, 24.118 for silver. */
  function ExampleSource(url: string): Quotes.Attempt {
    if Quotes.DAILY_SERIES_PREFIX + GOLD_SYMBOL <= url then Quotes.Rows([Quotes.QuoteRow(Some(1950.35))])
    else Quotes.Rows([Quotes.QuoteRow(Some(24.118))])
  }

  /** A sheet row of the worked run below. */
  function ExampleRow(caption: string, price: Sheets.Cell, date: Sheets.Cell): Sheets.Row {
    Sheets.Row(Sheets.Cell(Sheets.Text(caption), ""), price, date, [])
  }

  /** The worked run's sheet before: a header, "Gold" at 1800.00 and "Silver" at 22.50, both dated 1/1/24. */
  function ExampleSheet(): seq<Sheets.Row> {
    var blank := Sheets.Cell(Sheets.Blank, "");
    var dated := Sheets.Cell(Sheets.Day(Sheets.Date(2024, 1, 1)), "");
    [ExampleRow("Metal", blank, blank),
     ExampleRow("Gold", Sheets.Cell(Sheets.Number(1800.0), ""), dated),
     ExampleRow("Silver", Sheets.Cell(Sheets.Number(22.5), ""), dated)]
  }

  /** The worked run's sheet after: 1950.35 and 24.12, both dated `today`. */
  function ExampleSheetAfter(today: Sheets.Date): seq<Sheets.Row> {
    var blank := Sheets.Cell(Sheets.Blank, "");
    var newDate := Sheets.Cell(Sheets.Day(today), Sheets.DATE_FORMAT);
    [ExampleRow("Metal", blank, blank),
     ExampleRow("Gold", Sheets.Cell(Sheets.Number(1950.35), Sheets.PRICE_FORMAT), newDate),
     ExampleRow("Silver", Sheets.Cell(Sheets.Number(24.12), Sheets.PRICE_FORMAT), newDate)]
  }

  /**
   * A worked run: the sources quote 1950.35 for gold and 24.118 for silver; the
   * saved workbook holds the rounded prices dated today, and the backup, named
   * after the stamp, holds the sheet as it was.
   */
  lemma ExampleRun(today: Sheets.Date)
    ensures
      var workbook := Path("/data", "metals.xlsx");
      var book := Workbook(map[SHEET_NAME := ExampleSheet()]);
      var o := Run(map[workbook := book], workbook, "metals", ".xlsx", false, ExampleSource, today, "20240102030405");
      && o.result == Success(Prices(1950.35, 24.118))
      && o.files == map[workbook := Workbook(map[SHEET_NAME := ExampleSheetAfter(today)]),
                        Path("/data", "metals.backup.20240102030405.xlsx") := book]
  {
    ExampleQuotes();
    ExampleScan(today);
    var workbook := Path("/data", "metals.xlsx");
    var book := Workbook(map[SHEET_NAME := ExampleSheet()]);
    ExampleBackupPath();
    assert Updated(book, 1950.35, 24.118, today) == Workbook(map[SHEET_NAME := ExampleSheetAfter(today)]);
  }

  /** The backup the worked run makes. */
  lemma ExampleBackupPath()
    ensures IsStamp("20240102030405")
    ensures BackupPath(Path("/data", "metals.xlsx"), "metals", ".xlsx", "20240102030405")
         == Path("/data", "metals.backup.20240102030405.xlsx")
  {
    assert BackupName("metals", ".xlsx", "20240102030405") == "metals.backup.20240102030405.xlsx";
  }

  /** The closes the worked run fetches. */
  lemma ExampleQuotes()
    ensures Quotes.Quote(GOLD_SYMBOL, ExampleSource) == Success(1950.35)
    ensures Quotes.Quote(SILVER_SYMBOL, ExampleSource) == Success(24.118)
  {
    var goldUrls := Quotes.SourceUrls(GOLD_SYMBOL);
    assert Quotes.FirstYieldAt(Quotes.Responses(goldUrls, ExampleSource), 0);
    Quotes.FirstYieldDecides(GOLD_SYMBOL, Quotes.Responses(goldUrls, ExampleSource), 0);
    Quotes.GoldNeverCorrected(1950.35);
    var silverUrls := Quotes.SourceUrls(SILVER_SYMBOL);
    assert !(Quotes.DAILY_SERIES_PREFIX + GOLD_SYMBOL <= silverUrls[0]) by {
      assert silverUrls[0][27] == 's';
      assert (Quotes.DAILY_SERIES_PREFIX + GOLD_SYMBOL)[27] == 'g';
    }
    assert ExampleSource(silverUrls[0]) == Quotes.Rows([Quotes.QuoteRow(Some(24.118))]);
    assert Quotes.Responses(silverUrls, ExampleSource)[0] == ExampleSource(silverUrls[0]);
    assert Quotes.FirstYieldAt(Quotes.Responses(silverUrls, ExampleSource), 0);
    Quotes.FirstYieldDecides(SILVER_SYMBOL, Quotes.Responses(silverUrls, ExampleSource), 0);
  }

  /** The scan of the worked run's sheet. */
  lemma ExampleScan(today: Sheets.Date)
    ensures Sheets.Scanned(ExampleSheet(), 1950.35, 24.118, today) == ExampleSheetAfter(today)
  {
    ExampleGoldLabel();
    ExampleSilverLabel();
    ExampleRounding();
  }

  /** The worked run's gold label selects gold. */
  lemma ExampleGoldLabel()
    ensures Sheets.MetalOf(Sheets.Text("Gold")) == Sheets.Gold
  {
    assert Strings.StripStart("Gold") == "Gold";
    assert Strings.StripEnd("Gold") == "Gold";
    assert Strings.Lower("Gold") == "gold";
  }

  /** The worked run's silver label selects silver. */
  lemma ExampleSilverLabel()
    ensures Sheets.MetalOf(Sheets.Text("Silver")) == Sheets.Silver
  {
    assert Strings.StripStart("Silver") == "Silver";
    assert Strings.StripEnd("Silver") == "Silver";
    assert Strings.Lower("Silver") == "silver";
  }

  /** The worked run's prices rounded to cents. */
  lemma ExampleRounding()
    ensures Sheets.Round2(1950.35) == 1950.35
    ensures Sheets.Round2(24.118) == 24.12
  {
    assert (24.118 * 100.0).Floor == 2411;
  }
}
