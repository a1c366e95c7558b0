/**
 * The quote fetcher (`fetch_last_close`): try each source URL of a symbol in
 * order, keep the rows of the first one that answers with at least one row,
 * take the Close field of its last row, and undo the cents quoting the source
 * sometimes uses for silver.
 */
module Quotes {
  import opened Results
  import Strings

  /** One CSV data row; `close` is None when its Close field is missing or not a number. */
  datatype QuoteRow = QuoteRow(close: Option<real>)

  /**
   * What one GET of one source URL came to: a network error, an HTTP error
   * status or a CSV error (`Failed`), or the data rows parsed from the body.
   */
  datatype Attempt = Failed | Rows(rows: seq<QuoteRow>)

  datatype FetchError =
    | NoData(symbol: string)    // no source gave a row: "No data returned for <symbol>"
    | BadClose(symbol: string)  // the last row's Close could not be read as a number

  const DAILY_SERIES_PREFIX := "https://stooq.com/q/d/l/?s="
  const LATEST_QUOTE_PREFIX := "https://stooq.com/q/l/?s="

  /** The two source URLs for a symbol: the daily series first, then the latest quote. */
  function SourceUrls(symbol: string): (urls: seq<string>)
    ensures |urls| == 2
    ensures DAILY_SERIES_PREFIX + symbol <= urls[0]
    ensures LATEST_QUOTE_PREFIX + symbol <= urls[1]
  {
    [DAILY_SERIES_PREFIX + symbol + "&i=d",
     LATEST_QUOTE_PREFIX + symbol + "&f=sd2t2ohlc&h&e=csv"]
  }

  /** The outcome of asking each URL in turn, the network being the function `respond`. */
  function Responses(urls: seq<string>, respond: string -> Attempt): (outcomes: seq<Attempt>)
    ensures |outcomes| == |urls|
  {
    seq(|urls|, i requires 0 <= i < |urls| => respond(urls[i]))
  }

  /** An attempt that stops the search: it parsed to at least one row. */
  predicate Yields(a: Attempt) {
    a.Rows? && a.rows != []
  }

  /** Source `k` is the first, in list order, that yields rows. */
  ghost predicate FirstYieldAt(outcomes: seq<Attempt>, k: int) {
    0 <= k < |outcomes| && Yields(outcomes[k])
    && forall j :: 0 <= j < k ==> !Yields(outcomes[j])
  }

  /**
   * The rows the fallback ends up with: those of the first source that yields any,
   * else none.  Rows kept are exactly the rows one of the sources answered with.
   */
  function Fallback(outcomes: seq<Attempt>): (rows: seq<QuoteRow>)
    ensures rows != [] ==> exists k :: 0 <= k < |outcomes| && outcomes[k] == Rows(rows)
  {
    if outcomes == [] then []
    else if Yields(outcomes[0]) then outcomes[0].rows
    else
      var rows := Fallback(outcomes[1..]);
      assert rows != [] ==> exists k :: 0 <= k < |outcomes| && outcomes[k] == Rows(rows) by {
        if rows != [] {
          var k :| 0 <= k < |outcomes[1..]| && outcomes[1..][k] == Rows(rows);
          assert outcomes[k + 1] == Rows(rows);
        }
      }
      rows
  }

  /** The symbol names silver, compared case-insensitively. */
  predicate IsSilverSymbol(symbol: string) {
    Strings.Lower(symbol) == "si.f"
  }

  /**
   * The cents correction: a silver close above 500 is taken to be in cents.
   * The close changes exactly for a silver symbol above the threshold, and then
   * it is read as cents.
   */
  function Corrected(symbol: string, close: real): (r: real)
    ensures r != close <==> IsSilverSymbol(symbol) && close > 500.0
    ensures r != close ==> r * 100.0 == close
  {
    if IsSilverSymbol(symbol) && close > 500.0 then close / 100.0 else close
  }

  /** What `fetch_last_close` returns or raises, given the outcome of each source in order. */
  function LastClose(symbol: string, outcomes: seq<Attempt>): (r: Result<real, FetchError>)
    ensures r.Failure? ==> r.error.symbol == symbol
    ensures r.Success? ==> exists k :: 0 <= k < |outcomes| && Yields(outcomes[k])
  {
    var rows := Fallback(outcomes);
    if rows == [] then Failure(NoData(symbol))
    else match rows[|rows| - 1].close
      case None => Failure(BadClose(symbol))
      case Some(c) => Success(Corrected(symbol, c))
  }

  /** `fetch_last_close(symbol)` against the network `respond`. */
  function Quote(symbol: string, respond: string -> Attempt): (r: Result<real, FetchError>)
    ensures r.Failure? ==> r.error.symbol == symbol
    ensures Yields(respond(SourceUrls(symbol)[0])) ==> r == LastClose(symbol, [respond(SourceUrls(symbol)[0])])
  {
    LastClose(symbol, Responses(SourceUrls(symbol), respond))
  }

  /** The fetch loop: sources are tried in order and the first non-empty row list stops it. */
  method FetchLastClose(symbol: string, respond: string -> Attempt) returns (r: Result<real, FetchError>)
    ensures r == Quote(symbol, respond)
  {
    var urls := SourceUrls(symbol);
    ghost var outcomes := Responses(urls, respond);
    var rows: seq<QuoteRow> := [];
    var i := 0;
    while i < |urls|
      invariant 0 <= i <= |urls|
      invariant rows == []
      invariant Fallback(outcomes) == Fallback(outcomes[i..])
    {
      var attempt := respond(urls[i]);
      if attempt.Rows? {
        rows := attempt.rows;
        if rows != [] {
          break;
        }
      }
      assert outcomes[i..][1..] == outcomes[i + 1..];
      i := i + 1;
    }
    if rows == [] {
      return Failure(NoData(symbol));
    }
    var last := rows[|rows| - 1].close;
    if last.None? {
      return Failure(BadClose(symbol));
    }
    r := Success(Corrected(symbol, last.value));
  }

  /** The fallback keeps the rows of the first source that yields any. */
  lemma {:induction false} FallbackPicksFirstYield(outcomes: seq<Attempt>, k: int)
    requires FirstYieldAt(outcomes, k)
    ensures Fallback(outcomes) == outcomes[k].rows
  {
    if k > 0 {
      assert !Yields(outcomes[0]);
      assert FirstYieldAt(outcomes[1..], k - 1);
      FallbackPicksFirstYield(outcomes[1..], k - 1);
    }
  }

  /** The fallback ends with no rows exactly when no source yields any. */
  lemma {:induction false} FallbackEmptyIffNoYield(outcomes: seq<Attempt>)
    ensures Fallback(outcomes) == [] <==> forall j :: 0 <= j < |outcomes| ==> !Yields(outcomes[j])
  {
    if outcomes != [] && !Yields(outcomes[0]) {
      FallbackEmptyIffNoYield(outcomes[1..]);
      assert forall j :: 1 <= j < |outcomes| ==> outcomes[j] == outcomes[1..][j - 1];
    }
  }

  /**
   * The close returned comes from the last row of the first source that yields
   * rows, corrected for cents; a missing Close on that row is an error.
   */
  lemma FirstYieldDecides(symbol: string, outcomes: seq<Attempt>, k: int)
    requires FirstYieldAt(outcomes, k)
    ensures var rows := outcomes[k].rows;
      LastClose(symbol, outcomes) ==
        if rows[|rows| - 1].close.Some? then Success(Corrected(symbol, rows[|rows| - 1].close.value))
        else Failure(BadClose(symbol))
  {
    FallbackPicksFirstYield(outcomes, k);
  }

  /** "No data returned" is raised exactly when every source fails or parses to zero rows. */
  lemma NoDataIffNoSourceYields(symbol: string, outcomes: seq<Attempt>)
    ensures LastClose(symbol, outcomes) == Failure(NoData(symbol))
        <==> forall j :: 0 <= j < |outcomes| ==> !Yields(outcomes[j])
  {
    FallbackEmptyIffNoYield(outcomes);
  }

  /** Once a source yields rows, what later sources would have answered makes no difference. */
  lemma LaterSourcesIgnored(symbol: string, outcomes: seq<Attempt>, other: seq<Attempt>, k: int)
    requires FirstYieldAt(outcomes, k)
    requires k < |other| && outcomes[..k + 1] == other[..k + 1]
    ensures LastClose(symbol, outcomes) == LastClose(symbol, other)
  {
    assert forall j :: 0 <= j <= k ==> outcomes[j] == outcomes[..k + 1][j] == other[j];
    assert FirstYieldAt(other, k);
    FallbackPicksFirstYield(outcomes, k);
    FallbackPicksFirstYield(other, k);
  }

  /** When the daily series fails, the latest-quote source's last close is what is returned. */
  lemma SecondSourceUsedAfterFirstFails(symbol: string, respond: string -> Attempt, close: real)
    requires !Yields(respond(SourceUrls(symbol)[0]))
    requires var second := respond(SourceUrls(symbol)[1]);
      Yields(second) && second.rows[|second.rows| - 1].close == Some(close)
    ensures Quote(symbol, respond) == Success(Corrected(symbol, close))
  {
    var outcomes := Responses(SourceUrls(symbol), respond);
    FallbackPicksFirstYield(outcomes, 1);
  }

  /** The silver symbol is recognised in any mix of upper and lower case, and only so. */
  lemma {:induction false} SilverSymbolSpellings(symbol: string)
    ensures IsSilverSymbol(symbol) <==>
      |symbol| == 4 && symbol[0] in "sS" && symbol[1] in "iI" && symbol[2] == '.' && symbol[3] in "fF"
  {
    var lower := Strings.Lower(symbol);
    if |symbol| == 4 {
      Strings.LowerAt(symbol, 0);
      Strings.LowerAt(symbol, 1);
      Strings.LowerAt(symbol, 2);
      Strings.LowerAt(symbol, 3);
      assert lower == [lower[0], lower[1], lower[2], lower[3]];
    }
  }

  /** The gold symbol's close is never corrected. */
  lemma GoldNeverCorrected(close: real)
    ensures Corrected("gc.f", close) == close
  {
    SilverSymbolSpellings("gc.f");
  }
}
