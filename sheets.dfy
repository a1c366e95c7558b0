/**
 * The "Current Prices" sheet and the row scan of `update_prices`: every row from
 * the second on whose label reads "gold" or "silver" (ignoring case and
 * surrounding whitespace) gets the rounded price and today's date.
 */
module Sheets {
  import opened Results
  import Strings

  datatype Date = Date(year: int, month: int, day: int)

  /** The value of a spreadsheet cell. */
  datatype Value = Blank | Text(s: string) | Number(x: real) | Flag(b: bool) | Day(d: Date)

  /** A cell: its value and its number-format attribute. */
  datatype Cell = Cell(value: Value, format: string)

  /** One sheet row: label, price and date in columns A to C, then any further columns. */
  datatype Row = Row(name: Cell, price: Cell, date: Cell, beyond: seq<Cell>)

  const PRICE_FORMAT := "$#,##0.00"
  const DATE_FORMAT := "m/d/yy"

  /** Python truthiness of a cell value: blank, "", 0 and False are false. */
  predicate Truthy(v: Value)
    ensures !Truthy(v) <==> v == Blank || v == Text("") || v == Number(0.0) || v == Flag(false)
  {
    match v
    case Blank => false
    case Text(s) => s != []
    case Number(x) => x != 0.0
    case Flag(b) => b
    case Day(_) => true
  }

  /**
   * `str(v)` for the values whose rendering can spell a word: text, and booleans
   * as "True" or "False".  Numbers and dates render with digits and separators,
   * which no trimming or lower-casing turns into "gold" or "silver"; for them the
   * result is None.
   */
  function Display(v: Value): (r: Option<string>)
    ensures r.Some? <==> v.Text? || v.Flag?
    ensures v.Text? ==> r == Some(v.s)
  {
    match v
    case Text(s) => Some(s)
    case Flag(b) => Some(if b then "True" else "False")
    case _ => None
  }

  datatype Metal = Gold | Silver | Neither

  /** The label with surrounding whitespace removed and lower-cased: `str(v).strip().lower()`. */
  function Normalised(s: string): (r: string)
    ensures |r| <= |s|
    ensures r != [] ==> !Strings.IsSpace(r[0]) && !Strings.IsSpace(r[|r| - 1])
  {
    var t := Strings.Strip(s);
    if t == [] then Strings.Lower(t)
    else
      Strings.LowerAt(t, 0);
      Strings.LowerAt(t, |t| - 1);
      Strings.Lower(t)
  }

  /** Which price, if any, a row with this label receives. */
  function MetalOf(name: Value): (m: Metal)
    ensures m != Neither ==> Truthy(name) && name.Text?
  {
    BooleanLabelsNeverMatch();
    if !Truthy(name) then Neither
    else match Display(name)
      case None => Neither
      case Some(s) =>
        var metal := Normalised(s);
        if metal == "gold" then Gold
        else if metal == "silver" then Silver
        else Neither
  }

  /**
   * Python's `round(x, 2)` on the exact value: the nearest multiple of 0.01, ties
   * to the even hundredth.
   */
  function Round2(x: real): (r: real)
    ensures (r * 100.0).Floor as real == r * 100.0
    ensures -0.005 <= r - x <= 0.005
    ensures (x * 100.0).Floor as real == x * 100.0 ==> r == x
  {
    var scaled := x * 100.0;
    var whole := scaled.Floor;
    var fraction := scaled - whole as real;
    var hundredths :=
      if fraction < 0.5 then whole
      else if fraction > 0.5 then whole + 1
      else if whole % 2 == 0 then whole
      else whole + 1;
    hundredths as real / 100.0
  }

  /** The price cell written for a fetched price. */
  function PriceCell(price: real): Cell {
    Cell(Number(Round2(price)), PRICE_FORMAT)
  }

  /** The date cell written for the run date. */
  function DateCell(today: Date): Cell {
    Cell(Day(today), DATE_FORMAT)
  }

  /** What the scan makes of one row below the header. */
  function ScanRow(row: Row, gold: real, silver: real, today: Date): (r: Row)
    ensures r.name == row.name && r.beyond == row.beyond
    ensures r != row ==> MetalOf(row.name.value) != Neither
    ensures MetalOf(row.name.value) != Neither ==> r.date == DateCell(today)
    ensures MetalOf(row.name.value) == Gold ==> r.price == PriceCell(gold)
    ensures MetalOf(row.name.value) == Silver ==> r.price == PriceCell(silver)
  {
    match MetalOf(row.name.value)
    case Gold => row.(price := PriceCell(gold), date := DateCell(today))
    case Silver => row.(price := PriceCell(silver), date := DateCell(today))
    case Neither => row
  }

  /**
   * The sheet after the scan.  The header row, every label and every column past
   * the third are kept; every gold row and every silver row below the header gets
   * its price and date; no other row changes.
   */
  function Scanned(rows: seq<Row>, gold: real, silver: real, today: Date): (r: seq<Row>)
    ensures |r| == |rows|
    ensures |rows| > 0 ==> r[0] == rows[0]
    ensures forall k :: 0 <= k < |rows| ==> r[k].name == rows[k].name && r[k].beyond == rows[k].beyond
    ensures forall k :: 1 <= k < |rows| && MetalOf(rows[k].name.value) == Gold ==>
      r[k].price == PriceCell(gold) && r[k].date == DateCell(today)
    ensures forall k :: 1 <= k < |rows| && MetalOf(rows[k].name.value) == Silver ==>
      r[k].price == PriceCell(silver) && r[k].date == DateCell(today)
    ensures forall k :: 0 <= k < |rows| && r[k] != rows[k] ==>
      1 <= k && MetalOf(rows[k].name.value) != Neither
  {
    seq(|rows|, k requires 0 <= k < |rows| => if k == 0 then rows[k] else ScanRow(rows[k], gold, silver, today))
  }

  /** A worksheet whose rows are updated in place; `rows[0]` is spreadsheet row 1, the header. */
  class Sheet {
    var rows: array<Row>

    constructor (contents: seq<Row>)
      ensures fresh(rows) && rows[..] == contents
    {
      rows := new Row[|contents|](k requires 0 <= k < |contents| => contents[k]);
    }

    /** The loop over `iter_rows(min_row=2, max_col=3)`. */
    method Scan(gold: real, silver: real, today: Date)
      modifies rows
      ensures rows[..] == Scanned(old(rows[..]), gold, silver, today)
    {
      var i := 1;
      while i < rows.Length
        invariant 1 <= i
        invariant rows.Length > 0 ==> i <= rows.Length
        invariant forall k :: 0 <= k < rows.Length ==>
          rows[k] == if 1 <= k < i then ScanRow(old(rows[k]), gold, silver, today) else old(rows[k])
      {
        var row := rows[i];
        if !Truthy(row.name.value) {
          i := i + 1;
          continue;
        }
        var text := Display(row.name.value);
        var metal := if text.Some? then Normalised(text.value) else "";
        if metal == "gold" {
          rows[i] := row.(price := PriceCell(gold), date := DateCell(today));
        } else if metal == "silver" {
          rows[i] := row.(price := PriceCell(silver), date := DateCell(today));
        }
        i := i + 1;
      }
    }
  }

  /** Running the scan a second time with the same prices and date changes nothing. */
  lemma ScanIdempotent(rows: seq<Row>, gold: real, silver: real, today: Date)
    ensures Scanned(Scanned(rows, gold, silver, today), gold, silver, today) == Scanned(rows, gold, silver, today)
  {
  }

  /** A label of whitespace only never matches, so its row is left exactly as it was. */
  lemma WhitespaceLabelUntouched(rows: seq<Row>, k: int, gold: real, silver: real, today: Date)
    requires 0 <= k < |rows| && rows[k].name.value.Text? && Strings.AllSpace(rows[k].name.value.s)
    ensures Scanned(rows, gold, silver, today)[k] == rows[k]
  {
    Strings.AllSpaceStripsToEmpty(rows[k].name.value.s);
  }

  /** Whitespace around a label is dropped before it is compared. */
  lemma NormalisedIgnoresPadding(pre: string, word: string, post: string)
    requires Strings.AllSpace(pre) && Strings.AllSpace(post)
    ensures Normalised(pre + word + post) == Normalised(word)
  {
    Strings.StripIgnoresPadding(pre, word, post);
  }

  /**
   * A boolean label, as `str` renders it, never selects a price.  This is a fact
   * about the two renderings "True" and "False" only; `MetalOf` uses it to show
   * that only text labels can match.
   */
  lemma BooleanLabelsNeverMatch()
    ensures Normalised("True") == "true" && Normalised("False") == "false"
  {
  }

  /**
   * A text label selects gold exactly when it reads "gold" once stripped and
   * lower-cased, and silver exactly when it reads "silver".
   */
  lemma MetalOfText(s: string)
    ensures MetalOf(Text(s)) == Gold <==> Normalised(s) == "gold"
    ensures MetalOf(Text(s)) == Silver <==> Normalised(s) == "silver"
  {
  }

  /** Two labels that normalise alike select the same price. */
  lemma SameNormalisedSameMetal(a: string, b: string)
    requires Normalised(a) == Normalised(b)
    ensures MetalOf(Text(a)) == MetalOf(Text(b))
  {
  }

  /** Whitespace around a label does not change which price its row receives. */
  lemma MetalIgnoresPadding(pre: string, word: string, post: string)
    requires Strings.AllSpace(pre) && Strings.AllSpace(post)
    ensures MetalOf(Text(pre + word + post)) == MetalOf(Text(word))
  {
    var padded := pre + word + post;
    if word == [] {
      assert padded == pre + post;
      assert Strings.AllSpace(padded);
      Strings.AllSpaceStripsToEmpty(padded);
    } else {
      NormalisedIgnoresPadding(pre, word, post);
      SameNormalisedSameMetal(padded, word);
    }
  }
}
