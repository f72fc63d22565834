/**
 * The spreadsheet reshaper `load_long`: it reads the wide `Export.xlsx` sheet,
 * whose rows are (Typ, Kod, [Nazwa], Brygada, day 1, day 2, ...), and returns the
 * long records (Typ, Kod, Nazwa, Brygada, Dzien, Wartosc), one per non-empty
 * cell of a day column. Any failure gives the empty table.
 *
 * The workbook arrives already parsed: a sheet is a row of column labels and
 * rows of nullable cells, as pandas hands them over.
 */
module Reshaper {
  import opened Wrappers
  import opened Strings

  /** A non-null cell: a number or a piece of text. */
  datatype Cell = Number(n: int) | Str(s: string)

  /**
   * A column label as pandas reports it. `Unnamed` is the "Unnamed: k"
   * placeholder that pandas invents for a blank header cell.
   */
  datatype Header = Unnamed | IntHeader(n: int) | TextHeader(s: string)

  /** One row of a sheet; `None` is an empty (NaN) cell. */
  type Row = seq<Option<Cell>>

  datatype Table = Table(headers: seq<Header>, rows: seq<Row>)

  datatype Sheet = Sheet(name: string, table: Table)

  /** `Export.xlsx`: absent, present but unreadable, or a workbook of sheets in file order. */
  datatype SourceFile = Missing | Unreadable | Workbook(sheets: seq<Sheet>)

  /** One row of the long table. */
  datatype LongRecord = LongRecord(typ: string, kod: string, nazwa: string, brygada: string, dzien: int, wartosc: int)

  /** The two positional layouts of the id columns. */
  datatype Layout = ThreeIds | FourIds {
    /** Typ, Kod, Brygada; or Typ, Kod, Nazwa, Brygada. */
    function FirstDayColumn(): nat { if ThreeIds? then 3 else 4 }
    function BrygadaColumn(): nat { if ThreeIds? then 2 else 3 }
  }

  /** A kept day column: its position in the sheet and the day its label names. */
  datatype DayColumn = DayColumn(index: nat, day: int)

  /** A record as `pd.melt` and `dropna` leave it, before the `astype` conversions. */
  datatype Melted = Melted(typ: Option<Cell>, kod: Option<Cell>, nazwa: Option<Cell>, brygada: Option<Cell>,
                           dzien: int, wartosc: Cell)

  /** The cell of `row` in column `j`; a row shorter than the sheet reads as empty there. */
  function At(row: Row, j: nat): Option<Cell> {
    if j < |row| then row[j] else None
  }

  // ---------------------------------------------------------------- sheet choice

  /** The first sheet called `name`, as `pd.read_excel(sheet_name=name)` finds it. */
  function FindSheet(sheets: seq<Sheet>, name: string): (r: Option<Table>)
    ensures r.None? <==> forall k :: 0 <= k < |sheets| ==> sheets[k].name != name
    ensures r.Some? ==> exists k :: 0 <= k < |sheets| && sheets[k].name == name && sheets[k].table == r.value
                                    && forall k' :: 0 <= k' < k ==> sheets[k'].name != name
  {
    if sheets == [] then None
    else if sheets[0].name == name then Some(sheets[0].table)
    else
      var r := FindSheet(sheets[1..], name);
      assert forall k :: 1 <= k < |sheets| ==> sheets[k] == sheets[1..][k - 1];
      r
  }

  predicate HasSheet(sheets: seq<Sheet>, name: string) {
    exists k :: 0 <= k < |sheets| && sheets[k].name == name
  }

  /** Sheet "Eksport" if there is one, else "Export", else the first sheet; a workbook without sheets fails. */
  function ChooseSheet(sheets: seq<Sheet>): (r: Option<Table>)
    ensures r.None? <==> sheets == []
    ensures r.Some? ==> exists k :: 0 <= k < |sheets| && sheets[k].table == r.value &&
                          (if HasSheet(sheets, "Eksport") then sheets[k].name == "Eksport"
                           else if HasSheet(sheets, "Export") then sheets[k].name == "Export"
                           else k == 0)
  {
    var eksport := FindSheet(sheets, "Eksport");
    if eksport.Some? then eksport
    else
      var english := FindSheet(sheets, "Export");
      if english.Some? then english
      else if sheets == [] then None
      else Some(sheets[0].table)
  }

  // ---------------------------------------------------------------- layout

  /** `str(df.columns[0]).startswith('Unnamed')`. */
  predicate StartsUnnamed(h: Header) {
    h.Unnamed? || (h.TextHeader? && "Unnamed" <= h.s)
  }

  /** Only a label that pandas invented, or one spelled "Unnamed...", marks a sheet without headers. */
  lemma StartsUnnamedCases(n: int, rest: string)
    ensures StartsUnnamed(Unnamed) && StartsUnnamed(TextHeader("Unnamed: " + rest))
    ensures !StartsUnnamed(IntHeader(n)) && !StartsUnnamed(TextHeader("Typ"))
  {
    assert ("Unnamed: " + rest)[..7] == "Unnamed";
    assert "Typ"[0] != "Unnamed"[0];
  }

  /**
   * The layout the reshaper picks from the first label and the column count.
   * `None` stands for the exceptions pandas raises when the sheet has no column
   * or fewer columns than the layout's id names (the length-mismatch error of
   * `df.columns = [...]`).
   */
  function DetectLayout(headers: seq<Header>): (r: Option<Layout>)
    ensures r == Some(FourIds) <==> |headers| >= 4 && !StartsUnnamed(headers[0])
    ensures r == Some(ThreeIds) <==>
              |headers| >= 3 && (StartsUnnamed(headers[0]) || (|headers| == 3 && TextHeader("Nazwa") !in headers))
    ensures r.Some? ==> |headers| >= r.value.FirstDayColumn() - 1
  {
    if |headers| == 0 then None
    else if StartsUnnamed(headers[0]) then (if |headers| >= 3 then Some(ThreeIds) else None)
    else if TextHeader("Nazwa") in headers || |headers| >= 4 then (if |headers| >= 4 then Some(FourIds) else None)
    else if |headers| >= 3 then Some(ThreeIds)
    else None
  }

  // ---------------------------------------------------------------- day columns

  /**
   * The day a label names once the reshaper has converted it: an integer label
   * is kept as it is, a text label only when `isdigit` holds and then as `int(s)`;
   * any other label is dropped.
   */
  function HeaderDay(h: Header): Option<int> {
    match h
    case IntHeader(n) => Some(n)
    case TextHeader(s) => if IsDigits(s) then Some(DigitsValue(s)) else None
    case Unnamed => None
  }

  /** The label survives as a melt value column: it converts to a day in 1..31. */
  predicate IsDayHeader(h: Header) {
    HeaderDay(h).Some? && 1 <= HeaderDay(h).value <= 31
  }

  /**
   * `int(col)` on a label: an integer label is its own day, a label printed from a
   * number reads back as that number, and the placeholder or a word is no day.
   */
  lemma HeaderDayCases(n: int, d: nat)
    ensures HeaderDay(IntHeader(n)) == Some(n)
    ensures HeaderDay(TextHeader(NatToString(d))) == Some(d)
    ensures HeaderDay(Unnamed) == None && HeaderDay(TextHeader("Nazwa")) == None
    ensures IsDayHeader(IntHeader(n)) <==> 1 <= n <= 31
    ensures IsDayHeader(TextHeader(NatToString(d))) <==> 1 <= d <= 31
  {
    NatToStringRoundTrip(d);
    assert !IsDigits("Nazwa") by { assert !('0' <= "Nazwa"[0] <= '9'); }
  }

  /** The day columns the reshaper keeps, from position `first` on, in sheet order. */
  function DayColumns(headers: seq<Header>, first: nat): (cols: seq<DayColumn>)
    ensures forall c :: c in cols <==>
              first <= c.index < |headers| && HeaderDay(headers[c.index]) == Some(c.day) && 1 <= c.day <= 31
    ensures forall i, j :: 0 <= i < j < |cols| ==> cols[i].index < cols[j].index
    decreases |headers|
  {
    if |headers| <= first then []
    else
      var j := |headers| - 1;
      var cols := DayColumns(headers[..j], first);
      assert forall k :: 0 <= k < j ==> headers[..j][k] == headers[k];
      if IsDayHeader(headers[j]) then cols + [DayColumn(j, HeaderDay(headers[j]).value)] else cols
  }

  /**
   * The loops that collect `day_cols`, select `valid_cols` and rename them to
   * integers, followed by the `value_vars` filter, done as one pass.
   */
  method SelectDayColumns(headers: seq<Header>, first: nat) returns (cols: seq<DayColumn>)
    ensures cols == DayColumns(headers, first)
    ensures forall k :: 0 <= k < |cols| ==> first <= cols[k].index < |headers| && 1 <= cols[k].day <= 31
  {
    cols := [];
    if |headers| <= first {
      return;
    }
    var j := first;
    while j < |headers|
      invariant first <= j <= |headers|
      invariant cols == DayColumns(headers[..j], first)
    {
      assert headers[..j + 1][..j] == headers[..j];
      match HeaderDay(headers[j]) {
        case Some(d) =>
          if 1 <= d <= 31 {
            cols := cols + [DayColumn(j, d)];
          }
        case None =>
      }
      j := j + 1;
    }
    assert headers[..j] == headers;
  }

  // ---------------------------------------------------------------- unpivot

  /** The melted record of `row` under day column `c` (the cell must be non-null). */
  function MeltedOf(l: Layout, row: Row, c: DayColumn): Melted
    requires At(row, c.index).Some?
  {
    Melted(At(row, 0), At(row, 1), if l.FourIds? then At(row, 2) else Some(Str("")),
           At(row, l.BrygadaColumn()), c.day, At(row, c.index).value)
  }

  /** What `melt` followed by `dropna` keeps of one cell: its record, or nothing when the cell is empty. */
  function Emit(l: Layout, row: Row, c: DayColumn): seq<Melted> {
    if At(row, c.index).Some? then [MeltedOf(l, row, c)] else []
  }

  /** One day column melted: every row in order. */
  function MeltColumn(l: Layout, rows: seq<Row>, c: DayColumn): seq<Melted>
    decreases |rows|
  {
    if rows == [] then [] else MeltColumn(l, rows[..|rows| - 1], c) + Emit(l, rows[|rows| - 1], c)
  }

  /** `pd.melt` then `dropna`: column-major, each day column in order, each row in order. */
  function Melt(l: Layout, rows: seq<Row>, cols: seq<DayColumn>): seq<Melted>
    decreases |cols|
  {
    if cols == [] then [] else Melt(l, rows, cols[..|cols| - 1]) + MeltColumn(l, rows, cols[|cols| - 1])
  }

  /** The unpivot of one row across every kept day column. */
  function RowCells(l: Layout, row: Row, cols: seq<DayColumn>): seq<Melted>
    decreases |cols|
  {
    if cols == [] then [] else RowCells(l, row, cols[..|cols| - 1]) + Emit(l, row, cols[|cols| - 1])
  }

  /** A row-major reference unpivot: each row in order, each day column in order. */
  function RowMajor(l: Layout, rows: seq<Row>, cols: seq<DayColumn>): seq<Melted>
    decreases |rows|
  {
    if rows == [] then [] else RowMajor(l, rows[..|rows| - 1], cols) + RowCells(l, rows[|rows| - 1], cols)
  }

  /** The number of non-null cells of `row` in the kept day columns. */
  function RowCount(row: Row, cols: seq<DayColumn>): nat
    decreases |cols|
  {
    if cols == [] then 0
    else RowCount(row, cols[..|cols| - 1]) + (if At(row, cols[|cols| - 1].index).Some? then 1 else 0)
  }

  /** The number of non-null cells in the kept day columns of all rows. */
  function NonNullCount(rows: seq<Row>, cols: seq<DayColumn>): nat
    decreases |rows|
  {
    if rows == [] then 0 else NonNullCount(rows[..|rows| - 1], cols) + RowCount(rows[|rows| - 1], cols)
  }

  /** The melt, as nested loops over the kept day columns and then the rows. */
  method MeltTable(l: Layout, rows: seq<Row>, cols: seq<DayColumn>) returns (ms: seq<Melted>)
    ensures ms == Melt(l, rows, cols)
  {
    ms := [];
    var k := 0;
    while k < |cols|
      invariant 0 <= k <= |cols|
      invariant ms == Melt(l, rows, cols[..k])
    {
      var c := cols[k];
      ghost var before := ms;
      var i := 0;
      while i < |rows|
        invariant 0 <= i <= |rows|
        invariant ms == before + MeltColumn(l, rows[..i], c)
      {
        assert rows[..i + 1][..i] == rows[..i];
        assert MeltColumn(l, rows[..i + 1], c) == MeltColumn(l, rows[..i], c) + Emit(l, rows[i], c);
        if At(rows[i], c.index).Some? {
          ms := ms + [MeltedOf(l, rows[i], c)];
        }
        i := i + 1;
      }
      assert rows[..i] == rows;
      assert cols[..k + 1][..k] == cols[..k];
      assert Melt(l, rows, cols[..k + 1]) == Melt(l, rows, cols[..k]) + MeltColumn(l, rows, c);
      k := k + 1;
    }
    assert cols[..k] == cols;
  }

  // ---------------------------------------------------------------- conversion

  /** `astype(float)` of a value cell: a number, or text made of decimal digits; anything else raises. */
  function CellNumber(c: Cell): Option<int> {
    match c
    case Number(n) => Some(n)
    case Str(s) => if IsDigits(s) then Some(DigitsValue(s)) else None
  }

  /** `astype(str)` of an id cell; an empty cell prints as "nan". */
  function Stringify(c: Option<Cell>): string {
    match c
    case None => "nan"
    case Some(Number(n)) => IntToString(n)
    case Some(Str(s)) => s
  }

  /**
   * What the value conversion accepts: a number as it is, a digit string as its
   * decimal value; "nan" (an empty id cell printed) and the empty string fail.
   */
  lemma CellNumberCases(n: int, d: nat)
    ensures CellNumber(Number(n)) == Some(n)
    ensures CellNumber(Str(NatToString(d))) == Some(d)
    ensures CellNumber(Str(Stringify(None))) == None && CellNumber(Str("")) == None
  {
    NatToStringRoundTrip(d);
    assert !IsDigits("nan") by { assert !('0' <= "nan"[0] <= '9'); }
  }

  /** A natural number printed by `astype(str)` converts back to itself; a negative one prints with a sign. */
  lemma StringifyRoundTrip(d: nat)
    ensures CellNumber(Str(Stringify(Some(Number(d))))) == Some(d)
    ensures d > 0 ==> Stringify(Some(Number(-(d as int)))) == "-" + Stringify(Some(Number(d)))
  {
    NatToStringRoundTrip(d);
  }

  function ToRecord(m: Melted, v: int): LongRecord {
    LongRecord(Stringify(m.typ), Stringify(m.kod), Stringify(m.nazwa), Stringify(m.brygada), m.dzien, v)
  }

  /** The `astype` conversions of the whole long table; one unconvertible value fails them all. */
  function Convert(ms: seq<Melted>): (r: Option<seq<LongRecord>>)
    ensures r.Some? <==> forall k :: 0 <= k < |ms| ==> CellNumber(ms[k].wartosc).Some?
    ensures r.Some? ==> |r.value| == |ms|
    ensures r.Some? ==> forall k :: 0 <= k < |ms| ==> r.value[k] == ToRecord(ms[k], CellNumber(ms[k].wartosc).value)
    decreases |ms|
  {
    if ms == [] then Some([])
    else
      var rest := Convert(ms[..|ms| - 1]);
      var m := ms[|ms| - 1];
      assert forall k :: 0 <= k < |ms| - 1 ==> ms[..|ms| - 1][k] == ms[k];
      match CellNumber(m.wartosc)
      case None => None
      case Some(v) => if rest.Some? then Some(rest.value + [ToRecord(m, v)]) else None
  }

  // ---------------------------------------------------------------- the whole reshaper

  /** The long table of one sheet, or [] when any step raises. */
  function ReshapeTable(t: Table): seq<LongRecord> {
    match DetectLayout(t.headers)
    case None => []
    case Some(l) =>
      match Convert(Melt(l, t.rows, DayColumns(t.headers, l.FirstDayColumn())))
      case None => []
      case Some(records) => records
  }

  /** `load_long`: the long table of the chosen sheet; a missing or unreadable file gives []. */
  function Reshape(src: SourceFile): seq<LongRecord> {
    match src
    case Missing => []
    case Unreadable => []
    case Workbook(sheets) =>
      match ChooseSheet(sheets)
      case None => []
      case Some(t) => ReshapeTable(t)
  }

  /** `load_long` as the source runs it, step by step. */
  method LoadLong(src: SourceFile) returns (records: seq<LongRecord>)
    ensures records == Reshape(src)
    ensures src.Missing? || src.Unreadable? ==> records == []
    ensures forall k :: 0 <= k < |records| ==> 1 <= records[k].dzien <= 31
  {
    ReshapeDaysInRange(src);
    if !src.Workbook? {
      return [];
    }
    var sheet := ChooseSheet(src.sheets);
    if sheet.None? {
      return [];
    }
    var t := sheet.value;
    var layout := DetectLayout(t.headers);
    if layout.None? {
      return [];
    }
    var l := layout.value;
    var cols := SelectDayColumns(t.headers, l.FirstDayColumn());
    var melted := MeltTable(l, t.rows, cols);
    var converted := Convert(melted);
    if converted.None? {
      return [];
    }
    records := converted.value;
  }

  // ---------------------------------------------------------------- properties

  /** The expected long record for the non-null cell of row `row` in column `j`, whose label names `day`. */
  function RecordAt(l: Layout, row: Row, day: int, v: int): LongRecord {
    LongRecord(Stringify(At(row, 0)), Stringify(At(row, 1)), if l.FourIds? then Stringify(At(row, 2)) else "",
               Stringify(At(row, l.BrygadaColumn())), day, v)
  }

  /** A cell the reshaper unpivots: in range, under a kept day label, and non-null. */
  predicate KeptCell(t: Table, l: Layout, i: int, j: int) {
    0 <= i < |t.rows| && l.FirstDayColumn() <= j < |t.headers| && IsDayHeader(t.headers[j])
    && At(t.rows[i], j).Some?
  }

  /** Every kept non-null cell converts, so `astype(float)` does not raise. */
  ghost predicate AllNumeric(t: Table, l: Layout) {
    forall i, j :: KeptCell(t, l, i, j) ==> CellNumber(At(t.rows[i], j).value).Some?
  }

  /** A melted record is exactly the record of some kept non-null cell, and each such cell yields one. */
  lemma MeltMembership(l: Layout, rows: seq<Row>, cols: seq<DayColumn>, m: Melted)
    ensures m in Melt(l, rows, cols) <==>
              exists i, k :: 0 <= i < |rows| && 0 <= k < |cols| && At(rows[i], cols[k].index).Some?
                             && m == MeltedOf(l, rows[i], cols[k])
  {
    if m in Melt(l, rows, cols) {
      MeltedHasSource(l, rows, cols, m);
    }
    forall i, k | 0 <= i < |rows| && 0 <= k < |cols| && At(rows[i], cols[k].index).Some?
      ensures MeltedOf(l, rows[i], cols[k]) in Melt(l, rows, cols)
    {
      CellIsMelted(l, rows, cols, i, k);
    }
  }

  lemma {:induction false} MeltedHasSource(l: Layout, rows: seq<Row>, cols: seq<DayColumn>, m: Melted)
    requires m in Melt(l, rows, cols)
    ensures exists i, k :: 0 <= i < |rows| && 0 <= k < |cols| && At(rows[i], cols[k].index).Some?
                           && m == MeltedOf(l, rows[i], cols[k])
    decreases |cols|
  {
    var n := |cols| - 1;
    if m in Melt(l, rows, cols[..n]) {
      MeltedHasSource(l, rows, cols[..n], m);
      var i, k :| 0 <= i < |rows| && 0 <= k < n && At(rows[i], cols[..n][k].index).Some?
                  && m == MeltedOf(l, rows[i], cols[..n][k]);
      assert cols[..n][k] == cols[k];
    } else {
      MeltColumnMembership(l, rows, cols[n], m);
      var i :| 0 <= i < |rows| && At(rows[i], cols[n].index).Some? && m == MeltedOf(l, rows[i], cols[n]);
    }
  }

  lemma {:induction false} CellIsMelted(l: Layout, rows: seq<Row>, cols: seq<DayColumn>, i: int, k: int)
    requires 0 <= i < |rows| && 0 <= k < |cols| && At(rows[i], cols[k].index).Some?
    ensures MeltedOf(l, rows[i], cols[k]) in Melt(l, rows, cols)
    decreases |cols|
  {
    var n := |cols| - 1;
    if k < n {
      assert cols[..n][k] == cols[k];
      CellIsMelted(l, rows, cols[..n], i, k);
    } else {
      MeltColumnMembership(l, rows, cols[n], MeltedOf(l, rows[i], cols[k]));
    }
  }

  lemma {:induction false} MeltColumnMembership(l: Layout, rows: seq<Row>, c: DayColumn, m: Melted)
    ensures m in MeltColumn(l, rows, c) <==>
              exists i :: 0 <= i < |rows| && At(rows[i], c.index).Some? && m == MeltedOf(l, rows[i], c)
    decreases |rows|
  {
    if rows != [] {
      var n := |rows| - 1;
      MeltColumnMembership(l, rows[..n], c, m);
      assert forall i :: 0 <= i < n ==> rows[..n][i] == rows[i];
    }
  }

  /** Column `c` split off the end of the row-major unpivot: the same multiset as column-major. */
  lemma {:induction false} RowMajorSplitLast(l: Layout, rows: seq<Row>, cols: seq<DayColumn>, c: DayColumn)
    ensures multiset(RowMajor(l, rows, cols + [c])) == multiset(RowMajor(l, rows, cols)) + multiset(MeltColumn(l, rows, c))
    decreases |rows|
  {
    if rows != [] {
      var n := |rows| - 1;
      RowMajorSplitLast(l, rows[..n], cols, c);
      assert (cols + [c])[..|cols|] == cols;
    }
  }

  /**
   * The column-major melt holds the same records, with the same multiplicities,
   * as the row-major reference: one record per (row, kept day column) pair with
   * a non-null cell, whatever the order.
   */
  lemma {:induction false} MeltPermutesRowMajor(l: Layout, rows: seq<Row>, cols: seq<DayColumn>)
    ensures multiset(Melt(l, rows, cols)) == multiset(RowMajor(l, rows, cols))
    decreases |cols|
  {
    if cols == [] {
      RowMajorOfNoColumns(l, rows);
    } else {
      var n := |cols| - 1;
      MeltPermutesRowMajor(l, rows, cols[..n]);
      RowMajorSplitLast(l, rows, cols[..n], cols[n]);
      assert cols[..n] + [cols[n]] == cols;
    }
  }

  lemma {:induction false} RowMajorOfNoColumns(l: Layout, rows: seq<Row>)
    ensures RowMajor(l, rows, []) == []
    decreases |rows|
  {
    if rows != [] {
      RowMajorOfNoColumns(l, rows[..|rows| - 1]);
    }
  }

  /** The row-major reference has one record per non-null kept cell. */
  lemma {:induction false} RowMajorLength(l: Layout, rows: seq<Row>, cols: seq<DayColumn>)
    ensures |RowMajor(l, rows, cols)| == NonNullCount(rows, cols)
    decreases |rows|
  {
    if rows != [] {
      RowMajorLength(l, rows[..|rows| - 1], cols);
      RowCellsLength(l, rows[|rows| - 1], cols);
    }
  }

  lemma {:induction false} RowCellsLength(l: Layout, row: Row, cols: seq<DayColumn>)
    ensures |RowCells(l, row, cols)| == RowCount(row, cols)
    decreases |cols|
  {
    if cols != [] {
      RowCellsLength(l, row, cols[..|cols| - 1]);
    }
  }

  /** Every record's day is an integer in 1..31. */
  lemma ReshapeDaysInRange(src: SourceFile)
    ensures forall r :: r in Reshape(src) ==> 1 <= r.dzien <= 31
  {
    if src.Workbook? && ChooseSheet(src.sheets).Some? {
      var t := ChooseSheet(src.sheets).value;
      forall r | r in ReshapeTable(t) ensures 1 <= r.dzien <= 31 {
        var l := DetectLayout(t.headers).value;
        ReshapeProvenance(t, l, r);
      }
    }
  }

  /**
   * Every long record comes from one kept non-null cell: it carries that row's
   * id fields (stringified; Nazwa blank in the three-id layout), the day the
   * column's label names, and the cell's value.
   */
  lemma ReshapeProvenance(t: Table, l: Layout, r: LongRecord)
    requires DetectLayout(t.headers) == Some(l)
    requires r in ReshapeTable(t)
    ensures exists i, j :: KeptCell(t, l, i, j) && HeaderDay(t.headers[j]) == Some(r.dzien)
                           && CellNumber(At(t.rows[i], j).value) == Some(r.wartosc)
                           && r == RecordAt(l, t.rows[i], r.dzien, r.wartosc)
  {
    var ms := Melt(l, t.rows, DayColumns(t.headers, l.FirstDayColumn()));
    var records := Convert(ms).value;
    var p :| 0 <= p < |records| && records[p] == r;
    MeltedSource(t, l, ms[p]);
    var i, j :| KeptCell(t, l, i, j) && HeaderDay(t.headers[j]).Some?
                && ms[p] == MeltedOf(l, t.rows[i], DayColumn(j, HeaderDay(t.headers[j]).value));
    RecordOfMelted(l, t.rows[i], DayColumn(j, HeaderDay(t.headers[j]).value), r.wartosc);
  }

  /** Every melted record comes from a kept non-null cell. */
  lemma MeltedSource(t: Table, l: Layout, m: Melted)
    requires DetectLayout(t.headers) == Some(l)
    requires m in Melt(l, t.rows, DayColumns(t.headers, l.FirstDayColumn()))
    ensures exists i, j :: KeptCell(t, l, i, j) && HeaderDay(t.headers[j]).Some?
                           && m == MeltedOf(l, t.rows[i], DayColumn(j, HeaderDay(t.headers[j]).value))
  {
    var cols := DayColumns(t.headers, l.FirstDayColumn());
    MeltMembership(l, t.rows, cols, m);
    var i, k :| 0 <= i < |t.rows| && 0 <= k < |cols| && At(t.rows[i], cols[k].index).Some?
                && m == MeltedOf(l, t.rows[i], cols[k]);
    assert cols[k] in cols;
    assert KeptCell(t, l, i, cols[k].index);
  }

  /** Converting a melted cell gives the record of its row and day. */
  lemma RecordOfMelted(l: Layout, row: Row, c: DayColumn, v: int)
    requires At(row, c.index).Some?
    ensures ToRecord(MeltedOf(l, row, c), v) == RecordAt(l, row, c.day, v)
  {
    assert Stringify(Some(Str(""))) == "";
  }

  /** When every kept cell converts, every kept non-null cell appears in the output as its record. */
  lemma ReshapeCompleteness(t: Table, l: Layout, i: int, j: int)
    requires DetectLayout(t.headers) == Some(l)
    requires AllNumeric(t, l)
    requires KeptCell(t, l, i, j)
    ensures RecordAt(l, t.rows[i], HeaderDay(t.headers[j]).value, CellNumber(At(t.rows[i], j).value).value)
              in ReshapeTable(t)
  {
    ConvertSucceeds(t, l);
    KeptCellMelted(t, l, i, j);
    var m := MeltedOf(l, t.rows[i], DayColumn(j, HeaderDay(t.headers[j]).value));
    ConvertedMember(Melt(l, t.rows, DayColumns(t.headers, l.FirstDayColumn())), m);
  }

  /** The melted record of a kept non-null cell is in the melt. */
  lemma KeptCellMelted(t: Table, l: Layout, i: int, j: int)
    requires KeptCell(t, l, i, j)
    ensures MeltedOf(l, t.rows[i], DayColumn(j, HeaderDay(t.headers[j]).value))
              in Melt(l, t.rows, DayColumns(t.headers, l.FirstDayColumn()))
  {
    var cols := DayColumns(t.headers, l.FirstDayColumn());
    var c := DayColumn(j, HeaderDay(t.headers[j]).value);
    assert c in cols;
    var k :| 0 <= k < |cols| && cols[k] == c;
    MeltMembership(l, t.rows, cols, MeltedOf(l, t.rows[i], c));
  }

  /** A melted record that is in a successful conversion's input has its converted record in the output. */
  lemma ConvertedMember(ms: seq<Melted>, m: Melted)
    requires m in ms && Convert(ms).Some?
    ensures ToRecord(m, CellNumber(m.wartosc).value) in Convert(ms).value
  {
    var p :| 0 <= p < |ms| && ms[p] == m;
    assert Convert(ms).value[p] == ToRecord(m, CellNumber(m.wartosc).value);
  }

  /** When every kept cell converts, the `astype` step does not raise. */
  lemma ConvertSucceeds(t: Table, l: Layout)
    requires DetectLayout(t.headers) == Some(l)
    requires AllNumeric(t, l)
    ensures Convert(Melt(l, t.rows, DayColumns(t.headers, l.FirstDayColumn()))).Some?
  {
    var cols := DayColumns(t.headers, l.FirstDayColumn());
    var ms := Melt(l, t.rows, cols);
    forall p | 0 <= p < |ms| ensures CellNumber(ms[p].wartosc).Some? {
      MeltedConverts(t, l, ms[p]);
    }
  }

  /** Under `AllNumeric`, each melted record's value converts. */
  lemma MeltedConverts(t: Table, l: Layout, m: Melted)
    requires DetectLayout(t.headers) == Some(l)
    requires AllNumeric(t, l)
    requires m in Melt(l, t.rows, DayColumns(t.headers, l.FirstDayColumn()))
    ensures CellNumber(m.wartosc).Some?
  {
    var cols := DayColumns(t.headers, l.FirstDayColumn());
    MeltMembership(l, t.rows, cols, m);
    var i, k :| 0 <= i < |t.rows| && 0 <= k < |cols| && At(t.rows[i], cols[k].index).Some?
                && m == MeltedOf(l, t.rows[i], cols[k]);
    assert cols[k] in cols;
    assert KeptCell(t, l, i, cols[k].index);
  }

  /** When every kept cell converts, there is one long record per non-null cell in the kept day columns. */
  lemma ReshapeCount(t: Table, l: Layout)
    requires DetectLayout(t.headers) == Some(l)
    requires AllNumeric(t, l)
    ensures |ReshapeTable(t)| == NonNullCount(t.rows, DayColumns(t.headers, l.FirstDayColumn()))
  {
    var cols := DayColumns(t.headers, l.FirstDayColumn());
    var ms := Melt(l, t.rows, cols);
    ConvertSucceeds(t, l);
    MeltPermutesRowMajor(l, t.rows, cols);
    assert |ms| == |multiset(ms)| == |RowMajor(l, t.rows, cols)|;
    RowMajorLength(l, t.rows, cols);
  }

  /** A single kept non-null cell that does not convert empties the whole long table. */
  lemma BadCellEmptiesTable(t: Table, l: Layout, i: int, j: int)
    requires DetectLayout(t.headers) == Some(l)
    requires KeptCell(t, l, i, j) && CellNumber(At(t.rows[i], j).value).None?
    ensures ReshapeTable(t) == []
  {
    var cols := DayColumns(t.headers, l.FirstDayColumn());
    var ms := Melt(l, t.rows, cols);
    var m := MeltedOf(l, t.rows[i], DayColumn(j, HeaderDay(t.headers[j]).value));
    KeptCellMelted(t, l, i, j);
    var p :| 0 <= p < |ms| && ms[p] == m;
    assert CellNumber(ms[p].wartosc).None?;
  }

  /** In the three-id layout every record's Nazwa is the empty string. */
  lemma ThreeIdsHaveBlankNames(t: Table)
    requires DetectLayout(t.headers) == Some(ThreeIds)
    ensures forall r :: r in ReshapeTable(t) ==> r.nazwa == ""
  {
    forall r | r in ReshapeTable(t) ensures r.nazwa == "" {
      ReshapeProvenance(t, ThreeIds, r);
    }
  }

  /** Two row lists that agree everywhere except in column `j`. */
  ghost predicate AgreeExcept(rows: seq<Row>, rows': seq<Row>, j: nat) {
    |rows| == |rows'| && forall i, k :: 0 <= i < |rows| && k != j ==> At(rows[i], k) == At(rows'[i], k)
  }

  /** The melt never looks at a column that is neither an id column nor a kept day column. */
  lemma {:induction false} MeltIgnoresColumn(l: Layout, rows: seq<Row>, rows': seq<Row>, cols: seq<DayColumn>, j: nat)
    requires AgreeExcept(rows, rows', j)
    requires j >= l.FirstDayColumn()
    requires forall c :: c in cols ==> c.index != j
    ensures Melt(l, rows, cols) == Melt(l, rows', cols)
    decreases |cols|
  {
    if cols != [] {
      var n := |cols| - 1;
      MeltIgnoresColumn(l, rows, rows', cols[..n], j);
      assert cols[n] in cols;
      MeltColumnIgnoresColumn(l, rows, rows', cols[n], j);
    }
  }

  lemma {:induction false} MeltColumnIgnoresColumn(l: Layout, rows: seq<Row>, rows': seq<Row>, c: DayColumn, j: nat)
    requires AgreeExcept(rows, rows', j)
    requires j >= l.FirstDayColumn()
    requires c.index != j
    ensures MeltColumn(l, rows, c) == MeltColumn(l, rows', c)
    decreases |rows|
  {
    if rows != [] {
      var n := |rows| - 1;
      assert AgreeExcept(rows[..n], rows'[..n], j);
      MeltColumnIgnoresColumn(l, rows[..n], rows'[..n], c, j);
      assert At(rows[n], c.index) == At(rows'[n], c.index);
      assert At(rows[n], 0) == At(rows'[n], 0) && At(rows[n], 1) == At(rows'[n], 1);
      assert At(rows[n], 2) == At(rows'[n], 2) && At(rows[n], l.BrygadaColumn()) == At(rows'[n], l.BrygadaColumn());
    }
  }

  /**
   * A column whose label is not a day 1..31 (a "Suma" column, say) contributes
   * nothing: whatever it holds, the long table is the same.
   */
  lemma NonDayColumnIgnored(t: Table, rows': seq<Row>, j: nat)
    requires DetectLayout(t.headers).Some?
    requires DetectLayout(t.headers).value.FirstDayColumn() <= j < |t.headers|
    requires !IsDayHeader(t.headers[j])
    requires AgreeExcept(t.rows, rows', j)
    ensures ReshapeTable(t) == ReshapeTable(Table(t.headers, rows'))
  {
    var l := DetectLayout(t.headers).value;
    MeltIgnoresColumn(l, t.rows, rows', DayColumns(t.headers, l.FirstDayColumn()), j);
  }

  // ---------------------------------------------------------------- worked examples

  /** With a single row, column-major and row-major order agree. */
  lemma {:induction false} MeltOfOneRow(l: Layout, row: Row, cols: seq<DayColumn>)
    ensures Melt(l, [row], cols) == RowCells(l, row, cols)
    decreases |cols|
  {
    if cols != [] {
      var c := cols[|cols| - 1];
      MeltOfOneRow(l, row, cols[..|cols| - 1]);
      assert [row][..0] == [];
      assert MeltColumn(l, [row], c) == Emit(l, row, c);
    }
  }

  /** The row both examples use: Dzienne, 1310, A, then 12, an empty cell and 7. */
  const ExampleRow: Row := [Some(Str("Dzienne")), Some(Str("1310")), Some(Str("A")), Some(Number(12)), None, Some(Number(7))]

  /** Its three cells under labels 1, 2, 3 in the three-id layout: the empty one yields nothing. */
  lemma HeaderlessRowCells()
    ensures RowCells(ThreeIds, ExampleRow, [DayColumn(3, 1), DayColumn(4, 2), DayColumn(5, 3)])
            == [Melted(Some(Str("Dzienne")), Some(Str("1310")), Some(Str("")), Some(Str("A")), 1, Number(12)),
                Melted(Some(Str("Dzienne")), Some(Str("1310")), Some(Str("")), Some(Str("A")), 3, Number(7))]
  {
    var cols := [DayColumn(3, 1), DayColumn(4, 2), DayColumn(5, 3)];
    var m1 := Melted(Some(Str("Dzienne")), Some(Str("1310")), Some(Str("")), Some(Str("A")), 1, Number(12));
    assert cols[..2][..1] == cols[..1] && cols[..1][..0] == [];
    assert RowCells(ThreeIds, ExampleRow, cols[..1]) == [m1];
    assert RowCells(ThreeIds, ExampleRow, cols[..2]) == [m1];
  }

  /** The headerless example's labels keep all three day columns. */
  lemma HeaderlessDayColumns()
    ensures DayColumns([Unnamed, TextHeader("Kod"), TextHeader("Brygada"), IntHeader(1), IntHeader(2), IntHeader(3)], 3)
            == [DayColumn(3, 1), DayColumn(4, 2), DayColumn(5, 3)]
  {
    var h := [Unnamed, TextHeader("Kod"), TextHeader("Brygada"), IntHeader(1), IntHeader(2), IntHeader(3)];
    assert h[..5][..4] == h[..4] && h[..4][..3] == h[..3];
    assert DayColumns(h[..3], 3) == [];
    assert DayColumns(h[..4], 3) == [DayColumn(3, 1)];
    assert DayColumns(h[..5], 3) == [DayColumn(3, 1), DayColumn(4, 2)];
    assert IsDayHeader(h[5]) && HeaderDay(h[5]) == Some(3);
    assert DayColumns(h, 3) == DayColumns(h[..5], 3) + [DayColumn(5, 3)];
  }

  /**
   * A sheet without a header row (the first label is a placeholder): three
   * id columns, a blank Nazwa, and one record per non-null day cell, so the
   * empty cell under day 2 yields nothing.
   */
  lemma HeaderlessSheetExample()
    ensures ReshapeTable(Table([Unnamed, TextHeader("Kod"), TextHeader("Brygada"), IntHeader(1), IntHeader(2), IntHeader(3)],
                               [ExampleRow]))
            == [LongRecord("Dzienne", "1310", "", "A", 1, 12), LongRecord("Dzienne", "1310", "", "A", 3, 7)]
  {
    var h := [Unnamed, TextHeader("Kod"), TextHeader("Brygada"), IntHeader(1), IntHeader(2), IntHeader(3)];
    assert DetectLayout(h) == Some(ThreeIds);
    var cols := [DayColumn(3, 1), DayColumn(4, 2), DayColumn(5, 3)];
    HeaderlessDayColumns();
    MeltOfOneRow(ThreeIds, ExampleRow, cols);
    HeaderlessRowCells();
    HeaderlessConvert();
  }

  /** The conversions of the headerless example's two melted cells succeed. */
  lemma HeaderlessConvert()
    ensures Convert([Melted(Some(Str("Dzienne")), Some(Str("1310")), Some(Str("")), Some(Str("A")), 1, Number(12)),
                     Melted(Some(Str("Dzienne")), Some(Str("1310")), Some(Str("")), Some(Str("A")), 3, Number(7))])
            == Some([LongRecord("Dzienne", "1310", "", "A", 1, 12), LongRecord("Dzienne", "1310", "", "A", 3, 7)])
  {
    var m1 := Melted(Some(Str("Dzienne")), Some(Str("1310")), Some(Str("")), Some(Str("A")), 1, Number(12));
    var m3 := Melted(Some(Str("Dzienne")), Some(Str("1310")), Some(Str("")), Some(Str("A")), 3, Number(7));
    var ms := [m1, m3];
    assert CellNumber(ms[0].wartosc) == Some(12) && CellNumber(ms[1].wartosc) == Some(7);
    var r := Convert(ms);
    assert r.Some?;
    assert r.value[0] == LongRecord("Dzienne", "1310", "", "A", 1, 12);
    assert r.value[1] == LongRecord("Dzienne", "1310", "", "A", 3, 7);
    assert |r.value| == 2;
    assert r.value == [LongRecord("Dzienne", "1310", "", "A", 1, 12), LongRecord("Dzienne", "1310", "", "A", 3, 7)];
  }

  /** The same row in the four-id layout: Nazwa is "A", Brygada is 12, and only days 2 and 3 are day columns. */
  lemma HeadedRowCells()
    ensures RowCells(FourIds, ExampleRow, [DayColumn(4, 2), DayColumn(5, 3)])
            == [Melted(Some(Str("Dzienne")), Some(Str("1310")), Some(Str("A")), Some(Number(12)), 3, Number(7))]
  {
    var cols := [DayColumn(4, 2), DayColumn(5, 3)];
    assert cols[..1][..0] == [];
  }

  lemma HeadedDayColumns()
    ensures DayColumns([TextHeader("Typ"), TextHeader("Kod"), TextHeader("Brygada"), IntHeader(1), IntHeader(2), IntHeader(3)], 4)
            == [DayColumn(4, 2), DayColumn(5, 3)]
  {
    var h := [TextHeader("Typ"), TextHeader("Kod"), TextHeader("Brygada"), IntHeader(1), IntHeader(2), IntHeader(3)];
    assert h[..5][..4] == h[..4];
  }

  /**
   * A headed sheet of six columns without a "Nazwa" label still takes the
   * four-id layout: the third column is read as Nazwa, the fourth as Brygada,
   * and day columns start at the fifth.
   */
  lemma HeadedSheetExample()
    ensures ReshapeTable(Table([TextHeader("Typ"), TextHeader("Kod"), TextHeader("Brygada"), IntHeader(1), IntHeader(2), IntHeader(3)],
                               [ExampleRow]))
            == [LongRecord("Dzienne", "1310", "A", "12", 3, 7)]
  {
    var h := [TextHeader("Typ"), TextHeader("Kod"), TextHeader("Brygada"), IntHeader(1), IntHeader(2), IntHeader(3)];
    assert !StartsUnnamed(h[0]) by {
      assert "Typ"[0] != "Unnamed"[0];
    }
    assert DetectLayout(h) == Some(FourIds);
    HeadedDayColumns();
    MeltOfOneRow(FourIds, ExampleRow, [DayColumn(4, 2), DayColumn(5, 3)]);
    HeadedRowCells();
    HeadedConvert();
  }

  /** The conversion of the headed example's one melted cell: the number under Brygada becomes the text "12". */
  lemma HeadedConvert()
    ensures Convert([Melted(Some(Str("Dzienne")), Some(Str("1310")), Some(Str("A")), Some(Number(12)), 3, Number(7))])
            == Some([LongRecord("Dzienne", "1310", "A", "12", 3, 7)])
  {
    var m := Melted(Some(Str("Dzienne")), Some(Str("1310")), Some(Str("A")), Some(Number(12)), 3, Number(7));
    assert IntToString(12) == "12";
    var r := Convert([m]);
    assert r.value[0] == LongRecord("Dzienne", "1310", "A", "12", 3, 7);
    assert |r.value| == 1;
    assert r.value == [LongRecord("Dzienne", "1310", "A", "12", 3, 7)];
  }
}
