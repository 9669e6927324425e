/**
 * The layout shared by the report generators: the sheet they read, the
 * month's period strings, the heading of the report sheet (rows 1 to 7) and
 * the writes that produce it.
 */
module ReportLayout {
  import opened Wrappers
  import opened Text
  import opened Lists
  import opened Dates
  import opened Sheet

  /** The sheet a generator reads: the one named `first`, else the one named `second`, else the active sheet. */
  function SourceSheet(book: seq<Worksheet>, active: nat, first: String, second: String): (i: nat)
    requires active < |book|
    ensures i < |book|
    ensures i == FirstIndex(book, Named(first))
      || (FirstIndex(book, Named(first)) == |book| && i == FirstIndex(book, Named(second)))
      || (FirstIndex(book, Named(first)) == |book| && FirstIndex(book, Named(second)) == |book| && i == active)
  {
    var w, d := FirstIndex(book, Named(first)), FirstIndex(book, Named(second));
    if w < |book| then w else if d < |book| then d else active
  }

  /** `name in wb.sheetnames`, as a test on one sheet. */
  function Named(name: String): Worksheet -> bool {
    (ws: Worksheet) => ws.title == name
  }

  /** `f"{year}-{month:02d}-01"`. */
  function PeriodStart(year: int, month: nat): String {
    IntToString(year) + "-" + Pad(month, 2) + "-01"
  }

  /** `f"{year}-{month:02d}-{last_day}"` with `last_day` from `calendar.monthrange`. */
  function PeriodEnd(year: int, month: nat): String
    requires 1 <= month <= 12
  {
    IntToString(year) + "-" + Pad(month, 2) + "-" + NatToString(DaysInMonth(year, month))
  }

  /** For a four-digit year the period strings are the first and the last day of the month, as `strptime` reads them. */
  lemma PeriodDates(year: int, month: nat)
    requires 1000 <= year <= 9999 && 1 <= month <= 12
    ensures ParseIsoDate(PeriodStart(year, month)) == Some(Date.Date(year, month, 1))
    ensures ParseIsoDate(PeriodEnd(year, month)) == Some(Date.Date(year, month, DaysInMonth(year, month)))
  {
    PeriodStartIso(year, month);
    PeriodEndIso(year, month);
    ParseIsoDateRoundTrip(Date.Date(year, month, 1));
    ParseIsoDateRoundTrip(Date.Date(year, month, DaysInMonth(year, month)));
  }

  lemma PeriodStartIso(year: int, month: nat)
    requires 1000 <= year <= 9999 && 1 <= month <= 12
    ensures PeriodStart(year, month) == IsoDate(Date.Date(year, month, 1))
  {
    assert Pow10(3) == 1000 && Pow10(4) == 10000;
    PadExact(year, 4);
    assert Pad(1, 2) == "01";
  }

  lemma PeriodEndIso(year: int, month: nat)
    requires 1000 <= year <= 9999 && 1 <= month <= 12
    ensures PeriodEnd(year, month) == IsoDate(Date.Date(year, month, DaysInMonth(year, month)))
  {
    assert Pow10(3) == 1000 && Pow10(4) == 10000 && Pow10(1) == 10 && Pow10(2) == 100;
    PadExact(year, 4);
    PadExact(DaysInMonth(year, month), 2);
  }

  /** The row of the table headers and the first data row. */
  const HeaderRowNumber: nat := 7
  const FirstDataRow: nat := 8

  /** The fixed texts of a report heading. */
  datatype Labels = Labels(title: String, subtitle: String, period: String, client: String, headers: seq<String>)

  /** Values written to consecutive columns from column A (`enumerate(values, start=1)`). */
  function Numbered(values: seq<String>): (w: map<nat, Cell>)
    ensures forall c :: c in w <==> 1 <= c <= |values|
    ensures forall c :: 1 <= c <= |values| ==> w[c] == FromString(values[c - 1])
  {
    if values == [] then map[] else Numbered(values[..|values| - 1])[|values| := FromString(values[|values| - 1])]
  }

  lemma NumberedSnoc(values: seq<String>, i: nat)
    requires i < |values|
    ensures Numbered(values[..i + 1]) == Numbered(values[..i])[i + 1 := FromString(values[i])]
  {
    PrefixOfPrefix(values, i);
  }

  /** The heading of a report, rows 1 to 7: title, subtitle, a blank row, period, client, a blank row, table headers. */
  function HeadingRows(lb: Labels, periodStart: String, periodEnd: String, client: String): (rows: seq<map<nat, Cell>>)
    ensures |rows| == HeaderRowNumber
  {
    [ map[1 := FromString(lb.title)],
      map[1 := FromString(lb.subtitle)],
      map[],
      map[1 := FromString(lb.period), 2 := FromString(periodStart + " - " + periodEnd)],
      map[1 := FromString(lb.client), 2 := FromString(client)],
      map[],
      Numbered(lb.headers) ]
  }

  function Heading(lb: Labels, periodStart: String, periodEnd: String, client: String): map<Key, Cell> {
    Rows(1, HeadingRows(lb, periodStart, periodEnd, client))
  }

  /** Every cell of the map lies in rows 1 to 7. */
  predicate Above(head: map<Key, Cell>) {
    forall k :: k in head ==> 1 <= k.0 <= HeaderRowNumber
  }

  /** The heading lies in rows 1 to 7, above the table. */
  lemma HeadingAbove(lb: Labels, periodStart: String, periodEnd: String, client: String)
    ensures Above(Heading(lb, periodStart, periodEnd, client))
  {
    var rows := HeadingRows(lb, periodStart, periodEnd, client);
    forall k | k in Heading(lb, periodStart, periodEnd, client)
      ensures 1 <= k.0 <= HeaderRowNumber
    {
      RowsAt(1, rows, k.0, k.1);
    }
  }

  /** A cell of table row `8 + i`, between a heading above and anything added below that misses it. */
  lemma TableCell(head: map<Key, Cell>, rows: seq<map<nat, Cell>>, below: map<Key, Cell>, i: nat, col: nat)
    requires i < |rows| && col in rows[i]
    requires (FirstDataRow + i, col) !in below
    ensures At(head + Rows(FirstDataRow, rows) + below, FirstDataRow + i, col) == rows[i][col]
  {
    RowsCell(FirstDataRow, rows, i, col);
    AtUnion(head + Rows(FirstDataRow, rows), below, FirstDataRow + i, col);
    AtUnion(head, Rows(FirstDataRow, rows), FirstDataRow + i, col);
  }

  /** A one-cell write, as an extension of the row by that cell. */
  method WriteCell(ws: Worksheet, row: nat, col: nat, v: Cell)
    requires ws.Valid() && row >= 1 && col >= 1
    modifies ws
    ensures ws.Valid() && ws.maxRow == Max(old(ws.maxRow), row)
    ensures ws.cells == old(ws.cells) + InRow(row, map[col := v])
  {
    SetIsInRow(ws.cells, row, col, v);
    ws.Set(row, col, v);
  }

  /** `max_row` after `i` cells of row `row` are written on a sheet whose `max_row` was `m0`. */
  function RowReach(m0: nat, row: nat, i: nat): nat {
    if i == 0 then m0 else Max(m0, row)
  }

  /** The header loop: `values[k]` goes to column `k + 1` of the row. */
  method WriteNumbered(ws: Worksheet, row: nat, values: seq<String>)
    requires ws.Valid() && row >= 1
    modifies ws
    ensures ws.Valid() && ws.maxRow == RowReach(old(ws.maxRow), row, |values|)
    ensures ws.cells == old(ws.cells) + InRow(row, Numbered(values))
  {
    ghost var before, m0 := ws.cells, ws.maxRow;
    assert before + InRow(row, Numbered(values[..0])) == before;
    var i := 0;
    while i < |values|
      invariant 0 <= i <= |values| && ws.Valid()
      invariant ws.cells == before + InRow(row, Numbered(values[..i]))
      invariant ws.maxRow == RowReach(m0, row, i)
    {
      ghost var w := ws.PutWhen(true, row, i + 1, FromString(values[i]), before, Numbered(values[..i]));
      NumberedSnoc(values, i);
      i := i + 1;
    }
    WholePrefix(values, i);
  }

  /** The two cells of a labelled heading row. */
  method WritePair(ws: Worksheet, row: nat, tag: Cell, v: Cell)
    requires ws.Valid() && row >= 1
    modifies ws
    ensures ws.Valid() && ws.maxRow == Max(old(ws.maxRow), row)
    ensures ws.cells == old(ws.cells) + InRow(row, map[1 := tag, 2 := v])
  {
    ghost var before := ws.cells;
    ghost var m: map<nat, Cell> := map[];
    assert before + InRow(row, m) == before;
    m := ws.PutWhen(true, row, 1, tag, before, m);
    m := ws.PutWhen(true, row, 2, v, before, m);
  }

  /** The heading, as the union of the rows that hold cells, written one after the other on an empty sheet. */
  lemma HeadingWritten(lb: Labels, periodStart: String, periodEnd: String, client: String)
    ensures Heading(lb, periodStart, periodEnd, client)
      == map[] + InRow(1, map[1 := FromString(lb.title)]) + InRow(2, map[1 := FromString(lb.subtitle)])
         + InRow(4, map[1 := FromString(lb.period), 2 := FromString(periodStart + " - " + periodEnd)])
         + InRow(5, map[1 := FromString(lb.client), 2 := FromString(client)])
         + InRow(HeaderRowNumber, Numbered(lb.headers))
  {
    var rows := HeadingRows(lb, periodStart, periodEnd, client);
    assert rows[..0] == [];
    RowsPrefixStep(1, rows, 0);
    RowsPrefixStep(1, rows, 1);
    RowsPrefixStep(1, rows, 2);
    InRowNothing(Rows(1, rows[..2]), 3);
    RowsPrefixStep(1, rows, 3);
    RowsPrefixStep(1, rows, 4);
    RowsPrefixStep(1, rows, 5);
    InRowNothing(Rows(1, rows[..5]), 6);
    RowsPrefixStep(1, rows, 6);
    WholePrefix(rows, 7);
  }

  /** The heading of `generate_report` on the new sheet, row after row. */
  method WriteHeading(ws: Worksheet, lb: Labels, periodStart: String, periodEnd: String, client: String)
    requires ws.Valid() && ws.cells == map[] && ws.maxRow == 1 && lb.headers != []
    modifies ws
    ensures ws.Valid() && ws.maxRow == HeaderRowNumber
    ensures ws.cells == Heading(lb, periodStart, periodEnd, client)
  {
    WriteCell(ws, 1, 1, FromString(lb.title));
    WriteCell(ws, 2, 1, FromString(lb.subtitle));
    WritePair(ws, 4, FromString(lb.period), FromString(periodStart + " - " + periodEnd));
    WritePair(ws, 5, FromString(lb.client), FromString(client));
    WriteNumbered(ws, HeaderRowNumber, lb.headers);
    HeadingWritten(lb, periodStart, periodEnd, client);
  }

  /** How `generate_monthly_report` ends. */
  datatype Outcome =
    | Raises          // `calendar.monthrange` raises for a month outside 1 to 12
    | Returns(ok: bool)
}
