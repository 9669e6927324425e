/**
 * The archived report generator (report_generator_v2.py): the works of the
 * "Работы" sheet filtered by period, status and executor, and written to a
 * new "Отчет" sheet under a heading, with the ИТОГО row one blank row below
 * the last work.
 */
module ArchivedReport {
  import opened Wrappers
  import opened Text
  import opened Lists
  import opened Dates
  import opened Sheet
  import opened ReportLayout
  import AG = ActGenerator

  // ---------------------------------------------------------------- the source sheet

  /** The columns of the source sheet. */
  const ColHide: nat := 1
  const ColAct1: nat := 2
  const ColAct2: nat := 3
  const ColAddr: nat := 4
  const ColStart: nat := 5
  const ColEnd: nat := 6
  const ColClient: nat := 7
  const ColExec: nat := 8
  const ColStatus: nat := 9
  const ColWork: nat := 10
  const ColPrice: nat := 11
  const ColDate: nat := 12
  const ColTrans: nat := 13
  const ColNote: nat := 14

  /** The sheets `load_source` looks for, in this order. */
  const WorksName: String := "Работы"
  const DataName: String := "Data"

  /** The `work_data` dict of one row. */
  datatype Entry = Entry(
    row: nat, address: String, start: Cell, end: Cell, client: Cell, executor: Cell, status: Cell,
    workName: Cell, price: Cell, reportDate: Cell, transit: Cell, note: Cell, actType: Cell, actStatus: Cell)

  function EntryOf(cells: map<Key, Cell>, row: nat): Entry {
    Entry(row, Strip(Str(At(cells, row, ColAddr))), At(cells, row, ColStart), At(cells, row, ColEnd),
      At(cells, row, ColClient), At(cells, row, ColExec), At(cells, row, ColStatus), At(cells, row, ColWork),
      At(cells, row, ColPrice), At(cells, row, ColDate), At(cells, row, ColTrans), At(cells, row, ColNote),
      At(cells, row, ColAct1), At(cells, row, ColAct2))
  }

  /**
   * The optional arguments of `extract_data`. The empty string stands for
   * `None` as well: both are falsy, and every filter is skipped when falsy.
   */
  datatype Filters = Filters(startDate: String, endDate: String, status: String, executor: String)

  /** `hide_marker and str(hide_marker).strip().lower() == 'x'`. */
  predicate Hidden(c: Cell) {
    Truthy(c) && Lower(Strip(Str(c))) == "x"
  }

  /** Not hidden, and with an address that is not blank. */
  predicate Listed(cells: map<Key, Cell>, row: nat) {
    var addr := At(cells, row, ColAddr);
    !Hidden(At(cells, row, ColHide)) && Truthy(addr) && Strip(Str(addr)) != []
  }

  /**
   * The start filter drops the row: both the work start and the period start
   * parse as `%Y-%m-%d` and the work starts earlier. A date that does not
   * parse ends in the bare `except` and never drops the row.
   */
  predicate BeforeStart(f: Filters, c: Cell) {
    f.startDate != [] && Truthy(c)
    && match (ParseIsoDate(Str(c)), ParseIsoDate(f.startDate))
       case (Some(w), Some(p)) => !DayNotAfter(p, w)
       case _ => false
  }

  /** The end filter drops the row: both dates parse and the work ends later than the period. */
  predicate AfterEnd(f: Filters, c: Cell) {
    f.endDate != [] && Truthy(c)
    && match (ParseIsoDate(Str(c)), ParseIsoDate(f.endDate))
       case (Some(w), Some(p)) => !DayNotAfter(w, p)
       case _ => false
  }

  /** The status filter drops the row: the stripped status differs from the requested one. */
  predicate OtherStatus(f: Filters, c: Cell) {
    f.status != [] && Truthy(c) && Strip(Str(c)) != f.status
  }

  /** The executor filter drops the row: the requested name is not a substring of the executor. */
  predicate OtherExecutor(f: Filters, c: Cell) {
    f.executor != [] && Truthy(c) && !Contains(Str(c), f.executor)
  }

  /** The row goes into the report. */
  predicate Keep(cells: map<Key, Cell>, f: Filters, row: nat) {
    Listed(cells, row)
    && !BeforeStart(f, At(cells, row, ColStart)) && !AfterEnd(f, At(cells, row, ColEnd))
    && !OtherStatus(f, At(cells, row, ColStatus)) && !OtherExecutor(f, At(cells, row, ColExec))
  }

  function KeepRow(cells: map<Key, Cell>, f: Filters): nat -> bool {
    (row: nat) => Keep(cells, f, row)
  }

  function EntryRow(cells: map<Key, Cell>): nat -> Entry {
    (row: nat) => EntryOf(cells, row)
  }

  /** `extract_data`: the entries of the kept rows 2 to `last`, in sheet order. */
  function Extract(cells: map<Key, Cell>, last: nat, f: Filters): (r: seq<Entry>)
    ensures |r| <= if last < 2 then 0 else last - 1
  {
    Select(2, last, KeepRow(cells, f), EntryRow(cells))
  }

  /** Every entry comes from a kept row between 2 and `last`, is read from that row, and the rows keep sheet order. */
  lemma ExtractRows(cells: map<Key, Cell>, last: nat, f: Filters)
    ensures var data := Extract(cells, last, f);
      forall i :: 0 <= i < |data| ==> 2 <= data[i].row <= last && Keep(cells, f, data[i].row) && data[i] == EntryOf(cells, data[i].row)
    ensures var data := Extract(cells, last, f);
      forall i, j :: 0 <= i < j < |data| ==> data[i].row < data[j].row
  {
    var keep, view := KeepRow(cells, f), EntryRow(cells);
    SelectIsView(2, last, keep, view);
    SelectedRange(2, last, keep);
    var data, rows := Extract(cells, last, f), Selected(2, last, keep);
    forall i | 0 <= i < |data|
      ensures 2 <= data[i].row <= last && Keep(cells, f, data[i].row) && data[i] == EntryOf(cells, data[i].row)
    {
      assert data[i] == EntryOf(cells, rows[i]) && keep(rows[i]);
    }
    forall i, j | 0 <= i < j < |data|
      ensures data[i].row < data[j].row
    {
      assert data[i] == EntryOf(cells, rows[i]) && data[j] == EntryOf(cells, rows[j]);
    }
  }

  /** No kept row is missing: its entry is at the returned position. */
  lemma ExtractComplete(cells: map<Key, Cell>, last: nat, f: Filters, row: nat) returns (i: nat)
    requires 2 <= row <= last && Keep(cells, f, row)
    ensures i < |Extract(cells, last, f)| && Extract(cells, last, f)[i] == EntryOf(cells, row)
  {
    var keep, view := KeepRow(cells, f), EntryRow(cells);
    assert keep(row);
    i := SelectedComplete(2, last, keep, row);
    SelectIsView(2, last, keep, view);
  }

  /** The row loop of `extract_data`. */
  method ExtractData(ws: Worksheet, f: Filters) returns (data: seq<Entry>)
    ensures data == Extract(ws.cells, ws.maxRow, f)
  {
    data := [];
    var row := 2;
    while row <= ws.maxRow
      invariant 2 <= row <= ws.maxRow + 1 || (row == 2 && ws.maxRow < 2)
      invariant data == Extract(ws.cells, row - 1, f)
    {
      ExtractStep(ws.cells, f, row);
      if Keep(ws.cells, f, row) {
        data := data + [EntryOf(ws.cells, row)];
      }
      row := row + 1;
    }
  }

  /** One more row adds its entry exactly when it is kept. */
  lemma ExtractStep(cells: map<Key, Cell>, f: Filters, row: nat)
    requires row >= 2
    ensures Extract(cells, row, f) == Extract(cells, row - 1, f) + if Keep(cells, f, row) then [EntryOf(cells, row)] else []
  {
    assert KeepRow(cells, f)(row) == Keep(cells, f, row);
  }

  // ---------------------------------------------------------------- the period

  /** The filters of `generate_monthly_report`. */
  function MonthFilters(year: int, month: nat, status: String, executor: String): Filters
    requires 1 <= month <= 12
  {
    Filters(PeriodStart(year, month), PeriodEnd(year, month), status, executor)
  }

  /**
   * With a four-digit year, a row whose start and end parse as dates passes
   * the date filters exactly when it starts on or after day 1 of the month
   * and ends on or before its last day.
   */
  lemma MonthWindow(cells: map<Key, Cell>, row: nat, year: int, month: nat, status: String, executor: String)
    requires 1000 <= year <= 9999 && 1 <= month <= 12
    requires var s, e := At(cells, row, ColStart), At(cells, row, ColEnd);
      Truthy(s) && Truthy(e) && ParseIsoDate(Str(s)).Some? && ParseIsoDate(Str(e)).Some?
    ensures var f := MonthFilters(year, month, status, executor);
      var ws, we := ParseIsoDate(Str(At(cells, row, ColStart))).value, ParseIsoDate(Str(At(cells, row, ColEnd))).value;
      Keep(cells, f, row) <==>
        Listed(cells, row) && DayNotAfter(Date.Date(year, month, 1), ws) && DayNotAfter(we, Date.Date(year, month, DaysInMonth(year, month)))
        && !OtherStatus(f, At(cells, row, ColStatus)) && !OtherExecutor(f, At(cells, row, ColExec))
  {
    PeriodDates(year, month);
  }

  /** A start or end that does not parse as `%Y-%m-%d` (a timestamp, a dotted date) never drops the row. */
  lemma UnparsedDatesPass(f: Filters, s: Cell, e: Cell)
    requires ParseIsoDate(Str(s)).None? && ParseIsoDate(Str(e)).None?
    ensures !BeforeStart(f, s) && !AfterEnd(f, e)
  {
  }

  /** A timestamp cell in the start or end column never drops the row: its `str()` carries the time of day. */
  lemma TimestampsPass(f: Filters, s: DateTime, e: DateTime)
    requires ValidDateTime(s) && ValidDateTime(e)
    ensures !BeforeStart(f, Cell.Date(s)) && !AfterEnd(f, Cell.Date(e))
  {
    DateTimeStringNotIsoDate(s);
    DateTimeStringNotIsoDate(e);
  }

  // ---------------------------------------------------------------- the report sheet

  /** The fixed texts of the report sheet. */
  const ReportLabels: Labels := Labels("ПРИЛОЖЕНИЕ 1", "Отчет о выполненных работах", "Период:", "Клиент:",
    ["Адрес + № Задания", "Начало работ", "Конец работ", "Название работ", "Стоимость (руб)"])

  /** The label of the total row. */
  const TotalLabel: String := "ИТОГО:"

  /** One table row: address, start, end, work name and price, as read. */
  function DataRow(e: Entry): map<nat, Cell> {
    map[1 := FromString(e.address), 2 := e.start, 3 := e.end, 4 := e.workName, 5 := e.price]
  }

  function DataRows(data: seq<Entry>): (rows: seq<map<nat, Cell>>)
    ensures |rows| == |data|
    ensures forall i :: 0 <= i < |data| ==> rows[i] == DataRow(data[i])
  {
    if data == [] then [] else DataRows(data[..|data| - 1]) + [DataRow(data[|data| - 1])]
  }

  /**
   * `float(work['price'])` in whole roubles: a number as it is, a string
   * through `float`; None where it raises (a timestamp, a formula, text).
   */
  function PriceValue(c: Cell): Option<int> {
    match c
    case Int(n) => Some(n)
    case Date(_) => None
    case _ => AG.FloatToInt(Str(c))
  }

  /** A price written as text in the form `str(n)` reads back as `n`; a date never reads as a price. */
  lemma PriceValueText(n: int, dt: DateTime)
    ensures PriceValue(Text(IntToString(n))) == Some(n)
    ensures PriceValue(Cell.Date(dt)) == None
  {
    AG.FloatToIntString(n);
  }

  /** What the price of an entry adds to `total_cost`: nothing where it is unset or does not parse. */
  function Counted(e: Entry): int {
    if Truthy(e.price) && PriceValue(e.price).Some? then PriceValue(e.price).value else 0
  }

  function ReportTotal(data: seq<Entry>): int { Sum(data, Counted) }

  /** The row of the ИТОГО line: one blank row below the last entry. */
  function TotalRowNumber(n: nat): nat { FirstDataRow + n + 1 }

  function TotalRow(tag: String, total: int): map<nat, Cell> {
    map[1 := FromString(tag), 5 := Int(total)]
  }

  /** The report sheet `generate_report` builds. */
  function ReportCells(lb: Labels, tag: String, data: seq<Entry>, periodStart: String, periodEnd: String, client: String): map<Key, Cell> {
    Layout(Heading(lb, periodStart, periodEnd, client), tag, data)
  }

  /** A heading followed by the table from row 8 and the ИТОГО line. */
  function Layout(head: map<Key, Cell>, tag: String, data: seq<Entry>): map<Key, Cell> {
    head + Rows(FirstDataRow, DataRows(data)) + InRow(TotalRowNumber(|data|), TotalRow(tag, ReportTotal(data)))
  }

  /** Table row `8 + i` holds entry `i`: address, start, end, work name and price, as read from the source. */
  lemma ReportEntry(head: map<Key, Cell>, tag: String, data: seq<Entry>, i: nat)
    requires Above(head) && i < |data|
    ensures var cells, e := Layout(head, tag, data), data[i];
      At(cells, FirstDataRow + i, 1) == FromString(e.address) && At(cells, FirstDataRow + i, 2) == e.start
      && At(cells, FirstDataRow + i, 3) == e.end && At(cells, FirstDataRow + i, 4) == e.workName
      && At(cells, FirstDataRow + i, 5) == e.price
  {
    var rows := DataRows(data);
    var total := InRow(TotalRowNumber(|data|), TotalRow(tag, ReportTotal(data)));
    var w := rows[i];
    var e := data[i];
    assert w == DataRow(e);
    assert w[1] == FromString(e.address) && w[2] == e.start && w[3] == e.end && w[4] == e.workName && w[5] == e.price;
    TableCell(head, rows, total, i, 1);
    TableCell(head, rows, total, i, 2);
    TableCell(head, rows, total, i, 3);
    TableCell(head, rows, total, i, 4);
    TableCell(head, rows, total, i, 5);
  }

  /** The row between the last entry and the ИТОГО line has no cell, and nothing lies below the ИТОГО line. */
  lemma ReportBlankRows(head: map<Key, Cell>, tag: String, data: seq<Entry>, r: nat, c: nat)
    requires Above(head) && (r == FirstDataRow + |data| || r > TotalRowNumber(|data|))
    ensures (r, c) !in Layout(head, tag, data)
  {
    RowsOutside(FirstDataRow, DataRows(data), r, c);
  }

  /** The ИТОГО line holds the label in column A and the sum of the counted prices in column E. */
  lemma ReportTotalLine(head: map<Key, Cell>, tag: String, data: seq<Entry>)
    ensures At(Layout(head, tag, data), TotalRowNumber(|data|), 1) == FromString(tag)
    ensures At(Layout(head, tag, data), TotalRowNumber(|data|), 5) == Int(ReportTotal(data))
  {
    var body := head + Rows(FirstDataRow, DataRows(data));
    var total := InRow(TotalRowNumber(|data|), TotalRow(tag, ReportTotal(data)));
    AtUnion(body, total, TotalRowNumber(|data|), 1);
    AtUnion(body, total, TotalRowNumber(|data|), 5);
  }

  /** An entry whose price is unset or does not parse adds nothing to the total. */
  lemma UncountedPrice(data: seq<Entry>, e: Entry)
    requires !Truthy(e.price) || PriceValue(e.price).None?
    ensures ReportTotal(data + [e]) == ReportTotal(data)
  {
    SumAppend(data, [e], Counted);
    assert Sum([e], Counted) == Counted(e) + Sum([e][1..], Counted);
  }

  // ---------------------------------------------------------------- writing the report

  /** The five writes of one table row. */
  method WriteDataRow(ws: Worksheet, row: nat, e: Entry)
    requires ws.Valid() && row >= 1
    modifies ws
    ensures ws.Valid() && ws.maxRow == Max(old(ws.maxRow), row)
    ensures ws.cells == old(ws.cells) + InRow(row, DataRow(e))
  {
    ghost var before := ws.cells;
    ghost var m: map<nat, Cell> := map[];
    assert before + InRow(row, m) == before;
    m := ws.PutWhen(true, row, 1, FromString(e.address), before, m);
    m := ws.PutWhen(true, row, 2, e.start, before, m);
    m := ws.PutWhen(true, row, 3, e.end, before, m);
    m := ws.PutWhen(true, row, 4, e.workName, before, m);
    m := ws.PutWhen(true, row, 5, e.price, before, m);
    assert m == DataRow(e);
  }

  lemma DataRowsStep(base: map<Key, Cell>, data: seq<Entry>, i: nat)
    requires i < |data|
    ensures base + Rows(FirstDataRow, DataRows(data[..i + 1]))
      == (base + Rows(FirstDataRow, DataRows(data[..i]))) + InRow(FirstDataRow + i, DataRow(data[i]))
  {
    assert DataRows(data[..i + 1]) == DataRows(data[..i]) + [DataRow(data[i])] by {
      PrefixOfPrefix(data, i);
    }
    RowsSnoc(base, FirstDataRow, DataRows(data[..i]), DataRow(data[i]));
  }

  /** One pass of the data loop: entry `i` goes to row `8 + i`. */
  method AppendEntry(ws: Worksheet, data: seq<Entry>, i: nat, ghost base: map<Key, Cell>, ghost m0: nat)
    requires ws.Valid() && i < |data|
    requires ws.cells == base + Rows(FirstDataRow, DataRows(data[..i])) && ws.maxRow == RowsEnd(m0, FirstDataRow, i)
    modifies ws
    ensures ws.Valid()
    ensures ws.cells == base + Rows(FirstDataRow, DataRows(data[..i + 1])) && ws.maxRow == RowsEnd(m0, FirstDataRow, i + 1)
  {
    WriteDataRow(ws, FirstDataRow + i, data[i]);
    RowsEndStep(m0, FirstDataRow, i);
    DataRowsStep(base, data, i);
  }

  /** The total cost: a set price that converts to a number is added, an unset one or one that does not convert is passed over. */
  method AddPrice(total: int, e: Entry) returns (total': int)
    ensures total' == total + Counted(e)
  {
    total' := total;
    if Truthy(e.price) {
      var v := PriceValue(e.price);
      if v.Some? {
        total' := total + v.value;
      }
    }
  }

  lemma TotalStep(data: seq<Entry>, i: nat)
    requires i < |data|
    ensures ReportTotal(data[..i + 1]) == ReportTotal(data[..i]) + Counted(data[i])
  {
    assert data[..i + 1] == data[..i] + [data[i]];
    SumAppend(data[..i], [data[i]], Counted);
  }

  /** The data loop of `generate_report`, which also adds up the prices. */
  method FillEntries(ws: Worksheet, data: seq<Entry>) returns (total: int)
    requires ws.Valid()
    modifies ws
    ensures total == ReportTotal(data)
    ensures ws.Valid() && ws.maxRow == RowsEnd(old(ws.maxRow), FirstDataRow, |data|)
    ensures ws.cells == old(ws.cells) + Rows(FirstDataRow, DataRows(data))
  {
    ghost var base, m0 := ws.cells, ws.maxRow;
    total := 0;
    var i := 0;
    while i < |data|
      invariant 0 <= i <= |data| && ws.Valid()
      invariant total == ReportTotal(data[..i])
      invariant ws.cells == base + Rows(FirstDataRow, DataRows(data[..i]))
      invariant ws.maxRow == RowsEnd(m0, FirstDataRow, i)
    {
      AppendEntry(ws, data, i, base, m0);
      total := AddPrice(total, data[i]);
      TotalStep(data, i);
      i := i + 1;
    }
    WholePrefix(data, i);
  }

  /** The ИТОГО line. */
  method WriteTotal(ws: Worksheet, tag: String, row: nat, total: int)
    requires ws.Valid() && row >= 1
    modifies ws
    ensures ws.Valid() && ws.maxRow == Max(old(ws.maxRow), row)
    ensures ws.cells == old(ws.cells) + InRow(row, TotalRow(tag, total))
  {
    ghost var before := ws.cells;
    ghost var m: map<nat, Cell> := map[];
    assert before + InRow(row, m) == before;
    m := ws.PutWhen(true, row, 1, FromString(tag), before, m);
    m := ws.PutWhen(true, row, 5, Int(total), before, m);
  }

  /** The report ends at the ИТОГО line. */
  lemma ReportEnd(n: nat)
    ensures Max(RowsEnd(HeaderRowNumber, FirstDataRow, n), TotalRowNumber(n)) == TotalRowNumber(n)
  {
  }

  /**
   * `generate_report`: a new "Отчет" sheet holding the report; the result is
   * whether saving it succeeded (`saved`, standing for the file write).
   */
  method GenerateReport(data: seq<Entry>, periodStart: String, periodEnd: String, client: String, saved: bool)
    returns (ok: bool, report: Worksheet)
    ensures fresh(report) && report.Valid() && report.title == "Отчет"
    ensures report.cells == ReportCells(ReportLabels, TotalLabel, data, periodStart, periodEnd, client)
    ensures report.maxRow == TotalRowNumber(|data|)
    ensures ok == saved
  {
    report := new Worksheet("Отчет");
    WriteHeading(report, ReportLabels, periodStart, periodEnd, client);
    var total := FillEntries(report, data);
    WriteTotal(report, TotalLabel, TotalRowNumber(|data|), total);
    ReportEnd(|data|);
    ok := saved;
  }

  // ---------------------------------------------------------------- the monthly report

  /** The entries of the monthly report. */
  function MonthData(cells: map<Key, Cell>, last: nat, year: int, month: nat, status: String, executor: String): seq<Entry>
    requires 1 <= month <= 12
  {
    Extract(cells, last, MonthFilters(year, month, status, executor))
  }

  /**
   * `generate_monthly_report` on the sheet `load_source` picks: False where
   * loading fails or no row is kept, else whether the report was saved.
   */
  function Monthly(cells: map<Key, Cell>, last: nat, loaded: bool, year: int, month: int, status: String, executor: String, saved: bool): (r: Outcome)
    ensures r.Returns? && r.ok <==> 1 <= month <= 12 && loaded && saved && MonthData(cells, last, year, month, status, executor) != []
    ensures r.Raises? <==> month < 1 || month > 12
  {
    if !(1 <= month <= 12) then Raises
    else if !loaded then Returns(false)
    else if MonthData(cells, last, year, month, status, executor) == [] then Returns(false)
    else Returns(saved)
  }

  /**
   * `generate_monthly_report(month, year, client, status_filter, executor_filter)`
   * on a loaded book; `loaded` and `saved` stand for the outcome of reading
   * and writing the files. `report` is the sheet written, null where none is.
   */
  method GenerateMonthlyReport(book: seq<Worksheet>, active: nat, loaded: bool, year: int, month: int,
                               client: String, status: String, executor: String, saved: bool)
    returns (outcome: Outcome, report: Worksheet?)
    requires active < |book|
    ensures var src := book[SourceSheet(book, active, WorksName, DataName)];
      outcome == Monthly(src.cells, src.maxRow, loaded, year, month, status, executor, saved)
    ensures report != null <==> (outcome.Returns? && loaded
      && MonthData(book[SourceSheet(book, active, WorksName, DataName)].cells, book[SourceSheet(book, active, WorksName, DataName)].maxRow, year, month, status, executor) != [])
    ensures report != null ==> 1 <= month <= 12 && fresh(report) && report.cells == ReportCells(ReportLabels, TotalLabel,
      MonthData(book[SourceSheet(book, active, WorksName, DataName)].cells, book[SourceSheet(book, active, WorksName, DataName)].maxRow, year, month, status, executor),
      PeriodStart(year, month), PeriodEnd(year, month), client)
  {
    if !(1 <= month <= 12) {
      return Raises, null;
    }
    var periodStart, periodEnd := PeriodStart(year, month), PeriodEnd(year, month);
    if !loaded {
      return Returns(false), null;
    }
    var src := book[SourceSheet(book, active, WorksName, DataName)];
    var data := ExtractData(src, Filters(periodStart, periodEnd, status, executor));
    if data == [] {
      return Returns(false), null;
    }
    var ok;
    ok, report := GenerateReport(data, periodStart, periodEnd, client, saved);
    outcome := Returns(ok);
  }
}
