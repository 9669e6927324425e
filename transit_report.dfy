/**
 * The report generator with transit addresses (report_generator.py): the
 * works of the "Эксель" sheet, each written to one row of a new
 * "Задание_Отчет" sheet, with the rows below a work that lists transit
 * addresses left free and merged into its row in columns A to D.
 */
module TransitReport {
  import opened Wrappers
  import opened Text
  import opened Lists
  import opened Sheet
  import opened ReportLayout
  import opened Transits

  // ---------------------------------------------------------------- the source sheet

  /** The columns `extract_data` reads. */
  const ColNum: nat := 1        // A: work number
  const ColAddr: nat := 5       // E: address
  const ColPrice: nat := 9      // I: price
  const ColService: nat := 10   // J: kind of service
  const ColStatus: nat := 18    // R: status
  const ColClient: nat := 22    // V: client
  const ColStart: nat := 26     // Z: start of the works

  /** The sheets `load_source` looks for, in this order. */
  const ExcelName: String := "Эксель"
  const TableName: String := "Рабочая таблица"

  /** The marker the transit list follows. */
  const Marker: String := "Транзитные адреса:"

  /** `_parse_transit_addresses`. */
  function ParseTransits(s: String): (r: seq<String>)
    ensures ListItems(r)
    ensures !Contains(s, Marker) ==> r == []
  {
    TransitsAfter(s, Marker)
  }

  /** The marker starts with a letter that does not come back in it. */
  lemma MarkerUnbordered()
    ensures Unbordered(Marker)
  {
  }

  /** A main address, the marker and a list written out with `", ".join` parse back to that list. */
  lemma ParseTransitsRoundTrip(pre: String, items: seq<String>)
    requires !Contains(pre, Marker) && ListItems(items) && !Contains(Join(items, ", "), Marker)
    ensures ParseTransits(pre + Marker + Join(items, ", ")) == items
  {
    MarkerUnbordered();
    TransitsRoundTrip(pre, Marker, items);
  }

  /** `has_transit`: the marker, or the word "транзит" in any case. */
  function HasTransit(s: String): (b: bool)
    ensures ParseTransits(s) != [] ==> b
  {
    Contains(s, Marker) || Contains(Lower(s), Hint)
  }

  /** The marker alone flags a transit work whose transit list is empty. */
  lemma FlaggedWithoutTransits()
    ensures HasTransit(Marker) && ParseTransits(Marker) == []
  {
    FirstAt([], Marker, []);
    assert Marker == [] + Marker + [];
    assert OccursAt(Marker, Marker, 0);
    ContainsIff(Marker, Marker);
    assert Between(Marker, Marker) == [];
    assert Split([], ",") == [[]];
  }

  // ---------------------------------------------------------------- extraction

  /** The `work_data` dict of one row. */
  datatype Work = Work(row: nat, address: String, number: Cell, client: Cell, price: Cell, service: Cell,
                       status: Cell, start: Cell, hasTransit: bool, transits: seq<String>)

  function WorkOf(cells: map<Key, Cell>, row: nat): (w: Work)
    ensures w.transits != [] ==> w.hasTransit && Contains(w.address, Marker)
  {
    var address := Strip(Str(At(cells, row, ColAddr)));
    var flagged := HasTransit(address);
    Work(row, address, At(cells, row, ColNum), At(cells, row, ColClient), At(cells, row, ColPrice),
         At(cells, row, ColService), At(cells, row, ColStatus), At(cells, row, ColStart),
         flagged, if flagged then ParseTransits(address) else [])
  }

  /** `if not addr: continue`. */
  predicate Keep(cells: map<Key, Cell>, row: nat) {
    Truthy(At(cells, row, ColAddr))
  }

  function KeepRow(cells: map<Key, Cell>): nat -> bool {
    (row: nat) => Keep(cells, row)
  }

  function WorkRow(cells: map<Key, Cell>): nat -> Work {
    (row: nat) => WorkOf(cells, row)
  }

  /** `extract_data`: the works of the rows 3 to `last` that have an address, in sheet order. */
  function Extract(cells: map<Key, Cell>, last: nat): (r: seq<Work>)
    ensures |r| <= if last < 3 then 0 else last - 2
  {
    Select(3, last, KeepRow(cells), WorkRow(cells))
  }

  /** Every work comes from a row between 3 and `last` with an address, is read from that row, and the rows keep sheet order. */
  lemma ExtractRows(cells: map<Key, Cell>, last: nat)
    ensures var data := Extract(cells, last);
      forall i :: 0 <= i < |data| ==> 3 <= data[i].row <= last && Keep(cells, data[i].row) && data[i] == WorkOf(cells, data[i].row)
    ensures var data := Extract(cells, last);
      forall i, j :: 0 <= i < j < |data| ==> data[i].row < data[j].row
  {
    var keep, view := KeepRow(cells), WorkRow(cells);
    SelectIsView(3, last, keep, view);
    SelectedRange(3, last, keep);
    var data, rows := Extract(cells, last), Selected(3, last, keep);
    forall i | 0 <= i < |data|
      ensures 3 <= data[i].row <= last && Keep(cells, data[i].row) && data[i] == WorkOf(cells, data[i].row)
    {
      assert data[i] == WorkOf(cells, rows[i]) && keep(rows[i]);
    }
    forall i, j | 0 <= i < j < |data|
      ensures data[i].row < data[j].row
    {
      assert data[i] == WorkOf(cells, rows[i]) && data[j] == WorkOf(cells, rows[j]);
    }
  }

  /** No row with an address is missing: its work is at the returned position. */
  lemma ExtractComplete(cells: map<Key, Cell>, last: nat, row: nat) returns (i: nat)
    requires 3 <= row <= last && Keep(cells, row)
    ensures i < |Extract(cells, last)| && Extract(cells, last)[i] == WorkOf(cells, row)
  {
    var keep, view := KeepRow(cells), WorkRow(cells);
    assert keep(row);
    i := SelectedComplete(3, last, keep, row);
    SelectIsView(3, last, keep, view);
  }

  /** One more row adds its work exactly when it has an address. */
  lemma ExtractStep(cells: map<Key, Cell>, row: nat)
    requires row >= 3
    ensures Extract(cells, row) == Extract(cells, row - 1) + if Keep(cells, row) then [WorkOf(cells, row)] else []
  {
    assert KeepRow(cells)(row) == Keep(cells, row);
  }

  /** The row loop of `extract_data`. */
  method ExtractData(ws: Worksheet) returns (data: seq<Work>)
    ensures data == Extract(ws.cells, ws.maxRow)
  {
    data := [];
    var row := 3;
    while row <= ws.maxRow
      invariant 3 <= row <= ws.maxRow + 1 || (row == 3 && ws.maxRow < 3)
      invariant data == Extract(ws.cells, row - 1)
    {
      ExtractStep(ws.cells, row);
      if Keep(ws.cells, row) {
        data := data + [WorkOf(ws.cells, row)];
      }
      row := row + 1;
    }
  }

  // ---------------------------------------------------------------- the report layout

  /** The fixed texts of the "Задание_Отчет" sheet. */
  const TaskLabels: Labels := Labels("ПРИЛОЖЕНИЕ № 1 к Договору", "ЗАДАНИЕ на оказание услуг", "Период:", "Клиент:",
    ["Адрес предоставления услуги", "Дата передачи задания", "Дата выполнения задания", "Вид оказанной услуги"])

  /** The rows a work takes: its own and one per transit address when it is flagged and has some. */
  function Span(w: Work): (n: nat)
    ensures n >= 1
  {
    if w.hasTransit && w.transits != [] then 1 + |w.transits| else 1
  }

  /** The rows the works take together. */
  function Offset(data: seq<Work>): nat {
    if data == [] then 0 else Offset(data[..|data| - 1]) + Span(data[|data| - 1])
  }

  /** The row of work `i`. */
  function Start(data: seq<Work>, i: nat): nat
    requires i <= |data|
  {
    FirstDataRow + Offset(data[..i])
  }

  /** The four cells of a work's row: address, start date, period end, kind of service. */
  function MainRow(w: Work, periodEnd: String): map<nat, Cell> {
    map[1 := FromString(w.address), 2 := w.start, 3 := FromString(periodEnd), 4 := w.service]
  }

  /** The table: each work's row, placed below the rows of the works before it. */
  function Table(data: seq<Work>, periodEnd: String): map<Key, Cell> {
    if data == [] then map[]
    else
      var p := data[..|data| - 1];
      Table(p, periodEnd) + InRow(FirstDataRow + Offset(p), MainRow(data[|data| - 1], periodEnd))
  }

  /** The cells of the report sheet. */
  function ReportCells(data: seq<Work>, periodStart: String, periodEnd: String, client: String): map<Key, Cell> {
    Heading(TaskLabels, periodStart, periodEnd, client) + Table(data, periodEnd)
  }

  lemma OffsetPrefix(data: seq<Work>, i: nat)
    requires i < |data|
    ensures Offset(data[..i + 1]) == Offset(data[..i]) + Span(data[i])
  {
    PrefixOfPrefix(data, i);
  }

  /** The rows of a work end no later than the rows of all works. */
  lemma {:induction false} OffsetBelow(data: seq<Work>, i: nat)
    requires i < |data|
    ensures Offset(data[..i]) + Span(data[i]) <= Offset(data)
  {
    var n := |data| - 1;
    var p := data[..n];
    if i < n {
      OffsetBelow(p, i);
      assert p[..i] == data[..i] && p[i] == data[i];
    } else {
      assert data[..i] == p;
    }
  }

  /** The table lies in columns A to D of the rows from 8 to the end of the last work. */
  lemma {:induction false} TableRows(data: seq<Work>, periodEnd: String)
    ensures forall k :: k in Table(data, periodEnd) ==> FirstDataRow <= k.0 < FirstDataRow + Offset(data) && 1 <= k.1 <= 4
  {
    if data != [] {
      TableRows(data[..|data| - 1], periodEnd);
    }
  }

  /** A work's row holds exactly the columns A to D. */
  lemma MainRowColumns(w: Work, periodEnd: String)
    ensures forall c :: c in MainRow(w, periodEnd) <==> 1 <= c <= 4
  {
  }

  /**
   * Within the rows of work `i` the table is that work's row alone: its first
   * row holds the main row, the rows of its transit addresses stay empty.
   */
  lemma {:induction false} TableWork(data: seq<Work>, periodEnd: String, i: nat, r: nat, c: nat)
    requires i < |data| && Start(data, i) <= r < Start(data, i) + Span(data[i])
    ensures var row := InRow(Start(data, i), MainRow(data[i], periodEnd));
      ((r, c) in Table(data, periodEnd) <==> (r, c) in row)
      && ((r, c) in row ==> Table(data, periodEnd)[(r, c)] == row[(r, c)])
  {
    var n := |data| - 1;
    var p := data[..n];
    TableRows(p, periodEnd);
    if i < n {
      assert p[..i] == data[..i] && p[i] == data[i];
      OffsetBelow(p, i);
      TableWork(p, periodEnd, i, r, c);
    } else {
      assert data[..i] == p;
    }
  }

  /** Work `i` is written in row `Start(data, i)`: address, start date, the period's end, kind of service. */
  lemma WorkCells(data: seq<Work>, periodEnd: String, i: nat)
    requires i < |data|
    ensures var t, r, w := Table(data, periodEnd), Start(data, i), data[i];
      At(t, r, 1) == FromString(w.address) && At(t, r, 2) == w.start
      && At(t, r, 3) == FromString(periodEnd) && At(t, r, 4) == w.service
  {
    var r, row := Start(data, i), MainRow(data[i], periodEnd);
    TableWork(data, periodEnd, i, r, 1);
    TableWork(data, periodEnd, i, r, 2);
    TableWork(data, periodEnd, i, r, 3);
    TableWork(data, periodEnd, i, r, 4);
  }

  /** The rows after a work's first row, one per transit address, hold no cell. */
  lemma TransitRowsEmpty(data: seq<Work>, periodEnd: String, i: nat, r: nat, c: nat)
    requires i < |data| && Start(data, i) < r < Start(data, i) + Span(data[i])
    ensures (r, c) !in Table(data, periodEnd)
  {
    TableWork(data, periodEnd, i, r, c);
  }

  // ---------------------------------------------------------------- merged ranges

  /** A merged range of cells, rows `top` to `bottom`, columns `left` to `right`. */
  datatype Range = Range(top: nat, left: nat, bottom: nat, right: nat)

  predicate Overlap(a: Range, b: Range) {
    a.top <= b.bottom && b.top <= a.bottom && a.left <= b.right && b.left <= a.right
  }

  /** No two ranges of the list share a cell. */
  predicate Disjoint(ms: seq<Range>) {
    forall a, b :: 0 <= a < b < |ms| ==> !Overlap(ms[a], ms[b])
  }

  /** The merges of one work: columns A, B, C and D each from its first to its last row. */
  function ColumnMerges(top: nat, bottom: nat): seq<Range> {
    [Range(top, 1, bottom, 1), Range(top, 2, bottom, 2), Range(top, 3, bottom, 3), Range(top, 4, bottom, 4)]
  }

  /** The merges of the table, work by work: a work merges its rows when it takes more than one. */
  function TableMerges(data: seq<Work>): seq<Range> {
    if data == [] then []
    else
      var p := data[..|data| - 1];
      var top, n := FirstDataRow + Offset(p), Span(data[|data| - 1]);
      TableMerges(p) + if n > 1 then ColumnMerges(top, top + n - 1) else []
  }

  /** All merges of the report sheet: title and subtitle across A to D, then the table's. */
  function Merges(data: seq<Work>): seq<Range> {
    [Range(1, 1, 1, 4), Range(2, 1, 2, 4)] + TableMerges(data)
  }

  /** Each table merge is one column of A to D over rows of the table. */
  lemma {:induction false} TableMergesRows(data: seq<Work>)
    ensures forall k :: 0 <= k < |TableMerges(data)| ==> var g := TableMerges(data)[k];
      FirstDataRow <= g.top < g.bottom < FirstDataRow + Offset(data) && 1 <= g.left == g.right <= 4
  {
    if data != [] {
      TableMergesRows(data[..|data| - 1]);
    }
  }

  /** A work with transit addresses has each of the columns A to D merged over exactly its rows, 1 + the number of transits. */
  lemma {:induction false} WorkMerged(data: seq<Work>, i: nat, col: nat) returns (k: nat)
    requires i < |data| && data[i].hasTransit && data[i].transits != [] && 1 <= col <= 4
    ensures k < |TableMerges(data)| && TableMerges(data)[k] == Range(Start(data, i), col, Start(data, i) + |data[i].transits|, col)
    decreases |data|, 1
  {
    if i < |data| - 1 {
      k := EarlierMerged(data, i, col);
    } else {
      k := LastMerged(data, col);
    }
  }

  /** A work before the last keeps its merges where the shorter table had them. */
  lemma {:induction false} EarlierMerged(data: seq<Work>, i: nat, col: nat) returns (k: nat)
    requires i < |data| - 1 && data[i].hasTransit && data[i].transits != [] && 1 <= col <= 4
    ensures k < |TableMerges(data)| && TableMerges(data)[k] == Range(Start(data, i), col, Start(data, i) + |data[i].transits|, col)
    decreases |data|, 0
  {
    var p := data[..|data| - 1];
    assert p[..i] == data[..i] && p[i] == data[i];
    k := WorkMerged(p, i, col);
    MergesKeep(data);
  }

  /** The merges of the works before the last stay in front. */
  lemma MergesKeep(data: seq<Work>)
    requires data != []
    ensures var before := TableMerges(data[..|data| - 1]);
      |before| <= |TableMerges(data)| && forall k :: 0 <= k < |before| ==> TableMerges(data)[k] == before[k]
  {
  }

  /** The last work's merges come last. */
  lemma LastMerged(data: seq<Work>, col: nat) returns (k: nat)
    requires data != [] && data[|data| - 1].hasTransit && data[|data| - 1].transits != [] && 1 <= col <= 4
    ensures var i := |data| - 1;
      k < |TableMerges(data)| && TableMerges(data)[k] == Range(Start(data, i), col, Start(data, i) + |data[i].transits|, col)
  {
    var n := |data| - 1;
    var p := data[..n];
    var top := FirstDataRow + Offset(p);
    var added := ColumnMerges(top, top + Span(data[n]) - 1);
    assert TableMerges(data) == TableMerges(p) + added;
    k := |TableMerges(p)| + col - 1;
    assert added[col - 1] == Range(top, col, top + |data[n].transits|, col);
  }

  /** No two merges overlap. */
  lemma {:induction false} TableMergesDisjoint(data: seq<Work>)
    ensures Disjoint(TableMerges(data))
  {
    if data != [] {
      var p := data[..|data| - 1];
      TableMergesDisjoint(p);
      TableMergesRows(p);
      var ms, before := TableMerges(data), TableMerges(p);
      var top, n := FirstDataRow + Offset(p), Span(data[|data| - 1]);
      var added := if n > 1 then ColumnMerges(top, top + n - 1) else [];
      assert ms == before + added;
      assert forall x :: 0 <= x < |added| ==> added[x].top == top && added[x].left == added[x].right == x + 1;
      forall a, b | 0 <= a < b < |ms|
        ensures !Overlap(ms[a], ms[b])
      {
        if b < |before| {
          assert ms[a] == before[a] && ms[b] == before[b];
          assert !Overlap(before[a], before[b]);
        } else if a < |before| {
          assert ms[a] == before[a] && ms[b] == added[b - |before|];
          assert before[a].bottom < top;
          assert !Overlap(before[a], added[b - |before|]);
        } else {
          assert ms[a] == added[a - |before|] && ms[b] == added[b - |before|];
          assert !Overlap(added[a - |before|], added[b - |before|]);
        }
      }
    }
  }

  lemma MergesDisjoint(data: seq<Work>)
    ensures Disjoint(Merges(data))
  {
    TableMergesDisjoint(data);
    TableMergesRows(data);
    var ms, t := Merges(data), TableMerges(data);
    assert ms[0] == Range(1, 1, 1, 4) && ms[1] == Range(2, 1, 2, 4);
    forall a, b | 0 <= a < b < |ms|
      ensures !Overlap(ms[a], ms[b])
    {
      if a >= 2 {
        assert ms[a] == t[a - 2] && ms[b] == t[b - 2];
        assert !Overlap(t[a - 2], t[b - 2]);
      } else if b >= 2 {
        assert ms[b] == t[b - 2];
        assert ms[b].top >= FirstDataRow && ms[a].bottom <= 2;
      }
    }
  }

  // ---------------------------------------------------------------- writing the report

  /** `max_row` after the works' rows are written on a sheet whose `max_row` was `m0`: the last work's row. */
  function LastRow(m0: nat, data: seq<Work>): nat {
    if data == [] then m0 else Max(m0, FirstDataRow + Offset(data[..|data| - 1]))
  }

  lemma LastRowStep(m0: nat, data: seq<Work>, i: nat)
    requires i < |data|
    ensures LastRow(m0, data[..i + 1]) == Max(LastRow(m0, data[..i]), Start(data, i))
  {
    PrefixOfPrefix(data, i);
    if i > 0 {
      OffsetPrefix(data, i - 1);
      assert data[..i][..i - 1] == data[..i - 1];
    }
  }

  lemma TableStep(data: seq<Work>, periodEnd: String, i: nat)
    requires i < |data|
    ensures Table(data[..i + 1], periodEnd) == Table(data[..i], periodEnd) + InRow(Start(data, i), MainRow(data[i], periodEnd))
  {
    var q := data[..i + 1];
    assert q[..|q| - 1] == data[..i] && q[|q| - 1] == data[i];
  }

  lemma MergesStep(data: seq<Work>, i: nat)
    requires i < |data|
    ensures TableMerges(data[..i + 1]) == TableMerges(data[..i])
      + if Span(data[i]) > 1 then ColumnMerges(Start(data, i), Start(data, i) + Span(data[i]) - 1) else []
  {
    PrefixOfPrefix(data, i);
  }

  /** The four writes of a work's row. */
  method WriteMainRow(ws: Worksheet, row: nat, w: Work, periodEnd: String)
    requires ws.Valid() && row >= 1
    modifies ws
    ensures ws.Valid() && ws.maxRow == Max(old(ws.maxRow), row)
    ensures ws.cells == old(ws.cells) + InRow(row, MainRow(w, periodEnd))
  {
    ghost var before := ws.cells;
    ghost var m: map<nat, Cell> := map[];
    assert before + InRow(row, m) == before;
    m := ws.PutWhen(true, row, 1, FromString(w.address), before, m);
    m := ws.PutWhen(true, row, 2, w.start, before, m);
    m := ws.PutWhen(true, row, 3, FromString(periodEnd), before, m);
    m := ws.PutWhen(true, row, 4, w.service, before, m);
    assert m == MainRow(w, periodEnd);
  }

  /** The row of work `i` written below the rows of the works before it. */
  method AppendWork(ws: Worksheet, data: seq<Work>, periodEnd: String, i: nat, ghost base: map<Key, Cell>, ghost m0: nat)
    requires ws.Valid() && i < |data|
    requires ws.cells == base + Table(data[..i], periodEnd) && ws.maxRow == LastRow(m0, data[..i])
    modifies ws
    ensures ws.Valid()
    ensures ws.cells == base + Table(data[..i + 1], periodEnd) && ws.maxRow == LastRow(m0, data[..i + 1])
  {
    WriteMainRow(ws, Start(data, i), data[i], periodEnd);
    TableStep(data, periodEnd, i);
    LastRowStep(m0, data, i);
    UnionAssoc(base, Table(data[..i], periodEnd), InRow(Start(data, i), MainRow(data[i], periodEnd)));
  }

  /**
   * The rest of one pass of the data loop of `generate_report`: the merges
   * of the work's rows when it has transit addresses, and the row counter
   * moved past its rows.
   */
  method AdvanceWork(data: seq<Work>, i: nat, current: nat, merges: seq<Range>) returns (current': nat, merges': seq<Range>)
    requires i < |data| && current == Start(data, i) && merges == TableMerges(data[..i])
    ensures current' == Start(data, i + 1) && merges' == TableMerges(data[..i + 1])
  {
    var w := data[i];
    var start := current;
    merges', current' := merges, current;
    if w.hasTransit && w.transits != [] {
      var rowsToMerge := |w.transits| + 1;
      var end := start + rowsToMerge - 1;
      if rowsToMerge > 1 {
        merges' := merges' + ColumnMerges(start, end);
      }
      current' := current' + 1;
      var t := 0;
      while t < |w.transits|
        invariant 0 <= t <= |w.transits| && current' == start + 1 + t
      {
        current' := current' + 1;
        t := t + 1;
      }
    } else {
      current' := current' + 1;
    }
    OffsetPrefix(data, i);
    MergesStep(data, i);
  }

  /** The data loop of `generate_report`; `current` ends on the row after the last work's rows. */
  method FillWorks(ws: Worksheet, data: seq<Work>, periodEnd: String) returns (current: nat, merges: seq<Range>)
    requires ws.Valid()
    modifies ws
    ensures current == FirstDataRow + Offset(data) && merges == TableMerges(data)
    ensures ws.Valid() && ws.maxRow == LastRow(old(ws.maxRow), data)
    ensures ws.cells == old(ws.cells) + Table(data, periodEnd)
  {
    ghost var base, m0 := ws.cells, ws.maxRow;
    assert base + Table(data[..0], periodEnd) == base;
    current, merges := FirstDataRow, [];
    var i := 0;
    while i < |data|
      invariant 0 <= i <= |data| && ws.Valid()
      invariant current == Start(data, i) && merges == TableMerges(data[..i])
      invariant ws.cells == base + Table(data[..i], periodEnd) && ws.maxRow == LastRow(m0, data[..i])
    {
      AppendWork(ws, data, periodEnd, i, base, m0);
      current, merges := AdvanceWork(data, i, current, merges);
      i := i + 1;
    }
    WholePrefix(data, i);
  }

  /**
   * `generate_report`: a new "Задание_Отчет" sheet with its merged ranges and
   * the rows of the service list (`D8` to the row after the table). It returns
   * True once the file is saved, and raises when saving fails (`saved`
   * stands for the file write).
   */
  method GenerateReport(data: seq<Work>, periodStart: String, periodEnd: String, client: String, saved: bool)
    returns (outcome: Outcome, report: Worksheet, merges: seq<Range>, listRows: (nat, nat))
    ensures fresh(report) && report.Valid() && report.title == "Задание_Отчет"
    ensures report.cells == ReportCells(data, periodStart, periodEnd, client)
    ensures report.maxRow == LastRow(HeaderRowNumber, data)
    ensures merges == Merges(data)
    ensures listRows == (FirstDataRow, FirstDataRow + Offset(data))
    ensures outcome == if saved then Returns(true) else Raises
  {
    report := new Worksheet("Задание_Отчет");
    merges := [Range(1, 1, 1, 4), Range(2, 1, 2, 4)];
    assert TaskLabels.headers != [];
    WriteHeading(report, TaskLabels, periodStart, periodEnd, client);
    var current, table := FillWorks(report, data, periodEnd);
    merges := merges + table;
    listRows := (FirstDataRow, current);
    outcome := if saved then Returns(true) else Raises;
  }

  // ---------------------------------------------------------------- the monthly report

  /** `generate_monthly_report` as a value; `loaded` stands for `load_source` succeeding. */
  function Monthly(cells: map<Key, Cell>, last: nat, loaded: bool, month: int, saved: bool): (r: Outcome)
    ensures r == Returns(true) ==> 1 <= month <= 12 && loaded && saved && Extract(cells, last) != []
    ensures !loaded && 1 <= month <= 12 ==> r == Returns(false)
  {
    if !(1 <= month <= 12) then Raises
    else if !loaded then Returns(false)
    else if Extract(cells, last) == [] then Returns(false)
    else if saved then Returns(true)
    else Raises
  }

  /** There is something to report exactly when some row from 3 to `last` has an address. */
  lemma ExtractEmptyIff(cells: map<Key, Cell>, last: nat)
    ensures Extract(cells, last) != [] <==> exists row :: 3 <= row <= last && Keep(cells, row)
  {
    if Extract(cells, last) != [] {
      ExtractRows(cells, last);
      var row := Extract(cells, last)[0].row;
      assert 3 <= row <= last && Keep(cells, row);
    }
    if exists row :: 3 <= row <= last && Keep(cells, row) {
      var row :| 3 <= row <= last && Keep(cells, row);
      var i := ExtractComplete(cells, last, row);
    }
  }

  /**
   * A report is written and True returned exactly for a valid month, a loaded
   * file, a row with an address and a successful save; False comes back when
   * the file does not load or no row has an address; anything else raises.
   */
  lemma MonthlyOutcomes(cells: map<Key, Cell>, last: nat, loaded: bool, month: int, saved: bool)
    ensures Monthly(cells, last, loaded, month, saved) == Returns(true)
      <==> 1 <= month <= 12 && loaded && saved && exists row :: 3 <= row <= last && Keep(cells, row)
    ensures Monthly(cells, last, loaded, month, saved) == Returns(false)
      <==> 1 <= month <= 12 && (!loaded || forall row :: 3 <= row <= last ==> !Keep(cells, row))
    ensures Monthly(cells, last, loaded, month, saved) == Raises
      <==> !(1 <= month <= 12) || (loaded && !saved && exists row :: 3 <= row <= last && Keep(cells, row))
  {
    ExtractEmptyIff(cells, last);
  }

  /**
   * `generate_monthly_report` on a workbook: the sheet `load_source` picks, its
   * works, and the report of the month when there are any.
   */
  method GenerateMonthlyReport(book: seq<Worksheet>, active: nat, loaded: bool, year: int, month: int, client: String, saved: bool)
    returns (outcome: Outcome, report: Worksheet?, merges: seq<Range>)
    requires active < |book|
    ensures var src := book[SourceSheet(book, active, ExcelName, TableName)];
      outcome == Monthly(src.cells, src.maxRow, loaded, month, saved)
    ensures report != null <==> outcome == Returns(true)
    ensures report != null ==> (1 <= month <= 12 && fresh(report)
      && (var src := book[SourceSheet(book, active, ExcelName, TableName)];
          var data := Extract(src.cells, src.maxRow);
          report.cells == ReportCells(data, PeriodStart(year, month), PeriodEnd(year, month), client)
          && merges == Merges(data)))
  {
    merges := [];
    if !(1 <= month <= 12) {
      return Raises, null, merges;
    }
    var periodStart, periodEnd := PeriodStart(year, month), PeriodEnd(year, month);
    if !loaded {
      return Returns(false), null, merges;
    }
    var src := book[SourceSheet(book, active, ExcelName, TableName)];
    var data := ExtractData(src);
    if data == [] {
      return Returns(false), null, merges;
    }
    var r, listRows;
    outcome, r, merges, listRows := GenerateReport(data, periodStart, periodEnd, client, saved);
    report := if saved then r else null;
  }
}
