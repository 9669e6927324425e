/**
 * The monthly report generator of report_generator_v2.py: the works of one
 * month read from the "Северен_новая" sheet, and the two appendix sheets
 * (ПРИЛОЖЕНИЕ 1, the list of works, and ПРИЛОЖЕНИЕ 3, the priced list with
 * its total) cleared and refilled below their table header.
 */
module MonthlyReports {
  import opened Wrappers
  import opened Text
  import opened Lists
  import opened Dates
  import opened Sheet
  import AG = ActGenerator

  // ---------------------------------------------------------------- the data sheet

  /** The columns of "Северен_новая" the generator reads. */
  const ColHide: nat := 2
  const ColDistrict: nat := 4
  const ColAddress: nat := 6
  const ColDateStart: nat := 7
  const ColDateEnd: nat := 8
  const ColPrice: nat := 9
  const ColService: nat := 10
  const ColStatus: nat := 18
  const ColClient: nat := 22
  const ColWorkStart: nat := 26
  const ColExecutor: nat := 28

  /** A clock field of `strptime`: one or two digits with a value up to `max`. */
  function ClockField(s: String, max: nat): (r: Option<nat>)
    ensures r.Some? ==> r.value <= max
  {
    if 1 <= |s| <= 2 && AllDigits(s) && DigitsValue(s) <= max then Some(DigitsValue(s)) else None
  }

  /**
   * `datetime.strptime(s, '%Y-%m-%d %H:%M:%S')`. `strptime` reads the space of
   * the format as a run of whitespace; the clock holds none, so the clock is
   * what follows the last whitespace and the date what precedes the run that
   * ends there. Seconds 60 and 61 pass `strptime` but not `datetime`, so both
   * end in the same `except`.
   */
  function ParseStamp(s: String): (r: Option<DateTime>)
    ensures r.Some? ==> ValidDateTime(r.value)
  {
    match LastSpace(s)
    case None => None
    case Some(i) =>
      var clock := Split(s[i + 1..], ":");
      match ParseIsoDate(TrimEnd(s[..i], Whitespace))
      case None => None
      case Some(d) =>
        if |clock| != 3 then None
        else
          match (ClockField(clock[0], 23), ClockField(clock[1], 59), ClockField(clock[2], 59))
          case (Some(h), Some(mi), Some(sec)) => Some(DateTime(d.year, d.month, d.day, h, mi, sec))
          case _ => None
  }

  /** The digits and dashes of `yyyy-mm-dd` hold no whitespace, and it ends in a digit. */
  lemma IsoDateNoSpace(d: Date)
    requires ValidDate(d)
    ensures var iso := IsoDate(d);
      |iso| == 10 && IsDigit(iso[9]) && IsDigit(iso[0]) && forall k :: 0 <= k < |iso| ==> !IsSpace(iso[k])
  {
    PadWidth(d.year, 4);
    PadWidth(d.month, 2);
    PadWidth(d.day, 2);
  }

  /** A two-digit clock field up to `max` reads back. */
  lemma PadClockField(n: nat, max: nat)
    requires n <= max < 100
    ensures ClockField(Pad(n, 2), max) == Some(n)
  {
    PadWidth(n, 2);
    PadValue(n, 2);
  }

  /** Three pieces free of `:` joined by `:` split back into those pieces. */
  lemma SplitThree(a: String, b: String, c: String)
    requires Free(a, ':') && Free(b, ':') && Free(c, ':')
    ensures Split(a + ":" + b + ":" + c, ":") == [a, b, c]
  {
    ContainsChar(c, ':');
    assert Split(c, [':']) == [c];
    SplitAtChar(b, c, ':');
    assert a + ":" + b + ":" + c == a + [':'] + (b + [':'] + c);
    SplitAtChar(a, b + [':'] + c, ':');
  }

  /** Two texts without whitespace make one without whitespace. */
  lemma SolidConcat(a: String, b: String)
    requires forall k :: 0 <= k < |a| ==> !IsSpace(a[k])
    requires forall k :: 0 <= k < |b| ==> !IsSpace(b[k])
    ensures forall k :: 0 <= k < |a + b| ==> !IsSpace((a + b)[k])
  {
    assert forall k :: |a| <= k < |a + b| ==> (a + b)[k] == b[k - |a|];
  }

  /** Two digits, a colon, two digits, a colon and two digits: eight characters without whitespace. */
  lemma ClockSolid(h: String, m: String, sec: String)
    requires AllDigits(h) && AllDigits(m) && AllDigits(sec) && |h| == |m| == |sec| == 2
    ensures |h + ":" + m + ":" + sec| == 8
    ensures forall k :: 0 <= k < |h + ":" + m + ":" + sec| ==> !IsSpace((h + ":" + m + ":" + sec)[k])
  {
    SolidConcat(h, ":");
    SolidConcat(h + ":", m);
    SolidConcat(h + ":" + m, ":");
    SolidConcat(h + ":" + m + ":", sec);
  }

  /** The clock `HH:MM:SS` holds no whitespace and splits at `:` into its three fields. */
  lemma ClockStringSplit(t: DateTime)
    requires ValidDateTime(t)
    ensures var c := ClockString(t);
      |c| == 8 && (forall k :: 0 <= k < |c| ==> !IsSpace(c[k]))
      && Split(c, ":") == [Pad(t.hour, 2), Pad(t.minute, 2), Pad(t.second, 2)]
  {
    var h, m, sec := Pad(t.hour, 2), Pad(t.minute, 2), Pad(t.second, 2);
    PadWidth(t.hour, 2);
    PadWidth(t.minute, 2);
    PadWidth(t.second, 2);
    assert Free(h, ':') && Free(m, ':') && Free(sec, ':');
    SplitThree(h, m, sec);
    ClockSolid(h, m, sec);
  }

  /** The last whitespace of a text that ends in whitespace and is followed by none. */
  lemma LastSpaceBefore(pre: String, post: String)
    requires pre != [] && IsSpace(pre[|pre| - 1])
    requires forall k :: 0 <= k < |post| ==> !IsSpace(post[k])
    ensures LastSpace(pre + post) == Some(|pre| - 1)
  {
    var s := pre + post;
    assert IsSpace(s[|pre| - 1]);
    assert forall k :: |pre| <= k < |s| ==> s[k] == post[k - |pre|];
  }

  /** Where `ParseStamp` cuts a date, a run of whitespace and a clock free of whitespace. */
  lemma StampCut(date: String, gap: String, clock: String)
    requires date == [] || !IsSpace(date[|date| - 1])
    requires gap != [] && forall k :: 0 <= k < |gap| ==> IsSpace(gap[k])
    requires forall k :: 0 <= k < |clock| ==> !IsSpace(clock[k])
    ensures var s, i := date + gap + clock, |date| + |gap| - 1;
      LastSpace(s) == Some(i) && TrimEnd(s[..i], Whitespace) == date && s[i + 1..] == clock
  {
    var pre := date + gap;
    var i := |pre| - 1;
    assert pre[i] == gap[|gap| - 1];
    LastSpaceBefore(pre, clock);
    assert (pre + clock)[..i] == pre[..i] == date + gap[..|gap| - 1];
    TrimEndTail(date, gap[..|gap| - 1], Whitespace);
    assert (pre + clock)[i + 1..] == clock;
  }

  /** A date, any run of whitespace and a clock read back as that moment: `strptime` takes what `str(datetime)` writes, and more. */
  lemma ParseStampSpaced(t: DateTime, gap: String)
    requires ValidDateTime(t) && gap != [] && forall k :: 0 <= k < |gap| ==> IsSpace(gap[k])
    ensures ParseStamp(IsoDate(DayOf(t)) + gap + ClockString(t)) == Some(t)
  {
    IsoDateNoSpace(DayOf(t));
    ClockStringSplit(t);
    PadClockField(t.hour, 23);
    PadClockField(t.minute, 59);
    PadClockField(t.second, 59);
    var iso, clock := IsoDate(DayOf(t)), ClockString(t);
    StampCut(iso, gap, clock);
    ParseIsoDateRoundTrip(DayOf(t));
    var s, i := iso + gap + clock, |iso| + |gap| - 1;
    assert LastSpace(s) == Some(i);
    assert ParseIsoDate(TrimEnd(s[..i], Whitespace)) == Some(DayOf(t));
    assert Split(s[i + 1..], ":") == [Pad(t.hour, 2), Pad(t.minute, 2), Pad(t.second, 2)];
  }

  /** `strptime(str(t), '%Y-%m-%d %H:%M:%S')` gives `t` back. */
  lemma ParseStampRoundTrip(t: DateTime)
    requires ValidDateTime(t)
    ensures ParseStamp(DateTimeString(t)) == Some(t)
  {
    ParseStampSpaced(t, " ");
  }

  /** The date of a work: a timestamp cell as it is, a text in one of the two formats; None where the row is skipped. */
  function WorkDate(c: Cell): (r: Option<DateTime>)
    ensures !c.Date? && r.Some? ==> ValidDateTime(r.value)
  {
    match c
    case Date(dt) => Some(dt)
    case _ =>
      var s := Strip(Str(c));
      match ParseStamp(s)
      case Some(t) => Some(t)
      case None =>
        match ParseIsoDate(s)
        case Some(d) => Some(DateTime(d.year, d.month, d.day, 0, 0, 0))
        case None => None
  }

  /** A text cell holding a date, a run of whitespace and a clock is read as that moment. */
  lemma WorkDateStamp(t: DateTime, gap: String)
    requires ValidDateTime(t) && gap != [] && forall k :: 0 <= k < |gap| ==> IsSpace(gap[k])
    ensures WorkDate(Cell.Text(IsoDate(DayOf(t)) + gap + ClockString(t))) == Some(t)
  {
    var s := IsoDate(DayOf(t)) + gap + ClockString(t);
    IsoDateNoSpace(DayOf(t));
    ClockStringSplit(t);
    PadWidth(t.second, 2);
    assert IsDigit(s[|s| - 1]) && IsDigit(s[0]);
    StripStripped(s);
    ParseStampSpaced(t, gap);
  }

  /** A text cell holding a bare `yyyy-mm-dd` is read as midnight of that day. */
  lemma WorkDateDay(d: Date)
    requires ValidDate(d)
    ensures WorkDate(Cell.Text(IsoDate(d))) == Some(DateTime(d.year, d.month, d.day, 0, 0, 0))
  {
    IsoDateNoSpace(d);
    StripStripped(IsoDate(d));
    ParseIsoDateRoundTrip(d);
  }

  /** `start_date <= work_date <= end_date`: from day 1 at midnight to the last day at 23:59:59. */
  predicate InMonth(t: DateTime, year: int, month: int): (b: bool)
    requires 1 <= month <= 12
    ensures ValidDateTime(t) ==> (b <==> t.year == year && t.month == month)
  {
    var within := NotAfter(MonthStart(year, month), t) && NotAfter(t, MonthEnd(year, month));
    if ValidDateTime(t) then (InMonthIff(t, year, month); within) else within
  }

  /** `hide_marker and str(hide_marker).strip().lower() == 'x'`. */
  predicate Hidden(c: Cell) {
    Truthy(c) && Lower(Strip(Str(c))) == "x"
  }

  /** The row is taken: not hidden, with an address, and with a date inside the month. */
  predicate Keep(cells: map<Key, Cell>, row: nat, year: int, month: int)
    requires 1 <= month <= 12
  {
    var address := At(cells, row, ColAddress);
    var date := At(cells, row, ColDateStart);
    !Hidden(At(cells, row, ColHide))
    && Truthy(address) && Strip(Str(address)) != []
    && Truthy(date) && WorkDate(date).Some? && InMonth(WorkDate(date).value, year, month)
  }

  /** The `work_data` dict of one row. */
  datatype Work = Work(
    row: nat, address: String, district: Cell, dateStart: Cell, dateEnd: Cell, price: Cell,
    service: Cell, status: Cell, client: Cell, workStart: Cell, executor: Cell)

  function WorkOf(cells: map<Key, Cell>, row: nat): Work {
    Work(row, Strip(Str(At(cells, row, ColAddress))), At(cells, row, ColDistrict), At(cells, row, ColDateStart),
      At(cells, row, ColDateEnd), At(cells, row, ColPrice), At(cells, row, ColService), At(cells, row, ColStatus),
      At(cells, row, ColClient), At(cells, row, ColWorkStart), At(cells, row, ColExecutor))
  }

  /** The test of `extract_data_for_month`, row by row. */
  function KeepRow(cells: map<Key, Cell>, year: int, month: int): nat -> bool
    requires 1 <= month <= 12
  {
    (row: nat) => Keep(cells, row, year, month)
  }

  /** The `work_data` dict, row by row. */
  function WorkRow(cells: map<Key, Cell>): nat -> Work {
    (row: nat) => WorkOf(cells, row)
  }

  /** The works of rows 2 to `last` that are taken, in sheet order. */
  function Extract(cells: map<Key, Cell>, last: nat, year: int, month: int): (r: seq<Work>)
    requires 1 <= month <= 12
    ensures |r| <= if last < 2 then 0 else last - 1
  {
    Select(2, last, KeepRow(cells, year, month), WorkRow(cells))
  }

  /** The work was read from its own row, and that row is taken. */
  predicate Taken(cells: map<Key, Cell>, w: Work, year: int, month: int)
    requires 1 <= month <= 12
  {
    Keep(cells, w.row, year, month) && w == WorkOf(cells, w.row)
  }

  /** Every work comes from a taken row between 2 and `last`, carries that row's number, and the rows keep sheet order. */
  lemma ExtractRows(cells: map<Key, Cell>, last: nat, year: int, month: int)
    requires 1 <= month <= 12
    ensures var data := Extract(cells, last, year, month);
      forall i :: 0 <= i < |data| ==> 2 <= data[i].row <= last && Taken(cells, data[i], year, month)
    ensures var data := Extract(cells, last, year, month);
      forall i, j :: 0 <= i < j < |data| ==> data[i].row < data[j].row
  {
    var keep, view := KeepRow(cells, year, month), WorkRow(cells);
    SelectIsView(2, last, keep, view);
    SelectedRange(2, last, keep);
    var data, rows := Extract(cells, last, year, month), Selected(2, last, keep);
    forall i | 0 <= i < |data|
      ensures 2 <= data[i].row <= last && Taken(cells, data[i], year, month)
    {
      assert data[i] == WorkOf(cells, rows[i]) && keep(rows[i]);
    }
    forall i, j | 0 <= i < j < |data|
      ensures data[i].row < data[j].row
    {
      assert data[i] == WorkOf(cells, rows[i]) && data[j] == WorkOf(cells, rows[j]);
    }
  }

  /** No row that is taken is missing: it gives the work at the returned position. */
  lemma ExtractComplete(cells: map<Key, Cell>, last: nat, year: int, month: int, row: nat)
    returns (i: nat)
    requires 1 <= month <= 12
    requires 2 <= row <= last && Keep(cells, row, year, month)
    ensures i < |Extract(cells, last, year, month)| && Extract(cells, last, year, month)[i] == WorkOf(cells, row)
  {
    var keep, view := KeepRow(cells, year, month), WorkRow(cells);
    assert keep(row);
    i := SelectedComplete(2, last, keep, row);
    SelectIsView(2, last, keep, view);
  }

  /** A taken work with a real date lies in the requested month, whatever its day of the month. */
  lemma ExtractInMonth(cells: map<Key, Cell>, last: nat, year: int, month: int, i: nat)
    requires 1 <= month <= 12
    requires i < |Extract(cells, last, year, month)|
    requires var c := Extract(cells, last, year, month)[i].dateStart; c.Date? ==> ValidDateTime(c.dt)
    ensures var t := WorkDate(Extract(cells, last, year, month)[i].dateStart);
      t.Some? && t.value.year == year && t.value.month == month
  {
    ExtractRows(cells, last, year, month);
    var t := WorkDate(Extract(cells, last, year, month)[i].dateStart).value;
    InMonthIff(t, year, month);
  }

  /** The row loop of `extract_data_for_month`. */
  method ExtractData(ws: Worksheet, year: int, month: int) returns (data: seq<Work>)
    requires 1 <= month <= 12
    ensures data == Extract(ws.cells, ws.maxRow, year, month)
  {
    data := [];
    var row := 2;
    while row <= ws.maxRow
      invariant 2 <= row <= ws.maxRow + 1 || (row == 2 && ws.maxRow < 2)
      invariant data == Extract(ws.cells, row - 1, year, month)
    {
      if Keep(ws.cells, row, year, month) {
        data := data + [WorkOf(ws.cells, row)];
      }
      row := row + 1;
    }
  }

  // ---------------------------------------------------------------- the appendix sheets

  /** Column A of row `r` holds a value whose text contains '№'. */
  predicate HeaderRow(cells: map<Key, Cell>, r: nat) {
    Truthy(At(cells, r, 1)) && '№' in Str(At(cells, r, 1))
  }

  /** The search over rows `r` to 19: the row after the first header row. */
  function StartFrom(cells: map<Key, Cell>, r: nat): (s: Option<nat>)
    requires 1 <= r <= 20
    ensures s.Some? ==> r + 1 <= s.value <= 20 && HeaderRow(cells, s.value - 1)
    ensures s.Some? ==> forall q :: r <= q < s.value - 1 ==> !HeaderRow(cells, q)
    ensures s.None? <==> forall q :: r <= q < 20 ==> !HeaderRow(cells, q)
    decreases 20 - r
  {
    if r == 20 then None
    else if HeaderRow(cells, r) then Some(r + 1)
    else StartFrom(cells, r + 1)
  }

  /** The first row of the table: the row after the first of rows 1 to 19 whose column A contains '№'. */
  function TableStart(cells: map<Key, Cell>): Option<nat> {
    StartFrom(cells, 1)
  }

  /** The search loop of both updates. */
  method FindTableStart(ws: Worksheet) returns (start: Option<nat>)
    ensures start == TableStart(ws.cells)
  {
    var r := 1;
    while r < 20
      invariant 1 <= r <= 20
      invariant StartFrom(ws.cells, r) == TableStart(ws.cells)
    {
      if HeaderRow(ws.cells, r) {
        return Some(r + 1);
      }
      r := r + 1;
    }
    return None;
  }

  /** The ПРИЛОЖЕНИЕ 1 sheet: "прил_1" in the lower-cased name, or "акт" in it and "1" in the name. */
  predicate FirstAppendixName(name: String) {
    Contains(Lower(name), "прил_1") || (Contains(Lower(name), "акт") && Contains(name, "1"))
  }

  /** The ПРИЛОЖЕНИЕ 3 sheet: "прил_3" or "ведомость" in the lower-cased name. */
  predicate ThirdAppendixName(name: String) {
    Contains(Lower(name), "прил_3") || Contains(Lower(name), "ведомость")
  }

  /** The data sheet: a name holding "Северен_новая". */
  predicate DataSheetName(name: String) {
    Contains(name, "Северен_новая")
  }

  function FirstAppendix(book: seq<Worksheet>): nat {
    FirstIndex(book, (ws: Worksheet) => FirstAppendixName(ws.title))
  }

  function ThirdAppendix(book: seq<Worksheet>): nat {
    FirstIndex(book, (ws: Worksheet) => ThirdAppendixName(ws.title))
  }

  function DataSheet(book: seq<Worksheet>): nat {
    FirstIndex(book, (ws: Worksheet) => DataSheetName(ws.title))
  }

  function GridOf(ws: Worksheet): Grid
    reads ws
  {
    Grid(ws.cells, ws.maxRow)
  }

  /** Row `idx` of ПРИЛОЖЕНИЕ 1: number, address, start (the work start, else the report start), end, service. */
  function FirstRow(idx: nat, w: Work): map<nat, Cell> {
    map[1 := Int(idx), 2 := FromString(w.address), 3 := (if Truthy(w.workStart) then w.workStart else w.dateStart),
        4 := w.dateEnd, 5 := w.service]
  }

  function FirstRows(data: seq<Work>): (rows: seq<map<nat, Cell>>)
    ensures |rows| == |data|
    ensures forall i :: 0 <= i < |data| ==> rows[i] == FirstRow(i + 1, data[i])
  {
    if data == [] then [] else FirstRows(data[..|data| - 1]) + [FirstRow(|data|, data[|data| - 1])]
  }

  /** ПРИЛОЖЕНИЕ 1 after the update: cleared from the table start, then one row per work. */
  function FirstFilled(g: Grid, start: nat, data: seq<Work>): Grid {
    Grid(ClearedFrom(g.cells, start) + Rows(start, FirstRows(data)), RowsEnd(g.maxRow, start, |data|))
  }

  /** Column A numbers the `n` rows from `start` 1 to `n`. */
  ghost predicate NumberedFrom(cells: map<Key, Cell>, start: nat, n: nat) {
    forall row: nat :: start <= row < start + n ==> At(cells, row, 1) == Int(row - start + 1)
  }

  /** The rows above `start` are as they were. */
  ghost predicate KeptAbove(before: map<Key, Cell>, after: map<Key, Cell>, start: nat) {
    forall row: nat, c: nat :: row < start ==> At(after, row, c) == At(before, row, c)
  }

  /** `update_prilozhenie_1` on one sheet; None where it returns False for want of a table. */
  function UpdateFirst(g: Grid, data: seq<Work>): Option<Grid> {
    match TableStart(g.cells)
    case None => None
    case Some(start) => Some(FirstFilled(g, start, data))
  }

  /**
   * `update_prilozhenie_1` fails exactly when the sheet has no table header;
   * otherwise column A numbers the works 1 to n from the table start, and
   * the rows above it are as they were.
   */
  lemma UpdateFirstNumbered(g: Grid, data: seq<Work>)
    ensures UpdateFirst(g, data).None? <==> TableStart(g.cells).None?
    ensures UpdateFirst(g, data).Some? ==>
      NumberedFrom(UpdateFirst(g, data).value.cells, TableStart(g.cells).value, |data|)
      && KeptAbove(g.cells, UpdateFirst(g, data).value.cells, TableStart(g.cells).value)
  {
    if TableStart(g.cells).Some? {
      FirstNumberedAll(g, TableStart(g.cells).value, data);
    }
  }

  lemma FirstNumberedAll(g: Grid, start: nat, data: seq<Work>)
    ensures NumberedFrom(FirstFilled(g, start, data).cells, start, |data|)
    ensures KeptAbove(g.cells, FirstFilled(g, start, data).cells, start)
  {
    forall row: nat | start <= row < start + |data|
      ensures At(FirstFilled(g, start, data).cells, row, 1) == Int(row - start + 1)
    {
      FirstNumbered(g, start, data, row, 1);
    }
    forall row: nat, c: nat | row < start
      ensures At(FirstFilled(g, start, data).cells, row, c) == At(g.cells, row, c)
    {
      FirstNumbered(g, start, data, row, c);
    }
  }

  /**
   * `float(price)` of a number, `float(str(price).replace(' ', ''))` of
   * anything else, in whole roubles; None where it raises.
   */
  function PriceValue(c: Cell): Option<int> {
    match c
    case Int(n) => Some(n)
    case _ => AG.FloatToInt(Filter(Str(c), NotBlankChar))
  }

  predicate NotBlankChar(ch: char) { ch != ' ' }

  /** A price written with a space between its thousands, as in "1 850", reads as the digits without the space. */
  lemma PriceValueSpaced(a: String, b: String)
    requires a != [] && AllDigits(a) && AllDigits(b)
    ensures PriceValue(Text(a + " " + b)) == Some(DigitsValue(a + b) as int)
  {
    SpaceDropped(a, b);
    assert AllDigits(a + b);
    AG.DigitsFloat(a + b);
  }

  lemma SpaceDropped(a: String, b: String)
    requires AllDigits(a) && AllDigits(b)
    ensures Filter(a + " " + b, NotBlankChar) == a + b
  {
    var sp: String := [' '];
    var t := sp + b;
    assert a + " " + b == a + t;
    assert Filter(sp, NotBlankChar) == [] by {
      assert sp[1..] == [];
    }
    assert Filter(t, NotBlankChar) == b by {
      FilterAppend(sp, b, NotBlankChar);
      FilterAll(b, NotBlankChar);
    }
    assert Filter(a, NotBlankChar) == a by {
      FilterAll(a, NotBlankChar);
    }
    FilterAppend(a, t, NotBlankChar);
  }

  /** Column D of ПРИЛОЖЕНИЕ 3: the price where it is set and parses, 0 otherwise. */
  function Written(c: Cell): int {
    if Truthy(c) && PriceValue(c).Some? then PriceValue(c).value else 0
  }

  function PriceOf(w: Work): int { Written(w.price) }

  /** Row `idx` of ПРИЛОЖЕНИЕ 3: number, address, service, price. */
  function ThirdRow(idx: nat, w: Work): map<nat, Cell> {
    map[1 := Int(idx), 2 := FromString(w.address), 3 := w.service, 4 := Int(PriceOf(w))]
  }

  function ThirdRows(data: seq<Work>): (rows: seq<map<nat, Cell>>)
    ensures |rows| == |data|
    ensures forall i :: 0 <= i < |data| ==> rows[i] == ThirdRow(i + 1, data[i])
  {
    if data == [] then [] else ThirdRows(data[..|data| - 1]) + [ThirdRow(|data|, data[|data| - 1])]
  }

  /** The ИТОГО row. */
  function TotalRow(total: int): map<nat, Cell> {
    map[1 := FromString("ИТОГО:"), 4 := Int(total)]
  }

  /** ПРИЛОЖЕНИЕ 3 after the update: cleared, one row per work, then the total right under the last one. */
  function ThirdFilled(g: Grid, start: nat, data: seq<Work>): Grid {
    Grid(ClearedFrom(g.cells, start) + Rows(start, ThirdRows(data)) + InRow(start + |data|, TotalRow(Sum(data, PriceOf))),
      Max(g.maxRow, start + |data|))
  }

  /** `update_prilozhenie_3` on one sheet; None where it returns False for want of a table. */
  function UpdateThird(g: Grid, data: seq<Work>): Option<Grid> {
    match TableStart(g.cells)
    case None => None
    case Some(start) => Some(ThirdFilled(g, start, data))
  }

  /**
   * `update_prilozhenie_3` fails exactly when the sheet has no table header;
   * otherwise the ИТОГО row right under the works holds the label and the sum
   * of their prices.
   */
  lemma UpdateThirdTotal(g: Grid, data: seq<Work>)
    ensures UpdateThird(g, data).None? <==> TableStart(g.cells).None?
    ensures UpdateThird(g, data).Some? ==> var start := TableStart(g.cells).value;
      At(UpdateThird(g, data).value.cells, start + |data|, 1) == Text("ИТОГО:")
      && At(UpdateThird(g, data).value.cells, start + |data|, 4) == Int(Sum(data, PriceOf))
  {
    if TableStart(g.cells).Some? {
      ThirdFilledTotal(g, TableStart(g.cells).value, data);
    }
  }

  /** ПРИЛОЖЕНИЕ 1 is numbered 1 to n from the table start, and everything below the works is empty. */
  lemma FirstNumbered(g: Grid, start: nat, data: seq<Work>, r: nat, c: nat)
    ensures var cells := FirstFilled(g, start, data).cells;
      (start <= r < start + |data| && c == 1 ==> At(cells, r, c) == Int(r - start + 1))
      && (r >= start + |data| ==> At(cells, r, c) == Empty)
      && (r < start ==> At(cells, r, c) == At(g.cells, r, c))
  {
    var rows := FirstRows(data);
    var cleared := ClearedFrom(g.cells, start);
    if start <= r < start + |data| {
      if c == 1 {
        FirstNumber(cleared, start, data, r);
      }
    } else {
      RowsOutside(start, rows, r, c);
      AtUnion(cleared, Rows(start, rows), r, c);
    }
  }

  /** Column A of the row of work `k` holds `k + 1`. */
  lemma FirstNumber(cleared: map<Key, Cell>, start: nat, data: seq<Work>, r: nat)
    requires start <= r < start + |data|
    ensures At(cleared + Rows(start, FirstRows(data)), r, 1) == Int(r - start + 1)
  {
    var rows := FirstRows(data);
    assert rows[r - start] == FirstRow(r - start + 1, data[r - start]);
    RowsCellAt(start, rows, r, 1);
    AtUnion(cleared, Rows(start, rows), r, 1);
  }

  /** Column D of ПРИЛОЖЕНИЕ 3 holds the price of each work, and the ИТОГО row right under them holds their sum. */
  lemma ThirdTotal(g: Grid, start: nat, data: seq<Work>)
    ensures forall i :: 0 <= i < |data| ==> At(ThirdFilled(g, start, data).cells, start + i, 4) == Int(PriceOf(data[i]))
    ensures At(ThirdFilled(g, start, data).cells, start + |data|, 4) == Int(Sum(data, PriceOf))
    ensures At(ThirdFilled(g, start, data).cells, start + |data|, 1) == Text("ИТОГО:")
  {
    ThirdFilledPrices(g, start, data);
    ThirdFilledTotal(g, start, data);
  }

  lemma ThirdFilledPrices(g: Grid, start: nat, data: seq<Work>)
    ensures forall i :: 0 <= i < |data| ==> At(ThirdFilled(g, start, data).cells, start + i, 4) == Int(PriceOf(data[i]))
  {
    var total := InRow(start + |data|, TotalRow(Sum(data, PriceOf)));
    forall i | 0 <= i < |data|
      ensures At(ThirdFilled(g, start, data).cells, start + i, 4) == Int(PriceOf(data[i]))
    {
      ThirdPrice(g.cells, start, data, i, total);
    }
  }

  lemma ThirdFilledTotal(g: Grid, start: nat, data: seq<Work>)
    ensures At(ThirdFilled(g, start, data).cells, start + |data|, 4) == Int(Sum(data, PriceOf))
    ensures At(ThirdFilled(g, start, data).cells, start + |data|, 1) == Text("ИТОГО:")
  {
    var body := ClearedFrom(g.cells, start) + Rows(start, ThirdRows(data));
    TotalBelow(body, start + |data|, Sum(data, PriceOf));
  }

  /** The ИТОГО row holds the label in column A and the total in column D. */
  lemma TotalBelow(body: map<Key, Cell>, row: nat, total: int)
    ensures At(body + InRow(row, TotalRow(total)), row, 4) == Int(total)
    ensures At(body + InRow(row, TotalRow(total)), row, 1) == Text("ИТОГО:")
  {
    AtUnion(body, InRow(row, TotalRow(total)), row, 4);
    AtUnion(body, InRow(row, TotalRow(total)), row, 1);
  }

  /** Column D of the row of work `i`, whatever is added below the works. */
  lemma ThirdPrice(cells: map<Key, Cell>, start: nat, data: seq<Work>, i: nat, below: map<Key, Cell>)
    requires i < |data| && (start + i, 4) !in below
    ensures At(ClearedFrom(cells, start) + Rows(start, ThirdRows(data)) + below, start + i, 4) == Int(PriceOf(data[i]))
  {
    var rows := ThirdRows(data);
    var w := rows[i];
    assert w == ThirdRow(i + 1, data[i]);
    assert 4 in w && w[4] == Int(PriceOf(data[i]));
    RowsCell(start, rows, i, 4);
    AtUnion(ClearedFrom(cells, start) + Rows(start, rows), below, start + i, 4);
    AtUnion(ClearedFrom(cells, start), Rows(start, rows), start + i, 4);
  }

  /** A price that is missing or does not parse adds nothing, so the total is the sum of the parsed prices. */
  lemma UnparsedPriceAddsNothing(w: Work)
    requires !Truthy(w.price) || PriceValue(w.price).None?
    ensures PriceOf(w) == 0
  {
  }

  // ---------------------------------------------------------------- writing the sheets

  /** The five writes of one ПРИЛОЖЕНИЕ 1 row. */
  method WriteFirstRow(ws: Worksheet, row: nat, idx: nat, w: Work)
    requires ws.Valid() && row >= 1
    modifies ws
    ensures ws.Valid() && ws.maxRow == Max(old(ws.maxRow), row)
    ensures ws.cells == old(ws.cells) + InRow(row, FirstRow(idx, w))
  {
    ghost var before := ws.cells;
    ghost var m: map<nat, Cell> := map[];
    assert before + InRow(row, m) == before;
    m := ws.PutWhen(true, row, 1, Int(idx), before, m);
    m := ws.PutWhen(true, row, 2, FromString(w.address), before, m);
    m := ws.PutWhen(true, row, 3, if Truthy(w.workStart) then w.workStart else w.dateStart, before, m);
    m := ws.PutWhen(true, row, 4, w.dateEnd, before, m);
    m := ws.PutWhen(true, row, 5, w.service, before, m);
    assert m == FirstRow(idx, w);
  }

  /** The four writes of one ПРИЛОЖЕНИЕ 3 row. */
  method WriteThirdRow(ws: Worksheet, row: nat, idx: nat, w: Work)
    requires ws.Valid() && row >= 1
    modifies ws
    ensures ws.Valid() && ws.maxRow == Max(old(ws.maxRow), row)
    ensures ws.cells == old(ws.cells) + InRow(row, ThirdRow(idx, w))
  {
    ghost var before := ws.cells;
    ghost var m: map<nat, Cell> := map[];
    assert before + InRow(row, m) == before;
    m := ws.PutWhen(true, row, 1, Int(idx), before, m);
    m := ws.PutWhen(true, row, 2, FromString(w.address), before, m);
    m := ws.PutWhen(true, row, 3, w.service, before, m);
    m := ws.PutWhen(true, row, 4, Int(PriceOf(w)), before, m);
    assert m == ThirdRow(idx, w);
  }

  lemma FirstRowsSnoc(data: seq<Work>, i: nat)
    requires i < |data|
    ensures FirstRows(data[..i + 1]) == FirstRows(data[..i]) + [FirstRow(i + 1, data[i])]
  {
  }

  lemma ThirdRowsSnoc(data: seq<Work>, i: nat)
    requires i < |data|
    ensures ThirdRows(data[..i + 1]) == ThirdRows(data[..i]) + [ThirdRow(i + 1, data[i])]
  {
  }

  /** Writing work `i` in row `start + i` extends the ПРИЛОЖЕНИЕ 1 rows by one. */
  lemma FirstRowsStep(base: map<Key, Cell>, start: nat, data: seq<Work>, i: nat)
    requires i < |data|
    ensures base + Rows(start, FirstRows(data[..i + 1])) == (base + Rows(start, FirstRows(data[..i]))) + InRow(start + i, FirstRow(i + 1, data[i]))
  {
    FirstRowsSnoc(data, i);
    RowsSnoc(base, start, FirstRows(data[..i]), FirstRow(i + 1, data[i]));
  }

  /** Writing work `i` in row `start + i` extends the ПРИЛОЖЕНИЕ 3 rows by one. */
  lemma ThirdRowsStep(base: map<Key, Cell>, start: nat, data: seq<Work>, i: nat)
    requires i < |data|
    ensures base + Rows(start, ThirdRows(data[..i + 1])) == (base + Rows(start, ThirdRows(data[..i]))) + InRow(start + i, ThirdRow(i + 1, data[i]))
  {
    ThirdRowsSnoc(data, i);
    RowsSnoc(base, start, ThirdRows(data[..i]), ThirdRow(i + 1, data[i]));
  }

  /** One pass of the fill loop of `update_prilozhenie_1`: work `i` goes to row `start + i`, numbered `i + 1`. */
  method AppendFirst(ws: Worksheet, start: nat, data: seq<Work>, i: nat, ghost base: map<Key, Cell>, ghost m0: nat)
    requires ws.Valid() && start >= 1 && i < |data|
    requires ws.cells == base + Rows(start, FirstRows(data[..i])) && ws.maxRow == RowsEnd(m0, start, i)
    modifies ws
    ensures ws.Valid()
    ensures ws.cells == base + Rows(start, FirstRows(data[..i + 1])) && ws.maxRow == RowsEnd(m0, start, i + 1)
  {
    WriteFirstRow(ws, start + i, i + 1, data[i]);
    RowsEndStep(m0, start, i);
    FirstRowsStep(base, start, data, i);
  }

  /** The fill loop of `update_prilozhenie_1`: row `start + i` gets work `i`, numbered `i + 1`. */
  method FillFirst(ws: Worksheet, start: nat, data: seq<Work>)
    requires ws.Valid() && start >= 1
    modifies ws
    ensures ws.Valid() && ws.maxRow == RowsEnd(old(ws.maxRow), start, |data|)
    ensures ws.cells == old(ws.cells) + Rows(start, FirstRows(data))
  {
    ghost var base, m0 := ws.cells, ws.maxRow;
    var i := 0;
    while i < |data|
      invariant 0 <= i <= |data| && ws.Valid()
      invariant ws.cells == base + Rows(start, FirstRows(data[..i]))
      invariant ws.maxRow == RowsEnd(m0, start, i)
    {
      AppendFirst(ws, start, data, i, base, m0);
      i := i + 1;
    }
    WholePrefix(data, i);
  }

  /** One pass of the fill loop of `update_prilozhenie_3`: work `i` goes to row `start + i`, numbered `i + 1`. */
  method AppendThird(ws: Worksheet, start: nat, data: seq<Work>, i: nat, ghost base: map<Key, Cell>, ghost m0: nat)
    requires ws.Valid() && start >= 1 && i < |data|
    requires ws.cells == base + Rows(start, ThirdRows(data[..i])) && ws.maxRow == RowsEnd(m0, start, i)
    modifies ws
    ensures ws.Valid()
    ensures ws.cells == base + Rows(start, ThirdRows(data[..i + 1])) && ws.maxRow == RowsEnd(m0, start, i + 1)
  {
    WriteThirdRow(ws, start + i, i + 1, data[i]);
    RowsEndStep(m0, start, i);
    ThirdRowsStep(base, start, data, i);
  }

  /** `total_sum += price_val` where the price is set and parses. */
  method AddPrice(total: int, w: Work) returns (total': int)
    ensures total' == total + PriceOf(w)
  {
    total' := total;
    var price := w.price;
    if Truthy(price) {
      var v := PriceValue(price);
      if v.Some? {
        total' := total + v.value;
      }
    }
  }

  lemma PricesStep(data: seq<Work>, i: nat)
    requires i < |data|
    ensures Sum(data[..i + 1], PriceOf) == Sum(data[..i], PriceOf) + PriceOf(data[i])
  {
    assert data[..i + 1] == data[..i] + [data[i]];
    SumAppend(data[..i], [data[i]], PriceOf);
  }

  /** The fill loop of `update_prilozhenie_3`, which also adds up the prices it writes. */
  method FillThird(ws: Worksheet, start: nat, data: seq<Work>) returns (total: int)
    requires ws.Valid() && start >= 1
    modifies ws
    ensures total == Sum(data, PriceOf)
    ensures ws.Valid() && ws.maxRow == RowsEnd(old(ws.maxRow), start, |data|)
    ensures ws.cells == old(ws.cells) + Rows(start, ThirdRows(data))
  {
    ghost var base, m0 := ws.cells, ws.maxRow;
    total := 0;
    var i := 0;
    while i < |data|
      invariant 0 <= i <= |data| && ws.Valid()
      invariant total == Sum(data[..i], PriceOf)
      invariant ws.cells == base + Rows(start, ThirdRows(data[..i]))
      invariant ws.maxRow == RowsEnd(m0, start, i)
    {
      AppendThird(ws, start, data, i, base, m0);
      total := AddPrice(total, data[i]);
      PricesStep(data, i);
      i := i + 1;
    }
    WholePrefix(data, i);
  }

  /** The ИТОГО row under the last work. */
  method WriteTotal(ws: Worksheet, row: nat, total: int)
    requires ws.Valid() && row >= 1
    modifies ws
    ensures ws.Valid() && ws.maxRow == Max(old(ws.maxRow), row)
    ensures ws.cells == old(ws.cells) + InRow(row, TotalRow(total))
  {
    ghost var before := ws.cells;
    ghost var m: map<nat, Cell> := map[];
    assert before + InRow(row, m) == before;
    m := ws.PutWhen(true, row, 1, FromString("ИТОГО:"), before, m);
    m := ws.PutWhen(true, row, 4, Int(total), before, m);
    assert m == TotalRow(total);
  }

  /** `update_prilozhenie_1` on its sheet, once found. */
  method RefillFirst(ws: Worksheet, data: seq<Work>) returns (ok: bool)
    requires ws.Valid()
    modifies ws
    ensures ws.Valid()
    ensures ok <==> UpdateFirst(old(GridOf(ws)), data).Some?
    ensures GridOf(ws) == if ok then UpdateFirst(old(GridOf(ws)), data).value else old(GridOf(ws))
  {
    var start := FindTableStart(ws);
    if start.None? {
      return false;
    }
    ws.ClearFrom(start.value);
    FillFirst(ws, start.value, data);
    return true;
  }

  /** The works of ПРИЛОЖЕНИЕ 3 from row `start`, then the ИТОГО row under them. */
  method FillThirdTable(ws: Worksheet, start: nat, data: seq<Work>)
    requires ws.Valid() && start >= 1
    modifies ws
    ensures ws.Valid() && ws.maxRow == Max(old(ws.maxRow), start + |data|)
    ensures ws.cells == old(ws.cells) + Rows(start, ThirdRows(data)) + InRow(start + |data|, TotalRow(Sum(data, PriceOf)))
  {
    ghost var m0 := ws.maxRow;
    var total := FillThird(ws, start, data);
    WriteTotal(ws, start + |data|, total);
    RowsEndBelow(m0, start, |data|);
  }

  /** Clearing from the table start, then filling: the sheet becomes `ThirdFilled`. */
  method RewriteThird(ws: Worksheet, start: nat, data: seq<Work>)
    requires ws.Valid() && start >= 1
    modifies ws
    ensures ws.Valid() && GridOf(ws) == ThirdFilled(old(GridOf(ws)), start, data)
  {
    ws.ClearFrom(start);
    FillThirdTable(ws, start, data);
  }

  /** `update_prilozhenie_3` on its sheet, once found. */
  method RefillThird(ws: Worksheet, data: seq<Work>) returns (ok: bool)
    requires ws.Valid()
    modifies ws
    ensures ws.Valid()
    ensures ok <==> UpdateThird(old(GridOf(ws)), data).Some?
    ensures GridOf(ws) == if ok then UpdateThird(old(GridOf(ws)), data).value else old(GridOf(ws))
  {
    var start := FindTableStart(ws);
    if start.None? {
      return false;
    }
    RewriteThird(ws, start.value, data);
    return true;
  }
  // ---------------------------------------------------------------- the whole run

  /** Two sheets that agree on column A above row `start` find the same table from row `r` on. */
  lemma {:induction false} StartFromSame(a: map<Key, Cell>, b: map<Key, Cell>, r: nat, start: nat)
    requires 1 <= r <= 20 && StartFrom(a, r) == Some(start)
    requires forall q :: r <= q < start ==> At(a, q, 1) == At(b, q, 1)
    ensures StartFrom(b, r) == Some(start)
    decreases 20 - r
  {
    assert At(a, r, 1) == At(b, r, 1);
    if !HeaderRow(a, r) {
      StartFromSame(a, b, r + 1, start);
    }
  }

  /** Refilling ПРИЛОЖЕНИЕ 1 leaves its header where it was, so a second search finds the same table start. */
  lemma FirstKeepsTable(g: Grid, start: nat, data: seq<Work>)
    requires TableStart(g.cells) == Some(start)
    ensures TableStart(FirstFilled(g, start, data).cells) == Some(start)
  {
    var b := FirstFilled(g, start, data).cells;
    forall q | 1 <= q < start
      ensures At(g.cells, q, 1) == At(b, q, 1)
    {
      FirstNumbered(g, start, data, q, 1);
    }
    StartFromSame(g.cells, b, 1, start);
  }

  /** A sheet after `update_prilozhenie_1`: refilled when it has a table, as it was otherwise. */
  function AfterFirst(g: Grid, data: seq<Work>): Grid {
    match UpdateFirst(g, data)
    case Some(h) => h
    case None => g
  }

  function AfterThird(g: Grid, data: seq<Work>): Grid {
    match UpdateThird(g, data)
    case Some(h) => h
    case None => g
  }

  /** `datetime(year, month, 1)` and `monthrange(year, month)` accept the period. */
  predicate ValidPeriod(year: int, month: int) {
    1 <= year <= 9999 && 1 <= month <= 12
  }

  /** The cells and `max_row` of every sheet of the book. */
  function Grids(book: seq<Worksheet>): (gs: seq<Grid>)
    reads set ws | ws in book
    ensures |gs| == |book| && forall k :: 0 <= k < |book| ==> gs[k] == GridOf(book[k])
  {
    if book == [] then [] else Grids(book[..|book| - 1]) + [GridOf(book[|book| - 1])]
  }

  /** The book after `update_prilozhenie_1`: the sheet at `p`, when there is one, goes through the update. */
  function FirstStep(gs: seq<Grid>, p: nat, data: seq<Work>): seq<Grid> {
    if p < |gs| then gs[p := AfterFirst(gs[p], data)] else gs
  }

  function ThirdStep(gs: seq<Grid>, p: nat, data: seq<Work>): seq<Grid> {
    if p < |gs| then gs[p := AfterThird(gs[p], data)] else gs
  }

  /** What the run did: whether it reports success, and the sheets it leaves in the book. */
  datatype Run = Run(ok: bool, sheets: seq<Grid>)

  /**
   * `generate_monthly_reports` on the sheets of a loaded book (`gs`, in the
   * order of `book`, whose names pick the sheets) with `saved` for what
   * `save()` returned.
   */
  function Monthly(book: seq<Worksheet>, gs: seq<Grid>, year: int, month: int, saved: bool): (r: Run)
    requires |gs| == |book|
    ensures |r.sheets| == |gs|
  {
    var d := DataSheet(book);
    if !ValidPeriod(year, month) || d == |book| then Run(false, gs)
    else
      var data := Extract(gs[d].cells, gs[d].maxRow, year, month);
      if data == [] then Run(false, gs)
      else
        var p1, p3 := FirstAppendix(book), ThirdAppendix(book);
        var gs1 := FirstStep(gs, p1, data);
        var ok1 := p1 < |gs| && UpdateFirst(gs[p1], data).Some?;
        var ok3 := p3 < |gs| && UpdateThird(gs1[p3], data).Some?;
        Run(ok1 && ok3 && saved, ThirdStep(gs1, p3, data))
  }

  /** The works the run reports on: those of the data sheet in the month. */
  function MonthlyData(book: seq<Worksheet>, gs: seq<Grid>, year: int, month: int): seq<Work>
    requires |gs| == |book| && ValidPeriod(year, month) && DataSheet(book) < |book|
  {
    Extract(gs[DataSheet(book)].cells, gs[DataSheet(book)].maxRow, year, month)
  }

  /** A bad period, a missing data sheet or a month without works: failure, and every sheet as it was. */
  lemma MonthlyStops(book: seq<Worksheet>, gs: seq<Grid>, year: int, month: int, saved: bool)
    requires |gs| == |book|
    requires !ValidPeriod(year, month) || DataSheet(book) == |book| || MonthlyData(book, gs, year, month) == []
    ensures Monthly(book, gs, year, month, saved) == Run(false, gs)
  {
  }

  /** The run succeeds exactly when both appendix sheets exist and have a table, and the book was saved. */
  lemma MonthlySucceeds(book: seq<Worksheet>, gs: seq<Grid>, year: int, month: int, saved: bool)
    requires |gs| == |book| && ValidPeriod(year, month) && DataSheet(book) < |book| && MonthlyData(book, gs, year, month) != []
    ensures var p1, p3 := FirstAppendix(book), ThirdAppendix(book);
      Monthly(book, gs, year, month, saved).ok
      <==> p1 < |book| && p3 < |book| && TableStart(gs[p1].cells).Some? && TableStart(gs[p3].cells).Some? && saved
  {
    var p1, p3 := FirstAppendix(book), ThirdAppendix(book);
    var data := MonthlyData(book, gs, year, month);
    if p1 < |book| && p1 == p3 && TableStart(gs[p1].cells).Some? {
      FirstKeepsTable(gs[p1], TableStart(gs[p1].cells).value, data);
    }
  }

  /** Only the two appendix sheets change; the data sheet and every other sheet stay as they were. */
  lemma MonthlyTouchesAppendices(book: seq<Worksheet>, gs: seq<Grid>, year: int, month: int, saved: bool, k: nat)
    requires |gs| == |book| && k < |book| && k != FirstAppendix(book) && k != ThirdAppendix(book)
    ensures Monthly(book, gs, year, month, saved).sheets[k] == gs[k]
  {
  }

  /** `update_prilozhenie_1` over the book: the first sheet whose name matches is refilled, nothing else changes. */
  method UpdateFirstSheet(book: seq<Worksheet>, data: seq<Work>) returns (ok: bool)
    requires forall k :: 0 <= k < |book| ==> book[k].Valid()
    requires forall k, l :: 0 <= k < l < |book| ==> book[k] != book[l]
    modifies set ws | ws in book
    ensures forall k :: 0 <= k < |book| ==> book[k].Valid()
    ensures ok <==> FirstAppendix(book) < |book| && UpdateFirst(old(Grids(book))[FirstAppendix(book)], data).Some?
    ensures Grids(book) == FirstStep(old(Grids(book)), FirstAppendix(book), data)
  {
    var p := FirstAppendix(book);
    if p == |book| {
      return false;
    }
    ghost var before := Grids(book);
    assert forall k :: 0 <= k < |book| && k != p ==> book[k] != book[p];
    ok := RefillFirst(book[p], data);
    assert GridOf(book[p]) == AfterFirst(before[p], data);
    ghost var after := Grids(book);
    forall k | 0 <= k < |book|
      ensures after[k] == FirstStep(before, p, data)[k]
    {
      if k != p {
        assert GridOf(book[k]) == before[k];
      }
    }
  }

  /** `update_prilozhenie_3` over the book. */
  method UpdateThirdSheet(book: seq<Worksheet>, data: seq<Work>) returns (ok: bool)
    requires forall k :: 0 <= k < |book| ==> book[k].Valid()
    requires forall k, l :: 0 <= k < l < |book| ==> book[k] != book[l]
    modifies set ws | ws in book
    ensures forall k :: 0 <= k < |book| ==> book[k].Valid()
    ensures ok <==> ThirdAppendix(book) < |book| && UpdateThird(old(Grids(book))[ThirdAppendix(book)], data).Some?
    ensures Grids(book) == ThirdStep(old(Grids(book)), ThirdAppendix(book), data)
  {
    var p := ThirdAppendix(book);
    if p == |book| {
      return false;
    }
    ghost var before := Grids(book);
    assert forall k :: 0 <= k < |book| && k != p ==> book[k] != book[p];
    ok := RefillThird(book[p], data);
    assert GridOf(book[p]) == AfterThird(before[p], data);
    ghost var after := Grids(book);
    forall k | 0 <= k < |book|
      ensures after[k] == ThirdStep(before, p, data)[k]
    {
      if k != p {
        assert GridOf(book[k]) == before[k];
      }
    }
  }

  /**
   * `generate_monthly_reports` on a loaded book; `saved` is what `save()`
   * returned. The sheets end as `Monthly` says, and so does the answer.
   */
  method GenerateMonthly(book: seq<Worksheet>, year: int, month: int, saved: bool) returns (ok: bool)
    requires forall k :: 0 <= k < |book| ==> book[k].Valid()
    requires forall k, l :: 0 <= k < l < |book| ==> book[k] != book[l]
    modifies set ws | ws in book
    ensures forall k :: 0 <= k < |book| ==> book[k].Valid()
    ensures Run(ok, Grids(book)) == Monthly(book, old(Grids(book)), year, month, saved)
  {
    if !ValidPeriod(year, month) {
      return false;
    }
    var d := DataSheet(book);
    if d == |book| {
      return false;
    }
    var data := ExtractData(book[d], year, month);
    if data == [] {
      return false;
    }
    var ok1 := UpdateFirstSheet(book, data);
    var ok3 := UpdateThirdSheet(book, data);
    ok := ok1 && ok3 && saved;
  }
}
