/**
 * `EnhancedDocumentGenerator` (enhanced_generator.py): the price and task
 * loading of `load_data`, with the split of each address into a main address
 * and its transit addresses, and the table of `generate_beautiful_zadanie`,
 * one row per task followed by one row per transit address.
 */
module EnhancedGenerator {
  import opened Wrappers
  import opened Text
  import opened Lists
  import opened Transits
  import AG = ActGenerator
  import DG = DocumentGenerator

  type Value = AG.Value

  // ---------------------------------------------------------------- addresses

  /** The lower-case marker `load_data` splits an address at. */
  const LowerMarker: String := "транзитные адреса"

  /** The lower-case marker starts like the word that flags it, and its 'т' comes back only before an 'н'. */
  lemma LowerMarkerUnbordered()
    ensures Unbordered(LowerMarker)
  {
  }

  /** An occurrence of the lower-case marker flags the address. */
  lemma MarkerFlags(s: String, i: nat)
    requires OccursAt(s, LowerMarker, i)
    ensures Contains(Lower(s), Hint)
  {
    var h := |Hint|;
    forall j | 0 <= j < h
      ensures Lower(s)[i + j] == Hint[j]
    {
      assert s[i + j] == s[i..i + |LowerMarker|][j] == LowerMarker[j];
    }
    assert Lower(s)[i..i + h] == Hint;
    ContainsSlice(Lower(s), i, i + h);
  }

  /**
   * `main_address` and `transit_addresses` of `load_data`: an address that
   * mentions "транзит" in any case is split at the lower-case marker; any
   * other address is kept whole and has no transit addresses.
   */
  function SplitAddress(a: String): (r: (String, seq<String>))
    ensures !Contains(Lower(a), Hint) ==> r == (a, [])
    ensures Contains(Lower(a), Hint) && !Contains(a, LowerMarker) ==> r == (Strip(a), [])
    ensures Contains(Lower(a), Hint) && Contains(a, LowerMarker) ==>
      r == (Strip(a[..IndexOf(a, LowerMarker).value]), TransitsAfter(a, LowerMarker))
    ensures ListItems(r.1)
  {
    if Contains(Lower(a), Hint) then
      var parts := Split(a, LowerMarker);
      SplitHead(a, LowerMarker);
      if |parts| > 1 then
        SplitSecond(a, LowerMarker);
        (Strip(parts[0]), CommaList(Strip(parts[1])))
      else (Strip(parts[0]), [])
    else (a, [])
  }

  /**
   * A main address, the lower-case marker and a list written out with
   * `", ".join` split back into the stripped main address and that list.
   */
  lemma SplitAddressRoundTrip(pre: String, items: seq<String>)
    requires !Contains(pre, LowerMarker) && ListItems(items) && !Contains(Join(items, ", "), LowerMarker)
    ensures SplitAddress(pre + LowerMarker + Join(items, ", ")) == (Strip(pre), items)
  {
    var t := Join(items, ", ");
    var s := pre + LowerMarker + t;
    LowerMarkerUnbordered();
    FirstAt(pre, LowerMarker, t);
    MarkerFlags(s, |pre|);
    assert s[..|pre|] == pre;
    TransitsRoundTrip(pre, LowerMarker, items);
  }

  // ---------------------------------------------------------------- loading

  /** A task as `load_data` stores it; `full` is the address as read, before the split. */
  datatype EnhancedTask = EnhancedTask(number: Value, month: Value, district: Value, main: String,
                                       transits: seq<String>, full: String, notes: Value)

  /** `row.iloc[-1] if pd.notna(row.iloc[-1]) else ''`; None where the value is no string and `.lower()` raises. */
  function AddressText(v: Value): Option<String> {
    match v
    case NA => Some([])
    case Txt(s) => Some(s)
    case _ => None
  }

  /** The task of a kept row; None where its address is no string. */
  function TaskOf(r: DG.TaskRow): (t: Option<EnhancedTask>)
    ensures t.Some? <==> AddressText(r.last).Some?
    ensures t.Some? ==> t.value.full == AddressText(r.last).value && t.value.number == r.number
    ensures t.Some? ==> (t.value.main, t.value.transits) == SplitAddress(t.value.full)
  {
    match AddressText(r.last)
    case None => None
    case Some(a) =>
      var (main, transits) := SplitAddress(a);
      Some(EnhancedTask(r.number, DG.Blank(r.month), DG.Blank(r.district), main, transits, a, DG.Blank(r.notes)))
  }

  /** A kept row whose address makes `load_data` raise. */
  predicate Unreadable(r: DG.TaskRow) {
    DG.Kept(r) && AddressText(r.last).None?
  }

  /** The tasks the loop of `load_data` appends; None where a kept row raises. */
  function LoadTasks(rows: seq<DG.TaskRow>): (r: Option<seq<EnhancedTask>>)
    ensures r.Some? ==> |r.value| <= |rows|
    ensures r.Some? ==> forall t :: t in r.value ==> (t.main, t.transits) == SplitAddress(t.full)
  {
    if rows == [] then Some([])
    else
      match LoadTasks(rows[..|rows| - 1])
      case None => None
      case Some(ts) =>
        var r := rows[|rows| - 1];
        if !DG.Kept(r) then Some(ts)
        else match TaskOf(r)
          case None => None
          case Some(t) => Some(ts + [t])
  }

  /** Loading the tasks fails exactly when some kept row has an address that is no string. */
  lemma {:induction false} LoadTasksFails(rows: seq<DG.TaskRow>)
    ensures LoadTasks(rows).None? <==> exists i :: 0 <= i < |rows| && Unreadable(rows[i])
  {
    if rows != [] {
      var n := |rows| - 1;
      var init := rows[..n];
      LoadTasksFails(init);
      if exists i :: 0 <= i < |init| && Unreadable(init[i]) {
        var i :| 0 <= i < |init| && Unreadable(init[i]);
        assert rows[i] == init[i];
      }
      if exists i :: 0 <= i < n && Unreadable(rows[i]) {
        var i :| 0 <= i < n && Unreadable(rows[i]);
        assert init[i] == rows[i];
      }
    }
  }

  /** The loaded tasks are those of the kept rows, in order, and nothing else. */
  lemma {:induction false} LoadTasksAreKeptRows(rows: seq<DG.TaskRow>)
    requires LoadTasks(rows).Some?
    ensures var ts, kept := LoadTasks(rows).value, Filter(rows, DG.Kept);
      |ts| == |kept| && forall j :: 0 <= j < |ts| ==> TaskOf(kept[j]) == Some(ts[j])
  {
    if rows != [] {
      var n := |rows| - 1;
      LoadTasksAreKeptRows(rows[..n]);
      FilterPrefix(rows, n, DG.Kept);
      WholePrefix(rows, n + 1);
    }
  }

  // ---------------------------------------------------------------- the task table

  /** The fixed texts of the table: its four headers, the indent of a transit row and its service text. */
  datatype Wording = Wording(headers: seq<String>, arrow: String, transitNote: String)

  const Enhanced: Wording := Wording(
    ["Адрес\nпредоставления услуги", "Дата передачи\nзадания", "Дата\nвыполнения задания", "Вид оказанной услуги"],
    "   → ", "(транзитный адрес)")

  /** `tasks_for_number`: the tasks whose `str(number)` is the requested number, in order. */
  function Chosen(tasks: seq<EnhancedTask>, number: String): (r: seq<EnhancedTask>)
    ensures forall j :: 0 <= j < |r| ==> AG.StrOf(r[j].number) == number && r[j] in tasks
  {
    Filter(tasks, (t: EnhancedTask) => AG.StrOf(t.number) == number)
  }

  /** The table rows a task takes: its main row and one per transit address. */
  function Span(t: EnhancedTask): nat {
    1 + |t.transits|
  }

  /** `num_rows`. */
  function NumRows(ts: seq<EnhancedTask>): (n: nat)
    ensures n >= |ts|
  {
    if ts == [] then 0 else NumRows(ts[..|ts| - 1]) + Span(ts[|ts| - 1])
  }

  /** A longer prefix of the tasks takes at least as many rows, each task its span more. */
  lemma {:induction false} NumRowsPrefix(ts: seq<EnhancedTask>, i: nat)
    requires i < |ts|
    ensures NumRows(ts[..i + 1]) == NumRows(ts[..i]) + Span(ts[i])
    ensures NumRows(ts[..i + 1]) <= NumRows(ts)
    decreases |ts| - i
  {
    assert ts[..i + 1][..i] == ts[..i];
    if i + 1 < |ts| {
      NumRowsPrefix(ts, i + 1);
    } else {
      assert ts[..i + 1] == ts;
    }
  }

  /**
   * `task['notes'][:200] if task['notes'] else ''`: at most 200 characters of
   * text notes; None where the notes are a non-zero number, a date or a
   * missing value, which cannot be sliced.
   */
  function ServiceText(notes: Value): (r: Option<String>)
    ensures r.Some? <==> notes.Txt? || notes == AG.Number(0)
    ensures notes.Txt? ==> |r.value| <= 200 && |r.value| <= |notes.s| && r.value == notes.s[..|r.value|]
    ensures notes.Txt? && |notes.s| <= 200 ==> r.value == notes.s
    ensures notes == AG.Number(0) ==> r.value == []
  {
    match notes
    case Txt(s) => Some(if |s| <= 200 then s else s[..200])
    case Number(n) => if n == 0 then Some([]) else None
    case _ => None
  }

  /** A task whose main row can be written. */
  predicate Printable(t: EnhancedTask) {
    ServiceText(t.notes).Some?
  }

  predicate AllPrintable(ts: seq<EnhancedTask>) {
    forall j :: 0 <= j < |ts| ==> Printable(ts[j])
  }

  /** The rows of one task: the main row, then a row for each transit address in order. */
  function Block(t: EnhancedTask, today: String, w: Wording): (b: seq<seq<String>>)
    requires Printable(t)
    ensures |b| == Span(t)
  {
    [[t.main, today, [], ServiceText(t.notes).value]]
    + seq(|t.transits|, k requires 0 <= k < |t.transits| => [w.arrow + t.transits[k], today, [], w.transitNote])
  }

  /** The data rows of the table, task after task. */
  function Body(ts: seq<EnhancedTask>, today: String, w: Wording): (b: seq<seq<String>>)
    requires AllPrintable(ts)
    ensures |b| == NumRows(ts)
  {
    if ts == [] then []
    else Body(ts[..|ts| - 1], today, w) + Block(ts[|ts| - 1], today, w)
  }

  /** The whole table: the header row, then the data rows. */
  function Lines(ts: seq<EnhancedTask>, today: String, w: Wording): (l: seq<seq<String>>)
    requires AllPrintable(ts)
    ensures |l| == NumRows(ts) + 1
  {
    [w.headers] + Body(ts, today, w)
  }

  /**
   * Row `k` of the block of task `i` sits at data row `NumRows(ts[..i]) + k`:
   * each task's main row comes right after the rows of the tasks before it,
   * and its transit rows follow it.
   */
  lemma {:induction false} BodyAt(ts: seq<EnhancedTask>, today: String, w: Wording, i: nat, k: nat)
    requires AllPrintable(ts) && i < |ts| && k < Span(ts[i])
    ensures NumRows(ts[..i]) + k < |Body(ts, today, w)|
    ensures Body(ts, today, w)[NumRows(ts[..i]) + k] == Block(ts[i], today, w)[k]
  {
    var n := |ts| - 1;
    var init := ts[..n];
    if i == n {
      assert ts[..i] == init;
    } else {
      assert ts[..i] == init[..i] && ts[i] == init[i];
      BodyAt(init, today, w, i, k);
    }
  }

  /** The main row of a task: its main address, the date, an empty date and the service text. */
  lemma MainRow(ts: seq<EnhancedTask>, today: String, w: Wording, i: nat)
    requires AllPrintable(ts) && i < |ts|
    ensures var r := NumRows(ts[..i]) + 1;
      r < |Lines(ts, today, w)| && Lines(ts, today, w)[r] == [ts[i].main, today, [], ServiceText(ts[i].notes).value]
  {
    BodyAt(ts, today, w, i, 0);
  }

  /** The row of transit address `k` of a task: the indented address, the date, an empty date and the transit note. */
  lemma TransitRow(ts: seq<EnhancedTask>, today: String, w: Wording, i: nat, k: nat)
    requires AllPrintable(ts) && i < |ts| && k < |ts[i].transits|
    ensures var r := NumRows(ts[..i]) + 2 + k;
      r < |Lines(ts, today, w)| && Lines(ts, today, w)[r] == [w.arrow + ts[i].transits[k], today, [], w.transitNote]
  {
    BodyAt(ts, today, w, i, 1 + k);
  }

  /** Rows of four cells. */
  predicate Wide(lines: seq<seq<String>>) {
    forall r :: 0 <= r < |lines| ==> |lines[r]| == 4
  }

  lemma {:induction false} BodyWide(ts: seq<EnhancedTask>, today: String, w: Wording)
    requires AllPrintable(ts)
    ensures Wide(Body(ts, today, w))
  {
    if ts != [] {
      BodyWide(ts[..|ts| - 1], today, w);
    }
  }

  /** The first rows of `table` hold `lines`, cell by cell. */
  ghost predicate Holds(table: array2<String>, lines: seq<seq<String>>)
    reads table
  {
    table.Length1 == 4 && |lines| <= table.Length0 && Wide(lines)
    && forall r, c :: 0 <= r < |lines| && 0 <= c < 4 ==> table[r, c] == lines[r][c]
  }

  /** Filling the four cells of row `r`, as `cells[0].text = …` up to `cells[3].text = …` do. */
  method WriteRow(table: array2<String>, r: nat, line: seq<String>, ghost lines: seq<seq<String>>)
    requires Holds(table, lines) && r == |lines| < table.Length0 && |line| == 4
    modifies table
    ensures Holds(table, lines + [line])
  {
    table[r, 0] := line[0];
    table[r, 1] := line[1];
    table[r, 2] := line[2];
    table[r, 3] := line[3];
    var next := lines + [line];
    forall q, c | 0 <= q < |next| && 0 <= c < 4
      ensures table[q, c] == next[q][c]
    {
      if q < r {
        assert next[q] == lines[q];
      }
    }
  }

  // ---------------------------------------------------------------- the generator

  class Generator {
    var tasks: seq<EnhancedTask>
    var prices: map<int, DG.PriceEntry>

    /** `__init__` before `load_data`. */
    constructor()
      ensures tasks == [] && prices == map[]
    {
      tasks := [];
      prices := map[];
    }

    /**
     * `load_data`: the price rows, then the task rows. `ok` is false where a
     * listed price row does not convert or a kept task row has an address
     * that is no string.
     */
    method LoadData(priceRows: seq<DG.PriceRow>, taskRows: seq<DG.TaskRow>) returns (ok: bool)
      modifies this
      ensures ok <==> DG.LoadPrices(old(prices), priceRows).Some? && LoadTasks(taskRows).Some?
      ensures ok ==> prices == DG.LoadPrices(old(prices), priceRows).value && tasks == old(tasks) + LoadTasks(taskRows).value
    {
      ok := LoadPriceRows(priceRows);
      if !ok {
        return;
      }
      ok := LoadTaskRows(taskRows);
    }

    /** The price loop of `load_data`: `ok` is false at the first listed row that does not convert. */
    method LoadPriceRows(priceRows: seq<DG.PriceRow>) returns (ok: bool)
      modifies this
      ensures tasks == old(tasks)
      ensures ok <==> DG.LoadPrices(old(prices), priceRows).Some?
      ensures ok ==> prices == DG.LoadPrices(old(prices), priceRows).value
    {
      var i := 0;
      ghost var base := prices;
      while i < |priceRows|
        invariant 0 <= i <= |priceRows|
        invariant DG.LoadPrices(base, priceRows[..i]) == Some(prices)
        invariant tasks == old(tasks)
      {
        assert priceRows[..i + 1][..i] == priceRows[..i];
        var r := priceRows[i];
        if DG.Listed(r) {
          var e := DG.Entry(r);
          if e.None? {
            DG.LoadPricesStops(base, priceRows, i + 1);
            return false;
          }
          prices := prices[e.value.0 := e.value.1];
        }
        i := i + 1;
      }
      assert priceRows[..i] == priceRows;
      return true;
    }

    /** The task loop of `load_data`: `ok` is false at the first kept row whose address is no string. */
    method LoadTaskRows(taskRows: seq<DG.TaskRow>) returns (ok: bool)
      modifies this
      ensures prices == old(prices)
      ensures ok <==> LoadTasks(taskRows).Some?
      ensures ok ==> tasks == old(tasks) + LoadTasks(taskRows).value
    {
      var j := 0;
      ghost var tasks0 := tasks;
      while j < |taskRows|
        invariant 0 <= j <= |taskRows|
        invariant LoadTasks(taskRows[..j]).Some? && tasks == tasks0 + LoadTasks(taskRows[..j]).value
        invariant prices == old(prices)
      {
        assert taskRows[..j + 1][..j] == taskRows[..j];
        var r := taskRows[j];
        if DG.Kept(r) {
          var t := TaskOf(r);
          if t.None? {
            LoadTasksStops(taskRows, j + 1);
            return false;
          }
          tasks := tasks + [t.value];
        }
        j := j + 1;
      }
      assert taskRows[..j] == taskRows;
      return true;
    }

    /**
     * The table of `generate_beautiful_zadanie` for `number` (`str(task_number)`),
     * dated `today`: `num_rows + 1` rows of four cells, the headers, then each
     * chosen task's main row followed by its transit rows, through the
     * counter `row_idx`. `ok` is false where a chosen task's notes cannot be
     * sliced; the table is then left half filled.
     */
    method GenerateTable(number: String, today: String) returns (ok: bool, table: array2<String>)
      ensures fresh(table)
      ensures table.Length0 == NumRows(Chosen(tasks, number)) + 1 && table.Length1 == 4
      ensures ok <==> AllPrintable(Chosen(tasks, number))
      ensures ok ==> Holds(table, Lines(Chosen(tasks, number), today, Enhanced))
    {
      var chosen := Chosen(tasks, number);
      var numRows := NumRows(chosen);
      table := new String[numRows + 1, 4]((_, _) => []);
      WriteRow(table, 0, Enhanced.headers, []);
      ok := FillRows(table, chosen, today, Enhanced);
    }
  }

  /**
   * The loop of `generate_beautiful_zadanie` over `tasks_for_number`, with
   * `row_idx` from 1 on; false where a task's notes cannot be sliced.
   */
  method FillRows(table: array2<String>, chosen: seq<EnhancedTask>, today: String, w: Wording) returns (ok: bool)
    requires Holds(table, [w.headers]) && table.Length0 == NumRows(chosen) + 1
    modifies table
    ensures ok <==> AllPrintable(chosen)
    ensures ok ==> Holds(table, Lines(chosen, today, w))
  {
    var rowIdx := 1;
    var i := 0;
    assert Lines(chosen[..0], today, w) == [w.headers];
    while i < |chosen|
      invariant 0 <= i <= |chosen| && AllPrintable(chosen[..i])
      invariant rowIdx == NumRows(chosen[..i]) + 1
      invariant Holds(table, Lines(chosen[..i], today, w))
    {
      var t := chosen[i];
      if ServiceText(t.notes).None? {
        return false;
      }
      assert AllPrintable(chosen[..i + 1]) by {
        assert forall j :: 0 <= j < i ==> chosen[..i + 1][j] == chosen[..i][j];
      }
      NumRowsPrefix(chosen, i);
      rowIdx := WriteBlock(table, t, today, w, rowIdx, Lines(chosen[..i], today, w));
      LinesSnoc(chosen, today, w, i);
      i := i + 1;
    }
    assert chosen[..i] == chosen;
    return true;
  }

  /**
   * One pass of the loop over `tasks_for_number`: the main row of `t` at `row`,
   * then its transit rows, each advancing `row_idx` by one.
   */
  method WriteBlock(table: array2<String>, t: EnhancedTask, today: String, w: Wording, row: nat, ghost done: seq<seq<String>>)
    returns (next: nat)
    requires Printable(t) && Holds(table, done) && row == |done| && row + Span(t) <= table.Length0
    modifies table
    ensures next == row + Span(t) && Holds(table, done + Block(t, today, w))
  {
    ghost var block := Block(t, today, w);
    var service := ServiceText(t.notes).value;
    WriteRow(table, row, [t.main, today, [], service], done);
    assert block[..1] == [[t.main, today, [], service]];
    next := row + 1;
    var k := 0;
    while k < |t.transits|
      invariant 0 <= k <= |t.transits|
      invariant next == row + 1 + k
      invariant Holds(table, done + block[..1 + k])
    {
      WriteRow(table, next, [w.arrow + t.transits[k], today, [], w.transitNote], done + block[..1 + k]);
      assert block[..2 + k] == block[..1 + k] + [block[1 + k]];
      assert done + block[..2 + k] == done + block[..1 + k] + [block[1 + k]];
      next := next + 1;
      k := k + 1;
    }
    assert block[..1 + k] == block;
  }

  /** The table for one task more adds that task's block. */
  lemma LinesSnoc(ts: seq<EnhancedTask>, today: String, w: Wording, i: nat)
    requires i < |ts| && AllPrintable(ts[..i + 1])
    ensures AllPrintable(ts[..i])
    ensures Lines(ts[..i + 1], today, w) == Lines(ts[..i], today, w) + Block(ts[i], today, w)
  {
    var p := ts[..i + 1];
    assert p[..|p| - 1] == ts[..i] && p[|p| - 1] == ts[i];
    assert AllPrintable(ts[..i]) by {
      assert forall j :: 0 <= j < i ==> ts[..i][j] == p[j];
    }
  }

  /** Once a prefix of the rows fails, the whole load fails. */
  lemma LoadTasksStops(rows: seq<DG.TaskRow>, i: nat)
    requires i <= |rows| && LoadTasks(rows[..i]).None?
    ensures LoadTasks(rows).None?
  {
    LoadTasksFails(rows[..i]);
    LoadTasksFails(rows);
    var j :| 0 <= j < i && Unreadable(rows[..i][j]);
    assert rows[..i][j] == rows[j];
  }
}
