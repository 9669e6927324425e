/**
 * `analyze_your_file` (analyze_excel.py): the tasks read from the "Эксель"
 * sheet with their transit addresses, the price list read from "расценки",
 * and the statistics and example total computed from them.
 */
module AnalyzeExcel {
  import opened Wrappers
  import opened Text
  import opened Lists
  import opened Transits
  import AG = ActGenerator
  import DG = DocumentGenerator
  import EG = EnhancedGenerator

  type Value = AG.Value

  // ---------------------------------------------------------------- tasks

  /** The columns of a row of the "Эксель" sheet the loop reads: 0, 2, 3, 4 and the last. */
  datatype SheetRow = SheetRow(first: Value, number: Value, district: Value, notes: Value, last: Value)

  /** A task dict; `main` keeps the type of the address, which is text only where it was split. */
  datatype Task = Task(rowNumber: nat, number: Value, district: Value, full: Value, notes: Value,
                       main: Value, transits: seq<String>, hasTransits: bool)

  /**
   * `main_address`, `transit_addresses` and `has_transits` of an address.
   * `str()` of a number or a date holds no Cyrillic letter, so only a text
   * address can mention "транзит"; it is split at the lower-case marker, and
   * the transit list is the comma list of the piece after the marker, up to
   * the next one.
   */
  function SplitFull(full: Value): (r: (Value, seq<String>, bool))
    ensures r.2 <==> full.Txt? && Contains(Lower(full.s), Hint) && Contains(full.s, EG.LowerMarker)
    ensures r.2 ==> r.0 == AG.Txt(Strip(full.s[..IndexOf(full.s, EG.LowerMarker).value]))
    ensures r.2 ==> r.1 == CommaList(Between(full.s, EG.LowerMarker))
    ensures !r.2 ==> r.1 == []
    ensures !(full.Txt? && Contains(Lower(full.s), Hint)) ==> r.0 == full
    ensures ListItems(r.1)
  {
    SplitAt(full, Hint, EG.LowerMarker)
  }

  /** The split of `SplitFull` for any hint and any non-empty marker. */
  function SplitAt(full: Value, hint: String, marker: String): (r: (Value, seq<String>, bool))
    requires |marker| > 0
    ensures r.2 <==> full.Txt? && Contains(Lower(full.s), hint) && Contains(full.s, marker)
    ensures r.2 ==> r.0 == AG.Txt(Strip(full.s[..IndexOf(full.s, marker).value]))
    ensures r.2 ==> r.1 == CommaList(Between(full.s, marker))
    ensures !r.2 ==> r.1 == []
    ensures !(full.Txt? && Contains(Lower(full.s), hint)) ==> r.0 == full
    ensures ListItems(r.1)
  {
    match full
    case Txt(s) =>
      if Contains(Lower(s), hint) then
        var parts := Split(s, marker);
        SplitHead(s, marker);
        if |parts| > 1 then
          SplitSecond(s, marker);
          CommaListItems(parts[1]);
          (AG.Txt(Strip(parts[0])), CommaList(parts[1]), true)
        else (AG.Txt(Strip(parts[0])), [], false)
      else (full, [], false)
    case _ => (full, [], false)
  }

  /** The marker with nothing after it: the task has transits by its flag, yet its transit list is empty. */
  lemma FlaggedWithoutTransits(pre: String)
    requires !Contains(pre, EG.LowerMarker)
    ensures var r := SplitFull(AG.Txt(pre + EG.LowerMarker)); r.2 && r.1 == []
  {
    var m := EG.LowerMarker;
    var s := pre + m;
    assert s == pre + m + [];
    EG.LowerMarkerUnbordered();
    FirstAt(pre, m, []);
    EG.MarkerFlags(s, |pre|);
    assert s[|pre| + |m|..] == [];
    assert Between(s, m) == [];
    assert Split([], ",") == [[]];
  }

  /** The dict the loop builds from the row `r` at index `i` of the sheet. */
  function TaskAt(r: SheetRow, i: nat): (t: Task)
    ensures t.rowNumber == i + 1 && t.number == DG.Blank(r.number) && t.full == DG.Blank(r.last)
    ensures t.transits != [] ==> t.hasTransits
  {
    var full := DG.Blank(r.last);
    var (main, transits, has) := SplitFull(full);
    Task(i + 1, DG.Blank(r.number), DG.Blank(r.district), full, DG.Blank(r.notes), main, transits, has)
  }

  /** `pd.isna(row.iloc[0])` is false. */
  predicate Present(r: SheetRow) {
    !r.first.NA?
  }

  /** Task `t` is the dict built from the present row its `row_number` names. */
  predicate FromRow(rows: seq<SheetRow>, t: Task) {
    1 <= t.rowNumber <= |rows| && Present(rows[t.rowNumber - 1]) && t == TaskAt(rows[t.rowNumber - 1], t.rowNumber - 1)
  }

  /** A task built from a row of a prefix is built from the same row of the whole sheet. */
  lemma FromPrefix(rows: seq<SheetRow>, n: nat)
    requires n <= |rows|
    ensures forall t :: FromRow(rows[..n], t) ==> FromRow(rows, t)
  {
    forall t | FromRow(rows[..n], t)
      ensures FromRow(rows, t)
    {
      assert rows[..n][t.rowNumber - 1] == rows[t.rowNumber - 1];
    }
  }

  /**
   * The tasks the loop appends: one per row whose first cell is present, in
   * sheet order, each numbered by its row.
   */
  function Tasks(rows: seq<SheetRow>): (ts: seq<Task>)
    ensures |ts| == Count(rows, Present)
    ensures forall j :: 0 <= j < |ts| ==> FromRow(rows, ts[j])
    ensures forall j, k :: 0 <= j < k < |ts| ==> ts[j].rowNumber < ts[k].rowNumber
  {
    if rows == [] then []
    else
      var n := |rows| - 1;
      var init := rows[..n];
      var before := Tasks(init);
      CountPrefix(rows, n, Present);
      WholePrefix(rows, n + 1);
      var last := if Present(rows[n]) then [TaskAt(rows[n], n)] else [];
      LastFromRow(rows, n);
      TasksStep(rows, n, before, last);
      before + last
  }

  /** The task of the last row, when it is present, is built from that row. */
  lemma LastFromRow(rows: seq<SheetRow>, n: nat)
    requires n < |rows|
    ensures Present(rows[n]) ==> FromRow(rows, TaskAt(rows[n], n)) && TaskAt(rows[n], n).rowNumber == n + 1
  {
  }

  /** Appending the task of row `n` to the tasks of the rows before it keeps every task built from its row, in row order. */
  lemma TasksStep(rows: seq<SheetRow>, n: nat, before: seq<Task>, last: seq<Task>)
    requires n < |rows|
    requires forall j :: 0 <= j < |before| ==> FromRow(rows[..n], before[j])
    requires forall j, k :: 0 <= j < k < |before| ==> before[j].rowNumber < before[k].rowNumber
    requires |last| <= 1 && forall j :: 0 <= j < |last| ==> FromRow(rows, last[j]) && last[j].rowNumber == n + 1
    ensures forall j :: 0 <= j < |before + last| ==> FromRow(rows, (before + last)[j])
    ensures forall j, k :: 0 <= j < k < |before + last| ==> (before + last)[j].rowNumber < (before + last)[k].rowNumber
  {
    FromPrefix(rows, n);
    assert forall j :: 0 <= j < |before| ==> before[j].rowNumber <= n;
  }

  /** Every row whose first cell is present gives a task. */
  lemma {:induction false} TasksComplete(rows: seq<SheetRow>, i: nat) returns (j: nat)
    requires i < |rows| && Present(rows[i])
    ensures j < |Tasks(rows)| && Tasks(rows)[j].rowNumber == i + 1
  {
    var n := |rows| - 1;
    var init := rows[..n];
    if i == n {
      j := |Tasks(init)|;
    } else {
      assert init[i] == rows[i];
      j := TasksComplete(init, i);
      assert Tasks(init)[j].rowNumber == i + 1;
    }
  }

  /** The loop over `df.iterrows()` that fills `tasks`. */
  method ExtractTasks(rows: seq<SheetRow>) returns (tasks: seq<Task>)
    ensures tasks == Tasks(rows)
  {
    tasks := [];
    var i := 0;
    while i < |rows|
      invariant 0 <= i <= |rows|
      invariant tasks == Tasks(rows[..i])
    {
      var p := rows[..i + 1];
      assert p[..i] == rows[..i] && p[i] == rows[i];
      if Present(rows[i]) {
        tasks := tasks + [TaskAt(rows[i], i)];
      }
      i := i + 1;
    }
    assert rows[..i] == rows;
  }

  // ---------------------------------------------------------------- prices

  /** The first three cells of a row of the "расценки" sheet, as pandas reads them. */
  datatype PriceRow = PriceRow(code: Value, description: Value, price: Value)

  /** `{'description': …, 'price': …}`; prices are whole roubles. */
  datatype PriceEntry = PriceEntry(description: Value, price: int)

  /** All three cells are present. */
  predicate Listed(r: PriceRow) {
    !r.code.NA? && !r.description.NA? && !r.price.NA?
  }

  /** The code and entry of a row, or None where `int()` or `float()` raises. */
  function Entry(r: PriceRow): Option<(int, PriceEntry)> {
    match (AG.IntOf(r.code), AG.FloatOf(r.price))
    case (Some(k), Some(p)) => Some((k, PriceEntry(r.description, p)))
    case _ => None
  }

  /** A listed row whose code or price does not convert. */
  predicate Broken(r: PriceRow) {
    Listed(r) && Entry(r).None?
  }

  /** The row `i` is listed and gives code `k`. */
  predicate GivesCode(rows: seq<PriceRow>, i: int, k: int) {
    0 <= i < |rows| && Listed(rows[i]) && Entry(rows[i]).Some? && Entry(rows[i]).value.0 == k
  }

  /** The price table after the loop over `rows`; None when a row raises. */
  function Prices(rows: seq<PriceRow>): (r: Option<map<int, PriceEntry>>)
    ensures r.Some? ==> |r.value| <= |rows|
  {
    if rows == [] then Some(map[])
    else
      match Prices(rows[..|rows| - 1])
      case None => None
      case Some(m) =>
        var r := rows[|rows| - 1];
        if !Listed(r) then Some(m)
        else match Entry(r)
          case None => None
          case Some((k, e)) => Some(m[k := e])
  }

  /** Reading the prices fails exactly when some listed row has a code or a price that does not convert. */
  lemma {:induction false} PricesFail(rows: seq<PriceRow>)
    ensures Prices(rows).None? <==> exists i :: 0 <= i < |rows| && Broken(rows[i])
  {
    if rows != [] {
      var n := |rows| - 1;
      var init := rows[..n];
      PricesFail(init);
      assert Prices(rows).None? <==> Prices(init).None? || Broken(rows[n]);
      if exists i :: 0 <= i < |init| && Broken(init[i]) {
        var i :| 0 <= i < |init| && Broken(init[i]);
        assert rows[i] == init[i];
      }
      if exists i :: 0 <= i < n && Broken(rows[i]) {
        var i :| 0 <= i < n && Broken(rows[i]);
        assert init[i] == rows[i];
      }
    }
  }

  /** A code is in the table exactly when some listed row gives it. */
  lemma {:induction false} PricesHave(rows: seq<PriceRow>, k: int)
    requires Prices(rows).Some?
    ensures k in Prices(rows).value <==> exists i :: GivesCode(rows, i, k)
  {
    if rows != [] {
      var n := |rows| - 1;
      var init := rows[..n];
      PricesHave(init, k);
      if !GivesCode(rows, n, k) {
        if exists i :: GivesCode(rows, i, k) {
          var i :| GivesCode(rows, i, k);
          assert init[i] == rows[i];
          assert GivesCode(init, i, k);
        }
        if exists i :: GivesCode(init, i, k) {
          var i :| GivesCode(init, i, k);
          assert init[i] == rows[i];
          assert GivesCode(rows, i, k);
        }
      }
    }
  }

  /** The loop over `df_prices.iterrows()`; false where `int()` or `float()` raises. */
  method ExtractPrices(rows: seq<PriceRow>) returns (ok: bool, prices: map<int, PriceEntry>)
    ensures ok <==> Prices(rows).Some?
    ensures ok ==> prices == Prices(rows).value
  {
    prices := map[];
    var i := 0;
    while i < |rows|
      invariant 0 <= i <= |rows|
      invariant Prices(rows[..i]) == Some(prices)
    {
      assert rows[..i + 1][..i] == rows[..i];
      var r := rows[i];
      if Listed(r) {
        var e := Entry(r);
        if e.None? {
          PricesStop(rows, i + 1);
          return false, prices;
        }
        prices := prices[e.value.0 := e.value.1];
      }
      i := i + 1;
    }
    assert rows[..i] == rows;
    return true, prices;
  }

  /** Once a prefix of the rows fails, the whole loop fails. */
  lemma PricesStop(rows: seq<PriceRow>, i: nat)
    requires i <= |rows| && Prices(rows[..i]).None?
    ensures Prices(rows).None?
  {
    PricesFail(rows[..i]);
    PricesFail(rows);
    var j :| 0 <= j < i && Broken(rows[..i][j]);
    assert rows[..i][j] == rows[j];
  }

  // ---------------------------------------------------------------- statistics

  /** The 'statistics' dict. */
  datatype Statistics = Statistics(totalTasks: nat, tasksWithTransits: nat, totalTransits: nat,
                                   totalServices: nat, uniqueNumbers: set<Value>)

  predicate Flagged(t: Task) { t.hasTransits }

  predicate Listing(t: Task) { t.transits != [] }

  /** Python truthiness of a value pandas read (a missing value never reaches here). */
  predicate Truthy(v: Value) {
    match v
    case NA => true
    case Number(n) => n != 0
    case Stamp(_) => true
    case Txt(s) => s != []
  }

  /** `sum(len(t['transit_addresses']) for t in tasks)`. */
  function TransitTotal(ts: seq<Task>): nat {
    if ts == [] then 0 else TransitTotal(ts[..|ts| - 1]) + |ts[|ts| - 1].transits|
  }

  /** `set(t['number'] for t in tasks if t['number'])`. */
  function Numbers(ts: seq<Task>): (s: set<Value>)
    ensures forall v :: v in s <==> Truthy(v) && exists j :: 0 <= j < |ts| && ts[j].number == v
  {
    set j | 0 <= j < |ts| && Truthy(ts[j].number) :: ts[j].number
  }

  function Stats(ts: seq<Task>, prices: map<int, PriceEntry>): (s: Statistics)
    ensures s.tasksWithTransits <= s.totalTasks == |ts|
    ensures s.totalServices == |prices|
  {
    Statistics(|ts|, Count(ts, Flagged), TransitTotal(ts), |prices|, Numbers(ts))
  }

  /** Every task with a transit address is flagged, so there are at least as many flagged tasks as listing ones. */
  lemma ListingFlagged(rows: seq<SheetRow>)
    ensures Count(Tasks(rows), Listing) <= Count(Tasks(rows), Flagged)
  {
    var ts := Tasks(rows);
    forall t | t in ts
      ensures Listing(t) ==> Flagged(t)
    {
      var j :| 0 <= j < |ts| && ts[j] == t;
    }
    CountWithin(ts, Listing, Flagged);
  }

  /** A property that implies another on every element is satisfied by no more elements. */
  lemma {:induction false} CountWithin<T>(xs: seq<T>, p: T -> bool, q: T -> bool)
    requires forall x :: x in xs ==> (p(x) ==> q(x))
    ensures Count(xs, p) <= Count(xs, q)
  {
    if xs != [] {
      assert forall x :: x in xs[1..] ==> x in xs;
      CountWithin(xs[1..], p, q);
    }
  }

  /** A transit address anywhere makes the count of tasks with transits positive. */
  lemma {:induction false} TransitsNeedFlag(ts: seq<Task>)
    requires forall j :: 0 <= j < |ts| ==> (ts[j].transits != [] ==> ts[j].hasTransits)
    ensures TransitTotal(ts) > 0 ==> Count(ts, Flagged) > 0
  {
    if ts != [] {
      var n := |ts| - 1;
      TransitsNeedFlag(ts[..n]);
      assert ts == ts[..n] + [ts[n]];
      CountSnoc(ts[..n], ts[n], Flagged);
    }
  }

  /** The flag and the transit count of the extracted tasks agree in the way the statistics rely on. */
  lemma TasksTransitsFlagged(rows: seq<SheetRow>)
    ensures TransitTotal(Tasks(rows)) > 0 ==> Count(Tasks(rows), Flagged) > 0
  {
    TransitsNeedFlag(Tasks(rows));
  }

  /**
   * The example total: with at least two services in the table, the prices
   * of services 1 and 4, each where it is listed; nothing otherwise.
   */
  function ExampleTotal(prices: map<int, PriceEntry>): (r: Option<int>)
    ensures r.Some? <==> |prices| >= 2
    ensures r.Some? ==> r.value == (if 1 in prices then prices[1].price else 0) + (if 4 in prices then prices[4].price else 0)
  {
    if |prices| >= 2 then
      assert [1, 4][1..] == [4] && [4][1..] == [];
      assert ListedSum(prices, [4]) == (if 4 in prices then prices[4].price else 0) + ListedSum(prices, []);
      Some(ListedSum(prices, [1, 4]))
    else None
  }

  /** `sum(prices[s]['price'] for s in codes if s in prices)`. */
  function ListedSum(prices: map<int, PriceEntry>, codes: seq<int>): int {
    if codes == [] then 0
    else (if codes[0] in prices then prices[codes[0]].price else 0) + ListedSum(prices, codes[1..])
  }

  /** Codes missing from the table add nothing: the sum over the codes is the sum over the listed ones. */
  lemma {:induction false} ListedSumListedOnly(prices: map<int, PriceEntry>, codes: seq<int>)
    ensures ListedSum(prices, codes) == ListedSum(prices, Filter(codes, In(prices)))
  {
    if codes != [] {
      ListedSumListedOnly(prices, codes[1..]);
      var f := Filter(codes, In(prices));
      if codes[0] in prices {
        assert f[0] == codes[0] && f[1..] == Filter(codes[1..], In(prices));
      } else {
        assert f == Filter(codes[1..], In(prices));
      }
    }
  }

  /** Membership in the price table, as a predicate on codes. */
  function In(prices: map<int, PriceEntry>): int -> bool {
    k => k in prices
  }

  /** What `analyze_your_file` computes: the tasks, the price table, the statistics and the example total. */
  datatype Analysis = Analysis(tasks: seq<Task>, prices: map<int, PriceEntry>, stats: Statistics, example: Option<int>)

  /** The example total is computed only when there are tasks. */
  function Analyzed(rows: seq<SheetRow>, priceRows: seq<PriceRow>): (r: Option<Analysis>)
    ensures r.Some? <==> Prices(priceRows).Some?
    ensures r.Some? ==> r.value.tasks == Tasks(rows) && r.value.stats == Stats(Tasks(rows), r.value.prices)
    ensures r.Some? ==> (r.value.example.Some? <==> Tasks(rows) != [] && |r.value.prices| >= 2)
  {
    match Prices(priceRows)
    case None => None
    case Some(prices) =>
      var ts := Tasks(rows);
      Some(Analysis(ts, prices, Stats(ts, prices), if ts != [] then ExampleTotal(prices) else None))
  }

  /** The tasks loop, the prices loop, then the statistics; None where a price row raises. */
  method Analyze(rows: seq<SheetRow>, priceRows: seq<PriceRow>) returns (r: Option<Analysis>)
    ensures r == Analyzed(rows, priceRows)
  {
    var tasks := ExtractTasks(rows);
    var ok, prices := ExtractPrices(priceRows);
    if !ok {
      return None;
    }
    var example := None;
    if tasks != [] {
      example := ExampleTotal(prices);
    }
    return Some(Analysis(tasks, prices, Stats(tasks, prices), example));
  }
}
