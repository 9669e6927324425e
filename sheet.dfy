/**
 * A spreadsheet worksheet as the scripts see it through openpyxl: cells
 * addressed by (row, column), both counted from 1, and `max_row`, the last row
 * that holds a cell.
 */
module Sheet {
  import opened Wrappers
  import opened Text
  import opened Dates

  /** What a cell holds. A string that starts with '=' is a formula. */
  datatype Cell = Empty | Text(text: String) | Int(n: int) | Formula(f: String) | Date(dt: DateTime)

  /** Python truthiness of the cell's value (`if cell.value:`). */
  predicate Truthy(c: Cell) {
    match c
    case Empty => false
    case Text(t) => t != []
    case Int(n) => n != 0
    case Formula(f) => f != []
    case Date(_) => true
  }

  /** `str(cell.value)`; an empty cell holds `None`. */
  function Str(c: Cell): String {
    match c
    case Empty => "None"
    case Text(t) => t
    case Int(n) => IntToString(n)
    case Formula(f) => f
    case Date(dt) =>
      if dt.year >= 0 && dt.month >= 0 && dt.day >= 0 && dt.hour >= 0 && dt.minute >= 0 && dt.second >= 0
      then DateTimeString(dt) else "None"
  }

  /** The cell a Python string is written as: a leading '=' followed by more text makes it a formula. */
  function FromString(s: String): (c: Cell)
    ensures Truthy(c) <==> s != []
  {
    if |s| > 1 && s[0] == '=' then Formula(s) else Text(s)
  }

  /** A string written to a cell reads back as itself. */
  lemma StrFromString(s: String)
    ensures Str(FromString(s)) == s
  {
  }

  /** A cell address: (row, column). */
  type Key = (nat, nat)

  /** The value at (row, col) of a cell map: empty where no cell exists. */
  function At(cells: map<Key, Cell>, row: nat, col: nat): Cell {
    if (row, col) in cells then cells[(row, col)] else Empty
  }

  /** A cell of a union of cell maps comes from the right-hand map where that one has it. */
  lemma AtUnion(a: map<Key, Cell>, b: map<Key, Cell>, r: nat, c: nat)
    ensures At(a + b, r, c) == if (r, c) in b then b[(r, c)] else At(a, r, c)
  {
  }

  /** The cells of one row, keyed by (row, column). */
  function InRow(row: nat, w: map<nat, Cell>): (m: map<Key, Cell>)
    ensures forall r: nat, c: nat :: (r, c) in m <==> r == row && c in w
    ensures forall c :: c in w ==> m[(row, c)] == w[c]
  {
    map c | c in w :: (row, c) := w[c]
  }

  /** Writing one more cell of the row extends the row's written cells by that cell. */
  lemma InRowUpdate(before: map<Key, Cell>, row: nat, written: map<nat, Cell>, col: nat, v: Cell)
    ensures (before + InRow(row, written))[(row, col) := v] == before + InRow(row, written[col := v])
  {
    var a := (before + InRow(row, written))[(row, col) := v];
    var b := before + InRow(row, written[col := v]);
    assert forall k :: k in a <==> k in b;
    assert forall k :: k in a ==> a[k] == b[k];
  }

  /** Writing a single cell adds a row holding only that cell. */
  lemma SetIsInRow(before: map<Key, Cell>, row: nat, col: nat, v: Cell)
    ensures before[(row, col) := v] == before + InRow(row, map[col := v])
  {
    assert InRow(row, map[col := v]) == map[(row, col) := v];
  }

  /** Adding cells in two steps adds their union. */
  lemma UnionAssoc(a: map<Key, Cell>, b: map<Key, Cell>, c: map<Key, Cell>)
    ensures a + (b + c) == (a + b) + c
  {
  }

  /** Consecutive rows from `first` on, the k-th holding the cells `rows[k]` by column. */
  function Rows(first: nat, rows: seq<map<nat, Cell>>): map<Key, Cell>
  {
    if rows == [] then map[]
    else Rows(first, rows[..|rows| - 1]) + InRow(first + |rows| - 1, rows[|rows| - 1])
  }

  /** Row `first + k` of `Rows(first, rows)` holds exactly `rows[k]`, and no other row has a cell. */
  lemma {:induction false} RowsAt(first: nat, rows: seq<map<nat, Cell>>, r: nat, c: nat)
    ensures (r, c) in Rows(first, rows) <==> first <= r < first + |rows| && c in rows[r - first]
    ensures (r, c) in Rows(first, rows) ==> Rows(first, rows)[(r, c)] == rows[r - first][c]
  {
    if rows != [] {
      var n := |rows| - 1;
      RowsAt(first, rows[..n], r, c);
    }
  }

  /** The cell in column `c` of the k-th row of `rows` is at row `first + k`. */
  lemma RowsCell(first: nat, rows: seq<map<nat, Cell>>, k: nat, c: nat)
    requires k < |rows| && c in rows[k]
    ensures (first + k, c) in Rows(first, rows) && At(Rows(first, rows), first + k, c) == rows[k][c]
  {
    RowsAt(first, rows, first + k, c);
  }

  /** The same, for the row number itself: row `r` holds `rows[r - first]`. */
  lemma RowsCellAt(first: nat, rows: seq<map<nat, Cell>>, r: nat, c: nat)
    requires first <= r < first + |rows| && c in rows[r - first]
    ensures (r, c) in Rows(first, rows) && At(Rows(first, rows), r, c) == rows[r - first][c]
  {
    RowsAt(first, rows, r, c);
  }

  /** Rows above `first` and below the last written one get no cell. */
  lemma RowsOutside(first: nat, rows: seq<map<nat, Cell>>, r: nat, c: nat)
    requires r < first || first + |rows| <= r
    ensures (r, c) !in Rows(first, rows)
  {
    RowsAt(first, rows, r, c);
  }

  /** Appending one more row to the rows written below existing cells. */
  lemma RowsSnoc(before: map<Key, Cell>, first: nat, rows: seq<map<nat, Cell>>, w: map<nat, Cell>)
    ensures before + Rows(first, rows + [w]) == (before + Rows(first, rows)) + InRow(first + |rows|, w)
  {
    var longer := rows + [w];
    assert longer[..|longer| - 1] == rows && longer[|longer| - 1] == w;
    assert Rows(first, longer) == Rows(first, rows) + InRow(first + |rows|, w);
    UnionAssoc(before, Rows(first, rows), InRow(first + |rows|, w));
  }

  /** Rows written one at a time from `first`: the prefix one row longer adds that row. */
  lemma RowsPrefixStep(first: nat, rows: seq<map<nat, Cell>>, k: nat)
    requires k < |rows|
    ensures Rows(first, rows[..k + 1]) == Rows(first, rows[..k]) + InRow(first + k, rows[k])
  {
    assert rows[..k + 1][..k] == rows[..k];
  }

  /** A row with no cells adds nothing. */
  lemma InRowNothing(cells: map<Key, Cell>, row: nat)
    ensures cells + InRow(row, map[]) == cells
  {
    assert InRow(row, map[]) == map[];
  }

  /** One guarded write into a row's cells by column: `if guard: row[col] = v`. */
  function PutIf(w: map<nat, Cell>, guard: bool, col: nat, v: Cell): map<nat, Cell> {
    if guard then w[col := v] else w
  }

  function Max(a: nat, b: nat): nat { if a >= b then a else b }

  /** `max_row` after `n` consecutive rows are written from row `first` on a sheet whose `max_row` was `m0`. */
  function RowsEnd(m0: nat, first: nat, n: nat): nat {
    if n == 0 then m0 else Max(m0, first + n - 1)
  }

  lemma RowsEndStep(m0: nat, first: nat, n: nat)
    ensures RowsEnd(m0, first, n + 1) == Max(RowsEnd(m0, first, n), first + n)
  {
  }

  /** A row written right under `n` rows from `first` ends the sheet at the larger of the old end and that row. */
  lemma RowsEndBelow(m0: nat, first: nat, n: nat)
    ensures Max(RowsEnd(m0, first, n), first + n) == Max(m0, first + n)
  {
  }

  /** Every cell from row `start` down emptied (`cell.value = None`); the cells stay in place. */
  function ClearedFrom(cells: map<Key, Cell>, start: nat): (m: map<Key, Cell>)
    ensures m.Keys == cells.Keys
    ensures forall r: nat, c: nat :: At(m, r, c) == if r >= start then Empty else At(cells, r, c)
  {
    map k | k in cells :: if k.0 >= start then Empty else cells[k]
  }

  /** A sheet's cells and `max_row`, as a value. */
  datatype Grid = Grid(cells: map<Key, Cell>, maxRow: nat)

  /** The shape every sheet keeps: `max_row` at least 1 and every cell in rows 1 to `max_row`, columns from 1. */
  ghost predicate GridValid(g: Grid) {
    g.maxRow >= 1 && forall k :: k in g.cells ==> 1 <= k.0 <= g.maxRow && k.1 >= 1
  }

  /** Column `col` of row `row` is set and its text holds `n`: the test of the row lookups by number. */
  predicate Holds(cells: map<Key, Cell>, row: nat, col: nat, n: String) {
    Truthy(At(cells, row, col)) && Contains(Str(At(cells, row, col)), n)
  }

  /** The first row from `q` to `last` whose column `col` holds `n`; `last + 1` when none does. */
  function FirstHolding(cells: map<Key, Cell>, col: nat, q: nat, last: nat, n: String): (r: nat)
    ensures q <= r && (q <= last + 1 ==> r <= last + 1)
    ensures r <= last ==> Holds(cells, r, col, n)
    ensures forall p :: q <= p < r ==> !Holds(cells, p, col, n)
    decreases last + 1 - q
  {
    if q > last || Holds(cells, q, col, n) then q else FirstHolding(cells, col, q + 1, last, n)
  }

  /** The row a lookup finds is determined by where the column holds `n`: only one row fits the contract. */
  lemma FirstHoldingIs(cells: map<Key, Cell>, col: nat, q: nat, last: nat, n: String, r: nat)
    requires q <= r <= last + 1
    requires r <= last ==> Holds(cells, r, col, n)
    requires forall p :: q <= p < r ==> !Holds(cells, p, col, n)
    ensures FirstHolding(cells, col, q, last, n) == r
    decreases r - q
  {
    if q < r {
      FirstHoldingIs(cells, col, q + 1, last, n, r);
    }
  }

  /** A row write leaves the other rows' cells as they were. */
  lemma OtherRowKept(cells: map<Key, Cell>, row: nat, w: map<nat, Cell>, r: nat, c: nat)
    requires r != row
    ensures At(cells + InRow(row, w), r, c) == At(cells, r, c)
  {
    assert (r, c) !in InRow(row, w);
  }

  /**
   * Writing a row whose column `col` then holds `n`, where the lookup from `q`
   * found that row (or the row after `last`), leaves the lookup where it was.
   */
  lemma FirstHoldingWritten(cells: map<Key, Cell>, col: nat, q: nat, last: nat, n: String,
                            row: nat, w: map<nat, Cell>, last': nat)
    requires q <= last + 1 && FirstHolding(cells, col, q, last, n) == row
    requires col in w && Truthy(w[col]) && Contains(Str(w[col]), n)
    requires row <= last'
    ensures FirstHolding(cells + InRow(row, w), col, q, last', n) == row
  {
    var m := cells + InRow(row, w);
    forall p | q <= p < row
      ensures !Holds(m, p, col, n)
    {
      assert !Holds(cells, p, col, n);
      OtherRowKept(cells, row, w, p, col);
    }
    assert Holds(m, row, col, n) by {
      assert (row, col) in InRow(row, w) && At(m, row, col) == w[col];
    }
    FirstHoldingIs(m, col, q, last', n, row);
  }

  /** Writing again into a row only cells it already got from the last write changes nothing. */
  lemma InRowAbsorb(cells: map<Key, Cell>, row: nat, w: map<nat, Cell>, w': map<nat, Cell>)
    requires forall c :: c in w' ==> c in w && w'[c] == w[c]
    ensures (cells + InRow(row, w)) + InRow(row, w') == cells + InRow(row, w)
  {
    var a := (cells + InRow(row, w)) + InRow(row, w');
    var b := cells + InRow(row, w);
    assert forall k :: k in a <==> k in b;
    forall k | k in a
      ensures a[k] == b[k]
    {
      if k in InRow(row, w') {
        assert k.0 == row && k.1 in w';
      }
    }
  }

  /**
   * Writing again into a row the cells it got from the last write, one column
   * `col` now holding `v`, changes that one cell and nothing else.
   */
  lemma InRowRestamp(cells: map<Key, Cell>, row: nat, w: map<nat, Cell>, w': map<nat, Cell>, col: nat, v: Cell)
    requires forall c :: c in w' ==> c in w && (c != col ==> w'[c] == w[c])
    requires col in w' && w'[col] == v
    ensures (cells + InRow(row, w)) + InRow(row, w') == (cells + InRow(row, w))[(row, col) := v]
  {
    var a := (cells + InRow(row, w)) + InRow(row, w');
    var b := (cells + InRow(row, w))[(row, col) := v];
    assert forall k :: k in a <==> k in b;
    forall k | k in a
      ensures a[k] == b[k]
    {
      if k in InRow(row, w') {
        assert k.0 == row && k.1 in w';
      }
    }
  }

  class Worksheet {
    /** The cells that exist, by (row, column). */
    var cells: map<Key, Cell>
    /** openpyxl's `max_row`: the largest row that holds a cell, and 1 for an empty sheet. */
    var maxRow: nat
    /** The sheet's name. */
    const title: String

    /** The sheet as a value. */
    function Snapshot(): Grid
      reads this
    {
      Grid(cells, maxRow)
    }

    ghost predicate Valid()
      reads this
    {
      maxRow >= 1 && forall k :: k in cells ==> 1 <= k.0 <= maxRow && k.1 >= 1
    }

    constructor (title: String)
      ensures Valid() && cells == map[] && maxRow == 1 && this.title == title
    {
      this.title := title;
      cells := map[];
      maxRow := 1;
    }

    /** `ws.cell(row, col).value`. */
    function Get(row: nat, col: nat): Cell
      reads this
    {
      At(cells, row, col)
    }

    /** `ws.cell(row, col).value = v`: that one cell changes and `max_row` grows to cover it. */
    method Set(row: nat, col: nat, v: Cell)
      requires Valid() && row >= 1 && col >= 1
      modifies this
      ensures Valid()
      ensures cells == old(cells)[(row, col) := v]
      ensures maxRow == if row > old(maxRow) then row else old(maxRow)
      ensures Get(row, col) == v
      ensures forall r: nat, c: nat :: (r, c) != (row, col) ==> Get(r, c) == old(Get(r, c))
    {
      cells := cells[(row, col) := v];
      if row > maxRow {
        maxRow := row;
      }
    }

    /** The clearing loop over `ws.iter_rows(min_row=start, max_row=ws.max_row)`. */
    method ClearFrom(start: nat)
      requires Valid()
      modifies this
      ensures Valid() && maxRow == old(maxRow)
      ensures cells == ClearedFrom(old(cells), start)
    {
      cells := ClearedFrom(cells, start);
    }

    /**
     * One guarded cell assignment of a sheet writer (`if value: ws.cell(row, col).value = value`),
     * as an extension of the cells written to the row so far.
     */
    method PutWhen(guard: bool, row: nat, col: nat, v: Cell, ghost before: map<Key, Cell>, ghost written: map<nat, Cell>)
      returns (ghost written': map<nat, Cell>)
      requires Valid() && row >= 1 && col >= 1
      requires cells == before + InRow(row, written)
      modifies this
      ensures Valid()
      ensures written' == PutIf(written, guard, col, v)
      ensures cells == before + InRow(row, written')
      ensures maxRow == if guard && row > old(maxRow) then row else old(maxRow)
    {
      written' := written;
      if guard {
        Set(row, col, v);
        InRowUpdate(before, row, written, col, v);
        written' := written[col := v];
      }
    }
  }
}
