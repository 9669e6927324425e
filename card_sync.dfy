/**
 * The spreadsheet side of the kanban-to-spreadsheet sync (the `ExcelManager`
 * and the card loop of `sync_trello_to_excel` in arhive/sync_trello_severen.py):
 * rows are matched by work number, created at the end of the sheet or merged
 * with column-ownership rules, and a row whose closing date is set is never
 * touched.
 */
module CardSync {
  import opened Wrappers
  import opened Text
  import opened Dates
  import opened Lists
  import opened Sheet
  import opened CardParser

  // Columns of the works sheet.
  const ColActNumber: nat := 1      // A: act number, filled by hand
  const ColClosed: nat := 2         // B: closing date, filled by hand; locks the row
  const ColAddress: nat := 3        // C: address and task number
  const ColStart: nat := 4          // D: start of works
  const ColEnd: nat := 5            // E: end of works, filled by hand
  const ColWorkType: nat := 6       // F: work type
  const ColPrice: nat := 7          // G: price formula
  const ColReportDate: nat := 8     // H: time of the sync
  const ColClient: nat := 9         // I: client
  const ColExecutor: nat := 10      // J: executor
  const ColStatus: nat := 11        // K: status
  const ColTransits: nat := 12      // L: transit addresses
  const ColNote: nat := 13          // M: note, filled by hand
  const ColDescription: nat := 14   // N: card description

  /** Column C: the address followed by ". Задание N" when the card has a number. */
  function AddressWithTask(d: CardData): (r: String)
    ensures d.workNumber != [] ==> Contains(r, d.workNumber)
    ensures d.workNumber == [] ==> r == d.address
  {
    if d.workNumber != [] then
      ContainsSuffix(d.address + ". Задание ", d.workNumber);
      d.address + ". Задание " + d.workNumber
    else d.address
  }

  /** Column G of a new row: the price looked up from the reference sheet by work type. */
  function PriceFormula(row: nat): String {
    "=VLOOKUP(F" + NatToString(row) + ", Справочник_Работы!$B$3:$C$9, 2, FALSE)"
  }

  /** Column D: the parsed start date, or the text as it came when it does not parse. */
  function StartCell(d: CardData, parsedStart: Option<DateTime>): Cell {
    match parsedStart
    case Some(t) => Cell.Date(t)
    case None => FromString(d.startDate)
  }

  /**
   * The cells `write_card_data` writes into an unlocked row, by column, in the
   * order it assigns them. `parsedStart` is what the date parser made of the
   * start date, `now` the time of the sync.
   */
  function CardCells(row: nat, d: CardData, isUpdate: bool, parsedStart: Option<DateTime>, now: DateTime): (w: map<nat, Cell>)
    ensures ColActNumber !in w && ColClosed !in w && ColEnd !in w && ColNote !in w
  {
    var w1 := PutIf(map[], true, ColAddress, FromString(AddressWithTask(d)));
    var w2 := PutIf(w1, d.startDate != [], ColStart, StartCell(d, parsedStart));
    var w3 := PutIf(w2, true, ColWorkType, FromString(d.workType));
    var w4 := PutIf(w3, !isUpdate, ColPrice, Formula(PriceFormula(row)));
    var w5 := PutIf(w4, true, ColReportDate, Cell.Date(now));
    var w6 := PutIf(w5, d.client != [], ColClient, FromString(d.client));
    var w7 := PutIf(w6, d.executor != [], ColExecutor, FromString(d.executor));
    var w8 := PutIf(w7, true, ColStatus, FromString(d.status));
    var w9 := PutIf(w8, d.transits != [], ColTransits, FromString(Join(d.transits, ", ")));
    PutIf(w9, true, ColDescription, FromString(d.description))
  }

  // Column ownership of `write_card_data`.

  /** Address, work type, sync time, status and description are always written. */
  lemma SyncedColumnsWritten(row: nat, d: CardData, isUpdate: bool, parsedStart: Option<DateTime>, now: DateTime)
    ensures var w := CardCells(row, d, isUpdate, parsedStart, now);
      ColAddress in w && ColWorkType in w && ColReportDate in w && ColStatus in w && ColDescription in w
  {
  }

  /** The start date is written when the card has one; the price formula only into a new row. */
  lemma StartAndPriceWritten(row: nat, d: CardData, isUpdate: bool, parsedStart: Option<DateTime>, now: DateTime)
    ensures var w := CardCells(row, d, isUpdate, parsedStart, now);
      (ColStart in w <==> d.startDate != []) && (ColPrice in w <==> !isUpdate)
  {
  }

  /** Client, executor and transits are written only when the card has them, so an empty value never erases a cell. */
  lemma OptionalColumnsWritten(row: nat, d: CardData, isUpdate: bool, parsedStart: Option<DateTime>, now: DateTime)
    ensures var w := CardCells(row, d, isUpdate, parsedStart, now);
      (ColClient in w <==> d.client != []) && (ColExecutor in w <==> d.executor != [])
      && (ColTransits in w <==> d.transits != [])
  {
  }

  /**
   * The written address cell holds the card's number, so once the row is
   * written a lookup of that number matches it.
   */
  lemma WrittenAddressHoldsNumber(row: nat, d: CardData, isUpdate: bool, parsedStart: Option<DateTime>, now: DateTime)
    requires d.workNumber != []
    ensures var w := CardCells(row, d, isUpdate, parsedStart, now);
      ColAddress in w && Truthy(w[ColAddress]) && Contains(Str(w[ColAddress]), d.workNumber)
  {
    var a := AddressWithTask(d);
    assert CardCells(row, d, isUpdate, parsedStart, now)[ColAddress] == FromString(a);
    assert a != [] by {
      if a == [] {
        ContainsIff(a, d.workNumber);
      }
    }
  }

  /** Every row that was locked in `start` (column B set) holds in `cells` exactly what it held in `start`. */
  ghost predicate KeepsLocked(start: map<Key, Cell>, cells: map<Key, Cell>) {
    forall r: nat, c: nat :: Truthy(At(start, r, ColClosed)) ==> At(cells, r, c) == At(start, r, c)
  }

  /**
   * Writing an unlocked row keeps every row that was locked at the start as
   * it was then: a locked row stays locked, so the row being written is not one of them.
   */
  lemma WriteKeepsLocked(start: map<Key, Cell>, before: map<Key, Cell>, row: nat, w: map<nat, Cell>)
    requires KeepsLocked(start, before)
    requires !Truthy(At(before, row, ColClosed))
    ensures KeepsLocked(start, before + InRow(row, w))
  {
    forall r: nat, c: nat | Truthy(At(start, r, ColClosed))
      ensures At(before + InRow(row, w), r, c) == At(start, r, c)
    {
      assert r != row;
      assert (r, c) !in InRow(row, w);
    }
  }

  /** The row matches a work number: column C is non-empty and holds the number. */
  predicate RowHolds(ws: Worksheet, row: nat, n: String)
    reads ws
  {
    Holds(ws.cells, row, ColAddress, n)
  }

  /** A card whose title yields no work number; the loop skips it. */
  predicate Unnumbered(c: Card) { ExtractWorkNumber(c.name) == [] }

  /** How the card loop handled one card. */
  datatype Outcome = Skipped | Created | Updated

  // The card loop on sheet values.

  /** The row `find_or_create_row` picks: the first from 2 whose column C holds `n`, else the row after the last. */
  function TargetRow(g: Grid, n: String): nat {
    FirstHolding(g.cells, ColAddress, 2, g.maxRow, n)
  }

  /**
   * A numbered card's data written into the row `find_or_create_row` picks:
   * a row whose column B is set keeps the sheet as it was; otherwise the
   * card's cells are written there, the price formula only into a new row.
   */
  function WriteStep(g: Grid, d: CardData, parsedStart: Option<DateTime>, now: DateTime): (Grid, Outcome) {
    var row := TargetRow(g, d.workNumber);
    var found := row <= g.maxRow;
    (if Truthy(At(g.cells, row, ColClosed)) then g
     else Grid(g.cells + InRow(row, CardCells(row, d, found, parsedStart, now)), Max(g.maxRow, row)),
     if found then Updated else Created)
  }

  /** A card write keeps every row that was locked at `start`. */
  lemma WriteStepKeepsLocked(start: map<Key, Cell>, g: Grid, d: CardData, parsedStart: Option<DateTime>, now: DateTime)
    requires KeepsLocked(start, g.cells)
    ensures KeepsLocked(start, WriteStep(g, d, parsedStart, now).0.cells)
  {
    var row := TargetRow(g, d.workNumber);
    if !Truthy(At(g.cells, row, ColClosed)) {
      WriteKeepsLocked(start, g.cells, row, CardCells(row, d, row <= g.maxRow, parsedStart, now));
    }
  }

  /** One pass of the card loop: skipped without a work number, otherwise parsed and written. */
  function SyncStep(g: Grid, card: Card, labelsMap: map<String, String>, listsMap: map<String, String>,
                    parseDate: String -> Option<DateTime>, now: DateTime): (Grid, Outcome)
  {
    if Unnumbered(card) then (g, Skipped)
    else
      var d := ParseCard(card, labelsMap, listsMap);
      WriteStep(g, d, parseDate(d.startDate), now)
  }

  /**
   * The sheet after the card loop has run over `cards`, in order; card `k`
   * is synced at the clock reading `clock(k)`.
   */
  function SyncAll(g: Grid, cards: seq<Card>, labelsMap: map<String, String>, listsMap: map<String, String>,
                   parseDate: String -> Option<DateTime>, clock: nat -> DateTime): Grid
    decreases |cards|
  {
    if cards == [] then g
    else SyncStep(SyncAll(g, cards[..|cards| - 1], labelsMap, listsMap, parseDate, clock), cards[|cards| - 1],
                  labelsMap, listsMap, parseDate, clock(|cards| - 1)).0
  }

  /** The loop's sheet after one more card: the sheet after the shorter prefix, with that card synced. */
  lemma SyncAllStep(g0: Grid, cards: seq<Card>, i: nat, before: Grid, after: Grid,
                    labelsMap: map<String, String>, listsMap: map<String, String>,
                    parseDate: String -> Option<DateTime>, clock: nat -> DateTime)
    requires i < |cards|
    requires before == SyncAll(g0, cards[..i], labelsMap, listsMap, parseDate, clock)
    requires after == SyncStep(before, cards[i], labelsMap, listsMap, parseDate, clock(i)).0
    ensures after == SyncAll(g0, cards[..i + 1], labelsMap, listsMap, parseDate, clock)
  {
    PrefixOfPrefix(cards, i);
  }

  /**
   * An update at a later time writes what the first write of the row wrote,
   * less the price formula, except column H, which takes the new sync time.
   */
  lemma UpdateCellsWithin(row: nat, d: CardData, isUpdate: bool, parsedStart: Option<DateTime>, now: DateTime,
                          later: DateTime)
    ensures var w := CardCells(row, d, isUpdate, parsedStart, now);
      var w' := CardCells(row, d, true, parsedStart, later);
      (forall c :: c in w' ==> c in w && (c != ColReportDate ==> w'[c] == w[c]))
      && ColReportDate in w' && w'[ColReportDate] == Cell.Date(later)
  {
    var head := HeadCells(d, parsedStart);
    CardCellsSplit(row, d, isUpdate, parsedStart, now);
    CardCellsSplit(row, d, true, parsedStart, later);
    var a5 := PutIf(head, !isUpdate, ColPrice, Formula(PriceFormula(row)))[ColReportDate := Cell.Date(now)];
    var b5 := head[ColReportDate := Cell.Date(later)];
    assert SameButReportDate(b5, a5);
    TailCellsKeep(b5, a5, d);
    TailCellsKeepReportDate(b5, d);
  }

  /** The cells `write_card_data` writes before the price. */
  function HeadCells(d: CardData, parsedStart: Option<DateTime>): map<nat, Cell> {
    var w1 := PutIf(map[], true, ColAddress, FromString(AddressWithTask(d)));
    var w2 := PutIf(w1, d.startDate != [], ColStart, StartCell(d, parsedStart));
    PutIf(w2, true, ColWorkType, FromString(d.workType))
  }

  /** The cells of a row are the head, the price, column H and the tail. */
  lemma CardCellsSplit(row: nat, d: CardData, isUpdate: bool, parsedStart: Option<DateTime>, now: DateTime)
    ensures CardCells(row, d, isUpdate, parsedStart, now)
      == TailCells(PutIf(HeadCells(d, parsedStart), !isUpdate, ColPrice, Formula(PriceFormula(row)))[ColReportDate := Cell.Date(now)], d)
  {
  }

  /** The cells `write_card_data` writes after column H. */
  function TailCells(w: map<nat, Cell>, d: CardData): map<nat, Cell> {
    var w6 := PutIf(w, d.client != [], ColClient, FromString(d.client));
    var w7 := PutIf(w6, d.executor != [], ColExecutor, FromString(d.executor));
    var w8 := PutIf(w7, true, ColStatus, FromString(d.status));
    var w9 := PutIf(w8, d.transits != [], ColTransits, FromString(Join(d.transits, ", ")));
    PutIf(w9, true, ColDescription, FromString(d.description))
  }

  /** The tail writes the same cells into both rows, so it keeps them alike outside column H. */
  lemma TailCellsKeep(w': map<nat, Cell>, w: map<nat, Cell>, d: CardData)
    requires SameButReportDate(w', w)
    ensures SameButReportDate(TailCells(w', d), TailCells(w, d))
  {
  }

  /** The tail leaves column H alone. */
  lemma TailCellsKeepReportDate(w: map<nat, Cell>, d: CardData)
    requires ColReportDate in w
    ensures ColReportDate in TailCells(w, d) && TailCells(w, d)[ColReportDate] == w[ColReportDate]
  {
  }

  /** Every cell of `w'` is in `w`, and equal to it outside column H. */
  predicate SameButReportDate(w': map<nat, Cell>, w: map<nat, Cell>) {
    forall c :: c in w' ==> c in w && (c != ColReportDate ==> w'[c] == w[c])
  }

  /**
   * Writing the same card again, at a later clock reading, finds the row it
   * was written to, counts as an update and adds no row: an unlocked row
   * changes only in column H, which takes the new time; a locked row not at all.
   */
  lemma WriteStepIdempotent(g: Grid, d: CardData, parsedStart: Option<DateTime>, now: DateTime, later: DateTime)
    requires GridValid(g) && d.workNumber != []
    ensures var row := TargetRow(g, d.workNumber);
      var g1 := WriteStep(g, d, parsedStart, now).0;
      var (g2, o2) := WriteStep(g1, d, parsedStart, later);
      TargetRow(g1, d.workNumber) == row && o2 == Updated && g2.maxRow == g1.maxRow
      && g2.cells == if Truthy(At(g.cells, row, ColClosed)) then g1.cells
                     else g1.cells[(row, ColReportDate) := Cell.Date(later)]
  {
    var n := d.workNumber;
    var row := TargetRow(g, n);
    var found := row <= g.maxRow;
    if Truthy(At(g.cells, row, ColClosed)) {
      assert found;
    } else {
      var w := CardCells(row, d, found, parsedStart, now);
      var g1 := Grid(g.cells + InRow(row, w), Max(g.maxRow, row));
      assert WriteStep(g, d, parsedStart, now).0 == g1;
      WrittenAddressHoldsNumber(row, d, found, parsedStart, now);
      FirstHoldingWritten(g.cells, ColAddress, 2, g.maxRow, n, row, w, g1.maxRow);
      assert At(g1.cells, row, ColClosed) == At(g.cells, row, ColClosed) by {
        assert (row, ColClosed) !in InRow(row, w);
      }
      UpdateCellsWithin(row, d, found, parsedStart, now, later);
      InRowRestamp(g.cells, row, w, CardCells(row, d, true, parsedStart, later), ColReportDate, Cell.Date(later));
    }
  }

  /**
   * Syncing a card a second time, at a later clock reading: a card without a
   * number is skipped again and changes nothing; a numbered one is an update of
   * the same row that adds no row and only restamps column H of an unlocked row.
   */
  lemma SyncStepIdempotent(g: Grid, card: Card, labelsMap: map<String, String>, listsMap: map<String, String>,
                           parseDate: String -> Option<DateTime>, now: DateTime, later: DateTime)
    requires GridValid(g)
    ensures var (g1, o1) := SyncStep(g, card, labelsMap, listsMap, parseDate, now);
      var (g2, o2) := SyncStep(g1, card, labelsMap, listsMap, parseDate, later);
      var row := TargetRow(g, ExtractWorkNumber(card.name));
      o2 == (if o1 == Skipped then Skipped else Updated) && g2.maxRow == g1.maxRow
      && (o1 == Skipped ==> g2 == g1)
      && (o1 != Skipped ==>
            TargetRow(g1, ExtractWorkNumber(card.name)) == row
            && g2.cells == if Truthy(At(g.cells, row, ColClosed)) then g1.cells
                           else g1.cells[(row, ColReportDate) := Cell.Date(later)])
  {
    if !Unnumbered(card) {
      var d := ParseCard(card, labelsMap, listsMap);
      WriteStepIdempotent(g, d, parseDate(d.startDate), now, later);
    }
  }

  class ExcelManager {
    /** The works sheet. */
    const ws: Worksheet

    constructor (ws: Worksheet)
      ensures this.ws == ws
    {
      this.ws := ws;
    }

    /**
     * `find_row_by_work_number`: the lowest row from 2 to `max_row` whose
     * column C holds the number; none for an empty number.
     */
    method FindRowByWorkNumber(n: String) returns (r: Option<nat>)
      ensures n == [] ==> r.None?
      ensures r.Some? ==> 2 <= r.value <= ws.maxRow && RowHolds(ws, r.value, n)
      ensures r.Some? ==> forall q :: 2 <= q < r.value ==> !RowHolds(ws, q, n)
      ensures r.None? && n != [] ==> forall q :: 2 <= q <= ws.maxRow ==> !RowHolds(ws, q, n)
    {
      if n == [] {
        return None;
      }
      var row := 2;
      while row <= ws.maxRow
        invariant 2 <= row
        invariant forall q :: 2 <= q < row ==> !RowHolds(ws, q, n)
        decreases ws.maxRow + 1 - row
      {
        var v := ws.Get(row, ColAddress);
        if Truthy(v) && Contains(Str(v), n) {
          return Some(row);
        }
        row := row + 1;
      }
      return None;
    }

    /** `find_or_create_row`: the matching row and true, or the row after the last and false. */
    method FindOrCreateRow(n: String) returns (row: nat, exists_: bool)
      requires ws.Valid()
      ensures exists_ ==> 2 <= row <= ws.maxRow && RowHolds(ws, row, n)
      ensures exists_ ==> forall q :: 2 <= q < row ==> !RowHolds(ws, q, n)
      ensures !exists_ ==> row == ws.maxRow + 1
      ensures !exists_ && n != [] ==> forall q :: 2 <= q <= ws.maxRow ==> !RowHolds(ws, q, n)
    {
      if n == [] {
        return ws.maxRow + 1, false;
      }
      var found := FindRowByWorkNumber(n);
      if found.Some? {
        return found.value, true;
      }
      return ws.maxRow + 1, false;
    }

    /**
     * `write_card_data`: a row whose column B is set is left exactly as it
     * was; otherwise the cells of `CardCells` are written and no other cell changes.
     */
    method WriteCardData(row: nat, d: CardData, isUpdate: bool, parseDate: String -> Option<DateTime>, now: DateTime)
      requires ws.Valid() && row >= 1
      modifies ws
      ensures ws.Valid()
      ensures Truthy(old(ws.Get(row, ColClosed))) ==> ws.cells == old(ws.cells) && ws.maxRow == old(ws.maxRow)
      ensures !Truthy(old(ws.Get(row, ColClosed))) ==>
        ws.cells == old(ws.cells) + InRow(row, CardCells(row, d, isUpdate, parseDate(d.startDate), now))
        && ws.maxRow == (if row > old(ws.maxRow) then row else old(ws.maxRow))
    {
      if Truthy(ws.Get(row, ColClosed)) {
        return;
      }
      ghost var before := ws.cells;
      ghost var w0: map<nat, Cell> := map[];
      assert before + InRow(row, w0) == before;
      var w1 := ws.PutWhen(true, row, ColAddress, FromString(AddressWithTask(d)), before, w0);
      var w2 := ws.PutWhen(d.startDate != [], row, ColStart, StartCell(d, parseDate(d.startDate)), before, w1);
      var w3 := ws.PutWhen(true, row, ColWorkType, FromString(d.workType), before, w2);
      var w4 := ws.PutWhen(!isUpdate, row, ColPrice, Formula(PriceFormula(row)), before, w3);
      var w5 := ws.PutWhen(true, row, ColReportDate, Cell.Date(now), before, w4);
      var w6 := ws.PutWhen(d.client != [], row, ColClient, FromString(d.client), before, w5);
      var w7 := ws.PutWhen(d.executor != [], row, ColExecutor, FromString(d.executor), before, w6);
      var w8 := ws.PutWhen(true, row, ColStatus, FromString(d.status), before, w7);
      var w9 := ws.PutWhen(d.transits != [], row, ColTransits, FromString(Join(d.transits, ", ")), before, w8);
      var w10 := ws.PutWhen(true, row, ColDescription, FromString(d.description), before, w9);
    }

    /**
     * A numbered card's data written into the row `find_or_create_row` gives:
     * a found row is updated, a new one is created after the last.
     */
    method WriteCard(d: CardData, parseDate: String -> Option<DateTime>, now: DateTime) returns (outcome: Outcome)
      requires ws.Valid() && d.workNumber != []
      modifies ws
      ensures ws.Valid()
      ensures (ws.Snapshot(), outcome) == WriteStep(old(ws.Snapshot()), d, parseDate(d.startDate), now)
      ensures ws.maxRow == old(ws.maxRow) + (if outcome == Created then 1 else 0)
    {
      var row, exists_ := FindOrCreateRow(d.workNumber);
      forall p | 2 <= p < row
        ensures !Holds(ws.cells, p, ColAddress, d.workNumber)
      {
        assert !RowHolds(ws, p, d.workNumber);
      }
      FirstHoldingIs(ws.cells, ColAddress, 2, ws.maxRow, d.workNumber, row);
      if !exists_ {
        assert (row, ColClosed) !in ws.cells;
      }
      WriteCardData(row, d, exists_, parseDate, now);
      outcome := if exists_ then Updated else Created;
    }

    /**
     * The body of the card loop: a card without a work number is skipped;
     * otherwise its row is found or appended and written. A row appended at
     * the end raises `max_row` by one; rows locked at `start` stay as they were.
     */
    method SyncCard(card: Card, labelsMap: map<String, String>, listsMap: map<String, String>,
                    parseDate: String -> Option<DateTime>, now: DateTime, ghost start: map<Key, Cell>)
      returns (outcome: Outcome)
      requires ws.Valid() && KeepsLocked(start, ws.cells)
      modifies ws
      ensures ws.Valid() && KeepsLocked(start, ws.cells)
      ensures outcome == Skipped <==> Unnumbered(card)
      ensures ws.maxRow == old(ws.maxRow) + (if outcome == Created then 1 else 0)
      ensures (ws.Snapshot(), outcome) == SyncStep(old(ws.Snapshot()), card, labelsMap, listsMap, parseDate, now)
    {
      var d := ParseCard(card, labelsMap, listsMap);
      if d.workNumber == [] {
        return Skipped;
      }
      ghost var before := ws.Snapshot();
      outcome := WriteCard(d, parseDate, now);
      WriteStepKeepsLocked(start, before, d, parseDate(d.startDate), now);
    }

    /** One turn of the card loop: card `i` synced, the sheet now the loop's sheet after `i + 1` cards. */
    method SyncNext(cards: seq<Card>, i: nat, labelsMap: map<String, String>, listsMap: map<String, String>,
                    parseDate: String -> Option<DateTime>, clock: nat -> DateTime, ghost g0: Grid, ghost start: map<Key, Cell>)
      returns (outcome: Outcome)
      requires i < |cards| && ws.Valid() && KeepsLocked(start, ws.cells)
      requires ws.Snapshot() == SyncAll(g0, cards[..i], labelsMap, listsMap, parseDate, clock)
      modifies ws
      ensures ws.Valid() && KeepsLocked(start, ws.cells)
      ensures outcome == Skipped <==> Unnumbered(cards[i])
      ensures ws.maxRow == old(ws.maxRow) + (if outcome == Created then 1 else 0)
      ensures ws.Snapshot() == SyncAll(g0, cards[..i + 1], labelsMap, listsMap, parseDate, clock)
    {
      ghost var before := ws.Snapshot();
      outcome := SyncCard(cards[i], labelsMap, listsMap, parseDate, clock(i), start);
      SyncAllStep(g0, cards, i, before, ws.Snapshot(), labelsMap, listsMap, parseDate, clock);
    }

    /**
     * The card loop of `sync_trello_to_excel`. Every card is skipped (no
     * number), created or updated; `processed` counts the last two. A created
     * row is appended after the last row, so `max_row` grows by the number of
     * created rows, and a row that was locked when the sync started keeps
     * every cell. `clock(i)` is what `datetime.now()` reads at card `i`.
     */
    method SyncCards(cards: seq<Card>, labelsMap: map<String, String>, listsMap: map<String, String>,
                     parseDate: String -> Option<DateTime>, clock: nat -> DateTime)
      returns (processed: nat, updated: nat, created: nat, errors: nat, skipped: nat)
      requires ws.Valid()
      modifies ws
      ensures ws.Valid()
      ensures skipped + created + updated + errors == |cards|
      ensures processed == created + updated && errors == 0
      ensures skipped == Count(cards, Unnumbered)
      ensures ws.maxRow == old(ws.maxRow) + created
      ensures KeepsLocked(old(ws.cells), ws.cells)
      ensures ws.Snapshot() == SyncAll(old(ws.Snapshot()), cards, labelsMap, listsMap, parseDate, clock)
    {
      processed, updated, created, errors, skipped := 0, 0, 0, 0, 0;
      ghost var start := ws.cells;
      ghost var g0 := ws.Snapshot();
      assert cards[..0] == [];
      var i := 0;
      while i < |cards|
        invariant 0 <= i <= |cards|
        invariant ws.Valid()
        invariant skipped + created + updated + errors == i
        invariant processed == created + updated && errors == 0
        invariant skipped == Count(cards[..i], Unnumbered)
        invariant ws.maxRow == old(ws.maxRow) + created
        invariant KeepsLocked(start, ws.cells)
        invariant ws.Snapshot() == SyncAll(g0, cards[..i], labelsMap, listsMap, parseDate, clock)
      {
        var outcome := SyncNext(cards, i, labelsMap, listsMap, parseDate, clock, g0, start);
        CountPrefix(cards, i, Unnumbered);
        match outcome {
          case Skipped => skipped := skipped + 1;
          case Created => created := created + 1; processed := processed + 1;
          case Updated => updated := updated + 1; processed := processed + 1;
        }
        i := i + 1;
      }
      assert cards[..i] == cards;
    }
  }
}
