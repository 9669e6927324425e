/**
 * The spreadsheet side of the second kanban-to-spreadsheet sync (the
 * `ExcelManager` and the card loop of `sync_trello_to_excel` in
 * files/sync_trello_severen.py): the price list read from the "расценки" sheet
 * and merged over the built-in one, the row of a card found by its number in
 * the address column, and the guarded writes of one row.
 */
module SeverenSync {
  import opened Wrappers
  import opened Text
  import opened Lists
  import opened Sheet
  import opened SeverenParser

  // Columns of the data sheet the sync writes.
  const ColNumber: nat := 1       // №, the formula =ROW()-1
  const ColDistrict: nat := 4     // district, from a label
  const ColDetails: nat := 5      // the card description
  const ColAddress: nat := 6      // address, task number and transits
  const ColCost: nat := 9         // cost
  const ColService: nat := 10     // price point and cost
  const ColStatus: nat := 18      // status of the card's list
  const ColClient: nat := 22      // client, from a label or the description
  const ColWorkStart: nat := 26   // start of works
  const ColContractor: nat := 28  // contractor

  /** Every column the sync may write; all others are left to the people who keep the sheet. */
  const SyncColumns: set<nat> := {ColNumber, ColDistrict, ColDetails, ColAddress, ColCost, ColService,
                                  ColStatus, ColClient, ColWorkStart, ColContractor}

  // ---------------------------------------------------------------- the data sheet

  /** The names that mark the data sheet, compared without case. */
  const DataSheetNames: seq<String> := ["Данные", "Data", "Северен_новая", "Sheet1"]

  predicate IsDataSheet(name: String) {
    exists k :: 0 <= k < |DataSheetNames| && Contains(Lower(name), Lower(DataSheetNames[k]))
  }

  /**
   * `load`: the index of the first sheet, in workbook order, whose name holds
   * one of the data-sheet names ignoring case; the active sheet when none does.
   */
  function DataSheet(sheetNames: seq<String>, active: nat): (i: nat)
    ensures (exists j :: 0 <= j < |sheetNames| && IsDataSheet(sheetNames[j])) ==>
      i < |sheetNames| && IsDataSheet(sheetNames[i]) && forall j :: 0 <= j < i ==> !IsDataSheet(sheetNames[j])
    ensures (forall j :: 0 <= j < |sheetNames| ==> !IsDataSheet(sheetNames[j])) ==> i == active
  {
    var i := FirstIndex(sheetNames, IsDataSheet);
    if i < |sheetNames| then i else active
  }

  // ---------------------------------------------------------------- the price list as a dictionary

  /** Where the пункт `point` sits in the table, or `|t|`. */
  function PointIndex(t: seq<PriceItem>, point: String): (i: nat)
    ensures i <= |t|
    ensures i < |t| ==> t[i].point == point
    ensures forall k :: 0 <= k < i ==> t[k].point != point
  {
    FirstIndex(t, (x: PriceItem) => x.point == point)
  }

  /** `ПРЕЙСКУРАНТ.get(point)`. */
  function Lookup(t: seq<PriceItem>, point: String): Option<PriceItem> {
    var i := PointIndex(t, point);
    if i < |t| then Some(t[i]) else None
  }

  /** No key occurs twice: the table is a dictionary. */
  predicate UniquePoints(t: seq<PriceItem>) {
    forall i, j :: 0 <= i < j < |t| ==> t[i].point != t[j].point
  }

  /** The first index holding `point` is the only index satisfying the characterisation. */
  lemma PointIndexIs(t: seq<PriceItem>, point: String, i: nat)
    requires i <= |t|
    requires i < |t| ==> t[i].point == point
    requires forall k :: 0 <= k < i ==> t[k].point != point
    ensures PointIndex(t, point) == i
  {
  }

  /**
   * `d[it.point] = it`: an existing key keeps its place and takes the new
   * value; a new key goes at the end. Every key keeps its position.
   */
  function Upsert(t: seq<PriceItem>, it: PriceItem): (r: seq<PriceItem>)
    ensures |r| == |t| + (if Lookup(t, it.point).None? then 1 else 0)
    ensures forall k :: 0 <= k < |t| ==> r[k].point == t[k].point
    ensures UniquePoints(t) ==> UniquePoints(r)
  {
    var i := PointIndex(t, it.point);
    if i < |t| then t[i := it] else t + [it]
  }

  /** After the assignment the key holds the new value and every other key holds what it held. */
  lemma UpsertLookup(t: seq<PriceItem>, it: PriceItem, p: String)
    ensures Lookup(Upsert(t, it), p) == if p == it.point then Some(it) else Lookup(t, p)
  {
    var r := Upsert(t, it);
    var i := PointIndex(t, it.point);
    var j := PointIndex(t, p);
    if i < |t| {
      if p == it.point {
        PointIndexIs(r, p, i);
      } else {
        PointIndexIs(r, p, j);
      }
    } else {
      if p == it.point {
        PointIndexIs(r, p, |t|);
      } else if j < |t| {
        PointIndexIs(r, p, j);
      } else {
        PointIndexIs(r, p, |r|);
      }
    }
  }

  /** `d.update(items)`, item by item in order. */
  function MergeAll(t: seq<PriceItem>, items: seq<PriceItem>): (r: seq<PriceItem>)
    ensures |r| >= |t|
    ensures forall k :: 0 <= k < |t| ==> r[k].point == t[k].point
    ensures UniquePoints(t) ==> UniquePoints(r)
    decreases |items|
  {
    if items == [] then t else MergeAll(Upsert(t, items[0]), items[1..])
  }

  /** The last of the items with key `p`. */
  function LastWith(items: seq<PriceItem>, p: String): (r: Option<PriceItem>)
    ensures r.Some? ==> r.value in items && r.value.point == p
    ensures r.None? ==> forall k :: 0 <= k < |items| ==> items[k].point != p
  {
    if items == [] then None
    else match LastWith(items[1..], p)
      case Some(x) => Some(x)
      case None => if items[0].point == p then Some(items[0]) else None
  }

  /** After `update`, a key holds the last value the items give it, or what it held before. */
  lemma {:induction false} MergeLookup(t: seq<PriceItem>, items: seq<PriceItem>, p: String)
    ensures Lookup(MergeAll(t, items), p) == if LastWith(items, p).Some? then LastWith(items, p) else Lookup(t, p)
    decreases |items|
  {
    if items != [] {
      MergeLookup(Upsert(t, items[0]), items[1..], p);
      UpsertLookup(t, items[0], p);
    }
  }

  /** Updating a dictionary with its own entries leaves it as it was. */
  lemma {:induction false} MergeSelf(t: seq<PriceItem>, items: seq<PriceItem>)
    requires UniquePoints(t)
    requires forall k :: 0 <= k < |items| ==> items[k] in t
    ensures MergeAll(t, items) == t
  {
    if items != [] {
      var x := items[0];
      var j :| 0 <= j < |t| && t[j] == x;
      PointIndexIs(t, x.point, j);
      assert Upsert(t, x) == t;
      MergeSelf(t, items[1..]);
    }
  }

  /** The built-in price list names every пункт once. */
  lemma DefaultPricesUnique()
    ensures UniquePoints(DefaultPrices)
  {
  }

  // ---------------------------------------------------------------- the "расценки" sheet

  /** `int(value)` of a cell: an integer, or a text that parses; anything else raises. */
  function IntOf(c: Cell): Option<int> {
    match c
    case Int(n) => Some(n)
    case Text(t) => ParseInt(t)
    case _ => None
  }

  /** What one row of the price sheet gives: nothing, a пункт, or an error that abandons the sheet. */
  datatype RowRead = Skip | Item(item: PriceItem) | Fail

  /** Row `row`: number in A, name in B, sum in C; a row without number or sum is skipped. */
  function ReadRow(cells: map<Key, Cell>, row: nat): (r: RowRead)
    ensures r.Item? ==> r.item.keywords == []
  {
    var num := At(cells, row, 1);
    var name := At(cells, row, 2);
    var sum := At(cells, row, 3);
    if !(Truthy(num) && Truthy(sum)) then Skip
    else match IntOf(sum)
      case None => Fail
      case Some(v) => Item(PriceItem("Пункт " + Str(num), if Truthy(name) then Str(name) else "", v, []))
  }

  /** The rows `from`..`to` read into the dictionary `acc`; none when a sum does not convert. */
  function SheetPrices(cells: map<Key, Cell>, from: nat, to: nat, acc: seq<PriceItem>): (r: Option<seq<PriceItem>>)
    ensures UniquePoints(acc) && Keywordless(acc) && r.Some? ==> UniquePoints(r.value) && Keywordless(r.value)
    decreases if from <= to then to - from + 1 else 0
  {
    if from > to then Some(acc)
    else match ReadRow(cells, from)
      case Skip => SheetPrices(cells, from + 1, to, acc)
      case Fail => None
      case Item(it) =>
        UpsertKeywordless(acc, it);
        SheetPrices(cells, from + 1, to, Upsert(acc, it))
  }

  /** `read_prices` on an existing sheet: its rows from 2 on, or the built-in list when a sum does not convert. */
  function PricesOf(cells: map<Key, Cell>, maxRow: nat): (r: seq<PriceItem>)
    ensures r == DefaultPrices || (UniquePoints(r) && Keywordless(r))
  {
    match SheetPrices(cells, 2, maxRow, [])
    case None => DefaultPrices
    case Some(t) => t
  }

  predicate Keywordless(t: seq<PriceItem>) { forall k :: 0 <= k < |t| ==> t[k].keywords == [] }

  /** A price sheet yields a dictionary whose пункты have no keywords. */
  lemma UpsertKeywordless(acc: seq<PriceItem>, it: PriceItem)
    requires it.keywords == []
    ensures Keywordless(acc) ==> Keywordless(Upsert(acc, it))
  {
    if Keywordless(acc) && PointIndex(acc, it.point) == |acc| {
      assert Upsert(acc, it) == acc + [it];
    }
  }

  /**
   * A пункт the price sheet defines keeps the sheet's value after the merge
   * and, having no keywords, can only be chosen through a label.
   */
  lemma SheetPointsHaveNoKeywords(t: seq<PriceItem>, sheet: seq<PriceItem>, p: String, text: String)
    requires Keywordless(sheet)
    requires LastWith(sheet, p).Some?
    ensures Lookup(MergeAll(t, sheet), p) == LastWith(sheet, p)
    ensures !KeywordIn(Lookup(MergeAll(t, sheet), p).value.keywords, text)
  {
    MergeLookup(t, sheet, p);
  }

  /** The price table the sync uses: the built-in one updated with what the sheet gave, when it gave anything. */
  function PriceTable(read: seq<PriceItem>): seq<PriceItem> {
    if read != [] then MergeAll(DefaultPrices, read) else DefaultPrices
  }

  /** Without a price sheet (or when it cannot be read) the built-in table is used unchanged. */
  lemma PriceTableDefault()
    ensures PriceTable(DefaultPrices) == DefaultPrices
  {
    DefaultPricesUnique();
    MergeSelf(DefaultPrices, DefaultPrices);
  }

  // ---------------------------------------------------------------- one card

  /** The kanban card as the sync reads it: title, description, label names, list id and check-item names per checklist. */
  datatype Card = Card(name: String, desc: String, labels: seq<String>, idList: String, checklists: seq<seq<String>>)

  /** Status of each list; any other list gives its own name. */
  const ListStatus: map<String, String> := map[
    "1-й этап. Начало работ." := "В работе",
    "2-й этап. В процессе работы" := "В работе",
    "3-й этап СМР" := "В работе",
    "4-й этап. Работа сделана" := "Выполнено",
    "5-й Этап. Северен остановил работы по своему желанию" := "Приостановлено (Северен)",
    "6-й Заказчик Северена остановил работы" := "Приостановлено (Заказчик)",
    "7-й ОТКАЗ_РАБОТА ОСТАНОВЛЕНА на 1-м этапе" := "Отказ"
  ]

  const Statuses: set<String> := {"В работе", "Выполнено", "Приостановлено (Северен)", "Приостановлено (Заказчик)", "Отказ"}

  /** `TRELLO_LISTS_STATUS.get(name, name)`: one of the five statuses for a known list, the name itself otherwise. */
  function StatusFor(listName: String): (r: String)
    ensures listName in ListStatus ==> r in Statuses
    ensures listName !in ListStatus ==> r == listName
  {
    if listName in ListStatus then ListStatus[listName] else listName
  }

  /** The district labels and the client labels. */
  const Districts: seq<String> := ["Московский", "Невский", "Приморский", "Красногвардейский",
    "Василеостровский", "Центральный", "Колпинский", "Гатчинский",
    "Калининский", "Фрунзенский", "Петроградский", "Кировский",
    "Выборгский", "Пушкинский"]
  const Clients: seq<String> := ["ЭТАЛОН", "Ростелеком", "СТОЛОТО", "Сервис", "Юнит"]

  /** The label holds one of the names (case-sensitive). */
  predicate Mentions(names: seq<String>, tag: String) {
    exists k :: 0 <= k < |names| && Contains(tag, names[k])
  }

  /** The index of the last label that mentions one of the names, or `|labels|`. */
  function LastMatch(labels: seq<String>, names: seq<String>): (i: nat)
    ensures i <= |labels|
    ensures i < |labels| ==> Mentions(names, labels[i]) && forall j :: i < j < |labels| ==> !Mentions(names, labels[j])
    ensures i == |labels| ==> forall j :: 0 <= j < |labels| ==> !Mentions(names, labels[j])
  {
    if labels == [] then 0
    else
      var k := |labels| - 1;
      if Mentions(names, labels[k]) then k
      else
        var i := LastMatch(labels[..k], names);
        assert forall j :: 0 <= j < k ==> labels[..k][j] == labels[j];
        if i < k then i else |labels|
  }

  /** The label the loop over labels keeps last for these names, or "". */
  function LabelFor(labels: seq<String>, names: seq<String>): String {
    var i := LastMatch(labels, names);
    if i < |labels| then labels[i] else ""
  }

  /** `parse_description(desc).get('итого')`: the "Расценки" ИТОГО when there is one, else the generic ИТОГО field. */
  function DescriptionTotal(d: String): Option<String> {
    if d == [] then None
    else if PricingTotal(d).Some? then PricingTotal(d)
    else if Total in FoundFields(d) then Some(FoundFields(d)[Total])
    else None
  }

  /** `parse_description(desc).get(key, '')` for the start, contractor and customer fields. */
  function DescriptionValue(d: String, f: Field): String
    requires f == Start || f == Contractor || f == Customer
  {
    if d != [] && f in FoundFields(d) then
      if f == Start then NormalizeDate(FoundFields(d)[Start]) else FoundFields(d)[f]
    else ""
  }

  /**
   * The cost: the description's ИТОГО converted by `int()` (a value that does
   * not convert rejects the card); else the checklist total when it is
   * non-zero; else the price's sum.
   */
  function CardCost(total: Option<String>, checklist: Option<nat>, price: int): (r: Option<int>)
    ensures total.Some? ==> r == ParseInt(total.value)
    ensures total.None? && checklist.Some? && checklist.value != 0 ==> r == Some(checklist.value as int)
    ensures total.None? && (checklist.None? || checklist.value == 0) ==> r == Some(price)
  {
    if total.Some? then ParseInt(total.value)
    else if checklist.Some? && checklist.value != 0 then Some(checklist.value)
    else Some(price)
  }

  /** A "Расценки" ИТОГО is a run of digits, so it always converts, to its decimal value. */
  lemma PricingTotalConverts(d: String)
    requires PricingTotal(d).Some?
    ensures ParseInt(PricingTotal(d).value) == Some(DigitsValue(PricingTotal(d).value) as int)
  {
    DigitsParse(PricingTotal(d).value);
  }

  /** `адрес_полный`: the address, ". Задание N", and the transits joined by ", " when there are any. */
  function AddressFull(address: String, number: String, transits: seq<String>): (r: String)
    ensures Contains(r, number)
    ensures |r| >= |number| + 10
  {
    var head := address + ". Задание ";
    ContainsSuffix(head, number);
    var withNumber := head + number;
    if transits != [] then
      ContainsSlice(withNumber + ". Транзитные адреса: " + Join(transits, ", "), 0, |withNumber|);
      assert (withNumber + ". Транзитные адреса: " + Join(transits, ", "))[0..|withNumber|] == withNumber;
      ContainsTrans(withNumber + ". Транзитные адреса: " + Join(transits, ", "), withNumber, number);
      withNumber + ". Транзитные адреса: " + Join(transits, ", ")
    else withNumber
  }

  /** What the loop prepares for `write_card_data`. */
  datatype RowData = RowData(fullAddress: String, district: String, client: String, point: String, cost: int,
                             status: String, start: String, contractor: String, customer: String)

  /** The row from a card's parsed title, chosen price and cost; none without a number or a cost. */
  function RowOf(card: Card, lists: map<String, String>, title: (String, String, seq<String>), price: (String, int),
                 cost: Option<int>): (r: Option<RowData>)
    ensures r.Some? <==> title.1 != [] && cost.Some?
    ensures r.Some? ==> r.value.cost == cost.value && r.value.point == price.0
  {
    if title.1 == [] || cost.None? then None
    else
      var listName := if card.idList in lists then lists[card.idList] else "";
      Some(RowData(AddressFull(title.0, title.1, title.2), LabelFor(card.labels, Districts),
                   LabelFor(card.labels, Clients), price.0, cost.value, StatusFor(listName),
                   DescriptionValue(card.desc, Start), DescriptionValue(card.desc, Contractor),
                   DescriptionValue(card.desc, Customer)))
  }

  /** The row a card gives, or none when the card is counted as an error. */
  function CardRow(card: Card, table: seq<PriceItem>, lists: map<String, String>): Option<RowData>
  {
    var price := DeterminePrice(table, card.labels, card.desc, card.name);
    RowOf(card, lists, ParseCardTitle(card.name), price,
          CardCost(DescriptionTotal(card.desc), ChecklistTotal(card.checklists), price.1))
  }

  /** The loop counts a card as an error when its title has no number or its ИТОГО does not convert. */
  predicate Rejected(card: Card) {
    TitleNumber(card.name) == [] || (DescriptionTotal(card.desc).Some? && ParseInt(DescriptionTotal(card.desc).value).None?)
  }

  /** The number of rejected cards among `cards`. */
  function RejectedCount(cards: seq<Card>): nat
    decreases |cards|
  {
    if cards == [] then 0
    else RejectedCount(cards[..|cards| - 1]) + (if Rejected(cards[|cards| - 1]) then 1 else 0)
  }

  /** One more card adds one to the count exactly when it is rejected. */
  lemma RejectedCountStep(cards: seq<Card>, i: nat)
    requires i < |cards|
    ensures RejectedCount(cards[..i + 1]) == RejectedCount(cards[..i]) + (if Rejected(cards[i]) then 1 else 0)
  {
    PrefixOfPrefix(cards, i);
  }

  /** A card gives no row exactly when it is rejected, whatever the price table and the lists. */
  lemma CardRowRejects(card: Card, table: seq<PriceItem>, lists: map<String, String>)
    ensures CardRow(card, table, lists).None? <==> Rejected(card)
  {
  }

  /** A numbered card whose description has a "Расценки" ИТОГО is written, at that cost. */
  lemma PricedCardAccepted(card: Card, table: seq<PriceItem>, lists: map<String, String>)
    requires ParseCardTitle(card.name).1 != []
    requires card.desc != [] && PricingTotal(card.desc).Some?
    ensures CardRow(card, table, lists).Some?
    ensures CardRow(card, table, lists).value.cost == DigitsValue(PricingTotal(card.desc).value) as int
  {
    var price := DeterminePrice(table, card.labels, card.desc, card.name);
    var cost := CardCost(DescriptionTotal(card.desc), ChecklistTotal(card.checklists), price.1);
    PricedCost(card.desc, ChecklistTotal(card.checklists), price.1);
    assert CardRow(card, table, lists) == RowOf(card, lists, ParseCardTitle(card.name), price, cost);
  }

  /** With a "Расценки" ИТОГО, the cost is that number, whatever the checklist and the price. */
  lemma PricedCost(d: String, checklist: Option<nat>, price: int)
    requires d != [] && PricingTotal(d).Some?
    ensures CardCost(DescriptionTotal(d), checklist, price) == Some(DigitsValue(PricingTotal(d).value) as int)
  {
    PricingTotalConverts(d);
    assert DescriptionTotal(d) == PricingTotal(d);
  }

  /**
   * The cells `write_card_data` writes, by column: the row formula always,
   * every other column only when its value is non-empty (the cost when non-zero).
   */
  function RowCells(desc: String, p: RowData): (w: map<nat, Cell>)
    ensures forall c :: c in w ==> c in SyncColumns
  {
    var client := if p.client != [] then p.client else p.customer;
    var w1 := PutIf(map[], true, ColNumber, Formula("=ROW()-1"));
    var w2 := PutIf(w1, p.district != [], ColDistrict, FromString(p.district));
    var w3 := PutIf(w2, desc != [], ColDetails, FromString(desc));
    var w4 := PutIf(w3, p.fullAddress != [], ColAddress, FromString(p.fullAddress));
    var w5 := PutIf(w4, p.cost != 0, ColCost, Int(p.cost));
    var w6 := PutIf(w5, p.point != [], ColService, FromString(p.point + " (" + IntToString(p.cost) + " руб.)"));
    var w7 := PutIf(w6, p.status != [], ColStatus, FromString(p.status));
    var w8 := PutIf(w7, client != [], ColClient, FromString(client));
    var w9 := PutIf(w8, p.start != [], ColWorkStart, FromString(p.start));
    PutIf(w9, p.contractor != [], ColContractor, FromString(p.contractor))
  }

  /** The row formula is always written, the cost only when it is non-zero, the client and details when there are any. */
  lemma RowCellsColumns(desc: String, p: RowData)
    ensures ColNumber in RowCells(desc, p)
    ensures ColCost in RowCells(desc, p) <==> p.cost != 0
    ensures ColClient in RowCells(desc, p) <==> p.client != [] || p.customer != []
    ensures ColDetails in RowCells(desc, p) <==> desc != []
  {
  }

  /** The client column takes the label client and falls back to the description's customer. */
  lemma ClientFallback(desc: String, p: RowData)
    requires p.client == [] && p.customer != []
    ensures RowCells(desc, p)[ColClient] == FromString(p.customer)
  {
  }

  /** A written card's address cell holds its number, so a later sync of that number finds the row. */
  lemma WrittenAddressHoldsNumber(card: Card, table: seq<PriceItem>, lists: map<String, String>)
    requires CardRow(card, table, lists).Some?
    ensures var w := RowCells(card.desc, CardRow(card, table, lists).value);
      ColAddress in w && Truthy(w[ColAddress]) && Contains(Str(w[ColAddress]), ParseCardTitle(card.name).1)
  {
    var price := DeterminePrice(table, card.labels, card.desc, card.name);
    RowOfAddress(card, lists, ParseCardTitle(card.name), price,
                 CardCost(DescriptionTotal(card.desc), ChecklistTotal(card.checklists), price.1));
  }

  /** The address cell of a prepared row holds the title's number. */
  lemma RowOfAddress(card: Card, lists: map<String, String>, title: (String, String, seq<String>), price: (String, int),
                     cost: Option<int>)
    requires RowOf(card, lists, title, price, cost).Some?
    ensures var w := RowCells(card.desc, RowOf(card, lists, title, price, cost).value);
      ColAddress in w && Truthy(w[ColAddress]) && Contains(Str(w[ColAddress]), title.1)
  {
    var p := RowOf(card, lists, title, price, cost).value;
    AddressCell(card.desc, p);
    StrFromString(p.fullAddress);
  }

  /** The address column holds the full address whenever it is non-empty. */
  lemma AddressCell(desc: String, p: RowData)
    requires p.fullAddress != []
    ensures ColAddress in RowCells(desc, p) && RowCells(desc, p)[ColAddress] == FromString(p.fullAddress)
  {
  }

  /** Every cell outside the sync columns holds in `cells` what it held in `start`. */
  ghost predicate SameOutside(start: map<Key, Cell>, cells: map<Key, Cell>) {
    forall r: nat, c: nat :: c !in SyncColumns ==> At(cells, r, c) == At(start, r, c)
  }

  /** Keeping the cells outside the sync columns composes over successive writes. */
  lemma SameOutsideTrans(a: map<Key, Cell>, b: map<Key, Cell>, c: map<Key, Cell>)
    requires SameOutside(a, b) && SameOutside(b, c)
    ensures SameOutside(a, c)
  {
  }

  /** A row write confined to the sync columns keeps every other cell. */
  lemma WriteKeepsOutside(start: map<Key, Cell>, before: map<Key, Cell>, row: nat, w: map<nat, Cell>)
    requires SameOutside(start, before)
    requires forall c :: c in w ==> c in SyncColumns
    ensures SameOutside(start, before + InRow(row, w))
  {
    forall r: nat, c: nat | c !in SyncColumns
      ensures At(before + InRow(row, w), r, c) == At(start, r, c)
    {
      assert (r, c) !in InRow(row, w);
    }
  }

  /** The row holds the number in its address column (column 6 non-empty and containing it). */
  predicate AddressHolds(ws: Worksheet, row: nat, n: String)
    reads ws
  {
    Holds(ws.cells, row, ColAddress, n)
  }

  // ---------------------------------------------------------------- the card loop on sheet values

  /** The row `find_or_create_row` picks: the first from 2 whose address holds `n`, else the row after the last. */
  function TargetRow(g: Grid, n: String): nat {
    FirstHolding(g.cells, ColAddress, 2, g.maxRow, n)
  }

  /** One pass of the card loop: a rejected card changes nothing; otherwise its row is written into the row picked by its number. */
  function SyncStep(g: Grid, card: Card, table: seq<PriceItem>, lists: map<String, String>): Grid {
    match CardRow(card, table, lists)
    case None => g
    case Some(p) =>
      var row := TargetRow(g, ParseCardTitle(card.name).1);
      Grid(g.cells + InRow(row, RowCells(card.desc, p)), Max(g.maxRow, row))
  }

  /** The sheet after the card loop has run over `cards`, in order. */
  function SyncAll(g: Grid, cards: seq<Card>, table: seq<PriceItem>, lists: map<String, String>): Grid
    decreases |cards|
  {
    if cards == [] then g
    else SyncStep(SyncAll(g, cards[..|cards| - 1], table, lists), cards[|cards| - 1], table, lists)
  }

  /** The loop's sheet after one more card: the sheet after the shorter prefix, with that card synced. */
  lemma SyncAllStep(g0: Grid, cards: seq<Card>, i: nat, before: Grid, after: Grid, table: seq<PriceItem>,
                    lists: map<String, String>)
    requires i < |cards|
    requires before == SyncAll(g0, cards[..i], table, lists)
    requires after == SyncStep(before, cards[i], table, lists)
    ensures after == SyncAll(g0, cards[..i + 1], table, lists)
  {
    PrefixOfPrefix(cards, i);
  }

  /**
   * Syncing a card twice in a row is syncing it once: the second pass finds
   * the row the first one wrote, adds no row and writes the same cells again.
   */
  lemma SyncStepIdempotent(g: Grid, card: Card, table: seq<PriceItem>, lists: map<String, String>)
    requires GridValid(g)
    ensures var g1 := SyncStep(g, card, table, lists);
      SyncStep(g1, card, table, lists) == g1
      && (CardRow(card, table, lists).Some? ==>
            TargetRow(g1, ParseCardTitle(card.name).1) == TargetRow(g, ParseCardTitle(card.name).1) <= g1.maxRow)
  {
    match CardRow(card, table, lists)
    case None =>
    case Some(p) =>
      WrittenAddressHoldsNumber(card, table, lists);
      RowWriteIdempotent(g, ParseCardTitle(card.name).1, RowCells(card.desc, p));
  }

  /**
   * Writing a row whose address cell holds `n` at the row `n` leads to, then
   * looking `n` up again, finds the same row, and writing it again changes nothing.
   */
  lemma RowWriteIdempotent(g: Grid, n: String, w: map<nat, Cell>)
    requires GridValid(g)
    requires ColAddress in w && Truthy(w[ColAddress]) && Contains(Str(w[ColAddress]), n)
    ensures var row := TargetRow(g, n);
      var g1 := Grid(g.cells + InRow(row, w), Max(g.maxRow, row));
      TargetRow(g1, n) == row <= g1.maxRow
      && g1.cells + InRow(row, w) == g1.cells
  {
    var row := TargetRow(g, n);
    var g1 := Grid(g.cells + InRow(row, w), Max(g.maxRow, row));
    FirstHoldingWritten(g.cells, ColAddress, 2, g.maxRow, n, row, w, g1.maxRow);
    InRowAbsorb(g.cells, row, w, w);
  }

  class ExcelManager {
    /** The data sheet. */
    const ws: Worksheet
    /** The "расценки" sheet, when the workbook has one. */
    const prices: Worksheet?

    /** `load`: the data sheet and, when present, the price sheet. */
    constructor (ws: Worksheet, prices: Worksheet?)
      ensures this.ws == ws && this.prices == prices
    {
      this.ws := ws;
      this.prices := prices;
    }

    /** `read_prices`: the built-in list without a price sheet, else what `PricesOf` reads from it. */
    method ReadPrices() returns (r: seq<PriceItem>)
      ensures prices == null ==> r == DefaultPrices
      ensures prices != null ==> r == PricesOf(prices.cells, prices.maxRow)
    {
      if prices == null {
        return DefaultPrices;
      }
      var acc: seq<PriceItem> := [];
      var row := 2;
      while row <= prices.maxRow
        invariant 2 <= row
        invariant SheetPrices(prices.cells, 2, prices.maxRow, []) == SheetPrices(prices.cells, row, prices.maxRow, acc)
        decreases prices.maxRow + 1 - row
      {
        var read := ReadRow(prices.cells, row);
        match read {
          case Fail => return DefaultPrices;
          case Skip =>
          case Item(it) => acc := Upsert(acc, it);
        }
        row := row + 1;
      }
      return acc;
    }

    /** `find_or_create_row`: the lowest row from 2 on whose address holds the number, else the row after the last. */
    method FindOrCreateRow(n: String) returns (row: nat)
      requires ws.Valid()
      ensures 2 <= row <= ws.maxRow + 1
      ensures row <= ws.maxRow ==> AddressHolds(ws, row, n)
      ensures forall q :: 2 <= q < row ==> !AddressHolds(ws, q, n)
    {
      row := 2;
      while row <= ws.maxRow
        invariant 2 <= row <= ws.maxRow + 1
        invariant forall q :: 2 <= q < row ==> !AddressHolds(ws, q, n)
        decreases ws.maxRow + 1 - row
      {
        var v := ws.Get(row, ColAddress);
        if Truthy(v) && Contains(Str(v), n) {
          return;
        }
        row := row + 1;
      }
    }

    /** `write_card_data`: exactly the cells of `RowCells` change. */
    method WriteCardData(row: nat, desc: String, p: RowData)
      requires ws.Valid() && row >= 1
      modifies ws
      ensures ws.Valid()
      ensures ws.cells == old(ws.cells) + InRow(row, RowCells(desc, p))
      ensures ws.maxRow == if row > old(ws.maxRow) then row else old(ws.maxRow)
    {
      ghost var before := ws.cells;
      ghost var w0: map<nat, Cell> := map[];
      assert before + InRow(row, w0) == before;
      var client := if p.client != [] then p.client else p.customer;
      var w1 := ws.PutWhen(true, row, ColNumber, Formula("=ROW()-1"), before, w0);
      var w2 := ws.PutWhen(p.district != [], row, ColDistrict, FromString(p.district), before, w1);
      var w3 := ws.PutWhen(desc != [], row, ColDetails, FromString(desc), before, w2);
      var w4 := ws.PutWhen(p.fullAddress != [], row, ColAddress, FromString(p.fullAddress), before, w3);
      var w5 := ws.PutWhen(p.cost != 0, row, ColCost, Int(p.cost), before, w4);
      var w6 := ws.PutWhen(p.point != [], row, ColService, FromString(p.point + " (" + IntToString(p.cost) + " руб.)"), before, w5);
      var w7 := ws.PutWhen(p.status != [], row, ColStatus, FromString(p.status), before, w6);
      var w8 := ws.PutWhen(client != [], row, ColClient, FromString(client), before, w7);
      var w9 := ws.PutWhen(p.start != [], row, ColWorkStart, FromString(p.start), before, w8);
      var w10 := ws.PutWhen(p.contractor != [], row, ColContractor, FromString(p.contractor), before, w9);
    }

    /** The values the loop takes from `parse_description`: ИТОГО, start, contractor and customer. */
    static method DescriptionLookups(d: String) returns (total: Option<String>, start: String, contractor: String, customer: String)
      ensures total == DescriptionTotal(d)
      ensures start == DescriptionValue(d, Start)
      ensures contractor == DescriptionValue(d, Contractor)
      ensures customer == DescriptionValue(d, Customer)
    {
      var fields := ParseDescription(d);
      total := if Total in fields then Some(fields[Total]) else None;
      start := if Start in fields then fields[Start] else "";
      contractor := if Contractor in fields then fields[Contractor] else "";
      customer := if Customer in fields then fields[Customer] else "";
    }

    /** The preparation of one card in the loop: the row data, or none when the card is an error. */
    static method PrepareRow(card: Card, table: seq<PriceItem>, lists: map<String, String>) returns (r: Option<RowData>)
      ensures r == CardRow(card, table, lists)
    {
      var title := ParseCardTitle(card.name);
      if title.1 == [] {
        return None;
      }
      var total, start, contractor, customer := DescriptionLookups(card.desc);
      var price := DeterminePrice(table, card.labels, card.desc, card.name);
      var cost := CardCost(total, ChecklistTotal(card.checklists), price.1);
      if cost.None? {
        return None;
      }
      var listName := if card.idList in lists then lists[card.idList] else "";
      r := Some(RowData(AddressFull(title.0, title.1, title.2), LabelFor(card.labels, Districts),
                        LabelFor(card.labels, Clients), price.0, cost.value, StatusFor(listName),
                        start, contractor, customer));
    }

    /**
     * The body of the card loop: a card without a number, or whose ИТОГО does
     * not convert, is an error and nothing is written; otherwise its row is
     * found or appended and written.
     */
    method SyncCard(card: Card, table: seq<PriceItem>, lists: map<String, String>) returns (data: Option<RowData>, row: nat)
      requires ws.Valid()
      modifies ws
      ensures ws.Valid()
      ensures data.Some? ==> data == CardRow(card, table, lists)
      ensures data.None? <==> Rejected(card)
      ensures data.None? ==> ws.cells == old(ws.cells) && ws.maxRow == old(ws.maxRow)
      ensures data.Some? ==> 2 <= row <= old(ws.maxRow) + 1
      ensures data.Some? ==> ws.cells == old(ws.cells) + InRow(row, RowCells(card.desc, data.value))
      ensures data.Some? ==> ws.maxRow == if row > old(ws.maxRow) then row else old(ws.maxRow)
      ensures SameOutside(old(ws.cells), ws.cells)
      ensures ws.maxRow <= old(ws.maxRow) + (if data.Some? then 1 else 0)
      ensures data.Some? ==> row == TargetRow(old(ws.Snapshot()), ParseCardTitle(card.name).1)
      ensures ws.Snapshot() == SyncStep(old(ws.Snapshot()), card, table, lists)
    {
      data := PrepareRow(card, table, lists);
      CardRowRejects(card, table, lists);
      if data.None? {
        row := 0;
        return;
      }
      var n := ParseCardTitle(card.name).1;
      row := FindOrCreateRow(n);
      forall p | 2 <= p < row
        ensures !Holds(ws.cells, p, ColAddress, n)
      {
        assert !AddressHolds(ws, p, n);
      }
      FirstHoldingIs(ws.cells, ColAddress, 2, ws.maxRow, n, row);
      ghost var before := ws.cells;
      WriteCardData(row, card.desc, data.value);
      WriteKeepsOutside(before, before, row, RowCells(card.desc, data.value));
    }

    /** One turn of the card loop: card `i` synced, the sheet now the loop's sheet after `i + 1` cards. */
    method SyncNext(cards: seq<Card>, i: nat, table: seq<PriceItem>, lists: map<String, String>,
                    processed: nat, errors: nat, ghost g0: Grid, ghost start: map<Key, Cell>, ghost maxRow0: int)
      returns (processed': nat, errors': nat)
      requires i < |cards| && ws.Valid()
      requires processed + errors == i && errors == RejectedCount(cards[..i])
      requires SameOutside(start, ws.cells) && ws.maxRow <= maxRow0 + processed
      requires ws.Snapshot() == SyncAll(g0, cards[..i], table, lists)
      modifies ws
      ensures ws.Valid()
      ensures processed' + errors' == i + 1 && errors' == RejectedCount(cards[..i + 1])
      ensures SameOutside(start, ws.cells) && ws.maxRow <= maxRow0 + processed'
      ensures ws.Snapshot() == SyncAll(g0, cards[..i + 1], table, lists)
    {
      ghost var before := ws.Snapshot();
      ghost var cells := ws.cells;
      var data, row := SyncCard(cards[i], table, lists);
      SyncAllStep(g0, cards, i, before, ws.Snapshot(), table, lists);
      SameOutsideTrans(start, cells, ws.cells);
      RejectedCountStep(cards, i);
      if data.Some? {
        processed', errors' := processed + 1, errors;
      } else {
        processed', errors' := processed, errors + 1;
      }
    }

    /**
     * The card loop: every card is processed or counted as an error, the
     * errors being exactly the rejected cards; only the sync columns change,
     * and each processed card adds at most one row.
     */
    method SyncCards(cards: seq<Card>, table: seq<PriceItem>, lists: map<String, String>)
      returns (processed: nat, errors: nat)
      requires ws.Valid()
      modifies ws
      ensures ws.Valid()
      ensures processed + errors == |cards|
      ensures errors == RejectedCount(cards)
      ensures SameOutside(old(ws.cells), ws.cells)
      ensures ws.maxRow <= old(ws.maxRow) + processed
      ensures ws.Snapshot() == SyncAll(old(ws.Snapshot()), cards, table, lists)
    {
      processed, errors := 0, 0;
      ghost var start := ws.cells;
      ghost var g0 := ws.Snapshot();
      ghost var maxRow0 := ws.maxRow;
      assert cards[..0] == [];
      var i := 0;
      while i < |cards|
        invariant 0 <= i <= |cards|
        invariant ws.Valid()
        invariant processed + errors == i
        invariant errors == RejectedCount(cards[..i])
        invariant SameOutside(start, ws.cells)
        invariant ws.maxRow <= maxRow0 + processed
        invariant ws.Snapshot() == SyncAll(g0, cards[..i], table, lists)
      {
        processed, errors := SyncNext(cards, i, table, lists, processed, errors, g0, start, maxRow0);
        i := i + 1;
      }
      WholePrefix(cards, i);
    }

    /**
     * `sync_trello_to_excel` after loading: the price list read from the sheet
     * updates the built-in one, then every card is synced against the result.
     */
    method Sync(cards: seq<Card>, lists: map<String, String>) returns (processed: nat, errors: nat, table: seq<PriceItem>)
      requires ws.Valid()
      modifies ws
      ensures ws.Valid()
      ensures prices == null ==> table == DefaultPrices
      ensures prices != null ==> table == PriceTable(old(PricesOf(prices.cells, prices.maxRow)))
      ensures processed + errors == |cards|
      ensures errors == RejectedCount(cards)
      ensures SameOutside(old(ws.cells), ws.cells)
      ensures ws.Snapshot() == SyncAll(old(ws.Snapshot()), cards, table, lists)
    {
      var read := ReadPrices();
      table := DefaultPrices;
      if read != [] {
        table := MergeAll(table, read);
      }
      if prices == null {
        PriceTableDefault();
      }
      processed, errors := SyncCards(cards, table, lists);
    }
  }
}
