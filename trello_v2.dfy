/**
 * The one-way kanban-to-spreadsheet import of trello_to_excel_v2.py: the
 * description parser (district, start date, client, contractor, address), the
 * status classifier for list names and the loop that appends one row per
 * accepted card below the last row of the "Работы" sheet.
 */
module TrelloV2 {
  import opened Wrappers
  import opened Text
  import opened Scan
  import opened Dates
  import opened Sheet
  import Lists
  import CardParser

  // ---------------------------------------------------------------- district

  /** `^\d+\n(.+?)\n` under MULTILINE at `p`: a line of digits, then the next line, which must be non-empty and end in a newline. */
  function DistrictAt(s: String, p: nat): (r: Option<Span>)
    ensures r.Some? ==> p < r.value.lo < r.value.hi < |s| && s[r.value.hi] == '\n'
    ensures r.Some? ==> forall q :: r.value.lo <= q < r.value.hi ==> s[q] != '\n'
  {
    if p <= |s| && (p == 0 || s[p - 1] == '\n') then
      var j := RunEnd(s, p, IsDigit);
      if p < j < |s| && s[j] == '\n' then
        var e := LineEnd(s, j + 1);
        if j + 1 < e < |s| then Some(Span(j + 1, e)) else None
      else None
    else None
  }

  /** The line the first district match captures. */
  function DistrictCapture(s: String): (r: Option<String>)
    ensures r.Some? ==> r.value != [] && Free(r.value, '\n')
    ensures r.None? <==> Search(s, p => DistrictAt(s, p)).None?
  {
    match Search(s, p => DistrictAt(s, p))
    case None => None
    case Some(h) =>
      assert DistrictAt(s, h.pos) == Some(h.val);
      Some(Slice(s, h.val))
  }

  /** `data['district']`: the captured line, stripped, or "" when the pattern does not match. */
  function District(s: String): (r: String)
    ensures Stripped(r) && Free(r, '\n')
    ensures DistrictCapture(s).None? ==> r == []
  {
    match DistrictCapture(s)
    case None => []
    case Some(v) =>
      StripFree(v, '\n');
      StripIsStripped(v);
      Strip(v)
  }

  // ---------------------------------------------------------------- start date

  /** `(\d{2}\.\d{2}\.\d{4})\s+Начало работ`, ignoring case, at `p`. The literal starts
      with a letter, so only the longest whitespace run can be followed by it. */
  predicate StartDateAt(s: String, p: nat) {
    DigitsAt(s, p, 2) && p + 10 <= |s| && s[p + 2] == '.' && DigitsAt(s, p + 3, 2) && s[p + 5] == '.'
    && DigitsAt(s, p + 6, 4)
    && var j := RunEnd(s, p + 10, IsSpace); j > p + 10 && LitCI(s, j, "Начало работ")
  }

  /** A `dd.mm.yyyy` string of digits. */
  predicate DottedShape(d: String) {
    |d| == 10 && d[2] == '.' && d[5] == '.' && AllDigits(d[..2]) && AllDigits(d[3..5]) && AllDigits(d[6..])
  }

  /** The date the first start-date match captures. */
  function StartCapture(s: String): (r: Option<String>)
    ensures r.Some? ==> DottedShape(r.value)
    ensures r.None? <==> Search(s, p => if StartDateAt(s, p) then Some(p) else None).None?
  {
    match Search(s, p => if StartDateAt(s, p) then Some(p) else None)
    case None => None
    case Some(h) =>
      var p := h.pos;
      assert StartDateAt(s, p);
      var d := s[p..p + 10];
      assert d[..2] == s[p..p + 2] && d[3..5] == s[p + 3..p + 5] && d[6..] == s[p + 6..p + 10];
      Some(d)
  }

  /**
   * The start date written for a captured `dd.mm.yyyy`: `strftime('%Y-%m-%d')`
   * of the date when `strptime` accepts it, the captured text itself otherwise.
   */
  function StartValue(d: String): (r: String)
    requires DottedShape(d)
    ensures ParseDottedDate(d).None? ==> r == d
    ensures ParseDottedDate(d).Some? ==> r != d && ParseIsoDate(r) == ParseDottedDate(d)
  {
    match ParseDottedDate(d)
    case None => d
    case Some(v) =>
      ParseIsoDateRoundTrip(v);
      PadWidth(v.year, 4);
      assert IsoDate(v)[2] == Pad(v.year, 4)[2];
      assert IsDigit(IsoDate(v)[2]);
      IsoDate(v)
  }

  /** `data['start_date']`: "" when there is no start-date line. */
  function StartDate(s: String): (r: String)
    ensures StartCapture(s).None? ==> r == []
    ensures StartCapture(s).Some? ==> r == StartValue(StartCapture(s).value)
  {
    match StartCapture(s)
    case None => []
    case Some(d) => StartValue(d)
  }

  // ---------------------------------------------------------------- client and contractor

  /** The stops of `(?:\(|,|\n)`. */
  predicate IsStop(c: char) { c == '(' || c == ',' || c == '\n' }

  /** The class `[^\]\n]`. */
  predicate InNameClass(c: char) { c != ']' && c != '\n' }

  /** `\]?(?:\(|,|\n)` at `e`, with or without the closing bracket. */
  predicate NameTail(s: String, e: nat) {
    (e < |s| && IsStop(s[e])) || (e + 1 < |s| && s[e] == ']' && IsStop(s[e + 1]))
  }

  /** The lazy `([^\]\n]+?)` that began at `c`, tried to end at `e`, then at `e + 1`, and so on. */
  function NameFrom(s: String, c: nat, e: nat): (r: Option<Span>)
    requires c < e <= |s|
    requires forall q :: c <= q < e ==> InNameClass(s[q])
    ensures r.Some? ==> r.value.lo == c && e <= r.value.hi <= |s| && NameTail(s, r.value.hi)
    ensures r.Some? ==> forall q :: c <= q < r.value.hi ==> InNameClass(s[q])
    ensures r.Some? ==> forall q :: e <= q < r.value.hi ==> !NameTail(s, q)
    decreases |s| - e
  {
    if NameTail(s, e) then Some(Span(c, e))
    else if e < |s| && InNameClass(s[e]) then NameFrom(s, c, e + 1)
    else None
  }

  /** `([^\]\n]+?)\]?(?:\(|,|\n)` at `c`. */
  function NameBody(s: String, c: nat): (r: Option<Span>)
    ensures r.Some? ==> r.value.lo == c < r.value.hi <= |s| && NameTail(s, r.value.hi)
    ensures r.Some? ==> forall q :: c <= q < r.value.hi ==> InNameClass(s[q])
  {
    if c < |s| && InNameClass(s[c]) then NameFrom(s, c, c + 1) else None
  }

  /** `\[?([^\]\n]+?)\]?(?:\(|,|\n)` at `t`: the optional bracket is tried taken first. */
  function Bracketed(s: String, t: nat): (r: Option<Span>)
    ensures r.Some? ==> t <= r.value.lo < r.value.hi <= |s|
    ensures r.Some? ==> forall q :: r.value.lo <= q < r.value.hi ==> InNameClass(s[q])
  {
    if t < |s| && s[t] == '[' && NameBody(s, t + 1).Some? then NameBody(s, t + 1) else NameBody(s, t)
  }

  /** `<tag>\s+\[?([^\]\n]+?)\]?(?:\(|,|\n)`, ignoring case, at `p`. */
  function NameAt(s: String, tag: String, p: nat): (r: Option<Span>)
    ensures r.Some? ==> r.value.lo < r.value.hi <= |s|
    ensures r.Some? ==> forall q :: r.value.lo <= q < r.value.hi ==> InNameClass(s[q])
  {
    if LitCI(s, p, tag) then
      var j := RunEnd(s, p + |tag|, IsSpace);
      Backtrack(p + |tag| + 1, j, t => Bracketed(s, t))
    else None
  }

  /** The name the first match of `tag`'s pattern captures. */
  function NameCapture(s: String, tag: String): (r: Option<String>)
    ensures r.Some? ==> r.value != [] && Free(r.value, '\n') && Free(r.value, ']')
    ensures r.None? <==> Search(s, p => NameAt(s, tag, p)).None?
  {
    match Search(s, p => NameAt(s, tag, p))
    case None => None
    case Some(h) =>
      var sp := h.val;
      assert NameAt(s, tag, h.pos) == Some(sp);
      NameSliceFree(s, sp);
      Some(Slice(s, sp))
  }

  /** A non-empty span of the name class holds no newline and no closing bracket. */
  lemma NameSliceFree(s: String, sp: Span)
    requires sp.lo < sp.hi <= |s| && forall q :: sp.lo <= q < sp.hi ==> InNameClass(s[q])
    ensures Slice(s, sp) != [] && Free(Slice(s, sp), '\n') && Free(Slice(s, sp), ']')
  {
    forall i | 0 <= i < |Slice(s, sp)|
      ensures Slice(s, sp)[i] == s[sp.lo + i]
    {
    }
  }

  /** A captured name, stripped, or "" when the pattern does not match. */
  function NameValue(s: String, tag: String): (r: String)
    ensures Stripped(r) && Free(r, '\n') && Free(r, ']')
    ensures NameCapture(s, tag).None? ==> r == []
  {
    match NameCapture(s, tag)
    case None => []
    case Some(v) =>
      StripFree(v, '\n');
      StripFree(v, ']');
      StripIsStripped(v);
      Strip(v)
  }

  /** `data['client']`: the "Клиент" name, and the "Заказчик:" name only when that one is empty. */
  function Client(s: String): (r: String)
    ensures Stripped(r) && Free(r, '\n') && Free(r, ']')
    ensures NameValue(s, "Клиент") != [] ==> r == NameValue(s, "Клиент")
    ensures NameValue(s, "Клиент") == [] ==> r == NameValue(s, "Заказчик:")
  {
    var c := NameValue(s, "Клиент");
    if c != [] then c else NameValue(s, "Заказчик:")
  }

  /** `Подрядчик:\s+(.+?)(?:\n|$)`, ignoring case, at `p`: the lazy run stops at the first newline or the end. */
  function ContractorAt(s: String, p: nat): (r: Option<Span>)
    ensures r.Some? ==> r.value.lo < r.value.hi <= |s| && (r.value.hi == |s| || s[r.value.hi] == '\n')
    ensures r.Some? ==> forall q :: r.value.lo <= q < r.value.hi ==> s[q] != '\n'
  {
    if LitCI(s, p, "Подрядчик:") then
      var j := RunEnd(s, p + 10, IsSpace);
      Backtrack(p + 11, j, (t: nat) => if t < |s| && s[t] != '\n' then Some(Span(t, LineEnd(s, t + 1))) else None)
    else None
  }

  /** The contractor the first match captures, stripped. */
  function ContractorCapture(s: String): (r: Option<String>)
    ensures r.Some? ==> Stripped(r.value) && Free(r.value, '\n')
    ensures r.None? <==> Search(s, p => ContractorAt(s, p)).None?
  {
    match Search(s, p => ContractorAt(s, p))
    case None => None
    case Some(h) =>
      assert ContractorAt(s, h.pos) == Some(h.val);
      var v := Slice(s, h.val);
      StripFree(v, '\n');
      StripIsStripped(v);
      Some(Strip(v))
  }

  /** The placeholder a card carries when no contractor has been chosen yet. */
  const NoContractor: String := "?????"

  /** `data['contractor']`: set only from a non-empty capture other than the placeholder. */
  function Contractor(s: String): (r: String)
    ensures r != NoContractor && Free(r, '\n')
    ensures r != [] <==> ContractorCapture(s).Some? && ContractorCapture(s).value !in {[], NoContractor}
    ensures r != [] ==> r == ContractorCapture(s).value
  {
    match ContractorCapture(s)
    case Some(v) => if v != [] && v != NoContractor then v else []
    case None => []
  }

  // ---------------------------------------------------------------- address

  /** The city literal of the full-address pattern. */
  const City: String := "Санкт-Петербург"

  /** `\s+Санкт-Петербург[^\n]+` at `q`: where the city name starts and where the line ends. The
      literal starts with a letter, so only the longest whitespace run can be followed by it. */
  function CityLine(s: String, q: nat): (r: Option<Span>)
    ensures r.Some? ==> q < r.value.lo && r.value.lo + |City| < r.value.hi <= |s| && LitCI(s, r.value.lo, City)
  {
    if q <= |s| then
      var j := RunEnd(s, q, IsSpace);
      if j > q && LitCI(s, j, City) then
        var e := LineEnd(s, j + |City|);
        if e > j + |City| then Some(Span(j, e)) else None
      else None
    else None
  }

  /** `гор\.?\s+Санкт-Петербург[^\n]+`, ignoring case, at `p`: where the city name starts and where the match ends. */
  function FullAddressAt(s: String, p: nat): (r: Option<Span>)
    ensures r.Some? ==> LitCI(s, p, "гор") && p + 3 < r.value.lo && r.value.lo + |City| < r.value.hi <= |s|
    ensures r.Some? ==> LitCI(s, r.value.lo, City)
  {
    if LitCI(s, p, "гор") then
      if p + 3 < |s| && s[p + 3] == '.' && CityLine(s, p + 4).Some? then CityLine(s, p + 4)
      else CityLine(s, p + 3)
    else None
  }

  /** The address a "гор. Санкт-Петербург …" line gives: the whole match, stripped. */
  function FullAddress(s: String): (r: Option<String>)
    ensures r.Some? ==> LitCI(r.value, 0, "гор")
    ensures r.None? <==> Search(s, p => FullAddressAt(s, p)).None?
  {
    match Search(s, p => FullAddressAt(s, p))
    case None => None
    case Some(h) =>
      var p := h.pos;
      assert FullAddressAt(s, p) == Some(h.val);
      Some(StripGor(s, p, h.val.lo, h.val.hi))
  }

  /** The stripped match `s[p..e]` of the full-address pattern, which keeps its leading "гор". */
  function StripGor(s: String, p: nat, j: nat, e: nat): (r: String)
    requires LitCI(s, p, "гор") && p + 3 < j && j + |City| < e <= |s| && LitCI(s, j, City)
    ensures LitCI(r, 0, "гор")
  {
    var m := s[p..e];
    GorLetter(s, p);
    CityLetter(s, j);
    StripKeepsPrefix(m, j - p);
    assert Strip(m)[..3] == m[..3] == s[p..p + 3];
    Strip(m)
  }

  /** The first letter of a case-insensitive "гор" is not whitespace. */
  lemma GorLetter(s: String, p: nat)
    requires LitCI(s, p, "гор")
    ensures !IsSpace(s[p])
  {
    assert Lower(s[p..p + 3])[0] == LowerChar(s[p]);
  }

  /** The first letter of a case-insensitive city name is not whitespace. */
  lemma CityLetter(s: String, j: nat)
    requires LitCI(s, j, City)
    ensures !IsSpace(s[j])
  {
    assert Lower(s[j..j + |City|])[0] == LowerChar(s[j]);
  }

  /** `(?:по адресу[:\s]+|адрес[:\s]+)([^\n]+)`, ignoring case, at `p`: the first alternative first. */
  function AddressFieldAt(s: String, p: nat): (r: Option<Span>)
    ensures r.Some? ==> r.value.lo < r.value.hi <= |s|
  {
    match CardParser.FieldAt(s, "по адресу", p)
    case Some(sp) => Some(sp)
    case None => CardParser.FieldAt(s, "адрес", p)
  }

  /** The address field's captured value, stripped. */
  function AddressField(s: String): (r: Option<String>)
    ensures r.None? <==> Search(s, p => AddressFieldAt(s, p)).None?
  {
    match Search(s, p => AddressFieldAt(s, p))
    case None => None
    case Some(h) =>
      assert AddressFieldAt(s, h.pos) == Some(h.val);
      Some(Strip(Slice(s, h.val)))
  }

  /** The prefix the fallback address is given. */
  const CityPrefix: String := "гор. Санкт-Петербург, "

  /** The address built from the address field: under the city, with the district when there is one. */
  function FallbackAddress(district: String, a: String): (r: String)
    ensures |r| == |CityPrefix| + (if district != [] then |district| + 2 else 0) + |a|
    ensures r[..|CityPrefix|] == CityPrefix && r[|r| - |a|..] == a && LitCI(r, 0, "гор")
    ensures district != [] ==> r[|CityPrefix|..|CityPrefix| + |district| + 2] == district + ", "
  {
    var rest := (if district != [] then district + ", " else []) + a;
    CityPrefixGor(rest);
    CityPrefix + rest
  }

  /** `data['address']`: the full-address line, else the address field under the city and the district. */
  function Address(s: String, district: String): (r: String)
    ensures r == [] || LitCI(r, 0, "гор")
  {
    match FullAddress(s)
    case Some(a) => a
    case None =>
      match AddressField(s)
      case None => []
      case Some(a) => FallbackAddress(district, a)
  }

  /** No address at all only when neither pattern matches. */
  lemma AddressEmpty(s: String, district: String)
    ensures Address(s, district) == [] <==> FullAddress(s).None? && AddressField(s).None?
  {
    if FullAddress(s).Some? {
      assert LitCI(FullAddress(s).value, 0, "гор");
    }
  }

  /** The fallback address starts with "гор". */
  lemma CityPrefixGor(rest: String)
    ensures LitCI(CityPrefix + rest, 0, "гор")
  {
    assert (CityPrefix + rest)[..3] == "гор";
  }

  // ---------------------------------------------------------------- the parsed card

  datatype CardData = CardData(
    district: String, address: String, startDate: String, client: String,
    contractor: String, note: String, fullDescription: String)

  /** `parse_card_description`. */
  function ParseCardDescription(d: String): (r: CardData)
    ensures r.fullDescription == d && r.note == []
  {
    var district := District(d);
    CardData(district, Address(d, district), StartDate(d), Client(d), Contractor(d), [], d)
  }

  // ---------------------------------------------------------------- status

  const Done: String := "Выполнен"
  const Paused: String := "Приостановка"
  const Refused: String := "Отказ"
  const InProgress: String := "В работе"

  predicate SaysDone(l: String) { Contains(l, "выполнен") || Contains(l, "done") }
  predicate SaysPaused(l: String) { Contains(l, "приостановк") || Contains(l, "pause") }
  predicate SaysRefused(l: String) { Contains(l, "отказ") || Contains(l, "cancel") }

  /** `determine_status`: the first keyword group, in order, found in the lower-cased list name. */
  function DetermineStatus(listName: String): (r: String)
    ensures r in {Done, Paused, Refused, InProgress}
    ensures r == Done <==> SaysDone(Lower(listName))
    ensures r == Paused <==> !SaysDone(Lower(listName)) && SaysPaused(Lower(listName))
    ensures r == Refused <==> !SaysDone(Lower(listName)) && !SaysPaused(Lower(listName)) && SaysRefused(Lower(listName))
  {
    var l := Lower(listName);
    if SaysDone(l) then Done
    else if SaysPaused(l) then Paused
    else if SaysRefused(l) then Refused
    else InProgress
  }

  /** The classification ignores case: a list name and its lower-cased form get the same status. */
  lemma StatusIgnoresCase(listName: String)
    ensures DetermineStatus(Lower(listName)) == DetermineStatus(listName)
  {
    LowerIdempotent(listName);
  }

  // ---------------------------------------------------------------- appending rows

  /** A card as the import sees it: its description and the name of its list. */
  datatype TrelloCard = TrelloCard(desc: String, listName: String)

  /** The `COLUMNS` the import writes. */
  const ColAddress: nat := 4
  const ColStartDate: nat := 5
  const ColClient: nat := 7
  const ColContractor: nat := 8
  const ColStatus: nat := 9
  const ColNote: nat := 14
  const ColDescription: nat := 15

  /** A card is written when it has a description that yields an address. */
  predicate Accepted(c: TrelloCard) {
    c.desc != [] && ParseCardDescription(c.desc).address != []
  }

  /** The columns a row is written in. */
  const RowColumns: set<nat> := {ColAddress, ColStartDate, ColClient, ColContractor, ColStatus, ColNote, ColDescription}

  /** The seven cells written for a parsed card with the status of its list, by column. */
  function CardRow(data: CardData, status: String): (w: map<nat, Cell>)
    ensures w.Keys == RowColumns
    ensures w[ColDescription] == FromString(data.fullDescription) && w[ColNote] == FromString(data.note)
    ensures w[ColStatus] == FromString(status) && w[ColAddress] == FromString(data.address)
  {
    map[ColAddress := FromString(data.address), ColStartDate := FromString(data.startDate),
        ColClient := FromString(data.client), ColContractor := FromString(data.contractor),
        ColStatus := FromString(status), ColNote := FromString(data.note),
        ColDescription := FromString(data.fullDescription)]
  }

  /** The row written for an accepted card. */
  function RowFor(c: TrelloCard): map<nat, Cell> {
    CardRow(ParseCardDescription(c.desc), DetermineStatus(c.listName))
  }

  /** The row a card adds: one for an accepted card, none otherwise. */
  function Step(c: TrelloCard): seq<map<nat, Cell>>
  {
    if Accepted(c) then [RowFor(c)] else []
  }

  /** The rows the import appends, in card order. */
  function NewRows(cards: seq<TrelloCard>): (rows: seq<map<nat, Cell>>)
    ensures |rows| <= |cards|
  {
    if cards == [] then [] else NewRows(cards[..|cards| - 1]) + Step(cards[|cards| - 1])
  }

  /** Exactly the accepted cards are written. */
  lemma {:induction false} NewRowsCount(cards: seq<TrelloCard>)
    ensures |NewRows(cards)| == Lists.Count(cards, Accepted)
  {
    if cards != [] {
      var n := |cards| - 1;
      NewRowsCount(cards[..n]);
      Lists.CountPrefix(cards, n, Accepted);
      Lists.WholePrefix(cards, n + 1);
    }
  }

  /** The rows of one more card: those of the cards before it and its own. */
  lemma NewRowsSnoc(cards: seq<TrelloCard>, i: nat)
    requires i < |cards|
    ensures NewRows(cards[..i + 1]) == NewRows(cards[..i]) + Step(cards[i])
  {
    assert cards[..i + 1][..i] == cards[..i];
  }

  /**
   * The loop of `sync_to_excel`: each accepted card is written to the row after
   * the last one, seven cells per row; `added` counts the rows written.
   */
  method SyncToExcel(ws: Worksheet, cards: seq<TrelloCard>) returns (added: nat)
    requires ws.Valid()
    modifies ws
    ensures ws.Valid()
    ensures added == |NewRows(cards)| && ws.maxRow == old(ws.maxRow) + added
    ensures ws.cells == old(ws.cells) + Rows(old(ws.maxRow) + 1, NewRows(cards))
  {
    added := 0;
    var i := 0;
    ghost var base := ws.cells;
    ghost var first := ws.maxRow + 1;
    assert Rows(first, NewRows(cards[..0])) == map[];
    while i < |cards|
      invariant 0 <= i <= |cards|
      invariant ws.Valid()
      invariant ws.cells == base + Rows(first, NewRows(cards[..i]))
      invariant ws.maxRow == first - 1 + |NewRows(cards[..i])| && added == |NewRows(cards[..i])|
    {
      var n := AppendCard(ws, cards[i], base, first, NewRows(cards[..i]));
      NewRowsSnoc(cards, i);
      added := added + n;
      i := i + 1;
    }
    Lists.WholePrefix(cards, i);
  }

  /** One pass of the loop: the card's row, if it is accepted, goes to `next_row`, the row after the last. */
  method AppendCard(ws: Worksheet, card: TrelloCard, ghost base: map<Key, Cell>, ghost first: nat,
                    ghost rows: seq<map<nat, Cell>>) returns (n: nat)
    requires ws.Valid() && first >= 1 && ws.maxRow == first - 1 + |rows|
    requires ws.cells == base + Rows(first, rows)
    modifies ws
    ensures ws.Valid() && n == |Step(card)| && ws.maxRow == old(ws.maxRow) + n
    ensures ws.cells == base + Rows(first, rows + Step(card))
  {
    n := 0;
    if card.desc != [] {
      var data := ParseCardDescription(card.desc);
      if data.address != [] {
        WriteRow(ws, ws.maxRow + 1, data, DetermineStatus(card.listName));
        RowsSnoc(base, first, rows, RowFor(card));
        n := 1;
        return;
      }
    }
    assert rows + Step(card) == rows;
  }

  /** The seven `ws.cell(next_row, …)` assignments for one card, on the row after the last. */
  method WriteRow(ws: Worksheet, row: nat, data: CardData, status: String)
    requires ws.Valid() && row == ws.maxRow + 1
    modifies ws
    ensures ws.Valid() && ws.maxRow == row
    ensures ws.cells == old(ws.cells) + InRow(row, CardRow(data, status))
  {
    ghost var before := ws.cells;
    ghost var w: map<nat, Cell> := map[];
    assert before + InRow(row, w) == before;
    w := ws.PutWhen(true, row, ColAddress, FromString(data.address), before, w);
    w := ws.PutWhen(true, row, ColStartDate, FromString(data.startDate), before, w);
    w := ws.PutWhen(true, row, ColClient, FromString(data.client), before, w);
    w := ws.PutWhen(true, row, ColContractor, FromString(data.contractor), before, w);
    w := ws.PutWhen(true, row, ColStatus, FromString(status), before, w);
    w := ws.PutWhen(true, row, ColNote, FromString(data.note), before, w);
    w := ws.PutWhen(true, row, ColDescription, FromString(data.fullDescription), before, w);
    assert w == CardRow(data, status);
  }
}
