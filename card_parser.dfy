/**
 * The card parser of the kanban-to-spreadsheet sync (the `TrelloParser` of
 * arhive/sync_trello_severen.py): work number, main and transit addresses,
 * "Label: value" description fields, client, work type and status of a card.
 */
module CardParser {
  import opened Wrappers
  import opened Text
  import opened Scan
  import opened Lists
  import Transits

  // ---------------------------------------------------------------- work number

  /** `Задание\s*[№#]?\s*(\d+)` at `p`, ignoring case. */
  function TaskNoAt(s: String, p: nat): (r: Option<Span>)
    ensures r.Some? ==> WholeNumber(s, r.value) && p < r.value.lo
  {
    if LitCI(s, p, "Задание") then
      var i1 := RunEnd(s, p + 7, IsSpace);
      var i2 := if i1 < |s| && (s[i1] == '№' || s[i1] == '#') then i1 + 1 else i1;
      var i3 := RunEnd(s, i2, IsSpace);
      var i4 := RunEnd(s, i3, IsDigit);
      assert !IsDigit(s[p + 6]) by {
        LitCILastDigit(s, p, "Задание");
      }
      if i4 > i3 then Some(Span(i3, i4)) else None
    else None
  }

  /** `Номер\s+работы[:\s]*(\d+)` at `p`, ignoring case. */
  function WorkNoAt(s: String, p: nat): (r: Option<Span>)
    ensures r.Some? ==> WholeNumber(s, r.value) && p < r.value.lo
  {
    if LitCI(s, p, "Номер") then
      var i1 := RunEnd(s, p + 5, IsSpace);
      if i1 > p + 5 && LitCI(s, i1, "работы") then
        var i2 := RunEnd(s, i1 + 6, IsColonOrSpace);
        var i3 := RunEnd(s, i2, IsDigit);
        assert !IsDigit(s[i1 + 5]) by {
          LitCILastDigit(s, i1, "работы");
        }
        if i3 > i2 then Some(Span(i2, i3)) else None
      else None
    else None
  }

  /** `№\s*(\d+)` at `p`. */
  function NumberSignAt(s: String, p: nat): (r: Option<Span>)
    ensures r.Some? ==> WholeNumber(s, r.value) && p < r.value.lo
  {
    if p < |s| && s[p] == '№' then
      var i1 := RunEnd(s, p + 1, IsSpace);
      var i2 := RunEnd(s, i1, IsDigit);
      if i2 > i1 then Some(Span(i1, i2)) else None
    else None
  }

  /** `\b(\d{5,6})\b` at `p`: six digits are tried before five. */
  function BareNumberAt(s: String, p: nat): (r: Option<Span>)
    ensures r.Some? ==> WholeNumber(s, r.value) && 5 <= r.value.hi - r.value.lo <= 6
  {
    if !Boundary(s, p) then None
    else if DigitsAt(s, p, 6) && Boundary(s, p + 6) then Some(Span(p, p + 6))
    else if DigitsAt(s, p, 5) && Boundary(s, p + 5) then Some(Span(p, p + 5))
    else None
  }

  /** Pattern `k` of `_extract_work_number`, in the order they are tried, at position `p`. */
  function PatternAt(k: nat, s: String, p: nat): (r: Option<Span>)
    ensures r.Some? ==> WholeNumber(s, r.value)
  {
    if k == 0 then TaskNoAt(s, p)
    else if k == 1 then WorkNoAt(s, p)
    else if k == 2 then NumberSignAt(s, p)
    else BareNumberAt(s, p)
  }

  /** `re.search` with pattern `k`: its leftmost match in the title, if any. */
  function PatternSearch(s: String, k: nat): Option<Hit<Span>> {
    Search(s, p => PatternAt(k, s, p))
  }

  /**
   * The capture of the first pattern, from pattern `k` on, that occurs anywhere
   * in the title: none exactly when no pattern from `k` on occurs, and
   * otherwise the leftmost match of the lowest such pattern.
   */
  function FirstPatternFrom(s: String, k: nat): (r: Option<Span>)
    ensures r.Some? ==> WholeNumber(s, r.value)
    ensures r.None? <==> forall j :: k <= j < 4 ==> PatternSearch(s, j).None?
    ensures r.Some? ==> exists j :: (k <= j < 4 && PatternSearch(s, j).Some? && r.value == PatternSearch(s, j).value.val
      && forall i :: k <= i < j ==> PatternSearch(s, i).None?)
    decreases 4 - k
  {
    if k >= 4 then None
    else
      match PatternSearch(s, k)
      case Some(h) =>
        assert PatternAt(k, s, h.pos) == Some(h.val);
        Some(h.val)
      case None => FirstPatternFrom(s, k + 1)
  }

  /** The capture of the first of the four patterns that occurs anywhere in the title. */
  function WorkNumberSpan(s: String): (r: Option<Span>)
    ensures r.Some? ==> WholeNumber(s, r.value)
  {
    FirstPatternFrom(s, 0)
  }

  /** `_extract_work_number`: a whole number written in the title, or "" when no pattern matches. */
  function ExtractWorkNumber(s: String): (r: String)
    ensures r != [] ==> AllDigits(r) && exists sp :: WholeNumber(s, sp) && r == Slice(s, sp)
  {
    match WorkNumberSpan(s)
    case None => []
    case Some(sp) => Slice(s, sp)
  }

  /**
   * The patterns are tried in their fixed order and the first that occurs
   * wins: the work number is "" exactly when none occurs, and otherwise the
   * text captured by the leftmost match of the first pattern that occurs.
   */
  lemma ExtractWorkNumberFirst(s: String)
    ensures ExtractWorkNumber(s) == [] <==> forall j :: 0 <= j < 4 ==> PatternSearch(s, j).None?
    ensures ExtractWorkNumber(s) != [] ==> exists j :: (0 <= j < 4 && PatternSearch(s, j).Some?
      && ExtractWorkNumber(s) == Slice(s, PatternSearch(s, j).value.val)
      && forall i :: 0 <= i < j ==> PatternSearch(s, i).None?)
  {
    match FirstPatternFrom(s, 0)
    case None =>
    case Some(sp) =>
      assert |Slice(s, sp)| > 0;
  }

  // ---------------------------------------------------------------- addresses

  /** The marker that opens the transit list. */
  const TransitMarker: String := "Транзитные адреса"

  /**
   * `Транзитные адреса[:\s]+(.+?)(?:\.|$)` at `p`, ignoring case, `.` matching
   * newlines. The greedy `[:\s]+` gives back characters until `.+?` has one to
   * take; the lazy capture then stops at the first full stop or at `$`.
   */
  function TransitAt(s: String, p: nat): (r: Option<Span>)
    ensures r.Some? ==> p + |TransitMarker| < r.value.lo < r.value.hi <= |s|
    ensures r.Some? ==> forall q :: r.value.lo < q < r.value.hi ==> s[q] != '.'
  {
    if LitCI(s, p, TransitMarker) then
      var j := RunEnd(s, p + |TransitMarker|, IsColonOrSpace);
      Backtrack(p + |TransitMarker| + 1, j,
        (k: nat) => if k < |s| then Some(Span(k, LazyEnd(s, k + 1))) else None)
    else None
  }

  /** `\.\s*(Задание|Номер работы|№)[:\s]*\d+.*$` at `q`, ignoring case: the end of the match. */
  function TaskSuffixAt(s: String, q: nat): (r: Option<nat>)
    ensures r.Some? ==> q < r.value <= |s| && EndAt(s, r.value)
  {
    if q < |s| && s[q] == '.' then
      var i1 := RunEnd(s, q + 1, IsSpace);
      var k :=
        if LitCI(s, i1, "Задание") then Some(i1 + 7)
        else if LitCI(s, i1, "Номер работы") then Some(i1 + 12)
        else if Lit(s, i1, "№") then Some(i1 + 1)
        else None;
      match k
      case None => None
      case Some(k) =>
        var i2 := RunEnd(s, k, IsColonOrSpace);
        var i3 := RunEnd(s, i2, IsDigit);
        var e := LineEnd(s, i3);
        if i3 > i2 && EndAt(s, e) then Some(e) else None
    else None
  }

  /**
   * The `re.sub` that deletes a trailing ". Задание N…" suffix. The match runs
   * to `$`, so at most one replacement happens: what follows it is at most the
   * final newline, which holds no '.'.
   */
  function RemoveTaskSuffix(s: String): (r: String)
    ensures |r| <= |s|
  {
    match Search(s, q => TaskSuffixAt(s, q))
    case None => s
    case Some(h) => s[..h.pos] + s[h.val..]
  }

  /** The text cut before a task suffix is the text up to its first matching full stop. */
  lemma RemoveTaskSuffixShape(s: String)
    ensures RemoveTaskSuffix(s) == s || exists q :: 0 <= q < |s| && s[q] == '.' && RemoveTaskSuffix(s) in {s[..q], s[..q] + "\n"}
  {
    match Search(s, q => TaskSuffixAt(s, q))
    case None =>
    case Some(h) =>
      var e := h.val;
      assert TaskSuffixAt(s, h.pos) == Some(e);
      if e == |s| {
        assert RemoveTaskSuffix(s) == s[..h.pos];
      } else {
        assert s[e..] == "\n";
      }
  }

  /** `.strip('. ')`. */
  const AddressTrim: set<char> := {'.', ' '}

  /** `re.search` with the transit pattern: its leftmost match in the title, if any. */
  function TransitSearch(s: String): Option<Hit<Span>> {
    Search(s, p => TransitAt(s, p))
  }

  /**
   * `_parse_address`: the main address and the transit list of a card title.
   * With a transit match, the transits are the comma pieces of its capture and
   * the main address is the text before the match; otherwise there are no
   * transits and the main address comes from the whole title. Either way the
   * task suffix is cut and '.' and ' ' are stripped from the address.
   */
  function ParseAddress(s: String): (r: (String, seq<String>))
    ensures r.0 == [] || (r.0[0] !in AddressTrim && r.0[|r.0| - 1] !in AddressTrim)
    ensures forall k :: 0 <= k < |r.1| ==> r.1[k] != [] && Stripped(r.1[k]) && Free(r.1[k], ',')
    ensures TransitSearch(s).None? ==> r == (StripChars(RemoveTaskSuffix(s), AddressTrim), [])
    ensures TransitSearch(s).Some? ==> var h := TransitSearch(s).value;
      h.val.lo <= h.val.hi <= |s| && h.pos <= |s|
      && r.1 == CommaList(Strip(Slice(s, h.val)))
      && r.0 == StripChars(RemoveTaskSuffix(Strip(s[..h.pos])), AddressTrim)
  {
    match TransitSearch(s)
    case None => (StripChars(RemoveTaskSuffix(s), AddressTrim), [])
    case Some(h) =>
      assert TransitAt(s, h.pos) == Some(h.val);
      var capture := Slice(s, h.val);
      var transits := CommaList(Strip(capture));
      CommaListItems(Strip(capture));
      (StripChars(RemoveTaskSuffix(Strip(s[..h.pos])), AddressTrim), transits)
  }

  /** The marker holds no full stop and does not start with whitespace. */
  lemma TransitMarkerChars()
    ensures TransitMarker != [] && Free(TransitMarker, '.') && !IsSpace(TransitMarker[0])
  {
  }

  /** The transit pattern, at a marker followed by ": " and a list with a closing full stop, captures the list. */
  lemma TransitAtWritten(pre: String, t: String)
    requires t != [] && !IsColonOrSpace(t[0]) && Free(t, '.')
    ensures var s := pre + (TransitMarker + ": " + t + ".");
      TransitAt(s, |pre|) == Some(Span(|pre| + |TransitMarker| + 2, |s| - 1))
  {
    var rest := TransitMarker + ": " + t + ".";
    var s := pre + rest;
    var e := |pre| + |TransitMarker|;
    assert s[|pre|..e] == TransitMarker;
    assert s[e] == ':' && s[e + 1] == ' ' && s[e + 2] == t[0];
    var j := RunEnd(s, e, IsColonOrSpace);
    assert j == e + 2;
    var k := LazyEnd(s, j + 1);
    assert s[|s| - 1] == '.';
    forall q | j + 1 <= q < |s| - 1
      ensures s[q] != '.' && !EndAt(s, q)
    {
      assert s[q] == t[q - (e + 2)];
    }
    assert k == |s| - 1;
  }

  /** A title with no '.' before a final full stop has no task suffix to cut. */
  lemma NoTaskSuffix(a: String)
    requires Free(a, '.')
    ensures RemoveTaskSuffix(a + ".") == a + "."
  {
    var x := a + ".";
    forall q | 0 <= q <= |x|
      ensures TaskSuffixAt(x, q).None?
    {
      if q < |a| {
        assert x[q] == a[q];
      }
    }
    assert Search(x, q => TaskSuffixAt(x, q)).None?;
  }

  /** A stripped address free of '.', written with ". " after it, comes back from the address clean-up. */
  lemma AddressCleanUp(a: String)
    requires Stripped(a) && Free(a, '.')
    ensures StripChars(RemoveTaskSuffix(Strip(a + ". ")), AddressTrim) == a
  {
    StripStop(a);
    NoTaskSuffix(a);
    if a != [] {
      assert (a + ".")[0] == a[0] && a[0] !in AddressTrim;
      assert TrimStart(a + ".", AddressTrim) == a + ".";
      assert (a + ".")[..|a|] == a;
      assert a[|a| - 1] !in AddressTrim;
      assert TrimEnd(a + ".", AddressTrim) == TrimEnd(a, AddressTrim) == a;
    } else {
      assert "."[1..] == [];
      assert TrimStart(".", AddressTrim) == TrimStart([], AddressTrim);
    }
  }

  /** Behind an address free of '.' and of the marker, the leftmost transit match is the written one. */
  lemma TransitSearchWritten(a: String, t: String)
    requires Free(a, '.') && !Contains(Lower(a), Lower(TransitMarker))
    requires t != [] && !IsColonOrSpace(t[0]) && Free(t, '.')
    ensures var s := a + ". " + (TransitMarker + ": " + t + ".");
      TransitSearch(s) == Some(Hit(|a| + 2, Span(|a| + 2 + |TransitMarker| + 2, |s| - 1)))
  {
    var rest := TransitMarker + ": " + t + ".";
    var s := a + ". " + rest;
    TransitAtWritten(a + ". ", t);
    TransitMarkerChars();
    NoMatchBeforeStop(a, rest, TransitMarker);
    SearchFinds(s, p => TransitAt(s, p), |a| + 2, Span(|a| + 2 + |TransitMarker| + 2, |s| - 1));
  }

  /**
   * A stripped main address without '.' or the marker, followed by
   * ". Транзитные адреса: ", a stripped list text without '.' and a final
   * full stop, parses to that address and the comma pieces of the list text.
   */
  lemma ParseAddressWritten(a: String, t: String)
    requires Stripped(a) && Free(a, '.') && !Contains(Lower(a), Lower(TransitMarker))
    requires t != [] && !IsColonOrSpace(t[0]) && Free(t, '.') && Stripped(t)
    ensures ParseAddress(a + ". " + (TransitMarker + ": " + t + ".")) == (a, CommaList(t))
  {
    var rest := TransitMarker + ": " + t + ".";
    var s := a + ". " + rest;
    TransitSearchWritten(a, t);
    var h := TransitSearch(s).value;
    assert Slice(s, h.val) == t by {
      assert s[|a| + 2 + |TransitMarker| + 2..|s| - 1] == rest[|TransitMarker| + 2..|rest| - 1];
    }
    StripStripped(t);
    assert s[..|a| + 2] == a + ". ";
    AddressCleanUp(a);
  }

  /**
   * A stripped main address without '.' or the marker, followed by
   * ". Транзитные адреса: ", a list written out with `", ".join` and a final
   * full stop, parses back to that address and that list.
   */
  lemma ParseAddressRoundTrip(a: String, items: seq<String>)
    requires Stripped(a) && Free(a, '.') && !Contains(Lower(a), Lower(TransitMarker))
    requires items != [] && ListItems(items) && items[0][0] != ':' && Free(Join(items, ", "), '.')
    ensures ParseAddress(a + ". " + (TransitMarker + ": " + Join(items, ", ") + ".")) == (a, items)
  {
    var t := Join(items, ", ");
    Transits.JoinEnds(items, ", ");
    Transits.JoinStripped(items);
    ParseAddressWritten(a, t);
    CommaListJoin(items);
  }

  // ---------------------------------------------------------------- description fields

  /** The field names read from a description, in the order they are looked for. */
  const FieldNames: seq<String> := ["Начало работ", "Подрядчик", "Заказчик", "Исполнитель", "Ответственный"]

  /**
   * `Name[:\s]+([^\n]+)` at `p`, ignoring case. When the greedy `[:\s]+` has
   * swallowed the line break, it gives characters back until the capture can
   * start on a character that is not a newline.
   */
  function FieldAt(s: String, name: String, p: nat): (r: Option<Span>)
    ensures r.Some? ==> p + |name| < r.value.lo < r.value.hi <= |s|
    ensures r.Some? ==> forall q :: r.value.lo <= q < r.value.hi ==> s[q] != '\n'
    ensures r.Some? ==> r.value.hi == |s| || s[r.value.hi] == '\n'
  {
    if LitCI(s, p, name) then
      var j := RunEnd(s, p + |name|, IsColonOrSpace);
      Backtrack(p + |name| + 1, j,
        (t: nat) => if t < |s| && s[t] != '\n' then Some(Span(t, LineEnd(s, t))) else None)
    else None
  }

  /** The text the pattern of field `name` captures: the first match's rest of the line. */
  function FieldCapture(s: String, name: String): (r: Option<String>)
    ensures r.Some? ==> r.value != [] && Free(r.value, '\n')
    ensures r.None? <==> Search(s, p => FieldAt(s, name, p)).None?
  {
    match Search(s, p => FieldAt(s, name, p))
    case None => None
    case Some(h) =>
      assert FieldAt(s, name, h.pos) == Some(h.val);
      Some(Slice(s, h.val))
  }

  /** The value of one field, if its pattern matches: the captured rest of the line, stripped. */
  function FieldValue(s: String, name: String): (r: Option<String>)
    ensures r.Some? ==> Stripped(r.value) && Free(r.value, '\n')
    ensures r.None? <==> FieldCapture(s, name).None?
  {
    match FieldCapture(s, name)
    case None => None
    case Some(v) =>
      StripFree(v, '\n');
      Some(Strip(v))
  }

  /** `_parse_description_fields`: the fields whose pattern matches, with their values. */
  function ParseDescriptionFields(d: String): (fields: map<String, String>)
    ensures forall n :: n in fields <==> n in FieldNames && FieldValue(d, n).Some?
    ensures forall n :: n in fields ==> fields[n] == FieldValue(d, n).value
  {
    map n | n in FieldNames && FieldValue(d, n).Some? :: FieldValue(d, n).value
  }

  // ---------------------------------------------------------------- client and work type

  /** The client names a label is checked against. */
  const KnownClients: seq<String> :=
    ["ЭТАЛОН", "Ростелеком", "СТОЛОТО", "Сервис-Недвижимость", "Юнит Сервис", "ПАО \"Ростелеком\"", "Сервис Недвижимость"]

  /** The label names a known client, ignoring case. */
  predicate NamesClient(tag: String) {
    exists c :: c in KnownClients && Contains(Lower(tag), Lower(c))
  }

  /** Every known client name is non-empty, so a label naming one is non-empty. */
  lemma NamingLabelNonEmpty(tag: String)
    requires NamesClient(tag)
    ensures tag != []
  {
    var c :| c in KnownClients && Contains(Lower(tag), Lower(c));
    var i := IndexOf(Lower(tag), Lower(c)).value;
    assert |Lower(c)| > 0;
  }

  /** `_extract_client`: the first label, in label order, that names a known client, or "". */
  function ExtractClient(labels: seq<String>): (r: String)
    ensures r != [] ==> exists i :: (0 <= i < |labels| && labels[i] == r && NamesClient(r)
      && (forall j :: 0 <= j < i ==> !NamesClient(labels[j])))
    ensures r == [] ==> forall i :: 0 <= i < |labels| ==> !NamesClient(labels[i])
  {
    var i := FirstIndex(labels, NamesClient);
    if i < |labels| then
      NamingLabelNonEmpty(labels[i]);
      labels[i]
    else []
  }

  /** The work types of the reference sheet, in the order they are tried, with their keywords. */
  const WorkTypes: seq<(String, seq<String>)> := [
    ("1. Консультации по размещению кабелей ВОЛС", ["консультац", "размещени", "проклад"]),
    ("2. Согласование работ по кабельной трассе с ЖКС/ГУПРЭП", ["жкс", "гупрэп", "жэс"]),
    ("3. Согласование работ по кабельной трассе с ТСЖ/УК", ["тсж", "управляющ", " ук "]),
    ("4. Согласование работ по кабельной трассе (транзитные/аварийные)", ["транзит", "аварий", "срочн", "vip"]),
    ("5. Содействие выполнению монтажных работ по фасадам зданий", ["фасад", "монтаж"]),
    ("6. Содействие в получении необходимого доступа в подвалы/чердаки", ["подвал", "чердак", "доступ"]),
    ("7. Содействие в получении необходимого доступа в ТЦ/БЦ", ["тц", "бц", "бизнес-центр", "торговый центр"])
  ]

  const DefaultWorkType: String := "1. Консультации по размещению кабелей ВОЛС"

  /** Some keyword of `keywords` occurs in `text`. */
  predicate AnyIn(keywords: seq<String>, text: String) {
    exists k :: 0 <= k < |keywords| && Contains(text, keywords[k])
  }

  /** The names of a work-type table. */
  function TypeNames(types: seq<(String, seq<String>)>): set<String> { set i | 0 <= i < |types| :: types[i].0 }

  /** The first work type, in table order, with a keyword in the (lower-cased) text. */
  function TypeFor(types: seq<(String, seq<String>)>, text: String): (r: Option<String>)
    ensures r.Some? ==> r.value in TypeNames(types)
    ensures r.None? <==> forall i :: 0 <= i < |types| ==> !AnyIn(types[i].1, text)
    ensures r.Some? ==> exists i :: (0 <= i < |types| && types[i].0 == r.value && AnyIn(types[i].1, text)
      && (forall j :: 0 <= j < i ==> !AnyIn(types[j].1, text)))
  {
    var i := FirstIndex(types, (t: (String, seq<String>)) => AnyIn(t.1, text));
    if i < |types| then Some(types[i].0) else None
  }

  /** The work type a label's keywords point to. */
  function LabelType(types: seq<(String, seq<String>)>, tag: String): Option<String> { TypeFor(types, Lower(tag)) }

  /** The work type named by the first label, in label order, that holds a keyword. */
  function TypeFromLabels(types: seq<(String, seq<String>)>, labels: seq<String>): (r: Option<String>)
    ensures r.Some? ==> r.value in TypeNames(types)
    ensures r.None? <==> forall i :: 0 <= i < |labels| ==> LabelType(types, labels[i]).None?
    ensures r.Some? ==> exists i :: (0 <= i < |labels| && LabelType(types, labels[i]) == r
      && (forall j :: 0 <= j < i ==> LabelType(types, labels[j]).None?))
  {
    var i := FirstIndex(labels, (l: String) => LabelType(types, l).Some?);
    if i < |labels| then LabelType(types, labels[i]) else None
  }

  /**
   * `_determine_work_type`: the type of the first label holding a keyword;
   * failing that, the first type with a keyword in the lower-cased
   * "name description"; failing that, type 1.
   */
  function DetermineWorkType(labels: seq<String>, description: String, name: String): (r: String)
    ensures r in TypeNames(WorkTypes)
    ensures TypeFromLabels(WorkTypes, labels).Some? ==> r == TypeFromLabels(WorkTypes, labels).value
    ensures TypeFromLabels(WorkTypes, labels).None? && TypeFor(WorkTypes, Lower(name + " " + description)).Some? ==>
      r == TypeFor(WorkTypes, Lower(name + " " + description)).value
    ensures TypeFromLabels(WorkTypes, labels).None? && TypeFor(WorkTypes, Lower(name + " " + description)).None? ==>
      r == DefaultWorkType
  {
    match TypeFromLabels(WorkTypes, labels)
    case Some(t) => t
    case None =>
      match TypeFor(WorkTypes, Lower(name + " " + description))
      case Some(t) => t
      case None =>
        assert WorkTypes[0].0 == DefaultWorkType;
        DefaultWorkType
  }

  // ---------------------------------------------------------------- the card

  /** A card as the board returns it. */
  datatype Card = Card(name: String, desc: String, idLabels: seq<String>, idList: String, closed: bool)

  /** What `parse_card` returns. */
  datatype CardData = CardData(
    workNumber: String,
    address: String,
    transits: seq<String>,
    startDate: String,
    workType: String,
    client: String,
    executor: String,
    status: String,
    isArchived: bool,
    description: String,
    rawName: String)

  /** `[labels_map.get(lid, '') for lid in label_ids if lid in labels_map]`. */
  function CardLabels(ids: seq<String>, labelsMap: map<String, String>): (r: seq<String>)
    ensures |r| <= |ids|
    ensures forall k :: 0 <= k < |r| ==> r[k] in labelsMap.Values
  {
    if ids == [] then []
    else (if ids[0] in labelsMap then [labelsMap[ids[0]]] else []) + CardLabels(ids[1..], labelsMap)
  }

  /** The status column: the list name, marked when the card is archived. */
  function CardStatus(listName: String, closed: bool): (r: String)
    ensures !closed ==> r == listName
    ensures closed && listName == [] ==> r == "[АРХИВ]"
    ensures closed && listName != [] ==> r == "[АРХИВ] " + listName
  {
    if closed then (if listName != [] then "[АРХИВ] " + listName else "[АРХИВ]") else listName
  }

  /** `fields.get('Подрядчик', fields.get('Исполнитель', ''))`. */
  function Executor(fields: map<String, String>): (r: String)
    ensures "Подрядчик" in fields ==> r == fields["Подрядчик"]
    ensures "Подрядчик" !in fields && "Исполнитель" in fields ==> r == fields["Исполнитель"]
    ensures "Подрядчик" !in fields && "Исполнитель" !in fields ==> r == []
  {
    if "Подрядчик" in fields then fields["Подрядчик"]
    else if "Исполнитель" in fields then fields["Исполнитель"]
    else []
  }

  /** The start date of a description: the "Начало работ" field, or "". */
  function StartDate(fields: map<String, String>): (r: String)
    ensures "Начало работ" in fields ==> r == fields["Начало работ"]
    ensures "Начало работ" !in fields ==> r == []
  {
    if "Начало работ" in fields then fields["Начало работ"] else []
  }

  /**
   * `parse_card`: every field of the result comes from its own parser, fed
   * with the card's title, description, labels resolved through the label map
   * and list name resolved through the list map.
   */
  function ParseCard(card: Card, labelsMap: map<String, String>, listsMap: map<String, String>): (d: CardData)
    ensures d.description == card.desc && d.rawName == card.name && d.isArchived == card.closed
    ensures d.workNumber == ExtractWorkNumber(card.name)
    ensures (d.address, d.transits) == ParseAddress(card.name)
    ensures d.startDate == StartDate(ParseDescriptionFields(card.desc))
    ensures d.workType == DetermineWorkType(CardLabels(card.idLabels, labelsMap), card.desc, card.name)
    ensures d.client == ExtractClient(CardLabels(card.idLabels, labelsMap))
    ensures d.executor == Executor(ParseDescriptionFields(card.desc))
    ensures d.status == CardStatus(if card.idList in listsMap then listsMap[card.idList] else [], card.closed)
  {
    var labels := CardLabels(card.idLabels, labelsMap);
    var fields := ParseDescriptionFields(card.desc);
    var listName := if card.idList in listsMap then listsMap[card.idList] else [];
    var (address, transits) := ParseAddress(card.name);
    CardData(
      ExtractWorkNumber(card.name),
      address,
      transits,
      StartDate(fields),
      DetermineWorkType(labels, card.desc, card.name),
      ExtractClient(labels),
      Executor(fields),
      CardStatus(listName, card.closed),
      card.closed,
      card.desc,
      card.name)
  }
}
