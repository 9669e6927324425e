/**
 * The card parser of the second kanban-to-spreadsheet sync (the `TrelloParser`
 * of files/sync_trello_severen.py): title number, main address and transits,
 * description fields with the "Расценки" override, date normalisation, the
 * checklist total and the three-tier price resolution.
 */
module SeverenParser {
  import opened Wrappers
  import opened Text
  import opened Scan
  import opened Lists
  import opened Dates
  import CardParser
  import Transits

  // ---------------------------------------------------------------- title number

  /** `Номер работы:\s*(\d+)` at `p`, ignoring case. */
  function LabelledNumberAt(s: String, p: nat): (r: Option<Span>)
    ensures r.Some? ==> WholeNumber(s, r.value) && p < r.value.lo
  {
    if LitCI(s, p, "Номер работы:") then
      var i1 := RunEnd(s, p + 13, IsSpace);
      var i2 := RunEnd(s, i1, IsDigit);
      assert !IsDigit(s[p + 12]) by {
        LitCILastDigit(s, p, "Номер работы:");
      }
      if i2 > i1 then Some(Span(i1, i2)) else None
    else None
  }

  /** `Задание\s*№?\s*(\d+)` at `p`, ignoring case. */
  function TaskNumberAt(s: String, p: nat): (r: Option<Span>)
    ensures r.Some? ==> WholeNumber(s, r.value) && p < r.value.lo
  {
    if LitCI(s, p, "Задание") then
      var i1 := RunEnd(s, p + 7, IsSpace);
      var i2 := if i1 < |s| && s[i1] == '№' then i1 + 1 else i1;
      var i3 := RunEnd(s, i2, IsSpace);
      var i4 := RunEnd(s, i3, IsDigit);
      if i4 > i3 then
        assert !IsDigit(s[i3 - 1]) by {
          if i3 > i2 {
            assert IsSpace(s[i3 - 1]);
          } else if i2 > i1 {
            assert s[i1] == '№';
          } else if i1 > p + 7 {
            assert IsSpace(s[i1 - 1]);
          } else {
            LitCILastDigit(s, p, "Задание");
          }
        }
        Some(Span(i3, i4))
      else None
    else None
  }

  /** `Задание:\s*(\d+)` at `p`, ignoring case. */
  function TaskColonAt(s: String, p: nat): (r: Option<Span>)
    ensures r.Some? ==> WholeNumber(s, r.value) && p < r.value.lo
  {
    if LitCI(s, p, "Задание:") then
      var i1 := RunEnd(s, p + 8, IsSpace);
      var i2 := RunEnd(s, i1, IsDigit);
      assert !IsDigit(s[p + 7]) by {
        LitCILastDigit(s, p, "Задание:");
      }
      if i2 > i1 then Some(Span(i1, i2)) else None
    else None
  }

  /** Title pattern `k`, in the order `parse_card_title` tries them, at position `p`. */
  function TitlePatternAt(k: nat, s: String, p: nat): (r: Option<Span>)
    ensures r.Some? ==> WholeNumber(s, r.value)
  {
    if k == 0 then LabelledNumberAt(s, p)
    else if k == 1 then TaskNumberAt(s, p)
    else if k == 2 then TaskColonAt(s, p)
    else CardParser.NumberSignAt(s, p)
  }

  /** `re.search` with title pattern `k`: its leftmost match in the title, if any. */
  function TitleSearch(s: String, k: nat): Option<Hit<Span>> {
    Search(s, p => TitlePatternAt(k, s, p))
  }

  /** Title pattern `k` occurs somewhere in the title. */
  predicate TitlePatternFound(s: String, k: nat) { TitleSearch(s, k).Some? }

  /**
   * The capture of the first title pattern, from pattern `k` on, that occurs
   * anywhere in the title: none exactly when no pattern from `k` on occurs,
   * and otherwise the leftmost match of the lowest such pattern.
   */
  function TitleNumberFrom(s: String, k: nat): (r: Option<Span>)
    ensures r.Some? ==> WholeNumber(s, r.value)
    ensures r.Some? ==> exists j :: (k <= j < 4 && TitlePatternFound(s, j) && r.value == TitleSearch(s, j).value.val
      && forall i :: k <= i < j ==> !TitlePatternFound(s, i))
    ensures r.None? ==> forall j :: k <= j < 4 ==> !TitlePatternFound(s, j)
    decreases 4 - k
  {
    if k >= 4 then None
    else
      match TitleSearch(s, k)
      case Some(h) =>
        assert TitlePatternAt(k, s, h.pos) == Some(h.val);
        Some(h.val)
      case None => TitleNumberFrom(s, k + 1)
  }

  /** The work number of a title: the digits of the first pattern that matches, or "". */
  function TitleNumber(s: String): (r: String)
    ensures r != [] ==> AllDigits(r) && exists sp :: WholeNumber(s, sp) && r == Slice(s, sp)
  {
    match TitleNumberFrom(s, 0)
    case None => []
    case Some(sp) => Slice(s, sp)
  }

  /** The title number is "" exactly when none of the four patterns occurs in the title. */
  lemma TitleNumberEmptyIff(s: String)
    ensures TitleNumber(s) == [] <==> forall j :: 0 <= j < 4 ==> !TitlePatternFound(s, j)
  {
    match TitleNumberFrom(s, 0)
    case None =>
    case Some(sp) =>
      assert WholeNumber(s, sp);
      assert |Slice(s, sp)| > 0;
  }

  /**
   * The patterns are tried in list order and the first that occurs wins: a
   * non-empty title number is the capture of the leftmost match of the first
   * pattern that occurs in the title.
   */
  lemma TitleNumberFirst(s: String)
    ensures TitleNumber(s) != [] ==> exists j :: (0 <= j < 4 && TitlePatternFound(s, j)
      && TitleNumber(s) == Slice(s, TitleSearch(s, j).value.val)
      && forall i :: 0 <= i < j ==> !TitlePatternFound(s, i))
  {
  }

  // ---------------------------------------------------------------- title transits

  /**
   * Where a lazy `.+?` that began before `e` may stop in front of `(?:\.|$)`,
   * `.` not matching a line break: the first full stop or `$`, or no stop when
   * a line break comes first.
   */
  function LazyLine(s: String, e: nat): (r: Option<nat>)
    requires e <= |s|
    ensures r.Some? ==> e <= r.value <= |s| && (r.value == |s| || s[r.value] == '.' || EndAt(s, r.value))
    ensures r.Some? ==> forall q :: e <= q < r.value ==> s[q] != '.' && s[q] != '\n'
    ensures r.None? ==> exists q :: e <= q < |s| && s[q] == '\n'
    decreases |s| - e
  {
    if e == |s| || s[e] == '.' || EndAt(s, e) then Some(e)
    else if s[e] == '\n' then None
    else LazyLine(s, e + 1)
  }

  const TransitLabel: String := "Транзитные адреса:"

  /**
   * `Транзитные адреса:\s*(.+?)(?:\.|$)` at `p`, ignoring case. The greedy `\s*`
   * gives back characters until the capture can start on a character that is
   * not a line break and reach a stop.
   */
  function TitleTransitAt(s: String, p: nat): (r: Option<Span>)
    ensures r.Some? ==> p + |TransitLabel| <= r.value.lo < r.value.hi <= |s|
    ensures r.Some? ==> forall q :: r.value.lo <= q < r.value.hi ==> s[q] != '\n'
    ensures r.Some? ==> forall q :: r.value.lo < q < r.value.hi ==> s[q] != '.'
  {
    if LitCI(s, p, TransitLabel) then
      var j := RunEnd(s, p + |TransitLabel|, IsSpace);
      Backtrack(p + |TransitLabel|, j,
        (t: nat) =>
          if t < |s| && s[t] != '\n' then
            match LazyLine(s, t + 1)
            case Some(e) => Some(Span(t, e))
            case None => None
          else None)
    else None
  }

  /** The text the transit pattern captures in a title, stripped; `None` when the pattern does not match. */
  function TransitCapture(s: String): (r: Option<String>)
    ensures r.None? <==> Search(s, p => TitleTransitAt(s, p)).None?
  {
    match Search(s, p => TitleTransitAt(s, p))
    case None => None
    case Some(h) =>
      assert TitleTransitAt(s, h.pos) == Some(h.val);
      Some(Strip(Slice(s, h.val)))
  }

  /** The transit list of a title: the capture split on ',', each piece stripped, empties dropped. */
  function TitleTransits(s: String): (r: seq<String>)
    ensures ListItems(r)
  {
    match TransitCapture(s)
    case None => []
    case Some(capture) =>
      CommaListItems(capture);
      CommaList(capture)
  }

  /** The transit label holds no full stop and does not start with whitespace. */
  lemma TransitLabelChars()
    ensures TransitLabel != [] && Free(TransitLabel, '.') && !IsSpace(TransitLabel[0])
  {
  }

  /** The transit pattern, at the label followed by a space and a list, captures the list. */
  lemma TitleTransitAtWritten(pre: String, t: String)
    requires t != [] && !IsSpace(t[0]) && Free(t, '.') && Free(t, '\n')
    ensures var s := pre + (TransitLabel + " " + t);
      TitleTransitAt(s, |pre|) == Some(Span(|pre| + |TransitLabel| + 1, |s|))
  {
    var rest := TransitLabel + " " + t;
    var s := pre + rest;
    var e := |pre| + |TransitLabel|;
    assert s[|pre|..e] == TransitLabel;
    assert s[e] == ' ' && s[e + 1] == t[0];
    var j := RunEnd(s, e, IsSpace);
    assert j == e + 1;
    forall q | j <= q < |s|
      ensures s[q] != '.' && s[q] != '\n'
    {
      assert s[q] == t[q - j];
    }
    assert LazyLine(s, j + 1) == Some(|s|);
  }

  /** Behind an address free of the label, the leftmost transit match is the written one. */
  lemma TitleTransitSearchWritten(a: String, t: String)
    requires !Contains(Lower(a), Lower(TransitLabel))
    requires t != [] && !IsSpace(t[0]) && Free(t, '.') && Free(t, '\n')
    ensures var s := a + ". " + (TransitLabel + " " + t);
      Search(s, p => TitleTransitAt(s, p)) == Some(Hit(|a| + 2, Span(|a| + 2 + |TransitLabel| + 1, |s|)))
  {
    var rest := TransitLabel + " " + t;
    var s := a + ". " + rest;
    TitleTransitAtWritten(a + ". ", t);
    TransitLabelChars();
    NoMatchBeforeStop(a, rest, TransitLabel);
    SearchFinds(s, p => TitleTransitAt(s, p), |a| + 2, Span(|a| + 2 + |TransitLabel| + 1, |s|));
  }

  /**
   * A title whose text before ". Транзитные адреса: " holds no such label,
   * followed by stripped text free of full stops and line breaks, yields
   * that text cut at its commas.
   */
  lemma TitleTransitsWritten(a: String, t: String)
    requires !Contains(Lower(a), Lower(TransitLabel))
    requires t != [] && !IsSpace(t[0]) && Free(t, '.') && Free(t, '\n') && Stripped(t)
    ensures TitleTransits(a + ". " + (TransitLabel + " " + t)) == CommaList(t)
  {
    var rest := TransitLabel + " " + t;
    var s := a + ". " + rest;
    TitleTransitSearchWritten(a, t);
    assert s[|a| + 2 + |TransitLabel| + 1..|s|] == t;
    StripStripped(t);
    assert TransitCapture(s) == Some(t);
  }

  /**
   * A title whose text before ". Транзитные адреса: " holds no such label,
   * followed by a list written out with `", ".join` and holding no full stop
   * or line break, gives back that list.
   */
  lemma TitleTransitsRoundTrip(a: String, items: seq<String>)
    requires !Contains(Lower(a), Lower(TransitLabel))
    requires items != [] && ListItems(items) && Free(Join(items, ", "), '.') && Free(Join(items, ", "), '\n')
    ensures TitleTransits(a + ". " + (TransitLabel + " " + Join(items, ", "))) == items
  {
    Transits.JoinEnds(items, ", ");
    Transits.JoinStripped(items);
    TitleTransitsWritten(a, Join(items, ", "));
    CommaListJoin(items);
  }

  // ---------------------------------------------------------------- main address

  /** The separators the main address is cut at, in the order they are tried (case-sensitive). */
  const AddressSeparators: seq<String> := ["Задание", "Номер работы", "Транзитные адреса"]

  /** `.rstrip('.,;: ')`. */
  const AddressTail: set<char> := {'.', ',', ';', ':', ' '}

  /** The index of the first separator, in list order, that occurs in the title; the number of separators when none does. */
  function CutIndex(title: String): (k: nat)
    ensures k <= |AddressSeparators|
    ensures k < |AddressSeparators| ==> Contains(title, AddressSeparators[k])
    ensures forall j :: 0 <= j < k ==> !Contains(title, AddressSeparators[j])
  {
    FirstIndex(AddressSeparators, (sep: String) => Contains(title, sep))
  }

  /** The text before the first separator, in list order, that occurs in the title, stripped; the title itself when none occurs. */
  function AddressBase(title: String): String
  {
    var k := CutIndex(title);
    if k < |AddressSeparators| then Strip(Split(title, AddressSeparators[k])[0]) else title
  }

  /**
   * The main address of a title: the text before the first occurrence of the
   * first separator, in list order, that occurs in the title, stripped; the
   * whole title when none occurs; either way right-stripped of `.,;: `.
   */
  function MainAddress(title: String): (r: String)
    ensures r == [] || r[|r| - 1] !in AddressTail
    ensures Contains(title, r)
    ensures CutIndex(title) == |AddressSeparators| ==> r == TrimEnd(title, AddressTail)
    ensures CutIndex(title) < |AddressSeparators| ==>
      r == TrimEnd(Strip(title[..IndexOf(title, AddressSeparators[CutIndex(title)]).value]), AddressTail)
  {
    var base := AddressBase(title);
    var r := TrimEnd(base, AddressTail);
    assert Contains(title, base) by {
      var k := CutIndex(title);
      if k < |AddressSeparators| {
        var sep := AddressSeparators[k];
        var i := IndexOf(title, sep).value;
        assert Split(title, sep)[0] == title[..i];
        StripIsStripped(title[..i]);
        ContainsSlice(title, 0, i);
        ContainsTrans(title, title[..i], base);
      } else {
        ContainsSlice(title, 0, |title|);
        assert title[0..|title|] == title;
      }
    }
    ContainsSlice(base, 0, |r|);
    assert base[0..|r|] == r;
    ContainsTrans(title, base, r);
    assert CutIndex(title) < |AddressSeparators| ==>
      base == Strip(title[..IndexOf(title, AddressSeparators[CutIndex(title)]).value]) by {
      if CutIndex(title) < |AddressSeparators| {
        SplitHead(title, AddressSeparators[CutIndex(title)]);
      }
    }
    r
  }

  /**
   * A stripped address that does not hold "Задание" and does not end in one
   * of `.,;: `, written as "<address>. Задание …", is the title's main address.
   */
  lemma MainAddressRoundTrip(a: String, rest: String)
    requires Stripped(a) && !Contains(a, AddressSeparators[0]) && (a == [] || a[|a| - 1] !in AddressTail)
    ensures MainAddress(a + ". " + (AddressSeparators[0] + rest)) == a
  {
    var title := a + ". " + (AddressSeparators[0] + rest);
    FirstAfterStop(a, AddressSeparators[0], rest);
    assert CutIndex(title) == 0;
    assert title[..|a| + 2] == a + ". ";
    StripStop(a);
    if a != [] {
      assert (a + ".")[..|a|] == a;
      assert TrimEnd(a + ".", AddressTail) == TrimEnd(a, AddressTail) == a;
    } else {
      assert "."[..0] == [];
    }
  }

  /** The text before the first `sep`, stripped and right-stripped of the tail characters, holds no `sep`. */
  lemma CutFree(title: String, sep: String)
    requires |sep| > 0 && Contains(title, sep)
    ensures !Contains(TrimEnd(Strip(Split(title, sep)[0]), AddressTail), sep)
  {
    var i := IndexOf(title, sep).value;
    var pre := title[..i];
    assert Split(title, sep)[0] == pre;
    var base := Strip(pre);
    var r := TrimEnd(base, AddressTail);
    StripIsStripped(pre);
    ContainsSlice(base, 0, |r|);
    assert base[0..|r|] == r;
    ContainsTrans(pre, base, r);
    BeforeFirstFree(title, sep);
    ContainsTrans(pre, r, sep);
  }

  /** The address never holds the separator it was cut at. */
  lemma MainAddressBeforeSeparator(title: String)
    ensures CutIndex(title) < |AddressSeparators| ==> !Contains(MainAddress(title), AddressSeparators[CutIndex(title)])
  {
    var k := CutIndex(title);
    if k < |AddressSeparators| {
      var sep := AddressSeparators[k];
      assert Contains(title, sep) && |sep| > 0;
      CutFree(title, sep);
    }
  }

  /** `parse_card_title`: (main address, work number, transit addresses). */
  function ParseCardTitle(title: String): (r: (String, String, seq<String>))
    ensures Contains(title, r.0) && (r.0 == [] || r.0[|r.0| - 1] !in AddressTail)
    ensures r.1 != [] ==> AllDigits(r.1)
    ensures ListItems(r.2)
  {
    (MainAddress(title), TitleNumber(title), TitleTransits(title))
  }

  // ---------------------------------------------------------------- description fields

  /** The entries `parse_description` can put in its result. */
  datatype Field = Start | Contractor | Customer | Todo | Responsible | UkContract | Total | Pricing

  /** The key of the entry in the source's dictionary. */
  function Key(f: Field): String
  {
    match f
    case Start => "начало_работ"
    case Contractor => "подрядчик"
    case Customer => "заказчик"
    case Todo => "что_делать"
    case Responsible => "ответственный"
    case UkContract => "договор_ук"
    case Total => "итого"
    case Pricing => "расценки_текст"
  }

  /** The fields read by a pattern of their own, in the order they are looked for. */
  const PatternFields: seq<Field> := [Start, Contractor, Customer, Todo, Responsible, UkContract, Total]

  /** The continuation after a `\s*` that ends before `t`: a greedy `(.+)` that may not cross a line break. */
  function RestOfLine(s: String, t: nat): (r: Option<Span>)
    ensures r.Some? ==> r.value.lo == t < r.value.hi <= |s|
  {
    if t < |s| && s[t] != '\n' then Some(Span(t, LineEnd(s, t))) else None
  }

  /** `Label\s*(.+)` at `p`, ignoring case, where `label` ends with its colon. */
  function LineFieldAt(s: String, lit: String, p: nat): (r: Option<Span>)
    ensures r.Some? ==> r.value.lo < r.value.hi <= |s|
  {
    if LitCI(s, p, lit) then
      Backtrack(p + |lit|, RunEnd(s, p + |lit|, IsSpace), t => RestOfLine(s, t))
    else None
  }

  /** `Ответственный[^:]*:\s*(.+)` at `p`, ignoring case: the name runs to the first colon after it. */
  function ResponsibleAt(s: String, p: nat): (r: Option<Span>)
    ensures r.Some? ==> r.value.lo < r.value.hi <= |s|
  {
    if LitCI(s, p, "Ответственный") then
      match IndexFrom(s, ":", p + 13)
      case None => None
      case Some(c) => Backtrack(c + 1, RunEnd(s, c + 1, IsSpace), t => RestOfLine(s, t))
    else None
  }

  /** Where the lazy capture of `(.+?)(?:руб|$)` stops, `$` taken as MULTILINE: "руб" in any case, a line break, or the end. */
  function RubEnd(s: String, e: nat): (k: nat)
    requires e <= |s|
    ensures e <= k <= |s|
    ensures forall q :: e <= q < k ==> s[q] != '\n'
    decreases |s| - e
  {
    if e == |s| || s[e] == '\n' || LitCI(s, e, "руб") then e else RubEnd(s, e + 1)
  }

  /** `ИТОГО:\s*(.+?)(?:руб|$)` at `p`, ignoring case, MULTILINE. */
  function TotalFieldAt(s: String, p: nat): (r: Option<Span>)
    ensures r.Some? ==> r.value.lo < r.value.hi <= |s|
  {
    if LitCI(s, p, "ИТОГО:") then
      Backtrack(p + 6, RunEnd(s, p + 6, IsSpace),
        (t: nat) => if t < |s| && s[t] != '\n' then Some(Span(t, RubEnd(s, t + 1))) else None)
    else None
  }

  /** The pattern of field `f` at position `p`; the "Расценки" block has a pattern of its own. */
  function FieldPatternAt(f: Field, s: String, p: nat): (r: Option<Span>)
    ensures r.Some? ==> r.value.lo < r.value.hi <= |s|
  {
    match f
    case Start => LineFieldAt(s, "Начало работ:", p)
    case Contractor => LineFieldAt(s, "Подрядчик:", p)
    case Customer => LineFieldAt(s, "Заказчик:", p)
    case Todo => LineFieldAt(s, "Что нужно сделать:", p)
    case Responsible => ResponsibleAt(s, p)
    case UkContract => LineFieldAt(s, "Нужен ли договор с УК:", p)
    case Total => TotalFieldAt(s, p)
    case Pricing => None
  }

  /** `value.strip().split('\n')[0].strip()`. */
  function FirstLine(v: String): (r: String)
    ensures Stripped(r) && Free(r, '\n')
  {
    var line := Split(Strip(v), "\n")[0];
    SplitHeadFree(Strip(v), '\n');
    StripIsStripped(line);
    StripFree(line, '\n');
    Strip(line)
  }

  /** The value field `f` takes from the description, when its pattern matches. */
  function FieldValue(d: String, f: Field): (r: Option<String>)
    ensures r.Some? ==> Stripped(r.value) && Free(r.value, '\n')
  {
    match Search(d, p => FieldPatternAt(f, d, p))
    case None => None
    case Some(h) => Some(FirstLine(Slice(d, h.val)))
  }

  /** `Расценки:(.+?)(?=\n\n|\Z)` at `p`, ignoring case, DOTALL: the block runs to the first blank line or the end. */
  function PricingAt(s: String, p: nat): (r: Option<Span>)
    ensures r.Some? ==> r.value.lo < r.value.hi <= |s|
  {
    if LitCI(s, p, "Расценки:") && p + 9 < |s| then Some(Span(p + 9, BlankLineEnd(s, p + 10))) else None
  }

  /** The first position at or after `e` that starts "\n\n", or the end. */
  function BlankLineEnd(s: String, e: nat): (k: nat)
    requires e <= |s|
    ensures e <= k <= |s|
    decreases |s| - e
  {
    if e == |s| || OccursAt(s, "\n\n", e) then e else BlankLineEnd(s, e + 1)
  }

  /** The "Расценки" block of a description. */
  function PricingText(d: String): Option<String>
  {
    match Search(d, p => PricingAt(d, p))
    case None => None
    case Some(h) => Some(Slice(d, h.val))
  }

  /** `ИТОГО:\s*(\d+)` at `p`, case-sensitive. */
  function PricingTotalAt(t: String, p: nat): (r: Option<Span>)
    ensures r.Some? ==> WholeNumber(t, r.value)
  {
    if Lit(t, p, "ИТОГО:") then
      var i1 := RunEnd(t, p + 6, IsSpace);
      var i2 := RunEnd(t, i1, IsDigit);
      assert t[p + 5] == ':' by { assert t[p..p + 6] == "ИТОГО:"; }
      if i2 > i1 then Some(Span(i1, i2)) else None
    else None
  }

  /** The ИТОГО number of the "Расценки" block, when the block holds one. */
  function PricingTotal(d: String): (r: Option<String>)
    ensures r.Some? ==> r.value != [] && AllDigits(r.value)
  {
    match PricingText(d)
    case None => None
    case Some(t) =>
      match Search(t, p => PricingTotalAt(t, p))
      case None => None
      case Some(h) => Some(Slice(t, h.val))
  }

  /** The value of every field read by a pattern of its own. */
  function Values(d: String): Field -> Option<String>
  {
    f => FieldValue(d, f)
  }

  /** The fields whose pattern matches, with their values. */
  function FoundFields(d: String): map<Field, String>
  {
    Collect(PatternFields, Values(d))
  }

  /** A field is found exactly when its pattern matches; its value is then the first line of the capture. */
  lemma FoundFieldsIff(d: String, f: Field)
    ensures f in FoundFields(d) <==> f != Pricing && FieldValue(d, f).Some?
    ensures f in FoundFields(d) ==> FoundFields(d)[f] == FieldValue(d, f).value
  {
    CollectIff(PatternFields, Values(d), f);
  }

  /**
   * `parse_description`: every field whose pattern matches, the "Расценки" block
   * and its ИТОГО number, which replaces the generic one, and the start date
   * normalised. An empty description gives no fields.
   */
  method ParseDescription(d: String) returns (r: map<Field, String>)
    ensures d == [] ==> r == map[]
    ensures d != [] ==> forall f :: f != Start && f != Total && f != Pricing ==>
      (f in r <==> f in FoundFields(d)) && (f in r ==> r[f] == FoundFields(d)[f])
    ensures d != [] ==> (Start in r <==> Start in FoundFields(d))
    ensures d != [] && Start in r ==> r[Start] == NormalizeDate(FoundFields(d)[Start])
    ensures d != [] ==> (Pricing in r <==> PricingText(d).Some?)
    ensures d != [] && Pricing in r ==> r[Pricing] == PricingText(d).value
    ensures d != [] ==> (Total in r <==> Total in FoundFields(d) || PricingTotal(d).Some?)
    ensures d != [] && PricingTotal(d).Some? ==> r[Total] == PricingTotal(d).value
    ensures d != [] && PricingTotal(d).None? && Total in r ==> r[Total] == FoundFields(d)[Total]
  {
    if d == [] {
      return map[];
    }
    r := CollectLoop(PatternFields, Values(d));
    ghost var found := FoundFields(d);
    assert r == found;
    FoundFieldsIff(d, Pricing);
    assert Pricing !in r;
    var block := PricingText(d);
    if block.Some? {
      r := r[Pricing := block.value];
      var total := PricingTotal(d);
      if total.Some? {
        r := r[Total := total.value];
      }
    }
    if Start in r {
      r := r[Start := NormalizeDate(r[Start])];
    }
  }

  // ---------------------------------------------------------------- date normalisation

  /** `(\d{2})\.(\d{2})\.(\d{4})` at `i`. */
  predicate DottedAt(s: String, i: nat) {
    DigitsAt(s, i, 2) && i + 10 <= |s| && s[i + 2] == '.' && DigitsAt(s, i + 3, 2) && s[i + 5] == '.' && DigitsAt(s, i + 6, 4)
  }

  /** `(\d{1,2})\.(\d{1,2})\.(\d{2,4})` at `i` with `a` digits of day and `b` of month. */
  predicate ShortDottedShape(s: String, i: nat, a: nat, b: nat) {
    DigitsAt(s, i, a) && i + a + b + 4 <= |s| && s[i + a] == '.' && DigitsAt(s, i + a + 1, b)
    && s[i + a + 1 + b] == '.' && DigitsAt(s, i + a + b + 2, 2)
  }

  /** `(\d{1,2})\.(\d{1,2})\.(\d{2,4})` at `i`: some choice of one or two digits for day and month fits. */
  predicate ShortDottedAt(s: String, i: nat) {
    ShortDottedShape(s, i, 2, 2) || ShortDottedShape(s, i, 2, 1) || ShortDottedShape(s, i, 1, 2) || ShortDottedShape(s, i, 1, 1)
  }

  /** `(\d{4})-(\d{2})-(\d{2})` at `i`. */
  predicate IsoAt(s: String, i: nat) {
    i + 10 <= |s| && DigitsAt(s, i, 4) && s[i + 4] == '-' && DigitsAt(s, i + 5, 2) && s[i + 7] == '-' && DigitsAt(s, i + 8, 2)
  }

  predicate HasDotted(s: String) { exists i :: 0 <= i <= |s| && DottedAt(s, i) }

  predicate HasShortDotted(s: String) { exists i :: 0 <= i <= |s| && ShortDottedAt(s, i) }

  predicate HasIso(s: String) { exists i :: 0 <= i <= |s| && IsoAt(s, i) }

  /** `re.sub(r'(\d{4})-(\d{2})-(\d{2})', r'\3.\2.\1', s[i:])`: every ISO date, left to right, turned round. */
  function SubIso(s: String, i: nat): (r: String)
    requires i <= |s|
    ensures |r| == |s| - i
    decreases |s| - i
  {
    if i == |s| then []
    else if IsoAt(s, i) then s[i + 8..i + 10] + "." + s[i + 5..i + 7] + "." + s[i..i + 4] + SubIso(s, i + 10)
    else [s[i]] + SubIso(s, i + 1)
  }

  /**
   * `_normalize_date`: the first of the three patterns found decides. The two
   * dotted patterns are replaced by themselves, which leaves the string as it
   * is; the ISO pattern has every occurrence turned into dd.mm.yyyy.
   */
  function NormalizeDate(s: String): (r: String)
    ensures |r| == |s|
    ensures !HasIso(s) ==> r == s
  {
    if HasDotted(s) then s
    else if HasShortDotted(s) then s
    else if HasIso(s) then SubIso(s, 0)
    else s
  }

  /** A `dd.mm.yyyy` date one character further on after a character is put in front. */
  lemma DottedCons(c: char, t: String, k: nat)
    requires DottedAt(t, k)
    ensures DottedAt([c] + t, k + 1)
  {
    var s := [c] + t;
    assert forall q :: 0 <= q < |t| ==> s[q + 1] == t[q];
  }

  /** Rewriting ISO dates from `i` on leaves a `dd.mm.yyyy` date when there is an ISO date to rewrite. */
  lemma {:induction false} SubIsoDotted(s: String, i: nat, j: nat)
    requires i <= j <= |s| && IsoAt(s, j)
    ensures HasDotted(SubIso(s, i))
    decreases j - i
  {
    var r := SubIso(s, i);
    if IsoAt(s, i) {
      var head := s[i + 8..i + 10] + "." + s[i + 5..i + 7] + "." + s[i..i + 4];
      assert r == head + SubIso(s, i + 10);
      assert forall q :: 0 <= q < 10 ==> r[q] == head[q];
      assert DottedAt(r, 0);
    } else {
      SubIsoDotted(s, i + 1, j);
      var t := SubIso(s, i + 1);
      var k :| 0 <= k <= |t| && DottedAt(t, k);
      DottedCons(s[i], t, k);
      assert r == [s[i]] + t;
    }
  }

  /** Normalising twice is normalising once: a rewritten string holds a dotted date and is left alone. */
  lemma NormalizeDateIdempotent(s: String)
    ensures NormalizeDate(NormalizeDate(s)) == NormalizeDate(s)
  {
    if !HasDotted(s) && !HasShortDotted(s) && HasIso(s) {
      var j :| 0 <= j <= |s| && IsoAt(s, j);
      SubIsoDotted(s, 0, j);
    }
  }

  /** A date written `yyyy-mm-dd` is rewritten as `dd.mm.yyyy`. */
  lemma NormalizeIsoDate(d: Date)
    requires ValidDate(d)
    ensures NormalizeDate(IsoDate(d)) == DottedDate(d)
  {
    var s := IsoDate(d);
    var y := Pad(d.year, 4);
    var m := Pad(d.month, 2);
    var dd := Pad(d.day, 2);
    PadWidth(d.year, 4);
    PadWidth(d.month, 2);
    PadWidth(d.day, 2);
    assert s == y + "-" + m + "-" + dd;
    assert forall q :: 0 <= q < |s| ==> s[q] != '.' by {
      assert forall q :: 0 <= q < 4 ==> s[q] == y[q];
      assert forall q :: 5 <= q < 7 ==> s[q] == m[q - 5];
      assert forall q :: 8 <= q < 10 ==> s[q] == dd[q - 8];
    }
    assert !HasDotted(s);
    assert !HasShortDotted(s);
    assert IsoAt(s, 0);
    assert SubIso(s, 0) == s[8..10] + "." + s[5..7] + "." + s[0..4] + SubIso(s, 10);
    assert s[8..10] == dd && s[5..7] == m && s[0..4] == y;
  }

  /** A date already written `dd.mm.yyyy` is returned as it is. */
  lemma NormalizeDottedDate(d: Date)
    requires ValidDate(d)
    ensures NormalizeDate(DottedDate(d)) == DottedDate(d)
  {
    var s := DottedDate(d);
    var y := Pad(d.year, 4);
    var m := Pad(d.month, 2);
    var dd := Pad(d.day, 2);
    PadWidth(d.year, 4);
    PadWidth(d.month, 2);
    PadWidth(d.day, 2);
    assert s == dd + "." + m + "." + y;
    assert forall q :: 0 <= q < 2 ==> s[q] == dd[q];
    assert forall q :: 3 <= q < 5 ==> s[q] == m[q - 3];
    assert forall q :: 6 <= q < 10 ==> s[q] == y[q - 6];
    assert DottedAt(s, 0);
  }

  // ---------------------------------------------------------------- checklist total

  /** `ИТОГО:\s*(?:Сумма\s*)?(\d+)` at `p`, ignoring case. */
  function ChecklistTotalAt(s: String, p: nat): (r: Option<Span>)
    ensures r.Some? ==> r.value.lo < r.value.hi <= |s| && AllDigits(s[r.value.lo..r.value.hi])
  {
    if LitCI(s, p, "ИТОГО:") then
      var j := RunEnd(s, p + 6, IsSpace);
      if LitCI(s, j, "Сумма") then
        var k := RunEnd(s, j + 5, IsSpace);
        var e := RunEnd(s, k, IsDigit);
        if e > k then Some(Span(k, e)) else None
      else
        var e := RunEnd(s, j, IsDigit);
        if e > j then Some(Span(j, e)) else None
    else None
  }

  /** The total a check item's name states, if it states one. */
  function ItemTotal(name: String): Option<nat>
  {
    match Search(name, p => ChecklistTotalAt(name, p))
    case None => None
    case Some(h) => Some(DigitsValue(Slice(name, h.val)))
  }

  predicate StatesTotal(name: String) { ItemTotal(name).Some? }

  /** The names of all check items, checklist by checklist. */
  function Items(checklists: seq<seq<String>>): (r: seq<String>)
  {
    if checklists == [] then [] else checklists[0] + Items(checklists[1..])
  }

  /** `parse_checklist_total`: the total of the first check item, in checklist order, that states one. */
  function ChecklistTotal(checklists: seq<seq<String>>): (r: Option<nat>)
    ensures r.None? ==> forall i :: 0 <= i < |Items(checklists)| ==> !StatesTotal(Items(checklists)[i])
    ensures r.Some? ==> exists i :: 0 <= i < |Items(checklists)| && ItemTotal(Items(checklists)[i]) == r
                                    && forall j :: 0 <= j < i ==> !StatesTotal(Items(checklists)[j])
  {
    var items := Items(checklists);
    var i := FirstIndex(items, StatesTotal);
    if i < |items| then
      ItemTotal(items[i])
    else None
  }

  // ---------------------------------------------------------------- price

  /** One пункт of the price list: its key "Пункт N", name, sum and keywords. */
  datatype PriceItem = PriceItem(point: String, title: String, sum: int, keywords: seq<String>)

  /** The built-in price list, in its order. */
  const DefaultPrices: seq<PriceItem> := [
    PriceItem("Пункт 1", "Консультации по размещению кабелей", 1850, ["консультация", "согласование доступа", "письмо"]),
    PriceItem("Пункт 2", "Согласование с ЖКС/ГУПРЭП", 5250, ["ЖКС", "ГУПРЭП", "жилкомсервис"]),
    PriceItem("Пункт 3", "Согласование с ТСЖ/УК", 7050, ["ТСЖ", "УК", "управляющая", "замена ВОК", "прокладка кабеля"]),
    PriceItem("Пункт 4", "Транзит/Авария/VIP", 8600, ["транзит", "АВАРИЯ", "срочно", "VIP", "аварийн"]),
    PriceItem("Пункт 5", "Монтаж по фасадам", 1850, ["фасад", "монтаж"]),
    PriceItem("Пункт 6", "Доступ в подвалы/чердаки", 5250, ["подвал", "чердак", "доступ"]),
    PriceItem("Пункт 7", "Доступ в ТЦ/БЦ", 8600, ["ТЦ", "БЦ", "торговый центр", "паркинг", "бизнес центр"])
  ]

  /** The price of the last tier. */
  const FallbackPrice: (String, int) := ("Пункт 1", 1850)

  /** Some keyword of the пункт, lower-cased, occurs in the text. */
  predicate KeywordIn(keywords: seq<String>, text: String) {
    exists k :: 0 <= k < |keywords| && Contains(text, Lower(keywords[k]))
  }

  /** The first пункт, in table order, whose key occurs in the label; `|table|` when none does. */
  function LabelPoint(table: seq<PriceItem>, tag: String): (i: nat)
    ensures i <= |table|
    ensures i < |table| ==> Contains(tag, table[i].point)
    ensures forall k :: 0 <= k < i ==> !Contains(tag, table[k].point)
  {
    FirstIndex(table, (it: PriceItem) => Contains(tag, it.point))
  }

  predicate NamesPoint(table: seq<PriceItem>, tag: String) { LabelPoint(table, tag) < |table| }

  /** The text the keywords are looked for in. */
  function KeywordText(desc: String, name: String): String { Lower(desc) + " " + Lower(name) }

  /** Label `j` holds the key of пункт `i`. */
  predicate LabelHit(table: seq<PriceItem>, labels: seq<String>, j: int, i: int) {
    0 <= j < |labels| && 0 <= i < |table| && Contains(labels[j], table[i].point)
  }

  /** Label `j` is the first label holding any key, and `i` the first key, in table order, that it holds. */
  predicate FirstLabelHit(table: seq<PriceItem>, labels: seq<String>, j: int, i: int) {
    LabelHit(table, labels, j, i)
    && (forall k :: 0 <= k < i ==> !Contains(labels[j], table[k].point))
    && (forall j', k :: 0 <= j' < j && 0 <= k < |table| ==> !Contains(labels[j'], table[k].point))
  }

  /** Some keyword of пункт `i` occurs in the text. */
  predicate KeywordHit(table: seq<PriceItem>, text: String, i: int) {
    0 <= i < |table| && KeywordIn(table[i].keywords, text)
  }

  /** Пункт `i` is the first, in table order, with a keyword in the text. */
  predicate FirstKeywordHit(table: seq<PriceItem>, text: String, i: int) {
    KeywordHit(table, text, i) && forall k :: 0 <= k < i ==> !KeywordIn(table[k].keywords, text)
  }

  /**
   * `determine_price`: the first label, in label order, that holds a table key,
   * with the first such key in table order; else the first пункт, in table
   * order, with a keyword in the description or title; else Пункт 1 at 1850.
   */
  function DeterminePrice(table: seq<PriceItem>, labels: seq<String>, desc: String, name: String): (r: (String, int))
    ensures (exists j, i :: LabelHit(table, labels, j, i)) ==>
      exists j, i :: FirstLabelHit(table, labels, j, i) && r == (table[i].point, table[i].sum)
    ensures (forall j, i :: !LabelHit(table, labels, j, i)) ==>
      (exists i :: KeywordHit(table, KeywordText(desc, name), i)) ==>
      exists i :: FirstKeywordHit(table, KeywordText(desc, name), i) && r == (table[i].point, table[i].sum)
    ensures (forall j, i :: !LabelHit(table, labels, j, i)) ==>
      (forall i :: !KeywordHit(table, KeywordText(desc, name), i)) ==>
      r == FallbackPrice
  {
    var j := FirstIndex(labels, (tag: String) => NamesPoint(table, tag));
    if j < |labels| then
      var i := LabelPoint(table, labels[j]);
      assert FirstLabelHit(table, labels, j, i) by {
        forall j', k | 0 <= j' < j && 0 <= k < |table| ensures !Contains(labels[j'], table[k].point) {
          assert !NamesPoint(table, labels[j']);
        }
      }
      (table[i].point, table[i].sum)
    else
      assert forall j', i :: !LabelHit(table, labels, j', i) by {
        forall j', i | 0 <= j' < |labels| && 0 <= i < |table| ensures !Contains(labels[j'], table[i].point) {
          assert !NamesPoint(table, labels[j']);
        }
      }
      var text := KeywordText(desc, name);
      var i := FirstIndex(table, (it: PriceItem) => KeywordIn(it.keywords, text));
      if i < |table| then
        assert FirstKeywordHit(table, text, i);
        (table[i].point, table[i].sum)
      else
        FallbackPrice
  }
}
