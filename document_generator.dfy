/**
 * The document generator of document_generator.py: the simplified amount in
 * words of `number_to_words`, the price and task loading of `load_data`, and
 * the service totals of the report and the act.
 */
module DocumentGenerator {
  import opened Wrappers
  import opened Text
  import opened Lists
  import opened Sheet
  import AG = ActGenerator
  import SeverenSync

  // ---------------------------------------------------------------- amount in words

  /**
   * The word lists of `number_to_words`, by digit: the feminine units said
   * before "тысяча", the tens, the hundreds and the masculine units, and the
   * three forms of "тысяча". The spelling functions take them as a value so
   * that their lemmas hold for any lists of the same shape.
   */
  datatype Vocabulary = Vocabulary(
    feminine: seq<String>, tens: seq<String>, hundreds: seq<String>, ones: seq<String>, nouns: seq<String>)

  /** The lists of `number_to_words`. */
  const Simplified := Vocabulary(
    ["", "одна", "две", "три", "четыре", "пять", "шесть", "семь", "восемь", "девять"],
    ["", "десять", "двадцать", "тридцать", "сорок", "пятьдесят", "шестьдесят", "семьдесят", "восемьдесят", "девяносто"],
    ["", "сто", "двести", "триста", "четыреста", "пятьсот", "шестьсот", "семьсот", "восемьсот", "девятьсот"],
    ["", "один", "два", "три", "четыре", "пять", "шесть", "семь", "восемь", "девять"],
    ["тысяча", "тысячи", "тысяч"])

  predicate Shaped(v: Vocabulary) {
    |v.feminine| == 10 && |v.tens| == 10 && |v.hundreds| == 10 && |v.ones| == 10 && |v.nouns| == 3
  }

  /** Digit 0 is said as nothing, every other digit and every noun form as a word. */
  predicate Sound(v: Vocabulary) {
    Shaped(v)
    && v.feminine[0] == [] && v.tens[0] == [] && v.hundreds[0] == [] && v.ones[0] == []
    && (forall d :: 1 <= d < 10 ==> v.feminine[d] != [])
    && (forall d :: 1 <= d < 10 ==> v.tens[d] != [])
    && (forall d :: 1 <= d < 10 ==> v.hundreds[d] != [])
    && (forall d :: 1 <= d < 10 ==> v.ones[d] != [])
    && (forall f :: 0 <= f < 3 ==> v.nouns[f] != [])
  }

  lemma SimplifiedSound()
    ensures Sound(Simplified)
  {
  }

  /** One entry of the `result` list, by the table it is looked up in. */
  datatype Piece =
    | ThousandTens(d: nat) | ThousandOnes(d: nat) | Noun(form: nat)
    | Hundreds(d: nat) | Tens(d: nat) | Ones(d: nat)

  predicate ValidPiece(p: Piece) {
    match p
    case Noun(f) => f < 3
    case ThousandTens(d) => d < 10
    case ThousandOnes(d) => d < 10
    case Hundreds(d) => d < 10
    case Tens(d) => d < 10
    case Ones(d) => d < 10
  }

  predicate ValidPieces(ps: seq<Piece>) {
    forall i :: 0 <= i < |ps| ==> ValidPiece(ps[i])
  }

  /** A piece is said as nothing: a zero digit. */
  predicate Silent(p: Piece) {
    !p.Noun? && p.d == 0
  }

  /** What the piece stands for. */
  function PieceValue(p: Piece): int {
    match p
    case ThousandTens(d) => 10000 * d
    case ThousandOnes(d) => 1000 * d
    case Noun(_) => 0
    case Hundreds(d) => 100 * d
    case Tens(d) => 10 * d
    case Ones(d) => d
  }

  /**
   * The form of "тысяча" after `t` thousands: the singular after a last digit
   * 1 other than in 11, the paucal after a last digit 2 to 4 other than in 12
   * to 14, the genitive plural otherwise.
   */
  function NounForm(t: int): (f: nat)
    ensures f < 3
  {
    if t % 10 == 1 && t % 100 != 11 then 0
    else if 2 <= t % 10 <= 4 && !(12 <= t % 100 <= 14) then 1
    else 2
  }

  /** The `result` list before the words are looked up: the thousands part, then the hundreds part. */
  function NumberPieces(number: int): (ps: seq<Piece>)
    ensures number / 1000 < 100 ==> ValidPieces(ps)
  {
    var t := number / 1000;
    (if t > 0 then ThousandDigits(t) + [Noun(NounForm(t))] else []) + HundredDigits(number % 1000)
  }

  function Spell(v: Vocabulary, p: Piece): String
    requires Shaped(v) && ValidPiece(p)
  {
    match p
    case ThousandTens(d) => v.tens[d]
    case ThousandOnes(d) => v.feminine[d]
    case Noun(f) => v.nouns[f]
    case Hundreds(d) => v.hundreds[d]
    case Tens(d) => v.tens[d]
    case Ones(d) => v.ones[d]
  }

  function SpellAll(v: Vocabulary, ps: seq<Piece>): (ws: seq<String>)
    requires Shaped(v) && ValidPieces(ps)
    ensures |ws| == |ps|
  {
    if ps == [] then [] else [Spell(v, ps[0])] + SpellAll(v, ps[1..])
  }

  predicate NonBlank(w: String) { w != [] }

  /** `' '.join(filter(None, result))` with the words of `v`; None where `tens[thousands // 10]` raises. */
  function Say(v: Vocabulary, number: int): (r: Option<String>)
    requires Shaped(v)
    ensures r.None? <==> number / 1000 >= 100
  {
    if number / 1000 >= 100 then None
    else Some(Join(Filter(SpellAll(v, NumberPieces(number)), NonBlank), " "))
  }

  /** `number_to_words`. */
  function NumberToWords(number: int): (r: Option<String>)
    ensures r.None? <==> number >= 100000
  {
    Say(Simplified, number)
  }

  /** The thousands part without its noun, by digit. */
  function ThousandDigits(t: int): seq<Piece> {
    (if t >= 10 then [ThousandTens(t / 10)] else []) + (if t % 10 > 0 then [ThousandOnes(t % 10)] else [])
  }

  /** The hundreds part, by digit. */
  function HundredDigits(h: int): seq<Piece> {
    if h > 0 then [Hundreds(h / 100), Tens(h % 100 / 10), Ones(h % 10)] else []
  }

  lemma ThousandDigitsValue(t: int)
    requires 0 < t < 100
    ensures Sum(ThousandDigits(t) + [Noun(NounForm(t))], PieceValue) == 1000 * t
  {
    var a := if t >= 10 then [ThousandTens(t / 10)] else [];
    var b := if t % 10 > 0 then [ThousandOnes(t % 10)] else [];
    SumAppend(a + b, [Noun(NounForm(t))], PieceValue);
    SumAppend(a, b, PieceValue);
    assert Sum([Noun(NounForm(t))], PieceValue) == 0;
    assert Sum(a, PieceValue) == 10000 * (t / 10);
    assert Sum(b, PieceValue) == 1000 * (t % 10);
  }

  lemma HundredDigitsValue(h: int)
    requires 0 <= h < 1000
    ensures Sum(HundredDigits(h), PieceValue) == h
  {
    if h > 0 {
      var hp := HundredDigits(h);
      assert hp[1..][1..] == [Ones(h % 10)] && [Ones(h % 10)][1..] == [];
      assert Sum([Ones(h % 10)], PieceValue) == h % 10;
      assert Sum(hp[1..], PieceValue) == 10 * (h % 100 / 10) + h % 10;
    }
  }

  /** The pieces read back as the number: nothing of it is lost or doubled. */
  lemma NumberPiecesValue(n: int)
    requires 0 <= n < 100000
    ensures Sum(NumberPieces(n), PieceValue) == n
  {
    var t, h := n / 1000, n % 1000;
    var tp := if t > 0 then ThousandDigits(t) + [Noun(NounForm(t))] else [];
    SumAppend(tp, HundredDigits(h), PieceValue);
    if t > 0 {
      ThousandDigitsValue(t);
    }
    HundredDigitsValue(h);
  }

  /** Below a thousand there is no thousands part, and the hundreds part is digit by digit, teens included. */
  lemma BelowThousand(n: int)
    requires 0 <= n < 1000
    ensures NumberPieces(n) == if n == 0 then [] else [Hundreds(n / 100), Tens(n % 100 / 10), Ones(n % 10)]
  {
  }

  /** Eleven is said "десять один": the tens word, then the units word. */
  lemma ElevenDigitByDigit()
    ensures NumberPieces(11) == [Hundreds(0), Tens(1), Ones(1)]
    ensures Spell(Simplified, Tens(1)) == "десять" && Spell(Simplified, Ones(1)) == "один"
  {
    BelowThousand(11);
  }

  /** The form of "тысяча" depends on the last two digits only, and every teen takes the genitive plural. */
  lemma NounFormLastTwoDigits(t: int)
    ensures NounForm(t) == NounForm(t % 100)
    ensures 10 <= t % 100 <= 19 ==> NounForm(t) == 2
  {
    LastDigitKept(t);
  }

  lemma LastDigitKept(t: int)
    ensures t % 100 % 10 == t % 10 && t % 100 % 100 == t % 100
  {
    var r := t % 100;
    var m := 10 * (t / 100) + r / 10;
    assert r == 10 * (r / 10) + r % 10;
    assert t == 10 * m + r % 10;
  }

  /** The filtered words are gone exactly when every piece is said as nothing. */
  lemma {:induction false} SilentIff(v: Vocabulary, ps: seq<Piece>)
    requires Sound(v) && ValidPieces(ps)
    ensures Filter(SpellAll(v, ps), NonBlank) == [] <==> forall i :: 0 <= i < |ps| ==> Silent(ps[i])
  {
    if ps != [] {
      var ws := SpellAll(v, ps);
      assert ws[1..] == SpellAll(v, ps[1..]);
      SilentIff(v, ps[1..]);
      assert NonBlank(ws[0]) <==> !Silent(ps[0]);
      if forall i :: 1 <= i < |ps| ==> Silent(ps[i]) {
        assert forall i :: 0 <= i < |ps[1..]| ==> Silent(ps[1..][i]) by {
          forall i | 0 <= i < |ps[1..]| ensures Silent(ps[1..][i]) { assert ps[1..][i] == ps[i + 1]; }
        }
      }
      if forall i :: 0 <= i < |ps[1..]| ==> Silent(ps[1..][i]) {
        forall i | 1 <= i < |ps| ensures Silent(ps[i]) { assert ps[i] == ps[1..][i - 1]; }
      }
    }
  }

  /** Non-empty words joined give the empty string only when there are none. */
  lemma JoinNonBlank(ws: seq<String>, sep: String)
    requires forall i :: 0 <= i < |ws| ==> NonBlank(ws[i])
    ensures Join(ws, sep) == [] <==> ws == []
  {
    if |ws| >= 2 {
      assert Join(ws, sep) == ws[0] + sep + Join(ws[1..], sep);
    }
  }

  /** The words are empty exactly for the numbers below a thousand that are a multiple of a thousand: 0 and the negatives -1000, -2000, …. */
  lemma SayEmptyIff(v: Vocabulary, n: int)
    requires Sound(v) && n / 1000 < 100
    ensures Say(v, n) == Some([]) <==> n < 1000 && n % 1000 == 0
  {
    var ps := NumberPieces(n);
    SilentIff(v, ps);
    JoinNonBlank(Filter(SpellAll(v, ps), NonBlank), " ");
    PiecesSilentIff(n);
  }

  /** Every piece is said as nothing exactly when there are no thousands and no hundreds part. */
  lemma PiecesSilentIff(n: int)
    ensures (forall i :: 0 <= i < |NumberPieces(n)| ==> Silent(NumberPieces(n)[i])) <==> n < 1000 && n % 1000 == 0
  {
    var t, h := n / 1000, n % 1000;
    var tp := if t > 0 then ThousandDigits(t) + [Noun(NounForm(t))] else [];
    var ps := NumberPieces(n);
    assert ps == tp + HundredDigits(h);
    if t > 0 {
      assert ps[|tp| - 1] == Noun(NounForm(t));
    } else if h > 0 {
      HundredDigitsSilent(h);
      assert forall i :: 0 <= i < |HundredDigits(h)| ==> ps[i] == HundredDigits(h)[i];
    }
  }

  lemma HundredDigitsSilent(h: int)
    requires 0 < h < 1000
    ensures exists i :: 0 <= i < |HundredDigits(h)| && !Silent(HundredDigits(h)[i])
  {
    var hp := HundredDigits(h);
    assert h == 100 * (h / 100) + 10 * (h % 100 / 10) + h % 10;
    if h / 100 != 0 {
      assert !Silent(hp[0]);
    } else if h % 100 / 10 != 0 {
      assert !Silent(hp[1]);
    } else {
      assert !Silent(hp[2]);
    }
  }

  /** `number_to_words` gives "" exactly for 0 and the negative multiples of a thousand. */
  lemma NumberToWordsEmpty(n: int)
    requires n < 100000
    ensures NumberToWords(n) == Some([]) <==> n < 1000 && n % 1000 == 0
  {
    SimplifiedSound();
    SayEmptyIff(Simplified, n);
  }

  // ---------------------------------------------------------------- the price sheet

  /** The first three cells of a row of the "расценки" sheet: code, description, price. */
  datatype PriceRow = PriceRow(code: Cell, description: Cell, price: Cell)

  /** `{'description': …, 'price': …}`; prices are whole roubles. */
  datatype PriceEntry = PriceEntry(description: Cell, price: int)

  /** `float(value)` of a cell, as a whole number: None where it raises. */
  function FloatOf(c: Cell): Option<int> {
    match c
    case Int(n) => Some(n)
    case Text(t) => AG.FloatToInt(t)
    case _ => None
  }

  /** `if row[0] and row[1] and row[2]`. */
  predicate Listed(r: PriceRow) {
    Truthy(r.code) && Truthy(r.description) && Truthy(r.price)
  }

  /** The code and entry of a row, or None where `int()` or `float()` raises. */
  function Entry(r: PriceRow): Option<(int, PriceEntry)> {
    match (SeverenSync.IntOf(r.code), FloatOf(r.price))
    case (Some(k), Some(p)) => Some((k, PriceEntry(r.description, p)))
    case _ => None
  }

  /** A listed row whose code or price does not convert: loading stops with an error. */
  predicate Broken(r: PriceRow) {
    Listed(r) && Entry(r).None?
  }

  /** The row `i` is listed and gives code `k`. */
  predicate GivesCode(rows: seq<PriceRow>, i: int, k: int) {
    0 <= i < |rows| && Listed(rows[i]) && Entry(rows[i]).Some? && Entry(rows[i]).value.0 == k
  }

  /** The price table after the loop over `rows`, starting from `base`; None when a row raises. */
  function LoadPrices(base: map<int, PriceEntry>, rows: seq<PriceRow>): (r: Option<map<int, PriceEntry>>)
    ensures r.Some? ==> base.Keys <= r.value.Keys
  {
    if rows == [] then Some(base)
    else
      match LoadPrices(base, rows[..|rows| - 1])
      case None => None
      case Some(m) =>
        var r := rows[|rows| - 1];
        if !Listed(r) then Some(m)
        else match Entry(r)
          case None => None
          case Some((k, e)) => Some(m[k := e])
  }

  /** A row before the last gives a code in the rows exactly when it gives it in the rows without the last. */
  lemma GivesInit(rows: seq<PriceRow>, i: int, k: int)
    requires 0 <= i < |rows| - 1
    ensures GivesCode(rows, i, k) == GivesCode(rows[..|rows| - 1], i, k)
  {
    assert rows[..|rows| - 1][i] == rows[i];
  }

  /** Loading fails exactly when some listed row has a code or a price that does not convert. */
  lemma {:induction false} LoadPricesFails(base: map<int, PriceEntry>, rows: seq<PriceRow>)
    ensures LoadPrices(base, rows).None? <==> exists i :: 0 <= i < |rows| && Broken(rows[i])
  {
    if rows != [] {
      var n := |rows| - 1;
      var init := rows[..n];
      LoadPricesFails(base, init);
      if exists i :: 0 <= i < |init| && Broken(init[i]) {
        var i :| 0 <= i < |init| && Broken(init[i]);
        assert rows[i] == init[i];
      }
      if exists i :: 0 <= i < n && Broken(rows[i]) {
        var i :| 0 <= i < n && Broken(rows[i]);
        assert init[i] == rows[i];
      }
    }
  }

  /** A code is in the loaded table exactly when it was in `base` or some listed row gives it. */
  lemma {:induction false} LoadPricesHas(base: map<int, PriceEntry>, rows: seq<PriceRow>, k: int)
    requires LoadPrices(base, rows).Some?
    ensures k in LoadPrices(base, rows).value <==> k in base || exists i :: GivesCode(rows, i, k)
  {
    if rows != [] {
      var n := |rows| - 1;
      var init := rows[..n];
      LoadPricesHas(base, init, k);
      if !GivesCode(rows, n, k) {
        if exists i :: GivesCode(rows, i, k) {
          var i :| GivesCode(rows, i, k);
          GivesInit(rows, i, k);
        }
        if exists i :: GivesCode(init, i, k) {
          var i :| GivesCode(init, i, k);
          GivesInit(rows, i, k);
        }
      }
    }
  }

  /** The entry of a code is the one of the last listed row that gives it. */
  lemma {:induction false} LoadPricesLast(base: map<int, PriceEntry>, rows: seq<PriceRow>, k: int, i: int)
    requires LoadPrices(base, rows).Some?
    requires GivesCode(rows, i, k) && forall j :: i < j < |rows| ==> !GivesCode(rows, j, k)
    ensures k in LoadPrices(base, rows).value && LoadPrices(base, rows).value[k] == Entry(rows[i]).value.1
  {
    var n := |rows| - 1;
    var init := rows[..n];
    if i < n {
      GivesInit(rows, i, k);
      forall j | i < j < n
        ensures !GivesCode(init, j, k)
      {
        GivesInit(rows, j, k);
      }
      LoadPricesLast(base, init, k, i);
      assert init[i] == rows[i];
      assert !GivesCode(rows, n, k);
    }
  }

  // ---------------------------------------------------------------- the task sheet

  type Value = AG.Value

  /** The columns of a row of the "Эксель" sheet that `load_data` reads: 0, 2, 3, 4 and the last. */
  datatype TaskRow = TaskRow(number: Value, month: Value, district: Value, notes: Value, last: Value)

  /** `{'number': …, 'month': …, 'district': …, 'address': …, 'notes': …}`. */
  datatype Task = Task(number: Value, month: Value, district: Value, address: Value, notes: Value)

  /** `pd.notna(row.iloc[0]) and row.iloc[0] != 1`. */
  predicate Kept(r: TaskRow) {
    !r.number.NA? && r.number != AG.Number(1)
  }

  /** A missing value becomes "". */
  function Blank(v: Value): (w: Value)
    ensures !w.NA?
    ensures !v.NA? ==> w == v
  {
    if v.NA? then AG.Txt("") else v
  }

  function TaskOf(r: TaskRow): Task {
    Task(r.number, Blank(r.month), Blank(r.district), Blank(r.last), Blank(r.notes))
  }

  /** The tasks the loop over `rows` appends. */
  function Tasks(rows: seq<TaskRow>): (ts: seq<Task>)
    ensures |ts| <= |rows|
    ensures forall j :: 0 <= j < |ts| ==> !ts[j].number.NA? && ts[j].number != AG.Number(1)
    ensures forall j :: 0 <= j < |ts| ==> !ts[j].month.NA? && !ts[j].district.NA? && !ts[j].address.NA? && !ts[j].notes.NA?
  {
    if rows == [] then []
    else
      var r := rows[|rows| - 1];
      Tasks(rows[..|rows| - 1]) + (if Kept(r) then [TaskOf(r)] else [])
  }

  function TaskList(rows: seq<TaskRow>): seq<Task> {
    seq(|rows|, j requires 0 <= j < |rows| => TaskOf(rows[j]))
  }

  /** The tasks are those of the kept rows, in order, and nothing else. */
  lemma {:induction false} TasksAreKeptRows(rows: seq<TaskRow>)
    ensures Tasks(rows) == TaskList(Filter(rows, Kept))
  {
    if rows != [] {
      var n := |rows| - 1;
      var init, r := rows[..n], rows[n];
      TasksAreKeptRows(init);
      assert rows == init + [r];
      FilterAppend(init, [r], Kept);
      assert Filter([r], Kept) == if Kept(r) then [r] else [];
      assert TaskList(Filter(init, Kept) + Filter([r], Kept)) == TaskList(Filter(init, Kept)) + TaskList(Filter([r], Kept));
    }
  }

  // ---------------------------------------------------------------- services and totals

  /** A service of the report or the act; `kind` is its 'type', absent when the dict has none. */
  datatype Service = Service(kind: Option<int>)

  /** `service.get('type', 1)`. */
  function ReportCode(s: Service): int {
    if s.kind.Some? then s.kind.value else 1
  }

  /** The price a code adds: its table price when listed, nothing otherwise. */
  function PriceOf(prices: map<int, PriceEntry>, k: int): int {
    if k in prices then prices[k].price else 0
  }

  /** The `total` of `generate_otchet`. */
  function ReportTotal(prices: map<int, PriceEntry>, services: seq<Service>): (r: int)
    ensures (forall k :: k in prices ==> prices[k].price >= 0) ==> r >= 0
  {
    if services == [] then 0
    else ReportTotal(prices, services[..|services| - 1]) + PriceOf(prices, ReportCode(services[|services| - 1]))
  }

  /** The `total` of `generate_akt`; None where `s['type']` raises. */
  function ActTotal(prices: map<int, PriceEntry>, services: seq<Service>): (r: Option<int>)
    ensures r.Some? ==> r.value == ReportTotal(prices, services)
  {
    if services == [] then Some(0)
    else
      match ActTotal(prices, services[..|services| - 1])
      case None => None
      case Some(total) =>
        var s := services[|services| - 1];
        if s.kind.None? then None else Some(total + PriceOf(prices, s.kind.value))
  }

  /** The services whose code is in the price table. */
  function InTable(prices: map<int, PriceEntry>): Service -> bool {
    (s: Service) => ReportCode(s) in prices
  }

  /** The report total counts only the services whose code is in the price table. */
  lemma {:induction false} ReportTotalListedOnly(prices: map<int, PriceEntry>, services: seq<Service>)
    ensures ReportTotal(prices, services) == ReportTotal(prices, Filter(services, InTable(prices)))
  {
    if services != [] {
      var n := |services| - 1;
      ReportTotalListedOnly(prices, services[..n]);
      FilteredTotalStep(prices, services, n);
    }
  }

  /** The total of the listed services of a prefix one longer grows by the price of the added service. */
  lemma FilteredTotalStep(prices: map<int, PriceEntry>, services: seq<Service>, n: nat)
    requires n == |services| - 1
    ensures ReportTotal(prices, services) == ReportTotal(prices, services[..n]) + PriceOf(prices, ReportCode(services[n]))
    ensures ReportTotal(prices, Filter(services, InTable(prices)))
      == ReportTotal(prices, Filter(services[..n], InTable(prices))) + PriceOf(prices, ReportCode(services[n]))
  {
    var init, s, listed := services[..n], services[n], InTable(prices);
    var tail := if listed(s) then [s] else [];
    assert Filter(services, listed) == Filter(init, listed) + tail by {
      assert services == init + [s];
      FilterAppend(init, [s], listed);
      assert Filter([s], listed) == tail + Filter([s][1..], listed);
    }
    ReportTotalAppend(prices, Filter(init, listed), tail);
    assert ReportTotal(prices, tail) == PriceOf(prices, ReportCode(s)) by {
      if listed(s) {
        assert tail[..0] == [];
      }
    }
  }

  lemma {:induction false} ReportTotalAppend(prices: map<int, PriceEntry>, xs: seq<Service>, ys: seq<Service>)
    ensures ReportTotal(prices, xs + ys) == ReportTotal(prices, xs) + ReportTotal(prices, ys)
  {
    if ys == [] {
      assert xs + ys == xs;
    } else {
      var n := |ys| - 1;
      assert (xs + ys)[..|xs + ys| - 1] == xs + ys[..n];
      ReportTotalAppend(prices, xs, ys[..n]);
    }
  }

  /** The act total fails exactly when a service has no 'type'. */
  lemma {:induction false} ActTotalFails(prices: map<int, PriceEntry>, services: seq<Service>)
    ensures ActTotal(prices, services).None? <==> exists i :: 0 <= i < |services| && services[i].kind.None?
  {
    if services != [] {
      var n := |services| - 1;
      var init := services[..n];
      ActTotalFails(prices, init);
      if exists i :: 0 <= i < |init| && init[i].kind.None? {
        var i :| 0 <= i < |init| && init[i].kind.None?;
        assert services[i] == init[i];
      }
      if exists i :: 0 <= i < n && services[i].kind.None? {
        var i :| 0 <= i < n && services[i].kind.None?;
        assert init[i] == services[i];
      }
    }
  }

  /** When every service has a 'type', the act and the report come to the same total. */
  lemma {:induction false} ActTotalIsReportTotal(prices: map<int, PriceEntry>, services: seq<Service>)
    requires forall i :: 0 <= i < |services| ==> services[i].kind.Some?
    ensures ActTotal(prices, services) == Some(ReportTotal(prices, services))
  {
    if services != [] {
      var n := |services| - 1;
      assert forall i :: 0 <= i < n ==> services[..n][i] == services[i];
      ActTotalIsReportTotal(prices, services[..n]);
    }
  }

  /**
   * What the amount paragraph of `generate_akt` prints: the total and its
   * words; None where `generate_akt` raises (a service without 'type', no
   * service for `services[0]`, or a total of a hundred thousand or more).
   */
  function ActAmount(prices: map<int, PriceEntry>, services: seq<Service>): (r: Option<(int, String)>)
    ensures r.Some? <==> services != [] && ActTotal(prices, services).Some? && ActTotal(prices, services).value < 100000
    ensures r.Some? ==> r.value.0 == ActTotal(prices, services).value && NumberToWords(r.value.0) == Some(r.value.1)
  {
    match ActTotal(prices, services)
    case None => None
    case Some(total) =>
      if services == [] then None
      else match NumberToWords(total)
        case None => None
        case Some(words) => Some((total, words))
  }

  // ---------------------------------------------------------------- the generator

  /** The loaded workbook data of a `DocumentGenerator`. */
  class Generator {
    var tasks: seq<Task>
    var prices: map<int, PriceEntry>

    /** `__init__` before `load_data`. */
    constructor()
      ensures tasks == [] && prices == map[]
    {
      tasks := [];
      prices := map[];
    }

    /**
     * `load_data`: the price rows, then the task rows. `ok` is false where a
     * listed price row does not convert; the task rows are then not read.
     */
    method LoadData(priceRows: seq<PriceRow>, taskRows: seq<TaskRow>) returns (ok: bool)
      modifies this
      ensures ok <==> LoadPrices(old(prices), priceRows).Some?
      ensures ok ==> prices == LoadPrices(old(prices), priceRows).value && tasks == old(tasks) + Tasks(taskRows)
      ensures !ok ==> tasks == old(tasks)
    {
      var i := 0;
      ghost var base := prices;
      while i < |priceRows|
        invariant 0 <= i <= |priceRows|
        invariant tasks == old(tasks)
        invariant LoadPrices(base, priceRows[..i]) == Some(prices)
      {
        assert priceRows[..i + 1][..i] == priceRows[..i];
        var r := priceRows[i];
        if Listed(r) {
          var e := Entry(r);
          if e.None? {
            LoadPricesStops(base, priceRows, i + 1);
            return false;
          }
          prices := prices[e.value.0 := e.value.1];
        }
        i := i + 1;
      }
      assert priceRows[..i] == priceRows;
      var j := 0;
      ghost var tasks0 := tasks;
      while j < |taskRows|
        invariant 0 <= j <= |taskRows|
        invariant tasks == tasks0 + Tasks(taskRows[..j])
        invariant LoadPrices(base, priceRows) == Some(prices)
      {
        assert taskRows[..j + 1][..j] == taskRows[..j];
        if Kept(taskRows[j]) {
          tasks := tasks + [TaskOf(taskRows[j])];
        }
        j := j + 1;
      }
      assert taskRows[..j] == taskRows;
      return true;
    }

    /** The loop of `generate_otchet` that adds up the prices of the services. */
    method ReportSum(services: seq<Service>) returns (total: int)
      ensures total == ReportTotal(prices, services)
    {
      total := 0;
      var i := 0;
      while i < |services|
        invariant 0 <= i <= |services|
        invariant total == ReportTotal(prices, services[..i])
      {
        assert services[..i + 1][..i] == services[..i];
        var code := ReportCode(services[i]);
        if code in prices {
          total := total + prices[code].price;
        }
        i := i + 1;
      }
      assert services[..i] == services;
    }
  }

  /** Once a prefix of the rows fails, the whole load fails. */
  lemma {:induction false} LoadPricesStops(base: map<int, PriceEntry>, rows: seq<PriceRow>, i: nat)
    requires i <= |rows| && LoadPrices(base, rows[..i]).None?
    ensures LoadPrices(base, rows).None?
  {
    LoadPricesFails(base, rows[..i]);
    LoadPricesFails(base, rows);
    var j :| 0 <= j < i && Broken(rows[..i][j]);
    assert rows[..i][j] == rows[j];
  }
}
