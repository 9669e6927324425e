/**
 * The act generator of windows/generate_act.py: the amount in Russian words,
 * act-number normalisation, sheet selection by keyword, the row filter of an
 * act, the rate table and the cost of a work, and the layout of the filled
 * template.
 */
module ActGenerator {
  import opened Wrappers
  import opened Text
  import opened Lists
  import opened Dates
  import opened Sheet

  // ---------------------------------------------------------------- amount in words

  /**
   * The four word lists of `sum_to_words`, by index: the units 0 to 19, the
   * tens, the hundreds, and the cases of "тысяча". The spelling functions take
   * them as a value so that their lemmas hold for any lists of the same shape.
   */
  datatype Numerals = Numerals(units: seq<String>, tens: seq<String>, hundreds: seq<String>, thousands: seq<String>)

  /** The lists of `sum_to_words`. */
  const Russian := Numerals(
    ["", "один", "два", "три", "четыре", "пять", "шесть", "семь", "восемь", "девять",
     "десять", "одиннадцать", "двенадцать", "тринадцать", "четырнадцать", "пятнадцать",
     "шестнадцать", "семнадцать", "восемнадцать", "девятнадцать"],
    ["", "", "двадцать", "тридцать", "сорок", "пятьдесят", "шестьдесят", "семьдесят", "восемьдесят", "девяносто"],
    ["", "сто", "двести", "триста", "четыреста", "пятьсот", "шестьсот", "семьсот", "восемьсот", "девятьсот"],
    ["", "тысяча", "тысячи", "тысяч"])

  /** The lengths `chunk` and `group` index up to. */
  predicate Shaped(nm: Numerals) {
    |nm.units| == 20 && |nm.tens| == 10 && |nm.hundreds| == 10 && |nm.thousands| == 4
  }

  /** A word of the lists: non-empty, and starting and ending with a lower-case Cyrillic letter. */
  predicate Word(w: String) { w != [] && IsCyrillicLower(w[0]) && IsCyrillicLower(w[|w| - 1]) }

  lemma LetterNotSpace(c: char)
    requires IsCyrillicLower(c)
    ensures !IsSpace(c)
  {
  }

  /** Every entry of `table` from index `from` on is a word. */
  predicate Words(table: seq<String>, from: nat) { forall i :: from <= i < |table| ==> Word(table[i]) }

  /** Shaped lists whose entries are words, apart from the empty placeholders at their heads. */
  predicate Sound(nm: Numerals) {
    Shaped(nm) && Words(nm.units, 1) && Words(nm.tens, 2) && Words(nm.hundreds, 1) && Words(nm.thousands, 1)
  }

  lemma UnitsAreWords()
    ensures |Russian.units| == 20 && Words(Russian.units, 1)
  {
  }

  lemma TensAreWords()
    ensures |Russian.tens| == 10 && Words(Russian.tens, 2)
  {
  }

  lemma HundredsAreWords()
    ensures |Russian.hundreds| == 10 && Words(Russian.hundreds, 1)
  {
  }

  lemma ThousandsAreWords()
    ensures |Russian.thousands| == 4 && Words(Russian.thousands, 1)
  {
  }

  lemma RussianSound()
    ensures Sound(Russian)
  {
    UnitsAreWords();
    TensAreWords();
    HundredsAreWords();
    ThousandsAreWords();
  }

  /** `chunk(n)`: the words of a number below a thousand, "" for 0. */
  function Chunk(nm: Numerals, n: nat): (r: String)
    requires Shaped(nm) && n < 1000
    decreases n
  {
    if n == 0 then []
    else if n < 20 then nm.units[n]
    else if n < 100 then nm.tens[n / 10] + (if n % 10 != 0 then " " + nm.units[n % 10] else [])
    else nm.hundreds[n / 100] + (if n % 100 != 0 then " " + Chunk(nm, n % 100) else [])
  }

  /** With word lists, `chunk` gives "" for 0 alone. */
  lemma ChunkEmptyIff(nm: Numerals, n: nat)
    requires Sound(nm) && n < 1000
    ensures Chunk(nm, n) == [] <==> n == 0
  {
    if 100 <= n {
      assert Word(nm.hundreds[n / 100]);
    } else if 20 <= n {
      assert Word(nm.tens[n / 10]);
    } else if 0 < n {
      assert Word(nm.units[n]);
    }
  }

  /** One number word, by the list it comes from and its index there. */
  datatype Token = Unit(u: nat) | Ten(t: nat) | Hundred(h: nat) | Thousand(form: nat)

  /** A token that names a word of its list. */
  predicate ValidToken(k: Token) {
    match k
    case Unit(u) => 1 <= u < 20
    case Ten(t) => 2 <= t < 10
    case Hundred(h) => 1 <= h < 10
    case Thousand(f) => 1 <= f < 4
  }

  function Spell(nm: Numerals, k: Token): String
    requires Shaped(nm) && ValidToken(k)
  {
    match k
    case Unit(u) => nm.units[u]
    case Ten(t) => nm.tens[t]
    case Hundred(h) => nm.hundreds[h]
    case Thousand(f) => nm.thousands[f]
  }

  function SpellAll(nm: Numerals, ks: seq<Token>): (ws: seq<String>)
    requires Shaped(nm) && forall i :: 0 <= i < |ks| ==> ValidToken(ks[i])
    ensures |ws| == |ks| && forall i :: 0 <= i < |ks| ==> ws[i] == Spell(nm, ks[i])
  {
    if ks == [] then [] else [Spell(nm, ks[0])] + SpellAll(nm, ks[1..])
  }

  /** What a token counts: a unit, ten tens, a hundred hundreds; the thousands noun counts nothing by itself. */
  function TokenValue(k: Token): nat {
    match k
    case Unit(u) => u
    case Ten(t) => 10 * t
    case Hundred(h) => 100 * h
    case Thousand(_) => 0
  }

  function TokensValue(ks: seq<Token>): nat {
    if ks == [] then 0 else TokenValue(ks[0]) + TokensValue(ks[1..])
  }

  predicate ValidTokens(ks: seq<Token>) { forall i :: 0 <= i < |ks| ==> ValidToken(ks[i]) && !ks[i].Thousand? }

  /** How a number below a hundred is said: 11 to 19 are one word, otherwise tens then units. */
  function LowTokens(r: nat): (ks: seq<Token>)
    requires r < 100
    ensures ValidTokens(ks) && TokensValue(ks) == r
    ensures ks == [] <==> r == 0
  {
    if r == 0 then []
    else if r < 20 then [Unit(r)]
    else if r % 10 == 0 then [Ten(r / 10)]
    else
      var ks := [Ten(r / 10), Unit(r % 10)];
      assert ks[1..] == [Unit(r % 10)] && ks[1..][1..] == [];
      assert TokensValue(ks[1..]) == r % 10;
      ks
  }

  /** How a number below a thousand is said: hundreds, then the rest. */
  function ChunkTokens(n: nat): (ks: seq<Token>)
    requires n < 1000
    ensures ValidTokens(ks) && TokensValue(ks) == n
    ensures ks == [] <==> n == 0
  {
    if n < 100 then LowTokens(n)
    else
      var ks := [Hundred(n / 100)] + LowTokens(n % 100);
      assert ks[1..] == LowTokens(n % 100);
      ks
  }

  /** `sep.join` of two non-empty lists is the join of each, put together with `sep`. */
  lemma {:induction false} JoinAppend(a: seq<String>, b: seq<String>, sep: String)
    requires a != [] && b != []
    ensures Join(a + b, sep) == Join(a, sep) + sep + Join(b, sep)
    decreases |a|
  {
    if |a| == 1 {
      assert (a + b)[1..] == b;
    } else {
      assert (a + b)[1..] == a[1..] + b;
      JoinAppend(a[1..], b, sep);
    }
  }

  lemma {:induction false} SpellAppend(nm: Numerals, a: seq<Token>, b: seq<Token>)
    requires Shaped(nm)
    requires forall i :: 0 <= i < |a| ==> ValidToken(a[i])
    requires forall i :: 0 <= i < |b| ==> ValidToken(b[i])
    ensures SpellAll(nm, a + b) == SpellAll(nm, a) + SpellAll(nm, b)
  {
    if a != [] {
      assert (a + b)[1..] == a[1..] + b;
      SpellAppend(nm, a[1..], b);
    }
  }

  lemma LowSpells(nm: Numerals, n: nat)
    requires Shaped(nm) && n < 100
    ensures Chunk(nm, n) == Join(SpellAll(nm, LowTokens(n)), " ")
  {
    if n == 0 {
    } else if n < 20 {
      assert SpellAll(nm, LowTokens(n)) == [nm.units[n]];
    } else if n % 10 == 0 {
      assert SpellAll(nm, LowTokens(n)) == [nm.tens[n / 10]];
    } else {
      LowPairSpells(nm, n);
    }
  }

  lemma LowPairSpells(nm: Numerals, n: nat)
    requires Shaped(nm) && 20 <= n < 100 && n % 10 != 0
    ensures Chunk(nm, n) == Join(SpellAll(nm, LowTokens(n)), " ")
  {
    var t, u := nm.tens[n / 10], nm.units[n % 10];
    assert Chunk(nm, n) == t + " " + u;
    assert SpellAll(nm, LowTokens(n)) == [t, u];
    assert [t, u][1..] == [u];
  }

  /** `chunk` of a number with hundreds and a non-zero rest: the hundreds word, a space, the rest. */
  lemma ChunkHundreds(nm: Numerals, n: nat)
    requires Shaped(nm) && 100 <= n < 1000 && n % 100 != 0
    ensures Chunk(nm, n) == nm.hundreds[n / 100] + " " + Chunk(nm, n % 100)
  {
  }

  lemma HundredsTokensSpell(nm: Numerals, n: nat)
    requires Shaped(nm) && 100 <= n < 1000 && n % 100 != 0
    ensures SpellAll(nm, ChunkTokens(n)) == [nm.hundreds[n / 100]] + SpellAll(nm, LowTokens(n % 100))
  {
    var q, r := n / 100, n % 100;
    assert ChunkTokens(n) == [Hundred(q)] + LowTokens(r);
    SpellAppend(nm, [Hundred(q)], LowTokens(r));
  }

  lemma HundredsSpell(nm: Numerals, n: nat)
    requires Shaped(nm) && 100 <= n < 1000 && n % 100 != 0
    ensures Chunk(nm, n) == Join(SpellAll(nm, ChunkTokens(n)), " ")
  {
    var r := n % 100;
    ChunkHundreds(nm, n);
    LowSpells(nm, r);
    HundredsTokensSpell(nm, n);
    JoinAppend([nm.hundreds[n / 100]], SpellAll(nm, LowTokens(r)), " ");
  }

  lemma RoundHundredsSpell(nm: Numerals, n: nat)
    requires Shaped(nm) && 100 <= n < 1000 && n % 100 == 0
    ensures Chunk(nm, n) == Join(SpellAll(nm, ChunkTokens(n)), " ")
  {
    assert SpellAll(nm, ChunkTokens(n)) == [nm.hundreds[n / 100]];
  }

  /** `chunk` says the words of the number, one space between them. */
  lemma ChunkSpells(nm: Numerals, n: nat)
    requires Shaped(nm) && n < 1000
    ensures Chunk(nm, n) == Join(SpellAll(nm, ChunkTokens(n)), " ")
  {
    if n < 100 {
      LowSpells(nm, n);
    } else if n % 100 != 0 {
      HundredsSpell(nm, n);
    } else {
      RoundHundredsSpell(nm, n);
    }
  }

  /** The case of `тысяча` chosen by the whole thousands count: 1, 2 to 4, or anything else. */
  function ThousandForm(t: nat): (f: nat)
    ensures 1 <= f < 4
  {
    if t == 1 then 1 else if 2 <= t <= 4 then 2 else 3
  }

  /** The thousands group of `sum_to_words`: "тысяча" alone for one thousand, otherwise the count and the noun. */
  function Group(nm: Numerals, t: nat): (r: String)
    requires Shaped(nm) && 1 <= t < 1000
    ensures var noun := nm.thousands[ThousandForm(t)];
      |noun| <= |r| && r[|r| - |noun|..] == noun
  {
    if t == 1 then nm.thousands[1]
    else Chunk(nm, t) + " " + nm.thousands[ThousandForm(t)]
  }

  function GroupTokens(t: nat): (ks: seq<Token>)
    requires 1 <= t < 1000
    ensures forall i :: 0 <= i < |ks| ==> ValidToken(ks[i])
  {
    if t == 1 then [Thousand(1)] else ChunkTokens(t) + [Thousand(ThousandForm(t))]
  }

  lemma GroupSpells(nm: Numerals, t: nat)
    requires Shaped(nm) && 1 <= t < 1000
    ensures Group(nm, t) == Join(SpellAll(nm, GroupTokens(t)), " ")
  {
    if t != 1 {
      var noun := nm.thousands[ThousandForm(t)];
      ChunkSpells(nm, t);
      SpellAppend(nm, ChunkTokens(t), [Thousand(ThousandForm(t))]);
      assert SpellAll(nm, [Thousand(ThousandForm(t))]) == [noun];
      JoinAppend(SpellAll(nm, ChunkTokens(t)), [noun], " ");
    }
  }

  /** The words of a whole number of rubles before stripping and capitalising, as `sum_to_words` collects them. */
  function RubParts(nm: Numerals, rub: int): seq<String>
    requires Shaped(nm) && rub < 1000000
  {
    (if rub >= 1000 then [Group(nm, rub / 1000)] else [])
    + (if rub > 0 && rub % 1000 != 0 then [Chunk(nm, rub % 1000)] else [])
  }

  /**
   * The rubles in words: "ноль" for zero, nothing for a negative amount, and
   * None from a million on, where `chunk` indexes past its hundreds list.
   */
  function RubText(rub: int): (r: Option<String>)
    ensures r.None? <==> rub >= 1000000
  {
    if rub == 0 then Some("ноль")
    else if rub >= 1000000 then None
    else Some(Capitalize(Strip(Join(RubParts(Russian, rub), " "))))
  }

  /** `sum_to_words(amount)` for a whole number of rubles: the figure, the words in brackets, zero kopecks. */
  function SumToWords(amount: int): (r: Option<String>)
    ensures r.None? <==> amount >= 1000000
    ensures r.Some? ==> r.value == IntToString(amount) + " (" + RubText(amount).value + ") рублей, 00 копеек"
  {
    match RubText(amount)
    case None => None
    case Some(text) => Some(IntToString(amount) + " (" + text + ") рублей, 00 копеек")
  }

  /** The words of a positive amount below a million, in the order `sum_to_words` says them. */
  function AmountTokens(rub: nat): (ks: seq<Token>)
    requires 0 < rub < 1000000
    ensures forall i :: 0 <= i < |ks| ==> ValidToken(ks[i])
  {
    (if rub >= 1000 then GroupTokens(rub / 1000) else []) + ChunkTokens(rub % 1000)
  }

  /**
   * Reading a list of number words back: the words before the thousands noun
   * count thousands (one thousand when there are none), the rest count units.
   */
  function ReadAmount(ks: seq<Token>): nat {
    var i := FirstIndex(ks, (k: Token) => k.Thousand?);
    if i == |ks| then TokensValue(ks)
    else (if i == 0 then 1 else TokensValue(ks[..i])) * 1000 + TokensValue(ks[i + 1..])
  }

  /** Words joined by single spaces leave nothing for `strip` to remove. */
  lemma {:induction false} JoinWords(ws: seq<String>)
    requires ws != [] && forall i :: 0 <= i < |ws| ==> Word(ws[i])
    ensures var s, first, last := Join(ws, " "), ws[0], ws[|ws| - 1];
      Word(first) && Word(last) && s != [] && s[0] == first[0] && s[|s| - 1] == last[|last| - 1]
    decreases |ws|
  {
    if |ws| > 1 {
      var rest := ws[1..];
      JoinWords(rest);
      assert Join(ws, " ") == ws[0] + " " + Join(rest, " ");
      assert rest[|rest| - 1] == ws[|ws| - 1];
    }
  }

  lemma TokensAreWords(nm: Numerals, ks: seq<Token>)
    requires Sound(nm) && forall i :: 0 <= i < |ks| ==> ValidToken(ks[i])
    ensures forall i :: 0 <= i < |SpellAll(nm, ks)| ==> Word(SpellAll(nm, ks)[i])
  {
    forall i | 0 <= i < |ks|
      ensures Word(Spell(nm, ks[i]))
    {
      match ks[i]
      case Unit(u) =>
      case Ten(t) =>
      case Hundred(h) =>
      case Thousand(f) =>
    }
  }

  lemma JoinPair(a: String, b: String, xs: seq<String>, ys: seq<String>)
    requires xs != [] && ys != [] && a == Join(xs, " ") && b == Join(ys, " ")
    ensures Join([a, b], " ") == Join(xs + ys, " ")
  {
    JoinAppend(xs, ys, " ");
    assert [a, b][1..] == [b];
  }

  lemma ThousandsPartsSpell(nm: Numerals, rub: nat)
    requires Shaped(nm) && 1000 <= rub < 1000000 && rub % 1000 != 0
    ensures Join(RubParts(nm, rub), " ") == Join(SpellAll(nm, AmountTokens(rub)), " ")
  {
    var t, c := rub / 1000, rub % 1000;
    assert RubParts(nm, rub) == [Group(nm, t), Chunk(nm, c)];
    assert AmountTokens(rub) == GroupTokens(t) + ChunkTokens(c);
    ChunkSpells(nm, c);
    GroupSpells(nm, t);
    SpellAppend(nm, GroupTokens(t), ChunkTokens(c));
    JoinPair(Group(nm, t), Chunk(nm, c), SpellAll(nm, GroupTokens(t)), SpellAll(nm, ChunkTokens(c)));
  }

  lemma RoundThousandsPartsSpell(nm: Numerals, rub: nat)
    requires Shaped(nm) && 1000 <= rub < 1000000 && rub % 1000 == 0
    ensures Join(RubParts(nm, rub), " ") == Join(SpellAll(nm, AmountTokens(rub)), " ")
  {
    var t := rub / 1000;
    assert RubParts(nm, rub) == [Group(nm, t)];
    GroupSpells(nm, t);
    assert AmountTokens(rub) == GroupTokens(t);
  }

  lemma SmallPartsSpell(nm: Numerals, rub: nat)
    requires Shaped(nm) && 0 < rub < 1000
    ensures Join(RubParts(nm, rub), " ") == Join(SpellAll(nm, AmountTokens(rub)), " ")
  {
    assert rub % 1000 == rub;
    assert RubParts(nm, rub) == [Chunk(nm, rub)];
    assert AmountTokens(rub) == ChunkTokens(rub);
    ChunkSpells(nm, rub);
  }

  /** The parts `sum_to_words` joins are the spelled tokens. */
  lemma PartsSpell(nm: Numerals, rub: nat)
    requires Shaped(nm) && 0 < rub < 1000000
    ensures Join(RubParts(nm, rub), " ") == Join(SpellAll(nm, AmountTokens(rub)), " ")
  {
    if rub >= 1000 && rub % 1000 != 0 {
      ThousandsPartsSpell(nm, rub);
    } else if rub >= 1000 {
      RoundThousandsPartsSpell(nm, rub);
    } else {
      SmallPartsSpell(nm, rub);
    }
  }

  /** The joined parts of a positive amount leave nothing for `strip` to remove. */
  lemma PartsStripped(nm: Numerals, rub: nat)
    requires Sound(nm) && 0 < rub < 1000000
    ensures Strip(Join(RubParts(nm, rub), " ")) == Join(SpellAll(nm, AmountTokens(rub)), " ")
  {
    var ks := AmountTokens(rub);
    var ws := SpellAll(nm, ks);
    PartsSpell(nm, rub);
    assert ws != [] by {
      assert ks != [] by {
        if rub < 1000 {
          assert ks == ChunkTokens(rub % 1000);
        }
      }
    }
    TokensAreWords(nm, ks);
    JoinWords(ws);
    var j := Join(ws, " ");
    LetterNotSpace(j[0]);
    LetterNotSpace(j[|j| - 1]);
    StripStripped(j);
  }

  /** A positive amount below a million is said by its tokens, with nothing for `strip` to remove. */
  lemma RubSpells(rub: nat)
    requires 0 < rub < 1000000
    ensures RubText(rub) == Some(Capitalize(Join(SpellAll(Russian, AmountTokens(rub)), " ")))
  {
    RussianSound();
    PartsStripped(Russian, rub);
  }

  /** A negative amount has no words: `sum_to_words` collects no part for it. */
  lemma NegativeRubText(rub: int)
    requires rub < 0
    ensures RubText(rub) == Some([])
  {
    RussianSound();
    assert RubParts(Russian, rub) == [];
  }

  /** The words `sum_to_words` writes for a positive amount below a million read back as that amount. */
  lemma AmountRead(rub: nat)
    requires 0 < rub < 1000000
    ensures ReadAmount(AmountTokens(rub)) == rub
  {
    var t, c := rub / 1000, rub % 1000;
    var ks := AmountTokens(rub);
    var p := (k: Token) => k.Thousand?;
    var low := ChunkTokens(c);
    if t == 0 {
      assert ks == low;
      assert FirstIndex(ks, p) == |ks|;
    } else {
      var g := GroupTokens(t);
      var n := |g| - 1;
      assert ks == g + low;
      assert g[n].Thousand?;
      assert g[..n] == (if t == 1 then [] else ChunkTokens(t));
      assert FirstIndex(g, p) == n;
      FirstIndexAppend(g, low, p);
      assert ks[..n] == g[..n] && ks[n + 1..] == low;
    }
  }

  /** The figures of `sum_to_words`' own example: 14100 is said "четырнадцать тысяч сто". */
  lemma FourteenThousandWords()
    ensures AmountTokens(14100) == [Unit(14), Thousand(3), Hundred(1)]
    ensures SpellAll(Russian, AmountTokens(14100)) == ["четырнадцать", "тысяч", "сто"]
  {
    assert ChunkTokens(14) == [Unit(14)];
    assert ChunkTokens(100) == [Hundred(1)];
  }

  /** The thousands noun follows the whole count, not its last digit: 21 thousand is "двадцать один тысяч". */
  lemma GroupTwentyOne()
    ensures Group(Russian, 21) == "двадцать один тысяч"
  {
  }

  // ---------------------------------------------------------------- act numbers

  /**
   * `int(float(s))` for a plain decimal: optional whitespace and sign, digits
   * with an optional fractional part, truncated toward zero; None where
   * `float` or `int` raises.
   */
  function FloatToInt(s: String): Option<int>
  {
    var t := Strip(s);
    var signed := t != [] && (t[0] == '-' || t[0] == '+');
    var u := if signed then t[1..] else t;
    var sign := if signed && t[0] == '-' then -1 else 1;
    match UnsignedFloatToInt(u)
    case None => None
    case Some(v) => Some(sign * v)
  }

  /** The same for the text after the sign: digits with an optional fractional part. */
  function UnsignedFloatToInt(u: String): Option<nat>
  {
    match IndexOf(u, ".")
    case None =>
      if u != [] && AllDigits(u) then Some(DigitsValue(u)) else None
    case Some(i) =>
      var whole, frac := u[..i], u[i + 1..];
      if (whole != [] || frac != []) && AllDigits(whole) && AllDigits(frac) then Some(DigitsValue(whole))
      else None
  }

  /** Without a '-' anywhere, what `int(float(…))` reads is never negative. */
  lemma FloatToIntNatural(s: String)
    requires Free(s, '-')
    ensures FloatToInt(s).Some? ==> FloatToInt(s).value >= 0
  {
    StripFree(s, '-');
    var t := Strip(s);
    if t != [] {
      assert t[0] != '-';
    }
  }

  /** `int(float(str(n))) == n`: the decimal form of any integer reads back as it. */
  lemma FloatToIntString(n: int)
    ensures FloatToInt(IntToString(n)) == Some(n)
  {
    if n >= 0 {
      DigitsFloat(NatToString(n));
      NatToStringValue(n);
    } else {
      var d := NatToString(-n);
      var s := IntToString(n);
      assert s == "-" + d && s[1..] == d;
      assert s[|s| - 1] == d[|d| - 1];
      StripStripped(s);
      DigitsFree(d, '.');
      ContainsChar(d, '.');
      NatToStringValue(-n);
    }
  }

  /** The piece of an act number after its last '-' (the whole number when it has none). */
  function ActPiece(s: String): (p: String)
    ensures Free(p, '-')
  {
    if Contains(s, "-") then
      var parts := Split(s, "-");
      SplitFree(s, '-');
      parts[|parts| - 1]
    else
      ContainsChar(s, '-');
      s
  }

  /** The piece as `normalize_act_number` returns it: as an integer when `int(float(…))` reads it, else without leading zeros. */
  function PieceText(p: String): (r: String)
    requires Free(p, '-')
    ensures Free(r, '-')
  {
    match FloatToInt(p)
    case Some(n) =>
      FloatToIntNatural(p);
      var d := NatToString(n);
      assert IntToString(n) == d;
      DigitsFree(d, '-');
      d
    case None =>
      var z := TrimStart(p, {'0'});
      if z != [] then z else p
  }

  lemma DigitsFree(s: String, c: char)
    requires AllDigits(s) && !IsDigit(c)
    ensures Free(s, c)
  {
  }

  /** `normalize_act_number`: "" for an empty or missing number, else the last '-'-piece as an integer or without leading zeros. */
  function NormalizeActNumber(value: String): (r: String)
    ensures Free(r, '-')
  {
    var s := Strip(value);
    if s == [] || Lower(s) == "nan" then [] else PieceText(ActPiece(s))
  }

  /** A run of digits is read by `int(float(…))` as its decimal value. */
  lemma DigitsFloat(d: String)
    requires d != [] && AllDigits(d)
    ensures FloatToInt(d) == Some(DigitsValue(d) as int)
  {
    StripStripped(d);
    DigitsFree(d, '.');
    ContainsChar(d, '.');
  }

  /** An act number whose piece `int(float(…))` reads normalises to the decimal form of that integer. */
  lemma NormalizeRead(value: String, n: nat)
    requires var s := Strip(value); s != [] && Lower(s) != "nan" && FloatToInt(ActPiece(s)) == Some(n)
    ensures NormalizeActNumber(value) == NatToString(n)
  {
  }

  lemma DigitsNotNan(d: String)
    requires d != [] && AllDigits(d)
    ensures Lower(d) != "nan"
  {
    var l := Lower(d);
    assert IsDigit(l[0]);
    assert "nan"[0] == 'n';
  }

  /** A run of digits is kept whole by `strip`, is not "nan" and has no '-' to split at. */
  lemma DigitsPiece(d: String)
    requires d != [] && AllDigits(d)
    ensures Strip(d) == d && Lower(d) != "nan" && ActPiece(d) == d
  {
    StripStripped(d);
    DigitsNotNan(d);
    DigitsFree(d, '-');
    ContainsChar(d, '-');
  }

  /**
   * A number normalises to its decimal form, and that form normalises to
   * itself: comparing normalised act numbers compares their integer values.
   */
  lemma NormalizeNumber(value: String, n: nat)
    requires var s := Strip(value); s != [] && Lower(s) != "nan" && FloatToInt(ActPiece(s)) == Some(n)
    ensures NormalizeActNumber(value) == NatToString(n)
    ensures NormalizeActNumber(NatToString(n)) == NatToString(n)
  {
    NormalizeRead(value, n);
    var d := NatToString(n);
    DigitsPiece(d);
    DigitsFloat(d);
    NatToStringValue(n);
    NormalizeRead(d, n);
  }

  /** The last piece of a split on one character is what follows the last occurrence of it. */
  lemma {:induction false} SplitLast(a: String, b: String, c: char)
    requires Free(b, c)
    ensures var parts := Split(a + [c] + b, [c]); parts[|parts| - 1] == b
    decreases |a|
  {
    var s := a + [c] + b;
    assert OccursAt(s, [c], |a|);
    ContainsIff(s, [c]);
    var i := IndexOf(s, [c]).value;
    assert s[i..i + 1] == [c];
    var rest := s[i + 1..];
    var parts := Split(s, [c]);
    assert parts == [s[..i]] + Split(rest, [c]);
    var tail := Split(rest, [c]);
    assert parts[|parts| - 1] == tail[|tail| - 1];
    if i < |a| {
      assert rest == a[i + 1..] + [c] + b;
      SplitLast(a[i + 1..], b, c);
    } else {
      SplitRestFree(s, a, b, c, i);
      ContainsChar(b, c);
      SplitHead(b, [c]);
    }
  }

  /** Past the separator written between `a` and `b`, only `b` is left. */
  lemma SplitRestFree(s: String, a: String, b: String, c: char, i: nat)
    requires s == a + [c] + b && |a| <= i < |s| && s[i..i + 1] == [c]
    requires Free(b, c)
    ensures i == |a| && s[i + 1..] == b
  {
    forall k | |a| < k < |s|
      ensures s[k] != c
    {
      assert s[k] == b[k - |a| - 1];
    }
    assert s[i] == c;
  }

  /** Only the part after the last '-' of an act number counts: "01-1" is read as "1". */
  lemma ActPieceAfterDash(a: String, b: String)
    requires Free(b, '-')
    ensures ActPiece(a + "-" + b) == b
  {
    var s := a + "-" + b;
    assert s[|a|] == '-';
    ContainsChar(s, '-');
    SplitLast(a, b, '-');
  }

  // ---------------------------------------------------------------- sheets and cells

  /** Some keyword occurs in the name, ignoring case. */
  predicate MatchesAny(name: String, keywords: seq<String>) {
    exists k :: k in keywords && Contains(Lower(name), Lower(k))
  }

  /** `find_sheet`: the first sheet whose name holds one of the keywords, else the first sheet. */
  function FindSheet(names: seq<String>, keywords: seq<String>): (r: String)
    requires |names| > 0
    ensures r in names
    ensures MatchesAny(r, keywords) ==> exists i :: 0 <= i < |names| && names[i] == r && forall j :: 0 <= j < i ==> !MatchesAny(names[j], keywords)
    ensures !MatchesAny(r, keywords) ==> r == names[0] && forall j :: 0 <= j < |names| ==> !MatchesAny(names[j], keywords)
  {
    var i := FirstIndex(names, (n: String) => MatchesAny(n, keywords));
    if i < |names| then names[i] else names[0]
  }

  const WorkSheetKeywords: seq<String> := ["работ", "work", "основн", "main"]
  const RatesSheetKeywords: seq<String> := ["справочник", "rates", "расцен", "расценки"]

  /** A timestamp pandas can hold: a real calendar day and time. */
  type Moment = t: DateTime | ValidDateTime(t) witness DateTime(2000, 1, 1, 0, 0, 0)

  /** A cell as pandas reads it: missing, a whole number, a timestamp or text. */
  datatype Value = NA | Number(n: int) | Stamp(at: Moment) | Txt(s: String)

  /** `str(value)`: "nan" for a missing cell. */
  function StrOf(v: Value): String {
    match v
    case NA => "nan"
    case Number(n) => IntToString(n)
    case Stamp(at) => DateTimeString(at)
    case Txt(s) => s
  }

  /** `int(value)`: None where it raises. */
  function IntOf(v: Value): Option<int> {
    match v
    case Number(n) => Some(n)
    case Txt(s) => ParseInt(s)
    case _ => None
  }

  /** `float(value)`, as a whole number: None where it raises. */
  function FloatOf(v: Value): Option<int> {
    match v
    case Number(n) => Some(n)
    case Txt(s) => FloatToInt(s)
    case _ => None
  }

  /**
   * `to_date`: "" for a missing value, dd.mm.yyyy for a timestamp, the text
   * itself otherwise; a number is an Excel serial day, rendered by `serial`.
   */
  function ToDate(v: Value, serial: int -> String): String
  {
    match v
    case NA => []
    case Number(n) => serial(n)
    case Stamp(at) => DottedDate(DayOf(at))
    case Txt(s) => s
  }

  /** A timestamp is written as `dd.mm.yyyy` and reads back as the day it stamps. */
  lemma ToDateStamp(at: Moment, serial: int -> String)
    ensures var r := ToDate(Stamp(at), serial);
      |r| == 10 && r[2] == '.' && r[5] == '.' && AllDigits(r[..2]) && AllDigits(r[3..5]) && AllDigits(r[6..])
      && ParseDottedDate(r) == Some(DayOf(at))
  {
    var d := DayOf(at);
    PadWidth(d.day, 2);
    PadWidth(d.month, 2);
    PadWidth(d.year, 4);
    PadValue(d.day, 2);
    PadValue(d.month, 2);
    PadValue(d.year, 4);
    var r := ToDate(Stamp(at), serial);
    assert r == Pad(d.day, 2) + "." + Pad(d.month, 2) + "." + Pad(d.year, 4);
    assert r[..2] == Pad(d.day, 2);
    assert r[3..5] == Pad(d.month, 2);
    assert r[6..] == Pad(d.year, 4);
  }

  /** Python's reading of an index into a sequence of length `n`: a negative one counts from the end. */
  function Resolve(i: int, n: nat): Option<nat> {
    if 0 <= i < n then Some(i) else if -(n as int) <= i < 0 then Some(n + i) else None
  }

  /** `safe_get`: the stripped text of a cell, or the default for a missing, blank or out-of-range one. */
  function SafeGet(table: seq<seq<Value>>, row: int, col: int, default: String): (r: String)
    ensures r == default || (r != [] && Stripped(r))
    ensures Resolve(row, |table|).None? ==> r == default
    ensures Resolve(row, |table|).Some? && Resolve(col, |table[Resolve(row, |table|).value]|).None? ==> r == default
    ensures Resolve(row, |table|).Some? && Resolve(col, |table[Resolve(row, |table|).value]|).Some? ==>
      var v := table[Resolve(row, |table|).value][Resolve(col, |table[Resolve(row, |table|).value]|).value];
      r == if v == NA || Strip(StrOf(v)) == [] then default else Strip(StrOf(v))
  {
    match Resolve(row, |table|)
    case None => default
    case Some(i) =>
      match Resolve(col, |table[i]|)
      case None => default
      case Some(j) =>
        var v := table[i][j];
        var t := Strip(StrOf(v));
        StripIsStripped(StrOf(v));
        if v == NA || t == [] then default else t
  }

  // ---------------------------------------------------------------- the rows of the act

  /** The columns of the work sheet that the act reads. */
  datatype WorkRow = WorkRow(
    act: Value,       // Номер акта
    status: Value,    // Статус
    start: Value,     // Начало работ
    end: Value,       // Конец работ
    address: Value,   // Адрес + Задание
    work: Value,      // Название работ
    cost: Value,      // Стоимость (руб)
    date: Value)      // Дата, NA in every row when the sheet has no such column

  const StatusFilter := "Выполнен"

  /** The act number: the first present value of the column, stripped and normalised; None when there is none. */
  function ActNumber(rows: seq<WorkRow>): (r: Option<String>)
    ensures r.None? <==> forall i :: 0 <= i < |rows| ==> rows[i].act.NA?
  {
    var i := FirstIndex(rows, (w: WorkRow) => !w.act.NA?);
    if i == |rows| then None else Some(NormalizeActNumber(Strip(StrOf(rows[i].act))))
  }

  /** The row mask: status holds "выполнен" in any case, the act number normalises to the act's, both dates present. */
  predicate Selected(w: WorkRow, act: String) {
    Contains(Lower(StrOf(w.status)), Lower(StatusFilter))
    && NormalizeActNumber(StrOf(w.act)) == act
    && !w.start.NA? && !w.end.NA?
  }

  /** The row filter of `generate_act`, as a predicate on one row. */
  function Mask(act: String): WorkRow -> bool {
    (w: WorkRow) => Selected(w, act)
  }

  /** `df_data[mask]`: the rows the mask keeps, in order. */
  function SelectedRows(rows: seq<WorkRow>, act: String): (r: seq<WorkRow>)
    ensures forall k :: 0 <= k < |r| ==> Selected(r[k], act) && r[k] in rows
    ensures forall k :: 0 <= k < |rows| && Selected(rows[k], act) ==> rows[k] in r
    ensures |r| == Count(rows, Mask(act))
  {
    FilterLength(rows, Mask(act));
    Filter(rows, Mask(act))
  }

  /**
   * The mask keeps order and repeats: the rows kept from two consecutive
   * stretches are those of the first followed by those of the second, and a
   * single row is kept, once, exactly when it is selected.
   */
  lemma SelectedRowsAppend(xs: seq<WorkRow>, ys: seq<WorkRow>, act: String)
    ensures SelectedRows(xs + ys, act) == SelectedRows(xs, act) + SelectedRows(ys, act)
    ensures forall w :: SelectedRows([w], act) == if Selected(w, act) then [w] else []
  {
    FilterAppend(xs, ys, Mask(act));
    forall w
      ensures SelectedRows([w], act) == if Selected(w, act) then [w] else []
    {
      assert [w][1..] == [];
    }
  }

  // ---------------------------------------------------------------- rates

  /** Columns A and C of a row of the rates sheet: the work code and its price. */
  datatype RateRow = RateRow(code: Value, price: Value)

  /** A Python dict from code to price: the codes in first-insertion order, and the prices. */
  datatype Rates = Rates(codes: seq<int>, price: map<int, int>)

  /** The dict invariant: each code once, and exactly the codes have a price. */
  ghost predicate Sane(d: Rates) {
    (forall i, j :: 0 <= i < j < |d.codes| ==> d.codes[i] != d.codes[j])
    && (forall k :: k in d.price <==> k in d.codes)
  }

  /** What one row contributes: a code and a price, when both cells are present and convert. */
  function RateEntry(r: RateRow): Option<(int, int)> {
    if r.code.NA? || r.price.NA? then None
    else
      match (IntOf(r.code), FloatOf(r.price))
      case (Some(k), Some(v)) => Some((k, v))
      case _ => None
  }

  /** `d[k] = v`: a new code goes to the end, a known one keeps its place and takes the new price. */
  function Insert(d: Rates, k: int, v: int): (e: Rates)
    requires Sane(d)
    ensures Sane(e)
    ensures e.price == d.price[k := v]
  {
    if k in d.price then Rates(d.codes, d.price[k := v]) else Rates(d.codes + [k], d.price[k := v])
  }

  /** The dict the loop over the rates sheet builds. */
  function RatesOf(rows: seq<RateRow>): (d: Rates)
    ensures Sane(d)
  {
    if rows == [] then Rates([], map[])
    else
      var d := RatesOf(rows[..|rows| - 1]);
      match RateEntry(rows[|rows| - 1])
      case None => d
      case Some((k, v)) => Insert(d, k, v)
  }

  /** The row `i` gives a price for code `k`. */
  predicate GivesCode(rows: seq<RateRow>, i: int, k: int) {
    0 <= i < |rows| && RateEntry(rows[i]).Some? && RateEntry(rows[i]).value.0 == k
  }

  /** One more row of the rates sheet sets at most the price of its own code. */
  lemma RatesStep(rows: seq<RateRow>)
    requires rows != []
    ensures var n := |rows| - 1; var e := RateEntry(rows[n]);
      RatesOf(rows).price == if e.Some? then RatesOf(rows[..n]).price[e.value.0 := e.value.1] else RatesOf(rows[..n]).price
  {
  }

  /** A row before the last gives a code in the rows exactly when it gives it in the rows without the last. */
  lemma GivesInit(rows: seq<RateRow>, i: int, k: int)
    requires 0 <= i < |rows| - 1
    ensures GivesCode(rows, i, k) == GivesCode(rows[..|rows| - 1], i, k)
  {
    assert rows[..|rows| - 1][i] == rows[i];
  }

  /** A code has a price exactly when some row gives it. */
  lemma {:induction false} RatesHas(rows: seq<RateRow>, k: int)
    ensures k in RatesOf(rows).price <==> exists i :: GivesCode(rows, i, k)
  {
    if rows != [] {
      var n := |rows| - 1;
      var init := rows[..n];
      RatesHas(init, k);
      RatesStep(rows);
      if !GivesCode(rows, n, k) {
        if exists i :: GivesCode(rows, i, k) {
          var i :| GivesCode(rows, i, k);
          GivesInit(rows, i, k);
        }
        if exists i :: GivesCode(init, i, k) {
          var i :| GivesCode(init, i, k);
          GivesInit(rows, i, k);
        }
      }
    }
  }

  /** The price of a code is the one given by the last row that gives it. */
  lemma {:induction false} RatesPrice(rows: seq<RateRow>, k: int, i: int)
    requires GivesCode(rows, i, k) && forall j :: i < j < |rows| ==> !GivesCode(rows, j, k)
    ensures k in RatesOf(rows).price && RatesOf(rows).price[k] == RateEntry(rows[i]).value.1
  {
    var n := |rows| - 1;
    var init := rows[..n];
    RatesStep(rows);
    if i < n {
      GivesInit(rows, i, k);
      forall j | i < j < n
        ensures !GivesCode(init, j, k)
      {
        GivesInit(rows, j, k);
      }
      RatesPrice(init, k, i);
      assert init[i] == rows[i];
      assert !GivesCode(rows, n, k);
    }
  }

  /** A code has a price exactly when some row gives it, and the price is that of the last such row. */
  lemma RatesOfLast(rows: seq<RateRow>, k: int)
    ensures k in RatesOf(rows).price <==> exists i :: GivesCode(rows, i, k)
    ensures forall i :: GivesCode(rows, i, k) && (forall j :: i < j < |rows| ==> !GivesCode(rows, j, k)) ==>
      RatesOf(rows).price[k] == RateEntry(rows[i]).value.1
  {
    RatesHas(rows, k);
    forall i | GivesCode(rows, i, k) && (forall j :: i < j < |rows| ==> !GivesCode(rows, j, k))
      ensures RatesOf(rows).price[k] == RateEntry(rows[i]).value.1
    {
      RatesPrice(rows, k, i);
    }
  }

  /** The loop of `generate_act` over the rates sheet. */
  method BuildRates(rows: seq<RateRow>) returns (d: Rates)
    ensures d == RatesOf(rows)
  {
    d := Rates([], map[]);
    var i := 0;
    while i < |rows|
      invariant 0 <= i <= |rows|
      invariant d == RatesOf(rows[..i])
    {
      assert rows[..i + 1][..i] == rows[..i];
      match RateEntry(rows[i]) {
        case None =>
        case Some((k, v)) =>
          if k in d.price {
            d := Rates(d.codes, d.price[k := v]);
          } else {
            d := Rates(d.codes + [k], d.price[k := v]);
          }
      }
      i := i + 1;
    }
    assert rows[..i] == rows;
  }

  // ---------------------------------------------------------------- cost

  /** The code `k` is cited in the work name as "k.". */
  predicate Cites(desc: String, k: int) { Contains(desc, IntToString(k) + ".") }

  /**
   * `get_cost`: the cost column when present and numeric; otherwise the price
   * of the first code, in dict order, cited in the work name; otherwise 0.
   */
  function GetCost(w: WorkRow, d: Rates): (c: int)
    requires Sane(d)
    ensures FloatOf(w.cost).Some? && !w.cost.NA? ==> c == FloatOf(w.cost).value
    ensures (w.cost.NA? || FloatOf(w.cost).None?) ==>
      (c == 0 && forall k :: k in d.codes ==> !Cites(StrOf(w.work), k))
      || (exists i :: 0 <= i < |d.codes| && Cites(StrOf(w.work), d.codes[i]) && c == d.price[d.codes[i]]
            && forall j :: 0 <= j < i ==> !Cites(StrOf(w.work), d.codes[j]))
  {
    if !w.cost.NA? && FloatOf(w.cost).Some? then FloatOf(w.cost).value
    else
      var desc := StrOf(w.work);
      var i := FirstIndex(d.codes, (k: int) => Cites(desc, k));
      if i < |d.codes| then d.price[d.codes[i]] else 0
  }

  function Costs(rows: seq<WorkRow>, d: Rates): (cs: seq<int>)
    requires Sane(d)
    ensures |cs| == |rows| && forall i :: 0 <= i < |rows| ==> cs[i] == GetCost(rows[i], d)
  {
    if rows == [] then [] else [GetCost(rows[0], d)] + Costs(rows[1..], d)
  }

  function Total(cs: seq<int>): int {
    if cs == [] then 0 else cs[0] + Total(cs[1..])
  }

  // ---------------------------------------------------------------- the act

  /** A filled act: its number, its rows, the rate dict, the cost of each row, the total and the total in words. */
  datatype Act = Act(number: String, rows: seq<WorkRow>, rates: Rates, costs: seq<int>, total: int, words: String)

  /** What `generate_act` ends with: a filled act, or the exit before any cell is written. */
  datatype Outcome = Filled(act: Act) | NoActNumber | NoRows | PeriodUncomparable | AmountTooLarge

  /** The kinds of cell value Python can order among themselves: numbers, timestamps, texts. */
  datatype Kind = NumberKind | StampKind | TextKind

  function KindOf(v: Value): Kind
    requires !v.NA?
  {
    match v
    case Number(_) => NumberKind
    case Stamp(_) => StampKind
    case Txt(_) => TextKind
  }

  /**
   * `.min()` or `.max()` of a column skips the missing values and raises
   * `TypeError` when the others mix kinds that cannot be ordered: a timestamp
   * with a text or a number, a text with a number.
   */
  predicate Orderable(vs: seq<Value>) {
    forall i, j :: 0 <= i < |vs| && 0 <= j < |vs| && !vs[i].NA? && !vs[j].NA? ==> KindOf(vs[i]) == KindOf(vs[j])
  }

  /** The period of the act (`Начало работ` min, `Конец работ` max) and the act date (`Дата` max) can be computed. */
  predicate PeriodOrderable(rows: seq<WorkRow>) {
    && Orderable(seq(|rows|, i requires 0 <= i < |rows| => rows[i].start))
    && Orderable(seq(|rows|, i requires 0 <= i < |rows| => rows[i].end))
    && Orderable(seq(|rows|, i requires 0 <= i < |rows| => rows[i].date))
  }

  /**
   * Everything `generate_act` decides before it opens the template: it stops
   * without an act number, without a selected row, when the period or the act
   * date cannot be computed, or when the total is too large to say in words;
   * otherwise the act holds the selected rows, their costs under the rate dict
   * and the total in words.
   */
  function Plan(data: seq<WorkRow>, rateRows: seq<RateRow>): (out: Outcome)
    ensures out == NoActNumber <==> ActNumber(data).None?
    ensures out == NoRows <==> ActNumber(data).Some? && SelectedRows(data, ActNumber(data).value) == []
    ensures out == PeriodUncomparable <==>
      (ActNumber(data).Some? && SelectedRows(data, ActNumber(data).value) != []
       && !PeriodOrderable(SelectedRows(data, ActNumber(data).value)))
    ensures out == AmountTooLarge ==> PeriodOrderable(SelectedRows(data, ActNumber(data).value)) && Total(Costs(SelectedRows(data, ActNumber(data).value), RatesOf(rateRows))) >= 1000000
    ensures out.Filled? ==> var a := out.act;
      Some(a.number) == ActNumber(data) && a.rows == SelectedRows(data, a.number) && a.rows != [] && PeriodOrderable(a.rows)
      && a.rates == RatesOf(rateRows) && a.costs == Costs(a.rows, a.rates) && |a.costs| == |a.rows|
      && a.total == Total(a.costs) && a.total < 1000000 && SumToWords(a.total) == Some(a.words)
  {
    match ActNumber(data)
    case None => NoActNumber
    case Some(number) =>
      var rows := SelectedRows(data, number);
      if rows == [] then NoRows
      else if !PeriodOrderable(rows) then PeriodUncomparable
      else
        var rates := RatesOf(rateRows);
        var costs := Costs(rows, rates);
        var total := Total(costs);
        match SumToWords(total)
        case None => AmountTooLarge
        case Some(words) => Filled(Act(number, rows, rates, costs, total, words))
  }

  /**
   * Two selected rows whose start dates differ in kind, say a timestamp and a
   * text, make `.min()` raise, and the script exits before the template is
   * opened; the same holds for the end dates.
   */
  lemma MixedPeriodStops(data: seq<WorkRow>, rateRows: seq<RateRow>, i: nat, j: nat)
    requires ActNumber(data).Some?
    requires var rows := SelectedRows(data, ActNumber(data).value);
      i < |rows| && j < |rows|
      && ((!rows[i].start.NA? && !rows[j].start.NA? && KindOf(rows[i].start) != KindOf(rows[j].start))
          || (!rows[i].end.NA? && !rows[j].end.NA? && KindOf(rows[i].end) != KindOf(rows[j].end)))
    ensures Plan(data, rateRows) == PeriodUncomparable
  {
    MixedKindsUnorderable(SelectedRows(data, ActNumber(data).value), i, j);
  }

  /** Rows whose start dates, or whose end dates, mix two kinds cannot be ordered by `.min()`/`.max()`. */
  lemma MixedKindsUnorderable(rows: seq<WorkRow>, i: nat, j: nat)
    requires i < |rows| && j < |rows|
    requires (!rows[i].start.NA? && !rows[j].start.NA? && KindOf(rows[i].start) != KindOf(rows[j].start))
          || (!rows[i].end.NA? && !rows[j].end.NA? && KindOf(rows[i].end) != KindOf(rows[j].end))
    ensures !PeriodOrderable(rows)
  {
    var starts := seq(|rows|, k requires 0 <= k < |rows| => rows[k].start);
    var ends := seq(|rows|, k requires 0 <= k < |rows| => rows[k].end);
    assert starts[i] == rows[i].start && starts[j] == rows[j].start;
    assert ends[i] == rows[i].end && ends[j] == rows[j].end;
  }

  const FirstDataRow: nat := 13
  const TableSheet := "Задание_Отчет_Форма_1-3"

  /** The nine cells of one act row: the task on the left (A to D), the report on the right (G to K). */
  function ActRow(address: String, start: String, end: String, name: String, cost: int): (m: map<nat, Cell>)
    ensures m.Keys == {1, 2, 3, 4, 7, 8, 9, 10, 11}
    ensures m[7] == m[1] == FromString(address) && m[8] == m[2] == FromString(start)
    ensures m[9] == m[3] == FromString(end) && m[10] == m[4] == FromString(name)
    ensures m[11] == Int(cost)
  {
    map[1 := FromString(address), 2 := FromString(start), 3 := FromString(end), 4 := FromString(name),
        7 := FromString(address), 8 := FromString(start), 9 := FromString(end), 10 := FromString(name),
        11 := Int(cost)]
  }

  /** The row written for a selected work: its address and work name stripped, its dates as `to_date` gives them. */
  function RowOf(w: WorkRow, cost: int, serial: int -> String): map<nat, Cell> {
    ActRow(Strip(StrOf(w.address)), ToDate(w.start, serial), ToDate(w.end, serial), Strip(StrOf(w.work)), cost)
  }

  /** The rows of the act table, one per selected work with its cost, in order. */
  function TableRows(rows: seq<WorkRow>, costs: seq<int>, serial: int -> String): (t: seq<map<nat, Cell>>)
    requires |costs| == |rows|
    ensures |t| == |rows|
  {
    if rows == [] then []
    else
      var n := |rows| - 1;
      TableRows(rows[..n], costs[..n], serial) + [RowOf(rows[n], costs[n], serial)]
  }

  lemma TableRowsSnoc(rows: seq<WorkRow>, costs: seq<int>, serial: int -> String, i: nat)
    requires |costs| == |rows| && i < |rows|
    ensures TableRows(rows[..i + 1], costs[..i + 1], serial) == TableRows(rows[..i], costs[..i], serial) + [RowOf(rows[i], costs[i], serial)]
  {
    assert rows[..i + 1][..i] == rows[..i] && costs[..i + 1][..i] == costs[..i];
  }

  /** The sum formula under the table, summing column K from row 13 to the row above it. */
  function SumFormula(row: nat): String {
    "=СУММ(K$13:СМЕЩ(K" + NatToString(row) + ";-1;0))"
  }

  /** Everything written to the table sheet besides the act number: the rows, the sum under them, the words under that. */
  function Table(rows: seq<map<nat, Cell>>, words: String): map<Key, Cell> {
    var n := |rows|;
    Rows(FirstDataRow, rows)
    + InRow(FirstDataRow + n, map[11 := FromString(SumFormula(FirstDataRow + n))])
    + InRow(FirstDataRow + n + 1, map[10 := FromString(words)])
  }

  /** `max_row` after `n` rows of the table are written from row 13 on a sheet whose `max_row` was `m0`. */
  function TableEnd(m0: nat, n: nat): nat {
    if n == 0 then m0 else Max(m0, FirstDataRow + n - 1)
  }

  lemma TableEndStep(m0: nat, n: nat)
    ensures TableEnd(m0, n + 1) == Max(TableEnd(m0, n), FirstDataRow + n)
  {
  }

  /** Writing the two rows under the table leaves `max_row` at the lower of them or above. */
  lemma TableEndClose(m0: nat, n: nat)
    ensures Max(Max(TableEnd(m0, n), FirstDataRow + n), FirstDataRow + n + 1) == Max(m0, FirstDataRow + n + 1)
  {
  }

  /** The position of the table sheet in the template, `|book|` when it has none. */
  function TableIndex(book: seq<Worksheet>): nat {
    FirstIndex(book, (ws: Worksheet) => ws.title == TableSheet)
  }

  /** The nine `safe_write` calls for one row of the act table. */
  method WriteActRow(ws: Worksheet, row: nat, address: String, start: String, end: String, name: String, cost: int)
    requires ws.Valid() && row >= 1
    modifies ws
    ensures ws.Valid() && ws.maxRow == Max(old(ws.maxRow), row)
    ensures ws.cells == old(ws.cells) + InRow(row, ActRow(address, start, end, name, cost))
  {
    ghost var before := ws.cells;
    ghost var m: map<nat, Cell> := map[];
    assert before + InRow(row, m) == before;
    m := ws.PutWhen(true, row, 1, FromString(address), before, m);
    m := ws.PutWhen(true, row, 2, FromString(start), before, m);
    m := ws.PutWhen(true, row, 3, FromString(end), before, m);
    m := ws.PutWhen(true, row, 4, FromString(name), before, m);
    m := ws.PutWhen(true, row, 7, FromString(address), before, m);
    m := ws.PutWhen(true, row, 8, FromString(start), before, m);
    m := ws.PutWhen(true, row, 9, FromString(end), before, m);
    m := ws.PutWhen(true, row, 10, FromString(name), before, m);
    m := ws.PutWhen(true, row, 11, Int(cost), before, m);
    assert m == ActRow(address, start, end, name, cost);
  }

  /** One pass of the fill loop: the row of the i-th work goes to row 13 + i, below those already written. */
  method AppendActRow(ws: Worksheet, rows: seq<WorkRow>, costs: seq<int>, serial: int -> String, i: nat,
                      ghost base: map<Key, Cell>, ghost m0: nat)
    requires |costs| == |rows| && i < |rows|
    requires ws.Valid() && ws.cells == base + Rows(FirstDataRow, TableRows(rows[..i], costs[..i], serial))
    requires ws.maxRow == TableEnd(m0, i)
    modifies ws
    ensures ws.Valid() && ws.maxRow == TableEnd(m0, i + 1)
    ensures ws.cells == base + Rows(FirstDataRow, TableRows(rows[..i + 1], costs[..i + 1], serial))
  {
    var w := rows[i];
    var address := Strip(StrOf(w.address));
    var start := ToDate(w.start, serial);
    var end := ToDate(w.end, serial);
    var name := Strip(StrOf(w.work));
    WriteActRow(ws, FirstDataRow + i, address, start, end, name, costs[i]);
    TableEndStep(m0, i);
    TableRowsSnoc(rows, costs, serial, i);
    RowsSnoc(base, FirstDataRow, TableRows(rows[..i], costs[..i], serial), ActRow(address, start, end, name, costs[i]));
  }

  /** The fill loop of the table sheet: row 13 + i holds the i-th selected work. */
  method FillRows(ws: Worksheet, rows: seq<WorkRow>, costs: seq<int>, serial: int -> String)
    requires ws.Valid() && |costs| == |rows|
    modifies ws
    ensures ws.Valid() && ws.maxRow == TableEnd(old(ws.maxRow), |rows|)
    ensures ws.cells == old(ws.cells) + Rows(FirstDataRow, TableRows(rows, costs, serial))
  {
    ghost var base := ws.cells;
    ghost var m0 := ws.maxRow;
    var i := 0;
    while i < |rows|
      invariant 0 <= i <= |rows| && ws.Valid()
      invariant ws.cells == base + Rows(FirstDataRow, TableRows(rows[..i], costs[..i], serial))
      invariant ws.maxRow == TableEnd(m0, i)
    {
      AppendActRow(ws, rows, costs, serial, i, base, m0);
      i := i + 1;
    }
    WholePrefix(rows, i);
    WholePrefix(costs, i);
  }

  /** The table sheet: the rows, then the sum formula and the total in words under them. */
  method FillTable(ws: Worksheet, rows: seq<WorkRow>, costs: seq<int>, serial: int -> String, words: String)
    requires ws.Valid() && |costs| == |rows|
    modifies ws
    ensures ws.Valid() && ws.maxRow == Max(old(ws.maxRow), FirstDataRow + |rows| + 1)
    ensures ws.cells == old(ws.cells) + Table(TableRows(rows, costs, serial), words)
  {
    ghost var c0, m0 := ws.cells, ws.maxRow;
    FillRows(ws, rows, costs, serial);
    ghost var body := Rows(FirstDataRow, TableRows(rows, costs, serial));
    var sumRow := FirstDataRow + |rows|;
    ghost var c1 := ws.cells;
    ws.Set(sumRow, 11, FromString(SumFormula(sumRow)));
    SetIsInRow(c1, sumRow, 11, FromString(SumFormula(sumRow)));
    ghost var sum := InRow(sumRow, map[11 := FromString(SumFormula(sumRow))]);
    ghost var c2 := ws.cells;
    ws.Set(sumRow + 1, 10, FromString(words));
    SetIsInRow(c2, sumRow + 1, 10, FromString(words));
    ghost var total := InRow(sumRow + 1, map[10 := FromString(words)]);
    TableEndClose(m0, |rows|);
    UnionAssoc(c0, body, sum);
    UnionAssoc(c0, body + sum, total);
  }

  /** The act number as the header cell C5 of every sheet shows it. */
  function Header(number: String): Cell {
    FromString("№ " + number)
  }

  /** The header loop: C5 of every sheet of the template gets the act number. */
  method WriteHeaders(book: seq<Worksheet>, number: String)
    requires forall i :: 0 <= i < |book| ==> book[i].Valid()
    requires forall i, j :: 0 <= i < j < |book| ==> book[i] != book[j]
    modifies set ws | ws in book
    ensures forall i :: 0 <= i < |book| ==> book[i].Valid()
    ensures forall i :: 0 <= i < |book| ==> Stamped(book[i], old(book[i].cells), old(book[i].maxRow), number)
  {
    var i := 0;
    while i < |book|
      invariant 0 <= i <= |book|
      invariant forall j :: 0 <= j < |book| ==> book[j].Valid()
      invariant forall j :: 0 <= j < i ==> book[j].cells == old(book[j].cells)[(5, 3) := Header(number)]
      invariant forall j :: 0 <= j < i ==> book[j].maxRow == Max(old(book[j].maxRow), 5)
      invariant forall j :: i <= j < |book| ==> book[j].cells == old(book[j].cells) && book[j].maxRow == old(book[j].maxRow)
    {
      book[i].Set(5, 3, Header(number));
      i := i + 1;
    }
  }

  /** A sheet of the template that only got the act number: C5 set, `max_row` at least 5. */
  ghost predicate Stamped(ws: Worksheet, cells0: map<Key, Cell>, max0: nat, number: String)
    reads ws
  {
    ws.cells == cells0[(5, 3) := Header(number)] && ws.maxRow == Max(max0, 5)
  }

  /** The table sheet after filling: C5 set, then the rows of the act, the sum formula and the words under them. */
  ghost predicate Tabled(ws: Worksheet, cells0: map<Key, Cell>, max0: nat, number: String, table: seq<map<nat, Cell>>, words: String)
    reads ws
  {
    ws.cells == cells0[(5, 3) := Header(number)] + Table(table, words)
    && ws.maxRow == Max(Max(max0, 5), FirstDataRow + |table| + 1)
  }

  /** The table sheet filled with the rows, costs and words of act `a`. */
  ghost predicate ActTabled(ws: Worksheet, cells0: map<Key, Cell>, max0: nat, a: Act, serial: int -> String)
    reads ws
  {
    |a.costs| == |a.rows| && Tabled(ws, cells0, max0, a.number, TableRows(a.rows, a.costs, serial), a.words)
  }

  /** Step 9 of `generate_act`: the header of every sheet, then the table on sheet `t`, the table sheet, when the template has one (`t < |book|`). */
  method FillTemplate(book: seq<Worksheet>, t: nat, a: Act, serial: int -> String)
    requires |a.costs| == |a.rows|
    requires forall i :: 0 <= i < |book| ==> book[i].Valid()
    requires forall i, j :: 0 <= i < j < |book| ==> book[i] != book[j]
    modifies set ws | ws in book
    ensures forall i :: 0 <= i < |book| && i != t ==>
      Stamped(book[i], old(book[i].cells), old(book[i].maxRow), a.number)
    ensures t < |book| ==> ActTabled(book[t], old(book[t].cells), old(book[t].maxRow), a, serial)
  {
    WriteHeaders(book, a.number);
    if t < |book| {
      var ws := book[t];
      ghost var table := TableRows(a.rows, a.costs, serial);
      ghost var stamped := old(ws.cells)[(5, 3) := Header(a.number)];
      assert Stamped(ws, old(ws.cells), old(ws.maxRow), a.number);
      assert ws.cells == stamped && ws.maxRow == Max(old(ws.maxRow), 5);
      assert forall i :: 0 <= i < |book| && i != t ==> book[i] != ws;
      FillTable(ws, a.rows, a.costs, serial, a.words);
      assert ws.cells == stamped + Table(table, a.words);
      assert Tabled(ws, old(ws.cells), old(ws.maxRow), a.number, table, a.words);
    }
  }

  /**
   * Steps 1 to 8 of `generate_act`, before the template is opened: the act
   * number, the selected rows, the rate dict, the costs, the total and its
   * words, or the exit that stops the script.
   */
  method Decide(data: seq<WorkRow>, rateRows: seq<RateRow>) returns (out: Outcome)
    ensures out == Plan(data, rateRows)
  {
    var number := ActNumber(data);
    if number.None? {
      return NoActNumber;
    }
    var rows := SelectedRows(data, number.value);
    if rows == [] {
      return NoRows;
    }
    if !PeriodOrderable(rows) {
      return PeriodUncomparable;
    }
    var rates := BuildRates(rateRows);
    var costs := Costs(rows, rates);
    var total := Total(costs);
    var words := SumToWords(total);
    if words.None? {
      return AmountTooLarge;
    }
    out := Filled(Act(number.value, rows, rates, costs, total, words.value));
  }

  /**
   * `generate_act` from the loaded sheets to the filled template: nothing is
   * written when it stops early; otherwise C5 of every sheet holds the act
   * number and the table sheet, when the template has one, holds the rows, the
   * sum formula and the total in words.
   */
  method GenerateAct(book: seq<Worksheet>, data: seq<WorkRow>, rateRows: seq<RateRow>, serial: int -> String)
    returns (out: Outcome)
    requires forall i :: 0 <= i < |book| ==> book[i].Valid()
    requires forall i, j :: 0 <= i < j < |book| ==> book[i] != book[j]
    modifies set ws | ws in book
    ensures out == Plan(data, rateRows)
    ensures !out.Filled? ==> forall i :: 0 <= i < |book| ==> book[i].cells == old(book[i].cells) && book[i].maxRow == old(book[i].maxRow)
    ensures out.Filled? ==> forall i :: 0 <= i < |book| && i != TableIndex(book) ==>
      Stamped(book[i], old(book[i].cells), old(book[i].maxRow), out.act.number)
    ensures out.Filled? && TableIndex(book) < |book| ==>
      ActTabled(book[TableIndex(book)], old(book[TableIndex(book)].cells), old(book[TableIndex(book)].maxRow), out.act, serial)
  {
    out := Plan(data, rateRows);
    if out.Filled? {
      FillTemplate(book, TableIndex(book), out.act, serial);
    }
  }
}
