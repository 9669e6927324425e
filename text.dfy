/**
 * String helpers with the meaning Python gives them: whitespace, case folding,
 * `strip`, `in`, `find`, `split`/`join`, `str(int)` and `int(str)`.
 */
module Text {
  import opened Wrappers

  type String = seq<char>

  // ---------------------------------------------------------------- characters

  /** The six characters of Python's `string.whitespace`: a subset of what `str.strip()` and `\s` treat as whitespace. */
  const Whitespace: set<char> := {' ', '\t', '\n', '\r', '\U{0B}', '\U{0C}'}

  predicate IsSpace(c: char) { c in Whitespace }

  predicate IsDigit(c: char) { '0' <= c <= '9' }

  predicate IsCyrillicUpper(c: char) { 'А' <= c <= 'Я' || c == 'Ё' }

  predicate IsCyrillicLower(c: char) { 'а' <= c <= 'я' || c == 'ё' }

  /** A subset of the characters of `\w`: ASCII letters and digits, '_' and the Russian alphabet. */
  predicate IsWord(c: char) {
    IsDigit(c) || 'a' <= c <= 'z' || 'A' <= c <= 'Z' || c == '_'
    || IsCyrillicUpper(c) || IsCyrillicLower(c)
  }

  /** `str.lower()` on one character, for Latin and Russian letters. */
  function LowerChar(c: char): (d: char)
    ensures 'A' <= c <= 'Z' ==> 'a' <= d <= 'z'
    ensures IsCyrillicUpper(c) ==> IsCyrillicLower(d)
    ensures !('A' <= c <= 'Z') && !IsCyrillicUpper(c) ==> d == c
    ensures IsDigit(d) <==> IsDigit(c)
    ensures IsSpace(d) <==> IsSpace(c)
  {
    if 'A' <= c <= 'Z' then (c as int + 32) as char
    else if 'А' <= c <= 'Я' then (c as int + 32) as char
    else if c == 'Ё' then 'ё'
    else c
  }

  /** `str.upper()` on one character, for Latin and Russian letters. */
  function UpperChar(c: char): (d: char)
    ensures 'a' <= c <= 'z' ==> 'A' <= d <= 'Z'
    ensures IsCyrillicLower(c) ==> IsCyrillicUpper(d)
    ensures IsCyrillicLower(c) || 'a' <= c <= 'z' ==> LowerChar(d) == c
  {
    if 'a' <= c <= 'z' then (c as int - 32) as char
    else if 'а' <= c <= 'я' then (c as int - 32) as char
    else if c == 'ё' then 'Ё'
    else c
  }

  /** `s.lower()`. */
  function Lower(s: String): (r: String)
    ensures |r| == |s|
    ensures forall i :: 0 <= i < |s| ==> r[i] == LowerChar(s[i])
  {
    seq(|s|, i requires 0 <= i < |s| => LowerChar(s[i]))
  }

  lemma LowerIdempotent(s: String)
    ensures Lower(Lower(s)) == Lower(s)
  {
    assert forall i :: 0 <= i < |s| ==> LowerChar(LowerChar(s[i])) == LowerChar(s[i]);
  }

  lemma LowerAppend(a: String, b: String)
    ensures Lower(a + b) == Lower(a) + Lower(b)
  {
    assert forall i :: 0 <= i < |a + b| ==> Lower(a + b)[i] == (Lower(a) + Lower(b))[i];
  }

  lemma LowerSlice(s: String, i: nat, j: nat)
    requires i <= j <= |s|
    ensures Lower(s[i..j]) == Lower(s)[i..j]
  {
  }

  /** Case-insensitive equality, as `re.IGNORECASE` compares characters. */
  predicate EqualCI(a: String, b: String) { Lower(a) == Lower(b) }

  /** `s.capitalize()` for a string whose letters are already lower case: upper-cases the first character. */
  function Capitalize(s: String): (r: String)
    ensures |r| == |s| && (|s| > 0 ==> r[1..] == s[1..])
  {
    if s == [] then [] else [UpperChar(s[0])] + s[1..]
  }

  // ---------------------------------------------------------------- search

  /** `p` occurs in `s` starting at index `i`. */
  predicate OccursAt(s: String, p: String, i: nat) {
    i + |p| <= |s| && s[i..i + |p|] == p
  }

  /** `s.find(p, from)`: the first index at or after `from` where `p` occurs. */
  function IndexFrom(s: String, p: String, from: nat): (r: Option<nat>)
    decreases |s| - from
    ensures r.Some? ==> from <= r.value && OccursAt(s, p, r.value)
    ensures r.Some? ==> forall j :: from <= j < r.value ==> !OccursAt(s, p, j)
    ensures r.None? ==> forall j :: from <= j ==> !OccursAt(s, p, j)
  {
    if from + |p| > |s| then None
    else if s[from..from + |p|] == p then Some(from)
    else IndexFrom(s, p, from + 1)
  }

  /** `s.find(p)`. */
  function IndexOf(s: String, p: String): Option<nat> { IndexFrom(s, p, 0) }

  /** Python's `p in s`. */
  predicate Contains(s: String, p: String) { IndexOf(s, p).Some? }

  lemma ContainsIff(s: String, p: String)
    ensures Contains(s, p) <==> exists i: nat :: OccursAt(s, p, i)
  {
    if !Contains(s, p) {
      assert forall j: nat :: 0 <= j ==> !OccursAt(s, p, j);
    }
  }

  /** A string contains every slice of itself. */
  lemma ContainsSlice(s: String, i: nat, j: nat)
    requires i <= j <= |s|
    ensures Contains(s, s[i..j])
  {
    assert OccursAt(s, s[i..j], i);
    ContainsIff(s, s[i..j]);
  }

  /** A string contains its own suffix. */
  lemma ContainsSuffix(a: String, b: String)
    ensures Contains(a + b, b)
  {
    assert (a + b)[|a|..|a + b|] == b;
    ContainsSlice(a + b, |a|, |a + b|);
  }

  /** An occurrence inside a prefix is an occurrence in the whole string. */
  lemma ContainsInPrefix(s: String, t: String, p: String)
    requires Contains(s, p)
    ensures Contains(s + t, p)
  {
    var i := IndexOf(s, p).value;
    assert (s + t)[i..i + |p|] == s[i..i + |p|];
    assert OccursAt(s + t, p, i);
    ContainsIff(s + t, p);
  }

  /** `Contains` is transitive through a contained string. */
  lemma ContainsTrans(s: String, m: String, p: String)
    requires Contains(s, m)
    ensures Contains(m, p) ==> Contains(s, p)
  {
    if Contains(m, p) {
      var i := IndexOf(s, m).value;
      var k := IndexOf(m, p).value;
      assert s[i..i + |m|] == m && m[k..k + |p|] == p;
      forall t | 0 <= t < |p|
        ensures s[i + k + t] == p[t]
      {
        assert s[i + k + t] == s[i..i + |m|][k + t];
        assert p[t] == m[k..k + |p|][t];
      }
      assert s[i + k..i + k + |p|] == p;
      assert OccursAt(s, p, i + k);
      ContainsIff(s, p);
    }
  }

  /**
   * Behind a text `a` followed by ". ", a needle that holds no full stop, does
   * not start with whitespace and does not occur in `a` is first found where
   * it is written after the ". ".
   */
  lemma FirstAfterStop(a: String, m: String, t: String)
    requires m != [] && Free(m, '.') && !IsSpace(m[0]) && !Contains(a, m)
    ensures IndexOf(a + ". " + (m + t), m) == Some(|a| + 2)
  {
    var s := a + ". " + (m + t);
    assert s[|a|] == '.' && s[|a| + 1] == ' ';
    assert s[|a| + 2..|a| + 2 + |m|] == m;
    forall p | 0 <= p < |a| + 2
      ensures !OccursAt(s, m, p)
    {
      if p + |m| <= |a| {
        assert s[p..p + |m|] == a[p..p + |m|];
        assert !OccursAt(a, m, p);
      } else if p <= |a| {
        assert p + |m| <= |s| ==> s[p..p + |m|][|a| - p] == '.';
      } else {
        assert p + |m| <= |s| ==> s[p..p + |m|][0] == ' ';
      }
    }
    assert OccursAt(s, m, |a| + 2);
  }

  /** Nothing before the first occurrence of `p` holds `p`. */
  lemma BeforeFirstFree(s: String, p: String)
    requires |p| > 0 && IndexOf(s, p).Some?
    ensures !Contains(s[..IndexOf(s, p).value], p)
  {
    var i := IndexOf(s, p).value;
    var pre := s[..i];
    forall j: nat
      ensures !OccursAt(pre, p, j)
    {
      if j + |p| <= i {
        assert pre[j..j + |p|] == s[j..j + |p|];
        assert !OccursAt(s, p, j);
      }
    }
    ContainsIff(pre, p);
  }

  // ---------------------------------------------------------------- strip

  /** `c` does not occur in `s`. */
  predicate Free(s: String, c: char) { forall i :: 0 <= i < |s| ==> s[i] != c }

  /** `s.lstrip(cs)`. */
  function TrimStart(s: String, cs: set<char>): (r: String)
    ensures |r| <= |s| && r == s[|s| - |r|..]
    ensures r == [] || r[0] !in cs
  {
    if s != [] && s[0] in cs then TrimStart(s[1..], cs) else s
  }

  /** `s.rstrip(cs)`. */
  function TrimEnd(s: String, cs: set<char>): (r: String)
    ensures |r| <= |s| && r == s[..|r|]
    ensures r == [] || r[|r| - 1] !in cs
  {
    if s != [] && s[|s| - 1] in cs then TrimEnd(s[..|s| - 1], cs) else s
  }

  /** `s.strip(cs)`: `s` without its leading and trailing characters from `cs`. */
  function StripChars(s: String, cs: set<char>): (r: String)
    ensures |r| <= |s|
    ensures r == [] || (r[0] !in cs && r[|r| - 1] !in cs)
  {
    TrimEnd(TrimStart(s, cs), cs)
  }

  /** The stripped string is a slice of the original. */
  lemma StripCharsSlice(s: String, cs: set<char>)
    ensures Contains(s, StripChars(s, cs))
  {
    var t := TrimStart(s, cs);
    var r := TrimEnd(t, cs);
    assert r == s[|s| - |t|..|s| - |t| + |r|];
    ContainsSlice(s, |s| - |t|, |s| - |t| + |r|);
  }

  /** `s.strip()`. */
  function Strip(s: String): String { StripChars(s, Whitespace) }

  /** A string is "stripped" when it neither starts nor ends with whitespace. */
  predicate Stripped(s: String) { s == [] || (!IsSpace(s[0]) && !IsSpace(s[|s| - 1])) }

  lemma StripIsStripped(s: String)
    ensures Stripped(Strip(s)) && Contains(s, Strip(s))
  {
    StripCharsSlice(s, Whitespace);
  }

  /** `s.strip()` is the slice of `s` from index `i`. */
  lemma StripSlice(s: String) returns (i: nat)
    ensures i + |Strip(s)| <= |s| && Strip(s) == s[i..i + |Strip(s)|]
  {
    var t := TrimStart(s, Whitespace);
    i := |s| - |t|;
    assert Strip(s) == t[..|Strip(s)|];
  }

  /** Stripping cannot introduce a character. */
  lemma StripFree(s: String, c: char)
    requires Free(s, c)
    ensures Free(Strip(s), c)
  {
    var i := StripSlice(s);
    assert forall k :: 0 <= k < |Strip(s)| ==> Strip(s)[k] == s[i + k];
  }

  /** A text that starts with a non-space keeps, when stripped, everything up to any later non-space. */
  lemma StripKeepsPrefix(s: String, k: nat)
    requires k < |s| && !IsSpace(s[0]) && !IsSpace(s[k])
    ensures |Strip(s)| > k && Strip(s)[..k + 1] == s[..k + 1]
  {
    assert TrimStart(s, Whitespace) == s;
    TrimEndRemoves(s, Whitespace);
  }

  /** A stripped text followed by ". " strips to the text and its full stop. */
  lemma StripStop(a: String)
    requires Stripped(a)
    ensures Strip(a + ". ") == a + "."
  {
    var x := a + ". ";
    assert x[0] !in Whitespace by {
      if a != [] {
        assert x[0] == a[0];
      }
    }
    assert TrimStart(x, Whitespace) == x;
    assert x[|x| - 1] in Whitespace;
    assert x[..|x| - 1] == a + ".";
    assert (a + ".")[|a|] !in Whitespace;
    assert TrimEnd(a + ".", Whitespace) == a + ".";
  }

  /** A stripped string strips to itself. */
  lemma StripStripped(s: String)
    requires Stripped(s)
    ensures Strip(s) == s
  {
  }

  /** Everything `lstrip` removes is in `cs`. */
  lemma {:induction false} TrimStartRemoves(s: String, cs: set<char>)
    ensures forall i :: 0 <= i < |s| - |TrimStart(s, cs)| ==> s[i] in cs
  {
    if s != [] && s[0] in cs {
      TrimStartRemoves(s[1..], cs);
      assert forall i :: 1 <= i < |s| ==> s[i] == s[1..][i - 1];
    }
  }

  /** Everything `rstrip` removes is in `cs`. */
  lemma {:induction false} TrimEndRemoves(s: String, cs: set<char>)
    ensures forall i :: |TrimEnd(s, cs)| <= i < |s| ==> s[i] in cs
  {
    if s != [] && s[|s| - 1] in cs {
      TrimEndRemoves(s[..|s| - 1], cs);
    }
  }

  /** `rstrip` takes off a tail drawn from `cs` and stops at a character outside it. */
  lemma {:induction false} TrimEndTail(a: String, w: String, cs: set<char>)
    requires a == [] || a[|a| - 1] !in cs
    requires forall i :: 0 <= i < |w| ==> w[i] in cs
    ensures TrimEnd(a + w, cs) == a
    decreases |w|
  {
    if w == [] {
      assert a + w == a;
    } else {
      assert (a + w)[..|a + w| - 1] == a + w[..|w| - 1];
      TrimEndTail(a, w[..|w| - 1], cs);
    }
  }

  /** The index of the last whitespace character of `s`, if it has one. */
  function LastSpace(s: String): (r: Option<nat>)
    ensures r.Some? ==> r.value < |s| && IsSpace(s[r.value])
    ensures r.Some? ==> forall k :: r.value < k < |s| ==> !IsSpace(s[k])
    ensures r.None? ==> forall k :: 0 <= k < |s| ==> !IsSpace(s[k])
  {
    if s == [] then None
    else if IsSpace(s[|s| - 1]) then Some(|s| - 1)
    else LastSpace(s[..|s| - 1])
  }

  /** `s.strip()` is empty exactly when every character of `s` is whitespace. */
  lemma StripEmptyIff(s: String)
    ensures Strip(s) == [] <==> forall i :: 0 <= i < |s| ==> IsSpace(s[i])
  {
    var t := TrimStart(s, Whitespace);
    TrimStartRemoves(s, Whitespace);
    TrimEndRemoves(t, Whitespace);
    if t != [] {
      assert !IsSpace(s[|s| - |t|]);
      assert t[0] !in Whitespace;
    }
  }

  // ---------------------------------------------------------------- split / join

  /** `s.split(sep)` for a non-empty separator. */
  function Split(s: String, sep: String): (parts: seq<String>)
    requires |sep| > 0
    ensures |parts| >= 1
    decreases |s|
  {
    match IndexOf(s, sep)
    case None => [s]
    case Some(i) => [s[..i]] + Split(s[i + |sep|..], sep)
  }

  /** `sep.join(parts)`. */
  function Join(parts: seq<String>, sep: String): String
  {
    if |parts| == 0 then []
    else if |parts| == 1 then parts[0]
    else parts[0] + sep + Join(parts[1..], sep)
  }

  /** Splitting and joining again with the same separator gives back the string. */
  lemma {:induction false} JoinSplit(s: String, sep: String)
    requires |sep| > 0
    ensures Join(Split(s, sep), sep) == s
    decreases |s|
  {
    match IndexOf(s, sep)
    case None =>
    case Some(i) =>
      var rest := s[i + |sep|..];
      var parts := Split(s, sep);
      assert parts == [s[..i]] + Split(rest, sep);
      assert parts[1..] == Split(rest, sep);
      JoinSplit(rest, sep);
      assert Join(parts, sep) == s[..i] + sep + Join(Split(rest, sep), sep);
      assert s[i..i + |sep|] == sep;
      assert s == s[..i] + s[i..i + |sep|] + rest;
  }

  /** The first piece of a split is the text before the first occurrence of the separator. */
  lemma SplitHead(s: String, sep: String)
    requires |sep| > 0
    ensures IndexOf(s, sep).None? ==> Split(s, sep) == [s]
    ensures IndexOf(s, sep).Some? ==> Split(s, sep)[0] == s[..IndexOf(s, sep).value]
    ensures IndexOf(s, sep).Some? ==> |Split(s, sep)| >= 2
  {
  }

  /** The first piece of a split on one character holds no such character. */
  lemma SplitHeadFree(s: String, c: char)
    ensures Free(Split(s, [c])[0], c)
  {
    SplitHead(s, [c]);
    match IndexOf(s, [c])
    case None =>
      ContainsChar(s, c);
    case Some(i) =>
      forall k | 0 <= k < i
        ensures s[k] != c
      {
        assert !OccursAt(s, [c], k);
        assert s[k..k + 1] == [s[k]];
      }
  }

  /** For a one-character needle, `in` is the same as "some character equals it". */
  lemma ContainsChar(s: String, c: char)
    ensures Contains(s, [c]) <==> !Free(s, c)
  {
    if !Free(s, c) {
      var i :| 0 <= i < |s| && s[i] == c;
      assert OccursAt(s, [c], i);
      ContainsIff(s, [c]);
    }
    if Contains(s, [c]) {
      var i := IndexOf(s, [c]).value;
      assert s[i..i + 1] == [c];
      assert s[i] == s[i..i + 1][0];
    }
  }

  /** The pieces of `s.split(c)` hold no `c`. */
  lemma {:induction false} SplitFree(s: String, c: char)
    ensures forall k :: 0 <= k < |Split(s, [c])| ==> Free(Split(s, [c])[k], c)
    decreases |s|
  {
    match IndexOf(s, [c])
    case None =>
      ContainsChar(s, c);
    case Some(i) =>
      assert Free(s[..i], c) by {
        forall j | 0 <= j < i ensures s[j] != c {
          assert !OccursAt(s, [c], j);
          assert s[j..j + 1] == [s[j]];
        }
      }
      SplitFree(s[i + 1..], c);
  }

  /** Splitting on ',' at a comma that follows a comma-free prefix. */
  lemma SplitAtComma(a: String, b: String)
    requires Free(a, ',')
    ensures Split(a + "," + b, ",") == [a] + Split(b, ",")
  {
    var s := a + "," + b;
    assert OccursAt(s, ",", |a|);
    var i := IndexOf(s, ",").value;
    assert s[i..i + 1] == ",";
    assert s[i] == s[i..i + 1][0];
    if i < |a| {
      assert false;
    }
    assert i == |a|;
    assert s[..|a|] == a && s[|a| + 1..] == b;
  }

  /** A comma-free string is one piece. */
  lemma SplitNoComma(a: String)
    requires Free(a, ',')
    ensures Split(a, ",") == [a]
  {
    ContainsChar(a, ',');
  }

  /** Splitting on `c` at a `c` that follows a `c`-free prefix. */
  lemma SplitAtChar(a: String, b: String, c: char)
    requires Free(a, c)
    ensures Split(a + [c] + b, [c]) == [a] + Split(b, [c])
  {
    var s := a + [c] + b;
    assert OccursAt(s, [c], |a|);
    var i := IndexOf(s, [c]).value;
    assert s[i..i + 1] == [c];
    assert s[i] == s[i..i + 1][0];
    if i < |a| {
      assert false;
    }
    assert s[..|a|] == a && s[|a| + 1..] == b;
  }

  /** Joining `c`-free pieces with `c` and splitting on `c` gives the pieces back. */
  lemma {:induction false} SplitJoinChar(parts: seq<String>, c: char)
    requires |parts| >= 1 && forall k :: 0 <= k < |parts| ==> Free(parts[k], c)
    ensures Split(Join(parts, [c]), [c]) == parts
  {
    if |parts| == 1 {
      ContainsChar(parts[0], c);
    } else {
      SplitAtChar(parts[0], Join(parts[1..], [c]), c);
      SplitJoinChar(parts[1..], c);
      assert parts == [parts[0]] + parts[1..];
    }
  }

  /** Pieces and a separator free of `c` join into a text free of `c`. */
  lemma {:induction false} JoinFree(parts: seq<String>, sep: String, c: char)
    requires Free(sep, c) && forall k :: 0 <= k < |parts| ==> Free(parts[k], c)
    ensures Free(Join(parts, sep), c)
  {
    if |parts| > 1 {
      JoinFree(parts[1..], sep, c);
    }
  }

  /** The pieces of a text free of `c`, split on any separator, are free of `c`. */
  lemma {:induction false} SplitKeepsFree(s: String, sep: String, c: char)
    requires |sep| > 0 && Free(s, c)
    ensures forall k :: 0 <= k < |Split(s, sep)| ==> Free(Split(s, sep)[k], c)
    decreases |s|
  {
    match IndexOf(s, sep)
    case None =>
    case Some(i) =>
      SplitKeepsFree(s[i + |sep|..], sep, c);
  }

  /**
   * `[f(x) for x in pieces if f(x)]`. The lemmas below hold for any `f`,
   * which keeps the definition of `strip` out of their proofs.
   */
  function CleanBy(pieces: seq<String>, f: String -> String): (r: seq<String>)
    ensures |r| <= |pieces|
  {
    if pieces == [] then []
    else if f(pieces[0]) == [] then CleanBy(pieces[1..], f)
    else [f(pieces[0])] + CleanBy(pieces[1..], f)
  }

  /** `[x.strip() for x in pieces if x.strip()]`. */
  function CleanPieces(pieces: seq<String>): (r: seq<String>)
    ensures |r| <= |pieces|
  {
    if pieces == [] then []
    else if Strip(pieces[0]) == [] then CleanPieces(pieces[1..])
    else [Strip(pieces[0])] + CleanPieces(pieces[1..])
  }

  /** Cleaning by `strip` is the general cleaning with `strip` as the cleaner. */
  lemma {:induction false} CleanPiecesBy(pieces: seq<String>)
    ensures CleanPieces(pieces) == CleanBy(pieces, Strip)
  {
    if pieces != [] {
      CleanPiecesBy(pieces[1..]);
    }
  }

  /** Cleaning keeps the order of the pieces: it distributes over concatenation. */
  lemma {:induction false} CleanByAppend(a: seq<String>, b: seq<String>, f: String -> String)
    ensures CleanBy(a + b, f) == CleanBy(a, f) + CleanBy(b, f)
  {
    if a != [] {
      assert (a + b)[0] == a[0];
      assert (a + b)[1..] == a[1..] + b;
      CleanByAppend(a[1..], b, f);
    } else {
      assert a + b == b;
    }
  }

  lemma CleanPiecesAppend(a: seq<String>, b: seq<String>)
    ensures CleanPieces(a + b) == CleanPieces(a) + CleanPieces(b)
  {
    CleanPiecesBy(a + b);
    CleanPiecesBy(a);
    CleanPiecesBy(b);
    CleanByAppend(a, b, Strip);
  }

  /** Every cleaned piece is one input piece, cleaned: `j` is its index. */
  lemma {:induction false} CleanByFrom(pieces: seq<String>, f: String -> String, k: nat) returns (j: nat)
    requires k < |CleanBy(pieces, f)|
    ensures j < |pieces| && CleanBy(pieces, f)[k] == f(pieces[j]) && CleanBy(pieces, f)[k] != []
    decreases |pieces|
  {
    var tail := pieces[1..];
    if f(pieces[0]) == [] {
      var j' := CleanByFrom(tail, f, k);
      j := j' + 1;
      assert tail[j'] == pieces[j];
    } else if k == 0 {
      j := 0;
    } else {
      var j' := CleanByFrom(tail, f, k - 1);
      j := j' + 1;
      assert tail[j'] == pieces[j];
    }
  }

  lemma CleanPiecesFrom(pieces: seq<String>, k: nat) returns (j: nat)
    requires k < |CleanPieces(pieces)|
    ensures j < |pieces| && CleanPieces(pieces)[k] == Strip(pieces[j]) && CleanPieces(pieces)[k] != []
  {
    CleanPiecesBy(pieces);
    j := CleanByFrom(pieces, Strip, k);
  }

  /** `[x.strip() for x in s.split(',') if x.strip()]`: the comma-separated list in `s`. */
  function CommaList(s: String): seq<String>
  {
    CleanPieces(Split(s, ","))
  }

  /** Every item of a comma list is non-empty, has no surrounding whitespace and holds no comma. */
  lemma CommaListItems(s: String)
    ensures forall k :: 0 <= k < |CommaList(s)| ==>
      CommaList(s)[k] != [] && Stripped(CommaList(s)[k]) && Free(CommaList(s)[k], ',')
  {
    var pieces := Split(s, ",");
    var r := CleanPieces(pieces);
    SplitFree(s, ',');
    forall k | 0 <= k < |r| ensures r[k] != [] && Stripped(r[k]) && Free(r[k], ',') {
      var j := CleanPiecesFrom(pieces, k);
      StripIsStripped(pieces[j]);
      ContainsChar(pieces[j], ',');
      ContainsChar(r[k], ',');
      if Contains(r[k], ",") {
        ContainsTrans(pieces[j], r[k], ",");
      }
    }
  }

  /** Items that could be read back from a comma list. */
  predicate ListItems(items: seq<String>) {
    forall k :: 0 <= k < |items| ==> items[k] != [] && Stripped(items[k]) && Free(items[k], ',')
  }

  /** `items` each preceded by one space. */
  function SpaceEach(items: seq<String>): (r: seq<String>)
    ensures |r| == |items|
  {
    if items == [] then [] else [" " + items[0]] + SpaceEach(items[1..])
  }

  /** The pieces of `pre + ", ".join(items)` split on ','. */
  lemma {:induction false} SplitJoined(pre: String, items: seq<String>)
    requires |items| >= 1 && Free(pre, ',') && ListItems(items)
    ensures Split(pre + Join(items, ", "), ",") == [pre + items[0]] + SpaceEach(items[1..])
    decreases |items|
  {
    if |items| == 1 {
      assert Join(items, ", ") == items[0];
      SplitNoComma(pre + items[0]);
    } else {
      var rest := Join(items[1..], ", ");
      assert pre + Join(items, ", ") == (pre + items[0]) + "," + (" " + rest);
      SplitAtComma(pre + items[0], " " + rest);
      SplitJoined(" ", items[1..]);
      assert items[1..][0] == items[1];
      assert items[1..][1..] == items[2..];
    }
  }

  /** Stripping one leading space from a stripped non-empty string. */
  lemma StripSpaced(x: String)
    requires x != [] && Stripped(x)
    ensures Strip(" " + x) == x
  {
    assert (" " + x)[1..] == x;
    assert TrimStart(" " + x, Whitespace) == TrimStart(x, Whitespace);
  }

  lemma {:induction false} CleanSpaceEach(items: seq<String>)
    requires ListItems(items)
    ensures CleanPieces(SpaceEach(items)) == items
  {
    if items != [] {
      StripSpaced(items[0]);
      CleanSpaceEach(items[1..]);
      assert SpaceEach(items)[1..] == SpaceEach(items[1..]);
      assert items == [items[0]] + items[1..];
    }
  }

  /** A list written out with `", ".join` reads back as the same comma list. */
  lemma CommaListJoin(items: seq<String>)
    requires ListItems(items)
    ensures CommaList(Join(items, ", ")) == items
  {
    if items != [] {
      var s := Join(items, ", ");
      var tail := SpaceEach(items[1..]);
      SplitJoined("", items);
      assert "" + s == s && "" + items[0] == items[0];
      assert Split(s, ",") == [items[0]] + tail;
      CleanPiecesAppend([items[0]], tail);
      assert CleanPieces([items[0]]) == [items[0]] by {
        StripStripped(items[0]);
        assert [items[0]][1..] == [];
      }
      CleanSpaceEach(items[1..]);
      assert items == [items[0]] + items[1..];
    }
  }
  // ---------------------------------------------------------------- numbers

  function DigitChar(d: nat): (c: char)
    requires d < 10
    ensures IsDigit(c)
  {
    ('0' as int + d) as char
  }

  function DigitValue(c: char): (d: nat)
    requires IsDigit(c)
    ensures d < 10 && DigitChar(d) == c
  {
    (c as int - '0' as int)
  }

  predicate AllDigits(s: String) { forall i :: 0 <= i < |s| ==> IsDigit(s[i]) }

  /** The value of a run of decimal digits, most significant first. */
  function DigitsValue(s: String): nat
    requires AllDigits(s)
  {
    if s == [] then 0 else DigitsValue(s[..|s| - 1]) * 10 + DigitValue(s[|s| - 1])
  }

  /** `str(n)` for a natural number. */
  function NatToString(n: nat): (s: String)
    ensures |s| > 0 && AllDigits(s)
    ensures |s| > 1 ==> s[0] != '0'
  {
    if n < 10 then [DigitChar(n)] else NatToString(n / 10) + [DigitChar(n % 10)]
  }

  /** `str(n)` for any integer. */
  function IntToString(n: int): String
  {
    if n < 0 then "-" + NatToString(-n) else NatToString(n)
  }

  /** Reading back the decimal form of `n` gives `n`. */
  lemma {:induction false} NatToStringValue(n: nat)
    ensures DigitsValue(NatToString(n)) == n
  {
    if n >= 10 {
      NatToStringValue(n / 10);
      var s := NatToString(n);
      assert s[..|s| - 1] == NatToString(n / 10);
    }
  }

  /** A digit string without a leading zero is the decimal form of its value. */
  lemma {:induction false} NatToStringOfDigits(s: String)
    requires AllDigits(s) && |s| > 0 && (|s| > 1 ==> s[0] != '0')
    ensures NatToString(DigitsValue(s)) == s
  {
    if |s| > 1 {
      var init := s[..|s| - 1];
      NatToStringOfDigits(init);
      LeadingDigitPositive(init);
    }
  }

  lemma {:induction false} LeadingDigitPositive(s: String)
    requires AllDigits(s) && |s| > 0 && s[0] != '0'
    ensures DigitsValue(s) >= 1
    ensures |s| > 1 ==> DigitsValue(s) >= 10
  {
    if |s| > 1 {
      LeadingDigitPositive(s[..|s| - 1]);
    }
  }

  /** Leading zeros do not change the value of a digit string. */
  lemma {:induction false} DigitsValueZeros(z: String, s: String)
    requires forall i :: 0 <= i < |z| ==> z[i] == '0'
    requires AllDigits(s)
    ensures AllDigits(z + s) && DigitsValue(z + s) == DigitsValue(s)
    decreases |s|
  {
    if s == [] {
      assert z + s == z;
      ZerosValue(z);
    } else {
      assert (z + s)[..|z + s| - 1] == z + s[..|s| - 1];
      DigitsValueZeros(z, s[..|s| - 1]);
    }
  }

  lemma {:induction false} ZerosValue(z: String)
    requires forall i :: 0 <= i < |z| ==> z[i] == '0'
    ensures AllDigits(z) && DigitsValue(z) == 0
  {
    if z != [] {
      ZerosValue(z[..|z| - 1]);
    }
  }

  /** Python's `int(s)` on a string: optional surrounding whitespace, an optional sign, decimal digits.
      Digit-group underscores are not modelled. */
  function ParseInt(s: String): Option<int>
  {
    ParseSigned(Strip(s))
  }

  /** An optionally signed run of decimal digits. */
  function ParseSigned(t: String): Option<int>
  {
    if |t| > 0 && (t[0] == '-' || t[0] == '+') then
      var d := t[1..];
      if |d| > 0 && AllDigits(d) then Some(if t[0] == '-' then -(DigitsValue(d) as int) else DigitsValue(d)) else None
    else if |t| > 0 && AllDigits(t) then Some(DigitsValue(t))
    else None
  }

  /** A non-empty run of digits converts to its decimal value. */
  lemma DigitsParse(t: String)
    requires t != [] && AllDigits(t)
    ensures ParseInt(t) == Some(DigitsValue(t) as int)
  {
    assert IsDigit(t[0]) && IsDigit(t[|t| - 1]);
    assert !IsSpace(t[0]) && !IsSpace(t[|t| - 1]);
    StripStripped(t);
    assert Strip(t) == t;
    assert !(t[0] == '-' || t[0] == '+');
    assert ParseSigned(t) == Some(DigitsValue(t) as int);
  }

  /** `int(str(n)) == n`. */
  lemma ParseIntToString(n: int)
    ensures ParseInt(IntToString(n)) == Some(n)
  {
    var s := IntToString(n);
    if n < 0 {
      var d := NatToString(-n);
      assert s == "-" + d;
      assert s[|s| - 1] == d[|d| - 1];
      assert Stripped(s);
      StripStripped(s);
      assert s[1..] == d;
      NatToStringValue(-n);
    } else {
      assert Stripped(s);
      StripStripped(s);
      NatToStringValue(n);
    }
  }
}
