/**
 * Building blocks for the hand-written matchers of the card parsers.
 *
 * Each regular expression of the source is written out as a matcher for one
 * start position, following Python's `re` semantics: greedy runs take as much
 * as they can and give back characters one at a time when the rest of the
 * pattern fails, lazy runs take as little as they can, `re.search` tries the
 * start positions from left to right and reports the first that matches.
 */
module Scan {
  import opened Wrappers
  import opened Text

  /** The end of the longest run of characters satisfying `p` that starts at `i`. */
  function RunEnd(s: String, i: nat, p: char -> bool): (j: nat)
    requires i <= |s|
    ensures i <= j <= |s|
    ensures forall k :: i <= k < j ==> p(s[k])
    ensures j == |s| || !p(s[j])
    decreases |s| - i
  {
    if i < |s| && p(s[i]) then RunEnd(s, i + 1, p) else i
  }

  /** Characters of the class `[:\s]`. */
  predicate IsColonOrSpace(c: char) { c == ':' || IsSpace(c) }

  /** Characters of `.` without DOTALL: anything but a newline. */
  predicate NotNewline(c: char) { c != '\n' }

  /** The end of the line that contains index `i`: the next newline, or the end of the text. */
  function LineEnd(s: String, i: nat): (j: nat)
    requires i <= |s|
    ensures i <= j <= |s| && (j == |s| || s[j] == '\n')
    ensures forall k :: i <= k < j ==> s[k] != '\n'
  {
    RunEnd(s, i, NotNewline)
  }

  /** `lit` occurs at `i`, compared as `re.IGNORECASE` does. */
  predicate LitCI(s: String, i: nat, lit: String) {
    i + |lit| <= |s| && Lower(s[i..i + |lit|]) == Lower(lit)
  }

  /** Under a case-insensitive match, the text's last matched character is a digit exactly when the literal's is. */
  lemma LitCILastDigit(s: String, i: nat, lit: String)
    requires LitCI(s, i, lit) && lit != []
    ensures IsDigit(s[i + |lit| - 1]) <==> IsDigit(lit[|lit| - 1])
  {
    var k := |lit| - 1;
    assert Lower(s[i..i + |lit|])[k] == LowerChar(s[i + k]);
    assert Lower(lit)[k] == LowerChar(lit[k]);
  }

  /**
   * Behind a text `a` followed by ". ", a literal that holds no full stop, does
   * not start with whitespace and does not occur in `a` in any case cannot
   * match, ignoring case, anywhere before the end of the ". ": a match would
   * cover the full stop or start at the space.
   */
  lemma NoMatchBeforeStop(a: String, t: String, m: String)
    requires m != [] && Free(m, '.') && !IsSpace(m[0]) && !Contains(Lower(a), Lower(m))
    ensures forall p :: 0 <= p < |a| + 2 ==> !LitCI(a + ". " + t, p, m)
  {
    var s := a + ". " + t;
    assert s[|a|] == '.' && s[|a| + 1] == ' ';
    forall p | 0 <= p < |a| + 2
      ensures !LitCI(s, p, m)
    {
      if p + |m| > |s| {
      } else if p + |m| <= |a| {
        assert s[p..p + |m|] == a[p..p + |m|];
        LowerSlice(a, p, p + |m|);
        assert !OccursAt(Lower(a), Lower(m), p);
      } else if p <= |a| {
        var i := |a| - p;
        assert Lower(s[p..p + |m|])[i] == LowerChar(s[|a|]) == '.';
        assert m[i] != '.';
        assert Lower(m)[i] != '.';
      } else {
        assert Lower(s[p..p + |m|])[0] == LowerChar(s[p]) == ' ';
        assert Lower(m)[0] == LowerChar(m[0]);
      }
    }
  }

  /** `lit` occurs at `i` exactly. */
  predicate Lit(s: String, i: nat, lit: String) { OccursAt(s, lit, i) }

  /** `$` without MULTILINE: the end of the text, or just before a newline that ends it. */
  predicate EndAt(s: String, k: nat) {
    k == |s| || (k + 1 == |s| && s[k] == '\n')
  }

  /** `\b` over the word characters of `IsWord`: exactly one of the characters around `k` is one. */
  predicate Boundary(s: String, k: nat) {
    (0 < k <= |s| && IsWord(s[k - 1])) != (k < |s| && IsWord(s[k]))
  }

  /** The `n` characters at `i` are digits. */
  predicate DigitsAt(s: String, i: nat, n: nat) {
    i + n <= |s| && forall k :: i <= k < i + n ==> IsDigit(s[k])
  }

  /** A match found by `re.search`: where it starts and what the pattern captured. */
  datatype Hit<R> = Hit(pos: nat, val: R)

  /**
   * `re.search`: the first position from `from` to `last` where the matcher `m`
   * succeeds, with what it captured there.
   */
  function SearchFrom<R>(from: nat, last: nat, m: nat -> Option<R>): (r: Option<Hit<R>>)
    ensures r.Some? ==> from <= r.value.pos <= last && m(r.value.pos) == Some(r.value.val)
    ensures r.Some? ==> forall q :: from <= q < r.value.pos ==> m(q).None?
    ensures r.None? ==> forall q :: from <= q <= last ==> m(q).None?
    decreases last + 1 - from
  {
    if from > last then None
    else
      match m(from)
      case Some(v) => Some(Hit(from, v))
      case None => SearchFrom(from + 1, last, m)
  }

  /** `re.search` over the whole text: start positions 0 to `|s|`. */
  function Search<R>(s: String, m: nat -> Option<R>): (r: Option<Hit<R>>)
    ensures r.Some? ==> r.value.pos <= |s| && m(r.value.pos) == Some(r.value.val)
    ensures r.Some? ==> forall q :: 0 <= q < r.value.pos ==> m(q).None?
    ensures r.None? ==> forall q :: 0 <= q <= |s| ==> m(q).None?
  {
    SearchFrom(0, |s|, m)
  }

  /** A matcher that succeeds at `pos` and at no earlier position is found there by `re.search`. */
  lemma SearchFinds<R>(s: String, m: nat -> Option<R>, pos: nat, v: R)
    requires pos <= |s| && m(pos) == Some(v)
    requires forall q :: 0 <= q < pos ==> m(q).None?
    ensures Search(s, m) == Some(Hit(pos, v))
  {
  }

  /**
   * Backtracking of a greedy run: the continuation `k` is tried with the run
   * ending at `hi`, then `hi - 1`, down to `lo`; the first success is kept.
   */
  function Backtrack<R>(lo: nat, hi: nat, k: nat -> Option<R>): (r: Option<R>)
    ensures r.Some? ==> exists p :: lo <= p <= hi && k(p) == r && forall q :: p < q <= hi ==> k(q).None?
    ensures r.None? ==> forall q :: lo <= q <= hi ==> k(q).None?
    decreases hi
  {
    if hi < lo then None
    else
      match k(hi)
      case Some(v) => Some(v)
      case None => if hi == lo then None else Backtrack(lo, hi - 1, k)
  }

  /** A captured group: the slice `s[lo..hi]`. */
  datatype Span = Span(lo: nat, hi: nat)

  function Slice(s: String, sp: Span): String
    requires sp.lo <= sp.hi <= |s|
  {
    s[sp.lo..sp.hi]
  }

  /** A whole number written in the text: a non-empty run of digits with no digit on either side. */
  predicate WholeNumber(s: String, sp: Span) {
    sp.lo < sp.hi <= |s| && (forall k :: sp.lo <= k < sp.hi ==> IsDigit(s[k]))
    && (sp.lo == 0 || !IsDigit(s[sp.lo - 1])) && (sp.hi == |s| || !IsDigit(s[sp.hi]))
  }

  /** The first position at or after `e` where a lazy `.+?` may stop before `(?:\.|$)`:
      a full stop, or `$`. */
  function LazyEnd(s: String, e: nat): (k: nat)
    requires e <= |s|
    ensures e <= k <= |s|
    ensures k == |s| || s[k] == '.' || EndAt(s, k)
    ensures forall q :: e <= q < k ==> s[q] != '.' && !EndAt(s, q)
    decreases |s| - e
  {
    if e == |s| || s[e] == '.' || EndAt(s, e) then e else LazyEnd(s, e + 1)
  }
}
