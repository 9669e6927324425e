/**
 * Splitting an address text at a transit marker: `text.split(marker)` and
 * the pieces the generators take from it.
 */
module Transits {
  import opened Wrappers
  import opened Text

  /** The word whose lower-case occurrence flags an address with transit addresses. */
  const Hint: String := "транзит"

  /** The text after the first occurrence of `m`, up to its next occurrence or the end of `s`. */
  function Between(s: String, m: String): (r: String)
    requires |m| > 0 && Contains(s, m)
  {
    var rest := s[IndexOf(s, m).value + |m|..];
    match IndexOf(rest, m)
    case None => rest
    case Some(j) => rest[..j]
  }

  /** `s.split(m)[1]` is the text between the first and the second occurrence of `m`, which holds no `m`. */
  lemma SplitSecond(s: String, m: String)
    requires |m| > 0 && Contains(s, m)
    ensures |Split(s, m)| >= 2
    ensures Split(s, m)[0] == s[..IndexOf(s, m).value]
    ensures Split(s, m)[1] == Between(s, m)
    ensures !Contains(Between(s, m), m)
  {
    var i := IndexOf(s, m).value;
    var rest := s[i + |m|..];
    SplitOnce(s, m);
    var parts := Split(rest, m);
    assert Split(s, m)[1] == ([s[..i]] + parts)[1] == parts[0];
    SplitHead(rest, m);
    match IndexOf(rest, m)
    case None =>
    case Some(j) =>
      BeforeFirstFree(rest, m);
  }

  /** Splitting at the first occurrence of `m`: the text before it, then the pieces of the rest. */
  lemma SplitOnce(s: String, m: String)
    requires |m| > 0 && Contains(s, m)
    ensures Split(s, m) == [s[..IndexOf(s, m).value]] + Split(s[IndexOf(s, m).value + |m|..], m)
  {
  }

  /**
   * Wherever the first character of `m` comes back in it, the character after
   * it differs from the second one; so no proper suffix of `m` is a prefix of
   * it, and two occurrences of `m` never overlap.
   */
  predicate Unbordered(m: String) {
    |m| > 1 && forall k :: 0 < k < |m| ==> m[k] != m[0] || (k + 1 < |m| && m[k + 1] != m[1])
  }

  /** An unbordered marker does not start again inside one of its occurrences. */
  lemma NoOverlap(s: String, m: String, i: nat, p: nat)
    requires Unbordered(m) && OccursAt(s, m, i) && i < p < i + |m|
    ensures !OccursAt(s, m, p)
  {
    var k := p - i;
    assert s[p] == s[i..i + |m|][k];
    if m[k] == m[0] && p + |m| <= |s| {
      assert k + 1 < |m| && m[k + 1] != m[1];
      assert s[p + 1] == s[i..i + |m|][k + 1];
      assert s[p..p + |m|][1] == s[p + 1];
    } else if p + |m| <= |s| {
      assert s[p..p + |m|][0] == s[p];
    }
  }

  /** Behind a text free of an unbordered marker, the marker's first occurrence is the one written there. */
  lemma FirstAt(pre: String, m: String, post: String)
    requires Unbordered(m) && !Contains(pre, m)
    ensures IndexOf(pre + m + post, m) == Some(|pre|)
  {
    var s := pre + m + post;
    assert s[|pre|..|pre| + |m|] == m;
    assert OccursAt(s, m, |pre|);
    var i := IndexOf(s, m).value;
    if i < |pre| {
      if i + |m| <= |pre| {
        assert pre[i..i + |m|] == s[i..i + |m|];
        assert OccursAt(pre, m, i);
        ContainsIff(pre, m);
      } else {
        NoOverlap(s, m, i, |pre|);
        assert false;
      }
    }
  }

  /** A join of non-empty items starts with the first item's first character and ends with the last item's last one. */
  lemma {:induction false} JoinEnds(items: seq<String>, sep: String)
    requires |items| >= 1 && forall k :: 0 <= k < |items| ==> items[k] != []
    ensures var j, z := Join(items, sep), items[|items| - 1];
      j != [] && j[0] == items[0][0] && j[|j| - 1] == z[|z| - 1]
  {
    if |items| > 1 {
      JoinEnds(items[1..], sep);
      assert items[1..][|items| - 2] == items[|items| - 1];
    }
  }

  /** A comma list written out with `", ".join` has no surrounding whitespace. */
  lemma JoinStripped(items: seq<String>)
    requires ListItems(items)
    ensures Stripped(Join(items, ", "))
  {
    if items != [] {
      JoinEnds(items, ", ");
    }
  }

  /**
   * `[x.strip() for x in s.split(m)[1].strip().split(',') if x.strip()]` where
   * `m` occurs in `s`, and nothing where it does not: the comma-separated items
   * between the first and the second occurrence of the marker.
   */
  function TransitsAfter(s: String, m: String): (r: seq<String>)
    requires |m| > 0
    ensures !Contains(s, m) ==> r == []
    ensures Contains(s, m) ==> r == CommaList(Strip(Between(s, m)))
    ensures ListItems(r)
  {
    if Contains(s, m) then
      SplitSecond(s, m);
      CommaListItems(Strip(Split(s, m)[1]));
      CommaList(Strip(Split(s, m)[1]))
    else []
  }

  /**
   * A main address followed by the marker and a list written out with
   * `", ".join` parses back to that list.
   */
  lemma TransitsRoundTrip(pre: String, m: String, items: seq<String>)
    requires Unbordered(m) && !Contains(pre, m)
    requires ListItems(items) && !Contains(Join(items, ", "), m)
    ensures TransitsAfter(pre + m + Join(items, ", "), m) == items
  {
    var t := Join(items, ", ");
    var s := pre + m + t;
    FirstAt(pre, m, t);
    assert s[|pre| + |m|..] == t;
    assert Between(s, m) == t;
    JoinStripped(items);
    StripStripped(t);
    CommaListJoin(items);
  }
}
