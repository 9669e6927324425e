/** Searching and folding sequences: the shapes of Python's `for … if …: return` and `sum(…)`. */
module Lists {
  import opened Wrappers

  /** The index of the first element satisfying `p`, or `|xs|` when there is none. */
  function FirstIndex<T>(xs: seq<T>, p: T -> bool): (i: nat)
    ensures i <= |xs|
    ensures i < |xs| ==> p(xs[i])
    ensures forall j :: 0 <= j < i ==> !p(xs[j])
  {
    if xs == [] then 0
    else if p(xs[0]) then 0
    else
      var i := FirstIndex(xs[1..], p);
      assert forall j :: 1 <= j < |xs| ==> xs[j] == xs[1..][j - 1];
      i + 1
  }

  /** Two sequences that agree, element by element, on the predicate have the same first index. */
  lemma FirstIndexSame<T>(xs: seq<T>, ys: seq<T>, p: T -> bool, q: T -> bool)
    requires |xs| == |ys|
    requires forall k :: 0 <= k < |xs| ==> p(xs[k]) == q(ys[k])
    ensures FirstIndex(xs, p) == FirstIndex(ys, q)
  {
  }

  /** Searching a concatenation searches the first part, then the second. */
  lemma FirstIndexAppend<T>(xs: seq<T>, ys: seq<T>, p: T -> bool)
    ensures FirstIndex(xs + ys, p) == if FirstIndex(xs, p) < |xs| then FirstIndex(xs, p) else |xs| + FirstIndex(ys, p)
  {
    var i, j := FirstIndex(xs, p), FirstIndex(ys, p);
    if i < |xs| {
      assert p((xs + ys)[i]);
    } else if j < |ys| {
      assert p((xs + ys)[|xs| + j]);
    }
  }

  /** Dropping the last element of a longer prefix gives the shorter prefix. */
  lemma PrefixOfPrefix<T>(xs: seq<T>, i: nat)
    requires i < |xs|
    ensures xs[..i + 1][..i] == xs[..i] && xs[..i + 1][i] == xs[i]
  {
  }

  /** A prefix one element longer is the prefix with that element appended. */
  lemma PrefixSnoc<T>(xs: seq<T>, i: nat)
    requires i < |xs|
    ensures xs[..i + 1] == xs[..i] + [xs[i]]
  {
  }

  /** The prefix as long as the sequence is the sequence. */
  lemma WholePrefix<T>(xs: seq<T>, i: nat)
    requires i == |xs|
    ensures xs[..i] == xs
  {
  }

  /** The elements satisfying `p`, in order (`[x for x in xs if p(x)]`). */
  function Filter<T>(xs: seq<T>, p: T -> bool): (r: seq<T>)
    ensures |r| <= |xs|
    ensures forall k :: 0 <= k < |r| ==> p(r[k]) && r[k] in xs
    ensures forall k :: 0 <= k < |xs| && p(xs[k]) ==> xs[k] in r
  {
    if xs == [] then []
    else (if p(xs[0]) then [xs[0]] else []) + Filter(xs[1..], p)
  }

  /** How many elements satisfy `p`. */
  function Count<T>(xs: seq<T>, p: T -> bool): (n: nat)
    ensures n <= |xs|
  {
    if xs == [] then 0 else (if p(xs[0]) then 1 else 0) + Count(xs[1..], p)
  }

  /** `sum(f(x) for x in xs)`. */
  function Sum<T>(xs: seq<T>, f: T -> int): int
  {
    if xs == [] then 0 else f(xs[0]) + Sum(xs[1..], f)
  }

  lemma {:induction false} FilterLength<T>(xs: seq<T>, p: T -> bool)
    ensures |Filter(xs, p)| == Count(xs, p)
  {
    if xs != [] {
      FilterLength(xs[1..], p);
    }
  }

  lemma {:induction false} SumAppend<T>(xs: seq<T>, ys: seq<T>, f: T -> int)
    ensures Sum(xs + ys, f) == Sum(xs, f) + Sum(ys, f)
  {
    if xs != [] {
      assert (xs + ys)[1..] == xs[1..] + ys;
      SumAppend(xs[1..], ys, f);
    } else {
      assert xs + ys == ys;
    }
  }

  lemma {:induction false} CountAppend<T>(xs: seq<T>, ys: seq<T>, p: T -> bool)
    ensures Count(xs + ys, p) == Count(xs, p) + Count(ys, p)
  {
    if xs != [] {
      assert (xs + ys)[1..] == xs[1..] + ys;
      CountAppend(xs[1..], ys, p);
    } else {
      assert xs + ys == ys;
    }
  }

  /** Counting the prefix one element longer adds one exactly when that element satisfies `p`. */
  lemma CountPrefix<T>(xs: seq<T>, i: nat, p: T -> bool)
    requires i < |xs|
    ensures Count(xs[..i + 1], p) == Count(xs[..i], p) + (if p(xs[i]) then 1 else 0)
  {
    assert xs[..i + 1] == xs[..i] + [xs[i]];
    CountSnoc(xs[..i], xs[i], p);
  }

  /** Counting one more element adds one exactly when it satisfies `p`. */
  lemma CountSnoc<T>(xs: seq<T>, x: T, p: T -> bool)
    ensures Count(xs + [x], p) == Count(xs, p) + (if p(x) then 1 else 0)
  {
    CountAppend(xs, [x], p);
    assert Count([x], p) == (if p(x) then 1 else 0) + Count([x][1..], p);
  }

  lemma {:induction false} FilterAppend<T>(xs: seq<T>, ys: seq<T>, p: T -> bool)
    ensures Filter(xs + ys, p) == Filter(xs, p) + Filter(ys, p)
  {
    if xs != [] {
      assert (xs + ys)[1..] == xs[1..] + ys;
      FilterAppend(xs[1..], ys, p);
    } else {
      assert xs + ys == ys;
    }
  }

  /** Filtering keeps everything when every element satisfies `p`. */
  lemma {:induction false} FilterAll<T>(xs: seq<T>, p: T -> bool)
    requires forall k :: 0 <= k < |xs| ==> p(xs[k])
    ensures Filter(xs, p) == xs
  {
    if xs != [] {
      FilterAll(xs[1..], p);
    }
  }

  /** Filtering the prefix one element longer appends that element exactly when it satisfies `p`. */
  lemma FilterPrefix<T>(xs: seq<T>, i: nat, p: T -> bool)
    requires i < |xs|
    ensures Filter(xs[..i + 1], p) == Filter(xs[..i], p) + (if p(xs[i]) then [xs[i]] else [])
  {
    assert xs[..i + 1] == xs[..i] + [xs[i]];
    FilterAppend(xs[..i], [xs[i]], p);
    assert Filter([xs[i]], p) == (if p(xs[i]) then [xs[i]] else []) + Filter([xs[i]][1..], p);
  }

  /** `{k: v for k in keys if (v := value(k)) is not None}`, filled key by key in order. */
  function Collect<K, V>(keys: seq<K>, value: K -> Option<V>): map<K, V>
  {
    if keys == [] then map[]
    else
      var m := Collect(keys[..|keys| - 1], value);
      var k := keys[|keys| - 1];
      match value(k)
      case Some(v) => m[k := v]
      case None => m
  }

  /** A key is collected exactly when it is listed and has a value; it maps to that value. */
  lemma {:induction false} CollectIff<K, V>(keys: seq<K>, value: K -> Option<V>, k: K)
    ensures k in Collect(keys, value) <==> k in keys && value(k).Some?
    ensures k in Collect(keys, value) ==> Collect(keys, value)[k] == value(k).value
  {
    if keys != [] {
      CollectIff(keys[..|keys| - 1], value, k);
      assert keys == keys[..|keys| - 1] + [keys[|keys| - 1]];
    }
  }

  /** The loop that fills a dictionary key by key, keeping the keys that have a value. */
  method CollectLoop<K, V>(keys: seq<K>, value: K -> Option<V>) returns (r: map<K, V>)
    ensures r == Collect(keys, value)
  {
    r := map[];
    var i := 0;
    while i < |keys|
      invariant 0 <= i <= |keys|
      invariant r == Collect(keys[..i], value)
    {
      assert keys[..i + 1][..i] == keys[..i];
      var v := value(keys[i]);
      if v.Some? {
        r := r[keys[i] := v.value];
      }
      i := i + 1;
    }
    assert keys[..i] == keys;
  }

  /**
   * `[view(r) for r in range(lo, hi + 1) if keep(r)]`, built from the back
   * so that one more number appends at most one element.
   */
  function Select<T>(lo: nat, hi: nat, keep: nat -> bool, view: nat -> T): (r: seq<T>)
    requires 1 <= lo
    ensures |r| <= if hi < lo then 0 else hi + 1 - lo
    decreases hi
  {
    if hi < lo then []
    else Select(lo, hi - 1, keep, view) + (if keep(hi) then [view(hi)] else [])
  }

  /** The numbers from `lo` to `hi` that satisfy `keep`, in increasing order. */
  function Selected(lo: nat, hi: nat, keep: nat -> bool): seq<nat>
    requires 1 <= lo
  {
    Select(lo, hi, keep, r => r)
  }

  /** A selection is the view of the selected numbers, element by element. */
  lemma {:induction false} SelectIsView<T>(lo: nat, hi: nat, keep: nat -> bool, view: nat -> T)
    requires 1 <= lo
    ensures |Select(lo, hi, keep, view)| == |Selected(lo, hi, keep)|
    ensures forall i :: 0 <= i < |Selected(lo, hi, keep)| ==> Select(lo, hi, keep, view)[i] == view(Selected(lo, hi, keep)[i])
    decreases hi
  {
    if hi >= lo {
      SelectIsView(lo, hi - 1, keep, view);
    }
  }

  /** Every selected number lies between `lo` and `hi` and satisfies `keep`, and they strictly increase. */
  lemma {:induction false} SelectedRange(lo: nat, hi: nat, keep: nat -> bool)
    requires 1 <= lo
    ensures forall i :: 0 <= i < |Selected(lo, hi, keep)| ==> lo <= Selected(lo, hi, keep)[i] <= hi && keep(Selected(lo, hi, keep)[i])
    ensures forall i, j :: 0 <= i < j < |Selected(lo, hi, keep)| ==> Selected(lo, hi, keep)[i] < Selected(lo, hi, keep)[j]
    decreases hi
  {
    if hi >= lo {
      SelectedRange(lo, hi - 1, keep);
      var p := Selected(lo, hi - 1, keep);
      var s := Selected(lo, hi, keep);
      assert s == p + (if keep(hi) then [hi] else []);
      assert forall i :: 0 <= i < |p| ==> s[i] == p[i];
    }
  }

  /** No number between `lo` and `hi` that satisfies `keep` is missing: it sits at the returned position. */
  lemma {:induction false} SelectedComplete(lo: nat, hi: nat, keep: nat -> bool, r: nat) returns (i: nat)
    requires 1 <= lo <= r <= hi && keep(r)
    ensures i < |Selected(lo, hi, keep)| && Selected(lo, hi, keep)[i] == r
    decreases hi
  {
    assert Selected(lo, hi, keep) == Selected(lo, hi - 1, keep) + (if keep(hi) then [hi] else []);
    if r == hi {
      i := |Selected(lo, hi - 1, keep)|;
    } else {
      i := SelectedComplete(lo, hi - 1, keep, r);
    }
  }
}
