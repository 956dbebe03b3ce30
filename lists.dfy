/** The array methods the components use: find, filter and map. */
module Lists {
  import opened Common

  /** Index of the first element satisfying p, or |xs| when there is none. */
  function FindIndex<T>(xs: seq<T>, p: T -> bool): (i: nat)
    ensures i <= |xs|
    ensures i < |xs| ==> p(xs[i])
    ensures forall k :: 0 <= k < i ==> !p(xs[k])
  {
    if xs == [] then 0 else if p(xs[0]) then 0 else 1 + FindIndex(xs[1..], p)
  }

  /** Array.prototype.find: the first element satisfying p, if any. */
  function Find<T>(xs: seq<T>, p: T -> bool): (r: Option<T>)
    ensures r.None? <==> forall k :: 0 <= k < |xs| ==> !p(xs[k])
    ensures r.Some? ==> FindIndex(xs, p) < |xs| && r.value == xs[FindIndex(xs, p)]
  {
    var i := FindIndex(xs, p);
    if i < |xs| then Some(xs[i]) else None
  }

  /** Array.prototype.filter: the elements satisfying keep, in their order. */
  function Filter<T>(xs: seq<T>, keep: T -> bool): (r: seq<T>)
    ensures |r| <= |xs|
    ensures forall k :: 0 <= k < |r| ==> keep(r[k])
  {
    if xs == [] then []
    else
      var rest := Filter(xs[1..], keep);
      assert xs == [xs[0]] + xs[1..];
      if keep(xs[0]) then [xs[0]] + rest else rest
  }

  /** The kept elements are the elements of xs that pass the test. */
  lemma {:induction false} FilterMembers<T>(xs: seq<T>, keep: T -> bool)
    ensures forall k :: 0 <= k < |Filter(xs, keep)| ==> Filter(xs, keep)[k] in xs
    ensures forall k :: 0 <= k < |xs| && keep(xs[k]) ==> xs[k] in Filter(xs, keep)
  {
    if xs != [] {
      FilterMembers(xs[1..], keep);
      assert forall k :: 1 <= k < |xs| ==> xs[k] == xs[1..][k - 1];
    }
  }

  /** Filtering commutes with concatenation, so the kept elements stay in order. */
  lemma {:induction false} FilterAppend<T>(a: seq<T>, b: seq<T>, keep: T -> bool)
    ensures Filter(a + b, keep) == Filter(a, keep) + Filter(b, keep)
  {
    if a != [] {
      assert (a + b)[1..] == a[1..] + b;
      FilterAppend(a[1..], b, keep);
    } else {
      assert a + b == b;
    }
  }

  /** Filtering a sequence whose every element is kept changes nothing. */
  lemma {:induction false} FilterKeepsAll<T>(xs: seq<T>, keep: T -> bool)
    requires forall k :: 0 <= k < |xs| ==> keep(xs[k])
    ensures Filter(xs, keep) == xs
  {
    if xs != [] {
      FilterKeepsAll(xs[1..], keep);
    }
  }

  /** Filtering out the one element that fails the test closes the gap it
      leaves: the others keep their order. */
  lemma {:induction false} FilterDropsOne<T>(xs: seq<T>, keep: T -> bool, k: nat)
    requires k < |xs| && !keep(xs[k])
    requires forall j :: 0 <= j < |xs| && j != k ==> keep(xs[j])
    ensures Filter(xs, keep) == xs[..k] + xs[k + 1..]
  {
    var tail := xs[1..];
    assert forall j :: 0 <= j < |tail| ==> tail[j] == xs[j + 1];
    if k == 0 {
      FilterKeepsAll(tail, keep);
      assert Filter(xs, keep) == Filter(tail, keep);
    } else {
      assert keep(xs[0]);
      FilterDropsOne(tail, keep, k - 1);
      assert Filter(xs, keep) == [xs[0]] + Filter(tail, keep);
      assert xs[..k] == [xs[0]] + tail[..k - 1];
      assert xs[k + 1..] == tail[k..];
    }
  }

  /** The update `xs.map(x => matches(x) ? replacement : x)`: every matching element is
      replaced by `replacement`, every other one stays where it is. */
  function Replace<T>(xs: seq<T>, matches: T -> bool, replacement: T): (r: seq<T>)
    ensures |r| == |xs|
    ensures forall k :: 0 <= k < |xs| ==> r[k] == if matches(xs[k]) then replacement else xs[k]
  {
    if xs == [] then [] else [if matches(xs[0]) then replacement else xs[0]] + Replace(xs[1..], matches, replacement)
  }

  /** When exactly one element matches, replacing is a point update. */
  lemma ReplaceSingle<T>(xs: seq<T>, matches: T -> bool, replacement: T, k: nat)
    requires k < |xs| && matches(xs[k])
    requires forall j :: 0 <= j < |xs| && j != k ==> !matches(xs[j])
    ensures Replace(xs, matches, replacement) == xs[k := replacement]
  {
  }
}
