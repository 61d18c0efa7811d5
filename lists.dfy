/** The two list updates the dashboard pages apply to a displayed list after a
    successful server action: `prev.filter(keep)` and
    `prev.map(x => sel(x) ? f(x) : x)`. */
module Lists {

  /** JavaScript's `xs.filter(keep)`. */
  function Filter<T>(xs: seq<T>, keep: T -> bool): (r: seq<T>)
    ensures |r| <= |xs|
  {
    if xs == [] then []
    else (if keep(xs[0]) then [xs[0]] else []) + Filter(xs[1..], keep)
  }

  /** An element survives filtering exactly when it was in the list and is kept. */
  lemma {:induction false} FilterMembers<T>(xs: seq<T>, keep: T -> bool, x: T)
    ensures x in Filter(xs, keep) <==> x in xs && keep(x)
  {
    if xs != [] {
      FilterMembers(xs[1..], keep, x);
      assert xs == [xs[0]] + xs[1..];
    }
  }

  /** Filtering a concatenation filters each part in place: the kept elements
      stay in their original relative order. */
  lemma {:induction false} FilterConcat<T>(a: seq<T>, b: seq<T>, keep: T -> bool)
    ensures Filter(a + b, keep) == Filter(a, keep) + Filter(b, keep)
  {
    if a == [] {
      assert a + b == b;
    } else {
      var head := if keep(a[0]) then [a[0]] else [];
      assert (a + b)[0] == a[0];
      assert (a + b)[1..] == a[1..] + b;
      FilterConcat(a[1..], b, keep);
      calc {
        Filter(a + b, keep);
        head + Filter(a[1..] + b, keep);
        head + (Filter(a[1..], keep) + Filter(b, keep));
        (head + Filter(a[1..], keep)) + Filter(b, keep);
        Filter(a, keep) + Filter(b, keep);
      }
    }
  }

  /** When every element is kept, the list is unchanged. */
  lemma {:induction false} FilterKeepsAll<T>(xs: seq<T>, keep: T -> bool)
    requires forall i :: 0 <= i < |xs| ==> keep(xs[i])
    ensures Filter(xs, keep) == xs
  {
    if xs != [] {
      FilterKeepsAll(xs[1..], keep);
    }
  }

  /** When no element is kept, the result is empty. */
  lemma {:induction false} FilterDropsAll<T>(xs: seq<T>, keep: T -> bool)
    requires forall i :: 0 <= i < |xs| ==> !keep(xs[i])
    ensures Filter(xs, keep) == []
  {
    if xs != [] {
      FilterDropsAll(xs[1..], keep);
    }
  }

  /** Filtering splits around any position. */
  lemma {:induction false} FilterAround<T>(xs: seq<T>, i: nat, keep: T -> bool)
    requires i < |xs|
    ensures Filter(xs, keep) == Filter(xs[..i], keep) + Filter([xs[i]], keep) + Filter(xs[i + 1..], keep)
  {
    var pre, at, post := xs[..i], [xs[i]], xs[i + 1..];
    assert xs == pre + (at + post);
    FilterConcat(pre, at + post, keep);
    FilterConcat(at, post, keep);
  }

  /** When every element but the one at `i` is kept, both sides of `i` are
      unchanged by filtering. */
  lemma {:induction false} KeepsBothSides<T>(xs: seq<T>, i: nat, keep: T -> bool)
    requires i < |xs|
    requires forall j :: 0 <= j < |xs| && j != i ==> keep(xs[j])
    ensures Filter(xs[..i], keep) == xs[..i]
    ensures Filter(xs[i + 1..], keep) == xs[i + 1..]
  {
    var pre, post := xs[..i], xs[i + 1..];
    forall j | 0 <= j < |pre| ensures keep(pre[j]) {
      assert pre[j] == xs[j];
    }
    forall j | 0 <= j < |post| ensures keep(post[j]) {
      assert post[j] == xs[i + 1 + j];
    }
    FilterKeepsAll(pre, keep);
    FilterKeepsAll(post, keep);
  }

  /** When exactly the element at `i` fails `keep`, filtering removes that one
      element and leaves the rest in order. */
  lemma {:induction false} FilterRemovesOne<T>(xs: seq<T>, i: nat, keep: T -> bool)
    requires i < |xs| && !keep(xs[i])
    requires forall j :: 0 <= j < |xs| && j != i ==> keep(xs[j])
    ensures Filter(xs, keep) == xs[..i] + xs[i + 1..]
  {
    FilterAround(xs, i, keep);
    FilterDropsOne(xs[i], keep);
    KeepsBothSides(xs, i, keep);
  }

  lemma FilterDropsOne<T>(x: T, keep: T -> bool)
    requires !keep(x)
    ensures Filter([x], keep) == []
  {
    FilterDropsAll([x], keep);
  }

  /** `xs.map(x => sel(x) ? f(x) : x)`: the selected elements are replaced by
      their image, every other element and the order are kept. */
  function MapWhere<T>(xs: seq<T>, sel: T -> bool, f: T -> T): (r: seq<T>)
    ensures |r| == |xs|
    ensures forall i :: 0 <= i < |xs| && sel(xs[i]) ==> r[i] == f(xs[i])
    ensures forall i :: 0 <= i < |xs| && !sel(xs[i]) ==> r[i] == xs[i]
  {
    if xs == [] then []
    else [if sel(xs[0]) then f(xs[0]) else xs[0]] + MapWhere(xs[1..], sel, f)
  }

  /** The rows carry pairwise distinct keys (ids or emails). */
  predicate UniqueKeys<T>(xs: seq<T>, key: T -> string) {
    forall i, j :: 0 <= i < j < |xs| ==> key(xs[i]) != key(xs[j])
  }

  function KeyIsNot<T>(key: T -> string, k: string): T -> bool {
    x => key(x) != k
  }

  function KeyIs<T>(key: T -> string, k: string): T -> bool {
    x => key(x) == k
  }

  /** `xs.filter(x => x.key !== k)`: every row with key `k` removed. */
  function RemoveKey<T>(xs: seq<T>, key: T -> string, k: string): (r: seq<T>)
    ensures |r| <= |xs|
  {
    Filter(xs, KeyIsNot(key, k))
  }

  /** A row survives exactly when it was there and its key is not `k`. */
  lemma {:induction false} RemoveKeyMembers<T>(xs: seq<T>, key: T -> string, k: string, x: T)
    ensures x in RemoveKey(xs, key, k) <==> x in xs && key(x) != k
  {
    FilterMembers(xs, KeyIsNot(key, k), x);
  }

  /** With distinct keys, removing the key of the row at `i` removes exactly
      that row and keeps the others in their order. */
  lemma {:induction false} RemoveKeyAt<T>(xs: seq<T>, key: T -> string, i: nat)
    requires UniqueKeys(xs, key) && i < |xs|
    ensures RemoveKey(xs, key, key(xs[i])) == xs[..i] + xs[i + 1..]
  {
    var keep := KeyIsNot(key, key(xs[i]));
    forall j | 0 <= j < |xs| && j != i ensures keep(xs[j]) {
      if j < i { assert key(xs[j]) != key(xs[i]); } else { assert key(xs[i]) != key(xs[j]); }
    }
    FilterRemovesOne(xs, i, keep);
  }

  /** Removing a key that no row carries leaves the list as it was. */
  lemma {:induction false} RemoveKeyAbsent<T>(xs: seq<T>, key: T -> string, k: string)
    requires forall i :: 0 <= i < |xs| ==> key(xs[i]) != k
    ensures RemoveKey(xs, key, k) == xs
  {
    FilterKeepsAll(xs, KeyIsNot(key, k));
  }

  /** `xs.map(x => x.key === k ? f(x) : x)`. */
  function UpdateKey<T>(xs: seq<T>, key: T -> string, k: string, f: T -> T): (r: seq<T>)
    ensures |r| == |xs|
    ensures forall i :: 0 <= i < |xs| ==> r[i] == if key(xs[i]) == k then f(xs[i]) else xs[i]
  {
    MapWhere(xs, KeyIs(key, k), f)
  }
}
