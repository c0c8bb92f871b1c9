/** The geometric sorts of common.js. Each calls the host's in-place
    `Array.sort` with a numeric comparator `key(a) - key(b)`; ECMAScript
    requires that sort to be stable, so its result is the unique stable
    ordering by the key, which `Sort` below computes. */
module Sorting {
  import opened Js
  import opened Layers

  /** `Number.MAX_SAFE_INTEGER`, the start value of the running minima. */
  const MaxSafeInteger: int := 9007199254740991

  /** The key a comparator subtracts. */
  datatype SortKey =
    | ByX               // sortByHorizontalPosition
    | ByY               // sortByVerticalPosition
    | ByRows(minY: int) // sortLayersByRows, through sortVal

  /** `sortVal(layer, minX, minY)` is `(y - minY) * 100 + x`: the source
      passes `minX` but does not use it. */
  function Key(k: SortKey, l: Layer): int
  {
    match k
    case ByX => l.frame.x
    case ByY => l.frame.y
    case ByRows(minY) => (l.frame.y - minY) * 100 + l.frame.x
  }

  ghost predicate SortedBy(k: SortKey, s: seq<Layer>)
  {
    forall i, j :: 0 <= i < j < |s| ==> Key(k, s[i]) <= Key(k, s[j])
  }

  /** Puts `x` before the first element whose key is not smaller than its own. */
  function Insert(k: SortKey, x: Layer, s: seq<Layer>): (r: seq<Layer>)
    ensures |r| == |s| + 1
  {
    if s == [] then [x]
    else if Key(k, x) <= Key(k, s[0]) then [x] + s
    else [s[0]] + Insert(k, x, s[1..])
  }

  /** The stable sort of `s` by key `k`. */
  function Sort(k: SortKey, s: seq<Layer>): (r: seq<Layer>)
    ensures |r| == |s|
  {
    if s == [] then []
    else Insert(k, s[0], Sort(k, s[1..]))
  }

  /** Inserting adds `x` and removes nothing. */
  lemma {:induction false} InsertPermutes(k: SortKey, x: Layer, s: seq<Layer>)
    ensures multiset(Insert(k, x, s)) == multiset(s) + multiset{x}
  {
    if s != [] {
      assert s == [s[0]] + s[1..];
      if Key(k, x) > Key(k, s[0]) {
        InsertPermutes(k, x, s[1..]);
      }
    }
  }

  /** The result of `Sort` is a permutation of its input. */
  lemma {:induction false} SortPermutes(k: SortKey, s: seq<Layer>)
    ensures multiset(Sort(k, s)) == multiset(s)
  {
    if s != [] {
      assert s == [s[0]] + s[1..];
      SortPermutes(k, s[1..]);
      InsertPermutes(k, s[0], Sort(k, s[1..]));
    }
  }

  /** A lower bound on `x` and on every element of `s` bounds every element of the insertion. */
  lemma {:induction false} InsertLowerBound(k: SortKey, x: Layer, s: seq<Layer>, b: int)
    requires b <= Key(k, x)
    requires forall j :: 0 <= j < |s| ==> b <= Key(k, s[j])
    ensures forall j :: 0 <= j < |Insert(k, x, s)| ==> b <= Key(k, Insert(k, x, s)[j])
  {
    if s != [] && Key(k, x) > Key(k, s[0]) {
      InsertLowerBound(k, x, s[1..], b);
    }
  }

  lemma {:induction false} InsertSorted(k: SortKey, x: Layer, s: seq<Layer>)
    requires SortedBy(k, s)
    ensures SortedBy(k, Insert(k, x, s))
  {
    if s != [] && Key(k, x) > Key(k, s[0]) {
      InsertSorted(k, x, s[1..]);
      InsertLowerBound(k, x, s[1..], Key(k, s[0]));
    }
  }

  /** The result of `Sort` is ordered by non-decreasing key. */
  lemma {:induction false} SortSorted(k: SortKey, s: seq<Layer>)
    ensures SortedBy(k, Sort(k, s))
  {
    if s != [] {
      SortSorted(k, s[1..]);
      InsertSorted(k, s[0], Sort(k, s[1..]));
    }
  }

  /** The elements of `s` whose key is `v`, in order. */
  function WithKey(k: SortKey, s: seq<Layer>, v: int): seq<Layer>
  {
    if s == [] then []
    else (if Key(k, s[0]) == v then [s[0]] else []) + WithKey(k, s[1..], v)
  }

  lemma {:induction false} InsertWithKey(k: SortKey, x: Layer, s: seq<Layer>, v: int)
    ensures WithKey(k, Insert(k, x, s), v) == (if Key(k, x) == v then [x] else []) + WithKey(k, s, v)
  {
    if s != [] && Key(k, x) > Key(k, s[0]) {
      InsertWithKey(k, x, s[1..], v);
      var r := Insert(k, x, s);
      assert r[0] == s[0] && r[1..] == Insert(k, x, s[1..]);
    } else if s != [] {
      var r := Insert(k, x, s);
      assert r[0] == x && r[1..] == s;
    }
  }

  /** Stability: elements with equal keys leave the sort in their input order. */
  lemma {:induction false} SortStable(k: SortKey, s: seq<Layer>, v: int)
    ensures WithKey(k, Sort(k, s), v) == WithKey(k, s, v)
  {
    if s != [] {
      SortStable(k, s[1..], v);
      InsertWithKey(k, s[0], Sort(k, s[1..]), v);
    }
  }

  /** Subtracting `minY` does not change any comparison: the row order is that
      of `y * 100 + x` whatever the minimum. */
  lemma {:induction false} RowSortIgnoresMinimum(s: seq<Layer>, m1: int, m2: int)
    ensures Sort(ByRows(m1), s) == Sort(ByRows(m2), s)
  {
    if s != [] {
      RowSortIgnoresMinimum(s[1..], m1, m2);
      InsertIgnoresMinimum(s[0], Sort(ByRows(m1), s[1..]), m1, m2);
    }
  }

  lemma {:induction false} InsertIgnoresMinimum(x: Layer, s: seq<Layer>, m1: int, m2: int)
    ensures Insert(ByRows(m1), x, s) == Insert(ByRows(m2), x, s)
  {
    if s != [] {
      InsertIgnoresMinimum(x, s[1..], m1, m2);
    }
  }

  function Min(a: int, b: int): int
  {
    if a <= b then a else b
  }

  /** The running minimum of the `y` coordinates, starting from `MAX_SAFE_INTEGER`. */
  function MinYOf(s: seq<Layer>): (r: int)
    ensures r <= MaxSafeInteger
    ensures forall k :: 0 <= k < |s| ==> r <= s[k].frame.y
    ensures r == MaxSafeInteger || exists k :: 0 <= k < |s| && s[k].frame.y == r
  {
    if s == [] then MaxSafeInteger else Min(MinYOf(s[..|s| - 1]), s[|s| - 1].frame.y)
  }

  /** The running minimum of the `x` coordinates, starting from `MAX_SAFE_INTEGER`. */
  function MinXOf(s: seq<Layer>): (r: int)
    ensures r <= MaxSafeInteger
    ensures forall k :: 0 <= k < |s| ==> r <= s[k].frame.x
    ensures r == MaxSafeInteger || exists k :: 0 <= k < |s| && s[k].frame.x == r
  {
    if s == [] then MaxSafeInteger else Min(MinXOf(s[..|s| - 1]), s[|s| - 1].frame.x)
  }

  /** Overwrites `a` with `s`. */
  method CopyInto(a: array<Layer>, s: seq<Layer>)
    requires |s| == a.Length
    modifies a
    ensures a[..] == s
  {
    forall k | 0 <= k < a.Length {
      a[k] := s[k];
    }
  }

  /** `sortLayersByRows(layers)`: finds the least `x` and `y`, then sorts the
      layers in place by `sortVal`. */
  method SortLayersByRows(a: array<Layer>)
    modifies a
    ensures a[..] == Sort(ByRows(MinYOf(old(a[..]))), old(a[..]))
    ensures SortedBy(ByRows(MinYOf(old(a[..]))), a[..])
    ensures multiset(a[..]) == multiset(old(a[..]))
  {
    var minX, minY := MaxSafeInteger, MaxSafeInteger;
    var i := 0;
    while i < a.Length
      invariant 0 <= i <= a.Length
      invariant minX == MinXOf(a[..i]) && minY == MinYOf(a[..i])
    {
      assert a[..i + 1][..i] == a[..i];
      minX := Min(minX, a[i].frame.x);
      minY := Min(minY, a[i].frame.y);
      i := i + 1;
    }
    assert a[..i] == a[..];
    var sorted := Sort(ByRows(minY), a[..]);
    SortSorted(ByRows(minY), a[..]);
    SortPermutes(ByRows(minY), a[..]);
    CopyInto(a, sorted);
  }

  /** `sortByHorizontalPosition(layers)`: sorts in place by `x`. */
  method SortByHorizontalPosition(a: array<Layer>)
    modifies a
    ensures a[..] == Sort(ByX, old(a[..]))
    ensures SortedBy(ByX, a[..]) && multiset(a[..]) == multiset(old(a[..]))
  {
    SortSorted(ByX, a[..]);
    SortPermutes(ByX, a[..]);
    CopyInto(a, Sort(ByX, a[..]));
  }

  /** `sortByVerticalPosition(layers)`: sorts in place by `y`. */
  method SortByVerticalPosition(a: array<Layer>)
    modifies a
    ensures a[..] == Sort(ByY, old(a[..]))
    ensures SortedBy(ByY, a[..]) && multiset(a[..]) == multiset(old(a[..]))
  {
    SortSorted(ByY, a[..]);
    SortPermutes(ByY, a[..]);
    CopyInto(a, Sort(ByY, a[..]));
  }

  /** The sort of `sortArtboards(page)`: the page's artboards in row order. */
  function ArtboardReadingOrder(pageLayers: seq<Layer>): (r: seq<Layer>)
    ensures multiset(r) == multiset(AllArtboards(pageLayers))
    ensures SortedBy(ByRows(MinYOf(AllArtboards(pageLayers))), r)
  {
    var artboards := AllArtboards(pageLayers);
    SortPermutes(ByRows(MinYOf(artboards)), artboards);
    SortSorted(ByRows(MinYOf(artboards)), artboards);
    Sort(ByRows(MinYOf(artboards)), artboards)
  }
}
