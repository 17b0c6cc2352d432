/**
  Row-major layout of nested sequences, the way numpy lays out an
  n-dimensional array in memory (C order). `Flatten` is `ravel` of one
  level of nesting and `Rows` is the inverse refill used by `reshape`.
 */
module Grids {

  /** `g` has exactly `h` rows, each of exactly `w` entries. */
  predicate IsRect<T>(g: seq<seq<T>>, h: nat, w: nat) {
    |g| == h && forall i :: 0 <= i < |g| ==> |g[i]| == w
  }

  /** Concatenation of the rows of `g`, first row first. */
  function Flatten<T>(g: seq<seq<T>>): seq<T> {
    if |g| == 0 then [] else g[0] + Flatten(g[1..])
  }

  /** Cuts `flat` into `h` consecutive rows of `w` entries each. */
  function Rows<T>(flat: seq<T>, h: nat, w: nat): (g: seq<seq<T>>)
    requires |flat| == h * w
    ensures IsRect(g, h, w)
    decreases h
  {
    if h == 0 then []
    else
      assert |flat| == w + (h - 1) * w;
      [flat[..w]] + Rows(flat[w..], h - 1, w)
  }

  /** Each entry of `s` as a one-element sequence: a trailing axis of size 1. */
  function Singletons<T>(s: seq<T>): (r: seq<seq<T>>)
    ensures IsRect(r, |s|, 1)
    ensures forall i :: 0 <= i < |s| ==> r[i][0] == s[i]
  {
    if |s| == 0 then [] else [[s[0]]] + Singletons(s[1..])
  }

  /** Adds a trailing axis of size 1 to every row of `g`. */
  function AddChannel<T>(g: seq<seq<T>>): (r: seq<seq<seq<T>>>)
    ensures |r| == |g|
    ensures forall i :: 0 <= i < |g| ==> r[i] == Singletons(g[i])
  {
    if |g| == 0 then [] else [Singletons(g[0])] + AddChannel(g[1..])
  }

  /** Flattening distributes over concatenation of grids. */
  lemma {:induction false} FlattenAppend<T>(a: seq<seq<T>>, b: seq<seq<T>>)
    ensures Flatten(a + b) == Flatten(a) + Flatten(b)
    decreases |a|
  {
    if |a| == 0 {
      assert a + b == b;
    } else {
      assert (a + b)[1..] == a[1..] + b;
      FlattenAppend(a[1..], b);
    }
  }

  /** A rectangular `h` by `w` grid flattens to exactly `h * w` entries. */
  lemma {:induction false} FlattenLength<T>(g: seq<seq<T>>, h: nat, w: nat)
    requires IsRect(g, h, w)
    ensures |Flatten(g)| == h * w
    decreases h
  {
    if h > 0 {
      FlattenLength(g[1..], h - 1, w);
      assert h * w == w + (h - 1) * w;
    }
  }

  /** Entry `(i, j)` of a rectangular grid lands at row-major offset `i * w + j`. */
  lemma {:induction false} FlattenIndex<T>(g: seq<seq<T>>, h: nat, w: nat, i: nat, j: nat)
    requires IsRect(g, h, w)
    requires i < h && j < w
    ensures i * w + j < |Flatten(g)|
    ensures Flatten(g)[i * w + j] == g[i][j]
    decreases i
  {
    FlattenLength(g, h, w);
    FlattenLength(g[1..], h - 1, w);
    if i > 0 {
      FlattenIndex(g[1..], h - 1, w, i - 1, j);
      assert i * w + j == w + ((i - 1) * w + j);
    }
  }

  /** Cutting into rows and concatenating them again gives back the flat sequence. */
  lemma {:induction false} FlattenRows<T>(flat: seq<T>, h: nat, w: nat)
    requires |flat| == h * w
    ensures Flatten(Rows(flat, h, w)) == flat
    decreases h
  {
    if h > 0 {
      assert |flat| == w + (h - 1) * w;
      var g := Rows(flat, h, w);
      assert g[1..] == Rows(flat[w..], h - 1, w);
      FlattenRows(flat[w..], h - 1, w);
      assert flat == flat[..w] + flat[w..];
    }
  }

  /** Concatenating the rows of a rectangular grid and cutting again gives back the grid. */
  lemma {:induction false} RowsFlatten<T>(g: seq<seq<T>>, h: nat, w: nat)
    requires IsRect(g, h, w)
    ensures |Flatten(g)| == h * w
    ensures Rows(Flatten(g), h, w) == g
    decreases h
  {
    FlattenLength(g, h, w);
    if h > 0 {
      var flat := Flatten(g);
      assert flat[..w] == g[0];
      assert flat[w..] == Flatten(g[1..]);
      RowsFlatten(g[1..], h - 1, w);
      assert g == [g[0]] + g[1..];
    }
  }

  /** Flattening a trailing size-1 axis recovers the entries in order. */
  lemma {:induction false} FlattenSingletons<T>(s: seq<T>)
    ensures Flatten(Singletons(s)) == s
    decreases |s|
  {
    if |s| > 0 {
      assert Singletons(s)[1..] == Singletons(s[1..]);
      FlattenSingletons(s[1..]);
      assert s == [s[0]] + s[1..];
    }
  }

  /** Adding a size-1 axis distributes over concatenation. */
  lemma {:induction false} SingletonsAppend<T>(a: seq<T>, b: seq<T>)
    ensures Singletons(a + b) == Singletons(a) + Singletons(b)
    decreases |a|
  {
    if |a| == 0 {
      assert a + b == b;
    } else {
      assert (a + b)[1..] == a[1..] + b;
      SingletonsAppend(a[1..], b);
    }
  }

  /** Adding a channel axis and flattening rows is the same as flattening and then adding it. */
  lemma {:induction false} FlattenAddChannel<T>(g: seq<seq<T>>)
    ensures Flatten(AddChannel(g)) == Singletons(Flatten(g))
    decreases |g|
  {
    if |g| > 0 {
      assert AddChannel(g)[1..] == AddChannel(g[1..]);
      FlattenAddChannel(g[1..]);
      SingletonsAppend(g[0], Flatten(g[1..]));
    }
  }
}
