// Inner products of flat real buffers, and how they move when single
// entries are bumped: the algebra behind the adjointness of im2col and
// col2im in src/neuralnetwork/Conv2DLayer.cpp.
module FlatSums {
  import opened Common

  /** s[0] + ... + s[n - 1]. */
  function Sum(s: seq<real>, n: int): real
    requires 0 <= n <= |s|
  {
    if n == 0 then 0.0 else Sum(s, n - 1) + s[n - 1]
  }

  /** The elementwise products x[k] * y[k]. */
  function Products(x: seq<real>, y: seq<real>): (p: seq<real>)
    requires |x| == |y|
    ensures |p| == |x| && forall k :: 0 <= k < |x| ==> p[k] == x[k] * y[k]
  {
    seq(|x|, k requires 0 <= k < |x| => x[k] * y[k])
  }

  /** y with v added at position k; y itself for None. */
  function Bump(y: seq<real>, k: Option<nat>, v: real): (z: seq<real>)
    ensures |z| == |y|
  {
    if k.Some? && k.value < |y| then y[k.value := y[k.value] + v] else y
  }

  /** x at position k; 0 for None. */
  function Read(x: seq<real>, k: Option<nat>): real
  {
    if k.Some? && k.value < |x| then x[k.value] else 0.0
  }

  /** Changing s at k by d changes the sum of the first n entries by d once they include k. */
  lemma {:induction false} SumUpdate(s: seq<real>, s': seq<real>, k: int, d: real, n: int)
    requires |s| == |s'| && 0 <= k < |s| && 0 <= n <= |s|
    requires forall i :: 0 <= i < |s| && i != k ==> s'[i] == s[i]
    requires s'[k] == s[k] + d
    ensures Sum(s', n) == Sum(s, n) + if k < n then d else 0.0
  {
    if n > 0 {
      SumUpdate(s, s', k, d, n - 1);
    }
  }

  lemma {:induction false} SumZeros(s: seq<real>, n: int)
    requires 0 <= n <= |s| && forall k :: 0 <= k < n ==> s[k] == 0.0
    ensures Sum(s, n) == 0.0
  {
    if n > 0 {
      SumZeros(s, n - 1);
    }
  }

  /** Against a zero buffer every product is 0. */
  lemma ProductsZeros(x: seq<real>, y: seq<real>)
    requires |x| == |y| && forall k :: 0 <= k < |y| ==> y[k] == 0.0
    ensures forall k :: 0 <= k < |x| ==> Products(x, y)[k] == 0.0
  {
    forall k | 0 <= k < |x|
      ensures Products(x, y)[k] == 0.0
    {
      ZeroTimes(y[k], x[k]);
    }
  }

  /**
   * Bumping y at k by v moves product k by x[k] * v, which is the product
   * a[i] * c[i] of any a, c holding x[k] and v at i, and no other product.
   */
  lemma ProductsBump(x: seq<real>, y: seq<real>, k: Option<nat>, v: real, a: seq<real>, c: seq<real>, i: int)
    requires |x| == |y| && k.Some? && k.value < |y|
    requires |a| == |c| && 0 <= i < |a| && a[i] == x[k.value] && c[i] == v
    ensures var p, p' := Products(x, y), Products(x, Bump(y, k, v));
      (forall j :: 0 <= j < |x| && j != k.value ==> p'[j] == p[j]) && p'[k.value] == p[k.value] + Products(a, c)[i]
  {
    var y' := Bump(y, k, v);
    forall j | 0 <= j < |x| && j != k.value
      ensures Products(x, y')[j] == Products(x, y)[j]
    {
      ScaleCong(x[j], y'[j], y[j]);
    }
    Distrib(x[k.value], x[k.value], y[k.value], y'[k.value], v);
    ProductAt(a, c, i, x[k.value], v);
  }

  /** Adding v to y at k adds x[k] * v, held as a[i] * c[i], to the inner product of x and y. */
  lemma BumpAt(x: seq<real>, y: seq<real>, k: Option<nat>, v: real, a: seq<real>, c: seq<real>, i: int)
    requires |x| == |y| && k.Some? && k.value < |y|
    requires |a| == |c| && 0 <= i < |a| && a[i] == x[k.value] && c[i] == v
    ensures Sum(Products(x, Bump(y, k, v)), |x|) == Sum(Products(x, y), |x|) + Products(a, c)[i]
  {
    ProductsBump(x, y, k, v, a, c, i);
    SumUpdate(Products(x, y), Products(x, Bump(y, k, v)), k.value, Products(a, c)[i], |x|);
  }

  /** A bump at a padded tap or outside the buffer leaves it unchanged. */
  lemma BumpMiss(y: seq<real>, k: Option<nat>, v: real)
    requires !(k.Some? && k.value < |y|)
    ensures Bump(y, k, v) == y
  {
  }

  /** The first n values of vs bumped into y, in order, at positions ks. */
  function BumpAll(ks: seq<Option<nat>>, vs: seq<real>, y: seq<real>, n: int): (z: seq<real>)
    requires 0 <= n <= |ks| && n <= |vs|
    ensures |z| == |y|
  {
    if n == 0 then y else Bump(BumpAll(ks, vs, y, n - 1), ks[n - 1], vs[n - 1])
  }

  /** Product i of a and c, when a[i] is r and c[i] is w. */
  lemma ProductAt(a: seq<real>, c: seq<real>, i: int, r: real, w: real)
    requires |a| == |c| && 0 <= i < |a| && a[i] == r && c[i] == w
    ensures Products(a, c)[i] == r * w
  {
  }

  lemma Distrib(p: real, p': real, x: real, y: real, v: real)
    requires p == p' && y == x + v
    ensures p * y == p * x + p' * v
  {
  }

  lemma ScaleCong(p: real, y: real, x: real)
    requires y == x
    ensures p * y == p * x
  {
  }

  lemma ZeroTimes(c: real, v: real)
    requires c == 0.0
    ensures c * v == 0.0
  {
  }

  lemma SumCong(x: seq<real>, y: seq<real>, z: seq<real>)
    requires |x| == |y| && y == z
    ensures Sum(Products(x, y), |x|) == Sum(Products(x, z), |x|)
  {
  }

  /**
   * Bumping y at k by v adds to the inner product with x the product a[i] * c[i]
   * of any a, c that hold the read of x at k and the value v at position i.
   */
  lemma BumpTerm(x: seq<real>, y: seq<real>, k: Option<nat>, v: real, a: seq<real>, c: seq<real>, i: int)
    requires |x| == |y| && |a| == |c| && 0 <= i < |a| && a[i] == Read(x, k) && c[i] == v
    ensures Sum(Products(x, Bump(y, k, v)), |x|) == Sum(Products(x, y), |x|) + Products(a, c)[i]
  {
    if k.Some? && k.value < |y| {
      BumpAt(x, y, k, v, a, c, i);
    } else {
      TermMiss(x, y, k, v, a, c, i);
    }
  }

  lemma TermMiss(x: seq<real>, y: seq<real>, k: Option<nat>, v: real, a: seq<real>, c: seq<real>, i: int)
    requires |x| == |y| && |a| == |c| && 0 <= i < |a| && !(k.Some? && k.value < |y|) && a[i] == 0.0
    ensures Sum(Products(x, Bump(y, k, v)), |x|) == Sum(Products(x, y), |x|) + Products(a, c)[i]
  {
    BumpMiss(y, k, v);
    ZeroTimes(a[i], c[i]);
  }

  /**
   * Bumping the first n values at positions whose reads are a[base + q],
   * with values c[base + q], adds terms base .. base + n - 1 of the inner
   * product of a and c.
   */
  lemma {:induction false} BumpAllDot(ks: seq<Option<nat>>, vs: seq<real>, x: seq<real>, y: seq<real>,
                                      a: seq<real>, c: seq<real>, base: int, n: int)
    requires |x| == |y| && 0 <= n <= |ks| && n <= |vs| && 0 <= base && base + n <= |a| && |a| == |c|
    requires forall q :: 0 <= q < n ==> a[base + q] == Read(x, ks[q]) && c[base + q] == vs[q]
    ensures Sum(Products(x, BumpAll(ks, vs, y, n)), |x|) ==
      Sum(Products(x, y), |x|) + (Sum(Products(a, c), base + n) - Sum(Products(a, c), base))
  {
    if n > 0 {
      BumpAllDot(ks, vs, x, y, a, c, base, n - 1);
      BumpTerm(x, BumpAll(ks, vs, y, n - 1), ks[n - 1], vs[n - 1], a, c, base + n - 1);
    }
  }
}
