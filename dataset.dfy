// An in-memory dataset (src/utils/Dataset.cpp): a feature matrix, a label
// matrix and the order in which their rows are visited. `splice` copies a
// batch of rows through that order; `shuffle` permutes it with random draws
// given as a parameter.
module Datasets {
  import opened Common
  import opened MatrixSpec

  /** Whether row `idx` of m can be read: a matrix with no columns is never read. */
  predicate RowReadable(m: Mat, idx: int)
  {
    m.cols == 0 || 0 <= idx < m.rows
  }

  /** Whether batch row k (visit order position `start + k`) can be copied from both matrices. */
  predicate Copyable(features: Mat, labels: Mat, idx: int)
  {
    RowReadable(features, idx) && RowReadable(labels, idx)
  }

  /**
   * The cells of an `|ids|` x `src.cols` batch whose rows are copied, up to
   * and excluding cell (i, j) in row-major order, from the source rows
   * `ids`; the rest are zero.
   */
  ghost predicate CopiedUpTo(dst: Mat, src: Mat, ids: seq<int>, i: int, j: int)
  {
    Wf(dst) && Wf(src) && dst.rows == |ids| && dst.cols == src.cols &&
    forall a, b :: 0 <= a < dst.rows && 0 <= b < dst.cols ==>
      Get(dst, a, b) == if (a < i || (a == i && b < j)) && 0 <= ids[a] < src.rows then Get(src, ids[a], b) else 0.0
  }

  /** The first batch position whose source row cannot be copied, or |ids| when all can. */
  function FirstBad(features: Mat, labels: Mat, ids: seq<int>): (k: nat)
    ensures k <= |ids|
    ensures forall k' :: 0 <= k' < k ==> Copyable(features, labels, ids[k'])
    ensures k < |ids| ==> !Copyable(features, labels, ids[k])
  {
    if |ids| == 0 then 0
    else if !Copyable(features, labels, ids[0]) then 0
    else 1 + FirstBad(features, labels, ids[1..])
  }

  class Dataset {
    /** `indices`: the order in which rows are visited. */
    var indices: seq<int>
    /** `features`: one sample per row. */
    var features: Mat
    /** `labels`: one one-hot label row per sample. */
    var labels: Mat

    ghost predicate Valid()
      reads this
    {
      Wf(features) && Wf(labels)
    }

    /** `size()`: the number of feature rows. */
    function Size(): nat
      reads this
    {
      features.rows
    }

    /** `Dataset() = default`: no indices, two 0 x 0 matrices. */
    constructor ()
      ensures Valid() && indices == [] && features == Mat(0, 0, []) && labels == Mat(0, 0, [])
      ensures Size() == 0
    {
      indices, features, labels := [], Mat(0, 0, []), Mat(0, 0, []);
    }

    /** The dataset built by the loader: indices 0 .. rows-1. */
    constructor Of(f: Mat, l: Mat)
      requires Wf(f) && Wf(l)
      ensures Valid() && features == f && labels == l
      ensures |indices| == f.rows && forall k :: 0 <= k < |indices| ==> indices[k] == k
    {
      features, labels := f, l;
      indices := seq(f.rows, k => k);
    }

    /**
     * `shuffle`: swaps `indices[i]` with `indices[draw(i) % (i + 1)]` for i
     * from the last position down to 1, the Fisher-Yates scheme; only the
     * order of the indices changes.
     */
    method Shuffle(draw: nat -> nat)
      requires Valid()
      modifies this
      ensures Valid() && features == old(features) && labels == old(labels)
      ensures |indices| == |old(indices)| && multiset(indices) == multiset(old(indices))
    {
      var i := |indices| - 1;
      while i > 0
        invariant i < |indices|
        invariant |indices| == |old(indices)| && multiset(indices) == multiset(old(indices))
        invariant features == old(features) && labels == old(labels)
      {
        var j := draw(i) % (i + 1);
        indices := indices[i := indices[j]][j := indices[i]];
        i := i - 1;
      }
    }

    /**
     * `splice(start, end, featureBatch, labelBatch)`: the out-parameters
     * come in as `fb0`, `lb0` and leave as `fb`, `lb`. Out-of-range bounds
     * throw before anything is written; otherwise both batches are reset
     * to zero matrices of `end - start` rows and filled row by row, batch
     * row k from source row `indices[start + k]`. A visited index outside a
     * matrix throws mid-copy, leaving the rows copied so far.
     */
    method Splice(start: nat, end: nat, fb0: Mat, lb0: Mat) returns (fb: Mat, lb: Mat, r: Result<()>)
      requires Valid()
      requires start < end <= Size() ==> end <= |indices|
      ensures !(start < end <= Size()) ==> r.Err? && fb == fb0 && lb == lb0
      ensures start < end <= Size() ==>
        var ids, k := indices[start..end], FirstBad(features, labels, indices[start..end]);
        (r.Ok? <==> k == |ids|) &&
        CopiedUpTo(lb, labels, ids, k, 0) &&
        CopiedUpTo(fb, features, ids, if k < |ids| && RowReadable(features, ids[k]) then k + 1 else k, 0)
    {
      if end > Size() || start >= end {
        return fb0, lb0, Err("Dataset::splice indices out of bounds");
      }
      var n := end - start;
      var ids := indices[start..end];
      fb, lb := Zeros(n, features.cols), Zeros(n, labels.cols);
      var i := 0;
      while i < n
        invariant 0 <= i <= FirstBad(features, labels, ids)
        invariant CopiedUpTo(fb, features, ids, i, 0) && CopiedUpTo(lb, labels, ids, i, 0)
      {
        var idx := ids[i];
        if !RowReadable(features, idx) {
          return fb, lb, Err("Matrix indices out of bounds");
        }
        fb := CopyRow(fb, features, ids, i, idx);
        if !RowReadable(labels, idx) {
          return fb, lb, Err("Matrix indices out of bounds");
        }
        lb := CopyRow(lb, labels, ids, i, idx);
        i := i + 1;
      }
      r := Ok(());
    }
  }

  /**
   * A batch copied in full: batch row k is source row `ids[k]`, cell by
   * cell, when every source row could be read.
   */
  lemma CopiedBatch(dst: Mat, src: Mat, ids: seq<int>)
    requires CopiedUpTo(dst, src, ids, |ids|, 0)
    requires forall k :: 0 <= k < |ids| ==> RowReadable(src, ids[k])
    ensures dst.rows == |ids| && dst.cols == src.cols
    ensures forall k, j :: 0 <= k < |ids| && 0 <= j < src.cols ==> 0 <= ids[k] < src.rows && Get(dst, k, j) == Get(src, ids[k], j)
  {
  }

  /** The inner column loop of `splice`: batch row i becomes source row idx. */
  method CopyRow(dst0: Mat, src: Mat, ids: seq<int>, i: nat, idx: int) returns (dst: Mat)
    requires CopiedUpTo(dst0, src, ids, i, 0) && i < |ids| && ids[i] == idx && RowReadable(src, idx)
    ensures CopiedUpTo(dst, src, ids, i + 1, 0)
  {
    dst := dst0;
    var j := 0;
    while j < src.cols
      invariant 0 <= j <= src.cols
      invariant CopiedUpTo(dst, src, ids, i, j)
    {
      dst := Set(dst, i, j, Get(src, idx, j));
      j := j + 1;
    }
  }
}
