// A tensor shape (include/talawa/core/Shape.hpp): a rank and the dims, kept
// in a six-slot inline buffer when the rank allows it and in a heap vector
// otherwise. Whatever the storage, the shape means the sequence `Dims()`.
module Shapes {

  /** MAX_STACK_DIMS: the size of the inline buffer. */
  const MaxStackDims: nat := 6

  /** The product of all dims, the empty product being 1. */
  function Volume(dims: seq<int>): int
  {
    if |dims| == 0 then 1 else Volume(dims[..|dims| - 1]) * dims[|dims| - 1]
  }

  class Shape {
    /** `stack_dims_`: the inline buffer, meaningful up to `rank`. */
    var stackDims: array<int>
    /** `heap_dims_`: used only when the rank exceeds the buffer. */
    var heapDims: seq<int>
    var rank: int
    var useHeap: bool

    ghost predicate Valid()
      reads this, stackDims
    {
      stackDims.Length == MaxStackDims && 0 <= rank &&
      (useHeap <==> rank > MaxStackDims) && (useHeap ==> |heapDims| == rank)
    }

    /** The dims the shape stands for, read from whichever storage is in use. */
    ghost function Dims(): seq<int>
      reads this, stackDims
      requires Valid()
    {
      if useHeap then heapDims else stackDims[..rank]
    }

    /** `Shape()`: rank 0, inline storage. */
    constructor Empty()
      ensures Valid() && Dims() == [] && !useHeap && fresh(stackDims)
    {
      stackDims := new int[MaxStackDims];
      heapDims := [];
      rank := 0;
      useHeap := false;
    }

    /** `Shape(dims)`: a fresh shape set up from the given dims. */
    constructor FromDims(dims: seq<int>)
      ensures Valid() && Dims() == dims && rank == |dims| && fresh(stackDims)
    {
      stackDims := new int[MaxStackDims];
      heapDims := [];
      rank := 0;
      useHeap := false;
      new;
      Setup(dims);
    }

    /**
     * `setup`: rank becomes the number of dims; up to six dims are copied
     * into the inline buffer, more go to the heap vector.
     */
    method Setup(dims: seq<int>)
      requires stackDims.Length == MaxStackDims
      modifies this, stackDims
      ensures Valid() && Dims() == dims && rank == |dims|
      ensures useHeap <==> |dims| > MaxStackDims
      ensures stackDims == old(stackDims)
    {
      rank := |dims|;
      if rank <= MaxStackDims {
        useHeap := false;
        var i := 0;
        while i < rank
          invariant 0 <= i <= rank == |dims| <= MaxStackDims == stackDims.Length
          invariant stackDims[..i] == dims[..i]
          invariant !useHeap && stackDims == old(stackDims)
          modifies stackDims
        {
          stackDims[i] := dims[i];
          i := i + 1;
        }
        assert stackDims[..rank] == dims;
      } else {
        useHeap := true;
        heapDims := dims;
      }
    }

    /** `operator[]`: the i-th dim, from the heap vector or the inline buffer. */
    function At(index: int): (d: int)
      reads this, stackDims
      requires Valid() && 0 <= index < rank
      ensures d == Dims()[index]
    {
      if useHeap then heapDims[index] else stackDims[index]
    }

    /** `size()`: 0 for rank 0, otherwise the running product of the dims. */
    method Size() returns (product: int)
      requires Valid()
      ensures product == if rank == 0 then 0 else Volume(Dims())
    {
      if rank == 0 {
        return 0;
      }
      product := 1;
      var i := 0;
      while i < rank
        invariant 0 <= i <= rank == |Dims()|
        invariant product == Volume(Dims()[..i])
      {
        assert Dims()[..i + 1][..i] == Dims()[..i];
        product := product * At(i);
        i := i + 1;
      }
      assert Dims()[..rank] == Dims();
    }

    /** `operator==`: equal ranks and equal dims, compared one by one. */
    method Equals(other: Shape) returns (same: bool)
      requires Valid() && other.Valid()
      ensures same <==> Dims() == other.Dims()
    {
      if rank != other.rank {
        return false;
      }
      var i := 0;
      while i < rank
        invariant 0 <= i <= rank
        invariant Dims()[..i] == other.Dims()[..i]
      {
        if At(i) != other.At(i) {
          return false;
        }
        i := i + 1;
      }
      assert Dims() == Dims()[..rank] && other.Dims() == other.Dims()[..rank];
      return true;
    }
  }

  /** A dim of zero makes the whole volume zero. */
  lemma {:induction false} VolumeZero(dims: seq<int>, k: int)
    requires 0 <= k < |dims| && dims[k] == 0
    ensures Volume(dims) == 0
  {
    if k < |dims| - 1 {
      VolumeZero(dims[..|dims| - 1], k);
    }
  }

  /** Positive dims give a positive volume. */
  lemma {:induction false} VolumePositive(dims: seq<int>)
    requires forall k :: 0 <= k < |dims| ==> dims[k] > 0
    ensures Volume(dims) > 0
  {
    if |dims| > 0 {
      var front := dims[..|dims| - 1];
      VolumePositive(front);
      PositiveInt(Volume(front), dims[|dims| - 1], Volume(dims));
    }
  }

  lemma PositiveInt(a: int, b: int, w: int)
    requires a > 0 && b > 0 && w == a * b
    ensures w > 0
  {}

  /** Two shapes set up from the same dims compare equal, whatever their storage. */
  method SameDimsEqual(dims: seq<int>) returns (same: bool)
    ensures same
  {
    var a := new Shape.FromDims(dims);
    var b := new Shape.FromDims(dims);
    same := a.Equals(b);
  }
}
