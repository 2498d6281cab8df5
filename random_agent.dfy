// The random agent (include/talawa-ai/rl/RandomAgent.hpp): it collects the
// actions its mask allows and picks one of them. The random draw is a
// parameter; the observed state is not an input because `act` never reads it.
module RandomAgents {
  import opened Common
  import opened MatrixSpec

  /** Whether `mask(0, i)` can be read without `operator()` throwing. */
  ghost predicate Readable(mask: Mat, i: int)
  {
    Wf(mask) && 0 < mask.rows && 0 <= i < mask.cols
  }

  /** Whether action i is allowed: always without a mask, else when `mask(0, i) > 0.5`. */
  ghost predicate Allows(mask: Option<Mat>, i: int)
  {
    mask.None? || (Readable(mask.value, i) && Get(mask.value, 0, i) > 0.5)
  }

  /** The allowed actions among 0 .. n-1, in increasing order. */
  ghost function AllowedBelow(mask: Option<Mat>, n: int): seq<int>
    decreases n
  {
    if n <= 0 then []
    else AllowedBelow(mask, n - 1) + (if Allows(mask, n - 1) then [n - 1] else [])
  }

  /** `AllowedBelow` lists exactly the allowed actions below n, without repeats, in increasing order. */
  lemma {:induction false} AllowedBelowMeans(mask: Option<Mat>, n: int)
    ensures forall i :: i in AllowedBelow(mask, n) <==> 0 <= i < n && Allows(mask, i)
    ensures forall k, l :: 0 <= k < l < |AllowedBelow(mask, n)| ==> AllowedBelow(mask, n)[k] < AllowedBelow(mask, n)[l]
    decreases n
  {
    if n > 0 {
      AllowedBelowMeans(mask, n - 1);
      var p := AllowedBelow(mask, n - 1);
      assert forall k :: 0 <= k < |p| ==> p[k] < n - 1 by {
        forall k | 0 <= k < |p| ensures p[k] < n - 1 { assert p[k] in p; }
      }
    }
  }

  /** With no mask, every action below n is allowed, so there are exactly max(n, 0) of them. */
  lemma {:induction false} UnmaskedAllowsAll(n: int)
    ensures |AllowedBelow(None, n)| == Max(n, 0)
    decreases n
  {
    if n > 0 {
      UnmaskedAllowsAll(n - 1);
    }
  }

  /** Reading the mask fails on the first index it lacks: row 0 or column i. */
  ghost predicate MaskTooSmall(mask: Option<Mat>, actionSize: int)
  {
    mask.Some? && actionSize > 0 && !Readable(mask.value, actionSize - 1)
  }

  /**
   * `act`: an error when the mask cannot be read at some action index, or
   * when no action is allowed; otherwise the 1 x 1 matrix holding the
   * allowed action that the draw selects.
   */
  method Act(actionSize: int, mask: Option<Mat>, draw: nat) returns (r: Result<Mat>)
    requires mask.Some? ==> Wf(mask.value)
    ensures MaskTooSmall(mask, actionSize) ==> r.Err?
    ensures !MaskTooSmall(mask, actionSize) ==>
      (r.Err? <==> |AllowedBelow(mask, actionSize)| == 0)
    ensures r.Ok? ==> exists c :: 0 <= c < actionSize && Allows(mask, c) && r.value == Mat(1, 1, [c as real])
    ensures r.Ok? ==> var v := AllowedBelow(mask, actionSize); r.value == Mat(1, 1, [v[draw % |v|] as real])
  {
    var valid: seq<int> := [];
    var i := 0;
    while i < actionSize
      invariant 0 <= i <= Max(actionSize, 0)
      invariant valid == AllowedBelow(mask, i)
      invariant mask.Some? && i > 0 ==> Readable(mask.value, i - 1)
    {
      if mask.Some? {
        var m := mask.value;
        if !(0 < m.rows && i < m.cols) {
          assert !Readable(m, actionSize - 1);
          return Err("Matrix index out of range");
        }
        if Get(m, 0, i) > 0.5 {
          valid := valid + [i];
        }
      } else {
        valid := valid + [i];
      }
      i := i + 1;
    }
    assert valid == AllowedBelow(mask, actionSize);
    if |valid| == 0 {
      return Err("No valid actions available for RandomAgent.");
    }
    var choice := valid[draw % |valid|];
    AllowedBelowMeans(mask, actionSize);
    assert choice in valid;
    return Ok(Mat(1, 1, [choice as real]));
  }
}
