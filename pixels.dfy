/**
 * Per-frame pixel handling: the validity mask built from the rendered
 * opacity and distortion, the in-place zeroing of rejected depth and normal
 * entries, the extraction of the surviving entries, and the draw of
 * `kf_samples` indices with replacement.
 */
module Pixels {
  import opened Common
  import opened Geometry

  /** One rendered pixel: `surf_depth`, `rend_normal`, `rend_alpha` and `rend_dist` at that pixel. */
  datatype Pixel = Pixel(depth: real, normal: Vec3, alpha: real, dist: real)

  function Alphas(img: seq<Pixel>): (r: seq<real>)
    ensures |r| == |img|
  {
    seq(|img|, i requires 0 <= i < |img| => img[i].alpha)
  }

  function Dists(img: seq<Pixel>): (r: seq<real>)
    ensures |r| == |img|
  {
    seq(|img|, i requires 0 <= i < |img| => img[i].dist)
  }

  /** Element-wise `xs < t`. */
  function LessThan(xs: seq<real>, t: real): (r: seq<bool>)
    ensures |r| == |xs|
  {
    seq(|xs|, i requires 0 <= i < |xs| => xs[i] < t)
  }

  /** Element-wise `xs > t`. */
  function GreaterThan(xs: seq<real>, t: real): (r: seq<bool>)
    ensures |r| == |xs|
  {
    seq(|xs|, i requires 0 <= i < |xs| => xs[i] > t)
  }

  /** Element-wise `a | b`. */
  function Or(a: seq<bool>, b: seq<bool>): (r: seq<bool>)
    requires |a| == |b|
    ensures |r| == |a|
  {
    seq(|a|, i requires 0 <= i < |a| => a[i] || b[i])
  }

  /**
   * `(alpha < min_opacity) | (dist > max_depth_dist)`: a pixel is rejected
   * exactly when its opacity is strictly below the minimum or its distortion
   * strictly above the maximum, so a pixel that sits on either bound is kept.
   */
  function InvalidMask(img: seq<Pixel>, minOpacity: real, maxDepthDist: real): (mask: seq<bool>)
    ensures |mask| == |img|
    ensures forall i :: 0 <= i < |img| ==>
      (mask[i] <==> img[i].alpha < minOpacity || img[i].dist > maxDepthDist)
  {
    Or(LessThan(Alphas(img), minOpacity), GreaterThan(Dists(img), maxDepthDist))
  }

  /** `s` with every masked entry replaced by `zero`. */
  function Masked<T>(s: seq<T>, mask: seq<bool>, zero: T): (r: seq<T>)
    requires |s| == |mask|
  {
    seq(|s|, i requires 0 <= i < |s| => if mask[i] then zero else s[i])
  }

  /** `a[..., mask] = zero`, in place. */
  method ZeroMasked<T>(a: array<T>, mask: seq<bool>, zero: T)
    requires a.Length == |mask|
    modifies a
    ensures a[..] == Masked(old(a[..]), mask, zero)
  {
    for i := 0 to a.Length
      invariant forall j :: 0 <= j < i ==> a[j] == if mask[j] then zero else old(a[j])
      invariant forall j :: i <= j < a.Length ==> a[j] == old(a[j])
    {
      if mask[i] {
        a[i] := zero;
      }
    }
  }

  /** `s[~mask]`: the entries whose mask bit is clear, in order. */
  function Compress<T>(s: seq<T>, mask: seq<bool>): (r: seq<T>)
    requires |s| == |mask|
    ensures |r| <= |s|
    ensures forall i :: 0 <= i < |r| ==> r[i] in s
  {
    if |s| == 0 then []
    else Compress(s[..|s| - 1], mask[..|s| - 1]) + (if mask[|s| - 1] then [] else [s[|s| - 1]])
  }

  /** The positions whose mask bit is clear, in increasing order. */
  function ValidIndices(mask: seq<bool>): seq<nat> {
    if |mask| == 0 then []
    else ValidIndices(mask[..|mask| - 1]) + (if mask[|mask| - 1] then [] else [|mask| - 1])
  }

  /** There are as many valid positions as clear mask bits. */
  lemma {:induction false} ValidIndicesCount(mask: seq<bool>)
    ensures |ValidIndices(mask)| == multiset(mask)[false]
  {
    var n := |mask|;
    if n > 0 {
      var init := mask[..n - 1];
      ValidIndicesCount(init);
      assert mask == init + [mask[n - 1]];
      assert multiset(mask) == multiset(init) + multiset{mask[n - 1]};
    }
  }

  /** Every valid position is in range, its bit is clear, and the positions increase strictly. */
  lemma {:induction false} ValidIndicesSound(mask: seq<bool>)
    ensures forall i :: 0 <= i < |ValidIndices(mask)| ==>
      ValidIndices(mask)[i] < |mask| && !mask[ValidIndices(mask)[i]]
    ensures forall i, j :: 0 <= i < j < |ValidIndices(mask)| ==> ValidIndices(mask)[i] < ValidIndices(mask)[j]
  {
    var n := |mask|;
    if n > 0 {
      var init := mask[..n - 1];
      ValidIndicesSound(init);
      var prev, all := ValidIndices(init), ValidIndices(mask);
      var last: seq<nat> := if mask[n - 1] then [] else [n - 1];
      assert all == prev + last;
      forall i | 0 <= i < |all| ensures all[i] < n && !mask[all[i]] {
        if i < |prev| {
          assert all[i] == prev[i] && mask[prev[i]] == init[prev[i]];
        }
      }
    }
  }

  /** Every clear mask bit is a valid position. */
  lemma {:induction false} ValidIndicesComplete(mask: seq<bool>)
    ensures forall j :: 0 <= j < |mask| && !mask[j] ==> j in ValidIndices(mask)
  {
    var n := |mask|;
    if n > 0 {
      var init := mask[..n - 1];
      ValidIndicesComplete(init);
      var prev, all := ValidIndices(init), ValidIndices(mask);
      assert all == prev + (if mask[n - 1] then [] else [n - 1]);
      forall j | 0 <= j < n && !mask[j] ensures j in all {
        if j < n - 1 {
          assert !init[j] && j in prev;
        }
      }
    }
  }

  /**
   * The valid positions are exactly the clear mask bits, each once and in
   * increasing order, and there are as many as the mask has `false` entries.
   */
  lemma ValidIndicesExact(mask: seq<bool>)
    ensures |ValidIndices(mask)| == multiset(mask)[false]
    ensures forall i :: 0 <= i < |ValidIndices(mask)| ==>
      ValidIndices(mask)[i] < |mask| && !mask[ValidIndices(mask)[i]]
    ensures forall i, j :: 0 <= i < j < |ValidIndices(mask)| ==> ValidIndices(mask)[i] < ValidIndices(mask)[j]
    ensures forall j :: 0 <= j < |mask| && !mask[j] ==> j in ValidIndices(mask)
  {
    ValidIndicesCount(mask);
    ValidIndicesSound(mask);
    ValidIndicesComplete(mask);
  }

  /** `s[~mask]` takes entry `ValidIndices(mask)[i]` of `s` as its entry `i`. */
  lemma {:induction false} CompressSelects<T>(s: seq<T>, mask: seq<bool>)
    requires |s| == |mask|
    ensures |Compress(s, mask)| == |ValidIndices(mask)|
    ensures forall i :: 0 <= i < |Compress(s, mask)| ==>
      ValidIndices(mask)[i] < |s| && Compress(s, mask)[i] == s[ValidIndices(mask)[i]]
  {
    var n := |s|;
    if n > 0 {
      CompressSelects(s[..n - 1], mask[..n - 1]);
      ValidIndicesExact(mask[..n - 1]);
    }
  }

  /** `s[~mask]` only looks at the entries the mask keeps. */
  lemma {:induction false} CompressAgrees<T>(s: seq<T>, t: seq<T>, mask: seq<bool>)
    requires |s| == |t| == |mask|
    requires forall i :: 0 <= i < |mask| && !mask[i] ==> s[i] == t[i]
    ensures Compress(s, mask) == Compress(t, mask)
  {
    var n := |s|;
    if n > 0 {
      CompressAgrees(s[..n - 1], t[..n - 1], mask[..n - 1]);
    }
  }

  /** Zeroing the rejected entries first does not change what `s[~mask]` extracts. */
  lemma CompressIgnoresMasked<T>(s: seq<T>, mask: seq<bool>, zero: T)
    requires |s| == |mask|
    ensures Compress(Masked(s, mask, zero), mask) == Compress(s, mask)
  {
    CompressAgrees(Masked(s, mask, zero), s, mask);
  }

  /**
   * `np.random.choice(n, count)`: `count` independent uniform draws from
   * [0, n), repeats allowed. numpy refuses an empty population unless no
   * sample is asked for, and a negative sample count. Which indices come out
   * is left open: any sequence of the right length and range may.
   */
  method SampleIndices(n: nat, count: int) returns (r: Result<seq<nat>>)
    ensures r.Err? <==> (n == 0 && count != 0) || count < 0
    ensures r.Err? ==> r.error == if n == 0 then EmptySample else NegativeSampleCount
    ensures r.Ok? ==> |r.value| == count && forall i :: 0 <= i < |r.value| ==> r.value[i] < n
  {
    if n == 0 && count != 0 {
      return Err(EmptySample);
    }
    if count < 0 {
      return Err(NegativeSampleCount);
    }
    var zeros: seq<nat> := seq(count, _ => 0);
    assert |zeros| == count && forall i :: 0 <= i < |zeros| ==> zeros[i] < n;
    var draws: seq<nat> :| |draws| == count && forall i :: 0 <= i < |draws| ==> draws[i] < n;
    return Ok(draws);
  }

  /** `xs[idxs]`: the entries of `xs` at the drawn indices, repeats included. */
  function Gather<T>(xs: seq<T>, idxs: seq<nat>): (r: seq<T>)
    requires forall i :: 0 <= i < |idxs| ==> idxs[i] < |xs|
    ensures |r| == |idxs|
    ensures forall i :: 0 <= i < |r| ==> r[i] in xs
  {
    seq(|idxs|, i requires 0 <= i < |idxs| => xs[idxs[i]])
  }
}
