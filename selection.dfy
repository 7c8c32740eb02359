/**
 * Keyframe decimation in the mesher. One counter runs over every frame of
 * every model, in `graph.models` then `frame_ids` order; it is incremented
 * before the test, so a frame is rendered when its 1-based position is a
 * multiple of the interval.
 */
module Selection {
  import opened Common
  import opened Graph

  /** The `continue` test: an interval is given, positive, and does not divide the counter. */
  predicate Skips(interval: Option<int>, counter: int) {
    interval.Some? && interval.value > 0 && counter % interval.value != 0
  }

  /** A frame as the mesher's loop visits it: the index of its model and the id listed there. */
  datatype FrameRef = FrameRef(model: nat, frameId: int)

  function ModelRefs(g: ResultGraph, m: nat): seq<FrameRef>
    requires m < |g.models|
  {
    var ids := g.models[m].frameIds;
    seq(|ids|, k requires 0 <= k < |ids| => FrameRef(m, ids[k]))
  }

  /** The frames of the first `m` models, in visiting order. */
  function RefsUpTo(g: ResultGraph, m: nat): seq<FrameRef>
    requires m <= |g.models|
  {
    if m == 0 then [] else RefsUpTo(g, m - 1) + ModelRefs(g, m - 1)
  }

  /** Visiting the `k`-th frame id of model `m` extends the visited prefix by one reference. */
  lemma VisitStep(g: ResultGraph, m: nat, k: nat)
    requires m < |g.models| && k < |g.models[m].frameIds|
    ensures RefsUpTo(g, m) + ModelRefs(g, m)[..k + 1] ==
      (RefsUpTo(g, m) + ModelRefs(g, m)[..k]) + [FrameRef(m, g.models[m].frameIds[k])]
  {
    assert ModelRefs(g, m)[..k + 1] == ModelRefs(g, m)[..k] + [FrameRef(m, g.models[m].frameIds[k])];
  }

  /** Having visited every frame of model `m`, the prefix is that of the first `m + 1` models. */
  lemma VisitDone(g: ResultGraph, m: nat)
    requires m < |g.models|
    ensures RefsUpTo(g, m) + ModelRefs(g, m)[..|g.models[m].frameIds|] == RefsUpTo(g, m + 1)
  {
    assert ModelRefs(g, m)[..|g.models[m].frameIds|] == ModelRefs(g, m);
  }

  function FrameRefs(g: ResultGraph): seq<FrameRef> {
    RefsUpTo(g, |g.models|)
  }

  /** The entries of `refs` that are rendered, when the counter reaches `i + 1` at entry `i`. */
  function Kept<T>(refs: seq<T>, interval: Option<int>): (r: seq<T>)
    ensures |r| <= |refs|
    ensures forall i :: 0 <= i < |r| ==> r[i] in refs
  {
    if |refs| == 0 then []
    else Kept(refs[..|refs| - 1], interval) + (if Skips(interval, |refs|) then [] else [refs[|refs| - 1]])
  }

  /** Visiting one more entry: it is rendered exactly when the counter, now `|refs| + 1`, does not skip. */
  lemma KeptSnoc<T>(refs: seq<T>, x: T, interval: Option<int>)
    ensures Kept(refs + [x], interval) == Kept(refs, interval) + (if Skips(interval, |refs| + 1) then [] else [x])
  {
    assert (refs + [x])[..|refs|] == refs;
  }

  /** Without a positive interval every frame is rendered. */
  lemma {:induction false} KeptAll<T>(refs: seq<T>, interval: Option<int>)
    requires interval.None? || interval.value <= 0
    ensures Kept(refs, interval) == refs
  {
    if |refs| > 0 {
      KeptAll(refs[..|refs| - 1], interval);
      assert refs[..|refs| - 1] + [refs[|refs| - 1]] == refs;
    }
  }

  /** Euclidean division is unique: a representation n = q k + r with 0 <= r < k gives n / k and n % k. */
  lemma DivModUnique(n: int, k: int, q: int, r: int)
    requires k > 0 && 0 <= r < k && n == q * k + r
    ensures n / k == q && n % k == r
  {
    var d := n / k - q;
    assert n == (n / k) * k + n % k;
    assert d * k == r - n % k;
    if d >= 1 {
      MulMonotone(1, d, k);
    } else if d <= -1 {
      MulMonotone(d, -1, k);
    }
  }

  /** Stepping the counter back by one frame. */
  lemma DivStep(n: int, k: int)
    requires n > 0 && k > 0
    ensures n % k == 0 ==> (n - 1) / k == n / k - 1 && (n / k) * k == n
    ensures n % k != 0 ==> (n - 1) / k == n / k
  {
    var q, r := n / k, n % k;
    assert n == q * k + r;
    if r == 0 {
      DivModUnique(n - 1, k, q - 1, k - 1);
    } else {
      DivModUnique(n - 1, k, q, r - 1);
    }
  }

  lemma MulMonotone(a: int, b: int, k: int)
    requires a <= b && k >= 0
    ensures a * k <= b * k
  {
    assert b * k - a * k == (b - a) * k;
  }

  /** (i + 1) * k, counted up in steps of k. */
  function Stride(i: nat, k: int): (r: int)
    ensures k > 0 ==> r >= k
  {
    if i == 0 then k else Stride(i - 1, k) + k
  }

  lemma {:induction false} StrideIsProduct(i: nat, k: int)
    ensures Stride(i, k) == (i + 1) * k
  {
    if i > 0 { StrideIsProduct(i - 1, k); }
  }

  lemma {:induction false} KeptEveryStride<T>(refs: seq<T>, k: int)
    requires k > 0
    ensures |Kept(refs, Some(k))| == |refs| / k
    ensures forall i :: 0 <= i < |Kept(refs, Some(k))| ==>
      Stride(i, k) <= |refs| && Kept(refs, Some(k))[i] == refs[Stride(i, k) - 1]
  {
    var n := |refs|;
    if n > 0 {
      var init := refs[..n - 1];
      KeptEveryStride(init, k);
      DivStep(n, k);
      var prev := Kept(init, Some(k));
      var all := Kept(refs, Some(k));
      if n % k == 0 {
        assert all == prev + [refs[n - 1]];
        forall i | 0 <= i < |all| ensures Stride(i, k) <= n && all[i] == refs[Stride(i, k) - 1] {
          if i < |prev| {
            assert all[i] == prev[i];
          } else {
            StrideIsProduct(i, k);
          }
        }
      } else {
        assert all == prev;
      }
    }
  }

  /**
   * With a positive interval k, entry `i` of the rendered frames is the one at
   * 1-based position (i + 1) k, that is zero-based k - 1, 2k - 1, 3k - 1, ...
   */
  lemma KeptAt<T>(refs: seq<T>, k: int, i: nat)
    requires k > 0 && i < |Kept(refs, Some(k))|
    ensures 0 < (i + 1) * k <= |refs| && Kept(refs, Some(k))[i] == refs[(i + 1) * k - 1]
  {
    KeptEveryStride(refs, k);
    StrideIsProduct(i, k);
  }

  /** With a positive interval k exactly `|refs| / k` frames are rendered. */
  lemma KeptCount<T>(refs: seq<T>, k: int)
    requires k > 0
    ensures |Kept(refs, Some(k))| == |refs| / k
  {
    KeptEveryStride(refs, k);
  }

  /**
   * Two models of three frames each, interval 2: the counter reaches 2, 4
   * and 6 at the second frame of the first model and at the first and third
   * frames of the second, so those three frames, and only they, are rendered.
   */
  lemma TwoModelsEveryOther(g: ResultGraph)
    requires |g.models| == 2 && |g.models[0].frameIds| == 3 && |g.models[1].frameIds| == 3
    ensures |FrameRefs(g)| == 6
    ensures Kept(FrameRefs(g), Some(2)) ==
      [FrameRef(0, g.models[0].frameIds[1]), FrameRef(1, g.models[1].frameIds[0]), FrameRef(1, g.models[1].frameIds[2])]
  {
    var refs := FrameRefs(g);
    assert RefsUpTo(g, 1) == ModelRefs(g, 0);
    assert refs == ModelRefs(g, 0) + ModelRefs(g, 1);
    KeptCount(refs, 2);
    KeptAt(refs, 2, 0);
    KeptAt(refs, 2, 1);
    KeptAt(refs, 2, 2);
  }

  /** On the graph `from_slam` builds, the loop visits the frames in id order, one visit per frame. */
  lemma {:induction false} SlamRefsInOrder(models: seq<LocalModel>, outputDir: string, m: nat)
    requires m <= |models|
    ensures var g := SlamGraph(models, outputDir);
      |RefsUpTo(g, m)| == Offset(models, m) &&
      forall i :: 0 <= i < |RefsUpTo(g, m)| ==> RefsUpTo(g, m)[i].frameId == i
  {
    var g := SlamGraph(models, outputDir);
    if m > 0 {
      SlamRefsInOrder(models, outputDir, m - 1);
      var prev, last := RefsUpTo(g, m - 1), ModelRefs(g, m - 1);
      assert RefsUpTo(g, m) == prev + last;
      forall i | 0 <= i < |RefsUpTo(g, m)| ensures RefsUpTo(g, m)[i].frameId == i {
        if i >= |prev| {
          assert RefsUpTo(g, m)[i] == last[i - |prev|];
        } else {
          assert RefsUpTo(g, m)[i] == prev[i];
        }
      }
    }
  }

  /** On such a graph the progress count, one per visited frame, ends at `len(graph.frames)`. */
  lemma SlamProgressComplete(models: seq<LocalModel>, outputDir: string)
    ensures |FrameRefs(SlamGraph(models, outputDir))| == |SlamGraph(models, outputDir).frames|
  {
    SlamRefsInOrder(models, outputDir, |models|);
    SlamFramesLength(models, |models|);
  }
}
