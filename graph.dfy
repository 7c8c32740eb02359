/**
 * The result graph: one record per local model (submap) and one per keyframe,
 * built once from a finished SLAM run and read by the mesher.
 */
module Graph {
  import opened Geometry
  import opened Naming

  /** `ResultModel`: a submap, its world pose (12 values) and the ids of its frames. */
  datatype ResultModel = ResultModel(id: int, worldTModel: seq<real>, filename: string, frameIds: seq<int>)

  /** `ResultFrame`: a keyframe, its pose in its model (12 values) and [fx, fy, cx, cy]. */
  datatype ResultFrame = ResultFrame(id: int, timestamp: real, modelTFrame: seq<real>, projmatrix: seq<real>, modelId: int)

  datatype ResultGraph = ResultGraph(models: seq<ResultModel>, frames: seq<ResultFrame>)

  /** What the graph is built from: a keyframe of a local model, with its camera's projection matrix. */
  datatype Keyframe = Keyframe(timestamp: real, modelTFrame: Matrix4, projection: Matrix4)

  /** A local model of the SLAM run: its world pose and its keyframes, in order. */
  datatype LocalModel = LocalModel(worldTModel: Matrix4, keyframes: seq<Keyframe>)

  // ---------------------------------------------------------------------------
  // The invariants the mesher relies on

  /** Frame `i` of the frame list carries id `i`, so `graph.frames[rfid]` finds frame `rfid`. */
  predicate FrameIdsDense(g: ResultGraph) {
    forall i :: 0 <= i < |g.frames| ==> g.frames[i].id == i
  }

  predicate ModelIdsDense(g: ResultGraph) {
    forall m :: 0 <= m < |g.models| ==> g.models[m].id == m
  }

  /** Every id a model lists names an existing frame that points back at that model. */
  predicate CrossReferenced(g: ResultGraph) {
    forall m, k :: 0 <= m < |g.models| && 0 <= k < |g.models[m].frameIds| ==>
      0 <= g.models[m].frameIds[k] < |g.frames| &&
      g.frames[g.models[m].frameIds[k]].modelId == g.models[m].id
  }

  /** Every frame is listed by the model it points at. */
  predicate FramesOwned(g: ResultGraph) {
    forall i :: 0 <= i < |g.frames| ==>
      0 <= g.frames[i].modelId < |g.models| && i in g.models[g.frames[i].modelId].frameIds
  }

  /** No model lists a frame twice: its frame ids increase strictly. */
  predicate FrameListsIncreasing(g: ResultGraph) {
    forall m, k, l :: 0 <= m < |g.models| && 0 <= k < l < |g.models[m].frameIds| ==>
      g.models[m].frameIds[k] < g.models[m].frameIds[l]
  }

  /** Stored poses hold 12 values and projection records 4. */
  predicate RecordShapes(g: ResultGraph) {
    (forall m :: 0 <= m < |g.models| ==> |g.models[m].worldTModel| == 12) &&
    (forall i :: 0 <= i < |g.frames| ==> |g.frames[i].modelTFrame| == 12 && |g.frames[i].projmatrix| == 4)
  }

  predicate WellFormed(g: ResultGraph) {
    FrameIdsDense(g) && ModelIdsDense(g) && CrossReferenced(g) && FramesOwned(g) &&
    FrameListsIncreasing(g) && RecordShapes(g)
  }

  /** In a well-formed graph a frame is in exactly one model's list: the one it points at. */
  lemma ListedByOwnerOnly(g: ResultGraph, i: nat, m: nat)
    requires WellFormed(g) && i < |g.frames| && m < |g.models|
    ensures i in g.models[m].frameIds <==> g.frames[i].modelId == m
  {
    if i in g.models[m].frameIds {
      var k :| 0 <= k < |g.models[m].frameIds| && g.models[m].frameIds[k] == i;
      assert g.frames[g.models[m].frameIds[k]].modelId == g.models[m].id;
    }
  }

  // ---------------------------------------------------------------------------
  // Building the graph from a SLAM run (`ResultGraph.from_slam`)

  /** The id of the first frame of model `m`: the number of keyframes of the models before it. */
  function Offset(models: seq<LocalModel>, m: nat): nat
    requires m <= |models|
  {
    if m == 0 then 0 else Offset(models, m - 1) + |models[m - 1].keyframes|
  }

  lemma {:induction false} OffsetMonotone(models: seq<LocalModel>, a: nat, b: nat)
    requires a <= b <= |models|
    ensures Offset(models, a) <= Offset(models, b)
  {
    if a < b { OffsetMonotone(models, a, b - 1); }
  }

  function FrameRecord(id: nat, kf: Keyframe, mid: nat): ResultFrame {
    ResultFrame(id, kf.timestamp, PoseRecord(kf.modelTFrame), ProjectionRecord(kf.projection), mid)
  }

  /** The frame records of model `mid`, numbered on from `Offset(models, mid)`. */
  function ModelFrames(models: seq<LocalModel>, mid: nat): seq<ResultFrame>
    requires mid < |models|
  {
    var kfs := models[mid].keyframes;
    seq(|kfs|, j requires 0 <= j < |kfs| => FrameRecord(Offset(models, mid) + j, kfs[j], mid))
  }

  /** The frame records of the first `m` models, in model-then-keyframe order. */
  function SlamFrames(models: seq<LocalModel>, m: nat): seq<ResultFrame>
    requires m <= |models|
  {
    if m == 0 then [] else SlamFrames(models, m - 1) + ModelFrames(models, m - 1)
  }

  function IdRange(lo: nat, n: nat): seq<int> {
    seq(n, j => lo + j)
  }

  function ModelRecord(models: seq<LocalModel>, mid: nat, outputDir: string): ResultModel
    requires mid < |models|
  {
    ResultModel(mid, PoseRecord(models[mid].worldTModel), JoinPath(outputDir, PlyName(mid)),
                IdRange(Offset(models, mid), |models[mid].keyframes|))
  }

  function SlamModels(models: seq<LocalModel>, m: nat, outputDir: string): seq<ResultModel>
    requires m <= |models|
  {
    seq(m, mid requires 0 <= mid < m => ModelRecord(models, mid, outputDir))
  }

  /** The graph `from_slam` returns, as a value. */
  function SlamGraph(models: seq<LocalModel>, outputDir: string): ResultGraph {
    ResultGraph(SlamModels(models, |models|, outputDir), SlamFrames(models, |models|))
  }

  lemma {:induction false} SlamFramesLength(models: seq<LocalModel>, m: nat)
    requires m <= |models|
    ensures |SlamFrames(models, m)| == Offset(models, m)
  {
    if m > 0 { SlamFramesLength(models, m - 1); }
  }

  /** Keyframe `k` of model `mid` sits at entry `Offset(mid) + k` of `frames`. */
  predicate PlacedAt(models: seq<LocalModel>, frames: seq<ResultFrame>, mid: nat, k: nat)
    requires mid < |models| && k < |models[mid].keyframes|
  {
    Offset(models, mid) + k < |frames| &&
    frames[Offset(models, mid) + k] == FrameRecord(Offset(models, mid) + k, models[mid].keyframes[k], mid)
  }

  /** Where each frame lands in the frame list: keyframe `k` of model `mid` is entry `Offset(mid) + k`. */
  lemma {:induction false} SlamFramesPlacement(models: seq<LocalModel>, m: nat)
    requires m <= |models|
    ensures forall mid, k :: 0 <= mid < m && 0 <= k < |models[mid].keyframes| ==>
      PlacedAt(models, SlamFrames(models, m), mid, k)
  {
    SlamFramesLength(models, m);
    if m > 0 {
      SlamFramesPlacement(models, m - 1);
      SlamFramesLength(models, m - 1);
      var prev, last := SlamFrames(models, m - 1), ModelFrames(models, m - 1);
      var all := SlamFrames(models, m);
      assert all == prev + last;
      forall mid, k | 0 <= mid < m && 0 <= k < |models[mid].keyframes|
        ensures PlacedAt(models, all, mid, k)
      {
        if mid < m - 1 {
          OffsetMonotone(models, mid + 1, m - 1);
          assert PlacedAt(models, prev, mid, k);
          assert all[Offset(models, mid) + k] == prev[Offset(models, mid) + k];
        } else {
          assert all[Offset(models, mid) + k] == last[k];
        }
      }
    }
  }

  /** Every entry of the frame list is a keyframe of the model it names, inside that model's run. */
  lemma {:induction false} SlamFramesOwner(models: seq<LocalModel>, m: nat)
    requires m <= |models|
    ensures |SlamFrames(models, m)| == Offset(models, m)
    ensures forall i :: 0 <= i < Offset(models, m) ==>
      var mid := SlamFrames(models, m)[i].modelId;
      0 <= mid < m && Offset(models, mid) <= i < Offset(models, mid) + |models[mid].keyframes|
  {
    SlamFramesLength(models, m);
    if m > 0 {
      SlamFramesOwner(models, m - 1);
      var prev, last := SlamFrames(models, m - 1), ModelFrames(models, m - 1);
      var all := SlamFrames(models, m);
      assert all == prev + last;
      forall i | 0 <= i < Offset(models, m)
        ensures var mid := all[i].modelId;
          0 <= mid < m && Offset(models, mid) <= i < Offset(models, mid) + |models[mid].keyframes|
      {
        if i < Offset(models, m - 1) {
          assert all[i] == prev[i];
        } else {
          assert all[i] == last[i - Offset(models, m - 1)];
        }
      }
    }
  }

  /** Frame ids run 0, 1, 2, ... across the whole graph. */
  lemma SlamFrameIds(models: seq<LocalModel>, i: nat)
    requires i < |SlamFrames(models, |models|)|
    ensures SlamFrames(models, |models|)[i].id == i
  {
    SlamFramesPlacement(models, |models|);
    SlamFramesOwner(models, |models|);
    var f := SlamFrames(models, |models|)[i];
    var mid := f.modelId;
    var k := i - Offset(models, mid);
    assert PlacedAt(models, SlamFrames(models, |models|), mid, k);
  }

  /** Model `m` lists exactly the ids Offset(m), ..., Offset(m + 1) - 1, and those frames point back at it. */
  lemma SlamCrossReferenced(models: seq<LocalModel>, outputDir: string)
    ensures CrossReferenced(SlamGraph(models, outputDir))
    ensures FrameListsIncreasing(SlamGraph(models, outputDir))
  {
    var g := SlamGraph(models, outputDir);
    SlamFramesPlacement(models, |models|);
    forall m, k | 0 <= m < |g.models| && 0 <= k < |g.models[m].frameIds|
      ensures 0 <= g.models[m].frameIds[k] < |g.frames|
      ensures g.frames[g.models[m].frameIds[k]].modelId == g.models[m].id
    {
      OffsetMonotone(models, m + 1, |models|);
      assert g.models[m].frameIds[k] == Offset(models, m) + k;
      assert PlacedAt(models, g.frames, m, k);
    }
  }

  /** Every frame is listed by the model it points at. */
  lemma SlamFramesOwned(models: seq<LocalModel>, outputDir: string)
    ensures FramesOwned(SlamGraph(models, outputDir))
    ensures RecordShapes(SlamGraph(models, outputDir))
  {
    var g := SlamGraph(models, outputDir);
    SlamFramesPlacement(models, |models|);
    SlamFramesOwner(models, |models|);
    forall i | 0 <= i < |g.frames|
      ensures 0 <= g.frames[i].modelId < |g.models| && i in g.models[g.frames[i].modelId].frameIds
      ensures |g.frames[i].modelTFrame| == 12 && |g.frames[i].projmatrix| == 4
    {
      var mid := g.frames[i].modelId;
      var k := i - Offset(models, mid);
      assert g.models[mid].frameIds[k] == i;
      assert PlacedAt(models, g.frames, mid, k);
    }
  }

  /**
   * Everything the mesher checks and assumes holds of the graph `from_slam`
   * builds: dense frame and model ids, consistent cross-references, each frame
   * in exactly one contiguous run, 12-value poses and 4-value projections.
   */
  lemma SlamGraphWellFormed(models: seq<LocalModel>, outputDir: string)
    ensures WellFormed(SlamGraph(models, outputDir))
  {
    var g := SlamGraph(models, outputDir);
    forall i | 0 <= i < |g.frames| ensures g.frames[i].id == i {
      SlamFrameIds(models, i);
    }
    SlamCrossReferenced(models, outputDir);
    SlamFramesOwned(models, outputDir);
  }

  /**
   * `ResultGraph.from_slam`: one global frame counter, one model record per
   * local model (file `output_dir/{mid:04d}.ply`), one frame record per keyframe.
   */
  method FromSlam(models: seq<LocalModel>, outputDir: string) returns (g: ResultGraph)
    ensures g == SlamGraph(models, outputDir)
    ensures WellFormed(g)
  {
    var frameId: nat := 0;
    var modelLst: seq<ResultModel> := [];
    var frameLst: seq<ResultFrame> := [];
    for mid := 0 to |models|
      invariant frameId == Offset(models, mid)
      invariant modelLst == SlamModels(models, mid, outputDir)
      invariant frameLst == SlamFrames(models, mid)
    {
      var model := models[mid];
      var wTm := PoseRecord(model.worldTModel);
      var filename := JoinPath(outputDir, PlyName(mid));
      var frameIds: seq<int> := [];
      for j := 0 to |model.keyframes|
        invariant frameId == Offset(models, mid) + j
        invariant frameIds == IdRange(Offset(models, mid), j)
        invariant frameLst == SlamFrames(models, mid) + ModelFrames(models, mid)[..j]
      {
        var frame := model.keyframes[j];
        var mTf := PoseRecord(frame.modelTFrame);
        var projmatrix := ProjectionRecord(frame.projection);
        var rframe := ResultFrame(frameId, frame.timestamp, mTf, projmatrix, mid);
        assert ModelFrames(models, mid)[..j + 1] == ModelFrames(models, mid)[..j] + [rframe];
        frameLst := frameLst + [rframe];
        frameIds := frameIds + [frameId];
        frameId := frameId + 1;
      }
      assert ModelFrames(models, mid)[..|model.keyframes|] == ModelFrames(models, mid);
      var rmodel := ResultModel(mid, wTm, filename, frameIds);
      modelLst := modelLst + [rmodel];
    }
    g := ResultGraph(modelLst, frameLst);
    SlamGraphWellFormed(models, outputDir);
  }
}
