/**
 * `mesh_poisson`: walk the graph's frames, render every selected keyframe in
 * its model's frame, keep the reliable pixels, draw `kf_samples` of them,
 * move them to world coordinates with the model's pose, merge everything
 * into one cloud, and run the Poisson reconstruction with density pruning.
 * The renderer, the back-projection, the Poisson solver and the quantile are
 * parameters: the model fixes what they are given and what is done with what
 * they return.
 */
module Pipeline {
  import opened Common
  import opened Geometry
  import opened Naming
  import opened Graph
  import opened Selection
  import opened Pixels
  import opened Reconstruction

  /** The camera handed to the renderer: intrinsics, its pose in the model frame, the image size. */
  datatype Camera = Camera(k: Matrix, worldTLidar: Matrix4, width: nat, height: nat)

  /** The external code the mesher calls. */
  datatype Collaborators = Collaborators(
    render: (Camera, string, real) -> seq<Pixel>,          // `render(camera, GaussianModel loaded from path, depth_ratio)`
    unproject: (Camera, nat, real) -> Vec3,                // `depth_to_points(camera, depth, True)` at one pixel
    poisson: (seq<Vec3>, seq<Vec3>, PoissonMode) -> seq<real>, // the per-vertex densities of the Poisson mesh
    quantile: (seq<real>, real) -> real)                   // `np.quantile`

  /** The arguments of `mesh_poisson` that steer it, and the configured image size. */
  datatype MeshConfig = MeshConfig(
    imageWidth: nat, imageHeight: nat,
    kfInterval: Option<int>, kfSamples: int,
    minOpacity: real, maxDepthDist: real,
    poissonDepth: Option<int>, poissonWidth: Option<real>, poissonMinDensity: Option<real>,
    useMedianDepth: bool)

  /** What one rendered frame contributes, before the world transform: the drawn points and normals. */
  datatype FrameSample = FrameSample(draws: seq<nat>, points: seq<Vec3>, normals: seq<Vec3>)

  /** The merged cloud, the Poisson variant used, the vertex densities and the pruning mask, if any. */
  datatype MeshResult = MeshResult(
    points: seq<Vec3>, normals: seq<Vec3>, mode: PoissonMode,
    densities: seq<real>, removal: Option<seq<bool>>)

  /** `1.0 if use_median_depth else 0.0`. */
  function DepthRatio(cfg: MeshConfig): real {
    if cfg.useMedianDepth then 1.0 else 0.0
  }

  /** Python's `xs[i]`: negative indices count from the end, anything else outside is an IndexError. */
  function PyIndex<T>(xs: seq<T>, i: int): (r: Option<T>)
    ensures r.Some? <==> -|xs| <= i < |xs|
    ensures r.Some? && i >= 0 ==> r.value == xs[i]
    ensures r.Some? && i < 0 ==> r.value == xs[|xs| + i]
  {
    if 0 <= i < |xs| then Some(xs[i])
    else if -|xs| <= i < 0 then Some(xs[|xs| + i])
    else None
  }

  /** (fx x + cx z, fy y + cy z, z) for the record [fx, fy, cx, cy]: the pinhole image of (x, y, z) before the division by z. */
  function PinholeImage(p: seq<real>, v: Vec3): Vec3
    requires |p| >= 4
  {
    Vec3(p[0] * v.x + p[2] * v.z, p[1] * v.y + p[3] * v.z, v.z)
  }

  /**
   * The camera for a frame: its stored pose completed to 4x4 and its
   * projection record turned into K; a pose that does not hold 12 values or a
   * record shorter than 4 stops the run.
   */
  function FrameCamera(cfg: MeshConfig, rframe: ResultFrame): (r: Result<Camera>)
    ensures r.Err? <==> |rframe.modelTFrame| != 12 || |rframe.projmatrix| < 4
    ensures r.Err? ==> r.error == if |rframe.modelTFrame| != 12 then PoseShape else ProjectionTooShort
  {
    match CompletePose(rframe.modelTFrame)
    case None => Err(PoseShape)
    case Some(pose) =>
      match Intrinsics(rframe.projmatrix)
      case None => Err(ProjectionTooShort)
      case Some(k) => Ok(Camera(k, pose, cfg.imageWidth, cfg.imageHeight))
  }

  /**
   * The renderer sees the frame's own frame-to-model pose (storing it again
   * gives back the frame's record), never the model-to-world one, and a
   * pinhole camera with the frame's [fx, fy, cx, cy] at the configured size.
   */
  lemma FrameCameraGeometry(cfg: MeshConfig, rframe: ResultFrame, v: Vec3)
    requires FrameCamera(cfg, rframe).Ok?
    ensures var cam := FrameCamera(cfg, rframe).value;
      && PoseRecord(cam.worldTLidar) == rframe.modelTFrame
      && cam.worldTLidar[3] == HomogeneousRow
      && IsMatrix(cam.k, 3, 3)
      && MatVec3(cam.k, v) == PinholeImage(rframe.projmatrix, v)
      && cam.width == cfg.imageWidth && cam.height == cfg.imageHeight
  {
    RecordRoundTrip(rframe.modelTFrame);
    IntrinsicsProjects(rframe.projmatrix, v);
  }

  /** The back-projected points of the pixels the mask keeps, in pixel order. */
  function CandidatePoints(col: Collaborators, cam: Camera, img: seq<Pixel>, mask: seq<bool>): seq<Vec3>
    requires |mask| == |img|
  {
    Compress(seq(|img|, i requires 0 <= i < |img| => col.unproject(cam, i, img[i].depth)), mask)
  }

  /** The rendered normals of the pixels the mask keeps, in pixel order. */
  function CandidateNormals(img: seq<Pixel>, mask: seq<bool>): seq<Vec3>
    requires |mask| == |img|
  {
    Compress(seq(|img|, i requires 0 <= i < |img| => img[i].normal), mask)
  }

  /** Extraction yields one point and one normal per valid pixel, paired by pixel. */
  lemma CandidatesPaired(col: Collaborators, cam: Camera, img: seq<Pixel>, mask: seq<bool>)
    requires |mask| == |img|
    ensures |CandidatePoints(col, cam, img, mask)| == |CandidateNormals(img, mask)| == multiset(mask)[false]
    ensures |ValidIndices(mask)| == |CandidatePoints(col, cam, img, mask)|
    ensures forall i :: 0 <= i < |CandidatePoints(col, cam, img, mask)| ==>
      var p := ValidIndices(mask)[i];
      p < |img| && !mask[p] &&
      CandidatePoints(col, cam, img, mask)[i] == col.unproject(cam, p, img[p].depth) &&
      CandidateNormals(img, mask)[i] == img[p].normal
  {
    CompressSelects(seq(|img|, i requires 0 <= i < |img| => col.unproject(cam, i, img[i].depth)), mask);
    CompressSelects(seq(|img|, i requires 0 <= i < |img| => img[i].normal), mask);
    ValidIndicesExact(mask);
  }

  /** `s` is a draw the mesher can make for frame `rframe` of the model stored at `path`. */
  ghost predicate IsFrameSample(cfg: MeshConfig, col: Collaborators, path: string, rframe: ResultFrame, s: FrameSample) {
    FrameCamera(cfg, rframe).Ok? &&
    var cam := FrameCamera(cfg, rframe).value;
    var img := col.render(cam, path, DepthRatio(cfg));
    var mask := InvalidMask(img, cfg.minOpacity, cfg.maxDepthDist);
    var pts := CandidatePoints(col, cam, img, mask);
    var nrm := CandidateNormals(img, mask);
    |pts| == |nrm| &&
    |s.draws| == cfg.kfSamples &&
    (forall i :: 0 <= i < |s.draws| ==> s.draws[i] < |pts|) &&
    s.points == Gather(pts, s.draws) && s.normals == Gather(nrm, s.draws)
  }

  /**
   * The exception one selected frame raises once it is looked up, if any:
   * building the camera (lines 144-152) first, then `np.random.choice` on the
   * number of valid pixels (line 180).
   */
  function FrameError(cfg: MeshConfig, col: Collaborators, path: string, rframe: ResultFrame): Option<Error> {
    match FrameCamera(cfg, rframe)
    case Err(e) => Some(e)
    case Ok(cam) =>
      var valid := multiset(InvalidMask(col.render(cam, path, DepthRatio(cfg)), cfg.minOpacity, cfg.maxDepthDist))[false];
      if (valid == 0 && cfg.kfSamples != 0) || cfg.kfSamples < 0 then
        Some(if valid == 0 then EmptySample else NegativeSampleCount)
      else None
  }

  /**
   * Lines 173-177 on one rendered image: zero the rejected depth and normal
   * entries in place, back-project the depth, and extract the valid pixels.
   */
  method ExtractCandidates(col: Collaborators, camera: Camera, img: seq<Pixel>, invalidMask: seq<bool>)
    returns (xyz: seq<Vec3>, nxyz: seq<Vec3>)
    requires |invalidMask| == |img|
    ensures xyz == CandidatePoints(col, camera, img, invalidMask)
    ensures nxyz == CandidateNormals(img, invalidMask)
  {
    var n := |img|;
    var depth := new real[n](i => if 0 <= i < n then img[i].depth else 0.0);
    var normals := new Vec3[n](i => if 0 <= i < n then img[i].normal else Vec3(0.0, 0.0, 0.0));
    ZeroMasked(depth, invalidMask, 0.0);
    ZeroMasked(normals, invalidMask, Vec3(0.0, 0.0, 0.0));

    var depthNow := depth[..];
    xyz := Compress(seq(n, i requires 0 <= i < n => col.unproject(camera, i, depthNow[i])), invalidMask);
    nxyz := Compress(normals[..], invalidMask);
    CompressAgrees(seq(n, i requires 0 <= i < n => col.unproject(camera, i, depthNow[i])),
                   seq(n, i requires 0 <= i < n => col.unproject(camera, i, img[i].depth)), invalidMask);
    CompressAgrees(normals[..], seq(n, i requires 0 <= i < n => img[i].normal), invalidMask);
  }

  /**
   * One selected frame (lines 144-186): build the camera, render, mask,
   * extract the valid pixels, and draw `kf_samples` of them with replacement.
   */
  method ProcessFrame(cfg: MeshConfig, col: Collaborators, path: string, rframe: ResultFrame)
    returns (r: Result<FrameSample>)
    ensures FrameCamera(cfg, rframe).Err? ==> r == Err(FrameCamera(cfg, rframe).error)
    ensures FrameCamera(cfg, rframe).Ok? ==>
      var cam := FrameCamera(cfg, rframe).value;
      var img := col.render(cam, path, DepthRatio(cfg));
      var valid := multiset(InvalidMask(img, cfg.minOpacity, cfg.maxDepthDist))[false];
      (r.Err? <==> (valid == 0 && cfg.kfSamples != 0) || cfg.kfSamples < 0) &&
      (r.Err? ==> r.error == if valid == 0 then EmptySample else NegativeSampleCount)
    ensures r.Err? <==> FrameError(cfg, col, path, rframe).Some?
    ensures r.Err? ==> r.error == FrameError(cfg, col, path, rframe).value
    ensures r.Ok? ==> IsFrameSample(cfg, col, path, rframe, r.value)
    ensures r.Ok? ==> |r.value.points| == |r.value.normals| == cfg.kfSamples
  {
    var camera :- FrameCamera(cfg, rframe);
    var img := col.render(camera, path, DepthRatio(cfg));
    var invalidMask := InvalidMask(img, cfg.minOpacity, cfg.maxDepthDist);
    ghost var valid := multiset(invalidMask)[false];
    assert FrameError(cfg, col, path, rframe) ==
      if (valid == 0 && cfg.kfSamples != 0) || cfg.kfSamples < 0 then
        Some(if valid == 0 then EmptySample else NegativeSampleCount)
      else None;

    var xyz, nxyz := ExtractCandidates(col, camera, img, invalidMask);
    CandidatesPaired(col, camera, img, invalidMask);

    var sampled := SampleIndices(|xyz|, cfg.kfSamples);
    if sampled.Err? {
      return Err(sampled.error);
    }
    var idxs := sampled.value;
    r := Ok(FrameSample(idxs, Gather(xyz, idxs), Gather(nxyz, idxs)));
  }

  function TransformPoints(m: Matrix4, ps: seq<Vec3>): (r: seq<Vec3>)
    ensures |r| == |ps|
  {
    seq(|ps|, i requires 0 <= i < |ps| => ApplyToPoint(m, ps[i]))
  }

  function TransformNormals(m: Matrix4, ns: seq<Vec3>): (r: seq<Vec3>)
    ensures |r| == |ns|
  {
    seq(|ns|, i requires 0 <= i < |ns| => ApplyToNormal(m, ns[i]))
  }

  /** An Open3D point cloud with normals, modified in place by `transform` and `+=`. */
  class PointCloud {
    var points: seq<Vec3>
    var normals: seq<Vec3>

    constructor (points: seq<Vec3>, normals: seq<Vec3>)
      ensures this.points == points && this.normals == normals
    {
      this.points := points;
      this.normals := normals;
    }

    /** `pcd.transform(T)`: every point moved by T, every normal rotated by it. */
    method Transform(m: Matrix4)
      modifies this
      ensures points == TransformPoints(m, old(points))
      ensures normals == TransformNormals(m, old(normals))
    {
      points := TransformPoints(m, points);
      normals := TransformNormals(m, normals);
    }

    /** `self += other`: the other cloud's points and normals appended after this one's. */
    method Extend(other: PointCloud)
      requires other != this
      modifies this
      ensures points == old(points) + old(other.points)
      ensures normals == old(normals) + old(other.normals)
    {
      var ps, ns := other.points, other.normals;
      points := points + ps;
      normals := normals + ns;
    }
  }

  /** The world pose of model `m`, completed from its stored record. */
  function WorldPose(g: ResultGraph, m: nat): Matrix4
    requires m < |g.models| && |g.models[m].worldTModel| == 12
  {
    CompletePose(g.models[m].worldTModel).value
  }

  predicate PosesStored(g: ResultGraph, refs: seq<FrameRef>) {
    forall i :: 0 <= i < |refs| ==> refs[i].model < |g.models| && |g.models[refs[i].model].worldTModel| == 12
  }

  /** The merged cloud's points: each frame's draws, in world coordinates, in processing order. */
  function MergedPoints(g: ResultGraph, refs: seq<FrameRef>, samples: seq<FrameSample>): seq<Vec3>
    requires |refs| == |samples| && PosesStored(g, refs)
  {
    if |refs| == 0 then []
    else MergedPoints(g, refs[..|refs| - 1], samples[..|refs| - 1]) +
         TransformPoints(WorldPose(g, refs[|refs| - 1].model), samples[|refs| - 1].points)
  }

  function MergedNormals(g: ResultGraph, refs: seq<FrameRef>, samples: seq<FrameSample>): seq<Vec3>
    requires |refs| == |samples| && PosesStored(g, refs)
  {
    if |refs| == 0 then []
    else MergedNormals(g, refs[..|refs| - 1], samples[..|refs| - 1]) +
         TransformNormals(WorldPose(g, refs[|refs| - 1].model), samples[|refs| - 1].normals)
  }

  /** Each processed frame adds exactly `kf_samples` points, so the merged cloud holds (frames) x `kf_samples`. */
  lemma {:induction false} MergedSize(g: ResultGraph, refs: seq<FrameRef>, samples: seq<FrameSample>, count: nat)
    requires |refs| == |samples| && PosesStored(g, refs)
    requires forall i :: 0 <= i < |samples| ==> |samples[i].points| == |samples[i].normals| == count
    ensures |MergedPoints(g, refs, samples)| == |MergedNormals(g, refs, samples)| == |refs| * count
  {
    if |refs| > 0 {
      MergedSize(g, refs[..|refs| - 1], samples[..|refs| - 1], count);
    }
  }

  /** A merged cloud with points needs a rendered frame and a positive draw count. */
  lemma MergedNonEmpty(g: ResultGraph, refs: seq<FrameRef>, samples: seq<FrameSample>, count: int)
    requires |refs| == |samples| && PosesStored(g, refs)
    requires forall i :: 0 <= i < |samples| ==> |samples[i].points| == |samples[i].normals| == count
    requires |MergedPoints(g, refs, samples)| > 0
    ensures |refs| > 0 && count > 0
  {
    if |refs| > 0 {
      assert |samples[0].points| == count;
      MergedSize(g, refs, samples, count);
    }
  }

  /** Appending one frame's draws to the merged cloud. */
  lemma MergedSnoc(g: ResultGraph, refs: seq<FrameRef>, samples: seq<FrameSample>, ref: FrameRef, s: FrameSample)
    requires |refs| == |samples| && PosesStored(g, refs)
    requires ref.model < |g.models| && |g.models[ref.model].worldTModel| == 12
    ensures PosesStored(g, refs + [ref])
    ensures MergedPoints(g, refs + [ref], samples + [s]) ==
      MergedPoints(g, refs, samples) + TransformPoints(WorldPose(g, ref.model), s.points)
    ensures MergedNormals(g, refs + [ref], samples + [s]) ==
      MergedNormals(g, refs, samples) + TransformNormals(WorldPose(g, ref.model), s.normals)
  {
    assert forall i :: 0 <= i < |refs| ==> (refs + [ref])[i] == refs[i];
    assert (refs + [ref])[..|refs|] == refs && (samples + [s])[..|refs|] == samples;
  }

  /** The frame a reference names, as the mesher's loop fetches and checks it. */
  ghost predicate SampledFrom(g: ResultGraph, cfg: MeshConfig, col: Collaborators, graphDirectory: string,
                              ref: FrameRef, s: FrameSample) {
    ref.model < |g.models| &&
    PyIndex(g.frames, ref.frameId).Some? &&
    IsFrameSample(cfg, col, JoinPath(graphDirectory, g.models[ref.model].filename),
                  PyIndex(g.frames, ref.frameId).value, s)
  }

  /** The rendered frames and their draws match up, each draw being one the frame allows. */
  ghost predicate SamplesMatch(g: ResultGraph, cfg: MeshConfig, col: Collaborators, graphDirectory: string,
                               kept: seq<FrameRef>, samples: seq<FrameSample>) {
    |samples| == |kept| && PosesStored(g, kept) &&
    (forall i :: 0 <= i < |kept| ==> SampledFrom(g, cfg, col, graphDirectory, kept[i], samples[i])) &&
    (forall i :: 0 <= i < |samples| ==> |samples[i].points| == |samples[i].normals| == cfg.kfSamples)
  }

  lemma SamplesMatchSnoc(g: ResultGraph, cfg: MeshConfig, col: Collaborators, graphDirectory: string,
                         kept: seq<FrameRef>, samples: seq<FrameSample>, ref: FrameRef, s: FrameSample)
    requires SamplesMatch(g, cfg, col, graphDirectory, kept, samples)
    requires ref.model < |g.models| && |g.models[ref.model].worldTModel| == 12
    requires SampledFrom(g, cfg, col, graphDirectory, ref, s)
    requires |s.points| == |s.normals| == cfg.kfSamples
    ensures SamplesMatch(g, cfg, col, graphDirectory, kept + [ref], samples + [s])
  {
    assert forall i :: 0 <= i < |kept| ==> (kept + [ref])[i] == kept[i] && (samples + [s])[i] == samples[i];
  }

  /** The errors a malformed graph causes; a well-formed graph causes none of them. */
  predicate GraphError(e: Error) {
    e.FrameIndexOutOfRange? || e.FrameIdMismatch? || e.ModelIdMismatch? || e.PoseShape? || e.ProjectionTooShort?
  }

  /**
   * Lines 141-143: the frame a model lists, fetched with Python indexing,
   * must carry the listed id and point back at the model; the first
   * failing step decides the error.
   */
  function LookupFrame(g: ResultGraph, m: nat, k: nat): (r: Result<ResultFrame>)
    requires m < |g.models| && k < |g.models[m].frameIds|
    ensures var rfid := g.models[m].frameIds[k]; var f := PyIndex(g.frames, rfid);
      r.Ok? <==> f.Some? && f.value.id == rfid && f.value.modelId == g.models[m].id
    ensures r.Ok? ==> r.value.id == g.models[m].frameIds[k] && r.value in g.frames
    ensures r.Err? ==> (r.error ==
      if PyIndex(g.frames, g.models[m].frameIds[k]).None? then FrameIndexOutOfRange
      else if PyIndex(g.frames, g.models[m].frameIds[k]).value.id != g.models[m].frameIds[k] then FrameIdMismatch
      else ModelIdMismatch)
  {
    var rfid := g.models[m].frameIds[k];
    var rframe := PyIndex(g.frames, rfid);
    if rframe.None? then Err(FrameIndexOutOfRange)
    else if rframe.value.id != rfid then Err(FrameIdMismatch)
    else if g.models[m].id != rframe.value.modelId then Err(ModelIdMismatch)
    else Ok(rframe.value)
  }

  /** In a well-formed graph both assertions hold: the lookup yields the listed frame, owned by model `m`. */
  lemma LookupWellFormed(g: ResultGraph, m: nat, k: nat)
    requires WellFormed(g) && m < |g.models| && k < |g.models[m].frameIds|
    ensures var rfid := g.models[m].frameIds[k];
      0 <= rfid < |g.frames| && LookupFrame(g, m, k) == Ok(g.frames[rfid]) && g.frames[rfid].modelId == m
  {
    var rfid := g.models[m].frameIds[k];
    assert 0 <= rfid < |g.frames| && g.frames[rfid].modelId == g.models[m].id;
    assert g.frames[rfid].id == rfid && g.models[m].id == m;
  }

  /** The exception the `k`-th listed frame of model `m` raises when it is selected, if any. */
  function FrameFailure(g: ResultGraph, cfg: MeshConfig, col: Collaborators, graphDirectory: string, m: nat, k: nat)
    : Option<Error>
    requires m < |g.models| && k < |g.models[m].frameIds|
  {
    match LookupFrame(g, m, k)
    case Err(e) => Some(e)
    case Ok(rframe) => FrameError(cfg, col, JoinPath(graphDirectory, g.models[m].filename), rframe)
  }

  /**
   * The first exception among the first `k` listed frames of model `m`. The
   * counter at frame `k - 1` is the number of frames visited before this model
   * plus `k`; a frame the interval skips raises nothing.
   */
  function ModelError(g: ResultGraph, cfg: MeshConfig, col: Collaborators, graphDirectory: string, m: nat, k: nat)
    : Option<Error>
    requires m < |g.models| && k <= |g.models[m].frameIds|
  {
    if k == 0 then None
    else if ModelError(g, cfg, col, graphDirectory, m, k - 1).Some? then ModelError(g, cfg, col, graphDirectory, m, k - 1)
    else if Skips(cfg.kfInterval, |RefsUpTo(g, m)| + k) then None
    else FrameFailure(g, cfg, col, graphDirectory, m, k - 1)
  }

  /**
   * The first exception the frame loop over the first `n` models raises: a
   * model pose that does not hold 12 values (line 133, before any of that
   * model's frames), or one of its selected frames.
   */
  function LoopError(g: ResultGraph, cfg: MeshConfig, col: Collaborators, graphDirectory: string, n: nat)
    : Option<Error>
    requires n <= |g.models|
  {
    if n == 0 then None
    else if LoopError(g, cfg, col, graphDirectory, n - 1).Some? then LoopError(g, cfg, col, graphDirectory, n - 1)
    else if |g.models[n - 1].worldTModel| != 12 then Some(PoseShape)
    else ModelError(g, cfg, col, graphDirectory, n - 1, |g.models[n - 1].frameIds|)
  }

  /** One more frame of model `m`, reached with no exception so far. */
  lemma ModelErrorStep(g: ResultGraph, cfg: MeshConfig, col: Collaborators, graphDirectory: string, m: nat, k: nat)
    requires m < |g.models| && k < |g.models[m].frameIds|
    requires ModelError(g, cfg, col, graphDirectory, m, k).None?
    ensures ModelError(g, cfg, col, graphDirectory, m, k + 1) ==
      if Skips(cfg.kfInterval, |RefsUpTo(g, m)| + k + 1) then None else FrameFailure(g, cfg, col, graphDirectory, m, k)
  {
  }

  /** One more model, reached with no exception so far. */
  lemma LoopErrorStep(g: ResultGraph, cfg: MeshConfig, col: Collaborators, graphDirectory: string, m: nat)
    requires m < |g.models|
    requires LoopError(g, cfg, col, graphDirectory, m).None?
    ensures LoopError(g, cfg, col, graphDirectory, m + 1) ==
      if |g.models[m].worldTModel| != 12 then Some(PoseShape)
      else ModelError(g, cfg, col, graphDirectory, m, |g.models[m].frameIds|)
  {
  }

  /** Once a frame of the model has raised, later frames are never reached. */
  lemma {:induction false} ModelErrorStays(g: ResultGraph, cfg: MeshConfig, col: Collaborators, graphDirectory: string,
                                           m: nat, k: nat, j: nat)
    requires m < |g.models| && k <= j <= |g.models[m].frameIds|
    requires ModelError(g, cfg, col, graphDirectory, m, k).Some?
    ensures ModelError(g, cfg, col, graphDirectory, m, j) == ModelError(g, cfg, col, graphDirectory, m, k)
    decreases j
  {
    if j > k {
      ModelErrorStays(g, cfg, col, graphDirectory, m, k, j - 1);
    }
  }

  /** Once a model has raised, later models are never reached. */
  lemma {:induction false} LoopErrorStays(g: ResultGraph, cfg: MeshConfig, col: Collaborators, graphDirectory: string,
                                          n: nat, j: nat)
    requires n <= j <= |g.models|
    requires LoopError(g, cfg, col, graphDirectory, n).Some?
    ensures LoopError(g, cfg, col, graphDirectory, j) == LoopError(g, cfg, col, graphDirectory, n)
    decreases j
  {
    if j > n {
      LoopErrorStays(g, cfg, col, graphDirectory, n, j - 1);
    }
  }

  /** Every one of the first `j` listed frames of model `m` is skipped or passes. */
  ghost predicate FramesPass(g: ResultGraph, cfg: MeshConfig, col: Collaborators, graphDirectory: string, m: nat, j: nat)
    requires m < |g.models| && j <= |g.models[m].frameIds|
  {
    forall k :: 0 <= k < j ==>
      Skips(cfg.kfInterval, |RefsUpTo(g, m)| + k + 1) || FrameFailure(g, cfg, col, graphDirectory, m, k).None?
  }

  /** A model raises nothing exactly when each of its frames is skipped or passes. */
  lemma {:induction false} ModelErrorNone(g: ResultGraph, cfg: MeshConfig, col: Collaborators, graphDirectory: string,
                                          m: nat, j: nat)
    requires m < |g.models| && j <= |g.models[m].frameIds|
    ensures ModelError(g, cfg, col, graphDirectory, m, j).None? <==> FramesPass(g, cfg, col, graphDirectory, m, j)
    decreases j
  {
    if j > 0 {
      ModelErrorNone(g, cfg, col, graphDirectory, m, j - 1);
    }
  }

  /**
   * The frame loop raises nothing exactly when every model pose holds 12
   * values and every frame is skipped or passes its lookup, camera and draw.
   */
  lemma {:induction false} LoopErrorNone(g: ResultGraph, cfg: MeshConfig, col: Collaborators, graphDirectory: string,
                                         n: nat)
    requires n <= |g.models|
    ensures LoopError(g, cfg, col, graphDirectory, n).None? <==>
      forall m :: 0 <= m < n ==>
        |g.models[m].worldTModel| == 12 && FramesPass(g, cfg, col, graphDirectory, m, |g.models[m].frameIds|)
    decreases n
  {
    if n > 0 {
      LoopErrorNone(g, cfg, col, graphDirectory, n - 1);
      ModelErrorNone(g, cfg, col, graphDirectory, n - 1, |g.models[n - 1].frameIds|);
    }
  }

  /** On a well-formed graph with `kf_samples == 0`, no frame raises: every lookup, camera and draw succeeds. */
  lemma ZeroSamplesNoLoopError(g: ResultGraph, cfg: MeshConfig, col: Collaborators, graphDirectory: string)
    requires WellFormed(g) && cfg.kfSamples == 0
    ensures LoopError(g, cfg, col, graphDirectory, |g.models|).None?
  {
    forall m, k | 0 <= m < |g.models| && 0 <= k < |g.models[m].frameIds|
      ensures FrameFailure(g, cfg, col, graphDirectory, m, k).None?
    {
      LookupWellFormed(g, m, k);
    }
    LoopErrorNone(g, cfg, col, graphDirectory, |g.models|);
  }

  /** On a well-formed graph a model's frames can only raise from the draw. */
  lemma {:induction false} WellFormedModelError(g: ResultGraph, cfg: MeshConfig, col: Collaborators,
                                                graphDirectory: string, m: nat, j: nat)
    requires WellFormed(g) && m < |g.models| && j <= |g.models[m].frameIds|
    ensures ModelError(g, cfg, col, graphDirectory, m, j).Some? ==>
      ModelError(g, cfg, col, graphDirectory, m, j).value in {EmptySample, NegativeSampleCount}
    decreases j
  {
    if j > 0 {
      WellFormedModelError(g, cfg, col, graphDirectory, m, j - 1);
      LookupWellFormed(g, m, j - 1);
    }
  }

  /** On a well-formed graph the frame loop can only raise from the draw. */
  lemma {:induction false} WellFormedLoopError(g: ResultGraph, cfg: MeshConfig, col: Collaborators,
                                               graphDirectory: string, n: nat)
    requires WellFormed(g) && n <= |g.models|
    ensures LoopError(g, cfg, col, graphDirectory, n).Some? ==>
      LoopError(g, cfg, col, graphDirectory, n).value in {EmptySample, NegativeSampleCount}
    decreases n
  {
    if n > 0 {
      WellFormedLoopError(g, cfg, col, graphDirectory, n - 1);
      WellFormedModelError(g, cfg, col, graphDirectory, n - 1, |g.models[n - 1].frameIds|);
    }
  }

  /**
   * Lines 141-186 for the `k`-th frame id of model `m`: look the frame up,
   * then render and sample it.
   */
  method RenderFrame(g: ResultGraph, cfg: MeshConfig, col: Collaborators, graphDirectory: string, m: nat, k: nat)
    returns (r: Result<FrameSample>)
    requires m < |g.models| && k < |g.models[m].frameIds|
    ensures LookupFrame(g, m, k).Err? ==> r == Err(LookupFrame(g, m, k).error)
    ensures r.Err? <==> FrameFailure(g, cfg, col, graphDirectory, m, k).Some?
    ensures r.Err? ==> r.error == FrameFailure(g, cfg, col, graphDirectory, m, k).value
    ensures r.Ok? ==> SampledFrom(g, cfg, col, graphDirectory, FrameRef(m, g.models[m].frameIds[k]), r.value)
    ensures r.Ok? ==> |r.value.points| == |r.value.normals| == cfg.kfSamples
    ensures WellFormed(g) && r.Err? ==> !GraphError(r.error)
  {
    var rframe :- LookupFrame(g, m, k);
    if WellFormed(g) {
      LookupWellFormed(g, m, k);
    }
    r := ProcessFrame(cfg, col, JoinPath(graphDirectory, g.models[m].filename), rframe);
  }

  /**
   * One rendered frame (lines 162-189): its draws, moved by the model's
   * world pose, appended to the merged cloud.
   */
  method AddFrame(g: ResultGraph, cfg: MeshConfig, col: Collaborators, graphDirectory: string, m: nat, k: nat,
                  cloud: PointCloud, kept0: seq<FrameRef>, samples0: seq<FrameSample>)
    returns (err: Option<Error>, kept: seq<FrameRef>, samples: seq<FrameSample>)
    requires m < |g.models| && |g.models[m].worldTModel| == 12 && k < |g.models[m].frameIds|
    requires SamplesMatch(g, cfg, col, graphDirectory, kept0, samples0)
    requires cloud.points == MergedPoints(g, kept0, samples0) && cloud.normals == MergedNormals(g, kept0, samples0)
    modifies cloud
    ensures err == FrameFailure(g, cfg, col, graphDirectory, m, k)
    ensures err.None? ==> kept == kept0 + [FrameRef(m, g.models[m].frameIds[k])]
    ensures err.None? ==> (SamplesMatch(g, cfg, col, graphDirectory, kept, samples) &&
      cloud.points == MergedPoints(g, kept, samples) && cloud.normals == MergedNormals(g, kept, samples))
    ensures WellFormed(g) && err.Some? ==> !GraphError(err.value)
  {
    var ref := FrameRef(m, g.models[m].frameIds[k]);
    var sample := RenderFrame(g, cfg, col, graphDirectory, m, k);
    if sample.Err? {
      return Some(sample.error), kept0, samples0;
    }
    var pcd := new PointCloud(sample.value.points, sample.value.normals);
    pcd.Transform(CompletePose(g.models[m].worldTModel).value);
    cloud.Extend(pcd);
    MergedSnoc(g, kept0, samples0, ref, sample.value);
    SamplesMatchSnoc(g, cfg, col, graphDirectory, kept0, samples0, ref, sample.value);
    err, kept, samples := None, kept0 + [ref], samples0 + [sample.value];
  }

  /**
   * One listed frame of model `m` (lines 136-189): advance the global counter,
   * then skip the frame or render it and append its draws to the merged cloud.
   * `visited` is what the loop has visited before this frame.
   */
  method VisitFrame(g: ResultGraph, cfg: MeshConfig, col: Collaborators, graphDirectory: string, m: nat, k: nat,
                    cloud: PointCloud, ghost visited: seq<FrameRef>, processed0: nat,
                    kept0: seq<FrameRef>, samples0: seq<FrameSample>)
    returns (err: Option<Error>, processed: nat, kept: seq<FrameRef>, samples: seq<FrameSample>)
    requires m < |g.models| && |g.models[m].worldTModel| == 12 && k < |g.models[m].frameIds|
    requires processed0 == |visited| == |RefsUpTo(g, m)| + k
    requires ModelError(g, cfg, col, graphDirectory, m, k).None?
    requires kept0 == Kept(visited, cfg.kfInterval)
    requires SamplesMatch(g, cfg, col, graphDirectory, kept0, samples0)
    requires cloud.points == MergedPoints(g, kept0, samples0) && cloud.normals == MergedNormals(g, kept0, samples0)
    modifies cloud
    ensures processed == processed0 + 1
    ensures err == ModelError(g, cfg, col, graphDirectory, m, k + 1)
    ensures err.None? ==> kept == Kept(visited + [FrameRef(m, g.models[m].frameIds[k])], cfg.kfInterval)
    ensures err.None? ==> (SamplesMatch(g, cfg, col, graphDirectory, kept, samples) &&
      cloud.points == MergedPoints(g, kept, samples) && cloud.normals == MergedNormals(g, kept, samples))
    ensures WellFormed(g) && err.Some? ==> !GraphError(err.value)
  {
    KeptSnoc(visited, FrameRef(m, g.models[m].frameIds[k]), cfg.kfInterval);
    processed := processed0 + 1;
    ModelErrorStep(g, cfg, col, graphDirectory, m, k);
    if Skips(cfg.kfInterval, processed) {
      return None, processed, kept0, samples0;
    }
    err, kept, samples := AddFrame(g, cfg, col, graphDirectory, m, k, cloud, kept0, samples0);
  }

  /**
   * The frames of one model (lines 135-189), visited in listed order, with
   * the global counter passed in and handed back.
   */
  method ProcessModel(g: ResultGraph, cfg: MeshConfig, col: Collaborators, graphDirectory: string, m: nat,
                      cloud: PointCloud, processed0: nat, kept0: seq<FrameRef>, samples0: seq<FrameSample>)
    returns (err: Option<Error>, processed: nat, kept: seq<FrameRef>, samples: seq<FrameSample>)
    requires m < |g.models| && |g.models[m].worldTModel| == 12
    requires processed0 == |RefsUpTo(g, m)|
    requires kept0 == Kept(RefsUpTo(g, m), cfg.kfInterval)
    requires SamplesMatch(g, cfg, col, graphDirectory, kept0, samples0)
    requires cloud.points == MergedPoints(g, kept0, samples0) && cloud.normals == MergedNormals(g, kept0, samples0)
    modifies cloud
    ensures err == ModelError(g, cfg, col, graphDirectory, m, |g.models[m].frameIds|)
    ensures err.None? ==> processed == |RefsUpTo(g, m + 1)| && kept == Kept(RefsUpTo(g, m + 1), cfg.kfInterval)
    ensures err.None? ==> (SamplesMatch(g, cfg, col, graphDirectory, kept, samples) &&
      cloud.points == MergedPoints(g, kept, samples) && cloud.normals == MergedNormals(g, kept, samples))
    ensures WellFormed(g) && err.Some? ==> !GraphError(err.value)
  {
    ghost var visited := RefsUpTo(g, m);
    assert visited + ModelRefs(g, m)[..0] == visited;
    processed, kept, samples := processed0, kept0, samples0;
    for k := 0 to |g.models[m].frameIds|
      invariant visited == RefsUpTo(g, m) + ModelRefs(g, m)[..k]
      invariant processed == |visited| == |RefsUpTo(g, m)| + k
      invariant ModelError(g, cfg, col, graphDirectory, m, k).None?
      invariant kept == Kept(visited, cfg.kfInterval)
      invariant SamplesMatch(g, cfg, col, graphDirectory, kept, samples)
      invariant cloud.points == MergedPoints(g, kept, samples)
      invariant cloud.normals == MergedNormals(g, kept, samples)
    {
      VisitStep(g, m, k);
      err, processed, kept, samples :=
        VisitFrame(g, cfg, col, graphDirectory, m, k, cloud, visited, processed, kept, samples);
      visited := visited + [FrameRef(m, g.models[m].frameIds[k])];
      if err.Some? {
        ModelErrorStays(g, cfg, col, graphDirectory, m, k + 1, |g.models[m].frameIds|);
        return;
      }
    }
    VisitDone(g, m);
    err := None;
  }

  /** Open3D's `HasNormals()`: the cloud has points and one normal per point. */
  predicate HasNormals(points: seq<Vec3>, normals: seq<Vec3>) {
    |points| > 0 && |normals| == |points|
  }

  /**
   * Lines 196-214 on the merged cloud: choose the Poisson variant, have the
   * binding check its arguments, have the solver refuse a cloud without
   * normals, run it, and build the pruning mask from its densities.
   */
  function Reconstruct(cfg: MeshConfig, col: Collaborators, points: seq<Vec3>, normals: seq<Vec3>)
    : (r: Result<MeshResult>)
    ensures r.Err? <==> (SolverMode(cfg.poissonDepth, cfg.poissonWidth).Err? || !HasNormals(points, normals) ||
      PruneMask(cfg.poissonMinDensity, col.poisson(points, normals, SolverMode(cfg.poissonDepth, cfg.poissonWidth).value),
                col.quantile).Err?)
    ensures r.Err? && SolverMode(cfg.poissonDepth, cfg.poissonWidth).Err? ==>
      r.error == SolverMode(cfg.poissonDepth, cfg.poissonWidth).error
    ensures SolverMode(cfg.poissonDepth, cfg.poissonWidth).Ok? && !HasNormals(points, normals) ==> r == Err(NoNormals)
    ensures r.Err? ==> !GraphError(r.error)
    ensures r.Ok? ==> HasNormals(points, normals)
    ensures r.Ok? ==> r.value.points == points && r.value.normals == normals
    ensures r.Ok? ==> ChooseMode(cfg.poissonDepth, cfg.poissonWidth) == Ok(r.value.mode) && SolverAccepts(r.value.mode)
    ensures r.Ok? ==> r.value.densities == col.poisson(points, normals, r.value.mode)
    ensures r.Ok? ==> PruneMask(cfg.poissonMinDensity, r.value.densities, col.quantile) == Ok(r.value.removal)
  {
    var mode :- SolverMode(cfg.poissonDepth, cfg.poissonWidth);
    if !HasNormals(points, normals) then Err(NoNormals) else
    var densities := col.poisson(points, normals, mode);
    var removal :- PruneMask(cfg.poissonMinDensity, densities, col.quantile);
    Ok(MeshResult(points, normals, mode, densities, removal))
  }

  /**
   * The frame loop of `mesh_poisson` (lines 122-189): every model's frames
   * in turn, one counter over all of them, merged into one new cloud. On an
   * exception it stops with what it has done so far.
   */
  method MergeFrames(g: ResultGraph, cfg: MeshConfig, col: Collaborators, graphDirectory: string)
    returns (err: Option<Error>, cloud: PointCloud, kept: seq<FrameRef>, samples: seq<FrameSample>, processed: nat)
    ensures err == LoopError(g, cfg, col, graphDirectory, |g.models|)
    ensures err.None? ==> processed == |FrameRefs(g)| && kept == Kept(FrameRefs(g), cfg.kfInterval)
    ensures err.None? ==> (SamplesMatch(g, cfg, col, graphDirectory, kept, samples) &&
      cloud.points == MergedPoints(g, kept, samples) && cloud.normals == MergedNormals(g, kept, samples))
    ensures WellFormed(g) && err.Some? ==> !GraphError(err.value)
  {
    cloud := new PointCloud([], []);
    processed, kept, samples := 0, [], [];
    for m := 0 to |g.models|
      invariant processed == |RefsUpTo(g, m)|
      invariant LoopError(g, cfg, col, graphDirectory, m).None?
      invariant kept == Kept(RefsUpTo(g, m), cfg.kfInterval)
      invariant SamplesMatch(g, cfg, col, graphDirectory, kept, samples)
      invariant cloud.points == MergedPoints(g, kept, samples)
      invariant cloud.normals == MergedNormals(g, kept, samples)
    {
      LoopErrorStep(g, cfg, col, graphDirectory, m);
      if |g.models[m].worldTModel| != 12 {
        LoopErrorStays(g, cfg, col, graphDirectory, m + 1, |g.models|);
        return Some(PoseShape), cloud, kept, samples, processed;
      }
      err, processed, kept, samples := ProcessModel(g, cfg, col, graphDirectory, m, cloud, processed, kept, samples);
      if err.Some? {
        LoopErrorStays(g, cfg, col, graphDirectory, m + 1, |g.models|);
        return;
      }
    }
    assert RefsUpTo(g, |g.models|) == FrameRefs(g);
    err := None;
  }

  /**
   * `mesh_poisson`. Returns, beside the result, the frames rendered (in
   * order), what was drawn from each, and how far the progress count got.
   */
  method MeshPoisson(g: ResultGraph, cfg: MeshConfig, graphDirectory: string, col: Collaborators)
    returns (r: Result<MeshResult>, kept: seq<FrameRef>, samples: seq<FrameSample>, progress: nat)
    ensures LoopError(g, cfg, col, graphDirectory, |g.models|).Some? ==>
      r == Err(LoopError(g, cfg, col, graphDirectory, |g.models|).value)
    ensures LoopError(g, cfg, col, graphDirectory, |g.models|).None? ==>
      kept == Kept(FrameRefs(g), cfg.kfInterval) && SamplesMatch(g, cfg, col, graphDirectory, kept, samples) &&
      r == Reconstruct(cfg, col, MergedPoints(g, kept, samples), MergedNormals(g, kept, samples))
    ensures r.Ok? ==> |kept| > 0 && cfg.kfSamples > 0
    ensures r.Ok? ==> kept == Kept(FrameRefs(g), cfg.kfInterval) && progress == |FrameRefs(g)|
    ensures r.Ok? ==> (SamplesMatch(g, cfg, col, graphDirectory, kept, samples) &&
      r.value.points == MergedPoints(g, kept, samples) && r.value.normals == MergedNormals(g, kept, samples))
    ensures r.Ok? ==> |r.value.points| == |r.value.normals| == |kept| * cfg.kfSamples
    ensures r.Ok? ==> ChooseMode(cfg.poissonDepth, cfg.poissonWidth) == Ok(r.value.mode) && SolverAccepts(r.value.mode)
    ensures r.Ok? ==> r.value.densities == col.poisson(r.value.points, r.value.normals, r.value.mode)
    ensures r.Ok? ==> PruneMask(cfg.poissonMinDensity, r.value.densities, col.quantile) == Ok(r.value.removal)
    ensures WellFormed(g) && r.Err? ==> !GraphError(r.error)
  {
    var err, globalPcd;
    err, globalPcd, kept, samples, progress := MergeFrames(g, cfg, col, graphDirectory);
    if err.Some? {
      return Err(err.value), kept, samples, progress;
    }
    MergedSize(g, kept, samples, if cfg.kfSamples < 0 then 0 else cfg.kfSamples);
    // `remove_statistical_outlier` returns a new cloud, which is discarded:
    // the reconstruction runs on the merged cloud as it is.
    r := Reconstruct(cfg, col, globalPcd.points, globalPcd.normals);
    if r.Ok? {
      MergedNonEmpty(g, kept, samples, cfg.kfSamples);
    }
  }
}
