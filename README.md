# Splat-LOAM mesh post-processing, modelled in Dafny

This project models `scene/postprocessing.py` of Splat-LOAM: the step that
turns a finished LiDAR SLAM run into a triangle mesh. It has two halves.

- **Graph export (`ResultGraph.from_slam`).** The local models and their
  keyframes become flat `ResultModel` / `ResultFrame` records:
  - frame ids come from one global counter;
  - poses are stored as the 12 row-major entries of the first three rows;
  - each projection is stored as a 4-value record;
  - each model file is named `{mid:04d}.ply`.
- **Meshing (`mesh_poisson`).** It walks the graph model by model and frame by
  frame. A global 1-based counter decides which frames are rendered. Each
  rendered frame goes through these steps:
  - its camera is rebuilt from the stored records;
  - it is rendered in its model's frame;
  - pixels with too little opacity or too much depth distortion are rejected,
    and their depth and normal entries are zeroed in place;
  - the valid pixels are back-projected;
  - `kf_samples` points are drawn from them with replacement;
  - the draws are moved to world coordinates with the model's pose and
    appended to one global cloud.

  The Poisson variant is then chosen from `poisson_depth` and `poisson_width`,
  under Python's `or`/`and` precedence. Finally a density-quantile mask marks
  the vertices to prune.

The three records of the source become datatypes in `Graph`:
`ResultModel`, `ResultFrame` and `ResultGraph` (scene/postprocessing.py:21-41).
They keep the same fields, with the pose and projection lists as sequences
of reals. `Keyframe` and `LocalModel` stand for what the export reads from
the SLAM run.

Modules follow the program's structure:

| file | module | contents |
|---|---|---|
| `common.dfy` | `Common` | `Option`, `Result`, and the ways a run stops. |
| `geometry.dfy` | `Geometry` | Pose records and their homogeneous completion, the intrinsic matrix, the projection record, and affine transforms. |
| `naming.dfy` | `Naming` | The zero-padded model file name and its parse-back. |
| `graph.dfy` | `Graph` | The records, the invariants the mesher relies on (`WellFormed`), the export as an imperative method (`FromSlam`) against a reference function (`SlamGraph`), and proofs that the export is well formed. |
| `selection.dfy` | `Selection` | The global frame counter and the keep rule. |
| `pixels.dfy` | `Pixels` | The validity mask, in-place zeroing on an `array`, extraction of valid pixels, and sampling. |
| `reconstruction.dfy` | `Reconstruction` | The Poisson mode choice and the density pruning mask. |
| `pipeline.dfy` | `Pipeline` | One frame's processing, the Open3D point cloud as a class mutated by `transform` and `+=`, and the whole `mesh_poisson` loop. |

The external code is passed in as function-typed parameters
(`Pipeline.Collaborators`):

- the Gaussian-splat renderer, together with the `.ply` it loads;
- the per-pixel back-projection `depth_to_points`;
- the Poisson solver, which yields the vertex densities;
- `np.quantile`.

`np.random.choice` is a nondeterministic choice limited only by its count and
index bounds. `MeshPoisson` returns, beside its result, three ordinary out-parameters:

- the frames it rendered, in order;
- what was drawn from each;
- how far its progress count reached.

Each of these is stated in terms of reference functions on the graph.

Python behaviour modelled on purpose:

- `graph.frames[rfid]` accepts negative ids (`Pipeline.PyIndex`).
- `None > 0` raises `TypeError`. This happens when `poisson_min_density` is
  `None`, and when `poisson_depth < 0` with `poisson_width` `None`. Both stop
  the run as an `Err`.
- `np.random.choice(0, k)` fails unless `k == 0`, and a negative `k` always
  fails.
- `np.quantile` fails for `q > 1` and for an empty array.
- `create_from_point_cloud_poisson` binds `width` as a float and `depth` as
  an unsigned size. So the width branch with `poisson_width` `None`, and the
  depth branch with a negative `poisson_depth`, raise `TypeError` at the call
  (`Reconstruction.SolverMode`). This is read from the binding's signature.
- The solver then refuses a cloud without normals. The merged cloud has none
  when no frame is rendered or `kf_samples == 0` (`Pipeline.Reconstruct`,
  error `NoNormals`).
- A frame that does not pass either assertion at lines 142-143 stops the run
  with its own error.

The counter `processed_frames` is incremented before it is tested, so the
kept frames are at 1-based global positions divisible by `k`. With two models
of three frames and `k = 2` these are zero-based ids 1, 3, 5: the second
frame of the first model and the first and third of the second
(`Selection.TwoModelsEveryOther`). With `MeshPoisson`'s size clause this
gives exactly `3 * kf_samples` merged points.

## Model

| member | source | states |
|---|---|---|
| Geometry.PoseRecord | scene/postprocessing.py:56 | A stored pose holds 12 values; value `k` is entry `(k / 4, k % 4)` of the 4x4 matrix, i.e. the first three rows in row-major order. |
| Geometry.CompletePose | scene/postprocessing.py:133-134 | Reshaping to 3x4 and stacking `[0,0,0,1]` succeeds exactly when the record holds 12 values; the result has bottom row `[0,0,0,1]` and entry `(i, j)` equal to value `4i + j`. |
| Geometry.RecordRoundTrip | scene/postprocessing.py:144-146 | Completing any 12-value record and storing it again gives back the same record. |
| Geometry.PoseRoundTrip | scene/postprocessing.py:133-134 | Storing a pose and completing it gives back the original pose if and only if its bottom row was `[0,0,0,1]`. |
| Geometry.Intrinsics | scene/postprocessing.py:148-152 | K can be built exactly when the projection record has at least 4 entries. A shorter one is an IndexError. |
| Geometry.IntrinsicsProjects | scene/postprocessing.py:148-152 | K from `[fx, fy, cx, cy]` is 3x3 and maps `(x, y, z)` to `(fx x + cx z, fy y + cy z, z)`. |
| Geometry.ProjectionRecord | scene/postprocessing.py:63-66 | The projection record has 4 entries: entries (0,0), (1,1), (0,2) and (1,2) of the transposed projection matrix. |
| Geometry.ApplyToPoint | scene/postprocessing.py:187 | What `pcd.transform` does to a point: the rotation part of the pose applied, then its translation added. |
| Geometry.ApplyToNormal | scene/postprocessing.py:187 | What `pcd.transform` does to a normal: the rotation part of the pose only. |
| Geometry.IdentityTransform | scene/postprocessing.py:187 | Transforming by the identity pose leaves every point and every normal unchanged. |
| Geometry.ComposeTransforms | scene/postprocessing.py:187 | Applying `b` and then `a` to a point, or to a normal, equals applying the matrix product `a b` when `b` is rigid-homogeneous. |
| Naming.Padded4 | scene/postprocessing.py:57 | `{n:04d}` is all digits, 4 wide, or wider when `n` needs more digits. |
| Naming.Padded4RoundTrip | scene/postprocessing.py:57 | Parsing the padded name gives back the model index. |
| Naming.Decimal | scene/postprocessing.py:57 | The decimal digits of `n`, at least one, with a leading `0` exactly when `n` is 0. |
| Naming.PlyName | scene/postprocessing.py:57 | A model file name is at least 4 digits followed by `.ply`. |
| Naming.JoinPath | scene/postprocessing.py:57 | `output_dir / name` (and `graph_directory / rmodel.filename` at line 129) as the two strings joined by `/`. |
| Naming.PlyNameInjective | scene/postprocessing.py:57 | Distinct model indices get distinct file names. |
| Graph.ListedByOwnerOnly | scene/postprocessing.py:67-75 | In a well-formed graph, frame `i` appears in model `m`'s `frame_ids` if and only if its `model_id` is `m`. |
| Graph.WellFormed | scene/postprocessing.py:133-150 | What the mesher needs of a loaded graph. Frame `i` has id `i` and model `m` id `m`. Every listed id names a frame that points back at the model, and every frame is listed by its model. Lists increase strictly. Stored poses hold 12 values and projection records 4. |
| Graph.SlamFramesLength | scene/postprocessing.py:51-76 | Exporting the first `m` models yields one frame record per keyframe of those models. |
| Graph.SlamFramesPlacement | scene/postprocessing.py:59-76 | Keyframe `k` of model `mid` becomes the frame record at position `offset(mid) + k`. That record has that id, `model_id == mid`, the keyframe's timestamp, its stored pose and its projection record. |
| Graph.SlamFramesOwner | scene/postprocessing.py:67-76 | Every exported frame names a model whose keyframe range contains the frame's position. |
| Graph.SlamFrameIds | scene/postprocessing.py:68-76 | Exported frame `i` carries id `i`. |
| Graph.SlamCrossReferenced | scene/postprocessing.py:74-82 | Every listed id names an existing frame that points back at the listing model, and each model's list increases strictly. |
| Graph.SlamFramesOwned | scene/postprocessing.py:56-82 | Every exported frame is listed by the model it names. Stored poses hold 12 values and projection records 4. |
| Graph.SlamGraphWellFormed | scene/postprocessing.py:51-84 | The exported graph satisfies every invariant the mesher's lookups and assertions rely on. |
| Graph.SlamGraph | scene/postprocessing.py:47-84 | The export as a value. Model `mid` is given its stored pose, `output_dir / f"{mid:04d}.ply"` and the id run of its keyframes. The frames follow in model-then-keyframe order, numbered from 0. `FromSlam` is proved equal to it. |
| Graph.FromSlam | scene/postprocessing.py:47-84 | The nested-loop export with its mutable `frame_id` counter and appends equals the reference export `SlamGraph` and is well formed. |
| Selection.Skips | scene/postprocessing.py:137-138 | The skip test: `kf_interval` is not `None`, is positive, and does not divide the counter. |
| Selection.ModelRefs | scene/postprocessing.py:135 | The frames of model `m` as the inner loop visits them: one reference per listed id, in listed order. |
| Selection.RefsUpTo | scene/postprocessing.py:126-135 | The frames of the first `m` models, in the order the loops visit them: the sequence the counter has run over before model `m`. |
| Selection.FrameRefs | scene/postprocessing.py:126-135 | Every listed frame of every model, in visiting order. The counter reaches `i + 1` at entry `i`. |
| Selection.Kept | scene/postprocessing.py:135-140 | The frames rendered when the counter reaches `i + 1` at entry `i`. Its contract bounds the length by the visited frames and takes every entry from them. Which frames, and in which order, is proved in `KeptSnoc`, `KeptAll` and `KeptAt`. |
| Selection.KeptSnoc | scene/postprocessing.py:135-140 | Visiting one more frame renders it if and only if the interval is unset or not positive, or the incremented counter is divisible by it. Otherwise it is skipped. |
| Selection.KeptAll | scene/postprocessing.py:137 | With `kf_interval` `None` or not positive, every frame is rendered, in visiting order. |
| Selection.KeptCount | scene/postprocessing.py:135-140 | With interval `k > 0`, exactly `n / k` of `n` visited frames are rendered. |
| Selection.KeptAt | scene/postprocessing.py:135-140 | With interval `k > 0`, the `i`-th rendered frame is the one at 1-based global position `(i + 1) k`. |
| Selection.TwoModelsEveryOther | scene/postprocessing.py:123-140 | Two models of three frames with interval 2 render exactly frame 2 of the first model and frames 1 and 3 of the second. |
| Selection.SlamRefsInOrder | scene/postprocessing.py:126-135 | For an exported graph, the mesher visits frame ids `0, 1, 2, ...` in order. |
| Selection.SlamProgressComplete | scene/postprocessing.py:125-139 | For an exported graph, the progress count reaches `len(graph.frames)`, the bar's total. |
| Pixels.InvalidMask | scene/postprocessing.py:169-171 | A pixel is invalid if and only if `alpha < min_opacity` or `dist > max_depth_dist`. Both comparisons are strict. |
| Pixels.ZeroMasked | scene/postprocessing.py:173-174 | In place, on an array: invalid entries become zero and every other entry is unchanged. |
| Pixels.Masked | scene/postprocessing.py:173-174 | `x[..., invalid_mask] = 0.0` as a value: zero at masked entries, the old entry elsewhere. `ZeroMasked` is proved to produce it in place. |
| Pixels.Compress | scene/postprocessing.py:176-177 | `x[..., ~invalid_mask]`. Its contract bounds the length by the input and takes every entry from it. Which entries, and in which order, is proved in `CompressSelects` with `ValidIndicesExact`. |
| Pixels.ValidIndicesExact | scene/postprocessing.py:176-177 | The valid pixel positions number exactly the unmasked entries. They are in range, unmasked, strictly increasing, and include every unmasked position. |
| Pixels.CompressSelects | scene/postprocessing.py:176-177 | `x[..., ~mask]` yields, in order, the entries at the valid positions. |
| Pixels.CompressIgnoresMasked | scene/postprocessing.py:173-177 | Zeroing the rejected entries does not change what the extraction yields. |
| Pixels.CompressAgrees | scene/postprocessing.py:176-177 | The extraction depends only on the entries the mask keeps. |
| Pixels.SampleIndices | scene/postprocessing.py:180 | Drawing fails if and only if there are no valid points and a non-zero count was asked, or the count is negative; the error kind says which. Otherwise it returns exactly `kf_samples` indices, each below the number of valid points, repeats allowed. |
| Pixels.Gather | scene/postprocessing.py:181-182 | `points[idxs]`, `normals[idxs]`: one output entry per drawn index, repeats included, each one a valid candidate. |
| Reconstruction.ChooseMode | scene/postprocessing.py:196-206 | Width mode is used if and only if `depth is None or (depth < 0 and width > 0)`. Depth mode passes `poisson_depth` through. `depth < 0` with `width` `None` is a TypeError. |
| Reconstruction.ModeExamples | scene/postprocessing.py:196-206 | depth `None` gives width mode; depth −1 with width 0.05 gives width mode; depth 8 gives depth 8; depth −1 with width 0 gives depth −1. |
| Reconstruction.GroupingMatters | scene/postprocessing.py:196-197 | The rule as written and the grouping `(depth is None or depth < 0) and width > 0` disagree if and only if no depth is given and the width is `None` or not positive. The code then still asks for width mode. |
| Reconstruction.SolverMode | scene/postprocessing.py:196-206 | The mode reaches the solver if and only if `ChooseMode` succeeds and the binding accepts it. Otherwise the error is the `None` comparison or the refused argument, respectively. |
| Reconstruction.SolverAccepts | scene/postprocessing.py:196-206 | The binding takes the width branch only with a width and the depth branch only with a non-negative depth. |
| Reconstruction.SolverModeCases | scene/postprocessing.py:196-206 | The solver runs exactly when either a width is given with no depth or with a negative depth and a positive width, or a non-negative depth is given. |
| Reconstruction.SolverModeExamples | scene/postprocessing.py:196-206 | Both `None` gives a refused width; depth −1 with width 0 gives a refused depth; depth −1 with width `None` is the comparison TypeError; depth 8 runs. |
| Reconstruction.RemovalMask | scene/postprocessing.py:212-213 | One entry per vertex, marking exactly the vertices with density strictly below the threshold. |
| Reconstruction.RemovalCount | scene/postprocessing.py:212-214 | The mask marks exactly as many vertices as have density below the threshold, and keeps the rest. |
| Reconstruction.RemovesSome | scene/postprocessing.py:212-214 | Some vertex is removed if and only if some density lies below the threshold. |
| Reconstruction.PruneMask | scene/postprocessing.py:208-214 | `None` is a TypeError. A value not above zero prunes nothing. A value above zero on an empty array, or above 1, is a quantile error. Otherwise the mask marks the densities below their quantile. |
| Reconstruction.EqualDensitiesKeepAll | scene/postprocessing.py:212-213 | When all densities are equal, no vertex lies below a threshold at most that value. |
| Pipeline.PyIndex | scene/postprocessing.py:141 | `frames[rfid]` succeeds if and only if `-len <= rfid < len`. A non-negative index yields `frames[rfid]` and a negative one `frames[len + rfid]`. |
| Pipeline.DepthRatio | scene/postprocessing.py:161 | `1.0 if use_median_depth else 0.0`, the value handed to the renderer. |
| Pipeline.FrameCamera | scene/postprocessing.py:144-160 | Building the camera fails if and only if the stored pose does not hold 12 values or the projection record is shorter than 4. The first failure decides the error. |
| Pipeline.FrameCameraGeometry | scene/postprocessing.py:144-160 | The camera carries the frame's own homogeneous pose (storing it again gives back the record), a pinhole K for `[fx, fy, cx, cy]`, and the configured image size. |
| Pipeline.CandidatePoints | scene/postprocessing.py:176-178 | The back-projected points of the valid pixels, in pixel order. |
| Pipeline.CandidateNormals | scene/postprocessing.py:177-179 | The rendered normals of the valid pixels, in pixel order. |
| Pipeline.ExtractCandidates | scene/postprocessing.py:173-177 | On arrays: zeroing the rejected depth and normal entries in place and then extracting gives exactly `CandidatePoints` and `CandidateNormals` of the render. |
| Pipeline.FrameError | scene/postprocessing.py:144-182 | The exception a looked-up frame raises, if any: the camera's error first, then `np.random.choice`'s on the valid-pixel count. |
| Pipeline.CandidatesPaired | scene/postprocessing.py:176-179 | Extraction gives as many points as normals, one per valid pixel. The `i`-th of each comes from the `i`-th valid pixel. |
| Pipeline.ProcessFrame | scene/postprocessing.py:144-182 | One frame fails exactly when `FrameError` names an exception, and with that exception. A camera error propagates, and otherwise the draw fails as `np.random.choice` does on the valid-pixel count. On success it returns `kf_samples` points and normals, gathered from the valid back-projected pixels of the render. |
| Pipeline.LookupFrame | scene/postprocessing.py:141-143 | The lookup succeeds if and only if the index is valid, the frame carries the listed id, and it points back at the model. The first failing step decides the error. |
| Pipeline.LookupWellFormed | scene/postprocessing.py:141-143 | In a well-formed graph, both assertions hold and the lookup yields the listed frame. |
| Pipeline.FrameFailure | scene/postprocessing.py:141-182 | The exception a selected frame raises: the lookup's error, and otherwise `FrameError`. |
| Pipeline.ModelError | scene/postprocessing.py:135-189 | The first exception among a model's first `k` frames. The counter at its `k`-th frame is the frames visited before it plus `k`, and skipped frames raise nothing. |
| Pipeline.LoopError | scene/postprocessing.py:126-189 | The first exception of the frame loop: a model whose pose does not hold 12 values, checked before any of its frames, or one of its selected frames. |
| Pipeline.ModelErrorStays | scene/postprocessing.py:135-189 | Once a frame has raised, the model's error is that one however many frames follow. |
| Pipeline.LoopErrorStays | scene/postprocessing.py:126-189 | Once a model has raised, the loop's error is that one however many models follow. |
| Pipeline.ModelErrorNone | scene/postprocessing.py:135-189 | A model raises nothing if and only if each of its frames is skipped by the counter or passes its lookup, camera and draw. |
| Pipeline.LoopErrorNone | scene/postprocessing.py:126-189 | The loop raises nothing if and only if every model pose holds 12 values and every frame is skipped or passes its lookup, camera and draw. |
| Pipeline.WellFormedModelError | scene/postprocessing.py:135-189 | On a well-formed graph a model's frames can only raise the draw's errors. |
| Pipeline.WellFormedLoopError | scene/postprocessing.py:126-189 | On a well-formed graph the loop can only raise `EmptySample` or `NegativeSampleCount`. |
| Pipeline.ZeroSamplesNoLoopError | scene/postprocessing.py:126-189 | On a well-formed graph with `kf_samples == 0` the loop raises nothing. |
| Pipeline.RenderFrame | scene/postprocessing.py:141-182 | A selected frame fails exactly when `FrameFailure` names an exception, and with that exception: the lookup first, then the camera, then the draw. A success is a valid draw of size `kf_samples` for the listed frame, and a well-formed graph causes no graph error. |
| Pipeline.PointCloud.constructor | scene/postprocessing.py:184-186 | A new cloud holds exactly the given points and normals. |
| Pipeline.TransformPoints | scene/postprocessing.py:187 | `pcd.transform` on a cloud's points: each point moved by the pose, count and order kept. |
| Pipeline.TransformNormals | scene/postprocessing.py:187 | `pcd.transform` on a cloud's normals: each normal rotated by the pose, count and order kept. |
| Pipeline.PointCloud.Transform | scene/postprocessing.py:187 | In place: every point is moved by the pose and every normal rotated by it. |
| Pipeline.PointCloud.Extend | scene/postprocessing.py:188 | In place, for a cloud other than this one: the other cloud's points and normals are appended after this one's, and the other cloud is unchanged. The source always passes a new `pcd`. |
| Pipeline.WorldPose | scene/postprocessing.py:133-134 | The model's stored 12-value pose completed to 4x4, which moves its frames' draws to world coordinates. |
| Pipeline.MergedPoints | scene/postprocessing.py:187-188 | The reference for `global_pcd += pcd` on points: each rendered frame's draws, moved by its model's world pose, in rendering order. |
| Pipeline.MergedNormals | scene/postprocessing.py:187-188 | The same for normals, rotated by the model's world pose. |
| Pipeline.MergedSnoc | scene/postprocessing.py:187-188 | Appending a frame's transformed draws extends the reference merged cloud by exactly those draws. |
| Pipeline.MergedSize | scene/postprocessing.py:180-188 | The merged cloud holds (rendered frames) × `kf_samples` points and as many normals. |
| Pipeline.MergedNonEmpty | scene/postprocessing.py:180-188 | A merged cloud with any point needs at least one rendered frame and a positive `kf_samples`. |
| Pipeline.AddFrame | scene/postprocessing.py:162-189 | Its error is exactly `FrameFailure`'s for the frame. On success the frame's draws, in world coordinates, are appended to the global cloud, which stays the reference merge of the rendered frames. |
| Pipeline.VisitFrame | scene/postprocessing.py:136-189 | One listed frame: the counter advances by one. The error is exactly `ModelError` one frame further. On success the rendered list and the cloud follow the keep rule over the visited frames. |
| Pipeline.ProcessModel | scene/postprocessing.py:135-189 | The frames of one model advance the single global counter, which is passed in and handed back. Its error is exactly `ModelError` over all the model's frames. On success the counter equals the number of frames visited so far, and the rendered list and the cloud are those of the keep rule over all of them. |
| Pipeline.MergeFrames | scene/postprocessing.py:122-189 | The frame loop's error is exactly `LoopError`. When it raises nothing, the counter covers every frame, the rendered frames are the keep rule over all frames, each draw is valid for its frame, and the new cloud is their reference merge. |
| Pipeline.HasNormals | scene/postprocessing.py:199-206 | Open3D's `HasNormals()`: the cloud has points and one normal per point. The Poisson solver refuses any other cloud. |
| Pipeline.Reconstruct | scene/postprocessing.py:196-214 | The tail of the run fails if and only if the binding refuses the arguments, the cloud has no normals, or the pruning step fails, and never with a graph error. The refused argument comes first and then `NoNormals`. On success the cloud has normals and is passed on unchanged. The mode is `ChooseMode`'s and one the solver accepts. The densities are the solver's, and the mask is `PruneMask`'s. |
| Pipeline.MeshPoisson | scene/postprocessing.py:94-216 | When the frame loop raises, the run fails with `LoopError`'s exception. Otherwise the rendered frames are the keep rule over all frames, each draw is valid for its frame, and the result is exactly `Reconstruct` on their reference merge. A success has rendered at least one frame with a positive `kf_samples`. Progress covers every frame, and the merged size is rendered × `kf_samples`. Mode, densities and pruning mask follow `ChooseMode` (restricted to what the solver accepts), the solver and `PruneMask`. A well-formed graph never fails on a lookup, an assertion or a record shape. |

## Left out

- Rendering and `GaussianModel.load_ply` are a function parameter. They take the camera, the model's path and the depth ratio, and return a sequence of pixel records. Its length is not tied to the configured image size: nothing in the model depends on it. The GPU tensors, the channel layout and `invalid_mask[0]` are folded into that record.
- `depth_to_points` is a per-pixel function parameter of the camera, the pixel position and its depth. The model assumes each back-projected point depends only on its own pixel.
- The Poisson solver (`create_from_point_cloud_poisson`) is a function parameter that yields the vertex densities. The mesh itself is not modelled. Of its own checks, only two are modelled: the binding's argument types (`Reconstruction.SolverMode`), and the refusal of a cloud without normals, which includes an empty one (`Pipeline.HasNormals`). Both are read from Open3D's binding and C++ source.
- `np.quantile` is a function parameter. Its interpolation is float numerics.
- `remove_statistical_outlier` is not modelled. Open3D returns the filtered cloud as a new object, the source discards it, and so the reconstruction runs on the merged cloud as it is.
- `remove_vertices_by_mask` and `compute_vertex_normals` act on the library's mesh. The model stops at the mask that would be passed.
- `np.random.choice` randomness is a nondeterministic choice inside `Pixels.SampleIndices`, constrained only by the count and the index bounds.
- `ResultGraph.from_yaml` is an OmegaConf file load and schema merge with no visible validation. It is not modelled, and `WellFormed` states what the mesher then needs of the loaded graph.
- `ResultGraph.__str__`, the `Progress` bar, logging, `torch.no_grad`, device placement and `.cpu().numpy()` conversions are not modelled. The bar's advance is modelled only as the `progress` count.
- Floating point is modelled as real arithmetic. NaN comparisons and rounding are not captured, and `Geometry.ComposeTransforms` holds exactly where the source would hold only within tolerance.
- `Geometry.ApplyToPoint`, `Geometry.ApplyToNormal` apply the affine part of the pose and the rotation part respectively. Open3D's renormalisation of transformed normals is not modelled.
- Paths are strings joined with `/`. `pathlib` normalisation and absolute stored names are not modelled.
- `kf_samples = None` is not modelled: the count is an integer.
- The zero-filled placeholder buffers handed to the `Camera` constructor are not modelled. Nothing downstream reads them.
- The camera class from `scene/cameras.py` is not part of this model. It is represented by its four inputs.
- `Pipeline.MeshPoisson` on the error path returns the frames rendered so far without stating them. Only the error itself is constrained there, and Python's partial side effects are not observable after the exception.
