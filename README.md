# 3D Mirror head-pose core, in Dafny

This project models the frame loop of the p5.js "3D Mirror" sketch (`sketch.js`). On
every animation frame the sketch clears the canvas. When the face-mesh detector has
reported at least one face, it does four things in order:

- it reveals the canvas, once;
- it smooths the first face's keypoints into a running estimate, adopting the first
  mesh as-is and then moving each coordinate halfway toward every new reading;
- it reads four points of interest from fixed mesh indices: forehead 10, chin 152,
  left eye 226, right eye 446;
- it issues the pose transforms and draws the textured model. The transforms are a
  scale computed from the face's height and width, then three rotations, each read as
  adjacent / hypotenuse of a small right triangle, times `drama` (1.5).

The model has four modules:

- `P5Math` (`p5math.dfy`): p5's `lerp`, `map` and three-dimensional `dist` over the
  reals, plus the facts about squares that the pose proofs need. `Math.sqrt` is a
  parameter `root`. `IsSqrt(root)` says it is a true non-negative square root, and only
  the lemmas require that.
- `Landmarks` (`landmarks.dfy`): keypoints, the point-of-interest indices and the
  smoothing step `Smoothed`. It also proves what repeated smoothing does.
- `Pose` (`pose.dfy`): the triangles of headNod, headShake and headTilt, the rotation
  arguments they produce, and headScale's factor. A JavaScript number that can be NaN
  is the datatype `Number`.
- `Sketch` (`sketch.dfy`): the sketch's global state as the class `Mirror`, with
  `updateKeypoints` as a loop that blends the keypoints in place, and `draw`. A renderer
  call is a `RenderOp` value, and `trace` records every call made so far.
  `Mirror.Valid()` is the invariant that `draw` keeps:
  - keypoints exist exactly when `ready` is set;
  - once ready, the points of interest are the keypoints at their indices;
  - the canvas was revealed exactly once if ready, and never otherwise.

Two facts about `sketch.js` shape the model:

- It reads no nose point (index 1) and applies no translation, so neither is modelled.
- It does not guard a zero hypotenuse. The rotation argument is then NaN (0 / 0), and
  the model states exactly when that happens.

## Model

| member | source | states |
|---|---|---|
| P5Math.Lerp | sketch.js:88-90 | lerp returns start at amt 0 and stop at amt 1. At amt 0.5 it returns the midpoint, and between equal ends it returns that value. |
| P5Math.LerpReversed | sketch.js:88-90 | Interpolating from start to stop by amt is interpolating from stop to start by 1 - amt. |
| P5Math.LerpBetween | sketch.js:88-90 | For amt in [0, 1], lerp stays between its two ends, in either order. |
| P5Math.Map | sketch.js:148-149 | The unclamped map sends start1 to start2 and stop1 to stop2. |
| P5Math.DistIsLength | sketch.js:146-147 | With a true square root, dist is non-negative and its square is the sum of the squared coordinate differences. It is zero exactly when the two points coincide. |
| P5Math.DistSymmetric | sketch.js:146-147 | dist from p to q equals dist from q to p. |
| Landmarks.BlendPoint | sketch.js:88-90 | A blended keypoint has each coordinate exactly halfway between the kept value and the new reading. |
| Landmarks.Smoothed | sketch.js:86-95 | With no keypoints yet, the mesh is adopted unchanged. Otherwise the length is kept, the first mesh-length keypoints are the per-coordinate midpoints with the mesh, and the rest are unchanged. |
| Landmarks.SmoothedFixpoint | sketch.js:86-95 | Smoothing a mesh into itself changes nothing, so the aliased first mesh behaves as a copy. |
| Landmarks.Track | sketch.js:85-95 | After n detections of one mesh, the keypoints keep their length, or take the mesh's length when starting empty. |
| Landmarks.TrackFromEmpty | sketch.js:93-95 | A face that holds still is reproduced exactly from its first detection on. |
| Landmarks.HalfPow | sketch.js:88-90 | The per-update factor (1/2)^n lies in (0, 1] and is at most 1/2 after one update. |
| Landmarks.ApproachGap | sketch.js:88-90 | After n blends toward a fixed reading, a coordinate's remaining gap is the initial gap times (1/2)^n. |
| Landmarks.ApproachDistance | sketch.js:88-90 | The distance to the reading after n blends is the initial distance times (1/2)^n. |
| Landmarks.TrackAt | sketch.js:86-91 | Under repeated smoothing, each coordinate of each blended keypoint follows the scalar n-fold blend. |
| Pose.Negated | sketch.js:142 | Unary minus keeps NaN and negates a finite value. |
| Pose.Times | sketch.js:126 | Multiplying by drama keeps NaN as NaN. |
| Pose.Exaggerated | sketch.js:126 | A ratio in [-1, 1] times drama lies in [-drama, drama], with the same sign and the same zero. |
| Pose.NodSides | sketch.js:122-124 | headNod's legs are the halved z and y differences of forehead and chin. Both are zero exactly when the two points agree in y and z, and the adjacent leg is positive exactly when the forehead is deeper. |
| Pose.ShakeSides | sketch.js:130-132 | headShake's legs are the halved z and x differences of the eyes. Both are zero exactly when the eyes agree in x and z, and the adjacent leg is positive exactly when the left eye is deeper. |
| Pose.TiltSides | sketch.js:138-140 | headTilt's legs are the halved x and y differences of forehead and chin. Both are zero exactly when the two points agree in x and y, and the adjacent leg is negative exactly when the forehead is left of the chin. |
| Pose.HypotenuseCloses | sketch.js:125 | With a true square root, the hypotenuse is non-negative and closes the right triangle on the two legs. |
| Pose.CosineRange | sketch.js:125-126 | adjacent / hypotenuse is NaN exactly when both legs are zero. Otherwise it lies in [-1, 1], has the adjacent leg's sign, is zero exactly with it, and is 1 or -1 when the opposite leg is zero. |
| Pose.RotationRange | sketch.js:125-126 | The rotation is NaN exactly for a point-like triangle. Otherwise it lies in [-drama, drama] and has the adjacent leg's sign. |
| Pose.NodAngleRange | sketch.js:121-127 | rotateX's argument is NaN exactly when forehead and chin agree in y and z. Otherwise it lies in [-drama, drama] and is positive exactly when the forehead is deeper than the chin. |
| Pose.ShakeAngleRange | sketch.js:129-135 | rotateY's argument is NaN exactly when the eyes agree in x and z. Otherwise it lies in [-drama, drama] and is positive exactly when the left eye is deeper than the right. |
| Pose.TiltAngleRange | sketch.js:137-143 | rotateZ's argument, which is negated, is NaN exactly when forehead and chin agree in x and y. Otherwise it lies in [-drama, drama] and is positive exactly when the forehead is left of the chin. |
| Pose.RotationSwapped | sketch.js:121-143 | Swapping the two points of a triangle negates the rotation read from it. |
| Pose.NodAngleSwapped | sketch.js:121-127 | Reading the nod from the chin instead of the forehead gives exactly the opposite rotation. |
| Pose.ScaleOf | sketch.js:148-150 | The scale is (3 * height / 600 + 3 * width / 400) / 2 * drama. |
| Pose.ScaleGrowsWithHeight | sketch.js:148-150 | At a fixed width, a taller face gives a strictly larger scale. |
| Pose.ScaleGrowsWithWidth | sketch.js:148-150 | At a fixed height, a wider face gives a strictly larger scale. |
| Pose.HeadScaleFactorRange | sketch.js:145-151 | With a true square root, the scale is never negative. It is zero exactly when forehead equals chin and the left eye equals the right. |
| Sketch.CountOfAppend | sketch.js:61-75 | Counting a call in two concatenated traces adds the two counts. |
| Sketch.FrameCounts | sketch.js:61-75 | A frame adds exactly one clear, and adds a reveal only when it reveals. |
| Sketch.PoseOps | sketch.js:67-73 | A face frame's calls are seven, in this order: scale, rotateY, rotateX, rotateZ, flip, texture, model. None of them clears or reveals. |
| Sketch.FrameOpsRange | sketch.js:67-70 | With a true square root, a frame never scales negatively, and each rotation is NaN or within [-drama, drama]. |
| Sketch.Mirror.constructor | sketch.js:28-42 | The initial state has no keypoints, is not ready and has made no calls. It satisfies the invariant. |
| Sketch.Mirror.Initialize | sketch.js:78-83 | initialize reveals the canvas once and sets ready. |
| Sketch.Mirror.UpdateKeypoints | sketch.js:85-100 | The new keypoints are the smoothing of the old ones with the mesh, blended in place coordinate by coordinate. The four points of interest are then the keypoints at indices 10, 152, 226 and 446. |
| Sketch.Mirror.HeadScale | sketch.js:145-151 | headScale issues one scale by the face-size factor. |
| Sketch.Mirror.HeadShake | sketch.js:129-135 | headShake issues one rotateY by the eyes' rotation. |
| Sketch.Mirror.HeadNod | sketch.js:121-127 | headNod issues one rotateX by the forehead/chin rotation. |
| Sketch.Mirror.HeadTilt | sketch.js:137-143 | headTilt issues one rotateZ by the negated forehead/chin rotation. |
| Sketch.Mirror.Transform | sketch.js:67-73 | A face frame issues its calls in the fixed order: scale, shake, nod, tilt, flip, texture, model. |
| Sketch.Mirror.DrawFace | sketch.js:63-74 | A face frame reveals if not yet ready, smooths in the mesh, re-reads the points of interest, then issues the pose calls. |
| Sketch.Mirror.Draw | sketch.js:61-75 | draw keeps the invariant and always clears. A frame without a prediction changes nothing else. A frame with one leaves the sketch ready, with the smoothed keypoints, the reveal only on the first such frame, and the pose calls. |
| Sketch.Session | sketch.js:55-75 | Over any run of frames whose first face has more than 446 points and whose later faces are no larger, the sketch is ready exactly when some frame had a face. The canvas is revealed once if so and never otherwise, and it is cleared once per frame. |

## Left out

- Rendering: WebGL, the model, the texture and the page styling are recorded only as `RenderOp` calls in `trace`. The flip's argument (`PI`) is the `FlipX` call.
- The detector and the camera (ml5 facemesh, `createCapture`, the `predict` callback) are left out: each frame's predictions are an input to `Draw` and `Session`.
- `preload`, `setup`, `windowResized` and `modelReady` are left out, because they only load assets, create the canvas and log.
- `drawMesh` is left out, because its call in `draw` is commented out.
- Floating point is not modelled: coordinates are reals, and `Math.sqrt` is the parameter `root`. NaN appears only where the sketch divides 0 by 0, as `Number.NaN`. Infinities, rounding and the sign of zero are not modelled.
- Sketch.Mirror.UpdateKeypoints: `requires CanUpdate` excludes a later mesh longer than the keypoints. On such a mesh the blending loop reads `keypoints[i][0]` past the end, and JavaScript throws a TypeError inside `updateKeypoints` (sketch.js:88), after the first keypoints have already been blended.
- Sketch.Mirror.UpdateKeypoints: `requires CanUpdate` also excludes a first mesh of 446 points or fewer. JavaScript runs `updateKeypoints` to the end on such a mesh: it adopts the mesh (sketch.js:94), and the reads past the end leave `rightEye` (and perhaps other points of interest) `undefined` (sketch.js:96-99). The TypeError comes later, in `headScale`, when it reads the first undefined point of interest (sketch.js:146-147). By then `initialize` has shown the canvas and set `ready` (sketch.js:64, 79-82). The model therefore does not capture a frame that reveals the canvas, goes ready with too few keypoints, and then aborts.
- Sketch.Mirror.Draw and Sketch.Mirror.DrawFace: they carry the same `CanUpdate` precondition as `UpdateKeypoints`, for the same two cases.
- Sketch.Mirror.UpdateKeypoints: keypoints are a value, so the aliasing that line 94 creates between the keypoints and the detector's mesh is not modelled. Landmarks.SmoothedFixpoint covers the one case where it could matter: smoothing a mesh into itself.
- Sketch.Mirror.constructor: the points of interest start at the origin, where JavaScript leaves them undefined. No operation reads them before the first face frame sets them.
- P5Math.Map: only the endpoint cases are stated. Monotonicity is proved only for the two instances headScale uses, in Pose.ScaleGrowsWithHeight and Pose.ScaleGrowsWithWidth.
- Landmarks.Track: only lengths are stated for the n-fold smoothing. Per-keypoint contents are stated by Landmarks.TrackAt, together with Landmarks.ApproachGap.
