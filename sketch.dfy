/**
 * The frame driver of the mirror sketch: the state the sketch keeps between frames
 * (smoothed keypoints, the four points of interest, the one-shot `ready` flag) and
 * draw, which on every frame clears the canvas and, when the detector has reported a
 * face, reveals the canvas once, updates the keypoints and issues the pose transforms.
 * The renderer is modelled by the sequence of calls the sketch makes to it.
 */
module Sketch {
  import opened P5Math
  import opened Landmarks
  import opened Pose

  /** The renderer and page calls a frame makes. */
  datatype RenderOp =
    | Clear                   // clear()
    | Reveal                  // initialize: show the canvas and restyle the page
    | Scale(factor: real)     // scale(...)
    | RotateY(angle: Number)  // rotateY(...)
    | RotateX(angle: Number)  // rotateX(...)
    | RotateZ(angle: Number)  // rotateZ(...)
    | FlipX                   // rotateX(PI)
    | Texture                 // texture(objectTexture)
    | DrawModel               // model(displayObject)

  /** How many times `op` occurs in `ops`. */
  function CountOf(ops: seq<RenderOp>, op: RenderOp): nat
  {
    if ops == [] then 0 else (if ops[0] == op then 1 else 0) + CountOf(ops[1..], op)
  }

  lemma {:induction false} CountOfAppend(a: seq<RenderOp>, b: seq<RenderOp>, op: RenderOp)
    ensures CountOf(a + b, op) == CountOf(a, op) + CountOf(b, op)
  {
    if a == [] {
      assert a + b == b;
    } else {
      assert (a + b)[0] == a[0];
      assert (a + b)[1..] == a[1..] + b;
      CountOfAppend(a[1..], b, op);
    }
  }

  lemma CountOfSingle(x: RenderOp, op: RenderOp)
    ensures CountOf([x], op) == if x == op then 1 else 0
  {
    assert [x][1..] == [];
  }

  lemma {:induction false} CountOfAbsent(ops: seq<RenderOp>, op: RenderOp)
    requires forall k :: 0 <= k < |ops| ==> ops[k] != op
    ensures CountOf(ops, op) == 0
  {
    if ops != [] {
      CountOfAbsent(ops[1..], op);
    }
  }

  /**
   * A frame's calls after a prefix `before`: the clear, the reveal if there is one, then
   * calls that neither clear nor reveal. The frame adds one clear and |shown| reveals.
   */
  lemma FrameCounts(before: seq<RenderOp>, shown: seq<RenderOp>, ops: seq<RenderOp>)
    requires shown == [] || shown == [Reveal]
    requires forall k :: 0 <= k < |ops| ==> ops[k] != Reveal && ops[k] != Clear
    ensures CountOf(before + [Clear] + shown + ops, Clear) == CountOf(before, Clear) + 1
    ensures CountOf(before + [Clear] + shown + ops, Reveal) == CountOf(before, Reveal) + |shown|
  {
    var cleared := before + [Clear];
    var revealed := cleared + shown;
    CountOfAppend(before, [Clear], Clear);
    CountOfAppend(before, [Clear], Reveal);
    CountOfAppend(cleared, shown, Clear);
    CountOfAppend(cleared, shown, Reveal);
    CountOfAppend(revealed, ops, Clear);
    CountOfAppend(revealed, ops, Reveal);
    CountOfAbsent(ops, Clear);
    CountOfAbsent(ops, Reveal);
    CountOfSingle(Clear, Clear);
    CountOfSingle(Clear, Reveal);
    if shown != [] {
      CountOfSingle(Reveal, Clear);
      CountOfSingle(Reveal, Reveal);
    }
  }

  /**
   * The calls a frame with a face makes once the keypoints are updated: headScale,
   * headShake, headNod and headTilt with the values they compute, then the flip, the
   * texture and the model.
   */
  function PoseOps(scale: real, shake: Number, nod: Number, tilt: Number): (ops: seq<RenderOp>)
    ensures |ops| == 7
    ensures ops[0] == Scale(scale) && ops[1] == RotateY(shake) && ops[2] == RotateX(nod) && ops[3] == RotateZ(tilt)
    ensures ops[4..] == [FlipX, Texture, DrawModel]
    ensures forall k :: 0 <= k < |ops| ==> ops[k] != Reveal && ops[k] != Clear
  {
    [Scale(scale), RotateY(shake), RotateX(nod), RotateZ(tilt), FlipX, Texture, DrawModel]
  }

  /** The calls headScale, headShake, headNod and headTilt make for the given points of interest. */
  function FrameOps(forehead: Landmark, chin: Landmark, leftEye: Landmark, rightEye: Landmark,
                    root: real -> real): seq<RenderOp>
  {
    PoseOps(HeadScaleFactor(forehead, chin, leftEye, rightEye, root),
            ShakeAngle(leftEye, rightEye, root),
            NodAngle(forehead, chin, root),
            TiltAngle(forehead, chin, root))
  }

  /**
   * With a true square root, a frame never scales by a negative factor and every
   * rotation it issues is NaN or lies in [-drama, drama].
   */
  lemma FrameOpsRange(forehead: Landmark, chin: Landmark, leftEye: Landmark, rightEye: Landmark,
                      root: real -> real)
    requires IsSqrt(root)
    ensures 0.0 <= FrameOps(forehead, chin, leftEye, rightEye, root)[0].factor
    ensures Bounded(FrameOps(forehead, chin, leftEye, rightEye, root)[1].angle)
    ensures Bounded(FrameOps(forehead, chin, leftEye, rightEye, root)[2].angle)
    ensures Bounded(FrameOps(forehead, chin, leftEye, rightEye, root)[3].angle)
  {
    HeadScaleFactorRange(forehead, chin, leftEye, rightEye, root);
    ShakeAngleRange(leftEye, rightEye, root);
    NodAngleRange(forehead, chin, root);
    TiltAngleRange(forehead, chin, root);
  }

  /** The sketch's global state. */
  class Mirror {
    var keypoints: seq<Landmark>
    var forehead: Landmark
    var chin: Landmark
    var leftEye: Landmark
    var rightEye: Landmark
    var ready: bool
    /** Every renderer and page call made so far, oldest first. */
    var trace: seq<RenderOp>

    /**
     * Keypoints exist exactly once the sketch is ready; then the points of interest are
     * the keypoints at their fixed indices, and the canvas has been revealed exactly once.
     */
    ghost predicate Valid()
      reads this
    {
      (ready <==> keypoints != []) &&
      (ready ==> RightEye < |keypoints| &&
                 forehead == keypoints[Forehead] && chin == keypoints[Chin] &&
                 leftEye == keypoints[LeftEye] && rightEye == keypoints[RightEye]) &&
      CountOf(trace, Reveal) == (if ready then 1 else 0)
    }

    /** The state before the first frame; the points of interest are not yet read. */
    constructor ()
      ensures Valid() && !ready && keypoints == [] && trace == []
    {
      keypoints := [];
      var origin := Landmark(0.0, 0.0, 0.0);
      forehead, chin, leftEye, rightEye := origin, origin, origin, origin;
      ready := false;
      trace := [];
    }

    /** initialize: reveal the canvas and set the one-shot flag. */
    method Initialize()
      modifies this`ready, this`trace
      ensures ready && trace == old(trace) + [Reveal]
    {
      trace := trace + [Reveal];
      ready := true;
    }

    /**
     * updateKeypoints: adopt the first mesh, blend every later one halfway into the
     * keypoints in place, then re-read the points of interest.
     */
    method UpdateKeypoints(mesh: seq<Landmark>)
      requires CanUpdate(keypoints, mesh)
      modifies this`keypoints, this`forehead, this`chin, this`leftEye, this`rightEye
      ensures keypoints == Smoothed(old(keypoints), mesh)
      ensures RightEye < |keypoints|
      ensures forehead == keypoints[Forehead] && chin == keypoints[Chin]
      ensures leftEye == keypoints[LeftEye] && rightEye == keypoints[RightEye]
    {
      if |keypoints| > 0 {
        var i := 0;
        while i < |mesh|
          invariant 0 <= i <= |mesh|
          invariant |keypoints| == |old(keypoints)|
          invariant forall j :: 0 <= j < i ==> keypoints[j] == BlendPoint(old(keypoints)[j], mesh[j])
          invariant forall j :: i <= j < |keypoints| ==> keypoints[j] == old(keypoints)[j]
        {
          keypoints := keypoints[i := keypoints[i].(x := Lerp(keypoints[i].x, mesh[i].x, Alpha))];
          keypoints := keypoints[i := keypoints[i].(y := Lerp(keypoints[i].y, mesh[i].y, Alpha))];
          keypoints := keypoints[i := keypoints[i].(z := Lerp(keypoints[i].z, mesh[i].z, Alpha))];
          i := i + 1;
        }
        assert keypoints == Smoothed(old(keypoints), mesh);
      } else {
        keypoints := mesh;
      }
      forehead := keypoints[Forehead];
      chin := keypoints[Chin];
      leftEye := keypoints[LeftEye];
      rightEye := keypoints[RightEye];
    }

    /** headScale: scale by the face's size. */
    method HeadScale(root: real -> real)
      modifies this`trace
      ensures trace == old(trace) + [Scale(HeadScaleFactor(forehead, chin, leftEye, rightEye, root))]
    {
      trace := trace + [Scale(HeadScaleFactor(forehead, chin, leftEye, rightEye, root))];
    }

    /** headShake: turn about the vertical axis by the eyes' depth difference. */
    method HeadShake(root: real -> real)
      modifies this`trace
      ensures trace == old(trace) + [RotateY(ShakeAngle(leftEye, rightEye, root))]
    {
      trace := trace + [RotateY(ShakeAngle(leftEye, rightEye, root))];
    }

    /** headNod: turn about the horizontal axis by the forehead's depth over the chin's. */
    method HeadNod(root: real -> real)
      modifies this`trace
      ensures trace == old(trace) + [RotateX(NodAngle(forehead, chin, root))]
    {
      trace := trace + [RotateX(NodAngle(forehead, chin, root))];
    }

    /** headTilt: turn about the viewing axis by the forehead's offset from the chin. */
    method HeadTilt(root: real -> real)
      modifies this`trace
      ensures trace == old(trace) + [RotateZ(TiltAngle(forehead, chin, root))]
    {
      trace := trace + [RotateZ(TiltAngle(forehead, chin, root))];
    }

    /**
     * The transforms and the draw call of a frame with a face: headScale, headShake,
     * headNod and headTilt, then the flip, the texture and the model.
     */
    method Transform(root: real -> real)
      modifies this`trace
      ensures trace == old(trace) + FrameOps(forehead, chin, leftEye, rightEye, root)
    {
      HeadScale(root);
      HeadShake(root);
      HeadNod(root);
      HeadTilt(root);
      trace := trace + [FlipX];
      trace := trace + [Texture];
      trace := trace + [DrawModel];
    }

    /**
     * The part of draw that runs when the detector has reported a face: reveal the
     * canvas if not yet ready, smooth in the face's mesh, issue the pose transforms.
     */
    method DrawFace(mesh: seq<Landmark>, root: real -> real)
      requires CanUpdate(keypoints, mesh)
      modifies this
      ensures ready
      ensures keypoints == Smoothed(old(keypoints), mesh)
      ensures RightEye < |keypoints|
      ensures forehead == keypoints[Forehead] && chin == keypoints[Chin]
      ensures leftEye == keypoints[LeftEye] && rightEye == keypoints[RightEye]
      ensures trace == old(trace) + (if old(ready) then [] else [Reveal]) +
                       FrameOps(forehead, chin, leftEye, rightEye, root)
    {
      if !ready {
        Initialize();
      }
      UpdateKeypoints(mesh);
      Transform(root);
    }

    /**
     * draw, for one frame whose detector output is `predictions`. A frame without a
     * face only clears the canvas; a frame with one is handled by DrawFace with the
     * first face's mesh.
     */
    method Draw(predictions: seq<Face>, root: real -> real)
      requires Valid()
      requires predictions != [] ==> CanUpdate(keypoints, predictions[0].scaledMesh)
      modifies this
      ensures Valid()
      ensures old(ready) ==> ready
      ensures CountOf(trace, Clear) == CountOf(old(trace), Clear) + 1
      ensures predictions == [] ==>
        keypoints == old(keypoints) && ready == old(ready) &&
        forehead == old(forehead) && chin == old(chin) &&
        leftEye == old(leftEye) && rightEye == old(rightEye) &&
        trace == old(trace) + [Clear]
      ensures predictions != [] ==>
        ready && keypoints == Smoothed(old(keypoints), predictions[0].scaledMesh) &&
        trace == old(trace) + [Clear] + (if old(ready) then [] else [Reveal]) +
                 FrameOps(forehead, chin, leftEye, rightEye, root)
    {
      trace := trace + [Clear];
      if |predictions| > 0 {
        ghost var shown: seq<RenderOp> := if ready then [] else [Reveal];
        DrawFace(predictions[0].scaledMesh, root);
        FrameCounts(old(trace), shown, FrameOps(forehead, chin, leftEye, rightEye, root));
      } else {
        FrameCounts(old(trace), [], []);
        assert old(trace) + [Clear] + [] + [] == trace;
      }
    }
  }

  /** Frames in which the detector saw a face. */
  function FaceFrames(frames: seq<seq<Face>>): nat
  {
    if frames == [] then 0 else FaceFrames(frames[..|frames| - 1]) + (if frames[|frames| - 1] != [] then 1 else 0)
  }

  /**
   * A session: the sketch starts, then p5 calls draw once per animation frame with the
   * detector's latest output. The first face reported has `meshSize` keypoints, enough
   * to hold the points of interest, and no later face has more.
   */
  method Session(frames: seq<seq<Face>>, meshSize: nat, root: real -> real) returns (m: Mirror)
    requires RightEye < meshSize
    requires forall k :: 0 <= k < |frames| && frames[k] != [] ==> |frames[k][0].scaledMesh| <= meshSize
    requires forall k :: 0 <= k < |frames| && frames[k] != [] && FaceFrames(frames[..k]) == 0 ==>
      |frames[k][0].scaledMesh| == meshSize
    ensures m.Valid()
    ensures m.ready <==> 0 < FaceFrames(frames)
    ensures CountOf(m.trace, Reveal) == (if 0 < FaceFrames(frames) then 1 else 0)
    ensures CountOf(m.trace, Clear) == |frames|
  {
    m := new Mirror();
    var k := 0;
    while k < |frames|
      invariant 0 <= k <= |frames|
      invariant m.Valid()
      invariant m.keypoints == [] || |m.keypoints| == meshSize
      invariant m.ready <==> 0 < FaceFrames(frames[..k])
      invariant CountOf(m.trace, Clear) == k
    {
      m.Draw(frames[k], root);
      assert frames[..k + 1][..k] == frames[..k];
      k := k + 1;
    }
    assert frames[..|frames|] == frames;
  }
}
