/**
 * Facemesh keypoints and the temporal smoothing that updateKeypoints applies to them:
 * the first detection is adopted as it is, every later one pulls each coordinate
 * halfway (lerp with 0.5) toward the new reading.
 */
module Landmarks {
  import opened P5Math

  /** One facemesh keypoint, the triple [x, y, z]. */
  datatype Landmark = Landmark(x: real, y: real, z: real)

  /** One detector prediction; the sketch reads only its scaledMesh. */
  datatype Face = Face(scaledMesh: seq<Landmark>)

  /** Mesh indices of the four points of interest. */
  const Forehead: nat := 10
  const Chin: nat := 152
  const LeftEye: nat := 226
  const RightEye: nat := 446

  /** The lerp amount used for every coordinate. */
  const Alpha: real := 0.5

  /** A keypoint pulled toward a new reading: each coordinate by lerp(kept, raw, Alpha). */
  function BlendPoint(kept: Landmark, raw: Landmark): (p: Landmark)
    ensures p.x == (kept.x + raw.x) / 2.0
    ensures p.y == (kept.y + raw.y) / 2.0
    ensures p.z == (kept.z + raw.z) / 2.0
  {
    Landmark(Lerp(kept.x, raw.x, Alpha), Lerp(kept.y, raw.y, Alpha), Lerp(kept.z, raw.z, Alpha))
  }

  /**
   * The keypoints after one detection `mesh`. With no keypoints yet the mesh is adopted;
   * otherwise the first |mesh| keypoints are blended and the rest are left alone. The
   * blending loop indexes the keypoints by the mesh's length, so a mesh longer than
   * the keypoints makes sketch.js throw.
   */
  function Smoothed(keypoints: seq<Landmark>, mesh: seq<Landmark>): (r: seq<Landmark>)
    requires keypoints != [] ==> |mesh| <= |keypoints|
    ensures keypoints == [] ==> r == mesh
    ensures keypoints != [] ==> |r| == |keypoints|
    ensures keypoints != [] ==> forall i :: 0 <= i < |mesh| ==>
      r[i].x == (keypoints[i].x + mesh[i].x) / 2.0 &&
      r[i].y == (keypoints[i].y + mesh[i].y) / 2.0 &&
      r[i].z == (keypoints[i].z + mesh[i].z) / 2.0
    ensures keypoints != [] ==> forall i :: |mesh| <= i < |keypoints| ==> r[i] == keypoints[i]
  {
    if keypoints == [] then mesh
    else
      seq(|keypoints|, i requires 0 <= i < |keypoints| =>
        if i < |mesh| then BlendPoint(keypoints[i], mesh[i]) else keypoints[i])
  }

  /**
   * What a frame needs of a detection to finish without a TypeError in sketch.js. A
   * later mesh must be no longer than the keypoints, or the blending loop in
   * updateKeypoints reads past their end and throws there. A first mesh must hold every
   * point of interest: updateKeypoints itself runs to the end on a shorter one, leaving
   * at least rightEye undefined, but headScale then throws on reading the first
   * undefined point of interest, after initialize has already revealed the canvas and
   * set ready.
   */
  predicate CanUpdate(keypoints: seq<Landmark>, mesh: seq<Landmark>)
  {
    if keypoints == [] then RightEye < |mesh| else |mesh| <= |keypoints| && RightEye < |keypoints|
  }

  /**
   * A detection equal to the current keypoints changes nothing. This is the case
   * where the keypoints alias the detector's own array.
   */
  lemma SmoothedFixpoint(mesh: seq<Landmark>)
    ensures Smoothed(mesh, mesh) == mesh
  {
    if mesh != [] {
      var r := Smoothed(mesh, mesh);
      forall i | 0 <= i < |mesh|
        ensures r[i] == mesh[i]
      {
      }
    }
  }

  /** The keypoints after `n` detections that all report the same mesh. */
  function Track(keypoints: seq<Landmark>, mesh: seq<Landmark>, n: nat): (r: seq<Landmark>)
    requires keypoints != [] ==> |mesh| <= |keypoints|
    ensures r != [] ==> |mesh| <= |r|
    ensures |r| == if n == 0 || keypoints != [] then |keypoints| else |mesh|
    decreases n
  {
    if n == 0 then keypoints else Smoothed(Track(keypoints, mesh, n - 1), mesh)
  }

  /** A face that holds still is reproduced exactly from the first detection on. */
  lemma {:induction false} TrackFromEmpty(mesh: seq<Landmark>, n: nat)
    requires 1 <= n
    ensures Track([], mesh, n) == mesh
  {
    if n > 1 {
      TrackFromEmpty(mesh, n - 1);
      SmoothedFixpoint(mesh);
    }
  }

  /** (1/2)^n. */
  function HalfPow(n: nat): (r: real)
    ensures 0.0 < r <= 1.0
    ensures 0 < n ==> r <= 0.5
  {
    if n == 0 then 1.0 else HalfPow(n - 1) / 2.0
  }

  /** One coordinate after `n` blends toward the fixed reading `raw`, starting from `kept`. */
  function Approach(kept: real, raw: real, n: nat): real
  {
    if n == 0 then kept else (Approach(kept, raw, n - 1) + raw) / 2.0
  }

  /** Each blend halves the coordinate's gap to the reading and keeps its sign. */
  lemma {:induction false} ApproachGap(kept: real, raw: real, n: nat)
    ensures Approach(kept, raw, n) - raw == (kept - raw) * HalfPow(n)
  {
    if n > 0 {
      ApproachGap(kept, raw, n - 1);
      var g, h := kept - raw, HalfPow(n - 1);
      assert Approach(kept, raw, n - 1) - raw == g * h;
      assert g * (h / 2.0) == (g * h) / 2.0;
    }
  }

  /** Track, keypoint by keypoint: the blended ones follow Approach in each coordinate. */
  lemma {:induction false} TrackAt(keypoints: seq<Landmark>, mesh: seq<Landmark>, n: nat, i: nat)
    requires keypoints != [] && |mesh| <= |keypoints| && i < |mesh|
    ensures Track(keypoints, mesh, n)[i] ==
      Landmark(Approach(keypoints[i].x, mesh[i].x, n),
               Approach(keypoints[i].y, mesh[i].y, n),
               Approach(keypoints[i].z, mesh[i].z, n))
  {
    if n > 0 {
      TrackAt(keypoints, mesh, n - 1, i);
    }
  }

  function Abs(v: real): real
  {
    if v < 0.0 then -v else v
  }

  lemma AbsScale(g: real, h: real)
    requires 0.0 < h
    ensures Abs(g * h) == Abs(g) * h
  {
    if g < 0.0 {
      MulStrict(g, 0.0, h);
    } else {
      MulLeft(0.0, g, h);
    }
  }

  /** The distance of one coordinate to the reading is |gap0| * (1/2)^n after n blends. */
  lemma ApproachDistance(kept: real, raw: real, n: nat)
    ensures Abs(Approach(kept, raw, n) - raw) == Abs(kept - raw) * HalfPow(n)
  {
    ApproachGap(kept, raw, n);
    AbsScale(kept - raw, HalfPow(n));
  }
}
