/**
 * The head anchor: where a face detection puts the flower's centre. A
 * detection's bounding box is reduced to its normalised centre, mapped by a
 * fixed affine transform into world coordinates, and the anchor moves a fifth
 * of the way towards that point (THREE.Vector3.lerp with factor 0.2). Frames
 * whose video time has already been processed are skipped; a frame without a
 * face clears `hasFace` but keeps the anchor; readers get the default point
 * while no face is tracked. Doubles are abstracted as exact reals.
 */
module Anchor {

  datatype Vec3 = Vec3(x: real, y: real, z: real)

  /** A detection's bounding box, in video pixels. */
  datatype BoundingBox = BoundingBox(originX: real, originY: real, width: real, height: real)

  /** One pass of the detection loop: whether the video and the detector are ready, the video's time, what the detector returns. */
  datatype Frame = Frame(ready: bool, currentTime: real, detections: seq<BoundingBox>,
                         videoWidth: real, videoHeight: real)

  datatype TrackerState = TrackerState(headAnchor: Vec3, hasFace: bool, lastVideoTime: real)

  /** The anchor used while no face is tracked, and the anchor's initial value. */
  const DefaultAnchor: Vec3 := Vec3(0.0, 1.5, 0.0)

  /** The fraction of the remaining distance covered per detection. */
  const Smoothing: real := 0.2

  /** Before any frame: default anchor, no face, and a video time no frame has. */
  const InitialTracker: TrackerState := TrackerState(DefaultAnchor, false, -1.0)

  function Sub(a: Vec3, b: Vec3): Vec3 {
    Vec3(a.x - b.x, a.y - b.y, a.z - b.z)
  }

  function Scale(k: real, v: Vec3): Vec3 {
    Vec3(k * v.x, k * v.y, k * v.z)
  }

  /** Squared length. */
  function Norm2(v: Vec3): real {
    v.x * v.x + v.y * v.y + v.z * v.z
  }

  function Abs(r: real): real {
    if r < 0.0 then -r else r
  }

  /** The sum of the coordinate distances. */
  function Dist1(a: Vec3, b: Vec3): real {
    Abs(a.x - b.x) + Abs(a.y - b.y) + Abs(a.z - b.z)
  }

  function Pow(k: real, n: nat): real {
    if n == 0 then 1.0 else k * Pow(k, n - 1)
  }

  predicate Between(v: real, a: real, b: real) {
    (a <= v <= b) || (b <= v <= a)
  }

  /** THREE.Vector3.lerp: each coordinate moves by alpha times its distance to the target. */
  function Lerp(a: Vec3, b: Vec3, alpha: real): Vec3 {
    Vec3(a.x + (b.x - a.x) * alpha, a.y + (b.y - a.y) * alpha, a.z + (b.z - a.z) * alpha)
  }

  /** n smoothing steps towards a fixed target. */
  function LerpN(a: Vec3, b: Vec3, n: nat): Vec3
    decreases n
  {
    if n == 0 then a else LerpN(Lerp(a, b, Smoothing), b, n - 1)
  }

  /** The centre of the box, normalised by the video's size. */
  function NormalizedCenter(box: BoundingBox, videoWidth: real, videoHeight: real): (real, real)
    requires videoWidth > 0.0 && videoHeight > 0.0
  {
    ((box.originX + box.width / 2.0) / videoWidth, (box.originY + box.height / 2.0) / videoHeight)
  }

  /** The affine map from a normalised image point to the world: 4 units wide, 3 high, raised by 1.2, in the z = 0 plane. */
  function ToWorld(nx: real, ny: real): Vec3 {
    Vec3((nx - 0.5) * 4.0, (0.5 - ny) * 3.0 + 1.2, 0.0)
  }

  /** The inverse of ToWorld on the z = 0 plane. */
  function FromWorld(w: Vec3): (real, real) {
    (w.x / 4.0 + 0.5, 0.5 - (w.y - 1.2) / 3.0)
  }

  function DetectionTarget(box: BoundingBox, videoWidth: real, videoHeight: real): Vec3
    requires videoWidth > 0.0 && videoHeight > 0.0
  {
    var (nx, ny) := NormalizedCenter(box, videoWidth, videoHeight);
    ToWorld(nx, ny)
  }

  /** The anchor the petals follow: the tracked one while a face is seen. */
  function CurrentAnchor(s: TrackerState): Vec3 {
    if s.hasFace then s.headAnchor else DefaultAnchor
  }

  predicate FrameOk(f: Frame) {
    |f.detections| > 0 ==> f.videoWidth > 0.0 && f.videoHeight > 0.0
  }

  /**
   * One pass of predictWebcam: nothing happens until video and detector are
   * ready or when the video time was already seen; otherwise the time is
   * recorded and the first detection, if any, pulls the anchor.
   */
  function Tracked(s: TrackerState, f: Frame): TrackerState
    requires FrameOk(f)
  {
    if !f.ready || f.currentTime == s.lastVideoTime then s
    else if |f.detections| > 0 then
      TrackerState(Lerp(s.headAnchor, DetectionTarget(f.detections[0], f.videoWidth, f.videoHeight), Smoothing),
                   true, f.currentTime)
    else s.(hasFace := false, lastVideoTime := f.currentTime)
  }

  function TrackAll(s: TrackerState, frames: seq<Frame>): TrackerState
    requires forall i :: 0 <= i < |frames| ==> FrameOk(frames[i])
    decreases |frames|
  {
    if frames == [] then s else TrackAll(Tracked(s, frames[0]), frames[1..])
  }

  // ----- smoothing -----

  /**
   * One smoothing step leaves exactly 0.8 of the offset to the target (so
   * 0.64 of the squared distance), and no coordinate passes the target.
   */
  lemma LerpStep(a: Vec3, b: Vec3)
    ensures Sub(Lerp(a, b, Smoothing), b) == Scale(0.8, Sub(a, b))
    ensures Norm2(Sub(Lerp(a, b, Smoothing), b)) == 0.64 * Norm2(Sub(a, b))
    ensures var r := Lerp(a, b, Smoothing);
      Between(r.x, a.x, b.x) && Between(r.y, a.y, b.y) && Between(r.z, a.z, b.z)
  {
    var d := Sub(a, b);
    assert Sub(Lerp(a, b, Smoothing), b) == Scale(0.8, d);
    ScaleNorm2(0.8, d);
  }

  lemma ScaleNorm2(k: real, v: Vec3)
    ensures Norm2(Scale(k, v)) == k * k * Norm2(v)
  {
    assert (k * v.x) * (k * v.x) == k * k * (v.x * v.x);
    assert (k * v.y) * (k * v.y) == k * k * (v.y * v.y);
    assert (k * v.z) * (k * v.z) == k * k * (v.z * v.z);
  }

  /** Away from the target, a step strictly shrinks the distance yet never lands on the target. */
  lemma LerpNeverSnaps(a: Vec3, b: Vec3)
    requires a != b
    ensures Lerp(a, b, Smoothing) != b
    ensures Dist1(Lerp(a, b, Smoothing), b) == 0.8 * Dist1(a, b)
    ensures 0.0 < Dist1(Lerp(a, b, Smoothing), b) < Dist1(a, b)
  {
    LerpStep(a, b);
    assert a.x != b.x || a.y != b.y || a.z != b.z;
  }

  lemma {:induction false} PowBounds(n: nat)
    ensures 0.0 < Pow(0.8, n) <= 1.0
    ensures Pow(0.8, n + 1) < Pow(0.8, n)
  {
    if n > 0 {
      PowBounds(n - 1);
    }
  }

  /**
   * After n detections of the same target the offset is 0.8^n of the first
   * one: the anchor converges geometrically and, unless it started there,
   * never reaches the target.
   */
  lemma {:induction false} LerpNConverges(a: Vec3, b: Vec3, n: nat)
    decreases n
    ensures Sub(LerpN(a, b, n), b) == Scale(Pow(0.8, n), Sub(a, b))
    ensures a != b ==> LerpN(a, b, n) != b
  {
    if n > 0 {
      LerpStep(a, b);
      LerpNConverges(Lerp(a, b, Smoothing), b, n - 1);
      var p := Pow(0.8, n - 1);
      var d := Sub(a, b);
      assert Scale(p, Scale(0.8, d)) == Scale(Pow(0.8, n), d) by {
        assert p * (0.8 * d.x) == (0.8 * p) * d.x;
        assert p * (0.8 * d.y) == (0.8 * p) * d.y;
        assert p * (0.8 * d.z) == (0.8 * p) * d.z;
      }
    }
    if a != b {
      PowBounds(n);
      var d := Sub(a, b);
      assert d != Vec3(0.0, 0.0, 0.0);
      var k := Pow(0.8, n);
      assert Scale(k, d) != Vec3(0.0, 0.0, 0.0) by {
        if d.x != 0.0 { assert k * d.x != 0.0; }
        else if d.y != 0.0 { assert k * d.y != 0.0; }
        else { assert k * d.z != 0.0; }
      }
    }
  }

  // ----- the face-to-world map -----

  /** ToWorld and FromWorld are inverse to each other (on the z = 0 plane). */
  lemma WorldRoundTrip(nx: real, ny: real, w: Vec3)
    ensures FromWorld(ToWorld(nx, ny)) == (nx, ny)
    ensures w.z == 0.0 ==> ToWorld(FromWorld(w).0, FromWorld(w).1) == w
  {
  }

  /**
   * A point of the frame lands in [-2, 2] x [-0.3, 2.7] on z = 0 with the
   * frame's centre at (0, 1.2, 0); right in the image is right in the world
   * (nothing is mirrored) and up in the image is up in the world.
   */
  lemma ToWorldShape(nx: real, ny: real, nx2: real, ny2: real)
    ensures 0.0 <= nx <= 1.0 && 0.0 <= ny <= 1.0 ==>
      var w := ToWorld(nx, ny); -2.0 <= w.x <= 2.0 && -0.3 <= w.y <= 2.7 && w.z == 0.0
    ensures ToWorld(0.5, 0.5) == Vec3(0.0, 1.2, 0.0)
    ensures nx < nx2 ==> ToWorld(nx, ny).x < ToWorld(nx2, ny2).x
    ensures ny < ny2 ==> ToWorld(nx, ny).y > ToWorld(nx2, ny2).y
  {
  }

  /** A box inside the video frame has its normalised centre in [0, 1] x [0, 1]. */
  lemma NormalizedCenterInFrame(box: BoundingBox, videoWidth: real, videoHeight: real)
    requires videoWidth > 0.0 && videoHeight > 0.0
    requires 0.0 <= box.originX && 0.0 <= box.width && box.originX + box.width <= videoWidth
    requires 0.0 <= box.originY && 0.0 <= box.height && box.originY + box.height <= videoHeight
    ensures var (nx, ny) := NormalizedCenter(box, videoWidth, videoHeight);
      0.0 <= nx <= 1.0 && 0.0 <= ny <= 1.0
  {
    var cx, cy := box.originX + box.width / 2.0, box.originY + box.height / 2.0;
    assert 0.0 <= cx <= videoWidth && 0.0 <= cy <= videoHeight;
    assert (cx / videoWidth) * videoWidth == cx;
    assert (cy / videoHeight) * videoHeight == cy;
  }

  // ----- the tracker over frames -----

  /**
   * What one frame does: a skipped frame changes nothing; a processed frame
   * records its time; a face pulls the anchor a fifth of the way and sets
   * hasFace; no face clears hasFace and keeps the anchor.
   */
  lemma TrackedCases(s: TrackerState, f: Frame)
    requires FrameOk(f)
    ensures !f.ready || f.currentTime == s.lastVideoTime ==> Tracked(s, f) == s
    ensures f.ready && f.currentTime != s.lastVideoTime ==> Tracked(s, f).lastVideoTime == f.currentTime
    ensures f.ready && f.currentTime != s.lastVideoTime && |f.detections| == 0 ==>
      !Tracked(s, f).hasFace && Tracked(s, f).headAnchor == s.headAnchor
    ensures f.ready && f.currentTime != s.lastVideoTime && |f.detections| > 0 ==>
      var t := DetectionTarget(f.detections[0], f.videoWidth, f.videoHeight);
      Tracked(s, f).hasFace && Sub(Tracked(s, f).headAnchor, t) == Scale(0.8, Sub(s.headAnchor, t))
    ensures f.ready && f.currentTime != s.lastVideoTime ==> (Tracked(s, f).hasFace <==> |f.detections| > 0)
    ensures f.ready && f.currentTime != s.lastVideoTime && |f.detections| == 0 ==>
      CurrentAnchor(Tracked(s, f)) == DefaultAnchor
  {
    if f.ready && f.currentTime != s.lastVideoTime && |f.detections| > 0 {
      LerpStep(s.headAnchor, DetectionTarget(f.detections[0], f.videoWidth, f.videoHeight));
    }
  }

  /** When no face is ever detected the petals follow the default anchor throughout. */
  lemma {:induction false} NoFaceKeepsDefault(s: TrackerState, frames: seq<Frame>)
    requires !s.hasFace && s.headAnchor == DefaultAnchor
    requires forall i :: 0 <= i < |frames| ==> frames[i].detections == []
    decreases |frames|
    ensures var r := TrackAll(s, frames);
      !r.hasFace && r.headAnchor == DefaultAnchor && CurrentAnchor(r) == DefaultAnchor
  {
    if frames != [] {
      assert frames[0].detections == [];
      NoFaceKeepsDefault(Tracked(s, frames[0]), frames[1..]);
    }
  }

  /**
   * Fresh frames that all detect a face at the same world point move the
   * anchor along the smoothing sequence towards it.
   */
  lemma {:induction false} FixedTargetFollowsLerpN(s: TrackerState, frames: seq<Frame>, target: Vec3)
    requires forall i :: 0 <= i < |frames| ==>
      && FrameOk(frames[i]) && frames[i].ready && |frames[i].detections| > 0
      && DetectionTarget(frames[i].detections[0], frames[i].videoWidth, frames[i].videoHeight) == target
    requires frames != [] ==> frames[0].currentTime > s.lastVideoTime
    requires forall i, j :: 0 <= i < j < |frames| ==> frames[i].currentTime < frames[j].currentTime
    decreases |frames|
    ensures TrackAll(s, frames).headAnchor == LerpN(s.headAnchor, target, |frames|)
    ensures frames != [] ==> TrackAll(s, frames).hasFace
  {
    if frames != [] {
      var f := frames[0];
      assert f.ready && |f.detections| > 0 && f.currentTime > s.lastVideoTime;
      assert DetectionTarget(f.detections[0], f.videoWidth, f.videoHeight) == target;
      var s1 := Tracked(s, f);
      assert s1.headAnchor == Lerp(s.headAnchor, target, Smoothing);
      assert s1.lastVideoTime == frames[0].currentTime;
      var rest := frames[1..];
      assert forall i :: 0 <= i < |rest| ==> rest[i] == frames[i + 1];
      assert rest != [] ==> rest[0].currentTime > s1.lastVideoTime;
      FixedTargetFollowsLerpN(s1, rest, target);
    }
  }

  /** The detection loop's state: headAnchor, hasFace and lastVideoTime, updated in place. */
  class AnchorTracker {
    var headAnchor: Vec3
    var hasFace: bool
    var lastVideoTime: real

    function State(): TrackerState
      reads this
    {
      TrackerState(headAnchor, hasFace, lastVideoTime)
    }

    constructor ()
      ensures State() == InitialTracker
    {
      headAnchor := DefaultAnchor;
      hasFace := false;
      lastVideoTime := -1.0;
    }

    /** The anchor the render loop reads. */
    function Anchor(): Vec3
      reads this
    {
      CurrentAnchor(State())
    }

    /** One pass of the detection loop on frame f. */
    method PredictWebcam(f: Frame)
      requires FrameOk(f)
      modifies this
      ensures State() == Tracked(old(State()), f)
      ensures !f.ready || f.currentTime == old(lastVideoTime) ==> unchanged(this)
      ensures f.ready && f.currentTime != old(lastVideoTime) ==> (hasFace <==> |f.detections| > 0)
      ensures f.ready && f.currentTime != old(lastVideoTime) && |f.detections| == 0 ==> Anchor() == DefaultAnchor
      ensures f.ready && f.currentTime != old(lastVideoTime) && |f.detections| > 0 ==>
        Anchor() == Lerp(old(headAnchor), DetectionTarget(f.detections[0], f.videoWidth, f.videoHeight), Smoothing)
    {
      if !f.ready {
        return;
      }
      if f.currentTime != lastVideoTime {
        lastVideoTime := f.currentTime;
        if |f.detections| > 0 {
          var target := DetectionTarget(f.detections[0], f.videoWidth, f.videoHeight);
          headAnchor := Lerp(headAnchor, target, Smoothing);
          hasFace := true;
        } else {
          hasFace := false;
        }
      }
    }
  }
}
