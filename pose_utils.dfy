/** The in-scope part of the pose detector: the confidence gate of the angle
    computation and the table that names eight joint angles by COCO keypoint
    triplets.  The trigonometry itself is a parameter of type AngleFn. */
module PoseUtils {
  import opened Wrappers

  /** An image position of a keypoint. */
  datatype Point = Point(x: real, y: real)

  /** One detected keypoint: position and detection confidence. */
  datatype Keypoint = Keypoint(pos: Point, conf: real)

  /** The angle in degrees at the middle point of three points.  The source
      computes it with arccos of a cosine clipped to [-1, 1], so every value
      lies in [0, 180]; that range is all the model assumes of it. */
  type AngleFn = f: (Point, Point, Point) -> real
    | forall a, b, c :: 0.0 <= f(a, b, c) <= 180.0
    witness (a: Point, b: Point, c: Point) => 90.0

  /** Confidence a keypoint must reach to be used in an angle. */
  const MinConfidence: real := 0.5

  /** Number of keypoints of the COCO body model. */
  const KeypointCount: nat := 17

  /** The eight named joint angles. */
  datatype Joint =
    | LeftShoulder | RightShoulder
    | LeftElbow | RightElbow
    | LeftHip | RightHip
    | LeftKnee | RightKnee
  {
    predicate IsLeft() {
      this == LeftShoulder || this == LeftElbow || this == LeftHip || this == LeftKnee
    }

    /** The same joint on the other side of the body. */
    function Mirror(): Joint {
      match this
      case LeftShoulder => RightShoulder
      case RightShoulder => LeftShoulder
      case LeftElbow => RightElbow
      case RightElbow => LeftElbow
      case LeftHip => RightHip
      case RightHip => LeftHip
      case LeftKnee => RightKnee
      case RightKnee => LeftKnee
    }
  }

  /** The eight joints, the keys of a full angle map. */
  const AllJoints: set<Joint> :=
    {LeftShoulder, RightShoulder, LeftElbow, RightElbow, LeftHip, RightHip, LeftKnee, RightKnee}

  /** AllJoints names every joint. */
  lemma AllJointsListed()
    ensures forall j: Joint :: j in AllJoints
  {
    forall j: Joint ensures j in AllJoints {
      match j
      case LeftShoulder => case RightShoulder => case LeftElbow => case RightElbow =>
      case LeftHip => case RightHip => case LeftKnee => case RightKnee =>
    }
  }

  /** A map from joint to angle-or-absent, as built by CalculateAllAngles. */
  type Angles = map<Joint, Option<real>>

  /** `angles.get(name)`: a missing key reads as absent. */
  function Get(angles: Angles, j: Joint): Option<real> {
    if j in angles then angles[j] else None
  }

  /** Indices of three keypoints; the angle is taken at `vertex`. */
  datatype Triplet = Triplet(proximal: nat, vertex: nat, distal: nat)
  {
    /** The triplet with every index moved to the next keypoint. */
    function Shifted(): Triplet {
      Triplet(proximal + 1, vertex + 1, distal + 1)
    }
  }

  /** Position of each joint's own keypoint in the COCO 17-keypoint order
      (5/6 shoulders, 7/8 elbows, 11/12 hips, 13/14 knees). */
  function CocoIndex(j: Joint): nat {
    match j
    case LeftShoulder => 5
    case RightShoulder => 6
    case LeftElbow => 7
    case RightElbow => 8
    case LeftHip => 11
    case RightHip => 12
    case LeftKnee => 13
    case RightKnee => 14
  }

  /** The keypoint triplet of each joint angle, read off the dictionary
      built by calculate_all_angles. */
  function TripletOf(j: Joint): (t: Triplet)
    ensures t.vertex == CocoIndex(j)
    ensures t.proximal < KeypointCount && t.vertex < KeypointCount && t.distal < KeypointCount
  {
    match j
    case LeftShoulder => Triplet(7, 5, 11)
    case RightShoulder => Triplet(8, 6, 12)
    case LeftElbow => Triplet(5, 7, 9)
    case RightElbow => Triplet(6, 8, 10)
    case LeftHip => Triplet(5, 11, 13)
    case RightHip => Triplet(6, 12, 14)
    case LeftKnee => Triplet(11, 13, 15)
    case RightKnee => Triplet(12, 14, 16)
  }

  /** Every right-side triplet is its left-side triplet shifted by one index. */
  lemma RightTripletMirrorsLeft(j: Joint)
    requires j.IsLeft()
    ensures TripletOf(j.Mirror()) == TripletOf(j).Shifted()
  {
  }

  /** calculate_angle: absent when any of the three confidences is below
      0.5, otherwise the angle at p2. */
  function CalculateAngle(p1: Keypoint, p2: Keypoint, p3: Keypoint, angleOf: AngleFn): (r: Option<real>)
    ensures r.None? <==> (p1.conf < MinConfidence || p2.conf < MinConfidence || p3.conf < MinConfidence)
    ensures r.Some? ==> 0.0 <= r.value <= 180.0
    ensures r.Some? ==> r.value == angleOf(p1.pos, p2.pos, p3.pos)
  {
    if p1.conf < MinConfidence || p2.conf < MinConfidence || p3.conf < MinConfidence then None
    else Some(angleOf(p1.pos, p2.pos, p3.pos))
  }

  /** The angle named by a triplet, from a full set of keypoints. */
  function AngleAt(keypoints: seq<Keypoint>, t: Triplet, angleOf: AngleFn): Option<real>
    requires t.proximal < |keypoints| && t.vertex < |keypoints| && t.distal < |keypoints|
  {
    CalculateAngle(keypoints[t.proximal], keypoints[t.vertex], keypoints[t.distal], angleOf)
  }

  /** calculate_all_angles: the empty map for fewer than 17 keypoints,
      otherwise exactly the eight joints, each computed from its triplet. */
  function CalculateAllAngles(keypoints: seq<Keypoint>, angleOf: AngleFn): (angles: Angles)
    ensures |keypoints| < KeypointCount ==> angles == map[]
    ensures |keypoints| >= KeypointCount ==> angles.Keys == AllJoints
    ensures |keypoints| >= KeypointCount ==>
      forall j: Joint :: Get(angles, j) == AngleAt(keypoints, TripletOf(j), angleOf)
    ensures forall j: Joint :: Get(angles, j).Some? ==> 0.0 <= Get(angles, j).value <= 180.0
  {
    if |keypoints| < KeypointCount then map[]
    else
    AllJointsListed();
    map[
      LeftShoulder := CalculateAngle(keypoints[7], keypoints[5], keypoints[11], angleOf),
      RightShoulder := CalculateAngle(keypoints[8], keypoints[6], keypoints[12], angleOf),
      LeftElbow := CalculateAngle(keypoints[5], keypoints[7], keypoints[9], angleOf),
      RightElbow := CalculateAngle(keypoints[6], keypoints[8], keypoints[10], angleOf),
      LeftHip := CalculateAngle(keypoints[5], keypoints[11], keypoints[13], angleOf),
      RightHip := CalculateAngle(keypoints[6], keypoints[12], keypoints[14], angleOf),
      LeftKnee := CalculateAngle(keypoints[11], keypoints[13], keypoints[15], angleOf),
      RightKnee := CalculateAngle(keypoints[12], keypoints[14], keypoints[16], angleOf)
    ]
  }
}
