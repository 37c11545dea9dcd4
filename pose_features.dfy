/**
 * Poses and the features extracted from them (`get_pose_features`): up to
 * four joint angles, and the offset of every landmark other than the neck
 * from the neck.
 */
module PoseFeatures {
  import opened Geometry

  /** `CRICKET_POSE_KEYPOINTS`: the fixed vocabulary of landmark names. */
  datatype Landmark =
    | Nose | Neck
    | RightShoulder | RightElbow | RightWrist
    | LeftShoulder | LeftElbow | LeftWrist
    | RightHip | RightKnee | RightAnkle
    | LeftHip | LeftKnee | LeftAnkle

  /** One landmark: image coordinates and a detector confidence. */
  datatype Keypoint = Keypoint(x: real, y: real, confidence: real)

  datatype BoundingBox = BoundingBox(left: real, top: real, width: real, height: real)

  datatype Pose = Pose(keypoints: map<Landmark, Keypoint>, bbox: BoundingBox)

  /** The four joints whose angle is a feature. */
  datatype Joint = RightElbowJoint | LeftElbowJoint | RightKneeJoint | LeftKneeJoint

  /**
   * Feature names: `<joint>_angle`, `<landmark>_x_rel` and `<landmark>_y_rel`.
   * `XRel(Neck)` is the name `neck_x_rel`.
   */
  datatype Feature = Angle(joint: Joint) | XRel(landmark: Landmark) | YRel(landmark: Landmark)

  type FeatureMap = map<Feature, real>

  /** The three landmarks whose angle at the middle one defines a joint's angle. */
  function JointLandmarks(j: Joint): (Landmark, Landmark, Landmark)
  {
    match j
    case RightElbowJoint => (RightShoulder, RightElbow, RightWrist)
    case LeftElbowJoint => (LeftShoulder, LeftElbow, LeftWrist)
    case RightKneeJoint => (RightHip, RightKnee, RightAnkle)
    case LeftKneeJoint => (LeftHip, LeftKnee, LeftAnkle)
  }

  function Position(k: Keypoint): Point
  {
    Point(k.x, k.y)
  }

  /** All three landmarks of the joint are in the pose. */
  predicate JointVisible(pose: Pose, j: Joint)
  {
    var (a, b, c) := JointLandmarks(j);
    a in pose.keypoints && b in pose.keypoints && c in pose.keypoints
  }

  function JointAngle(pose: Pose, j: Joint): real
    requires JointVisible(pose, j)
  {
    var (a, b, c) := JointLandmarks(j);
    CalculateAngle(Position(pose.keypoints[a]), Position(pose.keypoints[b]), Position(pose.keypoints[c]))
  }

  /** Both `neck` and `nose` are present: the condition for relative offsets. */
  predicate AnchorsVisible(pose: Pose)
  {
    Neck in pose.keypoints && Nose in pose.keypoints
  }

  /** `CRICKET_POSE_KEYPOINTS`, in order: also the order in which the estimator fills the keypoint dictionary. */
  const LandmarkOrder: seq<Landmark> := [
    Nose, Neck,
    RightShoulder, RightElbow, RightWrist,
    LeftShoulder, LeftElbow, LeftWrist,
    RightHip, RightKnee, RightAnkle,
    LeftHip, LeftKnee, LeftAnkle
  ]

  lemma LandmarkOrderComplete(k: Landmark)
    ensures k in LandmarkOrder
  {
  }

  /** One angle block: set the joint's angle when its three landmarks are present. */
  function WithJoint(features: FeatureMap, pose: Pose, j: Joint): FeatureMap
  {
    if JointVisible(pose, j) then features[Angle(j) := JointAngle(pose, j)] else features
  }

  /** The four angle blocks, in order. */
  function AngleFeatures(pose: Pose): FeatureMap
  {
    var f := WithJoint(map[], pose, RightElbowJoint);
    var f := WithJoint(f, pose, LeftElbowJoint);
    var f := WithJoint(f, pose, RightKneeJoint);
    WithJoint(f, pose, LeftKneeJoint)
  }

  /** After the angle blocks, exactly the angles of the visible joints are set. */
  lemma AngleFeaturesFacts(pose: Pose)
    ensures var r := AngleFeatures(pose);
      && (forall f :: f in r ==> f.Angle?)
      && (forall j :: Angle(j) in r <==> JointVisible(pose, j))
      && (forall j :: Angle(j) in r ==> r[Angle(j)] == JointAngle(pose, j))
  {
  }

  /**
   * The features after the angle blocks and the iterations of the offsets
   * loop for the landmarks `visited`, in that order; each iteration gives a
   * landmark other than the neck its two offsets from the neck.
   */
  function OffsetsAlong(pose: Pose, visited: seq<Landmark>): FeatureMap
    requires Neck in pose.keypoints
  {
    if |visited| == 0 then AngleFeatures(pose)
    else AddOffsets(OffsetsAlong(pose, visited[..|visited| - 1]), pose, visited[|visited| - 1])
  }

  /** One iteration of the offsets loop, for keypoint `k`. */
  function AddOffsets(f: FeatureMap, pose: Pose, k: Landmark): FeatureMap
    requires Neck in pose.keypoints
  {
    var kp := pose.keypoints;
    if k in kp && k != Neck then f[XRel(k) := kp[k].x - kp[Neck].x][YRel(k) := kp[k].y - kp[Neck].y]
    else f
  }

  /** One iteration touches only the two offsets of `k`, and only when `k` is present and not the neck. */
  lemma AddOffsetsFacts(f: FeatureMap, pose: Pose, k: Landmark)
    requires Neck in pose.keypoints
    ensures var r, kp := AddOffsets(f, pose, k), pose.keypoints;
      && (forall x :: x != XRel(k) && x != YRel(k) ==> (x in r <==> x in f) && (x in r ==> r[x] == f[x]))
      && (XRel(k) in r <==> XRel(k) in f || (k in kp && k != Neck))
      && (YRel(k) in r <==> YRel(k) in f || (k in kp && k != Neck))
      && (k in kp && k != Neck ==> r[XRel(k)] == kp[k].x - kp[Neck].x && r[YRel(k)] == kp[k].y - kp[Neck].y)
      && (!(k in kp && k != Neck) ==> r == f)
  {
  }

  /** The offsets loop leaves the angles as the angle blocks set them. */
  lemma {:induction false} OffsetsAlongAngles(pose: Pose, visited: seq<Landmark>)
    requires Neck in pose.keypoints
    ensures var r := OffsetsAlong(pose, visited);
      && (forall j :: Angle(j) in r <==> JointVisible(pose, j))
      && (forall j :: Angle(j) in r ==> r[Angle(j)] == JointAngle(pose, j))
  {
    if |visited| == 0 {
      AngleFeaturesFacts(pose);
    } else {
      OffsetsAlongAngles(pose, visited[..|visited| - 1]);
      AddOffsetsFacts(OffsetsAlong(pose, visited[..|visited| - 1]), pose, visited[|visited| - 1]);
    }
  }

  /** The offsets after the loop has visited `visited`: one pair per present visited landmark other than the neck. */
  lemma {:induction false} OffsetsAlongOffsets(pose: Pose, visited: seq<Landmark>)
    requires Neck in pose.keypoints
    ensures var r, kp := OffsetsAlong(pose, visited), pose.keypoints;
      && (forall k :: XRel(k) in r <==> k in visited && k in kp && k != Neck)
      && (forall k :: YRel(k) in r <==> k in visited && k in kp && k != Neck)
      && (forall k :: XRel(k) in r ==> r[XRel(k)] == kp[k].x - kp[Neck].x)
      && (forall k :: YRel(k) in r ==> r[YRel(k)] == kp[k].y - kp[Neck].y)
  {
    if |visited| == 0 {
      AngleFeaturesFacts(pose);
    } else {
      var init := visited[..|visited| - 1];
      OffsetsAlongOffsets(pose, init);
      AddOffsetsFacts(OffsetsAlong(pose, init), pose, visited[|visited| - 1]);
      forall k ensures k in visited <==> k in init || k == visited[|visited| - 1] {
        assert visited == init + [visited[|visited| - 1]];
      }
    }
  }

  /** `get_pose_features(pose)`, as a value. */
  function PoseFeaturesOf(pose: Pose): (features: FeatureMap)
    ensures forall j :: Angle(j) in features <==> JointVisible(pose, j)
    ensures forall j :: Angle(j) in features ==> features[Angle(j)] == JointAngle(pose, j)
    ensures forall k :: XRel(k) in features <==> AnchorsVisible(pose) && k in pose.keypoints && k != Neck
    ensures forall k :: YRel(k) in features <==> AnchorsVisible(pose) && k in pose.keypoints && k != Neck
    ensures forall k :: XRel(k) in features ==> features[XRel(k)] == pose.keypoints[k].x - pose.keypoints[Neck].x
    ensures forall k :: YRel(k) in features ==> features[YRel(k)] == pose.keypoints[k].y - pose.keypoints[Neck].y
  {
    if AnchorsVisible(pose) then
      OffsetsAlongAngles(pose, LandmarkOrder);
      OffsetsAlongOffsets(pose, LandmarkOrder);
      assert forall k :: k in LandmarkOrder by {
        forall k ensures k in LandmarkOrder { LandmarkOrderComplete(k); }
      }
      OffsetsAlong(pose, LandmarkOrder)
    else
      AngleFeaturesFacts(pose);
      AngleFeatures(pose)
  }

  /**
   * `get_pose_features(pose)`: the four angle blocks, then, when the neck and
   * the nose are present, a loop over the keypoints that assigns the two
   * offsets of each one other than the neck.
   */
  method GetPoseFeatures(pose: Pose) returns (features: FeatureMap)
    ensures features == PoseFeaturesOf(pose)
  {
    var kp := pose.keypoints;
    features := map[];
    features := WithJoint(features, pose, RightElbowJoint);
    features := WithJoint(features, pose, LeftElbowJoint);
    features := WithJoint(features, pose, RightKneeJoint);
    features := WithJoint(features, pose, LeftKneeJoint);
    assert features == AngleFeatures(pose);
    if Neck in kp && Nose in kp {
      var center := kp[Neck];
      for i := 0 to |LandmarkOrder|
        invariant features == OffsetsAlong(pose, LandmarkOrder[..i])
      {
        var k := LandmarkOrder[i];
        OffsetsAlongSnoc(pose, LandmarkOrder, i);
        if k in kp && k != Neck {
          features := features[XRel(k) := kp[k].x - center.x];
          features := features[YRel(k) := kp[k].y - center.y];
        }
      }
      assert LandmarkOrder[..|LandmarkOrder|] == LandmarkOrder;
    }
  }

  lemma OffsetsAlongSnoc(pose: Pose, order: seq<Landmark>, i: nat)
    requires Neck in pose.keypoints && i < |order|
    ensures OffsetsAlong(pose, order[..i + 1]) == AddOffsets(OffsetsAlong(pose, order[..i]), pose, order[i])
  {
    assert order[..i + 1][..i] == order[..i];
  }

  /** The neck gets no offsets, so `neck_x_rel` and `neck_y_rel` are never features. */
  lemma NeckOffsetsNeverExtracted(pose: Pose)
    ensures XRel(Neck) !in PoseFeaturesOf(pose) && YRel(Neck) !in PoseFeaturesOf(pose)
  {
  }

  /** Features depend only on which landmarks are present and where: never on the confidences. */
  lemma ConfidenceIgnored(p: Pose, q: Pose)
    requires p.keypoints.Keys == q.keypoints.Keys
    requires forall k :: k in p.keypoints ==> Position(p.keypoints[k]) == Position(q.keypoints[k])
    ensures PoseFeaturesOf(p) == PoseFeaturesOf(q)
  {
    var fp, fq := PoseFeaturesOf(p), PoseFeaturesOf(q);
    forall f ensures (f in fp <==> f in fq) && (f in fp ==> fp[f] == fq[f]) {
      match f
      case Angle(j) =>
        var (a, b, c) := JointLandmarks(j);
        if JointVisible(p, j) {
          assert Position(p.keypoints[a]) == Position(q.keypoints[a]);
          assert Position(p.keypoints[b]) == Position(q.keypoints[b]);
          assert Position(p.keypoints[c]) == Position(q.keypoints[c]);
        }
      case XRel(k) =>
        if f in fp {
          assert Position(p.keypoints[k]) == Position(q.keypoints[k]);
          assert Position(p.keypoints[Neck]) == Position(q.keypoints[Neck]);
        }
      case YRel(k) =>
        if f in fp {
          assert Position(p.keypoints[k]) == Position(q.keypoints[k]);
          assert Position(p.keypoints[Neck]) == Position(q.keypoints[Neck]);
        }
    }
  }
}
