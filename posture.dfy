/**
 * The posture cascade of the shot classifier (`determine_posture`): the first
 * check that fires decides, in the order horizontal lean, leaning back,
 * kneeling, and otherwise upright.
 */
module Posture {
  import opened PoseFeatures

  datatype Posture = LeaningRight | LeaningLeft | LeaningBack | Kneeling | Upright

  /** The posture names used in the shot rules. */
  function PostureName(p: Posture): string
  {
    match p
    case LeaningRight => "leaning_right"
    case LeaningLeft => "leaning_left"
    case LeaningBack => "leaning_back"
    case Kneeling => "kneeling"
    case Upright => "upright"
  }

  lemma PostureNamesDistinct(p: Posture, q: Posture)
    ensures PostureName(p) == PostureName(q) <==> p == q
  {
  }

  /** `nose_x_rel - neck_x_rel` when both features exist. */
  predicate HasLean(features: FeatureMap)
  {
    XRel(Nose) in features && XRel(Neck) in features
  }

  function Lean(features: FeatureMap): real
    requires HasLean(features)
  {
    features[XRel(Nose)] - features[XRel(Neck)]
  }

  /** `nose_y_rel - neck_y_rel` when both features exist. */
  predicate HasVerticalLean(features: FeatureMap)
  {
    YRel(Nose) in features && YRel(Neck) in features
  }

  function VerticalLean(features: FeatureMap): real
    requires HasVerticalLean(features)
  {
    features[YRel(Nose)] - features[YRel(Neck)]
  }

  /** The knee angle of `j` exists and is below 90 degrees. */
  predicate KneeBent(features: FeatureMap, j: Joint)
  {
    Angle(j) in features && features[Angle(j)] < 90.0
  }

  /** `determine_posture(features)`. */
  function DeterminePosture(features: FeatureMap): Posture
  {
    if HasLean(features) && Lean(features) > 20.0 then LeaningRight
    else if HasLean(features) && Lean(features) < -20.0 then LeaningLeft
    else if HasVerticalLean(features) && VerticalLean(features) < -15.0 then LeaningBack
    else if KneeBent(features, RightKneeJoint) then Kneeling
    else if KneeBent(features, LeftKneeJoint) then Kneeling
    else Upright
  }

  /** Each posture is returned exactly when its check is the first one to fire. */
  lemma DeterminePostureCases(features: FeatureMap)
    ensures var p := DeterminePosture(features);
      var lean := HasLean(features) && (Lean(features) > 20.0 || Lean(features) < -20.0);
      var back := HasVerticalLean(features) && VerticalLean(features) < -15.0;
      var kneel := KneeBent(features, RightKneeJoint) || KneeBent(features, LeftKneeJoint);
      && (p == LeaningRight <==> HasLean(features) && Lean(features) > 20.0)
      && (p == LeaningLeft <==> HasLean(features) && Lean(features) < -20.0)
      && (p == LeaningBack <==> !lean && back)
      && (p == Kneeling <==> !lean && !back && kneel)
      && (p == Upright <==> !lean && !back && !kneel)
  {
  }

  /** The lean check comes first: a lean beyond 20 wins even over a bent knee. */
  lemma LeanBeatsKneel(features: FeatureMap)
    requires HasLean(features) && Lean(features) > 20.0
    requires KneeBent(features, RightKneeJoint) && KneeBent(features, LeftKneeJoint)
    ensures DeterminePosture(features) == LeaningRight
  {
  }

  /** With no features at all, every check is skipped. */
  lemma EmptyIsUpright()
    ensures DeterminePosture(map[]) == Upright
  {
  }

  /**
   * On the extractor's output the lean checks never fire, since it never sets
   * `neck_x_rel` or `neck_y_rel`: the posture is kneeling exactly when a knee
   * is visible and bent below 90 degrees, and upright otherwise.
   */
  lemma PostureOfExtractedFeatures(pose: Pose)
    ensures var p := DeterminePosture(PoseFeaturesOf(pose));
      && (p == Kneeling || p == Upright)
      && (p == Kneeling <==>
            (JointVisible(pose, RightKneeJoint) && JointAngle(pose, RightKneeJoint) < 90.0) ||
            (JointVisible(pose, LeftKneeJoint) && JointAngle(pose, LeftKneeJoint) < 90.0))
  {
    NeckOffsetsNeverExtracted(pose);
  }
}
