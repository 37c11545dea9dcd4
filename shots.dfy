/**
 * Rule-based shot classification (`classify_shot`): every shot of the
 * catalog is scored against the pose features, the posture and the wrist
 * motion, and the first shot of the catalog with the highest score wins,
 * provided that score reaches 2.
 */
module Shots {
  import opened Wrappers
  import opened PoseFeatures
  import opened Posture
  import opened Motion

  /** `CRICKET_SHOTS`. */
  datatype Shot =
    | StraightDrive | CoverDrive | CutShot | PullShot | HookShot
    | SweepShot | DefensiveShot | FlickShot | SquareDrive | OnDrive

  const CricketShots: seq<Shot> := [
    StraightDrive, CoverDrive, CutShot, PullShot, HookShot,
    SweepShot, DefensiveShot, FlickShot, SquareDrive, OnDrive
  ]

  function ShotName(s: Shot): string
  {
    match s
    case StraightDrive => "straight drive"
    case CoverDrive => "cover drive"
    case CutShot => "cut shot"
    case PullShot => "pull shot"
    case HookShot => "hook shot"
    case SweepShot => "sweep shot"
    case DefensiveShot => "defensive shot"
    case FlickShot => "flick shot"
    case SquareDrive => "square drive"
    case OnDrive => "on drive"
  }

  /** An inclusive range `[lo, hi]` for one angle feature. */
  datatype AngleConstraint = AngleConstraint(feature: Feature, lo: real, hi: real)

  /** One entry of `SHOT_RULES`: its angle ranges, expected posture and description. */
  datatype ShotRule = ShotRule(shot: Shot, angles: seq<AngleConstraint>, posture: Posture, description: string)

  /** `SHOT_RULES`, in definition order. */
  const ShotRules: seq<ShotRule> := [
    ShotRule(StraightDrive,
      [AngleConstraint(Angle(RightElbowJoint), 140.0, 180.0), AngleConstraint(Angle(LeftElbowJoint), 90.0, 140.0)],
      Upright,
      "A classic shot played with a straight bat, hitting the ball back past the bowler."),
    ShotRule(CoverDrive,
      [AngleConstraint(Angle(RightElbowJoint), 120.0, 160.0), AngleConstraint(Angle(LeftElbowJoint), 100.0, 150.0)],
      LeaningRight,
      "An elegant shot played through the off side, between mid-off and point."),
    ShotRule(CutShot,
      [AngleConstraint(Angle(RightElbowJoint), 90.0, 130.0), AngleConstraint(Angle(LeftElbowJoint), 100.0, 150.0)],
      Upright,
      "A horizontal bat shot played to a short, wide delivery, cutting the ball toward point."),
    ShotRule(PullShot,
      [AngleConstraint(Angle(RightElbowJoint), 80.0, 120.0), AngleConstraint(Angle(LeftElbowJoint), 70.0, 110.0)],
      LeaningBack,
      "A shot played to a short-pitched delivery, pulling the ball to the leg side."),
    ShotRule(HookShot,
      [AngleConstraint(Angle(RightElbowJoint), 70.0, 110.0), AngleConstraint(Angle(LeftElbowJoint), 60.0, 100.0)],
      LeaningBack,
      "Similar to the pull but played to a higher bouncing ball, hooking it around to the leg side."),
    ShotRule(SweepShot,
      [AngleConstraint(Angle(RightKneeJoint), 60.0, 120.0), AngleConstraint(Angle(LeftKneeJoint), 60.0, 100.0)],
      Kneeling,
      "A shot played on one knee, sweeping the ball to the leg side, usually against spin bowling."),
    ShotRule(DefensiveShot,
      [AngleConstraint(Angle(RightElbowJoint), 150.0, 180.0), AngleConstraint(Angle(LeftElbowJoint), 130.0, 170.0)],
      Upright,
      "A defensive stroke played with a straight bat to block the ball."),
    ShotRule(FlickShot,
      [AngleConstraint(Angle(RightKneeJoint), 100.0, 150.0), AngleConstraint(Angle(LeftKneeJoint), 100.0, 160.0)],
      Upright,
      "A wristy shot played off the pads, flicking the ball to the leg side."),
    ShotRule(SquareDrive,
      [AngleConstraint(Angle(RightElbowJoint), 110.0, 150.0), AngleConstraint(Angle(LeftElbowJoint), 100.0, 140.0)],
      Upright,
      "A drive played square of the wicket on the off side."),
    ShotRule(OnDrive,
      [AngleConstraint(Angle(RightElbowJoint), 130.0, 170.0), AngleConstraint(Angle(LeftElbowJoint), 100.0, 150.0)],
      LeaningLeft,
      "A drive played through the on side, between mid-on and mid-wicket.")
  ]

  /** The rules come in the order of `CRICKET_SHOTS`, and every rule constrains two angles with a range inside [0, 180]. */
  lemma CatalogWellFormed()
    ensures |ShotRules| == |CricketShots|
    ensures forall i :: 0 <= i < |ShotRules| ==> ShotRules[i].shot == CricketShots[i]
    ensures forall i :: 0 <= i < |ShotRules| ==> |ShotRules[i].angles| == 2
    ensures forall i, k :: 0 <= i < |ShotRules| && 0 <= k < |ShotRules[i].angles| ==>
      var c := ShotRules[i].angles[k];
      c.feature.Angle? && 0.0 <= c.lo <= c.hi <= 180.0
  {
  }

  /** Every posture is the expected posture of some rule. */
  lemma EveryPostureHasARule(p: Posture)
    ensures exists i :: 0 <= i < |ShotRules| && ShotRules[i].posture == p
  {
    match p
    case Upright => assert ShotRules[0].posture == p;
    case LeaningRight => assert ShotRules[1].posture == p;
    case LeaningBack => assert ShotRules[3].posture == p;
    case Kneeling => assert ShotRules[5].posture == p;
    case LeaningLeft => assert ShotRules[9].posture == p;
  }

  /** The constraint's feature is present and its value lies in the range. */
  predicate Satisfied(features: FeatureMap, c: AngleConstraint)
  {
    c.feature in features && c.lo <= features[c.feature] <= c.hi
  }

  /** The number of constraints, among `cs`, that the features satisfy. */
  function AngleScore(features: FeatureMap, cs: seq<AngleConstraint>): (n: nat)
    ensures n <= |cs|
    ensures n == 0 <==> forall k :: 0 <= k < |cs| ==> !Satisfied(features, cs[k])
    ensures n == |cs| <==> forall k :: 0 <= k < |cs| ==> Satisfied(features, cs[k])
  {
    if |cs| == 0 then 0
    else
      var init := cs[..|cs| - 1];
      assert forall k :: 0 <= k < |init| ==> init[k] == cs[k];
      AngleScore(features, init) + (if Satisfied(features, cs[|cs| - 1]) then 1 else 0)
  }

  /** The shots that earn the swing bonus for a direction. */
  predicate InSwingGroup(shot: Shot, d: Direction)
  {
    match d
    case Forward => shot in {StraightDrive, CoverDrive, OnDrive}
    case Sideways => shot in {CutShot, SquareDrive}
    case Backward => shot in {PullShot, HookShot}
    case NoDirection => false
  }

  function SwingBonus(shot: Shot, motion: Option<MotionResult>): (b: nat)
    ensures b == 0 || b == 2
    ensures b == 2 <==> motion.Some? && motion.value.isSwing && InSwingGroup(shot, motion.value.direction)
  {
    if motion.Some? && motion.value.isSwing then
      if shot in {StraightDrive, CoverDrive, OnDrive} && motion.value.direction == Forward then 2
      else if shot in {CutShot, SquareDrive} && motion.value.direction == Sideways then 2
      else if shot in {PullShot, HookShot} && motion.value.direction == Backward then 2
      else 0
    else 0
  }

  /** A shot's score: one per satisfied range, two for the posture, two for a matching swing. */
  function Score(rule: ShotRule, features: FeatureMap, posture: Posture, motion: Option<MotionResult>): (n: nat)
    ensures n <= |rule.angles| + 4
    ensures rule.posture == posture ==> n >= 2
    ensures motion.None? ==> n <= |rule.angles| + 2
    ensures n == |rule.angles| + 4 <==>
      (forall k :: 0 <= k < |rule.angles| ==> Satisfied(features, rule.angles[k])) && rule.posture == posture &&
      motion.Some? && motion.value.isSwing && InSwingGroup(rule.shot, motion.value.direction)
  {
    AngleScore(features, rule.angles) + (if rule.posture == posture then 2 else 0) + SwingBonus(rule.shot, motion)
  }

  /** The scores of the catalog, in order (the values of `shot_scores`). */
  function Scores(features: FeatureMap, posture: Posture, motion: Option<MotionResult>): (s: seq<nat>)
    ensures |s| == |ShotRules|
    ensures forall i :: 0 <= i < |s| ==> s[i] == Score(ShotRules[i], features, posture, motion)
    ensures forall i :: 0 <= i < |s| && ShotRules[i].posture == posture ==> s[i] >= 2
    ensures forall i :: 0 <= i < |s| ==> s[i] <= |ShotRules[i].angles| + 4
  {
    seq(|ShotRules|, i requires 0 <= i < |ShotRules| => Score(ShotRules[i], features, posture, motion))
  }

  /** Motion is computed only when there is a history. */
  function MotionFor(pose: Pose, previous: seq<Pose>): Option<MotionResult>
  {
    if |previous| > 0 then Some(MotionOf(pose, previous, DefaultWindowSize)) else None
  }

  /** The scores `classify_shot` computes for a pose and its history. */
  function ShotScores(pose: Pose, previous: seq<Pose>): seq<nat>
  {
    var features := PoseFeaturesOf(pose);
    Scores(features, DeterminePosture(features), MotionFor(pose, previous))
  }

  /** No score exceeds six: two ranges, the posture and the swing. */
  lemma ScoreBounded(features: FeatureMap, posture: Posture, motion: Option<MotionResult>)
    ensures forall i :: 0 <= i < |ShotRules| ==> Scores(features, posture, motion)[i] <= 6
  {
    CatalogWellFormed();
  }

  /** Without a history no shot gets a swing bonus. */
  lemma NoHistoryNoSwingBonus(pose: Pose)
    ensures forall i :: 0 <= i < |ShotRules| ==> SwingBonus(ShotRules[i].shot, MotionFor(pose, [])) == 0
  {
  }

  /** The shot whose posture matches scores at least two, so some score always reaches the threshold. */
  lemma SomeScoreReachesThreshold(features: FeatureMap, posture: Posture, motion: Option<MotionResult>)
    ensures exists i :: 0 <= i < |ShotRules| && Scores(features, posture, motion)[i] >= 2
  {
    EveryPostureHasARule(posture);
    var i :| 0 <= i < |ShotRules| && ShotRules[i].posture == posture;
    assert Scores(features, posture, motion)[i] >= 2;
  }

  /** The inner loop of the scoring loop: count the ranges of one rule that the features satisfy. */
  method CountSatisfied(features: FeatureMap, cs: seq<AngleConstraint>) returns (score: nat)
    ensures score == AngleScore(features, cs)
  {
    score := 0;
    for j := 0 to |cs|
      invariant score == AngleScore(features, cs[..j])
    {
      assert cs[..j + 1][..j] == cs[..j];
      var c := cs[j];
      if c.feature in features && c.lo <= features[c.feature] <= c.hi {
        score := score + 1;
      }
    }
    assert cs[..|cs|] == cs;
  }

  /** The body of the scoring loop: the score of one rule. */
  method ScoreRule(rule: ShotRule, features: FeatureMap, posture: Posture, motion: Option<MotionResult>) returns (score: nat)
    ensures score == Score(rule, features, posture, motion)
  {
    score := CountSatisfied(features, rule.angles);
    if rule.posture == posture {
      score := score + 2;
    }
    if motion.Some? && motion.value.isSwing {
      if rule.shot in {StraightDrive, CoverDrive, OnDrive} && motion.value.direction == Forward {
        score := score + 2;
      } else if rule.shot in {CutShot, SquareDrive} && motion.value.direction == Sideways {
        score := score + 2;
      } else if rule.shot in {PullShot, HookShot} && motion.value.direction == Backward {
        score := score + 2;
      }
    }
  }

  /** The scoring loop over the catalog (`shot_scores`). */
  method ComputeScores(features: FeatureMap, posture: Posture, motion: Option<MotionResult>) returns (scores: seq<nat>)
    ensures scores == Scores(features, posture, motion)
  {
    scores := [];
    for i := 0 to |ShotRules|
      invariant |scores| == i
      invariant forall k :: 0 <= k < i ==> scores[k] == Score(ShotRules[k], features, posture, motion)
    {
      var score := ScoreRule(ShotRules[i], features, posture, motion);
      scores := scores + [score];
    }
  }

  /** `max(shot_scores.values())`. */
  method MaxScore(scores: seq<nat>) returns (m: nat)
    requires |scores| > 0
    ensures forall k :: 0 <= k < |scores| ==> scores[k] <= m
    ensures exists k :: 0 <= k < |scores| && scores[k] == m
  {
    m := scores[0];
    for i := 1 to |scores|
      invariant forall k :: 0 <= k < i ==> scores[k] <= m
      invariant exists k :: 0 <= k < i && scores[k] == m
    {
      if scores[i] > m {
        m := scores[i];
      }
    }
  }

  /**
   * `best_shots`: the shots scoring `m`, in catalog order. Its first element
   * is the shot of the first index scoring `m`.
   */
  method BestShots(scores: seq<nat>, m: nat) returns (best: seq<Shot>)
    requires |scores| == |ShotRules|
    ensures forall s :: s in best <==> exists i :: 0 <= i < |scores| && scores[i] == m && ShotRules[i].shot == s
    ensures |best| == 0 <==> forall i :: 0 <= i < |scores| ==> scores[i] != m
    ensures |best| > 0 ==> exists j :: (0 <= j < |scores| && scores[j] == m && best[0] == ShotRules[j].shot &&
      forall i :: 0 <= i < j ==> scores[i] != m)
  {
    best := [];
    ghost var indices: seq<nat> := [];
    for i := 0 to |scores|
      invariant |best| == |indices|
      invariant forall k :: 0 <= k < |indices| ==> indices[k] < i && scores[indices[k]] == m && best[k] == ShotRules[indices[k]].shot
      invariant forall k :: 0 <= k < i && scores[k] == m ==> ShotRules[k].shot in best
      invariant |indices| > 0 ==> forall k :: 0 <= k < indices[0] ==> scores[k] != m
      invariant |indices| == 0 ==> forall k :: 0 <= k < i ==> scores[k] != m
    {
      if scores[i] == m {
        best := best + [ShotRules[i].shot];
        indices := indices + [i];
      }
    }
    forall s | s in best
      ensures exists i :: 0 <= i < |scores| && scores[i] == m && ShotRules[i].shot == s
    {
      var k :| 0 <= k < |best| && best[k] == s;
      assert scores[indices[k]] == m && ShotRules[indices[k]].shot == s;
    }
    if |best| > 0 {
      assert scores[indices[0]] == m && best[0] == ShotRules[indices[0]].shot;
    }
  }

  /**
   * The end of `classify_shot`: the first shot of the highest score, provided
   * that it is at least 2.
   */
  method PickShot(scores: seq<nat>) returns (r: Option<Shot>)
    requires |scores| == |ShotRules|
    ensures r.None? <==> forall i :: 0 <= i < |scores| ==> scores[i] < 2
    ensures r.Some? ==> exists j :: (0 <= j < |scores| && ShotRules[j].shot == r.value && scores[j] >= 2 &&
      (forall i :: 0 <= i < |scores| ==> scores[i] <= scores[j]) &&
      (forall i :: 0 <= i < j ==> scores[i] < scores[j]))
  {
    var maxScore := MaxScore(scores);
    var best := BestShots(scores, maxScore);
    if maxScore >= 2 {
      r := Some(best[0]);
    } else {
      r := None;
    }
  }

  /**
   * `classify_shot(pose, previous_poses)`: extract the features, determine
   * the posture, compute the motion when there is a history, score every
   * rule, and return the first shot of the highest score, provided that it
   * is at least 2.
   */
  method ClassifyShot(pose: Pose, previous: seq<Pose>) returns (r: Option<Shot>)
    ensures var scores := ShotScores(pose, previous);
      && (r.None? <==> forall i :: 0 <= i < |scores| ==> scores[i] < 2)
      && (r.Some? ==> exists j :: (0 <= j < |scores| && ShotRules[j].shot == r.value && scores[j] >= 2 &&
            (forall i :: 0 <= i < |scores| ==> scores[i] <= scores[j]) &&
            (forall i :: 0 <= i < j ==> scores[i] < scores[j])))
    ensures r.Some? ==> r.value in CricketShots
  {
    var features := GetPoseFeatures(pose);
    var posture := DeterminePosture(features);
    var motion: Option<MotionResult> := None;
    if |previous| > 0 {
      var m := CalculateMotion(pose, previous, DefaultWindowSize);
      motion := Some(m);
    }
    assert motion == MotionFor(pose, previous);
    var scores := ComputeScores(features, posture, motion);
    assert scores == ShotScores(pose, previous);
    r := PickShot(scores);
    CatalogWellFormed();
  }

  /** Every pose gets a shot: the score of the rule expecting its posture reaches the threshold. */
  lemma ClassificationNeverEmpty(pose: Pose, previous: seq<Pose>)
    ensures exists i :: 0 <= i < |ShotScores(pose, previous)| && ShotScores(pose, previous)[i] >= 2
  {
    var features := PoseFeaturesOf(pose);
    var posture := DeterminePosture(features);
    EveryPostureHasARule(posture);
    var i :| 0 <= i < |ShotRules| && ShotRules[i].posture == posture;
    assert ShotScores(pose, previous)[i] >= 2;
  }

  // The angle loop as written. It walks every entry of a rule's dictionary,
  // including `posture` and `description`, and unpacks each value into a
  // pair before `angle_name in features` is looked at.

  datatype EntryKey = AngleKey(feature: Feature) | PostureKey | DescriptionKey

  /** A dictionary value: a `(min, max)` tuple or a string. */
  datatype EntryValue = Bounds(lo: real, hi: real) | Text(s: string)

  /** The outcome of the loop: a score, or Python's `ValueError` from unpacking. */
  datatype LoopOutcome = Scored(score: nat) | RaisesValueError

  /** The entries of a rule's dictionary, in order. */
  function RuleEntries(rule: ShotRule): seq<(EntryKey, EntryValue)>
  {
    AngleEntries(rule.angles) + [(PostureKey, Text(PostureName(rule.posture))), (DescriptionKey, Text(rule.description))]
  }

  function AngleEntries(cs: seq<AngleConstraint>): (es: seq<(EntryKey, EntryValue)>)
    ensures |es| == |cs|
    ensures forall k :: 0 <= k < |es| ==> es[k].0.AngleKey? && es[k].1.Bounds?
    ensures forall c :: c in cs <==> (AngleKey(c.feature), Bounds(c.lo, c.hi)) in es
  {
    var es := seq(|cs|, k requires 0 <= k < |cs| => (AngleKey(cs[k].feature), Bounds(cs[k].lo, cs[k].hi)));
    assert forall x :: x in es ==> exists k :: 0 <= k < |cs| && x == es[k] && es[k].0.feature == cs[k].feature && es[k].1 == Bounds(cs[k].lo, cs[k].hi);
    es
  }

  /**
   * `for angle_name, (min_angle, max_angle) in shot_rules.items()`: a tuple
   * unpacks; a string unpacks only when it has exactly two characters (and a
   * key that is not a feature name then adds nothing); any other string raises.
   */
  function AngleLoopAsWritten(features: FeatureMap, entries: seq<(EntryKey, EntryValue)>): LoopOutcome
  {
    if |entries| == 0 then Scored(0)
    else
      var (key, value) := entries[0];
      match value
      case Text(s) =>
        if |s| != 2 then RaisesValueError else AngleLoopAsWritten(features, entries[1..])
      case Bounds(lo, hi) =>
        match AngleLoopAsWritten(features, entries[1..])
        case RaisesValueError => RaisesValueError
        case Scored(n) =>
          var hit := key.AngleKey? && key.feature in features && lo <= features[key.feature] <= hi;
          Scored(n + (if hit then 1 else 0))
  }

  /** On angle ranges alone the loop as written computes the corrected angle score. */
  lemma {:induction false} AngleLoopOnAnglesOnly(features: FeatureMap, cs: seq<AngleConstraint>)
    ensures AngleLoopAsWritten(features, AngleEntries(cs)) == Scored(AngleScore(features, cs))
  {
    if |cs| > 0 {
      var rest := cs[1..];
      AngleLoopOnAnglesOnly(features, rest);
      assert AngleEntries(cs)[1..] == AngleEntries(rest);
      AngleScoreFirst(features, cs);
    }
  }

  /** The angle score counts the first constraint and then the rest. */
  lemma {:induction false} AngleScoreFirst(features: FeatureMap, cs: seq<AngleConstraint>)
    requires |cs| > 0
    ensures AngleScore(features, cs) == (if Satisfied(features, cs[0]) then 1 else 0) + AngleScore(features, cs[1..])
  {
    if |cs| > 1 {
      var init := cs[..|cs| - 1];
      AngleScoreFirst(features, init);
      assert init[1..] == cs[1..][..|cs[1..]| - 1];
      assert init[0] == cs[0];
    } else {
      assert cs[..0] == [] && cs[1..] == [];
    }
  }

  /** The angle entries of a rule unpack; the string that follows decides the outcome. */
  lemma {:induction false} AngleLoopReachesText(features: FeatureMap, cs: seq<AngleConstraint>, key: EntryKey, s: string, tail: seq<(EntryKey, EntryValue)>)
    requires |s| != 2
    ensures AngleLoopAsWritten(features, AngleEntries(cs) + [(key, Text(s))] + tail) == RaisesValueError
  {
    if |cs| > 0 {
      AngleLoopReachesText(features, cs[1..], key, s, tail);
      assert (AngleEntries(cs) + [(key, Text(s))] + tail)[1..] == AngleEntries(cs[1..]) + [(key, Text(s))] + tail;
    } else {
      assert AngleEntries(cs) + [(key, Text(s))] + tail == [(key, Text(s))] + tail;
    }
  }

  /** No posture name has two characters. */
  lemma PostureNamesNotPairs(p: Posture)
    ensures |PostureName(p)| != 2
  {
  }

  /** As written, the angle loop of every rule of the catalog raises, whatever the features. */
  lemma EveryRuleRaisesAsWritten(features: FeatureMap, i: nat)
    requires i < |ShotRules|
    ensures AngleLoopAsWritten(features, RuleEntries(ShotRules[i])) == RaisesValueError
  {
    var rule := ShotRules[i];
    PostureNamesNotPairs(rule.posture);
    assert RuleEntries(rule) == AngleEntries(rule.angles) + [(PostureKey, Text(PostureName(rule.posture)))]
      + [(DescriptionKey, Text(rule.description))];
    AngleLoopReachesText(features, rule.angles, PostureKey, PostureName(rule.posture),
      [(DescriptionKey, Text(rule.description))]);
  }

  /**
   * `classify_shot` as written: the scoring loop over the catalog stops at
   * the first rule whose angle loop raises, so the call raises the error.
   */
  function ClassifyShotAsWritten(features: FeatureMap): LoopOutcome
  {
    AngleLoopAsWritten(features, RuleEntries(ShotRules[0]))
  }

  lemma ClassifyShotAsWrittenAlwaysRaises(features: FeatureMap)
    ensures ClassifyShotAsWritten(features) == RaisesValueError
  {
    EveryRuleRaisesAsWritten(features, 0);
  }
}
