/**
 * Wrist motion over the recent pose history (`calculate_motion`): the
 * displacement of the right wrist since the first pose of the window that
 * shows it, a coarse direction, and whether the wrist's velocity reversed.
 */
module Motion {
  import opened Geometry
  import opened PoseFeatures

  datatype Direction = NoDirection | Forward | Backward | Sideways

  /** The result dictionary: `direction`, `displacement` and `is_swing`. */
  datatype MotionResult = MotionResult(direction: Direction, displacement: (real, real), isSwing: bool)

  /** The default `window_size`. */
  const DefaultWindowSize: int := 5

  /** Movement below this many pixels along both axes is no movement. */
  const MovementThreshold: real := 30.0

  /** The result when there is nothing to compare. */
  const Still: MotionResult := MotionResult(NoDirection, (0.0, 0.0), false)

  function Abs(r: real): (a: real)
    ensures a >= 0.0 && (a == r || a == -r)
  {
    if r < 0.0 then -r else r
  }

  /** The start index Python uses for the slice `s[start:]` of a sequence of length `len`. */
  function SliceStart(start: int, len: nat): (r: nat)
    ensures r <= len
    ensures 0 <= start <= len ==> r == start
    ensures -(len as int) <= start < 0 ==> r as int == len as int + start
  {
    if start < 0 then (if start + len < 0 then 0 else start + len)
    else if start > len then len
    else start
  }

  /** `previous_poses[-window_size:] if len(previous_poses) > window_size else previous_poses`. */
  function Window(previous: seq<Pose>, windowSize: int): seq<Pose>
  {
    if |previous| > windowSize then previous[SliceStart(-windowSize, |previous|)..] else previous
  }

  /** For a positive size the window is the last `windowSize` poses, or all of them when there are fewer. */
  lemma WindowIsLastPoses(previous: seq<Pose>, windowSize: int)
    requires windowSize > 0
    ensures |previous| <= windowSize ==> Window(previous, windowSize) == previous
    ensures |previous| > windowSize ==>
      Window(previous, windowSize) == previous[|previous| - windowSize..] &&
      |Window(previous, windowSize)| == windowSize
  {
  }

  function WristOf(pose: Pose): Point
    requires RightWrist in pose.keypoints
  {
    Position(pose.keypoints[RightWrist])
  }

  /** `prev_wrists`: the right wrists of the poses that show one, in order. */
  function Wrists(poses: seq<Pose>): (ws: seq<Point>)
    ensures |ws| <= |poses|
  {
    if |poses| == 0 then []
    else
      var last := poses[|poses| - 1];
      Wrists(poses[..|poses| - 1]) + (if RightWrist in last.keypoints then [WristOf(last)] else [])
  }

  /** The wrist list is empty exactly when no pose shows a right wrist. */
  lemma {:induction false} WristsEmpty(poses: seq<Pose>)
    ensures |Wrists(poses)| == 0 <==> forall i :: 0 <= i < |poses| ==> RightWrist !in poses[i].keypoints
  {
    if |poses| > 0 {
      var init := poses[..|poses| - 1];
      WristsEmpty(init);
      assert forall i :: 0 <= i < |init| ==> init[i] == poses[i];
    }
  }

  /** The first wrist in the list is that of the first pose that shows one. */
  lemma {:induction false} WristsFirst(poses: seq<Pose>)
    requires |Wrists(poses)| > 0
    ensures exists i :: (0 <= i < |poses| && RightWrist in poses[i].keypoints &&
      (forall j :: 0 <= j < i ==> RightWrist !in poses[j].keypoints) &&
      Wrists(poses)[0] == WristOf(poses[i]))
  {
    var init := poses[..|poses| - 1];
    assert forall i :: 0 <= i < |init| ==> init[i] == poses[i];
    if |Wrists(init)| > 0 {
      WristsFirst(init);
      var i :| 0 <= i < |init| && RightWrist in init[i].keypoints &&
        (forall j :: 0 <= j < i ==> RightWrist !in init[j].keypoints) &&
        Wrists(init)[0] == WristOf(init[i]);
      assert RightWrist in poses[i].keypoints;
    } else {
      WristsEmpty(init);
      assert RightWrist in poses[|poses| - 1].keypoints;
    }
  }

  /** The coarse direction of a displacement. */
  function DirectionOf(dx: real, dy: real): (d: Direction)
    ensures d == NoDirection <==> Abs(dx) <= MovementThreshold && Abs(dy) <= MovementThreshold
    ensures d == Sideways <==> (Abs(dx) > MovementThreshold || Abs(dy) > MovementThreshold) && Abs(dx) > Abs(dy)
    ensures d == Forward <==> (Abs(dx) > MovementThreshold || Abs(dy) > MovementThreshold) && Abs(dx) <= Abs(dy) && dy > 0.0
    ensures d == Backward <==> (Abs(dx) > MovementThreshold || Abs(dy) > MovementThreshold) && Abs(dx) <= Abs(dy) && dy <= 0.0
    ensures d == Sideways ==> Abs(dx) > MovementThreshold
    ensures d == Forward ==> dy > MovementThreshold
    ensures d == Backward ==> dy < -MovementThreshold
  {
    if Abs(dx) > MovementThreshold || Abs(dy) > MovementThreshold then
      if Abs(dx) > Abs(dy) then Sideways
      else if dy > 0.0 then Forward
      else Backward
    else NoDirection
  }

  /** The direction ignores the sign of the horizontal displacement. */
  lemma DirectionIgnoresHorizontalSign(dx: real, dy: real)
    ensures DirectionOf(-dx, dy) == DirectionOf(dx, dy)
  {
  }

  lemma DirectionExamples()
    ensures DirectionOf(40.0, 5.0) == Sideways
    ensures DirectionOf(5.0, -40.0) == Backward
    ensures DirectionOf(5.0, 40.0) == Forward
    ensures DirectionOf(5.0, 5.0) == NoDirection
  {
  }

  function Sub(p: Point, q: Point): Point
  {
    Point(p.x - q.x, p.y - q.y)
  }

  /** `velocities`: the differences of successive wrist positions. */
  function Velocities(ws: seq<Point>): (vs: seq<Point>)
    ensures |ws| >= 1 ==> |vs| == |ws| - 1
    ensures |ws| <= 1 ==> vs == []
  {
    if |ws| <= 1 then []
    else seq(|ws| - 1, i requires 0 <= i < |ws| - 1 => Sub(ws[i + 1], ws[i]))
  }

  /** A sign change of either velocity component: strictly negative product. */
  predicate Reverses(v: Point, u: Point)
  {
    v.x * u.x < 0.0 || v.y * u.y < 0.0
  }

  /** A product is negative exactly when one factor is positive and the other negative: a zero component never counts. */
  lemma NegativeProduct(a: real, b: real)
    ensures a * b < 0.0 <==> (a < 0.0 && b > 0.0) || (a > 0.0 && b < 0.0)
  {
    if a < 0.0 && b > 0.0 {
      assert a * b < 0.0;
    } else if a > 0.0 && b < 0.0 {
      assert a * b < 0.0;
    } else if a >= 0.0 && b >= 0.0 {
      assert a * b >= 0.0;
    } else {
      assert a <= 0.0 && b <= 0.0;
      assert a * b == (-a) * (-b);
    }
  }

  /** Some pair of successive velocities changes sign. */
  predicate HasReversal(vs: seq<Point>)
  {
    exists i :: 1 <= i < |vs| && Reverses(vs[i], vs[i - 1])
  }

  /** `is_swing`: at least three prior wrists and a sign change between successive velocities. */
  predicate IsSwing(ws: seq<Point>)
  {
    |ws| >= 3 && HasReversal(Velocities(ws))
  }

  /** Velocities with no negative component never reverse. */
  lemma NonNegativeNoReversal(v: Point, u: Point)
    requires v.x >= 0.0 && u.x >= 0.0 && v.y >= 0.0 && u.y >= 0.0
    ensures !Reverses(v, u)
  {
    NegativeProduct(v.x, u.x);
    NegativeProduct(v.y, u.y);
  }

  /** A wrist moving monotonically (never back along either axis) is not swinging. */
  lemma MonotoneIsNoSwing(ws: seq<Point>)
    requires forall i, j :: 0 <= i <= j < |ws| ==> ws[i].x <= ws[j].x && ws[i].y <= ws[j].y
    ensures !IsSwing(ws)
  {
    var vs := Velocities(ws);
    forall i | 1 <= i < |vs| ensures !Reverses(vs[i], vs[i - 1]) {
      var v, u := vs[i], vs[i - 1];
      assert v == Sub(ws[i + 1], ws[i]) && u == Sub(ws[i], ws[i - 1]);
      NonNegativeNoReversal(v, u);
    }
  }

  /** `calculate_motion(current_pose, previous_poses, window_size)`, as a value. */
  function MotionOf(current: Pose, previous: seq<Pose>, windowSize: int): MotionResult
  {
    var window := Window(previous, windowSize);
    var ws := Wrists(window);
    if RightWrist in current.keypoints && |window| > 0 && |ws| > 0 then
      var d := (WristOf(current).x - ws[0].x, WristOf(current).y - ws[0].y);
      MotionResult(DirectionOf(d.0, d.1), d, IsSwing(ws))
    else Still
  }

  /** No motion without a current wrist, without history in the window, or without a wrist in it. */
  lemma {:induction false} MotionStill(current: Pose, previous: seq<Pose>, windowSize: int)
    requires var window := Window(previous, windowSize);
      RightWrist !in current.keypoints || |window| == 0 ||
      forall i :: 0 <= i < |window| ==> RightWrist !in window[i].keypoints
    ensures MotionOf(current, previous, windowSize) == Still
  {
    WristsEmpty(Window(previous, windowSize));
  }

  /** The displacement is measured from the first pose in the window that shows the wrist. */
  lemma MotionDisplacement(current: Pose, previous: seq<Pose>, windowSize: int)
    requires RightWrist in current.keypoints
    requires var window := Window(previous, windowSize);
      exists i :: 0 <= i < |window| && RightWrist in window[i].keypoints
    ensures var window, m := Window(previous, windowSize), MotionOf(current, previous, windowSize);
      exists i :: (0 <= i < |window| && RightWrist in window[i].keypoints &&
        (forall j :: 0 <= j < i ==> RightWrist !in window[j].keypoints) &&
        m.displacement == (WristOf(current).x - WristOf(window[i]).x, WristOf(current).y - WristOf(window[i]).y))
  {
    var window := Window(previous, windowSize);
    WristsEmpty(window);
    WristsFirst(window);
  }

  /** The loop that collects `prev_wrists`. */
  method CollectWrists(window: seq<Pose>) returns (prevWrists: seq<Point>)
    ensures prevWrists == Wrists(window)
  {
    prevWrists := [];
    for i := 0 to |window|
      invariant prevWrists == Wrists(window[..i])
    {
      assert window[..i + 1][..i] == window[..i];
      if RightWrist in window[i].keypoints {
        prevWrists := prevWrists + [WristOf(window[i])];
      }
    }
    assert window[..|window|] == window;
  }

  /** The loop that computes `velocities`. */
  method ComputeVelocities(prevWrists: seq<Point>) returns (velocities: seq<Point>)
    requires |prevWrists| >= 1
    ensures velocities == Velocities(prevWrists)
  {
    velocities := [];
    for i := 1 to |prevWrists|
      invariant |velocities| == i - 1
      invariant forall k :: 0 <= k < i - 1 ==> velocities[k] == Sub(prevWrists[k + 1], prevWrists[k])
    {
      velocities := velocities + [Sub(prevWrists[i], prevWrists[i - 1])];
    }
  }

  /** The loop that looks for a sign change, stopping at the first one. */
  method FindReversal(velocities: seq<Point>) returns (isSwing: bool)
    ensures isSwing <==> HasReversal(velocities)
  {
    isSwing := false;
    var i := 1;
    while i < |velocities|
      invariant 1 <= i
      invariant forall k :: 1 <= k < i && k < |velocities| ==> !Reverses(velocities[k], velocities[k - 1])
    {
      if velocities[i].x * velocities[i - 1].x < 0.0 || velocities[i].y * velocities[i - 1].y < 0.0 {
        assert Reverses(velocities[i], velocities[i - 1]);
        isSwing := true;
        return;
      }
      i := i + 1;
    }
  }

  /** `calculate_motion(current_pose, previous_poses, window_size)`. */
  method CalculateMotion(current: Pose, previous: seq<Pose>, windowSize: int) returns (m: MotionResult)
    ensures m == MotionOf(current, previous, windowSize)
  {
    var window := if |previous| > windowSize then previous[SliceStart(-windowSize, |previous|)..] else previous;
    if RightWrist in current.keypoints && |window| > 0 {
      var currentWrist := WristOf(current);
      var prevWrists := CollectWrists(window);
      if |prevWrists| > 0 {
        var start := prevWrists[0];
        var dx := currentWrist.x - start.x;
        var dy := currentWrist.y - start.y;
        var direction := NoDirection;
        if Abs(dx) > MovementThreshold || Abs(dy) > MovementThreshold {
          if Abs(dx) > Abs(dy) {
            direction := Sideways;
          } else {
            direction := if dy > 0.0 then Forward else Backward;
          }
        }
        var isSwing := false;
        if |prevWrists| >= 3 {
          var velocities := ComputeVelocities(prevWrists);
          if |velocities| >= 2 {
            isSwing := FindReversal(velocities);
          }
        }
        m := MotionResult(direction, (dx, dy), isSwing);
        return;
      }
    }
    m := Still;
  }
}
