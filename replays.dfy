/** Properties of count_reps over a sequence of calls, and the scenarios a
    user of the engine relies on. */
module Replays {
  import opened Wrappers
  import opened PoseUtils
  import opened Rules

  /** One count_reps call: the angles and the clock reading. */
  datatype Reading = Reading(angles: Angles, now: real)

  /** The session after a run of calls and how many of them returned true. */
  datatype Tally = Tally(final: Session, reps: nat)

  /** count_reps called once per reading, in order. */
  function Replay(s: Session, exercise: string, readings: seq<Reading>): (t: Tally)
    requires s.HoldTimed()
    ensures t.final.HoldTimed()
    ensures s.Reachable() ==> t.final.Reachable()
    ensures t.final.repCount == s.repCount + t.reps
    ensures t.reps <= |readings|
    decreases |readings|
  {
    if readings == [] then Tally(s, 0)
    else
      var o := CountReps(s, exercise, readings[0].angles, readings[0].now);
      var rest := Replay(o.next, exercise, readings[1..]);
      Tally(rest.final, rest.reps + if o.completed then 1 else 0)
  }

  /** For squat, pushup and jumping jack, no sequence of calls ever leaves
      the phase "start": the state is unchanged and no rep is counted. */
  lemma {:induction false} StartIsAbsorbing(s: Session, exercise: string, readings: seq<Reading>)
    requires s.Reachable() && s.phase == Start && exercise != TreePose
    ensures Replay(s, exercise, readings) == Tally(s, 0)
    decreases |readings|
  {
    if readings != [] {
      StartIsAbsorbing(s, exercise, readings[1..]);
    }
  }

  /** Calls that each lack a required angle change nothing. */
  lemma {:induction false} MissingAnglesChangeNothing(s: Session, exercise: string, readings: seq<Reading>)
    requires s.HoldTimed()
    requires forall i :: 0 <= i < |readings| ==> !Present(readings[i].angles, RequiredJoints(exercise))
    ensures Replay(s, exercise, readings) == Tally(s, 0)
    decreases |readings|
  {
    if readings != [] {
      MissingAnglesChangeNothing(s, exercise, readings[1..]);
    }
  }

  /** No tree-pose rep within 1 s of the previous completion, however long
      the pose is held. */
  lemma {:induction false} TreePoseRepGap(s: Session, readings: seq<Reading>)
    requires s.HoldTimed() && s.lastPoseEndTime.Some?
    requires forall i :: 0 <= i < |readings| ==> readings[i].now <= s.lastPoseEndTime.value + TreeRepGap
    ensures Replay(s, TreePose, readings).reps == 0
    decreases |readings|
  {
    if readings != [] {
      var o := CountReps(s, TreePose, readings[0].angles, readings[0].now);
      assert !o.completed && o.next.lastPoseEndTime == s.lastPoseEndTime;
      TreePoseRepGap(o.next, readings[1..]);
    }
  }

  /** No squat rep within 0.8 s of the previous completion. */
  lemma {:induction false} SquatRepGap(s: Session, readings: seq<Reading>)
    requires s.HoldTimed() && s.lastPoseEndTime.Some?
    requires forall i :: 0 <= i < |readings| ==> readings[i].now <= s.lastPoseEndTime.value + Rules.SquatRepGap
    ensures Replay(s, Squat, readings).reps == 0
    decreases |readings|
  {
    if readings != [] {
      var o := CountReps(s, Squat, readings[0].angles, readings[0].now);
      assert !o.completed && o.next.lastPoseEndTime == s.lastPoseEndTime;
      SquatRepGap(o.next, readings[1..]);
    }
  }

  // ---------------------------------------------------------------------
  // Scenarios
  // ---------------------------------------------------------------------

  /** Both knees at the same angle. */
  function Knees(a: real): Angles {
    map[LeftKnee := Some(a), RightKnee := Some(a)]
  }

  /** One knee bent (80 degrees apart), hips level: the tree pose is held. */
  const TreeHeld: Angles :=
    map[LeftKnee := Some(170.0), RightKnee := Some(90.0), LeftHip := Some(170.0), RightHip := Some(170.0)]

  /** Both legs straight: the tree pose is released. */
  const TreeReleased: Angles :=
    map[LeftKnee := Some(170.0), RightKnee := Some(170.0), LeftHip := Some(170.0), RightHip := Some(170.0)]

  /** A standing-squatting-standing knee sequence 140,140,90,90,90,140,140
      sampled every 0.3 s from phase "up" counts exactly one rep, on the
      last reading. */
  lemma SquatCycleCountsOnce()
    ensures Replay(Session(Up, 0, None, None), Squat,
      [Reading(Knees(140.0), 1.0), Reading(Knees(140.0), 1.3), Reading(Knees(90.0), 1.6),
       Reading(Knees(90.0), 1.9), Reading(Knees(90.0), 2.2), Reading(Knees(140.0), 2.5),
       Reading(Knees(140.0), 2.8)])
      == Tally(Session(Up, 1, None, Some(2.8)), 1)
  {
  }

  /** A second squat cycle finished 0.5 s after the first rep is not counted. */
  lemma QuickSecondSquatSuppressed()
    ensures Replay(Session(Up, 1, None, Some(2.8)), Squat,
      [Reading(Knees(90.0), 2.85), Reading(Knees(90.0), 3.05),
       Reading(Knees(140.0), 3.1), Reading(Knees(140.0), 3.3)]).reps == 0
  {
  }

  /** Holding the tree pose for exactly 1.5 s counts one rep. */
  lemma TreeHoldOfOneAndAHalfSeconds()
    ensures Replay(Initial, TreePose, [Reading(TreeHeld, 10.0), Reading(TreeHeld, 11.5)])
      == Tally(Session(Holding, 1, Some(10.0), Some(11.5)), 1)
  {
    assert Spread(TreeHeld, LeftKnee, RightKnee) == Some(80.0);
    assert Spread(TreeHeld, LeftHip, RightHip) == Some(0.0);
    var held := Session(Holding, 0, Some(10.0), None);
    var done := Session(Holding, 1, Some(10.0), Some(11.5));
    assert CountReps(Initial, TreePose, TreeHeld, 10.0) == Outcome(held, false);
    assert CountReps(held, TreePose, TreeHeld, 11.5) == Outcome(done, true);
    assert Replay(held, TreePose, [Reading(TreeHeld, 11.5)]) == Tally(done, 1);
  }

  /** Releasing the tree pose after 1.4 s counts nothing and returns to "start". */
  lemma TreeReleasedEarly()
    ensures Replay(Initial, TreePose,
      [Reading(TreeHeld, 10.0), Reading(TreeHeld, 11.4), Reading(TreeReleased, 11.45)])
      == Tally(Initial, 0)
  {
    assert Spread(TreeHeld, LeftKnee, RightKnee) == Some(80.0);
    assert Spread(TreeHeld, LeftHip, RightHip) == Some(0.0);
    assert Spread(TreeReleased, LeftKnee, RightKnee) == Some(0.0);
    var held := Session(Holding, 0, Some(10.0), None);
    assert CountReps(Initial, TreePose, TreeHeld, 10.0) == Outcome(held, false);
    assert CountReps(held, TreePose, TreeHeld, 11.4) == Outcome(held, false);
    assert CountReps(held, TreePose, TreeReleased, 11.45) == Outcome(Initial, false);
    assert Replay(held, TreePose, [Reading(TreeReleased, 11.45)]) == Tally(Initial, 0);
    assert Replay(held, TreePose, [Reading(TreeHeld, 11.4), Reading(TreeReleased, 11.45)]) == Tally(Initial, 0);
  }

  /** A hold that goes on keeps counting, one rep per second and a bit:
      a rep does not end the hold. */
  lemma TreeHoldKeepsCounting()
    ensures Replay(Initial, TreePose,
      [Reading(TreeHeld, 10.0), Reading(TreeHeld, 11.5), Reading(TreeHeld, 12.6)]).reps == 2
  {
    assert Spread(TreeHeld, LeftKnee, RightKnee) == Some(80.0);
    assert Spread(TreeHeld, LeftHip, RightHip) == Some(0.0);
    var held := Session(Holding, 0, Some(10.0), None);
    var once := Session(Holding, 1, Some(10.0), Some(11.5));
    var twice := Session(Holding, 2, Some(10.0), Some(12.6));
    assert CountReps(Initial, TreePose, TreeHeld, 10.0) == Outcome(held, false);
    assert CountReps(held, TreePose, TreeHeld, 11.5) == Outcome(once, true);
    assert CountReps(once, TreePose, TreeHeld, 12.6) == Outcome(twice, true);
    assert Replay(once, TreePose, [Reading(TreeHeld, 12.6)]) == Tally(twice, 1);
    assert Replay(held, TreePose, [Reading(TreeHeld, 11.5), Reading(TreeHeld, 12.6)]) == Tally(twice, 2);
  }
}
