/** The engine object: the four fields that count_reps and reset update in
    place.  Each method is proved to leave the fields where the matching
    function of module Rules says. */
module Logic {
  import opened Wrappers
  import opened PoseUtils
  import opened Rules

  class ExerciseLogic {
    var exerciseState: Phase
    var repCount: nat
    var poseStartTime: Option<real>
    var lastPoseEndTime: Option<real>

    /** The fields as a session value. */
    function Snapshot(): Session
      reads this
    {
      Session(exerciseState, repCount, poseStartTime, lastPoseEndTime)
    }

    ghost predicate Valid()
      reads this
    {
      Snapshot().Reachable()
    }

    /** Construction: phase "start", no reps, no timestamps. */
    constructor ()
      ensures Valid()
      ensures Snapshot() == Initial
    {
      exerciseState := Start;
      repCount := 0;
      poseStartTime := None;
      lastPoseEndTime := None;
    }

    /** check_form on the current phase: of the four fields it reads only
        the phase, and it never passes tree pose. */
    function CheckForm(exercise: string, angles: Angles): (ok: bool)
      reads this
      ensures ok == Rules.CheckForm(Initial.(phase := exerciseState), exercise, angles)
      ensures exercise == TreePose ==> !ok
    {
      Rules.CheckForm(Snapshot(), exercise, angles)
    }

    /** count_reps with the clock reading `now` passed in. */
    method CountReps(exercise: string, angles: Angles, now: real) returns (completed: bool)
      requires Valid()
      modifies this
      ensures Valid()
      ensures Outcome(Snapshot(), completed) == Rules.CountReps(old(Snapshot()), exercise, angles, now)
    {
      if exercise == TreePose {
        var rightKnee, leftKnee := Get(angles, RightKnee), Get(angles, LeftKnee);
        var rightHip, leftHip := Get(angles, RightHip), Get(angles, LeftHip);
        if rightKnee.Some? && leftKnee.Some? && rightHip.Some? && leftHip.Some? {
          var kneeDiff := Abs(rightKnee.value - leftKnee.value);
          var hipDiff := Abs(rightHip.value - leftHip.value);
          if kneeDiff > TreeKneeBend && hipDiff < TreeHipVariance {
            if exerciseState == Start {
              poseStartTime := Some(now);
              exerciseState := Holding;
            } else if exerciseState == Holding {
              if now - poseStartTime.value >= TreeBalanceDuration {
                if lastPoseEndTime.None? || now - lastPoseEndTime.value > TreeRepGap {
                  repCount := repCount + 1;
                  lastPoseEndTime := Some(now);
                  return true;
                }
              }
            }
          } else {
            exerciseState := Start;
            poseStartTime := None;
          }
        }
      } else if exercise == Squat {
        var rightKnee, leftKnee := Get(angles, RightKnee), Get(angles, LeftKnee);
        if rightKnee.Some? && leftKnee.Some? {
          var kneeAngle := (rightKnee.value + leftKnee.value) / 2.0;
          if exerciseState == Up && kneeAngle < SquatDown {
            if poseStartTime.None? {
              poseStartTime := Some(now);
            } else if now - poseStartTime.value >= SquatDwell {
              exerciseState := Down;
              poseStartTime := None;
            }
          } else if exerciseState == Down && kneeAngle > SquatUp {
            if poseStartTime.None? {
              poseStartTime := Some(now);
            } else if now - poseStartTime.value >= SquatDwell {
              if lastPoseEndTime.None? || now - lastPoseEndTime.value > SquatRepGap {
                exerciseState := Up;
                repCount := repCount + 1;
                lastPoseEndTime := Some(now);
                poseStartTime := None;
                return true;
              }
            }
          }
          if Truthy(poseStartTime) && now - poseStartTime.value > SquatTimeout {
            poseStartTime := None;
            exerciseState := Up;
          }
        }
      } else if exercise == Pushup {
        var rightElbow, leftElbow := Get(angles, RightElbow), Get(angles, LeftElbow);
        if rightElbow.Some? && leftElbow.Some? {
          var elbowAngle := (rightElbow.value + leftElbow.value) / 2.0;
          if exerciseState == Up && elbowAngle < PushupDown {
            exerciseState := Down;
          } else if exerciseState == Down && elbowAngle > PushupUp {
            exerciseState := Up;
            repCount := repCount + 1;
            return true;
          }
        }
      } else if exercise == JumpingJack {
        var rightShoulder, leftShoulder := Get(angles, RightShoulder), Get(angles, LeftShoulder);
        if rightShoulder.Some? && leftShoulder.Some? {
          var shoulderAngle := (rightShoulder.value + leftShoulder.value) / 2.0;
          if exerciseState == Up && shoulderAngle > JumpingJackUp {
            exerciseState := Down;
          } else if exerciseState == Down && shoulderAngle < JumpingJackDown {
            exerciseState := Up;
            repCount := repCount + 1;
            return true;
          }
        }
      }
      return false;
    }

    /** reset: back to the constructed state. */
    method Reset()
      modifies this
      ensures Valid()
      ensures Snapshot() == Rules.Reset(old(Snapshot()))
    {
      repCount := 0;
      exerciseState := Start;
      poseStartTime := None;
      lastPoseEndTime := None;
    }
  }
}
