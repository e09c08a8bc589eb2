/** The trainer's main loop around the engine: per frame, check_form gates
    count_reps, and a completed rep queues a spoken message and appends a
    log entry; the 'n' key cycles through the four exercises and resets the
    engine.  Camera, detector, drawing, speech and the JSON file are inputs
    or outputs of this model, not parts of it. */
module Trainer {
  import opened Wrappers
  import opened PoseUtils
  import opened Rules
  import opened Logic

  /** Key codes after `& 0xFF`. */
  const KeyQuit: int := 113     // 'q'
  const KeyEscape: int := 27
  const KeyNext: int := 110     // 'n'

  const RepCompletedStatus: string := "rep_completed"

  /** One record of the exercise log (the ISO timestamp is not modelled). */
  datatype LogEntry = LogEntry(exercise: string, repCount: nat, status: string, angles: Angles)

  /** What one loop iteration receives: whether a frame was read, the
      keypoint sets the detector returned, the key pressed, the clock. */
  datatype Frame = Frame(grabbed: bool, people: seq<seq<Keypoint>>, key: int, now: real)

  /** The trainer's state as a value: its own fields, the engine's
      session, the log entries and the messages queued for speech. */
  datatype TrainerState = TrainerState(
    exerciseIndex: nat,
    currentExercise: string,
    engine: Session,
    log: seq<LogEntry>,
    spoken: seq<string>)
  {
    predicate Valid() {
      exerciseIndex < |Catalog| && currentExercise == Catalog[exerciseIndex] && engine.Reachable()
    }

    /** Nothing has been counted, logged or said, and the engine is fresh. */
    predicate Quiet() {
      Valid() && engine == Initial && log == [] && spoken == []
    }
  }

  /** The state after construction: tree pose, a fresh engine, nothing logged. */
  const Started: TrainerState := TrainerState(0, TreePose, Initial, [], [])

  // ---------------------------------------------------------------------
  // The spoken message "Rep N completed!"
  // ---------------------------------------------------------------------

  function Digit(d: nat): char
    requires d < 10
  {
    "0123456789"[d]
  }

  /** The value of a string of decimal digits. */
  function DecimalValue(s: string): nat
    requires forall i :: 0 <= i < |s| ==> '0' <= s[i] <= '9'
  {
    if s == [] then 0
    else DecimalValue(s[..|s| - 1]) * 10 + (s[|s| - 1] as int - '0' as int)
  }

  /** Python's str() of a non-negative int: decimal digits, no leading zero. */
  function DecimalString(n: nat): (s: string)
    ensures |s| >= 1
    ensures forall i :: 0 <= i < |s| ==> '0' <= s[i] <= '9'
    ensures s[0] == '0' ==> s == "0"
    ensures DecimalValue(s) == n
    decreases n
  {
    if n < 10 then [Digit(n)]
    else
      var prefix := DecimalString(n / 10);
      var s := prefix + [Digit(n % 10)];
      assert s[..|s| - 1] == prefix;
      s
  }

  /** The spoken message: "Rep ", the decimal count, " completed!". */
  function RepMessage(n: nat): (r: string)
    ensures |r| >= 16 && r[..4] == "Rep " && r[|r| - 11..] == " completed!"
    ensures var digits := r[4..|r| - 11];
      (forall i :: 0 <= i < |digits| ==> '0' <= digits[i] <= '9') && DecimalValue(digits) == n
    ensures r[4..|r| - 11] == DecimalString(n)
  {
    "Rep " + DecimalString(n) + " completed!"
  }

  // ---------------------------------------------------------------------
  // The loop as functions on TrainerState
  // ---------------------------------------------------------------------

  /** The frame step: angles of the first person, check_form as the gate,
      then count_reps, and on a completed rep the message and one log
      entry carrying the already-incremented count. */
  function Perceive(t: TrainerState, people: seq<seq<Keypoint>>, now: real, angleOf: AngleFn): (r: TrainerState)
    requires t.Valid()
    ensures r.Valid()
    ensures r.exerciseIndex == t.exerciseIndex && r.currentExercise == t.currentExercise
    ensures r.engine != t.engine ==>
      |people| > 0 && CheckForm(t.engine, t.currentExercise, CalculateAllAngles(people[0], angleOf))
    ensures t.currentExercise == TreePose ==> r == t
    ensures r.engine.repCount == t.engine.repCount || r.engine.repCount == t.engine.repCount + 1
    ensures r.engine.repCount == t.engine.repCount + 1 ==>
      r.spoken == t.spoken + [RepMessage(r.engine.repCount)]
      && r.log == t.log + [LogEntry(t.currentExercise, r.engine.repCount, RepCompletedStatus,
                                    CalculateAllAngles(people[0], angleOf))]
    ensures r.engine.repCount == t.engine.repCount ==> r.log == t.log && r.spoken == t.spoken
    ensures t.Quiet() ==> r == t
    ensures |people| == 0 ==> r == t
    ensures |people| > 0 && !CheckForm(t.engine, t.currentExercise, CalculateAllAngles(people[0], angleOf)) ==> r == t
    ensures |people| > 0 ==>
      var angles := CalculateAllAngles(people[0], angleOf);
      var o := CountReps(t.engine, t.currentExercise, angles, now);
      CheckForm(t.engine, t.currentExercise, angles) ==>
        r.engine == o.next
        && (o.completed ==>
              r.spoken == t.spoken + [RepMessage(o.next.repCount)]
              && r.log == t.log + [LogEntry(t.currentExercise, o.next.repCount, RepCompletedStatus, angles)])
        && (!o.completed ==> r.spoken == t.spoken && r.log == t.log)
  {
    if |people| == 0 then t
    else
      var angles := CalculateAllAngles(people[0], angleOf);
      if !CheckForm(t.engine, t.currentExercise, angles) then t
      else
        var o := CountReps(t.engine, t.currentExercise, angles, now);
        if o.completed then
          t.(engine := o.next,
             spoken := t.spoken + [RepMessage(o.next.repCount)],
             log := t.log + [LogEntry(t.currentExercise, o.next.repCount, RepCompletedStatus, angles)])
        else t.(engine := o.next)
  }

  /** The 'n' key: the next exercise of the catalog, cyclically, and a
      reset engine; the log and the queued messages are kept. */
  function Switched(t: TrainerState): (r: TrainerState)
    requires t.Valid()
    ensures r.Valid()
    ensures r.exerciseIndex == (t.exerciseIndex + 1) % |Catalog|
    ensures r.currentExercise != t.currentExercise
    ensures r.engine == Initial
    ensures r.log == t.log && r.spoken == t.spoken
    ensures t.Quiet() ==> r.Quiet()
  {
    var i := (t.exerciseIndex + 1) % |Catalog|;
    t.(exerciseIndex := i, currentExercise := Catalog[i], engine := Reset(t.engine))
  }

  /** The loop: stop at a frame that could not be read or after a frame
      whose key is 'q' or Escape; switch after a frame whose key is 'n'. */
  function RunLoop(t: TrainerState, frames: seq<Frame>, angleOf: AngleFn): (r: TrainerState)
    requires t.Valid()
    ensures r.Valid()
    decreases |frames|
  {
    if frames == [] || !frames[0].grabbed then t
    else
      var seen := Perceive(t, frames[0].people, frames[0].now, angleOf);
      if frames[0].key == KeyQuit || frames[0].key == KeyEscape then seen
      else if frames[0].key == KeyNext then RunLoop(Switched(seen), frames[1..], angleOf)
      else RunLoop(seen, frames[1..], angleOf)
  }

  // ---------------------------------------------------------------------
  // Properties of the loop
  // ---------------------------------------------------------------------

  /** Four switches come back to the same exercise, with a fresh engine. */
  lemma FourSwitchesReturn(t: TrainerState)
    requires t.Valid()
    ensures Switched(Switched(Switched(Switched(t)))) == t.(engine := Initial)
  {
  }

  /** From a quiet state the loop stays quiet, whatever the frames. */
  lemma {:induction false} QuietLoopStaysQuiet(t: TrainerState, frames: seq<Frame>, angleOf: AngleFn)
    requires t.Quiet()
    ensures RunLoop(t, frames, angleOf).Quiet()
    decreases |frames|
  {
    if frames != [] && frames[0].grabbed {
      var seen := Perceive(t, frames[0].people, frames[0].now, angleOf);
      if frames[0].key == KeyQuit || frames[0].key == KeyEscape {
      } else if frames[0].key == KeyNext {
        QuietLoopStaysQuiet(Switched(seen), frames[1..], angleOf);
      } else {
        QuietLoopStaysQuiet(seen, frames[1..], angleOf);
      }
    }
  }

  /** The trainer never counts a rep: check_form is false for tree pose, so
      count_reps is never called for it, and "start" absorbs the other three
      exercises, whose engine is always fresh from construction or reset. */
  lemma NoRepIsEverCounted(frames: seq<Frame>, angleOf: AngleFn)
    ensures RunLoop(Started, frames, angleOf).engine.repCount == 0
    ensures RunLoop(Started, frames, angleOf).log == []
    ensures RunLoop(Started, frames, angleOf).spoken == []
  {
    QuietLoopStaysQuiet(Started, frames, angleOf);
  }

  // ---------------------------------------------------------------------
  // The log's angle map
  // ---------------------------------------------------------------------

  /** The serialisable copy of the angle map built key by key for the log:
      the same keys, absent angles stay absent, present ones are kept. */
  method SerializableAngles(angles: Angles) returns (out: Angles)
    ensures out.Keys == angles.Keys
    ensures forall k :: k in angles ==> out[k] == angles[k]
  {
    out := map[];
    var pending := angles.Keys;
    while pending != {}
      invariant pending <= angles.Keys
      invariant out.Keys == angles.Keys - pending
      invariant forall k :: k in out ==> out[k] == angles[k]
      decreases pending
    {
      var k :| k in pending;
      match angles[k] {
        case Some(v) => out := out[k := Some(v)];
        case None => out := out[k := None];
      }
      pending := pending - {k};
    }
  }

  // ---------------------------------------------------------------------
  // The trainer object
  // ---------------------------------------------------------------------

  class AIPoseTrainer {
    const exerciseLogic: ExerciseLogic
    var currentExercise: string
    var exerciseIndex: nat
    var log: seq<LogEntry>
    var spoken: seq<string>

    function Model(): TrainerState
      reads this, exerciseLogic
    {
      TrainerState(exerciseIndex, currentExercise, exerciseLogic.Snapshot(), log, spoken)
    }

    ghost predicate Valid()
      reads this, exerciseLogic
    {
      Model().Valid()
    }

    /** A new trainer: tree pose, index 0, a fresh engine, nothing logged. */
    constructor ()
      ensures Valid() && fresh(exerciseLogic)
      ensures Model() == Started
    {
      exerciseLogic := new ExerciseLogic();
      currentExercise := TreePose;
      exerciseIndex := 0;
      log := [];
      spoken := [];
    }

    /** log_exercise_data: one entry with the current exercise and count. */
    method LogExerciseData(angles: Angles, status: string)
      modifies this
      ensures log == old(log) + [LogEntry(currentExercise, exerciseLogic.repCount, status, angles)]
      ensures currentExercise == old(currentExercise) && exerciseIndex == old(exerciseIndex)
      ensures spoken == old(spoken)
    {
      var serializable := SerializableAngles(angles);
      assert serializable == angles;
      log := log + [LogEntry(currentExercise, exerciseLogic.repCount, status, serializable)];
    }

    /** The body of the loop for a frame that was read. */
    method ProcessFrame(people: seq<seq<Keypoint>>, now: real, angleOf: AngleFn)
      requires Valid()
      modifies this, exerciseLogic
      ensures Valid()
      ensures Model() == Perceive(old(Model()), people, now, angleOf)
    {
      if |people| > 0 {
        var angles := CalculateAllAngles(people[0], angleOf);
        var formOk := exerciseLogic.CheckForm(currentExercise, angles);
        if formOk {
          var repCompleted := exerciseLogic.CountReps(currentExercise, angles, now);
          if repCompleted {
            spoken := spoken + [RepMessage(exerciseLogic.repCount)];
            LogExerciseData(angles, RepCompletedStatus);
          }
        }
      }
    }

    /** The 'n' key. */
    method SwitchExercise()
      requires Valid()
      modifies this, exerciseLogic
      ensures Valid()
      ensures Model() == Switched(old(Model()))
    {
      exerciseIndex := (exerciseIndex + 1) % |Catalog|;
      currentExercise := Catalog[exerciseIndex];
      exerciseLogic.Reset();
    }

    /** run: process frames until none is left, one cannot be read, or
        the quit key is pressed. */
    method Run(frames: seq<Frame>, angleOf: AngleFn)
      requires Valid()
      modifies this, exerciseLogic
      ensures Valid()
      ensures Model() == RunLoop(old(Model()), frames, angleOf)
    {
      var i := 0;
      while i < |frames|
        invariant 0 <= i <= |frames|
        invariant Valid()
        invariant RunLoop(old(Model()), frames, angleOf) == RunLoop(Model(), frames[i..], angleOf)
        decreases |frames| - i
      {
        var frame := frames[i];
        assert frames[i..][0] == frame && frames[i..][1..] == frames[i + 1..];
        if !frame.grabbed {
          break;
        }
        ProcessFrame(frame.people, frame.now, angleOf);
        if frame.key == KeyQuit || frame.key == KeyEscape {
          break;
        } else if frame.key == KeyNext {
          SwitchExercise();
        }
        i := i + 1;
      }
    }
  }

  /** The program's entry: build a trainer and run it.  Whatever the frames,
      it ends with no rep counted, nothing logged and nothing said. */
  method TrainSession(frames: seq<Frame>, angleOf: AngleFn) returns (reps: nat, entries: seq<LogEntry>, messages: seq<string>)
    ensures reps == 0 && entries == [] && messages == []
  {
    var trainer := new AIPoseTrainer();
    trainer.Run(frames, angleOf);
    NoRepIsEverCounted(frames, angleOf);
    reps, entries, messages := trainer.exerciseLogic.repCount, trainer.log, trainer.spoken;
  }
}
