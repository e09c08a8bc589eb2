# Pose trainer rep-counting engine, in Dafny

This project models the core of a camera-based exercise trainer. The core is
the rep-counting and form-scoring engine `ExerciseLogic`. It keeps four fields:

- the phase: `start`, `holding`, `up` or `down`;
- the rep count;
- the start time of a hold or debounce timer;
- the time of the last completed rep.

It offers five operations:

- `count_reps` advances a per-exercise state machine. Tree pose is a timed
  hold. Squat uses hysteresis with debounce timers, an inter-rep gap and a
  stuck-state timeout. Pushup and jumping jack use plain two-threshold
  hysteresis.
- `check_form` is a read-only gate on the current phase.
- `get_form_feedback` is a stateless confidence score plus correction messages.
- `detect_exercise` is the tree-pose hold test.
- `reset` returns the engine to its constructed state.

Around the engine the model covers two more pieces:

- from the pose detector, the keypoint-confidence gate of the angle computation
  and the table that names eight joint angles by COCO keypoint triplets;
- from the trainer, the per-frame step (check_form gate, then count_reps, then
  the spoken "Rep N completed!" message and one log entry), exercise switching
  with reset, the main loop, and the log's copy of the angle map.

Angles and times are `real`. An absent angle or an unset time is `None`. The
clock reading is passed in as `now` instead of being read from the system.

Modules, one concern each:

- `Wrappers` (wrappers.dfy): `Option`.
- `PoseUtils` (pose_utils.dfy): keypoints, joints, the triplet table,
  `CalculateAngle` and `CalculateAllAngles`. The trigonometry is a parameter of
  type `AngleFn`: any function of three points whose value lies in [0, 180].
- `Rules` (rules.dfy): the threshold table, the session value and one pure
  function per engine operation. The single-call properties are stated in their
  `ensures` clauses.
- `Logic` (exercise_logic.dfy): the class `ExerciseLogic`. It has the four
  fields, and its `CountReps` and `Reset` methods update them branch by branch
  as the source does. Each method is proved to end in the state the matching
  `Rules` function gives.
- `Replays` (replays.dfy): `count_reps` over sequences of calls. It holds the
  induction lemmas and concrete scenarios (a full squat cycle counts once, a
  quick second cycle is suppressed, a 1.5 s tree hold counts and a 1.4 s one
  does not).
- `Trainer` (trainer.dfy): the class `AIPoseTrainer` and its loop as functions
  on a `TrainerState` value.

The main result is `Trainer.NoRepIsEverCounted`: the trainer loop as written
never counts a rep, for any frames. Two facts combine to give it:

- `check_form` has no tree-pose branch, so for tree pose `count_reps` is never
  called.
- The engine starts, and is reset, in phase `start`. No squat, pushup or
  jumping-jack transition leaves `start` (`Replays.StartIsAbsorbing`, and the
  `ensures` of `Rules.CountReps`).

`Trainer.TrainSession` states the same result for the program's entry point:
construct a trainer, run it, and the rep count is 0, the log is empty and no
message was queued.

Five behaviours of the code, modelled as written, may surprise a reader:

- The initial and reset phase is `start` for every exercise, not `up`.
- A tree-pose rep does not end the hold. A hold that goes on earns another rep
  whenever more than 1 s has passed since the last one
  (`Replays.TreeHoldKeepsCounting`).
- `get_form_feedback` for pushup needs both hip angles as well as both elbows.
- The squat and pushup confidence rises as the joint straightens, while a large
  angle is what draws "Squat deeper" or "Lower your chest": a shallow squat
  with aligned knees scores 100 (`Rules.ShallowSquatScoresFull`).
- The squat timeout tests the timer by Python truthiness, so a timer stamped at
  exactly 0.0 counts as unset. This is modelled exactly (`Rules.Truthy`) rather
  than excluded.

## Model

| member | source | states |
|---|---|---|
| `PoseUtils.CalculateAngle` | pose_utils.py:62-79 | absent exactly when one of the three confidences is below 0.5, so a confidence of exactly 0.5 is accepted; otherwise the angle at the middle point, which lies in [0, 180] |
| `PoseUtils.TripletOf` | pose_utils.py:86-102 | each joint's angle is taken at that joint's own COCO keypoint (the vertex), and every index is below 17 |
| `PoseUtils.RightTripletMirrorsLeft` | pose_utils.py:88-101 | every right-side triplet is the left-side triplet with each index plus one |
| `PoseUtils.CalculateAllAngles` | pose_utils.py:81-104 | the empty map for fewer than 17 keypoints; otherwise exactly the eight joints, each angle computed from its triplet; every present angle lies in [0, 180] |
| `Rules.DetectExercise` | exercise_logic.py:37-52 | a held tree pose has all four knee and hip angles present, draws no correction from get_form_feedback, and scores at least 50 |
| `Rules.CheckForm` | exercise_logic.py:54-88 | never true for tree pose or an unknown exercise, and false when a required angle is absent; for squat, pushup and jumping jack it is exactly the non-strict comparison of the mean angle with the threshold of the phase: the down-edge threshold in phase up, the other threshold in every other phase (start, holding and down) |
| `Rules.TreePoseStep` | exercise_logic.py:95-124 | a rep exactly when the hold holds, the phase is holding, at least 1.5 s have elapsed, and there was no prior completion or it was more than 1 s ago; the rep keeps the phase and the start time and records the completion time; start plus a hold stamps the time and moves to holding; any other held frame changes nothing; losing the hold moves to start and clears the timer, keeping the count and the last completion; a missing angle changes nothing |
| `Rules.SquatStep` | exercise_logic.py:126-161 | a rep exactly when, in phase down, the mean knee angle is above 130, the timer is at least 0.2 s old, and there was no prior completion or it was more than 0.8 s ago; the rep sets phase up, clears the timer and records the time; in phase up a mean below 100 with a timer at least 0.2 s old moves to down and clears the timer; an unset timer is stamped on the first reading past either edge; any other reading with a running timer clears it and forces phase up when the timer is truthy and older than 2 s, and otherwise changes nothing; an unset timer with no edge reading changes nothing |
| `Rules.PushupStep` | exercise_logic.py:163-173 | a rep exactly when, in phase down, the mean elbow angle is above 150, and the rep sets phase up; in phase up a mean below 100 moves to down without a rep; every other reading changes nothing; the timers are never touched |
| `Rules.JumpingJackStep` | exercise_logic.py:175-185 | a rep exactly when, in phase down, the mean shoulder angle is below 30, and the rep sets phase up; in phase up a mean above 90 moves to down without a rep; every other reading changes nothing; the timers are never touched |
| `Rules.CountReps` | exercise_logic.py:90-187 | the count changes by one exactly when true is returned, and otherwise stays; a missing required angle or an unknown exercise changes nothing and returns false; start is absorbing for squat, pushup and jumping jack; for pushup and jumping jack, a frame check_form rejects changes nothing; reachable sessions stay reachable |
| `Rules.ThresholdPassesGateOnly` | exercise_logic.py:68-86 | a pushup or jumping-jack reading exactly at the down-edge threshold passes check_form (non-strict) and then leaves count_reps with nothing to do (strict) |
| `Rules.GateIsEdgeOrThreshold` | exercise_logic.py:68-86 | for pushup and jumping jack in phase up or down, check_form passes exactly when count_reps moves the phase or the mean sits exactly on the threshold of the edge the phase waits for |
| `Rules.StandingSquatPassesGateInStart` | exercise_logic.py:56-66 | in phase start the squat gate tests for standing, so a mean knee angle of at least 130 passes check_form and count_reps then leaves the session as it was |
| `Rules.Reset` | exercise_logic.py:275-281 | whatever the state before: count 0, phase start, both timestamps cleared |
| `Rules.Trunc` | exercise_logic.py:207 | Python's int() on a real: truncation toward zero, within 1 of the argument |
| `Rules.TreePoseScore` | exercise_logic.py:194-213 | "Raise your knee higher" exactly when the knee difference is below 25; "Keep your hips level" exactly when the hip difference is above 20; each at most once, the knee message first; the score lies in [0, 100] |
| `Rules.SquatScore` | exercise_logic.py:215-232 | "Squat deeper" exactly when the mean knee angle is above 100; "Keep knees aligned" exactly when the knee difference is above 30; each at most once, the depth message first; the score is at most 100, and at least 0 for non-negative angles |
| `Rules.PushupScore` | exercise_logic.py:234-253 | "Lower your chest" exactly when the mean elbow angle is above 100; "Keep your body straight" exactly when the hip difference is above 20; each at most once, the depth message first; both elbows and both hips are required |
| `Rules.JumpingJackScore` | exercise_logic.py:255-267 | "Raise arms higher" exactly when the mean shoulder angle is below 90; the score is at most 100 |
| `Rules.GetFormFeedback` | exercise_logic.py:189-273 | one or two messages, each a correction or "Form looks good!"; two messages are always the exercise's two corrections in source order, never a repeat; "Form looks good!" appears only alone, and exactly when no correction applies; a missing input or an unknown exercise gives (0, ["Form looks good!"]); each correction appears exactly when its criterion fails; the confidence is at most 100, and at least 0 for non-negative angles |
| `Rules.SquatScoreRisesAsKneesStraighten` | exercise_logic.py:219-226 | with aligned knees, a larger (straighter) knee angle never lowers the squat confidence, although a large angle is what draws "Squat deeper" |
| `Rules.ShallowSquatScoresFull` | exercise_logic.py:219-232 | aligned knees with a mean above 100 score 100 together with the single correction "Squat deeper" |
| `Rules.StraightArmPushupScoresFull` | exercise_logic.py:240-253 | equal elbows above 100 with level hips score 100 together with the single correction "Lower your chest" |
| `Rules.LevelTreePoseScoresFull` | exercise_logic.py:200-213 | a knee difference of at least 25 with level hips scores 100 and draws "Form looks good!" |
| `Logic.ExerciseLogic.constructor` | exercise_logic.py:31-34 | phase start, count 0, both timestamps unset |
| `Logic.ExerciseLogic.CheckForm` | exercise_logic.py:54-88 | check_form on the object reads only the phase field, never the count or the timers, and is false for tree pose |
| `Logic.ExerciseLogic.CountReps` | exercise_logic.py:90-187 | the fields after the call and the returned flag are what Rules.CountReps gives for the fields before it; the object invariant is kept |
| `Logic.ExerciseLogic.Reset` | exercise_logic.py:275-281 | the fields become the constructed state |
| `Replays.Replay` | exercise_logic.py:90-187 | over any sequence of count_reps calls, the final count is the initial one plus the number of calls that returned true |
| `Replays.StartIsAbsorbing` | exercise_logic.py:133-185 | for squat, pushup and jumping jack, no sequence of calls from phase start changes the state or counts a rep |
| `Replays.MissingAnglesChangeNothing` | exercise_logic.py:95-185 | calls that each lack a required angle leave the session unchanged and count nothing |
| `Replays.TreePoseRepGap` | exercise_logic.py:113-119 | no tree-pose rep is counted within 1 s of the previous completion, however long the pose is held |
| `Replays.SquatRepGap` | exercise_logic.py:148-155 | no squat rep is counted within 0.8 s of the previous completion |
| `Replays.SquatCycleCountsOnce` | exercise_logic.py:133-161 | knee angles 140,140,90,90,90,140,140 every 0.3 s from phase up give exactly one rep, on the last reading |
| `Replays.QuickSecondSquatSuppressed` | exercise_logic.py:143-155 | a second squat cycle completed 0.5 s after the first rep is not counted |
| `Replays.TreeHoldOfOneAndAHalfSeconds` | exercise_logic.py:105-119 | a tree hold of exactly 1.5 s counts one rep |
| `Replays.TreeReleasedEarly` | exercise_logic.py:105-124 | releasing the tree pose after 1.4 s counts nothing and returns to the constructed state |
| `Replays.TreeHoldKeepsCounting` | exercise_logic.py:112-119 | a continued hold earns a second rep 1.1 s after the first |
| `Trainer.DecimalString` | ai_pose_trainer.py:66 | the rep number in the message is its decimal form: digits only, no leading zero, and reading it back gives the number |
| `Trainer.RepMessage` | ai_pose_trainer.py:66 | the message is "Rep ", then the decimal form of the count as Python's str() writes it (digits whose value is the count, no leading zero), then " completed!" |
| `Trainer.Perceive` | ai_pose_trainer.py:56-67 | with no person detected, or when check_form rejects the first person's angles, nothing changes; otherwise the engine becomes what count_reps gives for those angles, and when it reports a rep the message "Rep N completed!" with N the new count and one log entry with the angles are added, and otherwise the log and messages are kept; for tree pose nothing ever changes |
| `Trainer.Switched` | ai_pose_trainer.py:81-84 | the index moves to (index + 1) mod 4, the exercise changes to that catalog entry, and the engine is the constructed session (count 0, phase start, both times cleared); the log and the messages are kept |
| `Trainer.RunLoop` | ai_pose_trainer.py:46-84 | the loop keeps the trainer invariant: the index is in range, the exercise is the catalog entry at the index, and the engine session is reachable |
| `Trainer.FourSwitchesReturn` | ai_pose_trainer.py:81-83 | four switches return to the same exercise and index, with a fresh engine |
| `Trainer.QuietLoopStaysQuiet` | ai_pose_trainer.py:56-84 | from a fresh engine with an empty log, any frames leave the engine fresh, the log empty and no message queued |
| `Trainer.NoRepIsEverCounted` | ai_pose_trainer.py:46-84 | from construction, the loop never counts a rep, logs an entry or queues a message |
| `Trainer.SerializableAngles` | ai_pose_trainer.py:125-133 | the log's angle map has the same keys as the input; absent stays absent and present values are kept |
| `Trainer.AIPoseTrainer.constructor` | ai_pose_trainer.py:11-25 | tree pose at index 0, a fresh engine, an empty log |
| `Trainer.AIPoseTrainer.LogExerciseData` | ai_pose_trainer.py:121-166 | appends one entry with the current exercise, the current count, the status and the angles, and changes nothing else |
| `Trainer.AIPoseTrainer.ProcessFrame` | ai_pose_trainer.py:56-67 | the trainer and engine fields end as Perceive gives |
| `Trainer.AIPoseTrainer.SwitchExercise` | ai_pose_trainer.py:81-84 | the trainer and engine fields end as Switched gives |
| `Trainer.AIPoseTrainer.Run` | ai_pose_trainer.py:46-88 | the trainer and engine fields end as RunLoop gives for the frames |
| `Trainer.TrainSession` | ai_pose_trainer.py:168-170 | building a trainer and running it on any frames ends with count 0, no log entry and no message |

## Left out

- The numeric body of `calculate_angle` (pose_utils.py:69-77) is not modelled. Dot product, norms, arccos and degrees become the `AngleFn` parameter, which assumes only that the result lies in [0, 180]. The NaN produced by a zero-length limb vector is not modelled.
- Floating point: angles and times are exact reals, so float rounding is not modelled.
- `detect_pose` and `_draw_skeleton` (YOLO inference and OpenCV drawing) are left out. The detector's output is an input of each frame.
- Camera capture, `imshow` and `waitKey` are left out. A frame's read success and its key code are inputs of the model.
- `_display_info` (on-screen text) is left out. It is the only caller of `get_form_feedback`, so the trainer model does not call it either.
- The feedback engine (feedback_engine.py) is left out: its speech thread, queue and cooldown. `queue_feedback` becomes appending the message to the trainer's `spoken` sequence.
- test_tflite.py is not part of this model. It is a separate TF Lite demo that the trainer does not use.
- The JSON log file is left out: `_init_log_file`, reading the file, writing it back, and recovering from a corrupt file. The log is the sequence of entries appended during one run. It starts empty, so entries already in the file are not modelled.
- The ISO timestamp of a log entry is left out, and so is the key order of the serialised angle map.
- The `except` branch of the angle serialisation (ai_pose_trainer.py:132-133, a value that `float()` rejects) is left out. It cannot occur for real-valued angles.
- Debug `print` output, the unused `form_status` field and the unused `confidence_threshold` entries are left out.
- `Rules.CountReps`: requires that a `holding` session carries its start time. The source would raise a TypeError otherwise. Every session reachable from construction satisfies this (`Session.Reachable`, kept by every operation).
- `Rules.GetFormFeedback`: the lower bound 0 on the confidence is proved only for non-negative angles. For negative inputs the squat, pushup and jumping-jack scores can be negative. Angles produced by `CalculateAllAngles` always lie in [0, 180].
- `Rules.SquatStep`: its contract covers one call. The multi-call reading of the squat debounce ("an earlier call stamped the timer") is covered only by the scenario lemmas and by `Replays.SquatRepGap`.
