/** The rules of the rep-counting and form-scoring engine as pure functions
    over a session value: the threshold table, the state a session carries,
    and one function for each public operation.  The class in module Logic
    keeps the same state in fields and is proved to follow these functions. */
module Rules {
  import opened Wrappers
  import opened PoseUtils

  // ---------------------------------------------------------------------
  // Exercise names, as the engine receives them
  // ---------------------------------------------------------------------

  const TreePose: string := "tree_pose"
  const Squat: string := "squat"
  const Pushup: string := "pushup"
  const JumpingJack: string := "jumping_jack"

  /** The exercises the engine has rules for. */
  const Catalog: seq<string> := [TreePose, Squat, Pushup, JumpingJack]

  // ---------------------------------------------------------------------
  // Threshold table (degrees and seconds)
  // ---------------------------------------------------------------------

  const TreeKneeBend: real := 25.0
  const TreeBalanceDuration: real := 1.5
  const TreeHipVariance: real := 20.0
  const SquatDown: real := 100.0
  const SquatUp: real := 130.0
  const SquatKneeAlignment: real := 30.0
  const PushupDown: real := 100.0
  const PushupUp: real := 150.0
  const PushupHipVariance: real := 20.0
  const JumpingJackDown: real := 30.0
  const JumpingJackUp: real := 90.0

  /** Timing constants that count_reps writes inline. */
  const TreeRepGap: real := 1.0
  const SquatDwell: real := 0.2
  const SquatRepGap: real := 0.8
  const SquatTimeout: real := 2.0

  // ---------------------------------------------------------------------
  // Feedback messages
  // ---------------------------------------------------------------------

  const RaiseKnee: string := "Raise your knee higher"
  const KeepHipsLevel: string := "Keep your hips level"
  const SquatDeeper: string := "Squat deeper"
  const KeepKneesAligned: string := "Keep knees aligned"
  const LowerChest: string := "Lower your chest"
  const KeepBodyStraight: string := "Keep your body straight"
  const RaiseArms: string := "Raise arms higher"
  const FormLooksGood: string := "Form looks good!"

  // ---------------------------------------------------------------------
  // Session state
  // ---------------------------------------------------------------------

  /** The values exercise_state takes. */
  datatype Phase = Start | Holding | Up | Down

  /** The four mutable fields of the engine. */
  datatype Session = Session(phase: Phase, repCount: nat, poseStartTime: Option<real>, lastPoseEndTime: Option<real>)
  {
    /** A tree-pose hold always carries its start time: the hold test
        subtracts it without checking for None. */
    predicate HoldTimed() {
      phase == Holding ==> poseStartTime.Some?
    }

    /** What every session reachable from construction satisfies. */
    predicate Reachable() {
      HoldTimed() && (phase == Start ==> poseStartTime.None?)
    }
  }

  /** The state after construction and after reset, for every exercise. */
  const Initial: Session := Session(Start, 0, None, None)

  /** The new session and the value count_reps returns. */
  datatype Outcome = Outcome(next: Session, completed: bool)

  /** The score and messages get_form_feedback returns. */
  datatype FormReport = FormReport(confidence: int, feedback: seq<string>)

  // ---------------------------------------------------------------------
  // Arithmetic helpers
  // ---------------------------------------------------------------------

  function Abs(x: real): (r: real)
    ensures r >= 0.0 && (r == x || r == -x)
  {
    if x < 0.0 then -x else x
  }

  function Min(a: real, b: real): real { if a <= b then a else b }

  function Max(a: real, b: real): real { if a >= b then a else b }

  /** Python's int() on a real: truncation toward zero. */
  function Trunc(x: real): (r: int)
    ensures x >= 0.0 ==> 0 <= r && r as real <= x < r as real + 1.0
    ensures x < 0.0 ==> r <= 0 && x <= r as real < x + 1.0
  {
    if x >= 0.0 then x.Floor else -((-x).Floor)
  }

  /** Python truthiness of an optional time: None and 0.0 are false. */
  predicate Truthy(t: Option<real>) {
    t.Some? && t.value != 0.0
  }

  // ---------------------------------------------------------------------
  // Readings derived from an angle map
  // ---------------------------------------------------------------------

  /** The mean of the left and right angle, when both are present. */
  function Mean(angles: Angles, left: Joint, right: Joint): (m: Option<real>)
    ensures m.Some? <==> Get(angles, left).Some? && Get(angles, right).Some?
    ensures m.Some? ==> Min(Get(angles, left).value, Get(angles, right).value) <= m.value
                          <= Max(Get(angles, left).value, Get(angles, right).value)
  {
    if Get(angles, left).Some? && Get(angles, right).Some? then
      Some((Get(angles, right).value + Get(angles, left).value) / 2.0)
    else None
  }

  /** The absolute difference of the right and left angle, when both are present. */
  function Spread(angles: Angles, left: Joint, right: Joint): (d: Option<real>)
    ensures d.Some? <==> Get(angles, left).Some? && Get(angles, right).Some?
    ensures d.Some? ==> d.value >= 0.0
  {
    if Get(angles, left).Some? && Get(angles, right).Some? then
      Some(Abs(Get(angles, right).value - Get(angles, left).value))
    else None
  }

  /** The angles count_reps and check_form need for an exercise. */
  function RequiredJoints(exercise: string): set<Joint> {
    if exercise == TreePose then {LeftKnee, RightKnee, LeftHip, RightHip}
    else if exercise == Squat then {LeftKnee, RightKnee}
    else if exercise == Pushup then {LeftElbow, RightElbow}
    else if exercise == JumpingJack then {LeftShoulder, RightShoulder}
    else {}
  }

  /** The angles get_form_feedback needs (pushup also reads both hips). */
  function FeedbackJoints(exercise: string): set<Joint> {
    if exercise == Pushup then {LeftElbow, RightElbow, LeftHip, RightHip}
    else RequiredJoints(exercise)
  }

  predicate Present(angles: Angles, joints: set<Joint>) {
    forall j :: j in joints ==> Get(angles, j).Some?
  }

  predicate NonNegative(angles: Angles) {
    forall j :: Get(angles, j).Some? ==> Get(angles, j).value >= 0.0
  }

  // ---------------------------------------------------------------------
  // detect_exercise
  // ---------------------------------------------------------------------

  /** detect_exercise: the tree-pose hold, a knee difference above 25
      degrees with a hip difference below 20.  A held pose never draws a
      correction from the feedback and scores at least 50. */
  function DetectExercise(angles: Angles): (held: bool)
    ensures held ==> Present(angles, RequiredJoints(TreePose))
    ensures held ==> GetFormFeedback(TreePose, angles).feedback == [FormLooksGood]
    ensures held ==> 50 <= GetFormFeedback(TreePose, angles).confidence <= 100
  {
    match (Spread(angles, LeftKnee, RightKnee), Spread(angles, LeftHip, RightHip))
    case (Some(kneeDiff), Some(hipDiff)) => kneeDiff > TreeKneeBend && hipDiff < TreeHipVariance
    case _ => false
  }

  // ---------------------------------------------------------------------
  // check_form
  // ---------------------------------------------------------------------

  /** check_form: whether the reading is past the threshold of the next
      expected transition (non-strict comparisons).  It has no tree-pose
      branch, and it is false whenever a required angle is absent. */
  function CheckForm(s: Session, exercise: string, angles: Angles): (ok: bool)
    ensures exercise == TreePose ==> !ok
    ensures ok ==> exercise == Squat || exercise == Pushup || exercise == JumpingJack
    ensures ok ==> Present(angles, RequiredJoints(exercise))
    ensures var m := Mean(angles, LeftKnee, RightKnee);
      exercise == Squat ==>
        (ok <==> m.Some? && if s.phase == Up then m.value <= SquatDown else m.value >= SquatUp)
    ensures var m := Mean(angles, LeftElbow, RightElbow);
      exercise == Pushup ==>
        (ok <==> m.Some? && if s.phase == Up then m.value <= PushupDown else m.value >= PushupUp)
    ensures var m := Mean(angles, LeftShoulder, RightShoulder);
      exercise == JumpingJack ==>
        (ok <==> m.Some? && if s.phase == Up then m.value >= JumpingJackUp else m.value <= JumpingJackDown)
  {
    if exercise == Squat then
      match Mean(angles, LeftKnee, RightKnee)
      case Some(knee) => if s.phase == Up then knee <= SquatDown else knee >= SquatUp
      case None => false
    else if exercise == Pushup then
      match Mean(angles, LeftElbow, RightElbow)
      case Some(elbow) => if s.phase == Up then elbow <= PushupDown else elbow >= PushupUp
      case None => false
    else if exercise == JumpingJack then
      match Mean(angles, LeftShoulder, RightShoulder)
      case Some(shoulder) => if s.phase == Up then shoulder >= JumpingJackUp else shoulder <= JumpingJackDown
      case None => false
    else false
  }

  // ---------------------------------------------------------------------
  // count_reps
  // ---------------------------------------------------------------------

  /** The tree-pose branch of count_reps: a rep for a hold of at least 1.5 s,
      at most one per second; losing the hold restarts it. */
  function TreePoseStep(s: Session, angles: Angles, now: real): (o: Outcome)
    requires s.HoldTimed()
    ensures o.completed <==>
      DetectExercise(angles) && s.phase == Holding
      && now - s.poseStartTime.value >= TreeBalanceDuration
      && (s.lastPoseEndTime.None? || now - s.lastPoseEndTime.value > TreeRepGap)
    ensures o.completed ==> o.next == s.(repCount := s.repCount + 1, lastPoseEndTime := Some(now))
    ensures !o.completed ==> o.next.repCount == s.repCount && o.next.lastPoseEndTime == s.lastPoseEndTime
    ensures DetectExercise(angles) && s.phase == Start ==>
      o == Outcome(s.(phase := Holding, poseStartTime := Some(now)), false)
    ensures DetectExercise(angles) && s.phase != Start && !o.completed ==> o == Outcome(s, false)
    ensures Present(angles, RequiredJoints(TreePose)) && !DetectExercise(angles) ==>
      o == Outcome(s.(phase := Start, poseStartTime := None), false)
    ensures !Present(angles, RequiredJoints(TreePose)) ==> o == Outcome(s, false)
  {
    match (Spread(angles, LeftKnee, RightKnee), Spread(angles, LeftHip, RightHip))
    case (Some(kneeDiff), Some(hipDiff)) =>
      if kneeDiff > TreeKneeBend && hipDiff < TreeHipVariance then
        if s.phase == Start then
          Outcome(s.(phase := Holding, poseStartTime := Some(now)), false)
        else if s.phase == Holding && now - s.poseStartTime.value >= TreeBalanceDuration
                && (s.lastPoseEndTime.None? || now - s.lastPoseEndTime.value > TreeRepGap) then
          Outcome(s.(repCount := s.repCount + 1, lastPoseEndTime := Some(now)), true)
        else Outcome(s, false)
      else Outcome(s.(phase := Start, poseStartTime := None), false)
    case _ => Outcome(s, false)
  }

  /** The stuck-state recovery at the end of the squat branch: a timer
      running for more than 2 s is dropped and the phase forced to up. */
  function SquatTimeoutCheck(s: Session, now: real): Outcome {
    if Truthy(s.poseStartTime) && now - s.poseStartTime.value > SquatTimeout then
      Outcome(s.(poseStartTime := None, phase := Up), false)
    else Outcome(s, false)
  }

  /** The squat branch of count_reps: two-threshold hysteresis on the mean
      knee angle, each edge debounced by 0.2 s, at most one rep per 0.8 s. */
  function SquatStep(s: Session, angles: Angles, now: real): (o: Outcome)
    ensures var m := Mean(angles, LeftKnee, RightKnee);
      o.completed <==>
        m.Some? && s.phase == Down && m.value > SquatUp
        && s.poseStartTime.Some? && now - s.poseStartTime.value >= SquatDwell
        && (s.lastPoseEndTime.None? || now - s.lastPoseEndTime.value > SquatRepGap)
    ensures o.completed ==> o.next == Session(Up, s.repCount + 1, None, Some(now))
    ensures !o.completed ==> o.next.repCount == s.repCount && o.next.lastPoseEndTime == s.lastPoseEndTime
    ensures var m := Mean(angles, LeftKnee, RightKnee);
      o.next.phase == Down && s.phase != Down ==>
        s.phase == Up && m.Some? && m.value < SquatDown
        && s.poseStartTime.Some? && now - s.poseStartTime.value >= SquatDwell
    ensures var m := Mean(angles, LeftKnee, RightKnee);
      m.Some? && s.phase == Up && m.value < SquatDown
      && s.poseStartTime.Some? && now - s.poseStartTime.value >= SquatDwell ==>
        o == Outcome(s.(phase := Down, poseStartTime := None), false)
    ensures var m := Mean(angles, LeftKnee, RightKnee);
      m.Some? && s.poseStartTime.None? && ((s.phase == Up && m.value < SquatDown) || (s.phase == Down && m.value > SquatUp)) ==>
        o == Outcome(s.(poseStartTime := Some(now)), false)
    ensures var m := Mean(angles, LeftKnee, RightKnee);
      m.Some? && s.poseStartTime.None? && !((s.phase == Up && m.value < SquatDown) || (s.phase == Down && m.value > SquatUp)) ==>
        o == Outcome(s, false)
    ensures var m := Mean(angles, LeftKnee, RightKnee);
      m.Some? && s.poseStartTime.Some? && !o.completed
      && !(s.phase == Up && m.value < SquatDown && now - s.poseStartTime.value >= SquatDwell) ==>
        o == (if Truthy(s.poseStartTime) && now - s.poseStartTime.value > SquatTimeout
              then Outcome(s.(poseStartTime := None, phase := Up), false)
              else Outcome(s, false))
    ensures var m := Mean(angles, LeftKnee, RightKnee);
      m.Some? && Truthy(s.poseStartTime) && now - s.poseStartTime.value > SquatTimeout ==>
        o.next.poseStartTime.None? && o.next.phase == (if s.phase == Up && m.value < SquatDown then Down else Up)
    ensures Mean(angles, LeftKnee, RightKnee).None? ==> o == Outcome(s, false)
  {
    match Mean(angles, LeftKnee, RightKnee)
    case None => Outcome(s, false)
    case Some(knee) =>
      if s.phase == Up && knee < SquatDown then
        if s.poseStartTime.None? then SquatTimeoutCheck(s.(poseStartTime := Some(now)), now)
        else if now - s.poseStartTime.value >= SquatDwell then
          SquatTimeoutCheck(s.(phase := Down, poseStartTime := None), now)
        else SquatTimeoutCheck(s, now)
      else if s.phase == Down && knee > SquatUp then
        if s.poseStartTime.None? then SquatTimeoutCheck(s.(poseStartTime := Some(now)), now)
        else if now - s.poseStartTime.value >= SquatDwell then
          if s.lastPoseEndTime.None? || now - s.lastPoseEndTime.value > SquatRepGap then
            Outcome(Session(Up, s.repCount + 1, None, Some(now)), true)
          else SquatTimeoutCheck(s, now)
        else SquatTimeoutCheck(s, now)
      else SquatTimeoutCheck(s, now)
  }

  /** The pushup branch of count_reps: up to down below 100 degrees, down to
      up above 150 with a rep; no timers. */
  function PushupStep(s: Session, angles: Angles): (o: Outcome)
    ensures var m := Mean(angles, LeftElbow, RightElbow);
      o.completed <==> m.Some? && s.phase == Down && m.value > PushupUp
    ensures o.completed ==> o.next == s.(phase := Up, repCount := s.repCount + 1)
    ensures var m := Mean(angles, LeftElbow, RightElbow);
      m.Some? && s.phase == Up && m.value < PushupDown ==> o == Outcome(s.(phase := Down), false)
    ensures var m := Mean(angles, LeftElbow, RightElbow);
      !o.completed && !(m.Some? && s.phase == Up && m.value < PushupDown) ==> o == Outcome(s, false)
    ensures var m := Mean(angles, LeftElbow, RightElbow);
      o.next.phase != s.phase ==>
        (s.phase == Up && o.next.phase == Down && m.Some? && m.value < PushupDown)
        || (s.phase == Down && o.next.phase == Up && o.completed)
    ensures o.next.repCount == s.repCount + (if o.completed then 1 else 0)
    ensures o.next.poseStartTime == s.poseStartTime && o.next.lastPoseEndTime == s.lastPoseEndTime
  {
    match Mean(angles, LeftElbow, RightElbow)
    case None => Outcome(s, false)
    case Some(elbow) =>
      if s.phase == Up && elbow < PushupDown then Outcome(s.(phase := Down), false)
      else if s.phase == Down && elbow > PushupUp then
        Outcome(s.(phase := Up, repCount := s.repCount + 1), true)
      else Outcome(s, false)
  }

  /** The jumping-jack branch of count_reps.  Its phase names are inverted:
      "down" means arms raised.  Up to down above 90 degrees, down to up
      below 30 with a rep; no timers. */
  function JumpingJackStep(s: Session, angles: Angles): (o: Outcome)
    ensures var m := Mean(angles, LeftShoulder, RightShoulder);
      o.completed <==> m.Some? && s.phase == Down && m.value < JumpingJackDown
    ensures o.completed ==> o.next == s.(phase := Up, repCount := s.repCount + 1)
    ensures var m := Mean(angles, LeftShoulder, RightShoulder);
      m.Some? && s.phase == Up && m.value > JumpingJackUp ==> o == Outcome(s.(phase := Down), false)
    ensures var m := Mean(angles, LeftShoulder, RightShoulder);
      !o.completed && !(m.Some? && s.phase == Up && m.value > JumpingJackUp) ==> o == Outcome(s, false)
    ensures var m := Mean(angles, LeftShoulder, RightShoulder);
      o.next.phase != s.phase ==>
        (s.phase == Up && o.next.phase == Down && m.Some? && m.value > JumpingJackUp)
        || (s.phase == Down && o.next.phase == Up && o.completed)
    ensures o.next.repCount == s.repCount + (if o.completed then 1 else 0)
    ensures o.next.poseStartTime == s.poseStartTime && o.next.lastPoseEndTime == s.lastPoseEndTime
  {
    match Mean(angles, LeftShoulder, RightShoulder)
    case None => Outcome(s, false)
    case Some(shoulder) =>
      if s.phase == Up && shoulder > JumpingJackUp then Outcome(s.(phase := Down), false)
      else if s.phase == Down && shoulder < JumpingJackDown then
        Outcome(s.(phase := Up, repCount := s.repCount + 1), true)
      else Outcome(s, false)
  }

  /** count_reps: one step of the exercise's state machine at time `now`.
      The rep count moves by one exactly when a rep is reported; absent
      inputs and unknown exercises change nothing; "start" is absorbing
      for squat, pushup and jumping jack; and for pushup and jumping jack a
      frame check_form rejects could not have changed anything either. */
  function CountReps(s: Session, exercise: string, angles: Angles, now: real): (o: Outcome)
    requires s.HoldTimed()
    ensures o.next.HoldTimed()
    ensures s.Reachable() ==> o.next.Reachable()
    ensures o.completed ==> o.next.repCount == s.repCount + 1
    ensures !o.completed ==> o.next.repCount == s.repCount
    ensures !Present(angles, RequiredJoints(exercise)) ==> o == Outcome(s, false)
    ensures exercise !in Catalog ==> o == Outcome(s, false)
    ensures s.Reachable() && s.phase == Start && exercise != TreePose ==> o == Outcome(s, false)
    ensures (exercise == Pushup || exercise == JumpingJack) && !CheckForm(s, exercise, angles) ==>
      o == Outcome(s, false)
  {
    if exercise == TreePose then TreePoseStep(s, angles, now)
    else if exercise == Squat then SquatStep(s, angles, now)
    else if exercise == Pushup then PushupStep(s, angles)
    else if exercise == JumpingJack then JumpingJackStep(s, angles)
    else Outcome(s, false)
  }

  /** check_form compares non-strictly and count_reps strictly: a pushup or
      jumping-jack reading exactly at a threshold passes the gate and then
      moves nothing. */
  lemma ThresholdPassesGateOnly(s: Session, exercise: string, angles: Angles, now: real)
    requires s.HoldTimed() && s.phase == Up
    requires (exercise == Pushup && Mean(angles, LeftElbow, RightElbow) == Some(PushupDown))
          || (exercise == JumpingJack && Mean(angles, LeftShoulder, RightShoulder) == Some(JumpingJackUp))
    ensures CheckForm(s, exercise, angles)
    ensures CountReps(s, exercise, angles, now) == Outcome(s, false)
  {
  }

  /** For pushup and jumping jack in phase up or down, check_form passes
      exactly when count_reps moves the phase or the reading sits exactly
      on the threshold of the edge the phase waits for. */
  lemma GateIsEdgeOrThreshold(s: Session, exercise: string, angles: Angles, now: real)
    requires s.HoldTimed() && (s.phase == Up || s.phase == Down)
    ensures var o := CountReps(s, exercise, angles, now);
      exercise == Pushup ==>
        (CheckForm(s, exercise, angles) <==>
          o.next.phase != s.phase
          || Mean(angles, LeftElbow, RightElbow) == Some(if s.phase == Up then PushupDown else PushupUp))
    ensures var o := CountReps(s, exercise, angles, now);
      exercise == JumpingJack ==>
        (CheckForm(s, exercise, angles) <==>
          o.next.phase != s.phase
          || Mean(angles, LeftShoulder, RightShoulder) == Some(if s.phase == Up then JumpingJackUp else JumpingJackDown))
  {
  }

  /** In phase start the squat gate tests for standing, so a standing
      squatter passes check_form, and count_reps then does nothing. */
  lemma StandingSquatPassesGateInStart(s: Session, angles: Angles, now: real)
    requires s.Reachable() && s.phase == Start
    requires Mean(angles, LeftKnee, RightKnee).Some? && Mean(angles, LeftKnee, RightKnee).value >= SquatUp
    ensures CheckForm(s, Squat, angles)
    ensures CountReps(s, Squat, angles, now) == Outcome(s, false)
  {
  }

  // ---------------------------------------------------------------------
  // reset
  // ---------------------------------------------------------------------

  /** reset: a fresh session whatever the exercise or the state before. */
  function Reset(s: Session): (r: Session)
    ensures r.repCount == 0 && r.phase == Start
    ensures r.poseStartTime.None? && r.lastPoseEndTime.None?
    ensures r.Reachable()
  {
    Initial
  }

  // ---------------------------------------------------------------------
  // get_form_feedback
  // ---------------------------------------------------------------------

  function TreePoseScore(angles: Angles): (r: FormReport)
    ensures forall m :: m in r.feedback ==> m == RaiseKnee || m == KeepHipsLevel
    ensures |r.feedback| <= 2
    ensures |r.feedback| == 2 ==> r.feedback == [RaiseKnee, KeepHipsLevel]
    ensures RaiseKnee in r.feedback <==>
      Present(angles, FeedbackJoints(TreePose)) && Spread(angles, LeftKnee, RightKnee).value < TreeKneeBend
    ensures KeepHipsLevel in r.feedback <==>
      Present(angles, FeedbackJoints(TreePose)) && Spread(angles, LeftHip, RightHip).value > TreeHipVariance
    ensures !Present(angles, FeedbackJoints(TreePose)) ==> r == FormReport(0, [])
    ensures 0 <= r.confidence <= 100
  {
    match (Spread(angles, LeftKnee, RightKnee), Spread(angles, LeftHip, RightHip))
    case (Some(kneeDiff), Some(hipDiff)) =>
      var kneeScore := Min(100.0, kneeDiff / TreeKneeBend * 100.0);
      var hipScore := Max(0.0, 100.0 - hipDiff / TreeHipVariance * 100.0);
      FormReport(Trunc((kneeScore + hipScore) / 2.0),
        (if kneeDiff < TreeKneeBend then [RaiseKnee] else [])
        + (if hipDiff > TreeHipVariance then [KeepHipsLevel] else []))
    case _ => FormReport(0, [])
  }

  function SquatScore(angles: Angles): (r: FormReport)
    ensures forall m :: m in r.feedback ==> m == SquatDeeper || m == KeepKneesAligned
    ensures |r.feedback| <= 2
    ensures |r.feedback| == 2 ==> r.feedback == [SquatDeeper, KeepKneesAligned]
    ensures SquatDeeper in r.feedback <==>
      Present(angles, FeedbackJoints(Squat)) && Mean(angles, LeftKnee, RightKnee).value > SquatDown
    ensures KeepKneesAligned in r.feedback <==>
      Present(angles, FeedbackJoints(Squat)) && Spread(angles, LeftKnee, RightKnee).value > SquatKneeAlignment
    ensures !Present(angles, FeedbackJoints(Squat)) ==> r == FormReport(0, [])
    ensures r.confidence <= 100
    ensures NonNegative(angles) ==> 0 <= r.confidence
  {
    match (Mean(angles, LeftKnee, RightKnee), Spread(angles, LeftKnee, RightKnee))
    case (Some(knee), Some(kneeDiff)) =>
      var depthScore := Min(100.0, knee / SquatDown * 100.0);
      var alignmentScore := Max(0.0, 100.0 - kneeDiff / SquatKneeAlignment * 100.0);
      FormReport(Trunc((depthScore + alignmentScore) / 2.0),
        (if knee > SquatDown then [SquatDeeper] else [])
        + (if kneeDiff > SquatKneeAlignment then [KeepKneesAligned] else []))
    case _ => FormReport(0, [])
  }

  function PushupScore(angles: Angles): (r: FormReport)
    ensures forall m :: m in r.feedback ==> m == LowerChest || m == KeepBodyStraight
    ensures |r.feedback| <= 2
    ensures |r.feedback| == 2 ==> r.feedback == [LowerChest, KeepBodyStraight]
    ensures LowerChest in r.feedback <==>
      Present(angles, FeedbackJoints(Pushup)) && Mean(angles, LeftElbow, RightElbow).value > PushupDown
    ensures KeepBodyStraight in r.feedback <==>
      Present(angles, FeedbackJoints(Pushup)) && Spread(angles, LeftHip, RightHip).value > PushupHipVariance
    ensures !Present(angles, FeedbackJoints(Pushup)) ==> r == FormReport(0, [])
    ensures r.confidence <= 100
    ensures NonNegative(angles) ==> 0 <= r.confidence
  {
    match (Mean(angles, LeftElbow, RightElbow), Spread(angles, LeftHip, RightHip))
    case (Some(elbow), Some(hipDiff)) =>
      var depthScore := Min(100.0, elbow / PushupDown * 100.0);
      var hipScore := Max(0.0, 100.0 - hipDiff / PushupHipVariance * 100.0);
      FormReport(Trunc((depthScore + hipScore) / 2.0),
        (if elbow > PushupDown then [LowerChest] else [])
        + (if hipDiff > PushupHipVariance then [KeepBodyStraight] else []))
    case _ => FormReport(0, [])
  }

  function JumpingJackScore(angles: Angles): (r: FormReport)
    ensures forall m :: m in r.feedback ==> m == RaiseArms
    ensures |r.feedback| <= 1
    ensures RaiseArms in r.feedback <==>
      Present(angles, FeedbackJoints(JumpingJack)) && Mean(angles, LeftShoulder, RightShoulder).value < JumpingJackUp
    ensures !Present(angles, FeedbackJoints(JumpingJack)) ==> r == FormReport(0, [])
    ensures r.confidence <= 100
    ensures NonNegative(angles) ==> 0 <= r.confidence
  {
    match Mean(angles, LeftShoulder, RightShoulder)
    case Some(shoulder) =>
      FormReport(Trunc(Min(100.0, shoulder / JumpingJackUp * 100.0)),
        if shoulder < JumpingJackUp then [RaiseArms] else [])
    case None => FormReport(0, [])
  }

  /** The seven correction messages. */
  predicate IsCorrection(m: string) {
    m == RaiseKnee || m == KeepHipsLevel || m == SquatDeeper || m == KeepKneesAligned
    || m == LowerChest || m == KeepBodyStraight || m == RaiseArms
  }

  /** get_form_feedback: a confidence score and a never-empty list of
      messages.  It depends on the exercise and the angles only.  Each
      correction appears exactly when its criterion fails; with missing
      inputs or an unknown exercise the result is (0, ["Form looks good!"]). */
  function GetFormFeedback(exercise: string, angles: Angles): (r: FormReport)
    ensures 1 <= |r.feedback| <= 2
    ensures forall m :: m in r.feedback ==> IsCorrection(m) || m == FormLooksGood
    ensures FormLooksGood in r.feedback ==> r.feedback == [FormLooksGood]
    ensures |r.feedback| == 2 ==>
      r.feedback == [RaiseKnee, KeepHipsLevel] || r.feedback == [SquatDeeper, KeepKneesAligned]
      || r.feedback == [LowerChest, KeepBodyStraight]
    ensures !Present(angles, FeedbackJoints(exercise)) ==> r == FormReport(0, [FormLooksGood])
    ensures exercise !in Catalog ==> r == FormReport(0, [FormLooksGood])
    ensures r.confidence <= 100
    ensures NonNegative(angles) ==> 0 <= r.confidence
    ensures RaiseKnee in r.feedback <==>
      exercise == TreePose && Present(angles, FeedbackJoints(TreePose))
      && Spread(angles, LeftKnee, RightKnee).value < TreeKneeBend
    ensures KeepHipsLevel in r.feedback <==>
      exercise == TreePose && Present(angles, FeedbackJoints(TreePose))
      && Spread(angles, LeftHip, RightHip).value > TreeHipVariance
    ensures SquatDeeper in r.feedback <==>
      exercise == Squat && Present(angles, FeedbackJoints(Squat))
      && Mean(angles, LeftKnee, RightKnee).value > SquatDown
    ensures KeepKneesAligned in r.feedback <==>
      exercise == Squat && Present(angles, FeedbackJoints(Squat))
      && Spread(angles, LeftKnee, RightKnee).value > SquatKneeAlignment
    ensures LowerChest in r.feedback <==>
      exercise == Pushup && Present(angles, FeedbackJoints(Pushup))
      && Mean(angles, LeftElbow, RightElbow).value > PushupDown
    ensures KeepBodyStraight in r.feedback <==>
      exercise == Pushup && Present(angles, FeedbackJoints(Pushup))
      && Spread(angles, LeftHip, RightHip).value > PushupHipVariance
    ensures RaiseArms in r.feedback <==>
      exercise == JumpingJack && Present(angles, FeedbackJoints(JumpingJack))
      && Mean(angles, LeftShoulder, RightShoulder).value < JumpingJackUp
  {
    var scored :=
      if exercise == TreePose then TreePoseScore(angles)
      else if exercise == Squat then SquatScore(angles)
      else if exercise == Pushup then PushupScore(angles)
      else if exercise == JumpingJack then JumpingJackScore(angles)
      else FormReport(0, []);
    if scored.feedback == [] then FormReport(scored.confidence, [FormLooksGood]) else scored
  }

  // ---------------------------------------------------------------------
  // What the confidence rewards
  // ---------------------------------------------------------------------

  /** The squat depth term grows with the knee angle while "Squat deeper"
      is drawn by a large one: with aligned knees, the straighter the legs
      the higher the confidence. */
  lemma SquatScoreRisesAsKneesStraighten(a1: Angles, a2: Angles, k1: real, k2: real)
    requires Get(a1, LeftKnee) == Some(k1) && Get(a1, RightKnee) == Some(k1)
    requires Get(a2, LeftKnee) == Some(k2) && Get(a2, RightKnee) == Some(k2)
    requires 0.0 <= k1 <= k2
    ensures GetFormFeedback(Squat, a1).confidence <= GetFormFeedback(Squat, a2).confidence
  {
  }

  /** A shallow squat with aligned knees scores full marks, together with
      the correction "Squat deeper". */
  lemma ShallowSquatScoresFull(angles: Angles, knee: real)
    requires Get(angles, LeftKnee) == Some(knee) && Get(angles, RightKnee) == Some(knee)
    requires knee > SquatDown
    ensures GetFormFeedback(Squat, angles) == FormReport(100, [SquatDeeper])
  {
  }

  /** The same for a pushup with straight arms and level hips: full marks
      with "Lower your chest". */
  lemma StraightArmPushupScoresFull(angles: Angles, elbow: real, hip: real)
    requires Get(angles, LeftElbow) == Some(elbow) && Get(angles, RightElbow) == Some(elbow)
    requires Get(angles, LeftHip) == Some(hip) && Get(angles, RightHip) == Some(hip)
    requires elbow > PushupDown
    ensures GetFormFeedback(Pushup, angles) == FormReport(100, [LowerChest])
  {
  }

  /** A tree pose with the knee raised by at least 25 degrees and level hips
      scores full marks with no correction. */
  lemma LevelTreePoseScoresFull(angles: Angles, hip: real)
    requires Spread(angles, LeftKnee, RightKnee).Some? && Spread(angles, LeftKnee, RightKnee).value >= TreeKneeBend
    requires Get(angles, LeftHip) == Some(hip) && Get(angles, RightHip) == Some(hip)
    ensures GetFormFeedback(TreePose, angles) == FormReport(100, [FormLooksGood])
  {
  }
}
