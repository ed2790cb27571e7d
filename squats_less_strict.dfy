/** The squat counter of squats_less_strict.py: a started/valid machine on both knees with
    per-squat timing and the success rate, with no form gating and no speech. */
module SquatsLessStrict {
  import opened Common

  /** The script's counting globals: `started` and `valid` are `squat_started` and
      `squat_valid`. The `form` global is never read or written after its declaration. */
  datatype State = State(attempts: nat, count: nat, started: bool, valid: bool, startTime: real,
                         squatTimes: seq<real>, successRate: real, feedback: string)

  const Initial: State := State(0, 0, false, false, 0.0, [], 0.0, "Fix Form")

  /** Both knees below 130: a squat begins. */
  predicate Bent(a: LegPose) { a.leftKnee < 130.0 && a.rightKnee < 130.0 }

  /** Both thighs parallel to the ground: both knees at 90 or less. */
  predicate Parallel(a: LegPose) { a.leftKnee <= 90.0 && a.rightKnee <= 90.0 }

  /** Both knees above 160: standing. */
  predicate Standing(a: LegPose) { a.leftKnee > 160.0 && a.rightKnee > 160.0 }

  /** A valid squat is a started one; counted squats and the open one are attempts; one duration
      per counted squat; the rate is a percentage. */
  predicate Counters(s: State) {
    (s.valid ==> s.started) &&
    s.count + (if s.started then 1 else 0) <= s.attempts &&
    |s.squatTimes| == s.count &&
    0.0 <= s.successRate <= 100.0
  }

  /** Nothing that counts squats changed between two states. */
  predicate Frozen(s: State, t: State) {
    t.attempts == s.attempts && t.count == s.count && t.started == s.started &&
    t.valid == s.valid && t.startTime == s.startTime && t.squatTimes == s.squatTimes
  }

  /** Knees bent while no squat is open: a squat starts. */
  predicate StartStep(s: State, a: LegPose) {
    Bent(a) && !s.started
  }

  /** An open squat and both knees straight: the squat completes. */
  predicate CompleteStep(s: State, a: LegPose) {
    s.started && Standing(a)
  }

  /** The frame loop's body on a frame with landmarks. */
  function Move(s: State, a: LegPose, now: real): (r: State)
    requires s.count <= s.attempts
    // a squat starts once per cycle: attempts rise only when no squat is open
    ensures r.attempts == (if StartStep(s, a) then s.attempts + 1 else s.attempts)
    ensures r.startTime == (if StartStep(s, a) then now else s.startTime)
    ensures r.started == (!CompleteStep(s, a) && (s.started || StartStep(s, a)))
    // the valid flag is sticky within a squat and cleared by its completion
    ensures r.valid == (!CompleteStep(s, a) && (s.valid || ((s.started || Bent(a)) && Parallel(a))))
    // a completion counts, and times, exactly the valid squats
    ensures r.count == (if CompleteStep(s, a) && s.valid then s.count + 1 else s.count)
    ensures r.squatTimes ==
              (if CompleteStep(s, a) && s.valid then s.squatTimes + [now - s.startTime] else s.squatTimes)
    // the rate is recomputed only once a squat has been counted, from the counters before the frame
    ensures s.count == 0 ==> r.successRate == s.successRate
    ensures s.count > 0 ==> r.successRate * (s.attempts as real) == (s.count as real) * 100.0
    ensures Counters(s) ==> Counters(r)
  {
    var s1 := s.(successRate := SuccessRate(s.successRate, s.count, s.attempts));
    var s2 := if Bent(a) && !s1.started
              then s1.(started := true, attempts := s1.attempts + 1, startTime := now,
                       feedback := "Attempt Started")
              else s1;
    var s3 := if s2.started && Parallel(a) then s2.(valid := true, feedback := "Good Squat") else s2;
    if s3.started && Standing(a) then
      if s3.valid then
        s3.(count := s3.count + 1, squatTimes := s3.squatTimes + [now - s3.startTime],
            feedback := "Squat Counted", valid := false, started := false)
      else s3.(started := false)
    else s3
  }

  /** One pass of the frame loop: a frame without landmarks changes nothing. */
  function Next(s: State, f: Frame<LegPose>): (r: State)
    requires s.count <= s.attempts
    ensures f.pose.None? ==> r == s
    ensures Counters(s) ==> Counters(r)
  {
    match f.pose
    case None => s
    case Some(a) => Move(s, a, f.now)
  }

  /** Counting is never gated on form: the hip angles have no influence on the frame. */
  lemma HipsIgnored(s: State, a: LegPose, rightHip: real, leftHip: real, now: real)
    requires s.count <= s.attempts
    ensures Move(s, a.(rightHip := rightHip, leftHip := leftHip), now) == Move(s, a, now)
  {
  }

  /** A frame with both knees between 130 and 160 changes no counter, flag, time or text. */
  lemma {:induction false} MiddleBandChangesNothing(s: State, a: LegPose, now: real)
    requires s.count <= s.attempts
    requires 130.0 <= a.leftKnee <= 160.0 && 130.0 <= a.rightKnee <= 160.0
    ensures Frozen(s, Move(s, a, now)) && Move(s, a, now).feedback == s.feedback
  {
    assert !Bent(a) && !Parallel(a) && !Standing(a);
  }

  /** The state after a run of frames. */
  function Trace(s: State, fs: seq<Frame<LegPose>>): (t: State)
    requires Counters(s)
    ensures Counters(t)
    decreases |fs|
  {
    if fs == [] then s else Next(Trace(s, fs[..|fs| - 1]), fs[|fs| - 1])
  }

  /** `count` and `attempts` never decrease over a run. */
  lemma {:induction false} CountersMonotone(s: State, fs: seq<Frame<LegPose>>)
    requires Counters(s)
    ensures Trace(s, fs).count >= s.count && Trace(s, fs).attempts >= s.attempts
    decreases |fs|
  {
    if fs != [] {
      CountersMonotone(s, fs[..|fs| - 1]);
    }
  }

  /** The counting globals of the script, updated in place frame by frame. */
  class Session {
    var attempts: nat
    var count: nat
    var started: bool
    var valid: bool
    var startTime: real
    var squatTimes: seq<real>
    var successRate: real
    var feedback: string

    constructor ()
      ensures Snapshot() == Initial
    {
      attempts, count, started, valid := 0, 0, false, false;
      startTime, squatTimes, successRate := 0.0, [], 0.0;
      feedback := "Fix Form";
    }

    function Snapshot(): State
      reads this
    {
      State(attempts, count, started, valid, startTime, squatTimes, successRate, feedback)
    }

    /** The body of the frame loop for one frame. */
    method Step(f: Frame<LegPose>)
      requires Counters(Snapshot())
      modifies this
      ensures Snapshot() == Next(old(Snapshot()), f)
    {
      if f.pose.None? {
        return;
      }
      var a := f.pose.value;
      ghost var s0 := Snapshot();
      if count > 0 {
        successRate := (count as real) / (attempts as real) * 100.0;
      }
      assert Snapshot() == s0.(successRate := SuccessRate(s0.successRate, s0.count, s0.attempts));
      var leftThighParallel := a.leftKnee <= 90.0;
      var rightThighParallel := a.rightKnee <= 90.0;
      if a.leftKnee < 130.0 && a.rightKnee < 130.0 {
        if !started {
          started := true;
          attempts := attempts + 1;
          startTime := f.now;
          feedback := "Attempt Started";
        }
      }
      if started && leftThighParallel && rightThighParallel {
        valid := true;
        feedback := "Good Squat";
      }
      if started && (a.leftKnee > 160.0 && a.rightKnee > 160.0) {
        if valid {
          count := count + 1;
          var duration := f.now - startTime;
          squatTimes := squatTimes + [duration];
          feedback := "Squat Counted";
          valid := false;
        }
        started := false;
      }
    }

    /** The frame loop: one Step per captured frame, in order. */
    method Run(frames: seq<Frame<LegPose>>)
      requires Counters(Snapshot())
      modifies this
      ensures Counters(Snapshot())
      ensures Snapshot() == Trace(old(Snapshot()), frames)
    {
      ghost var s0 := Snapshot();
      var i := 0;
      while i < |frames|
        invariant 0 <= i <= |frames|
        invariant Snapshot() == Trace(s0, frames[..i])
      {
        assert frames[..i + 1][..i] == frames[..i];
        Step(frames[i]);
        i := i + 1;
      }
      assert frames[..i] == frames;
    }
  }
}
