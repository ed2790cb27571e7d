/** The push-up counter of integrate/push_up.py: the two-phase machine with the form latch, the
    halfway flag, attempts and the success rate, without timing and without speech. */
module IntegratePushUp {
  import opened Common

  /** The script's counting globals. */
  datatype State = State(attempts: nat, count: nat, direction: nat, form: bool,
                         reachedHalfway: bool, successRate: real, feedback: string)

  const Initial: State := State(0, 0, 0, false, false, 0.0, "Fix Form")

  /** `per`: the right elbow over [90, 160] onto [0, 100]. */
  function Progress(a: ArmPose): real {
    Percent(a.rightElbow, 90.0, 160.0)
  }

  /** `direction` is 0 or 1, every attempt is counted or still open, nothing moves before the
      form latch, the rate is a percentage. */
  predicate Counters(s: State) {
    s.direction <= 1 &&
    s.attempts == s.count + s.direction &&
    0.0 <= s.successRate <= 100.0 &&
    (s.reachedHalfway || s.attempts > 0 ==> s.form)
  }

  /** Nothing that counts reps changed between two states. */
  predicate Frozen(s: State, t: State) {
    t.attempts == s.attempts && t.count == s.count && t.direction == s.direction &&
    t.reachedHalfway == s.reachedHalfway
  }

  /** Latched form, `per == 0`, arms bent with straight hips, `direction == 0`, halfway seen. */
  predicate AttemptStep(s: State, a: ArmPose) {
    (s.form || ArmsExtended(a)) && Progress(a) == 0.0 && ArmsBent(a) &&
    s.direction == 0 && s.reachedHalfway
  }

  /** `per == 100` with the full baseline and `direction == 1`. */
  predicate CountStep(s: State, a: ArmPose) {
    Progress(a) == 100.0 && ArmsExtended(a) && s.direction == 1
  }

  /** `per == 0`: the bent-arm branch. */
  function AtBent(s: State, a: ArmPose): (r: State)
    ensures r.form == s.form && r.count == s.count && r.successRate == s.successRate
    ensures if ArmsBent(a) && s.direction == 0 && s.reachedHalfway
            then r.attempts == s.attempts + 1 && r.direction == 1 && !r.reachedHalfway
            else r.attempts == s.attempts && r.direction == s.direction && r.reachedHalfway == s.reachedHalfway
    ensures r.feedback == (if ArmsBent(a) then "Up" else "Fix Form")
  {
    if ArmsBent(a) then
      if s.direction == 0 && s.reachedHalfway then
        s.(feedback := "Up", direction := 1, attempts := s.attempts + 1, reachedHalfway := false)
      else s.(feedback := "Up")
    else s.(feedback := "Fix Form")
  }

  /** `per == 100`: the extended-arm branch. */
  function AtExtended(s: State, a: ArmPose): (r: State)
    ensures r.form == s.form && r.attempts == s.attempts && r.reachedHalfway == s.reachedHalfway
    ensures r.successRate == s.successRate
    ensures if ArmsExtended(a) && s.direction == 1
            then r.count == s.count + 1 && r.direction == 0
            else r.count == s.count && r.direction == s.direction
    ensures r.feedback == (if ArmsExtended(a) then "Down" else "Fix Form")
  {
    if ArmsExtended(a) then
      if s.direction == 1 then s.(feedback := "Down", count := s.count + 1, direction := 0)
      else s.(feedback := "Down")
    else s.(feedback := "Fix Form")
  }

  /** The frame loop's body on a frame with landmarks. */
  function Move(s: State, a: ArmPose): (r: State)
    requires s.count <= s.attempts
    // the form latch is set by the baseline and never released, and gates all counting
    ensures r.form == (s.form || ArmsExtended(a))
    ensures !r.form ==> Frozen(s, r) && r.feedback == s.feedback
    // attempts rise by one exactly on an attempt step, which opens the rep
    ensures r.attempts == (if AttemptStep(s, a) then s.attempts + 1 else s.attempts)
    ensures AttemptStep(s, a) ==> r.direction == 1
    // the halfway flag is raised by `per >= 50` under the latch and lowered only by an attempt step
    ensures r.reachedHalfway == (!AttemptStep(s, a) && (s.reachedHalfway || (r.form && Progress(a) >= 50.0)))
    // count rises by one exactly on a count step, which closes the rep
    ensures r.count == (if CountStep(s, a) then s.count + 1 else s.count)
    ensures CountStep(s, a) ==> r.direction == 0
    // at `per == 100` without the strict baseline the feedback is "Fix Form"
    ensures r.form && Progress(a) == 100.0 && !ArmsExtended(a) ==> r.feedback == "Fix Form"
    // the rate is recomputed only when a rep has been counted, from the counters before the frame
    ensures s.count == 0 ==> r.successRate == s.successRate
    ensures s.count > 0 ==> r.successRate * (s.attempts as real) == (s.count as real) * 100.0
    ensures Counters(s) ==> Counters(r)
  {
    var per := Progress(a);
    var s1 := s.(successRate := SuccessRate(s.successRate, s.count, s.attempts),
                 form := s.form || ArmsExtended(a));
    if !s1.form then s1
    else
      var s2 := if per >= 50.0 then s1.(reachedHalfway := true) else s1;
      var s3 := if per == 0.0 then AtBent(s2, a) else s2;
      if per == 100.0 then AtExtended(s3, a) else s3
  }

  /** One pass of the frame loop: a frame without landmarks changes nothing. */
  function Next(s: State, f: Frame<ArmPose>): (r: State)
    requires s.count <= s.attempts
    ensures f.pose.None? ==> r == s
    ensures r.form == (s.form || (f.pose.Some? && ArmsExtended(f.pose.value)))
    ensures !r.form ==> Frozen(s, r)
    ensures Counters(s) ==> Counters(r)
  {
    match f.pose
    case None => s
    case Some(a) => Move(s, a)
  }

  /** The state after a run of frames. */
  function Trace(s: State, fs: seq<Frame<ArmPose>>): (t: State)
    requires Counters(s)
    ensures Counters(t)
    decreases |fs|
  {
    if fs == [] then s else Next(Trace(s, fs[..|fs| - 1]), fs[|fs| - 1])
  }

  /** An elbow at exactly 160 degrees reads as fully extended (`per == 100`) but fails the
      strict `> 160` baseline: the frame shows "Fix Form" and counts nothing. */
  lemma ElbowAtThreshold(s: State, a: ArmPose)
    requires Counters(s) && s.form && a.rightElbow == 160.0
    ensures Progress(a) == 100.0
    ensures Move(s, a).feedback == "Fix Form"
    ensures Move(s, a).count == s.count
  {
    assert !ArmsExtended(a);
  }

  /** Until the form latch is set nothing that counts reps moves, however many frames pass. */
  lemma {:induction false} FormGatesCounting(s: State, fs: seq<Frame<ArmPose>>)
    requires Counters(s)
    requires !Trace(s, fs).form
    ensures Frozen(s, Trace(s, fs))
    decreases |fs|
  {
    if fs != [] {
      var init := fs[..|fs| - 1];
      assert !Trace(s, init).form;
      FormGatesCounting(s, init);
    }
  }

  /** Once latched, the form flag stays set for the rest of the session. */
  lemma {:induction false} FormStaysLatched(s: State, fs: seq<Frame<ArmPose>>)
    requires Counters(s) && s.form
    ensures Trace(s, fs).form
    decreases |fs|
  {
    if fs != [] {
      FormStaysLatched(s, fs[..|fs| - 1]);
    }
  }

  /** The counting globals of the script, updated in place frame by frame. */
  class Session {
    var attempts: nat
    var count: nat
    var direction: nat
    var form: bool
    var reachedHalfway: bool
    var successRate: real
    var feedback: string

    constructor ()
      ensures Snapshot() == Initial
    {
      attempts, count, direction, form, reachedHalfway := 0, 0, 0, false, false;
      successRate := 0.0;
      feedback := "Fix Form";
    }

    function Snapshot(): State
      reads this
    {
      State(attempts, count, direction, form, reachedHalfway, successRate, feedback)
    }

    /** The body of the frame loop for one frame. */
    method Step(f: Frame<ArmPose>)
      requires Counters(Snapshot())
      modifies this
      ensures Snapshot() == Next(old(Snapshot()), f)
    {
      if f.pose.None? {
        return;
      }
      var a := f.pose.value;
      if count > 0 {
        successRate := (count as real) / (attempts as real) * 100.0;
      }
      var per := Percent(a.rightElbow, 90.0, 160.0);
      if ArmsExtended(a) {
        form := true;
      }
      if form {
        if per >= 50.0 {
          reachedHalfway := true;
        }
        if per == 0.0 {
          if ArmsBent(a) {
            feedback := "Up";
            if direction == 0 && reachedHalfway {
              direction := 1;
              attempts := attempts + 1;
              reachedHalfway := false;
            }
          } else {
            feedback := "Fix Form";
          }
        }
        if per == 100.0 {
          if ArmsExtended(a) {
            feedback := "Down";
            if direction == 1 {
              count := count + 1;
              direction := 0;
            }
          } else {
            feedback := "Fix Form";
          }
        }
      }
    }

    /** The frame loop: one Step per captured frame, in order. */
    method Run(frames: seq<Frame<ArmPose>>)
      requires Counters(Snapshot())
      modifies this
      ensures Counters(Snapshot())
      ensures Snapshot() == Trace(old(Snapshot()), frames)
    {
      ghost var s0 := Snapshot();
      var i := 0;
      while i < |frames|
        invariant 0 <= i <= |frames|
        invariant Snapshot() == Trace(s0, frames[..i])
      {
        assert frames[..i + 1][..i] == frames[..i];
        Step(frames[i]);
        i := i + 1;
      }
      assert frames[..i] == frames;
    }
  }
}
