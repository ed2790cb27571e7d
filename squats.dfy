/** The squat counter of squats.py: the `per`/`direction` machine on the right knee gated by a
    standing form latch, with the knee, heel and chest feedback that follows it. As written, the
    bottom test asks for a knee angle that `per == 100` already excludes and the top test for one
    that `per == 0` excludes, so no squat is ever attempted or counted; the model keeps the code
    as written and proves that consequence. */
module Squats {
  import opened Common

  /** The six angles the script reads: knee, hip and ankle of each leg. */
  datatype SquatPose = SquatPose(rightKnee: real, rightHip: real, rightAnkle: real,
                                 leftKnee: real, leftHip: real, leftAnkle: real)

  /** The script's globals. `reachedBottom` is None while the name `reached_bottom` has never
      been bound (the script does not initialise it). The counters are plain integers, bounded
      by `Counters`. */
  datatype State = State(attempts: int, count: int, direction: int, form: bool, reachedHalfway: bool,
                         reachedBottom: Option<bool>, successRate: real, feedback: string)

  const Initial: State := State(0, 0, 0, false, false, None, 0.0, "Fix Form")

  /** `per` on the progress bar: the right knee over [85, 170] onto [0, 100]. */
  function Progress(a: SquatPose): real {
    Percent(a.rightKnee, 85.0, 170.0)
  }

  /** The standing baseline that sets the form latch: knees and hips above 160, ankles above 80. */
  predicate Baseline(a: SquatPose) {
    a.rightKnee > 160.0 && a.rightHip > 160.0 && a.rightAnkle > 80.0 &&
    a.leftKnee > 160.0 && a.leftHip > 160.0 && a.leftAnkle > 80.0
  }

  /** Both thighs parallel: both knees in [80, 120]. */
  predicate Parallel(a: SquatPose) {
    80.0 <= a.rightKnee <= 120.0 && 80.0 <= a.leftKnee <= 120.0
  }

  /** Standing straight: knees and hips above 160. */
  predicate Upright(a: SquatPose) {
    a.rightKnee > 160.0 && a.rightHip > 160.0 && a.leftKnee > 160.0 && a.leftHip > 160.0
  }

  /** The knees differ by more than 15 degrees. */
  predicate KneesUneven(a: SquatPose) {
    a.rightKnee < a.leftKnee - 15.0 || a.leftKnee < a.rightKnee - 15.0
  }

  /** An ankle below 70 degrees. */
  predicate HeelsUp(a: SquatPose) {
    a.rightAnkle < 70.0 || a.leftAnkle < 70.0
  }

  /** A hip below 45 degrees. */
  predicate ChestDown(a: SquatPose) {
    a.rightHip < 45.0 || a.leftHip < 45.0
  }

  /** `direction` is 0 or 1, and it is 1 only after `reached_bottom` was set, so the test
      `direction == 1 and reached_bottom` never reads an unbound name. */
  predicate Counters(s: State) {
    0 <= s.direction <= 1 &&
    (s.direction == 1 ==> s.reachedBottom == Some(true)) &&
    0 <= s.count <= s.attempts &&
    0.0 <= s.successRate <= 100.0
  }

  /** With the latch set, a parallel bottom while going down: `direction` turns to 1. */
  predicate BottomStep(s: State, a: SquatPose) {
    (s.form || Baseline(a)) && Progress(a) == 100.0 && Parallel(a) && s.direction == 0
  }

  /** With the latch set, upright at the top after a bottom: a squat is counted. */
  predicate TopStep(s: State, a: SquatPose) {
    (s.form || Baseline(a)) && Progress(a) == 0.0 && Upright(a) &&
    s.direction == 1 && s.reachedBottom == Some(true)
  }

  /** With the latch set, upright at the top after passing halfway without a bottom: an attempt. */
  predicate HalfwayStep(s: State, a: SquatPose) {
    (s.form || Baseline(a)) && Progress(a) == 0.0 && Upright(a) &&
    s.direction == 0 && s.reachedHalfway
  }

  /** The feedback of the bottom and top checks, before the form-issue overrides. */
  function Stage(fb: string, a: SquatPose): (r: string)
    ensures Progress(a) == 100.0 ==> r == (if Parallel(a) then "Up" else "Go Lower")
    ensures Progress(a) == 0.0 ==> r == (if Upright(a) then "Down" else "Stand Up Straight")
    ensures 0.0 < Progress(a) < 100.0 ==> r == fb
  {
    var p := Progress(a);
    var f1 := if p == 100.0 then (if Parallel(a) then "Up" else "Go Lower") else fb;
    if p == 0.0 then (if Upright(a) then "Down" else "Stand Up Straight") else f1
  }

  /** The form-issue checks, in order, applied to the feedback of the stage checks. */
  function Issues(fb: string, a: SquatPose): (r: string)
    // uneven knees override everything; heels and chest are checked only past halfway
    ensures KneesUneven(a) ==> r == "Knees Even"
    ensures !KneesUneven(a) && HeelsUp(a) && Progress(a) > 50.0 ==> r == "Heels Down"
    ensures (!KneesUneven(a) && !(HeelsUp(a) && Progress(a) > 50.0) && ChestDown(a) &&
             Progress(a) > 50.0) ==> r == "Chest Up"
    ensures Progress(a) <= 50.0 && !KneesUneven(a) ==> r == fb
    ensures r == fb || r in {"Knees Even", "Heels Down", "Chest Up"}
  {
    var p := Progress(a);
    if KneesUneven(a) then "Knees Even"
    else if HeelsUp(a) && p > 50.0 then "Heels Down"
    else if ChestDown(a) && p > 50.0 then "Chest Up"
    else fb
  }

  /** The frame loop's body on a frame with landmarks. */
  function Move(s: State, a: SquatPose): (r: State)
    requires Counters(s)
    // the rate is refreshed first, from the counters as they stand
    ensures r.successRate == SuccessRate(s.successRate, s.count, s.attempts)
    // the latch is set by the standing baseline, is never released, and gates everything else
    ensures r.form == (s.form || Baseline(a))
    ensures !r.form ==> r == s.(successRate := r.successRate)
    // `reached_halfway` is set from `per >= 50` and never cleared
    ensures r.reachedHalfway == (s.reachedHalfway || (r.form && Progress(a) >= 50.0))
    ensures r.direction == (if BottomStep(s, a) then 1 else if TopStep(s, a) then 0 else s.direction)
    ensures r.count == (if TopStep(s, a) then s.count + 1 else s.count)
    ensures r.attempts == (if TopStep(s, a) || HalfwayStep(s, a) then s.attempts + 1 else s.attempts)
    ensures r.reachedBottom ==
              (if BottomStep(s, a) then Some(true) else if TopStep(s, a) then Some(false) else s.reachedBottom)
    ensures r.form ==> r.feedback == Issues(Stage(s.feedback, a), a)
    ensures Counters(r)
  {
    var s1 := s.(successRate := SuccessRate(s.successRate, s.count, s.attempts),
                 form := s.form || Baseline(a));
    if !s1.form then s1
    else
      var s2 := if Progress(a) >= 50.0 then s1.(reachedHalfway := true) else s1;
      var s4 := AtTop(AtBottom(s2, a, Progress(a)), a, Progress(a));
      s4.(feedback := Issues(s4.feedback, a))
  }

  /** The bottom check, `per == 100`, on the value `per` computed for the frame. */
  function AtBottom(s: State, a: SquatPose, per: real): (r: State)
    // only `direction`, `reached_bottom` and the feedback can change
    ensures r == s.(direction := r.direction, reachedBottom := r.reachedBottom, feedback := r.feedback)
    // a parallel bottom while going down turns `direction` to 1 and binds `reached_bottom`
    ensures per == 100.0 && Parallel(a) && s.direction == 0 ==> r.direction == 1 && r.reachedBottom == Some(true)
    ensures !(per == 100.0 && Parallel(a) && s.direction == 0) ==>
              r.direction == s.direction && r.reachedBottom == s.reachedBottom
    ensures r.feedback == (if per != 100.0 then s.feedback else if Parallel(a) then "Up" else "Go Lower")
  {
    if per == 100.0 then
      if Parallel(a) then
        if s.direction == 0 then s.(feedback := "Up", reachedBottom := Some(true), direction := 1)
        else s.(feedback := "Up")
      else s.(feedback := "Go Lower")
    else s
  }

  /** The top check, `per == 0`, on the value `per` computed for the frame. */
  function AtTop(s: State, a: SquatPose, per: real): (r: State)
    // only the counters, `direction`, `reached_bottom` and the feedback can change
    ensures r == s.(count := r.count, attempts := r.attempts, direction := r.direction,
                    reachedBottom := r.reachedBottom, feedback := r.feedback)
    // upright after a bottom: a counted squat, which is also an attempt, and the cycle restarts
    ensures per == 0.0 && Upright(a) && s.direction == 1 && s.reachedBottom == Some(true) ==>
              r.count == s.count + 1 && r.attempts == s.attempts + 1 &&
              r.direction == 0 && r.reachedBottom == Some(false)
    // upright after halfway without a bottom: an attempt only
    ensures per == 0.0 && Upright(a) && s.direction == 0 && s.reachedHalfway ==>
              r.count == s.count && r.attempts == s.attempts + 1 &&
              r.direction == s.direction && r.reachedBottom == s.reachedBottom
    ensures !(per == 0.0 && Upright(a) && ((s.direction == 1 && s.reachedBottom == Some(true)) ||
                                          (s.direction == 0 && s.reachedHalfway))) ==>
              r.count == s.count && r.attempts == s.attempts &&
              r.direction == s.direction && r.reachedBottom == s.reachedBottom
    ensures r.feedback == (if per != 0.0 then s.feedback else if Upright(a) then "Down" else "Stand Up Straight")
  {
    if per == 0.0 then
      if Upright(a) then
        if s.direction == 1 && s.reachedBottom == Some(true) then
          s.(feedback := "Down", count := s.count + 1, attempts := s.attempts + 1,
             direction := 0, reachedBottom := Some(false))
        else if s.direction == 0 && s.reachedHalfway then
          s.(feedback := "Down", attempts := s.attempts + 1)
        else s.(feedback := "Down")
      else s.(feedback := "Stand Up Straight")
    else s
  }

  /** One pass of the frame loop: a frame without landmarks changes nothing. */
  function Next(s: State, f: Frame<SquatPose>): (r: State)
    requires Counters(s)
    ensures f.pose.None? ==> r == s
    ensures Counters(r)
  {
    match f.pose
    case None => s
    case Some(a) => Move(s, a)
  }

  /** `per == 100` needs the right knee at 170 or more, outside the parallel band. */
  lemma {:induction false} BottomUnreachable(s: State, a: SquatPose)
    ensures !BottomStep(s, a)
  {
    if Progress(a) == 100.0 {
      assert a.rightKnee >= 170.0;
    }
  }

  /** `per == 0` needs the right knee at 85 or less, so it is not upright. */
  lemma {:induction false} TopUnreachable(s: State, a: SquatPose)
    ensures !TopStep(s, a) && !HalfwayStep(s, a)
  {
    if Progress(a) == 0.0 {
      assert a.rightKnee <= 85.0;
    }
  }

  /** At the bottom of the bar the feedback is "Go Lower" and at the top "Stand Up Straight",
      unless a form issue overrides it. */
  lemma {:induction false} StageAsWritten(fb: string, a: SquatPose)
    ensures Progress(a) == 100.0 ==> Stage(fb, a) == "Go Lower"
    ensures Progress(a) == 0.0 ==> Stage(fb, a) == "Stand Up Straight"
  {
    if Progress(a) == 100.0 {
      assert a.rightKnee >= 170.0;
    }
    if Progress(a) == 0.0 {
      assert a.rightKnee <= 85.0;
    }
  }

  /** No frame changes `count`, `attempts`, `direction` or `reached_bottom`. */
  lemma {:induction false} MoveNeverCounts(s: State, a: SquatPose)
    requires Counters(s)
    ensures var r := Move(s, a);
            r.count == s.count && r.attempts == s.attempts && r.direction == s.direction &&
            r.reachedBottom == s.reachedBottom
  {
    BottomUnreachable(s, a);
    TopUnreachable(s, a);
  }

  /** The state after a run of frames. */
  function Trace(s: State, fs: seq<Frame<SquatPose>>): (t: State)
    requires Counters(s)
    ensures Counters(t)
    decreases |fs|
  {
    if fs == [] then s else Next(Trace(s, fs[..|fs| - 1]), fs[|fs| - 1])
  }

  /** From the start of a session, whatever the frames: `count` and `attempts` stay 0, the
      rate stays 0, `direction` stays 0 and `reached_bottom` is never bound. */
  lemma {:induction false} NeverCounts(fs: seq<Frame<SquatPose>>)
    ensures var t := Trace(Initial, fs);
            t.count == 0 && t.attempts == 0 && t.direction == 0 && t.reachedBottom == None &&
            t.successRate == 0.0
    decreases |fs|
  {
    if fs != [] {
      var init := fs[..|fs| - 1];
      NeverCounts(init);
      var t := Trace(Initial, init);
      if fs[|fs| - 1].pose.Some? {
        MoveNeverCounts(t, fs[|fs| - 1].pose.value);
      }
    }
  }

  /** `reached_halfway` is never cleared over a run. */
  lemma {:induction false} HalfwaySticks(s: State, fs: seq<Frame<SquatPose>>)
    requires Counters(s) && s.reachedHalfway
    ensures Trace(s, fs).reachedHalfway
    decreases |fs|
  {
    if fs != [] {
      HalfwaySticks(s, fs[..|fs| - 1]);
    }
  }

  /** The script's globals, updated in place frame by frame. */
  class Session {
    var attempts: int
    var count: int
    var direction: int
    var form: bool
    var reachedHalfway: bool
    var reachedBottom: Option<bool>
    var successRate: real
    var feedback: string

    constructor ()
      ensures Snapshot() == Initial
    {
      attempts, count, direction, form := 0, 0, 0, false;
      reachedHalfway, reachedBottom, successRate := false, None, 0.0;
      feedback := "Fix Form";
    }

    function Snapshot(): State
      reads this
    {
      State(attempts, count, direction, form, reachedHalfway, reachedBottom, successRate, feedback)
    }

    /** The body of the frame loop for one frame. */
    method Step(f: Frame<SquatPose>)
      requires Counters(Snapshot())
      modifies this
      ensures Snapshot() == Next(old(Snapshot()), f)
    {
      if f.pose.None? {
        return;
      }
      var a := f.pose.value;
      ghost var s0 := Snapshot();
      if count > 0 {
        successRate := (count as real) / (attempts as real) * 100.0;
      }
      var per := Progress(a);
      if a.rightKnee > 160.0 && a.rightHip > 160.0 && a.rightAnkle > 80.0 &&
         a.leftKnee > 160.0 && a.leftHip > 160.0 && a.leftAnkle > 80.0 {
        form := true;
      }
      assert Snapshot() == s0.(successRate := SuccessRate(s0.successRate, s0.count, s0.attempts),
                               form := s0.form || Baseline(a));
      if form {
        if per >= 50.0 {
          reachedHalfway := true;
        }
        BottomBlock(a, per);
        TopBlock(a, per);
        IssuesBlock(a, per);
      }
      assert Snapshot() == Move(s0, a);
    }

    /** The form-issue checks of the loop body. */
    method IssuesBlock(a: SquatPose, per: real)
      requires per == Progress(a)
      modifies this
      ensures Snapshot() == old(Snapshot()).(feedback := Issues(old(feedback), a))
    {
      if a.rightKnee < a.leftKnee - 15.0 || a.leftKnee < a.rightKnee - 15.0 {
        feedback := "Knees Even";
      } else if (a.rightAnkle < 70.0 || a.leftAnkle < 70.0) && per > 50.0 {
        feedback := "Heels Down";
      } else if (a.rightHip < 45.0 || a.leftHip < 45.0) && per > 50.0 {
        feedback := "Chest Up";
      }
    }

    /** The bottom check of the loop body. */
    method BottomBlock(a: SquatPose, per: real)
      modifies this
      ensures Snapshot() == AtBottom(old(Snapshot()), a, per)
    {
      if per == 100.0 {
        if 80.0 <= a.rightKnee <= 120.0 && 80.0 <= a.leftKnee <= 120.0 {
          feedback := "Up";
          if direction == 0 {
            reachedBottom := Some(true);
            direction := 1;
          }
        } else {
          feedback := "Go Lower";
        }
      }
    }

    /** The top check of the loop body. */
    method TopBlock(a: SquatPose, per: real)
      modifies this
      ensures Snapshot() == AtTop(old(Snapshot()), a, per)
    {
      if per == 0.0 {
        if a.rightKnee > 160.0 && a.rightHip > 160.0 && a.leftKnee > 160.0 && a.leftHip > 160.0 {
          feedback := "Down";
          if direction == 1 && reachedBottom == Some(true) {
            count := count + 1;
            attempts := attempts + 1;
            direction := 0;
            reachedBottom := Some(false);
          } else if direction == 0 && reachedHalfway {
            attempts := attempts + 1;
          }
        } else {
          feedback := "Stand Up Straight";
        }
      }
    }

    /** The frame loop: one Step per captured frame, in order. */
    method Run(frames: seq<Frame<SquatPose>>)
      requires Counters(Snapshot())
      modifies this
      ensures Counters(Snapshot())
      ensures Snapshot() == Trace(old(Snapshot()), frames)
    {
      ghost var s0 := Snapshot();
      var i := 0;
      while i < |frames|
        invariant 0 <= i <= |frames|
        invariant Snapshot() == Trace(s0, frames[..i])
      {
        assert frames[..i + 1][..i] == frames[..i];
        Step(frames[i]);
        i := i + 1;
      }
      assert frames[..i] == frames;
    }
  }
}
