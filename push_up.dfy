/** The minimal push-up counter of push_up.py: the form latch, `direction` and `count`, with no
    attempts, no halfway flag and no speech. */
module PushUp {
  import opened Common

  /** The script's globals: the rep counter, the phase, the 0/1 latch as a bool, the text. */
  datatype State = State(count: nat, direction: nat, form: bool, feedback: string)

  const Initial: State := State(0, 0, false, "Fix Form")

  /** `per`: the right elbow over [90, 160] onto [0, 100]. */
  function Progress(a: ArmPose): real {
    Percent(a.rightElbow, 90.0, 160.0)
  }

  /** `direction` is 0 or 1 and moves only under the form latch. */
  predicate Phase(s: State) {
    s.direction <= 1 && (s.direction == 1 ==> s.form)
  }

  /** Latched form, `per == 0`, arms bent with straight hips, `direction == 0`: the rep opens. */
  predicate OpenStep(s: State, a: ArmPose) {
    (s.form || ArmsExtended(a)) && Progress(a) == 0.0 && ArmsBent(a) && s.direction == 0
  }

  /** `per == 100` with the full baseline and `direction == 1`: the rep is counted. */
  predicate CountStep(s: State, a: ArmPose) {
    Progress(a) == 100.0 && ArmsExtended(a) && s.direction == 1
  }

  /** The frame loop's body on a frame with landmarks. */
  function Move(s: State, a: ArmPose): (r: State)
    // the form latch is set by the baseline, never released, and nothing moves before it
    ensures r.form == (s.form || ArmsExtended(a))
    ensures !r.form ==> r == s
    // the phase opens exactly on an open step and closes exactly on a count step
    ensures r.direction == (if OpenStep(s, a) then 1 else if CountStep(s, a) then 0 else s.direction)
    ensures r.count == (if CountStep(s, a) then s.count + 1 else s.count)
    ensures Phase(s) ==> Phase(r)
  {
    var per := Progress(a);
    var s1 := s.(form := s.form || ArmsExtended(a));
    if !s1.form then s1
    else
      var s2 :=
        if per == 0.0 then
          if ArmsBent(a) then
            if s1.direction == 0 then s1.(feedback := "Up", direction := 1) else s1.(feedback := "Up")
          else s1.(feedback := "Fix Form")
        else s1;
      if per == 100.0 then
        if ArmsExtended(a) then
          if s2.direction == 1 then s2.(feedback := "Down", count := s2.count + 1, direction := 0)
          else s2.(feedback := "Down")
        else s2.(feedback := "Fix Form")
      else s2
  }

  /** One pass of the frame loop: a frame without landmarks changes nothing. */
  function Next(s: State, f: Frame<ArmPose>): (r: State)
    ensures f.pose.None? ==> r == s
    ensures r.count >= s.count
    ensures Phase(s) ==> Phase(r)
  {
    match f.pose
    case None => s
    case Some(a) => Move(s, a)
  }

  /** `per == 0` already implies the right elbow is at 90 or less, so of the bent-arm test only
      the left elbow and the hips can fail. */
  lemma BentRightElbowImplied(a: ArmPose)
    requires Progress(a) == 0.0
    ensures ArmsBent(a) <==> a.leftElbow <= 90.0 && a.rightHip > 160.0 && a.leftHip > 160.0
  {
  }

  /** The state after a run of frames. */
  function Trace(s: State, fs: seq<Frame<ArmPose>>): (t: State)
    decreases |fs|
  {
    if fs == [] then s else Next(Trace(s, fs[..|fs| - 1]), fs[|fs| - 1])
  }

  /** How many frames of the run opened a rep (`direction` 0 to 1). */
  function Opens(s: State, fs: seq<Frame<ArmPose>>): nat
    decreases |fs|
  {
    if fs == [] then 0
    else
      var init := fs[..|fs| - 1];
      var f := fs[|fs| - 1];
      Opens(s, init) + (if f.pose.Some? && OpenStep(Trace(s, init), f.pose.value) then 1 else 0)
  }

  /** The phase invariant holds after any run. */
  lemma {:induction false} TracePhase(s: State, fs: seq<Frame<ArmPose>>)
    requires Phase(s)
    ensures Phase(Trace(s, fs))
    decreases |fs|
  {
    if fs != [] {
      TracePhase(s, fs[..|fs| - 1]);
    }
  }

  /** `count` never decreases over a run. */
  lemma {:induction false} CountMonotone(s: State, fs: seq<Frame<ArmPose>>)
    ensures Trace(s, fs).count >= s.count
    decreases |fs|
  {
    if fs != [] {
      CountMonotone(s, fs[..|fs| - 1]);
    }
  }

  /** Every count closes a rep that an earlier frame opened: count plus the open phase equals
      the number of openings, so count rises at most once per 0 -> 1 -> 0 cycle. */
  lemma {:induction false} CountsMatchOpens(s: State, fs: seq<Frame<ArmPose>>)
    requires Phase(s)
    ensures Trace(s, fs).count + Trace(s, fs).direction == s.count + s.direction + Opens(s, fs)
    ensures Trace(s, fs).count <= s.count + s.direction + Opens(s, fs)
    decreases |fs|
  {
    if fs != [] {
      var init := fs[..|fs| - 1];
      CountsMatchOpens(s, init);
      TracePhase(s, init);
    }
  }

  /** The script's globals, updated in place frame by frame. */
  class Session {
    var count: nat
    var direction: nat
    var form: bool
    var feedback: string

    constructor ()
      ensures Snapshot() == Initial
    {
      count, direction, form, feedback := 0, 0, false, "Fix Form";
    }

    function Snapshot(): State
      reads this
    {
      State(count, direction, form, feedback)
    }

    /** The body of the frame loop for one frame. */
    method Step(f: Frame<ArmPose>)
      modifies this
      ensures Snapshot() == Next(old(Snapshot()), f)
    {
      if f.pose.None? {
        return;
      }
      var a := f.pose.value;
      var per := Percent(a.rightElbow, 90.0, 160.0);
      if ArmsExtended(a) {
        form := true;
      }
      if form {
        if per == 0.0 {
          if ArmsBent(a) {
            feedback := "Up";
            if direction == 0 {
              direction := 1;
            }
          } else {
            feedback := "Fix Form";
          }
        }
        if per == 100.0 {
          if ArmsExtended(a) {
            feedback := "Down";
            if direction == 1 {
              count := count + 1;
              direction := 0;
            }
          } else {
            feedback := "Fix Form";
          }
        }
      }
    }

    /** The frame loop: one Step per captured frame, in order. */
    method Run(frames: seq<Frame<ArmPose>>)
      modifies this
      ensures Snapshot() == Trace(old(Snapshot()), frames)
    {
      ghost var s0 := Snapshot();
      var i := 0;
      while i < |frames|
        invariant 0 <= i <= |frames|
        invariant Snapshot() == Trace(s0, frames[..i])
      {
        assert frames[..i + 1][..i] == frames[..i];
        Step(frames[i]);
        i := i + 1;
      }
      assert frames[..i] == frames;
    }
  }
}
