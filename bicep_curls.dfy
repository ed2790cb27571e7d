/** The curl counter of bicep_curls.py: the started/valid machine on the right elbow gated by
    the shoulder form latch, with per-curl timing, and no success rate and no speech. */
module BicepCurls {
  import opened Common

  /** The script's counting globals: `started` and `valid` are `curl_started` and `curl_valid`. */
  datatype State = State(attempts: nat, count: nat, form: bool, started: bool, valid: bool,
                         startTime: real, curlTimes: seq<real>, feedback: string)

  const Initial: State := State(0, 0, false, false, false, 0.0, [], "Fix Form")

  /** `per` on the progress bar: the right elbow over [45, 135] onto [0, 100]. */
  function Progress(c: CurlPose): real {
    Percent(c.rightElbow, 45.0, 135.0)
  }

  /** A valid curl is a started one; counted curls and the open one are attempts; one duration
      per counted curl; nothing starts before the form latch. */
  predicate Counters(s: State) {
    (s.valid ==> s.started) &&
    (s.started ==> s.form) &&
    s.count + (if s.started then 1 else 0) <= s.attempts &&
    |s.curlTimes| == s.count
  }

  /** Nothing that counts curls changed between two states. */
  predicate Frozen(s: State, t: State) {
    t.attempts == s.attempts && t.count == s.count && t.started == s.started &&
    t.valid == s.valid && t.startTime == s.startTime && t.curlTimes == s.curlTimes
  }

  /** With the latch set, the elbow below 135 while no curl is open: a curl starts. */
  predicate StartStep(s: State, c: CurlPose) {
    (s.form || c.rightShoulder > 40.0) && c.rightElbow < 135.0 && !s.started
  }

  /** With the latch set, an open curl and the elbow above 135: the curl completes. */
  predicate CompleteStep(s: State, c: CurlPose) {
    (s.form || c.rightShoulder > 40.0) && s.started && c.rightElbow > 135.0
  }

  /** The frame loop's body on a frame with landmarks. */
  function Move(s: State, c: CurlPose, now: real): (r: State)
    // the form latch is set by the shoulder and never released, and gates everything else
    ensures r.form == (s.form || c.rightShoulder > 40.0)
    ensures !r.form ==> r == s
    // a curl starts once per cycle: attempts rise only when no curl is open
    ensures r.attempts == (if StartStep(s, c) then s.attempts + 1 else s.attempts)
    ensures r.startTime == (if StartStep(s, c) then now else s.startTime)
    ensures r.started == (!CompleteStep(s, c) && (s.started || StartStep(s, c)))
    // the valid flag is sticky within a curl and cleared by its completion
    ensures r.valid == (!CompleteStep(s, c) && (s.valid || (r.form && c.rightElbow < 45.0)))
    // a completion counts, and times, exactly the valid curls
    ensures r.count == (if CompleteStep(s, c) && s.valid then s.count + 1 else s.count)
    ensures r.curlTimes ==
              (if CompleteStep(s, c) && s.valid then s.curlTimes + [now - s.startTime] else s.curlTimes)
    ensures Counters(s) ==> Counters(r)
  {
    var s1 := s.(form := s.form || c.rightShoulder > 40.0);
    if !s1.form then s1
    else
      var s2 := if c.rightElbow < 135.0 && !s1.started
                then s1.(started := true, attempts := s1.attempts + 1, startTime := now,
                         feedback := "Attempt Started")
                else s1;
      var s3 := if s2.started && c.rightElbow < 45.0 then s2.(valid := true, feedback := "Good Curl") else s2;
      if s3.started && c.rightElbow > 135.0 then
        if s3.valid then
          s3.(count := s3.count + 1, curlTimes := s3.curlTimes + [now - s3.startTime],
              feedback := "Curl Counted", valid := false, started := false)
        else s3.(started := false)
      else s3
  }

  /** One pass of the frame loop: a frame without landmarks changes nothing. */
  function Next(s: State, f: Frame<CurlPose>): (r: State)
    ensures f.pose.None? ==> r == s
    ensures r.form == (s.form || (f.pose.Some? && f.pose.value.rightShoulder > 40.0))
    ensures !r.form ==> r == s
    ensures Counters(s) ==> Counters(r)
  {
    match f.pose
    case None => s
    case Some(c) => Move(s, c, f.now)
  }

  /** An elbow at exactly 135 degrees causes no transition. */
  lemma ElbowAtThreshold(s: State, c: CurlPose, now: real)
    requires c.rightElbow == 135.0
    ensures var r := Move(s, c, now);
            r.attempts == s.attempts && r.count == s.count && r.started == s.started &&
            r.valid == s.valid && r.curlTimes == s.curlTimes
  {
    assert !StartStep(s, c) && !CompleteStep(s, c);
  }

  /** The state after a run of frames. */
  function Trace(s: State, fs: seq<Frame<CurlPose>>): (t: State)
    decreases |fs|
  {
    if fs == [] then s else Next(Trace(s, fs[..|fs| - 1]), fs[|fs| - 1])
  }

  /** The counters stay consistent over any run: `count <= attempts`, one duration per count. */
  lemma {:induction false} TraceCounters(s: State, fs: seq<Frame<CurlPose>>)
    requires Counters(s)
    ensures Counters(Trace(s, fs))
    ensures Trace(s, fs).count <= Trace(s, fs).attempts
    ensures |Trace(s, fs).curlTimes| == Trace(s, fs).count
    decreases |fs|
  {
    if fs != [] {
      TraceCounters(s, fs[..|fs| - 1]);
    }
  }

  /** Until the form latch is set nothing at all changes, however many frames pass. */
  lemma {:induction false} FormGatesCounting(s: State, fs: seq<Frame<CurlPose>>)
    requires !Trace(s, fs).form
    ensures Trace(s, fs) == s
    decreases |fs|
  {
    if fs != [] {
      var init := fs[..|fs| - 1];
      assert !Trace(s, init).form;
      FormGatesCounting(s, init);
    }
  }

  /** One full curl from rest: the elbow drops below 45 and rises above 135 under the latch.
      It is attempted once, counted once, and timed from the first frame to the last. */
  lemma OneCurl(t1: real, t2: real)
    ensures var s := Move(Move(Initial, CurlPose(30.0, 50.0), t1), CurlPose(150.0, 50.0), t2);
            s.attempts == 1 && s.count == 1 && s.curlTimes == [t2 - t1] && !s.started && !s.valid &&
            s.feedback == "Curl Counted"
  {
  }

  /** A shallow curl (elbow only to 90) is attempted but not counted. */
  lemma ShallowCurl(t1: real, t2: real)
    ensures var s := Move(Move(Initial, CurlPose(90.0, 50.0), t1), CurlPose(150.0, 50.0), t2);
            s.attempts == 1 && s.count == 0 && s.curlTimes == [] && !s.started
  {
  }

  /** The counting globals of the script, updated in place frame by frame. */
  class Session {
    var attempts: nat
    var count: nat
    var form: bool
    var started: bool
    var valid: bool
    var startTime: real
    var curlTimes: seq<real>
    var feedback: string

    constructor ()
      ensures Snapshot() == Initial
    {
      attempts, count, form, started, valid := 0, 0, false, false, false;
      startTime, curlTimes := 0.0, [];
      feedback := "Fix Form";
    }

    function Snapshot(): State
      reads this
    {
      State(attempts, count, form, started, valid, startTime, curlTimes, feedback)
    }

    /** The body of the frame loop for one frame. */
    method Step(f: Frame<CurlPose>)
      modifies this
      ensures Snapshot() == Next(old(Snapshot()), f)
    {
      if f.pose.None? {
        return;
      }
      var c := f.pose.value;
      if c.rightShoulder > 40.0 {
        form := true;
      }
      if form {
        if c.rightElbow < 135.0 {
          if !started {
            started := true;
            attempts := attempts + 1;
            startTime := f.now;
            feedback := "Attempt Started";
          }
        }
        if started && c.rightElbow < 45.0 {
          valid := true;
          feedback := "Good Curl";
        }
        if started && c.rightElbow > 135.0 {
          if valid {
            count := count + 1;
            var duration := f.now - startTime;
            curlTimes := curlTimes + [duration];
            feedback := "Curl Counted";
            valid := false;
          }
          started := false;
        }
      }
    }

    /** The frame loop: one Step per captured frame, in order. */
    method Run(frames: seq<Frame<CurlPose>>)
      modifies this
      ensures Snapshot() == Trace(old(Snapshot()), frames)
    {
      ghost var s0 := Snapshot();
      var i := 0;
      while i < |frames|
        invariant 0 <= i <= |frames|
        invariant Snapshot() == Trace(s0, frames[..i])
      {
        assert frames[..i + 1][..i] == frames[..i];
        Step(frames[i]);
        i := i + 1;
      }
      assert frames[..i] == frames;
    }
  }
}
