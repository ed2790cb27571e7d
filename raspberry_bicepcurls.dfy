/** The curl counter of integrateRaspberry/bicepcurls.py: a started/valid machine on the right
    elbow, gated by a shoulder form latch, with per-curl timing, the success rate, and speech
    through the cooldown dispatcher. */
module RaspberryBicepCurls {
  import opened Common
  import opened Feedback

  const Encouragements: seq<string> := [
    "Great curl! Keep those reps coming!",
    "You're nailing it! Keep those biceps working!",
    "Awesome form! Let's keep building strength!",
    "Almost there, keep pushing those curls!",
    "Excellent control! Stay strong, stay focused!",
    "Perfect tempo! Keep that momentum going!",
    "Strong work! Your arms are getting stronger!",
    "Fantastic rep! Feel those biceps burn!",
    "Keep curling! Each rep is bringing results!",
    "Way to go! Those arms are looking powerful!"
  ]

  const InvalidAttempts: seq<string> := [
    "Almost there! Keep your elbows steady!",
    "Not quite there! Try controlling the weight up and down!",
    "Keep it up! Focus on that full range of motion!",
    "Check your posture and keep your elbows tucked!",
    "You’re close! Try a little more control on the lift!",
    "Slow down and focus on the curl movement!",
    "Try keeping your wrists straight for more control!",
    "Remember to lift through the full range - all the way up and down!",
    "Watch your form and avoid swinging your arms!",
    "Try to keep your body steady and focus on those biceps!"
  ]

  /** The script's counting globals: `started` and `valid` are `curl_started` and `curl_valid`. */
  datatype State = State(attempts: nat, count: nat, form: bool, started: bool, valid: bool,
                         startTime: real, curlTimes: seq<real>, successRate: real,
                         feedback: string)

  const Initial: State := State(0, 0, false, false, false, 0.0, [], 0.0, "Start Workout")

  /** The state after a frame and the texts handed to speak_text during it. */
  datatype Outcome = Outcome(next: State, said: seq<string>)

  /** `per` on the progress bar: the right elbow over [45, 135] onto [0, 100]. */
  function Progress(c: CurlPose): real {
    Percent(c.rightElbow, 45.0, 135.0)
  }

  /** A valid curl is always a started one; counted curls and the open one are attempts; one
      duration per counted curl; nothing starts before the form latch; the rate is a percentage. */
  predicate Counters(s: State) {
    (s.valid ==> s.started) &&
    (s.started ==> s.form) &&
    s.count + (if s.started then 1 else 0) <= s.attempts &&
    |s.curlTimes| == s.count &&
    0.0 <= s.successRate <= 100.0
  }

  /** Nothing that counts curls changed between two states. */
  predicate Frozen(s: State, t: State) {
    t.attempts == s.attempts && t.count == s.count && t.started == s.started &&
    t.valid == s.valid && t.startTime == s.startTime && t.curlTimes == s.curlTimes
  }

  /** With the latch set, the elbow below 135 while no curl is open: a curl starts. */
  predicate StartStep(s: State, c: CurlPose) {
    (s.form || c.rightShoulder > 40.0) && c.rightElbow < 135.0 && !s.started
  }

  /** With the latch set, an open curl and the elbow above 135: the curl completes. */
  predicate CompleteStep(s: State, c: CurlPose) {
    (s.form || c.rightShoulder > 40.0) && s.started && c.rightElbow > 135.0
  }

  /** The `curl_started and right_elbow > 135` block. */
  function Complete(s: State, now: real, pick: nat): (r: Outcome)
    requires s.started
    ensures !r.next.started && !r.next.valid
    ensures r.next.count == (if s.valid then s.count + 1 else s.count)
    ensures r.next.curlTimes == (if s.valid then s.curlTimes + [now - s.startTime] else s.curlTimes)
    ensures s.valid ==> (r.said != [] <==> NotFifth(r.next.count)) &&
                        (r.said == [] || r.said == [Choose(Encouragements, pick)])
    ensures !s.valid ==> r.said == [Choose(InvalidAttempts, pick)]
    ensures r.next.attempts == s.attempts && r.next.form == s.form && r.next.startTime == s.startTime
    ensures r.next.successRate == s.successRate
  {
    if s.valid then
      var count := s.count + 1;
      var said := if NotFifth(count) then [Choose(Encouragements, pick)] else [];
      Outcome(s.(count := count, curlTimes := s.curlTimes + [now - s.startTime],
                 feedback := "Curl Counted", valid := false, started := false), said)
    else
      Outcome(s.(started := false), [Choose(InvalidAttempts, pick)])
  }

  /** Under the latch: the attempt-start block, then the valid-curl block. */
  function Begin(s: State, c: CurlPose, now: real): (r: State)
    ensures r.form == s.form && r.count == s.count && r.curlTimes == s.curlTimes
    ensures r.successRate == s.successRate
    ensures r.attempts == (if c.rightElbow < 135.0 && !s.started then s.attempts + 1 else s.attempts)
    ensures r.startTime == (if c.rightElbow < 135.0 && !s.started then now else s.startTime)
    ensures r.started == (s.started || c.rightElbow < 135.0)
    ensures r.valid == (s.valid || (r.started && c.rightElbow < 45.0))
  {
    var s2 := if c.rightElbow < 135.0 && !s.started
              then s.(started := true, attempts := s.attempts + 1, startTime := now,
                      feedback := "Attempt Started")
              else s;
    if s2.started && c.rightElbow < 45.0 then s2.(valid := true, feedback := "Good curl") else s2
  }

  /** The frame loop's counting body on a frame with landmarks. */
  function Move(s: State, c: CurlPose, now: real, pick: nat): (r: Outcome)
    requires s.count <= s.attempts
    // the form latch is set by the shoulder and never released, and gates everything else
    ensures r.next.form == (s.form || c.rightShoulder > 40.0)
    ensures !r.next.form ==> Frozen(s, r.next) && r.said == []
    // a curl starts once per cycle: attempts rise only when no curl is open
    ensures r.next.attempts == (if StartStep(s, c) then s.attempts + 1 else s.attempts)
    ensures StartStep(s, c) ==> r.next.startTime == now
    ensures !StartStep(s, c) ==> r.next.startTime == s.startTime
    ensures r.next.started == (!CompleteStep(s, c) && (s.started || StartStep(s, c)))
    // the valid flag is sticky within a curl and cleared by its completion
    ensures r.next.valid == (!CompleteStep(s, c) && (s.valid || (r.next.form && c.rightElbow < 45.0)))
    // a completion counts, and times, exactly the valid curls
    ensures r.next.count == (if CompleteStep(s, c) && s.valid then s.count + 1 else s.count)
    ensures r.next.curlTimes ==
              (if CompleteStep(s, c) && s.valid then s.curlTimes + [now - s.startTime] else s.curlTimes)
    // speech: an encouragement after a valid curl unless count is a multiple of 5, an
    // invalid-attempt message after an invalid one, nothing otherwise
    ensures CompleteStep(s, c) && s.valid ==>
              (r.said != [] <==> NotFifth(r.next.count)) &&
              (r.said == [] || r.said == [Choose(Encouragements, pick)])
    ensures CompleteStep(s, c) && !s.valid ==> r.said == [Choose(InvalidAttempts, pick)]
    ensures !CompleteStep(s, c) ==> r.said == []
    // the rate is recomputed from the counters before the frame, and kept while count is 0
    ensures r.next.successRate == SuccessRate(s.successRate, s.count, s.attempts)
    ensures Counters(s) ==> Counters(r.next)
  {
    var s1 := s.(successRate := SuccessRate(s.successRate, s.count, s.attempts),
                 form := s.form || c.rightShoulder > 40.0);
    if !s1.form then Outcome(s1, [])
    else
      var s3 := Begin(s1, c, now);
      if s3.started && c.rightElbow > 135.0 then Complete(s3, now, pick) else Outcome(s3, [])
  }

  /** One pass of the frame loop: a frame without landmarks changes nothing and says nothing. */
  function Next(s: State, f: Frame<CurlPose>): (r: Outcome)
    requires s.count <= s.attempts
    ensures f.pose.None? ==> r == Outcome(s, [])
    ensures r.next.form == (s.form || (f.pose.Some? && f.pose.value.rightShoulder > 40.0))
    ensures !r.next.form ==> Frozen(s, r.next)
    ensures |r.said| <= 1
    ensures Counters(s) ==> Counters(r.next)
  {
    match f.pose
    case None => Outcome(s, [])
    case Some(c) => Move(s, c, f.now, f.pick)
  }

  /** An elbow at exactly 135 degrees neither starts nor completes a curl. */
  lemma ElbowAtThreshold(s: State, c: CurlPose, now: real, pick: nat)
    requires Counters(s) && c.rightElbow == 135.0
    ensures var r := Move(s, c, now, pick).next;
            r.attempts == s.attempts && r.count == s.count && r.started == s.started &&
            r.valid == s.valid && r.curlTimes == s.curlTimes
  {
    assert !StartStep(s, c) && !CompleteStep(s, c);
  }

  /** Holding the elbow bent over two frames starts one curl, not two. */
  lemma {:induction false} BentHoldStartsOnce(s: State, c1: CurlPose, c2: CurlPose, t1: real, t2: real, p1: nat, p2: nat)
    requires Counters(s) && c1.rightElbow < 135.0 && c2.rightElbow < 135.0
    ensures Move(Move(s, c1, t1, p1).next, c2, t2, p2).next.attempts <= s.attempts + 1
  {
    var m := Move(s, c1, t1, p1).next;
    if m.attempts == s.attempts + 1 {
      assert m.started;
      assert !StartStep(m, c2);
    }
  }

  /** The state after a run of frames. */
  function Trace(s: State, fs: seq<Frame<CurlPose>>): (t: State)
    requires Counters(s)
    ensures Counters(t)
    decreases |fs|
  {
    if fs == [] then s else Next(Trace(s, fs[..|fs| - 1]), fs[|fs| - 1]).next
  }

  /** The dispatcher's state after a run of frames. */
  function Heard(d: Spoken, s: State, fs: seq<Frame<CurlPose>>): Spoken
    requires Counters(s)
    decreases |fs|
  {
    if fs == [] then d
    else
      var init := fs[..|fs| - 1];
      var f := fs[|fs| - 1];
      SpeakAll(Heard(d, s, init), Next(Trace(s, init), f).said, f.now)
  }

  /** Until the form latch is set nothing that counts curls moves, however many frames pass. */
  lemma {:induction false} FormGatesCounting(s: State, fs: seq<Frame<CurlPose>>)
    requires Counters(s)
    requires !Trace(s, fs).form
    ensures Frozen(s, Trace(s, fs))
    decreases |fs|
  {
    if fs != [] {
      var init := fs[..|fs| - 1];
      assert !Trace(s, init).form;
      FormGatesCounting(s, init);
    }
  }

  /** Once latched, the form flag stays set for the rest of the session. */
  lemma {:induction false} FormStaysLatched(s: State, fs: seq<Frame<CurlPose>>)
    requires Counters(s) && s.form
    ensures Trace(s, fs).form
    decreases |fs|
  {
    if fs != [] {
      FormStaysLatched(s, fs[..|fs| - 1]);
    }
  }

  /** The counting globals of the script, updated in place frame by frame. */
  class Session {
    var attempts: nat
    var count: nat
    var form: bool
    var started: bool
    var valid: bool
    var startTime: real
    var curlTimes: seq<real>
    var successRate: real
    var feedback: string
    const speaker: CooldownSpeaker

    constructor ()
      ensures Snapshot() == Initial
      ensures fresh(speaker) && speaker.Contents() == Spoken(map[], [])
    {
      attempts, count, form, started, valid := 0, 0, false, false, false;
      startTime, curlTimes, successRate := 0.0, [], 0.0;
      feedback := "Start Workout";
      speaker := new CooldownSpeaker();
    }

    function Snapshot(): State
      reads this
    {
      State(attempts, count, form, started, valid, startTime, curlTimes, successRate, feedback)
    }

    /** The completion block: count and time a valid curl, or request an invalid-attempt message. */
    method CompleteBlock(now: real, pick: nat)
      requires started
      modifies this, speaker
      ensures Snapshot() == Complete(old(Snapshot()), now, pick).next
      ensures speaker.Contents() == SpeakAll(old(speaker.Contents()), Complete(old(Snapshot()), now, pick).said, now)
    {
      if valid {
        count := count + 1;
        var duration := now - startTime;
        curlTimes := curlTimes + [duration];
        feedback := "Curl Counted";
        valid := false;
        if count % 5 != 0 {
          var encouragement := Choose(Encouragements, pick);
          speaker.SpeakText(encouragement, now);
        }
      } else {
        var message := Choose(InvalidAttempts, pick);
        speaker.SpeakText(message, now);
      }
      started := false;
    }

    /** The attempt-start and valid-curl blocks. */
    method BeginBlock(c: CurlPose, now: real)
      modifies this
      ensures Snapshot() == Begin(old(Snapshot()), c, now)
    {
      if c.rightElbow < 135.0 {
        if !started {
          started := true;
          attempts := attempts + 1;
          startTime := now;
          feedback := "Attempt Started";
        }
      }
      if started && c.rightElbow < 45.0 {
        valid := true;
        feedback := "Good curl";
      }
    }

    /** The loop body on a frame with landmarks. */
    method Count(c: CurlPose, now: real, pick: nat)
      requires count <= attempts
      modifies this, speaker
      ensures Snapshot() == Move(old(Snapshot()), c, now, pick).next
      ensures speaker.Contents() == SpeakAll(old(speaker.Contents()), Move(old(Snapshot()), c, now, pick).said, now)
    {
      if count > 0 {
        successRate := (count as real) / (attempts as real) * 100.0;
      }
      if c.rightShoulder > 40.0 {
        form := true;
      }
      if form {
        BeginBlock(c, now);
        if started && c.rightElbow > 135.0 {
          CompleteBlock(now, pick);
        }
      }
    }

    /** The body of the frame loop for one frame. */
    method Step(f: Frame<CurlPose>)
      requires Counters(Snapshot())
      modifies this, speaker
      ensures Snapshot() == Next(old(Snapshot()), f).next
      ensures speaker.Contents() == SpeakAll(old(speaker.Contents()), Next(old(Snapshot()), f).said, f.now)
    {
      if f.pose.Some? {
        Count(f.pose.value, f.now, f.pick);
      }
    }

    /** The frame loop: one Step per captured frame, in order. */
    method Run(frames: seq<Frame<CurlPose>>)
      requires Counters(Snapshot())
      modifies this, speaker
      ensures Counters(Snapshot())
      ensures Snapshot() == Trace(old(Snapshot()), frames)
      ensures speaker.Contents() == Heard(old(speaker.Contents()), old(Snapshot()), frames)
    {
      ghost var s0 := Snapshot();
      ghost var d0 := speaker.Contents();
      var i := 0;
      while i < |frames|
        invariant 0 <= i <= |frames|
        invariant Snapshot() == Trace(s0, frames[..i])
        invariant speaker.Contents() == Heard(d0, s0, frames[..i])
      {
        assert frames[..i + 1][..i] == frames[..i];
        Step(frames[i]);
        i := i + 1;
      }
      assert frames[..i] == frames;
    }
  }
}
