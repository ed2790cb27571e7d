/** The push-up counter of integrateRaspberry/pushups.py: the two-phase machine gated by the
    form latch with a halfway flag and the success rate, no timing and no symmetry; speech goes
    to the plain FIFO dispatcher, and the on-screen feedback is announced only when it changed
    since the last announcement. */
module RaspberryPushups {
  import opened Common
  import opened Feedback

  const Encouragements: seq<string> := [
    "Great job! Keep it up!",
    "You're doing amazing!",
    "Fantastic effort! Keep pushing!",
    "You're almost there!",
    "Excellent work! Stay strong!"
  ]

  const InvalidAttempts: seq<string> := [
    "Almost there! Fix your form!",
    "Not quite right! Try again!",
    "Keep going! You're doing well!",
    "Check your posture and try again!",
    "You got this! Adjust your form!"
  ]

  /** The script's counting globals and the last announced feedback. */
  datatype State = State(attempts: nat, count: nat, direction: nat, form: bool,
                         reachedHalfway: bool, successRate: real,
                         feedback: string, previousFeedback: string)

  const Initial: State := State(0, 0, 0, false, false, 0.0, "Start Workout", "")

  /** The state after a frame and the texts handed to speak_text during it, in call order. */
  datatype Outcome = Outcome(next: State, said: seq<string>)

  /** `per`: the right elbow over [90, 160] onto [0, 100]. */
  function Progress(a: ArmPose): real {
    Percent(a.rightElbow, 90.0, 160.0)
  }

  /** `direction` is 0 or 1, every attempt is counted or still open, nothing moves before the
      form latch, the rate is a percentage. */
  predicate Counters(s: State) {
    s.direction <= 1 &&
    s.attempts == s.count + s.direction &&
    0.0 <= s.successRate <= 100.0 &&
    (s.reachedHalfway || s.attempts > 0 ==> s.form)
  }

  /** Nothing that counts reps changed between two states. */
  predicate Frozen(s: State, t: State) {
    t.attempts == s.attempts && t.count == s.count && t.direction == s.direction &&
    t.reachedHalfway == s.reachedHalfway
  }

  /** Latched form, `per == 0`, arms bent with straight hips, `direction == 0`, halfway seen. */
  predicate AttemptStep(s: State, a: ArmPose) {
    (s.form || ArmsExtended(a)) && Progress(a) == 0.0 && ArmsBent(a) &&
    s.direction == 0 && s.reachedHalfway
  }

  /** `per == 100` with the full baseline and `direction == 1`. */
  predicate CountStep(s: State, a: ArmPose) {
    Progress(a) == 100.0 && ArmsExtended(a) && s.direction == 1
  }

  /** `per == 0`: the bent-arm branch. */
  function AtBent(s: State, a: ArmPose, pick: nat): (r: Outcome)
    ensures r.next.form == s.form && r.next.count == s.count
    ensures r.next.successRate == s.successRate && r.next.previousFeedback == s.previousFeedback
    ensures if ArmsBent(a) && s.direction == 0 && s.reachedHalfway
            then r.next.attempts == s.attempts + 1 && r.next.direction == 1 && !r.next.reachedHalfway &&
                 (r.said != [] <==> r.next.attempts % 5 == 0) &&
                 (r.said == [] || r.said == [Choose(Encouragements, pick)])
            else r.next.attempts == s.attempts && r.next.direction == s.direction &&
                 r.next.reachedHalfway == s.reachedHalfway
    ensures ArmsBent(a) ==> r.next.feedback == "Up"
    ensures !ArmsBent(a) ==> r.next.feedback == "Fix Form" && r.said == [Choose(InvalidAttempts, pick)]
  {
    if ArmsBent(a) then
      if s.direction == 0 && s.reachedHalfway then
        var attempts := s.attempts + 1;
        var said := if attempts % 5 == 0 then [Choose(Encouragements, pick)] else [];
        Outcome(s.(feedback := "Up", direction := 1, attempts := attempts, reachedHalfway := false), said)
      else Outcome(s.(feedback := "Up"), [])
    else
      Outcome(s.(feedback := "Fix Form"), [Choose(InvalidAttempts, pick)])
  }

  /** `per == 100`: the extended-arm branch; it never speaks. */
  function AtExtended(s: State, a: ArmPose): (r: State)
    ensures r.form == s.form && r.attempts == s.attempts && r.reachedHalfway == s.reachedHalfway
    ensures r.successRate == s.successRate && r.previousFeedback == s.previousFeedback
    ensures if ArmsExtended(a) && s.direction == 1
            then r.count == s.count + 1 && r.direction == 0
            else r.count == s.count && r.direction == s.direction
    ensures r.feedback == (if ArmsExtended(a) then "Down" else "Fix Form")
  {
    if ArmsExtended(a) then
      if s.direction == 1 then s.(feedback := "Down", count := s.count + 1, direction := 0)
      else s.(feedback := "Down")
    else s.(feedback := "Fix Form")
  }

  /** The counting part of a frame with landmarks, before the feedback announcement. */
  function Move(s: State, a: ArmPose, pick: nat): (r: Outcome)
    requires s.count <= s.attempts
    ensures r.next.previousFeedback == s.previousFeedback
    ensures r.next.form == (s.form || ArmsExtended(a))
    ensures !r.next.form ==> Frozen(s, r.next) && r.said == [] && r.next.feedback == s.feedback
    ensures r.next.attempts == (if AttemptStep(s, a) then s.attempts + 1 else s.attempts)
    ensures AttemptStep(s, a) ==> r.next.direction == 1
    // the halfway flag is raised by `per >= 50` under the latch and cleared only by an attempt step
    ensures r.next.reachedHalfway ==
              (!AttemptStep(s, a) && (s.reachedHalfway || (r.next.form && Progress(a) >= 50.0)))
    ensures r.next.count == (if CountStep(s, a) then s.count + 1 else s.count)
    ensures CountStep(s, a) ==> r.next.direction == 0
    // the rate is recomputed from the counters before the frame, and kept while count is 0
    ensures r.next.successRate == SuccessRate(s.successRate, s.count, s.attempts)
    ensures Counters(s) ==> Counters(r.next)
    // on an attempt step an encouragement is requested exactly when attempts is a multiple of 5
    ensures AttemptStep(s, a) ==>
              r.next.feedback == "Up" &&
              (r.said != [] <==> r.next.attempts % 5 == 0) &&
              (r.said == [] || r.said == [Choose(Encouragements, pick)])
    // a failing posture at `per == 0` shows "Fix Form" and requests one invalid-attempt message
    ensures r.next.form && Progress(a) == 0.0 && !ArmsBent(a) ==>
              r.next.feedback == "Fix Form" && r.said == [Choose(InvalidAttempts, pick)]
    // bent arms at `per == 0` show "Up" and speak only on an attempt step
    ensures r.next.form && Progress(a) == 0.0 && ArmsBent(a) ==> r.next.feedback == "Up"
    ensures r.next.form && Progress(a) == 0.0 && ArmsBent(a) && !AttemptStep(s, a) ==> r.said == []
    // at `per == 100` the feedback is "Down" with the full baseline, else "Fix Form"
    ensures r.next.form && Progress(a) == 100.0 ==>
              r.next.feedback == (if ArmsExtended(a) then "Down" else "Fix Form")
    // between the two ends the feedback is kept
    ensures 0.0 < Progress(a) < 100.0 ==> r.next.feedback == s.feedback
    // only the bent branch speaks
    ensures Progress(a) != 0.0 ==> r.said == []
  {
    var per := Progress(a);
    var s1 := s.(successRate := SuccessRate(s.successRate, s.count, s.attempts),
                 form := s.form || ArmsExtended(a));
    if !s1.form then Outcome(s1, [])
    else
      var s2 := if per >= 50.0 then s1.(reachedHalfway := true) else s1;
      var o3 := if per == 0.0 then AtBent(s2, a, pick) else Outcome(s2, []);
      var s4 := if per == 100.0 then AtExtended(o3.next, a) else o3.next;
      Outcome(s4, o3.said)
  }

  /** One pass of the frame loop's body: the counting part, then the feedback text is
      requested only if it differs from the last one requested. */
  function Next(s: State, f: Frame<ArmPose>): (r: Outcome)
    requires s.count <= s.attempts
    // a frame without landmarks changes nothing and says nothing
    ensures f.pose.None? ==> r == Outcome(s, [])
    // the form latch is set by the baseline and never released
    ensures r.next.form == (s.form || (f.pose.Some? && ArmsExtended(f.pose.value)))
    ensures !r.next.form ==> Frozen(s, r.next)
    // the announced feedback is remembered, and it is requested after the branch's own
    // messages exactly when it differs from the one announced before
    ensures f.pose.Some? ==> r.next.previousFeedback == r.next.feedback
    ensures f.pose.Some? ==>
              var m := Move(s, f.pose.value, f.pick);
              r.next == m.next.(previousFeedback := m.next.feedback) &&
              r.said == m.said + (if m.next.feedback != s.previousFeedback then [m.next.feedback] else [])
    ensures Counters(s) ==> Counters(r.next)
  {
    match f.pose
    case None => Outcome(s, [])
    case Some(a) =>
      var m := Move(s, a, f.pick);
      if m.next.feedback != m.next.previousFeedback then
        Outcome(m.next.(previousFeedback := m.next.feedback), m.said + [m.next.feedback])
      else m
  }

  /** The state after a run of frames. */
  function Trace(s: State, fs: seq<Frame<ArmPose>>): (t: State)
    requires Counters(s)
    ensures Counters(t)
    decreases |fs|
  {
    if fs == [] then s else Next(Trace(s, fs[..|fs| - 1]), fs[|fs| - 1]).next
  }

  /** Every text requested during a run of frames, in order. */
  function Said(s: State, fs: seq<Frame<ArmPose>>): seq<string>
    requires Counters(s)
    decreases |fs|
  {
    if fs == [] then []
    else
      var init := fs[..|fs| - 1];
      Said(s, init) + Next(Trace(s, init), fs[|fs| - 1]).said
  }

  /** A run extended by one frame: one more pass of the loop. */
  lemma TraceSnoc(s: State, fs: seq<Frame<ArmPose>>, f: Frame<ArmPose>)
    requires Counters(s)
    ensures Trace(s, fs + [f]) == Next(Trace(s, fs), f).next
    ensures Said(s, fs + [f]) == Said(s, fs) + Next(Trace(s, fs), f).said
  {
    assert (fs + [f])[..|fs|] == fs;
  }

  /** The same feedback on two consecutive frames with landmarks is requested at most once:
      the second frame requests only its branch's own messages. */
  lemma SameFeedbackSpokenOnce(s: State, f1: Frame<ArmPose>, f2: Frame<ArmPose>)
    requires Counters(s) && f1.pose.Some? && f2.pose.Some?
    requires Next(Next(s, f1).next, f2).next.feedback == Next(s, f1).next.feedback
    ensures Next(Next(s, f1).next, f2).said == Move(Next(s, f1).next, f2.pose.value, f2.pick).said
  {
    var t := Next(s, f1).next;
    assert t.previousFeedback == t.feedback;
  }

  /** Until the form latch is set nothing that counts reps moves, however many frames pass. */
  lemma {:induction false} FormGatesCounting(s: State, fs: seq<Frame<ArmPose>>)
    requires Counters(s)
    requires !Trace(s, fs).form
    ensures Frozen(s, Trace(s, fs))
    decreases |fs|
  {
    if fs != [] {
      var init := fs[..|fs| - 1];
      assert !Trace(s, init).form;
      FormGatesCounting(s, init);
    }
  }

  /** Once latched, the form flag stays set for the rest of the session. */
  lemma {:induction false} FormStaysLatched(s: State, fs: seq<Frame<ArmPose>>)
    requires Counters(s) && s.form
    ensures Trace(s, fs).form
    decreases |fs|
  {
    if fs != [] {
      FormStaysLatched(s, fs[..|fs| - 1]);
    }
  }

  /** The counting globals of the script, updated in place frame by frame. */
  class Session {
    var attempts: nat
    var count: nat
    var direction: nat
    var form: bool
    var reachedHalfway: bool
    var successRate: real
    var feedback: string
    var previousFeedback: string
    const speaker: FifoSpeaker

    constructor ()
      ensures Snapshot() == Initial
      ensures fresh(speaker) && speaker.queue == []
    {
      attempts, count, direction, form, reachedHalfway := 0, 0, 0, false, false;
      successRate := 0.0;
      feedback, previousFeedback := "Start Workout", "";
      speaker := new FifoSpeaker();
    }

    function Snapshot(): State
      reads this
    {
      State(attempts, count, direction, form, reachedHalfway, successRate, feedback, previousFeedback)
    }

    /** The `per == 0` block: arms bent. */
    method BentBlock(a: ArmPose, pick: nat)
      modifies this, speaker
      ensures Snapshot() == AtBent(old(Snapshot()), a, pick).next
      ensures speaker.queue == old(speaker.queue) + AtBent(old(Snapshot()), a, pick).said
    {
      if ArmsBent(a) {
        feedback := "Up";
        if direction == 0 && reachedHalfway {
          direction := 1;
          attempts := attempts + 1;
          reachedHalfway := false;
          if attempts % 5 == 0 {
            var encouragement := Choose(Encouragements, pick);
            speaker.SpeakText(encouragement);
          }
        }
      } else {
        feedback := "Fix Form";
        speaker.SpeakText(Choose(InvalidAttempts, pick));
      }
    }

    /** The `per == 100` block: arms extended. */
    method ExtendedBlock(a: ArmPose)
      modifies this
      ensures Snapshot() == AtExtended(old(Snapshot()), a)
    {
      if ArmsExtended(a) {
        feedback := "Down";
        if direction == 1 {
          count := count + 1;
          direction := 0;
        }
      } else {
        feedback := "Fix Form";
      }
    }

    /** The counting part of the loop body, up to the feedback announcement. */
    method Count(a: ArmPose, pick: nat)
      requires count <= attempts
      modifies this, speaker
      ensures Snapshot() == Move(old(Snapshot()), a, pick).next
      ensures speaker.queue == old(speaker.queue) + Move(old(Snapshot()), a, pick).said
    {
      if count > 0 {
        successRate := (count as real) / (attempts as real) * 100.0;
      }
      var per := Percent(a.rightElbow, 90.0, 160.0);
      if ArmsExtended(a) {
        form := true;
      }
      if form {
        if per >= 50.0 {
          reachedHalfway := true;
        }
        if per == 0.0 {
          BentBlock(a, pick);
        }
        if per == 100.0 {
          ExtendedBlock(a);
        }
      }
    }

    /** The body of the frame loop for one frame. */
    method Step(f: Frame<ArmPose>)
      requires Counters(Snapshot())
      modifies this, speaker
      ensures Snapshot() == Next(old(Snapshot()), f).next
      ensures speaker.queue == old(speaker.queue) + Next(old(Snapshot()), f).said
    {
      if f.pose.None? {
        return;
      }
      Count(f.pose.value, f.pick);
      if feedback != previousFeedback {
        speaker.SpeakText(feedback);
        previousFeedback := feedback;
      }
    }

    /** The frame loop: one Step per captured frame, in order. */
    method Run(frames: seq<Frame<ArmPose>>)
      requires Counters(Snapshot())
      modifies this, speaker
      ensures Counters(Snapshot())
      ensures Snapshot() == Trace(old(Snapshot()), frames)
      ensures speaker.queue == old(speaker.queue) + Said(old(Snapshot()), frames)
    {
      ghost var s0 := Snapshot();
      ghost var q0 := speaker.queue;
      var i := 0;
      while i < |frames|
        invariant 0 <= i <= |frames|
        invariant Snapshot() == Trace(s0, frames[..i])
        invariant speaker.queue == q0 + Said(s0, frames[..i])
      {
        StepAt(frames, i, s0, q0);
        i := i + 1;
      }
      assert frames[..i] == frames;
    }

    /** One pass of the frame loop, on the `i`-th frame of a run. */
    method StepAt(frames: seq<Frame<ArmPose>>, i: nat, ghost s0: State, ghost q0: seq<string>)
      requires i < |frames| && Counters(s0)
      requires Snapshot() == Trace(s0, frames[..i]) && speaker.queue == q0 + Said(s0, frames[..i])
      modifies this, speaker
      ensures Snapshot() == Trace(s0, frames[..i + 1])
      ensures speaker.queue == q0 + Said(s0, frames[..i + 1])
    {
      TraceSnoc(s0, frames[..i], frames[i]);
      assert frames[..i + 1] == frames[..i] + [frames[i]];
      Step(frames[i]);
    }
  }
}
