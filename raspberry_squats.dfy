/** The squat counter of integrateRaspberry/squats.py: an `is_attempting` / `reached_halfway`
    machine on both knees, gated by a hip form latch, with per-squat timing, the success rate,
    the knee symmetry metric, and speech through the plain FIFO dispatcher. */
module RaspberrySquats {
  import opened Common
  import opened Feedback

  const Encouragements: seq<string> := [
    "Great squat form! Keep it up!",
    "Nice work! Keep pushing!",
    "You're building strength!",
    "Excellent squat! Stay steady!",
    "Fantastic form! Keep going!",
    "Stay focused and keep up the great work!",
    "Powerful squat! Stay strong!",
    "You're getting stronger every rep!",
    "Amazing depth! Keep it up!",
    "Strong squat! You're making progress!"
  ]

  const InvalidAttempts: seq<string> := [
    "Almost there! Focus on your form!",
    "Keep your knees aligned! Try again!",
    "Watch your posture and squat again!",
    "Stay balanced! You've got this!",
    "Nice effort! Adjust your depth!",
    "Engage your core and try again!",
    "Keep your back straight!",
    "Drive through your heels next time!",
    "Control the movement and try again!",
    "Almost perfect! Just adjust slightly!"
  ]

  /** The script's counting globals. `squat_start_time` is unbound until the first attempt,
      hence an Option. */
  datatype State = State(attempts: nat, count: nat, form: bool, attempting: bool,
                         reachedHalfway: bool, startTime: Option<real>, squatTimes: seq<real>,
                         successRate: real, symmetry: real, feedback: string)

  const Initial: State := State(0, 0, false, false, false, None, [], 0.0, 0.0, "Start Workout")

  /** The state after a frame and the texts handed to speak_text during it. */
  datatype Outcome = Outcome(next: State, said: seq<string>)

  /** Both knees below 140: going down. */
  predicate Down(a: LegPose) { a.rightKnee < 140.0 && a.leftKnee < 140.0 }

  /** Both knees below 100: halfway reached. */
  predicate Deep(a: LegPose) { a.rightKnee < 100.0 && a.leftKnee < 100.0 }

  /** Both knees above 160: standing. */
  predicate Standing(a: LegPose) { a.rightKnee > 160.0 && a.leftKnee > 160.0 }

  /** Both hips above 150: the form latch test. */
  predicate Upright(a: LegPose) { a.rightHip > 150.0 && a.leftHip > 150.0 }

  /** The halfway flag belongs to an open attempt; an open attempt has a start time and comes
      after the latch; counted squats and the open one are attempts; one duration per count. */
  predicate Counters(s: State) {
    (s.reachedHalfway ==> s.attempting) &&
    (s.attempting ==> s.form && s.startTime.Some?) &&
    s.count + (if s.attempting then 1 else 0) <= s.attempts &&
    |s.squatTimes| == s.count &&
    0.0 <= s.successRate <= 100.0
  }

  /** Nothing that counts squats changed between two states. */
  predicate Frozen(s: State, t: State) {
    t.attempts == s.attempts && t.count == s.count && t.attempting == s.attempting &&
    t.reachedHalfway == s.reachedHalfway && t.startTime == s.startTime && t.squatTimes == s.squatTimes
  }

  /** Under the latch, knees bent while no attempt is open: an attempt starts. */
  predicate StartStep(s: State, a: LegPose) {
    (s.form || Upright(a)) && Down(a) && !s.attempting
  }

  /** Under the latch, standing up after reaching halfway: the squat is counted. */
  predicate CountStep(s: State, a: LegPose) {
    (s.form || Upright(a)) && Standing(a) && s.reachedHalfway
  }

  /** Under the latch, standing up from an open attempt that never reached halfway. */
  predicate FailStep(s: State, a: LegPose) {
    (s.form || Upright(a)) && Standing(a) && !s.reachedHalfway && s.attempting
  }

  /** The knees-bent branch. */
  function Descend(s: State, a: LegPose, now: real): (r: State)
    requires Down(a)
    ensures r.count == s.count && r.squatTimes == s.squatTimes && r.form == s.form
    ensures r.successRate == s.successRate && r.symmetry == s.symmetry
    ensures r.attempting
    ensures r.attempts == (if s.attempting then s.attempts else s.attempts + 1)
    ensures r.startTime == (if s.attempting then s.startTime else Some(now))
    ensures r.reachedHalfway == (s.reachedHalfway || Deep(a))
  {
    var s1 := s.(feedback := "Go down more");
    var s2 := if !s1.attempting then s1.(attempts := s1.attempts + 1, attempting := true, startTime := Some(now)) else s1;
    if Deep(a) then s2.(feedback := "Up", reachedHalfway := true) else s2
  }

  /** The standing branch: count a squat that reached halfway, or reject an open attempt. */
  function Rise(s: State, now: real, pick: nat): (r: Outcome)
    requires s.reachedHalfway ==> s.startTime.Some?
    ensures !r.next.attempting && !r.next.reachedHalfway
    ensures r.next.attempts == s.attempts && r.next.form == s.form && r.next.startTime == s.startTime
    ensures r.next.successRate == s.successRate && r.next.symmetry == s.symmetry
    ensures r.next.count == (if s.reachedHalfway then s.count + 1 else s.count)
    ensures r.next.squatTimes ==
              (if s.reachedHalfway then s.squatTimes + [now - s.startTime.value] else s.squatTimes)
    ensures s.reachedHalfway ==> (r.said != [] <==> NotFifth(r.next.count)) &&
                                 (r.said == [] || r.said == [Choose(Encouragements, pick)])
    ensures !s.reachedHalfway && s.attempting ==> r.said == [Choose(InvalidAttempts, pick)]
    ensures !s.reachedHalfway && !s.attempting ==> r.said == []
  {
    var s1 := s.(feedback := "Down");
    if s1.reachedHalfway then
      var count := s1.count + 1;
      var said := if NotFifth(count) then [Choose(Encouragements, pick)] else [];
      Outcome(s1.(count := count, squatTimes := s1.squatTimes + [now - s1.startTime.value],
                  reachedHalfway := false, attempting := false), said)
    else
      var said := if s1.attempting then [Choose(InvalidAttempts, pick)] else [];
      Outcome(s1.(attempting := false), said)
  }

  /** The frame loop's counting body on a frame with landmarks. */
  function Move(s: State, a: LegPose, now: real, pick: nat): (r: Outcome)
    requires Counters(s)
    // the form latch is set by the hips and never released, and gates all counting
    ensures r.next.form == (s.form || Upright(a))
    ensures !r.next.form ==> Frozen(s, r.next) && r.said == []
    // an attempt starts once per descent, stamped with the frame's time
    ensures r.next.attempts == (if StartStep(s, a) then s.attempts + 1 else s.attempts)
    ensures r.next.startTime == (if StartStep(s, a) then Some(now) else s.startTime)
    // the halfway flag: raised by depth while bent, cleared on standing, and in the band
    // between kept by an open attempt only
    ensures r.next.reachedHalfway ==
              (if !r.next.form then s.reachedHalfway
               else if Down(a) then s.reachedHalfway || Deep(a)
               else if Standing(a) then false
               else s.reachedHalfway && s.attempting)
    ensures r.next.attempting ==
              (if r.next.form && Down(a) then true
               else if r.next.form && Standing(a) then false
               else s.attempting)
    // a squat is counted and timed exactly when standing up after halfway
    ensures r.next.count == (if CountStep(s, a) then s.count + 1 else s.count)
    ensures r.next.squatTimes ==
              (if CountStep(s, a) then s.squatTimes + [now - s.startTime.value] else s.squatTimes)
    // speech: an encouragement on a count step unless count is a multiple of 5, an
    // invalid-attempt message when an open attempt stands up short, nothing otherwise
    ensures CountStep(s, a) ==> (r.said != [] <==> NotFifth(r.next.count)) &&
                                (r.said == [] || r.said == [Choose(Encouragements, pick)])
    ensures FailStep(s, a) ==> r.said == [Choose(InvalidAttempts, pick)]
    ensures !CountStep(s, a) && !FailStep(s, a) ==> r.said == []
    ensures r.next.symmetry == Symmetry(a.rightKnee, a.leftKnee)
    // the rate is recomputed from the counters before the frame, and kept while count is 0
    ensures r.next.successRate == SuccessRate(s.successRate, s.count, s.attempts)
    ensures Counters(r.next)
  {
    var s1 := s.(successRate := SuccessRate(s.successRate, s.count, s.attempts),
                 symmetry := Symmetry(a.rightKnee, a.leftKnee),
                 form := s.form || Upright(a));
    if !s1.form then Outcome(s1, [])
    else if Down(a) then Outcome(Descend(s1, a, now), [])
    else if Standing(a) then Rise(s1, now, pick)
    else if s1.attempting then Outcome(s1.(feedback := "Go down more!!!"), [])
    else Outcome(s1.(attempting := false, reachedHalfway := false), [])
  }

  /** One pass of the frame loop: a frame without landmarks changes nothing and says nothing. */
  function Next(s: State, f: Frame<LegPose>): (r: Outcome)
    requires Counters(s)
    ensures f.pose.None? ==> r == Outcome(s, [])
    ensures r.next.form == (s.form || (f.pose.Some? && Upright(f.pose.value)))
    ensures !r.next.form ==> Frozen(s, r.next)
    ensures |r.said| <= 1
    ensures Counters(r.next)
  {
    match f.pose
    case None => Outcome(s, [])
    case Some(a) => Move(s, a, f.now, f.pick)
  }

  /** The state after a run of frames. */
  function Trace(s: State, fs: seq<Frame<LegPose>>): (t: State)
    requires Counters(s)
    ensures Counters(t)
    decreases |fs|
  {
    if fs == [] then s else Next(Trace(s, fs[..|fs| - 1]), fs[|fs| - 1]).next
  }

  /** Every text requested during a run of frames, in order. */
  function Said(s: State, fs: seq<Frame<LegPose>>): seq<string>
    requires Counters(s)
    decreases |fs|
  {
    if fs == [] then []
    else
      var init := fs[..|fs| - 1];
      Said(s, init) + Next(Trace(s, init), fs[|fs| - 1]).said
  }

  /** Staying bent over two frames starts one attempt, not two. */
  lemma {:induction false} BentHoldStartsOnce(s: State, a1: LegPose, a2: LegPose, t1: real, t2: real, p1: nat, p2: nat)
    requires Counters(s) && Down(a1) && Down(a2)
    ensures Move(Move(s, a1, t1, p1).next, a2, t2, p2).next.attempts <= s.attempts + 1
  {
    var m := Move(s, a1, t1, p1).next;
    if m.attempts == s.attempts + 1 {
      assert m.attempting;
      assert !StartStep(m, a2);
    }
  }

  /** A squat that never gets below 100 degrees is attempted but not counted, and the rising
      frame requests one invalid-attempt message. */
  lemma ShallowSquat(s: State, a1: LegPose, a2: LegPose, t1: real, t2: real, p1: nat, p2: nat)
    requires Counters(s) && s.form && !s.attempting
    requires Down(a1) && !Deep(a1) && Standing(a2)
    ensures var m := Move(s, a1, t1, p1).next;
            var r := Move(m, a2, t2, p2);
            r.next.attempts == s.attempts + 1 && r.next.count == s.count &&
            r.said == [Choose(InvalidAttempts, p2)]
  {
    var m := Move(s, a1, t1, p1).next;
    assert m.attempting && !m.reachedHalfway;
    assert FailStep(m, a2);
  }

  /** Until the form latch is set nothing that counts squats moves, however many frames pass. */
  lemma {:induction false} FormGatesCounting(s: State, fs: seq<Frame<LegPose>>)
    requires Counters(s)
    requires !Trace(s, fs).form
    ensures Frozen(s, Trace(s, fs))
    decreases |fs|
  {
    if fs != [] {
      var init := fs[..|fs| - 1];
      assert !Trace(s, init).form;
      FormGatesCounting(s, init);
    }
  }

  /** The counting globals of the script, updated in place frame by frame. */
  class Session {
    var attempts: nat
    var count: nat
    var form: bool
    var attempting: bool
    var reachedHalfway: bool
    var startTime: Option<real>
    var squatTimes: seq<real>
    var successRate: real
    var symmetry: real
    var feedback: string
    const speaker: FifoSpeaker

    constructor ()
      ensures Snapshot() == Initial
      ensures fresh(speaker) && speaker.queue == []
    {
      attempts, count, form, attempting, reachedHalfway := 0, 0, false, false, false;
      startTime, squatTimes, successRate, symmetry := None, [], 0.0, 0.0;
      feedback := "Start Workout";
      speaker := new FifoSpeaker();
    }

    function Snapshot(): State
      reads this
    {
      State(attempts, count, form, attempting, reachedHalfway, startTime, squatTimes,
            successRate, symmetry, feedback)
    }

    /** The knees-bent block. */
    method DescendBlock(a: LegPose, now: real)
      requires Down(a)
      modifies this
      ensures Snapshot() == Descend(old(Snapshot()), a, now)
    {
      feedback := "Go down more";
      if !attempting {
        attempts := attempts + 1;
        attempting := true;
        startTime := Some(now);
      }
      if a.rightKnee < 100.0 && a.leftKnee < 100.0 {
        feedback := "Up";
        reachedHalfway := true;
      }
    }

    /** The standing block. */
    method RiseBlock(now: real, pick: nat)
      requires reachedHalfway ==> startTime.Some?
      modifies this, speaker
      ensures Snapshot() == Rise(old(Snapshot()), now, pick).next
      ensures speaker.queue == old(speaker.queue) + Rise(old(Snapshot()), now, pick).said
    {
      feedback := "Down";
      if reachedHalfway {
        count := count + 1;
        var duration := now - startTime.value;
        squatTimes := squatTimes + [duration];
        if count % 5 != 0 {
          var encouragement := Choose(Encouragements, pick);
          speaker.SpeakText(encouragement);
        }
        reachedHalfway := false;
      } else {
        if attempting {
          var message := Choose(InvalidAttempts, pick);
          speaker.SpeakText(message);
        }
      }
      attempting := false;
    }

    /** The loop body on a frame with landmarks. */
    method Count(a: LegPose, now: real, pick: nat)
      requires Counters(Snapshot())
      modifies this, speaker
      ensures Snapshot() == Move(old(Snapshot()), a, now, pick).next
      ensures speaker.queue == old(speaker.queue) + Move(old(Snapshot()), a, now, pick).said
    {
      ghost var s0 := Snapshot();
      if count > 0 {
        successRate := (count as real) / (attempts as real) * 100.0;
      }
      symmetry := Symmetry(a.rightKnee, a.leftKnee);
      if a.rightHip > 150.0 && a.leftHip > 150.0 {
        form := true;
      }
      ghost var s1 := s0.(successRate := SuccessRate(s0.successRate, s0.count, s0.attempts),
                          symmetry := Symmetry(a.rightKnee, a.leftKnee),
                          form := s0.form || Upright(a));
      assert Snapshot() == s1;
      if form {
        if a.rightKnee < 140.0 && a.leftKnee < 140.0 {
          DescendBlock(a, now);
        } else if a.rightKnee > 160.0 && a.leftKnee > 160.0 {
          RiseBlock(now, pick);
        } else {
          if attempting {
            feedback := "Go down more!!!";
          } else {
            attempting := false;
            reachedHalfway := false;
          }
        }
      }
    }

    /** The body of the frame loop for one frame. */
    method Step(f: Frame<LegPose>)
      requires Counters(Snapshot())
      modifies this, speaker
      ensures Snapshot() == Next(old(Snapshot()), f).next
      ensures speaker.queue == old(speaker.queue) + Next(old(Snapshot()), f).said
    {
      if f.pose.Some? {
        Count(f.pose.value, f.now, f.pick);
      }
    }

    /** The frame loop: one Step per captured frame, in order. */
    method Run(frames: seq<Frame<LegPose>>)
      requires Counters(Snapshot())
      modifies this, speaker
      ensures Counters(Snapshot())
      ensures Snapshot() == Trace(old(Snapshot()), frames)
      ensures speaker.queue == old(speaker.queue) + Said(old(Snapshot()), frames)
    {
      ghost var s0 := Snapshot();
      ghost var q0 := speaker.queue;
      var i := 0;
      while i < |frames|
        invariant 0 <= i <= |frames|
        invariant Snapshot() == Trace(s0, frames[..i])
        invariant speaker.queue == q0 + Said(s0, frames[..i])
      {
        assert frames[..i + 1][..i] == frames[..i];
        Step(frames[i]);
        i := i + 1;
      }
      assert frames[..i] == frames;
    }
  }
}
