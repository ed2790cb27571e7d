/** The squat counter of integrate/squats.py: a two-phase `direction` machine on both knees,
    gated by a hip form latch, with no depth requirement, the success rate, the knee symmetry
    metric, and speech through the plain FIFO dispatcher. */
module IntegrateSquats {
  import opened Common
  import opened Feedback

  const Encouragements: seq<string> := [
    "Great job! Keep it up!",
    "You're doing amazing!",
    "Fantastic effort! Keep pushing!",
    "You're almost there!",
    "Excellent work! Stay strong!"
  ]

  const InvalidAttempts: seq<string> := [
    "Almost there! Fix your form!",
    "Not quite right! Try again!",
    "Keep going! You're doing well!",
    "Check your posture and try again!",
    "You got this! Adjust your form!"
  ]

  /** The script's counting globals. */
  datatype State = State(attempts: nat, count: nat, direction: nat, form: bool, startTime: real,
                         successRate: real, symmetry: real, feedback: string)

  const Initial: State := State(0, 0, 0, false, 0.0, 0.0, 0.0, "Start Workout")

  /** The state after a frame and the texts handed to speak_text during it. */
  datatype Outcome = Outcome(next: State, said: seq<string>)

  /** Both knees below 140: down. */
  predicate Down(a: LegPose) { a.rightKnee < 140.0 && a.leftKnee < 140.0 }

  /** Both knees above 160: up. */
  predicate Standing(a: LegPose) { a.rightKnee > 160.0 && a.leftKnee > 160.0 }

  /** Both hips above 150: the form latch test. */
  predicate Upright(a: LegPose) { a.rightHip > 150.0 && a.leftHip > 150.0 }

  /** `direction` is 0 or 1, every attempt is counted or still open, nothing is attempted before
      the latch, the rate is a percentage. */
  predicate Counters(s: State) {
    s.direction <= 1 &&
    s.attempts == s.count + s.direction &&
    (s.attempts > 0 ==> s.form) &&
    0.0 <= s.successRate <= 100.0
  }

  /** Nothing that counts squats changed between two states. */
  predicate Frozen(s: State, t: State) {
    t.attempts == s.attempts && t.count == s.count && t.direction == s.direction &&
    t.startTime == s.startTime
  }

  /** Under the latch, knees bent with `direction == 0`: the rep opens. */
  predicate AttemptStep(s: State, a: LegPose) {
    (s.form || Upright(a)) && Down(a) && s.direction == 0
  }

  /** Under the latch, knees straight with `direction == 1`: the rep is counted. */
  predicate CountStep(s: State, a: LegPose) {
    (s.form || Upright(a)) && Standing(a) && s.direction == 1
  }

  /** The knees-bent block. */
  function Descend(s: State, now: real, pick: nat): (r: Outcome)
    ensures r.next.count == s.count && r.next.form == s.form && r.next.startTime == now
    ensures r.next.successRate == s.successRate && r.next.symmetry == s.symmetry
    ensures if s.direction == 0
            then r.next.direction == 1 && r.next.attempts == s.attempts + 1 &&
                 (r.said != [] <==> NotFifth(r.next.attempts)) &&
                 (r.said == [] || r.said == [Choose(InvalidAttempts, pick)])
            else r.next.direction == s.direction && r.next.attempts == s.attempts && r.said == []
  {
    var s1 := s.(feedback := "Down");
    var o := if s1.direction == 0 then
               var attempts := s1.attempts + 1;
               Outcome(s1.(direction := 1, attempts := attempts),
                       if NotFifth(attempts) then [Choose(InvalidAttempts, pick)] else [])
             else Outcome(s1, []);
    Outcome(o.next.(startTime := now), o.said)
  }

  /** The knees-straight block. */
  function Rise(s: State, pick: nat): (r: Outcome)
    ensures r.next.attempts == s.attempts && r.next.form == s.form && r.next.startTime == s.startTime
    ensures r.next.successRate == s.successRate && r.next.symmetry == s.symmetry
    ensures if s.direction == 1
            then r.next.direction == 0 && r.next.count == s.count + 1 &&
                 (r.said != [] <==> NotFifth(r.next.count)) &&
                 (r.said == [] || r.said == [Choose(Encouragements, pick)])
            else r.next.direction == s.direction && r.next.count == s.count && r.said == []
  {
    var s1 := s.(feedback := "Up");
    if s1.direction == 1 then
      var count := s1.count + 1;
      Outcome(s1.(count := count, direction := 0),
              if NotFifth(count) then [Choose(Encouragements, pick)] else [])
    else Outcome(s1, [])
  }

  /** The frame loop's counting body on a frame with landmarks. */
  function Move(s: State, a: LegPose, now: real, pick: nat): (r: Outcome)
    requires s.count <= s.attempts
    // the form latch is set by the hips and never released, and gates all counting
    ensures r.next.form == (s.form || Upright(a))
    ensures !r.next.form ==> Frozen(s, r.next) && r.said == []
    // attempts rise by one exactly on an attempt step, which opens the rep
    ensures r.next.attempts == (if AttemptStep(s, a) then s.attempts + 1 else s.attempts)
    ensures AttemptStep(s, a) ==> r.next.direction == 1
    // the start time is refreshed on every bent frame under the latch, not only the first
    ensures r.next.startTime == (if r.next.form && Down(a) then now else s.startTime)
    // count rises by one exactly on a count step, which closes the rep
    ensures r.next.count == (if CountStep(s, a) then s.count + 1 else s.count)
    ensures CountStep(s, a) ==> r.next.direction == 0
    // speech: an invalid-attempt message on an attempt step, an encouragement on a count step,
    // each unless the new counter is a multiple of 5; nothing on other frames
    ensures AttemptStep(s, a) ==> (r.said != [] <==> NotFifth(r.next.attempts)) &&
                                  (r.said == [] || r.said == [Choose(InvalidAttempts, pick)])
    ensures CountStep(s, a) ==> (r.said != [] <==> NotFifth(r.next.count)) &&
                                (r.said == [] || r.said == [Choose(Encouragements, pick)])
    ensures !AttemptStep(s, a) && !CountStep(s, a) ==> r.said == []
    ensures r.next.symmetry == Symmetry(a.rightKnee, a.leftKnee)
    // the rate is recomputed from the counters before the frame, and kept while count is 0
    ensures r.next.successRate == SuccessRate(s.successRate, s.count, s.attempts)
    ensures Counters(s) ==> Counters(r.next)
  {
    var s1 := s.(successRate := SuccessRate(s.successRate, s.count, s.attempts),
                 symmetry := Symmetry(a.rightKnee, a.leftKnee),
                 form := s.form || Upright(a));
    if !s1.form then Outcome(s1, [])
    else
      var o2 := if Down(a) then Descend(s1, now, pick) else Outcome(s1, []);
      var o3 := if Standing(a) then Rise(o2.next, pick) else Outcome(o2.next, []);
      Outcome(o3.next, o2.said + o3.said)
  }

  /** One pass of the frame loop: a frame without landmarks changes nothing and says nothing. */
  function Next(s: State, f: Frame<LegPose>): (r: Outcome)
    requires s.count <= s.attempts
    ensures f.pose.None? ==> r == Outcome(s, [])
    ensures r.next.form == (s.form || (f.pose.Some? && Upright(f.pose.value)))
    ensures !r.next.form ==> Frozen(s, r.next)
    ensures |r.said| <= 1
    ensures Counters(s) ==> Counters(r.next)
  {
    match f.pose
    case None => Outcome(s, [])
    case Some(a) => Move(s, a, f.now, f.pick)
  }

  /** There is no depth requirement: under the latch, any bend below 140 followed by standing
      above 160 counts one squat. */
  lemma {:induction false} NoDepthRequirement(s: State, a1: LegPose, a2: LegPose, t1: real, t2: real, p1: nat, p2: nat)
    requires Counters(s) && s.form && s.direction == 0
    requires Down(a1) && Standing(a2)
    ensures var m := Move(s, a1, t1, p1).next;
            Move(m, a2, t2, p2).next.count == s.count + 1 &&
            Move(m, a2, t2, p2).next.attempts == s.attempts + 1
  {
    var m := Move(s, a1, t1, p1).next;
    assert AttemptStep(s, a1);
    assert m.direction == 1 && m.form;
    assert CountStep(m, a2);
  }

  /** The state after a run of frames. */
  function Trace(s: State, fs: seq<Frame<LegPose>>): (t: State)
    requires Counters(s)
    ensures Counters(t)
    decreases |fs|
  {
    if fs == [] then s else Next(Trace(s, fs[..|fs| - 1]), fs[|fs| - 1]).next
  }

  /** Every text requested during a run of frames, in order. */
  function Said(s: State, fs: seq<Frame<LegPose>>): seq<string>
    requires Counters(s)
    decreases |fs|
  {
    if fs == [] then []
    else
      var init := fs[..|fs| - 1];
      Said(s, init) + Next(Trace(s, init), fs[|fs| - 1]).said
  }

  /** A run requests at most one text per frame. */
  lemma {:induction false} SaidAtMostOnePerFrame(s: State, fs: seq<Frame<LegPose>>)
    requires Counters(s)
    ensures |Said(s, fs)| <= |fs|
    decreases |fs|
  {
    if fs != [] {
      SaidAtMostOnePerFrame(s, fs[..|fs| - 1]);
    }
  }

  /** Until the form latch is set nothing that counts squats moves, however many frames pass. */
  lemma {:induction false} FormGatesCounting(s: State, fs: seq<Frame<LegPose>>)
    requires Counters(s)
    requires !Trace(s, fs).form
    ensures Frozen(s, Trace(s, fs))
    decreases |fs|
  {
    if fs != [] {
      var init := fs[..|fs| - 1];
      assert !Trace(s, init).form;
      FormGatesCounting(s, init);
    }
  }

  /** The counting globals of the script, updated in place frame by frame. */
  class Session {
    var attempts: nat
    var count: nat
    var direction: nat
    var form: bool
    var startTime: real
    var successRate: real
    var symmetry: real
    var feedback: string
    const speaker: FifoSpeaker

    constructor ()
      ensures Snapshot() == Initial
      ensures fresh(speaker) && speaker.queue == []
    {
      attempts, count, direction, form := 0, 0, 0, false;
      startTime, successRate, symmetry := 0.0, 0.0, 0.0;
      feedback := "Start Workout";
      speaker := new FifoSpeaker();
    }

    function Snapshot(): State
      reads this
    {
      State(attempts, count, direction, form, startTime, successRate, symmetry, feedback)
    }

    /** The knees-bent block. */
    method DescendBlock(now: real, pick: nat)
      modifies this, speaker
      ensures Snapshot() == Descend(old(Snapshot()), now, pick).next
      ensures speaker.queue == old(speaker.queue) + Descend(old(Snapshot()), now, pick).said
    {
      feedback := "Down";
      if direction == 0 {
        direction := 1;
        attempts := attempts + 1;
        if attempts % 5 != 0 {
          var message := Choose(InvalidAttempts, pick);
          speaker.SpeakText(message);
        }
      }
      startTime := now;
    }

    /** The knees-straight block. */
    method RiseBlock(pick: nat)
      modifies this, speaker
      ensures Snapshot() == Rise(old(Snapshot()), pick).next
      ensures speaker.queue == old(speaker.queue) + Rise(old(Snapshot()), pick).said
    {
      feedback := "Up";
      if direction == 1 {
        count := count + 1;
        direction := 0;
        if count % 5 != 0 {
          var encouragement := Choose(Encouragements, pick);
          speaker.SpeakText(encouragement);
        }
      }
    }

    /** The loop body on a frame with landmarks. */
    method Count(a: LegPose, now: real, pick: nat)
      requires count <= attempts
      modifies this, speaker
      ensures Snapshot() == Move(old(Snapshot()), a, now, pick).next
      ensures speaker.queue == old(speaker.queue) + Move(old(Snapshot()), a, now, pick).said
    {
      ghost var s0 := Snapshot();
      ghost var q0 := speaker.queue;
      if count > 0 {
        successRate := (count as real) / (attempts as real) * 100.0;
      }
      symmetry := Symmetry(a.rightKnee, a.leftKnee);
      if a.rightHip > 150.0 && a.leftHip > 150.0 {
        form := true;
      }
      ghost var s1 := s0.(successRate := SuccessRate(s0.successRate, s0.count, s0.attempts),
                          symmetry := Symmetry(a.rightKnee, a.leftKnee),
                          form := s0.form || Upright(a));
      assert Snapshot() == s1;
      if form {
        if a.rightKnee < 140.0 && a.leftKnee < 140.0 {
          DescendBlock(now, pick);
        }
        ghost var o2 := if Down(a) then Descend(s1, now, pick) else Outcome(s1, []);
        assert Snapshot() == o2.next && speaker.queue == q0 + o2.said;
        if a.rightKnee > 160.0 && a.leftKnee > 160.0 {
          RiseBlock(pick);
        }
      }
    }

    /** The body of the frame loop for one frame. */
    method Step(f: Frame<LegPose>)
      requires Counters(Snapshot())
      modifies this, speaker
      ensures Snapshot() == Next(old(Snapshot()), f).next
      ensures speaker.queue == old(speaker.queue) + Next(old(Snapshot()), f).said
    {
      if f.pose.Some? {
        Count(f.pose.value, f.now, f.pick);
      }
    }

    /** The frame loop: one Step per captured frame, in order. */
    method Run(frames: seq<Frame<LegPose>>)
      requires Counters(Snapshot())
      modifies this, speaker
      ensures Counters(Snapshot())
      ensures Snapshot() == Trace(old(Snapshot()), frames)
      ensures speaker.queue == old(speaker.queue) + Said(old(Snapshot()), frames)
    {
      ghost var s0 := Snapshot();
      ghost var q0 := speaker.queue;
      var i := 0;
      while i < |frames|
        invariant 0 <= i <= |frames|
        invariant Snapshot() == Trace(s0, frames[..i])
        invariant speaker.queue == q0 + Said(s0, frames[..i])
      {
        assert frames[..i + 1][..i] == frames[..i];
        Step(frames[i]);
        i := i + 1;
      }
      assert frames[..i] == frames;
    }
  }
}
