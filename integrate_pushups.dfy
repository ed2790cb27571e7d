/** The push-up counter of integrate/pushups.py: a two-phase machine (`direction` 0 then 1)
    gated by a form latch, with a halfway flag, per-rep timing, the success rate, the arm
    symmetry metric, and speech through the cooldown dispatcher. */
module IntegratePushups {
  import opened Common
  import opened Feedback

  const Encouragements: seq<string> := [
    "Great push! Keep going strong!",
    "You're doing awesome—power through it!",
    "Fantastic push-ups! Stay steady!",
    "Keep it up; you're building strength!",
    "Amazing form! Keep pushing!",
    "You're unstoppable! Almost there!",
    "Strong push! Stay focused!",
    "Looking great—keep those reps coming!",
    "Way to go! Keep that core tight!",
    "Outstanding effort! You’re crushing it!"
  ]

  const InvalidAttempts: seq<string> := [
    "Almost there! Keep your back straight!",
    "Not quite—try lowering evenly!",
    "Focus on your posture and try again!",
    "You got this! Tighten your core!",
    "Almost perfect—watch your elbows!",
    "Adjust your form for a better push!",
    "Keep your head aligned and try again!",
    "Nearly there! Lower with control!",
    "Keep your body steady and try once more!",
    "Almost right! Maintain a steady motion!"
  ]

  /** The script's counting globals. `form` is the 0/1 latch as a bool. */
  datatype State = State(attempts: nat, count: nat, direction: nat, form: bool,
                         reachedHalfway: bool, startTime: real, pushupTimes: seq<real>,
                         successRate: real, symmetry: real, feedback: string)

  const Initial: State := State(0, 0, 0, false, false, 0.0, [], 0.0, 0.0, "Start Workout")

  /** The state after a frame and the texts handed to speak_text during it, in call order. */
  datatype Outcome = Outcome(next: State, said: seq<string>)

  /** `per`: the right elbow over [90, 160] onto [0, 100]. */
  function Progress(a: ArmPose): real {
    Percent(a.rightElbow, 90.0, 160.0)
  }

  /** The counters the script keeps consistent: `direction` is 0 or 1, every attempt is either
      counted or still open, nothing is counted before the form latch, the rate is a percentage. */
  predicate Counters(s: State) {
    s.direction <= 1 &&
    s.attempts == s.count + s.direction &&
    0.0 <= s.successRate <= 100.0 &&
    (s.reachedHalfway || s.attempts > 0 ==> s.form)
  }

  /** Counters plus timing: a duration is recorded on every attempt after the first, and the
      start time is set exactly when an attempt has been seen. */
  predicate Valid(s: State) {
    Counters(s) &&
    |s.pushupTimes| == (if s.attempts == 0 then 0 else s.attempts - 1) &&
    (s.startTime == 0.0 <==> s.attempts == 0)
  }

  /** Nothing that counts reps changed between two states. */
  predicate Frozen(s: State, t: State) {
    t.attempts == s.attempts && t.count == s.count && t.direction == s.direction &&
    t.reachedHalfway == s.reachedHalfway && t.startTime == s.startTime &&
    t.pushupTimes == s.pushupTimes
  }

  /** The frame is an attempt step: latched form, arms bent with `per == 0`, straight hips,
      `direction == 0` and the halfway flag set. */
  predicate AttemptStep(s: State, a: ArmPose) {
    (s.form || ArmsExtended(a)) && Progress(a) == 0.0 && ArmsBent(a) &&
    s.direction == 0 && s.reachedHalfway
  }

  /** The frame is a count step: `per == 100` with the full baseline and `direction == 1`. */
  predicate CountStep(s: State, a: ArmPose) {
    Progress(a) == 100.0 && ArmsExtended(a) && s.direction == 1
  }

  /** `per == 0`: the bent-arm branch. */
  function AtBent(s: State, a: ArmPose, now: real, pick: nat): (r: Outcome)
    ensures r.next.form == s.form && r.next.count == s.count
    ensures r.next.successRate == s.successRate && r.next.symmetry == s.symmetry
    ensures if ArmsBent(a) && s.direction == 0 && s.reachedHalfway
            then r.next.attempts == s.attempts + 1 && r.next.direction == 1 && !r.next.reachedHalfway &&
                 r.next.startTime == now &&
                 r.next.pushupTimes == (if s.startTime != 0.0 then s.pushupTimes + [now - s.startTime] else s.pushupTimes) &&
                 (r.said == [] <==> !NotFifth(r.next.attempts)) &&
                 (r.said == [] || r.said == [Choose(InvalidAttempts, pick)])
            else r.next.attempts == s.attempts && r.next.direction == s.direction &&
                 r.next.reachedHalfway == s.reachedHalfway && r.next.startTime == s.startTime &&
                 r.next.pushupTimes == s.pushupTimes
    // bent arms show "Up" and speak only on an attempt step
    ensures ArmsBent(a) ==> r.next.feedback == "Up"
    ensures ArmsBent(a) && !(s.direction == 0 && s.reachedHalfway) ==> r.said == []
    // a failed bent check shows and speaks the posture message
    ensures !ArmsBent(a) ==>
              r.next.feedback == (if a.rightHip <= 160.0 then "Keep your body straight" else "Fix Form") &&
              r.said == [r.next.feedback]
  {
    if ArmsBent(a) then
      if s.direction == 0 && s.reachedHalfway then
        var attempts := s.attempts + 1;
        var said := if NotFifth(attempts) then [Choose(InvalidAttempts, pick)] else [];
        var times := if s.startTime != 0.0 then s.pushupTimes + [now - s.startTime] else s.pushupTimes;
        Outcome(s.(feedback := "Up", direction := 1, attempts := attempts, reachedHalfway := false,
                   pushupTimes := times, startTime := now), said)
      else Outcome(s.(feedback := "Up"), [])
    else if a.rightHip <= 160.0 then
      Outcome(s.(feedback := "Keep your body straight"), ["Keep your body straight"])
    else
      Outcome(s.(feedback := "Fix Form"), ["Fix Form"])
  }

  /** `per == 100`: the extended-arm branch. */
  function AtExtended(s: State, a: ArmPose, pick: nat): (r: Outcome)
    ensures r.next.form == s.form && r.next.attempts == s.attempts
    ensures r.next.successRate == s.successRate && r.next.symmetry == s.symmetry
    ensures r.next.reachedHalfway == s.reachedHalfway && r.next.startTime == s.startTime
    ensures r.next.pushupTimes == s.pushupTimes
    ensures if ArmsExtended(a) && s.direction == 1
            then r.next.count == s.count + 1 && r.next.direction == 0
            else r.next.count == s.count && r.next.direction == s.direction
    ensures r.next.feedback ==
              (if ArmsExtended(a) then "Down"
               else if a.rightHip <= 160.0 then "Keep your body straight" else "Fix Form")
    // a count step requests an encouragement unless the count is a multiple of 5
    ensures ArmsExtended(a) && s.direction == 1 ==>
              (r.said != [] <==> NotFifth(r.next.count)) &&
              (r.said == [] || r.said == [Choose(Encouragements, pick)])
    ensures ArmsExtended(a) && s.direction != 1 ==> r.said == []
    // of the two posture messages only "Keep your body straight" is spoken here
    ensures !ArmsExtended(a) ==> r.said == (if a.rightHip <= 160.0 then ["Keep your body straight"] else [])
  {
    if ArmsExtended(a) then
      if s.direction == 1 then
        var count := s.count + 1;
        var said := if NotFifth(count) then [Choose(Encouragements, pick)] else [];
        Outcome(s.(feedback := "Down", count := count, direction := 0), said)
      else Outcome(s.(feedback := "Down"), [])
    else if a.rightHip <= 160.0 then
      Outcome(s.(feedback := "Keep your body straight"), ["Keep your body straight"])
    else
      Outcome(s.(feedback := "Fix Form"), [])
  }

  /** The frame loop's counting body on a frame with landmarks. */
  function Move(s: State, a: ArmPose, now: real, pick: nat): (r: Outcome)
    requires s.count <= s.attempts
    // the form latch is set by the baseline and never released
    ensures r.next.form == (s.form || ArmsExtended(a))
    ensures !r.next.form ==> Frozen(s, r.next) && r.said == []
    // attempts rise by one exactly on an attempt step, which opens the rep
    ensures r.next.attempts == (if AttemptStep(s, a) then s.attempts + 1 else s.attempts)
    ensures AttemptStep(s, a) ==> r.next.direction == 1 && r.next.startTime == now
    ensures !AttemptStep(s, a) ==> r.next.startTime == s.startTime
    // the halfway flag is raised by `per >= 50` under the latch and cleared only by an attempt step
    ensures r.next.reachedHalfway ==
              (!AttemptStep(s, a) && (s.reachedHalfway || (r.next.form && Progress(a) >= 50.0)))
    // the duration list grows exactly on attempt steps after the first one
    ensures r.next.pushupTimes ==
              (if AttemptStep(s, a) && s.startTime != 0.0
               then s.pushupTimes + [now - s.startTime] else s.pushupTimes)
    // count rises by one exactly on a count step, which closes the rep
    ensures r.next.count == (if CountStep(s, a) then s.count + 1 else s.count)
    ensures CountStep(s, a) ==> r.next.direction == 0
    // an invalid-attempt message is requested on an attempt step unless attempts is a multiple of 5
    ensures AttemptStep(s, a) ==>
              (r.said == [] <==> !NotFifth(r.next.attempts)) &&
              (r.said == [] || r.said == [Choose(InvalidAttempts, pick)])
    // an encouragement is requested on a count step unless count is a multiple of 5
    ensures CountStep(s, a) ==>
              (r.said != [] <==> NotFifth(r.next.count)) &&
              (r.said == [] || r.said == [Choose(Encouragements, pick)])
    // the feedback text of the frame, and the posture messages that are spoken
    ensures !r.next.form || (0.0 < Progress(a) < 100.0) ==> r.next.feedback == s.feedback && r.said == []
    ensures r.next.form && Progress(a) == 0.0 ==>
              r.next.feedback == (if ArmsBent(a) then "Up"
                                  else if a.rightHip <= 160.0 then "Keep your body straight" else "Fix Form")
    ensures r.next.form && Progress(a) == 0.0 && !ArmsBent(a) ==> r.said == [r.next.feedback]
    ensures r.next.form && Progress(a) == 0.0 && ArmsBent(a) && !AttemptStep(s, a) ==> r.said == []
    ensures r.next.form && Progress(a) == 100.0 ==>
              r.next.feedback == (if ArmsExtended(a) then "Down"
                                  else if a.rightHip <= 160.0 then "Keep your body straight" else "Fix Form")
    ensures r.next.form && Progress(a) == 100.0 && !ArmsExtended(a) ==>
              r.said == (if a.rightHip <= 160.0 then ["Keep your body straight"] else [])
    ensures r.next.form && Progress(a) == 100.0 && ArmsExtended(a) && s.direction != 1 ==> r.said == []
    // the rate is recomputed from the counters as they were before the frame (kept while count is 0)
    ensures r.next.successRate == SuccessRate(s.successRate, s.count, s.attempts)
    ensures r.next.symmetry == Symmetry(a.rightElbow, a.leftElbow)
    ensures Counters(s) ==> Counters(r.next)
  {
    var per := Progress(a);
    var s1 := s.(successRate := SuccessRate(s.successRate, s.count, s.attempts),
                 symmetry := Symmetry(a.rightElbow, a.leftElbow),
                 form := s.form || ArmsExtended(a));
    if !s1.form then Outcome(s1, [])
    else
      var s2 := if per >= 50.0 then s1.(reachedHalfway := true) else s1;
      var o3 := if per == 0.0 then AtBent(s2, a, now, pick) else Outcome(s2, []);
      var o4 := if per == 100.0 then AtExtended(o3.next, a, pick) else Outcome(o3.next, []);
      Outcome(o4.next, o3.said + o4.said)
  }

  /** One pass of the frame loop: a frame without landmarks changes nothing and says nothing. */
  function Next(s: State, f: Frame<ArmPose>): (r: Outcome)
    requires s.count <= s.attempts
    ensures f.pose.None? ==> r == Outcome(s, [])
    ensures r.next.form == (s.form || (f.pose.Some? && ArmsExtended(f.pose.value)))
    ensures !r.next.form ==> Frozen(s, r.next)
    ensures Counters(s) ==> Counters(r.next)
  {
    match f.pose
    case None => Outcome(s, [])
    case Some(a) => Move(s, a, f.now, f.pick)
  }

  /** The state after a run of frames. */
  function Trace(s: State, fs: seq<Frame<ArmPose>>): (t: State)
    requires Counters(s)
    ensures Counters(t)
    decreases |fs|
  {
    if fs == [] then s else Next(Trace(s, fs[..|fs| - 1]), fs[|fs| - 1]).next
  }

  /** The dispatcher's state after a run of frames. */
  function Heard(d: Spoken, s: State, fs: seq<Frame<ArmPose>>): Spoken
    requires Counters(s)
    decreases |fs|
  {
    if fs == [] then d
    else
      var init := fs[..|fs| - 1];
      var f := fs[|fs| - 1];
      SpeakAll(Heard(d, s, init), Next(Trace(s, init), f).said, f.now)
  }

  predicate PositiveTimes(fs: seq<Frame<ArmPose>>) {
    forall i :: 0 <= i < |fs| ==> fs[i].now > 0.0
  }

  /** One frame keeps the timing invariant when the clock reads after the epoch. */
  lemma NextKeepsValid(s: State, f: Frame<ArmPose>)
    requires Valid(s) && f.now > 0.0
    ensures Valid(Next(s, f).next)
  {
  }

  /** With clock readings after the epoch, one duration is recorded per attempt after the first:
      `|pushup_times| == max(0, attempts - 1)` on every run from the initial state. */
  lemma {:induction false} TraceValid(s: State, fs: seq<Frame<ArmPose>>)
    requires Valid(s) && PositiveTimes(fs)
    ensures Valid(Trace(s, fs))
    decreases |fs|
  {
    if fs != [] {
      var init := fs[..|fs| - 1];
      assert PositiveTimes(init) by {
        forall i | 0 <= i < |init| ensures init[i].now > 0.0 { assert init[i] == fs[i]; }
      }
      TraceValid(s, init);
      NextKeepsValid(Trace(s, init), fs[|fs| - 1]);
    }
  }

  /** Until the form latch is set nothing that counts reps moves, however many frames pass. */
  lemma {:induction false} FormGatesCounting(s: State, fs: seq<Frame<ArmPose>>)
    requires Counters(s)
    requires !Trace(s, fs).form
    ensures Frozen(s, Trace(s, fs))
    decreases |fs|
  {
    if fs != [] {
      var init := fs[..|fs| - 1];
      var t := Trace(s, init);
      assert !t.form;
      FormGatesCounting(s, init);
    }
  }

  /** Once latched, the form flag stays set for the rest of the session. */
  lemma {:induction false} FormStaysLatched(s: State, fs: seq<Frame<ArmPose>>)
    requires Counters(s) && s.form
    ensures Trace(s, fs).form
    decreases |fs|
  {
    if fs != [] {
      FormStaysLatched(s, fs[..|fs| - 1]);
    }
  }

  /** The counting globals of the script, updated in place frame by frame. */
  class Session {
    var attempts: nat
    var count: nat
    var direction: nat
    var form: bool
    var reachedHalfway: bool
    var startTime: real
    var pushupTimes: seq<real>
    var successRate: real
    var symmetry: real
    var feedback: string
    const speaker: CooldownSpeaker

    constructor ()
      ensures Snapshot() == Initial
      ensures fresh(speaker) && speaker.Contents() == Spoken(map[], [])
    {
      attempts, count, direction, form, reachedHalfway := 0, 0, 0, false, false;
      startTime, pushupTimes, successRate, symmetry := 0.0, [], 0.0, 0.0;
      feedback := "Start Workout";
      speaker := new CooldownSpeaker();
    }

    function Snapshot(): State
      reads this
    {
      State(attempts, count, direction, form, reachedHalfway, startTime, pushupTimes,
            successRate, symmetry, feedback)
    }

    /** The `per == 0` block: arms bent. */
    method BentBlock(a: ArmPose, now: real, pick: nat) returns (ghost said: seq<string>)
      modifies this, speaker
      ensures Snapshot() == AtBent(old(Snapshot()), a, now, pick).next
      ensures said == AtBent(old(Snapshot()), a, now, pick).said
      ensures speaker.Contents() == SpeakAll(old(speaker.Contents()), said, now)
    {
      said := [];
      if ArmsBent(a) {
        feedback := "Up";
        if direction == 0 && reachedHalfway {
          direction := 1;
          attempts := attempts + 1;
          reachedHalfway := false;
          if attempts % 5 != 0 {
            var message := Choose(InvalidAttempts, pick);
            speaker.SpeakText(message, now);
            said := [message];
          }
          if startTime != 0.0 {
            pushupTimes := pushupTimes + [now - startTime];
          }
          startTime := now;
        }
      } else if a.rightHip <= 160.0 {
        feedback := "Keep your body straight";
        said := [feedback];
        speaker.SpeakText(feedback, now);
      } else {
        feedback := "Fix Form";
        said := [feedback];
        speaker.SpeakText(feedback, now);
      }
      assert said == [] || said[..0] == [];
    }

    /** The `per == 100` block: arms extended. */
    method ExtendedBlock(a: ArmPose, now: real, pick: nat) returns (ghost said: seq<string>)
      modifies this, speaker
      ensures Snapshot() == AtExtended(old(Snapshot()), a, pick).next
      ensures said == AtExtended(old(Snapshot()), a, pick).said
      ensures speaker.Contents() == SpeakAll(old(speaker.Contents()), said, now)
    {
      said := [];
      if ArmsExtended(a) {
        feedback := "Down";
        if direction == 1 {
          count := count + 1;
          direction := 0;
          if count % 5 != 0 {
            var message := Choose(Encouragements, pick);
            speaker.SpeakText(message, now);
            said := [message];
          }
        }
      } else if a.rightHip <= 160.0 {
        feedback := "Keep your body straight";
        said := [feedback];
        speaker.SpeakText(feedback, now);
      } else {
        feedback := "Fix Form";
      }
      assert said == [] || said[..0] == [];
    }

    /** The loop body on a frame with landmarks. */
    method Count(a: ArmPose, now: real, pick: nat)
      requires count <= attempts
      modifies this, speaker
      ensures Snapshot() == Move(old(Snapshot()), a, now, pick).next
      ensures speaker.Contents() == SpeakAll(old(speaker.Contents()), Move(old(Snapshot()), a, now, pick).said, now)
    {
      ghost var s0 := Snapshot();
      ghost var d0 := speaker.Contents();
      if count > 0 {
        successRate := (count as real) / (attempts as real) * 100.0;
      }
      symmetry := Symmetry(a.rightElbow, a.leftElbow);
      var per := Percent(a.rightElbow, 90.0, 160.0);
      if ArmsExtended(a) {
        form := true;
      }
      assert Snapshot() == s0.(successRate := SuccessRate(s0.successRate, s0.count, s0.attempts),
                               symmetry := Symmetry(a.rightElbow, a.leftElbow),
                               form := s0.form || ArmsExtended(a));
      if form {
        if per >= 50.0 {
          reachedHalfway := true;
        }
        ghost var s2 := Snapshot();
        ghost var said3: seq<string> := [];
        if per == 0.0 {
          said3 := BentBlock(a, now, pick);
        }
        ghost var o3 := if per == 0.0 then AtBent(s2, a, now, pick) else Outcome(s2, []);
        assert Snapshot() == o3.next && said3 == o3.said;
        ghost var said4: seq<string> := [];
        if per == 100.0 {
          said4 := ExtendedBlock(a, now, pick);
        }
        ghost var o4 := if per == 100.0 then AtExtended(o3.next, a, pick) else Outcome(o3.next, []);
        assert Snapshot() == o4.next && said4 == o4.said;
        SpeakAllConcat(d0, said3, said4, now);
      }
    }

    /** The body of the frame loop for one frame. */
    method Step(f: Frame<ArmPose>)
      requires Counters(Snapshot())
      modifies this, speaker
      ensures Snapshot() == Next(old(Snapshot()), f).next
      ensures speaker.Contents() == SpeakAll(old(speaker.Contents()), Next(old(Snapshot()), f).said, f.now)
    {
      if f.pose.Some? {
        Count(f.pose.value, f.now, f.pick);
      }
    }

    /** The frame loop: one Step per captured frame, in order. */
    method Run(frames: seq<Frame<ArmPose>>)
      requires Counters(Snapshot())
      modifies this, speaker
      ensures Counters(Snapshot())
      ensures Snapshot() == Trace(old(Snapshot()), frames)
      ensures speaker.Contents() == Heard(old(speaker.Contents()), old(Snapshot()), frames)
    {
      ghost var s0 := Snapshot();
      ghost var d0 := speaker.Contents();
      var i := 0;
      while i < |frames|
        invariant 0 <= i <= |frames|
        invariant Snapshot() == Trace(s0, frames[..i])
        invariant speaker.Contents() == Heard(d0, s0, frames[..i])
      {
        assert frames[..i + 1][..i] == frames[..i];
        Step(frames[i]);
        i := i + 1;
      }
      assert frames[..i] == frames;
    }
  }
}
