/** The enqueue side of the spoken-feedback dispatcher. Two policies occur in the scripts:
    `speak_text` with a per-text cooldown map (integrate/pushups.py and
    integrateRaspberry/bicepcurls.py) and `speak_text` that always enqueues (the other
    scripts with speech). The consumer thread that drains the queue is not modelled. */
module Feedback {

  /** The default `cooldown` argument of speak_text, in seconds. */
  const Cooldown: real := 5.0

  /** The dispatcher's state: the last time each text was enqueued and the FIFO queue. */
  datatype Spoken = Spoken(lastSpoken: map<string, real>, queue: seq<string>)

  /** speak_text(text) at time `now` is dropped: the text was enqueued less than
      `Cooldown` seconds ago. */
  predicate Suppressed(d: Spoken, text: string, now: real) {
    text in d.lastSpoken && now - d.lastSpoken[text] < Cooldown
  }

  /** speak_text with a cooldown: either nothing changes, or the text is stamped with `now`
      and appended to the queue. */
  function Speak(d: Spoken, text: string, now: real): (r: Spoken)
    ensures Suppressed(d, text, now) ==> r == d
    ensures !Suppressed(d, text, now) ==>
              r.queue == d.queue + [text] && text in r.lastSpoken && r.lastSpoken[text] == now
    ensures r.lastSpoken.Keys == d.lastSpoken.Keys + {text} || r == d
    ensures forall t :: t in d.lastSpoken && t != text ==> t in r.lastSpoken && r.lastSpoken[t] == d.lastSpoken[t]
  {
    if Suppressed(d, text, now) then d
    else Spoken(d.lastSpoken[text := now], d.queue + [text])
  }

  /** The speak_text calls of one frame, in call order, all at the frame's time. */
  function SpeakAll(d: Spoken, texts: seq<string>, now: real): (r: Spoken)
    decreases |texts|
  {
    if texts == [] then d
    else Speak(SpeakAll(d, texts[..|texts| - 1], now), texts[|texts| - 1], now)
  }

  /** Cooldown: two requests for the same text less than `Cooldown` apart enqueue it at most
      once, and exactly once when the first of them is not suppressed. */
  lemma RepeatWithinCooldown(d: Spoken, text: string, t1: real, t2: real)
    requires t1 <= t2 < t1 + Cooldown
    ensures |Speak(Speak(d, text, t1), text, t2).queue| <= |d.queue| + 1
    ensures !Suppressed(d, text, t1) ==> Speak(Speak(d, text, t1), text, t2).queue == d.queue + [text]
  {
    var d1 := Speak(d, text, t1);
    if !Suppressed(d, text, t1) {
      assert Suppressed(d1, text, t2);
    }
  }

  /** Cooldown: the same two requests spaced by at least `Cooldown` both enqueue, when the
      first is not suppressed. */
  lemma RepeatAfterCooldown(d: Spoken, text: string, t1: real, t2: real)
    requires t2 >= t1 + Cooldown
    requires !Suppressed(d, text, t1)
    ensures Speak(Speak(d, text, t1), text, t2).queue == d.queue + [text, text]
  {
    var d1 := Speak(d, text, t1);
    assert !Suppressed(d1, text, t2);
  }

  /** Requests appended to a frame's calls are applied after them. */
  lemma SpeakAllSnoc(d: Spoken, texts: seq<string>, text: string, now: real)
    ensures SpeakAll(d, texts + [text], now) == Speak(SpeakAll(d, texts, now), text, now)
  {
    assert (texts + [text])[..|texts|] == texts;
  }

  /** Two batches of calls at the same time act one after the other. */
  lemma {:induction false} SpeakAllConcat(d: Spoken, xs: seq<string>, ys: seq<string>, now: real)
    ensures SpeakAll(d, xs + ys, now) == SpeakAll(SpeakAll(d, xs, now), ys, now)
    decreases |ys|
  {
    if ys == [] {
      assert xs + ys == xs;
    } else {
      var init := ys[..|ys| - 1];
      assert (xs + ys)[..|xs + ys| - 1] == xs + init;
      SpeakAllConcat(d, xs, init, now);
    }
  }

  /** A frame's calls only append to the queue, never more texts than were requested, and
      only texts that were requested. */
  lemma {:induction false} SpeakAllAppends(d: Spoken, texts: seq<string>, now: real)
    ensures |d.queue| <= |SpeakAll(d, texts, now).queue| <= |d.queue| + |texts|
    ensures SpeakAll(d, texts, now).queue[..|d.queue|] == d.queue
    ensures forall i :: |d.queue| <= i < |SpeakAll(d, texts, now).queue| ==>
              SpeakAll(d, texts, now).queue[i] in texts
    decreases |texts|
  {
    if texts != [] {
      var init := texts[..|texts| - 1];
      SpeakAllAppends(d, init, now);
      var m := SpeakAll(d, init, now);
      var r := SpeakAll(d, texts, now);
      assert r == Speak(m, texts[|texts| - 1], now);
      assert r.queue[..|m.queue|] == m.queue;
      forall i | |d.queue| <= i < |r.queue|
        ensures r.queue[i] in texts
      {
        if i < |m.queue| {
          assert r.queue[i] == m.queue[i];
          assert m.queue[i] in init;
        } else {
          assert r.queue[i] == texts[|texts| - 1];
        }
      }
    }
  }

  /** With an empty map, every request enqueues its text. */
  lemma FirstRequestEnqueues(text: string, now: real)
    ensures Speak(Spoken(map[], []), text, now).queue == [text]
  {
  }

  /** The cooldown dispatcher: `feedback_last_spoken` and `feedback_queue`. */
  class CooldownSpeaker {
    var lastSpoken: map<string, real>
    var queue: seq<string>

    constructor ()
      ensures lastSpoken == map[] && queue == []
    {
      lastSpoken := map[];
      queue := [];
    }

    function Contents(): Spoken
      reads this
    {
      Spoken(lastSpoken, queue)
    }

    /** speak_text(text) with `current_time = now`. */
    method SpeakText(text: string, now: real)
      modifies this
      ensures Contents() == Speak(old(Contents()), text, now)
    {
      if text in lastSpoken {
        var sinceLast := now - lastSpoken[text];
        if sinceLast < Cooldown {
          return;
        }
      }
      lastSpoken := lastSpoken[text := now];
      queue := queue + [text];
    }
  }

  /** The plain dispatcher: speak_text always puts its text on `feedback_queue`. */
  class FifoSpeaker {
    var queue: seq<string>

    constructor ()
      ensures queue == []
    {
      queue := [];
    }

    method SpeakText(text: string)
      modifies this
      ensures queue == old(queue) + [text]
    {
      queue := queue + [text];
    }
  }
}
