/** Values shared by every exercise script: the per-frame input, the progress percentage
    (numpy's `interp` onto [0, 100]), the symmetry metric, the success rate and the random
    choice of a spoken message. Angles are degrees, idealised as exact reals. */
module Common {

  datatype Option<+T> = None | Some(value: T)

  /** One camera frame as the counting loop sees it: the joint angles of the detected pose
      (None when the pose detector found no landmarks), the wall-clock time of the frame, and
      the draw that stands for `np.random.choice` on this frame. */
  datatype Frame<+P> = Frame(pose: Option<P>, now: real, pick: nat)

  /** The six joint angles the push-up scripts read. */
  datatype ArmPose = ArmPose(rightElbow: real, rightShoulder: real, rightHip: real,
                             leftElbow: real, leftShoulder: real, leftHip: real)

  /** The push-up form baseline, also the test for the extended position: both elbows above
      160, both shoulders above 40, both hips above 160. */
  predicate ArmsExtended(a: ArmPose) {
    a.rightElbow > 160.0 && a.rightShoulder > 40.0 && a.rightHip > 160.0 &&
    a.leftElbow > 160.0 && a.leftShoulder > 40.0 && a.leftHip > 160.0
  }

  /** The push-up bent position: both elbows at 90 or less with both hips above 160. */
  predicate ArmsBent(a: ArmPose) {
    a.rightElbow <= 90.0 && a.rightHip > 160.0 && a.leftElbow <= 90.0 && a.leftHip > 160.0
  }

  /** The two angles the bicep-curl scripts read. */
  datatype CurlPose = CurlPose(rightElbow: real, rightShoulder: real)

  /** Knee and hip angles of both legs, as the squat scripts read them. */
  datatype LegPose = LegPose(rightKnee: real, leftKnee: real, rightHip: real, leftHip: real)

  /** `np.interp(x, (lo, hi), (0, 100))`: the clamped linear map of [lo, hi] onto [0, 100]. */
  function Percent(x: real, lo: real, hi: real): (p: real)
    requires lo < hi
    ensures 0.0 <= p <= 100.0
    ensures p == 0.0 <==> x <= lo
    ensures p == 100.0 <==> x >= hi
    ensures lo <= x <= hi ==> p * (hi - lo) == (x - lo) * 100.0
  {
    if x <= lo then 0.0
    else if x >= hi then 100.0
    else
      var p := (x - lo) * 100.0 / (hi - lo);
      assert p * (hi - lo) == (x - lo) * 100.0;
      ScaleCompare(0.0, p, hi - lo);
      ScaleCompare(p, 100.0, hi - lo);
      p
  }

  /** The progress percentage never decreases as the angle grows. */
  lemma PercentMonotonic(x: real, y: real, lo: real, hi: real)
    requires lo < hi && x <= y
    ensures Percent(x, lo, hi) <= Percent(y, lo, hi)
  {
    if lo < x && y < hi {
      assert (x - lo) * 100.0 <= (y - lo) * 100.0;
      DivideMonotonic((x - lo) * 100.0, (y - lo) * 100.0, hi - lo);
    }
  }

  lemma DivideMonotonic(a: real, b: real, d: real)
    requires a <= b && d > 0.0
    ensures a / d <= b / d
  {
    assert b / d - a / d == (b - a) / d;
  }

  /** The "reached halfway" test `per >= 50` holds exactly from the midpoint angle on. */
  lemma PercentHalfway(x: real, lo: real, hi: real)
    requires lo < hi
    ensures Percent(x, lo, hi) >= 50.0 <==> x >= (lo + hi) / 2.0
  {
    var p := Percent(x, lo, hi);
    if lo < x < hi {
      var k := hi - lo;
      assert p == (x - lo) * 100.0 / k;
      DivideAtLeast((x - lo) * 100.0, 50.0, k);
    }
  }

  /** Dividing by a positive factor compares like multiplying the bound by it. */
  lemma DivideAtLeast(a: real, c: real, k: real)
    requires k > 0.0
    ensures a / k >= c <==> a >= c * k
  {
    var q := a / k;
    assert q * k == a;
    ScaleCompare(q, c, k);
  }

  /** Multiplying by a positive factor keeps the order. */
  lemma ScaleCompare(p: real, q: real, k: real)
    requires k > 0.0
    ensures p * k >= q * k <==> p >= q
  {
    assert p * k - q * k == (p - q) * k;
    if p >= q {
      assert (p - q) * k >= 0.0;
    } else {
      assert (q - p) * k > 0.0;
    }
  }

  /** `abs(right - left)`: how far apart the mirrored joints are. */
  function Symmetry(right: real, left: real): (d: real)
    ensures d >= 0.0
    ensures d == right - left || d == left - right
    ensures d == 0.0 <==> right == left
  {
    if right >= left then right - left else left - right
  }

  /** `if count > 0: success_rate = (count / attempts) * 100`, evaluated on the counters as
      they stand at the start of the frame; with no rep counted the old rate is kept. */
  function SuccessRate(rate: real, count: nat, attempts: nat): (r: real)
    requires count <= attempts
    ensures count == 0 ==> r == rate
    ensures count > 0 ==> r * (attempts as real) == (count as real) * 100.0
    ensures 0.0 <= rate <= 100.0 ==> 0.0 <= r <= 100.0
  {
    if count > 0 then (count as real) / (attempts as real) * 100.0 else rate
  }

  /** `np.random.choice(messages)`: the draw `pick` selects some element of the list. */
  function Choose(messages: seq<string>, pick: nat): (m: string)
    requires |messages| > 0
    ensures m in messages
  {
    messages[pick % |messages|]
  }

  /** Python's truthiness test `if n % 5:` used to pace spoken messages. */
  predicate NotFifth(n: nat) {
    n % 5 != 0
  }
}
