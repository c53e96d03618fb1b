/** The exam AI's "brain": a bounded FIFO history of the player's kinematics, a
    linear extrapolation of the player's position from it, a confidence gate based
    on the spread of the recent horizontal velocities, a speed bonus near the
    player's favourite zone, and the per-tick movement decision. */
module AIBrain {
  import opened Options
  import opened Geometry
  import SessionAnalysis
  import Config

  /** One observation of the player: centre and velocity. */
  datatype Sample = Sample(x: int, y: int, vx: real, vy: real)

  const MaxHistory: nat := 60
  /** Fewer samples than this give no prediction. */
  const MinSamples: nat := 5
  /** The prediction averages over at most this many recent samples. */
  const Window: nat := 10
  const DefaultFramesAhead: int := 20
  const FavouriteZoneBonus: real := 0.2
  const FavouriteZoneRadius: int := 500
  /** A target more than this far above the AI's top makes it jump. */
  const JumpLead: int := 40
  /** Horizontal offset of the look-ahead probe used to detect obstacles. */
  const ProbeOffset: int := 40

  /** The brain's state. `spread` is the population variance of the horizontal
      velocities the last prediction was based on; the prediction confidence is a
      function of it (see `IsConfidence`), and `None` stands for the initial
      confidence of 0 before any prediction was made. `analysis` holds the session
      analysis summary once one has been supplied. */
  datatype Brain = Brain(history: seq<Sample>, spread: Option<real>, analysis: Option<SessionAnalysis.Summary>)

  datatype Prediction = Prediction(x: real, y: real)

  /** What `decide_movement` returns: the horizontal distance to the target, whether
      to attempt a jump, and the speed bonus. */
  datatype Decision = Decision(dx: real, shouldJump: bool, bonus: real)

  function NewBrain(): Brain {
    Brain([], None, None)
  }

  function UpdateAnalysis(b: Brain, results: SessionAnalysis.Summary): (b': Brain)
    ensures b'.analysis == Some(results) && b'.history == b.history && b'.spread == b.spread
  {
    b.(analysis := Some(results))
  }

  // ---------------------------------------------------------------------------
  // History buffer

  /** Appends a sample and drops the oldest one when the capacity is exceeded. */
  function Observe(h: seq<Sample>, s: Sample): (h': seq<Sample>)
    ensures |h| <= MaxHistory ==> |h'| <= MaxHistory
    ensures |h'| > 0 && h'[|h'| - 1] == s
    ensures |h| < MaxHistory ==> h' == h + [s]
    ensures |h| == MaxHistory ==> h' == h[1..] + [s]
  {
    var h1 := h + [s];
    if |h1| > MaxHistory then h1[1..] else h1
  }

  /** Records the player's centre and velocity. */
  function ProcessPlayerInput(b: Brain, player: Rect, vx: real, vy: real): (b': Brain)
    ensures b'.history == Observe(b.history, Sample(player.CenterX(), player.CenterY(), vx, vy))
    ensures b'.spread == b.spread && b'.analysis == b.analysis
  {
    b.(history := Observe(b.history, Sample(player.CenterX(), player.CenterY(), vx, vy)))
  }

  /** Observes a whole sequence of samples, oldest first. */
  function ObserveAll(h: seq<Sample>, ss: seq<Sample>): seq<Sample>
    decreases |ss|
  {
    if |ss| == 0 then h else ObserveAll(Observe(h, ss[0]), ss[1..])
  }

  /** The last `min(n, |s|)` elements of `s`. */
  function LastN<T>(s: seq<T>, n: nat): (r: seq<T>)
    ensures |r| == if |s| < n then |s| else n
  {
    if |s| <= n then s else s[|s| - n..]
  }

  /** FIFO by content: however many samples are observed, the history is exactly
      the most recent 60 of everything observed so far. */
  lemma {:induction false} ObserveAllKeepsNewest(h: seq<Sample>, ss: seq<Sample>)
    requires |h| <= MaxHistory
    ensures ObserveAll(h, ss) == LastN(h + ss, MaxHistory)
    decreases |ss|
  {
    if |ss| == 0 {
      assert h + ss == h;
    } else {
      var h' := Observe(h, ss[0]);
      ObserveAllKeepsNewest(h', ss[1..]);
      assert h' == LastN(h + [ss[0]], MaxHistory);
      var all := h + ss;
      assert all == (h + [ss[0]]) + ss[1..];
      if |h + [ss[0]]| <= MaxHistory {
        assert h' + ss[1..] == all;
      } else {
        assert h' + ss[1..] == all[1..];
        assert |all| > MaxHistory;
        assert LastN(all[1..], MaxHistory) == LastN(all, MaxHistory);
      }
    }
  }

  // ---------------------------------------------------------------------------
  // Facts about products of reals, kept small so that each is proved in isolation

  function Sq(d: real): real { d * d }

  lemma MulNonNeg(a: real, b: real)
    requires a >= 0.0 && b >= 0.0
    ensures a * b >= 0.0
  {
  }

  lemma MulPos(a: real, b: real)
    requires a > 0.0 && b > 0.0
    ensures a * b > 0.0
  {
  }

  lemma SqNonNeg(d: real)
    ensures Sq(d) >= 0.0
  {
    if d >= 0.0 {
      MulNonNeg(d, d);
    } else {
      MulNonNeg(-d, -d);
      assert (-d) * (-d) == d * d;
    }
  }

  /** Squaring is strictly increasing on the non-negative reals. */
  lemma SqStrictlyIncreasing(a: real, b: real)
    requires 0.0 <= a < b
    ensures Sq(a) < Sq(b)
  {
    MulPos(b - a, b + a);
    assert (b - a) * (b + a) == b * b - a * a;
  }

  // ---------------------------------------------------------------------------
  // Statistics over the recent window

  function Sum(vs: seq<real>): real {
    if |vs| == 0 then 0.0 else Sum(vs[..|vs| - 1]) + vs[|vs| - 1]
  }

  function Mean(vs: seq<real>): real
    requires |vs| > 0
  {
    Sum(vs) / |vs| as real
  }

  /** The sum of squared deviations from `m`. */
  function SquaredDeviations(vs: seq<real>, m: real): (r: real)
    ensures r >= 0.0
  {
    if |vs| == 0 then 0.0
    else
      SqNonNeg(vs[|vs| - 1] - m);
      SquaredDeviations(vs[..|vs| - 1], m) + Sq(vs[|vs| - 1] - m)
  }

  /** The population variance (the square of numpy's default `std`). */
  function PopVariance(vs: seq<real>): (r: real)
    requires |vs| > 0
    ensures r >= 0.0
  {
    SquaredDeviations(vs, Mean(vs)) / |vs| as real
  }

  /** The sum of `n` copies of `c`. */
  lemma {:induction false} SumConstant(vs: seq<real>, c: real)
    requires forall i :: 0 <= i < |vs| ==> vs[i] == c
    ensures Sum(vs) == |vs| as real * c
  {
    if |vs| > 0 {
      SumConstant(vs[..|vs| - 1], c);
    }
  }

  lemma {:induction false} SquaredDeviationsConstant(vs: seq<real>, c: real)
    requires forall i :: 0 <= i < |vs| ==> vs[i] == c
    ensures SquaredDeviations(vs, c) == 0.0
  {
    if |vs| > 0 {
      SquaredDeviationsConstant(vs[..|vs| - 1], c);
    }
  }

  /** A constant sequence has its value as mean and no spread. */
  lemma ConstantStatistics(vs: seq<real>, c: real)
    requires |vs| > 0
    requires forall i :: 0 <= i < |vs| ==> vs[i] == c
    ensures Mean(vs) == c
    ensures PopVariance(vs) == 0.0
  {
    SumConstant(vs, c);
    SquaredDeviationsConstant(vs, c);
  }

  function VxOf(ss: seq<Sample>): (vs: seq<real>)
    ensures |vs| == |ss| && forall i :: 0 <= i < |ss| ==> vs[i] == ss[i].vx
  {
    seq(|ss|, i requires 0 <= i < |ss| => ss[i].vx)
  }

  function VyOf(ss: seq<Sample>): (vs: seq<real>)
    ensures |vs| == |ss| && forall i :: 0 <= i < |ss| ==> vs[i] == ss[i].vy
  {
    seq(|ss|, i requires 0 <= i < |ss| => ss[i].vy)
  }

  // ---------------------------------------------------------------------------
  // Confidence

  /** `c` is the confidence `max(0, 1 - std / 5)` of a window whose population
      variance is `v` (so `std` is the square root of `v`), stated without roots. */
  predicate IsConfidence(c: real, v: real) {
    && v >= 0.0
    && 0.0 <= c <= 1.0
    && (c > 0.0 ==> 25.0 * Sq(1.0 - c) == v)
    && (c == 0.0 ==> v >= 25.0)
  }

  /** The gate `confidence > 0.6` is the same as `variance < 4`. */
  lemma ConfidenceGate(c: real, v: real)
    requires IsConfidence(c, v)
    ensures c > 0.6 <==> v < 4.0
  {
    var d := 1.0 - c;
    if c > 0.6 {
      SqStrictlyIncreasing(d, 0.4);
      assert Sq(0.4) == 0.16;
    } else if c > 0.0 {
      if d == 0.4 {
        assert Sq(d) == 0.16;
      } else {
        SqStrictlyIncreasing(0.4, d);
        assert Sq(0.4) == 0.16;
      }
    }
  }

  /** The confidence of a window is determined by its variance. */
  lemma ConfidenceUnique(c1: real, c2: real, v: real)
    requires IsConfidence(c1, v) && IsConfidence(c2, v)
    ensures c1 == c2
  {
    var d1, d2 := 1.0 - c1, 1.0 - c2;
    assert Sq(1.0) == 1.0;
    if c1 == 0.0 && c2 > 0.0 {
      SqStrictlyIncreasing(d2, 1.0);
    } else if c2 == 0.0 && c1 > 0.0 {
      SqStrictlyIncreasing(d1, 1.0);
    } else if c1 > 0.0 && c2 > 0.0 {
      if d1 < d2 {
        SqStrictlyIncreasing(d1, d2);
      } else if d2 < d1 {
        SqStrictlyIncreasing(d2, d1);
      }
    }
  }

  /** Equal velocities give the full confidence of 1. */
  lemma NoSpreadFullConfidence(c: real)
    requires IsConfidence(c, 0.0)
    ensures c == 1.0
  {
    if c < 1.0 {
      SqStrictlyIncreasing(0.0, 1.0 - c);
      assert false;
    }
  }

  /** The confidence the brain would report: 0 before any prediction, otherwise the
      confidence of the last window's variance. */
  predicate BrainConfidence(b: Brain, c: real) {
    match b.spread
    case None => c == 0.0
    case Some(v) => IsConfidence(c, v)
  }

  /** The gate `prediction_confidence > 0.6`, stated on the variance. */
  predicate Confident(b: Brain) {
    b.spread.Some? && b.spread.value < 4.0
  }

  /** `Confident` is exactly the source's test on the confidence value. */
  lemma ConfidentIsGate(b: Brain, c: real)
    requires BrainConfidence(b, c)
    ensures Confident(b) <==> c > 0.6
  {
    if b.spread.Some? {
      ConfidenceGate(c, b.spread.value);
    }
  }

  // ---------------------------------------------------------------------------
  // Prediction

  /** The samples the prediction is based on: the last `min(10, n)`. */
  function Recent(h: seq<Sample>): (w: seq<Sample>)
    ensures |w| == if |h| < Window then |h| else Window
    ensures forall i :: 0 <= i < |w| ==> w[i] == h[|h| - |w| + i]
  {
    LastN(h, Window)
  }

  datatype PredictOutcome = PredictOutcome(prediction: Option<Prediction>, brain: Brain)

  /** Linear extrapolation of the player's centre `framesAhead` ticks ahead, from the
      mean velocity over the recent window. Also records the window's variance,
      which determines the new confidence. */
  function Predict(b: Brain, framesAhead: int): (r: PredictOutcome)
    ensures r.prediction.None? <==> |b.history| < MinSamples
    ensures r.prediction.None? ==> r.brain == b
    ensures r.brain.history == b.history && r.brain.analysis == b.analysis
    ensures var h := b.history; |h| >= MinSamples ==>
      var w := Recent(h);
      && r.prediction == Some(Extrapolate(h[|h| - 1], Mean(VxOf(w)), Mean(VyOf(w)), framesAhead))
      && r.brain.spread == Some(PopVariance(VxOf(w)))
  {
    var h := b.history;
    if |h| < MinSamples then PredictOutcome(None, b)
    else
      var w := Recent(h);
      PredictOutcome(Some(Extrapolate(h[|h| - 1], Mean(VxOf(w)), Mean(VyOf(w)), framesAhead)),
                     b.(spread := Some(PopVariance(VxOf(w)))))
  }

  /** The centre of `last` moved by the velocity (vx, vy) for `framesAhead` ticks. */
  function Extrapolate(last: Sample, vx: real, vy: real, framesAhead: int): Prediction {
    Prediction(last.x as real + vx * framesAhead as real, last.y as real + vy * framesAhead as real)
  }

  /** `n` values within [lo, hi] sum to between `n * lo` and `n * hi`. */
  lemma {:induction false} SumBounds(vs: seq<real>, lo: real, hi: real)
    requires forall i :: 0 <= i < |vs| ==> lo <= vs[i] <= hi
    ensures |vs| as real * lo <= Sum(vs) <= |vs| as real * hi
  {
    if |vs| > 0 {
      var n := |vs| - 1;
      SumBounds(vs[..n], lo, hi);
      assert |vs| as real * lo == n as real * lo + lo;
      assert |vs| as real * hi == n as real * hi + hi;
    }
  }

  /** Dividing a sum of `n` terms that lies within [n * lo, n * hi] by `n`. */
  lemma DivBounds(total: real, n: real, lo: real, hi: real)
    requires n > 0.0 && n * lo <= total <= n * hi
    ensures lo <= total / n <= hi
  {
    var q := total / n;
    assert q * n == total;
    assert (q - lo) * n == total - n * lo;
    assert (hi - q) * n == n * hi - total;
  }

  /** The mean of values within [lo, hi] is within [lo, hi]. */
  lemma MeanBounds(vs: seq<real>, lo: real, hi: real)
    requires |vs| > 0
    requires forall i :: 0 <= i < |vs| ==> lo <= vs[i] <= hi
    ensures lo <= Mean(vs) <= hi
  {
    SumBounds(vs, lo, hi);
    DivBounds(Sum(vs), |vs| as real, lo, hi);
  }

  /** Extrapolating forwards at a velocity within [lo, hi] lands within the
      extrapolations at `lo` and at `hi`. */
  lemma ExtrapolateBounds(last: Sample, vx: real, vy: real, framesAhead: int, lo: real, hi: real)
    requires framesAhead >= 0 && lo <= vx <= hi
    ensures last.x as real + lo * framesAhead as real <= Extrapolate(last, vx, vy, framesAhead).x
                                                      <= last.x as real + hi * framesAhead as real
  {
    var f := framesAhead as real;
    MulNonNeg(vx - lo, f);
    MulNonNeg(hi - vx, f);
    assert (vx - lo) * f == vx * f - lo * f;
    assert (hi - vx) * f == hi * f - vx * f;
  }

  /** Looking ahead, the predicted x lies between the last centre moved at the
      slowest and at the fastest horizontal velocity of the recent window. */
  lemma PredictWithinWindowVelocities(b: Brain, framesAhead: int, lo: real, hi: real)
    requires |b.history| >= MinSamples && framesAhead >= 0
    requires forall i :: 0 <= i < |Recent(b.history)| ==> lo <= Recent(b.history)[i].vx <= hi
    ensures var last := b.history[|b.history| - 1];
      var p := Predict(b, framesAhead).prediction;
      && p.Some?
      && last.x as real + lo * framesAhead as real <= p.value.x <= last.x as real + hi * framesAhead as real
  {
    var h := b.history;
    var w := Recent(h);
    var vs := VxOf(w);
    assert forall i :: 0 <= i < |vs| ==> lo <= vs[i] <= hi;
    MeanBounds(vs, lo, hi);
    ExtrapolateBounds(h[|h| - 1], Mean(vs), Mean(VyOf(w)), framesAhead, lo, hi);
  }

  /** Only the recent window matters: histories with the same last ten samples (or
      the same whole history, when shorter) give the same prediction and spread. */
  lemma OnlyRecentSamplesMatter(b1: Brain, b2: Brain, framesAhead: int)
    requires Recent(b1.history) == Recent(b2.history)
    ensures Predict(b1, framesAhead).prediction == Predict(b2, framesAhead).prediction
    ensures |b1.history| >= MinSamples ==> Predict(b1, framesAhead).brain.spread == Predict(b2, framesAhead).brain.spread
  {
    var h1, h2 := b1.history, b2.history;
    var w := Recent(h1);
    if |h1| >= MinSamples {
      assert |h2| >= MinSamples;
      assert h1[|h1| - 1] == w[|w| - 1] == h2[|h2| - 1];
    } else {
      assert |h2| < MinSamples;
    }
  }

  /** With the same velocity (vx, vy) in every sample, the prediction is the
      last centre moved by (vx, vy) per tick. */
  lemma PredictSteadyVelocity(b: Brain, framesAhead: int, vx: real, vy: real)
    requires |b.history| >= MinSamples
    requires forall i :: 0 <= i < |b.history| ==> b.history[i].vx == vx && b.history[i].vy == vy
    ensures Predict(b, framesAhead).prediction == Some(Extrapolate(b.history[|b.history| - 1], vx, vy, framesAhead))
  {
    var h := b.history;
    var w := Recent(h);
    ConstantStatistics(VxOf(w), vx);
    ConstantStatistics(VyOf(w), vy);
    var last := h[|h| - 1];
    var r := Predict(b, framesAhead);
    assert r.prediction == Some(Extrapolate(last, Mean(VxOf(w)), Mean(VyOf(w)), framesAhead));
  }

  /** With the same horizontal velocity in every recent sample, the spread is 0,
      the gate passes and the confidence is 1. */
  lemma SteadyVelocityFullConfidence(b: Brain, framesAhead: int, vx: real)
    requires |b.history| >= MinSamples
    requires forall i :: 0 <= i < |b.history| ==> b.history[i].vx == vx
    ensures Predict(b, framesAhead).brain.spread == Some(0.0)
    ensures Confident(Predict(b, framesAhead).brain)
    ensures forall c :: BrainConfidence(Predict(b, framesAhead).brain, c) ==> c == 1.0
  {
    var w := Recent(b.history);
    ConstantStatistics(VxOf(w), vx);
    var r := Predict(b, framesAhead);
    assert r.brain.spread == Some(0.0);
    forall c | BrainConfidence(r.brain, c)
      ensures c == 1.0
    {
      NoSpreadFullConfidence(c);
    }
  }

  /** A player that stood still at (x, y) for the whole history is predicted to stay
      at (x, y), with full confidence, whatever the look-ahead. */
  lemma PredictStationaryPlayer(b: Brain, framesAhead: int, x: int, y: int)
    requires |b.history| >= MinSamples
    requires forall i :: 0 <= i < |b.history| ==> b.history[i] == Sample(x, y, 0.0, 0.0)
    ensures Predict(b, framesAhead).prediction == Some(Prediction(x as real, y as real))
    ensures Confident(Predict(b, framesAhead).brain)
  {
    PredictSteadyVelocity(b, framesAhead, 0.0, 0.0);
    SteadyVelocityFullConfidence(b, framesAhead, 0.0);
    var last := b.history[|b.history| - 1];
    assert Extrapolate(last, 0.0, 0.0, framesAhead) == Prediction(x as real, y as real);
  }

  // ---------------------------------------------------------------------------
  // Favourite zone bonus

  /** The centre of the favourite zone, when the analysis found one. */
  function FavouriteZoneCentre(analysis: Option<SessionAnalysis.Summary>): Option<int> {
    if analysis.Some? && analysis.value.zones.Some? then
      Some(analysis.value.zones.value.topZone * Config.ZoneWidth + Config.ZoneWidth / 2)
    else None
  }

  /** A speed bonus of 0.2 within 500 units of the favourite zone's centre. */
  function ZoneBonus(analysis: Option<SessionAnalysis.Summary>, x: int): (r: real)
    ensures r == FavouriteZoneBonus || r == 0.0
    ensures r == FavouriteZoneBonus <==>
      FavouriteZoneCentre(analysis).Some? && IntAbs(x - FavouriteZoneCentre(analysis).value) < FavouriteZoneRadius
    ensures analysis.None? ==> r == 0.0
  {
    var centre := FavouriteZoneCentre(analysis);
    if centre.Some? && IntAbs(x - centre.value) < FavouriteZoneRadius then FavouriteZoneBonus else 0.0
  }

  /** The bonus depends only on the distance to the zone centre, not on the side. */
  lemma ZoneBonusSymmetric(analysis: Option<SessionAnalysis.Summary>, d: int)
    requires FavouriteZoneCentre(analysis).Some?
    ensures var c := FavouriteZoneCentre(analysis).value; ZoneBonus(analysis, c + d) == ZoneBonus(analysis, c - d)
  {
  }

  // ---------------------------------------------------------------------------
  // Movement decision

  /** The point the AI steers to: the prediction when there is one and the gate
      passes, otherwise the player's live centre. */
  function Target(r: PredictOutcome, player: Rect): Prediction {
    if r.prediction.Some? && Confident(r.brain) then r.prediction.value
    else Prediction(player.CenterX() as real, player.CenterY() as real)
  }

  /** The look-ahead probe: the AI's box shifted 40 units towards the target. */
  function Probe(ai: Rect, dx: real): Rect {
    ai.Move(if dx > 0.0 then ProbeOffset else -ProbeOffset, 0)
  }

  datatype DecideOutcome = DecideOutcome(decision: Decision, brain: Brain)

  /** The AI's decision for one tick. */
  function DecideMovement(b: Brain, ai: Rect, player: Rect, platforms: seq<Rect>): (r: DecideOutcome)
    ensures var t := Target(Predict(b, DefaultFramesAhead), player);
      && r.decision.dx == t.x - ai.CenterX() as real
      && (r.decision.shouldJump <==>
          t.y < (ai.y - JumpLead) as real || AnyOverlap(Probe(ai, r.decision.dx), platforms))
    ensures r.decision.bonus == ZoneBonus(b.analysis, ai.CenterX())
    ensures r.brain == Predict(b, DefaultFramesAhead).brain
  {
    var p := Predict(b, DefaultFramesAhead);
    var t := Target(p, player);
    var dx := t.x - ai.CenterX() as real;
    var jump := t.y < (ai.y - JumpLead) as real || AnyOverlap(Probe(ai, dx), platforms);
    DecideOutcome(Decision(dx, jump, ZoneBonus(b.analysis, ai.CenterX())), p.brain)
  }

  /** A prediction that does not pass the gate is discarded, not blended: the AI
      steers to the player's live centre. */
  lemma LowConfidenceFallsBackToLive(b: Brain, ai: Rect, player: Rect, platforms: seq<Rect>)
    requires !Confident(Predict(b, DefaultFramesAhead).brain) || |b.history| < MinSamples
    ensures DecideMovement(b, ai, player, platforms).decision.dx == (player.CenterX() - ai.CenterX()) as real
  {
  }

  /** The obstacle probe alone triggers a jump, even with the target level with the AI. */
  lemma ObstacleAheadForcesJump(b: Brain, ai: Rect, player: Rect, platforms: seq<Rect>, i: int)
    requires 0 <= i < |platforms|
    requires DecideMovement(b, ai, player, platforms).decision.dx > 0.0
    requires Overlaps(ai.Move(ProbeOffset, 0), platforms[i])
    ensures DecideMovement(b, ai, player, platforms).decision.shouldJump
  {
  }
}
