/** The normalized AMCL beam model: every subsampled ray of a scan is scored
    by a four-term mixture (hit, short, max-range, random) against the
    range an occupancy grid predicts from the particle's laser pose; each
    particle scores `1 + sum of cubes`, and the weights are rescaled by
    `score / max score` in a second pass. */
module BeamModelAmcl {
  import opened RayStride
  import opened MclTypes

  /** The model's configuration after setup. */
  datatype BeamParams = BeamParams(
    frames: FrameConfig,
    maxBeams: nat,
    zHit: real,
    zShort: real,
    zMax: real,
    zRand: real,
    sigmaHit: real,
    lambdaShort: real,
    denominatorExponentHit: real)
  {
    /** A budget of at least two beams, non-negative mixture weights and
        decay rate, and the hit exponent derived from `sigmaHit`. */
    predicate WellFormed()
    {
      && 2 <= maxBeams < SIZE_MODULUS
      && zHit >= 0.0 && zShort >= 0.0 && zMax >= 0.0 && zRand >= 0.0
      && lambdaShort >= 0.0
      && sigmaHit != 0.0
      && denominatorExponentHit == DenominatorExponentHit(sigmaHit)
    }
  }

  /** The Gaussian exponent factor `-0.5 / sigma_hit^2` fixed at setup. */
  function DenominatorExponentHit(sigmaHit: real): (k: real)
    requires sigmaHit != 0.0
    ensures k < 0.0
    ensures k * (sigmaHit * sigmaHit) == -0.5
  {
    -0.5 * 1.0 / (sigmaHit * sigmaHit)
  }

  /** The configuration `doSetup` falls back to: 30 beams, mixture weights
      0.8, 0.1, 0.05 and 0.05, `sigma_hit = 0.15`, `lambda_short = 0.01`. */
  function DefaultParams(frames: FrameConfig): (p: BeamParams)
    ensures p.WellFormed()
    ensures p.zHit + p.zShort + p.zMax + p.zRand == 1.0
  {
    BeamParams(frames, 30, 0.8, 0.1, 0.05, 0.05, 0.15, 0.01, DenominatorExponentHit(0.15))
  }

  /** What the mixture terms of one update see: the configuration, the
      numeric and geometric primitives, the grid's ray-cast query and the
      scan. */
  datatype Scene = Scene(params: BeamParams, o: Oracles, getRange: (Vec2, Vec2) -> real, scan: LaserScan)
  {
    predicate WellFormed()
    {
      params.WellFormed() && scan.WellFormed()
    }
  }

  /** Measurement close to the predicted range. */
  function PHit(s: Scene, rayRange: real, mapRange: real): real
  {
    s.params.zHit * s.o.exp(Pow2(rayRange - mapRange) * s.params.denominatorExponentHit)
  }

  /** Unexpected obstacle in front of the predicted range. */
  function PShort(s: Scene, rayRange: real, mapRange: real): real
  {
    if rayRange < mapRange then s.params.zShort * s.params.lambdaShort * s.o.exp(-s.params.lambdaShort * rayRange)
    else 0.0
  }

  /** Max-range reading. */
  function PMax(s: Scene, rayRange: real): real
  {
    if rayRange >= s.scan.linearMax then s.params.zMax else 0.0
  }

  /** The uniform density of a random reading, `z_rand / range_max`. */
  function PRand(s: Scene): real
    requires s.scan.linearMax != 0.0
  {
    s.params.zRand * 1.0 / s.scan.linearMax
  }

  /** Random reading below the maximal range. */
  function PRandom(s: Scene, rayRange: real): real
    requires s.scan.linearMax != 0.0
  {
    if rayRange < s.scan.linearMax then PRand(s) else 0.0
  }

  /** `std::min(range_max, cast)`: the predicted range, capped. */
  function MapRange(rangeMax: real, castRange: real): (m: real)
    ensures m <= rangeMax && m <= castRange
    ensures m == rangeMax || m == castRange
  {
    if castRange < rangeMax then castRange else rangeMax
  }

  /** The mixture density of one ray seen from the laser pose `mTl`. */
  function Probability(s: Scene, ray: Ray, mTl: Transform2d): real
    requires s.scan.linearMax != 0.0
  {
    var mapRange := MapRange(s.scan.linearMax, s.getRange(mTl.Translation(), s.o.transformPoint(mTl, ray.endPoint)));
    PHit(s, ray.range, mapRange) + PShort(s, ray.range, mapRange) + PMax(s, ray.range) + PRandom(s, ray.range)
  }

  /** What one visited ray adds to a particle's score: the cubed mixture
      for a valid ray, the cubed max-range weight for an invalid one. */
  function RayTerm(s: Scene, ray: Ray, mTl: Transform2d): real
    requires s.scan.linearMax != 0.0
  {
    if ray.valid then Pow3(Probability(s, ray, mTl)) else Pow3(s.params.zMax)
  }

  /** The sum of the ray terms over the given ray indices. */
  function RaySum(s: Scene, mTl: Transform2d, idx: seq<nat>): real
    requires s.scan.linearMax != 0.0
    requires forall k :: 0 <= k < |idx| ==> idx[k] < |s.scan.rays|
  {
    if idx == [] then 0.0 else RayTerm(s, s.scan.rays[idx[0]], mTl) + RaySum(s, mTl, idx[1..])
  }

  /** The rays the model visits: a uniform stride bounded by `max_beams`. */
  function VisitedRays(s: Scene): (idx: seq<nat>)
    requires s.WellFormed()
    ensures forall k :: 0 <= k < |idx| ==> idx[k] < |s.scan.rays|
    ensures |idx| <= 2 * s.params.maxBeams - 2
  {
    StrideCountBound(|s.scan.rays|, s.params.maxBeams);
    StrideIndices(|s.scan.rays|, RayStep(|s.scan.rays|, s.params.maxBeams))
  }

  /** The score of a particle whose laser sits at `mTl`. */
  function Score(s: Scene, mTl: Transform2d): real
    requires s.WellFormed()
  {
    1.0 + RaySum(s, mTl, VisitedRays(s))
  }

  /** The short-range term needs a reading in front of the predicted range;
      exactly one of the max-range and random terms is switched on, by
      comparing the reading with the maximal range. */
  lemma MixtureGating(s: Scene, rayRange: real, mapRange: real)
    requires s.scan.linearMax != 0.0
    ensures PShort(s, rayRange, mapRange) != 0.0 ==> rayRange < mapRange
    ensures rayRange >= s.scan.linearMax ==> PMax(s, rayRange) == s.params.zMax && PRandom(s, rayRange) == 0.0
    ensures rayRange < s.scan.linearMax ==> PMax(s, rayRange) == 0.0 && PRandom(s, rayRange) == PRand(s)
    ensures PMax(s, rayRange) == 0.0 || PRandom(s, rayRange) == 0.0
  {
  }

  /** The hit term never exceeds `z_hit` and reaches it on a perfect
      prediction. */
  lemma PHitBound(s: Scene, rayRange: real, mapRange: real)
    requires s.params.WellFormed() && ExpLaws(s.o.exp)
    ensures 0.0 <= PHit(s, rayRange, mapRange) <= s.params.zHit
    ensures rayRange == mapRange ==> PHit(s, rayRange, mapRange) == s.params.zHit
  {
    var sq := Pow2(rayRange - mapRange);
    var k := s.params.denominatorExponentHit;
    Pow2Nonneg(rayRange - mapRange);
    NonnegTimesNegative(sq, k);
    var e := s.o.exp(sq * k);
    ScaleByUnit(s.params.zHit, e);
    if rayRange == mapRange {
      assert sq * k == 0.0;
    }
  }

  lemma NonnegTimesNegative(a: real, k: real)
    requires a >= 0.0 && k < 0.0
    ensures a * k <= 0.0
  {
  }

  lemma ScaleByUnit(z: real, e: real)
    requires z >= 0.0 && 0.0 < e <= 1.0
    ensures 0.0 <= z * e <= z
  {
    assert z * e <= z * 1.0;
  }

  /** Every mixture density is non-negative. */
  lemma ProbabilityNonneg(s: Scene, ray: Ray, mTl: Transform2d)
    requires s.WellFormed() && ExpLaws(s.o.exp)
    ensures Probability(s, ray, mTl) >= 0.0
  {
    var mapRange := MapRange(s.scan.linearMax, s.getRange(mTl.Translation(), s.o.transformPoint(mTl, ray.endPoint)));
    PHitBound(s, ray.range, mapRange);
    var e := s.o.exp(-s.params.lambdaShort * ray.range);
    assert s.params.zShort * s.params.lambdaShort >= 0.0;
    assert s.params.zShort * s.params.lambdaShort * e >= 0.0;
    assert PRand(s) >= 0.0;
  }

  lemma {:induction false} RaySumNonneg(s: Scene, mTl: Transform2d, idx: seq<nat>)
    requires s.WellFormed() && ExpLaws(s.o.exp)
    requires forall k :: 0 <= k < |idx| ==> idx[k] < |s.scan.rays|
    ensures RaySum(s, mTl, idx) >= 0.0
  {
    if idx != [] {
      var ray := s.scan.rays[idx[0]];
      if ray.valid {
        ProbabilityNonneg(s, ray, mTl);
        Pow3Nonneg(Probability(s, ray, mTl));
      } else {
        Pow3Nonneg(s.params.zMax);
      }
      RaySumNonneg(s, mTl, idx[1..]);
    }
  }

  /** With non-negative parameters every particle scores at least 1. */
  lemma ScoreAtLeastOne(s: Scene, mTl: Transform2d)
    requires s.WellFormed() && ExpLaws(s.o.exp)
    ensures Score(s, mTl) >= 1.0
  {
    RaySumNonneg(s, mTl, VisitedRays(s));
  }

  /** The first pass: the score of every particle, in particle order. */
  function Scores(s: Scene, mTw: Transform2d, bTl: Transform2d, states: seq<Transform2d>): (r: seq<real>)
    requires s.WellFormed() && ExpLaws(s.o.exp)
    ensures |r| == |states|
    ensures forall j :: 0 <= j < |r| ==> r[j] >= 1.0
  {
    var r := seq(|states|, j requires 0 <= j < |states| => Score(s, LaserPose(s.o, mTw, states[j], bTl)));
    assert forall j :: 0 <= j < |r| ==> r[j] >= 1.0 by {
      forall j | 0 <= j < |r| {
        ScoreAtLeastOne(s, LaserPose(s.o, mTw, states[j], bTl));
      }
    }
    r
  }

  /** `std::numeric_limits<double>::lowest()`, where the running maximum
      starts. */
  const LOWEST: real := -179769313486231570814527423731704356798070567525844996598917476803157260780028538760589558632766878171540458953514382464234321326889464182768467546703537516986049910576551282076245490090389328944075868508455133942304583236903222948165808559332123348274797826204144723168738177180919299881250404026184124858368.0

  /** The running maximum `max = p >= max ? p : max` over the scores, in
      order. */
  function RunningMax(scores: seq<real>): real
  {
    if scores == [] then LOWEST
    else
      var m := RunningMax(scores[..|scores| - 1]);
      var p := scores[|scores| - 1];
      if p >= m then p else m
  }

  /** The running maximum bounds every score and is one of them unless it
      never left its initial value. */
  lemma {:induction false} RunningMaxIsMax(scores: seq<real>)
    ensures forall k :: 0 <= k < |scores| ==> scores[k] <= RunningMax(scores)
    ensures RunningMax(scores) == LOWEST || exists k :: 0 <= k < |scores| && scores[k] == RunningMax(scores)
  {
    if scores != [] {
      var init := scores[..|scores| - 1];
      RunningMaxIsMax(init);
      forall k | 0 <= k < |init| ensures scores[k] == init[k] { }
    }
  }

  /** The division by `max` is safe: with scores of at least 1 the maximum
      is at least 1 for a non-empty set; for an empty set it keeps its
      initial value and no weight is divided. */
  lemma MaxAtLeastOne(scores: seq<real>)
    requires forall k :: 0 <= k < |scores| ==> scores[k] >= 1.0
    ensures scores != [] ==> RunningMax(scores) >= 1.0
    ensures scores == [] ==> RunningMax(scores) == LOWEST
  {
    RunningMaxIsMax(scores);
    if scores != [] {
      assert RunningMax(scores) >= scores[0];
    }
  }

  /** The second pass: each weight times `score / max`. */
  function Rescaled(weights: seq<real>, scores: seq<real>): (r: seq<real>)
    requires |weights| == |scores|
    requires forall k :: 0 <= k < |scores| ==> scores[k] >= 1.0
    ensures |r| == |weights|
  {
    RunningMaxIsMax(scores);
    var max := RunningMax(scores);
    assert max != 0.0 by {
      if scores != [] { assert max >= scores[0]; }
    }
    seq(|weights|, k requires 0 <= k < |weights| => weights[k] * (scores[k] / max))
  }

  lemma RealDivMonotone(a: real, b: real, m: real)
    requires m > 0.0
    ensures a <= b <==> a / m <= b / m
  {
    assert (a / m) * m == a && (b / m) * m == b;
    assert b / m - a / m == (b - a) / m;
    assert ((b - a) / m) * m == b - a;
  }

  lemma DivSelf(m: real)
    requires m != 0.0
    ensures m / m == 1.0
  {
  }

  lemma RealDivAtMostOne(a: real, m: real)
    requires 0.0 < a <= m
    ensures 0.0 < a / m <= 1.0
  {
    RealDivMonotone(a, m, m);
    assert m / m == 1.0;
    assert (a / m) * m == a;
  }

  lemma MulDivAssoc(w: real, x: real, m: real)
    requires m != 0.0
    ensures w * (x / m) == (w * x) / m
  {
    assert (x / m) * m == x;
    assert (w * (x / m)) * m == w * x;
  }

  /** Every rescaling factor lies in (0, 1]. */
  lemma RescaleFactorInUnitInterval(scores: seq<real>, k: nat)
    requires forall i :: 0 <= i < |scores| ==> scores[i] >= 1.0
    requires k < |scores|
    ensures RunningMax(scores) >= scores[k]
    ensures 0.0 < scores[k] / RunningMax(scores) <= 1.0
  {
    RunningMaxIsMax(scores);
    RealDivAtMostOne(scores[k], RunningMax(scores));
  }

  /** A particle whose score is the maximum keeps its weight, and there is
      such a particle in a non-empty set. */
  lemma RescaleKeepsBestParticle(weights: seq<real>, scores: seq<real>)
    requires |weights| == |scores|
    requires forall i :: 0 <= i < |scores| ==> scores[i] >= 1.0
    ensures forall k :: 0 <= k < |scores| && scores[k] == RunningMax(scores) ==> Rescaled(weights, scores)[k] == weights[k]
    ensures scores != [] ==> exists k :: 0 <= k < |scores| && scores[k] == RunningMax(scores)
  {
    MaxAtLeastOne(scores);
    RunningMaxIsMax(scores);
    forall k | 0 <= k < |scores| && scores[k] == RunningMax(scores)
      ensures Rescaled(weights, scores)[k] == weights[k]
    {
      var m := RunningMax(scores);
      assert m >= 1.0;
      DivSelf(m);
      assert Rescaled(weights, scores)[k] == weights[k] * (scores[k] / m);
    }
  }

  /** Dividing two products by the same positive number keeps their order. */
  lemma OrderByCommonDivisor(wi: real, si: real, wj: real, sj: real, m: real)
    requires m > 0.0
    ensures wi * (si / m) <= wj * (sj / m) <==> wi * si <= wj * sj
  {
    MulDivAssoc(wi, si, m);
    MulDivAssoc(wj, sj, m);
    RealDivMonotone(wi * si, wj * sj, m);
  }

  /** Rescaling by the common positive maximum keeps the order of the
      score-weighted particles. */
  lemma RescalePreservesOrder(weights: seq<real>, scores: seq<real>, i: nat, j: nat)
    requires |weights| == |scores|
    requires forall k :: 0 <= k < |scores| ==> scores[k] >= 1.0
    requires i < |scores| && j < |scores|
    ensures Rescaled(weights, scores)[i] <= Rescaled(weights, scores)[j]
        <==> weights[i] * scores[i] <= weights[j] * scores[j]
  {
    RunningMaxIsMax(scores);
    var max := RunningMax(scores);
    assert max >= scores[0] >= 1.0;
    var r := Rescaled(weights, scores);
    assert r[i] == weights[i] * (scores[i] / max);
    assert r[j] == weights[j] * (scores[j] / max);
    OrderByCommonDivisor(weights[i], scores[i], weights[j], scores[j], max);
  }

  /** When every particle scores the same, every weight is kept. */
  lemma RescaleUniform(weights: seq<real>, scores: seq<real>)
    requires |weights| == |scores|
    requires forall k :: 0 <= k < |scores| ==> scores[k] >= 1.0
    requires forall k :: 0 <= k < |scores| ==> scores[k] == scores[0]
    ensures Rescaled(weights, scores) == weights
  {
    RunningMaxIsMax(scores);
    if scores != [] {
      var max := RunningMax(scores);
      var k :| 0 <= k < |scores| && scores[k] == max;
      assert max == scores[0] >= 1.0;
      DivSelf(max);
      forall i | 0 <= i < |weights|
        ensures Rescaled(weights, scores)[i] == weights[i]
      {
        assert scores[i] == max;
        assert Rescaled(weights, scores)[i] == weights[i] * (scores[i] / max);
      }
    }
  }

  /** On a map that predicts the maximal range everywhere, a ray read at
      the maximal range contributes the same term from every pose. */
  lemma {:induction false} RaySumPoseIndependent(s: Scene, mTl1: Transform2d, mTl2: Transform2d, idx: seq<nat>)
    requires s.scan.linearMax != 0.0
    requires forall k :: 0 <= k < |idx| ==> idx[k] < |s.scan.rays|
    requires forall a, b :: s.getRange(a, b) >= s.scan.linearMax
    requires forall k :: 0 <= k < |s.scan.rays| ==> s.scan.rays[k].range == s.scan.linearMax
    ensures RaySum(s, mTl1, idx) == RaySum(s, mTl2, idx)
  {
    if idx != [] {
      var ray := s.scan.rays[idx[0]];
      var rangeMax := s.scan.linearMax;
      assert MapRange(rangeMax, s.getRange(mTl1.Translation(), s.o.transformPoint(mTl1, ray.endPoint))) == rangeMax;
      assert MapRange(rangeMax, s.getRange(mTl2.Translation(), s.o.transformPoint(mTl2, ray.endPoint))) == rangeMax;
      assert RayTerm(s, ray, mTl1) == RayTerm(s, ray, mTl2);
      RaySumPoseIndependent(s, mTl1, mTl2, idx[1..]);
    }
  }

  /** End to end: a free map and a scan whose every ray reads the maximal
      range give every particle the multiplier 1. */
  lemma FreeMapKeepsWeights(s: Scene, mTw: Transform2d, bTl: Transform2d, states: seq<Transform2d>, weights: seq<real>)
    requires s.WellFormed() && ExpLaws(s.o.exp)
    requires |weights| == |states|
    requires forall a, b :: s.getRange(a, b) >= s.scan.linearMax
    requires forall k :: 0 <= k < |s.scan.rays| ==> s.scan.rays[k].range == s.scan.linearMax
    ensures Rescaled(weights, Scores(s, mTw, bTl, states)) == weights
  {
    var scores := Scores(s, mTw, bTl, states);
    forall k | 0 <= k < |scores|
      ensures scores[k] == scores[0]
    {
      RaySumPoseIndependent(s, LaserPose(s.o, mTw, states[k], bTl), LaserPose(s.o, mTw, states[0], bTl), VisitedRays(s));
    }
    RescaleUniform(weights, scores);
  }

  /** The inner loop of the first pass: one particle's score, visiting
      rays `0, step, 2 * step, ...`. */
  method RayScore(s: Scene, mTl: Transform2d) returns (p: real)
    requires s.WellFormed()
    ensures p == Score(s, mTl)
  {
    var rays := s.scan.rays;
    var n := |rays|;
    var step := RayStep(n, s.params.maxBeams);
    p := 1.0;
    var i := 0;
    while i < n
      invariant p + RaySum(s, mTl, StrideFrom(i, n, step)) == 1.0 + RaySum(s, mTl, StrideIndices(n, step))
      decreases n - i
    {
      var ray := rays[i];
      assert StrideFrom(i, n, step) == [i] + StrideFrom(i + step, n, step);
      p := p + if ray.valid then Pow3(Probability(s, ray, mTl)) else Pow3(s.params.zMax);
      i := i + step;
    }
  }

  /** Every weight multiplied by its factor over `max`: the effect of the
      loop `*it *= *it_ps / max`. */
  function Scaled(weights: seq<real>, factors: seq<real>, max: real): (r: seq<real>)
    requires |weights| <= |factors| && max != 0.0
    ensures |r| == |weights|
  {
    seq(|weights|, k requires 0 <= k < |weights| => weights[k] * (factors[k] / max))
  }

  /** A second pass that divides by the running maximum of the scores
      stored in `ps` computes `Rescaled`. */
  lemma RescaledMatches(before: seq<real>, ps: seq<real>, scores: seq<real>, m: real)
    requires |before| == |scores| <= |ps| && ps[..|scores|] == scores
    requires forall k :: 0 <= k < |scores| ==> scores[k] >= 1.0
    requires m == RunningMax(scores) && m != 0.0
    ensures Scaled(before, ps, m) == Rescaled(before, scores)
  {
    var r := Rescaled(before, scores);
    var after := Scaled(before, ps, m);
    forall k | 0 <= k < |scores|
      ensures after[k] == r[k]
    {
      assert ps[k] == ps[..|scores|][k] == scores[k];
      assert r[k] == before[k] * (scores[k] / m);
    }
    assert after == r;
  }

  /** The beam model with its configuration and its scratch buffer `ps` of
      per-particle scores. */
  class BeamModelAmclNormalized {
    const params: BeamParams
    var ps: seq<real>

    /** Setup: store the configuration and derive the hit exponent. */
    constructor Setup(frames: FrameConfig, maxBeams: nat, zHit: real, zShort: real, zMax: real, zRand: real,
                      sigmaHit: real, lambdaShort: real)
      requires sigmaHit != 0.0
      ensures params == BeamParams(frames, maxBeams, zHit, zShort, zMax, zRand, sigmaHit, lambdaShort,
                                   DenominatorExponentHit(sigmaHit))
      ensures ps == []
    {
      params := BeamParams(frames, maxBeams, zHit, zShort, zMax, zRand, sigmaHit, lambdaShort,
                           DenominatorExponentHit(sigmaHit));
      ps := [];
    }

    /** Resize the scratch buffer to the set's capacity and zero it. */
    method ResetScratch(capacity: nat)
      modifies this
      ensures |ps| == capacity && forall k :: 0 <= k < capacity ==> ps[k] == 0.0
    {
      if |ps| != capacity {
        ps := if capacity <= |ps| then ps[..capacity] else ps + seq(capacity - |ps|, _ => 0.0);
      }
      ps := seq(|ps|, _ => 0.0);
    }

    /** The first pass: store every particle's score in `ps` and track the
        running maximum. */
    method ScorePass(s: Scene, mTw: Transform2d, bTl: Transform2d, sampleSet: ParticleSet) returns (max: real)
      requires s.WellFormed() && ExpLaws(s.o.exp) && sampleSet.Valid()
      requires |ps| == sampleSet.capacity && forall k :: 0 <= k < |ps| ==> ps[k] == 0.0
      modifies this
      ensures |ps| == sampleSet.capacity
      ensures ps[..|sampleSet.states|] == Scores(s, mTw, bTl, sampleSet.states)
      ensures forall k :: |sampleSet.states| <= k < |ps| ==> ps[k] == 0.0
      ensures max == RunningMax(Scores(s, mTw, bTl, sampleSet.states))
    {
      ghost var scores := Scores(s, mTw, bTl, sampleSet.states);
      var n := |sampleSet.states|;
      max := LOWEST;
      var j := 0;
      while j < n
        invariant 0 <= j <= n && |ps| == sampleSet.capacity
        invariant ps[..j] == scores[..j]
        invariant forall k :: j <= k < |ps| ==> ps[k] == 0.0
        invariant max == RunningMax(scores[..j])
      {
        var p := RayScore(s, LaserPose(s.o, mTw, sampleSet.states[j], bTl));
        ps := ps[j := p];
        max := if p >= max then p else max;
        assert scores[..j + 1][..j] == scores[..j];
        j := j + 1;
      }
      assert scores[..n] == scores;
    }

    /** The second pass: multiply every weight by its score over `max`. */
    method RescalePass(sampleSet: ParticleSet, max: real)
      requires sampleSet.Valid() && |sampleSet.states| <= |ps| && max != 0.0
      modifies sampleSet.weights
      ensures sampleSet.weights[..] == Scaled(old(sampleSet.weights[..]), ps, max)
    {
      var n := sampleSet.weights.Length;
      var j := 0;
      while j < n
        invariant 0 <= j <= n
        invariant forall k :: 0 <= k < j ==> sampleSet.weights[k] == old(sampleSet.weights[k]) * (ps[k] / max)
        invariant forall k :: j <= k < n ==> sampleSet.weights[k] == old(sampleSet.weights[k])
      {
        sampleSet.weights[j] := sampleSet.weights[j] * (ps[j] / max);
        j := j + 1;
      }
      ghost var before := old(sampleSet.weights[..]);
      forall k | 0 <= k < n
        ensures sampleSet.weights[..][k] == Scaled(before, ps, max)[k]
      {
        assert before[k] == old(sampleSet.weights[k]);
      }
    }

    /** The update once both transforms are known: zero the scratch
        buffer, score every particle into it, then rescale the weights. */
    method Update(s: Scene, mTw: Transform2d, bTl: Transform2d, sampleSet: ParticleSet)
      requires s.WellFormed() && ExpLaws(s.o.exp) && sampleSet.Valid()
      modifies this, sampleSet.weights
      ensures |ps| == sampleSet.capacity
      ensures ps[..|sampleSet.states|] == Scores(s, mTw, bTl, sampleSet.states)
      ensures forall k :: |sampleSet.states| <= k < |ps| ==> ps[k] == 0.0
      ensures sampleSet.weights[..] == Rescaled(old(sampleSet.weights[..]), Scores(s, mTw, bTl, sampleSet.states))
    {
      ghost var scores := Scores(s, mTw, bTl, sampleSet.states);
      ghost var before := sampleSet.weights[..];
      ResetScratch(sampleSet.capacity);
      var max := ScorePass(s, mTw, bTl, sampleSet);
      RunningMaxIsMax(scores);
      assert max != 0.0 by {
        if scores != [] { assert max >= scores[0]; }
      }
      assert sampleSet.weights[..] == before;
      RescalePass(sampleSet, max);
      RescaledMatches(before, ps, scores, max);
    }

    /** One weight update. A map that is not an occupancy grid or a failed
        transform lookup leaves weights and scratch buffer untouched;
        otherwise `ps` holds the scores (zero past the set's size) and every
        weight is rescaled by its score over the maximum score. */
    method Apply(data: Data, stateSpace: StateSpace, sampleSet: ParticleSet, tf: TfProvider, o: Oracles)
      requires ExpLaws(o.exp) && sampleSet.Valid()
      requires stateSpace.BinaryGridmap? ==> data.Laserscan?
      requires (stateSpace.BinaryGridmap? && data.Laserscan?
                && LookupTransforms(tf, params.frames, data.scan, stateSpace.frame).Some?)
               ==> params.WellFormed() && data.scan.WellFormed()
      modifies this, sampleSet.weights
      ensures !stateSpace.BinaryGridmap? ==> ps == old(ps) && sampleSet.weights[..] == old(sampleSet.weights[..])
      ensures stateSpace.BinaryGridmap? && LookupTransforms(tf, params.frames, data.scan, stateSpace.frame).None? ==>
        ps == old(ps) && sampleSet.weights[..] == old(sampleSet.weights[..])
      ensures stateSpace.BinaryGridmap? && LookupTransforms(tf, params.frames, data.scan, stateSpace.frame).Some? ==>
        var (bTl, mTw) := LookupTransforms(tf, params.frames, data.scan, stateSpace.frame).value;
        var scores := Scores(Scene(params, o, stateSpace.getRange, data.scan), mTw, bTl, sampleSet.states);
        && |ps| == sampleSet.capacity
        && ps[..|scores|] == scores
        && (forall k :: |scores| <= k < |ps| ==> ps[k] == 0.0)
        && sampleSet.weights[..] == Rescaled(old(sampleSet.weights[..]), scores)
    {
      if !stateSpace.BinaryGridmap? {
        return;
      }
      var scan := data.scan;
      var bTl := tf.lookup(params.frames.robotBaseFrame, scan.frame, scan.timeEnd, params.frames.tfTimeout);
      if bTl.None? {
        return;
      }
      var mTw := tf.lookup(params.frames.worldFrame, stateSpace.frame, scan.timeEnd, params.frames.tfTimeout);
      if mTw.None? {
        return;
      }
      Update(Scene(params, o, stateSpace.getRange, scan), mTw.value, bTl.value, sampleSet);
    }
  }
}
