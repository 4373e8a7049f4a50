/** The NDT likelihood-field model: every selected ray end point, moved into
    the map frame by the particle's laser pose, is scored by the mean of the
    four Gaussian-like likelihoods of the distribution bundle covering it;
    each particle's weight is multiplied by `1 + sum of cubes`, with no
    normalisation across particles. Rays are selected by a uniform stride
    or, when a histogram resolution is configured, by a spatial histogram
    of the valid rays. */
module NdtLikelihoodField {
  import opened RayStride
  import opened MclTypes

  /** The model's configuration after setup. */
  datatype NdtParams = NdtParams(
    frames: FrameConfig,
    maxPoints: nat,
    d1: real,
    d2: real,
    histogramResolution: real)
  {
    /** A stride budget of at least two points that fits a `std::size_t`;
        only stride mode divides by `max_points - 1`. */
    predicate WellFormed()
    {
      2 <= maxPoints < SIZE_MODULUS
    }
  }

  /** The kd-tree ray histogram: given the indices of the inserted rays,
      `representatives` yields the index of one representative ray per
      occupied bucket. Its bucketing and tie-break are not modelled. */
  datatype RayHistogram = RayHistogram(representatives: seq<nat> -> seq<nat>)

  /** A histogram only ever answers with rays that were inserted. */
  ghost predicate SelectionLaw(h: RayHistogram)
  {
    forall c: seq<nat>, k :: 0 <= k < |h.representatives(c)| ==> h.representatives(c)[k] in c
  }

  /** What the evaluation lambdas of one update see: the configuration, the
      numeric and geometric primitives, the grid's bundle query and
      resolution, and the scan. */
  datatype NdtScene = NdtScene(
    params: NdtParams,
    o: Oracles,
    bundleResolution: real,
    getDistributionBundle: (int, int) -> Bundle,
    scan: LaserScan)
  {
    predicate WellFormed()
    {
      && (params.histogramResolution <= 0.0 ==> params.WellFormed())
      && |scan.rays| < SIZE_MODULUS
      && bundleResolution != 0.0
    }
  }

  /** The bundle cell of a point, `floor(p * (1 / resolution))` per axis. */
  function ToBundleIndex(resolutionInv: real, p: Vec2): (int, int)
  {
    ((p.x * resolutionInv).Floor, (p.y * resolutionInv).Floor)
  }

  lemma FloorCell(v: real, res: real)
    requires res > 0.0
    ensures ((v * (1.0 / res)).Floor as real) * res <= v < ((v * (1.0 / res)).Floor + 1) as real * res
  {
    var t := v * (1.0 / res);
    var f := t.Floor;
    assert f as real <= t < f as real + 1.0;
    assert t * res == v;
    assert (f as real) * res <= t * res;
    assert t * res < (f as real + 1.0) * res;
  }

  /** A point lies in the bundle cell `ToBundleIndex` names. */
  lemma BundleIndexContains(res: real, p: Vec2)
    requires res > 0.0
    ensures var (ix, iy) := ToBundleIndex(1.0 / res, p);
      && (ix as real) * res <= p.x < ((ix + 1) as real) * res
      && (iy as real) * res <= p.y < ((iy + 1) as real) * res
  {
    var idx := ToBundleIndex(1.0 / res, p);
    assert idx.0 == (p.x * (1.0 / res)).Floor && idx.1 == (p.y * (1.0 / res)).Floor;
    FloorCell(p.x, res);
    FloorCell(p.y, res);
  }

  /** `q^T * M * q`. */
  function Quadratic(q: Vec2, m: Mat2): real
  {
    (q.x * m.a00 + q.y * m.a10) * q.x + (q.x * m.a01 + q.y * m.a11) * q.y
  }

  /** The exponent `-0.5 * d2 * q^T I q` of `p` under one distribution,
      with `q` the offset of `p` from the mean. */
  function Exponent(s: NdtScene, p: Vec2, d: Distribution): real
  {
    -0.5 * s.params.d2 * Quadratic(Vec2(p.x - d.mean.x, p.y - d.mean.y), d.information)
  }

  /** The likelihood of `p` under one distribution, `d1 * exp(exponent)`,
      replaced by 0 when it is not a normal floating-point value. */
  function Likelihood(s: NdtScene, p: Vec2, d: Distribution): (v: real)
    ensures v == 0.0 || s.o.isNormal(v)
  {
    var e := s.params.d1 * s.o.exp(Exponent(s, p, d));
    if s.o.isNormal(e) then e else 0.0
  }

  /** At a distribution's mean the likelihood is `d1` (when `d1` is
      normal). */
  lemma LikelihoodAtMean(s: NdtScene, d: Distribution)
    requires s.o.exp(0.0) == 1.0
    ensures Likelihood(s, d.mean, d) == if s.o.isNormal(s.params.d1) then s.params.d1 else 0.0
  {
    assert Exponent(s, d.mean, d) == 0.0;
    assert s.params.d1 * s.o.exp(Exponent(s, d.mean, d)) == s.params.d1;
  }

  /** A non-negative amplitude gives non-negative likelihoods. */
  lemma LikelihoodNonneg(s: NdtScene, p: Vec2, d: Distribution)
    requires s.params.d1 >= 0.0 && ExpLaws(s.o.exp)
    ensures Likelihood(s, p, d) >= 0.0
  {
    assert s.o.exp(Exponent(s, p, d)) > 0.0;
  }

  /** The bundle of the cell covering `p`. */
  function BundleAt(s: NdtScene, p: Vec2): Bundle
    requires s.bundleResolution != 0.0
  {
    var (ix, iy) := ToBundleIndex(1.0 / s.bundleResolution, p);
    s.getDistributionBundle(ix, iy)
  }

  /** The bundle likelihood of a map point: the mean of the likelihoods
      under the four distributions of the bundle covering it. */
  function BundleLikelihood(s: NdtScene, p: Vec2): real
    requires s.bundleResolution != 0.0
  {
    var b := BundleAt(s, p);
    0.25 * (Likelihood(s, p, b.b0) + Likelihood(s, p, b.b1) + Likelihood(s, p, b.b2) + Likelihood(s, p, b.b3))
  }

  function Min4(a: real, b: real, c: real, d: real): real
  {
    var ab := if a <= b then a else b;
    var cd := if c <= d then c else d;
    if ab <= cd then ab else cd
  }

  function Max4(a: real, b: real, c: real, d: real): real
  {
    var ab := if a >= b then a else b;
    var cd := if c >= d then c else d;
    if ab >= cd then ab else cd
  }

  /** The bundle likelihood is the unweighted mean of its four components,
      so it lies between their minimum and maximum. */
  lemma BundleLikelihoodIsMean(s: NdtScene, p: Vec2)
    requires s.bundleResolution != 0.0
    ensures var b := BundleAt(s, p);
      var l0, l1, l2, l3 := Likelihood(s, p, b.b0), Likelihood(s, p, b.b1), Likelihood(s, p, b.b2), Likelihood(s, p, b.b3);
      && 4.0 * BundleLikelihood(s, p) == l0 + l1 + l2 + l3
      && Min4(l0, l1, l2, l3) <= BundleLikelihood(s, p) <= Max4(l0, l1, l2, l3)
  {
  }

  /** `valid(r)`: the ray is flagged valid and its angle and range lie
      within the scan's bounds. */
  predicate ValidRay(scan: LaserScan, r: Ray)
  {
    && r.valid
    && r.angle >= scan.angularMin && r.angle <= scan.angularMax
    && r.range >= scan.linearMin && r.range <= scan.linearMax
  }

  /** The indices of the valid rays among the first `upTo`, in scan order:
      the rays inserted into the histogram. */
  function Candidates(scan: LaserScan, upTo: nat): (c: seq<nat>)
    requires upTo <= |scan.rays|
    ensures forall k :: 0 <= k < |c| ==> c[k] < upTo && ValidRay(scan, scan.rays[c[k]])
    ensures forall i :: 0 <= i < upTo && ValidRay(scan, scan.rays[i]) ==> i in c
    ensures forall a, b :: 0 <= a < b < |c| ==> c[a] < c[b]
  {
    if upTo == 0 then []
    else
      var init := Candidates(scan, upTo - 1);
      if ValidRay(scan, scan.rays[upTo - 1]) then init + [upTo - 1] else init
  }

  /** The histogram-filling loop: insert every valid ray, in order. */
  method CollectCandidates(scan: LaserScan) returns (c: seq<nat>)
    ensures c == Candidates(scan, |scan.rays|)
  {
    var size := |scan.rays|;
    c := [];
    var i := 0;
    while i < size
      invariant 0 <= i <= size
      invariant c == Candidates(scan, i)
    {
      var r := scan.rays[i];
      if ValidRay(scan, r) {
        c := c + [i];
      }
      i := i + 1;
    }
  }

  /** The rays a particle is scored on: the histogram's representatives of
      the valid rays, or a uniform stride over all rays. */
  function SelectedRays(s: NdtScene, h: RayHistogram): (idx: seq<nat>)
    requires s.WellFormed() && SelectionLaw(h)
    ensures forall k :: 0 <= k < |idx| ==> idx[k] < |s.scan.rays|
    ensures s.params.histogramResolution > 0.0 ==> forall k :: 0 <= k < |idx| ==> ValidRay(s.scan, s.scan.rays[idx[k]])
    ensures s.params.histogramResolution <= 0.0 ==> |idx| <= 2 * s.params.maxPoints - 2
  {
    var n := |s.scan.rays|;
    if s.params.histogramResolution > 0.0 then
      var c := Candidates(s.scan, n);
      var idx := h.representatives(c);
      assert forall k :: 0 <= k < |idx| ==> idx[k] in c;
      idx
    else
      StrideCountBound(n, s.params.maxPoints);
      StrideIndices(n, RayStep(n, s.params.maxPoints))
  }

  /** What one selected ray adds to a particle's score: the cubed bundle
      likelihood of its map-frame end point, or 0 for an invalid ray or a
      non-normal point. */
  function RayTerm(s: NdtScene, ray: Ray, mTl: Transform2d): real
    requires s.bundleResolution != 0.0
  {
    var mapPoint := s.o.transformPoint(mTl, ray.endPoint);
    if ray.valid && s.o.isNormalPoint(mapPoint) then Pow3(BundleLikelihood(s, mapPoint)) else 0.0
  }

  function RaySum(s: NdtScene, mTl: Transform2d, idx: seq<nat>): real
    requires s.bundleResolution != 0.0
    requires forall k :: 0 <= k < |idx| ==> idx[k] < |s.scan.rays|
  {
    if idx == [] then 0.0 else RayTerm(s, s.scan.rays[idx[0]], mTl) + RaySum(s, mTl, idx[1..])
  }

  /** The multiplier of a particle whose laser sits at `mTl`, over the
      selected rays `idx`. */
  function Score(s: NdtScene, mTl: Transform2d, idx: seq<nat>): real
    requires s.bundleResolution != 0.0
    requires forall k :: 0 <= k < |idx| ==> idx[k] < |s.scan.rays|
  {
    1.0 + RaySum(s, mTl, idx)
  }

  lemma {:induction false} RaySumNonneg(s: NdtScene, mTl: Transform2d, idx: seq<nat>)
    requires s.bundleResolution != 0.0 && s.params.d1 >= 0.0 && ExpLaws(s.o.exp)
    requires forall k :: 0 <= k < |idx| ==> idx[k] < |s.scan.rays|
    ensures RaySum(s, mTl, idx) >= 0.0
  {
    if idx != [] {
      var ray := s.scan.rays[idx[0]];
      var mapPoint := s.o.transformPoint(mTl, ray.endPoint);
      var b := BundleAt(s, mapPoint);
      LikelihoodNonneg(s, mapPoint, b.b0);
      LikelihoodNonneg(s, mapPoint, b.b1);
      LikelihoodNonneg(s, mapPoint, b.b2);
      LikelihoodNonneg(s, mapPoint, b.b3);
      Pow3Nonneg(BundleLikelihood(s, mapPoint));
      RaySumNonneg(s, mTl, idx[1..]);
    }
  }

  /** With a non-negative amplitude every multiplier is at least 1. */
  lemma ScoreAtLeastOne(s: NdtScene, mTl: Transform2d, idx: seq<nat>)
    requires s.bundleResolution != 0.0 && s.params.d1 >= 0.0 && ExpLaws(s.o.exp)
    requires forall k :: 0 <= k < |idx| ==> idx[k] < |s.scan.rays|
    ensures Score(s, mTl, idx) >= 1.0
  {
    RaySumNonneg(s, mTl, idx);
  }

  /** Every particle's multiplier, in particle order. */
  function Scores(s: NdtScene, mTw: Transform2d, bTl: Transform2d, states: seq<Transform2d>, idx: seq<nat>)
    : (r: seq<real>)
    requires s.bundleResolution != 0.0
    requires forall k :: 0 <= k < |idx| ==> idx[k] < |s.scan.rays|
    ensures |r| == |states|
    ensures s.params.d1 >= 0.0 && ExpLaws(s.o.exp) ==> forall j :: 0 <= j < |r| ==> r[j] >= 1.0
  {
    var r := seq(|states|, j requires 0 <= j < |states| => Score(s, LaserPose(s.o, mTw, states[j], bTl), idx));
    assert s.params.d1 >= 0.0 && ExpLaws(s.o.exp) ==> forall j :: 0 <= j < |r| ==> r[j] >= 1.0 by {
      if s.params.d1 >= 0.0 && ExpLaws(s.o.exp) {
        forall j | 0 <= j < |r| {
          ScoreAtLeastOne(s, LaserPose(s.o, mTw, states[j], bTl), idx);
        }
      }
    }
    r
  }

  /** The `j`-th entry of `Scores` is particle `j`'s multiplier. */
  lemma ScoresAt(s: NdtScene, mTw: Transform2d, bTl: Transform2d, states: seq<Transform2d>, idx: seq<nat>, j: nat)
    requires s.bundleResolution != 0.0
    requires forall k :: 0 <= k < |idx| ==> idx[k] < |s.scan.rays|
    requires j < |states|
    ensures Scores(s, mTw, bTl, states, idx)[j] == Score(s, LaserPose(s.o, mTw, states[j], bTl), idx)
  {
  }

  /** One weight multiplied by its particle's multiplier. */
  function Scale(weight: real, score: real): real
  {
    weight * score
  }

  /** Each weight multiplied by its own particle's multiplier. */
  function Reweighted(weights: seq<real>, scores: seq<real>): (r: seq<real>)
    requires |weights| == |scores|
    ensures |r| == |weights|
  {
    seq(|weights|, k requires 0 <= k < |weights| => Scale(weights[k], scores[k]))
  }

  /** No weight shrinks: a non-negative weight times a multiplier of at
      least 1. */
  lemma ReweightNeverDecreases(s: NdtScene, mTw: Transform2d, bTl: Transform2d, states: seq<Transform2d>,
                               idx: seq<nat>, weights: seq<real>)
    requires s.bundleResolution != 0.0 && s.params.d1 >= 0.0 && ExpLaws(s.o.exp)
    requires forall k :: 0 <= k < |idx| ==> idx[k] < |s.scan.rays|
    requires |weights| == |states|
    requires forall k :: 0 <= k < |weights| ==> weights[k] >= 0.0
    ensures forall k :: 0 <= k < |weights| ==> Reweighted(weights, Scores(s, mTw, bTl, states, idx))[k] >= weights[k]
  {
    var scores := Scores(s, mTw, bTl, states, idx);
    forall k | 0 <= k < |weights|
      ensures Reweighted(weights, scores)[k] >= weights[k]
    {
      assert weights[k] * (scores[k] - 1.0) >= 0.0;
    }
  }

  /** No normalisation across particles: a particle's new weight depends
      only on its own old weight and pose. */
  lemma ReweightIsLocal(s: NdtScene, mTw: Transform2d, bTl: Transform2d, idx: seq<nat>,
                        states1: seq<Transform2d>, weights1: seq<real>, i: nat,
                        states2: seq<Transform2d>, weights2: seq<real>, j: nat)
    requires s.bundleResolution != 0.0
    requires forall k :: 0 <= k < |idx| ==> idx[k] < |s.scan.rays|
    requires |weights1| == |states1| && |weights2| == |states2|
    requires i < |states1| && j < |states2|
    requires states1[i] == states2[j] && weights1[i] == weights2[j]
    ensures Reweighted(weights1, Scores(s, mTw, bTl, states1, idx))[i]
         == Reweighted(weights2, Scores(s, mTw, bTl, states2, idx))[j]
  {
  }

  lemma {:induction false} RaySumOfInvalidRays(s: NdtScene, mTl: Transform2d, idx: seq<nat>)
    requires s.bundleResolution != 0.0
    requires forall k :: 0 <= k < |idx| ==> idx[k] < |s.scan.rays| && !s.scan.rays[idx[k]].valid
    ensures RaySum(s, mTl, idx) == 0.0
  {
    if idx != [] {
      RaySumOfInvalidRays(s, mTl, idx[1..]);
    }
  }

  /** End to end: a scan without a valid ray leaves every weight as it
      was, whatever the map and the poses. */
  lemma InvalidScanKeepsWeights(s: NdtScene, mTw: Transform2d, bTl: Transform2d, states: seq<Transform2d>,
                                idx: seq<nat>, weights: seq<real>)
    requires s.bundleResolution != 0.0
    requires forall k :: 0 <= k < |idx| ==> idx[k] < |s.scan.rays|
    requires forall k :: 0 <= k < |s.scan.rays| ==> !s.scan.rays[k].valid
    requires |weights| == |states|
    ensures Reweighted(weights, Scores(s, mTw, bTl, states, idx)) == weights
  {
    var scores := Scores(s, mTw, bTl, states, idx);
    forall k | 0 <= k < |weights|
      ensures Reweighted(weights, scores)[k] == weights[k]
    {
      RaySumOfInvalidRays(s, LaserPose(s.o, mTw, states[k], bTl), idx);
    }
  }

  /** The inner loop of histogram mode: one particle's multiplier over the
      representative rays. */
  method ScoreOverIndices(s: NdtScene, mTl: Transform2d, idx: seq<nat>) returns (p: real)
    requires s.bundleResolution != 0.0
    requires forall k :: 0 <= k < |idx| ==> idx[k] < |s.scan.rays|
    ensures p == Score(s, mTl, idx)
  {
    p := 1.0;
    for k := 0 to |idx|
      invariant p + RaySum(s, mTl, idx[k..]) == 1.0 + RaySum(s, mTl, idx)
    {
      var ray := s.scan.rays[idx[k]];
      assert idx[k..][1..] == idx[k + 1..];
      var mapPoint := s.o.transformPoint(mTl, ray.endPoint);
      p := p + if ray.valid && s.o.isNormalPoint(mapPoint) then Pow3(BundleLikelihood(s, mapPoint)) else 0.0;
    }
  }

  /** The inner loop of stride mode: one particle's multiplier over rays
      `0, step, 2 * step, ...`. */
  method ScoreStrided(s: NdtScene, mTl: Transform2d, step: nat) returns (p: real)
    requires s.bundleResolution != 0.0 && step >= 1
    ensures p == Score(s, mTl, StrideIndices(|s.scan.rays|, step))
  {
    var rays := s.scan.rays;
    var n := |rays|;
    p := 1.0;
    var i := 0;
    while i < n
      invariant p + RaySum(s, mTl, StrideFrom(i, n, step)) == 1.0 + RaySum(s, mTl, StrideIndices(n, step))
      decreases n - i
    {
      var ray := rays[i];
      assert StrideFrom(i, n, step) == [i] + StrideFrom(i + step, n, step);
      var mapPoint := s.o.transformPoint(mTl, ray.endPoint);
      p := p + if ray.valid && s.o.isNormalPoint(mapPoint) then Pow3(BundleLikelihood(s, mapPoint)) else 0.0;
      i := i + step;
    }
  }

  /** The configuration `doSetup` falls back to: a budget of 100 points,
      `d1 = 0.95`, `d2 = 0.05` and no histogram. */
  function DefaultParams(frames: FrameConfig): (p: NdtParams)
    ensures p.WellFormed()
    ensures p.histogramResolution <= 0.0
    ensures p.d1 > 0.0
  {
    NdtParams(frames, 100, 0.95, 0.05, 0.0)
  }

  /** The NDT model with its configuration; it keeps no other state. */
  class Gridmap2dLikelihoodFieldModel {
    const params: NdtParams

    constructor Setup(frames: FrameConfig, maxPoints: nat, d1: real, d2: real, histogramResolution: real)
      ensures params == NdtParams(frames, maxPoints, d1, d2, histogramResolution)
    {
      params := NdtParams(frames, maxPoints, d1, d2, histogramResolution);
    }

    /** Histogram mode: score every particle over the representative rays
        and multiply its weight by the score. */
    method UpdateOverIndices(s: NdtScene, mTw: Transform2d, bTl: Transform2d, sampleSet: ParticleSet, idx: seq<nat>)
      requires s.bundleResolution != 0.0 && sampleSet.Valid()
      requires forall k :: 0 <= k < |idx| ==> idx[k] < |s.scan.rays|
      modifies sampleSet.weights
      ensures sampleSet.weights[..] == Reweighted(old(sampleSet.weights[..]), Scores(s, mTw, bTl, sampleSet.states, idx))
    {
      ghost var scores := Scores(s, mTw, bTl, sampleSet.states, idx);
      ghost var before := sampleSet.weights[..];
      ghost var after := Reweighted(before, scores);
      var n := sampleSet.weights.Length;
      var j := 0;
      while j < n
        invariant 0 <= j <= n
        invariant forall k :: 0 <= k < j ==> sampleSet.weights[k] == after[k]
        invariant forall k :: j <= k < n ==> sampleSet.weights[k] == before[k]
      {
        var p := ScoreOverIndices(s, LaserPose(s.o, mTw, sampleSet.states[j], bTl), idx);
        assert after[j] == Scale(before[j], p) by { ScoresAt(s, mTw, bTl, sampleSet.states, idx, j); }
        sampleSet.weights[j] := Scale(sampleSet.weights[j], p);
        j := j + 1;
      }
      assert sampleSet.weights[..] == after;
    }

    /** Stride mode: score every particle over rays `0, step, 2 * step, ...`
        and multiply its weight by the score. */
    method UpdateStrided(s: NdtScene, mTw: Transform2d, bTl: Transform2d, sampleSet: ParticleSet, step: nat)
      requires s.bundleResolution != 0.0 && sampleSet.Valid() && step >= 1
      modifies sampleSet.weights
      ensures sampleSet.weights[..]
           == Reweighted(old(sampleSet.weights[..]), Scores(s, mTw, bTl, sampleSet.states, StrideIndices(|s.scan.rays|, step)))
    {
      ghost var idx := StrideIndices(|s.scan.rays|, step);
      ghost var scores := Scores(s, mTw, bTl, sampleSet.states, idx);
      ghost var before := sampleSet.weights[..];
      ghost var after := Reweighted(before, scores);
      var n := sampleSet.weights.Length;
      var j := 0;
      while j < n
        invariant 0 <= j <= n
        invariant forall k :: 0 <= k < j ==> sampleSet.weights[k] == after[k]
        invariant forall k :: j <= k < n ==> sampleSet.weights[k] == before[k]
      {
        var p := ScoreStrided(s, LaserPose(s.o, mTw, sampleSet.states[j], bTl), step);
        assert after[j] == Scale(before[j], p) by { ScoresAt(s, mTw, bTl, sampleSet.states, idx, j); }
        sampleSet.weights[j] := Scale(sampleSet.weights[j], p);
        j := j + 1;
      }
      assert sampleSet.weights[..] == after;
    }

    /** One weight update. A map that is not an NDT grid, data that is not
        a laser scan or a failed transform lookup leaves every weight
        untouched; otherwise each weight is multiplied by its particle's
        score over the selected rays. */
    method Apply(data: Data, stateSpace: StateSpace, sampleSet: ParticleSet, tf: TfProvider, o: Oracles,
                 histogram: RayHistogram)
      requires sampleSet.Valid() && SelectionLaw(histogram)
      requires data.Laserscan? ==> |data.scan.rays| < SIZE_MODULUS
      requires (stateSpace.NdtGridmap2d? && data.Laserscan?
                && LookupTransforms(tf, params.frames, data.scan, stateSpace.frame).Some?)
               ==> stateSpace.bundleResolution != 0.0 && (params.histogramResolution <= 0.0 ==> params.WellFormed())
      modifies sampleSet.weights
      ensures !(stateSpace.NdtGridmap2d? && data.Laserscan?) ==> sampleSet.weights[..] == old(sampleSet.weights[..])
      ensures (stateSpace.NdtGridmap2d? && data.Laserscan?
               && LookupTransforms(tf, params.frames, data.scan, stateSpace.frame).None?) ==>
        sampleSet.weights[..] == old(sampleSet.weights[..])
      ensures (stateSpace.NdtGridmap2d? && data.Laserscan?
               && LookupTransforms(tf, params.frames, data.scan, stateSpace.frame).Some?) ==>
        var (bTl, mTw) := LookupTransforms(tf, params.frames, data.scan, stateSpace.frame).value;
        var s := NdtScene(params, o, stateSpace.bundleResolution, stateSpace.getDistributionBundle, data.scan);
        sampleSet.weights[..]
          == Reweighted(old(sampleSet.weights[..]), Scores(s, mTw, bTl, sampleSet.states, SelectedRays(s, histogram)))
    {
      if !stateSpace.NdtGridmap2d? || !data.Laserscan? {
        return;
      }
      var scan := data.scan;
      var bTl := tf.lookup(params.frames.robotBaseFrame, scan.frame, scan.timeEnd, params.frames.tfTimeout);
      if bTl.None? {
        return;
      }
      var mTw := tf.lookup(params.frames.worldFrame, stateSpace.frame, scan.timeEnd, params.frames.tfTimeout);
      if mTw.None? {
        return;
      }

      var s := NdtScene(params, o, stateSpace.bundleResolution, stateSpace.getDistributionBundle, scan);
      if params.histogramResolution > 0.0 {
        var candidates := CollectCandidates(scan);
        var rayIndices := histogram.representatives(candidates);
        assert rayIndices == SelectedRays(s, histogram);
        UpdateOverIndices(s, mTw.value, bTl.value, sampleSet, rayIndices);
      } else {
        var raysSize := |scan.rays|;
        var step := RayStep(raysSize, params.maxPoints);
        UpdateStrided(s, mTw.value, bTl.value, sampleSet, step);
      }
    }
  }
}
