# Laser observation models of muse_mcl_2d, in Dafny

This project models the particle-weight update of two laser observation
models of the muse_mcl_2d Monte Carlo localisation framework, and proves
properties of it.

- **Normalized AMCL beam model** (`BeamModelAMCLNormalized::apply`). If the
  map is not a binary occupancy grid, or one of the two transform lookups
  fails, it returns without touching anything. Otherwise:
  - it picks rays `0, step, 2 * step, ...`, with
    `step = max(1, (N - 1) / (max_beams - 1))` computed in `std::size_t`
    arithmetic;
  - it scores every particle as `1 + sum of cubes` of a four-term mixture
    (hit, short, max-range, random), measured against the range the grid
    predicts from the particle's laser pose;
  - it stores the scores in the scratch vector `ps_` and tracks their
    running maximum;
  - in a second pass, it multiplies every weight by `score / max`.
- **NDT likelihood-field model** (`Gridmap2dLikelihoodFieldModel::apply`).
  It has the same early exits, plus one for data that is not a laser scan.
  Otherwise:
  - every selected ray's map-frame end point is scored by the mean of the
    four clamped Gaussian-like likelihoods of the distribution bundle
    covering it;
  - rays are selected either by the same uniform stride (budget
    `max_points`) or, when a histogram resolution is set, by representatives
    of the valid rays;
  - every weight is multiplied by `1 + sum of cubes`, with no normalisation
    across particles.

Modules:

- `RayStride` (`ray_stride.dfy`): the stride shared by both models and the
  indices it visits.
- `MclTypes` (`types.dfy`): scans, maps, transforms, the particle set, and
  the external operations the models call.
- `BeamModelAmcl` (`beam_model.dfy`): the beam model. Its mixture terms are
  functions; its update is a class with the scratch buffer `ps`.
- `NdtLikelihoodField` (`ndt_model.dfy`): the NDT model.

External operations are parameters, passed as function-valued fields. The
properties the proofs rely on are stated as predicates and required where
they are used.

- `exp`: `ExpLaws` says `exp(0) = 1`, `exp > 0`, and `exp(x) <= 1` for
  `x <= 0`.
- `std::isnormal` and `Vector2d::isNormal`: no law.
- Pose composition and point transformation: no law.
- The grid's ray cast `getRange` and its bundle lookup
  `getDistributionBundle`: no law.
- The transform lookups: a lookup returns an optional transform.
- The kd-tree's representative-ray selection: `SelectionLaw` says it returns
  only indices it was given.

Arithmetic is over `real`. The `std::size_t` subtraction in the stride
formula wraps explicitly (`SizeSub`). That wrap decides what happens for an
empty scan.

Two properties of the code shape the model:

- The code visits up to `2 * max_beams - 2` rays, not at most `max_beams`.
  The stride is rounded down, so the budget bounds the work only up to that
  factor. `RayStride.StrideCountBound` proves the bound.
  `RayStride.StrideCanExceedBudget` gives a case where the budget is
  exceeded: 6 rays with a budget of 4 give stride 1 and visit all 6 rays.
  Stride mode of the NDT model behaves the same way with `max_points`.
- The NDT model keeps no scratch buffer. It multiplies each weight in place
  as soon as the particle is scored
  (`muse_mcl_2d_ndt/src/models/gridmap_2d_likelihood_field_model.cpp:99-120`).

## Model

| member | source | states |
|---|---|---|
| RayStride.SizeSub | muse_mcl_2d_gridmaps/src/models/beam_model_amcl_normalized.cpp:48 | `std::size_t` subtraction: the plain difference when it is non-negative, wrapped modulo 2^64 otherwise |
| RayStride.RayStep | muse_mcl_2d_gridmaps/src/models/beam_model_amcl_normalized.cpp:48 | the stride is at least 1 and, for a non-empty scan, at most N. It is 1 or stays within `(N - 1) / (budget - 1)`. For an empty scan it is the wrapped quotient `(2^64 - 1) / (budget - 1)` |
| RayStride.StrideFrom | muse_mcl_2d_gridmaps/src/models/beam_model_amcl_normalized.cpp:87 | every index the loop visits from `i` lies in `[i, N)` |
| RayStride.StrideFromShape | muse_mcl_2d_gridmaps/src/models/beam_model_amcl_normalized.cpp:87 | the k-th visited index is `i + k * step` and below N; the loop stops at the first multiple reaching N |
| RayStride.StrideIndicesBelow | muse_mcl_2d_gridmaps/src/models/beam_model_amcl_normalized.cpp:87-88 | no visited index reaches the ray count, so `laser_rays[i]` is in bounds |
| RayStride.StrideIndicesMembership | muse_mcl_2d_ndt/src/models/gridmap_2d_likelihood_field_model.cpp:114 | an index is visited if and only if it is below N and a multiple of the stride |
| RayStride.StrideCountBound | muse_mcl_2d_gridmaps/src/models/beam_model_amcl_normalized.cpp:48 | at most `2 * budget - 2` rays are visited per particle |
| RayStride.StrideCanExceedBudget | muse_mcl_2d_gridmaps/src/models/beam_model_amcl_normalized.cpp:48 | with 6 rays and a budget of 4 the stride is 1 and 6 rays are visited, more than the budget |
| RayStride.StrideTenRaysBudgetThree | muse_mcl_2d_ndt/src/models/gridmap_2d_likelihood_field_model.cpp:110-114 | 10 rays with a budget of 3: stride 4, rays 0, 4 and 8 |
| RayStride.StrideEmptyScan | muse_mcl_2d_gridmaps/src/models/beam_model_amcl_normalized.cpp:47-48 | an empty scan wraps `N - 1` to `2^64 - 1` and visits no ray |
| MclTypes.Pow3Nonneg | muse_mcl_2d_ndt/src/models/gridmap_2d_likelihood_field_model.cpp:69-71 | the cube of a non-negative value is non-negative |
| BeamModelAmcl.DenominatorExponentHit | muse_mcl_2d_gridmaps/src/models/beam_model_amcl_normalized.cpp:112 | the derived hit exponent is negative and times `sigma_hit^2` gives exactly `-0.5` |
| BeamModelAmcl.DefaultParams | muse_mcl_2d_gridmaps/src/models/beam_model_amcl_normalized.cpp:106-113 | the fallback configuration meets every requirement of the update, and its mixture weights sum to 1 |
| BeamModelAmcl.MapRange | muse_mcl_2d_gridmaps/src/models/beam_model_amcl_normalized.cpp:78 | the predicted range is the smaller of `range_max` and the ray-cast range, so it never exceeds `range_max` |
| BeamModelAmcl.MixtureGating | muse_mcl_2d_gridmaps/src/models/beam_model_amcl_normalized.cpp:63-73 | `p_short` is nonzero only for a reading in front of the predicted range. `p_max` is `z_max` exactly when the reading is at or beyond `range_max`, and `p_random` is `z_rand / range_max` exactly when it is below. So at most one of them is nonzero |
| BeamModelAmcl.PHitBound | muse_mcl_2d_gridmaps/src/models/beam_model_amcl_normalized.cpp:60-62 | `0 <= p_hit <= z_hit`, with equality when the reading equals the predicted range |
| BeamModelAmcl.ProbabilityNonneg | muse_mcl_2d_gridmaps/src/models/beam_model_amcl_normalized.cpp:74-80 | the mixture density of a ray is non-negative |
| BeamModelAmcl.VisitedRays | muse_mcl_2d_gridmaps/src/models/beam_model_amcl_normalized.cpp:47-48 | the visited rays are in bounds and number at most `2 * max_beams - 2` |
| BeamModelAmcl.RaySumNonneg | muse_mcl_2d_gridmaps/src/models/beam_model_amcl_normalized.cpp:87-90 | the sum of cubed mixture terms (valid ray) and cubed `z_max` (invalid ray) is non-negative |
| BeamModelAmcl.ScoreAtLeastOne | muse_mcl_2d_gridmaps/src/models/beam_model_amcl_normalized.cpp:86-90 | with non-negative parameters every particle scores at least 1 |
| BeamModelAmcl.Scores | muse_mcl_2d_gridmaps/src/models/beam_model_amcl_normalized.cpp:84-93 | one score per particle, in particle order, each at least 1 |
| BeamModelAmcl.RunningMaxIsMax | muse_mcl_2d_gridmaps/src/models/beam_model_amcl_normalized.cpp:83-93 | the running maximum is at least every score and is one of them, unless it kept its initial value `lowest()` |
| BeamModelAmcl.MaxAtLeastOne | muse_mcl_2d_gridmaps/src/models/beam_model_amcl_normalized.cpp:83-97 | for a non-empty set the divisor `max` is at least 1. For an empty set it stays `lowest()` and nothing is divided |
| BeamModelAmcl.RescaleFactorInUnitInterval | muse_mcl_2d_gridmaps/src/models/beam_model_amcl_normalized.cpp:97 | every factor `ps_[i] / max` lies in (0, 1] |
| BeamModelAmcl.RescaleKeepsBestParticle | muse_mcl_2d_gridmaps/src/models/beam_model_amcl_normalized.cpp:92-97 | a particle whose score is the maximum keeps its weight, and a non-empty set has one |
| BeamModelAmcl.RescalePreservesOrder | muse_mcl_2d_gridmaps/src/models/beam_model_amcl_normalized.cpp:95-98 | new weights are ordered exactly as the products `weight * score` |
| BeamModelAmcl.RescaleUniform | muse_mcl_2d_gridmaps/src/models/beam_model_amcl_normalized.cpp:95-98 | if all scores are equal, every weight is kept |
| BeamModelAmcl.RaySumPoseIndependent | muse_mcl_2d_gridmaps/src/models/beam_model_amcl_normalized.cpp:74-80 | on a map whose ray casts reach `range_max` everywhere, with every reading at `range_max`, the ray sum is the same from every pose |
| BeamModelAmcl.FreeMapKeepsWeights | muse_mcl_2d_gridmaps/src/models/beam_model_amcl_normalized.cpp:84-98 | end to end: on such a free map and scan the update keeps every weight |
| BeamModelAmcl.RayScore | muse_mcl_2d_gridmaps/src/models/beam_model_amcl_normalized.cpp:86-90 | the strided inner loop computes the particle's score |
| BeamModelAmcl.RescaledMatches | muse_mcl_2d_gridmaps/src/models/beam_model_amcl_normalized.cpp:95-98 | dividing by the running maximum of the scores stored in `ps_` yields `Rescaled` |
| BeamModelAmcl.BeamModelAmclNormalized.Setup | muse_mcl_2d_gridmaps/src/models/beam_model_amcl_normalized.cpp:102-114 | stores the configuration with the derived hit exponent; the scratch buffer starts empty |
| BeamModelAmcl.BeamModelAmclNormalized.ResetScratch | muse_mcl_2d_gridmaps/src/models/beam_model_amcl_normalized.cpp:52-55 | afterwards `ps_` has the set's capacity and holds only zeros |
| BeamModelAmcl.BeamModelAmclNormalized.ScorePass | muse_mcl_2d_gridmaps/src/models/beam_model_amcl_normalized.cpp:82-93 | `ps_` keeps the capacity and holds every score in particle order, zeros beyond; `max` is the running maximum of the scores |
| BeamModelAmcl.BeamModelAmclNormalized.RescalePass | muse_mcl_2d_gridmaps/src/models/beam_model_amcl_normalized.cpp:95-98 | every weight becomes old weight times `ps_[i] / max`, in place |
| BeamModelAmcl.BeamModelAmclNormalized.Update | muse_mcl_2d_gridmaps/src/models/beam_model_amcl_normalized.cpp:52-98 | the two passes together: `ps_` holds the scores, and the weights are the old weights rescaled by score over maximum |
| BeamModelAmcl.BeamModelAmclNormalized.Apply | muse_mcl_2d_gridmaps/src/models/beam_model_amcl_normalized.cpp:16-99 | a non-grid map or a failed lookup of either transform changes neither weights nor `ps_`. Otherwise `ps_` and the weights are as after `Update` |
| NdtLikelihoodField.BundleIndexContains | muse_mcl_2d_ndt/src/models/gridmap_2d_likelihood_field_model.cpp:49-53 | for a positive bundle resolution, the point lies in the cell `to_bundle_index` names, on both axes |
| NdtLikelihoodField.Likelihood | muse_mcl_2d_ndt/src/models/gridmap_2d_likelihood_field_model.cpp:54-60 | a per-distribution likelihood is either 0 or a normal value |
| NdtLikelihoodField.LikelihoodAtMean | muse_mcl_2d_ndt/src/models/gridmap_2d_likelihood_field_model.cpp:54-60 | at the mean the likelihood is exactly `d1` if `d1` is normal, and 0 otherwise |
| NdtLikelihoodField.LikelihoodNonneg | muse_mcl_2d_ndt/src/models/gridmap_2d_likelihood_field_model.cpp:54-60 | a non-negative `d1` gives non-negative likelihoods |
| NdtLikelihoodField.BundleLikelihoodIsMean | muse_mcl_2d_ndt/src/models/gridmap_2d_likelihood_field_model.cpp:61-67 | the bundle likelihood is the mean of the four distributions' likelihoods, between their minimum and maximum |
| NdtLikelihoodField.Candidates | muse_mcl_2d_ndt/src/models/gridmap_2d_likelihood_field_model.cpp:79-94 | the inserted rays are exactly the valid ones, each once, in scan order |
| NdtLikelihoodField.CollectCandidates | muse_mcl_2d_ndt/src/models/gridmap_2d_likelihood_field_model.cpp:89-94 | the histogram-filling loop inserts exactly `Candidates` |
| NdtLikelihoodField.SelectedRays | muse_mcl_2d_ndt/src/models/gridmap_2d_likelihood_field_model.cpp:85-114 | the selected rays are in bounds. In histogram mode each is valid; in stride mode there are at most `2 * max_points - 2` of them |
| NdtLikelihoodField.RaySumNonneg | muse_mcl_2d_ndt/src/models/gridmap_2d_likelihood_field_model.cpp:102-106 | the sum of cubed bundle likelihoods over selected rays is non-negative |
| NdtLikelihoodField.ScoreAtLeastOne | muse_mcl_2d_ndt/src/models/gridmap_2d_likelihood_field_model.cpp:101-106 | with a non-negative `d1` every particle's multiplier is at least 1 |
| NdtLikelihoodField.Scores | muse_mcl_2d_ndt/src/models/gridmap_2d_likelihood_field_model.cpp:99-120 | one multiplier per particle, each at least 1 when `d1` is non-negative |
| NdtLikelihoodField.ReweightNeverDecreases | muse_mcl_2d_ndt/src/models/gridmap_2d_likelihood_field_model.cpp:107-119 | no non-negative weight decreases |
| NdtLikelihoodField.ReweightIsLocal | muse_mcl_2d_ndt/src/models/gridmap_2d_likelihood_field_model.cpp:99-120 | a particle's new weight depends only on its own old weight and pose. The other particles play no part |
| NdtLikelihoodField.RaySumOfInvalidRays | muse_mcl_2d_ndt/src/models/gridmap_2d_likelihood_field_model.cpp:105 | rays flagged invalid contribute nothing |
| NdtLikelihoodField.InvalidScanKeepsWeights | muse_mcl_2d_ndt/src/models/gridmap_2d_likelihood_field_model.cpp:99-120 | end to end: a scan without a valid ray leaves every weight unchanged |
| NdtLikelihoodField.ScoreOverIndices | muse_mcl_2d_ndt/src/models/gridmap_2d_likelihood_field_model.cpp:101-106 | the loop over representative rays computes the particle's multiplier |
| NdtLikelihoodField.ScoreStrided | muse_mcl_2d_ndt/src/models/gridmap_2d_likelihood_field_model.cpp:113-118 | the strided loop computes the multiplier over rays `0, step, 2 * step, ...` |
| NdtLikelihoodField.DefaultParams | muse_mcl_2d_ndt/src/models/gridmap_2d_likelihood_field_model.cpp:128-131 | the fallback configuration is usable (budget of at least two points), selects stride mode, and has a positive `d1` |
| NdtLikelihoodField.Gridmap2dLikelihoodFieldModel.Setup | muse_mcl_2d_ndt/src/models/gridmap_2d_likelihood_field_model.cpp:124-132 | stores the configuration |
| NdtLikelihoodField.Gridmap2dLikelihoodFieldModel.UpdateOverIndices | muse_mcl_2d_ndt/src/models/gridmap_2d_likelihood_field_model.cpp:99-108 | histogram mode: each weight is multiplied in place by its particle's multiplier over the representative rays |
| NdtLikelihoodField.Gridmap2dLikelihoodFieldModel.UpdateStrided | muse_mcl_2d_ndt/src/models/gridmap_2d_likelihood_field_model.cpp:110-120 | stride mode: each weight is multiplied in place by its particle's multiplier over the strided rays |
| NdtLikelihoodField.Gridmap2dLikelihoodFieldModel.Apply | muse_mcl_2d_ndt/src/models/gridmap_2d_likelihood_field_model.cpp:15-121 | a non-NDT map, data that is not a scan, or a failed lookup of either transform leaves every weight unchanged. Otherwise each weight is multiplied by its particle's multiplier over the selected rays |

## Left out

- ROS parameter loading (`nh.param`) and plugin registration (`CLASS_LOADER_REGISTER_CLASS`). The constructors take the configuration as arguments; `DefaultParams` records the fallback values.
- muse_mcl_2d_gridmaps/src/providers/binary_gridmap_load_provider.h: map loading on a worker thread with a mutex and a condition variable. It is concurrency and I/O.
- Floating point: `exp`, `std::isnormal`, `Vector2d::isNormal`, rounding, infinities and NaN. The model works over `real`, and these primitives are parameters.
- The frame maths: pose composition and point transformation are parameters without laws.
- The grid's ray cast and bundle lookup, and `getInformationMatrix`: map internals, passed as parameters.
- The kd-tree histogram, the ray indexation and `getRepresentativeRays`: only "representatives are inserted rays" is assumed. Nothing is claimed about the bucketing, the tie-break or the output size.
- RayStride.StrideFrom: `i += ray_step` is not wrapped modulo 2^64. A wrap would need a scan close to 2^64 rays.
- NdtLikelihoodField.ToBundleIndex: the `static_cast<int>` of the floor is not bounded to 32 bits.
- BeamModelAmcl.BeamModelAmclNormalized.Setup: requires `sigma_hit != 0`. Setup divides by `sigma_hit^2` to derive the hit exponent (line 112).
- BeamModelAmcl.BeamModelAmclNormalized.Apply: once both lookups succeed, requires a positive `range_max` in the scan. A zero `range_max` makes `z_rand / range_max` (line 50) a division by zero. A negative one makes `p_random` negative, so a score can fall below 1 and the division by `max` is no longer guarded. The early returns compute neither and require nothing of the scan.
- BeamModelAmcl.BeamModelAmclNormalized.Apply: once both lookups succeed, requires `max_beams >= 2`, non-negative mixture weights and a non-negative `lambda_short`. A budget of 1 divides by zero in the stride formula (line 48). With negative weights a score can be zero or negative, and then the division by `max` is no longer guarded by the scores being at least 1.
- BeamModelAmcl.BeamModelAmclNormalized.Apply: when the map is a binary occupancy grid, requires the data to be a laser scan. After the map check the code casts the data without checking its type (line 25), and for other data that cast fails. Any other map returns before the cast and requires nothing of the data.
- NdtLikelihoodField.Gridmap2dLikelihoodFieldModel.Apply: once both lookups succeed, requires a nonzero bundle resolution, because `1.0 / resolution` is then taken unchecked (line 49).
- NdtLikelihoodField.Gridmap2dLikelihoodFieldModel.Apply: in stride mode, once both lookups succeed, requires a budget `max_points >= 2`. A budget of 1 makes the divisor `max_points - 1` of the stride formula (line 110) zero. Histogram mode never evaluates that formula and requires nothing of the budget.
- NdtLikelihoodField.Gridmap2dLikelihoodFieldModel.Apply: requires the ray count of a scan to fit a `std::size_t`, as the size of any vector in memory does.
- The weight iterators: the particle set is a sequence of poses and an array of weights of the same length. The capacity the set reports is at least its size.
