/** Values the two laser observation models work on: scans, maps, transforms,
    the particle set, and the external operations (numerics, frame geometry,
    transform lookup) that the models call but do not define. */
module MclTypes {
  import opened RayStride

  datatype Option<+T> = None | Some(value: T)

  /** A point or vector in the plane. */
  datatype Vec2 = Vec2(x: real, y: real)

  /** A rigid 2D transform; a pose is the transform from its own frame. */
  datatype Transform2d = Transform2d(tx: real, ty: real, yaw: real)
  {
    function Translation(): Vec2 { Vec2(tx, ty) }
  }

  /** Floating-point and geometry primitives, supplied by the caller:
      `exp`, `std::isnormal`, `Vector2d::isNormal`, transform composition
      (`a * b`) and transform-point application (`t * p`). */
  datatype Oracles = Oracles(
    exp: real -> real,
    isNormal: real -> bool,
    isNormalPoint: Vec2 -> bool,
    compose: (Transform2d, Transform2d) -> Transform2d,
    transformPoint: (Transform2d, Vec2) -> Vec2)

  /** The properties of the exponential the models rely on. */
  ghost predicate ExpLaws(exp: real -> real)
  {
    && exp(0.0) == 1.0
    && (forall x :: exp(x) > 0.0)
    && (forall x :: x <= 0.0 ==> exp(x) <= 1.0)
  }

  /** One laser beam: its angle, measured range, sensor-frame end point and
      validity flag. */
  datatype Ray = Ray(angle: real, range: real, endPoint: Vec2, valid: bool)

  /** A laser scan: its frame, the end of its capture window, its rays and
      its linear and angular bounds. */
  datatype LaserScan = LaserScan(
    frame: string,
    timeEnd: real,
    rays: seq<Ray>,
    linearMin: real,
    linearMax: real,
    angularMin: real,
    angularMax: real)
  {
    /** The ray count fits a `std::size_t` and the maximal range is
        positive (the beam model divides by it). */
    predicate WellFormed()
    {
      |rays| < SIZE_MODULUS && linearMax > 0.0
    }
  }

  /** The runtime-tagged measurement handed to a model. */
  datatype Data = Laserscan(scan: LaserScan) | OtherData(frame: string)

  /** A 2x2 matrix, row major. */
  datatype Mat2 = Mat2(a00: real, a01: real, a10: real, a11: real)

  /** One normal distribution of an NDT bundle: mean and information
      (inverse covariance) matrix. */
  datatype Distribution = Distribution(mean: Vec2, information: Mat2)

  /** The four half-cell-offset distributions covering one bundle cell. */
  datatype Bundle = Bundle(b0: Distribution, b1: Distribution, b2: Distribution, b3: Distribution)

  /** The runtime-tagged map: an occupancy grid answering ray-cast queries
      (`getRange(origin, end)`), an NDT grid answering bundle queries by
      cell index, or some other map. */
  datatype StateSpace =
    | BinaryGridmap(frame: string, getRange: (Vec2, Vec2) -> real)
    | NdtGridmap2d(frame: string, bundleResolution: real, getDistributionBundle: (int, int) -> Bundle)
    | OtherMap(frame: string)

  /** `lookupTransform(target, source, time, timeout)`: the transform, or
      None when the lookup fails or times out. */
  datatype TfProvider = TfProvider(lookup: (string, string, real, real) -> Option<Transform2d>)

  /** The frames and timeout every update model is configured with. */
  datatype FrameConfig = FrameConfig(robotBaseFrame: string, worldFrame: string, tfTimeout: real)

  /** The two lookups an update performs, in order: laser to base (`b_T_l`)
      and then map to world (`m_T_w`); None as soon as one fails. */
  function LookupTransforms(tf: TfProvider, frames: FrameConfig, scan: LaserScan, mapFrame: string)
    : Option<(Transform2d, Transform2d)>
  {
    match tf.lookup(frames.robotBaseFrame, scan.frame, scan.timeEnd, frames.tfTimeout)
    case None => None
    case Some(bTl) =>
      match tf.lookup(frames.worldFrame, mapFrame, scan.timeEnd, frames.tfTimeout)
      case None => None
      case Some(mTw) => Some((bTl, mTw))
  }

  /** The laser pose in map coordinates, `m_T_w * state * b_T_l`. */
  function LaserPose(o: Oracles, mTw: Transform2d, state: Transform2d, bTl: Transform2d): Transform2d
  {
    o.compose(o.compose(mTw, state), bTl)
  }

  function Pow2(x: real): real
  {
    x * x
  }

  /** A square is non-negative, and zero at zero. */
  lemma Pow2Nonneg(x: real)
    ensures Pow2(x) >= 0.0
    ensures x == 0.0 ==> Pow2(x) == 0.0
  {
    assert x * x >= 0.0;
  }

  function Pow3(x: real): real
  {
    x * x * x
  }

  /** The cube of a non-negative value is non-negative. */
  lemma Pow3Nonneg(x: real)
    requires x >= 0.0
    ensures Pow3(x) >= 0.0
  {
    assert x * x >= 0.0;
  }

  /** A particle set: a read-only sequence of pose hypotheses and, in the
      same order, their mutable weights, plus the capacity the set reports
      for sizing scratch buffers. */
  class ParticleSet {
    const states: seq<Transform2d>
    const weights: array<real>
    const capacity: nat

    /** Both cursors enumerate the same particles; the size never exceeds
        the capacity. */
    predicate Valid()
    {
      |states| == weights.Length <= capacity
    }

    constructor (states: seq<Transform2d>, weights: seq<real>, capacity: nat)
      requires |states| == |weights| <= capacity
      ensures Valid() && fresh(this.weights)
      ensures this.states == states && this.weights[..] == weights && this.capacity == capacity
    {
      this.states := states;
      this.weights := new real[|weights|](i requires 0 <= i < |weights| => weights[i]);
      this.capacity := capacity;
    }
  }
}
