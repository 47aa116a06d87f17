/**
 * Sensor models of the imagine library: a discretised angle interval, the
 * spherical (LiDAR) model built from two of them, and the pinhole model.
 * Floating-point values are modelled as reals; the C++ `uint32_t` fields and
 * the arithmetic on them keep their 32-bit wrap-around.
 */
module SensorModels {
  import opened Common

  /** `Interval`: a valid range r satisfies min <= r <= max. */
  datatype Interval = Interval(min: real, max: real)
  {
    predicate Contains(r: real)
    {
      min <= r <= max
    }
  }

  /** `DiscreteInterval`: `size` samples from `min` in steps of `step`. */
  datatype DiscreteInterval = DiscreteInterval(min: real, max: real, step: real, size: u32)
  {
    /** `getValue(id)`: the id-th sample. */
    function GetValue(id: u32): real
    {
      min + (id as real) * step
    }
  }

  /**
   * The denominator of `computeStep`: `size - 1` evaluated in `uint32_t`,
   * so a size of 0 wraps around to 2^32 - 1.
   */
  function StepDivisor(size: u32): (r: u32)
    ensures size >= 1 ==> r == size - 1
    ensures size == 0 ==> r == U32_MODULUS - 1
  {
    WrapU32(size + U32_MODULUS - 1)
  }

  /**
   * `computeStep()`: sets `step` so that the samples run from `min` to `max`.
   * A size of 1 divides by zero and is excluded; a size of 0 is kept and
   * wraps (see ComputeStepOfEmptyInterval).
   */
  function ComputeStep(d: DiscreteInterval): (r: DiscreteInterval)
    requires d.size != 1
    ensures r.min == d.min && r.max == d.max && r.size == d.size
    ensures r.step * (StepDivisor(d.size) as real) == d.max - d.min
  {
    d.(step := (d.max - d.min) / (StepDivisor(d.size) as real))
  }

  /** The first sample is `min`, and consecutive samples differ by `step`. */
  lemma {:induction false} GetValueProgression(d: DiscreteInterval, id: u32)
    requires id + 1 < U32_MODULUS
    ensures d.GetValue(0) == d.min
    ensures d.GetValue(id + 1) - d.GetValue(id) == d.step
  {
    calc {
      d.GetValue(id + 1) - d.GetValue(id);
      ((id + 1) as real) * d.step - (id as real) * d.step;
      { assert ((id + 1) as real) == (id as real) + 1.0; }
      ((id as real) + 1.0) * d.step - (id as real) * d.step;
      d.step;
    }
  }

  /** After `computeStep` with at least two samples the last sample is `max`. */
  lemma {:induction false} ComputeStepReachesMax(d: DiscreteInterval)
    requires d.size >= 2
    ensures ComputeStep(d).GetValue(d.size - 1) == d.max
    ensures ComputeStep(d).GetValue(0) == d.min
  {
    var c := ComputeStep(d);
    assert StepDivisor(d.size) == d.size - 1;
    assert ((d.size - 1) as real) * c.step == d.max - d.min;
  }

  /**
   * `computeStep` on an empty interval: `size - 1` wraps to 2^32 - 1, so the
   * step is a 2^32 - 1-th of the span instead of an error.
   */
  lemma ComputeStepOfEmptyInterval(d: DiscreteInterval)
    requires d.size == 0
    ensures ComputeStep(d).step == (d.max - d.min) / ((U32_MODULUS - 1) as real)
    ensures ComputeStep(d).GetValue((U32_MODULUS - 1) as u32) == d.max
  {
  }

  /** `SphericalModel` (also `LiDARModel`): phi is vertical, theta horizontal. */
  datatype SphericalModel = SphericalModel(phi: DiscreteInterval, theta: DiscreteInterval, range: Interval)
  {
    function GetPhi(phiId: u32): real
    {
      phi.GetValue(phiId)
    }

    function GetTheta(thetaId: u32): real
    {
      theta.GetValue(thetaId)
    }

    /** `getBufferId`: row-major index, theta fastest, in `uint32_t` arithmetic. */
    function GetBufferId(phiId: u32, thetaId: u32): u32
    {
      WrapU32(phiId * theta.size + thetaId)
    }

    /** Number of rays of one scan. */
    function Size(): nat
    {
      phi.size * theta.size
    }
  }

  /** A scan whose index space fits in `uint32_t` (all real sensors). */
  predicate FitsU32(m: SphericalModel)
  {
    m.phi.size * m.theta.size <= U32_MODULUS
  }

  /** A valid (phi, theta) pair lands inside the scan buffer without wrapping. */
  lemma {:induction false} BufferIdInRange(m: SphericalModel, phiId: u32, thetaId: u32)
    requires FitsU32(m)
    requires phiId < m.phi.size && thetaId < m.theta.size
    ensures m.GetBufferId(phiId, thetaId) == phiId * m.theta.size + thetaId
    ensures m.GetBufferId(phiId, thetaId) < m.Size()
  {
    RowMajorBound(phiId, thetaId, m.phi.size, m.theta.size);
  }

  /** The buffer id determines the pair: phi = id / theta.size, theta = id % theta.size. */
  lemma {:induction false} BufferIdRoundTrip(m: SphericalModel, phiId: u32, thetaId: u32)
    requires FitsU32(m)
    requires phiId < m.phi.size && thetaId < m.theta.size
    ensures m.GetBufferId(phiId, thetaId) / m.theta.size == phiId
    ensures m.GetBufferId(phiId, thetaId) % m.theta.size == thetaId
  {
    BufferIdInRange(m, phiId, thetaId);
    RowMajorDivMod(phiId, thetaId, m.theta.size);
  }

  /** `getBufferId` is injective on valid pairs. */
  lemma BufferIdInjective(m: SphericalModel, p1: u32, t1: u32, p2: u32, t2: u32)
    requires FitsU32(m)
    requires p1 < m.phi.size && t1 < m.theta.size
    requires p2 < m.phi.size && t2 < m.theta.size
    requires m.GetBufferId(p1, t1) == m.GetBufferId(p2, t2)
    ensures p1 == p2 && t1 == t2
  {
    BufferIdRoundTrip(m, p1, t1);
    BufferIdRoundTrip(m, p2, t2);
  }

  /** `PinholeModel` (also camera / depth camera): image size, range, intrinsics. */
  datatype PinholeModel = PinholeModel(width: u32, height: u32, range: Interval,
                                       fx: real, fy: real, cx: real, cy: real)
  {
    function Size(): nat
    {
      width * height
    }
  }
}
