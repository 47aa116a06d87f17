/**
 * `OptixSimulator` of the imagine library: the sensor configuration
 * (`m_Tsb`, `m_model`, `m_width`, `m_height`), the three scan programs, and
 * the `simulate*` calls that fill a launch-parameter record and launch one
 * thread per (theta, phi, pose) sample.
 */
module OptixSimulators {
  import opened Common
  import opened SensorModels
  import opened ResultLayout
  import opened SimulationData

  class OptixSimulator {
    const optixMap: OptixMap
    /** `m_programs`: slot 0 ranges, 1 normals, 2 generic; None is a null pointer. */
    var programs: seq<Option<ProgramKind>>
    /** `m_Tsb` */
    var tsb: seq<Transform>
    /** `m_model` */
    var model: seq<SphericalModel>
    /** `m_width`, `m_height` */
    var width: u32
    var height: u32

    /** `m_programs` has its three slots. */
    predicate Valid()
      reads this
    {
      |programs| == 3
    }

    /** `OptixSimulator(map)`: one program per result bundle. */
    constructor (optixMap: OptixMap)
      ensures Valid()
      ensures this.optixMap == optixMap
      ensures programs == [Some(RANGES), Some(NORMALS), Some(GENERIC)]
    {
      this.optixMap := optixMap;
      programs := [Some(RANGES), Some(NORMALS), Some(GENERIC)];
      tsb := [];
      model := [];
      width, height := 0, 0;
    }

    /** `setTsb(Tsb)`: stores the sensor offset and nothing else. */
    method SetTsb(tsb: seq<Transform>)
      requires Valid()
      modifies this
      ensures Valid()
      ensures this.tsb == tsb
      ensures programs == old(programs) && model == old(model)
      ensures width == old(width) && height == old(height)
    {
      this.tsb := tsb;
    }

    /** `setModel(model)`: theta runs along the width, phi along the height. */
    method SetModel(model: seq<SphericalModel>)
      requires Valid() && |model| >= 1
      modifies this
      ensures Valid()
      ensures width == model[0].theta.size && height == model[0].phi.size
      ensures this.model == model
      ensures programs == old(programs) && tsb == old(tsb)
    {
      width := model[0].theta.size;
      height := model[0].phi.size;
      this.model := model;
    }

    /**
     * The tail shared by the three `simulate*` forms: the program in slot
     * `slot` is launched over (width, height, |Tbm|) with the filled record,
     * and a null program throws instead.
     */
    method LaunchSlot(slot: nat, mem: SimulationParams<SphericalModel>)
      returns (r: Result<Launch<SphericalModel>, SimError>)
      requires Valid() && slot < 3
      ensures r.Failure? <==> programs[slot].None?
      ensures r.Failure? ==> r.error == BundleNotImplemented
      ensures r.Success? ==> r.value.program == programs[slot].value && r.value.params == mem
      ensures r.Success? ==> r.value.grid == GridOf(width, height, |mem.tbm|)
    {
      var program := programs[slot];
      if program.Some? {
        r := Success(Launch(program.value, mem, GridOf(width, height, |mem.tbm|)));
      } else {
        r := Failure(BundleNotImplemented);
      }
    }

    /** `simulateRanges(Tbm, ranges)`: writes ranges into the caller's buffer. */
    method SimulateRanges(tbm: seq<Transform>, ranges: DeviceBuffer)
      returns (r: Result<Launch<SphericalModel>, SimError>)
      requires Valid()
      ensures r.Failure? <==> programs[0].None?
      ensures r.Failure? ==> r.error == BundleNotImplemented
      ensures r.Success? ==> r.value.program == programs[0].value
      ensures r.Success? ==> r.value.grid == GridOf(width, height, |tbm|)
      ensures r.Success? ==> r.value.params == SimulationParams(tsb, model, tbm, None, optixMap.handle, Some(ranges), None)
    {
      var mem := SimulationParams(tsb, model, tbm, None, optixMap.handle, Some(ranges), None);
      r := LaunchSlot(0, mem);
    }

    /** `simulateRanges(Tbm)`: allocates width * height * |Tbm| ranges and fills them. */
    method SimulateRangesAlloc(tbm: seq<Transform>, address: nat)
      returns (res: DeviceBuffer, r: Result<Launch<SphericalModel>, SimError>)
      requires Valid()
      ensures res.size == AllocSize(width, height, |tbm|)
      ensures r.Failure? <==> programs[0].None?
      ensures r.Success? ==> r.value.params.ranges == Some(res)
      ensures r.Success? ==> r.value.grid == GridOf(width, height, |tbm|)
    {
      res := DeviceBuffer(address, AllocSize(width, height, |tbm|));
      r := SimulateRanges(tbm, res);
    }

    /** `simulateNormals(Tbm, normals)`: writes normals into the caller's buffer. */
    method SimulateNormals(tbm: seq<Transform>, normals: DeviceBuffer)
      returns (r: Result<Launch<SphericalModel>, SimError>)
      requires Valid()
      ensures r.Failure? <==> programs[1].None?
      ensures r.Failure? ==> r.error == BundleNotImplemented
      ensures r.Success? ==> r.value.program == programs[1].value
      ensures r.Success? ==> r.value.grid == GridOf(width, height, |tbm|)
      ensures r.Success? ==> r.value.params == SimulationParams(tsb, model, tbm, None, optixMap.handle, None, Some(normals))
    {
      var mem := SimulationParams(tsb, model, tbm, None, optixMap.handle, None, Some(normals));
      r := LaunchSlot(1, mem);
    }

    /** `simulateNormals(Tbm)`: allocates width * height * |Tbm| normals and fills them. */
    method SimulateNormalsAlloc(tbm: seq<Transform>, address: nat)
      returns (res: DeviceBuffer, r: Result<Launch<SphericalModel>, SimError>)
      requires Valid()
      ensures res.size == AllocSize(width, height, |tbm|)
      ensures r.Failure? <==> programs[1].None?
      ensures r.Success? ==> r.value.params.normals == Some(res)
      ensures r.Success? ==> r.value.grid == GridOf(width, height, |tbm|)
    {
      res := DeviceBuffer(address, AllocSize(width, height, |tbm|));
      r := SimulateNormals(tbm, res);
    }

    /** `simulate(Tbm, ranges, normals)`: the generic program writes both buffers. */
    method Simulate(tbm: seq<Transform>, ranges: DeviceBuffer, normals: DeviceBuffer)
      returns (r: Result<Launch<SphericalModel>, SimError>)
      requires Valid()
      ensures r.Failure? <==> programs[2].None?
      ensures r.Failure? ==> r.error == BundleNotImplemented
      ensures r.Success? ==> r.value.program == programs[2].value
      ensures r.Success? ==> r.value.grid == GridOf(width, height, |tbm|)
      ensures r.Success? ==> r.value.params == SimulationParams(tsb, model, tbm, None, optixMap.handle, Some(ranges), Some(normals))
    {
      var mem := SimulationParams(tsb, model, tbm, None, optixMap.handle, Some(ranges), Some(normals));
      r := LaunchSlot(2, mem);
    }
  }

  /**
   * For a scan whose index space fits `unsigned int`, the launch over the
   * model set by `setModel` covers the allocated buffer one thread per
   * element, and thread (theta, phi, pose) writes element
   * pose * phi.size * theta.size + getBufferId(phi, theta).
   */
  lemma {:induction false} ScanLayout(m: SphericalModel, poses: nat, phiId: u32, thetaId: u32, pose: nat)
    requires m.Size() < U32_MODULUS && poses < U32_MODULUS
    requires phiId < m.phi.size && thetaId < m.theta.size && pose < poses
    ensures GridOf(m.theta.size, m.phi.size, poses).Threads() == AllocSize(m.theta.size, m.phi.size, poses)
    ensures GridOf(m.theta.size, m.phi.size, poses).InGrid(thetaId, phiId, pose)
    ensures GridOf(m.theta.size, m.phi.size, poses).Offset(thetaId, phiId, pose)
              == pose * m.Size() + m.GetBufferId(phiId, thetaId)
    ensures GridOf(m.theta.size, m.phi.size, poses).Offset(thetaId, phiId, pose)
              < AllocSize(m.theta.size, m.phi.size, poses)
  {
    assert m.theta.size * m.phi.size == m.Size();
    AllocMatchesGrid(m.theta.size, m.phi.size, poses);
    BufferIdInRange(m, phiId, thetaId);
  }

  /**
   * The last ray of the last pose is element N * phi.size * theta.size - 1,
   * the last element of the allocated buffer.
   */
  lemma {:induction false} LastRay(m: SphericalModel, poses: nat)
    requires m.Size() < U32_MODULUS && poses < U32_MODULUS
    requires m.phi.size > 0 && m.theta.size > 0 && poses > 0
    ensures GridOf(m.theta.size, m.phi.size, poses).Offset(m.theta.size - 1, m.phi.size - 1, poses - 1)
              == poses * m.phi.size * m.theta.size - 1
    ensures poses * m.phi.size * m.theta.size == AllocSize(m.theta.size, m.phi.size, poses)
  {
    var g := GridOf(m.theta.size, m.phi.size, poses);
    AllocMatchesGrid(m.theta.size, m.phi.size, poses);
    LastElement(g);
    assert g.Threads() == (m.theta.size * m.phi.size) * poses;
    assert (m.theta.size * m.phi.size) * poses == poses * m.phi.size * m.theta.size;
  }

  /**
   * Configuring a simulator with a model and allocating ranges for `poses`
   * poses gives a launch that covers the returned buffer exactly.
   */
  method ConfigureAndSimulate(optixMap: OptixMap, model: seq<SphericalModel>, tbm: seq<Transform>, address: nat)
    returns (res: DeviceBuffer, r: Result<Launch<SphericalModel>, SimError>)
    requires |model| >= 1 && model[0].Size() < U32_MODULUS && |tbm| < U32_MODULUS
    ensures r.Success?
    ensures res.size == |tbm| * model[0].Size()
    ensures r.value.grid.Threads() == res.size && r.value.params.ranges == Some(res)
  {
    var sim := new OptixSimulator(optixMap);
    sim.SetModel(model);
    res, r := sim.SimulateRangesAlloc(tbm, address);
    AllocMatchesGrid(sim.width, sim.height, |tbm|);
    assert sim.width * sim.height == model[0].Size();
  }
}
