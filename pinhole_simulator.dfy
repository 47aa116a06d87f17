/**
 * `PinholeSimulatorOptix` of the rmagine library: map, sensor offset and
 * pinhole model configuration, the no-map guard of `simulateRanges`, and the
 * launch over (width, height, Nposes). In this version `simulateRanges`
 * prepares and uploads the launch-parameter record but launches nothing: its
 * launch is switched off in the code.
 */
module PinholeSimulators {
  import opened Common
  import opened SensorModels
  import opened ResultLayout
  import opened SimulationData

  /** `SensorModelUnion` with its `pinhole` member pointing at the simulator's model. */
  datatype SensorModelUnion = SensorModelUnion(pinhole: seq<PinholeModel>)

  class PinholeSimulatorOptix {
    /** `m_map`; None is a null pointer. */
    var optixMap: Option<OptixMap>
    /** `m_stream`, taken from the map. */
    var stream: Option<nat>
    /** `m_Tsb` */
    var tsb: seq<Transform>
    /** `m_model` */
    var model: seq<PinholeModel>
    /** `m_model_union` */
    var modelUnion: Option<SensorModelUnion>
    /** `m_width`, `m_height` */
    var width: u32
    var height: u32

    /**
     * `PinholeSimulatorOptix()`: no map, room for one model, and the sensor
     * sits at the robot's origin (a single identity transform).
     */
    constructor ()
      ensures optixMap == None && stream == None
      ensures tsb == [IDENTITY]
      ensures |model| == 1 && modelUnion == None
    {
      optixMap := None;
      stream := None;
      tsb := [IDENTITY];
      model := [PinholeModel(0, 0, Interval(0.0, 0.0), 0.0, 0.0, 0.0, 0.0)];
      modelUnion := None;
      width, height := 0, 0;
    }

    /**
     * `PinholeSimulatorOptix(map)`: the default construction followed by
     * `setMap(map)`.
     */
    constructor WithMap(m: OptixMap)
      ensures optixMap == Some(m) && stream == Some(m.stream)
      ensures tsb == [IDENTITY]
      ensures |model| == 1 && modelUnion == None
    {
      optixMap := None;
      stream := None;
      tsb := [IDENTITY];
      model := [PinholeModel(0, 0, Interval(0.0, 0.0), 0.0, 0.0, 0.0, 0.0)];
      modelUnion := None;
      width, height := 0, 0;
      new;
      SetMap(m);
    }

    /** `setMap(map)`: stores the map and adopts its stream. */
    method SetMap(m: OptixMap)
      modifies this
      ensures optixMap == Some(m) && stream == Some(m.stream)
      ensures tsb == old(tsb) && model == old(model) && modelUnion == old(modelUnion)
      ensures width == old(width) && height == old(height)
    {
      optixMap := Some(m);
      stream := Some(m.stream);
    }

    /** `setTsb(Tsb)` for a whole memory of transforms. */
    method SetTsb(tsb: seq<Transform>)
      modifies this
      ensures this.tsb == tsb
      ensures optixMap == old(optixMap) && stream == old(stream)
      ensures model == old(model) && modelUnion == old(modelUnion)
      ensures width == old(width) && height == old(height)
    {
      this.tsb := tsb;
    }

    /** `setTsb(T)`: the same as `setTsb` of a one-element memory holding T. */
    method SetTsbSingle(t: Transform)
      modifies this
      ensures tsb == [t]
      ensures optixMap == old(optixMap) && stream == old(stream)
      ensures model == old(model) && modelUnion == old(modelUnion)
      ensures width == old(width) && height == old(height)
    {
      SetTsb([t]);
    }

    /**
     * `setModel(model)`: the image size comes from the first model, and the
     * model union's pinhole member points at the stored model.
     */
    method SetModel(model: seq<PinholeModel>)
      requires |model| >= 1
      modifies this
      ensures width == model[0].width && height == model[0].height
      ensures this.model == model && modelUnion == Some(SensorModelUnion(model))
      ensures optixMap == old(optixMap) && stream == old(stream) && tsb == old(tsb)
    {
      width := model[0].width;
      height := model[0].height;
      this.model := model;
      modelUnion := Some(SensorModelUnion(this.model));
    }

    /** `setModel(m)`: the same as `setModel` of a one-element memory holding m. */
    method SetModelSingle(m: PinholeModel)
      modifies this
      ensures width == m.width && height == m.height
      ensures model == [m] && modelUnion == Some(SensorModelUnion([m]))
      ensures optixMap == old(optixMap) && stream == old(stream) && tsb == old(tsb)
    {
      SetModel([m]);
    }

    /**
     * `simulateRanges(Tbm, ranges)`: throws when no map is set; otherwise
     * fills the parameter record for the caller's buffer (and uploads it).
     */
    method SimulateRanges(tbm: seq<Transform>, ranges: DeviceBuffer)
      returns (r: Result<SimulationParams<PinholeModel>, SimError>)
      ensures r.Failure? <==> optixMap.None?
      ensures r.Failure? ==> r.error == NoMap
      ensures r.Success? ==> r.value == SimulationParams(tsb, model, tbm, None, optixMap.value.handle, Some(ranges), None)
    {
      if optixMap.None? {
        return Failure(NoMap);
      }
      var mem := SimulationParams(tsb, model, tbm, None, optixMap.value.handle, Some(ranges), None);
      r := Success(mem);
    }

    /** `simulateRanges(Tbm)`: allocates width * height * |Tbm| ranges first. */
    method SimulateRangesAlloc(tbm: seq<Transform>, address: nat)
      returns (res: DeviceBuffer, r: Result<SimulationParams<PinholeModel>, SimError>)
      ensures res.size == AllocSize(width, height, |tbm|)
      ensures r.Failure? <==> optixMap.None?
      ensures r.Success? ==> r.value.ranges == Some(res) && r.value.tbm == tbm
    {
      res := DeviceBuffer(address, AllocSize(width, height, |tbm|));
      r := SimulateRanges(tbm, res);
    }

    /**
     * `launch(mem, program)`: the given program, one thread per pixel and
     * pose, the pose count read from `mem->Nposes`, which the caller must
     * have set.
     */
    method LaunchGeneric(mem: SimulationParams<PinholeModel>, program: ProgramKind) returns (l: Launch<PinholeModel>)
      requires mem.nposes.Some?
      ensures l.program == program && l.params == mem
      ensures l.grid.width == width && l.grid.height == height && l.grid.depth == mem.nposes.value
      ensures l.grid.Samples() == width * height
    {
      l := SimulationData.Launch(program, mem, LaunchGrid(width, height, mem.nposes.value));
    }
  }

  /**
   * With the grid of a pinhole launch, pose p occupies the flat slice
   * [size * p, size * (p + 1)) and pixel (x, y) of it is at y * width + x.
   */
  lemma {:induction false} PinholePoseSlice(m: PinholeModel, poses: nat, x: nat, y: nat, p: nat)
    requires x < m.width && y < m.height && p < poses
    ensures LaunchGrid(m.width, m.height, poses).InGrid(x, y, p)
    ensures m.Size() * p <= LaunchGrid(m.width, m.height, poses).Offset(x, y, p) < m.Size() * (p + 1)
    ensures LaunchGrid(m.width, m.height, poses).Offset(x, y, p) - m.Size() * p == y * m.width + x
  {
    PoseSlice(LaunchGrid(m.width, m.height, poses), x, y, p);
  }

  /**
   * After `setModel`, an allocating `simulateRanges` over |Tbm| poses and a
   * launch with `Nposes = |Tbm|` agree: the buffer has one element per
   * thread, provided the image size and pose count fit `unsigned int`.
   */
  method ConfigureAndAllocate(m: OptixMap, model: PinholeModel, tbm: seq<Transform>, address: nat)
    returns (res: DeviceBuffer, l: Launch<PinholeModel>)
    requires model.Size() < U32_MODULUS && |tbm| < U32_MODULUS
    ensures res.size == model.Size() * |tbm|
    ensures l.grid.Threads() == res.size
    ensures l.params.ranges == Some(res) && l.params.tbm == tbm
  {
    var sim := new PinholeSimulatorOptix.WithMap(m);
    sim.SetModelSingle(model);
    var r;
    res, r := sim.SimulateRangesAlloc(tbm, address);
    var mem := r.value.(nposes := Some(|tbm|));
    l := sim.LaunchGeneric(mem, GENERIC);
    AllocMatchesGrid(sim.width, sim.height, |tbm|);
  }
}
