/**
 * What the simulators hand to the GPU, seen from the host: transforms, device
 * buffers (by address and element count), the launch-parameter record
 * `OptixSimulationData*` that is filled field by field and copied to the
 * device, and the `optixLaunch` call itself, which is an opaque step whose
 * arguments are recorded as a `Launch` value.
 */
module SimulationData {
  import opened Common
  import opened ResultLayout

  /** A rigid transform: rotation quaternion (x, y, z, w) and translation. */
  datatype Transform = Transform(qx: real, qy: real, qz: real, qw: real, tx: real, ty: real, tz: real)

  /** `setIdentity()`: no rotation, no translation. */
  const IDENTITY: Transform := Transform(0.0, 0.0, 0.0, 1.0, 0.0, 0.0, 0.0)

  /** A `Memory<T, VRAM_CUDA>` seen from the host: device address and element count. */
  datatype DeviceBuffer = DeviceBuffer(address: nat, size: nat)

  /** The part of an `OptixMap` the simulators read: traversable handle and CUDA stream. */
  datatype OptixMap = OptixMap(handle: nat, stream: nat)

  /** The result bundle a scan program computes. */
  datatype ProgramKind = RANGES | NORMALS | GENERIC

  /**
   * `OptixSimulationDataRanges/Normals/Generic`: sensor offset, model and
   * poses, the pose count `Nposes` (None while no code has written it), the
   * scene handle, and the output buffers the kernel writes.
   */
  datatype SimulationParams<M> = SimulationParams(
    tsb: seq<Transform>,
    model: seq<M>,
    tbm: seq<Transform>,
    nposes: Option<u32>,
    handle: nat,
    ranges: Option<DeviceBuffer>,
    normals: Option<DeviceBuffer>)

  /** One `optixLaunch`: the program, the parameter record and the grid. */
  datatype Launch<M> = Launch(program: ProgramKind, params: SimulationParams<M>, grid: LaunchGrid)

  /** The `std::runtime_error`s the simulators throw. */
  datatype SimError = BundleNotImplemented | NoMap

  /**
   * Element count of the allocating `simulate*` forms:
   * `m_width * m_height` in `unsigned int` arithmetic, times `Tbm.size()`.
   */
  function AllocSize(width: u32, height: u32, poses: nat): nat
  {
    WrapU32(width * height) * poses
  }

  /** Grid of a launch over `poses` poses; the depth argument is an `unsigned int`. */
  function GridOf(width: u32, height: u32, poses: nat): LaunchGrid
  {
    LaunchGrid(width, height, WrapU32(poses))
  }

  /**
   * Whenever neither the image size nor the pose count wraps, the allocated
   * buffer has exactly one element per launched thread, so every thread
   * writes inside it and every element is written.
   */
  lemma {:induction false} AllocMatchesGrid(width: u32, height: u32, poses: nat)
    requires width * height < U32_MODULUS && poses < U32_MODULUS
    ensures AllocSize(width, height, poses) == GridOf(width, height, poses).Threads()
    ensures forall x: nat, y: nat, z: nat :: GridOf(width, height, poses).InGrid(x, y, z) ==>
              GridOf(width, height, poses).Offset(x, y, z) < AllocSize(width, height, poses)
  {
    var g := GridOf(width, height, poses);
    assert g.depth == poses && g.Samples() == WrapU32(width * height);
    forall x: nat, y: nat, z: nat | g.InGrid(x, y, z)
      ensures g.Offset(x, y, z) < AllocSize(width, height, poses)
    {
      OffsetInBuffer(g, x, y, z);
    }
  }
}
