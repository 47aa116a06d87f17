/**
 * Pipeline and shader-binding-table (SBT) setup of `SphereProgramGeneric`:
 * the scene depth selects the traversable-graph mode, and `updateSBT` grows
 * the hit-group table to at least 50 records, fills the host-side record
 * tables to their counts and uploads them into the device blocks.
 *
 * Compiling modules, creating program groups and the pipeline, stack sizing,
 * `cudaMalloc` and `cudaMemcpy` are calls into OptiX and CUDA; the model
 * keeps only the sizes and counts they are given. A device block is its
 * allocated size in bytes; an upload fits when it copies no more bytes than
 * the block holds.
 */
module SpherePrograms {
  import opened Common

  /** `OptixTraversableGraphFlags` used by the program. */
  datatype TraversableGraphFlags = ALLOW_SINGLE_GAS | ALLOW_SINGLE_LEVEL_INSTANCING | ALLOW_ANY

  /** Why no program is built. */
  datatype ProgramError = NoRoot | MapConstructorUnsupported

  /**
   * The deepest scene graph a mode can traverse: one geometry
   * acceleration structure, one instance level above geometry, or any.
   */
  function MaxDepth(f: TraversableGraphFlags): Option<nat>
  {
    match f
    case ALLOW_SINGLE_GAS => Some(1)
    case ALLOW_SINGLE_LEVEL_INSTANCING => Some(2)
    case ALLOW_ANY => None
  }

  /** A mode admits a scene of the given depth (a scene needs a root). */
  predicate Admits(f: TraversableGraphFlags, depth: nat)
  {
    depth >= 1 && (MaxDepth(f).None? || depth <= MaxDepth(f).value)
  }

  /** How permissive (and slow to traverse) a mode is. */
  function Permissiveness(f: TraversableGraphFlags): nat
  {
    match f
    case ALLOW_SINGLE_GAS => 0
    case ALLOW_SINGLE_LEVEL_INSTANCING => 1
    case ALLOW_ANY => 2
  }

  /**
   * The depth classification of both constructors: a scene without a root
   * is rejected; otherwise the chosen mode admits the scene and is the
   * least permissive mode that does.
   */
  function ClassifyDepth(depth: u32): (r: Result<TraversableGraphFlags, ProgramError>)
    ensures r.Failure? <==> depth == 0
    ensures r.Failure? ==> r.error == NoRoot
    ensures r.Success? ==> Admits(r.value, depth)
    ensures r.Success? ==> forall f :: Admits(f, depth) ==> Permissiveness(r.value) <= Permissiveness(f)
  {
    if depth < 1 then Failure(NoRoot)
    else if depth < 2 then Success(ALLOW_SINGLE_GAS)
    else if depth < 3 then Success(ALLOW_SINGLE_LEVEL_INSTANCING)
    else Success(ALLOW_ANY)
  }

  /** The compile and link options derived from the scene. */
  datatype PipelineOptions = PipelineOptions(
    graphFlags: TraversableGraphFlags,
    maxTraversableDepth: u32,
    maxTraceDepth: u32)

  /** Options of the scene constructor: the traversable depth is the scene depth, one trace level. */
  function PipelineOptionsFor(depth: u32): (r: Result<PipelineOptions, ProgramError>)
    ensures r.Failure? <==> depth == 0
    ensures r.Success? ==> Admits(r.value.graphFlags, r.value.maxTraversableDepth)
    ensures r.Success? ==> r.value.maxTraversableDepth == depth && r.value.maxTraceDepth == 1
  {
    var flags := ClassifyDepth(depth);
    if flags.Failure? then Failure(flags.error)
    else Success(PipelineOptions(flags.value, depth, 1))
  }

  /**
   * `sbt` together with its device blocks: per table the record stride, the
   * record count, and the bytes allocated for it.
   */
  datatype Sbt = Sbt(
    raygenRecordSize: nat, raygenBytes: nat,
    missStride: nat, missCount: nat, missBytes: nat,
    hitgroupStride: nat, hitgroupCount: nat, hitgroupBytes: nat)

  /** Each upload of `updateSBT` (stride * count bytes) fits its device block. */
  predicate UploadsFit(s: Sbt)
  {
    && s.raygenRecordSize <= s.raygenBytes
    && s.missStride * s.missCount <= s.missBytes
    && s.hitgroupStride * s.hitgroupCount <= s.hitgroupBytes
  }

  /** `n_hitgroups_required` */
  const HITGROUPS_REQUIRED: nat := 50

  /** Every SBT record starts with an OptiX header of this many bytes. */
  const SBT_RECORD_HEADER_SIZE: nat := 32

  /**
   * The resize of `updateSBT` as written: when too few hit-group records
   * exist, the block is reallocated with `n_hitgroups_required` BYTES.
   * The record count is right; only the byte size of the block is not.
   */
  function GrowHitgroupsAsWritten(s: Sbt, required: nat): (r: Sbt)
    ensures r.hitgroupCount >= s.hitgroupCount && r.hitgroupCount >= required
    ensures r.hitgroupCount == s.hitgroupCount || r.hitgroupCount == required
    ensures required <= s.hitgroupCount ==> r == s
    ensures r.raygenRecordSize == s.raygenRecordSize && r.raygenBytes == s.raygenBytes
    ensures r.missStride == s.missStride && r.missCount == s.missCount && r.missBytes == s.missBytes
    ensures r.hitgroupStride == s.hitgroupStride
    ensures r.hitgroupCount > s.hitgroupCount ==> r.hitgroupBytes == r.hitgroupCount
  {
    if required > s.hitgroupCount then s.(hitgroupBytes := required, hitgroupCount := required)
    else s
  }

  /**
   * The resize as intended: room for `required` records of the hit-group
   * stride. The count becomes max(count, required) and never shrinks, and
   * the uploads keep fitting.
   */
  function GrowHitgroups(s: Sbt, required: nat): (r: Sbt)
    ensures r.hitgroupCount >= s.hitgroupCount && r.hitgroupCount >= required
    ensures r.hitgroupCount == s.hitgroupCount || r.hitgroupCount == required
    ensures required <= s.hitgroupCount ==> r == s
    ensures r.raygenRecordSize == s.raygenRecordSize && r.raygenBytes == s.raygenBytes
    ensures r.missStride == s.missStride && r.missCount == s.missCount && r.missBytes == s.missBytes
    ensures r.hitgroupStride == s.hitgroupStride
    ensures UploadsFit(s) ==> UploadsFit(r)
  {
    if required > s.hitgroupCount then s.(hitgroupBytes := s.hitgroupStride * required, hitgroupCount := required)
    else s
  }

  /**
   * As written, a resize leaves a hit-group block too small for its upload
   * whenever a record is larger than one byte.
   */
  lemma {:induction false} GrowAsWrittenOverflows(s: Sbt, required: nat)
    requires required > s.hitgroupCount && s.hitgroupStride >= 2
    ensures !UploadsFit(GrowHitgroupsAsWritten(s, required))
  {
    var r := GrowHitgroupsAsWritten(s, required);
    assert r.hitgroupStride * r.hitgroupCount == s.hitgroupStride * required;
    MulMonotone(2, s.hitgroupStride, required);
  }

  /**
   * The layout of the map constructor (one miss and one hit-group record of
   * at least a header each, blocks of one record): it fits before
   * `updateSBT`, and the resize as written then allocates 50 bytes for an
   * upload of 50 records.
   */
  lemma MapConstructorLayoutOverflows(raygenSize: nat, missStride: nat, hitgroupStride: nat)
    requires hitgroupStride >= SBT_RECORD_HEADER_SIZE
    ensures UploadsFit(Sbt(raygenSize, raygenSize, missStride, 1, missStride, hitgroupStride, 1, hitgroupStride))
    ensures !UploadsFit(GrowHitgroupsAsWritten(
              Sbt(raygenSize, raygenSize, missStride, 1, missStride, hitgroupStride, 1, hitgroupStride),
              HITGROUPS_REQUIRED))
    ensures UploadsFit(GrowHitgroups(
              Sbt(raygenSize, raygenSize, missStride, 1, missStride, hitgroupStride, 1, hitgroupStride),
              HITGROUPS_REQUIRED))
  {
    GrowAsWrittenOverflows(
      Sbt(raygenSize, raygenSize, missStride, 1, missStride, hitgroupStride, 1, hitgroupStride),
      HITGROUPS_REQUIRED);
  }

  /** The counts of the scene constructor: one miss record, 100 hit-group records. */
  const SCENE_MISS_RECORDS: nat := 1
  const SCENE_HITGROUP_RECORDS: nat := 100

  /** The SBT the scene constructor allocates: every block holds stride * count bytes. */
  function SceneSbt(raygenSize: nat, missStride: nat, hitgroupStride: nat): (s: Sbt)
    ensures UploadsFit(s)
    ensures s.missCount == SCENE_MISS_RECORDS && s.hitgroupCount == SCENE_HITGROUP_RECORDS
  {
    Sbt(raygenSize, raygenSize,
        missStride, SCENE_MISS_RECORDS, missStride * SCENE_MISS_RECORDS,
        hitgroupStride, SCENE_HITGROUP_RECORDS, hitgroupStride * SCENE_HITGROUP_RECORDS)
  }

  /**
   * With the scene constructor's 100 hit-group records, `updateSBT` never
   * resizes, as written or as intended, so the overflow stays latent there.
   */
  lemma {:induction false} SceneSbtNotResized(raygenSize: nat, missStride: nat, hitgroupStride: nat)
    ensures GrowHitgroups(SceneSbt(raygenSize, missStride, hitgroupStride), HITGROUPS_REQUIRED)
              == SceneSbt(raygenSize, missStride, hitgroupStride)
    ensures GrowHitgroupsAsWritten(SceneSbt(raygenSize, missStride, hitgroupStride), HITGROUPS_REQUIRED)
              == SceneSbt(raygenSize, missStride, hitgroupStride)
  {
    var s := SceneSbt(raygenSize, missStride, hitgroupStride);
    assert HITGROUPS_REQUIRED <= s.hitgroupCount;
  }

  /** The program group whose header a record carries. */
  datatype ProgramGroup = RAYGEN | MISS | HITGROUP

  /**
   * A host-side SBT record: its header (None until `optixSbtRecordPackHeader`
   * packs one) and, for hit groups, the scene data pointer.
   */
  datatype SbtRecord = SbtRecord(header: Option<ProgramGroup>, data: Option<nat>)

  /** A record as `resize` leaves it: nothing packed, no data. */
  const UNPACKED: SbtRecord := SbtRecord(None, None)

  /** `ms_sbt.resize(count)`, then the miss header packed into each entry. */
  method FillMissRecords(count: nat) returns (ms: seq<SbtRecord>)
    ensures |ms| == count
    ensures forall i :: 0 <= i < |ms| ==> ms[i] == SbtRecord(Some(MISS), None)
  {
    ms := seq(count, _ => UNPACKED);
    var i := 0;
    while i < count
      invariant 0 <= i <= count && |ms| == count
      invariant forall j :: 0 <= j < i ==> ms[j] == SbtRecord(Some(MISS), None)
      invariant forall j :: i <= j < count ==> ms[j] == UNPACKED
    {
      ms := ms[i := ms[i].(header := Some(MISS))];
      i := i + 1;
    }
  }

  /**
   * `hg_sbt.resize(count)`, then each entry gets the hit-group header and
   * the scene's data pointer.
   */
  method FillHitgroupRecords(count: nat, sceneData: nat) returns (hg: seq<SbtRecord>)
    ensures |hg| == count
    ensures forall i :: 0 <= i < |hg| ==> hg[i] == SbtRecord(Some(HITGROUP), Some(sceneData))
  {
    hg := seq(count, _ => UNPACKED);
    var i := 0;
    while i < count
      invariant 0 <= i <= count && |hg| == count
      invariant forall j :: 0 <= j < i ==> hg[j] == SbtRecord(Some(HITGROUP), Some(sceneData))
    {
      hg := hg[i := hg[i].(header := Some(HITGROUP))];
      hg := hg[i := hg[i].(data := Some(sceneData))];
      i := i + 1;
    }
  }

  class SphereProgramGeneric {
    const options: PipelineOptions
    /** `m_scene->m_scene_data_d`: the device pointer every hit-group record carries. */
    const sceneData: nat
    var sbt: Sbt
    /** `rg_sbt`, `ms_sbt`, `hg_sbt` */
    var rgSbt: seq<SbtRecord>
    var msSbt: seq<SbtRecord>
    var hgSbt: seq<SbtRecord>

    /**
     * The device blocks are large enough for the uploads of `updateSBT`, and
     * the hit-group table already has the records `updateSBT` requires: a
     * program is only built by the scene constructor (100 records), and
     * `updateSBT` never lowers the count.
     */
    predicate Valid()
      reads this
    {
      UploadsFit(sbt) && sbt.hitgroupCount >= HITGROUPS_REQUIRED
    }

    /**
     * The scene constructor after its depth check: SBT counts 1 and 100,
     * blocks of stride * count bytes, then `updateSBT()`.
     */
    constructor (options: PipelineOptions, sceneData: nat, raygenSize: nat, missStride: nat, hitgroupStride: nat)
      ensures Valid()
      ensures this.options == options && this.sceneData == sceneData
      ensures sbt == SceneSbt(raygenSize, missStride, hitgroupStride)
      ensures |msSbt| == SCENE_MISS_RECORDS && |hgSbt| == SCENE_HITGROUP_RECORDS
      ensures forall i :: 0 <= i < |hgSbt| ==> hgSbt[i] == SbtRecord(Some(HITGROUP), Some(sceneData))
    {
      this.options := options;
      this.sceneData := sceneData;
      sbt := SceneSbt(raygenSize, missStride, hitgroupStride);
      rgSbt, msSbt, hgSbt := [], [], [];
      new;
      UpdateSbt();
    }

    /**
     * `updateSBT()`: the resize as written (it is not taken, since the table
     * already holds the 50 required records), then one raygen record and as
     * many miss and hit-group records as the SBT counts, each packed with its
     * header and each hit-group record pointing at the scene data.
     */
    method UpdateSbt()
      requires Valid()
      modifies this
      ensures Valid()
      ensures sbt == GrowHitgroupsAsWritten(old(sbt), HITGROUPS_REQUIRED)
      ensures sbt == old(sbt) && sbt == GrowHitgroups(old(sbt), HITGROUPS_REQUIRED)
      ensures rgSbt == [SbtRecord(Some(RAYGEN), None)]
      ensures |msSbt| == sbt.missCount
      ensures forall i :: 0 <= i < |msSbt| ==> msSbt[i] == SbtRecord(Some(MISS), None)
      ensures |hgSbt| == sbt.hitgroupCount
      ensures forall i :: 0 <= i < |hgSbt| ==> hgSbt[i] == SbtRecord(Some(HITGROUP), Some(sceneData))
    {
      sbt := GrowHitgroupsAsWritten(sbt, HITGROUPS_REQUIRED);
      rgSbt := [UNPACKED];
      rgSbt := rgSbt[0 := rgSbt[0].(header := Some(RAYGEN))];
      msSbt := FillMissRecords(sbt.missCount);
      hgSbt := FillHitgroupRecords(sbt.hitgroupCount, sceneData);
    }
  }

  /**
   * `SphereProgramGeneric(scene, flags)`: a scene without a root throws
   * before anything is built; otherwise the pipeline admits the scene and
   * the SBT holds 1 miss and 100 hit-group records.
   */
  method FromScene(depth: u32, sceneData: nat, raygenSize: nat, missStride: nat, hitgroupStride: nat)
    returns (r: Result<SphereProgramGeneric, ProgramError>)
    ensures r.Failure? <==> depth == 0
    ensures r.Failure? ==> r.error == NoRoot
    ensures r.Success? ==> r.value.Valid() && Admits(r.value.options.graphFlags, depth)
    ensures r.Success? ==> r.value.options.maxTraversableDepth == depth
    ensures r.Success? ==> |r.value.hgSbt| == SCENE_HITGROUP_RECORDS
  {
    var opts := PipelineOptionsFor(depth);
    if opts.Failure? {
      return Failure(opts.error);
    }
    var program := new SphereProgramGeneric(opts.value, sceneData, raygenSize, missStride, hitgroupStride);
    r := Success(program);
  }

  /** `SphereProgramGeneric(map, flags)`: throws unconditionally. */
  method FromMap(handle: nat) returns (r: Result<SphereProgramGeneric, ProgramError>)
    ensures r == Failure(MapConstructorUnsupported)
  {
    r := Failure(MapConstructorUnsupported);
  }
}
