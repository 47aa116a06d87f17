/**
 * One-time OptiX initialisation and the `OptixContext` wrapper. The global
 * `optix_initialized_` flag lives in an `OptixRuntime` object that is passed
 * to whoever reads or sets it; `initCalls` counts the calls of `optixInit()`.
 * `optixInit()` and creating the device context are calls into the OptiX
 * driver: whether they succeed, and the device-context handle, are
 * parameters, and a failing `OPTIX_CHECK` is a `Failure` result.
 */
module OptixContexts {
  import opened Common

  /** The exceptions `OPTIX_CHECK` raises when a driver call fails. */
  datatype OptixError = InitFailed | ContextCreateFailed

  class OptixRuntime {
    /** `optix_initialized_` */
    var initialized: bool
    /** How often `optixInit()` has run. */
    var initCalls: nat

    /** Program start: the flag is false and OptiX was never initialised. */
    constructor ()
      ensures !initialized && initCalls == 0
    {
      initialized := false;
      initCalls := 0;
    }

    /** `optix_initialized()` */
    function Initialized(): bool
      reads this
    {
      initialized
    }

    /**
     * `optix_initialize()`: reports the SDK version (`OPTIX_VERSION` of the
     * headers, a compile-time constant passed in here) and runs
     * `optixInit()`, whose success is `initOk`. The flag is raised only after
     * a successful call; a failing call throws first, so the flag stays down
     * and the next context retries.
     */
    method Initialize(optixVersion: nat, initOk: bool) returns (r: Result<Version, OptixError>)
      modifies this
      ensures initCalls == old(initCalls) + 1
      ensures r.Success? <==> initOk
      ensures r.Failure? ==> r.error == InitFailed && initialized == old(initialized)
      ensures r.Success? ==> initialized && EncodeVersion(r.value) == optixVersion
    {
      var version := DecodeVersion(optixVersion);
      initCalls := initCalls + 1;
      if !initOk {
        return Failure(InitFailed);
      }
      initialized := true;
      r := Success(version);
    }
  }

  datatype Version = Version(major: nat, minor: nat, patch: nat)

  /** The printed version `V / 10000 . (V % 10000) / 100 . V % 100`. */
  function DecodeVersion(v: nat): (r: Version)
    ensures r.minor < 100 && r.patch < 100
    ensures EncodeVersion(r) == v
  {
    Version(v / 10000, (v % 10000) / 100, v % 100)
  }

  /** How the OptiX headers build `OPTIX_VERSION` from its three parts. */
  function EncodeVersion(ver: Version): nat
  {
    ver.major * 10000 + ver.minor * 100 + ver.patch
  }

  /** Decoding gives back every version whose minor and patch parts have two digits. */
  lemma {:induction false} DecodeEncode(ver: Version)
    requires ver.minor < 100 && ver.patch < 100
    ensures DecodeVersion(EncodeVersion(ver)) == ver
  {
    var v := EncodeVersion(ver);
    var low := ver.minor * 100 + ver.patch;
    assert low < 10000;
    assert v == ver.major * 10000 + low;
    assert v / 10000 == ver.major && v % 10000 == low;
    assert low / 100 == ver.minor && low % 100 == ver.patch;
    assert v % 100 == low % 100 by {
      assert v == (ver.major * 100) * 100 + low;
    }
  }

  class OptixContext {
    /** `m_cuda_context` */
    const cudaContext: nat
    /** `m_optix_context`; 0 until `init` has created the device context. */
    var optixContext: nat

    /** The member initialiser `m_cuda_context(cuda_context)`. */
    constructor (cuda: nat)
      ensures GetCudaContext() == cuda && Ref() == 0
    {
      cudaContext := cuda;
      optixContext := 0;
    }

    /**
     * `init(cuda_context)`: initialises OptiX if no context did before, then
     * creates the device context; the driver's answer is `created` (None when
     * `optixDeviceContextCreate` fails, which throws).
     */
    method Init(runtime: OptixRuntime, optixVersion: nat, initOk: bool, created: Option<nat>)
      returns (r: Result<nat, OptixError>)
      modifies this, runtime
      ensures runtime.initCalls == old(runtime.initCalls) + (if old(runtime.initialized) then 0 else 1)
      ensures runtime.initialized <==> old(runtime.initialized) || initOk
      ensures !old(runtime.initialized) && !initOk ==> r == Failure(InitFailed) && optixContext == old(optixContext)
      ensures (old(runtime.initialized) || initOk) && created.None? ==> r == Failure(ContextCreateFailed)
      ensures r.Success? <==> (old(runtime.initialized) || initOk) && created.Some?
      ensures r.Success? ==> r.value == created.value && optixContext == created.value
    {
      if !runtime.Initialized() {
        var init := runtime.Initialize(optixVersion, initOk);
        if init.Failure? {
          return Failure(init.error);
        }
      }
      if created.None? {
        return Failure(ContextCreateFailed);
      }
      optixContext := created.value;
      r := Success(created.value);
    }

    /** `getCudaContext()` */
    function GetCudaContext(): nat
    {
      cudaContext
    }

    /** `ref()` */
    function Ref(): nat
      reads this
    {
      optixContext
    }
  }

  /**
   * `OptixContext(cuda_context)`: stores the CUDA context and runs `init`;
   * a failure in `init` propagates out of the constructor, so no context is
   * returned.
   */
  method NewOptixContext(cuda: nat, runtime: OptixRuntime, optixVersion: nat, initOk: bool, created: Option<nat>)
    returns (r: Result<OptixContext, OptixError>)
    modifies runtime
    ensures runtime.initCalls == old(runtime.initCalls) + (if old(runtime.initialized) then 0 else 1)
    ensures runtime.initialized <==> old(runtime.initialized) || initOk
    ensures r.Success? <==> (old(runtime.initialized) || initOk) && created.Some?
    ensures r.Success? ==> fresh(r.value)
    ensures r.Success? ==> r.value.GetCudaContext() == cuda && r.value.Ref() == created.value
  {
    var ctx := new OptixContext(cuda);
    var init := ctx.Init(runtime, optixVersion, initOk, created);
    if init.Failure? {
      return Failure(init.error);
    }
    r := Success(ctx);
  }

  /**
   * Two contexts created one after the other: the first initialises OptiX,
   * the second finds the flag raised, so `optixInit()` runs once.
   */
  method TwoContexts(optixVersion: nat, cuda1: nat, created1: nat, cuda2: nat, created2: nat)
    returns (initCalls: nat, first: nat, second: nat)
    ensures initCalls == 1
    ensures first == created1 && second == created2
  {
    var runtime := new OptixRuntime();
    var ctx1 := NewOptixContext(cuda1, runtime, optixVersion, true, Some(created1));
    var ctx2 := NewOptixContext(cuda2, runtime, optixVersion, true, Some(created2));
    initCalls := runtime.initCalls;
    first, second := ctx1.value.Ref(), ctx2.value.Ref();
  }

  /**
   * A failing `optixInit()` leaves the flag down: the first context throws,
   * and the next context runs `optixInit()` again.
   */
  method RetryAfterFailedInit(optixVersion: nat, cuda1: nat, cuda2: nat, created2: nat)
    returns (initCalls: nat, initialized: bool, firstFailed: bool, second: nat)
    ensures initCalls == 2 && initialized
    ensures firstFailed && second == created2
  {
    var runtime := new OptixRuntime();
    var ctx1 := NewOptixContext(cuda1, runtime, optixVersion, false, Some(0));
    var ctx2 := NewOptixContext(cuda2, runtime, optixVersion, true, Some(created2));
    initCalls, initialized := runtime.initCalls, runtime.initialized;
    firstFailed := ctx1.Failure?;
    second := ctx2.value.Ref();
  }
}
