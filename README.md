# rmagine / imagine host-side bookkeeping, in Dafny

This project models the host-side bookkeeping that surrounds the ray-tracing
backends of the rmagine (formerly imagine) sensor-simulation library. It
models the following, with proofs:

- **Scene graphs.**
  - The Embree scene maps ids to geometries. It counts geometries of one kind, and it can look one up filtered by kind.
  - The OptiX scene keeps the id -> geometry map and its inverse, and draws ids from an id generator.
  - Geometries keep weak back-references to the scenes holding them.
- **Sensor models.**
  - `DiscreteInterval` with `computeStep` and `getValue`.
  - `getBufferId` of the spherical (LiDAR) model.
  - The pinhole model's size.
- **Simulator configuration.** This covers `OptixSimulator` (imagine) and `PinholeSimulatorOptix` (rmagine):
  - the setters;
  - buffer sizing for the allocating `simulate*` calls;
  - the null-program and no-map errors;
  - the launch grid and the pose-major layout of results.
- **Pipeline and SBT setup of `SphereProgramGeneric`.** The scene depth selects the traversable-graph mode. `updateSBT` grows the hit-group table, fills the host-side records and uploads them.
- **One-time OptiX initialisation.** A global flag is checked before init. The integer SDK version is decoded into major, minor and patch.

How the C++ constructs are represented:

- A weak pointer is the identity (`ObjId`) of its target. It is alive when that identity is in a `live` set passed by the caller (`Common.Lock`).
- The C++ class hierarchy of geometries is a kind tag, so a `dynamic_pointer_cast` succeeds exactly when the kind matches.
- `uint32_t` arithmetic keeps its wrap-around (`Common.WrapU32`).
- Floats are reals.
- Calls into OptiX, CUDA and Embree are opaque steps. Their results are parameters. A GPU launch is returned as a `Launch` value recording the program, the parameter record and the grid.

Module per source file:

| module | file |
|---|---|
| `EmbreeScenes` | include/rmagine/map/embree/EmbreeScene.hpp |
| `OptixGeometries` | src/rmagine/map/optix/OptixGeometry.cpp |
| `OptixScenes` | include/rmagine/map/optix/OptixScene.hpp |
| `SensorModels` | include/imagine/types/sensor_models.h |
| `OptixSimulators` | src/imagine/simulation/OptixSimulator.cpp |
| `PinholeSimulators` | src/rmagine/simulation/PinholeSimulatorOptix.cpp |
| `SpherePrograms` | src/rmagine/simulation/optix/SphereProgramGeneric.cpp |
| `OptixContexts` | src/rmagine/util/optix/OptixContext.cpp |
| `SimulationData` | include/imagine/simulation/optix/OptixSimulationData.hpp (record shapes), launch sizing |
| `ResultLayout` | pose-major layout of launch results |
| `Common` | Option/Result, `uint32_t` wrap, weak references |

The following members are plain definitions with no contract of their own. Each one's meaning is stated by the members named beside it:

- `getPhi`/`getTheta` are `phi.getValue`/`theta.getValue` by definition (`SphericalModel.GetPhi`, `GetTheta`).
- `DiscreteInterval.GetValue` (`getValue`, include/imagine/types/sensor_models.h:42-45) is the id-th sample. `GetValueProgression` and `ComputeStepReachesMax` state what it yields.
- `SphericalModel.GetBufferId` (`getBufferId`, sensor_models.h:88-91) is the row-major ray index in `uint32_t`. `BufferIdInRange`, `BufferIdRoundTrip`, `BufferIdInjective` and `ScanLayout` state its meaning.
- `SphericalModel.Size` and `PinholeModel.Size` are helpers for the number of rays of one scan (phi.size * theta.size, width * height). The source writes these products at the allocation sites; it has no method for them.
- `Interval.Contains` is the validity test `min <= r <= max` for ranges.
- `type()`/`geom_type()` of the OptiX scene read the fields that the scene constructor initialises to NONE and MESH.
- `OptixRuntime.Initialized` (`optix_initialized`, src/rmagine/util/optix/OptixContext.cpp:17-20) reads the global flag. The contracts of `OptixRuntime.Initialize`, `OptixContext.Init`, `NewOptixContext` and `RetryAfterFailedInit` state when it is raised.
- `OptixContext.GetCudaContext` and `OptixContext.Ref` (`getCudaContext`, `ref`, OptixContext.cpp:44-52) read the stored contexts. The contracts of `OptixContext.constructor`, `OptixContext.Init` and `NewOptixContext` state what they return.

## Model

| member | source | states |
|---|---|---|
| SensorModels.StepDivisor | include/imagine/types/sensor_models.h:38 | the divisor `size - 1` is computed in `uint32_t`: size - 1 for a size of at least 1, and 2^32 - 1 for size 0 |
| SensorModels.ComputeStep | include/imagine/types/sensor_models.h:36-39 | only `step` changes, and step * (size - 1) equals max - min; size 1 (division by zero) is excluded |
| SensorModels.GetValueProgression | include/imagine/types/sensor_models.h:42-45 | sample 0 is `min`, and consecutive samples differ by exactly `step` |
| SensorModels.ComputeStepReachesMax | include/imagine/types/sensor_models.h:36-45 | after `computeStep` with at least two samples, the first sample is `min` and the last (size - 1) is `max` |
| SensorModels.ComputeStepOfEmptyInterval | include/imagine/types/sensor_models.h:38 | for size 0 the subtraction wraps: over reals the step is a (2^32 - 1)-th of the span, and sample 2^32 - 1 is `max` (in `float`, 2^32 - 1 rounds to 2^32) |
| SensorModels.BufferIdInRange | include/imagine/types/sensor_models.h:88-91 | for phi < phi.size and theta < theta.size in a scan that fits `uint32_t`, getBufferId = phi * theta.size + theta without wrap, and it lies below phi.size * theta.size |
| SensorModels.BufferIdRoundTrip | include/imagine/types/sensor_models.h:88-91 | the buffer id gives back phi (id / theta.size) and theta (id % theta.size): row-major, theta fastest |
| SensorModels.BufferIdInjective | include/imagine/types/sensor_models.h:88-91 | distinct valid (phi, theta) pairs get distinct buffer ids |
| ResultLayout.OffsetInBuffer | src/imagine/simulation/OptixSimulator.cpp:79-81 | every thread of a (width, height, depth) launch writes inside a buffer of width * height * depth elements |
| ResultLayout.OffsetRoundTrip | src/imagine/simulation/OptixSimulator.cpp:79-81 | a flat offset gives back its pose (offset / samples), row and column |
| ResultLayout.OffsetInjective | src/imagine/simulation/OptixSimulator.cpp:79-81 | no two threads share an output element |
| ResultLayout.OffsetSurjective | src/imagine/simulation/OptixSimulator.cpp:79-81 | every element of the buffer is written by some thread of the grid |
| ResultLayout.PoseSlice | tests/optix_sim/optix_simulation_pinhole.cpp:71-74 | pose p occupies the flat slice [samples * p, samples * (p + 1)) |
| ResultLayout.LastElement | src/imagine_tools/imagine_benchmark/Main.cpp:176 | the last thread writes index depth * samples - 1, the last element |
| SimulationData.AllocMatchesGrid | src/imagine/simulation/OptixSimulator.cpp:88-94 | when width * height and the pose count fit `unsigned int`, the allocated element count equals the number of launched threads, and each thread's offset lies inside the buffer |
| OptixGeometries.OptixGeometry.CleanupParents | src/rmagine/map/optix/OptixGeometry.cpp:22-33 | the erase-while-iterating loop leaves exactly the live entries of the old set |
| OptixGeometries.OptixGeometry.RemoveParent | src/rmagine/map/optix/OptixGeometry.cpp:35-46 | returns true iff the parent was present; afterwards it is absent and nothing else changed (an absent parent changes nothing) |
| OptixGeometries.OptixGeometry.HasParent | src/rmagine/map/optix/OptixGeometry.cpp:48-51 | true iff the parent is in the weak set |
| OptixGeometries.OptixGeometry.Parents | src/rmagine/map/optix/OptixGeometry.cpp:53-66 | the loop returns exactly the parents that are alive: never an expired one, every live one; the weak set is not modified |
| OptixGeometries.OptixGeometry.AddParent | src/rmagine/map/optix/OptixGeometry.cpp:68-71 | the parent is in the set afterwards, and adding a present parent leaves the set unchanged |
| OptixScenes.IdGen.Get | include/rmagine/map/optix/OptixScene.hpp:79 | returns an id never handed out before: the counter value, which then grows by one |
| OptixScenes.OptixScene.constructor | include/rmagine/map/optix/OptixScene.hpp:76-77 | a fresh scene is empty, of type NONE and geometry type MESH, and its maps are mutually inverse |
| OptixScenes.OptixScene.Add | include/rmagine/map/optix/OptixScene.hpp:37 | a new geometry gets an id not yet in use, both maps gain the pair and stay mutual inverses, and the scene becomes a parent of the geometry; a geometry already present keeps its id |
| OptixScenes.OptixScene.Get | include/rmagine/map/optix/OptixScene.hpp:38 | finds an id iff the geometry is in the scene, and that id maps back to the geometry |
| OptixScenes.OptixScene.Geometries | include/rmagine/map/optix/OptixScene.hpp:40 | the returned id -> geometry map has the scene's ids, each pointing at the geometry whose id it is |
| OptixScenes.OptixScene.Ids | include/rmagine/map/optix/OptixScene.hpp:41 | the returned geometry -> id map is the inverse of the id -> geometry map |
| OptixScenes.OptixScene.CleanupParents | include/rmagine/map/optix/OptixScene.hpp:64 | drops exactly the expired instance references |
| OptixScenes.OptixScene.Parents | include/rmagine/map/optix/OptixScene.hpp:65 | a parent is listed iff it is in the weak set and alive |
| OptixScenes.OptixScene.AddParent | include/rmagine/map/optix/OptixScene.hpp:66 | the instance joins the weak set; the geometry maps are untouched |
| OptixScenes.IdsDistinct | include/rmagine/map/optix/OptixScene.hpp:79-82 | no two geometries of a scene share an id |
| OptixScenes.AddTwo | include/rmagine/map/optix/OptixScene.hpp:37-38 | two geometries added to a fresh scene get different ids, each id maps to its own geometry, and both have the scene as their parent |
| EmbreeScenes.DefaultSettings | include/rmagine/map/embree/EmbreeScene.hpp:24-35 | default settings have quality MEDIUM and flags NONE |
| EmbreeScenes.CountAtMostSize | include/rmagine/map/embree/EmbreeScene.hpp:96-110 | the number of geometries of one kind never exceeds the number stored |
| EmbreeScenes.CountAfterRemove | include/rmagine/map/embree/EmbreeScene.hpp:66 | removing an id lowers the count of its geometry's kind by one and keeps the other kind's count |
| EmbreeScenes.CountAfterAdd | include/rmagine/map/embree/EmbreeScene.hpp:62 | adding under a new id raises the count of the geometry's kind by one and keeps the other kind's count |
| EmbreeScenes.LeastFreeId | include/rmagine/map/embree/EmbreeScene.hpp:62 | the id handed out is unused, and every smaller id is in use |
| EmbreeScenes.EmbreeScene.constructor | include/rmagine/map/embree/EmbreeScene.hpp:52-54 | a new scene has the given settings, no geometries and no parents |
| EmbreeScenes.EmbreeScene.SetQuality | include/rmagine/map/embree/EmbreeScene.hpp:58 | only the build quality changes |
| EmbreeScenes.EmbreeScene.SetFlags | include/rmagine/map/embree/EmbreeScene.hpp:60 | only the scene flags change |
| EmbreeScenes.EmbreeScene.Add | include/rmagine/map/embree/EmbreeScene.hpp:62 | the geometry is stored under the least free id, other entries are kept, and its parent is this scene |
| EmbreeScenes.EmbreeScene.Get | include/rmagine/map/embree/EmbreeScene.hpp:63 | returns the stored geometry iff the id is present, null otherwise |
| EmbreeScenes.EmbreeScene.Geometries | include/rmagine/map/embree/EmbreeScene.hpp:64 | the returned map has an entry exactly for the ids `get` finds, holding what `get` returns |
| EmbreeScenes.EmbreeScene.Has | include/rmagine/map/embree/EmbreeScene.hpp:65 | true iff `get` finds a geometry |
| EmbreeScenes.EmbreeScene.Remove | include/rmagine/map/embree/EmbreeScene.hpp:66 | returns what `get` returned before; the id is gone and the rest kept; the removed geometry's parent is cleared and no other geometry's parent changes |
| EmbreeScenes.EmbreeScene.GetAs | include/rmagine/map/embree/EmbreeScene.hpp:113-125 | null iff the id is absent or its geometry is of another kind; otherwise exactly the stored geometry |
| EmbreeScenes.EmbreeScene.Count | include/rmagine/map/embree/EmbreeScene.hpp:96-110 | the loop counts exactly the stored geometries of the kind, without changing the map |
| EmbreeScenes.AddThenRemove | src/rmagine_examples/rmagine_embree_scene/Main.cpp:59-76 | adding a sphere and removing it leaves a mesh count of 0 and an empty parent reference |
| EmbreeScenes.OutliveScene | src/rmagine_examples/rmagine_embree_scene/Main.cpp:33-57 | a geometry taken from `geometries()` has the scene as its parent; once the scene is released (its identity leaves the live set, since object lifetime itself is not modelled) that parent no longer locks |
| OptixContexts.OptixRuntime.constructor | src/rmagine/util/optix/OptixContext.cpp:15 | at start the flag is false and OptiX was never initialised |
| OptixContexts.OptixRuntime.Initialize | src/rmagine/util/optix/OptixContext.cpp:22-29 | runs `optixInit` once more; on success the flag is raised and the reported version encodes back to the SDK version, on failure it throws and the flag is left as it was |
| OptixContexts.DecodeVersion | src/rmagine/util/optix/OptixContext.cpp:25 | minor and patch have two digits, and major * 10000 + minor * 100 + patch gives back V |
| OptixContexts.DecodeEncode | src/rmagine/util/optix/OptixContext.cpp:25 | decoding an encoded version with two-digit minor and patch gives back the version |
| OptixContexts.OptixContext.constructor | src/rmagine/util/optix/OptixContext.cpp:31-33 | the member initialiser keeps the CUDA context that `getCudaContext()` returns |
| OptixContexts.NewOptixContext | src/rmagine/util/optix/OptixContext.cpp:31-36 | the constructor succeeds iff OptiX is (or gets) initialised and the device context is created; it then returns the given CUDA context and the created device context, and `optixInit` ran iff the flag was down |
| OptixContexts.OptixContext.Init | src/rmagine/util/optix/OptixContext.cpp:54-67 | `optix_initialize` runs iff the flag was down; a failing `optixInit` throws before the device context is created, a failing `optixDeviceContextCreate` throws, and otherwise `ref()` is the created handle |
| OptixContexts.TwoContexts | src/rmagine/util/optix/OptixContext.cpp:56-59 | creating two contexts initialises OptiX exactly once |
| OptixContexts.RetryAfterFailedInit | src/rmagine/util/optix/OptixContext.cpp:27-28 | after a failing `optixInit` the flag stays down, so the next context runs `optixInit` again and then succeeds |
| OptixSimulators.OptixSimulator.constructor | src/imagine/simulation/OptixSimulator.cpp:19-36 | the three slots hold the ranges, normals and generic programs |
| OptixSimulators.OptixSimulator.SetTsb | src/imagine/simulation/OptixSimulator.cpp:43-46 | stores Tsb and changes nothing else |
| OptixSimulators.OptixSimulator.SetModel | src/imagine/simulation/OptixSimulator.cpp:48-53 | width = theta.size, height = phi.size, the model is stored, nothing else changes |
| OptixSimulators.OptixSimulator.LaunchSlot | src/imagine/simulation/OptixSimulator.cpp:69-85 | a null program throws and launches nothing; otherwise that program is launched with the record over (width, height, Tbm.size()) |
| OptixSimulators.OptixSimulator.SimulateRanges | src/imagine/simulation/OptixSimulator.cpp:55-86 | throws iff the ranges program is null; otherwise launches it over (width, height, Tbm.size()) with a record naming Tsb, model, Tbm, the map handle and the caller's buffer |
| OptixSimulators.OptixSimulator.SimulateRangesAlloc | src/imagine/simulation/OptixSimulator.cpp:88-94 | the new buffer has width * height * Tbm.size() elements and is the one the launch writes |
| OptixSimulators.OptixSimulator.SimulateNormals | src/imagine/simulation/OptixSimulator.cpp:96-127 | as SimulateRanges, with the normals program and buffer |
| OptixSimulators.OptixSimulator.SimulateNormalsAlloc | src/imagine/simulation/OptixSimulator.cpp:129-135 | the new buffer has width * height * Tbm.size() elements and is the one the launch writes |
| OptixSimulators.OptixSimulator.Simulate | src/imagine/simulation/OptixSimulator.cpp:137-171 | throws iff the generic program is null; otherwise launches it over (width, height, Tbm.size()) with both buffers |
| OptixSimulators.ScanLayout | src/imagine/simulation/OptixSimulator.cpp:48-94 | with the size set by `setModel`, one thread per buffer element, and thread (theta, phi, pose) writes element pose * scan size + getBufferId(phi, theta) |
| OptixSimulators.LastRay | src/imagine_tools/imagine_benchmark/Main.cpp:176 | the last ray of the last pose is index N * phi.size * theta.size - 1, the last element of the allocated buffer |
| OptixSimulators.ConfigureAndSimulate | src/imagine_tools/imagine_benchmark/Main.cpp:163-176 | configuring a model and simulating ranges launches exactly one thread per element of the returned buffer |
| PinholeSimulators.PinholeSimulatorOptix.constructor | src/rmagine/simulation/PinholeSimulatorOptix.cpp:18-25 | no map, one model slot, and Tsb is a single identity transform |
| PinholeSimulators.PinholeSimulatorOptix.WithMap | src/rmagine/simulation/PinholeSimulatorOptix.cpp:27-31 | the default state followed by `setMap(map)` |
| PinholeSimulators.PinholeSimulatorOptix.SetMap | src/rmagine/simulation/PinholeSimulatorOptix.cpp:38-48 | stores the map and takes its stream; nothing else changes |
| PinholeSimulators.PinholeSimulatorOptix.SetTsb | src/rmagine/simulation/PinholeSimulatorOptix.cpp:50-53 | stores Tsb and changes nothing else |
| PinholeSimulators.PinholeSimulatorOptix.SetTsbSingle | src/rmagine/simulation/PinholeSimulatorOptix.cpp:55-60 | the same as `setTsb` of the one-element memory [T] |
| PinholeSimulators.PinholeSimulatorOptix.SetModel | src/rmagine/simulation/PinholeSimulatorOptix.cpp:62-71 | width and height come from the model, the model is stored, and the union's pinhole member points at it |
| PinholeSimulators.PinholeSimulatorOptix.SetModelSingle | src/rmagine/simulation/PinholeSimulatorOptix.cpp:73-78 | the same as `setModel` of the one-element memory [m] |
| PinholeSimulators.PinholeSimulatorOptix.SimulateRanges | src/rmagine/simulation/PinholeSimulatorOptix.cpp:80-127 | throws iff no map is set and then does nothing else; otherwise prepares the record with Tsb, model, Tbm, map handle and the caller's buffer |
| PinholeSimulators.PinholeSimulatorOptix.SimulateRangesAlloc | src/rmagine/simulation/PinholeSimulatorOptix.cpp:129-135 | the new buffer has width * height * Tbm.size() elements and is the one the record names |
| PinholeSimulators.PinholeSimulatorOptix.LaunchGeneric | src/rmagine/simulation/PinholeSimulatorOptix.cpp:137-154 | the given program is launched with the record over (width, height, mem->Nposes), one thread per pixel and pose |
| PinholeSimulators.PinholePoseSlice | tests/optix_sim/optix_simulation_pinhole.cpp:71-76 | pose p of a pinhole launch fills the slice [size * p, size * (p + 1)), pixel (x, y) at y * width + x within it |
| PinholeSimulators.ConfigureAndAllocate | src/rmagine/simulation/PinholeSimulatorOptix.cpp:129-154 | after `setModel`, the allocated buffer and a launch with Nposes = Tbm.size() agree: one thread per element |
| SpherePrograms.ClassifyDepth | src/rmagine/simulation/optix/SphereProgramGeneric.cpp:367-382 | depth 0 throws "no root"; otherwise the chosen mode admits the scene and is the least permissive mode that does (1: single GAS, 2: single-level instancing, 3 or more: any) |
| SpherePrograms.PipelineOptionsFor | src/rmagine/simulation/optix/SphereProgramGeneric.cpp:480-526 | the maximum traversable depth passed to the pipeline is the scene depth, which the chosen mode admits; trace depth 1 |
| SpherePrograms.GrowHitgroupsAsWritten | src/rmagine/simulation/optix/SphereProgramGeneric.cpp:579-585 | the resize as written. The count becomes max(count, 50) and the other tables are unchanged, but a grown block holds only as many bytes as records |
| SpherePrograms.GrowHitgroups | src/rmagine/simulation/optix/SphereProgramGeneric.cpp:568-590 | the hit-group count becomes max(count, 50) and never decreases, nothing else about the miss/raygen tables changes, and the uploads keep fitting their blocks |
| SpherePrograms.GrowAsWrittenOverflows | src/rmagine/simulation/optix/SphereProgramGeneric.cpp:583-629 | as written, a resize with records larger than one byte leaves the hit-group block too small for its upload |
| SpherePrograms.MapConstructorLayoutOverflows | src/rmagine/simulation/optix/SphereProgramGeneric.cpp:281-294 | from the one-record layout of the map constructor, the as-written resize allocates 50 bytes for 50 records, while the intended one fits |
| SpherePrograms.SceneSbt | src/rmagine/simulation/optix/SphereProgramGeneric.cpp:532-551 | the scene constructor's SBT has 1 miss and 100 hit-group records, and each block holds stride * count bytes |
| SpherePrograms.SceneSbtNotResized | src/rmagine/simulation/optix/SphereProgramGeneric.cpp:532-585 | with 100 hit-group records `updateSBT` does not resize, as written or as intended |
| SpherePrograms.FillMissRecords | src/rmagine/simulation/optix/SphereProgramGeneric.cpp:595-599 | `resize` leaves `count` unpacked records, and the loop packs the miss header into each of them |
| SpherePrograms.FillHitgroupRecords | src/rmagine/simulation/optix/SphereProgramGeneric.cpp:601-606 | `resize` leaves `count` unpacked records, and the loop gives each the hit-group header and the scene's data pointer |
| SpherePrograms.SphereProgramGeneric.constructor | src/rmagine/simulation/optix/SphereProgramGeneric.cpp:532-553 | SBT counts 1 and 100 with fitting blocks, then `updateSBT`: 1 miss and 100 packed hit-group records carrying the scene data |
| SpherePrograms.SphereProgramGeneric.UpdateSbt | src/rmagine/simulation/optix/SphereProgramGeneric.cpp:561-630 | runs the resize as written; in every state a program can reach (at least 50 hit-group records) it is not taken and agrees with the intended resize, so the uploads still fit; one packed raygen record, and the miss and hit-group tables packed to their counts |
| SpherePrograms.FromScene | src/rmagine/simulation/optix/SphereProgramGeneric.cpp:297-382 | a scene of depth 0 throws; otherwise the program's mode admits the scene depth and its hit-group table has 100 records |
| SpherePrograms.FromMap | src/rmagine/simulation/optix/SphereProgramGeneric.cpp:26-30 | the map-taking constructor always throws |

## Left out

- Floating point. Reals stand in for `float`, so there is no rounding.
  - `getRay`/`getDirection` (cos/sin) are not modelled.
  - `SensorModels.ComputeStep`: excludes size 1, where the C++ `float` division by zero gives infinity or NaN instead of failing.
- Calls into OptiX, CUDA and Embree are opaque.
  - Not modelled: module, program-group and pipeline creation, stack sizing, `cudaMalloc`/`cudaFree`/`cudaMemcpy`, `optixLaunch`, `optixDeviceContextCreate/Destroy`, `rtcAttachGeometry` and the Embree scene handle.
  - Their results (handles, device addresses, the created device context, the record sizes `sizeof(*SbtRecord)`) are parameters.
  - The embedded PTX kernel is a build-time constant and is never empty, so the `ptx.empty()` throw of the program constructors (src/rmagine/simulation/optix/SphereProgramGeneric.cpp:396-399) is not modelled.
  - `commit`, `optimize`, `handle`, `depth` and `as` of the scenes are not modelled. The scene depth is an input of `SpherePrograms.FromScene`.
- CUDA streams and concurrency.
  - Stream creation and destruction, and the asynchronous upload of the parameter record, are not modelled.
  - The CUDA context activation in the pinhole `simulateRanges` is not modelled either.
- `OptixSimulators.OptixSimulator.constructor`: does not state `m_Tsb`, `m_model`, `m_width` and `m_height`, because `OptixSimulator.hpp` is not part of this model. The same holds for `PinholeSimulators.PinholeSimulatorOptix.constructor` and the pinhole model's default contents.
- `m_width`/`m_height` are taken as `uint32_t`, like the model fields they are copied from. Their product wraps at 2^32 (`SimulationData.AllocSize`). The 64-bit `size_t` product with the pose count does not wrap in the model.
- `SpherePrograms.SphereProgramGeneric.UpdateSbt`: proves that the uploads fit only for the states a program can reach, which hold at least 50 hit-group records. From fewer records the resize as written overflows; see Findings.
- Failing `OPTIX_CHECK`/`CUDA_CHECK` calls outside the context code are not modelled. In `optixLaunch`, the SBT `cudaMalloc`/`cudaMemcpy` and the pipeline creation calls, these checks throw `std::runtime_error`; the model assumes the calls succeed. Failures of `optixInit` and `optixDeviceContextCreate` are modelled.
- The `Nposes` field of the launch-parameter record is never written by the simulators. The model keeps it as `None` (unset).
- `SpherePrograms.FromMap`: does not model the code after the unconditional throw. The map constructor's one-record SBT layout is used only as the input of the finding below.
- The default OptiX context created at static initialisation (`optix_def_ctx`) is not modelled. The global flag is an `OptixRuntime` object passed explicitly.
- Ordering is not modelled. `std::map` iteration order in `OptixScene::geometries()` and the ordering of `unordered_map`/`unordered_set` are left out: maps and sets are Dafny `map`/`set`.
- Object lifetime (`shared_ptr` reference counts, destructors) is not modelled. Liveness is the caller's `live` set.
- Some bodies are not part of this model: `EmbreeScene.cpp`, `EmbreeGeometry.hpp`, `OptixScene.cpp` and `IDGen.hpp`. Where their declarations are modelled, these choices were made:
  - Embree hands out the least free geometry id.
  - `remove` clears the removed geometry's `parent`.
  - `IDGen` is a counter.
  - Adding a geometry already in the OptiX scene returns its existing id.
  - `OptixScene.add` registers the scene as a parent of the geometry (`OptixGeometry.AddParent`), whether the geometry is new or already present.
  - `OptixScene.get` returns None for an absent geometry, where the header's `unsigned int` result leaves the absent case unspecified.
- `EmbreeScenes.EmbreeScene.Count`: does not model the 32-bit wrap of the `unsigned int` counter. A scene with more than 2^32 - 1 geometries is not meaningful.
- The benchmark CLI, the example drivers and the Euler/quaternion, SVD and noise code are not modelled. The drivers serve only as evidence for `AddThenRemove`, `OutliveScene`, `LastRay` and `PinholePoseSlice`.

## Findings

| source | as written | input that shows it | evidently intended | confidence | as-written member | corrected member |
|---|---|---|---|---|---|---|
| src/rmagine/simulation/optix/SphereProgramGeneric.cpp:583 | when `updateSBT` grows the hit-group table it allocates `n_hitgroups_required` (50) bytes, but then uploads `hitgroupRecordStrideInBytes * hitgroupRecordCount` bytes into that block (lines 590, 624-629) | the one-record layout set up at lines 281-289: hit-group stride of at least 32 bytes (the OptiX record header), count 1 → 50 bytes allocated, at least 1600 bytes copied | allocate stride * n_hitgroups_required bytes | not executed; latent in this version, because the map constructor throws at line 30 before reaching it and the scene constructor starts with 100 records, so it never resizes (`SceneSbtNotResized`) | SpherePrograms.GrowAsWrittenOverflows | SpherePrograms.GrowHitgroups |
