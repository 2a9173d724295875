# OpenCL device manager of actor-cuda, modelled in Dafny

Despite its `cuda` directory name, this subsystem wraps the OpenCL API. It
discovers platforms and their devices, gives every device a flat global
index, and compiles programs against a chosen device. The model keeps the
logic between the OpenCL calls. Each OpenCL call becomes the outcome it
reported, which the model takes as an input:

- `PlatformListing` stands for `clGetPlatformIDs`.
- `PlatformProbe` holds, for one platform, the three `clGetDeviceIDs`
  answers (`DeviceQuery`), the `clCreateContext` status and the three
  `clGetPlatformInfo` answers (`InfoQuery`).
- `CompileEnv` holds what program creation, `clBuildProgram`,
  `clCreateKernelsInProgram` and the per-kernel `clGetKernelInfo` report.

Exceptions become `Result`/`Outcome` values with an `Error` datatype, one
case per message the source raises. Every failing OpenCL call checked by
`throwcl` raises the same message, "throwcl: unrecoverable OpenCL error"
(src/opencl_error.cpp:18-20), so all of them are the one case
`OpenClFailed`. Logging becomes a returned list of
`Diagnostic`s. C++ `unsigned` counters are `u32` values that wrap modulo
2^32, as the source's `start_id++` and `current_device_id +=` do.

Modules, leaf first:

- `Wrappers` (`wrappers.dfy`): `Option`, `Result`, `Outcome`.
- `OpenCl` (`opencl.dfy`): status codes, opaque handles, errors, `CString`.
- `Platforms` (`platform.dfy`): `platform::create` and `platform_info`.
  Platforms and devices are never changed after creation, so they are
  datatypes.
- `Programs` (`program.dfy`): the program record, the kernel name table
  and the outcome of compiling against one device.
- `Addressing` (`addressing.dfy`): the global device address space, the
  cumulative ranges `find_device` walks, and the nested search of
  `find_device_if`.
- `Managers` (`manager.dfy`): the `Manager` class. Its `platforms` field
  is `platforms_`, and `Init` appends to it.

The imperative loops of the source are methods with loops: `GatherIds`,
`NumberDevices`, `FindDevice`, `CreatePlatforms` (the loop of `init`) and
`FillKernelTable` (the kernel loop of `create_program`). Each is proved
equal to a specification function (`Discovered`, `NumberedDevices`,
`Lookup`, `DiscoverAll`, `KernelTable`). The lemmas state the properties
of those functions.

`platform::create` is specified in two steps. `SurveyPlatform` runs its
checks in source order and collects the ids and the metadata strings.
`Assemble` then numbers the devices from the start id. `Discover` combines
the two. `DiscoverAll`, the specification of `init`'s loop, surveys every
listed platform and assembles the surveys in order. Each platform's start
id is the running device count. The lemma `DiscoverAllFirst` shows that
this equals calling `Discover` on each platform in turn.

`init` pushes each platform as soon as it is created (src/manager.cpp:40-42).
So when a later platform raises, the platforms created before it stay in
the manager, and `Init` states exactly that.

## Model

| member | source | states |
|---|---|---|
| `OpenCl.NulFrom` | src/platform.cpp:64 | scanning from position i stops at the first NUL at or after i, or at the end of the buffer; every character passed over is not NUL |
| `OpenCl.CString` | src/platform.cpp:64 | the string read from a NUL-terminated buffer is its longest prefix with no NUL, ending at the first NUL |
| `Platforms.ThrowCl` | src/opencl_error.cpp:18-22 | `throwcl` raises exactly when the status is not `CL_SUCCESS`, and always with the same error, whichever call it checks |
| `Platforms.PlatformInfo` | src/platform.cpp:58-65 | a failing size query raises `OpenClFailed`, as does a failed fill; the attribute is returned exactly when both calls succeed, and it is the buffer's characters up to its first NUL (`CString` of the buffer) |
| `Platforms.GatheredInTypeOrder` | src/platform.cpp:22-36 | querying the types in priority order leaves the GPU ids, then the accelerator ids, then the CPU ids in the buffer; each query appends its own ids after those gathered before, and a type answering "device not found" contributes nothing |
| `Platforms.GatherIds` | src/platform.cpp:24-36 | the device-type loop succeeds exactly when no type query is fatal (a status other than success or not-found, or a failed fill); it then yields the ids in type order and otherwise raises `OpenClFailed` |
| `Platforms.NumberedDeviceAt` | src/platform.cpp:45-48 | numbering a list of ids yields one device per id, the k-th being the k-th id's device with id `start_id + k` modulo 2^32 |
| `Platforms.NumberDevices` | src/platform.cpp:45-48 | the device loop, with `start_id` post-incremented as an `unsigned`, builds exactly the numbered device list |
| `Platforms.SurveyPlatform` | src/platform.cpp:21-53 | the checks of platform creation in source order: a fatal type query raises `OpenClFailed`; a failed context raises `OpenClFailed`; no discovered ids raises "no devices for the platform found"; then each metadata query can raise; it succeeds exactly when none of these fails, with the ids in type order, at least one, on the probed platform and context, and with name, vendor and version each read up to its first NUL |
| `Platforms.AssembledDevices` | src/platform.cpp:45-48 | an assembled platform has one device per surveyed id, in order, on the platform's context, with ids `start_id + k` modulo 2^32 |
| `Platforms.DiscoveredDevices` | src/platform.cpp:21-56 | a created platform has exactly as many devices as discovered ids, at least one, in type order, on its context, with contiguous increasing ids from `start_id` when there is no wrap-around |
| `Platforms.Create` | src/platform.cpp:21-56 | the imperative `platform::create` returns exactly what `Discover` describes: the survey's error, or the platform assembled from the survey |
| `Addressing.OffsetStep` | src/manager.cpp:19-22 | the range of platform k starts where the range of platform k-1 ends and is as wide as its device list; the first starts at 0 and the last ends at the total |
| `Addressing.LocalPosition` | src/manager.cpp:23-24 | a global index inside the range `[from, to)` of platform k names that platform's device at local offset `dev_id - from` |
| `Addressing.RangesCover` | src/manager.cpp:19-25 | every index below the total device count lies in the range of some platform |
| `Addressing.RangesDisjoint` | src/manager.cpp:19-25 | no index lies in the ranges of two different platforms, so lookup is unique |
| `Addressing.FirstIndex` | include/nil/actor/cuda/manager.hpp:53-60 | the flat reference search: the index of a device satisfying the predicate with none before it, or none exactly when no device satisfies it |
| `Addressing.FindIf` | include/nil/actor/cuda/manager.hpp:53-60 | the nested platform-then-device search returns the device the flat reference search finds |
| `Programs.KernelTableKeys` | src/manager.cpp:145-156 | the kernel table's keys are exactly the names of the enumerated kernels |
| `Programs.KernelTableFirstWins` | src/manager.cpp:155 | a name maps to the handle of the first kernel that has it; `emplace` keeps the earlier entry on a duplicate |
| `Programs.Compile` | src/manager.cpp:104-164 | compiling against a device: a failed build always raises and yields no program; success exactly when creation and build succeed and, if kernels were enumerated, the batch call and every name query succeed; zero kernels gives an empty table; a failed name query raises; the program has the device's context and queue and one key per kernel name |
| `Programs.CompileDiagnostics` | src/manager.cpp:113-162 | a `CL_BUILD_PROGRAM_FAILURE` logs the build log; the "no kernels enumerated" warning is logged exactly when the build succeeded with zero kernels; at most one diagnostic per call; nothing is logged when program creation fails or the build fails with another status |
| `Managers.AssembleAll` | src/manager.cpp:39-43 | creating platforms in order stops at the first failure: all are created exactly when none fails, and otherwise the error raised is that of the platform right after the last one created |
| `Managers.DiscoverAllFirst` | src/manager.cpp:40-42 | the first listed platform is created by `platform::create` with the running start id; its error stops discovery, and otherwise discovery goes on with the rest from where its devices end |
| `Managers.AssembleAllStartIds` | src/manager.cpp:39-43 | the k-th created platform comes from the k-th platform's survey, numbered from the device count of platforms 0..k-1 (modulo 2^32) |
| `Managers.DiscoverAllStartIds` | src/manager.cpp:39-43 | `platform::create` for the k-th platform, given the device count of platforms 0..k-1 (modulo 2^32), returns the k-th created platform |
| `Managers.OffsetAppend` | src/manager.cpp:42 | after platform k, the running `unsigned` start id is the previous one plus that platform's device count, wrapping modulo 2^32 |
| `Managers.CreatedAt` | src/manager.cpp:40-42 | within the loop, `platform::create` for platform k with the running start id succeeds exactly when k is before the first failure, returning the k-th created platform, and otherwise raises the error that ends `init` |
| `Managers.AssembleAllNumbered` | src/manager.cpp:39-43 | the device at flat position i among the created platforms has id `start + i` (modulo 2^32) |
| `Managers.AssembledNumbered` | src/manager.cpp:39-43 | platforms created from a device count of 0 carry every device's global index (modulo 2^32) as its id |
| `Managers.NumberedAfterInit` | src/manager.cpp:39-43 | on a manager that was empty, every device's id equals its global index (modulo 2^32), whether or not a platform failed |
| `Managers.Manager.constructor` | src/manager.cpp:166-168 | a new manager has no platforms |
| `Managers.Manager.FindDevice` | src/manager.cpp:15-28 | with no platforms, or an index at or past the total device count, the answer is none; otherwise it is the device at offset `dev_id - from` of the platform whose range holds `dev_id`, which is the flat device at that index and, after `init`, the device whose id is `dev_id`; the index defaults to 0 and the platforms are only read |
| `Managers.Manager.FindDeviceIf` | include/nil/actor/cuda/manager.hpp:52-61 | a returned device satisfies the predicate and no device before it in platform-then-device order does; none exactly when no device satisfies it, including when there are no platforms |
| `Managers.Manager.CreatePlatforms` | src/manager.cpp:39-43 | the platform loop appends exactly the platforms discovery creates, in listing order, and ends with discovery's verdict: normally, or with the error of the first platform that fails after those before it were appended |
| `Managers.Manager.Init` | src/manager.cpp:30-44 | a failed listing raises; an empty listing raises "no OpenCL platform found" and adds nothing; otherwise the created platforms are appended in listing order with cumulative start ids, and the first failure is raised after the platforms before it were appended |
| `Managers.Manager.CreateProgramOn` | src/manager.cpp:104-164 | the kernel loop yields exactly `Compile`'s result and `CompileDiagnostics`' log; a logged build log means the call raised; a warning means an empty-table program; each name's first kernel is its table entry |
| `Managers.Manager.FillKernelTable` | src/manager.cpp:145-156 | the kernel loop succeeds exactly when every name query succeeds, raising "clGetKernelInfo failed" otherwise, and then builds exactly the first-wins kernel table |
| `Managers.Manager.CreateProgram` | src/manager.cpp:81-87 | raises "no device found" with nothing logged exactly when the index resolves to no device, and otherwise compiles against the resolved device; the index defaults to 0 |
| `Managers.Manager.CreateProgramFromFile` | src/manager.cpp:66-79 | an unreadable path raises "path not found" before the device is resolved or anything is compiled; otherwise it is `CreateProgram` on the file's content |
| `Managers.Manager.CreateProgramFromFileOn` | src/manager.cpp:89-102 | an unreadable path raises "path not found" before compiling; otherwise it compiles against the given device |

## Left out

- `v2callcl`, `v2get` and `v1get` are not part of this model. A failing call they check is taken to raise through `throwcl`, as `OpenClFailed`.
- `OpenCl.CString`: a buffer without a NUL is not modelled as the source behaves. The model assumes OpenCL answers are NUL-terminated. For a buffer with no NUL, including an empty one, it takes the whole buffer. In C++ `std::string(buffer.data())` then reads past the end, and an empty vector's null `data()` is undefined too (src/platform.cpp:62-64, src/manager.cpp:120-126, src/manager.cpp:148-155).

- Native OpenCL calls are not modelled. Their outcomes are inputs (`PlatformListing`, `PlatformProbe`, `CompileEnv`). So the model does not tie the kernel table to the kernels actually defined in a source text. The `source` and `options` arguments are only passed along.
- A zero-device context is not modelled. `clCreateContext` is an input status, so the model lets context creation succeed with no devices. A conforming OpenCL runtime refuses that, and the source then raises before its empty-list check.
- The `spawn` overloads are not modelled. They are glue into the actor dispatch framework, which is not part of this model.
- Reading a file's content is not modelled. A file is given as its content, or none when it cannot be opened.
- The module hooks `start`, `stop`, `id`, `subtype_ptr` and `make` are not modelled. They register the module with the host runtime and hold no logic.
- Reference counting and ownership of handles are not modelled (`intrusive_ptr`, `raw_*_ptr`, releasing the kernels already created when a name query fails). They are lifetime machinery whose implementation is not part of this model.
- Log text is not modelled. The build log is kept as its content without the banner lines, and the warning as a tag. `pfn_notify` is not modelled.
- The macOS build is not modelled. There, no build log is logged.
- device.hpp and device.cpp are not part of this model. `device::create` is taken as total. Its command queue is `Queue(context, device)`, and a failure to create a queue is not modelled.
- Statuses the source ignores are not inputs: the kernel-count query, the build-log queries and the kernel-name size query. The enumerated kernel count is the length of `CompileEnv.kernels`.
- `Managers.Manager.FindDevice`: the `size_t` accumulator `to` is an unbounded `nat`. It could only wrap with more than 2^64 devices.
- `Managers.Manager.Init`: an empty listing is taken as given and raises "no OpenCL platform found" (src/manager.cpp:36-37). With zero platforms, the second `clGetPlatformIDs` call (src/manager.cpp:35) passes no entries and no output count, which a conforming OpenCL runtime rejects. If `v2callcl` then raises through `throwcl`, the source fails with `OpenClFailed` first. `v2callcl` is not part of this model, so that earlier failure is not modelled.
- `Managers.Manager.Init`: a second call is not prevented, as in the source. It appends again with start ids from 0. The numbering property is stated only for a manager that was empty.
- Concurrency of compile calls is not modelled. Those calls only read the manager, which the method frames show.
