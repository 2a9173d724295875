/** Platform discovery: `platform::create` and `platform::platform_info`.
    Every OpenCL call is replaced by the outcome it reported, gathered in a
    `PlatformProbe` per platform id. */
module Platforms {
  import opened Wrappers
  import opened OpenCl

  /** The device classes queried, in their fixed priority order. */
  datatype DeviceType = Gpu | Accelerator | Cpu

  const DeviceTypes: seq<DeviceType> := [Gpu, Accelerator, Cpu]

  /** What the two `clGetDeviceIDs` calls for one device type report: the
      status of the counting call, the ids of that type, and the status of
      the call that copies them into the id buffer. */
  datatype DeviceQuery = DeviceQuery(countStatus: Status, ids: seq<DeviceHandle>, fillStatus: Status)

  /** What the two `clGetPlatformInfo` calls for one attribute report: the
      status of the size query, the filled buffer, and the status of the
      call that filled it. */
  datatype InfoQuery = InfoQuery(sizeStatus: Status, buffer: seq<char>, fillStatus: Status)

  /** Everything the OpenCL runtime answers while one platform is created. */
  datatype PlatformProbe = PlatformProbe(
    handle: PlatformHandle,
    gpu: DeviceQuery,
    accelerator: DeviceQuery,
    cpu: DeviceQuery,
    contextStatus: Status,   // clCreateContext
    context: ContextHandle,
    name: InfoQuery,
    vendor: InfoQuery,
    version: InfoQuery)
  {
    function Query(t: DeviceType): DeviceQuery {
      match t
      case Gpu => gpu
      case Accelerator => accelerator
      case Cpu => cpu
    }
  }

  /** A device object: its native handle, the shared context of its
      platform, its own command queue, and its sequential global id. */
  datatype Device = Device(handle: DeviceHandle, context: ContextHandle, queue: QueueHandle, id: u32)

  /** A platform object: read-only metadata and its ordered devices. */
  datatype Platform = Platform(
    handle: PlatformHandle,
    context: ContextHandle,
    name: string,
    vendor: string,
    version: string,
    devices: seq<Device>)

  /** `device::create(context, device_id, id)`. */
  function MakeDevice(handle: DeviceHandle, context: ContextHandle, id: u32): Device {
    Device(handle, context, Queue(context, handle), id)
  }

  /** `throwcl(name, err)`: raises exactly when the status is not success.
      The name of the call is ignored, so every failing call raises the
      same error. */
  function ThrowCl(status: Status): (r: Outcome<Error>)
    ensures r == Pass <==> status == ClSuccess
    ensures r.Fail? ==> r.error == OpenClFailed
  {
    if status != ClSuccess then Fail(OpenClFailed) else Pass
  }

  /** `platform_info`: a size query checked by `throwcl`, then a checked
      fill; the string is the buffer up to its first NUL. */
  function PlatformInfo(q: InfoQuery): (r: Result<string, Error>)
    ensures q.sizeStatus != ClSuccess ==> r == Failure(OpenClFailed)
    ensures r.Success? <==> q.sizeStatus == ClSuccess && q.fillStatus == ClSuccess
    ensures r.Success? ==> '\0' !in r.value && r.value <= q.buffer
    ensures r.Success? ==> r.value == CString(q.buffer)
    ensures r.Failure? ==> r.error == OpenClFailed
  {
    match ThrowCl(q.sizeStatus)
    case Fail(e) => Failure(e)
    case Pass =>
      if q.fillStatus != ClSuccess then Failure(OpenClFailed)
      else Success(CString(q.buffer))
  }

  /** A device-type query that aborts platform creation: any counting status
      other than success and "device not found", or a failed fill. */
  predicate Fatal(q: DeviceQuery) {
    q.countStatus != ClDeviceNotFound && (q.countStatus != ClSuccess || q.fillStatus != ClSuccess)
  }

  /** The ids a non-fatal query adds to the buffer; none for "not found". */
  function Contribution(q: DeviceQuery): seq<DeviceHandle> {
    if q.countStatus == ClSuccess then q.ids else []
  }

  /** The id buffer after querying `types` in order: the running value of
      the device-type loop, which `GatherIds` keeps as its invariant. */
  function Gathered(probe: PlatformProbe, types: seq<DeviceType>): seq<DeviceHandle> {
    if types == [] then []
    else Gathered(probe, types[..|types| - 1]) + Contribution(probe.Query(types[|types| - 1]))
  }

  /** The id buffer once all three device types have been queried, written
      out type by type; `GatheredInTypeOrder` shows the loop ends with it. */
  function Discovered(probe: PlatformProbe): seq<DeviceHandle> {
    Contribution(probe.gpu) + Contribution(probe.accelerator) + Contribution(probe.cpu)
  }

  predicate AnyFatal(probe: PlatformProbe) {
    Fatal(probe.gpu) || Fatal(probe.accelerator) || Fatal(probe.cpu)
  }

  /** Querying the types in their priority order gathers the GPU ids,
      then the accelerator ids, then the CPU ids; a type answering "device
      not found" adds nothing, and the ids gathered earlier keep their
      positions. */
  lemma GatheredInTypeOrder(probe: PlatformProbe)
    ensures Gathered(probe, DeviceTypes) == Discovered(probe)
    ensures forall i :: 0 <= i < |DeviceTypes| ==>
              Gathered(probe, DeviceTypes[..i + 1]) == Gathered(probe, DeviceTypes[..i]) + Contribution(probe.Query(DeviceTypes[i]))
  {
    assert DeviceTypes[..2] == [Gpu, Accelerator];
    assert DeviceTypes[..2][..1] == [Gpu];
    assert [Gpu][..0] == [];
    assert DeviceTypes[..3] == DeviceTypes;
    calc {
      Gathered(probe, DeviceTypes);
      Gathered(probe, [Gpu, Accelerator]) + Contribution(probe.cpu);
      Gathered(probe, [Gpu]) + Contribution(probe.accelerator) + Contribution(probe.cpu);
      Gathered(probe, []) + Contribution(probe.gpu) + Contribution(probe.accelerator) + Contribution(probe.cpu);
    }
  }

  /** One device per id, in order, numbered from `startId` with `unsigned`
      wrap-around. */
  function NumberedDevices(ids: seq<DeviceHandle>, context: ContextHandle, startId: u32): seq<Device> {
    if ids == [] then []
    else
      var n := |ids| - 1;
      NumberedDevices(ids[..n], context, startId) + [MakeDevice(ids[n], context, (startId + n) % U32)]
  }

  /** The k-th numbered device is the k-th id's, with id `startId + k`
      modulo 2^32. */
  lemma {:induction false} NumberedDeviceAt(ids: seq<DeviceHandle>, context: ContextHandle, startId: u32, k: nat)
    requires k < |ids|
    ensures |NumberedDevices(ids, context, startId)| == |ids|
    ensures NumberedDevices(ids, context, startId)[k] == MakeDevice(ids[k], context, (startId + k) % U32)
  {
    var n := |ids| - 1;
    if k < n {
      NumberedDeviceAt(ids[..n], context, startId, k);
    } else if n > 0 {
      NumberedDeviceAt(ids[..n], context, startId, 0);
    } else {
      assert ids[..n] == [];
    }
  }

  /** What `platform::create` learns before it numbers the devices: the
      platform and its context, the discovered ids and the three metadata
      strings. */
  datatype Survey = Survey(
    handle: PlatformHandle,
    context: ContextHandle,
    ids: seq<DeviceHandle>,
    name: string,
    vendor: string,
    version: string)

  /** The checks of `platform::create`, in order: the device-type queries,
      the context, the empty device list, then the metadata queries. */
  function SurveyPlatform(probe: PlatformProbe): (r: Result<Survey, Error>)
    ensures AnyFatal(probe) ==> r == Failure(OpenClFailed)
    ensures probe.contextStatus != ClSuccess ==> r == Failure(OpenClFailed)
    ensures !AnyFatal(probe) && probe.contextStatus == ClSuccess && Discovered(probe) == []
            ==> r == Failure(NoDevicesForPlatform)
    ensures r.Success? <==>
              && !AnyFatal(probe)
              && probe.contextStatus == ClSuccess
              && Discovered(probe) != []
              && PlatformInfo(probe.name).Success?
              && PlatformInfo(probe.vendor).Success?
              && PlatformInfo(probe.version).Success?
    ensures r.Success? ==> r.value.ids == Discovered(probe) && r.value.ids != []
    ensures r.Success? ==> r.value.handle == probe.handle && r.value.context == probe.context
    ensures r.Success? ==>
              && r.value.name == CString(probe.name.buffer)
              && r.value.vendor == CString(probe.vendor.buffer)
              && r.value.version == CString(probe.version.buffer)
  {
    if AnyFatal(probe) then Failure(OpenClFailed)
    else if probe.contextStatus != ClSuccess then Failure(OpenClFailed)
    else
      var ids := Discovered(probe);
      if |ids| == 0 then Failure(NoDevicesForPlatform)
      else
        var name := PlatformInfo(probe.name);
        var vendor := PlatformInfo(probe.vendor);
        var version := PlatformInfo(probe.version);
        if name.Failure? then Failure(name.error)
        else if vendor.Failure? then Failure(vendor.error)
        else if version.Failure? then Failure(version.error)
        else Success(Survey(probe.handle, probe.context, ids, name.value, vendor.value, version.value))
  }

  /** The platform built from a successful survey, its devices numbered
      from `startId`. */
  function Assemble(s: Survey, startId: u32): Platform {
    Platform(s.handle, s.context, s.name, s.vendor, s.version, NumberedDevices(s.ids, s.context, startId))
  }

  /** What `platform::create(probe.handle, startId)` produces: the survey's
      error, or the platform assembled from it. */
  function Discover(probe: PlatformProbe, startId: u32): Result<Platform, Error> {
    match SurveyPlatform(probe)
    case Failure(e) => Failure(e)
    case Success(s) => Success(Assemble(s, startId))
  }

  /** A platform whose survey succeeds is created as that survey assembled. */
  lemma DiscoverOfSurvey(probe: PlatformProbe, s: Survey, startId: u32)
    requires SurveyPlatform(probe) == Success(s)
    ensures Discover(probe, startId) == Success(Assemble(s, startId))
  {
  }

  /** The devices of an assembled platform: one per surveyed id, in the
      ids' order, on the survey's context, numbered from `startId`
      modulo 2^32. */
  lemma AssembledDevices(s: Survey, startId: u32)
    ensures var devices := Assemble(s, startId).devices;
            && |devices| == |s.ids|
            && forall k :: 0 <= k < |devices| ==>
                 && devices[k].handle == s.ids[k]
                 && devices[k].context == s.context
                 && devices[k].id == (startId + k) % U32
  {
    if s.ids != [] {
      NumberedDeviceAt(s.ids, s.context, startId, 0);
    }
    forall k | 0 <= k < |s.ids|
      ensures Assemble(s, startId).devices[k] == MakeDevice(s.ids[k], s.context, (startId + k) % U32)
    {
      NumberedDeviceAt(s.ids, s.context, startId, k);
    }
  }

  /** The devices of a created platform: as many as discovered ids, at
      least one, in the ids' order, on the platform's context, numbered
      from `startId`; contiguous and increasing when the ids do not wrap. */
  lemma DiscoveredDevices(probe: PlatformProbe, startId: u32)
    requires Discover(probe, startId).Success?
    ensures var devices := Discover(probe, startId).value.devices;
            && |devices| == |Discovered(probe)| > 0
            && (forall k :: 0 <= k < |devices| ==>
                  && devices[k].handle == Discovered(probe)[k]
                  && devices[k].context == probe.context
                  && devices[k].id == (startId + k) % U32)
            && (startId + |devices| <= U32 ==>
                  forall k :: 0 <= k < |devices| ==> devices[k].id == startId + k)
  {
    AssembledDevices(SurveyPlatform(probe).value, startId);
  }

  /** The device-type loop of `platform::create`: types are queried in
      priority order and each successful query appends its ids to the
      buffer; "not found" is skipped and any other failure raises. */
  method GatherIds(probe: PlatformProbe) returns (r: Result<seq<DeviceHandle>, Error>)
    ensures r.Success? <==> !AnyFatal(probe)
    ensures r.Success? ==> r.value == Discovered(probe)
    ensures r.Failure? ==> r.error == OpenClFailed
  {
    var ids: seq<DeviceHandle> := [];
    for i := 0 to |DeviceTypes|
      invariant ids == Gathered(probe, DeviceTypes[..i])
      invariant forall j :: 0 <= j < i ==> !Fatal(probe.Query(DeviceTypes[j]))
    {
      assert DeviceTypes[..i + 1][..i] == DeviceTypes[..i];
      var known := |ids|;
      var q := probe.Query(DeviceTypes[i]);
      if q.countStatus == ClDeviceNotFound {
        continue;
      }
      var checked := ThrowCl(q.countStatus);
      if checked.Fail? {
        assert Fatal(probe.Query(DeviceTypes[i]));
        return Failure(checked.error);
      }
      if q.fillStatus != ClSuccess {
        assert Fatal(probe.Query(DeviceTypes[i]));
        return Failure(OpenClFailed);
      }
      ids := ids[..known] + q.ids;
    }
    assert DeviceTypes[..3] == DeviceTypes;
    GatheredInTypeOrder(probe);
    assert probe.Query(DeviceTypes[0]) == probe.gpu;
    assert probe.Query(DeviceTypes[1]) == probe.accelerator;
    assert probe.Query(DeviceTypes[2]) == probe.cpu;
    r := Success(ids);
  }

  /** The device loop of `platform::create`: one `push_back` per id while
      `start_id` is post-incremented. */
  method NumberDevices(ids: seq<DeviceHandle>, context: ContextHandle, startId: u32) returns (devices: seq<Device>)
    ensures devices == NumberedDevices(ids, context, startId)
  {
    devices := [];
    var nextId := startId;
    for k := 0 to |ids|
      invariant |devices| == k
      invariant nextId == (startId + k) % U32
      invariant devices == NumberedDevices(ids[..k], context, startId)
    {
      assert ids[..k + 1][..k] == ids[..k];
      devices := devices + [MakeDevice(ids[k], context, nextId)];
      nextId := (nextId + 1) % U32;
    }
    assert ids[..|ids|] == ids;
  }

  /** `platform::create`: gather ids, create the shared context, create the
      devices, reject an empty list, then read the three metadata strings. */
  method Create(probe: PlatformProbe, startId: u32) returns (r: Result<Platform, Error>)
    ensures r == Discover(probe, startId)
  {
    var ids := GatherIds(probe);
    if ids.Failure? {
      return Failure(ids.error);
    }
    if probe.contextStatus != ClSuccess {
      return Failure(OpenClFailed);
    }
    var devices := NumberDevices(ids.value, probe.context, startId);
    if devices == [] {
      return Failure(NoDevicesForPlatform);
    }
    var name := PlatformInfo(probe.name);
    if name.Failure? {
      return Failure(name.error);
    }
    var vendor := PlatformInfo(probe.vendor);
    if vendor.Failure? {
      return Failure(vendor.error);
    }
    var version := PlatformInfo(probe.version);
    if version.Failure? {
      return Failure(version.error);
    }
    r := Success(Platform(probe.handle, probe.context, name.value, vendor.value, version.value, devices));
  }
}
