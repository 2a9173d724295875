/** The manager: the ordered platforms discovered by `init`, the global
    device index over them (`find_device`, `find_device_if`), and the
    program factories (`create_program`, `create_program_from_file`). */
module Managers {
  import opened Wrappers
  import opened OpenCl
  import opened Platforms
  import opened Addressing
  import opened Programs

  /** What `clGetPlatformIDs` answers: a failure, or one probe per
      platform id, in the order the runtime lists them. */
  datatype PlatformListing = ListingFailed | Listed(probes: seq<PlatformProbe>)

  /** The platforms `init` created, and the error that stopped it, if any. */
  datatype Discovery = Discovery(created: seq<Platform>, failure: Option<Error>)

  /** The survey of every listed platform, in listing order. */
  function Surveys(probes: seq<PlatformProbe>): seq<Result<Survey, Error>> {
    seq(|probes|, i requires 0 <= i < |probes| => SurveyPlatform(probes[i]))
  }

  /** Assembling the surveyed platforms in order, each one starting its
      ids where the previous one's devices end, until a survey that
      failed. `start` counts the devices created so far; the `unsigned`
      accumulator of the source is `start % U32`. */
  function AssembleAll(surveys: seq<Result<Survey, Error>>, start: nat): (d: Discovery)
    ensures |d.created| <= |surveys|
    ensures d.failure.None? <==> |d.created| == |surveys|
    ensures d.failure.Some? ==> surveys[|d.created|] == Failure(d.failure.value)
  {
    if surveys == [] then Discovery([], None)
    else match surveys[0]
      case Failure(e) => Discovery([], Some(e))
      case Success(s) =>
        var p := Assemble(s, start % U32);
        var rest := AssembleAll(surveys[1..], start + |p.devices|);
        Discovery([p] + rest.created, rest.failure)
  }

  /** What `init`'s platform loop creates from the listed platforms,
      starting from `start` devices. */
  function DiscoverAll(probes: seq<PlatformProbe>, start: nat): Discovery {
    AssembleAll(Surveys(probes), start)
  }

  /** How `init` ends: normally, or with the error that stopped it. */
  function Verdict(d: Discovery): Outcome<Error> {
    if d.failure.None? then Pass else Fail(d.failure.value)
  }

  /** The platforms `prefix`, followed by those of a later discovery. */
  function Join(prefix: seq<Platform>, d: Discovery): Discovery {
    Discovery(prefix + d.created, d.failure)
  }

  /** Discovery creates the first platform as `platform::create` does, then
      continues with the rest from where its devices end, or stops with
      its error. */
  lemma DiscoverAllFirst(probes: seq<PlatformProbe>, start: nat)
    requires probes != []
    ensures Discover(probes[0], start % U32).Failure? ==>
              DiscoverAll(probes, start) == Discovery([], Some(Discover(probes[0], start % U32).error))
    ensures Discover(probes[0], start % U32).Success? ==>
              var p := Discover(probes[0], start % U32).value;
              DiscoverAll(probes, start) == Join([p], DiscoverAll(probes[1..], start + |p.devices|))
  {
    assert Surveys(probes)[0] == SurveyPlatform(probes[0]);
    assert Surveys(probes)[1..] == Surveys(probes[1..]);
  }

  /** Adding to a wrapped `unsigned` value wraps the same way as adding to
      the unwrapped one. */
  lemma ModAdd(a: nat, b: nat)
    ensures ((a % U32) + b) % U32 == (a + b) % U32
  {
    var q := a / U32;
    assert a == q * U32 + a % U32;
    assert a + b == q * U32 + ((a % U32) + b);
  }

  /** Taking one more platform extends the prefix by that platform and its
      start id by its device count, with `unsigned` wrap-around. */
  lemma OffsetAppend(cs: seq<Platform>, k: nat)
    requires k < |cs|
    ensures cs[..k + 1] == cs[..k] + [cs[k]]
    ensures Offset(cs, k + 1) % U32 == (Offset(cs, k) % U32 + |cs[k].devices|) % U32
  {
    OffsetStep(cs, k);
    ModAdd(Offset(cs, k), |cs[k].devices|);
  }

  /** The k-th platform is assembled from the k-th survey with start id
      equal to the number of devices of platforms 0..k-1 (modulo 2^32). */
  lemma {:induction false} AssembleAllStartIds(surveys: seq<Result<Survey, Error>>, start: nat, k: nat)
    requires k < |AssembleAll(surveys, start).created|
    ensures var cs := AssembleAll(surveys, start).created;
            surveys[k].Success? && Assemble(surveys[k].value, (start + Offset(cs, k)) % U32) == cs[k]
  {
    var cs := AssembleAll(surveys, start).created;
    var p := Assemble(surveys[0].value, start % U32);
    var next := start + |p.devices|;
    var rest := AssembleAll(surveys[1..], next).created;
    assert cs == [p] + rest;
    if k == 0 {
      assert cs[..0] == [];
    } else {
      AssembleAllStartIds(surveys[1..], next, k - 1);
      OffsetCons(p, rest, k);
      assert next + Offset(rest, k - 1) == start + Offset(cs, k);
      assert surveys[1..][k - 1] == surveys[k] && rest[k - 1] == cs[k];
    }
  }

  /** `init` creates the k-th platform with `platform::create`, its start
      id being the number of devices created before it (modulo 2^32). */
  lemma DiscoverAllStartIds(probes: seq<PlatformProbe>, start: nat, k: nat)
    requires k < |DiscoverAll(probes, start).created|
    ensures var cs := DiscoverAll(probes, start).created;
            Discover(probes[k], (start + Offset(cs, k)) % U32) == Success(cs[k])
  {
    var surveys := Surveys(probes);
    var cs := AssembleAll(surveys, start).created;
    AssembleAllStartIds(surveys, start, k);
    assert surveys[k] == SurveyPlatform(probes[k]);
    DiscoverOfSurvey(probes[k], surveys[k].value, (start + Offset(cs, k)) % U32);
  }

  /** What `platform::create` returns for platform k when it is given the
      number of devices created before it: the k-th created platform, or,
      right after the last created one, the error that stops `init`. */
  lemma CreatedAt(probes: seq<PlatformProbe>, k: nat, p: Result<Platform, Error>)
    requires k < |probes| && k <= |DiscoverAll(probes, 0).created|
    requires p == Discover(probes[k], Offset(DiscoverAll(probes, 0).created, k) % U32)
    ensures var d := DiscoverAll(probes, 0);
            && (p.Success? <==> k < |d.created|)
            && (p.Success? ==> p.value == d.created[k])
            && (p.Failure? ==> d.failure == Some(p.error))
  {
    var d := DiscoverAll(probes, 0);
    assert Surveys(probes)[k] == SurveyPlatform(probes[k]);
    if k < |d.created| {
      DiscoverAllStartIds(probes, 0, k);
    }
  }

  /** The devices of the assembled platforms carry consecutive ids: the
      device at flat position i has id `start + i` (modulo 2^32). */
  lemma {:induction false} AssembleAllNumbered(surveys: seq<Result<Survey, Error>>, start: nat, i: nat)
    requires i < Total(AssembleAll(surveys, start).created)
    ensures AllDevices(AssembleAll(surveys, start).created)[i].id == (start + i) % U32
  {
    var p := Assemble(surveys[0].value, start % U32);
    var rest := AssembleAll(surveys[1..], start + |p.devices|).created;
    var cs := AssembleAll(surveys, start).created;
    assert cs == [p] + rest;
    assert cs[1..] == rest;
    assert AllDevices(cs) == p.devices + AllDevices(rest);
    if i < |p.devices| {
      AssembledDevices(surveys[0].value, start % U32);
      ModAdd(start, i);
    } else {
      AssembleAllNumbered(surveys[1..], start + |p.devices|, i - |p.devices|);
    }
  }

  /** Every device's id is its global index (modulo 2^32). */
  ghost predicate Numbered(ps: seq<Platform>) {
    forall i :: 0 <= i < Total(ps) ==> AllDevices(ps)[i].id == i % U32
  }

  class Manager {
    /** `platforms_`: the platforms in discovery order. */
    var platforms: seq<Platform>

    constructor ()
      ensures platforms == []
    {
      platforms := [];
    }

    /** `find_device(dev_id)`: walk the platforms keeping the running range
        `[from, to)`, and answer from the platform whose range holds
        `devId`. It only reads the platforms. */
    method FindDevice(devId: nat := 0) returns (r: Option<Device>)
      ensures platforms == [] ==> r == None
      ensures devId >= Total(platforms) ==> r == None
      ensures forall k :: 0 <= k < |platforms| && Offset(platforms, k) <= devId < Offset(platforms, k) + |platforms[k].devices| ==>
                r == Some(platforms[k].devices[devId - Offset(platforms, k)])
      ensures r == Lookup(platforms, devId)
      ensures Numbered(platforms) && r.Some? ==> r.value.id == devId % U32
    {
      if platforms == [] {
        return None;
      }
      var to := 0;
      for k := 0 to |platforms|
        invariant to == Offset(platforms, k)
        invariant devId >= to
      {
        OffsetStep(platforms, k);
        var from := to;
        to := to + |platforms[k].devices|;
        if from <= devId < to {
          LocalPosition(platforms, k, devId);
          forall k' | 0 <= k' < |platforms| && Offset(platforms, k') <= devId < Offset(platforms, k') + |platforms[k'].devices|
            ensures k' == k
          {
            OffsetStep(platforms, k');
            RangesDisjoint(platforms, k, k', devId);
          }
          return Some(platforms[k].devices[devId - from]);
        }
      }
      OffsetStep(platforms, 0);
      forall k | 0 <= k < |platforms| ensures !(Offset(platforms, k) <= devId < Offset(platforms, k) + |platforms[k].devices|) {
        OffsetStep(platforms, k);
        OffsetMonotone(platforms, k + 1, |platforms|);
      }
      r := None;
    }

    /** `find_device_if(pred)`: the first device, in platform order and then
        device order, satisfying `pred`. */
    function FindDeviceIf(pred: Device -> bool): (r: Option<Device>)
      reads this
      ensures platforms == [] ==> r == None
      ensures r.Some? ==> pred(r.value)
      ensures r.None? <==> forall i :: 0 <= i < Total(platforms) ==> !pred(AllDevices(platforms)[i])
      ensures r.Some? ==> exists i :: 0 <= i < Total(platforms) && AllDevices(platforms)[i] == r.value
                                      && forall j :: 0 <= j < i ==> !pred(AllDevices(platforms)[j])
    {
      assert Total(platforms) == |AllDevices(platforms)|;
      FindIf(platforms, pred)
    }

    /** `init`: list the platform ids, fail when there are none, then create
        and append the platforms. */
    method Init(listing: PlatformListing) returns (r: Outcome<Error>)
      modifies this
      ensures listing.ListingFailed? ==> r == Fail(OpenClFailed) && platforms == old(platforms)
      ensures listing.Listed? && listing.probes == [] ==> r == Fail(NoPlatformFound) && platforms == old(platforms)
      ensures listing.Listed? && listing.probes != [] ==>
                var d := DiscoverAll(listing.probes, 0);
                platforms == old(platforms) + d.created && r == Verdict(d)
      ensures old(platforms) == [] ==> Numbered(platforms)
    {
      if listing.ListingFailed? {
        return Fail(OpenClFailed);
      }
      if listing.probes == [] {
        return Fail(NoPlatformFound);
      }
      ghost var before := platforms;
      r := CreatePlatforms(listing.probes);
      NumberedAfterInit(before, listing.probes);
    }

    /** The platform loop of `init`: each platform is created with the
        running device count as its start id and appended at once, so a
        platform that fails to be created stops the loop with its error
        after the platforms before it have been appended. */
    method CreatePlatforms(probes: seq<PlatformProbe>) returns (r: Outcome<Error>)
      modifies this
      ensures platforms == old(platforms) + DiscoverAll(probes, 0).created
      ensures r == Verdict(DiscoverAll(probes, 0))
    {
      ghost var d := DiscoverAll(probes, 0);
      var currentDeviceId: u32 := 0;
      for k := 0 to |probes|
        invariant k <= |d.created|
        invariant platforms == old(platforms) + d.created[..k]
        invariant currentDeviceId == Offset(d.created, k) % U32
      {
        var p := Platforms.Create(probes[k], currentDeviceId);
        CreatedAt(probes, k, p);
        if p.Failure? {
          return Fail(p.error);
        }
        OffsetAppend(d.created, k);
        platforms := platforms + [p.value];
        currentDeviceId := (currentDeviceId + |p.value.devices|) % U32;
      }
      assert d.created[..|probes|] == d.created;
      r := Pass;
    }

    /** `create_program(source, options, dev)`: create and build the
        program; on a build failure log the build log and raise; otherwise
        fill the kernel table one kernel at a time, raising on the first
        kernel whose name cannot be read, or warn when no kernel was
        enumerated. It only reads the manager. */
    method CreateProgramOn(env: CompileEnv, source: string, options: Option<string>, dev: Device)
      returns (r: Result<Program, Error>, log: seq<Diagnostic>)
      ensures r == Compile(dev, env) && log == CompileDiagnostics(env)
      ensures BuildLog(CString(env.buildLog)) in log ==> r == Failure(BuildFailed)
      ensures KernelsNotEnumerated in log ==> r.Success? && r.value.kernels == map[]
      ensures r.Success? ==>
                forall i :: 0 <= i < |env.kernels| && (forall j :: 0 <= j < i ==> KernelName(env.kernels[j]) != KernelName(env.kernels[i]))
                  ==> KernelName(env.kernels[i]) in r.value.kernels
                      && r.value.kernels[KernelName(env.kernels[i])] == env.kernels[i].handle
    {
      log := [];
      if env.createStatus != ClSuccess {
        return Failure(OpenClFailed), log;
      }
      if env.buildStatus != ClSuccess {
        if env.buildStatus == ClBuildProgramFailure {
          log := log + [BuildLog(CString(env.buildLog))];
        }
        return Failure(BuildFailed), log;
      }
      var kernels := env.kernels;
      var available: map<string, KernelHandle> := map[];
      if |kernels| > 0 {
        if env.kernelsStatus != ClSuccess {
          return Failure(CreateKernelsFailed), log;
        }
        var table := FillKernelTable(kernels);
        if table.Failure? {
          return Failure(table.error), log;
        }
        available := table.value;
      } else {
        log := log + [KernelsNotEnumerated];
      }
      r := Success(Program(dev.context, dev.queue, env.compiled, available));
      forall i | 0 <= i < |kernels| && (forall j :: 0 <= j < i ==> KernelName(kernels[j]) != KernelName(kernels[i]))
        ensures KernelName(kernels[i]) in r.value.kernels && r.value.kernels[KernelName(kernels[i])] == kernels[i].handle
      {
        KernelTableFirstWins(kernels, i);
      }
    }

    /** The kernel loop of `create_program`: read each kernel's name and
        emplace it, aborting on the first name that cannot be read. */
    method FillKernelTable(kernels: seq<KernelQuery>) returns (r: Result<map<string, KernelHandle>, Error>)
      ensures r.Success? <==> NamesReadable(kernels)
      ensures r.Failure? ==> r.error == KernelInfoFailed
      ensures r.Success? ==> r.value == KernelTable(kernels)
    {
      var available: map<string, KernelHandle> := map[];
      for i := 0 to |kernels|
        invariant available == KernelTable(kernels[..i])
        invariant NamesReadable(kernels[..i])
      {
        assert kernels[..i + 1][..i] == kernels[..i];
        if kernels[i].nameStatus != ClSuccess {
          return Failure(KernelInfoFailed);
        }
        var name := CString(kernels[i].nameBuffer);
        if name !in available {
          available := available[name := kernels[i].handle];
        }
      }
      assert kernels[..|kernels|] == kernels;
      r := Success(available);
    }

    /** `create_program(source, options, device_id)`: resolve the device
        by global index and delegate, or raise "no device found". */
    method CreateProgram(env: CompileEnv, source: string, options: Option<string> := None, deviceId: u32 := 0)
      returns (r: Result<Program, Error>, log: seq<Diagnostic>)
      ensures Lookup(platforms, deviceId).None? ==> r == Failure(NoDeviceFound) && log == []
      ensures Lookup(platforms, deviceId).Some? ==>
                r == Compile(Lookup(platforms, deviceId).value, env) && log == CompileDiagnostics(env)
    {
      var dev := FindDevice(deviceId);
      if dev.None? {
        return Failure(NoDeviceFound), [];
      }
      r, log := CreateProgramOn(env, source, options, dev.value);
    }

    /** `create_program_from_file(path, options, device_id)`: `file` is the
        file's content, or none when it cannot be opened, which raises
        before the device is resolved or anything is compiled. */
    method CreateProgramFromFile(env: CompileEnv, file: Option<string>, options: Option<string> := None, deviceId: u32 := 0)
      returns (r: Result<Program, Error>, log: seq<Diagnostic>)
      ensures file.None? ==> r == Failure(PathNotFound) && log == []
      ensures file.Some? && Lookup(platforms, deviceId).None? ==> r == Failure(NoDeviceFound) && log == []
      ensures file.Some? && Lookup(platforms, deviceId).Some? ==>
                r == Compile(Lookup(platforms, deviceId).value, env) && log == CompileDiagnostics(env)
    {
      if file.None? {
        return Failure(PathNotFound), [];
      }
      r, log := CreateProgram(env, file.value, options, deviceId);
    }

    /** `create_program_from_file(path, options, dev)`. */
    method CreateProgramFromFileOn(env: CompileEnv, file: Option<string>, options: Option<string>, dev: Device)
      returns (r: Result<Program, Error>, log: seq<Diagnostic>)
      ensures file.None? ==> r == Failure(PathNotFound) && log == []
      ensures file.Some? ==> r == Compile(dev, env) && log == CompileDiagnostics(env)
    {
      if file.None? {
        return Failure(PathNotFound), [];
      }
      r, log := CreateProgramOn(env, file.value, options, dev);
    }
  }

  /** Whatever `init` created on an empty manager is numbered by global
      index. */
  lemma NumberedAfterInit(before: seq<Platform>, probes: seq<PlatformProbe>)
    ensures before == [] ==> Numbered(before + DiscoverAll(probes, 0).created)
  {
    if before == [] {
      AssembledNumbered(Surveys(probes));
      assert before + DiscoverAll(probes, 0).created == DiscoverAll(probes, 0).created;
    }
  }

  /** Assembling any surveys from device count 0 numbers every device by
      its global index. */
  lemma AssembledNumbered(surveys: seq<Result<Survey, Error>>)
    ensures Numbered(AssembleAll(surveys, 0).created)
  {
    var cs := AssembleAll(surveys, 0).created;
    forall i | 0 <= i < Total(cs)
      ensures AllDevices(cs)[i].id == i % U32
    {
      AssembleAllNumbered(surveys, 0, i);
    }
  }
}
