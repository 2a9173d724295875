/** Programs compiled by the manager and what the OpenCL compiler answers
    while one is built: the outcome of `create_program` against a resolved
    device, with the kernel name table filled one kernel at a time. */
module Programs {
  import opened Wrappers
  import opened OpenCl
  import opened Platforms

  /** What `clGetKernelInfo(CL_KERNEL_FUNCTION_NAME)` reports for one
      kernel of the batch: the status of the name fetch and the buffer. */
  datatype KernelQuery = KernelQuery(handle: KernelHandle, nameStatus: Status, nameBuffer: seq<char>)

  /** Everything the OpenCL runtime answers while one program is created
      from a source text and options against one device. */
  datatype CompileEnv = CompileEnv(
    createStatus: Status,       // clCreateProgramWithSource
    compiled: ProgramHandle,   // the program object created
    buildStatus: Status,        // clBuildProgram
    buildLog: seq<char>,        // the build log buffer
    kernels: seq<KernelQuery>,  // the kernels the batch enumeration counts
    kernelsStatus: Status)      // the batch clCreateKernelsInProgram

  /** A compiled program: the device's context and queue, the module, and
      the kernel handles by function name. */
  datatype Program = Program(
    context: ContextHandle,
    queue: QueueHandle,
    compiled: ProgramHandle,
    kernels: map<string, KernelHandle>)

  /** What reaches the log while compiling. */
  datatype Diagnostic =
    | BuildLog(log: string)    // error: the build log of a failed build
    | KernelsNotEnumerated     // warning: the build produced no kernel list

  function KernelName(k: KernelQuery): string {
    CString(k.nameBuffer)
  }

  /** The names of all enumerated kernels. */
  function KernelNames(ks: seq<KernelQuery>): set<string> {
    set i | 0 <= i < |ks| :: KernelName(ks[i])
  }

  predicate NamesReadable(ks: seq<KernelQuery>) {
    forall i :: 0 <= i < |ks| ==> ks[i].nameStatus == ClSuccess
  }

  /** The name table after emplacing `ks` in order; `emplace` leaves an
      existing entry in place. */
  function KernelTable(ks: seq<KernelQuery>): map<string, KernelHandle> {
    if ks == [] then map[]
    else
      var table := KernelTable(ks[..|ks| - 1]);
      var k := ks[|ks| - 1];
      if KernelName(k) in table then table else table[KernelName(k) := k.handle]
  }

  /** Every enumerated kernel's name is a key, and nothing else is. */
  lemma {:induction false} KernelTableKeys(ks: seq<KernelQuery>)
    ensures KernelTable(ks).Keys == KernelNames(ks)
  {
    if ks != [] {
      var init := ks[..|ks| - 1];
      KernelTableKeys(init);
      assert KernelNames(ks) == KernelNames(init) + {KernelName(ks[|ks| - 1])} by {
        forall n | n in KernelNames(ks) ensures n in KernelNames(init) + {KernelName(ks[|ks| - 1])} {
          var i :| 0 <= i < |ks| && KernelName(ks[i]) == n;
          if i < |ks| - 1 {
            assert init[i] == ks[i];
          }
        }
        forall n | n in KernelNames(init) ensures n in KernelNames(ks) {
          var i :| 0 <= i < |init| && KernelName(init[i]) == n;
          assert ks[i] == init[i];
        }
      }
    }
  }

  /** The table maps each name to the handle of the first kernel that has
      it: later kernels with the same name do not replace it. */
  lemma {:induction false} KernelTableFirstWins(ks: seq<KernelQuery>, i: nat)
    requires i < |ks|
    requires forall j :: 0 <= j < i ==> KernelName(ks[j]) != KernelName(ks[i])
    ensures KernelName(ks[i]) in KernelTable(ks)
    ensures KernelTable(ks)[KernelName(ks[i])] == ks[i].handle
  {
    var init := ks[..|ks| - 1];
    if i == |ks| - 1 {
      KernelTableKeys(init);
      forall j | 0 <= j < |init| ensures KernelName(init[j]) != KernelName(ks[i]) {
        assert init[j] == ks[j];
      }
      assert KernelName(ks[i]) !in KernelTable(init);
    } else {
      assert init[i] == ks[i];
      KernelTableFirstWins(init, i);
    }
  }

  /** What `create_program(source, options, dev)` returns, the OpenCL
      calls answering as `env` says. */
  function Compile(dev: Device, env: CompileEnv): (r: Result<Program, Error>)
    ensures env.createStatus == ClSuccess && env.buildStatus != ClSuccess ==> r == Failure(BuildFailed)
    ensures r.Success? <==>
              && env.createStatus == ClSuccess
              && env.buildStatus == ClSuccess
              && (env.kernels != [] ==> env.kernelsStatus == ClSuccess && NamesReadable(env.kernels))
    ensures env.createStatus == ClSuccess && env.buildStatus == ClSuccess && env.kernels == []
            ==> r.Success? && r.value.kernels == map[]
    ensures env.createStatus == ClSuccess && env.buildStatus == ClSuccess && env.kernels != []
            && env.kernelsStatus == ClSuccess && !NamesReadable(env.kernels)
            ==> r == Failure(KernelInfoFailed)
    ensures r.Success? ==>
              && r.value.context == dev.context
              && r.value.queue == dev.queue
              && r.value.compiled == env.compiled
              && r.value.kernels.Keys == KernelNames(env.kernels)
  {
    if env.createStatus != ClSuccess then Failure(OpenClFailed)
    else if env.buildStatus != ClSuccess then Failure(BuildFailed)
    else if env.kernels == [] then Success(Program(dev.context, dev.queue, env.compiled, map[]))
    else if env.kernelsStatus != ClSuccess then Failure(CreateKernelsFailed)
    else if !NamesReadable(env.kernels) then Failure(KernelInfoFailed)
    else
      KernelTableKeys(env.kernels);
      Success(Program(dev.context, dev.queue, env.compiled, KernelTable(env.kernels)))
  }

  /** What `create_program(source, options, dev)` writes to the log. */
  function CompileDiagnostics(env: CompileEnv): (log: seq<Diagnostic>)
    ensures env.createStatus == ClSuccess && env.buildStatus == ClBuildProgramFailure
            ==> log == [BuildLog(CString(env.buildLog))]
    ensures |log| <= 1
    ensures KernelsNotEnumerated in log <==>
              env.createStatus == ClSuccess && env.buildStatus == ClSuccess && env.kernels == []
    ensures env.buildStatus == ClSuccess ==> forall d :: d in log ==> !d.BuildLog?
    ensures log != [] ==>
              && env.createStatus == ClSuccess
              && (env.buildStatus == ClBuildProgramFailure || (env.buildStatus == ClSuccess && env.kernels == []))
  {
    if env.createStatus != ClSuccess then []
    else if env.buildStatus != ClSuccess then
      if env.buildStatus == ClBuildProgramFailure then [BuildLog(CString(env.buildLog))] else []
    else if env.kernels == [] then [KernelsNotEnumerated]
    else []
  }
}
