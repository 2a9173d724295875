/** Vocabulary shared by the whole model: OpenCL status codes, the native
    handles the core passes around without looking inside, the errors it
    raises, and the conversion of a NUL-terminated buffer into a string. */
module OpenCl {

  /** A `cl_int` status returned by an OpenCL call. */
  type Status = int

  /** Status values from the Khronos OpenCL 1.2 headers. */
  const ClSuccess: Status := 0
  const ClDeviceNotFound: Status := -1
  const ClBuildProgramFailure: Status := -11

  /** Width of C++ `unsigned` / `cl_uint` / `uint32_t`. */
  const U32: int := 0x1_0000_0000
  type u32 = x: int | 0 <= x < U32

  /** Opaque native handles (`cl_platform_id`, `cl_device_id`, `cl_context`,
      `cl_program`, `cl_kernel`); only their identity matters here. */
  type PlatformHandle = nat
  type DeviceHandle = nat
  type ContextHandle = nat
  type ProgramHandle = nat
  type KernelHandle = nat

  /** The command queue a device object creates for itself on its context. */
  datatype QueueHandle = Queue(context: ContextHandle, device: DeviceHandle)

  /** The exceptions the core raises, one per message. */
  datatype Error =
    | NoPlatformFound          // "no OpenCL platform found"
    | NoDevicesForPlatform     // "no devices for the platform found"
    | NoDeviceFound            // "create_program: no device found"
    | PathNotFound             // "create_program_from_file: path not found"
    | BuildFailed              // "clBuildProgram failed"
    | CreateKernelsFailed      // "clCreateKernelsInProgram failed"
    | KernelInfoFailed         // "clGetKernelInfo failed"
    | OpenClFailed             // "throwcl: unrecoverable OpenCL error", whichever call failed

  /** The index of the first NUL at or after `i`, or the length. */
  function NulFrom(buffer: seq<char>, i: nat): (n: nat)
    requires i <= |buffer|
    ensures i <= n <= |buffer|
    ensures forall j :: i <= j < n ==> buffer[j] != '\0'
    ensures n < |buffer| ==> buffer[n] == '\0'
    decreases |buffer| - i
  {
    if i == |buffer| || buffer[i] == '\0' then i else NulFrom(buffer, i + 1)
  }

  /** `std::string(buffer.data())`: the characters before the first NUL.
      OpenCL answers are NUL-terminated; for a buffer without a NUL, which
      the source would read past, the model takes the whole buffer. */
  function CString(buffer: seq<char>): (s: seq<char>)
    ensures |s| <= |buffer| && s == buffer[..|s|]
    ensures '\0' !in s
    ensures |s| < |buffer| ==> buffer[|s|] == '\0'
  {
    buffer[..NulFrom(buffer, 0)]
  }
}
