/** The public types of the injector library: how the runtime loads its
    settings, the injection flags, the result codes and the argument record
    of the one entry point that starts the game. */
module InjectorApi {
  import opened Wrappers

  /** A Win32 DWORD (unsigned 32-bit). */
  type DWord = x: int | 0 <= x < 0x1_0000_0000

  /** A byte of data sent over the pipe. */
  type Byte = x: int | 0 <= x < 0x100

  /** How the game runtime obtains its settings: the data is a settings file
      path, or the settings JSON itself. */
  datatype LoadType = FilePath | Data

  /** The C enumerator value of each load type (the header declares exactly
      these two, in this order). */
  function LoadTypeValue(t: LoadType): (v: DWord)
    ensures v < 2
    ensures t == FilePath <==> v == 0
  {
    match t
    case FilePath => 0
    case Data => 1
  }

  /** Injection flags are a bit set in a C int. */
  type Flags = bv32

  const FlagNone: Flags := 0
  /** Set the game process priority to high. */
  const FlagHighProcPrio: Flags := 1
  /** Keep the game elevated when the caller is elevated. */
  const FlagRunAsAdmin: Flags := 2

  predicate HasFlag(flags: Flags, flag: Flags) { flags & flag != 0 }

  /** The two flags are distinct single bits: setting one never sets or
      clears the other, and no flag is set in FlagNone. */
  lemma FlagsIndependent(f: Flags)
    ensures HasFlag(f | FlagHighProcPrio, FlagRunAsAdmin) == HasFlag(f, FlagRunAsAdmin)
    ensures HasFlag(f | FlagRunAsAdmin, FlagHighProcPrio) == HasFlag(f, FlagHighProcPrio)
    ensures !HasFlag(FlagNone, FlagHighProcPrio) && !HasFlag(FlagNone, FlagRunAsAdmin)
  {
    assert (f | 1) & 2 == f & 2;
    assert (f | 2) & 1 == f & 1;
  }

  /** Or-ing a flag in sets it, and doing it twice is the same as once. */
  lemma SetFlagIdempotent(f: Flags, flag: Flags)
    requires flag == FlagHighProcPrio || flag == FlagRunAsAdmin
    ensures HasFlag(f | flag, flag)
    ensures (f | flag) | flag == f | flag
  {
  }

  /** The outcome of a launch. This is the set of codes that the library and
      the front end use: the pipe codes (create, connect, write) take the
      place of the header's file-mapping codes. */
  datatype ResultCode =
    | Ok
    | GetTokenInfo
    | OpenToken
    | DuplicateToken
    | SetTokenInfo
    | CreateProcess
    | MemAlloc
    | MemWrite
    | SecDesc
    | CreatePipe
    | CreateThread
    | ConnectPipe
    | WritePipe
    | ThreadWait
    | DllLoad
    | ResumeThread

  /** The numeric value the header declares for a code; the three pipe codes
      are not declared there, so they have none. */
  function HeaderValue(r: ResultCode): (v: Option<nat>)
    ensures v.Some? ==> v.value <= 14
    ensures v == Some(0) <==> r == Ok
    ensures v.None? <==> r in {CreatePipe, ConnectPipe, WritePipe}
  {
    match r
    case Ok => Some(0)
    case GetTokenInfo => Some(1)
    case OpenToken => Some(2)
    case DuplicateToken => Some(3)
    case SetTokenInfo => Some(4)
    case CreateProcess => Some(5)
    case MemAlloc => Some(6)
    case MemWrite => Some(7)
    case SecDesc => Some(8)
    case CreatePipe => None
    case ConnectPipe => None
    case WritePipe => None
    case CreateThread => Some(11)
    case ThreadWait => Some(12)
    case DllLoad => Some(13)
    case ResumeThread => Some(14)
  }

  /** Distinct declared codes have distinct values. */
  lemma HeaderValueInjective(r1: ResultCode, r2: ResultCode)
    requires HeaderValue(r1).Some? && HeaderValue(r1) == HeaderValue(r2)
    ensures r1 == r2
  {
  }

  /** The input half of the argument record. Paths are wide strings; a null
      current directory is None; the data is the byte buffer of size
      dataSize. */
  datatype GameArgs = GameArgs(
    exePath: seq<char>,
    currentDir: Option<seq<char>>,
    dllPath: seq<char>,
    loadType: LoadType,
    argv: seq<seq<char>>,
    flags: Flags,
    dataSize: DWord,
    data: seq<Byte>)

  /** The record is well formed when data holds exactly dataSize bytes. */
  predicate WellFormed(a: GameArgs) { |a.data| == a.dataSize }

  /** The output half of the argument record. */
  datatype LaunchResult = LaunchResult(result: ResultCode, win32Error: DWord)
}
