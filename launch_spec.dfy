/** What one call of the library's launch entry point does, as a function of
    its arguments and of the answers the operating system gives. Each Win32
    call is an abstract step that succeeds or fails with an error code (the
    `World`); what the call does is recorded as an `Event`. The function
    `Launch` gives the result code, the Win32 error and the sequence of
    events, including the cleanup that the scope guards perform on the way
    out of every return. */
module LaunchSpec {
  import opened Wrappers
  import opened InjectorApi
  import CommandLine

  const ErrorInsufficientBuffer: DWord := 122
  const ErrorPipeConnected: DWord := 535
  const ErrorTimeout: DWord := 1460
  /** Size of the pipe header: a 4-byte enum followed by a 32-bit size. */
  const HeaderSize: nat := 8
  const Nul: char := '\0'

  /** The answer to one fallible OS call. */
  datatype Step = Succeeds | Fails(err: DWord)

  /** WaitForSingleObject on the loader thread, with its 3000 ms timeout. */
  datatype WaitOutcome = Signaled | TimedOut | WaitFailed(err: DWord)

  /** GetExitCodeThread on the loader thread. */
  datatype ExitQuery = ExitCode(code: DWord) | QueryFailed(err: DWord)

  type Pos = n: nat | 0 < n witness 1

  /** One WriteFile of payload data: it accepts at most `limit` bytes of what
      is asked, or fails. */
  datatype Chunk = Accepts(limit: Pos) | Refused(err: DWord)

  /** Every answer the operating system gives during one launch, in the
      order the calls are made. When `dataWrites` runs out, each further
      write accepts everything it is given. */
  datatype World = World(
    elevationQuery: Step, elevated: bool,
    openToken: Step, duplicateToken: Step, lowerIntegrity: Step,
    createProcess: Step,
    alloc: Step, writeMemory: Step,
    userSizeQuery: Step, userQuery: Step, securityDescriptor: Step,
    createPipe: Step, createThread: Step, connectPipe: Step,
    headerWrite: Step, dataWrites: seq<Chunk>,
    wait: WaitOutcome, exitQuery: ExitQuery, resume: Step)

  /** The kernel objects the launch holds handles to. */
  datatype Kind = ProcessToken | LoweredToken | GameProcess | GameThread | PipeHandle | LoaderThread

  datatype Event =
    | Opened(kind: Kind)
    | Closed(kind: Kind)
    | LoweredIntegrity
    | CreatedSuspended(commandLine: seq<char>, asLoweredToken: bool, highPriority: bool, currentDir: Option<seq<char>>)
    | AllocatedRemote(size: nat)
    | WroteRemote(text: seq<char>)
    | FreedRemote
    | CreatedPipe(restricted: bool, bufferSize: DWord)
    | StartedLoader
    | ConnectedPipe
    | Sent(bytes: seq<Byte>)
    | KilledLoader
    | LoaderExited(code: DWord)
    | ResumedMain
    | TerminatedGame

  datatype Run = Run(result: ResultCode, win32Error: DWord, events: seq<Event>)

  function Prepend(ev: seq<Event>, r: Run): Run
  {
    Run(r.result, r.win32Error, ev + r.events)
  }

  /** The condition for running the game with a lowered token and for
      restricting the pipe: the caller is elevated and did not ask to keep
      the game elevated. */
  predicate Reduced(elevated: bool, flags: Flags)
  {
    elevated && !HasFlag(flags, FlagRunAsAdmin)
  }

  /** The pipe's buffer size: header plus data, computed in a DWORD. */
  function BufferSize(dataSize: DWord): DWord
  {
    (HeaderSize + dataSize) % 0x1_0000_0000
  }

  // ---------------------------------------------------------------------
  // Wire format of the handshake

  /** A DWORD as it lies in memory, least significant byte first. */
  function LE32(x: DWord): (b: seq<Byte>)
    ensures |b| == 4
  {
    var q1 := x / 0x100;
    var q2 := q1 / 0x100;
    var q3 := q2 / 0x100;
    [x % 0x100, q1 % 0x100, q2 % 0x100, q3]
  }

  function DecodeLE32(b: seq<Byte>): DWord
    requires |b| == 4
  {
    b[0] as int + 0x100 * (b[1] as int + 0x100 * (b[2] as int + 0x100 * b[3] as int))
  }

  lemma LE32RoundTrip(x: DWord)
    ensures DecodeLE32(LE32(x)) == x
  {
    var q1 := x / 0x100;
    var q2 := q1 / 0x100;
    var q3 := q2 / 0x100;
    assert q3 < 0x100;
  }

  /** The header {type, size} as it lies in memory (little-endian). */
  function EncodeHeader(t: LoadType, size: DWord): (b: seq<Byte>)
    ensures |b| == HeaderSize
  {
    LE32(LoadTypeValue(t)) + LE32(size)
  }

  /** What the runtime reads from the pipe: a header, then exactly the
      number of bytes the header announces. */
  function Receive(wire: seq<Byte>): Option<(LoadType, seq<Byte>)>
  {
    if |wire| < HeaderSize then None
    else
      var t, size := DecodeLE32(wire[..4]), DecodeLE32(wire[4..8]);
      if t > 1 || |wire| != HeaderSize + size then None
      else Some((if t == 0 then FilePath else Data, wire[HeaderSize..]))
  }

  /** A header followed by the data it announces reads back as the same
      load type and data. */
  lemma ReceiveEncoded(t: LoadType, data: seq<Byte>)
    requires |data| < 0x1_0000_0000
    ensures Receive(EncodeHeader(t, |data|) + data) == Some((t, data))
  {
    var wire := EncodeHeader(t, |data|) + data;
    assert wire[..4] == LE32(LoadTypeValue(t));
    assert wire[4..8] == LE32(|data|);
    LE32RoundTrip(LoadTypeValue(t));
    LE32RoundTrip(|data|);
    assert wire[HeaderSize..] == data;
  }

  /** The bytes that went down the pipe, in order. */
  function Wire(ev: seq<Event>): seq<Byte>
  {
    if ev == [] then [] else (if ev[0].Sent? then ev[0].bytes else []) + Wire(ev[1..])
  }

  lemma {:induction false} WireAppend(a: seq<Event>, b: seq<Event>)
    ensures Wire(a + b) == Wire(a) + Wire(b)
  {
    if a != [] {
      assert (a + b)[0] == a[0];
      assert (a + b)[1..] == a[1..] + b;
      WireAppend(a[1..], b);
    } else {
      assert a + b == b;
    }
  }

  lemma {:induction false} WireWithoutSends(ev: seq<Event>)
    requires forall i :: 0 <= i < |ev| ==> !ev[i].Sent?
    ensures Wire(ev) == []
  {
    if ev != [] {
      WireWithoutSends(ev[1..]);
    }
  }

  // ---------------------------------------------------------------------
  // The launch, stage by stage

  /** The cleanup of every return after the game process exists: the scope
      guards run in reverse order of declaration (loader thread handle, pipe,
      remote memory, main thread handle, then the process guard, which
      terminates the game unless success was committed, and closes it). */
  function Unwind(loaderOpen: bool, pipeOpen: bool, memLive: bool, committed: bool): seq<Event>
  {
    (if loaderOpen then [Closed(LoaderThread)] else [])
    + (if pipeOpen then [Closed(PipeHandle)] else [])
    + (if memLive then [FreedRemote] else [])
    + [Closed(GameThread)]
    + (if committed then [] else [TerminatedGame])
    + [Closed(GameProcess)]
  }

  datatype Stage = Stop(run: Run) | Go(events: seq<Event>)

  /** Creating the suspended game, either with a copy of the caller's token
      lowered to medium integrity or as the caller. */
  function CreateStage(a: GameArgs, w: World, reduced: bool, cmd: seq<char>, high: bool): Stage
  {
    var created := [CreatedSuspended(cmd, reduced, high, a.currentDir), Opened(GameProcess), Opened(GameThread)];
    if reduced then
      if w.openToken.Fails? then Stop(Run(OpenToken, w.openToken.err, []))
      else if w.duplicateToken.Fails? then
        Stop(Run(DuplicateToken, w.duplicateToken.err, [Opened(ProcessToken), Closed(ProcessToken)]))
      else
        var tokens := [Opened(ProcessToken), Opened(LoweredToken), Closed(ProcessToken)];
        if w.lowerIntegrity.Fails? then
          Stop(Run(SetTokenInfo, w.lowerIntegrity.err, tokens + [Closed(LoweredToken)]))
        else if w.createProcess.Fails? then
          Stop(Run(CreateProcess, w.createProcess.err, tokens + [LoweredIntegrity, Closed(LoweredToken)]))
        else Go(tokens + [LoweredIntegrity] + created + [Closed(LoweredToken)])
    else if w.createProcess.Fails? then Stop(Run(CreateProcess, w.createProcess.err, []))
    else Go(created)
  }

  /** The failure, if any, of the steps that prepare the restricted pipe's
      security descriptor. The first user query is expected to fail with
      ERROR_INSUFFICIENT_BUFFER. */
  function SecurityFailure(w: World, reduced: bool): Option<(ResultCode, DWord)>
  {
    if !reduced then None
    else if w.userSizeQuery.Fails? && w.userSizeQuery.err != ErrorInsufficientBuffer then
      Some((GetTokenInfo, w.userSizeQuery.err))
    else if w.userQuery.Fails? then Some((GetTokenInfo, w.userQuery.err))
    else if w.securityDescriptor.Fails? then Some((SecDesc, w.securityDescriptor.err))
    else None
  }

  /** Everything after the game process exists. */
  function AfterCreate(a: GameArgs, w: World, reduced: bool): Run
    requires WellFormed(a)
  {
    var size := (|a.dllPath| + 1) * 2;
    if w.alloc.Fails? then Run(MemAlloc, w.alloc.err, Unwind(false, false, false, false))
    else if w.writeMemory.Fails? then
      Run(MemWrite, w.writeMemory.err, [AllocatedRemote(size)] + Unwind(false, false, true, false))
    else
      var injected := [AllocatedRemote(size), WroteRemote(a.dllPath + [Nul])];
      var sec := SecurityFailure(w, reduced);
      if sec.Some? then Run(sec.value.0, sec.value.1, injected + Unwind(false, false, true, false))
      else if w.createPipe.Fails? then
        Run(CreatePipe, w.createPipe.err, injected + Unwind(false, false, true, false))
      else
        var piped := injected + [CreatedPipe(reduced, BufferSize(a.dataSize)), Opened(PipeHandle)];
        if w.createThread.Fails? then
          Run(CreateThread, w.createThread.err, piped + Unwind(false, true, true, false))
        else Prepend(piped + [StartedLoader, Opened(LoaderThread)], Handshake(a, w))
  }

  /** The result of the data-writing loop: the writes made and the error of
      the one that failed, if any. */
  datatype Transfer = Transfer(events: seq<Event>, failure: Option<DWord>)

  function Min(x: nat, y: nat): nat { if x < y then x else y }

  /** The answer of the next WriteFile call, given how many bytes remain:
      the next chunk, or acceptance of everything once they run out. */
  function NextAnswer(chunks: seq<Chunk>, remaining: Pos): Chunk
  {
    if chunks == [] then Accepts(remaining) else chunks[0]
  }

  function LaterAnswers(chunks: seq<Chunk>): seq<Chunk>
  {
    if chunks == [] then [] else chunks[1..]
  }

  /** The data-writing loop from byte `next` on: each write is asked for all
      remaining bytes and moves on by the number it accepted. */
  function SendData(data: seq<Byte>, next: nat, chunks: seq<Chunk>): (t: Transfer)
    requires next <= |data|
    decreases |data| - next
  {
    if next == |data| then Transfer([], None)
    else
      var c := NextAnswer(chunks, |data| - next);
      if c.Refused? then Transfer([], Some(c.err))
      else
        var n := Min(c.limit, |data| - next);
        var t := SendData(data, next + n, LaterAnswers(chunks));
        Transfer([Sent(data[next..next + n])] + t.events, t.failure)
  }

  /** Every event is a write to the pipe. */
  predicate OnlySends(ev: seq<Event>)
  {
    forall i :: 0 <= i < |ev| ==> ev[i].Sent?
  }

  lemma SendCons(bytes: seq<Byte>, ev: seq<Event>)
    requires OnlySends(ev)
    ensures OnlySends([Sent(bytes)] + ev)
    ensures Wire([Sent(bytes)] + ev) == bytes + Wire(ev)
  {
    var e := [Sent(bytes)] + ev;
    assert e[0] == Sent(bytes) && e[1..] == ev;
  }

  lemma PrefixCons(b: seq<Byte>, x: seq<Byte>, y: seq<Byte>)
    requires x <= y
    ensures b + x <= b + y
  {
    assert (b + y)[..|b + x|] == b + x;
  }

  /** The data loop only writes to the pipe, what it writes is always a
      prefix of the data still to send, and all of it when no write fails. */
  lemma {:induction false} SendDataFacts(data: seq<Byte>, next: nat, chunks: seq<Chunk>)
    requires next <= |data|
    ensures var t := SendData(data, next, chunks);
      && OnlySends(t.events)
      && (t.failure.None? ==> Wire(t.events) == data[next..])
      && Wire(t.events) <= data[next..]
    decreases |data| - next
  {
    if next < |data| {
      var c := NextAnswer(chunks, |data| - next);
      if c.Accepts? {
        var n := Min(c.limit, |data| - next);
        var t := SendData(data, next + n, LaterAnswers(chunks));
        SendDataFacts(data, next + n, LaterAnswers(chunks));
        var chunk := data[next..next + n];
        SendCons(chunk, t.events);
        assert data[next..] == chunk + data[next + n..];
        PrefixCons(chunk, Wire(t.events), data[next + n..]);
      }
    }
  }

  /** Waiting for the runtime to connect, then sending the header and the
      data. */
  function Handshake(a: GameArgs, w: World): Run
    requires WellFormed(a)
  {
    if w.connectPipe.Fails? && w.connectPipe.err != ErrorPipeConnected then
      Run(ConnectPipe, w.connectPipe.err, Unwind(true, true, true, false))
    else if w.headerWrite.Fails? then
      Run(WritePipe, w.headerWrite.err, [ConnectedPipe] + Unwind(true, true, true, false))
    else
      var sent := [ConnectedPipe, Sent(EncodeHeader(a.loadType, a.dataSize))];
      var t := SendData(a.data, 0, w.dataWrites);
      if t.failure.Some? then
        Run(WritePipe, t.failure.value, sent + t.events + Unwind(true, true, true, false))
      else Prepend(sent + t.events + [Closed(PipeHandle)], Gate(w))
  }

  /** The loader's exit code as the library sees it: 0 when it could not be
      read. */
  function LoaderCode(q: ExitQuery): DWord
  {
    if q.ExitCode? then q.code else 0
  }

  /** Waiting for the loader thread, reading its exit code, releasing the
      remote memory and, only on a non-zero exit code, resuming the game. A
      failed or timed-out wait is reported as a pipe write failure. */
  function Gate(w: World): Run
  {
    match w.wait
    case TimedOut => Run(WritePipe, ErrorTimeout, [KilledLoader] + Unwind(true, false, true, false))
    case WaitFailed(e) => Run(WritePipe, e, [KilledLoader] + Unwind(true, false, true, false))
    case Signaled =>
      var code := LoaderCode(w.exitQuery);
      var err := if w.exitQuery.ExitCode? then 0 else w.exitQuery.err;
      var finished := [LoaderExited(code), Closed(LoaderThread), FreedRemote];
      if code == 0 then Run(DllLoad, err, finished + Unwind(false, false, false, false))
      else if w.resume.Fails? then
        Run(ResumeThread, w.resume.err, finished + Unwind(false, false, false, false))
      else Run(Ok, err, finished + [ResumedMain] + Unwind(false, false, false, true))
  }

  /** One launch. */
  function Launch(a: GameArgs, w: World): Run
    requires WellFormed(a)
  {
    if w.elevationQuery.Fails? then Run(GetTokenInfo, w.elevationQuery.err, [])
    else
      var reduced := Reduced(w.elevated, a.flags);
      var cmd := CommandLine.Assemble(a.exePath, a.argv);
      var high := HasFlag(a.flags, FlagHighProcPrio);
      match CreateStage(a, w, reduced, cmd, high)
      case Stop(r) => r
      case Go(ev) => Prepend(ev, AfterCreate(a, w, reduced))
  }
}
