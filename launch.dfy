/** The library's launch entry point as the imperative code it is: scope
    guards that own handles and close them when they go out of scope, and a
    host that records what each OS call did. Every method is proved to do
    exactly what `LaunchSpec` says, and the host's own preconditions make
    sure that no handle is opened twice or closed before it is opened, the
    remote buffer is freed only once, and the game is resumed or terminated
    only while it is suspended. */
module Launcher {
  import opened Wrappers
  import opened InjectorApi
  import opened LaunchSpec
  import CommandLine

  datatype GameState = NotStarted | Suspended | Running | Terminated

  /** A handle value: null, INVALID_HANDLE_VALUE, or a live handle. */
  datatype Handle = Null | Invalid | Live(kind: Kind)

  /** The events that neither acquire nor release anything. */
  predicate Plain(e: Event)
  {
    e.LoweredIntegrity? || e.WroteRemote? || e.ConnectedPipe? || e.Sent? || e.KilledLoader? || e.LoaderExited?
  }

  /** What the operating system holds on behalf of one launch. */
  class Host {
    var trace: seq<Event>
    var open: set<Kind>
    var game: GameState
    var remoteLive: bool

    constructor ()
      ensures trace == [] && open == {} && game == NotStarted && !remoteLive
    {
      trace, open, game, remoteLive := [], {}, NotStarted, false;
    }

    method Record(e: Event)
      requires Plain(e)
      modifies this
      ensures trace == old(trace) + [e]
      ensures open == old(open) && game == old(game) && remoteLive == old(remoteLive)
    {
      trace := trace + [e];
    }

    method Open(k: Kind) returns (h: Handle)
      requires k !in open
      modifies this
      ensures h == Live(k)
      ensures trace == old(trace) + [Opened(k)] && open == old(open) + {k}
      ensures game == old(game) && remoteLive == old(remoteLive)
    {
      trace, open := trace + [Opened(k)], open + {k};
      h := Live(k);
    }

    method Close(k: Kind)
      requires k in open
      modifies this
      ensures trace == old(trace) + [Closed(k)] && open == old(open) - {k}
      ensures game == old(game) && remoteLive == old(remoteLive)
    {
      trace, open := trace + [Closed(k)], open - {k};
    }

    /** CreateProcessW / CreateProcessAsUserW with CREATE_SUSPENDED. */
    method CreateSuspended(cmd: seq<char>, lowered: bool, high: bool, dir: Option<seq<char>>)
      requires game != Suspended && GameProcess !in open && GameThread !in open
      modifies this
      ensures trace == old(trace) + [CreatedSuspended(cmd, lowered, high, dir), Opened(GameProcess), Opened(GameThread)]
      ensures open == old(open) + {GameProcess, GameThread}
      ensures game == Suspended && remoteLive == old(remoteLive)
    {
      trace := trace + [CreatedSuspended(cmd, lowered, high, dir), Opened(GameProcess), Opened(GameThread)];
      open := open + {GameProcess, GameThread};
      game := Suspended;
    }

    method CreatePipe(restricted: bool, bufferSize: DWord) returns (h: Handle)
      requires PipeHandle !in open
      modifies this
      ensures h == Live(PipeHandle)
      ensures trace == old(trace) + [CreatedPipe(restricted, bufferSize), Opened(PipeHandle)]
      ensures open == old(open) + {PipeHandle}
      ensures game == old(game) && remoteLive == old(remoteLive)
    {
      trace, open := trace + [CreatedPipe(restricted, bufferSize), Opened(PipeHandle)], open + {PipeHandle};
      h := Live(PipeHandle);
    }

    /** CreateRemoteThread running LoadLibraryW on the remote buffer. */
    method StartLoader() returns (h: Handle)
      requires LoaderThread !in open && remoteLive
      modifies this
      ensures h == Live(LoaderThread)
      ensures trace == old(trace) + [StartedLoader, Opened(LoaderThread)]
      ensures open == old(open) + {LoaderThread}
      ensures game == old(game) && remoteLive == old(remoteLive)
    {
      trace, open := trace + [StartedLoader, Opened(LoaderThread)], open + {LoaderThread};
      h := Live(LoaderThread);
    }

    method Allocate(size: nat)
      requires !remoteLive && game == Suspended
      modifies this
      ensures trace == old(trace) + [AllocatedRemote(size)] && remoteLive
      ensures open == old(open) && game == old(game)
    {
      trace, remoteLive := trace + [AllocatedRemote(size)], true;
    }

    method Free()
      requires remoteLive
      modifies this
      ensures trace == old(trace) + [FreedRemote] && !remoteLive
      ensures open == old(open) && game == old(game)
    {
      trace, remoteLive := trace + [FreedRemote], false;
    }

    method Terminate()
      requires game == Suspended
      modifies this
      ensures trace == old(trace) + [TerminatedGame] && game == Terminated
      ensures open == old(open) && remoteLive == old(remoteLive)
    {
      trace, game := trace + [TerminatedGame], Terminated;
    }

    method Resume()
      requires game == Suspended
      modifies this
      ensures trace == old(trace) + [ResumedMain] && game == Running
      ensures open == old(open) && remoteLive == old(remoteLive)
    {
      trace, game := trace + [ResumedMain], Running;
    }
  }

  /** The guard for most handles; null means it owns nothing. */
  class UniqueHandle {
    var value: Handle

    constructor (h: Handle)
      requires !h.Invalid?
      ensures value == h
    {
      value := h;
    }

    method Close(host: Host)
      requires value.Live? ==> value.kind in host.open
      modifies this, host
      ensures value == (if old(value).Live? then Null else old(value))
      ensures old(value).Live? ==>
        host.trace == old(host.trace) + [Closed(old(value).kind)] && host.open == old(host.open) - {old(value).kind}
      ensures !old(value).Live? ==> host.trace == old(host.trace) && host.open == old(host.open)
      ensures host.game == old(host.game) && host.remoteLive == old(host.remoteLive)
    {
      if value.Live? {
        host.Close(value.kind);
        value := Null;
      }
    }
  }

  /** The guard for the pipe; INVALID_HANDLE_VALUE means it owns nothing. */
  class UniqueFile {
    var value: Handle

    constructor ()
      ensures value == Invalid
    {
      value := Invalid;
    }

    method Close(host: Host)
      requires value.Live? ==> value.kind in host.open
      modifies this, host
      ensures value == (if old(value).Live? then Invalid else old(value))
      ensures old(value).Live? ==>
        host.trace == old(host.trace) + [Closed(old(value).kind)] && host.open == old(host.open) - {old(value).kind}
      ensures !old(value).Live? ==> host.trace == old(host.trace) && host.open == old(host.open)
      ensures host.game == old(host.game) && host.remoteLive == old(host.remoteLive)
    {
      if value.Live? {
        host.Close(value.kind);
        value := Invalid;
      }
    }
  }

  /** The guard for the game process: unless success was committed, it
      terminates the game before closing the handle. */
  class UniqueProcess {
    var value: Handle
    var success: bool

    constructor (h: Handle)
      requires !h.Invalid?
      ensures value == h && !success
    {
      value, success := h, false;
    }

    method Drop(host: Host)
      requires value.Live? ==> value.kind in host.open
      requires !success ==> host.game == Suspended
      modifies this, host
      ensures value == (if old(value).Live? then Null else old(value))
      ensures success == old(success)
      ensures host.trace == old(host.trace) + (if success then [] else [TerminatedGame])
                            + (if old(value).Live? then [Closed(old(value).kind)] else [])
      ensures host.open == (if old(value).Live? then old(host.open) - {old(value).kind} else old(host.open))
      ensures host.game == (if success then old(host.game) else Terminated)
      ensures host.remoteLive == old(host.remoteLive)
    {
      if !success {
        host.Terminate();
      }
      if value.Live? {
        host.Close(value.kind);
        value := Null;
      }
    }
  }

  /** The owner of the remote buffer; its deleter frees the buffer in the
      game process. */
  class RemoteBuffer {
    var live: bool

    constructor (live: bool)
      ensures this.live == live
    {
      this.live := live;
    }

    method Reset(host: Host)
      requires live ==> host.remoteLive
      modifies this, host
      ensures !live
      ensures host.trace == old(host.trace) + (if old(live) then [FreedRemote] else [])
      ensures host.remoteLive == (old(host.remoteLive) && !old(live))
      ensures host.open == old(host.open) && host.game == old(host.game)
    {
      if live {
        host.Free();
        live := false;
      }
    }
  }

  /** The handles the guards own: the game's two, the loader thread's and
      the pipe's when those guards own one. */
  function Owned(loaderOpen: bool, pipeOpen: bool): set<Kind>
  {
    {GameThread, GameProcess}
    + (if loaderOpen then {LoaderThread} else {})
    + (if pipeOpen then {PipeHandle} else {})
  }

  /** The guards going out of scope in reverse order of declaration; the
      loader thread and pipe guards are null before they are declared. */
  method Cleanup(host: Host, inj: UniqueHandle?, pipe: UniqueFile?, mem: RemoteBuffer,
                 thread: UniqueHandle, process: UniqueProcess)
    requires inj != thread
    requires inj != null ==> inj.value == Null || inj.value == Live(LoaderThread)
    requires pipe != null ==> pipe.value == Invalid || pipe.value == Live(PipeHandle)
    requires thread.value == Live(GameThread) && process.value == Live(GameProcess)
    requires host.open == Owned(inj != null && inj.value.Live?, pipe != null && pipe.value.Live?)
    requires mem.live ==> host.remoteLive
    requires if process.success then host.game == Running else host.game == Suspended
    modifies host, inj, pipe, mem, thread, process
    ensures host.trace == old(host.trace)
      + Unwind(old(inj != null && inj.value.Live?), old(pipe != null && pipe.value.Live?), old(mem.live), old(process.success))
    ensures host.open == {}
    ensures host.remoteLive == (old(host.remoteLive) && !old(mem.live))
    ensures host.game == (if old(process.success) then Running else Terminated)
  {
    ghost var loaderOpen, pipeOpen := inj != null && inj.value.Live?, pipe != null && pipe.value.Live?;
    ghost var memLive, committed := mem.live, process.success;
    ghost var t0 := host.trace;
    ReleaseChannel(host, inj, pipe);
    ghost var t1 := host.trace;
    ReleaseGame(host, mem, thread, process);
    UnwindSplit(loaderOpen, pipeOpen, memLive, committed);
    Associative(t0, ChannelReleased(loaderOpen, pipeOpen), GameReleased(memLive, committed));
  }

  /** What the loader thread and pipe guards release. */
  function ChannelReleased(loaderOpen: bool, pipeOpen: bool): seq<Event>
  {
    (if loaderOpen then [Closed(LoaderThread)] else []) + (if pipeOpen then [Closed(PipeHandle)] else [])
  }

  /** What the buffer, game thread and game process guards release. */
  function GameReleased(memLive: bool, committed: bool): seq<Event>
  {
    (if memLive then [FreedRemote] else []) + [Closed(GameThread)]
    + (if committed then [] else [TerminatedGame]) + [Closed(GameProcess)]
  }

  lemma UnwindSplit(loaderOpen: bool, pipeOpen: bool, memLive: bool, committed: bool)
    ensures Unwind(loaderOpen, pipeOpen, memLive, committed)
            == ChannelReleased(loaderOpen, pipeOpen) + GameReleased(memLive, committed)
  {
  }

  method ReleaseChannel(host: Host, inj: UniqueHandle?, pipe: UniqueFile?)
    requires inj != null ==> inj.value == Null || inj.value == Live(LoaderThread)
    requires pipe != null ==> pipe.value == Invalid || pipe.value == Live(PipeHandle)
    requires host.open == Owned(inj != null && inj.value.Live?, pipe != null && pipe.value.Live?)
    modifies host, inj, pipe
    ensures host.trace == old(host.trace)
      + ChannelReleased(old(inj != null && inj.value.Live?), old(pipe != null && pipe.value.Live?))
    ensures host.open == Owned(false, false)
    ensures host.remoteLive == old(host.remoteLive) && host.game == old(host.game)
    ensures inj != null ==> inj.value == Null
    ensures pipe != null ==> pipe.value == Invalid
  {
    ghost var loaderOpen, pipeOpen := inj != null && inj.value.Live?, pipe != null && pipe.value.Live?;
    if inj != null {
      inj.Close(host);
    }
    assert host.open == Owned(false, pipeOpen);
    if pipe != null {
      pipe.Close(host);
    }
  }

  method ReleaseGame(host: Host, mem: RemoteBuffer, thread: UniqueHandle, process: UniqueProcess)
    requires thread.value == Live(GameThread) && process.value == Live(GameProcess)
    requires host.open == Owned(false, false)
    requires mem.live ==> host.remoteLive
    requires if process.success then host.game == Running else host.game == Suspended
    modifies host, mem, thread, process
    ensures host.trace == old(host.trace) + GameReleased(old(mem.live), old(process.success))
    ensures host.open == {}
    ensures host.remoteLive == (old(host.remoteLive) && !old(mem.live))
    ensures host.game == (if old(process.success) then Running else Terminated)
  {
    mem.Reset(host);
    thread.Close(host);
    process.Drop(host);
  }

  /** The loop that writes the data to the pipe: each WriteFile is asked for
      every remaining byte and the loop moves on by the number written;
      `pending` holds the answers of the WriteFile calls still to come. */
  method WriteData(host: Host, data: seq<Byte>, chunks: seq<Chunk>) returns (failure: Option<DWord>)
    modifies host
    ensures host.trace == old(host.trace) + SendData(data, 0, chunks).events
    ensures failure == SendData(data, 0, chunks).failure
    ensures host.open == old(host.open) && host.game == old(host.game) && host.remoteLive == old(host.remoteLive)
  {
    var next: nat, remaining: nat, pending := 0, |data|, chunks;
    ghost var sent: seq<Event> := [];
    while remaining != 0
      invariant next + remaining == |data|
      invariant host.trace == old(host.trace) + sent
      invariant SendData(data, 0, chunks) == Prefixed(sent, SendData(data, next, pending))
      invariant host.open == old(host.open) && host.game == old(host.game) && host.remoteLive == old(host.remoteLive)
      decreases remaining
    {
      var answer := NextAnswer(pending, remaining);
      ghost var before := pending;
      pending := LaterAnswers(pending);
      match answer
      case Refused(err) =>
        assert SendData(data, next, before) == Transfer([], Some(err));
        return Some(err);
      case Accepts(limit) =>
        var written := if limit < remaining then limit else remaining;
        SendDataStep(data, next, before, pending, written, sent);
        host.Record(Sent(data[next..next + written]));
        Associative(old(host.trace), sent, [Sent(data[next..next + written])]);
        sent := sent + [Sent(data[next..next + written])];
        next, remaining := next + written, remaining - written;
    }
    failure := None;
  }

  /** A transfer with `sent` written before it. */
  function Prefixed(sent: seq<Event>, t: Transfer): Transfer
  {
    Transfer(sent + t.events, t.failure)
  }

  /** One accepted WriteFile call of `SendData`, after `sent`. */
  lemma SendDataStep(data: seq<Byte>, next: nat, chunks: seq<Chunk>, rest: seq<Chunk>, n: nat, sent: seq<Event>)
    requires next < |data|
    requires rest == LaterAnswers(chunks)
    requires var c := NextAnswer(chunks, |data| - next);
             c.Accepts? && n == Min(c.limit, |data| - next)
    ensures next + n <= |data|
    ensures Prefixed(sent, SendData(data, next, chunks)) ==
      Prefixed(sent + [Sent(data[next..next + n])], SendData(data, next + n, rest))
  {
    Associative(sent, [Sent(data[next..next + n])], SendData(data, next + n, rest).events);
  }

  /** Waiting for the loader thread and acting on its exit code. */
  method AwaitLoader(host: Host, w: World, inj: UniqueHandle, pipe: UniqueFile, mem: RemoteBuffer,
                     thread: UniqueHandle, process: UniqueProcess) returns (out: LaunchResult)
    requires inj != thread
    requires inj.value == Live(LoaderThread) && pipe.value == Invalid && mem.live
    requires thread.value == Live(GameThread) && process.value == Live(GameProcess) && !process.success
    requires host.open == {LoaderThread, GameThread, GameProcess} && host.remoteLive && host.game == Suspended
    modifies host, inj, pipe, mem, thread, process
    ensures out == LaunchResult(Gate(w).result, Gate(w).win32Error)
    ensures host.trace == old(host.trace) + Gate(w).events
    ensures host.open == {} && !host.remoteLive
    ensures host.game == (if out.result == Ok then Running else Terminated)
  {
    if w.wait.Signaled? {
      out := Finish(host, w, inj, pipe, mem, thread, process);
      return;
    }
    // WaitForSingleObject timed out or failed: the loader is killed.
    out := if w.wait.TimedOut? then LaunchResult(WritePipe, ErrorTimeout) else LaunchResult(WritePipe, w.wait.err);
    ghost var t0 := host.trace;
    host.Record(KilledLoader);
    Cleanup(host, inj, pipe, mem, thread, process);
    Associative(t0, [KilledLoader], Unwind(true, false, true, false));
  }

  /** The loader thread has exited: its exit code is LoadLibraryW's result. */
  method Finish(host: Host, w: World, inj: UniqueHandle, pipe: UniqueFile, mem: RemoteBuffer,
                thread: UniqueHandle, process: UniqueProcess) returns (out: LaunchResult)
    requires w.wait.Signaled?
    requires inj != thread
    requires inj.value == Live(LoaderThread) && pipe.value == Invalid && mem.live
    requires thread.value == Live(GameThread) && process.value == Live(GameProcess) && !process.success
    requires host.open == {LoaderThread, GameThread, GameProcess} && host.remoteLive && host.game == Suspended
    modifies host, inj, pipe, mem, thread, process
    ensures out == LaunchResult(Gate(w).result, Gate(w).win32Error)
    ensures host.trace == old(host.trace) + Gate(w).events
    ensures host.open == {} && !host.remoteLive
    ensures host.game == (if out.result == Ok then Running else Terminated)
  {
    var exitCode: DWord, err: DWord;
    if w.exitQuery.ExitCode? {
      exitCode, err := w.exitQuery.code, 0;
    } else {
      exitCode, err := 0, w.exitQuery.err;
    }
    ghost var t0 := host.trace;
    host.Record(LoaderExited(exitCode));
    inj.Close(host);
    mem.Reset(host);
    ghost var finished := [LoaderExited(exitCode), Closed(LoaderThread), FreedRemote];
    assert host.trace == t0 + finished;
    if exitCode == 0 {
      out := LaunchResult(DllLoad, err);
      Cleanup(host, inj, pipe, mem, thread, process);
      Associative(t0, finished, Unwind(false, false, false, false));
      return;
    }
    if w.resume.Fails? {
      out := LaunchResult(ResumeThread, w.resume.err);
      Cleanup(host, inj, pipe, mem, thread, process);
      Associative(t0, finished, Unwind(false, false, false, false));
      return;
    }
    host.Resume();
    process.success := true;
    out := LaunchResult(Ok, err);
    Associative(t0, finished, [ResumedMain]);
    Cleanup(host, inj, pipe, mem, thread, process);
    Associative(t0, finished + [ResumedMain], Unwind(false, false, false, true));
  }

  /** Waiting for the runtime to connect to the pipe, sending it the header
      and the data, and closing the pipe before waiting for the loader. */
  method Converse(host: Host, a: GameArgs, w: World, inj: UniqueHandle, pipe: UniqueFile, mem: RemoteBuffer,
                  thread: UniqueHandle, process: UniqueProcess) returns (out: LaunchResult)
    requires WellFormed(a)
    requires inj != thread
    requires inj.value == Live(LoaderThread) && pipe.value == Live(PipeHandle) && mem.live
    requires thread.value == Live(GameThread) && process.value == Live(GameProcess) && !process.success
    requires host.open == {LoaderThread, PipeHandle, GameThread, GameProcess} && host.remoteLive && host.game == Suspended
    modifies host, inj, pipe, mem, thread, process
    ensures out == LaunchResult(Handshake(a, w).result, Handshake(a, w).win32Error)
    ensures host.trace == old(host.trace) + Handshake(a, w).events
    ensures host.open == {} && !host.remoteLive
    ensures host.game == (if out.result == Ok then Running else Terminated)
  {
    ghost var t0 := host.trace;
    if w.connectPipe.Fails? && w.connectPipe.err != ErrorPipeConnected {
      out := LaunchResult(ConnectPipe, w.connectPipe.err);
      Cleanup(host, inj, pipe, mem, thread, process);
      return;
    }
    host.Record(ConnectedPipe);
    if w.headerWrite.Fails? {
      out := LaunchResult(WritePipe, w.headerWrite.err);
      Cleanup(host, inj, pipe, mem, thread, process);
      Associative(t0, [ConnectedPipe], Unwind(true, true, true, false));
      return;
    }
    var header := EncodeHeader(a.loadType, a.dataSize);
    host.Record(Sent(header));
    ghost var sent := [ConnectedPipe, Sent(header)];
    assert host.trace == t0 + sent;
    out := Deliver(host, a, w, inj, pipe, mem, thread, process);
    ghost var t := SendData(a.data, 0, w.dataWrites);
    if t.failure.Some? {
      Associative(t0, sent, t.events + Unwind(true, true, true, false));
      Associative(sent, t.events, Unwind(true, true, true, false));
    } else {
      Associative(t0, sent, t.events + [Closed(PipeHandle)] + Gate(w).events);
      Associative(sent, t.events + [Closed(PipeHandle)], Gate(w).events);
      Associative(sent, t.events, [Closed(PipeHandle)]);
    }
  }

  /** Writing the data, then closing the pipe and waiting for the loader. */
  method Deliver(host: Host, a: GameArgs, w: World, inj: UniqueHandle, pipe: UniqueFile, mem: RemoteBuffer,
                 thread: UniqueHandle, process: UniqueProcess) returns (out: LaunchResult)
    requires inj != thread
    requires inj.value == Live(LoaderThread) && pipe.value == Live(PipeHandle) && mem.live
    requires thread.value == Live(GameThread) && process.value == Live(GameProcess) && !process.success
    requires host.open == {LoaderThread, PipeHandle, GameThread, GameProcess} && host.remoteLive && host.game == Suspended
    modifies host, inj, pipe, mem, thread, process
    ensures var t := SendData(a.data, 0, w.dataWrites);
      && (t.failure.Some? ==>
            out == LaunchResult(WritePipe, t.failure.value)
            && host.trace == old(host.trace) + (t.events + Unwind(true, true, true, false)))
      && (t.failure.None? ==>
            out == LaunchResult(Gate(w).result, Gate(w).win32Error)
            && host.trace == old(host.trace) + (t.events + [Closed(PipeHandle)] + Gate(w).events))
    ensures host.open == {} && !host.remoteLive
    ensures host.game == (if out.result == Ok then Running else Terminated)
  {
    ghost var t0 := host.trace;
    var failure := WriteData(host, a.data, w.dataWrites);
    ghost var t := SendData(a.data, 0, w.dataWrites);
    if failure.Some? {
      out := LaunchResult(WritePipe, failure.value);
      Cleanup(host, inj, pipe, mem, thread, process);
      Associative(t0, t.events, Unwind(true, true, true, false));
      return;
    }
    pipe.Close(host);
    Associative(t0, t.events, [Closed(PipeHandle)]);
    out := AwaitLoader(host, w, inj, pipe, mem, thread, process);
    Associative(t0, t.events + [Closed(PipeHandle)], Gate(w).events);
  }

  /** Everything after the game process exists: the DLL path is written into
      it, the pipe is created and the loader thread started. */
  method Inject(host: Host, a: GameArgs, w: World, reduced: bool, process: UniqueProcess, thread: UniqueHandle)
      returns (out: LaunchResult)
    requires WellFormed(a)
    requires process.value == Live(GameProcess) && !process.success && thread.value == Live(GameThread)
    requires host.open == {GameProcess, GameThread} && host.game == Suspended && !host.remoteLive
    modifies host, process, thread
    ensures out == LaunchResult(AfterCreate(a, w, reduced).result, AfterCreate(a, w, reduced).win32Error)
    ensures host.trace == old(host.trace) + AfterCreate(a, w, reduced).events
    ensures host.open == {} && !host.remoteLive
    ensures host.game == (if out.result == Ok then Running else Terminated)
  {
    ghost var t0 := host.trace;
    var size := (|a.dllPath| + 1) * 2;
    if w.alloc.Succeeds? {
      host.Allocate(size);
    }
    var mem := new RemoteBuffer(w.alloc.Succeeds?);
    if !mem.live {
      out := LaunchResult(MemAlloc, w.alloc.err);
      Cleanup(host, null, null, mem, thread, process);
      return;
    }
    if w.writeMemory.Fails? {
      out := LaunchResult(MemWrite, w.writeMemory.err);
      Cleanup(host, null, null, mem, thread, process);
      Associative(t0, [AllocatedRemote(size)], Unwind(false, false, true, false));
      return;
    }
    host.Record(WroteRemote(a.dllPath + [Nul]));
    out := Connect(host, a, w, reduced, t0, mem, thread, process);
  }

  /** The pipe is created and the loader thread started, once the DLL path
      is in the game's memory. */
  method Connect(host: Host, a: GameArgs, w: World, reduced: bool, ghost t0: seq<Event>,
                 mem: RemoteBuffer, thread: UniqueHandle, process: UniqueProcess) returns (out: LaunchResult)
    requires WellFormed(a) && w.alloc.Succeeds? && w.writeMemory.Succeeds?
    requires host.trace == t0 + [AllocatedRemote((|a.dllPath| + 1) * 2), WroteRemote(a.dllPath + [Nul])]
    requires mem.live && host.remoteLive
    requires process.value == Live(GameProcess) && !process.success && thread.value == Live(GameThread)
    requires host.open == {GameProcess, GameThread} && host.game == Suspended
    modifies host, mem, process, thread
    ensures out == LaunchResult(AfterCreate(a, w, reduced).result, AfterCreate(a, w, reduced).win32Error)
    ensures host.trace == t0 + AfterCreate(a, w, reduced).events
    ensures host.open == {} && !host.remoteLive
    ensures host.game == (if out.result == Ok then Running else Terminated)
  {
    var size := (|a.dllPath| + 1) * 2;
    ghost var injected := [AllocatedRemote(size), WroteRemote(a.dllPath + [Nul])];
    var pipe := new UniqueFile();
    var bufSize := BufferSize(a.dataSize);
    var failed := SecureFailure(w, reduced);
    if failed.Some? {
      out := LaunchResult(failed.value.0, failed.value.1);
      Cleanup(host, null, pipe, mem, thread, process);
      Associative(t0, injected, Unwind(false, false, true, false));
      return;
    }
    if w.createPipe.Succeeds? {
      pipe.value := host.CreatePipe(reduced, bufSize);
    }
    if !pipe.value.Live? {
      out := LaunchResult(CreatePipe, w.createPipe.err);
      Cleanup(host, null, pipe, mem, thread, process);
      Associative(t0, injected, Unwind(false, false, true, false));
      return;
    }
    Associative(t0, injected, [CreatedPipe(reduced, bufSize), Opened(PipeHandle)]);
    out := LaunchLoader(host, a, w, reduced, t0, pipe, mem, thread, process);
  }

  /** The loader thread is started in the game, once the pipe exists, and
      the handshake follows. */
  method LaunchLoader(host: Host, a: GameArgs, w: World, reduced: bool, ghost t0: seq<Event>,
                      pipe: UniqueFile, mem: RemoteBuffer, thread: UniqueHandle, process: UniqueProcess)
      returns (out: LaunchResult)
    requires WellFormed(a) && w.alloc.Succeeds? && w.writeMemory.Succeeds?
    requires SecurityFailure(w, reduced).None? && w.createPipe.Succeeds?
    requires host.trace == t0 + ([AllocatedRemote((|a.dllPath| + 1) * 2), WroteRemote(a.dllPath + [Nul])]
      + [CreatedPipe(reduced, BufferSize(a.dataSize)), Opened(PipeHandle)])
    requires pipe.value == Live(PipeHandle) && mem.live && host.remoteLive
    requires process.value == Live(GameProcess) && !process.success && thread.value == Live(GameThread)
    requires host.open == {PipeHandle, GameProcess, GameThread} && host.game == Suspended
    modifies host, pipe, mem, process, thread
    ensures out == LaunchResult(AfterCreate(a, w, reduced).result, AfterCreate(a, w, reduced).win32Error)
    ensures host.trace == t0 + AfterCreate(a, w, reduced).events
    ensures host.open == {} && !host.remoteLive
    ensures host.game == (if out.result == Ok then Running else Terminated)
  {
    ghost var piped := [AllocatedRemote((|a.dllPath| + 1) * 2), WroteRemote(a.dllPath + [Nul])]
      + [CreatedPipe(reduced, BufferSize(a.dataSize)), Opened(PipeHandle)];
    var inj := new UniqueHandle(Null);
    if w.createThread.Succeeds? {
      inj.value := host.StartLoader();
    }
    if !inj.value.Live? {
      out := LaunchResult(CreateThread, w.createThread.err);
      Cleanup(host, inj, pipe, mem, thread, process);
      Associative(t0, piped, Unwind(false, true, true, false));
      return;
    }
    Associative(t0, piped, [StartedLoader, Opened(LoaderThread)]);
    out := Converse(host, a, w, inj, pipe, mem, thread, process);
    Associative(t0, piped + [StartedLoader, Opened(LoaderThread)], Handshake(a, w).events);
  }

  /** The steps that build the restricted pipe's security descriptor: the
      user's SID is read with a size query (which is expected to fail with
      ERROR_INSUFFICIENT_BUFFER) and a second query, and the access lists
      are built from it. Only an elevated launch that drops its rights
      restricts the pipe. */
  method SecureFailure(w: World, reduced: bool) returns (failed: Option<(ResultCode, DWord)>)
    ensures failed == SecurityFailure(w, reduced)
  {
    failed := None;
    if reduced {
      if w.userSizeQuery.Fails? && w.userSizeQuery.err != ErrorInsufficientBuffer {
        return Some((GetTokenInfo, w.userSizeQuery.err));
      }
      if w.userQuery.Fails? {
        return Some((GetTokenInfo, w.userQuery.err));
      }
      if w.securityDescriptor.Fails? {
        return Some((SecDesc, w.securityDescriptor.err));
      }
    }
  }

  /** Creating the suspended game; when the launch drops its rights, through
      a duplicate of the caller's token lowered to medium integrity. */
  method CreateGame(host: Host, a: GameArgs, w: World, reduced: bool, cmd: seq<char>, high: bool)
      returns (stop: Option<LaunchResult>)
    requires host.open == {} && host.game != Suspended && !host.remoteLive
    modifies host
    ensures var c := CreateStage(a, w, reduced, cmd, high);
      && (c.Stop? ==> stop == Some(LaunchResult(c.run.result, c.run.win32Error))
                      && host.trace == old(host.trace) + c.run.events
                      && host.open == {} && host.game == old(host.game))
      && (c.Go? ==> stop.None? && host.trace == old(host.trace) + c.events
                    && host.open == {GameProcess, GameThread} && host.game == Suspended)
    ensures !host.remoteLive
  {
    stop := None;
    if !reduced {
      if w.createProcess.Fails? {
        return Some(LaunchResult(CreateProcess, w.createProcess.err));
      }
      host.CreateSuspended(cmd, reduced, high, a.currentDir);
      return;
    }
    ghost var t0 := host.trace;
    var procToken := new UniqueHandle(Null);
    if w.openToken.Fails? {
      stop := Some(LaunchResult(OpenToken, w.openToken.err));
      procToken.Close(host);
      return;
    }
    procToken.value := host.Open(ProcessToken);
    var milToken := new UniqueHandle(Null);
    if w.duplicateToken.Fails? {
      stop := Some(LaunchResult(DuplicateToken, w.duplicateToken.err));
      milToken.Close(host);
      procToken.Close(host);
      return;
    }
    milToken.value := host.Open(LoweredToken);
    procToken.Close(host);
    stop := CreateLowered(host, a, w, cmd, high, t0, milToken, procToken);
  }

  /** Lowering the duplicated token and creating the game with it; the
      caller's token is already closed. */
  method CreateLowered(host: Host, a: GameArgs, w: World, cmd: seq<char>, high: bool, ghost t0: seq<Event>,
                       milToken: UniqueHandle, procToken: UniqueHandle) returns (stop: Option<LaunchResult>)
    requires w.openToken.Succeeds? && w.duplicateToken.Succeeds?
    requires host.trace == t0 + [Opened(ProcessToken), Opened(LoweredToken), Closed(ProcessToken)]
    requires milToken != procToken && milToken.value == Live(LoweredToken) && procToken.value == Null
    requires host.open == {LoweredToken} && host.game != Suspended && !host.remoteLive
    modifies host, milToken, procToken
    ensures var c := CreateStage(a, w, true, cmd, high);
      && (c.Stop? ==> stop == Some(LaunchResult(c.run.result, c.run.win32Error))
                      && host.trace == t0 + c.run.events
                      && host.open == {} && host.game == old(host.game))
      && (c.Go? ==> stop.None? && host.trace == t0 + c.events
                    && host.open == {GameProcess, GameThread} && host.game == Suspended)
    ensures !host.remoteLive
  {
    stop := None;
    ghost var tokens := [Opened(ProcessToken), Opened(LoweredToken), Closed(ProcessToken)];
    if w.lowerIntegrity.Fails? {
      stop := Some(LaunchResult(SetTokenInfo, w.lowerIntegrity.err));
      milToken.Close(host);
      procToken.Close(host);
      Associative(t0, tokens, [Closed(LoweredToken)]);
      return;
    }
    host.Record(LoweredIntegrity);
    if w.createProcess.Fails? {
      stop := Some(LaunchResult(CreateProcess, w.createProcess.err));
      milToken.Close(host);
      procToken.Close(host);
      Associative(t0, tokens, [LoweredIntegrity, Closed(LoweredToken)]);
      return;
    }
    host.CreateSuspended(cmd, true, high, a.currentDir);
    milToken.Close(host);
    procToken.Close(host);
  }

  /** One launch of the game (tek_inj_run_game): the result and error code
      are the ones the specification gives, the host sees exactly the
      specified events, every handle is closed, the remote buffer is freed,
      and the game runs only when the launch succeeds. */
  method RunGame(host: Host, a: GameArgs, w: World) returns (out: LaunchResult)
    requires WellFormed(a)
    requires host.open == {} && host.game != Suspended && !host.remoteLive
    modifies host
    ensures out == LaunchResult(Launch(a, w).result, Launch(a, w).win32Error)
    ensures host.trace == old(host.trace) + Launch(a, w).events
    ensures host.open == {} && !host.remoteLive
    ensures out.result == Ok ==> host.game == Running
    ensures out.result != Ok ==> host.game != Suspended
  {
    if w.elevationQuery.Fails? {
      return LaunchResult(GetTokenInfo, w.elevationQuery.err);
    }
    var elevated := w.elevated;
    var cmd := CommandLine.BuildCommandLine(a.exePath, a.argv);
    var reduced := elevated && !HasFlag(a.flags, FlagRunAsAdmin);
    var high := HasFlag(a.flags, FlagHighProcPrio);
    ghost var t0 := host.trace;
    var stop := CreateGame(host, a, w, reduced, cmd, high);
    if stop.Some? {
      return stop.value;
    }
    ghost var created := CreateStage(a, w, reduced, cmd, high).events;
    var process := new UniqueProcess(Live(GameProcess));
    var thread := new UniqueHandle(Live(GameThread));
    out := Inject(host, a, w, reduced, process, thread);
    Associative(t0, created, AfterCreate(a, w, reduced).events);
  }
}
