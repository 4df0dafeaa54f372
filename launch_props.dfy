/** Properties of one launch that hold for every argument record and every
    answer of the operating system: the game is resumed only after the
    loader reported success and is terminated otherwise, every handle and
    the remote buffer are released, the handshake bytes are exactly the
    header and the data, and the privilege decision is applied consistently. */
module LaunchProperties {
  import opened Wrappers
  import opened InjectorApi
  import opened LaunchSpec
  import CommandLine

  /** Every handle opened during the launch is closed, and only opened
      handles are closed. */
  predicate Balanced(ev: seq<Event>)
  {
    forall k: Kind :: Opened(k) in ev <==> Closed(k) in ev
  }

  lemma NotInSends(ev: seq<Event>, e: Event)
    requires OnlySends(ev) && !e.Sent?
    ensures e !in ev
  {
  }

  // ---------------------------------------------------------------------
  // The fate of the game process

  lemma GateFate(w: World)
    ensures var r := Gate(w);
      && (ResumedMain in r.events <==> r.result == Ok)
      && (TerminatedGame in r.events <==> r.result != Ok)
      && FreedRemote in r.events
      && Opened(GameProcess) !in r.events
  {
    match w.wait
    case TimedOut => UnwindFate(true, false, true, false);
    case WaitFailed(_) => UnwindFate(true, false, true, false);
    case Signaled =>
      if Gate(w).result == Ok {
        UnwindFate(false, false, false, true);
      } else {
        UnwindFate(false, false, false, false);
      }
  }

  /** The guards terminate the game exactly when success was not committed,
      free the remote buffer exactly when it is live, and neither resume
      the game nor open anything. */
  lemma UnwindFate(loaderOpen: bool, pipeOpen: bool, memLive: bool, committed: bool)
    ensures var u := Unwind(loaderOpen, pipeOpen, memLive, committed);
      && ResumedMain !in u
      && (TerminatedGame in u <==> !committed)
      && (FreedRemote in u <==> memLive)
      && Opened(GameProcess) !in u
      && KilledLoader !in u
  {
    UnwindMembers(loaderOpen, pipeOpen, memLive, committed);
  }

  /** The events of the guards' cleanup, element by element. */
  lemma UnwindMembers(loaderOpen: bool, pipeOpen: bool, memLive: bool, committed: bool)
    ensures forall x :: x in Unwind(loaderOpen, pipeOpen, memLive, committed) <==>
      || (loaderOpen && x == Closed(LoaderThread))
      || (pipeOpen && x == Closed(PipeHandle))
      || (memLive && x == FreedRemote)
      || x == Closed(GameThread)
      || (!committed && x == TerminatedGame)
      || x == Closed(GameProcess)
  {
    forall x | x in Unwind(loaderOpen, pipeOpen, memLive, committed)
      ensures || (loaderOpen && x == Closed(LoaderThread))
              || (pipeOpen && x == Closed(PipeHandle))
              || (memLive && x == FreedRemote)
              || x == Closed(GameThread)
              || (!committed && x == TerminatedGame)
              || x == Closed(GameProcess)
    {
    }
  }

  /** The runtime did not connect (a client that connected before the
      server waited counts as connected). */
  predicate ConnectFails(w: World)
  {
    w.connectPipe.Fails? && w.connectPipe.err != ErrorPipeConnected
  }

  /** The events of the handshake, one branch per return. */
  lemma HandshakeEvents(a: GameArgs, w: World)
    requires WellFormed(a)
    ensures var r := Handshake(a, w);
      var sent := [ConnectedPipe, Sent(EncodeHeader(a.loadType, a.dataSize))];
      var t := SendData(a.data, 0, w.dataWrites);
      && (ConnectFails(w) ==> r.result == ConnectPipe && r.events == Unwind(true, true, true, false))
      && (!ConnectFails(w) && w.headerWrite.Fails? ==>
            r.result == WritePipe && r.events == [ConnectedPipe] + Unwind(true, true, true, false))
      && (!ConnectFails(w) && w.headerWrite.Succeeds? && t.failure.Some? ==>
            r.result == WritePipe && r.events == sent + t.events + Unwind(true, true, true, false))
      && (!ConnectFails(w) && w.headerWrite.Succeeds? && t.failure.None? ==>
            r == Prepend(sent + t.events + [Closed(PipeHandle)], Gate(w)))
  {
  }

  lemma HandshakeShapesFate(h: Run, g: Run, header: seq<Byte>, t: Transfer)
    requires Fate(g) && FreedRemote in g.events
    requires OnlySends(t.events)
    requires var sent := [ConnectedPipe, Sent(header)];
      || (h.result == ConnectPipe && h.events == Unwind(true, true, true, false))
      || (h.result == WritePipe && h.events == [ConnectedPipe] + Unwind(true, true, true, false))
      || (h.result == WritePipe && h.events == sent + t.events + Unwind(true, true, true, false))
      || (h == Prepend(sent + t.events + [Closed(PipeHandle)], g))
    ensures Fate(h) && FreedRemote in h.events
  {
    NotInSends(t.events, ResumedMain);
    NotInSends(t.events, TerminatedGame);
    NotInSends(t.events, Opened(GameProcess));
  }

  lemma {:induction false} HandshakeFate(a: GameArgs, w: World)
    requires WellFormed(a)
    ensures Fate(Handshake(a, w)) && FreedRemote in Handshake(a, w).events
  {
    HandshakeEvents(a, w);
    GateFate(w);
    SendDataFacts(a.data, 0, w.dataWrites);
    HandshakeShapesFate(Handshake(a, w), Gate(w), EncodeHeader(a.loadType, a.dataSize), SendData(a.data, 0, w.dataWrites));
  }

  /** Which return of the stage after creation is taken: 0 to 3 are the
      failures of allocation, remote write, pipe setup and loader start, 4
      is the handshake. */
  function AfterCreateBranch(w: World, reduced: bool): nat
  {
    if w.alloc.Fails? then 0
    else if w.writeMemory.Fails? then 1
    else if SecurityFailure(w, reduced).Some? || w.createPipe.Fails? then 2
    else if w.createThread.Fails? then 3
    else 4
  }

  /** The events of a launch after the game exists, one branch per return. */
  lemma AfterCreateEvents(a: GameArgs, w: World, reduced: bool)
    requires WellFormed(a)
    ensures var r := AfterCreate(a, w, reduced);
      var size := (|a.dllPath| + 1) * 2;
      var injected := [AllocatedRemote(size), WroteRemote(a.dllPath + [Nul])];
      var piped := injected + [CreatedPipe(reduced, BufferSize(a.dataSize)), Opened(PipeHandle)];
      var b := AfterCreateBranch(w, reduced);
      && (b < 4 ==> EarlyFailure(r.result))
      && (b == 0 ==> r.events == Unwind(false, false, false, false))
      && (b == 1 ==> r.events == [AllocatedRemote(size)] + Unwind(false, false, true, false))
      && (b == 2 ==> r.events == injected + Unwind(false, false, true, false))
      && (b == 3 ==> r.events == piped + Unwind(false, true, true, false))
      && (b == 4 ==> r == Prepend(piped + [StartedLoader, Opened(LoaderThread)], Handshake(a, w)))
  {
  }

  /** The stage after creation, branch b: an early return is its prefix of
      events followed by the guards, the handshake branch starts the loader
      and hands over to the handshake h. */
  predicate AfterCreateShape(r: Run, h: Run, b: nat, size: nat, text: seq<char>, restricted: bool, bufferSize: DWord)
  {
    && b <= 4
    && (b < 4 ==> EarlyFailure(r.result)
                  && r.events == EarlyPrefix(b, size, text, restricted, bufferSize) + Unwind(false, b == 3, b >= 1, false))
    && (b == 4 ==> r == Prepend(LoaderStart(size, text, restricted, bufferSize), h))
  }

  lemma AfterCreateSplit(a: GameArgs, w: World, reduced: bool)
    requires WellFormed(a)
    ensures AfterCreateShape(AfterCreate(a, w, reduced), Handshake(a, w), AfterCreateBranch(w, reduced),
      (|a.dllPath| + 1) * 2, a.dllPath + [Nul], reduced, BufferSize(a.dataSize))
  {
    AfterCreateEvents(a, w, reduced);
    var size, text, bufferSize := (|a.dllPath| + 1) * 2, a.dllPath + [Nul], BufferSize(a.dataSize);
    var b := AfterCreateBranch(w, reduced);
    if b == 4 {
      assert LoaderStart(size, text, reduced, bufferSize)
        == [AllocatedRemote(size), WroteRemote(text)] + [CreatedPipe(reduced, bufferSize), Opened(PipeHandle)]
           + [StartedLoader, Opened(LoaderThread)];
    } else if b == 3 {
      assert EarlyPrefix(b, size, text, reduced, bufferSize)
        == [AllocatedRemote(size), WroteRemote(text)] + [CreatedPipe(reduced, bufferSize), Opened(PipeHandle)];
    } else if b == 0 {
      assert EarlyPrefix(b, size, text, reduced, bufferSize) + Unwind(false, false, false, false)
        == Unwind(false, false, false, false);
    }
  }

  /** The failure codes of the steps before the loader is waited on. */
  predicate EarlyFailure(c: ResultCode)
  {
    c != Ok && c != DllLoad && c != ResumeThread && c != ThreadWait
  }

  /** The events before an early return of the stage after creation. */
  function EarlyPrefix(b: nat, size: nat, text: seq<char>, restricted: bool, bufferSize: DWord): (p: seq<Event>)
    requires b < 4
    ensures Quiet(p)
    ensures TerminatedGame !in p && Opened(GameProcess) !in p && FreedRemote !in p
    ensures Opened(PipeHandle) in p <==> b == 3
    ensures forall e :: e in p ==> !e.CreatedSuspended? && e != LoweredIntegrity
    ensures forall e :: e in p && e.CreatedPipe? ==> e == CreatedPipe(restricted, bufferSize)
    ensures forall k :: k != PipeHandle ==> Opened(k) !in p
    ensures forall k :: Closed(k) !in p
  {
    if b == 0 then []
    else if b == 1 then [AllocatedRemote(size)]
    else if b == 2 then [AllocatedRemote(size), WroteRemote(text)]
    else [AllocatedRemote(size), WroteRemote(text), CreatedPipe(restricted, bufferSize), Opened(PipeHandle)]
  }

  lemma NoSendsAppend(p: seq<Event>, q: seq<Event>)
    requires NoSends(p) && NoSends(q)
    ensures NoSends(p + q)
  {
    forall i | 0 <= i < |p + q|
      ensures !(p + q)[i].Sent?
    {
      if i >= |p| {
        assert (p + q)[i] == q[i - |p|];
      }
    }
  }

  /** An early return after creation: the guards release what is held and
      terminate the game; nothing is sent and the loader is not waited on. */
  lemma EarlyExit(r: Run, p: seq<Event>, pipeOpen: bool, memLive: bool)
    requires EarlyFailure(r.result) && r.events == p + Unwind(false, pipeOpen, memLive, false)
    requires Quiet(p) && TerminatedGame !in p && Opened(GameProcess) !in p && FreedRemote !in p
    ensures Fate(r) && (FreedRemote in r.events <==> memLive) && Quiet(r.events)
  {
    var u := Unwind(false, pipeOpen, memLive, false);
    UnwindFate(false, pipeOpen, memLive, false);
    UnwindNoSends(false, pipeOpen, memLive, false);
    NoSendsAppend(p, u);
  }

  /** The fate of the game as one stage's events show it. */
  predicate Fate(r: Run)
  {
    && (ResumedMain in r.events <==> r.result == Ok)
    && (TerminatedGame in r.events <==> r.result != Ok)
    && Opened(GameProcess) !in r.events
  }

  lemma ShapesFate(r: Run, h: Run, b: nat, size: nat, text: seq<char>, restricted: bool, bufferSize: DWord)
    requires Fate(h) && FreedRemote in h.events
    requires AfterCreateShape(r, h, b, size, text, restricted, bufferSize)
    ensures Fate(r)
    ensures AllocatedRemote(size) in r.events <==> FreedRemote in r.events
  {
    if b == 4 {
      LoaderStartFate(size, text, restricted, bufferSize);
    } else {
      var p := EarlyPrefix(b, size, text, restricted, bufferSize);
      EarlyExit(r, p, b == 3, b >= 1);
      assert AllocatedRemote(size) in p <==> b >= 1;
    }
  }


  lemma {:induction false} AfterCreateFate(a: GameArgs, w: World, reduced: bool)
    requires WellFormed(a)
    ensures Fate(AfterCreate(a, w, reduced))
    ensures var r := AfterCreate(a, w, reduced);
      AllocatedRemote((|a.dllPath| + 1) * 2) in r.events <==> FreedRemote in r.events
  {
    AfterCreateSplit(a, w, reduced);
    HandshakeFate(a, w);
    ShapesFate(AfterCreate(a, w, reduced), Handshake(a, w), AfterCreateBranch(w, reduced), (|a.dllPath| + 1) * 2, a.dllPath + [Nul],
      reduced, BufferSize(a.dataSize));
  }

  /** What creating the game leaves behind: nothing of the game and no
      open token when it stops, the game's two handles when it goes on. */
  lemma CreateStageFacts(a: GameArgs, w: World, reduced: bool, cmd: seq<char>, high: bool, size: nat)
    ensures var c := CreateStage(a, w, reduced, cmd, high);
      && (c.Stop? ==>
            && c.run.result != Ok
            && ResumedMain !in c.run.events && TerminatedGame !in c.run.events
            && Opened(GameProcess) !in c.run.events
            && AllocatedRemote(size) !in c.run.events && FreedRemote !in c.run.events)
      && (c.Go? ==>
            && Opened(GameProcess) in c.events
            && ResumedMain !in c.events && TerminatedGame !in c.events
            && AllocatedRemote(size) !in c.events && FreedRemote !in c.events)
  {
    var c := CreateStage(a, w, reduced, cmd, high);
    var ev := if c.Stop? then c.run.events else c.events;
    forall x | x in ev
      ensures x.Opened? || x.Closed? || x == LoweredIntegrity || x.CreatedSuspended?
      ensures c.Stop? ==> x != Opened(GameProcess)
    {
    }
  }

  /** The three ways a launch can end, by the stage that ends it. */
  lemma LaunchStages(a: GameArgs, w: World)
    requires WellFormed(a)
    ensures var r := Launch(a, w);
      var reduced := Reduced(w.elevated, a.flags);
      var c := CreateStage(a, w, reduced, CommandLine.Assemble(a.exePath, a.argv), HasFlag(a.flags, FlagHighProcPrio));
      || (w.elevationQuery.Fails? && r == Run(GetTokenInfo, w.elevationQuery.err, []))
      || (w.elevationQuery.Succeeds? && c.Stop? && r == c.run)
      || (w.elevationQuery.Succeeds? && c.Go? && r == Prepend(c.events, AfterCreate(a, w, reduced)))
  {
  }

  /** The suspended game is resumed exactly when the launch succeeds, and
      terminated exactly when it was created and the launch fails; the
      remote buffer, once allocated, is freed. */
  lemma {:induction false} GameResumedOrTerminated(a: GameArgs, w: World)
    requires WellFormed(a)
    ensures var r := Launch(a, w);
      && (ResumedMain in r.events <==> r.result == Ok)
      && (TerminatedGame in r.events <==> Opened(GameProcess) in r.events && r.result != Ok)
      && (r.result == Ok ==> Opened(GameProcess) in r.events)
      && (AllocatedRemote((|a.dllPath| + 1) * 2) in r.events <==> FreedRemote in r.events)
  {
    LaunchStages(a, w);
    var reduced := Reduced(w.elevated, a.flags);
    var cmd := CommandLine.Assemble(a.exePath, a.argv);
    var c := CreateStage(a, w, reduced, cmd, HasFlag(a.flags, FlagHighProcPrio));
    CreateStageFacts(a, w, reduced, cmd, HasFlag(a.flags, FlagHighProcPrio), (|a.dllPath| + 1) * 2);
    if w.elevationQuery.Succeeds? && c.Go? {
      AfterCreateFate(a, w, reduced);
      var after := AfterCreate(a, w, reduced);
      assert Launch(a, w) == Prepend(c.events, after);
    }
  }

  // ---------------------------------------------------------------------
  // Success and the loader's exit code

  /** A successful launch reports no Win32 error; the game was resumed right
      after the loader thread's exit code was read as non-zero and the
      remote buffer was freed, and the loader thread's code is what the
      query returned. A zero (or unreadable) exit code is a load failure. A
      wait that times out or fails kills the loader and reports write_pipe
      with the timeout or the wait's own error. */
  lemma GateOutcome(w: World)
    ensures var r := Gate(w);
      && (r.result == Ok ==>
            r.win32Error == 0
            && w.exitQuery.ExitCode? && w.exitQuery.code != 0
            && r.events == [LoaderExited(w.exitQuery.code), Closed(LoaderThread), FreedRemote, ResumedMain]
                           + Unwind(false, false, false, true))
      && (r.result == DllLoad <==> w.wait == Signaled && (w.exitQuery.ExitCode? ==> w.exitQuery.code == 0))
      && (w.wait == TimedOut ==> r.result == WritePipe && r.win32Error == ErrorTimeout && KilledLoader in r.events)
      && (w.wait.WaitFailed? ==> r.result == WritePipe && r.win32Error == w.wait.err && KilledLoader in r.events)
      && r.result != ThreadWait
  {
  }

  // ---------------------------------------------------------------------
  // What went down the pipe

  /** The bytes the runtime expects: the header, then the data. */
  function Expected(a: GameArgs): seq<Byte>
  {
    EncodeHeader(a.loadType, a.dataSize) + a.data
  }

  predicate NoSends(ev: seq<Event>)
  {
    forall i :: 0 <= i < |ev| ==> !ev[i].Sent?
  }

  /** The launch got as far as waiting for the loader thread. */
  predicate Waited(r: Run)
  {
    r.result == Ok || r.result == DllLoad || r.result == ResumeThread || KilledLoader in r.events
  }

  /** The bytes sent are always a prefix of the expected message, and all of
      it once the loader thread was waited on. */
  predicate WireFaithful(r: Run, a: GameArgs)
  {
    && Wire(r.events) <= Expected(a)
    && (Waited(r) ==> Wire(r.events) == Expected(a))
  }

  /** The game was resumed once, right after the loader thread's non-zero
      exit code was read and the remote buffer freed, and the handles were
      closed after it. */
  predicate ResumedLast(ev: seq<Event>, code: DWord)
  {
    var tail := [LoaderExited(code), Closed(LoaderThread), FreedRemote, ResumedMain, Closed(GameThread), Closed(GameProcess)];
    && code != 0
    && |tail| <= |ev|
    && ev[|ev| - |tail|..] == tail
    && ResumedMain !in ev[..|ev| - 3]
  }

  lemma PrependResumedLast(p: seq<Event>, ev: seq<Event>, code: DWord)
    requires ResumedLast(ev, code) && ResumedMain !in p
    ensures ResumedLast(p + ev, code)
  {
    var s := p + ev;
    assert s[|s| - 6..] == ev[|ev| - 6..];
    assert s[..|s| - 3] == p + ev[..|ev| - 3];
  }

  lemma UnwindNoSends(loaderOpen: bool, pipeOpen: bool, memLive: bool, committed: bool)
    ensures NoSends(Unwind(loaderOpen, pipeOpen, memLive, committed))
    ensures Wire(Unwind(loaderOpen, pipeOpen, memLive, committed)) == []
  {
    WireWithoutSends(Unwind(loaderOpen, pipeOpen, memLive, committed));
  }

  lemma GateWire(w: World)
    ensures NoSends(Gate(w).events) && Wire(Gate(w).events) == []
    ensures Waited(Gate(w))
    ensures Gate(w).result == Ok ==> ResumedLast(Gate(w).events, LoaderCode(w.exitQuery))
  {
    UnwindNoSends(false, false, false, true);
    UnwindNoSends(false, false, false, false);
    UnwindNoSends(true, false, true, false);
    WireWithoutSends(Gate(w).events);
    GateOutcome(w);
    if Gate(w).result == Ok {
      var ev := Gate(w).events;
      assert ev == [LoaderExited(LoaderCode(w.exitQuery)), Closed(LoaderThread), FreedRemote, ResumedMain, Closed(GameThread), Closed(GameProcess)];
      assert ev[..|ev| - 3] == [LoaderExited(LoaderCode(w.exitQuery)), Closed(LoaderThread), FreedRemote];
    }
  }

  /** The first two events of a handshake put exactly the header on the
      wire. */
  lemma WireHeader(header: seq<Byte>)
    ensures Wire([ConnectedPipe, Sent(header)]) == header
  {
    var sent := [ConnectedPipe, Sent(header)];
    assert sent[1..] == [Sent(header)] && sent[1..][1..] == [];
    assert Wire(sent[1..]) == header + [];
    assert Wire(sent) == [] + (header + []);
    assert [] + (header + []) == header;
  }

  /** A handshake that stopped before the loader was waited on sent a
      prefix of the message. */
  lemma StoppedHandshakeWire(a: GameArgs, h: Run, t: Transfer, b: nat)
    requires WellFormed(a)
    requires OnlySends(t.events) && Wire(t.events) <= a.data
    requires h.result == ConnectPipe || h.result == WritePipe
    requires b <= 2
    requires var sent := [ConnectedPipe, Sent(EncodeHeader(a.loadType, a.dataSize))];
      && (b == 0 ==> h.events == Unwind(true, true, true, false))
      && (b == 1 ==> h.events == [ConnectedPipe] + Unwind(true, true, true, false))
      && (b == 2 ==> h.events == sent + t.events + Unwind(true, true, true, false))
    ensures WireFaithful(h, a)
  {
    StoppedWire(EncodeHeader(a.loadType, a.dataSize), a.data, h.events, t, b);
  }

  /** The stopped handshake, for any header: what went down the pipe is a
      prefix of the header and the data, and the loader was not killed. */
  lemma StoppedWire(header: seq<Byte>, data: seq<Byte>, ev: seq<Event>, t: Transfer, b: nat)
    requires OnlySends(t.events) && Wire(t.events) <= data
    requires b <= 2
    requires var sent := [ConnectedPipe, Sent(header)];
      && (b == 0 ==> ev == Unwind(true, true, true, false))
      && (b == 1 ==> ev == [ConnectedPipe] + Unwind(true, true, true, false))
      && (b == 2 ==> ev == sent + t.events + Unwind(true, true, true, false))
    ensures Wire(ev) <= header + data && KilledLoader !in ev
  {
    var sent := [ConnectedPipe, Sent(header)];
    var u := Unwind(true, true, true, false);
    UnwindNoSends(true, true, true, false);
    UnwindFate(true, true, true, false);
    if b == 0 {
      assert Wire(ev) == [];
    } else if b == 1 {
      WireAppend([ConnectedPipe], u);
      assert Wire([ConnectedPipe]) == [];
    } else {
      WireHeader(header);
      WireAppend(sent, t.events);
      WireAppend(sent + t.events, u);
      assert Wire(ev) == header + Wire(t.events) + [];
      assert header + Wire(t.events) + [] == header + Wire(t.events);
      PrefixCons(header, Wire(t.events), data);
      NotInSends(t.events, KilledLoader);
    }
  }

  /** A handshake that went through sent the whole message before the
      loader was waited on. */
  lemma CompletedHandshake(a: GameArgs, h: Run, g: Run, t: Transfer, code: DWord)
    requires WellFormed(a)
    requires OnlySends(t.events) && Wire(t.events) == a.data
    requires NoSends(g.events) && Wire(g.events) == [] && Waited(g) && g.result != ThreadWait
    requires g.result == Ok ==> g.win32Error == 0 && ResumedLast(g.events, code)
    requires h == Prepend([ConnectedPipe, Sent(EncodeHeader(a.loadType, a.dataSize))] + t.events + [Closed(PipeHandle)], g)
    ensures h.result != ThreadWait
    ensures h.result == Ok ==> h.win32Error == 0 && ResumedLast(h.events, code)
    ensures WireFaithful(h, a)
  {
    CompletedWire(EncodeHeader(a.loadType, a.dataSize), a.data, h, g, t, code);
  }

  /** The completed handshake, for any header: the pipe carried the header
      and then the data, and the outcome is the loader wait's. */
  lemma CompletedWire(header: seq<Byte>, data: seq<Byte>, h: Run, g: Run, t: Transfer, code: DWord)
    requires OnlySends(t.events) && Wire(t.events) == data
    requires NoSends(g.events) && Wire(g.events) == []
    requires g.result == Ok ==> ResumedLast(g.events, code)
    requires h == Prepend([ConnectedPipe, Sent(header)] + t.events + [Closed(PipeHandle)], g)
    ensures h.result == Ok ==> ResumedLast(h.events, code)
    ensures Wire(h.events) == header + data
    ensures KilledLoader in g.events ==> KilledLoader in h.events
  {
    var sent := [ConnectedPipe, Sent(header)];
    var pre := sent + t.events + [Closed(PipeHandle)];
    WireHeader(header);
    WireAppend(sent, t.events);
    WireAppend(sent + t.events, [Closed(PipeHandle)]);
    assert Wire([Closed(PipeHandle)]) == [];
    WireAppend(pre, g.events);
    assert Wire(h.events) == header + data + [] + [];
    assert header + data + [] + [] == header + data;
    if h.result == Ok {
      NotInSends(t.events, ResumedMain);
      PrependResumedLast(pre, g.events, code);
    }
  }

  lemma {:induction false} HandshakeOutcome(a: GameArgs, w: World)
    requires WellFormed(a)
    ensures var h := Handshake(a, w);
      && h.result != ThreadWait
      && (h.result == Ok ==> h.win32Error == 0 && ResumedLast(h.events, LoaderCode(w.exitQuery)))
      && WireFaithful(h, a)
  {
    HandshakeEvents(a, w);
    var t := SendData(a.data, 0, w.dataWrites);
    SendDataFacts(a.data, 0, w.dataWrites);
    assert a.data[0..] == a.data;
    if !ConnectFails(w) && w.headerWrite.Succeeds? && t.failure.None? {
      GateOutcome(w);
      GateWire(w);
      CompletedHandshake(a, Handshake(a, w), Gate(w), t, LoaderCode(w.exitQuery));
    } else {
      StoppedHandshakeWire(a, Handshake(a, w), t, if ConnectFails(w) then 0 else if w.headerWrite.Fails? then 1 else 2);
    }
  }

  // ---------------------------------------------------------------------
  // Lifting the handshake facts to the whole launch

  /** The events between the game's creation and the handshake: no bytes
      sent, no loader killed, no game resumed. */
  predicate Quiet(ev: seq<Event>)
  {
    NoSends(ev) && KilledLoader !in ev && ResumedMain !in ev
  }

  /** What a stage's outcome promises: no thread-wait code, success only
      with no error and right after a non-zero loader exit code, and the
      pipe bytes faithful to the message. */
  predicate Outcome(r: Run, a: GameArgs, code: DWord)
  {
    && r.result != ThreadWait
    && (r.result == Ok ==> r.win32Error == 0 && ResumedLast(r.events, code))
    && WireFaithful(r, a)
  }

  lemma PrependQuiet(p: seq<Event>, r: Run, a: GameArgs, code: DWord)
    requires Quiet(p) && Outcome(r, a, code)
    ensures Outcome(Prepend(p, r), a, code)
  {
    WireWithoutSends(p);
    WireAppend(p, r.events);
    if r.result == Ok {
      PrependResumedLast(p, r.events, code);
    }
  }

  /** A stage that stopped with a failure before the handshake sent nothing
      and did not wait for the loader. */
  lemma QuietFailure(r: Run, a: GameArgs, code: DWord)
    requires Quiet(r.events) && EarlyFailure(r.result)
    ensures Outcome(r, a, code)
  {
    WireWithoutSends(r.events);
  }

  lemma AfterCreateShapesOutcome(a: GameArgs, r: Run, h: Run, b: nat, size: nat, text: seq<char>, restricted: bool, bufferSize: DWord, code: DWord)
    requires Outcome(h, a, code)
    requires AfterCreateShape(r, h, b, size, text, restricted, bufferSize)
    ensures Outcome(r, a, code)
  {
    if b == 4 {
      LoaderStartFate(size, text, restricted, bufferSize);
      PrependQuiet(LoaderStart(size, text, restricted, bufferSize), h, a, code);
    } else {
      var p := EarlyPrefix(b, size, text, restricted, bufferSize);
      EarlyExit(r, p, b == 3, b >= 1);
      QuietFailure(r, a, code);
    }
  }


  lemma {:induction false} AfterCreateOutcome(a: GameArgs, w: World, reduced: bool)
    requires WellFormed(a)
    ensures Outcome(AfterCreate(a, w, reduced), a, LoaderCode(w.exitQuery))
  {
    AfterCreateSplit(a, w, reduced);
    HandshakeOutcome(a, w);
    AfterCreateShapesOutcome(a, AfterCreate(a, w, reduced), Handshake(a, w), AfterCreateBranch(w, reduced), (|a.dllPath| + 1) * 2,
      a.dllPath + [Nul], reduced, BufferSize(a.dataSize), LoaderCode(w.exitQuery));
  }


  // ---------------------------------------------------------------------
  // Handles and the privilege decision, stage by stage

  /** No event of the events creates the game or the pipe or lowers a token. */
  predicate NoSetup(ev: seq<Event>)
  {
    forall e :: e in ev ==> !e.CreatedSuspended? && !e.CreatedPipe? && e != LoweredIntegrity
  }

  predicate OpensNothing(ev: seq<Event>)
  {
    forall k: Kind :: Opened(k) !in ev
  }

  /** The handles the loader wait closes: the loader thread and the game's
      two handles, nothing else. */
  predicate ClosesAfterWait(ev: seq<Event>)
  {
    && OpensNothing(ev) && NoSetup(ev)
    && Closed(LoaderThread) in ev && Closed(GameThread) in ev && Closed(GameProcess) in ev
    && Closed(PipeHandle) !in ev && Closed(ProcessToken) !in ev && Closed(LoweredToken) !in ev
  }

  /** The handles the handshake closes: the pipe as well. */
  predicate ClosesAfterHandshake(ev: seq<Event>)
  {
    && OpensNothing(ev) && NoSetup(ev)
    && Closed(LoaderThread) in ev && Closed(PipeHandle) in ev && Closed(GameThread) in ev && Closed(GameProcess) in ev
    && Closed(ProcessToken) !in ev && Closed(LoweredToken) !in ev
  }

  lemma UnwindHandles(loaderOpen: bool, pipeOpen: bool, memLive: bool, committed: bool)
    ensures var u := Unwind(loaderOpen, pipeOpen, memLive, committed);
      && OpensNothing(u) && NoSetup(u)
      && (Closed(LoaderThread) in u <==> loaderOpen) && (Closed(PipeHandle) in u <==> pipeOpen)
      && Closed(GameThread) in u && Closed(GameProcess) in u
      && Closed(ProcessToken) !in u && Closed(LoweredToken) !in u
  {
    UnwindOpensNothing(loaderOpen, pipeOpen, memLive, committed);
    UnwindNoSetup(loaderOpen, pipeOpen, memLive, committed);
    UnwindCloses(loaderOpen, pipeOpen, memLive, committed);
  }

  lemma UnwindOpensNothing(loaderOpen: bool, pipeOpen: bool, memLive: bool, committed: bool)
    ensures OpensNothing(Unwind(loaderOpen, pipeOpen, memLive, committed))
  {
    UnwindMembers(loaderOpen, pipeOpen, memLive, committed);
  }

  lemma UnwindNoSetup(loaderOpen: bool, pipeOpen: bool, memLive: bool, committed: bool)
    ensures NoSetup(Unwind(loaderOpen, pipeOpen, memLive, committed))
  {
    UnwindMembers(loaderOpen, pipeOpen, memLive, committed);
  }

  lemma UnwindCloses(loaderOpen: bool, pipeOpen: bool, memLive: bool, committed: bool)
    ensures var u := Unwind(loaderOpen, pipeOpen, memLive, committed);
      && (Closed(LoaderThread) in u <==> loaderOpen) && (Closed(PipeHandle) in u <==> pipeOpen)
      && Closed(GameThread) in u && Closed(GameProcess) in u
      && Closed(ProcessToken) !in u && Closed(LoweredToken) !in u
  {
    UnwindMembers(loaderOpen, pipeOpen, memLive, committed);
  }

  lemma SendsHaveNoHandles(ev: seq<Event>)
    requires OnlySends(ev)
    ensures NoSetup(ev) && OpensNothing(ev) && forall k: Kind :: Closed(k) !in ev
  {
  }

  lemma GateHandles(w: World)
    ensures ClosesAfterWait(Gate(w).events)
  {
    match w.wait
    case TimedOut => StoppedLoaderHandles();
    case WaitFailed(_) => StoppedLoaderHandles();
    case Signaled =>
      FinishedHandles(LoaderCode(w.exitQuery));
      ResumedHandles(LoaderCode(w.exitQuery));
  }

  /** A loader that did not finish is killed before the guards run. */
  lemma StoppedLoaderHandles()
    ensures ClosesAfterWait([KilledLoader] + Unwind(true, false, true, false))
  {
    UnwindHandles(true, false, true, false);
  }

  /** A loader that finished with zero, or whose game could not be
      resumed: its thread is closed and the buffer freed before the guards
      run. */
  lemma FinishedHandles(code: DWord)
    ensures ClosesAfterWait([LoaderExited(code), Closed(LoaderThread), FreedRemote] + Unwind(false, false, false, false))
  {
    UnwindHandles(false, false, false, false);
  }

  /** A loader that finished with success, and the game resumed. */
  lemma ResumedHandles(code: DWord)
    ensures ClosesAfterWait([LoaderExited(code), Closed(LoaderThread), FreedRemote] + [ResumedMain]
      + Unwind(false, false, false, true))
  {
    UnwindHandles(false, false, false, true);
  }

  lemma HandshakeShapesHandles(h: Run, g: Run, header: seq<Byte>, t: Transfer, connectFails: bool, headerFails: bool)
    requires ClosesAfterWait(g.events) && OnlySends(t.events)
    requires var sent := [ConnectedPipe, Sent(header)];
      && (connectFails ==> h.events == Unwind(true, true, true, false))
      && (!connectFails && headerFails ==> h.events == [ConnectedPipe] + Unwind(true, true, true, false))
      && (!connectFails && !headerFails && t.failure.Some? ==> h.events == sent + t.events + Unwind(true, true, true, false))
      && (!connectFails && !headerFails && t.failure.None? ==> h == Prepend(sent + t.events + [Closed(PipeHandle)], g))
    ensures ClosesAfterHandshake(h.events)
  {
    var u := Unwind(true, true, true, false);
    UnwindHandles(true, true, true, false);
    if connectFails {
    } else if headerFails {
      PrefixCloses([ConnectedPipe], u);
    } else {
      var sent := [ConnectedPipe, Sent(header)];
      SendsHaveNoHandles(t.events);
      if t.failure.Some? {
        PrefixCloses(t.events, u);
        PrefixCloses(sent, t.events + u);
        Associative(sent, t.events, u);
      } else {
        PipeThenWait(g.events);
        PrefixCloses(t.events, [Closed(PipeHandle)] + g.events);
        PrefixCloses(sent, t.events + ([Closed(PipeHandle)] + g.events));
        Associative(sent, t.events, [Closed(PipeHandle)]);
        Associative(sent + t.events, [Closed(PipeHandle)], g.events);
        Associative(sent, t.events, [Closed(PipeHandle)] + g.events);
      }
    }
  }

  /** Events that open, set up and close nothing keep what follows them
      closing the handshake's handles. */
  lemma PrefixCloses(p: seq<Event>, q: seq<Event>)
    requires forall x :: x in p ==> !x.Opened? && !x.Closed? && !x.CreatedSuspended? && !x.CreatedPipe? && x != LoweredIntegrity
    requires ClosesAfterHandshake(q)
    ensures ClosesAfterHandshake(p + q)
  {
  }

  /** Closing the pipe and then waiting for the loader closes the
      handshake's handles. */
  lemma PipeThenWait(g: seq<Event>)
    requires ClosesAfterWait(g)
    ensures ClosesAfterHandshake([Closed(PipeHandle)] + g)
  {
  }

  lemma {:induction false} HandshakeHandles(a: GameArgs, w: World)
    requires WellFormed(a)
    ensures ClosesAfterHandshake(Handshake(a, w).events)
  {
    HandshakeEvents(a, w);
    GateHandles(w);
    SendDataFacts(a.data, 0, w.dataWrites);
    HandshakeShapesHandles(Handshake(a, w), Gate(w), EncodeHeader(a.loadType, a.dataSize),
      SendData(a.data, 0, w.dataWrites), ConnectFails(w), w.headerWrite.Fails?);
  }

  /** After creation, the stage closes both game handles and closes every
      other handle it opens; it touches no token. */
  predicate ReleasesGame(ev: seq<Event>)
  {
    && Closed(GameThread) in ev && Closed(GameProcess) in ev
    && Opened(GameThread) !in ev && Opened(GameProcess) !in ev
    && (Opened(PipeHandle) in ev <==> Closed(PipeHandle) in ev)
    && (Opened(LoaderThread) in ev <==> Closed(LoaderThread) in ev)
    && Opened(ProcessToken) !in ev && Closed(ProcessToken) !in ev
    && Opened(LoweredToken) !in ev && Closed(LoweredToken) !in ev
  }

  /** The guards open nothing, close the game's two handles and close
      the pipe and the loader thread exactly when they are held. */
  lemma UnwindKinds(loaderOpen: bool, pipeOpen: bool, memLive: bool, committed: bool)
    ensures var u := Unwind(loaderOpen, pipeOpen, memLive, committed);
      && Opened(GameThread) !in u && Opened(GameProcess) !in u && Opened(PipeHandle) !in u
      && Opened(LoaderThread) !in u && Opened(ProcessToken) !in u && Opened(LoweredToken) !in u
      && (Closed(LoaderThread) in u <==> loaderOpen) && (Closed(PipeHandle) in u <==> pipeOpen)
      && Closed(GameThread) in u && Closed(GameProcess) in u
      && Closed(ProcessToken) !in u && Closed(LoweredToken) !in u
  {
    UnwindOpensNothing(loaderOpen, pipeOpen, memLive, committed);
    UnwindCloses(loaderOpen, pipeOpen, memLive, committed);
  }

  /** An early return after creation releases the game and every handle
      it opened. */
  lemma EarlyReleases(p: seq<Event>, pipeOpen: bool, memLive: bool)
    requires Opened(PipeHandle) in p <==> pipeOpen
    requires Opened(GameThread) !in p && Opened(GameProcess) !in p && Opened(LoaderThread) !in p
    requires Opened(ProcessToken) !in p && Opened(LoweredToken) !in p
    requires Closed(GameThread) !in p && Closed(GameProcess) !in p && Closed(LoaderThread) !in p
    requires Closed(PipeHandle) !in p && Closed(ProcessToken) !in p && Closed(LoweredToken) !in p
    ensures ReleasesGame(p + Unwind(false, pipeOpen, memLive, false))
  {
    UnwindKinds(false, pipeOpen, memLive, false);
  }

  /** An early return after creation sets nothing up besides the pipe. */
  lemma EarlySetup(p: seq<Event>, pipeOpen: bool, memLive: bool, restricted: bool, bufferSize: DWord)
    requires forall e :: e in p ==> !e.CreatedSuspended? && e != LoweredIntegrity
    requires forall e :: e in p && e.CreatedPipe? ==> e == CreatedPipe(restricted, bufferSize)
    ensures var ev := p + Unwind(false, pipeOpen, memLive, false);
      && (forall e :: e in ev ==> !e.CreatedSuspended? && e != LoweredIntegrity)
      && (forall e :: e in ev && e.CreatedPipe? ==> e == CreatedPipe(restricted, bufferSize))
  {
    UnwindNoSetup(false, pipeOpen, memLive, false);
  }

  /** The events up to the loader's start, as a list. */
  function LoaderStart(size: nat, text: seq<char>, restricted: bool, bufferSize: DWord): seq<Event>
  {
    [AllocatedRemote(size), WroteRemote(text), CreatedPipe(restricted, bufferSize), Opened(PipeHandle),
     StartedLoader, Opened(LoaderThread)]
  }

  /** Up to the loader's start, the game is neither resumed nor
      terminated nor opened again, the buffer is allocated and not freed,
      and nothing is sent. */
  lemma LoaderStartFate(size: nat, text: seq<char>, restricted: bool, bufferSize: DWord)
    ensures var q := LoaderStart(size, text, restricted, bufferSize);
      && Quiet(q) && AllocatedRemote(size) in q
      && ResumedMain !in q && TerminatedGame !in q && Opened(GameProcess) !in q && FreedRemote !in q
  {
    var q := LoaderStart(size, text, restricted, bufferSize);
    forall x | x in q
      ensures !x.Sent? && x != KilledLoader && x != ResumedMain && x != TerminatedGame
      ensures x != Opened(GameProcess) && x != FreedRemote
    {
    }
    assert q[0] == AllocatedRemote(size);
  }

  /** Up to the loader's start, the pipe and the loader thread are opened,
      nothing is closed and only the pipe is set up. */
  lemma LoaderStartKinds(size: nat, text: seq<char>, restricted: bool, bufferSize: DWord)
    ensures var q := LoaderStart(size, text, restricted, bufferSize);
      && Opened(PipeHandle) in q && Opened(LoaderThread) in q
      && Opened(GameThread) !in q && Opened(GameProcess) !in q
      && Opened(ProcessToken) !in q && Opened(LoweredToken) !in q
      && Closed(GameThread) !in q && Closed(GameProcess) !in q && Closed(LoaderThread) !in q
      && Closed(PipeHandle) !in q && Closed(ProcessToken) !in q && Closed(LoweredToken) !in q
      && (forall e :: e in q ==> !e.CreatedSuspended? && e != LoweredIntegrity)
      && (forall e :: e in q && e.CreatedPipe? ==> e == CreatedPipe(restricted, bufferSize))
  {
    var q := LoaderStart(size, text, restricted, bufferSize);
    forall x | x in q
      ensures x.Opened? ==> x.kind == PipeHandle || x.kind == LoaderThread
      ensures !x.Closed? && !x.CreatedSuspended? && x != LoweredIntegrity
      ensures x.CreatedPipe? ==> x == CreatedPipe(restricted, bufferSize)
    {
    }
    assert q[3] == Opened(PipeHandle) && q[5] == Opened(LoaderThread);
  }

  /** Starting the loader and handing over to the handshake releases the
      game and every handle opened, and sets up only the pipe. */
  lemma LaterReleases(q: seq<Event>, h: seq<Event>)
    requires ClosesAfterHandshake(h)
    requires Opened(PipeHandle) in q && Opened(LoaderThread) in q
    requires Opened(GameThread) !in q && Opened(GameProcess) !in q
    requires Opened(ProcessToken) !in q && Opened(LoweredToken) !in q
    requires Closed(GameThread) !in q && Closed(GameProcess) !in q && Closed(LoaderThread) !in q
    requires Closed(PipeHandle) !in q && Closed(ProcessToken) !in q && Closed(LoweredToken) !in q
    ensures ReleasesGame(q + h)
  {
    assert Opened(GameThread) !in h && Opened(GameProcess) !in h;
    assert Opened(ProcessToken) !in h && Opened(LoweredToken) !in h;
  }

  /** After the loader's start nothing but the pipe is set up. */
  lemma LaterSetup(q: seq<Event>, h: seq<Event>, restricted: bool, bufferSize: DWord)
    requires NoSetup(h)
    requires forall e :: e in q ==> !e.CreatedSuspended? && e != LoweredIntegrity
    requires forall e :: e in q && e.CreatedPipe? ==> e == CreatedPipe(restricted, bufferSize)
    ensures forall e :: e in q + h ==> !e.CreatedSuspended? && e != LoweredIntegrity
    ensures forall e :: e in q + h && e.CreatedPipe? ==> e == CreatedPipe(restricted, bufferSize)
  {
  }

  lemma AfterCreateShapesHandles(r: Run, h: Run, b: nat, size: nat, text: seq<char>, restricted: bool, bufferSize: DWord)
    requires ClosesAfterHandshake(h.events)
    requires AfterCreateShape(r, h, b, size, text, restricted, bufferSize)
    ensures ReleasesGame(r.events)
    ensures forall e :: e in r.events ==> !e.CreatedSuspended? && e != LoweredIntegrity
    ensures forall e :: e in r.events && e.CreatedPipe? ==> e == CreatedPipe(restricted, bufferSize)
  {
    if b == 4 {
      var q := LoaderStart(size, text, restricted, bufferSize);
      LoaderStartKinds(size, text, restricted, bufferSize);
      LaterReleases(q, h.events);
      LaterSetup(q, h.events, restricted, bufferSize);
    } else {
      var p := EarlyPrefix(b, size, text, restricted, bufferSize);
      EarlyReleases(p, b == 3, b >= 1);
      EarlySetup(p, b == 3, b >= 1, restricted, bufferSize);
    }
  }

  lemma {:induction false} AfterCreateHandles(a: GameArgs, w: World, reduced: bool)
    requires WellFormed(a)
    ensures ReleasesGame(AfterCreate(a, w, reduced).events)
    ensures forall e :: e in AfterCreate(a, w, reduced).events ==> !e.CreatedSuspended? && e != LoweredIntegrity
    ensures forall e :: e in AfterCreate(a, w, reduced).events && e.CreatedPipe? ==>
      e == CreatedPipe(reduced, BufferSize(a.dataSize))
  {
    AfterCreateSplit(a, w, reduced);
    HandshakeHandles(a, w);
    var b := AfterCreateBranch(w, reduced);
    AfterCreateShapesHandles(AfterCreate(a, w, reduced), Handshake(a, w), b,
      (|a.dllPath| + 1) * 2, a.dllPath + [Nul], reduced, BufferSize(a.dataSize));
  }

  // ---------------------------------------------------------------------
  // Creating the game

  /** Creation opens both game handles and leaves no token open. */
  predicate HoldsGame(ev: seq<Event>)
  {
    && Opened(GameThread) in ev && Opened(GameProcess) in ev
    && Closed(GameThread) !in ev && Closed(GameProcess) !in ev
    && Opened(PipeHandle) !in ev && Closed(PipeHandle) !in ev
    && Opened(LoaderThread) !in ev && Closed(LoaderThread) !in ev
    && (Opened(ProcessToken) in ev <==> Closed(ProcessToken) in ev)
    && (Opened(LoweredToken) in ev <==> Closed(LoweredToken) in ev)
  }

  /** The token events of a reduced creation that went as far as lowering. */
  function Tokens(): seq<Event>
  {
    [Opened(ProcessToken), Opened(LoweredToken), Closed(ProcessToken)]
  }

  /** Each way creation can stop closes what it opened. */
  lemma StoppedCreationBalanced()
    ensures Balanced([]) && Balanced([Opened(ProcessToken), Closed(ProcessToken)])
    ensures Balanced(Tokens() + [Closed(LoweredToken)])
    ensures Balanced(Tokens() + [LoweredIntegrity, Closed(LoweredToken)])
  {
    forall k: Kind
      ensures Opened(k) in Tokens() + [Closed(LoweredToken)] <==> Closed(k) in Tokens() + [Closed(LoweredToken)]
      ensures Opened(k) in Tokens() + [LoweredIntegrity, Closed(LoweredToken)]
          <==> Closed(k) in Tokens() + [LoweredIntegrity, Closed(LoweredToken)]
    {
    }
  }

  /** Both ways creation can go on hold the game and no token. */
  lemma GoingCreationHolds(created: seq<Event>)
    requires forall x :: x in created ==> !x.Closed? && (x.Opened? ==> x.kind == GameProcess || x.kind == GameThread)
    requires Opened(GameProcess) in created && Opened(GameThread) in created
    ensures HoldsGame(created)
    ensures HoldsGame(Tokens() + [LoweredIntegrity] + created + [Closed(LoweredToken)])
  {
    var ev := Tokens() + [LoweredIntegrity] + created + [Closed(LoweredToken)];
    assert ev[0] == Opened(ProcessToken) && ev[1] == Opened(LoweredToken) && ev[2] == Closed(ProcessToken);
    assert ev[|ev| - 1] == Closed(LoweredToken);
    forall x | x in ev
      ensures x.Closed? ==> x.kind == ProcessToken || x.kind == LoweredToken
      ensures x.Opened? ==> x.kind != PipeHandle && x.kind != LoaderThread
    {
    }
  }

  lemma CreateStageHandles(a: GameArgs, w: World, reduced: bool, cmd: seq<char>, high: bool)
    ensures var c := CreateStage(a, w, reduced, cmd, high);
      && (c.Stop? ==> Balanced(c.run.events))
      && (c.Go? ==> HoldsGame(c.events))
  {
    StoppedCreationBalanced();
    GoingCreationHolds([CreatedSuspended(cmd, reduced, high, a.currentDir), Opened(GameProcess), Opened(GameThread)]);
  }

  lemma CreateStageOutcome(a: GameArgs, w: World, reduced: bool, cmd: seq<char>, high: bool)
    ensures var c := CreateStage(a, w, reduced, cmd, high);
      && (c.Stop? ==> EarlyFailure(c.run.result) && Quiet(c.run.events))
      && (c.Go? ==> Quiet(c.events))
  {
  }

  /** The game is created with the command line, current directory and
      priority asked for, with a lowered token exactly when the launch is
      reduced; a token is lowered only for a reduced launch. */
  lemma CreateStageSetup(a: GameArgs, w: World, reduced: bool, cmd: seq<char>, high: bool)
    ensures var c := CreateStage(a, w, reduced, cmd, high);
      var ev := if c.Stop? then c.run.events else c.events;
      && (forall e :: e in ev && e.CreatedSuspended? ==> e == CreatedSuspended(cmd, reduced, high, a.currentDir))
      && (forall e :: e in ev ==> !e.CreatedPipe?)
      && (LoweredIntegrity in ev ==> reduced)
      && (c.Go? ==> CreatedSuspended(cmd, reduced, high, a.currentDir) in ev && (LoweredIntegrity in ev <==> reduced))
  {
  }

  // ---------------------------------------------------------------------
  // The whole launch

  /** The launch never reports the thread-wait code; a successful launch
      reports no Win32 error and resumed the game once, right after the
      loader thread's non-zero exit code was read and the remote buffer
      freed; the pipe carried a prefix of header and data, and all of it
      whenever the loader thread was waited on. */
  lemma {:induction false} LaunchOutcome(a: GameArgs, w: World)
    requires WellFormed(a)
    ensures Outcome(Launch(a, w), a, LoaderCode(w.exitQuery))
  {
    LaunchStages(a, w);
    var reduced := Reduced(w.elevated, a.flags);
    var cmd := CommandLine.Assemble(a.exePath, a.argv);
    var high := HasFlag(a.flags, FlagHighProcPrio);
    var c := CreateStage(a, w, reduced, cmd, high);
    CreateStageOutcome(a, w, reduced, cmd, high);
    if w.elevationQuery.Fails? {
      QuietFailure(Launch(a, w), a, LoaderCode(w.exitQuery));
    } else if c.Stop? {
      QuietFailure(c.run, a, LoaderCode(w.exitQuery));
    } else {
      AfterCreateOutcome(a, w, reduced);
      PrependQuiet(c.events, AfterCreate(a, w, reduced), a, LoaderCode(w.exitQuery));
    }
  }

  /** Every handle the launch opens (tokens, game process and thread, pipe,
      loader thread) is closed before it returns, whatever happens. */
  lemma {:induction false} HandlesReleased(a: GameArgs, w: World)
    requires WellFormed(a)
    ensures Balanced(Launch(a, w).events)
  {
    LaunchStages(a, w);
    var reduced := Reduced(w.elevated, a.flags);
    var cmd := CommandLine.Assemble(a.exePath, a.argv);
    var high := HasFlag(a.flags, FlagHighProcPrio);
    var c := CreateStage(a, w, reduced, cmd, high);
    CreateStageHandles(a, w, reduced, cmd, high);
    if w.elevationQuery.Succeeds? && c.Go? {
      AfterCreateHandles(a, w, reduced);
      assert Launch(a, w).events == c.events + AfterCreate(a, w, reduced).events;
      BalancedJoin(c.events, AfterCreate(a, w, reduced).events);
    }
  }

  /** Creation followed by everything after it closes what it opened. */
  lemma BalancedJoin(p: seq<Event>, q: seq<Event>)
    requires HoldsGame(p) && ReleasesGame(q)
    ensures Balanced(p + q)
  {
    forall k: Kind
      ensures Opened(k) in p + q <==> Closed(k) in p + q
    {
      match k
      case ProcessToken =>
      case LoweredToken =>
      case GameProcess =>
      case GameThread =>
      case PipeHandle =>
      case LoaderThread =>
    }
  }

  /** The privilege decision: the game runs with a lowered token and the
      pipe is restricted exactly when the caller is elevated and did not ask
      to keep the game elevated; the game gets the assembled command line,
      the current directory and the priority asked for. */
  lemma {:induction false} PrivilegeDecision(a: GameArgs, w: World)
    requires WellFormed(a)
    ensures var r := Launch(a, w);
      var reduced := Reduced(w.elevated, a.flags);
      && (forall e :: e in r.events && e.CreatedSuspended? ==>
            e == CreatedSuspended(CommandLine.Assemble(a.exePath, a.argv), reduced,
                                  HasFlag(a.flags, FlagHighProcPrio), a.currentDir))
      && (forall e :: e in r.events && e.CreatedPipe? ==> e == CreatedPipe(reduced, BufferSize(a.dataSize)))
      && (LoweredIntegrity in r.events ==> reduced)
      && (Opened(GameProcess) in r.events ==> (LoweredIntegrity in r.events <==> reduced))
  {
    LaunchStages(a, w);
    var reduced := Reduced(w.elevated, a.flags);
    var cmd := CommandLine.Assemble(a.exePath, a.argv);
    var high := HasFlag(a.flags, FlagHighProcPrio);
    var c := CreateStage(a, w, reduced, cmd, high);
    CreateStageSetup(a, w, reduced, cmd, high);
    CreateStageHandles(a, w, reduced, cmd, high);
    if w.elevationQuery.Succeeds? && c.Go? {
      AfterCreateHandles(a, w, reduced);
      assert Launch(a, w).events == c.events + AfterCreate(a, w, reduced).events;
    }
  }
}
