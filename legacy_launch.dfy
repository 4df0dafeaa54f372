/** The older injector's launcher: it starts the game suspended with a
    command line it assembles itself, copies its own image into the game,
    redirects the game's first thread to it, and retries once under the
    Spacewar app ID when the game reports that Steam would not start. */
module LegacyLaunch {
  import opened Wrappers
  import opened LegacyErrors
  import InjectorApi

  // ---------------------------------------------------------------------
  // The command line

  const Nul: char := '\0'

  /** A space and the argument, for each argument in order, with no quoting
      or escaping of any kind. */
  function Appended(argv: seq<string>): string
  {
    if argv == [] then [] else Appended(argv[..|argv| - 1]) + [' '] + argv[|argv| - 1]
  }

  /** The command line the game is started with: the full path of the game
      executable in double quotes, then the arguments. */
  function CommandLine(fullPath: string, argv: seq<string>): string
  {
    ['"'] + fullPath + ['"'] + Appended(argv)
  }

  /** The characters the arguments add: each one's length plus one. */
  function ArgsLength(argv: seq<string>): nat
  {
    if argv == [] then 0 else ArgsLength(argv[..|argv| - 1]) + |argv[|argv| - 1]| + 1
  }

  /** An argument equal to "-high" asks for high priority. */
  predicate AsksHighPriority(argv: seq<string>)
  {
    "-high" in argv
  }

  lemma {:induction false} AppendedSplit(a: seq<string>, b: seq<string>)
    ensures Appended(a + b) == Appended(a) + Appended(b)
    ensures ArgsLength(a + b) == ArgsLength(a) + ArgsLength(b)
    decreases |b|
  {
    if b == [] {
      assert a + b == a;
    } else {
      assert (a + b)[..|a + b| - 1] == a + b[..|b| - 1];
      AppendedSplit(a, b[..|b| - 1]);
    }
  }

  /** The arguments are counted exactly: the command line and its
      terminator fill the commandLineLength characters allocated for it,
      which are the full path's length with its terminator, two quotes, and
      each argument's length plus one. */
  lemma {:induction false} CommandLineLength(fullPath: string, argv: seq<string>)
    ensures |CommandLine(fullPath, argv)| + 1 == (|fullPath| + 1) + 2 + ArgsLength(argv)
    decreases |argv|
  {
    if argv != [] {
      CommandLineLength(fullPath, argv[..|argv| - 1]);
    }
  }

  /** Every argument reaches the game verbatim, after a space and in its
      place: "-high" included. */
  lemma ArgumentVerbatim(fullPath: string, argv: seq<string>, i: nat)
    requires i < |argv|
    ensures CommandLine(fullPath, argv)
      == CommandLine(fullPath, argv[..i]) + [' '] + argv[i] + Appended(argv[i + 1..])
  {
    assert argv == argv[..i + 1] + argv[i + 1..];
    AppendedSplit(argv[..i + 1], argv[i + 1..]);
    assert argv[..i + 1][..i] == argv[..i];
  }

  /** One more argument adds a space and the argument to the command line,
      and its length plus one to the count. */
  lemma CommandLineStep(fullPath: string, argv: seq<string>, i: nat)
    requires i < |argv|
    ensures CommandLine(fullPath, argv[..i + 1]) == CommandLine(fullPath, argv[..i]) + [' '] + argv[i]
    ensures ArgsLength(argv[i..]) == |argv[i]| + 1 + ArgsLength(argv[i + 1..])
    ensures ("-high" in argv[..i + 1]) == (("-high" in argv[..i]) || argv[i] == "-high")
  {
    assert argv[..i + 1][..i] == argv[..i];
    assert argv[..i + 1] == argv[..i] + [argv[i]];
    var prefix := ['"'] + fullPath + ['"'];
    var rest := Appended(argv[..i]);
    assert prefix + (rest + [' '] + argv[i]) == prefix + rest + [' '] + argv[i];
    AppendedSplit([argv[i]], argv[i + 1..]);
    assert [argv[i]] + argv[i + 1..] == argv[i..];
    assert [argv[i]][..0] == [];
  }

  /** memcpy of a string into the buffer at an offset. */
  method CopyInto(buffer: array<char>, at: nat, s: string)
    requires at + |s| <= buffer.Length
    modifies buffer
    ensures buffer[..at] == old(buffer[..at])
    ensures buffer[at..at + |s|] == s
  {
    forall j | 0 <= j < |s| {
      buffer[at + j] := s[j];
    }
  }

  /** The opening quote, the path written by GetFullPathNameW with its
      terminator, and the closing quote over that terminator. */
  method PutQuotedPath(buffer: array<char>, fullPath: string)
    requires |fullPath| + 2 <= buffer.Length
    modifies buffer
    ensures buffer[..|fullPath| + 2] == ['"'] + fullPath + ['"']
  {
    buffer[0] := '"';
    CopyInto(buffer, 1, fullPath);
    buffer[1 + |fullPath|] := Nul;
    buffer[1 + |fullPath|] := '"';
    assert buffer[..|fullPath| + 2] == buffer[..1] + buffer[1..1 + |fullPath|] + [buffer[1 + |fullPath|]];
  }

  /** A space at the offset, then the argument's characters. */
  method PutArgument(buffer: array<char>, offset: nat, arg: string)
    requires offset + 1 + |arg| <= buffer.Length
    modifies buffer
    ensures buffer[..offset + 1 + |arg|] == old(buffer[..offset]) + [' '] + arg
  {
    buffer[offset] := ' ';
    CopyInto(buffer, offset + 1, arg);
    assert buffer[..offset + 1 + |arg|]
      == buffer[..offset] + [buffer[offset]] + buffer[offset + 1..offset + 1 + |arg|];
  }

  /** The command-line assembly of launch_game_and_inject. `fullPath` is
      what GetFullPathNameW makes of the executable's path: the first call
      reports its length plus the terminator, the second writes it after
      the opening quote. */
  method AssembleCommandLine(fullPath: string, argv: seq<string>)
      returns (buffer: array<char>, setHighPriority: bool)
    ensures fresh(buffer)
    ensures buffer.Length == (|fullPath| + 1) + 2 + ArgsLength(argv)
    ensures buffer[..] == CommandLine(fullPath, argv) + [Nul]
    ensures setHighPriority == AsksHighPriority(argv)
  {
    var commandLineLength := (|fullPath| + 1) + 2;
    var i := 0;
    while i < |argv|
      invariant 0 <= i <= |argv|
      invariant commandLineLength == (|fullPath| + 1) + 2 + ArgsLength(argv[..i])
    {
      assert argv[..i + 1][..i] == argv[..i];
      commandLineLength := commandLineLength + |argv[i]| + 1;
      i := i + 1;
    }
    assert argv[..i] == argv;
    buffer := new char[commandLineLength];
    PutQuotedPath(buffer, fullPath);
    var offset: nat := |fullPath| + 2;
    assert argv[..0] == [] && argv[0..] == argv;
    setHighPriority := false;
    i := 0;
    while i < |argv|
      invariant 0 <= i <= |argv|
      invariant buffer.Length == offset + ArgsLength(argv[i..]) + 1
      invariant buffer[..offset] == CommandLine(fullPath, argv[..i])
      invariant setHighPriority == ("-high" in argv[..i])
    {
      CommandLineStep(fullPath, argv, i);
      var argLength := |argv[i]|;
      if argLength == 5 && argv[i] == "-high" {
        setHighPriority := true;
      }
      PutArgument(buffer, offset, argv[i]);
      offset := offset + 1 + argLength;
      i := i + 1;
    }
    assert argv[..i] == argv && argv[i..] == [];
    buffer[offset] := Nul;
    assert buffer[..] == buffer[..offset] + [buffer[offset]];
  }

  // ---------------------------------------------------------------------
  // One launch

  /** What the system calls of launch_game_and_inject answer. */
  datatype Oracle = Oracle(
    sectionsReadable: bool,      // every VirtualProtect of the section loop succeeds
    fullPath: string,            // GetFullPathNameW's result
    processCreated: bool,        // CreateProcessW
    imageAllocated: bool,            // VirtualAllocEx
    written: bool,               // WriteProcessMemory
    contextSet: bool,            // SetThreadContext
    exitedWithin: bool,          // WaitForSingleObject returns WAIT_OBJECT_0 within 10 s
    exitCode: InjectorApi.DWord) // GetExitCodeProcess

  /** What launch_game_and_inject does to the game process. */
  datatype Action =
    | Created(commandLine: string, highPriority: bool)  // suspended
    | Resumed
    | ThreadTerminated(code: int)
    | ClosedThread
    | ClosedProcess

  /** The game's exit code read through an enum error_code, a signed int. */
  function Signed32(d: InjectorApi.DWord): int
  {
    if d < 0x8000_0000 then d else d - 0x1_0000_0000
  }

  /** The image is copied and the thread redirected. */
  predicate Injected(o: Oracle)
  {
    o.processCreated && o.imageAllocated && o.written && o.contextSet
  }

  /** The result of launch_game_and_inject. */
  function Outcome(isEmbedded: bool, o: Oracle): int
  {
    if !isEmbedded && !o.sectionsReadable then CodeOf(VirtualProtectFailed)
    else if !o.processCreated then CodeOf(CreateProcessFailed)
    else if !o.imageAllocated then CodeOf(VirtualAllocFailed)
    else if !o.written then CodeOf(WriteProcMemFailed)
    else if !o.contextSet then CodeOf(SetThreadCtxFailed)
    else if o.exitedWithin then Signed32(o.exitCode)
    else EcSuccess
  }

  /** The codes at which the game's first thread is terminated. */
  predicate Terminates(result: int)
  {
    EcMin < result <= CodeOf(SetThreadCtxFailed)
  }

  /** The actions of launch_game_and_inject: once the process exists, the
      thread is resumed if the injection went through, terminated if the
      result is an injector code (or the game exited with one), and both
      handles are closed. */
  function Actions(argv: seq<string>, isEmbedded: bool, o: Oracle): seq<Action>
  {
    if (!isEmbedded && !o.sectionsReadable) || !o.processCreated then []
    else
      var result := Outcome(isEmbedded, o);
      [Created(CommandLine(o.fullPath, argv), AsksHighPriority(argv))]
      + (if Injected(o) then [Resumed] else [])
      + (if Terminates(result) then [ThreadTerminated(result)] else [])
      + [ClosedThread, ClosedProcess]
  }

  /** launch_game_and_inject, from the section loop to the handles being
      closed at Exit. */
  method LaunchGameAndInject(argv: seq<string>, isEmbedded: bool, o: Oracle)
      returns (result: int, actions: seq<Action>)
    ensures result == Outcome(isEmbedded, o)
    ensures actions == Actions(argv, isEmbedded, o)
  {
    actions := [];
    if !isEmbedded && !o.sectionsReadable {
      return CodeOf(VirtualProtectFailed), actions;
    }
    var commandLine, setHighPriority := AssembleCommandLine(o.fullPath, argv);
    if !o.processCreated {
      return CodeOf(CreateProcessFailed), actions;
    }
    actions := [Created(commandLine[..commandLine.Length - 1], setHighPriority)];
    result := EcSuccess;
    if !o.imageAllocated {
      result := CodeOf(VirtualAllocFailed);
    } else if !o.written {
      result := CodeOf(WriteProcMemFailed);
    } else if !o.contextSet {
      result := CodeOf(SetThreadCtxFailed);
    } else {
      actions := actions + [Resumed];
      if o.exitedWithin {
        result := Signed32(o.exitCode);
      }
    }
    if result > EcMin && result <= CodeOf(SetThreadCtxFailed) {
      actions := actions + [ThreadTerminated(result)];
    }
    actions := actions + [ClosedThread, ClosedProcess];
  }

  /** Every failure of the injector has a message in the table, the game's
      thread is terminated whenever the process exists but the injection
      failed, and a game still running after ten seconds is a success. */
  lemma OutcomeSteps(isEmbedded: bool, o: Oracle)
    ensures var r := Outcome(isEmbedded, o);
      && (!(isEmbedded || o.sectionsReadable) || !Injected(o) ==> TableMessage(r).Some?)
      && ((isEmbedded || o.sectionsReadable) && o.processCreated && !Injected(o) ==> Terminates(r))
      && ((isEmbedded || o.sectionsReadable) && Injected(o) && !o.exitedWithin ==> r == EcSuccess)
  {
  }

  /** The second launch is only ever asked for by the game: the result is
      GEC_STEAM_API_INIT_FAILED exactly when the injected game exited within
      ten seconds with that code. */
  lemma SteamFailureFromGame(isEmbedded: bool, o: Oracle)
    ensures Outcome(isEmbedded, o) == CodeOf(SteamApiInitFailed)
      <==> ((isEmbedded || o.sectionsReadable) && Injected(o) && o.exitedWithin && o.exitCode == 0xFFFF_FFFE)
  {
  }

  /** Once the process exists both of its handles are closed, last; the
      thread runs only if the injection went through; and it is terminated
      exactly for a result in (EC_MIN, IEC_SET_THREAD_CTX_FAILED]. */
  lemma ActionsHandles(argv: seq<string>, isEmbedded: bool, o: Oracle)
    ensures var a := Actions(argv, isEmbedded, o);
      && (a != [] <==> (isEmbedded || o.sectionsReadable) && o.processCreated)
      && (a != [] ==>
            (a[|a| - 2..] == [ClosedThread, ClosedProcess]
             && a[0] == Created(CommandLine(o.fullPath, argv), AsksHighPriority(argv))))
      && (Resumed in a <==> (isEmbedded || o.sectionsReadable) && Injected(o))
      && (ThreadTerminated(Outcome(isEmbedded, o)) in a <==> a != [] && Terminates(Outcome(isEmbedded, o)))
  {
    var a := Actions(argv, isEmbedded, o);
    if a != [] {
      var r := Outcome(isEmbedded, o);
      assert a[0] == Created(CommandLine(o.fullPath, argv), AsksHighPriority(argv));
      if !Terminates(r) {
        assert forall k :: 0 <= k < |a| ==> !a[k].ThreadTerminated?;
      }
    }
  }

  // ---------------------------------------------------------------------
  // Retrying as Spacewar

  /** What a launch policy does, in order. */
  datatype Step =
    | SetEnv(name: string, value: string)   // SetEnvironmentVariableA
    | Launch(exePath: string, actions: seq<Action>) // a call of launch_game_and_inject
    | ShowError(code: int)                  // show_error_message

  const SpacewarAppId: string := "480"

  /** The environment each launch sees, given the one before the steps. */
  function LaunchEnvs(steps: seq<Step>, env: map<string, string>): seq<map<string, string>>
  {
    if steps == [] then []
    else match steps[0]
      case SetEnv(name, value) => LaunchEnvs(steps[1..], env[name := value])
      case Launch(_, _) => [env] + LaunchEnvs(steps[1..], env)
      case ShowError(_) => LaunchEnvs(steps[1..], env)
  }

  /** The codes shown to the user, in order. */
  function Shown(steps: seq<Step>): seq<int>
  {
    if steps == [] then []
    else (if steps[0].ShowError? then [steps[0].code] else []) + Shown(steps[1..])
  }

  /** The launches, in order: the executable each is called with and what
      it does to the game. */
  function Launches(steps: seq<Step>): seq<(string, seq<Action>)>
  {
    if steps == [] then []
    else (if steps[0].Launch? then [(steps[0].exePath, steps[0].actions)] else []) + Launches(steps[1..])
  }

  lemma {:induction false} LaunchEnvsAppend(a: seq<Step>, b: seq<Step>, env: map<string, string>)
    ensures LaunchEnvs(a + b, env) == LaunchEnvs(a, env) + LaunchEnvs(b, EnvAfter(a, env))
    ensures Shown(a + b) == Shown(a) + Shown(b)
  {
    if a == [] {
      assert a + b == b;
    } else {
      assert (a + b)[1..] == a[1..] + b;
      var next := if a[0].SetEnv? then env[a[0].name := a[0].value] else env;
      LaunchEnvsAppend(a[1..], b, next);
    }
  }

  lemma {:induction false} LaunchesAppend(a: seq<Step>, b: seq<Step>)
    ensures Launches(a + b) == Launches(a) + Launches(b)
  {
    if a == [] {
      assert a + b == b;
    } else {
      assert (a + b)[1..] == a[1..] + b;
      LaunchesAppend(a[1..], b);
    }
  }

  /** The environment after the steps. */
  function EnvAfter(steps: seq<Step>, env: map<string, string>): map<string, string>
  {
    if steps == [] then env
    else match steps[0]
      case SetEnv(name, value) => EnvAfter(steps[1..], env[name := value])
      case _ => EnvAfter(steps[1..], env)
  }

  /** Both app ID variables are `appId`. */
  predicate AppIdsAre(env: map<string, string>, appId: string)
  {
    "SteamAppId" in env && env["SteamAppId"] == appId
    && "GameAppId" in env && env["GameAppId"] == appId
  }

  /** Setting both app IDs, then launching. */
  function Round(appId: string, exePath: string, actions: seq<Action>): seq<Step>
  {
    [SetEnv("SteamAppId", appId), SetEnv("GameAppId", appId), Launch(exePath, actions)]
  }

  /** A round launches once, with both app IDs set, and shows nothing. */
  lemma RoundEffect(appId: string, exePath: string, actions: seq<Action>, env: map<string, string>)
    ensures LaunchEnvs(Round(appId, exePath, actions), env) == [env["SteamAppId" := appId]["GameAppId" := appId]]
    ensures EnvAfter(Round(appId, exePath, actions), env) == env["SteamAppId" := appId]["GameAppId" := appId]
    ensures Shown(Round(appId, exePath, actions)) == []
    ensures Launches(Round(appId, exePath, actions)) == [(exePath, actions)]
  {
    var r := Round(appId, exePath, actions);
    var e1 := env["SteamAppId" := appId];
    var e2 := e1["GameAppId" := appId];
    assert r[1..] == [SetEnv("GameAppId", appId), Launch(exePath, actions)];
    assert r[1..][1..] == [Launch(exePath, actions)];
    assert r[1..][1..][1..] == [];
    assert LaunchEnvs(r[1..][1..], e2) == [e2];
    assert LaunchEnvs(r[1..], e1) == [e2];
    assert EnvAfter(r[1..][1..], e2) == e2;
    assert EnvAfter(r[1..], e1) == e2;
    assert Shown(r[1..][1..]) == [];
    assert Shown(r[1..]) == [];
    assert Launches(r[1..][1..]) == [(exePath, actions)];
    assert Launches(r[1..]) == [(exePath, actions)];
  }

  /** The policy of launch_asa, launch_ase and entry: launch under the
      game's own app ID; if the game says Steam would not start, set both
      app IDs to Spacewar's and launch once more; show the final result if
      it is not success. Both launches run the same executable with the
      same arguments. */
  method LaunchWithFallback(appId: string, exePath: string, argv: seq<string>, isEmbedded: bool,
                            first: Oracle, second: Oracle, env: map<string, string>)
      returns (result: int, steps: seq<Step>)
    ensures var retried := Outcome(isEmbedded, first) == CodeOf(SteamApiInitFailed);
      && result == (if retried then Outcome(isEmbedded, second) else Outcome(isEmbedded, first))
      && Launches(steps) == [(exePath, Actions(argv, isEmbedded, first))]
           + (if retried then [(exePath, Actions(argv, isEmbedded, second))] else [])
      && |LaunchEnvs(steps, env)| == (if retried then 2 else 1)
      && AppIdsAre(LaunchEnvs(steps, env)[0], appId)
      && (retried ==> AppIdsAre(LaunchEnvs(steps, env)[1], SpacewarAppId))
      && Shown(steps) == (if result != EcSuccess then [result] else [])
  {
    var actions;
    result, actions := LaunchGameAndInject(argv, isEmbedded, first);
    steps := Round(appId, exePath, actions);
    RoundEffect(appId, exePath, actions, env);
    if result == CodeOf(SteamApiInitFailed) {
      result, actions := LaunchGameAndInject(argv, isEmbedded, second);
      LaunchEnvsAppend(steps, Round(SpacewarAppId, exePath, actions), env);
      LaunchesAppend(steps, Round(SpacewarAppId, exePath, actions));
      RoundEffect(SpacewarAppId, exePath, actions, EnvAfter(steps, env));
      steps := steps + Round(SpacewarAppId, exePath, actions);
    }
    if result != EcSuccess {
      LaunchEnvsAppend(steps, [ShowError(result)], env);
      LaunchesAppend(steps, [ShowError(result)]);
      assert [ShowError(result)][1..] == [];
      steps := steps + [ShowError(result)];
    }
  }

  /** The two games the injector knows. */
  datatype Game = Asa | Ase

  function AppId(g: Game): string
  {
    match g
    case Asa => "2399830"
    case Ase => "346110"
  }

  /** The executable entry looks for and launches. */
  function Executable(g: Game): string
  {
    match g
    case Asa => "ArkAscended.exe"
    case Ase => "ShooterGame.exe"
  }

  /** launch_asa and launch_ase: the exported entry points for a host that
      has loaded the injector, whose image is therefore already readable;
      `exePath` and `argv` are the host's, passed on whole. */
  method LaunchEmbedded(g: Game, exePath: string, argv: seq<string>, first: Oracle, second: Oracle,
                        env: map<string, string>)
      returns (steps: seq<Step>)
    ensures var retried := Outcome(true, first) == CodeOf(SteamApiInitFailed);
      && var result := if retried then Outcome(true, second) else Outcome(true, first);
      && Launches(steps) == [(exePath, Actions(argv, true, first))]
           + (if retried then [(exePath, Actions(argv, true, second))] else [])
      && |LaunchEnvs(steps, env)| == (if retried then 2 else 1)
      && AppIdsAre(LaunchEnvs(steps, env)[0], AppId(g))
      && (retried ==> AppIdsAre(LaunchEnvs(steps, env)[1], SpacewarAppId))
      && Shown(steps) == (if result != EcSuccess then [result] else [])
  {
    var _, s := LaunchWithFallback(AppId(g), exePath, argv, true, first, second, env);
    steps := s;
  }

  /** The game found in the current directory: ArkAscended.exe first. */
  function SelectGame(hasAsa: bool, hasAse: bool): (g: Option<Game>)
    ensures g.Some? <==> hasAsa || hasAse
    ensures g == Some(Ase) ==> !hasAsa
  {
    if hasAsa then Some(Asa) else if hasAse then Some(Ase) else None
  }

  /** The arguments passed on: those after the program name, none when
      CommandLineToArgvW reports no argument at all. */
  function GameArguments(argv: seq<string>): (args: seq<string>)
    ensures |argv| == 0 ==> args == []
    ensures |argv| > 0 ==> [argv[0]] + args == argv
  {
    if |argv| == 0 then [] else argv[1..]
  }

  /** entry: the standalone tek-injector.exe. Without either game in the
      current directory it reports so and exits with 0; otherwise it runs
      the launch policy on the game found (its own image not being
      readable yet) and exits with the final result as a UINT. */
  method Entry(hasAsa: bool, hasAse: bool, argv: seq<string>, first: Oracle, second: Oracle,
               env: map<string, string>)
      returns (notFound: bool, steps: seq<Step>, exitCode: InjectorApi.DWord)
    ensures notFound <==> !hasAsa && !hasAse
    ensures notFound ==> steps == [] && exitCode == 0
    ensures !notFound ==>
      var g := SelectGame(hasAsa, hasAse).value;
      var retried := Outcome(false, first) == CodeOf(SteamApiInitFailed);
      var result := if retried then Outcome(false, second) else Outcome(false, first);
      var args := GameArguments(argv);
      && exitCode == result % 0x1_0000_0000
      && Launches(steps) == [(Executable(g), Actions(args, false, first))]
           + (if retried then [(Executable(g), Actions(args, false, second))] else [])
      && |LaunchEnvs(steps, env)| == (if retried then 2 else 1)
      && AppIdsAre(LaunchEnvs(steps, env)[0], AppId(g))
      && (retried ==> AppIdsAre(LaunchEnvs(steps, env)[1], SpacewarAppId))
      && Shown(steps) == (if result != EcSuccess then [result] else [])
  {
    var game := SelectGame(hasAsa, hasAse);
    if game.None? {
      return true, [], 0;
    }
    var result;
    result, steps := LaunchWithFallback(AppId(game.value), Executable(game.value), GameArguments(argv), false,
                                        first, second, env);
    notFound, exitCode := false, result % 0x1_0000_0000;
  }

  // ---------------------------------------------------------------------
  // The DLC ISteamApps reports for ARK: Survival Ascended

  const DlcCount: int := 2

  /** asa_get_dlc_data_by_index: the app ID and name of a DLC, which is
      always reported available. */
  function DlcData(index: int): (d: (bool, nat, string, bool))
  {
    match index
    case 0 => (true, 2849450, "ARK: Scorched Earth Ascended", true)
    case 1 => (true, 2881150, "ARK: Bob's Tall Tales", true)
    case _ => (false, 0, "", true)
  }

  /** asa_get_dlc_count's count matches the indices that have data, and
      the two DLCs are distinct. */
  lemma DlcIndices(index: int)
    ensures DlcData(index).0 <==> 0 <= index < DlcCount
    ensures DlcData(index).3
    ensures DlcData(0).1 != DlcData(1).1
  {
  }
}
