/** tek-injector.exe: reads its own options from the command line, passes
    every other argument to the game, runs the game through the library
    and reports a failure with a message. */
module InjectorExe {
  import opened Wrappers
  import opened InjectorApi
  import opened LaunchSpec
  import opened Launcher
  import Decimal
  import Utf8

  type Text = seq<char>

  const ExePathOption: Text := "--ti-exe-path"
  const CurrentDirOption: Text := "--ti-current-dir"
  const DllPathOption: Text := "--ti-dll-path"
  const SettingsPathOption: Text := "--ti-settings-path"
  const HighPriorityOption: Text := "--ti-high-priority"
  const RunAsAdminOption: Text := "--ti-run-as-admin"

  const DefaultDllPath: Text := "libtek-game-runtime.dll"

  /** The variables the value options set. */
  datatype Field = ExePath | CurrentDir | DllPath | SettingsPath

  /** The flags the flag options set. */
  datatype Flag = HighPriority | RunAsAdmin

  /** What an argument is to the scan. */
  datatype Arg = ValueOption(field: Field) | FlagOption(flag: Flag) | Plain

  function Classify(a: Text): Arg
  {
    if a == ExePathOption then ValueOption(ExePath)
    else if a == CurrentDirOption then ValueOption(CurrentDir)
    else if a == DllPathOption then ValueOption(DllPath)
    else if a == HighPriorityOption then FlagOption(HighPriority)
    else if a == RunAsAdminOption then FlagOption(RunAsAdmin)
    else if a == SettingsPathOption then ValueOption(SettingsPath)
    else Plain
  }

  /** What the scan of the command line collects. The flags are kept as
      the two bits that may be ORed in; the settings path is kept as given,
      its UTF-8 form being what the request carries. */
  datatype Options = Options(
    exePath: Text,
    currentDir: Text,
    dllPath: Text,
    highPriority: bool,
    runAsAdmin: bool,
    settingsPath: Text,
    gameArgv: seq<Text>)

  const Defaults: Options := Options([], [], DefaultDllPath, false, false, [], [])

  function ValueOf(o: Options, f: Field): Text
  {
    match f
    case ExePath => o.exePath
    case CurrentDir => o.currentDir
    case DllPath => o.dllPath
    case SettingsPath => o.settingsPath
  }

  function WithValue(o: Options, f: Field, value: Text): Options
  {
    match f
    case ExePath => o.(exePath := value)
    case CurrentDir => o.(currentDir := value)
    case DllPath => o.(dllPath := value)
    case SettingsPath => o.(settingsPath := value)
  }

  /** `flags |= flag`. */
  function WithFlag(o: Options, flag: Flag): Options
  {
    match flag
    case HighPriority => o.(highPriority := true)
    case RunAsAdmin => o.(runAsAdmin := true)
  }

  /** The tek_inj_flag value of the options. */
  function FlagBits(o: Options): (flags: Flags)
  {
    (if o.highPriority then FlagHighProcPrio else FlagNone)
    | (if o.runAsAdmin then FlagRunAsAdmin else FlagNone)
  }

  /** Each flag option sets its own bit and nothing else. */
  lemma FlagBitsMeaning(o: Options)
    ensures HasFlag(FlagBits(o), FlagHighProcPrio) <==> o.highPriority
    ensures HasFlag(FlagBits(o), FlagRunAsAdmin) <==> o.runAsAdmin
    ensures FlagBits(o) & !(FlagHighProcPrio | FlagRunAsAdmin) == 0
  {
  }

  /** The scan from position i on, with the options collected so far: a
      value option takes the next argument if there is one (and ends the
      scan if there is none), a flag option ORs in its flag, and anything
      else goes to the game. */
  function ScanFrom(args: seq<Text>, i: nat, o: Options): Options
    decreases |args| - i
  {
    if i >= |args| then o
    else match Classify(args[i])
      case ValueOption(f) => if i + 1 < |args| then ScanFrom(args, i + 2, WithValue(o, f, args[i + 1])) else o
      case FlagOption(flag) => ScanFrom(args, i + 1, WithFlag(o, flag))
      case Plain => ScanFrom(args, i + 1, o.(gameArgv := o.gameArgv + [args[i]]))
  }

  /** The scan of wmain's argv, from the element after the program name. */
  function Scanned(argv: seq<Text>): Options
  {
    ScanFrom(argv, 1, Defaults)
  }

  /** The scanning loop of wmain. */
  method Scan(argv: seq<Text>) returns (o: Options)
    ensures o == Scanned(argv)
  {
    o := Defaults;
    var it := 1;
    while it < |argv|
      invariant 1 <= it
      invariant ScanFrom(argv, it, o) == Scanned(argv)
      decreases |argv| - it
    {
      var view := argv[it];
      if view == ExePathOption {
        it := it + 1;
        if it < |argv| {
          o := o.(exePath := argv[it]);
        }
      } else if view == CurrentDirOption {
        it := it + 1;
        if it < |argv| {
          o := o.(currentDir := argv[it]);
        }
      } else if view == DllPathOption {
        it := it + 1;
        if it < |argv| {
          o := o.(dllPath := argv[it]);
        }
      } else if view == HighPriorityOption {
        o := o.(highPriority := true);
      } else if view == RunAsAdminOption {
        o := o.(runAsAdmin := true);
      } else if view == SettingsPathOption {
        it := it + 1;
        if it < |argv| {
          o := o.(settingsPath := argv[it]);
        }
      } else {
        o := o.(gameArgv := o.gameArgv + [view]);
      }
      it := it + 1;
    }
  }

  lemma ShiftStep(a: seq<Text>, i: nat, b: seq<Text>, j: nat)
    requires i < |a| && j < |b| && a[i..] == b[j..]
    ensures a[i] == b[j]
    ensures i + 1 < |a| <==> j + 1 < |b|
    ensures i + 1 < |a| ==> a[i + 1] == b[j + 1]
    ensures a[i + 1..] == b[j + 1..]
    ensures i + 2 <= |a| ==> a[i + 2..] == b[j + 2..]
  {
    assert a[i] == a[i..][0];
    assert b[j] == b[j..][0];
    if i + 1 < |a| {
      assert a[i + 1] == a[i..][1];
      assert b[j + 1] == b[j..][1];
    }
    assert a[i + 1..] == a[i..][1..];
    assert b[j + 1..] == b[j..][1..];
    if i + 2 <= |a| {
      assert a[i + 2..] == a[i..][2..];
      assert b[j + 2..] == b[j..][2..];
    }
  }

  /** The scan depends only on the arguments not yet seen. */
  lemma {:induction false} ScanShift(a: seq<Text>, i: nat, b: seq<Text>, j: nat, o: Options)
    requires i <= |a| && j <= |b| && a[i..] == b[j..]
    ensures ScanFrom(a, i, o) == ScanFrom(b, j, o)
    decreases |a| - i
  {
    if i < |a| {
      ShiftStep(a, i, b, j);
      match Classify(a[i])
      case ValueOption(f) =>
        if i + 1 < |a| {
          ScanShift(a, i + 2, b, j + 2, WithValue(o, f, a[i + 1]));
        }
      case FlagOption(flag) =>
        ScanShift(a, i + 1, b, j + 1, WithFlag(o, flag));
      case Plain =>
        ScanShift(a, i + 1, b, j + 1, o.(gameArgv := o.gameArgv + [a[i]]));
    }
  }

  /** Arguments that are none of the six options all go to the game, in
      their order, and change nothing else. */
  lemma {:induction false} PlainArguments(args: seq<Text>, i: nat, o: Options)
    requires i <= |args|
    requires forall j :: i <= j < |args| ==> Classify(args[j]).Plain?
    ensures ScanFrom(args, i, o) == o.(gameArgv := o.gameArgv + args[i..])
    decreases |args| - i
  {
    if i == |args| {
      assert args[i..] == [];
      assert o.gameArgv + [] == o.gameArgv;
    } else {
      PlainArguments(args, i + 1, o.(gameArgv := o.gameArgv + [args[i]]));
      assert args[i..] == [args[i]] + args[i + 1..];
      assert o.gameArgv + [args[i]] + args[i + 1..] == o.gameArgv + args[i..];
    }
  }

  /** Without options, the program name is dropped and every other argument
      reaches the game in order, with the default DLL path. */
  lemma NoOptions(argv: seq<Text>)
    requires 1 <= |argv|
    requires forall j :: 1 <= j < |argv| ==> Classify(argv[j]).Plain?
    ensures Scanned(argv) == Defaults.(gameArgv := argv[1..])
  {
    PlainArguments(argv, 1, Defaults);
    assert Defaults.gameArgv + argv[1..] == argv[1..];
  }

  predicate NoOptionNames(s: seq<Text>)
  {
    forall k :: 0 <= k < |s| ==> Classify(s[k]).Plain?
  }

  /** No option name is ever passed to the game (a value may be one, but it
      is then taken as the option's value). */
  lemma {:induction false} NoOptionPassedOn(args: seq<Text>, i: nat, o: Options)
    requires NoOptionNames(o.gameArgv)
    ensures NoOptionNames(ScanFrom(args, i, o).gameArgv)
    decreases |args| - i
  {
    if i < |args| {
      match Classify(args[i])
      case ValueOption(f) =>
        if i + 1 < |args| {
          NoOptionPassedOn(args, i + 2, WithValue(o, f, args[i + 1]));
        }
      case FlagOption(flag) =>
        NoOptionPassedOn(args, i + 1, WithFlag(o, flag));
      case Plain =>
        NoOptionPassedOn(args, i + 1, o.(gameArgv := o.gameArgv + [args[i]]));
    }
  }

  /** A variable whose option does not occur in the rest of the arguments
      keeps its value. */
  lemma {:induction false} Untouched(args: seq<Text>, i: nat, o: Options, f: Field)
    requires forall j :: i <= j < |args| ==> Classify(args[j]) != ValueOption(f)
    ensures ValueOf(ScanFrom(args, i, o), f) == ValueOf(o, f)
    decreases |args| - i
  {
    if i < |args| {
      match Classify(args[i])
      case ValueOption(g) =>
        if i + 1 < |args| {
          Untouched(args, i + 2, WithValue(o, g, args[i + 1]), f);
          OtherValueKept(o, g, args[i + 1], f);
        }
      case FlagOption(flag) =>
        Untouched(args, i + 1, WithFlag(o, flag), f);
        assert ValueOf(WithFlag(o, flag), f) == ValueOf(o, f);
      case Plain =>
        Untouched(args, i + 1, o.(gameArgv := o.gameArgv + [args[i]]), f);
    }
  }

  /** Setting one variable leaves the others as they were. */
  lemma OtherValueKept(o: Options, g: Field, value: Text, f: Field)
    requires g != f
    ensures ValueOf(WithValue(o, g, value), f) == ValueOf(o, f)
  {
  }

  /** The last occurrence of a value option wins: once the scan meets it
      with a value after it, whatever the variable held before is
      replaced. */
  lemma LastOccurrenceWins(args: seq<Text>, i: nat, o: Options, f: Field)
    requires i + 1 < |args| && Classify(args[i]) == ValueOption(f)
    requires forall j :: i + 2 <= j < |args| ==> Classify(args[j]) != ValueOption(f)
    ensures ValueOf(ScanFrom(args, i, o), f) == args[i + 1]
  {
    Untouched(args, i + 2, WithValue(o, f, args[i + 1]), f);
  }

  /** The positions the scan visits: it steps over an option's value. */
  function Next(args: seq<Text>, i: nat): nat
    requires i < |args|
  {
    if Classify(args[i]).ValueOption? then i + 2 else i + 1
  }

  /** The scan from i visits position k. */
  predicate Reaches(args: seq<Text>, i: nat, k: nat)
    decreases k - i
  {
    i == k || (i < k && i < |args| && Reaches(args, Next(args, i), k))
  }

  /** A value option in the last position the scan visits changes nothing:
      the scan ends as if it were not there. */
  lemma {:induction false} LastValueOptionIgnored(args: seq<Text>, i: nat, o: Options)
    requires 1 <= |args| && Classify(args[|args| - 1]).ValueOption?
    requires Reaches(args, i, |args| - 1)
    ensures ScanFrom(args, i, o) == ScanFrom(args[..|args| - 1], i, o)
    decreases |args| - i
  {
    var shorter := args[..|args| - 1];
    if i < |args| - 1 {
      assert shorter[i] == args[i];
      match Classify(args[i])
      case ValueOption(f) =>
        assert shorter[i + 1] == args[i + 1];
        LastValueOptionIgnored(args, i + 2, WithValue(o, f, args[i + 1]));
      case FlagOption(flag) =>
        LastValueOptionIgnored(args, i + 1, WithFlag(o, flag));
      case Plain =>
        LastValueOptionIgnored(args, i + 1, o.(gameArgv := o.gameArgv + [args[i]]));
    }
  }

  /** So a trailing --ti-dll-path, with no other before it, leaves the
      default DLL path. */
  lemma TrailingDllPath(argv: seq<Text>)
    requires 2 <= |argv| && argv[|argv| - 1] == DllPathOption
    requires Reaches(argv, 1, |argv| - 1)
    requires forall j :: 1 <= j < |argv| - 1 ==> argv[j] != DllPathOption
    ensures Scanned(argv).dllPath == DefaultDllPath
  {
    LastValueOptionIgnored(argv, 1, Defaults);
    Untouched(argv[..|argv| - 1], 1, Defaults, DllPath);
  }

  /** A flag option given twice in a row has the effect of giving it once. */
  lemma RepeatedFlag(args: seq<Text>, i: nat, o: Options)
    requires i + 1 < |args| && Classify(args[i]).FlagOption? && args[i + 1] == args[i]
    ensures ScanFrom(args, i, o) == ScanFrom(args[..i] + args[i + 1..], i, o)
  {
    var once := args[..i] + args[i + 1..];
    var flag := Classify(args[i]).flag;
    assert once[i] == args[i];
    assert WithFlag(WithFlag(o, flag), flag) == WithFlag(o, flag);
    assert once[i + 1..] == args[i + 2..];
    ScanShift(args, i + 2, once, i + 1, WithFlag(o, flag));
  }

  // ---------------------------------------------------------------------
  // The request and the report

  /** The argument record wmain hands to the library. `exePath` is the
      executable's full path and `parentDir` its parent directory (the
      std::filesystem parent_path is not modelled); the settings path goes
      over in its UTF-8 form, with its length as data_size. */
  function Request(o: Options, exePath: Text, parentDir: Text): (a: GameArgs)
    ensures a.exePath == exePath && a.dllPath == o.dllPath
    ensures a.loadType == FilePath && a.argv == o.gameArgv && a.flags == FlagBits(o)
    ensures a.currentDir == Some(if o.currentDir == [] then parentDir else o.currentDir)
    ensures a.data == Utf8.Encode(o.settingsPath) && Utf8.Decode(a.data) == Some(o.settingsPath)
    ensures a.dataSize == |a.data| % 0x1_0000_0000
    ensures a.data == [] <==> o.settingsPath == []
    ensures WellFormed(a) <==> |a.data| < 0x1_0000_0000
  {
    var data := Utf8.Encode(o.settingsPath);
    Utf8.DecodeEncode(o.settingsPath);
    Utf8.EncodeLength(o.settingsPath);
    GameArgs(exePath, Some(if o.currentDir == [] then parentDir else o.currentDir), o.dllPath,
             FilePath, o.gameArgv, FlagBits(o), |data| % 0x1_0000_0000, data)
  }

  /** Without --ti-settings-path the request carries no data. */
  lemma NoSettingsNoData(argv: seq<Text>, exePath: Text, parentDir: Text)
    requires forall j :: 1 <= j < |argv| ==> Classify(argv[j]) != ValueOption(SettingsPath)
    ensures Request(Scanned(argv), exePath, parentDir).data == []
    ensures Request(Scanned(argv), exePath, parentDir).dataSize == 0
  {
    Untouched(argv, 1, Defaults, SettingsPath);
  }

  /** The message for each failure. */
  function Message(r: ResultCode): Text
    requires r != Ok
  {
    match r
    case GetTokenInfo => "Failed to get process token information"
    case OpenToken => "Failed to open current process token"
    case DuplicateToken => "Failed to duplicate process token"
    case SetTokenInfo => "Failed to set token information"
    case CreateProcess => "Failed to create game process"
    case MemAlloc => "Failed to allocate memory in game process"
    case MemWrite => "Failed to write to game process memory"
    case SecDesc => "Failed to setup security descriptor for the pipe"
    case CreatePipe => "Failed to create pipe"
    case CreateThread => "Failed to create injection thread"
    case ConnectPipe => "Failed to connect pipe"
    case WritePipe => "Failed to write to pipe"
    case ThreadWait => "Failed to wait for injection thread to finish"
    case DllLoad => "TEK Game Runtime failed to load"
    case ResumeThread => "Failed to resume game's main thread"
  }

  /** The failure a message stands for, told apart by its length and, where
      two messages have the same length, by one character. */
  function FailureOf(m: Text): Option<ResultCode>
  {
    match |m|
    case 21 => Some(CreatePipe)
    case 22 => Some(ConnectPipe)
    case 23 => Some(WritePipe)
    case 29 => Some(CreateProcess)
    case 31 => if m[0] == 'T' then Some(DllLoad) else Some(SetTokenInfo)
    case 33 => if m[10] == 'c' then Some(CreateThread) else Some(DuplicateToken)
    case 35 => Some(ResumeThread)
    case 36 => Some(OpenToken)
    case 38 => Some(MemWrite)
    case 39 => Some(GetTokenInfo)
    case 41 => Some(MemAlloc)
    case 45 => Some(ThreadWait)
    case 48 => Some(SecDesc)
    case _ => None
  }

  /** Every failure's message tells which failure it was. */
  lemma MessageNamesFailure(r: ResultCode)
    requires r != Ok
    ensures FailureOf(Message(r)) == Some(r)
  {
  }

  /** So every failure has its own message. */
  lemma MessagesDistinct(r1: ResultCode, r2: ResultCode)
    requires r1 != Ok && r2 != Ok && r1 != r2
    ensures Message(r1) != Message(r2)
  {
    MessageNamesFailure(r1);
    MessageNamesFailure(r2);
  }

  /** The text reported for a failure with a Win32 error. */
  function WithError(msg: Text, win32Error: DWord, osText: Text): Text
  {
    msg + ": (" + Decimal.Digits(win32Error) + ") " + osText
  }

  /** The reported text: the message, followed by the Win32 error in decimal
      and the system's text for it when there is an error. */
  function Report(r: ResultCode, win32Error: DWord, osText: Text): Text
    requires r != Ok
  {
    if win32Error != 0 then WithError(Message(r), win32Error, osText) else Message(r)
  }

  /** The message comes first, the error's digits follow ": (" and are
      closed by ')'. */
  lemma {:induction false} WithErrorParts(msg: Text, win32Error: DWord, osText: Text)
    ensures var m := WithError(msg, win32Error, osText);
      var n := |msg|;
      var d := |Decimal.Digits(win32Error)|;
      && |m| == n + 3 + d + 2 + |osText|
      && m[..n + 3] == msg + ": ("
      && m[n + 3..n + 3 + d] == Decimal.Digits(win32Error)
      && m[n + 3 + d] == ')'
  {
    var head := msg + ": (";
    var digits := Decimal.Digits(win32Error);
    var tail := ") " + osText;
    var m := WithError(msg, win32Error, osText);
    assert m == (head + digits) + tail;
    assert (head + digits) + tail == head + (digits + tail);
    assert m[..|head|] == head;
    assert m[|head|..][..|digits|] == digits;
    assert m[|head|..|head| + |digits|] == m[|head|..][..|digits|];
    assert m[|head| + |digits|] == tail[0];
  }

  /** The error is appended exactly when there is one, after the message,
      and its decimal digits read back as the error. */
  lemma ReportShowsError(r: ResultCode, win32Error: DWord, osText: Text)
    requires r != Ok
    ensures win32Error == 0 <==> Report(r, win32Error, osText) == Message(r)
    ensures win32Error != 0 ==>
      var m := Report(r, win32Error, osText);
      var n := |Message(r)|;
      var d := |Decimal.Digits(win32Error)|;
      && m[..n + 3] == Message(r) + ": ("
      && Decimal.AllDigits(m[n + 3..n + 3 + d])
      && Decimal.Value(m[n + 3..n + 3 + d]) == win32Error
      && m[n + 3 + d] == ')'
  {
    if win32Error != 0 {
      WithErrorParts(Message(r), win32Error, osText);
      Decimal.ValueOfDigits(win32Error);
    }
  }

  const ExitSuccess: int := 0
  const ExitFailure: int := 1

  /** How wmain comes by the executable's full path: GetFullPathNameW of
      the --ti-exe-path value, or the file dialog when there is none. The
      dialog may be cancelled; a failure of either carries the text shown. */
  datatype PathChoice = Resolved(path: Text) | Cancelled | Failed(report: Text)

  /** wmain: after the scan, a cancelled dialog ends the program with
      EXIT_SUCCESS and a failure to get the path with EXIT_FAILURE, neither
      starting the game; otherwise the library runs the game with the
      request, and a failure is shown and ends with EXIT_FAILURE. */
  method Wmain(host: Host, argv: seq<Text>, resolve: PathChoice, parentDir: Text, osText: Text, w: World)
      returns (status: int, shown: Option<Text>)
    requires resolve.Cancelled? ==> Scanned(argv).exePath == []
    requires resolve.Resolved? ==> |Utf8.Encode(Scanned(argv).settingsPath)| < 0x1_0000_0000
    requires host.open == {} && host.game != Suspended && !host.remoteLive
    modifies host
    ensures status == ExitSuccess || status == ExitFailure
    ensures resolve.Cancelled? ==> status == ExitSuccess && shown == None && unchanged(host)
    ensures resolve.Failed? ==> status == ExitFailure && shown == Some(resolve.report) && unchanged(host)
    ensures resolve.Resolved? ==>
      var a := Request(Scanned(argv), resolve.path, parentDir);
      && host.trace == old(host.trace) + Launch(a, w).events
      && (status == ExitSuccess <==> Launch(a, w).result == Ok)
      && (Launch(a, w).result == Ok ==> shown == None)
      && (Launch(a, w).result != Ok ==>
            shown == Some(Report(Launch(a, w).result, Launch(a, w).win32Error, osText)))
  {
    var o := Scan(argv);
    var exePath;
    match resolve {
      case Cancelled =>
        return ExitSuccess, None;
      case Failed(report) =>
        return ExitFailure, Some(report);
      case Resolved(path) =>
        exePath := path;
    }
    var a := Request(o, exePath, parentDir);
    var out := RunGame(host, a, w);
    if out.result == Ok {
      return ExitSuccess, None;
    }
    var msg := Message(out.result);
    if out.win32Error != 0 {
      msg := WithError(msg, out.win32Error, osText);
    }
    return ExitFailure, Some(msg);
  }
}
