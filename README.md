# TEK Injector, modelled in Dafny

TEK Injector starts a game process suspended, injects TEK Game Runtime into
it and resumes it. This project models its core and proves what the code
promises.

- **`tek_inj_run_game`** (`src/lib.cpp`). The library call assembles the
  game's command line. It decides whether to lower the game's privileges
  and creates the game suspended. It writes the DLL path into the game and
  creates a named pipe. It starts a loader thread running `LoadLibraryW`,
  then sends the pipe header and the settings data. It waits for the loader
  and resumes the game only when the DLL loaded; any other ending
  terminates the game. RAII guards (`unique_handle`, `unique_file`,
  `unique_process`, the remote buffer) release everything on every return.
- **The `tek-injector.exe` front end** (`src/exe.cpp`). It scans the
  `--ti-…` options, builds the argument record and turns a failure into the
  message shown to the user.
- **The older injector** (`main.c`):
  - its unescaped command line and `-high` detection;
  - the mod-folder queries (`get_num_subscribed_items`,
    `get_subscribed_items`, `get_item_install_info`);
  - the server-rules callback filter;
  - the error-message table and its hexadecimal fallback;
  - the launch policy that retries once under the Spacewar app ID 480.
- **`memscan`** (`memscan.cpp`). It returns the first occurrence of a byte
  string, as `basic_string_view::find` does in [string.view.find] of the
  ISO C++ standard.
- **The public types** of `include/tek-injector.h`.

Every Win32 call is an answer in a `World` record: it succeeds or fails
with an error code. A launch is then a `Run`: the result code, the Win32
error and the sequence of events it causes. Events include opening and
closing each kind of handle, allocating and freeing the remote buffer,
sending bytes down the pipe, resuming the game and terminating it.

The functions in `LaunchSpec` state what each stage does. The imperative
`Launcher` module mirrors the C++:

- a `Host` object records the events;
- guard classes change their handle field on close, as the C++ guards do;
- the data loop advances through the bytes still to send.

Each `Launcher` method is proved to produce exactly the events and result
of the matching specification function. `LaunchProperties` proves what
holds for every record and every answer of the operating system.

Files:

- `wrappers.dfy`: the optional value.
- `api.dfy`: the public types.
- `decimal.dfy`: decimal digits.
- `cmdline.dfy`: the library's command line.
- `launch_spec.dfy`: the launch as functions.
- `launch.dfy`: the launch as imperative code with guards.
- `launch_props.dfy`: properties of the launch.
- `utf8.dfy`: the UTF-8 form of a wide string.
- `cli.dfy`: `wmain`.
- `memscan.dfy`: `memscan`.
- `mods.dfy`: the mod folders.
- `rules.dfy`: the server-rules filter.
- `legacy_errors.dfy`: the older injector's error messages.
- `legacy_launch.dfy`: the older injector's launch and retry policy.

Where the header and the code disagree, the model follows the code. The
header declares `create_mapping` (9) and `map_view` (10). `lib.cpp` and
`exe.cpp` use `create_pipe`, `connect_pipe` and `write_pipe` instead, which
the header does not declare. The model's `ResultCode` is therefore the set
the code uses. `HeaderValue` gives the header's numbers only for the codes
the header declares.

## Model

| member | source | states |
|---|---|---|
| InjectorApi.LoadTypeValue | include/tek-injector.h:95-101 | there are exactly two load types; the file-path type is 0 and the other is 1 |
| InjectorApi.FlagsIndependent | include/tek-injector.h:106-113 | the two flags are independent bits: setting one never changes the other, and FLAG_none holds neither |
| InjectorApi.SetFlagIdempotent | src/exe.cpp:66-70 | ORing a flag in sets it, and ORing it in again changes nothing |
| InjectorApi.HeaderValue | include/tek-injector.h:118-149 | only `ok` is 0; every declared code is at most 14; exactly the three pipe codes have no declared value |
| InjectorApi.HeaderValueInjective | include/tek-injector.h:118-149 | no two declared codes share a value |
| Decimal.Digits | src/exe.cpp:262 | the decimal digits of a number: only digits, none for 0, no leading zero |
| Decimal.ValueOfDigits | src/exe.cpp:262 | the digits of a number read back as that number |
| Decimal.DigitsLength | main.c:326-333 | a number below 10^k has at most k digits |
| Decimal.DigitsLengthAtLeast | main.c:326-333 | a number of at least 10^k has more than k digits |
| CommandLine.FindChar | src/lib.cpp:113-114 | `wstring::find`: the least index at or after the start holding the character, or none when no such index exists |
| CommandLine.TrailingBackslashes | src/lib.cpp:132-136 | the length of the maximal run of backslashes at the end of the string |
| CommandLine.ReplaceQuotes | src/lib.cpp:113-117 | the in-place find/replace loop yields the string with every quote replaced by backslash-quote |
| CommandLine.ReplaceStep | src/lib.cpp:113-117 | each iteration replaces exactly the next original quote, and the search resumes past the inserted pair, so the loop terminates |
| CommandLine.ReplaceDone | src/lib.cpp:113-114 | when the search finds no quote, every original quote has been replaced |
| CommandLine.QuoteExecutable | src/lib.cpp:111-120 | the executable path is quoted and escaped exactly when it contains a space |
| CommandLine.QuoteArgument | src/lib.cpp:124-139 | the argument in its command-line form: `""` when empty; escaped, trailing backslashes doubled and quoted when it has a space; otherwise verbatim |
| CommandLine.BuildCommandLine | src/lib.cpp:111-142 | the command line is the quoted executable followed by each argument's form, each preceded by one space |
| CommandLine.JoinStep | src/lib.cpp:140-141 | appending a space and the next argument extends the arguments in order |
| CommandLine.EscapeAppend | src/lib.cpp:113-117 | escaping distributes over concatenation |
| CommandLine.EscapeQuoteFree | src/lib.cpp:113-117 | a string without quotes is unchanged by escaping |
| CommandLine.EscapeCounts | src/lib.cpp:113-117 | escaping adds exactly one character per quote and keeps the number of quotes |
| CommandLine.EscapedQuotesFollowBackslash | src/lib.cpp:115 | every quote in an escaped string is directly preceded by a backslash |
| CommandLine.UnescapeEscape | src/lib.cpp:113-117 | escaping loses nothing: removing the backslash before each quote gives back the original |
| CommandLine.NoLeadingQuote | src/lib.cpp:115 | an escaped string never starts with a quote |
| CommandLine.EscapeKeepsTrailingBackslashes | src/lib.cpp:127-136 | escaping keeps the run of trailing backslashes, so the doubling counts the argument's own backslashes |
| CommandLine.QuotedArgShape | src/lib.cpp:126-138 | an argument with a space whose stem ends in n backslashes becomes quote, escaped stem, 2n backslashes, quote |
| CommandLine.TrailingOfStem | src/lib.cpp:132-136 | a stem not ending in a backslash, followed by n backslashes, has exactly n trailing backslashes |
| CommandLine.ExeQuotedIffSpace | src/lib.cpp:112-120 | the executable path is wrapped in quotes when it has a space and copied unchanged otherwise |
| CommandLine.LastSpace | src/lib.cpp:140 | the position of the last space in a string |
| CommandLine.WordsAppend | src/lib.cpp:140-141 | splitting at spaces after appending a space and a space-free word adds that word |
| CommandLine.PlainStep | src/lib.cpp:121-142 | the command line of plain arguments is the one for all but the last, plus a space and the last one verbatim |
| CommandLine.WordsOfPlainCommandLine | src/lib.cpp:111-142 | with no space in the path or any argument and no empty argument, splitting the command line at spaces gives back the path, then the arguments in order |
| LaunchSpec.LE32RoundTrip | src/lib.cpp:30-39 | the little-endian 32-bit encoding of the header fields decodes back to the value |
| LaunchSpec.EncodeHeader | src/lib.cpp:30-39 | the pipe header is 8 bytes |
| LaunchSpec.ReceiveEncoded | src/lib.cpp:342-358 | a reader that takes the 8-byte header and then `size` bytes recovers the load type and exactly the data |
| LaunchSpec.SendDataFacts | src/lib.cpp:349-358 | the data loop only writes to the pipe; the bytes it writes are a prefix of the data, and all of it when no write fails |
| Launcher.UniqueHandle.constructor | src/lib.cpp:47-48 | the guard holds the handle it is given |
| Launcher.UniqueHandle.Close | src/lib.cpp:53-58 | a live handle is closed once and becomes null; a null one is left alone |
| Launcher.UniqueFile.constructor | src/lib.cpp:66 | the file guard starts at INVALID_HANDLE_VALUE |
| Launcher.UniqueFile.Close | src/lib.cpp:73-78 | a live pipe handle is closed once and becomes invalid; an invalid one is left alone |
| Launcher.UniqueProcess.constructor | src/lib.cpp:84-85 | the process guard starts uncommitted |
| Launcher.UniqueProcess.Drop | src/lib.cpp:82-91 | the destructor terminates the game unless success was committed, then closes the handle |
| Launcher.RemoteBuffer.constructor | src/lib.cpp:208-211 | the remote buffer guard holds the allocation if there is one |
| Launcher.RemoteBuffer.Reset | src/lib.cpp:205-211 | a held buffer is freed once with VirtualFreeEx |
| Launcher.Cleanup | src/lib.cpp:199-330 | the guards run in reverse order of declaration, closing exactly what is held and leaving no handle open; this matches `Unwind` |
| Launcher.WriteData | src/lib.cpp:349-358 | the counter loop makes exactly the writes and failure of `SendData` |
| Launcher.AwaitLoader | src/lib.cpp:361-394 | the wait on the loader thread has exactly the events and result of `Gate`, leaving nothing open and the game running exactly on `ok` |
| Launcher.Finish | src/lib.cpp:373-394 | after a signalled wait, the exit code check, release and resume have the events and result of `Gate` |
| Launcher.Converse | src/lib.cpp:332-394 | connecting, sending and waiting have exactly the events and result of `Handshake` |
| Launcher.Deliver | src/lib.cpp:349-394 | a failed data write unwinds with `write_pipe`; otherwise the pipe is closed and the wait follows |
| Launcher.Inject | src/lib.cpp:199-394 | everything after creation has exactly the events and result of `AfterCreate` |
| Launcher.Connect | src/lib.cpp:224-394 | the security descriptor and pipe steps onward follow `AfterCreate` |
| Launcher.LaunchLoader | src/lib.cpp:320-394 | the loader-thread step onward follows `AfterCreate` |
| Launcher.SecureFailure | src/lib.cpp:227-297 | the first failing step of the descriptor preparation and its code; the size query failing with ERROR_INSUFFICIENT_BUFFER counts as success |
| Launcher.CreateGame | src/lib.cpp:144-197 | creating the game (lowered or not) has the events and result of `CreateStage` and holds the game's two handles exactly when it goes on |
| Launcher.CreateLowered | src/lib.cpp:159-188 | with the lowered token in hand, lowering its integrity and creating the game follow `CreateStage`; the token is closed on every path |
| Launcher.RunGame | src/lib.cpp:95-395 | the whole call has exactly the events and result of `Launch`, leaves no handle open and the remote memory freed, and leaves the game running on `ok` and not suspended otherwise |
| LaunchProperties.GateFate | src/lib.cpp:361-394 | after the wait, the game is resumed exactly on `ok` and terminated exactly otherwise, and the remote buffer is freed |
| LaunchProperties.UnwindFate | src/lib.cpp:82-91 | the guards terminate the game exactly when success was not committed, free the buffer exactly when it is held, and never resume |
| LaunchProperties.UnwindMembers | src/lib.cpp:42-91 | the guards release exactly the held loader thread, pipe and buffer, and both game handles |
| LaunchProperties.HandshakeEvents | src/lib.cpp:332-359 | a connect failure other than ERROR_PIPE_CONNECTED stops with `connect_pipe`; a header or data write failure stops with `write_pipe`; otherwise the pipe closes and the wait follows |
| LaunchProperties.HandshakeFate | src/lib.cpp:332-394 | on every handshake path the game is resumed exactly on `ok`, terminated otherwise, and the buffer freed |
| LaunchProperties.AfterCreateEvents | src/lib.cpp:202-330 | each failure after creation unwinds with its own code and exactly the guards held at that point |
| LaunchProperties.AfterCreateFate | src/lib.cpp:199-394 | after creation, the game is resumed exactly on `ok` and terminated otherwise, and the remote buffer is freed exactly when it was allocated |
| LaunchProperties.CreateStageFacts | src/lib.cpp:150-197 | a creation failure returns a non-`ok` code without creating, resuming or terminating the game |
| LaunchProperties.GameResumedOrTerminated | src/lib.cpp:199-394 | for every launch, the game is resumed exactly when the result is `ok`; a created game is terminated exactly when the result is not `ok`; the remote memory is freed exactly when it was allocated |
| LaunchProperties.GateOutcome | src/lib.cpp:361-394 | `ok` only after a non-zero loader exit code, with error 0 and the buffer freed before the resume; `dll_load` exactly when the code is 0 or unreadable; a timeout reports `write_pipe` with ERROR_TIMEOUT and a failed wait `write_pipe` with the wait's own error, both killing the loader; `thread_wait` never occurs |
| LaunchProperties.UnwindHandles | src/lib.cpp:42-91 | the guards open nothing, close both game handles, and close the pipe and the loader thread exactly when held |
| LaunchProperties.GateHandles | src/lib.cpp:361-394 | the wait stage closes the loader thread and both game handles and opens nothing |
| LaunchProperties.HandshakeHandles | src/lib.cpp:332-394 | the handshake closes the pipe, the loader thread and both game handles on every path |
| LaunchProperties.HandshakeOutcome | src/lib.cpp:332-394 | the pipe carries a prefix of header-then-data, all of it whenever the loader was waited on; `ok` comes only right after a non-zero loader exit |
| LaunchProperties.AfterCreateOutcome | src/lib.cpp:202-394 | the wire and resume guarantees of the handshake hold for everything after creation |
| LaunchProperties.AfterCreateHandles | src/lib.cpp:202-394 | after creation, both game handles are closed, the pipe and loader thread are closed iff opened, and the pipe is created with the same restriction decision |
| LaunchProperties.CreateStageHandles | src/lib.cpp:150-197 | a failed creation closes every token it opened; a successful one holds both game handles and no token |
| LaunchProperties.CreateStageOutcome | src/lib.cpp:150-197 | creation sends nothing and resumes nothing; its failures are early failures |
| LaunchProperties.CreateStageSetup | src/lib.cpp:144-197 | the game is created with the assembled command line, the priority flag and the current directory; the token is lowered only when reduced, and when creation succeeds exactly then |
| LaunchProperties.LaunchOutcome | src/lib.cpp:95-395 | for every launch: never `thread_wait`; `ok` only with error 0 and with the resume right after a non-zero loader exit; the pipe carries exactly the header followed by the data whenever the loader was waited on, and a prefix of it otherwise |
| LaunchProperties.HandlesReleased | src/lib.cpp:95-395 | for every launch, every kind of handle opened is closed and only opened handles are closed |
| LaunchProperties.PrivilegeDecision | src/lib.cpp:150-313 | one condition, elevated and not run-as-admin, both lowers the game's token and restricts the pipe; the pipe's buffer is header plus data size |
| MemScan.FindFromSpec | memscan.cpp:16-17 | the search from i returns a match at or after i with none before it, or npos when there is none |
| MemScan.ScanFound | memscan.cpp:14-18 | a result other than npos is a position where the whole needle lies inside the memory |
| MemScan.ScanLeast | memscan.cpp:14-18 | the result is at most every position of an occurrence |
| MemScan.ScanAbsent | memscan.cpp:14-18 | the result is npos exactly when the needle does not occur |
| MemScan.ScanEmptyNeedle | memscan.cpp:16-17 | an empty needle is found at 0 |
| MemScan.ScanTooLong | memscan.cpp:16-17 | a needle longer than the memory gives npos |
| ModFolders.IsIdName | main.c:280-285 | the character loop accepts a name exactly when it consists of digits 0-9 |
| ModFolders.GetNumSubscribedItems | main.c:268-291 | the count is the number of names after `.` and `..` made of digits only, modulo 2^32; 0 when the search fails |
| ModFolders.ParseFolderName | main.c:304-312 | the accumulator gives the name's decimal value modulo 2^64, or 0 at any non-digit |
| ModFolders.GetSubscribedItems | main.c:292-318 | when the Mods search fails nothing is written and 0 is returned; otherwise the non-zero IDs are written in listing order, nothing else is touched, and the call returns cMaxEntries |
| ModFolders.SubscribedWithinCount | main.c:268-317 | no more IDs are written than folders are counted |
| ModFolders.SubscribedAppend | main.c:303-315 | the IDs of a listing are those of its parts, in order |
| ModFolders.SubscribedNonZero | main.c:313-314 | every ID written is non-zero and fits a uint64_t |
| ModFolders.ZeroFolder | main.c:278-315 | a folder named `0` is counted but never written |
| ModFolders.FolderIdOfDigits | main.c:303-334 | a non-zero ID's folder name parses back to the ID |
| ModFolders.DigitBufferOverrun | main.c:326-334 | as written, the digit loop writes before the buffer exactly for IDs of 20 digits, which a uint64_t holds (10^19 writes slot -1) |
| ModFolders.FormatInstallPath | main.c:325-334 | the digit loop, with a slot for every digit of a uint64_t, gives the Mods folder followed by the ID's digits, most significant first |
| ModFolders.GetItemInstallInfo | main.c:319-346 | reports size 0 and not legacy; found exactly when the folder exists; then the path names the ID, else an empty folder. It builds the path with the corrected FormatInstallPath, so for IDs from 10^19 up it gives a clean path where the source writes before its buffer |
| ServerRules.CallbackWrapper.constructor | main.c:183-187 | a wrapper starts attached to the game's callback with the query handle and no calls made |
| ServerRules.CallbackWrapper.RulesResponded | main.c:193-214 | a rejecting rule cancels the query, reports failure to respond and detaches; any other rule is forwarded exactly when attached |
| ServerRules.CallbackWrapper.RulesFailedToRespond | main.c:215-222 | failure is forwarded only when attached, and the wrapper is freed |
| ServerRules.CallbackWrapper.RulesRefreshComplete | main.c:223-230 | completion is forwarded only when attached, and the wrapper is freed |
| ServerRules.CallbackWrapper.Deliver | main.c:193-214 | over a sequence of rules, the calls made are those of `Delivered`, and the wrapper stays attached exactly when no rule rejects |
| ServerRules.DeliveredSplit | main.c:197-213 | rules before the first rejecting one are forwarded in order; that one cancels and nothing follows |
| ServerRules.DeliveredFilters | main.c:197-213 | the query is cancelled exactly when some rule rejects, and no forwarded rule rejects |
| LegacyErrors.TableMessage | main.c:1118-1122 | a code has a table message exactly when it lies strictly between EC_MIN and 0 |
| LegacyErrors.ErrorTableIndex | main.c:1118-1121 | each injector or game code indexes inside the string table of main.c:86-93 and selects the string declared for it |
| LegacyErrors.TableCodesDeclared | main.c:73-85 | every code that selects a table string is a declared enumerator |
| LegacyErrors.DigitUnitHex | main.c:1133 | the `'0'+v` / `'7'+v` mapping gives the hexadecimal digit of each value below 16 |
| LegacyErrors.ShownDigitsAsWritten | main.c:1131-1147 | as written, the fallback text holds eight characters |
| LegacyErrors.AsWrittenEnds | main.c:1132-1147 | as written, the first digit is the code's top nibble and the last its bottom nibble |
| LegacyErrors.ErrorMessageAsWrittenTable | main.c:1117-1129 | show_error_message shows a declared code's table string, and otherwise the system's text when FormatMessageW gives one |
| LegacyErrors.ErrorMessageAsWrittenFallback | main.c:1130-1148 | without table string or system text, the box shows the fallback prefix and eight digits, the first the top nibble of the code's 32-bit pattern and the last its bottom nibble |
| LegacyErrors.FallbackAsWrittenCollides | main.c:1117-1149 | as written, codes 0x10 and 0 have no table string and show the same fallback text |
| LegacyErrors.ShownDigitsCollide | main.c:1132-1147 | as written, codes 0x10 and 0 show the same digits, and 0x10000000 shows 'G' |
| LegacyErrors.ShownDigitsRoundTrip | main.c:1131-1147 | corrected, taking each nibble in turn: the eight digits are hexadecimal and read back as the code |
| LegacyErrors.FallbackShowsCode | main.c:1131-1147 | corrected, with each nibble in its own digit: a code without a table or system message is shown with its 32-bit pattern readable back from the last eight characters (the source lacks this; see Findings) |
| LegacyLaunch.CommandLineLength | main.c:1040-1047 | the allocated length, the full path's size with its NUL plus 2 plus each argument's length plus 1, is exactly the command line's length plus its NUL |
| LegacyLaunch.ArgumentVerbatim | main.c:1054-1056 | each argument appears unescaped after one space, in order |
| LegacyLaunch.PutQuotedPath | main.c:1045-1048 | the buffer starts with the full path in double quotes |
| LegacyLaunch.PutArgument | main.c:1054-1056 | a space and the argument are copied at the offset, keeping what precedes |
| LegacyLaunch.AssembleCommandLine | main.c:1040-1058 | the buffer is exactly the quoted path, the arguments and a NUL in its last slot; high priority is set exactly when an argument equals `-high` |
| LegacyLaunch.LaunchGameAndInject | main.c:1015-1115 | the result and the actions on the game are those of `Outcome` and `Actions` |
| LegacyLaunch.OutcomeSteps | main.c:1025-1110 | an injector step failure returns its table code and terminates the thread once the process exists; a game still running after 10 s gives success |
| LegacyLaunch.SteamFailureFromGame | main.c:1105-1108 | the Steam failure code can only come from the game's own exit code after injection |
| LegacyLaunch.ActionsHandles | main.c:1063-1114 | once created, the process and thread handles are closed last; the thread is resumed exactly when injection went through and terminated exactly when the result lies in the injector codes' range |
| LegacyLaunch.RoundEffect | main.c:1159-1162 | a round sets both app IDs, then launches once with the given executable and actions, showing nothing |
| LegacyLaunch.LaunchWithFallback | main.c:1158-1170 | launch under the game's app ID; relaunch once, under 480 for both variables, only on GEC_STEAM_API_INIT_FAILED; each launch runs the same executable and does what launch_game_and_inject does with the same arguments and that launch's answers; the final result is shown exactly when non-zero |
| LegacyLaunch.LaunchEmbedded | main.c:1156-1187 | `launch_asa`/`launch_ase` apply the policy under the game's own app ID, each launch running the host's executable path with all of the host's arguments |
| LegacyLaunch.SelectGame | main.c:1198-1213 | a game is found exactly when either executable exists, ArkAscended.exe first |
| LegacyLaunch.Entry | main.c:1190-1236 | no game: exit 0 without launching; otherwise the retry policy on the game found, each launch running that game's executable with the arguments after the program name, the retry with both app IDs set to 480, exiting with the final result as a UINT |
| LegacyLaunch.GameArguments | main.c:1215-1224 | the game gets every argument after the program name, and none when CommandLineToArgvW reports none |
| LegacyLaunch.DlcIndices | main.c:152-170 | the DLC count matches the indices with data, each DLC is reported available, and the two app IDs differ |
| InjectorExe.FlagBitsMeaning | src/exe.cpp:110-113 | each flag option sets exactly its own bit |
| InjectorExe.Scan | src/exe.cpp:95-127 | the iterator loop computes the scan of `ScanFrom` from the element after the program name |
| InjectorExe.PlainArguments | src/exe.cpp:124-126 | arguments that are not options are appended to the game's arguments in order |
| InjectorExe.NoOptions | src/exe.cpp:88-126 | without options, argv[0] is skipped, the defaults stay and every other argument is passed on |
| InjectorExe.NoOptionPassedOn | src/exe.cpp:96-127 | no option name reaches the game's arguments |
| InjectorExe.Untouched | src/exe.cpp:98-123 | a value is changed only by its own option |
| InjectorExe.LastOccurrenceWins | src/exe.cpp:98-123 | a value option consumes the next element, and a later occurrence overwrites an earlier one |
| InjectorExe.LastValueOptionIgnored | src/exe.cpp:98-123 | a value option in the last position changes nothing |
| InjectorExe.TrailingDllPath | src/exe.cpp:90-109 | a trailing `--ti-dll-path` keeps the default `libtek-game-runtime.dll` |
| InjectorExe.RepeatedFlag | src/exe.cpp:110-113 | repeating a flag option changes nothing |
| InjectorExe.Request | src/exe.cpp:194-205 | the request loads settings by file path, with the scanned arguments, flags and DLL path, the current directory defaulting to the executable's parent; its data is the UTF-8 form of the scanned settings path, which reads back as that path, with its byte length mod 2^32 as data_size, and is empty exactly when no path was given |
| InjectorExe.NoSettingsNoData | src/exe.cpp:93-123 | without `--ti-settings-path` the request carries no data and data_size 0 |
| Utf8.EncodeChar | src/exe.cpp:117-122 | each character takes one to four bytes, one exactly for ASCII |
| Utf8.DecodeEncode | src/exe.cpp:117-122 | the UTF-8 form of every string reads back as that string |
| Utf8.EncodeLength | src/exe.cpp:117-122 | the UTF-8 form has between one and four bytes per character and is empty exactly for the empty string |
| InjectorExe.MessageNamesFailure | src/exe.cpp:211-256 | each failure's message identifies the failure |
| InjectorExe.MessagesDistinct | src/exe.cpp:211-256 | different failures have different messages |
| InjectorExe.WithErrorParts | src/exe.cpp:261-264 | the text with an error is the message, `: (`, the error's decimal digits, `)`, a space and the system's text |
| InjectorExe.ReportShowsError | src/exe.cpp:261-264 | the error is appended exactly when it is non-zero, and its digits read back as the error |
| InjectorExe.Wmain | src/exe.cpp:87-266 | a cancelled file dialog exits with EXIT_SUCCESS and a failure to get the executable's path with EXIT_FAILURE and its text shown, neither launching; otherwise the launch runs with the scanned request, and the exit status is EXIT_SUCCESS exactly on `ok`, else EXIT_FAILURE with the failure's report shown |

## Left out

- Win32 internals: every call is a success or a failure with an error code in `World`, and what it does inside is not modelled. This covers tokens, CreateProcess, VirtualAllocEx, WriteProcessMemory, CreateRemoteThread, named pipes, waits and resume.
- TerminateProcess, TerminateThread, CloseHandle and VirtualFreeEx always succeed, since the source ignores their results.
- The security descriptor steps (src/lib.cpp:231-297) are three answers: the user size query, the user query, and one answer for the seven ACL and descriptor calls. Those seven calls all report `sec_desc`.
- A WriteFile on the blocking byte-mode pipe that succeeds writes at least one byte (`Chunk` in LaunchSpec). The data loop of src/lib.cpp:349-358 would loop forever on a successful zero-byte write; that case is not modelled, and SendData's termination rests on excluding it.
- The header WriteFile (src/lib.cpp:344) is one fallible step that sends the whole 8-byte header, as the source assumes.
- ResumeThread's return value is only success or failure; its suspend count is not modelled.
- The loader thread runs concurrently and is outside the model. Its 3000 ms wait and the older injector's 10000 ms wait are outcomes in the oracle.
- LaunchSpec.Gate follows the code: a timed-out or failed wait reports `write_pipe`, so `thread_wait` is never produced even though exe.cpp has a message for it.
- GetFullPathNameW, the COM file dialog and `parent_path` in exe.cpp (src/exe.cpp:128-193) are inputs: their outcome is a `PathChoice` (the full path, a cancelled dialog, or a failure with the text its message box shows) and the parent directory is text.
- Wide strings are `seq<char>`, sequences of Unicode scalar values, not of UTF-16 code units. Unpaired surrogates, which WideCharToMultiByte replaces with U+FFFD, cannot occur in the model.
- The message box is not modelled. FormatMessageW's text is a parameter.
- The default branch "Unknown result code" (src/exe.cpp:257-259) cannot occur, because the result enum is closed.
- InjectorExe.Wmain: requires the UTF-8 settings path to be shorter than 2^32 bytes when the game is launched. The source truncates its length to 32 bits and would then send only part of it.
- InjectorExe.Options: the flags are two booleans turned into the `tek_inj_flag` bits by FlagBits; the `|=` itself is SetFlagIdempotent.
- InjectorExe.Scan: the vector of wide-string addresses is a sequence of strings.
- MemScan.Scan: both sizes must be below 2^64 (size_t); a buffer of exactly SIZE_MAX bytes is not modelled.
- ModFolders.GetSubscribedItems: requires the array to hold every ID written. The source never compares against cMaxEntries and relies on the caller sizing the array from get_num_subscribed_items.
- ModFolders.GetItemInstallInfo: the UTF-8 conversion into `pchFolder` and its truncation to `cchFolderSize` are not modelled; the folder is the path.
- ServerRules.CallbackWrapper.RulesResponded: requires the callback to be attached when a rule rejects the server. The source calls through the detached, null callback in that case.
- ServerRules.CallbackWrapper.Deliver: ends the rule sequence at the first rejecting rule, taking it that Steam delivers nothing more for a cancelled query. The source itself does not enforce this.
- ServerRules: the vtable calls are recorded as `Call` values, and HeapFree becomes the `freed` state.
- LegacyLaunch: the PE section loop, image copy and thread-context hijack (main.c:1019-1038, 1086-1103) are answers in `Oracle`. GetFullPathNameW's result is a parameter.
- LegacyLaunch.AssembleCommandLine: GetFullPathNameW always succeeds. When it returns 0 (main.c:1040-1058) the buffer is two WCHARs plus the arguments long, and the final NUL lands one WCHAR past the allocation.
- Other parts of main.c are not part of this model: the EOS SDK wrappers, the import-table and vtable patching, the version-string dispatch (main.c:510-590) and the game-side hooks other than the DLC data, mod folders and server rules.
- memscan.h only declares the prototype and is not part of this model.

## Findings

| source | as written | input that shows it | evidently intended | confidence | as-written member | corrected member |
|---|---|---|---|---|---|---|
| main.c:326-333 | `numberBuffer` has 20 slots with the terminator in slot 19, so only 19 digits fit before it | ID 10^19, a valid uint64_t: its 20th digit is written to `numberBuffer[-1]` | room for all 20 digits of a uint64_t plus the terminator | not executed | ModFolders.DigitBufferOverrun | ModFolders.FormatInstallPath |
| main.c:1132-1147 | every digit but the last takes `(code & 0xF0000000) >> k`, so only the top and bottom nibbles reach the text | codes 0x10 and 0 show the same digits; code 0x10000000 shows 'G' as its second digit | digit k shows nibble k, `(code >> 4k) & 0xF` | not executed | LegacyErrors.FallbackAsWrittenCollides | LegacyErrors.FallbackShowsCode |
