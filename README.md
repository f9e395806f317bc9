# AppXLauncher, modelled in Dafny

AppXLauncher starts a packaged (AppX) Windows application with a module injected
into it. The launcher runs twice.

- **The orchestrator run** happens when `argc < 5`, that is when the program gets
  fewer than four arguments after its name.
  - It reads the package family name and the application id from a JSON file placed
    beside the executable.
  - It finds the installed package and registers itself as that package's debugger.
  - It activates the application through its AppUserModelID (`family!appId`), then
    removes the registration again.
- **The debugger run** happens when the platform restarts the launcher for the new,
  still-suspended process, passing `-p <pid> -tid <tid>` (four arguments after the
  name, so `argc` is 5).
  - It reads the module to inject from the same file.
  - It anchors a relative module path beside the executable.
  - It writes the path into the target, loads it there with a remote thread and
    resumes the main thread.

The model covers the deterministic layer of `AppXLauncher.cpp`. Every platform call is
an abstract operation, and the calls a run makes are recorded as a trace of
`Step(op, ok)`. Which calls fail is an oracle: a set of trace positions,
`Os.failAt`. A failing call reached through a `THROW_*` macro ends the run. A call
whose result the code drops does not end the run. These are the four debug-settings
calls (lines 106-108 and 117), the 10-second wait and the resume.

Files and modules:

- `paths.dfy` (`Paths`): paths as root name, root directory and components. It also
  holds `replace_filename` and the anchoring of the module path.
- `utf8_file.dfy` (`Utf8File`): the byte-order-mark skip of `LoadUtf8FileToUtf16`, as
  pointer and size updates. It has the corrected test and the test as written.
- `command_line.dfy` (`CommandLine`): the `-p`/`-tid` scan loop, `wcstoul`, and a
  token-level reading of the command line that the loop is proved against.
- `platform.dfy` (`Platform`):
  - the operations and the trace;
  - `Issue`, the function that says which calls a plan issues for an oracle;
  - the debug registrations, which are derived from the trace (`Replay`);
  - the `Os` class, whose methods append to the trace;
  - the remote buffer, which is an `array`.
- `config.dfy` (`Config`): reading the configuration file and looking up the package.
  The file system, the JSON parser and the package manager come from a `Host` value.
- `launcher.dfy` (`Launcher`):
  - the routines as methods over `Os`: `Activate`, `InjectDll`, the orchestrator, the
    injector and `WinMain`;
  - the run functions that specify them;
  - the identifier and the path construction.
- `protocol.dfy` (`Protocol`): the call-order and registration properties of both
  branches and of the whole program.

Four behaviours of the code are easy to misread as something else. The model follows
the code in the first three; the fourth is the one exception:

- **Cleanup of the registration.** The registration is evidently meant to be
  single-shot, removed once the application has started. The code removes it only
  when `ActivateApplication` returns normally (line 117). It has no guard for a throw
  on lines 66 or 69. `Protocol.ActivationThrowLeavesDebuggerRegistered` and
  `Protocol.OrchestratorRunLeavesDebuggerOnThrow` prove that the registration then
  stays behind. It also stays behind when the unregistration of line 117 itself
  fails: its HRESULT is dropped and the run still returns 0
  (`Protocol.FinalUnregisterFailureLeavesDebugger`).
- **Which failures abort.** Only calls wrapped in a `THROW_*` macro abort. The code
  ignores the HRESULTs of lines 106-108 and 117 and the results of lines 85 and 154.
- **When the resume runs.** The resume of line 154 is reached only when every earlier
  throwing injector call succeeded (`Protocol.ProgramResumesIff`). The wait of line 85
  may fail and the resume still runs. A throw on the way leaves the target's thread
  suspended.
- **The byte-order mark.** The model does not follow the code here.
  `Config.LoadUtf8FileToUtf16` decodes `Utf8File.WithoutBom`, the bytes that the
  corrected, unsigned test of `Utf8File.SkipBom` is proved to leave, as the Findings
  table explains.

## Model

| member | source | states |
|---|---|---|
| Paths.IsAbsolute | AppXLauncher.cpp:144 | definition of a Windows absolute path: it has both a root name (a drive) and a root directory |
| Paths.IsRelative | AppXLauncher.cpp:144 | definition of `is_relative()`: not absolute, so "C:x.dll" and "\x.dll" count as relative and take the branch of lines 145-148 |
| Paths.RemoveFilename | AppXLauncher.cpp:146-147 | the root is kept and exactly the last component is dropped; a path without components is unchanged |
| Paths.Append | AppXLauncher.cpp:147 | definition of `/=` under the Windows rules: an absolute operand or one naming another drive replaces the path, one with a root directory but no drive keeps the path's drive and replaces the rest, any other has its components appended |
| Paths.AppendResolvesRoot | AppXLauncher.cpp:147 | the result's drive is the operand's when it names one and the path's otherwise, an absolute operand is the result, a root directory on the operand is kept, and the operand's components end the result |
| Paths.ReplaceFilename | AppXLauncher.cpp:37 | definition of `replace_filename`: `remove_filename` followed by `/=`, as used for the configuration path (lines 37, 50) and the module path (line 147) |
| Paths.ReplaceFilenameKeepsDirectory | AppXLauncher.cpp:146-147 | replacing the filename by a plain relative path keeps the root and the parent directory and appends the new components |
| Paths.AnchoredAbsoluteUnchanged | AppXLauncher.cpp:143-144 | an absolute module path is used as it is |
| Paths.AnchoredRelativeBesideExe | AppXLauncher.cpp:143-148 | a plain relative module path ends up in the executable's directory: same root, the executable's parent components, then the module's |
| Paths.AnchoredRootedTakesExeDrive | AppXLauncher.cpp:144-147 | a module path with a root directory but no drive keeps only the executable's drive |
| Paths.AnchoredOtherDriveUnchanged | AppXLauncher.cpp:144-147 | a drive-relative module path on another drive is not anchored |
| Paths.AnchoredPath | AppXLauncher.cpp:143-148 | definition of the module path handed to the target: an absolute module path as it is, a relative one put in place of the executable's filename |
| Paths.AnchoredStaysAbsolute | AppXLauncher.cpp:143-148 | with an absolute executable path, the anchored module path is absolute unless the module path names another drive |
| Paths.AnchoredEndsWithModule | AppXLauncher.cpp:143-148 | the anchored module path always ends with the module path's own components |
| Paths.Join | AppXLauncher.cpp:149 | components joined by the separator contain no NUL when no component does |
| Paths.Native | AppXLauncher.cpp:149 | definition of `path.native()`: the root name, the separator when there is a root directory, then the components joined by the separator |
| Paths.NativeNulFree | AppXLauncher.cpp:149 | the native string starts with the root name and contains no NUL when no part of the path does |
| Utf8File.HasBom | AppXLauncher.cpp:25 | definition of the mark test read as unsigned bytes: at least 3 bytes, and they are EF BB BF |
| Utf8File.SkipBom | AppXLauncher.cpp:24-29 | pointer plus size stays the view length; with a mark the pointer moves 3 on, otherwise 0; the bytes between pointer and size are the view without its mark |
| Utf8File.WithoutBom | AppXLauncher.cpp:25-31 | definition of the bytes handed to the decoder: the view without a leading EF BB BF, the view itself otherwise; characterised by BomPrefixRemoved and NoBomUnchanged |
| Utf8File.SkipBomAsWritten | AppXLauncher.cpp:21-29 | with `char` signed, the test never holds: pointer 0, size unchanged, whatever the view |
| Utf8File.SignedChar | AppXLauncher.cpp:21-25 | definition of the value a byte read through `const char*` takes under MSVC's signed `char`: itself below 128, 256 less from 128 on |
| Utf8File.BomPrefixRemoved | AppXLauncher.cpp:25-31 | a view starting with EF BB BF loses exactly those 3 bytes and its length drops by 3 |
| Utf8File.NoBomUnchanged | AppXLauncher.cpp:25-31 | a view without the mark reaches the decoder unchanged |
| Utf8File.AsWrittenMissesBom | AppXLauncher.cpp:25 | a view that does begin with the mark has first byte -17 as a signed char, which is not 0xEF |
| CommandLine.DigitPrefix | AppXLauncher.cpp:128 | the longest leading run of decimal digits: a prefix, all digits, followed by a non-digit or the end |
| CommandLine.ParseULong | AppXLauncher.cpp:128 | the value of `wcstoul(s, nullptr, 10)` never exceeds ULONG_MAX |
| CommandLine.ParseDecimalString | AppXLauncher.cpp:128 | parsing the decimal spelling of a number up to ULONG_MAX gives the number back |
| CommandLine.ParseZeroIff | AppXLauncher.cpp:128 | the parse is 0 exactly when the leading digits are all zeros (or there are none) |
| CommandLine.NonNumericIsZero | AppXLauncher.cpp:128 | a value that does not start with a digit parses to 0 |
| CommandLine.Tokenize | AppXLauncher.cpp:123-134 | definition of how the loop groups the arguments: a "-p" or "-tid" with a following argument is a flag with that value, any other argument is skipped alone; characterised by FlattenTokenize and TokenizeFlatten |
| CommandLine.FlattenTokenize | AppXLauncher.cpp:123-134 | the scan's grouping into flags with values and skipped tokens reads every argument exactly once |
| CommandLine.TokenizeFlatten | AppXLauncher.cpp:123-134 | flags with values laid out among other tokens are grouped back exactly as laid out; a flag's value is never read as a flag |
| CommandLine.TokenizePidAt | AppXLauncher.cpp:126-129 | at a "-p" before the last argument, the flag and the next argument are consumed together |
| CommandLine.TokenizeTidAt | AppXLauncher.cpp:130-133 | at a "-tid" before the last argument, the flag and the next argument are consumed together |
| CommandLine.TokenizeOtherAt | AppXLauncher.cpp:123-134 | any other argument is skipped alone |
| CommandLine.TrailingFlagTokenized | AppXLauncher.cpp:123 | a flag in the last position has no value to take and is skipped |
| CommandLine.TrailingFlagIgnored | AppXLauncher.cpp:123-134 | appending a trailing "-p" or "-tid" changes neither scanned id |
| CommandLine.LastPid | AppXLauncher.cpp:126-129 | the process id the scan ends with never exceeds ULONG_MAX |
| CommandLine.LastTid | AppXLauncher.cpp:130-133 | the thread id the scan ends with never exceeds ULONG_MAX |
| CommandLine.LastAfterAppend | AppXLauncher.cpp:126-133 | each flag overwrites its id with its parsed value; other tokens leave both ids alone |
| CommandLine.LastPidWins | AppXLauncher.cpp:126-129 | among repeated "-p" flags the last one decides the process id |
| CommandLine.LastTidWins | AppXLauncher.cpp:130-133 | among repeated "-tid" flags the last one decides the thread id |
| CommandLine.NoPidFlag | AppXLauncher.cpp:121-129 | without a "-p" flag the process id stays 0 |
| CommandLine.NoTidFlag | AppXLauncher.cpp:121-133 | without a "-tid" flag the thread id stays 0 |
| CommandLine.LastPidOfSingleFlag | AppXLauncher.cpp:126-129 | a single "-p" flag decides the process id wherever it stands |
| CommandLine.LastTidOfSingleFlag | AppXLauncher.cpp:130-133 | a single "-tid" flag decides the thread id wherever it stands |
| CommandLine.IntendedIdsRecovered | AppXLauncher.cpp:121-134 | in any order among other tokens, "-p" and "-tid" carrying the decimal spellings of two ids scan to exactly those ids |
| CommandLine.Scan | AppXLauncher.cpp:121-134 | the (pid, tid) pair the scan leaves, read from the tokens of the arguments after the program name; both never exceed ULONG_MAX |
| CommandLine.ScanArgs | AppXLauncher.cpp:121-134 | the index loop, which reads `argv[++i]` only while `i < argc - 1`, ends with the (pid, tid) of the token reading; both fit in 32 bits |
| CommandLine.ScanExample | AppXLauncher.cpp:121-134 | `-p 4321 -tid 17` scans to (4321, 17) |
| CommandLine.ScanSwappedExample | AppXLauncher.cpp:121-134 | `-tid 17 -p 4321` scans to (4321, 17) |
| CommandLine.ScanZeroPidExample | AppXLauncher.cpp:121-134 | `-p 0 -tid 9` leaves the process id 0 |
| Platform.Throws | AppXLauncher.cpp:64-83 | definition of which calls throw on failure: every call reached through a `THROW_*` macro or a throwing constructor, and not the debug-settings calls of lines 106-108 and 117, the wait of line 85 or the resume of line 154 |
| Platform.Issue | AppXLauncher.cpp:140-154 | definition of running a plan against the oracle: each call in turn, failing when its position is in the oracle, stopping after the first call that fails and throws; never more calls than the plan, and at least one for a non-empty plan |
| Platform.IssueShape | AppXLauncher.cpp:140-154 | the issued calls are the plan's in order, each failing exactly when its position is in the oracle; only the last may have thrown; a run shorter than its plan ended with a throw |
| Platform.IssueCompletes | AppXLauncher.cpp:140-154 | a plan runs to its end exactly when none of its throwing calls fails |
| Platform.IssueFollowsPlan | AppXLauncher.cpp:105-117 | the operations issued are a prefix of the plan |
| Platform.IssueReaches | AppXLauncher.cpp:140-154 | when every throwing call before position k succeeds, the call at k is issued |
| Platform.IssueStopsAt | AppXLauncher.cpp:140-154 | a throwing call that fails is the last call issued |
| Platform.IssueAppendAborted | AppXLauncher.cpp:115-117 | when a routine throws, nothing its caller planned after it is issued |
| Platform.IssueAppendCompleted | AppXLauncher.cpp:149-151 | when a routine completes, its caller's next calls follow it |
| Platform.IgnoredOutcomesDoNotMatter | AppXLauncher.cpp:106-108 | two oracles that agree on the throwing calls issue the same calls |
| Platform.Register | AppXLauncher.cpp:106-117 | a failed call or one that neither registers nor unregisters leaves the registrations as they were; a successful EnableDebugging makes its debugger the package's; a successful DisableDebugging removes the package's registration |
| Platform.Replay | AppXLauncher.cpp:105-117 | definition of the registrations after a run: each issued call applied in order by `Register`; characterised by ReplayAppend, ReplayKeeps and ReplayOthersUnchanged |
| Platform.ReplayAppend | AppXLauncher.cpp:105-117 | the registrations after two runs are those the second leaves, started from the first's |
| Platform.ReplayKeeps | AppXLauncher.cpp:140-154 | calls that neither register nor unregister leave the registrations as they were |
| Platform.ReplayOthersUnchanged | AppXLauncher.cpp:106-117 | calls about one package leave every other package's registration as it was |
| Platform.ExitOf | AppXLauncher.cpp:158 | the process returns, with code 0, exactly when no call threw |
| Platform.Os.Invoke | AppXLauncher.cpp:105-117 | the call is appended to the trace, failing exactly when the oracle says so |
| Platform.Os.Debuggers | AppXLauncher.cpp:105-117 | definition of the current debug registrations: the starting registrations with every call of the trace applied in order by `Replay` |
| Platform.Os.AllocateRemote | AppXLauncher.cpp:77-78 | on success a fresh, zero-filled buffer of (bytes + 1) / 2 wide characters; null exactly when the oracle fails the call |
| Platform.Os.WriteRemote | AppXLauncher.cpp:80 | the first bytes / 2 units are copied in place and the rest keep their contents; a write that does not fit, or that the oracle fails, leaves the buffer unchanged |
| Config.ConfigPath | AppXLauncher.cpp:36-37 | the executable's path with its filename replaced by the configuration file's name |
| Config.LoadUtf8FileToUtf16 | AppXLauncher.cpp:4-32 | a file that cannot be opened throws; an empty file is empty text; a file with a mark is decoded from byte 3; any other file is decoded whole |
| Config.ConfigText | AppXLauncher.cpp:37-38 | a read error is passed on; decoded text is returned as it is when non-empty, and any empty decoded text throws E_INVALIDARG |
| Config.NamedString | AppXLauncher.cpp:41-42 | a member is found exactly when present; a missing member throws naming its key |
| Config.ConfigJson | AppXLauncher.cpp:40 | succeeds exactly when the text is read and the parser accepts it, with the parser's object; a rejected text throws |
| Config.ReadPackageConfig | AppXLauncher.cpp:34-45 | succeeds exactly when the file parses and has both members; family name first, application id second; a parse error, a missing family name, or (with the family name present) a missing "AppId" decides the error |
| Config.ReadDllConfig | AppXLauncher.cpp:47-55 | succeeds exactly when the file parses and has "InjectDll", whose value it returns |
| Config.FindFirstPackage | AppXLauncher.cpp:57-60 | the first installed package's full name, and an error naming the family when there is none |
| Config.BomMakesNoDifference | AppXLauncher.cpp:24-31 | a configuration file reads the same with or without a mark in front |
| Config.EmptyConfigRejected | AppXLauncher.cpp:37-38 | an empty configuration file makes both readers throw for empty text |
| Config.BomOnlyConfigRejected | AppXLauncher.cpp:24-38 | a file holding only the mark is rejected as empty by both readers |
| Launcher.BuildAppUserModelId | AppXLauncher.cpp:110-114 | the identifier is family name, '!', application id, and its length equals the reserved capacity |
| Launcher.AppUserModelIdRoundTrip | AppXLauncher.cpp:110-115 | a family name without '!' and the application id are recovered from the identifier |
| Launcher.AnchorDllPath | AppXLauncher.cpp:143-148 | the anchored module path; an absolute one unchanged, a plain relative one put beside the executable |
| Launcher.CString | AppXLauncher.cpp:82 | what `LoadLibraryW` reads: the buffer's prefix up to, not including, the first NUL |
| Launcher.TerminatedPathReadsBack | AppXLauncher.cpp:76-82 | a path without NUL, followed by the terminator, reads back as the path |
| Launcher.TerminatorUnwritten | AppXLauncher.cpp:76-80 | writing 2n bytes into the zeroed 2n + 2 leaves the terminator in the last unit |
| Launcher.InjectDllPlan | AppXLauncher.cpp:76-85 | definition of `InjectDll`'s calls: allocate 2n + 2 bytes, write 2n bytes at offset 0, a remote thread on the terminated path, a 10-second wait |
| Launcher.DebugSetupPlan | AppXLauncher.cpp:105-108 | definition of the debug-settings calls in line order: create the settings object, terminate the package's processes, unregister, register the launcher |
| Launcher.ActivationPlan | AppXLauncher.cpp:64-69 | definition of `ActivateApplication`'s calls in line order: create the activation manager, allow the foreground window, activate the identifier |
| Launcher.OrchestratorPlan | AppXLauncher.cpp:105-117 | definition of the orchestrator's calls in line order; spelled out by OrchestratorPlanSpelled |
| Launcher.InjectorPlan | AppXLauncher.cpp:140-154 | definition of the injector's calls in line order; spelled out by InjectorPlanSpelled |
| Launcher.LoadAndResumePlan | AppXLauncher.cpp:149-154 | definition of the calls after the process is opened: the injection, then open the thread and resume it |
| Launcher.InjectedPath | AppXLauncher.cpp:138-149 | definition of the string handed to `InjectDll`: the native form of the configured module path anchored at the executable's path |
| Launcher.OrchestratorRun | AppXLauncher.cpp:100-117 | a configuration error or a missing package ends the run before any platform call; otherwise the calls are those the orchestrator plan issues and the exit follows from them |
| Launcher.InjectorRun | AppXLauncher.cpp:136-155 | a configuration error ends the run before any platform call; otherwise the calls are those the injector plan issues for the anchored module path, and the exit follows from them |
| Launcher.WinMainRun | AppXLauncher.cpp:95-158 | `argc < 5` (fewer than four arguments after the name) runs the orchestrator; otherwise a zero pid or tid makes no call and returns 0, and non-zero ids run the injector |
| Launcher.Activate | AppXLauncher.cpp:62-72 | the trace grows by the activation calls the oracle lets through, in order; the result says whether all three succeeded |
| Launcher.InjectDll | AppXLauncher.cpp:74-86 | the trace grows by allocate (2n + 2 bytes), write (2n bytes at 0), remote thread on the buffer's contents, and wait; on success the buffer holds the path and a NUL |
| Launcher.SetUpDebugging | AppXLauncher.cpp:105-108 | the debug-settings object is created, then terminate, unregister and register, their results ignored |
| Launcher.Orchestrate | AppXLauncher.cpp:98-117 | the trace and the exit are those of `OrchestratorRun` |
| Launcher.RegisterAndActivate | AppXLauncher.cpp:105-117 | once the package is known, the trace grows by exactly what the orchestrator plan issues from the current position, and the exit is the one that trace ends with |
| Launcher.LoadAndResume | AppXLauncher.cpp:149-154 | the injection, then open thread and resume, stopping at the first throw |
| Launcher.Inject | AppXLauncher.cpp:136-155 | the trace and the exit are those of `InjectorRun` |
| Launcher.WinMain | AppXLauncher.cpp:88-159 | the trace and the exit are those of `WinMainRun`; the registrations end as the issued calls leave them |
| Protocol.OrchestratorPlanSpelled | AppXLauncher.cpp:105-117 | the orchestrator's eight calls, position by position |
| Protocol.OrchestratorOrder | AppXLauncher.cpp:105-117 | the calls are issued as a prefix of: create, terminate, unregister, register, the activation calls, unregister |
| Protocol.OrchestratorCompletes | AppXLauncher.cpp:105-117 | the orchestrator runs to its end exactly when the creation and the three activation calls succeed |
| Protocol.DebugSettingsResultsIgnored | AppXLauncher.cpp:106-108 | the results of terminate, unregister, register and the final unregister never change which calls are issued |
| Protocol.RegistrationsKeptBeforeSetup | AppXLauncher.cpp:105-106 | before line 107 the registrations are as found |
| Protocol.ClearedAtLine107 | AppXLauncher.cpp:107 | when the unregistration of line 107 succeeds, the package has no debugger right after it, whatever an earlier run left registered |
| Protocol.RegisteredAfterSetup | AppXLauncher.cpp:107-108 | when the registration of line 108 succeeds, the package's debugger is the launcher after the first four calls, whether or not the unregistration of line 107 succeeded |
| Protocol.RegisteredWhileActivating | AppXLauncher.cpp:108-116 | after a successful registration, and until line 117, the launcher is the package's debugger and nothing else changed |
| Protocol.OtherPackagesUntouched | AppXLauncher.cpp:106-117 | no other package's registration changes |
| Protocol.UnregisteredWhenDone | AppXLauncher.cpp:117 | a completed run whose final unregistration succeeds leaves the registrations as found, minus the package |
| Protocol.ActivationThrowLeavesDebuggerRegistered | AppXLauncher.cpp:108-117 | when an activation call throws after the registration, the run stops before line 117 and the launcher stays registered |
| Protocol.FinalUnregisterFailureLeavesDebugger | AppXLauncher.cpp:117 | when every throwing call succeeds but the unregistration of line 117 fails, the run still returns 0 and the launcher stays the package's debugger |
| Protocol.InjectorPlanSpelled | AppXLauncher.cpp:140-154 | the injector's seven calls, position by position |
| Protocol.InjectorOrder | AppXLauncher.cpp:140-154 | the calls are issued as a prefix of: open process, allocate, write, remote thread, wait, open thread, resume |
| Protocol.ResumeIssuedIff | AppXLauncher.cpp:140-154 | the resume is issued exactly when open process, allocate, write, remote thread and open thread all succeed |
| Protocol.WaitAndResumeResultsIgnored | AppXLauncher.cpp:85-154 | the results of the wait and the resume never change which calls are issued |
| Protocol.InjectorKeepsRegistrations | AppXLauncher.cpp:136-155 | the injector changes no debug registration |
| Protocol.LoaderReadsModulePath | AppXLauncher.cpp:76-82 | any remote thread issued reads exactly the module path from its buffer |
| Protocol.DebuggerRunKeepsRegistrations | AppXLauncher.cpp:119-156 | with `argc >= 5` (four or more arguments after the name) the program changes no debug registration |
| Protocol.OrchestratorRunUnregistersWhenDone | AppXLauncher.cpp:96-117 | the program, started as the orchestrator with its throwing calls and final unregistration succeeding, returns 0 and leaves the registrations as found, minus the package |
| Protocol.OrchestratorRunLeavesDebuggerOnThrow | AppXLauncher.cpp:108-117 | the program, when an activation call throws after the registration, dies of that activation call and leaves the launcher registered |
| Protocol.ProgramResumesIff | AppXLauncher.cpp:96-155 | over every command line, configuration and outcome, a thread is resumed exactly when the debugger run has non-zero ids, a configured module, and the five throwing calls before the resume succeed |
| Protocol.DebuggerRunLoadsConfiguredModule | AppXLauncher.cpp:138-149 | with `argc >= 5` (four or more arguments after the name), any remote thread loads the configured module anchored beside the executable |

## Left out

- File access: `CreateFileW`, `GetFileSizeEx`, the file mapping and its handles are
  reduced to a map from paths to byte sequences. A failure of any of them is modelled
  as "cannot be opened".
- The `SIZE_MAX` check of lines 15-16 is left out. It is compiled only where `size_t`
  is narrower than the 64-bit file size, that is in a 32-bit build. There it throws
  `E_INVALIDARG` for a file larger than `SIZE_MAX` bytes. The model's files have no size
  limit and are never rejected for their size.
- Config.LoadUtf8FileToUtf16: decodes after the corrected unsigned mark test, not
  after the test as written (see Findings). `Config.BomMakesNoDifference` and
  `Config.BomOnlyConfigRejected` are therefore about the corrected program. As compiled
  with a signed `char`, the mark reaches the decoder. A file holding only the mark then
  becomes the non-empty text U+FEFF and is not rejected as empty.
- `Utf8ToUtf16`, `JsonObject::Parse`, the conversion of a wide string to `fs::path`,
  `GetModuleFsPath` (`g_exePath`) and `CONFIG_NAME` are foreign code. They are fields of
  `Config.Host`. `AppXLauncher.h` and `pch.h` are not part of this model.
  `utf8ToUtf16` and `toPath` are total functions and `exePath` is a value. So a throw
  from `Utf8ToUtf16` (for example on malformed UTF-8), from the path conversion or from
  `GetModuleFsPath` cannot be represented.
- Config.NamedString: models JSON objects as maps of string members only. A member
  that is present but not a string, which `GetNamedString` would throw on, is not
  represented.
- `PackageManager` is not a call in the trace. `FindFirstPackage` is a lookup in
  `Host.packages`, from the family name to the first package's full name.
- COM activation, `IApplicationActivationManager` and `IPackageDebugSettings` are
  abstract operations in the trace. Their outcomes come from the oracle.
  `winrt::init_apartment` is left out.
- A `wchar_t` is modelled as one Dafny `char`, which is a Unicode scalar value, not
  a UTF-16 code unit. The buffer sizes of `InjectDll` (2n + 2 bytes allocated, 2n
  written) therefore hold with n = `dllPath.size()` only for paths whose characters
  all lie in the Basic Multilingual Plane. A non-BMP character counts as one unit here
  but two in AppXLauncher.cpp. Unpaired surrogates cannot be represented.
- The process id returned by `ActivateApplication` is left out. The caller drops it.
- CommandLine.ParseULong: models `wcstoul` as its digit prefix, saturating at
  ULONG_MAX. Only the ASCII digits 0-9 count as digits. The CRT's `wcstoul` also
  accepts other Unicode decimal digits, which are not modelled. Leading blanks, a sign
  and the setting of `errno` are not modelled either.
- Paths: UNC prefixes, case-insensitive drive comparison, `.`/`..` and trailing
  separators are not modelled. The string conversion `Native` joins the components
  with `\`. The string handed to `InjectDll` is this rendering, `Native` of the
  converted path, even for an absolute configured module. `path.native()` returns the
  stored string, so the two differ when the configured string uses `/` or repeated
  separators.
- Handle lifetimes are left out: the process, thread and mapping handles are never
  closed in the model. The remote buffer is never freed. `RAIIVirtualAllocEx` is not
  part of this model; by its name it frees the buffer when `InjectDll` returns.
  Cross-process memory is a local `array`, and `LoadLibraryW` is reduced to the string
  it reads.
- The 10-second wait has no time in the model. Its result is an oracle outcome that the
  code ignores.
- The platform's own restart of the launcher as the package's debugger is left out:
  the two runs are modelled separately.
- The debug registrations are not a stored field. `Os.Debuggers()` derives them from
  the starting registrations and the trace.
- Launcher.SetUpDebugging, Launcher.RegisterAndActivate, Launcher.LoadAndResume: these are not separate functions
  in AppXLauncher.cpp. They are split out of the orchestrator and injector bodies to keep
  each proof small, and they issue the same calls in the same order.
- A cleanup guard that removes the registration when activation throws is not
  modelled, because the code has none. The gap is proved instead.

## Findings

| source | as written | input that shows it | evidently intended | confidence | as-written member | corrected member |
|---|---|---|---|---|---|---|
| AppXLauncher.cpp:25 | `ptr[0] == 0xEF && ptr[1] == 0xBB && ptr[2] == 0xBF` on a `const char*`; with a signed `char` each byte is between -128 and 127, so it never equals 239, 187 or 191 | a configuration file starting EF BB BF 7B 7D | the test compares the bytes as unsigned values and skips the mark | high, assuming MSVC's default signed `char`; not executed | Utf8File.SkipBomAsWritten, Utf8File.AsWrittenMissesBom | Utf8File.SkipBom |
