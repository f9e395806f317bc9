/** `wWinMain` and the two helpers it calls (AppXLauncher.cpp, lines 62-159). With
    `argc < 5` (fewer than four arguments after the name) the launcher is the
    orchestrator: it registers itself as the package's debugger, activates the
    application and removes the registration. The platform then starts the launcher
    again as that debugger, with the new process's `-p` and `-tid`; this injector run
    loads the configured module into the suspended process and resumes its main
    thread. */
module Launcher {
  import opened Paths
  import opened CommandLine
  import opened Platform
  import opened Config

  // ---------------------------------------------------------------------------
  // The activation identifier (lines 110-114)

  /** The AppUserModelID: capacity is reserved for family name, '!' and application
      id, then the three are appended in turn. */
  method BuildAppUserModelId(familyName: string, appId: string) returns (id: string, capacity: nat)
    ensures id == familyName + "!" + appId
    ensures capacity == |familyName| + 1 + |appId| && |id| == capacity
  {
    capacity := |familyName| + 1 + |appId|;
    id := familyName;
    id := id + "!";
    id := id + appId;
  }

  /** Reads an AppUserModelID back: the text before the first '!' and the text after it. */
  function SplitAppUserModelId(id: string): (r: Option<(string, string)>)
    ensures r.None? <==> '!' !in id
    ensures r.Some? ==> '!' !in r.value.0 && r.value.0 + "!" + r.value.1 == id
  {
    if |id| == 0 then None
    else if id[0] == '!' then Some(([], id[1..]))
    else match SplitAppUserModelId(id[1..])
      case None => None
      case Some((family, app)) => Some(([id[0]] + family, app))
  }

  /** A family name never contains '!', so the identifier determines both of its parts. */
  lemma {:induction false} AppUserModelIdRoundTrip(familyName: string, appId: string)
    requires '!' !in familyName
    ensures SplitAppUserModelId(familyName + "!" + appId) == Some((familyName, appId))
    decreases |familyName|
  {
    var id := familyName + "!" + appId;
    if |familyName| == 0 {
      assert id[0] == '!' && id[1..] == appId;
    } else {
      assert id[0] == familyName[0];
      assert id[1..] == familyName[1..] + "!" + appId;
      AppUserModelIdRoundTrip(familyName[1..], appId);
      assert [id[0]] + familyName[1..] == familyName;
    }
  }

  // ---------------------------------------------------------------------------
  // The module to inject (lines 143-148)

  /** `path` starts as the configured module; a relative one is replaced by the
      executable's path with its filename replaced by the module. */
  method AnchorDllPath(exePath: Path, injectDll: Path) returns (path: Path)
    ensures path == AnchoredPath(exePath, injectDll)
    ensures IsAbsolute(injectDll) ==> path == injectDll
    ensures IsPlainRelative(injectDll) ==>
      path.rootName == exePath.rootName && path.rootDirectory == exePath.rootDirectory &&
      path.parts == RemoveFilename(exePath).parts + injectDll.parts
  {
    path := injectDll;
    if IsRelative(injectDll) {
      path := exePath;
      path := ReplaceFilename(path, injectDll);
    }
  }

  // ---------------------------------------------------------------------------
  // Plans: the platform calls of each routine, in the order AppXLauncher.cpp makes them

  /** Lines 105-108: create the debug-settings object, then terminate, unregister and
      register the launcher as debugger of the package. */
  function DebugSetupPlan(fullName: string, exePath: Path): seq<Op> {
    [CreatePackageDebugSettings, TerminateAllProcesses(fullName), DisableDebugging(fullName),
     EnableDebugging(fullName, exePath)]
  }

  /** `ActivateApplication`, lines 64-69. */
  function ActivationPlan(appUserModelId: string): seq<Op> {
    [CreateActivationManager, AllowSetForegroundWindow, ActivateApplication(appUserModelId)]
  }

  /** The orchestrator, lines 105-117. */
  function OrchestratorPlan(fullName: string, exePath: Path, appUserModelId: string): seq<Op> {
    DebugSetupPlan(fullName, exePath) + (ActivationPlan(appUserModelId) + [DisableDebugging(fullName)])
  }

  /** The string `LoadLibraryW` reads from a buffer: everything before the first NUL. */
  function CString(buffer: seq<char>): (s: string)
    ensures |s| <= |buffer| && s == buffer[..|s|]
    ensures '\0' !in s
    ensures |s| < |buffer| ==> buffer[|s|] == '\0'
  {
    if |buffer| == 0 || buffer[0] == '\0' then []
    else [buffer[0]] + CString(buffer[1..])
  }

  /** A path without NUL characters, followed by the terminator, reads as itself. */
  lemma TerminatedPathReadsBack(path: string)
    requires '\0' !in path
    ensures CString(path + ['\0']) == path
  {
    var buffer := path + ['\0'];
    var s := CString(buffer);
    assert buffer[|path|] == '\0';
    assert forall i :: 0 <= i < |path| ==> buffer[i] == path[i];
    assert |s| == |path|;
    assert s == buffer[..|path|] == path;
  }

  /** `InjectDll`, lines 76-85, for a path of n wide characters: 2n + 2 bytes are
      zeroed, 2n bytes are written from offset 0, a thread loads the string in the
      buffer, and its end is waited for for 10000 ms. */
  function InjectDllPlan(dllPath: string): seq<Op> {
    [VirtualAllocEx(2 * |dllPath| + 2), WriteProcessMemory(0, 2 * |dllPath|),
     CreateRemoteThread(dllPath + ['\0']), WaitForSingleObject(10000)]
  }

  /** The injector, lines 140-154. */
  function InjectorPlan(pid: nat, tid: nat, dllPath: string): seq<Op> {
    [OpenProcess(pid)] + LoadAndResumePlan(dllPath, tid)
  }

  /** What follows the opening of the target process: the injection, then the
      suspended thread is opened and resumed. */
  function LoadAndResumePlan(dllPath: string, tid: nat): seq<Op> {
    InjectDllPlan(dllPath) + [OpenThread(tid), ResumeThread]
  }

  // ---------------------------------------------------------------------------
  // What each branch does, as a function of the host, the arguments and the oracle

  /** The orchestrator branch started at trace position `start`: a configuration or
      package lookup that throws ends it before any platform call. */
  function OrchestratorRun(host: Host, start: nat, failAt: set<nat>): (r: Run)
    ensures ReadPackageConfig(host).Err? ==> r == Run([], Terminated(ReadPackageConfig(host).error))
    ensures ReadPackageConfig(host).Ok? && FindFirstPackage(host, ReadPackageConfig(host).value.0).Err? ==>
      r == Run([], Terminated(PackageNotFound(ReadPackageConfig(host).value.0)))
    ensures ReadPackageConfig(host).Ok? && FindFirstPackage(host, ReadPackageConfig(host).value.0).Ok? ==>
      var (familyName, appId) := ReadPackageConfig(host).value;
      var plan := OrchestratorPlan(FindFirstPackage(host, familyName).value, host.exePath, familyName + "!" + appId);
      r.steps == Issue(plan, start, failAt) && r.exit == ExitOf(r.steps)
    ensures r.exit.Returned? ==> r.exit.code == 0
  {
    match ReadPackageConfig(host)
    case Err(e) => Run([], Terminated(e))
    case Ok((familyName, appId)) =>
      match FindFirstPackage(host, familyName)
      case Err(e) => Run([], Terminated(e))
      case Ok(fullName) =>
        var steps := Issue(OrchestratorPlan(fullName, host.exePath, familyName + "!" + appId), start, failAt);
        Run(steps, ExitOf(steps))
  }

  /** The module path the injector hands to the target. */
  function InjectedPath(host: Host, injectDll: string): string {
    Native(AnchoredPath(host.exePath, host.toPath(injectDll)))
  }

  /** The injector branch for the scanned ids, started at trace position `start`. */
  function InjectorRun(host: Host, pid: nat, tid: nat, start: nat, failAt: set<nat>): (r: Run)
    ensures ReadDllConfig(host).Err? ==> r == Run([], Terminated(ReadDllConfig(host).error))
    ensures ReadDllConfig(host).Ok? ==>
      var plan := InjectorPlan(pid, tid, InjectedPath(host, ReadDllConfig(host).value));
      r.steps == Issue(plan, start, failAt) && r.exit == ExitOf(r.steps)
    ensures r.exit.Returned? ==> r.exit.code == 0
  {
    match ReadDllConfig(host)
    case Err(e) => Run([], Terminated(e))
    case Ok(injectDll) =>
      var steps := Issue(InjectorPlan(pid, tid, InjectedPath(host, injectDll)), start, failAt);
      Run(steps, ExitOf(steps))
  }

  /** `wWinMain` for the argument vector `argv` (argv[0] being the program). */
  function WinMainRun(host: Host, argv: seq<string>, start: nat, failAt: set<nat>): (r: Run)
    ensures |argv| < 5 ==> r == OrchestratorRun(host, start, failAt)
    ensures |argv| >= 5 && (Scan(argv).0 == 0 || Scan(argv).1 == 0) ==> r == Run([], Returned(0))
    ensures |argv| >= 5 && Scan(argv).0 != 0 && Scan(argv).1 != 0 ==>
      r == InjectorRun(host, Scan(argv).0, Scan(argv).1, start, failAt)
    ensures r.exit.Returned? ==> r.exit.code == 0
  {
    if |argv| < 5 then OrchestratorRun(host, start, failAt)
    else
      var (pid, tid) := Scan(argv);
      if pid != 0 && tid != 0 then InjectorRun(host, pid, tid, start, failAt)
      else Run([], Returned(0))
  }

  // ---------------------------------------------------------------------------
  // The routines, over the platform's state

  /** `ActivateApplication`, lines 62-72; the process id it returns is not used. */
  method Activate(os: Os, appUserModelId: string) returns (ok: bool)
    modifies os
    ensures var steps := Issue(ActivationPlan(appUserModelId), |old(os.trace)|, os.failAt);
      os.trace == old(os.trace) + steps && ok == Completed(steps, ActivationPlan(appUserModelId))
  {
    ghost var whole := os.trace + Issue(ActivationPlan(appUserModelId), |os.trace|, os.failAt);
    ghost var rest := ActivationPlan(appUserModelId);

    ghost var before := os.trace;
    ok := os.Invoke(CreateActivationManager);
    rest := Advance(whole, before, rest, os.failAt, ok);
    if !ok {
      return;
    }
    before := os.trace;
    ok := os.Invoke(AllowSetForegroundWindow);
    rest := Advance(whole, before, rest, os.failAt, ok);
    if !ok {
      return;
    }
    before := os.trace;
    ok := os.Invoke(ActivateApplication(appUserModelId));
    rest := Advance(whole, before, rest, os.failAt, ok);
    if ok {
      Finish(whole, os.trace, os.failAt);
    }
  }

  /** `InjectDll`, lines 74-86. The buffer is handed back so that its contents can be
      stated: on success it holds the path and a terminating NUL that was never written. */
  method InjectDll(os: Os, dllPath: string) returns (mem: array?<char>, ok: bool)
    modifies os
    ensures var steps := Issue(InjectDllPlan(dllPath), |old(os.trace)|, os.failAt);
      os.trace == old(os.trace) + steps && ok == Completed(steps, InjectDllPlan(dllPath))
    ensures ok ==> mem != null && mem.Length == |dllPath| + 1 && mem[..] == dllPath + ['\0']
  {
    ghost var whole := os.trace + Issue(InjectDllPlan(dllPath), |os.trace|, os.failAt);
    ghost var rest := InjectDllPlan(dllPath);
    var bytes := |dllPath| * 2;

    ghost var before := os.trace;
    mem := os.AllocateRemote(bytes + 2);
    rest := Advance(whole, before, rest, os.failAt, mem != null);
    if mem == null {
      ok := false;
      return;
    }
    ghost var zeroes := mem[..];
    before := os.trace;
    ok := os.WriteRemote(mem, dllPath, bytes);
    rest := Advance(whole, before, rest, os.failAt, ok);
    if !ok {
      return;
    }
    TerminatorUnwritten(mem[..], zeroes, dllPath);
    before := os.trace;
    ok := os.Invoke(CreateRemoteThread(mem[..]));
    rest := Advance(whole, before, rest, os.failAt, ok);
    if !ok {
      return;
    }
    before := os.trace;
    var waited := os.Invoke(WaitForSingleObject(10000));
    rest := Advance(whole, before, rest, os.failAt, waited);
    Finish(whole, os.trace, os.failAt);
  }

  /** Lines 105-108: the debug-settings object is created (a failure throws), then
      the package's processes are terminated, its debugger unregistered and the
      launcher registered, each result ignored. */
  method SetUpDebugging(os: Os, fullName: string, exePath: Path) returns (ok: bool)
    modifies os
    ensures var steps := Issue(DebugSetupPlan(fullName, exePath), |old(os.trace)|, os.failAt);
      os.trace == old(os.trace) + steps && ok == Completed(steps, DebugSetupPlan(fullName, exePath))
  {
    ghost var whole := os.trace + Issue(DebugSetupPlan(fullName, exePath), |os.trace|, os.failAt);
    ghost var rest := DebugSetupPlan(fullName, exePath);

    ghost var before := os.trace;
    ok := os.Invoke(CreatePackageDebugSettings);
    rest := Advance(whole, before, rest, os.failAt, ok);
    if !ok {
      return;
    }
    before := os.trace;
    var terminated := os.Invoke(TerminateAllProcesses(fullName));
    rest := Advance(whole, before, rest, os.failAt, terminated);
    before := os.trace;
    var disabled := os.Invoke(DisableDebugging(fullName));
    rest := Advance(whole, before, rest, os.failAt, disabled);
    before := os.trace;
    var enabled := os.Invoke(EnableDebugging(fullName, exePath));
    rest := Advance(whole, before, rest, os.failAt, enabled);
    Finish(whole, os.trace, os.failAt);
  }

  /** The orchestrator branch, lines 98-117: the configuration and the package are
      looked up, the launcher registers itself as the package's debugger, activates the
      application and removes the registration again. */
  method Orchestrate(os: Os, host: Host) returns (exit: Exit)
    modifies os
    ensures var r := OrchestratorRun(host, |old(os.trace)|, os.failAt);
      os.trace == old(os.trace) + r.steps && exit == r.exit
  {
    var config := ReadPackageConfig(host);
    if config.Err? {
      assert os.trace + [] == os.trace;
      return Terminated(config.error);
    }
    var (familyName, appId) := config.value;
    var package := FindFirstPackage(host, familyName);
    if package.Err? {
      assert os.trace + [] == os.trace;
      return Terminated(package.error);
    }
    var fullName := package.value;
    exit := RegisterAndActivate(os, fullName, host.exePath, familyName, appId);
  }

  /** Lines 105-117, once the package is known: the launcher registers itself as the
      package's debugger, activates the application and removes the registration again;
      the trace grows by exactly what the orchestrator plan issues. */
  method RegisterAndActivate(os: Os, fullName: string, exePath: Path, familyName: string, appId: string)
    returns (exit: Exit)
    modifies os
    ensures var steps := Issue(OrchestratorPlan(fullName, exePath, familyName + "!" + appId), |old(os.trace)|, os.failAt);
      os.trace == old(os.trace) + steps && exit == ExitOf(steps)
  {
    ghost var plan := OrchestratorPlan(fullName, exePath, familyName + "!" + appId);
    ghost var steps := Issue(plan, |os.trace|, os.failAt);
    ghost var whole := os.trace + steps;

    ghost var before := os.trace;
    var created := SetUpDebugging(os, fullName, exePath);
    AdvanceBy(whole, before, DebugSetupPlan(fullName, exePath),
      ActivationPlan(familyName + "!" + appId) + [DisableDebugging(fullName)], os.failAt, os.trace[|before|..]);
    if !created {
      TraceExit(old(os.trace), steps);
      return Terminated(CallFailed(os.trace[|os.trace| - 1].op));
    }

    var appUserModelId, _ := BuildAppUserModelId(familyName, appId);
    before := os.trace;
    var activated := Activate(os, appUserModelId);
    AdvanceBy(whole, before, ActivationPlan(appUserModelId), [DisableDebugging(fullName)], os.failAt, os.trace[|before|..]);
    if !activated {
      ghost var issued := os.trace[|before|..];
      assert os.trace[|os.trace| - 1] == issued[|issued| - 1];
      TraceExit(old(os.trace), steps);
      return Terminated(CallFailed(os.trace[|os.trace| - 1].op));
    }
    before := os.trace;
    var cleared := os.Invoke(DisableDebugging(fullName));
    var _ := Advance(whole, before, [DisableDebugging(fullName)], os.failAt, cleared);
    Finish(whole, os.trace, os.failAt);
    TraceExit(old(os.trace), steps);
    exit := Returned(0);
  }

  /** The injector branch, lines 136-155, for the ids the scan found: the module is
      read from the configuration, the target process opened, the module path anchored,
      the module injected, and the suspended thread opened and resumed. */
  method Inject(os: Os, host: Host, pid: nat, tid: nat) returns (exit: Exit)
    modifies os
    ensures var r := InjectorRun(host, pid, tid, |old(os.trace)|, os.failAt);
      os.trace == old(os.trace) + r.steps && exit == r.exit
  {
    var config := ReadDllConfig(host);
    if config.Err? {
      assert os.trace + [] == os.trace;
      return Terminated(config.error);
    }
    var injectDll := host.toPath(config.value);
    ghost var plan := InjectorPlan(pid, tid, InjectedPath(host, config.value));
    ghost var steps := Issue(plan, |os.trace|, os.failAt);
    assert InjectorRun(host, pid, tid, |os.trace|, os.failAt) == Run(steps, ExitOf(steps));
    ghost var whole := os.trace + steps;
    ghost var rest := plan;

    ghost var before := os.trace;
    var processOpened := os.Invoke(OpenProcess(pid));
    rest := Advance(whole, before, rest, os.failAt, processOpened);
    if !processOpened {
      TraceExit(old(os.trace), steps);
      return Terminated(CallFailed(OpenProcess(pid)));
    }

    var path := AnchorDllPath(host.exePath, injectDll);
    assert rest == LoadAndResumePlan(Native(path), tid);
    before := os.trace;
    var loaded := LoadAndResume(os, Native(path), tid);
    AdvanceLast(whole, before, rest, os.failAt, os.trace);
    if !loaded {
      TraceExit(old(os.trace), steps);
      return Terminated(CallFailed(os.trace[|os.trace| - 1].op));
    }
    TraceExit(old(os.trace), steps);
    exit := Returned(0);
  }

  /** Lines 141-153 after the target process is open: the module is injected, then the
      suspended thread is opened (a failure throws) and resumed, its result ignored. */
  method LoadAndResume(os: Os, dllPath: string, tid: nat) returns (ok: bool)
    modifies os
    ensures var steps := Issue(LoadAndResumePlan(dllPath, tid), |old(os.trace)|, os.failAt);
      os.trace == old(os.trace) + steps && ok == Completed(steps, LoadAndResumePlan(dllPath, tid))
  {
    ghost var steps := Issue(LoadAndResumePlan(dllPath, tid), |os.trace|, os.failAt);
    ghost var whole := os.trace + steps;
    ghost var before := os.trace;
    var _, injected := InjectDll(os, dllPath);
    ghost var issued := os.trace[|before|..];
    AdvanceBy(whole, before, InjectDllPlan(dllPath), [OpenThread(tid), ResumeThread], os.failAt, issued);
    if !injected {
      assert steps == issued;
      return false;
    }
    ghost var rest := [OpenThread(tid), ResumeThread];
    before := os.trace;
    ok := os.Invoke(OpenThread(tid));
    rest := Advance(whole, before, rest, os.failAt, ok);
    if !ok {
      assert steps == whole[|old(os.trace)|..] && steps[|steps| - 1] == whole[|whole| - 1];
      return;
    }
    before := os.trace;
    var resumed := os.Invoke(ResumeThread);
    rest := Advance(whole, before, rest, os.failAt, resumed);
    Finish(whole, os.trace, os.failAt);
    assert steps == whole[|old(os.trace)|..] && steps[|steps| - 1] == whole[|whole| - 1];
  }

  /** `wWinMain`, lines 88-159: `argc < 5` selects the orchestrator;
      otherwise the arguments are scanned and the injector runs only when both ids are
      non-zero. The registrations end as the issued calls leave them. */
  method WinMain(os: Os, host: Host, argv: seq<string>) returns (exit: Exit)
    modifies os
    ensures var r := WinMainRun(host, argv, |old(os.trace)|, os.failAt);
      os.trace == old(os.trace) + r.steps && exit == r.exit &&
      os.Debuggers() == Replay(old(os.Debuggers()), r.steps)
  {
    if |argv| < 5 {
      exit := Orchestrate(os, host);
    } else {
      var pid, tid := ScanArgs(argv);
      if pid != 0 && tid != 0 {
        exit := Inject(os, host, pid, tid);
      } else {
        assert os.trace + [] == os.trace;
        exit := Returned(0);
      }
    }
    ReplayAppend(os.registered, old(os.trace), os.trace[|old(os.trace)|..]);
    assert old(os.trace) + os.trace[|old(os.trace)|..] == os.trace;
  }

  /** The write of `InjectDll` leaves the zero-filled spare unit in place. */
  lemma TerminatorUnwritten(after: seq<char>, zeroed: seq<char>, dllPath: string)
    requires |zeroed| == |dllPath| + 1 && forall k :: 0 <= k < |zeroed| ==> zeroed[k] == '\0'
    requires after == dllPath[..|dllPath|] + zeroed[|dllPath|..]
    ensures after == dllPath + ['\0']
  {
    assert zeroed[|dllPath|..] == ['\0'];
  }
}
