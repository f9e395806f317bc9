/** The call-ordering properties of the two branches of `wWinMain`
    (AppXLauncher.cpp, lines 62-86 and 105-154): which calls are issued for which
    outcomes, and what the issued calls do to the package's debug registration. */
module Protocol {
  import opened Paths
  import opened Platform
  import opened CommandLine
  import opened Config
  import opened Launcher

  // ---------------------------------------------------------------------------
  // The orchestrator (lines 105-117)

  /** The orchestrator's eight calls, by position. */
  lemma OrchestratorPlanSpelled(fullName: string, exePath: Path, id: string)
    ensures OrchestratorPlan(fullName, exePath, id) ==
      [CreatePackageDebugSettings, TerminateAllProcesses(fullName), DisableDebugging(fullName),
       EnableDebugging(fullName, exePath), CreateActivationManager, AllowSetForegroundWindow,
       ActivateApplication(id), DisableDebugging(fullName)]
  {
  }

  /** The orchestrator issues its calls in the order of AppXLauncher.cpp: a prefix of
      create, terminate, unregister, register, the three activation calls, unregister. */
  lemma OrchestratorOrder(fullName: string, exePath: Path, id: string, start: nat, failAt: set<nat>)
    ensures var steps := Issue(OrchestratorPlan(fullName, exePath, id), start, failAt);
      Ops(steps) == OrchestratorPlan(fullName, exePath, id)[..|steps|]
  {
    IssueFollowsPlan(OrchestratorPlan(fullName, exePath, id), start, failAt);
  }

  /** The orchestrator runs to its end exactly when the debug-settings object is
      created and the three activation calls succeed; the results of terminating,
      unregistering and registering never matter. */
  lemma OrchestratorCompletes(fullName: string, exePath: Path, id: string, start: nat, failAt: set<nat>)
    ensures var plan := OrchestratorPlan(fullName, exePath, id);
      Completed(Issue(plan, start, failAt), plan) <==>
        start !in failAt && start + 4 !in failAt && start + 5 !in failAt && start + 6 !in failAt
  {
    var plan := OrchestratorPlan(fullName, exePath, id);
    OrchestratorPlanSpelled(fullName, exePath, id);
    IssueCompletes(plan, start, failAt);
    assert Throws(plan[0]) && Throws(plan[4]) && Throws(plan[5]) && Throws(plan[6]);
  }

  /** The HRESULTs of the debug-settings calls are ignored: two oracles that agree on
      the creation and the activation calls issue the same calls. */
  lemma DebugSettingsResultsIgnored(fullName: string, exePath: Path, id: string, start: nat, f: set<nat>, g: set<nat>)
    requires (start in f <==> start in g) && (start + 4 in f <==> start + 4 in g)
    requires (start + 5 in f <==> start + 5 in g) && (start + 6 in f <==> start + 6 in g)
    ensures var plan := OrchestratorPlan(fullName, exePath, id);
      Ops(Issue(plan, start, f)) == Ops(Issue(plan, start, g))
  {
    var plan := OrchestratorPlan(fullName, exePath, id);
    OrchestratorPlanSpelled(fullName, exePath, id);
    forall i | 0 <= i < |plan| && Throws(plan[i])
      ensures start + i in f <==> start + i in g
    {
      assert i == 0 || i == 4 || i == 5 || i == 6;
    }
    IgnoredOutcomesDoNotMatter(plan, start, f, g);
  }

  /** Before the launcher unregisters anything (line 107), the registrations are as
      the orchestrator found them. */
  lemma {:induction false} RegistrationsKeptBeforeSetup(reg: Registry, fullName: string, exePath: Path, id: string,
      start: nat, failAt: set<nat>, k: nat)
    requires k <= 2 && k <= |Issue(OrchestratorPlan(fullName, exePath, id), start, failAt)|
    ensures Replay(reg, Issue(OrchestratorPlan(fullName, exePath, id), start, failAt)[..k]) == reg
    decreases k
  {
    var plan := OrchestratorPlan(fullName, exePath, id);
    var steps := Issue(plan, start, failAt);
    if k == 0 {
      assert steps[..0] == [];
    } else {
      OrchestratorPlanSpelled(fullName, exePath, id);
      IssueShape(plan, start, failAt);
      ReplayPrefix(reg, steps, k);
      RegistrationsKeptBeforeSetup(reg, fullName, exePath, id, start, failAt, k - 1);
      assert steps[k - 1].op == plan[k - 1];
    }
  }

  /** When the unregistration of line 107 succeeds, the package has no debugger right
      after it, whatever an earlier run left registered. */
  lemma ClearedAtLine107(reg: Registry, fullName: string, exePath: Path, id: string,
      start: nat, failAt: set<nat>)
    requires start !in failAt && start + 2 !in failAt
    requires 3 <= |Issue(OrchestratorPlan(fullName, exePath, id), start, failAt)|
    ensures Replay(reg, Issue(OrchestratorPlan(fullName, exePath, id), start, failAt)[..3]) == reg - {fullName}
  {
    var plan := OrchestratorPlan(fullName, exePath, id);
    var steps := Issue(plan, start, failAt);
    OrchestratorPlanSpelled(fullName, exePath, id);
    IssueShape(plan, start, failAt);
    RegistrationsKeptBeforeSetup(reg, fullName, exePath, id, start, failAt, 2);
    ReplayPrefix(reg, steps, 3);
    assert steps[2] == Step(DisableDebugging(fullName), true);
  }

  /** Right after the registration of line 108 has succeeded, the launcher is the
      package's debugger, whatever the unregistration of line 107 did. */
  lemma RegisteredAfterSetup(reg: Registry, fullName: string, exePath: Path, id: string,
      start: nat, failAt: set<nat>)
    requires start !in failAt && start + 3 !in failAt
    requires 4 <= |Issue(OrchestratorPlan(fullName, exePath, id), start, failAt)|
    ensures Replay(reg, Issue(OrchestratorPlan(fullName, exePath, id), start, failAt)[..4]) == reg[fullName := exePath]
  {
    var plan := OrchestratorPlan(fullName, exePath, id);
    var steps := Issue(plan, start, failAt);
    OrchestratorPlanSpelled(fullName, exePath, id);
    IssueShape(plan, start, failAt);
    RegistrationsKeptBeforeSetup(reg, fullName, exePath, id, start, failAt, 2);
    ReplayPrefix(reg, steps, 3);
    ReplayPrefix(reg, steps, 4);
    assert steps[2] == Step(DisableDebugging(fullName), start + 2 !in failAt);
    assert steps[3] == Step(EnableDebugging(fullName, exePath), true);
    assert (reg - {fullName})[fullName := exePath] == reg[fullName := exePath];
  }

  /** Once the registration of line 108 has succeeded, the launcher is the package's
      debugger while the application is activated, until the unregistration of line
      117. */
  lemma {:induction false} RegisteredWhileActivating(reg: Registry, fullName: string, exePath: Path, id: string,
      start: nat, failAt: set<nat>, k: nat)
    requires start !in failAt && start + 3 !in failAt
    requires 4 <= k <= 7 && k <= |Issue(OrchestratorPlan(fullName, exePath, id), start, failAt)|
    ensures Replay(reg, Issue(OrchestratorPlan(fullName, exePath, id), start, failAt)[..k]) == reg[fullName := exePath]
    decreases k
  {
    if k == 4 {
      RegisteredAfterSetup(reg, fullName, exePath, id, start, failAt);
    } else {
      var plan := OrchestratorPlan(fullName, exePath, id);
      var steps := Issue(plan, start, failAt);
      OrchestratorPlanSpelled(fullName, exePath, id);
      IssueShape(plan, start, failAt);
      ReplayPrefix(reg, steps, k);
      RegisteredWhileActivating(reg, fullName, exePath, id, start, failAt, k - 1);
      assert KeepsRegistry(steps[k - 1].op);
    }
  }

  /** The orchestrator changes no other package's registration. */
  lemma OtherPackagesUntouched(reg: Registry, fullName: string, exePath: Path, id: string, start: nat, failAt: set<nat>)
    ensures Replay(reg, Issue(OrchestratorPlan(fullName, exePath, id), start, failAt)) - {fullName} == reg - {fullName}
  {
    var plan := OrchestratorPlan(fullName, exePath, id);
    var steps := Issue(plan, start, failAt);
    OrchestratorPlanSpelled(fullName, exePath, id);
    IssueShape(plan, start, failAt);
    assert forall i :: 0 <= i < |steps| ==> steps[i].op == plan[i];
    ReplayOthersUnchanged(reg, steps, fullName);
  }

  /** When the orchestrator runs to its end and the final unregistration succeeds,
      the launcher is no longer registered and nothing else changed. */
  lemma UnregisteredWhenDone(reg: Registry, fullName: string, exePath: Path, id: string, start: nat, failAt: set<nat>)
    requires start !in failAt && start + 4 !in failAt && start + 5 !in failAt && start + 6 !in failAt
    requires start + 7 !in failAt
    ensures Replay(reg, Issue(OrchestratorPlan(fullName, exePath, id), start, failAt)) == reg - {fullName}
  {
    var plan := OrchestratorPlan(fullName, exePath, id);
    var steps := Issue(plan, start, failAt);
    OrchestratorCompletes(fullName, exePath, id, start, failAt);
    OrchestratorPlanSpelled(fullName, exePath, id);
    IssueShape(plan, start, failAt);
    ReplayPrefix(reg, steps, 8);
    assert steps[..8] == steps;
    assert steps[7] == Step(DisableDebugging(fullName), true);
    OtherPackagesUntouched(reg, fullName, exePath, id, start, failAt);
  }

  /** The second gap, at line 117: its HRESULT is dropped, so when the final
      unregistration fails the program still returns 0 with the launcher registered
      as the package's debugger. */
  lemma FinalUnregisterFailureLeavesDebugger(reg: Registry, fullName: string, exePath: Path, id: string,
      start: nat, failAt: set<nat>)
    requires start !in failAt && start + 3 !in failAt
    requires start + 4 !in failAt && start + 5 !in failAt && start + 6 !in failAt
    requires start + 7 in failAt
    ensures var steps := Issue(OrchestratorPlan(fullName, exePath, id), start, failAt);
      ExitOf(steps) == Returned(0) && Replay(reg, steps) == reg[fullName := exePath]
  {
    var plan := OrchestratorPlan(fullName, exePath, id);
    var steps := Issue(plan, start, failAt);
    OrchestratorCompletes(fullName, exePath, id, start, failAt);
    OrchestratorPlanSpelled(fullName, exePath, id);
    IssueShape(plan, start, failAt);
    RegisteredWhileActivating(reg, fullName, exePath, id, start, failAt, 7);
    ReplayPrefix(reg, steps, 8);
    assert steps[..8] == steps;
    assert steps[7] == Step(DisableDebugging(fullName), false);
  }

  /** The gap of lines 109-117: when `ActivateApplication` throws after the launcher
      registered itself, the run ends there, before the eighth call (the unregistration
      of line 117), and the launcher stays registered as the package's debugger. */
  lemma ActivationThrowLeavesDebuggerRegistered(reg: Registry, fullName: string, exePath: Path, id: string,
      start: nat, failAt: set<nat>)
    requires start !in failAt && start + 3 !in failAt
    requires start + 4 in failAt || start + 5 in failAt || start + 6 in failAt
    ensures var steps := Issue(OrchestratorPlan(fullName, exePath, id), start, failAt);
      AbortedBy(steps) && 5 <= |steps| <= 7 && Replay(reg, steps) == reg[fullName := exePath]
  {
    var plan := OrchestratorPlan(fullName, exePath, id);
    var steps := Issue(plan, start, failAt);
    OrchestratorPlanSpelled(fullName, exePath, id);
    IssueShape(plan, start, failAt);
    IssueReaches(plan, start, failAt, 4);
    var j := if start + 4 in failAt then 4 else if start + 5 in failAt then 5 else 6;
    IssueStopsAt(plan, start, failAt, j);
    assert steps[..|steps|] == steps;
    RegisteredWhileActivating(reg, fullName, exePath, id, start, failAt, |steps|);
  }

  // ---------------------------------------------------------------------------
  // The injector (lines 77-85 and 140-154)

  /** The injector's seven calls, by position. */
  lemma InjectorPlanSpelled(pid: nat, tid: nat, dllPath: string)
    ensures InjectorPlan(pid, tid, dllPath) ==
      [OpenProcess(pid), VirtualAllocEx(2 * |dllPath| + 2), WriteProcessMemory(0, 2 * |dllPath|),
       CreateRemoteThread(dllPath + ['\0']), WaitForSingleObject(10000), OpenThread(tid), ResumeThread]
  {
  }

  /** The injector issues its calls in the order of AppXLauncher.cpp. */
  lemma InjectorOrder(pid: nat, tid: nat, dllPath: string, start: nat, failAt: set<nat>)
    ensures var steps := Issue(InjectorPlan(pid, tid, dllPath), start, failAt);
      Ops(steps) == InjectorPlan(pid, tid, dllPath)[..|steps|]
  {
    IssueFollowsPlan(InjectorPlan(pid, tid, dllPath), start, failAt);
  }

  /** The thread is resumed exactly when opening the process, allocating, writing,
      starting the loader thread and opening the thread all succeed; the wait's result
      plays no part. */
  lemma ResumeIssuedIff(pid: nat, tid: nat, dllPath: string, start: nat, failAt: set<nat>)
    ensures ResumeThread in Ops(Issue(InjectorPlan(pid, tid, dllPath), start, failAt)) <==>
      start !in failAt && start + 1 !in failAt && start + 2 !in failAt && start + 3 !in failAt &&
      start + 5 !in failAt
  {
    var plan := InjectorPlan(pid, tid, dllPath);
    var steps := Issue(plan, start, failAt);
    InjectorPlanSpelled(pid, tid, dllPath);
    IssueFollowsPlan(plan, start, failAt);
    if start !in failAt && start + 1 !in failAt && start + 2 !in failAt && start + 3 !in failAt &&
      start + 5 !in failAt
    {
      IssueReaches(plan, start, failAt, 6);
      assert Ops(steps)[6] == ResumeThread;
    } else {
      var j := if start in failAt then 0 else if start + 1 in failAt then 1
        else if start + 2 in failAt then 2 else if start + 3 in failAt then 3 else 5;
      IssueStopsAt(plan, start, failAt, j);
      assert ResumeThread !in plan[..6];
    }
  }

  /** Neither the wait's result nor the resume's changes which calls are issued. */
  lemma WaitAndResumeResultsIgnored(pid: nat, tid: nat, dllPath: string, start: nat, f: set<nat>, g: set<nat>)
    requires (start in f <==> start in g) && (start + 1 in f <==> start + 1 in g)
    requires (start + 2 in f <==> start + 2 in g) && (start + 3 in f <==> start + 3 in g)
    requires (start + 5 in f <==> start + 5 in g)
    ensures var plan := InjectorPlan(pid, tid, dllPath);
      Ops(Issue(plan, start, f)) == Ops(Issue(plan, start, g))
  {
    var plan := InjectorPlan(pid, tid, dllPath);
    InjectorPlanSpelled(pid, tid, dllPath);
    forall i | 0 <= i < |plan| && Throws(plan[i])
      ensures start + i in f <==> start + i in g
    {
      assert i != 4 && i != 6;
    }
    IgnoredOutcomesDoNotMatter(plan, start, f, g);
  }

  /** The injector leaves every debug registration as it found it. */
  lemma InjectorKeepsRegistrations(reg: Registry, pid: nat, tid: nat, dllPath: string, start: nat, failAt: set<nat>)
    ensures Replay(reg, Issue(InjectorPlan(pid, tid, dllPath), start, failAt)) == reg
  {
    var plan := InjectorPlan(pid, tid, dllPath);
    var steps := Issue(plan, start, failAt);
    InjectorPlanSpelled(pid, tid, dllPath);
    IssueShape(plan, start, failAt);
    assert forall i :: 0 <= i < |steps| ==> steps[i].op == plan[i];
    ReplayKeeps(reg, [], steps);
    assert [] + steps == steps;
  }

  /** The loader thread reads exactly the module path from the buffer: the one spare
      unit that was zeroed and never written terminates it. */
  lemma LoaderReadsModulePath(pid: nat, tid: nat, dllPath: string, start: nat, failAt: set<nat>)
    requires '\0' !in dllPath
    ensures forall s :: s in Issue(InjectorPlan(pid, tid, dllPath), start, failAt) && s.op.CreateRemoteThread? ==>
      CString(s.op.parameter) == dllPath
  {
    var plan := InjectorPlan(pid, tid, dllPath);
    var steps := Issue(plan, start, failAt);
    InjectorPlanSpelled(pid, tid, dllPath);
    IssueShape(plan, start, failAt);
    TerminatedPathReadsBack(dllPath);
    forall s | s in steps && s.op.CreateRemoteThread?
      ensures CString(s.op.parameter) == dllPath
    {
      var i :| 0 <= i < |steps| && steps[i] == s;
      assert i == 3;
    }
  }

  // ---------------------------------------------------------------------------
  // The whole program (lines 88-159)

  /** Started as the debugger, with `argc >= 5`, the launcher leaves every
      debug registration as it found them, whatever the arguments and the outcomes. */
  lemma DebuggerRunKeepsRegistrations(reg: Registry, host: Host, argv: seq<string>, start: nat, failAt: set<nat>)
    requires |argv| >= 5
    ensures Replay(reg, WinMainRun(host, argv, start, failAt).steps) == reg
  {
    var (pid, tid) := Scan(argv);
    if pid != 0 && tid != 0 && ReadDllConfig(host).Ok? {
      InjectorKeepsRegistrations(reg, pid, tid, InjectedPath(host, ReadDllConfig(host).value), start, failAt);
    }
  }

  /** The thread started in the target loads the configured module, anchored beside
      the launcher when relative, provided its path has no NUL character. */
  lemma DebuggerRunLoadsConfiguredModule(host: Host, argv: seq<string>, start: nat, failAt: set<nat>)
    requires |argv| >= 5 && ReadDllConfig(host).Ok?
    requires '\0' !in InjectedPath(host, ReadDllConfig(host).value)
    ensures forall s :: s in WinMainRun(host, argv, start, failAt).steps && s.op.CreateRemoteThread? ==>
      CString(s.op.parameter) == InjectedPath(host, ReadDllConfig(host).value)
  {
    var (pid, tid) := Scan(argv);
    LoaderReadsModulePath(pid, tid, InjectedPath(host, ReadDllConfig(host).value), start, failAt);
  }

  /** Started as the orchestrator, with a readable configuration and an installed
      package, the program ends with the registrations as it found them, minus the
      package, when its throwing calls and the final unregistration succeed. */
  lemma OrchestratorRunUnregistersWhenDone(reg: Registry, host: Host, argv: seq<string>, fullName: string,
      start: nat, failAt: set<nat>)
    requires |argv| < 5 && ReadPackageConfig(host).Ok?
    requires FindFirstPackage(host, ReadPackageConfig(host).value.0) == Ok(fullName)
    requires start !in failAt && start + 4 !in failAt && start + 5 !in failAt && start + 6 !in failAt
    requires start + 7 !in failAt
    ensures var r := WinMainRun(host, argv, start, failAt);
      r.exit == Returned(0) && Replay(reg, r.steps) == reg - {fullName}
  {
    var (familyName, appId) := ReadPackageConfig(host).value;
    var id := familyName + "!" + appId;
    UnregisteredWhenDone(reg, fullName, host.exePath, id, start, failAt);
    OrchestratorCompletes(fullName, host.exePath, id, start, failAt);
  }

  /** Started as the orchestrator, when an activation call throws after the
      registration succeeded, the program dies of that call's failure and leaves the
      launcher registered as the package's debugger. */
  lemma OrchestratorRunLeavesDebuggerOnThrow(reg: Registry, host: Host, argv: seq<string>, fullName: string,
      start: nat, failAt: set<nat>)
    requires |argv| < 5 && ReadPackageConfig(host).Ok?
    requires FindFirstPackage(host, ReadPackageConfig(host).value.0) == Ok(fullName)
    requires start !in failAt && start + 3 !in failAt
    requires start + 4 in failAt || start + 5 in failAt || start + 6 in failAt
    ensures var r := WinMainRun(host, argv, start, failAt);
      r.exit.Terminated? && r.exit.error.CallFailed? &&
      (r.exit.error.op.CreateActivationManager? || r.exit.error.op.AllowSetForegroundWindow? ||
       r.exit.error.op.ActivateApplication?) &&
      Replay(reg, r.steps) == reg[fullName := host.exePath]
  {
    var (familyName, appId) := ReadPackageConfig(host).value;
    var id := familyName + "!" + appId;
    var plan := OrchestratorPlan(fullName, host.exePath, id);
    var steps := Issue(plan, start, failAt);
    ActivationThrowLeavesDebuggerRegistered(reg, fullName, host.exePath, id, start, failAt);
    OrchestratorPlanSpelled(fullName, host.exePath, id);
    IssueShape(plan, start, failAt);
    assert steps[|steps| - 1].op == plan[|steps| - 1];
  }

  /** Over all command lines, configurations and outcomes: the program resumes a thread
      exactly when it is started as the debugger with non-zero ids, the module is
      configured, and opening the process, allocating, writing, starting the loader
      thread and opening the thread all succeed. */
  lemma ProgramResumesIff(host: Host, argv: seq<string>, start: nat, failAt: set<nat>)
    ensures ResumeThread in Ops(WinMainRun(host, argv, start, failAt).steps) <==>
      |argv| >= 5 && Scan(argv).0 != 0 && Scan(argv).1 != 0 && ReadDllConfig(host).Ok? &&
      start !in failAt && start + 1 !in failAt && start + 2 !in failAt && start + 3 !in failAt &&
      start + 5 !in failAt
  {
    if |argv| < 5 {
      if ReadPackageConfig(host).Ok? && FindFirstPackage(host, ReadPackageConfig(host).value.0).Ok? {
        var (familyName, appId) := ReadPackageConfig(host).value;
        var fullName := FindFirstPackage(host, familyName).value;
        var id := familyName + "!" + appId;
        var plan := OrchestratorPlan(fullName, host.exePath, id);
        OrchestratorOrder(fullName, host.exePath, id, start, failAt);
        OrchestratorPlanSpelled(fullName, host.exePath, id);
        assert ResumeThread !in plan;
        var steps := Issue(plan, start, failAt);
        assert forall op :: op in plan[..|steps|] ==> op in plan;
      }
    } else if Scan(argv).0 != 0 && Scan(argv).1 != 0 && ReadDllConfig(host).Ok? {
      ResumeIssuedIff(Scan(argv).0, Scan(argv).1, InjectedPath(host, ReadDllConfig(host).value), start, failAt);
    }
  }
}
