/** The platform calls the launcher makes, as abstract operations recorded in a trace.
    Whether a call succeeds is decided by an oracle: the set of trace positions whose
    call fails. A failed call that the launcher checks with a THROW_* macro (or that
    throws by itself, like `wil::CoCreateInstance`) ends the run; a failed call whose
    result the launcher ignores does not. */
module Platform {
  import opened Paths

  /** One platform call, with the arguments the launcher passes to it. */
  datatype Op =
    | CreatePackageDebugSettings                        // line 105
    | TerminateAllProcesses(package: string)            // line 106
    | DisableDebugging(package: string)                 // lines 107, 117
    | EnableDebugging(package: string, debugger: Path)  // line 108
    | CreateActivationManager                           // line 64
    | AllowSetForegroundWindow                          // line 66
    | ActivateApplication(appUserModelId: string)       // line 69
    | OpenProcess(pid: nat)                             // line 140
    | VirtualAllocEx(bytes: nat)                        // line 77
    | WriteProcessMemory(offset: nat, bytes: nat)       // line 80
    | CreateRemoteThread(parameter: seq<char>)          // line 82, the buffer LoadLibraryW reads
    | WaitForSingleObject(milliseconds: nat)            // line 85
    | OpenThread(tid: nat)                              // line 151
    | ResumeThread                                      // line 154

  /** A call that was issued, and whether it succeeded. */
  datatype Step = Step(op: Op, ok: bool)

  /** Calls whose failure is thrown. The debug-settings calls of lines 106-108 and 117,
      the wait of line 85 and the resume of line 154 have their results dropped. */
  predicate Throws(op: Op) {
    !(op.TerminateAllProcesses? || op.DisableDebugging? || op.EnableDebugging? ||
      op.WaitForSingleObject? || op.ResumeThread?)
  }

  predicate Aborts(s: Step) {
    !s.ok && Throws(s.op)
  }

  /** The run ended with an exception from its last call. */
  predicate AbortedBy(steps: seq<Step>) {
    |steps| > 0 && Aborts(steps[|steps| - 1])
  }

  /** Every call of `plan` was issued and none threw. */
  predicate Completed(steps: seq<Step>, plan: seq<Op>) {
    |steps| == |plan| && !AbortedBy(steps)
  }

  /** `steps` are the calls issued when `plan` runs from trace position `start`: the
      calls of the plan in order, each succeeding unless its position is in `failAt`,
      ending early only after a call that fails and throws. */
  predicate Issues(plan: seq<Op>, start: nat, failAt: set<nat>, steps: seq<Step>) {
    && |steps| <= |plan|
    && (forall i :: 0 <= i < |steps| ==> steps[i] == Step(plan[i], start + i !in failAt))
    && (forall i :: 0 <= i < |steps| - 1 ==> !Aborts(steps[i]))
    && (|steps| < |plan| ==> AbortedBy(steps))
  }

  /** Runs `plan` from trace position `start`: each call in turn, stopping after the
      first one that fails and throws. */
  function Issue(plan: seq<Op>, start: nat, failAt: set<nat>): (steps: seq<Step>)
    ensures |steps| <= |plan|
    ensures |plan| > 0 ==> |steps| > 0
    decreases |plan|
  {
    if |plan| == 0 then []
    else
      var first := Step(plan[0], start !in failAt);
      if Aborts(first) then [first]
      else [first] + Issue(plan[1..], start + 1, failAt)
  }

  /** `Issue` issues what `Issues` describes. */
  lemma {:induction false} IssueShape(plan: seq<Op>, start: nat, failAt: set<nat>)
    ensures Issues(plan, start, failAt, Issue(plan, start, failAt))
    decreases |plan|
  {
    if |plan| > 0 {
      var first := Step(plan[0], start !in failAt);
      if !Aborts(first) {
        var rest := Issue(plan[1..], start + 1, failAt);
        IssueShape(plan[1..], start + 1, failAt);
        var steps := [first] + rest;
        assert Issue(plan, start, failAt) == steps;
        forall i | 0 <= i < |steps|
          ensures steps[i] == Step(plan[i], start + i !in failAt)
        {
          if i > 0 {
            assert steps[i] == rest[i - 1];
          }
        }
        forall i | 0 <= i < |steps| - 1
          ensures !Aborts(steps[i])
        {
          if i > 0 {
            assert steps[i] == rest[i - 1];
          }
        }
        if |steps| < |plan| {
          assert steps[|steps| - 1] == rest[|rest| - 1];
        }
      }
    }
  }

  /** The operations of a run, without their outcomes. */
  function Ops(steps: seq<Step>): (ops: seq<Op>)
    ensures |ops| == |steps|
    ensures forall i :: 0 <= i < |steps| ==> ops[i] == steps[i].op
  {
    if |steps| == 0 then [] else [steps[0].op] + Ops(steps[1..])
  }

  /** A plan runs to the end exactly when none of its throwing calls fails. */
  lemma IssueCompletes(plan: seq<Op>, start: nat, failAt: set<nat>)
    ensures Completed(Issue(plan, start, failAt), plan) <==>
      forall i :: 0 <= i < |plan| && Throws(plan[i]) ==> start + i !in failAt
  {
    IssueShape(plan, start, failAt);
  }

  /** The calls are issued in the order of the plan: what was issued is a prefix of it. */
  lemma IssueFollowsPlan(plan: seq<Op>, start: nat, failAt: set<nat>)
    ensures Ops(Issue(plan, start, failAt)) == plan[..|Issue(plan, start, failAt)|]
  {
    IssueShape(plan, start, failAt);
  }

  /** A plan whose throwing calls before position `k` all succeed gets past `k`. */
  lemma {:induction false} IssueReaches(plan: seq<Op>, start: nat, failAt: set<nat>, k: nat)
    requires k < |plan|
    requires forall i :: 0 <= i < k && Throws(plan[i]) ==> start + i !in failAt
    ensures k < |Issue(plan, start, failAt)|
    decreases k
  {
    if k > 0 {
      assert Throws(plan[0]) ==> start + 0 !in failAt;
      forall i | 0 <= i < k - 1 && Throws(plan[1..][i])
        ensures start + 1 + i !in failAt
      {
        assert plan[1..][i] == plan[i + 1];
      }
      IssueReaches(plan[1..], start + 1, failAt, k - 1);
    }
  }

  /** A throwing call at position `j` that fails is the last one issued, if reached. */
  lemma {:induction false} IssueStopsAt(plan: seq<Op>, start: nat, failAt: set<nat>, j: nat)
    requires j < |plan| && Throws(plan[j]) && start + j in failAt
    ensures |Issue(plan, start, failAt)| <= j + 1
    decreases j
  {
    if j > 0 && !Aborts(Step(plan[0], start !in failAt)) {
      assert plan[1..][j - 1] == plan[j];
      IssueStopsAt(plan[1..], start + 1, failAt, j - 1);
    }
  }

  /** `Issues` determines the calls issued. */
  lemma IssueUnique(plan: seq<Op>, start: nat, failAt: set<nat>, steps: seq<Step>)
    requires Issues(plan, start, failAt, steps)
    ensures steps == Issue(plan, start, failAt)
  {
    var r := Issue(plan, start, failAt);
    IssueShape(plan, start, failAt);
    assert forall i :: 0 <= i < |steps| && i < |r| ==> r[i] == steps[i];
  }

  /** When `a` completes, running `a` and then `b` issues `a`'s calls and then `b`'s. */
  lemma IssueAppendCompleted(a: seq<Op>, b: seq<Op>, start: nat, failAt: set<nat>)
    requires Completed(Issue(a, start, failAt), a)
    ensures Issue(a + b, start, failAt) == Issue(a, start, failAt) + Issue(b, start + |a|, failAt)
  {
    var x, y := Issue(a, start, failAt), Issue(b, start + |a|, failAt);
    IssueShape(a, start, failAt);
    IssueShape(b, start + |a|, failAt);
    var z := x + y;
    forall i | 0 <= i < |z|
      ensures z[i] == Step((a + b)[i], start + i !in failAt)
    {
      if i >= |a| {
        assert z[i] == y[i - |a|];
      }
    }
    forall i | 0 <= i < |z| - 1
      ensures !Aborts(z[i])
    {
      if i >= |a| {
        assert z[i] == y[i - |a|];
      }
    }
    if |z| < |a + b| {
      assert z[|z| - 1] == y[|y| - 1];
    }
    IssueUnique(a + b, start, failAt, z);
  }

  /** A first call that does not throw is followed by the rest of the plan. */
  lemma IssueUnfold(plan: seq<Op>, start: nat, failAt: set<nat>)
    requires |plan| > 0 && !Aborts(Step(plan[0], start !in failAt))
    ensures Issue(plan, start, failAt) ==
      [Step(plan[0], start !in failAt)] + Issue(plan[1..], start + 1, failAt)
  {
  }

  /** One more call of a plan, after the calls `done`: a throwing failure ends the run
      there; anything else leaves the rest of the plan to run from the next position. */
  lemma IssueStep(done: seq<Step>, rest: seq<Op>, failAt: set<nat>)
    requires |rest| > 0
    ensures var s := Step(rest[0], |done| !in failAt);
      (Aborts(s) ==> done + Issue(rest, |done|, failAt) == done + [s]) &&
      (!Aborts(s) ==>
        done + Issue(rest, |done|, failAt) == (done + [s]) + Issue(rest[1..], |done| + 1, failAt))
  {
    var s := Step(rest[0], |done| !in failAt);
    if !Aborts(s) {
      var tail := Issue(rest[1..], |done| + 1, failAt);
      IssueUnfold(rest, |done|, failAt);
      assert Issue(rest, |done|, failAt) == [s] + tail;
      Associative(done, [s], tail);
    } else {
      assert Issue(rest, |done|, failAt) == [s];
    }
  }

  /** Bookkeeping for a routine that issues the calls of a plan one by one: `whole` is
      the trace the routine promises to leave, `done` the trace so far and `rest` the
      calls still ahead. After the next call, with outcome `ok`, the trace has grown by
      it; when it threw, the trace is complete and ends with a throw. */
  lemma Advance(whole: seq<Step>, done: seq<Step>, rest: seq<Op>, failAt: set<nat>, ok: bool)
      returns (rest': seq<Op>)
    requires whole == done + Issue(rest, |done|, failAt)
    requires |rest| > 0 && ok == (|done| !in failAt)
    ensures rest' == rest[1..]
    ensures !Aborts(Step(rest[0], ok)) ==> whole == (done + [Step(rest[0], ok)]) + Issue(rest', |done| + 1, failAt)
    ensures Aborts(Step(rest[0], ok)) ==> whole == done + [Step(rest[0], ok)] && AbortedBy(done + [Step(rest[0], ok)])
  {
    rest' := rest[1..];
    var s := Step(rest[0], ok);
    IssueStep(done, rest, failAt);
    if Aborts(s) {
      assert whole == done + [s];
      assert (done + [s])[|done + [s]| - 1] == s;
    } else {
      assert whole == (done + [s]) + Issue(rest', |done| + 1, failAt);
    }
  }

  /** Bookkeeping for a routine that hands the last calls `rest` of its plan to another
      routine, which took the trace from `done` to `after`: the trace is complete, and
      that routine completed exactly when the last call did not throw. */
  lemma AdvanceLast(whole: seq<Step>, done: seq<Step>, rest: seq<Op>, failAt: set<nat>, after: seq<Step>)
    requires whole == done + Issue(rest, |done|, failAt)
    requires after == done + Issue(rest, |done|, failAt)
    requires |rest| > 0
    ensures after == whole && |after| > 0
    ensures Completed(Issue(rest, |done|, failAt), rest) <==> !Aborts(after[|after| - 1])
  {
    var issued := Issue(rest, |done|, failAt);
    IssueShape(rest, |done|, failAt);
    assert after[|after| - 1] == issued[|issued| - 1];
  }

  /** Bookkeeping for a routine that hands the calls `a` of its plan `a + b` to another
      routine, which issued `issued`: when those completed, `b` is still ahead; otherwise
      the trace is complete. */
  lemma AdvanceBy(whole: seq<Step>, done: seq<Step>, a: seq<Op>, b: seq<Op>, failAt: set<nat>, issued: seq<Step>)
    requires whole == done + Issue(a + b, |done|, failAt)
    requires issued == Issue(a, |done|, failAt)
    ensures Completed(issued, a) ==> whole == (done + issued) + Issue(b, |done + issued|, failAt)
    ensures !Completed(issued, a) ==> whole == done + issued && AbortedBy(issued)
  {
    IssueShape(a, |done|, failAt);
    if Completed(issued, a) {
      IssueAppendCompleted(a, b, |done|, failAt);
      Associative(done, issued, Issue(b, |done| + |a|, failAt));
    } else {
      IssueAppendAborted(a, b, |done|, failAt);
    }
  }

  /** When no call is left, the trace is complete. */
  lemma Finish(whole: seq<Step>, done: seq<Step>, failAt: set<nat>)
    requires whole == done + Issue([], |done|, failAt)
    ensures whole == done
  {
    assert done + [] == done;
  }

  lemma Associative<T>(x: seq<T>, y: seq<T>, z: seq<T>)
    ensures x + (y + z) == (x + y) + z
  {
  }

  /** When `a` throws, `b` is never started. */
  lemma {:induction false} IssueAppendAborted(a: seq<Op>, b: seq<Op>, start: nat, failAt: set<nat>)
    requires !Completed(Issue(a, start, failAt), a)
    ensures Issue(a + b, start, failAt) == Issue(a, start, failAt)
    decreases |a|
  {
    var first := Step(a[0], start !in failAt);
    var ab := a + b;
    assert ab[0] == a[0] && ab[1..] == a[1..] + b;
    if !Aborts(first) {
      var rest := Issue(a[1..], start + 1, failAt);
      assert Issue(a, start, failAt) == [first] + rest;
      IssueAppendAborted(a[1..], b, start + 1, failAt);
    }
  }

  /** Which calls are issued does not depend on the outcome of calls that do not throw:
      two oracles that agree on the throwing calls of `plan` issue the same calls. */
  lemma {:induction false} IgnoredOutcomesDoNotMatter(plan: seq<Op>, start: nat, f: set<nat>, g: set<nat>)
    requires forall i :: 0 <= i < |plan| && Throws(plan[i]) ==> (start + i in f <==> start + i in g)
    ensures Ops(Issue(plan, start, f)) == Ops(Issue(plan, start, g))
    decreases |plan|
  {
    if |plan| > 0 {
      assert Throws(plan[0]) ==> (start + 0 in f <==> start + 0 in g);
      var sf, sg := Step(plan[0], start !in f), Step(plan[0], start !in g);
      assert Aborts(sf) == Aborts(sg);
      if !Aborts(sf) {
        forall i | 0 <= i < |plan[1..]| && Throws(plan[1..][i])
          ensures (start + 1 + i in f <==> start + 1 + i in g)
        {
          assert plan[1..][i] == plan[i + 1];
        }
        IgnoredOutcomesDoNotMatter(plan[1..], start + 1, f, g);
        var rf, rg := Issue(plan[1..], start + 1, f), Issue(plan[1..], start + 1, g);
        assert Ops([sf] + rf) == [plan[0]] + Ops(rf);
        assert Ops([sg] + rg) == [plan[0]] + Ops(rg);
      }
    }
  }

  /** The platform's debug registrations: package full name to registered debugger. */
  type Registry = map<string, Path>

  /** The effect of one call on the registrations: a successful EnableDebugging
      registers the debugger, a successful DisableDebugging removes it. */
  function Register(reg: Registry, s: Step): (r: Registry)
    ensures !s.ok || KeepsRegistry(s.op) ==> r == reg
    ensures s.ok && s.op.EnableDebugging? ==> s.op.package in r && r[s.op.package] == s.op.debugger
    ensures s.ok && s.op.DisableDebugging? ==> s.op.package !in r
  {
    if !s.ok then reg
    else match s.op
      case EnableDebugging(p, d) => reg[p := d]
      case DisableDebugging(p) => reg - {p}
      case _ => reg
  }

  /** The registrations after a run of calls. */
  function Replay(reg: Registry, steps: seq<Step>): Registry {
    if |steps| == 0 then reg
    else Register(Replay(reg, steps[..|steps| - 1]), steps[|steps| - 1])
  }

  /** Calls that never change a registration. */
  predicate KeepsRegistry(op: Op) {
    !op.EnableDebugging? && !op.DisableDebugging?
  }

  /** Calls that change the registration of `p` alone, if any. */
  predicate TouchesOnly(op: Op, p: string) {
    (op.EnableDebugging? ==> op.package == p) && (op.DisableDebugging? ==> op.package == p)
  }

  /** The registrations after the first `k` calls of a run. */
  lemma ReplayPrefix(reg: Registry, steps: seq<Step>, k: nat)
    requires 0 < k <= |steps|
    ensures Replay(reg, steps[..k]) == Register(Replay(reg, steps[..k - 1]), steps[k - 1])
  {
    assert steps[..k][..k - 1] == steps[..k - 1];
  }

  /** Replaying two runs one after the other is replaying the second from where the
      first left the registrations. */
  lemma {:induction false} ReplayAppend(reg: Registry, a: seq<Step>, b: seq<Step>)
    ensures Replay(reg, a + b) == Replay(Replay(reg, a), b)
    decreases |b|
  {
    if |b| == 0 {
      assert a + b == a;
    } else {
      var ab := a + b;
      assert ab[..|ab| - 1] == a + b[..|b| - 1];
      assert ab[|ab| - 1] == b[|b| - 1];
      ReplayAppend(reg, a, b[..|b| - 1]);
    }
  }

  /** Calls that keep the registry leave it as it was. */
  lemma {:induction false} ReplayKeeps(reg: Registry, before: seq<Step>, after: seq<Step>)
    requires forall i :: 0 <= i < |after| ==> KeepsRegistry(after[i].op)
    ensures Replay(reg, before + after) == Replay(reg, before)
    decreases |after|
  {
    if |after| == 0 {
      assert before + after == before;
    } else {
      var all := before + after;
      assert all[..|all| - 1] == before + after[..|after| - 1];
      assert all[|all| - 1] == after[|after| - 1];
      assert KeepsRegistry(after[|after| - 1].op);
      assert Replay(reg, all) == Register(Replay(reg, all[..|all| - 1]), all[|all| - 1]);
      ReplayKeeps(reg, before, after[..|after| - 1]);
      assert Replay(reg, before + after[..|after| - 1]) == Replay(reg, before);
    }
  }

  /** Calls about package `p` leave every other package's registration as it was. */
  lemma {:induction false} ReplayOthersUnchanged(reg: Registry, steps: seq<Step>, p: string)
    requires forall i :: 0 <= i < |steps| ==> TouchesOnly(steps[i].op, p)
    ensures Replay(reg, steps) - {p} == reg - {p}
    decreases |steps|
  {
    if |steps| > 0 {
      ReplayOthersUnchanged(reg, steps[..|steps| - 1], p);
    }
  }

  /** Why a run ended with an exception. */
  datatype Error =
    | FileOpenFailed              // CreateFileW, GetFileSizeEx or the mapping failed
    | EmptyConfig                 // THROW_HR_IF(E_INVALIDARG, str.empty())
    | JsonParseFailed             // JsonObject::Parse threw
    | KeyMissing(key: string)     // GetNamedString threw
    | PackageNotFound(familyName: string)
    | CallFailed(op: Op)          // a THROW_* on a platform call

  datatype Result<T> = Ok(value: T) | Err(error: Error)

  datatype Option<T> = None | Some(value: T)

  /** How the process ended: `wWinMain` returned, or an exception terminated it. */
  datatype Exit = Returned(code: int) | Terminated(error: Error)

  /** The calls a branch of the launcher issued and how the process ended. */
  datatype Run = Run(steps: seq<Step>, exit: Exit)

  /** How a run of calls ends the process. */
  function ExitOf(steps: seq<Step>): (e: Exit)
    ensures e.Returned? <==> !AbortedBy(steps)
    ensures e.Returned? ==> e.code == 0
  {
    if AbortedBy(steps) then Terminated(CallFailed(steps[|steps| - 1].op)) else Returned(0)
  }

  /** The exit of a run, read off the trace it ends. */
  lemma TraceExit(prefix: seq<Step>, steps: seq<Step>)
    requires |steps| > 0
    ensures var t := prefix + steps;
      ExitOf(steps) == if Aborts(t[|t| - 1]) then Terminated(CallFailed(t[|t| - 1].op)) else Returned(0)
  {
    var t := prefix + steps;
    assert t[|t| - 1] == steps[|steps| - 1];
  }

  /** The platform as the launcher sees it: the debug registrations it started
      with, the calls issued so far, and the oracle for which calls fail. */
  class Os {
    const failAt: set<nat>
    const registered: Registry
    var trace: seq<Step>

    constructor (failAt: set<nat>, registered: Registry)
      ensures this.failAt == failAt && this.registered == registered && trace == []
    {
      this.failAt := failAt;
      this.registered := registered;
      trace := [];
    }

    /** The debug registrations now: those the calls of the trace left. */
    function Debuggers(): Registry
      reads this
    {
      Replay(registered, trace)
    }

    /** A call without a memory effect in the target process. */
    method Invoke(op: Op) returns (ok: bool)
      requires !op.VirtualAllocEx? && !op.WriteProcessMemory?
      modifies this
      ensures ok == (|old(trace)| !in failAt)
      ensures trace == old(trace) + [Step(op, ok)]
    {
      ok := |trace| !in failAt;
      trace := trace + [Step(op, ok)];
    }

    /** VirtualAllocEx with MEM_COMMIT: a fresh zero-filled region of `bytes` bytes,
        seen as wide characters, or null on failure. */
    method AllocateRemote(bytes: nat) returns (mem: array?<char>)
      modifies this
      ensures (mem != null) == (|old(trace)| !in failAt)
      ensures trace == old(trace) + [Step(VirtualAllocEx(bytes), mem != null)]
      ensures mem != null ==> fresh(mem) && mem.Length == (bytes + 1) / 2
      ensures mem != null ==> forall k :: 0 <= k < mem.Length ==> mem[k] == '\0'
    {
      var ok := |trace| !in failAt;
      trace := trace + [Step(VirtualAllocEx(bytes), ok)];
      if ok {
        mem := new char[(bytes + 1) / 2](_ => '\0');
      } else {
        mem := null;
      }
    }

    /** WriteProcessMemory of `bytes` bytes of `src` to the start of `mem`. It fails,
        writing nothing, when the oracle says so or when the bytes do not fit. */
    method WriteRemote(mem: array<char>, src: seq<char>, bytes: nat) returns (ok: bool)
      requires bytes % 2 == 0 && bytes / 2 <= |src|
      modifies this, mem
      ensures ok == (|old(trace)| !in failAt && bytes / 2 <= mem.Length)
      ensures trace == old(trace) + [Step(WriteProcessMemory(0, bytes), ok)]
      ensures ok ==> mem[..] == src[..bytes / 2] + old(mem[..])[bytes / 2..]
      ensures !ok ==> mem[..] == old(mem[..])
    {
      var units := bytes / 2;
      ok := |trace| !in failAt && units <= mem.Length;
      trace := trace + [Step(WriteProcessMemory(0, bytes), ok)];
      if ok {
        var k := 0;
        while k < units
          modifies mem
          invariant 0 <= k <= units
          invariant forall j :: 0 <= j < k ==> mem[j] == src[j]
          invariant forall j :: k <= j < mem.Length ==> mem[j] == old(mem[j])
        {
          mem[k] := src[k];
          k := k + 1;
        }
        assert mem[..] == src[..units] + old(mem[..])[units..];
      }
    }
  }
}
