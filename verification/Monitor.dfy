/**
 The run monitor `LangC::launch` (src/lang.cpp): what the parent process makes of the kernel's reports
 about the child. The kernel is an arbitrary sequence of reports; the loop, which spends system-call
 budgets in place and keeps a running memory maximum, is proved against the rule "the earliest report
 that trips a limit decides".
 */
module Monitor {
  import opened Wrappers
  import opened Limits

  // `Noj_Result`, as far as launching and checking use it.
  datatype Verdict =
    | SystemError | Init | CompileError | CompilePass | RuntimeError
    | TimeLimitExceed | MemoryLimitExceed | OutputLimitExceed | IllegalSystemCall
    | SegmentFault | BusError | Abort | RunPass
    | WrongAnswer | PresentationError | CorrectAnswer | Accept | NotAccept

  datatype Status = Exited(code: int) | Signaled(signal: int) | Stopped(signal: int)

  datatype TimeVal = TimeVal(sec: int, usec: nat)

  /** One return of wait4, and the system call read from the registers if the child goes on. */
  datatype RawReport = Report(status: Status, minorFaults: nat, user: TimeVal, system: TimeVal, syscall: nat)
  type Report = e: RawReport | e.syscall < SYSCALLS witness Report(Exited(0), 0, TimeVal(0, 0), TimeVal(0, 0), 0)

  /** fork fails, or the child runs: its reports so far and the peak memory read after the loop. */
  datatype Child = NoChild | Child(reports: seq<Report>, peak: nat)

  datatype Result = Result(verdict: Verdict, memory: MemorySize, elapsed: TimeUsage, outputFile: Option<nat>)
  const FRESH := Result(Init, UNSET_MEMORY, UNSET_TIME, None)

  /** The monitor is still waiting, or has returned. */
  datatype Outcome = Waiting | Finished(result: Result)

  const SIGTRAP := 5
  const SIGABRT := 6
  const SIGBUS := 7
  const SIGKILL := 9
  const SIGSEGV := 11
  const SIGALRM := 14
  const SIGCHLD := 17
  const SIGXCPU := 24
  const SIGXFSZ := 25

  /** The parts of the limits the monitor reads, and the system's page size. */
  datatype Setting = Setting(memory: MemorySize, millis: int, budgets: seq<int>, pageSize: nat)
  {
    predicate Valid() { |budgets| == SYSCALLS }
  }

  // ---------- one report ----------

  function Kilobytes(cfg: Setting, e: Report): nat { e.minorFaults * cfg.pageSize / 1024 }

  /** `convert_timeval_into_ms`. */
  function ToMillis(t: TimeVal): int { t.sec * 1000 + t.usec / 1000 }

  function Elapsed(e: Report): int { ToMillis(e.user) + ToMillis(e.system) }

  function SignalVerdict(signal: int): Verdict {
    if signal in {SIGCHLD, SIGALRM, SIGKILL, SIGXCPU} then TimeLimitExceed
    else if signal == SIGXFSZ then OutputLimitExceed
    else if signal == SIGSEGV then SegmentFault
    else if signal == SIGBUS then BusError
    else if signal == SIGABRT then Abort
    else RuntimeError
  }

  /** Stopped at a system call, the child goes on. */
  predicate Trap(e: Report) { e.status == Stopped(SIGTRAP) }

  // ---------- the rule ----------

  /** The largest memory sample among the reports. */
  function Largest(cfg: Setting, es: seq<Report>): nat {
    if es == [] then 0 else Max(Largest(cfg, es[..|es| - 1]), Kilobytes(cfg, es[|es| - 1]))
  }

  /** How many of the reports are stops at the system call. */
  function Uses(id: nat, es: seq<Report>): nat {
    if es == [] then 0
    else Uses(id, es[..|es| - 1]) + (if es[|es| - 1].syscall == id then 1 else 0)
  }

  predicate OverMemory(cfg: Setting, es: seq<Report>, k: nat)
    requires k < |es|
  {
    cfg.memory.isSet && Kilobytes(cfg, es[k]) > cfg.memory.bytes
  }

  predicate OverTime(cfg: Setting, es: seq<Report>, k: nat)
    requires k < |es|
  {
    cfg.millis > 0 && Elapsed(es[k]) > cfg.millis
  }

  /** With this stop the call has been made more often than its budget allows. */
  predicate OverBudget(cfg: Setting, es: seq<Report>, k: nat)
    requires cfg.Valid() && k < |es|
  {
    cfg.budgets[es[k].syscall] >= 0 && Uses(es[k].syscall, es[..k + 1]) > cfg.budgets[es[k].syscall]
  }

  /** The order in which the rules are tried on one report. */
  function Rule(overMemory: bool, overTime: bool, status: Status, overBudget: bool): Option<Verdict> {
    if overMemory then Some(MemoryLimitExceed)
    else if overTime then Some(TimeLimitExceed)
    else match status
      case Exited(code) => Some(if code == 0 then RunPass else RuntimeError)
      case Signaled(signal) => Some(SignalVerdict(signal))
      case Stopped(signal) =>
        if signal != SIGTRAP then Some(SignalVerdict(signal))
        else if overBudget then Some(IllegalSystemCall)
        else None
  }

  /** What report `k` says about the child, if all before it let it go on. */
  function Trips(cfg: Setting, es: seq<Report>, k: nat): Option<Verdict>
    requires cfg.Valid() && k < |es|
  {
    Rule(OverMemory(cfg, es, k), OverTime(cfg, es, k), es[k].status, OverBudget(cfg, es, k))
  }

  /** Report `k` is the earliest to trip. */
  ghost predicate Decides(cfg: Setting, es: seq<Report>, k: nat)
    requires cfg.Valid()
  {
    && k < |es|
    && Trips(cfg, es, k).Some?
    && forall i :: 0 <= i < k ==> Trips(cfg, es, i).None?
  }

  /** The first report from `i` on that trips. */
  function FirstFrom(cfg: Setting, es: seq<Report>, i: nat): (k: Option<nat>)
    requires cfg.Valid() && i <= |es|
    ensures k.Some? ==> i <= k.value < |es| && Trips(cfg, es, k.value).Some?
    ensures forall u :: i <= u < (if k.Some? then k.value else |es|) ==> Trips(cfg, es, u).None?
    decreases |es| - i
  {
    if i == |es| then None else if Trips(cfg, es, i).Some? then Some(i) else FirstFrom(cfg, es, i + 1)
  }

  /** The reports whose memory was sampled, and those whose time was taken, when `k` decides. */
  function Sampled(cfg: Setting, es: seq<Report>, k: nat): seq<Report>
    requires k < |es|
  {
    if cfg.memory.isSet then es[..k + 1] else []
  }

  function TimeAt(cfg: Setting, es: seq<Report>, k: nat): TimeUsage
    requires k < |es|
  {
    if !OverMemory(cfg, es, k) then Millis(Elapsed(es[k]))
    else if k > 0 then Millis(Elapsed(es[k - 1]))
    else UNSET_TIME
  }

  /** What the child is reported to have done, given that report `k` ended the loop. */
  function Judgement(cfg: Setting, es: seq<Report>, k: nat, peak: nat): Result
    requires cfg.Valid() && k < |es| && Trips(cfg, es, k).Some?
  {
    var memory := Max(Largest(cfg, Sampled(cfg, es, k)), peak);
    Result(if cfg.memory.isSet && memory > cfg.memory.bytes then MemoryLimitExceed else Trips(cfg, es, k).value,
           Bytes(memory), TimeAt(cfg, es, k), None)
  }

  /** The whole of a launch as a function of what the kernel does. */
  function Observe(cfg: Setting, child: Child): Outcome
    requires cfg.Valid()
  {
    match child
    case NoChild => Finished(FRESH.(verdict := SystemError))
    case Child(es, peak) =>
      var k := FirstFrom(cfg, es, 0);
      if k.None? then Waiting else Finished(Judgement(cfg, es, k.value, peak))
  }

  // ---------- facts about the rule ----------

  lemma {:induction false} LargestBounds(cfg: Setting, es: seq<Report>)
    ensures forall i :: 0 <= i < |es| ==> Kilobytes(cfg, es[i]) <= Largest(cfg, es)
    ensures es != [] ==> exists i :: 0 <= i < |es| && Kilobytes(cfg, es[i]) == Largest(cfg, es)
  {
    if es != [] {
      var rest, n := es[..|es| - 1], |es| - 1;
      LargestBounds(cfg, rest);
      forall i | 0 <= i < |es| ensures Kilobytes(cfg, es[i]) <= Largest(cfg, es) {
        if i < n { assert rest[i] == es[i]; }
      }
      if Largest(cfg, es) == Kilobytes(cfg, es[n]) {
      } else {
        assert rest != [];
        var i :| 0 <= i < |rest| && Kilobytes(cfg, rest[i]) == Largest(cfg, rest);
        assert Kilobytes(cfg, es[i]) == Largest(cfg, es);
      }
    }
  }

  /** While nothing has tripped, memory has stayed within its limit. */
  lemma {:induction false} LargestWithin(cfg: Setting, es: seq<Report>, i: nat)
    requires cfg.memory.isSet && i <= |es| && forall u :: 0 <= u < i ==> !OverMemory(cfg, es, u)
    ensures Largest(cfg, es[..i]) <= cfg.memory.bytes
  {
    LargestBounds(cfg, es[..i]);
    if i > 0 {
      var u :| 0 <= u < i && Kilobytes(cfg, es[..i][u]) == Largest(cfg, es[..i]);
      assert !OverMemory(cfg, es, u);
    }
  }

  /** Exactly one report decides, or none ever does. */
  lemma DecidesUnique(cfg: Setting, es: seq<Report>, k: nat)
    requires cfg.Valid()
    ensures FirstFrom(cfg, es, 0) == Some(k) <==> Decides(cfg, es, k)
  {
    var f := FirstFrom(cfg, es, 0);
    if Decides(cfg, es, k) {
      assert f.Some? && f.value <= k;
    }
  }

  /** The earliest report to trip decides the outcome, and while none does the monitor waits. */
  lemma EarliestDecides(cfg: Setting, es: seq<Report>, peak: nat)
    requires cfg.Valid()
    ensures forall k: nat :: Decides(cfg, es, k) ==> Observe(cfg, Child(es, peak)) == Finished(Judgement(cfg, es, k, peak))
    ensures Observe(cfg, Child(es, peak)).Waiting? <==> forall k :: 0 <= k < |es| ==> Trips(cfg, es, k).None?
  {
    forall k: nat | Decides(cfg, es, k) ensures FirstFrom(cfg, es, 0) == Some(k) { DecidesUnique(cfg, es, k); }
  }

  /** More reports do not change a verdict already reached. */
  lemma VerdictStable(cfg: Setting, es: seq<Report>, more: seq<Report>, peak: nat)
    requires cfg.Valid() && Observe(cfg, Child(es, peak)).Finished?
    ensures Observe(cfg, Child(es + more, peak)) == Observe(cfg, Child(es, peak))
  {
    var k := FirstFrom(cfg, es, 0).value;
    forall i | 0 <= i <= k ensures Trips(cfg, es + more, i) == Trips(cfg, es, i) {
      assert (es + more)[..i + 1] == es[..i + 1];
    }
    DecidesUnique(cfg, es + more, k);
    assert (es + more)[..k + 1] == es[..k + 1];
  }

  // ---------- the loop ----------

  /** The budgets left after some reports that let the child go on. */
  function Left(budget: int, used: nat): int {
    if budget < 0 then budget else budget - used
  }

  /** What the loop knows of report `i` from its running values, none before having tripped. */
  lemma Looking(cfg: Setting, es: seq<Report>, i: nat)
    requires cfg.Valid() && i < |es| && forall u :: 0 <= u < i ==> Trips(cfg, es, u).None?
    ensures Largest(cfg, es[..i + 1]) == Max(Largest(cfg, es[..i]), Kilobytes(cfg, es[i]))
    ensures cfg.memory.isSet ==> (Largest(cfg, es[..i + 1]) > cfg.memory.bytes <==> OverMemory(cfg, es, i))
    ensures forall id :: Uses(id, es[..i + 1]) == Uses(id, es[..i]) + if es[i].syscall == id then 1 else 0
    ensures OverBudget(cfg, es, i) <==> Left(cfg.budgets[es[i].syscall], Uses(es[i].syscall, es[..i])) == 0
  {
    assert es[..i + 1][..i] == es[..i];
    UsesWithin(cfg, es, i, es[i].syscall);
    forall u | 0 <= u < i ensures !OverMemory(cfg, es, u) { assert Trips(cfg, es, u).None?; }
    if cfg.memory.isSet { LargestWithin(cfg, es, i); }
  }

  function SettingOf(rl: ResourceLimit, table: seq<int>, pageSize: nat): Setting
    reads rl
  {
    Setting(rl.memory, CpuMillis(rl.single, rl.total), table, pageSize)
  }

  /** The reports that let the child go on. */
  function LetThrough(cfg: Setting, es: seq<Report>): seq<Report>
    requires cfg.Valid()
  {
    var first := FirstFrom(cfg, es, 0);
    es[..if first.Some? then first.value else |es|]
  }

  /** One turn of the loop, on the running values: raises the memory maximum, takes the time, and either
      stops with a verdict or spends one use of the system call. */
  method Examine(rl: ResourceLimit, pageSize: nat, timeLeft: int, e: Report, before: Result)
    returns (res: Result, stop: bool)
    requires rl.Valid() && before.verdict == Init
    modifies rl.syscalls
    ensures res.outputFile == before.outputFile
    ensures res.memory.bytes ==
      if rl.memory.isSet then Max(before.memory.bytes, e.minorFaults * pageSize / 1024) else before.memory.bytes
    ensures var over := rl.memory.isSet && res.memory.bytes > rl.memory.bytes;
      var rule := Rule(over, timeLeft > 0 && Elapsed(e) > timeLeft, e.status, old(rl.syscalls[e.syscall]) == 0);
      && stop == rule.Some?
      && res.verdict == (if stop then rule.value else Init)
      && res.elapsed == if over then before.elapsed else Millis(Elapsed(e))
    ensures rl.syscalls[..] == if stop || old(rl.syscalls[e.syscall]) < 0 then old(rl.syscalls[..])
      else old(rl.syscalls[..])[e.syscall := old(rl.syscalls[e.syscall]) - 1]
  {
    res := before;
    if rl.memory.isSet {
      var sample := e.minorFaults * pageSize / 1024;
      res := res.(memory := Bytes(if res.memory.bytes < sample then sample else res.memory.bytes));
      if res.memory.bytes > rl.memory.bytes {
        return res.(verdict := MemoryLimitExceed), true;
      }
    }
    res := res.(elapsed := Millis(ToMillis(e.user) + ToMillis(e.system)));
    if timeLeft > 0 && res.elapsed.ms > timeLeft {
      return res.(verdict := TimeLimitExceed), true;
    }
    if e.status.Exited? {
      return res.(verdict := if e.status.code == 0 then RunPass else RuntimeError), true;
    }
    if e.status.Signaled? || e.status.signal != SIGTRAP {
      return res.(verdict := SignalVerdict(e.status.signal)), true;
    }
    if rl.syscalls[e.syscall] >= 0 {
      if rl.syscalls[e.syscall] == 0 {
        return res.(verdict := IllegalSystemCall), true;
      }
      rl.syscalls[e.syscall] := rl.syscalls[e.syscall] - 1;
    }
    stop := false;
  }

  /** The wait loop. Out of reports, it is still waiting; else report `last` has ended it. */
  method Watch(rl: ResourceLimit, pageSize: nat, es: seq<Report>, ghost table: seq<int>)
    returns (res: Result, waiting: bool, ghost last: nat)
    requires rl.Valid() && |table| == SYSCALLS && rl.syscalls[..] == table
    modifies rl.syscalls
    ensures var cfg := SettingOf(rl, table, pageSize);
      if waiting then FirstFrom(cfg, es, 0).None?
      else
        && FirstFrom(cfg, es, 0) == Some(last)
        && res.verdict == Trips(cfg, es, last).value
        && res.memory.bytes == Largest(cfg, Sampled(cfg, es, last))
        && res.elapsed == TimeAt(cfg, es, last)
        && res.outputFile.None?
    // every budget has been spent by the stops that were let through, and unlimited ones never change
    ensures forall id :: 0 <= id < SYSCALLS ==>
      rl.syscalls[id] == Left(table[id], Uses(id, LetThrough(SettingOf(rl, table, pageSize), es)))
  {
    ghost var cfg := SettingOf(rl, table, pageSize);
    res := FRESH;
    last := 0;
    var timeLeft := CpuMillis(rl.single, rl.total);
    var i := 0;
    var stop := false;
    while i < |es| && !stop
      invariant 0 <= i <= |es| && res.outputFile.None?
      invariant !stop ==> res.verdict == Init
      invariant !stop ==> res.memory.bytes == if rl.memory.isSet then Largest(cfg, es[..i]) else 0
      invariant !stop ==> res.elapsed == if i == 0 then UNSET_TIME else Millis(Elapsed(es[i - 1]))
      invariant forall u :: 0 <= u < i ==> Trips(cfg, es, u).None?
      invariant forall id :: 0 <= id < SYSCALLS ==> rl.syscalls[id] == Left(table[id], Uses(id, es[..i]))
      invariant stop ==> last == i < |es| && Trips(cfg, es, i) == Some(res.verdict)
      invariant stop ==> res.memory.bytes == Largest(cfg, Sampled(cfg, es, i)) && res.elapsed == TimeAt(cfg, es, i)
      decreases |es| - i, if stop then 0 else 1
    {
      last := i;
      Looking(cfg, es, i);
      res, stop := Examine(rl, pageSize, timeLeft, es[i], res);
      if !stop {
        i := i + 1;
      }
    }
    waiting := !stop;
    if stop {
      DecidesUnique(cfg, es, last);
    } else {
      assert es[..i] == es;
    }
  }

  /** Runs the monitor on the child: resets the file limit and the budgets, watches, and lets the peak
      memory have the last word. */
  method Launch(rl: ResourceLimit, table: seq<int>, pageSize: nat, child: Child) returns (out: Outcome)
    requires rl.Valid() && |table| == SYSCALLS
    modifies rl`file, rl.syscalls
    ensures rl.file == MemorySize(5242880, true)
    ensures out == Observe(SettingOf(rl, table, pageSize), child)
    ensures child.NoChild? ==>
      rl.syscalls[..] == table && out == Finished(Result(SystemError, MemorySize(0, false), TimeUsage(0, false), None))
    ensures child.Child? ==> forall id :: 0 <= id < SYSCALLS ==>
      rl.syscalls[id] == Left(table[id], Uses(id, LetThrough(SettingOf(rl, table, pageSize), child.reports)))
  {
    rl.file := Megabytes(5);
    forall id | 0 <= id < SYSCALLS { rl.syscalls[id] := table[id]; }
    if child.NoChild? {
      return Finished(FRESH.(verdict := SystemError));
    }
    var res, waiting, last := Watch(rl, pageSize, child.reports, table);
    if waiting {
      return Waiting;
    }
    var largest := if res.memory.bytes < child.peak then child.peak else res.memory.bytes;
    res := res.(memory := Bytes(largest));
    if rl.memory.isSet && res.memory.bytes > rl.memory.bytes {
      res := res.(verdict := MemoryLimitExceed);
    }
    return Finished(res);
  }

  // ---------- what the verdicts mean ----------

  /** The child has run to a normal end within every limit, seen at report `k`. */
  ghost predicate CleanRun(cfg: Setting, es: seq<Report>, peak: nat, k: nat)
    requires cfg.Valid()
  {
    && k < |es|
    && es[k].status == Exited(0)
    && (forall i :: 0 <= i < k ==> es[i].status == Stopped(5))
    && (cfg.memory.isSet ==> peak <= cfg.memory.bytes)
    && (cfg.memory.isSet ==> forall i :: 0 <= i <= k ==> es[i].minorFaults * cfg.pageSize / 1024 <= cfg.memory.bytes)
    && (cfg.millis > 0 ==> forall i :: 0 <= i <= k ==>
          es[i].user.sec * 1000 + es[i].user.usec / 1000 + (es[i].system.sec * 1000 + es[i].system.usec / 1000) <= cfg.millis)
    && (forall i :: 0 <= i < k ==> !OverBudget(cfg, es, i))
  }

  lemma CleanDecides(cfg: Setting, es: seq<Report>, k: nat)
    requires cfg.Valid()
    ensures Decides(cfg, es, k) && Trips(cfg, es, k) == Some(RunPass) <==>
      CleanRun(cfg, es, 0, k)
  {
    if CleanRun(cfg, es, 0, k) {
      forall i | 0 <= i < k ensures Trips(cfg, es, i).None? { assert Trap(es[i]); }
    }
    if Decides(cfg, es, k) && Trips(cfg, es, k) == Some(RunPass) {
      assert !OverMemory(cfg, es, k) && !OverTime(cfg, es, k);
      forall i | 0 <= i < k ensures Trap(es[i]) && !OverMemory(cfg, es, i) && !OverTime(cfg, es, i) && !OverBudget(cfg, es, i) {
        assert Trips(cfg, es, i).None?;
      }
    }
  }

  lemma CleanIsRunPass(cfg: Setting, es: seq<Report>, peak: nat, k: nat)
    requires cfg.Valid() && CleanRun(cfg, es, peak, k)
    ensures FirstFrom(cfg, es, 0) == Some(k) && Judgement(cfg, es, k, peak).verdict == RunPass
  {
    assert CleanRun(cfg, es, 0, k);
    CleanDecides(cfg, es, k);
    DecidesUnique(cfg, es, k);
    if cfg.memory.isSet { LargestWithin(cfg, es, k + 1); }
  }

  lemma RunPassIsClean(cfg: Setting, es: seq<Report>, peak: nat, k: nat)
    requires cfg.Valid() && FirstFrom(cfg, es, 0) == Some(k) && Judgement(cfg, es, k, peak).verdict == RunPass
    ensures CleanRun(cfg, es, peak, k)
  {
    DecidesUnique(cfg, es, k);
    CleanDecides(cfg, es, k);
  }

  predicate Passed(o: Outcome) { o.Finished? && o.result.verdict == RunPass }

  /** RunPass means a clean run, and every clean run gets it. */
  lemma RunPassExact(cfg: Setting, es: seq<Report>, peak: nat)
    requires cfg.Valid()
    ensures Passed(Observe(cfg, Child(es, peak))) <==> exists k :: CleanRun(cfg, es, peak, k)
  {
    var first := FirstFrom(cfg, es, 0);
    if Passed(Observe(cfg, Child(es, peak))) {
      RunPassIsClean(cfg, es, peak, first.value);
    }
    if k: nat :| CleanRun(cfg, es, peak, k) {
      CleanIsRunPass(cfg, es, peak, k);
    }
  }

  /** The reported memory is the largest sample or the final peak; and with a limit cfg, exceeding it
      is the verdict exactly when that value does, whatever else ended the run. */
  lemma MemoryVerdictExact(cfg: Setting, es: seq<Report>, peak: nat, k: nat)
    requires cfg.Valid() && Decides(cfg, es, k)
    ensures var r := Judgement(cfg, es, k, peak);
      && (cfg.memory.isSet ==> (r.verdict == MemoryLimitExceed <==> r.memory.bytes > cfg.memory.bytes))
      && (!cfg.memory.isSet ==> r.verdict != MemoryLimitExceed && r.memory.bytes == peak)
      && (forall i :: cfg.memory.isSet && 0 <= i <= k ==> es[i].minorFaults * cfg.pageSize / 1024 <= r.memory.bytes)
      && peak <= r.memory.bytes
      && (r.memory.bytes == peak || exists i :: 0 <= i <= k && es[i].minorFaults * cfg.pageSize / 1024 == r.memory.bytes)
  {
    if cfg.memory.isSet {
      LargestBounds(cfg, es[..k + 1]);
      if OverMemory(cfg, es, k) { assert es[..k + 1][k] == es[k]; }
      forall i | 0 <= i <= k ensures Kilobytes(cfg, es[i]) <= Largest(cfg, es[..k + 1]) {
        assert es[..k + 1][i] == es[i];
      }
      var i :| 0 <= i < |es[..k + 1]| && Kilobytes(cfg, es[..k + 1][i]) == Largest(cfg, es[..k + 1]);
      assert es[..k + 1][i] == es[i];
      assert es[i].minorFaults * cfg.pageSize / 1024 == Largest(cfg, es[..k + 1]);
    }
  }

  /** The same stops made the call at most as often as the budget, up to the one that breaks it. */
  lemma SyscallVerdictExact(cfg: Setting, es: seq<Report>, k: nat)
    requires cfg.Valid() && k < |es| && forall i :: 0 <= i < k ==> Trips(cfg, es, i).None?
    ensures Trips(cfg, es, k) == Some(IllegalSystemCall) <==>
      && !OverMemory(cfg, es, k) && !OverTime(cfg, es, k) && Trap(es[k])
      && cfg.budgets[es[k].syscall] >= 0
      && Uses(es[k].syscall, es[..k]) == cfg.budgets[es[k].syscall]
  {
    assert es[..k + 1][..k] == es[..k];
    UsesWithin(cfg, es, k, es[k].syscall);
  }

  lemma {:induction false} UsesWithin(cfg: Setting, es: seq<Report>, k: nat, id: nat)
    requires cfg.Valid() && k <= |es| && id < SYSCALLS && forall i :: 0 <= i < k ==> Trips(cfg, es, i).None?
    ensures cfg.budgets[id] >= 0 ==> Uses(id, es[..k]) <= cfg.budgets[id]
  {
    if k > 0 {
      assert es[..k][..k - 1] == es[..k - 1];
      assert Trips(cfg, es, k - 1).None?;
      UsesWithin(cfg, es, k - 1, id);
    }
  }

  // ---------- in terms of the limits and the reports as they come ----------

  lemma {:induction false} UsesCount(id: nat, es: seq<Report>)
    ensures Uses(id, es) == |set i | 0 <= i < |es| && es[i].syscall == id|
  {
    var uses := set i | 0 <= i < |es| && es[i].syscall == id;
    if es != [] {
      var n := |es| - 1;
      var before := set i | 0 <= i < |es[..n]| && es[..n][i].syscall == id;
      UsesCount(id, es[..n]);
      assert uses == before + if es[n].syscall == id then {n} else {};
    }
  }

  /** The time is over exactly if it exceeds one of the limits set, and a millisecond. */
  lemma SlowExactly(rl: ResourceLimit, table: seq<int>, pageSize: nat, es: seq<Report>, k: nat)
    requires |table| == SYSCALLS && k < |es|
    ensures OverTime(SettingOf(rl, table, pageSize), es, k) <==>
      var time := es[k].user.sec * 1000 + es[k].user.usec / 1000 + (es[k].system.sec * 1000 + es[k].system.usec / 1000);
      time > 1 && ((rl.single.isSet && time > rl.single.ms) || (rl.total.isSet && time > rl.total.ms))
  {
  }

  /** The reports that end the loop: over a limit, other than a stop at a system call, or a stop at one
      that has been stopped at more often than the table allows. */
  lemma TripsExactly(rl: ResourceLimit, table: seq<int>, pageSize: nat, es: seq<Report>, k: nat)
    requires |table| == SYSCALLS && k < |es|
    ensures Trips(SettingOf(rl, table, pageSize), es, k).Some? <==>
      var e, stops := es[k], set i | 0 <= i <= k && es[i].syscall == es[k].syscall;
      var time := e.user.sec * 1000 + e.user.usec / 1000 + (e.system.sec * 1000 + e.system.usec / 1000);
      || (rl.memory.isSet && e.minorFaults * pageSize / 1024 > rl.memory.bytes)
      || (time > 1 && ((rl.single.isSet && time > rl.single.ms) || (rl.total.isSet && time > rl.total.ms)))
      || e.status != Stopped(5)
      || 0 <= table[e.syscall] < |stops|
  {
    SlowExactly(rl, table, pageSize, es, k);
    var seen := es[..k + 1];
    UsesCount(es[k].syscall, seen);
    assert (set i | 0 <= i <= k && es[i].syscall == es[k].syscall)
        == (set i | 0 <= i < |seen| && seen[i].syscall == es[k].syscall);
  }

  /** The verdict when report `k` has ended the loop. */
  lemma LaunchVerdict(rl: ResourceLimit, table: seq<int>, pageSize: nat, es: seq<Report>, peak: nat, k: nat)
    requires |table| == SYSCALLS && Decides(SettingOf(rl, table, pageSize), es, k)
    ensures var e, out := es[k], Observe(SettingOf(rl, table, pageSize), Child(es, peak));
      var time := e.user.sec * 1000 + e.user.usec / 1000 + (e.system.sec * 1000 + e.system.usec / 1000);
      var big := rl.memory.isSet &&
        (peak > rl.memory.bytes || exists i :: 0 <= i <= k && es[i].minorFaults * pageSize / 1024 > rl.memory.bytes);
      var slow := time > 1 && ((rl.single.isSet && time > rl.single.ms) || (rl.total.isSet && time > rl.total.ms));
      && out.Finished?
      && out.result.verdict ==
        if big then MemoryLimitExceed
        else if slow then TimeLimitExceed
        else if e.status.Exited? then (if e.status.code == 0 then RunPass else RuntimeError)
        else if e.status == Stopped(5) then IllegalSystemCall
        else if e.status.signal in {9, 14, 17, 24} then TimeLimitExceed
        else if e.status.signal == 25 then OutputLimitExceed
        else if e.status.signal == 11 then SegmentFault
        else if e.status.signal == 7 then BusError
        else if e.status.signal == 6 then Abort
        else RuntimeError
  {
    var cfg := SettingOf(rl, table, pageSize);
    hide OverBudget, Largest, CpuMillis;
    EarliestDecides(cfg, es, peak);
    MemoryVerdictExact(cfg, es, peak, k);
    SlowExactly(rl, table, pageSize, es, k);
  }

  /** The usage reported: the memory is the final peak or the largest sample, samples being taken only with
      a limit set; the time is that of report `k`, or of the one before if memory was over at `k`. */
  lemma LaunchUsage(rl: ResourceLimit, table: seq<int>, pageSize: nat, es: seq<Report>, peak: nat, k: nat)
    requires |table| == SYSCALLS && Decides(SettingOf(rl, table, pageSize), es, k)
    ensures var out := Observe(SettingOf(rl, table, pageSize), Child(es, peak));
      && out.Finished? && out.result.outputFile.None? && out.result.memory.isSet
      && peak <= out.result.memory.bytes
      && (!rl.memory.isSet ==> out.result.memory.bytes == peak)
      && (rl.memory.isSet ==> forall i :: 0 <= i <= k ==> es[i].minorFaults * pageSize / 1024 <= out.result.memory.bytes)
      && (out.result.memory.bytes == peak || exists i :: 0 <= i <= k && es[i].minorFaults * pageSize / 1024 == out.result.memory.bytes)
    ensures var elapsed := Observe(SettingOf(rl, table, pageSize), Child(es, peak)).result.elapsed;
      var i := if rl.memory.isSet && es[k].minorFaults * pageSize / 1024 > rl.memory.bytes then k - 1 else k;
      if i < 0 then !elapsed.isSet else
        elapsed == TimeUsage(es[i].user.sec * 1000 + es[i].user.usec / 1000 + (es[i].system.sec * 1000 + es[i].system.usec / 1000), true)
  {
    var cfg := SettingOf(rl, table, pageSize);
    hide Trips, Largest;
    EarliestDecides(cfg, es, peak);
    MemoryVerdictExact(cfg, es, peak, k);
  }

  /** What a launch leaves of a budget when report `k` has ended the loop: one less for each stop before,
      but all of an unlimited one. */
  lemma BudgetsLeft(rl: ResourceLimit, table: seq<int>, pageSize: nat, es: seq<Report>, k: nat, id: nat)
    requires |table| == SYSCALLS && id < SYSCALLS && Decides(SettingOf(rl, table, pageSize), es, k)
    ensures Left(table[id], Uses(id, LetThrough(SettingOf(rl, table, pageSize), es))) ==
      if table[id] < 0 then table[id] else table[id] - |set i | 0 <= i < k && es[i].syscall == id|
  {
    var before := es[..k];
    DecidesUnique(SettingOf(rl, table, pageSize), es, k);
    UsesCount(id, before);
    assert (set i | 0 <= i < k && es[i].syscall == id) == (set i | 0 <= i < |before| && before[i].syscall == id);
  }
}
