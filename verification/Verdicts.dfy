/**
 `LangC::judge` and `LangC::check` (src/lang.cpp): one submission run on all test cases of its problem,
 with one `ResourceLimit` object shared and changed by every launch. Compilation, the child processes
 and `diff` are environment: their outcomes are parameters.
 */
module Verdicts {
  import opened Wrappers
  import opened Limits
  import opened Monitor
  import Workdirs

  /** `is_special_judge` is never set by the code that loads test cases, so it can be anything. */
  datatype TestCase = TestCase(special: int)

  /** What the outside does on one test case: the child, the two diffs (raw results of `system`), and
      the number the result counter hands out. */
  datatype World = World(child: Child, diff: int, laxDiff: int, ticket: nat)

  /** `WEXITSTATUS`. */
  function ExitStatus(raw: int): int { raw / 256 % 256 }

  /** `LangC::check`; the times and memory of the run are not carried over. */
  function Check(tc: TestCase, w: World): Result {
    FRESH.(verdict :=
      if tc.special != 0 then SystemError
      else if w.diff == 0 then CorrectAnswer
      else if ExitStatus(w.diff) != 1 then SystemError
      else if w.laxDiff == 0 then PresentationError
      else if ExitStatus(w.laxDiff) == 1 then WrongAnswer
      else SystemError)
  }

  predicate KeepsOutput(v: Verdict) { v.WrongAnswer? || v.PresentationError? }

  /** What one test case contributes, starting from untouched limits: launch, then check. */
  function CaseOutcome(cfg: Setting, tc: TestCase, w: World): Outcome
    requires cfg.Valid()
  {
    var launched := Observe(cfg, w.child);
    if launched.Waiting? then Waiting
    else
      var res := if launched.result.verdict == RunPass then Check(tc, w) else launched.result;
      Finished(if KeepsOutput(res.verdict) then res.(outputFile := Some(w.ticket % Workdirs.WINDOW)) else res)
  }

  /** The cases completed: all before the first whose child is still running. */
  function Completed(cfg: Setting, cases: seq<TestCase>, ws: seq<World>): (k: nat)
    requires cfg.Valid() && |ws| == |cases|
    ensures k <= |cases|
    ensures forall i :: 0 <= i < k ==> CaseOutcome(cfg, cases[i], ws[i]).Finished?
    ensures k < |cases| ==> CaseOutcome(cfg, cases[k], ws[k]).Waiting?
  {
    CompletedFrom(cfg, cases, ws, 0)
  }

  function CompletedFrom(cfg: Setting, cases: seq<TestCase>, ws: seq<World>, i: nat): (k: nat)
    requires cfg.Valid() && |ws| == |cases| && i <= |cases|
    ensures i <= k <= |cases|
    ensures forall u :: i <= u < k ==> CaseOutcome(cfg, cases[u], ws[u]).Finished?
    ensures k < |cases| ==> CaseOutcome(cfg, cases[k], ws[k]).Waiting?
    decreases |cases| - i
  {
    if i == |cases| || CaseOutcome(cfg, cases[i], ws[i]).Waiting? then i else CompletedFrom(cfg, cases, ws, i + 1)
  }

  lemma CompletedUnique(cfg: Setting, cases: seq<TestCase>, ws: seq<World>, k: nat)
    requires cfg.Valid() && |ws| == |cases| && k <= |cases|
    requires forall i :: 0 <= i < k ==> CaseOutcome(cfg, cases[i], ws[i]).Finished?
    requires k < |cases| ==> CaseOutcome(cfg, cases[k], ws[k]).Waiting?
    ensures Completed(cfg, cases, ws) == k
  {
  }

  /** The results of the first `k` cases, each case for itself, in order. */
  function Results(cfg: Setting, cases: seq<TestCase>, ws: seq<World>, k: nat): seq<Result>
    requires cfg.Valid() && |ws| == |cases| && k <= |cases|
    requires forall i :: 0 <= i < k ==> CaseOutcome(cfg, cases[i], ws[i]).Finished?
  {
    seq(k, i requires 0 <= i < k => CaseOutcome(cfg, cases[i], ws[i]).result)
  }

  predicate AllCorrect(rs: seq<Result>) {
    forall i :: 0 <= i < |rs| ==> rs[i].verdict == CorrectAnswer
  }

  lemma ResultsGrow(cfg: Setting, cases: seq<TestCase>, ws: seq<World>, k: nat)
    requires cfg.Valid() && |ws| == |cases| && k < |cases|
    requires forall i :: 0 <= i <= k ==> CaseOutcome(cfg, cases[i], ws[i]).Finished?
    ensures var r := CaseOutcome(cfg, cases[k], ws[k]).result;
      && Results(cfg, cases, ws, k + 1) == Results(cfg, cases, ws, k) + [r]
      && AllCorrect(Results(cfg, cases, ws, k + 1)) == (AllCorrect(Results(cfg, cases, ws, k)) && r.verdict == CorrectAnswer)
  {
    hide CaseOutcome;
    var rs, rs' := Results(cfg, cases, ws, k), Results(cfg, cases, ws, k + 1);
    assert rs' == rs + [rs'[k]];
    assert forall i :: 0 <= i < k ==> rs[i] == rs'[i];
  }

  class Submission {
    var status: Verdict
    var results: seq<Result>

    constructor ()
      ensures status == Init && results == []
    {
      status, results := Init, [];
    }
  }

  /** One test case, on limits that other cases have used before. */
  method JudgeCase(rl: ResourceLimit, tc: TestCase, table: seq<int>, pageSize: nat, w: World) returns (out: Outcome)
    requires rl.Valid() && |table| == SYSCALLS
    modifies rl`file, rl.syscalls
    ensures out == CaseOutcome(SettingOf(rl, table, pageSize), tc, w)
  {
    out := Launch(rl, table, pageSize, w.child);
    if out.Waiting? {
      return;
    }
    var res := out.result;
    if res.verdict == RunPass {
      res := Check(tc, w);
    }
    if res.verdict == WrongAnswer || res.verdict == PresentationError {
      res := res.(outputFile := Some(w.ticket % Workdirs.WINDOW));
    }
    out := Finished(res);
  }

  /** Judges the submission: pushes one result for each test case and sets the status. Returns early,
      `done` being false, only as long as some child is still running. */
  method Judge(sub: Submission, limits: ResourceLimit, cases: seq<TestCase>, dir: string, uid: int,
               compiled: Result, table: seq<int>, pageSize: nat, ws: seq<World>) returns (done: bool)
    requires limits.Valid() && |table| == SYSCALLS && |ws| == |cases|
    modifies sub
    ensures compiled.verdict != CompilePass ==>
      done && sub.results == old(sub.results) + [compiled] && sub.status == CompileError
    ensures compiled.verdict == CompilePass ==>
      var cfg := SettingOf(limits, table, pageSize);
      var k := Completed(cfg, cases, ws);
      var rs := Results(cfg, cases, ws, k);
      && sub.results == old(sub.results) + rs
      && |rs| == k && (forall i :: 0 <= i < k ==> rs[i] == CaseOutcome(cfg, cases[i], ws[i]).result)
      && done == (k == |cases|)
      && sub.status == (if !done then CompilePass else if AllCorrect(rs) then Accept else NotAccept)
  {
    hide CaseOutcome, CompletedFrom;
    sub.status := Init;
    if compiled.verdict != CompilePass {
      sub.results := sub.results + [compiled];
      sub.status := CompileError;
      return true;
    }
    sub.status := CompilePass;
    var launchLimits := new ResourceLimit.Copy(limits);
    launchLimits.uid := uid;
    launchLimits.SetWorkDir(Some(dir));

    ghost var cfg := SettingOf(limits, table, pageSize);
    var allCorrect := true;
    var i := 0;
    while i < |cases|
      invariant 0 <= i <= |cases|
      invariant launchLimits.Valid() && fresh(launchLimits) && fresh(launchLimits.syscalls)
      invariant SettingOf(launchLimits, table, pageSize) == cfg
      invariant forall u :: 0 <= u < i ==> CaseOutcome(cfg, cases[u], ws[u]).Finished?
      invariant allCorrect == AllCorrect(Results(cfg, cases, ws, i))
      invariant sub.results == old(sub.results) + Results(cfg, cases, ws, i) && sub.status == CompilePass
    {
      var out := JudgeCase(launchLimits, cases[i], table, pageSize, ws[i]);
      if out.Waiting? {
        CompletedUnique(cfg, cases, ws, i);
        return false;
      }
      ResultsGrow(cfg, cases, ws, i);
      if out.result.verdict != CorrectAnswer {
        allCorrect := false;
      }
      sub.results := sub.results + [out.result];
      i := i + 1;
    }
    CompletedUnique(cfg, cases, ws, i);
    sub.status := if allCorrect then Accept else NotAccept;
    done := true;
  }

  // ---------- what acceptance means ----------

  /** The child ran to a normal end within every limit, and the strict diff found no difference. */
  ghost predicate CorrectCase(cfg: Setting, tc: TestCase, w: World)
    requires cfg.Valid()
  {
    && w.child.Child?
    && (exists k :: CleanRun(cfg, w.child.reports, w.child.peak, k))
    && tc.special == 0
    && w.diff == 0
  }

  lemma CorrectCaseExact(cfg: Setting, tc: TestCase, w: World)
    requires cfg.Valid()
    ensures CorrectCase(cfg, tc, w) <==>
      CaseOutcome(cfg, tc, w).Finished? && CaseOutcome(cfg, tc, w).result.verdict == CorrectAnswer
  {
    if w.child.Child? { RunPassExact(cfg, w.child.reports, w.child.peak); }
  }

  /** What becomes of a clean run: the raw results of the two diffs decide, and nothing of the run's usage
      is kept. Wrong and badly presented outputs are kept under the number drawn, modulo 100000. */
  lemma CaseVerdict(cfg: Setting, tc: TestCase, w: World)
    requires cfg.Valid() && w.child.Child? && exists k :: CleanRun(cfg, w.child.reports, w.child.peak, k)
    ensures var out := CaseOutcome(cfg, tc, w);
      var differs, differsMuch := w.diff / 256 % 256 == 1, w.laxDiff / 256 % 256 == 1;
      && out.Finished? && !out.result.memory.isSet && !out.result.elapsed.isSet
      && out.result.verdict == (
        if tc.special != 0 then SystemError
        else if w.diff == 0 then CorrectAnswer
        else if differs && w.laxDiff == 0 then PresentationError
        else if differs && differsMuch then WrongAnswer
        else SystemError)
      && out.result.outputFile ==
        if out.result.verdict in {PresentationError, WrongAnswer} then Some(w.ticket % 100000) else None
  {
    RunPassExact(cfg, w.child.reports, w.child.peak);
  }

  /** Any other run gets the verdict of the launch, and its output is not kept. */
  lemma CaseAsLaunched(cfg: Setting, tc: TestCase, w: World)
    requires cfg.Valid() && !Passed(Observe(cfg, w.child))
    ensures CaseOutcome(cfg, tc, w) == Observe(cfg, w.child)
  {
  }

  /** Of outputs kept, no two among 100000 calls of the counter in a row are kept under the same number. */
  lemma OutputsApart(cfg: Setting, tc: TestCase, w: World, cfg': Setting, tc': TestCase, w': World,
                     count: nat, i: nat, k: nat)
    requires cfg.Valid() && cfg'.Valid() && count < 1000000 && i < k < i + 100000
    requires w.ticket == Workdirs.Nth(count, i) && w'.ticket == Workdirs.Nth(count, k)
    requires var o, o' := CaseOutcome(cfg, tc, w), CaseOutcome(cfg', tc', w');
      o.Finished? && o'.Finished? && o.result.outputFile.Some? && o'.result.outputFile.Some?
    ensures CaseOutcome(cfg, tc, w).result.outputFile != CaseOutcome(cfg', tc', w').result.outputFile
  {
    OutputNumber(cfg, tc, w);
    OutputNumber(cfg', tc', w');
    Workdirs.WindowDistinct(count, i);
    assert Workdirs.Suffix(count, i) != Workdirs.Suffix(count, k);
  }

  lemma OutputNumber(cfg: Setting, tc: TestCase, w: World)
    requires cfg.Valid() && CaseOutcome(cfg, tc, w).Finished? && CaseOutcome(cfg, tc, w).result.outputFile.Some?
    ensures CaseOutcome(cfg, tc, w).result.outputFile == Some(w.ticket % Workdirs.WINDOW)
  {
  }

  /** The judging has come to an end, with all results correct. */
  ghost predicate Accepted(cfg: Setting, cases: seq<TestCase>, ws: seq<World>)
    requires cfg.Valid() && |ws| == |cases|
  {
    var k := Completed(cfg, cases, ws);
    k == |cases| && AllCorrect(Results(cfg, cases, ws, k))
  }

  /** A compiled submission is accepted exactly if it is correct on every test case of the problem. */
  lemma AcceptedExactly(cfg: Setting, cases: seq<TestCase>, ws: seq<World>)
    requires cfg.Valid() && |ws| == |cases|
    ensures Accepted(cfg, cases, ws) <==>
      forall i :: 0 <= i < |cases| ==> CorrectCase(cfg, cases[i], ws[i])
  {
    hide CaseOutcome, CorrectCase;
    forall i | 0 <= i < |cases|
      ensures CorrectCase(cfg, cases[i], ws[i]) <==>
        CaseOutcome(cfg, cases[i], ws[i]).Finished? && CaseOutcome(cfg, cases[i], ws[i]).result.verdict == CorrectAnswer
    {
      CorrectCaseExact(cfg, cases[i], ws[i]);
    }
    var rs := Results(cfg, cases, ws, Completed(cfg, cases, ws));
    assert forall i :: 0 <= i < |rs| ==> rs[i] == CaseOutcome(cfg, cases[i], ws[i]).result;
  }

  /** Whatever a program does it is accepted, exactly for problems without test cases. */
  lemma AcceptedUnrunExact(cfg: Setting, cases: seq<TestCase>)
    requires cfg.Valid()
    ensures (forall ws | |ws| == |cases| :: Accepted(cfg, cases, ws)) <==> cases == []
  {
    hide Accepted;
    if cases == [] {
      forall ws: seq<World> | |ws| == |cases| ensures Accepted(cfg, cases, ws) { AcceptedExactly(cfg, cases, ws); }
    } else {
      var ws := seq(|cases|, i requires 0 <= i < |cases| => World(NoChild, 0, 0, 0));
      AcceptedExactly(cfg, cases, ws);
      assert !CorrectCase(cfg, cases[0], ws[0]);
    }
  }
}
