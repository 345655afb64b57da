/**
 What one fetch of a problem means for all submissions to it: the engine keeps what the fetch brought, and
 the verdicts depend on it. A failed query about test cases is kept like an answer of none.
 */
module Acceptance {
  import opened Wrappers
  import opened Protocol
  import opened Engine
  import opened Safety
  import opened Completion
  import opened Limits
  import opened Monitor
  import Verdicts

  lemma FetchesGrow(m: Memory, t: nat, op: Op, r: Resp)
    ensures m.fetches <= Effect(m, t, op, r).fetches
  {
  }

  lemma {:induction false} FetchesKept(c: Config, s: State, es: seq<Step>, s': State)
    requires Run(c, s, es, s')
    ensures s.mem.fetches <= s'.mem.fetches
    decreases |es|
  {
    hide Answers;
    if es != [] {
      FetchesGrow(s.mem, es[0].t, OpOf(s, es[0].t), es[0].r);
      FetchesKept(c, Do(s, es[0]), es[1..], s');
    }
  }

  /** What a fetch brought is what all later submissions to the problem are judged by. */
  lemma ProblemForGood(c: Config, s: State, k: nat, es: seq<Step>, s': State, t: nat)
    requires Reachable(c, s) && k < |s.mem.fetches| && Run(c, s, es, s')
    requires t < |s'.threads| && s'.threads[t].WRun? && s'.threads[t].task.submission.problem == s.mem.fetches[k].0
    ensures var prob, reply := s'.threads[t].prob, s.mem.fetches[k].1;
      && (reply.cases.Some? ==> prob.limits == reply.limits && prob.cases == reply.cases.value)
      && (reply.cases.None? ==> prob.limits.None? && prob.cases == [])
  {
    hide Run, Reachable;
    ReachableRun(c, s, es, s');
    FetchesKept(c, s, es, s');
    JudgedByItsProblem(c, s', t);
    CacheOnce(c, s');
  }

  function CasesOf(prob: Problem): seq<Verdicts.TestCase> {
    seq(|prob.cases|, i requires 0 <= i < |prob.cases| => Verdicts.TestCase(prob.cases[i]))
  }

  /** Every compiled submission is accepted, whatever it does, exactly if that one fetch found no test
      cases or its query about them failed; and so it stays for good. */
  lemma AcceptedForGood(c: Config, s: State, k: nat, es: seq<Step>, s': State, t: nat, cfg: Setting)
    requires Reachable(c, s) && k < |s.mem.fetches| && Run(c, s, es, s') && cfg.Valid()
    requires t < |s'.threads| && s'.threads[t].WRun? && s'.threads[t].task.submission.problem == s.mem.fetches[k].0
    ensures var cases := CasesOf(s'.threads[t].prob);
      (forall ws | |ws| == |cases| :: Verdicts.Accepted(cfg, cases, ws))
      <==> s.mem.fetches[k].1.cases in {None, Some([])}
  {
    hide Run, Reachable, Verdicts.Accepted;
    ProblemForGood(c, s, k, es, s', t);
    Verdicts.AcceptedUnrunExact(cfg, CasesOf(s'.threads[t].prob));
  }

  /** With limits as fetched, loaded into the launch's limits, a run of the program is over memory exactly
      above the fetched bytes, over time exactly above the fetched milliseconds, and passes otherwise if it
      ends with 0. */
  lemma FetchedLimitsEnforced(c: Config, s: State, k: nat, es: seq<Step>, s': State, t: nat, ms: nat, bytes: nat,
                              rl: ResourceLimit, table: seq<int>, pageSize: nat,
                              reports: seq<Report>, peak: nat, last: nat)
    requires Reachable(c, s) && k < |s.mem.fetches| && Run(c, s, es, s')
    requires t < |s'.threads| && s'.threads[t].WRun? && s'.threads[t].task.submission.problem == s.mem.fetches[k].0
    requires s.mem.fetches[k].1.cases.Some? && s.mem.fetches[k].1.limits == Some((ms, bytes))
    requires s'.threads[t].prob.limits.Some? ==>
      && rl.single == TimeUsage(s'.threads[t].prob.limits.value.0, true)
      && rl.memory == MemorySize(s'.threads[t].prob.limits.value.1, true) && !rl.total.isSet
    requires |table| == SYSCALLS && Decides(SettingOf(rl, table, pageSize), reports, last)
    ensures var e, verdict := reports[last], Observe(SettingOf(rl, table, pageSize), Child(reports, peak)).result.verdict;
      var time := e.user.sec * 1000 + e.user.usec / 1000 + (e.system.sec * 1000 + e.system.usec / 1000);
      var big := peak > bytes || exists i :: 0 <= i <= last && reports[i].minorFaults * pageSize / 1024 > bytes;
      && (verdict == MemoryLimitExceed <==> big)
      && (!big && time > 1 && time > ms ==> verdict == TimeLimitExceed)
      && (verdict == RunPass <==> !big && (time <= 1 || time <= ms) && e.status == Exited(0))
  {
    hide Run, Reachable, CpuMillis, Largest, OverBudget;
    ProblemForGood(c, s, k, es, s', t);
    LaunchVerdict(rl, table, pageSize, reports, peak, last);
  }
}
