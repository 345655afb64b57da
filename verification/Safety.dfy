/**
 What the judging engine keeps in every state of every run.
 */
module Safety {
  import opened Wrappers
  import opened Pools
  import opened Protocol
  import opened Program
  import opened Invariants
  import opened Engine

  function ViewOf(s: State, t: nat): View
    requires t < |s.threads|
  {
    ViewAt(s.threads[t])
  }

  function OpOf(s: State, t: nat): Op
    requires t < |s.threads|
  {
    OpAt(s.threads[t])
  }

  /** How many threads are of a kind. */
  function Threaded(s: State, k: Kind): nat {
    Count(k, Views(s.threads))
  }

  /** Tasks added and not yet finished: queued, or being run. */
  function Unfinished(s: State): nat {
    |s.mem.queue| + Threaded(s, Working)
  }

  // ---------- mutexes ----------

  /** A mutex is held by the thread recorded as its owner and by no other. */
  lemma MutualExclusion(c: Config, s: State, x: Mutex, t: nat)
    requires Reachable(c, s) && t < |s.threads|
    ensures ViewOf(s, t).Locked(x) <==> s.mem.Owner(x) == Some(t)
  {
    KnownOwner(c, s, x);
    assert Views(s.threads)[t] == ViewOf(s, t);
  }

  /** Whether the operation belongs to a critical section of the mutex. */
  predicate Guarded(op: Op, x: Mutex) {
    match op
    case Unlock(y) => y == x
    case Push(_, _) => x == QueueLock
    case Check => x == QueueLock
    case Claim(p, _) => x == LockOf(p)
    case Free(p, _, _) => x == LockOf(p)
    case Find(_) => x == JudgeLock
    case Query(_) => x == JudgeLock
    case Insert(_, _) => x == JudgeLock
    case Read(_) => x == JudgeLock
    case _ => false
  }

  lemma GuardedLegal(op: Op, v: View, x: Mutex)
    requires Legal(op, v) && Shaped(v)
    ensures Guarded(op, x) ==> v.Locked(x)
    ensures op == Lock(x) ==> !v.Locked(x)
  {
  }

  /** No thread dereferences null, unlocks a mutex of another's, or touches a shared table unlocked. */
  lemma NoMisuse(c: Config, s: State, t: nat, r: Resp, x: Mutex)
    requires Reachable(c, s) && Can(c, s, Step(t, r))
    ensures s.threads[t] != Crashed && Next(s.threads[t], r) != Crashed
    ensures Guarded(OpOf(s, t), x) ==> s.mem.Owner(x) == Some(t)
    ensures OpOf(s, t) == Lock(x) ==> s.mem.Owner(x) != Some(t)
  {
    KnownSane(c, s, t, r);
    KnownLegal(c, s, t, r);
    KnownThreads(c, s);
    assert Shaped(Views(s.threads)[t]);
    GuardedLegal(OpOf(s, t), ViewOf(s, t), x);
    MutualExclusion(c, s, x, t);
  }

  // ---------- pools ----------

  /** Semaphore value, plus threads between semaphore and table, is the number of free slots. */
  lemma PoolConservation(c: Config, s: State, p: Pool)
    requires Reachable(c, s)
    ensures s.mem.Sem(p) + Threaded(s, Crossing(p)) == Tally(s.mem.Slots(p), Idle) + Tally(s.mem.Slots(p), Unopened)
    ensures p.Judges? ==> Tally(s.mem.judges, Unopened) == 0
    ensures Tally(s.mem.Slots(p), Busy) == Threaded(s, Holding(p))
  {
    KnownPool(c, s, p);
    var vs := Views(s.threads);
    CountPassing(p, vs);
    TallySum(s.mem.Slots(p));
    TallyAbsent(s.mem.Slots(p), Unopened);
  }

  /** Whoever got past the semaphore finds a slot: `get_judge` and
      `get_available_connection` never return null. */
  lemma SlotAlwaysFound(c: Config, s: State, t: nat, p: Pool)
    requires Reachable(c, s) && t < |s.threads| && ViewOf(s, t).At(p).In?
    ensures Pick(p, s.mem.Slots(p)).Some?
  {
    KnownPool(c, s, p);
    var vs := Views(s.threads);
    ClaimSucceeds(c, s.mem, vs, t, p);
  }

  /** No two threads hold the same judge or the same connection. */
  lemma SlotsExclusive(c: Config, s: State, t: nat, u: nat, p: Pool)
    requires Reachable(c, s) && t < |s.threads| && u < |s.threads| && t != u
    requires ViewOf(s, t).At(p).Has? && ViewOf(s, u).At(p).Has?
    ensures ViewOf(s, t).At(p).h != ViewOf(s, u).At(p).h
    ensures ViewOf(s, t).At(p).h < c.Cap(p)
  {
    KnownPool(c, s, p);
    var vs := Views(s.threads);
    assert vs[t] == ViewOf(s, t) && vs[u] == ViewOf(s, u);
  }

  /** With as many judges as workers, waiting for a judge never blocks. */
  lemma JudgeWaitNeverBlocks(c: Config, s: State, t: nat)
    requires Reachable(c, s) && t < |s.threads| && OpOf(s, t) == WaitPool(Judges)
    ensures s.mem.judgeSem > 0
  {
    var vs := Views(s.threads);
    KnownThreads(c, s);
    KnownPool(c, s, Judges);
    KnownLegal(c, s, t, Done);
    // neither the main thread nor thread `t` is past the semaphore
    assert Shaped(vs[0]) && vs[t] == ViewOf(s, t);
    WaitsForJudge(s.threads[t]);
    WaiterLeavesRoom(vs, t);
  }

  /** Only workers take judges. */
  lemma WaitsForJudge(pc: Pc)
    requires OpAt(pc) == WaitPool(Judges)
    ensures !IsMain(pc)
  {
  }

  lemma WaiterLeavesRoom(vs: seq<View>, t: nat)
    requires 0 < t < |vs| && !Is(Passing(Judges), vs[0]) && !Is(Passing(Judges), vs[t])
    ensures Count(Passing(Judges), vs) < |vs| - 1
  {
    var tail := vs[1..];
    var busy := tail[t - 1 := tail[t - 1].(judge := In)];
    CountUpdate(Passing(Judges), tail, t - 1, tail[t - 1].(judge := In));
    CountAtMost(Passing(Judges), busy);
  }

  /** With two connections or more, waiting for one never blocks. */
  lemma ConnWaitNeverBlocks(c: Config, s: State, t: nat)
    requires Reachable(c, s) && t < |s.threads| && OpOf(s, t) == WaitPool(Conns)
    requires c.d >= 2
    ensures s.mem.connSem > 0
  {
    var vs := Views(s.threads);
    KnownThreads(c, s);
    KnownPool(c, s, Conns);
    KnownOwner(c, s, JudgeLock);
    KnownLegal(c, s, t, Done);
    assert vs[t] == ViewOf(s, t);
    if t > 0 { WaitsLocked(s.threads[t]); }
    // with thread `t` inside as well there would still be at most two
    var v := vs[t].(conn := In);
    CountUpdate(Passing(Conns), vs, t, v);
    assert Shaped(vs[t]);
    assert Owned(s.mem, vs[t := v], JudgeLock) by { OwnedFrame(s.mem, vs, s.mem, vs[t := v], JudgeLock); }
    AtMostTwo(c, s.mem, vs[t := v]);
  }

  /** A worker waits for a connection only under the judge lock. */
  lemma WaitsLocked(pc: Pc)
    requires OpAt(pc) == WaitPool(Conns) && !IsMain(pc)
    ensures ViewAt(pc).judgeLock
  {
  }

  /** At most two connections are ever in use, and each is opened at most once, in order. */
  lemma ConnectionsOpened(c: Config, s: State)
    requires Reachable(c, s)
    ensures Threaded(s, Passing(Conns)) <= 2
    ensures |s.mem.connected| <= 2 && |s.mem.connected| <= c.d
    ensures forall k :: 0 <= k < |s.mem.connected| ==> s.mem.connected[k] == k
    ensures |s.mem.conns| == c.d
    ensures forall i :: 0 <= i < c.d ==> (s.mem.conns[i] == Unopened <==> |s.mem.connected| <= i)
  {
    KnownCache(c, s);
    KnownThreads(c, s);
    KnownPool(c, s, Conns);
    KnownOwner(c, s, JudgeLock);
    AtMostTwo(c, s.mem, Views(s.threads));
  }

  function InUse(s: State): nat { Tally(s.mem.conns, Busy) }

  /** The most connections in use at once anywhere along a run. */
  function Highest(s: State, es: seq<Step>): nat
    decreases |es|
  {
    if es == [] || es[0].t >= |s.threads| then InUse(s) else Max(InUse(s), Highest(Do(s, es[0]), es[1..]))
  }

  lemma WithinPeak(c: Config, s: State)
    requires Good(c, s)
    ensures InUse(s) <= s.mem.peak
  {
    TallySum(s.mem.conns);
    TallyPrefix(s.mem.conns, |s.mem.connected|);
  }

  lemma PeakDo(c: Config, s: State, e: Step)
    requires Good(c, s) && Can(c, s, e)
    ensures Do(s, e).mem.peak == Max(s.mem.peak, InUse(Do(s, e)))
  {
    hide Good, Answers, OpAt, Next, Effect;
    StepKeeps(c, s, e);
    WithinPeak(c, s);
    WithinPeak(c, Do(s, e));
    PeakEffect(s.mem, e.t, OpAt(s.threads[e.t]), e.r);
  }

  lemma PeakEffect(m: Memory, t: nat, op: Op, r: Resp)
    ensures Effect(m, t, op, r).peak == m.peak || Effect(m, t, op, r).peak == Tally(Effect(m, t, op, r).conns, Busy)
    ensures Effect(m, t, op, r).peak >= m.peak
  {
  }

  lemma {:induction false} PeakRun(c: Config, s: State, es: seq<Step>, s': State)
    requires Good(c, s) && Run(c, s, es, s')
    ensures s'.mem.peak == Max(s.mem.peak, Highest(s, es))
    decreases |es|
  {
    hide Good, Answers, OpAt, Next, Effect;
    WithinPeak(c, s);
    if es != [] {
      PeakDo(c, s, es[0]);
      StepKeeps(c, s, es[0]);
      PeakRun(c, Do(s, es[0]), es[1..], s');
    }
  }

  /** No connection is opened before it is needed: as many are open as were ever in use at once. */
  lemma ConnectionsMinimal(c: Config, es: seq<Step>, s: State)
    requires Run(c, Init(c), es, s)
    ensures |s.mem.connected| == Highest(Init(c), es)
  {
    InitGood(c);
    PeakRun(c, Init(c), es, s);
    RunKeeps(c, Init(c), es, s);
  }

  // ---------- wakeups ----------

  /** While a worker sleeps, the queue is no longer than the signals due and the workers roused. */
  lemma NoLostWakeup(c: Config, s: State, t: nat)
    requires Reachable(c, s) && t < |s.threads| && s.threads[t] == WAsleep
    ensures |s.mem.queue| <= Threaded(s, Owing) + Threaded(s, Waking)
  {
    KnownQueue(c, s);
    assert Views(s.threads)[t].mood.Asleep?;
  }

  lemma OwesAt(pc: Pc)
    ensures ViewAt(pc).owes <==> pc.MLeave? || pc.MSignal?
  {
  }

  /** Queued tasks and all workers asleep: then the main thread is about to signal. */
  lemma SignalInFlight(c: Config, s: State)
    requires Reachable(c, s) && c.n >= 1 && s.mem.queue != []
    requires forall t :: 0 < t < |s.threads| ==> s.threads[t] == WAsleep
    ensures |s.threads| > 0 && (s.threads[0].MLeave? || s.threads[0].MSignal?)
  {
    KnownThreads(c, s);
    var vs := Views(s.threads);
    NoLostWakeup(c, s, 1);
    forall t | 0 <= t < |vs| ensures !Is(Waking, vs[t]) {
      assert t == 0 ==> Shaped(vs[t]);
    }
    CountNone(Waking, vs);
    var u := CountWitness(Owing, vs);
    assert Shaped(vs[u]);
    OwesAt(s.threads[0]);
  }

  // ---------- throttle ----------

  /** For any mode sets: free fetch permits and unfinished tasks balance permits taken and tasks added. */
  lemma ThrottleConservation(c: Config, s: State)
    requires Reachable(c, s)
    ensures s.mem.fetch + Unfinished(s) == c.n - s.mem.taken + |s.mem.pushed|
  {
    KnownQueue(c, s);
  }

  /** When no submission asks for both modes, no more tasks are unfinished than there are judges. */
  lemma ThrottleBound(c: Config, s: State)
    requires Reachable(c, s) && BOTH !in c.modeSets
    ensures Unfinished(s) <= c.n
  {
    KnownQueue(c, s);
  }

  // ---------- problem cache ----------

  /** Inside get_problem, from the lookup on, whatever is called on the way. */
  predicate InGetProblem(pc: Pc) {
    pc.WFind? || pc.WOpen? || pc.WQuery? || pc.WCase? || pc.WInsTry? || pc.WIns? || pc.WInsEnd? ||
    pc.WClose? || pc.WRead? || pc.WReadLeave?
  }

  lemma GetProblemLocked(pc: Pc)
    ensures InGetProblem(pc) ==> ViewAt(pc).judgeLock
  {
  }

  /** Lookup, fetch, insertion and read are one critical section: nobody else is in there meanwhile. */
  lemma GetProblemAtomic(c: Config, s: State, t: nat, u: nat)
    requires Reachable(c, s) && t < |s.threads| && u < |s.threads| && t != u
    requires InGetProblem(s.threads[t])
    ensures s.mem.judgeOwner == Some(t)
    ensures !InGetProblem(s.threads[u])
  {
    GetProblemLocked(s.threads[t]);
    GetProblemLocked(s.threads[u]);
    MutualExclusion(c, s, JudgeLock, t);
    MutualExclusion(c, s, JudgeLock, u);
  }

  /** While test cases are fetched, no thread is let in: the worker goes straight on. */
  lemma FetchUndisturbed(c: Config, s: State, t: nat, r: Resp)
    requires Reachable(c, s) && Can(c, s, Step(t, r)) && s.threads[t].WCase?
    ensures Next(s.threads[t], r) == Onward(s.threads[t])
  {
    hide Run;
    GetProblemLocked(s.threads[t]);
    MutualExclusion(c, s, JudgeLock, t);
  }

  /** Each problem is fetched at most once, and every get_problem returns what that fetch brought. */
  lemma CacheOnce(c: Config, s: State)
    requires Reachable(c, s)
    ensures forall i, k :: 0 <= i < k < |s.mem.fetches| ==> s.mem.fetches[i].0 != s.mem.fetches[k].0
    ensures forall i :: 0 <= i < |s.mem.served| ==> HasFetched(s.mem, s.mem.served[i].0)
    ensures forall i, k | 0 <= i < |s.mem.served| && 0 <= k < |s.mem.fetches| ::
      var prob, reply := s.mem.served[i].1, s.mem.fetches[k].1;
      s.mem.served[i].0 == s.mem.fetches[k].0 ==>
        && (reply.cases.Some? ==> prob.limits == reply.limits && prob.cases == reply.cases.value)
        && (reply.cases.None? ==> prob.limits.None? && prob.cases == [])
  {
    KnownCache(c, s);
    forall i | 0 <= i < |s.mem.served| ensures HasFetched(s.mem, s.mem.served[i].0) {
      var id := s.mem.served[i].0;
      assert id in s.mem.cache;
    }
    forall i, k | 0 <= i < |s.mem.served| && 0 <= k < |s.mem.fetches| && s.mem.served[i].0 == s.mem.fetches[k].0
      ensures s.mem.served[i].1 == Stored(s.mem.fetches[k].1)
    {
      assert Accounted(s.mem, Views(s.threads), s.mem.fetches[k]);
    }
  }

  lemma SolvedAt(pc: Pc)
    ensures pc.WRun? ==> ViewAt(pc).solved == Some((pc.task.submission.problem, pc.prob))
  {
  }

  /** A task is judged by the problem it names, which has been fetched, with the limits and test cases
      the fetch brought; with none of either, if the query about test cases failed. */
  lemma JudgedByItsProblem(c: Config, s: State, t: nat)
    requires Reachable(c, s) && t < |s.threads| && s.threads[t].WRun?
    ensures HasFetched(s.mem, s.threads[t].task.submission.problem)
    ensures forall k :: 0 <= k < |s.mem.fetches| && s.mem.fetches[k].0 == s.threads[t].task.submission.problem ==>
      var prob, reply := s.threads[t].prob, s.mem.fetches[k].1;
      && (reply.cases.Some? ==> prob.limits == reply.limits && prob.cases == reply.cases.value)
      && (reply.cases.None? ==> prob.limits.None? && prob.cases == [])
  {
    KnownCache(c, s);
    SolvedAt(s.threads[t]);
    var id := s.threads[t].task.submission.problem;
    assert Views(s.threads)[t].solved == Some((id, s.threads[t].prob));
    assert id in s.mem.cache;
    forall k | 0 <= k < |s.mem.fetches| && s.mem.fetches[k].0 == id
      ensures s.threads[t].prob == Stored(s.mem.fetches[k].1)
    {
      assert Accounted(s.mem, Views(s.threads), s.mem.fetches[k]);
    }
  }

  /** Once read, a problem stays in the cache unchanged however the run goes on. */
  lemma {:induction false} CacheStable(c: Config, s: State, es: seq<Step>, s': State, i: nat)
    requires Good(c, s) && Run(c, s, es, s') && i < |s.mem.served|
    ensures s.mem.served[i].0 in s'.mem.cache && s'.mem.cache[s.mem.served[i].0] == s.mem.served[i].1
    decreases |es|
  {
    if es != [] {
      StepKeeps(c, s, es[0]);
      var s1 := Do(s, es[0]);
      ServedGrows(s.mem, es[0].t, OpAt(s.threads[es[0].t]), es[0].r);
      assert s1.mem.served[i] == s.mem.served[i];
      CacheStable(c, s1, es[1..], s', i);
    }
  }

  lemma ServedGrows(m: Memory, t: nat, op: Op, r: Resp)
    ensures m.served <= Effect(m, t, op, r).served
  {
  }

  // ---------- tasks ----------

  /** Tasks are dequeued in the order they were added, and none is lost or made up. */
  lemma FifoDelivery(c: Config, s: State)
    requires Reachable(c, s)
    ensures s.mem.popped + s.mem.queue == s.mem.pushed
    ensures forall i, k :: 0 <= i < k < |s.mem.pushed| ==> s.mem.pushed[i] != s.mem.pushed[k]
  {
    KnownQueue(c, s);
    assert forall i :: 0 <= i < |s.mem.pushed| ==> s.mem.pushed[i].serial == i;
  }

  /** The tasks added are, in order, one for each mode of each submission received, Debug before Release;
      while the main thread is not amid a submission, all of them. */
  lemma SubmissionsBecomeTasks(c: Config, s: State)
    requires Reachable(c, s)
    ensures Origins(s.mem.pushed) <= Expand(s.mem.rows)
    ensures |s.threads| > 0 && (s.threads[0] in {MPermit, MTry} ==> Origins(s.mem.pushed) == Expand(s.mem.rows))
  {
    KnownQueue(c, s);
    KnownThreads(c, s);
    assert Views(s.threads)[0] == ViewOf(s, 0);
  }

  /** How many tasks some submissions ask for: one for each mode. */
  function Asked(rows: seq<Submission>): nat {
    if rows == [] then 0 else Asked(rows[..|rows| - 1]) + |rows[|rows| - 1].modes|
  }

  lemma PlanExactly(modes: set<Mode>)
    ensures |Plan(modes)| == |modes|
    ensures forall i :: 0 <= i < |modes| ==>
      Plan(modes)[i] in modes && Plan(modes)[i] == if i == 0 && Debug in modes then Debug else Release
  {
    PlanLength(modes);
    if |Plan(modes)| == 1 {
      forall x: Mode ensures x in modes <==> x == Plan(modes)[0] { assert x == Debug || x == Release; }
      assert modes == {Plan(modes)[0]};
    }
  }

  lemma {:induction false} ExpandLength(rows: seq<Submission>)
    ensures |Expand(rows)| == Asked(rows)
  {
    if rows != [] {
      ExpandLength(rows[..|rows| - 1]);
      PlanExactly(rows[|rows| - 1].modes);
    }
  }

  /** The tasks of one of the submissions stand together, behind those of the submissions before it. */
  lemma {:induction false} ExpandPart(rows: seq<Submission>, j: nat, i: nat)
    requires j < |rows| && Asked(rows[..j]) <= i < Asked(rows[..j + 1])
    ensures i < |Expand(rows)| && i - Asked(rows[..j]) < |Plan(rows[j].modes)|
    ensures Expand(rows)[i] == (rows[j], Plan(rows[j].modes)[i - Asked(rows[..j])])
    decreases |rows|
  {
    var n := |rows| - 1;
    ExpandLength(rows[..n]);
    PlanExactly(rows[j].modes);
    assert rows[..j + 1][..j] == rows[..j];
    if j < n {
      assert rows[..n][..j] == rows[..j] && rows[..n][..j + 1] == rows[..j + 1];
      ExpandPart(rows[..n], j, i);
    } else {
      assert rows[..j] == rows[..n];
    }
  }

  /** Every place among the tasks asked for belongs to one of the submissions. */
  lemma {:induction false} AskedBy(rows: seq<Submission>, i: nat) returns (j: nat)
    requires i < Asked(rows)
    ensures j < |rows| && Asked(rows[..j]) <= i < Asked(rows[..j + 1])
  {
    var n := |rows| - 1;
    if i >= Asked(rows[..n]) {
      j := n;
      assert rows[..j + 1] == rows;
    } else {
      j := AskedBy(rows[..n], i);
      assert rows[..n][..j] == rows[..j] && rows[..n][..j + 1] == rows[..j + 1];
    }
  }

  /** Each submission received becomes one task for each of its modes, in the order of the submissions, the
      Debug one first; while the main thread is not amid a submission, no task is missing. */
  lemma ModesHonoured(c: Config, s: State)
    requires Reachable(c, s)
    ensures forall i :: 0 <= i < |s.mem.pushed| ==> s.mem.pushed[i].mode in s.mem.pushed[i].submission.modes
    ensures forall j, i | 0 <= j < |s.mem.rows| && 0 <= i < |s.mem.pushed| ::
      var sub, before := s.mem.rows[j], Asked(s.mem.rows[..j]);
      before <= i < before + |sub.modes| ==>
        && s.mem.pushed[i].submission == sub
        && s.mem.pushed[i].mode == (if i == before && Debug in sub.modes then Debug else Release)
    ensures |s.mem.pushed| <= Asked(s.mem.rows)
    ensures |s.threads| > 0 && (s.threads[0] in {MPermit, MTry} ==> |s.mem.pushed| == Asked(s.mem.rows))
  {
    hide Run, Plan, Expand, Asked;
    SubmissionsBecomeTasks(c, s);
    ExpandLength(s.mem.rows);
    forall i | 0 <= i < |s.mem.pushed| ensures s.mem.pushed[i].mode in s.mem.pushed[i].submission.modes {
      var j := AskedBy(s.mem.rows, i);
      TaskAt(s.mem, j, i);
    }
    forall j, i | 0 <= j < |s.mem.rows| && 0 <= i < |s.mem.pushed|
      ensures var sub, before := s.mem.rows[j], Asked(s.mem.rows[..j]);
        before <= i < before + |sub.modes| ==>
          && s.mem.pushed[i].submission == sub
          && s.mem.pushed[i].mode == (if i == before && Debug in sub.modes then Debug else Release)
    {
      AskedNext(s.mem.rows, j);
      if Asked(s.mem.rows[..j]) <= i < Asked(s.mem.rows[..j + 1]) { TaskAt(s.mem, j, i); }
    }
  }

  lemma AskedNext(rows: seq<Submission>, j: nat)
    requires j < |rows|
    ensures Asked(rows[..j + 1]) == Asked(rows[..j]) + |rows[j].modes|
  {
    assert rows[..j + 1][..j] == rows[..j];
  }

  lemma TaskAt(m: Memory, j: nat, i: nat)
    requires Origins(m.pushed) <= Expand(m.rows) && i < |m.pushed|
    requires j < |m.rows| && Asked(m.rows[..j]) <= i < Asked(m.rows[..j + 1])
    ensures m.pushed[i].submission == m.rows[j] && m.pushed[i].mode in m.rows[j].modes
    ensures m.pushed[i].mode == if i == Asked(m.rows[..j]) && Debug in m.rows[j].modes then Debug else Release
  {
    hide Plan, Expand, Asked;
    ExpandPart(m.rows, j, i);
    PlanExactly(m.rows[j].modes);
    assert Origins(m.pushed)[i] == Expand(m.rows)[i];
  }

  lemma Multiplicity(xs: seq<Task>, i: nat)
    requires i < |xs| && forall a, b :: 0 <= a < b < |xs| ==> xs[a] != xs[b]
    ensures multiset(xs)[xs[i]] == 1
  {
    var before, after := xs[..i], xs[i + 1..];
    assert xs == before + [xs[i]] + after;
    assert xs[i] !in before && xs[i] !in after;
  }

  /** How often a task has reached a stage. */
  function Times(s: State, task: Task, k: nat): nat { multiset(Reached(s.mem, k))[task] }

  function TimesDone(s: State, task: Task): nat { multiset(s.mem.done)[task] }

  function TimesRunning(s: State, task: Task): nat { Running(Views(s.threads), 0)[task] }

  lemma {:induction false} RunningShrinks(vs: seq<View>, k: nat, task: Task)
    ensures Running(vs, k + 1)[task] <= Running(vs, k)[task]
  {
    if vs != [] { RunningShrinks(vs[1..], k, task); }
  }

  /** Where the task stands: popped or still queued. */
  lemma PoppedOnce(c: Config, s: State, i: nat)
    requires Reachable(c, s) && i < |s.mem.pushed|
    ensures Times(s, s.mem.pushed[i], 0) == if i < |s.mem.popped| then 1 else 0
  {
    FifoDelivery(c, s);
    var task, m := s.mem.pushed[i], s.mem;
    assert m.pushed[..|m.popped|] == m.popped;
    if i < |m.popped| {
      assert m.popped[i] == task;
      Multiplicity(m.popped, i);
    } else {
      assert task !in m.popped;
    }
  }

  lemma TimesSplit(c: Config, s: State, task: Task, k: nat)
    requires Reachable(c, s) && k <= 2
    ensures Times(s, task, k) == TimesDone(s, task) + Running(Views(s.threads), k)[task]
  {
    KnownTasks(c, s, k);
  }

  lemma StagesShrink(c: Config, s: State, task: Task, k: nat)
    requires Reachable(c, s) && 1 <= k <= 2
    ensures TimesDone(s, task) <= Times(s, task, k) <= Times(s, task, k - 1)
  {
    hide Run, Running, Times, TimesDone, Views;
    RunningShrinks(Views(s.threads), k - 1, task);
    TimesSplit(c, s, task, k - 1);
    TimesSplit(c, s, task, k);
  }

  /** A dequeued task is either being run once or done once; a done task had exactly one judge,
      taken and given back once; a queued task has not been run. */
  lemma ExactlyOnce(c: Config, s: State, i: nat)
    requires Reachable(c, s) && i < |s.mem.pushed|
    ensures var task := s.mem.pushed[i];
      && TimesRunning(s, task) + TimesDone(s, task) == (if i < |s.mem.popped| then 1 else 0)
      && TimesDone(s, task) <= Times(s, task, 2) <= Times(s, task, 1) <= Times(s, task, 0) <= 1
  {
    PoppedOnce(c, s, i);
    TimesSplit(c, s, s.mem.pushed[i], 0);
    StagesShrink(c, s, s.mem.pushed[i], 1);
    StagesShrink(c, s, s.mem.pushed[i], 2);
  }

  /** No task is run by two workers. */
  lemma RunByOne(c: Config, s: State, t: nat, u: nat)
    requires Reachable(c, s) && t < u < |s.threads|
    requires ViewOf(s, t).job.Some? && ViewOf(s, u).job.Some?
    ensures ViewOf(s, t).job != ViewOf(s, u).job
  {
    var vs, task := Views(s.threads), ViewOf(s, t).job.value;
    if ViewOf(s, u).job == Some(task) {
      RunningTwice(vs, t, u, task);
      TimesSplit(c, s, task, 0);
      assert task in s.mem.popped;
      var i :| 0 <= i < |s.mem.popped| && s.mem.popped[i] == task;
      FifoDelivery(c, s);
      assert s.mem.pushed[i] == task;
      PoppedOnce(c, s, i);
    }
  }

  /** A judge is held only for a task. */
  lemma HoldersWork(c: Config, s: State, t: nat)
    requires Reachable(c, s) && t < |s.threads| && ViewOf(s, t).judge.Has?
    ensures ViewOf(s, t).job.Some?
  {
    KnownThreads(c, s);
    assert Shaped(Views(s.threads)[t]);
  }

  lemma {:induction false} RunningOnce(vs: seq<View>, t: nat, task: Task)
    requires t < |vs| && vs[t].job == Some(task)
    ensures Running(vs, 0)[task] >= 1
  {
    if t > 0 { RunningOnce(vs[1..], t - 1, task); }
  }

  lemma {:induction false} RunningTwice(vs: seq<View>, t: nat, u: nat, task: Task)
    requires t < u < |vs| && vs[t].job == Some(task) && vs[u].job == Some(task)
    ensures Running(vs, 0)[task] >= 2
  {
    if t == 0 { RunningOnce(vs[1..], u - 1, task); } else { RunningTwice(vs[1..], t - 1, u - 1, task); }
  }
}
