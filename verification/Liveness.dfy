/**
 The judging engine never gets stuck: threads wait for one another without a cycle, and some thread can
 always go on without a spurious wakeup. Nor does it wait for new submissions while tasks are unfinished,
 given two connections.
 */
module Liveness {
  import opened Wrappers
  import opened Pools
  import opened Protocol
  import opened Program
  import opened Invariants
  import opened Engine
  import opened Safety

  /** The thread can take a step, and not just by waking up spuriously. */
  ghost predicate Moves(c: Config, s: State, t: nat) {
    && t < |s.threads|
    && s.threads[t] != WAsleep
    && exists r :: Can(c, s, Step(t, r))
  }

  /** Deadlock: whoever is not asleep is blocked. */
  ghost predicate Stuck(c: Config, s: State) {
    forall t :: 0 <= t < |s.threads| ==> !Moves(c, s, t)
  }

  /** The operation would not block. */
  predicate Ready(m: Memory, op: Op) {
    match op
    case TakePermit => m.fetch > 0
    case WaitPool(p) => m.Sem(p) > 0
    case Lock(x) => m.Owner(x).None?
    case Sleeping => false
    case Dead => false
    case _ => true
  }

  lemma ReadyAnswered(c: Config, m: Memory, vs: seq<View>, op: Op) returns (r: Resp)
    requires Ready(m, op)
    ensures Answers(c, m, vs, op, r)
    ensures op.Query? ==> r == Replied(Reply(None, None))
    ensures op.Compute? ==> r == Flag(false)
  {
    match op
    case TryPermit => r := Flag(m.fetch > 0);
    case TryLock(x) => r := Flag(m.Owner(x).None?);
    case Claim(p, _) => r := Handle(Pick(p, m.Slots(p)));
    case Check => r := if m.queue == [] then Slept else Got(m.queue[0]);
    case Signal =>
      if u: nat :| u < |vs| && vs[u].mood.Asleep? { r := Woke(Some(u)); } else { r := Woke(None); }
    case Find(id) => r := Flag(id in m.cache);
    case Query(_) => r := Replied(Reply(None, None));
    case Read(id) => r := Value(Lookup(m.cache, id));
    case Compute => r := Flag(false);
    case _ => r := Done;
  }

  /** A thread moves exactly if its operation would not block. */
  lemma ReadyMoves(c: Config, s: State, t: nat)
    requires t < |s.threads|
    ensures Moves(c, s, t) <==> Ready(s.mem, OpOf(s, t))
  {
    if Ready(s.mem, OpOf(s, t)) {
      var r := ReadyAnswered(c, s.mem, Views(s.threads), OpOf(s, t));
      assert Can(c, s, Step(t, r));
    } else if Moves(c, s, t) {
      var r :| Can(c, s, Step(t, r));
      OnlySleepersSleep(s.threads[t]);
    }
  }

  lemma OnlySleepersSleep(pc: Pc)
    ensures OpAt(pc).Sleeping? <==> pc == WAsleep
  {
  }

  // ---------- who waits for whom ----------

  /** `t` is held up by `u`: `u` owns the mutex it needs, uses the pool that is used up, or is a worker
      by which a fetch permit can come back. */
  ghost predicate WaitsFor(s: State, t: nat, u: nat) {
    && t < |s.threads| && u < |s.threads|
    && match OpOf(s, t)
       case Lock(x) => s.mem.Owner(x) == Some(u)
       case WaitPool(p) => s.mem.Sem(p) == 0 && !ViewOf(s, u).At(p).Out?
       case TakePermit => s.mem.fetch == 0 && MayRepay(s, u)
       case _ => false
  }

  /** A worker that runs a task, or is up and about while tasks are queued. */
  predicate MayRepay(s: State, u: nat) {
    && u < |s.threads| && !IsMain(s.threads[u])
    && (ViewOf(s, u).job.Some? || (s.mem.queue != [] && s.threads[u] != WAsleep))
  }

  /** The order in which the engine's waits are nested, outermost highest. Waiting for a judge never blocks. */
  function Level(op: Op): nat {
    match op
    case TakePermit => 4
    case Lock(x) => if x == JudgeLock then 3 else 1
    case WaitPool(p) => if p == Conns then 2 else 0
    case _ => 0
  }

  lemma InnermostLevel(pc: Pc, m: Memory)
    requires Sane(pc) && (ViewAt(pc).queueLock || ViewAt(pc).connLock)
    ensures Level(OpAt(pc)) == 0 && Ready(m, OpAt(pc)) && !pc.MPoll? && pc != WAsleep
  {
  }

  lemma JudgeOwnerLevel(pc: Pc)
    requires Sane(pc) && ViewAt(pc).judgeLock
    ensures Level(OpAt(pc)) <= 2 && !pc.MPoll? && pc != WAsleep
  {
  }

  lemma ConnUserLevel(pc: Pc)
    requires Sane(pc) && !ViewAt(pc).conn.Out?
    ensures Level(OpAt(pc)) <= 1 && pc != WAsleep
  {
  }

  lemma WorkerLevel(pc: Pc)
    requires !IsMain(pc)
    ensures Level(OpAt(pc)) <= 3 && !pc.MPoll?
    ensures ViewAt(pc).job.Some? ==> pc != WAsleep
  {
  }

  /** Whoever is waited for is awake, and waits, if at all, at a lower level; given two connections, it is
      not the main thread waiting for submissions. */
  lemma WaitsDescend(c: Config, s: State, t: nat, u: nat)
    requires Reachable(c, s) && WaitsFor(s, t, u)
    ensures Level(OpOf(s, u)) < Level(OpOf(s, t))
    ensures s.threads[u] != WAsleep && (c.d >= 2 ==> !s.threads[u].MPoll?)
  {
    hide Run, ViewAt, OpAt;
    KnownThreads(c, s);
    match OpOf(s, t)
    case Lock(x) =>
      MutualExclusion(c, s, x, u);
      if x == JudgeLock { JudgeOwnerLevel(s.threads[u]); } else { InnermostLevel(s.threads[u], s.mem); }
    case WaitPool(Judges) =>
      JudgeWaitNeverBlocks(c, s, t);
    case WaitPool(Conns) =>
      ConnUserLevel(s.threads[u]);
      if c.d >= 2 { ConnWaitNeverBlocks(c, s, t); }
    case TakePermit =>
      WorkerLevel(s.threads[u]);
  }

  /** Each thread waits for the next. */
  ghost predicate Chain(s: State, ts: seq<nat>) {
    |ts| > 0 && forall i :: 0 <= i < |ts| - 1 ==> WaitsFor(s, ts[i], ts[i + 1])
  }

  lemma {:induction false} ChainDescends(c: Config, s: State, ts: seq<nat>, i: nat, k: nat)
    requires Reachable(c, s) && Chain(s, ts) && i < k < |ts|
    ensures ts[i] < |s.threads| && ts[k] < |s.threads|
    ensures Level(OpOf(s, ts[k])) + (k - i) <= Level(OpOf(s, ts[i]))
    decreases k
  {
    hide Run, WaitsFor, OpOf, Level;
    assert WaitsFor(s, ts[k - 1], ts[k]);
    WaitsWithin(s, ts[k - 1], ts[k]);
    WaitsDescend(c, s, ts[k - 1], ts[k]);
    if i < k - 1 { ChainDescends(c, s, ts, i, k - 1); }
  }

  lemma WaitsWithin(s: State, t: nat, u: nat)
    requires WaitsFor(s, t, u)
    ensures t < |s.threads| && u < |s.threads|
  {
  }

  /** The waits-for relation has no cycle: no thread comes twice in a chain, and none is longer than five. */
  lemma NoWaitCycle(c: Config, s: State, ts: seq<nat>)
    requires Reachable(c, s) && Chain(s, ts)
    ensures |ts| <= 5
    ensures forall i, k :: 0 <= i < k < |ts| ==> ts[i] != ts[k]
  {
    hide Run, WaitsFor;
    forall i, k | 0 <= i < k < |ts| ensures ts[i] != ts[k] { ChainDescends(c, s, ts, i, k); }
    if |ts| > 1 { ChainDescends(c, s, ts, 0, |ts| - 1); }
  }

  // ---------- whoever is blocked waits for someone ----------

  /** The owner of the queue lock or of the connection lock is never kept waiting. */
  lemma InnermostOwnerMoves(c: Config, s: State, x: Mutex) returns (u: nat)
    requires Reachable(c, s) && s.mem.Owner(x).Some? && x != JudgeLock
    ensures s.mem.Owner(x) == Some(u) && Moves(c, s, u) && !s.threads[u].MPoll?
  {
    hide Run, ViewAt;
    u := s.mem.Owner(x).value;
    KnownOwner(c, s, x);
    KnownThreads(c, s);
    assert Views(s.threads)[u] == ViewOf(s, u);
    InnermostLevel(s.threads[u], s.mem);
    ReadyMoves(c, s, u);
  }

  /** Blocked at the fetch semaphore, the main thread waits for a worker. */
  lemma RepayerAwaited(c: Config, s: State) returns (u: nat)
    requires Reachable(c, s) && c.n >= 1 && {} !in c.modeSets
    requires |s.threads| > 0 && OpOf(s, 0).TakePermit? && s.mem.fetch == 0
    ensures WaitsFor(s, 0, u)
  {
    hide Run, ViewAt;
    KnownThreads(c, s);
    KnownQueue(c, s);
    KnownLegal(c, s, 0, Done);
    assert Views(s.threads)[0] == ViewOf(s, 0);
    if Threaded(s, Working) > 0 {
      u := CountWitness(Working, Views(s.threads));
      assert Shaped(Views(s.threads)[u]) && Views(s.threads)[u] == ViewOf(s, u);
    } else if t: nat :| 0 < t < |s.threads| && s.threads[t] != WAsleep {
      u := t;
    } else {
      SignalInFlight(c, s);
      assert false;
    }
  }

  /** A thread that cannot go on waits for another, provided there are judges, connections and modes. */
  lemma Awaited(c: Config, s: State, t: nat) returns (u: nat)
    requires Reachable(c, s) && c.d >= 1 && t < |s.threads| && s.threads[t] != WAsleep
    requires OpOf(s, t).TakePermit? ==> c.n >= 1 && {} !in c.modeSets
    requires !Moves(c, s, t)
    ensures WaitsFor(s, t, u)
  {
    hide Run, ViewAt;
    ReadyMoves(c, s, t);
    OnlySleepersSleep(s.threads[t]);
    KnownThreads(c, s);
    match OpOf(s, t)
    case Lock(x) =>
      u := s.mem.Owner(x).value;
      KnownOwner(c, s, x);
    case WaitPool(p) =>
      KnownPool(c, s, p);
      if p == Judges { JudgeWaitNeverBlocks(c, s, t); }
      u := CountWitness(Passing(p), Views(s.threads));
      assert Views(s.threads)[u] == ViewOf(s, u);
    case TakePermit =>
      if !IsMain(s.threads[t]) { WorkerLevel(s.threads[t]); }
      u := RepayerAwaited(c, s);
    case Dead =>
      DeadIsInsane(s.threads[t]);
  }

  lemma DeadIsInsane(pc: Pc)
    requires OpAt(pc).Dead?
    ensures !Sane(pc)
  {
  }

  /** An awake thread is blocked exactly if it waits for some other. */
  lemma BlockedExactly(c: Config, s: State, t: nat)
    requires Reachable(c, s) && c.n >= 1 && c.d >= 1 && {} !in c.modeSets
    requires t < |s.threads| && s.threads[t] != WAsleep
    ensures !Moves(c, s, t) <==> exists u :: WaitsFor(s, t, u)
  {
    ReadyMoves(c, s, t);
    if !Moves(c, s, t) {
      var u := Awaited(c, s, t);
    }
  }

  /** From any awake thread, following who waits for whom ends at a thread that moves. */
  lemma {:induction false} Unblocked(c: Config, s: State, t: nat) returns (ts: seq<nat>)
    requires Reachable(c, s) && c.d >= 1 && t < |s.threads| && s.threads[t] != WAsleep
    requires OpOf(s, t).TakePermit? ==> c.n >= 1 && {} !in c.modeSets
    ensures Chain(s, ts) && ts[0] == t && Moves(c, s, ts[|ts| - 1])
    ensures c.d >= 2 && !s.threads[t].MPoll? ==> !s.threads[ts[|ts| - 1]].MPoll?
    decreases Level(OpOf(s, t))
  {
    hide Run, WaitsFor, OpOf, ViewAt, Moves;
    if Moves(c, s, t) {
      ts := [t];
    } else {
      var u := Awaited(c, s, t);
      WaitsWithin(s, t, u);
      WaitsDescend(c, s, t, u);
      TopLevel(OpOf(s, t), OpOf(s, u));
      var rest := Unblocked(c, s, u);
      ts := [t] + rest;
    }
  }

  lemma TopLevel(op: Op, op': Op)
    requires Level(op') < Level(op)
    ensures !op'.TakePermit?
  {
  }

  /** Whatever the owner of the judge lock waits for, at most two threads away one moves. */
  lemma JudgeOwnerUnblocked(c: Config, s: State) returns (ts: seq<nat>)
    requires Reachable(c, s) && c.d >= 1 && s.mem.judgeOwner.Some?
    ensures Chain(s, ts) && s.mem.judgeOwner == Some(ts[0]) && Moves(c, s, ts[|ts| - 1])
    ensures |ts| <= 3 && (c.d >= 2 ==> !s.threads[ts[|ts| - 1]].MPoll?)
  {
    hide Run, WaitsFor, ViewAt, Moves;
    var u := s.mem.judgeOwner.value;
    KnownOwner(c, s, JudgeLock);
    KnownThreads(c, s);
    assert Views(s.threads)[u] == ViewOf(s, u);
    JudgeOwnerLevel(s.threads[u]);
    ts := Unblocked(c, s, u);
    if |ts| > 1 { ChainDescends(c, s, ts, 0, |ts| - 1); }
  }

  // ---------- no deadlock ----------

  /** While a task is unfinished, a thread moves; not just by polling, if there are two connections. */
  lemma WorkMoves(c: Config, s: State) returns (u: nat)
    requires Reachable(c, s) && c.n >= 1 && c.d >= 1 && Unfinished(s) > 0
    ensures Moves(c, s, u) && (c.d >= 2 ==> !s.threads[u].MPoll?)
  {
    hide Run, ViewAt, Moves;
    KnownThreads(c, s);
    var t := 0;
    if v: nat :| 0 < v < |s.threads| && s.threads[v] != WAsleep {
      t := v;
      WorkerLevel(s.threads[t]);
    } else {
      if Threaded(s, Working) > 0 {
        var v := CountWitness(Working, Views(s.threads));
        assert Shaped(Views(s.threads)[v]);
        WorkerLevel(s.threads[v]);
        assert false;
      }
      SignalInFlight(c, s);
    }
    var ts := Unblocked(c, s, t);
    u := ts[|ts| - 1];
  }

  /** With a judge, a connection, and at least one mode a submission, every reachable state goes on. */
  lemma DeadlockFree(c: Config, s: State)
    requires c.n >= 1 && c.d >= 1 && {} !in c.modeSets
    requires Reachable(c, s)
    ensures !Stuck(c, s)
  {
    KnownThreads(c, s);
    MainAwake(s.threads[0]);
    var ts := Unblocked(c, s, 0);
  }

  lemma MainAwake(pc: Pc)
    requires IsMain(pc)
    ensures pc != WAsleep
  {
  }

  // ---------- progress without new submissions ----------

  /** Some thread other than a main thread waiting for submissions to arrive moves. */
  ghost predicate MovesUnaided(c: Config, s: State) {
    exists u: nat :: Moves(c, s, u) && !s.threads[u].MPoll?
  }

  /** There is a judge, and the main thread does not keep from the workers a connection they need. */
  predicate Supplied(c: Config) {
    c.n >= 1 && (c.d >= 2 || (c.d == 1 && c.n == 1 && BOTH !in c.modeSets))
  }

  lemma PollView(pc: Pc)
    requires pc.MPoll?
    ensures ViewAt(pc).Left() == 1 && IsMain(pc)
  {
  }

  /** Unfinished tasks do not wait for new submissions, given two connections; or given one, if there is a
      single judge and no submission of both modes. */
  lemma ProgressUnaided(c: Config, s: State)
    requires Supplied(c)
    requires Reachable(c, s) && Unfinished(s) > 0
    ensures MovesUnaided(c, s)
  {
    var u := WorkMoves(c, s);
    if s.threads[u].MPoll? {
      // the main thread polls with the only permit there is, so nothing can be unfinished
      PollView(s.threads[u]);
      KnownThreads(c, s);
      assert Views(s.threads)[0].Left() == 1;
      KnownQueue(c, s);
    }
  }
}
