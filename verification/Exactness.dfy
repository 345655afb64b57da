/**
 The conditions under which the engine is deadlock free, throttled, and independent of new submissions
 are not only sufficient but necessary: where one fails, a run is constructed that ends badly.
 */
module Exactness {
  import opened Wrappers
  import opened Pools
  import opened Protocol
  import opened Program
  import opened Invariants
  import opened Engine
  import opened Safety
  import opened Liveness
  import opened Completion

  // ---------- building runs ----------

  /** The state after thread `t` got the answer `r` and memory became `m`. */
  function Moved(s: State, t: nat, r: Resp, m: Memory): State
    requires t < |s.threads|
  {
    State(m, s.threads[t := Next(s.threads[t], r)])
  }

  /** One more step of thread `t`, waking nobody. */
  lemma Fires(c: Config, s: State, t: nat, r: Resp) returns (s': State)
    requires Reachable(c, s) && Can(c, s, Step(t, r)) && (r.Woke? ==> r.who.None?)
    ensures Reachable(c, s')
    ensures s' == Moved(s, t, r, Effect(s.mem, t, OpOf(s, t), r))
  {
    ReachableDo(c, s, Step(t, r));
    s' := Do(s, Step(t, r));
  }

  lemma Locks(c: Config, s: State, t: nat, x: Mutex) returns (s': State)
    requires Reachable(c, s) && t < |s.threads| && OpOf(s, t) == Lock(x) && s.mem.Owner(x).None?
    ensures Reachable(c, s') && s' == Moved(s, t, Done, s.mem.WithOwner(x, Some(t)))
  {
    s' := Fires(c, s, t, Done);
  }

  lemma Unlocks(c: Config, s: State, t: nat, x: Mutex) returns (s': State)
    requires Reachable(c, s) && t < |s.threads| && OpOf(s, t) == Unlock(x)
    ensures Reachable(c, s') && s' == Moved(s, t, Done, s.mem.WithOwner(x, None))
  {
    s' := Fires(c, s, t, Done);
  }

  lemma Waits(c: Config, s: State, t: nat, p: Pool) returns (s': State)
    requires Reachable(c, s) && t < |s.threads| && OpOf(s, t) == WaitPool(p) && s.mem.Sem(p) > 0
    ensures Reachable(c, s') && s' == Moved(s, t, Done, s.mem.WithSem(p, s.mem.Sem(p) - 1))
  {
    s' := Fires(c, s, t, Done);
  }

  lemma Posts(c: Config, s: State, t: nat, p: Pool) returns (s': State)
    requires Reachable(c, s) && t < |s.threads| && OpOf(s, t) == PostPool(p)
    ensures Reachable(c, s') && s' == Moved(s, t, Done, s.mem.WithSem(p, s.mem.Sem(p) + 1))
  {
    s' := Fires(c, s, t, Done);
  }

  lemma Claims(c: Config, s: State, t: nat, p: Pool, job: Option<Task>) returns (s': State, h: nat)
    requires Reachable(c, s) && t < |s.threads| && OpOf(s, t) == Claim(p, job)
    ensures Reachable(c, s') && s' == Moved(s, t, Handle(Some(h)), ClaimEffect(s.mem, p, job))
  {
    KnownLegal(c, s, t, Handle(Some(0)));
    SlotAlwaysFound(c, s, t, p);
    h := Pick(p, s.mem.Slots(p)).value;
    s' := Fires(c, s, t, Handle(Some(h)));
  }

  lemma Frees(c: Config, s: State, t: nat, p: Pool, h: nat, job: Option<Task>) returns (s': State)
    requires Reachable(c, s) && t < |s.threads| && OpOf(s, t) == Op.Free(p, h, job)
    ensures Reachable(c, s') && s' == Moved(s, t, Done, FreeEffect(s.mem, p, h, job))
  {
    s' := Fires(c, s, t, Done);
  }

  /** A submission arrives while the main thread polls. */
  lemma Receives(c: Config, s: State, t: nat, sub: Submission) returns (s': State)
    requires Reachable(c, s) && t < |s.threads| && OpOf(s, t) == Poll && sub.modes in c.modeSets
    ensures Reachable(c, s') && s' == Moved(s, t, Row(sub), s.mem.(rows := s.mem.rows + [sub]))
  {
    s' := Fires(c, s, t, Row(sub));
  }

  lemma TriesLock(c: Config, s: State, t: nat, x: Mutex) returns (s': State)
    requires Reachable(c, s) && t < |s.threads| && OpOf(s, t) == TryLock(x) && s.mem.Owner(x).None?
    ensures Reachable(c, s') && s' == Moved(s, t, Flag(true), s.mem.WithOwner(x, Some(t)))
  {
    s' := Fires(c, s, t, Flag(true));
  }

  /** sem_wait or a successful sem_trywait on the fetch semaphore. */
  lemma Permitted(c: Config, s: State, t: nat) returns (s': State)
    requires Reachable(c, s) && t < |s.threads| && s.threads[t] in {MPermit, MTry} && s.mem.fetch > 0
    ensures Reachable(c, s') && s'.mem == s.mem.(fetch := s.mem.fetch - 1, taken := s.mem.taken + 1)
    ensures s'.threads == s.threads[t := MOpen(Await)]
  {
    s' := Fires(c, s, t, if s.threads[t].MTry? then Flag(true) else Done);
  }

  lemma Refused(c: Config, s: State, t: nat) returns (s': State)
    requires Reachable(c, s) && t < |s.threads| && s.threads[t] == MTry && s.mem.fetch == 0
    ensures Reachable(c, s') && s' == State(s.mem, s.threads[t := MPermit])
  {
    s' := Fires(c, s, t, Flag(false));
  }

  lemma Pushes(c: Config, s: State, t: nat, sub: Submission, mode: Mode) returns (s': State)
    requires Reachable(c, s) && t < |s.threads| && OpOf(s, t) == Push(sub, mode)
    ensures Reachable(c, s')
    ensures var task := NewTask(s.mem, sub, mode);
      s' == Moved(s, t, Done, s.mem.(queue := s.mem.queue + [task], pushed := s.mem.pushed + [task]))
  {
    s' := Fires(c, s, t, Done);
  }

  function NewTask(m: Memory, sub: Submission, mode: Mode): Task { Task(|m.pushed|, sub, mode) }

  ghost predicate NobodyAsleep(s: State) {
    forall t :: 0 <= t < |s.threads| ==> s.threads[t] != WAsleep
  }

  lemma SignalsNobody(c: Config, s: State, t: nat) returns (s': State)
    requires Reachable(c, s) && t < |s.threads| && OpOf(s, t) == Signal && NobodyAsleep(s)
    ensures Reachable(c, s') && s' == Moved(s, t, Woke(None), s.mem)
  {
    forall u | 0 <= u < |s.threads| ensures !Views(s.threads)[u].mood.Asleep? {
      if Views(s.threads)[u].mood.Asleep? { AsleepAt(s.threads[u]); }
    }
    s' := Fires(c, s, t, Woke(None));
  }

  lemma Sleeps(c: Config, s: State, t: nat) returns (s': State)
    requires Reachable(c, s) && t < |s.threads| && OpOf(s, t) == Check && s.mem.queue == []
    ensures Reachable(c, s') && s' == Moved(s, t, Slept, s.mem.(queueOwner := None))
  {
    s' := Fires(c, s, t, Slept);
  }

  lemma Pops(c: Config, s: State, t: nat) returns (s': State)
    requires Reachable(c, s) && t < |s.threads| && OpOf(s, t) == Check && s.mem.queue != []
    ensures Reachable(c, s')
    ensures s' == Moved(s, t, Got(s.mem.queue[0]),
                        s.mem.(queue := s.mem.queue[1..], popped := s.mem.popped + [s.mem.queue[0]]))
  {
    s' := Fires(c, s, t, Got(s.mem.queue[0]));
  }

  lemma Misses(c: Config, s: State, t: nat, id: int) returns (s': State)
    requires Reachable(c, s) && t < |s.threads| && OpOf(s, t) == Find(id) && id !in s.mem.cache
    ensures Reachable(c, s') && s' == Moved(s, t, Flag(false), s.mem)
  {
    s' := Fires(c, s, t, Flag(false));
  }

  /** The states differ in memory only in the connection pool and the submissions received. */
  predicate SameElse(m: Memory, m': Memory) {
    m'.(rows := m.rows, connSem := m.connSem, conns := m.conns, connected := m.connected, peak := m.peak) == m
  }

  /** The main thread gets a free connection. */
  lemma OpensConn(c: Config, s: State) returns (s': State, h: nat)
    requires Reachable(c, s) && |s.threads| > 0 && s.threads[0] == MOpen(Await)
    requires s.mem.connSem > 0 && s.mem.connOwner.None?
    ensures Reachable(c, s') && SameElse(s.mem, s'.mem)
    ensures s'.threads == s.threads[0 := MPoll(h)] && s'.mem.connSem == s.mem.connSem - 1
  {
    hide Run;
    var s1 := Waits(c, s, 0, Conns);
    var s2 := Locks(c, s1, 0, ConnLock);
    var s3, k := Claims(c, s2, 0, Conns, None);
    h := k;
    s' := Unlocks(c, s3, 0, ConnLock);
  }

  /** It finds a submission and gives the connection back. */
  lemma FetchesRow(c: Config, s: State, h: nat, sub: Submission) returns (s': State)
    requires Reachable(c, s) && |s.threads| > 0 && s.threads[0] == MPoll(h)
    requires s.mem.judgeOwner.None? && sub.modes in c.modeSets
    ensures Reachable(c, s') && s'.mem == s.mem.(rows := s.mem.rows + [sub])
    ensures s'.threads == s.threads[0 := MClose(Reenter(h), sub)]
  {
    hide Run;
    var s1 := Receives(c, s, 0, sub);
    var s2 := TriesLock(c, s1, 0, JudgeLock);
    s' := Unlocks(c, s2, 0, JudgeLock);
  }

  lemma ClosesConn(c: Config, s: State, h: nat, sub: Submission) returns (s': State)
    requires Reachable(c, s) && |s.threads| > 0 && s.threads[0] == MClose(Reenter(h), sub)
    requires s.mem.connOwner.None?
    ensures Reachable(c, s') && SameElse(s.mem, s'.mem)
    ensures s'.threads == s.threads[0 := Dispatch(Plan(sub.modes), sub)] && s'.mem.connSem == s.mem.connSem + 1
  {
    hide Run;
    var s1 := Locks(c, s, 0, ConnLock);
    var s2 := Frees(c, s1, 0, Conns, h, None);
    var s3 := Unlocks(c, s2, 0, ConnLock);
    s' := Posts(c, s3, 0, Conns);
  }

  /** A whole fetch_submission_from_db. */
  lemma Fetches(c: Config, s: State, sub: Submission) returns (s': State)
    requires Reachable(c, s) && |s.threads| > 0 && s.threads[0] == MOpen(Await)
    requires s.mem.connSem > 0 && s.mem.connOwner.None? && s.mem.judgeOwner.None? && sub.modes in c.modeSets
    ensures Reachable(c, s') && SameElse(s.mem, s'.mem) && s'.mem.connSem == s.mem.connSem
    ensures s'.threads == s.threads[0 := Dispatch(Plan(sub.modes), sub)]
  {
    hide Run;
    var s1, h := OpensConn(c, s);
    var s2 := FetchesRow(c, s1, h, sub);
    s' := ClosesConn(c, s2, h, sub);
  }

  /** add_task up to the signal. */
  lemma Adds(c: Config, s: State, todo: seq<Mode>, sub: Submission) returns (s': State)
    requires Reachable(c, s) && |s.threads| > 0 && todo != [] && s.threads[0] == MEnter(todo, sub)
    requires s.mem.queueOwner.None?
    ensures Reachable(c, s')
    ensures var task := NewTask(s.mem, sub, todo[0]);
      s'.mem == s.mem.(queue := s.mem.queue + [task], pushed := s.mem.pushed + [task])
    ensures s'.threads == s.threads[0 := MSignal(todo[1..], sub)]
  {
    hide Run;
    var s1 := Locks(c, s, 0, QueueLock);
    var s2 := Pushes(c, s1, 0, sub, todo[0]);
    s' := Unlocks(c, s2, 0, QueueLock);
  }

  /** All modes of a submission are added while nobody sleeps. */
  lemma {:induction false} AddsAll(c: Config, s: State, todo: seq<Mode>, sub: Submission) returns (s': State)
    requires Reachable(c, s) && |s.threads| > 0 && s.threads[0] == Dispatch(todo, sub)
    requires s.mem.queueOwner.None? && (todo == [] || NobodyAsleep(s))
    ensures Reachable(c, s') && s'.threads == s.threads[0 := MTry]
    ensures s'.mem.(queue := s.mem.queue, pushed := s.mem.pushed) == s.mem
    ensures |s'.mem.queue| == |s.mem.queue| + |todo| && s.mem.queue <= s'.mem.queue
    ensures forall i :: |s.mem.queue| <= i < |s'.mem.queue| ==> s'.mem.queue[i].submission == sub
    decreases |todo|
  {
    hide Run;
    if todo == [] {
      s' := s;
      assert s.threads == s.threads[0 := MTry];
    } else {
      var s1 := Adds(c, s, todo, sub);
      var s2 := SignalsNobody(c, s1, 0);
      s' := AddsAll(c, s2, todo[1..], sub);
    }
  }

  // ---------- all workers fall asleep ----------

  /** The first `i` workers asleep, the others not started. */
  function Dozing(c: Config, i: nat): State {
    State(Start(c), seq(c.n + 1, t => if t == 0 then MPermit else if t <= i then WAsleep else WEnter))
  }

  lemma {:induction false} AllDoze(c: Config, i: nat)
    requires i <= c.n
    ensures Reachable(c, Dozing(c, i))
  {
    hide Run;
    if i == 0 {
      ReachableInit(c);
      assert Dozing(c, 0).threads == Init(c).threads;
    } else {
      AllDoze(c, i - 1);
      var s1 := Locks(c, Dozing(c, i - 1), i, QueueLock);
      var s2 := Sleeps(c, s1, i);
      assert s2.threads == Dozing(c, i).threads;
    }
  }

  // ---------- draining the permits ----------

  /** The main thread has taken `k` permits; the submissions before brought `per` tasks each. */
  ghost predicate Paced(c: Config, s: State, ws: seq<Pc>, k: nat, per: nat) {
    && |ws| > 0
    && s.threads == ws[0 := MOpen(Await)]
    && s.mem.fetch + k == c.n
    && k >= 1
    && |s.mem.queue| == (k - 1) * per
    && Unlocked(c, s.mem)
  }

  ghost predicate Unlocked(c: Config, m: Memory) {
    m.queueOwner.None? && m.judgeOwner.None? && m.connOwner.None? && m.connSem == c.d
  }

  /** One submission after another, until `k` permits are taken, no worker taking part. */
  lemma {:induction false} Paces(c: Config, ws: seq<Pc>, sub: Submission, k: nat) returns (s: State)
    requires 1 <= k <= c.n && c.d >= 1 && sub.modes in c.modeSets
    requires Reachable(c, State(Start(c), ws)) && |ws| > 0 && ws[0] == MPermit
    requires sub.modes == {} || forall t :: 0 <= t < |ws| ==> ws[t] != WAsleep
    ensures Reachable(c, s) && Paced(c, s, ws, k, |Plan(sub.modes)|)
  {
    hide Run;
    if k == 1 {
      s := Permitted(c, State(Start(c), ws), 0);
    } else {
      var s0 := Paces(c, ws, sub, k - 1);
      var s1 := PacedRound(c, s0, ws, sub, k - 1);
      s := Permitted(c, s1, 0);
      assert s.threads == ws[0 := MOpen(Await)];
    }
  }

  /** One submission, up to the try for another permit. */
  lemma PacedRound(c: Config, s: State, ws: seq<Pc>, sub: Submission, k: nat) returns (s': State)
    requires Reachable(c, s) && Paced(c, s, ws, k, |Plan(sub.modes)|) && c.d >= 1 && sub.modes in c.modeSets
    requires sub.modes == {} || forall t :: 0 <= t < |ws| ==> ws[t] != WAsleep
    ensures Reachable(c, s') && Unlocked(c, s'.mem) && |ws| > 0 && s'.threads == ws[0 := MTry]
    ensures s'.mem.fetch == s.mem.fetch && |s'.mem.queue| == k * |Plan(sub.modes)|
  {
    hide Run;
    PlanLength(sub.modes);
    var s1 := Fetches(c, s, sub);
    if sub.modes != {} {
      forall t | 0 <= t < |s1.threads| ensures s1.threads[t] != WAsleep { assert t > 0 ==> s1.threads[t] == ws[t]; }
    }
    s' := AddsAll(c, s1, Plan(sub.modes), sub);
    assert s'.threads == ws[0 := MTry];
  }

  // ---------- deadlock ----------

  /** Asleep workers and a main thread that is blocked make a deadlock. */
  lemma StuckBy(c: Config, s: State)
    requires |s.threads| > 0 && !Ready(s.mem, OpOf(s, 0))
    requires forall t :: 0 < t < |s.threads| ==> s.threads[t] == WAsleep
    ensures Stuck(c, s)
  {
    ReadyMoves(c, s, 0);
  }

  /** Without a judge, without a connection, or with a submission of no mode, a deadlock is reachable. */
  lemma DeadlockWitness(c: Config) returns (s: State)
    requires c.n == 0 || c.d == 0 || {} in c.modeSets
    ensures Reachable(c, s) && Stuck(c, s)
  {
    hide Run;
    var ws := Dozing(c, c.n).threads;
    AllDoze(c, c.n);
    s := Dozing(c, c.n);
    if c.n == 0 {
      StuckBy(c, s);
    } else if c.d == 0 {
      s := Permitted(c, s, 0);
      StuckBy(c, s);
    } else {
      var sub := Submission(0, 0, {});
      var s1 := Paces(c, ws, sub, c.n);
      var s2 := PacedRound(c, s1, ws, sub, c.n);
      s := Refused(c, s2, 0);
      StuckBy(c, s);
    }
  }

  /** Deadlock freedom holds exactly with a judge, a connection, and at least one mode a submission. */
  lemma DeadlockFreedomExact(c: Config)
    ensures (forall s :: Reachable(c, s) ==> !Stuck(c, s)) <==> c.n >= 1 && c.d >= 1 && {} !in c.modeSets
  {
    if c.n >= 1 && c.d >= 1 && {} !in c.modeSets {
      forall s | Reachable(c, s) ensures !Stuck(c, s) { DeadlockFree(c, s); }
    } else {
      var s := DeadlockWitness(c);
    }
  }

  // ---------- throttle ----------

  /** Without judges or connections nothing is ever added. */
  ghost predicate Barred(c: Config, s: State) {
    && Good(c, s)
    && s.mem.pushed == []
    && (s.threads[0] == MPermit || (c.n > 0 && s.threads[0] == MOpen(Await)))
  }

  lemma BarredMain(c: Config, s: State, r: Resp)
    requires (c.n == 0 || c.d == 0) && Barred(c, s) && Can(c, s, Step(0, r))
    ensures s.threads[0] == MPermit && c.n > 0
  {
    var vs := Views(s.threads);
    assert Throttled(c, s.mem, vs) && Permits(c, s.mem, vs, Conns);
  }

  lemma PushesAt(pc: Pc)
    ensures OpAt(pc).Push? ==> IsMain(pc)
  {
  }

  lemma PushedGrows(m: Memory, t: nat, op: Op, r: Resp)
    ensures !op.Push? ==> Effect(m, t, op, r).pushed == m.pushed
  {
  }

  lemma BarredDo(c: Config, s: State, e: Step)
    requires (c.n == 0 || c.d == 0) && Barred(c, s) && Can(c, s, e)
    ensures Barred(c, Do(s, e))
  {
    StepKeeps(c, s, e);
    if e.t == 0 { BarredMain(c, s, e.r); }
    OthersStay(c, s, e);
    PushesAt(s.threads[e.t]);
    PushedGrows(s.mem, e.t, OpAt(s.threads[e.t]), e.r);
  }

  lemma {:induction false} BarredRun(c: Config, s: State, es: seq<Step>, s': State)
    requires (c.n == 0 || c.d == 0) && Barred(c, s) && Run(c, s, es, s')
    ensures Barred(c, s')
    decreases |es|
  {
    if es != [] {
      BarredDo(c, s, es[0]);
      BarredRun(c, Do(s, es[0]), es[1..], s');
    }
  }

  lemma NothingAdded(c: Config, s: State)
    requires (c.n == 0 || c.d == 0) && Reachable(c, s)
    ensures s.mem.pushed == []
  {
    InitGood(c);
    var es :| Run(c, Init(c), es, s);
    BarredRun(c, Init(c), es, s);
  }

  /** Two tasks for each permit: twice as many unfinished tasks as judges. */
  lemma OverloadWitness(c: Config) returns (s: State)
    requires c.n >= 1 && c.d >= 1 && BOTH in c.modeSets
    ensures Reachable(c, s) && Unfinished(s) > c.n
  {
    hide Run;
    var sub := Submission(0, 0, BOTH);
    PlanLength(BOTH);
    ReachableInit(c);
    var s1 := Paces(c, Init(c).threads, sub, c.n);
    s := PacedRound(c, s1, Init(c).threads, sub, c.n);
  }

  /** Unfinished tasks never outnumber the judges, exactly when no submission asks for both modes
      (or nothing can be judged at all). */
  lemma ThrottleExact(c: Config)
    ensures (forall s :: Reachable(c, s) ==> Unfinished(s) <= c.n) <==> BOTH !in c.modeSets || c.n == 0 || c.d == 0
  {
    if BOTH !in c.modeSets || c.n == 0 || c.d == 0 {
      forall s | Reachable(c, s) ensures Unfinished(s) <= c.n {
        if BOTH !in c.modeSets {
          ThrottleBound(c, s);
        } else {
          NothingAdded(c, s);
          ThrottleConservation(c, s);
        }
      }
    } else {
      var s := OverloadWitness(c);
    }
  }

  // ---------- progress without new submissions ----------

  /** The memories differ only in the judge pool and its history. */
  predicate SameButJudges(m: Memory, m': Memory) {
    m'.(judgeSem := m.judgeSem, judges := m.judges, granted := m.granted, returned := m.returned) == m
  }

  /** A worker about to look at the queue takes the first task. */
  lemma WorkerPops(c: Config, s: State, t: nat) returns (s': State)
    requires Reachable(c, s) && t < |s.threads| && s.threads[t] in {WWoken, WEnter}
    requires s.mem.queue != [] && s.mem.queueOwner.None?
    ensures Reachable(c, s') && s'.threads == s.threads[t := WGet(Await, s.mem.queue[0])]
    ensures s'.mem == s.mem.(queue := s.mem.queue[1..], popped := s.mem.popped + [s.mem.queue[0]])
  {
    hide Run;
    var s1 := Locks(c, s, t, QueueLock);
    var s2 := Pops(c, s1, t);
    s' := Unlocks(c, s2, t, QueueLock);
  }

  lemma WorkerPassesSem(c: Config, s: State, t: nat, task: Task) returns (s': State)
    requires Reachable(c, s) && t < |s.threads| && s.threads[t] == WGet(Await, task)
    ensures Reachable(c, s') && s'.threads == s.threads[t := WGet(Enter, task)] && SameButJudges(s.mem, s'.mem)
  {
    hide Run;
    JudgeWaitNeverBlocks(c, s, t);
    s' := Waits(c, s, t, Judges);
  }

  lemma WorkerGetsJudge(c: Config, s: State, t: nat, task: Task) returns (s': State, j: nat)
    requires Reachable(c, s) && t < |s.threads| && s.threads[t] == WGet(Await, task)
    requires s.mem.judgeOwner.None?
    ensures Reachable(c, s') && s'.threads == s.threads[t := WFindEnter(task, j)] && SameButJudges(s.mem, s'.mem)
  {
    hide Run;
    var s1 := WorkerPassesSem(c, s, t, task);
    var s2 := Locks(c, s1, t, JudgeLock);
    var s3, k := Claims(c, s2, t, Judges, Some(task));
    j := k;
    s' := Unlocks(c, s3, t, JudgeLock);
  }

  lemma WorkerMisses(c: Config, s: State, t: nat, task: Task, j: nat) returns (s': State)
    requires Reachable(c, s) && t < |s.threads| && s.threads[t] == WFindEnter(task, j)
    requires s.mem.judgeOwner.None? && task.submission.problem !in s.mem.cache
    ensures Reachable(c, s') && s'.threads == s.threads[t := WOpen(Await, task, j)]
    ensures s'.mem == s.mem.(judgeOwner := Some(t))
  {
    hide Run;
    var s1 := Locks(c, s, t, JudgeLock);
    s' := Misses(c, s1, t, task.submission.problem);
  }

  /** The signal wakes sleeper `u`. */
  lemma SignalWakes(c: Config, s: State, u: nat, todo: seq<Mode>, sub: Submission) returns (s': State)
    requires Reachable(c, s) && 0 < u < |s.threads| && s.threads[0] == MSignal(todo, sub) && s.threads[u] == WAsleep
    ensures Reachable(c, s') && s' == State(s.mem, s.threads[u := WWoken][0 := Dispatch(todo, sub)])
  {
    assert Views(s.threads)[u].mood.Asleep?;
    ReachableDo(c, s, Step(0, Woke(Some(u))));
    s' := Do(s, Step(0, Woke(Some(u))));
  }

  // ---------- several judges, one connection ----------

  /** The next task of the submission wakes sleeper `u`, who takes it. */
  lemma HandsTo(c: Config, s: State, u: nat, todo: seq<Mode>, sub: Submission) returns (s': State, task: Task)
    requires Reachable(c, s) && 0 < u < |s.threads| && s.threads[u] == WAsleep
    requires todo != [] && s.threads[0] == MEnter(todo, sub) && s.mem.queue == [] && Unlocked(c, s.mem)
    ensures Reachable(c, s') && s'.threads == s.threads[u := WGet(Await, task)][0 := Dispatch(todo[1..], sub)]
    ensures s'.mem.queue == [] && Unlocked(c, s'.mem)
    ensures s'.mem.fetch == s.mem.fetch && s'.mem.cache == s.mem.cache && task.submission == sub
  {
    hide Run;
    var s1 := Adds(c, s, todo, sub);
    var s2 := SignalWakes(c, s1, u, todo[1..], sub);
    task := s2.mem.queue[0];
    s' := WorkerPops(c, s2, u);
    assert s'.threads == s.threads[u := WGet(Await, task)][0 := Dispatch(todo[1..], sub)];
  }

  /** At work on the first task is worker 1; the others sleep or wait for the judge lock. */
  ghost predicate OneAhead(s: State, task: Task) {
    && |s.threads| > 1 && s.threads[1] == WGet(Await, task)
    && forall t :: 1 < t < |s.threads| ==> s.threads[t] == WAsleep || OpOf(s, t) == Lock(JudgeLock)
  }

  /** All tasks of one submission are handed out, and the main thread is about to try for another permit. */
  lemma HandsOut(c: Config, sub: Submission) returns (s: State, task: Task)
    requires c.n >= 2 && c.d >= 1 && sub.modes != {} && sub.modes in c.modeSets
    ensures Reachable(c, s) && OneAhead(s, task) && s.threads[0] == MTry
    ensures Unlocked(c, s.mem) && s.mem.fetch > 0 && s.mem.cache == map[]
  {
    hide Run;
    PlanLength(sub.modes);
    AllDoze(c, c.n);
    var s0 := Permitted(c, Dozing(c, c.n), 0);
    var s1 := Fetches(c, s0, sub);
    var todo := Plan(sub.modes);
    s, task := HandsTo(c, s1, 1, todo, sub);
    if |todo| == 2 {
      var s2, task2 := HandsTo(c, s, 2, todo[1..], sub);
      s := WorkerPassesSem(c, s2, 2, task2);
    }
  }

  /** The main thread keeps the only connection while it waits for a submission; a worker waits for it. */
  lemma StarvationWitness(c: Config, modes: set<Mode>) returns (s: State)
    requires c.n >= 2 && c.d == 1 && modes != {} && modes in c.modeSets
    ensures Reachable(c, s) && Unfinished(s) > 0 && !MovesUnaided(c, s)
  {
    hide Run;
    var s1, task := HandsOut(c, Submission(0, 0, modes));
    var s2 := Permitted(c, s1, 0);
    var s3, h := OpensConn(c, s2);
    var s4, j := WorkerGetsJudge(c, s3, 1, task);
    s := WorkerMisses(c, s4, 1, task, j);
    Starved(c, s);
  }

  /** Worker 1 waits for a connection under the judge lock, the main thread polls with the last one. */
  lemma Starved(c: Config, s: State)
    requires Reachable(c, s) && |s.threads| > 1 && s.threads[0].MPoll? && s.threads[1].WOpen? && s.threads[1].a == Await
    requires s.mem.connSem == 0 && s.mem.judgeOwner == Some(1)
    requires forall t :: 1 < t < |s.threads| ==> s.threads[t] == WAsleep || OpOf(s, t) == Lock(JudgeLock)
    ensures Unfinished(s) > 0 && !MovesUnaided(c, s)
  {
    hide Run;
    CountMember(Working, Views(s.threads), 1);
    forall u: nat | Moves(c, s, u) ensures s.threads[u].MPoll? {
      ReadyMoves(c, s, u);
    }
  }

  // ---------- one judge, one connection, two tasks a permit ----------

  lemma Hits(c: Config, s: State, t: nat, id: int) returns (s': State)
    requires Reachable(c, s) && t < |s.threads| && OpOf(s, t) == Find(id) && id in s.mem.cache
    ensures Reachable(c, s') && s' == Moved(s, t, Flag(true), s.mem)
  {
    s' := Fires(c, s, t, Flag(true));
  }

  lemma Reads(c: Config, s: State, t: nat, id: int) returns (s': State)
    requires Reachable(c, s) && t < |s.threads| && OpOf(s, t) == Read(id)
    ensures Reachable(c, s')
    ensures var prob := Lookup(s.mem.cache, id);
      s' == Moved(s, t, Value(prob), s.mem.(cache := s.mem.cache[id := prob], served := s.mem.served + [(id, prob)]))
  {
    s' := Fires(c, s, t, Value(Lookup(s.mem.cache, id)));
  }

  /** The query about the problem fails. */
  lemma QueryFails(c: Config, s: State, t: nat, id: int) returns (s': State)
    requires Reachable(c, s) && t < |s.threads| && OpOf(s, t) == Query(id)
    ensures Reachable(c, s')
    ensures s' == Moved(s, t, Replied(Reply(None, None)), s.mem.(fetches := s.mem.fetches + [(id, Reply(None, None))]))
  {
    s' := Fires(c, s, t, Replied(Reply(None, None)));
  }

  /** The memories differ in the connection pool, and in what is known of one problem. */
  predicate SameButProblem(m: Memory, m': Memory, id: int) {
    && m'.(cache := m.cache, fetches := m.fetches, served := m.served,
           connSem := m.connSem, conns := m.conns, connected := m.connected, peak := m.peak) == m
    && m'.connSem == m.connSem
    && m'.cache.Keys == m.cache.Keys + {id}
  }

  lemma WorkerOpens(c: Config, s: State, t: nat, task: Task, j: nat) returns (s': State, h: nat)
    requires Reachable(c, s) && t < |s.threads| && s.threads[t] == WOpen(Await, task, j)
    requires s.mem.connSem > 0 && s.mem.connOwner.None?
    ensures Reachable(c, s') && s'.threads == s.threads[t := WQuery(task, j, h)]
    ensures SameElse(s.mem, s'.mem.(rows := s.mem.rows)) && s'.mem.rows == s.mem.rows
    ensures s'.mem.connSem == s.mem.connSem - 1
  {
    hide Run;
    var s1 := Waits(c, s, t, Conns);
    var s2 := Locks(c, s1, t, ConnLock);
    var s3, k := Claims(c, s2, t, Conns, None);
    h := k;
    s' := Unlocks(c, s3, t, ConnLock);
  }

  lemma WorkerCloses(c: Config, s: State, t: nat, task: Task, j: nat, h: nat) returns (s': State)
    requires Reachable(c, s) && t < |s.threads| && s.threads[t] == WClose(Reenter(h), task, j)
    requires s.mem.connOwner.None?
    ensures Reachable(c, s') && s'.threads == s.threads[t := WRead(task, j)]
    ensures s'.mem == s.mem.(connSem := s.mem.connSem + 1, conns := Freed(s.mem.conns, h))
  {
    hide Run;
    var s1 := Locks(c, s, t, ConnLock);
    var s2 := Frees(c, s1, t, Conns, h, None);
    var s3 := Unlocks(c, s2, t, ConnLock);
    s' := Posts(c, s3, t, Conns);
  }

  /** A worker that missed its problem opens a connection, asks in vain, and closes it. */
  lemma WorkerFetches(c: Config, s: State, t: nat, task: Task, j: nat) returns (s': State)
    requires Reachable(c, s) && t < |s.threads| && s.threads[t] == WOpen(Await, task, j)
    requires s.mem.connSem > 0 && s.mem.connOwner.None?
    ensures Reachable(c, s') && s'.threads == s.threads[t := WRead(task, j)]
    ensures s'.mem.cache == s.mem.cache && s'.mem.connSem == s.mem.connSem
    ensures s'.mem.(fetches := s.mem.fetches,
                    connSem := s.mem.connSem, conns := s.mem.conns, connected := s.mem.connected, peak := s.mem.peak) == s.mem
  {
    hide Run;
    var s1, h := WorkerOpens(c, s, t, task, j);
    var s2 := QueryFails(c, s1, t, task.submission.problem);
    s' := WorkerCloses(c, s2, t, task, j, h);
  }

  lemma WorkerHits(c: Config, s: State, t: nat, task: Task, j: nat) returns (s': State)
    requires Reachable(c, s) && t < |s.threads| && s.threads[t] == WFindEnter(task, j)
    requires s.mem.judgeOwner.None? && task.submission.problem in s.mem.cache
    ensures Reachable(c, s') && s'.threads == s.threads[t := WRead(task, j)]
    ensures s'.mem == s.mem.(judgeOwner := Some(t))
  {
    hide Run;
    var s1 := Locks(c, s, t, JudgeLock);
    s' := Hits(c, s1, t, task.submission.problem);
  }

  lemma WorkerReads(c: Config, s: State, t: nat, task: Task, j: nat) returns (s': State, prob: Problem)
    requires Reachable(c, s) && t < |s.threads| && s.threads[t] == WRead(task, j)
    ensures Reachable(c, s') && s'.threads == s.threads[t := WRun(task, j, prob)]
    ensures var id := task.submission.problem;
      s'.mem == s.mem.(judgeOwner := None, cache := s.mem.cache[id := prob], served := s.mem.served + [(id, prob)])
  {
    hide Run;
    prob := Lookup(s.mem.cache, task.submission.problem);
    var s1 := Reads(c, s, t, task.submission.problem);
    s' := Unlocks(c, s1, t, JudgeLock);
  }

  /** A whole get_problem. */
  lemma WorkerGetsProblem(c: Config, s: State, t: nat, task: Task, j: nat) returns (s': State, prob: Problem)
    requires Reachable(c, s) && t < |s.threads| && s.threads[t] == WFindEnter(task, j)
    requires s.mem.judgeOwner.None? && s.mem.connOwner.None? && s.mem.connSem > 0
    ensures Reachable(c, s') && s'.threads == s.threads[t := WRun(task, j, prob)]
    ensures SameButProblem(s.mem, s'.mem, task.submission.problem)
  {
    hide Run;
    var id := task.submission.problem;
    if id in s.mem.cache {
      var s1 := WorkerHits(c, s, t, task, j);
      s', prob := WorkerReads(c, s1, t, task, j);
    } else {
      var s1 := WorkerMisses(c, s, t, task, j);
      var s2 := WorkerFetches(c, s1, t, task, j);
      s', prob := WorkerReads(c, s2, t, task, j);
    }
  }

  /** No further test case. */
  lemma JudgesIt(c: Config, s: State, t: nat) returns (s': State)
    requires Reachable(c, s) && t < |s.threads| && OpOf(s, t) == Compute
    ensures Reachable(c, s') && s' == Moved(s, t, Flag(false), s.mem)
  {
    s' := Fires(c, s, t, Flag(false));
  }

  lemma Repays(c: Config, s: State, t: nat, task: Task) returns (s': State)
    requires Reachable(c, s) && t < |s.threads| && s.threads[t] == WRepay(task)
    ensures Reachable(c, s') && s'.threads == s.threads[t := WEnter]
    ensures s'.mem == s.mem.(fetch := s.mem.fetch + 1, done := s.mem.done + [task])
  {
    s' := Fires(c, s, t, Done);
  }

  lemma WorkerReturnsJudge(c: Config, s: State, t: nat, task: Task, j: nat) returns (s': State)
    requires Reachable(c, s) && t < |s.threads| && s.threads[t] == WPut(Reenter(j), task)
    requires s.mem.judgeOwner.None?
    ensures Reachable(c, s') && s'.threads == s.threads[t := WRepay(task)] && SameButJudges(s.mem, s'.mem)
  {
    hide Run;
    var s1 := Locks(c, s, t, JudgeLock);
    var s2 := Frees(c, s1, t, Judges, j, Some(task));
    var s3 := Unlocks(c, s2, t, JudgeLock);
    s' := Posts(c, s3, t, Judges);
  }

  /** A worker judges its task, gives back the judge, and returns the permit. */
  lemma WorkerFinishes(c: Config, s: State, t: nat, task: Task, j: nat, prob: Problem) returns (s': State)
    requires Reachable(c, s) && t < |s.threads| && s.threads[t] == WRun(task, j, prob)
    requires s.mem.judgeOwner.None?
    ensures Reachable(c, s') && s'.threads == s.threads[t := WEnter]
    ensures s'.mem.fetch == s.mem.fetch + 1
    ensures SameButJudges(s.mem, s'.mem.(fetch := s.mem.fetch, done := s.mem.done))
  {
    hide Run;
    var s1 := JudgesIt(c, s, t);
    var s2 := WorkerReturnsJudge(c, s1, t, task, j);
    s' := Repays(c, s2, t, task);
  }

  lemma WorkerStarts(c: Config, s: State, t: nat) returns (s': State, j: nat, prob: Problem)
    requires Reachable(c, s) && t < |s.threads| && s.threads[t] == WEnter
    requires s.mem.queue != [] && Unlocked(c, s.mem) && c.d >= 1
    ensures Reachable(c, s') && s'.threads == s.threads[t := WRun(s.mem.queue[0], j, prob)] && Unlocked(c, s'.mem)
    ensures s'.mem.queue == s.mem.queue[1..] && s'.mem.fetch == s.mem.fetch
    ensures s'.mem.cache.Keys == s.mem.cache.Keys + {s.mem.queue[0].submission.problem}
  {
    hide Run;
    var task := s.mem.queue[0];
    var s1 := WorkerPops(c, s, t);
    var s2, k := WorkerGetsJudge(c, s1, t, task);
    j := k;
    s', prob := WorkerGetsProblem(c, s2, t, task, j);
  }

  /** A worker alone serves the first task in the queue, from taking it to returning the permit. */
  lemma Serves(c: Config, s: State, t: nat) returns (s': State)
    requires Reachable(c, s) && t < |s.threads| && s.threads[t] == WEnter
    requires s.mem.queue != [] && Unlocked(c, s.mem) && c.d >= 1
    ensures Reachable(c, s') && s'.threads == s.threads && Unlocked(c, s'.mem)
    ensures s'.mem.queue == s.mem.queue[1..] && s'.mem.fetch == s.mem.fetch + 1
    ensures s'.mem.cache.Keys == s.mem.cache.Keys + {s.mem.queue[0].submission.problem}
  {
    hide Run;
    var task := s.mem.queue[0];
    var s1, j, prob := WorkerStarts(c, s, t);
    s' := WorkerFinishes(c, s1, t, task, j, prob);
    assert s'.threads == s.threads;
  }

  /** The main thread takes a permit, and queues both tasks of a submission about the problem. */
  lemma Brings(c: Config, s: State, id: int) returns (s': State)
    requires Reachable(c, s) && |s.threads| > 0 && s.threads[0] in {MPermit, MTry} && NobodyAsleep(s)
    requires s.mem.fetch > 0 && Unlocked(c, s.mem) && c.d >= 1 && BOTH in c.modeSets
    ensures Reachable(c, s') && s'.threads == s.threads[0 := MTry] && Unlocked(c, s'.mem)
    ensures s'.mem.fetch == s.mem.fetch - 1 && s'.mem.cache == s.mem.cache
    ensures |s'.mem.queue| == |s.mem.queue| + 2 && s.mem.queue <= s'.mem.queue
    ensures forall i :: |s.mem.queue| <= i < |s'.mem.queue| ==> s'.mem.queue[i].submission.problem == id
  {
    hide Run;
    PlanLength(BOTH);
    var sub := Submission(id, id, BOTH);
    var s1 := Permitted(c, s, 0);
    var s2 := Fetches(c, s1, sub);
    s' := AddsAll(c, s2, Plan(BOTH), sub);
    assert s'.threads == s.threads[0 := MTry];
  }

  /** With one judge, the permits of one submission's two tasks pay for two more submissions: one whose
      tasks are queued, and one the main thread waits for, keeping the only connection. */
  lemma CrowdWitness(c: Config) returns (s: State)
    requires c.n == 1 && c.d == 1 && BOTH in c.modeSets
    ensures Reachable(c, s) && Unfinished(s) > 0 && !MovesUnaided(c, s)
  {
    hide Run;
    ReachableInit(c);
    var s1 := Brings(c, Init(c), 0);
    var s2 := Serves(c, s1, 1);
    var s3 := Brings(c, s2, 1);
    var s4 := Serves(c, s3, 1);
    var s5 := Permitted(c, s4, 0);
    var s6, h := OpensConn(c, s5);
    var task := s6.mem.queue[0];
    var s7 := WorkerPops(c, s6, 1);
    var s8, j := WorkerGetsJudge(c, s7, 1, task);
    s := WorkerMisses(c, s8, 1, task, j);
    Starved(c, s);
  }

  // ---------- nothing to do ----------

  lemma {:induction false} RowsKnown(c: Config, s: State, es: seq<Step>, s': State)
    requires Run(c, s, es, s')
    requires forall i :: 0 <= i < |s.mem.rows| ==> s.mem.rows[i].modes in c.modeSets
    ensures forall i :: 0 <= i < |s'.mem.rows| ==> s'.mem.rows[i].modes in c.modeSets
    decreases |es|
  {
    if es != [] {
      RowsGrow(c, s.mem, Views(s.threads), es[0].t, OpAt(s.threads[es[0].t]), es[0].r);
      RowsKnown(c, Do(s, es[0]), es[1..], s');
    }
  }

  lemma RowsGrow(c: Config, m: Memory, vs: seq<View>, t: nat, op: Op, r: Resp)
    requires Answers(c, m, vs, op, r)
    ensures Effect(m, t, op, r).rows == m.rows ||
      (r.Row? && Effect(m, t, op, r).rows == m.rows + [r.sub] && r.sub.modes in c.modeSets)
  {
  }

  lemma {:induction false} ExpandsToNothing(rows: seq<Submission>)
    requires forall i :: 0 <= i < |rows| ==> rows[i].modes == {}
    ensures Expand(rows) == []
    decreases |rows|
  {
    if rows != [] {
      ExpandsToNothing(rows[..|rows| - 1]);
      PlanLength(rows[|rows| - 1].modes);
    }
  }

  /** No submission asks for anything. */
  predicate Modeless(c: Config) { forall modes :: modes in c.modeSets ==> modes == {} }

  lemma ModelessAddsNothing(c: Config, s: State)
    requires Modeless(c) && Reachable(c, s)
    ensures s.mem.pushed == []
  {
    var es :| Run(c, Init(c), es, s);
    RowsKnown(c, Init(c), es, s);
    ExpandsToNothing(s.mem.rows);
    SubmissionsBecomeTasks(c, s);
    assert |Origins(s.mem.pushed)| == 0;
  }

  lemma NothingUnfinished(c: Config, s: State)
    requires Reachable(c, s) && s.mem.pushed == []
    ensures Unfinished(s) == 0
  {
    KnownQueue(c, s);
    KnownTasks(c, s, 0);
    if Threaded(s, Working) > 0 {
      var t := CountWitness(Working, Views(s.threads));
      RunningOnce(Views(s.threads), t, Views(s.threads)[t].job.value);
    }
  }

  // ---------- the condition ----------

  /** Nothing can be judged, or there are connections enough, or a single judge's tasks come one a permit. */
  predicate SelfReliant(c: Config) {
    c.n == 0 || c.d == 0 || Modeless(c) || c.d >= 2 || (c.n == 1 && BOTH !in c.modeSets)
  }

  lemma IdleOrSupplied(c: Config, s: State)
    requires SelfReliant(c) && Reachable(c, s) && Unfinished(s) > 0
    ensures Supplied(c)
  {
    if c.n == 0 || c.d == 0 {
      NothingAdded(c, s);
      NothingUnfinished(c, s);
    } else if Modeless(c) {
      ModelessAddsNothing(c, s);
      NothingUnfinished(c, s);
    }
  }

  lemma DependenceWitness(c: Config) returns (s: State)
    requires !SelfReliant(c)
    ensures Reachable(c, s) && Unfinished(s) > 0 && !MovesUnaided(c, s)
  {
    if c.n == 1 {
      s := CrowdWitness(c);
    } else {
      var modes :| modes in c.modeSets && modes != {};
      s := StarvationWitness(c, modes);
    }
  }

  /** Unfinished tasks never depend on new submissions arriving, exactly under the condition. */
  lemma ProgressExact(c: Config)
    ensures (forall s :: Reachable(c, s) && Unfinished(s) > 0 ==> MovesUnaided(c, s)) <==> SelfReliant(c)
  {
    if SelfReliant(c) {
      forall s | Reachable(c, s) && Unfinished(s) > 0 ensures MovesUnaided(c, s) {
        IdleOrSupplied(c, s);
        ProgressUnaided(c, s);
      }
    } else {
      var s := DependenceWitness(c);
    }
  }

  /** Under the same condition, and no other, all tasks can be finished from every state without anything
      more being given: no submission, no further test case, no spurious wakeup. */
  lemma CompletionExact(c: Config)
    ensures (forall s :: Reachable(c, s) ==> CanFinish(c, s)) <==> SelfReliant(c)
  {
    if SelfReliant(c) {
      forall s | Reachable(c, s) ensures CanFinish(c, s) {
        if Unfinished(s) == 0 {
          assert Run(c, s, [], s) && Gifts(s, []) == 0;
        } else {
          IdleOrSupplied(c, s);
          var es, s' := Finishes(c, s);
        }
      }
    } else {
      var s := DependenceWitness(c);
      if CanFinish(c, s) { FinishesOnlyByGoingOn(c, s); }
    }
  }
}
