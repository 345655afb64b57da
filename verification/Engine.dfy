/**
 The judging engine: the main thread and `n` workers interleaved, one operation at a time, in any
 order the scheduler likes. Threads are numbered from 0, the main thread.
 */
module Engine {
  import opened Wrappers
  import opened Pools
  import opened Protocol
  import opened Program
  import opened Invariants

  datatype State = State(mem: Memory, threads: seq<Pc>)

  /** Thread `t` performs the operation it is at and is answered `r`. */
  datatype Step = Step(t: nat, r: Resp)

  function Views(threads: seq<Pc>): (vs: seq<View>)
    ensures |vs| == |threads|
  {
    seq(|threads|, i requires 0 <= i < |threads| => ViewAt(threads[i]))
  }

  function Init(c: Config): State {
    State(Start(c), seq(c.n + 1, i => if i == 0 then MPermit else WEnter))
  }

  ghost predicate Can(c: Config, s: State, e: Step) {
    && e.t < |s.threads|
    && Answers(c, s.mem, Views(s.threads), OpAt(s.threads[e.t]), e.r)
  }

  function RouseThread(threads: seq<Pc>, r: Resp): (ts: seq<Pc>)
    ensures |ts| == |threads|
  {
    if r.Woke? && r.who.Some? && r.who.value < |threads| then threads[r.who.value := WWoken] else threads
  }

  function Do(s: State, e: Step): State
    requires e.t < |s.threads|
  {
    var pc := s.threads[e.t];
    State(Effect(s.mem, e.t, OpAt(pc), e.r), RouseThread(s.threads, e.r)[e.t := Next(pc, e.r)])
  }

  /** `es` is a run from `s` to `s'`. */
  ghost predicate Run(c: Config, s: State, es: seq<Step>, s': State)
    decreases |es|
  {
    if es == [] then s == s' else Can(c, s, es[0]) && Run(c, Do(s, es[0]), es[1..], s')
  }

  ghost predicate Reachable(c: Config, s: State) {
    exists es :: Run(c, Init(c), es, s)
  }

  lemma {:induction false} RunAppend(c: Config, s: State, es: seq<Step>, s': State, e: Step)
    requires Run(c, s, es, s') && Can(c, s', e)
    ensures Run(c, s, es + [e], Do(s', e))
    decreases |es|
  {
    if es == [] {
      assert ([e])[1..] == [];
    } else {
      RunAppend(c, Do(s, es[0]), es[1..], s', e);
      assert (es + [e])[1..] == es[1..] + [e];
    }
  }

  lemma ReachableInit(c: Config)
    ensures Reachable(c, Init(c))
  {
    assert Run(c, Init(c), [], Init(c));
  }

  lemma ReachableDo(c: Config, s: State, e: Step)
    requires Reachable(c, s) && Can(c, s, e)
    ensures Reachable(c, Do(s, e))
  {
    var es :| Run(c, Init(c), es, s);
    RunAppend(c, Init(c), es, s, e);
  }

  // ---------- the invariant of the engine ----------

  ghost predicate Good(c: Config, s: State) {
    && |s.threads| == c.n + 1
    && (forall t :: 0 <= t < |s.threads| ==> Sane(s.threads[t]) && (IsMain(s.threads[t]) <==> t == 0))
    && Inv(c, s.mem, Views(s.threads))
  }

  lemma ShapedMain(pc: Pc)
    requires Sane(pc) && IsMain(pc)
    ensures Shaped(ViewAt(pc)) && ViewAt(pc).role.Main?
  {
  }

  lemma ShapedWorker(pc: Pc)
    requires Sane(pc) && !IsMain(pc)
    ensures Shaped(ViewAt(pc)) && ViewAt(pc).role.Worker?
  {
  }

  lemma ViewsThreads(c: Config, threads: seq<Pc>)
    requires |threads| == c.n + 1
    requires forall t :: 0 <= t < |threads| ==> Sane(threads[t]) && (IsMain(threads[t]) <==> t == 0)
    ensures Threads(c, Views(threads))
  {
    forall t | 0 <= t < |threads|
      ensures Shaped(Views(threads)[t]) && (Views(threads)[t].role.Main? <==> t == 0)
    {
      if t == 0 { ShapedMain(threads[t]); } else { ShapedWorker(threads[t]); }
    }
  }

  lemma AsleepAt(pc: Pc)
    requires ViewAt(pc).mood.Asleep?
    ensures pc == WAsleep
  {
  }

  /** Whatever its answer will be, the operation a thread is at is legal there. */
  lemma LegalAt(pc: Pc, r: Resp)
    requires Sane(pc) && Fits(OpAt(pc), r)
    ensures Legal(OpAt(pc), ViewAt(pc))
  {
    var op := OpAt(pc);
    var safe := if op.TryLock? then Flag(false) else if op.Claim? then Handle(Some(0)) else r;
    NextKeeps(pc, safe);
  }

  /** No answer the engine gives is unsound: no null slot, no mutex taken twice. */
  lemma SoundAnswer(c: Config, s: State, e: Step)
    requires Good(c, s) && Can(c, s, e)
    ensures Sound(s.threads[e.t], e.r)
  {
    var pc, vs := s.threads[e.t], Views(s.threads);
    LegalAt(pc, e.r);
    match OpAt(pc)
    case TryLock(x) =>
      assert Owned(s.mem, vs, x);
      assert vs[e.t] == ViewAt(pc);
    case Claim(p, _) =>
      assert Permits(c, s.mem, vs, p) && Exclusive(c, s.mem, vs, p);
      ClaimSucceeds(c, s.mem, vs, e.t, p);
    case _ =>
  }

  lemma ViewsUpdate(threads: seq<Pc>, t: nat, pc: Pc)
    requires t < |threads|
    ensures Views(threads[t := pc]) == Views(threads)[t := ViewAt(pc)]
  {
  }

  lemma ViewsRouse(threads: seq<Pc>, r: Resp)
    requires r.Woke? && r.who.Some? && r.who.value < |threads| ==> threads[r.who.value] == WAsleep
    ensures Views(RouseThread(threads, r)) == Rouse(Views(threads), r)
  {
    if r.Woke? && r.who.Some? && r.who.value < |threads| {
      ViewsUpdate(threads, r.who.value, WWoken);
      assert ViewAt(WWoken) == ViewAt(WAsleep).(mood := Roused);
    }
  }

  /** A signal wakes a thread that sleeps. */
  lemma RousesSleeper(c: Config, s: State, e: Step)
    requires Can(c, s, e)
    ensures e.r.Woke? && e.r.who.Some? ==>
      e.r.who.value < |s.threads| && s.threads[e.r.who.value] == WAsleep && OpAt(s.threads[e.t]).Signal?
  {
    if e.r.Woke? && e.r.who.Some? {
      AsleepAt(s.threads[e.r.who.value]);
    }
  }

  /** Stepping a thread moves its view as the protocol says, and rouses at most one sleeper. */
  lemma ViewsDo(c: Config, s: State, e: Step)
    requires Can(c, s, e) && Keeps(s.threads[e.t], e.r)
    ensures Views(Do(s, e).threads) == ViewsAfter(Views(s.threads), e.t, OpAt(s.threads[e.t]), e.r)
  {
    RousesSleeper(c, s, e);
    ViewsRouse(s.threads, e.r);
    ViewsUpdate(RouseThread(s.threads, e.r), e.t, Next(s.threads[e.t], e.r));
  }

  lemma OthersStay(c: Config, s: State, e: Step)
    requires Can(c, s, e)
    ensures forall u :: 0 <= u < |s.threads| && u != e.t ==>
      Do(s, e).threads[u] == s.threads[u] || (s.threads[u] == WAsleep && Do(s, e).threads[u] == WWoken)
  {
    RousesSleeper(c, s, e);
  }

  lemma StepKeeps(c: Config, s: State, e: Step)
    requires Good(c, s) && Can(c, s, e)
    ensures Good(c, Do(s, e))
  {
    hide ViewAt, OpAt, Next, Inv, Answers, Legal, Effect, ViewAfter;
    var pc, s' := s.threads[e.t], Do(s, e);
    SoundAnswer(c, s, e);
    NextKeeps(pc, e.r);
    ViewsDo(c, s, e);
    OthersStay(c, s, e);
    ViewsThreads(c, s'.threads);
    Keep(c, s.mem, Views(s.threads), e.t, OpAt(pc), e.r);
  }

  lemma InitGood(c: Config)
    ensures Good(c, Init(c))
  {
    Initially(c, Views(Init(c).threads));
  }

  lemma {:induction false} RunKeeps(c: Config, s: State, es: seq<Step>, s': State)
    requires Good(c, s) && Run(c, s, es, s')
    ensures Good(c, s')
    decreases |es|
  {
    if es != [] {
      StepKeeps(c, s, es[0]);
      RunKeeps(c, Do(s, es[0]), es[1..], s');
    }
  }

  /** Every state of every run satisfies the invariant. */
  lemma ReachableGood(c: Config, s: State)
    requires Reachable(c, s)
    ensures Good(c, s)
  {
    InitGood(c);
    var es :| Run(c, Init(c), es, s);
    RunKeeps(c, Init(c), es, s);
  }

  // ---------- the same, one part at a time ----------

  lemma KnownThreads(c: Config, s: State)
    requires Reachable(c, s)
    ensures |s.threads| == c.n + 1 && Threads(c, Views(s.threads))
    ensures forall t :: 0 <= t < |s.threads| ==> Sane(s.threads[t]) && (IsMain(s.threads[t]) <==> t == 0)
  {
    hide Run, ViewAt, Threads, Owned, Permits, Exclusive, Connections, Wakeups, Throttled, Balanced, Cached, Planned, Fifo, Delivered;
    ReachableGood(c, s);
  }

  lemma KnownOwner(c: Config, s: State, x: Mutex)
    requires Reachable(c, s)
    ensures Owned(s.mem, Views(s.threads), x)
  {
    hide Run, ViewAt, Threads, Owned, Permits, Exclusive, Connections, Wakeups, Throttled, Balanced, Cached, Planned, Fifo, Delivered;
    ReachableGood(c, s);
  }

  lemma KnownPool(c: Config, s: State, p: Pool)
    requires Reachable(c, s)
    ensures Permits(c, s.mem, Views(s.threads), p) && Exclusive(c, s.mem, Views(s.threads), p)
  {
    hide Run, ViewAt, Threads, Owned, Permits, Exclusive, Connections, Wakeups, Throttled, Balanced, Cached, Planned, Fifo, Delivered;
    ReachableGood(c, s);
  }

  lemma KnownQueue(c: Config, s: State)
    requires Reachable(c, s)
    ensures Wakeups(s.mem, Views(s.threads)) && Fifo(s.mem) && Planned(s.mem, Views(s.threads))
    ensures Throttled(c, s.mem, Views(s.threads)) && Balanced(c, s.mem, Views(s.threads))
  {
    hide Run, ViewAt, Threads, Owned, Permits, Exclusive, Connections, Wakeups, Throttled, Balanced, Cached, Planned, Fifo, Delivered;
    ReachableGood(c, s);
  }

  lemma KnownTasks(c: Config, s: State, k: nat)
    requires Reachable(c, s) && k <= 2
    ensures Delivered(s.mem, Views(s.threads), k)
  {
    hide Run, ViewAt, Threads, Owned, Permits, Exclusive, Connections, Wakeups, Throttled, Balanced, Cached, Planned, Fifo, Delivered;
    ReachableGood(c, s);
  }

  lemma KnownCache(c: Config, s: State)
    requires Reachable(c, s)
    ensures Cached(s.mem, Views(s.threads)) && Connections(s.mem)
  {
    hide Run, ViewAt, Threads, Owned, Permits, Exclusive, Connections, Wakeups, Throttled, Balanced, Cached, Planned, Fifo, Delivered;
    ReachableGood(c, s);
  }

  /** The operation about to be performed is legal, whatever its answer. */
  lemma KnownLegal(c: Config, s: State, t: nat, r: Resp)
    requires Reachable(c, s) && t < |s.threads| && Fits(OpAt(s.threads[t]), r)
    ensures Legal(OpAt(s.threads[t]), ViewAt(s.threads[t]))
  {
    KnownThreads(c, s);
    LegalAt(s.threads[t], r);
  }

  /** No step leads to a null dereference. */
  lemma KnownSane(c: Config, s: State, t: nat, r: Resp)
    requires Reachable(c, s) && Can(c, s, Step(t, r))
    ensures Sane(s.threads[t]) && Sane(Next(s.threads[t], r))
  {
    ReachableGood(c, s);
    SoundAnswer(c, s, Step(t, r));
    NextKeeps(s.threads[t], r);
  }
}
