/**
 Unfinished tasks get finished in a bounded number of steps. Every step uses up some of the work ahead of
 the threads, except where the environment hands them more: a submission, test cases to fetch, another
 test case to judge, a spurious wakeup. So only the environment can keep the engine busy for ever, and
 when it hands out nothing, the engine stops with nothing left unfinished.
 */
module Completion {
  import opened Wrappers
  import opened Pools
  import opened Protocol
  import opened Program
  import opened Invariants
  import opened Engine
  import opened Safety
  import opened Liveness

  // ---------- the work ahead ----------

  function AcquireWork(a: Acquire): nat {
    match a case Await => 3 case Enter => 2 case Scan => 1 case Leave(_) => 0
  }

  function GiveBackWork(g: GiveBack): nat {
    match g case Reenter(_) => 3 case Clear(_) => 2 case Exit => 1 case Post => 0
  }

  /** The rest of this test case. */
  function FetchWork(f: Fetch): nat {
    match f
    case OuterTry => 6
    case InnerTry(_, second) => if second then 3 else 5
    case InnerEnd(_, _, second) => if second then 2 else 4
    case OuterEnd(_) => 1
  }

  // The steps a test case takes to fetch, and those a queued task takes that finds its problem unfetched.
  const PER_CASE := 6
  const PER_TASK := 29

  /** The main thread's work for tasks still to be added: adding them, running them, waking workers. */
  function DispatchWork(tasks: nat): nat { 6 + (PER_TASK + 6) * tasks }

  /** An upper bound on the steps a thread takes before it waits for something new to do. */
  function Work(pc: Pc): nat {
    match pc
    case MPermit => 5
    case MOpen(a) => 1 + AcquireWork(a)
    case MPoll(_) => 0
    case MDirTry(_, sub) => 6 + DispatchWork(|Plan(sub.modes)|)
    case MDirEnd(_, sub, _) => 5 + DispatchWork(|Plan(sub.modes)|)
    case MClose(g, sub) => 1 + GiveBackWork(g) + DispatchWork(|Plan(sub.modes)|)
    case MEnter(todo, _) => DispatchWork(|todo|)
    case MPush(todo, _) => DispatchWork(|todo|) - 1
    case MLeave(todo, _) => 4 + DispatchWork(|todo|)
    case MSignal(todo, _) => 3 + DispatchWork(|todo|)
    case MTry => DispatchWork(0)
    case WEnter => 2
    case WCheck(_) => 1
    case WAsleep => 0
    case WWoken => 2
    case WLeave(_) => PER_TASK
    case WGet(a, _) => 25 + AcquireWork(a)
    case WFindEnter(_, _) => 24
    case WFind(_, _) => 23
    case WOpen(a, _, _) => 19 + AcquireWork(a)
    case WQuery(_, _, _) => 18
    case WCase(f, _, _, _, _, left) => 17 + PER_CASE * (if left == 0 then 0 else left - 1) + FetchWork(f)
    case WInsTry(_, _, _, _) => 17
    case WIns(_, _, _, _, _) => 16
    case WInsEnd(_, _, _, _) => 15
    case WClose(g, _, _) => 11 + GiveBackWork(g)
    case WRead(_, _) => 10
    case WReadLeave(_, _, _) => 9
    case WRun(_, _, _) => 8
    case WOutTry(_, _, _) => 10
    case WOutEnd(_, _, _, _) => 9
    case WPut(g, _) => 4 + GiveBackWork(g)
    case WRepay(_) => 3
    case Crashed => 0
  }

  function WorkOfAll(threads: seq<Pc>): nat {
    if threads == [] then 0 else Work(threads[0]) + WorkOfAll(threads[1..])
  }

  /** The work ahead of the engine. */
  function Ahead(s: State): nat { PER_TASK * |s.mem.queue| + WorkOfAll(s.threads) }

  /** Work that an answer brings from outside: polling, submissions and their tasks, test cases to fetch or
      to judge, and waking up for nothing. */
  function Gift(op: Op, r: Resp): nat {
    match op
    case Poll => if r.Row? then 7 + DispatchWork(|Plan(r.sub.modes)|) else 1
    case Query(_) => if r.Replied? && r.reply.cases.Some? then PER_CASE * |r.reply.cases.value| else 0
    case Compute => if Took(r) then 3 else 0
    case Sleeping => 3
    case _ => 0
  }

  function GiftOf(s: State, e: Step): nat {
    if e.t < |s.threads| then Gift(OpOf(s, e.t), e.r) else 0
  }

  function Gifts(s: State, es: seq<Step>): nat
    decreases |es|
  {
    if es == [] || es[0].t >= |s.threads| then 0 else GiftOf(s, es[0]) + Gifts(Do(s, es[0]), es[1..])
  }

  // ---------- every step uses up work ----------

  /** The work one thread and the queue have ahead, and a signalled sleeper is about to have. */
  ghost predicate Spends(m: Memory, t: nat, pc: Pc, r: Resp) {
    Work(Next(pc, r)) + PER_TASK * |Effect(m, t, OpAt(pc), r).queue| + (if r.Woke? && r.who.Some? then 2 else 0) + 1
    <= Work(pc) + PER_TASK * |m.queue| + Gift(OpAt(pc), r)
  }

  lemma MainFetchSpends(m: Memory, t: nat, pc: Pc, r: Resp)
    requires Fits(OpAt(pc), r)
    requires pc.MPermit? || pc.MOpen? || pc.MPoll? || pc.MTry?
    ensures Spends(m, t, pc, r)
  {
  }

  lemma MainCloseSpends(m: Memory, t: nat, pc: Pc, r: Resp)
    requires Fits(OpAt(pc), r)
    requires pc.MDirTry? || pc.MDirEnd? || pc.MClose?
    ensures Spends(m, t, pc, r)
  {
  }

  lemma MainAddSpends(m: Memory, t: nat, pc: Pc, r: Resp)
    requires Fits(OpAt(pc), r)
    requires pc.MEnter? || pc.MPush? || pc.MLeave? || pc.MSignal?
    ensures Spends(m, t, pc, r)
  {
  }

  lemma LookSpends(m: Memory, t: nat, pc: Pc, r: Resp)
    requires Fits(OpAt(pc), r)
    requires pc.WEnter? || pc.WCheck? || pc.WAsleep? || pc.WWoken?
    requires OpAt(pc).Check? ==> r == if m.queue == [] then Slept else Got(m.queue[0])
    ensures Spends(m, t, pc, r)
  {
  }

  lemma TakeTaskSpends(m: Memory, t: nat, pc: Pc, r: Resp)
    requires Fits(OpAt(pc), r)
    requires pc.WLeave? || pc.WGet? || pc.WFindEnter?
    ensures Spends(m, t, pc, r)
  {
  }

  lemma FindSpends(m: Memory, t: nat, pc: Pc, r: Resp)
    requires Fits(OpAt(pc), r)
    requires pc.WFind? || pc.WOpen?
    ensures Spends(m, t, pc, r)
  {
  }

  lemma QuerySpends(m: Memory, t: nat, pc: Pc, r: Resp)
    requires Fits(OpAt(pc), r)
    requires pc.WQuery? || pc.WClose?
    ensures Spends(m, t, pc, r)
  {
  }

  lemma CaseSpends(m: Memory, t: nat, pc: Pc, r: Resp)
    requires Fits(OpAt(pc), r)
    requires pc.WCase?
    ensures Spends(m, t, pc, r)
  {
  }

  lemma InsertSpends(m: Memory, t: nat, pc: Pc, r: Resp)
    requires Fits(OpAt(pc), r)
    requires pc.WInsTry? || pc.WIns? || pc.WInsEnd?
    ensures Spends(m, t, pc, r)
  {
  }

  lemma ReadSpends(m: Memory, t: nat, pc: Pc, r: Resp)
    requires Fits(OpAt(pc), r)
    requires pc.WRead? || pc.WReadLeave?
    ensures Spends(m, t, pc, r)
  {
  }

  lemma JudgeSpends(m: Memory, t: nat, pc: Pc, r: Resp)
    requires Fits(OpAt(pc), r)
    requires pc.WRun? || pc.WOutTry? || pc.WOutEnd?
    ensures Spends(m, t, pc, r)
  {
  }

  lemma RepaySpends(m: Memory, t: nat, pc: Pc, r: Resp)
    requires Fits(OpAt(pc), r)
    requires pc.WPut? || pc.WRepay?
    ensures Spends(m, t, pc, r)
  {
  }

  lemma EachSpends(m: Memory, t: nat, pc: Pc, r: Resp)
    requires Fits(OpAt(pc), r)
    requires OpAt(pc).Check? ==> r == if m.queue == [] then Slept else Got(m.queue[0])
    ensures Spends(m, t, pc, r)
  {
    hide Spends, Fits, OpAt;
    if IsMain(pc) {
      if pc.MEnter? || pc.MPush? || pc.MLeave? || pc.MSignal? { MainAddSpends(m, t, pc, r); }
      else if pc.MDirTry? || pc.MDirEnd? || pc.MClose? { MainCloseSpends(m, t, pc, r); }
      else { MainFetchSpends(m, t, pc, r); }
    } else {
      match pc
      case WLeave(_) => TakeTaskSpends(m, t, pc, r);
      case WGet(_, _) => TakeTaskSpends(m, t, pc, r);
      case WFindEnter(_, _) => TakeTaskSpends(m, t, pc, r);
      case WFind(_, _) => FindSpends(m, t, pc, r);
      case WOpen(_, _, _) => FindSpends(m, t, pc, r);
      case WQuery(_, _, _) => QuerySpends(m, t, pc, r);
      case WClose(_, _, _) => QuerySpends(m, t, pc, r);
      case WCase(_, _, _, _, _, _) => CaseSpends(m, t, pc, r);
      case WInsTry(_, _, _, _) => InsertSpends(m, t, pc, r);
      case WIns(_, _, _, _, _) => InsertSpends(m, t, pc, r);
      case WInsEnd(_, _, _, _) => InsertSpends(m, t, pc, r);
      case WRead(_, _) => ReadSpends(m, t, pc, r);
      case WReadLeave(_, _, _) => ReadSpends(m, t, pc, r);
      case WRun(_, _, _) => JudgeSpends(m, t, pc, r);
      case WOutTry(_, _, _) => JudgeSpends(m, t, pc, r);
      case WOutEnd(_, _, _, _) => JudgeSpends(m, t, pc, r);
      case WPut(_, _) => RepaySpends(m, t, pc, r);
      case WRepay(_) => RepaySpends(m, t, pc, r);
      case Crashed => CrashedIsDead(r);
      case _ => LookSpends(m, t, pc, r);
    }
  }

  lemma CrashedIsDead(r: Resp)
    ensures !Fits(OpAt(Crashed), r)
  {
  }

  lemma {:induction false} WorkUpdate(threads: seq<Pc>, t: nat, pc: Pc)
    requires t < |threads|
    ensures WorkOfAll(threads[t := pc]) == WorkOfAll(threads) - Work(threads[t]) + Work(pc)
    ensures Work(threads[t]) <= WorkOfAll(threads)
  {
    if t == 0 {
      assert threads[t := pc][1..] == threads[1..];
    } else {
      assert threads[t := pc][1..] == threads[1..][t - 1 := pc];
      WorkUpdate(threads[1..], t - 1, pc);
    }
  }

  lemma CheckAnswer(c: Config, s: State, e: Step)
    requires Can(c, s, e)
    ensures Fits(OpOf(s, e.t), e.r)
    ensures OpOf(s, e.t).Check? ==> e.r == if s.mem.queue == [] then Slept else Got(s.mem.queue[0])
    ensures e.r.Woke? ==> OpOf(s, e.t).Signal?
  {
  }

  /** A step uses up work, but for what it is given. */
  lemma StepSpends(c: Config, s: State, e: Step)
    requires Can(c, s, e)
    ensures Ahead(Do(s, e)) + 1 <= Ahead(s) + GiftOf(s, e)
  {
    hide Answers, Work, Next, OpAt, Effect, Gift, WorkOfAll;
    var pc, r := s.threads[e.t], e.r;
    CheckAnswer(c, s, e);
    EachSpends(s.mem, e.t, pc, r);
    RousesSleeper(c, s, e);
    WorkUpdate(RouseThread(s.threads, r), e.t, Next(pc, r));
    if r.Woke? && r.who.Some? {
      WorkUpdate(s.threads, r.who.value, WWoken);
      WakeWork();
      if r.who.value == e.t { SleeperSignals(); }
    }
  }

  lemma WakeWork()
    ensures Work(WAsleep) == 0 && Work(WWoken) == 2
  {
  }

  lemma SleeperSignals()
    ensures !OpAt(WAsleep).Signal?
  {
  }

  /** No run is longer than the work ahead at its start and the work given to it on its way. */
  lemma {:induction false} RunBounded(c: Config, s: State, es: seq<Step>, s': State)
    requires Run(c, s, es, s')
    ensures |es| + Ahead(s') <= Ahead(s) + Gifts(s, es)
    decreases |es|
  {
    hide Ahead, GiftOf, Can, Do;
    if es != [] {
      CanWithin(c, s, es[0]);
      StepSpends(c, s, es[0]);
      RunBounded(c, Do(s, es[0]), es[1..], s');
    }
  }

  lemma CanWithin(c: Config, s: State, e: Step)
    requires Can(c, s, e)
    ensures e.t < |s.threads|
  {
  }

  // ---------- nothing is left unfinished ----------

  /** Some step can be taken that is given nothing. */
  ghost predicate GoesOn(c: Config, s: State) {
    exists e :: Can(c, s, e) && GiftOf(s, e) == 0
  }

  /** A thread that moves otherwise than by polling can do so without being given anything. */
  lemma MovesUngiven(c: Config, s: State, t: nat) returns (e: Step)
    requires Moves(c, s, t) && !s.threads[t].MPoll?
    ensures Can(c, s, e) && GiftOf(s, e) == 0
  {
    hide Run;
    ReadyMoves(c, s, t);
    var r := ReadyAnswered(c, s.mem, Views(s.threads), OpOf(s, t));
    e := Step(t, r);
    PollsAt(s.threads[t]);
    OnlySleepersSleep(s.threads[t]);
  }

  lemma PollsAt(pc: Pc)
    ensures OpAt(pc).Poll? <==> pc.MPoll?
  {
  }

  /** To go on ungiven is to go on without waiting for submissions. */
  lemma GoesOnExactly(c: Config, s: State)
    ensures GoesOn(c, s) <==> MovesUnaided(c, s)
  {
    if GoesOn(c, s) {
      var e :| Can(c, s, e) && GiftOf(s, e) == 0;
      PollsAt(s.threads[e.t]);
      OnlySleepersSleep(s.threads[e.t]);
      assert Moves(c, s, e.t);
    }
    if MovesUnaided(c, s) {
      var u: nat :| Moves(c, s, u) && !s.threads[u].MPoll?;
      var e := MovesUngiven(c, s, u);
    }
  }

  /** A run that is given nothing takes no more steps than there is work ahead; where it cannot go on,
      all tasks are finished. */
  lemma QuietRunsFinish(c: Config, s: State, es: seq<Step>, s': State)
    requires Reachable(c, s) && Run(c, s, es, s') && Gifts(s, es) == 0
    ensures |es| <= Ahead(s)
    ensures Supplied(c) && !GoesOn(c, s') ==> Unfinished(s') == 0
  {
    RunBounded(c, s, es, s');
    ReachableRun(c, s, es, s');
    if Supplied(c) && Unfinished(s') > 0 {
      ProgressUnaided(c, s');
      GoesOnExactly(c, s');
    }
  }

  lemma {:induction false} ReachableRun(c: Config, s: State, es: seq<Step>, s': State)
    requires Reachable(c, s) && Run(c, s, es, s')
    ensures Reachable(c, s')
    decreases |es|
  {
    hide Reachable, Can, Do;
    if es != [] {
      CanWithin(c, s, es[0]);
      ReachableDo(c, s, es[0]);
      ReachableRun(c, Do(s, es[0]), es[1..], s');
    }
  }

  /** All tasks can be finished without anything being given. */
  ghost predicate CanFinish(c: Config, s: State) {
    exists es, s' :: Run(c, s, es, s') && Gifts(s, es) == 0 && Unfinished(s') == 0
  }

  lemma {:induction false} Finishes(c: Config, s: State) returns (es: seq<Step>, s': State)
    requires Supplied(c) && Reachable(c, s)
    ensures Run(c, s, es, s') && Gifts(s, es) == 0 && Unfinished(s') == 0
    decreases Ahead(s)
  {
    hide Reachable, Can, Do, Ahead, Unfinished, Supplied, GiftOf;
    if Unfinished(s) == 0 {
      es, s' := [], s;
    } else {
      ProgressUnaided(c, s);
      GoesOnExactly(c, s);
      var e :| Can(c, s, e) && GiftOf(s, e) == 0;
      CanWithin(c, s, e);
      StepSpends(c, s, e);
      ReachableDo(c, s, e);
      var rest, last := Finishes(c, Do(s, e));
      es, s' := [e] + rest, last;
      assert es[1..] == rest;
    }
  }

  /** A state that cannot go on ungiven has to be left as it is. */
  lemma FinishesOnlyByGoingOn(c: Config, s: State)
    requires CanFinish(c, s) && Unfinished(s) > 0
    ensures MovesUnaided(c, s)
  {
    var es, s' :| Run(c, s, es, s') && Gifts(s, es) == 0 && Unfinished(s') == 0;
    assert Can(c, s, es[0]) && GiftOf(s, es[0]) == 0;
    GoesOnExactly(c, s);
  }
}
