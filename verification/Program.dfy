/**
 The code of the judging threads as control-flow graphs: the main thread's `loop_routine` and the
 workers' `WorkThread::run`, cut at every semaphore, mutex, condition-variable and shared-table
 operation. `OpAt` names the operation a thread is about to perform, `Next` where it goes after the
 operation answered `r`. What an operation does to shared memory is in module Protocol.

 `ViewAt` says what a thread holds at each point (mutexes, permits, slots, a task, a problem); the
 lemmas at the end show that the control flow keeps this in step with its operations.
 */
module Program {
  import opened Wrappers
  import opened Pools
  import opened Protocol

  /** Inside `get_judge` or `get_available_connection`: semaphore, mutex, scan, unlock. */
  datatype Acquire = Await | Enter | Scan | Leave(h: nat)
  /** Inside `release_judge` or `release_connection`: mutex, scan, unlock, post. */
  datatype GiveBack = Reenter(h: nat) | Clear(h: nat) | Exit | Post
  /** Inside `fetch_testcase_from_ftp`: `outer`, `inner` record that its trylocks took the lock. */
  datatype Fetch =
    | OuterTry
    | InnerTry(outer: bool, second: bool)
    | InnerEnd(outer: bool, inner: bool, second: bool)
    | OuterEnd(outer: bool)

  // Line numbers are those of src/judge.cpp unless another file is named.
  datatype Pc =
    // loop_routine: 214-253
    | MPermit                                              // sem_wait, 216 and 248
    | MOpen(a: Acquire)                                    // get_available_connection, 283
    | MPoll(h: nat)                                        // the query, or its sleep: 289-340
    | MDirTry(h: nat, sub: Submission)                     // get_src_dir: 687
    | MDirEnd(h: nat, sub: Submission, locked: bool)       // 701-703
    | MClose(g: GiveBack, sub: Submission)                 // release_connection, 342
    | MEnter(todo: seq<Mode>, sub: Submission)             // add_task: src/threadpool.cpp:122
    | MPush(todo: seq<Mode>, sub: Submission)              // src/threadpool.cpp:123
    | MLeave(todo: seq<Mode>, sub: Submission)             // src/threadpool.cpp:124
    | MSignal(todo: seq<Mode>, sub: Submission)            // src/threadpool.cpp:125
    | MTry                                                 // sem_trywait, 241
    // get_task: src/threadpool.cpp:98-117
    | WEnter                                               // src/threadpool.cpp:101
    | WCheck(rechecking: bool)                             // test, wait or pop: src/threadpool.cpp:103-113
    | WAsleep
    | WWoken
    | WLeave(task: Task)                                   // src/threadpool.cpp:115
    // JudgeTask::run: 27-45
    | WGet(a: Acquire, task: Task)                         // get_judge: 495-523
    | WFindEnter(task: Task, j: nat)                       // get_problem: 743
    | WFind(task: Task, j: nat)                            // 744-745
    | WOpen(a: Acquire, task: Task, j: nat)                // fetch_problem_from_db: 567
    | WQuery(task: Task, j: nat, h: nat)                   // both queries: 574-599
    | WCase(f: Fetch, task: Task, j: nat, h: nat, prob: Problem, left: nat) // fetch_testcase_from_ftp: 708-737
    | WInsTry(task: Task, j: nat, h: nat, prob: Problem)   // 618
    | WIns(task: Task, j: nat, h: nat, prob: Problem, locked: bool)         // 619
    | WInsEnd(task: Task, j: nat, h: nat, locked: bool)    // 620-622
    | WClose(g: GiveBack, task: Task, j: nat)              // release_connection, 631
    | WRead(task: Task, j: nat)                            // 753
    | WReadLeave(task: Task, j: nat, prob: Problem)        // 754
    | WRun(task: Task, j: nat, prob: Problem)              // compile, launch, check: src/lang.cpp:465-537
    | WOutTry(task: Task, j: nat, prob: Problem)           // get_output_dir: 640
    | WOutEnd(task: Task, j: nat, prob: Problem, locked: bool)              // 653-655
    | WPut(g: GiveBack, task: Task)                        // release_judge: 525-554
    | WRepay(task: Task)                                   // 555
    // a null judge or connection has been dereferenced
    | Crashed

  // ---------- operations ----------

  function AcquireOp(a: Acquire, p: Pool, job: Option<Task>): Op {
    match a
    case Await => WaitPool(p)
    case Enter => Lock(LockOf(p))
    case Scan => Claim(p, job)
    case Leave(_) => Unlock(LockOf(p))
  }

  function GiveBackOp(g: GiveBack, p: Pool, job: Option<Task>): Op {
    match g
    case Reenter(_) => Lock(LockOf(p))
    case Clear(h) => Free(p, h, job)
    case Exit => Unlock(LockOf(p))
    case Post => PostPool(p)
  }

  function FetchOp(f: Fetch): Op {
    match f
    case OuterTry => TryLock(JudgeLock)
    case InnerTry(_, _) => TryLock(JudgeLock)
    case InnerEnd(_, inner, _) => if inner then Unlock(JudgeLock) else Skip
    case OuterEnd(outer) => if outer then Unlock(JudgeLock) else Skip
  }

  function OpAt(pc: Pc): Op {
    match pc
    case MPermit => TakePermit
    case MOpen(a) => AcquireOp(a, Conns, None)
    case MPoll(_) => Poll
    case MDirTry(_, _) => TryLock(JudgeLock)
    case MDirEnd(_, _, locked) => if locked then Unlock(JudgeLock) else Skip
    case MClose(g, _) => GiveBackOp(g, Conns, None)
    case MEnter(_, _) => Lock(QueueLock)
    case MPush(todo, sub) => if todo == [] then Dead else Push(sub, todo[0])
    case MLeave(_, _) => Unlock(QueueLock)
    case MSignal(_, _) => Signal
    case MTry => TryPermit
    case WEnter => Lock(QueueLock)
    case WCheck(_) => Check
    case WAsleep => Sleeping
    case WWoken => Lock(QueueLock)
    case WLeave(_) => Unlock(QueueLock)
    case WGet(a, task) => AcquireOp(a, Judges, Some(task))
    case WFindEnter(_, _) => Lock(JudgeLock)
    case WFind(task, _) => Find(task.submission.problem)
    case WOpen(a, task, _) => AcquireOp(a, Conns, None)
    case WQuery(task, _, _) => Query(task.submission.problem)
    case WCase(f, _, _, _, _, _) => FetchOp(f)
    case WInsTry(_, _, _, _) => TryLock(JudgeLock)
    case WIns(task, _, _, prob, _) => Insert(task.submission.problem, prob)
    case WInsEnd(_, _, _, locked) => if locked then Unlock(JudgeLock) else Skip
    case WClose(g, _, _) => GiveBackOp(g, Conns, None)
    case WRead(task, _) => Read(task.submission.problem)
    case WReadLeave(_, _, _) => Unlock(JudgeLock)
    case WRun(_, _, _) => Compute
    case WOutTry(_, _, _) => TryLock(JudgeLock)
    case WOutEnd(_, _, _, locked) => if locked then Unlock(JudgeLock) else Skip
    case WPut(g, task) => GiveBackOp(g, Judges, Some(task))
    case WRepay(task) => ReturnPermit(task)
    case Crashed => Dead
  }

  // ---------- control flow ----------

  function Dispatch(todo: seq<Mode>, sub: Submission): Pc {
    if todo == [] then MTry else MEnter(todo, sub)
  }

  function Cases(task: Task, j: nat, h: nat, prob: Problem, left: nat): Pc {
    if left == 0 then WInsTry(task, j, h, prob) else WCase(OuterTry, task, j, h, prob, left)
  }

  function Next(pc: Pc, r: Resp): Pc {
    match pc
    case MPermit => MOpen(Await)
    case MOpen(Await) => MOpen(Enter)
    case MOpen(Enter) => MOpen(Scan)
    case MOpen(Scan) => if r.Handle? && r.h.Some? then MOpen(Leave(r.h.value)) else Crashed
    case MOpen(Leave(h)) => MPoll(h)
    case MPoll(h) => if r.Row? then MDirTry(h, r.sub) else MPoll(h)
    case MDirTry(h, sub) => MDirEnd(h, sub, Took(r))
    case MDirEnd(h, sub, _) => MClose(Reenter(h), sub)
    case MClose(Reenter(h), sub) => MClose(Clear(h), sub)
    case MClose(Clear(_), sub) => MClose(Exit, sub)
    case MClose(Exit, sub) => MClose(Post, sub)
    case MClose(Post, sub) => Dispatch(Plan(sub.modes), sub)
    case MEnter(todo, sub) => MPush(todo, sub)
    case MPush(todo, sub) => MLeave(if todo == [] then [] else todo[1..], sub)
    case MLeave(todo, sub) => MSignal(todo, sub)
    case MSignal(todo, sub) => Dispatch(todo, sub)
    case MTry => if Took(r) then MOpen(Await) else MPermit
    case WEnter => WCheck(false)
    case WCheck(_) => if r.Got? then WLeave(r.task) else WAsleep
    case WAsleep => WWoken
    case WWoken => WCheck(true)
    case WLeave(task) => WGet(Await, task)
    case WGet(Await, task) => WGet(Enter, task)
    case WGet(Enter, task) => WGet(Scan, task)
    case WGet(Scan, task) => if r.Handle? && r.h.Some? then WGet(Leave(r.h.value), task) else Crashed
    case WGet(Leave(j), task) => WFindEnter(task, j)
    case WFindEnter(task, j) => WFind(task, j)
    case WFind(task, j) => if Took(r) then WRead(task, j) else WOpen(Await, task, j)
    case WOpen(Await, task, j) => WOpen(Enter, task, j)
    case WOpen(Enter, task, j) => WOpen(Scan, task, j)
    case WOpen(Scan, task, j) =>
      if r.Handle? && r.h.Some? then WOpen(Leave(r.h.value), task, j) else Crashed
    case WOpen(Leave(h), task, j) => WQuery(task, j, h)
    case WQuery(task, j, h) =>
      if r.Replied? && r.reply.cases.Some? then
        Cases(task, j, h, Problem(r.reply.limits, r.reply.cases.value), |r.reply.cases.value|)
      else
        WClose(Reenter(h), task, j)
    case WCase(OuterTry, task, j, h, prob, left) => WCase(InnerTry(Took(r), false), task, j, h, prob, left)
    case WCase(InnerTry(outer, second), task, j, h, prob, left) =>
      WCase(InnerEnd(outer, Took(r), second), task, j, h, prob, left)
    case WCase(InnerEnd(outer, _, second), task, j, h, prob, left) =>
      WCase(if second then OuterEnd(outer) else InnerTry(outer, true), task, j, h, prob, left)
    case WCase(OuterEnd(_), task, j, h, prob, left) =>
      Cases(task, j, h, prob, if left == 0 then 0 else left - 1)
    case WInsTry(task, j, h, prob) => WIns(task, j, h, prob, Took(r))
    case WIns(task, j, h, _, locked) => WInsEnd(task, j, h, locked)
    case WInsEnd(task, j, h, _) => WClose(Reenter(h), task, j)
    case WClose(Reenter(h), task, j) => WClose(Clear(h), task, j)
    case WClose(Clear(_), task, j) => WClose(Exit, task, j)
    case WClose(Exit, task, j) => WClose(Post, task, j)
    case WClose(Post, task, j) => WRead(task, j)
    case WRead(task, j) => WReadLeave(task, j, if r.Value? then r.prob else BLANK)
    case WReadLeave(task, j, prob) => WRun(task, j, prob)
    case WRun(task, j, prob) => if Took(r) then WOutTry(task, j, prob) else WPut(Reenter(j), task)
    case WOutTry(task, j, prob) => WOutEnd(task, j, prob, Took(r))
    case WOutEnd(task, j, prob, _) => WRun(task, j, prob)
    case WPut(Reenter(j), task) => WPut(Clear(j), task)
    case WPut(Clear(_), task) => WPut(Exit, task)
    case WPut(Exit, task) => WPut(Post, task)
    case WPut(Post, task) => WRepay(task)
    case WRepay(_) => WEnter
    case Crashed => Crashed
  }

  // ---------- what a thread holds at each point ----------

  function AcquireHold(a: Acquire): Hold {
    match a case Await => Out case Enter => In case Scan => In case Leave(h) => Has(h)
  }

  function GiveBackHold(g: GiveBack): Hold {
    match g case Reenter(h) => Has(h) case Clear(h) => Has(h) case Exit => In case Post => In
  }

  predicate InAcquire(a: Acquire) { a.Scan? || a.Leave? }

  predicate InGiveBack(g: GiveBack) { g.Clear? || g.Exit? }

  predicate InGiveBackHeld(g: GiveBack) { g.Reenter? || g.Clear? }

  /** The main thread in fetch_submission_from_db, before and after a submission has come. */
  function Polling(x: Hold, connLock: bool): View {
    View(Main, Awake, false, false, connLock, Out, x, None, 0, None, None, BLANK, None, true, [], false)
  }

  function Received(x: Hold, judgeLock: bool, connLock: bool, sub: Submission): View {
    View(Main, Awake, false, judgeLock, connLock, Out, x, None, 0, None, None, BLANK, None, false, Tasks(sub), false)
  }

  /** The main thread in add_task. */
  function Adding(queueLock: bool, todo: seq<Mode>, sub: Submission, owes: bool): View {
    View(Main, Awake, queueLock, false, false, Out, Out, None, 0, None, None, BLANK, None, false, Pairs(todo, sub), owes)
  }

  /** A worker in get_task. */
  function Seeking(mood: Mood, queueLock: bool, job: Option<Task>): View {
    View(Worker, mood, queueLock, false, false, Out, Out, job, 0, None, None, BLANK, None, false, [], false)
  }

  /** A worker getting or giving back a judge. */
  function Holding(task: Task, judgeLock: bool, x: Hold, stage: nat): View {
    View(Worker, Awake, false, judgeLock, false, x, Out, Some(task), stage, None, None, BLANK, None, false, [], false)
  }

  /** A worker inside get_problem, about a problem that is `missing` or has been `fetched`. */
  function Solving(task: Task, j: nat, x: Hold, connLock: bool, missing: bool, fetched: bool, pending: Problem): View {
    var id := Some(task.submission.problem);
    View(Worker, Awake, false, true, connLock, Has(j), x, Some(task), 1,
         if missing then id else None, if fetched then id else None, pending, None, false, [], false)
  }

  /** A worker using the problem it got. */
  function Solved(task: Task, j: nat, judgeLock: bool, prob: Problem): View {
    View(Worker, Awake, false, judgeLock, false, Has(j), Out, Some(task), 1,
         None, None, BLANK, Some((task.submission.problem, prob)), false, [], false)
  }

  function ViewAt(pc: Pc): View {
    match pc
    case MPermit => Idling(Main)
    case MOpen(a) => Polling(AcquireHold(a), InAcquire(a))
    case MPoll(h) => Polling(Has(h), false)
    case MDirTry(h, sub) => Received(Has(h), false, false, sub)
    case MDirEnd(h, sub, locked) => Received(Has(h), locked, false, sub)
    case MClose(g, sub) => Received(GiveBackHold(g), false, InGiveBack(g), sub)
    case MEnter(todo, sub) => Adding(false, todo, sub, false)
    case MPush(todo, sub) => Adding(true, todo, sub, false)
    case MLeave(todo, sub) => Adding(true, todo, sub, true)
    case MSignal(todo, sub) => Adding(false, todo, sub, true)
    case MTry => Idling(Main)
    case WEnter => Idling(Worker)
    case WCheck(rechecking) => Seeking(if rechecking then Roused else Awake, true, None)
    case WAsleep => Seeking(Asleep, false, None)
    case WWoken => Seeking(Roused, false, None)
    case WLeave(task) => Seeking(Awake, true, Some(task))
    case WGet(a, task) => Holding(task, InAcquire(a), AcquireHold(a), if a.Leave? then 1 else 0)
    case WFindEnter(task, j) => Holding(task, false, Has(j), 1)
    case WFind(task, j) => Solving(task, j, Out, false, false, false, BLANK)
    case WOpen(a, task, j) => Solving(task, j, AcquireHold(a), InAcquire(a), true, false, BLANK)
    case WQuery(task, j, h) => Solving(task, j, Has(h), false, true, false, BLANK)
    case WCase(_, task, j, h, prob, _) => Solving(task, j, Has(h), false, true, true, prob)
    case WInsTry(task, j, h, prob) => Solving(task, j, Has(h), false, true, true, prob)
    case WIns(task, j, h, prob, _) => Solving(task, j, Has(h), false, true, true, prob)
    case WInsEnd(task, j, h, _) => Solving(task, j, Has(h), false, false, true, BLANK)
    case WClose(g, task, j) => Solving(task, j, GiveBackHold(g), InGiveBack(g), false, true, BLANK)
    case WRead(task, j) => Solving(task, j, Out, false, false, true, BLANK)
    case WReadLeave(task, j, prob) => Solved(task, j, true, prob)
    case WRun(task, j, prob) => Solved(task, j, false, prob)
    case WOutTry(task, j, prob) => Solved(task, j, false, prob)
    case WOutEnd(task, j, prob, locked) => Solved(task, j, locked, prob)
    case WPut(g, task) => Holding(task, InGiveBack(g), GiveBackHold(g), if InGiveBackHeld(g) then 1 else 2)
    case WRepay(task) => Holding(task, false, Out, 2)
    case Crashed => Idling(Worker)
  }

  predicate IsMain(pc: Pc) {
    match pc
    case MPermit => true
    case MOpen(_) => true
    case MPoll(_) => true
    case MDirTry(_, _) => true
    case MDirEnd(_, _, _) => true
    case MClose(_, _) => true
    case MEnter(_, _) => true
    case MPush(_, _) => true
    case MLeave(_, _) => true
    case MSignal(_, _) => true
    case MTry => true
    case _ => false
  }

  /** Points the program can really be at: no null handle, no trylock won on a mutex already held. */
  predicate Sane(pc: Pc) {
    match pc
    case Crashed => false
    case MEnter(todo, _) => todo != []
    case MPush(todo, _) => todo != []
    case WCase(InnerTry(outer, _), _, _, _, _, _) => !outer
    case WCase(InnerEnd(outer, inner, _), _, _, _, _, _) => !outer && !inner
    case WCase(OuterEnd(outer), _, _, _, _, _) => !outer
    case WIns(_, _, _, _, locked) => !locked
    case WInsEnd(_, _, _, locked) => !locked
    case _ => true
  }

  // ---------- the control flow keeps the view in step with the operations ----------

  /** The answer fits, does not take a mutex already held, and hands out a slot. */
  predicate Sound(pc: Pc, r: Resp) {
    && Fits(OpAt(pc), r)
    && (OpAt(pc).TryLock? && Took(r) ==> !ViewAt(pc).Locked(OpAt(pc).m))
    && (OpAt(pc).Claim? ==> r.h.Some?)
  }

  ghost predicate Keeps(pc: Pc, r: Resp) {
    && Sane(Next(pc, r))
    && IsMain(Next(pc, r)) == IsMain(pc)
    && Legal(OpAt(pc), ViewAt(pc))
    && ViewAt(Next(pc, r)) == ViewAfter(OpAt(pc), r, ViewAt(pc))
  }

  lemma PermitKeeps(pc: Pc, r: Resp)
    requires pc.MPermit? || pc.MTry?
    requires Sane(pc) && Sound(pc, r)
    ensures Keeps(pc, r)
  {
  }

  lemma PollKeeps(pc: Pc, r: Resp)
    requires pc.MPoll?
    requires Sane(pc) && Sound(pc, r)
    ensures Keeps(pc, r)
  {
  }

  lemma OpenKeeps(pc: Pc, r: Resp)
    requires pc.MOpen?
    requires Sane(pc) && Sound(pc, r)
    ensures Keeps(pc, r)
  {
  }

  lemma DirTryKeeps(pc: Pc, r: Resp)
    requires pc.MDirTry?
    requires Sane(pc) && Sound(pc, r)
    ensures Keeps(pc, r)
  {
  }

  lemma DirEndKeeps(pc: Pc, r: Resp)
    requires pc.MDirEnd?
    requires Sane(pc) && Sound(pc, r)
    ensures Keeps(pc, r)
  {
  }

  lemma CloseKeeps(pc: Pc, r: Resp)
    requires pc.MClose?
    requires Sane(pc) && Sound(pc, r)
    ensures Keeps(pc, r)
  {
  }

  lemma EnterKeeps(pc: Pc, r: Resp)
    requires pc.MEnter?
    requires Sane(pc) && Sound(pc, r)
    ensures Keeps(pc, r)
  {
  }

  lemma PushKeeps(pc: Pc, r: Resp)
    requires pc.MPush?
    requires Sane(pc) && Sound(pc, r)
    ensures Keeps(pc, r)
  {
    assert Pairs(pc.todo, pc.sub)[1..] == Pairs(pc.todo[1..], pc.sub);
  }

  lemma LeaveKeeps(pc: Pc, r: Resp)
    requires pc.MLeave?
    requires Sane(pc) && Sound(pc, r)
    ensures Keeps(pc, r)
  {
  }

  lemma SignalKeeps(pc: Pc, r: Resp)
    requires pc.MSignal?
    requires Sane(pc) && Sound(pc, r)
    ensures Keeps(pc, r)
  {
  }

  lemma GetTaskKeeps(pc: Pc, r: Resp)
    requires pc.WEnter? || pc.WWoken? || pc.WAsleep?
    requires Sane(pc) && Sound(pc, r)
    ensures Keeps(pc, r)
  {
  }

  lemma CheckKeeps(pc: Pc, r: Resp)
    requires pc.WCheck?
    requires Sane(pc) && Sound(pc, r)
    ensures Keeps(pc, r)
  {
  }

  lemma TakeTaskKeeps(pc: Pc, r: Resp)
    requires pc.WLeave?
    requires Sane(pc) && Sound(pc, r)
    ensures Keeps(pc, r)
  {
  }

  lemma GetJudgeKeeps(pc: Pc, r: Resp)
    requires pc.WGet?
    requires Sane(pc) && Sound(pc, r)
    ensures Keeps(pc, r)
  {
  }

  lemma FindEnterKeeps(pc: Pc, r: Resp)
    requires pc.WFindEnter?
    requires Sane(pc) && Sound(pc, r)
    ensures Keeps(pc, r)
  {
  }

  lemma FindKeeps(pc: Pc, r: Resp)
    requires pc.WFind?
    requires Sane(pc) && Sound(pc, r)
    ensures Keeps(pc, r)
  {
  }

  lemma ReadKeeps(pc: Pc, r: Resp)
    requires pc.WRead?
    requires Sane(pc) && Sound(pc, r)
    ensures Keeps(pc, r)
  {
  }

  lemma ReadLeaveKeeps(pc: Pc, r: Resp)
    requires pc.WReadLeave?
    requires Sane(pc) && Sound(pc, r)
    ensures Keeps(pc, r)
  {
  }

  lemma FetchKeeps(pc: Pc, r: Resp)
    requires pc.WOpen?
    requires Sane(pc) && Sound(pc, r)
    ensures Keeps(pc, r)
  {
  }

  lemma QueryKeeps(pc: Pc, r: Resp)
    requires pc.WQuery?
    requires Sane(pc) && Sound(pc, r)
    ensures Keeps(pc, r)
  {
  }

  lemma CaseKeeps(pc: Pc, r: Resp)
    requires pc.WCase?
    requires Sane(pc) && Sound(pc, r)
    ensures Keeps(pc, r)
  {
  }

  lemma InsertTryKeeps(pc: Pc, r: Resp)
    requires pc.WInsTry?
    requires Sane(pc) && Sound(pc, r)
    ensures Keeps(pc, r)
  {
  }

  lemma InsertKeeps(pc: Pc, r: Resp)
    requires pc.WIns?
    requires Sane(pc) && Sound(pc, r)
    ensures Keeps(pc, r)
  {
  }

  lemma InsertEndKeeps(pc: Pc, r: Resp)
    requires pc.WInsEnd?
    requires Sane(pc) && Sound(pc, r)
    ensures Keeps(pc, r)
  {
  }

  lemma ReturnConnKeeps(pc: Pc, r: Resp)
    requires pc.WClose?
    requires Sane(pc) && Sound(pc, r)
    ensures Keeps(pc, r)
  {
  }

  lemma ComputeKeeps(pc: Pc, r: Resp)
    requires pc.WRun?
    requires Sane(pc) && Sound(pc, r)
    ensures Keeps(pc, r)
  {
  }

  lemma OutputTryKeeps(pc: Pc, r: Resp)
    requires pc.WOutTry?
    requires Sane(pc) && Sound(pc, r)
    ensures Keeps(pc, r)
  {
  }

  lemma OutputEndKeeps(pc: Pc, r: Resp)
    requires pc.WOutEnd?
    requires Sane(pc) && Sound(pc, r)
    ensures Keeps(pc, r)
  {
  }

  lemma ReleaseJudgeKeeps(pc: Pc, r: Resp)
    requires pc.WPut?
    requires Sane(pc) && Sound(pc, r)
    ensures Keeps(pc, r)
  {
  }

  lemma RepayKeeps(pc: Pc, r: Resp)
    requires pc.WRepay?
    requires Sane(pc) && Sound(pc, r)
    ensures Keeps(pc, r)
  {
  }

  lemma MainKeeps(pc: Pc, r: Resp)
    requires IsMain(pc) && Sane(pc) && Sound(pc, r)
    ensures Keeps(pc, r)
  {
    hide Keeps, Sound, ViewAt;
    match pc
    case MPermit => PermitKeeps(pc, r);
    case MTry => PermitKeeps(pc, r);
    case MPoll(_) => PollKeeps(pc, r);
    case MOpen(_) => OpenKeeps(pc, r);
    case MDirTry(_, _) => DirTryKeeps(pc, r);
    case MDirEnd(_, _, _) => DirEndKeeps(pc, r);
    case MClose(_, _) => CloseKeeps(pc, r);
    case MEnter(_, _) => EnterKeeps(pc, r);
    case MPush(_, _) => PushKeeps(pc, r);
    case MLeave(_, _) => LeaveKeeps(pc, r);
    case MSignal(_, _) => SignalKeeps(pc, r);
  }

  lemma WorkerKeeps(pc: Pc, r: Resp)
    requires !IsMain(pc) && Sane(pc) && Sound(pc, r)
    ensures Keeps(pc, r)
  {
    hide Keeps, Sound, ViewAt;
    match pc
    case WEnter => GetTaskKeeps(pc, r);
    case WWoken => GetTaskKeeps(pc, r);
    case WAsleep => GetTaskKeeps(pc, r);
    case WCheck(_) => CheckKeeps(pc, r);
    case WLeave(_) => TakeTaskKeeps(pc, r);
    case WGet(_, _) => GetJudgeKeeps(pc, r);
    case WFindEnter(_, _) => FindEnterKeeps(pc, r);
    case WFind(_, _) => FindKeeps(pc, r);
    case WRead(_, _) => ReadKeeps(pc, r);
    case WReadLeave(_, _, _) => ReadLeaveKeeps(pc, r);
    case WOpen(_, _, _) => FetchKeeps(pc, r);
    case WQuery(_, _, _) => QueryKeeps(pc, r);
    case WCase(_, _, _, _, _, _) => CaseKeeps(pc, r);
    case WInsTry(_, _, _, _) => InsertTryKeeps(pc, r);
    case WIns(_, _, _, _, _) => InsertKeeps(pc, r);
    case WInsEnd(_, _, _, _) => InsertEndKeeps(pc, r);
    case WClose(_, _, _) => ReturnConnKeeps(pc, r);
    case WRun(_, _, _) => ComputeKeeps(pc, r);
    case WOutTry(_, _, _) => OutputTryKeeps(pc, r);
    case WOutEnd(_, _, _, _) => OutputEndKeeps(pc, r);
    case WPut(_, _) => ReleaseJudgeKeeps(pc, r);
    case WRepay(_) => RepayKeeps(pc, r);
  }

  /** Every operation is performed only where it is legal, and moves the view as it should. */
  lemma NextKeeps(pc: Pc, r: Resp)
    requires Sane(pc) && Sound(pc, r)
    ensures Keeps(pc, r)
  {
    hide Keeps, Sound, Sane, IsMain;
    if IsMain(pc) { MainKeeps(pc, r); } else { WorkerKeeps(pc, r); }
  }

  // ---------- fetching test cases ----------

  /** The next step of a thread that holds the judge lock already, so that its trylocks fail. */
  function Onward(pc: Pc): Pc { Next(pc, if OpAt(pc).TryLock? then Flag(false) else Done) }

  function After(pc: Pc, n: nat): Pc { if n == 0 then pc else Onward(After(pc, n - 1)) }

  /** The points of fetch_testcase_from_ftp, the two calls of get_testcase_dir inside, in order. */
  function Phase(i: nat): Fetch
    requires i < 6
  {
    [OuterTry, InnerTry(false, false), InnerEnd(false, false, false), InnerTry(false, true),
     InnerEnd(false, false, true), OuterEnd(false)][i]
  }

  lemma PhaseOnward(task: Task, j: nat, h: nat, prob: Problem, left: nat, i: nat)
    requires left > 0 && i < 6
    ensures Onward(WCase(Phase(i), task, j, h, prob, left)) ==
      if i < 5 then WCase(Phase(i + 1), task, j, h, prob, left) else Cases(task, j, h, prob, left - 1)
  {
  }

  lemma {:induction false} CasesAfter(task: Task, j: nat, h: nat, prob: Problem, left: nat, i: nat)
    requires i <= 6 * left
    ensures After(Cases(task, j, h, prob, left), i) ==
      if i == 6 * left then WInsTry(task, j, h, prob) else WCase(Phase(i % 6), task, j, h, prob, left - i / 6)
  {
    hide Onward;
    if i > 0 {
      CasesAfter(task, j, h, prob, left, i - 1);
      PhaseOnward(task, j, h, prob, left - (i - 1) / 6, (i - 1) % 6);
    }
  }

  lemma AfterNext(pc: Pc, n: nat)
    ensures After(pc, n + 1) == Onward(After(pc, n))
  {
  }

  lemma StoreOnward(task: Task, j: nat, h: nat, prob: Problem)
    ensures Onward(WInsTry(task, j, h, prob)) == WIns(task, j, h, prob, false)
    ensures Onward(WIns(task, j, h, prob, false)) == WInsEnd(task, j, h, false)
    ensures Onward(WInsEnd(task, j, h, false)) == WClose(Reenter(h), task, j)
  {
  }

  lemma AnsweredOnward(task: Task, j: nat, h: nat, limits: Option<(nat, nat)>, cases: seq<int>)
    ensures Next(WQuery(task, j, h), Replied(Reply(limits, Some(cases)))) == Cases(task, j, h, Problem(limits, cases), |cases|)
  {
  }

  /** Once the queries have answered, each test case is fetched once, in order, and then the problem is
      stored and the connection given back. */
  lemma EachCaseFetched(task: Task, j: nat, h: nat, limits: Option<(nat, nat)>, cases: seq<int>)
    ensures var start := Next(WQuery(task, j, h), Replied(Reply(limits, Some(cases))));
      && (forall i :: 0 <= i < 6 * |cases| ==>
          After(start, i) == WCase(Phase(i % 6), task, j, h, Problem(limits, cases), |cases| - i / 6))
      && After(start, 6 * |cases|) == WInsTry(task, j, h, Problem(limits, cases))
      && After(start, 6 * |cases| + 1) == WIns(task, j, h, Problem(limits, cases), false)
      && After(start, 6 * |cases| + 2) == WInsEnd(task, j, h, false)
      && After(start, 6 * |cases| + 3) == WClose(Reenter(h), task, j)
  {
    hide After, Phase, Onward, Next, Cases;
    var start, n, prob := Cases(task, j, h, Problem(limits, cases), |cases|), 6 * |cases|, Problem(limits, cases);
    AnsweredOnward(task, j, h, limits, cases);
    forall i | 0 <= i <= n { CasesAfter(task, j, h, prob, |cases|, i); }
    AfterNext(start, n);
    AfterNext(start, n + 1);
    AfterNext(start, n + 2);
    StoreOnward(task, j, h, prob);
  }

  /** get_src_dir and get_output_dir unlock exactly if they got the lock, and the thread goes on as before. */
  lemma DirectoryLookups(h: nat, sub: Submission, task: Task, j: nat, prob: Problem, got: bool)
    ensures var first := Next(MPoll(h), Row(sub));
      var second := Next(first, Flag(got));
      && OpAt(first) == TryLock(JudgeLock) && OpAt(second) == (if got then Unlock(JudgeLock) else Skip)
      && Next(second, Done) == MClose(Reenter(h), sub)
    ensures var first := Next(WRun(task, j, prob), Flag(true));
      var second := Next(first, Flag(got));
      && OpAt(first) == TryLock(JudgeLock) && OpAt(second) == (if got then Unlock(JudgeLock) else Skip)
      && Next(second, Done) == WRun(task, j, prob)
  {
  }
}
