/**
 The operations of the judging threads, what each does to shared memory, and the invariants they keep.

 Nothing here depends on the threads' code. A thread is seen only through its `View`: the mutexes,
 permits, pool slots and task it holds. An operation is `Legal` in some views, moves the view by
 `ViewAfter` and the memory by `Effect`. Each invariant below relates the memory to the views of all
 threads, and each has a lemma that one legal operation keeps it. Module Program shows that the code
 performs only legal operations; module Engine puts the two together.
 */
module Protocol {
  import opened Wrappers
  import opened Pools

  datatype Mode = Release | Debug
  datatype Submission = Submission(id: int, problem: int, modes: set<Mode>)
  // `serial` stands for the identity of the `new JudgeTask` object.
  datatype Task = Task(serial: nat, submission: Submission, mode: Mode)

  // A default-constructed Problem has no limits set and no test cases.
  datatype Problem = Problem(limits: Option<(nat, nat)>, cases: seq<int>)
  const BLANK := Problem(None, [])

  // What the two queries of fetch_problem_from_db answer; None where the query fails.
  datatype Reply = Reply(limits: Option<(nat, nat)>, cases: Option<seq<int>>)

  /** The problem a fetch stores; one that fails leaves a blank one behind. */
  function Stored(reply: Reply): Problem {
    if reply.cases.Some? then Problem(reply.limits, reply.cases.value) else BLANK
  }

  datatype Mutex = QueueLock | JudgeLock | ConnLock

  datatype Op =
    | TakePermit | TryPermit | ReturnPermit(task: Task)
    | WaitPool(p: Pool) | PostPool(p: Pool)
    | Lock(m: Mutex) | TryLock(m: Mutex) | Unlock(m: Mutex)
    | Claim(p: Pool, job: Option<Task>) | Free(p: Pool, h: nat, job: Option<Task>)
    | Poll
    | Push(sub: Submission, mode: Mode) | Signal
    | Check | Sleeping
    | Find(id: int) | Query(id: int) | Insert(id: int, prob: Problem) | Read(id: int)
    | Compute | Skip | Dead

  datatype Resp =
    | Done
    | Flag(b: bool)
    | Handle(h: Option<nat>)
    | Row(sub: Submission)
    | Got(task: Task)
    | Slept
    | Woke(who: Option<nat>)
    | Replied(reply: Reply)
    | Value(prob: Problem)

  function LockOf(p: Pool): Mutex {
    match p case Judges => JudgeLock case Conns => ConnLock
  }

  /** Debug is pushed before Release. */
  function Plan(modes: set<Mode>): seq<Mode> {
    (if Debug in modes then [Debug] else []) + (if Release in modes then [Release] else [])
  }

  /** The tasks still to be made of a submission. */
  function Pairs(todo: seq<Mode>, sub: Submission): seq<(Submission, Mode)> {
    seq(|todo|, i requires 0 <= i < |todo| => (sub, todo[i]))
  }

  function Tasks(sub: Submission): seq<(Submission, Mode)> { Pairs(Plan(sub.modes), sub) }

  function Took(r: Resp): bool { r == Flag(true) }

  // ---------- what a thread holds ----------

  /** Where a thread stands with a pool: not past sem_wait, past it without a slot, or holding one. */
  datatype Hold = Out | In | Has(h: nat)

  datatype Role = Main | Worker

  /** Roused: woken from the condition variable, and the queue not looked at since. */
  datatype Mood = Awake | Asleep | Roused

  /** `stage`: 0 while the task has no judge, 1 while it has one, 2 once the judge is given back.
      `missing`: a problem looked up in vain and not yet inserted; `fetched`: one just fetched or found.
      `pending`: the problem to be inserted; `solved`: the problem got, with its id, while it is in use.
      `expecting`: a permit in hand and no submission yet; `todo`: the tasks to be made of the submission.
      `owes`: a task has been pushed and the condition variable not signalled since. */
  datatype View = View(
    role: Role, mood: Mood,
    queueLock: bool, judgeLock: bool, connLock: bool,
    judge: Hold, conn: Hold,
    job: Option<Task>, stage: nat,
    missing: Option<int>, fetched: Option<int>, pending: Problem, solved: Option<(int, Problem)>,
    expecting: bool, todo: seq<(Submission, Mode)>, owes: bool)
  {
    /** Pushes to come for the permit in hand, one being expected until the submission is known. */
    function Left(): nat { if expecting then 1 else |todo| }

    predicate Locked(m: Mutex) {
      match m case QueueLock => queueLock case JudgeLock => judgeLock case ConnLock => connLock
    }

    function At(p: Pool): Hold {
      match p case Judges => judge case Conns => conn
    }

    /** The running task, once it has reached the given stage. */
    function JobFrom(k: nat): Option<Task> {
      if stage >= k then job else None
    }
  }

  function Idling(role: Role): View {
    View(role, Awake, false, false, false, Out, Out, None, 0, None, None, BLANK, None, false, [], false)
  }

  /** Answers an operation can give; which of them it does give is decided by the engine. */
  predicate Fits(op: Op, r: Resp) {
    match op
    case TryPermit => r.Flag?
    case TryLock(_) => r.Flag?
    case Claim(_, _) => r.Handle?
    case Poll => r.Done? || r.Row?
    case Check => r.Got? || r.Slept?
    case Signal => r.Woke?
    case Find(_) => r.Flag?
    case Query(_) => r.Replied?
    case Read(_) => r.Value?
    case Compute => r.Flag?
    case Dead => false
    case _ => r.Done?
  }

  /** What an operation presumes of the thread performing it. */
  predicate Legal(op: Op, v: View) {
    match op
    case Lock(m) => !v.Locked(m)
    case Unlock(m) => v.Locked(m)
    case WaitPool(p) => v.At(p).Out?
    case PostPool(p) => v.At(p).In?
    case Claim(p, job) =>
      v.At(p).In? && v.Locked(LockOf(p)) && (p.Judges? ==> job.Some? && job == v.job && v.stage == 0)
    case Free(p, h, job) =>
      v.At(p) == Has(h) && v.Locked(LockOf(p)) && (p.Judges? ==> job.Some? && job == v.job && v.stage == 1)
    case ReturnPermit(task) => v.job == Some(task) && v.stage == 2
    case Push(sub, mode) => v.role.Main? && v.queueLock && !v.expecting && v.todo != [] && v.todo[0] == (sub, mode) && !v.owes
    case Signal => v.role.Main? && v.owes
    case Check => v.role.Worker? && v.queueLock && v.job.None?
    case Sleeping => v.mood.Asleep?
    case TakePermit => v.role.Main? && v.Left() == 0
    case TryPermit => v.role.Main? && v.Left() == 0
    case Poll => v.role.Main? && v.expecting && v.todo == []
    case Find(_) => v.judgeLock && v.missing.None? && v.fetched.None?
    case Query(id) => v.missing == Some(id) && v.fetched.None?
    case Insert(id, prob) => v.missing == Some(id) && v.fetched == Some(id) && v.pending == prob
    case Read(id) => v.fetched == Some(id) && v.missing.None? && v.pending == BLANK
    case _ => true
  }

  // How each part of a view changes; what is not mentioned stays.

  function LockAfter(op: Op, r: Resp, held: bool, x: Mutex): bool {
    match op
    case Lock(y) => held || x == y
    case TryLock(y) => held || (x == y && Took(r))
    case Unlock(y) => held && x != y
    case Check => held && (r.Got? || x != QueueLock)
    case _ => held
  }

  function HoldAfter(op: Op, r: Resp, h: Hold, p: Pool): Hold {
    match op
    case WaitPool(q) => if p == q then In else h
    case PostPool(q) => if p == q then Out else h
    case Claim(q, _) => if p == q && r.Handle? && r.h.Some? then Has(r.h.value) else h
    case Free(q, _, _) => if p == q then In else h
    case _ => h
  }

  function JobAfter(op: Op, r: Resp, job: Option<Task>): Option<Task> {
    match op
    case Check => if r.Got? then Some(r.task) else job
    case ReturnPermit(_) => None
    case _ => job
  }

  function StageAfter(op: Op, r: Resp, stage: nat): nat {
    match op
    case Check => if r.Got? then 0 else stage
    case Claim(p, _) => if p.Judges? && r.Handle? && r.h.Some? then 1 else stage
    case Free(p, _, _) => if p.Judges? then 2 else stage
    case ReturnPermit(_) => 0
    case _ => stage
  }

  function MissingAfter(op: Op, r: Resp, missing: Option<int>): Option<int> {
    match op
    case Find(id) => if Took(r) then missing else Some(id)
    case Query(_) => if r.Replied? && r.reply.cases.None? then None else missing
    case Insert(_, _) => None
    case _ => missing
  }

  function FetchedAfter(op: Op, r: Resp, fetched: Option<int>): Option<int> {
    match op
    case Find(id) => if Took(r) then Some(id) else fetched
    case Query(id) => Some(id)
    case Read(_) => None
    case _ => fetched
  }

  function PendingAfter(op: Op, r: Resp, pending: Problem): Problem {
    match op
    case Query(_) => if r.Replied? then Stored(r.reply) else pending
    case Insert(_, _) => BLANK
    case _ => pending
  }

  function SolvedAfter(op: Op, r: Resp, solved: Option<(int, Problem)>): Option<(int, Problem)> {
    match op
    case Read(id) => if r.Value? then Some((id, r.prob)) else solved
    // judging over, the problem is no longer in use
    case Compute => if Took(r) then solved else None
    case _ => solved
  }

  function MoodAfter(op: Op, r: Resp, mood: Mood): Mood {
    match op
    case Check => if r.Got? then Awake else Asleep
    // a sleeping thread acts only by waking up spuriously
    case Sleeping => Roused
    case _ => mood
  }

  function ExpectingAfter(op: Op, r: Resp, expecting: bool): bool {
    match op
    case TakePermit => true
    case TryPermit => expecting || Took(r)
    case Poll => expecting && !r.Row?
    case _ => expecting
  }

  function TodoAfter(op: Op, r: Resp, todo: seq<(Submission, Mode)>): seq<(Submission, Mode)> {
    match op
    case Poll => if r.Row? then Tasks(r.sub) else todo
    case Push(_, _) => if todo == [] then [] else todo[1..]
    case _ => todo
  }

  function OwesAfter(op: Op, owes: bool): bool {
    match op
    case Push(_, _) => true
    case Signal => false
    case _ => owes
  }

  /** The view after an operation answered `r`. */
  function ViewAfter(op: Op, r: Resp, v: View): View {
    View(v.role, MoodAfter(op, r, v.mood),
         LockAfter(op, r, v.queueLock, QueueLock), LockAfter(op, r, v.judgeLock, JudgeLock),
         LockAfter(op, r, v.connLock, ConnLock),
         HoldAfter(op, r, v.judge, Judges), HoldAfter(op, r, v.conn, Conns),
         JobAfter(op, r, v.job), StageAfter(op, r, v.stage),
         MissingAfter(op, r, v.missing), FetchedAfter(op, r, v.fetched), PendingAfter(op, r, v.pending),
         SolvedAfter(op, r, v.solved),
         ExpectingAfter(op, r, v.expecting), TodoAfter(op, r, v.todo), OwesAfter(op, v.owes))
  }

  // ---------- shared memory ----------

  /** `n` judges and workers, `d` database connections, and the mode sets submissions come with. */
  datatype Config = Config(n: nat, d: nat, modeSets: set<set<Mode>>)
  {
    function Cap(p: Pool): nat {
      match p case Judges => n case Conns => d
    }
  }

  /** The fields after `cache` record what has happened; no operation reads them. */
  datatype Memory = Memory(
    fetch: nat, judgeSem: nat, connSem: nat,
    queueOwner: Option<nat>, judgeOwner: Option<nat>, connOwner: Option<nat>,
    queue: seq<Task>,
    judges: seq<Slot>, conns: seq<Slot>,
    cache: map<int, Problem>,
    taken: nat, rows: seq<Submission>,
    pushed: seq<Task>, popped: seq<Task>, granted: seq<Task>, returned: seq<Task>, done: seq<Task>,
    connected: seq<nat>, peak: nat,
    fetches: seq<(int, Reply)>, served: seq<(int, Problem)>)
  {
    function Sem(p: Pool): nat {
      match p case Judges => judgeSem case Conns => connSem
    }

    function WithSem(p: Pool, x: nat): Memory {
      match p case Judges => this.(judgeSem := x) case Conns => this.(connSem := x)
    }

    function Owner(x: Mutex): Option<nat> {
      match x case QueueLock => queueOwner case JudgeLock => judgeOwner case ConnLock => connOwner
    }

    function WithOwner(x: Mutex, o: Option<nat>): Memory {
      match x
      case QueueLock => this.(queueOwner := o)
      case JudgeLock => this.(judgeOwner := o)
      case ConnLock => this.(connOwner := o)
    }

    function Slots(p: Pool): seq<Slot> {
      match p case Judges => judges case Conns => conns
    }
  }

  function Start(c: Config): Memory {
    Memory(c.n, c.n, c.d, None, None, None, [], seq(c.n, _ => Idle), seq(c.d, _ => Unopened), map[],
           0, [], [], [], [], [], [], [], 0, [], [])
  }

  /** Reading an absent problem yields a blank one (and, as `operator[]` does, stores it). */
  function Lookup(cache: map<int, Problem>, id: int): Problem {
    if id in cache then cache[id] else BLANK
  }

  /** The answers the operation can get now; none, when it blocks. */
  ghost predicate Answers(c: Config, m: Memory, vs: seq<View>, op: Op, r: Resp) {
    && Fits(op, r)
    && match op
       case TakePermit => m.fetch > 0
       case TryPermit => r == Flag(m.fetch > 0)
       case WaitPool(p) => m.Sem(p) > 0
       case Lock(x) => m.Owner(x).None?
       case TryLock(x) => r == Flag(m.Owner(x).None?)
       case Claim(p, _) => r == Handle(Pick(p, m.Slots(p)))
       case Poll => r.Row? ==> r.sub.modes in c.modeSets
       case Check => r == if Front(m.queue).None? then Slept else Got(Front(m.queue).value)
       case Signal =>
         if r.who.Some? then r.who.value < |vs| && vs[r.who.value].mood.Asleep?
         else forall u :: 0 <= u < |vs| ==> !vs[u].mood.Asleep?
       case Find(id) => r == Flag(id in m.cache)
       case Read(id) => r == Value(Lookup(m.cache, id))
       case _ => true
  }

  function ClaimEffect(m: Memory, p: Pool, job: Option<Task>): Memory {
    var slots := Taken(p, m.Slots(p));
    var pick := Pick(p, m.Slots(p));
    match p
    case Judges => m.(judges := slots, granted := if job.Some? then m.granted + [job.value] else m.granted)
    case Conns =>
      m.(conns := slots, peak := Max(m.peak, Tally(slots, Busy)),
         connected := if pick.Some? && m.conns[pick.value] == Unopened then m.connected + [pick.value] else m.connected)
  }

  function FreeEffect(m: Memory, p: Pool, h: nat, job: Option<Task>): Memory {
    match p
    case Judges =>
      m.(judges := Freed(m.judges, h), returned := if job.Some? then m.returned + [job.value] else m.returned)
    case Conns => m.(conns := Freed(m.conns, h))
  }

  /** What the operation of thread `t` does to memory. */
  function Effect(m: Memory, t: nat, op: Op, r: Resp): Memory {
    match op
    case TakePermit => if m.fetch == 0 then m else m.(fetch := m.fetch - 1, taken := m.taken + 1)
    case TryPermit => if m.fetch == 0 then m else m.(fetch := m.fetch - 1, taken := m.taken + 1)
    case ReturnPermit(task) => m.(fetch := m.fetch + 1, done := m.done + [task])
    case WaitPool(p) => if m.Sem(p) == 0 then m else m.WithSem(p, m.Sem(p) - 1)
    case PostPool(p) => m.WithSem(p, m.Sem(p) + 1)
    case Lock(x) => m.WithOwner(x, Some(t))
    case TryLock(x) => if Took(r) then m.WithOwner(x, Some(t)) else m
    case Unlock(x) => m.WithOwner(x, None)
    case Claim(p, job) => ClaimEffect(m, p, job)
    case Free(p, h, job) => FreeEffect(m, p, h, job)
    case Push(sub, mode) =>
      var task := Task(|m.pushed|, sub, mode);
      m.(queue := Enqueued(m.queue, task), pushed := m.pushed + [task])
    case Check =>
      var front := Front(m.queue);
      if front.None? then m.(queueOwner := None)
      else m.(queue := Dequeued(m.queue), popped := m.popped + [front.value])
    case Poll => if r.Row? then m.(rows := m.rows + [r.sub]) else m
    case Query(id) => if r.Replied? then m.(fetches := m.fetches + [(id, r.reply)]) else m
    case Insert(id, prob) => m.(cache := m.cache[id := prob])
    case Read(id) =>
      var prob := Lookup(m.cache, id);
      m.(cache := m.cache[id := prob], served := m.served + [(id, prob)])
    case _ => m
  }

  /** A signal rouses the sleeper it picked. */
  function Rouse(vs: seq<View>, r: Resp): seq<View> {
    if r.Woke? && r.who.Some? && r.who.value < |vs|
    then vs[r.who.value := vs[r.who.value].(mood := Roused)] else vs
  }

  function ViewsAfter(vs: seq<View>, t: nat, op: Op, r: Resp): seq<View>
    requires t < |vs|
  {
    Rouse(vs, r)[t := ViewAfter(op, r, vs[t])]
  }

  /** Thread `t` performs `op` legally and gets the answer `r`. */
  ghost predicate Acts(c: Config, m: Memory, vs: seq<View>, t: nat, op: Op, r: Resp) {
    && t < |vs|
    && Legal(op, vs[t])
    && Answers(c, m, vs, op, r)
  }

  // ---------- counting threads ----------

  datatype Kind =
    | Passing(p: Pool)       // between a pool's sem_wait and its sem_post
    | Holding(p: Pool)       // with a slot marked in use
    | Crossing(p: Pool)      // past sem_wait and not yet marked, or unmarked and not yet posted
    | Working                // running a task
    | Owing                  // pushed, not yet signalled
    | Waking                 // roused, not yet rechecked

  predicate Is(k: Kind, v: View) {
    match k
    case Passing(p) => !v.At(p).Out?
    case Holding(p) => v.At(p).Has?
    case Crossing(p) => v.At(p).In?
    case Working => v.job.Some?
    case Owing => v.owes
    case Waking => v.mood.Roused?
  }

  function Weight(k: Kind, v: View): nat { if Is(k, v) then 1 else 0 }

  function Count(k: Kind, vs: seq<View>): nat {
    if vs == [] then 0 else Weight(k, vs[0]) + Count(k, vs[1..])
  }

  lemma {:induction false} CountUpdate(k: Kind, vs: seq<View>, t: nat, v: View)
    requires t < |vs|
    ensures Count(k, vs[t := v]) == Count(k, vs) - Weight(k, vs[t]) + Weight(k, v)
  {
    if t == 0 {
      assert vs[t := v][1..] == vs[1..];
    } else {
      assert vs[t := v][1..] == vs[1..][t - 1 := v];
      CountUpdate(k, vs[1..], t - 1, v);
    }
  }

  lemma {:induction false} CountMember(k: Kind, vs: seq<View>, t: nat)
    requires t < |vs| && Is(k, vs[t])
    ensures Count(k, vs) >= 1
  {
    if t > 0 { CountMember(k, vs[1..], t - 1); }
  }

  lemma {:induction false} CountWitness(k: Kind, vs: seq<View>) returns (t: nat)
    requires Count(k, vs) > 0
    ensures t < |vs| && Is(k, vs[t])
  {
    if Is(k, vs[0]) {
      t := 0;
    } else {
      t := CountWitness(k, vs[1..]);
      t := t + 1;
    }
  }

  lemma {:induction false} CountNone(k: Kind, vs: seq<View>)
    requires forall t :: 0 <= t < |vs| ==> !Is(k, vs[t])
    ensures Count(k, vs) == 0
  {
    if vs != [] { CountNone(k, vs[1..]); }
  }

  lemma {:induction false} CountOne(k: Kind, vs: seq<View>, u: nat)
    requires forall t :: 0 <= t < |vs| && Is(k, vs[t]) ==> t == u
    ensures Count(k, vs) <= 1
  {
    if vs != [] {
      if u == 0 { CountNone(k, vs[1..]); } else { CountOne(k, vs[1..], u - 1); }
    }
  }

  lemma {:induction false} CountBelow(a: Kind, b: Kind, vs: seq<View>)
    requires forall t :: 0 <= t < |vs| && Is(a, vs[t]) ==> Is(b, vs[t])
    ensures Count(a, vs) <= Count(b, vs)
  {
    if vs != [] { CountBelow(a, b, vs[1..]); }
  }

  lemma CountStrictlyBelow(a: Kind, b: Kind, vs: seq<View>, t: nat)
    requires forall u :: 0 <= u < |vs| && Is(a, vs[u]) ==> Is(b, vs[u])
    requires t < |vs| && Is(b, vs[t]) && !Is(a, vs[t])
    ensures Count(a, vs) < Count(b, vs)
  {
    var w := vs[t := Idling(Worker)];
    CountUpdate(a, vs, t, Idling(Worker));
    CountUpdate(b, vs, t, Idling(Worker));
    CountBelow(a, b, w);
  }

  lemma {:induction false} CountAtMost(k: Kind, vs: seq<View>)
    ensures Count(k, vs) <= |vs|
  {
    if vs != [] { CountAtMost(k, vs[1..]); }
  }

  lemma {:induction false} CountPassing(p: Pool, vs: seq<View>)
    ensures Count(Passing(p), vs) == Count(Holding(p), vs) + Count(Crossing(p), vs)
  {
    if vs != [] { CountPassing(p, vs[1..]); }
  }

  /** How one operation changes a count: by the change in the acting thread, and one more waking. */
  lemma CountAfter(k: Kind, c: Config, m: Memory, vs: seq<View>, t: nat, op: Op, r: Resp)
    requires Acts(c, m, vs, t, op, r)
    ensures Count(k, ViewsAfter(vs, t, op, r)) ==
            Count(k, vs) - Weight(k, vs[t]) + Weight(k, ViewAfter(op, r, vs[t]))
            + (if k.Waking? && r.Woke? && r.who.Some? && r.who.value != t then 1 else 0)
  {
    if r.Woke? && r.who.Some? {
      var u := r.who.value;
      CountUpdate(k, vs, u, vs[u].(mood := Roused));
      CountUpdate(k, Rouse(vs, r), t, ViewAfter(op, r, vs[t]));
    } else {
      CountUpdate(k, vs, t, ViewAfter(op, r, vs[t]));
    }
  }
}
