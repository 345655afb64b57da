/**
 The invariants of the judging protocol. Each relates shared memory to the views of all threads and
 has a lemma that a legal operation of any thread keeps it, whatever the other threads hold.
 */
module Invariants {
  import opened Wrappers
  import opened Pools
  import opened Protocol

  /** What the code guarantees of every thread on its own; thread 0 is the main thread. */
  predicate Shaped(v: View) {
    && (v.role.Worker? ==> !v.expecting && v.todo == [] && !v.owes && (!v.conn.Out? ==> v.judgeLock))
    && (v.role.Main? ==> v.job.None? && v.judge.Out? && v.mood.Awake?)
    && (v.missing.Some? || v.fetched.Some? ==> v.judgeLock)
    && (!v.judge.Out? ==> v.job.Some?)
  }

  ghost predicate Threads(c: Config, vs: seq<View>) {
    && |vs| == c.n + 1
    && (forall t :: 0 <= t < |vs| ==> Shaped(vs[t]))
    && (forall t :: 0 <= t < |vs| ==> (vs[t].role.Main? <==> t == 0))
  }

  /** The recorded owner of a mutex is the one thread that holds it. */
  ghost predicate Owned(m: Memory, vs: seq<View>, x: Mutex) {
    match m.Owner(x)
    case None => forall t :: 0 <= t < |vs| ==> !vs[t].Locked(x)
    case Some(o) => o < |vs| && vs[o].Locked(x) && forall t :: 0 <= t < |vs| && t != o ==> !vs[t].Locked(x)
  }

  /** Permits are either in the semaphore or with a thread. */
  ghost predicate Permits(c: Config, m: Memory, vs: seq<View>, p: Pool) {
    m.Sem(p) + Count(Passing(p), vs) == c.Cap(p)
  }

  /** Each slot in use is held by a thread, and no two threads hold the same one. */
  ghost predicate Exclusive(c: Config, m: Memory, vs: seq<View>, p: Pool) {
    && |m.Slots(p)| == c.Cap(p)
    && Tally(m.Slots(p), Busy) == Count(Holding(p), vs)
    && (forall t :: 0 <= t < |vs| && vs[t].At(p).Has? ==>
        vs[t].At(p).h < |m.Slots(p)| && m.Slots(p)[vs[t].At(p).h] == Busy)
    && (forall t, u :: 0 <= t < u < |vs| && vs[t].At(p).Has? && vs[u].At(p).Has? ==>
        vs[t].At(p).h != vs[u].At(p).h)
    && (p.Judges? ==> Unopened !in m.Slots(p))
  }

  /** Connections are opened in order, once each, and only as many as were ever in use at once. */
  ghost predicate Connections(m: Memory) {
    && |m.connected| <= |m.conns|
    && (forall k :: 0 <= k < |m.connected| ==> m.connected[k] == k)
    && (forall i :: 0 <= i < |m.conns| ==> (m.conns[i] == Unopened <==> |m.connected| <= i))
    && m.peak == |m.connected|
    && m.peak <= 2
  }

  /** While someone sleeps, each queued task has a signal on its way or a worker about to look. */
  ghost predicate Wakeups(m: Memory, vs: seq<View>) {
    forall t :: 0 <= t < |vs| && vs[t].mood.Asleep? ==> |m.queue| <= Count(Owing, vs) + Count(Waking, vs)
  }

  /** Fetch permits and unfinished tasks together change only by permits taken and tasks added. */
  ghost predicate Throttled(c: Config, m: Memory, vs: seq<View>) {
    m.fetch + |m.queue| + Count(Working, vs) + m.taken == c.n + |m.pushed|
  }

  const BOTH: set<Mode> := {Release, Debug}

  /** How many tasks a permit turns into, by the mode sets that can come. */
  ghost predicate Balanced(c: Config, m: Memory, vs: seq<View>) {
    && |vs| > 0
    && ({} !in c.modeSets ==> m.taken <= |m.pushed| + vs[0].Left())
    && (BOTH !in c.modeSets ==> |m.pushed| + vs[0].Left() <= m.taken)
  }

  /** What this fetch brought is in the cache, or the owner of the judge lock is about to store it. */
  ghost predicate Accounted(m: Memory, vs: seq<View>, fetch: (int, Reply)) {
    if fetch.0 in m.cache then m.cache[fetch.0] == Stored(fetch.1)
    else
      && m.judgeOwner.Some? && m.judgeOwner.value < |vs|
      && vs[m.judgeOwner.value].fetched == Some(fetch.0)
      && vs[m.judgeOwner.value].pending == Stored(fetch.1)
  }

  ghost predicate HasFetched(m: Memory, id: int) {
    exists i :: 0 <= i < |m.fetches| && m.fetches[i].0 == id
  }

  /** Problems are fetched once each, and what was read once is what is stored for good. */
  ghost predicate Cached(m: Memory, vs: seq<View>) {
    && (forall t :: 0 <= t < |vs| && vs[t].missing.Some? ==> vs[t].missing.value !in m.cache)
    && (forall t :: 0 <= t < |vs| && vs[t].fetched.Some? ==> HasFetched(m, vs[t].fetched.value))
    && (forall t :: 0 <= t < |vs| && vs[t].solved.Some? ==>
        vs[t].solved.value.0 in m.cache && m.cache[vs[t].solved.value.0] == vs[t].solved.value.1)
    && (forall i, k :: 0 <= i < k < |m.fetches| ==> m.fetches[i].0 != m.fetches[k].0)
    && (forall i :: 0 <= i < |m.fetches| ==> Accounted(m, vs, m.fetches[i]))
    && (forall id :: id in m.cache ==> HasFetched(m, id))
    && (forall i :: 0 <= i < |m.served| ==>
        m.served[i].0 in m.cache && m.cache[m.served[i].0] == m.served[i].1)
  }

  /** All tasks to be made of some submissions. */
  function Expand(rows: seq<Submission>): seq<(Submission, Mode)> {
    if rows == [] then [] else Expand(rows[..|rows| - 1]) + Tasks(rows[|rows| - 1])
  }

  function Origin(task: Task): (Submission, Mode) { (task.submission, task.mode) }

  function Origins(tasks: seq<Task>): seq<(Submission, Mode)> {
    seq(|tasks|, i requires 0 <= i < |tasks| => Origin(tasks[i]))
  }

  /** The tasks added are those of the submissions received, in order, but for the ones to come. */
  ghost predicate Planned(m: Memory, vs: seq<View>) {
    |vs| > 0 && Origins(m.pushed) + vs[0].todo == Expand(m.rows)
  }

  /** Tasks leave in the order they came; serial numbers tell them apart. */
  ghost predicate Fifo(m: Memory) {
    && m.popped + m.queue == m.pushed
    && (forall i :: 0 <= i < |m.pushed| ==> m.pushed[i].serial == i)
  }

  function Bag(o: Option<Task>): multiset<Task> {
    if o.Some? then multiset{o.value} else multiset{}
  }

  /** The tasks being run that have reached a stage. */
  function Running(vs: seq<View>, k: nat): multiset<Task> {
    if vs == [] then multiset{} else Bag(vs[0].JobFrom(k)) + Running(vs[1..], k)
  }

  /** The tasks that have ever reached a stage: 0 popped, 1 given a judge, 2 gave it back. */
  function Reached(m: Memory, k: nat): seq<Task> {
    if k == 0 then m.popped else if k == 1 then m.granted else m.returned
  }

  /** A task that reached a stage is done or still being run, once. */
  ghost predicate Delivered(m: Memory, vs: seq<View>, k: nat) {
    multiset(Reached(m, k)) == multiset(m.done) + Running(vs, k)
  }

  ghost predicate Inv(c: Config, m: Memory, vs: seq<View>) {
    && Threads(c, vs)
    && (forall x: Mutex :: Owned(m, vs, x))
    && (forall p: Pool :: Permits(c, m, vs, p))
    && (forall p: Pool :: Exclusive(c, m, vs, p))
    && Connections(m)
    && Wakeups(m, vs)
    && Throttled(c, m, vs)
    && Balanced(c, m, vs)
    && Cached(m, vs)
    && Planned(m, vs)
    && Fifo(m)
    && Delivered(m, vs, 0) && Delivered(m, vs, 1) && Delivered(m, vs, 2)
  }

  /** An operation, taken where the invariant holds, that leaves every thread well-shaped. */
  ghost predicate Goes(c: Config, m: Memory, vs: seq<View>, t: nat, op: Op, r: Resp) {
    && Inv(c, m, vs)
    && Acts(c, m, vs, t, op, r)
    && Threads(c, ViewsAfter(vs, t, op, r))
  }

  // ---------- mutexes ----------

  lemma KeepOwnedLocks(c: Config, m: Memory, vs: seq<View>, t: nat, op: Op, r: Resp, x: Mutex)
    requires op.Lock? || op.TryLock? || op.Unlock?
    requires Owned(m, vs, x) && Acts(c, m, vs, t, op, r)
    ensures Owned(Effect(m, t, op, r), ViewsAfter(vs, t, op, r), x)
  {
  }

  lemma KeepOwnedCheck(c: Config, m: Memory, vs: seq<View>, t: nat, r: Resp, x: Mutex)
    requires Owned(m, vs, x) && Acts(c, m, vs, t, Check, r)
    ensures Owned(Effect(m, t, Check, r), ViewsAfter(vs, t, Check, r), x)
  {
  }

  lemma OwnedFrame(m: Memory, vs: seq<View>, m': Memory, vs': seq<View>, x: Mutex)
    requires Owned(m, vs, x)
    requires m'.Owner(x) == m.Owner(x) && |vs'| == |vs|
    requires forall u :: 0 <= u < |vs| ==> vs'[u].Locked(x) == vs[u].Locked(x)
    ensures Owned(m', vs', x)
  {
  }

  lemma OwnersUntouched(m: Memory, t: nat, op: Op, r: Resp, v: View, x: Mutex)
    requires !op.Lock? && !op.TryLock? && !op.Unlock? && !op.Check?
    ensures Effect(m, t, op, r).Owner(x) == m.Owner(x)
    ensures ViewAfter(op, r, v).Locked(x) == v.Locked(x)
  {
  }

  lemma KeepOwned(c: Config, m: Memory, vs: seq<View>, t: nat, op: Op, r: Resp, x: Mutex)
    requires Owned(m, vs, x) && Acts(c, m, vs, t, op, r)
    ensures Owned(Effect(m, t, op, r), ViewsAfter(vs, t, op, r), x)
  {
    if op.Lock? || op.TryLock? || op.Unlock? {
      KeepOwnedLocks(c, m, vs, t, op, r, x);
    } else if op.Check? {
      KeepOwnedCheck(c, m, vs, t, r, x);
    } else {
      OwnersUntouched(m, t, op, r, vs[t], x);
      OwnedFrame(m, vs, Effect(m, t, op, r), ViewsAfter(vs, t, op, r), x);
    }
  }

  // ---------- pools ----------

  lemma PermitsUntouched(m: Memory, t: nat, op: Op, r: Resp, v: View, p: Pool)
    requires Legal(op, v) && !op.WaitPool? && !op.PostPool?
    ensures Effect(m, t, op, r).Sem(p) == m.Sem(p)
    ensures Is(Passing(p), ViewAfter(op, r, v)) == Is(Passing(p), v)
  {
  }

  lemma KeepPermits(c: Config, m: Memory, vs: seq<View>, t: nat, op: Op, r: Resp, p: Pool)
    requires Permits(c, m, vs, p) && Acts(c, m, vs, t, op, r)
    ensures Permits(c, Effect(m, t, op, r), ViewsAfter(vs, t, op, r), p)
  {
    hide Count;
    CountAfter(Passing(p), c, m, vs, t, op, r);
    if !op.WaitPool? && !op.PostPool? { PermitsUntouched(m, t, op, r, vs[t], p); }
  }

  /** A thread between the semaphore and the scan always finds a slot. */
  lemma ClaimSucceeds(c: Config, m: Memory, vs: seq<View>, t: nat, p: Pool)
    requires Permits(c, m, vs, p) && Exclusive(c, m, vs, p)
    requires t < |vs| && vs[t].At(p).In?
    ensures Pick(p, m.Slots(p)).Some?
    ensures Tally(m.Slots(p), Busy) < Count(Passing(p), vs)
  {
    hide Count, FirstFrom, Tally;
    CountStrictlyBelow(Holding(p), Passing(p), vs, t);
    PickSucceeds(p, m.Slots(p));
  }

  lemma KeepExclusiveClaim(c: Config, m: Memory, vs: seq<View>, t: nat, p: Pool, job: Option<Task>, r: Resp)
    requires Exclusive(c, m, vs, p) && Permits(c, m, vs, p) && Acts(c, m, vs, t, Claim(p, job), r)
    ensures Exclusive(c, Effect(m, t, Claim(p, job), r), ViewsAfter(vs, t, Claim(p, job), r), p)
  {
    hide Count, FirstFrom;
    CountAfter(Holding(p), c, m, vs, t, Claim(p, job), r);
    ClaimSucceeds(c, m, vs, t, p);
    TallyUpdate(m.Slots(p), Pick(p, m.Slots(p)).value, Busy, Busy);
  }

  lemma KeepExclusiveFree(c: Config, m: Memory, vs: seq<View>, t: nat, p: Pool, h: nat, job: Option<Task>, r: Resp)
    requires Exclusive(c, m, vs, p) && Acts(c, m, vs, t, Free(p, h, job), r)
    ensures Exclusive(c, Effect(m, t, Free(p, h, job), r), ViewsAfter(vs, t, Free(p, h, job), r), p)
  {
    hide Count;
    CountAfter(Holding(p), c, m, vs, t, Free(p, h, job), r);
    TallyUpdate(m.Slots(p), h, Idle, Busy);
  }

  /** A thread at the pool's semaphore holds no slot, so the other operations leave holders alone. */
  lemma HolderAlone(m: Memory, t: nat, op: Op, r: Resp, v: View, p: Pool)
    requires Legal(op, v)
    requires (op.Claim? || op.Free?) ==> op.p != p
    ensures Effect(m, t, op, r).Slots(p) == m.Slots(p)
    ensures var x, x' := v.At(p), ViewAfter(op, r, v).At(p);
      x'.Has? == x.Has? && (x.Has? ==> x' == x)
  {
  }

  lemma HoldersAlone(c: Config, m: Memory, vs: seq<View>, t: nat, op: Op, r: Resp, p: Pool)
    requires Acts(c, m, vs, t, op, r)
    requires (op.Claim? || op.Free?) ==> op.p != p
    ensures Effect(m, t, op, r).Slots(p) == m.Slots(p)
    ensures forall u :: 0 <= u < |vs| ==>
      var x, x' := vs[u].At(p), ViewsAfter(vs, t, op, r)[u].At(p);
      x'.Has? == x.Has? && (x.Has? ==> x' == x)
  {
    hide Legal, Answers, Effect, ViewAfter;
    HolderAlone(m, t, op, r, vs[t], p);
  }

  lemma KeepExclusive(c: Config, m: Memory, vs: seq<View>, t: nat, op: Op, r: Resp, p: Pool)
    requires Exclusive(c, m, vs, p) && Permits(c, m, vs, p) && Acts(c, m, vs, t, op, r)
    ensures Exclusive(c, Effect(m, t, op, r), ViewsAfter(vs, t, op, r), p)
  {
    hide Count;
    if op.Claim? && op.p == p {
      KeepExclusiveClaim(c, m, vs, t, p, op.job, r);
    } else if op.Free? && op.p == p {
      KeepExclusiveFree(c, m, vs, t, p, op.h, op.job, r);
    } else {
      HoldersAlone(c, m, vs, t, op, r, p);
      CountAfter(Holding(p), c, m, vs, t, op, r);
    }
  }

  /** At most the main thread and the owner of the judge lock are using a connection. */
  lemma AtMostTwo(c: Config, m: Memory, vs: seq<View>)
    requires Threads(c, vs) && Owned(m, vs, JudgeLock)
    ensures Count(Passing(Conns), vs) <= 2
  {
    var u := if m.judgeOwner.Some? && m.judgeOwner.value > 0 then m.judgeOwner.value - 1 else 0;
    forall t | 0 <= t < |vs[1..]| && Is(Passing(Conns), vs[1..][t]) ensures t == u {
      assert vs[t + 1].Locked(JudgeLock);
    }
    CountOne(Passing(Conns), vs[1..], u);
  }

  lemma KeepConnectionsClaim(c: Config, m: Memory, vs: seq<View>, t: nat, job: Option<Task>, r: Resp)
    requires Connections(m) && Exclusive(c, m, vs, Conns) && Permits(c, m, vs, Conns)
    requires Threads(c, vs) && Owned(m, vs, JudgeLock) && Acts(c, m, vs, t, Claim(Conns, job), r)
    ensures Connections(Effect(m, t, Claim(Conns, job), r))
  {
    hide Count, FirstFrom;
    ClaimSucceeds(c, m, vs, t, Conns);
    AtMostTwo(c, m, vs);
    TallySum(m.conns);
    TallyPrefix(m.conns, |m.connected|);
    TallyAbsent(m.conns, Idle);
    TallyUpdate(m.conns, Pick(Conns, m.conns).value, Busy, Busy);
  }

  lemma ConnectionsUntouched(m: Memory, t: nat, op: Op, r: Resp)
    requires (op.Claim? || op.Free?) ==> op.p.Judges?
    ensures var m' := Effect(m, t, op, r); m'.conns == m.conns && m'.connected == m.connected && m'.peak == m.peak
  {
  }

  lemma KeepConnections(c: Config, m: Memory, vs: seq<View>, t: nat, op: Op, r: Resp)
    requires Connections(m) && Exclusive(c, m, vs, Conns) && Permits(c, m, vs, Conns)
    requires Threads(c, vs) && Owned(m, vs, JudgeLock) && Acts(c, m, vs, t, op, r)
    ensures Connections(Effect(m, t, op, r))
  {
    hide Count, Legal, Answers, Tally;
    match op
    case Claim(Conns, job) => KeepConnectionsClaim(c, m, vs, t, job, r);
    case Free(Conns, _, _) =>
    case _ => ConnectionsUntouched(m, t, op, r);
  }

  // ---------- queue, condition variable and throttle ----------

  lemma WaitersUntouched(m: Memory, t: nat, op: Op, r: Resp, v: View)
    requires !op.Push? && !op.Check? && !op.Signal? && !op.Sleeping?
    ensures Effect(m, t, op, r).queue == m.queue
    ensures ViewAfter(op, r, v).owes == v.owes && ViewAfter(op, r, v).mood == v.mood
  {
  }

  lemma KeepWakeups(c: Config, m: Memory, vs: seq<View>, t: nat, op: Op, r: Resp)
    requires Wakeups(m, vs) && Threads(c, vs) && Acts(c, m, vs, t, op, r)
    ensures Wakeups(Effect(m, t, op, r), ViewsAfter(vs, t, op, r))
  {
    hide Count;
    CountAfter(Owing, c, m, vs, t, op, r);
    CountAfter(Waking, c, m, vs, t, op, r);
    if !op.Push? && !op.Check? && !op.Signal? && !op.Sleeping? {
      WaitersUntouched(m, t, op, r, vs[t]);
    }
  }

  lemma ThrottleUntouched(m: Memory, t: nat, op: Op, r: Resp, v: View)
    requires !op.TakePermit? && !op.TryPermit? && !op.ReturnPermit? && !op.Push? && !op.Check?
    ensures var m' := Effect(m, t, op, r);
      m'.fetch == m.fetch && m'.taken == m.taken && m'.queue == m.queue && m'.pushed == m.pushed
    ensures ViewAfter(op, r, v).job == v.job
  {
  }

  lemma KeepThrottled(c: Config, m: Memory, vs: seq<View>, t: nat, op: Op, r: Resp)
    requires Throttled(c, m, vs) && Acts(c, m, vs, t, op, r)
    ensures Throttled(c, Effect(m, t, op, r), ViewsAfter(vs, t, op, r))
  {
    hide Count;
    CountAfter(Working, c, m, vs, t, op, r);
    if !op.TakePermit? && !op.TryPermit? && !op.ReturnPermit? && !op.Push? && !op.Check? {
      ThrottleUntouched(m, t, op, r, vs[t]);
    }
  }

  lemma PlanLength(modes: set<Mode>)
    ensures |Plan(modes)| == 0 <==> modes == {}
    ensures |Plan(modes)| <= 2
    ensures |Plan(modes)| == 2 <==> modes == BOTH
  {
    if |Plan(modes)| == 0 {
      forall x: Mode ensures x !in modes { assert x == Release || x == Debug; }
    }
    if |Plan(modes)| == 2 {
      forall x: Mode ensures x in modes <==> x in BOTH { assert x == Release || x == Debug; }
    }
  }

  lemma BalanceUntouched(m: Memory, t: nat, op: Op, r: Resp, v: View)
    requires !op.TakePermit? && !op.TryPermit? && !op.Poll? && !op.Push?
    ensures Effect(m, t, op, r).taken == m.taken && |Effect(m, t, op, r).pushed| == |m.pushed|
    ensures ViewAfter(op, r, v).Left() == v.Left()
  {
  }

  lemma KeepBalancedPermit(c: Config, m: Memory, vs: seq<View>, t: nat, op: Op, r: Resp)
    requires op.TakePermit? || op.TryPermit?
    requires Balanced(c, m, vs) && Threads(c, vs) && Acts(c, m, vs, t, op, r)
    ensures Balanced(c, Effect(m, t, op, r), ViewsAfter(vs, t, op, r))
  {
  }

  lemma KeepBalancedTask(c: Config, m: Memory, vs: seq<View>, t: nat, op: Op, r: Resp)
    requires op.Poll? || op.Push?
    requires Balanced(c, m, vs) && Threads(c, vs) && Acts(c, m, vs, t, op, r)
    ensures Balanced(c, Effect(m, t, op, r), ViewsAfter(vs, t, op, r))
  {
    if op.Poll? && r.Row? { PlanLength(r.sub.modes); }
  }

  lemma KeepBalanced(c: Config, m: Memory, vs: seq<View>, t: nat, op: Op, r: Resp)
    requires Balanced(c, m, vs) && Threads(c, vs) && Acts(c, m, vs, t, op, r)
    ensures Balanced(c, Effect(m, t, op, r), ViewsAfter(vs, t, op, r))
  {
    hide Legal, Answers, Effect, ViewAfter, Threads;
    if op.TakePermit? || op.TryPermit? {
      KeepBalancedPermit(c, m, vs, t, op, r);
    } else if op.Poll? || op.Push? {
      KeepBalancedTask(c, m, vs, t, op, r);
    } else {
      BalanceUntouched(m, t, op, r, vs[t]);
    }
  }

  // ---------- problem cache ----------

  /** The operations that touch the cache, its history, or the lock that guards them. */
  predicate Caching(op: Op) {
    op.Find? || op.Query? || op.Insert? || op.Read? || op.Compute? || op.Lock? || op.TryLock? || op.Unlock?
  }

  lemma FetchedGrows(m: Memory, m': Memory)
    requires m.fetches <= m'.fetches
    ensures forall id :: HasFetched(m, id) ==> HasFetched(m', id)
  {
    forall id | HasFetched(m, id) ensures HasFetched(m', id) {
      var i :| 0 <= i < |m.fetches| && m.fetches[i].0 == id;
      assert m'.fetches[i].0 == id;
    }
  }

  lemma KeepCachedQuery(c: Config, m: Memory, vs: seq<View>, t: nat, id: int, r: Resp)
    requires Cached(m, vs) && Threads(c, vs) && Owned(m, vs, JudgeLock) && Acts(c, m, vs, t, Query(id), r)
    ensures Cached(Effect(m, t, Query(id), r), ViewsAfter(vs, t, Query(id), r))
  {
    assert forall i :: 0 <= i < |m.fetches| ==> Accounted(m, vs, m.fetches[i]);
    var m', vs' := Effect(m, t, Query(id), r), ViewsAfter(vs, t, Query(id), r);
    FetchedGrows(m, m');
    assert m'.fetches[|m.fetches|].0 == id;
    assert HasFetched(m', id);
    forall i | 0 <= i < |m'.fetches| ensures Accounted(m', vs', m'.fetches[i]) {
      if i < |m.fetches| { assert Accounted(m, vs, m.fetches[i]); }
    }
  }

  lemma KeepCachedLock(c: Config, m: Memory, vs: seq<View>, t: nat, x: Mutex, op: Op, r: Resp)
    requires op == Lock(x) || op == TryLock(x)
    requires Cached(m, vs) && Acts(c, m, vs, t, op, r)
    ensures Cached(Effect(m, t, op, r), ViewsAfter(vs, t, op, r))
  {
    var m', vs' := Effect(m, t, op, r), ViewsAfter(vs, t, op, r);
    FetchedGrows(m, m');
    forall i | 0 <= i < |m'.fetches| ensures Accounted(m', vs', m'.fetches[i]) {
      assert Accounted(m, vs, m.fetches[i]);
    }
  }

  lemma KeepCachedUnlock(c: Config, m: Memory, vs: seq<View>, t: nat, x: Mutex, r: Resp)
    requires Cached(m, vs) && Owned(m, vs, JudgeLock) && Acts(c, m, vs, t, Unlock(x), r)
    requires Threads(c, ViewsAfter(vs, t, Unlock(x), r))
    ensures Cached(Effect(m, t, Unlock(x), r), ViewsAfter(vs, t, Unlock(x), r))
  {
    var m', vs' := Effect(m, t, Unlock(x), r), ViewsAfter(vs, t, Unlock(x), r);
    assert Shaped(vs'[t]);
    forall i | 0 <= i < |m'.fetches| ensures Accounted(m', vs', m'.fetches[i]) {
      assert Accounted(m, vs, m.fetches[i]);
    }
  }

  lemma KeepCachedFind(c: Config, m: Memory, vs: seq<View>, t: nat, id: int, r: Resp)
    requires Cached(m, vs) && Threads(c, vs) && Owned(m, vs, JudgeLock) && Acts(c, m, vs, t, Find(id), r)
    ensures Cached(Effect(m, t, Find(id), r), ViewsAfter(vs, t, Find(id), r))
  {
    var m', vs' := Effect(m, t, Find(id), r), ViewsAfter(vs, t, Find(id), r);
    forall i | 0 <= i < |m'.fetches| ensures Accounted(m', vs', m'.fetches[i]) {
      assert Accounted(m, vs, m.fetches[i]);
    }
  }

  lemma KeepCachedInsert(c: Config, m: Memory, vs: seq<View>, t: nat, id: int, prob: Problem, r: Resp)
    requires Cached(m, vs) && Threads(c, vs) && Owned(m, vs, JudgeLock) && Acts(c, m, vs, t, Insert(id, prob), r)
    ensures Cached(Effect(m, t, Insert(id, prob), r), ViewsAfter(vs, t, Insert(id, prob), r))
  {
    var m', vs' := Effect(m, t, Insert(id, prob), r), ViewsAfter(vs, t, Insert(id, prob), r);
    forall i | 0 <= i < |m'.fetches| ensures Accounted(m', vs', m'.fetches[i]) {
      assert Accounted(m, vs, m.fetches[i]);
    }
  }

  lemma KeepCachedRead(c: Config, m: Memory, vs: seq<View>, t: nat, id: int, r: Resp)
    requires Cached(m, vs) && Threads(c, vs) && Owned(m, vs, JudgeLock) && Acts(c, m, vs, t, Read(id), r)
    ensures Cached(Effect(m, t, Read(id), r), ViewsAfter(vs, t, Read(id), r))
  {
    var m', vs' := Effect(m, t, Read(id), r), ViewsAfter(vs, t, Read(id), r);
    forall i | 0 <= i < |m'.fetches| ensures Accounted(m', vs', m'.fetches[i]) {
      assert Accounted(m, vs, m.fetches[i]);
    }
  }

  lemma KeepCachedCompute(c: Config, m: Memory, vs: seq<View>, t: nat, r: Resp)
    requires Cached(m, vs) && Acts(c, m, vs, t, Compute, r)
    ensures Cached(Effect(m, t, Compute, r), ViewsAfter(vs, t, Compute, r))
  {
    var vs' := ViewsAfter(vs, t, Compute, r);
    forall i | 0 <= i < |m.fetches| ensures Accounted(m, vs', m.fetches[i]) {
      assert Accounted(m, vs, m.fetches[i]);
    }
  }

  predicate SameKnowledge(v: View, v': View) {
    v'.missing == v.missing && v'.fetched == v.fetched && v'.pending == v.pending && v'.solved == v.solved
  }

  lemma CachedFrame(m: Memory, vs: seq<View>, m': Memory, vs': seq<View>)
    requires Cached(m, vs)
    requires m'.cache == m.cache && m'.fetches == m.fetches && m'.served == m.served && m'.judgeOwner == m.judgeOwner
    requires |vs'| == |vs|
    requires forall u :: 0 <= u < |vs| ==> SameKnowledge(vs[u], vs'[u])
    ensures Cached(m', vs')
  {
    forall i | 0 <= i < |m'.fetches| ensures Accounted(m', vs', m'.fetches[i]) {
      assert Accounted(m, vs, m.fetches[i]);
    }
  }

  lemma CacheUntouched(m: Memory, t: nat, op: Op, r: Resp, v: View)
    requires !Caching(op)
    ensures var m' := Effect(m, t, op, r);
      m'.cache == m.cache && m'.fetches == m.fetches && m'.served == m.served && m'.judgeOwner == m.judgeOwner
    ensures SameKnowledge(v, ViewAfter(op, r, v))
  {
  }

  lemma KeepCachedRest(c: Config, m: Memory, vs: seq<View>, t: nat, op: Op, r: Resp)
    requires !Caching(op) && Cached(m, vs) && Acts(c, m, vs, t, op, r)
    ensures Cached(Effect(m, t, op, r), ViewsAfter(vs, t, op, r))
  {
    hide Cached, Legal, Answers, Effect, ViewAfter;
    CacheUntouched(m, t, op, r, vs[t]);
    CachedFrame(m, vs, Effect(m, t, op, r), ViewsAfter(vs, t, op, r));
  }

  lemma KeepCached(c: Config, m: Memory, vs: seq<View>, t: nat, op: Op, r: Resp)
    requires Cached(m, vs) && Threads(c, vs) && Owned(m, vs, JudgeLock) && Acts(c, m, vs, t, op, r)
    requires Threads(c, ViewsAfter(vs, t, op, r))
    ensures Cached(Effect(m, t, op, r), ViewsAfter(vs, t, op, r))
  {
    hide Cached, Threads, Owned, Acts;
    match op
    case Find(id) => KeepCachedFind(c, m, vs, t, id, r);
    case Query(id) => KeepCachedQuery(c, m, vs, t, id, r);
    case Insert(id, prob) => KeepCachedInsert(c, m, vs, t, id, prob, r);
    case Read(id) => KeepCachedRead(c, m, vs, t, id, r);
    case Compute => KeepCachedCompute(c, m, vs, t, r);
    case Lock(x) => KeepCachedLock(c, m, vs, t, x, op, r);
    case TryLock(x) => KeepCachedLock(c, m, vs, t, x, op, r);
    case Unlock(x) => KeepCachedUnlock(c, m, vs, t, x, r);
    case _ => KeepCachedRest(c, m, vs, t, op, r);
  }

  // ---------- tasks ----------

  lemma KeepPlannedPush(c: Config, m: Memory, vs: seq<View>, t: nat, sub: Submission, mode: Mode, r: Resp)
    requires Planned(m, vs) && Threads(c, vs) && Acts(c, m, vs, t, Push(sub, mode), r)
    ensures Planned(Effect(m, t, Push(sub, mode), r), ViewsAfter(vs, t, Push(sub, mode), r))
  {
    hide Expand;
    var m' := Effect(m, t, Push(sub, mode), r);
    assert t == 0;
    assert Origins(m'.pushed) == Origins(m.pushed) + [(sub, mode)];
    assert vs[0].todo == [(sub, mode)] + vs[0].todo[1..];
  }

  lemma KeepPlannedPoll(c: Config, m: Memory, vs: seq<View>, t: nat, r: Resp)
    requires Planned(m, vs) && Threads(c, vs) && Acts(c, m, vs, t, Poll, r)
    ensures Planned(Effect(m, t, Poll, r), ViewsAfter(vs, t, Poll, r))
  {
    var m' := Effect(m, t, Poll, r);
    assert t == 0;
    if r.Row? {
      assert m'.rows[..|m.rows|] == m.rows;
    }
  }

  lemma PlanUntouched(m: Memory, t: nat, op: Op, r: Resp, v: View)
    requires !op.Push? && !op.Poll?
    ensures Effect(m, t, op, r).pushed == m.pushed && Effect(m, t, op, r).rows == m.rows
    ensures ViewAfter(op, r, v).todo == v.todo
  {
  }

  lemma KeepPlanned(c: Config, m: Memory, vs: seq<View>, t: nat, op: Op, r: Resp)
    requires Planned(m, vs) && Threads(c, vs) && Acts(c, m, vs, t, op, r)
    ensures Planned(Effect(m, t, op, r), ViewsAfter(vs, t, op, r))
  {
    hide Expand, Legal, Answers, Effect, ViewAfter, Threads, Origins;
    match op
    case Push(sub, mode) => KeepPlannedPush(c, m, vs, t, sub, mode, r);
    case Poll => KeepPlannedPoll(c, m, vs, t, r);
    case _ => PlanUntouched(m, t, op, r, vs[t]);
  }

  lemma KeepFifo(c: Config, m: Memory, vs: seq<View>, t: nat, op: Op, r: Resp)
    requires Fifo(m) && Acts(c, m, vs, t, op, r)
    ensures Fifo(Effect(m, t, op, r))
  {
    if op.Check? && m.queue != [] {
      assert m.queue == [m.queue[0]] + m.queue[1..];
    }
  }

  lemma {:induction false} RunningUpdate(vs: seq<View>, t: nat, v: View, k: nat)
    requires t < |vs|
    ensures Running(vs[t := v], k) + Bag(vs[t].JobFrom(k)) == Running(vs, k) + Bag(v.JobFrom(k))
  {
    var b, b', rest := Bag(vs[t].JobFrom(k)), Bag(v.JobFrom(k)), vs[1..];
    if t == 0 {
      assert vs[t := v][1..] == rest;
      assert (b' + Running(rest, k)) + b == (b + Running(rest, k)) + b';
    } else {
      var first := Bag(vs[0].JobFrom(k));
      assert vs[t := v][1..] == rest[t - 1 := v];
      RunningUpdate(rest, t - 1, v, k);
      assert (first + Running(rest[t - 1 := v], k)) + b == first + (Running(rest[t - 1 := v], k) + b);
      assert (first + Running(rest, k)) + b' == first + (Running(rest, k) + b');
    }
  }

  lemma RouseRuns(vs: seq<View>, r: Resp, k: nat)
    ensures Running(Rouse(vs, r), k) == Running(vs, k)
  {
    hide Running;
    if r.Woke? && r.who.Some? && r.who.value < |vs| {
      var v := vs[r.who.value];
      RunningUpdate(vs, r.who.value, v.(mood := Roused), k);
      assert Running(Rouse(vs, r), k) == Running(Rouse(vs, r), k) + Bag(v.JobFrom(k)) - Bag(v.JobFrom(k));
      assert Running(vs, k) == Running(vs, k) + Bag(v.JobFrom(k)) - Bag(v.JobFrom(k));
    }
  }

  /** What one operation does to the tasks running from a stage on. */
  lemma RunningAfter(vs: seq<View>, t: nat, op: Op, r: Resp, k: nat)
    requires t < |vs|
    requires r.Woke? && r.who.Some? ==> r.who.value != t
    ensures Running(ViewsAfter(vs, t, op, r), k) + Bag(vs[t].JobFrom(k))
         == Running(vs, k) + Bag(ViewAfter(op, r, vs[t]).JobFrom(k))
  {
    hide Running;
    RouseRuns(vs, r, k);
    RunningUpdate(Rouse(vs, r), t, ViewAfter(op, r, vs[t]), k);
  }

  /** Conservation: what reaches the stage (`x`) and what leaves for `done` (`y`) balance the running. */
  lemma Conserve(m: Memory, vs: seq<View>, m': Memory, vs': seq<View>, k: nat,
                 x: seq<Task>, y: seq<Task>, b: Option<Task>, b': Option<Task>)
    requires Delivered(m, vs, k)
    requires Running(vs', k) + Bag(b) == Running(vs, k) + Bag(b')
    requires Reached(m', k) == Reached(m, k) + x && m'.done == m.done + y
    requires multiset(x) + Bag(b) == multiset(y) + Bag(b')
    ensures Delivered(m', vs', k)
  {
    forall task: Task ensures multiset(Reached(m', k))[task] == (multiset(m'.done) + Running(vs', k))[task] {
      assert (Running(vs', k) + Bag(b))[task] == (Running(vs, k) + Bag(b'))[task];
      assert (multiset(x) + Bag(b))[task] == (multiset(y) + Bag(b'))[task];
      assert multiset(Reached(m, k))[task] == (multiset(m.done) + Running(vs, k))[task];
    }
  }

  /** The tasks an operation brings to a stage. */
  function Arriving(m: Memory, op: Op, k: nat): seq<Task> {
    match op
    case Check => if k == 0 && m.queue != [] then [m.queue[0]] else []
    case Claim(p, job) => if k == 1 && p.Judges? && job.Some? then [job.value] else []
    case Free(p, _, job) => if k == 2 && p.Judges? && job.Some? then [job.value] else []
    case _ => []
  }

  /** The tasks an operation finishes. */
  function Finishing(op: Op): seq<Task> {
    match op
    case ReturnPermit(task) => [task]
    case _ => []
  }

  lemma Arrivals(m: Memory, t: nat, op: Op, r: Resp, k: nat)
    requires k <= 2
    ensures Reached(Effect(m, t, op, r), k) == Reached(m, k) + Arriving(m, op, k)
    ensures Effect(m, t, op, r).done == m.done + Finishing(op)
  {
  }

  lemma JobUntouched(op: Op, r: Resp, v: View)
    requires !op.Check? && !op.Claim? && !op.Free? && !op.ReturnPermit?
    ensures ViewAfter(op, r, v).job == v.job && ViewAfter(op, r, v).stage == v.stage
  {
  }

  lemma MovedFree(m: Memory, v: View, p: Pool, h: nat, job: Option<Task>, r: Resp, k: nat)
    requires Legal(Free(p, h, job), v) && k <= 2
    ensures multiset(Arriving(m, Free(p, h, job), k)) + Bag(v.JobFrom(k))
         == Bag(ViewAfter(Free(p, h, job), r, v).JobFrom(k))
  {
  }

  lemma MovedClaim(m: Memory, v: View, p: Pool, job: Option<Task>, r: Resp, k: nat)
    requires Legal(Claim(p, job), v) && r.Handle? && r.h.Some? && k <= 2
    ensures multiset(Arriving(m, Claim(p, job), k)) + Bag(v.JobFrom(k))
         == Bag(ViewAfter(Claim(p, job), r, v).JobFrom(k))
  {
  }

  lemma Moved(m: Memory, v: View, op: Op, r: Resp, k: nat)
    requires Legal(op, v) && Fits(op, r) && k <= 2
    requires op.Check? ==> r == if m.queue == [] then Slept else Got(m.queue[0])
    requires op.Claim? ==> r.h.Some?
    ensures multiset(Arriving(m, op, k)) + Bag(v.JobFrom(k))
         == multiset(Finishing(op)) + Bag(ViewAfter(op, r, v).JobFrom(k))
  {
    match op
    case Check =>
    case Claim(p, job) => MovedClaim(m, v, p, job, r, k);
    case Free(p, h, job) => MovedFree(m, v, p, h, job, r, k);
    case ReturnPermit(_) =>
    case _ => JobUntouched(op, r, v);
  }

  /** Popping, claiming and freeing a judge each bring one task to a stage; repaying finishes one. */
  lemma KeepDelivered(c: Config, m: Memory, vs: seq<View>, t: nat, op: Op, r: Resp, k: nat)
    requires Delivered(m, vs, k) && Threads(c, vs) && Acts(c, m, vs, t, op, r) && k <= 2
    requires op.Claim? ==> r.h.Some?
    ensures Delivered(Effect(m, t, op, r), ViewsAfter(vs, t, op, r), k)
  {
    RunningAfter(vs, t, op, r, k);
    Arrivals(m, t, op, r, k);
    Moved(m, vs[t], op, r, k);
    Conserve(m, vs, Effect(m, t, op, r), ViewsAfter(vs, t, op, r), k, Arriving(m, op, k), Finishing(op),
             vs[t].JobFrom(k), ViewAfter(op, r, vs[t]).JobFrom(k));
  }

  // ---------- all together ----------

  lemma Keep(c: Config, m: Memory, vs: seq<View>, t: nat, op: Op, r: Resp)
    requires Goes(c, m, vs, t, op, r)
    ensures Inv(c, Effect(m, t, op, r), ViewsAfter(vs, t, op, r))
  {
    forall x: Mutex ensures Owned(Effect(m, t, op, r), ViewsAfter(vs, t, op, r), x) {
      KeepOwned(c, m, vs, t, op, r, x);
    }
    forall p: Pool ensures Permits(c, Effect(m, t, op, r), ViewsAfter(vs, t, op, r), p) {
      KeepPermits(c, m, vs, t, op, r, p);
    }
    forall p: Pool ensures Exclusive(c, Effect(m, t, op, r), ViewsAfter(vs, t, op, r), p) {
      KeepExclusive(c, m, vs, t, op, r, p);
    }
    KeepConnections(c, m, vs, t, op, r);
    KeepWakeups(c, m, vs, t, op, r);
    KeepThrottled(c, m, vs, t, op, r);
    KeepBalanced(c, m, vs, t, op, r);
    KeepCached(c, m, vs, t, op, r);
    KeepPlanned(c, m, vs, t, op, r);
    KeepFifo(c, m, vs, t, op, r);
    if op.Claim? { ClaimSucceeds(c, m, vs, t, op.p); }
    KeepDelivered(c, m, vs, t, op, r, 0);
    KeepDelivered(c, m, vs, t, op, r, 1);
    KeepDelivered(c, m, vs, t, op, r, 2);
  }

  lemma InitialTables(c: Config, vs: seq<View>)
    requires |vs| == c.n + 1
    requires forall t :: 0 <= t < |vs| ==> vs[t] == Idling(if t == 0 then Main else Worker)
    ensures Connections(Start(c)) && Cached(Start(c), vs) && Planned(Start(c), vs) && Fifo(Start(c))
    ensures Wakeups(Start(c), vs) && Balanced(c, Start(c), vs) && Throttled(c, Start(c), vs)
  {
    CountNone(Working, vs);
  }

  /** Before anything has happened, all threads being idle and awake. */
  lemma Initially(c: Config, vs: seq<View>)
    requires |vs| == c.n + 1
    requires forall t :: 0 <= t < |vs| ==> vs[t] == Idling(if t == 0 then Main else Worker)
    ensures Inv(c, Start(c), vs)
  {
    InitialTables(c, vs);
    InitialTasks(c, vs);
    forall p: Pool ensures Permits(c, Start(c), vs, p) && Exclusive(c, Start(c), vs, p) {
      InitialPool(c, vs, p);
    }
  }

  lemma InitialTasks(c: Config, vs: seq<View>)
    requires forall t :: 0 <= t < |vs| ==> vs[t].job.None?
    ensures Delivered(Start(c), vs, 0) && Delivered(Start(c), vs, 1) && Delivered(Start(c), vs, 2)
  {
    RunningNone(vs, 0);
    RunningNone(vs, 1);
    RunningNone(vs, 2);
  }

  lemma InitialPool(c: Config, vs: seq<View>, p: Pool)
    requires forall t :: 0 <= t < |vs| ==> vs[t].At(p).Out?
    ensures Permits(c, Start(c), vs, p) && Exclusive(c, Start(c), vs, p)
  {
    CountNone(Passing(p), vs);
    CountNone(Holding(p), vs);
    TallyConstant(Start(c).Slots(p), if p.Judges? then Idle else Unopened, Busy);
  }

  lemma {:induction false} RunningNone(vs: seq<View>, k: nat)
    requires forall t :: 0 <= t < |vs| ==> vs[t].job.None?
    ensures Running(vs, k) == multiset{}
  {
    if vs != [] { RunningNone(vs[1..], k); }
  }
}
