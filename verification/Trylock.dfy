/**
 The trylock idiom of src/judge.cpp: directory getters and fetchers try the judge lock, do their work
 whether they got it or not, and unlock it only if they did. They call each other while holding it.

 Here the idiom is taken on its own, at any nesting depth, with other threads free to take and leave
 the lock between any two steps whenever this thread does not own it.
 */
module Trylock {
  import opened Wrappers

  datatype Code =
    | Work                                // anything that leaves the lock alone
    | Then(first: Code, second: Code)
    | Bracket(body: Code)                 // trylock; body; unlock if taken
    | Getter(cached: bool)                // a directory getter; `cached` if it has run before

  /** `fetch_testcase_from_ftp`: two calls of get_testcase_dir under one trylock. Only with work_dir set
      does the first call make the second find the directory cached, where it makes no difference. */
  function FetchTestcase(cached: bool): Code {
    Bracket(Then(Getter(cached), Then(Work, Then(Getter(cached), Work))))
  }

  /** What the other threads may do to the owner: nothing while `me` owns, else anything but give it `me`. */
  predicate Others(me: nat, o: Option<nat>, o': Option<nat>) {
    if o == Some(me) then o' == o else o' != Some(me)
  }

  function Tried(me: nat, o: Option<nat>): Option<nat> { if o.None? then Some(me) else o }

  /** `me` can run the code from owner `o` to owner `o'`; `ready` says whether work_dir is set. */
  ghost predicate Runs(ready: bool, me: nat, code: Code, o: Option<nat>, o': Option<nat>)
    decreases code
  {
    match code
    case Work => Others(me, o, o')
    case Then(a, b) => exists x :: Runs(ready, me, a, o, x) && Runs(ready, me, b, x, o')
    case Bracket(body) =>
      exists x, y :: Others(me, o, x) && Runs(ready, me, body, Tried(me, x), y) && Others(me, if x.None? then None else y, o')
    case Getter(cached) =>
      exists x :: Others(me, o, x) &&
        // with nothing cached and no work_dir the getter returns at once, the lock as it is
        if !cached && !ready then o' == Tried(me, x) else Others(me, if x.None? then None else x, o')
  }

  /** Some unlock is performed while `me` is not the owner. */
  ghost predicate Misuses(ready: bool, me: nat, code: Code, o: Option<nat>)
    decreases code
  {
    match code
    case Work => false
    case Then(a, b) => Misuses(ready, me, a, o) || exists x :: Runs(ready, me, a, o, x) && Misuses(ready, me, b, x)
    case Bracket(body) =>
      exists x :: Others(me, o, x) &&
        (Misuses(ready, me, body, Tried(me, x)) ||
         (x.None? && exists y :: Runs(ready, me, body, Some(me), y) && y != Some(me)))
    case Getter(_) => false
  }

  /** Somewhere in the code a getter is called for the first time. */
  predicate Leaky(code: Code) {
    match code
    case Work => false
    case Then(a, b) => Leaky(a) || Leaky(b)
    case Bracket(body) => Leaky(body)
    case Getter(cached) => !cached
  }

  /** A thread that owns the lock on entry owns it all through, and on return. */
  lemma {:induction false} HeldStays(ready: bool, me: nat, code: Code, o': Option<nat>)
    requires Runs(ready, me, code, Some(me), o')
    ensures o' == Some(me)
    decreases code
  {
    match code
    case Work =>
    case Then(a, b) =>
      var x :| Runs(ready, me, a, Some(me), x) && Runs(ready, me, b, x, o');
      HeldStays(ready, me, a, x);
      HeldStays(ready, me, b, o');
    case Bracket(body) =>
      var x, y :| Others(me, Some(me), x) && Runs(ready, me, body, Tried(me, x), y) &&
                  Others(me, if x.None? then None else y, o');
      HeldStays(ready, me, body, y);
    case Getter(_) =>
  }

  lemma {:induction false} HeldRuns(ready: bool, me: nat, code: Code)
    ensures Runs(ready, me, code, Some(me), Some(me))
    decreases code
  {
    match code
    case Work =>
    case Then(a, b) =>
      HeldRuns(ready, me, a);
      HeldRuns(ready, me, b);
    case Bracket(body) =>
      HeldRuns(ready, me, body);
      assert Others(me, Some(me), Some(me)) && Runs(ready, me, body, Tried(me, Some(me)), Some(me));
    case Getter(_) =>
      assert Others(me, Some(me), Some(me));
  }

  /** With work_dir set, or on entry as the owner, or if no getter is called for the first time, code of
      any depth leaves this thread's ownership as it found it. */
  lemma {:induction false} Balanced(ready: bool, me: nat, code: Code, o: Option<nat>, o': Option<nat>)
    requires ready || o == Some(me) || !Leaky(code)
    requires Runs(ready, me, code, o, o')
    ensures Others(me, o, o')
    decreases code
  {
    if o == Some(me) {
      HeldStays(ready, me, code, o');
    } else {
      match code
      case Work =>
      case Then(a, b) =>
        var x :| Runs(ready, me, a, o, x) && Runs(ready, me, b, x, o');
        Balanced(ready, me, a, o, x);
        Balanced(ready, me, b, x, o');
      case Bracket(body) =>
        var x, y :| Others(me, o, x) && Runs(ready, me, body, Tried(me, x), y) &&
                    Others(me, if x.None? then None else y, o');
        Balanced(ready, me, body, Tried(me, x), y);
      case Getter(_) =>
    }
  }

  /** Even without work_dir, only the owner unlocks. */
  lemma {:induction false} OwnerUnlocks(ready: bool, me: nat, code: Code, o: Option<nat>)
    ensures !Misuses(ready, me, code, o)
    decreases code
  {
    match code
    case Work =>
    case Then(a, b) =>
      OwnerUnlocks(ready, me, a, o);
      forall x { OwnerUnlocks(ready, me, b, x); }
    case Bracket(body) =>
      forall x { OwnerUnlocks(ready, me, body, x); }
      forall y | Runs(ready, me, body, Some(me), y) ensures y == Some(me) { HeldStays(ready, me, body, y); }
    case Getter(_) =>
  }

  /** Code that does not leak can end with the lock in any state it leaves to the others. */
  lemma {:induction false} FreeRuns(ready: bool, me: nat, code: Code, o: Option<nat>, o': Option<nat>)
    requires !Leaky(code) && o != Some(me) && o' != Some(me)
    ensures Runs(ready, me, code, o, o')
    decreases code
  {
    match code
    case Work =>
    case Then(a, b) =>
      FreeRuns(ready, me, a, o, None);
      FreeRuns(ready, me, b, None, o');
    case Bracket(body) =>
      HeldRuns(ready, me, body);
      assert Others(me, o, None) && Runs(ready, me, body, Tried(me, None), Some(me)) && Others(me, None, o');
    case Getter(_) =>
      assert Others(me, o, None) && Others(me, None, o');
  }

  /** A first getter call without work_dir, however deep, can leave this thread with the lock. */
  lemma {:induction false} LeakRuns(me: nat, code: Code, o: Option<nat>)
    requires Leaky(code) && o != Some(me)
    ensures Runs(false, me, code, o, Some(me))
    decreases code
  {
    match code
    case Then(a, b) =>
      if Leaky(a) {
        LeakRuns(me, a, o);
        HeldRuns(false, me, b);
      } else {
        FreeRuns(false, me, a, o, None);
        LeakRuns(me, b, None);
      }
    case Bracket(body) =>
      // the trylock fails, as another thread owns the lock, and the getter's succeeds
      var other := Some(me + 1);
      LeakRuns(me, body, other);
      assert Others(me, o, other) && Runs(false, me, body, Tried(me, other), Some(me)) && Others(me, Some(me), Some(me));
    case Getter(_) =>
      assert Others(me, o, None);
  }

  /** Every call leaves ownership as it found it, exactly if work_dir is set, the caller owns the lock, or
      no getter is called for the first time. */
  lemma BalancedExact(ready: bool, me: nat, code: Code, o: Option<nat>)
    ensures (forall o' :: Runs(ready, me, code, o, o') ==> Others(me, o, o'))
       <==> ready || o == Some(me) || !Leaky(code)
  {
    if ready || o == Some(me) || !Leaky(code) {
      forall o' | Runs(ready, me, code, o, o') ensures Others(me, o, o') { Balanced(ready, me, code, o, o'); }
    } else {
      LeakRuns(me, code, o);
      assert Runs(ready, me, code, o, Some(me)) && !Others(me, o, Some(me));
    }
  }

  /** So it is with fetching a test case; get_problem's calls are made by the owner of the lock. */
  lemma FetchTestcaseExact(ready: bool, me: nat, cached: bool, o: Option<nat>)
    ensures (forall o' :: Runs(ready, me, FetchTestcase(cached), o, o') ==> Others(me, o, o'))
       <==> ready || cached || o == Some(me)
  {
    BalancedExact(ready, me, FetchTestcase(cached), o);
    var second := Then(Getter(cached), Work);
    assert Leaky(Then(Getter(cached), Then(Work, second))) == (!cached || Leaky(second));
  }
}
