/**
 The two semaphore-guarded pools: judges (`JudgeManager::get_judge` and `release_judge`, src/judge.cpp)
 and database connections (`DBConnMgr`, src/db.cpp).

 This module holds what happens to the slot tables, and to the task queue (src/threadpool.cpp),
 inside the critical sections: first as functions on tables and queue, which the engine's steps use,
 then as the source's in-place code, proved against them.
 */
module Pools {
  import opened Wrappers

  datatype Pool = Judges | Conns

  // `JS_Available`/`JS_Used` are Idle/Busy; `DBCS_Init`/`DBCS_Available`/`DBCS_Used` are all three.
  datatype Slot = Unopened | Idle | Busy

  /** The first position at or after `i` holding `x`. */
  function FirstFrom(slots: seq<Slot>, x: Slot, i: nat): (k: Option<nat>)
    requires i <= |slots|
    ensures k.Some? ==> i <= k.value < |slots| && slots[k.value] == x && x !in slots[i..k.value]
    ensures k.None? ==> x !in slots[i..]
    decreases |slots| - i
  {
    if i == |slots| then None
    else if slots[i] == x then Some(i)
    else
      var k := FirstFrom(slots, x, i + 1);
      assert slots[i..] == [slots[i]] + slots[i + 1..];
      assert k.Some? ==> slots[i..k.value] == [slots[i]] + slots[i + 1..k.value];
      k
  }

  /** The slot a scan hands out: an idle one if there is any; a connection may also be opened afresh. */
  function Pick(p: Pool, slots: seq<Slot>): (k: Option<nat>)
    ensures k.Some? && Idle in slots ==>
      k.value < |slots| && slots[k.value] == Idle && Idle !in slots[..k.value]
    ensures k.Some? && Idle !in slots ==>
      p.Conns? && k.value < |slots| && slots[k.value] == Unopened && Unopened !in slots[..k.value]
    ensures k.None? <==> Idle !in slots && (p.Conns? ==> Unopened !in slots)
  {
    var idle := FirstFrom(slots, Idle, 0);
    if idle.Some? || p.Judges? then idle else FirstFrom(slots, Unopened, 0)
  }

  function Taken(p: Pool, slots: seq<Slot>): seq<Slot> {
    if Pick(p, slots).Some? then slots[Pick(p, slots).value := Busy] else slots
  }

  /** Giving back a slot that is in use; any other handle is ignored. */
  function Freed(slots: seq<Slot>, h: nat): seq<Slot> {
    if h < |slots| && slots[h] == Busy then slots[h := Idle] else slots
  }

  function Tally(slots: seq<Slot>, x: Slot): nat {
    if slots == [] then 0 else (if slots[0] == x then 1 else 0) + Tally(slots[1..], x)
  }

  lemma {:induction false} TallyUpdate(slots: seq<Slot>, h: nat, v: Slot, x: Slot)
    requires h < |slots|
    ensures Tally(slots[h := v], x)
         == Tally(slots, x) - (if slots[h] == x then 1 else 0) + (if v == x then 1 else 0)
  {
    if h == 0 {
      assert slots[h := v][1..] == slots[1..];
    } else {
      assert slots[h := v][1..] == slots[1..][h - 1 := v];
      TallyUpdate(slots[1..], h - 1, v, x);
    }
  }

  lemma {:induction false} TallySum(slots: seq<Slot>)
    ensures Tally(slots, Unopened) + Tally(slots, Idle) + Tally(slots, Busy) == |slots|
  {
    if slots != [] { TallySum(slots[1..]); }
  }

  lemma {:induction false} TallyAbsent(slots: seq<Slot>, x: Slot)
    ensures Tally(slots, x) == 0 <==> x !in slots
  {
    if slots != [] {
      assert slots == [slots[0]] + slots[1..];
      TallyAbsent(slots[1..], x);
    }
  }

  /** When exactly the slots from `k` on are unopened, `k` slots are opened. */
  lemma {:induction false} TallyPrefix(slots: seq<Slot>, k: nat)
    requires k <= |slots|
    requires forall i :: 0 <= i < |slots| ==> (slots[i] == Unopened <==> k <= i)
    ensures Tally(slots, Unopened) == |slots| - k
  {
    if slots != [] {
      TallyPrefix(slots[1..], if k == 0 then 0 else k - 1);
    }
  }

  lemma {:induction false} TallyConstant(slots: seq<Slot>, x: Slot, y: Slot)
    requires forall i :: 0 <= i < |slots| ==> slots[i] == x
    ensures Tally(slots, y) == if x == y then |slots| else 0
  {
    if slots != [] { TallyConstant(slots[1..], x, y); }
  }

  /** Some slot can be handed out exactly when not all are in use (judges are never unopened). */
  lemma PickSucceeds(p: Pool, slots: seq<Slot>)
    requires p.Judges? ==> Unopened !in slots
    ensures Pick(p, slots).Some? <==> Tally(slots, Busy) < |slots|
  {
    TallySum(slots);
    TallyAbsent(slots, Idle);
    TallyAbsent(slots, Unopened);
  }

  const MAX_CONNECTIONS := 10
  const UINT_RANGE := 0x1_0000_0000

  /** `DB_MAX_CONNECTIONS` read as an unsigned long, cast to unsigned int, then capped. */
  function Capacity(configured: nat): (d: nat)
    ensures d <= 10
    ensures configured <= 10 ==> d == configured
    ensures 10 < configured < 0x1_0000_0000 ==> d == 10
    ensures d == 0 <==> configured % 0x1_0000_0000 == 0
  {
    var truncated := configured % UINT_RANGE;
    if truncated > MAX_CONNECTIONS then MAX_CONNECTIONS else truncated
  }

  /** The connection table; the methods are the parts of the source that run under `m_lock`. */
  class ConnTable {
    const bits: array<Slot>
    const available: nat

    ghost predicate Valid()
      reads this
    {
      bits.Length == MAX_CONNECTIONS && available <= MAX_CONNECTIONS
    }

    ghost function Slots(): seq<Slot>
      requires Valid()
      reads this, bits
    {
      bits[..available]
    }

    constructor (configured: nat)
      ensures Valid() && fresh(bits)
      ensures available == Capacity(configured)
      ensures Slots() == seq(available, _ => Unopened)
    {
      bits := new Slot[MAX_CONNECTIONS];
      available := Capacity(configured);
      new;
      var i := 0;
      while i < MAX_CONNECTIONS
        invariant 0 <= i <= MAX_CONNECTIONS
        invariant forall k :: 0 <= k < i ==> bits[k] == Unopened
      {
        bits[i] := Unopened;
        i := i + 1;
      }
    }

    method Get() returns (con: Option<nat>)
      requires Valid()
      modifies bits
      ensures con == Pick(Conns, old(Slots()))
      ensures Slots() == Taken(Conns, old(Slots()))
      ensures bits[available..] == old(bits[available..])
    {
      con := None;
      var i := 0;
      while i < available && con.None?
        invariant 0 <= i <= available
        invariant con.None? ==> bits[..] == old(bits[..]) && Idle !in bits[..i]
        invariant con.Some? ==> con == FirstFrom(old(Slots()), Idle, 0)
        invariant con.Some? ==> Slots() == old(Slots())[con.value := Busy]
        invariant bits[available..] == old(bits[available..])
        decreases available - i, if con.None? then 1 else 0
      {
        if bits[i] == Idle {
          assert Slots()[i] == Idle && bits[..i] == Slots()[..i];
          bits[i] := Busy;
          con := Some(i);
        } else {
          assert bits[..i + 1] == bits[..i] + [bits[i]];
          i := i + 1;
        }
      }
      if con.None? {
        assert Slots() == bits[..i];
        i := 0;
        while i < available && con.None?
          invariant 0 <= i <= available
          invariant con.None? ==> bits[..] == old(bits[..]) && Unopened !in bits[..i]
          invariant con.Some? ==> con == FirstFrom(old(Slots()), Unopened, 0)
          invariant con.Some? ==> Slots() == old(Slots())[con.value := Busy]
          invariant bits[available..] == old(bits[available..])
          decreases available - i, if con.None? then 1 else 0
        {
          if bits[i] == Unopened {
            assert Slots()[i] == Unopened && bits[..i] == Slots()[..i];
            bits[i] := Busy;
            con := Some(i);
          } else {
            assert bits[..i + 1] == bits[..i] + [bits[i]];
            i := i + 1;
          }
        }
        assert con.None? ==> Slots() == bits[..i];
      }
    }

    // The source's loop has no break: it visits every slot and changes at most the one given.
    method Release(con: nat)
      requires Valid()
      modifies bits
      ensures Slots() == Freed(old(Slots()), con)
      ensures bits[available..] == old(bits[available..])
    {
      var i := 0;
      while i < available
        invariant 0 <= i <= available
        invariant forall k :: 0 <= k < bits.Length ==>
          bits[k] == if k < i && k == con && old(bits[k]) == Busy then Idle else old(bits[k])
      {
        if bits[i] == Busy && i == con {
          bits[i] := Idle;
        }
        i := i + 1;
      }
    }
  }

  // ---------- the task queue ----------

  function Enqueued<T>(queue: seq<T>, x: T): seq<T> { queue + [x] }

  function Front<T>(queue: seq<T>): Option<T> { if queue == [] then None else Some(queue[0]) }

  function Dequeued<T>(queue: seq<T>): seq<T> { if queue == [] then [] else queue[1..] }

  /** `m_que_tasks`; the methods are the parts of the source that run under `m_queue_mutex`.
      `added` and `served` record all tasks ever added and handed out. */
  class TaskQueue<T> {
    var tasks: seq<T>
    ghost var added: seq<T>
    ghost var served: seq<T>

    /** First in, first out: what was handed out is the first part of what was added, the rest waits. */
    ghost predicate Valid()
      reads this
    {
      served + tasks == added
    }

    constructor ()
      ensures Valid() && added == []
    {
      tasks, added, served := [], [], [];
    }

    method Add(task: T)
      requires Valid()
      modifies this
      ensures Valid() && tasks == Enqueued(old(tasks), task)
      ensures added == old(added) + [task] && served == old(served)
    {
      tasks := tasks + [task];
      added := added + [task];
    }

    /** The `k`-th call that succeeds hands out the `k`-th task added; none does while all are handed out. */
    method Get() returns (task: Option<T>)
      requires Valid()
      modifies this
      ensures Valid() && tasks == Dequeued(old(tasks)) && added == old(added)
      ensures task.None? <==> |old(served)| == |added|
      ensures task.None? ==> served == old(served)
      ensures task.Some? ==> task.value == added[|old(served)|] && served == old(served) + [task.value]
    {
      if tasks == [] {
        return None;
      }
      task := Some(tasks[0]);
      served := served + [tasks[0]];
      tasks := tasks[1..];
    }
  }

  /** `jm_judges_flag`; the methods are the parts of the source that run under `jm_lock_judge`. */
  class JudgeTable {
    const flags: array<Slot>

    constructor (judges: nat)
      ensures fresh(flags) && flags[..] == seq(judges, _ => Idle)
    {
      flags := new Slot[judges];
      new;
      var i := 0;
      while i < judges
        invariant 0 <= i <= judges
        invariant forall k :: 0 <= k < i ==> flags[k] == Idle
      {
        flags[i] := Idle;
        i := i + 1;
      }
    }

    method Get() returns (jdg: Option<nat>)
      modifies flags
      ensures jdg == Pick(Judges, old(flags[..]))
      ensures flags[..] == Taken(Judges, old(flags[..]))
    {
      jdg := None;
      var i := 0;
      while i < flags.Length && jdg.None?
        invariant 0 <= i <= flags.Length
        invariant jdg.None? ==> flags[..] == old(flags[..]) && Idle !in flags[..i]
        invariant jdg.Some? ==> jdg == FirstFrom(old(flags[..]), Idle, 0)
        invariant jdg.Some? ==> flags[..] == old(flags[..])[jdg.value := Busy]
        decreases flags.Length - i, if jdg.None? then 1 else 0
      {
        if flags[i] == Idle {
          assert flags[..][i] == Idle && flags[..i] == flags[..][..i];
          flags[i] := Busy;
          jdg := Some(i);
        } else {
          assert flags[..i + 1] == flags[..i] + [flags[i]];
          i := i + 1;
        }
      }
      assert jdg.None? ==> flags[..] == flags[..i];
    }

    /** Frees the judge and counts how many are available, as the source's log line does. */
    method Release(jdg: nat) returns (free: nat)
      modifies flags
      ensures flags[..] == Freed(old(flags[..]), jdg)
      ensures free == Tally(flags[..], Idle)
    {
      var i := 0;
      var cleared := false;
      while i < flags.Length && !cleared
        invariant 0 <= i <= flags.Length
        invariant cleared ==> flags[..] == Freed(old(flags[..]), jdg)
        invariant !cleared ==> flags[..] == old(flags[..]) && (jdg < i ==> flags[jdg] != Busy)
        decreases flags.Length - i, if cleared then 0 else 1
      {
        if flags[i] == Busy && i == jdg {
          flags[i] := Idle;
          cleared := true;
        } else {
          i := i + 1;
        }
      }
      free := 0;
      i := 0;
      while i < flags.Length
        invariant 0 <= i <= flags.Length
        invariant free + Tally(flags[i..], Idle) == Tally(flags[..], Idle)
      {
        assert flags[i..] == [flags[i]] + flags[i + 1..];
        if flags[i] == Idle {
          free := free + 1;
        }
        i := i + 1;
      }
    }
  }
}
