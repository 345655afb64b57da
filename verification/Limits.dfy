/**
 Resource limits: `TimeUsage`, `MemorySize` and `ResourceLimit` (include/dataitem.h), the CPU limits
 derived from them (src/lang.cpp), and the table of system-call budgets.
 */
module Limits {
  import opened Wrappers

  datatype TimeUsage = TimeUsage(ms: int, isSet: bool)
  datatype MemorySize = MemorySize(bytes: nat, isSet: bool)

  const UNSET_TIME := TimeUsage(0, false)
  const UNSET_MEMORY := MemorySize(0, false)

  function Millis(ms: int): TimeUsage { TimeUsage(ms, true) }
  function Bytes(bytes: nat): MemorySize { MemorySize(bytes, true) }
  function Megabytes(mb: nat): MemorySize { MemorySize(mb * 1048576, true) }

  // ---------- seconds out of milliseconds ----------

  /** C's division, which drops the fraction. */
  function Quotient(a: int, b: int): int
    requires b > 0
  {
    if a >= 0 then a / b else -(-a / b)
  }

  /** `TimeUsage::get_second`. */
  function Seconds(ms: int): int {
    Quotient(ms, 1000) + (if ms - 1000 * Quotient(ms, 1000) != 0 then 1 else 0)
  }

  /** The least number of whole seconds not below `ms`. */
  predicate IsCeiling(ms: int, s: int) { 1000 * (s - 1) < ms <= 1000 * s }

  /** `get_second` rounds up, exactly except for negative times that are no whole seconds. */
  lemma SecondsExact(ms: int)
    ensures IsCeiling(ms, Seconds(ms)) <==> ms >= 0 || ms % 1000 == 0
    ensures ms <= 1000 * Seconds(ms)
  {
    if ms < 0 {
      assert -ms == 1000 * (-ms / 1000) + (-ms % 1000);
      assert ms % 1000 == 0 <==> -ms % 1000 == 0;
    }
  }

  function AtLeastOne(x: int): int { if x < 1 then 1 else x }

  /** `get_rl_cpu_second`. */
  function CpuSeconds(single: TimeUsage, total: TimeUsage): int {
    if single.isSet && total.isSet then
      AtLeastOne(if single.ms < total.ms then Seconds(single.ms) else Seconds(total.ms))
    else if single.isSet then AtLeastOne(Seconds(single.ms))
    else if total.isSet then AtLeastOne(Seconds(total.ms))
    else 0
  }

  /** `get_rl_cpu_millisecond`. */
  function CpuMillis(single: TimeUsage, total: TimeUsage): int {
    if single.isSet && total.isSet then AtLeastOne(if single.ms < total.ms then single.ms else total.ms)
    else if single.isSet then AtLeastOne(single.ms)
    else if total.isSet then AtLeastOne(total.ms)
    else 0
  }

  /** `ms` is the smallest of the limits that are set. */
  predicate Tightest(single: TimeUsage, total: TimeUsage, ms: int) {
    && (single.isSet ==> ms <= single.ms)
    && (total.isSet ==> ms <= total.ms)
    && ((single.isSet && ms == single.ms) || (total.isSet && ms == total.ms))
  }

  /** The seconds limit is the tightest limit rounded up, at least 1 if any is set and 0 if none is;
      it never cuts in before the milliseconds limit, and lasts less than a second longer. */
  lemma CpuLimits(single: TimeUsage, total: TimeUsage)
    ensures !single.isSet && !total.isSet <==> CpuSeconds(single, total) == 0
    ensures !single.isSet && !total.isSet <==> CpuMillis(single, total) == 0
    ensures forall ms :: Tightest(single, total, ms) ==>
      CpuMillis(single, total) == (if ms < 1 then 1 else ms) && IsCeiling(if ms < 1 then 1 else ms, CpuSeconds(single, total))
    ensures CpuMillis(single, total) <= 1000 * CpuSeconds(single, total) <= CpuMillis(single, total) + 999
  {
    SecondsExact(single.ms);
    SecondsExact(total.ms);
  }

  // ---------- what the kernel is told ----------

  const RLIM_RANGE := 0x1_0000_0000_0000_0000

  /** Conversion of a number of seconds to the kernel's unsigned 64-bit limits. */
  function Unsigned(x: int): nat { x % RLIM_RANGE }

  /** `set_resource_limit`: the soft and hard CPU limits, computed from the single limit alone. */
  function SoftCpu(single: TimeUsage): nat { Unsigned(Seconds(single.ms) + 1) }
  function HardCpu(single: TimeUsage): nat { Unsigned(Quotient(Seconds(single.ms) * 3, 2) + 1) }

  /** A time that fits in 64 bits; one never set reads as 0. */
  predicate Representable(t: TimeUsage) {
    -0x8000_0000_0000_0000 <= t.ms < 0x8000_0000_0000_0000 && (!t.isSet ==> t.ms == 0)
  }

  /** The kernel's soft limit lies above the monitor's, so that the monitor decides, exactly when the
      single limit is set or the total limit is below one second, but for single limits of minus one
      second. The kernel accepts the limits, the hard one being no lower, unless the single limit is
      below that. */
  lemma KernelLimits(single: TimeUsage, total: TimeUsage)
    requires Representable(single) && Representable(total) && (single.isSet || total.isSet)
    ensures 1000 * SoftCpu(single) > CpuMillis(single, total)
       <==> (single.isSet || total.ms < 1000) && Seconds(single.ms) != -1
    ensures HardCpu(single) >= SoftCpu(single) <==> Seconds(single.ms) >= -1
    ensures Seconds(single.ms) >= 0 ==>
      SoftCpu(single) == Seconds(single.ms) + 1 && 2 * (HardCpu(single) - 1) <= 3 * Seconds(single.ms) < 2 * HardCpu(single)
  {
    hide Unsigned;
    var s := Seconds(single.ms);
    SecondsBounded(single.ms);
    if s >= -1 {
      UnsignedAgrees(s + 1);
      UnsignedAgrees(Quotient(s * 3, 2) + 1);
    } else {
      UnsignedWraps(s + 1);
      UnsignedWraps(Quotient(s * 3, 2) + 1);
    }
  }

  lemma SecondsBounded(ms: int)
    requires -0x8000_0000_0000_0000 <= ms < 0x8000_0000_0000_0000
    ensures -0x40_0000_0000_0000 < Seconds(ms) < 0x40_0000_0000_0000
    ensures ms <= 1000 * Seconds(ms)
  {
  }

  lemma UnsignedAgrees(x: int)
    requires 0 <= x < RLIM_RANGE
    ensures Unsigned(x) == x
  {
  }

  lemma UnsignedWraps(x: int)
    requires -RLIM_RANGE <= x < 0
    ensures Unsigned(x) == x + RLIM_RANGE
  {
  }

  // ---------- ResourceLimit ----------

  const SYSCALLS := 512

  class ResourceLimit {
    var memory: MemorySize
    var single: TimeUsage
    var total: TimeUsage
    var file: MemorySize
    var workDir: Option<string>
    var uid: int
    var gid: int
    const syscalls: array<int>

    ghost predicate Valid()
      reads this
    {
      syscalls.Length == SYSCALLS
    }

    /** The default constructor leaves the ids and the budgets as they are. */
    constructor ()
      ensures Valid() && fresh(syscalls)
      ensures memory == file == MemorySize(0, false) && single == total == TimeUsage(0, false) && workDir.None?
    {
      memory, file, single, total := UNSET_MEMORY, UNSET_MEMORY, UNSET_TIME, UNSET_TIME;
      workDir := None;
      syscalls := new int[SYSCALLS];
    }

    /** A copy shares nothing with the original. */
    constructor Copy(rl: ResourceLimit)
      requires rl.Valid()
      ensures Valid() && fresh(syscalls)
      ensures memory == rl.memory && file == rl.file && single == rl.single && total == rl.total
      ensures workDir == rl.workDir && uid == rl.uid && gid == rl.gid && syscalls[..] == rl.syscalls[..]
    {
      memory, file, single, total := rl.memory, rl.file, rl.single, rl.total;
      workDir, uid, gid := rl.workDir, rl.uid, rl.gid;
      syscalls := new int[SYSCALLS];
      new;
      forall i | 0 <= i < SYSCALLS { syscalls[i] := rl.syscalls[i]; }
    }

    /** `operator=`: budgets are copied into the array at hand, so later changes stay apart. */
    method Assign(rl: ResourceLimit)
      requires Valid() && rl.Valid()
      requires rl != this ==> rl.syscalls != syscalls
      modifies this, syscalls
      ensures Valid()
      ensures memory == rl.memory && file == rl.file && single == rl.single && total == rl.total
      ensures workDir == rl.workDir && uid == rl.uid && gid == rl.gid && syscalls[..] == rl.syscalls[..]
      ensures rl != this ==> unchanged(rl) && unchanged(rl.syscalls)
    {
      memory, file, single, total := rl.memory, rl.file, rl.single, rl.total;
      workDir, uid, gid := rl.workDir, rl.uid, rl.gid;
      forall i | 0 <= i < SYSCALLS { syscalls[i] := rl.syscalls[i]; }
    }

    /** A null directory leaves the one already set. */
    method SetWorkDir(dir: Option<string>)
      modifies this`workDir
      ensures workDir == if dir.Some? then dir else old(workDir)
    {
      if workDir.Some? && dir.Some? {
        workDir := None;
      }
      if dir.Some? {
        workDir := dir;
      }
    }
  }

  // ---------- the table of budgets ----------

  /** The rules in force for a call: the last one listed, if any. */
  function Budget(rules: seq<(nat, int)>, id: nat, default: int): int
    decreases |rules|
  {
    if rules == [] then default
    else if rules[|rules| - 1].0 == id then rules[|rules| - 1].1
    else Budget(rules[..|rules| - 1], id, default)
  }

  // The memset clears this many of the 512 entries: 512 bytes.
  const CLEARED := 128

  /** What the freshly allocated table holds for an unlisted call. */
  function Unlisted(heap: seq<int>, id: nat): int
    requires id < |heap|
  {
    if id < CLEARED then 0 else heap[id]
  }

  /** Builds the static table from the listed rules, over whatever the allocator handed out. */
  method BuildTable(rules: seq<(nat, int)>, heap: seq<int>) returns (table: array<int>)
    requires |heap| == SYSCALLS
    requires forall i :: 0 <= i < |rules| ==> rules[i].0 < SYSCALLS
    ensures fresh(table) && table.Length == SYSCALLS
    ensures forall id :: 0 <= id < SYSCALLS ==> table[id] == Budget(rules, id, Unlisted(heap, id))
    ensures forall i :: 0 <= i < |rules| && (forall k :: i < k < |rules| ==> rules[k].0 != rules[i].0) ==>
      table[rules[i].0] == rules[i].1
    ensures forall id :: 0 <= id < SYSCALLS && (forall i :: 0 <= i < |rules| ==> rules[i].0 != id) ==>
      table[id] == if id < 128 then 0 else heap[id]
  {
    table := new int[SYSCALLS](i requires 0 <= i < SYSCALLS => heap[i]);
    forall i | 0 <= i < CLEARED { table[i] := 0; }
    var i := 0;
    while i < |rules|
      invariant 0 <= i <= |rules|
      invariant forall id :: 0 <= id < SYSCALLS ==> table[id] == Budget(rules[..i], id, Unlisted(heap, id))
    {
      table[rules[i].0] := rules[i].1;
      assert rules[..i + 1][..i] == rules[..i];
      i := i + 1;
    }
    assert rules[..i] == rules;
    forall id: nat | id < SYSCALLS && !Listed(rules, id) ensures table[id] == if id < 128 then 0 else heap[id] {
      BudgetUnlisted(rules, id, Unlisted(heap, id));
    }
    forall k: nat | k < |rules| && (forall u :: k < u < |rules| ==> rules[u].0 != rules[k].0)
      ensures table[rules[k].0] == rules[k].1
    {
      BudgetListed(rules, k, Unlisted(heap, rules[k].0));
    }
  }

  predicate Listed(rules: seq<(nat, int)>, id: nat) {
    exists i :: 0 <= i < |rules| && rules[i].0 == id
  }

  lemma {:induction false} BudgetUnlisted(rules: seq<(nat, int)>, id: nat, default: int)
    requires !Listed(rules, id)
    ensures Budget(rules, id, default) == default
    decreases |rules|
  {
    if rules != [] {
      assert forall i :: 0 <= i < |rules| - 1 ==> rules[..|rules| - 1][i] == rules[i];
      BudgetUnlisted(rules[..|rules| - 1], id, default);
    }
  }

  /** The last rule about a call counts. */
  lemma {:induction false} BudgetListed(rules: seq<(nat, int)>, k: nat, default: int)
    requires k < |rules| && forall u :: k < u < |rules| ==> rules[u].0 != rules[k].0
    ensures Budget(rules, rules[k].0, default) == rules[k].1
    decreases |rules|
  {
    if k < |rules| - 1 {
      BudgetListed(rules[..|rules| - 1], k, default);
    }
  }

  /** Unlisted calls are all forbidden exactly when the part of the table not cleared was zero for them. */
  lemma DefaultDenyExact(rules: seq<(nat, int)>, heap: seq<int>)
    requires |heap| == SYSCALLS
    ensures (forall id: nat :: id < SYSCALLS && !Listed(rules, id) ==> Budget(rules, id, Unlisted(heap, id)) == 0)
       <==> (forall id: nat :: CLEARED <= id < SYSCALLS && !Listed(rules, id) ==> heap[id] == 0)
  {
    forall id: nat | id < SYSCALLS && !Listed(rules, id)
      ensures Budget(rules, id, Unlisted(heap, id)) == Unlisted(heap, id)
    {
      BudgetUnlisted(rules, id, Unlisted(heap, id));
    }
  }
}
