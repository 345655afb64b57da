# NPU_OJ in Dafny

NPU_OJ is an online-judge daemon. A main thread takes submissions from a database, at most as many at a
time as a semaphore allows, and queues them as tasks. Worker threads take tasks from the queue, take a
judge and, through a locked cache, the problem, run the submission under a monitor, and give everything
back. This project models the two parts whose correctness is not visible from any one function: the
threads' protocol, and the monitor with the verdicts drawn from it.

`dafny verify dfyconfig.toml` checks the project.

## The judging engine

| file | content |
|---|---|
| Pools.dfy | the slot tables of the two pools and the task queue: functions on them, the source's in-place code proved against these |
| Protocol.dfy | operations (semaphores, mutexes, condition variable, tables), their effect on memory and on a thread's view |
| Invariants.dfy | the invariants relating memory to all threads' views, each kept by every legal operation |
| Program.dfy | the threads' code as control-flow graphs, one point per operation, with source lines |
| Engine.dfy | all interleavings; every reachable state satisfies the invariants |
| Safety.dfy | what follows for pools, locks, wakeups, throttle, cache and tasks |
| Liveness.dfy | who waits for whom, absence of wait cycles and of deadlock, progress without new submissions |
| Completion.dfy | every step uses up work, so that unfinished tasks get finished in a bounded number of steps |
| Exactness.dfy | the exact conditions for deadlock freedom, the throttle, progress and completion, with runs that end badly otherwise |
| Isolation.dfy | no two tasks share a directory |
| Acceptance.dfy | what one fetch of a problem means for the verdicts on all later submissions |
| Trylock.dfy | the trylock idiom on its own, at any nesting depth |

The number of judges and workers `n`, the number of connections `d` and the mode sets submissions may
come with are arbitrary; runs are unbounded; the scheduler, the database's answers and spurious wakeups
are arbitrary. A step is one `sem_wait`, `sem_post`, lock, trylock, unlock, condition wait, signal or
table access. The proof is split in two: the control flow performs an operation only where the thread's
view makes it legal (Program), and legal operations keep the invariants whatever else goes on (Invariants).

Some properties do not hold for every configuration. Each is stated with the condition under which it
does, in both directions and over all configurations; the failing direction constructs a run for every
configuration that fails it.

* The engine can deadlock if there is no judge, no connection (`DB_MAX_CONNECTIONS` a multiple of 2^32),
  or a submission with no mode. The code only makes submissions with the release mode.
* Unfinished tasks can outnumber the judges if a submission has both modes: one permit, two tasks.
* With one connection, a worker that needs a problem can be left waiting until the next submission
  arrives, because the main thread keeps the connection while it polls. This takes a second judge, or with
  a single judge a submission of both modes, whose second task returns a permit too many.

Work is finite unless the environment adds to it. Every step of every run lowers a measure of the work
ahead, except that polling, a submission, a test case to fetch or to judge, and a spurious wakeup raise it
by a stated amount each. Hence a bound on the length of any run, and completion of all tasks.

## The monitor and the verdicts

| file | content |
|---|---|
| Limits.dfy | `ResourceLimit` and its copies, the CPU limits derived from it, the table of system-call budgets |
| Monitor.dfy | the wait loop of `LangC::launch`, on an arbitrary sequence of kernel reports |
| Verdicts.dfy | `LangC::judge` and `check`: one submission on all test cases |
| Workdirs.dfy | work directory names and the result counter |

The kernel is an arbitrary sequence of reports; a launch that has not seen a report that ends it is still
waiting, and so is the judging of its submission. Fork failure, compilation and `diff` are parameters.

Some facts of the code that its naming does not suggest: memory samples are page faults times page size in
units of 1024, compared with a limit in bytes; the result of a run that passes is replaced by the outcome of the
comparison, so its time and memory are dropped; the kernel's CPU limit is computed from the single limit only,
even when just the total limit is set; the table of budgets is cleared only in its first 128 entries; a
problem whose test cases cannot be queried is stored as one without test cases, for good, and every program
that compiles is accepted for it.

## Model

| member | source | states |
|---|---|---|
| Pools.Capacity | src/db.cpp:78-86 | numbers of connections from 1 to 10 are kept, larger ones below 2^32 become 10; there is none exactly when the configured number is 0 modulo 2^32 |
| Pools.Pick | src/db.cpp:102-123 | the slot handed out is the first idle one, and only if there is none the first unopened one |
| Pools.PickSucceeds | src/db.cpp:102-123 | a scan finds a slot if and only if not all slots are in use |
| Pools.ConnTable.constructor | src/db.cpp:60-86 | all usable slots start unopened, as many as the capped configuration says |
| Pools.ConnTable.Get | src/db.cpp:102-127 | the first idle slot, else the first unopened one, is marked used and returned; nothing else changes |
| Pools.ConnTable.Release | src/db.cpp:133-140 | exactly the slot of the given connection becomes available, if it was in use |
| Pools.JudgeTable.constructor | src/judge.cpp:461-465 | every judge starts available |
| Pools.JudgeTable.Get | src/judge.cpp:503-512 | the first available judge is marked used and returned, null only if there is none |
| Pools.JudgeTable.Release | src/judge.cpp:529-543 | exactly the given judge becomes available; the number logged is the number of available judges |
| Pools.TaskQueue.Add | src/threadpool.cpp:122-124 | keeps the queue first in, first out: with the new task last, what was handed out and what is queued still are all that was added, in order |
| Pools.TaskQueue.Get | src/threadpool.cpp:103-115 | the k-th task handed out is the k-th added; a wait exactly when all added have been handed out |
| Program.NextKeeps | src/judge.cpp:27-758 | at every point of the threads' code the next operation is legal in what the thread holds, and what it holds afterwards is what the operation says |
| Program.EachCaseFetched | src/judge.cpp:604-619 | once the queries have answered, fetch_testcase_from_ftp runs once for each test case, with its two directory lookups, and then the problem as answered is stored |
| Program.DirectoryLookups | src/judge.cpp:637-706 | get_src_dir and get_output_dir are called where the code calls them, and unlock exactly if they got the lock |
| Invariants.Keep | src/judge.cpp:495-558 | a legal operation of any thread keeps all invariants, whatever the other threads hold |
| Invariants.KeepWakeups | src/threadpool.cpp:98-127 | no operation strands a queued task: sleeping workers imply a signal or a woken worker for each |
| Invariants.KeepConnections | src/db.cpp:102-123 | claiming a connection opens one only when all opened ones are in use, and never a third |
| Engine.ReachableGood | src/judge.cpp:214-253 | every state of every run satisfies the invariants |
| Safety.MutualExclusion | src/judge.cpp:501-518 | a mutex is held by its recorded owner and no other thread |
| Safety.NoMisuse | src/judge.cpp:637-737 | no thread dereferences a null judge or connection, unlocks a mutex of another thread's, relocks its own, or touches the queue, the pools or the cache without their lock |
| Safety.PoolConservation | src/judge.cpp:495-558 | semaphore value + threads between semaphore and table = free slots, for both pools, in every state |
| Safety.SlotAlwaysFound | src/db.cpp:97-131 | a thread past the semaphore always finds a slot: get_judge and get_available_connection never return null |
| Safety.SlotsExclusive | src/judge.cpp:504-511 | no two threads hold the same judge or connection |
| Safety.JudgeWaitNeverBlocks | src/judge.cpp:467-469 | with as many judges as workers, waiting for a judge never blocks |
| Safety.ConnWaitNeverBlocks | src/db.cpp:97-100 | with two connections or more, waiting for one never blocks |
| Safety.ConnectionsOpened | src/db.cpp:112-123 | at most two connections are ever used or opened, each at most once, in order |
| Safety.ConnectionsMinimal | src/db.cpp:102-123 | over any run, as many connections are open as were ever in use at once |
| Safety.NoLostWakeup | src/threadpool.cpp:98-127 | while a worker sleeps, the queue is no longer than the signals due plus the workers woken and not yet rechecking |
| Safety.SignalInFlight | src/threadpool.cpp:119-127 | queued tasks with all workers asleep: the main thread is about to signal |
| Safety.ThrottleConservation | src/judge.cpp:214-253 | free permits + unfinished tasks = judges - permits taken + tasks added, for any mode sets |
| Safety.ThrottleBound | src/judge.cpp:325 | without submissions of both modes, unfinished tasks never outnumber the judges |
| Safety.GetProblemAtomic | src/judge.cpp:739-758 | from lookup to read one thread owns the judge lock, through all nested functions, and no other is in there |
| Safety.FetchUndisturbed | src/judge.cpp:708-737 | while a worker fetches test cases its trylocks fail, since it owns the lock, and it goes straight on |
| Safety.CacheOnce | src/judge.cpp:561-634 | each problem is fetched at most once, and every get_problem returns the limits and test cases that fetch was answered, or none of either if its query for test cases failed |
| Safety.CacheStable | src/judge.cpp:753 | a problem read once stays in the cache unchanged along every run |
| Safety.JudgedByItsProblem | src/judge.cpp:579-619 | the problem a task names has been fetched when it is judged, and it is judged with the limits and test cases answered, or with none of either if the query for test cases failed |
| Safety.SubmissionsBecomeTasks | src/judge.cpp:226-238 | the tasks added are, in order, one for each mode of each submission received, Debug first |
| Safety.ModesHonoured | src/judge.cpp:226-238 | every task has a mode its submission asks for; each submission received becomes one task for each of its modes, in order, Debug first, none missing between submissions |
| Safety.FifoDelivery | src/threadpool.cpp:112-123 | tasks dequeued followed by the queue are the tasks added; no two are the same |
| Safety.ExactlyOnce | src/threadpool.cpp:9-28 | a dequeued task is being run once or done once, and gets and releases a judge at most once, exactly once when done |
| Safety.RunByOne | src/threadpool.cpp:9-28 | no task is run by two workers |
| Liveness.WaitsDescend | src/judge.cpp:739-758 | whoever is waited for is awake and waits, if at all, for something nested deeper: fetch permit, judge lock, connection, queue or connection lock |
| Liveness.NoWaitCycle | src/judge.cpp:279-347 | the waits-for relation has no cycle: no thread comes twice in a chain of waiting threads, and no chain has more than five |
| Liveness.BlockedExactly | src/judge.cpp:214-253 | with a judge, a connection and at least one mode a submission, an awake thread is blocked if and only if it waits for another |
| Liveness.InnermostOwnerMoves | src/threadpool.cpp:98-127 | the owner of the queue lock or of the connection lock itself moves |
| Liveness.JudgeOwnerUnblocked | src/judge.cpp:739-758 | the owner of the judge lock moves, or a thread that it waits for, or one that this waits for |
| Liveness.Unblocked | src/judge.cpp:279-347 | from any awake thread a chain of threads, each waiting for the next, leads to one that moves; with two connections, not to a main thread that only polls |
| Liveness.WorkMoves | src/judge.cpp:27-45 | while a task is unfinished some thread moves |
| Liveness.DeadlockFree | src/judge.cpp:214-253 | with a judge, a connection and at least one mode a submission, no reachable state is a deadlock, not counting spurious wakeups |
| Liveness.ProgressUnaided | src/judge.cpp:289-340 | with two connections, or one connection, one judge and no submission of both modes, unfinished tasks never depend on new submissions arriving |
| Completion.StepSpends | src/judge.cpp:27-45 | every step of any thread lowers the work ahead of all threads, but for what the environment adds |
| Completion.RunBounded | src/judge.cpp:214-253 | no run is longer than the work ahead at its start plus what the environment adds on the way |
| Completion.QuietRunsFinish | src/threadpool.cpp:6-34 | a run to which nothing is added is bounded by the work ahead at its start; where nothing can go on, all tasks are finished, under the condition of ProgressUnaided |
| Exactness.DeadlockFreedomExact | src/judge.cpp:214-253 | deadlock freedom if and only if there is a judge, a connection, and no submission without mode |
| Exactness.ThrottleExact | src/judge.cpp:226-238 | the throttle bound if and only if no submission has both modes (or nothing can be judged) |
| Exactness.ProgressExact | src/judge.cpp:279-347 | progress without new submissions if and only if there are not one connection with several judges, nor one with a single judge and submissions of both modes (or nothing can be judged) |
| Exactness.Serves | src/judge.cpp:27-45 | a worker alone can take a queued task from the queue to the returned permit, leaving locks and pools as they were and the problem cached |
| Exactness.CompletionExact | src/judge.cpp:279-347 | all tasks can be finished from every state, nothing being added, if and only if the same condition holds |
| Isolation.TasksApart | src/judge.cpp:47-62 | with up to 1000 judges, two tasks run at once have different directories |
| Trylock.Balanced | src/judge.cpp:637-706 | with work_dir set, or as owner on entry, code of any nesting of getters and fetchers leaves the thread's ownership of the lock as found |
| Trylock.OwnerUnlocks | src/judge.cpp:708-737 | such code unlocks only as the owner, work_dir set or not |
| Trylock.BalancedExact | src/judge.cpp:642-643 | for each piece of code and owner on entry: ownership is left as found if and only if work_dir is set, the caller owns the lock, or no getter is called for the first time |
| Trylock.FetchTestcaseExact | src/judge.cpp:708-737 | fetching a test case leaves ownership as found if and only if work_dir is set, the directory is cached, or the caller owns the lock, as get_problem does |
| Limits.SecondsExact | include/dataitem.h:60-64 | get_second is the ceiling if and only if the time is not negative or a whole number of seconds |
| Limits.CpuLimits | src/lang.cpp:29-73 | both CPU limits are the tightest limit set, at least 1 unit, 0 if none is set; the seconds are the milliseconds rounded up |
| Limits.KernelLimits | src/lang.cpp:75-85 | for a single limit not negative, the kernel's soft limit is its seconds plus 1, the hard one one and a half times its seconds, rounded down, plus 1; the soft one lies above the monitor's if and only if the single limit is set or the total is below a second, and the single one is not minus one second; the hard limit is not below the soft one if and only if the single limit is no lower than that |
| Limits.ResourceLimit.constructor | include/dataitem.h:204-209 | no limit is set |
| Limits.ResourceLimit.Copy | include/dataitem.h:211-228 | all fields are equal and the budgets are not shared |
| Limits.ResourceLimit.Assign | include/dataitem.h:230-251 | all fields become equal, the original is unchanged and nothing is shared |
| Limits.ResourceLimit.SetWorkDir | include/dataitem.h:260-269 | the directory is replaced unless the new one is null |
| Limits.BuildTable | src/lang.cpp:134-141 | a listed call has the number of the last rule about it; an unlisted one 0 among the first 128, else what the allocator left |
| Limits.DefaultDenyExact | src/lang.cpp:136-140 | unlisted calls are all forbidden if and only if the entries not cleared happened to be 0 for them |
| Monitor.Examine | src/lang.cpp:248-359 | one turn of the loop: order of the rules, running maximum, elapsed time, one use of the budget |
| Monitor.Watch | src/lang.cpp:242-359 | the loop stops at the earliest report that trips, with its verdict, and each budget is the initial one less the stops let through |
| Monitor.Launch | src/lang.cpp:183-376 | the result is the one the earliest tripping report determines, from fresh budgets, whatever the limits object was used for before |
| Monitor.TripsExactly | src/lang.cpp:248-356 | the loop ends at a report over the memory limit, over a time limit set, other than a stop at a system call, or the stop that exceeds the table's budget for its call, and at no other |
| Monitor.LaunchVerdict | src/lang.cpp:264-370 | the verdict from the limits and reports as they come: memory, time, exit code, each signal, system call, in this order, the final peak counting as memory |
| Monitor.LaunchUsage | src/lang.cpp:255-271 | the memory reported is the peak or the largest sample; the time is user plus system time of the last report that was not over memory |
| Monitor.BudgetsLeft | src/lang.cpp:343-356 | each budget after a launch is the table's number less the stops before the deciding report, negative ones unchanged |
| Monitor.EarliestDecides | src/lang.cpp:248-359 | if any report trips, the earliest alone determines the outcome; otherwise the monitor waits |
| Monitor.VerdictStable | src/lang.cpp:248-359 | later reports do not change the outcome |
| Monitor.RunPassExact | src/lang.cpp:281-289 | RunPass if and only if the child exits with 0 after system-call stops only, all samples, times and counts and the final peak within limits |
| Monitor.MemoryVerdictExact | src/lang.cpp:251-264 | the reported memory is the largest sample or the final peak; with a limit set MemoryLimitExceed if and only if it exceeds the limit, with none set never |
| Monitor.SyscallVerdictExact | src/lang.cpp:343-356 | IllegalSystemCall if and only if, nothing else tripping, the stops before have used up the whole budget of the call |
| Verdicts.JudgeCase | src/lang.cpp:492-519 | the outcome of a test case depends on the problem's limits and the case alone, on limits used before as on fresh ones |
| Verdicts.CaseVerdict | src/lang.cpp:391-417 | after a clean run, which results of the two diffs give which verdict, and which outputs are kept under which number |
| Verdicts.CaseAsLaunched | src/lang.cpp:492-499 | any other run keeps the verdict and usage of the launch, and no output |
| Verdicts.OutputsApart | src/lang.cpp:507-515 | no two outputs kept within 100000 calls of the counter are kept under the same number |
| Verdicts.Judge | src/lang.cpp:450-537 | the results are launch-then-check of the test cases in order; Accept if and only if all are correct; CompileError and one result otherwise |
| Verdicts.CorrectCaseExact | src/lang.cpp:497-499 | a case is correct if and only if the run is clean, the case is no special one and the strict diff is empty |
| Verdicts.AcceptedExactly | src/lang.cpp:488-529 | all results are correct if and only if every test case is run clean and matches |
| Verdicts.AcceptedUnrunExact | src/lang.cpp:488-529 | a compiled program is accepted whatever it does if and only if there are no test cases |
| Acceptance.ProblemForGood | src/judge.cpp:739-758 | the limits and test cases a fetch was answered are what every later submission to the problem is judged by, however the run goes on |
| Acceptance.AcceptedForGood | src/judge.cpp:591-629 | all compiled submissions to a problem are accepted whatever they do if and only if the one fetch found no test cases or its query for them failed |
| Acceptance.FetchedLimitsEnforced | src/judge.cpp:579-588 | a program is over memory exactly above the fetched bytes, over time above the fetched milliseconds, and passes otherwise if it exits with 0 |
| Workdirs.ValueDecimal | src/judge.cpp:56-60 | printed numbers can be read back |
| Workdirs.WorkDirDigits | src/judge.cpp:50-60 | the directory is the main directory, "/judge", and the first three digits of the number |
| Workdirs.WorkDirsExact | src/judge.cpp:50-60 | the judges' directories are pairwise distinct if and only if there are at most 1000 |
| Workdirs.ResultCounter.Next | src/judge.cpp:271-277 | each call returns the next number modulo 1000000 |
| Workdirs.SuffixesExact | src/lang.cpp:508-515 | two calls give the same file suffix if and only if they are a multiple of 100000 calls apart, across the wrap |
| Workdirs.WindowDistinct | src/judge.cpp:271-277 | any 100000 calls in a row give distinct suffixes |

## Left out

- Watch: the loop body is a method of its own, and the loop ends when the given reports do instead of waiting for the next.
- Examine: system-call numbers outside 0..511, for which the source reads and writes past the table of budgets.
- KernelLimits: the CPU limits only; the address-space and file-size limits passed to the kernel and the alarm are not modelled.
- Launch: sizes and times are unbounded integers; wrap-around of page counts times page size in 64 bits is not modelled.
- Judge: compilation is its outcome only; the file and memory limits set for the compiler are not modelled, nor the copying of source, input and output files.
- Isolation.TasksApart: says nothing about clearing the directory between tasks.
- ResultCounter.Next: calls are taken one after another; the source does not lock the counter.
- The engine's threads and memory are values and its code a control-flow graph: the interleaving is the point. The in-place scans and the queue are classes in Pools.dfy; their methods' contracts and the engine's steps use the same functions (Pick, Taken, Freed, Front, Enqueued, Dequeued).
- Shutdown: `pool_destroy`, `destroy_judges`, `terminate` and process exit; `pool_destroy` sets its flag outside the mutex, so that waking every sleeper is not guaranteed.
- Database and network: queries, scripts and their errors, except that either query about a problem may fail; several rows in one answer about submissions; a missing row in the answer about limits.
- Interrupted semaphore waits, and failures of thread creation.
- The unlocked creation of the output directory's name by several workers at once; the lock it may take is modelled.
- Languages without a registered judge, for which the source dereferences null; registration of language judges.
- Fork, chroot, setuid, ptrace and wait4 themselves; signals are numbered as on x86 Linux.
- Logging, configuration parsing, the daemon's pid file, and the creation of singletons before the workers start.
