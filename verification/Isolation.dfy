/**
 Judges are exclusive and their directories differ, so tasks run side by side never share one.
 */
module Isolation {
  import opened Protocol
  import opened Engine
  import opened Safety
  import Pools
  import Workdirs

  /** Up to 1000 judges, two tasks being run at once with a judge each have different directories. */
  lemma TasksApart(c: Config, s: State, home: string, t: nat, u: nat)
    requires Reachable(c, s) && c.n <= 1000
    requires t < |s.threads| && u < |s.threads| && t != u
    requires ViewOf(s, t).judge.Has? && ViewOf(s, u).judge.Has?
    ensures Workdirs.WorkDir(home, ViewOf(s, t).judge.h) != Workdirs.WorkDir(home, ViewOf(s, u).judge.h)
    ensures ViewOf(s, t).job.Some? && ViewOf(s, u).job.Some? && ViewOf(s, t).job != ViewOf(s, u).job
  {
    SlotsExclusive(c, s, t, u, Pools.Judges);
    SlotsExclusive(c, s, u, t, Pools.Judges);
    Workdirs.WorkDirsDiffer(home, ViewOf(s, t).judge.h, ViewOf(s, u).judge.h);
    HoldersWork(c, s, t);
    HoldersWork(c, s, u);
    RunByOne(c, s, if t < u then t else u, if t < u then u else t);
  }
}
