/** Conservation of units: what posts, unlocks and condition waits give and successful tries take
    accounts for the value of every semaphore and the state of every mutex, in every run. */
module LockCounts {
  import opened Options
  import opened Scheduler
  import opened Safety
  import opened Phases
  import opened Locks

  /** The step takes a unit of the counter `c`. */
  ghost predicate Takes(k: Lk, x: LockLabel, c: Chan)
    requires CanDo(k, x)
  {
    Units(k, c) > 0 && ((x.Try? && k.task[x.t].chan == c) || (x.TryOnce? && x.chan == c))
  }

  /** The step gives a unit back. */
  predicate Gives(x: LockLabel, c: Chan) {
    || (x.SemPost? && c == Sem(x.x))
    || (x.Unlock? && c == Mutex(x.m))
    || (x.CondBegin? && c == Mutex(x.m))
  }

  /** Each step changes each counter by what it gives and takes, and by nothing else. */
  lemma UnitsStep(k: Lk, x: LockLabel, c: Chan)
    requires CanDo(k, x) && Counter(c)
    ensures Units(LkDo(k, x), c) ==
      Units(k, c) + (if Gives(x, c) then 1 else 0) - (if Takes(k, x, c) then 1 else 0)
  {
    if !x.Sched? && !x.Try? && !x.TryOnce? { GiveStep(k, x, c); }
  }

  lemma GiveStep(k: Lk, x: LockLabel, c: Chan)
    requires CanDo(k, x) && Counter(c) && !x.Sched? && !x.Try? && !x.TryOnce?
    ensures Units(LkDo(k, x), c) == Units(k, c) + if Gives(x, c) then 1 else 0
  {
  }

  function Given(xs: seq<LockLabel>, c: Chan, i: nat): nat
    requires i <= |xs|
  {
    if i == 0 then 0 else Given(xs, c, i - 1) + if Gives(xs[i - 1], c) then 1 else 0
  }

  ghost function Taken(ks: seq<Lk>, xs: seq<LockLabel>, c: Chan, i: nat): nat
    requires LockRun(ks, xs) && i <= |xs|
  {
    if i == 0 then 0
    else
      assert LockStepAt(ks, xs, i - 1);
      Taken(ks, xs, c, i - 1) + if Takes(ks[i - 1], xs[i - 1], c) then 1 else 0
  }

  /** In every run the units of a counter are its first value, plus the units given, minus the
      units taken: no post is lost and no try takes what is not there. */
  lemma {:induction false} Conservation(ks: seq<Lk>, xs: seq<LockLabel>, c: Chan, i: nat)
    requires LockRun(ks, xs) && i <= |xs| && Counter(c)
    ensures Units(ks[i], c) + Taken(ks, xs, c, i) == Units(ks[0], c) + Given(xs, c, i)
  {
    if i > 0 {
      Conservation(ks, xs, c, i - 1);
      assert LockStepAt(ks, xs, i - 1);
      UnitsStep(ks[i - 1], xs[i - 1], c);
    }
  }

  // Who has the mutex ---------------------------------------------------------------------------

  /** The thread that has taken the mutex and after which nobody has released it, by an unlock or
      by starting a condition wait. */
  ghost function Owner(ks: seq<Lk>, xs: seq<LockLabel>, m: nat, i: nat): Option<nat>
    requires LockRun(ks, xs) && i <= |xs|
  {
    if i == 0 then None
    else
      assert LockStepAt(ks, xs, i - 1);
      if Takes(ks[i - 1], xs[i - 1], Mutex(m)) then Some(xs[i - 1].t)
      else if Gives(xs[i - 1], Mutex(m)) then None
      else Owner(ks, xs, m, i - 1)
  }

  /** In every run a mutex is locked exactly while some thread has taken it and it has not been
      released, and it is taken only while it is free. */
  lemma {:induction false} LockedIffOwned(ks: seq<Lk>, xs: seq<LockLabel>, m: nat, i: nat)
    requires LockRun(ks, xs) && i <= |xs|
    ensures Units(ks[i], Mutex(m)) == if Owner(ks, xs, m, i).Some? then 0 else 1
  {
    if i == 0 {
      var idle: bool, r: nat, sems: map<nat, nat> :| ks[0] == LockInit(idle, r, sems);
    } else {
      LockedIffOwned(ks, xs, m, i - 1);
      assert LockStepAt(ks, xs, i - 1);
      UnitsStep(ks[i - 1], xs[i - 1], Mutex(m));
    }
  }

  /** At most one thread at a time: a second thread takes the mutex only after a release. */
  lemma {:induction false} ReleasedBetween(ks: seq<Lk>, xs: seq<LockLabel>, m: nat, i: nat, j: nat)
    returns (r: nat)
    requires LockRun(ks, xs) && i < j < |xs|
    requires CanDo(ks[i], xs[i]) && CanDo(ks[j], xs[j])
    requires Takes(ks[i], xs[i], Mutex(m)) && Takes(ks[j], xs[j], Mutex(m))
    ensures i < r < j && Gives(xs[r], Mutex(m))
  {
    assert Owner(ks, xs, m, i + 1) == Some(xs[i].t);
    LockedIffOwned(ks, xs, m, j);
    r := LastRelease(ks, xs, m, i, j);
  }

  lemma {:induction false} LastRelease(ks: seq<Lk>, xs: seq<LockLabel>, m: nat, i: nat, j: nat)
    returns (r: nat)
    requires LockRun(ks, xs) && i < j <= |xs|
    requires Owner(ks, xs, m, i + 1).Some? && Owner(ks, xs, m, j).None?
    ensures i < r < j && Gives(xs[r], Mutex(m))
  {
    OwnerStep(ks, xs, m, j - 1);
    if Gives(xs[j - 1], Mutex(m)) && j - 1 > i {
      r := j - 1;
    } else {
      r := LastRelease(ks, xs, m, i, j - 1);
    }
  }

  /** Only a release leaves a mutex without its owner. */
  lemma OwnerStep(ks: seq<Lk>, xs: seq<LockLabel>, m: nat, j: nat)
    requires LockRun(ks, xs) && j < |xs| && Owner(ks, xs, m, j + 1).None?
    ensures Gives(xs[j], Mutex(m)) || Owner(ks, xs, m, j).None?
  {
  }

  // Condition waits give the mutex back -------------------------------------------------------------

  /** Inside a condition wait with the mutex m. */
  predicate InCondWait(task: Task, m: nat) {
    || (task.Passing? && task.m == m)
    || (task.OnCond? && task.m == m)
    || (task.Acquire? && task.chan == Mutex(m) && task.deadline == FOREVER)
  }

  /** The only way out is a try that takes the mutex. */
  lemma CondWaitStep(k: Lk, x: LockLabel, t: nat, m: nat)
    requires CanDo(k, x) && t < |k.task| && InCondWait(k.task[t], m)
    ensures t < |LkDo(k, x).task|
    ensures InCondWait(LkDo(k, x).task[t], m) <==> !(x == Try(t) && Takes(k, x, Mutex(m)))
  {
    if !x.Sched? && x.t != t { OtherTask(k, x, t); }
  }

  /** A lock operation changes the task of its own thread only. */
  lemma OtherTask(k: Lk, x: LockLabel, t: nat)
    requires CanDo(k, x) && !x.Sched? && x.t != t && t < |k.task|
    ensures t < |LkDo(k, x).task| && LkDo(k, x).task[t] == k.task[t]
  {
  }

  /** In every run a thread that has come back from a condition wait has taken its mutex by a
      successful try. */
  lemma CondWaitRelocks(ks: seq<Lk>, xs: seq<LockLabel>, i: nat, j: nat, t: nat, cv: nat, m: nat, timed: bool)
    returns (r: nat)
    requires LockRun(ks, xs) && i < j < |ks| && xs[i] == CondBegin(t, cv, m, timed)
    requires t < |ks[j].task| && ks[j].task[t].NoTask?
    ensures i < r < j && xs[r] == Try(t) && CanDo(ks[r], xs[r]) && Takes(ks[r], xs[r], Mutex(m))
    ensures Owner(ks, xs, m, r + 1) == Some(t)
  {
    assert LockStepAt(ks, xs, i);
    r := LeavesCondWait(ks, xs, i + 1, j, t, m);
  }

  lemma {:induction false} LeavesCondWait(ks: seq<Lk>, xs: seq<LockLabel>, i: nat, j: nat, t: nat, m: nat)
    returns (r: nat)
    requires LockRun(ks, xs) && i <= j < |ks| && t < |ks[i].task| && InCondWait(ks[i].task[t], m)
    requires t < |ks[j].task| && !InCondWait(ks[j].task[t], m)
    ensures i <= r < j && xs[r] == Try(t) && CanDo(ks[r], xs[r]) && Takes(ks[r], xs[r], Mutex(m))
    decreases j - i
  {
    assert LockStepAt(ks, xs, i);
    CondWaitStep(ks[i], xs[i], t, m);
    if xs[i] == Try(t) && Takes(ks[i], xs[i], Mutex(m)) {
      r := i;
    } else {
      r := LeavesCondWait(ks, xs, i + 1, j, t, m);
    }
  }

  /** A condition wait waits on its variable until its deadline. */
  lemma CondWaitsOn(k: Lk, o: int, t: nat, d: nat)
    requires LockInv(k, o) && CanDo(k, CondPark(t, d))
    ensures LkDo(k, CondPark(t, d)).s.Sized() && t < |LkDo(k, CondPark(t, d)).s.pc|
    ensures PhaseOf(LkDo(k, CondPark(t, d)).s, t) == Entering(Cond(k.task[t].cv), d)
  {
    TickPhase(k.s, o, t, ThenPark(Cond(k.task[t].cv), d), t);
  }

  predicate HasTried(task: Task) {
    task.Acquire? && task.tried
  }

  /** A thread counts as having tried a counter only once a failed try has sent it to wait on it:
      whoever is signalled on a counter has waited for that counter. */
  lemma TriedHasWaited(k: Lk, o: int, x: LockLabel, t: nat)
    requires LockInv(k, o) && CanDo(k, x) && t < |k.task| && !HasTried(k.task[t])
    requires t < |LkDo(k, x).task| && HasTried(LkDo(k, x).task[t])
    ensures x == Try(t) && LkDo(k, x).s.Sized() && t < |LkDo(k, x).s.pc|
    ensures On(PhaseOf(LkDo(k, x).s, t), LkDo(k, x).task[t].chan)
  {
    if !x.Sched? && x.t != t { OtherTask(k, x, t); }
    assert x == Try(t);
    TickPhase(k.s, o, t, ThenPark(k.task[t].chan, k.task[t].deadline), t);
  }
}
