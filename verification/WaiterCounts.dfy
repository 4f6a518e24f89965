/** The waiter counts cond_map and sem_map agree with the wait queue in runs without timed
    waits on semaphores and condition variables. */
module WaiterCounts {
  import opened Scheduler
  import opened Safety
  import opened Phases
  import opened Locks

  predicate Counted(c: Chan) {
    c.Sem? || c.Cond?
  }

  function Recorded(k: Lk, c: Chan): int
    requires Counted(c)
  {
    if c.Sem? then Tally(k.semMap, c.id) else Tally(k.condMap, c.id)
  }

  /** The thread is counted for `c`: it waits, or it is on its way into the queue. */
  predicate Hit(task: Task, p: Phase, c: Chan) {
    On(p, c) || (task.Passing? && c == Cond(task.cv))
  }

  ghost function In(k: Lk, c: Chan): set<nat>
    requires k.s.Sized() && |k.task| == |k.s.pc|
  {
    set t | 0 <= t < |k.task| && Hit(k.task[t], PhaseOf(k.s, t), c)
  }

  predicate Unhurried(task: Task, p: Phase) {
    && (task.Acquire? && task.chan.Sem? ==> task.deadline == FOREVER)
    && (task.Passing? || task.OnCond? ==> !task.timed)
    && (!p.Free? && Counted(p.chan) ==> p.deadline == FOREVER)
  }

  ghost predicate AllUnhurried(k: Lk)
    requires k.s.Sized() && |k.task| == |k.s.pc|
  {
    forall t :: 0 <= t < |k.task| ==> Unhurried(k.task[t], PhaseOf(k.s, t))
  }

  ghost predicate CountOk(k: Lk, c: Chan)
    requires k.s.Sized() && |k.task| == |k.s.pc| && Counted(c)
  {
    Recorded(k, c) == |In(k, c)|
  }

  ghost predicate CountInv(k: Lk)
    requires k.s.Sized() && |k.task| == |k.s.pc|
  {
    AllUnhurried(k) && forall c :: Counted(c) ==> CountOk(k, c)
  }

  /** The step starts no timed wait on a semaphore or condition variable. */
  predicate Untimed(x: LockLabel) {
    && (x.Want? && x.chan.Sem? ==> x.deadline == FOREVER)
    && (x.CondBegin? ==> !x.timed)
  }

  // What a scheduler step does to the counted sets ----------------------------------------

  lemma MoveUnhurried(s: State, l: Label, s1: State, u: nat, task: Task)
    requires s.Sized() && u < |s.pc| && Moved(s, l, s1) && Unhurried(task, PhaseOf(s, u))
    requires u == l.t && l.Tick? && l.k.ThenPark? && Counted(l.k.chan) ==> l.k.deadline == FOREVER
    ensures Unhurried(task, PhaseOf(s1, u))
  {
    assert PhaseMove(s, l, u, PhaseOf(s, u), PhaseOf(s1, u));
  }

  lemma SameHits(k: Lk, k1: Lk, c: Chan)
    requires k.s.Sized() && |k.task| == |k.s.pc| && k1.s.Sized() && |k1.task| == |k1.s.pc|
    requires |k.task| <= |k1.task| && Counted(c) && CountOk(k, c) && Recorded(k1, c) == Recorded(k, c)
    requires forall u :: 0 <= u < |k.task| ==>
      (Hit(k1.task[u], PhaseOf(k1.s, u), c) <==> Hit(k.task[u], PhaseOf(k.s, u), c))
    requires forall u :: |k.task| <= u < |k1.task| ==> !Hit(k1.task[u], PhaseOf(k1.s, u), c)
    ensures CountOk(k1, c)
  {
    assert In(k1, c) == In(k, c);
  }

  /** A scheduler step by a thread whose task is kept, without entering or signalling `c`. */
  lemma QuietCount(k: Lk, l: Label, k1: Lk, c: Chan)
    requires k.s.Sized() && |k.task| == |k.s.pc| && AllUnhurried(k) && Counted(c) && CountOk(k, c)
    requires Moved(k.s, l, k1.s) && |k1.task| == |k1.s.pc| && Recorded(k1, c) == Recorded(k, c)
    requires forall u :: 0 <= u < |k.task| ==>
      k1.task[u] == k.task[u] || (k1.task[u].Passing? && k.task[u].Passing? && k1.task[u].cv == k.task[u].cv)
      || (!k1.task[u].Passing? && !k.task[u].Passing?)
    requires forall u :: |k.task| <= u < |k1.task| ==> k1.task[u].NoTask?
    requires !(l.Signal? && l.chan == c) && !(l.Tick? && l.k.ThenPark? && l.k.chan == c)
    ensures CountOk(k1, c)
  {
    forall u | 0 <= u < |k.task| ensures
      Hit(k1.task[u], PhaseOf(k1.s, u), c) <==> Hit(k.task[u], PhaseOf(k.s, u), c)
    {
      MovePhase(k.s, l, k1.s, u, c);
    }
    SameHits(k, k1, c);
  }

  lemma AllMoveUnhurried(k: Lk, l: Label, k1: Lk)
    requires k.s.Sized() && |k.task| == |k.s.pc| && AllUnhurried(k)
    requires Moved(k.s, l, k1.s) && |k1.task| == |k1.s.pc|
    requires forall u :: 0 <= u < |k.task| ==>
      k1.task[u] == k.task[u] || Unhurried(k1.task[u], PhaseOf(k.s, u))
    requires forall u :: |k.task| <= u < |k1.task| ==> k1.task[u].NoTask?
    requires l.Tick? && l.k.ThenPark? && Counted(l.k.chan) ==> l.k.deadline == FOREVER
    ensures AllUnhurried(k1)
  {
    forall u | 0 <= u < |k.task| ensures Unhurried(k1.task[u], PhaseOf(k1.s, u)) {
      MoveUnhurried(k.s, l, k1.s, u, k1.task[u]);
    }
  }

  lemma SchedCount(k: Lk, o: int, l: Label)
    requires LockInv(k, o) && CountInv(k) && CanDo(k, Sched(l))
    ensures LkDo(k, Sched(l)).s.Sized() && |LkDo(k, Sched(l)).task| == |LkDo(k, Sched(l)).s.pc|
    ensures CountInv(LkDo(k, Sched(l)))
  {
    var k1 := LkDo(k, Sched(l));
    StepMoves(k.s, o, l);
    DoSized(k.s, l);
    AllMoveUnhurried(k, l, k1);
    forall c | Counted(c) ensures CountOk(k1, c) {
      QuietCount(k, l, k1, c);
    }
  }

  // Steps that tick -----------------------------------------------------------------------

  lemma FakeTickCount(k: Lk, o: int, t: nat)
    requires LockInv(k, o) && CountInv(k) && CanDo(k, FakeTick(t))
    ensures CountInv(LkDo(k, FakeTick(t)))
  {
    var k1 := LkDo(k, FakeTick(t));
    var l := Tick(t, ThenWork);
    StepMoves(k.s, o, l);
    AllMoveUnhurried(k, l, k1);
    forall c | Counted(c) ensures CountOk(k1, c) {
      QuietCount(k, l, k1, c);
    }
  }

  /** A condition wait is counted from its start: parking changes nothing. */
  lemma CondParkCount(k: Lk, o: int, t: nat, d: nat)
    requires LockInv(k, o) && CountInv(k) && CanDo(k, CondPark(t, d))
    ensures CountInv(LkDo(k, CondPark(t, d)))
  {
    var k1 := LkDo(k, CondPark(t, d));
    var l := Tick(t, ThenPark(Cond(k.task[t].cv), d));
    StepMoves(k.s, o, l);
    TickPhase(k.s, o, t, l.k, t);
    PhaseOwner(k.s, o, t);
    assert Unhurried(k.task[t], PhaseOf(k.s, t));
    AllMoveUnhurried(k, l, k1);
    forall c | Counted(c) ensures CountOk(k1, c) {
      forall u | 0 <= u < |k.task| ensures
        Hit(k1.task[u], PhaseOf(k1.s, u), c) <==> Hit(k.task[u], PhaseOf(k.s, u), c)
      {
        assert Unhurried(k.task[u], PhaseOf(k.s, u));
        if u != t { MovePhase(k.s, l, k1.s, u, c); }
      }
      SameHits(k, k1, c);
    }
  }

  /** A failed semaphore retry counts the thread in. */
  lemma ParkCount(k: Lk, o: int, t: nat)
    requires LockInv(k, o) && CountInv(k) && CanDo(k, Try(t)) && Units(k, k.task[t].chan) == 0
    ensures CountInv(LkDo(k, Try(t)))
  {
    var k1 := LkDo(k, Try(t));
    var x := k.task[t].chan;
    var l := Tick(t, ThenPark(x, k.task[t].deadline));
    StepMoves(k.s, o, l);
    TickPhase(k.s, o, t, l.k, t);
    PhaseOwner(k.s, o, t);
    assert Unhurried(k.task[t], PhaseOf(k.s, t));
    AllMoveUnhurried(k, l, k1);
    forall c | Counted(c) ensures CountOk(k1, c) {
      if c != x {
        QuietCount(k, l, k1, c);
      } else {
        ParkCountIn(k, l, k1, c);
      }
    }
  }

  lemma ParkCountIn(k: Lk, l: Label, k1: Lk, c: Chan)
    requires k.s.Sized() && |k.task| == |k.s.pc| && AllUnhurried(k) && Counted(c) && CountOk(k, c)
    requires l.Tick? && l.t < |k.task| && Moved(k.s, l, k1.s) && |k1.task| == |k1.s.pc| == |k.task|
    requires Recorded(k1, c) == Recorded(k, c) + 1
    requires !k.task[l.t].Passing? && PhaseOf(k.s, l.t).Free?
    requires Hit(k1.task[l.t], PhaseOf(k1.s, l.t), c)
    requires forall u :: 0 <= u < |k.task| && u != l.t ==> k1.task[u] == k.task[u]
    ensures CountOk(k1, c)
  {
    forall u | 0 <= u < |k.task| && u != l.t ensures
      Hit(k1.task[u], PhaseOf(k1.s, u), c) <==> Hit(k.task[u], PhaseOf(k.s, u), c)
    {
      assert Unhurried(k.task[u], PhaseOf(k.s, u));
      MovePhase(k.s, l, k1.s, u, c);
    }
    assert In(k1, c) == In(k, c) + {l.t};
    assert l.t !in In(k, c);
  }

  // Steps that signal ---------------------------------------------------------------------

  /** While an idle-handed worker has the turn, the counted threads are the queued ones. */
  lemma WorkerSeesQueue(k: Lk, o: int, t: nat, c: Chan)
    requires LockInv(k, o) && CanWork(k, t) && k.task[t].NoTask? && Counted(c)
    ensures In(k, c) == WaitersOn(k.s, c)
  {
    NobodyEnters(k.s, o, t);
    forall u | 0 <= u < |k.task| ensures !k.task[u].Passing? {
      assert TaskFits(k.task[u], PhaseOf(k.s, u), k.s.pc[u]);
      if AtWork(k.s.pc[u]) { HolderOwns(k.s, o, u); }
    }
  }

  /** A signal that leaves the count of other channels alone. */
  lemma SignalOthers(k: Lk, o: int, t: nat, x: Chan, all: bool, k1: Lk, c: Chan)
    requires LockInv(k, o) && CountInv(k) && CanWork(k, t) && LockChan(x) && Counted(c) && c != x
    requires k1.s == Signal1(k.s, x, all) && |k1.task| == |k.task| && Recorded(k1, c) == Recorded(k, c)
    requires k1.task == k.task[t := k1.task[t]]
    requires k1.task[t] == k.task[t] || (k.task[t].Passing? && k1.task[t] == k.task[t].(given := true))
    ensures k1.s.Sized() && |k1.task| == |k1.s.pc| && CountOk(k1, c)
  {
    var l := Signal(t, x, all);
    StepMoves(k.s, o, l);
    QuietCount(k, l, k1, c);
  }

  lemma SignalUnhurried(k: Lk, o: int, t: nat, x: Chan, all: bool, k1: Lk)
    requires LockInv(k, o) && CountInv(k) && CanWork(k, t) && LockChan(x)
    requires k1.s == Signal1(k.s, x, all) && |k1.task| == |k.task| && k1.task == k.task[t := k1.task[t]]
    requires k1.task[t] == k.task[t] || (k.task[t].Passing? && k1.task[t] == k.task[t].(given := true))
    ensures k1.s.Sized() && |k1.task| == |k1.s.pc| && AllUnhurried(k1)
  {
    var l := Signal(t, x, all);
    StepMoves(k.s, o, l);
    assert Unhurried(k.task[t], PhaseOf(k.s, t));
    AllMoveUnhurried(k, l, k1);
  }

  /** Signalling `c` once: one counted thread fewer, and the count follows. */
  lemma SignalCount(k: Lk, o: int, t: nat, c: Chan, k1: Lk)
    requires LockInv(k, o) && CountInv(k) && CanWork(k, t) && k.task[t].NoTask? && Counted(c)
    requires k1.s == Signal1(k.s, c, false) && k1.task == k.task
    requires Recorded(k1, c) == Dec(Recorded(k, c))
    ensures k1.s.Sized() && |k1.task| == |k1.s.pc| && CountOk(k1, c)
  {
    WorkerSeesQueue(k, o, t, c);
    NoPassing(k, o, t);
    var x := SignalOnePhases(k.s, o, c);
    if WaitersOn(k.s, c) == {} {
      assert In(k1, c) == In(k, c);
    } else {
      OneLess(k, k1, c, x);
    }
  }

  lemma OneLess(k: Lk, k1: Lk, c: Chan, x: nat)
    requires k.s.Sized() && |k.task| == |k.s.pc| && k1.s.Sized() && |k1.s.pc| == |k.s.pc| && k1.task == k.task
    requires x in In(k, c) && !k.task[x].Passing? && PhaseOf(k1.s, x).Free?
    requires forall u :: 0 <= u < |k.s.pc| && u != x ==> PhaseOf(k1.s, u) == PhaseOf(k.s, u)
    ensures |In(k1, c)| == |In(k, c)| - 1
  {
    assert In(k1, c) == In(k, c) - {x};
  }

  lemma NoPassing(k: Lk, o: int, t: nat)
    requires LockInv(k, o) && CanWork(k, t) && k.task[t].NoTask?
    ensures forall u :: 0 <= u < |k.task| ==> !k.task[u].Passing?
  {
    PhaseOwner(k.s, o, t);
    forall u | 0 <= u < |k.task| ensures !k.task[u].Passing? {
      assert TaskFits(k.task[u], PhaseOf(k.s, u), k.s.pc[u]);
      if AtWork(k.s.pc[u]) { HolderOwns(k.s, o, u); }
    }
  }

  lemma BroadcastCount(k: Lk, o: int, t: nat, c: Chan, k1: Lk)
    requires LockInv(k, o) && CanWork(k, t) && k.task[t].NoTask? && Counted(c)
    requires k1.s == Signal1(k.s, c, true) && k1.task == k.task && Recorded(k1, c) == 0
    ensures k1.s.Sized() && |k1.task| == |k1.s.pc| && CountOk(k1, c)
  {
    NoPassing(k, o, t);
    NobodyEnters(k.s, o, t);
    forall u | 0 <= u < |k.task| ensures !Hit(k1.task[u], PhaseOf(k1.s, u), c) {
      SignalAllPhase(k.s, o, c, u);
    }
    assert In(k1, c) == {};
  }

  lemma SemPostCount(k: Lk, o: int, t: nat, x: nat)
    requires LockInv(k, o) && CountInv(k) && CanDo(k, SemPost(t, x))
    ensures var k1 := LkDo(k, SemPost(t, x)); k1.s.Sized() && |k1.task| == |k1.s.pc| && CountInv(k1)
  {
    var k1 := LkDo(k, SemPost(t, x));
    SignalUnhurried(k, o, t, Sem(x), false, k1);
    SignalCount(k, o, t, Sem(x), k1);
    forall c | Counted(c) && c != Sem(x) ensures CountOk(k1, c) {
      SignalOthers(k, o, t, Sem(x), false, k1, c);
    }
  }

  lemma CondSignalCount(k: Lk, o: int, t: nat, cv: nat)
    requires LockInv(k, o) && CountInv(k) && CanDo(k, CondSignal(t, cv))
    ensures var k1 := LkDo(k, CondSignal(t, cv)); k1.s.Sized() && |k1.task| == |k1.s.pc| && CountInv(k1)
  {
    var k1 := LkDo(k, CondSignal(t, cv));
    SignalUnhurried(k, o, t, Cond(cv), false, k1);
    SignalCount(k, o, t, Cond(cv), k1);
    forall c | Counted(c) && c != Cond(cv) ensures CountOk(k1, c) {
      SignalOthers(k, o, t, Cond(cv), false, k1, c);
    }
  }

  lemma CondBroadcastCount(k: Lk, o: int, t: nat, cv: nat)
    requires LockInv(k, o) && CountInv(k) && CanDo(k, CondBroadcast(t, cv))
    ensures var k1 := LkDo(k, CondBroadcast(t, cv)); k1.s.Sized() && |k1.task| == |k1.s.pc| && CountInv(k1)
  {
    var k1 := LkDo(k, CondBroadcast(t, cv));
    SignalUnhurried(k, o, t, Cond(cv), true, k1);
    BroadcastCount(k, o, t, Cond(cv), k1);
    forall c | Counted(c) && c != Cond(cv) ensures CountOk(k1, c) {
      SignalOthers(k, o, t, Cond(cv), true, k1, c);
    }
  }

  /** Signalling a mutex changes no counted set. */
  lemma MutexSignalCount(k: Lk, o: int, t: nat, m: nat, k1: Lk)
    requires LockInv(k, o) && CountInv(k) && CanWork(k, t)
    requires k1.s == Signal1(k.s, Mutex(m), false) && k1.semMap == k.semMap && k1.condMap == k.condMap
    requires |k1.task| == |k.task| && k1.task == k.task[t := k1.task[t]]
    requires k1.task[t] == k.task[t] || (k.task[t].Passing? && k1.task[t] == k.task[t].(given := true))
    ensures k1.s.Sized() && |k1.task| == |k1.s.pc| && CountInv(k1)
  {
    SignalUnhurried(k, o, t, Mutex(m), false, k1);
    forall c | Counted(c) ensures CountOk(k1, c) {
      SignalOthers(k, o, t, Mutex(m), false, k1, c);
    }
  }

  // Steps that change a task only -----------------------------------------------------------

  lemma TaskCount(k: Lk, o: int, t: nat, k1: Lk)
    requires LockInv(k, o) && CountInv(k) && CanWork(k, t)
    requires k1.s == k.s && k1.semMap == k.semMap && k1.condMap == k.condMap
    requires |k1.task| == |k.task| && k1.task == k.task[t := k1.task[t]]
    requires k1.task[t] == k.task[t] || (!k1.task[t].Passing? && !k.task[t].Passing?)
    requires Unhurried(k1.task[t], PhaseOf(k.s, t))
    ensures CountInv(k1)
  {
    forall c | Counted(c) ensures CountOk(k1, c) { SameHits(k, k1, c); }
  }

  lemma CondBeginCount(k: Lk, o: int, t: nat, cv: nat, m: nat)
    requires LockInv(k, o) && CountInv(k) && CanDo(k, CondBegin(t, cv, m, false))
    ensures CountInv(LkDo(k, CondBegin(t, cv, m, false)))
  {
    PhaseOwner(k.s, o, t);
    var k1 := LkDo(k, CondBegin(t, cv, m, false));
    forall c | Counted(c) && c != Cond(cv) ensures CountOk(k1, c) { SameHits(k, k1, c); }
    assert t !in In(k, Cond(cv));
    assert In(k1, Cond(cv)) == In(k, Cond(cv)) + {t};
  }

  lemma CondResumeCount(k: Lk, o: int, t: nat)
    requires LockInv(k, o) && CountInv(k) && CanDo(k, CondResume(t))
    ensures CountInv(LkDo(k, CondResume(t)))
  {
    PhaseOwner(k.s, o, t);
    assert Unhurried(k.task[t], PhaseOf(k.s, t));
    TaskCount(k, o, t, LkDo(k, CondResume(t)));
  }

  lemma WantCount(k: Lk, o: int, x: LockLabel)
    requires LockInv(k, o) && CountInv(k) && CanDo(k, x) && Untimed(x) && (x.Want? || x.TryOnce?)
    ensures CountInv(LkDo(k, x))
  {
    PhaseOwner(k.s, o, x.t);
    assert Unhurried(k.task[x.t], PhaseOf(k.s, x.t));
    TaskCount(k, o, x.t, LkDo(k, x));
  }

  lemma TakeCount(k: Lk, o: int, t: nat)
    requires LockInv(k, o) && CountInv(k) && CanDo(k, Try(t)) && Units(k, k.task[t].chan) > 0
    ensures CountInv(LkDo(k, Try(t)))
  {
    PhaseOwner(k.s, o, t);
    TaskCount(k, o, t, LkDo(k, Try(t)));
  }

  // Every run -------------------------------------------------------------------------------

  lemma TaskLabelCount(k: Lk, o: int, x: LockLabel)
    requires LockInv(k, o) && CountInv(k) && CanDo(k, x) && Untimed(x)
    requires x.Want? || x.TryOnce? || x.CondBegin? || x.CondResume?
    ensures LkDo(k, x).s == k.s && |LkDo(k, x).task| == |k.task| && CountInv(LkDo(k, x))
  {
    match x
    case CondBegin(t, cv, m, _) => CondBeginCount(k, o, t, cv, m);
    case CondResume(t) => CondResumeCount(k, o, t);
    case _ => WantCount(k, o, x);
  }

  lemma SignalLabelCount(k: Lk, o: int, x: LockLabel)
    requires LockInv(k, o) && CountInv(k) && CanDo(k, x)
    requires x.Unlock? || x.SemPost? || x.CondGive? || x.CondSignal? || x.CondBroadcast?
    ensures LkDo(k, x).s.Sized() && |LkDo(k, x).task| == |LkDo(k, x).s.pc| && CountInv(LkDo(k, x))
  {
    match x
    case Unlock(t, m) => MutexSignalCount(k, o, t, m, LkDo(k, x));
    case SemPost(t, y) => SemPostCount(k, o, t, y);
    case CondGive(t) => MutexSignalCount(k, o, t, k.task[t].m, LkDo(k, x));
    case CondSignal(t, cv) => CondSignalCount(k, o, t, cv);
    case CondBroadcast(t, cv) => CondBroadcastCount(k, o, t, cv);
  }

  lemma CountStep(k: Lk, o: int, x: LockLabel)
    requires LockInv(k, o) && CountInv(k) && CanDo(k, x) && Untimed(x)
    ensures LkDo(k, x).s.Sized() && |LkDo(k, x).task| == |LkDo(k, x).s.pc| && CountInv(LkDo(k, x))
  {
    if x.Want? || x.TryOnce? || x.CondBegin? || x.CondResume? {
      TaskLabelCount(k, o, x);
    } else if x.Unlock? || x.SemPost? || x.CondGive? || x.CondSignal? || x.CondBroadcast? {
      SignalLabelCount(k, o, x);
    } else {
      match x
      case Sched(l) => SchedCount(k, o, l);
      case FakeTick(t) => FakeTickCount(k, o, t);
      case CondPark(t, d) => CondParkCount(k, o, t, d);
      case Try(t) =>
        if Units(k, k.task[t].chan) > 0 { TakeCount(k, o, t); } else { ParkCount(k, o, t); }
    }
  }

  lemma {:induction false} CountRun(ks: seq<Lk>, xs: seq<LockLabel>, i: nat) returns (o: int)
    requires LockRun(ks, xs) && i < |ks| && forall j :: 0 <= j < |xs| ==> Untimed(xs[j])
    ensures LockInv(ks[i], o) && CountInv(ks[i])
  {
    if i == 0 {
      o := LockRunInv(ks, xs, 0);
      CountStart(ks[0]);
    } else {
      o := CountRun(ks, xs, i - 1);
      assert LockStepAt(ks, xs, i - 1);
      CountStep(ks[i - 1], o, xs[i - 1]);
      o := LockStepInv(ks[i - 1], o, xs[i - 1]);
    }
  }

  lemma CountStart(k: Lk)
    requires exists idle: bool, r: nat, sems: map<nat, nat> :: k == LockInit(idle, r, sems)
    ensures k.s.Sized() && |k.task| == |k.s.pc| && CountInv(k)
  {
    forall c | Counted(c) ensures CountOk(k, c) { assert In(k, c) == {}; }
  }

  /** Nobody is in the middle of work with the turn. */
  ghost predicate TurnBoundary(s: State) {
    forall t :: 0 <= t < |s.pc| ==>
      !AtWork(s.pc[t]) && !s.pc[t].Parking? && !((s.pc[t].Checking? || s.pc[t].Merging?) && s.pc[t].k.ThenPark?)
  }

  /** At every turn boundary of a run without timed waits, sem_map and cond_map give the number
      of threads in the wait queue on the semaphore or condition variable. */
  lemma CountsAgree(ks: seq<Lk>, xs: seq<LockLabel>, i: nat, c: Chan)
    requires LockRun(ks, xs) && (forall j :: 0 <= j < |xs| ==> Untimed(xs[j]))
    requires i < |ks| && TurnBoundary(ks[i].s) && Counted(c)
    ensures ks[i].s.Sized() && Recorded(ks[i], c) == |WaitersOn(ks[i].s, c)|
  {
    var o := CountRun(ks, xs, i);
    var k := ks[i];
    forall u | 0 <= u < |k.task| ensures Hit(k.task[u], PhaseOf(k.s, u), c) <==> WaitsOn(PhaseOf(k.s, u), c) {
      assert TaskFits(k.task[u], PhaseOf(k.s, u), k.s.pc[u]);
    }
    assert In(k, c) == WaitersOn(k.s, c);
    assert CountOk(k, c);
  }
}
