/** Mutexes, semaphores and condition variables over the scheduler.

    A thread that works with the turn tries to take a unit of a counter (a free mutex is one
    unit, a semaphore its value) and parks on the counter's channel when there is none.  A
    wake-up is only a hint: the thread tries again.  Condition waits release their mutex, park
    on the condition variable and then acquire the mutex like anybody else. */
module Locks {
  import opened Scheduler
  import opened Safety
  import opened Phases

  /** The operation a thread is inside of. */
  datatype Task =
    | NoTask
    | Acquire(chan: Chan, deadline: nat, tried: bool)            // the retry loop
    | Passing(cv: nat, m: nat, timed: bool, given: bool)         // condition wait, not yet parked
    | OnCond(cv: nat, m: nat, timed: bool)                       // parked, or woken and not resumed

  datatype Lk = Lk(
    s: State,
    task: seq<Task>,
    units: map<Chan, nat>,
    condMap: map<nat, int>,
    semMap: map<nat, int>)

  datatype LockLabel =
    | Sched(l: Label)                                            // anything else
    | Want(t: nat, chan: Chan, deadline: nat)
    | Try(t: nat)
    | TryOnce(t: nat, chan: Chan)
    | Unlock(t: nat, m: nat)
    | SemPost(t: nat, x: nat)
    | CondBegin(t: nat, cv: nat, m: nat, timed: bool)
    | FakeTick(t: nat)
    | CondGive(t: nat)
    | CondPark(t: nat, deadline: nat)
    | CondResume(t: nat)
    | CondSignal(t: nat, cv: nat)
    | CondBroadcast(t: nat, cv: nat)

  predicate Counter(c: Chan) {
    c.Mutex? || c.Sem?
  }

  predicate LockChan(c: Chan) {
    Counter(c) || c.Cond?
  }

  /** A mutex nobody has locked yet is free. */
  function Units(k: Lk, c: Chan): nat {
    if c in k.units then k.units[c] else if c.Mutex? then 1 else 0
  }

  function Tally(m: map<nat, int>, x: nat): int {
    if x in m then m[x] else 0
  }

  function Dec(n: int): int {
    if n > 0 then n - 1 else n
  }

  ghost predicate CanWork(k: Lk, t: nat) {
    k.s.Sized() && |k.task| == |k.s.pc| && t < |k.s.pc| && k.s.pc[t].Work? && !k.s.IsIdle(t)
  }

  ghost predicate CanDo(k: Lk, x: LockLabel) {
    match x
    case Sched(l) =>
      && k.s.Sized() && |k.task| == |k.s.pc| && Enabled(k.s, l)
      && (Outside(l) ==> k.task[l.t].NoTask?)
      && (l.Signal? ==> !LockChan(l.chan))
      && (l.Tick? && l.k.ThenPark? ==> !LockChan(l.k.chan))
    case Want(t, c, d) => CanWork(k, t) && k.task[t].NoTask? && Counter(c) && d <= FOREVER
    case Try(t) => CanWork(k, t) && k.task[t].Acquire?
    case TryOnce(t, c) => CanWork(k, t) && k.task[t].NoTask? && Counter(c)
    case Unlock(t, m) => CanWork(k, t) && k.task[t].NoTask? && Units(k, Mutex(m)) == 0
    case SemPost(t, _) => CanWork(k, t) && k.task[t].NoTask?
    case CondBegin(t, _, m, _) => CanWork(k, t) && k.task[t].NoTask? && Units(k, Mutex(m)) == 0
    case FakeTick(t) => CanWork(k, t) && k.task[t].Passing?
    case CondGive(t) => CanWork(k, t) && k.task[t].Passing? && !k.task[t].given
    case CondPark(t, d) => CanWork(k, t) && k.task[t].Passing? && k.task[t].given && d <= FOREVER
                           && (!k.task[t].timed ==> d == FOREVER)
    case CondResume(t) => CanWork(k, t) && k.task[t].OnCond?
    case CondSignal(t, _) => CanWork(k, t) && k.task[t].NoTask?
    case CondBroadcast(t, _) => CanWork(k, t) && k.task[t].NoTask?
  }

  function SetTask(k: Lk, t: nat, task: Task): Lk
    requires t < |k.task|
  {
    k.(task := k.task[t := task])
  }

  function SetUnits(k: Lk, c: Chan, n: nat): Lk {
    k.(units := k.units[c := n])
  }

  // The operations ----------------------------------------------------------------------

  /** One round of the retry loop: take a unit, or park and try again when woken. */
  function Tried(k: Lk, t: nat): Lk
    requires k.s.Sized() && t < |k.task| == |k.s.pc| && k.task[t].Acquire?
  {
    var c := k.task[t].chan;
    if Units(k, c) > 0 then
      SetUnits(SetTask(k, t, NoTask), c, Units(k, c) - 1)
    else
      SetTask(k, t, k.task[t].(tried := true))
      .(s := Ticked(k.s, t, ThenPark(c, k.task[t].deadline)),
        semMap := if c.Sem? then k.semMap[c.id := Tally(k.semMap, c.id) + 1] else k.semMap)
  }

  function TriedOnce(k: Lk, c: Chan): Lk {
    if Units(k, c) > 0 then SetUnits(k, c, Units(k, c) - 1) else k
  }

  function Unlocked(k: Lk, m: nat): Lk
    requires k.s.Sized()
  {
    SetUnits(k, Mutex(m), 1).(s := Signal1(k.s, Mutex(m), false))
  }

  function SemPosted(k: Lk, x: nat): Lk
    requires k.s.Sized()
  {
    SetUnits(k, Sem(x), Units(k, Sem(x)) + 1)
    .(s := Signal1(k.s, Sem(x), false), semMap := k.semMap[x := Dec(Tally(k.semMap, x))])
  }

  /** A condition wait counts itself and unlocks the mutex ... */
  function CondBegun(k: Lk, t: nat, cv: nat, m: nat, timed: bool): Lk
    requires t < |k.task|
  {
    SetUnits(SetTask(k, t, Passing(cv, m, timed, false)), Mutex(m), 1)
    .(condMap := k.condMap[cv := Tally(k.condMap, cv) + 1])
  }

  /** ... signals the mutex (before its extra clock tick, or after it when timed) ... */
  function CondGiven(k: Lk, t: nat): Lk
    requires k.s.Sized() && t < |k.task| && k.task[t].Passing?
  {
    SetTask(k, t, k.task[t].(given := true)).(s := Signal1(k.s, Mutex(k.task[t].m), false))
  }

  /** ... waits on the condition variable ... */
  function CondParked(k: Lk, t: nat, d: nat): Lk
    requires k.s.Sized() && t < |k.task| == |k.s.pc| && k.task[t].Passing?
  {
    var task := k.task[t];
    SetTask(k, t, OnCond(task.cv, task.m, task.timed))
    .(s := Ticked(k.s, t, ThenPark(Cond(task.cv), d)))
  }

  /** ... and once woken goes for the mutex; a timed-out wait takes itself off the count. */
  function CondResumed(k: Lk, t: nat): Lk
    requires k.s.Sized() && t < |k.task| == |k.s.pc| && k.task[t].OnCond?
  {
    var cv := k.task[t].cv;
    SetTask(k, t, Acquire(Mutex(k.task[t].m), FOREVER, false))
    .(condMap := if k.task[t].timed && k.s.waits[t].reason.TimedOut?
                 then k.condMap[cv := Tally(k.condMap, cv) - 1] else k.condMap)
  }

  function CondSignalled(k: Lk, cv: nat): Lk
    requires k.s.Sized()
  {
    k.(s := Signal1(k.s, Cond(cv), false), condMap := k.condMap[cv := Dec(Tally(k.condMap, cv))])
  }

  function CondBroadcasted(k: Lk, cv: nat): Lk
    requires k.s.Sized()
  {
    k.(s := Signal1(k.s, Cond(cv), true), condMap := k.condMap[cv := 0])
  }

  ghost function LkDo(k: Lk, x: LockLabel): Lk
    requires CanDo(k, x)
  {
    match x
    case Sched(l) => k.(s := Do(k.s, l), task := if l.Spawn? then k.task + [NoTask] else k.task)
    case Want(t, c, d) => SetTask(k, t, Acquire(c, d, false))
    case Try(t) => Tried(k, t)
    case TryOnce(_, c) => TriedOnce(k, c)
    case Unlock(_, m) => Unlocked(k, m)
    case SemPost(_, y) => SemPosted(k, y)
    case CondBegin(t, cv, m, timed) => CondBegun(k, t, cv, m, timed)
    case FakeTick(t) => k.(s := Ticked(k.s, t, ThenWork))
    case CondGive(t) => CondGiven(k, t)
    case CondPark(t, d) => CondParked(k, t, d)
    case CondResume(t) => CondResumed(k, t)
    case CondSignal(_, cv) => CondSignalled(k, cv)
    case CondBroadcast(_, cv) => CondBroadcasted(k, cv)
  }

  // The invariant -------------------------------------------------------------------------

  /** The thread works with the turn, possibly inside incTurnCount. */
  predicate AtWork(pc: Pc) {
    pc.Work? || ((pc.Checking? || pc.Merging?) && pc.k.ThenWork?)
  }

  predicate TaskFits(task: Task, p: Phase, pc: Pc) {
    match task
    case NoTask => p.Free? || !LockChan(p.chan)
    case Acquire(c, d, tried) => Counter(c) && d <= FOREVER && (p.Free? || (tried && p.chan == c))
    case Passing(_, _, _, _) => p.Free? && AtWork(pc)
    case OnCond(cv, _, _) => p.Free? || p.chan == Cond(cv)
  }

  ghost predicate TasksFit(k: Lk)
    requires k.s.Sized()
  {
    && |k.task| == |k.s.pc|
    && forall t :: 0 <= t < |k.task| ==> TaskFits(k.task[t], PhaseOf(k.s, t), k.s.pc[t])
  }

  /** Signalled on the counter `c` and not yet retried. */
  predicate Pends(task: Task, p: Phase, c: Chan) {
    task.Acquire? && task.tried && task.chan == c && p == Free(Signalled)
  }

  /** Has unlocked the mutex of its condition wait and is about to signal it. */
  predicate Owes(task: Task, c: Chan) {
    task.Passing? && !task.given && c == Mutex(task.m)
  }

  ghost function Pending(k: Lk, c: Chan): set<nat>
    requires k.s.Sized() && |k.task| == |k.s.pc|
  {
    set t | 0 <= t < |k.task| && Pends(k.task[t], PhaseOf(k.s, t), c)
  }

  ghost function Owed(k: Lk, c: Chan): set<nat> {
    set t | 0 <= t < |k.task| && Owes(k.task[t], c)
  }

  /** While somebody waits on the counter, every unit has a thread on its way to it. */
  ghost predicate Covered(k: Lk, c: Chan)
    requires k.s.Sized() && |k.task| == |k.s.pc|
  {
    WaitersOn(k.s, c) != {} ==> Units(k, c) <= |Pending(k, c)| + |Owed(k, c)|
  }

  /** A thread only goes to wait on an exhausted counter. */
  ghost predicate EntersEmpty(k: Lk)
    requires k.s.Sized()
  {
    forall t :: 0 <= t < |k.s.pc| && PhaseOf(k.s, t).Entering? && Counter(PhaseOf(k.s, t).chan) ==>
      Units(k, PhaseOf(k.s, t).chan) == 0
  }

  ghost predicate LockInv(k: Lk, o: int) {
    && Inv(k.s, o)
    && TasksFit(k)
    && EntersEmpty(k)
    && (forall m :: Units(k, Mutex(m)) <= 1)
    && (forall c :: Counter(c) ==> Covered(k, c))
  }

  // Frame lemmas ----------------------------------------------------------------------------

  /** Coverage survives when units only shrink, nobody on the way turns back, and new waiters
      find the counter exhausted. */
  lemma KeepCovered(k: Lk, k1: Lk, c: Chan)
    requires k.s.Sized() && |k.task| == |k.s.pc| && Covered(k, c)
    requires k1.s.Sized() && |k1.task| == |k1.s.pc| && |k.task| <= |k1.task|
    requires Units(k1, c) <= Units(k, c)
    requires forall u :: 0 <= u < |k.task| ==>
      (Pends(k.task[u], PhaseOf(k.s, u), c) ==> Pends(k1.task[u], PhaseOf(k1.s, u), c))
      && (Owes(k.task[u], c) ==> Owes(k1.task[u], c))
    requires forall u :: 0 <= u < |k1.task| && WaitsOn(PhaseOf(k1.s, u), c) ==>
      (u < |k.task| && WaitsOn(PhaseOf(k.s, u), c)) || Units(k1, c) == 0
    ensures Covered(k1, c)
  {
    if WaitersOn(k1.s, c) != {} && Units(k1, c) != 0 {
      var u :| u in WaitersOn(k1.s, c);
      assert u in WaitersOn(k.s, c);
      Subset(Pending(k, c), Pending(k1, c));
      Subset(Owed(k, c), Owed(k1, c));
    }
  }

  lemma {:induction false} Subset(a: set<nat>, b: set<nat>)
    requires a <= b
    ensures |a| <= |b|
  {
    assert b == a + (b - a);
    assert |b| == |a| + |b - a|;
  }

  /** While a thread works with the turn, nobody is entering the wait queue. */
  lemma NobodyEnters(s: State, o: int, t: nat)
    requires Inv(s, o) && t < |s.pc| && s.pc[t].Work?
    ensures t == o && forall u :: 0 <= u < |s.pc| ==> !PhaseOf(s, u).Entering?
  {
    PhaseOwner(s, o, t);
    forall u | 0 <= u < |s.pc| ensures !PhaseOf(s, u).Entering? {
      PhaseOwner(s, o, u);
    }
  }

  /** A thread other than the one that steps stays consistent with its task. */
  lemma OtherFits(s: State, l: Label, s1: State, u: nat, task: Task)
    requires s.Sized() && Moved(s, l, s1) && u < |s.pc| && u != l.t
    requires TaskFits(task, PhaseOf(s, u), s.pc[u])
    ensures TaskFits(task, PhaseOf(s1, u), s1.pc[u])
  {
    assert PhaseMove(s, l, u, PhaseOf(s, u), PhaseOf(s1, u));
  }

  /** Coverage after a scheduler step that is not `t`'s retry on `c`. */
  lemma MoveCovered(k: Lk, l: Label, k1: Lk, c: Chan)
    requires k.s.Sized() && TasksFit(k) && EntersEmpty(k) && Counter(c) && Covered(k, c)
    requires Moved(k.s, l, k1.s) && |k1.task| == |k1.s.pc| && k1.units == k.units
    requires forall u :: 0 <= u < |k.task| && u != l.t ==> k1.task[u] == k.task[u]
    requires l.t < |k.task| ==> k1.task[l.t] == k.task[l.t] || !k.task[l.t].Acquire?
    requires l.t < |k.task| && Owes(k.task[l.t], c) ==> Owes(k1.task[l.t], c)
    requires Outside(l) && l.t < |k.task| ==> !k.task[l.t].Acquire?
    ensures Covered(k1, c)
  {
    forall u | 0 <= u < |k.task| ensures
      (Pends(k.task[u], PhaseOf(k.s, u), c) ==> Pends(k1.task[u], PhaseOf(k1.s, u), c))
      && (WaitsOn(PhaseOf(k1.s, u), c) ==> WaitsOn(PhaseOf(k.s, u), c) || Units(k1, c) == 0)
    {
      assert PhaseMove(k.s, l, u, PhaseOf(k.s, u), PhaseOf(k1.s, u));
    }
    KeepCovered(k, k1, c);
  }

  /** Threads go on entering, or start to, as the step says. */
  lemma MoveEnters(k: Lk, l: Label, k1: Lk)
    requires k.s.Sized() && EntersEmpty(k) && Moved(k.s, l, k1.s) && k1.units == k.units
    requires l.Tick? && l.k.ThenPark? && Counter(l.k.chan) ==> Units(k, l.k.chan) == 0
    ensures EntersEmpty(k1)
  {
    forall u | 0 <= u < |k1.s.pc| && PhaseOf(k1.s, u).Entering? && Counter(PhaseOf(k1.s, u).chan)
      ensures Units(k1, PhaseOf(k1.s, u).chan) == 0
    {
      assert u < |k.s.pc| ==> PhaseMove(k.s, l, u, PhaseOf(k.s, u), PhaseOf(k1.s, u));
    }
  }

  // Scheduler steps -----------------------------------------------------------------------

  lemma AtWorkStep(s: State, l: Label)
    requires s.Sized() && Enabled(s, l) && AtWork(s.pc[l.t]) && !Outside(l)
    ensures AtWork(Do(s, l).pc[l.t])
  {
    assert l.ReadFlag? || l.Merge?;
  }

  lemma SelfFits(s: State, l: Label, s1: State, task: Task)
    requires s.Sized() && l.t < |s.pc| && Moved(s, l, s1)
    requires TaskFits(task, PhaseOf(s, l.t), s.pc[l.t])
    requires Outside(l) ==> task.NoTask?
    requires task.Passing? ==> AtWork(s1.pc[l.t]) && !l.Park?
    requires l.Tick? && l.k.ThenPark? ==> !LockChan(l.k.chan)
    ensures TaskFits(task, PhaseOf(s1, l.t), s1.pc[l.t])
  {
    assert PhaseMove(s, l, l.t, PhaseOf(s, l.t), PhaseOf(s1, l.t));
  }

  lemma SchedStep(k: Lk, o: int, l: Label)
    requires LockInv(k, o) && CanDo(k, Sched(l))
    ensures LockInv(LkDo(k, Sched(l)), NextOwner(k.s, l, o))
  {
    var k1 := LkDo(k, Sched(l));
    StepInv(k.s, o, l);
    StepMoves(k.s, o, l);
    DoSized(k.s, l);
    forall u | 0 <= u < |k1.task| ensures TaskFits(k1.task[u], PhaseOf(k1.s, u), k1.s.pc[u]) {
      if u == l.t {
        if k.task[u].Passing? { AtWorkStep(k.s, l); }
        SelfFits(k.s, l, k1.s, k.task[u]);
      } else if u < |k.task| {
        OtherFits(k.s, l, k1.s, u, k.task[u]);
      }
    }
    MoveEnters(k, l, k1);
    forall c | Counter(c) ensures Covered(k1, c) {
      MoveCovered(k, l, k1, c);
    }
  }

  // Lock steps without a scheduler step -----------------------------------------------------

  /** A worker changes its task and possibly takes a unit it is not counted for. */
  lemma TaskStep(k: Lk, o: int, t: nat, k1: Lk)
    requires LockInv(k, o) && CanWork(k, t)
    requires k1.s == k.s && |k1.task| == |k.task| && k1.task == k.task[t := k1.task[t]]
    requires forall c :: Units(k1, c) <= Units(k, c)
    requires TaskFits(k1.task[t], PhaseOf(k.s, t), k.s.pc[t])
    requires k.task[t] == k1.task[t]
      || ((k.task[t].Acquire? ==> !k.task[t].tried) && !k.task[t].Passing?)
    ensures LockInv(k1, o)
  {
    NobodyEnters(k.s, o, t);
    forall c | Counter(c) ensures Covered(k1, c) { KeepCovered(k, k1, c); }
  }

  /** A retry that succeeds uses up the unit the thread was signalled for. */
  lemma TakeStep(k: Lk, o: int, t: nat)
    requires LockInv(k, o) && CanDo(k, Try(t)) && Units(k, k.task[t].chan) > 0
    ensures LockInv(LkDo(k, Try(t)), o)
  {
    NobodyEnters(k.s, o, t);
    PhaseOwner(k.s, o, t);
    var k1 := LkDo(k, Try(t));
    var c := k.task[t].chan;
    forall x | Counter(x) && x != c ensures Covered(k1, x) { KeepCovered(k, k1, x); }
    assert Pending(k1, c) == Pending(k, c) - {t};
    assert Owed(k1, c) == Owed(k, c);
  }

  lemma CondBeginStep(k: Lk, o: int, t: nat, cv: nat, m: nat, timed: bool)
    requires LockInv(k, o) && CanDo(k, CondBegin(t, cv, m, timed))
    ensures LockInv(LkDo(k, CondBegin(t, cv, m, timed)), o)
  {
    NobodyEnters(k.s, o, t);
    PhaseOwner(k.s, o, t);
    var k1 := LkDo(k, CondBegin(t, cv, m, timed));
    forall x | Counter(x) && x != Mutex(m) ensures Covered(k1, x) { KeepCovered(k, k1, x); }
    assert t in Owed(k1, Mutex(m));
  }

  // Lock steps that tick --------------------------------------------------------------------

  /** The clock ticks under a worker that changes its task. */
  lemma TickStep(k: Lk, o: int, t: nat, h: Then, k1: Lk)
    requires LockInv(k, o) && CanWork(k, t) && CanTick(k.s, t, h)
    requires k1.s == Ticked(k.s, t, h) && k1.units == k.units
    requires |k1.task| == |k.task| && k1.task == k.task[t := k1.task[t]]
    requires TaskFits(k1.task[t], PhaseOf(k1.s, t), k1.s.pc[t])
    requires h.ThenPark? && Counter(h.chan) ==> Units(k, h.chan) == 0
    requires k.task[t].Acquire? ==> Units(k, k.task[t].chan) == 0
    requires k.task[t].Passing? ==> k1.task[t] == k.task[t] || k.task[t].given
    ensures LockInv(k1, o)
  {
    var l := Tick(t, h);
    StepInv(k.s, o, l);
    StepMoves(k.s, o, l);
    forall u | 0 <= u < |k1.task| && u != t ensures TaskFits(k1.task[u], PhaseOf(k1.s, u), k1.s.pc[u]) {
      OtherFits(k.s, l, k1.s, u, k.task[u]);
    }
    MoveEnters(k, l, k1);
    forall c | Counter(c) && Units(k1, c) > 0 ensures Covered(k1, c) {
      TickCovered(k, t, h, k1, c);
    }
  }

  lemma TickCovered(k: Lk, t: nat, h: Then, k1: Lk, c: Chan)
    requires k.s.Sized() && TasksFit(k) && EntersEmpty(k) && Counter(c) && Covered(k, c)
    requires t < |k.task|
    requires Moved(k.s, Tick(t, h), k1.s) && |k1.task| == |k1.s.pc| && k1.units == k.units
    requires |k1.task| == |k.task| && k1.task == k.task[t := k1.task[t]] && Units(k, c) > 0
    requires k.task[t].Acquire? ==> Units(k, k.task[t].chan) == 0
    requires k.task[t].Passing? ==> k1.task[t] == k.task[t] || k.task[t].given
    ensures Covered(k1, c)
  {
    forall u | 0 <= u < |k.task| ensures
      (Pends(k.task[u], PhaseOf(k.s, u), c) ==> Pends(k1.task[u], PhaseOf(k1.s, u), c))
      && (WaitsOn(PhaseOf(k1.s, u), c) ==> WaitsOn(PhaseOf(k.s, u), c))
    {
      assert PhaseMove(k.s, Tick(t, h), u, PhaseOf(k.s, u), PhaseOf(k1.s, u));
    }
    KeepCovered(k, k1, c);
  }

  /** A retry that fails parks; the counter is exhausted, so no unit is left uncovered. */
  lemma ParkStep(k: Lk, o: int, t: nat)
    requires LockInv(k, o) && CanDo(k, Try(t)) && Units(k, k.task[t].chan) == 0
    ensures LockInv(LkDo(k, Try(t)), o)
  {
    var h := ThenPark(k.task[t].chan, k.task[t].deadline);
    TickPhase(k.s, o, t, h, t);
    TickStep(k, o, t, h, LkDo(k, Try(t)));
  }

  lemma CondParkStep(k: Lk, o: int, t: nat, d: nat)
    requires LockInv(k, o) && CanDo(k, CondPark(t, d))
    ensures LockInv(LkDo(k, CondPark(t, d)), o)
  {
    var h := ThenPark(Cond(k.task[t].cv), d);
    TickPhase(k.s, o, t, h, t);
    TickStep(k, o, t, h, LkDo(k, CondPark(t, d)));
  }

  lemma FakeTickStep(k: Lk, o: int, t: nat)
    requires LockInv(k, o) && CanDo(k, FakeTick(t))
    ensures LockInv(LkDo(k, FakeTick(t)), o)
  {
    TickPhase(k.s, o, t, ThenWork, t);
    TickStep(k, o, t, ThenWork, LkDo(k, FakeTick(t)));
  }

  // Lock steps that signal --------------------------------------------------------------------

  /** Signalling a counter on which somebody waits puts one more thread on the way to it. */
  lemma SignalPends(k: Lk, o: int, c: Chan, k1: Lk)
    requires LockInv(k, o) && Counter(c) && k1.s == Signal1(k.s, c, false) && |k1.task| == |k.task|
    requires forall u :: 0 <= u < |k.task| && k.task[u].Acquire? ==> k1.task[u] == k.task[u]
    ensures k1.s.Sized() && |k1.task| == |k1.s.pc|
    ensures WaitersOn(k1.s, c) != {} ==> |Pending(k1, c)| >= |Pending(k, c)| + 1
  {
    var x := SignalOnePhases(k.s, o, c);
    if WaitersOn(k1.s, c) != {} {
      assert WaitersOn(k.s, c) == {} ==> k1.s == k.s;
      assert WaitsOn(PhaseOf(k.s, x), c);
      assert TaskFits(k.task[x], PhaseOf(k.s, x), k.s.pc[x]);
      assert x !in Pending(k, c) && x in Pending(k1, c);
      Subset(Pending(k, c) + {x}, Pending(k1, c));
    }
  }

  /** A signal by a worker keeps everything but the coverage of the signalled counter. */
  lemma SignalStep(k: Lk, o: int, t: nat, c: Chan, all: bool, k1: Lk)
    requires LockInv(k, o) && CanWork(k, t) && LockChan(c)
    requires k1.s == Signal1(k.s, c, all)
    requires |k1.task| == |k.task| && k1.task == k.task[t := k1.task[t]]
    requires k1.task[t] == k.task[t]
      || (k.task[t].Passing? && k1.task[t] == k.task[t].(given := true) && c == Mutex(k.task[t].m))
    requires forall x :: x != c ==> Units(k1, x) == Units(k, x)
    requires forall m :: Units(k1, Mutex(m)) <= 1
    requires Counter(c) ==> k1.s.Sized() && |k1.task| == |k1.s.pc| && Covered(k1, c)
    ensures LockInv(k1, o)
  {
    var l := Signal(t, c, all);
    StepInv(k.s, o, l);
    StepMoves(k.s, o, l);
    NobodyEnters(k.s, o, t);
    PhaseOwner(k.s, o, t);
    SignalTasks(k, t, l, k1);
    forall u | 0 <= u < |k1.task| ensures !PhaseOf(k1.s, u).Entering? {
      assert PhaseMove(k.s, l, u, PhaseOf(k.s, u), PhaseOf(k1.s, u));
    }
    forall x | Counter(x) && x != c ensures Covered(k1, x) {
      SignalCovered(k, l, k1, x);
    }
  }

  lemma SignalCovered(k: Lk, l: Label, k1: Lk, x: Chan)
    requires k.s.Sized() && TasksFit(k) && EntersEmpty(k) && Counter(x) && Covered(k, x)
    requires l.Signal? && l.t < |k.task| && Moved(k.s, l, k1.s) && |k1.task| == |k1.s.pc|
    requires |k1.task| == |k.task| && k1.task == k.task[l.t := k1.task[l.t]]
    requires k1.task[l.t] == k.task[l.t] || (k.task[l.t].Passing? && x != Mutex(k.task[l.t].m))
    requires Units(k1, x) == Units(k, x)
    ensures Covered(k1, x)
  {
    forall u | 0 <= u < |k.task| ensures
      (Pends(k.task[u], PhaseOf(k.s, u), x) ==> Pends(k1.task[u], PhaseOf(k1.s, u), x))
      && (WaitsOn(PhaseOf(k1.s, u), x) ==> WaitsOn(PhaseOf(k.s, u), x))
    {
      assert PhaseMove(k.s, l, u, PhaseOf(k.s, u), PhaseOf(k1.s, u));
    }
    KeepCovered(k, k1, x);
  }

  lemma SignalTasks(k: Lk, t: nat, l: Label, k1: Lk)
    requires k.s.Sized() && TasksFit(k) && t < |k.task| && l.Signal? && l.t == t && Moved(k.s, l, k1.s)
    requires |k1.s.pc| == |k.s.pc| && k1.s.pc == k.s.pc && PhaseOf(k.s, t).Free?
    requires |k1.task| == |k.task| && k1.task == k.task[t := k1.task[t]]
    requires k1.task[t] == k.task[t] || (k.task[t].Passing? && k1.task[t] == k.task[t].(given := true))
    ensures TasksFit(k1)
  {
    forall u | 0 <= u < |k1.task| ensures TaskFits(k1.task[u], PhaseOf(k1.s, u), k1.s.pc[u]) {
      assert PhaseMove(k.s, l, u, PhaseOf(k.s, u), PhaseOf(k1.s, u));
      assert TaskFits(k.task[u], PhaseOf(k.s, u), k.s.pc[u]);
    }
  }

  lemma UnlockStep(k: Lk, o: int, t: nat, m: nat)
    requires LockInv(k, o) && CanDo(k, Unlock(t, m))
    ensures LockInv(LkDo(k, Unlock(t, m)), o)
  {
    var k1 := LkDo(k, Unlock(t, m));
    SignalPends(k, o, Mutex(m), k1);
    SignalStep(k, o, t, Mutex(m), false, k1);
  }

  lemma SemPostStep(k: Lk, o: int, t: nat, x: nat)
    requires LockInv(k, o) && CanDo(k, SemPost(t, x))
    ensures LockInv(LkDo(k, SemPost(t, x)), o)
  {
    var k1 := LkDo(k, SemPost(t, x));
    SignalPends(k, o, Sem(x), k1);
    SignalKeepsWaiting(k, o, Sem(x), k1);
    assert Owed(k1, Sem(x)) == Owed(k, Sem(x));
    SignalStep(k, o, t, Sem(x), false, k1);
  }

  lemma SignalKeepsWaiting(k: Lk, o: int, c: Chan, k1: Lk)
    requires Inv(k.s, o) && k1.s == Signal1(k.s, c, false) && k1.s.Sized()
    ensures WaitersOn(k1.s, c) <= WaitersOn(k.s, c)
  {
    var x := SignalOnePhases(k.s, o, c);
  }

  lemma CondGiveStep(k: Lk, o: int, t: nat)
    requires LockInv(k, o) && CanDo(k, CondGive(t))
    ensures LockInv(LkDo(k, CondGive(t)), o)
  {
    var k1 := LkDo(k, CondGive(t));
    var c := Mutex(k.task[t].m);
    SignalPends(k, o, c, k1);
    SignalKeepsWaiting(k, o, c, k1);
    assert Owed(k, c) == Owed(k1, c) + {t};
    SignalStep(k, o, t, c, false, k1);
  }

  lemma CondSignalStep(k: Lk, o: int, t: nat, cv: nat)
    requires LockInv(k, o) && CanDo(k, CondSignal(t, cv))
    ensures LockInv(CondSignalled(k, cv), o) && LockInv(CondBroadcasted(k, cv), o)
  {
    SignalStep(k, o, t, Cond(cv), false, CondSignalled(k, cv));
    SignalStep(k, o, t, Cond(cv), true, CondBroadcasted(k, cv));
  }

  // Every run ---------------------------------------------------------------------------------

  predicate TaskLabel(x: LockLabel) {
    x.Want? || x.TryOnce? || x.CondResume?
  }

  lemma TaskStepInv(k: Lk, o: int, x: LockLabel)
    requires LockInv(k, o) && CanDo(k, x) && TaskLabel(x)
    ensures LockInv(LkDo(k, x), o)
  {
    PhaseOwner(k.s, o, x.t);
    TaskStep(k, o, x.t, LkDo(k, x));
  }

  lemma LockStepInv(k: Lk, o: int, x: LockLabel) returns (o1: int)
    requires LockInv(k, o) && CanDo(k, x)
    ensures LockInv(LkDo(k, x), o1)
  {
    o1 := o;
    match x
    case Sched(l) => o1 := NextOwner(k.s, l, o); SchedStep(k, o, l);
    case Try(t) =>
      if Units(k, k.task[t].chan) > 0 { TakeStep(k, o, t); } else { ParkStep(k, o, t); }
    case Unlock(t, m) => UnlockStep(k, o, t, m);
    case SemPost(t, y) => SemPostStep(k, o, t, y);
    case CondBegin(t, cv, m, timed) => CondBeginStep(k, o, t, cv, m, timed);
    case FakeTick(t) => FakeTickStep(k, o, t);
    case CondGive(t) => CondGiveStep(k, o, t);
    case CondPark(t, d) => CondParkStep(k, o, t, d);
    case CondSignal(t, cv) => CondSignalStep(k, o, t, cv);
    case CondBroadcast(t, cv) => CondSignalStep(k, o, t, cv);
    case _ => TaskStepInv(k, o, x);
  }

  ghost predicate LockStepAt(ks: seq<Lk>, xs: seq<LockLabel>, i: nat)
    requires i < |xs| < |ks|
  {
    CanDo(ks[i], xs[i]) && ks[i + 1] == LkDo(ks[i], xs[i])
  }

  /** The labels `xs` lead from start-up through the states `ks`. */
  ghost predicate LockRun(ks: seq<Lk>, xs: seq<LockLabel>) {
    && |ks| == |xs| + 1
    && (exists idle: bool, r: nat, sems: map<nat, nat> :: ks[0] == LockInit(idle, r, sems))
    && forall i {:trigger LockStepAt(ks, xs, i)} :: 0 <= i < |xs| ==> LockStepAt(ks, xs, i)
  }

  /** Semaphores start with any value; mutexes start free. */
  function LockInit(idle: bool, r: nat, sems: map<nat, nat>): Lk {
    Lk(Init(idle, r), [NoTask], map x | x in sems :: Sem(x) := sems[x], map[], map[])
  }

  lemma LockInitInv(idle: bool, r: nat, sems: map<nat, nat>)
    ensures LockInv(LockInit(idle, r, sems), MAIN)
  {
    InitInv(idle, r);
    var s := Init(idle, r);
    assert PhaseOf(s, 0) == Free(Signalled);
    forall c ensures WaitersOn(s, c) == {} { }
  }

  lemma {:induction false} LockRunInv(ks: seq<Lk>, xs: seq<LockLabel>, i: nat) returns (o: int)
    requires LockRun(ks, xs) && i < |ks|
    ensures LockInv(ks[i], o)
  {
    if i == 0 {
      var idle: bool, r: nat, sems: map<nat, nat> :| ks[0] == LockInit(idle, r, sems);
      LockInitInv(idle, r, sems);
      o := MAIN;
    } else {
      o := LockRunInv(ks, xs, i - 1);
      assert LockStepAt(ks, xs, i - 1);
      o := LockStepInv(ks[i - 1], o, xs[i - 1]);
    }
  }

  ghost predicate LockReachable(k: Lk) {
    exists ks: seq<Lk>, xs: seq<LockLabel> :: LockRun(ks, xs) && ks[|xs|] == k
  }

  lemma LockReachableInv(k: Lk) returns (o: int)
    requires LockReachable(k)
    ensures LockInv(k, o)
  {
    var ks: seq<Lk>, xs: seq<LockLabel> :| LockRun(ks, xs) && ks[|xs|] == k;
    o := LockRunInv(ks, xs, |xs|);
  }

  /** No lost wakeup on a semaphore: while somebody waits, its value is at most the number of
      threads signalled on it that have not retried. */
  lemma SemaphoreNoLostWakeup(k: Lk, x: nat)
    requires LockReachable(k)
    ensures k.s.Sized() && |k.task| == |k.s.pc|
    ensures WaitersOn(k.s, Sem(x)) != {} ==> Units(k, Sem(x)) <= |Pending(k, Sem(x))|
  {
    var o := LockReachableInv(k);
    assert Owed(k, Sem(x)) == {};
    assert Covered(k, Sem(x));
  }

  /** No lost wakeup on a mutex, through the unlock and relock inside condition waits: a free
      mutex on which somebody waits has a signalled thread on its way, or the thread that has
      the turn has just released it in a condition wait and signals it next. */
  lemma MutexNoLostWakeup(k: Lk, m: nat)
    requires LockReachable(k)
    ensures k.s.Sized() && |k.task| == |k.s.pc| && Units(k, Mutex(m)) <= 1
    ensures WaitersOn(k.s, Mutex(m)) != {} && Units(k, Mutex(m)) == 1 ==>
      || Pending(k, Mutex(m)) != {}
      || exists t :: 0 <= t < |k.task| && Owes(k.task[t], Mutex(m)) && AtWork(k.s.pc[t])
  {
    var o := LockReachableInv(k);
    assert Covered(k, Mutex(m));
    if WaitersOn(k.s, Mutex(m)) != {} && Units(k, Mutex(m)) == 1 && Pending(k, Mutex(m)) == {} {
      assert |Owed(k, Mutex(m))| > 0;
      var t :| t in Owed(k, Mutex(m));
      assert TaskFits(k.task[t], PhaseOf(k.s, t), k.s.pc[t]);
    }
  }

  /** A thread waits on a lock channel exactly as the operation it is inside of says. */
  lemma WaitersAreInside(k: Lk, t: nat)
    requires LockReachable(k) && k.s.Sized() && t < |k.s.pc| && t in k.s.waitq
    ensures |k.task| == |k.s.pc|
    ensures LockChan(k.s.waits[t].chan) ==>
      || (k.task[t].Acquire? && k.task[t].tried && k.task[t].chan == k.s.waits[t].chan)
      || (k.task[t].OnCond? && Cond(k.task[t].cv) == k.s.waits[t].chan)
  {
    var o := LockReachableInv(k);
    assert TaskFits(k.task[t], PhaseOf(k.s, t), k.s.pc[t]);
  }
}
