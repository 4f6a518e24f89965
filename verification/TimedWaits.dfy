/** Timed mutex and semaphore waits never give up.

    `wait` returns SIGNAL or TIMEDOUT, which are 0 and 1, and the retry loops compare the result
    with ETIMEDOUT; so a timed-out retry that finds the counter empty waits again, with the same,
    now past, deadline. */
module TimedWaits {
  import opened Queues
  import opened Scheduler
  import opened Safety
  import opened Deadlines
  import opened Phases
  import opened Runs
  import opened Locks

  /** Inside the retry loop for the counter `c`, with the deadline `d`. */
  predicate Tries(task: Task, c: Chan, d: nat) {
    task.Acquire? && task.chan == c && task.deadline == d
  }

  /** The retry loop ends exactly with a try that finds a unit, whatever the deadline; until then
      the counter and the deadline stay. */
  lemma EndsWithUnit(k: Lk, o: int, x: LockLabel, t: nat, c: Chan, d: nat)
    requires LockInv(k, o) && CanDo(k, x) && t < |k.task| && Tries(k.task[t], c, d)
    ensures t < |LkDo(k, x).task|
    ensures LkDo(k, x).task[t].Acquire? <==> !(x == Try(t) && Units(k, c) > 0)
    ensures LkDo(k, x).task[t].Acquire? ==> Tries(LkDo(k, x).task[t], c, d)
  {
    if !x.Sched? && x != Try(t) { OthersKeepTask(k, x, t); }
  }

  /** A lock operation of a thread changes no other thread's task, and a thread inside the retry
      loop starts no other operation. */
  lemma OthersKeepTask(k: Lk, x: LockLabel, t: nat)
    requires CanDo(k, x) && !x.Sched? && x != Try(t) && t < |k.task| && k.task[t].Acquire?
    ensures t < |LkDo(k, x).task| && LkDo(k, x).task[t] == k.task[t]
  {
    assert x.t == t ==> x.Try?;
  }

  /** In any run a thread that has left the loop between states i and j took a unit: some step m in
      between is its try in a state with a unit left. */
  lemma {:induction false} NeverGivesUp(ks: seq<Lk>, xs: seq<LockLabel>, i: nat, j: nat, t: nat, c: Chan, d: nat)
    returns (m: nat)
    requires LockRun(ks, xs) && i <= j < |ks| && t < |ks[i].task| && Tries(ks[i].task[t], c, d)
    requires t < |ks[j].task| && !Tries(ks[j].task[t], c, d)
    ensures i <= m < j && xs[m] == Try(t)
    ensures t < |ks[m].task| && Tries(ks[m].task[t], c, d) && Units(ks[m], c) > 0
    decreases j - i
  {
    var o := LockRunInv(ks, xs, i);
    assert LockStepAt(ks, xs, i);
    EndsWithUnit(ks[i], o, xs[i], t, c, d);
    if xs[i] == Try(t) && Units(ks[i], c) > 0 {
      m := i;
    } else {
      m := NeverGivesUp(ks, xs, i + 1, j, t, c, d);
    }
  }

  /** In every run a thread that asks for a counter with a deadline tries for that counter, and
      waits with that deadline, until it has taken a unit. */
  lemma {:induction false} AskedFor(ks: seq<Lk>, xs: seq<LockLabel>, i: nat, j: nat, t: nat, c: Chan, d: nat)
    requires LockRun(ks, xs) && i < j < |ks| && xs[i] == Want(t, c, d)
    requires forall m :: i < m < j && xs[m] == Try(t) ==> Units(ks[m], c) == 0
    ensures t < |ks[j].task| && Tries(ks[j].task[t], c, d)
  {
    var k, x, k1 := ks[j - 1], xs[j - 1], ks[j];
    if j == i + 1 {
      assert LockStepAt(ks, xs, j - 1);
      Asks(k, k1, t, c, d);
    } else {
      AskedFor(ks, xs, i, j - 1, t, c, d);
      var o := LockRunInv(ks, xs, j - 1);
      assert LockStepAt(ks, xs, j - 1);
      StillAsks(k, o, x, k1, t, c, d);
    }
  }

  lemma Asks(k: Lk, k1: Lk, t: nat, c: Chan, d: nat)
    requires CanDo(k, Want(t, c, d)) && k1 == LkDo(k, Want(t, c, d))
    ensures t < |k1.task| && Tries(k1.task[t], c, d)
  {
  }

  lemma StillAsks(k: Lk, o: int, x: LockLabel, k1: Lk, t: nat, c: Chan, d: nat)
    requires LockInv(k, o) && CanDo(k, x) && k1 == LkDo(k, x) && t < |k.task| && Tries(k.task[t], c, d)
    requires x == Try(t) ==> Units(k, c) == 0
    ensures t < |k1.task| && Tries(k1.task[t], c, d)
  {
    EndsWithUnit(k, o, x, t, c, d);
  }

  // What a timed condition wait returns ----------------------------------------------------------

  const ETIMEDOUT: nat := 110

  /** The wake reason as `wait` returns it. */
  function WakeCode(r: Reason): nat {
    match r
    case Signalled => 0
    case TimedOut => 1
  }

  /** The reason is settled when the waiter is released: a signal of the condition variable, or
      its deadline; and it stays until the thread itself waits again. */
  lemma ReasonSettled(s: State, o: int, l: Label, u: nat)
    requires Inv(s, o) && Enabled(s, l) && u < |s.pc| && !s.IsIdle(u)
    ensures Do(s, l).Sized() && u < |Do(s, l).pc|
    ensures PhaseOf(s, u).Free? && !(l.Tick? && l.t == u && l.k.ThenPark?) ==>
      PhaseOf(Do(s, l), u) == PhaseOf(s, u)
    ensures PhaseOf(s, u).Waiting? && PhaseOf(Do(s, l), u) == Free(TimedOut) ==>
      l.Tick? && PhaseOf(s, u).deadline < Do(s, l).turn
    ensures PhaseOf(s, u).Waiting? && PhaseOf(Do(s, l), u) == Free(Signalled) ==> Signals(l, PhaseOf(s, u).chan)
  {
    DoSized(s, l);
    PhaseStep(s, o, l, u);
  }

  /** When a timed condition wait resumes, the value it keeps for its caller is 1 exactly if its
      deadline passed and 0 exactly if it was signalled, so a caller that compares with ETIMEDOUT,
      as POSIX tells it to, takes every time-out for a wake-up; the waiter count drops by that value. */
  lemma CondTimedWaitReturns(k: Lk, o: int, t: nat)
    requires LockInv(k, o) && CanDo(k, CondResume(t)) && k.task[t].timed
    ensures var code := WakeCode(k.s.waits[t].reason);
      && (code == 1 <==> PhaseOf(k.s, t) == Free(TimedOut))
      && (code == 0 <==> PhaseOf(k.s, t) == Free(Signalled))
      && code != ETIMEDOUT
      && Tally(LkDo(k, CondResume(t)).condMap, k.task[t].cv) == Tally(k.condMap, k.task[t].cv) - code
  {
    PhaseOwner(k.s, o, t);
  }

  /** A try without a unit starts to wait on the counter, whatever the last wait returned. */
  lemma EmptyParks(k: Lk, o: int, t: nat, c: Chan, d: nat)
    requires LockInv(k, o) && CanDo(k, Try(t)) && Tries(k.task[t], c, d) && Units(k, c) == 0
    ensures LkDo(k, Try(t)).s.Sized() && t < |LkDo(k, Try(t)).s.pc|
    ensures PhaseOf(LkDo(k, Try(t)).s, t) == Entering(c, d)
  {
    TickPhase(k.s, o, t, ThenPark(c, d), t);
  }

  /** A wait whose deadline is already past lasts until the next tick: the tick times it out
      exactly when the deadline is below the new turn count, which only a wrap of the 32-bit
      counter can prevent. */
  lemma NextTickEnds(k: Lk, u: nat, h: Then, t: nat)
    requires LockReachable(k) && k.s.Sized() && u < |k.s.pc| && CanTick(k.s, u, h)
    requires t in k.s.waitq && t < |k.s.waits| && k.s.waits[t].timeout < k.s.turn
    ensures var s1 := Ticked(k.s, u, h);
      && t < |s1.waits|
      && (t in s1.runq && s1.waits[t].reason == TimedOut <==> k.s.waits[t].timeout < s1.turn)
      && (k.s.turn + 1 < WORD ==> t in s1.runq && t !in s1.waitq)
  {
    var o := LockReachableInv(k);
    TickReleases(k.s, o, u, h, t);
  }

  // A reachable case ------------------------------------------------------------------------------

  /** One more step of a run. */
  lemma Go(k: Lk, x: LockLabel) returns (k1: Lk)
    requires LockReachable(k) && CanDo(k, x)
    ensures k1 == LkDo(k, x) && LockReachable(k1)
  {
    var ks: seq<Lk>, xs: seq<LockLabel> :| LockRun(ks, xs) && ks[|xs|] == k;
    k1 := LkDo(k, x);
    var js, ys := ks + [k1], xs + [x];
    forall i | 0 <= i < |ys| ensures LockStepAt(js, ys, i) {
      assert i < |xs| ==> LockStepAt(ks, xs, i);
    }
    assert LockRun(js, ys) && js[|ys|] == k1;
  }

  lemma InitReachable(idle: bool, r: nat, sems: map<nat, nat>)
    ensures LockReachable(LockInit(idle, r, sems))
  {
    var ks: seq<Lk>, xs: seq<LockLabel> := [LockInit(idle, r, sems)], [];
    assert LockRun(ks, xs) && ks[|xs|] == LockInit(idle, r, sems);
  }

  /** Steps the lock operations under way in `k` do not rule out in any state. */
  predicate Fine(k: Lk, l: Label) {
    && !l.Spawn? && !l.Signal? && (l.Tick? ==> l.k.ThenWork?) && l.t < |k.task|
    && (Outside(l) ==> k.task[l.t].NoTask?)
  }

  lemma {:induction false} LiftPath(k: Lk, ss: seq<State>, ls: seq<Label>, i: nat)
    requires LockReachable(k) && |k.task| == |k.s.pc| && Path(ss, ls) && ss[0] == k.s && i < |ss|
    requires forall j :: 0 <= j < |ls| ==> Fine(k, ls[j])
    ensures LockReachable(k.(s := ss[i])) && |ss[i].pc| == |k.s.pc|
  {
    if i == 0 {
      assert k.(s := ss[0]) == k;
    } else {
      LiftPath(k, ss, ls, i - 1);
      assert LinkAt(ss, ls, i - 1) && Fine(k, ls[i - 1]);
      DoSized(ss[i - 1], ls[i - 1]);
      var k1 := Go(k.(s := ss[i - 1]), LockLabel.Sched(ls[i - 1]));
    }
  }

  lemma Lift(k: Lk, ok: Label -> bool, s1: State) returns (k1: Lk)
    requires LockReachable(k) && |k.task| == |k.s.pc| && Reaches(k.s, ok, s1)
    requires forall l :: ok(l) ==> Fine(k, l)
    ensures LockReachable(k1) && k1 == k.(s := s1)
  {
    var ss: seq<State>, ls: seq<Label> :| Leads(k.s, ss, ls, s1) && AllOk(ok, ls);
    LiftPath(k, ss, ls, |ls|);
    k1 := k.(s := s1);
  }

  const LATE: Wait := Wait(Null, FOREVER, TimedOut, false)

  /** Two threads; the first is about to try the empty semaphore 0, with the deadline 0. */
  lemma AboutToTry() returns (k: Lk)
    ensures LockReachable(k)
    ensures k == Lk(State([0, 1], [], [CALM, CALM], [RunningReg, Runnable], [Work(false), User],
                          [0, 0], {}, false, 0, [], false),
                    [Acquire(Sem(0), 0, false), NoTask], map[], map[], map[])
  {
    k := Created();
    k := Go(k, Want(0, Sem(0), 0));
    assert k.task == [Acquire(Sem(0), 0, false), NoTask];
  }

  lemma FirstTurn() returns (k: Lk)
    ensures LockReachable(k)
    ensures k == Lk(TookTurn(SawFlag(Init(false, 0), 0), 0), [NoTask], map[], map[], map[])
  {
    k := LockInit(false, 0, map[]);
    assert k.units == map[];
    InitReachable(false, 0, map[]);
    k := Go(k, LockLabel.Sched(SeeFlag(0)));
    k := Go(k, LockLabel.Sched(TakeTurn(0)));
  }

  lemma Created() returns (k: Lk)
    ensures LockReachable(k)
    ensures k == Lk(State([0, 1], [], [CALM, CALM], [RunningReg, Runnable], [Work(false), User],
                          [0, 0], {}, false, 0, [], false),
                    [NoTask, NoTask], map[], map[], map[])
  {
    k := FirstTurn();
    SpawnFirst(false);
    k := Go(k, LockLabel.Sched(Spawn(0, 0)));
    assert k.task == [NoTask, NoTask];
  }

  function AfterTry(): State {
    State([0, 1], [], [CALM, CALM], [RunningReg, Runnable], [Checking(ThenPark(Sem(0), 0)), User],
          [0, 0], {}, false, 1, [(0, 0)], false)
  }

  lemma FirstTry() returns (k: Lk)
    ensures LockReachable(k)
    ensures k == Lk(AfterTry(), [Acquire(Sem(0), 0, true), NoTask], map[], map[], map[0 := 1])
  {
    k := AboutToTry();
    TickFirst(k.s);
    k := Go(k, Try(0));
    assert k.task == [Acquire(Sem(0), 0, true), NoTask];
  }

  lemma TickFirst(s: State)
    requires s == State([0, 1], [], [CALM, CALM], [RunningReg, Runnable], [Work(false), User],
                        [0, 0], {}, false, 0, [], false)
    ensures Ticked(s, 0, ThenPark(Sem(0), 0)) == AfterTry()
  {
    NobodyLate(Clock(s, 0));
    assert s.pc[0 := Checking(ThenPark(Sem(0), 0))] == AfterTry().pc && [] + [(0, 0)] == AfterTry().log;
  }

  /** The steps taken from there: only the second thread works with the turn. */
  predicate Others(l: Label) {
    && l.t < 2
    && (l.SeeFlag? || l.TakeTurn? || l.ReadFlag? || l.Park? || l.Scan? || l.Post?
        || l == Tick(1, ThenWork) || l == Put(1, RoundRobin))
  }

  function FirstWaits(): State {
    State([1], [0], [CALM.(chan := Sem(0), timeout := 0), CALM.(wakenUp := true)], [Runnable, RunningReg],
          [InWait, User], [0, 0], {}, false, 1, [(0, 0)], false)
  }

  /** The first thread waits and the second is posted. */
  lemma Parks(ok: Label -> bool)
    requires forall l :: Others(l) ==> ok(l)
    ensures Reaches(AfterTry(), ok, FirstWaits())
  {
    var s := AfterTry();
    OneRead(s, ok, 0);
    var s1 := SetPc(s, 0, Parking(Sem(0), 0));
    StartWait(s1, ok, 0, Sem(0), 0, 1);
    var s2 := FirstWaits();
    assert s1.pc[0 := InWait] == s2.pc && s1.status[0 := Runnable][1 := RunningReg] == s2.status;
    assert s1.waits[0 := CALM.(chan := Sem(0), timeout := 0)][1 := CALM.(wakenUp := true)] == s2.waits;
    assert s1.waitq + [0] == s2.waitq;
    Join(s, ok, s1, s2);
  }

  function SecondTicks(): State {
    State([1, 0], [], [LATE, CALM], [Runnable, RunningReg], [InWait, Work(true)],
          [0, 0], {}, false, 2, [(0, 0), (1, 1)], false)
  }

  lemma TickSecond(s: State)
    requires s == FirstWaits().(pc := [InWait, Work(false)], waits := [CALM.(chan := Sem(0), timeout := 0), CALM])
    ensures SetPc(Release(Clock(s, 1), Expired(Clock(s, 1)), TimedOut), 1, Work(true)) == SecondTicks()
  {
    var c := Clock(s, 1);
    assert c.turn == 2 && c.log == [(0, 0), (1, 1)];
    assert Expired(c) == {0};
    ReleaseFirst(c);
    assert c.pc[1 := Work(true)] == [InWait, Work(true)];
  }

  lemma ReleaseFirst(c: State)
    requires c.Sized() && c.runq == [1] && c.waitq == [0]
    requires c.waits == [CALM.(chan := Sem(0), timeout := 0), CALM]
    ensures Release(c, {0}, TimedOut) == c.(runq := [1, 0], waitq := [], waits := [LATE, CALM])
  {
    assert c.waitq == [] + [0] + [];
    SelectOne([], 0, [], {0});
    assert ResetAll(c.waits, {0}, TimedOut) == [LATE, CALM] && [1] + [0] == [1, 0];
  }

  /** The second thread gets the turn, and its tick times the first thread out. */
  lemma Expires(ok: Label -> bool)
    requires forall l :: Others(l) ==> ok(l)
    ensures Reaches(FirstWaits(), ok, SecondTicks())
  {
    var s := FirstWaits();
    Getting(s, ok, 1);
    var s1 := s.(pc := [InWait, Work(false)], waits := [CALM.(chan := Sem(0), timeout := 0), CALM]);
    assert s.pc[1 := Work(false)] == s1.pc && s.waits[1 := CALM] == s1.waits;
    TickSecond(s1);
    Ticking(s1, ok, 1, Release(Clock(s1, 1), Expired(Clock(s1, 1)), TimedOut));
    Join(s, ok, s1, SecondTicks());
  }

  function FirstBack(): State {
    State([0, 1], [], [LATE, CALM], [RunningReg, Runnable], [Work(false), User],
          [0, 0], {}, false, 2, [(0, 0), (1, 1)], false)
  }

  /** The second thread puts the turn and the first resumes. */
  lemma Resumes(ok: Label -> bool)
    requires forall l :: Others(l) ==> ok(l)
    ensures Reaches(SecondTicks(), ok, FirstBack())
  {
    var s := SecondTicks();
    assert PutTurn(s, 1, RoundRobin).runq == [0, 1];
    Putting(s, ok, 1, RoundRobin, 0);
    var s1 := FirstBack().(pc := [InWait, User], waits := [LATE.(wakenUp := true), CALM]);
    assert s.pc[1 := User] == s1.pc && s.waits[0 := LATE.(wakenUp := true)] == s1.waits;
    assert s.status[1 := Runnable][0 := RunningReg] == s1.status;
    Getting(s1, ok, 0);
    assert s1.pc[0 := Work(false)] == FirstBack().pc && s1.waits[0 := LATE] == FirstBack().waits;
    Join(s, ok, s1, FirstBack());
  }

  /** The failing case: a thread whose deadline is past has just been told that it timed out,
      finds the semaphore empty, and goes to wait on it again with the same deadline. */
  lemma TimedOutWaitsAgain() returns (k: Lk, o: int)
    ensures LockReachable(k) && LockInv(k, o) && CanDo(k, Try(0)) && k.task[0] == Acquire(Sem(0), 0, true)
    ensures k.s.waits[0].reason == TimedOut && k.task[0].deadline < k.s.turn && Units(k, Sem(0)) == 0
    ensures LkDo(k, Try(0)).s.Sized() && PhaseOf(LkDo(k, Try(0)).s, 0) == Entering(Sem(0), 0)
  {
    k := LateAgain();
    o := LockReachableInv(k);
    EmptyParks(k, o, 0, Sem(0), 0);
  }

  lemma LateAgain() returns (k: Lk)
    ensures LockReachable(k)
    ensures k == Lk(FirstBack(), [Acquire(Sem(0), 0, true), NoTask], map[], map[], map[0 := 1])
  {
    k := FirstTry();
    var ok := l => Others(l);
    WaitAndBack(ok);
    k := Lift(k, ok, FirstBack());
  }

  lemma WaitAndBack(ok: Label -> bool)
    requires forall l :: Others(l) ==> ok(l)
    ensures Reaches(AfterTry(), ok, FirstBack())
  {
    Parks(ok);
    Expires(ok);
    Join(AfterTry(), ok, FirstWaits(), SecondTicks());
    Resumes(ok);
    Join(AfterTry(), ok, SecondTicks(), FirstBack());
  }
}
