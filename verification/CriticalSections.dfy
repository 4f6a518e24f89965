/** Critical-section-first scheduling: a thread inside a critical section keeps the turn.

    Modelled with `scheduling_policy & 0x01`, for programs whose critical sections contain no
    wait, blocking call, trylock, timedlock, yield or thread end.  The runtime's own idle thread
    is not such a program: it parks, or puts the turn, while it holds idle_mutex. */
module CriticalSections {
  import opened Scheduler
  import opened Safety
  import opened Runs
  import Phases

  const IDLE_MUTEX: nat := 0

  datatype Cs = Cs(
    s: State,
    held: map<nat, nat>,     // locked mutexes and their owners
    level: seq<nat>,         // inCSLevel
    ext: int,                // dmt_lock_holder, -1 when nobody holds it
    dozing: bool)            // the idle thread has released idle_mutex inside pthread_cond_wait

  datatype CsLabel =
    | Sched(l: Label)
    | Lock(t: nat, m: nat)
    | Unlock(t: nat, m: nat)
    | ExtGet(t: nat)
    | ExtPut(t: nat)
    | Doze                   // the idle thread, parked, enters pthread_cond_wait
    | Rouse                  // it comes out with idle_mutex locked again

  /** getPutTurnStrategy: inside a critical section the turn stays with the thread. */
  predicate StrategyOk(level: nat, st: Strategy) {
    level > 0 ==> KeepsTurn(st)
  }

  /** What a thread inside a critical section does not do. */
  predicate LeavesSection(l: Label) {
    l.InterProStart? || l.End? || l.StartTry? || (l.Tick? && !l.k.ThenWork?)
  }

  ghost predicate CanDo(c: Cs, x: CsLabel) {
    && c.s.Sized() && |c.level| == |c.s.pc|
    && (match x
        case Sched(l) =>
          && Enabled(c.s, l)
          && (if c.s.IsIdle(l.t) then !c.dozing else
                (l.Put? ==> StrategyOk(c.level[l.t], l.strategy))
                && (LeavesSection(l) ==> c.level[l.t] == 0))
          // wakeUpIdleThread locks idle_mutex to signal idle_cond
          && (l.WakeIdle? ==> IDLE_MUTEX !in c.held)
        case Lock(t, m) =>
          t < |c.s.pc| && c.s.pc[t].Work? && m !in c.held && (c.s.IsIdle(t) ==> m == IDLE_MUTEX)
        case Unlock(t, m) => t < |c.s.pc| && c.s.pc[t].Work? && m in c.held && c.held[m] == t
        case ExtGet(t) => t < |c.s.pc| && c.s.pc[t].Work? && c.ext == -1 && !c.s.IsIdle(t)
        case ExtPut(t) => t < |c.s.pc| && c.s.pc[t].Work? && c.ext == t
        case Doze =>
          && c.s.idle && IDLE < |c.s.pc| && c.s.pc[IDLE].InWait? && !c.dozing
          && IDLE_MUTEX in c.held && c.held[IDLE_MUTEX] == IDLE
        case Rouse => c.dozing && IDLE_MUTEX !in c.held)
  }

  function Dec(n: nat): nat {
    if n > 0 then n - 1 else 0
  }

  ghost function CsDo(c: Cs, x: CsLabel): Cs
    requires CanDo(c, x)
  {
    match x
    case Sched(l) =>
      c.(s := Do(c.s, l), level := if l.Spawn? then c.level + [0] else c.level)
    case Lock(t, m) => c.(held := c.held[m := t], level := c.level[t := c.level[t] + 1])
    case Unlock(t, m) =>
      c.(s := Signal1(c.s, Mutex(m), false), held := c.held - {m}, level := c.level[t := Dec(c.level[t])])
    case ExtGet(t) => c.(ext := t, level := c.level[t := c.level[t] + 1])
    case ExtPut(t) => c.(ext := -1, level := c.level[t := Dec(c.level[t])])
    case Doze => c.(held := c.held - {IDLE_MUTEX}, dozing := true)
    case Rouse => c.(held := c.held[IDLE_MUTEX := IDLE], dozing := false)
  }

  function Locks(held: map<nat, nat>, t: nat): set<nat> {
    set m | m in held && held[m] == t
  }

  /** The turn will come back to the thread whatever the others do. */
  predicate Keeping(pc: Pc, t: nat) {
    || pc.User? || (pc.Saw? && pc.from.FromUser?) || pc.Work?
    || ((pc.Checking? || pc.Merging?) && pc.k.ThenWork?)
    || ((pc.Checking? || pc.Merging?) && pc.k.ThenScan? && KeepsTurn(pc.k.strategy) && pc.k.after.ToUser?)
    || (pc.Scanning? && KeepsTurn(pc.strategy) && pc.after.ToUser?)
    || pc == Posting(t, ToUser)
  }

  /** inCSLevel counts the mutexes of a thread, its external turn, and idle_mutex also while the
      idle thread has it released inside pthread_cond_wait. */
  ghost predicate LevelOk(c: Cs, t: nat)
    requires t < |c.level|
  {
    c.level[t] == |Locks(c.held, t)| + (if c.ext == t then 1 else 0)
                  + (if c.dozing && c.s.IsIdle(t) then 1 else 0)
  }

  /** What is said of the idle thread: idle_mutex is all it locks. */
  ghost predicate IdleOk(c: Cs) {
    && (forall m :: m in c.held && c.s.IsIdle(c.held[m]) ==> m == IDLE_MUTEX)
    && (c.ext >= 0 ==> !c.s.IsIdle(c.ext))
    && (c.dozing ==> c.s.idle && IDLE < |c.s.pc| && c.s.pc[IDLE].InWait? && Locks(c.held, IDLE) == {})
  }

  ghost predicate CsInv(c: Cs, o: int) {
    && Inv(c.s, o) && |c.level| == |c.s.pc|
    && (forall m :: m in c.held ==> c.held[m] < |c.s.pc|)
    && -1 <= c.ext < |c.s.pc|
    && IdleOk(c)
    && (forall t :: 0 <= t < |c.s.pc| ==> LevelOk(c, t))
    && (forall t :: 0 <= t < |c.s.pc| && c.level[t] > 0 && !c.s.IsIdle(t) ==>
          t == o && Keeping(c.s.pc[t], t))
  }

  function CsInit(idle: bool, r: nat): Cs {
    Cs(Init(idle, r), map[], [0], -1, false)
  }

  lemma CsInitInv(idle: bool, r: nat)
    ensures CsInv(CsInit(idle, r), MAIN)
  {
    InitInv(idle, r);
  }

  /** A thread inside a critical section passes the turn to itself. */
  lemma KeepingStep(s: State, o: int, l: Label)
    requires Inv(s, o) && Enabled(s, l) && l.t == o && Keeping(s.pc[o], o)
    requires !LeavesSection(l) && (l.Put? ==> KeepsTurn(l.strategy))
    ensures NextOwner(s, l, o) == o && Keeping(Do(s, l).pc[o], o)
  {
    assert ThreadOk(s, o, o);
    assert !l.Park? && !l.LeaveBlock? && !l.Finish? && !l.WakeIdle? && !l.TryMark? && !l.TryFail?
           && !l.InterProEnd? && !l.Wakeup?;
    if l.Scan? {
      KeepingScan(s, o);
    } else if l.Put? {
    } else {
      KeepingWork(s, o, l);
    }
  }

  lemma KeepingScan(s: State, o: int)
    requires Inv(s, o) && o >= 0 && s.pc[o].Scanning? && Keeping(s.pc[o], o)
    ensures s.runq != [] && s.runq[0] == o && ScanOne(s, o).pc[o] == Posting(o, ToUser)
  {
    assert ThreadOk(s, o, o);
  }

  lemma KeepingWork(s: State, o: int, l: Label)
    requires Inv(s, o) && Enabled(s, l) && l.t == o && Keeping(s.pc[o], o) && !LeavesSection(l)
    requires l.SeeFlag? || l.TakeTurn? || l.Signal? || l.Tick? || l.ReadFlag? || l.Merge? || l.Post? || l.Spawn?
    ensures NextOwner(s, l, o) == o && Keeping(Do(s, l).pc[o], o)
  {
  }

  /** A step of a thread without the turn moves no token and no other thread. */
  lemma OthersStep(s: State, o: int, l: Label)
    requires Inv(s, o) && Enabled(s, l) && l.t != o
    ensures NextOwner(s, l, o) == o
  {
    assert ThreadOk(s, o, l.t);
  }

  lemma SchedKeeps(c: Cs, o: int, l: Label, t: nat)
    requires CsInv(c, o) && CanDo(c, Sched(l)) && t < |c.s.pc| && c.level[t] > 0 && !c.s.IsIdle(t)
    ensures t < |Do(c.s, l).pc| && t == NextOwner(c.s, l, o) && Keeping(Do(c.s, l).pc[t], t)
  {
    if l.t == o {
      KeepingStep(c.s, o, l);
    } else {
      OthersStep(c.s, o, l);
      Phases.OtherPc(c.s, l, t);
    }
  }

  lemma SchedStep(c: Cs, o: int, l: Label) returns (o1: int)
    requires CsInv(c, o) && CanDo(c, Sched(l))
    ensures CsInv(CsDo(c, Sched(l)), o1)
  {
    StepInv(c.s, o, l);
    DoSized(c.s, l);
    o1 := NextOwner(c.s, l, o);
    var c1 := CsDo(c, Sched(l));
    var n := |c.s.pc|;
    assert Locks(c.held, n) == {};
    forall t | 0 <= t < |c1.s.pc| ensures LevelOk(c1, t) {
      assert t < n ==> LevelOk(c, t);
    }
    if c.dozing { Phases.OtherPc(c.s, l, IDLE); }
    forall t | 0 <= t < |c1.s.pc| && c1.level[t] > 0 && !c1.s.IsIdle(t)
      ensures t == o1 && Keeping(c1.s.pc[t], t)
    {
      SchedKeeps(c, o, l, t);
    }
  }

  /** Changing one thread's mutexes changes no other thread's. */
  lemma LockLevels(c: Cs, t: nat, m: nat)
    requires m !in c.held
    ensures Locks(c.held[m := t], t) == Locks(c.held, t) + {m} && m !in Locks(c.held, t)
    ensures forall u :: u != t ==> Locks(c.held[m := t], u) == Locks(c.held, u)
  {
    forall u | u != t ensures Locks(c.held[m := t], u) == Locks(c.held, u) { }
  }

  lemma UnlockLevels(c: Cs, m: nat)
    requires m in c.held
    ensures Locks(c.held, c.held[m]) == Locks(c.held - {m}, c.held[m]) + {m}
    ensures m !in Locks(c.held - {m}, c.held[m])
    ensures forall u :: u != c.held[m] ==> Locks(c.held - {m}, u) == Locks(c.held, u)
  {
    forall u | u != c.held[m] ensures Locks(c.held - {m}, u) == Locks(c.held, u) { }
  }

  lemma LockStep(c: Cs, o: int, t: nat, m: nat)
    requires CsInv(c, o) && CanDo(c, Lock(t, m))
    ensures CsInv(CsDo(c, Lock(t, m)), o)
  {
    HolderOwns(c.s, o, t);
    LockLevels(c, t, m);
    var c1 := CsDo(c, Lock(t, m));
    forall u | 0 <= u < |c.s.pc| ensures LevelOk(c1, u) { assert LevelOk(c, u); }
  }

  lemma UnlockStep(c: Cs, o: int, t: nat, m: nat)
    requires CsInv(c, o) && CanDo(c, Unlock(t, m))
    ensures CsInv(CsDo(c, Unlock(t, m)), o)
  {
    HolderOwns(c.s, o, t);
    SignalInv(c.s, o, t, Mutex(m), false);
    UnlockLevels(c, m);
    var c1 := CsDo(c, Unlock(t, m));
    forall u | 0 <= u < |c.s.pc| ensures LevelOk(c1, u) { assert LevelOk(c, u); }
  }

  lemma ExtStep(c: Cs, o: int, x: CsLabel)
    requires CsInv(c, o) && CanDo(c, x) && (x.ExtGet? || x.ExtPut?)
    ensures CsInv(CsDo(c, x), o)
  {
    HolderOwns(c.s, o, x.t);
    var c1 := CsDo(c, x);
    forall u | 0 <= u < |c.s.pc| ensures LevelOk(c1, u) { assert LevelOk(c, u); }
  }

  lemma DozeStep(c: Cs, o: int, x: CsLabel)
    requires CsInv(c, o) && CanDo(c, x) && (x.Doze? || x.Rouse?)
    ensures CsInv(CsDo(c, x), o)
  {
    if x.Doze? { UnlockLevels(c, IDLE_MUTEX); } else { LockLevels(c, IDLE, IDLE_MUTEX); }
    var c1 := CsDo(c, x);
    forall u | 0 <= u < |c.s.pc| ensures LevelOk(c1, u) { assert LevelOk(c, u); }
  }

  lemma CsStepInv(c: Cs, o: int, x: CsLabel) returns (o1: int)
    requires CsInv(c, o) && CanDo(c, x)
    ensures CsInv(CsDo(c, x), o1)
  {
    o1 := o;
    match x
    case Sched(l) => o1 := SchedStep(c, o, l);
    case Lock(t, m) => LockStep(c, o, t, m);
    case Unlock(t, m) => UnlockStep(c, o, t, m);
    case ExtGet(_) => ExtStep(c, o, x);
    case ExtPut(_) => ExtStep(c, o, x);
    case Doze => DozeStep(c, o, x);
    case Rouse => DozeStep(c, o, x);
  }

  ghost predicate StepAt(cs: seq<Cs>, xs: seq<CsLabel>, i: nat)
    requires i < |xs| < |cs|
  {
    CanDo(cs[i], xs[i]) && cs[i + 1] == CsDo(cs[i], xs[i])
  }

  /** The labels `xs` lead through the states `cs`. */
  ghost predicate CsRun(cs: seq<Cs>, xs: seq<CsLabel>) {
    && |cs| == |xs| + 1
    && (exists idle: bool, r: nat :: cs[0] == CsInit(idle, r))
    && forall i {:trigger StepAt(cs, xs, i)} :: 0 <= i < |xs| ==> StepAt(cs, xs, i)
  }

  lemma {:induction false} CsRunInv(cs: seq<Cs>, xs: seq<CsLabel>, i: nat) returns (o: int)
    requires CsRun(cs, xs) && i < |cs|
    ensures CsInv(cs[i], o)
  {
    if i == 0 {
      var idle: bool, r: nat :| cs[0] == CsInit(idle, r);
      CsInitInv(idle, r);
      o := MAIN;
    } else {
      o := CsRunInv(cs, xs, i - 1);
      assert StepAt(cs, xs, i - 1);
      o := CsStepInv(cs[i - 1], o, xs[i - 1]);
    }
  }

  ghost predicate CsReachable(c: Cs) {
    exists cs: seq<Cs>, xs: seq<CsLabel> :: CsRun(cs, xs) && cs[|xs|] == c
  }

  lemma CsReachableInv(c: Cs) returns (o: int)
    requires CsReachable(c)
    ensures CsInv(c, o)
  {
    var cs: seq<Cs>, xs: seq<CsLabel> :| CsRun(cs, xs) && cs[|xs|] == c;
    o := CsRunInv(cs, xs, |xs|);
  }

  /** When a thread with the turn asks for a mutex of the program, nobody else holds it: its first
      trylock fails exactly when the thread itself holds the mutex.  Only idle_mutex can also be
      held by the idle thread. */
  lemma FirstTryLockSucceeds(c: Cs, t: nat, m: nat)
    requires CsReachable(c) && t < |c.s.pc| && c.s.pc[t].Work?
    ensures m != IDLE_MUTEX ==> (m in c.held <==> m in Locks(c.held, t))
    ensures m in c.held ==> c.held[m] == t || (m == IDLE_MUTEX && c.s.IsIdle(c.held[m]))
  {
    var o := CsReachableInv(c);
    HolderOwns(c.s, o, t);
    if m in c.held {
      assert m in Locks(c.held, c.held[m]);
      assert LevelOk(c, c.held[m]);
    }
  }

  /** Every locked mutex but idle_mutex belongs to the thread that has the turn or is about to get
      it; idle_mutex belongs to that thread or to the idle thread. */
  lemma HeldByTurnOwner(c: Cs, m: nat)
    requires CsReachable(c) && m in c.held
    ensures c.held[m] < |c.s.pc| == |c.s.waits|
    ensures m != IDLE_MUTEX || !c.s.IsIdle(c.held[m]) ==>
      Holder(c.s.pc[c.held[m]]) || c.s.waits[c.held[m]].wakenUp
  {
    var o := CsReachableInv(c);
    assert m in Locks(c.held, c.held[m]);
    assert LevelOk(c, c.held[m]);
    assert ThreadOk(c.s, o, c.held[m]);
  }

  /** A thread with the turn can tell from its own counters whether the assertions of ext_get_turn
      (nobody has the external turn) and ext_put_turn (it has it) hold. */
  lemma ExtAssertsHold(c: Cs, t: nat)
    requires CsReachable(c) && t < |c.s.pc| && c.s.pc[t].Work?
    ensures t < |c.level|
    ensures c.ext == -1 <==> c.level[t] == |Locks(c.held, t)|
    ensures c.ext == t <==> c.level[t] == |Locks(c.held, t)| + 1
  {
    var o := CsReachableInv(c);
    HolderOwns(c.s, o, t);
    assert LevelOk(c, t);
    if c.ext >= 0 { assert LevelOk(c, c.ext); }
  }

  /** Unlocking wakes the thread that has waited longest for the mutex. */
  lemma UnlockWakes(c: Cs, o: int, t: nat, m: nat) returns (x: nat)
    requires CsInv(c, o) && CanDo(c, Unlock(t, m)) && Phases.WaitersOn(c.s, Mutex(m)) != {}
    ensures x in Phases.WaitersOn(c.s, Mutex(m)) && CsDo(c, Unlock(t, m)).s.Sized()
    ensures x < |CsDo(c, Unlock(t, m)).s.pc| && x !in CsDo(c, Unlock(t, m)).s.waitq
    ensures Phases.PhaseOf(CsDo(c, Unlock(t, m)).s, x) == Phases.Free(Signalled)
    ensures m !in CsDo(c, Unlock(t, m)).held
  {
    x := Phases.SignalOnePhases(c.s, o, Mutex(m));
  }

  // Reachable exceptions ------------------------------------------------------------------------

  lemma InitReachable(idle: bool, r: nat)
    ensures CsReachable(CsInit(idle, r))
  {
    var cs: seq<Cs>, xs: seq<CsLabel> := [CsInit(idle, r)], [];
    assert CsRun(cs, xs) && cs[|xs|] == CsInit(idle, r);
  }

  /** One more step of a run. */
  lemma Go(c: Cs, x: CsLabel) returns (c1: Cs)
    requires CsReachable(c) && CanDo(c, x)
    ensures c1 == CsDo(c, x) && CsReachable(c1)
  {
    var cs: seq<Cs>, xs: seq<CsLabel> :| CsRun(cs, xs) && cs[|xs|] == c;
    c1 := CsDo(c, x);
    var ds, ys := cs + [c1], xs + [x];
    forall i | 0 <= i < |ys| ensures StepAt(ds, ys, i) {
      assert i < |xs| ==> StepAt(cs, xs, i);
    }
    assert CsRun(ds, ys) && ds[|ys|] == c1;
  }

  lemma GoLock(c: Cs, t: nat, m: nat) returns (c1: Cs)
    requires CsReachable(c) && CanDo(c, Lock(t, m))
    ensures CsReachable(c1)
    ensures c1 == c.(held := c.held[m := t], level := c.level[t := c.level[t] + 1])
  {
    c1 := Go(c, Lock(t, m));
  }

  lemma GoSpawn(c: Cs, t: nat, r: nat) returns (c1: Cs)
    requires CsReachable(c) && c.s.Sized() && |c.level| == |c.s.pc| && t < |c.s.pc|
    requires c.s.pc[t].Work? && !c.dozing
    ensures CsReachable(c1) && c1 == c.(s := Spawned(c.s, r), level := c.level + [0])
  {
    c1 := Go(c, Sched(Spawn(t, r)));
  }

  lemma Start(idle: bool) returns (c: Cs)
    ensures CsReachable(c) && c == CsInit(idle, 0).(s := c.s)
    ensures c.s == TookTurn(SawFlag(Init(idle, 0), 0), 0) && c.s.pc == [Work(false)]
  {
    c := CsInit(idle, 0);
    InitReachable(idle, 0);
    c := Go(c, Sched(SeeFlag(0)));
    c := Go(c, Sched(TakeTurn(0)));
  }

  /** Steps the critical sections of `c` do not rule out in any state. */
  predicate Fine(c: Cs, l: Label) {
    && !l.Spawn? && !l.WakeIdle? && l.t < |c.level|
    && (c.s.IsIdle(l.t)
        || ((l.Put? ==> StrategyOk(c.level[l.t], l.strategy)) && (LeavesSection(l) ==> c.level[l.t] == 0)))
  }

  lemma {:induction false} LiftPath(c: Cs, ss: seq<State>, ls: seq<Label>, i: nat)
    requires CsReachable(c) && |c.level| == |c.s.pc| && !c.dozing && Path(ss, ls) && ss[0] == c.s && i < |ss|
    requires forall j :: 0 <= j < |ls| ==> Fine(c, ls[j])
    ensures CsReachable(c.(s := ss[i])) && |ss[i].pc| == |c.s.pc| && ss[i].idle == c.s.idle
  {
    if i == 0 {
      assert c.(s := ss[0]) == c;
    } else {
      LiftPath(c, ss, ls, i - 1);
      assert LinkAt(ss, ls, i - 1) && Fine(c, ls[i - 1]);
      DoSized(ss[i - 1], ls[i - 1]);
      var c1 := Go(c.(s := ss[i - 1]), Sched(ls[i - 1]));
    }
  }

  /** A stretch of the scheduler's run outside lock operations. */
  lemma Lift(c: Cs, ok: Label -> bool, s1: State) returns (c1: Cs)
    requires CsReachable(c) && |c.level| == |c.s.pc| && !c.dozing && Reaches(c.s, ok, s1)
    requires forall l :: ok(l) ==> Fine(c, l)
    ensures CsReachable(c1) && c1 == c.(s := s1)
  {
    var ss: seq<State>, ls: seq<Label> :| Leads(c.s, ss, ls, s1) && AllOk(ok, ls);
    LiftPath(c, ss, ls, |ls|);
    c1 := c.(s := s1);
  }

  /** The labels of `t`'s turns that keep the turn, in any critical section. */
  predicate TurnLabel(t: nat, l: Label) {
    l.t == t && (l.SeeFlag? || l.TakeTurn? || l.ReadFlag? || l.Scan? || l.Post?
                 || l == Tick(t, ThenWork) || l == Put(t, CurrentThread))
  }

  lemma FineTurn(c: Cs, t: nat)
    requires t < |c.level|
    ensures forall l :: TurnLabel(t, l) ==> Fine(c, l)
  {
  }

  /** The rest of an operation that keeps the turn, and getTurn of the next one. */
  lemma KeepTurn(c: Cs, t: nat) returns (c1: Cs)
    requires CsReachable(c) && c.s.Sized() && |c.level| == |c.s.pc| && t < |c.s.pc| && !c.dozing
    requires c.s.pc[t].Work? && c.s.runq != [] && c.s.runq[0] == t && c.s.waitq == [] && !c.s.flag
    requires c.s.status[t].RunningReg? && !c.s.waits[t].wakenUp
    ensures CsReachable(c1)
    ensures c1 == c.(s := Clock(c.s, t).(pc := c.s.pc[t := Work(false)]))
  {
    var ok := l => TurnLabel(t, l);
    assert forall l :: ok(l) ==> Fine(c, l) by { FineTurn(c, t); }
    assert TurnLabels(ok, t, CurrentThread);
    SameTurn(c.s, ok, t);
    c1 := Lift(c, ok, Clock(c.s, t).(pc := c.s.pc[t := Work(false)]));
  }

  /** A second ext_get_turn of one thread: it has the turn for the new call, the external turn is
      its own, and the assertion that nobody has it fails. */
  lemma NestedExtGet() returns (c: Cs)
    ensures CsReachable(c) && |c.s.pc| == 1 && c.s.pc[0] == Work(false) && c.s.log == [(0, 0)]
    ensures c.ext == 0 && !CanDo(c, ExtGet(0))
  {
    c := Start(false);
    c := Go(c, ExtGet(0));
    c := KeepTurn(c, 0);
  }

  /** The main thread has created the idle thread. */
  lemma IdleCreated() returns (c: Cs)
    ensures CsReachable(c) && c == Cs(c.s, map[], [0, 0], -1, false)
    ensures c.s == State([0, 1], [], [CALM, CALM], [RunningReg, Runnable], [Work(false), User],
                         [0, 0], {}, false, 0, [], true)
  {
    c := Start(true);
    SpawnFirst(true);
    c := GoSpawn(c, 0, 0);
    assert c.level == [0, 0];
  }

  /** The main thread puts the turn and the idle thread gets it. */
  lemma IdleStarts() returns (c: Cs)
    ensures CsReachable(c) && c == Cs(c.s, map[], [0, 0], -1, false)
    ensures c.s == State([1, 0], [], [CALM, CALM], [Runnable, RunningReg], [User, Work(false)],
                         [0, 0], {}, false, 1, [(0, 0)], true)
  {
    c := IdleCreated();
    var ok := l => Fine(c, l);
    var s := MainPuts(c.s, ok);
    c := Lift(c, ok, s);
  }

  lemma MainPuts(s0: State, ok: Label -> bool) returns (s: State)
    requires TurnLabels(ok, 0, RoundRobin) && ok(SeeFlag(1)) && ok(TakeTurn(1))
    requires s0 == State([0, 1], [], [CALM, CALM], [RunningReg, Runnable], [Work(false), User],
                         [0, 0], {}, false, 0, [], true)
    ensures Reaches(s0, ok, s)
    ensures s == State([1, 0], [], [CALM, CALM], [Runnable, RunningReg], [User, Work(false)],
                       [0, 0], {}, false, 1, [(0, 0)], true)
  {
    s := State([1, 0], [], [CALM, CALM], [Runnable, RunningReg], [User, Work(false)],
               [0, 0], {}, false, 1, [(0, 0)], true);
    var s1 := PutTurn(s0, 0, RoundRobin);
    assert s1.runq == [1, 0] && s0.pc[0 := User][1 := Work(false)] == s.pc;
    assert s0.status[0 := Runnable][1 := RunningReg] == s.status && [] + [(0, 0)] == s.log;
    NextTurn(s0, ok, 0, RoundRobin, 1, s1, s);
  }

  /** The idle thread locks idle_mutex ... */
  lemma IdleLocks() returns (c: Cs)
    ensures CsReachable(c) && c == Cs(c.s, map[IDLE_MUTEX := 1], [0, 1], -1, false)
    ensures c.s == State([1, 0], [], [CALM, CALM], [Runnable, RunningReg], [User, Work(false)],
                         [0, 0], {}, false, 1, [(0, 0)], true)
  {
    c := IdleStarts();
    c := GoLock(c, 1, IDLE_MUTEX);
    assert c.level == [0, 1];
  }

  /** ... and gets the turn for idle_cond_wait. */
  lemma IdleLocked() returns (c: Cs)
    ensures CsReachable(c) && c == Cs(c.s, map[IDLE_MUTEX := 1], [0, 1], -1, false)
    ensures c.s == State([1, 0], [], [CALM, CALM], [Runnable, RunningReg], [User, Work(false)],
                         [0, 0], {}, false, 2, [(0, 0), (1, 1)], true)
  {
    c := IdleLocks();
    Kept(c.s);
    c := KeepTurn(c, 1);
  }

  lemma Kept(s: State)
    requires s == State([1, 0], [], [CALM, CALM], [Runnable, RunningReg], [User, Work(false)],
                        [0, 0], {}, false, 1, [(0, 0)], true)
    ensures Clock(s, 1).(pc := s.pc[1 := Work(false)]) ==
      State([1, 0], [], [CALM, CALM], [Runnable, RunningReg], [User, Work(false)],
            [0, 0], {}, false, 2, [(0, 0), (1, 1)], true)
  {
    assert s.pc[1 := Work(false)] == [User, Work(false)] && [(0, 0)] + [(1, 1)] == [(0, 0), (1, 1)];
  }

  /** The exception: the idle thread waits, without the turn, and holds idle_mutex, and the thread
      that has the turn would find idle_mutex locked. */
  lemma IdleMutexHeld() returns (c: Cs)
    ensures CsReachable(c) && c.s.Sized() && |c.s.pc| == 2 && c.s.pc[0] == Work(false)
    ensures c.s.IsIdle(1) && 1 in c.s.waitq && !Holder(c.s.pc[1]) && !c.s.waits[1].wakenUp
    ensures IDLE_MUTEX in c.held && c.held[IDLE_MUTEX] == 1 && !CanDo(c, Lock(0, IDLE_MUTEX))
  {
    c := IdleLocked();
    var ok := l => IdleLabel(l);
    var s := IdleParks(c.s, ok);
    c := Lift(c, ok, s);
  }

  /** The labels of that stretch: the idle thread's, and getTurn of the main thread. */
  predicate IdleLabel(l: Label) {
    (l.t == 1 && !l.Spawn? && !l.WakeIdle?) || l == SeeFlag(0) || l == TakeTurn(0)
  }

  lemma IdleParks(s0: State, ok: Label -> bool) returns (s: State)
    requires forall l :: IdleLabel(l) ==> ok(l)
    requires s0 == State([1, 0], [], [CALM, CALM], [Runnable, RunningReg], [User, Work(false)],
                         [0, 0], {}, false, 2, s0.log, true)
    ensures Reaches(s0, ok, s)
    ensures s == State([0], [1], [CALM, CALM.(chan := IdleCond)], [RunningReg, Runnable],
                       [Work(false), InWait], [0, 0], {}, false, 3, s0.log + [(1, 2)], true)
  {
    QuietTick(s0, ok, 1);
    var s1 := Clock(s0, 1).(pc := [User, Work(true)]);
    assert s0.pc[1 := Work(true)] == s1.pc;
    IdleGone(s1, ok);
    s := State([0], [1], [CALM, CALM.(chan := IdleCond)], [RunningReg, Runnable],
               [Work(false), InWait], [0, 0], {}, false, 3, s1.log, true);
    Join(s0, ok, s1, s);
  }

  lemma IdleGone(s: State, ok: Label -> bool)
    requires forall l :: IdleLabel(l) ==> ok(l)
    requires s == State([1, 0], [], [CALM, CALM], [Runnable, RunningReg], [User, Work(true)],
                        [0, 0], {}, false, 3, s.log, true)
    ensures Reaches(s, ok, State([0], [1], [CALM, CALM.(chan := IdleCond)], [RunningReg, Runnable],
                                 [Work(false), InWait], [0, 0], {}, false, 3, s.log, true))
  {
    IdleWaits(s, ok, 1, 0);
    var s1 := State([0], [1], [CALM.(wakenUp := true), CALM.(chan := IdleCond)], [RunningReg, Runnable],
                    [User, InWait], [0, 0], {}, false, 3, s.log, true);
    assert s.pc[1 := InWait] == s1.pc && s.status[1 := Runnable][0 := RunningReg] == s1.status;
    assert s.waits[1 := s.waits[1].(chan := IdleCond, timeout := FOREVER)][0 := CALM.(wakenUp := true)] == s1.waits;
    Getting(s1, ok, 0);
    var s2 := State([0], [1], [CALM, CALM.(chan := IdleCond)], [RunningReg, Runnable],
                    [Work(false), InWait], [0, 0], {}, false, 3, s.log, true);
    assert s1.pc[0 := Work(false)] == s2.pc && s1.waits[0 := CALM] == s2.waits;
    Join(s, ok, s1, s2);
  }
}
