/** The lineup soft barrier over the scheduler: threads line up until `count` of them have
    started or one of them times out, and the next round begins when the last one has ended. */
module Lineups {
  import opened Scheduler
  import opened Safety
  import opened Deadlines
  import opened Phases

  datatype Task =
    | NoTask
    | Parked            // inside lineupStart, waiting or woken and not yet resumed
    | Active            // between lineupStart and lineupEnd

  datatype Lu = Lu(
    s: State,
    id: nat,
    count: nat,
    timeout: nat,
    nactive: nat,
    leaving: bool,      // Arriving when false
    task: seq<Task>)

  /** Calls are paired: a thread starts when it is in no round and ends what it started. */
  datatype LuLabel =
    | Sched(l: Label)
    | Start(t: nat)
    | Resume(t: nat)
    | Leave(t: nat)

  ghost predicate CanWork(k: Lu, t: nat) {
    k.s.Sized() && |k.task| == |k.s.pc| && t < |k.s.pc| && k.s.pc[t].Work? && !k.s.IsIdle(t)
  }

  ghost predicate CanDo(k: Lu, x: LuLabel) {
    match x
    case Sched(l) =>
      && k.s.Sized() && |k.task| == |k.s.pc| && Enabled(k.s, l)
      && (Outside(l) ==> !k.task[l.t].Parked?)
      && (l.Signal? ==> l.chan != Lineup(k.id))
      && (l.Tick? && l.k.ThenPark? ==> l.k.chan != Lineup(k.id))
    case Start(t) => CanWork(k, t) && k.task[t].NoTask?
    case Resume(t) => CanWork(k, t) && k.task[t].Parked?
    case Leave(t) => CanWork(k, t) && k.task[t].Active? && k.nactive > 0
  }

  /** getTurnCount, which is one less than the counter, plus the timeout, in 32 bits. */
  function Deadline(k: Lu): nat {
    (k.s.turn - 1 + k.timeout) % WORD
  }

  /** Everybody who is lined up may go. */
  function LetGo(k: Lu): Lu
    requires k.s.Sized()
  {
    k.(leaving := true, s := Signal1(k.s, Lineup(k.id), true))
  }

  function Started(k: Lu, t: nat): Lu
    requires k.s.Sized() && t < |k.task| == |k.s.pc|
  {
    var n := k.nactive + 1;
    if k.leaving then
      k.(nactive := n, task := k.task[t := Active])
    else if n == k.count then
      LetGo(k).(nactive := n, task := k.task[t := Active])
    else
      k.(nactive := n, task := k.task[t := Parked],
         s := Ticked(k.s, t, ThenPark(Lineup(k.id), Deadline(k))))
  }

  function Resumed(k: Lu, t: nat): Lu
    requires k.s.Sized() && t < |k.task|
  {
    (if k.nactive < k.count && !k.leaving then LetGo(k) else k)
    .(task := k.task[t := Active])
  }

  function Finished(k: Lu, t: nat): Lu
    requires t < |k.task| && k.nactive > 0
  {
    k.(nactive := k.nactive - 1, task := k.task[t := NoTask],
       leaving := if k.nactive == 1 then false else k.leaving)
  }

  function LuDo(k: Lu, x: LuLabel): Lu
    requires CanDo(k, x)
  {
    match x
    case Sched(l) => k.(s := Do(k.s, l), task := if l.Spawn? then k.task + [NoTask] else k.task)
    case Start(t) => Started(k, t)
    case Resume(t) => Resumed(k, t)
    case Leave(t) => Finished(k, t)
  }

  // The invariant -----------------------------------------------------------------------------

  ghost function InRound(k: Lu): set<nat> {
    set t | 0 <= t < |k.task| && !k.task[t].NoTask?
  }

  predicate TaskFits(task: Task, p: Phase, c: Chan, leaving: bool) {
    match task
    case NoTask => !On(p, c)
    case Active => !On(p, c) && leaving
    case Parked => if leaving then !On(p, c) else On(p, c) || p == Free(TimedOut)
  }

  ghost predicate TasksFit(k: Lu)
    requires k.s.Sized()
  {
    && |k.task| == |k.s.pc|
    && forall t :: 0 <= t < |k.task| ==> TaskFits(k.task[t], PhaseOf(k.s, t), Lineup(k.id), k.leaving)
  }

  ghost predicate LuInv(k: Lu, o: int) {
    && Inv(k.s, o)
    && TasksFit(k)
    && k.count >= 1 && k.nactive == |InRound(k)|
    && (k.leaving ==> k.nactive > 0)
    && (!k.leaving ==> k.nactive < k.count)
  }

  // Steps ---------------------------------------------------------------------------------------

  lemma MoveFits(s: State, l: Label, s1: State, u: nat, c: Chan, task: Task, leaving: bool)
    requires s.Sized() && u < |s.pc| && Moved(s, l, s1) && c.Lineup? && !Signals(l, c)
    requires TaskFits(task, PhaseOf(s, u), c, leaving)
    requires u == l.t && Outside(l) ==> !task.Parked?
    requires u == l.t && l.Tick? && l.k.ThenPark? ==> l.k.chan != c
    ensures TaskFits(task, PhaseOf(s1, u), c, leaving)
  {
    assert PhaseMove(s, l, u, PhaseOf(s, u), PhaseOf(s1, u));
  }

  lemma SchedStep(k: Lu, o: int, l: Label)
    requires LuInv(k, o) && CanDo(k, Sched(l))
    ensures LuInv(LuDo(k, Sched(l)), NextOwner(k.s, l, o))
  {
    var k1 := LuDo(k, Sched(l));
    StepInv(k.s, o, l);
    StepMoves(k.s, o, l);
    DoSized(k.s, l);
    forall u | 0 <= u < |k.task| ensures TaskFits(k.task[u], PhaseOf(k1.s, u), Lineup(k.id), k.leaving) {
      MoveFits(k.s, l, k1.s, u, Lineup(k.id), k.task[u], k.leaving);
    }
    assert InRound(k1) == InRound(k);
  }

  /** Signalling the whole line. */
  lemma LetGoFits(k: Lu, o: int, t: nat, k1: Lu)
    requires LuInv(k, o) && CanWork(k, t) && k1.s == Signal1(k.s, Lineup(k.id), true) && k1.leaving
    requires k1.id == k.id && k1.task == k.task[t := Active]
    ensures Inv(k1.s, o) && TasksFit(k1)
  {
    var c := Lineup(k.id);
    StepInv(k.s, o, Signal(t, c, true));
    PhaseOwner(k.s, o, t);
    forall u | 0 <= u < |k.task| ensures TaskFits(k1.task[u], PhaseOf(k1.s, u), c, true) {
      assert TaskFits(k.task[u], PhaseOf(k.s, u), c, k.leaving);
      SignalAllPhase(k.s, o, c, u);
      PhaseOwner(k.s, o, u);
    }
  }

  lemma ParkFits(k: Lu, o: int, t: nat, k1: Lu)
    requires LuInv(k, o) && CanWork(k, t) && !k.leaving && !k1.leaving
    requires k1.s == Ticked(k.s, t, ThenPark(Lineup(k.id), Deadline(k)))
    requires k1.id == k.id && k1.task == k.task[t := Parked]
    ensures Inv(k1.s, o) && TasksFit(k1)
  {
    var l := Tick(t, ThenPark(Lineup(k.id), Deadline(k)));
    StepInv(k.s, o, l);
    StepMoves(k.s, o, l);
    TickPhase(k.s, o, t, l.k, t);
    forall u | 0 <= u < |k.task| && u != t
      ensures TaskFits(k.task[u], PhaseOf(k1.s, u), Lineup(k.id), k.leaving)
    {
      MoveFits(k.s, l, k1.s, u, Lineup(k.id), k.task[u], k.leaving);
    }
  }

  lemma JoinRound(k: Lu, t: nat, k1: Lu)
    requires t < |k.task| && k.task[t].NoTask?
    requires k1.task == k.task[t := Active] || k1.task == k.task[t := Parked]
    ensures |InRound(k1)| == |InRound(k)| + 1
  {
    assert InRound(k1) == InRound(k) + {t} && t !in InRound(k);
  }

  lemma StartStep(k: Lu, o: int, t: nat)
    requires LuInv(k, o) && CanDo(k, Start(t))
    ensures LuInv(LuDo(k, Start(t)), o)
  {
    var k1 := LuDo(k, Start(t));
    PhaseOwner(k.s, o, t);
    JoinRound(k, t, k1);
    if !k.leaving && k.nactive + 1 == k.count {
      LetGoFits(k, o, t, k1);
    } else if !k.leaving {
      ParkFits(k, o, t, k1);
    }
  }

  lemma ResumeStep(k: Lu, o: int, t: nat)
    requires LuInv(k, o) && CanDo(k, Resume(t))
    ensures LuInv(LuDo(k, Resume(t)), o)
  {
    var k1 := LuDo(k, Resume(t));
    PhaseOwner(k.s, o, t);
    assert InRound(k1) == InRound(k) && t in InRound(k);
    if !k.leaving { LetGoFits(k, o, t, k1); }
  }

  lemma LeaveStep(k: Lu, o: int, t: nat)
    requires LuInv(k, o) && CanDo(k, Leave(t))
    ensures LuInv(LuDo(k, Leave(t)), o)
  {
    var k1 := LuDo(k, Leave(t));
    PhaseOwner(k.s, o, t);
    assert TaskFits(k.task[t], PhaseOf(k.s, t), Lineup(k.id), k.leaving);
    assert InRound(k1) == InRound(k) - {t} && t in InRound(k);
    if k.nactive == 1 {
      forall u | 0 <= u < |k1.task| ensures TaskFits(k1.task[u], PhaseOf(k1.s, u), Lineup(k.id), false) {
        assert u !in InRound(k1);
        assert TaskFits(k.task[u], PhaseOf(k.s, u), Lineup(k.id), k.leaving);
      }
    }
  }

  lemma LuStepInv(k: Lu, o: int, x: LuLabel) returns (o1: int)
    requires LuInv(k, o) && CanDo(k, x)
    ensures LuInv(LuDo(k, x), o1)
  {
    o1 := o;
    match x
    case Sched(l) => o1 := NextOwner(k.s, l, o); SchedStep(k, o, l);
    case Start(t) => StartStep(k, o, t);
    case Resume(t) => ResumeStep(k, o, t);
    case Leave(t) => LeaveStep(k, o, t);
  }

  ghost predicate LuStepAt(ks: seq<Lu>, xs: seq<LuLabel>, i: nat)
    requires i < |xs| < |ks|
  {
    CanDo(ks[i], xs[i]) && ks[i + 1] == LuDo(ks[i], xs[i])
  }

  /** The labels `xs` lead from lineupInit, with a count of at least one, through the states `ks`. */
  ghost predicate LuRun(ks: seq<Lu>, xs: seq<LuLabel>) {
    && |ks| == |xs| + 1
    && (exists idle: bool, r: nat, id: nat, count: nat, timeout: nat ::
          count >= 1 && ks[0] == LuInit(idle, r, id, count, timeout))
    && forall i {:trigger LuStepAt(ks, xs, i)} :: 0 <= i < |xs| ==> LuStepAt(ks, xs, i)
  }

  lemma {:induction false} LuRunInv(ks: seq<Lu>, xs: seq<LuLabel>, i: nat) returns (o: int)
    requires LuRun(ks, xs) && i < |ks|
    ensures LuInv(ks[i], o)
  {
    if i == 0 {
      var idle: bool, r: nat, id: nat, count: nat, timeout: nat :|
        count >= 1 && ks[0] == LuInit(idle, r, id, count, timeout);
      LuInitInv(idle, r, id, count, timeout);
      o := MAIN;
    } else {
      o := LuRunInv(ks, xs, i - 1);
      assert LuStepAt(ks, xs, i - 1);
      o := LuStepInv(ks[i - 1], o, xs[i - 1]);
    }
  }

  /** lineupInit. */
  function LuInit(idle: bool, r: nat, id: nat, count: nat, timeout: nat): Lu {
    Lu(Init(idle, r), id, count, timeout, 0, false, [NoTask])
  }

  lemma LuInitInv(idle: bool, r: nat, id: nat, count: nat, timeout: nat)
    requires count >= 1
    ensures LuInv(LuInit(idle, r, id, count, timeout), MAIN)
  {
    var k0 := LuInit(idle, r, id, count, timeout);
    InitInv(idle, r);
    assert PhaseOf(k0.s, 0) == Free(Signalled);
    assert InRound(k0) == {};
  }

  ghost predicate LuReachable(k: Lu) {
    exists ks: seq<Lu>, xs: seq<LuLabel> :: LuRun(ks, xs) && ks[|xs|] == k
  }

  lemma LuReachableInv(k: Lu) returns (o: int)
    requires LuReachable(k)
    ensures LuInv(k, o)
  {
    var ks: seq<Lu>, xs: seq<LuLabel> :| LuRun(ks, xs) && ks[|xs|] == k;
    o := LuRunInv(ks, xs, |xs|);
  }

  /** nactive is the number of threads between lineupStart and lineupEnd.  While Arriving it is
      below count and each of them waits, or has timed out and not yet resumed; while Leaving
      nobody waits and somebody is in the round. */
  lemma LineupRounds(k: Lu)
    requires LuReachable(k)
    ensures k.s.Sized() && |k.task| == |k.s.pc| && k.nactive == |InRound(k)|
    ensures !k.leaving ==> k.nactive < k.count
    ensures !k.leaving ==> forall t :: t in InRound(k) ==>
      k.task[t].Parked? && (On(PhaseOf(k.s, t), Lineup(k.id)) || PhaseOf(k.s, t) == Free(TimedOut))
    ensures k.leaving ==> k.nactive > 0 && forall t :: 0 <= t < |k.s.pc| ==> !On(PhaseOf(k.s, t), Lineup(k.id))
  {
    var o := LuReachableInv(k);
  }

  /** A round starts to leave when its last thread arrives or one of its threads timed out, and
      gives way to the next round exactly when its last thread ends. */
  lemma RoundEdges(k: Lu, x: LuLabel)
    requires LuReachable(k) && CanDo(k, x)
    ensures k.leaving && !LuDo(k, x).leaving <==> x.Leave? && InRound(k) == {x.t}
    ensures !k.leaving && LuDo(k, x).leaving <==>
      (x.Start? && !k.leaving && |InRound(k)| + 1 == k.count) || (x.Resume? && !k.leaving)
    ensures x.Resume? && !k.leaving ==> PhaseOf(k.s, x.t) == Free(TimedOut)
  {
    var o := LuReachableInv(k);
    match x
    case Sched(_) =>
    case Resume(t) =>
      PhaseOwner(k.s, o, t);
      assert TaskFits(k.task[t], PhaseOf(k.s, t), Lineup(k.id), k.leaving);
    case Start(_) =>
    case Leave(t) =>
      assert TaskFits(k.task[t], PhaseOf(k.s, t), Lineup(k.id), k.leaving);
      assert t in InRound(k);
      if k.nactive == 1 { assert |InRound(k) - {t}| == 0; }
  }

  /** Ending a round never underflows the count. */
  lemma FinishIsPaired(k: Lu, t: nat)
    requires LuReachable(k) && t < |k.task| && k.task[t].Active?
    ensures k.nactive > 0 && k.leaving
  {
    var o := LuReachableInv(k);
    assert t in InRound(k);
    assert TaskFits(k.task[t], PhaseOf(k.s, t), Lineup(k.id), k.leaving);
  }

  // Timeouts ------------------------------------------------------------------------------------

  /** A start that has to wait waits until `timeout` turns after the current one, in 32 bits ... */
  lemma StartDeadline32(k: Lu, o: int, t: nat)
    requires LuInv(k, o) && CanDo(k, Start(t)) && !k.leaving && k.nactive + 1 != k.count
    ensures LuDo(k, Start(t)).s.Sized() && t < |LuDo(k, Start(t)).s.pc|
    ensures PhaseOf(LuDo(k, Start(t)).s, t) == Entering(Lineup(k.id), (k.s.turn - 1 + k.timeout) % WORD)
  {
    TickPhase(k.s, o, t, ThenPark(Lineup(k.id), (k.s.turn - 1 + k.timeout) % WORD), t);
  }

  /** ... which is the sum itself, short of a wrap. */
  lemma StartDeadline(k: Lu, o: int, t: nat)
    requires LuInv(k, o) && CanDo(k, Start(t)) && !k.leaving && k.nactive + 1 != k.count
    requires 1 <= k.s.turn && k.s.turn - 1 + k.timeout < FOREVER
    ensures LuDo(k, Start(t)).s.Sized() && t < |LuDo(k, Start(t)).s.pc|
    ensures PhaseOf(LuDo(k, Start(t)).s, t) == Entering(Lineup(k.id), k.s.turn - 1 + k.timeout)
  {
    StartDeadline32(k, o, t);
    SmallMod(k.s.turn - 1 + k.timeout);
  }

  lemma SmallMod(d: nat)
    ensures d < FOREVER ==> d % WORD == d
  {
  }

  ghost predicate LinedUp(k: Lu, t: nat) {
    k.s.Sized() && t < |k.s.pc| && On(PhaseOf(k.s, t), Lineup(k.id))
  }

  ghost predicate LinedUpUntil(k: Lu, t: nat, d: nat) {
    LinedUp(k, t) && PhaseOf(k.s, t).deadline == d
  }

  /** A lined-up thread keeps its deadline in every step, and a step that moves the clock leaves
      it lined up only if the clock is not past the deadline. */
  lemma LinedUpStep(k: Lu, o: int, x: LuLabel, t: nat, d: nat)
    requires LuInv(k, o) && CanDo(k, x) && LinedUpUntil(k, t, d) && LinedUp(LuDo(k, x), t)
    ensures LinedUpUntil(LuDo(k, x), t, d)
    ensures LuDo(k, x).s.turn != k.s.turn ==> LuDo(k, x).s.turn <= d
  {
    var c := Lineup(k.id);
    match x
    case Sched(l) => StaysInTime(k.s, o, l, t, c);
    case Leave(_) =>
    case Start(u) =>
      if !k.leaving && k.nactive + 1 == k.count {
        StaysInTime(k.s, o, Signal(u, c, true), t, c);
      } else if !k.leaving {
        PhaseOwner(k.s, o, u);
        StaysInTime(k.s, o, Tick(u, ThenPark(c, Deadline(k))), t, c);
      }
    case Resume(u) =>
      if k.nactive < k.count && !k.leaving { StaysInTime(k.s, o, Signal(u, c, true), t, c); }
  }

  /** In every run, short of a wrap, no thread that has started is still lined up once the clock
      has moved past the turn of its start plus the timeout. */
  lemma {:induction false} NobodyLinesUpLonger(ks: seq<Lu>, xs: seq<LuLabel>, i: nat, j: nat, t: nat, d: nat)
    requires LuRun(ks, xs) && i < j < |ks| && xs[i] == Start(t)
    requires forall m {:trigger LinedUp(ks[m], t)} :: i < m <= j ==> LinedUp(ks[m], t)
    requires 1 <= ks[i].s.turn && d == ks[i].s.turn - 1 + ks[i].timeout < FOREVER
    ensures LinedUpUntil(ks[j], t, d)
    ensures j > i + 1 && ks[j].s.turn != ks[j - 1].s.turn ==> ks[j].s.turn <= d
  {
    assert LinedUp(ks[j], t);
    if j > i + 1 { NobodyLinesUpLonger(ks, xs, i, j - 1, t, d); }
    LinedUpAt(ks, xs, j - 1, t, d, j == i + 1);
  }

  lemma LinedUpAt(ks: seq<Lu>, xs: seq<LuLabel>, i: nat, t: nat, d: nat, first: bool)
    requires LuRun(ks, xs) && i < |xs| && LinedUp(ks[i + 1], t)
    requires if first then xs[i] == Start(t) && 1 <= ks[i].s.turn && d == ks[i].s.turn - 1 + ks[i].timeout < FOREVER
             else LinedUpUntil(ks[i], t, d)
    ensures LinedUpUntil(ks[i + 1], t, d)
    ensures !first && ks[i + 1].s.turn != ks[i].s.turn ==> ks[i + 1].s.turn <= d
  {
    var o := LuRunInv(ks, xs, i);
    assert LuStepAt(ks, xs, i);
    LinedUpLink(ks[i], o, xs[i], ks[i + 1], t, d, first);
  }

  lemma LinedUpLink(k: Lu, o: int, x: LuLabel, k1: Lu, t: nat, d: nat, first: bool)
    requires LuInv(k, o) && CanDo(k, x) && k1 == LuDo(k, x) && LinedUp(k1, t)
    requires if first then x == Start(t) && 1 <= k.s.turn && d == k.s.turn - 1 + k.timeout < FOREVER
             else LinedUpUntil(k, t, d)
    ensures LinedUpUntil(k1, t, d)
    ensures !first && k1.s.turn != k.s.turn ==> k1.s.turn <= d
  {
    if first { StartWaits(k, o, t, d); } else { LinedUpStep(k, o, x, t, d); }
  }

  /** A start that leaves its thread lined up is one that had to wait. */
  lemma StartWaits(k: Lu, o: int, t: nat, d: nat)
    requires LuInv(k, o) && CanDo(k, Start(t)) && LinedUp(LuDo(k, Start(t)), t)
    requires 1 <= k.s.turn && d == k.s.turn - 1 + k.timeout < FOREVER
    ensures LinedUpUntil(LuDo(k, Start(t)), t, d)
  {
    PhaseOwner(k.s, o, t);
    if !k.leaving && k.nactive + 1 == k.count {
      SignalAllPhase(k.s, o, Lineup(k.id), t);
    } else if !k.leaving {
      StartDeadline(k, o, t);
    }
  }
}
