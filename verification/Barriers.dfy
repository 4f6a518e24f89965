/** Barriers over the scheduler: the runtime counts arrivals itself, the last thread to arrive
    wakes the others, and the barrier can be reused at once. */
module Barriers {
  import opened Scheduler
  import opened Safety
  import opened Deadlines
  import opened Phases

  /** Where a thread is inside pthread_barrier_wait; `gen` numbers the uses of the barrier. */
  datatype Task =
    | NoTask
    | Called                             // has the turn, has not arrived
    | Parked(gen: nat)                   // arrived and waits, or released and not yet returned
    | Serial(gen: nat, put: bool)        // arrived last; `put`: has passed the turn on in between

  /** A completed generation: who took part, who was last, and what each call returned so far
      (true for PTHREAD_BARRIER_SERIAL_THREAD, false for 0). */
  datatype Round = Round(members: set<nat>, serial: nat, returned: map<nat, bool>)

  datatype Bar = Bar(
    s: State,
    id: nat,
    count: nat,
    narrived: nat,
    task: seq<Task>,
    rounds: seq<Round>)

  datatype BarLabel =
    | Sched(l: Label)
    | Call(t: nat)
    | Arrive(t: nat)
    | PutMid(t: nat)
    | Return(t: nat)

  ghost predicate CanWork(k: Bar, t: nat) {
    k.s.Sized() && |k.task| == |k.s.pc| && t < |k.s.pc| && k.s.pc[t].Work? && !k.s.IsIdle(t)
  }

  ghost predicate CanDo(k: Bar, x: BarLabel) {
    match x
    case Sched(l) =>
      && k.s.Sized() && |k.task| == |k.s.pc| && Enabled(k.s, l)
      && (Outside(l) ==> k.task[l.t].NoTask?)
      && (l.Signal? ==> l.chan != Barrier(k.id))
      && (l.Tick? && l.k.ThenPark? ==> l.k.chan != Barrier(k.id))
    case Call(t) => CanWork(k, t) && k.task[t].NoTask?
    case Arrive(t) => CanWork(k, t) && k.task[t].Called?
    case PutMid(t) => CanWork(k, t) && k.task[t].Serial? && !k.task[t].put && k.s.pc[t].ticked
    case Return(t) => CanWork(k, t) && (k.task[t].Parked? || (k.task[t].Serial? && k.task[t].put))
                      && k.task[t].gen < |k.rounds|
  }

  ghost function At(k: Bar): set<nat>
    requires k.s.Sized()
  {
    set t | 0 <= t < |k.s.pc| && On(PhaseOf(k.s, t), Barrier(k.id))
  }

  /** The arrival proper. */
  ghost function Arrived(k: Bar, t: nat): Bar
    requires CanWork(k, t)
  {
    var n := |k.rounds|;
    if k.narrived + 1 == k.count then
      k.(narrived := 0,
         s := Signal1(k.s, Barrier(k.id), true),
         task := k.task[t := Serial(n, false)],
         rounds := k.rounds + [Round(At(k) + {t}, t, map[])])
    else
      k.(narrived := k.narrived + 1,
         s := Ticked(k.s, t, ThenPark(Barrier(k.id), FOREVER)),
         task := k.task[t := Parked(n)])
  }

  ghost function Returned(k: Bar, t: nat): Bar
    requires CanDo(k, Return(t))
  {
    var g := k.task[t].gen;
    var r := k.rounds[g];
    k.(task := k.task[t := NoTask],
       rounds := k.rounds[g := r.(returned := r.returned[t := k.task[t].Serial?])])
  }

  ghost function BarDo(k: Bar, x: BarLabel): Bar
    requires CanDo(k, x)
  {
    match x
    case Sched(l) => k.(s := Do(k.s, l), task := if l.Spawn? then k.task + [NoTask] else k.task)
    case Call(t) => k.(s := Ticked(k.s, t, ThenWork), task := k.task[t := Called])
    case Arrive(t) => Arrived(k, t)
    case PutMid(t) => k.(s := PutTurn(k.s, t, RoundRobin), task := k.task[t := k.task[t].(put := true)])
    case Return(t) => Returned(k, t)
  }

  // The invariant -----------------------------------------------------------------------------

  predicate TaskFits(task: Task, p: Phase, c: Chan, n: nat) {
    && (On(p, c) <==> task == Parked(n))
    && (On(p, c) ==> p.deadline == FOREVER)
    && (task.Parked? ==> task.gen <= n)
    && (task.Serial? ==> task.gen < n)
  }

  predicate Inside(task: Task, g: nat) {
    (task.Parked? || task.Serial?) && task.gen == g
  }

  /** A completed generation has `count` members, one of them the serial thread; each member is
      still inside or has returned once, with the right value. */
  ghost predicate RoundOk(k: Bar, g: nat)
    requires g < |k.rounds|
  {
    var r := k.rounds[g];
    && |r.members| == k.count && r.serial in r.members
    && (forall t :: t in r.members ==> t < |k.task|)
    && (forall t :: 0 <= t < |k.task| ==> (Inside(k.task[t], g) <==> t in r.members && t !in r.returned))
    && (forall t :: 0 <= t < |k.task| && Inside(k.task[t], g) ==> (k.task[t].Serial? <==> t == r.serial))
    && (forall t :: t in r.returned ==> t in r.members && r.returned[t] == (t == r.serial))
  }

  ghost predicate TasksFit(k: Bar)
    requires k.s.Sized()
  {
    && |k.task| == |k.s.pc|
    && forall t :: 0 <= t < |k.task| ==>
         TaskFits(k.task[t], PhaseOf(k.s, t), Barrier(k.id), |k.rounds|)
  }

  ghost predicate BarInv(k: Bar, o: int) {
    && Inv(k.s, o)
    && TasksFit(k)
    && k.narrived == |At(k)| && k.narrived < k.count
    && forall g :: 0 <= g < |k.rounds| ==> RoundOk(k, g)
  }

  lemma BarInitInv(idle: bool, r: nat, id: nat, count: nat)
    requires count >= 1
    ensures BarInv(Bar(Init(idle, r), id, count, 0, [NoTask], []), MAIN)
  {
    InitInv(idle, r);
    var k := Bar(Init(idle, r), id, count, 0, [NoTask], []);
    assert PhaseOf(k.s, 0) == Free(Signalled);
    assert At(k) == {};
  }

  // Steps -------------------------------------------------------------------------------------

  /** A scheduler step that leaves the barrier's channel alone. */
  lemma MoveStep(k: Bar, o: int, l: Label, k1: Bar)
    requires BarInv(k, o) && Moved(k.s, l, k1.s) && |k1.task| == |k1.s.pc| && !Signals(l, Barrier(k.id))
    requires l.Tick? && l.k.ThenPark? ==> l.k.chan != Barrier(k.id)
    requires k1.id == k.id && k1.count == k.count && k1.narrived == k.narrived && k1.rounds == k.rounds
    requires forall u :: 0 <= u < |k.task| ==>
      k1.task[u] == k.task[u]
      || (k.task[u].NoTask? && k1.task[u].Called?)
      || (k.task[u].Serial? && k1.task[u] == k.task[u].(put := true))
    requires forall u :: |k.task| <= u < |k1.task| ==> k1.task[u].NoTask?
    ensures TasksFit(k1) && k1.narrived == |At(k1)|
    ensures forall g :: 0 <= g < |k1.rounds| ==> RoundOk(k1, g)
  {
    var c := Barrier(k.id);
    forall u | 0 <= u < |k.task| ensures
      && (On(PhaseOf(k1.s, u), c) <==> On(PhaseOf(k.s, u), c))
      && TaskFits(k1.task[u], PhaseOf(k1.s, u), c, |k.rounds|)
    {
      assert TaskFits(k.task[u], PhaseOf(k.s, u), c, |k.rounds|);
      MovePhase(k.s, l, k1.s, u, c);
      assert PhaseMove(k.s, l, u, PhaseOf(k.s, u), PhaseOf(k1.s, u));
    }
    assert At(k1) == At(k);
    forall g | 0 <= g < |k1.rounds| ensures RoundOk(k1, g) {
      SameRound(k, k1, g);
    }
  }

  lemma SameRound(k: Bar, k1: Bar, g: nat)
    requires g < |k.rounds| == |k1.rounds| && RoundOk(k, g) && k1.rounds[g] == k.rounds[g]
    requires k1.count == k.count && |k.task| <= |k1.task|
    requires forall u :: 0 <= u < |k.task| && (Inside(k.task[u], g) || Inside(k1.task[u], g)) ==>
      Inside(k.task[u], g) && Inside(k1.task[u], g) && k.task[u].Serial? == k1.task[u].Serial?
    requires forall u :: |k.task| <= u < |k1.task| ==> !Inside(k1.task[u], g)
    ensures RoundOk(k1, g)
  {
  }

  lemma SchedStep(k: Bar, o: int, l: Label)
    requires BarInv(k, o) && CanDo(k, Sched(l))
    ensures BarInv(BarDo(k, Sched(l)), NextOwner(k.s, l, o))
  {
    StepInv(k.s, o, l);
    StepMoves(k.s, o, l);
    DoSized(k.s, l);
    MoveStep(k, o, l, BarDo(k, Sched(l)));
  }

  lemma CallStep(k: Bar, o: int, t: nat)
    requires BarInv(k, o) && CanDo(k, Call(t))
    ensures BarInv(BarDo(k, Call(t)), o)
  {
    StepInv(k.s, o, Tick(t, ThenWork));
    StepMoves(k.s, o, Tick(t, ThenWork));
    MoveStep(k, o, Tick(t, ThenWork), BarDo(k, Call(t)));
  }

  lemma PutMidStep(k: Bar, o: int, t: nat)
    requires BarInv(k, o) && CanDo(k, PutMid(t))
    ensures BarInv(BarDo(k, PutMid(t)), o)
  {
    StepInv(k.s, o, Put(t, RoundRobin));
    StepMoves(k.s, o, Put(t, RoundRobin));
    MoveStep(k, o, Put(t, RoundRobin), BarDo(k, PutMid(t)));
  }

  /** An early arrival parks and is counted. */
  lemma ParkStep(k: Bar, o: int, t: nat)
    requires BarInv(k, o) && CanDo(k, Arrive(t)) && k.narrived + 1 != k.count
    ensures BarInv(BarDo(k, Arrive(t)), o)
  {
    var k1 := BarDo(k, Arrive(t));
    var c := Barrier(k.id);
    var l := Tick(t, ThenPark(c, FOREVER));
    StepInv(k.s, o, l);
    StepMoves(k.s, o, l);
    TickPhase(k.s, o, t, l.k, t);
    PhaseOwner(k.s, o, t);
    forall u | 0 <= u < |k.task| && u != t ensures
      && (On(PhaseOf(k1.s, u), c) <==> On(PhaseOf(k.s, u), c))
      && TaskFits(k.task[u], PhaseOf(k1.s, u), c, |k.rounds|)
    {
      assert TaskFits(k.task[u], PhaseOf(k.s, u), c, |k.rounds|);
      OtherArrives(k.s, l, k1.s, u, c, k.task[u], |k.rounds|);
    }
    ParkCounts(k, k1, t);
    ParkRounds(k, k1, t);
  }

  lemma ParkRounds(k: Bar, k1: Bar, t: nat)
    requires t < |k.task| && k.task[t].Called? && k1.task == k.task[t := Parked(|k.rounds|)]
    requires k1.count == k.count && k1.rounds == k.rounds
    requires forall g :: 0 <= g < |k.rounds| ==> RoundOk(k, g)
    ensures forall g :: 0 <= g < |k1.rounds| ==> RoundOk(k1, g)
  {
    forall g | 0 <= g < |k1.rounds| ensures RoundOk(k1, g) {
      SameRound(k, k1, g);
    }
  }

  lemma OtherArrives(s: State, l: Label, s1: State, u: nat, c: Chan, task: Task, n: nat)
    requires s.Sized() && Moved(s, l, s1) && u < |s.pc| && l.Tick? && u != l.t && c.Barrier?
    requires TaskFits(task, PhaseOf(s, u), c, n)
    ensures On(PhaseOf(s1, u), c) <==> On(PhaseOf(s, u), c)
    ensures TaskFits(task, PhaseOf(s1, u), c, n)
  {
    MovePhase(s, l, s1, u, c);
    assert PhaseMove(s, l, u, PhaseOf(s, u), PhaseOf(s1, u));
  }

  lemma ParkCounts(k: Bar, k1: Bar, t: nat)
    requires k.s.Sized() && k1.s.Sized() && |k1.s.pc| == |k.s.pc| && t < |k.s.pc| && k1.id == k.id
    requires !On(PhaseOf(k.s, t), Barrier(k.id)) && On(PhaseOf(k1.s, t), Barrier(k.id))
    requires forall u :: 0 <= u < |k.s.pc| && u != t ==>
      (On(PhaseOf(k1.s, u), Barrier(k.id)) <==> On(PhaseOf(k.s, u), Barrier(k.id)))
    ensures |At(k1)| == |At(k)| + 1
  {
    assert At(k1) == At(k) + {t} && t !in At(k);
  }

  /** The last arrival releases everybody and starts a new generation. */
  lemma LastStep(k: Bar, o: int, t: nat)
    requires BarInv(k, o) && CanDo(k, Arrive(t)) && k.narrived + 1 == k.count
    ensures BarInv(BarDo(k, Arrive(t)), o)
  {
    var k1 := BarDo(k, Arrive(t));
    var c := Barrier(k.id);
    StepInv(k.s, o, Signal(t, c, true));
    PhaseOwner(k.s, o, t);
    forall u | 0 <= u < |k.task| ensures
      && !On(PhaseOf(k1.s, u), c) && TaskFits(k1.task[u], PhaseOf(k1.s, u), c, |k1.rounds|)
    {
      assert TaskFits(k.task[u], PhaseOf(k.s, u), c, |k.rounds|);
      SignalAllPhase(k.s, o, c, u);
      PhaseOwner(k.s, o, u);
    }
    assert At(k1) == {};
    forall g | 0 <= g < |k1.rounds| ensures RoundOk(k1, g) {
      if g == |k.rounds| { NewRound(k, o, t); } else { OldRound(k, k1, t, g); }
    }
  }

  lemma NewRound(k: Bar, o: int, t: nat)
    requires BarInv(k, o) && CanDo(k, Arrive(t)) && k.narrived + 1 == k.count
    ensures RoundOk(Arrived(k, t), |k.rounds|)
  {
    PhaseOwner(k.s, o, t);
    var n := |k.rounds|;
    assert t !in At(k);
    assert |At(k) + {t}| == k.count;
    forall u | 0 <= u < |k.task| ensures u in At(k) <==> k.task[u] == Parked(n) {
      assert TaskFits(k.task[u], PhaseOf(k.s, u), Barrier(k.id), n);
    }
    forall u | 0 <= u < |k.task| ensures !(k.task[u].Serial? && k.task[u].gen == n) {
      assert TaskFits(k.task[u], PhaseOf(k.s, u), Barrier(k.id), n);
    }
  }

  lemma OldRound(k: Bar, k1: Bar, t: nat, g: nat)
    requires g < |k.rounds| < |k1.rounds| && RoundOk(k, g) && k1.rounds[g] == k.rounds[g]
    requires k1.count == k.count && t < |k.task| && k.task[t].Called?
    requires k1.task == k.task[t := Serial(|k.rounds|, false)]
    ensures RoundOk(k1, g)
  {
  }

  lemma ReturnRound(k: Bar, t: nat, g: nat)
    requires CanDo(k, Return(t)) && g < |k.rounds| && RoundOk(k, g)
    ensures RoundOk(Returned(k, t), g)
  {
    var k1 := Returned(k, t);
    if g != k.task[t].gen {
      SameRound(k, k1, g);
    }
  }

  lemma ReturnStep(k: Bar, o: int, t: nat)
    requires BarInv(k, o) && CanDo(k, Return(t))
    ensures BarInv(BarDo(k, Return(t)), o)
  {
    var k1 := BarDo(k, Return(t));
    PhaseOwner(k.s, o, t);
    assert At(k1) == At(k);
    forall g | 0 <= g < |k1.rounds| ensures RoundOk(k1, g) {
      ReturnRound(k, t, g);
    }
  }

  lemma BarStepInv(k: Bar, o: int, x: BarLabel) returns (o1: int)
    requires BarInv(k, o) && CanDo(k, x)
    ensures BarInv(BarDo(k, x), o1)
  {
    o1 := o;
    match x
    case Sched(l) => o1 := NextOwner(k.s, l, o); SchedStep(k, o, l);
    case Call(t) => CallStep(k, o, t);
    case Arrive(t) => if k.narrived + 1 == k.count { LastStep(k, o, t); } else { ParkStep(k, o, t); }
    case PutMid(t) => PutMidStep(k, o, t);
    case Return(t) => ReturnStep(k, o, t);
  }

  ghost predicate BarRun(k: Bar, xs: seq<BarLabel>, k1: Bar)
    decreases |xs|
  {
    if xs == [] then k == k1 else CanDo(k, xs[0]) && BarRun(BarDo(k, xs[0]), xs[1..], k1)
  }

  lemma {:induction false} BarRunInv(k: Bar, o: int, xs: seq<BarLabel>, k1: Bar) returns (o1: int)
    requires BarInv(k, o) && BarRun(k, xs, k1)
    ensures BarInv(k1, o1)
    decreases |xs|
  {
    o1 := o;
    if xs != [] {
      o1 := BarStepInv(k, o, xs[0]);
      o1 := BarRunInv(BarDo(k, xs[0]), o1, xs[1..], k1);
    }
  }

  /** Reachable from pthread_barrier_init, which refuses a count of zero. */
  ghost predicate BarReachable(k: Bar) {
    exists idle: bool, r: nat, id: nat, count: nat, xs: seq<BarLabel> ::
      count >= 1 && BarRun(Bar(Init(idle, r), id, count, 0, [NoTask], []), xs, k)
  }

  lemma BarReachableInv(k: Bar) returns (o: int)
    requires BarReachable(k)
    ensures BarInv(k, o)
  {
    var idle: bool, r: nat, id: nat, count: nat, xs: seq<BarLabel> :|
      count >= 1 && BarRun(Bar(Init(idle, r), id, count, 0, [NoTask], []), xs, k);
    BarInitInv(idle, r, id, count);
    o := BarRunInv(Bar(Init(idle, r), id, count, 0, [NoTask], []), MAIN, xs, k);
  }

  /** narrived is the number of threads waiting on the barrier whenever none is on its way into
      the queue, and always below count; so the overflow assertion of an arrival holds. */
  lemma ArrivalsAreWaiters(k: Bar)
    requires BarReachable(k)
    ensures k.s.Sized() && k.narrived < k.count
    ensures WaitersOn(k.s, Barrier(k.id)) <= At(k) && k.narrived == |At(k)|
    ensures (forall t :: 0 <= t < |k.s.pc| ==> !PhaseOf(k.s, t).Entering?) ==>
      k.narrived == |WaitersOn(k.s, Barrier(k.id))|
  {
    var o := BarReachableInv(k);
    if forall t :: 0 <= t < |k.s.pc| ==> !PhaseOf(k.s, t).Entering? {
      assert At(k) == WaitersOn(k.s, Barrier(k.id));
    }
  }

  /** Every completed generation releases exactly `count` threads: once none of them is inside
      any more, exactly its members have returned from it, one of them with the serial value. */
  lemma Generations(k: Bar, g: nat)
    requires BarReachable(k) && g < |k.rounds|
    ensures var r := k.rounds[g];
      && |r.members| == k.count
      && r.returned.Keys <= r.members
      && (forall t :: t in r.returned ==> (r.returned[t] <==> t == r.serial))
      && ((forall t :: 0 <= t < |k.task| ==> !Inside(k.task[t], g)) ==>
            r.returned.Keys == r.members && r.serial in r.returned)
  {
    var o := BarReachableInv(k);
    assert RoundOk(k, g);
  }

  /** A released thread is no longer held up by the barrier, and a thread of the current
      generation has not been let through. */
  lemma ReleasedTogether(k: Bar, t: nat)
    requires BarReachable(k) && k.s.Sized() && t < |k.task| == |k.s.pc| && k.task[t].Parked?
    ensures On(PhaseOf(k.s, t), Barrier(k.id)) <==> k.task[t].gen == |k.rounds|
  {
    var o := BarReachableInv(k);
    assert TaskFits(k.task[t], PhaseOf(k.s, t), Barrier(k.id), |k.rounds|);
  }
}
