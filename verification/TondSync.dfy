/** The TOND-sync mode (`enforce_turn_type < 0`): no order is enforced, a thread that is
    runnable competes for the atomic flag inSync, and a waiting thread spins on its own
    `runnable` flag.  The sweeps of signal and fireTimeouts take one waiter at a time, and the
    flag, the queue and the wait record of a waiter change in separate steps. */
module TondSync {
  import opened Queues
  import Scheduler

  const MAIN: nat := Scheduler.MAIN
  const FOREVER: nat := Scheduler.FOREVER

  datatype Record = Record(chan: nat, timeout: nat)      // channel 0 is NULL

  datatype Kind = OnChan(chan: nat, all: bool) | Late

  datatype Then = ToWork | ToQueue(chan: nat, deadline: nat) | ToRelease(parked: bool)

  datatype Pc =
    | Out                               // user code
    | Spin(inWait: bool)                // getTurn, waits for its runnable flag
    | Race(inWait: bool)                // saw itself runnable, tries to set inSync
    | Work                              // has set inSync
    | Sweep(kind: Kind, i: nat, k: Then)    // looks at waitq[i]
    | Erase(kind: Kind, i: nat, k: Then)    // has reset waitq[i], erases it next
    | Check(k: Then)                    // check_wakeup reads its flag
    | Merge(k: Then)                    // check_wakeup takes the mutex
    | Queue(chan: nat, deadline: nat)   // wait: writes its record and joins the queue
    | Lower                             // wait: clears its runnable flag
    | Release(parked: bool)             // next: clears inSync

  datatype State = State(
    waitq: seq<nat>, waits: seq<Record>, runnable: seq<bool>, pc: seq<Pc>,
    inSync: bool, turn: nat, registered: set<nat>, flag: bool, runq: seq<nat>)
  {
    predicate Sized() {
      |waits| == |pc| && |runnable| == |pc|
    }
  }

  datatype Label =
    | Come(t: nat) | See(t: nat) | Win(t: nat)
    | Signal(t: nat, chan: nat, all: bool) | Tick(t: nat, k: Then)
    | Look(t: nat) | Drop(t: nat) | ReadFlag(t: nat) | TakeMutex(t: nat)
    | Enqueue(t: nat) | LowerFlag(t: nat) | Put(t: nat) | ClearSync(t: nat)
    | Register(t: nat) | Spawn(t: nat)

  function Continue(k: Then): Pc {
    match k
    case ToWork => Work
    case ToQueue(c, d) => Queue(c, d)
    case ToRelease(p) => Release(p)
  }

  predicate Matches(kind: Kind, w: Record, turn: nat) {
    match kind
    case OnChan(c, _) => w.chan == c
    case Late => w.timeout < turn
  }

  function At(s: State, t: nat, pc: Pc): State
    requires t < |s.pc|
  {
    s.(pc := s.pc[t := pc])
  }

  /** The sweep is over: signal returns, incTurnCount goes on to check_wakeup. */
  function Swept(kind: Kind, k: Then): Pc {
    if kind.Late? then Check(k) else Work
  }

  function Looked(s: State, t: nat): State
    requires s.Sized() && t < |s.pc| && s.pc[t].Sweep?
    requires s.pc[t].i < |s.waitq| ==> s.waitq[s.pc[t].i] < |s.pc|
  {
    var kind, i, k := s.pc[t].kind, s.pc[t].i, s.pc[t].k;
    if i >= |s.waitq| then
      At(s, t, Swept(kind, k))
    else
      var x := s.waitq[i];
      if Matches(kind, s.waits[x], s.turn) then
        At(s, t, Erase(kind, i, k))
        .(waits := s.waits[x := Record(0, FOREVER)], runnable := s.runnable[x := true])
      else
        At(s, t, Sweep(kind, i + 1, k))
  }

  function Erased(q: seq<nat>, i: nat): seq<nat>
    requires i < |q|
  {
    q[..i] + q[i + 1..]
  }

  function Dropped(s: State, t: nat): State
    requires t < |s.pc| && s.pc[t].Erase? && s.pc[t].i < |s.waitq|
  {
    var kind, i, k := s.pc[t].kind, s.pc[t].i, s.pc[t].k;
    At(s, t, if kind.OnChan? && !kind.all then Work else Sweep(kind, i, k))
    .(waitq := Erased(s.waitq, i))
  }

  /** check_wakeup posts the registered threads that are not in the run queue. */
  function Merged(s: State, t: nat): State
    requires s.Sized() && t < |s.pc| && s.pc[t].Merge?
  {
    At(s, t, Continue(s.pc[t].k))
    .(runnable := seq(|s.pc|, u requires 0 <= u < |s.pc| =>
                        s.runnable[u] || (u in s.registered && u !in s.runq)),
      registered := {}, flag := false)
  }

  predicate Enabled(s: State, l: Label)
    requires s.Sized()
  {
    l.t < |s.pc| &&
    var pc := s.pc[l.t];
    match l
    case Come(_) => pc.Out?
    case See(t) => pc.Spin? && s.runnable[t]
    case Win(_) => pc.Race? && !s.inSync
    case Signal(_, c, _) => pc.Work? && c != 0
    case Tick(_, k) => pc.Work? && !k.ToRelease?
    case Look(_) => pc.Sweep? && (pc.i < |s.waitq| ==> s.waitq[pc.i] < |s.pc|)
    case Drop(_) => pc.Erase? && pc.i < |s.waitq|
    case ReadFlag(_) => pc.Check?
    case TakeMutex(_) => pc.Merge?
    case Enqueue(_) => pc.Queue?
    case LowerFlag(_) => pc.Lower?
    case Put(_) => pc.Work?
    case ClearSync(_) => pc.Release?
    case Register(_) => pc.Out?
    case Spawn(_) => pc.Work?
  }

  function Do(s: State, l: Label): State
    requires s.Sized() && Enabled(s, l)
  {
    var t := l.t;
    match l
    case Come(_) => At(s, t, Spin(false))
    case See(_) => At(s, t, Race(s.pc[t].inWait))
    case Win(_) => At(s, t, Work).(inSync := true)
    case Signal(_, c, all) => At(s, t, Sweep(OnChan(c, all), 0, ToWork))
    case Tick(_, k) => At(s, t, Sweep(Late, 0, k)).(turn := (s.turn + 1) % Scheduler.WORD)
    case Look(_) => Looked(s, t)
    case Drop(_) => Dropped(s, t)
    case ReadFlag(_) => At(s, t, if s.flag then Merge(s.pc[t].k) else Continue(s.pc[t].k))
    case TakeMutex(_) => Merged(s, t)
    case Enqueue(_) =>
      At(s, t, Lower)
      .(waitq := s.waitq + [t], waits := s.waits[t := Record(s.pc[t].chan, s.pc[t].deadline)])
    case LowerFlag(_) => At(s, t, Check(ToRelease(true))).(runnable := s.runnable[t := false])
    case Put(_) => At(s, t, Check(ToRelease(false)))
    case ClearSync(_) => At(s, t, if s.pc[t].parked then Spin(true) else Out).(inSync := false)
    case Register(_) => s.(registered := s.registered + {t}, flag := true)
    case Spawn(_) =>
      s.(pc := s.pc + [Out], waits := s.waits + [Record(0, FOREVER)], runnable := s.runnable + [true])
  }

  /** The run queue holds the main thread and nobody joins or leaves it in this mode. */
  function Init(): State {
    State([], [Record(0, FOREVER)], [true], [Out], false, 0, {}, false, [MAIN])
  }

  // The invariant -----------------------------------------------------------------------------

  /** Between winning inSync and clearing it. */
  predicate Inside(pc: Pc) {
    !pc.Out? && !pc.Spin? && !pc.Race?
  }

  /** The thread is inside wait, past its place in the queue. */
  predicate InWait(pc: Pc) {
    || pc.Lower? || ((pc.Check? || pc.Merge?) && pc.k == ToRelease(true)) || pc == Release(true)
  }

  /** The waiter that has been reset and is about to be erased. */
  predicate Victim(s: State, o: nat, t: nat) {
    o < |s.pc| && s.pc[o].Erase? && s.pc[o].i < |s.waitq| && s.waitq[s.pc[o].i] == t
  }

  /** In the queue and not on its way out. */
  predicate Parked(s: State, o: nat, t: nat) {
    t in s.waitq && !(s.inSync && Victim(s, o, t))
  }

  predicate Fits(pc: Pc, parked: bool, runnable: bool, reg: bool) {
    && (pc.Lower? ==> runnable)
    && (!pc.Lower? ==> (parked <==> !runnable))
    && (InWait(pc) ==> parked)
    && (parked ==> InWait(pc) || pc == Spin(true))
    && (pc.Race? ==> runnable)
    && (InWait(pc) || pc == Spin(true) || pc == Race(true) || pc.Queue? || pc.Release? ==> !reg)
  }

  ghost predicate ThreadOk(s: State, o: nat, t: nat)
    requires s.Sized() && t < |s.pc|
  {
    && Fits(s.pc[t], Parked(s, o, t), s.runnable[t], t in s.registered)
    && (Inside(s.pc[t]) <==> s.inSync && t == o)
  }

  /** What a sweep has passed does not match. */
  ghost predicate SweepOk(s: State, pc: Pc)
    requires s.Sized()
  {
    pc.Sweep? || pc.Erase? ==>
      && pc.i <= |s.waitq| && (pc.Erase? ==> pc.i < |s.waitq|)
      && (forall j :: 0 <= j < pc.i ==>
            s.waitq[j] < |s.waits| && !Matches(pc.kind, s.waits[s.waitq[j]], s.turn))
      && (pc.kind.OnChan? ==> pc.kind.chan != 0) && !pc.k.ToRelease?
  }

  /** incTurnCount goes on to check_wakeup only when nobody is late any more. */
  ghost predicate TickDone(s: State, pc: Pc)
    requires s.Sized()
  {
    (pc.Check? || pc.Merge?) && !pc.k.ToRelease? ==>
      forall u :: u in s.waitq ==> u < |s.waits| && !Matches(Late, s.waits[u], s.turn)
  }

  ghost predicate Inv(s: State, o: nat) {
    && s.Sized() && o < |s.pc| && s.runq == [MAIN]
    && NoDup(s.waitq)
    && (forall t :: t in s.waitq ==> t < |s.pc|)
    && (forall t :: t in s.registered ==> t < |s.pc|)
    && (s.flag <==> s.registered != {})
    && SweepOk(s, s.pc[o]) && TickDone(s, s.pc[o])
    && forall t {:trigger ThreadOk(s, o, t)} :: 0 <= t < |s.pc| ==> ThreadOk(s, o, t)
  }

  function NextOwner(l: Label, o: nat): nat {
    if l.Win? then l.t else o
  }

  // Steps ---------------------------------------------------------------------------------------

  /** getTurn: the queue, flags and records stay. */
  lemma GetTurnInv(s: State, o: nat, l: Label)
    requires Inv(s, o) && Enabled(s, l)
    requires l.Come? || l.See? || l.Win?
    ensures Inv(Do(s, l), NextOwner(l, o))
  {
    var s1, o1 := Do(s, l), NextOwner(l, o);
    assert ThreadOk(s, o, l.t) && ThreadOk(s, o, o);
    forall u | 0 <= u < |s.pc| ensures ThreadOk(s1, o1, u) {
      assert ThreadOk(s, o, u);
    }
  }

  /** Steps of the thread inside that change its program counter or clear inSync. */
  lemma WorkInv(s: State, o: nat, l: Label)
    requires Inv(s, o) && Enabled(s, l)
    requires l.Signal? || l.Put? || l.ReadFlag? || l.ClearSync?
    ensures Inv(Do(s, l), NextOwner(l, o))
  {
    var s1, o1 := Do(s, l), NextOwner(l, o);
    assert ThreadOk(s, o, l.t) && ThreadOk(s, o, o);
    forall u | 0 <= u < |s.pc| ensures ThreadOk(s1, o1, u) {
      assert ThreadOk(s, o, u);
    }
  }

  lemma TickInv(s: State, o: nat, t: nat, k: Then)
    requires Inv(s, o) && Enabled(s, Tick(t, k))
    ensures Inv(Do(s, Tick(t, k)), o)
  {
    var s1 := Do(s, Tick(t, k));
    assert ThreadOk(s, o, t);
    forall u | 0 <= u < |s.pc| ensures ThreadOk(s1, o, u) {
      assert ThreadOk(s, o, u);
    }
  }

  lemma LookInv(s: State, o: nat, t: nat)
    requires Inv(s, o) && Enabled(s, Look(t))
    ensures Inv(Do(s, Look(t)), o)
  {
    var s1 := Looked(s, t);
    assert ThreadOk(s, o, t);
    var i := s.pc[t].i;
    var hit := i < |s.waitq| && Matches(s.pc[t].kind, s.waits[s.waitq[i]], s.turn);
    assert SweepOk(s1, s1.pc[t]);
    forall u | 0 <= u < |s.pc| ensures ThreadOk(s1, o, u) {
      assert ThreadOk(s, o, u);
      assert Parked(s1, o, u) <==> Parked(s, o, u) && !(hit && u == s.waitq[i]);
    }
  }

  lemma DropInv(s: State, o: nat, t: nat)
    requires Inv(s, o) && Enabled(s, Drop(t))
    ensures Inv(Do(s, Drop(t)), o)
  {
    var s1 := Dropped(s, t);
    assert ThreadOk(s, o, t);
    var i := s.pc[t].i;
    DropOne(s.waitq, i);
    DropSweep(s, t);
    forall u | 0 <= u < |s.pc| ensures ThreadOk(s1, o, u) {
      assert ThreadOk(s, o, u);
      DropThread(s, o, s1, u);
    }
  }

  lemma DropSweep(s: State, t: nat)
    requires s.Sized() && t < |s.pc| && s.pc[t].Erase? && SweepOk(s, s.pc[t])
    ensures SweepOk(Dropped(s, t), Dropped(s, t).pc[t])
  {
    var i := s.pc[t].i;
    assert forall j :: 0 <= j < i ==> Dropped(s, t).waitq[j] == s.waitq[j];
  }

  /** Leaving the queue changes nothing for the thread that was already on its way out. */
  lemma DropThread(s: State, o: nat, s1: State, u: nat)
    requires s.Sized() && s1.Sized() && |s1.pc| == |s.pc| && u < |s.pc| && ThreadOk(s, o, u)
    requires o < |s.pc| && s.pc[o].Erase? && s.pc[o].i < |s.waitq| && s.inSync && s1.inSync
    requires s1.runnable[u] == s.runnable[u] && s1.registered == s.registered
    requires if u == o then s1.pc[u].Work? || s1.pc[u].Sweep? else s1.pc[u] == s.pc[u]
    requires !s1.pc[o].Erase? && (u in s1.waitq <==> u in s.waitq && u != s.waitq[s.pc[o].i])
    ensures ThreadOk(s1, o, u)
  {
    assert Parked(s1, o, u) <==> Parked(s, o, u);
  }

  /** Erasing one place of a queue without duplicates. */
  lemma DropOne(q: seq<nat>, i: nat)
    requires NoDup(q) && i < |q|
    ensures NoDup(Erased(q, i))
    ensures forall x :: x in Erased(q, i) <==> x in q && x != q[i]
  {
    var r := Erased(q, i);
    assert forall j :: 0 <= j < |r| ==> r[j] == if j < i then q[j] else q[j + 1];
    forall x ensures x in r <==> x in q && x != q[i] {
      if x in q && x != q[i] {
        var j :| 0 <= j < |q| && q[j] == x;
        assert r[if j < i then j else j - 1] == x;
      }
    }
  }

  lemma MergeInv(s: State, o: nat, t: nat)
    requires Inv(s, o) && Enabled(s, TakeMutex(t))
    ensures Inv(Do(s, TakeMutex(t)), o)
    ensures Merged(s, t).runnable == s.runnable
  {
    var s1 := Merged(s, t);
    assert ThreadOk(s, o, t);
    forall u | 0 <= u < |s.pc| ensures ThreadOk(s1, o, u) && s1.runnable[u] == s.runnable[u] {
      assert ThreadOk(s, o, u);
    }
  }

  lemma EnqueueInv(s: State, o: nat, t: nat)
    requires Inv(s, o) && Enabled(s, Enqueue(t))
    ensures Inv(Do(s, Enqueue(t)), o)
  {
    var s1 := Do(s, Enqueue(t));
    assert ThreadOk(s, o, t);
    assert t !in s.waitq;
    forall u | 0 <= u < |s.pc| ensures ThreadOk(s1, o, u) {
      assert ThreadOk(s, o, u);
      assert u in s1.waitq <==> u in s.waitq || u == t;
    }
  }

  lemma FlagInv(s: State, o: nat, l: Label)
    requires Inv(s, o) && Enabled(s, l) && (l.LowerFlag? || l.Register? || l.Spawn?)
    ensures Inv(Do(s, l), o)
  {
    var s1 := Do(s, l);
    assert ThreadOk(s, o, l.t) && ThreadOk(s, o, o);
    forall u | 0 <= u < |s1.pc| ensures ThreadOk(s1, o, u) {
      if u < |s.pc| { assert ThreadOk(s, o, u); }
    }
  }

  lemma StepInv(s: State, o: nat, l: Label)
    requires Inv(s, o) && Enabled(s, l)
    ensures Inv(Do(s, l), NextOwner(l, o))
  {
    match l
    case Tick(t, k) => TickInv(s, o, t, k);
    case Look(t) => LookInv(s, o, t);
    case Drop(t) => DropInv(s, o, t);
    case TakeMutex(t) => MergeInv(s, o, t);
    case Enqueue(t) => EnqueueInv(s, o, t);
    case LowerFlag(_) => FlagInv(s, o, l);
    case Register(_) => FlagInv(s, o, l);
    case Spawn(_) => FlagInv(s, o, l);
    case Come(_) => GetTurnInv(s, o, l);
    case See(_) => GetTurnInv(s, o, l);
    case Win(_) => GetTurnInv(s, o, l);
    case _ => WorkInv(s, o, l);
  }

  // Every run -----------------------------------------------------------------------------------

  ghost predicate Run(s: State, ls: seq<Label>, s1: State)
    decreases |ls|
  {
    if ls == [] then s == s1
    else s.Sized() && Enabled(s, ls[0]) && Run(Do(s, ls[0]), ls[1..], s1)
  }

  lemma {:induction false} RunInv(s: State, o: nat, ls: seq<Label>, s1: State) returns (o1: nat)
    requires Inv(s, o) && Run(s, ls, s1)
    ensures Inv(s1, o1)
    decreases |ls|
  {
    o1 := o;
    if ls != [] {
      StepInv(s, o, ls[0]);
      o1 := RunInv(Do(s, ls[0]), NextOwner(ls[0], o), ls[1..], s1);
    }
  }

  ghost predicate Reachable(s: State) {
    exists ls: seq<Label> :: Run(Init(), ls, s)
  }

  lemma ReachableInv(s: State) returns (o: nat)
    requires Reachable(s)
    ensures Inv(s, o)
  {
    var ls: seq<Label> :| Run(Init(), ls, s);
    o := RunInv(Init(), MAIN, ls, s);
  }

  function TicksIn(ls: seq<Label>): nat {
    if ls == [] then 0 else (if ls[0].Tick? then 1 else 0) + TicksIn(ls[1..])
  }

  lemma TurnStep(s: State, l: Label)
    requires s.Sized() && Enabled(s, l)
    ensures Do(s, l).turn == if l.Tick? then (s.turn + 1) % Scheduler.WORD else s.turn
  {
  }

  /** The turn count is the number of ticks, in 32 bits. */
  lemma {:induction false} TurnsCount(s: State, ls: seq<Label>, s1: State, n: nat)
    requires Run(s, ls, s1) && s.turn == n % Scheduler.WORD
    ensures s1.turn == (n + TicksIn(ls)) % Scheduler.WORD
    decreases |ls|
  {
    if ls != [] {
      TurnStep(s, ls[0]);
      NextMod(n);
      TurnsCount(Do(s, ls[0]), ls[1..], s1, if ls[0].Tick? then n + 1 else n);
    }
  }

  lemma NextMod(n: nat)
    ensures (n % Scheduler.WORD + 1) % Scheduler.WORD == (n + 1) % Scheduler.WORD
  {
  }

  /** At most one thread is between getTurn and next. */
  lemma MutualExclusion(s: State, t: nat, u: nat)
    requires Reachable(s) && t < |s.pc| && u < |s.pc| && Inside(s.pc[t]) && Inside(s.pc[u])
    ensures t == u && s.inSync
  {
    var o := ReachableInv(s);
    assert ThreadOk(s, o, t) && ThreadOk(s, o, u);
  }

  /** Whenever inSync is clear, the wait queue holds exactly the threads whose runnable flag is
      clear, and each of them is inside wait. */
  lemma WaitingIffNotRunnable(s: State, t: nat)
    requires Reachable(s) && s.Sized() && t < |s.pc| && !s.inSync
    ensures t in s.waitq <==> !s.runnable[t]
    ensures t in s.waitq ==> s.pc[t] == Spin(true)
  {
    var o := ReachableInv(s);
    assert ThreadOk(s, o, t);
  }

  /** When a sweep has gone through the whole queue, nobody it looks for is left in it: a thread
      that has joined the queue cannot be missed, whether or not it already spins. */
  lemma NobodyMissed(s: State, t: nat, u: nat)
    requires Reachable(s) && s.Sized() && t < |s.pc| && s.pc[t].Sweep? && s.pc[t].i >= |s.waitq|
    requires u in s.waitq
    ensures u < |s.pc| && !Matches(s.pc[t].kind, s.waits[u], s.turn)
  {
    var o := ReachableInv(s);
    assert ThreadOk(s, o, t);
    var j :| 0 <= j < |s.waitq| && s.waitq[j] == u;
  }

  /** Every incTurnCount has fired the timeouts of the new turn before it reaches check_wakeup: no
      thread is left in the queue past its deadline. */
  lemma NobodyLeftLate(s: State, t: nat, u: nat)
    requires Reachable(s) && s.Sized() && t < |s.pc| && s.pc[t].Check? && !s.pc[t].k.ToRelease?
    requires u in s.waitq
    ensures u < |s.pc| && s.turn <= s.waits[u].timeout
  {
    var o := ReachableInv(s);
    assert ThreadOk(s, o, t);
  }

  /** When a broadcast returns, nobody waits on its channel any more. */
  lemma BroadcastReachesAll(s: State, l: Label, u: nat)
    requires Reachable(s) && s.Sized() && Enabled(s, l) && u in Do(s, l).waitq
    requires (s.pc[l.t].Sweep? || s.pc[l.t].Erase?) && s.pc[l.t].kind.OnChan? && s.pc[l.t].kind.all
    requires Do(s, l).pc[l.t].Work?
    ensures u < |s.pc| && Do(s, l).waits[u].chan != s.pc[l.t].kind.chan
  {
    var o := ReachableInv(s);
    assert ThreadOk(s, o, l.t);
    var j :| 0 <= j < |s.waitq| && s.waitq[j] == u;
  }

  /** A wake-up sticks: only the thread itself clears its runnable flag, on its way into wait. */
  lemma WokenStaysWoken(s: State, l: Label, t: nat)
    requires s.Sized() && Enabled(s, l) && t < |s.pc| && s.runnable[t] && l != LowerFlag(t)
    ensures Do(s, l).Sized() && t < |Do(s, l).pc| && Do(s, l).runnable[t]
  {
  }

  /** A thread woken out of wait leaves the queue before inSync is clear again. */
  lemma WokenIsErased(s: State, t: nat)
    requires Reachable(s) && s.Sized() && t < |s.pc| && t in s.waitq && s.runnable[t] && !s.pc[t].Lower?
    ensures exists u :: 0 <= u < |s.pc| && s.pc[u].Erase? && s.pc[u].i < |s.waitq| && s.waitq[s.pc[u].i] == t
  {
    var o := ReachableInv(s);
    assert ThreadOk(s, o, t) && ThreadOk(s, o, o);
  }

  /** What putTurn, wait, signal and create assert of the run queue head. */
  predicate FrontAsserts(s: State, l: Label) {
    l.Put? || l.Enqueue? || l.Signal? || l.Spawn? ==> s.runq != [] && s.runq[0] == l.t
  }

  /** These assertions were meant for the turn order: here they hold exactly for the main thread. */
  lemma FrontIsMain(s: State, l: Label)
    requires Reachable(s) && s.Sized() && Enabled(s, l)
    ensures FrontAsserts(s, l) <==> l.t == MAIN || !(l.Put? || l.Enqueue? || l.Signal? || l.Spawn?)
  {
    var o := ReachableInv(s);
  }
}
