/** What the synchronisation objects see of the scheduler: whether a thread sits in the wait
    queue, is about to enter it while it still has the turn, or does not wait. */
module Phases {
  import opened Queues
  import opened Scheduler
  import opened Safety
  import opened Deadlines

  datatype Phase =
    | Waiting(chan: Chan, deadline: nat)
    | Entering(chan: Chan, deadline: nat)
    | Free(reason: Reason)

  /** Steps that a thread takes on its own account, outside the operations of an object. */
  predicate Outside(l: Label) {
    l.Signal? || l.Tick? || l.Put? || l.End? || l.StartTry? || l.TryMark? || l.TryFail?
    || l.InterProStart? || l.Spawn?
  }

  function PcPhase(pc: Pc, r: Reason): Phase {
    match pc
    case Parking(c, d) => Entering(c, d)
    case Checking(k) => if k.ThenPark? then Entering(k.chan, k.deadline) else Free(r)
    case Merging(k) => if k.ThenPark? then Entering(k.chan, k.deadline) else Free(r)
    case _ => Free(r)
  }

  function PhaseOf(s: State, t: nat): Phase
    requires s.Sized() && t < |s.pc|
  {
    if t in s.waitq then Waiting(s.waits[t].chan, s.waits[t].timeout)
    else PcPhase(s.pc[t], s.waits[t].reason)
  }

  predicate WaitsOn(p: Phase, c: Chan) {
    p.Waiting? && p.chan == c
  }

  /** The wait-queue members on the channel. */
  ghost function WaitersOn(s: State, c: Chan): set<nat>
    requires s.Sized()
  {
    set t | 0 <= t < |s.pc| && WaitsOn(PhaseOf(s, t), c)
  }

  lemma WaitersAreQueued(s: State, o: int, c: Chan)
    requires Inv(s, o)
    ensures WaitersOn(s, c) == OnChan(s, c)
  {
  }

  /** Entering the wait queue takes the turn; working with the turn excludes waiting. */
  lemma PhaseOwner(s: State, o: int, t: nat)
    requires Inv(s, o) && t < |s.pc|
    ensures PhaseOf(s, t).Entering? ==> t == o && Holder(s.pc[t]) && !s.pc[t].Work?
    ensures s.pc[t].Work? || s.pc[t].MustTick? ==> t == o && PhaseOf(s, t) == Free(s.waits[t].reason)
    ensures t in s.waitq ==> PcPhase(s.pc[t], Signalled).Free?
  {
    assert ThreadOk(s, o, t);
  }

  /** The change one step may make to the phase of thread `u`. */
  predicate PhaseMove(s: State, l: Label, u: nat, p: Phase, q: Phase)
    requires s.Sized() && u < |s.pc|
  {
    || q == p
    || (l.Park? && l.t == u && p.Entering? && q == Waiting(p.chan, p.deadline))
    || (p.Waiting? && Signals(l, p.chan) && q == Free(Signalled))
    || (l.Tick? && p.Waiting? && p.deadline < (s.turn + 1) % WORD && q == Free(TimedOut))
    || (l.Tick? && l.t == u && p.Free? && l.k.ThenPark? && q == Entering(l.k.chan, l.k.deadline))
    || (l.WakeIdle? && s.IsIdle(u) && p.Waiting? && p.chan == IdleCond && q.Free?)
    || (l.TryMark? && l.t == u && s.IsIdle(u) && p.Free? && q == Entering(IdleCond, FOREVER))
  }

  lemma QuietPcFlags(s: State, l: Label, r: Reason)
    requires s.Sized() && Enabled(s, l)
    requires l.SeeFlag? || l.TakeTurn? || l.ReadFlag? || l.Merge? || l.Post? || l.Wakeup?
    ensures PcPhase(Do(s, l).pc[l.t], r) == PcPhase(s.pc[l.t], r)
    ensures Do(s, l).pc == s.pc[l.t := Do(s, l).pc[l.t]]
  {
  }

  lemma QuietPcQueue(s: State, l: Label, r: Reason)
    requires s.Sized() && Enabled(s, l)
    requires l.LeaveBlock? || l.Put? || l.Scan? || l.Finish? || l.TryFail?
    ensures PcPhase(Do(s, l).pc[l.t], r) == PcPhase(s.pc[l.t], r)
    ensures Do(s, l).pc == s.pc[l.t := Do(s, l).pc[l.t]]
  {
  }

  lemma QuietPcStatus(s: State, l: Label, r: Reason)
    requires s.Sized() && Enabled(s, l)
    requires l.StartTry? || l.TryMark? || l.InterProStart? || l.InterProEnd?
    ensures PcPhase(Do(s, l).pc[l.t], r) == PcPhase(s.pc[l.t], r)
      || (l.TryMark? && PcPhase(s.pc[l.t], r) == Free(r)
          && PcPhase(Do(s, l).pc[l.t], r) == Entering(IdleCond, FOREVER))
    ensures Do(s, l).pc == s.pc[l.t := Do(s, l).pc[l.t]]
  {
  }

  lemma QuietPc(s: State, l: Label, r: Reason)
    requires s.Sized() && Enabled(s, l) && !TouchesWaits(l) && !l.Spawn?
    ensures PcPhase(Do(s, l).pc[l.t], r) == PcPhase(s.pc[l.t], r)
      || (l.TryMark? && PcPhase(s.pc[l.t], r) == Free(r)
          && PcPhase(Do(s, l).pc[l.t], r) == Entering(IdleCond, FOREVER))
    ensures Do(s, l).pc == s.pc[l.t := Do(s, l).pc[l.t]]
  {
    if l.LeaveBlock? || l.Put? || l.Scan? || l.Finish? || l.TryFail? {
      QuietPcQueue(s, l, r);
    } else if l.StartTry? || l.TryMark? || l.InterProStart? || l.InterProEnd? {
      QuietPcStatus(s, l, r);
    } else {
      QuietPcFlags(s, l, r);
    }
  }

  lemma QuietPhase(s: State, o: int, l: Label, u: nat)
    requires Inv(s, o) && Enabled(s, l) && !TouchesWaits(l) && u < |s.pc|
    ensures Do(s, l).Sized() && u < |Do(s, l).pc|
    ensures PhaseMove(s, l, u, PhaseOf(s, u), PhaseOf(Do(s, l), u))
  {
    QuietStep(s, l);
    if l.Spawn? {
      assert Do(s, l).pc[u] == s.pc[u];
    } else {
      QuietPc(s, l, s.waits[u].reason);
      assert ThreadOk(s, o, l.t);
    }
  }

  lemma ReleasePhase(s: State, m: set<nat>, r: Reason, u: nat)
    requires s.Sized() && u < |s.pc| && (forall x :: x in m ==> x in s.waitq)
    requires u in s.waitq ==> PcPhase(s.pc[u], r) == Free(r)
    ensures PhaseOf(Release(s, m, r), u) == if u in m then Free(r) else PhaseOf(s, u)
  {
    WithoutMembers(s.waitq, m);
  }

  lemma TickPhase(s: State, o: int, t: nat, k: Then, u: nat)
    requires Inv(s, o) && t < |s.pc| && CanTick(s, t, k) && u < |s.pc|
    ensures PhaseMove(s, Tick(t, k), u, PhaseOf(s, u), PhaseOf(Ticked(s, t, k), u))
    ensures u == t && k.ThenPark? ==> PhaseOf(Ticked(s, t, k), u) == Entering(k.chan, k.deadline)
    ensures u == t && !k.ThenPark? ==> PhaseOf(Ticked(s, t, k), u) == PhaseOf(s, u)
  {
    var s1 := Clock(s, t);
    PhaseOwner(s, o, u);
    PhaseOwner(s, o, t);
    ReleasePhase(s1, Expired(s1), TimedOut, u);
    assert ThreadOk(s, o, u);
  }

  /** signal with all = false: nothing without waiters, otherwise exactly one is freed. */
  lemma SignalOnePhases(s: State, o: int, c: Chan) returns (x: nat)
    requires Inv(s, o)
    ensures WaitersOn(s, c) == {} ==> Signal1(s, c, false) == s
    ensures WaitersOn(s, c) != {} ==>
      && x in WaitersOn(s, c) && Signal1(s, c, false).Sized() && Signal1(s, c, false).pc == s.pc
      && PhaseOf(Signal1(s, c, false), x) == Free(Signalled)
      && forall u :: 0 <= u < |s.pc| && u != x ==> PhaseOf(Signal1(s, c, false), u) == PhaseOf(s, u)
  {
    x := 0;
    WaitersAreQueued(s, o, c);
    if OnChan(s, c) == {} {
      SignalNobody(s, c, false);
    } else {
      var before, after: seq<nat>;
      before, x, after := SignalIsFifo(s, c);
      forall u | 0 <= u < |s.pc| && u != x ensures PhaseOf(Signal1(s, c, false), u) == PhaseOf(s, u) {
        assert u in before + after <==> u in s.waitq;
      }
      PhaseOwner(s, o, x);
      OneReleasedGone(s, before, x, after);
    }
  }

  lemma OneReleasedGone(s: State, before: seq<nat>, x: nat, after: seq<nat>)
    requires NoDup(s.waitq) && s.waitq == before + [x] + after
    ensures x !in before + after
  {
    NoDupSplit(before + [x], after);
    NoDupSplit(before, [x]);
  }

  /** signal with all = true frees every waiter of the channel and nobody else. */
  lemma SignalAllPhase(s: State, o: int, c: Chan, u: nat)
    requires Inv(s, o) && u < |s.pc|
    ensures var s1 := Signal1(s, c, true);
      && s1.Sized() && s1.pc == s.pc
      && PhaseOf(s1, u) == if WaitsOn(PhaseOf(s, u), c) then Free(Signalled) else PhaseOf(s, u)
  {
    WaitersAreQueued(s, o, c);
    PhaseOwner(s, o, u);
    ReleasePhase(s, OnChan(s, c), Signalled, u);
    assert u in WaitersOn(s, c) <==> WaitsOn(PhaseOf(s, u), c);
  }

  lemma SignalPhase(s: State, o: int, c: Chan, all: bool, u: nat)
    requires Inv(s, o) && u < |s.pc|
    ensures PhaseOf(Signal1(s, c, all), u) == PhaseOf(s, u)
      || (WaitsOn(PhaseOf(s, u), c) && PhaseOf(Signal1(s, c, all), u) == Free(Signalled))
  {
    SignalOn(s, c, all);
    PhaseOwner(s, o, u);
    ReleasePhase(s, SignalSet(s, c, all), Signalled, u);
  }

  lemma EndPhase(s: State, o: int, t: nat, u: nat)
    requires Inv(s, o) && t < |s.pc| && s.pc[t].Work? && u < |s.pc|
    ensures PhaseMove(s, End(t), u, PhaseOf(s, u), PhaseOf(EndTurn(s, t), u))
  {
    SignalPhase(s, o, Exit(t), false, u);
    PhaseOwner(s, o, t);
    SignalPhase(s, o, Exit(t), false, t);
    var s1 := Signal1(s, Exit(t), false);
    assert EndTurn(s, t) == EnterNext(s1, t, ToEnd);
    assert u != t ==> PhaseOf(EnterNext(s1, t, ToEnd), u) == PhaseOf(s1, u);
  }

  lemma WakeIdlePhase(s: State, o: int, t: nat, u: nat)
    requires Inv(s, o) && t < |s.pc| && s.pc[t].Scanning? && s.idle && IDLE in s.waitq && IDLE < |s.pc|
    requires u < |s.pc|
    ensures PhaseMove(s, WakeIdle(t), u, PhaseOf(s, u), PhaseOf(IdleWoken(s, t), u))
  {
    assert ThreadOk(s, o, IDLE);
    PhaseOwner(s, o, u);
    ReleasePhase(s, {IDLE}, s.waits[IDLE].reason, u);
  }

  lemma ParkPhase(s: State, o: int, t: nat, u: nat)
    requires Inv(s, o) && t < |s.pc| && s.pc[t].Parking? && u < |s.pc|
    ensures PhaseMove(s, Park(t), u, PhaseOf(s, u), PhaseOf(Parked(s, t), u))
    ensures u == t ==> PhaseOf(Parked(s, t), u) == Waiting(s.pc[t].chan, s.pc[t].deadline)
  {
    assert ThreadOk(s, o, t);
    assert u in s.waitq + [t] <==> u in s.waitq || u == t;
  }

  /** Every step changes the phase of every thread in one of the listed ways, or not at all. */
  lemma PhaseStep(s: State, o: int, l: Label, u: nat)
    requires Inv(s, o) && Enabled(s, l) && u < |s.pc|
    ensures Do(s, l).Sized() && u < |Do(s, l).pc|
    ensures PhaseMove(s, l, u, PhaseOf(s, u), PhaseOf(Do(s, l), u))
  {
    match l
    case Signal(_, c, all) => SignalPhase(s, o, c, all, u);
    case End(t) => EndPhase(s, o, t, u);
    case Tick(t, k) => TickPhase(s, o, t, k, u);
    case WakeIdle(t) => WakeIdlePhase(s, o, t, u);
    case Park(t) => ParkPhase(s, o, t, u);
    case _ => QuietPhase(s, o, l, u);
  }

  /** A thread created by a step does not wait. */
  lemma NewPhase(s: State, o: int, l: Label, u: nat)
    requires Inv(s, o) && Enabled(s, l) && |s.pc| <= u < |Do(s, l).pc|
    ensures Do(s, l).Sized() && PhaseOf(Do(s, l), u) == Free(Signalled) && Do(s, l).pc[u].User?
  {
    assert l.Spawn?;
  }

  lemma LoudPc(s: State, l: Label, u: nat)
    requires s.Sized() && Enabled(s, l) && (TouchesWaits(l) || l.Spawn?) && u < |s.pc| && u != l.t
    ensures u < |Do(s, l).pc| && Do(s, l).pc[u] == s.pc[u]
  {
  }

  /** A step moves only its own thread's program counter. */
  lemma OtherPc(s: State, l: Label, u: nat)
    requires s.Sized() && Enabled(s, l) && u < |s.pc| && u != l.t
    ensures u < |Do(s, l).pc| && Do(s, l).pc[u] == s.pc[u]
  {
    if TouchesWaits(l) || l.Spawn? { LoudPc(s, l, u); } else { QuietPc(s, l, Signalled); }
  }

  /** What one step of the whole scheduler does to the phases. */
  ghost predicate Moved(s: State, l: Label, s1: State)
    requires s.Sized()
  {
    && s1.Sized() && |s.pc| <= |s1.pc|
    && (forall u :: 0 <= u < |s.pc| ==> PhaseMove(s, l, u, PhaseOf(s, u), PhaseOf(s1, u)))
    && (forall u :: 0 <= u < |s.pc| && u != l.t ==> s1.pc[u] == s.pc[u])
    && (forall u :: |s.pc| <= u < |s1.pc| ==> PhaseOf(s1, u) == Free(Signalled))
  }

  lemma StepMoves(s: State, o: int, l: Label)
    requires Inv(s, o) && Enabled(s, l)
    ensures Moved(s, l, Do(s, l))
  {
    DoSized(s, l);
    var s1 := Do(s, l);
    forall u | 0 <= u < |s.pc| ensures PhaseMove(s, l, u, PhaseOf(s, u), PhaseOf(s1, u)) {
      PhaseStep(s, o, l, u);
    }
    forall u | 0 <= u < |s.pc| && u != l.t ensures s1.pc[u] == s.pc[u] {
      OtherPc(s, l, u);
    }
    forall u | |s.pc| <= u < |s1.pc| ensures PhaseOf(s1, u) == Free(Signalled) {
      NewPhase(s, o, l, u);
    }
  }

  /** The thread waits on the channel or is entering the queue for it. */
  predicate On(p: Phase, c: Chan) {
    !p.Free? && p.chan == c
  }

  /** A step that neither signals the channel nor enters it moves no untimed waiter. */
  lemma MovePhase(s: State, l: Label, s1: State, u: nat, c: Chan)
    requires s.Sized() && u < |s.pc| && Moved(s, l, s1)
    requires !Signals(l, c) && !c.IdleCond?
    requires u == l.t && l.Tick? ==> !l.k.ThenPark? || l.k.chan != c || !PhaseOf(s, u).Free?
    requires On(PhaseOf(s, u), c) ==> PhaseOf(s, u).deadline == FOREVER
    ensures On(PhaseOf(s1, u), c) <==> On(PhaseOf(s, u), c)
  {
    assert PhaseMove(s, l, u, PhaseOf(s, u), PhaseOf(s1, u));
  }

  /** A thread that stays on its channel keeps its deadline, and the clock has not passed it. */
  lemma StaysInTime(s: State, o: int, l: Label, u: nat, c: Chan)
    requires Inv(s, o) && Enabled(s, l) && u < |s.pc| && On(PhaseOf(s, u), c)
    requires u < |Do(s, l).pc| == |Do(s, l).waits| && Do(s, l).Sized() && On(PhaseOf(Do(s, l), u), c)
    ensures PhaseOf(Do(s, l), u).deadline == PhaseOf(s, u).deadline
    ensures if l.Tick? then Do(s, l).turn <= PhaseOf(s, u).deadline else Do(s, l).turn == s.turn
  {
    PhaseStep(s, o, l, u);
    PhaseOwner(s, o, u);
    if l.Tick? {
      PhaseOwner(s, o, l.t);
      TickReleases(s, o, l.t, l.k, u);
    } else {
      ClockStands(s, l);
    }
  }

  /** Only incTurnCount moves the clock. */
  lemma ClockStands(s: State, l: Label)
    requires s.Sized() && Enabled(s, l) && !l.Tick?
    ensures Do(s, l).turn == s.turn && Do(s, l).log == s.log
  {
    if !TouchesWaits(l) { QuietStep(s, l); }
  }
}
