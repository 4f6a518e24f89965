/** What every step of the scheduler keeps, and what that says about every run:
    no thread is lost or duplicated, there is one turn token, no assertion fails. */
module Safety {
  import opened Queues
  import opened Scheduler

  predicate Holder(pc: Pc) {
    pc.Saw? || pc.Work? || pc.MustTick? || pc.Checking? || pc.Merging? || pc.Parking?
    || pc.Leaving? || pc.Scanning? || pc.Posting? || pc.Trying?
  }

  /** The thread has given up its place and is still inside next. */
  predicate InNext(pc: Pc) {
    ((pc.Checking? || pc.Merging?) && pc.k.ThenScan?) || pc.Scanning? || pc.Posting?
  }

  function AfterOf(pc: Pc): After
    requires InNext(pc)
  {
    if pc.Checking? || pc.Merging? then pc.k.after else pc.after
  }

  /** The strategy a scan runs under; a chosen target no longer needs one. */
  predicate ScansUnder(pc: Pc, p: Strategy) {
    ((pc.Checking? || pc.Merging?) && pc.k.ThenScan? && pc.k.strategy == p)
    || (pc.Scanning? && pc.strategy == p)
  }

  predicate NextFits(a: After, st: Status, inRun: bool, inWait: bool) {
    match a
    case ToUser => st.Runnable? && inRun
    case ToWait => (st.Runnable? || st.RunningReg?) && (inRun || inWait) && (inWait ==> st.Runnable?)
    case ToCall => st.InterProStop? && !inRun && !inWait
    case ToEnd => st.Runnable? && !inRun && !inWait
  }

  /** What the place, status, flag and registration of one thread may be, given its
      program counter; `own` says that it has the turn token. */
  predicate Fits(pc: Pc, st: Status, woken: bool, inRun: bool, inWait: bool, reg: bool, own: bool) {
    && (own <==> Holder(pc) || woken)
    && !(inRun && inWait)
    && (woken ==> pc.User? || pc.InWait? || pc.Blocking? || pc.Returned? || pc.Saw?)
    && (match pc
        case User => (st.Runnable? || st.RunningReg?) && !inWait && (inRun || reg)
                     && (st.RunningReg? ==> inRun) && (woken ==> st.RunningReg?)
        case InWait => (st.Runnable? || st.RunningReg?) && (inRun || inWait) && !reg
                       && (inWait ==> st.Runnable?) && (woken ==> st.RunningReg?)
        case Blocking => st.RunningInterPro? && inRun
        case InCall => st.InterProStop? && !inWait
        case Returned => (st.Runnable? || st.RunningReg?) && !inWait
                         && (st.RunningReg? ==> inRun) && (woken ==> st.RunningReg?)
        case Ended => st.Runnable? && !inRun && !inWait && !reg
        case Saw(r) => woken && inRun && (if r.FromBlock? then st.RunningInterPro? else st.RunningReg?)
                       && (r.FromWait? ==> !reg)
        case Work(ticked) => st.RunningReg? && inRun && (ticked ==> !reg)
        case MustTick => st.RunningInterPro? && inRun
        case Checking(k) => CheckFits(k, st, inRun, inWait, reg)
        case Merging(k) => CheckFits(k, st, inRun, inWait, reg)
        case Parking(_, _) => st.RunningReg? && inRun && !reg
        case Leaving => st.RunningInterPro? && inRun && !reg
        case Trying(_) => st.RunningReg? && inRun && !reg
        case Scanning(_, a) => !reg && NextFits(a, st, inRun, inWait)
        case Posting(_, a) => !reg && (NextFits(a, st, inRun, inWait)
                                       || (a.ToUser? && st.RunningReg? && inRun)))
  }

  predicate CheckFits(k: Then, st: Status, inRun: bool, inWait: bool, reg: bool) {
    match k
    case ThenWork => st.RunningReg? && inRun
    case ThenPark(_, _) => st.RunningReg? && inRun
    case ThenBlock => st.RunningInterPro? && inRun
    case ThenScan(_, a) => !reg && NextFits(a, st, inRun, inWait)
  }

  predicate ParkOk(idle: bool, c: Chan, d: nat) {
    d <= FOREVER && (c.IdleCond? <==> idle)
  }

  /** The wait record and the wait a thread is about to start. */
  predicate WaitFits(w: Wait, pc: Pc, inWait: bool, idle: bool) {
    && (if inWait then ParkOk(idle, w.chan, w.timeout) && (idle ==> w.timeout == FOREVER)
        else w.chan.Null? && w.timeout == FOREVER)
    && (pc.Parking? ==> ParkOk(idle, pc.chan, pc.deadline) && (idle ==> pc.deadline == FOREVER))
    && ((pc.Checking? || pc.Merging?) && pc.k.ThenPark? ==>
          !idle && ParkOk(false, pc.k.chan, pc.k.deadline))
  }

  /** The idle thread never blocks outside the scheduler and never ends. */
  predicate IdlePc(pc: Pc) {
    pc.User? || pc.InWait? || (pc.Saw? && !pc.from.FromBlock?) || pc.Work? || pc.Parking? || pc.Trying?
    || ((pc.Checking? || pc.Merging?) && pc.k.ThenWork?)
    || (InNext(pc) && (AfterOf(pc).ToUser? || AfterOf(pc).ToWait?))
  }

  ghost predicate ThreadOk(s: State, o: int, t: nat)
    requires s.Sized() && t < |s.pc|
  {
    && Fits(s.pc[t], s.status[t], s.waits[t].wakenUp, t in s.runq, t in s.waitq, t in s.registered, t == o)
    && WaitFits(s.waits[t], s.pc[t], t in s.waitq, s.IsIdle(t))
    && (s.IsIdle(t) ==> IdlePc(s.pc[t]) && t !in s.registered)
    && (s.pc[t].Trying? ==> s.IsIdle(t) && 1 <= s.pc[t].at <= |s.runq|)
  }

  /** Some thread other than the idle one is certain to be passed the turn. */
  ghost predicate Marked(s: State)
    requires s.Sized()
  {
    exists x :: x in s.runq && x != IDLE && x < |s.pc| && Running(s.status[x])
  }

  /** The queue head against the token owner `o` (negative: the token is gone). */
  ghost predicate OwnerOk(s: State, o: int)
    requires s.Sized()
  {
    && -1 <= o < |s.pc|
    && (o >= 0 ==>
          var pc := s.pc[o];
          && (!InNext(pc) ==> s.runq != [] && s.runq[0] == o)
          && (pc.Posting? ==> s.runq != [] && s.runq[0] == pc.target && pc.target < |s.pc|
                              && Running(s.status[pc.target]))
          && (ScansUnder(pc, CurrentThread) || ScansUnder(pc, Create) ==>
                s.runq != [] && s.runq[0] == o)
          && (s.IsIdle(o) && ((pc.Parking?) || (InNext(pc) && !pc.Posting? && AfterOf(pc).ToWait?)) ==>
                Marked(s)))
  }

  ghost predicate QueuesOk(s: State)
    requires s.Sized()
  {
    && NoDup(s.runq) && NoDup(s.waitq)
    && (forall t :: t in s.runq ==> t < |s.pc|)
    && (forall t :: t in s.waitq ==> t < |s.pc| && t !in s.runq)
    && (forall t :: t in s.registered ==> t < |s.pc|)
    && (s.flag <==> s.registered != {})
    && s.turn < WORD
  }

  ghost predicate Inv(s: State, o: int) {
    && s.Sized() && |s.pc| >= 1
    && QueuesOk(s)
    && OwnerOk(s, o)
    && forall t {:trigger ThreadOk(s, o, t)} :: 0 <= t < |s.pc| ==> ThreadOk(s, o, t)
  }

  /** Who has the token after a step. */
  function NextOwner(s: State, l: Label, o: int): int
    requires s.Sized() && Enabled(s, l)
  {
    match l
    case Post(t) => s.pc[t].target
    case Finish(_) => -1
    case _ => o
  }

  lemma InitInv(idle: bool, r: nat)
    ensures Inv(Init(idle, r), MAIN)
  {
    var s := Init(idle, r);
    assert s.runq == [MAIN];
  }

  /** Membership after Release. */
  lemma ReleasePlaces(s: State, m: set<nat>, r: Reason)
    requires s.Sized() && NoDup(s.runq) && NoDup(s.waitq)
    requires forall t :: t in s.waitq ==> t !in s.runq && t < |s.pc|
    requires forall t :: t in s.runq ==> t < |s.pc|
    ensures var s1 := Release(s, m, r);
      && NoDup(s1.runq) && NoDup(s1.waitq)
      && (forall t :: t in s1.runq <==> t in s.runq || (t in s.waitq && t in m))
      && (forall t :: t in s1.waitq <==> t in s.waitq && t !in m)
      && (s.runq != [] ==> s1.runq != [] && s1.runq[0] == s.runq[0])
  {
    KeepMembers(s.waitq, m);
    WithoutMembers(s.waitq, m);
    KeepNoDup(s.waitq, m);
    WithoutNoDup(s.waitq, m);
    AppendNoDup(s.runq, Keep(s.waitq, m));
  }

  /** A thread none of whose own entries changed still satisfies its conditions. */
  lemma Unchanged(s: State, o: int, s1: State, o1: int, u: nat)
    requires s.Sized() && s1.Sized() && u < |s.pc| && u < |s1.pc| && ThreadOk(s, o, u)
    requires s1.pc[u] == s.pc[u] && s1.status[u] == s.status[u] && s1.waits[u] == s.waits[u]
    requires u in s1.runq <==> u in s.runq
    requires u in s1.waitq <==> u in s.waitq
    requires u in s1.registered <==> u in s.registered
    requires (u == o) == (u == o1) && s1.idle == s.idle && !s.pc[u].Trying?
    ensures ThreadOk(s1, o1, u)
  {
  }

  lemma HolderOwns(s: State, o: int, t: nat)
    requires Inv(s, o) && t < |s.pc| && Holder(s.pc[t])
    ensures o == t
  {
    assert ThreadOk(s, o, t);
  }

  lemma OthersNotTrying(s: State, o: int, u: nat)
    requires Inv(s, o) && u < |s.pc| && u != o
    ensures !s.pc[u].Trying?
  {
    assert ThreadOk(s, o, u);
  }

  /** A change of the owner's program counter alone. */
  lemma SetPcInv(s: State, o: int, t: nat, pc: Pc)
    requires Inv(s, o) && t < |s.pc| && t == o
    requires ThreadOk(SetPc(s, t, pc), o, t)
    requires OwnerOk(SetPc(s, t, pc), o)
    ensures Inv(SetPc(s, t, pc), o)
  {
    var s1 := SetPc(s, t, pc);
    forall u | 0 <= u < |s.pc| ensures ThreadOk(s1, o, u) {
      if u != t {
        OthersNotTrying(s, o, u);
        Unchanged(s, o, s1, o, u);
      }
    }
  }

  /** Releasing waiters other than the idle thread keeps the invariant. */
  lemma ReleaseInv(s: State, o: int, m: set<nat>, r: Reason)
    requires Inv(s, o) && o >= 0 && !InNext(s.pc[o])
    requires forall t :: t in m ==> t in s.waitq && !s.IsIdle(t)
    ensures Inv(Release(s, m, r), o)
  {
    var s1 := Release(s, m, r);
    ReleasePlaces(s, m, r);
    forall t | 0 <= t < |s.pc| ensures ThreadOk(s1, o, t) {
      assert ThreadOk(s, o, t);
    }
    if Marked(s) {
      var x :| x in s.runq && x != IDLE && x < |s.pc| && Running(s.status[x]);
      assert x in s1.runq;
    }
  }

  lemma SignalInv(s: State, o: int, t: nat, c: Chan, all: bool)
    requires Inv(s, o) && t < |s.pc| && s.pc[t].Work? && !c.Null? && !c.IdleCond?
    ensures Inv(Signal1(s, c, all), o)
  {
    HolderOwns(s, o, t);
    var on := OnChan(s, c);
    KeepMembers(s.waitq, on);
    var m := SignalSet(s, c, all);
    forall u | u in m ensures u in s.waitq && !s.IsIdle(u) {
      if !all { assert Keep(s.waitq, on)[0] in Keep(s.waitq, on); }
      assert ThreadOk(s, o, u);
    }
    ReleaseInv(s, o, m, Signalled);
  }

  lemma ClockInv(s: State, o: int, t: nat)
    requires Inv(s, o) && o >= 0 && !InNext(s.pc[o])
    ensures Inv(Clock(s, t), o)
  {
    forall u | 0 <= u < |s.pc| ensures ThreadOk(Clock(s, t), o, u) {
      assert ThreadOk(s, o, u);
    }
    assert Marked(s) == Marked(Clock(s, t));
  }

  lemma CheckingInv(s: State, o: int, t: nat, k: Then)
    requires Inv(s, o) && t < |s.pc| && CanTick(s, t, k)
    ensures Inv(SetPc(s, t, Checking(k)), o)
  {
    HolderOwns(s, o, t);
    assert ThreadOk(s, o, t);
    SetPcInv(s, o, t, Checking(k));
  }

  lemma TickInv(s: State, o: int, t: nat, k: Then)
    requires Inv(s, o) && t < |s.pc| && CanTick(s, t, k)
    ensures Inv(Ticked(s, t, k), o)
  {
    HolderOwns(s, o, t);
    var s1 := Clock(s, t);
    ClockInv(s, o, t);
    forall u | u in Expired(s1) ensures !s1.IsIdle(u) {
      assert ThreadOk(s1, o, u);
    }
    var s2 := Release(s1, Expired(s1), TimedOut);
    assert Inv(s2, o) by { ReleaseInv(s1, o, Expired(s1), TimedOut); }
    CheckingInv(s2, o, t, k);
  }

  lemma SeeFlagInv(s: State, o: int, t: nat)
    requires Inv(s, o) && t < |s.pc| && s.waits[t].wakenUp
    requires s.pc[t].User? || s.pc[t].InWait? || s.pc[t].Blocking?
    ensures Inv(SawFlag(s, t), o)
  {
    assert ThreadOk(s, o, t);
    SetPcInv(s, o, t, SawFlag(s, t).pc[t]);
  }

  lemma ReadFlagInv(s: State, o: int, t: nat)
    requires Inv(s, o) && t < |s.pc| && s.pc[t].Checking?
    ensures Inv(FlagRead(s, t), o)
  {
    assert ThreadOk(s, o, t);
    assert Marked(FlagRead(s, t)) == Marked(s);
    SetPcInv(s, o, t, FlagRead(s, t).pc[t]);
  }

  lemma StartTryInv(s: State, o: int, t: nat)
    requires Inv(s, o) && t < |s.pc| && s.pc[t] == Work(true) && s.IsIdle(t) && |s.runq| >= 2
    ensures Inv(SetPc(s, t, Trying(1)), o)
  {
    assert ThreadOk(s, o, t);
    SetPcInv(s, o, t, Trying(1));
  }

  lemma TakeTurnInv(s: State, o: int, t: nat)
    requires Inv(s, o) && t < |s.pc| && s.pc[t].Saw?
    ensures Inv(TookTurn(s, t), o)
  {
    HolderOwns(s, o, t);
    var s1 := TookTurn(s, t);
    forall u | 0 <= u < |s.pc| ensures ThreadOk(s1, o, u) {
      assert ThreadOk(s, o, u);
      if u != t { Unchanged(s, o, s1, o, u); }
    }
  }

  /** The run queue after check_wakeup holds its old members and the registered threads. */
  lemma MergePlaces(s: State, order: seq<nat>)
    requires s.Sized() && QueuesOk(s) && Enumerates(order, s.registered)
    ensures var q := s.runq + Without(order, Elems(s.runq));
      NoDup(q) && forall u :: u in q <==> u in s.runq || u in s.registered
  {
    EnumerationNoDup(order, s.registered);
    WithoutMembers(order, Elems(s.runq));
    WithoutNoDup(order, Elems(s.runq));
    assert forall x :: x in order <==> x in Elems(order);
    AppendNoDup(s.runq, Without(order, Elems(s.runq)));
  }

  lemma MergeInv(s: State, o: int, t: nat, order: seq<nat>)
    requires Inv(s, o) && t < |s.pc| && s.pc[t].Merging? && Enumerates(order, s.registered)
    ensures Inv(Merged(s, t, order), o)
  {
    HolderOwns(s, o, t);
    var s1 := Merged(s, t, order);
    MergePlaces(s, order);
    MergeOwner(s, o, order);
    MergeSelf(s, o, order);
    forall u | u in s1.waitq ensures u !in s1.runq {
      assert ThreadOk(s, o, u);
    }
    forall u | 0 <= u < |s.pc| ensures ThreadOk(s1, o, u) {
      if u != t { MergeOther(s, o, s1, u); }
    }
  }

  lemma MergeOwner(s: State, t: nat, order: seq<nat>)
    requires Inv(s, t) && t < |s.pc| && s.pc[t].Merging?
    ensures OwnerOk(Merged(s, t, order), t)
  {
    var s1 := Merged(s, t, order);
    assert ThreadOk(s, t, t);
    if Marked(s) {
      var x :| x in s.runq && x != IDLE && x < |s.pc| && Running(s.status[x]);
      assert x in s1.runq;
    }
  }

  lemma MergeSelf(s: State, t: nat, order: seq<nat>)
    requires Inv(s, t) && t < |s.pc| && s.pc[t].Merging?
    requires t in Merged(s, t, order).runq <==> t in s.runq || t in s.registered
    ensures ThreadOk(Merged(s, t, order), t, t)
  {
    assert ThreadOk(s, t, t);
  }

  /** A thread that check_wakeup moves, or does not, keeps its conditions. */
  lemma MergeOther(s: State, o: int, s1: State, u: nat)
    requires Inv(s, o) && u < |s.pc| && u != o
    requires s1.Sized() && |s1.pc| == |s.pc| && s1.idle == s.idle && s1.registered == {}
    requires s1.pc[u] == s.pc[u] && s1.status[u] == s.status[u] && s1.waits[u] == s.waits[u]
    requires s1.waitq == s.waitq
    requires u in s1.runq <==> u in s.runq || u in s.registered
    ensures ThreadOk(s1, o, u)
  {
    assert ThreadOk(s, o, u);
  }

  /** A step in which the owner leaves the front place: others keep their entries. */
  lemma OthersKept(s: State, o: int, s1: State, t: nat)
    requires Inv(s, o) && t == o && s1.Sized() && |s1.pc| == |s.pc| && s1.idle == s.idle
    requires s1.registered == s.registered
    requires forall u :: 0 <= u < |s.pc| && u != t ==>
      s1.pc[u] == s.pc[u] && s1.status[u] == s.status[u] && s1.waits[u] == s.waits[u]
    requires forall u :: u != t ==> (u in s1.runq <==> u in s.runq)
    requires forall u :: u != t ==> (u in s1.waitq <==> u in s.waitq)
    requires ThreadOk(s1, o, t)
    ensures forall u {:trigger ThreadOk(s1, o, u)} :: 0 <= u < |s.pc| ==> ThreadOk(s1, o, u)
  {
    forall u | 0 <= u < |s.pc| ensures ThreadOk(s1, o, u) {
      if u != t {
        OthersNotTrying(s, o, u);
        Unchanged(s, o, s1, o, u);
      }
    }
  }

  lemma ParkInv(s: State, o: int, t: nat)
    requires Inv(s, o) && t < |s.pc| && s.pc[t].Parking?
    ensures Inv(Parked(s, t), o)
  {
    HolderOwns(s, o, t);
    assert ThreadOk(s, o, t);
    var s1 := Parked(s, t);
    PopNoDup(s.runq);
    AppendNoDup(s.waitq, [t]);
    OthersKept(s, o, s1, t);
    if s.IsIdle(o) {
      var x :| x in s.runq && x != IDLE && x < |s.pc| && Running(s.status[x]);
      assert x in s1.runq && Running(s1.status[x]);
    }
  }

  lemma LeaveBlockInv(s: State, o: int, t: nat)
    requires Inv(s, o) && t < |s.pc| && s.pc[t].Leaving?
    ensures Inv(EnterNext(s, t, ToCall), o)
  {
    HolderOwns(s, o, t);
    assert ThreadOk(s, o, t);
    var s1 := EnterNext(s, t, ToCall);
    PopNoDup(s.runq);
    OthersKept(s, o, s1, t);
  }

  lemma LeaveForeverInv(s: State, o: int, t: nat)
    requires Inv(s, o) && t < |s.pc| && s.pc[t] == Work(true) && !s.IsIdle(t)
    ensures Inv(EnterNext(s, t, ToEnd), o)
  {
    HolderOwns(s, o, t);
    assert ThreadOk(s, o, t);
    PopNoDup(s.runq);
    OthersKept(s, o, EnterNext(s, t, ToEnd), t);
  }

  lemma EndInv(s: State, o: int, t: nat)
    requires Inv(s, o) && t < |s.pc| && s.pc[t] == Work(true) && !s.IsIdle(t)
    ensures Inv(EndTurn(s, t), o)
  {
    SignalInv(s, o, t, Exit(t), false);
    LeaveForeverInv(Signal1(s, Exit(t), false), o, t);
  }

  lemma PutInv(s: State, o: int, t: nat, st: Strategy)
    requires Inv(s, o) && t < |s.pc| && (s.pc[t] == Work(true) || s.pc[t].Trying?)
    ensures Inv(PutTurn(s, t, st), o)
  {
    HolderOwns(s, o, t);
    assert ThreadOk(s, o, t);
    var s1 := PutTurn(s, t, st);
    PopNoDup(s.runq);
    AppendNoDup(PopFront(s.runq), [t]);
    OthersKept(s, o, s1, t);
  }

  /** nextRunnable drops a stopped head: the blocked thread is then in neither queue. */
  lemma ScanDropInv(s: State, o: int, t: nat)
    requires Inv(s, o) && t < |s.pc| && s.pc[t].Scanning? && s.runq != [] && s.runq[0] < |s.pc|
    requires s.status[s.runq[0]].InterProStop?
    ensures Inv(ScanOne(s, t), o)
  {
    HolderOwns(s, o, t);
    var h := s.runq[0];
    var s1 := ScanOne(s, t);
    PopNoDup(s.runq);
    assert ThreadOk(s, o, h) && ThreadOk(s, o, t);
    forall u | 0 <= u < |s.pc| ensures ThreadOk(s1, o, u) {
      if u != h {
        assert ThreadOk(s, o, u);
        Unchanged(s, o, s1, o, u);
      }
    }
    if Marked(s) {
      var x :| x in s.runq && x != IDLE && x < |s.pc| && Running(s.status[x]);
      assert x in s1.runq;
    }
  }

  /** nextRunnable under the role strategy moves a head of another role to the back. */
  lemma ScanRotateInv(s: State, o: int, t: nat)
    requires Inv(s, o) && t < |s.pc| && s.pc[t].Scanning? && s.runq != [] && s.runq[0] < |s.pc|
    requires !s.status[s.runq[0]].InterProStop?
    requires s.pc[t].strategy.CurrentRole? && s.role[s.runq[0]] != s.role[t]
    ensures Inv(ScanOne(s, t), o)
  {
    HolderOwns(s, o, t);
    var h := s.runq[0];
    var s1 := ScanOne(s, t);
    PopNoDup(s.runq);
    AppendNoDup(PopFront(s.runq), [h]);
    forall u | 0 <= u < |s.pc| ensures ThreadOk(s1, o, u) {
      assert ThreadOk(s, o, u);
      assert s.pc[t].Scanning? && (u != t ==> !s.pc[u].Trying?);
      Unchanged(s, o, s1, o, u);
    }
    if Marked(s) {
      var x :| x in s.runq && x != IDLE && x < |s.pc| && Running(s.status[x]);
      assert x in s1.runq;
    }
  }

  /** nextRunnable passes the turn to the head. */
  lemma ScanPassInv(s: State, o: int, t: nat)
    requires Inv(s, o) && t < |s.pc| && s.pc[t].Scanning? && s.runq != [] && s.runq[0] < |s.pc|
    requires !s.status[s.runq[0]].InterProStop?
    requires !(s.pc[t].strategy.CurrentRole? && s.role[s.runq[0]] != s.role[t])
    ensures Inv(ScanOne(s, t), o)
  {
    HolderOwns(s, o, t);
    var h := s.runq[0];
    var s1 := ScanOne(s, t);
    ScanPassPair(s, t);
    forall u | 0 <= u < |s.pc| ensures ThreadOk(s1, o, u) {
      if u != h && u != t {
        OthersNotTrying(s, o, u);
        Unchanged(s, o, s1, o, u);
      }
    }
  }

  /** The passing thread and the chosen one. */
  lemma ScanPassPair(s: State, t: nat)
    requires Inv(s, t) && t < |s.pc| && s.pc[t].Scanning? && s.runq != [] && s.runq[0] < |s.pc|
    requires !s.status[s.runq[0]].InterProStop?
    requires !(s.pc[t].strategy.CurrentRole? && s.role[s.runq[0]] != s.role[t])
    ensures ThreadOk(ScanOne(s, t), t, t) && ThreadOk(ScanOne(s, t), t, s.runq[0])
    ensures OwnerOk(ScanOne(s, t), t)
  {
    var h := s.runq[0];
    assert ThreadOk(s, t, t);
    if h != t { assert ThreadOk(s, t, h); }
  }

  lemma FinishInv(s: State, o: int, t: nat)
    requires Inv(s, o) && t < |s.pc| && s.pc[t].Scanning? && s.runq == [] && LastOne(s, t, s.pc[t].after)
    ensures Inv(SetPc(s, t, Ended), -1)
  {
    HolderOwns(s, o, t);
    var s1 := SetPc(s, t, Ended);
    forall u | 0 <= u < |s.pc| ensures ThreadOk(s1, -1, u) {
      assert ThreadOk(s, o, u);
      if u != t { Unchanged(s, o, s1, -1, u); }
    }
  }

  /** The idle thread never finds the run queue empty, because tryPutTurn has marked a thread;
      and whoever finds it empty finds the idle thread in the wait queue. */
  lemma IdleNeverStuck(s: State, o: int, t: nat)
    requires Inv(s, o) && t < |s.pc| && s.pc[t].Scanning? && s.runq == []
    ensures !s.IsIdle(t)
    ensures s.idle && IDLE < |s.pc| ==> IDLE in s.waitq
  {
    HolderOwns(s, o, t);
    assert ThreadOk(s, o, t);
    if s.idle && IDLE < |s.pc| { assert ThreadOk(s, o, IDLE); }
  }

  lemma WakeIdleInv(s: State, o: int, t: nat)
    requires Inv(s, o) && t < |s.pc| && s.pc[t].Scanning? && s.runq == [] && s.idle && IDLE in s.waitq
    ensures Inv(IdleWoken(s, t), o)
  {
    HolderOwns(s, o, t);
    IdleNeverStuck(s, o, t);
    ReleasePlaces(s, {IDLE}, s.waits[IDLE].reason);
    var s1 := IdleWoken(s, t);
    assert ThreadOk(s1, o, t) by { assert ThreadOk(s, o, t); }
    assert ThreadOk(s1, o, IDLE) by { assert ThreadOk(s, o, IDLE); }
    assert QueuesOk(s1) && OwnerOk(s1, o);
    forall u | 0 <= u < |s.pc| ensures ThreadOk(s1, o, u) {
      if u != t && u != IDLE {
        OthersNotTrying(s, o, u);
        Unchanged(s, o, s1, o, u);
      }
    }
  }

  lemma PostInv(s: State, o: int, t: nat)
    requires Inv(s, o) && t < |s.pc| && s.pc[t].Posting? && s.pc[t].target < |s.pc|
    ensures Inv(Posted(s, t), s.pc[t].target)
  {
    HolderOwns(s, o, t);
    var p := s.pc[t].target;
    var s1 := Posted(s, t);
    assert ThreadOk(s1, p, p) by { assert ThreadOk(s, o, p) && ThreadOk(s, o, t); }
    assert ThreadOk(s1, p, t) by { assert ThreadOk(s, o, t); }
    assert QueuesOk(s1) && OwnerOk(s1, p);
    forall u | 0 <= u < |s.pc| ensures ThreadOk(s1, p, u) {
      if u != t && u != p {
        OthersNotTrying(s, o, u);
        Unchanged(s, o, s1, p, u);
      }
    }
  }

  lemma TryMarkInv(s: State, o: int, t: nat)
    requires Inv(s, o) && t < |s.pc| && s.pc[t].Trying?
    requires s.pc[t].at < |s.runq| && s.runq[s.pc[t].at] < |s.pc|
    ensures Inv(TryOne(s, t), o)
  {
    HolderOwns(s, o, t);
    assert ThreadOk(s, o, t);
    var s1 := TryOne(s, t);
    var x := s.runq[s.pc[t].at];
    assert ThreadOk(s, o, x);
    forall u | 0 <= u < |s.pc| ensures ThreadOk(s1, o, u) {
      assert ThreadOk(s, o, u);
      if u != t && u != x { Unchanged(s, o, s1, o, u); }
    }
    if s.status[x].Runnable? {
      assert x in s1.runq && x != IDLE && Running(s1.status[x]);
    }
  }

  /** The steps a thread takes without the turn, around a blocking call: they touch
      only that thread's own entries. */
  lemma OwnStepInv(s: State, o: int, s1: State, t: nat)
    requires Inv(s, o) && t < |s.pc| && !Holder(s.pc[t])
    requires s1.Sized() && |s1.pc| == |s.pc| && ThreadOk(s1, o, t)
    requires s1.runq == s.runq && s1.waitq == s.waitq && s1.waits == s.waits
    requires s1.turn == s.turn && s1.idle == s.idle
    requires s1.pc == s.pc[t := s1.pc[t]] && s1.status == s.status[t := s1.status[t]]
    requires !Holder(s1.pc[t]) && (Running(s.status[t]) ==> Running(s1.status[t]))
    requires forall u :: u != t ==> (u in s1.registered <==> u in s.registered)
    requires s1.flag <==> s1.registered != {}
    ensures Inv(s1, o)
  {
    forall u | 0 <= u < |s.pc| ensures ThreadOk(s1, o, u) {
      if u != t {
        assert ThreadOk(s, o, u);
        if !s.pc[u].Trying? { Unchanged(s, o, s1, o, u); }
      }
    }
    assert QueuesOk(s1);
    OwnStepOwner(s, o, s1, t);
  }

  lemma OwnStepOwner(s: State, o: int, s1: State, t: nat)
    requires s.Sized() && OwnerOk(s, o) && t < |s.pc| && !Holder(s.pc[t])
    requires s1.Sized() && |s1.pc| == |s.pc| && s1.runq == s.runq && s1.idle == s.idle
    requires s1.pc == s.pc[t := s1.pc[t]] && s1.status == s.status[t := s1.status[t]]
    requires !Holder(s1.pc[t]) && (Running(s.status[t]) ==> Running(s1.status[t]))
    ensures OwnerOk(s1, o)
  {
    if Marked(s) {
      var x :| x in s.runq && x != IDLE && x < |s.pc| && Running(s.status[x]);
      assert x in s1.runq && Running(s1.status[x]);
    }
  }

  lemma InterProStartInv(s: State, o: int, t: nat)
    requires Inv(s, o) && t < |s.pc| && s.pc[t].User? && !s.IsIdle(t)
    ensures Inv(CallStarted(s, t), o)
  {
    assert ThreadOk(s, o, t);
    OwnStepInv(s, o, CallStarted(s, t), t);
  }

  lemma InterProEndInv(s: State, o: int, t: nat)
    requires Inv(s, o) && t < |s.pc| && s.pc[t].InCall?
    ensures Inv(CallEnded(s, t), o)
  {
    assert ThreadOk(s, o, t);
    OwnStepInv(s, o, CallEnded(s, t), t);
  }

  lemma WakeupInv(s: State, o: int, t: nat)
    requires Inv(s, o) && t < |s.pc| && s.pc[t].Returned?
    ensures Inv(Registered(s, t), o)
  {
    assert ThreadOk(s, o, t);
    var s1 := Registered(s, t);
    assert t in s1.registered;
    OwnStepInv(s, o, s1, t);
  }

  lemma SpawnInv(s: State, o: int, t: nat, r: nat)
    requires Inv(s, o) && t < |s.pc| && s.pc[t].Work?
    ensures Inv(Spawned(s, r), o)
  {
    HolderOwns(s, o, t);
    var n := |s.pc|;
    var s1 := Spawned(s, r);
    AppendNoDup(s.runq, [n]);
    forall u | 0 <= u < |s1.pc| ensures ThreadOk(s1, o, u) {
      if u < n {
        assert ThreadOk(s, o, u);
        Unchanged(s, o, s1, o, u);
      }
    }
  }

  /** Getting the turn, working with it, and creating threads. */
  predicate IsTurnStep(l: Label) {
    l.SeeFlag? || l.TakeTurn? || l.Signal? || l.Tick? || l.ReadFlag? || l.Merge? || l.Spawn?
  }

  lemma StepTurn(s: State, o: int, l: Label)
    requires Inv(s, o) && Enabled(s, l) && IsTurnStep(l)
    ensures Inv(Do(s, l), NextOwner(s, l, o))
  {
    match l
    case SeeFlag(t) => SeeFlagInv(s, o, t);
    case TakeTurn(t) => TakeTurnInv(s, o, t);
    case Signal(t, c, all) => SignalInv(s, o, t, c, all);
    case Tick(t, k) => TickInv(s, o, t, k);
    case ReadFlag(t) => ReadFlagInv(s, o, t);
    case Merge(t, order) => MergeInv(s, o, t, order);
    case Spawn(t, r) => SpawnInv(s, o, t, r);
  }

  /** Giving up the front place, and tryPutTurn. */
  predicate IsLeaveStep(l: Label) {
    l.Park? || l.LeaveBlock? || l.Put? || l.End? || l.StartTry? || l.TryMark? || l.TryFail?
  }

  lemma StepLeave(s: State, o: int, l: Label)
    requires Inv(s, o) && Enabled(s, l) && IsLeaveStep(l)
    ensures Inv(Do(s, l), NextOwner(s, l, o))
  {
    match l
    case Park(t) => ParkInv(s, o, t);
    case LeaveBlock(t) => LeaveBlockInv(s, o, t);
    case Put(t, st) => PutInv(s, o, t, st);
    case End(t) => EndInv(s, o, t);
    case StartTry(t) => StartTryInv(s, o, t);
    case TryMark(t) => TryMarkInv(s, o, t);
    case TryFail(t) => PutInv(s, o, t, RoundRobin);
  }

  lemma StepScan(s: State, o: int, t: nat)
    requires Inv(s, o) && Enabled(s, Scan(t))
    ensures Inv(ScanOne(s, t), o)
  {
    if s.status[s.runq[0]].InterProStop? {
      ScanDropInv(s, o, t);
    } else if s.pc[t].strategy.CurrentRole? && s.role[s.runq[0]] != s.role[t] {
      ScanRotateInv(s, o, t);
    } else {
      ScanPassInv(s, o, t);
    }
  }

  /** Passing the turn on, and blocking calls. */
  lemma StepPass(s: State, o: int, l: Label)
    requires Inv(s, o) && Enabled(s, l) && !IsTurnStep(l) && !IsLeaveStep(l)
    ensures Inv(Do(s, l), NextOwner(s, l, o))
  {
    match l
    case Scan(t) => StepScan(s, o, t);
    case Finish(t) => FinishInv(s, o, t);
    case WakeIdle(t) => WakeIdleInv(s, o, t);
    case Post(t) => PostInv(s, o, t);
    case InterProStart(t) => InterProStartInv(s, o, t);
    case InterProEnd(t) => InterProEndInv(s, o, t);
    case Wakeup(t) => WakeupInv(s, o, t);
  }

  /** Every step of every thread keeps the invariant. */
  lemma StepInv(s: State, o: int, l: Label)
    requires Inv(s, o) && Enabled(s, l)
    ensures Inv(Do(s, l), NextOwner(s, l, o))
  {
    if IsTurnStep(l) {
      StepTurn(s, o, l);
    } else if IsLeaveStep(l) {
      StepLeave(s, o, l);
    } else {
      StepPass(s, o, l);
    }
  }
}
