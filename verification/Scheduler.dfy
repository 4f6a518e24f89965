/** The round-robin turn scheduler as an interleaved step system.

    One label is one atomic step of one thread: a read or write of a wake flag, one
    spin-lock section, one section under the wakeup mutex, or one piece of work done
    while holding the turn.  The program counter of a thread says where it is inside
    getTurn, incTurnCount, wait, block, putTurn or next. */
module Scheduler {
  import opened Queues

  const WORD: nat := 0x1_0000_0000      // unsigned is 32 bits wide
  const FOREVER: nat := 0xFFFF_FFFF     // UINT_MAX, never below turnCount
  const MAIN: nat := 0
  const IDLE: nat := 1

  /** Wait channels.  Distinct objects have distinct channels. */
  datatype Chan =
    | Null | Mutex(id: nat) | Sem(id: nat) | Cond(id: nat) | Barrier(id: nat) | Lineup(id: nat)
    | Exit(tid: nat) | IdleCond | Other(id: nat)

  datatype Status = Runnable | RunningReg | RunningInterPro | InterProStop

  datatype Reason = Signalled | TimedOut

  datatype Wait = Wait(chan: Chan, timeout: nat, reason: Reason, wakenUp: bool)

  /** The putTurn strategies of the base configuration. */
  datatype Strategy = RoundRobin | CurrentThread | CurrentRole | Create

  /** Where a thread goes once its call of `next` has passed the turn on. */
  datatype After = ToUser | ToWait | ToCall | ToEnd

  /** What follows a call of check_wakeup. */
  datatype Then =
    | ThenWork
    | ThenPark(chan: Chan, deadline: nat)
    | ThenBlock
    | ThenScan(strategy: Strategy, after: After)

  datatype Resume = FromUser | FromWait | FromBlock

  datatype Pc =
    | User                      // running user code, or spinning in getTurn
    | InWait                    // inside wait, spinning in getTurn
    | Blocking                  // interProStart returned true, block spins in getTurn
    | InCall                    // inside the blocking system call
    | Returned                  // after interProEnd, before wakeup
    | Ended
    | Saw(from: Resume)         // read its own wake flag as set, has not cleared it
    | Work(ticked: bool)        // holds the turn
    | MustTick                  // block holds the turn, incTurnCount comes next
    | Checking(k: Then)         // check_wakeup: about to read the flag
    | Merging(k: Then)          // check_wakeup: flag seen, about to take the mutex
    | Parking(chan: Chan, deadline: nat)
    | Leaving                   // block: about to call next
    | Scanning(strategy: Strategy, after: After)   // inside nextRunnable
    | Posting(target: nat, after: After)           // nextRunnable has chosen
    | Trying(at: nat)           // tryPutTurn looks at runq[at]

  datatype State = State(
    runq: seq<nat>, waitq: seq<nat>, waits: seq<Wait>, status: seq<Status>, pc: seq<Pc>,
    role: seq<nat>, registered: set<nat>, flag: bool, turn: nat, log: seq<(nat, nat)>,
    idle: bool)                 // is an idle thread launched?
  {
    ghost predicate Sized() {
      |waits| == |pc| && |status| == |pc| && |role| == |pc|
    }

    predicate IsIdle(t: nat) {
      idle && t == IDLE
    }
  }

  datatype Label =
    | SeeFlag(t: nat)
    | TakeTurn(t: nat)
    | Signal(t: nat, chan: Chan, all: bool)
    | Tick(t: nat, k: Then)
    | ReadFlag(t: nat)
    | Merge(t: nat, order: seq<nat>)
    | Park(t: nat)
    | LeaveBlock(t: nat)
    | Put(t: nat, strategy: Strategy)
    | End(t: nat)
    | Scan(t: nat)
    | Finish(t: nat)
    | WakeIdle(t: nat)
    | Post(t: nat)
    | StartTry(t: nat)
    | TryMark(t: nat)
    | TryFail(t: nat)
    | InterProStart(t: nat)
    | InterProEnd(t: nat)
    | Wakeup(t: nat)
    | Spawn(t: nat, newRole: nat)

  predicate Running(st: Status) {
    st.RunningReg? || st.RunningInterPro?
  }

  /** The status `next` gives its caller. */
  function NextStatus(st: Status): Status {
    if st.RunningReg? then Runnable else InterProStop
  }

  function Continue(k: Then): Pc {
    match k
    case ThenWork => Work(true)
    case ThenPark(c, d) => Parking(c, d)
    case ThenBlock => Leaving
    case ThenScan(st, a) => Scanning(st, a)
  }

  function Landing(a: After): Pc {
    match a
    case ToUser => User
    case ToWait => InWait
    case ToCall => InCall
    case ToEnd => Ended
  }

  predicate KeepsTurn(st: Strategy) {
    st.CurrentThread? || st.Create?
  }

  function OnChan(s: State, c: Chan): set<nat>
    requires s.Sized()
  {
    set t | t in s.waitq && t < |s.waits| && s.waits[t].chan == c
  }

  /** The waiters that signal moves: all on the channel, or the first one. */
  function SignalSet(s: State, c: Chan, all: bool): set<nat>
    requires s.Sized()
  {
    if all then OnChan(s, c)
    else
      var k := Keep(s.waitq, OnChan(s, c));
      if k == [] then {} else {k[0]}
  }

  /** The waiters whose deadline lies before the turn count. */
  function Expired(s: State): set<nat>
    requires s.Sized()
  {
    set t | t in s.waitq && t < |s.waits| && s.waits[t].timeout < s.turn
  }

  /** wait_t::reset together with the wake reason. */
  function Reset(w: Wait, r: Reason): Wait {
    Wait(Null, FOREVER, r, false)
  }

  function ResetAll(w: seq<Wait>, m: set<nat>, r: Reason): seq<Wait> {
    seq(|w|, t requires 0 <= t < |w| => if t in m then Reset(w[t], r) else w[t])
  }

  /** Move the waiters in `m` to the back of the run queue, in wait-queue order. */
  function Release(s: State, m: set<nat>, r: Reason): State
    requires s.Sized()
    ensures Release(s, m, r).Sized()
  {
    s.(runq := s.runq + Keep(s.waitq, m),
       waitq := Without(s.waitq, m),
       waits := ResetAll(s.waits, m, r))
  }

  function SetPc(s: State, t: nat, pc: Pc): State
    requires s.Sized() && t < |s.pc|
  {
    s.(pc := s.pc[t := pc])
  }

  // getTurn -----------------------------------------------------------------------

  /** The spin in wait_t::wait reads the flag as set. */
  function SawFlag(s: State, t: nat): State
    requires s.Sized() && t < |s.pc|
  {
    SetPc(s, t, Saw(match s.pc[t] case User => FromUser case InWait => FromWait case _ => FromBlock))
  }

  /** The flag is cleared; the thread has the turn. */
  function TookTurn(s: State, t: nat): State
    requires s.Sized() && t < |s.pc| && s.pc[t].Saw?
  {
    SetPc(s, t, if s.pc[t].from.FromBlock? then MustTick else Work(false))
    .(waits := s.waits[t := s.waits[t].(wakenUp := false)])
  }

  // Work with the turn ------------------------------------------------------------

  function Signal1(s: State, c: Chan, all: bool): State
    requires s.Sized()
  {
    Release(s, SignalSet(s, c, all), Signalled)
  }

  predicate CanTick(s: State, t: nat, k: Then)
    requires s.Sized() && t < |s.pc|
  {
    || (s.pc[t].Work? && k.ThenWork?)
    || (s.pc[t].Work? && k.ThenPark? && !s.IsIdle(t) && !k.chan.IdleCond? && k.deadline <= FOREVER)
    || (s.pc[t].MustTick? && k.ThenBlock?)
  }

  /** The logical clock advances and the turn is logged. */
  function Clock(s: State, t: nat): State {
    s.(turn := (s.turn + 1) % WORD, log := s.log + [(t, s.turn)])
  }

  /** incTurnCount up to its call of check_wakeup. */
  function Ticked(s: State, t: nat, k: Then): State
    requires s.Sized() && t < |s.pc|
  {
    SetPc(Release(Clock(s, t), Expired(Clock(s, t)), TimedOut), t, Checking(k))
  }

  /** check_wakeup reads the flag outside the mutex. */
  function FlagRead(s: State, t: nat): State
    requires s.Sized() && t < |s.pc| && s.pc[t].Checking?
  {
    SetPc(s, t, if s.flag then Merging(s.pc[t].k) else Continue(s.pc[t].k))
  }

  /** check_wakeup under the mutex: registered threads outside the queue join it. */
  function Merged(s: State, t: nat, order: seq<nat>): State
    requires s.Sized() && t < |s.pc| && s.pc[t].Merging?
  {
    SetPc(s, t, Continue(s.pc[t].k))
    .(runq := s.runq + Without(order, Elems(s.runq)), registered := {}, flag := false)
  }

  // Giving the turn up ------------------------------------------------------------

  /** The head of next: give up the front place and look for wakeups. */
  function EnterNext(s: State, t: nat, a: After): State
    requires s.Sized() && t < |s.pc|
  {
    SetPc(s, t, Checking(ThenScan(RoundRobin, a)))
    .(status := s.status[t := NextStatus(s.status[t])], runq := PopFront(s.runq))
  }

  /** wait, from its wait record to next. */
  function Parked(s: State, t: nat): State
    requires s.Sized() && t < |s.pc| && s.pc[t].Parking?
  {
    EnterNext(s, t, ToWait)
    .(waitq := s.waitq + [t],
      waits := s.waits[t := s.waits[t].(chan := s.pc[t].chan, timeout := s.pc[t].deadline)])
  }

  /** putTurn up to its call of next. */
  function PutTurn(s: State, t: nat, st: Strategy): State
    requires s.Sized() && t < |s.pc|
  {
    SetPc(s, t, Checking(ThenScan(st, ToUser)))
    .(status := s.status[t := Runnable],
      runq := if KeepsTurn(st) then s.runq else PopFront(s.runq) + [t])
  }

  /** putTurn at the end of a thread: one joiner is signalled. */
  function EndTurn(s: State, t: nat): State
    requires s.Sized() && t < |s.pc|
  {
    EnterNext(Signal1(s, Exit(t), false), t, ToEnd)
  }

  // nextRunnable and post ---------------------------------------------------------

  /** One iteration of nextRunnable on a nonempty run queue, under the head's spin lock. */
  function ScanOne(s: State, t: nat): State
    requires s.Sized() && t < |s.pc| && s.pc[t].Scanning?
    requires s.runq != [] && s.runq[0] < |s.pc|
  {
    var h := s.runq[0];
    if s.status[h].InterProStop? then
      s.(runq := PopFront(s.runq))
    else if s.pc[t].strategy.CurrentRole? && s.role[h] != s.role[t] then
      s.(runq := PopFront(s.runq) + [h])
    else
      SetPc(s, t, Posting(h, s.pc[t].after))
      .(status := if s.status[h].Runnable? then s.status[h := RunningReg] else s.status)
  }

  /** nextRunnable finds the run queue empty and passes no turn on. */
  predicate LastOne(s: State, t: nat, a: After) {
    a.ToEnd? && (s.waitq == [] || t == MAIN)
  }

  /** wakeUpIdleThread. */
  function IdleWoken(s: State, t: nat): State
    requires s.Sized() && t < |s.pc| && s.pc[t].Scanning? && IDLE < |s.pc|
  {
    SetPc(Release(s, {IDLE}, s.waits[IDLE].reason), t, Scanning(RoundRobin, s.pc[t].after))
  }

  function Posted(s: State, t: nat): State
    requires s.Sized() && t < |s.pc| && s.pc[t].Posting? && s.pc[t].target < |s.pc|
  {
    var p := s.pc[t].target;
    SetPc(s, t, Landing(s.pc[t].after))
    .(waits := s.waits[p := s.waits[p].(wakenUp := true)])
  }

  /** tryPutTurn looks at one queue element under its spin lock. */
  function TryOne(s: State, t: nat): State
    requires s.Sized() && t < |s.pc| && s.pc[t].Trying?
    requires s.pc[t].at < |s.runq| && s.runq[s.pc[t].at] < |s.pc|
  {
    var x := s.runq[s.pc[t].at];
    if s.status[x].Runnable? then
      SetPc(s, t, Parking(IdleCond, FOREVER)).(status := s.status[x := RunningReg])
    else
      SetPc(s, t, Trying(s.pc[t].at + 1))
  }

  // Blocking calls and thread creation --------------------------------------------

  function CallStarted(s: State, t: nat): State
    requires s.Sized() && t < |s.pc|
  {
    if s.status[t].Runnable? then
      SetPc(s, t, InCall).(status := s.status[t := InterProStop])
    else
      SetPc(s, t, Blocking).(status := s.status[t := RunningInterPro])
  }

  function CallEnded(s: State, t: nat): State
    requires s.Sized() && t < |s.pc|
  {
    SetPc(s, t, Returned).(status := s.status[t := Runnable])
  }

  function Registered(s: State, t: nat): State
    requires s.Sized() && t < |s.pc|
  {
    SetPc(s, t, User).(registered := s.registered + {t}, flag := true)
  }

  function Spawned(s: State, r: nat): State
    requires s.Sized()
  {
    s.(runq := s.runq + [|s.pc|], pc := s.pc + [User], status := s.status + [Runnable],
       waits := s.waits + [Wait(Null, FOREVER, Signalled, false)], role := s.role + [r])
  }

  // The step relation -------------------------------------------------------------

  predicate Enabled(s: State, l: Label)
    requires s.Sized()
  {
    l.t < |s.pc| &&
    var pc := s.pc[l.t];
    match l
    case SeeFlag(t) => (pc.User? || pc.InWait? || pc.Blocking?) && s.waits[t].wakenUp
    case TakeTurn(t) => pc.Saw?
    case Signal(t, c, all) => pc.Work? && !c.Null? && !c.IdleCond?
    case Tick(t, k) => CanTick(s, t, k)
    case ReadFlag(t) => pc.Checking?
    case Merge(t, order) => pc.Merging? && Enumerates(order, s.registered)
    case Park(t) => pc.Parking?
    case LeaveBlock(t) => pc.Leaving?
    case Put(t, st) => pc == Work(true)
    case End(t) => pc == Work(true) && !s.IsIdle(t)
    case Scan(t) => pc.Scanning? && s.runq != [] && s.runq[0] < |s.pc|
    case Finish(t) => pc.Scanning? && s.runq == [] && LastOne(s, t, pc.after)
    case WakeIdle(t) => pc.Scanning? && s.runq == [] && !LastOne(s, t, pc.after)
                        && s.idle && IDLE in s.waitq && IDLE < |s.pc|
    case Post(t) => pc.Posting? && pc.target < |s.pc|
    case StartTry(t) => pc == Work(true) && s.IsIdle(t) && |s.runq| >= 2
    case TryMark(t) => pc.Trying? && pc.at < |s.runq| && s.runq[pc.at] < |s.pc|
    case TryFail(t) => pc.Trying? && pc.at >= |s.runq|
    case InterProStart(t) => pc.User? && !s.IsIdle(t)
    case InterProEnd(t) => pc.InCall?
    case Wakeup(t) => pc.Returned?
    case Spawn(t, r) => pc.Work?
  }

  function Do(s: State, l: Label): State
    requires s.Sized() && Enabled(s, l)
  {
    match l
    case SeeFlag(t) => SawFlag(s, t)
    case TakeTurn(t) => TookTurn(s, t)
    case Signal(t, c, all) => Signal1(s, c, all)
    case Tick(t, k) => Ticked(s, t, k)
    case ReadFlag(t) => FlagRead(s, t)
    case Merge(t, order) => Merged(s, t, order)
    case Park(t) => Parked(s, t)
    case LeaveBlock(t) => EnterNext(s, t, ToCall)
    case Put(t, st) => PutTurn(s, t, st)
    case End(t) => EndTurn(s, t)
    case Scan(t) => ScanOne(s, t)
    case Finish(t) => SetPc(s, t, Ended)
    case WakeIdle(t) => IdleWoken(s, t)
    case Post(t) => Posted(s, t)
    case StartTry(t) => SetPc(s, t, Trying(1))
    case TryMark(t) => TryOne(s, t)
    case TryFail(t) => PutTurn(s, t, RoundRobin)
    case InterProStart(t) => CallStarted(s, t)
    case InterProEnd(t) => CallEnded(s, t)
    case Wakeup(t) => Registered(s, t)
    case Spawn(t, r) => Spawned(s, r)
  }

  /** The assertions the code makes at each step. */
  predicate Asserts(s: State, l: Label)
    requires s.Sized() && Enabled(s, l)
  {
    var front := s.runq != [] && s.runq[0] == l.t;
    var st := s.status[l.t];
    match l
    case Signal(_, _, _) => front
    case Tick(_, k) => k.ThenBlock? ==> front           // block asserts it before its tick
    case Park(_) => front && st.RunningReg?
    case LeaveBlock(_) => front && st.RunningInterPro?
    case Put(_, _) => front && st.RunningReg?
    case End(_) => front && st.RunningReg?
    case Finish(_) => true
    case WakeIdle(t) => !s.IsIdle(t)
    case Post(t) =>
      var p := s.pc[t].target;
      // post reaches neither a set flag nor a stopped thread, and goes to the queue head
      !s.waits[p].wakenUp && !s.status[p].InterProStop? && s.runq != [] && s.runq[0] == p
    case StartTry(_) => front
    case TryMark(_) => front
    case TryFail(_) => front && st.RunningReg?
    case InterProStart(_) => st.Runnable? || st.RunningReg?
    case InterProEnd(_) => st.InterProStop?
    case Spawn(_, _) => front
    case _ => true
  }

  /** The scheduler as its constructor leaves it. */
  function Init(idle: bool, mainRole: nat): State {
    State([MAIN], [], [Wait(Null, FOREVER, Signalled, true)], [RunningReg], [User],
          [mainRole], {}, false, 0, [], idle)
  }

  /** `s1` is reached from `s` by the labels `ls`. */
  ghost predicate Run(s: State, ls: seq<Label>, s1: State)
    decreases |ls|
  {
    if ls == [] then s == s1
    else s.Sized() && Enabled(s, ls[0]) && Run(Do(s, ls[0]), ls[1..], s1)
  }

  /** The steps that may change the wait queue or the clock. */
  predicate TouchesWaits(l: Label) {
    l.Signal? || l.End? || l.Tick? || l.WakeIdle? || l.Park?
  }

  /** `s1` has the wait queue, the clock and, flags apart, the wait records of `s`. */
  ghost predicate SameWaits(s: State, s1: State)
    requires s.Sized()
  {
    && s1.waitq == s.waitq && s1.turn == s.turn && s1.log == s.log && s1.idle == s.idle
    && s1.Sized() && |s.pc| <= |s1.pc|
    && forall u :: 0 <= u < |s.pc| ==> s1.waits[u] == s.waits[u].(wakenUp := s1.waits[u].wakenUp)
  }

  lemma QuietFlags(s: State, l: Label)
    requires s.Sized() && Enabled(s, l)
    requires l.SeeFlag? || l.TakeTurn? || l.ReadFlag? || l.Merge? || l.Post? || l.Wakeup? || l.Spawn?
    ensures SameWaits(s, Do(s, l))
  {
  }

  lemma QuietQueue(s: State, l: Label)
    requires s.Sized() && Enabled(s, l)
    requires l.LeaveBlock? || l.Put? || l.Scan? || l.Finish? || l.TryFail?
    ensures SameWaits(s, Do(s, l))
  {
  }

  lemma QuietStatus(s: State, l: Label)
    requires s.Sized() && Enabled(s, l)
    requires l.StartTry? || l.TryMark? || l.InterProStart? || l.InterProEnd?
    ensures SameWaits(s, Do(s, l))
  {
  }

  /** All other steps leave the wait queue, the clock and the wait records alone. */
  lemma QuietStep(s: State, l: Label)
    requires s.Sized() && Enabled(s, l) && !TouchesWaits(l)
    ensures SameWaits(s, Do(s, l))
  {
    if l.LeaveBlock? || l.Put? || l.Scan? || l.Finish? || l.TryFail? {
      QuietQueue(s, l);
    } else if l.StartTry? || l.TryMark? || l.InterProStart? || l.InterProEnd? {
      QuietStatus(s, l);
    } else {
      QuietFlags(s, l);
    }
  }

  lemma LoudSized(s: State, l: Label)
    requires s.Sized() && Enabled(s, l) && TouchesWaits(l)
    ensures Do(s, l).Sized() && |Do(s, l).pc| == |s.pc| && Do(s, l).idle == s.idle
  {
  }

  lemma QuietSized(s: State, l: Label)
    requires s.Sized() && Enabled(s, l) && !TouchesWaits(l)
    ensures |Do(s, l).pc| == |s.pc| + if l.Spawn? then 1 else 0
  {
  }

  /** Steps keep the per-thread tables aligned, and only thread creation extends them. */
  lemma DoSized(s: State, l: Label)
    requires s.Sized() && Enabled(s, l)
    ensures Do(s, l).Sized() && |Do(s, l).pc| == |s.pc| + if l.Spawn? then 1 else 0
    ensures Do(s, l).idle == s.idle
  {
    if TouchesWaits(l) {
      LoudSized(s, l);
    } else {
      QuietStep(s, l);
      QuietSized(s, l);
    }
  }

  /** Only waiters on the channel are signalled. */
  lemma SignalOn(s: State, c: Chan, all: bool)
    requires s.Sized()
    ensures SignalSet(s, c, all) <= OnChan(s, c)
  {
    KeepMembers(s.waitq, OnChan(s, c));
    if !all && Keep(s.waitq, OnChan(s, c)) != [] {
      assert Keep(s.waitq, OnChan(s, c))[0] in Keep(s.waitq, OnChan(s, c));
    }
  }
}
