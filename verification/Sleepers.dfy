/** Sleeping threads wait on NULL with a deadline.

    FOREVER is the largest 32-bit number, the deadline is computed in 32 bits, and nobody signals
    NULL: when the sum comes out as FOREVER the sleeper is never woken, and the last assertion of
    selfcheck fails. */
module Sleepers {
  import opened Queues
  import opened Scheduler
  import opened Safety
  import opened SchedulerTheorems
  import opened Deadlines
  import opened Phases
  import opened Runs

  /** The last assertion of selfcheck fails for this thread. */
  predicate Stuck(s: State, u: nat)
    requires s.Sized()
  {
    u in s.waitq && u < |s.pc| && s.waits[u].chan.Null? && s.waits[u].timeout == FOREVER
  }

  ghost predicate SelfCheckFails(s: State)
    requires s.Sized()
  {
    exists u: nat :: Stuck(s, u)
  }

  /** The deadline of a sleep of n turns: getTurnCount, one less than the counter, plus n. */
  function SleepDeadline(turn: nat, n: nat): nat {
    (turn - 1 + n) % WORD
  }

  /** What the caller can check before it goes to sleep. */
  lemma ForeverIff(turn: nat, n: nat)
    ensures SleepDeadline(turn, n) == FOREVER <==> (turn + n) % WORD == 0
  {
  }

  /** The thread waits on NULL for ever, or is on its way there with the turn. */
  predicate Doomed(s: State, u: nat)
    requires s.Sized() && u < |s.pc|
  {
    PhaseOf(s, u) == Waiting(Null, FOREVER) || PhaseOf(s, u) == Entering(Null, FOREVER)
  }

  // One step ------------------------------------------------------------------------------------

  /** A thread becomes stuck exactly by joining the queue with that record. */
  lemma StuckStep(s: State, o: int, l: Label, u: nat)
    requires Inv(s, o) && Enabled(s, l) && u < |s.pc| && !Stuck(s, u)
    ensures Do(s, l).Sized() && u < |Do(s, l).pc|
    ensures Stuck(Do(s, l), u) <==> l == Park(u) && s.pc[u] == Parking(Null, FOREVER)
  {
    DoSized(s, l);
    PhaseStep(s, o, l, u);
    if l == Park(u) { ParkPhase(s, o, u, u); PhaseOwner(s, o, u); }
  }

  /** Whoever is stuck stays stuck, whatever step anybody takes. */
  lemma StuckStays(s: State, o: int, l: Label, u: nat)
    requires Inv(s, o) && Enabled(s, l) && u < |s.pc| && Stuck(s, u)
    ensures Do(s, l).Sized() && u < |Do(s, l).pc| && Stuck(Do(s, l), u)
  {
    DoSized(s, l);
    PhaseStep(s, o, l, u);
    NullUnsignalled(s, l);
    assert ThreadOk(s, o, u);
    StuckMove(s, l, u, Do(s, l));
  }

  /** Nobody signals NULL. */
  lemma NullUnsignalled(s: State, l: Label)
    requires s.Sized() && Enabled(s, l)
    ensures !Signals(l, Null)
  {
  }

  lemma StuckMove(s: State, l: Label, u: nat, s1: State)
    requires s.Sized() && s1.Sized() && u < |s.pc| && u < |s1.pc| && Stuck(s, u) && !s.IsIdle(u)
    requires PhaseMove(s, l, u, PhaseOf(s, u), PhaseOf(s1, u)) && !Signals(l, Null)
    ensures Stuck(s1, u)
  {
  }

  /** A thread is doomed from the tick of a wait on NULL whose deadline is FOREVER, and from
      nothing else, and for ever. */
  lemma DoomedStep(s: State, o: int, l: Label, u: nat)
    requires Inv(s, o) && Enabled(s, l) && u < |s.pc|
    ensures Do(s, l).Sized() && u < |Do(s, l).pc|
    ensures Doomed(Do(s, l), u) <==> Doomed(s, u) || l == Tick(u, ThenPark(Null, FOREVER))
  {
    DoSized(s, l);
    PhaseStep(s, o, l, u);
    PhaseOwner(s, o, u);
    if l.Tick? { TickPhase(s, o, l.t, l.k, u); }
  }

  /** A doomed thread does no work any more. */
  lemma DoomedRests(s: State, o: int, u: nat)
    requires Inv(s, o) && u < |s.pc| && Doomed(s, u)
    ensures !s.pc[u].Work? && !s.pc[u].User? && !s.pc[u].InCall? && !s.pc[u].Ended?
  {
    assert ThreadOk(s, o, u);
  }

  // Every run -----------------------------------------------------------------------------------

  /** Step j is the thread's entry into the wait queue on NULL with the deadline FOREVER. */
  predicate SinksAt(ss: seq<State>, ls: seq<Label>, j: nat, u: nat)
    requires j < |ls| < |ss|
  {
    ls[j] == Park(u) && u < |ss[j].pc| && ss[j].pc[u] == Parking(Null, FOREVER)
  }

  /** In every run, selfcheck's last assertion fails for a thread exactly from the step on by which
      it joins the queue with that record. */
  lemma {:induction false} StuckIff(ss: seq<State>, ls: seq<Label>, i: nat, u: nat)
    requires FromStart(ss, ls) && i < |ss| && ss[i].Sized() && u < |ss[i].pc|
    ensures Stuck(ss[i], u) <==> exists j: nat :: j < i && SinksAt(ss, ls, j, u)
  {
    if i == 0 {
      var idle: bool, r: nat :| ss[0] == Init(idle, r);
    } else {
      var o := PathInv(ss, ls, i - 1);
      var s, l := ss[i - 1], ls[i - 1];
      assert LinkAt(ss, ls, i - 1);
      if u < |s.pc| {
        StuckIff(ss, ls, i - 1, u);
        if Stuck(s, u) {
          StuckStays(s, o, l, u);
        } else {
          StuckStep(s, o, l, u);
          assert SinksAt(ss, ls, i - 1, u) <==> l == Park(u) && s.pc[u] == Parking(Null, FOREVER);
        }
      } else {
        NewPhase(s, o, l, u);
        NotBefore(ss, ls, i, u);
      }
    }
  }

  lemma NotBefore(ss: seq<State>, ls: seq<Label>, i: nat, u: nat)
    requires Path(ss, ls) && 1 <= i < |ss| && |ss[i - 1].pc| <= u
    ensures !exists j: nat :: j < i && SinksAt(ss, ls, j, u)
  {
    forall j: nat | j < i ensures !SinksAt(ss, ls, j, u) {
      PathGrows(ss, ls, j, i - 1);
    }
  }

  /** selfcheck holds throughout a run exactly when no step of the run is such an entry. */
  lemma SelfCheckIff(ss: seq<State>, ls: seq<Label>)
    requires FromStart(ss, ls)
    ensures (forall i :: 0 <= i < |ss| ==> ss[i].Sized() && !SelfCheckFails(ss[i]))
       <==> forall j: nat, u: nat :: j < |ls| ==> !SinksAt(ss, ls, j, u)
  {
    forall i: nat | i < |ss| ensures ss[i].Sized() {
      var o := PathInv(ss, ls, i);
    }
    if j: nat, u: nat :| j < |ls| && SinksAt(ss, ls, j, u) {
      PathGrows(ss, ls, j, j + 1);
      StuckIff(ss, ls, j + 1, u);
      assert SelfCheckFails(ss[j + 1]);
    } else {
      forall i: nat | i < |ss| ensures !SelfCheckFails(ss[i]) {
        forall u: nat ensures !Stuck(ss[i], u) {
          if u < |ss[i].pc| { StuckIff(ss, ls, i, u); }
        }
      }
    }
  }

  /** A thread is doomed exactly from its tick into a wait on NULL with the deadline FOREVER on:
      no later step of anybody gives it the turn back. */
  lemma {:induction false} DoomedIff(ss: seq<State>, ls: seq<Label>, i: nat, u: nat)
    requires FromStart(ss, ls) && i < |ss| && ss[i].Sized() && u < |ss[i].pc|
    ensures Doomed(ss[i], u) <==> exists j: nat :: j < i && ls[j] == Tick(u, ThenPark(Null, FOREVER))
  {
    if i == 0 {
      var idle: bool, r: nat :| ss[0] == Init(idle, r);
    } else {
      var o := PathInv(ss, ls, i - 1);
      var s, l := ss[i - 1], ls[i - 1];
      assert LinkAt(ss, ls, i - 1);
      if u < |s.pc| {
        DoomedIff(ss, ls, i - 1, u);
        DoomedStep(s, o, l, u);
        assert l == Tick(u, ThenPark(Null, FOREVER)) ==> ls[i - 1] == Tick(u, ThenPark(Null, FOREVER));
      } else {
        NewPhase(s, o, l, u);
        TickedBefore(ss, ls, i, u);
      }
    }
  }

  lemma TickedBefore(ss: seq<State>, ls: seq<Label>, i: nat, u: nat)
    requires Path(ss, ls) && 1 <= i < |ss| && |ss[i - 1].pc| <= u
    ensures !exists j: nat :: j < i && ls[j] == Tick(u, ThenPark(Null, FOREVER))
  {
    forall j: nat | j < i ensures ls[j] != Tick(u, ThenPark(Null, FOREVER)) {
      PathGrows(ss, ls, j, i - 1);
      assert LinkAt(ss, ls, j);
    }
  }

  // A reachable case ------------------------------------------------------------------------------

  /** Two threads, the first of which works; `k` turns have passed. */
  predicate Working(s: State, k: nat) {
    s == State([0, 1], [], [CALM, CALM], [RunningReg, Runnable], [Work(false), User],
               [0, 0], {}, false, k, s.log, false)
  }

  lemma Begins(ok: Label -> bool) returns (s: State)
    requires forall l :: ok(l)
    ensures Reaches(Init(false, 0), ok, s) && Working(s, 0)
  {
    var s0 := Init(false, 0);
    OneSee(s0, ok, 0);
    var s1 := SawFlag(s0, 0);
    OneTake(s1, ok, 0);
    var s2 := TookTurn(s1, 0);
    Join(s0, ok, s1, s2);
    One(s2, ok, Spawn(0, 0));
    SpawnFirst(false);
    s := Spawned(s2, 0);
    Join(s0, ok, s2, s);
  }

  lemma OneMore(s: State, ok: Label -> bool, k: nat) returns (s1: State)
    requires (forall l :: ok(l)) && Working(s, k) && k + 1 < WORD
    ensures Reaches(s, ok, s1) && Working(s1, k + 1)
  {
    SameTurn(s, ok, 0);
    s1 := Clock(s, 0).(pc := s.pc[0 := Work(false)]);
    assert s1.pc == [Work(false), User];
  }

  lemma {:induction false} Passes(ok: Label -> bool, k: nat) returns (s: State)
    requires (forall l :: ok(l)) && k < WORD
    ensures Reaches(Init(false, 0), ok, s) && Working(s, k)
  {
    if k == 0 {
      s := Begins(ok);
    } else {
      var s1 := Passes(ok, k - 1);
      s := OneMore(s1, ok, k - 1);
      Join(Init(false, 0), ok, s1, s);
    }
  }

  /** The first thread sleeps for n turns when turn + n is a multiple of 2^32. */
  lemma FallsAsleep(s: State, ok: Label -> bool, n: nat) returns (s1: State)
    requires (forall l :: ok(l)) && 1 <= n < WORD && Working(s, WORD - n)
    ensures Reaches(s, ok, s1) && s1.Sized() && Stuck(s1, 0)
  {
    var d := SleepDeadline(s.turn, n);
    ForeverIff(s.turn, n);
    NobodyLate(Clock(s, 0));
    OneTick(s, ok, 0, ThenPark(Null, d));
    var s2 := Ticked(s, 0, ThenPark(Null, d));
    OneRead(s2, ok, 0);
    var s3 := SetPc(s2, 0, Parking(Null, FOREVER));
    Join(s, ok, s2, s3);
    StartWait(s3, ok, 0, Null, FOREVER, 1);
    s1 := s3.(
      pc := s3.pc[0 := InWait], status := s3.status[0 := Runnable][1 := RunningReg],
      runq := PopFront(s3.runq), waitq := s3.waitq + [0],
      waits := s3.waits[0 := s3.waits[0].(chan := Null, timeout := FOREVER)][1 := s3.waits[1].(wakenUp := true)]);
    Join(s, ok, s3, s1);
    assert 0 in s3.waitq + [0];
  }

  /** For every number of turns that a sleep can come to with two threads, some run makes it a
      sleep for ever: the sleeper is stuck and selfcheck fails. */
  lemma SleepsForever(n: nat) returns (ss: seq<State>, ls: seq<Label>)
    requires 11 <= n <= 1_000_000
    ensures FromStart(ss, ls) && ss[|ls|].Sized() && Stuck(ss[|ls|], 0) && SelfCheckFails(ss[|ls|])
  {
    var ok := (l: Label) => true;
    var s := Passes(ok, WORD - n);
    var s1 := FallsAsleep(s, ok, n);
    Join(Init(false, 0), ok, s, s1);
    ss, ls :| Leads(Init(false, 0), ss, ls, s1) && AllOk(ok, ls);
  }
}
