/** Stretches of scheduler runs, named after what they do, to build runs from. */
module Runs {
  import opened Queues
  import opened Scheduler
  import opened Safety

  ghost predicate LinkAt(ss: seq<State>, ls: seq<Label>, i: nat)
    requires i < |ls| < |ss|
  {
    ss[i].Sized() && Enabled(ss[i], ls[i]) && ss[i + 1] == Do(ss[i], ls[i])
  }

  /** The labels `ls` lead through the states `ss`. */
  ghost predicate Path(ss: seq<State>, ls: seq<Label>) {
    |ss| == |ls| + 1 && forall i {:trigger LinkAt(ss, ls, i)} :: 0 <= i < |ls| ==> LinkAt(ss, ls, i)
  }

  ghost predicate Leads(s: State, ss: seq<State>, ls: seq<Label>, s1: State) {
    Path(ss, ls) && ss[0] == s && ss[|ls|] == s1
  }

  /** The same from start-up. */
  ghost predicate FromStart(ss: seq<State>, ls: seq<Label>) {
    Path(ss, ls) && exists idle: bool, r: nat :: ss[0] == Init(idle, r)
  }

  lemma {:induction false} PathInv(ss: seq<State>, ls: seq<Label>, i: nat) returns (o: int)
    requires FromStart(ss, ls) && i < |ss|
    ensures Inv(ss[i], o)
  {
    if i == 0 {
      var idle: bool, r: nat :| ss[0] == Init(idle, r);
      InitInv(idle, r);
      o := MAIN;
    } else {
      o := PathInv(ss, ls, i - 1);
      assert LinkAt(ss, ls, i - 1);
      o := LinkInv(ss[i - 1], o, ls[i - 1], ss[i]);
    }
  }

  lemma LinkInv(s: State, o: int, l: Label, s1: State) returns (o1: int)
    requires Inv(s, o) && Enabled(s, l) && s1 == Do(s, l)
    ensures Inv(s1, o1)
  {
    StepInv(s, o, l);
    o1 := NextOwner(s, l, o);
  }

  lemma {:induction false} PathGrows(ss: seq<State>, ls: seq<Label>, i: nat, j: nat)
    requires Path(ss, ls) && i <= j < |ss|
    ensures |ss[i].pc| <= |ss[j].pc|
  {
    if i < j {
      PathGrows(ss, ls, i, j - 1);
      assert LinkAt(ss, ls, j - 1);
      DoSized(ss[j - 1], ls[j - 1]);
    }
  }

  predicate AllOk(ok: Label -> bool, ls: seq<Label>) {
    forall i :: 0 <= i < |ls| ==> ok(ls[i])
  }

  /** Steps that are all `ok` lead from `s` to `s1`. */
  ghost predicate Reaches(s: State, ok: Label -> bool, s1: State) {
    exists ss: seq<State>, ls: seq<Label> :: Leads(s, ss, ls, s1) && AllOk(ok, ls)
  }

  lemma Join(s: State, ok: Label -> bool, s1: State, s2: State)
    requires Reaches(s, ok, s1) && Reaches(s1, ok, s2)
    ensures Reaches(s, ok, s2)
  {
    var ss: seq<State>, ls: seq<Label> :| Leads(s, ss, ls, s1) && AllOk(ok, ls);
    var rs: seq<State>, ms: seq<Label> :| Leads(s1, rs, ms, s2) && AllOk(ok, ms);
    var n := |ls|;
    var ts, ks := ss[..n] + rs, ls + ms;
    forall i | 0 <= i < |ks| ensures LinkAt(ts, ks, i) {
      assert i < n ==> LinkAt(ss, ls, i);
      assert i >= n ==> LinkAt(rs, ms, i - n);
    }
    assert Leads(s, ts, ks, s2);
  }

  lemma One(s: State, ok: Label -> bool, l: Label)
    requires s.Sized() && Enabled(s, l) && ok(l)
    ensures Reaches(s, ok, Do(s, l))
  {
    var ss, ls := [s, Do(s, l)], [l];
    assert LinkAt(ss, ls, 0);
    assert Leads(s, ss, ls, Do(s, l)) && AllOk(ok, ls);
  }

  lemma OneSee(s: State, ok: Label -> bool, t: nat)
    requires ok(SeeFlag(t))
    requires s.Sized() && t < |s.pc| && (s.pc[t].User? || s.pc[t].InWait?) && s.waits[t].wakenUp
    ensures Reaches(s, ok, SawFlag(s, t))
  {
    One(s, ok, SeeFlag(t));
  }

  lemma OneTake(s: State, ok: Label -> bool, t: nat)
    requires ok(TakeTurn(t))
    requires s.Sized() && t < |s.pc| && s.pc[t].Saw?
    ensures Reaches(s, ok, TookTurn(s, t))
  {
    One(s, ok, TakeTurn(t));
  }

  lemma OneTick(s: State, ok: Label -> bool, t: nat, k: Then)
    requires ok(Tick(t, k))
    requires s.Sized() && t < |s.pc| && CanTick(s, t, k)
    ensures Reaches(s, ok, Ticked(s, t, k))
  {
    One(s, ok, Tick(t, k));
  }

  lemma OneRead(s: State, ok: Label -> bool, t: nat)
    requires ok(ReadFlag(t))
    requires s.Sized() && t < |s.pc| && s.pc[t].Checking? && !s.flag
    ensures Reaches(s, ok, SetPc(s, t, Continue(s.pc[t].k)))
  {
    One(s, ok, ReadFlag(t));
  }

  lemma OnePark(s: State, ok: Label -> bool, t: nat)
    requires ok(Park(t))
    requires s.Sized() && t < |s.pc| && s.pc[t].Parking?
    ensures Reaches(s, ok, Parked(s, t))
  {
    One(s, ok, Park(t));
  }

  lemma OnePut(s: State, ok: Label -> bool, t: nat, st: Strategy)
    requires ok(Put(t, st))
    requires s.Sized() && t < |s.pc| && s.pc[t] == Work(true)
    ensures Reaches(s, ok, PutTurn(s, t, st))
  {
    One(s, ok, Put(t, st));
  }

  /** The head is runnable and the scan takes it. */
  lemma OneScan(s: State, ok: Label -> bool, t: nat, u: nat)
    requires ok(Scan(t))
    requires s.Sized() && t < |s.pc| && s.pc[t].Scanning? && !s.pc[t].strategy.CurrentRole?
    requires s.runq != [] && s.runq[0] == u && u < |s.pc| && !s.status[u].InterProStop?
    ensures Reaches(s, ok, SetPc(s, t, Posting(u, s.pc[t].after)).(
      status := if s.status[u].Runnable? then s.status[u := RunningReg] else s.status))
  {
    One(s, ok, Scan(t));
  }

  lemma OnePost(s: State, ok: Label -> bool, t: nat)
    requires ok(Post(t))
    requires s.Sized() && t < |s.pc| && s.pc[t].Posting? && s.pc[t].target < |s.pc|
    ensures Reaches(s, ok, Posted(s, t))
  {
    One(s, ok, Post(t));
  }

  /** getTurn of a thread whose flag is set. */
  lemma Getting(s: State, ok: Label -> bool, t: nat)
    requires ok(SeeFlag(t)) && ok(TakeTurn(t))
    requires s.Sized() && t < |s.pc| && (s.pc[t].User? || s.pc[t].InWait?) && s.waits[t].wakenUp
    ensures Reaches(s, ok, s.(pc := s.pc[t := Work(false)],
                              waits := s.waits[t := s.waits[t].(wakenUp := false)]))
  {
    OneSee(s, ok, t);
    var s1 := SawFlag(s, t);
    OneTake(s1, ok, t);
    assert TookTurn(s1, t).pc == s.pc[t := Work(false)];
    Join(s, ok, s1, TookTurn(s1, t));
  }

  /** incTurnCount when nobody is registered; `s1` is the state after its timeouts. */
  lemma Ticking(s: State, ok: Label -> bool, t: nat, s1: State)
    requires ok(Tick(t, ThenWork)) && ok(ReadFlag(t))
    requires s.Sized() && t < |s.pc| && s.pc[t].Work? && !s.flag
    requires s1 == Release(Clock(s, t), Expired(Clock(s, t)), TimedOut)
    ensures Reaches(s, ok, SetPc(s1, t, Work(true)))
  {
    OneTick(s, ok, t, ThenWork);
    var s2 := SetPc(s1, t, Checking(ThenWork));
    assert s2 == Ticked(s, t, ThenWork);
    OneRead(s2, ok, t);
    assert s2.pc[t := Work(true)] == s1.pc[t := Work(true)];
    Join(s, ok, s2, SetPc(s1, t, Work(true)));
  }

  /** A clock tick that times nobody out changes nothing else. */
  lemma NobodyLate(s: State)
    requires s.Sized() && Expired(s) == {}
    ensures Release(s, Expired(s), TimedOut) == s
  {
    KeepNothing(s.waitq, {});
    assert ResetAll(s.waits, {}, TimedOut) == s.waits && s.runq + [] == s.runq;
  }

  /** The end of next: the scan takes the head `u` and posts it. */
  lemma Passing(s: State, ok: Label -> bool, t: nat, st: Strategy, a: After, u: nat)
    requires ok(ReadFlag(t)) && ok(Scan(t)) && ok(Post(t))
    requires s.Sized() && t < |s.pc| && u < |s.pc| && !s.flag && !st.CurrentRole?
    requires s.pc[t] == Checking(ThenScan(st, a)) && s.runq != [] && s.runq[0] == u
    requires s.status[u].Runnable? || s.status[u].RunningReg?
    ensures Reaches(s, ok, s.(pc := s.pc[t := Landing(a)], status := s.status[u := RunningReg],
                              waits := s.waits[u := s.waits[u].(wakenUp := true)]))
  {
    OneRead(s, ok, t);
    var s1 := SetPc(s, t, Scanning(st, a));
    OneScan(s1, ok, t, u);
    var s2 := SetPc(s1, t, Posting(u, a)).(status := s.status[u := RunningReg]);
    assert s.status[u].RunningReg? ==> s.status[u := RunningReg] == s.status;
    Join(s, ok, s1, s2);
    OnePost(s2, ok, t);
    assert Posted(s2, t).pc == s.pc[t := Landing(a)];
    Join(s, ok, s2, Posted(s2, t));
  }

  /** idle_cond_wait: tryPutTurn marks the runnable thread behind the idle thread. */
  lemma Marking(s: State, ok: Label -> bool, t: nat, u: nat)
    requires ok(StartTry(t)) && ok(TryMark(t))
    requires s.Sized() && t < |s.pc| && u < |s.pc| && s.pc[t] == Work(true) && s.IsIdle(t)
    requires |s.runq| >= 2 && s.runq[1] == u && s.status[u].Runnable?
    ensures Reaches(s, ok, s.(pc := s.pc[t := Parking(IdleCond, FOREVER)], status := s.status[u := RunningReg]))
  {
    One(s, ok, StartTry(t));
    var s1 := SetPc(s, t, Trying(1));
    One(s1, ok, TryMark(t));
    assert TryOne(s1, t).pc == s.pc[t := Parking(IdleCond, FOREVER)];
    Join(s, ok, s1, TryOne(s1, t));
  }

  /** putTurn; `u` is at the head of the queue it leaves. */
  lemma Putting(s: State, ok: Label -> bool, t: nat, st: Strategy, u: nat)
    requires ok(Put(t, st)) && ok(ReadFlag(t)) && ok(Scan(t)) && ok(Post(t))
    requires s.Sized() && t < |s.pc| && u < |s.pc| && !s.flag && !st.CurrentRole? && s.pc[t] == Work(true)
    requires PutTurn(s, t, st).runq != [] && PutTurn(s, t, st).runq[0] == u
    requires PutTurn(s, t, st).status[u].Runnable?
    ensures Reaches(s, ok, PutTurn(s, t, st).(
      pc := s.pc[t := User], status := s.status[t := Runnable][u := RunningReg],
      waits := s.waits[u := s.waits[u].(wakenUp := true)]))
  {
    OnePut(s, ok, t, st);
    var s1 := PutTurn(s, t, st);
    Passing(s1, ok, t, st, ToUser, u);
    var s2 := s1.(pc := s.pc[t := User], status := s1.status[u := RunningReg],
                  waits := s.waits[u := s.waits[u].(wakenUp := true)]);
    assert s1.pc[t := User] == s.pc[t := User];
    Join(s, ok, s1, s2);
  }

  /** wait, from its wait record on; `u` is next in the queue. */
  lemma StartWait(s: State, ok: Label -> bool, t: nat, c: Chan, d: nat, u: nat)
    requires ok(Park(t)) && ok(ReadFlag(t)) && ok(Scan(t)) && ok(Post(t))
    requires s.Sized() && t < |s.pc| && u < |s.pc| && !s.flag && s.pc[t] == Parking(c, d) && u != t
    requires |s.runq| >= 2 && s.runq[1] == u && (s.status[u].Runnable? || s.status[u].RunningReg?)
    requires s.status[t].RunningReg?
    ensures Reaches(s, ok, s.(
      pc := s.pc[t := InWait], status := s.status[t := Runnable][u := RunningReg],
      runq := PopFront(s.runq), waitq := s.waitq + [t],
      waits := s.waits[t := s.waits[t].(chan := c, timeout := d)][u := s.waits[u].(wakenUp := true)]))
  {
    OnePark(s, ok, t);
    var s1 := Parked(s, t);
    Passing(s1, ok, t, RoundRobin, ToWait, u);
    var s2 := s1.(pc := s.pc[t := InWait], status := s1.status[u := RunningReg],
                  waits := s1.waits[u := s1.waits[u].(wakenUp := true)]);
    assert s1.pc[t := InWait] == s.pc[t := InWait];
    Join(s, ok, s1, s2);
  }

  // Whole operations ------------------------------------------------------------------------------

  /** A tick that times nobody out. */
  lemma QuietTick(s: State, ok: Label -> bool, t: nat)
    requires ok(Tick(t, ThenWork)) && ok(ReadFlag(t))
    requires s.Sized() && t < |s.pc| && s.pc[t].Work? && !s.flag && Expired(Clock(s, t)) == {}
    ensures Reaches(s, ok, Clock(s, t).(pc := s.pc[t := Work(true)]))
  {
    NobodyLate(Clock(s, t));
    Ticking(s, ok, t, Clock(s, t));
  }

  ghost predicate TurnLabels(ok: Label -> bool, t: nat, st: Strategy) {
    ok(Tick(t, ThenWork)) && ok(ReadFlag(t)) && ok(Put(t, st)) && ok(Scan(t)) && ok(Post(t))
  }

  /** The rest of an operation that hands the turn to `u`. */
  lemma HandOver(s: State, ok: Label -> bool, t: nat, st: Strategy, u: nat, s1: State)
    requires TurnLabels(ok, t, st) && !st.CurrentRole?
    requires s.Sized() && t < |s.pc| && u < |s.pc| && s.pc[t].Work? && !s.flag && Expired(Clock(s, t)) == {}
    requires s1 == PutTurn(s, t, st) && s1.runq != [] && s1.runq[0] == u && s1.status[u].Runnable?
    ensures Reaches(s, ok, Clock(s, t).(
      runq := s1.runq, pc := s.pc[t := User], status := s.status[t := Runnable][u := RunningReg],
      waits := s.waits[u := s.waits[u].(wakenUp := true)]))
  {
    QuietTick(s, ok, t);
    var s2 := Clock(s, t).(pc := s.pc[t := Work(true)]);
    Putting(s2, ok, t, st, u);
    var s3 := Clock(s, t).(
      runq := s1.runq, pc := s.pc[t := User], status := s.status[t := Runnable][u := RunningReg],
      waits := s.waits[u := s.waits[u].(wakenUp := true)]);
    assert s2.pc[t := User] == s3.pc;
    Join(s, ok, s2, s3);
  }

  /** The rest of an operation and the getTurn of the thread that gets the turn. */
  lemma NextTurn(s: State, ok: Label -> bool, t: nat, st: Strategy, u: nat, s1: State, s2: State)
    requires TurnLabels(ok, t, st) && !st.CurrentRole? && ok(SeeFlag(u)) && ok(TakeTurn(u))
    requires s.Sized() && t < |s.pc| && u < |s.pc| && s.pc[t].Work? && !s.flag && Expired(Clock(s, t)) == {}
    requires s1 == PutTurn(s, t, st) && s1.runq != [] && s1.runq[0] == u && s1.status[u].Runnable?
    requires t == u || s.pc[u].User? || s.pc[u].InWait?
    requires !s.waits[u].wakenUp
    requires s2 == Clock(s, t).(
      runq := s1.runq, pc := s.pc[t := User][u := Work(false)], status := s.status[t := Runnable][u := RunningReg])
    ensures Reaches(s, ok, s2)
  {
    HandOver(s, ok, t, st, u, s1);
    var s3 := Clock(s, t).(
      runq := s1.runq, pc := s.pc[t := User], status := s.status[t := Runnable][u := RunningReg],
      waits := s.waits[u := s.waits[u].(wakenUp := true)]);
    Getting(s3, ok, u);
    assert s3.waits[u := s3.waits[u].(wakenUp := false)] == s.waits;
    Join(s, ok, s3, s2);
  }

  /** The rest of an operation that keeps the turn, and getTurn of the next one. */
  lemma SameTurn(s: State, ok: Label -> bool, t: nat)
    requires TurnLabels(ok, t, CurrentThread) && ok(SeeFlag(t)) && ok(TakeTurn(t))
    requires s.Sized() && t < |s.pc| && s.pc[t].Work? && s.runq != [] && s.runq[0] == t
    requires s.waitq == [] && !s.flag && s.status[t].RunningReg? && !s.waits[t].wakenUp
    ensures Reaches(s, ok, Clock(s, t).(pc := s.pc[t := Work(false)]))
  {
    var s1 := Clock(s, t).(pc := s.pc[t := Work(false)]);
    assert s.pc[t := User][t := Work(false)] == s1.pc;
    assert s.status[t := Runnable][t := RunningReg] == s.status;
    NextTurn(s, ok, t, CurrentThread, t, PutTurn(s, t, CurrentThread), s1);
  }

  /** The idle thread finds a runnable thread `u` behind it, marks it, and waits. */
  lemma IdleWaits(s: State, ok: Label -> bool, t: nat, u: nat)
    requires ok(StartTry(t)) && ok(TryMark(t)) && ok(Park(t)) && ok(ReadFlag(t)) && ok(Scan(t)) && ok(Post(t))
    requires s.Sized() && t < |s.pc| && u < |s.pc| && s.pc[t] == Work(true) && s.IsIdle(t) && !s.flag
    requires s.runq == [t, u] && t != u && s.status[u].Runnable? && s.status[t].RunningReg? && s.waitq == []
    ensures Reaches(s, ok, s.(
      pc := s.pc[t := InWait], status := s.status[t := Runnable][u := RunningReg],
      runq := [u], waitq := [t],
      waits := s.waits[t := s.waits[t].(chan := IdleCond, timeout := FOREVER)][u := s.waits[u].(wakenUp := true)]))
  {
    Marking(s, ok, t, u);
    var s1 := s.(pc := s.pc[t := Parking(IdleCond, FOREVER)], status := s.status[u := RunningReg]);
    StartWait(s1, ok, t, IdleCond, FOREVER, u);
    var s2 := s.(
      pc := s.pc[t := InWait], status := s.status[t := Runnable][u := RunningReg],
      runq := [u], waitq := [t],
      waits := s.waits[t := s.waits[t].(chan := IdleCond, timeout := FOREVER)][u := s.waits[u].(wakenUp := true)]);
    assert s1.pc[t := InWait] == s2.pc && s1.status[t := Runnable][u := RunningReg] == s2.status;
    assert PopFront(s1.runq) == [u] && s1.waitq + [t] == [t];
    Join(s, ok, s1, s2);
  }

  /** The wait record of a thread that waits for nothing. */
  const CALM: Wait := Wait(Null, FOREVER, Signalled, false)

  /** The main thread, with its first turn, creates a second thread. */
  lemma SpawnFirst(idle: bool)
    ensures Spawned(TookTurn(SawFlag(Init(idle, 0), 0), 0), 0) ==
      State([0, 1], [], [CALM, CALM], [RunningReg, Runnable], [Work(false), User],
            [0, 0], {}, false, 0, [], idle)
  {
    var s := Spawned(TookTurn(SawFlag(Init(idle, 0), 0), 0), 0);
    assert s.runq == [0, 1] && s.pc == [Work(false), User] && s.waits == [CALM, CALM];
    assert s.status == [RunningReg, Runnable] && s.role == [0, 0];
  }
}
