/** The scheduler object: its queues, wait records and statuses, updated in place by the
    loops of nextTimeout, fireTimeouts, signal, check_wakeup, nextRunnable and tryPutTurn.
    Each method is proved against the step function that the interleaved model uses. */
module RRSchedulerObject {
  import opened Queues
  import opened Scheduler

  ghost predicate QueuesFit(s: State) {
    && s.Sized() && NoDup(s.waitq) && NoDup(s.runq)
    && (forall t :: t in s.waitq ==> t < |s.waits| && t !in s.runq)
    && (forall i :: 0 <= i < |s.runq| ==> s.runq[i] < |s.waits|)
  }

  lemma ReleaseFits(s: State, m: set<nat>, r: Reason)
    requires QueuesFit(s)
    ensures QueuesFit(Release(s, m, r))
  {
    KeepMembers(s.waitq, m);
    WithoutMembers(s.waitq, m);
    KeepNoDup(s.waitq, m);
    WithoutNoDup(s.waitq, m);
    AppendNoDup(s.runq, Keep(s.waitq, m));
    forall i | 0 <= i < |Keep(s.waitq, m)| ensures Keep(s.waitq, m)[i] < |s.waits| {
      assert Keep(s.waitq, m)[i] in Keep(s.waitq, m);
    }
  }

  /** A sweep over the wait queue has dealt with `done`: those of `done` in `m` are released. */
  ghost predicate Swept(s0: State, m: set<nat>, r: Reason, done: seq<nat>, rest: seq<nat>, v: State) {
    && s0.waitq == done + rest
    && v == s0.(runq := s0.runq + Keep(done, m), waitq := Without(done, m) + rest,
                waits := ResetAll(s0.waits, m * Elems(done), r))
  }

  lemma SweepStart(s0: State, m: set<nat>, r: Reason)
    ensures Swept(s0, m, r, [], s0.waitq, s0)
  {
    assert ResetAll(s0.waits, m * Elems([]), r) == s0.waits;
    assert [] + s0.waitq == s0.waitq && s0.runq + [] == s0.runq;
  }

  /** The element at the cursor still has the wait record it had when the sweep began. */
  lemma SweepReads(s0: State, m: set<nat>, r: Reason, done: seq<nat>, x: nat, rest: seq<nat>, v: State)
    requires QueuesFit(s0) && Swept(s0, m, r, done, [x] + rest, v)
    ensures x in s0.waitq && x !in done && x < |v.waits| && v.waits[x] == s0.waits[x]
  {
    NoDupSplit(done, [x] + rest);
    assert x == ([x] + rest)[0] && x == s0.waitq[|done|];
  }

  lemma ResetOne(w: seq<Wait>, d: set<nat>, x: nat, r: Reason)
    requires x < |w|
    ensures ResetAll(w, d + {x}, r) == ResetAll(w, d, r)[x := Reset(w[x], r)]
  {
  }

  /** The sweep moves the element at the cursor. */
  lemma SweepMove(s0: State, m: set<nat>, r: Reason, done: seq<nat>, x: nat, rest: seq<nat>, v: State)
    requires Swept(s0, m, r, done, [x] + rest, v) && x in m
    requires x !in done && x < |v.waits| && v.waits[x] == s0.waits[x]
    ensures Swept(s0, m, r, done + [x], rest,
                  v.(runq := v.runq + [x], waitq := Without(done, m) + rest,
                     waits := v.waits[x := Reset(v.waits[x], r)]))
    ensures Without(done + [x], m) == Without(done, m) && Keep(done + [x], m) == Keep(done, m) + [x]
  {
    SelectSnoc(done, x, m);
    SweepResets(s0.waits, m, done, x, r);
    Regroup(done, [x], rest);
    Regroup(s0.runq, Keep(done, m), [x]);
  }

  lemma Regroup(a: seq<nat>, b: seq<nat>, c: seq<nat>)
    ensures a + (b + c) == a + b + c
  {
  }

  lemma SweepResets(w: seq<Wait>, m: set<nat>, done: seq<nat>, x: nat, r: Reason)
    requires x in m && x < |w|
    ensures ResetAll(w, m * Elems(done + [x]), r) == ResetAll(w, m * Elems(done), r)[x := Reset(w[x], r)]
  {
    ElemsSnoc(done, x);
    assert m * Elems(done + [x]) == m * Elems(done) + {x};
    ResetOne(w, m * Elems(done), x, r);
  }

  /** The sweep leaves the element at the cursor behind. */
  lemma SweepStay(s0: State, m: set<nat>, r: Reason, done: seq<nat>, x: nat, rest: seq<nat>, v: State)
    requires Swept(s0, m, r, done, [x] + rest, v) && x !in m
    ensures Swept(s0, m, r, done + [x], rest, v)
    ensures Without(done + [x], m) == Without(done, m) + [x] && Keep(done + [x], m) == Keep(done, m)
  {
    SelectSnoc(done, x, m);
    ElemsSnoc(done, x);
    assert done + ([x] + rest) == done + [x] + rest;
    assert m * Elems(done + [x]) == m * Elems(done);
    assert Without(done, m) + ([x] + rest) == Without(done, m) + [x] + rest;
  }

  /** A sweep that has passed every member of `m` has released them all. */
  lemma SweepEnd(s0: State, m: set<nat>, r: Reason, done: seq<nat>, rest: seq<nat>, v: State)
    requires QueuesFit(s0) && Swept(s0, m, r, done, rest, v) && forall x :: x in m ==> x in done
    ensures v == Release(s0, m, r) && QueuesFit(v)
    ensures Keep(done, m) == Keep(s0.waitq, m)
  {
    NoDupSplit(done, rest);
    KeepNothing(rest, m);
    WithoutAppend(done, rest, m);
    assert m * Elems(done) == m;
    ReleaseFits(s0, m, r);
  }

  ghost predicate NoneOn(s: State, c: Chan, q: seq<nat>)
    requires s.Sized()
  {
    forall t :: t in q ==> t !in OnChan(s, c)
  }

  /** Whether signal picks the element at the cursor. */
  lemma SignalPicks(s: State, c: Chan, all: bool, done: seq<nat>, x: nat, rest: seq<nat>)
    requires s.Sized() && s.waitq == done + ([x] + rest) && x < |s.waits|
    requires !all ==> NoneOn(s, c, done)
    ensures x in SignalSet(s, c, all) <==> s.waits[x].chan == c
    ensures !all && s.waits[x].chan == c ==> SignalSet(s, c, all) <= Elems(done + [x])
    ensures !all && s.waits[x].chan != c ==> NoneOn(s, c, done + [x])
  {
    assert s.waitq == done + [x] + rest && x in [x] + rest;
    KeepMembers(s.waitq, OnChan(s, c));
    if s.waits[x].chan == c {
      if !all { SelectFirst(done, x, rest, OnChan(s, c)); }
    } else {
      SignalOn(s, c, all);
    }
  }

  lemma SignalSetQueued(s: State, c: Chan, all: bool, done: seq<nat>)
    requires s.Sized() && s.waitq == done + []
    ensures SignalSet(s, c, all) <= Elems(done)
  {
    assert done + [] == done;
    SignalOn(s, c, all);
  }

  lemma MergeFits(s: State, order: seq<nat>)
    requires QueuesFit(s) && Enumerates(order, s.registered)
    requires forall t :: t in s.registered ==> t < |s.waits| && t !in s.waitq
    ensures QueuesFit(s.(runq := s.runq + Without(order, Elems(s.runq)), registered := {}, flag := false))
  {
    var add := Without(order, Elems(s.runq));
    EnumerationNoDup(order, s.registered);
    WithoutMembers(order, Elems(s.runq));
    WithoutNoDup(order, Elems(s.runq));
    AppendNoDup(s.runq, add);
    forall i | 0 <= i < |add| ensures add[i] < |s.waits| {
      assert add[i] in add && add[i] in Elems(order);
    }
    forall t | t in s.waitq ensures t !in add {
      assert t in order ==> t in Elems(order);
    }
  }

  /** check_wakeup deals with one more registered thread. */
  lemma WalkStep(q: seq<nat>, order: seq<nat>, t: nat, walked: set<nat>)
    requires Enumerates(order, walked) && t !in walked
    ensures Enumerates(order + [t], walked + {t})
    ensures var now := q + Without(order, Elems(q));
      && (t in now <==> t in q)
      && q + Without(order + [t], Elems(q)) == if t in q then now else now + [t]
  {
    WithoutMembers(order, Elems(q));
    SelectSnoc(order, t, Elems(q));
    ElemsSnoc(order, t);
    assert t in order <==> t in Elems(order);
  }

  class RRScheduler {
    var runq: seq<nat>
    var waitq: seq<nat>
    var waits: seq<Wait>
    var status: seq<Status>
    var role: seq<nat>
    var registered: set<nat>
    var flag: bool
    var turn: nat
    var log: seq<(nat, nat)>
    const idle: bool
    ghost var pc: seq<Pc>

    ghost function View(): State
      reads this
    {
      State(runq, waitq, waits, status, pc, role, registered, flag, turn, log, idle)
    }

    /** Tables aligned, queues duplicate-free, disjoint and within range. */
    ghost predicate Valid()
      reads this
    {
      QueuesFit(View())
    }

    constructor (idle: bool, mainRole: nat)
      ensures View() == Init(idle, mainRole) && Valid()
    {
      runq, waitq, role := [MAIN], [], [mainRole];
      waits, status := [Wait(Null, FOREVER, Signalled, true)], [RunningReg];
      registered, flag, turn, log := {}, false, 0, [];
      this.idle := idle;
      pc := [User];
    }

    /** The least deadline on the wait queue, FOREVER when there is none. */
    method NextTimeout() returns (next: nat)
      requires Valid()
      ensures forall t :: t in waitq ==> next <= waits[t].timeout
      ensures next <= FOREVER
      ensures next < FOREVER ==> exists t :: t in waitq && waits[t].timeout == next
    {
      next := FOREVER;
      var rest := waitq;
      while rest != []
        invariant forall t :: t in rest ==> t in waitq
        invariant forall t :: t in waitq && t !in rest ==> next <= waits[t].timeout
        invariant next <= FOREVER
        invariant next < FOREVER ==> exists t :: t in waitq && waits[t].timeout == next
      {
        var tid := rest[0];
        assert tid in rest && forall t :: t in rest <==> t == tid || t in rest[1..];
        rest := rest[1..];
        if waits[tid].timeout < next {
          next := waits[tid].timeout;
        }
      }
    }

    /** Reset the waiter at the cursor, erase it from the wait queue, append it to the run queue. */
    method MoveOut(kept: seq<nat>, tid: nat, rest: seq<nat>, r: Reason)
      requires tid < |waits|
      modifies `runq, `waitq, `waits
      ensures View() == old(View()).(runq := old(runq) + [tid], waitq := kept + rest,
                                     waits := old(waits)[tid := Reset(old(waits)[tid], r)])
    {
      waits := waits[tid := Reset(waits[tid], r)];
      waitq := kept + rest;
      runq := runq + [tid];
    }

    /** Move every waiter whose deadline has passed, in queue order. */
    method FireTimeouts() returns (timedout: nat)
      requires Valid()
      modifies `runq, `waitq, `waits
      ensures View() == Release(old(View()), Expired(old(View())), TimedOut)
      ensures timedout == |Keep(old(waitq), Expired(old(View())))|
      ensures Valid()
    {
      ghost var s0 := View();
      ghost var m, done: seq<nat> := Expired(s0), [];
      var kept: seq<nat>, rest := [], waitq;        // the wait queue before and after the cursor
      timedout := 0;
      SweepStart(s0, m, TimedOut);
      while rest != []
        invariant Swept(s0, m, TimedOut, done, rest, View())
        invariant kept == Without(done, m) && timedout == |Keep(done, m)|
      {
        var tid := rest[0];
        assert rest == [tid] + rest[1..];
        SweepReads(s0, m, TimedOut, done, tid, rest[1..], View());
        if waits[tid].timeout < turn {
          SweepMove(s0, m, TimedOut, done, tid, rest[1..], View());
          done, rest := done + [tid], rest[1..];
          MoveOut(kept, tid, rest, TimedOut);
          timedout := timedout + 1;
        } else {
          SweepStay(s0, m, TimedOut, done, tid, rest[1..], View());
          done, rest := done + [tid], rest[1..];
          kept := kept + [tid];
        }
      }
      SweepEnd(s0, m, TimedOut, done, rest, View());
    }

    /** One step of signal's walk: the waiter at the cursor moves out or stays. */
    method SweepOne(hit: bool, kept: seq<nat>, tid: nat, after: seq<nat>, r: Reason,
                    ghost s0: State, ghost m: set<nat>, ghost done: seq<nat>)
      returns (kept1: seq<nat>)
      requires QueuesFit(s0) && Swept(s0, m, r, done, [tid] + after, View())
      requires kept == Without(done, m) && (hit <==> tid in m)
      modifies `runq, `waitq, `waits
      ensures Swept(s0, m, r, done + [tid], after, View())
      ensures kept1 == Without(done + [tid], m)
    {
      SweepReads(s0, m, r, done, tid, after, View());
      if hit {
        SweepMove(s0, m, r, done, tid, after, View());
        MoveOut(kept, tid, after, r);
        kept1 := kept;
      } else {
        SweepStay(s0, m, r, done, tid, after, View());
        kept1 := kept + [tid];
      }
    }

    method SignalAt(chan: Chan, all: bool, kept: seq<nat>, tid: nat, after: seq<nat>,
                    ghost s0: State, ghost m: set<nat>, ghost done: seq<nat>)
      returns (hit: bool, kept1: seq<nat>)
      requires QueuesFit(s0) && Swept(s0, m, Signalled, done, [tid] + after, View())
      requires kept == Without(done, m) && m == SignalSet(s0, chan, all)
      requires !all ==> NoneOn(s0, chan, done)
      modifies `runq, `waitq, `waits
      ensures Swept(s0, m, Signalled, done + [tid], after, View())
      ensures kept1 == Without(done + [tid], m)
      ensures !all && !hit ==> NoneOn(s0, chan, done + [tid])
      ensures !all && hit ==> m <= Elems(done + [tid])
    {
      SweepReads(s0, m, Signalled, done, tid, after, View());
      SignalPicks(s0, chan, all, done, tid, after);
      hit := waits[tid].chan == chan;
      kept1 := SweepOne(hit, kept, tid, after, Signalled, s0, m, done);
    }

    /** Wake the first waiter on the channel, or all of them. */
    method Signal(chan: Chan, all: bool)
      requires Valid() && !chan.Null?
      modifies `runq, `waitq, `waits
      ensures View() == Signal1(old(View()), chan, all)
      ensures Valid()
    {
      ghost var s0 := View();
      ghost var m, done: seq<nat> := SignalSet(s0, chan, all), [];
      var kept: seq<nat>, rest: seq<nat> := [], waitq;        // the wait queue before and after the cursor
      SweepStart(s0, m, Signalled);
      while rest != []
        invariant Swept(s0, m, Signalled, done, rest, View())
        invariant kept == Without(done, m)
        invariant !all ==> NoneOn(s0, chan, done)
      {
        var tid := rest[0];
        var after: seq<nat> := rest[1..];
        assert rest == [tid] + after;
        var hit;
        hit, kept := SignalAt(chan, all, kept, tid, after, s0, m, done);
        done, rest := done + [tid], after;
        if hit && !all {
          SweepEnd(s0, m, Signalled, done, rest, View());
          return;
        }
      }
      SignalSetQueued(s0, chan, all, done);
      SweepEnd(s0, m, Signalled, done, rest, View());
    }

    /** incTurnCount up to its call of check_wakeup. */
    method IncTurnCount(self: nat) returns (ret: nat)
      requires Valid()
      modifies `runq, `waitq, `waits, `turn, `log
      ensures View() == var s1 := Clock(old(View()), self); Release(s1, Expired(s1), TimedOut)
      ensures ret == old(turn) && log == old(log) + [(self, ret)]
      ensures Valid()
    {
      ret := turn;
      turn := (turn + 1) % WORD;
      log := log + [(self, ret)];
      assert View() == Clock(old(View()), self);
      var timedout := FireTimeouts();
    }

    /** Registered threads outside the run queue join it, in an unspecified order. */
    method CheckWakeup() returns (ghost order: seq<nat>)
      requires Valid() && (flag <==> registered != {})
      requires forall t :: t in registered ==> t < |waits| && t !in waitq
      modifies `runq, `registered, `flag
      ensures Enumerates(order, old(registered))
      ensures View() == old(View()).(runq := old(runq) + Without(order, Elems(old(runq))),
                                     registered := {}, flag := false)
      ensures Valid()
    {
      order := [];
      if flag {
        var todo := registered;
        ghost var walked: set<nat> := {};
        while todo != {}
          invariant registered == old(registered) && walked + todo == registered && walked !! todo
          invariant Enumerates(order, walked)
          invariant runq == old(runq) + Without(order, Elems(old(runq)))
        {
          var t :| t in todo;
          WalkStep(old(runq), order, t, walked);
          if t !in runq {
            runq := runq + [t];
          }
          order, walked := order + [t], walked + {t};
          todo := todo - {t};
        }
        assert walked == registered;
        MergeFits(old(View()), order);
        registered, flag := {}, false;
      }
      assert registered == {};
    }

    /** nextRunnable with nobody interfering.  `k` is the place of the chosen head in the old
        queue: the first thread that is not stopped and, under the role strategy, has the
        caller's role.  The queue is then rotated to it, less the stopped threads passed over. */
    method NextRunnable(self: nat, strategy: Strategy, atEnd: bool) returns (next: Next, ghost k: nat)
      requires Valid() && self < |waits|
      requires strategy.CurrentRole? ==> self in runq && !status[self].InterProStop?
      requires IDLE in waitq ==> !status[IDLE].InterProStop?
      modifies `runq, `waitq, `waits, `status
      ensures k <= |old(runq)|
      ensures forall i :: 0 <= i < k ==> !Takes(old(View()), self, strategy, old(runq)[i])
      ensures k < |old(runq)| ==>
        && Takes(old(View()), self, strategy, old(runq)[k]) && next == Thread(old(runq)[k])
        && runq == old(runq)[k..] + Without(old(runq)[..k], Stopped(old(View())))
        && status == Raised(old(status), old(runq)[k])
        && unchanged(`waitq, `waits)
      ensures k == |old(runq)| ==>
        next == if atEnd && (old(waitq) == [] || self == MAIN) then NoThread
                else if idle && IDLE in old(waitq) then Thread(IDLE) else Abort
      ensures k == |old(runq)| && next.Thread? ==>
        runq == [IDLE] && waitq == Without(old(waitq), {IDLE}) && status == Raised(old(status), IDLE)
    {
      ghost var s0 := View();
      k := 0;
      while runq != []
        invariant View() == s0.(runq := runq) && Scanned(s0, self, strategy, k, runq)
        decreases |s0.runq| - k
      {
        ReachesSelf(s0, self, strategy, k, runq);
        ScanMove(s0, self, strategy, k, runq);
        var head := runq[0];
        if status[head].InterProStop? {
          runq := runq[1..];
        } else if strategy.CurrentRole? && role[self] != role[head] {
          runq := runq[1..] + [head];
        } else {
          if status[head].Runnable? {
            status := status[head := RunningReg];
          }
          return Thread(head), k;
        }
        k := k + 1;
      }
      next := NobodyRuns(self, atEnd);
    }

    /** nextRunnable on an empty run queue. */
    method NobodyRuns(self: nat, atEnd: bool) returns (next: Next)
      requires Valid() && runq == [] && self < |waits|
      requires IDLE in waitq ==> !status[IDLE].InterProStop?
      modifies `runq, `waitq, `waits, `status
      ensures next == if atEnd && (old(waitq) == [] || self == MAIN) then NoThread
                      else if idle && IDLE in old(waitq) then Thread(IDLE) else Abort
      ensures next.Thread? ==>
        runq == [IDLE] && waitq == Without(old(waitq), {IDLE}) && status == Raised(old(status), IDLE)
    {
      if atEnd && (waitq == [] || self == MAIN) {
        next := NoThread;
      } else if !idle || IDLE !in waitq {
        next := Abort;
      } else {
        WakeUpIdleThread();
        if status[IDLE].Runnable? {
          status := status[IDLE := RunningReg];
        }
        next := Thread(IDLE);
      }
    }

    method WakeUpIdleThread()
      requires Valid() && IDLE in waitq
      modifies `runq, `waitq, `waits
      ensures View() == Release(old(View()), {IDLE}, old(waits)[IDLE].reason)
      ensures runq == old(runq) + [IDLE]
    {
      var i := 0;
      while waitq[i] != IDLE
        invariant i < |waitq| && forall j :: 0 <= j < i ==> waitq[j] != IDLE
        decreases |waitq| - i
      {
        i := i + 1;
      }
      var before, after := waitq[..i], waitq[i + 1..];
      assert waitq == before + [IDLE] + after;
      NoDupSplit(before + [IDLE], after);
      SelectOne(before, IDLE, after, {IDLE});
      ResetOne(waits, {}, IDLE, waits[IDLE].reason);
      assert {} + {IDLE} == {IDLE} && ResetAll(waits, {}, waits[IDLE].reason) == waits;
      MoveOut(before, IDLE, after, waits[IDLE].reason);
    }

    /** Mark the first runnable thread behind the head; say whether there is one. */
    method TryPutTurn() returns (ok: bool, ghost k: nat)
      requires Valid() && runq != []
      modifies `status
      ensures 1 <= k <= |runq|
      ensures forall i :: 1 <= i < k ==> !old(status)[runq[i]].Runnable?
      ensures ok == (k < |runq|)
      ensures ok ==> old(status)[runq[k]].Runnable? && status == old(status)[runq[k] := RunningReg]
      ensures !ok ==> status == old(status)
    {
      var i := 1;
      while i < |runq|
        invariant 1 <= i <= |runq| && status == old(status)
        invariant forall j :: 1 <= j < i ==> !status[runq[j]].Runnable?
      {
        if status[runq[i]].Runnable? {
          status := status[runq[i] := RunningReg];
          return true, i;
        }
        i := i + 1;
      }
      ok, k := false, i;
    }
  }

  datatype Next = Thread(tid: nat) | NoThread | Abort

  /** nextRunnable stops at this head. */
  predicate Takes(s: State, self: nat, st: Strategy, h: nat)
    requires s.Sized() && self < |s.pc|
  {
    h < |s.pc| && !s.status[h].InterProStop? && (st.CurrentRole? ==> s.role[self] == s.role[h])
  }

  function Stopped(s: State): set<nat>
    requires s.Sized()
  {
    set t | t in s.runq && t < |s.pc| && s.status[t].InterProStop?
  }

  function Raised(st: seq<Status>, t: nat): seq<Status> {
    if t < |st| && st[t].Runnable? then st[t := RunningReg] else st
  }

  /** The scan has passed the first `k` threads of the queue: none of them takes the turn,
      and those that are not stopped stand at the back. */
  ghost predicate Scanned(s: State, self: nat, st: Strategy, k: nat, now: seq<nat>)
    requires s.Sized() && self < |s.pc|
  {
    && k <= |s.runq| && now == s.runq[k..] + Without(s.runq[..k], Stopped(s))
    && (forall i :: 0 <= i < k ==> !Takes(s, self, st, s.runq[i]))
    && (!st.CurrentRole? ==> Without(s.runq[..k], Stopped(s)) == [])
  }

  /** Under the role strategy the caller's own place is never passed. */
  lemma ReachesSelf(s: State, self: nat, st: Strategy, k: nat, now: seq<nat>)
    requires QueuesFit(s) && self < |s.pc| && Scanned(s, self, st, k, now) && now != []
    requires st.CurrentRole? ==> self in s.runq && !s.status[self].InterProStop?
    ensures k < |s.runq|
  {
    if st.CurrentRole? {
      var j :| 0 <= j < |s.runq| && s.runq[j] == self;
      assert Takes(s, self, st, s.runq[j]);
    }
  }

  /** The cursor moves one place. */
  lemma ScanSlices(q: seq<nat>, k: nat, m: set<nat>)
    requires k < |q|
    ensures var h := q[k]; var now := q[k..] + Without(q[..k], m);
      && now != [] && now[0] == h
      && (h in m ==> now[1..] == q[k + 1..] + Without(q[..k + 1], m)
                     && Without(q[..k + 1], m) == Without(q[..k], m))
      && (h !in m ==> now[1..] + [h] == q[k + 1..] + Without(q[..k + 1], m))
  {
    assert q[..k + 1] == q[..k] + [q[k]];
    SelectSnoc(q[..k], q[k], m);
  }

  /** One iteration of the scan. */
  lemma ScanMove(s: State, self: nat, st: Strategy, k: nat, now: seq<nat>)
    requires QueuesFit(s) && self < |s.pc| && Scanned(s, self, st, k, now) && now != []
    requires k < |s.runq|
    ensures now[0] == s.runq[k] && now[0] < |s.pc|
    ensures s.status[now[0]].InterProStop? ==> Scanned(s, self, st, k + 1, now[1..])
    ensures !s.status[now[0]].InterProStop? && st.CurrentRole? && s.role[self] != s.role[now[0]] ==>
      Scanned(s, self, st, k + 1, now[1..] + [now[0]])
  {
    ScanSlices(s.runq, k, Stopped(s));
    assert s.runq[k] in s.runq;
  }
}
