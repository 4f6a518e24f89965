/** Bounded waiting for the turn, and termination of nextRunnable under interference. */
module Fairness {
  import opened Queues
  import opened Scheduler
  import opened Safety
  import Phases

  /** The place of `t` in the queue. */
  ghost function Pos(q: seq<nat>, t: nat): (i: nat)
    requires t in q
    ensures i < |q| && q[i] == t
  {
    if q[0] == t then 0 else 1 + Pos(q[1..], t)
  }

  lemma {:induction false} PosAppend(p: seq<nat>, q: seq<nat>, t: nat)
    requires t in p
    ensures t in p + q && Pos(p + q, t) == Pos(p, t)
  {
    assert (p + q)[0] == p[0];
    if p[0] != t {
      assert (p + q)[1..] == p[1..] + q;
      PosAppend(p[1..], q, t);
    }
  }

  lemma PosPop(q: seq<nat>, t: nat)
    requires t in q && q[0] != t
    ensures t in PopFront(q) && Pos(PopFront(q), t) == Pos(q, t) - 1
  {
  }

  /** Only the token owner changes the run queue. */
  lemma FrozenQueue(s: State, o: int, l: Label)
    requires Inv(s, o) && Enabled(s, l) && l.t != o
    ensures Do(s, l).runq == s.runq
  {
    assert ThreadOk(s, o, l.t);
    assert l.InterProStart? || l.InterProEnd? || l.Wakeup?;
  }

  // Bounded waiting -------------------------------------------------------------------

  /** Calls of `next` still to be completed before `t` must have the turn. */
  ghost function Ahead(s: State, o: int, t: nat): nat
    requires s.Sized() && 0 <= o < |s.pc| && t in s.runq
  {
    Pos(s.runq, t) + if InNext(s.pc[o]) then 1 else 0
  }

  /** `t` is queued behind the owner, in no blocking call; only round-robin turns are put. */
  ghost predicate Queued(s: State, o: int, t: nat) {
    && Inv(s, o) && 0 <= o && t != o && t in s.runq && t < |s.pc| && !s.status[t].InterProStop?
    && (InNext(s.pc[o]) && !s.pc[o].Posting? ==> ScansUnder(s.pc[o], RoundRobin))
  }

  predicate Allowed(l: Label, t: nat) {
    (l.InterProStart? ==> l.t != t) && (l.Put? ==> l.strategy.RoundRobin?)
  }

  predicate Gives(s: State, l: Label, t: nat)
    requires s.Sized() && Enabled(s, l)
  {
    l.Post? && s.pc[l.t].target == t
  }

  lemma QueuedAhead(s: State, o: int, t: nat)
    requires Queued(s, o, t)
    ensures Ahead(s, o, t) >= 1
  {
  }

  /** A step by another thread than the owner changes nothing that matters to `t`. */
  lemma AheadOther(s: State, o: int, l: Label, t: nat)
    requires Queued(s, o, t) && Enabled(s, l) && Allowed(l, t) && l.t != o
    ensures !l.Post? && Queued(Do(s, l), o, t) && Ahead(Do(s, l), o, t) == Ahead(s, o, t)
  {
    FrozenQueue(s, o, l);
    StepInv(s, o, l);
    assert ThreadOk(s, o, l.t) && ThreadOk(s, o, t);
    assert l.InterProStart? || l.InterProEnd? || l.Wakeup?;
  }

  /** The queue only grows at the back while the owner works. */
  lemma AheadAppend(s: State, o: int, s1: State, t: nat, more: seq<nat>)
    requires Queued(s, o, t) && Inv(s1, o) && t < |s1.pc| && s1.runq == s.runq + more
    requires s1.status[t] == s.status[t] || !s1.status[t].InterProStop?
    requires InNext(s1.pc[o]) == InNext(s.pc[o])
    requires InNext(s1.pc[o]) && !s1.pc[o].Posting? ==> ScansUnder(s1.pc[o], RoundRobin)
    ensures Queued(s1, o, t) && Ahead(s1, o, t) == Ahead(s, o, t)
  {
    PosAppend(s.runq, more, t);
    assert s.runq[Pos(s.runq, t)] == t;
  }

  /** The owner gives up its place at the front. */
  lemma AheadLeave(s: State, o: int, s1: State, t: nat, more: seq<nat>)
    requires Queued(s, o, t) && Inv(s1, o) && t < |s1.pc| && s1.runq == PopFront(s.runq) + more
    requires s1.status[t] == s.status[t]
    requires !InNext(s.pc[o]) && InNext(s1.pc[o]) && ScansUnder(s1.pc[o], RoundRobin)
    ensures Queued(s1, o, t) && Ahead(s1, o, t) == Ahead(s, o, t)
  {
    PosPop(s.runq, t);
    PosAppend(PopFront(s.runq), more, t);
  }

  lemma AheadWork(s: State, o: int, l: Label, t: nat)
    requires Queued(s, o, t) && Enabled(s, l) && Allowed(l, t) && l.t == o
    requires l.SeeFlag? || l.TakeTurn? || l.Signal? || l.Tick? || l.ReadFlag? || l.Merge?
    ensures Queued(Do(s, l), o, t) && Ahead(Do(s, l), o, t) == Ahead(s, o, t)
  {
    StepInv(s, o, l);
    var s1 := Do(s, l);
    var more :=
      if l.Signal? then Keep(s.waitq, SignalSet(s, l.chan, l.all))
      else if l.Tick? then Keep(s.waitq, Expired(Clock(s, l.t)))
      else if l.Merge? then Without(l.order, Elems(s.runq)) else [];
    assert s1.runq == s.runq + more;
    AheadAppend(s, o, s1, t, more);
  }

  lemma AheadSpawn(s: State, o: int, t: nat, u: nat, r: nat)
    requires Queued(s, o, t) && Enabled(s, Spawn(u, r)) && u == o
    ensures Queued(Spawned(s, r), o, t) && Ahead(Spawned(s, r), o, t) == Ahead(s, o, t)
  {
    SpawnInv(s, o, u, r);
    AheadAppend(s, o, Spawned(s, r), t, [|s.pc|]);
  }

  lemma AheadOwn(s: State, o: int, l: Label, t: nat)
    requires Queued(s, o, t) && Enabled(s, l) && Allowed(l, t) && l.t == o
    requires l.StartTry? || l.TryMark? || l.InterProStart? || l.Wakeup?
    ensures Queued(Do(s, l), o, t) && Ahead(Do(s, l), o, t) == Ahead(s, o, t)
  {
    StepInv(s, o, l);
    OwnKeeps(s, o, l, t);
    assert Do(s, l).runq == s.runq + [];
    AheadAppend(s, o, Do(s, l), t, []);
  }

  lemma OwnKeeps(s: State, o: int, l: Label, t: nat)
    requires s.Sized() && Enabled(s, l) && l.t == o && t < |s.pc| && t != o
    requires l.StartTry? || l.TryMark? || l.InterProStart? || l.Wakeup?
    requires !s.status[t].InterProStop?
    ensures Do(s, l).runq == s.runq && |Do(s, l).status| == |s.status| == |Do(s, l).pc|
    ensures !Do(s, l).status[t].InterProStop?
    ensures !InNext(s.pc[o]) && !InNext(Do(s, l).pc[o])
  {
  }

  lemma AheadNext(s: State, o: int, l: Label, t: nat)
    requires Queued(s, o, t) && Enabled(s, l) && Allowed(l, t) && l.t == o
    requires l.Park? || l.LeaveBlock? || l.Put? || l.TryFail? || l.End?
    ensures Queued(Do(s, l), o, t) && Ahead(Do(s, l), o, t) == Ahead(s, o, t)
  {
    StepInv(s, o, l);
    var s1 := Do(s, l);
    if l.End? {
      var more := Keep(s.waitq, SignalSet(s, Exit(o), false));
      assert PopFront(s.runq + more) == PopFront(s.runq) + more;
      AheadLeave(s, o, s1, t, more);
    } else {
      var more: seq<nat> := if l.Put? || l.TryFail? then [l.t] else [];
      assert s1.runq == PopFront(s.runq) + more;
      AheadLeave(s, o, s1, t, more);
    }
  }

  lemma AheadScan(s: State, o: int, t: nat)
    requires Queued(s, o, t) && s.pc[o].Scanning? && s.runq[0] < |s.pc|
    ensures Queued(ScanOne(s, o), o, t) && Ahead(ScanOne(s, o), o, t) <= Ahead(s, o, t)
  {
    assert Inv(ScanOne(s, o), o) by {
      assert Enabled(s, Scan(o)) && Do(s, Scan(o)) == ScanOne(s, o);
      StepInv(s, o, Scan(o));
    }
    if s.runq[0] != t { PosPop(s.runq, t); }
  }

  lemma AheadPost(s: State, o: int, l: Label, t: nat)
    requires Queued(s, o, t) && Enabled(s, l) && l.t == o && l.Post? && !Gives(s, l, t)
    ensures Queued(Do(s, l), NextOwner(s, l, o), t)
    ensures Ahead(Do(s, l), NextOwner(s, l, o), t) < Ahead(s, o, t)
  {
    StepInv(s, o, l);
    var p := s.pc[o].target;
    assert ThreadOk(s, o, p) && ThreadOk(s, o, t);
    assert ThreadOk(Do(s, l), p, p);
  }

  /** No step moves `t` back, and every completed `next` that passes it by moves it forward. */
  lemma AheadStep(s: State, o: int, l: Label, t: nat)
    requires Queued(s, o, t) && Enabled(s, l) && Allowed(l, t) && !Gives(s, l, t)
    ensures Queued(Do(s, l), NextOwner(s, l, o), t)
    ensures Ahead(Do(s, l), NextOwner(s, l, o), t) + (if l.Post? then 1 else 0) <= Ahead(s, o, t)
  {
    if l.t != o {
      AheadOther(s, o, l, t);
      assert !l.Finish? by { assert ThreadOk(s, o, l.t); }
    } else if l.Post? {
      AheadPost(s, o, l, t);
    } else if l.Scan? || l.Finish? || l.WakeIdle? {
      assert l.Scan?;
      AheadScan(s, o, t);
    } else if l.Park? || l.LeaveBlock? || l.Put? || l.TryFail? || l.End? {
      AheadNext(s, o, l, t);
    } else if l.StartTry? || l.TryMark? || l.InterProStart? || l.Wakeup? {
      AheadOwn(s, o, l, t);
    } else if l.Spawn? {
      AheadSpawn(s, o, t, l.t, l.newRole);
    } else {
      assert !l.InterProEnd? by { assert ThreadOk(s, o, l.t); }
      AheadWork(s, o, l, t);
    }
  }

  function Posts(ls: seq<Label>): nat {
    if ls == [] then 0 else (if ls[0].Post? then 1 else 0) + Posts(ls[1..])
  }

  /** As many completed calls of next as there are threads ahead reach `t`. */
  lemma {:induction false} TurnArrives(s: State, o: int, ls: seq<Label>, s1: State, t: nat)
    returns (i: nat, si: State)
    requires Queued(s, o, t) && Run(s, ls, s1) && Posts(ls) >= Ahead(s, o, t)
    requires forall j :: 0 <= j < |ls| ==> Allowed(ls[j], t)
    ensures i < |ls| && Run(s, ls[..i], si) && si.Sized() && Enabled(si, ls[i]) && Gives(si, ls[i], t)
    ensures Posts(ls[..i]) < Ahead(s, o, t)
    decreases |ls|
  {
    QueuedAhead(s, o, t);
    if Gives(s, ls[0], t) {
      i, si := 0, s;
    } else {
      AheadStep(s, o, ls[0], t);
      i, si := TurnArrives(Do(s, ls[0]), NextOwner(s, ls[0], o), ls[1..], s1, t);
      i := i + 1;
      assert ls[..i][1..] == ls[1..][..i - 1];
    }
  }

  /** A thread at place k behind the turn owner that starts no blocking call is passed the turn
      no later than by the k-th following call of next, whatever is signalled, timed out,
      registered or created meanwhile: step i passes it the turn, after fewer than k others. */
  lemma BoundedWaiting(s: State, o: int, ls: seq<Label>, s1: State, t: nat, k: nat)
    returns (i: nat, si: State)
    requires Queued(s, o, t) && !InNext(s.pc[o]) && k < |s.runq| && s.runq[k] == t
    requires Run(s, ls, s1) && Posts(ls) >= k && forall j :: 0 <= j < |ls| ==> Allowed(ls[j], t)
    ensures i < |ls| && Run(s, ls[..i], si) && si.Sized() && Enabled(si, ls[i]) && Gives(si, ls[i], t)
    ensures Posts(ls[..i]) < k
  {
    PosUnique(s.runq, k);
    i, si := TurnArrives(s, o, ls, s1, t);
  }

  lemma PosUnique(q: seq<nat>, k: nat)
    requires NoDup(q) && k < |q|
    ensures q[k] in q && Pos(q, q[k]) == k
  {
    assert q[Pos(q, q[k])] == q[k];
  }

  // nextRunnable under the role strategy ------------------------------------------------

  ghost predicate RoleScan(s: State, o: int) {
    && Inv(s, o) && o >= 0 && s.pc[o].Scanning? && s.pc[o].strategy.CurrentRole?
    && s.pc[o].after.ToUser?
  }

  /** `q` is the old queue turned to place `k`, less the dropped threads. */
  ghost predicate Turned(q0: seq<nat>, k: nat, dropped: set<nat>, q: seq<nat>) {
    k <= |q0| && q == q0[k..] + Without(q0[..k], dropped)
  }

  lemma TurnedStep(q0: seq<nat>, k: nat, dropped: set<nat>, q: seq<nat>)
    requires NoDup(q0) && Turned(q0, k, dropped, q) && k < |q0|
    ensures q != [] && q[0] == q0[k]
    ensures q0[k] !in dropped ==> Turned(q0, k + 1, dropped, PopFront(q) + [q0[k]])
    ensures Turned(q0, k + 1, dropped + {q0[k]}, PopFront(q))
  {
    var h := q0[k];
    assert q0[..k + 1] == q0[..k] + [h];
    assert q0[k..] == [h] + q0[k + 1..];
    SelectSnoc(q0[..k], h, dropped);
    SelectSnoc(q0[..k], h, dropped + {h});
    assert h !in q0[..k];
    SelectSame(q0[..k], dropped, dropped + {h});
  }

  /** While the caller scans, the steps of other threads leave the queue alone. */
  lemma RoleScanOther(s: State, o: int, l: Label)
    requires RoleScan(s, o) && Enabled(s, l) && l.t != o
    ensures RoleScan(Do(s, l), o) && Do(s, l).runq == s.runq
  {
    assert ThreadOk(s, o, l.t);
    StepInv(s, o, l);
    FrozenQueue(s, o, l);
    assert l.InterProStart? || l.InterProEnd? || l.Wakeup?;
  }

  /** Scan is the caller's only step, and it is always enabled. */
  lemma RoleScanOnly(s: State, o: int, l: Label)
    requires RoleScan(s, o) && Enabled(s, l) && l.t == o
    ensures l == Scan(o) && o in s.runq && Do(s, l) == ScanOne(s, o)
  {
    assert ThreadOk(s, o, o);
  }

  /** An iteration of the scan passes the turn to a thread of the caller's role, or drops a
      stopped head, or turns the queue; in the last two cases the caller comes one place forward. */
  lemma RoleScanOwn(s: State, o: int)
    requires RoleScan(s, o) && Enabled(s, Scan(o)) && o in s.runq
    ensures var h := s.runq[0]; var s1 := ScanOne(s, o);
      if s1.pc[o].Scanning? then
        && h != o && o in s1.runq && Pos(s1.runq, o) == Pos(s.runq, o) - 1
        && s1.runq == if s.status[h].InterProStop? then PopFront(s.runq) else PopFront(s.runq) + [h]
      else
        && s1.pc[o] == Posting(h, ToUser) && s1.runq == s.runq
        && s.role[h] == s.role[o] && !s.status[h].InterProStop?
  {
    var h := s.runq[0];
    assert !s.status[o].InterProStop? by { assert ThreadOk(s, o, o); }
    if ScanOne(s, o).pc[o].Scanning? {
      PosPop(s.runq, o);
      PosAppend(PopFront(s.runq), [h], o);
    }
  }

  function ScansBy(ls: seq<Label>, o: int): nat {
    if ls == [] then 0 else (if ls[0].t == o then 1 else 0) + ScansBy(ls[1..], o)
  }

  /** The caller is still scanning at every state of the run. */
  ghost predicate ScansOn(s: State, o: int, ls: seq<Label>)
    decreases |ls|
  {
    RoleScan(s, o) && (ls != [] ==> Enabled(s, ls[0]) && ScansOn(Do(s, ls[0]), o, ls[1..]))
  }

  /** However the other threads flip between runnable and stopped, the scan has at most as
      many fruitless iterations as there are threads before the caller; throughout, the queue
      is the old one turned, less the threads dropped. */
  lemma RoleScanTerminates(s: State, o: int, ls: seq<Label>, s1: State)
    returns (turns: nat, dropped: set<nat>)
    requires ScansOn(s, o, ls) && Run(s, ls, s1)
    ensures RoleScan(s1, o) && o in s.runq && o in s1.runq
    ensures turns == ScansBy(ls, o) && turns + Pos(s1.runq, o) == Pos(s.runq, o)
    ensures Turned(s.runq, turns, dropped, s1.runq)
  {
    assert ThreadOk(s, o, o);
    assert s.runq[0..] + Without(s.runq[..0], {}) == s.runq;
    turns, dropped := RoleScanFrom(s, o, ls, s1, s.runq, 0, {});
  }

  lemma {:induction false} RoleScanFrom(s: State, o: int, ls: seq<Label>, s1: State,
                                        q0: seq<nat>, k: nat, d: set<nat>)
    returns (n: nat, dropped: set<nat>)
    requires ScansOn(s, o, ls) && Run(s, ls, s1) && NoDup(q0) && Turned(q0, k, d, s.runq)
    requires o in s.runq && o in q0 && k + Pos(s.runq, o) == Pos(q0, o)
    requires forall x :: x in d ==> x in q0[..k]
    ensures RoleScan(s1, o) && o in s1.runq
    ensures n == k + ScansBy(ls, o) && n + Pos(s1.runq, o) == Pos(q0, o)
    ensures Turned(q0, n, dropped, s1.runq)
    decreases |ls|
  {
    if ls == [] {
      n, dropped := k, d;
    } else if ls[0].t == o {
      RoleScanOnly(s, o, ls[0]);
      var d1 := RoleScanAdvance(s, o, q0, k, d);
      n, dropped := RoleScanFrom(ScanOne(s, o), o, ls[1..], s1, q0, k + 1, d1);
    } else {
      RoleScanOther(s, o, ls[0]);
      n, dropped := RoleScanFrom(Do(s, ls[0]), o, ls[1..], s1, q0, k, d);
    }
  }

  lemma RoleScanAdvance(s: State, o: int, q0: seq<nat>, k: nat, d: set<nat>) returns (d1: set<nat>)
    requires RoleScan(s, o) && Enabled(s, Scan(o)) && ScanOne(s, o).pc[o].Scanning?
    requires NoDup(q0) && Turned(q0, k, d, s.runq)
    requires o in s.runq && o in q0 && k + Pos(s.runq, o) == Pos(q0, o)
    requires forall x :: x in d ==> x in q0[..k]
    ensures var s2 := ScanOne(s, o);
      && Turned(q0, k + 1, d1, s2.runq)
      && o in s2.runq && k + 1 + Pos(s2.runq, o) == Pos(q0, o) && Pos(s2.runq, o) == Pos(s.runq, o) - 1
      && forall x :: x in d1 ==> x in q0[..k + 1]
  {
    RoleScanOwn(s, o);
    TurnedStep(q0, k, d, s.runq);
    DropsBehind(q0, k, d);
    d1 := if s.status[s.runq[0]].InterProStop? then d + {q0[k]} else d;
  }

  lemma DropsBehind(q: seq<nat>, k: nat, d: set<nat>)
    requires NoDup(q) && k < |q| && forall x :: x in d ==> x in q[..k]
    ensures q[k] !in d && forall x :: x in d + {q[k]} ==> x in q[..k + 1]
  {
    assert q[..k + 1] == q[..k] + [q[k]];
    assert q[k] !in q[..k];
  }

  // nextRunnable under the other strategies ---------------------------------------------

  ghost predicate PlainScan(s: State, o: int) {
    && Inv(s, o) && o >= 0 && s.pc[o].Scanning? && !s.pc[o].strategy.CurrentRole?
  }

  /** Iterations until a scan that ignores roles must have chosen: the stopped heads, and then the
      idle thread, which never stops. */
  function ScanLeft(s: State): nat {
    if s.idle && s.runq == [IDLE] then 1 else if s.runq == [] then 2 else |s.runq| + 2
  }

  lemma PlainScanOwn(s: State, o: int, l: Label)
    requires PlainScan(s, o) && Enabled(s, l) && l.t == o && Do(s, l).Sized() && o < |Do(s, l).pc|
    requires PlainScan(Do(s, l), o)
    ensures ScanLeft(Do(s, l)) < ScanLeft(s)
  {
    assert ThreadOk(s, o, o);
    if s.idle && IDLE < |s.pc| { assert ThreadOk(s, o, IDLE); }
    assert l.Scan? || l.WakeIdle?;
    if l.Scan? {
      assert s.status[s.runq[0]].InterProStop?;
    } else {
      OnlyIdle(s);
    }
  }

  lemma OnlyIdle(s: State)
    requires NoDup(s.waitq) && IDLE in s.waitq
    ensures Keep(s.waitq, {IDLE}) == [IDLE]
  {
    var i :| 0 <= i < |s.waitq| && s.waitq[i] == IDLE;
    assert s.waitq == s.waitq[..i] + [IDLE] + s.waitq[i + 1..];
    NoDupSplit(s.waitq[..i] + [IDLE], s.waitq[i + 1..]);
    NoDupSplit(s.waitq[..i], [IDLE]);
    SelectOne(s.waitq[..i], IDLE, s.waitq[i + 1..], {IDLE});
  }

  lemma PlainScanOther(s: State, o: int, l: Label)
    requires PlainScan(s, o) && Enabled(s, l) && l.t != o
    ensures PlainScan(Do(s, l), o) && ScanLeft(Do(s, l)) == ScanLeft(s)
  {
    assert ThreadOk(s, o, l.t);
    StepInv(s, o, l);
    FrozenQueue(s, o, l);
    Phases.OtherPc(s, l, o);
    DoSized(s, l);
    assert l.InterProStart? || l.InterProEnd? || l.Wakeup?;
  }

  /** The caller is still scanning at every state of the run. */
  ghost predicate PlainScansOn(s: State, o: int, ls: seq<Label>)
    decreases |ls|
  {
    PlainScan(s, o) && (ls != [] ==> Enabled(s, ls[0]) && PlainScansOn(Do(s, ls[0]), o, ls[1..]))
  }

  /** However the other threads flip between runnable and stopped, a scan that ignores roles has
      chosen after at most as many iterations as threads are queued, and two more. */
  lemma {:induction false} PlainScanEnds(s: State, o: int, ls: seq<Label>)
    requires PlainScansOn(s, o, ls)
    ensures ScansBy(ls, o) < ScanLeft(s) <= |s.runq| + 2
    decreases |ls|
  {
    if ls != [] {
      var s1 := Do(s, ls[0]);
      assert PlainScansOn(s1, o, ls[1..]);
      DoSized(s, ls[0]);
      if ls[0].t == o { PlainScanOwn(s, o, ls[0]); } else { PlainScanOther(s, o, ls[0]); }
      PlainScanEnds(s1, o, ls[1..]);
    }
  }
}
