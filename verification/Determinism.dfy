/** Determinism: the (tid, turn) log does not depend on how fast threads run between their
    synchronisation operations.

    A program says, from the memory that is only touched with the turn (the synchronisation
    objects and every thread's progress through its operations), what the turn holder does
    next; the putTurn strategy, too, is chosen with the turn held.  Threads come back to getTurn
    after arbitrary delays.  There is no idle thread, blocking call or non-deterministic region. */
module Determinism {
  import opened Scheduler
  import opened Safety

  datatype Act =
    | DoSignal(chan: Chan, all: bool)
    | DoTick
    | DoWait(chan: Chan, deadline: nat)
    | DoPut(strategy: Strategy)
    | DoEnd
    | DoSpawn(role: nat)

  /** Turn-protected memory, own tid, turn count and wake reason to the next action. */
  type Program<!M> = (M, nat, nat, Reason) -> (M, Act)

  datatype Sys<M> = Sys(s: State, m: M, arrived: seq<bool>)

  function ActLabel(t: nat, a: Act): Label {
    match a
    case DoSignal(c, all) => Signal(t, c, all)
    case DoTick => Tick(t, ThenWork)
    case DoWait(c, d) => Tick(t, ThenPark(c, d))
    case DoPut(st) => Put(t, st)
    case DoEnd => End(t)
    case DoSpawn(r) => Spawn(t, r)
  }

  /** The one step a thread can take at its program counter. */
  function OwnLabel<M>(prog: Program<M>, s: State, m: M, t: nat): Label
    requires s.Sized() && t < |s.pc|
  {
    match s.pc[t]
    case Saw(_) => TakeTurn(t)
    case Work(_) => ActLabel(t, prog(m, t, s.turn, s.waits[t].reason).1)
    case Checking(_) => ReadFlag(t)
    case Parking(_, _) => Park(t)
    case Scanning(_, _) => if s.runq == [] then Finish(t) else Scan(t)
    case Posting(_, _) => Post(t)
    case _ => SeeFlag(t)
  }

  predicate CanMove<M>(prog: Program<M>, s: State, m: M, t: nat)
  {
    |s.waits| == |s.pc| && |s.status| == |s.pc| && |s.role| == |s.pc| && t < |s.pc|
    && Enabled(s, OwnLabel(prog, s, m, t))
  }

  /** The step's effect on the scheduler and on the turn-protected memory. */
  function Apply<M>(prog: Program<M>, s: State, m: M, t: nat): (State, M)
    requires CanMove(prog, s, m, t)
  {
    (Do(s, OwnLabel(prog, s, m, t)),
     if s.pc[t].Work? then prog(m, t, s.turn, s.waits[t].reason).0 else m)
  }

  /** A thread finishes its computation and comes to getTurn. */
  ghost predicate Arrives<M>(a: Sys<M>, t: nat, b: Sys<M>) {
    t < |a.arrived| && !a.arrived[t] && b == a.(arrived := a.arrived[t := true])
  }

  /** A thread that has arrived, or is inside a scheduler operation, takes its step; back in
      user code it has to arrive again. */
  ghost predicate Turns<M>(prog: Program<M>, a: Sys<M>, t: nat, b: Sys<M>) {
    && CanMove(prog, a.s, a.m, t) && t < |a.arrived| && (a.s.pc[t].User? ==> a.arrived[t])
    && (b.s, b.m) == Apply(prog, a.s, a.m, t)
    && |b.arrived| == |b.s.pc|
    && forall u :: 0 <= u < |b.arrived| ==>
         b.arrived[u] == (u < |a.arrived| && a.arrived[u] && !(u == t && b.s.pc[u].User?))
  }

  ghost predicate Step<M>(prog: Program<M>, a: Sys<M>, b: Sys<M>) {
    exists t: nat :: Arrives(a, t, b) || Turns(prog, a, t, b)
  }

  ghost predicate StepAt<M>(prog: Program<M>, tr: seq<Sys<M>>, i: nat)
    requires i < |tr| - 1
  {
    Step(prog, tr[i], tr[i + 1])
  }

  ghost predicate Trace<M(!new)>(prog: Program<M>, tr: seq<Sys<M>>) {
    && |tr| > 0 && (exists r: nat :: tr[0].s == Init(false, r))
    && forall i {:trigger StepAt(prog, tr, i)} :: 0 <= i < |tr| - 1 ==> StepAt(prog, tr, i)
  }

  /** Only the token owner can move. */
  lemma OnlyOwnerMoves<M>(prog: Program<M>, s: State, m: M, o: int, t: nat)
    requires Inv(s, o) && CanMove(prog, s, m, t)
    ensures t == o
  {
    assert ThreadOk(s, o, t);
  }

  /** One step of the schedule with all delays taken out. */
  ghost predicate CoreStep<M>(prog: Program<M>, c: (State, M), d: (State, M)) {
    exists t: nat :: CanMove(prog, c.0, c.1, t) && d == Apply(prog, c.0, c.1, t)
  }

  lemma CoreStepUnique<M>(prog: Program<M>, c: (State, M), d: (State, M), e: (State, M), o: int)
    requires Inv(c.0, o) && CoreStep(prog, c, d) && CoreStep(prog, c, e)
    ensures d == e
  {
    var t: nat :| CanMove(prog, c.0, c.1, t) && d == Apply(prog, c.0, c.1, t);
    var u: nat :| CanMove(prog, c.0, c.1, u) && e == Apply(prog, c.0, c.1, u);
    OnlyOwnerMoves(prog, c.0, c.1, o, t);
    OnlyOwnerMoves(prog, c.0, c.1, o, u);
  }

  lemma CoreStepInv<M>(prog: Program<M>, c: (State, M), d: (State, M), o: int) returns (o1: int)
    requires Inv(c.0, o) && CoreStep(prog, c, d)
    ensures Inv(d.0, o1)
  {
    var t: nat :| CanMove(prog, c.0, c.1, t) && d == Apply(prog, c.0, c.1, t);
    var l := OwnLabel(prog, c.0, c.1, t);
    StepInv(c.0, o, l);
    o1 := NextOwner(c.0, l, o);
  }

  /** Steps only append to the log. */
  lemma CoreStepLog<M>(prog: Program<M>, c: (State, M), d: (State, M))
    requires CoreStep(prog, c, d)
    ensures c.0.log <= d.0.log
  {
    var t: nat :| CanMove(prog, c.0, c.1, t) && d == Apply(prog, c.0, c.1, t);
    var l := OwnLabel(prog, c.0, c.1, t);
    if !TouchesWaits(l) { QuietStep(c.0, l); }
  }

  ghost predicate LinkAt<M>(prog: Program<M>, cs: seq<(State, M)>, i: nat)
    requires i < |cs| - 1
  {
    CoreStep(prog, cs[i], cs[i + 1])
  }

  /** A run of the delay-free schedule from start-up. */
  ghost predicate Chain<M(!new)>(prog: Program<M>, cs: seq<(State, M)>) {
    && |cs| > 0 && (exists r: nat :: cs[0].0 == Init(false, r))
    && forall i {:trigger LinkAt(prog, cs, i)} :: 0 <= i < |cs| - 1 ==> LinkAt(prog, cs, i)
  }

  lemma {:induction false} ChainInv<M(!new)>(prog: Program<M>, cs: seq<(State, M)>, i: nat)
    returns (o: int)
    requires Chain(prog, cs) && i < |cs|
    ensures Inv(cs[i].0, o)
  {
    if i == 0 {
      var r: nat :| cs[0].0 == Init(false, r);
      InitInv(false, r);
      o := MAIN;
    } else {
      o := ChainInv(prog, cs, i - 1);
      assert LinkAt(prog, cs, i - 1);
      o := CoreStepInv(prog, cs[i - 1], cs[i], o);
    }
  }

  /** Two delay-free runs from one start agree as far as both go. */
  lemma {:induction false} ChainsAgree<M(!new)>(prog: Program<M>, cs: seq<(State, M)>,
                                                 ds: seq<(State, M)>, i: nat)
    requires Chain(prog, cs) && Chain(prog, ds) && cs[0] == ds[0] && i < |cs| && i < |ds|
    ensures cs[i] == ds[i]
  {
    if i > 0 {
      var j := i - 1;
      ChainsAgree(prog, cs, ds, j);
      var o := ChainInv(prog, cs, j);
      assert LinkAt(prog, cs, j) && LinkAt(prog, ds, j);
      CoreStepUnique(prog, cs[j], cs[i], ds[i], o);
    }
  }

  lemma {:induction false} ChainLog<M(!new)>(prog: Program<M>, cs: seq<(State, M)>, i: nat, j: nat)
    requires Chain(prog, cs) && i <= j < |cs|
    ensures cs[i].0.log <= cs[j].0.log
  {
    if i < j {
      ChainLog(prog, cs, i, j - 1);
      assert LinkAt(prog, cs, j - 1);
      CoreStepLog(prog, cs[j - 1], cs[j]);
    }
  }

  /** What a system state keeps without its delays. */
  function Core<M>(a: Sys<M>): (State, M) {
    (a.s, a.m)
  }

  /** `cs` is a delay-free run with the states of the trace up to i, and ends in the last of them. */
  ghost predicate Undelays<M(!new)>(prog: Program<M>, tr: seq<Sys<M>>, i: nat, cs: seq<(State, M)>)
    requires i < |tr|
  {
    && Chain(prog, cs) && cs[0] == Core(tr[0]) && cs[|cs| - 1] == Core(tr[i])
    && forall j {:trigger Core(tr[j])} :: 0 <= j <= i ==> Core(tr[j]) in cs
  }

  /** Without its delays a trace is a run of the delay-free schedule. */
  lemma {:induction false} Undelayed<M(!new)>(prog: Program<M>, tr: seq<Sys<M>>, i: nat)
    returns (cs: seq<(State, M)>)
    requires Trace(prog, tr) && i < |tr|
    ensures Undelays(prog, tr, i, cs)
  {
    if i == 0 {
      cs := [Core(tr[0])];
    } else {
      cs := Undelayed(prog, tr, i - 1);
      assert StepAt(prog, tr, i - 1);
      StepIsCore(prog, tr[i - 1], tr[i]);
      if Core(tr[i]) != Core(tr[i - 1]) {
        ExtendChain(prog, cs, Core(tr[i]));
        CoverMore(tr, i - 1, cs);
        cs := cs + [Core(tr[i])];
      } else {
        assert cs[|cs| - 1] in cs;
      }
    }
  }

  /** An arrival keeps the delay-free state, and a turn is a step of it. */
  lemma StepIsCore<M>(prog: Program<M>, a: Sys<M>, b: Sys<M>)
    requires Step(prog, a, b)
    ensures Core(b) == Core(a) || CoreStep(prog, Core(a), Core(b))
  {
    var t: nat :| Arrives(a, t, b) || Turns(prog, a, t, b);
    if !Arrives(a, t, b) { TurnIsCore(prog, a, t, b); }
  }

  lemma CoverMore<M>(tr: seq<Sys<M>>, i: nat, cs: seq<(State, M)>)
    requires i + 1 < |tr| && forall j {:trigger Core(tr[j])} :: 0 <= j <= i ==> Core(tr[j]) in cs
    ensures forall j {:trigger Core(tr[j])} :: 0 <= j <= i + 1 ==> Core(tr[j]) in cs + [Core(tr[i + 1])]
  {
  }

  lemma TurnIsCore<M>(prog: Program<M>, a: Sys<M>, t: nat, b: Sys<M>)
    requires Turns(prog, a, t, b)
    ensures CoreStep(prog, Core(a), Core(b))
  {
  }

  lemma ExtendChain<M(!new)>(prog: Program<M>, cs: seq<(State, M)>, d: (State, M))
    requires Chain(prog, cs) && CoreStep(prog, cs[|cs| - 1], d)
    ensures Chain(prog, cs + [d])
  {
    var ds := cs + [d];
    forall i | 0 <= i < |ds| - 1 ensures LinkAt(prog, ds, i) {
      assert i < |cs| - 1 ==> LinkAt(prog, cs, i);
    }
  }

  /** Two interleavings of one program from one start never diverge: with the delays taken
      out, the states of one (queues, wait records, memory) are a prefix of the states of the
      other, and every state of an interleaving is among them. */
  lemma NeverDiverges<M(!new)>(prog: Program<M>, a: seq<Sys<M>>, b: seq<Sys<M>>)
    returns (cs: seq<(State, M)>, ds: seq<(State, M)>)
    requires Trace(prog, a) && Trace(prog, b) && Core(a[0]) == Core(b[0])
    ensures Undelays(prog, a, |a| - 1, cs) && Undelays(prog, b, |b| - 1, ds)
    ensures cs <= ds || ds <= cs
  {
    cs := Undelayed(prog, a, |a| - 1);
    ds := Undelayed(prog, b, |b| - 1);
    forall i: nat | i < |cs| && i < |ds| ensures cs[i] == ds[i] {
      ChainsAgree(prog, cs, ds, i);
    }
  }

  /** Of any two interleavings of one program from one start, the (tid, turn) log of one is a
      prefix of the log of the other. */
  lemma Deterministic<M(!new)>(prog: Program<M>, a: seq<Sys<M>>, b: seq<Sys<M>>)
    requires Trace(prog, a) && Trace(prog, b) && Core(a[0]) == Core(b[0])
    ensures var la, lb := a[|a| - 1].s.log, b[|b| - 1].s.log;
      la <= lb || lb <= la
  {
    var cs, ds := NeverDiverges(prog, a, b);
    if cs <= ds {
      ChainLog(prog, ds, |cs| - 1, |ds| - 1);
    } else {
      ChainLog(prog, cs, |ds| - 1, |cs| - 1);
    }
  }
}
