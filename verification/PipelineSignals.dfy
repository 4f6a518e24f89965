/** The producer of the pipeline is never left asleep: no notFull signal is lost, and the
    consumers' own steps, without any spurious wake-up, soon wake it. */
module PipelineSignals {
  import opened Pipeline

  /** A consumer has taken a block and signals next. */
  ghost predicate SignalDue(p: Pipe) {
    exists i :: 0 <= i < |p.cons| && p.cons[i].Took?
  }

  /** A sleeping producer sleeps because the queue is full, or a signal is on its way. */
  ghost predicate SleepOk(c: Config, p: Pipe) {
    p.prod.Sleeping? ==> |p.fifo| >= c.cap || SignalDue(p)
  }

  ghost predicate SignalInv(c: Config, p: Pipe) {
    Inv(c, p) && SleepOk(c, p)
  }

  /** A consumer that keeps or enters its place before the signal keeps one due. */
  lemma DueStays(p: Pipe, q: Pipe, i: nat)
    requires i < |p.cons| == |q.cons| && q.cons == p.cons[i := q.cons[i]]
    requires p.cons[i].Took? ==> q.cons[i].Took?
    requires SignalDue(p)
    ensures SignalDue(q)
  {
    var k :| 0 <= k < |p.cons| && p.cons[k].Took?;
    assert q.cons[k].Took?;
  }

  lemma ConsSignals(c: Config, p: Pipe, i: nat)
    requires SignalInv(c, p) && Enabled(c, p, Cons(i))
    ensures SleepOk(c, Consume(c, p, i))
  {
    var q := Consume(c, p, i);
    if q.prod.Sleeping? {
      assert p.prod.Sleeping? && !p.cons[i].Took?;
      if p.cons[i].Looking? && p.fifo != [] {
        assert q.cons[i].Took?;
      } else if SignalDue(p) {
        DueStays(p, q, i);
      }
    }
  }

  lemma SignalStep(c: Config, p: Pipe, w: Who)
    requires SignalInv(c, p) && Enabled(c, p, w)
    ensures SignalInv(c, Do(c, p, w))
  {
    StepInv(c, p, w);
    if w.Cons? { ConsSignals(c, p, w.i); }
    assert w.Write? && SignalDue(p) ==> SignalDue(Writes(c, p));
  }

  lemma {:induction false} SignalRun(c: Config, p: Pipe, ws: seq<Who>, p1: Pipe)
    requires SignalInv(c, p) && Run(c, p, ws, p1)
    ensures SignalInv(c, p1)
    decreases |ws|
  {
    if ws != [] {
      SignalStep(c, p, ws[0]);
      SignalRun(c, Do(c, p, ws[0]), ws[1..], p1);
    }
  }

  lemma ReachableSignals(c: Config, p: Pipe)
    requires Reachable(c, p)
    ensures SignalInv(c, p)
  {
    var n: nat, ws: seq<Who> :| Run(c, Init(c, n), ws, p);
    InitInv(c, n);
    SignalRun(c, Init(c, n), ws, p);
  }

  /** No lost wake-up: while the producer waits for notFull, the queue is full or a consumer that
      has taken a block has yet to signal. */
  lemma NoLostSignal(c: Config, p: Pipe)
    requires Reachable(c, p) && p.prod.Sleeping?
    ensures |p.fifo| == c.cap || SignalDue(p)
  {
    ReachableSignals(c, p);
  }

  /** That consumer stays about to signal until its own next step, which wakes the producer. */
  lemma SignalWakes(c: Config, p: Pipe, i: nat, w: Who)
    requires c.blockSize > 0 && Enabled(c, p, w) && i < |p.cons| && p.cons[i].Took? && p.prod.Sleeping?
    ensures Enabled(c, p, Cons(i))
    ensures w == Cons(i) ==> Do(c, p, w).prod == Waking(p.prod.b)
    ensures w != Cons(i) ==> i < |Do(c, p, w).cons| && Do(c, p, w).cons[i] == p.cons[i]
  {
  }

  /** While the producer sleeps and nobody is about to signal, some consumer can step. */
  lemma ConsumerMoves(c: Config, p: Pipe) returns (i: nat)
    requires Reachable(c, p) && p.prod.Sleeping? && |p.cons| > 0
    ensures Enabled(c, p, Cons(i))
  {
    ReachableSignals(c, p);
    var bs := Blocks(c.file, c.blockSize);
    if SignalDue(p) {
      i :| 0 <= i < |p.cons| && p.cons[i].Took?;
    } else {
      i := if p.mut > 0 then p.mut - 1 else 0;
      assert ConsumerOk(c, p, bs, p.cons[i]);
      assert p.mut == i + 1 <==> HasMutex(p.cons[i]);
    }
  }

  // How long it can take ------------------------------------------------------------------------

  /** Own steps of a consumer before it takes a block from a queue that is not empty. */
  function Stage(x: Consumer): nat {
    match x
    case Has(_) => 4
    case Made(_, _) => 3
    case Start => 2
    case Dozing => 2
    case Looking => 1
    case _ => 0
  }

  function Rank(cons: seq<Consumer>): nat {
    if cons == [] then 0 else Stage(cons[0]) + Rank(cons[1..])
  }

  lemma {:induction false} RankUpdate(cons: seq<Consumer>, i: nat, x: Consumer)
    requires i < |cons|
    ensures Rank(cons[i := x]) == Rank(cons) - Stage(cons[i]) + Stage(x)
  {
    if i == 0 {
      assert cons[0 := x][1..] == cons[1..];
    } else {
      RankUpdate(cons[1..], i - 1, x);
      assert cons[i := x][1..] == cons[1..][i - 1 := x] && cons[i := x][0] == cons[0];
    }
  }

  lemma {:induction false} RankBound(cons: seq<Consumer>)
    ensures Rank(cons) <= 4 * |cons|
  {
    if cons != [] { RankBound(cons[1..]); }
  }

  /** While the producer sleeps on, every step of a consumer brings it nearer to a signal. */
  lemma RankStep(c: Config, p: Pipe, w: Who)
    requires SignalInv(c, p) && Enabled(c, p, w) && p.prod.Sleeping? && !SignalDue(p)
    requires !SignalDue(Do(c, p, w)) && Do(c, p, w).prod.Sleeping?
    ensures Rank(Do(c, p, w).cons) + (if w.Cons? then 1 else 0) <= Rank(p.cons)
  {
    if w.Cons? {
      var i := w.i;
      var q := Consume(c, p, i);
      assert !p.cons[i].Took?;
      assert ConsumerOk(c, p, Blocks(c.file, c.blockSize), p.cons[i]);
      assert !q.cons[i].Took?;
      RankUpdate(p.cons, i, q.cons[i]);
    }
  }

  /** Along the run the producer sleeps and no consumer is about to signal. */
  ghost predicate SleepsOn(c: Config, p: Pipe, ws: seq<Who>)
    decreases |ws|
  {
    && p.prod.Sleeping? && !SignalDue(p)
    && (ws != [] ==> c.blockSize > 0 && Enabled(c, p, ws[0]) && SleepsOn(c, Do(c, p, ws[0]), ws[1..]))
  }

  function ConsSteps(ws: seq<Who>): nat {
    if ws == [] then 0 else (if ws[0].Cons? then 1 else 0) + ConsSteps(ws[1..])
  }

  lemma {:induction false} RankRun(c: Config, p: Pipe, ws: seq<Who>)
    requires SignalInv(c, p) && SleepsOn(c, p, ws)
    ensures ConsSteps(ws) <= Rank(p.cons)
    decreases |ws|
  {
    if ws != [] {
      var q := Do(c, p, ws[0]);
      assert SleepsOn(c, q, ws[1..]);
      RankStep(c, p, ws[0]);
      SignalStep(c, p, ws[0]);
      RankRun(c, q, ws[1..]);
    }
  }

  /** The producer is never left asleep: however the threads are scheduled, the consumers take at
      most four steps each before one of them is about to signal. */
  lemma WokenSoon(c: Config, p: Pipe, ws: seq<Who>)
    requires Reachable(c, p) && SleepsOn(c, p, ws)
    ensures ConsSteps(ws) <= 4 * |p.cons|
  {
    ReachableSignals(c, p);
    RankRun(c, p, ws);
    RankBound(p.cons);
  }
}
