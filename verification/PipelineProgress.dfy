/** The pipeline gets its work done: a measure of the work left falls with every productive step,
    there is always a productive step close by, and every reachable state can be completed. */
module PipelineProgress {
  import opened Options
  import opened RingBuffer
  import opened Pipeline
  import opened PipelineSignals

  // The work left -------------------------------------------------------------------------------

  function ProdStage(x: Producer): nat {
    match x
    case Reading => 2
    case Holding(_) => 17
    case Waking(_) => 16
    case Adding(_) => 15
    case Sleeping(_) => 14
    case Closing => 1
    case Finished => 0
  }

  function ProdWork(c: Config, p: Pipe): nat
    requires c.blockSize > 0
  {
    20 * |Blocks(p.rest, c.blockSize)| + ProdStage(p.prod)
  }

  function ConsStage(x: Consumer): nat {
    match x
    case Took(_) => 9
    case Has(_) => 6
    case Made(_, _) => 5
    case _ => 0
  }

  function ConsWork(cons: seq<Consumer>): nat {
    if cons == [] then 0 else ConsStage(cons[0]) + ConsWork(cons[1..])
  }

  function WriterWork(n: nat, p: Pipe): int {
    match p.writer
    case Done => 0
    case Writing => 4 * (n - p.curr)
    case Freeing => 4 * (n - p.curr) - 1
    case _ => 4 * (n - p.curr) + 1
  }

  function Work(c: Config, p: Pipe): int
    requires c.blockSize > 0
  {
    ProdWork(c, p) + 10 * |p.fifo| + ConsWork(p.cons) + WriterWork(NumBlocks(c), p)
  }

  /** A step that does more than look again at a queue or a slot that is not ready. */
  predicate Productive(c: Config, p: Pipe, w: Who)
    requires c.blockSize > 0 && Enabled(c, p, w)
  {
    match w
    case Prod => true
    case Cons(i) => ConsStage(p.cons[i]) > 0 || (p.cons[i].Looking? && p.fifo != [])
    case Write =>
      || p.writer.Writing? || p.writer.Freeing?
      || (p.writer.Peeking? && p.curr < |p.out| && p.out[p.curr].Some?)
      || (p.writer.Testing? && p.curr >= NumBlocks(c) && p.allDone)
    case Spurious => false
  }

  lemma {:induction false} ConsUpdate(cons: seq<Consumer>, i: nat, x: Consumer)
    requires i < |cons|
    ensures ConsWork(cons[i := x]) == ConsWork(cons) - ConsStage(cons[i]) + ConsStage(x)
  {
    if i == 0 {
      assert cons[0 := x][1..] == cons[1..];
    } else {
      ConsUpdate(cons[1..], i - 1, x);
      assert cons[i := x][1..] == cons[1..][i - 1 := x] && cons[i := x][0] == cons[0];
    }
  }

  lemma ProdLess(c: Config, p: Pipe)
    requires c.blockSize > 0 && Enabled(c, p, Prod)
    ensures Work(c, Produce(c, p)) < Work(c, p)
  {
  }

  /** A consumer's step changes its own place, the queue, and perhaps wakes the producer. */
  lemma ConsPlaces(c: Config, p: Pipe, i: nat)
    requires Enabled(c, p, Cons(i))
    ensures var q := Consume(c, p, i);
      && |q.cons| == |p.cons| && q.cons == p.cons[i := q.cons[i]]
      && q.rest == p.rest && q.writer == p.writer && q.curr == p.curr
      && q.prod == (if p.cons[i].Took? then Notified(p.prod) else p.prod)
      && |q.fifo| == |p.fifo| - (if p.cons[i].Looking? && p.fifo != [] then 1 else 0)
  {
  }

  lemma ConsStages(c: Config, p: Pipe, i: nat)
    requires c.blockSize > 0 && Enabled(c, p, Cons(i))
    ensures var q := Consume(c, p, i);
      10 * |q.fifo| + ConsStage(q.cons[i]) + ProdStage(q.prod)
      <= 10 * |p.fifo| + ConsStage(p.cons[i]) + ProdStage(p.prod)
         - if Productive(c, p, Cons(i)) then 1 else 0
  {
  }

  lemma ConsLess(c: Config, p: Pipe, i: nat)
    requires c.blockSize > 0 && Enabled(c, p, Cons(i))
    ensures Work(c, Consume(c, p, i)) <= Work(c, p)
    ensures Productive(c, p, Cons(i)) ==> Work(c, Consume(c, p, i)) < Work(c, p)
  {
    var q := Consume(c, p, i);
    ConsPlaces(c, p, i);
    ConsStages(c, p, i);
    ConsUpdate(p.cons, i, q.cons[i]);
    assert WriterWork(NumBlocks(c), q) == WriterWork(NumBlocks(c), p);
  }

  lemma WriteLess(c: Config, p: Pipe)
    requires c.blockSize > 0 && Enabled(c, p, Write) && p.curr <= NumBlocks(c) == |p.out|
    ensures Work(c, Writes(c, p)) <= Work(c, p)
    ensures Productive(c, p, Write) ==> Work(c, Writes(c, p)) < Work(c, p)
  {
  }

  /** No step adds work but a spurious wake-up, which adds two; every productive step does some. */
  lemma WorkStep(c: Config, p: Pipe, w: Who)
    requires Inv(c, p) && Enabled(c, p, w)
    ensures Work(c, Do(c, p, w)) + (if Productive(c, p, w) then 1 else 0)
      <= Work(c, p) + if w.Spurious? then 2 else 0
  {
    match w
    case Prod => ProdLess(c, p);
    case Cons(i) => ConsLess(c, p, i);
    case Write => BlockCount(c.file, c.blockSize); WriteLess(c, p);
    case Spurious =>
  }

  function Productives(c: Config, p: Pipe, ws: seq<Who>, p1: Pipe): nat
    requires Run(c, p, ws, p1)
    decreases |ws|
  {
    if ws == [] then 0
    else (if Productive(c, p, ws[0]) then 1 else 0) + Productives(c, Do(c, p, ws[0]), ws[1..], p1)
  }

  function Wakeups(ws: seq<Who>): nat {
    if ws == [] then 0 else (if ws[0].Spurious? then 1 else 0) + Wakeups(ws[1..])
  }

  lemma WorkLeft(c: Config, p: Pipe)
    requires Inv(c, p)
    ensures Work(c, p) >= 0
  {
    BlockCount(c.file, c.blockSize);
  }

  /** In every run the productive steps are bounded by the work at its start (and the spurious
      wake-ups): the pipeline cannot be busy for ever. */
  lemma {:induction false} BoundedWork(c: Config, p: Pipe, ws: seq<Who>, p1: Pipe)
    requires Inv(c, p) && Run(c, p, ws, p1)
    ensures Productives(c, p, ws, p1) + Work(c, p1) <= Work(c, p) + 2 * Wakeups(ws) && Work(c, p1) >= 0
    decreases |ws|
  {
    if ws == [] {
      WorkLeft(c, p);
    } else {
      WorkStep(c, p, ws[0]);
      StepInv(c, p, ws[0]);
      BoundedWork(c, Do(c, p, ws[0]), ws[1..], p1);
    }
  }

  // The writer ----------------------------------------------------------------------------------

  /** Own steps of the writer until it has passed a slot that is ready. */
  function SlotSteps(x: Writer): nat {
    match x
    case Testing => 4
    case Peeking => 3
    case Writing => 2
    case Freeing => 1
    case Done => 0
  }

  function WriteSteps(ws: seq<Who>): nat {
    if ws == [] then 0 else (if ws[0].Write? then 1 else 0) + WriteSteps(ws[1..])
  }

  /** A step of another thread does not touch the writer. */
  lemma WriterAlone(c: Config, p: Pipe, w: Who)
    requires c.blockSize > 0 && Enabled(c, p, w) && !w.Write?
    ensures var q := Do(c, p, w);
      q.writer == p.writer && q.curr == p.curr && q.written == p.written
  {
  }

  /** A step of the writer at a slot that is ready. */
  lemma SlotStep(c: Config, p: Pipe)
    requires Inv(c, p) && !p.writer.Done? && p.curr < |p.out| && p.out[p.curr].Some? && Enabled(c, p, Write)
    ensures var q := Writes(c, p);
      if p.writer.Freeing? then q.curr == p.curr + 1
      else q.curr == p.curr && !q.writer.Done? && SlotSteps(q.writer) == SlotSteps(p.writer) - 1
  {
    BlockCount(c.file, c.blockSize);
  }

  /** The slot before curr never matters again. */
  lemma CurrGrows(c: Config, p: Pipe, w: Who)
    requires c.blockSize > 0 && Enabled(c, p, w)
    ensures Do(c, p, w).curr >= p.curr
  {
    if !w.Write? { WriterAlone(c, p, w); }
  }

  /** Whatever the other threads do, a ready block is written and passed after at most four of the
      writer's own steps. */
  lemma {:induction false} ReadyIsWritten(c: Config, p: Pipe, ws: seq<Who>, p1: Pipe)
    requires Reachable(c, p) && Run(c, p, ws, p1)
    requires !p.writer.Done? && p.curr < |p.out| && p.out[p.curr].Some?
    requires WriteSteps(ws) >= SlotSteps(p.writer)
    ensures p1.curr > p.curr
    ensures p.curr < |Blocks(c.file, c.blockSize)| && Output(c, Blocks(c.file, c.blockSize), p.curr + 1) <= p1.written
  {
    ReachableInv(c, p);
    RunInv(c, p, ws, p1);
    SlotPassed(c, p, ws, p1);
    OutputGrows(c, Blocks(c.file, c.blockSize), p.curr + 1,
                if p1.writer.Freeing? then p1.curr + 1 else p1.curr);
  }

  lemma {:induction false} OutputGrows(c: Config, bs: seq<Bytes>, i: nat, j: nat)
    requires i <= j <= |bs|
    ensures Output(c, bs, i) <= Output(c, bs, j)
  {
    if i < j { OutputGrows(c, bs, i, j - 1); }
  }

  lemma {:induction false} SlotPassed(c: Config, p: Pipe, ws: seq<Who>, p1: Pipe)
    requires Inv(c, p) && Run(c, p, ws, p1)
    requires !p.writer.Done? && p.curr < |p.out| && p.out[p.curr].Some?
    requires WriteSteps(ws) >= SlotSteps(p.writer)
    ensures p1.curr > p.curr
    decreases |ws|
  {
    var q := Do(c, p, ws[0]);
    StepInv(c, p, ws[0]);
    if ws[0].Write? {
      SlotStep(c, p);
      if p.writer.Freeing? {
        CurrRun(c, q, ws[1..], p1);
      } else {
        SlotPassed(c, q, ws[1..], p1);
      }
    } else {
      WriterAlone(c, p, ws[0]);
      SlotKept(c, p, ws[0], p.curr);
      SlotPassed(c, q, ws[1..], p1);
    }
  }

  lemma SlotKept(c: Config, p: Pipe, w: Who, j: nat)
    requires Inv(c, p) && Enabled(c, p, w) && j < |p.out| && p.out[j].Some?
    ensures |Do(c, p, w).out| == |p.out| && Do(c, p, w).out[j] == p.out[j]
  {
    if w.Cons? { assert ConsumerOk(c, p, Blocks(c.file, c.blockSize), p.cons[w.i]); }
  }

  lemma {:induction false} CurrRun(c: Config, p: Pipe, ws: seq<Who>, p1: Pipe)
    requires Run(c, p, ws, p1)
    ensures p1.curr >= p.curr
    decreases |ws|
  {
    if ws != [] {
      CurrGrows(c, p, ws[0]);
      CurrRun(c, Do(c, p, ws[0]), ws[1..], p1);
    }
  }

  // The end ---------------------------------------------------------------------------------------

  /** Own steps of a consumer that has nothing left to take. */
  function ExitSteps(x: Consumer): nat {
    match x
    case Took(_) => 6
    case Has(_) => 5
    case Made(_, _) => 4
    case Start => 3
    case Dozing => 3
    case Looking => 2
    case SawEmpty => 1
    case Exited => 0
  }

  function ExitSum(cons: seq<Consumer>): nat {
    if cons == [] then 0 else ExitSteps(cons[0]) + ExitSum(cons[1..])
  }

  lemma {:induction false} ExitUpdate(cons: seq<Consumer>, i: nat, x: Consumer)
    requires i < |cons|
    ensures ExitSum(cons[i := x]) == ExitSum(cons) - ExitSteps(cons[i]) + ExitSteps(x)
  {
    if i == 0 {
      assert cons[0 := x][1..] == cons[1..];
    } else {
      ExitUpdate(cons[1..], i - 1, x);
      assert cons[i := x][1..] == cons[1..][i - 1 := x] && cons[i := x][0] == cons[0];
    }
  }

  lemma {:induction false} ExitBound(cons: seq<Consumer>)
    ensures ExitSum(cons) <= 6 * |cons|
  {
    if cons != [] { ExitBound(cons[1..]); }
  }

  /** What is left to the consumers once the producer has finished. */
  function ExitWork(p: Pipe): nat {
    7 * |p.fifo| + ExitSum(p.cons)
  }

  lemma ExitStages(c: Config, p: Pipe, i: nat)
    requires Enabled(c, p, Cons(i)) && (p.cons[i].SawEmpty? ==> p.allDone)
    ensures var q := Consume(c, p, i);
      7 * |q.fifo| + ExitSteps(q.cons[i]) < 7 * |p.fifo| + ExitSteps(p.cons[i])
  {
  }

  lemma ExitStep(c: Config, p: Pipe, w: Who)
    requires Inv(c, p) && Enabled(c, p, w) && p.prod.Finished?
    ensures Do(c, p, w).prod.Finished? && |Do(c, p, w).cons| == |p.cons|
    ensures ExitWork(Do(c, p, w)) + (if w.Cons? then 1 else 0) <= ExitWork(p)
  {
    if w.Cons? {
      ConsPlaces(c, p, w.i);
      ExitStages(c, p, w.i);
      ExitUpdate(p.cons, w.i, Consume(c, p, w.i).cons[w.i]);
    }
  }

  lemma {:induction false} ExitRun(c: Config, p: Pipe, ws: seq<Who>, p1: Pipe)
    requires Inv(c, p) && p.prod.Finished? && Run(c, p, ws, p1)
    ensures p1.prod.Finished? && ConsSteps(ws) + ExitWork(p1) <= ExitWork(p)
    decreases |ws|
  {
    if ws != [] {
      ExitStep(c, p, ws[0]);
      StepInv(c, p, ws[0]);
      ExitRun(c, Do(c, p, ws[0]), ws[1..], p1);
    }
  }

  /** Once the producer has finished, every step of a consumer brings it nearer to its exit: all
      consumers together take at most seven steps for each queued block and six steps each. */
  lemma ConsumersExit(c: Config, p: Pipe, ws: seq<Who>, p1: Pipe)
    requires Reachable(c, p) && p.prod.Finished? && Run(c, p, ws, p1)
    ensures ConsSteps(ws) <= 7 * |p.fifo| + 6 * |p.cons|
  {
    ReachableInv(c, p);
    ExitRun(c, p, ws, p1);
    ExitBound(p.cons);
  }

  /** A consumer that has seen the queue empty after the end of the file exits at its next step. */
  lemma ExitsNext(c: Config, p: Pipe, i: nat)
    requires Reachable(c, p) && i < |p.cons| && p.cons[i].SawEmpty? && p.prod.Finished?
    ensures Enabled(c, p, Cons(i)) && Do(c, p, Cons(i)).cons[i].Exited?
  {
    ReachableInv(c, p);
  }

  /** With everybody else gone, the writer can always step, and it ends, with the whole output
      written, within four steps for each block left and two more. */
  lemma {:induction false} WriterFinishes(c: Config, p: Pipe, ws: seq<Who>, p1: Pipe)
    requires Reachable(c, p) && p.prod.Finished? && |p.cons| > 0
    requires (forall i :: 0 <= i < |p.cons| ==> p.cons[i].Exited?) && Run(c, p, ws, p1)
    ensures p.curr <= NumBlocks(c)
    ensures |ws| <= 4 * (NumBlocks(c) - p.curr) + 2
    ensures p1.writer.Done? ==> p1.written == Output(c, Blocks(c.file, c.blockSize), |Blocks(c.file, c.blockSize)|)
    ensures !p1.writer.Done? ==> Enabled(c, p1, Write)
  {
    ReachableInv(c, p);
    BlockCount(c.file, c.blockSize);
    LastSteps(c, p, ws, p1);
    RunInv(c, p, ws, p1);
  }

  /** Steps left to the writer when every slot is ready. */
  function LastWork(n: nat, p: Pipe): int {
    match p.writer
    case Done => 0
    case Testing => 4 * (n - p.curr) + 1
    case Peeking => if p.curr < n then 4 * (n - p.curr) else 2
    case Writing => 4 * (n - p.curr) - 1
    case Freeing => 4 * (n - p.curr) - 2
  }

  predicate AllExited(p: Pipe) {
    p.prod.Finished? && |p.cons| > 0 && forall i :: 0 <= i < |p.cons| ==> p.cons[i].Exited?
  }

  lemma AllReady(c: Config, p: Pipe)
    requires Inv(c, p) && AllExited(p)
    ensures |p.out| == NumBlocks(c) && forall j: nat :: j < |p.out| ==> p.out[j].Some?
  {
    BlockCount(c.file, c.blockSize);
    var bs := Blocks(c.file, c.blockSize);
    assert ConsumerOk(c, p, bs, p.cons[0]);
  }

  lemma LastStep(c: Config, p: Pipe, w: Who)
    requires Inv(c, p) && AllExited(p) && Enabled(c, p, w)
    ensures w.Write? && AllExited(Do(c, p, w))
    ensures 0 <= LastWork(NumBlocks(c), Do(c, p, w)) < LastWork(NumBlocks(c), p)
  {
    AllReady(c, p);
  }

  lemma {:induction false} LastSteps(c: Config, p: Pipe, ws: seq<Who>, p1: Pipe)
    requires Inv(c, p) && AllExited(p) && Run(c, p, ws, p1)
    ensures |ws| <= LastWork(NumBlocks(c), p) || |ws| == 0
    decreases |ws|
  {
    if ws != [] {
      LastStep(c, p, ws[0]);
      StepInv(c, p, ws[0]);
      LastSteps(c, Do(c, p, ws[0]), ws[1..], p1);
    }
  }

  // Every state can be completed -------------------------------------------------------------------

  lemma StepRun(c: Config, p: Pipe, w: Who)
    requires c.blockSize > 0 && Enabled(c, p, w)
    ensures Run(c, p, [w], Do(c, p, w))
  {
    assert [w][1..] == [];
    assert Run(c, Do(c, p, w), [], Do(c, p, w));
  }

  lemma {:induction false} RunAppend(c: Config, p: Pipe, ws: seq<Who>, p1: Pipe, vs: seq<Who>, p2: Pipe)
    requires Run(c, p, ws, p1) && Run(c, p1, vs, p2)
    ensures Run(c, p, ws + vs, p2)
    decreases |ws|
  {
    if ws == [] {
      assert ws + vs == vs;
    } else {
      RunAppend(c, Do(c, p, ws[0]), ws[1..], p1, vs, p2);
      assert (ws + vs)[0] == ws[0] && (ws + vs)[1..] == ws[1..] + vs;
    }
  }

  /** Steps without a spurious wake-up lead from p to p1. */
  ghost predicate Leads(c: Config, p: Pipe, p1: Pipe) {
    exists ws: seq<Who> :: Run(c, p, ws, p1) && Spurious !in ws
  }

  lemma LeadsStep(c: Config, p: Pipe, w: Who)
    requires c.blockSize > 0 && Enabled(c, p, w) && !w.Spurious?
    ensures Leads(c, p, Do(c, p, w))
  {
    StepRun(c, p, w);
    assert Spurious !in [w];
  }

  lemma LeadsJoin(c: Config, p: Pipe, p1: Pipe, p2: Pipe)
    requires Leads(c, p, p1) && Leads(c, p1, p2)
    ensures Leads(c, p, p2)
  {
    var ws: seq<Who> :| Run(c, p, ws, p1) && Spurious !in ws;
    var vs: seq<Who> :| Run(c, p1, vs, p2) && Spurious !in vs;
    RunAppend(c, p, ws, p1, vs, p2);
    assert Spurious !in ws + vs;
  }

  /** All the invariants of a reachable state with a consumer. */
  ghost predicate Sound(c: Config, p: Pipe) {
    SignalInv(c, p) && |p.cons| > 0
  }

  lemma SoundStep(c: Config, p: Pipe, w: Who)
    requires Sound(c, p) && Enabled(c, p, w)
    ensures Sound(c, Do(c, p, w)) && |Do(c, p, w).cons| == |p.cons|
  {
    SignalStep(c, p, w);
    if w.Cons? { ConsPlaces(c, p, w.i); }
  }

  /** A productive step from a sound state. */
  lemma Advance1(c: Config, p: Pipe, w: Who) returns (p1: Pipe)
    requires Sound(c, p) && Enabled(c, p, w) && Productive(c, p, w)
    ensures Sound(c, p1) && Leads(c, p, p1) && Work(c, p1) < Work(c, p)
  {
    p1 := Do(c, p, w);
    SoundStep(c, p, w);
    WorkStep(c, p, w);
    LeadsStep(c, p, w);
  }

  /** A step that adds no work, before an advance. */
  lemma Before(c: Config, p: Pipe, w: Who) returns (q: Pipe)
    requires Sound(c, p) && Enabled(c, p, w) && !w.Spurious?
    ensures q == Do(c, p, w) && Sound(c, q) && Leads(c, p, q) && Work(c, q) <= Work(c, p)
  {
    q := Do(c, p, w);
    SoundStep(c, p, w);
    WorkStep(c, p, w);
    LeadsStep(c, p, w);
  }

  /** A consumer takes a queued block when the mutex is free. */
  lemma TakeNext(c: Config, p: Pipe, i: nat) returns (p1: Pipe)
    requires Sound(c, p) && p.mut == -1 && p.fifo != [] && i < |p.cons|
    requires p.cons[i].Start? || p.cons[i].Dozing?
    ensures Sound(c, p1) && Leads(c, p, p1) && Work(c, p1) < Work(c, p)
  {
    var q := Before(c, p, Cons(i));
    p1 := Advance1(c, q, Cons(i));
    LeadsJoin(c, p, q, p1);
  }

  /** The writer passes a slot that is ready, or ends. */
  lemma WriteNext(c: Config, p: Pipe) returns (p1: Pipe)
    requires Sound(c, p) && !p.writer.Done?
    requires (p.curr < |p.out| && p.out[p.curr].Some?) || (p.curr >= NumBlocks(c) && p.allDone)
    ensures Sound(c, p1) && Leads(c, p, p1) && Work(c, p1) < Work(c, p)
  {
    BlockCount(c.file, c.blockSize);
    if Productive(c, p, Write) {
      p1 := Advance1(c, p, Write);
    } else {
      var q := Before(c, p, Write);
      p1 := Advance1(c, q, Write);
      LeadsJoin(c, p, q, p1);
    }
  }

  /** With the mutex free and work left, an advance is at most two steps away. */
  lemma AdvanceFree(c: Config, p: Pipe) returns (p1: Pipe)
    requires Sound(c, p) && p.mut == -1 && Work(c, p) > 0
    ensures Sound(c, p1) && Leads(c, p, p1) && Work(c, p1) < Work(c, p)
  {
    if !p.prod.Sleeping? && !p.prod.Finished? {
      p1 := Advance1(c, p, Prod);
    } else if i :| 0 <= i < |p.cons| && ConsStage(p.cons[i]) > 0 {
      assert ConsumerOk(c, p, Blocks(c.file, c.blockSize), p.cons[i]);
      p1 := Advance1(c, p, Cons(i));
    } else if p.fifo != [] {
      FreeConsumer(c, p, 0);
      p1 := TakeNext(c, p, 0);
    } else {
      SleeperHasWork(c, p);
      DrainedIsReady(c, p);
      p1 := WriteNext(c, p);
    }
  }

  /** With the mutex free and a block queued, an idle consumer is about to take the mutex. */
  lemma FreeConsumer(c: Config, p: Pipe, i: nat)
    requires Sound(c, p) && p.mut == -1 && p.fifo != [] && i < |p.cons| && ConsStage(p.cons[i]) == 0
    ensures p.cons[i].Start? || p.cons[i].Dozing?
  {
    assert ConsumerOk(c, p, Blocks(c.file, c.blockSize), p.cons[i]);
    assert p.mut == i + 1 <==> HasMutex(p.cons[i]);
  }

  /** The producer does not sleep at an empty queue unless a signal is due. */
  lemma SleeperHasWork(c: Config, p: Pipe)
    requires Sound(c, p) && p.fifo == [] && (p.prod.Sleeping? || p.prod.Finished?)
    requires forall i :: 0 <= i < |p.cons| ==> ConsStage(p.cons[i]) == 0
    ensures p.prod.Finished?
  {
    assert forall i :: 0 <= i < |p.cons| ==> !p.cons[i].Took?;
  }

  lemma {:induction false} NoConsWork(cons: seq<Consumer>)
    requires forall i :: 0 <= i < |cons| ==> ConsStage(cons[i]) == 0
    ensures ConsWork(cons) == 0
  {
    if cons != [] { NoConsWork(cons[1..]); }
  }

  /** With all blocks through the consumers, only the writer has work, and can do it. */
  lemma DrainedIsReady(c: Config, p: Pipe)
    requires Sound(c, p) && p.prod.Finished? && p.fifo == [] && Work(c, p) > 0
    requires forall i :: 0 <= i < |p.cons| ==> ConsStage(p.cons[i]) == 0
    ensures !p.writer.Done?
    ensures (p.curr < |p.out| && p.out[p.curr].Some?) || (p.curr >= NumBlocks(c) && p.allDone)
  {
    BlockCount(c.file, c.blockSize);
    NoConsWork(p.cons);
    assert forall i, j: nat :: 0 <= i < |p.cons| ==> !Carries(p.cons[i], j);
  }

  /** Whoever has the mutex gives it back in one or two steps, or advances. */
  lemma Advance(c: Config, p: Pipe) returns (p1: Pipe)
    requires Sound(c, p) && Work(c, p) > 0
    ensures Sound(c, p1) && Leads(c, p, p1) && Work(c, p1) < Work(c, p)
  {
    if p.mut == -1 {
      p1 := AdvanceFree(c, p);
    } else if p.mut == 0 {
      p1 := Advance1(c, p, Prod);
    } else {
      var i := p.mut - 1;
      assert HasMutex(p.cons[i]);
      if p.cons[i].Looking? && p.fifo != [] {
        p1 := Advance1(c, p, Cons(i));
      } else {
        p1 := GiveBack(c, p, i);
      }
    }
  }

  lemma GiveBack(c: Config, p: Pipe, i: nat) returns (p1: Pipe)
    requires Sound(c, p) && Work(c, p) > 0 && i < |p.cons| && HasMutex(p.cons[i])
    requires p.cons[i].Looking? ==> p.fifo == []
    ensures Sound(c, p1) && Leads(c, p, p1) && Work(c, p1) < Work(c, p)
  {
    var q := p;
    if p.cons[i].Looking? { q := Before(c, p, Cons(i)); }
    var r := Before(c, q, Cons(i));
    if p.cons[i].Looking? { LeadsJoin(c, p, q, r); }
    if Work(c, r) < Work(c, p) {
      p1 := r;
    } else {
      p1 := AdvanceFree(c, r);
      LeadsJoin(c, p, r, p1);
    }
  }

  lemma {:induction false} Drain(c: Config, p: Pipe) returns (p1: Pipe)
    requires Sound(c, p)
    ensures Sound(c, p1) && Leads(c, p, p1) && Work(c, p1) == 0
    decreases Work(c, p)
  {
    WorkLeft(c, p);
    if Work(c, p) == 0 {
      p1 := p;
      assert Run(c, p, [], p) && Spurious !in [];
    } else {
      var q := Advance(c, p);
      WorkLeft(c, q);
      p1 := Drain(c, q);
      LeadsJoin(c, p, q, p1);
    }
  }

  /** From every reachable state, with at least one consumer, the pipeline can be completed without
      any spurious wake-up: the producer finishes, the writer ends, and all blocks are written. */
  lemma CanComplete(c: Config, p: Pipe) returns (p1: Pipe)
    requires Reachable(c, p) && |p.cons| > 0
    ensures Leads(c, p, p1) && p1.prod.Finished? && p1.writer.Done?
    ensures p1.written == Output(c, Blocks(c.file, c.blockSize), |Blocks(c.file, c.blockSize)|)
  {
    ReachableSignals(c, p);
    p1 := Drain(c, p);
    NoWorkLeft(c, p1);
  }

  lemma NoWorkLeft(c: Config, p: Pipe)
    requires Inv(c, p) && Work(c, p) == 0
    ensures p.prod.Finished? && p.writer.Done?
    ensures p.written == Output(c, Blocks(c.file, c.blockSize), |Blocks(c.file, c.blockSize)|)
  {
    BlockCount(c.file, c.blockSize);
  }

  /** After the end of the file some consumer can step until all have exited. */
  lemma ExitMoves(c: Config, p: Pipe, k: nat) returns (i: nat)
    requires Reachable(c, p) && p.prod.Finished? && k < |p.cons| && !p.cons[k].Exited?
    ensures Enabled(c, p, Cons(i))
  {
    ReachableInv(c, p);
    i := if p.mut > 0 then p.mut - 1 else k;
    assert ConsumerOk(c, p, Blocks(c.file, c.blockSize), p.cons[i]);
    assert p.mut == i + 1 <==> HasMutex(p.cons[i]);
  }
}
