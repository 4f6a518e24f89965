/** The compression pipeline of pbzip2: a producer cuts the file into blocks, consumers compress
    them in any order, and a writer puts the results out in block order.  Every interleaving of
    the threads is allowed; a step is one section under a mutex or one access to shared data. */
module Pipeline {
  import opened Options
  import opened RingBuffer

  /** `comp` stands for the compression of one block; reads return what was asked for. */
  datatype Config = Config(file: Bytes, blockSize: nat, cap: nat, comp: Bytes -> Bytes)

  ghost predicate Proper(c: Config) {
    c.blockSize > 0 && c.cap >= 1 && forall b :: c.comp(b) != []
  }

  function Min(a: nat, b: nat): nat {
    if a < b then a else b
  }

  function Blocks(file: Bytes, size: nat): seq<Bytes>
    requires size > 0
  {
    if file == [] then [] else
      var n := Min(|file|, size);
      [file[..n]] + Blocks(file[n..], size)
  }

  /** NumBlocks as main computes it. */
  function NumBlocks(c: Config): nat
    requires c.blockSize > 0
  {
    (|c.file| + c.blockSize - 1) / c.blockSize
  }

  datatype Producer =
    | Reading
    | Holding(b: Bytes)         // has read a block, wants the queue mutex
    | Adding(b: Bytes)          // has the mutex
    | Sleeping(b: Bytes)        // waits for notFull
    | Waking(b: Bytes)          // woken, wants the mutex again
    | Closing                   // end of file, allDone not yet set
    | Finished

  datatype Consumer =
    | Start
    | Looking                   // has the mutex
    | SawEmpty                  // has the mutex, is about to test allDone
    | Dozing                    // waits for notEmpty, for one second at most
    | Took(item: Item)          // has taken a block and put the mutex, signals notFull next
    | Has(item: Item)
    | Made(num: nat, data: Bytes)
    | Exited

  datatype Writer = Testing | Peeking | Writing | Freeing | Done

  datatype Pipe = Pipe(
    rest: Bytes,                // bytes not yet read
    next: nat,                  // blockNum of the producer
    prod: Producer,
    fifo: seq<Item>,
    mut: int,                   // -1 free, 0 the producer, i + 1 consumer i
    cons: seq<Consumer>,
    allDone: bool,
    out: seq<Option<Bytes>>,    // OutputBuffer; None is a NULL or empty slot
    writer: Writer,
    curr: nat,
    written: Bytes)

  /** Whose step it is; a condition wait may also end without a signal. */
  datatype Who = Prod | Cons(i: nat) | Write | Spurious

  function Init(c: Config, consumers: nat): Pipe
    requires c.blockSize > 0
  {
    Pipe(c.file, 0, Reading, [], -1, seq(consumers, _ => Start), false,
         seq(NumBlocks(c), _ => None), Testing, 0, [])
  }

  // The threads ---------------------------------------------------------------------------------

  predicate Enabled(c: Config, p: Pipe, w: Who) {
    match w
    case Prod => !p.prod.Finished? && !p.prod.Sleeping? && (p.prod.Holding? || p.prod.Waking? ==> p.mut == -1)
    case Spurious => p.prod.Sleeping?
    case Cons(i) =>
      i < |p.cons| && !p.cons[i].Exited?
      && (p.cons[i].Start? || p.cons[i].Dozing? ==> p.mut == -1)
      && (p.cons[i].Made? ==> p.cons[i].num < |p.out|)
    case Write => !p.writer.Done? && (p.writer.Writing? ==> p.curr < |p.out| && p.out[p.curr].Some?)
  }

  function Produce(c: Config, p: Pipe): Pipe
    requires c.blockSize > 0
  {
    match p.prod
    case Reading =>
      if p.rest == [] then p.(prod := Closing)
      else
        var n := Min(|p.rest|, c.blockSize);
        p.(rest := p.rest[n..], prod := Holding(p.rest[..n]))
    case Holding(b) => p.(prod := Adding(b), mut := 0)
    case Waking(b) => p.(prod := Adding(b), mut := 0)
    case Adding(b) =>
      if |p.fifo| >= c.cap then p.(prod := Sleeping(b), mut := -1)
      else p.(fifo := p.fifo + [Item(b, |b|, p.next)], next := p.next + 1, prod := Reading, mut := -1)
    case Closing => p.(prod := Finished, allDone := true)
    case _ => p
  }

  /** A signal of notFull reaches the producer if it waits. */
  function Notified(x: Producer): Producer {
    if x.Sleeping? then Waking(x.b) else x
  }

  function SetCons(p: Pipe, i: nat, x: Consumer): Pipe
    requires i < |p.cons|
  {
    p.(cons := p.cons[i := x])
  }

  function Consume(c: Config, p: Pipe, i: nat): Pipe
    requires Enabled(c, p, Cons(i))
  {
    match p.cons[i]
    case Start => SetCons(p, i, Looking).(mut := i + 1)
    case Dozing => SetCons(p, i, Looking).(mut := i + 1)
    case Looking =>
      if p.fifo == [] then SetCons(p, i, SawEmpty)
      else SetCons(p, i, Took(p.fifo[0])).(fifo := p.fifo[1..], mut := -1)
    case SawEmpty => SetCons(p, i, if p.allDone then Exited else Dozing).(mut := -1)
    case Took(x) => SetCons(p, i, Has(x)).(prod := Notified(p.prod))
    case Has(x) => SetCons(p, i, Made(x.blockNum, c.comp(x.buf)))
    case Made(n, d) => SetCons(p, i, Start).(out := p.out[n := if d == [] then None else Some(d)])
    case Exited => p
  }

  function Writes(c: Config, p: Pipe): Pipe
    requires c.blockSize > 0 && Enabled(c, p, Write)
  {
    match p.writer
    case Testing => p.(writer := if p.curr < NumBlocks(c) || !p.allDone then Peeking else Done)
    case Peeking =>
      // a slot past the end reads as not ready
      p.(writer := if p.curr < |p.out| && p.out[p.curr].Some? then Writing else Testing)
    case Writing => p.(writer := Freeing, written := p.written + p.out[p.curr].value)
    case Freeing => p.(writer := Testing, curr := p.curr + 1)
    case Done => p
  }

  function Do(c: Config, p: Pipe, w: Who): Pipe
    requires c.blockSize > 0 && Enabled(c, p, w)
  {
    match w
    case Prod => Produce(c, p)
    case Cons(i) => Consume(c, p, i)
    case Write => Writes(c, p)
    case Spurious => p.(prod := Notified(p.prod))
  }

  // Blocks --------------------------------------------------------------------------------------

  lemma DivStep(n: nat, d: nat)
    requires d > 0 && n > d
    ensures (n + d - 1) / d == 1 + (n - d + d - 1) / d
  {
    var q := (n - 1) / d;
    assert n - 1 == q * d + (n - 1) % d;
    assert n + d - 1 == (q + 1) * d + (n - 1) % d;
    Quotient(n + d - 1, d, q + 1, (n - 1) % d);
  }

  lemma Quotient(n: nat, d: nat, q: nat, r: nat)
    requires d > 0 && r < d && n == q * d + r
    ensures n / d == q
  {
    SameQuotient(n / d, n % d, q, r, d);
  }

  lemma SameQuotient(k: nat, m: nat, q: nat, r: nat, d: nat)
    requires m < d && r < d && k * d + m == q * d + r
    ensures k == q
  {
    if k < q {
      Scale(q, k, d);
    } else if q < k {
      Scale(k, q, d);
    }
  }

  lemma Scale(a: nat, b: nat, d: nat)
    requires a > b
    ensures a * d >= b * d + d
  {
    assert (a - b) * d == a * d - b * d;
    assert (a - b) * d == (a - b - 1) * d + d;
  }

  /** The number main computes is the number of blocks the producer cuts. */
  lemma {:induction false} BlockCount(file: Bytes, size: nat)
    requires size > 0
    ensures |Blocks(file, size)| == (|file| + size - 1) / size
    decreases |file|
  {
    if |file| > size {
      BlockCount(file[size..], size);
      DivStep(|file|, size);
    } else if file != [] {
      assert file[|file|..] == [];
      Quotient(|file| + size - 1, size, 1, |file| - 1);
    } else {
      Quotient(size - 1, size, 0, size - 1);
    }
  }

  function Concat(bs: seq<Bytes>): Bytes {
    if bs == [] then [] else bs[0] + Concat(bs[1..])
  }

  /** The blocks make up the file, and none is empty or too long. */
  lemma {:induction false} BlocksPartition(file: Bytes, size: nat)
    requires size > 0
    ensures Concat(Blocks(file, size)) == file
    ensures forall j :: 0 <= j < |Blocks(file, size)| ==> 1 <= |Blocks(file, size)[j]| <= size
    decreases |file|
  {
    if file != [] {
      var n := Min(|file|, size);
      BlocksPartition(file[n..], size);
      var bs := Blocks(file, size);
      assert bs[1..] == Blocks(file[n..], size);
      forall j | 0 <= j < |bs| ensures 1 <= |bs[j]| <= size {
        if j > 0 { assert bs[j] == Blocks(file[n..], size)[j - 1]; }
      }
    }
  }

  /** The compressed form of the first `k` blocks. */
  function Output(c: Config, bs: seq<Bytes>, k: nat): Bytes
    requires k <= |bs|
  {
    if k == 0 then [] else Output(c, bs, k - 1) + c.comp(bs[k - 1])
  }

  // The invariant -------------------------------------------------------------------------------

  predicate HoldsBlock(x: Producer) {
    x.Holding? || x.Adding? || x.Sleeping? || x.Waking?
  }

  ghost predicate ProdOk(c: Config, p: Pipe, bs: seq<Bytes>)
    requires c.blockSize > 0
  {
    && p.next <= |bs|
    && (if HoldsBlock(p.prod)
        then p.next < |bs| && p.prod.b == bs[p.next] && Blocks(p.rest, c.blockSize) == bs[p.next + 1..]
        else Blocks(p.rest, c.blockSize) == bs[p.next..])
    && (p.prod.Closing? || p.prod.Finished? ==> p.rest == [] && p.next == |bs|)
    && (p.allDone <==> p.prod.Finished?)
  }

  function BlockItem(bs: seq<Bytes>, j: nat): Item
    requires j < |bs|
  {
    Item(bs[j], |bs[j]|, j)
  }

  /** The number of blocks consumers have taken. */
  function Taken(p: Pipe): int {
    p.next - |p.fifo|
  }

  ghost predicate FifoOk(c: Config, p: Pipe, bs: seq<Bytes>) {
    && p.next <= |bs| && |p.fifo| <= p.next && |p.fifo| <= c.cap
    && forall i :: 0 <= i < |p.fifo| ==> p.fifo[i] == BlockItem(bs, Taken(p) + i)
  }

  predicate HasMutex(x: Consumer) {
    x.Looking? || x.SawEmpty?
  }

  ghost predicate MutexOk(p: Pipe) {
    && -1 <= p.mut <= |p.cons|
    && (p.mut == 0 <==> p.prod.Adding?)
    && forall i :: 0 <= i < |p.cons| ==> (p.mut == i + 1 <==> HasMutex(p.cons[i]))
  }

  /** The block a consumer works on. */
  predicate Carries(x: Consumer, j: nat) {
    ((x.Took? || x.Has?) && x.item.blockNum == j) || (x.Made? && x.num == j)
  }

  ghost predicate ConsumerOk(c: Config, p: Pipe, bs: seq<Bytes>, x: Consumer)
    requires p.next <= |bs| && |p.fifo| <= p.next && |p.out| == |bs|
  {
    match x
    case SawEmpty => p.fifo == []
    case Exited => p.fifo == [] && p.allDone
    case Took(y) => y.blockNum < Taken(p) && y == BlockItem(bs, y.blockNum) && p.out[y.blockNum].None?
    case Has(y) => y.blockNum < Taken(p) && y == BlockItem(bs, y.blockNum) && p.out[y.blockNum].None?
    case Made(n, d) => n < Taken(p) && d == c.comp(bs[n]) && p.out[n].None?
    case _ => true
  }

  ghost predicate ConsumersOk(c: Config, p: Pipe, bs: seq<Bytes>)
    requires p.next <= |bs| && |p.fifo| <= p.next && |p.out| == |bs|
  {
    && (forall i :: 0 <= i < |p.cons| ==> ConsumerOk(c, p, bs, p.cons[i]))
    && (forall i, k, j: nat ::
          0 <= i < k < |p.cons| && Carries(p.cons[i], j) ==> !Carries(p.cons[k], j))
  }

  /** Every block taken off the queue is in its slot or with a consumer. */
  ghost predicate OutOk(c: Config, p: Pipe, bs: seq<Bytes>)
    requires p.next <= |bs| && |p.fifo| <= p.next && |p.out| == |bs|
  {
    && (forall j: nat :: j < |bs| && p.out[j].Some? ==> j < Taken(p) && p.out[j].value == c.comp(bs[j]))
    && (forall j: nat :: j < Taken(p) && p.out[j].None? ==>
          exists i :: 0 <= i < |p.cons| && Carries(p.cons[i], j))
  }

  ghost predicate WriterOk(c: Config, p: Pipe, bs: seq<Bytes>)
    requires |p.out| == |bs|
  {
    && p.curr <= |bs|
    && (p.writer.Writing? || p.writer.Freeing? ==> p.curr < |bs| && p.out[p.curr].Some?)
    && p.written == Output(c, bs, if p.writer.Freeing? then p.curr + 1 else p.curr)
    && (p.writer.Done? ==> p.curr == |bs| && p.allDone)
  }

  ghost predicate Inv(c: Config, p: Pipe) {
    && Proper(c)
    && var bs := Blocks(c.file, c.blockSize);
       && |p.out| == |bs|
       && ProdOk(c, p, bs) && FifoOk(c, p, bs) && MutexOk(p)
       && ConsumersOk(c, p, bs) && OutOk(c, p, bs) && WriterOk(c, p, bs)
  }

  lemma InitInv(c: Config, consumers: nat)
    requires Proper(c)
    ensures Inv(c, Init(c, consumers))
  {
    BlockCount(c.file, c.blockSize);
  }

  // Steps ---------------------------------------------------------------------------------------

  lemma ReadStep(c: Config, p: Pipe, bs: seq<Bytes>)
    requires c.blockSize > 0 && ProdOk(c, p, bs) && p.prod.Reading?
    ensures ProdOk(c, Produce(c, p), bs)
  {
    if p.rest != [] {
      var n := Min(|p.rest|, c.blockSize);
      assert bs[p.next..][0] == bs[p.next] && bs[p.next..][1..] == bs[p.next + 1..];
    }
  }

  lemma AddStep(c: Config, p: Pipe, bs: seq<Bytes>)
    requires c.blockSize > 0 && |p.out| == |bs| && ProdOk(c, p, bs) && FifoOk(c, p, bs)
    requires p.prod.Adding? && |p.fifo| < c.cap && MutexOk(p)
    requires ConsumersOk(c, p, bs) && OutOk(c, p, bs)
    ensures var q := Produce(c, p);
      FifoOk(c, q, bs) && ConsumersOk(c, q, bs) && OutOk(c, q, bs)
  {
    var q := Produce(c, p);
    assert Taken(q) == Taken(p);
    forall i | 0 <= i < |q.cons| ensures ConsumerOk(c, q, bs, q.cons[i]) {
      assert ConsumerOk(c, p, bs, p.cons[i]);
    }
  }

  /** Consumers and slots under a step that changes neither them nor the queue. */
  lemma Frame(c: Config, p: Pipe, q: Pipe, bs: seq<Bytes>)
    requires |p.out| == |bs| && FifoOk(c, p, bs) && ConsumersOk(c, p, bs) && OutOk(c, p, bs)
    requires q.cons == p.cons && q.fifo == p.fifo && q.out == p.out && q.next == p.next
    requires p.allDone ==> q.allDone
    ensures FifoOk(c, q, bs) && ConsumersOk(c, q, bs) && OutOk(c, q, bs)
  {
    forall i | 0 <= i < |q.cons| ensures ConsumerOk(c, q, bs, q.cons[i]) {
      assert ConsumerOk(c, p, bs, p.cons[i]);
    }
  }

  lemma ProdParts(c: Config, p: Pipe, bs: seq<Bytes>)
    requires c.blockSize > 0 && ProdOk(c, p, bs) && MutexOk(p) && Enabled(c, p, Prod)
    requires |p.out| == |bs| && WriterOk(c, p, bs)
    ensures ProdOk(c, Produce(c, p), bs) && MutexOk(Produce(c, p))
    ensures Produce(c, p).out == p.out && WriterOk(c, Produce(c, p), bs)
    ensures p.allDone ==> Produce(c, p).allDone
  {
    if p.prod.Reading? { ReadStep(c, p, bs); }
  }

  lemma ProdStep(c: Config, p: Pipe)
    requires Inv(c, p) && Enabled(c, p, Prod)
    ensures Inv(c, Produce(c, p))
  {
    var bs := Blocks(c.file, c.blockSize);
    ProdParts(c, p, bs);
    if p.prod.Adding? && |p.fifo| < c.cap {
      AddStep(c, p, bs);
    } else {
      Frame(c, p, Produce(c, p), bs);
    }
  }

  /** The mutex passes as the consumer's program counter says. */
  lemma ConsMutex(c: Config, p: Pipe, i: nat)
    requires MutexOk(p) && Enabled(c, p, Cons(i))
    ensures MutexOk(Consume(c, p, i))
  {
    var q := Consume(c, p, i);
    forall k | 0 <= k < |q.cons| ensures q.mut == k + 1 <==> HasMutex(q.cons[k]) {
      assert p.mut == k + 1 <==> HasMutex(p.cons[k]);
      assert p.mut == i + 1 <==> HasMutex(p.cons[i]);
    }
  }

  /** A consumer takes the oldest block. */
  lemma TakeConsumers(c: Config, p: Pipe, i: nat, bs: seq<Bytes>)
    requires |p.out| == |bs| && FifoOk(c, p, bs) && ConsumersOk(c, p, bs) && OutOk(c, p, bs)
    requires Enabled(c, p, Cons(i)) && p.cons[i].Looking? && p.fifo != []
    ensures FifoOk(c, Consume(c, p, i), bs) && ConsumersOk(c, Consume(c, p, i), bs)
  {
    var q := Consume(c, p, i);
    var a := Taken(p);
    assert p.fifo[0] == BlockItem(bs, a + 0);
    assert Taken(q) == a + 1;
    forall k | 0 <= k < |q.cons|
      ensures ConsumerOk(c, q, bs, q.cons[k]) && (k != i ==> !Carries(q.cons[k], a))
    {
      assert ConsumerOk(c, p, bs, p.cons[k]);
    }
  }

  lemma TakeStep(c: Config, p: Pipe, i: nat)
    requires Inv(c, p) && Enabled(c, p, Cons(i)) && p.cons[i].Looking? && p.fifo != []
    ensures Inv(c, Consume(c, p, i))
  {
    var bs := Blocks(c.file, c.blockSize);
    TakeConsumers(c, p, i, bs);
    TakeOut(c, p, i, bs);
    ConsMutex(c, p, i);
  }

  lemma TakeOut(c: Config, p: Pipe, i: nat, bs: seq<Bytes>)
    requires |p.out| == |bs| && FifoOk(c, p, bs) && OutOk(c, p, bs)
    requires Enabled(c, p, Cons(i)) && p.cons[i].Looking? && p.fifo != []
    ensures OutOk(c, Consume(c, p, i), bs)
  {
    var q := Consume(c, p, i);
    assert p.fifo[0] == BlockItem(bs, Taken(p) + 0);
    forall j: nat | j < Taken(q) && q.out[j].None?
      ensures exists k :: 0 <= k < |q.cons| && Carries(q.cons[k], j)
    {
      if j == Taken(p) {
        assert Carries(q.cons[i], j);
      } else {
        StillCarried(p, q, i, j);
      }
    }
  }

  /** A block carried by somebody else, or by a consumer that keeps it, is still carried. */
  lemma StillCarried(p: Pipe, q: Pipe, i: nat, j: nat)
    requires i < |p.cons| && |q.cons| == |p.cons|
    requires forall k :: 0 <= k < |p.cons| && k != i ==> q.cons[k] == p.cons[k]
    requires Carries(p.cons[i], j) ==> Carries(q.cons[i], j)
    requires exists k :: 0 <= k < |p.cons| && Carries(p.cons[k], j)
    ensures exists k :: 0 <= k < |q.cons| && Carries(q.cons[k], j)
  {
    var k :| 0 <= k < |p.cons| && Carries(p.cons[k], j);
    assert Carries(q.cons[k], j);
  }

  /** A consumer puts its result into the slot of its block. */
  lemma StoreConsumers(c: Config, p: Pipe, i: nat, bs: seq<Bytes>)
    requires |p.out| == |bs| && FifoOk(c, p, bs) && ConsumersOk(c, p, bs) && OutOk(c, p, bs)
    requires Enabled(c, p, Cons(i)) && p.cons[i].Made? && p.cons[i].data != []
    ensures var q := Consume(c, p, i);
      ConsumersOk(c, q, bs) && OutOk(c, q, bs)
  {
    var q := Consume(c, p, i);
    var n := p.cons[i].num;
    assert ConsumerOk(c, p, bs, p.cons[i]) && Carries(p.cons[i], n);
    forall k | 0 <= k < |q.cons| ensures ConsumerOk(c, q, bs, q.cons[k]) {
      assert ConsumerOk(c, p, bs, p.cons[k]);
      assert k != i ==> !Carries(p.cons[k], n);
    }
    forall j: nat | j < Taken(q) && q.out[j].None?
      ensures exists k :: 0 <= k < |q.cons| && Carries(q.cons[k], j)
    {
      StillCarried(p, q, i, j);
    }
  }

  lemma StoreWriter(c: Config, p: Pipe, i: nat, bs: seq<Bytes>)
    requires |p.out| == |bs| && WriterOk(c, p, bs)
    requires Enabled(c, p, Cons(i)) && p.cons[i].Made? && p.cons[i].data != []
    ensures WriterOk(c, Consume(c, p, i), bs)
  {
  }

  lemma StoreStep(c: Config, p: Pipe, i: nat)
    requires Inv(c, p) && Enabled(c, p, Cons(i)) && p.cons[i].Made?
    ensures Inv(c, Consume(c, p, i))
  {
    var bs := Blocks(c.file, c.blockSize);
    assert ConsumerOk(c, p, bs, p.cons[i]);
    ConsMutex(c, p, i);
    StoreConsumers(c, p, i, bs);
    StoreWriter(c, p, i, bs);
  }

  /** A consumer that moves on without touching the queue or a slot keeps its block. */
  lemma MovesOn(c: Config, p: Pipe, i: nat, bs: seq<Bytes>)
    requires p.next <= |bs| && |p.fifo| <= p.next && |p.out| == |bs|
    requires Enabled(c, p, Cons(i)) && !p.cons[i].Made? && (p.cons[i].Looking? ==> p.fifo == [])
    requires ConsumerOk(c, p, bs, p.cons[i])
    ensures var q := Consume(c, p, i);
      && q.fifo == p.fifo && q.out == p.out && q.next == p.next && q.allDone == p.allDone
      && q.cons == p.cons[i := q.cons[i]]
      && ConsumerOk(c, q, bs, q.cons[i])
      && forall j: nat :: Carries(q.cons[i], j) <==> Carries(p.cons[i], j)
  {
  }

  /** The other steps of a consumer leave the queue and the slots alone. */
  lemma OtherConsumers(c: Config, p: Pipe, i: nat, bs: seq<Bytes>)
    requires |p.out| == |bs| && FifoOk(c, p, bs) && ConsumersOk(c, p, bs) && OutOk(c, p, bs)
    requires Enabled(c, p, Cons(i)) && !p.cons[i].Made? && (p.cons[i].Looking? ==> p.fifo == [])
    ensures var q := Consume(c, p, i);
      ConsumersOk(c, q, bs) && OutOk(c, q, bs)
  {
    var q := Consume(c, p, i);
    MovesOn(c, p, i, bs);
    KeptBlocks(c, p, q, i, bs);
  }

  lemma KeptBlocks(c: Config, p: Pipe, q: Pipe, i: nat, bs: seq<Bytes>)
    requires |p.out| == |bs| && FifoOk(c, p, bs) && ConsumersOk(c, p, bs) && OutOk(c, p, bs)
    requires i < |p.cons| == |q.cons| && q.cons == p.cons[i := q.cons[i]]
    requires q.fifo == p.fifo && q.out == p.out && q.next == p.next && q.allDone == p.allDone
    requires ConsumerOk(c, q, bs, q.cons[i])
    requires forall j: nat :: Carries(q.cons[i], j) <==> Carries(p.cons[i], j)
    ensures ConsumersOk(c, q, bs) && OutOk(c, q, bs)
  {
    forall k | 0 <= k < |q.cons|
      ensures ConsumerOk(c, q, bs, q.cons[k])
      ensures forall j: nat :: Carries(q.cons[k], j) <==> Carries(p.cons[k], j)
    {
      assert ConsumerOk(c, p, bs, p.cons[k]);
    }
    forall j: nat | j < Taken(q) && q.out[j].None?
      ensures exists k :: 0 <= k < |q.cons| && Carries(q.cons[k], j)
    {
      StillCarried(p, q, i, j);
    }
  }

  lemma OtherConsStep(c: Config, p: Pipe, i: nat)
    requires Inv(c, p) && Enabled(c, p, Cons(i)) && !p.cons[i].Made?
    requires p.cons[i].Looking? ==> p.fifo == []
    ensures Inv(c, Consume(c, p, i))
  {
    var bs := Blocks(c.file, c.blockSize);
    var q := Consume(c, p, i);
    ConsMutex(c, p, i);
    OtherConsumers(c, p, i, bs);
    ConsFrame(c, p, q, bs);
  }

  /** What the producer, the queue and the writer see of a consumer that only moves on. */
  lemma ConsFrame(c: Config, p: Pipe, q: Pipe, bs: seq<Bytes>)
    requires c.blockSize > 0 && |p.out| == |bs| && ProdOk(c, p, bs) && FifoOk(c, p, bs) && WriterOk(c, p, bs)
    requires q.rest == p.rest && q.next == p.next && q.allDone == p.allDone
    requires q.prod == p.prod || q.prod == Notified(p.prod)
    requires q.fifo == p.fifo && q.out == p.out
    requires q.writer == p.writer && q.curr == p.curr && q.written == p.written
    ensures ProdOk(c, q, bs) && FifoOk(c, q, bs) && WriterOk(c, q, bs)
  {
  }

  lemma WriterStep(c: Config, p: Pipe, bs: seq<Bytes>)
    requires c.blockSize > 0 && |p.out| == |bs| == NumBlocks(c) && p.next <= |bs| && |p.fifo| <= p.next
    requires WriterOk(c, p, bs) && OutOk(c, p, bs) && Enabled(c, p, Write)
    requires ProdOk(c, p, bs) && MutexOk(p)
    ensures WriterOk(c, Writes(c, p), bs) && ProdOk(c, Writes(c, p), bs) && MutexOk(Writes(c, p))
  {
  }

  lemma WriteStep(c: Config, p: Pipe)
    requires Inv(c, p) && Enabled(c, p, Write)
    ensures Inv(c, Writes(c, p))
  {
    var bs := Blocks(c.file, c.blockSize);
    BlockCount(c.file, c.blockSize);
    WriterStep(c, p, bs);
    Frame(c, p, Writes(c, p), bs);
  }

  lemma SpuriousStep(c: Config, p: Pipe)
    requires Inv(c, p) && p.prod.Sleeping?
    ensures Inv(c, p.(prod := Notified(p.prod)))
  {
    var bs := Blocks(c.file, c.blockSize);
    var q := p.(prod := Notified(p.prod));
    ConsFrame(c, p, q, bs);
    Frame(c, p, q, bs);
  }

  lemma StepInv(c: Config, p: Pipe, w: Who)
    requires Inv(c, p) && Enabled(c, p, w)
    ensures Inv(c, Do(c, p, w))
  {
    match w
    case Prod => ProdStep(c, p);
    case Cons(i) =>
      if p.cons[i].Made? {
        StoreStep(c, p, i);
      } else if p.cons[i].Looking? && p.fifo != [] {
        TakeStep(c, p, i);
      } else {
        OtherConsStep(c, p, i);
      }
    case Write => WriteStep(c, p);
    case Spurious => SpuriousStep(c, p);
  }

  // Every run -----------------------------------------------------------------------------------

  ghost predicate Run(c: Config, p: Pipe, ws: seq<Who>, p1: Pipe)
    decreases |ws|
  {
    if ws == [] then p == p1
    else c.blockSize > 0 && Enabled(c, p, ws[0]) && Run(c, Do(c, p, ws[0]), ws[1..], p1)
  }

  lemma {:induction false} RunInv(c: Config, p: Pipe, ws: seq<Who>, p1: Pipe)
    requires Inv(c, p) && Run(c, p, ws, p1)
    ensures Inv(c, p1)
    decreases |ws|
  {
    if ws != [] {
      StepInv(c, p, ws[0]);
      RunInv(c, Do(c, p, ws[0]), ws[1..], p1);
    }
  }

  ghost predicate Reachable(c: Config, p: Pipe) {
    Proper(c) && exists n: nat, ws: seq<Who> :: Run(c, Init(c, n), ws, p)
  }

  lemma ReachableInv(c: Config, p: Pipe)
    requires Reachable(c, p)
    ensures Inv(c, p)
  {
    var n: nat, ws: seq<Who> :| Run(c, Init(c, n), ws, p);
    InitInv(c, n);
    RunInv(c, Init(c, n), ws, p);
  }

  /** Whatever the interleaving, the bytes written are the compressed blocks 0 .. currBlock - 1
      in order, with block currBlock too once it is written and not yet counted. */
  lemma OutputInOrder(c: Config, p: Pipe)
    requires Reachable(c, p)
    ensures p.curr <= |Blocks(c.file, c.blockSize)|
    ensures p.writer.Freeing? ==> p.curr < |Blocks(c.file, c.blockSize)|
    ensures p.written ==
      Output(c, Blocks(c.file, c.blockSize), if p.writer.Freeing? then p.curr + 1 else p.curr)
  {
    ReachableInv(c, p);
  }

  /** A writer that has ended has written every block, so all complete runs agree. */
  lemma CompleteOutput(c: Config, p: Pipe)
    requires Reachable(c, p) && p.writer.Done?
    ensures |Blocks(c.file, c.blockSize)| == NumBlocks(c)
    ensures p.written == Output(c, Blocks(c.file, c.blockSize), NumBlocks(c))
  {
    ReachableInv(c, p);
    BlockCount(c.file, c.blockSize);
  }

  /** No consumer exits while a block is queued or still to be queued. */
  lemma NoEarlyExit(c: Config, p: Pipe, i: nat)
    requires Reachable(c, p) && i < |p.cons| && p.cons[i].Exited?
    ensures p.fifo == [] && p.prod.Finished? && p.rest == [] && p.next == NumBlocks(c)
  {
    ReachableInv(c, p);
    BlockCount(c.file, c.blockSize);
    assert ConsumerOk(c, p, Blocks(c.file, c.blockSize), p.cons[i]);
  }

  /** When all consumers have exited, every block has reached its slot: none is lost. */
  lemma NoBlockLost(c: Config, p: Pipe, j: nat)
    requires Reachable(c, p) && |p.cons| > 0 && (forall i :: 0 <= i < |p.cons| ==> p.cons[i].Exited?)
    requires j < NumBlocks(c)
    ensures j < |p.out| && j < |Blocks(c.file, c.blockSize)|
    ensures p.out[j] == Some(c.comp(Blocks(c.file, c.blockSize)[j]))
  {
    ReachableInv(c, p);
    NoEarlyExit(c, p, 0);
    BlockCount(c.file, c.blockSize);
    assert Taken(p) == NumBlocks(c);
  }

  /** A slot is stored into once: what the writer reads outside the mutex cannot change. */
  lemma SlotsStable(c: Config, p: Pipe, w: Who, j: nat)
    requires Reachable(c, p) && Enabled(c, p, w) && j < |p.out| && p.out[j].Some?
    ensures |Do(c, p, w).out| == |p.out| && Do(c, p, w).out[j] == p.out[j]
  {
    ReachableInv(c, p);
    if w.Cons? {
      assert ConsumerOk(c, p, Blocks(c.file, c.blockSize), p.cons[w.i]);
    }
  }
}
