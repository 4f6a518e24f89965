/** The block queue of pbzip2: three parallel arrays used as a ring. */
module RingBuffer {
  type Bytes = seq<char>

  datatype Item = Item(buf: Bytes, bufSize: nat, blockNum: nat)

  /** The array index of the i-th place after `head`. */
  function Slot(cap: nat, head: nat, i: nat): (k: nat)
    requires head < cap && i <= cap
    ensures k < cap
  {
    if head + i < cap then head + i else head + i - cap
  }

  /** The `len` blocks from `head` on, round the end of the arrays. */
  function Window(buf: seq<Bytes>, sizes: seq<nat>, nums: seq<nat>, head: nat, len: nat): (q: seq<Item>)
    requires |sizes| == |buf| && |nums| == |buf| && head < |buf| && len <= |buf|
    ensures |q| == len
  {
    seq(len, i requires 0 <= i < len =>
          var k := Slot(|buf|, head, i);
          Item(buf[k], sizes[k], nums[k]))
  }

  /** Writing the first place after the window extends it by one block. */
  lemma WindowAdd(buf: seq<Bytes>, sizes: seq<nat>, nums: seq<nat>, head: nat, len: nat, x: Item)
    requires |sizes| == |buf| && |nums| == |buf| && head < |buf| && len < |buf|
    ensures var k := Slot(|buf|, head, len);
      Window(buf[k := x.buf], sizes[k := x.bufSize], nums[k := x.blockNum], head, len + 1)
        == Window(buf, sizes, nums, head, len) + [x]
  {
    assert forall i :: 0 <= i < len ==> Slot(|buf|, head, i) != Slot(|buf|, head, len);
  }

  /** Advancing the head drops the first block. */
  lemma WindowDel(buf: seq<Bytes>, sizes: seq<nat>, nums: seq<nat>, head: nat, len: nat)
    requires |sizes| == |buf| && |nums| == |buf| && head < |buf| && 1 <= len <= |buf|
    ensures Window(buf, sizes, nums, head, len)
      == [Item(buf[head], sizes[head], nums[head])]
         + Window(buf, sizes, nums, Slot(|buf|, head, 1), len - 1)
  {
    var w := Window(buf, sizes, nums, head, len);
    var v := Window(buf, sizes, nums, Slot(|buf|, head, 1), len - 1);
    forall i | 1 <= i < len ensures w[i] == v[i - 1] {
      assert Slot(|buf|, head, i) == Slot(|buf|, Slot(|buf|, head, 1), i - 1);
    }
  }

  class Queue {
    const buf: array<Bytes>
    const bufSize: array<nat>
    const blockNum: array<nat>
    var head: nat
    var tail: nat
    var full: bool
    var empty: bool

    ghost predicate Valid()
      reads this
    {
      && bufSize.Length == buf.Length && blockNum.Length == buf.Length
      && bufSize != blockNum
      && head < buf.Length && tail < buf.Length
      && (full ==> head == tail && !empty)
      && (empty ==> head == tail)
      && (head == tail ==> full || empty)
    }

    /** How many places lie between head and tail. */
    ghost function Length(): nat
      requires Valid()
      reads this
    {
      if full then buf.Length
      else if head <= tail then tail - head
      else buf.Length - head + tail
    }

    ghost function Contents(): (q: seq<Item>)
      requires Valid()
      reads this, buf, bufSize, blockNum
      ensures |q| == Length()
    {
      Window(buf[..], bufSize[..], blockNum[..], head, Length())
    }

    /** queueInit. */
    constructor (queueSize: nat)
      requires queueSize >= 1
      ensures Valid() && buf.Length == queueSize && Contents() == []
      ensures fresh(buf) && fresh(bufSize) && fresh(blockNum)
    {
      buf := new Bytes[queueSize](_ => []);
      var sizes := new nat[queueSize](_ => 0);
      var nums := new nat[queueSize](_ => 0);
      bufSize := sizes;
      blockNum := nums;
      head := 0;
      tail := 0;
      full := false;
      empty := true;
    }

    /** The flags are exact. */
    lemma FlagsExact()
      requires Valid()
      ensures full <==> |Contents()| == buf.Length
      ensures empty <==> Contents() == []
    {
    }

    /** queueAdd appends; its callers wait until the queue is not full. */
    method Add(data: Bytes, size: nat, num: nat)
      requires Valid() && !full
      modifies this, buf, bufSize, blockNum
      ensures Valid()
      ensures Contents() == old(Contents()) + [Item(data, size, num)]
      ensures full <==> |old(Contents())| + 1 == buf.Length
    {
      ghost var n := Length();
      assert n < buf.Length && tail == Slot(buf.Length, head, n);
      WindowAdd(buf[..], bufSize[..], blockNum[..], head, n, Item(data, size, num));
      buf[tail] := data;
      bufSize[tail] := size;
      blockNum[tail] := num;
      tail := tail + 1;
      if tail == buf.Length {
        tail := 0;
      }
      if tail == head {
        full := true;
      }
      empty := false;
      assert Length() == n + 1;
    }

    /** queueDel takes the oldest block; its callers wait until the queue is not empty. */
    method Del() returns (data: Bytes, size: nat, num: nat)
      requires Valid() && !empty
      modifies this
      ensures Valid()
      ensures old(Contents()) == [Item(data, size, num)] + Contents()
      ensures !full
    {
      ghost var n := Length();
      WindowDel(buf[..], bufSize[..], blockNum[..], head, n);
      data := buf[head];
      size := bufSize[head];
      num := blockNum[head];
      head := head + 1;
      if head == buf.Length {
        head := 0;
      }
      if head == tail {
        empty := true;
      }
      full := false;
      assert Length() == n - 1;
    }
  }

  datatype Op = AddOp(item: Item) | DelOp

  /** What a sequence of operations does to a queue of the given capacity, and what it returns;
      operations are only applied when their caller's guard lets them through. */
  predicate Allowed(q: seq<Item>, cap: nat, ops: seq<Op>)
    decreases |ops|
  {
    ops == [] ||
    (match ops[0]
     case AddOp(x) => |q| < cap && Allowed(q + [x], cap, ops[1..])
     case DelOp => q != [] && Allowed(q[1..], cap, ops[1..]))
  }

  function Added(ops: seq<Op>): seq<Item> {
    if ops == [] then []
    else
      (match ops[0]
       case AddOp(x) => [x]
       case DelOp => []) + Added(ops[1..])
  }

  /** Run operations on the ring, collecting what queueDel returns: first in, first out, and
      nothing is lost or made up. */
  method RunOps(r: Queue, ops: seq<Op>) returns (got: seq<Item>)
    requires r.Valid() && Allowed(r.Contents(), r.buf.Length, ops)
    modifies r, r.buf, r.bufSize, r.blockNum
    ensures r.Valid()
    ensures got + r.Contents() == old(r.Contents()) + Added(ops)
  {
    got := [];
    ghost var start := r.Contents();
    var i := 0;
    assert ops[0..] == ops;
    while i < |ops|
      invariant 0 <= i <= |ops| && r.Valid()
      invariant Allowed(r.Contents(), r.buf.Length, ops[i..])
      invariant got + r.Contents() + Added(ops[i..]) == start + Added(ops)
    {
      ghost var before := r.Contents();
      AddedStep(ops, i);
      r.FlagsExact();
      match ops[i] {
      case AddOp(x) =>
        r.Add(x.buf, x.bufSize, x.blockNum);
        Regroup(got, before, [x], Added(ops[i + 1..]));
      case DelOp =>
        var data, size, num := r.Del();
        assert before[1..] == r.Contents();
        Regroup(got, [before[0]], r.Contents(), Added(ops[i + 1..]));
        got := got + [Item(data, size, num)];
      }
      i := i + 1;
    }
    assert ops[i..] == [];
  }

  lemma AddedStep(ops: seq<Op>, i: nat)
    requires i < |ops|
    ensures ops[i..][0] == ops[i] && ops[i..][1..] == ops[i + 1..]
    ensures Added(ops[i..]) ==
      (match ops[i] case AddOp(x) => [x] case DelOp => []) + Added(ops[i + 1..])
  {
  }

  lemma Regroup(a: seq<Item>, b: seq<Item>, c: seq<Item>, d: seq<Item>)
    ensures a + b + (c + d) == a + (b + c) + d == (a + b) + c + d
  {
  }
}
