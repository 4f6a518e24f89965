/** The back-edge instrumentation pass as a transformation of control-flow graphs: each back
    edge x -> y is split by a new block that calls counter i and branches to y. */
module BackEdges {
  import opened Options

  /** One incoming pair of a PHI node; operands are numbered. */
  datatype Incoming = Incoming(block: nat, operand: nat)

  type Phi = seq<Incoming>

  /** A basic block: its terminator's successors, its PHI nodes, and the counter an inserted
      block calls (None for a block of the program). */
  datatype Block = Block(succ: seq<nat>, phis: seq<Phi>, call: Option<nat>)

  type Graph = seq<Block>

  type Edge = (nat, nat)

  // The pass --------------------------------------------------------------------------------

  /** Every successor y of the terminator becomes bb. */
  function Redirect(succ: seq<nat>, y: nat, bb: nat): (r: seq<nat>)
    ensures |r| == |succ|
  {
    seq(|succ|, k requires 0 <= k < |succ| => if succ[k] == y then bb else succ[k])
  }

  /** The first incoming pair from x becomes one from bb. */
  function Rename(phi: Phi, x: nat, bb: nat): (r: Phi)
    ensures |r| == |phi|
  {
    if phi == [] then []
    else if phi[0].block == x then [phi[0].(block := bb)] + phi[1..]
    else [phi[0]] + Rename(phi[1..], x, bb)
  }

  function RenameAll(phis: seq<Phi>, x: nat, bb: nat): (r: seq<Phi>)
    ensures |r| == |phis|
  {
    seq(|phis|, q requires 0 <= q < |phis| => Rename(phis[q], x, bb))
  }

  function Split(g: Graph, i: nat, x: nat, y: nat): (h: Graph)
    requires x < |g| && y < |g|
    ensures |h| == |g| + 1
  {
    var g1 := g + [Block([y], [], Some(i))];
    var g2 := g1[x := g1[x].(succ := Redirect(g1[x].succ, y, |g|))];
    g2[y := g2[y].(phis := RenameAll(g2[y].phis, x, |g|))]
  }

  ghost predicate EdgesIn(g: Graph, es: seq<Edge>) {
    forall i :: 0 <= i < |es| ==> es[i].0 < |g| && es[i].1 < |g|
  }

  function Rewrite(g: Graph, es: seq<Edge>): (h: Graph)
    requires EdgesIn(g, es)
    ensures |h| == |g| + |es|
  {
    if es == [] then g
    else
      var m := |es| - 1;
      Split(Rewrite(g, es[..m]), m, es[m].0, es[m].1)
  }

  /** The pass in place. */
  class Function {
    var blocks: Graph

    constructor (g: Graph)
      ensures blocks == g
    {
      blocks := g;
    }

    method SetSuccessors(x: nat, y: nat, bb: nat)
      requires x < |blocks|
      modifies this
      ensures blocks == old(blocks)[x := old(blocks)[x].(succ := Redirect(old(blocks)[x].succ, y, bb))]
    {
      var idx := 0;
      ghost var start := blocks;
      ghost var was := blocks[x].succ;
      while idx < |blocks[x].succ|
        invariant 0 <= idx <= |was| && |blocks| == |start| && x < |blocks|
        invariant blocks == start[x := start[x].(succ := blocks[x].succ)]
        invariant |blocks[x].succ| == |was|
        invariant forall k :: 0 <= k < |was| ==>
          blocks[x].succ[k] == if k < idx && was[k] == y then bb else was[k]
      {
        if blocks[x].succ[idx] == y {
          blocks := blocks[x := blocks[x].(succ := blocks[x].succ[idx := bb])];
        }
        idx := idx + 1;
      }
      assert blocks[x].succ == Redirect(was, y, bb);
    }

    /** The loop over one PHI node stops at the first match. */
    method SetIncoming(phi: Phi, x: nat, bb: nat) returns (r: Phi)
      ensures r == Rename(phi, x, bb)
    {
      r := phi;
      var j := 0;
      while j < |phi|
        invariant 0 <= j <= |phi| && r == phi
        invariant forall k :: 0 <= k < j ==> phi[k].block != x
      {
        if phi[j].block == x {
          RenameAt(phi, x, bb, j);
          r := phi[j := phi[j].(block := bb)];
          return;
        }
        j := j + 1;
      }
      RenameNothing(phi, x, bb);
    }

    method SetPhis(x: nat, y: nat, bb: nat)
      requires y < |blocks|
      modifies this
      ensures blocks == old(blocks)[y := old(blocks)[y].(phis := RenameAll(old(blocks)[y].phis, x, bb))]
    {
      var q := 0;
      ghost var start := blocks;
      ghost var was := blocks[y].phis;
      while q < |blocks[y].phis|
        invariant 0 <= q <= |was| && |blocks| == |start| && y < |blocks|
        invariant blocks == start[y := start[y].(phis := blocks[y].phis)]
        invariant |blocks[y].phis| == |was|
        invariant forall k :: 0 <= k < |was| ==>
          blocks[y].phis[k] == if k < q then Rename(was[k], x, bb) else was[k]
      {
        var phi := SetIncoming(blocks[y].phis[q], x, bb);
        blocks := blocks[y := blocks[y].(phis := blocks[y].phis[q := phi])];
        q := q + 1;
      }
      assert blocks[y].phis == RenameAll(was, x, bb);
    }

    method AddBackEdgeStat(es: seq<Edge>)
      requires EdgesIn(blocks, es)
      modifies this
      ensures blocks == Rewrite(old(blocks), es)
    {
      var i := 0;
      ghost var start := blocks;
      assert es[..0] == [];
      while i < |es|
        invariant 0 <= i <= |es|
        invariant blocks == Rewrite(start, es[..i])
      {
        var (x, y) := es[i];
        var bb := |blocks|;
        blocks := blocks + [Block([y], [], Some(i))];
        SetSuccessors(x, y, bb);
        SetPhis(x, y, bb);
        assert es[..i + 1][..i] == es[..i];
        i := i + 1;
      }
      assert es[..i] == es;
    }
  }

  lemma {:induction false} RenameAt(phi: Phi, x: nat, bb: nat, j: nat)
    requires j < |phi| && phi[j].block == x && forall k :: 0 <= k < j ==> phi[k].block != x
    ensures Rename(phi, x, bb) == phi[j := phi[j].(block := bb)]
  {
    if j > 0 {
      RenameAt(phi[1..], x, bb, j - 1);
      assert phi[j := phi[j].(block := bb)] == [phi[0]] + phi[1..][j - 1 := phi[j].(block := bb)];
    } else {
      assert phi[0 := phi[0].(block := bb)] == [phi[0].(block := bb)] + phi[1..];
    }
  }

  lemma {:induction false} RenameNothing(phi: Phi, x: nat, bb: nat)
    requires forall k :: 0 <= k < |phi| ==> phi[k].block != x
    ensures Rename(phi, x, bb) == phi
  {
    if phi != [] { RenameNothing(phi[1..], x, bb); }
  }

  // Executions ------------------------------------------------------------------------------

  /** The operand a PHI node takes when its block is entered from p. */
  function Lookup(phi: Phi, p: nat): Option<nat> {
    if phi == [] then None
    else if phi[0].block == p then Some(phi[0].operand)
    else Lookup(phi[1..], p)
  }

  function Values(phis: seq<Phi>, p: nat): (vs: seq<Option<nat>>)
    ensures |vs| == |phis|
  {
    seq(|phis|, q requires 0 <= q < |phis| => Lookup(phis[q], p))
  }

  datatype Event = Visit(block: nat, values: seq<Option<nat>>) | Call(counter: nat)

  function Enter(g: Graph, p: nat, b: nat): Event
    requires b < |g|
  {
    if g[b].call.Some? then Call(g[b].call.value) else Visit(b, Values(g[b].phis, p))
  }

  /** From block b the terminators choose the successors with the indices ks. */
  predicate Walks(g: Graph, b: nat, ks: seq<nat>)
    decreases |ks|
  {
    b < |g| && (ks != [] ==> ks[0] < |g[b].succ| && Walks(g, g[b].succ[ks[0]], ks[1..]))
  }

  function Trace(g: Graph, b: nat, ks: seq<nat>): seq<Event>
    requires Walks(g, b, ks)
    decreases |ks|
  {
    if ks == [] then []
    else
      var t := g[b].succ[ks[0]];
      assert Walks(g, t, ks[1..]);
      [Enter(g, b, t)] + Trace(g, t, ks[1..])
  }

  function End(g: Graph, b: nat, ks: seq<nat>): nat
    requires Walks(g, b, ks)
    decreases |ks|
  {
    if ks == [] then b else End(g, g[b].succ[ks[0]], ks[1..])
  }

  /** The trace without the calls. */
  function Erase(tr: seq<Event>): seq<Event> {
    if tr == [] then []
    else (if tr[0].Call? then [] else [tr[0]]) + Erase(tr[1..])
  }

  /** The choices made in blocks of the program (those below n). */
  function Choices(g: Graph, n: nat, b: nat, ks: seq<nat>): seq<nat>
    requires Walks(g, b, ks)
    decreases |ks|
  {
    if ks == [] then []
    else (if b < n then [ks[0]] else []) + Choices(g, n, g[b].succ[ks[0]], ks[1..])
  }

  function Calls(tr: seq<Event>, i: nat): nat {
    if tr == [] then 0
    else (if tr[0] == Call(i) then 1 else 0) + Calls(tr[1..], i)
  }

  /** How often the walk takes an edge from e.0 to e.1. */
  function Traversals(g: Graph, b: nat, ks: seq<nat>, e: Edge): nat
    requires Walks(g, b, ks)
    decreases |ks|
  {
    if ks == [] then 0
    else
      var t := g[b].succ[ks[0]];
      (if (b, t) == e then 1 else 0) + Traversals(g, t, ks[1..], e)
  }

  // What the rewritten graph looks like -------------------------------------------------------

  function First(es: seq<Edge>, e: Edge): (i: nat)
    requires e in es
    ensures i < |es| && es[i] == e && e !in es[..i]
  {
    if es[0] == e then 0
    else
      assert es == [es[0]] + es[1..];
      var i := 1 + First(es[1..], e);
      assert es[..i] == [es[0]] + es[1..][..i - 1];
      i
  }

  lemma FirstUnique(es: seq<Edge>, e: Edge, i: nat)
    requires i < |es| && es[i] == e && e !in es[..i]
    ensures e in es && First(es, e) == i
  {
    var f := First(es, e);
    assert forall j :: 0 <= j < i ==> es[j] == es[..i][j];
    assert forall j :: 0 <= j < f ==> es[j] == es[..f][j];
  }

  /** Where the rewritten program goes for p -> b: to the block that splits the edge, or on. */
  function Target(es: seq<Edge>, n: nat, p: nat, b: nat): nat {
    if (p, b) in es then n + First(es, (p, b)) else b
  }

  /** The block from which b is entered when the original enters it from p. */
  function Via(es: seq<Edge>, n: nat, p: nat, b: nat): nat {
    if (p, b) in es then n + First(es, (p, b)) else p
  }

  /** A graph of program blocks whose edges and PHI nodes name its own blocks. */
  ghost predicate Proper(g: Graph) {
    forall b :: 0 <= b < |g| ==>
      && g[b].call.None?
      && (forall k :: 0 <= k < |g[b].succ| ==> g[b].succ[k] < |g|)
      && (forall q :: 0 <= q < |g[b].phis| ==> Names(g[b].phis[q], |g|))
  }

  ghost predicate Names(phi: Phi, n: nat) {
    forall j :: 0 <= j < |phi| ==> phi[j].block < n
  }

  ghost predicate PhiOk(n: nat, es: seq<Edge>, b: nat, old_: Phi, new_: Phi) {
    Names(new_, n + |es|) &&
    forall p: nat {:trigger Via(es, n, p, b)} :: p < n ==> Lookup(new_, Via(es, n, p, b)) == Lookup(old_, p)
  }

  ghost predicate BlockOk(n: nat, es: seq<Edge>, b: nat, x: Block, y: Block) {
    && y.call.None? && |y.succ| == |x.succ| && |y.phis| == |x.phis|
    && (forall k :: 0 <= k < |x.succ| ==> y.succ[k] == Target(es, n, b, x.succ[k]))
    && (forall q :: 0 <= q < |x.phis| ==> PhiOk(n, es, b, x.phis[q], y.phis[q]))
  }

  /** The block that splits edge i. */
  ghost predicate InsertedOk(n: nat, es: seq<Edge>, h: Graph, i: nat)
    requires i < |es| && |h| == n + |es|
  {
    h[n + i].succ == [es[i].1] && h[n + i].call == Some(i)
  }

  ghost predicate Shaped(g: Graph, es: seq<Edge>, h: Graph) {
    var n := |g|;
    && |h| == n + |es|
    && (forall i {:trigger InsertedOk(n, es, h, i)} :: 0 <= i < |es| ==> InsertedOk(n, es, h, i))
    && (forall b {:trigger BlockOk(n, es, b, g[b], h[b])} :: 0 <= b < n ==> BlockOk(n, es, b, g[b], h[b]))
  }

  lemma {:induction false} LookupRename(phi: Phi, x: nat, bb: nat, p: nat)
    requires x != bb && Names(phi, bb)
    ensures p != x && p != bb ==> Lookup(Rename(phi, x, bb), p) == Lookup(phi, p)
    ensures Lookup(Rename(phi, x, bb), bb) == Lookup(phi, x)
    ensures Names(Rename(phi, x, bb), bb + 1)
  {
    if phi != [] {
      assert phi[0].block < bb;
      assert Names(phi[1..], bb);
      LookupRename(phi[1..], x, bb, p);
      assert Rename(phi, x, bb)[1..] == if phi[0].block == x then phi[1..] else Rename(phi[1..], x, bb);
      if phi[0].block == x { LookupFresh(phi[1..], bb); }
    }
  }

  lemma {:induction false} LookupFresh(phi: Phi, bb: nat)
    requires Names(phi, bb)
    ensures Lookup(phi, bb).None?
  {
    if phi != [] {
      assert phi[0].block < bb;
      assert Names(phi[1..], bb);
      LookupFresh(phi[1..], bb);
    }
  }

  /** A new edge at the end of the list changes nothing for an edge that is already listed. */
  lemma FirstSnoc(es: seq<Edge>, e: Edge, f: Edge)
    ensures e in es ==> First(es + [f], e) == First(es, e)
    ensures e !in es && e == f ==> First(es + [f], e) == |es|
    ensures e in es + [f] <==> e in es || e == f
  {
    if e in es {
      var i := First(es, e);
      assert (es + [f])[..i] == es[..i];
      FirstUnique(es + [f], e, i);
    } else if e == f {
      assert (es + [f])[..|es|] == es;
      FirstUnique(es + [f], e, |es|);
    }
  }

  lemma PhiSplitAt(n: nat, es: seq<Edge>, b: nat, old_: Phi, new_: Phi, x: nat, y: nat, p: nat)
    requires Names(new_, n + |es|) && x < n && y < n && b < n && p < n
    requires Lookup(new_, Via(es, n, p, b)) == Lookup(old_, p)
    ensures Lookup(if b == y then Rename(new_, x, n + |es|) else new_, Via(es + [(x, y)], n, p, b)) == Lookup(old_, p)
  {
    FirstSnoc(es, (p, b), (x, y));
    LookupRename(new_, x, n + |es|, Via(es, n, p, b));
  }

  lemma PhiSplit(n: nat, es: seq<Edge>, b: nat, old_: Phi, new_: Phi, x: nat, y: nat)
    requires PhiOk(n, es, b, old_, new_) && x < n && y < n && b < n
    ensures PhiOk(n, es + [(x, y)], b, old_, if b == y then Rename(new_, x, n + |es|) else new_)
  {
    var r := if b == y then Rename(new_, x, n + |es|) else new_;
    var es1 := es + [(x, y)];
    LookupRename(new_, x, n + |es|, 0);
    forall p: nat | p < n ensures Lookup(r, Via(es1, n, p, b)) == Lookup(old_, p) {
      assert Lookup(new_, Via(es, n, p, b)) == Lookup(old_, p);
      PhiSplitAt(n, es, b, old_, new_, x, y, p);
    }
  }

  lemma SuccSplit(n: nat, es: seq<Edge>, b: nat, z: nat, x: nat, y: nat)
    requires z < n && y < n
    ensures Target(es + [(x, y)], n, b, z) ==
      if b == x && Target(es, n, b, z) == y then n + |es| else Target(es, n, b, z)
  {
    FirstSnoc(es, (b, z), (x, y));
  }

  lemma BlockSplit(g: Graph, es: seq<Edge>, h: Graph, x: nat, y: nat, b: nat)
    requires Proper(g) && Shaped(g, es, h) && x < |g| && y < |g| && b < |g|
    ensures BlockOk(|g|, es + [(x, y)], b, g[b], Split(h, |es|, x, y)[b])
  {
    var n := |g|;
    var s := Split(h, |es|, x, y)[b];
    var es1 := es + [(x, y)];
    assert BlockOk(n, es, b, g[b], h[b]);
    assert s.succ == if b == x then Redirect(h[b].succ, y, |h|) else h[b].succ;
    assert s.phis == if b == y then RenameAll(h[b].phis, x, |h|) else h[b].phis;
    forall k | 0 <= k < |s.succ| ensures s.succ[k] == Target(es1, n, b, g[b].succ[k]) {
      assert g[b].succ[k] < n;
      SuccSplit(n, es, b, g[b].succ[k], x, y);
    }
    forall q | 0 <= q < |s.phis| ensures PhiOk(n, es1, b, g[b].phis[q], s.phis[q]) {
      PhiSplit(n, es, b, g[b].phis[q], h[b].phis[q], x, y);
    }
  }

  /** Splitting an edge between program blocks leaves the blocks inserted before alone. */
  lemma InsertedSplit(h: Graph, m: nat, x: nat, y: nat, b: nat)
    requires x < |h| && y < |h| && b <= |h| && x != b && y != b
    ensures Split(h, m, x, y)[b] == if b < |h| then h[b] else Block([y], [], Some(m))
  {
  }

  lemma ShapeSplit(g: Graph, es: seq<Edge>, h: Graph, x: nat, y: nat)
    requires Proper(g) && Shaped(g, es, h) && x < |g| && y < |g|
    ensures Shaped(g, es + [(x, y)], Split(h, |es|, x, y))
  {
    var n, m := |g|, |es|;
    var es1, h1 := es + [(x, y)], Split(h, m, x, y);
    forall i | 0 <= i < |es1| ensures InsertedOk(n, es1, h1, i) {
      InsertedSplit(h, m, x, y, n + i);
      assert i < m ==> InsertedOk(n, es, h, i);
    }
    forall b | 0 <= b < n ensures BlockOk(n, es1, b, g[b], h1[b]) {
      BlockSplit(g, es, h, x, y, b);
    }
  }

  lemma {:induction false} RewriteShape(g: Graph, es: seq<Edge>)
    requires Proper(g) && EdgesIn(g, es)
    ensures Shaped(g, es, Rewrite(g, es))
  {
    if es == [] {
      forall b | 0 <= b < |g| ensures BlockOk(|g|, es, b, g[b], g[b]) { }
    } else {
      var m := |es| - 1;
      RewriteShape(g, es[..m]);
      ShapeSplit(g, es[..m], Rewrite(g, es[..m]), es[m].0, es[m].1);
      assert es == es[..m] + [(es[m].0, es[m].1)];
    }
  }

  // Executions are preserved ------------------------------------------------------------------

  /** Entering b from p in the original and from the matching block in the rewritten graph
      gives every PHI node the same operand. */
  lemma SameValues(g: Graph, es: seq<Edge>, h: Graph, p: nat, b: nat)
    requires Proper(g) && Shaped(g, es, h) && p < |g| && b < |g|
    ensures Enter(h, Via(es, |g|, p, b), b) == Enter(g, p, b)
  {
    var n := |g|;
    assert BlockOk(n, es, b, g[b], h[b]);
    forall q | 0 <= q < |g[b].phis|
      ensures Lookup(h[b].phis[q], Via(es, n, p, b)) == Lookup(g[b].phis[q], p)
    {
      assert PhiOk(n, es, b, g[b].phis[q], h[b].phis[q]);
    }
    assert Values(h[b].phis, Via(es, n, p, b)) == Values(g[b].phis, p);
  }

  /** The walk ks of the rewritten graph from b agrees with its erased form in the original: same
      blocks, same PHI operands, and the calls of counter i are the traversals of edge i (counted
      at the edge's first place in the list). */
  ghost predicate Agrees(g: Graph, es: seq<Edge>, h: Graph, b: nat, ks: seq<nat>)
    requires Walks(h, b, ks)
  {
    var cs := Choices(h, |g|, b, ks);
    && Walks(g, b, cs) && End(g, b, cs) == End(h, b, ks)
    && Trace(g, b, cs) == Erase(Trace(h, b, ks))
    && CallsAgree(g, es, b, cs, Trace(h, b, ks))
  }

  ghost predicate CallsAgree(g: Graph, es: seq<Edge>, b: nat, cs: seq<nat>, tr: seq<Event>)
    requires Walks(g, b, cs)
  {
    forall i: nat :: i < |es| ==>
      Calls(tr, i) == if es[i] in es[..i] then 0 else Traversals(g, b, cs, es[i])
  }

  lemma EraseCons(e: Event, tr: seq<Event>, i: nat)
    ensures Erase([e] + tr) == (if e.Call? then [] else [e]) + Erase(tr)
    ensures Calls([e] + tr, i) == (if e == Call(i) then 1 else 0) + Calls(tr, i)
  {
    assert ([e] + tr)[1..] == tr;
  }

  lemma WalkCons(g: Graph, b: nat, k: nat, cs: seq<nat>, e: Edge)
    requires b < |g| && k < |g[b].succ| && Walks(g, g[b].succ[k], cs)
    ensures var z := g[b].succ[k];
      && Walks(g, b, [k] + cs) && End(g, b, [k] + cs) == End(g, z, cs)
      && Trace(g, b, [k] + cs) == [Enter(g, b, z)] + Trace(g, z, cs)
      && Traversals(g, b, [k] + cs, e) == (if (b, z) == e then 1 else 0) + Traversals(g, z, cs, e)
  {
    assert ([k] + cs)[1..] == cs;
  }

  /** Every walk of the rewritten graph between program blocks agrees with the original. */
  lemma {:induction false} Sound(g: Graph, es: seq<Edge>, h: Graph, b: nat, ks: seq<nat>)
    requires Proper(g) && Shaped(g, es, h) && b < |g| && Walks(h, b, ks) && End(h, b, ks) < |g|
    ensures Agrees(g, es, h, b, ks)
    decreases |ks|
  {
    if ks != [] {
      var n := |g|;
      assert BlockOk(n, es, b, g[b], h[b]);
      var z := g[b].succ[ks[0]];
      var rest := ks[1..];
      SameValues(g, es, h, b, z);
      if (b, z) in es {
        var f := First(es, (b, z));
        assert InsertedOk(n, es, h, f);
        assert rest != [] && rest[0] == 0;
        Sound(g, es, h, z, rest[1..]);
        SplitWalk(h, n, b, ks, z, f);
        SplitAgrees(g, es, h, b, ks, z, f);
      } else {
        Sound(g, es, h, z, rest);
        PlainAgrees(g, es, h, b, ks, z);
      }
    } else {
      assert CallsAgree(g, es, b, [], []);
    }
  }

  lemma PlainAgrees(g: Graph, es: seq<Edge>, h: Graph, b: nat, ks: seq<nat>, z: nat)
    requires Walks(h, b, ks) && ks != [] && b < |g| && ks[0] < |g[b].succ| && z == g[b].succ[ks[0]]
    requires h[b].succ[ks[0]] == z && z < |g| && Agrees(g, es, h, z, ks[1..]) && (b, z) !in es
    requires Enter(h, b, z) == Enter(g, b, z) && Enter(g, b, z).Visit?
    ensures Agrees(g, es, h, b, ks)
  {
    var cs, tr := Choices(h, |g|, z, ks[1..]), Trace(h, z, ks[1..]);
    var e := Enter(g, b, z);
    EraseCons(e, tr, 0);
    WalkCons(g, b, ks[0], cs, (b, z));
    forall i: nat | i < |es| ensures
      Calls([e] + tr, i) == if es[i] in es[..i] then 0 else Traversals(g, b, [ks[0]] + cs, es[i])
    {
      EraseCons(e, tr, i);
      WalkCons(g, b, ks[0], cs, es[i]);
    }
  }

  /** A walk that starts with a split edge passes the inserted block and calls its counter. */
  lemma SplitWalk(h: Graph, n: nat, b: nat, ks: seq<nat>, z: nat, f: nat)
    requires Walks(h, b, ks) && |ks| >= 2 && ks[1] == 0 && b < n && h[b].succ[ks[0]] == n + f
    requires n + f < |h| && h[n + f].succ == [z] && h[n + f].call == Some(f)
    ensures Walks(h, z, ks[2..]) && End(h, b, ks) == End(h, z, ks[2..])
    ensures Choices(h, n, b, ks) == [ks[0]] + Choices(h, n, z, ks[2..])
    ensures Trace(h, b, ks) == [Call(f)] + ([Enter(h, n + f, z)] + Trace(h, z, ks[2..]))
  {
    var rest := ks[1..];
    assert rest[0] == 0 && rest[1..] == ks[2..];
    assert Walks(h, n + f, rest);
    assert Choices(h, n, n + f, rest) == Choices(h, n, z, ks[2..]);
    assert Trace(h, n + f, rest) == [Enter(h, n + f, z)] + Trace(h, z, ks[2..]);
  }

  lemma SplitAgrees(g: Graph, es: seq<Edge>, h: Graph, b: nat, ks: seq<nat>, z: nat, f: nat)
    requires Walks(h, b, ks) && |ks| >= 2 && b < |g| && ks[0] < |g[b].succ| && z == g[b].succ[ks[0]]
    requires z < |g| && z < |h| && (b, z) in es && f == First(es, (b, z))
    requires Walks(h, z, ks[2..]) && Agrees(g, es, h, z, ks[2..]) && End(h, b, ks) == End(h, z, ks[2..])
    requires Choices(h, |g|, b, ks) == [ks[0]] + Choices(h, |g|, z, ks[2..])
    requires Trace(h, b, ks) == [Call(f)] + ([Enter(g, b, z)] + Trace(h, z, ks[2..]))
    requires Enter(g, b, z).Visit?
    ensures Agrees(g, es, h, b, ks)
  {
    var cs, tr := Choices(h, |g|, z, ks[2..]), Trace(h, z, ks[2..]);
    var e := Enter(g, b, z);
    EraseCons(e, tr, 0);
    EraseCons(Call(f), [e] + tr, 0);
    WalkCons(g, b, ks[0], cs, (b, z));
    forall i: nat | i < |es| ensures
      Calls([Call(f)] + ([e] + tr), i) ==
      if es[i] in es[..i] then 0 else Traversals(g, b, [ks[0]] + cs, es[i])
    {
      EraseCons(e, tr, i);
      EraseCons(Call(f), [e] + tr, i);
      WalkCons(g, b, ks[0], cs, es[i]);
      if es[i] !in es[..i] && es[i] == (b, z) { FirstUnique(es, (b, z), i); }
    }
  }

  /** The rewritten walk for a walk of the original: one more step through each split edge. */
  function Lift(g: Graph, es: seq<Edge>, b: nat, cs: seq<nat>): seq<nat>
    requires Walks(g, b, cs)
    decreases |cs|
  {
    if cs == [] then []
    else
      var z := g[b].succ[cs[0]];
      [cs[0]] + (if (b, z) in es then [0] else []) + Lift(g, es, z, cs[1..])
  }

  /** Every walk of the original is the erased form of a walk of the rewritten graph. */
  lemma {:induction false} Complete(g: Graph, es: seq<Edge>, h: Graph, b: nat, cs: seq<nat>)
    requires Proper(g) && Shaped(g, es, h) && Walks(g, b, cs)
    ensures var ks := Lift(g, es, b, cs);
      Walks(h, b, ks) && Choices(h, |g|, b, ks) == cs && End(h, b, ks) == End(g, b, cs)
    decreases |cs|
  {
    if cs != [] {
      var n := |g|;
      assert BlockOk(n, es, b, g[b], h[b]);
      var z := g[b].succ[cs[0]];
      Complete(g, es, h, z, cs[1..]);
      var rest := Lift(g, es, z, cs[1..]);
      var ks := Lift(g, es, b, cs);
      if (b, z) in es {
        var f := First(es, (b, z));
        assert InsertedOk(n, es, h, f);
        assert ks[1..] == [0] + rest && ks[2..] == rest && ([0] + rest)[1..] == rest;
        assert Walks(h, n + f, [0] + rest);
        SplitWalk(h, n, b, ks, z, f);
      } else {
        assert ks[1..] == rest;
      }
    }
  }

  /** Instrumentation preserves execution: erasing the inserted blocks from a walk of the
      rewritten program gives a walk of the original with the same PHI operands, and for pairwise
      different back edges counter i is called once per traversal of edge i. */
  lemma Preserved(g: Graph, es: seq<Edge>, b: nat, ks: seq<nat>)
    requires Proper(g) && EdgesIn(g, es) && b < |g|
    requires forall i, j :: 0 <= i < j < |es| ==> es[i] != es[j]
    ensures var h := Rewrite(g, es);
      Walks(h, b, ks) && End(h, b, ks) < |g| ==>
        var cs := Choices(h, |g|, b, ks);
        && Walks(g, b, cs) && End(g, b, cs) == End(h, b, ks)
        && Trace(g, b, cs) == Erase(Trace(h, b, ks))
        && forall i: nat :: i < |es| ==> Calls(Trace(h, b, ks), i) == Traversals(g, b, cs, es[i])
  {
    var h := Rewrite(g, es);
    RewriteShape(g, es);
    if Walks(h, b, ks) && End(h, b, ks) < |g| {
      Sound(g, es, h, b, ks);
      forall i: nat | i < |es| ensures es[i] !in es[..i] {
      }
    }
  }

  /** Every original walk arises from a rewritten one, with the same PHI operands. */
  lemma NothingLost(g: Graph, es: seq<Edge>, b: nat, cs: seq<nat>) returns (ks: seq<nat>)
    requires Proper(g) && EdgesIn(g, es) && Walks(g, b, cs)
    ensures var h := Rewrite(g, es);
      && Walks(h, b, ks) && Choices(h, |g|, b, ks) == cs
      && Erase(Trace(h, b, ks)) == Trace(g, b, cs)
  {
    var h := Rewrite(g, es);
    RewriteShape(g, es);
    Complete(g, es, h, b, cs);
    ks := Lift(g, es, b, cs);
    EndsInside(g, b, cs);
    Sound(g, es, h, b, ks);
  }

  lemma {:induction false} EndsInside(g: Graph, b: nat, cs: seq<nat>)
    requires Walks(g, b, cs)
    ensures End(g, b, cs) < |g|
    decreases |cs|
  {
    if cs != [] { EndsInside(g, g[b].succ[cs[0]], cs[1..]); }
  }

  /** On the walk ks from b counter i is called as often as edge i is taken. */
  ghost predicate Exact(g: Graph, es: seq<Edge>, i: nat, b: nat, ks: seq<nat>)
    requires EdgesIn(g, es) && i < |es|
  {
    var h := Rewrite(g, es);
    b < |g| && Walks(h, b, ks) && End(h, b, ks) < |g| ==>
      var cs := Choices(h, |g|, b, ks);
      Walks(g, b, cs) && Calls(Trace(h, b, ks), i) == Traversals(g, b, cs, es[i])
  }

  lemma FirstPlaceExact(g: Graph, es: seq<Edge>, i: nat, b: nat, ks: seq<nat>)
    requires Proper(g) && EdgesIn(g, es) && i < |es| && es[i] !in es[..i]
    ensures Exact(g, es, i, b, ks)
  {
    RewriteShape(g, es);
    var h := Rewrite(g, es);
    if b < |g| && Walks(h, b, ks) && End(h, b, ks) < |g| { Sound(g, es, h, b, ks); }
  }

  /** A repeated edge and a walk that takes it once: its later counter is not called. */
  lemma RepeatMissed(g: Graph, es: seq<Edge>, i: nat, k: nat) returns (ks: seq<nat>)
    requires Proper(g) && EdgesIn(g, es) && i < |es| && es[i] in es[..i]
    requires k < |g[es[i].0].succ| && g[es[i].0].succ[k] == es[i].1
    ensures !Exact(g, es, i, es[i].0, ks)
  {
    var (x, y) := es[i];
    assert [k] + [] == [k] && Walks(g, y, []);
    WalkCons(g, x, k, [], es[i]);
    RewriteShape(g, es);
    var h := Rewrite(g, es);
    Complete(g, es, h, x, [k]);
    ks := Lift(g, es, x, [k]);
    Sound(g, es, h, x, ks);
  }

  /** A back edge of the program gets an exact counter at its first place in the list and at no
      other: a block with two edges to a target puts the edge there twice. */
  lemma ExactIffFirst(g: Graph, es: seq<Edge>, i: nat)
    requires Proper(g) && EdgesIn(g, es) && i < |es| && es[i].1 in g[es[i].0].succ
    ensures (forall b: nat, ks: seq<nat> :: Exact(g, es, i, b, ks)) <==> es[i] !in es[..i]
  {
    if es[i] in es[..i] {
      var k :| 0 <= k < |g[es[i].0].succ| && g[es[i].0].succ[k] == es[i].1;
      var ks := RepeatMissed(g, es, i, k);
    } else {
      forall b: nat, ks: seq<nat> ensures Exact(g, es, i, b, ks) {
        FirstPlaceExact(g, es, i, b, ks);
      }
    }
  }

  /** A block that branches to itself twice: the second counter misses the edge. */
  lemma TwoEdgesMissed() returns (g: Graph, es: seq<Edge>, ks: seq<nat>)
    ensures Proper(g) && EdgesIn(g, es) && es == [(0, 0), (0, 0)] && |g| == 1 && g[0].succ == [0, 0]
    ensures !Exact(g, es, 1, 0, ks)
  {
    g, es := [Block([0, 0], [], None)], [(0, 0), (0, 0)];
    assert es[..1] == [(0, 0)];
    ks := RepeatMissed(g, es, 1, 0);
  }

  // PHI nodes stay well formed ----------------------------------------------------------------

  /** How many edges to y a terminator with the successors `succ` has. */
  function EdgeCount(succ: seq<nat>, y: nat): nat {
    if succ == [] then 0 else (if succ[0] == y then 1 else 0) + EdgeCount(succ[1..], y)
  }

  /** How many incoming pairs name the block p. */
  function PairCount(phi: Phi, p: nat): nat {
    if phi == [] then 0 else (if phi[0].block == p then 1 else 0) + PairCount(phi[1..], p)
  }

  function Listed(es: seq<Edge>, e: Edge): nat {
    multiset(es)[e]
  }

  /** A PHI node of y has one incoming pair for each edge into y. */
  ghost predicate PhiFits(g: Graph, y: nat, phi: Phi) {
    forall p: nat :: p < |g| ==> PairCount(phi, p) == EdgeCount(g[p].succ, y)
  }

  /** Renaming moves one pair from x to bb, if x has one. */
  lemma {:induction false} RenameCount(phi: Phi, x: nat, bb: nat, p: nat)
    requires x != bb
    ensures var moved := if PairCount(phi, x) > 0 then 1 else 0;
      PairCount(Rename(phi, x, bb), p) ==
        PairCount(phi, p) - (if p == x then moved else 0) + (if p == bb then moved else 0)
  {
    if phi != [] {
      RenameCount(phi[1..], x, bb, p);
      var r := Rename(phi, x, bb);
      assert r[1..] == if phi[0].block == x then phi[1..] else Rename(phi[1..], x, bb);
    }
  }

  lemma {:induction false} NoPairs(phi: Phi, p: nat)
    requires Names(phi, p)
    ensures PairCount(phi, p) == 0
  {
    if phi != [] {
      assert phi[0].block < p;
      assert Names(phi[1..], p);
      NoPairs(phi[1..], p);
    }
  }

  function Minus(a: nat, b: nat): nat {
    if a < b then 0 else a - b
  }

  ghost predicate OldPairsOk(n: nat, es: seq<Edge>, y: nat, old_: Phi, new_: Phi, p: nat) {
    PairCount(new_, p) == Minus(PairCount(old_, p), Listed(es, (p, y)))
  }

  ghost predicate NewPairsOk(n: nat, es: seq<Edge>, y: nat, old_: Phi, new_: Phi, i: nat)
    requires i < |es|
  {
    PairCount(new_, n + i) ==
      if es[i].1 == y && Listed(es[..i], es[i]) < PairCount(old_, es[i].0) then 1 else 0
  }

  /** The pairs of a PHI node of y after the pass: each listed edge from p has taken one pair from
      p while there was one, and given it to its inserted block. */
  ghost predicate PairsOk(n: nat, es: seq<Edge>, y: nat, old_: Phi, new_: Phi) {
    && (forall p: nat {:trigger OldPairsOk(n, es, y, old_, new_, p)} ::
          p < n ==> OldPairsOk(n, es, y, old_, new_, p))
    && (forall i: nat {:trigger NewPairsOk(n, es, y, old_, new_, i)} ::
          i < |es| ==> NewPairsOk(n, es, y, old_, new_, i))
  }

  lemma ListedSnoc(es: seq<Edge>, f: Edge, e: Edge)
    ensures Listed(es + [f], e) == Listed(es, e) + if e == f then 1 else 0
  {
  }

  lemma PairsSplit(n: nat, es: seq<Edge>, b: nat, old_: Phi, new_: Phi, x: nat, y: nat)
    requires PairsOk(n, es, b, old_, new_) && Names(new_, n + |es|) && x < n && y < n && b < n
    ensures PairsOk(n, es + [(x, y)], b, old_, if b == y then Rename(new_, x, n + |es|) else new_)
  {
    var bb := n + |es|;
    var r := if b == y then Rename(new_, x, bb) else new_;
    var es1 := es + [(x, y)];
    NoPairs(new_, bb);
    forall p: nat | p < n ensures OldPairsOk(n, es1, b, old_, r, p) {
      assert OldPairsOk(n, es, b, old_, new_, p);
      RenameCount(new_, x, bb, p);
      ListedSnoc(es, (x, y), (p, b));
    }
    forall i: nat | i < |es1| ensures NewPairsOk(n, es1, b, old_, r, i) {
      RenameCount(new_, x, bb, n + i);
      if i < |es| {
        assert NewPairsOk(n, es, b, old_, new_, i);
        assert es1[..i] == es[..i] && es1[i] == es[i];
      } else {
        assert OldPairsOk(n, es, b, old_, new_, x);
        assert es1[..i] == es && es1[i] == (x, y);
      }
    }
  }

  ghost predicate PairsAt(g: Graph, es: seq<Edge>, h: Graph, b: nat, q: nat)
    requires b < |g| <= |h| && q < |g[b].phis|
  {
    q < |h[b].phis| && PairsOk(|g|, es, b, g[b].phis[q], h[b].phis[q])
  }

  lemma PairsStep(g: Graph, es: seq<Edge>, h: Graph, x: nat, y: nat, b: nat, q: nat)
    requires Proper(g) && Shaped(g, es, h) && x < |g| && y < |g| && b < |g| && q < |g[b].phis|
    requires PairsAt(g, es, h, b, q)
    ensures PairsAt(g, es + [(x, y)], Split(h, |es|, x, y), b, q)
  {
    assert BlockOk(|g|, es, b, g[b], h[b]);
    assert PhiOk(|g|, es, b, g[b].phis[q], h[b].phis[q]);
    PairsSplit(|g|, es, b, g[b].phis[q], h[b].phis[q], x, y);
  }

  lemma {:induction false} RewritePairs(g: Graph, es: seq<Edge>, b: nat, q: nat)
    requires Proper(g) && EdgesIn(g, es) && b < |g| && q < |g[b].phis|
    ensures PairsAt(g, es, Rewrite(g, es), b, q)
  {
    if es != [] {
      var m := |es| - 1;
      RewritePairs(g, es[..m], b, q);
      RewriteShape(g, es[..m]);
      PairsStep(g, es[..m], Rewrite(g, es[..m]), es[m].0, es[m].1, b, q);
      assert es == es[..m] + [(es[m].0, es[m].1)];
    }
  }

  /** Redirecting the listed edges of p: a listed target is left without an edge from p, and the
      count of any other target is kept. */
  lemma {:induction false} TargetCount(es: seq<Edge>, n: nat, p: nat, old_: seq<nat>, new_: seq<nat>, y: nat)
    requires |new_| == |old_| && y < n
    requires forall k :: 0 <= k < |old_| ==> old_[k] < n && new_[k] == Target(es, n, p, old_[k])
    ensures EdgeCount(new_, y) == if (p, y) in es then 0 else EdgeCount(old_, y)
  {
    if old_ != [] { TargetCount(es, n, p, old_[1..], new_[1..], y); }
  }

  /** Who enters y after the pass. */
  lemma EdgesAfter(g: Graph, es: seq<Edge>, h: Graph, y: nat, p: nat)
    requires Proper(g) && Shaped(g, es, h) && y < |g| && p < |h|
    ensures EdgeCount(h[p].succ, y) ==
      if p >= |g| then (if es[p - |g|].1 == y then 1 else 0)
      else if (p, y) in es then 0 else EdgeCount(g[p].succ, y)
  {
    if p < |g| {
      assert BlockOk(|g|, es, p, g[p], h[p]);
      TargetCount(es, |g|, p, g[p].succ, h[p].succ, y);
    } else {
      assert InsertedOk(|g|, es, h, p - |g|);
      assert h[p].succ[1..] == [];
    }
  }

  /** The last place of an edge in the list. */
  lemma {:induction false} LastPlace(es: seq<Edge>, e: Edge) returns (i: nat)
    requires e in es
    ensures i < |es| && es[i] == e && Listed(es[..i], e) == Listed(es, e) - 1
  {
    var m := |es| - 1;
    assert es == es[..m] + [es[m]];
    ListedSnoc(es[..m], es[m], e);
    if es[m] == e {
      i := m;
    } else {
      i := LastPlace(es[..m], e);
      assert es[..m][..i] == es[..i];
    }
  }

  lemma {:induction false} EarlierFewer(es: seq<Edge>, i: nat)
    requires i < |es|
    ensures Listed(es[..i], es[i]) < Listed(es, es[i])
  {
    var m := |es| - 1;
    assert es == es[..m] + [es[m]];
    ListedSnoc(es[..m], es[m], es[i]);
    if i < m {
      EarlierFewer(es[..m], i);
      assert es[..m][..i] == es[..i] && es[..m][i] == es[i];
    }
  }

  /** The list names each of its edges into y as often as the program has it. */
  ghost predicate ListedInFull(g: Graph, es: seq<Edge>, y: nat) {
    forall p: nat :: p < |g| && (p, y) in es ==> Listed(es, (p, y)) == EdgeCount(g[p].succ, y)
  }

  lemma FullKeepsPhi(g: Graph, es: seq<Edge>, h: Graph, y: nat, old_: Phi, new_: Phi)
    requires Proper(g) && EdgesIn(g, es) && Shaped(g, es, h) && y < |g|
    requires PhiFits(g, y, old_) && PairsOk(|g|, es, y, old_, new_) && ListedInFull(g, es, y)
    ensures PhiFits(h, y, new_)
  {
    var n := |g|;
    forall p: nat | p < |h| ensures PairCount(new_, p) == EdgeCount(h[p].succ, y) {
      EdgesAfter(g, es, h, y, p);
      if p < n {
        assert OldPairsOk(n, es, y, old_, new_, p);
        assert (p, y) !in es ==> Listed(es, (p, y)) == 0;
      } else {
        var i := p - n;
        assert NewPairsOk(n, es, y, old_, new_, i);
        if es[i].1 == y {
          EarlierFewer(es, i);
          assert (es[i].0, y) == es[i] && es[i] in es;
        }
      }
    }
  }

  lemma PhiNeedsFull(g: Graph, es: seq<Edge>, h: Graph, y: nat, old_: Phi, new_: Phi)
    requires Proper(g) && EdgesIn(g, es) && Shaped(g, es, h) && y < |g|
    requires PhiFits(g, y, old_) && PairsOk(|g|, es, y, old_, new_) && PhiFits(h, y, new_)
    ensures ListedInFull(g, es, y)
  {
    var n := |g|;
    forall p: nat | p < n && (p, y) in es ensures Listed(es, (p, y)) == EdgeCount(g[p].succ, y) {
      EdgesAfter(g, es, h, y, p);
      assert OldPairsOk(n, es, y, old_, new_, p);
      var i := LastPlace(es, (p, y));
      EdgesAfter(g, es, h, y, n + i);
      assert NewPairsOk(n, es, y, old_, new_, i);
    }
  }

  /** The pass keeps a well-formed PHI node of y well formed exactly when every listed edge into
      y is listed as often as it occurs. */
  lemma PhiFitsIff(g: Graph, es: seq<Edge>, y: nat, q: nat)
    requires Proper(g) && EdgesIn(g, es) && y < |g| && q < |g[y].phis| && PhiFits(g, y, g[y].phis[q])
    ensures var h := Rewrite(g, es);
      q < |h[y].phis| && (PhiFits(h, y, h[y].phis[q]) <==> ListedInFull(g, es, y))
  {
    var h := Rewrite(g, es);
    RewriteShape(g, es);
    RewritePairs(g, es, y, q);
    if ListedInFull(g, es, y) {
      FullKeepsPhi(g, es, h, y, g[y].phis[q], h[y].phis[q]);
    } else if PhiFits(h, y, h[y].phis[q]) {
      PhiNeedsFull(g, es, h, y, g[y].phis[q], h[y].phis[q]);
    }
  }
}
