/** What check_wakeup and tryPutTurn do for the threads they concern. */
module Effects {
  import opened Queues
  import opened Scheduler
  import opened Safety
  import opened Phases
  import opened Runs

  /** check_wakeup does not pass a registered thread over: it sees the flag, and every thread that
      is registered when it takes the mutex is in the run queue when it leaves it. */
  lemma RegisteredJoins(s: State, o: int, l: Label, u: nat)
    requires Inv(s, o) && Enabled(s, l) && u in s.registered && u < |s.pc|
    ensures Do(s, l).Sized() && l.t < |Do(s, l).pc|
    ensures l.ReadFlag? ==> Do(s, l).pc[l.t] == Merging(s.pc[l.t].k)
    ensures l.Merge? ==> u in Do(s, l).runq && u !in Do(s, l).registered
    ensures !l.Merge? ==> u in Do(s, l).registered
  {
    DoSized(s, l);
    if l.Merge? {
      MergePlaces(s, l.order);
    } else {
      RegisteredStays(s, l, u);
    }
  }

  lemma RegisteredStays(s: State, l: Label, u: nat)
    requires s.Sized() && Enabled(s, l) && !l.Merge? && u in s.registered
    ensures u in Do(s, l).registered
  {
    if TouchesWaits(l) {
      RegisteredLoud(s, l, u);
    } else {
      RegisteredQuiet(s, l, u);
    }
  }

  lemma RegisteredLoud(s: State, l: Label, u: nat)
    requires s.Sized() && Enabled(s, l) && TouchesWaits(l) && u in s.registered
    ensures u in Do(s, l).registered
  {
  }

  lemma RegisteredQuiet(s: State, l: Label, u: nat)
    requires s.Sized() && Enabled(s, l) && !TouchesWaits(l) && !l.Merge? && u in s.registered
    ensures u in Do(s, l).registered
  {
  }

  // tryPutTurn ------------------------------------------------------------------------------------

  /** Between two states of a run, thread t is inside tryPutTurn throughout. */
  predicate TriesOn(ss: seq<State>, t: nat, i: nat, j: nat) {
    j < |ss| && forall m {:trigger ss[m]} :: i <= m <= j ==> t < |ss[m].pc| && ss[m].pc[t].Trying?
  }

  function Looks(ls: seq<Label>, t: nat, i: nat, j: nat): nat
    requires i <= j <= |ls|
  {
    if j == i then 0 else Looks(ls, t, i, j - 1) + if ls[j - 1] == TryMark(t) then 1 else 0
  }

  /** A step inside tryPutTurn: its own look passes one thread, which is not runnable; other
      threads leave the run queue and its place alone. */
  lemma TryStep(s: State, o: int, l: Label, t: nat)
    requires Inv(s, o) && Enabled(s, l) && t < |s.pc| && s.pc[t].Trying?
    requires t < |Do(s, l).pc| && Do(s, l).pc[t].Trying?
    ensures Do(s, l).runq == s.runq
    ensures if l.t == t then l == TryMark(t) && Do(s, l).pc[t].at == s.pc[t].at + 1
                             && !s.status[s.runq[s.pc[t].at]].Runnable?
            else Do(s, l).pc[t] == s.pc[t]
  {
    HolderOwns(s, o, t);
    if l.t != t {
      assert ThreadOk(s, o, l.t);
      assert l.InterProStart? || l.InterProEnd? || l.Wakeup?;
    } else {
      assert l.TryMark?;
    }
  }

  /** In every run tryPutTurn has looked at each thread of the queue up to its place, one look for
      each: it fails only when it has found every thread behind the head not runnable. */
  lemma {:induction false} TryLooksAtAll(ss: seq<State>, ls: seq<Label>, t: nat, i: nat, j: nat)
    requires FromStart(ss, ls) && i <= j && TriesOn(ss, t, i, j) && ss[i].pc[t] == Trying(1)
    ensures ss[j].runq == ss[i].runq && ss[j].pc[t] == Trying(1 + Looks(ls, t, i, j))
    ensures ss[j].Sized() && (Enabled(ss[j], TryFail(t)) ==> Looks(ls, t, i, j) + 1 >= |ss[i].runq|)
  {
    var o := PathInv(ss, ls, j);
    if j > i {
      TryLooksAtAll(ss, ls, t, i, j - 1);
      var p := PathInv(ss, ls, j - 1);
      assert LinkAt(ss, ls, j - 1);
      TryStep(ss[j - 1], p, ls[j - 1], t);
    }
  }
}
