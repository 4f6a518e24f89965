/** The serializer's clock and log. */
module TurnLog {
  import opened Scheduler
  import opened Safety
  import opened Phases
  import Runs

  /** The turns that the first i steps end, in order, with their threads, numbered from zero in 32 bits. */
  function Turns(ls: seq<Label>, i: nat): seq<(nat, nat)>
    requires i <= |ls|
  {
    if i == 0 then []
    else
      var before := Turns(ls, i - 1);
      if ls[i - 1].Tick? then before + [(ls[i - 1].t, |before| % WORD)] else before
  }

  /** In every run the log lists exactly the turns ended so far, in order and with consecutive
      numbers, and the turn count is the number of the next one. */
  lemma {:induction false} LogIsTurns(ss: seq<State>, ls: seq<Label>, i: nat)
    requires Runs.FromStart(ss, ls) && i < |ss|
    ensures ss[i].log == Turns(ls, i) && ss[i].turn == |Turns(ls, i)| % WORD
  {
    if i == 0 {
      var idle: bool, r: nat :| ss[0] == Init(idle, r);
    } else {
      LogIsTurns(ss, ls, i - 1);
      assert Runs.LinkAt(ss, ls, i - 1);
      var s, l, s1 := ss[i - 1], ls[i - 1], ss[i];
      NextTurn(s, l, s1);
      ModNext(|Turns(ls, i - 1)|);
    }
  }

  lemma ModNext(n: nat)
    ensures (n % WORD + 1) % WORD == (n + 1) % WORD
  {
  }

  /** incTurnCount logs its thread with the old count and advances it; no other step does. */
  lemma NextTurn(s: State, l: Label, s1: State)
    requires s.Sized() && Enabled(s, l) && s1 == Do(s, l)
    ensures if l.Tick? then s1.log == s.log + [(l.t, s.turn)] && s1.turn == (s.turn + 1) % WORD
            else s1.log == s.log && s1.turn == s.turn
  {
    if !l.Tick? { ClockStands(s, l); }
  }
}
