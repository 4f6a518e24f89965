/** Call records of the binary log: the arguments of a call are split over one call record, which
    has room for two (MAX_INLINE_ARGS), and as many extra records of three (MAX_EXTRA_ARGS) as
    needed, and a reader puts them together again. */
module RecordLog {
  import opened Options

  const SHORT_MAX: nat := 32767
  const MAX_INSID: nat := 0x2000_0000             // 1 << 29
  const INVALID_INSID: nat := 0xFFFF_FFFF
  const INVALID_IN_REC: nat := 0x1FFF_FFFF

  /** Conversion to unsigned, short and uint8_t. */
  function Unsigned(x: int): nat {
    if 0 <= x < 0x1_0000_0000 then x else x % 0x1_0000_0000
  }

  function Short(x: int): int {
    if -0x8000 <= x < 0x8000 then x else (x + 0x8000) % 0x1_0000 - 0x8000
  }

  function Byte(x: int): nat {
    if 0 <= x < 256 then x else x % 256
  }

  function Min(a: int, b: int): int {
    if a < b then a else b
  }

  /** The count is computed in unsigned arithmetic. */
  function NumExtraArgsRecords(narg: int): nat {
    Unsigned(narg - 2 + 3 - 1) / 3
  }

  datatype Flags = Flags(indirect: bool, noReturn: bool)

  datatype Rec =
    | CallRec(insid: nat, flags: Flags, seq_: nat, narg: int, func: nat, args: seq<nat>)
    | ExtraArgsRec(insid: nat, flags: Flags, seq_: nat, narg: int, args: seq<nat>)
    | ReturnRec(insid: nat, flags: Flags, seq_: nat, narg: int, func: nat, data: nat)

  // The reader's side -------------------------------------------------------------------------

  /** numArgsInRec: how many arguments the record says it holds. */
  function NumArgsInRec(r: Rec): int {
    match r
    case CallRec(_, _, _, narg, _, _) => Min(narg, 2)
    case ExtraArgsRec(_, _, s, narg, _) =>
      Min(Short(Unsigned(narg - 2 - (s - 1) * 3)), 3)
    case ReturnRec(_, _, _, _, _, _) => 0
  }

  function NumRecForInst(r: Rec): int {
    1 + NumExtraArgsRecords(r.narg) + if r.flags.noReturn then 0 else 1
  }

  /** The arguments read from one record. */
  function ArgsOf(r: Rec): seq<nat>
    requires !r.ReturnRec? && NumArgsInRec(r) <= |r.args|
  {
    if NumArgsInRec(r) <= 0 then [] else r.args[..NumArgsInRec(r)]
  }

  predicate Readable(rs: seq<Rec>) {
    forall i :: 0 <= i < |rs| ==> !rs[i].ReturnRec? && NumArgsInRec(rs[i]) <= |rs[i].args|
  }

  /** The arguments read from the first k records. */
  function ReadArgs(rs: seq<Rec>, k: nat): seq<nat>
    requires Readable(rs) && k <= |rs|
  {
    if k == 0 then [] else ReadArgs(rs, k - 1) + ArgsOf(rs[k - 1])
  }

  // The writer's side -------------------------------------------------------------------------

  /** An indirect call of exit or pthread_exit does not return. */
  function Effective(f: Flags, exits: bool): Flags {
    if f.indirect && exits then f.(noReturn := true) else f
  }

  /** setInsid; its assertion is the precondition of logging. */
  predicate LoggableInsid(id: nat) {
    id == INVALID_INSID || id < MAX_INSID
  }

  function SetInsid(id: nat): nat {
    if id == INVALID_INSID then INVALID_IN_REC else id
  }

  function GetInsid(insid: nat): nat {
    if insid != INVALID_IN_REC then insid else INVALID_INSID
  }

  /** Argument slots that are not written stay zero. */
  function Padded(a: seq<nat>, n: nat): (r: seq<nat>)
    requires |a| <= n
    ensures |r| == n
  {
    seq(n, j requires 0 <= j < n => if j < |a| then a[j] else 0)
  }

  /** Where the arguments of extra record s begin and end. */
  function Lo(s: nat): int {
    2 + 3 * (s - 1)
  }

  function Hi(narg: nat, s: nat): int {
    Min(narg, Short(Unsigned(2 + 3 * s)))
  }

  /** The arguments that go into extra record s. */
  function Part(args: seq<nat>, s: nat): (part: seq<nat>)
    ensures |part| <= 3
  {
    var lo, hi := Lo(s), Hi(|args|, s);
    if 0 <= lo <= hi <= |args| && hi <= lo + 3 then args[lo..hi] else []
  }

  function Extra(insid: nat, args: seq<nat>, s: nat): Rec {
    ExtraArgsRec(SetInsid(insid), Flags(false, false), Byte(s), |args|, Padded(Part(args, s), 3))
  }

  function Call(flags: Flags, insid: nat, func: nat, args: seq<nat>): Rec {
    var n := if |args| < 2 then |args| else 2;
    CallRec(SetInsid(insid), flags, 0, |args|, func, Padded(args[..n], 2))
  }

  /** The call record and the extra records 1 .. k. */
  function CallRecords(flags: Flags, insid: nat, func: nat, args: seq<nat>, k: nat): (rs: seq<Rec>)
    ensures |rs| == k + 1
  {
    if k == 0 then [Call(flags, insid, func, args)]
    else CallRecords(flags, insid, func, args, k - 1) + [Extra(insid, args, k)]
  }

  function Return(flags: Flags, insid: nat, func: nat, narg: nat, data: nat): Rec {
    ReturnRec(SetInsid(insid), flags, Byte(NumExtraArgsRecords(narg) + 1), narg, func, data)
  }

  /** The wrap-around below two arguments is harmless: the count is the number of groups of
      three needed for the arguments after the first two. */
  lemma ExtraCount(narg: nat)
    requires narg <= SHORT_MAX
    ensures NumExtraArgsRecords(narg) == narg / 3
    ensures narg <= 2 <==> NumExtraArgsRecords(narg) == 0
    ensures narg > 2 ==> Lo(NumExtraArgsRecords(narg)) < narg <= Lo(NumExtraArgsRecords(narg)) + 3
  {
  }

  lemma HiBounds(narg: nat, s: nat)
    requires narg <= SHORT_MAX && 1 <= s <= NumExtraArgsRecords(narg)
    ensures Hi(narg, s) <= narg && Hi(narg, s) <= Lo(s) + 3 && 2 <= Lo(s) < narg
    ensures narg <= 32765 ==> Lo(s) < Hi(narg, s) == Min(narg, Lo(s) + 3)
    ensures s < NumExtraArgsRecords(narg) ==> Hi(narg, s) == Lo(s) + 3
  {
    ExtraCount(narg);
  }

  class BinLogger {
    var buf: seq<Rec>

    constructor ()
      ensures buf == []
    {
      buf := [];
    }

    method LogCall(flags0: Flags, insid: nat, args: seq<nat>, func: nat, exits: bool)
      requires LoggableInsid(insid) && |args| <= SHORT_MAX
      modifies this
      ensures buf == old(buf) + CallRecords(Effective(flags0, exits), insid, func, args,
                                            NumExtraArgsRecords(|args|))
    {
      var flags := Effective(flags0, exits);
      var nextra := NumExtraArgsRecords(|args|);
      ExtraCount(|args|);
      ghost var rs := [];
      var call, i := LogInline(flags, insid, args, func);
      buf := buf + [call];
      rs := [call];
      var s := 1;
      while s <= nextra
        invariant 1 <= s <= nextra + 1
        invariant s <= nextra ==> i == Lo(s)
        invariant buf == old(buf) + rs && rs == CallRecords(flags, insid, func, args, s - 1)
      {
        var extra, next := LogExtra(insid, args, i, s);
        buf := buf + [extra];
        rs := rs + [extra];
        i := next;
        s := s + 1;
      }
    }

    /** The call record with its inlined arguments. */
    method LogInline(flags: Flags, insid: nat, args: seq<nat>, func: nat) returns (call: Rec, i: nat)
      ensures |args| > 2 ==> i == Lo(1)
      ensures call == Call(flags, insid, func, args)
    {
      var recArgs := [0, 0];
      var recNarg := Min(|args|, 2);
      i := 0;
      while i < recNarg
        invariant 0 <= i <= recNarg && |recArgs| == 2
        invariant recArgs[..i] == args[..i]
        invariant forall k :: i <= k < 2 ==> recArgs[k] == 0
      {
        recArgs := recArgs[i := args[i]];
        i := i + 1;
      }
      assert recArgs == Padded(args[..i], 2);
      call := CallRec(SetInsid(insid), flags, 0, |args|, func, recArgs);
    }

    /** One extra record. */
    method LogExtra(insid: nat, args: seq<nat>, from: nat, s: nat) returns (extra: Rec, i: nat)
      requires |args| <= SHORT_MAX && 1 <= s <= NumExtraArgsRecords(|args|) && from == Lo(s)
      ensures s < NumExtraArgsRecords(|args|) ==> i == Lo(s + 1)
      ensures extra == Extra(insid, args, s)
    {
      HiBounds(|args|, s);
      var extraArgs := [0, 0, 0];
      i := from;
      var recI := 0;
      var recNarg := Hi(|args|, s);
      while i < recNarg
        invariant i == from + recI && from <= i && (i <= recNarg || i == from)
        invariant 0 <= recI <= 3 && |extraArgs| == 3
        invariant forall k :: 0 <= k < recI ==> extraArgs[k] == args[from + k]
        invariant forall k :: recI <= k < 3 ==> extraArgs[k] == 0
      {
        extraArgs := extraArgs[recI := args[i]];
        recI := recI + 1;
        i := i + 1;
      }
      assert extraArgs == Padded(args[from..i], 3);
      extra := ExtraArgsRec(SetInsid(insid), Flags(false, false), Byte(s), |args|, extraArgs);
    }

    method LogRet(flags0: Flags, insid: nat, narg: nat, func: nat, exits: bool, data: nat)
      requires LoggableInsid(insid) && narg <= SHORT_MAX
      requires !Effective(flags0, exits).noReturn
      modifies this
      ensures buf == old(buf) + [Return(Effective(flags0, exits), insid, func, narg, data)]
    {
      buf := buf + [Return(Effective(flags0, exits), insid, func, narg, data)];
    }
  }

  // Round trip --------------------------------------------------------------------------------

  lemma {:induction false} Members(flags: Flags, insid: nat, func: nat, args: seq<nat>, k: nat)
    ensures var rs := CallRecords(flags, insid, func, args, k);
      && rs[0] == Call(flags, insid, func, args)
      && forall i :: 1 <= i < |rs| ==> rs[i] == Extra(insid, args, i)
  {
    if k > 0 { Members(flags, insid, func, args, k - 1); }
  }

  /** Reading a record of the log always stays inside it. */
  lemma LogReadable(flags: Flags, insid: nat, func: nat, args: seq<nat>, k: nat)
    ensures Readable(CallRecords(flags, insid, func, args, k))
  {
    Members(flags, insid, func, args, k);
  }

  /** What the reader takes for the size of extra record s. */
  function Claimed(narg: nat, s: nat): int {
    Min(Short(Unsigned(narg - 2 - (Byte(s) - 1) * 3)), 3)
  }

  lemma ExtraSize(insid: nat, args: seq<nat>, s: nat)
    requires |args| <= SHORT_MAX && 1 <= s <= NumExtraArgsRecords(|args|)
    ensures NumArgsInRec(Extra(insid, args, s)) == Claimed(|args|, s) <= 3
    ensures |ArgsOf(Extra(insid, args, s))| == if Claimed(|args|, s) <= 0 then 0 else Claimed(|args|, s)
  {
  }

  lemma ExtraArgs(insid: nat, args: seq<nat>, s: nat)
    requires |args| <= SHORT_MAX && 1 <= s <= NumExtraArgsRecords(|args|)
    requires |args| <= 767 || (|args| - 2) % 3 == 0
    ensures NumArgsInRec(Extra(insid, args, s)) <= 3
    ensures 2 <= Lo(s) < Hi(|args|, s) <= |args| && (s > 1 ==> Lo(s) == Hi(|args|, s - 1))
    ensures args[..Lo(s)] + ArgsOf(Extra(insid, args, s)) == args[..Hi(|args|, s)]
  {
    ExtraSize(insid, args, s);
    ClaimedIsHeld(|args|, s);
    HiBounds(|args|, s);
    if s > 1 { HiBounds(|args|, s - 1); }
    var part := args[Lo(s)..Hi(|args|, s)];
    assert ArgsOf(Extra(insid, args, s)) == Padded(part, 3)[..|part|] == part;
    assert args[..Lo(s)] + part == args[..Hi(|args|, s)];
  }

  lemma ClaimedIsHeld(narg: nat, s: nat)
    requires narg <= SHORT_MAX && 1 <= s <= NumExtraArgsRecords(narg)
    requires narg <= 767 || (narg - 2) % 3 == 0
    ensures Claimed(narg, s) == Hi(narg, s) - Lo(s) && 1 <= Claimed(narg, s) <= 3
  {
    ExtraCount(narg);
    HiBounds(narg, s);
    assert Byte(s) <= s;
  }

  /** What the reader has after the call record and k extra records. */
  function Got(flags: Flags, insid: nat, func: nat, args: seq<nat>, k: nat): seq<nat> {
    if k == 0 then ArgsOf(Call(flags, insid, func, args))
    else Got(flags, insid, func, args, k - 1) + ArgsOf(Extra(insid, args, k))
  }

  lemma {:induction false} ReadGot(flags: Flags, insid: nat, func: nat, args: seq<nat>, rs: seq<Rec>, k: nat)
    requires k < |rs| && rs[0] == Call(flags, insid, func, args)
    requires forall i :: 1 <= i < |rs| ==> rs[i] == Extra(insid, args, i)
    requires Readable(rs)
    ensures ReadArgs(rs, k + 1) == Got(flags, insid, func, args, k)
  {
    ReadNext(rs, k);
    if k == 0 {
      assert ReadArgs(rs, 0) == [];
    } else {
      assert rs[k] == Extra(insid, args, k);
      ReadGot(flags, insid, func, args, rs, k - 1);
    }
  }

  lemma ReadNext(rs: seq<Rec>, k: nat)
    requires Readable(rs) && k < |rs|
    ensures ReadArgs(rs, k + 1) == ReadArgs(rs, k) + ArgsOf(rs[k])
  {
  }

  /** Where the arguments of the call record and the first k extra records end. */
  function UpTo(narg: nat, k: nat): int {
    if k == 0 then Min(narg, 2) else Hi(narg, k)
  }

  /** Reading the records in order gives back the arguments they hold. */
  lemma {:induction false} GotPrefix(flags: Flags, insid: nat, func: nat, args: seq<nat>, k: nat)
    requires |args| <= SHORT_MAX && k <= NumExtraArgsRecords(|args|)
    requires |args| <= 767 || (|args| - 2) % 3 == 0
    ensures 0 <= UpTo(|args|, k) <= |args|
    ensures Got(flags, insid, func, args, k) == args[..UpTo(|args|, k)]
  {
    if k > 0 {
      GotPrefix(flags, insid, func, args, k - 1);
      ExtraArgs(insid, args, k);
      assert UpTo(|args|, k - 1) == Lo(k) by { ExtraCount(|args|); }
    }
  }

  /** How many arguments the reader gets. */
  function CountRead(narg: nat, k: nat): nat
    requires narg <= SHORT_MAX
  {
    if k == 0 then Min(narg, 2)
    else CountRead(narg, k - 1) + if Claimed(narg, k) <= 0 then 0 else Claimed(narg, k)
  }

  lemma {:induction false} GotLength(flags: Flags, insid: nat, func: nat, args: seq<nat>, k: nat)
    requires |args| <= SHORT_MAX && k <= NumExtraArgsRecords(|args|)
    ensures |Got(flags, insid, func, args, k)| == CountRead(|args|, k)
  {
    if k > 0 {
      GotLength(flags, insid, func, args, k - 1);
      ExtraSize(insid, args, k);
    }
  }

  /** With 768 or more arguments the one-byte sequence number has wrapped by the last record,
      which the reader then takes for a full one. */
  lemma {:induction false} WrappedFull(narg: nat, k: nat)
    requires 768 <= narg <= SHORT_MAX - 1 && k <= NumExtraArgsRecords(narg)
    requires k < NumExtraArgsRecords(narg) || (narg - 2) % 3 != 0
    ensures CountRead(narg, k) == 2 + 3 * k
  {
    ExtraCount(narg);
    if k > 0 { WrappedFull(narg, k - 1); }
  }

  /** With 32767 arguments the remaining count overflows a short in record 256. */
  lemma {:induction false} OverflowShort(k: nat)
    requires k <= NumExtraArgsRecords(32767)
    ensures CountRead(32767, k) <= 2 + 3 * k
    ensures k >= 256 ==> CountRead(32767, k) <= 2 + 3 * (k - 1)
  {
    if k > 0 { OverflowShort(k - 1); }
  }

  lemma MiscountIff(narg: nat)
    requires narg <= SHORT_MAX && !(narg <= 767 || (narg - 2) % 3 == 0)
    ensures CountRead(narg, NumExtraArgsRecords(narg)) != narg
  {
    ExtraCount(narg);
    if narg == 32767 {
      OverflowShort(NumExtraArgsRecords(narg));
    } else {
      WrappedFull(narg, NumExtraArgsRecords(narg));
    }
  }

  lemma GotAll(flags: Flags, insid: nat, func: nat, args: seq<nat>)
    requires |args| <= SHORT_MAX && (|args| <= 767 || (|args| - 2) % 3 == 0)
    ensures Got(flags, insid, func, args, NumExtraArgsRecords(|args|)) == args
  {
    GotPrefix(flags, insid, func, args, NumExtraArgsRecords(|args|));
    AllHeld(|args|);
  }

  lemma GotOther(flags: Flags, insid: nat, func: nat, args: seq<nat>)
    requires |args| <= SHORT_MAX && !(|args| <= 767 || (|args| - 2) % 3 == 0)
    ensures |Got(flags, insid, func, args, NumExtraArgsRecords(|args|))| != |args|
  {
    GotLength(flags, insid, func, args, NumExtraArgsRecords(|args|));
    MiscountIff(|args|);
  }

  lemma ReadBack(flags: Flags, insid: nat, func: nat, args: seq<nat>, k: nat)
    ensures var rs := CallRecords(flags, insid, func, args, k);
      Readable(rs) && ReadArgs(rs, |rs|) == Got(flags, insid, func, args, k)
  {
    Members(flags, insid, func, args, k);
    LogReadable(flags, insid, func, args, k);
    ReadGot(flags, insid, func, args, CallRecords(flags, insid, func, args, k), k);
  }

  /** Reading back gives the argument list exactly when it has at most 767 members, or the last
      extra record is full. */
  lemma RoundTrip(flags: Flags, insid: nat, func: nat, args: seq<nat>)
    requires |args| <= SHORT_MAX
    ensures var rs := CallRecords(flags, insid, func, args, NumExtraArgsRecords(|args|));
      Readable(rs) && (ReadArgs(rs, |rs|) == args <==> |args| <= 767 || (|args| - 2) % 3 == 0)
  {
    ReadBack(flags, insid, func, args, NumExtraArgsRecords(|args|));
    if |args| <= 767 || (|args| - 2) % 3 == 0 {
      GotAll(flags, insid, func, args);
    } else {
      GotOther(flags, insid, func, args);
    }
  }

  lemma AllHeld(narg: nat)
    requires narg <= SHORT_MAX && (narg <= 767 || (narg - 2) % 3 == 0)
    ensures UpTo(narg, NumExtraArgsRecords(narg)) == narg
  {
    ExtraCount(narg);
  }

  /** The records of a call, with its return record if it returns, number numRecForInst of the
      call record; an extra record gives that number exactly when the call returns, because its
      flags are never written. */
  lemma RecordCount(flags: Flags, insid: nat, func: nat, args: seq<nat>)
    requires |args| <= SHORT_MAX
    ensures var rs := CallRecords(flags, insid, func, args, NumExtraArgsRecords(|args|));
      var total := |rs| + if flags.noReturn then 0 else 1;
      && NumRecForInst(rs[0]) == total
      && (forall i :: 1 <= i < |rs| ==> (NumRecForInst(rs[i]) == total <==> !flags.noReturn))
      && (forall data :: NumRecForInst(Return(flags, insid, func, |args|, data)) == total)
  {
    var k := NumExtraArgsRecords(|args|);
    Members(flags, insid, func, args, k);
  }

  /** An instruction id survives logging unless it is the bit pattern kept for invalid ids. */
  lemma InsidRoundTrip(id: nat)
    requires LoggableInsid(id)
    ensures SetInsid(id) < MAX_INSID
    ensures GetInsid(SetInsid(id)) == id <==> id != INVALID_IN_REC
  {
  }

  // One call in the log -----------------------------------------------------------------------

  /** The arguments a reader takes from the call record at place p and its extra records. */
  function ReadCall(buf: seq<Rec>, p: nat): Option<seq<nat>> {
    if p < |buf| && buf[p].CallRec? && p + NumExtraArgsRecords(buf[p].narg) < |buf| then
      ReadAll(buf[p..p + 1 + NumExtraArgsRecords(buf[p].narg)])
    else None
  }

  function ReadAll(rs: seq<Rec>): Option<seq<nat>> {
    if Readable(rs) then Some(ReadArgs(rs, |rs|)) else None
  }

  /** What logCall, and logRet if the call returns, put into the log. */
  function WholeCall(flags: Flags, insid: nat, func: nat, args: seq<nat>, data: nat): seq<Rec> {
    CallRecords(flags, insid, func, args, NumExtraArgsRecords(|args|))
    + if flags.noReturn then [] else [Return(flags, insid, func, |args|, data)]
  }

  /** A logged call in the middle of a log: its call record tells how many records belong to it,
      the last of them is the return record if there is one, and the instruction id comes back
      unless it is the reserved pattern. */
  lemma CallInLog(before: seq<Rec>, flags: Flags, insid: nat, func: nat, args: seq<nat>, data: nat,
                  after: seq<Rec>)
    requires |args| <= SHORT_MAX && LoggableInsid(insid)
    ensures var rs := WholeCall(flags, insid, func, args, data);
      var buf := before + rs + after;
      var p := |before|;
      && NumRecForInst(buf[p]) == |rs|
      && (!flags.noReturn ==> buf[p + |rs| - 1].ReturnRec? && buf[p + |rs| - 1].data == data)
      && (GetInsid(buf[p].insid) == insid <==> insid != INVALID_IN_REC)
  {
    var k := NumExtraArgsRecords(|args|);
    Members(flags, insid, func, args, k);
    assert WholeCall(flags, insid, func, args, data)[0] == Call(flags, insid, func, args);
  }

  /** Its arguments come back under the condition of RoundTrip. */
  lemma ArgsInLog(before: seq<Rec>, flags: Flags, insid: nat, func: nat, args: seq<nat>, data: nat,
                  after: seq<Rec>)
    requires |args| <= SHORT_MAX
    ensures var buf := before + WholeCall(flags, insid, func, args, data) + after;
      ReadCall(buf, |before|) == Some(args) <==> |args| <= 767 || (|args| - 2) % 3 == 0
  {
    var cs := CallRecords(flags, insid, func, args, NumExtraArgsRecords(|args|));
    var rest: seq<Rec> := if flags.noReturn then [] else [Return(flags, insid, func, |args|, data)];
    RoundTrip(flags, insid, func, args);
    HeadIsCall(flags, insid, func, args);
    ReadInLog(before, cs, rest, after);
  }

  lemma HeadIsCall(flags: Flags, insid: nat, func: nat, args: seq<nat>)
    ensures var cs := CallRecords(flags, insid, func, args, NumExtraArgsRecords(|args|));
      cs[0].CallRec? && cs[0].narg == |args|
  {
    Members(flags, insid, func, args, NumExtraArgsRecords(|args|));
  }

  /** Reading finds the records of a call wherever they stand. */
  lemma ReadInLog(before: seq<Rec>, cs: seq<Rec>, rest: seq<Rec>, after: seq<Rec>)
    requires cs != [] && cs[0].CallRec? && |cs| == 1 + NumExtraArgsRecords(cs[0].narg)
    ensures ReadCall(before + (cs + rest) + after, |before|) == ReadAll(cs)
  {
    Slice(before, cs, rest, after);
  }

  lemma Slice(before: seq<Rec>, cs: seq<Rec>, rest: seq<Rec>, after: seq<Rec>)
    ensures var buf := before + (cs + rest) + after;
      buf[|before|..|before| + |cs|] == cs && (cs != [] ==> buf[|before|] == cs[0])
  {
  }

  /** The same at the end of a log. */
  lemma CallAtEnd(before: seq<Rec>, flags: Flags, insid: nat, func: nat, args: seq<nat>, data: nat, buf: seq<Rec>)
    requires |args| <= SHORT_MAX && LoggableInsid(insid)
    requires buf == before + WholeCall(flags, insid, func, args, data)
    ensures |buf| > |before| && buf[..|before|] == before
    ensures |buf| == |before| + NumRecForInst(buf[|before|])
    ensures ReadCall(buf, |before|) == Some(args) <==> |args| <= 767 || (|args| - 2) % 3 == 0
    ensures buf[|buf| - 1].ReturnRec? <==> !flags.noReturn
  {
    var rs := WholeCall(flags, insid, func, args, data);
    assert buf == before + rs + [];
    CallInLog(before, flags, insid, func, args, data, []);
    ArgsInLog(before, flags, insid, func, args, data, []);
    LastRecord(flags, insid, func, args, data);
    assert buf[|buf| - 1] == rs[|rs| - 1];
  }

  lemma LastRecord(flags: Flags, insid: nat, func: nat, args: seq<nat>, data: nat)
    ensures var rs := WholeCall(flags, insid, func, args, data);
      rs != [] && (rs[|rs| - 1].ReturnRec? <==> !flags.noReturn)
  {
    Members(flags, insid, func, args, NumExtraArgsRecords(|args|));
  }

  /** What the instrumentation does around one call. */
  method LogOneCall(log: BinLogger, flags: Flags, insid: nat, args: seq<nat>, func: nat, exits: bool, data: nat)
    requires LoggableInsid(insid) && |args| <= SHORT_MAX
    modifies log
    ensures log.buf == old(log.buf) + WholeCall(Effective(flags, exits), insid, func, args, data)
    ensures |log.buf| > |old(log.buf)| && log.buf[..|old(log.buf)|] == old(log.buf)
    ensures |log.buf| == |old(log.buf)| + NumRecForInst(log.buf[|old(log.buf)|])
    ensures ReadCall(log.buf, |old(log.buf)|) == Some(args) <==> |args| <= 767 || (|args| - 2) % 3 == 0
    ensures log.buf[|log.buf| - 1].ReturnRec? <==> !Effective(flags, exits).noReturn
  {
    log.LogCall(flags, insid, args, func, exits);
    if !Effective(flags, exits).noReturn {
      log.LogRet(flags, insid, |args|, func, exits, data);
    }
    CallAtEnd(old(log.buf), Effective(flags, exits), insid, func, args, data, log.buf);
  }
}
