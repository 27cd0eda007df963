/** The operations that front-end processing performs on the receive buffers, one buffer per slot,
    and the fact that only the order of operations within a slot matters. */
module FepTrace {

  /** One call made by the front end: remove the 7.5 kHz shift of a slot, or demodulate symbol `l` of it. */
  datatype Op = Remove75(slot: nat) | SlotFep(slot: nat, l: nat)

  /** What `fep0` does to one slot, in order, with `n` symbols per slot. */
  function SlotOps(slot: nat, n: nat): (ops: seq<Op>)
    ensures |ops| == n + 1
    ensures forall i :: 0 <= i < |ops| ==> ops[i].slot == slot
  {
    seq(n + 1, k requires 0 <= k => SlotOp(slot, k))
  }

  function SlotOp(slot: nat, k: nat): Op {
    if k == 0 then Remove75(slot) else SlotFep(slot, k - 1)
  }

  /** The operations of a trace that touch `slot`, in order. */
  function Project(tr: seq<Op>, slot: nat): seq<Op> {
    if tr == [] then []
    else
      var last := tr[|tr| - 1];
      Project(tr[..|tr| - 1], slot) + (if last.slot == slot then [last] else [])
  }

  ghost predicate InRange(tr: seq<Op>, bound: nat) {
    forall i :: 0 <= i < |tr| ==> tr[i].slot < bound
  }

  /** Running a trace on the slot buffers; `f` is whatever an operation does to its slot's buffer. */
  function Exec<B>(f: (Op, B) -> B, bufs: seq<B>, tr: seq<Op>): (r: seq<B>)
    requires InRange(tr, |bufs|)
    ensures |r| == |bufs|
  {
    if tr == [] then bufs
    else
      var last := tr[|tr| - 1];
      var before := Exec(f, bufs, tr[..|tr| - 1]);
      before[last.slot := f(last, before[last.slot])]
  }

  function ExecSlot<B>(f: (Op, B) -> B, buf: B, ops: seq<Op>): B {
    if ops == [] then buf else f(ops[|ops| - 1], ExecSlot(f, buf, ops[..|ops| - 1]))
  }

  lemma ProjectSnoc(tr: seq<Op>, op: Op, slot: nat)
    ensures Project(tr + [op], slot) == Project(tr, slot) + (if op.slot == slot then [op] else [])
  {
    assert (tr + [op])[..|tr|] == tr;
  }

  lemma {:induction false} ProjectConcat(a: seq<Op>, b: seq<Op>, slot: nat)
    ensures Project(a + b, slot) == Project(a, slot) + Project(b, slot)
  {
    if b == [] {
      assert a + b == a;
    } else {
      var pre, last := b[..|b| - 1], b[|b| - 1];
      assert a + b == (a + pre) + [last];
      assert b == pre + [last];
      ProjectConcat(a, pre, slot);
      ProjectSnoc(a + pre, last, slot);
      ProjectSnoc(pre, last, slot);
    }
  }

  lemma {:induction false} ProjectMembers(tr: seq<Op>, slot: nat)
    ensures forall op :: op in Project(tr, slot) <==> op in tr && op.slot == slot
  {
    if tr != [] {
      ProjectMembers(tr[..|tr| - 1], slot);
      assert tr == tr[..|tr| - 1] + [tr[|tr| - 1]];
    }
  }

  /** The final buffer of a slot depends only on the operations on that slot. */
  lemma {:induction false} ExecBySlot<B>(f: (Op, B) -> B, bufs: seq<B>, tr: seq<Op>, slot: nat)
    requires InRange(tr, |bufs|) && slot < |bufs|
    ensures Exec(f, bufs, tr)[slot] == ExecSlot(f, bufs[slot], Project(tr, slot))
  {
    if tr != [] {
      var pre, last := tr[..|tr| - 1], tr[|tr| - 1];
      ExecBySlot(f, bufs, pre, slot);
      if last.slot == slot {
        assert Project(tr, slot)[..|Project(tr, slot)| - 1] == Project(pre, slot);
      } else {
        assert Project(tr, slot) == Project(pre, slot);
      }
    }
  }

  /** Traces that agree slot by slot leave the same buffers, whatever the operations compute. */
  lemma SlotwiseEqualTracesCommute<B>(f: (Op, B) -> B, bufs: seq<B>, a: seq<Op>, b: seq<Op>)
    requires InRange(b, |bufs|)
    requires forall slot: nat :: Project(a, slot) == Project(b, slot)
    ensures InRange(a, |bufs|)
    ensures Exec(f, bufs, a) == Exec(f, bufs, b)
  {
    forall i | 0 <= i < |a|
      ensures a[i].slot < |bufs|
    {
      ProjectMembers(a, a[i].slot);
      ProjectMembers(b, a[i].slot);
      assert a[i] in Project(b, a[i].slot);
    }
    forall slot: nat | slot < |bufs|
      ensures Exec(f, bufs, a)[slot] == Exec(f, bufs, b)[slot]
    {
      ExecBySlot(f, bufs, a, slot);
      ExecBySlot(f, bufs, b, slot);
    }
  }

  lemma {:induction false} ProjectSlotOps(ops: seq<Op>, home: nat, slot: nat)
    requires forall i :: 0 <= i < |ops| ==> ops[i].slot == home
    ensures Project(ops, slot) == if slot == home then ops else []
  {
    if ops != [] {
      ProjectSlotOps(ops[..|ops| - 1], home, slot);
    }
  }

  // ----- The sequential front end

  /** Demodulation of symbols `0..k` of both slots of subframe `sf`, alternating between the slots. */
  function SymbolPairs(sf: nat, k: nat): seq<Op> {
    if k == 0 then [] else SymbolPairs(sf, k - 1) + [SlotFep(2 * sf, k - 1), SlotFep(2 * sf + 1, k - 1)]
  }

  /** The operations of one sequential call. */
  function SequentialOps(sf: nat, n: nat): seq<Op> {
    [Remove75(2 * sf), Remove75(2 * sf + 1)] + SymbolPairs(sf, n)
  }

  function SequentialRun(sfs: seq<nat>, n: nat): seq<Op> {
    if sfs == [] then []
    else SequentialRun(sfs[..|sfs| - 1], n) + SequentialOps(sfs[|sfs| - 1], n)
  }

  lemma {:induction false} ProjectSymbolPairs(sf: nat, k: nat, slot: nat)
    ensures Project(SymbolPairs(sf, k), slot)
         == if slot == 2 * sf || slot == 2 * sf + 1 then seq(k, l requires 0 <= l => SlotFep(slot, l)) else []
  {
    if k > 0 {
      var pre := SymbolPairs(sf, k - 1);
      ProjectSymbolPairs(sf, k - 1, slot);
      ProjectSnoc(pre, SlotFep(2 * sf, k - 1), slot);
      ProjectSnoc(pre + [SlotFep(2 * sf, k - 1)], SlotFep(2 * sf + 1, k - 1), slot);
      assert SymbolPairs(sf, k) == pre + [SlotFep(2 * sf, k - 1)] + [SlotFep(2 * sf + 1, k - 1)];
    }
  }

  /** Seen from one slot, the alternating sequential call is exactly the `fep0` of that slot. */
  lemma ProjectSequential(sf: nat, n: nat, slot: nat)
    ensures Project(SequentialOps(sf, n), slot)
         == if slot == 2 * sf || slot == 2 * sf + 1 then SlotOps(slot, n) else []
  {
    var head := [Remove75(2 * sf), Remove75(2 * sf + 1)];
    ProjectConcat(head, SymbolPairs(sf, n), slot);
    ProjectSymbolPairs(sf, n, slot);
    ProjectSnoc([Remove75(2 * sf)], Remove75(2 * sf + 1), slot);
    ProjectSnoc([], Remove75(2 * sf), slot);
    assert head == [Remove75(2 * sf)] + [Remove75(2 * sf + 1)];
    assert [] + [Remove75(2 * sf)] == [Remove75(2 * sf)];
  }

  lemma {:induction false} SequentialRunInRange(sfs: seq<nat>, n: nat, bound: nat)
    requires forall i :: 0 <= i < |sfs| ==> 2 * sfs[i] + 1 < bound
    ensures InRange(SequentialRun(sfs, n), bound)
  {
    if sfs != [] {
      SequentialRunInRange(sfs[..|sfs| - 1], n, bound);
      SymbolPairsInRange(sfs[|sfs| - 1], n, bound);
    }
  }

  lemma SymbolPairsInRange(sf: nat, k: nat, bound: nat)
    requires 2 * sf + 1 < bound
    ensures InRange(SymbolPairs(sf, k), bound)
  {
    if k > 0 {
      SymbolPairsInRange(sf, k - 1, bound);
    }
  }

  /** The sequential front end over the slot buffers of one frame. */
  method FepFull<B>(f: (Op, B) -> B, bufs: seq<B>, sf: nat, n: nat) returns (out: seq<B>)
    requires 2 * sf + 1 < |bufs|
    ensures InRange(SequentialOps(sf, n), |bufs|)
    ensures out == Exec(f, bufs, SequentialOps(sf, n))
  {
    var s0, s1 := 2 * sf, 2 * sf + 1;
    out := bufs[s0 := f(Remove75(s0), bufs[s0])];
    out := out[s1 := f(Remove75(s1), out[s1])];
    ghost var head := [Remove75(s0), Remove75(s1)];
    assert head[..1] == [Remove75(s0)] && head[..1][..0] == [];
    assert Exec(f, bufs, head[..1]) == bufs[s0 := f(Remove75(s0), bufs[s0])];
    assert out == Exec(f, bufs, head);
    for l := 0 to n
      invariant |out| == |bufs| && InRange(head + SymbolPairs(sf, l), |bufs|)
      invariant out == Exec(f, bufs, head + SymbolPairs(sf, l))
    {
      ghost var done := head + SymbolPairs(sf, l);
      out := out[s0 := f(SlotFep(s0, l), out[s0])];
      out := out[s1 := f(SlotFep(s1, l), out[s1])];
      assert head + SymbolPairs(sf, l + 1) == done + [SlotFep(s0, l)] + [SlotFep(s1, l)];
      assert (done + [SlotFep(s0, l)])[..|done|] == done;
      assert (done + [SlotFep(s0, l)] + [SlotFep(s1, l)])[..|done| + 1] == done + [SlotFep(s0, l)];
    }
  }
}
