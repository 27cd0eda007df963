/** The terminal's side of HARQ feedback: `get_ack`, `get_n1_pucch` and the format choice of
    `ue_pucch_procedures`, with the PUCCH resource numbers of both sides. */
module UeFeedback {
  import opened LteTiming

  /** One entry of the terminal's `harq_ack` table: was a block received in that subframe, and its outcome. */
  datatype UeAck = UeAck(send: bool, ack: nat)

  ghost predicate UeTable(acks: seq<UeAck>) {
    |acks| == 10 && forall i :: 0 <= i < 10 ==> acks[i].ack <= 1
  }

  /** `get_ack`: how many bits are due in `subframe`, as a bit mask, and the buffer after writing them.
      Positions that are not written keep their old contents. */
  function GetAck(d: Duplex, acks: seq<UeAck>, subframe: nat, o: seq<nat>): (nat, seq<nat>)
    requires |acks| == 10 && subframe < 10 && |o| == 2
  {
    match d
    case Fdd =>
      var a := acks[AckedSubframe(d, subframe, 0)];
      (if a.send then 1 else 0, o[0 := a.ack])
    case Tdd(config) =>
      if config == 1 then
        if subframe in {2, 3, 7, 8} then
          var a := acks[AckedSubframe(d, subframe, 0)];
          (if a.send then 1 else 0, o[0 := a.ack])
        else (0, o)
      else if config == 3 && subframe in {2, 3, 4} then
        var a0, a1 := acks[AckedSubframe(d, subframe, 0)], acks[AckedSubframe(d, subframe, 1)];
        var o' :=
          if a0.send then if a1.send then [a0.ack, a1.ack] else o[0 := a0.ack]
          else if a1.send then o[0 := a1.ack]
          else o;
        ((if a0.send then 1 else 0) + (if a1.send then 2 else 0), o')
      else (0, o)
  }

  /** Where a PUCCH goes: the resource derived from the grant of the `m`-th acknowledged subframe, the
      scheduling-request resource, or the two error returns. */
  datatype Resource = OfGrant(m: nat) | OfSr | Zero | MinusOne

  datatype UeTx = UeTx(b: seq<nat>, sel: nat, on: Resource)

  function And(x: nat, y: nat): nat { if x == 1 && y == 1 then 1 else 0 }
  function Or(x: nat, y: nat): nat { if x == 1 || y == 1 then 1 else 0 }
  function Xor(x: nat, y: nat): nat { if x != y then 1 else 0 }

  /** `get_n1_pucch`: payload, PUCCH selection and resource. */
  function GetN1Pucch(d: Duplex, bundling: bool, acks: seq<UeAck>, subframe: nat, b: seq<nat>, sr: bool): UeTx
    requires UeTable(acks) && subframe < 10 && |b| == 2
    requires d == Tdd(3) ==> subframe in {2, 3, 4}
  {
    match d
    case Fdd => UeTx(b, 0, if sr then OfSr else OfGrant(0))
    case Tdd(config) =>
      if config == 1 then
        if subframe !in {2, 3, 7, 8} then UeTx(b, 0, Zero)
        else
          var a0 := acks[AckedSubframe(d, subframe, 0)];
          if !a0.send then UeTx(b, 0, MinusOne)
          else if sr then UeTx(b[0 := a0.ack], 0, OfSr)
          else UeTx([if subframe in {2, 7} then 1 - a0.ack else a0.ack, a0.ack], 0, OfGrant(0))
      else if config == 3 then
        var a0, a1 := acks[AckedSubframe(d, subframe, 0)], acks[AckedSubframe(d, subframe, 1)];
        var x0 := if a0.send then a0.ack else 0;
        if a1.send then
          if sr then UeTx([Or(a1.ack, x0), Xor(a1.ack, x0)], 0, OfSr)
          else if bundling then UeTx(b[0 := if a0.send then And(a1.ack, a0.ack) else a1.ack], 1, OfGrant(1))
          else if x0 == 1 && a1.ack == 0 then UeTx([0, 1], 0, OfGrant(0))
          else UeTx([if x0 != a1.ack then 0 else 1, x0], 1, OfGrant(1))
        else if a0.send then
          if sr then UeTx([a0.ack, a0.ack], 0, OfSr)
          else if bundling then UeTx(b[0 := a0.ack], 0, OfGrant(0))
          else UeTx([a0.ack, 1 - a0.ack], 0, OfGrant(0))
        else UeTx(b, 0, MinusOne)
      else UeTx(b, 0, MinusOne)
  }

  /** Format 1a carries one bit. The test of both sides, `(subframe != 2) || (subframe != 7)`, is always
      true, so TDD configuration 1 always uses it. */
  predicate OneBitFormat(d: Duplex, bundling: bool) {
    d.Fdd? || bundling || d == Tdd(1)
  }

  // ----- Resource numbers

  /** `get_Np` on one breakpoint table, without and with the table shift. */
  function NpFrom(np: seq<nat>, nCce: nat, plus1: nat): nat
    requires |np| == 4 && plus1 <= 1
  {
    if nCce >= np[2] then np[2 + plus1] else if nCce >= np[1] then np[1 + plus1] else np[0 + plus1]
  }

  function NpTable(nRb: nat): seq<nat> {
    if nRb == 6 then [0, 1, 3, 5]
    else if nRb == 15 then [0, 3, 8, 13]
    else if nRb == 25 then [0, 5, 13, 22]
    else if nRb == 50 then [0, 11, 27, 44]
    else if nRb == 75 then [0, 16, 41, 66]
    else if nRb == 100 then [0, 22, 55, 88]
    else []
  }

  /** `get_Np`; an unsupported bandwidth answers 0. */
  function GetNp(nRb: nat, nCce: nat, plus1: nat): nat
    requires plus1 <= 1
  {
    if NpTable(nRb) == [] then 0 else NpFrom(NpTable(nRb), nCce, plus1)
  }

  /** The tables are the formula of section 10.1 of TS 36.213, floor(N_RB * (12 p - 4) / 36), clipped at 0. */
  lemma NpTablesFollowFormula(nRb: nat, p: nat)
    requires nRb in {6, 15, 25, 50, 75, 100} && p < 4
    ensures |NpTable(nRb)| == 4
    ensures NpTable(nRb)[p] == if p == 0 then 0 else nRb * (12 * p - 4) / 36
  {
    assert p == 0 || p == 1 || p == 2 || p == 3;
    assert nRb == 6 || nRb == 15 || nRb == 25 || nRb == 50 || nRb == 75 || nRb == 100;
  }

  ghost predicate Increasing(np: seq<nat>) {
    |np| == 4 && np[0] == 0 < np[1] < np[2] < np[3]
  }

  /** The offset of the resource that a grant at control element `nCce` of acknowledged subframe `i` selects. */
  function Offset(np: seq<nat>, i: nat, nCce: nat): nat
    requires |np| == 4 && i <= 1
  {
    NpFrom(np, nCce, i) + nCce
  }

  /** The grant behind an offset: block `c` of the resource space starts at `2 * np[c]` and holds first the
      elements of subframe 0 and then those of subframe 1. */
  function GrantOf(np: seq<nat>, offset: nat): (nat, nat)
    requires Increasing(np) && offset < 2 * np[3]
  {
    var c := if offset >= 2 * np[2] then 2 else if offset >= 2 * np[1] then 1 else 0;
    if offset < np[c] + np[c + 1] then (0, offset - np[c]) else (1, offset - np[c + 1])
  }

  /** Resources of the two acknowledged subframes never collide and fill the whole space: for any increasing
      breakpoints the mapping is a bijection between two copies of `[0, np[3])` and `[0, 2 np[3])`. */
  lemma ResourcesBijective(np: seq<nat>, i: nat, nCce: nat, offset: nat)
    requires Increasing(np) && i <= 1 && nCce < np[3] && offset < 2 * np[3]
    ensures Offset(np, i, nCce) < 2 * np[3] && GrantOf(np, Offset(np, i, nCce)) == (i, nCce)
    ensures var (j, n) := GrantOf(np, offset); j <= 1 && n < np[3] && Offset(np, j, n) == offset
  {
  }

  /** The number `get_n1_pucch` returns, before `ue_pucch_procedures` stores it in eight bits. */
  function ResourceNumber(d: Duplex, nRb: nat, n1An: nat, nCce: seq<nat>, srRes: nat, subframe: nat, on: Resource): nat
    requires |nCce| == 10 && subframe < 10 && (on.OfGrant? ==> on.m < AckCount(d, subframe))
  {
    match on
    case OfSr => srRes
    case Zero => 0
    case MinusOne => 65535
    case OfGrant(m) =>
      AckedSubframeInFrame(d, subframe, m);
      var c := nCce[AckedSubframe(d, subframe, m)];
      n1An + c + if d.Fdd? then 0 else GetNp(nRb, c, m)
  }

  /** `get_n1_pucch_eNB`: the resources monitored in `subframe`, -1 for none. */
  function Monitored(d: Duplex, nRb: nat, n1An: nat, nCce: seq<nat>, tx: seq<bool>, subframe: nat): (int, int)
    requires |nCce| == 10 && |tx| == 10 && subframe < 10
  {
    match d
    case Fdd =>
      var sf := AckedSubframe(d, subframe, 0);
      (if tx[sf] then n1An + nCce[sf] else -1, -1)
    case Tdd(config) =>
      if config == 1 && subframe in {2, 3, 7, 8} then
        var sf := AckedSubframe(d, subframe, 0);
        (if tx[sf] then GetNp(nRb, nCce[sf], 0) + nCce[sf] + n1An else -1, -1)
      else if config == 3 && subframe in {2, 3, 4} then
        var sf0, sf1 := AckedSubframe(d, subframe, 0), AckedSubframe(d, subframe, 1);
        (if tx[sf0] then GetNp(nRb, nCce[sf0], 0) + nCce[sf0] + n1An else -1,
         if tx[sf1] then GetNp(nRb, nCce[sf1], 1) + nCce[sf1] + n1An else -1)
      else (-1, -1)
  }

  ghost predicate DetectedOnlyGranted(d: Duplex, acks: seq<UeAck>, tx: seq<bool>, subframe: nat)
    requires |acks| == |tx| == 10 && subframe < 10
  {
    forall m :: 0 <= m < AckCount(d, subframe) ==>
      AckedSubframe(d, subframe, m) < 10 &&
      (acks[AckedSubframe(d, subframe, m)].send ==> tx[AckedSubframe(d, subframe, m)])
  }

  /** When the terminal answers without a scheduling request, and both sides agree on the control elements
      of the detected grants, the number it computes is one the base station monitors. What it transmits
      on is that number cut to eight bits, so the two agree on the air exactly when it is below 256. */
  lemma TerminalUsesMonitoredResource(
    d: Duplex, bundling: bool, nRb: nat, n1An: nat, srRes: nat, acks: seq<UeAck>, tx: seq<bool>,
    nCce: seq<nat>, nCceEnb: seq<nat>, subframe: nat, b: seq<nat>)
    requires d in {Fdd, Tdd(1), Tdd(3)} && UplinkAt(d, subframe)
    requires UeTable(acks) && |tx| == |nCce| == |nCceEnb| == 10 && subframe < 10 && |b| == 2
    requires DetectedOnlyGranted(d, acks, tx, subframe)
    requires forall sf :: 0 <= sf < 10 && acks[sf].send ==> nCce[sf] == nCceEnb[sf]
    requires GetAck(d, acks, subframe, b).0 > 0
    ensures var u := GetN1Pucch(d, bundling, acks, subframe, b, false);
      && u.on.OfGrant? && u.on.m < AckCount(d, subframe)
      && var number := ResourceNumber(d, nRb, n1An, nCce, srRes, subframe, u.on);
         var (n0, n1) := Monitored(d, nRb, n1An, nCceEnb, tx, subframe);
         var monitored := if u.on.m == 0 then n0 else n1;
         && number == monitored
         && (number % 256 == monitored <==> number < 256)
  {
  }
}
