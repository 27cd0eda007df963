/** The master information block: packed by the base station every fourth frame, read by the terminal to find
    the system frame number. Words are bit-vectors, as in the code. */
module Mib {
  import opened Wrappers

  datatype PhichResource = OneSixth | Half | One | Two

  datatype CellConfig = CellConfig(nRb: nat, extended: bool, resource: PhichResource)

  // ----- Packing

  function BandwidthBits(nRb: nat): bv8 {
    match nRb
    case 6 => 0 case 15 => 1 case 25 => 2 case 50 => 3 case 75 => 4 case 100 => 5
    case _ => 2
  }

  function ResourceBits(r: PhichResource): bv8 {
    match r
    case OneSixth => 0 case Half => 1 case One => 2 case Two => 3
  }

  /** The third byte: bandwidth in bits 7..5, PHICH duration in bit 4, PHICH resource in bits 3..2, and the two
      highest bits of the frame number. */
  function ThirdByte(c: CellConfig, frame: bv32): bv8 {
    (BandwidthBits(c.nRb) << 5) | (if c.extended then 0x10 else 0) | (ResourceBits(c.resource) << 2)
    | (((frame >> 8) & 3) as bv8)
  }

  function Packed(c: CellConfig, frame: bv32): seq<bv8> {
    [0, (frame & 0xfc) as bv8, ThirdByte(c, frame)]
  }

  /** The broadcast buffer after frame `frame`: rewritten only when the frame number is a multiple of 4. */
  function AfterFrame(c: CellConfig, pdu: seq<bv8>, frame: bv32): seq<bv8> {
    if frame & 3 == 0 then Packed(c, frame) else pdu
  }

  class Broadcast {
    const c: CellConfig
    const pdu: array<bv8>

    constructor (c: CellConfig)
      ensures this.c == c && pdu.Length == 3 && fresh(pdu)
    {
      this.c := c;
      pdu := new bv8[3];
    }

    method PackThirdByte(frame: bv32) returns (b: bv8)
      ensures b == ThirdByte(c, frame)
    {
      b := 0;
      b := (b & 0x1f) | (BandwidthBits(c.nRb) << 5);
      b := (b & 0xef) | ((if c.extended then 1 << 4 else 0) & 0x10);
      b := (b & 0xf3) | (ResourceBits(c.resource) << 2);
      b := (b & 0xfc) | (((frame >> 8) & 3) as bv8);
      FieldsDisjoint(BandwidthBits(c.nRb), c.extended, ResourceBits(c.resource), ((frame >> 8) & 3) as bv8);
    }

    /** The MIB part of `common_signal_procedures`. */
    method PrepareMib(frame: bv32)
      requires pdu.Length == 3
      modifies pdu
      ensures pdu[..] == AfterFrame(c, old(pdu[..]), frame)
    {
      if frame & 3 == 0 {
        var b := PackThirdByte(frame);
        pdu[2] := b;
        pdu[1] := (frame & 0xfc) as bv8;
        pdu[0] := 0;
      }
    }
  }

  /** The fields of the third byte do not overlap: packing them one after another, each over its own mask, is
      putting them side by side, and each is read back unchanged. */
  lemma FieldsDisjoint(bw: bv8, ext: bool, res: bv8, hi: bv8)
    requires bw <= 5 && res <= 3 && hi <= 3
    ensures var b0: bv8 := (0 & 0x1f) | (bw << 5);
      var b1 := (b0 & 0xef) | ((if ext then 1 << 4 else 0) & 0x10);
      var b2 := (b1 & 0xf3) | (res << 2);
      var b3 := (b2 & 0xfc) | hi;
      && b3 == (bw << 5) | (if ext then 0x10 else 0) | (res << 2) | hi
      && (b3 >> 5) & 7 == bw && ((b3 >> 4) & 1 == 1 <==> ext) && (b3 >> 2) & 3 == res && b3 & 3 == hi
  {
  }

  /** The enumerations of TS 36.331 in their order, bits 9 to 2 of the frame number at the end of the block as it is sent,
      and nothing in the spare bits. */
  lemma StandardLayout(c: CellConfig, frame: bv32)
    ensures [BandwidthBits(6), BandwidthBits(15), BandwidthBits(25), BandwidthBits(50), BandwidthBits(75), BandwidthBits(100)]
         == [0, 1, 2, 3, 4, 5]
    ensures [ResourceBits(OneSixth), ResourceBits(Half), ResourceBits(One), ResourceBits(Two)] == [0, 1, 2, 3]
    ensures var b := Packed(c, frame);
      && |b| == 3 && b[0] == 0 && b[1] & 3 == 0
      && (b[1] >> 2) as bv32 == (frame >> 2) & 0x3f && (b[2] & 3) as bv32 == (frame >> 8) & 3
  {
    FieldsDisjoint(BandwidthBits(c.nRb), c.extended, ResourceBits(c.resource), ((frame >> 8) & 3) as bv8);
  }

  // ----- Reading

  function BandwidthOf(b: bv8): Option<nat> {
    var d := (b >> 5) & 7;
    if d == 0 then Some(6) else if d == 1 then Some(15) else if d == 2 then Some(25) else if d == 3 then Some(50)
    else if d == 4 then Some(75) else if d == 5 then Some(100) else None
  }

  function ResourceOf(b: bv8): PhichResource {
    var d := (b >> 2) & 3;
    if d == 0 then OneSixth else if d == 1 then Half else if d == 2 then One else Two
  }

  /** The configuration as the terminal reads it at initial synchronisation. */
  function ReadConfig(pdu: seq<bv8>): Option<CellConfig>
    requires |pdu| == 3
  {
    var bw := BandwidthOf(pdu[2]);
    if bw.None? then None else Some(CellConfig(bw.value, (pdu[2] >> 4) & 1 == 1, ResourceOf(pdu[2])))
  }

  /** The frame number as the terminal computes it from the block and the phase at which it decoded. */
  function ReadFrame(pdu: seq<bv8>, phase: bv32): bv32
    requires |pdu| == 3
  {
    (((pdu[2] & 3) as bv32) << 8) + ((pdu[1] & 0xfc) as bv32) + phase
  }

  /** Configuration and frame number survive the block; an unknown bandwidth is sent as 25 resource blocks. */
  lemma ConfigRoundTrip(c: CellConfig, frame: bv32)
    ensures ReadConfig(Packed(c, frame))
         == Some(c.(nRb := if c.nRb in {6, 15, 25, 50, 75, 100} then c.nRb else 25))
  {
    FieldsDisjoint(BandwidthBits(c.nRb), c.extended, ResourceBits(c.resource), ((frame >> 8) & 3) as bv8);
  }

  lemma FrameRoundTrip(c: CellConfig, frame: bv32, phase: bv32)
    requires frame < 1024 && frame & 3 == 0 && phase < 4
    ensures ReadFrame(Packed(c, frame), phase) == frame + phase
  {
    var hi: bv8 := ((frame >> 8) & 3) as bv8;
    FieldsDisjoint(BandwidthBits(c.nRb), c.extended, ResourceBits(c.resource), hi);
    assert Packed(c, frame)[2] & 3 == hi;
  }

  // ----- The frame number over a whole run

  /** Buffer and frame number `k` frames after frame `first`, which finds the buffer as `pdu`. */
  ghost function Running(c: CellConfig, pdu: seq<bv8>, first: bv32, k: nat): (seq<bv8>, bv32) {
    if k == 0 then (AfterFrame(c, pdu, first), first)
    else
      var (now, f) := Running(c, pdu, first, k - 1);
      var f' := (f + 1) & 1023;
      (AfterFrame(c, now, f'), f')
  }

  lemma FrameStep(f: bv32)
    requires f < 1024
    ensures var f' := (f + 1) & 1023;
      f' < 1024 && (f' & 3 == 0 ==> f' & 0x3fc == f') && (f' & 3 != 0 ==> f' & 0x3fc == f & 0x3fc)
  {
  }

  /** Once written, the block on the air is always that of the last multiple of 4, through the wrap. */
  lemma {:induction false} BlockOnAir(c: CellConfig, pdu: seq<bv8>, first: bv32, k: nat)
    requires first < 1024 && first & 3 == 0
    ensures var (now, f) := Running(c, pdu, first, k); f < 1024 && now == Packed(c, f & 0x3fc)
  {
    if k > 0 {
      BlockOnAir(c, pdu, first, k - 1);
      FrameStep(Running(c, pdu, first, k - 1).1);
    } else {
      assert first & 0x3fc == first;
    }
  }

  lemma SplitFrame(f: bv32)
    requires f < 1024
    ensures f & 0x3fc < 1024 && (f & 0x3fc) & 3 == 0 && f & 3 < 4 && (f & 0x3fc) + (f & 3) == f
  {
  }

  // ----- The terminal's search

  /** Which of the four phases a frame number is in. */
  function PhaseOf(f: bv32): nat {
    if f & 3 == 0 then 0 else if f & 3 == 1 then 1 else if f & 3 == 2 then 2 else 3
  }

  function PhaseBits(p: nat): bv32 {
    if p == 0 then 0 else if p == 1 then 1 else if p == 2 then 2 else 3
  }

  /** `rx_pbch` answers with an antenna count; 1 to 4 is a success. */
  predicate Decoded(antennas: nat) {
    1 <= antennas <= 4
  }

  function Following(p: nat): nat {
    if p + 1 >= 4 then 0 else p + 1
  }

  /** The phase at which one of `trials` attempts, from phase `p` on, succeeds. */
  function Search(rx: nat -> nat, p: nat, trials: nat): Option<nat>
    decreases trials
  {
    if trials == 0 then None else if Decoded(rx(p)) then Some(p) else Search(rx, Following(p), trials - 1)
  }

  /** The frame counter with its lower ten bits replaced. */
  function Adjusted(frame: bv32, sfn: bv32): bv32 {
    (frame & 0xfffffc00) | (sfn & 0x3ff)
  }

  /** `ue_pbch_procedures`: more than two antennas are given up on. */
  method FindFrame(frame: bv32, rx: nat -> nat, pdu: seq<bv8>) returns (r: bv32, trials: nat)
    requires |pdu| == 3
    ensures var found := Search(rx, PhaseOf(frame), 4);
      r == if found.Some? && rx(found.value) <= 2 then Adjusted(frame, ReadFrame(pdu, PhaseBits(found.value))) else frame
    ensures trials <= 4
  {
    var phase := PhaseOf(frame);
    trials := 0;
    while trials < 4
      invariant trials <= 4
      invariant Search(rx, PhaseOf(frame), 4) == Search(rx, phase, 4 - trials)
    {
      if Decoded(rx(phase)) {
        r := frame;
        if rx(phase) <= 2 {
          r := Adjusted(frame, ReadFrame(pdu, PhaseBits(phase)));
        }
        return;
      }
      phase := Following(phase);
      trials := trials + 1;
    }
    r := frame;
  }

  lemma SearchFinds(rx: nat -> nat, p: nat, q: nat)
    requires p < 4 && q < 4 && forall i :: 0 <= i < 4 ==> (rx(i) in {1, 2, 3, 4} <==> i == q)
    ensures Search(rx, p, 4) == Some(q)
  {
    var p1 := Following(p);
    var p2 := Following(p1);
    var p3 := Following(p2);
    assert Search(rx, p, 4) == if p == q then Some(q) else Search(rx, p1, 3);
    assert Search(rx, p1, 3) == if p1 == q then Some(q) else Search(rx, p2, 2);
    assert Search(rx, p2, 2) == if p2 == q then Some(q) else Search(rx, p3, 1);
  }

  lemma AdjustedKeepsUpperBits(frame: bv32, sfn: bv32)
    requires sfn < 1024
    ensures Adjusted(frame, sfn) & 0x3ff == sfn && Adjusted(frame, sfn) & 0xfffffc00 == frame & 0xfffffc00
  {
  }

  lemma PhaseBitsOf(f: bv32)
    ensures PhaseOf(f) < 4 && PhaseBits(PhaseOf(f)) == f & 3
  {
  }

  lemma ReadAtTruePhase(c: CellConfig, f: bv32)
    requires f < 1024
    ensures ReadFrame(Packed(c, f & 0x3fc), PhaseBits(PhaseOf(f))) == f
  {
    PhaseBitsOf(f);
    SplitFrame(f);
    FrameRoundTrip(c, f & 0x3fc, f & 3);
  }

  /** The true frame number is the one at which `rx` succeeds. */
  ghost predicate TruePhase(rx: nat -> nat, f: bv32) {
    (forall i :: 0 <= i < 4 ==> (rx(i) in {1, 2, 3, 4} <==> i == PhaseOf(f))) && rx(PhaseOf(f)) <= 2
  }

  /** Adjusting counter `frame` by block `pdu` at the phase of `f` gives `f` under the old upper bits. */
  ghost predicate RecoveredFrame(pdu: seq<bv8>, f: bv32, frame: bv32)
    requires |pdu| == 3
  {
    var r := Adjusted(frame, ReadFrame(pdu, PhaseBits(PhaseOf(f))));
    r & 0x3ff == f && r & 0xfffffc00 == frame & 0xfffffc00
  }

  lemma AdjustedFromBlock(c: CellConfig, f: bv32, frame: bv32)
    requires f < 1024
    ensures RecoveredFrame(Packed(c, f & 0x3fc), f, frame)
  {
    ReadAtTruePhase(c, f);
    AdjustedKeepsUpperBits(frame, f);
  }

  lemma SearchAtTruePhase(rx: nat -> nat, f: bv32, frame: bv32)
    requires TruePhase(rx, f)
    ensures Search(rx, PhaseOf(frame), 4) == Some(PhaseOf(f))
  {
    PhaseBitsOf(f);
    PhaseBitsOf(frame);
    SearchFinds(rx, PhaseOf(frame), PhaseOf(f));
  }

  /** In every run, at any frame after the first block, a terminal with an arbitrary counter whose decoder
      succeeds exactly at the true phase, with one or two antennas, finds the base station's frame number
      within four trials and keeps the upper bits of its counter. */
  lemma FrameNumberRecovered(c: CellConfig, pdu: seq<bv8>, first: bv32, k: nat, frame: bv32, rx: nat -> nat)
    requires first < 1024 && first & 3 == 0 && TruePhase(rx, Running(c, pdu, first, k).1)
    ensures var (now, f) := Running(c, pdu, first, k);
      |now| == 3 && Search(rx, PhaseOf(frame), 4) == Some(PhaseOf(f)) && RecoveredFrame(now, f, frame)
  {
    BlockOnAir(c, pdu, first, k);
    SearchAtTruePhase(rx, Running(c, pdu, first, k).1, frame);
    AdjustedFromBlock(c, Running(c, pdu, first, k).1, frame);
  }
}
