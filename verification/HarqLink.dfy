/** One feedback exchange end to end over an error-free channel: what the terminal sends for its own
    reception outcomes, and what the base station concludes from it. */
module HarqLink {
  import opened LteTiming
  import opened Harq
  import opened UeFeedback

  /** Both tables describe the same downlink, as far as `subframe` acknowledges it: nothing is granted outside
      downlink subframes, and the terminal detects only what was granted. */
  ghost predicate Consistent(d: Duplex, acks: seq<UeAck>, tx: seq<bool>, subframe: nat) {
    && UeTable(acks) && |tx| == 10 && subframe < 10
    && DetectedOnlyGranted(d, acks, tx, subframe)
    && (forall m :: 0 <= m < AckCount(d, subframe) && Sent(d, tx, subframe, m) ==> DownlinkAt(d, AckedSubframe(d, subframe, m)))
  }

  predicate Supported(d: Duplex, subframe: nat) {
    subframe < 10 && (d.Fdd? || (d in {Tdd(1), Tdd(3)} && AckCount(d, subframe) > 0))
  }

  /** What `pucch_procedures` passes on. A resource on which nothing was sent yields the payload (0, 0);
      `previous` is whatever the terminal's payload buffer held before. */
  function OverPucch(p: Params, acks: seq<UeAck>, tx: seq<bool>, subframe: nat, previous: seq<nat>, sr: bool): (fb: Feedback)
    requires UeTable(acks) && |tx| == 10 && |previous| == 2 && Supported(p.duplex, subframe)
    ensures !fb.pusch && fb.sr == sr && |fb.onPusch| == |fb.payload| == 2
  {
    var d := p.duplex;
    var (due, written) := GetAck(d, acks, subframe, previous);
    var u := if due > 0 then GetN1Pucch(d, p.bundling, acks, subframe, written, sr) else UeTx([0, 0], 0, MinusOne);
    var onAir := if due == 0 then [0, 0] else if OneBitFormat(d, p.bundling) then [u.b[0], 0] else u.b;
    if d.Fdd? || (sr && p.bundling) then Feedback(false, [0, 0], onAir, 2, sr)
    else if sr then Feedback(false, [0, 0], onAir, 0, sr)
    else if !p.bundling then Feedback(false, [0, 0], onAir, u.sel, sr)
    else
      // bundling: the base station reads the second resource whenever it monitors it
      var second := AckCount(d, subframe) == 2 && d == Tdd(3) && tx[AckedSubframe(d, subframe, 1)];
      var heard := if second then u.on == OfGrant(1) else u.on == OfGrant(0);
      Feedback(false, [0, 0], if heard then onAir else [0, 0], 2, sr)
  }

  function OverPusch(p: Params, acks: seq<UeAck>, subframe: nat, previous: seq<nat>): (fb: Feedback)
    requires |acks| == 10 && |previous| == 2 && subframe < 10
    ensures fb.pusch && |fb.onPusch| == |fb.payload| == 2
  {
    Feedback(true, GetAck(p.duplex, acks, subframe, previous).1, [0, 0], 0, false)
  }

  ghost predicate Got(d: Duplex, acks: seq<UeAck>, subframe: nat, m: nat)
    requires UeTable(acks) && subframe < 10 && m < AckCount(d, subframe)
  {
    AckedSubframeInFrame(d, subframe, m);
    acks[AckedSubframe(d, subframe, m)].send && acks[AckedSubframe(d, subframe, m)].ack == 1
  }

  ghost predicate Sent(d: Duplex, tx: seq<bool>, subframe: nat, m: nat)
    requires |tx| == 10 && subframe < 10 && m < AckCount(d, subframe)
  {
    AckedSubframeInFrame(d, subframe, m);
    tx[AckedSubframe(d, subframe, m)]
  }

  /** No transmission is taken as acknowledged unless the terminal decoded it. */
  ghost predicate Safe(p: Params, acks: seq<UeAck>, tx: seq<bool>, subframe: nat, fb: Feedback)
    requires UeTable(acks) && |tx| == 10 && subframe < 10 && |fb.onPusch| == |fb.payload| == 2
  {
    forall m :: 0 <= m < AckCount(p.duplex, subframe) ==>
      Sent(p.duplex, tx, subframe, m) && Verdict(p, tx, subframe, fb, m) == 1 ==> Got(p.duplex, acks, subframe, m)
  }

  /** The situations in which a PUCCH answer is misread:
      - configuration 3, bundling, no request: the first of two grants missed, the second decoded;
      - configuration 3, bundling with a request: one of two blocks decoded (the bits are OR-ed);
      - configuration 1, bundling, no request, subframes 2 and 7: a failed block (the bit is inverted). */
  ghost predicate Misread(p: Params, acks: seq<UeAck>, tx: seq<bool>, subframe: nat, sr: bool)
    requires UeTable(acks) && |tx| == 10 && Supported(p.duplex, subframe)
  {
    var d := p.duplex;
    && p.bundling
    && if d == Tdd(3) then
         var got0, got1 := Got(d, acks, subframe, 0), Got(d, acks, subframe, 1);
         var sent0, sent1 := Sent(d, tx, subframe, 0), Sent(d, tx, subframe, 1);
         if sr then (got0 && sent1 && !got1) || (got1 && sent0 && !got0)
         else got1 && sent0 && !acks[AckedSubframe(d, subframe, 0)].send
       else
         d == Tdd(1) && !sr && subframe in {2, 7} && acks[AckedSubframe(d, subframe, 0)].send && !Got(d, acks, subframe, 0)
  }

  lemma FddPucchExact(p: Params, acks: seq<UeAck>, tx: seq<bool>, subframe: nat, previous: seq<nat>, sr: bool)
    requires p.duplex.Fdd? && subframe < 10 && Consistent(p.duplex, acks, tx, subframe) && TwoBits(previous)
    ensures Verdict(p, tx, subframe, OverPucch(p, acks, tx, subframe, previous, sr), 0) == 1 <==> Got(p.duplex, acks, subframe, 0)
  {
  }

  lemma Tdd3PucchSafeIff(p: Params, acks: seq<UeAck>, tx: seq<bool>, subframe: nat, previous: seq<nat>, sr: bool)
    requires p.duplex == Tdd(3) && Supported(p.duplex, subframe) && Consistent(p.duplex, acks, tx, subframe) && TwoBits(previous)
    ensures Safe(p, acks, tx, subframe, OverPucch(p, acks, tx, subframe, previous, sr)) <==> !Misread(p, acks, tx, subframe, sr)
  {
    var fb := OverPucch(p, acks, tx, subframe, previous, sr);
    AckedSubframeInFrame(p.duplex, subframe, 0);
    AckedSubframeInFrame(p.duplex, subframe, 1);
    TwoSubframes(p.duplex, tx, subframe);
    assert Safe(p, acks, tx, subframe, fb) <==>
      (Sent(p.duplex, tx, subframe, 0) && Verdict(p, tx, subframe, fb, 0) == 1 ==> Got(p.duplex, acks, subframe, 0)) &&
      (Sent(p.duplex, tx, subframe, 1) && Verdict(p, tx, subframe, fb, 1) == 1 ==> Got(p.duplex, acks, subframe, 1));
  }

  lemma TwoSubframes(d: Duplex, tx: seq<bool>, subframe: nat)
    requires |tx| == 10 && subframe < 10 && AckCount(d, subframe) == 2
    ensures Allocated(d, tx, subframe, 0) == 0
    ensures Allocated(d, tx, subframe, 1) == if Sent(d, tx, subframe, 0) then 1 else 0
    ensures Allocated(d, tx, subframe, 2)
         == (if Sent(d, tx, subframe, 0) then 1 else 0) + (if Sent(d, tx, subframe, 1) then 1 else 0)
  {
  }

  lemma Tdd1PucchSafeIff(p: Params, acks: seq<UeAck>, tx: seq<bool>, subframe: nat, previous: seq<nat>, sr: bool)
    requires p.duplex == Tdd(1) && Supported(p.duplex, subframe) && Consistent(p.duplex, acks, tx, subframe) && TwoBits(previous)
    ensures Safe(p, acks, tx, subframe, OverPucch(p, acks, tx, subframe, previous, sr)) <==> !Misread(p, acks, tx, subframe, sr)
  {
    var fb := OverPucch(p, acks, tx, subframe, previous, sr);
    AckedSubframeInFrame(p.duplex, subframe, 0);
    if subframe in {2, 7} {
      // the second acknowledged subframe is special and never carries a grant
      AckedSubframeInFrame(p.duplex, subframe, 1);
      TwoSubframes(p.duplex, tx, subframe);
      assert !Sent(p.duplex, tx, subframe, 1);
      assert Safe(p, acks, tx, subframe, fb) <==>
        (Sent(p.duplex, tx, subframe, 0) && Verdict(p, tx, subframe, fb, 0) == 1 ==> Got(p.duplex, acks, subframe, 0));
    } else {
      assert Allocated(p.duplex, tx, subframe, 1) == if Sent(p.duplex, tx, subframe, 0) then 1 else 0;
    }
  }

  /** Feedback on PUCCH, over every mode, is safe exactly outside the listed situations; in particular always
      in FDD and always with multiplexing, also when the terminal missed grants. */
  lemma PucchSafeIff(p: Params, acks: seq<UeAck>, tx: seq<bool>, subframe: nat, previous: seq<nat>, sr: bool)
    requires Supported(p.duplex, subframe) && Consistent(p.duplex, acks, tx, subframe) && TwoBits(previous)
    ensures Safe(p, acks, tx, subframe, OverPucch(p, acks, tx, subframe, previous, sr)) <==> !Misread(p, acks, tx, subframe, sr)
  {
    if p.duplex.Fdd? {
      FddPucchExact(p, acks, tx, subframe, previous, sr);
    } else if p.duplex == Tdd(3) {
      Tdd3PucchSafeIff(p, acks, tx, subframe, previous, sr);
    } else {
      Tdd1PucchSafeIff(p, acks, tx, subframe, previous, sr);
    }
  }

  /** With multiplexing and without a scheduling request the decoded bits are overwritten, so no payload and
      no selection is ever an acknowledgement. */
  lemma MultiplexedPucchNeverAcknowledges(p: Params, tx: seq<bool>, subframe: nat, fb: Feedback, m: nat)
    requires |tx| == 10 && subframe < 10 && m < AckCount(p.duplex, subframe) && |fb.onPusch| == |fb.payload| == 2
    requires !fb.pusch && fb.sel != 2 && !fb.sr
    ensures Verdict(p, tx, subframe, fb, m) == 0
  {
  }

  function Count(a: bool, b: bool): nat {
    (if a then 1 else 0) + (if b then 1 else 0)
  }

  /** With a scheduling request the multiplexed payload carries the number of decoded blocks, and the base station
      takes all or none: everything is acknowledged exactly when that number equals its own count of grants. */
  lemma MultiplexedWithRequestCounts(p: Params, acks: seq<UeAck>, tx: seq<bool>, subframe: nat, previous: seq<nat>, sr: bool, m: nat)
    requires p.duplex == Tdd(3) && !p.bundling && Supported(p.duplex, subframe) && m < 2
    requires UeTable(acks) && |tx| == 10 && TwoBits(previous)
    ensures Verdict(p, tx, subframe, OverPucch(p, acks, tx, subframe, previous, sr), m) == 1 <==>
      sr && Count(Sent(p.duplex, tx, subframe, 0), Sent(p.duplex, tx, subframe, 1))
         == Count(Got(p.duplex, acks, subframe, 0), Got(p.duplex, acks, subframe, 1))
  {
    AckedSubframeInFrame(p.duplex, subframe, 0);
    AckedSubframeInFrame(p.duplex, subframe, 1);
    TwoSubframes(p.duplex, tx, subframe);
  }

  /** Had the bits been used, the base station's table would still read them correctly only when the terminal
      detected the second grant; a lone first grant comes out inverted. */
  lemma Table10RoundTripIff(p: Params, acks: seq<UeAck>, tx: seq<bool>, subframe: nat, previous: seq<nat>)
    requires p.duplex == Tdd(3) && !p.bundling && UeTable(acks) && |tx| == 10 && subframe in {2, 3, 4} && TwoBits(previous)
    requires GetAck(Tdd(3), acks, subframe, previous).0 > 0
    ensures var bits := Decoded(p, subframe, OverPucch(p, acks, tx, subframe, previous, false));
      && bits[0] == Is(if Got(Tdd(3), acks, subframe, 0) then 1 else 0)
      && bits[1] == Is(if Got(Tdd(3), acks, subframe, 1) then 1 else 0)
      <==> acks[AckedSubframe(Tdd(3), subframe, 1)].send
  {
  }

  /** In subframes 3 and 8 of configuration 1 the one bit is decoded as the terminal's outcome, before it is
      overwritten. */
  lemma SingleBitRoundTrip(p: Params, acks: seq<UeAck>, tx: seq<bool>, subframe: nat, previous: seq<nat>)
    requires p.duplex == Tdd(1) && !p.bundling && UeTable(acks) && |tx| == 10 && subframe in {3, 8} && TwoBits(previous)
    ensures Decoded(p, subframe, OverPucch(p, acks, tx, subframe, previous, false))[0]
         == Is(if Got(p.duplex, acks, subframe, 0) then 1 else 0)
  {
  }

  /** On PUSCH with multiplexing, when the terminal saw every grant, each verdict is the terminal's own
      outcome for that subframe. */
  lemma PuschExactWhenAllSeen(p: Params, acks: seq<UeAck>, tx: seq<bool>, subframe: nat, previous: seq<nat>, m: nat)
    requires p.duplex == Tdd(3) && !p.bundling && Supported(p.duplex, subframe)
    requires Consistent(p.duplex, acks, tx, subframe) && TwoBits(previous) && m < 2
    requires forall i :: 0 <= i < 2 && Sent(p.duplex, tx, subframe, i) ==> acks[AckedSubframe(p.duplex, subframe, i)].send
    requires Sent(p.duplex, tx, subframe, m)
    ensures Verdict(p, tx, subframe, OverPusch(p, acks, subframe, previous), m) == 1 <==> Got(p.duplex, acks, subframe, m)
  {
    AckedSubframeInFrame(p.duplex, subframe, 0);
    AckedSubframeInFrame(p.duplex, subframe, 1);
    TwoSubframes(p.duplex, tx, subframe);
    assert Sent(p.duplex, tx, subframe, 0) <==> acks[AckedSubframe(p.duplex, subframe, 0)].send;
    assert Sent(p.duplex, tx, subframe, 1) <==> acks[AckedSubframe(p.duplex, subframe, 1)].send;
  }

  /** On PUSCH with multiplexing the terminal packs the outcomes it has, first to first; the base station unpacks
      them by its own count of grants. Where the terminal has none, the buffer's old contents are sent. */
  lemma PuschVerdictIff(p: Params, acks: seq<UeAck>, tx: seq<bool>, subframe: nat, previous: seq<nat>, m: nat)
    requires p.duplex == Tdd(3) && !p.bundling && Supported(p.duplex, subframe) && m < 2
    requires UeTable(acks) && |tx| == 10 && TwoBits(previous)
    ensures var send0, send1 := acks[AckedSubframe(p.duplex, subframe, 0)].send, acks[AckedSubframe(p.duplex, subframe, 1)].send;
      var bit0 := if send0 then Got(p.duplex, acks, subframe, 0) else if send1 then Got(p.duplex, acks, subframe, 1) else previous[0] == 1;
      var bit1 := if send0 && send1 then Got(p.duplex, acks, subframe, 1) else previous[1] == 1;
      Verdict(p, tx, subframe, OverPusch(p, acks, subframe, previous), m) == 1
      <==> if m == 1 && Sent(p.duplex, tx, subframe, 0) then bit1 else bit0
  {
    AckedSubframeInFrame(p.duplex, subframe, 0);
    AckedSubframeInFrame(p.duplex, subframe, 1);
    TwoSubframes(p.duplex, tx, subframe);
  }

  /** Configuration 1 on PUSCH: the terminal's table bit, in either mode. */
  lemma Tdd1PuschVerdict(p: Params, acks: seq<UeAck>, tx: seq<bool>, subframe: nat, previous: seq<nat>)
    requires p.duplex == Tdd(1) && subframe in {2, 3, 7, 8} && UeTable(acks) && |tx| == 10 && TwoBits(previous)
    ensures var k := AckedSubframe(p.duplex, subframe, 0);
      k < 10 && Verdict(p, tx, subframe, OverPusch(p, acks, subframe, previous), 0) == acks[k].ack
  {
    assert Allocated(p.duplex, tx, subframe, 0) == 0;
  }

  /** Configuration 1 on PUCCH in subframes 2 and 7, the first grant on record: never positive with multiplexing; with
      bundling the bit, inverted unless a request is sent. */
  lemma Tdd1PucchVerdict(p: Params, acks: seq<UeAck>, tx: seq<bool>, subframe: nat, previous: seq<nat>, sr: bool)
    requires p.duplex == Tdd(1) && subframe in {2, 7} && UeTable(acks) && |tx| == 10 && TwoBits(previous)
    requires Sent(p.duplex, tx, subframe, 0) && !Sent(p.duplex, tx, subframe, 1)
    ensures Verdict(p, tx, subframe, OverPucch(p, acks, tx, subframe, previous, sr), 0) == 1 <==>
      && p.bundling
      && if sr then Got(p.duplex, acks, subframe, 0)
         else acks[AckedSubframe(p.duplex, subframe, 0)].send && !Got(p.duplex, acks, subframe, 0)
  {
    TwoSubframes(p.duplex, tx, subframe);
  }

  /** The condition matters: a missed first grant turns the second block's outcome into a verdict on the first. */
  lemma PuschMisreadsMissedGrant() returns (p: Params, acks: seq<UeAck>, tx: seq<bool>)
    ensures p.duplex == Tdd(3) && !p.bundling && Consistent(p.duplex, acks, tx, 3)
    ensures Sent(p.duplex, tx, 3, 0) && !Got(p.duplex, acks, 3, 0)
    ensures Verdict(p, tx, 3, OverPusch(p, acks, 3, [0, 0]), 0) == 1
  {
    p := Params(Tdd(3), 4, false, 0, 0);
    acks := seq(10, i => if i == 8 then UeAck(true, 1) else UeAck(false, 0));
    tx := seq(10, i => i == 7 || i == 8);
    assert Allocated(p.duplex, tx, 3, 0) == 0;
  }
}
