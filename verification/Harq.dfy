/** Downlink HARQ at the base station, for one terminal: the process table, the tables that remember what
    was sent in each subframe, the statistics, and `process_HARQ_feedback`. */
module Harq {
  import opened LteTiming

  const PROCESSES: nat := 8

  datatype Status = Inactive | Active | Disabled

  datatype Proc = Proc(status: Status, round: nat, tbs: nat)

  datatype Params = Params(duplex: Duplex, mlimit: nat, bundling: bool, errorThreshold: nat, raWindow: nat)

  /** `harqIds[sf]` is `PROCESSES` when nothing is recorded for that subframe. */
  datatype HarqState = HarqState(
    harqIds: seq<nat>, subframeTx: seq<bool>, procs: seq<Proc>,
    nak: seq<seq<nat>>, ack: seq<seq<nat>>, l2Errors: seq<nat>, totalTbs: nat,
    nakRound0: nat, slidingCnt: nat, mcsOffset: int)

  ghost predicate Shaped(p: Params, s: HarqState) {
    && 1 <= p.mlimit <= 8
    && |s.harqIds| == |s.subframeTx| == 10
    && |s.procs| == |s.nak| == |s.ack| == |s.l2Errors| == PROCESSES
    && (forall i :: 0 <= i < PROCESSES ==> |s.nak[i]| == p.mlimit)
    && (forall i :: 0 <= i < PROCESSES ==> |s.ack[i]| == p.mlimit)
  }

  /** A process that is not active sits at round 0; an active one has rounds left. */
  ghost predicate Valid(p: Params, s: HarqState) {
    && Shaped(p, s)
    && (forall i :: 0 <= i < PROCESSES ==> s.procs[i].round < p.mlimit)
    && (forall i :: 0 <= i < PROCESSES ==> s.procs[i].status != Active ==> s.procs[i].round == 0)
  }

  /** What arrives with one uplink subframe: on PUSCH the bits `onPusch`, otherwise a PUCCH payload with the
      selector (2 for a bundled or single bit) and whether a scheduling request came with it. */
  datatype Feedback = Feedback(pusch: bool, onPusch: seq<nat>, payload: seq<nat>, sel: nat, sr: bool)

  ghost predicate TwoBits(b: seq<nat>) {
    |b| == 2 && b[0] <= 1 && b[1] <= 1
  }

  ghost predicate WellFormed(fb: Feedback) {
    TwoBits(fb.onPusch) && TwoBits(fb.payload)
  }

  // ----- Specification

  /** The number of downlink subframes among the first `m` that carried a transmission. */
  function Allocated(d: Duplex, tx: seq<bool>, subframe: nat, m: nat): (n: nat)
    requires |tx| == 10 && subframe < 10 && m <= AckCount(d, subframe)
    ensures n <= m
  {
    if m == 0 then 0
    else
      AckedSubframeInFrame(d, subframe, m - 1);
      Allocated(d, tx, subframe, m - 1) + if tx[AckedSubframe(d, subframe, m - 1)] then 1 else 0
  }

  /** How many acknowledgements a two-bit payload sent with a scheduling request stands for. */
  function AcksWithSr(d: Duplex, subframe: nat, payload: seq<nat>): nat
    requires |payload| == 2
  {
    if d.Fdd? || AckCount(d, subframe) != 2 then 0
    else if payload == [1, 1] then 1
    else if payload == [1, 0] then 2
    else 0
  }

  /** The bit that decides over the `m`-th acknowledged downlink subframe. */
  function Verdict(p: Params, tx: seq<bool>, subframe: nat, fb: Feedback, m: nat): nat
    requires |tx| == 10 && subframe < 10 && m < AckCount(p.duplex, subframe)
    requires |fb.onPusch| == 2 && |fb.payload| == 2
  {
    if fb.pusch then
      if Allocated(p.duplex, tx, subframe, m) == 0 || p.bundling then fb.onPusch[0] else fb.onPusch[1]
    else if fb.sel == 2 then fb.payload[0]
    else if fb.sr && Allocated(p.duplex, tx, subframe, AckCount(p.duplex, subframe)) == AcksWithSr(p.duplex, subframe, fb.payload)
    then 1
    else 0
  }

  function Bump(table: seq<seq<nat>>, i: nat, r: nat): seq<seq<nat>>
    requires i < |table| && r < |table[i]|
  {
    table[i := table[i][r := table[i][r] + 1]]
  }

  /** The process that a verdict on downlink subframe `sf` reaches, if any. */
  predicate Reaches(s: HarqState, sf: nat)
    requires sf < |s.harqIds| && sf < |s.subframeTx| && |s.procs| == PROCESSES
  {
    s.subframeTx[sf] && s.harqIds[sf] < PROCESSES && s.procs[s.harqIds[sf]].status == Active
  }

  function Adapt(p: Params, s: HarqState): HarqState {
    var o1 := if s.nakRound0 > p.errorThreshold then if s.mcsOffset == 1 then 0 else -1 else s.mcsOffset;
    if s.slidingCnt == p.raWindow then
      var o2 := if o1 == 0 && s.nakRound0 < 2 then 1 else o1;
      var o3 := if o2 == 1 && s.nakRound0 > 2 then 0 else o2;
      var o4 := if o3 == 0 && s.nakRound0 > 2 then -1 else o3;
      var o5 := if o4 == -1 && s.nakRound0 < 2 then 0 else o4;
      s.(mcsOffset := o5, nakRound0 := 0, slidingCnt := 0)
    else s.(mcsOffset := o1)
  }

  /** What adaptation does. More first-round errors than the threshold lower the offset by one step. At the end
      of a window, fewer than two then raise it by one step, and more than two put it at the bottom; the window
      and its errors start again. */
  lemma AdaptMeaning(p: Params, s: HarqState)
    requires -1 <= s.mcsOffset <= 1
    ensures var s' := Adapt(p, s);
      var errors, ends, o, o' := s.nakRound0, s.slidingCnt == p.raWindow, s.mcsOffset, s'.mcsOffset;
      && -1 <= o' <= 1
      && (o' > o <==> ends && errors < 2 && (o == -1 || (o == 0 && errors <= p.errorThreshold)))
      && (o' < o <==> o > -1 && if ends then errors > 2 || (errors == 2 && p.errorThreshold < 2) else errors > p.errorThreshold)
      && (o' > o ==> o' == o + 1)
      && (o' < o ==> o' == if ends && errors > 2 then -1 else o - 1)
      && s' == s.(mcsOffset := o', nakRound0 := if ends then 0 else errors, slidingCnt := if ends then 0 else s.slidingCnt)
  {
  }

  /** An acknowledgement frees the process and credits its block. */
  function Acknowledge(s: HarqState, sf: nat, pid: nat): HarqState
    requires sf < |s.harqIds| && pid < |s.procs| == |s.ack| && s.procs[pid].round < |s.ack[pid]|
  {
    s.(ack := Bump(s.ack, pid, s.procs[pid].round),
       procs := s.procs[pid := s.procs[pid].(status := Inactive, round := 0)],
       harqIds := s.harqIds[sf := PROCESSES],
       totalTbs := s.totalTbs + s.procs[pid].tbs)
  }

  /** A negative one moves the process to its next round, or gives the block up after the last. */
  function Reject(p: Params, s: HarqState, sf: nat, pid: nat): HarqState
    requires sf < |s.harqIds| && pid < |s.procs| == |s.nak| == |s.l2Errors| && s.procs[pid].round < |s.nak[pid]|
  {
    var pr := s.procs[pid];
    var counted := s.(nak := Bump(s.nak, pid, pr.round), nakRound0 := s.nakRound0 + if pr.round == 0 then 1 else 0);
    if pr.round + 1 == p.mlimit then
      counted.(procs := s.procs[pid := pr.(status := Inactive, round := 0)],
               l2Errors := s.l2Errors[pid := s.l2Errors[pid] + 1],
               harqIds := s.harqIds[sf := PROCESSES])
    else
      counted.(procs := s.procs[pid := pr.(round := pr.round + 1)])
  }

  function Judge(p: Params, s: HarqState, sf: nat, bit: nat): (r: HarqState)
    requires Valid(p, s) && sf < 10
    ensures Valid(p, r) && r.subframeTx == s.subframeTx
  {
    if !Reaches(s, sf) then s
    else
      var pid := s.harqIds[sf];
      Adapt(p, if bit == 0 then Reject(p, s, sf, pid) else Acknowledge(s, sf, pid))
  }

  /** Feedback judged for the first `m` downlink subframes that `subframe` acknowledges. */
  function JudgeFirst(p: Params, s: HarqState, subframe: nat, fb: Feedback, m: nat): (r: HarqState)
    requires Valid(p, s) && subframe < 10 && WellFormed(fb) && m <= AckCount(p.duplex, subframe)
    ensures Valid(p, r) && r.subframeTx == s.subframeTx
  {
    if m == 0 then s
    else
      AckedSubframeInFrame(p.duplex, subframe, m - 1);
      Judge(p, JudgeFirst(p, s, subframe, fb, m - 1), AckedSubframe(p.duplex, subframe, m - 1),
            Verdict(p, s.subframeTx, subframe, fb, m - 1))
  }

  function Received(p: Params, s: HarqState, subframe: nat, fb: Feedback): (r: HarqState)
    requires Valid(p, s) && subframe < 10 && WellFormed(fb)
    ensures Valid(p, r) && r.subframeTx == s.subframeTx
  {
    JudgeFirst(p, s, subframe, fb, AckCount(p.duplex, subframe))
  }

  /** Transmission in subframe `sf`: the previous record is cleared, a grant records its process. Only
      round 0 activates the process and sets the block size. */
  datatype Grant = NoGrant | Grant(pid: nat, tbs: nat)

  function Transmitted(p: Params, s: HarqState, sf: nat, g: Grant): (r: HarqState)
    requires Valid(p, s) && sf < 10 && (g.Grant? ==> g.pid < PROCESSES)
    ensures Valid(p, r)
  {
    match g
    case NoGrant => s.(subframeTx := s.subframeTx[sf := false])
    case Grant(pid, tbs) =>
      var pr := s.procs[pid];
      s.(subframeTx := s.subframeTx[sf := true],
         harqIds := s.harqIds[sf := pid],
         procs := s.procs[pid := if pr.round == 0 then Proc(Active, 0, tbs) else pr],
         slidingCnt := s.slidingCnt + 1)
  }

  /** The first scheduling request after connection setup clears process 0. */
  function FirstSr(p: Params, s: HarqState): (r: HarqState)
    requires Valid(p, s)
    ensures Valid(p, r)
  {
    s.(procs := s.procs[0 := s.procs[0].(status := Inactive, round := 0)])
  }

  // ----- The base station's record of one terminal

  class EnbUe {
    const p: Params
    var harqIds: seq<nat>
    var subframeTx: seq<bool>
    var procs: seq<Proc>
    var nak: seq<seq<nat>>
    var ack: seq<seq<nat>>
    var l2Errors: seq<nat>
    var totalTbs: nat
    var nakRound0: nat
    var slidingCnt: nat
    var mcsOffset: int
    var firstSr: bool

    ghost function State(): HarqState
      reads this
    {
      HarqState(harqIds, subframeTx, procs, nak, ack, l2Errors, totalTbs, nakRound0, slidingCnt, mcsOffset)
    }

    constructor (p: Params)
      requires 1 <= p.mlimit <= 8
      ensures this.p == p && State() == Fresh(p) && Valid(p, State()) && firstSr
    {
      this.p := p;
      harqIds := seq(10, _ => PROCESSES);
      subframeTx := seq(10, _ => false);
      procs := seq(PROCESSES, _ => Proc(Inactive, 0, 0));
      nak := seq(PROCESSES, _ => seq(p.mlimit, _ => 0));
      ack := seq(PROCESSES, _ => seq(p.mlimit, _ => 0));
      l2Errors := seq(PROCESSES, _ => 0);
      totalTbs, nakRound0, slidingCnt, mcsOffset := 0, 0, 0, 0;
      firstSr := true;
    }

    /** A negative acknowledgement for process `pid`, sent in downlink subframe `sf`. */
    method OnNak(sf: nat, pid: nat)
      requires Valid(p, State()) && sf < 10 && pid < PROCESSES
      modifies this`nakRound0, this`nak, this`procs, this`l2Errors, this`harqIds
      ensures State() == Reject(p, old(State()), sf, pid)
    {
      var round := procs[pid].round;
      if round == 0 {
        nakRound0 := nakRound0 + 1;
      }
      nak := Bump(nak, pid, round);
      round := round + 1;
      if round == p.mlimit {
        procs := procs[pid := procs[pid].(round := 0, status := Inactive)];
        l2Errors := l2Errors[pid := l2Errors[pid] + 1];
        harqIds := harqIds[sf := PROCESSES];
      } else {
        procs := procs[pid := procs[pid].(round := round)];
      }
    }

    method OnAck(sf: nat, pid: nat)
      requires Valid(p, State()) && sf < 10 && pid < PROCESSES
      modifies this`ack, this`procs, this`harqIds, this`totalTbs
      ensures State() == Acknowledge(old(State()), sf, pid)
    {
      ack := Bump(ack, pid, procs[pid].round);
      procs := procs[pid := procs[pid].(round := 0, status := Inactive)];
      harqIds := harqIds[sf := PROCESSES];
      totalTbs := totalTbs + procs[pid].tbs;
    }

    /** The verdict on the process recorded for downlink subframe `sf`. */
    method JudgeSubframe(sf: nat, bit: nat)
      requires Valid(p, State()) && sf < 10
      modifies this
      ensures State() == Judge(p, old(State()), sf, bit)
      ensures firstSr == old(firstSr)
    {
      if subframeTx[sf] && harqIds[sf] < PROCESSES {
        var pid := harqIds[sf];
        if procs[pid].status == Active {
          if bit == 0 {
            OnNak(sf, pid);
          } else {
            OnAck(sf, pid);
          }
          AdaptRate();
        }
      }
    }

    /** Fine-grain rate adaptation from the error statistics. */
    method AdaptRate()
      modifies this`mcsOffset, this`nakRound0, this`slidingCnt
      ensures State() == Adapt(p, old(State()))
    {
      if nakRound0 > p.errorThreshold {
        if mcsOffset == 1 { mcsOffset := 0; } else { mcsOffset := -1; }
      }
      if slidingCnt == p.raWindow {
        if mcsOffset == 0 && nakRound0 < 2 { mcsOffset := 1; }
        if mcsOffset == 1 && nakRound0 > 2 { mcsOffset := 0; }
        if mcsOffset == 0 && nakRound0 > 2 { mcsOffset := -1; }
        if mcsOffset == -1 && nakRound0 < 2 { mcsOffset := 0; }
        nakRound0 := 0;
        slidingCnt := 0;
      }
    }

    /** Decoding of the feedback into `dlsch_ACK`; entries never written stay `Unset`. */
    method Decode(subframe: nat, fb: Feedback) returns (bits: seq<Bit>, nbAck: nat)
      requires subframe < 10 && WellFormed(fb)
      ensures |bits| == 8 && bits == Decoded(p, subframe, fb)
      ensures !fb.pusch && fb.sel != 2 && fb.sr ==> nbAck == AcksWithSr(p.duplex, subframe, fb.payload)
    {
      bits := seq(8, _ => Unset);
      nbAck := 0;
      if p.duplex.Fdd? {
        bits := bits[0 := Is(if fb.pusch then fb.onPusch[0] else fb.payload[0])];
      } else {
        var m := AckCount(p.duplex, subframe);
        if fb.pusch {
          bits := bits[0 := Is(fb.onPusch[0])];
          bits := bits[1 := Is(if p.bundling then fb.onPusch[0] else fb.onPusch[1])];
        } else if fb.sr && fb.sel != 2 {
          if m == 2 {
            if fb.payload[0] == 1 && fb.payload[1] == 1 {
              nbAck := 1;
            } else if fb.payload[0] == 1 && fb.payload[1] == 0 {
              nbAck := 2;
            }
          }
        } else if fb.sel == 2 {
          bits := bits[0 := Is(fb.payload[0])];
          bits := bits[1 := Is(fb.payload[0])];
        } else if m == 1 {
          bits := bits[0 := Is(fb.payload[0])];
        } else if m == 2 {
          var (a0, a1) := Table10(fb.sel, fb.payload);
          bits := bits[0 := Is(a0)];
          bits := bits[1 := Is(a1)];
        }
      }
    }

    method CountAllocated(subframe: nat) returns (n: nat)
      requires |subframeTx| == 10 && subframe < 10
      ensures n == Allocated(p.duplex, subframeTx, subframe, AckCount(p.duplex, subframe))
    {
      n := 0;
      for m := 0 to AckCount(p.duplex, subframe)
        invariant n == Allocated(p.duplex, subframeTx, subframe, m)
      {
        AckedSubframeInFrame(p.duplex, subframe, m);
        if subframeTx[AckedSubframe(p.duplex, subframe, m)] {
          n := n + 1;
        }
      }
    }

    /** The loop body of `process_HARQ_feedback`: the `m`-th acknowledged subframe. */
    method JudgeEntry(subframe: nat, fb: Feedback, m: nat, allAcked: bool, bits: seq<Bit>, mp: int) returns (bits': seq<Bit>, mp': int)
      requires Valid(p, State()) && subframe < 10 && WellFormed(fb) && m < AckCount(p.duplex, subframe)
      requires |bits| == 8 && (fb.pusch || fb.sel == 2 ==> bits == Decoded(p, subframe, fb))
      requires fb.pusch ==> mp == Allocated(p.duplex, subframeTx, subframe, m) - 1
      requires AllAcked(p, subframeTx, subframe, fb, allAcked)
      modifies this
      ensures var sf := AckedSubframe(p.duplex, subframe, m);
        && sf < 10
        && State() == if old(subframeTx)[sf]
                      then Judge(p, old(State()), sf, Verdict(p, old(subframeTx), subframe, fb, m)) else old(State())
      ensures firstSr == old(firstSr)
      ensures |bits'| == 8 && (fb.pusch || fb.sel == 2 ==> bits' == bits)
      ensures fb.pusch ==> mp' == Allocated(p.duplex, old(subframeTx), subframe, m + 1) - 1
    {
      AckedSubframeInFrame(p.duplex, subframe, m);
      var sf := AckedSubframe(p.duplex, subframe, m);
      bits', mp' := bits, mp;
      if subframeTx[sf] {
        if fb.pusch { mp' := mp + 1; } else { mp' := m; }
        if fb.sel != 2 && !fb.pusch {
          bits' := bits[m := Is(if fb.sr && allAcked then 1 else 0)];
          CountedIsVerdict(p, subframeTx, subframe, fb, m, allAcked);
        } else {
          DecodedMatchesVerdict(p, subframeTx, subframe, fb, m);
        }
        JudgeSubframe(sf, bits'[mp'].value);
      }
    }

    /** `process_HARQ_feedback`. */
    method ProcessFeedback(subframe: nat, fb: Feedback)
      requires Valid(p, State()) && subframe < 10 && WellFormed(fb)
      modifies this
      ensures State() == Received(p, old(State()), subframe, fb)
      ensures firstSr == old(firstSr)
    {
      ghost var s0 := State();
      var bits, nbAck := Decode(subframe, fb);
      var allAcked := true;
      if fb.sr && fb.sel != 2 && !fb.pusch {
        var nbAlloc := CountAllocated(subframe);
        allAcked := nbAlloc == nbAck;
      }
      var mp := -1;
      for m := 0 to AckCount(p.duplex, subframe)
        invariant State() == JudgeFirst(p, s0, subframe, fb, m)
        invariant fb.pusch ==> mp == Allocated(p.duplex, s0.subframeTx, subframe, m) - 1
        invariant |bits| == 8
        invariant fb.pusch || fb.sel == 2 ==> bits == Decoded(p, subframe, fb)
        invariant firstSr == old(firstSr)
      {
        JudgeFirstStep(p, s0, subframe, fb, m);
        bits, mp := JudgeEntry(subframe, fb, m, allAcked, bits, mp);
      }
    }

    /** Scheduling of one downlink subframe for this terminal. */
    method Transmit(sf: nat, g: Grant)
      requires Valid(p, State()) && sf < 10 && (g.Grant? ==> g.pid < PROCESSES)
      modifies this
      ensures State() == Transmitted(p, old(State()), sf, g)
      ensures firstSr == old(firstSr)
    {
      subframeTx := subframeTx[sf := false];
      match g {
        case NoGrant =>
        case Grant(pid, tbs) =>
          subframeTx := subframeTx[sf := true];
          if procs[pid].round == 0 {
            procs := procs[pid := Proc(Active, procs[pid].round, tbs)];
          }
          harqIds := harqIds[sf := pid];
          slidingCnt := slidingCnt + 1;
      }
    }

    /** A scheduling request was received on PUCCH. */
    method ReceiveSr()
      requires Valid(p, State())
      modifies this
      ensures State() == if old(firstSr) then FirstSr(p, old(State())) else old(State())
      ensures !firstSr
    {
      if firstSr {
        firstSr := false;
        procs := procs[0 := procs[0].(round := 0)];
        procs := procs[0 := procs[0].(status := Inactive)];
      }
    }
  }

  datatype Bit = Unset | Is(value: nat)

  function Fresh(p: Params): (s: HarqState)
    requires 1 <= p.mlimit <= 8
    ensures Valid(p, s)
  {
    HarqState(seq(10, _ => PROCESSES), seq(10, _ => false), seq(PROCESSES, _ => Proc(Inactive, 0, 0)),
              seq(PROCESSES, _ => seq(p.mlimit, _ => 0)), seq(PROCESSES, _ => seq(p.mlimit, _ => 0)),
              seq(PROCESSES, _ => 0), 0, 0, 0, 0)
  }

  /** Table 10.1 as the base station decodes it: PUCCH selection without a scheduling request. */
  function Table10(sel: nat, b: seq<nat>): (nat, nat)
    requires |b| == 2
  {
    (if (sel == 1 && b == [1, 1]) || (sel == 0 && b == [0, 1]) then 1 else 0,
     if (sel == 1 && b == [1, 1]) || (sel == 1 && b == [0, 0]) then 1 else 0)
  }

  function Decoded(p: Params, subframe: nat, fb: Feedback): (bits: seq<Bit>)
    requires subframe < 10 && |fb.onPusch| == 2 && |fb.payload| == 2
    ensures |bits| == 8
  {
    var none := seq(8, _ => Unset);
    if p.duplex.Fdd? then none[0 := Is(if fb.pusch then fb.onPusch[0] else fb.payload[0])]
    else if fb.pusch then none[0 := Is(fb.onPusch[0])][1 := Is(if p.bundling then fb.onPusch[0] else fb.onPusch[1])]
    else if fb.sr && fb.sel != 2 then none
    else if fb.sel == 2 then none[0 := Is(fb.payload[0])][1 := Is(fb.payload[0])]
    else if AckCount(p.duplex, subframe) == 1 then none[0 := Is(fb.payload[0])]
    else if AckCount(p.duplex, subframe) == 2 then
      var (a0, a1) := Table10(fb.sel, fb.payload);
      none[0 := Is(a0)][1 := Is(a1)]
    else none
  }

  /** A verdict more; none is given on a subframe without transmission. */
  lemma JudgeFirstStep(p: Params, s: HarqState, subframe: nat, fb: Feedback, m: nat)
    requires Valid(p, s) && subframe < 10 && WellFormed(fb) && m < AckCount(p.duplex, subframe)
    ensures var sf, s' := AckedSubframe(p.duplex, subframe, m), JudgeFirst(p, s, subframe, fb, m);
      && sf < 10
      && JudgeFirst(p, s, subframe, fb, m + 1)
         == if s.subframeTx[sf] then Judge(p, s', sf, Verdict(p, s.subframeTx, subframe, fb, m)) else s'
  {
    AckedSubframeInFrame(p.duplex, subframe, m);
  }

  /** `allAcked` says whether as many acknowledgements were counted as grants are on record. */
  ghost predicate AllAcked(p: Params, tx: seq<bool>, subframe: nat, fb: Feedback, allAcked: bool)
    requires |tx| == 10 && subframe < 10 && |fb.payload| == 2
  {
    fb.sr && fb.sel != 2 && !fb.pusch ==>
      (allAcked <==> Allocated(p.duplex, tx, subframe, AckCount(p.duplex, subframe)) == AcksWithSr(p.duplex, subframe, fb.payload))
  }

  /** The entry written where acknowledgements are only counted. */
  lemma CountedIsVerdict(p: Params, tx: seq<bool>, subframe: nat, fb: Feedback, m: nat, allAcked: bool)
    requires |tx| == 10 && subframe < 10 && WellFormed(fb) && m < AckCount(p.duplex, subframe)
    requires !fb.pusch && fb.sel != 2 && AllAcked(p, tx, subframe, fb, allAcked)
    ensures Verdict(p, tx, subframe, fb, m) == if fb.sr && allAcked then 1 else 0
  {
  }

  /** No judged entry of `dlsch_ACK` is ever read unset, and it holds the verdict. */
  lemma DecodedMatchesVerdict(p: Params, tx: seq<bool>, subframe: nat, fb: Feedback, m: nat)
    requires |tx| == 10 && subframe < 10 && WellFormed(fb) && m < AckCount(p.duplex, subframe)
    ensures fb.pusch ==>
      Decoded(p, subframe, fb)[Allocated(p.duplex, tx, subframe, m)] == Is(Verdict(p, tx, subframe, fb, m))
    ensures !fb.pusch && fb.sel == 2 ==> Decoded(p, subframe, fb)[m] == Is(Verdict(p, tx, subframe, fb, m))
  {
  }
}
