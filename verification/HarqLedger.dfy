/** Where every downlink block goes. A ledger records, beside the base station's own counters, when a block
    starts, its size, the verdicts on it, and the two ways a block vanishes without feedback: the reset by the
    first scheduling request, and a new block put on a process that is still in round 0. The counters balance in
    every run. */
module HarqLedger {
  import opened LteTiming
  import opened Harq
  import HarqLink

  datatype Event = Tx(sf: nat, g: Grant) | Rx(subframe: nat, fb: Feedback) | Sr

  ghost predicate EventOk(e: Event) {
    match e
    case Tx(sf, g) => sf < 10 && (g.Grant? ==> g.pid < PROCESSES)
    case Rx(subframe, fb) => subframe < 10 && WellFormed(fb)
    case Sr => true
  }

  /** `verdicts[i]` are the verdicts on process `i` since its latest block was started; `cleared[i]` says that the
      block was dropped since then. `sent` are all grants; `settledErrors` and `settledSent` are the first-round
      rejections and the grants up to the end of the last window of the rate adaptation. */
  datatype Ledger = Ledger(
    inFlight: seq<nat>, acked: seq<nat>, started: seq<nat>, replaced: seq<nat>, dropped: seq<seq<nat>>,
    verdicts: seq<seq<nat>>, cleared: seq<bool>, sent: nat, settledErrors: nat, settledSent: nat)

  ghost predicate LedgerShaped(p: Params, l: Ledger) {
    && |l.inFlight| == |l.started| == |l.replaced| == |l.dropped| == |l.verdicts| == |l.cleared| == PROCESSES
    && forall i :: 0 <= i < PROCESSES ==> |l.dropped[i]| == p.mlimit
  }

  datatype World = World(s: HarqState, l: Ledger)

  /** The rejections in round 0, of all processes together. */
  ghost function FirstErrors(nak: seq<seq<nat>>): nat {
    if nak == [] then 0
    else
      var last := nak[|nak| - 1];
      FirstErrors(nak[..|nak| - 1]) + if last == [] then 0 else last[0]
  }

  ghost predicate Ok(p: Params, w: World) {
    Valid(p, w.s) && LedgerShaped(p, w.l)
  }

  ghost function Start(p: Params): (w: World)
    requires 1 <= p.mlimit <= 8
    ensures Ok(p, w)
  {
    World(Fresh(p), Ledger(seq(PROCESSES, _ => 0), [], seq(PROCESSES, _ => 0), seq(PROCESSES, _ => 0),
                           seq(PROCESSES, _ => seq(p.mlimit, _ => 0)), seq(PROCESSES, _ => []), seq(PROCESSES, _ => false),
                           0, 0, 0))
  }

  ghost function JudgeW(p: Params, w: World, sf: nat, bit: nat): (r: World)
    requires Ok(p, w) && sf < 10
    ensures Ok(p, r)
  {
    var l :=
      if Reaches(w.s, sf) then
        var pid, ends := w.s.harqIds[sf], w.s.slidingCnt == p.raWindow;
        w.l.(acked := if bit != 0 then w.l.acked + [w.l.inFlight[pid]] else w.l.acked,
             verdicts := w.l.verdicts[pid := w.l.verdicts[pid] + [bit]],
             settledErrors := if ends then FirstErrors(Judge(p, w.s, sf, bit).nak) else w.l.settledErrors,
             settledSent := if ends then w.l.sent else w.l.settledSent)
      else w.l;
    World(Judge(p, w.s, sf, bit), l)
  }

  ghost function RxW(p: Params, w: World, subframe: nat, fb: Feedback, m: nat): (r: World)
    requires Ok(p, w) && subframe < 10 && WellFormed(fb) && m <= AckCount(p.duplex, subframe)
    ensures Ok(p, r) && r.s == JudgeFirst(p, w.s, subframe, fb, m)
  {
    if m == 0 then w
    else
      AckedSubframeInFrame(p.duplex, subframe, m - 1);
      JudgeW(p, RxW(p, w, subframe, fb, m - 1), AckedSubframe(p.duplex, subframe, m - 1),
             Verdict(p, w.s.subframeTx, subframe, fb, m - 1))
  }

  ghost function TxW(p: Params, w: World, sf: nat, g: Grant): (r: World)
    requires Ok(p, w) && sf < 10 && (g.Grant? ==> g.pid < PROCESSES)
    ensures Ok(p, r)
  {
    var l :=
      if g.Grant? && w.s.procs[g.pid].round == 0 then
        w.l.(inFlight := w.l.inFlight[g.pid := g.tbs],
             started := w.l.started[g.pid := w.l.started[g.pid] + 1],
             replaced := w.l.replaced[g.pid := w.l.replaced[g.pid] + if w.s.procs[g.pid].status == Active then 1 else 0],
             verdicts := w.l.verdicts[g.pid := []],
             cleared := w.l.cleared[g.pid := false])
      else w.l;
    World(Transmitted(p, w.s, sf, g), l.(sent := if g.Grant? then w.l.sent + 1 else w.l.sent))
  }

  ghost function SrW(p: Params, w: World): (r: World)
    requires Ok(p, w)
    ensures Ok(p, r)
  {
    World(FirstSr(p, w.s),
          if w.s.procs[0].status == Active then
            w.l.(dropped := Bump(w.l.dropped, 0, w.s.procs[0].round), cleared := w.l.cleared[0 := true])
          else w.l)
  }

  ghost function Next(p: Params, w: World, e: Event): (r: World)
    requires Ok(p, w) && EventOk(e)
    ensures Ok(p, r)
  {
    match e
    case Tx(sf, g) => TxW(p, w, sf, g)
    case Rx(subframe, fb) => RxW(p, w, subframe, fb, AckCount(p.duplex, subframe))
    case Sr => SrW(p, w)
  }

  ghost function After(p: Params, w: World, es: seq<Event>): (r: World)
    requires Ok(p, w) && forall e :: e in es ==> EventOk(e)
    ensures Ok(p, r)
    decreases |es|
  {
    if es == [] then w else After(p, Next(p, w, es[0]), es[1..])
  }

  // ----- The balance

  function Sum(xs: seq<nat>): nat {
    if xs == [] then 0 else Sum(xs[..|xs| - 1]) + xs[|xs| - 1]
  }

  /** The counters of one process. */
  datatype Row = Row(ack: seq<nat>, nak: seq<nat>, l2: nat, pr: Proc)

  ghost function RowOf(s: HarqState, i: nat): Row
    requires i < |s.procs| && i < |s.ack| && i < |s.nak| && i < |s.l2Errors|
  {
    Row(s.ack[i], s.nak[i], s.l2Errors[i], s.procs[i])
  }

  ghost function InRound(pr: Proc, r: nat): nat {
    if pr.status == Active && pr.round == r then 1 else 0
  }

  ghost predicate RowBalanced(mlimit: nat, row: Row, started: nat, replaced: nat, dropped: seq<nat>) {
    && 0 < mlimit == |row.ack| == |row.nak| == |dropped|
    && started == row.ack[0] + row.nak[0] + dropped[0] + replaced + InRound(row.pr, 0)
    && (forall r :: 0 < r < mlimit ==> row.nak[r - 1] == row.ack[r] + row.nak[r] + dropped[r] + InRound(row.pr, r))
    && row.l2 == row.nak[mlimit - 1]
  }

  ghost predicate BalancedAt(p: Params, w: World, i: nat)
    requires Ok(p, w) && i < PROCESSES
  {
    && RowBalanced(p.mlimit, RowOf(w.s, i), w.l.started[i], w.l.replaced[i], w.l.dropped[i])
    && (w.s.procs[i].status == Active ==> w.l.inFlight[i] == w.s.procs[i].tbs)
  }

  ghost predicate Balanced(p: Params, w: World)
    requires Ok(p, w)
  {
    && (forall i :: 0 <= i < PROCESSES ==> BalancedAt(p, w, i))
    && w.s.totalTbs == Sum(w.l.acked)
  }

  lemma StartBalanced(p: Params)
    requires 1 <= p.mlimit <= 8
    ensures Balanced(p, Start(p))
  {
  }

  ghost function RowJudged(mlimit: nat, row: Row, bit: nat): Row
    requires row.pr.round < |row.ack| == |row.nak|
  {
    var r := row.pr.round;
    if bit != 0 then Row(row.ack[r := row.ack[r] + 1], row.nak, row.l2, row.pr.(status := Inactive, round := 0))
    else if r + 1 == mlimit then
      Row(row.ack, row.nak[r := row.nak[r] + 1], row.l2 + 1, row.pr.(status := Inactive, round := 0))
    else Row(row.ack, row.nak[r := row.nak[r] + 1], row.l2, row.pr.(round := r + 1))
  }

  /** A verdict changes the counters of the process it reaches and of no other. */
  lemma JudgeRow(p: Params, s: HarqState, sf: nat, bit: nat, i: nat)
    requires Valid(p, s) && sf < 10 && i < PROCESSES
    ensures RowOf(Judge(p, s, sf, bit), i)
         == if Reaches(s, sf) && s.harqIds[sf] == i then RowJudged(p.mlimit, RowOf(s, i), bit) else RowOf(s, i)
  {
  }

  lemma RowJudgedBalanced(mlimit: nat, row: Row, bit: nat, started: nat, replaced: nat, dropped: seq<nat>)
    requires RowBalanced(mlimit, row, started, replaced, dropped) && row.pr.status == Active && row.pr.round < mlimit
    ensures RowBalanced(mlimit, RowJudged(mlimit, row, bit), started, replaced, dropped)
  {
  }

  lemma JudgeBalancedAt(p: Params, w: World, sf: nat, bit: nat, i: nat)
    requires Ok(p, w) && i < PROCESSES && BalancedAt(p, w, i) && sf < 10
    ensures BalancedAt(p, JudgeW(p, w, sf, bit), i)
  {
    JudgeRow(p, w.s, sf, bit, i);
    if Reaches(w.s, sf) && w.s.harqIds[sf] == i {
      RowJudgedBalanced(p.mlimit, RowOf(w.s, i), bit, w.l.started[i], w.l.replaced[i], w.l.dropped[i]);
    }
    assert JudgeW(p, w, sf, bit).s.procs[i] == RowOf(JudgeW(p, w, sf, bit).s, i).pr;
  }

  lemma JudgeBalanced(p: Params, w: World, sf: nat, bit: nat)
    requires Ok(p, w) && Balanced(p, w) && sf < 10
    ensures Balanced(p, JudgeW(p, w, sf, bit))
  {
    var w' := JudgeW(p, w, sf, bit);
    forall i | 0 <= i < PROCESSES
      ensures BalancedAt(p, w', i)
    {
      JudgeBalancedAt(p, w, sf, bit, i);
    }
    if Reaches(w.s, sf) {
      assert BalancedAt(p, w, w.s.harqIds[sf]);
      if bit != 0 {
        assert w'.l.acked[..|w.l.acked|] == w.l.acked;
      }
    }
  }

  lemma {:induction false} RxBalanced(p: Params, w: World, subframe: nat, fb: Feedback, m: nat)
    requires Ok(p, w) && Balanced(p, w) && subframe < 10 && WellFormed(fb) && m <= AckCount(p.duplex, subframe)
    ensures Balanced(p, RxW(p, w, subframe, fb, m))
    decreases m
  {
    if m > 0 {
      RxBalanced(p, w, subframe, fb, m - 1);
      AckedSubframeInFrame(p.duplex, subframe, m - 1);
      JudgeBalanced(p, RxW(p, w, subframe, fb, m - 1), AckedSubframe(p.duplex, subframe, m - 1),
                    Verdict(p, w.s.subframeTx, subframe, fb, m - 1));
    }
  }

  lemma TxBalancedAt(p: Params, w: World, sf: nat, g: Grant, i: nat)
    requires Ok(p, w) && i < PROCESSES && BalancedAt(p, w, i) && EventOk(Tx(sf, g))
    ensures BalancedAt(p, TxW(p, w, sf, g), i)
  {
  }

  lemma SrBalancedAt(p: Params, w: World, i: nat)
    requires Ok(p, w) && i < PROCESSES && BalancedAt(p, w, i)
    ensures BalancedAt(p, SrW(p, w), i)
  {
  }

  lemma NextBalanced(p: Params, w: World, e: Event)
    requires Ok(p, w) && Balanced(p, w) && EventOk(e)
    ensures Balanced(p, Next(p, w, e))
  {
    match e {
      case Rx(subframe, fb) => RxBalanced(p, w, subframe, fb, AckCount(p.duplex, subframe));
      case Tx(sf, g) =>
        forall i | 0 <= i < PROCESSES
          ensures BalancedAt(p, Next(p, w, e), i)
        {
          TxBalancedAt(p, w, sf, g, i);
        }
      case Sr =>
        forall i | 0 <= i < PROCESSES
          ensures BalancedAt(p, Next(p, w, e), i)
        {
          SrBalancedAt(p, w, i);
        }
    }
  }

  /** Conservation in every run: what is rejected in one round is acknowledged, rejected, dropped or still
      in flight in the next; errors reported to layer 2 are the rejections of the last round; the byte
      total is the sum of the sizes with which the acknowledged blocks were started. */
  lemma {:induction false} RunsBalance(p: Params, w: World, es: seq<Event>)
    requires Ok(p, w) && Balanced(p, w) && forall e :: e in es ==> EventOk(e)
    ensures Balanced(p, After(p, w, es))
    decreases |es|
  {
    if es != [] {
      NextBalanced(p, w, es[0]);
      RunsBalance(p, Next(p, w, es[0]), es[1..]);
    }
  }

  lemma SumTake(xs: seq<nat>, r: nat)
    requires r < |xs|
    ensures Sum(xs[..r + 1]) == Sum(xs[..r]) + xs[r]
  {
    assert xs[..r + 1][..r] == xs[..r];
  }

  lemma TakeAll(xs: seq<nat>)
    ensures xs[..|xs|] == xs
  {
  }

  /** The rejections of round `r` are what was started, less what left the process up to then. */
  lemma {:induction false} RejectionsAccounted(mlimit: nat, row: Row, started: nat, replaced: nat, dropped: seq<nat>, r: nat)
    requires RowBalanced(mlimit, row, started, replaced, dropped) && r < mlimit
    ensures row.nak[r] + Sum(row.ack[..r + 1]) + Sum(dropped[..r + 1]) + replaced
            + (if row.pr.status == Active && row.pr.round <= r then 1 else 0) == started
    decreases r
  {
    SumTake(row.ack, r);
    SumTake(dropped, r);
    if r > 0 {
      RejectionsAccounted(mlimit, row, started, replaced, dropped, r - 1);
    }
  }

  lemma RowAccounted(mlimit: nat, row: Row, started: nat, replaced: nat, dropped: seq<nat>)
    requires RowBalanced(mlimit, row, started, replaced, dropped) && row.pr.round < mlimit
    ensures started == Sum(row.ack) + row.l2 + Sum(dropped) + replaced + (if row.pr.status == Active then 1 else 0)
  {
    RejectionsAccounted(mlimit, row, started, replaced, dropped, mlimit - 1);
    TakeAll(row.ack);
    TakeAll(dropped);
  }

  /** No block is lost: from a fresh start, in every run, each process has started exactly the blocks that
      were acknowledged, reported in error, dropped by the first scheduling request, replaced in round 0,
      or that it still holds; and it holds at most one, with a round below the limit. */
  lemma EveryBlockAccounted(p: Params, es: seq<Event>, i: nat)
    requires 1 <= p.mlimit <= 8 && (forall e :: e in es ==> EventOk(e)) && i < PROCESSES
    ensures var w := After(p, Start(p), es);
      && w.l.started[i] == Sum(w.s.ack[i]) + w.s.l2Errors[i] + Sum(w.l.dropped[i]) + w.l.replaced[i]
                           + (if w.s.procs[i].status == Active then 1 else 0)
      && w.s.procs[i].round < p.mlimit
  {
    StartBalanced(p);
    RunsBalance(p, Start(p), es);
    var w := After(p, Start(p), es);
    assert BalancedAt(p, w, i);
    RowAccounted(p.mlimit, RowOf(w.s, i), w.l.started[i], w.l.replaced[i], w.l.dropped[i]);
  }

  // ----- Every block leaves its process

  ghost predicate AllZero(bits: seq<nat>) {
    forall k :: 0 <= k < |bits| ==> bits[k] == 0
  }

  /** The process holds its latest block exactly while every verdict on it was negative, rounds are left and
      it was not dropped; it is then in the round that counts the verdicts. */
  ghost predicate HistoryOf(mlimit: nat, pr: Proc, started: nat, bits: seq<nat>, cleared: bool) {
    && (pr.status == Active <==> started > 0 && !cleared && AllZero(bits) && |bits| < mlimit)
    && (pr.status == Active ==> pr.round == |bits|)
    && |bits| <= mlimit
    && (bits != [] ==> AllZero(bits[..|bits| - 1]))
  }

  ghost predicate HistoryAt(p: Params, w: World, i: nat)
    requires Ok(p, w) && i < PROCESSES
  {
    HistoryOf(p.mlimit, w.s.procs[i], w.l.started[i], w.l.verdicts[i], w.l.cleared[i])
  }

  lemma RowJudgedHistory(mlimit: nat, row: Row, bit: nat, started: nat, bits: seq<nat>, cleared: bool)
    requires row.pr.round < mlimit == |row.ack| == |row.nak|
    requires row.pr.status == Active && HistoryOf(mlimit, row.pr, started, bits, cleared)
    ensures HistoryOf(mlimit, RowJudged(mlimit, row, bit).pr, started, bits + [bit], cleared)
  {
    var bits' := bits + [bit];
    assert bits'[..|bits'| - 1] == bits;
    assert AllZero(bits') <==> bit == 0 by {
      assert bits'[|bits|] == bit;
    }
  }

  lemma JudgeHistory(p: Params, w: World, sf: nat, bit: nat, i: nat)
    requires Ok(p, w) && i < PROCESSES && HistoryAt(p, w, i) && sf < 10
    ensures HistoryAt(p, JudgeW(p, w, sf, bit), i)
  {
    JudgeRow(p, w.s, sf, bit, i);
    assert JudgeW(p, w, sf, bit).s.procs[i] == RowOf(Judge(p, w.s, sf, bit), i).pr;
    if Reaches(w.s, sf) && w.s.harqIds[sf] == i {
      RowJudgedHistory(p.mlimit, RowOf(w.s, i), bit, w.l.started[i], w.l.verdicts[i], w.l.cleared[i]);
    }
  }

  lemma {:induction false} RxHistory(p: Params, w: World, subframe: nat, fb: Feedback, m: nat, i: nat)
    requires Ok(p, w) && i < PROCESSES && HistoryAt(p, w, i)
    requires subframe < 10 && WellFormed(fb) && m <= AckCount(p.duplex, subframe)
    ensures HistoryAt(p, RxW(p, w, subframe, fb, m), i)
    decreases m
  {
    if m > 0 {
      RxHistory(p, w, subframe, fb, m - 1, i);
      AckedSubframeInFrame(p.duplex, subframe, m - 1);
      JudgeHistory(p, RxW(p, w, subframe, fb, m - 1), AckedSubframe(p.duplex, subframe, m - 1),
                   Verdict(p, w.s.subframeTx, subframe, fb, m - 1), i);
    }
  }

  lemma TxHistory(p: Params, w: World, sf: nat, g: Grant, i: nat)
    requires Ok(p, w) && i < PROCESSES && HistoryAt(p, w, i) && EventOk(Tx(sf, g))
    ensures HistoryAt(p, TxW(p, w, sf, g), i)
  {
    if g.Grant? && g.pid == i && w.s.procs[i].round == 0 {
      assert TxW(p, w, sf, g).l.verdicts[i] == [];
    }
  }

  lemma NextHistory(p: Params, w: World, e: Event, i: nat)
    requires Ok(p, w) && i < PROCESSES && HistoryAt(p, w, i) && EventOk(e)
    ensures HistoryAt(p, Next(p, w, e), i)
  {
    match e {
      case Rx(subframe, fb) => RxHistory(p, w, subframe, fb, AckCount(p.duplex, subframe), i);
      case Tx(sf, g) => TxHistory(p, w, sf, g, i);
      case Sr =>
    }
  }

  lemma {:induction false} RunsKeepHistory(p: Params, w: World, es: seq<Event>, i: nat)
    requires Ok(p, w) && i < PROCESSES && HistoryAt(p, w, i) && forall e :: e in es ==> EventOk(e)
    ensures HistoryAt(p, After(p, w, es), i)
    decreases |es|
  {
    if es != [] {
      NextHistory(p, w, es[0], i);
      RunsKeepHistory(p, Next(p, w, es[0]), es[1..], i);
    }
  }

  /** Every block leaves its process within `mlimit` verdicts, in every run: the process is active exactly while
      it has a block, not dropped, whose verdicts so far are fewer than `mlimit` and all negative; their number is
      the round. No verdict follows a positive one or the `mlimit`-th. */
  lemma StaysActiveIff(p: Params, es: seq<Event>, i: nat)
    requires 1 <= p.mlimit <= 8 && (forall e :: e in es ==> EventOk(e)) && i < PROCESSES
    ensures var w := After(p, Start(p), es);
      var pr, bits := w.s.procs[i], w.l.verdicts[i];
      && (pr.status == Active <==> w.l.started[i] > 0 && !w.l.cleared[i] && AllZero(bits) && |bits| < p.mlimit)
      && (pr.status == Active ==> pr.round == |bits|)
      && |bits| <= p.mlimit
      && (bits != [] ==> AllZero(bits[..|bits| - 1]))
  {
    assert HistoryAt(p, Start(p), i);
    RunsKeepHistory(p, Start(p), es, i);
  }

  // ----- Runs whose feedback never acknowledges

  /** No request, and PUCCH feedback that is neither a single bit nor a count sent with a request. */
  ghost predicate Silent(e: Event) {
    !e.Sr? && (e.Rx? ==> !e.fb.pusch && e.fb.sel != 2 && !e.fb.sr)
  }

  ghost predicate AllSilent(es: seq<Event>) {
    forall e :: e in es ==> EventOk(e) && Silent(e)
  }

  ghost predicate NothingCredited(s: HarqState) {
    s.totalTbs == 0 && forall i :: 0 <= i < |s.ack| ==> AllZero(s.ack[i])
  }

  lemma JudgeNothing(p: Params, s: HarqState, sf: nat)
    requires Valid(p, s) && sf < 10 && NothingCredited(s)
    ensures NothingCredited(Judge(p, s, sf, 0))
  {
  }

  lemma {:induction false} SilentJudgesNothing(p: Params, s: HarqState, subframe: nat, fb: Feedback, m: nat)
    requires Valid(p, s) && NothingCredited(s) && EventOk(Rx(subframe, fb)) && Silent(Rx(subframe, fb))
    requires m <= AckCount(p.duplex, subframe)
    ensures NothingCredited(JudgeFirst(p, s, subframe, fb, m))
    decreases m
  {
    if m > 0 {
      SilentJudgesNothing(p, s, subframe, fb, m - 1);
      AckedSubframeInFrame(p.duplex, subframe, m - 1);
      HarqLink.MultiplexedPucchNeverAcknowledges(p, s.subframeTx, subframe, fb, m - 1);
      JudgeNothing(p, JudgeFirst(p, s, subframe, fb, m - 1), AckedSubframe(p.duplex, subframe, m - 1));
    }
  }

  lemma {:induction false} RxDropsNothing(p: Params, w: World, subframe: nat, fb: Feedback, m: nat)
    requires Ok(p, w) && EventOk(Rx(subframe, fb)) && m <= AckCount(p.duplex, subframe)
    ensures RxW(p, w, subframe, fb, m).l.dropped == w.l.dropped
    decreases m
  {
    if m > 0 {
      RxDropsNothing(p, w, subframe, fb, m - 1);
    }
  }

  lemma SilentStep(p: Params, w: World, e: Event)
    requires Ok(p, w) && EventOk(e) && Silent(e) && NothingCredited(w.s)
    ensures NothingCredited(Next(p, w, e).s) && Next(p, w, e).l.dropped == w.l.dropped
  {
    if e.Rx? {
      SilentJudgesNothing(p, w.s, e.subframe, e.fb, AckCount(p.duplex, e.subframe));
      RxDropsNothing(p, w, e.subframe, e.fb, AckCount(p.duplex, e.subframe));
    }
  }

  lemma {:induction false} SilentRunsCreditNothing(p: Params, w: World, es: seq<Event>)
    requires Ok(p, w) && NothingCredited(w.s) && AllSilent(es)
    ensures NothingCredited(After(p, w, es).s) && After(p, w, es).l.dropped == w.l.dropped
    decreases |es|
  {
    if es != [] {
      SilentStep(p, w, es[0]);
      SilentRunsCreditNothing(p, Next(p, w, es[0]), es[1..]);
    }
  }

  lemma {:induction false} SumOfZeros(xs: seq<nat>)
    requires AllZero(xs)
    ensures Sum(xs) == 0
    decreases |xs|
  {
    if xs != [] {
      SumOfZeros(xs[..|xs| - 1]);
    }
  }

  /** With such feedback no run ever credits a block: every one that is started and not replaced ends in an error
      reported to layer 2, or is still being repeated. */
  lemma SilentRunsOnlyFail(p: Params, es: seq<Event>, i: nat)
    requires 1 <= p.mlimit <= 8 && AllSilent(es) && i < PROCESSES
    ensures var w := After(p, Start(p), es);
      && NothingCredited(w.s)
      && w.l.started[i] == w.s.l2Errors[i] + w.l.replaced[i] + (if w.s.procs[i].status == Active then 1 else 0)
  {
    SilentRunsCreditNothing(p, Start(p), es);
    EveryBlockAccounted(p, es, i);
    SumOfZeros(After(p, Start(p), es).s.ack[i]);
    SumOfZeros(After(p, Start(p), es).l.dropped[i]);
  }

  // ----- Rate adaptation

  lemma {:induction false} FirstErrorsBump(nak: seq<seq<nat>>, i: nat, r: nat)
    requires i < |nak| && r < |nak[i]|
    ensures FirstErrors(Bump(nak, i, r)) == FirstErrors(nak) + if r == 0 then 1 else 0
    decreases |nak|
  {
    var n := |nak| - 1;
    if i == n {
      assert Bump(nak, i, r)[..n] == nak[..n];
    } else {
      assert Bump(nak, i, r)[..n] == Bump(nak[..n], i, r);
      FirstErrorsBump(nak[..n], i, r);
    }
  }

  lemma {:induction false} FirstErrorsZero(nak: seq<seq<nat>>)
    requires forall i :: 0 <= i < |nak| ==> AllZero(nak[i])
    ensures FirstErrors(nak) == 0
    decreases |nak|
  {
    if nak != [] {
      FirstErrorsZero(nak[..|nak| - 1]);
    }
  }

  /** The counters of the rate adaptation are about the open window. */
  ghost predicate WindowCounted(w: World) {
    && FirstErrors(w.s.nak) == w.l.settledErrors + w.s.nakRound0
    && w.l.sent == w.l.settledSent + w.s.slidingCnt
  }

  lemma JudgeWindow(p: Params, w: World, sf: nat, bit: nat)
    requires Ok(p, w) && sf < 10 && WindowCounted(w)
    ensures WindowCounted(JudgeW(p, w, sf, bit))
  {
    if Reaches(w.s, sf) {
      var pid := w.s.harqIds[sf];
      FirstErrorsBump(w.s.nak, pid, w.s.procs[pid].round);
    }
  }

  lemma {:induction false} RxWindow(p: Params, w: World, subframe: nat, fb: Feedback, m: nat)
    requires Ok(p, w) && WindowCounted(w) && EventOk(Rx(subframe, fb)) && m <= AckCount(p.duplex, subframe)
    ensures WindowCounted(RxW(p, w, subframe, fb, m))
    decreases m
  {
    if m > 0 {
      RxWindow(p, w, subframe, fb, m - 1);
      AckedSubframeInFrame(p.duplex, subframe, m - 1);
      JudgeWindow(p, RxW(p, w, subframe, fb, m - 1), AckedSubframe(p.duplex, subframe, m - 1),
                  Verdict(p, w.s.subframeTx, subframe, fb, m - 1));
    }
  }

  lemma NextWindow(p: Params, w: World, e: Event)
    requires Ok(p, w) && WindowCounted(w) && EventOk(e)
    ensures WindowCounted(Next(p, w, e))
  {
    match e {
      case Rx(subframe, fb) => RxWindow(p, w, subframe, fb, AckCount(p.duplex, subframe));
      case Tx(sf, g) =>
      case Sr =>
    }
  }

  lemma {:induction false} RunsKeepWindow(p: Params, w: World, es: seq<Event>)
    requires Ok(p, w) && WindowCounted(w) && forall e :: e in es ==> EventOk(e)
    ensures WindowCounted(After(p, w, es))
    decreases |es|
  {
    if es != [] {
      NextWindow(p, w, es[0]);
      RunsKeepWindow(p, Next(p, w, es[0]), es[1..]);
    }
  }

  /** What the rate adaptation looks at, in every run: `nakRound0` are the rejections in round 0, of all processes and
      of no other round, since a window was last closed, and the sliding counter the transmissions since then. */
  lemma WindowCounts(p: Params, es: seq<Event>)
    requires 1 <= p.mlimit <= 8 && forall e :: e in es ==> EventOk(e)
    ensures var w := After(p, Start(p), es);
      && FirstErrors(w.s.nak) == w.l.settledErrors + w.s.nakRound0
      && w.l.sent == w.l.settledSent + w.s.slidingCnt
  {
    FirstErrorsZero(Start(p).s.nak);
    RunsKeepWindow(p, Start(p), es);
  }

  lemma JudgeOffset(p: Params, s: HarqState, sf: nat, bit: nat)
    requires Valid(p, s) && sf < 10 && -1 <= s.mcsOffset <= 1
    ensures var s' := Judge(p, s, sf, bit);
      && -1 <= s'.mcsOffset <= 1
      && (s.slidingCnt > p.raWindow ==> s'.slidingCnt == s.slidingCnt && s'.mcsOffset <= s.mcsOffset)
  {
  }

  lemma {:induction false} JudgesOffset(p: Params, s: HarqState, subframe: nat, fb: Feedback, m: nat)
    requires Valid(p, s) && -1 <= s.mcsOffset <= 1 && EventOk(Rx(subframe, fb)) && m <= AckCount(p.duplex, subframe)
    ensures var s' := JudgeFirst(p, s, subframe, fb, m);
      && -1 <= s'.mcsOffset <= 1
      && (s.slidingCnt > p.raWindow ==> s'.slidingCnt == s.slidingCnt && s'.mcsOffset <= s.mcsOffset)
    decreases m
  {
    if m > 0 {
      JudgesOffset(p, s, subframe, fb, m - 1);
      AckedSubframeInFrame(p.duplex, subframe, m - 1);
      JudgeOffset(p, JudgeFirst(p, s, subframe, fb, m - 1), AckedSubframe(p.duplex, subframe, m - 1),
                  Verdict(p, s.subframeTx, subframe, fb, m - 1));
    }
  }

  /** Nothing moves the offset before the first window ends, as long as the errors stay within the threshold. */
  ghost predicate Neutral(p: Params, w: World) {
    && WindowCounted(w)
    && (w.l.sent < p.raWindow && FirstErrors(w.s.nak) <= p.errorThreshold ==> w.s.mcsOffset == 0)
  }

  lemma JudgeNeutral(p: Params, w: World, sf: nat, bit: nat)
    requires Ok(p, w) && sf < 10 && Neutral(p, w)
    ensures Neutral(p, JudgeW(p, w, sf, bit))
  {
    JudgeWindow(p, w, sf, bit);
    if Reaches(w.s, sf) {
      var pid := w.s.harqIds[sf];
      FirstErrorsBump(w.s.nak, pid, w.s.procs[pid].round);
    }
  }

  lemma {:induction false} RxNeutral(p: Params, w: World, subframe: nat, fb: Feedback, m: nat)
    requires Ok(p, w) && Neutral(p, w) && EventOk(Rx(subframe, fb)) && m <= AckCount(p.duplex, subframe)
    ensures Neutral(p, RxW(p, w, subframe, fb, m))
    decreases m
  {
    if m > 0 {
      RxNeutral(p, w, subframe, fb, m - 1);
      AckedSubframeInFrame(p.duplex, subframe, m - 1);
      JudgeNeutral(p, RxW(p, w, subframe, fb, m - 1), AckedSubframe(p.duplex, subframe, m - 1),
                   Verdict(p, w.s.subframeTx, subframe, fb, m - 1));
    }
  }

  lemma NextNeutral(p: Params, w: World, e: Event)
    requires Ok(p, w) && Neutral(p, w) && EventOk(e)
    ensures Neutral(p, Next(p, w, e))
  {
    match e {
      case Rx(subframe, fb) => RxNeutral(p, w, subframe, fb, AckCount(p.duplex, subframe));
      case Tx(sf, g) =>
      case Sr =>
    }
  }

  lemma {:induction false} RunsStayNeutral(p: Params, w: World, es: seq<Event>)
    requires Ok(p, w) && Neutral(p, w) && forall e :: e in es ==> EventOk(e)
    ensures Neutral(p, After(p, w, es))
    decreases |es|
  {
    if es != [] {
      NextNeutral(p, w, es[0]);
      RunsStayNeutral(p, Next(p, w, es[0]), es[1..]);
    }
  }

  /** The offset starts at 0, and stays there until the first window is full or the errors exceed the threshold. */
  lemma OffsetStaysNeutral(p: Params, es: seq<Event>)
    requires 1 <= p.mlimit <= 8 && forall e :: e in es ==> EventOk(e)
    ensures var w := After(p, Start(p), es);
      w.l.sent < p.raWindow && FirstErrors(w.s.nak) <= p.errorThreshold ==> w.s.mcsOffset == 0
  {
    FirstErrorsZero(Start(p).s.nak);
    RunsStayNeutral(p, Start(p), es);
  }

  /** The offset stays in -1, 0, 1 in every run. The window is compared for equality only: once the count of
      transmissions has passed it, the window is not closed again and the offset can only fall. */
  lemma {:induction false} RunsAdapt(p: Params, w: World, es: seq<Event>)
    requires Ok(p, w) && -1 <= w.s.mcsOffset <= 1 && forall e :: e in es ==> EventOk(e)
    ensures var s := After(p, w, es).s;
      && -1 <= s.mcsOffset <= 1
      && (w.s.slidingCnt > p.raWindow ==> s.slidingCnt >= w.s.slidingCnt && s.mcsOffset <= w.s.mcsOffset)
    decreases |es|
  {
    if es != [] {
      if es[0].Rx? {
        JudgesOffset(p, w.s, es[0].subframe, es[0].fb, AckCount(p.duplex, es[0].subframe));
      }
      RunsAdapt(p, Next(p, w, es[0]), es[1..]);
    }
  }
}
