/** Whole runs of downlink HARQ. Tick `t` is: the terminal takes in downlink subframe `t - 4` and answers in
    uplink subframe `t`; the base station handles reception of `t` and then transmission of `t + 4`. Frames
    are counted modulo 1024. A run is a sequence of worlds driven by an arbitrary environment. */
module HarqRun {
  import opened LteTiming
  import opened Harq
  import opened UeFeedback
  import opened HarqLink

  datatype Outcome = Missed | Failed | Decoded

  /** What the scheduler grants and on which control channel element, what the terminal makes of it, requests and
      channel, what a payload buffer holds, and, in FDD, whether PUSCH carries a feedback bit (the terminal's
      `O_ACK`). */
  datatype Env = Env(grant: nat -> Grant, cce: nat -> nat, outcome: nat -> Outcome, sr: nat -> bool,
                     pusch: nat -> bool, carried: nat -> bool, stale: nat -> nat)

  ghost predicate EnvOk(env: Env) {
    && (forall u: nat :: env.grant(u).Grant? ==> env.grant(u).pid < PROCESSES)
    && (forall u: nat :: env.stale(u) <= 1)
  }

  datatype World = World(enb: HarqState, ue: seq<UeAck>)

  ghost predicate WorldOk(p: Params, w: World) {
    Valid(p, w.enb) && UeTable(w.ue)
  }

  /** A transmission was made in absolute subframe `u`; the first one the base station makes is subframe 4. */
  ghost predicate Granted(p: Params, env: Env, u: int) {
    u >= 4 && DownlinkAt(p.duplex, Subframe(u)) && env.grant(u).Grant?
  }

  ghost predicate Seen(p: Params, env: Env, u: int) {
    Granted(p, env, u) && env.outcome(u) != Missed
  }

  ghost predicate GotAt(p: Params, env: Env, u: int) {
    Seen(p, env, u) && env.outcome(u) == Decoded
  }

  /** The terminal's outcome for the latest transmission it saw in the same subframe of `u`'s frame or an earlier one. */
  ghost predicate AckBit(p: Params, env: Env, u: int)
    decreases if u < 0 then 0 else u + 1
  {
    u >= 0 && if Seen(p, env, u) then env.outcome(u) == Decoded else AckBit(p, env, u - 10)
  }

  /** What the terminal's payload buffer still holds when uplink subframe `t` is prepared, or what the base station
      makes of a PUSCH without feedback bit. */
  function Stale(env: Env, t: nat): seq<nat> {
    [env.stale(2 * t), env.stale(2 * t + 1)]
  }

  /** The terminal's reception of downlink subframe `u`. */
  ghost function UeReceive(p: Params, env: Env, ue: seq<UeAck>, u: int): (r: seq<UeAck>)
    requires UeTable(ue)
    ensures UeTable(r)
  {
    if u < 0 || !DownlinkAt(p.duplex, Subframe(u)) then ue
    else if Seen(p, env, u) then ue[Subframe(u) := UeAck(true, if env.outcome(u) == Decoded then 1 else 0)]
    else ue[Subframe(u) := ue[Subframe(u)].(send := false)]
  }

  /** The distance between a downlink subframe and the uplink subframe that acknowledges it. */
  function Distance(d: Duplex, subframe: nat, m: nat): nat
    requires subframe < 10 && m < AckCount(d, subframe)
  {
    AckedSubframeInFrame(d, subframe, m);
    var gap := (subframe - AckedSubframe(d, subframe, m)) % 10;
    if gap < 4 then gap + 10 else gap
  }

  /** Bundled feedback goes to the resource of the grant of `t - 7`, but the base station, whose record is already
      that of `t + 3`, listens on another. */
  ghost predicate Elsewhere(p: Params, env: Env, tx: seq<bool>, t: nat)
    requires |tx| == 10 && Supported(p.duplex, Subframe(t))
  {
    && p.bundling && !env.sr(t) && t >= 7 && env.cce(t - 7) != env.cce(t + 3)
    && Distance(p.duplex, Subframe(t), 0) == 7 && !(p.duplex == Tdd(3) && tx[6])
  }

  /** The feedback that uplink subframe `t` carries. */
  ghost function Answer(p: Params, env: Env, tx: seq<bool>, ue: seq<UeAck>, t: nat): (fb: Feedback)
    requires UeTable(ue) && |tx| == 10 && EnvOk(env) && Supported(p.duplex, Subframe(t))
    ensures WellFormed(fb)
  {
    if env.pusch(t) then
      if p.duplex.Fdd? && !env.carried(t) then Feedback(true, Stale(env, t), [0, 0], 0, false)
      else OverPusch(p, ue, Subframe(t), Stale(env, t))
    else
      var fb := OverPucch(p, ue, tx, Subframe(t), Stale(env, t), env.sr(t));
      if Elsewhere(p, env, tx, t) then fb.(payload := [0, 0]) else fb
  }

  /** Feedback processing at reception of `t`. */
  ghost function EnbJudge(p: Params, env: Env, w: World, t: nat): (r: HarqState)
    requires WorldOk(p, w) && EnvOk(env)
    ensures Valid(p, r) && r.subframeTx == w.enb.subframeTx
  {
    if Supported(p.duplex, Subframe(t)) then
      Received(p, w.enb, Subframe(t), Answer(p, env, w.enb.subframeTx, w.ue, t))
    else w.enb
  }

  /** A scheduling request arrives on PUCCH in subframe `t`. */
  ghost predicate RequestAt(p: Params, env: Env, t: nat) {
    env.sr(t) && !env.pusch(t) && UplinkAt(p.duplex, Subframe(t))
  }

  /** The first one clears process 0. */
  ghost predicate ResetAt(p: Params, env: Env, t: nat) {
    RequestAt(p, env, t) && forall s: nat :: s < t ==> !RequestAt(p, env, s)
  }

  ghost function EnbReceive(p: Params, env: Env, w: World, t: nat): (r: HarqState)
    requires WorldOk(p, w) && EnvOk(env)
    ensures Valid(p, r) && r.subframeTx == w.enb.subframeTx
  {
    var s := EnbJudge(p, env, w, t);
    if ResetAt(p, env, t) then FirstSr(p, s) else s
  }

  ghost function EnbTransmit(p: Params, env: Env, s: HarqState, u: nat): (r: HarqState)
    requires Valid(p, s) && EnvOk(env)
    ensures Valid(p, r)
  {
    if DownlinkAt(p.duplex, Subframe(u)) then Transmitted(p, s, Subframe(u), env.grant(u)) else s
  }

  /** The world in which the base station handles reception of subframe `t`: the terminal has taken in `t - 4`. */
  ghost function Heard(p: Params, env: Env, w: World, t: nat): (h: World)
    requires WorldOk(p, w)
    ensures WorldOk(p, h)
  {
    World(w.enb, UeReceive(p, env, w.ue, t - 4))
  }

  ghost function Tick(p: Params, env: Env, w: World, t: nat): (w': World)
    requires WorldOk(p, w) && EnvOk(env)
    ensures WorldOk(p, w')
  {
    var h := Heard(p, env, w, t);
    World(EnbTransmit(p, env, EnbReceive(p, env, h, t), t + 4), h.ue)
  }

  ghost function Start(p: Params): (w: World)
    requires 1 <= p.mlimit <= 8
    ensures WorldOk(p, w)
  {
    World(Fresh(p), seq(10, _ => UeAck(false, 0)))
  }

  ghost predicate StepAt(p: Params, env: Env, st: nat -> World, t: nat)
    requires EnvOk(env)
  {
    WorldOk(p, st(t)) && st(t + 1) == Tick(p, env, st(t), t)
  }

  /** `st(t)` is the world at the beginning of tick `t`. */
  ghost predicate IsRun(p: Params, env: Env, st: nat -> World) {
    && 1 <= p.mlimit <= 8 && EnvOk(env)
    && st(0) == Start(p)
    && (forall t: nat :: WorldOk(p, st(t)))
    && (forall t: nat :: StepAt(p, env, st, t))
  }

  ghost function Reached(p: Params, env: Env, t: nat): (w: World)
    requires 1 <= p.mlimit <= 8 && EnvOk(env)
    ensures WorldOk(p, w)
  {
    if t == 0 then Start(p) else Tick(p, env, Reached(p, env, t - 1), t - 1)
  }

  /** Every environment has its run. */
  lemma RunExists(p: Params, env: Env) returns (st: nat -> World)
    requires 1 <= p.mlimit <= 8 && EnvOk(env)
    ensures IsRun(p, env, st)
  {
    st := (t: nat) => Reached(p, env, t);
    forall t: nat
      ensures StepAt(p, env, st, t)
    {
      assert Reached(p, env, t + 1) == Tick(p, env, Reached(p, env, t), t);
    }
  }

  ghost function AtReception(p: Params, env: Env, st: nat -> World, t: nat): (w: World)
    requires IsRun(p, env, st)
    ensures WorldOk(p, w)
  {
    Heard(p, env, st(t), t)
  }

  // ----- Which transmission a table entry stands for

  /** The latest absolute subframe not after `bound` that falls on subframe `k`. */
  function Latest(bound: int, k: nat): int {
    bound - (bound - k) % 10
  }

  lemma LatestStep(bound: int, k: nat)
    requires k < 10
    ensures Latest(bound + 1, k) == if (bound + 1) % 10 == k then bound + 1 else Latest(bound, k)
    ensures Latest(bound, k) % 10 == k
  {
    var r := (bound - k) % 10;
    assert Latest(bound, k) == k + 10 * ((bound - k) / 10);
  }

  /** What one tick does to the base station's record of grants. */
  lemma TxRecord(p: Params, env: Env, st: nat -> World, t: nat)
    requires IsRun(p, env, st)
    ensures var tx := st(t).enb.subframeTx;
      st(t + 1).enb.subframeTx
      == if DownlinkAt(p.duplex, Subframe(t + 4)) then tx[Subframe(t + 4) := env.grant(t + 4).Grant?] else tx
  {
    assert StepAt(p, env, st, t);
  }

  lemma TxStep(p: Params, env: Env, st: nat -> World, t: nat, k: nat)
    requires IsRun(p, env, st) && k < 10
    requires st(t).enb.subframeTx[k] <==> Granted(p, env, Latest(t + 3, k))
    ensures st(t + 1).enb.subframeTx[k] <==> Granted(p, env, Latest(t + 4, k))
  {
    TxRecord(p, env, st, t);
    LatestStep(t + 3, k);
  }

  /** Entry `k` of the base station's table is about the latest subframe up to `t + 3`. */
  lemma {:induction false} TxTracksTime(p: Params, env: Env, st: nat -> World, t: nat, k: nat)
    requires IsRun(p, env, st) && k < 10
    ensures st(t).enb.subframeTx[k] <==> Granted(p, env, Latest(t + 3, k))
  {
    if t == 0 {
      assert !Granted(p, env, Latest(3, k));
    } else {
      TxTracksTime(p, env, st, t - 1, k);
      TxStep(p, env, st, t - 1, k);
    }
  }

  /** The entry is about absolute subframe `u`; where nothing was seen in `u`, its bit is still the last one. */
  ghost predicate EntryFor(p: Params, env: Env, a: UeAck, u: int) {
    && (a.send <==> Seen(p, env, u))
    && (a.ack == 1 <==> AckBit(p, env, u))
  }

  /** The terminal takes in the next subframe of entry `k`, or another one. */
  lemma UeEntryWritten(p: Params, env: Env, ue: seq<UeAck>, u: int, k: nat)
    requires UeTable(ue) && k < 10 && k == u % 10 && EntryFor(p, env, ue[k], u - 10)
    ensures EntryFor(p, env, UeReceive(p, env, ue, u)[k], u)
  {
  }

  lemma UeEntryKept(p: Params, env: Env, ue: seq<UeAck>, u: int, k: nat)
    requires UeTable(ue) && k < 10 && k != u % 10
    ensures UeReceive(p, env, ue, u)[k] == ue[k]
  {
  }

  lemma UeEntryStep(p: Params, env: Env, ue: seq<UeAck>, u: int, k: nat)
    requires UeTable(ue) && k < 10 && EntryFor(p, env, ue[k], Latest(u - 1, k))
    ensures EntryFor(p, env, UeReceive(p, env, ue, u)[k], Latest(u, k))
  {
    LatestStep(u - 1, k);
    if u % 10 == k {
      LatestUnique(u - 1, k, u - 10);
      UeEntryWritten(p, env, ue, u, k);
    } else {
      UeEntryKept(p, env, ue, u, k);
    }
  }

  /** The terminal's entry `k` is about the latest subframe up to `t - 5`. */
  lemma {:induction false} UeTracksTime(p: Params, env: Env, st: nat -> World, t: nat, k: nat)
    requires IsRun(p, env, st) && k < 10
    ensures EntryFor(p, env, st(t).ue[k], Latest(t - 5, k))
  {
    if t > 0 {
      UeTracksTime(p, env, st, t - 1, k);
      UeEntryStep(p, env, st(t - 1).ue, t - 5, k);
      assert StepAt(p, env, st, t - 1);
    }
  }

  /** At reception of `t` the terminal has taken in `t - 4`. */
  lemma TablesAtReception(p: Params, env: Env, st: nat -> World, t: nat, k: nat)
    requires IsRun(p, env, st) && k < 10
    ensures AtReception(p, env, st, t).enb.subframeTx[k] <==> Granted(p, env, Latest(t + 3, k))
    ensures EntryFor(p, env, AtReception(p, env, st, t).ue[k], Latest(t - 4, k))
  {
    TxTracksTime(p, env, st, t, k);
    UeTracksTime(p, env, st, t, k);
    UeEntryStep(p, env, st(t).ue, t - 4, k);
  }

  lemma DistanceTable(d: Duplex, subframe: nat, m: nat)
    requires subframe < 10 && m < AckCount(d, subframe)
    ensures var k, g := AckedSubframe(d, subframe, m), Distance(d, subframe, m);
      k < 10 && 4 <= g <= 7 && (subframe == k + g || subframe == k + g - 10)
    ensures Distance(d, subframe, m) == 7 <==>
      m == 0 && ((d == Tdd(3) && subframe == 2) || (d == Tdd(1) && subframe in {2, 7}))
  {
  }

  /** The downlink association sets of table 10.1-1 in TS 36.213, in order. The distance 11 that the table also lists
      for configuration 3 is that of a special subframe. */
  function AssociationSet(d: Duplex, subframe: nat): seq<nat> {
    match d
    case Fdd => [4]
    case Tdd(config) =>
      if config == 3 then
        if subframe == 2 then [7, 6] else if subframe == 3 then [6, 5] else if subframe == 4 then [5, 4] else []
      else if config == 1 then
        if subframe in {2, 7} then [7, 6] else if subframe in {3, 8} then [4] else []
      else []
  }

  /** The code acknowledges exactly those, in that order. */
  lemma AcknowledgesAssociationSet(d: Duplex, subframe: nat)
    requires subframe < 10
    ensures |AssociationSet(d, subframe)| == AckCount(d, subframe)
    ensures forall m :: 0 <= m < AckCount(d, subframe) ==>
      && Distance(d, subframe, m) == AssociationSet(d, subframe)[m]
      && AckedSubframe(d, subframe, m) == (subframe - AssociationSet(d, subframe)[m]) % 10
  {
  }

  /** At reception the terminal's entry is always about the acknowledged transmission. The base station's is
      exactly when the distance is at most 6: at distance 7 the entry is already about the next frame's
      transmission, which is not yet on the air. */
  lemma EntryMatchesIff(d: Duplex, t: nat, m: nat)
    requires m < AckCount(d, Subframe(t))
    ensures var k, g := AckedSubframe(d, Subframe(t), m), Distance(d, Subframe(t), m);
      && k < 10
      && Latest(t - 4, k) == t - g
      && Latest(t + 3, k) == if g <= 6 then t - g else t - g + 10
  {
    DistanceTable(d, Subframe(t), m);
    LatestAt(t, AckedSubframe(d, Subframe(t), m), Distance(d, Subframe(t), m));
  }

  lemma LatestAt(t: nat, k: nat, g: nat)
    requires k < 10 && 4 <= g <= 7 && (t % 10 == k + g || t % 10 == k + g - 10)
    ensures Latest(t - 4, k) == t - g
    ensures Latest(t + 3, k) == if g <= 6 then t - g else t - g + 10
  {
    assert t == 10 * (t / 10) + t % 10;
    LatestUnique(t - 4, k, t - g);
    LatestUnique(t + 3, k, if g <= 6 then t - g else t - g + 10);
  }

  lemma LatestUnique(bound: int, k: nat, u: int)
    requires k < 10 && u <= bound < u + 10 && u % 10 == k
    ensures Latest(bound, k) == u
  {
    var c := u / 10;
    assert u == 10 * c + k;
    assert bound - k == 10 * c + (bound - u);
    assert (bound - k) % 10 == bound - u;
  }

  // ----- The records

  ghost predicate Answers(d: Duplex, subframe: nat, k: nat) {
    exists m :: 0 <= m < AckCount(d, subframe) && AckedSubframe(d, subframe, m) == k
  }

  /** A downlink subframe is acknowledged in one uplink subframe, and once. */
  lemma AnsweredOnce(d: Duplex, a: nat, m: nat, b: nat, n: nat)
    requires a < 10 && b < 10 && m < AckCount(d, a) && n < AckCount(d, b)
    requires AckedSubframe(d, a, m) == AckedSubframe(d, b, n)
    ensures a == b && m == n
  {
  }

  function Settle(mlimit: nat, pr: Proc, ok: bool): Proc {
    if pr.status != Active then pr
    else if ok || pr.round + 1 == mlimit then pr.(status := Inactive, round := 0)
    else pr.(round := pr.round + 1)
  }

  lemma JudgeSettles(p: Params, s: HarqState, k: nat, bit: nat)
    requires Valid(p, s) && k < 10
    ensures var s' := Judge(p, s, k, bit);
      && (s.subframeTx[k] && s.harqIds[k] < PROCESSES ==>
            s'.procs == s.procs[s.harqIds[k] := Settle(p.mlimit, s.procs[s.harqIds[k]], bit != 0)])
      && (!s.subframeTx[k] ==> s' == s)
      && (forall j :: 0 <= j < 10 && j != k ==> s'.harqIds[j] == s.harqIds[j])
  {
  }

  lemma {:induction false} JudgingKeepsRecord(p: Params, s: HarqState, subframe: nat, fb: Feedback, m: nat, k: nat)
    requires Valid(p, s) && subframe < 10 && WellFormed(fb) && m <= AckCount(p.duplex, subframe) && k < 10
    requires forall j :: 0 <= j < m ==> AckedSubframe(p.duplex, subframe, j) != k
    ensures JudgeFirst(p, s, subframe, fb, m).harqIds[k] == s.harqIds[k]
    decreases m
  {
    if m > 0 {
      JudgingKeepsRecord(p, s, subframe, fb, m - 1, k);
      AckedSubframeInFrame(p.duplex, subframe, m - 1);
      JudgeSettles(p, JudgeFirst(p, s, subframe, fb, m - 1), AckedSubframe(p.duplex, subframe, m - 1),
                   Verdict(p, s.subframeTx, subframe, fb, m - 1));
    }
  }

  lemma OwnRecordKept(p: Params, s: HarqState, subframe: nat, fb: Feedback, m: nat)
    requires Valid(p, s) && subframe < 10 && WellFormed(fb) && m < AckCount(p.duplex, subframe)
    ensures var k := AckedSubframe(p.duplex, subframe, m);
      k < 10 && JudgeFirst(p, s, subframe, fb, m).harqIds[k] == s.harqIds[k]
  {
    var k := AckedSubframe(p.duplex, subframe, m);
    AckedSubframeInFrame(p.duplex, subframe, m);
    forall n | 0 <= n < m
      ensures AckedSubframe(p.duplex, subframe, n) != k
    {
      if AckedSubframe(p.duplex, subframe, n) == k {
        AnsweredOnce(p.duplex, subframe, n, subframe, m);
      }
    }
    JudgingKeepsRecord(p, s, subframe, fb, m, k);
  }

  lemma TickKeepsRecord(p: Params, env: Env, st: nat -> World, t: nat, k: nat)
    requires IsRun(p, env, st) && k < 10 && k != Subframe(t + 4) && !Answers(p.duplex, Subframe(t), k)
    ensures st(t + 1).enb.harqIds[k] == st(t).enb.harqIds[k]
  {
    var w := AtReception(p, env, st, t);
    assert StepAt(p, env, st, t);
    if Supported(p.duplex, Subframe(t)) {
      JudgingKeepsRecord(p, w.enb, Subframe(t), Answer(p, env, w.enb.subframeTx, w.ue, t), AckCount(p.duplex, Subframe(t)), k);
    }
  }

  lemma TickRecords(p: Params, env: Env, st: nat -> World, t: nat)
    requires IsRun(p, env, st) && Granted(p, env, t + 4)
    ensures st(t + 1).enb.harqIds[(t + 4) % 10] == env.grant(t + 4).pid
  {
    assert StepAt(p, env, st, t);
  }

  lemma NotAnsweredBefore(d: Duplex, a: nat, v: nat, k: nat)
    requires v < a < v + 10 && Answers(d, Subframe(a), k)
    ensures !Answers(d, Subframe(v), k)
  {
    if Answers(d, Subframe(v), k) {
      var m :| 0 <= m < AckCount(d, Subframe(a)) && AckedSubframe(d, Subframe(a), m) == k;
      var n :| 0 <= n < AckCount(d, Subframe(v)) && AckedSubframe(d, Subframe(v), n) == k;
      AnsweredOnce(d, Subframe(a), m, Subframe(v), n);
    }
  }

  lemma OtherEntry(v: nat, u: nat)
    requires u < v < u + 10
    ensures v % 10 != u % 10
  {
    var q, r := u / 10, u % 10;
    assert u == 10 * q + r;
    assert v == 10 * q + r + (v - u);
  }

  lemma RecordStep(p: Params, env: Env, st: nat -> World, t: nat, u: nat, a: nat)
    requires IsRun(p, env, st) && u - 3 <= t < a <= u + 6 && Answers(p.duplex, Subframe(a), u % 10)
    ensures st(t + 1).enb.harqIds[u % 10] == st(t).enb.harqIds[u % 10]
  {
    OtherEntry(t + 4, u);
    NotAnsweredBefore(p.duplex, a, t, u % 10);
    TickKeepsRecord(p, env, st, t, u % 10);
  }

  /** The record of a transmission stands until the next uplink subframe `a` that acknowledges its entry. */
  lemma {:induction false} RecordKept(p: Params, env: Env, st: nat -> World, t: nat, u: nat, a: nat)
    requires IsRun(p, env, st) && Granted(p, env, u)
    requires u - 3 <= t <= a <= u + 6 && Answers(p.duplex, Subframe(a), u % 10)
    ensures st(t).enb.harqIds[u % 10] == env.grant(u).pid
    decreases t
  {
    if t == u - 3 {
      TickRecords(p, env, st, t - 1);
    } else {
      RecordKept(p, env, st, t - 1, u, a);
      RecordStep(p, env, st, t - 1, u, a);
    }
  }

  /** When a table entry is judged, the process on record is the one of the transmission that the entry stands for. */
  lemma RecordAtReception(p: Params, env: Env, st: nat -> World, t: nat, m: nat)
    requires IsRun(p, env, st) && m < AckCount(p.duplex, Subframe(t))
    ensures var k := AckedSubframe(p.duplex, Subframe(t), m);
      k < 10 && (Granted(p, env, Latest(t + 3, k)) ==> st(t).enb.harqIds[k] == env.grant(Latest(t + 3, k)).pid)
  {
    var k := AckedSubframe(p.duplex, Subframe(t), m);
    EntryMatchesIff(p.duplex, t, m);
    DistanceTable(p.duplex, Subframe(t), m);
    LatestStep(t + 3, k);
    if Granted(p, env, Latest(t + 3, k)) {
      RecordKept(p, env, st, t, Latest(t + 3, k), t);
    }
  }

  // ----- FDD: a stop-and-wait sender per process

  /** The scheduler is synchronous: subframe `u` uses process `(10 * frame + subframe) % 8`. */
  ghost predicate Synchronous(env: Env) {
    forall u: nat :: env.grant(u).Grant? ==> env.grant(u).pid == DlHarqPid(Frame(u), Subframe(u))
  }

  /** What reception of `u + 4` concludes about the transmission of `u`: on PUCCH the terminal's outcome; on PUSCH the
      terminal's table bit, which after a missed grant is an earlier one, if a bit is carried at all; otherwise
      whatever is read where nothing was sent. */
  ghost predicate Believed(p: Params, env: Env, u: int)
    requires u >= -4
  {
    if !env.pusch(u + 4) then GotAt(p, env, u)
    else if env.carried(u + 4) then AckBit(p, env, u)
    else Stale(env, u + 4)[0] == 1
  }

  /** PUSCH in `u + 4` misleads about the transmission of `u`: it carries an earlier bit, the grant being missed, or
      carries none and is read as the opposite of the outcome. */
  ghost predicate Misled(p: Params, env: Env, u: nat) {
    && env.pusch(u + 4)
    && if env.carried(u + 4) then !Seen(p, env, u) && AckBit(p, env, u - 10)
       else Stale(env, u + 4)[0] == 1 <==> !GotAt(p, env, u)
  }

  /** The exact condition for settling a transmission by its own outcome. */
  lemma BelievedIffOutcome(p: Params, env: Env, u: nat)
    requires Granted(p, env, u)
    ensures (Believed(p, env, u) <==> GotAt(p, env, u)) <==> !Misled(p, env, u)
  {
  }

  /** `O_ACK` as an uplink grant sets it: by the downlink four subframes before the grant, eight before PUSCH. */
  ghost predicate CarriedByGrant(p: Params, env: Env, t: nat) {
    env.carried(t) <==> Seen(p, env, t - 8)
  }

  /** So on a freshly granted PUSCH a transmission is settled by its own outcome exactly unless the terminal missed it
      with an earlier acknowledgement in its table, having seen the one four subframes before; or had not seen
      that one, and the base station reads the opposite of the outcome. */
  lemma FreshPuschIffOutcome(p: Params, env: Env, u: nat)
    requires Granted(p, env, u) && env.pusch(u + 4) && CarriedByGrant(p, env, u + 4)
    ensures (Believed(p, env, u) <==> GotAt(p, env, u)) <==>
      if Seen(p, env, u - 4) then Seen(p, env, u) || !AckBit(p, env, u - 10)
      else Stale(env, u + 4)[0] == 1 <==> GotAt(p, env, u)
  {
    BelievedIffOutcome(p, env, u);
  }

  ghost function Beliefs(p: Params, env: Env): nat -> bool {
    (u: nat) => Believed(p, env, u)
  }

  ghost function Outcomes(p: Params, env: Env): nat -> bool {
    u => GotAt(p, env, u)
  }

  function SendOn(pr: Proc, g: Grant): Proc {
    if g.Grant? && pr.round == 0 then Proc(Active, 0, g.tbs) else pr
  }

  function Reset(pr: Proc): Proc {
    pr.(status := Inactive, round := 0)
  }

  /** The reset of process 0 falls into a tick from `a` up to but not including `b`. */
  ghost predicate ResetIn(p: Params, env: Env, a: int, b: int) {
    exists t: nat :: a <= t < b && ResetAt(p, env, t)
  }

  /** The reference: before each of its transmission opportunities `u`, a process has settled the previous
      one, `u - 8`, by what `says` tells of that very transmission. Process 0 was moreover cleared if the
      first scheduling request came in between. */
  ghost function Reference(p: Params, env: Env, says: nat -> bool, u: nat): Proc
    decreases u
  {
    if u < 12 then Proc(Inactive, 0, 0)
    else
      var sent := SendOn(Reference(p, env, says, u - 8), env.grant(u - 8));
      var settled := if env.grant(u - 8).Grant? then Settle(p.mlimit, sent, says(u - 8)) else sent;
      if u % 8 == 0 && ResetIn(p, env, u - 11, u - 3) then Reset(settled) else settled
  }

  lemma {:induction false} ReferenceDepends(p: Params, env: Env, says: nat -> bool, tells: nat -> bool, u: nat)
    requires p.duplex.Fdd?
    requires forall v: nat :: Granted(p, env, v) ==> says(v) == tells(v)
    ensures Reference(p, env, says, u) == Reference(p, env, tells, u)
    decreases u
  {
    if u >= 12 {
      ReferenceDepends(p, env, says, tells, u - 8);
      assert env.grant(u - 8).Grant? ==> Granted(p, env, u - 8);
    }
  }

  /** The latest opportunity of process `i` up to `bound`. */
  function Opportunity(bound: int, i: nat): int {
    bound - (bound - i) % 8
  }

  lemma OpportunityStep(bound: int, i: nat)
    requires i < 8
    ensures Opportunity(bound + 1, i) == if (bound + 1) % 8 == i then bound + 1 else Opportunity(bound, i)
    ensures Opportunity(bound, i) % 8 == i && bound - 8 < Opportunity(bound, i) <= bound
  {
    assert Opportunity(bound, i) == i + 8 * ((bound - i) / 8);
  }

  lemma OpportunityIs(bound: int, u: int)
    requires u <= bound < u + 8
    ensures Opportunity(bound, u % 8) == u
  {
    var c := u / 8;
    assert u == 8 * c + u % 8;
    assert bound - u % 8 == 8 * c + (bound - u);
  }

  /** Process `i` as the base station should hold it at the beginning of tick `t`. */
  ghost function Expected(p: Params, env: Env, says: nat -> bool, t: nat, i: nat): Proc
    requires i < 8
  {
    ExpectedSince(p, env, says, t, i, Opportunity(t + 3, i))
  }

  /** The same, if `u` is its latest opportunity. */
  ghost function ExpectedSince(p: Params, env: Env, says: nat -> bool, t: nat, i: nat, u: int): Proc {
    var sent := if u < 4 then Proc(Inactive, 0, 0) else SendOn(Reference(p, env, says, u), env.grant(u));
    if i == 0 && ResetIn(p, env, u - 3, t) then Reset(sent) else sent
  }

  /** In FDD one reception is one verdict, on the subframe four earlier. */
  lemma FddReceivesOne(p: Params, s: HarqState, subframe: nat, fb: Feedback)
    requires p.duplex.Fdd? && Valid(p, s) && subframe < 10 && WellFormed(fb)
    ensures Received(p, s, subframe, fb)
         == Judge(p, s, AckedSubframe(Fdd, subframe, 0), Verdict(p, s.subframeTx, subframe, fb, 0))
  {
    assert JudgeFirst(p, s, subframe, fb, 0) == s;
  }

  lemma FddPucchVerdict(p: Params, env: Env, t: nat, w: World)
    requires Tracks(p, env, t, w) && EnvOk(env) && p.duplex.Fdd? && !env.pusch(t)
    ensures Reads(p, env, t, w, 0) <==> GotAt(p, env, t - 4)
  {
    DistanceTable(p.duplex, Subframe(t), 0);
    RecordsLastIff(p.duplex, Subframe(t));
    TrackedConsistent(p, env, t, w);
    Entries(p, env, t, w, 0);
    FddPucchExact(p, w.ue, w.enb.subframeTx, Subframe(t), Stale(env, t), env.sr(t));
  }

  lemma FddPuschVerdict(p: Params, env: Env, t: nat, w: World)
    requires Tracks(p, env, t, w) && EnvOk(env) && p.duplex.Fdd? && env.pusch(t)
    ensures Reads(p, env, t, w, 0) <==> if env.carried(t) then AckBit(p, env, t - 4) else Stale(env, t)[0] == 1
  {
    var k := AckedSubframe(p.duplex, Subframe(t), 0);
    DistanceTable(p.duplex, Subframe(t), 0);
    EntryMatchesIff(p.duplex, t, 0);
    assert EntryFor(p, env, w.ue[k], Latest(t - 4, k));
  }

  lemma FddSentIff(p: Params, env: Env, t: nat, w: World)
    requires Tracks(p, env, t, w) && p.duplex.Fdd?
    ensures Sent(Fdd, w.enb.subframeTx, Subframe(t), 0) <==> Granted(p, env, t - 4)
  {
    DistanceTable(p.duplex, Subframe(t), 0);
    Entries(p, env, t, w, 0);
  }

  /** The cases of `Believed`. */
  lemma BelievedBy(p: Params, env: Env, t: nat, bit: bool)
    requires env.pusch(t) ==> (bit <==> if env.carried(t) then AckBit(p, env, t - 4) else Stale(env, t)[0] == 1)
    requires !env.pusch(t) ==> (bit <==> GotAt(p, env, t - 4))
    ensures bit <==> Believed(p, env, t - 4)
  {
  }

  lemma TrackedFddVerdict(p: Params, env: Env, t: nat, w: World)
    requires Tracks(p, env, t, w) && EnvOk(env) && p.duplex.Fdd?
    ensures Reads(p, env, t, w, 0) <==> Believed(p, env, t - 4)
  {
    if env.pusch(t) {
      FddPuschVerdict(p, env, t, w);
    } else {
      FddPucchVerdict(p, env, t, w);
    }
    BelievedBy(p, env, t, Reads(p, env, t, w, 0));
  }

  /** In FDD the verdict at reception of `t` is on the transmission of `t - 4`. */
  lemma FddVerdict(p: Params, env: Env, st: nat -> World, t: nat)
    requires IsRun(p, env, st) && p.duplex.Fdd?
    ensures var w := AtReception(p, env, st, t);
      && (Sent(Fdd, w.enb.subframeTx, Subframe(t), 0) <==> Granted(p, env, t - 4))
      && (Reads(p, env, t, w, 0) <==> Believed(p, env, t - 4))
  {
    ReceptionTracks(p, env, st, t);
    FddSentIff(p, env, t, AtReception(p, env, st, t));
    TrackedFddVerdict(p, env, t, AtReception(p, env, st, t));
  }

  lemma FourEarlier(t: nat)
    ensures AckedSubframe(Fdd, Subframe(t), 0) == (t - 4) % 10
  {
  }

  /** Reception of `t` settles the transmission of `t - 4`, and touches nothing else of the processes. */
  lemma FddReceptionSettles(p: Params, env: Env, st: nat -> World, t: nat)
    requires IsRun(p, env, st) && p.duplex.Fdd?
    ensures var s, s', k := st(t).enb, EnbJudge(p, env, AtReception(p, env, st, t), t), (t - 4) % 10;
      && (Granted(p, env, t - 4) && s.harqIds[k] < PROCESSES ==>
          s'.procs == s.procs[s.harqIds[k] := Settle(p.mlimit, s.procs[s.harqIds[k]], Believed(p, env, t - 4))])
      && (!Granted(p, env, t - 4) ==> s' == s)
      && (forall j :: 0 <= j < 10 && j != k ==> s'.harqIds[j] == s.harqIds[j])
  {
    var w := AtReception(p, env, st, t);
    var fb := Answer(p, env, w.enb.subframeTx, w.ue, t);
    var bit := Verdict(p, w.enb.subframeTx, Subframe(t), fb, 0);
    FourEarlier(t);
    FddVerdict(p, env, st, t);
    FddReceivesOne(p, w.enb, Subframe(t), fb);
    JudgeSettles(p, w.enb, (t - 4) % 10, bit);
    assert bit <= 1;
  }

  /** What transmission of `u` does to the processes. */
  lemma FddTransmits(p: Params, env: Env, s: HarqState, u: nat)
    requires p.duplex.Fdd? && Valid(p, s) && EnvOk(env) && Synchronous(env)
    ensures EnbTransmit(p, env, s, u).procs == s.procs[u % 8 := SendOn(s.procs[u % 8], env.grant(u))]
  {
    HarqPidFollowsTime(u);
  }

  /** Process `i` after the verdict, the reset and the transmission of tick `t`. */
  ghost function Stepped(p: Params, env: Env, t: nat, i: nat, pr: Proc): Proc {
    var mine := i == (t - 4) % 8;
    var settled := if mine && Granted(p, env, t - 4) then Settle(p.mlimit, pr, Believed(p, env, t - 4)) else pr;
    var cleared := if i == 0 && ResetAt(p, env, t) then Reset(settled) else settled;
    if mine then SendOn(cleared, env.grant(t + 4)) else cleared
  }

  lemma ProcessesStep(p: Params, env: Env, t: nat, i: nat,
                      procs: seq<Proc>, judged: seq<Proc>, received: seq<Proc>, sent: seq<Proc>)
    requires |procs| == 8 && i < 8
    requires judged == if Granted(p, env, t - 4)
                       then procs[(t - 4) % 8 := Settle(p.mlimit, procs[(t - 4) % 8], Believed(p, env, t - 4))] else procs
    requires received == if ResetAt(p, env, t) then judged[0 := Reset(judged[0])] else judged
    requires sent == received[(t + 4) % 8 := SendOn(received[(t + 4) % 8], env.grant(t + 4))]
    ensures sent[i] == Stepped(p, env, t, i, procs[i])
  {
    EightApart(t);
  }

  lemma FddJudged(p: Params, env: Env, st: nat -> World, t: nat)
    requires IsRun(p, env, st) && p.duplex.Fdd?
    requires Granted(p, env, t - 4) ==> st(t).enb.harqIds[(t - 4) % 10] == (t - 4) % 8
    ensures var procs, i := st(t).enb.procs, (t - 4) % 8;
      EnbJudge(p, env, AtReception(p, env, st, t), t).procs
      == if Granted(p, env, t - 4) then procs[i := Settle(p.mlimit, procs[i], Believed(p, env, t - 4))] else procs
  {
    FddReceptionSettles(p, env, st, t);
  }

  lemma ReceivedResets(p: Params, env: Env, w: World, t: nat)
    requires WorldOk(p, w) && EnvOk(env)
    ensures var judged := EnbJudge(p, env, w, t).procs;
      EnbReceive(p, env, w, t).procs == if ResetAt(p, env, t) then judged[0 := Reset(judged[0])] else judged
  {
  }

  lemma FddSent(p: Params, env: Env, st: nat -> World, t: nat)
    requires IsRun(p, env, st) && p.duplex.Fdd? && Synchronous(env)
    ensures var received, i := EnbReceive(p, env, AtReception(p, env, st, t), t).procs, (t + 4) % 8;
      st(t + 1).enb.procs == received[i := SendOn(received[i], env.grant(t + 4))]
  {
    assert StepAt(p, env, st, t);
    FddTransmits(p, env, EnbReceive(p, env, AtReception(p, env, st, t), t), t + 4);
  }

  /** One tick on the processes. */
  lemma FddTickProcesses(p: Params, env: Env, st: nat -> World, t: nat, i: nat)
    requires IsRun(p, env, st) && p.duplex.Fdd? && Synchronous(env) && i < PROCESSES
    requires Granted(p, env, t - 4) ==> st(t).enb.harqIds[(t - 4) % 10] == (t - 4) % 8
    ensures st(t + 1).enb.procs[i] == Stepped(p, env, t, i, st(t).enb.procs[i])
  {
    var w := AtReception(p, env, st, t);
    var judged, received := EnbJudge(p, env, w, t), EnbReceive(p, env, w, t);
    FddJudged(p, env, st, t);
    ReceivedResets(p, env, w, t);
    FddSent(p, env, st, t);
    ProcessesStep(p, env, t, i, st(t).enb.procs, judged.procs, received.procs, st(t + 1).enb.procs);
  }

  /** Every granted transmission not yet settled is still on record under its own process. */
  lemma FddRecordsKept(p: Params, env: Env, st: nat -> World, t: nat, u: nat)
    requires IsRun(p, env, st) && p.duplex.Fdd? && Synchronous(env)
    requires t - 4 <= u <= t + 3 && Granted(p, env, u)
    ensures st(t).enb.harqIds[u % 10] == u % 8
  {
    FourEarlier(u + 4);
    RecordKept(p, env, st, t, u, u + 4);
    HarqPidFollowsTime(u);
  }

  lemma ResetInGrows(p: Params, env: Env, a: int, t: nat)
    ensures ResetIn(p, env, a, t + 1) <==> ResetIn(p, env, a, t) || (a <= t && ResetAt(p, env, t))
  {
  }

  lemma SameOpportunityStep(p: Params, env: Env, t: nat, i: nat, u: int)
    requires i != (t - 4) % 8 && u - 3 <= t
    ensures ExpectedSince(p, env, Beliefs(p, env), t + 1, i, u)
         == Stepped(p, env, t, i, ExpectedSince(p, env, Beliefs(p, env), t, i, u))
  {
    ResetInGrows(p, env, u - 3, t);
  }

  lemma EightApart(t: nat)
    ensures (t + 4) % 8 == (t - 4) % 8
  {
    var q, r := (t - 4) / 8, (t - 4) % 8;
    assert t + 4 == 8 * (q + 1) + r;
  }

  lemma OtherStep(p: Params, env: Env, t: nat, i: nat)
    requires i < 8 && i != (t - 4) % 8
    ensures Expected(p, env, Beliefs(p, env), t + 1, i) == Stepped(p, env, t, i, Expected(p, env, Beliefs(p, env), t, i))
  {
    OpportunityStep(t + 3, i);
    EightApart(t);
    SameOpportunityStep(p, env, t, i, Opportunity(t + 3, i));
  }

  lemma OwnStep(p: Params, env: Env, t: nat, i: nat)
    requires p.duplex.Fdd? && i < 8 && i == (t - 4) % 8
    ensures Expected(p, env, Beliefs(p, env), t + 1, i) == Stepped(p, env, t, i, Expected(p, env, Beliefs(p, env), t, i))
  {
    OpportunityStep(t + 3, i);
    OpportunityIs(t + 3, t - 4);
    EightApart(t);
    ResetInGrows(p, env, t - 7, t);
    assert !ResetIn(p, env, t + 1, t + 1);
  }

  ghost predicate Agrees(p: Params, env: Env, st: nat -> World, t: nat, i: nat)
    requires IsRun(p, env, st) && i < PROCESSES
  {
    st(t).enb.procs[i] == Expected(p, env, Beliefs(p, env), t, i)
  }

  lemma FddStep(p: Params, env: Env, st: nat -> World, t: nat, i: nat)
    requires IsRun(p, env, st) && p.duplex.Fdd? && Synchronous(env) && i < PROCESSES
    requires Agrees(p, env, st, t, i)
    ensures Agrees(p, env, st, t + 1, i)
  {
    if Granted(p, env, t - 4) {
      FddRecordsKept(p, env, st, t, t - 4);
    }
    FddTickProcesses(p, env, st, t, i);
    if i == (t - 4) % 8 {
      OwnStep(p, env, t, i);
    } else {
      OtherStep(p, env, t, i);
    }
  }

  lemma FddStart(p: Params, env: Env, st: nat -> World, i: nat)
    requires IsRun(p, env, st) && i < PROCESSES
    ensures Agrees(p, env, st, 0, i)
  {
    OpportunityStep(3, i);
  }

  lemma {:induction false} FddAgrees(p: Params, env: Env, st: nat -> World, t: nat, i: nat)
    requires IsRun(p, env, st) && p.duplex.Fdd? && Synchronous(env) && i < PROCESSES
    ensures Agrees(p, env, st, t, i)
    decreases t
  {
    if t == 0 {
      FddStart(p, env, st, i);
    } else {
      FddAgrees(p, env, st, t - 1, i);
      FddStep(p, env, st, t - 1, i);
    }
  }

  /** In every FDD run, whatever channel carries the answers, each process is a stop-and-wait sender: it is
      settled exactly once per transmission, by what was concluded about that transmission, and before it
      transmits again eight subframes later; only the first scheduling request interferes, with process 0.
      Process numbers follow absolute time, so this holds across the wrap of the frame number. */
  lemma FddFollowsReference(p: Params, env: Env, st: nat -> World, t: nat, i: nat)
    requires IsRun(p, env, st) && p.duplex.Fdd? && Synchronous(env) && i < PROCESSES
    ensures st(t).enb.procs[i] == Expected(p, env, Beliefs(p, env), t, i)
  {
    FddAgrees(p, env, st, t, i);
  }

  ghost predicate NeverMisled(p: Params, env: Env) {
    forall u: nat :: Granted(p, env, u) ==> !Misled(p, env, u)
  }

  /** If PUSCH never misleads, every transmission is settled by the terminal's own outcome for it. */
  lemma FddIsStopAndWait(p: Params, env: Env, st: nat -> World, t: nat, i: nat)
    requires IsRun(p, env, st) && p.duplex.Fdd? && Synchronous(env) && i < PROCESSES && NeverMisled(p, env)
    ensures st(t).enb.procs[i] == Expected(p, env, Outcomes(p, env), t, i)
  {
    FddFollowsReference(p, env, st, t, i);
    forall u: nat | Granted(p, env, u)
      ensures Beliefs(p, env)(u) == Outcomes(p, env)(u)
    {
      BelievedIffOutcome(p, env, u);
    }
    var u := Opportunity(t + 3, i);
    if u >= 4 {
      ReferenceDepends(p, env, Beliefs(p, env), Outcomes(p, env), u);
    }
  }

  /** A transmission in subframe 14 believed to be acknowledged, its process not used before. */
  lemma FreedAfter14(p: Params, env: Env, st: nat -> World)
    requires IsRun(p, env, st) && p.duplex.Fdd? && Synchronous(env)
    requires env.grant(6) == NoGrant && env.grant(14).Grant? && env.grant(22) == NoGrant && Believed(p, env, 14)
    ensures st(18).enb.procs[6].status == Active && st(19).enb.procs[6].status == Inactive
  {
    FddFollowsReference(p, env, st, 18, 6);
    FddFollowsReference(p, env, st, 19, 6);
  }

  /** Grants of 100 bits in the subframes of `on`, PUSCH everywhere, granted anew each time. */
  function PuschEnv(on: set<nat>, outcome: nat -> Outcome, carried: nat -> bool, read: nat): Env {
    Env(u => if u in on then Grant(u % 8, 100) else NoGrant, _ => 0, outcome, _ => false, _ => true, carried, _ => read)
  }

  lemma PuschEnvOk(on: set<nat>, outcome: nat -> Outcome, carried: nat -> bool, read: nat)
    requires read <= 1
    ensures EnvOk(PuschEnv(on, outcome, carried, read)) && Synchronous(PuschEnv(on, outcome, carried, read))
  {
    forall u: nat | u in on
      ensures u % 8 == DlHarqPid(Frame(u), Subframe(u))
    {
      HarqPidFollowsTime(u);
    }
  }

  /** Both cases happen on freshly granted PUSCH. The terminal decodes the block of subframe 4, sees the one of 10 and
      misses the grant of 14: its PUSCH in 18 repeats the acknowledgement, and the missed block's process is freed. */
  lemma OldAckFreesMissedBlock(p: Params) returns (env: Env, st: nat -> World)
    requires p.duplex.Fdd? && 2 <= p.mlimit <= 8
    ensures IsRun(p, env, st) && Synchronous(env) && forall t: nat :: CarriedByGrant(p, env, t)
    ensures Granted(p, env, 14) && !Seen(p, env, 14) && env.carried(18) && Misled(p, env, 14)
    ensures st(18).enb.procs[6].status == Active && st(19).enb.procs[6].status == Inactive
  {
    var outcome := (u: nat) => if u == 14 then Missed else Decoded;
    env := PuschEnv({4, 10, 14}, outcome, (t: nat) => t == 12 || t == 18, 0);
    PuschEnvOk({4, 10, 14}, outcome, (t: nat) => t == 12 || t == 18, 0);
    st := RunExists(p, env);
    assert AckBit(p, env, 4) && !Seen(p, env, 14);
    assert Believed(p, env, 14);
    FreedAfter14(p, env, st);
  }

  /** A lone grant in 14, seen and not decoded. Nothing was granted in 10, so PUSCH in 18 carries no bit; the base
      station may read an acknowledgement and free the block, though the terminal missed nothing. */
  lemma UnsentBitFreesFailedBlock(p: Params) returns (env: Env, st: nat -> World)
    requires p.duplex.Fdd? && 2 <= p.mlimit <= 8
    ensures IsRun(p, env, st) && Synchronous(env) && forall t: nat :: CarriedByGrant(p, env, t)
    ensures forall u: nat :: Granted(p, env, u) ==> Seen(p, env, u)
    ensures Granted(p, env, 14) && !GotAt(p, env, 14) && Misled(p, env, 14)
    ensures st(18).enb.procs[6].status == Active && st(19).enb.procs[6].status == Inactive
  {
    var outcome := (_: nat) => Failed;
    env := PuschEnv({14}, outcome, (t: nat) => t == 22, 1);
    PuschEnvOk({14}, outcome, (t: nat) => t == 22, 1);
    st := RunExists(p, env);
    assert !env.carried(18) && Believed(p, env, 14);
    FreedAfter14(p, env, st);
  }

  // ----- Safety of every reception

  /** The tables at reception of `t`: the base station's entry `k` is about the latest subframe `k` up to `t + 3`,
      the terminal's about the latest up to `t - 4`. */
  ghost predicate Tracks(p: Params, env: Env, t: nat, w: World) {
    && WorldOk(p, w)
    && (forall k :: 0 <= k < 10 ==> (w.enb.subframeTx[k] <==> Granted(p, env, Latest(t + 3, k))))
    && (forall k :: 0 <= k < 10 ==> EntryFor(p, env, w.ue[k], Latest(t - 4, k)))
  }

  lemma ReceptionTracks(p: Params, env: Env, st: nat -> World, t: nat)
    requires IsRun(p, env, st)
    ensures Tracks(p, env, t, AtReception(p, env, st, t))
  {
    forall k | 0 <= k < 10
      ensures AtReception(p, env, st, t).enb.subframeTx[k] <==> Granted(p, env, Latest(t + 3, k))
      ensures EntryFor(p, env, AtReception(p, env, st, t).ue[k], Latest(t - 4, k))
    {
      TablesAtReception(p, env, st, t, k);
    }
  }

  /** The `m`-th entry is taken as acknowledged at reception of `t`. */
  ghost predicate Reads(p: Params, env: Env, t: nat, w: World, m: nat)
    requires WorldOk(p, w) && EnvOk(env) && Supported(p.duplex, Subframe(t)) && m < AckCount(p.duplex, Subframe(t))
  {
    Verdict(p, w.enb.subframeTx, Subframe(t), Answer(p, env, w.enb.subframeTx, w.ue, t), m) == 1
  }

  /** If the `m`-th entry is taken as acknowledged at reception of `t`, the transmission that the entry stands for
      has reached the terminal and was decoded. */
  ghost predicate SafeEntry(p: Params, env: Env, t: nat, w: World, m: nat)
    requires WorldOk(p, w) && EnvOk(env) && Supported(p.duplex, Subframe(t)) && m < AckCount(p.duplex, Subframe(t))
  {
    Sent(p.duplex, w.enb.subframeTx, Subframe(t), m) && Reads(p, env, t, w, m) ==>
    var u := Latest(t + 3, AckedSubframe(p.duplex, Subframe(t), m));
    u <= t - 4 && GotAt(p, env, u)
  }

  ghost predicate SafeAt(p: Params, env: Env, t: nat, w: World)
    requires WorldOk(p, w) && EnvOk(env) && Supported(p.duplex, Subframe(t))
  {
    forall m :: 0 <= m < AckCount(p.duplex, Subframe(t)) ==> SafeEntry(p, env, t, w, m)
  }

  lemma JudgeCredits(p: Params, s: HarqState, k: nat, bit: nat, i: nat)
    requires Valid(p, s) && k < 10 && i < PROCESSES && Judge(p, s, k, bit).ack[i] != s.ack[i]
    ensures s.subframeTx[k] && s.harqIds[k] == i && bit != 0
  {
  }

  /** Where a credit comes from: one of the verdicts reached the process on record. */
  lemma {:induction false} CreditHasVerdict(p: Params, s: HarqState, subframe: nat, fb: Feedback, m: nat, i: nat) returns (j: nat)
    requires Valid(p, s) && subframe < 10 && WellFormed(fb) && m <= AckCount(p.duplex, subframe) && i < PROCESSES
    requires JudgeFirst(p, s, subframe, fb, m).ack[i] != s.ack[i]
    ensures j < m && AckedSubframe(p.duplex, subframe, j) < 10
    ensures var k := AckedSubframe(p.duplex, subframe, j);
      s.subframeTx[k] && s.harqIds[k] == i && Verdict(p, s.subframeTx, subframe, fb, j) != 0
    decreases m
  {
    var s' := JudgeFirst(p, s, subframe, fb, m - 1);
    if s'.ack[i] != s.ack[i] {
      j := CreditHasVerdict(p, s, subframe, fb, m - 1, i);
    } else {
      j := m - 1;
      OwnRecordKept(p, s, subframe, fb, j);
      JudgeCredits(p, s', AckedSubframe(p.duplex, subframe, j), Verdict(p, s.subframeTx, subframe, fb, j), i);
    }
  }

  /** Safety of a reception is safety of the processes: one that is credited with an acknowledgement at `t` is the
      process granted in a subframe `u` on the air, and the terminal decoded that block. */
  lemma CreditIsDeserved(p: Params, env: Env, st: nat -> World, t: nat, i: nat) returns (u: nat)
    requires IsRun(p, env, st) && Supported(p.duplex, Subframe(t)) && i < PROCESSES
    requires SafeAt(p, env, t, AtReception(p, env, st, t))
    requires EnbJudge(p, env, AtReception(p, env, st, t), t).ack[i] != st(t).enb.ack[i]
    ensures t - 6 <= u <= t - 4 && GotAt(p, env, u) && env.grant(u).pid == i
  {
    var w := AtReception(p, env, st, t);
    var fb := Answer(p, env, w.enb.subframeTx, w.ue, t);
    var m := CreditHasVerdict(p, w.enb, Subframe(t), fb, AckCount(p.duplex, Subframe(t)), i);
    var k := AckedSubframe(p.duplex, Subframe(t), m);
    LatestStep(t + 3, k);
    TablesAtReception(p, env, st, t, k);
    RecordAtReception(p, env, st, t, m);
    assert SafeEntry(p, env, t, w, m);
    u := Latest(t + 3, k);
  }

  lemma LatestInDownlink(p: Params, env: Env, bound: int, k: nat)
    requires k < 10
    ensures Granted(p, env, Latest(bound, k)) ==> DownlinkAt(p.duplex, k)
  {
    LatestStep(bound, k);
  }

  /** Entry `k` stands, at the terminal, for the transmission `g` earlier, and at the base station for the same one
      or, from distance 7 on, for the one a frame later. */
  ghost predicate EntryOn(p: Params, env: Env, t: nat, w: World, k: nat, g: nat)
    requires WorldOk(p, w) && k < 10
  {
    var u := if g <= 6 then t - g else t - g + 10;
    && Latest(t + 3, k) == u
    && (w.enb.subframeTx[k] <==> Granted(p, env, u))
    && (w.ue[k].send <==> Seen(p, env, t - g))
    && (w.ue[k].send && w.ue[k].ack == 1 <==> GotAt(p, env, t - g))
    && (w.enb.subframeTx[k] ==> DownlinkAt(p.duplex, k))
  }

  /** What the tables say about the `m`-th acknowledged subframe. */
  ghost predicate EntryAt(p: Params, env: Env, t: nat, w: World, m: nat)
    requires WorldOk(p, w) && m < AckCount(p.duplex, Subframe(t))
  {
    AckedSubframeInFrame(p.duplex, Subframe(t), m);
    EntryOn(p, env, t, w, AckedSubframe(p.duplex, Subframe(t), m), Distance(p.duplex, Subframe(t), m))
  }

  lemma Entries(p: Params, env: Env, t: nat, w: World, m: nat)
    requires Tracks(p, env, t, w) && m < AckCount(p.duplex, Subframe(t))
    ensures EntryAt(p, env, t, w, m)
  {
    var k := AckedSubframe(p.duplex, Subframe(t), m);
    EntryMatchesIff(p.duplex, t, m);
    LatestInDownlink(p, env, t + 3, k);
    EntryTracked(p, env, t, w, k, Distance(p.duplex, Subframe(t), m));
  }

  lemma EntryTracked(p: Params, env: Env, t: nat, w: World, k: nat, g: nat)
    requires WorldOk(p, w) && k < 10
    requires Latest(t - 4, k) == t - g && Latest(t + 3, k) == if g <= 6 then t - g else t - g + 10
    requires w.enb.subframeTx[k] <==> Granted(p, env, Latest(t + 3, k))
    requires EntryFor(p, env, w.ue[k], Latest(t - 4, k))
    requires Granted(p, env, Latest(t + 3, k)) ==> DownlinkAt(p.duplex, k)
    ensures EntryOn(p, env, t, w, k, g)
  {
  }

  ghost predicate RecordsLast(d: Duplex, subframe: nat)
    requires subframe < 10
  {
    forall m :: 0 <= m < AckCount(d, subframe) ==> Distance(d, subframe, m) <= 6
  }

  /** Records last until they are judged in FDD, in subframes 3 and 4 of configuration 3, and in subframes 3 and 8
      of configuration 1. */
  lemma RecordsLastIff(d: Duplex, subframe: nat)
    requires Supported(d, subframe)
    ensures RecordsLast(d, subframe) <==> d.Fdd? || subframe in {3, 4, 8}
  {
    if AckCount(d, subframe) == 2 {
      DistanceTable(d, subframe, 1);
    }
    DistanceTable(d, subframe, 0);
  }

  lemma TrackedConsistent(p: Params, env: Env, t: nat, w: World)
    requires Tracks(p, env, t, w) && RecordsLast(p.duplex, Subframe(t))
    ensures Consistent(p.duplex, w.ue, w.enb.subframeTx, Subframe(t))
  {
    forall m | 0 <= m < AckCount(p.duplex, Subframe(t))
      ensures var k := AckedSubframe(p.duplex, Subframe(t), m);
        k < 10 && (w.ue[k].send ==> w.enb.subframeTx[k]) && (w.enb.subframeTx[k] ==> DownlinkAt(p.duplex, k))
    {
      Entries(p, env, t, w, m);
    }
  }

  lemma TrackedSafeIff(p: Params, env: Env, t: nat, w: World)
    requires Tracks(p, env, t, w) && EnvOk(env) && Supported(p.duplex, Subframe(t))
    requires RecordsLast(p.duplex, Subframe(t)) && !env.pusch(t)
    ensures SafeAt(p, env, t, w) <==> !Misread(p, w.ue, w.enb.subframeTx, Subframe(t), env.sr(t))
  {
    TrackedConsistent(p, env, t, w);
    PucchSafeIff(p, w.ue, w.enb.subframeTx, Subframe(t), Stale(env, t), env.sr(t));
    forall m | 0 <= m < AckCount(p.duplex, Subframe(t))
      ensures SafeEntry(p, env, t, w, m) <==>
        (Sent(p.duplex, w.enb.subframeTx, Subframe(t), m) && Reads(p, env, t, w, m)
         ==> Got(p.duplex, w.ue, Subframe(t), m))
    {
      Entries(p, env, t, w, m);
      DistanceTable(p.duplex, Subframe(t), m);
    }
  }

  /** Where records last until they are judged, every reception on PUCCH of every run is safe exactly outside
      the misread situations: always in FDD and always with multiplexing, also when grants were missed. */
  lemma RunSafeIff(p: Params, env: Env, st: nat -> World, t: nat)
    requires IsRun(p, env, st) && Supported(p.duplex, Subframe(t))
    requires p.duplex.Fdd? || Subframe(t) in {3, 4, 8}
    requires !env.pusch(t)
    ensures var w := AtReception(p, env, st, t);
      SafeAt(p, env, t, w) <==> !Misread(p, w.ue, w.enb.subframeTx, Subframe(t), env.sr(t))
  {
    ReceptionTracks(p, env, st, t);
    RecordsLastIff(p.duplex, Subframe(t));
    TrackedSafeIff(p, env, t, AtReception(p, env, st, t));
  }

  /** The terminal saw every grant that uplink subframe `t` acknowledges. */
  ghost predicate AllSeen(p: Params, env: Env, t: nat)
    requires AckCount(p.duplex, Subframe(t)) == 2
  {
    var u0, u1 := t - Distance(p.duplex, Subframe(t), 0), t - Distance(p.duplex, Subframe(t), 1);
    (Granted(p, env, u0) ==> Seen(p, env, u0)) && (Granted(p, env, u1) ==> Seen(p, env, u1))
  }

  /** The two bits that the terminal packs for PUSCH when `u0` and `u1` are due: the outcomes of those it saw, in
      order; a bit that is not written keeps what the buffer held. */
  ghost predicate FirstBit(p: Params, env: Env, t: nat, u0: int, u1: int) {
    if Seen(p, env, u0) then GotAt(p, env, u0)
    else if Seen(p, env, u1) then GotAt(p, env, u1)
    else Stale(env, t)[0] == 1
  }

  ghost predicate SecondBit(p: Params, env: Env, t: nat, u0: int, u1: int) {
    if Seen(p, env, u0) && Seen(p, env, u1) then GotAt(p, env, u1) else Stale(env, t)[1] == 1
  }

  /** The bit read for the `m`-th entry: the second one only for the second of two grants on record. */
  ghost predicate PackedBit(p: Params, env: Env, t: nat, m: nat)
    requires AckCount(p.duplex, Subframe(t)) == 2
  {
    var u0, u1 := t - Distance(p.duplex, Subframe(t), 0), t - Distance(p.duplex, Subframe(t), 1);
    if m == 1 && Granted(p, env, u0) then SecondBit(p, env, t, u0, u1) else FirstBit(p, env, t, u0, u1)
  }

  lemma PuschReads(p: Params, env: Env, t: nat, w: World, m: nat)
    requires WorldOk(p, w) && EnvOk(env) && m < 2 && env.pusch(t)
    requires p.duplex == Tdd(3) && !p.bundling && Subframe(t) in {3, 4}
    requires EntryAt(p, env, t, w, 0) && EntryAt(p, env, t, w, 1)
    ensures Reads(p, env, t, w, m) <==> PackedBit(p, env, t, m)
  {
    DistanceTable(p.duplex, Subframe(t), 0);
    DistanceTable(p.duplex, Subframe(t), 1);
    PuschVerdictIff(p, w.ue, w.enb.subframeTx, Subframe(t), Stale(env, t), m);
  }

  lemma PuschEntry(p: Params, env: Env, t: nat, w: World, m: nat)
    requires WorldOk(p, w) && EnvOk(env) && m < 2 && env.pusch(t)
    requires p.duplex == Tdd(3) && !p.bundling && Subframe(t) in {3, 4}
    requires EntryAt(p, env, t, w, m)
    requires Reads(p, env, t, w, m) <==> PackedBit(p, env, t, m)
    ensures SafeEntry(p, env, t, w, m) <==>
      var u := t - Distance(p.duplex, Subframe(t), m);
      Granted(p, env, u) && PackedBit(p, env, t, m) ==> GotAt(p, env, u)
  {
    DistanceTable(p.duplex, Subframe(t), m);
  }

  /** Configuration 3 with multiplexing on PUSCH, subframes 3 and 4, whatever the terminal missed: each verdict is
      the packed bit that is read for it, and the reception is safe exactly when no such bit acknowledges a
      granted block that was not decoded. */
  lemma RunPuschIff(p: Params, env: Env, st: nat -> World, t: nat)
    requires IsRun(p, env, st)
    requires p.duplex == Tdd(3) && !p.bundling && Subframe(t) in {3, 4} && env.pusch(t)
    ensures var w, d := AtReception(p, env, st, t), p.duplex;
      && (forall m :: 0 <= m < 2 ==> (Reads(p, env, t, w, m) <==> PackedBit(p, env, t, m)))
      && (SafeAt(p, env, t, w) <==>
          forall m :: 0 <= m < 2 ==>
            Granted(p, env, t - Distance(d, Subframe(t), m)) && PackedBit(p, env, t, m)
            ==> GotAt(p, env, t - Distance(d, Subframe(t), m)))
  {
    var w := AtReception(p, env, st, t);
    ReceptionTracks(p, env, st, t);
    Entries(p, env, t, w, 0);
    Entries(p, env, t, w, 1);
    forall m | 0 <= m < 2
      ensures Reads(p, env, t, w, m) <==> PackedBit(p, env, t, m)
      ensures SafeEntry(p, env, t, w, m) <==>
        var u := t - Distance(p.duplex, Subframe(t), m);
        Granted(p, env, u) && PackedBit(p, env, t, m) ==> GotAt(p, env, u)
    {
      PuschReads(p, env, t, w, m);
      PuschEntry(p, env, t, w, m);
    }
  }

  lemma SeenBits(p: Params, env: Env, t: nat, m: nat)
    requires AckCount(p.duplex, Subframe(t)) == 2 && m < 2 && AllSeen(p, env, t)
    requires Granted(p, env, t - Distance(p.duplex, Subframe(t), m))
    ensures PackedBit(p, env, t, m) <==> GotAt(p, env, t - Distance(p.duplex, Subframe(t), m))
  {
  }

  /** In particular, when the terminal saw every grant that the subframe acknowledges, each verdict is its outcome
      for that very transmission. */
  lemma RunPuschExact(p: Params, env: Env, st: nat -> World, t: nat, m: nat)
    requires IsRun(p, env, st)
    requires p.duplex == Tdd(3) && !p.bundling && Subframe(t) in {3, 4} && env.pusch(t) && m < 2
    requires AllSeen(p, env, t)
    requires Granted(p, env, t - Distance(p.duplex, Subframe(t), m))
    ensures Reads(p, env, t, AtReception(p, env, st, t), m) <==> GotAt(p, env, t - Distance(p.duplex, Subframe(t), m))
  {
    var w := AtReception(p, env, st, t);
    ReceptionTracks(p, env, st, t);
    Entries(p, env, t, w, 0);
    Entries(p, env, t, w, 1);
    PuschReads(p, env, t, w, m);
    SeenBits(p, env, t, m);
  }

  /** The count of grants on record, among them one not yet on the air, matches the number of decoded blocks. */
  ghost predicate CountsCollide(p: Params, env: Env, t: nat) {
    && env.sr(t) && GotAt(p, env, t - 7)
    && (Granted(p, env, t + 3) <==> (Granted(p, env, t - 6) ==> GotAt(p, env, t - 6)))
  }

  lemma Subframe2Reads(p: Params, env: Env, t: nat, w: World, m: nat)
    requires WorldOk(p, w) && EnvOk(env) && m < 2
    requires p.duplex == Tdd(3) && !p.bundling && Subframe(t) == 2 && !env.pusch(t)
    ensures Reads(p, env, t, w, m) <==>
      env.sr(t) && Count(Sent(p.duplex, w.enb.subframeTx, 2, 0), Sent(p.duplex, w.enb.subframeTx, 2, 1))
                == Count(Got(p.duplex, w.ue, 2, 0), Got(p.duplex, w.ue, 2, 1))
  {
    MultiplexedWithRequestCounts(p, w.ue, w.enb.subframeTx, 2, Stale(env, t), env.sr(t), m);
  }

  /** A request is sent and the counts agree. */
  ghost predicate Counted(p: Params, env: Env, t: nat) {
    env.sr(t) && Count(Granted(p, env, t + 3), Granted(p, env, t - 6)) == Count(GotAt(p, env, t - 7), GotAt(p, env, t - 6))
  }

  /** What the records and the terminal's table mean in subframe 2. */
  ghost predicate Subframe2Facts(p: Params, env: Env, t: nat, w: World)
    requires WorldOk(p, w) && p.duplex == Tdd(3)
  {
    && Latest(t + 3, 5) == t + 3 && Latest(t + 3, 6) == t - 6
    && (Sent(p.duplex, w.enb.subframeTx, 2, 0) <==> Granted(p, env, t + 3))
    && (Sent(p.duplex, w.enb.subframeTx, 2, 1) <==> Granted(p, env, t - 6))
    && (w.ue[5].send <==> Seen(p, env, t - 7))
    && (w.ue[6].send <==> Seen(p, env, t - 6))
    && (Got(p.duplex, w.ue, 2, 0) <==> GotAt(p, env, t - 7))
    && (Got(p.duplex, w.ue, 2, 1) <==> GotAt(p, env, t - 6))
  }

  lemma Subframe2FactsHold(p: Params, env: Env, t: nat, w: World)
    requires WorldOk(p, w) && p.duplex == Tdd(3)
    requires EntryOn(p, env, t, w, 5, 7) && EntryOn(p, env, t, w, 6, 6)
    ensures Subframe2Facts(p, env, t, w)
  {
  }

  lemma Subframe2Tracked(p: Params, env: Env, t: nat, w: World)
    requires Tracks(p, env, t, w) && p.duplex == Tdd(3) && Subframe(t) == 2
    ensures Subframe2Facts(p, env, t, w)
  {
    LatestAt(t, 5, 7);
    LatestAt(t, 6, 6);
    EntryTracked(p, env, t, w, 5, 7);
    EntryTracked(p, env, t, w, 6, 6);
    Subframe2FactsHold(p, env, t, w);
  }

  /** The transmission that the base station's `m`-th entry stands for when it is judged. */
  function Recorded(d: Duplex, t: nat, m: nat): int
    requires m < AckCount(d, Subframe(t))
  {
    var g := Distance(d, Subframe(t), m);
    if g <= 6 then t - g else t - g + 10
  }

  lemma SafeEntryMeans(p: Params, env: Env, t: nat, w: World, m: nat)
    requires WorldOk(p, w) && EnvOk(env) && Supported(p.duplex, Subframe(t)) && m < AckCount(p.duplex, Subframe(t))
    requires EntryAt(p, env, t, w, m)
    ensures Sent(p.duplex, w.enb.subframeTx, Subframe(t), m) <==> Granted(p, env, Recorded(p.duplex, t, m))
    ensures SafeEntry(p, env, t, w, m) <==>
      (Granted(p, env, Recorded(p.duplex, t, m)) && Reads(p, env, t, w, m)
       ==> Distance(p.duplex, Subframe(t), m) <= 6 && GotAt(p, env, Recorded(p.duplex, t, m)))
  {
    DistanceTable(p.duplex, Subframe(t), m);
  }

  lemma Subframe2Records(t: nat)
    requires Subframe(t) == 2
    ensures Distance(Tdd(3), Subframe(t), 0) == 7 && Distance(Tdd(3), Subframe(t), 1) == 6
    ensures Recorded(Tdd(3), t, 0) == t + 3 && Recorded(Tdd(3), t, 1) == t - 6
  {
  }

  /** Safety of the two entries of subframe 2. */
  lemma Subframe2Safe(p: Params, env: Env, t: nat, w: World, m: nat)
    requires WorldOk(p, w) && EnvOk(env) && m < 2
    requires p.duplex == Tdd(3) && Subframe(t) == 2 && EntryAt(p, env, t, w, m)
    ensures SafeEntry(p, env, t, w, m) <==>
      (Granted(p, env, if m == 0 then t + 3 else t - 6) && Reads(p, env, t, w, m) ==> m == 1 && GotAt(p, env, t - 6))
  {
    Subframe2Records(t);
    SafeEntryMeans(p, env, t, w, m);
  }

  lemma Subframe2Entry(p: Params, env: Env, t: nat, w: World, m: nat)
    requires WorldOk(p, w) && EnvOk(env) && m < 2
    requires p.duplex == Tdd(3) && !p.bundling && Subframe(t) == 2 && !env.pusch(t)
    requires Subframe2Facts(p, env, t, w) && EntryAt(p, env, t, w, m)
    ensures SafeEntry(p, env, t, w, m) <==>
      (Granted(p, env, if m == 0 then t + 3 else t - 6) && Counted(p, env, t) ==> m == 1 && GotAt(p, env, t - 6))
  {
    Subframe2Reads(p, env, t, w, m);
    Subframe2Safe(p, env, t, w, m);
  }

  lemma BothEntries(p: Params, env: Env, t: nat, w: World)
    requires WorldOk(p, w) && EnvOk(env) && p.duplex == Tdd(3) && Subframe(t) == 2
    ensures SafeAt(p, env, t, w) <==> SafeEntry(p, env, t, w, 0) && SafeEntry(p, env, t, w, 1)
  {
  }

  /** The two entries together. */
  lemma CollisionIff(p: Params, env: Env, t: nat, safe0: bool, safe1: bool)
    requires safe0 <==> !(Granted(p, env, t + 3) && Counted(p, env, t))
    requires safe1 <==> (Granted(p, env, t - 6) && Counted(p, env, t) ==> GotAt(p, env, t - 6))
    ensures safe0 && safe1 <==> !CountsCollide(p, env, t)
  {
  }

  lemma Subframe2SafeIff(p: Params, env: Env, t: nat, w: World)
    requires WorldOk(p, w) && EnvOk(env)
    requires p.duplex == Tdd(3) && !p.bundling && Subframe(t) == 2 && !env.pusch(t)
    requires Subframe2Facts(p, env, t, w) && EntryAt(p, env, t, w, 0) && EntryAt(p, env, t, w, 1)
    ensures SafeAt(p, env, t, w) <==> !CountsCollide(p, env, t)
  {
    Subframe2Entry(p, env, t, w, 0);
    Subframe2Entry(p, env, t, w, 1);
    BothEntries(p, env, t, w);
    CollisionIff(p, env, t, SafeEntry(p, env, t, w, 0), SafeEntry(p, env, t, w, 1));
  }

  /** Configuration 3, subframe 2, multiplexing on PUCCH: the record of downlink subframe 5 was overwritten by the
      grant of `t + 3`. The reception is unsafe exactly when a request is sent, the block of `t - 7` was decoded,
      and the count of grants on record matches the number of decoded blocks. */
  lemma RunSubframe2SafeIff(p: Params, env: Env, st: nat -> World, t: nat)
    requires IsRun(p, env, st)
    requires p.duplex == Tdd(3) && !p.bundling && Subframe(t) == 2 && !env.pusch(t)
    ensures SafeAt(p, env, t, AtReception(p, env, st, t)) <==> !CountsCollide(p, env, t)
  {
    var w := AtReception(p, env, st, t);
    ReceptionTracks(p, env, st, t);
    Subframe2Tracked(p, env, t, w);
    Entries(p, env, t, w, 0);
    Entries(p, env, t, w, 1);
    Subframe2SafeIff(p, env, t, w);
  }

  lemma Subframe2PuschReads(p: Params, env: Env, t: nat, w: World, m: nat)
    requires WorldOk(p, w) && EnvOk(env) && m < 2
    requires p.duplex == Tdd(3) && !p.bundling && Subframe(t) == 2 && env.pusch(t) && Subframe2Facts(p, env, t, w)
    ensures Reads(p, env, t, w, m) <==>
      if m == 1 && Granted(p, env, t + 3) then SecondBit(p, env, t, t - 7, t - 6) else FirstBit(p, env, t, t - 7, t - 6)
  {
    PuschVerdictIff(p, w.ue, w.enb.subframeTx, 2, Stale(env, t), m);
  }

  /** The same on PUSCH: the first packed bit must not acknowledge the grant of `t + 3`, and the bit that is read
      for `t - 6` must be its own outcome or negative. */
  lemma RunSubframe2PuschIff(p: Params, env: Env, st: nat -> World, t: nat)
    requires IsRun(p, env, st)
    requires p.duplex == Tdd(3) && !p.bundling && Subframe(t) == 2 && env.pusch(t)
    ensures SafeAt(p, env, t, AtReception(p, env, st, t)) <==>
      && !(Granted(p, env, t + 3) && FirstBit(p, env, t, t - 7, t - 6))
      && (Granted(p, env, t - 6)
          && (if Granted(p, env, t + 3) then SecondBit(p, env, t, t - 7, t - 6) else FirstBit(p, env, t, t - 7, t - 6))
          ==> GotAt(p, env, t - 6))
  {
    var w := AtReception(p, env, st, t);
    ReceptionTracks(p, env, st, t);
    Subframe2Tracked(p, env, t, w);
    BothEntries(p, env, t, w);
    Entries(p, env, t, w, 0);
    Entries(p, env, t, w, 1);
    Subframe2Safe(p, env, t, w, 0);
    Subframe2Safe(p, env, t, w, 1);
    Subframe2PuschReads(p, env, t, w, 0);
    Subframe2PuschReads(p, env, t, w, 1);
  }

  // ----- Bundling and configuration 1

  /** What bundled PUCCH feedback says in subframe 2 of configuration 3: with a request the OR of both outcomes. Without,
      it is heard on the resource of the second grant on record, or else on that of the first, which is already
      the next frame's. */
  ghost predicate BundleSays(p: Params, env: Env, t: nat) {
    if env.sr(t) then GotAt(p, env, t - 7) || GotAt(p, env, t - 6)
    else if Granted(p, env, t - 6) then GotAt(p, env, t - 6) && (Seen(p, env, t - 7) ==> GotAt(p, env, t - 7))
    else GotAt(p, env, t - 7) && env.cce(t - 7) == env.cce(t + 3)
  }

  lemma BundleReads(p: Params, env: Env, t: nat, w: World, m: nat)
    requires WorldOk(p, w) && EnvOk(env) && m < 2
    requires p.duplex == Tdd(3) && p.bundling && Subframe(t) == 2 && !env.pusch(t) && Subframe2Facts(p, env, t, w)
    ensures Reads(p, env, t, w, m) <==> BundleSays(p, env, t)
  {
  }

  /** Configuration 3, subframe 2, bundling on PUCCH: the exact condition. The feedback must not be positive while the
      grant of `t + 3` is on record; and with a request it must not be positive for `t - 7` alone while that of
      `t - 6` is. */
  lemma RunSubframe2BundledIff(p: Params, env: Env, st: nat -> World, t: nat)
    requires IsRun(p, env, st)
    requires p.duplex == Tdd(3) && p.bundling && Subframe(t) == 2 && !env.pusch(t)
    ensures SafeAt(p, env, t, AtReception(p, env, st, t)) <==>
      && !(Granted(p, env, t + 3) && BundleSays(p, env, t))
      && !(env.sr(t) && Granted(p, env, t - 6) && GotAt(p, env, t - 7) && !GotAt(p, env, t - 6))
  {
    var w := AtReception(p, env, st, t);
    ReceptionTracks(p, env, st, t);
    Subframe2Tracked(p, env, t, w);
    BothEntries(p, env, t, w);
    Entries(p, env, t, w, 0);
    Entries(p, env, t, w, 1);
    Subframe2Safe(p, env, t, w, 0);
    Subframe2Safe(p, env, t, w, 1);
    BundleReads(p, env, t, w, 0);
    BundleReads(p, env, t, w, 1);
  }

  /** What PUCCH feedback says in subframes 2 and 7 of configuration 1: nothing with multiplexing, an inverted bit with
      bundling and no request. */
  ghost predicate InvertedSays(p: Params, env: Env, t: nat) {
    && p.bundling
    && if env.sr(t) then GotAt(p, env, t - 7)
       else Seen(p, env, t - 7) && !GotAt(p, env, t - 7) && env.cce(t - 7) == env.cce(t + 3)
  }

  /** The second acknowledged subframe of configuration 1 is special and never carries a grant. */
  lemma Tdd1FirstDecides(p: Params, env: Env, t: nat, w: World)
    requires WorldOk(p, w) && EnvOk(env) && p.duplex == Tdd(1) && Subframe(t) in {2, 3, 7, 8}
    requires Subframe(t) in {2, 7} ==> EntryAt(p, env, t, w, 1)
    ensures SafeAt(p, env, t, w) <==> SafeEntry(p, env, t, w, 0)
    ensures Subframe(t) in {2, 7} ==> !Sent(p.duplex, w.enb.subframeTx, Subframe(t), 1)
  {
  }

  /** What configuration 1 knows of its first acknowledged subframe in subframes 2 and 7. */
  ghost predicate SevenFacts(p: Params, env: Env, t: nat, w: World, k: nat)
    requires WorldOk(p, w) && k < 10
  {
    && (w.enb.subframeTx[k] <==> Granted(p, env, t + 3))
    && (w.ue[k].send <==> Seen(p, env, t - 7))
    && (w.ue[k].send && w.ue[k].ack == 1 <==> GotAt(p, env, t - 7))
  }

  lemma InvertedReads(p: Params, env: Env, t: nat, w: World)
    requires WorldOk(p, w) && EnvOk(env) && p.duplex == Tdd(1) && Subframe(t) in {2, 7} && !env.pusch(t)
    requires SevenFacts(p, env, t, w, if Subframe(t) == 2 then 5 else 0)
    requires Granted(p, env, t + 3) && !Sent(p.duplex, w.enb.subframeTx, Subframe(t), 1)
    ensures Reads(p, env, t, w, 0) <==> InvertedSays(p, env, t)
  {
    DistanceTable(p.duplex, Subframe(t), 0);
    Tdd1PucchVerdict(p, w.ue, w.enb.subframeTx, Subframe(t), Stale(env, t), env.sr(t));
  }

  lemma SevenFactsHold(p: Params, env: Env, t: nat, w: World)
    requires WorldOk(p, w) && p.duplex == Tdd(1) && Subframe(t) in {2, 7} && EntryAt(p, env, t, w, 0)
    ensures SevenFacts(p, env, t, w, if Subframe(t) == 2 then 5 else 0)
    ensures Distance(p.duplex, Subframe(t), 0) == 7 && Recorded(p.duplex, t, 0) == t + 3
  {
    DistanceTable(p.duplex, Subframe(t), 0);
  }

  lemma TrackedTdd1SafeIff(p: Params, env: Env, t: nat, w: World)
    requires WorldOk(p, w) && EnvOk(env) && p.duplex == Tdd(1) && Subframe(t) in {2, 7} && !env.pusch(t)
    requires EntryAt(p, env, t, w, 0) && EntryAt(p, env, t, w, 1)
    ensures SafeAt(p, env, t, w) <==> !(Granted(p, env, t + 3) && InvertedSays(p, env, t))
  {
    SevenFactsHold(p, env, t, w);
    Tdd1FirstDecides(p, env, t, w);
    SafeEntryMeans(p, env, t, w, 0);
    if Granted(p, env, t + 3) {
      InvertedReads(p, env, t, w);
    }
  }

  /** Configuration 1, subframes 2 and 7, on PUCCH: the exact condition. */
  lemma RunTdd1SafeIff(p: Params, env: Env, st: nat -> World, t: nat)
    requires IsRun(p, env, st)
    requires p.duplex == Tdd(1) && Subframe(t) in {2, 7} && !env.pusch(t)
    ensures SafeAt(p, env, t, AtReception(p, env, st, t)) <==> !(Granted(p, env, t + 3) && InvertedSays(p, env, t))
  {
    var w := AtReception(p, env, st, t);
    ReceptionTracks(p, env, st, t);
    Entries(p, env, t, w, 0);
    Entries(p, env, t, w, 1);
    TrackedTdd1SafeIff(p, env, t, w);
  }

  lemma BundledPuschReads(p: Params, env: Env, t: nat, w: World, m: nat)
    requires WorldOk(p, w) && EnvOk(env) && m < 2 && env.pusch(t)
    requires p.duplex == Tdd(3) && p.bundling && Subframe(t) in {2, 3, 4}
    requires EntryAt(p, env, t, w, 0) && EntryAt(p, env, t, w, 1)
    ensures Reads(p, env, t, w, m) <==>
      FirstBit(p, env, t, t - Distance(p.duplex, Subframe(t), 0), t - Distance(p.duplex, Subframe(t), 1))
  {
  }

  /** Configuration 3, bundling on PUSCH, in every uplink subframe: the one bit read is not the AND of the outcomes but
      the first packed bit, and it counts for both entries. The reception is safe exactly when it does not
      acknowledge a recorded grant that is not on the air yet or whose block was not decoded. */
  lemma RunBundledPuschIff(p: Params, env: Env, st: nat -> World, t: nat)
    requires IsRun(p, env, st)
    requires p.duplex == Tdd(3) && p.bundling && Subframe(t) in {2, 3, 4} && env.pusch(t)
    ensures var d, sf := p.duplex, Subframe(t);
      SafeAt(p, env, t, AtReception(p, env, st, t)) <==>
      (FirstBit(p, env, t, t - Distance(d, sf, 0), t - Distance(d, sf, 1)) ==>
       forall m :: 0 <= m < 2 && Granted(p, env, Recorded(d, t, m)) ==>
         Distance(d, sf, m) <= 6 && GotAt(p, env, Recorded(d, t, m)))
  {
    var w := AtReception(p, env, st, t);
    ReceptionTracks(p, env, st, t);
    Entries(p, env, t, w, 0);
    Entries(p, env, t, w, 1);
    forall m | 0 <= m < 2
      ensures SafeEntry(p, env, t, w, m) <==>
        (Granted(p, env, Recorded(p.duplex, t, m))
         && FirstBit(p, env, t, t - Distance(p.duplex, Subframe(t), 0), t - Distance(p.duplex, Subframe(t), 1))
         ==> Distance(p.duplex, Subframe(t), m) <= 6 && GotAt(p, env, Recorded(p.duplex, t, m)))
    {
      SafeEntryMeans(p, env, t, w, m);
      BundledPuschReads(p, env, t, w, m);
    }
  }

  /** The terminal's entry is about the acknowledged transmission. */
  ghost predicate TableAt(p: Params, env: Env, t: nat, w: World, m: nat)
    requires WorldOk(p, w) && m < AckCount(p.duplex, Subframe(t))
  {
    AckedSubframeInFrame(p.duplex, Subframe(t), m);
    EntryFor(p, env, w.ue[AckedSubframe(p.duplex, Subframe(t), m)], t - Distance(p.duplex, Subframe(t), m))
  }

  lemma TableTracked(p: Params, env: Env, t: nat, w: World, m: nat)
    requires Tracks(p, env, t, w) && m < AckCount(p.duplex, Subframe(t))
    ensures TableAt(p, env, t, w, m)
  {
    EntryMatchesIff(p.duplex, t, m);
  }

  lemma Tdd1PuschReads(p: Params, env: Env, t: nat, w: World)
    requires WorldOk(p, w) && EnvOk(env) && p.duplex == Tdd(1) && Subframe(t) in {2, 3, 7, 8} && env.pusch(t)
    requires TableAt(p, env, t, w, 0)
    ensures Reads(p, env, t, w, 0) <==> AckBit(p, env, t - Distance(p.duplex, Subframe(t), 0))
  {
    Tdd1PuschVerdict(p, w.ue, w.enb.subframeTx, Subframe(t), Stale(env, t));
  }

  /** A positive bit on record of its own transmission is its outcome exactly if it was seen. */
  lemma OldBitIffMissed(p: Params, env: Env, own: bool, v: int, u: int)
    requires own ==> u == v
    ensures (Granted(p, env, u) && AckBit(p, env, v) ==> own && GotAt(p, env, u))
       <==> (Granted(p, env, u) && AckBit(p, env, v) ==> own && Seen(p, env, u))
  {
  }

  lemma Tdd1PuschEntry(p: Params, env: Env, t: nat, w: World)
    requires WorldOk(p, w) && EnvOk(env) && p.duplex == Tdd(1) && Subframe(t) in {2, 3, 7, 8} && EntryAt(p, env, t, w, 0)
    requires Reads(p, env, t, w, 0) <==> AckBit(p, env, t - Distance(p.duplex, Subframe(t), 0))
    ensures var g, u := Distance(p.duplex, Subframe(t), 0), Recorded(p.duplex, t, 0);
      SafeEntry(p, env, t, w, 0) <==> (Granted(p, env, u) && AckBit(p, env, t - g) ==> g <= 6 && Seen(p, env, u))
  {
    var g := Distance(p.duplex, Subframe(t), 0);
    SafeEntryMeans(p, env, t, w, 0);
    OldBitIffMissed(p, env, g <= 6, t - g, Recorded(p.duplex, t, 0));
  }

  /** Configuration 1 on PUSCH, in both modes and every uplink subframe with feedback: the bit is the terminal's table
      bit, which after a missed grant is an earlier one. */
  lemma RunTdd1PuschIff(p: Params, env: Env, st: nat -> World, t: nat)
    requires IsRun(p, env, st)
    requires p.duplex == Tdd(1) && Subframe(t) in {2, 3, 7, 8} && env.pusch(t)
    ensures var g, u := Distance(p.duplex, Subframe(t), 0), Recorded(p.duplex, t, 0);
      SafeAt(p, env, t, AtReception(p, env, st, t)) <==>
      (Granted(p, env, u) && AckBit(p, env, t - g) ==> g <= 6 && Seen(p, env, u))
  {
    var w := AtReception(p, env, st, t);
    ReceptionTracks(p, env, st, t);
    if Subframe(t) in {2, 7} {
      Entries(p, env, t, w, 1);
    }
    Entries(p, env, t, w, 0);
    TableTracked(p, env, t, w, 0);
    Tdd1PuschReads(p, env, t, w);
    Tdd1FirstDecides(p, env, t, w);
    Tdd1PuschEntry(p, env, t, w);
  }

  /** What was granted last always has an active process on record, so a verdict on it takes effect. */
  lemma JustGrantedIsReached(p: Params, env: Env, st: nat -> World, t: nat)
    requires IsRun(p, env, st) && t > 0 && Granted(p, env, t + 3)
    ensures Reaches(AtReception(p, env, st, t).enb, Subframe(t + 3))
  {
    assert StepAt(p, env, st, t - 1);
  }

  /** A run that does it: blocks in subframes 15 and 25, the first one decoded, a request in subframe 22. The block
      of 25 is taken as acknowledged three subframes before it is sent; the terminal never decodes it. */
  lemma EarlyAcknowledgement() returns (p: Params, env: Env, st: nat -> World)
    ensures IsRun(p, env, st) && p.duplex == Tdd(3) && !p.bundling
    ensures Granted(p, env, 25) && !GotAt(p, env, 25)
    ensures !SafeAt(p, env, 22, AtReception(p, env, st, 22))
    ensures Reaches(AtReception(p, env, st, 22).enb, 5)
  {
    p := Params(Tdd(3), 4, false, 0, 0);
    env := Env(u => if u == 15 then Grant(0, 100) else if u == 25 then Grant(1, 100) else NoGrant, _ => 0,
               u => if u == 15 then Decoded else Failed, t => t == 22, _ => false, _ => false, _ => 0);
    assert CountsCollide(p, env, 22);
    st := RunExists(p, env);
    RunSubframe2SafeIff(p, env, st, 22);
    JustGrantedIsReached(p, env, st, 22);
  }
}
