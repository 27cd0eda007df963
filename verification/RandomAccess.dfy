/** Random access at the base station, from the response (RAR) to the end of Msg3 reception, for one slot of
    the terminal table. Only Msg3 is scheduled while the slot waits for it. */
module RandomAccess {
  import opened LteTiming

  datatype Mode = NotSynched | Prach | RaResponse | Pusch

  /** `rounds` and `scheduled` belong to the eight uplink HARQ processes; `rnti` is 0 in a free slot. */
  datatype Ra = Ra(mode: Mode, active: bool, flag: bool, at: (nat, nat), rounds: seq<nat>, scheduled: seq<bool>, rnti: nat)

  /** `maxTx` is maxHARQ_Msg3Tx, `mlimit` the limit of ordinary uplink blocks; both are 8-bit fields. */
  datatype Cell = Cell(duplex: Duplex, maxTx: nat, mlimit: nat)

  ghost predicate Shaped(s: Ra) {
    |s.rounds| == |s.scheduled| == 8
  }

  // ----- Timing of Msg3

  /** `get_Msg3_alloc`: frame and subframe of the first Msg3; `previous` stays where the switch has no case. */
  function Msg3Alloc(d: Duplex, subframe: nat, frame: nat, previous: (nat, nat)): (nat, nat) {
    match d
    case Fdd => if subframe + 6 > 9 then ((frame + 1) % 1024, subframe - 4) else (frame, subframe + 6)
    case Tdd(config) =>
      if config == 1 then
        if subframe == 0 then (frame, 7)
        else if subframe == 4 || subframe == 5 then ((frame + 1) % 1024, 2)
        else if subframe == 9 then ((frame + 1) % 1024, 7)
        else previous
      else if config == 3 then
        if subframe in {0, 5, 6} then ((frame + 1) % 1024, 2)
        else if subframe == 7 then ((frame + 1) % 1024, 3)
        else if subframe == 8 then ((frame + 1) % 1024, 4)
        else if subframe == 9 then ((frame + 2) % 1024, 2)
        else previous
      else previous
  }

  /** `get_Msg3_alloc_ret`: in TDD only the frame is written. */
  function Msg3AllocRet(d: Duplex, subframe: nat, frame: nat, previous: (nat, nat)): (nat, nat) {
    match d
    case Fdd => if subframe + 8 > 9 then ((frame + 1) % 1024, subframe - 2) else (frame, subframe + 8)
    case Tdd(config) => if config in {1, 3} then ((frame + 1) % 1024, previous.1) else previous
  }

  /** `get_Msg3_harq_pid`. Configuration 1 has a case 7 in place of 4, so subframe 4 leaves the uplink
      subframe at 0, where no uplink process exists. */
  function Msg3HarqPid(d: Duplex, frame: nat, subframe: nat): nat {
    match d
    case Fdd =>
      if subframe > 3 then UlHarqPid(d, (frame + 1) % 1024, subframe - 4) else UlHarqPid(d, frame, subframe + 6)
    case Tdd(config) =>
      var ul :=
        if config == 1 then if subframe in {9, 0} then 7 else if subframe in {5, 7} then 2 else 0
        else if config == 3 then
          if subframe in {0, 5, 6, 9} then 2 else if subframe == 7 then 3 else if subframe == 8 then 4 else 0
        else 0;
      UlHarqPid(d, 0, ul)
  }

  /** The distance of Msg3 from a response in `subframe`. */
  function Delay(d: Duplex, subframe: nat): nat {
    match d
    case Fdd => 6
    case Tdd(config) =>
      if config == 1 then if subframe in {0, 5} then 7 else 8
      else if subframe == 0 then 12 else if subframe == 5 then 7 else if subframe == 9 then 13 else 6
  }

  function Period(d: Duplex): nat {
    if d.Fdd? then 8 else 10
  }

  /** The `k`-th Msg3 transmission opportunity after a response in absolute subframe `n`. */
  function Attempt(d: Duplex, n: nat, k: nat): nat {
    n + Delay(d, Subframe(n)) + Period(d) * k
  }

  predicate Modelled(d: Duplex) {
    d in {Fdd, Tdd(1), Tdd(3)}
  }

  lemma FrameAhead(t: nat, j: nat)
    requires j < 20
    ensures Subframe(t + j) == if Subframe(t) + j < 10 then Subframe(t) + j
                               else if Subframe(t) + j < 20 then Subframe(t) + j - 10 else Subframe(t) + j - 20
    ensures Frame(t + j) == if Subframe(t) + j < 10 then Frame(t)
                            else if Subframe(t) + j < 20 then (Frame(t) + 1) % 1024 else (Frame(t) + 2) % 1024
  {
    var q, r := t / 10, t % 10;
    assert t == 10 * q + r;
    assert (t + j) / 10 == if r + j < 10 then q else if r + j < 20 then q + 1 else q + 2;
  }

  /** The code's frame and subframe are those of the first attempt; it is an uplink subframe at distance at
      least 6, and no earlier uplink subframe is, as section 6.1.1 of TS 36.213 demands. */
  lemma Msg3IsEarliest(d: Duplex, n: nat, previous: (nat, nat), t: nat)
    requires Modelled(d) && DownlinkAt(d, Subframe(n))
    ensures var a := Attempt(d, n, 0);
      && Msg3Alloc(d, Subframe(n), Frame(n), previous) == (Frame(a), Subframe(a))
      && UplinkAt(d, Subframe(a)) && a >= n + 6
      && (n + 6 <= t < a ==> !UplinkAt(d, Subframe(t)))
  {
    FrameAhead(n, Delay(d, Subframe(n)));
    if n + 6 <= t < Attempt(d, n, 0) {
      FrameAhead(n, t - n);
    }
  }

  /** The process prepared by the response is the one used in the allocated subframe, except for
      configuration 1 and a response in subframe 4. */
  lemma Msg3PidAgreesIff(d: Duplex, n: nat)
    requires Modelled(d) && DownlinkAt(d, Subframe(n))
    ensures var a := Attempt(d, n, 0);
      && (Msg3HarqPid(d, Frame(n), Subframe(n)) == UlHarqPid(d, Frame(a), Subframe(a)) <==> !(d == Tdd(1) && Subframe(n) == 4))
      && (d == Tdd(1) && Subframe(n) == 4 ==> Msg3HarqPid(d, Frame(n), Subframe(n)) == 255)
      && UlHarqPid(d, Frame(a), Subframe(a)) < 8
  {
    FrameAhead(n, Delay(d, Subframe(n)));
  }

  /** A retransmission is one period later, on the same HARQ process, also across the frame-number wrap. */
  lemma RetransmissionKeepsProcess(d: Duplex, a: nat)
    requires Modelled(d) && UplinkAt(d, Subframe(a))
    ensures Msg3AllocRet(d, Subframe(a), Frame(a), (Frame(a), Subframe(a))) == (Frame(a + Period(d)), Subframe(a + Period(d)))
    ensures UlHarqPid(d, Frame(a + Period(d)), Subframe(a + Period(d))) == UlHarqPid(d, Frame(a), Subframe(a))
    ensures UplinkAt(d, Subframe(a + Period(d)))
  {
    FrameAhead(a, Period(d));
    if d.Fdd? {
      HarqPidFollowsTime(a);
      HarqPidFollowsTime(a + 8);
      Mod8(1, a);
    }
  }

  // ----- The slot

  function Removed(s: Ra): Ra {
    Ra(NotSynched, s.active, s.flag, s.at, seq(8, _ => 0), seq(8, _ => false), 0)
  }

  function RarSent(d: Duplex, s: Ra, frame: nat, subframe: nat, rnti: nat): (r: Ra)
    requires Shaped(s) && Msg3HarqPid(d, frame, subframe) < 8
    ensures Shaped(r)
  {
    var pid := Msg3HarqPid(d, frame, subframe);
    s.(mode := RaResponse, rnti := rnti, active := true, at := Msg3Alloc(d, subframe, frame, s.at),
       rounds := if s.rounds[pid] == 0 then s.rounds else s.rounds[pid := (s.rounds[pid] + 1) % 256])
  }

  function Msg3Checked(s: Ra, frame: nat, subframe: nat, pid: nat): (r: Ra)
    requires Shaped(s) && pid < 8
    ensures Shaped(r)
  {
    if s.mode != RaResponse then s
    else if s.active && s.at == (frame, subframe) then s.(active := false, flag := true, scheduled := s.scheduled[pid := true])
    else s.(flag := false)
  }

  function Failed(c: Cell, s: Ra, frame: nat, subframe: nat, pid: nat): (r: Ra)
    requires Shaped(s) && pid < 8
    ensures Shaped(r)
  {
    var round := (s.rounds[pid] + 1) % 256;
    var t := s.(rounds := s.rounds[pid := round]);
    if s.flag then
      if round == c.maxTx then Removed(t).(active := false)
      else t.(active := true, at := Msg3AllocRet(c.duplex, subframe, frame, s.at))
    else if round == c.mlimit then s.(rounds := s.rounds[pid := 0])
    else t
  }

  /** `keep` is whether the MAC leaves the Msg3 flag set. */
  function Passed(s: Ra, pid: nat, keep: bool): (r: Ra)
    requires Shaped(s) && pid < 8
    ensures Shaped(r)
  {
    var t := s.(rounds := s.rounds[pid := 0]);
    if !s.flag then t
    else (if keep then t else Removed(t).(active := false)).(mode := Pusch, flag := false)
  }

  function Received(c: Cell, s: Ra, frame: nat, subframe: nat, ok: bool, keep: bool): (r: Ra)
    requires Shaped(s) && Modelled(c.duplex) && subframe < 10
    ensures Shaped(r)
  {
    if !UplinkAt(c.duplex, subframe) then s
    else
      var pid := UlHarqPid(c.duplex, frame, subframe);
      var u := Msg3Checked(s, frame, subframe, pid);
      if u.rnti == 0 || !u.scheduled[pid] then u
      else
        var v := u.(scheduled := u.scheduled[pid := false]);
        if ok then Passed(v, pid, keep) else Failed(c, v, frame, subframe, pid)
  }

  class Slot {
    const c: Cell
    var mode: Mode
    var msg3Active: bool
    var msg3Flag: bool
    var msg3At: (nat, nat)
    var rounds: seq<nat>
    var scheduled: seq<bool>
    var rnti: nat

    ghost function State(): Ra
      reads this
    {
      Ra(mode, msg3Active, msg3Flag, msg3At, rounds, scheduled, rnti)
    }

    constructor (c: Cell)
      ensures this.c == c && Shaped(State()) && Clean(State())
    {
      this.c := c;
      mode, msg3Active, msg3Flag, msg3At, rnti := NotSynched, false, false, (0, 0), 0;
      rounds := seq(8, _ => 0);
      scheduled := seq(8, _ => false);
    }

    /** A random access response for this slot goes out. */
    method SendRar(frame: nat, subframe: nat, crnti: nat)
      requires Shaped(State()) && Msg3HarqPid(c.duplex, frame, subframe) < 8
      modifies this
      ensures State() == RarSent(c.duplex, old(State()), frame, subframe, crnti)
    {
      var pid := Msg3HarqPid(c.duplex, frame, subframe);
      mode := RaResponse;
      rnti := crnti;
      if rounds[pid] != 0 {
        rounds := rounds[pid := (rounds[pid] + 1) % 256];
      }
      msg3Active := true;
      msg3At := Msg3Alloc(c.duplex, subframe, frame, msg3At);
    }

    method ProcessMsg3(frame: nat, subframe: nat, pid: nat)
      requires Shaped(State()) && pid < 8 && mode == RaResponse
      modifies this`msg3Flag, this`msg3Active, this`scheduled
      ensures State() == Msg3Checked(old(State()), frame, subframe, pid)
    {
      msg3Flag := false;
      if msg3Active && msg3At == (frame, subframe) {
        msg3Active := false;
        msg3Flag := true;
        scheduled := scheduled[pid := true];
      }
    }

    /** `mac_phy_remove_ue` on this slot: the statistics, and with them the mode, are zeroed. */
    method RemoveUe()
      requires Shaped(State())
      modifies this`mode, this`rnti, this`rounds, this`scheduled
      ensures State() == Removed(old(State()))
    {
      rnti := 0;
      for i := 0 to 8
        invariant Shaped(State())
        invariant forall j :: 0 <= j < i ==> rounds[j] == 0 && !scheduled[j]
        invariant mode == old(mode) && rnti == 0
      {
        scheduled := scheduled[i := false];
        rounds := rounds[i := 0];
      }
      mode := NotSynched;
      assert rounds == seq(8, _ => 0) && scheduled == seq(8, _ => false);
    }

    method UlschFailed(frame: nat, subframe: nat, pid: nat)
      requires Shaped(State()) && pid < 8
      modifies this
      ensures State() == Failed(c, old(State()), frame, subframe, pid)
    {
      rounds := rounds[pid := (rounds[pid] + 1) % 256];
      if msg3Flag {
        if rounds[pid] == c.maxTx {
          mode := Prach;
          RemoveUe();
          msg3Active := false;
        } else {
          msg3Active := true;
          msg3At := Msg3AllocRet(c.duplex, subframe, frame, msg3At);
        }
      } else if rounds[pid] == c.mlimit {
        rounds := rounds[pid := 0];
      }
    }

    method UlschPassed(pid: nat, keep: bool)
      requires Shaped(State()) && pid < 8
      modifies this
      ensures State() == Passed(old(State()), pid, keep)
    {
      rounds := rounds[pid := 0];
      if msg3Flag {
        msg3Flag := keep;
        if !msg3Flag {
          mode := Prach;
          RemoveUe();
          msg3Active := false;
        }
        mode := Pusch;
        msg3Flag := false;
      }
    }

    /** The part of `phy_procedures_eNB_uespec_RX` that concerns this slot. */
    method ReceiveUplink(frame: nat, subframe: nat, ok: bool, keep: bool)
      requires Shaped(State()) && Modelled(c.duplex) && subframe < 10
      modifies this
      ensures State() == Received(c, old(State()), frame, subframe, ok, keep)
    {
      if UplinkAt(c.duplex, subframe) {
        var pid := UlHarqPid(c.duplex, frame, subframe);
        if mode == RaResponse {
          ProcessMsg3(frame, subframe, pid);
        }
        if rnti > 0 && scheduled[pid] {
          scheduled := scheduled[pid := false];
          if ok {
            UlschPassed(pid, keep);
          } else {
            UlschFailed(frame, subframe, pid);
          }
        }
      }
    }
  }

  // ----- Runs

  /** A free slot has no round counted and nothing scheduled, so every response starts at round 0. */
  ghost predicate Clean(s: Ra) {
    Shaped(s) && (s.rnti == 0 ==> s.rounds == seq(8, _ => 0) && s.scheduled == seq(8, _ => false))
  }

  lemma SlotStaysClean(c: Cell, s: Ra, frame: nat, subframe: nat, ok: bool, keep: bool, rnti: nat)
    requires Clean(s) && Modelled(c.duplex) && subframe < 10
    ensures s.mode != RaResponse || s.rnti > 0 ==> Clean(Received(c, s, frame, subframe, ok, keep))
    ensures rnti > 0 && Msg3HarqPid(c.duplex, frame, subframe) < 8 ==> Clean(RarSent(c.duplex, s, frame, subframe, rnti))
  {
  }

  // ----- Ordinary blocks

  /** How many of the last outcomes are failures. */
  function Trailing(oks: seq<bool>): (n: nat)
    ensures n <= |oks|
  {
    if oks == [] || oks[|oks| - 1] then 0 else 1 + Trailing(oks[..|oks| - 1])
  }

  /** What remains of `n` when whole blocks of `m` are taken away. */
  function Rest(n: nat, m: nat): (r: nat)
    requires m >= 1
    ensures r < m
    decreases n
  {
    if n < m then n else Rest(n - m, m)
  }

  lemma {:induction false} RestNext(n: nat, m: nat)
    requires m >= 1
    ensures Rest(n + 1, m) == if Rest(n, m) + 1 == m then 0 else Rest(n, m) + 1
    decreases n
  {
    if n >= m {
      RestNext(n - m, m);
    }
  }

  /** Attempts of an ordinary block on process `pid`, one after another. */
  function Attempted(c: Cell, s: Ra, frame: nat, subframe: nat, pid: nat, oks: seq<bool>): (r: Ra)
    requires Shaped(s) && pid < 8
    ensures Shaped(r)
  {
    if oks == [] then s
    else
      var t := Attempted(c, s, frame, subframe, pid, oks[..|oks| - 1]);
      if oks[|oks| - 1] then Passed(t, pid, false) else Failed(c, t, frame, subframe, pid)
  }

  /** Outside Msg3 a process repeats a block up to `mlimit` times: its round is the number of failures since the last
      success or the last block given up, so it stays below the limit and returns to 0 after exactly `mlimit`
      failures. Nothing else of the slot changes. */
  lemma {:induction false} OrdinaryRounds(c: Cell, s: Ra, frame: nat, subframe: nat, pid: nat, oks: seq<bool>)
    requires Shaped(s) && pid < 8 && !s.flag && 1 <= c.mlimit < 256 && s.rounds[pid] == 0
    ensures Attempted(c, s, frame, subframe, pid, oks) == s.(rounds := s.rounds[pid := Rest(Trailing(oks), c.mlimit)])
    decreases |oks|
  {
    if oks != [] {
      OrdinaryRounds(c, s, frame, subframe, pid, oks[..|oks| - 1]);
      RestNext(Trailing(oks[..|oks| - 1]), c.mlimit);
    }
  }

  /** Which receptions decode, and which decoded Msg3 the MAC keeps. */
  datatype Env = Env(ok: nat -> bool, keep: nat -> bool)

  /** The slot after the receptions of `first + 1`, ..., `last`. */
  ghost function Run(c: Cell, env: Env, s: Ra, first: nat, last: nat): (r: Ra)
    requires Shaped(s) && Modelled(c.duplex) && first <= last
    ensures Shaped(r)
    decreases last
  {
    if first == last then s
    else Received(c, Run(c, env, s, first, last - 1), Frame(last), Subframe(last), env.ok(last), env.keep(last))
  }

  /** How many failed decodings end the procedure: the 8-bit round counter meets a limit of 0 only after
      256 of them. */
  function Tries(c: Cell): nat {
    if c.maxTx == 0 then 256 else c.maxTx
  }

  /** The slot waits for its `k`-th Msg3. */
  ghost predicate Waiting(c: Cell, n: nat, k: nat, s: Ra) {
    var a := Attempt(c.duplex, n, k);
    var pid := UlHarqPid(c.duplex, Frame(a), Subframe(a));
    && Shaped(s) && s.mode == RaResponse && s.active && s.rnti > 0
    && UplinkAt(c.duplex, Subframe(a)) && pid < 8
    && s.at == (Frame(a), Subframe(a))
    && s.scheduled == seq(8, _ => false)
    && s.rounds == seq(8, _ => 0)[pid := k]
  }

  /** Nothing more will happen to the slot. */
  ghost predicate Settled(s: Ra) {
    Shaped(s) && s.mode != RaResponse && !s.active && s.scheduled == seq(8, _ => false)
  }

  datatype Phase = Pending(k: nat) | Succeeded(k: nat) | Abandoned

  /** The reference: attempts are tried in order until one decodes or `Tries` of them have failed. */
  ghost function Reference(c: Cell, env: Env, n: nat, k: nat, t: nat): Phase
    decreases if k < Tries(c) then Tries(c) - k else 0
  {
    if t < Attempt(c.duplex, n, k) then Pending(k)
    else if env.ok(Attempt(c.duplex, n, k)) then Succeeded(k)
    else if k + 1 >= Tries(c) then Abandoned
    else Reference(c, env, n, k + 1, t)
  }

  ghost predicate InPhase(c: Cell, env: Env, n: nat, s: Ra, ph: Phase) {
    match ph
    case Pending(k) => Waiting(c, n, k, s)
    case Succeeded(k) => Settled(s) && s.mode == Pusch && !s.flag && (s.rnti > 0 <==> env.keep(Attempt(c.duplex, n, k)))
    case Abandoned => Settled(s) && s.mode == NotSynched && s.rnti == 0
  }

  lemma SameTimeIff(t: nat, u: nat)
    requires t <= u < t + 10240
    ensures Frame(t) == Frame(u) && Subframe(t) == Subframe(u) <==> t == u
  {
    var q := SplitTime(t);
    var q' := SplitTime(u);
  }

  lemma WaitingStep(c: Cell, env: Env, n: nat, k: nat, s: Ra, t: nat)
    requires Modelled(c.duplex) && Waiting(c, n, k, s) && t < Attempt(c.duplex, n, k) < t + 10240
    ensures Waiting(c, n, k, Received(c, s, Frame(t), Subframe(t), env.ok(t), env.keep(t)))
  {
    SameTimeIff(t, Attempt(c.duplex, n, k));
  }

  lemma AttemptPasses(c: Cell, env: Env, n: nat, k: nat, s: Ra)
    requires Modelled(c.duplex) && Waiting(c, n, k, s) && env.ok(Attempt(c.duplex, n, k))
    ensures var a := Attempt(c.duplex, n, k);
      InPhase(c, env, n, Received(c, s, Frame(a), Subframe(a), env.ok(a), env.keep(a)), Succeeded(k))
  {
    var a := Attempt(c.duplex, n, k);
    var pid := UlHarqPid(c.duplex, Frame(a), Subframe(a));
    assert seq(8, _ => false)[pid := true][pid := false] == seq(8, _ => false);
  }

  /** Reception of a due Msg3 that does not decode. */
  lemma DueFailure(c: Cell, s: Ra, frame: nat, subframe: nat, keep: bool)
    requires Modelled(c.duplex) && subframe < 10 && UplinkAt(c.duplex, subframe)
    requires Shaped(s) && s.mode == RaResponse && s.active && s.rnti > 0 && s.at == (frame, subframe)
    requires s.scheduled == seq(8, _ => false)
    ensures var pid := UlHarqPid(c.duplex, frame, subframe);
      && pid < 8
      && var round := (s.rounds[pid] + 1) % 256;
         Received(c, s, frame, subframe, false, keep) ==
         if round == c.maxTx then Ra(NotSynched, false, true, s.at, seq(8, _ => 0), seq(8, _ => false), 0)
         else Ra(RaResponse, true, true, Msg3AllocRet(c.duplex, subframe, frame, s.at), s.rounds[pid := round],
                 s.scheduled, s.rnti)
  {
    var pid := UlHarqPid(c.duplex, frame, subframe);
    assert seq(8, _ => false)[pid := true][pid := false] == seq(8, _ => false);
  }

  lemma LastFailureAbandons(c: Cell, env: Env, n: nat, k: nat, s: Ra)
    requires Modelled(c.duplex) && c.maxTx < 256 && Waiting(c, n, k, s) && k + 1 == Tries(c)
    ensures var a := Attempt(c.duplex, n, k);
      InPhase(c, env, n, Received(c, s, Frame(a), Subframe(a), false, env.keep(a)), Abandoned)
  {
    var a := Attempt(c.duplex, n, k);
    DueFailure(c, s, Frame(a), Subframe(a), env.keep(a));
  }

  lemma FailureWaits(c: Cell, env: Env, n: nat, k: nat, s: Ra)
    requires Modelled(c.duplex) && c.maxTx < 256 && Waiting(c, n, k, s) && k + 1 < Tries(c)
    ensures var a := Attempt(c.duplex, n, k);
      Waiting(c, n, k + 1, Received(c, s, Frame(a), Subframe(a), false, env.keep(a)))
  {
    var a := Attempt(c.duplex, n, k);
    DueFailure(c, s, Frame(a), Subframe(a), env.keep(a));
    NextAttemptWaits(c, n, k, s, Received(c, s, Frame(a), Subframe(a), false, env.keep(a)));
  }

  lemma AttemptFails(c: Cell, env: Env, n: nat, k: nat, s: Ra)
    requires Modelled(c.duplex) && c.maxTx < 256 && Waiting(c, n, k, s) && k < Tries(c) && !env.ok(Attempt(c.duplex, n, k))
    ensures var a := Attempt(c.duplex, n, k);
      InPhase(c, env, n, Received(c, s, Frame(a), Subframe(a), env.ok(a), env.keep(a)),
              if k + 1 == Tries(c) then Abandoned else Pending(k + 1))
  {
    if k + 1 < Tries(c) {
      FailureWaits(c, env, n, k, s);
    } else {
      LastFailureAbandons(c, env, n, k, s);
    }
  }

  lemma NextAttempt(d: Duplex, n: nat, k: nat)
    ensures Attempt(d, n, k + 1) == Attempt(d, n, k) + Period(d)
  {
  }

  lemma NextAttemptWaits(c: Cell, n: nat, k: nat, s: Ra, s': Ra)
    requires Modelled(c.duplex) && Waiting(c, n, k, s) && k + 1 < 256
    requires var a := Attempt(c.duplex, n, k);
      var pid := UlHarqPid(c.duplex, Frame(a), Subframe(a));
      s' == Ra(RaResponse, true, true, Msg3AllocRet(c.duplex, Subframe(a), Frame(a), s.at), s.rounds[pid := k + 1],
               s.scheduled, s.rnti)
    ensures Waiting(c, n, k + 1, s')
  {
    var a := Attempt(c.duplex, n, k);
    NextAttempt(c.duplex, n, k);
    RetransmissionKeepsProcess(c.duplex, a);
    RoundsOverwritten(UlHarqPid(c.duplex, Frame(a), Subframe(a)), k);
  }

  lemma RoundsOverwritten(pid: nat, k: nat)
    requires pid < 8
    ensures seq(8, _ => 0)[pid := k][pid := k + 1] == seq(8, _ => 0)[pid := k + 1]
  {
  }

  lemma SettledStep(c: Cell, s: Ra, frame: nat, subframe: nat, ok: bool, keep: bool)
    requires Modelled(c.duplex) && Settled(s) && subframe < 10
    ensures Received(c, s, frame, subframe, ok, keep) == s
  {
  }

  lemma RarStartsWaiting(c: Cell, s: Ra, n: nat, rnti: nat)
    requires Modelled(c.duplex) && DownlinkAt(c.duplex, Subframe(n)) && !(c.duplex == Tdd(1) && Subframe(n) == 4)
    requires Clean(s) && s.rnti == 0 && rnti > 0
    ensures Msg3HarqPid(c.duplex, Frame(n), Subframe(n)) < 8
    ensures Waiting(c, n, 0, RarSent(c.duplex, s, Frame(n), Subframe(n), rnti))
  {
    Msg3IsEarliest(c.duplex, n, s.at, n);
    Msg3PidAgreesIff(c.duplex, n);
    assert seq(8, _ => 0)[Msg3HarqPid(c.duplex, Frame(n), Subframe(n)) := 0] == seq(8, _ => 0);
  }

  /** The reference one subframe later. */
  lemma {:induction false} ReferenceStep(c: Cell, env: Env, n: nat, k: nat, t: nat)
    requires k < Tries(c)
    ensures var ph := Reference(c, env, n, k, t);
      && (ph.Pending? ==> k <= ph.k < Tries(c) && t < Attempt(c.duplex, n, ph.k))
      && Reference(c, env, n, k, t + 1) ==
         if ph.Pending? && t + 1 == Attempt(c.duplex, n, ph.k) then
           if env.ok(t + 1) then Succeeded(ph.k) else if ph.k + 1 == Tries(c) then Abandoned else Pending(ph.k + 1)
         else ph
    decreases Tries(c) - k
  {
    NextAttempt(c.duplex, n, k);
    if k + 1 < Tries(c) {
      ReferenceStep(c, env, n, k + 1, t);
    }
  }

  /** The next attempt is never more than 17 subframes away. */
  lemma {:induction false} PendingSoon(c: Cell, env: Env, n: nat, k: nat, t: nat)
    requires t + 4 >= n && (k > 0 ==> t >= Attempt(c.duplex, n, k - 1)) && Reference(c, env, n, k, t).Pending?
    ensures Attempt(c.duplex, n, Reference(c, env, n, k, t).k) <= t + 17
    decreases if k < Tries(c) then Tries(c) - k else 0
  {
    if k > 0 {
      NextAttempt(c.duplex, n, k - 1);
    }
    if t >= Attempt(c.duplex, n, k) {
      PendingSoon(c, env, n, k + 1, t);
    }
  }

  /** What one phase means for all attempts. */
  lemma {:induction false} ReferenceMeaning(c: Cell, env: Env, n: nat, k: nat, t: nat, j: nat)
    requires k < Tries(c) && k <= j
    ensures var ph := Reference(c, env, n, k, t);
      && (ph.Pending? ==> t < Attempt(c.duplex, n, Tries(c) - 1))
      && (ph == Abandoned ==> t >= Attempt(c.duplex, n, Tries(c) - 1) && (j < Tries(c) ==> !env.ok(Attempt(c.duplex, n, j))))
      && (!ph.Abandoned? && j < ph.k ==> !env.ok(Attempt(c.duplex, n, j)))
      && (ph.Succeeded? ==> k <= ph.k < Tries(c) && Attempt(c.duplex, n, ph.k) <= t && env.ok(Attempt(c.duplex, n, ph.k)))
    decreases Tries(c) - k
  {
    AttemptsGrow(c.duplex, n, k, Tries(c) - 1);
    if k + 1 < Tries(c) && t >= Attempt(c.duplex, n, k) && !env.ok(Attempt(c.duplex, n, k)) {
      ReferenceMeaning(c, env, n, k + 1, t, if j > k then j else k + 1);
    }
  }

  lemma AttemptsGrow(d: Duplex, n: nat, j: nat, k: nat)
    requires j <= k
    ensures Attempt(d, n, j) <= Attempt(d, n, k)
  {
  }

  /** In every run from the response in `n`, the slot is in the phase of the reference. */
  lemma {:induction false} RunFollowsReference(c: Cell, env: Env, n: nat, s: Ra, t: nat)
    requires Modelled(c.duplex) && c.maxTx < 256 && n >= 4 && n - 4 <= t && Waiting(c, n, 0, s)
    ensures InPhase(c, env, n, Run(c, env, s, n - 4, t), Reference(c, env, n, 0, t))
    decreases t
  {
    if t > n - 4 {
      RunFollowsReference(c, env, n, s, t - 1);
      ReferenceStep(c, env, n, 0, t - 1);
      PhaseStep(c, env, n, Run(c, env, s, n - 4, t - 1), t);
    }
  }

  lemma PhaseStep(c: Cell, env: Env, n: nat, s: Ra, t: nat)
    requires Modelled(c.duplex) && c.maxTx < 256 && n >= 4 && n - 4 < t
    requires InPhase(c, env, n, s, Reference(c, env, n, 0, t - 1))
    ensures InPhase(c, env, n, Received(c, s, Frame(t), Subframe(t), env.ok(t), env.keep(t)), Reference(c, env, n, 0, t))
  {
    var ph := Reference(c, env, n, 0, t - 1);
    ReferenceStep(c, env, n, 0, t - 1);
    if ph.Pending? {
      PendingSoon(c, env, n, 0, t - 1);
      if t == Attempt(c.duplex, n, ph.k) {
        if env.ok(t) {
          AttemptPasses(c, env, n, ph.k, s);
        } else {
          AttemptFails(c, env, n, ph.k, s);
        }
      } else {
        WaitingStep(c, env, n, ph.k, s, t);
      }
    } else {
      SettledStep(c, s, Frame(t), Subframe(t), env.ok(t), env.keep(t));
    }
  }

  /** From the last attempt on nothing is pending, and success means that some attempt decoded. */
  lemma ReferenceResolves(c: Cell, env: Env, n: nat, t: nat)
    requires t >= Attempt(c.duplex, n, Tries(c) - 1)
    ensures var ph := Reference(c, env, n, 0, t);
      && !ph.Pending?
      && (ph.Succeeded? <==> exists k :: 0 <= k < Tries(c) && env.ok(Attempt(c.duplex, n, k)))
  {
    forall j: nat
      ensures Reference(c, env, n, 0, t) == Abandoned && j < Tries(c) ==> !env.ok(Attempt(c.duplex, n, j))
    {
      ReferenceMeaning(c, env, n, 0, t, j);
    }
    ReferenceMeaning(c, env, n, 0, t, 0);
  }

  /** Random access always resolves. From a free slot and a response in subframe `n`, by the last of `Tries`
      attempts (in FDD `n + 6 + 8 * (maxTx - 1)`, when the limit is not 0) the slot has left RA_RESPONSE:
      into PUSCH exactly when some attempt decoded, otherwise freed after exactly `Tries` failures. */
  lemma RandomAccessResolves(c: Cell, env: Env, s: Ra, n: nat, rnti: nat, t: nat)
    requires Modelled(c.duplex) && DownlinkAt(c.duplex, Subframe(n)) && !(c.duplex == Tdd(1) && Subframe(n) == 4)
    requires c.maxTx < 256 && n >= 4 && Clean(s) && s.rnti == 0 && rnti > 0
    requires t >= n + Delay(c.duplex, Subframe(n)) + Period(c.duplex) * (Tries(c) - 1)
    ensures Msg3HarqPid(c.duplex, Frame(n), Subframe(n)) < 8
    ensures var r := Run(c, env, RarSent(c.duplex, s, Frame(n), Subframe(n), rnti), n - 4, t);
      && r.mode != RaResponse && !r.active
      && (r.mode == Pusch <==> exists k :: 0 <= k < Tries(c) && env.ok(Attempt(c.duplex, n, k)))
      && (r.mode != Pusch ==> r.mode == NotSynched && r.rnti == 0)
  {
    RarStartsWaiting(c, s, n, rnti);
    RunFollowsReference(c, env, n, RarSent(c.duplex, s, Frame(n), Subframe(n), rnti), t);
    ReferenceResolves(c, env, n, t);
  }

  /** Until the last attempt, the slot stays in RA_RESPONSE exactly as long as every attempt so far failed. */
  lemma WaitsWhileAttemptsFail(c: Cell, env: Env, s: Ra, n: nat, rnti: nat, t: nat, k: nat)
    requires Modelled(c.duplex) && DownlinkAt(c.duplex, Subframe(n)) && !(c.duplex == Tdd(1) && Subframe(n) == 4)
    requires c.maxTx < 256 && n >= 4 && Clean(s) && s.rnti == 0 && rnti > 0 && n - 4 <= t
    requires k < Tries(c) && t < Attempt(c.duplex, n, k) && (k > 0 ==> t >= Attempt(c.duplex, n, k - 1))
    ensures Msg3HarqPid(c.duplex, Frame(n), Subframe(n)) < 8
    ensures var r := Run(c, env, RarSent(c.duplex, s, Frame(n), Subframe(n), rnti), n - 4, t);
      r.mode == RaResponse <==> forall j :: 0 <= j < k ==> !env.ok(Attempt(c.duplex, n, j))
  {
    RarStartsWaiting(c, s, n, rnti);
    RunFollowsReference(c, env, n, RarSent(c.duplex, s, Frame(n), Subframe(n), rnti), t);
    PendingIff(c, env, n, 0, t, k);
  }

  lemma {:induction false} PendingIff(c: Cell, env: Env, n: nat, i: nat, t: nat, k: nat)
    requires i <= k < Tries(c) && t < Attempt(c.duplex, n, k) && (k > 0 ==> t >= Attempt(c.duplex, n, k - 1))
    ensures Reference(c, env, n, i, t).Pending? <==> forall j :: i <= j < k ==> !env.ok(Attempt(c.duplex, n, j))
    decreases k - i
  {
    if i < k {
      AttemptsGrow(c.duplex, n, i, k - 1);
      PendingIff(c, env, n, i + 1, t, k);
    }
  }
}
