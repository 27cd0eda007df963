/** The runs of base station and terminal are runs of the ledger, so every account of the ledger holds of them. */
module HarqAccounts {
  import opened LteTiming
  import opened Harq
  import opened HarqLink
  import L = HarqLedger
  import R = HarqRun

  ghost predicate AllOk(es: seq<L.Event>) {
    forall e :: e in es ==> L.EventOk(e)
  }

  // ----- What the base station goes through in tick `t`

  ghost function RxEvents(p: Params, env: R.Env, w: R.World, t: nat): (es: seq<L.Event>)
    requires R.WorldOk(p, w) && R.EnvOk(env)
    ensures AllOk(es)
  {
    if Supported(p.duplex, Subframe(t)) then [L.Rx(Subframe(t), R.Answer(p, env, w.enb.subframeTx, w.ue, t))] else []
  }

  ghost function SrEvents(p: Params, env: R.Env, t: nat): (es: seq<L.Event>)
    ensures AllOk(es)
  {
    if R.ResetAt(p, env, t) then [L.Sr] else []
  }

  ghost function TxEvents(p: Params, env: R.Env, t: nat): (es: seq<L.Event>)
    requires R.EnvOk(env)
    ensures AllOk(es)
  {
    if DownlinkAt(p.duplex, Subframe(t + 4)) then [L.Tx(Subframe(t + 4), env.grant(t + 4))] else []
  }

  ghost function EventsAt(p: Params, env: R.Env, st: nat -> R.World, t: nat): (es: seq<L.Event>)
    requires R.IsRun(p, env, st)
    ensures AllOk(es)
  {
    RxEvents(p, env, R.AtReception(p, env, st, t), t) + SrEvents(p, env, t) + TxEvents(p, env, t)
  }

  ghost function Concat<T>(parts: nat -> seq<T>, n: nat): seq<T> {
    if n == 0 then [] else Concat(parts, n - 1) + parts(n - 1)
  }

  lemma {:induction false} ConcatAll<T(!new)>(parts: nat -> seq<T>, n: nat, good: T -> bool)
    requires forall v: nat :: v < n ==> forall x :: x in parts(v) ==> good(x)
    ensures forall x :: x in Concat(parts, n) ==> good(x)
    decreases n
  {
    if n > 0 {
      ConcatAll(parts, n - 1, good);
    }
  }

  ghost function Ticks(p: Params, env: R.Env, st: nat -> R.World): nat -> seq<L.Event>
    requires R.IsRun(p, env, st)
  {
    (t: nat) => EventsAt(p, env, st, t)
  }

  ghost function Trace(p: Params, env: R.Env, st: nat -> R.World, t: nat): (es: seq<L.Event>)
    requires R.IsRun(p, env, st)
    ensures AllOk(es)
  {
    ConcatAll(Ticks(p, env, st), t, e => L.EventOk(e));
    Concat(Ticks(p, env, st), t)
  }

  lemma {:induction false} AfterBoth(p: Params, w: L.World, es: seq<L.Event>, more: seq<L.Event>)
    requires L.Ok(p, w) && AllOk(es) && AllOk(more)
    ensures L.After(p, w, es + more) == L.After(p, L.After(p, w, es), more)
    decreases |es|
  {
    if es == [] {
      assert es + more == more;
    } else {
      assert (es + more)[0] == es[0] && (es + more)[1..] == es[1..] + more;
      AfterBoth(p, L.Next(p, w, es[0]), es[1..], more);
    }
  }

  lemma AfterOne(p: Params, w: L.World, e: L.Event)
    requires L.Ok(p, w) && L.EventOk(e)
    ensures L.After(p, w, [e]) == L.Next(p, w, e)
  {
  }

  lemma RxEventsJudge(p: Params, env: R.Env, w: R.World, t: nat, l: L.World)
    requires R.WorldOk(p, w) && R.EnvOk(env) && L.Ok(p, l) && l.s == w.enb
    ensures L.After(p, l, RxEvents(p, env, w, t)).s == R.EnbJudge(p, env, w, t)
  {
    if Supported(p.duplex, Subframe(t)) {
      AfterOne(p, l, RxEvents(p, env, w, t)[0]);
    }
  }

  lemma SrEventsReset(p: Params, env: R.Env, t: nat, l: L.World)
    requires L.Ok(p, l)
    ensures L.After(p, l, SrEvents(p, env, t)).s == if R.ResetAt(p, env, t) then FirstSr(p, l.s) else l.s
  {
    AfterOne(p, l, L.Sr);
  }

  lemma TxEventsTransmit(p: Params, env: R.Env, t: nat, l: L.World)
    requires L.Ok(p, l) && R.EnvOk(env)
    ensures L.After(p, l, TxEvents(p, env, t)).s == R.EnbTransmit(p, env, l.s, t + 4)
  {
    AfterOne(p, l, L.Tx(Subframe(t + 4), env.grant(t + 4)));
  }

  lemma TickIsEvents(p: Params, env: R.Env, st: nat -> R.World, t: nat, l: L.World)
    requires R.IsRun(p, env, st) && L.Ok(p, l) && l.s == st(t).enb
    ensures L.After(p, l, EventsAt(p, env, st, t)).s == st(t + 1).enb
  {
    var w := R.AtReception(p, env, st, t);
    var rx, sr, tx := RxEvents(p, env, w, t), SrEvents(p, env, t), TxEvents(p, env, t);
    assert R.StepAt(p, env, st, t);
    AfterBoth(p, l, rx + sr, tx);
    AfterBoth(p, l, rx, sr);
    RxEventsJudge(p, env, w, t, l);
    SrEventsReset(p, env, t, L.After(p, l, rx));
    TxEventsTransmit(p, env, t, L.After(p, L.After(p, l, rx), sr));
  }

  ghost function Accounts(p: Params, env: R.Env, st: nat -> R.World, t: nat): (w: L.World)
    requires R.IsRun(p, env, st)
    ensures L.Ok(p, w)
  {
    L.After(p, L.Start(p), Trace(p, env, st, t))
  }

  lemma TraceStep(p: Params, env: R.Env, st: nat -> R.World, t: nat)
    requires R.IsRun(p, env, st)
    ensures Trace(p, env, st, t + 1) == Trace(p, env, st, t) + EventsAt(p, env, st, t)
  {
  }

  lemma AccountsStart(p: Params, env: R.Env, st: nat -> R.World)
    requires R.IsRun(p, env, st)
    ensures Accounts(p, env, st, 0).s == st(0).enb
  {
  }

  lemma AccountsStep(p: Params, env: R.Env, st: nat -> R.World, t: nat)
    requires R.IsRun(p, env, st)
    ensures Accounts(p, env, st, t + 1) == L.After(p, Accounts(p, env, st, t), EventsAt(p, env, st, t))
  {
    TraceStep(p, env, st, t);
    AfterBoth(p, L.Start(p), Trace(p, env, st, t), EventsAt(p, env, st, t));
  }

  /** `acc` goes through the events of tick `t`. */
  ghost predicate Follows(p: Params, env: R.Env, st: nat -> R.World, acc: nat -> L.World, t: nat)
    requires R.IsRun(p, env, st)
  {
    L.Ok(p, acc(t)) && acc(t + 1) == L.After(p, acc(t), EventsAt(p, env, st, t))
  }

  lemma {:induction false} FollowingAgrees(p: Params, env: R.Env, st: nat -> R.World, acc: nat -> L.World, t: nat)
    requires R.IsRun(p, env, st) && acc(0).s == st(0).enb && forall v: nat :: Follows(p, env, st, acc, v)
    ensures acc(t).s == st(t).enb
    decreases t
  {
    if t > 0 {
      FollowingAgrees(p, env, st, acc, t - 1);
      assert Follows(p, env, st, acc, t - 1);
      TickIsEvents(p, env, st, t - 1, acc(t - 1));
    }
  }

  /** The ledger's run on the events of a run ends in the same base station. */
  lemma RunHasAccounts(p: Params, env: R.Env, st: nat -> R.World, t: nat)
    requires R.IsRun(p, env, st)
    ensures Accounts(p, env, st, t).s == st(t).enb
  {
    var acc := (v: nat) => Accounts(p, env, st, v);
    AccountsStart(p, env, st);
    forall v: nat
      ensures Follows(p, env, st, acc, v)
    {
      AccountsStep(p, env, st, v);
    }
    FollowingAgrees(p, env, st, acc, t);
  }

  /** So in every run of base station and terminal no block is lost, and a process is active exactly while its block
      has had fewer than `mlimit` verdicts, all negative. */
  lemma RunAccounted(p: Params, env: R.Env, st: nat -> R.World, t: nat, i: nat)
    requires R.IsRun(p, env, st) && i < PROCESSES
    ensures var s, l := st(t).enb, Accounts(p, env, st, t).l;
      && L.LedgerShaped(p, l)
      && l.started[i] == L.Sum(s.ack[i]) + s.l2Errors[i] + L.Sum(l.dropped[i]) + l.replaced[i]
                         + (if s.procs[i].status == Active then 1 else 0)
      && (s.procs[i].status == Active <==>
          l.started[i] > 0 && !l.cleared[i] && L.AllZero(l.verdicts[i]) && |l.verdicts[i]| < p.mlimit)
      && (s.procs[i].status == Active ==> s.procs[i].round == |l.verdicts[i]|)
  {
    RunHasAccounts(p, env, st, t);
    L.EveryBlockAccounted(p, Trace(p, env, st, t), i);
    L.StaysActiveIff(p, Trace(p, env, st, t), i);
  }

  // ----- Multiplexing on PUCCH without a request

  lemma SilentTick(p: Params, env: R.Env, st: nat -> R.World, t: nat)
    requires R.IsRun(p, env, st) && p.duplex == Tdd(3) && !p.bundling && !env.pusch(t) && !env.sr(t)
    ensures L.AllSilent(EventsAt(p, env, st, t))
  {
  }

  lemma SilentTrace(p: Params, env: R.Env, st: nat -> R.World, t: nat)
    requires R.IsRun(p, env, st) && p.duplex == Tdd(3) && !p.bundling
    requires forall v: nat :: v < t ==> !env.pusch(v) && !env.sr(v)
    ensures L.AllSilent(Trace(p, env, st, t))
  {
    forall v: nat, e | v < t && e in Ticks(p, env, st)(v)
      ensures L.EventOk(e) && L.Silent(e)
    {
      SilentTick(p, env, st, v);
    }
    ConcatAll(Ticks(p, env, st), t, e => L.EventOk(e) && L.Silent(e));
  }

  /** Configuration 3 with multiplexing on PUCCH and no request: in every run nothing is ever credited, whatever the
      terminal decodes, and every block that is not replaced ends in an error or is still being repeated. */
  lemma MultiplexedRunsOnlyFail(p: Params, env: R.Env, st: nat -> R.World, t: nat, i: nat)
    requires R.IsRun(p, env, st) && p.duplex == Tdd(3) && !p.bundling && i < PROCESSES
    requires forall v: nat :: v < t ==> !env.pusch(v) && !env.sr(v)
    ensures L.NothingCredited(st(t).enb)
    ensures var l := Accounts(p, env, st, t).l;
      && L.LedgerShaped(p, l)
      && l.started[i] == st(t).enb.l2Errors[i] + l.replaced[i] + (if st(t).enb.procs[i].status == Active then 1 else 0)
  {
    RunHasAccounts(p, env, st, t);
    SilentTrace(p, env, st, t);
    L.SilentRunsOnlyFail(p, Trace(p, env, st, t), i);
  }
}
