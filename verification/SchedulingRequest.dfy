/** Scheduling-request opportunities, as base station and terminal decide them. */
module SchedulingRequest {
  import opened LteTiming

  /** `is_SR_subframe` of the base station. */
  predicate EnbListens(index: nat, frame: nat, subframe: nat) {
    if index <= 4 then subframe % 5 == index
    else if index <= 14 then subframe == index - 5
    else if index <= 34 then 10 * (frame % 2) + subframe == index - 15
    else if index <= 74 then 10 * (frame % 4) + subframe == index - 35
    else if index <= 154 then 10 * (frame % 8) + subframe == index - 75
    else false
  }

  /** `is_SR_TXOp` of the terminal. */
  predicate UeMaySend(index: nat, frame: nat, subframe: nat) {
    if index <= 4 then subframe % 5 == index
    else if index <= 14 then subframe == index - 5
    else if index <= 34 then 10 * (frame % 2) + subframe == index - 15
    else if index <= 74 then 10 * (frame % 4) + subframe == index - 35
    else if index <= 154 then 10 * (frame % 8) + subframe == index - 75
    else false
  }

  /** Periodicity and offset of table 10.1-5 in TS 36.213. */
  function Period(index: nat): nat {
    if index <= 4 then 5 else if index <= 14 then 10 else if index <= 34 then 20 else if index <= 74 then 40 else 80
  }

  function Offset(index: nat): nat
    requires index <= 154
  {
    if index <= 4 then index
    else if index <= 14 then index - 5
    else if index <= 34 then index - 15
    else if index <= 74 then index - 35
    else index - 75
  }

  lemma Mod2(x: nat, q: nat, r: nat)
    requires x == 2 * q + r && r < 2
    ensures x % 2 == r
  {
  }

  lemma Mod4(x: nat, q: nat, r: nat)
    requires x == 4 * q + r && r < 4
    ensures x % 4 == r
  {
  }

  lemma Mod8(x: nat, q: nat, r: nat)
    requires x == 8 * q + r && r < 8
    ensures x % 8 == r
  {
  }

  lemma Wrap2(q: nat, r: nat)
    ensures (1024 * q + r) % 2 == r % 2
  {
    var h, l := r / 2, r % 2;
    assert r == 2 * h + l;
    Mod2(1024 * q + r, 512 * q + h, l);
  }

  lemma Wrap4(q: nat, r: nat)
    ensures (1024 * q + r) % 4 == r % 4
  {
    var h, l := r / 4, r % 4;
    assert r == 4 * h + l;
    Mod4(1024 * q + r, 256 * q + h, l);
  }

  lemma Wrap8(q: nat, r: nat)
    ensures (1024 * q + r) % 8 == r % 8
  {
    var h, l := r / 8, r % 8;
    assert r == 8 * h + l;
    Mod8(1024 * q + r, 128 * q + h, l);
  }

  lemma FrameInCycle(t: nat)
    ensures Frame(t) % 2 == (t / 10) % 2 && Frame(t) % 4 == (t / 10) % 4 && Frame(t) % 8 == (t / 10) % 8
  {
    var q, r := (t / 10) / 1024, (t / 10) % 1024;
    assert t / 10 == 1024 * q + r;
    Wrap2(q, r);
    Wrap4(q, r);
    Wrap8(q, r);
  }

  lemma Cycle2(f: nat, r: nat)
    requires r < 10
    ensures (10 * f + r) % 20 == 10 * (f % 2) + r
  {
    assert 10 * f + r == 20 * (f / 2) + (10 * (f % 2) + r);
  }

  lemma Cycle4(f: nat, r: nat)
    requires r < 10
    ensures (10 * f + r) % 40 == 10 * (f % 4) + r
  {
    assert 10 * f + r == 40 * (f / 4) + (10 * (f % 4) + r);
  }

  lemma Cycle8(f: nat, r: nat)
    requires r < 10
    ensures (10 * f + r) % 80 == 10 * (f % 8) + r
  {
    assert 10 * f + r == 80 * (f / 8) + (10 * (f % 8) + r);
  }

  /** The place of `t` in a cycle of two, four or eight frames, seen through the frame number. */
  lemma PlaceInCycle(t: nat)
    ensures 10 * (Frame(t) % 2) + Subframe(t) == t % 20
    ensures 10 * (Frame(t) % 4) + Subframe(t) == t % 40
    ensures 10 * (Frame(t) % 8) + Subframe(t) == t % 80
  {
    FrameInCycle(t);
    var f, r := t / 10, t % 10;
    assert t == 10 * f + r;
    Cycle2(f, r);
    Cycle4(f, r);
    Cycle8(f, r);
  }

  lemma ModFive(x: nat, q: nat, r: nat)
    requires x == 5 * q + r && r < 5
    ensures x % 5 == r
  {
  }

  lemma FiveInTen(t: nat)
    ensures (t % 10) % 5 == t % 5
  {
    var q, r := t / 10, t % 10;
    assert t == 10 * q + r;
    if r < 5 {
      ModFive(t, 2 * q, r);
      ModFive(r, 0, r);
    } else {
      ModFive(t, 2 * q + 1, r - 5);
      ModFive(r, 1, r - 5);
    }
  }

  /** Both sides agree, and hold exactly at one residue of absolute time, also across the frame-number wrap. */
  lemma OpportunityIff(index: nat, t: nat)
    requires index <= 154
    ensures EnbListens(index, Frame(t), Subframe(t)) <==> UeMaySend(index, Frame(t), Subframe(t))
    ensures EnbListens(index, Frame(t), Subframe(t)) <==> t % Period(index) == Offset(index)
    ensures Offset(index) < Period(index)
  {
    PlaceInCycle(t);
    FiveInTen(t);
  }

  /** The one opportunity of the window of one period that starts at `start`. */
  function Next(index: nat, start: nat): nat
    requires index <= 154
  {
    start + (Offset(index) - start) % Period(index)
  }

  /** Every window of one period, wherever it starts, contains exactly one opportunity. */
  lemma OnePerWindow(index: nat, start: nat, t: nat)
    requires index <= 154 && start <= t < start + Period(index)
    ensures start <= Next(index, start) < start + Period(index)
    ensures EnbListens(index, Frame(t), Subframe(t)) <==> t == Next(index, start)
  {
    OpportunityIff(index, t);
    ResidueInWindow(start, t, Period(index), Offset(index));
  }

  lemma ResidueInWindow(start: nat, t: nat, d: nat, r: nat)
    requires d in {5, 10, 20, 40, 80} && r < d && start <= t < start + d
    ensures t % d == r <==> t == start + (r - start) % d
  {
  }
}
