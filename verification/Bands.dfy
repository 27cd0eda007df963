/** E-UTRA operating bands and carrier frequencies, in tenths of a megahertz. */
module Bands {
  import opened Wrappers

  /** A band: its number, its first and last EARFCN, its lowest frequency in tenths of MHz, its width in MHz. */
  datatype Band = Band(number: int, low: int, high: int, base: int, width: int)

  datatype Plan = Plan(tdd: seq<Band>, fdd: seq<Band>)

  function Tdd33To39(): (r: seq<Band>)
    ensures forall i :: 0 <= i < |r| ==> 36000 <= r[i].low && r[i].high <= 54339
  {
    [
      Band(33, 36000, 36199, 19000, 20), Band(34, 36200, 36349, 20100, 15), Band(35, 36350, 36949, 18500, 60),
      Band(36, 36950, 37549, 19300, 60), Band(37, 37550, 37749, 19100, 20), Band(38, 37750, 38249, 25700, 50),
      Band(39, 38250, 38649, 18800, 40)
    ]
  }

  function Tdd40To46(): (r: seq<Band>)
    ensures forall i :: 0 <= i < |r| ==> 36000 <= r[i].low && r[i].high <= 54339
  {
    [
      Band(40, 38650, 39649, 23000, 100), Band(41, 39650, 41589, 24960, 194), Band(42, 41590, 43589, 34000, 200),
      Band(43, 43590, 45589, 36000, 200), Band(44, 45590, 46589, 7030, 100), Band(45, 46590, 46789, 14470, 20),
      Band(46, 46590, 54339, 51500, 775)
    ]
  }

  function Fdd1To10(): (r: seq<Band>)
    ensures forall i :: 0 <= i < |r| ==> r[i].high <= 10359
  {
    [
      Band(1, 0, 599, 21100, 60), Band(2, 600, 1199, 19300, 60), Band(3, 1200, 1949, 18050, 75),
      Band(4, 1950, 2399, 21100, 45), Band(5, 2400, 2649, 8690, 25), Band(6, 2650, 2749, 8750, 10),
      Band(7, 2750, 3449, 26200, 70), Band(8, 3450, 3799, 9250, 35), Band(9, 3800, 4149, 18449, 35),
      Band(10, 4150, 4749, 21100, 60)
    ]
  }

  function Fdd11To22(): (r: seq<Band>)
    ensures forall i :: 0 <= i < |r| ==> r[i].high <= 10359
  {
    [
      Band(11, 4750, 4949, 14759, 20), Band(12, 5010, 5179, 7290, 17), Band(13, 5180, 5279, 7460, 10),
      Band(14, 5280, 5379, 7580, 10), Band(17, 5730, 5849, 7340, 12), Band(18, 5850, 5999, 8600, 15),
      Band(19, 6000, 6149, 8750, 15), Band(20, 6150, 6449, 7910, 30), Band(21, 6450, 6599, 14959, 15),
      Band(22, 6600, 7399, 35100, 80)
    ]
  }

  function Fdd23To32(): (r: seq<Band>)
    ensures forall i :: 0 <= i < |r| ==> r[i].high <= 10359
  {
    [
      Band(23, 7500, 7699, 21800, 20), Band(24, 7700, 8039, 15250, 34), Band(25, 8040, 8689, 19300, 65),
      Band(26, 8690, 9039, 8590, 35), Band(27, 9040, 9209, 8520, 17), Band(28, 9210, 9659, 7580, 45),
      Band(29, 9660, 9769, 7170, 11), Band(30, 9770, 9869, 23500, 10), Band(31, 9870, 9919, 4625, 5),
      Band(32, 9920, 10359, 14520, 44)
    ]
  }

  function Fdd65To255(): (r: seq<Band>)
    ensures forall i :: 0 <= i < |r| ==> 65536 <= r[i].low
  {
    [
      Band(65, 65536, 66435, 21100, 90), Band(66, 66436, 67335, 21100, 70), Band(67, 67336, 67535, 7380, 20),
      Band(68, 67536, 67835, 7530, 30), Band(69, 67386, 68335, 25700, 95), Band(70, 68336, 68585, 19950, 15),
      Band(252, 255144, 256143, 51500, 100), Band(255, 260894, 262143, 57250, 125)
    ]
  }

  /** The tables of the code. */
  function Eutra(): Plan {
    Plan(Tdd33To39() + Tdd40To46(), Fdd1To10() + Fdd11To22() + Fdd23To32() + Fdd65To255())
  }

  predicate Holds(b: Band, earfcn: nat) {
    b.low < earfcn < b.high
  }

  /** The first band from position `i` on that holds `earfcn`; both ends of a band are excluded. */
  function FindFrom(bands: seq<Band>, earfcn: nat, i: nat): (r: Option<nat>)
    requires i <= |bands|
    ensures r.Some? ==> i <= r.value < |bands| && Holds(bands[r.value], earfcn)
    ensures forall k :: i <= k < (if r.Some? then r.value else |bands|) ==> !Holds(bands[k], earfcn)
    decreases |bands| - i
  {
    if i == |bands| then None
    else if Holds(bands[i], earfcn) then Some(i)
    else FindFrom(bands, earfcn, i + 1)
  }

  function Find(bands: seq<Band>, earfcn: nat): (r: Option<nat>)
    ensures r.Some? ==> r.value < |bands| && Holds(bands[r.value], earfcn)
    ensures forall k :: 0 <= k < (if r.Some? then r.value else |bands|) ==> !Holds(bands[k], earfcn)
  {
    FindFrom(bands, earfcn, 0)
  }

  /** `emoai_get_fdd_dl_band_array_index` and `emoai_get_tdd_band_array_index`. */
  method FindBand(bands: seq<Band>, earfcn: nat) returns (r: Option<nat>)
    ensures r == Find(bands, earfcn)
  {
    for i := 0 to |bands|
      invariant Find(bands, earfcn) == FindFrom(bands, earfcn, i)
    {
      if Holds(bands[i], earfcn) {
        return Some(i);
      }
    }
    r := None;
  }

  function FrequencyIn(b: Band, earfcn: nat): int {
    b.base + (earfcn - b.low)
  }

  /** The carrier frequency, 0 outside all bands; a match among the FDD bands takes precedence. */
  function Frequency(p: Plan, earfcn: nat): int {
    if Find(p.fdd, earfcn).Some? then FrequencyIn(p.fdd[Find(p.fdd, earfcn).value], earfcn)
    else if Find(p.tdd, earfcn).Some? then FrequencyIn(p.tdd[Find(p.tdd, earfcn).value], earfcn)
    else 0
  }

  /** `emoai_comp_req_freq`: 1 for the same carrier number, -1 for another number on the same frequency. */
  function Compare(p: Plan, r: nat, c: nat): int {
    if Frequency(p, r) != Frequency(p, c) then 0 else if r == c then 1 else -1
  }

  /** A carrier is found exactly when it lies strictly inside a band; the first and the last carrier of every band, which
      TS 36.101 assigns to it, are lost. */
  lemma FoundIff(bands: seq<Band>, earfcn: nat)
    ensures Find(bands, earfcn).Some? <==> exists i :: 0 <= i < |bands| && bands[i].low < earfcn && earfcn < bands[i].high
  {
    if i :| 0 <= i < |bands| && bands[i].low < earfcn && earfcn < bands[i].high {
      assert Holds(bands[i], earfcn);
    }
  }

  /** The band whose table entry the frequency of `earfcn` is taken from. */
  function BandOf(p: Plan, earfcn: nat): Option<Band> {
    if Find(p.fdd, earfcn).Some? then Some(p.fdd[Find(p.fdd, earfcn).value])
    else if Find(p.tdd, earfcn).Some? then Some(p.tdd[Find(p.tdd, earfcn).value])
    else None
  }

  /** Carriers of one band are 0.1 MHz apart, so they never share a frequency; the carrier just above the low end of a
      band lies 0.1 MHz above the band's lowest frequency. */
  lemma CarrierRaster(p: Plan, e: nat, f: nat)
    requires BandOf(p, e).Some? && BandOf(p, e) == BandOf(p, f)
    ensures Frequency(p, e) - Frequency(p, f) == e - f
    ensures Compare(p, e, f) == if e == f then 1 else 0
    ensures e == BandOf(p, e).value.low + 1 ==> Frequency(p, e) == BandOf(p, e).value.base + 1
  {
  }

  /** Carriers of two bands share a frequency exactly when they are equally far above the bands' lowest frequencies, up to
      the difference of these; such a request is refused. */
  lemma SharedFrequencyIff(p: Plan, e: nat, f: nat)
    requires BandOf(p, e).Some? && BandOf(p, f).Some? && e != f
    ensures var b, c := BandOf(p, e).value, BandOf(p, f).value;
      Compare(p, e, f) == -1 <==> (e - b.low) - (f - c.low) == c.base - b.base
  {
  }

  /** For example carrier 300 of band 1 and carrier 2250 of band 4, both at 2140.0 MHz. */
  lemma TwoCarriersOneFrequency()
    ensures Frequency(Eutra(), 300) == Frequency(Eutra(), 2250) == 21400 && Compare(Eutra(), 300, 2250) == -1
  {
    var f := Eutra().fdd;
    assert f[0] == Fdd1To10()[0] && f[1] == Fdd1To10()[1] && f[2] == Fdd1To10()[2] && f[3] == Fdd1To10()[3];
    assert FindFrom(f, 2250, 0) == FindFrom(f, 2250, 1) == FindFrom(f, 2250, 2) == FindFrom(f, 2250, 3) == Some(3);
  }

  /** The table gives the band as many carriers of 0.1 MHz as its width holds. */
  predicate WidthFits(b: Band) {
    b.high - b.low + 1 == 10 * b.width
  }

  lemma WidthsOf(bands: seq<Band>, b: Band)
    requires b in bands && bands in [Tdd33To39(), Tdd40To46(), Fdd1To10(), Fdd11To22(), Fdd23To32(), Fdd65To255()]
    ensures WidthFits(b) <==> b.number !in {66, 70}
    ensures b.number in {66, 70} ==> b.high - b.low + 1 > 10 * b.width
    ensures b.base > 0
  {
  }

  /** In all bands but 66 and 70, whose carrier ranges are wider than the bandwidth the code gives them. */
  lemma WidthsFitIff(b: Band)
    requires b in Eutra().tdd || b in Eutra().fdd
    ensures WidthFits(b) <==> b.number !in {66, 70}
    ensures b.number in {66, 70} ==> b.high - b.low + 1 > 10 * b.width
    ensures b.base > 0
  {
    if b in Tdd33To39() {
      WidthsOf(Tdd33To39(), b);
    } else if b in Tdd40To46() {
      WidthsOf(Tdd40To46(), b);
    } else if b in Fdd1To10() {
      WidthsOf(Fdd1To10(), b);
    } else if b in Fdd11To22() {
      WidthsOf(Fdd11To22(), b);
    } else if b in Fdd23To32() {
      WidthsOf(Fdd23To32(), b);
    } else {
      WidthsOf(Fdd65To255(), b);
    }
  }

  /** The frequency of a carrier lies inside its band, exactly unless it is one of the carriers of bands 66 and 70 that
      the bandwidth does not reach. */
  lemma FrequencyInsideIff(earfcn: nat)
    requires BandOf(Eutra(), earfcn).Some?
    ensures var b := BandOf(Eutra(), earfcn).value;
      && b.base < Frequency(Eutra(), earfcn)
      && (Frequency(Eutra(), earfcn) < b.base + 10 * b.width <==> b.number !in {66, 70} || earfcn < b.low + 10 * b.width)
  {
    var b := BandOf(Eutra(), earfcn).value;
    assert b in Eutra().tdd || b in Eutra().fdd;
    WidthsFitIff(b);
  }

  /** No carrier number lies in a TDD and in an FDD band, so it does not matter which table is searched first. */
  lemma TablesDisjoint(earfcn: nat)
    ensures Find(Eutra().tdd, earfcn).None? || Find(Eutra().fdd, earfcn).None?
  {
    var t, f := Eutra().tdd, Eutra().fdd;
    assert forall i :: 0 <= i < |t| ==> 36000 <= t[i].low && t[i].high <= 54339;
    assert forall i :: 0 <= i < |f| ==> f[i].high <= 10359 || 65536 <= f[i].low;
  }
}
