/** Frame structure and the timing tables shared by base station and terminal. Only TDD configurations 1
    and 3 have tables in the code; every other configuration takes the fall-through branches. */
module LteTiming {

  datatype Duplex = Fdd | Tdd(config: nat)

  datatype SubframeKind = Downlink | Uplink | Special | Unsupported

  /** `subframe_select`; FDD answers `Downlink` as a dummy value. */
  function SubframeSelect(d: Duplex, subframe: nat): SubframeKind {
    match d
    case Fdd => Downlink
    case Tdd(config) =>
      if config == 1 then
        if subframe in {0, 4, 5, 9} then Downlink
        else if subframe in {2, 3, 7, 8} then Uplink
        else Special
      else if config == 3 then
        if subframe < 1 || subframe >= 5 then Downlink
        else if subframe > 1 then Uplink
        else Special
      else Unsupported
  }

  predicate DownlinkAt(d: Duplex, subframe: nat) {
    SubframeSelect(d, subframe) == Downlink
  }

  predicate UplinkAt(d: Duplex, subframe: nat) {
    d.Fdd? || SubframeSelect(d, subframe) == Uplink
  }

  /** `ul_ACK_subframe2_M`: how many downlink subframes are acknowledged in `subframe`. */
  function AckCount(d: Duplex, subframe: nat): (count: nat)
    ensures count <= 2
  {
    match d
    case Fdd => 1
    case Tdd(config) =>
      if config == 3 then if subframe in {2, 3, 4} then 2 else 0
      else if config == 1 then
        if subframe in {2, 7} then 2 else if subframe in {3, 8} then 1 else 0
      else 0
  }

  /** `ul_ACK_subframe2_dl_subframe`: the `m`-th downlink subframe acknowledged in `subframe`. */
  function AckedSubframe(d: Duplex, subframe: nat, m: nat): nat {
    match d
    case Fdd => if subframe < 4 then subframe + 6 else subframe - 4
    case Tdd(config) =>
      if config == 3 then
        if subframe == 2 then if m == 2 then 1 else 5 + m
        else if subframe == 3 then 7 + m
        else if subframe == 4 then (9 + m) % 10
        else 0
      else if config == 1 then
        if subframe == 2 then 5 + m
        else if subframe == 3 then 9
        else if subframe == 7 then m
        else if subframe == 8 then 4
        else 0
      else 0
  }

  lemma AckedSubframeInFrame(d: Duplex, subframe: nat, m: nat)
    requires subframe < 10 && m < AckCount(d, subframe)
    ensures AckedSubframe(d, subframe, m) < 10
  {
  }

  // ----- Absolute time

  /** System frame number and subframe of absolute subframe `t`; frames are counted modulo 1024. */
  function Frame(t: nat): nat {
    (t / 10) % 1024
  }

  function Subframe(t: nat): nat {
    t % 10
  }

  /** `subframe2harq_pid` for FDD, `((frame << 1) + subframe) & 7`. */
  function FddHarqPid(frame: nat, subframe: nat): nat {
    (2 * frame + subframe) % 8
  }

  /** `get_ue_active_harq_pid` for the downlink, `(frame * 10 + subframe) % 8`. */
  function DlHarqPid(frame: nat, subframe: nat): nat {
    (10 * frame + subframe) % 8
  }

  lemma Mod8(a: nat, b: nat)
    ensures (8 * a + b) % 8 == b % 8
  {
  }

  /** Absolute time split into super-frame, frame and subframe. */
  lemma SplitTime(t: nat) returns (q: nat)
    ensures t == 10240 * q + 10 * Frame(t) + Subframe(t)
  {
    var f := t / 10;
    q := f / 1024;
    assert f == 1024 * q + f % 1024;
  }

  /** Both formulas step through the eight processes in order, across the wrap of the frame number. */
  lemma HarqPidFollowsTime(t: nat)
    ensures FddHarqPid(Frame(t), Subframe(t)) == t % 8
    ensures DlHarqPid(Frame(t), Subframe(t)) == t % 8
  {
    var q := SplitTime(t);
    var f, s := Frame(t), Subframe(t);
    Mod8(1280 * q, 10 * f + s);
    Mod8(f, 2 * f + s);
  }

  /** `subframe2harq_pid`; 255 marks an uplink process that does not exist. */
  function UlHarqPid(d: Duplex, frame: nat, subframe: nat): nat {
    match d
    case Fdd => FddHarqPid(frame, subframe)
    case Tdd(config) =>
      if config == 1 then
        if subframe in {2, 3} then subframe - 2 else if subframe in {7, 8} then subframe - 5 else 255
      else if config == 3 then
        if 2 <= subframe <= 4 then subframe - 2 else 255
      else if config == 2 then
        if subframe in {2, 7} then subframe / 7 else 255
      else if config == 4 then
        if 2 <= subframe <= 3 then subframe - 2 else 255
      else if config == 5 then
        if subframe == 2 then 0 else 255
      else 255
  }
}
