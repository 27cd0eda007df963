/** Measurement objects and report configurations: built from a controller's request, reported back to the
    controller, and applied by the terminal. Enumerated values are their positions in TS 36.331. */
module RrcObjects {
  import opened Wrappers

  function Or0(o: Option<nat>): nat {
    if o.Some? then o.value else 0
  }

  // ----- Requests

  /** A cell to measure with its individual offset, or the start of a blacklisted range with its length. */
  datatype CellReq = CellReq(pci: nat, extra: Option<nat>)

  datatype ObjectReq =
    | EutraObject(carrier: Option<nat>, bandwidth: Option<nat>, cells: seq<CellReq>, black: seq<CellReq>)
    | OtherObject

  datatype Threshold = Rsrp(level: nat) | Rsrq(level: nat) | NoThreshold

  datatype Purpose = StrongestCells | ReportCgi

  datatype Trigger =
    | Periodical(purpose: Purpose)
    | A1(a1: Threshold)
    | A2(a2: Threshold)
    | A3(offset: int, reportOnLeave: Option<bool>)
    | A4(a4: Threshold)
    | A5(a51: Threshold, a52: Threshold)
    | NoTrigger

  datatype Common = Common(hysteresis: Option<nat>, triggerTime: Option<nat>, triggerQuantity: Option<nat>,
                           reportQuantity: Option<nat>, maxCells: Option<nat>, interval: Option<nat>, amount: Option<nat>)

  datatype ConfReq = EutraConf(common: Common, trigger: Trigger) | OtherConf

  // ----- RRC messages

  /** The defaults of the two optional fields: Q-OffsetRange dB0 and PhysCellIdRange n4. */
  const DB0: nat := 15
  const N4: nat := 0

  datatype Cell = Cell(index: nat, pci: nat, extra: nat)

  /** One list of an object: indices to remove and cells to add or replace. */
  datatype CellDelta = Unchanged | Replace(remove: seq<nat>, add: seq<Cell>)

  datatype Object = Object(carrier: nat, bandwidth: nat, cgiCell: Option<nat>, cells: CellDelta, black: CellDelta)

  datatype Level = LevelRsrp(level: nat) | LevelRsrq(level: nat)

  datatype Event =
    | EventA1(a1: Level)
    | EventA2(a2: Level)
    | EventA3(offset: int, reportOnLeave: bool)
    | EventA4(a4: Level)
    | EventA5(a51: Level, a52: Level)

  datatype TriggerType = Periodic(purpose: Purpose) | OnEvent(event: Event, hysteresis: nat, timeToTrigger: nat)

  datatype Config = Config(trigger: TriggerType, triggerQuantity: nat, reportQuantity: nat, maxCells: nat,
                           interval: nat, amount: nat, siRequest: bool)

  // ----- Building

  function BuiltCell(c: CellReq, m: nat, fallback: nat): Cell {
    Cell(m + 1, c.pci, if c.extra.Some? then c.extra.value else fallback)
  }

  function AllIndices(): seq<nat> {
    seq(32, m requires 0 <= m => m + 1)
  }

  function BuiltCells(l: seq<CellReq>, fallback: nat): CellDelta {
    if l == [] then Unchanged
    else Replace(AllIndices(), seq(|l|, m requires 0 <= m < |l| => BuiltCell(l[m], m, fallback)))
  }

  function BuiltObject(r: ObjectReq, cgi: bool): Object
    requires r.EutraObject?
  {
    Object(Or0(r.carrier), Or0(r.bandwidth), if cgi && r.cells != [] then Some(r.cells[0].pci) else None,
           BuiltCells(r.cells, DB0), BuiltCells(r.black, N4))
  }

  method BuildCells(l: seq<CellReq>, fallback: nat) returns (d: CellDelta)
    ensures d == BuiltCells(l, fallback)
  {
    if l == [] {
      return Unchanged;
    }
    var remove, add := [], [];
    for m := 0 to 32
      invariant |remove| == m && forall i :: 0 <= i < m ==> remove[i] == i + 1
    {
      remove := remove + [m + 1];
    }
    for m := 0 to |l|
      invariant |add| == m && forall i :: 0 <= i < m ==> add[i] == BuiltCell(l[i], i, fallback)
    {
      add := add + [Cell(m + 1, l[m].pci, if l[m].extra.Some? then l[m].extra.value else fallback)];
    }
    assert remove == AllIndices();
    assert add == seq(|l|, m requires 0 <= m < |l| => BuiltCell(l[m], m, fallback));
    return Replace(remove, add);
  }

  /** The object part of `emoai_RRC_meas_reconf`. */
  method BuildObject(r: ObjectReq, cgi: bool) returns (o: Object)
    requires r.EutraObject?
    ensures o == BuiltObject(r, cgi)
  {
    var cells := BuildCells(r.cells, DB0);
    var black := BuildCells(r.black, N4);
    o := Object(Or0(r.carrier), Or0(r.bandwidth), None, cells, black);
    if r.cells != [] && cgi {
      o := o.(cgiCell := Some(r.cells[0].pci));
    }
  }

  function BuiltLevel(t: Threshold): Level {
    match t
    case Rsrp(l) => LevelRsrp(l)
    case Rsrq(l) => LevelRsrq(l)
    case NoThreshold => LevelRsrq(0)
  }

  predicate Buildable(r: ConfReq) {
    r.EutraConf? && !r.trigger.NoTrigger?
  }

  /** Fields that the request leaves out stay zero. The hysteresis and the time to trigger exist only for events. */
  function BuiltConfig(r: ConfReq, siSupported: bool): Config
    requires Buildable(r)
  {
    var c := r.common;
    var on := (e: Event) => OnEvent(e, Or0(c.hysteresis), Or0(c.triggerTime));
    var trigger :=
      match r.trigger
      case Periodical(purpose) => Periodic(purpose)
      case A1(t) => on(EventA1(BuiltLevel(t)))
      case A2(t) => on(EventA2(BuiltLevel(t)))
      case A3(offset, leave) => on(EventA3(offset, leave.Some?))
      case A4(t) => on(EventA4(BuiltLevel(t)))
      case A5(t1, t2) => on(EventA5(BuiltLevel(t1), BuiltLevel(t2)));
    Config(trigger, Or0(c.triggerQuantity), Or0(c.reportQuantity), Or0(c.maxCells), Or0(c.interval), Or0(c.amount),
           r.trigger == Periodical(ReportCgi) && siSupported)
  }

  // ----- Reporting

  function ReportedCells(d: CellDelta): seq<CellReq> {
    if d.Unchanged? then []
    else seq(|d.add|, i requires 0 <= i < |d.add| => CellReq(d.add[i].pci, Some(d.add[i].extra)))
  }

  function ReportedObject(o: Object): ObjectReq {
    EutraObject(Some(o.carrier), Some(o.bandwidth), ReportedCells(o.cells), ReportedCells(o.black))
  }

  method FormCells(d: CellDelta) returns (l: seq<CellReq>)
    ensures l == ReportedCells(d)
  {
    l := [];
    if d.Replace? {
      for i := 0 to |d.add|
        invariant |l| == i && forall j :: 0 <= j < i ==> l[j] == CellReq(d.add[j].pci, Some(d.add[j].extra))
      {
        l := l + [CellReq(d.add[i].pci, Some(d.add[i].extra))];
      }
    }
  }

  /** `emoai_form_EUTRA_meas_obj`. */
  method FormObject(o: Object) returns (r: ObjectReq)
    ensures r == ReportedObject(o)
  {
    var cells := FormCells(o.cells);
    var black := FormCells(o.black);
    r := EutraObject(Some(o.carrier), Some(o.bandwidth), cells, black);
  }

  function ReportedLevel(l: Level): Threshold {
    match l
    case LevelRsrp(v) => Rsrp(v)
    case LevelRsrq(v) => Rsrq(v)
  }

  /** `emoai_form_EUTRA_rep_conf`. For a periodic trigger the hysteresis and time to trigger are read from a
      part of the union that was never written; `stale` stands for what is there. */
  function ReportedConfig(c: Config, stale: (nat, nat)): ConfReq {
    var (trigger, hyst, time) :=
      match c.trigger
      case Periodic(purpose) => (Periodical(purpose), stale.0, stale.1)
      case OnEvent(e, h, t) =>
        var trig := match e
          case EventA1(l) => A1(ReportedLevel(l))
          case EventA2(l) => A2(ReportedLevel(l))
          case EventA3(offset, leave) => A3(offset, Some(leave))
          case EventA4(l) => A4(ReportedLevel(l))
          case EventA5(l1, l2) => A5(ReportedLevel(l1), ReportedLevel(l2));
        (trig, h, t);
    EutraConf(Common(Some(hyst), Some(time), Some(c.triggerQuantity), Some(c.reportQuantity), Some(c.maxCells),
                     Some(c.interval), Some(c.amount)), trigger)
  }

  // ----- The round trip

  /** A list with the default written out. */
  function NormalCells(l: seq<CellReq>, fallback: nat): seq<CellReq> {
    seq(|l|, i requires 0 <= i < |l| => CellReq(l[i].pci, Some(if l[i].extra.Some? then l[i].extra.value else fallback)))
  }

  lemma CellsRoundTrip(l: seq<CellReq>, fallback: nat)
    ensures ReportedCells(BuiltCells(l, fallback)) == NormalCells(l, fallback)
    ensures NormalCells(l, fallback) == l <==> forall i :: 0 <= i < |l| ==> l[i].extra.Some?
  {
    if NormalCells(l, fallback) == l {
      forall i | 0 <= i < |l|
        ensures l[i].extra.Some?
      {
        assert NormalCells(l, fallback)[i].extra.Some?;
      }
    }
  }

  /** Reporting a built object returns the request with the defaults written out, cell by cell and in order, for
      lists of any length; it comes back unchanged exactly when the request leaves nothing out. */
  lemma ObjectRoundTrip(r: ObjectReq, cgi: bool)
    requires r.EutraObject?
    ensures ReportedObject(BuiltObject(r, cgi))
         == EutraObject(Some(Or0(r.carrier)), Some(Or0(r.bandwidth)), NormalCells(r.cells, DB0), NormalCells(r.black, N4))
    ensures ReportedObject(BuiltObject(r, cgi)) == r <==>
      && r.carrier.Some? && r.bandwidth.Some?
      && (forall i :: 0 <= i < |r.cells| ==> r.cells[i].extra.Some?)
      && (forall i :: 0 <= i < |r.black| ==> r.black[i].extra.Some?)
  {
    CellsRoundTrip(r.cells, DB0);
    CellsRoundTrip(r.black, N4);
  }

  /** The reported field is the requested one, or 0 where the request had none. */
  predicate Kept(asked: Option<nat>, reported: Option<nat>) {
    reported == Some(Or0(asked))
  }

  predicate KindsSet(t: Trigger) {
    match t
    case A1(x) => !x.NoThreshold?
    case A2(x) => !x.NoThreshold?
    case A4(x) => !x.NoThreshold?
    case A5(x, y) => !x.NoThreshold? && !y.NoThreshold?
    case A3(_, leave) => leave == Some(true)
    case _ => true
  }

  /** Reporting a built configuration returns every explicitly present common field (the two event fields for
      events), and the trigger with its thresholds exactly when these are set; for A3 exactly when reporting on
      leave was asked for, since the request's flag stands for its value. */
  lemma ConfigRoundTrip(r: ConfReq, si: bool, stale: (nat, nat))
    requires Buildable(r)
    ensures var back := ReportedConfig(BuiltConfig(r, si), stale);
      && back.EutraConf?
      && (back.trigger == r.trigger <==> KindsSet(r.trigger))
      && (!r.trigger.Periodical? ==> Kept(r.common.hysteresis, back.common.hysteresis) && Kept(r.common.triggerTime, back.common.triggerTime))
      && Kept(r.common.triggerQuantity, back.common.triggerQuantity)
      && Kept(r.common.reportQuantity, back.common.reportQuantity)
      && Kept(r.common.maxCells, back.common.maxCells)
      && Kept(r.common.interval, back.common.interval)
      && Kept(r.common.amount, back.common.amount)
  {
  }

  /** What depends on the terminal: only a CGI request names a cell, the first one, and only it asks for system
      information to be read during autonomous gaps, if the terminal can. */
  lemma CgiRequestIff(o: ObjectReq, r: ConfReq, si: bool)
    requires o.EutraObject? && Buildable(r)
    ensures var cgi := r.trigger == Periodical(ReportCgi);
      && (BuiltConfig(r, si).siRequest <==> si && cgi)
      && BuiltObject(o, cgi).cgiCell == (if cgi && |o.cells| > 0 then Some(o.cells[0].pci) else None)
  {
  }

  /** Every requested field has its own place in the message. */
  lemma BuiltFields(r: ConfReq, si: bool)
    requires Buildable(r)
    ensures var c, b := r.common, BuiltConfig(r, si);
      && [b.triggerQuantity, b.reportQuantity, b.maxCells, b.interval, b.amount]
         == [Or0(c.triggerQuantity), Or0(c.reportQuantity), Or0(c.maxCells), Or0(c.interval), Or0(c.amount)]
      && (b.trigger.Periodic? <==> r.trigger.Periodical?)
      && (b.trigger.OnEvent? ==>
            && b.trigger.hysteresis == Or0(c.hysteresis) && b.trigger.timeToTrigger == Or0(c.triggerTime)
            && var e := b.trigger.event;
               && (e.EventA1? <==> r.trigger.A1?) && (e.EventA2? <==> r.trigger.A2?) && (e.EventA3? <==> r.trigger.A3?)
               && (e.EventA4? <==> r.trigger.A4?) && (e.EventA5? <==> r.trigger.A5?))
  {
  }

  // ----- What the terminal holds

  type CellMap = map<nat, (nat, nat)>

  /** Section 5.5.2.5 of TS 36.331: remove the listed indices, then add or replace the listed cells. */
  ghost function CellsApplied(m: CellMap, d: CellDelta): CellMap {
    if d.Unchanged? then m else CellsAdded(m - (set i | i in d.remove), d.add)
  }

  ghost function CellsAdded(m: CellMap, add: seq<Cell>): CellMap {
    if add == [] then m
    else
      var c := add[|add| - 1];
      CellsAdded(m, add[..|add| - 1])[c.index := (c.pci, c.extra)]
  }

  function RequestedAt(l: seq<CellReq>, fallback: nat, k: nat): (nat, nat)
    requires 1 <= k <= |l|
  {
    (l[k - 1].pci, if l[k - 1].extra.Some? then l[k - 1].extra.value else fallback)
  }

  ghost function RequestedCells(l: seq<CellReq>, fallback: nat): CellMap {
    map k: nat | 1 <= k <= |l| :: RequestedAt(l, fallback, k)
  }

  lemma InAllIndices(k: nat)
    requires 1 <= k <= 32
    ensures k in AllIndices()
  {
    assert AllIndices()[k - 1] == k;
  }

  lemma {:induction false} AddedAll(l: seq<CellReq>, fallback: nat, n: nat)
    requires n <= |l|
    ensures CellsAdded(map[], seq(n, i requires 0 <= i < n => BuiltCell(l[i], i, fallback))) == RequestedCells(l[..n], fallback)
  {
    if n > 0 {
      var add := seq(n, i requires 0 <= i < n => BuiltCell(l[i], i, fallback));
      assert add[..n - 1] == seq(n - 1, i requires 0 <= i < n - 1 => BuiltCell(l[i], i, fallback));
      AddedAll(l, fallback, n - 1);
    }
  }

  /** Removing indices 1 to 32 and then adding leaves the terminal with exactly the requested cells, whatever it
      held before; but an empty list sends nothing, so the old cells stay. The terminal therefore ends with the
      requested cells exactly when some were requested or it had none. */
  lemma CellsReplacedIff(m: CellMap, l: seq<CellReq>, fallback: nat)
    requires forall k :: k in m ==> 1 <= k <= 32
    ensures CellsApplied(m, BuiltCells(l, fallback)) == RequestedCells(l, fallback) <==> l != [] || m == map[]
    ensures l == [] ==> CellsApplied(m, BuiltCells(l, fallback)) == m
  {
    if l != [] {
      forall k | k in m
        ensures k in AllIndices()
      {
        InAllIndices(k);
      }
      assert m - (set i | i in AllIndices()) == map[];
      AddedAll(l, fallback, |l|);
      assert l[..|l|] == l;
    } else {
      assert RequestedCells(l, fallback) == map[];
    }
  }
}
