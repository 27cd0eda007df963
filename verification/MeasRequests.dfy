/** Measurement requests from the controller: validation against the registered triggers, allocation of numbers,
    reconfiguration, registration; and removal when a report arrives for which no trigger is registered. */
module MeasRequests {
  import opened Wrappers
  import opened RrcObjects
  import opened MeasTables
  import opened Bands

  /** A registered trigger: transaction, terminal, measurement, and the request with the numbers given to it. */
  datatype Context = Context(tid: nat, rnti: nat, measId: nat, obj: ObjectReq, o: nat, conf: ConfReq, c: nat)

  /** What the code asks the terminal's capabilities and the site's configuration for. */
  datatype Caps = Caps(bands: seq<int>, a4a5: bool, intraPeriodic: bool, interPeriodic: bool, si: bool,
                       operatingFrequency: int, operatingBand: int)

  datatype Request = Request(tid: nat, rnti: nat, obj: ObjectReq, conf: ConfReq)

  /** The tables of every terminal, and the registered triggers in the order of the tree. */
  datatype World = World(ues: map<nat, Tables>, ctxts: seq<Context>)

  // ----- Validation

  /** The allowed measurement bandwidths in tenths of MHz. */
  function Bandwidth(i: nat): int {
    if i == 0 then 14 else if i == 1 then 30 else if i == 2 then 50 else if i == 3 then 100 else if i == 4 then 150 else 200
  }

  /** The checks on an object that do not look at other triggers. */
  predicate ObjectFits(p: Plan, caps: Caps, r: ObjectReq)
    requires r.EutraObject?
  {
    && r.bandwidth.Some? && r.carrier.Some?
    && |r.cells| <= 32 && |r.black| <= 32
    && var t, f := Find(p.tdd, r.carrier.value), Find(p.fdd, r.carrier.value);
       && (t.Some? || f.Some?)
       && var b := if t.Some? then p.tdd[t.value] else p.fdd[f.value];
          var bw, freq := Bandwidth(r.bandwidth.value), FrequencyIn(b, r.carrier.value);
          && (exists n :: n in caps.bands && ((t.Some? && n == p.tdd[t.value].number) || (f.Some? && n == p.fdd[f.value].number)))
          && bw <= 10 * b.width
          && freq + bw / 2 <= b.base + 10 * b.width
          && freq - bw / 2 >= b.base
  }

  /** The bandwidths in resource blocks, in the order of TS 36.331. */
  const BLOCKS: seq<nat> := [6, 15, 25, 50, 75, 100]

  /** Half the measured bandwidth in tenths of MHz. */
  function HalfWidth(i: nat): nat
    requires i < 6
  {
    if i == 0 then 7 else BLOCKS[i]
  }

  /** An object is accepted exactly when its carrier keeps half the bandwidth from both ends of a band that the terminal
      supports, and its lists have at most 32 cells. That the bandwidth fits into the band follows. */
  lemma ObjectFitsIff(p: Plan, caps: Caps, r: ObjectReq)
    requires r.EutraObject? && (r.bandwidth.Some? ==> r.bandwidth.value < 6)
    ensures ObjectFits(p, caps, r) <==>
      && r.bandwidth.Some? && r.carrier.Some? && |r.cells| <= 32 && |r.black| <= 32
      && var e, half := r.carrier.value, HalfWidth(r.bandwidth.value);
         var t, f := Find(p.tdd, e), Find(p.fdd, e);
         && (t.Some? || f.Some?)
         && ((t.Some? && p.tdd[t.value].number in caps.bands) || (f.Some? && p.fdd[f.value].number in caps.bands))
         && var b := if t.Some? then p.tdd[t.value] else p.fdd[f.value];
            e - half >= b.low && e + half <= b.low + 10 * b.width
  {
  }

  /** The answer of the first trigger that uses the frequency: its object's number, or -1 for another carrier
      number on the same frequency. The scan does not look at the terminal. */
  function ScanObject(p: Plan, ctxts: seq<Context>, carrier: nat): int {
    if ctxts == [] then 0
    else
      var x := ctxts[0];
      var cmp := if x.obj.EutraObject? then Compare(p, carrier, Or0(x.obj.carrier)) else 0;
      if cmp == 1 then x.o else if cmp == -1 then -1 else ScanObject(p, ctxts[1..], carrier)
  }

  /** `rrc_meas_val_trigg_measObj`: -1 is an error, 0 a new object. */
  function CheckObject(p: Plan, caps: Caps, ctxts: seq<Context>, r: ObjectReq): int {
    if !r.EutraObject? then 0
    else if !ObjectFits(p, caps, r) then -1
    else ScanObject(p, ctxts, Or0(r.carrier))
  }

  method ValidateObject(p: Plan, caps: Caps, ctxts: seq<Context>, r: ObjectReq) returns (v: int)
    ensures v == CheckObject(p, caps, ctxts, r)
  {
    if !r.EutraObject? {
      return 0;
    }
    if !ObjectFits(p, caps, r) {
      return -1;
    }
    for i := 0 to |ctxts|
      invariant ScanObject(p, ctxts, Or0(r.carrier)) == ScanObject(p, ctxts[i..], Or0(r.carrier))
    {
      var cmp := 0;
      if ctxts[i].obj.EutraObject? {
        cmp := Compare(p, Or0(r.carrier), Or0(ctxts[i].obj.carrier));
      }
      assert ctxts[i..][0] == ctxts[i] && ctxts[i..][1..] == ctxts[i + 1..];
      if cmp > 0 {
        return ctxts[i].o;
      } else if cmp == -1 {
        return -1;
      }
    }
    v := 0;
  }

  /** A present field that differs from the stored one; the stored one has its default filled in. */
  predicate Differs(asked: Option<nat>, stored: Option<nat>, fallback: nat) {
    asked.Some? && asked.value != if stored.Some? then stored.value else fallback
  }

  /** Thresholds of different kinds are not compared. */
  predicate LevelsDiffer(a: Threshold, b: Threshold) {
    (a.Rsrp? && b.Rsrp? && a.level != b.level) || (a.Rsrq? && b.Rsrq? && a.level != b.level)
  }

  /** `emoai_comp_EUTRA_repConf`. */
  predicate SameConf(r: ConfReq, s: ConfReq)
    requires r.EutraConf? && s.EutraConf?
  {
    var a, b := r.common, s.common;
    && !Differs(a.hysteresis, b.hysteresis, 0) && !Differs(a.triggerTime, b.triggerTime, 0)
    && !Differs(a.triggerQuantity, b.triggerQuantity, 0) && !Differs(a.reportQuantity, b.reportQuantity, 1)
    && !Differs(a.maxCells, b.maxCells, 2) && !Differs(a.interval, b.interval, 6) && !Differs(a.amount, b.amount, 7)
    && match (r.trigger, s.trigger)
       case (Periodical(x), Periodical(y)) => x == y
       case (A1(x), A1(y)) => !LevelsDiffer(x, y)
       case (A2(x), A2(y)) => !LevelsDiffer(x, y)
       case (A3(x, u), A3(y, v)) => x == y && (u == Some(true) <==> v == Some(true))
       case (A4(x), A4(y)) => !LevelsDiffer(x, y)
       case (A5(x1, x2), A5(y1, y2)) => !LevelsDiffer(x1, y1) && !LevelsDiffer(x2, y2)
       case (NoTrigger, NoTrigger) => true
       case _ => false
  }

  /** A field of a request: the one asked for, else the stored one, else the default. */
  function Over(asked: Option<nat>, stored: Option<nat>, fallback: nat): Option<nat> {
    if asked.Some? then asked else Some(if stored.Some? then stored.value else fallback)
  }

  /** The common fields `a` written over those of a stored request, whose defaults are filled in. */
  function Overlay(a: Common, b: Common): Common {
    Common(Over(a.hysteresis, b.hysteresis, 0), Over(a.triggerTime, b.triggerTime, 0),
           Over(a.triggerQuantity, b.triggerQuantity, 0), Over(a.reportQuantity, b.reportQuantity, 1),
           Over(a.maxCells, b.maxCells, 2), Over(a.interval, b.interval, 6), Over(a.amount, b.amount, 7))
  }

  const UNSET: Common := Common(None, None, None, None, None, None, None)

  /** The stored request with its defaults written out. */
  function Filled(s: ConfReq): (r: ConfReq)
    requires s.EutraConf?
    ensures r.EutraConf? && r.trigger == s.trigger
  {
    EutraConf(Overlay(UNSET, s.common), s.trigger)
  }

  /** A threshold of another kind than the stored one is taken for the stored one. */
  function Taken(asked: Threshold, stored: Threshold): Threshold {
    if asked.Rsrp? == stored.Rsrp? && asked.Rsrq? == stored.Rsrq? then asked else stored
  }

  /** So the trigger as it is compared. Of A3's reporting on leave only the value counts. */
  function Compared(asked: Trigger, stored: Trigger): Trigger {
    match (asked, stored)
    case (A1(x), A1(y)) => A1(Taken(x, y))
    case (A2(x), A2(y)) => A2(Taken(x, y))
    case (A3(x, u), A3(_, v)) => A3(x, if u == Some(true) <==> v == Some(true) then v else u)
    case (A4(x), A4(y)) => A4(Taken(x, y))
    case (A5(x1, x2), A5(y1, y2)) => A5(Taken(x1, y1), Taken(x2, y2))
    case _ => asked
  }

  /** When a stored configuration is taken for the requested one, for all requests: exactly when writing the request over
      it changes nothing, thresholds of another kind aside. */
  lemma SameConfIff(r: ConfReq, s: ConfReq)
    requires r.EutraConf? && s.EutraConf?
    ensures SameConf(r, s) <==> EutraConf(Overlay(r.common, s.common), Compared(r.trigger, s.trigger)) == Filled(s)
  {
  }

  predicate AllSet(c: Common) {
    && c.hysteresis.Some? && c.triggerTime.Some? && c.triggerQuantity.Some? && c.reportQuantity.Some?
    && c.maxCells.Some? && c.interval.Some? && c.amount.Some?
  }

  /** Thresholds of the same kind, a threshold left out being built as level 0 of RSRQ. */
  predicate KindsAgree(x: Threshold, y: Threshold) {
    (x.Rsrp? <==> y.Rsrp?) && ((x.Rsrq? <==> y.Rsrq?) || {x, y} == {NoThreshold, Rsrq(0)})
  }

  /** The triggers have thresholds of the same kinds, and name reporting on leave both or neither. */
  predicate Alike(t: Trigger, u: Trigger) {
    match (t, u)
    case (A1(x), A1(y)) => KindsAgree(x, y)
    case (A2(x), A2(y)) => KindsAgree(x, y)
    case (A3(_, x), A3(_, y)) => x.Some? <==> y.Some?
    case (A4(x), A4(y)) => KindsAgree(x, y)
    case (A5(x1, x2), A5(y1, y2)) => KindsAgree(x1, y1) && KindsAgree(x2, y2)
    case _ => true
  }

  /** What reuse does to the configuration that is already there. With every common field present, a request that is
      taken for a stored one is built as that one is, defaults written out, exactly if the triggers are alike. */
  lemma ReuseKeepsConfigIff(r: ConfReq, s: ConfReq, si: bool)
    requires Buildable(r) && Buildable(s) && AllSet(r.common) && SameConf(r, s)
    ensures BuiltConfig(r, si) == BuiltConfig(Filled(s), si) <==> Alike(r.trigger, s.trigger)
  {
  }

  /** Alike triggers and all fields present: the comparison is equality of what is built, except that a periodic
      configuration has neither hysteresis nor time to trigger, and that of A3's reporting on leave the value is
      compared but the naming is built. */
  lemma SameConfBuildsSame(r: ConfReq, s: ConfReq, si: bool)
    requires Buildable(r) && Buildable(s) && AllSet(r.common) && Alike(r.trigger, s.trigger)
    ensures SameConf(r, s) <==>
      && BuiltConfig(r, si) == BuiltConfig(Filled(s), si)
      && (r.trigger.Periodical? ==> r.common.hysteresis == Filled(s).common.hysteresis
                                    && r.common.triggerTime == Filled(s).common.triggerTime)
      && (r.trigger.A3? && s.trigger.A3? ==> (r.trigger.reportOnLeave == Some(true) <==> s.trigger.reportOnLeave == Some(true)))
  {
  }

  /** An RSRP threshold asked for where an RSRQ threshold is stored: the request is given the stored number, and building
      it replaces the stored threshold. */
  lemma OtherKindReplacesThreshold() returns (r: ConfReq, s: ConfReq)
    ensures Buildable(r) && Buildable(s) && SameConf(r, s) && AllSet(r.common)
    ensures BuiltConfig(r, false) != BuiltConfig(Filled(s), false)
  {
    s := EutraConf(UNSET, A1(Rsrq(20)));
    r := EutraConf(Overlay(UNSET, UNSET), A1(Rsrp(40)));
    ReuseKeepsConfigIff(r, s, false);
  }

  /** The checks on a configuration that do not look at other triggers. The band number is only determined for
      A1 and A2, so a periodic request is always taken as inter-frequency. */
  predicate ConfFits(p: Plan, caps: Caps, carrier: nat, r: ConfReq)
    requires r.EutraConf?
  {
    && (r.trigger.A1? || r.trigger.A2? ==> Frequency(p, carrier) != 0 && Frequency(p, carrier) == caps.operatingFrequency)
    && (r.common.hysteresis.Some? ==> r.common.hysteresis.value <= 30)
    && (r.common.maxCells.Some? ==> r.common.maxCells.value <= 8)
    && (r.trigger.A4? || r.trigger.A5? ==> caps.a4a5)
    && (r.trigger.Periodical? ==> if caps.operatingBand == 0 then caps.intraPeriodic else caps.interPeriodic)
  }

  /** With the bands of the code: events A1 and A2 are accepted only on a carrier of the serving frequency; the values are
      those of TS 36.331 (hysteresis 0 to 30, at most 8 cells); and a periodic request depends on inter-frequency
      support alone, since a real operating band is never 0. */
  lemma ConfFitsIff(caps: Caps, carrier: nat, r: ConfReq)
    requires r.EutraConf? && caps.operatingBand > 0
    ensures ConfFits(Eutra(), caps, carrier, r) <==>
      && (r.trigger.A1? || r.trigger.A2? ==> BandOf(Eutra(), carrier).Some? && Frequency(Eutra(), carrier) == caps.operatingFrequency)
      && (r.trigger.A4? || r.trigger.A5? ==> caps.a4a5)
      && (r.trigger.Periodical? ==> caps.interPeriodic)
      && (r.common.hysteresis == None || r.common.hysteresis.value <= 30)
      && (r.common.maxCells == None || r.common.maxCells.value <= 8)
  {
    if BandOf(Eutra(), carrier).Some? {
      FrequencyInsideIff(carrier);
      var b := BandOf(Eutra(), carrier).value;
      assert b in Eutra().tdd || b in Eutra().fdd;
      WidthsFitIff(b);
    }
  }

  /** A CGI request is refused as soon as any trigger is registered. */
  function ScanConf(ctxts: seq<Context>, r: ConfReq): int
    requires r.EutraConf?
  {
    if ctxts == [] then 0
    else if ctxts[0].conf.EutraConf? && IsCgi(r) then -1
    else if ctxts[0].conf.EutraConf? && SameConf(r, ctxts[0].conf) then ctxts[0].c
    else ScanConf(ctxts[1..], r)
  }

  /** What the scan answers: the number of the first trigger whose configuration is taken for the requested one, 0 if
      there is none; for a CGI request -1 as soon as there is a trigger. */
  lemma {:induction false} ScanConfMeaning(ctxts: seq<Context>, r: ConfReq) returns (i: nat)
    requires r.EutraConf? && forall x :: x in ctxts ==> x.conf.EutraConf?
    ensures i <= |ctxts|
    ensures IsCgi(r) ==> ScanConf(ctxts, r) == if ctxts == [] then 0 else -1
    ensures !IsCgi(r) ==>
      && (forall j :: 0 <= j < i ==> !SameConf(r, ctxts[j].conf))
      && (i < |ctxts| ==> SameConf(r, ctxts[i].conf))
      && ScanConf(ctxts, r) == if i < |ctxts| then ctxts[i].c else 0
    decreases |ctxts|
  {
    if ctxts == [] {
      i := 0;
    } else if SameConf(r, ctxts[0].conf) {
      assert ctxts[0] in ctxts;
      i := 0;
    } else {
      assert ctxts[0] in ctxts;
      i := ScanConfMeaning(ctxts[1..], r);
      i := i + 1;
    }
  }

  /** `rrc_meas_val_trigg_repConf`. */
  function CheckConf(p: Plan, caps: Caps, ctxts: seq<Context>, carrier: nat, r: ConfReq): int {
    if !r.EutraConf? then 0
    else if !ConfFits(p, caps, carrier, r) then -1
    else ScanConf(ctxts, r)
  }

  method ValidateConf(p: Plan, caps: Caps, ctxts: seq<Context>, carrier: nat, r: ConfReq) returns (v: int)
    ensures v == CheckConf(p, caps, ctxts, carrier, r)
  {
    if !r.EutraConf? {
      return 0;
    }
    if !ConfFits(p, caps, carrier, r) {
      return -1;
    }
    for i := 0 to |ctxts|
      invariant ScanConf(ctxts, r) == ScanConf(ctxts[i..], r)
    {
      assert ctxts[i..][0] == ctxts[i] && ctxts[i..][1..] == ctxts[i + 1..];
      if ctxts[i].conf.EutraConf? {
        if IsCgi(r) {
          return -1;
        }
        if SameConf(r, ctxts[i].conf) {
          return ctxts[i].c;
        }
      }
    }
    v := 0;
  }

  // ----- Allocation

  /** The number of the first free slot, 0 if there is none. */
  function FirstFree<T>(slots: seq<Option<T>>, i: nat): (n: nat)
    requires i <= |slots|
    ensures n <= |slots| && (n > 0 ==> n > i && slots[n - 1].None?)
    ensures forall k :: i <= k < (if n > 0 then n - 1 else |slots|) ==> slots[k].Some?
    decreases |slots| - i
  {
    if i == |slots| then 0 else if slots[i].None? then i + 1 else FirstFree(slots, i + 1)
  }

  method FindFree<T>(slots: seq<Option<T>>) returns (n: nat)
    ensures n == FirstFree(slots, 0)
  {
    for i := 0 to |slots|
      invariant FirstFree(slots, 0) == FirstFree(slots, i)
    {
      if slots[i].None? {
        return i + 1;
      }
    }
    n := 0;
  }

  // ----- The tree of triggers

  /** Insertion in the order of transactions; an equal transaction is already there and nothing happens. */
  function Insert(ctxts: seq<Context>, x: Context): seq<Context> {
    if ctxts == [] then [x]
    else if x.tid < ctxts[0].tid then [x] + ctxts
    else if x.tid == ctxts[0].tid then ctxts
    else [ctxts[0]] + Insert(ctxts[1..], x)
  }

  /** The trigger of a terminal's measurement, as its position; `|ctxts|` if there is none. */
  function Lookup(ctxts: seq<Context>, rnti: nat, measId: nat): (i: nat)
    ensures i <= |ctxts| && (i < |ctxts| ==> ctxts[i].rnti == rnti && ctxts[i].measId == measId)
    ensures forall k :: 0 <= k < i ==> !(ctxts[k].rnti == rnti && ctxts[k].measId == measId)
  {
    if ctxts == [] || (ctxts[0].rnti == rnti && ctxts[0].measId == measId) then 0
    else 1 + Lookup(ctxts[1..], rnti, measId)
  }

  function FirstWith(ctxts: seq<Context>, o: nat): (i: nat)
    ensures i <= |ctxts| && (i < |ctxts| ==> ctxts[i].o == o)
    ensures forall k :: 0 <= k < i ==> ctxts[k].o != o
  {
    if ctxts == [] || ctxts[0].o == o then 0 else 1 + FirstWith(ctxts[1..], o)
  }

  /** `rrc_meas_trigg_update_measObj`: the stored object numbered `o` takes bandwidth and cells of the new request;
      the first one found, of whichever terminal. */
  function Update(ctxts: seq<Context>, o: nat, r: ObjectReq): seq<Context>
    requires r.EutraObject?
  {
    var i := FirstWith(ctxts, o);
    if i == |ctxts| || !ctxts[i].obj.EutraObject? then ctxts
    else ctxts[i := ctxts[i].(obj := ctxts[i].obj.(bandwidth := r.bandwidth, cells := r.cells, black := r.black))]
  }

  /** Only that trigger's bandwidth and cells change. */
  lemma UpdateMeaning(ctxts: seq<Context>, o: nat, r: ObjectReq, i: nat)
    requires r.EutraObject? && i < |ctxts| && ctxts[i].obj.EutraObject? && ctxts[i].o == o
    requires forall k :: 0 <= k < i ==> ctxts[k].o != o
    ensures var x := Update(ctxts, o, r)[i];
      && Update(ctxts, o, r) == ctxts[i := x] && x == ctxts[i].(obj := x.obj)
      && x.obj.EutraObject? && x.obj.carrier == ctxts[i].obj.carrier
      && x.obj.bandwidth == r.bandwidth && x.obj.cells == r.cells && x.obj.black == r.black
  {
    assert FirstWith(ctxts, o) == i;
  }

  // ----- The request

  /** The numbers that a request gets: measurement, object and configuration, or nothing. */
  datatype Numbers = Refused | Numbers(m: nat, o: nat, c: nat, reused: bool)

  function Assign(p: Plan, caps: Caps, t: Tables, ctxts: seq<Context>, q: Request): (r: Numbers)
    requires Shaped(t)
  {
    var vo := CheckObject(p, caps, ctxts, q.obj);
    if vo == -1 || !q.obj.EutraObject? then Refused
    else
      var vc := CheckConf(p, caps, ctxts, Or0(q.obj.carrier), q.conf);
      var m := FirstFree(t.ids, 0);
      var o := if vo > 0 then vo else FirstFree(t.objs, 0);
      var c := if vc > 0 then vc else FirstFree(t.confs, 0);
      if vc == -1 || m == 0 || o <= 0 || c <= 0 || !q.conf.EutraConf? then Refused
      else Numbers(m, o, c, vo > 0)
  }

  /** The triggers after a request was looked at: a reused object's trigger is updated even if the request is then
      refused for lack of a configuration slot. */
  function Touched(p: Plan, caps: Caps, t: Tables, ctxts: seq<Context>, q: Request): seq<Context>
    requires Shaped(t)
  {
    var vo := CheckObject(p, caps, ctxts, q.obj);
    if q.obj.EutraObject? && vo > 0 && CheckConf(p, caps, ctxts, Or0(q.obj.carrier), q.conf) != -1 && FirstFree(t.ids, 0) > 0
    then Update(ctxts, vo, q.obj)
    else ctxts
  }

  /** Exactly the requests that reuse an object, have an acceptable configuration and find a measurement slot change the
      triggers. */
  lemma TouchedIff(p: Plan, caps: Caps, t: Tables, ctxts: seq<Context>, q: Request)
    requires Shaped(t)
    ensures var vo := CheckObject(p, caps, ctxts, q.obj);
      Touched(p, caps, t, ctxts, q)
      == if q.obj.EutraObject? && vo >= 1 && CheckConf(p, caps, ctxts, Or0(q.obj.carrier), q.conf) != -1 && None in t.ids
         then Update(ctxts, vo, q.obj) else ctxts
  {
  }

  /** A request is accepted exactly when object and configuration are, no trigger on the frequency has another carrier
      number, it is no CGI request beside other triggers, and every slot it needs is free. */
  lemma AcceptedIff(p: Plan, caps: Caps, t: Tables, ctxts: seq<Context>, q: Request)
    requires Shaped(t) && CtxtsInRange(ctxts)
    ensures Assign(p, caps, t, ctxts, q).Numbers? <==>
      && q.obj.EutraObject? && q.conf.EutraConf?
      && ObjectFits(p, caps, q.obj) && ConfFits(p, caps, Or0(q.obj.carrier), q.conf)
      && var vo, vc := ScanObject(p, ctxts, Or0(q.obj.carrier)), ScanConf(ctxts, q.conf);
         && vo >= 0 && vc >= 0 && None in t.ids && (vo == 0 ==> None in t.objs) && (vc == 0 ==> None in t.confs)
  {
    if q.obj.EutraObject? {
      ScanRange(p, ctxts, Or0(q.obj.carrier));
    }
    if q.conf.EutraConf? {
      ScanConfRange(ctxts, q.conf);
    }
  }

  /** Numbers in triggers index the tables. */
  ghost predicate CtxtsInRange(ctxts: seq<Context>) {
    forall x :: x in ctxts ==> InRange(x.measId) && InRange(x.o) && InRange(x.c) && x.obj.EutraObject? && x.conf.EutraConf?
  }

  lemma {:induction false} ScanRange(p: Plan, ctxts: seq<Context>, carrier: nat)
    requires CtxtsInRange(ctxts)
    ensures -1 <= ScanObject(p, ctxts, carrier) <= SLOTS
  {
    if ctxts != [] {
      assert ctxts[0] in ctxts;
      ScanRange(p, ctxts[1..], carrier);
    }
  }

  lemma {:induction false} ScanConfRange(ctxts: seq<Context>, r: ConfReq)
    requires CtxtsInRange(ctxts) && r.EutraConf?
    ensures -1 <= ScanConf(ctxts, r) <= SLOTS
  {
    if ctxts != [] {
      assert ctxts[0] in ctxts;
      ScanConfRange(ctxts[1..], r);
    }
  }

  lemma AssignInRange(p: Plan, caps: Caps, t: Tables, ctxts: seq<Context>, q: Request)
    requires Shaped(t) && CtxtsInRange(ctxts)
    ensures var n := Assign(p, caps, t, ctxts, q);
      n.Numbers? ==> InRange(n.m) && InRange(n.o) && InRange(n.c) && t.ids[n.m - 1].None?
                     && q.obj.EutraObject? && q.conf.EutraConf?
  {
    if q.obj.EutraObject? {
      ScanRange(p, ctxts, Or0(q.obj.carrier));
    }
    if q.conf.EutraConf? {
      ScanConfRange(ctxts, q.conf);
    }
  }

  ghost predicate WorldOk(w: World) {
    (forall u :: u in w.ues ==> Shaped(w.ues[u])) && CtxtsInRange(w.ctxts)
  }

  function Registered(q: Request, n: Numbers): Context
    requires n.Numbers?
  {
    Context(q.tid, q.rnti, n.m, q.obj, n.o, q.conf, n.c)
  }

  /** `emoai_RRC_measurements`. */
  function Requested(p: Plan, caps: Caps, w: World, q: Request): World
    requires WorldOk(w) && q.rnti in w.ues
  {
    var t := w.ues[q.rnti];
    var n, ctxts := Assign(p, caps, t, w.ctxts, q), Touched(p, caps, t, w.ctxts, q);
    if n.Refused? then World(w.ues, ctxts)
    else
      AssignInRange(p, caps, t, w.ctxts, q);
      var (t', out) := Added(t, n.m, Some(q.obj), n.o, Some(q.conf), n.c, caps.si);
      World(w.ues[q.rnti := t'], if out.Sent? then Insert(ctxts, Registered(q, n)) else ctxts)
  }

  /** The part of `emoai_trig_rrc_measurements` that changes state: a report of `measId` arrives; `known` is
      whether the agent still has the trigger's transaction. */
  function Reported(w: World, rnti: nat, measId: nat, known: bool): World
    requires WorldOk(w) && rnti in w.ues && InRange(measId)
  {
    var t, i := w.ues[rnti], Lookup(w.ctxts, rnti, measId);
    if i == |w.ctxts| then w.(ues := w.ues[rnti := Removed(t, measId).0])
    else if !known then World(w.ues[rnti := Removed(t, measId).0], w.ctxts[..i] + w.ctxts[i + 1..])
    else w
  }

  class Agent {
    const p: Plan
    var ues: map<nat, Tables>
    var ctxts: seq<Context>

    ghost function State(): World
      reads this
    {
      World(ues, ctxts)
    }

    /** The first stored object with that number takes the new bandwidth and cells. */
    method UpdateObject(o: nat, r: ObjectReq)
      requires r.EutraObject? && CtxtsInRange(ctxts)
      modifies this`ctxts
      ensures ctxts == Update(old(ctxts), o, r)
    {
      var i := 0;
      while i < |ctxts| && ctxts[i].o != o
        invariant 0 <= i <= |ctxts| && ctxts == old(ctxts)
        invariant forall k :: 0 <= k < i ==> ctxts[k].o != o
      {
        i := i + 1;
      }
      if i < |ctxts| {
        assert ctxts[i] in ctxts;
        ctxts := ctxts[i := ctxts[i].(obj := ctxts[i].obj.(bandwidth := r.bandwidth, cells := r.cells, black := r.black))];
      }
    }

    /** Validation and the choice of numbers; `measId` is 0 or the free slot that the reply names. */
    method AssignNumbers(caps: Caps, q: Request) returns (n: Numbers, measId: nat)
      requires WorldOk(State()) && q.rnti in ues
      modifies this`ctxts
      ensures n == Assign(p, caps, ues[q.rnti], old(ctxts), q)
      ensures ctxts == Touched(p, caps, ues[q.rnti], old(ctxts), q)
      ensures n.Numbers? ==> measId == n.m
    {
      n, measId := Refused, 0;
      var t := ues[q.rnti];
      var vo := ValidateObject(p, caps, ctxts, q.obj);
      if vo == -1 || !q.obj.EutraObject? {
        return;
      }
      var vc := ValidateConf(p, caps, ctxts, Or0(q.obj.carrier), q.conf);
      if vc == -1 {
        return;
      }
      measId := FindFree(t.ids);
      if measId == 0 {
        return;
      }
      var reused := vo > 0;
      if reused {
        UpdateObject(vo, q.obj);
      } else {
        vo := FindFree(t.objs);
      }
      if vo <= 0 {
        return;
      }
      if vc <= 0 {
        vc := FindFree(t.confs);
      }
      if vc <= 0 || !q.conf.EutraConf? {
        return;
      }
      n := Numbers(measId, vo, vc, reused);
    }

    /** `emoai_RRC_measurements`; `ok` is the status that is replied. */
    method Measurements(caps: Caps, q: Request) returns (ok: bool, measId: nat)
      requires WorldOk(State()) && q.rnti in ues
      modifies this
      ensures State() == Requested(p, caps, old(State()), q)
      ensures ok ==> InRange(measId) && ues[q.rnti].ids[measId - 1].Some? && old(ues[q.rnti].ids[measId - 1].None?)
    {
      ok := false;
      AssignInRange(p, caps, ues[q.rnti], ctxts, q);
      var n;
      n, measId := AssignNumbers(caps, q);
      if n.Numbers? {
        var (t', out) := Added(ues[q.rnti], n.m, Some(q.obj), n.o, Some(q.conf), n.c, caps.si);
        ues := ues[q.rnti := t'];
        if out.Sent? {
          ctxts := Insert(ctxts, Context(q.tid, q.rnti, n.m, q.obj, n.o, q.conf, n.c));
          ok := true;
        }
      }
    }

    /** A measurement report arrives. */
    method ReportArrives(rnti: nat, measId: nat, known: bool)
      requires WorldOk(State()) && rnti in ues && InRange(measId)
      modifies this
      ensures State() == Reported(old(State()), rnti, measId, known)
    {
      var i := 0;
      while i < |ctxts| && !(ctxts[i].rnti == rnti && ctxts[i].measId == measId)
        invariant 0 <= i <= |ctxts| && ctxts == old(ctxts) && ues == old(ues)
        invariant forall k :: 0 <= k < i ==> !(ctxts[k].rnti == rnti && ctxts[k].measId == measId)
      {
        i := i + 1;
      }
      assert i == Lookup(ctxts, rnti, measId);
      if i == |ctxts| {
        var (t', _) := Removed(ues[rnti], measId);
        ues := ues[rnti := t'];
      } else if !known {
        var (t', _) := Removed(ues[rnti], measId);
        ues := ues[rnti := t'];
        ctxts := ctxts[..i] + ctxts[i + 1..];
      }
    }
  }
}
