/** The measurement tables that the base station keeps for one terminal, changed by `emoai_RRC_meas_reconf`, and
    the terminal's replica, changed by the messages this sends. */
module MeasTables {
  import opened Wrappers
  import opened RrcObjects

  const SLOTS: nat := 7

  datatype IdEntry = IdEntry(id: nat, obj: nat, conf: nat)

  datatype ObjEntry = ObjEntry(id: nat, body: Object)

  datatype ConfEntry = ConfEntry(id: nat, body: Config)

  datatype Tables = Tables(ids: seq<Option<IdEntry>>, objs: seq<Option<ObjEntry>>, confs: seq<Option<ConfEntry>>)

  /** One reconfiguration message. */
  datatype Delta = Delta(idsRem: seq<nat>, objsRem: seq<nat>, confsRem: seq<nat>,
                         idsAdd: seq<IdEntry>, objsAdd: seq<ObjEntry>, confsAdd: seq<ConfEntry>)

  datatype Outcome = Sent(delta: Delta) | Error

  predicate InRange(k: nat) {
    1 <= k <= SLOTS
  }

  ghost predicate Shaped(t: Tables) {
    && |t.ids| == |t.objs| == |t.confs| == SLOTS
    && forall i :: 0 <= i < SLOTS && t.ids[i].Some? ==> InRange(t.ids[i].value.obj) && InRange(t.ids[i].value.conf)
  }

  function Empty(): (t: Tables)
    ensures Shaped(t)
  {
    Tables(seq(SLOTS, _ => None), seq(SLOTS, _ => None), seq(SLOTS, _ => None))
  }

  // ----- Reconfiguration

  predicate ObjUsed(ids: seq<Option<IdEntry>>, o: nat) {
    exists i :: 0 <= i < |ids| && ids[i].Some? && ids[i].value.obj == o
  }

  predicate ConfUsed(ids: seq<Option<IdEntry>>, c: nat) {
    exists i :: 0 <= i < |ids| && ids[i].Some? && ids[i].value.conf == c
  }

  /** Removal of measurement `m`: its object and its configuration go with it unless another measurement
      refers to them. */
  function Removed(t: Tables, m: nat): (r: (Tables, Outcome))
    requires Shaped(t) && InRange(m)
    ensures Shaped(r.0)
  {
    if t.ids[m - 1].None? then (t, Error)
    else
      var e := t.ids[m - 1].value;
      var ids := t.ids[m - 1 := None];
      var dropObj, dropConf := !ObjUsed(ids, e.obj), !ConfUsed(ids, e.conf);
      (Tables(ids, if dropObj then t.objs[e.obj - 1 := None] else t.objs,
              if dropConf then t.confs[e.conf - 1 := None] else t.confs),
       Sent(Delta([m], if dropObj then [e.obj] else [], if dropConf then [e.conf] else [], [], [], [])))
  }

  /** Addition. The measurement is written first, so an error found later leaves it, and possibly the object,
      behind; nothing is sent then. */
  function Added(t: Tables, m: nat, obj: Option<ObjectReq>, o: nat, conf: Option<ConfReq>, c: nat, si: bool): (r: (Tables, Outcome))
    requires Shaped(t) && InRange(m) && InRange(o) && InRange(c)
    ensures Shaped(r.0)
  {
    if obj.None? || conf.None? then (t, Error)
    else
      var mi := IdEntry(m, o, c);
      var t1 := t.(ids := t.ids[m - 1 := Some(mi)]);
      if !obj.value.EutraObject? then (t1, Error)
      else
        var mo := ObjEntry(o, BuiltObject(obj.value, IsCgi(conf.value)));
        var t2 := t1.(objs := t.objs[o - 1 := Some(mo)]);
        if !Buildable(conf.value) then (t2, Error)
        else
          var rc := ConfEntry(c, BuiltConfig(conf.value, si));
          (t2.(confs := t.confs[c - 1 := Some(rc)]), Sent(Delta([], [], [], [mi], [mo], [rc])))
  }

  predicate IsCgi(c: ConfReq) {
    c.EutraConf? && c.trigger == Periodical(ReportCgi)
  }

  class UeContext {
    var ids: seq<Option<IdEntry>>
    var objs: seq<Option<ObjEntry>>
    var confs: seq<Option<ConfEntry>>

    ghost function State(): Tables
      reads this
    {
      Tables(ids, objs, confs)
    }

    constructor ()
      ensures State() == Empty()
    {
      ids := seq(SLOTS, _ => None);
      objs := seq(SLOTS, _ => None);
      confs := seq(SLOTS, _ => None);
    }

    /** The scan for other users of an object and a configuration. */
    method CountUsers(o: nat, c: nat) returns (moPresent: nat, rcPresent: nat)
      requires |ids| == SLOTS
      ensures moPresent == 0 <==> !ObjUsed(ids, o)
      ensures rcPresent == 0 <==> !ConfUsed(ids, c)
    {
      moPresent, rcPresent := 0, 0;
      for i := 0 to SLOTS
        invariant moPresent == 0 <==> !ObjUsed(ids[..i], o)
        invariant rcPresent == 0 <==> !ConfUsed(ids[..i], c)
      {
        assert ids[..i + 1] == ids[..i] + [ids[i]];
        if ids[i].Some? {
          if ids[i].value.obj == o {
            assert ids[..i + 1][i].value.obj == o;
            moPresent := moPresent + 1;
          }
          if ids[i].value.conf == c {
            assert ids[..i + 1][i].value.conf == c;
            rcPresent := rcPresent + 1;
          }
        }
        PrefixUses(ids, i, o, c);
      }
      assert ids[..SLOTS] == ids;
    }

    method Remove(m: nat) returns (r: Outcome)
      requires Shaped(State()) && InRange(m)
      modifies this
      ensures (State(), r) == Removed(old(State()), m)
    {
      if ids[m - 1].None? {
        return Error;
      }
      var e := ids[m - 1].value;
      var objsRem, confsRem := [], [];
      ids := ids[m - 1 := None];
      var moPresent, rcPresent := CountUsers(e.obj, e.conf);
      if moPresent == 0 {
        objsRem := [e.obj];
        objs := objs[e.obj - 1 := None];
      }
      if rcPresent == 0 {
        confsRem := [e.conf];
        confs := confs[e.conf - 1 := None];
      }
      r := Sent(Delta([m], objsRem, confsRem, [], [], []));
    }

    method Add(m: nat, obj: Option<ObjectReq>, o: nat, conf: Option<ConfReq>, c: nat, si: bool) returns (r: Outcome)
      requires Shaped(State()) && InRange(m) && InRange(o) && InRange(c)
      modifies this
      ensures (State(), r) == Added(old(State()), m, obj, o, conf, c, si)
    {
      if obj.None? || conf.None? {
        return Error;
      }
      var mi := IdEntry(m, o, c);
      ids := ids[m - 1 := Some(mi)];
      if !obj.value.EutraObject? {
        return Error;
      }
      var body := BuildObject(obj.value, IsCgi(conf.value));
      var mo := ObjEntry(o, body);
      objs := objs[o - 1 := Some(mo)];
      if !conf.value.EutraConf? || conf.value.trigger.NoTrigger? {
        return Error;
      }
      var rc := ConfEntry(c, BuiltConfig(conf.value, si));
      confs := confs[c - 1 := Some(rc)];
      r := Sent(Delta([], [], [], [mi], [mo], [rc]));
    }
  }

  lemma PrefixUses(ids: seq<Option<IdEntry>>, i: nat, o: nat, c: nat)
    requires i < |ids|
    ensures ObjUsed(ids[..i + 1], o) <==> ObjUsed(ids[..i], o) || (ids[i].Some? && ids[i].value.obj == o)
    ensures ConfUsed(ids[..i + 1], c) <==> ConfUsed(ids[..i], c) || (ids[i].Some? && ids[i].value.conf == c)
  {
    var p, q := ids[..i], ids[..i + 1];
    if ObjUsed(p, o) {
      var k :| 0 <= k < |p| && p[k].Some? && p[k].value.obj == o;
      assert q[k] == p[k];
    }
    if ConfUsed(p, c) {
      var k :| 0 <= k < |p| && p[k].Some? && p[k].value.conf == c;
      assert q[k] == p[k];
    }
    assert q[i] == ids[i];
  }

  // ----- Referential integrity

  /** Slot `i` holds measurement `i + 1`, which points to an object and a configuration that exist. */
  ghost predicate IdSound(t: Tables, i: nat)
    requires Shaped(t) && i < SLOTS
  {
    t.ids[i].Some? ==>
      var e := t.ids[i].value;
      e.id == i + 1 && t.objs[e.obj - 1].Some? && t.confs[e.conf - 1].Some?
  }

  /** Object and configuration `j + 1` carry their own number and are referred to. */
  ghost predicate NoOrphan(t: Tables, j: nat)
    requires Shaped(t) && j < SLOTS
  {
    && (t.objs[j].Some? ==> t.objs[j].value.id == j + 1 && ObjUsed(t.ids, j + 1))
    && (t.confs[j].Some? ==> t.confs[j].value.id == j + 1 && ConfUsed(t.ids, j + 1))
  }

  ghost predicate Integrity(t: Tables) {
    && Shaped(t)
    && (forall i :: 0 <= i < SLOTS ==> IdSound(t, i))
    && (forall j :: 0 <= j < SLOTS ==> NoOrphan(t, j))
  }

  lemma UsedUnlessRemoved(ids: seq<Option<IdEntry>>, i: nat, o: nat, c: nat)
    requires i < |ids|
    ensures ObjUsed(ids, o) ==> ObjUsed(ids[i := None], o) || (ids[i].Some? && ids[i].value.obj == o)
    ensures ConfUsed(ids, c) ==> ConfUsed(ids[i := None], c) || (ids[i].Some? && ids[i].value.conf == c)
  {
    var p := ids[i := None];
    if ObjUsed(ids, o) {
      var k :| 0 <= k < |ids| && ids[k].Some? && ids[k].value.obj == o;
      assert k != i ==> p[k] == ids[k];
    }
    if ConfUsed(ids, c) {
      var k :| 0 <= k < |ids| && ids[k].Some? && ids[k].value.conf == c;
      assert k != i ==> p[k] == ids[k];
    }
  }

  lemma RemoveKeepsIntegrity(t: Tables, m: nat)
    requires Integrity(t) && InRange(m)
    ensures Integrity(Removed(t, m).0)
  {
    if t.ids[m - 1].Some? {
      var t' := Removed(t, m).0;
      forall i | 0 <= i < SLOTS
        ensures IdSound(t', i)
      {
        assert IdSound(t, i);
      }
      forall j | 0 <= j < SLOTS
        ensures NoOrphan(t', j)
      {
        assert NoOrphan(t, j);
        UsedUnlessRemoved(t.ids, m - 1, j + 1, j + 1);
      }
    }
  }

  lemma UsedAfterWrite(ids: seq<Option<IdEntry>>, i: nat, e: IdEntry, o: nat, c: nat)
    requires i < |ids| && ids[i].None?
    ensures ObjUsed(ids[i := Some(e)], o) <==> ObjUsed(ids, o) || e.obj == o
    ensures ConfUsed(ids[i := Some(e)], c) <==> ConfUsed(ids, c) || e.conf == c
  {
    var p := ids[i := Some(e)];
    assert p[i] == Some(e);
    if ObjUsed(ids, o) {
      var k :| 0 <= k < |ids| && ids[k].Some? && ids[k].value.obj == o;
      assert p[k] == ids[k];
    }
    if ConfUsed(ids, c) {
      var k :| 0 <= k < |ids| && ids[k].Some? && ids[k].value.conf == c;
      assert p[k] == ids[k];
    }
  }

  /** An addition in a free slot keeps integrity exactly when nothing dangles afterwards: on success always, on an
      error only if the parts that were not written existed before. */
  lemma AddKeepsIntegrityIff(t: Tables, m: nat, obj: Option<ObjectReq>, o: nat, conf: Option<ConfReq>, c: nat, si: bool)
    requires Integrity(t) && InRange(m) && InRange(o) && InRange(c) && t.ids[m - 1].None?
    ensures Integrity(Added(t, m, obj, o, conf, c, si).0) <==>
      || obj.None? || conf.None?
      || ((obj.value.EutraObject? || t.objs[o - 1].Some?)
          && ((obj.value.EutraObject? && Buildable(conf.value)) || t.confs[c - 1].Some?))
  {
    if obj.Some? && conf.Some? {
      var t' := Added(t, m, obj, o, conf, c, si).0;
      assert t'.ids[m - 1] == Some(IdEntry(m, o, c));
      if t'.objs[o - 1].Some? && t'.confs[c - 1].Some? {
        forall i | 0 <= i < SLOTS
          ensures IdSound(t', i)
        {
          assert IdSound(t, i);
        }
        forall j | 0 <= j < SLOTS
          ensures NoOrphan(t', j)
        {
          assert NoOrphan(t, j);
          UsedAfterWrite(t.ids, m - 1, IdEntry(m, o, c), j + 1, j + 1);
        }
      } else {
        assert !IdSound(t', m - 1);
      }
    }
  }

  // ----- The terminal's replica

  datatype UeObject = UeObject(carrier: nat, bandwidth: nat, cells: CellMap, black: CellMap)

  datatype Replica = Replica(ids: map<nat, (nat, nat)>, objs: map<nat, UeObject>, confs: map<nat, Config>)

  const NOTHING: Replica := Replica(map[], map[], map[])

  /** Section 5.5.2.4 of TS 36.331: with an object go all measurements that use it. */
  ghost function ObjsRemoved(r: Replica, l: seq<nat>): Replica {
    r.(objs := r.objs - (set o | o in l), ids := map k | k in r.ids && r.ids[k].0 !in l :: r.ids[k])
  }

  ghost function ObjAdded(r: Replica, e: ObjEntry): Replica {
    var had := if e.id in r.objs then r.objs[e.id] else UeObject(0, 0, map[], map[]);
    r.(objs := r.objs[e.id := UeObject(e.body.carrier, e.body.bandwidth,
                                       CellsApplied(had.cells, e.body.cells), CellsApplied(had.black, e.body.black))])
  }

  ghost function ObjsAdded(r: Replica, l: seq<ObjEntry>): Replica
    decreases |l|
  {
    if l == [] then r else ObjsAdded(ObjAdded(r, l[0]), l[1..])
  }

  /** Section 5.5.2.6: with a configuration go all measurements that use it. */
  ghost function ConfsRemoved(r: Replica, l: seq<nat>): Replica {
    r.(confs := r.confs - (set c | c in l), ids := map k | k in r.ids && r.ids[k].1 !in l :: r.ids[k])
  }

  ghost function ConfsAdded(r: Replica, l: seq<ConfEntry>): Replica
    decreases |l|
  {
    if l == [] then r else ConfsAdded(r.(confs := r.confs[l[0].id := l[0].body]), l[1..])
  }

  ghost function IdsAdded(r: Replica, l: seq<IdEntry>): Replica
    decreases |l|
  {
    if l == [] then r else IdsAdded(r.(ids := r.ids[l[0].id := (l[0].obj, l[0].conf)]), l[1..])
  }

  /** Section 5.5.2.1: the order in which a terminal performs the parts of one message. */
  ghost function Applied(r: Replica, d: Delta): Replica {
    var r1 := ObjsAdded(ObjsRemoved(r, d.objsRem), d.objsAdd);
    var r2 := ConfsAdded(ConfsRemoved(r1, d.confsRem), d.confsAdd);
    IdsAdded(r2.(ids := r2.ids - (set k | k in d.idsRem)), d.idsAdd)
  }

  ghost predicate SyncAt(t: Tables, r: Replica, k: nat)
    requires Shaped(t)
  {
    && (k in r.ids <==> InRange(k) && t.ids[k - 1].Some?)
    && (k in r.ids ==> r.ids[k] == (t.ids[k - 1].value.obj, t.ids[k - 1].value.conf))
    && (k in r.objs <==> InRange(k) && t.objs[k - 1].Some?)
    && (k in r.objs ==> var b := t.objs[k - 1].value.body; r.objs[k].carrier == b.carrier && r.objs[k].bandwidth == b.bandwidth)
    && (k in r.confs <==> InRange(k) && t.confs[k - 1].Some?)
    && (k in r.confs ==> r.confs[k] == t.confs[k - 1].value.body)
  }

  /** Both sides hold the same measurements, the same carriers under the same object numbers, and the same
      report configurations. */
  ghost predicate Sync(t: Tables, r: Replica)
    requires Shaped(t)
  {
    forall k: nat :: SyncAt(t, r, k)
  }

  /** What the terminal removes by cascade is never a measurement that the base station keeps. */
  lemma CascadeOnlyTakesRemoved(t: Tables, r: Replica, m: nat, k: nat)
    requires Integrity(t) && Sync(t, r) && InRange(m) && t.ids[m - 1].Some? && k in r.ids
    ensures var d := Removed(t, m).1.delta;
      r.ids[k].0 in d.objsRem || r.ids[k].1 in d.confsRem ==> k == m
  {
    assert SyncAt(t, r, k);
    var ids := t.ids[m - 1 := None];
    if k != m {
      assert ids[k - 1] == t.ids[k - 1];
    }
  }

  lemma RemoveKeepsSync(t: Tables, r: Replica, m: nat)
    requires Integrity(t) && Sync(t, r) && InRange(m) && t.ids[m - 1].Some?
    ensures var (t', out) := Removed(t, m); Sync(t', Applied(r, out.delta))
  {
    var (t', out) := Removed(t, m);
    var e, r' := t.ids[m - 1].value, Applied(r, out.delta);
    forall k: nat
      ensures SyncAt(t', r', k)
    {
      assert SyncAt(t, r, k);
      if k in r.ids {
        CascadeOnlyTakesRemoved(t, r, m, k);
      }
      assert k in r'.ids <==> k in r.ids && k != m;
    }
  }

  /** A message that only adds, written out. */
  lemma AppliedAddition(r: Replica, mi: IdEntry, mo: ObjEntry, rc: ConfEntry)
    ensures Applied(r, Delta([], [], [], [mi], [mo], [rc]))
         == Replica(r.ids[mi.id := (mi.obj, mi.conf)], ObjAdded(r, mo).objs, r.confs[rc.id := rc.body])
  {
    assert ObjsRemoved(r, []) == r;
    var r1 := ObjAdded(r, mo);
    assert ObjsAdded(r, [mo]) == r1 by {
      assert [mo][1..] == [];
    }
    assert ConfsRemoved(r1, []) == r1;
    var r2 := r1.(confs := r1.confs[rc.id := rc.body]);
    assert ConfsAdded(r1, [rc]) == r2 by {
      assert [rc][1..] == [];
    }
    var none: seq<nat> := [];
    assert r2.(ids := r2.ids - (set k | k in none)) == r2;
    assert IdsAdded(r2, [mi]) == r2.(ids := r2.ids[mi.id := (mi.obj, mi.conf)]) by {
      assert [mi][1..] == [];
    }
  }

  /** An addition gives the terminal what was asked for: the measurement under its numbers, the carrier and bandwidth, the
      requested cells in place of the old ones (if some were requested or it had none), and a report configuration
      that reports back as the request does; nothing under other numbers changes. Only a CGI request asks for
      system information and names a cell, the first one. */
  lemma AdditionReachesTerminal(t: Tables, r: Replica, m: nat, obj: ObjectReq, o: nat, conf: ConfReq, c: nat, si: bool)
    requires Shaped(t) && InRange(m) && InRange(o) && InRange(c) && obj.EutraObject? && Buildable(conf)
    requires o in r.objs ==> forall k :: k in r.objs[o].cells || k in r.objs[o].black ==> 1 <= k <= 32
    ensures var out := Added(t, m, Some(obj), o, Some(conf), c, si).1;
      && out.Sent?
      && var r' := Applied(r, out.delta);
         && r'.ids == r.ids[m := (o, c)]
         && r'.objs.Keys == r.objs.Keys + {o} && (forall k :: k in r.objs && k != o ==> r'.objs[k] == r.objs[k])
         && r'.confs.Keys == r.confs.Keys + {c} && (forall k :: k in r.confs && k != c ==> r'.confs[k] == r.confs[k])
         && r'.objs[o].carrier == Or0(obj.carrier) && r'.objs[o].bandwidth == Or0(obj.bandwidth)
         && (obj.cells != [] || o !in r.objs ==> r'.objs[o].cells == RequestedCells(obj.cells, DB0))
         && (obj.black != [] || o !in r.objs ==> r'.objs[o].black == RequestedCells(obj.black, N4))
         && r'.confs[c] == BuiltConfig(conf, si)
         && |out.delta.objsAdd| == 1
         && out.delta.objsAdd[0].body.cgiCell
            == (if conf.trigger == Periodical(ReportCgi) && |obj.cells| > 0 then Some(obj.cells[0].pci) else None)
  {
    var d := Added(t, m, Some(obj), o, Some(conf), c, si).1.delta;
    var had := if o in r.objs then r.objs[o] else UeObject(0, 0, map[], map[]);
    AppliedAddition(r, d.idsAdd[0], d.objsAdd[0], d.confsAdd[0]);
    CellsReplacedIff(had.cells, obj.cells, DB0);
    CellsReplacedIff(had.black, obj.black, N4);
  }

  lemma AddKeepsSync(t: Tables, r: Replica, m: nat, obj: ObjectReq, o: nat, conf: ConfReq, c: nat, si: bool)
    requires Shaped(t) && Sync(t, r) && InRange(m) && InRange(o) && InRange(c)
    requires obj.EutraObject? && Buildable(conf)
    ensures var (t', out) := Added(t, m, Some(obj), o, Some(conf), c, si); Sync(t', Applied(r, out.delta))
  {
    var (t', out) := Added(t, m, Some(obj), o, Some(conf), c, si);
    var r' := Applied(r, out.delta);
    AppliedAddition(r, out.delta.idsAdd[0], out.delta.objsAdd[0], out.delta.confsAdd[0]);
    forall k: nat
      ensures SyncAt(t', r', k)
    {
      assert SyncAt(t, r, k);
    }
  }

  // ----- Runs

  datatype Op = Add(m: nat, obj: Option<ObjectReq>, o: nat, conf: Option<ConfReq>, c: nat, si: bool) | Remove(m: nat)

  /** Callers add in a free slot. */
  ghost predicate OpOk(t: Tables, op: Op)
    requires Shaped(t)
  {
    && InRange(op.m)
    && (op.Add? ==> InRange(op.o) && InRange(op.c) && t.ids[op.m - 1].None?)
  }

  ghost function Done(t: Tables, op: Op): (r: (Tables, Outcome))
    requires Shaped(t) && OpOk(t, op)
    ensures Shaped(r.0)
  {
    match op
    case Add(m, obj, o, conf, c, si) => Added(t, m, obj, o, conf, c, si)
    case Remove(m) => Removed(t, m)
  }

  ghost function Heard(r: Replica, out: Outcome): Replica {
    if out.Sent? then Applied(r, out.delta) else r
  }

  /** The addition writes and then fails, for lack of an E-UTRA object or of a trigger. */
  predicate FailsHalfway(op: Op) {
    op.Add? && op.obj.Some? && op.conf.Some? && !(op.obj.value.EutraObject? && Buildable(op.conf.value))
  }

  /** Every operation of the list is called properly, and succeeds or is refused at once. */
  ghost predicate AllClean(t: Tables, ops: seq<Op>)
    requires Shaped(t)
    decreases |ops|
  {
    ops == [] || (OpOk(t, ops[0]) && !FailsHalfway(ops[0]) && AllClean(Done(t, ops[0]).0, ops[1..]))
  }

  ghost function After(t: Tables, r: Replica, ops: seq<Op>): (w: (Tables, Replica))
    requires Shaped(t) && AllClean(t, ops)
    ensures Shaped(w.0)
    decreases |ops|
  {
    if ops == [] then (t, r)
    else var (t', out) := Done(t, ops[0]); After(t', Heard(r, out), ops[1..])
  }

  /** One operation keeps both sides equal exactly when it does not fail after it has begun to write. */
  lemma StepSyncIff(t: Tables, r: Replica, op: Op)
    requires Integrity(t) && Sync(t, r) && OpOk(t, op)
    ensures var (t', out) := Done(t, op);
      Sync(t', Heard(r, out)) <==> !FailsHalfway(op)
  {
    var (t', out) := Done(t, op);
    if op.Remove? {
      if out.Sent? {
        RemoveKeepsSync(t, r, op.m);
      }
    } else if out.Sent? {
      AddKeepsSync(t, r, op.m, op.obj.value, op.o, op.conf.value, op.c, op.si);
    } else if op.obj.Some? && op.conf.Some? {
      assert SyncAt(t, r, op.m);
      assert !SyncAt(t', r, op.m);
    }
  }

  lemma {:induction false} RunsKeepSync(t: Tables, r: Replica, ops: seq<Op>)
    requires Integrity(t) && Sync(t, r) && AllClean(t, ops)
    ensures var (t', r') := After(t, r, ops); Integrity(t') && Sync(t', r')
    decreases |ops|
  {
    if ops != [] {
      var op := ops[0];
      var (t', out) := Done(t, op);
      StepSyncIff(t, r, op);
      if op.Remove? {
        RemoveKeepsIntegrity(t, op.m);
      } else {
        AddKeepsIntegrityIff(t, op.m, op.obj, op.o, op.conf, op.c, op.si);
      }
      RunsKeepSync(t', Heard(r, out), ops[1..]);
    }
  }

  /** After any sequence of operations from empty tables none of which fails halfway, the tables have no dangling reference
      and no orphan, and the terminal's replica equals them. */
  lemma ReplicaEqualsTables(ops: seq<Op>)
    requires AllClean(Empty(), ops)
    ensures var (t, r) := After(Empty(), NOTHING, ops); Integrity(t) && Sync(t, r)
  {
    RunsKeepSync(Empty(), NOTHING, ops);
  }

  /** A failed addition that leaves a measurement at the base station which the terminal never heard of, and
      which points to a configuration that does not exist. */
  lemma FailedAddLeavesTrace() returns (op: Op)
    ensures OpOk(Empty(), op) && op.Add? && op.obj.Some? && op.obj.value.EutraObject? && op.conf.Some? && op.conf.value.EutraConf?
    ensures var (t, out) := Done(Empty(), op); out.Error? && !Integrity(t) && !Sync(t, Heard(NOTHING, out))
  {
    var none := Common(None, None, None, None, None, None, None);
    op := Op.Add(1, Some(EutraObject(Some(300), Some(0), [], [])), 1, Some(EutraConf(none, NoTrigger)), 1, false);
    AddKeepsIntegrityIff(Empty(), 1, op.obj, 1, op.conf, 1, false);
    StepSyncIff(Empty(), NOTHING, op);
  }
}
