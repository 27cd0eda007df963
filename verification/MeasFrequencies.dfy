/** Whole runs of requests and reports: measurement objects stay on distinct physical frequencies, and where
    this breaks. */
module MeasFrequencies {
  import opened Wrappers
  import opened RrcObjects
  import opened MeasTables
  import opened Bands
  import opened MeasRequests

  /** What the invariant needs to know of a trigger. */
  datatype Key = Key(tid: nat, rnti: nat, measId: nat, o: nat, c: nat, carrier: nat)

  function KeyOf(x: Context): Key {
    Key(x.tid, x.rnti, x.measId, x.o, x.c, if x.obj.EutraObject? then Or0(x.obj.carrier) else 0)
  }

  ghost function Keys(ctxts: seq<Context>): set<Key> {
    set x | x in ctxts :: KeyOf(x)
  }

  lemma UpdateKeepsKeys(ctxts: seq<Context>, o: nat, r: ObjectReq)
    requires r.EutraObject? && CtxtsInRange(ctxts)
    ensures CtxtsInRange(Update(ctxts, o, r)) && Keys(Update(ctxts, o, r)) == Keys(ctxts)
  {
    var updated := Update(ctxts, o, r);
    assert forall i :: 0 <= i < |ctxts| ==> KeyOf(updated[i]) == KeyOf(ctxts[i]);
    forall k
      ensures k in Keys(updated) <==> k in Keys(ctxts)
    {
      if k in Keys(updated) {
        var i :| 0 <= i < |updated| && KeyOf(updated[i]) == k;
        assert ctxts[i] in ctxts;
      }
      if k in Keys(ctxts) {
        var i :| 0 <= i < |ctxts| && KeyOf(ctxts[i]) == k;
        assert updated[i] in updated;
      }
    }
  }

  ghost predicate Fresh(ctxts: seq<Context>, tid: nat) {
    forall x :: x in ctxts ==> x.tid != tid
  }

  ghost predicate Sorted(ctxts: seq<Context>) {
    forall i, j :: 0 <= i < j < |ctxts| ==> ctxts[i].tid < ctxts[j].tid
  }

  lemma {:induction false} InsertElements(ctxts: seq<Context>, x: Context)
    requires Sorted(ctxts)
    ensures Fresh(ctxts, x.tid) ==> forall y :: y in Insert(ctxts, x) <==> y in ctxts || y == x
    ensures !Fresh(ctxts, x.tid) ==> Insert(ctxts, x) == ctxts
  {
    if ctxts != [] {
      assert ctxts == [ctxts[0]] + ctxts[1..];
      InsertElements(ctxts[1..], x);
      assert Fresh(ctxts, x.tid) ==> Fresh(ctxts[1..], x.tid);
    }
  }

  ghost predicate Below(tid: nat, ctxts: seq<Context>) {
    forall y :: y in ctxts ==> tid < y.tid
  }

  lemma SortedTail(ctxts: seq<Context>)
    requires Sorted(ctxts) && ctxts != []
    ensures Sorted(ctxts[1..]) && Below(ctxts[0].tid, ctxts[1..])
  {
  }

  lemma SortedCons(x: Context, rest: seq<Context>)
    requires Sorted(rest) && Below(x.tid, rest)
    ensures Sorted([x] + rest)
  {
    assert forall i :: 0 <= i < |rest| ==> rest[i] in rest;
  }

  lemma InsertStaysAbove(tid: nat, ctxts: seq<Context>, x: Context)
    requires Sorted(ctxts) && Below(tid, ctxts) && tid < x.tid
    ensures Below(tid, Insert(ctxts, x))
  {
    InsertElements(ctxts, x);
  }

  lemma {:induction false} InsertSorted(ctxts: seq<Context>, x: Context)
    requires Sorted(ctxts)
    ensures Sorted(Insert(ctxts, x))
    decreases |ctxts|
  {
    if ctxts != [] {
      SortedTail(ctxts);
      if x.tid < ctxts[0].tid {
        assert Below(x.tid, ctxts);
        SortedCons(x, ctxts);
      } else if x.tid > ctxts[0].tid {
        InsertSorted(ctxts[1..], x);
        InsertStaysAbove(ctxts[0].tid, ctxts[1..], x);
        SortedCons(ctxts[0], Insert(ctxts[1..], x));
      }
    }
  }

  lemma InsertMembers(ctxts: seq<Context>, x: Context)
    requires Sorted(ctxts)
    ensures Sorted(Insert(ctxts, x))
    ensures Fresh(ctxts, x.tid) ==> forall y :: y in Insert(ctxts, x) <==> y in ctxts || y == x
    ensures !Fresh(ctxts, x.tid) ==> Insert(ctxts, x) == ctxts
  {
    InsertElements(ctxts, x);
    InsertSorted(ctxts, x);
  }

  /** The entry of one trigger in its terminal's tables. */
  ghost predicate Matches(t: Tables, k: Key)
    requires Shaped(t)
  {
    && InRange(k.measId) && InRange(k.o)
    && t.ids[k.measId - 1] == Some(IdEntry(k.measId, k.o, k.c))
    && t.objs[k.o - 1].Some? && t.objs[k.o - 1].value.body.carrier == k.carrier
  }

  ghost predicate HasTrigger(ks: set<Key>, u: nat, m: nat) {
    exists k :: k in ks && k.rnti == u && k.measId == m
  }

  /** Triggers and measurements of terminal `u` correspond one to one. */
  ghost predicate Corresponds(t: Tables, ks: set<Key>, u: nat)
    requires Shaped(t)
  {
    && (forall k :: k in ks && k.rnti == u ==> Matches(t, k))
    && (forall i :: 0 <= i < SLOTS && t.ids[i].Some? ==> HasTrigger(ks, u, i + 1))
    && (forall k, l :: k in ks && l in ks && k.rnti == u && l.rnti == u && k.measId == l.measId ==> k == l)
  }

  /** Its triggers on the same frequency share their object. */
  ghost predicate Shares(p: Plan, ks: set<Key>, u: nat) {
    forall k, l :: k in ks && l in ks && k.rnti == u && l.rnti == u && Frequency(p, k.carrier) == Frequency(p, l.carrier)
      ==> k.o == l.o
  }

  ghost predicate Good(p: Plan, t: Tables, ks: set<Key>, u: nat) {
    Integrity(t) && Corresponds(t, ks, u) && Shares(p, ks, u)
  }

  /** No two objects of the tables are on the same physical frequency. */
  ghost predicate DistinctFrequencies(p: Plan, t: Tables)
    requires Shaped(t)
  {
    forall i, j :: 0 <= i < j < SLOTS && t.objs[i].Some? && t.objs[j].Some?
      ==> Frequency(p, t.objs[i].value.body.carrier) != Frequency(p, t.objs[j].value.body.carrier)
  }

  /** Every object has a trigger that stands for it. */
  lemma ObjectHasTrigger(t: Tables, ks: set<Key>, u: nat, i: nat) returns (k: Key)
    requires Integrity(t) && Corresponds(t, ks, u) && i < SLOTS && t.objs[i].Some?
    ensures k in ks && k.rnti == u && k.o == i + 1 && k.carrier == t.objs[i].value.body.carrier
  {
    assert NoOrphan(t, i);
    var n :| 0 <= n < SLOTS && t.ids[n].Some? && t.ids[n].value.obj == i + 1;
    assert HasTrigger(ks, u, n + 1);
    k :| k in ks && k.rnti == u && k.measId == n + 1;
    assert Matches(t, k);
  }

  lemma GoodIsDistinct(p: Plan, t: Tables, ks: set<Key>, u: nat)
    requires Good(p, t, ks, u)
    ensures DistinctFrequencies(p, t)
  {
    forall i, j | 0 <= i < j < SLOTS && t.objs[i].Some? && t.objs[j].Some?
      ensures Frequency(p, t.objs[i].value.body.carrier) != Frequency(p, t.objs[j].value.body.carrier)
    {
      var k := ObjectHasTrigger(t, ks, u, i);
      var l := ObjectHasTrigger(t, ks, u, j);
    }
  }

  /** The number `k.o` is free and its frequency unused, or it already stands for the carrier. */
  ghost predicate Placed(p: Plan, t: Tables, ks: set<Key>, k: Key)
    requires Shaped(t) && InRange(k.o)
  {
    || (exists l :: l in ks && l.rnti == k.rnti && l.o == k.o && l.carrier == k.carrier)
    || (t.objs[k.o - 1].None? && forall l :: l in ks && l.rnti == k.rnti ==> Frequency(p, l.carrier) != Frequency(p, k.carrier))
  }

  lemma AddMeetsOthers(p: Plan, t: Tables, ks: set<Key>, u: nat, k: Key, l: Key)
    requires Good(p, t, ks, u) && k.rnti == u && InRange(k.measId) && InRange(k.o) && t.ids[k.measId - 1].None?
    requires Placed(p, t, ks, k) && l in ks && l.rnti == u
    ensures l.measId != k.measId
    ensures Frequency(p, l.carrier) == Frequency(p, k.carrier) ==> l.o == k.o
    ensures l.o == k.o ==> l.carrier == k.carrier
  {
    assert Matches(t, l);
    if j :| j in ks && j.rnti == k.rnti && j.o == k.o && j.carrier == k.carrier {
      assert Matches(t, j);
    }
  }

  /** `t'` is `t` with measurement and object of `k` written. */
  ghost predicate Written(t: Tables, t': Tables, k: Key) {
    && Shaped(t) && Shaped(t') && InRange(k.measId) && InRange(k.o)
    && t'.ids == t.ids[k.measId - 1 := Some(IdEntry(k.measId, k.o, k.c))]
    && t'.objs[k.o - 1].Some? && t'.objs[k.o - 1].value.body.carrier == k.carrier
    && (forall j :: 0 <= j < SLOTS && j != k.o - 1 ==> t'.objs[j] == t.objs[j])
  }

  lemma WrittenKeepsMatch(t: Tables, t': Tables, k: Key, l: Key)
    requires Written(t, t', k) && Matches(t, l) && l.measId != k.measId && (l.o == k.o ==> l.carrier == k.carrier)
    ensures Matches(t', l)
  {
  }

  lemma WrittenHasTrigger(t: Tables, t': Tables, ks: set<Key>, k: Key, i: nat)
    requires Written(t, t', k) && i < SLOTS && t'.ids[i].Some? && (t.ids[i].Some? ==> HasTrigger(ks, k.rnti, i + 1))
    ensures HasTrigger(ks + {k}, k.rnti, i + 1)
  {
    if i == k.measId - 1 {
      assert k in ks + {k};
    } else {
      var l :| l in ks && l.rnti == k.rnti && l.measId == i + 1;
      assert l in ks + {k};
    }
  }

  lemma AddKeepsCorrespondence(t: Tables, t': Tables, ks: set<Key>, u: nat, k: Key)
    requires Written(t, t', k) && Corresponds(t, ks, u) && k.rnti == u
    requires forall l :: l in ks && l.rnti == u ==> l.measId != k.measId && (l.o == k.o ==> l.carrier == k.carrier)
    ensures Corresponds(t', ks + {k}, u)
  {
    forall l | l in ks + {k} && l.rnti == u
      ensures Matches(t', l)
    {
      if l != k {
        WrittenKeepsMatch(t, t', k, l);
      }
    }
    forall i | 0 <= i < SLOTS && t'.ids[i].Some?
      ensures HasTrigger(ks + {k}, u, i + 1)
    {
      WrittenHasTrigger(t, t', ks, k, i);
    }
  }

  lemma SharesWith(p: Plan, ks: set<Key>, u: nat, k: Key)
    requires Shares(p, ks, u)
    requires forall l :: l in ks && l.rnti == u && Frequency(p, l.carrier) == Frequency(p, k.carrier) ==> l.o == k.o
    ensures Shares(p, ks + {k}, u)
  {
  }

  lemma AddedWrites(t: Tables, k: Key, obj: ObjectReq, conf: ConfReq, si: bool)
    requires Shaped(t) && InRange(k.measId) && InRange(k.o) && InRange(k.c)
    requires obj.EutraObject? && Or0(obj.carrier) == k.carrier && Buildable(conf)
    ensures Written(t, Added(t, k.measId, Some(obj), k.o, Some(conf), k.c, si).0, k)
  {
  }

  /** An addition with its trigger keeps `Good`. */
  lemma AddKeepsGood(p: Plan, t: Tables, ks: set<Key>, u: nat, k: Key, obj: ObjectReq, conf: ConfReq, si: bool)
    requires Good(p, t, ks, u) && k.rnti == u && InRange(k.measId) && InRange(k.o) && InRange(k.c) && t.ids[k.measId - 1].None?
    requires obj.EutraObject? && Or0(obj.carrier) == k.carrier && Buildable(conf)
    requires Placed(p, t, ks, k)
    ensures Good(p, Added(t, k.measId, Some(obj), k.o, Some(conf), k.c, si).0, ks + {k}, u)
  {
    forall l | l in ks && l.rnti == u
      ensures l.measId != k.measId && (l.o == k.o ==> l.carrier == k.carrier)
      ensures Frequency(p, l.carrier) == Frequency(p, k.carrier) ==> l.o == k.o
    {
      AddMeetsOthers(p, t, ks, u, k, l);
    }
    AddKeepsIntegrityIff(t, k.measId, Some(obj), k.o, Some(conf), k.c, si);
    AddedWrites(t, k, obj, conf, si);
    AddKeepsCorrespondence(t, Added(t, k.measId, Some(obj), k.o, Some(conf), k.c, si).0, ks, u, k);
    SharesWith(p, ks, u, k);
  }

  /** One that is not well placed breaks it: an object of the terminal on another carrier is overwritten, or two of
      its triggers on one frequency end up with different objects. */
  lemma MisplacedBreaksGood(p: Plan, t: Tables, t': Tables, ks: set<Key>, u: nat, k: Key)
    requires Good(p, t, ks, u) && k.rnti == u && Written(t, t', k) && !Placed(p, t, ks, k)
    ensures !Good(p, t', ks + {k}, u)
  {
    if t.objs[k.o - 1].Some? {
      var l := ObjectHasTrigger(t, ks, u, k.o - 1);
      assert l in ks + {k} && !Matches(t', l);
    } else {
      var l :| l in ks && l.rnti == u && Frequency(p, l.carrier) == Frequency(p, k.carrier);
      assert Matches(t, l);
      assert l in ks + {k} && k in ks + {k} && l.o != k.o;
    }
  }

  /** A removal with its trigger keeps `Good`; so does the removal of a measurement without trigger, which does
      not exist. */
  lemma RemoveKeepsGood(p: Plan, t: Tables, ks: set<Key>, u: nat, m: nat, gone: set<Key>)
    requires Good(p, t, ks, u) && InRange(m)
    requires forall k :: k in gone <==> k in ks && k.rnti == u && k.measId == m
    ensures Good(p, Removed(t, m).0, ks - gone, u)
  {
    var t' := Removed(t, m).0;
    RemoveKeepsIntegrity(t, m);
    if t.ids[m - 1].Some? {
      assert HasTrigger(ks, u, m);
      forall l | l in ks - gone && l.rnti == u
        ensures Matches(t', l)
      {
        assert Matches(t, l);
        assert t'.ids[l.measId - 1] == t.ids[l.measId - 1];
      }
      forall i | 0 <= i < SLOTS && t'.ids[i].Some?
        ensures HasTrigger(ks - gone, u, i + 1)
      {
        assert HasTrigger(ks, u, i + 1);
        var l :| l in ks && l.rnti == u && l.measId == i + 1;
        assert l in ks - gone;
      }
    } else {
      forall l | l in ks && l.rnti == u
        ensures l !in gone
      {
        assert Matches(t, l);
      }
      assert ks - gone == ks;
    }
  }

  lemma OthersUnaffected(p: Plan, t: Tables, ks: set<Key>, ks': set<Key>, v: nat)
    requires Good(p, t, ks, v) && forall k: Key :: k.rnti == v ==> (k in ks <==> k in ks')
    ensures Good(p, t, ks', v)
  {
    forall i | 0 <= i < SLOTS && t.ids[i].Some?
      ensures HasTrigger(ks', v, i + 1)
    {
      assert HasTrigger(ks, v, i + 1);
    }
  }

  // ----- One step

  /** The first trigger that uses the frequency of `carrier`. */
  ghost function FirstOn(p: Plan, ctxts: seq<Context>, carrier: nat): Option<Context> {
    if ctxts == [] then None
    else if ctxts[0].obj.EutraObject? && Frequency(p, carrier) == Frequency(p, Or0(ctxts[0].obj.carrier)) then Some(ctxts[0])
    else FirstOn(p, ctxts[1..], carrier)
  }

  lemma {:induction false} ScanMeaning(p: Plan, ctxts: seq<Context>, carrier: nat)
    requires CtxtsInRange(ctxts)
    ensures var first := FirstOn(p, ctxts, carrier);
      && (first.Some? ==> first.value in ctxts)
      && (first.Some? ==> Frequency(p, Or0(first.value.obj.carrier)) == Frequency(p, carrier))
      && ScanObject(p, ctxts, carrier)
         == (if first.None? then 0 else if Or0(first.value.obj.carrier) == carrier then first.value.o else -1)
      && (first.None? ==> forall x :: x in ctxts ==> Frequency(p, Or0(x.obj.carrier)) != Frequency(p, carrier))
  {
    if ctxts != [] {
      assert ctxts[0] in ctxts;
      assert ctxts == [ctxts[0]] + ctxts[1..];
      ScanMeaning(p, ctxts[1..], carrier);
    }
  }

  ghost predicate GoodWorld(p: Plan, w: World) {
    && WorldOk(w) && Sorted(w.ctxts)
    && forall u :: u in w.ues ==> Good(p, w.ues[u], Keys(w.ctxts), u)
  }

  /** The scan, which does not look at the terminal, finds this terminal's trigger or none. */
  ghost predicate OwnFirst(p: Plan, w: World, q: Request) {
    var first := FirstOn(p, w.ctxts, if q.obj.EutraObject? then Or0(q.obj.carrier) else 0);
    first.Some? ==> first.value.rnti == q.rnti
  }

  lemma TouchedKeepsKeys(p: Plan, caps: Caps, t: Tables, ctxts: seq<Context>, q: Request)
    requires Shaped(t) && CtxtsInRange(ctxts) && Sorted(ctxts)
    ensures var updated := Touched(p, caps, t, ctxts, q);
      CtxtsInRange(updated) && Keys(updated) == Keys(ctxts) && Sorted(updated) && (Fresh(updated, q.tid) <==> Fresh(ctxts, q.tid))
  {
    var vo := CheckObject(p, caps, ctxts, q.obj);
    if q.obj.EutraObject? && vo > 0 {
      var updated := Update(ctxts, vo, q.obj);
      UpdateKeepsKeys(ctxts, vo, q.obj);
      assert forall i :: 0 <= i < |ctxts| ==> updated[i].tid == ctxts[i].tid;
      if Fresh(ctxts, q.tid) {
        assert forall i :: 0 <= i < |updated| ==> updated[i].tid != q.tid by {
          assert forall i :: 0 <= i < |ctxts| ==> ctxts[i] in ctxts;
        }
      }
      if Fresh(updated, q.tid) {
        assert forall i :: 0 <= i < |ctxts| ==> ctxts[i].tid != q.tid by {
          assert forall i :: 0 <= i < |updated| ==> updated[i] in updated;
        }
      }
    }
  }

  lemma InsertedKeys(ctxts: seq<Context>, x: Context)
    requires Sorted(ctxts) && Fresh(ctxts, x.tid)
    ensures Keys(Insert(ctxts, x)) == Keys(ctxts) + {KeyOf(x)}
  {
    InsertMembers(ctxts, x);
    assert x in Insert(ctxts, x);
  }

  lemma InsertBasics(ctxts: seq<Context>, x: Context)
    requires Sorted(ctxts) && CtxtsInRange(ctxts + [x])
    ensures Sorted(Insert(ctxts, x)) && CtxtsInRange(Insert(ctxts, x))
    ensures forall k :: k in Keys(Insert(ctxts, x)) ==> k in Keys(ctxts) || k == KeyOf(x)
  {
    assert x in ctxts + [x] && forall y :: y in ctxts ==> y in ctxts + [x];
    InsertMembers(ctxts, x);
  }

  /** What an accepted request does. */
  lemma RegisteredEffect(p: Plan, caps: Caps, w: World, q: Request)
    requires WorldOk(w) && Sorted(w.ctxts) && q.rnti in w.ues
    requires Assign(p, caps, w.ues[q.rnti], w.ctxts, q).Numbers? && Buildable(q.conf) && Fresh(w.ctxts, q.tid)
    ensures var t, w' := w.ues[q.rnti], Requested(p, caps, w, q);
      var n := Assign(p, caps, t, w.ctxts, q);
      && InRange(n.m) && InRange(n.o) && InRange(n.c) && t.ids[n.m - 1].None? && q.obj.EutraObject?
      && w'.ues == w.ues[q.rnti := Added(t, n.m, Some(q.obj), n.o, Some(q.conf), n.c, caps.si).0]
      && Keys(w'.ctxts) == Keys(w.ctxts) + {KeyOf(Registered(q, n))}
      && Sorted(w'.ctxts) && CtxtsInRange(w'.ctxts)
  {
    var t := w.ues[q.rnti];
    var n, ctxts := Assign(p, caps, t, w.ctxts, q), Touched(p, caps, t, w.ctxts, q);
    AssignInRange(p, caps, t, w.ctxts, q);
    TouchedKeepsKeys(p, caps, t, w.ctxts, q);
    InsertBasics(ctxts, Registered(q, n));
    InsertedKeys(ctxts, Registered(q, n));
  }

  lemma GoodAfterAdd(p: Plan, w: World, w': World, u: nat, t': Tables, k: Key)
    requires GoodWorld(p, w) && u in w.ues && k.rnti == u && w'.ues == w.ues[u := t'] && Keys(w'.ctxts) == Keys(w.ctxts) + {k}
    requires Sorted(w'.ctxts) && CtxtsInRange(w'.ctxts) && Good(p, t', Keys(w.ctxts) + {k}, u)
    ensures GoodWorld(p, w')
  {
    forall v | v in w'.ues
      ensures Good(p, w'.ues[v], Keys(w'.ctxts), v)
    {
      if v != u {
        OthersUnaffected(p, w.ues[v], Keys(w.ctxts), Keys(w'.ctxts), v);
      }
    }
  }

  /** The request is refused, or the number it is given is well placed. */
  ghost predicate WellPlaced(p: Plan, caps: Caps, w: World, q: Request)
    requires WorldOk(w) && q.rnti in w.ues
  {
    var n := Assign(p, caps, w.ues[q.rnti], w.ctxts, q);
    n.Numbers? ==> InRange(n.o) && Placed(p, w.ues[q.rnti], Keys(w.ctxts), KeyOf(Registered(q, n)))
  }

  lemma RegisteredKeepsGood(p: Plan, caps: Caps, w: World, q: Request)
    requires GoodWorld(p, w) && q.rnti in w.ues && WellPlaced(p, caps, w, q)
    requires Assign(p, caps, w.ues[q.rnti], w.ctxts, q).Numbers? && Buildable(q.conf) && Fresh(w.ctxts, q.tid)
    ensures GoodWorld(p, Requested(p, caps, w, q))
  {
    var t := w.ues[q.rnti];
    var n := Assign(p, caps, t, w.ctxts, q);
    var k := KeyOf(Registered(q, n));
    RegisteredEffect(p, caps, w, q);
    AddKeepsGood(p, t, Keys(w.ctxts), q.rnti, k, q.obj, q.conf, caps.si);
    GoodAfterAdd(p, w, Requested(p, caps, w, q), q.rnti, Added(t, n.m, Some(q.obj), n.o, Some(q.conf), n.c, caps.si).0, k);
  }

  /** So it is whenever the scan finds no trigger of another terminal. */
  lemma OwnFirstPlaces(p: Plan, caps: Caps, w: World, q: Request)
    requires GoodWorld(p, w) && q.rnti in w.ues && OwnFirst(p, w, q)
    ensures WellPlaced(p, caps, w, q)
  {
    var t := w.ues[q.rnti];
    var n := Assign(p, caps, t, w.ctxts, q);
    if n.Numbers? {
      AssignInRange(p, caps, t, w.ctxts, q);
      ScanMeaning(p, w.ctxts, Or0(q.obj.carrier));
      var first := FirstOn(p, w.ctxts, Or0(q.obj.carrier));
      if first.Some? {
        var l := KeyOf(first.value);
        assert l in Keys(w.ctxts) && l.o == n.o && l.carrier == Or0(q.obj.carrier);
      }
    }
  }

  lemma MisplacedRequest(p: Plan, caps: Caps, w: World, q: Request)
    requires GoodWorld(p, w) && q.rnti in w.ues && !WellPlaced(p, caps, w, q) && Buildable(q.conf) && Fresh(w.ctxts, q.tid)
    ensures !GoodWorld(p, Requested(p, caps, w, q))
  {
    var t := w.ues[q.rnti];
    var n := Assign(p, caps, t, w.ctxts, q);
    var k := KeyOf(Registered(q, n));
    RegisteredEffect(p, caps, w, q);
    AddedWrites(t, k, q.obj, q.conf, caps.si);
    MisplacedBreaksGood(p, t, Requested(p, caps, w, q).ues[q.rnti], Keys(w.ctxts), q.rnti, k);
  }

  /** A measurement added without a trigger of its own breaks the correspondence. */
  lemma UnregisteredBreaksGood(p: Plan, t: Tables, t': Tables, ks: set<Key>, u: nat, m: nat)
    requires Good(p, t, ks, u) && InRange(m) && t.ids[m - 1].None? && Shaped(t') && t'.ids[m - 1].Some?
    ensures !Good(p, t', ks, u)
  {
    forall k | k in ks && k.rnti == u
      ensures k.measId != m
    {
      assert Matches(t, k);
    }
    assert !HasTrigger(ks, u, m);
  }

  lemma RefusedKeepsGood(p: Plan, caps: Caps, w: World, q: Request)
    requires GoodWorld(p, w) && q.rnti in w.ues && Assign(p, caps, w.ues[q.rnti], w.ctxts, q).Refused?
    ensures GoodWorld(p, Requested(p, caps, w, q))
  {
    TouchedKeepsKeys(p, caps, w.ues[q.rnti], w.ctxts, q);
  }

  lemma AddedIsWritten(t: Tables, m: nat, obj: ObjectReq, o: nat, conf: ConfReq, c: nat, si: bool)
    requires Shaped(t) && InRange(m) && InRange(o) && InRange(c)
    ensures Added(t, m, Some(obj), o, Some(conf), c, si).0.ids[m - 1].Some?
    ensures Added(t, m, Some(obj), o, Some(conf), c, si).1.Sent? <==> obj.EutraObject? && Buildable(conf)
  {
  }

  lemma UnregisteredEffect(p: Plan, caps: Caps, w: World, q: Request)
    requires WorldOk(w) && Sorted(w.ctxts) && q.rnti in w.ues && Assign(p, caps, w.ues[q.rnti], w.ctxts, q).Numbers?
    requires !Buildable(q.conf) || !Fresh(w.ctxts, q.tid)
    ensures var m, w' := Assign(p, caps, w.ues[q.rnti], w.ctxts, q).m, Requested(p, caps, w, q);
      && q.rnti in w'.ues && Shaped(w'.ues[q.rnti]) && Keys(w'.ctxts) == Keys(w.ctxts)
      && InRange(m) && w.ues[q.rnti].ids[m - 1].None? && w'.ues[q.rnti].ids[m - 1].Some?
  {
    var t := w.ues[q.rnti];
    var n, ctxts := Assign(p, caps, t, w.ctxts, q), Touched(p, caps, t, w.ctxts, q);
    AssignInRange(p, caps, t, w.ctxts, q);
    TouchedKeepsKeys(p, caps, t, w.ctxts, q);
    AddedIsWritten(t, n.m, q.obj, n.o, q.conf, n.c, caps.si);
    if Buildable(q.conf) {
      InsertMembers(ctxts, Registered(q, n));
    }
  }

  lemma UnregisteredRequest(p: Plan, caps: Caps, w: World, q: Request)
    requires GoodWorld(p, w) && q.rnti in w.ues && Assign(p, caps, w.ues[q.rnti], w.ctxts, q).Numbers?
    requires !Buildable(q.conf) || !Fresh(w.ctxts, q.tid)
    ensures !GoodWorld(p, Requested(p, caps, w, q))
  {
    var m, w' := Assign(p, caps, w.ues[q.rnti], w.ctxts, q).m, Requested(p, caps, w, q);
    UnregisteredEffect(p, caps, w, q);
    UnregisteredBreaksGood(p, w.ues[q.rnti], w'.ues[q.rnti], Keys(w.ctxts), q.rnti, m);
  }

  /** A request keeps the invariant exactly when it is refused, or carries one of the six triggers and a
      transaction that is not registered yet, and the number it is given is well placed for its own terminal. */
  lemma RequestKeepsGoodIff(p: Plan, caps: Caps, w: World, q: Request)
    requires GoodWorld(p, w) && q.rnti in w.ues
    ensures GoodWorld(p, Requested(p, caps, w, q)) <==>
      || Assign(p, caps, w.ues[q.rnti], w.ctxts, q).Refused?
      || (Buildable(q.conf) && Fresh(w.ctxts, q.tid) && WellPlaced(p, caps, w, q))
  {
    if Assign(p, caps, w.ues[q.rnti], w.ctxts, q).Refused? {
      RefusedKeepsGood(p, caps, w, q);
    } else if !Buildable(q.conf) || !Fresh(w.ctxts, q.tid) {
      UnregisteredRequest(p, caps, w, q);
    } else if WellPlaced(p, caps, w, q) {
      RegisteredKeepsGood(p, caps, w, q);
    } else {
      MisplacedRequest(p, caps, w, q);
    }
  }

  lemma KeysWithout(ctxts: seq<Context>, i: nat)
    requires Sorted(ctxts) && i < |ctxts|
    ensures var rest := ctxts[..i] + ctxts[i + 1..];
      Keys(rest) == Keys(ctxts) - {KeyOf(ctxts[i])} && Sorted(rest) && forall x :: x in rest ==> x in ctxts
  {
    var rest := ctxts[..i] + ctxts[i + 1..];
    forall k
      ensures k in Keys(rest) <==> k in Keys(ctxts) && k != KeyOf(ctxts[i])
    {
      if k in Keys(ctxts) && k != KeyOf(ctxts[i]) {
        var j :| 0 <= j < |ctxts| && KeyOf(ctxts[j]) == k;
        assert rest[if j < i then j else j - 1] == ctxts[j];
      }
    }
  }

  /** A report of a measurement without trigger. */
  lemma StrayReportKeepsGood(p: Plan, w: World, rnti: nat, measId: nat, known: bool)
    requires GoodWorld(p, w) && rnti in w.ues && InRange(measId) && Lookup(w.ctxts, rnti, measId) == |w.ctxts|
    ensures GoodWorld(p, Reported(w, rnti, measId, known))
  {
    var ks := Keys(w.ctxts);
    assert forall k :: k in ks ==> !(k.rnti == rnti && k.measId == measId);
    RemoveKeepsGood(p, w.ues[rnti], ks, rnti, measId, {});
    assert ks - {} == ks;
  }

  /** A report whose trigger, at position `i`, is cancelled. */
  ghost function Cancelled(w: World, rnti: nat, measId: nat, i: nat): World
    requires WorldOk(w) && rnti in w.ues && InRange(measId) && i < |w.ctxts|
  {
    World(w.ues[rnti := Removed(w.ues[rnti], measId).0], w.ctxts[..i] + w.ctxts[i + 1..])
  }

  lemma CancelKeepsGood(p: Plan, w: World, rnti: nat, measId: nat, i: nat)
    requires GoodWorld(p, w) && rnti in w.ues && InRange(measId)
    requires i < |w.ctxts| && w.ctxts[i].rnti == rnti && w.ctxts[i].measId == measId
    ensures GoodWorld(p, Cancelled(w, rnti, measId, i))
  {
    var w' := Cancelled(w, rnti, measId, i);
    var ks, gone := Keys(w.ctxts), KeyOf(w.ctxts[i]);
    KeysWithout(w.ctxts, i);
    assert w.ctxts[i] in w.ctxts;
    RemoveKeepsGood(p, w.ues[rnti], ks, rnti, measId, {gone});
    forall v | v in w'.ues
      ensures Good(p, w'.ues[v], Keys(w'.ctxts), v)
    {
      if v != rnti {
        OthersUnaffected(p, w.ues[v], ks, Keys(w'.ctxts), v);
      }
    }
  }

  lemma ReportedCases(w: World, rnti: nat, measId: nat, known: bool)
    requires WorldOk(w) && rnti in w.ues && InRange(measId) && Lookup(w.ctxts, rnti, measId) < |w.ctxts|
    ensures Reported(w, rnti, measId, known) == if known then w else Cancelled(w, rnti, measId, Lookup(w.ctxts, rnti, measId))
  {
  }

  /** A report never breaks the invariant. */
  lemma ReportKeepsGood(p: Plan, w: World, rnti: nat, measId: nat, known: bool)
    requires GoodWorld(p, w) && rnti in w.ues && InRange(measId)
    ensures GoodWorld(p, Reported(w, rnti, measId, known))
  {
    var i := Lookup(w.ctxts, rnti, measId);
    if i == |w.ctxts| {
      StrayReportKeepsGood(p, w, rnti, measId, known);
    } else {
      ReportedCases(w, rnti, measId, known);
      CancelKeepsGood(p, w, rnti, measId, i);
    }
  }

  // ----- Runs

  datatype Event = Ask(caps: Caps, q: Request) | Report(rnti: nat, measId: nat, known: bool)

  /** The event concerns a terminal that exists. */
  predicate Proper(us: set<nat>, e: Event) {
    match e
    case Ask(_, q) => q.rnti in us
    case Report(rnti, measId, _) => rnti in us && InRange(measId)
  }

  ghost predicate Basic(w: World) {
    WorldOk(w) && Sorted(w.ctxts)
  }

  ghost function Step(p: Plan, w: World, e: Event): World
    requires Basic(w) && Proper(w.ues.Keys, e)
  {
    match e
    case Ask(caps, q) => Requested(p, caps, w, q)
    case Report(rnti, measId, known) => Reported(w, rnti, measId, known)
  }

  lemma RequestKeepsShapes(p: Plan, caps: Caps, w: World, q: Request)
    requires Basic(w) && q.rnti in w.ues
    ensures var w' := Requested(p, caps, w, q);
      w'.ues.Keys == w.ues.Keys && forall u :: u in w'.ues ==> Shaped(w'.ues[u])
  {
  }

  /** The key is a trigger that request `q` registers. */
  ghost predicate OfRequest(k: Key, q: Request) {
    k.tid == q.tid && k.rnti == q.rnti && q.obj.EutraObject? && k.carrier == Or0(q.obj.carrier)
  }

  lemma RequestTriggers(p: Plan, caps: Caps, w: World, q: Request)
    requires Basic(w) && q.rnti in w.ues
    ensures var w' := Requested(p, caps, w, q);
      && Sorted(w'.ctxts) && CtxtsInRange(w'.ctxts)
      && forall k :: k in Keys(w'.ctxts) ==> k in Keys(w.ctxts) || OfRequest(k, q)
  {
    var t := w.ues[q.rnti];
    var n, ctxts := Assign(p, caps, t, w.ctxts, q), Touched(p, caps, t, w.ctxts, q);
    TouchedKeepsKeys(p, caps, t, w.ctxts, q);
    if n.Numbers? {
      AssignInRange(p, caps, t, w.ctxts, q);
      InsertBasics(ctxts, Registered(q, n));
    }
  }

  /** The triggers after a request: those before, and at most one more, its own. */
  lemma RequestBasics(p: Plan, caps: Caps, w: World, q: Request)
    requires Basic(w) && q.rnti in w.ues
    ensures var w' := Requested(p, caps, w, q);
      && Basic(w') && w'.ues.Keys == w.ues.Keys
      && forall k :: k in Keys(w'.ctxts) ==> k in Keys(w.ctxts) || OfRequest(k, q)
  {
    RequestKeepsShapes(p, caps, w, q);
    RequestTriggers(p, caps, w, q);
  }

  lemma ReportBasics(w: World, rnti: nat, measId: nat, known: bool)
    requires Basic(w) && rnti in w.ues && InRange(measId)
    ensures var w' := Reported(w, rnti, measId, known);
      Basic(w') && w'.ues.Keys == w.ues.Keys && Keys(w'.ctxts) <= Keys(w.ctxts)
  {
    var i := Lookup(w.ctxts, rnti, measId);
    if i < |w.ctxts| {
      KeysWithout(w.ctxts, i);
    }
  }

  lemma StepBasics(p: Plan, w: World, e: Event)
    requires Basic(w) && Proper(w.ues.Keys, e)
    ensures var w' := Step(p, w, e);
      && Basic(w') && w'.ues.Keys == w.ues.Keys
      && forall k :: k in Keys(w'.ctxts) ==> k in Keys(w.ctxts) || (e.Ask? && OfRequest(k, e.q))
  {
    match e
    case Ask(caps, q) => RequestBasics(p, caps, w, q);
    case Report(rnti, measId, known) => ReportBasics(w, rnti, measId, known);
  }

  ghost function After(p: Plan, w: World, es: seq<Event>): (r: World)
    requires Basic(w) && forall e :: e in es ==> Proper(w.ues.Keys, e)
    ensures Basic(r) && r.ues.Keys == w.ues.Keys
    decreases |es|
  {
    if es == [] then w
    else
      StepBasics(p, w, es[0]);
      After(p, Step(p, w, es[0]), es[1..])
  }

  /** Every state of the run satisfies the invariant. */
  ghost predicate StaysGood(p: Plan, w: World, es: seq<Event>)
    requires Basic(w) && forall e :: e in es ==> Proper(w.ues.Keys, e)
    decreases |es|
  {
    GoodWorld(p, w) && (es == [] || (StepBasics(p, w, es[0]); StaysGood(p, Step(p, w, es[0]), es[1..])))
  }

  /** A report fits; a request fits if it is refused, or has a trigger, a new transaction and a well placed number. */
  ghost predicate EventFits(p: Plan, w: World, e: Event)
    requires Basic(w) && Proper(w.ues.Keys, e)
  {
    match e
    case Ask(caps, q) =>
      || Assign(p, caps, w.ues[q.rnti], w.ctxts, q).Refused?
      || (Buildable(q.conf) && Fresh(w.ctxts, q.tid) && WellPlaced(p, caps, w, q))
    case Report(_, _, _) => true
  }

  /** Every request of the run fits the state it comes to. */
  ghost predicate AsksFit(p: Plan, w: World, es: seq<Event>)
    requires Basic(w) && forall e :: e in es ==> Proper(w.ues.Keys, e)
    decreases |es|
  {
    es == [] || (EventFits(p, w, es[0]) && (StepBasics(p, w, es[0]); AsksFit(p, Step(p, w, es[0]), es[1..])))
  }

  lemma StepKeepsGoodIff(p: Plan, w: World, e: Event)
    requires GoodWorld(p, w) && Proper(w.ues.Keys, e)
    ensures GoodWorld(p, Step(p, w, e)) <==> EventFits(p, w, e)
  {
    match e
    case Ask(caps, q) => RequestKeepsGoodIff(p, caps, w, q);
    case Report(rnti, measId, known) => ReportKeepsGood(p, w, rnti, measId, known);
  }

  /** Any number of terminals: the invariant holds throughout a run exactly when every request fits. */
  lemma {:induction false} StaysGoodIff(p: Plan, w: World, es: seq<Event>)
    requires GoodWorld(p, w) && forall e :: e in es ==> Proper(w.ues.Keys, e)
    ensures StaysGood(p, w, es) <==> AsksFit(p, w, es)
    decreases |es|
  {
    if es != [] {
      var w' := Step(p, w, es[0]);
      StepBasics(p, w, es[0]);
      StepKeepsGoodIff(p, w, es[0]);
      if GoodWorld(p, w') {
        StaysGoodIff(p, w', es[1..]);
      }
    }
  }

  lemma {:induction false} StaysGoodEndsGood(p: Plan, w: World, es: seq<Event>)
    requires Basic(w) && (forall e :: e in es ==> Proper(w.ues.Keys, e)) && StaysGood(p, w, es)
    ensures GoodWorld(p, After(p, w, es))
    decreases |es|
  {
    if es != [] {
      StepBasics(p, w, es[0]);
      StaysGoodEndsGood(p, Step(p, w, es[0]), es[1..]);
    }
  }

  // ----- A condition on the requests alone

  /** A request carries one of the six triggers if it carries a configuration at all. */
  predicate HasEvent(e: Event) {
    e.Ask? && e.q.conf.EutraConf? ==> !e.q.conf.trigger.NoTrigger?
  }

  ghost predicate HaveEvents(es: seq<Event>) {
    forall e :: e in es ==> HasEvent(e)
  }

  ghost predicate DistinctTransactions(es: seq<Event>) {
    forall i, j :: 0 <= i < j < |es| && es[i].Ask? && es[j].Ask? ==> es[i].q.tid != es[j].q.tid
  }

  /** Different terminals ask for different physical frequencies. */
  ghost predicate SeparateFrequencies(p: Plan, es: seq<Event>) {
    forall e, f :: e in es && f in es && e.Ask? && f.Ask? ==> Separate(p, e.q, f.q)
  }

  ghost predicate Separate(p: Plan, q: Request, r: Request) {
    q.obj.EutraObject? && r.obj.EutraObject? && q.rnti != r.rnti
    ==> Frequency(p, Or0(q.obj.carrier)) != Frequency(p, Or0(r.obj.carrier))
  }

  /** The trigger has another transaction than the request, and another frequency unless it is of the same terminal. */
  ghost predicate ApartFrom(p: Plan, k: Key, q: Request) {
    && k.tid != q.tid
    && (q.obj.EutraObject? && k.rnti != q.rnti ==> Frequency(p, k.carrier) != Frequency(p, Or0(q.obj.carrier)))
  }

  ghost predicate Apart(p: Plan, ks: set<Key>, es: seq<Event>) {
    forall k, e :: k in ks && e in es && e.Ask? ==> ApartFrom(p, k, e.q)
  }

  lemma ApartOwnsFirst(p: Plan, w: World, q: Request)
    requires Basic(w) && q.obj.EutraObject? && forall k :: k in Keys(w.ctxts) ==> ApartFrom(p, k, q)
    ensures OwnFirst(p, w, q)
  {
    ScanMeaning(p, w.ctxts, Or0(q.obj.carrier));
    var first := FirstOn(p, w.ctxts, Or0(q.obj.carrier));
    if first.Some? {
      assert KeyOf(first.value) in Keys(w.ctxts);
    }
  }

  lemma ApartIsFresh(p: Plan, ctxts: seq<Context>, q: Request)
    requires forall k :: k in Keys(ctxts) ==> ApartFrom(p, k, q)
    ensures Fresh(ctxts, q.tid)
  {
    forall x | x in ctxts
      ensures x.tid != q.tid
    {
      assert KeyOf(x) in Keys(ctxts);
    }
  }

  lemma ApartFits(p: Plan, w: World, e: Event)
    requires GoodWorld(p, w) && Proper(w.ues.Keys, e) && HasEvent(e)
    requires e.Ask? ==> forall k :: k in Keys(w.ctxts) ==> ApartFrom(p, k, e.q)
    ensures EventFits(p, w, e)
  {
    match e
    case Ask(caps, q) =>
      if Assign(p, caps, w.ues[q.rnti], w.ctxts, q).Numbers? {
        AssignInRange(p, caps, w.ues[q.rnti], w.ctxts, q);
        ApartOwnsFirst(p, w, q);
        ApartIsFresh(p, w.ctxts, q);
        OwnFirstPlaces(p, caps, w, q);
      }
    case Report(_, _, _) =>
  }

  lemma LaterIsApart(p: Plan, e: Event, es: seq<Event>, f: Event, k: Key)
    requires DistinctTransactions([e] + es) && SeparateFrequencies(p, [e] + es) && e.Ask? && f in es && f.Ask? && OfRequest(k, e.q)
    ensures ApartFrom(p, k, f.q)
  {
    var all := [e] + es;
    var i :| 0 <= i < |es| && es[i] == f;
    assert all[0] == e && all[i + 1] == f;
    assert Separate(p, e.q, f.q);
  }

  lemma StaysApart(p: Plan, w: World, e: Event, es: seq<Event>)
    requires Basic(w) && Proper(w.ues.Keys, e) && DistinctTransactions([e] + es) && SeparateFrequencies(p, [e] + es)
    requires Apart(p, Keys(w.ctxts), [e] + es)
    ensures Apart(p, Keys(Step(p, w, e).ctxts), es)
  {
    StepBasics(p, w, e);
    forall k, f | k in Keys(Step(p, w, e).ctxts) && f in es && f.Ask?
      ensures ApartFrom(p, k, f.q)
    {
      assert f in [e] + es;
      if k !in Keys(w.ctxts) {
        LaterIsApart(p, e, es, f, k);
      }
    }
  }

  lemma Tail(p: Plan, es: seq<Event>)
    requires es != [] && HaveEvents(es) && DistinctTransactions(es) && SeparateFrequencies(p, es)
    ensures es == [es[0]] + es[1..] && HaveEvents(es[1..]) && DistinctTransactions(es[1..]) && SeparateFrequencies(p, es[1..])
  {
    assert forall e :: e in es[1..] ==> e in es;
  }

  lemma {:induction false} SeparateRunsFit(p: Plan, w: World, es: seq<Event>)
    requires GoodWorld(p, w) && (forall e :: e in es ==> Proper(w.ues.Keys, e))
    requires HaveEvents(es) && DistinctTransactions(es) && SeparateFrequencies(p, es) && Apart(p, Keys(w.ctxts), es)
    ensures AsksFit(p, w, es)
    decreases |es|
  {
    if es != [] {
      var e := es[0];
      ApartFits(p, w, e);
      Tail(p, es);
      StepBasics(p, w, e);
      StepKeepsGoodIff(p, w, e);
      StaysApart(p, w, e, es[1..]);
      SeparateRunsFit(p, Step(p, w, e), es[1..]);
    }
  }

  ghost function NewTerminals(us: set<nat>): World {
    World(map u | u in us :: Empty(), [])
  }

  lemma NewTerminalsGood(p: Plan, us: set<nat>)
    ensures GoodWorld(p, NewTerminals(us)) && NewTerminals(us).ues.Keys == us && Keys(NewTerminals(us).ctxts) == {}
  {
    forall u | u in us
      ensures Good(p, Empty(), Keys([]), u)
    {
    }
  }

  /** In every run of any number of terminals whose requests carry a trigger and distinct transactions, and that
      share no physical frequency between terminals, no terminal ever has two measurement objects on the same
      physical frequency, whatever bands there are. */
  lemma FrequenciesStayDistinct(p: Plan, us: set<nat>, es: seq<Event>, u: nat)
    requires (forall e :: e in es ==> Proper(us, e)) && u in us
    requires HaveEvents(es) && DistinctTransactions(es) && SeparateFrequencies(p, es)
    ensures var w := NewTerminals(us);
      && Basic(w) && w.ues.Keys == us
      && var t := After(p, w, es).ues[u];
         Integrity(t) && DistinctFrequencies(p, t)
  {
    var w := NewTerminals(us);
    NewTerminalsGood(p, us);
    SeparateRunsFit(p, w, es);
    StaysGoodIff(p, w, es);
    StaysGoodEndsGood(p, w, es);
    var w' := After(p, w, es);
    GoodIsDistinct(p, w'.ues[u], Keys(w'.ctxts), u);
  }

  /** One terminal alone: the frequencies do not matter. */
  lemma OneTerminalStaysDistinct(p: Plan, u: nat, es: seq<Event>)
    requires (forall e :: e in es ==> Proper({u}, e)) && HaveEvents(es) && DistinctTransactions(es)
    ensures var w := NewTerminals({u});
      && Basic(w) && w.ues.Keys == {u}
      && var t := After(p, w, es).ues[u];
         Integrity(t) && DistinctFrequencies(p, t)
  {
    assert SeparateFrequencies(p, es);
    FrequenciesStayDistinct(p, {u}, es, u);
  }

  // ----- Where it fails

  const ANY: Caps := Caps([1], true, true, true, true, 0, 1)
  const NONE_SET: Common := Common(None, None, None, None, None, None, None)

  function On(carrier: nat): ObjectReq {
    EutraObject(Some(carrier), Some(0), [], [])
  }

  /** Carriers 200 and 300 are on distinct frequencies of a band of the plan, as they are in band 1. */
  ghost predicate TwoCarriers(p: Plan) {
    ObjectFits(p, ANY, On(200)) && ObjectFits(p, ANY, On(300)) && Frequency(p, 200) != Frequency(p, 300)
  }

  lemma EutraHasTwoCarriers()
    ensures TwoCarriers(Eutra())
  {
    var f := Eutra().fdd;
    assert f[0] == Fdd1To10()[0];
    TablesDisjoint(200);
    TablesDisjoint(300);
    assert 1 in ANY.bands;
  }

  /** A request that finds no trigger on its frequency. */
  lemma NewMeasurement(p: Plan, w: World, q: Request)
    requires WorldOk(w) && q.rnti in w.ues && q.obj.EutraObject? && ObjectFits(p, ANY, q.obj)
    requires q.conf.EutraConf? && q.conf.common == NONE_SET && (q.conf.trigger.A3? || q.conf.trigger.NoTrigger?)
    requires ScanObject(p, w.ctxts, Or0(q.obj.carrier)) == 0
    ensures var t := w.ues[q.rnti];
      var o, vc := FirstFree(t.objs, 0), ScanConf(w.ctxts, q.conf);
      var c := if vc > 0 then vc else FirstFree(t.confs, 0);
      Assign(p, ANY, t, w.ctxts, q)
      == if vc == -1 || FirstFree(t.ids, 0) == 0 || o == 0 || c <= 0 then Refused else Numbers(FirstFree(t.ids, 0), o, c, false)
  {
  }

  /** After one request without trigger: refused, but measurement 1 and object 1 are left behind. */
  lemma AfterFailedRequest(p: Plan, q: Request)
    requires TwoCarriers(p) && q == Request(1, 5, On(300), EutraConf(NONE_SET, NoTrigger))
    ensures var w0 := World(map[5 := Empty()], []);
      && WorldOk(w0)
      && var w1 := Requested(p, ANY, w0, q);
         && WorldOk(w1) && w1.ctxts == [] && 5 in w1.ues
         && var t := w1.ues[5];
            t.ids == Empty().ids[0 := Some(IdEntry(1, 1, 1))] && t.confs == Empty().confs
            && t.objs == Empty().objs[0 := Some(ObjEntry(1, BuiltObject(On(300), false)))]
  {
    NewMeasurement(p, World(map[5 := Empty()], []), q);
  }

  /** A request without trigger is refused, but leaves its object behind; the next request on the same frequency
      then adds a second one. */
  lemma FailedRequestDoublesFrequency(p: Plan) returns (q1: Request, q2: Request)
    requires TwoCarriers(p)
    ensures q1.tid != q2.tid && q1.rnti == q2.rnti
    ensures var w0 := World(map[q1.rnti := Empty()], []);
      && WorldOk(w0)
      && var w1 := Requested(p, ANY, w0, q1);
         && WorldOk(w1) && q2.rnti in w1.ues
         && var t := Requested(p, ANY, w1, q2).ues[q2.rnti];
            Shaped(t) && !DistinctFrequencies(p, t)
  {
    q1 := Request(1, 5, On(300), EutraConf(NONE_SET, NoTrigger));
    q2 := Request(2, 5, On(300), ON_A3);
    AfterFailedRequest(p, q1);
    var w1 := Requested(p, ANY, World(map[5 := Empty()], []), q1);
    NewMeasurement(p, w1, q2);
    assert FirstFree(w1.ues[5].ids, 1) == 2 && FirstFree(w1.ues[5].objs, 1) == 2;
    var t := Requested(p, ANY, w1, q2).ues[5];
    assert t.objs[0].value.body.carrier == 300 && t.objs[1].value.body.carrier == 300;
  }

  lemma AddedObject(t: Tables, m: nat, obj: ObjectReq, o: nat, conf: ConfReq, c: nat, si: bool)
    requires Shaped(t) && InRange(m) && InRange(o) && InRange(c) && obj.EutraObject?
    ensures var t' := Added(t, m, Some(obj), o, Some(conf), c, si).0;
      && t'.objs[o - 1].Some? && t'.objs[o - 1].value.body.carrier == Or0(obj.carrier)
      && (forall i :: 0 <= i < SLOTS && i != m - 1 ==> t'.ids[i] == t.ids[i])
  {
  }

  lemma ForeignNumberWritten(p: Plan, caps: Caps, w: World, q: Request, x: Context)
    requires WorldOk(w) && q.rnti in w.ues && q.obj.EutraObject?
    requires FirstOn(p, w.ctxts, Or0(q.obj.carrier)) == Some(x) && Assign(p, caps, w.ues[q.rnti], w.ctxts, q).Numbers?
    ensures InRange(x.o) && Assign(p, caps, w.ues[q.rnti], w.ctxts, q).o == x.o
    ensures var t, t' := w.ues[q.rnti], Requested(p, caps, w, q).ues[q.rnti];
      && Shaped(t')
      && t'.objs[x.o - 1].Some? && t'.objs[x.o - 1].value.body.carrier == Or0(q.obj.carrier)
      && (forall i :: 0 <= i < SLOTS && t.ids[i].Some? ==> t'.ids[i] == t.ids[i])
  {
    var n := Assign(p, caps, w.ues[q.rnti], w.ctxts, q);
    ScanMeaning(p, w.ctxts, Or0(q.obj.carrier));
    AssignInRange(p, caps, w.ues[q.rnti], w.ctxts, q);
    AddedObject(w.ues[q.rnti], n.m, q.obj, n.o, q.conf, n.c, caps.si);
  }

  lemma ForeignNumberMisplaced(p: Plan, caps: Caps, w: World, q: Request, x: Context)
    requires GoodWorld(p, w) && q.rnti in w.ues && q.obj.EutraObject? && InRange(x.o)
    requires FirstOn(p, w.ctxts, Or0(q.obj.carrier)) == Some(x) && Assign(p, caps, w.ues[q.rnti], w.ctxts, q).Numbers?
    requires var mine := w.ues[q.rnti].objs[x.o - 1]; mine.Some? && mine.value.body.carrier != Or0(q.obj.carrier)
    ensures !WellPlaced(p, caps, w, q)
  {
    var t, k := w.ues[q.rnti], KeyOf(Registered(q, Assign(p, caps, w.ues[q.rnti], w.ctxts, q)));
    ForeignNumberWritten(p, caps, w, q, x);
    forall l | l in Keys(w.ctxts) && l.rnti == q.rnti
      ensures !(l.o == k.o && l.carrier == k.carrier)
    {
      assert Matches(t, l);
    }
  }

  /** The scan does not look at the terminal: if the first trigger on the frequency is another terminal's, its
      object number is used. An object of this terminal with that number on another carrier is overwritten; the
      measurements that pointed to it still do, and the invariant is lost. */
  lemma ForeignNumberOverwrites(p: Plan, caps: Caps, w: World, q: Request, x: Context)
    requires GoodWorld(p, w) && q.rnti in w.ues && q.obj.EutraObject?
    requires FirstOn(p, w.ctxts, Or0(q.obj.carrier)) == Some(x) && x.rnti != q.rnti && InRange(x.o)
    requires Assign(p, caps, w.ues[q.rnti], w.ctxts, q).Numbers?
    requires var mine := w.ues[q.rnti].objs[x.o - 1]; mine.Some? && mine.value.body.carrier != Or0(q.obj.carrier)
    ensures var t, t' := w.ues[q.rnti], Requested(p, caps, w, q).ues[q.rnti];
      && Shaped(t')
      && t'.objs[x.o - 1].Some? && t'.objs[x.o - 1].value.body.carrier == Or0(q.obj.carrier)
      && (forall i :: 0 <= i < SLOTS && t.ids[i].Some? ==> t'.ids[i] == t.ids[i])
    ensures !GoodWorld(p, Requested(p, caps, w, q))
  {
    ForeignNumberMisplaced(p, caps, w, q, x);
    RequestKeepsGoodIff(p, caps, w, q);
    ForeignNumberWritten(p, caps, w, q, x);
  }

  const ON_A3: ConfReq := EutraConf(NONE_SET, A3(0, None))

  /** The first request of a terminal whose tables are empty. */
  lemma FirstMeasurement(p: Plan, w: World, q: Request)
    requires GoodWorld(p, w) && q.rnti in w.ues && w.ues[q.rnti] == Empty() && q.obj.EutraObject? && ObjectFits(p, ANY, q.obj)
    requires q.conf == ON_A3 && Fresh(w.ctxts, q.tid) && ScanObject(p, w.ctxts, Or0(q.obj.carrier)) == 0
    requires OwnFirst(p, w, q) && ScanConf(w.ctxts, ON_A3) in {0, 1}
    ensures Assign(p, ANY, Empty(), w.ctxts, q) == Numbers(1, 1, 1, false)
    ensures GoodWorld(p, Requested(p, ANY, w, q))
  {
    NewMeasurement(p, w, q);
    OwnFirstPlaces(p, ANY, w, q);
    RequestKeepsGoodIff(p, ANY, w, q);
  }

  lemma FirstMeasurementEffect(p: Plan, w: World, q: Request)
    requires WorldOk(w) && q.rnti in w.ues && w.ues[q.rnti] == Empty() && q.obj.EutraObject? && q.conf == ON_A3
    requires Assign(p, ANY, Empty(), w.ctxts, q) == Numbers(1, 1, 1, false) && CheckObject(p, ANY, w.ctxts, q.obj) == 0
    ensures var w' := Requested(p, ANY, w, q);
      && w'.ues == w.ues[q.rnti := Added(Empty(), 1, Some(q.obj), 1, Some(ON_A3), 1, true).0]
      && w'.ctxts == Insert(w.ctxts, Context(q.tid, q.rnti, 1, q.obj, 1, ON_A3, 1))
  {
  }

  lemma FirstOfTwo(p: Plan) returns (w: World)
    requires TwoCarriers(p)
    ensures GoodWorld(p, w) && w.ues.Keys == {1, 2} && w.ues[2] == Empty()
    ensures w.ctxts == [Context(1, 1, 1, On(300), 1, ON_A3, 1)]
  {
    var w0, q := World(map[1 := Empty(), 2 := Empty()], []), Request(1, 1, On(300), ON_A3);
    assert Good(p, Empty(), Keys([]), 1) && Good(p, Empty(), Keys([]), 2);
    FirstMeasurement(p, w0, q);
    FirstMeasurementEffect(p, w0, q);
    w := Requested(p, ANY, w0, q);
  }

  /** The second terminal's request meets one trigger, on another frequency and with an equal configuration. */
  lemma SecondFindsNothing(p: Plan, ctxts: seq<Context>)
    requires TwoCarriers(p) && ctxts == [Context(1, 1, 1, On(300), 1, ON_A3, 1)]
    ensures ScanObject(p, ctxts, 200) == 0 && FirstOn(p, ctxts, 200).None? && ScanConf(ctxts, ON_A3) == 1 && Fresh(ctxts, 2)
  {
    assert ctxts[1..] == [];
  }

  lemma FirstTables(obj: ObjectReq)
    requires obj.EutraObject?
    ensures var t := Added(Empty(), 1, Some(obj), 1, Some(ON_A3), 1, true).0;
      && t.ids == Empty().ids[0 := Some(IdEntry(1, 1, 1))]
      && t.objs[0].Some? && t.objs[0].value.body.carrier == Or0(obj.carrier)
  {
  }

  lemma InsertSecond(x: Context, y: Context)
    requires x.tid < y.tid
    ensures Insert([x], y) == [x, y]
  {
    assert [x][1..] == [];
  }

  lemma TwoTerminals(p: Plan) returns (w: World)
    requires TwoCarriers(p)
    ensures GoodWorld(p, w) && w.ues.Keys == {1, 2}
    ensures w.ctxts == [Context(1, 1, 1, On(300), 1, ON_A3, 1), Context(2, 2, 1, On(200), 1, ON_A3, 1)]
    ensures w.ues[2].ids == Empty().ids[0 := Some(IdEntry(1, 1, 1))]
    ensures w.ues[2].objs[0].Some? && w.ues[2].objs[0].value.body.carrier == 200
  {
    var q := Request(2, 2, On(200), ON_A3);
    var w1 := FirstOfTwo(p);
    SecondFindsNothing(p, w1.ctxts);
    FirstMeasurement(p, w1, q);
    FirstMeasurementEffect(p, w1, q);
    FirstTables(q.obj);
    InsertSecond(w1.ctxts[0], Context(2, 2, 1, On(200), 1, ON_A3, 1));
    w := Requested(p, ANY, w1, q);
  }

  /** Two terminals, each with object 1: the first on carrier 300, the second on 200. When the second asks for
      carrier 300, its measurement 1 is moved from carrier 200 to 300. */
  lemma OtherTerminalMovesMeasurement(p: Plan) returns (w: World, q: Request)
    requires TwoCarriers(p)
    ensures GoodWorld(p, w) && w.ues.Keys == {1, 2} && q.rnti == 2 && Fresh(w.ctxts, q.tid) && Buildable(q.conf)
    ensures var t, t' := w.ues[2], Requested(p, ANY, w, q).ues[2];
      && Shaped(t') && t.ids[0].Some? && t'.ids[0] == t.ids[0] && t.ids[0].value.obj == 1
      && t.objs[0].Some? && t.objs[0].value.body.carrier == 200
      && t'.objs[0].Some? && t'.objs[0].value.body.carrier == 300
  {
    w := TwoTerminals(p);
    q := Request(3, 2, On(300), ON_A3);
    assert FirstFree(w.ues[2].ids, 1) == 2;
    assert Assign(p, ANY, w.ues[2], w.ctxts, q) == Numbers(2, 1, 1, true);
    ForeignNumberOverwrites(p, ANY, w, q, w.ctxts[0]);
  }
}
