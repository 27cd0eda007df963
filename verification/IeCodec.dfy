/** The encoders and decoders that `asn1tostruct.py` generates, for an arbitrary schema. A message is a list of
    information elements (IEs); optional ones are marked in a 16-bit presence mask, kept here as the set of
    its bits. The ASN.1 codec of single values is a parameter. */
module IeCodec {
  import opened Wrappers

  /** A value before it is encoded: simple, or the list of elements inside a list-typed IE. */
  datatype Asn<W> = Simple(v: nat) | Contained(ies: seq<Ie<W>>)

  datatype Ie<W> = Ie(id: nat, criticality: nat, value: W)

  /** Encoding and decoding by type number. */
  datatype Codec<!W> = Codec(enc: (nat, Asn<W>) -> W, dec: (nat, W) -> Option<Asn<W>>)

  ghost predicate Inverse<W(!new)>(c: Codec<W>) {
    forall t: nat, a: Asn<W> :: c.dec(t, c.enc(t, a)) == Some(a)
  }

  /** Values on the wire that keep everything, and their codec: one that has an inverse. */
  datatype Wire = Wire(t: nat, a: Asn<Wire>)

  const VERBATIM: Codec<Wire> := Codec((t, a) => Wire(t, a), (t, w: Wire) => if w.t == t then Some(w.a) else None)

  lemma VerbatimInverse()
    ensures Inverse(VERBATIM)
  {
  }

  datatype ItemDef = ItemDef(id: nat, criticality: nat, typ: nat)

  datatype Presence = Mandatory | Optional | Conditional

  /** `items` is empty for a plain type, otherwise the elements that a list of this type may hold. */
  datatype IeDef = IeDef(id: nat, criticality: nat, typ: nat, items: seq<ItemDef>, presence: Presence)

  datatype Field = Plain(v: nat) | List(vs: seq<nat>)

  datatype Message = Message(mask: set<nat>, fields: seq<Field>)

  const MASK_BITS: nat := 16

  predicate IsList(d: IeDef) {
    d.items != []
  }

  /** The presence bit of IE `i`: the generator numbers the non-mandatory IEs in order. */
  function BitOf(schema: seq<IeDef>, i: nat): (n: nat)
    requires i <= |schema|
    ensures n <= i
  {
    if i == 0 then 0 else BitOf(schema, i - 1) + if schema[i - 1].presence.Mandatory? then 0 else 1
  }

  ghost predicate WellTyped(schema: seq<IeDef>, m: Message) {
    && |m.fields| == |schema|
    && (forall i :: 0 <= i < |schema| ==> (IsList(schema[i]) <==> m.fields[i].List?))
  }

  function ZeroField(d: IeDef): (f: Field)
    ensures IsList(d) <==> f.List?
  {
    if IsList(d) then List([]) else Plain(0)
  }

  /** A zeroed message. */
  function Zero(schema: seq<IeDef>): (m: Message)
    ensures WellTyped(schema, m)
  {
    Message({}, seq(|schema|, i requires 0 <= i < |schema| => ZeroField(schema[i])))
  }

  predicate Present(schema: seq<IeDef>, m: Message, i: nat)
    requires i < |schema|
  {
    schema[i].presence.Mandatory? || BitOf(schema, i) in m.mask
  }

  /** Only sixteen bits exist. */
  ghost predicate MaskOk(m: Message) {
    forall b :: b in m.mask ==> b < MASK_BITS
  }

  function SetBit(mask: set<nat>, b: nat): set<nat> {
    if b < MASK_BITS then mask + {b} else mask
  }

  /** The generator handles a list-typed IE only where it is mandatory. */
  ghost predicate ListsMandatory(schema: seq<IeDef>) {
    forall i :: 0 <= i < |schema| && IsList(schema[i]) ==> schema[i].presence.Mandatory?
  }

  // ----- Encoding

  function EncodedItems<W>(c: Codec<W>, d: ItemDef, vs: seq<nat>): seq<Ie<W>> {
    seq(|vs|, i requires 0 <= i < |vs| => Ie(d.id, d.criticality, c.enc(d.typ, Simple(vs[i]))))
  }

  function EncodedIe<W>(c: Codec<W>, d: IeDef, f: Field): Ie<W>
    requires IsList(d) <==> f.List?
  {
    Ie(d.id, d.criticality, c.enc(d.typ, if f.Plain? then Simple(f.v) else Contained(EncodedItems(c, d.items[0], f.vs))))
  }

  /** The IEs from position `i` of the schema on. */
  function EncodedFrom<W>(c: Codec<W>, schema: seq<IeDef>, m: Message, i: nat): seq<Ie<W>>
    requires WellTyped(schema, m) && i <= |schema|
    decreases |schema| - i
  {
    if i == |schema| then []
    else (if Present(schema, m, i) then [EncodedIe(c, schema[i], m.fields[i])] else []) + EncodedFrom(c, schema, m, i + 1)
  }

  /** The positions from `i` on whose IE is present. */
  function PresentFrom(schema: seq<IeDef>, m: Message, i: nat): seq<nat>
    requires i <= |schema|
    decreases |schema| - i
  {
    if i == |schema| then []
    else (if Present(schema, m, i) then [i] else []) + PresentFrom(schema, m, i + 1)
  }

  /** Each of them once, in increasing order. */
  lemma {:induction false} PresentFromMeaning(schema: seq<IeDef>, m: Message, i: nat)
    requires i <= |schema|
    ensures var ks := PresentFrom(schema, m, i);
      && (forall k :: k in ks <==> i <= k < |schema| && Present(schema, m, k))
      && (forall j, k :: 0 <= j < k < |ks| ==> ks[j] < ks[k])
    decreases |schema| - i
  {
    if i < |schema| {
      PresentFromMeaning(schema, m, i + 1);
      var rest := PresentFrom(schema, m, i + 1);
      assert forall j :: 0 <= j < |rest| ==> rest[j] in rest;
    }
  }

  lemma EncodedStep<W>(c: Codec<W>, schema: seq<IeDef>, m: Message, i: nat)
    requires WellTyped(schema, m) && i < |schema|
    ensures var l, ks := EncodedFrom(c, schema, m, i + 1), PresentFrom(schema, m, i + 1);
      && EncodedFrom(c, schema, m, i) == (if Present(schema, m, i) then [EncodedIe(c, schema[i], m.fields[i])] + l else l)
      && PresentFrom(schema, m, i) == (if Present(schema, m, i) then [i] + ks else ks)
  {
    var l, ks := EncodedFrom(c, schema, m, i + 1), PresentFrom(schema, m, i + 1);
    assert [] + l == l && [] + ks == ks;
  }

  /** The IEs bear, one by one, id and criticality of the schema entries at `ks`. */
  ghost predicate Stamped<W>(schema: seq<IeDef>, l: seq<Ie<W>>, ks: seq<nat>) {
    && |l| == |ks|
    && forall j :: 0 <= j < |l| ==>
         ks[j] < |schema| && l[j].id == schema[ks[j]].id && l[j].criticality == schema[ks[j]].criticality
  }

  ghost predicate Paired<W>(l: seq<Ie<W>>, ks: seq<nat>, good: (Ie<W>, nat) -> bool) {
    |l| == |ks| && forall j :: 0 <= j < |l| ==> good(l[j], ks[j])
  }

  /** From position `i` on both lists are those from `i + 1` on, or one good pair longer. */
  ghost predicate Longer<W>(l: nat -> seq<Ie<W>>, ks: nat -> seq<nat>, i: nat, good: (Ie<W>, nat) -> bool) {
    || (l(i) == l(i + 1) && ks(i) == ks(i + 1))
    || (l(i) != [] && ks(i) == [i] + ks(i + 1) && l(i)[1..] == l(i + 1) && good(l(i)[0], i))
  }

  lemma {:induction false} PairedFrom<W>(l: nat -> seq<Ie<W>>, ks: nat -> seq<nat>, n: nat, i: nat, good: (Ie<W>, nat) -> bool)
    requires i <= n && l(n) == [] && ks(n) == [] && forall j: nat :: j < n ==> Longer(l, ks, j, good)
    ensures Paired(l(i), ks(i), good)
    decreases n - i
  {
    if i < n {
      PairedFrom(l, ks, n, i + 1, good);
      assert Longer(l, ks, i, good);
      if l(i) != l(i + 1) || ks(i) != ks(i + 1) {
        assert l(i) == [l(i)[0]] + l(i + 1);
      }
    }
  }

  lemma LongerBy<W>(l: nat -> seq<Ie<W>>, ks: nat -> seq<nat>, i: nat, good: (Ie<W>, nat) -> bool, present: bool, ie: Ie<W>)
    requires l(i) == (if present then [ie] + l(i + 1) else l(i + 1)) && ks(i) == if present then [i] + ks(i + 1) else ks(i + 1)
    requires good(ie, i)
    ensures Longer(l, ks, i, good)
  {
    if present {
      assert l(i)[1..] == l(i + 1);
    }
  }

  /** The encoding, and the positions present, by the position they start from. */
  function Encodings<W>(c: Codec<W>, schema: seq<IeDef>, m: Message): nat -> seq<Ie<W>>
    requires WellTyped(schema, m)
  {
    (k: nat) => if k <= |schema| then EncodedFrom(c, schema, m, k) else []
  }

  function Presents(schema: seq<IeDef>, m: Message): nat -> seq<nat> {
    (k: nat) => if k <= |schema| then PresentFrom(schema, m, k) else []
  }

  lemma EncodedLonger<W>(c: Codec<W>, schema: seq<IeDef>, m: Message, i: nat, good: (Ie<W>, nat) -> bool)
    requires WellTyped(schema, m) && i < |schema| && good(EncodedIe(c, schema[i], m.fields[i]), i)
    ensures Longer(Encodings(c, schema, m), Presents(schema, m), i, good)
  {
    EncodedStep(c, schema, m, i);
    LongerBy(Encodings(c, schema, m), Presents(schema, m), i, good, Present(schema, m, i), EncodedIe(c, schema[i], m.fields[i]));
  }

  ghost predicate GoodIe<W>(c: Codec<W>, schema: seq<IeDef>, m: Message, k: nat, good: (Ie<W>, nat) -> bool)
    requires WellTyped(schema, m)
  {
    k < |schema| ==> good(EncodedIe(c, schema[k], m.fields[k]), k)
  }

  /** Whatever holds of every entry's IE holds of all IEs sent. */
  lemma EncodedPaired<W>(c: Codec<W>, schema: seq<IeDef>, m: Message, i: nat, good: (Ie<W>, nat) -> bool)
    requires WellTyped(schema, m) && i <= |schema| && forall k: nat :: GoodIe(c, schema, m, k, good)
    ensures Paired(EncodedFrom(c, schema, m, i), PresentFrom(schema, m, i), good)
  {
    forall j: nat | j < |schema|
      ensures Longer(Encodings(c, schema, m), Presents(schema, m), j, good)
    {
      assert GoodIe(c, schema, m, j, good);
      EncodedLonger(c, schema, m, j, good);
    }
    PairedFrom(Encodings(c, schema, m), Presents(schema, m), |schema|, i, good);
  }

  /** The encoder sends one IE for every present entry of the schema and no other, in the order of the schema, with the
      entry's id and criticality. */
  lemma EncodedInOrder<W>(c: Codec<W>, schema: seq<IeDef>, m: Message, i: nat)
    requires WellTyped(schema, m) && i <= |schema|
    ensures Stamped(schema, EncodedFrom(c, schema, m, i), PresentFrom(schema, m, i))
  {
    var stamped := (ie: Ie<W>, k: nat) => k < |schema| && ie.id == schema[k].id && ie.criticality == schema[k].criticality;
    EncodedPaired(c, schema, m, i, stamped);
  }

  /** What a field is encoded from. */
  function Payload<W>(c: Codec<W>, d: IeDef, f: Field): Asn<W>
    requires IsList(d) <==> f.List?
  {
    if f.Plain? then Simple(f.v) else Contained(EncodedItems(c, d.items[0], f.vs))
  }

  /** The values of the IEs, read under the types that the schema gives to the entries at `ks`. */
  ghost predicate Typed<W>(c: Codec<W>, schema: seq<IeDef>, m: Message, l: seq<Ie<W>>, ks: seq<nat>)
    requires WellTyped(schema, m)
  {
    && |l| == |ks|
    && forall j :: 0 <= j < |l| ==>
         ks[j] < |schema| && c.dec(schema[ks[j]].typ, l[j].value) == Some(Payload(c, schema[ks[j]], m.fields[ks[j]]))
  }

  lemma EncodedIeTyped<W(!new)>(c: Codec<W>, d: IeDef, f: Field)
    requires Inverse(c) && (IsList(d) <==> f.List?)
    ensures c.dec(d.typ, EncodedIe(c, d, f).value) == Some(Payload(c, d, f))
  {
  }

  /** Every IE holds its field under the type of its schema entry, whatever codec is plugged in. */
  lemma EncodedTyped<W(!new)>(c: Codec<W>, schema: seq<IeDef>, m: Message, i: nat)
    requires Inverse(c) && WellTyped(schema, m) && i <= |schema|
    ensures Typed(c, schema, m, EncodedFrom(c, schema, m, i), PresentFrom(schema, m, i))
  {
    var typed := (ie: Ie<W>, k: nat) =>
      k < |schema| && c.dec(schema[k].typ, ie.value) == Some(Payload(c, schema[k], m.fields[k]));
    forall k: nat
      ensures GoodIe(c, schema, m, k, typed)
    {
      if k < |schema| {
        EncodedIeTyped(c, schema[k], m.fields[k]);
      }
    }
    EncodedPaired(c, schema, m, i, typed);
  }

  /** Every element of a list is sent in order, with id, criticality and type of the list's first element definition. */
  lemma EncodedItemsInOrder<W(!new)>(c: Codec<W>, d: ItemDef, vs: seq<nat>)
    requires Inverse(c)
    ensures var l := EncodedItems(c, d, vs);
      && |l| == |vs|
      && forall j :: 0 <= j < |l| ==>
           l[j].id == d.id && l[j].criticality == d.criticality && c.dec(d.typ, l[j].value) == Some(Simple(vs[j]))
  {
  }

  /** The generated list encoder. */
  method EncodeItems<W>(c: Codec<W>, d: ItemDef, vs: seq<nat>) returns (l: seq<Ie<W>>)
    ensures l == EncodedItems(c, d, vs)
  {
    l := [];
    for i := 0 to |vs|
      invariant |l| == i && forall j :: 0 <= j < i ==> l[j] == Ie(d.id, d.criticality, c.enc(d.typ, Simple(vs[j])))
    {
      l := l + [Ie(d.id, d.criticality, c.enc(d.typ, Simple(vs[i])))];
    }
  }

  /** The generated message encoder. */
  method Encode<W>(c: Codec<W>, schema: seq<IeDef>, m: Message) returns (l: seq<Ie<W>>)
    requires WellTyped(schema, m) && ListsMandatory(schema)
    ensures l == EncodedFrom(c, schema, m, 0)
  {
    l := [];
    var shift := 0;
    for i := 0 to |schema|
      invariant shift == BitOf(schema, i)
      invariant EncodedFrom(c, schema, m, 0) == l + EncodedFrom(c, schema, m, i)
    {
      var d := schema[i];
      if !d.presence.Mandatory? {
        if shift in m.mask {
          l := l + [Ie(d.id, d.criticality, c.enc(d.typ, Simple(m.fields[i].v)))];
        }
        shift := shift + 1;
      } else if IsList(d) {
        var inner := EncodeItems(c, d.items[0], m.fields[i].vs);
        l := l + [Ie(d.id, d.criticality, c.enc(d.typ, Contained(inner)))];
      } else {
        l := l + [Ie(d.id, d.criticality, c.enc(d.typ, Simple(m.fields[i].v)))];
      }
    }
  }

  // ----- Decoding

  function FindItem(items: seq<ItemDef>, id: nat): (i: nat)
    ensures i <= |items| && (i < |items| ==> items[i].id == id)
    ensures forall k :: 0 <= k < i ==> items[k].id != id
  {
    if items == [] || items[0].id == id then 0 else 1 + FindItem(items[1..], id)
  }

  /** The list decoder appends to what is there; at an unknown element or a value that does not decode it stops
      with an error. */
  function DecodedItems<W>(c: Codec<W>, items: seq<ItemDef>, have: seq<nat>, ies: seq<Ie<W>>): (seq<nat>, bool)
    decreases |ies|
  {
    if ies == [] then (have, true)
    else
      var k := FindItem(items, ies[0].id);
      if k == |items| then (have, false)
      else
        var a := c.dec(items[k].typ, ies[0].value);
        if a.None? || !a.value.Simple? then (have, false)
        else DecodedItems(c, items, have + [a.value.v], ies[1..])
  }

  function FindIe(schema: seq<IeDef>, id: nat): (i: nat)
    ensures i <= |schema| && (i < |schema| ==> schema[i].id == id)
    ensures forall k :: 0 <= k < i ==> schema[k].id != id
  {
    if schema == [] || schema[0].id == id then 0 else 1 + FindIe(schema[1..], id)
  }

  /** One IE of a message. The presence bit is set before the value is decoded; an error inside a list is only
      logged. */
  function DecodedIe<W>(c: Codec<W>, schema: seq<IeDef>, m: Message, ie: Ie<W>): (r: Option<Message>)
    requires WellTyped(schema, m)
    ensures r.Some? ==> WellTyped(schema, r.value)
  {
    var i := FindIe(schema, ie.id);
    if i == |schema| then None
    else
      var d, a := schema[i], c.dec(schema[i].typ, ie.value);
      if a.None? || (IsList(d) <==> a.value.Simple?) then None
      else
        Some(Message(if d.presence.Mandatory? then m.mask else SetBit(m.mask, BitOf(schema, i)),
                     m.fields[i := if a.value.Simple? then Plain(a.value.v)
                                   else List(DecodedItems(c, d.items, m.fields[i].vs, a.value.ies).0)]))
  }

  function Decoded<W>(c: Codec<W>, schema: seq<IeDef>, m: Message, ies: seq<Ie<W>>): (r: Option<Message>)
    requires WellTyped(schema, m)
    ensures r.Some? ==> WellTyped(schema, r.value)
    decreases |ies|
  {
    if ies == [] then Some(m)
    else
      var r := DecodedIe(c, schema, m, ies[0]);
      if r.None? then None else Decoded(c, schema, r.value, ies[1..])
  }

  method DecodeItems<W>(c: Codec<W>, items: seq<ItemDef>, have: seq<nat>, ies: seq<Ie<W>>) returns (vs: seq<nat>, ok: bool)
    ensures (vs, ok) == DecodedItems(c, items, have, ies)
  {
    vs := have;
    for i := 0 to |ies|
      invariant DecodedItems(c, items, have, ies) == DecodedItems(c, items, vs, ies[i..])
    {
      assert ies[i..][0] == ies[i] && ies[i..][1..] == ies[i + 1..];
      var k := FindItem(items, ies[i].id);
      if k == |items| {
        return vs, false;
      }
      var a := c.dec(items[k].typ, ies[i].value);
      if a.None? || !a.value.Simple? {
        return vs, false;
      }
      vs := vs + [a.value.v];
    }
    ok := true;
  }

  /** The generated message decoder. */
  method Decode<W>(c: Codec<W>, schema: seq<IeDef>, m: Message, ies: seq<Ie<W>>) returns (r: Option<Message>)
    requires WellTyped(schema, m)
    ensures r == Decoded(c, schema, m, ies)
  {
    var now := m;
    for k := 0 to |ies|
      invariant WellTyped(schema, now)
      invariant Decoded(c, schema, m, ies) == Decoded(c, schema, now, ies[k..])
    {
      assert ies[k..][0] == ies[k] && ies[k..][1..] == ies[k + 1..];
      var i := FindIe(schema, ies[k].id);
      if i == |schema| {
        return None;
      }
      var d := schema[i];
      var mask := now.mask;
      if !d.presence.Mandatory? {
        mask := SetBit(mask, BitOf(schema, i));
      }
      var a := c.dec(d.typ, ies[k].value);
      if a.None? || (IsList(d) <==> a.value.Simple?) {
        return None;
      }
      var f := Plain(0);
      if IsList(d) {
        var vs, _ := DecodeItems(c, d.items, now.fields[i].vs, a.value.ies);
        f := List(vs);
      } else {
        f := Plain(a.value.v);
      }
      now := Message(mask, now.fields[i := f]);
    }
    r := Some(now);
  }

  // ----- The round trip

  ghost predicate DistinctIds(schema: seq<IeDef>) {
    forall i, j :: 0 <= i < j < |schema| ==> schema[i].id != schema[j].id
  }

  lemma {:induction false} ItemsRoundTrip<W(!new)>(c: Codec<W>, items: seq<ItemDef>, have: seq<nat>, vs: seq<nat>)
    requires Inverse(c) && items != []
    ensures DecodedItems(c, items, have, EncodedItems(c, items[0], vs)) == (have + vs, true)
    decreases |vs|
  {
    var l := EncodedItems(c, items[0], vs);
    if vs == [] {
      assert have + vs == have;
    } else {
      assert l[1..] == EncodedItems(c, items[0], vs[1..]);
      assert c.dec(items[0].typ, l[0].value) == Some(Simple(vs[0]));
      ItemsRoundTrip(c, items, have + [vs[0]], vs[1..]);
      assert have + [vs[0]] + vs[1..] == have + vs;
    }
  }

  /** What decoding has recovered once the first `i` IEs of the schema are through. */
  ghost function Recovered(schema: seq<IeDef>, m: Message, i: nat): (r: Message)
    requires WellTyped(schema, m) && i <= |schema|
    ensures WellTyped(schema, r)
  {
    Message(set b | b in m.mask && b < BitOf(schema, i),
            seq(|schema|, j requires 0 <= j < |schema| => RecoveredField(schema, m, i, j)))
  }

  ghost function RecoveredField(schema: seq<IeDef>, m: Message, i: nat, j: nat): (f: Field)
    requires WellTyped(schema, m) && j < |schema|
    ensures IsList(schema[j]) <==> f.List?
  {
    if j < i && Present(schema, m, j) then m.fields[j] else ZeroField(schema[j])
  }

  lemma FoundAt(schema: seq<IeDef>, i: nat)
    requires DistinctIds(schema) && i < |schema|
    ensures FindIe(schema, schema[i].id) == i
  {
  }

  lemma RecoveredStep(schema: seq<IeDef>, m: Message, i: nat)
    requires WellTyped(schema, m) && MaskOk(m) && i < |schema| && Present(schema, m, i)
    ensures var r := Recovered(schema, m, i);
      && r.fields[i] == ZeroField(schema[i])
      && Recovered(schema, m, i + 1)
         == Message(if schema[i].presence.Mandatory? then r.mask else SetBit(r.mask, BitOf(schema, i)), r.fields[i := m.fields[i]])
  {
    var r, r' := Recovered(schema, m, i), Recovered(schema, m, i + 1);
    assert r'.fields == r.fields[i := m.fields[i]];
    assert r'.mask == if schema[i].presence.Mandatory? then r.mask else SetBit(r.mask, BitOf(schema, i));
  }

  lemma OneIeRecovered<W(!new)>(c: Codec<W>, schema: seq<IeDef>, m: Message, i: nat)
    requires Inverse(c) && DistinctIds(schema) && WellTyped(schema, m) && MaskOk(m) && i < |schema| && Present(schema, m, i)
    ensures DecodedIe(c, schema, Recovered(schema, m, i), EncodedIe(c, schema[i], m.fields[i]))
         == Some(Recovered(schema, m, i + 1))
  {
    var ie, d := EncodedIe(c, schema[i], m.fields[i]), schema[i];
    FoundAt(schema, i);
    RecoveredStep(schema, m, i);
    if IsList(d) {
      var vs := m.fields[i].vs;
      assert c.dec(d.typ, ie.value) == Some(Contained(EncodedItems(c, d.items[0], vs)));
      ItemsRoundTrip(c, d.items, [], vs);
      assert [] + vs == vs;
    } else {
      assert c.dec(d.typ, ie.value) == Some(Simple(m.fields[i].v));
    }
  }

  lemma AbsentIe(schema: seq<IeDef>, m: Message, i: nat)
    requires WellTyped(schema, m) && i < |schema| && !Present(schema, m, i)
    ensures Recovered(schema, m, i + 1) == Recovered(schema, m, i)
  {
    assert Recovered(schema, m, i + 1).fields == Recovered(schema, m, i).fields;
    assert Recovered(schema, m, i + 1).mask == Recovered(schema, m, i).mask;
  }

  lemma DecodedCons<W(!new)>(c: Codec<W>, schema: seq<IeDef>, m: Message, ie: Ie<W>, rest: seq<Ie<W>>)
    requires WellTyped(schema, m)
    ensures Decoded(c, schema, m, [ie] + rest)
         == var r := DecodedIe(c, schema, m, ie); if r.None? then None else Decoded(c, schema, r.value, rest)
  {
    assert ([ie] + rest)[1..] == rest;
  }

  lemma DecodeStep<W(!new)>(c: Codec<W>, schema: seq<IeDef>, m: Message, i: nat)
    requires Inverse(c) && DistinctIds(schema) && WellTyped(schema, m) && MaskOk(m) && i < |schema|
    ensures Decoded(c, schema, Recovered(schema, m, i), EncodedFrom(c, schema, m, i))
         == Decoded(c, schema, Recovered(schema, m, i + 1), EncodedFrom(c, schema, m, i + 1))
  {
    var rest := EncodedFrom(c, schema, m, i + 1);
    if Present(schema, m, i) {
      OneIeRecovered(c, schema, m, i);
      DecodedCons(c, schema, Recovered(schema, m, i), EncodedIe(c, schema[i], m.fields[i]), rest);
    } else {
      AbsentIe(schema, m, i);
      assert EncodedFrom(c, schema, m, i) == rest;
    }
  }

  /** What decoding makes of the IEs from position `i` on. */
  ghost function DecodedRest<W>(c: Codec<W>, schema: seq<IeDef>, m: Message, i: nat): Option<Message>
    requires WellTyped(schema, m) && i <= |schema|
  {
    Decoded(c, schema, Recovered(schema, m, i), EncodedFrom(c, schema, m, i))
  }

  lemma DecodedRestStep<W(!new)>(c: Codec<W>, schema: seq<IeDef>, m: Message, i: nat)
    requires Inverse(c) && DistinctIds(schema) && WellTyped(schema, m) && MaskOk(m) && i < |schema|
    ensures DecodedRest(c, schema, m, i) == DecodedRest(c, schema, m, i + 1)
  {
    DecodeStep(c, schema, m, i);
  }

  lemma DecodedRestEnd<W>(c: Codec<W>, schema: seq<IeDef>, m: Message)
    requires WellTyped(schema, m)
    ensures DecodedRest(c, schema, m, |schema|) == Some(Recovered(schema, m, |schema|))
  {
  }

  lemma DecodeFollowsEncode<W(!new)>(c: Codec<W>, schema: seq<IeDef>, m: Message)
    requires Inverse(c) && DistinctIds(schema) && WellTyped(schema, m) && MaskOk(m)
    ensures DecodedRest(c, schema, m, 0) == Some(Recovered(schema, m, |schema|))
  {
    var r := DecodedRest(c, schema, m, 0);
    for i := 0 to |schema|
      invariant DecodedRest(c, schema, m, i) == r
    {
      DecodedRestStep(c, schema, m, i);
    }
    DecodedRestEnd(c, schema, m);
  }

  /** For every schema with distinct ids, decoding an encoded message into a zeroed one recovers the value of
      every present IE, lists in order, and the presence mask: of its sixteen bits exactly those that the
      schema numbers. */
  lemma RoundTrip<W(!new)>(c: Codec<W>, schema: seq<IeDef>, m: Message)
    requires Inverse(c) && DistinctIds(schema) && ListsMandatory(schema) && WellTyped(schema, m) && MaskOk(m)
    ensures var r := Decoded(c, schema, Zero(schema), EncodedFrom(c, schema, m, 0));
      && r.Some?
      && (forall b :: b in r.value.mask <==> b in m.mask && b < BitOf(schema, |schema|))
      && (forall i :: 0 <= i < |schema| && Present(schema, m, i) ==> r.value.fields[i] == m.fields[i])
      && (forall i :: 0 <= i < |schema| && !Present(schema, m, i) ==> r.value.fields[i] == ZeroField(schema[i]))
  {
    assert Recovered(schema, m, 0).fields == Zero(schema).fields;
    assert Recovered(schema, m, 0).mask == {};
    DecodeFollowsEncode(c, schema, m);
  }

  /** An IE numbered beyond the mask can never be sent, so a schema needs at most 16 non-mandatory IEs. */
  lemma {:induction false} BeyondMaskNeverSent<W(!new)>(c: Codec<W>, schema: seq<IeDef>, m: Message, i: nat, k: nat)
    requires DistinctIds(schema) && WellTyped(schema, m) && MaskOk(m) && k < |schema| && i <= |schema|
    requires !schema[k].presence.Mandatory? && BitOf(schema, k) >= MASK_BITS
    ensures forall j :: 0 <= j < |EncodedFrom(c, schema, m, i)| ==> EncodedFrom(c, schema, m, i)[j].id != schema[k].id
    decreases |schema| - i
  {
    if i < |schema| {
      BeyondMaskNeverSent(c, schema, m, i + 1, k);
    }
  }

  /** A message that holds an id outside the schema is rejected, wherever it stands. */
  lemma {:induction false} UnknownIdRejected<W(!new)>(c: Codec<W>, schema: seq<IeDef>, m: Message, ies: seq<Ie<W>>, k: nat)
    requires WellTyped(schema, m) && k < |ies| && forall i :: 0 <= i < |schema| ==> schema[i].id != ies[k].id
    ensures Decoded(c, schema, m, ies).None?
    decreases |ies|
  {
    var r := DecodedIe(c, schema, m, ies[0]);
    if k > 0 && r.Some? {
      UnknownIdRejected(c, schema, r.value, ies[1..], k - 1);
    }
  }

  /** So is one that holds a value that does not decode under the type of its entry, or decodes to the wrong kind. */
  lemma {:induction false} BadValueRejected<W(!new)>(c: Codec<W>, schema: seq<IeDef>, m: Message, ies: seq<Ie<W>>, k: nat, i: nat)
    requires WellTyped(schema, m) && DistinctIds(schema) && k < |ies| && i < |schema| && schema[i].id == ies[k].id
    requires var a := c.dec(schema[i].typ, ies[k].value); a.None? || (a.value.Contained? <==> schema[i].items == [])
    ensures Decoded(c, schema, m, ies).None?
    decreases |ies|
  {
    var r := DecodedIe(c, schema, m, ies[0]);
    if k > 0 && r.Some? {
      BadValueRejected(c, schema, r.value, ies[1..], k - 1, i);
    }
  }

  /** Decoding never sets a bit that the 16-bit mask does not have, whatever arrives. */
  lemma {:induction false} DecodedMaskFits<W(!new)>(c: Codec<W>, schema: seq<IeDef>, m: Message, ies: seq<Ie<W>>)
    requires WellTyped(schema, m) && forall b :: b in m.mask ==> b <= 15
    ensures Decoded(c, schema, m, ies).Some? ==> forall b :: b in Decoded(c, schema, m, ies).value.mask ==> b <= 15
    decreases |ies|
  {
    if ies != [] {
      var r := DecodedIe(c, schema, m, ies[0]);
      if r.Some? {
        DecodedMaskFits(c, schema, r.value, ies[1..]);
      }
    }
  }

  /** The same for a list; but the message decoder goes on with the elements before it. */
  lemma {:induction false} UnknownItemRejected<W(!new)>(c: Codec<W>, items: seq<ItemDef>, have: seq<nat>, ies: seq<Ie<W>>, k: nat)
    requires k < |ies| && forall i :: 0 <= i < |items| ==> items[i].id != ies[k].id
    ensures !DecodedItems(c, items, have, ies).1 && |DecodedItems(c, items, have, ies).0| <= |have| + k
    decreases |ies|
  {
    var j := FindItem(items, ies[0].id);
    if k > 0 && j < |items| {
      var a := c.dec(items[j].typ, ies[0].value);
      if a.Some? && a.value.Simple? {
        UnknownItemRejected(c, items, have + [a.value.v], ies[1..], k - 1);
      }
    }
  }
}
