/** Only the entities of the round trip survive: whatever comes back as it was read is plain. */
module NgsiLdExact {
  import opened Listings
  import opened Wrappers
  import opened NgsiLd
  import opened NgsiLdProofs

  // ----- What is written under one key depends on what was read under it -----

  function At(m: Fields, k: string): Option<Json>
  {
    if k in m then Some(m[k]) else None
  }

  lemma {:induction false} PutElsewhere(m: Fields, attributes: seq<Attribute>, k: string)
    requires forall i :: 0 <= i < |attributes| ==> attributes[i].name != k
    ensures At(PutAttributes(m, attributes), k) == At(m, k)
  {
    if attributes != [] {
      PutElsewhere(m, attributes[..|attributes| - 1], k);
    }
  }

  lemma {:induction false} PutAlike(m: Fields, m': Fields, attributes: seq<Attribute>, k: string)
    requires At(m, k) == At(m', k)
    ensures At(PutAttributes(m, attributes), k) == At(PutAttributes(m', attributes), k)
  {
    if attributes != [] {
      PutAlike(m, m', attributes[..|attributes| - 1], k);
    }
  }

  lemma {:induction false} PutDomainsElsewhere(m: Fields, ds: seq<DomainMetadata>, k: string)
    requires forall i :: 0 <= i < |ds| ==> ds[i].name != k
    ensures At(PutDomains(m, ds), k) == At(m, k)
  {
    if ds != [] {
      PutDomainsElsewhere(m, ds[..|ds| - 1], k);
    }
  }

  lemma {:induction false} PutDomainsAlike(m: Fields, m': Fields, ds: seq<DomainMetadata>, k: string)
    requires At(m, k) == At(m', k)
    ensures At(PutDomains(m, ds), k) == At(PutDomains(m', ds), k)
  {
    if ds != [] {
      PutDomainsAlike(m, m', ds[..|ds| - 1], k);
    }
  }

  ghost predicate AllNamed(attributes: seq<Attribute>, k: string)
  {
    forall i :: 0 <= i < |attributes| ==> attributes[i].name == k && IsKept(attributes[i])
  }

  lemma {:induction false} ItemsNamed(k: string, items: seq<Json>, attributes: seq<Attribute>)
    requires forall v :: v in items && v.Obj? ==> HasType(v.fields)
    requires ItemsRead(k, items, attributes)
    ensures AllNamed(attributes, k) && |attributes| <= |items|
  {
    if items != [] {
      var init, v := items[..|items| - 1], items[|items| - 1];
      assert forall x :: x in init ==> x in items;
      if ItemsRead(k, init, attributes) {
        ItemsNamed(k, init, attributes);
      } else {
        ItemsNamed(k, init, attributes[..|attributes| - 1]);
      }
    }
  }

  /** Everything read under a key carries its name. */
  lemma BlockNamed(k: string, v: Json, attributes: seq<Attribute>, ds: seq<DomainMetadata>)
    requires IsReadableValue(k, v) && BlockRead(k, v, attributes, ds)
    ensures AllNamed(attributes, k)
    ensures forall i :: 0 <= i < |ds| ==> ds[i].name == k
  {
    if !IsReserved(k) && v.Arr? {
      ItemsNamed(k, v.items, attributes);
    }
  }

  ghost predicate ReadsAll(entity: Fields, r: Reading)
  {
    IsReadable(entity) && Lists(r.keys, entity.Keys) && IsReading(entity, r)
  }

  lemma {:induction false} BlocksAt(entity: Fields, r: Reading, head: Fields, i: nat, n: nat)
    requires ReadsAll(entity, r) && i < |r.keys| && n <= |r.keys|
    ensures At(PutAttributes(head, Flat(r.blocks[..n])), r.keys[i])
            == At(if i < n then PutAttributes(head, r.blocks[i]) else head, r.keys[i])
  {
    if n > 0 {
      var before, k := PutAttributes(head, Flat(r.blocks[..n - 1])), r.keys[i];
      BlocksAt(entity, r, head, i, n - 1);
      FlatNext(r.blocks, n);
      PutConcat(head, Flat(r.blocks[..n - 1]), r.blocks[n - 1]);
      if i == n - 1 {
        PutAlike(before, head, r.blocks[i], k);
      } else {
        BlockNamed(r.keys[n - 1], entity[r.keys[n - 1]], r.blocks[n - 1], r.domains[n - 1]);
        PutElsewhere(before, r.blocks[n - 1], k);
      }
    }
  }

  lemma {:induction false} DomainsAt(entity: Fields, r: Reading, m: Fields, i: nat, n: nat)
    requires ReadsAll(entity, r) && i < |r.keys| && n <= |r.keys|
    ensures At(PutDomains(m, Flat(r.domains[..n])), r.keys[i])
            == At(if i < n then PutDomains(m, r.domains[i]) else m, r.keys[i])
  {
    if n > 0 {
      var before, k := PutDomains(m, Flat(r.domains[..n - 1])), r.keys[i];
      DomainsAt(entity, r, m, i, n - 1);
      FlatNext(r.domains, n);
      PutDomainsConcat(m, Flat(r.domains[..n - 1]), r.domains[n - 1]);
      if i == n - 1 {
        PutDomainsAlike(before, m, r.domains[i], k);
      } else {
        BlockNamed(r.keys[n - 1], entity[r.keys[n - 1]], r.blocks[n - 1], r.domains[n - 1]);
        PutDomainsElsewhere(before, r.domains[n - 1], k);
      }
    }
  }

  lemma WrittenAt(entity: Fields, el: Element, r: Reading, context: Option<Json>, i: nat)
    requires IsReadable(entity) && EntityRead(entity, el, r) && i < |r.keys|
    ensures At(Written(el, context), r.keys[i])
            == At(PutDomains(PutAttributes(Head(el, context), r.blocks[i]), r.domains[i]), r.keys[i])
  {
    var n, head := |r.keys|, Head(el, context);
    assert r.blocks[..n] == r.blocks && r.domains[..n] == r.domains;
    var m := PutAttributes(head, Flat(r.blocks));
    BlocksAt(entity, r, head, i, n);
    DomainsAt(entity, r, m, i, n);
    PutDomainsAlike(m, PutAttributes(head, r.blocks[i]), r.domains[i], r.keys[i]);
  }

  // ----- What comes back under a key was plain -----

  /** An object written as it was read is a plain one. */
  lemma WrittenIsPlain(k: string, fields: Fields, a: Attribute)
    requires HasType(fields) && AttributeRead(k, fields, a) && IsKept(a) && WrittenAttribute(a) == Obj(fields)
    ensures IsPlainObject(Obj(fields))
  {
    Words();
    var bare := Bare(a);
    WithMetadataPuts(bare, a.metadata, fields);
    assert fields.Keys == bare.Keys + Elements(NamesOf(a.metadata));
    assert TYPE in bare && TYPE !in Elements(NamesOf(a.metadata));
    assert fields[TYPE] == bare[TYPE];
  }

  lemma {:induction false} ItemsPaired(k: string, items: seq<Json>, attributes: seq<Attribute>)
    requires forall v :: v in items && v.Obj? ==> HasType(v.fields)
    requires ItemsRead(k, items, attributes) && |attributes| == |items|
    ensures forall i :: 0 <= i < |items| ==>
                          items[i].Obj? && items[i] in items && AttributeRead(k, items[i].fields, attributes[i])
  {
    if items != [] {
      var init := items[..|items| - 1];
      assert forall x :: x in init ==> x in items;
      if ItemsRead(k, init, attributes) {
        ItemsNamed(k, init, attributes);
      } else {
        var rest := attributes[..|attributes| - 1];
        ItemsPaired(k, init, rest);
        forall i | 0 <= i < |items| - 1
          ensures items[i].Obj? && items[i] in items && AttributeRead(k, items[i].fields, attributes[i])
        {
          assert items[i] == init[i] && attributes[i] == rest[i];
        }
      }
    }
  }

  function WrittenAttributes(attributes: seq<Attribute>): seq<Json>
  {
    seq(|attributes|, i requires 0 <= i < |attributes| => WrittenAttribute(attributes[i]))
  }

  /** An array that comes back has at least two items, all plain. */
  lemma ArrayComesBack(head: Fields, k: string, items: seq<Json>, attributes: seq<Attribute>)
    requires forall v :: v in items && v.Obj? ==> HasType(v.fields)
    requires ItemsRead(k, items, attributes) && k !in head
    requires At(PutAttributes(head, attributes), k) == Some(Arr(items))
    ensures k != "" && IsPlainArray(Arr(items))
  {
    ItemsNamed(k, items, attributes);
    if attributes != [] {
      var written := WrittenAttributes(attributes);
      forall i | 0 <= i < |attributes| ensures IsWrittenAs(k, written[i], attributes[i]) {}
      PutSameName(head, k, written, attributes);
      assert |written| >= 2 && items == written;
      ItemsPaired(k, items, attributes);
      forall i | 0 <= i < |items| ensures IsPlainObject(items[i]) {
        WrittenIsPlain(k, items[i].fields, attributes[i]);
      }
      assert IsKept(attributes[0]);
    }
  }

  /** An object that comes back from its attribute is plain. */
  lemma ObjectComesBack(head: Fields, k: string, fields: Fields, attributes: seq<Attribute>, a: Attribute)
    requires HasType(fields) && AttributeRead(k, fields, a) && k !in head
    requires attributes == if IsKept(a) then [a] else []
    requires At(PutAttributes(head, attributes), k) == Some(Obj(fields))
    ensures k != "" && IsPlainObject(Obj(fields)) && IsKept(a)
  {
    if IsKept(a) {
      assert a.name == k;
      assert [a][..0] == [];
      assert PutAttributes(head, [a]) == PutAttribute(head, a);
      WrittenIsPlain(k, fields, a);
    }
  }

  /** So is a location, which may also come back from its domain metadata. */
  lemma LocationComesBack(head: Fields, k: string, fields: Fields, attributes: seq<Attribute>,
                          ds: seq<DomainMetadata>, a: Attribute)
    requires IsLocation(k) && HasType(fields) && IsReadableLocation(fields) && ds == DomainOf(k, fields)
    requires AttributeRead(k, fields, a) && attributes == if IsKept(a) then [a] else []
    requires k !in head && At(PutDomains(PutAttributes(head, attributes), ds), k) == Some(Obj(fields))
    ensures k != "" && IsPlainLocation(Obj(fields))
  {
    Words();
    var m := PutAttributes(head, attributes);
    assert |ds| == 1 && ds[..0] == [];
    assert PutDomains(m, ds) == PutDomain(m, ds[0]);
    if PutDomain(m, ds[0]) == m {
      ObjectComesBack(head, k, fields, attributes, a);
      UnreplacedLocation(m, k, fields, ds[0]);
    } else if ds[0].PointMetadata? {
      assert Obj(fields) == PointProperty(ds[0].longitude, ds[0].latitude);
    } else {
      assert fields == map[TYPE := Str(PROPERTY), VALUE := ds[0].value];
      PropertyLocation(fields);
    }
  }

  lemma PropertyLocation(fields: Fields)
    requires fields == map[TYPE := Str(PROPERTY), VALUE := Field(fields, VALUE)] && Field(fields, VALUE) != Null
    ensures IsPlainLocation(Obj(fields))
  {
    Words();
    assert fields.Keys == {TYPE, VALUE};
  }

  /** A location that its domain metadata leave alone. */
  lemma UnreplacedLocation(m: Fields, k: string, fields: Fields, d: DomainMetadata)
    requires k != "" && IsLocation(k) && HasType(fields) && IsReadableLocation(fields) && DomainOf(k, fields) == [d]
    requires IsPlainObject(Obj(fields)) && At(m, k) == Some(Obj(fields)) && PutDomain(m, d) == m
    ensures IsPlainLocation(Obj(fields))
  {
    Words();
    assert d == OtherMetadata(k, fields[TYPE].s, Field(fields, VALUE));
    if d.value != Null {
      assert m[k] == Obj(map[TYPE := Str(PROPERTY), VALUE := d.value]);
      PropertyLocation(fields);
    }
  }

  lemma ValueComesBack(head: Fields, k: string, v: Json, attributes: seq<Attribute>, ds: seq<DomainMetadata>)
    requires IsReadableValue(k, v) && BlockRead(k, v, attributes, ds) && !IsReserved(k) && k !in head
    requires At(PutDomains(PutAttributes(head, attributes), ds), k) == Some(v)
    ensures k != "" && IsPlainValue(k, v)
  {
    if v.Arr? {
      ArrayComesBack(head, k, v.items, attributes);
    } else if v.Obj? {
      var a :| AttributeRead(k, v.fields, a) && attributes == if IsKept(a) then [a] else [];
      if IsLocation(k) {
        LocationComesBack(head, k, v.fields, attributes, ds, a);
      } else {
        ObjectComesBack(head, k, v.fields, attributes, a);
      }
    }
  }

  // ----- The whole entity -----

  /** A reserved key is written only from the head. */
  lemma ReservedAt(entity: Fields, el: Element, r: Reading, context: Option<Json>, k: string)
    requires IsReadable(entity) && EntityRead(entity, el, r) && k in entity && IsReserved(k)
    ensures At(Written(el, context), k) == At(Head(el, context), k)
  {
    assert k in Elements(r.keys);
    var i :| 0 <= i < |r.keys| && r.keys[i] == k;
    WrittenAt(entity, el, r, context, i);
  }

  lemma HeadComesBack(entity: Fields, el: Element, r: Reading, context: Option<Json>)
    requires IsReadable(entity) && EntityRead(entity, el, r) && Written(el, context) == entity
    requires ID in entity && TYPE in entity
    ensures PlainHead(entity, context)
  {
    HeadIs(el, context);
    forall k | k in entity && IsReserved(k) ensures At(Head(el, context), k) == Some(entity[k]) {
      ReservedAt(entity, el, r, context, k);
    }
    assert IsReserved(ID) && IsReserved(TYPE);
    assert HasUrn("urn:ngsi-ld:" + el.id);
    if context.Some? {
      ContextComesBack(entity, el, r, context);
    }
  }

  lemma ContextComesBack(entity: Fields, el: Element, r: Reading, context: Option<Json>)
    requires IsReadable(entity) && EntityRead(entity, el, r) && Written(el, context) == entity && context.Some?
    ensures CONTEXT in entity && entity[CONTEXT] == context.value
  {
    HeadIs(el, context);
    KeyStays(Head(el, context), el, CONTEXT);
    assert CONTEXT in entity && IsReserved(CONTEXT);
    ReservedAt(entity, el, r, context, CONTEXT);
  }

  /** Writing never takes a key away. */
  lemma KeyStays(head: Fields, el: Element, k: string)
    requires k in head
    ensures k in PutDomains(PutAttributes(head, el.attributes), el.metadata)
  {
    PutKeepsKey(head, el.attributes, k);
    PutDomainsKeepsKey(PutAttributes(head, el.attributes), el.metadata, k);
  }

  lemma {:induction false} PutKeepsKey(m: Fields, attributes: seq<Attribute>, k: string)
    requires k in m
    ensures k in PutAttributes(m, attributes)
  {
    if attributes != [] {
      PutKeepsKey(m, attributes[..|attributes| - 1], k);
    }
  }

  lemma {:induction false} PutDomainsKeepsKey(m: Fields, ds: seq<DomainMetadata>, k: string)
    requires k in m
    ensures k in PutDomains(m, ds)
  {
    if ds != [] {
      PutDomainsKeepsKey(m, ds[..|ds| - 1], k);
    }
  }

  lemma KeysComeBack(entity: Fields, el: Element, r: Reading, context: Option<Json>)
    requires IsReadable(entity) && EntityRead(entity, el, r) && Written(el, context) == entity
    ensures PlainKeys(entity)
  {
    HeadIs(el, context);
    forall k | k in entity && !IsReserved(k) ensures k != "" && IsPlainValue(k, entity[k]) {
      assert k in Elements(r.keys);
      var i :| 0 <= i < |r.keys| && r.keys[i] == k;
      WrittenAt(entity, el, r, context, i);
      ValueComesBack(Head(el, context), k, entity[k], r.blocks[i], r.domains[i]);
    }
  }

  /** Of the entities the reader accepts, reading then writing returns exactly the plain ones unchanged, in whatever
      order the maps are ranged over. */
  lemma RoundTripIff(entity: Fields, el: Element, r: Reading, context: Option<Json>)
    requires IsReadable(entity) && ID in entity && TYPE in entity && EntityRead(entity, el, r)
    ensures Written(el, context) == entity <==> IsPlainEntity(entity, context)
  {
    if Written(el, context) == entity {
      HeadComesBack(entity, el, r, context);
      KeysComeBack(entity, el, r, context);
    }
    if IsPlainEntity(entity, context) {
      RoundTrip(entity, el, r, context);
    }
  }
}
