/** Reading an NGSI-LD entity and writing it again returns the same entity. */
module NgsiLdProofs {
  import opened Listings
  import opened Wrappers
  import opened NgsiLd

  // ----- Kinds -----

  /** The kind of a Property that was read tells numbers and strings from everything else. */
  lemma KindTells(k: string, fields: Fields, a: Attribute)
    requires HasType(fields) && IsProperty(fields[TYPE].s) && AttributeRead(k, fields, a)
    ensures a.kind == PlainKind("float") <==> a.value.Num?
    ensures a.kind == PlainKind("string") <==> a.value.Str?
    ensures a.kind == PlainKind("object") <==> !a.value.Num? && !a.value.Str?
  {
    assert "float" != "string" && |"object"| != |"float"| && "object"[0] != "string"[0];
  }

  /** Domain metadata are written unless their name, type or value is missing. */
  lemma DomainWrittenIff(m: Fields, name: string, typ: string, value: Json)
    requires name !in m
    ensures name in PutDomain(m, OtherMetadata(name, typ, value)) <==> name != "" && typ != "" && value != Null
  {
  }

  // ----- Dates -----

  /** A date is written as a Property whose value carries the date and its type, and is read again as that value. */
  lemma DateComesBackTyped(a: Attribute, b: Attribute)
    requires a.kind == DateTimeKind && a.metadata == [] && a.name != "" && a.value != Null
    requires WrittenAttribute(a).Obj? && HasType(WrittenAttribute(a).fields)
    requires AttributeRead(a.name, WrittenAttribute(a).fields, b)
    ensures b.name == a.name && b.kind == PlainKind("object") && b.value.Obj?
    ensures b.value.fields == map["@type" := Str("datetime"), "@value" := a.value]
    ensures IsKept(b) && WrittenAttribute(b) == WrittenAttribute(a)
  {
    Words();
    assert WithMetadata(Bare(a), []) == Bare(a);
    BareAndSubKeys(Bare(a), VALUE, false, Bare(b), b.metadata);
  }

  // ----- Ids and places -----

  /** The written id is a URN that ends with the element's id, and is written as it is the next time. */
  lemma UrnOnce(el: Element, context: Option<Json>)
    ensures
      var id := Head(el, context)[ID];
      && id.Str? && HasUrn(id.s) && |id.s| >= |el.id| && id.s[|id.s| - |el.id|..] == el.id
      && Head(Element(id.s, el.typ, [], []), context)[ID] == id
  {
    assert "urn:" <= "urn:ngsi-ld:" + el.id;
    assert ("urn:ngsi-ld:" + el.id)[12..] == el.id;
  }

  /** The first coordinate of a Point is its longitude and the second its latitude, when read and when written. */
  lemma LongitudeFirst(k: string, x: real, y: real)
    requires IsLocation(k)
    ensures
      var geometry := Obj(map[TYPE := Str(POINT), COORDINATES := Arr([Num(x), Num(y)])]);
      var fields := map[TYPE := Str(GEOPROPERTY), VALUE := geometry];
      && HasType(fields) && IsReadableLocation(fields)
      && DomainOf(k, fields) == [PointMetadata(k, x, y)]
      && PutDomain(map[], PointMetadata(k, x, y)) == map[k := Obj(fields)]
  {
    Words();
    assert k != "";
  }

  // ----- Which entities -----

  /** A Property with a non-null value, or a Relationship with a non-null object, keys in canonical case. */
  ghost predicate IsPlainObject(v: Json)
  {
    && v.Obj? && TYPE in v.fields
    && (forall k :: k in v.fields && IsType(k) ==> k == TYPE)
    && (IsPlainProperty(v.fields) || IsPlainRelationship(v.fields))
  }

  ghost predicate IsPlainProperty(fields: Fields)
  {
    && TYPE in fields && fields[TYPE] == Str(PROPERTY) && Field(fields, VALUE) != Null
    && forall k :: k in fields && IsValue(k) ==> k == VALUE
  }

  ghost predicate IsPlainRelationship(fields: Fields)
  {
    && TYPE in fields && fields[TYPE] == Str(RELATIONSHIP) && Field(fields, OBJECT) != Null
    && forall k :: k in fields && IsObject(k) ==> k == OBJECT
  }

  /** A location survives as a Point, as a Property without sub-attributes, or as a Relationship without a value. */
  ghost predicate IsPlainLocation(v: Json)
  {
    || IsPointLocation(v)
    || (IsPlainObject(v) && IsPlainProperty(v.fields) && v.fields.Keys == {TYPE, VALUE})
    || (IsPlainObject(v) && IsPlainRelationship(v.fields) && Field(v.fields, VALUE) == Null)
    || IsPlainArray(v)
  }

  ghost predicate IsPointLocation(v: Json)
  {
    exists x, y :: v == PointProperty(x, y)
  }

  ghost predicate IsPlainArray(v: Json)
  {
    v.Arr? && |v.items| >= 2 && forall i :: 0 <= i < |v.items| ==> IsPlainObject(v.items[i])
  }

  ghost predicate IsPlainValue(k: string, v: Json)
  {
    if IsLocation(k) then IsPlainLocation(v) else IsPlainObject(v) || IsPlainArray(v)
  }

  /** Every key but the reserved ones is that of an attribute or location that survives. */
  ghost predicate PlainKeys(entity: Fields)
  {
    forall k :: k in entity && !IsReserved(k) ==> k != "" && IsPlainValue(k, entity[k])
  }

  /** The keys the writer puts by itself. */
  function HeadKeys(context: Option<Json>): set<string>
  {
    if context.Some? then {ID, TYPE, CONTEXT} else {ID, TYPE}
  }

  /** Of the reserved keys the entity has exactly those the writer puts, with what it puts there. */
  ghost predicate PlainHead(entity: Fields, context: Option<Json>)
  {
    && ID in entity && entity[ID].Str? && HasUrn(entity[ID].s)
    && TYPE in entity && entity[TYPE].Str?
    && (context.Some? ==> CONTEXT in entity && entity[CONTEXT] == context.value)
    && forall k :: k in entity && IsReserved(k) ==> k in HeadKeys(context)
  }

  /** An entity that survives, given the `@context` that the writer adds, if any. */
  ghost predicate IsPlainEntity(entity: Fields, context: Option<Json>)
  {
    PlainHead(entity, context) && PlainKeys(entity)
  }

  /** The reader accepts all of them: none of its type assertions fails. */
  lemma PlainIsReadable(entity: Fields, context: Option<Json>)
    requires IsPlainEntity(entity, context)
    ensures IsReadable(entity)
  {
    forall k | k in entity ensures IsReadableValue(k, entity[k]) {
      Words();
      if !IsReserved(k) {
        PlainValueReadable(k, entity[k]);
      }
    }
  }

  lemma PlainValueReadable(k: string, v: Json)
    requires IsPlainValue(k, v) && !IsReserved(k)
    ensures IsReadableValue(k, v)
  {
    Words();
    if IsLocation(k) && IsPointLocation(v) {
      var x, y :| v == PointProperty(x, y);
      PointReads(k, x, y);
    }
  }

  // ----- One attribute -----

  /** Metadata that list some keys of an object put exactly those keys. */
  lemma {:induction false} WithMetadataPuts(m: Fields, ms: seq<Metadata>, fields: Fields)
    requires forall i :: 0 <= i < |ms| ==> ms[i].name in fields && ms[i].value == fields[ms[i].name]
    ensures WithMetadata(m, ms).Keys == m.Keys + Elements(NamesOf(ms))
    ensures forall k :: k in WithMetadata(m, ms) ==>
                          WithMetadata(m, ms)[k]
                          == if k in Elements(NamesOf(ms)) && k in fields then fields[k] else m[k]
  {
    if ms != [] {
      var init, last := ms[..|ms| - 1], ms[|ms| - 1];
      WithMetadataPuts(m, init, fields);
      assert NamesOf(ms) == NamesOf(init) + [last.name];
      assert Elements(NamesOf(ms)) == Elements(NamesOf(init)) + {last.name};
    }
  }

  /** A plain object read as an attribute is kept and written as the same object. */
  lemma AttributeRoundTrip(k: string, v: Json, a: Attribute)
    requires IsPlainObject(v) && k != "" && HasType(v.fields) && AttributeRead(k, v.fields, a)
    ensures IsWrittenAs(k, v, a)
  {
    Words();
    if IsPlainProperty(v.fields) {
      BareAndSubKeys(v.fields, VALUE, false, Bare(a), a.metadata);
    } else {
      BareAndSubKeys(v.fields, OBJECT, true, Bare(a), a.metadata);
    }
  }

  /** An object is its type, its value or object, and its sub-attributes. */
  lemma BareAndSubKeys(fields: Fields, main: string, isRelationship: bool, bare: Fields, ms: seq<Metadata>)
    requires TYPE in fields && main in fields && main == (if isRelationship then OBJECT else VALUE)
    requires forall k :: k in fields && IsType(k) ==> k == TYPE
    requires forall k :: k in fields && (if isRelationship then IsObject(k) else IsValue(k)) ==> k == main
    requires bare == map[TYPE := fields[TYPE], main := fields[main]]
    requires MetadataRead(fields, isRelationship, ms)
    ensures WithMetadata(bare, ms) == fields
  {
    WithMetadataPuts(bare, ms, fields);
    assert bare.Keys == {TYPE, main};
    AllKeys(fields, main, isRelationship);
  }

  lemma AllKeys(fields: Fields, main: string, isRelationship: bool)
    requires TYPE in fields && main in fields && main == (if isRelationship then OBJECT else VALUE)
    requires forall k :: k in fields && IsType(k) ==> k == TYPE
    requires forall k :: k in fields && (if isRelationship then IsObject(k) else IsValue(k)) ==> k == main
    ensures fields.Keys == {TYPE, main} + SubKeys(fields, isRelationship)
    ensures SubKeys(fields, isRelationship) !! {TYPE, main}
  {
    Words();
  }

  /** The attribute is kept under name `k` and is written as `v`. */
  ghost predicate IsWrittenAs(k: string, v: Json, a: Attribute)
  {
    IsKept(a) && a.name == k && WrittenAttribute(a) == v
  }

  ghost predicate AreWrittenAs(k: string, items: seq<Json>, attributes: seq<Attribute>)
  {
    |attributes| == |items| && forall i :: 0 <= i < |items| ==> IsWrittenAs(k, items[i], attributes[i])
  }

  lemma WrittenAppend(k: string, items: seq<Json>, attributes: seq<Attribute>)
    requires |items| > 0 && |attributes| > 0
    requires AreWrittenAs(k, items[..|items| - 1], attributes[..|attributes| - 1])
    requires IsWrittenAs(k, items[|items| - 1], attributes[|attributes| - 1])
    ensures AreWrittenAs(k, items, attributes)
  {
    forall i | 0 <= i < |items| ensures IsWrittenAs(k, items[i], attributes[i]) {
      if i < |items| - 1 {
        assert IsWrittenAs(k, items[..|items| - 1][i], attributes[..|attributes| - 1][i]);
      }
    }
  }

  /** The attributes of an array of plain objects, one for each. */
  lemma {:induction false} ItemsRoundTrip(k: string, items: seq<Json>, attributes: seq<Attribute>)
    requires k != "" && forall i :: 0 <= i < |items| ==> IsPlainObject(items[i])
    requires forall v :: v in items && v.Obj? ==> HasType(v.fields)
    requires ItemsRead(k, items, attributes)
    ensures AreWrittenAs(k, items, attributes)
  {
    if items != [] {
      var init, v := items[..|items| - 1], items[|items| - 1];
      assert IsPlainObject(v) && v in items;
      LastItemKept(k, items, attributes);
      AttributeRoundTrip(k, v, attributes[|attributes| - 1]);
      ItemsRoundTrip(k, init, attributes[..|attributes| - 1]);
      WrittenAppend(k, items, attributes);
    }
  }

  lemma LastItemKept(k: string, items: seq<Json>, attributes: seq<Attribute>)
    requires k != "" && items != [] && IsPlainObject(items[|items| - 1])
    requires forall v :: v in items && v.Obj? ==> HasType(v.fields)
    requires ItemsRead(k, items, attributes)
    ensures attributes != [] && AttributeRead(k, items[|items| - 1].fields, attributes[|attributes| - 1])
            && ItemsRead(k, items[..|items| - 1], attributes[..|attributes| - 1])
  {
    var v := items[|items| - 1];
    forall a | AttributeRead(k, v.fields, a) ensures IsKept(a) {
      AttributeRoundTrip(k, v, a);
    }
  }

  /** Several attributes of one name, put where there was nothing, give the object or the array of objects. */
  lemma {:induction false} PutSameName(m: Fields, k: string, items: seq<Json>, attributes: seq<Attribute>)
    requires k !in m && |attributes| == |items| >= 1
    requires AreWrittenAs(k, items, attributes) && forall i :: 0 <= i < |items| ==> items[i].Obj?
    ensures PutAttributes(m, attributes) == m[k := if |items| == 1 then items[0] else Arr(items)]
  {
    var n := |items|;
    assert IsWrittenAs(k, items[n - 1], attributes[n - 1]);
    if n == 1 {
      assert attributes[..0] == [];
    } else {
      assert AreWrittenAs(k, items[..n - 1], attributes[..n - 1]);
      PutSameName(m, k, items[..n - 1], attributes[..n - 1]);
      PutOneMore(m, k, items[..n - 1], attributes[n - 1]);
      assert items == items[..n - 1] + [items[n - 1]];
    }
  }

  lemma PutOneMore(m: Fields, k: string, items: seq<Json>, a: Attribute)
    requires |items| >= 1 && items[0].Obj? && IsKept(a) && a.name == k
    ensures PutAttribute(m[k := if |items| == 1 then items[0] else Arr(items)], a)
            == m[k := Arr(items + [WrittenAttribute(a)])]
  {
    var x := WrittenAttribute(a);
    if |items| == 1 {
      assert items + [x] == [items[0], x];
    }
  }

  lemma {:induction false} PutConcat(m: Fields, a: seq<Attribute>, b: seq<Attribute>)
    ensures PutAttributes(m, a + b) == PutAttributes(PutAttributes(m, a), b)
  {
    if b == [] {
      assert a + b == a;
    } else {
      assert (a + b)[..|a + b| - 1] == a + b[..|b| - 1];
      PutConcat(m, a, b[..|b| - 1]);
    }
  }

  lemma {:induction false} PutDomainsConcat(m: Fields, a: seq<DomainMetadata>, b: seq<DomainMetadata>)
    ensures PutDomains(m, a + b) == PutDomains(PutDomains(m, a), b)
  {
    if b == [] {
      assert a + b == a;
    } else {
      assert (a + b)[..|a + b| - 1] == a + b[..|b| - 1];
      PutDomainsConcat(m, a, b[..|b| - 1]);
    }
  }

  // ----- One key -----

  /** Written from the attributes; a Point location is written from the domain metadata. */
  ghost predicate FromAttributes(k: string, v: Json)
  {
    !IsReserved(k) && !(IsLocation(k) && IsPointLocation(v))
  }

  lemma PointReads(k: string, x: real, y: real)
    requires IsLocation(k)
    ensures
      var fields := PointProperty(x, y).fields;
      && HasType(fields) && IsReadableLocation(fields) && DomainOf(k, fields) == [PointMetadata(k, x, y)]
      && !IsProperty(fields[TYPE].s) && !IsRelationship(fields[TYPE].s)
  {
    Words();
  }

  lemma BlockRoundTrip(m: Fields, k: string, v: Json, attributes: seq<Attribute>, ds: seq<DomainMetadata>)
    requires IsReadableValue(k, v) && BlockRead(k, v, attributes, ds)
    requires IsReserved(k) || (k != "" && IsPlainValue(k, v) && k !in m)
    ensures PutAttributes(m, attributes) == if FromAttributes(k, v) then m[k := v] else m
  {
    if !IsReserved(k) {
      if v.Arr? {
        ItemsRoundTrip(k, v.items, attributes);
        PutSameName(m, k, v.items, attributes);
      } else {
        var a :| AttributeRead(k, v.fields, a) && attributes == if IsKept(a) then [a] else [];
        if IsLocation(k) && IsPointLocation(v) {
          var x, y :| v == PointProperty(x, y);
          PointReads(k, x, y);
        } else {
          AttributeRoundTrip(k, v, a);
          PutSameName(m, k, [v], [a]);
        }
      }
    }
  }

  /** The domain metadata of a key write the key's value again, or nothing. */
  lemma DomainRoundTrip(m: Fields, k: string, v: Json, attributes: seq<Attribute>, ds: seq<DomainMetadata>)
    requires IsReadableValue(k, v) && BlockRead(k, v, attributes, ds)
    requires IsReserved(k) || (k != "" && IsPlainValue(k, v))
    requires FromAttributes(k, v) ==> k in m && m[k] == v
    ensures PutDomains(m, ds) == if IsReserved(k) then m else m[k := v]
  {
    if IsReserved(k) || !IsLocation(k) || v.Arr? {
      assert !IsReserved(k) ==> m[k := v] == m;
    } else if IsPointLocation(v) {
      var x, y :| v == PointProperty(x, y);
      PointReads(k, x, y);
      assert ds == [PointMetadata(k, x, y)];
      assert ds[..0] == [];
    } else {
      PlainLocationRoundTrip(m, k, v, ds);
    }
  }

  lemma PlainLocationRoundTrip(m: Fields, k: string, v: Json, ds: seq<DomainMetadata>)
    requires IsLocation(k) && k != "" && IsPlainLocation(v) && !IsPointLocation(v) && v.Obj?
    requires HasType(v.fields) && IsReadableLocation(v.fields) && ds == DomainOf(k, v.fields)
    requires k in m && m[k] == v
    ensures PutDomains(m, ds) == m
  {
    Words();
    var d := OtherMetadata(k, v.fields[TYPE].s, Field(v.fields, VALUE));
    assert ds == [d];
    assert ds[..0] == [];
    if IsPlainProperty(v.fields) {
      assert v.fields == map[TYPE := Str(PROPERTY), VALUE := d.value];
      assert PutDomain(m, d) == m[k := v];
    }
    assert m[k := v] == m;
  }

  // ----- The whole entity -----

  /** The part of the entity under the first `n` keys that comes from the attributes. */
  ghost function AttributePart(entity: Fields, keys: seq<string>, n: nat): Fields
    requires n <= |keys|
  {
    map k | k in entity && k in keys[..n] && FromAttributes(k, entity[k]) :: entity[k]
  }

  /** The part of the entity that comes from the attributes, and all of the first `n` keys. */
  ghost function DomainPart(entity: Fields, keys: seq<string>, n: nat): Fields
    requires n <= |keys|
  {
    map k | k in entity && !IsReserved(k) && (FromAttributes(k, entity[k]) || k in keys[..n]) :: entity[k]
  }

  ghost predicate Reads(entity: Fields, r: Reading)
  {
    PlainKeys(entity) && IsReadable(entity) && Lists(r.keys, entity.Keys) && IsReading(entity, r)
  }

  lemma KeyFacts(entity: Fields, r: Reading, n: nat)
    requires Reads(entity, r) && n < |r.keys|
    ensures
      var k := r.keys[n];
      && k in entity && k !in r.keys[..n] && (IsReserved(k) || (k != "" && IsPlainValue(k, entity[k])))
  {
    assert r.keys[n] in Elements(r.keys);
  }

  lemma PlusUpdate(h: Fields, p: Fields, k: string, v: Json)
    ensures (h + p)[k := v] == h + p[k := v]
  {
  }

  lemma FlatNext<T>(xss: seq<seq<T>>, n: nat)
    requires 0 < n <= |xss|
    ensures Flat(xss[..n]) == Flat(xss[..n - 1]) + xss[n - 1]
  {
    assert xss[..n][..n - 1] == xss[..n - 1];
  }

  lemma {:induction false} AttributesRoundTrip(entity: Fields, r: Reading, head: Fields, n: nat)
    requires Reads(entity, r) && n <= |r.keys| && forall k :: k in head ==> IsReserved(k)
    ensures PutAttributes(head, Flat(r.blocks[..n])) == head + AttributePart(entity, r.keys, n)
  {
    if n == 0 {
      assert AttributePart(entity, r.keys, 0) == map[];
      assert head + map[] == head;
    } else {
      AttributesRoundTrip(entity, r, head, n - 1);
      FlatNext(r.blocks, n);
      PutConcat(head, Flat(r.blocks[..n - 1]), r.blocks[n - 1]);
      AttributesStep(entity, r, head, n);
    }
  }

  lemma AttributesStep(entity: Fields, r: Reading, head: Fields, n: nat)
    requires Reads(entity, r) && 0 < n <= |r.keys| && forall k :: k in head ==> IsReserved(k)
    ensures PutAttributes(head + AttributePart(entity, r.keys, n - 1), r.blocks[n - 1])
            == head + AttributePart(entity, r.keys, n)
  {
    var k, part := r.keys[n - 1], AttributePart(entity, r.keys, n - 1);
    KeyFacts(entity, r, n - 1);
    BlockStep(entity, head, part, k, r.blocks[n - 1], r.domains[n - 1]);
    PartNext(entity, r.keys, n);
  }

  lemma BlockStep(entity: Fields, head: Fields, part: Fields, k: string, attributes: seq<Attribute>,
                  ds: seq<DomainMetadata>)
    requires k in entity && IsReadableValue(k, entity[k]) && BlockRead(k, entity[k], attributes, ds)
    requires IsReserved(k) || (k != "" && IsPlainValue(k, entity[k]) && k !in head && k !in part)
    ensures PutAttributes(head + part, attributes)
            == head + if FromAttributes(k, entity[k]) then part[k := entity[k]] else part
  {
    BlockRoundTrip(head + part, k, entity[k], attributes, ds);
    PlusUpdate(head, part, k, entity[k]);
  }

  lemma PartNext(entity: Fields, keys: seq<string>, n: nat)
    requires 0 < n <= |keys| && keys[n - 1] in entity
    ensures
      var k := keys[n - 1];
      && AttributePart(entity, keys, n)
         == (if FromAttributes(k, entity[k]) then AttributePart(entity, keys, n - 1)[k := entity[k]]
             else AttributePart(entity, keys, n - 1))
      && DomainPart(entity, keys, n)
         == (if IsReserved(k) then DomainPart(entity, keys, n - 1) else DomainPart(entity, keys, n - 1)[k := entity[k]])
  {
    assert keys[..n] == keys[..n - 1] + [keys[n - 1]];
  }

  lemma {:induction false} DomainsRoundTrip(entity: Fields, r: Reading, head: Fields, n: nat)
    requires Reads(entity, r) && n <= |r.keys| && forall k :: k in head ==> IsReserved(k)
    ensures PutDomains(head + AttributePart(entity, r.keys, |r.keys|), Flat(r.domains[..n]))
            == head + DomainPart(entity, r.keys, n)
  {
    if n == 0 {
      AllAttributes(entity, r);
    } else {
      DomainsRoundTrip(entity, r, head, n - 1);
      FlatNext(r.domains, n);
      PutDomainsConcat(head + AttributePart(entity, r.keys, |r.keys|), Flat(r.domains[..n - 1]), r.domains[n - 1]);
      DomainsStep(entity, r, head, n);
    }
  }

  lemma AllAttributes(entity: Fields, r: Reading)
    requires Reads(entity, r)
    ensures AttributePart(entity, r.keys, |r.keys|) == DomainPart(entity, r.keys, 0)
  {
    assert r.keys[..|r.keys|] == r.keys;
    assert forall k :: k in entity ==> k in Elements(r.keys);
  }

  lemma DomainsStep(entity: Fields, r: Reading, head: Fields, n: nat)
    requires Reads(entity, r) && 0 < n <= |r.keys| && forall k :: k in head ==> IsReserved(k)
    ensures PutDomains(head + DomainPart(entity, r.keys, n - 1), r.domains[n - 1])
            == head + DomainPart(entity, r.keys, n)
  {
    KeyFacts(entity, r, n - 1);
    var k, part := r.keys[n - 1], DomainPart(entity, r.keys, n - 1);
    DomainRoundTrip(head + part, k, entity[k], r.blocks[n - 1], r.domains[n - 1]);
    PartNext(entity, r.keys, n);
    PlusUpdate(head, part, k, entity[k]);
  }

  /** Reading then writing returns the same entity, in whatever order the maps are ranged over. */
  lemma RoundTrip(entity: Fields, el: Element, r: Reading, context: Option<Json>)
    requires IsPlainEntity(entity, context) && IsReadable(entity) && EntityRead(entity, el, r)
    ensures Written(el, context) == entity
  {
    var n, head := |r.keys|, Head(el, context);
    assert r.blocks[..n] == r.blocks && r.domains[..n] == r.domains;
    HeadRead(entity, el, r, context);
    AttributesRoundTrip(entity, r, head, n);
    DomainsRoundTrip(entity, r, head, n);
    WholeEntity(entity, r);
  }

  /** The part of the entity under reserved keys. */
  ghost function ReservedPart(entity: Fields): Fields
  {
    map k | k in entity && IsReserved(k) :: entity[k]
  }

  lemma WholeEntity(entity: Fields, r: Reading)
    requires Reads(entity, r)
    ensures ReservedPart(entity) + DomainPart(entity, r.keys, |r.keys|) == entity
  {
    assert r.keys[..|r.keys|] == r.keys;
    assert forall k :: k in entity ==> k in Elements(r.keys);
  }

  lemma HeadIs(el: Element, context: Option<Json>)
    ensures Head(el, context).Keys == HeadKeys(context)
    ensures Head(el, context)[ID] == Str(if HasUrn(el.id) then el.id else "urn:ngsi-ld:" + el.id)
    ensures Head(el, context)[TYPE] == Str(el.typ)
    ensures context.Some? ==> Head(el, context)[CONTEXT] == context.value
    ensures forall k :: k in HeadKeys(context) ==> IsReserved(k)
  {
    Words();
  }

  lemma ReservedKeys(entity: Fields, context: Option<Json>)
    requires PlainHead(entity, context)
    ensures ReservedPart(entity).Keys == HeadKeys(context)
    ensures forall k :: k in entity && IsId(k) ==> k == ID
    ensures forall k :: k in entity && IsType(k) ==> k == TYPE
  {
    Words();
  }

  /** Only `id` and `type` themselves can have been read as the id and the type. */
  lemma HeadRead(entity: Fields, el: Element, r: Reading, context: Option<Json>)
    requires PlainHead(entity, context) && IsReadable(entity) && EntityRead(entity, el, r)
    ensures Head(el, context) == ReservedPart(entity)
    ensures forall k :: k in Head(el, context) ==> IsReserved(k)
  {
    ReservedKeys(entity, context);
    HeadIs(el, context);
    assert entity[ID] == Str(el.id) && entity[TYPE] == Str(el.typ);
  }

  /** An array of one object does not survive: it comes back as the object. */
  lemma SingletonArrayCollapses(m: Fields, k: string, v: Json, attributes: seq<Attribute>)
    requires k != "" && k !in m && IsPlainObject(v) && HasType(v.fields) && ItemsRead(k, [v], attributes)
    ensures PutAttributes(m, attributes)[k] == v != Arr([v])
  {
    ItemsRoundTrip(k, [v], attributes);
    PutSameName(m, k, [v], attributes);
  }
}
