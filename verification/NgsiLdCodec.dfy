/** The loops of the NGSI-LD reader and writer (common/ngsi/ngsi.go, broker/utils.go), proved against `NgsiLd`. */
module NgsiLdCodec {
  import opened Listings
  import opened Wrappers
  import opened NgsiLd

  /** The loop over the keys of an attribute in `readAttributeFromNGSILD`. */
  method ReadMetadata(fields: Fields, isRelationship: bool) returns (ms: seq<Metadata>)
    ensures MetadataRead(fields, isRelationship, ms)
  {
    ms := [];
    var todo := fields.Keys;
    ghost var all := SubKeys(fields, isRelationship);
    while todo != {}
      invariant todo <= fields.Keys
      invariant Lists(NamesOf(ms), all - todo)
      invariant forall i :: 0 <= i < |ms| ==> ms[i].name in fields && ms[i].value == fields[ms[i].name]
    {
      var k :| k in todo;
      ghost var before := all - todo;
      if !IsType(k) && !(if isRelationship then IsObject(k) else IsValue(k)) {
        ListsAppend(NamesOf(ms), before, k);
        assert NamesOf(ms + [Metadata(k, fields[k])]) == NamesOf(ms) + [k];
        ms := ms + [Metadata(k, fields[k])];
      }
      todo := todo - {k};
      assert all - todo == if k in all then before + {k} else before;
    }
    assert all - todo == all;
  }

  /** `readAttributeFromNGSILD`. */
  method ReadAttributeFromNGSILD(k: string, fields: Fields) returns (a: Attribute)
    requires HasType(fields)
    ensures AttributeRead(k, fields, a)
  {
    var t := fields[TYPE].s;
    if IsProperty(t) {
      var ms := ReadMetadata(fields, false);
      a := Attribute(k, PlainKind(KindName(Field(fields, VALUE))), Field(fields, VALUE), ms);
    } else if IsRelationship(t) {
      var ms := ReadMetadata(fields, true);
      a := Attribute(k, RelationshipKind, Field(fields, OBJECT), ms);
    } else {
      a := Attribute("", NoKind, Null, []);
    }
  }

  /** The array case of `ReadFromNGSILD`. */
  method ReadItems(k: string, items: seq<Json>) returns (attributes: seq<Attribute>)
    requires forall v :: v in items && v.Obj? ==> HasType(v.fields)
    ensures ItemsRead(k, items, attributes)
  {
    attributes := [];
    for i := 0 to |items|
      invariant forall v :: v in items[..i] ==> v in items
      invariant ItemsRead(k, items[..i], attributes)
    {
      assert items[..i + 1][..i] == items[..i];
      if items[i].Obj? {
        assert items[i] in items;
        var a := ReadAttributeFromNGSILD(k, items[i].fields);
        if IsKept(a) {
          assert (attributes + [a])[..|attributes|] == attributes;
          attributes := attributes + [a];
        }
      }
    }
    assert items[..|items|] == items;
  }

  /** The body of the loop over the keys of an entity. */
  method ReadKey(k: string, v: Json) returns (attributes: seq<Attribute>, ds: seq<DomainMetadata>)
    requires IsReadableValue(k, v)
    ensures BlockRead(k, v, attributes, ds)
  {
    attributes, ds := [], [];
    if IsReserved(k) {
      return;
    }
    match v {
      case Obj(fields) =>
        var a := ReadAttributeFromNGSILD(k, fields);
        if IsKept(a) {
          attributes := [a];
        }
        ds := DomainOf(k, fields);
      case Arr(items) =>
        attributes := ReadItems(k, items);
      case _ =>
    }
  }

  lemma FlatAppend<T>(xss: seq<seq<T>>, xs: seq<T>)
    ensures Flat(xss + [xs]) == Flat(xss) + xs
  {
    assert (xss + [xs])[..|xss|] == xss;
  }

  /** The id read so far is that of some `id` key already met, if one has been met. */
  ghost predicate IdSeen(entity: Fields, done: set<string>, id: string)
  {
    (exists k :: k in done && IsId(k)) ==> exists k :: k in done && k in entity && IsId(k) && entity[k] == Str(id)
  }

  ghost predicate TypeSeen(entity: Fields, done: set<string>, typ: string)
  {
    (exists k :: k in done && IsType(k)) ==> exists k :: k in done && k in entity && IsType(k) && entity[k] == Str(typ)
  }

  /** The element and the reading after the keys in `done`. */
  ghost predicate ReadSoFar(entity: Fields, done: set<string>, el: Element, r: Reading)
  {
    && IsReadable(entity) && Lists(r.keys, done) && IsReading(entity, r)
    && el.attributes == Flat(r.blocks) && el.metadata == Flat(r.domains)
    && IdSeen(entity, done, el.id) && TypeSeen(entity, done, el.typ)
  }

  function ElementNext(el: Element, k: string, v: Json, attributes: seq<Attribute>, ds: seq<DomainMetadata>): Element
    requires IsId(k) || IsType(k) ==> v.Str?
  {
    Element(if IsId(k) then v.s else el.id, if IsType(k) && !IsId(k) then v.s else el.typ,
            el.attributes + attributes, el.metadata + ds)
  }

  lemma ReadNext(entity: Fields, done: set<string>, el: Element, r: Reading, k: string, attributes: seq<Attribute>,
                 ds: seq<DomainMetadata>)
    requires ReadSoFar(entity, done, el, r) && k in entity && k !in done
    requires IsReadableValue(k, entity[k]) && BlockRead(k, entity[k], attributes, ds)
    ensures ReadSoFar(entity, done + {k}, ElementNext(el, k, entity[k], attributes, ds),
                      Reading(r.keys + [k], r.blocks + [attributes], r.domains + [ds]))
  {
    ListsAppend(r.keys, done, k);
    ReadingNext(entity, r, k, attributes, ds);
    FlatAppend(r.blocks, attributes);
    FlatAppend(r.domains, ds);
    SeenNext(entity, done, k, ElementNext(el, k, entity[k], attributes, ds));
  }

  lemma ReadingNext(entity: Fields, r: Reading, k: string, attributes: seq<Attribute>, ds: seq<DomainMetadata>)
    requires IsReadable(entity) && IsReading(entity, r) && k in entity && BlockRead(k, entity[k], attributes, ds)
    ensures IsReading(entity, Reading(r.keys + [k], r.blocks + [attributes], r.domains + [ds]))
  {
    var n := Reading(r.keys + [k], r.blocks + [attributes], r.domains + [ds]);
    forall i | 0 <= i < |n.keys|
      ensures n.keys[i] in entity && BlockRead(n.keys[i], entity[n.keys[i]], n.blocks[i], n.domains[i])
    {
      if i < |r.keys| {
        assert n.keys[i] == r.keys[i] && n.blocks[i] == r.blocks[i] && n.domains[i] == r.domains[i];
      }
    }
  }

  lemma ReadDone(entity: Fields, el: Element, r: Reading)
    requires ReadSoFar(entity, entity.Keys, el, r) && ID in entity && TYPE in entity
    ensures EntityRead(entity, el, r)
  {
    Words();
  }

  /** `ReadFromNGSILD`: ignored unless both `id` and `type` are there. */
  method ReadFromNGSILD(entity: Fields) returns (ok: bool, el: Element, ghost r: Reading)
    requires IsReadable(entity)
    ensures ok <==> ID in entity && TYPE in entity
    ensures ok ==> EntityRead(entity, el, r)
  {
    el, r := Element("", "", [], []), Reading([], [], []);
    ok := ID in entity && TYPE in entity;
    if ok {
      el, r := ReadKeys(entity);
      ReadDone(entity, el, r);
    }
  }

  method ReadKeys(entity: Fields) returns (el: Element, ghost r: Reading)
    requires IsReadable(entity)
    ensures ReadSoFar(entity, entity.Keys, el, r)
  {
    el, r := Element("", "", [], []), Reading([], [], []);
    var todo := entity.Keys;
    ghost var done: set<string> := {};
    while todo != {}
      invariant done + todo == entity.Keys && done !! todo
      invariant ReadSoFar(entity, done, el, r)
    {
      var k :| k in todo;
      el, r := ReadOneKey(entity, done, el, r, k);
      todo, done := todo - {k}, done + {k};
    }
    assert done == entity.Keys;
  }

  method ReadOneKey(entity: Fields, ghost done: set<string>, el: Element, ghost r: Reading, k: string)
    returns (el': Element, ghost r': Reading)
    requires ReadSoFar(entity, done, el, r) && k in entity && k !in done
    ensures ReadSoFar(entity, done + {k}, el', r')
  {
    var attributes, ds := ReadKey(k, entity[k]);
    ReadNext(entity, done, el, r, k, attributes, ds);
    r' := Reading(r.keys + [k], r.blocks + [attributes], r.domains + [ds]);
    el' := ElementNext(el, k, entity[k], attributes, ds);
  }

  lemma SeenNext(entity: Fields, done: set<string>, k: string, el: Element)
    requires k in entity && IsReadableValue(k, entity[k])
    requires if IsId(k) then el.id == entity[k].s else IdSeen(entity, done, el.id)
    requires if IsType(k) && !IsId(k) then el.typ == entity[k].s else TypeSeen(entity, done, el.typ)
    ensures IdSeen(entity, done + {k}, el.id) && TypeSeen(entity, done + {k}, el.typ)
  {
    if IsId(k) {
      assert k in done + {k} && entity[k] == Str(el.id);
      assert |Lower(k)| == 2;
    } else if x :| x in done && x in entity && IsId(x) && entity[x] == Str(el.id) {
      assert x in done + {k};
    }
    if IsType(k) {
      assert |Lower(k)| == 4;
      assert k in done + {k} && entity[k] == Str(el.typ);
    } else if x :| x in done && x in entity && IsType(x) && entity[x] == Str(el.typ) {
      assert x in done + {k};
    }
  }

  // ----- The writer -----

  method PutMetadata(m: Fields, ms: seq<Metadata>) returns (r: Fields)
    ensures r == WithMetadata(m, ms)
  {
    r := m;
    for i := 0 to |ms|
      invariant r == WithMetadata(m, ms[..i])
    {
      assert ms[..i + 1][..i] == ms[..i];
      r := r[ms[i].name := ms[i].value];
    }
    assert ms[..|ms|] == ms;
  }

  ghost function LastOf(ms: seq<Metadata>): Fields
  {
    if ms == [] then map[] else LastOf(ms[..|ms| - 1])[ms[|ms| - 1].name := ms[|ms| - 1].value]
  }

  lemma {:induction false} MetadataOverlay(m: Fields, ms: seq<Metadata>)
    ensures WithMetadata(m, ms) == m + LastOf(ms)
  {
    if ms != [] {
      MetadataOverlay(m, ms[..|ms| - 1]);
    }
  }

  /** One attribute of `toNGSILDPayload`; a plain attribute has its metadata put twice. */
  method WriteAttribute(a: Attribute) returns (v: Json)
    ensures v == WrittenAttribute(a)
  {
    var p := Bare(a);
    if a.kind != RelationshipKind && a.kind != DateTimeKind {
      MetadataOverlay(p, a.metadata);
      p := PutMetadata(p, a.metadata);
      MetadataOverlay(p, a.metadata);
      assert Bare(a) + LastOf(a.metadata) + LastOf(a.metadata) == Bare(a) + LastOf(a.metadata);
    }
    p := PutMetadata(p, a.metadata);
    v := Obj(p);
  }

  /** `toNGSILDPayload` for one element. */
  method ToNGSILD(el: Element, addAtContext: bool) returns (m: Fields)
    requires forall d :: d in el.metadata && d.OtherMetadata? ==> d.typ != "point"
    ensures m == Written(el, if addAtContext then Some(CoreContext()) else None)
  {
    ghost var head := Head(el, if addAtContext then Some(CoreContext()) else None);
    m := map[ID := Str(if HasUrn(el.id) then el.id else "urn:ngsi-ld:" + el.id), TYPE := Str(el.typ)];
    if addAtContext {
      m := m[CONTEXT := CoreContext()];
    }
    for i := 0 to |el.attributes|
      invariant m == PutAttributes(head, el.attributes[..i])
    {
      var a := el.attributes[i];
      assert el.attributes[..i + 1][..i] == el.attributes[..i];
      if a.name == "" || a.kind == NoKind || a.value == Null {
        continue;
      }
      var p := WriteAttribute(a);
      if a.name in m {
        if m[a.name].Arr? {
          m := m[a.name := Arr(m[a.name].items + [p])];
        } else {
          m := m[a.name := Arr([m[a.name], p])];
        }
      } else {
        m := m[a.name := p];
      }
    }
    assert el.attributes[..|el.attributes|] == el.attributes;
    ghost var base := m;
    for i := 0 to |el.metadata|
      invariant m == PutDomains(base, el.metadata[..i])
    {
      assert el.metadata[..i + 1][..i] == el.metadata[..i];
      m := PutDomain(m, el.metadata[i]);
    }
    assert el.metadata[..|el.metadata|] == el.metadata;
  }
}
