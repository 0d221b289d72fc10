/** Reading and writing NGSI-LD entities (common/ngsi/ngsi.go, broker/utils.go; ETSI GS CIM 009, clauses 4.5.2,
    4.5.3 and 4.5.5) on decoded JSON. */
module NgsiLd {
  import opened Listings
  import opened Wrappers

  datatype Json =
    | Null
    | Bool(b: bool)
    | Num(n: real)
    | Str(s: string)
    | Arr(items: seq<Json>)
    | Obj(fields: map<string, Json>)

  /** What the code tells apart about an attribute's type. */
  datatype Kind = NoKind | RelationshipKind | DateTimeKind | PlainKind(name: string)

  datatype Metadata = Metadata(name: string, value: Json)

  datatype Attribute = Attribute(name: string, kind: Kind, value: Json, metadata: seq<Metadata>)

  datatype DomainMetadata =
    | PointMetadata(name: string, longitude: real, latitude: real)
    | OtherMetadata(name: string, typ: string, value: Json)

  datatype Element = Element(id: string, typ: string, attributes: seq<Attribute>, metadata: seq<DomainMetadata>)

  // ----- Words -----

  function LowerChar(c: char): char
  {
    if 'A' <= c <= 'Z' then (c as int + 32) as char else c
  }

  function Lower(s: string): string
  {
    seq(|s|, i requires 0 <= i < |s| => LowerChar(s[i]))
  }

  const ID := "id"
  const TYPE := "type"
  const VALUE := "value"
  const OBJECT := "object"
  const CONTEXT := "@context"
  const LOCATION := "location"
  const COORDINATES := "coordinates"
  const PROPERTY := "Property"
  const RELATIONSHIP := "Relationship"
  const GEOPROPERTY := "GeoProperty"
  const POINT := "Point"

  predicate IsId(k: string) { Lower(k) == "id" }
  predicate IsType(k: string) { Lower(k) == "type" }
  predicate IsValue(k: string) { Lower(k) == "value" }
  predicate IsObject(k: string) { Lower(k) == "object" }
  predicate IsContext(k: string) { Lower(k) == "@context" }
  predicate IsLocation(k: string) { Lower(k) == "location" }
  predicate IsProperty(t: string) { Lower(t) == "property" }
  predicate IsRelationship(t: string) { Lower(t) == "relationship" }
  predicate IsGeoProperty(t: string) { Lower(t) == "geoproperty" }
  predicate IsPoint(t: string) { Lower(t) == "point" }

  lemma Words()
    ensures IsType(TYPE) && !IsId(TYPE) && IsId(ID) && !IsType(ID) && !IsValue(TYPE) && !IsObject(TYPE)
    ensures IsValue(VALUE) && !IsType(VALUE) && IsObject(OBJECT) && !IsType(OBJECT)
    ensures IsProperty(PROPERTY) && IsRelationship(RELATIONSHIP) && IsGeoProperty(GEOPROPERTY) && IsPoint(POINT)
    ensures ID != TYPE && TYPE != VALUE && TYPE != OBJECT && VALUE != OBJECT && TYPE != COORDINATES
    ensures forall t :: IsRelationship(t) ==> !IsProperty(t)
    ensures forall t :: IsGeoProperty(t) ==> !IsProperty(t) && !IsRelationship(t)
    ensures IsContext(CONTEXT) && !IsId(CONTEXT) && !IsType(CONTEXT) && CONTEXT != ID && CONTEXT != TYPE
    ensures forall k :: IsLocation(k) ==> !IsId(k) && !IsType(k) && !IsContext(k)
  {
    assert |CONTEXT| == 8 && Lower(CONTEXT) == "@context";
    assert |ID| == 2 && |TYPE| == 4 && |VALUE| == 5 && |OBJECT| == 6;
    assert Lower(ID) == "id" && Lower(TYPE) == "type" && Lower(VALUE) == "value" && Lower(OBJECT) == "object";
    assert Lower(PROPERTY) == "property" && Lower(RELATIONSHIP) == "relationship";
    assert Lower(GEOPROPERTY) == "geoproperty" && Lower(POINT) == "point";
    assert forall t :: IsRelationship(t) ==> |Lower(t)| == 12;
    assert forall t :: IsProperty(t) ==> |Lower(t)| == 8;
    assert forall t :: IsGeoProperty(t) ==> |Lower(t)| == 11;
    assert forall k :: IsLocation(k) ==> Lower(k)[0] == 'l';
    assert forall k :: IsContext(k) ==> Lower(k)[0] == '@';
  }

  type Fields = map<string, Json>

  function Field(fields: Fields, k: string): Json
  {
    if k in fields then fields[k] else Null
  }

  // ----- The writer -----

  function WithMetadata(m: Fields, ms: seq<Metadata>): Fields
  {
    if ms == [] then m else WithMetadata(m, ms[..|ms| - 1])[ms[|ms| - 1].name := ms[|ms| - 1].value]
  }

  function Bare(a: Attribute): Fields
  {
    match a.kind
    case RelationshipKind => map[TYPE := Str(RELATIONSHIP), OBJECT := a.value]
    case DateTimeKind => map[TYPE := Str(PROPERTY), VALUE := Obj(map["@type" := Str("datetime"), "@value" := a.value])]
    case _ => map[TYPE := Str(PROPERTY), VALUE := a.value]
  }

  function WrittenAttribute(a: Attribute): Json
  {
    Obj(WithMetadata(Bare(a), a.metadata))
  }

  predicate IsKept(a: Attribute)
  {
    a.name != "" && a.kind != NoKind && a.value != Null
  }

  /** A second attribute of the same name turns the entry into an array, further ones extend it. */
  function PutAttribute(m: Fields, a: Attribute): Fields
  {
    if !IsKept(a) then m
    else
      var p := WrittenAttribute(a);
      m[a.name := if a.name !in m then p
                  else if m[a.name].Arr? then Arr(m[a.name].items + [p])
                  else Arr([m[a.name], p])]
  }

  function PutAttributes(m: Fields, attributes: seq<Attribute>): Fields
  {
    if attributes == [] then m
    else PutAttribute(PutAttributes(m, attributes[..|attributes| - 1]), attributes[|attributes| - 1])
  }

  function PointProperty(longitude: real, latitude: real): Json
  {
    Obj(map[TYPE := Str(GEOPROPERTY),
            VALUE := Obj(map[TYPE := Str(POINT), COORDINATES := Arr([Num(longitude), Num(latitude)])])])
  }

  function PutDomain(m: Fields, d: DomainMetadata): Fields
  {
    match d
    case PointMetadata(name, longitude, latitude) =>
      if name == "" then m else m[name := PointProperty(longitude, latitude)]
    case OtherMetadata(name, typ, value) =>
      if name == "" || typ == "" || value == Null then m
      else m[name := Obj(map[TYPE := Str(PROPERTY), VALUE := value])]
  }

  function PutDomains(m: Fields, ds: seq<DomainMetadata>): Fields
  {
    if ds == [] then m else PutDomain(PutDomains(m, ds[..|ds| - 1]), ds[|ds| - 1])
  }

  predicate HasUrn(id: string)
  {
    "urn:" <= id || "URN:" <= id
  }

  /** `NGSILD_CORE_CONTEXT`. */
  function CoreContext(): Json
  {
    Str("https://uri.etsi.org/ngsi-ld/v1/ngsi-ld-core-context.jsonld")
  }

  /** `id`, `type` and, if there is one to add, the `@context`. */
  function Head(el: Element, context: Option<Json>): Fields
  {
    var head := map[ID := Str(if HasUrn(el.id) then el.id else "urn:ngsi-ld:" + el.id), TYPE := Str(el.typ)];
    if context.Some? then head[CONTEXT := context.value] else head
  }

  function Written(el: Element, context: Option<Json>): Fields
  {
    PutDomains(PutAttributes(Head(el, context), el.attributes), el.metadata)
  }

  // ----- The reader, for every order of its ranges over maps -----

  /** The keys that become metadata of an attribute. */
  ghost function SubKeys(fields: Fields, isRelationship: bool): set<string>
  {
    set k | k in fields && !IsType(k) && !(if isRelationship then IsObject(k) else IsValue(k))
  }

  function NamesOf(ms: seq<Metadata>): seq<string>
  {
    seq(|ms|, i requires 0 <= i < |ms| => ms[i].name)
  }

  ghost predicate MetadataRead(fields: Fields, isRelationship: bool, ms: seq<Metadata>)
  {
    && Lists(NamesOf(ms), SubKeys(fields, isRelationship))
    && forall i :: 0 <= i < |ms| ==> ms[i].name in fields && ms[i].value == fields[ms[i].name]
  }

  predicate HasType(fields: Fields)
  {
    TYPE in fields && fields[TYPE].Str?
  }

  function KindName(v: Json): string
  {
    match v
    case Num(_) => "float"
    case Str(_) => "string"
    case _ => "object"
  }

  ghost predicate AttributeRead(k: string, fields: Fields, a: Attribute)
    requires HasType(fields)
  {
    var t := fields[TYPE].s;
    if IsProperty(t) then
      && a.name == k && a.kind == PlainKind(KindName(Field(fields, VALUE))) && a.value == Field(fields, VALUE)
      && MetadataRead(fields, false, a.metadata)
    else if IsRelationship(t) then
      && a.name == k && a.kind == RelationshipKind && a.value == Field(fields, OBJECT)
      && MetadataRead(fields, true, a.metadata)
    else a == Attribute("", NoKind, Null, [])
  }

  /** `attributes` are what the objects among `items` read as, without those that are not kept. */
  ghost predicate ItemsRead(k: string, items: seq<Json>, attributes: seq<Attribute>)
    requires forall v :: v in items && v.Obj? ==> HasType(v.fields)
  {
    if items == [] then attributes == []
    else
      var init, v := items[..|items| - 1], items[|items| - 1];
      if v.Obj? then
        || (exists a :: AttributeRead(k, v.fields, a) && !IsKept(a) && ItemsRead(k, init, attributes))
        || (attributes != [] && IsKept(attributes[|attributes| - 1])
            && AttributeRead(k, v.fields, attributes[|attributes| - 1])
            && ItemsRead(k, init, attributes[..|attributes| - 1]))
      else ItemsRead(k, init, attributes)
  }

  /** A Point that the reader can take apart; another geometry reads as nothing. */
  predicate IsGeometry(v: Json)
  {
    && v.Obj? && HasType(v.fields)
    && (IsPoint(v.fields[TYPE].s) ==>
          && COORDINATES in v.fields && v.fields[COORDINATES].Arr? && |v.fields[COORDINATES].items| >= 2
          && v.fields[COORDINATES].items[0].Num? && v.fields[COORDINATES].items[1].Num?)
  }

  predicate IsReadableLocation(fields: Fields)
    requires HasType(fields)
  {
    IsGeoProperty(fields[TYPE].s) ==> IsGeometry(Field(fields, VALUE))
  }

  function DomainOf(k: string, fields: Fields): seq<DomainMetadata>
    requires HasType(fields) && (IsLocation(k) ==> IsReadableLocation(fields))
  {
    if !IsLocation(k) then []
    else if !IsGeoProperty(fields[TYPE].s) then [OtherMetadata(k, fields[TYPE].s, Field(fields, VALUE))]
    else
      var g := Field(fields, VALUE).fields;
      if !IsPoint(g[TYPE].s) then [OtherMetadata(k, "", Null)]
      else [PointMetadata(k, g[COORDINATES].items[0].n, g[COORDINATES].items[1].n)]
  }

  predicate IsReserved(k: string)
  {
    IsId(k) || IsType(k) || IsContext(k)
  }

  /** What the code asserts of a value when it is read; anything else makes it panic. */
  ghost predicate IsReadableValue(k: string, v: Json)
  {
    if IsId(k) || IsType(k) then v.Str?
    else if IsContext(k) then true
    else match v
      case Obj(fields) => HasType(fields) && (IsLocation(k) ==> IsReadableLocation(fields))
      case Arr(items) => forall x :: x in items && x.Obj? ==> HasType(x.fields)
      case _ => true
  }

  ghost predicate BlockRead(k: string, v: Json, attributes: seq<Attribute>, ds: seq<DomainMetadata>)
    requires IsReadableValue(k, v)
  {
    if IsReserved(k) then attributes == [] && ds == []
    else match v
      case Obj(fields) =>
        && ds == DomainOf(k, fields)
        && exists a :: AttributeRead(k, fields, a) && attributes == if IsKept(a) then [a] else []
      case Arr(items) => ItemsRead(k, items, attributes) && ds == []
      case _ => attributes == [] && ds == []
  }

  ghost predicate IsReadable(entity: Fields)
  {
    forall k :: k in entity ==> IsReadableValue(k, entity[k])
  }

  function Flat<T>(xss: seq<seq<T>>): seq<T>
  {
    if xss == [] then [] else Flat(xss[..|xss| - 1]) + xss[|xss| - 1]
  }

  /** One way of reading an entity: the order of its keys and what each key contributed. */
  datatype Reading = Reading(keys: seq<string>, blocks: seq<seq<Attribute>>, domains: seq<seq<DomainMetadata>>)

  ghost predicate IsReading(entity: Fields, r: Reading)
    requires IsReadable(entity)
  {
    && |r.blocks| == |r.keys| == |r.domains|
    && (forall i :: 0 <= i < |r.keys| ==>
          r.keys[i] in entity && BlockRead(r.keys[i], entity[r.keys[i]], r.blocks[i], r.domains[i]))
  }

  ghost predicate EntityRead(entity: Fields, el: Element, r: Reading)
    requires IsReadable(entity)
  {
    && Lists(r.keys, entity.Keys) && IsReading(entity, r)
    && el.attributes == Flat(r.blocks) && el.metadata == Flat(r.domains)
    && (exists k :: k in entity && IsId(k) && entity[k] == Str(el.id))
    && (exists k :: k in entity && IsType(k) && entity[k] == Str(el.typ))
  }
}
