/** The registration table of discovery (discovery/repository.go). */
module Repository {
  type EntityId = string

  /** An entity's registration: its attributes and metadata by name, and who provides it. */
  datatype Registration = Registration(
    id: EntityId,
    typ: string,
    attributes: map<string, string>,
    metadata: map<string, string>,
    provider: string)

  datatype Entry = Entry(name: string, content: string)

  /** One entity of a registration request. */
  datatype Request = Request(
    id: EntityId,
    typ: string,
    attributes: seq<Entry>,
    metadata: seq<Entry>,
    provider: string)

  type Table = map<EntityId, Registration>

  function ByName(es: seq<Entry>): map<string, string>
  {
    if es == [] then map[] else ByName(es[..|es| - 1])[es[|es| - 1].name := es[|es| - 1].content]
  }

  function Created(r: Request): Registration
  {
    Registration(r.id, r.typ, ByName(r.attributes), ByName(r.metadata), r.provider)
  }

  /** The attributes of the latest request replace the old ones; metadata accumulate; an empty type or
      provider keeps the old one. */
  function Merged(reg: Registration, r: Request): Registration
  {
    Registration(reg.id, if r.typ != "" then r.typ else reg.typ, ByName(r.attributes),
                 reg.metadata + ByName(r.metadata), if r.provider != "" then r.provider else reg.provider)
  }

  function Registered(table: Table, r: Request): Table
  {
    table[r.id := if r.id in table then Merged(table[r.id], r) else Created(r)]
  }

  function WithoutProvider(table: Table, provider: string): Table
  {
    map e | e in table && table[e].provider != provider :: table[e]
  }

  datatype Change = Register(request: Request) | Delete(id: EntityId) | ProviderLeft(provider: string)

  function Apply(table: Table, c: Change): Table
  {
    match c
    case Register(r) => Registered(table, r)
    case Delete(id) => table - {id}
    case ProviderLeft(p) => WithoutProvider(table, p)
  }

  // ----- The table after any history of changes -----

  function History(cs: seq<Change>): Table
  {
    if cs == [] then map[] else Apply(History(cs[..|cs| - 1]), cs[|cs| - 1])
  }

  /** In every history, a registered entity's attributes are those of its latest registration request, and the
      registration is filed under the entity's own id. */
  lemma {:induction false} LatestAttributes(cs: seq<Change>, id: EntityId)
    requires id in History(cs)
    ensures History(cs)[id].id == id
    ensures exists k :: 0 <= k < |cs| && IsLatest(cs, id, k)
                        && History(cs)[id].attributes == ByName(cs[k].request.attributes)
  {
    var init, last := cs[..|cs| - 1], cs[|cs| - 1];
    if last.Register? && last.request.id == id {
      if id in History(init) {
        LatestAttributes(init, id);
      }
      assert IsLatest(cs, id, |cs| - 1);
    } else {
      LatestAttributes(init, id);
      var k :| 0 <= k < |init| && IsLatest(init, id, k)
               && History(init)[id].attributes == ByName(init[k].request.attributes);
      assert IsLatest(cs, id, k);
    }
  }

  /** `cs[k]` is the last registration request for `id`. */
  ghost predicate IsLatest(cs: seq<Change>, id: EntityId, k: nat)
    requires k < |cs|
  {
    && cs[k].Register? && cs[k].request.id == id
    && forall j :: k < j < |cs| && cs[j].Register? ==> cs[j].request.id != id
  }

  class EntityRepository {
    var ctxRegistrationList: Table

    constructor ()
      ensures ctxRegistrationList == map[]
    {
      ctxRegistrationList := map[];
    }

    /** `updateRegistrationInMemory`. */
    method UpdateRegistrationInMemory(r: Request)
      modifies this
      ensures ctxRegistrationList == Registered(old(ctxRegistrationList), r)
    {
      if r.id in ctxRegistrationList {
        var before := ctxRegistrationList[r.id];
        var attributes := ReplaceAttributes(before.attributes, r.attributes);
        var metadata := Assign(before.metadata, r.metadata);
        ctxRegistrationList := ctxRegistrationList[r.id :=
          Registration(before.id, if r.typ != "" then r.typ else before.typ, attributes, metadata,
                       if r.provider != "" then r.provider else before.provider)];
      } else {
        var attributes := Assign(map[], r.attributes);
        var metadata := Assign(map[], r.metadata);
        assert map[] + ByName(r.attributes) == ByName(r.attributes) && map[] + ByName(r.metadata) == ByName(r.metadata);
        ctxRegistrationList := ctxRegistrationList[r.id := Registration(r.id, r.typ, attributes, metadata, r.provider)];
      }
    }

    static method Assign(before: map<string, string>, es: seq<Entry>) returns (m: map<string, string>)
      ensures m == before + ByName(es)
    {
      m := before;
      for i := 0 to |es|
        invariant m == before + ByName(es[..i])
      {
        assert es[..i + 1][..i] == es[..i];
        m := m[es[i].name := es[i].content];
      }
      assert es[..|es|] == es;
    }

    /** Assigns the new attributes, then deletes every attribute that is not among them. */
    static method ReplaceAttributes(before: map<string, string>, es: seq<Entry>) returns (m: map<string, string>)
      ensures m == ByName(es)
    {
      m := Assign(before, es);
      var todo := m.Keys;
      while todo != {}
        invariant todo <= m.Keys
        invariant ByName(es).Keys <= m.Keys && m.Keys - todo <= ByName(es).Keys
        invariant forall a :: a in ByName(es) ==> m[a] == ByName(es)[a]
      {
        var a :| a in todo;
        var found := FindName(es, a);
        if !found {
          m := m - {a};
        }
        todo := todo - {a};
      }
    }

    static method FindName(es: seq<Entry>, name: string) returns (found: bool)
      ensures found <==> name in ByName(es)
    {
      found := false;
      for i := 0 to |es|
        invariant found <==> name in ByName(es[..i])
      {
        assert es[..i + 1][..i] == es[..i];
        if es[i].name == name {
          found := true;
        }
      }
      assert es[..|es|] == es;
    }

    /** `deleteEntity`. */
    method DeleteEntity(id: EntityId)
      modifies this
      ensures ctxRegistrationList == Apply(old(ctxRegistrationList), Delete(id))
    {
      ctxRegistrationList := ctxRegistrationList - {id};
    }

    /** `ProviderLeft`: deletes while ranging over the table. */
    method ProviderLeaves(provider: string)
      modifies this
      ensures ctxRegistrationList == Apply(old(ctxRegistrationList), ProviderLeft(provider))
    {
      var todo := ctxRegistrationList.Keys;
      while todo != {}
        invariant todo <= ctxRegistrationList.Keys <= old(ctxRegistrationList.Keys)
        invariant forall e :: e in ctxRegistrationList ==> ctxRegistrationList[e] == old(ctxRegistrationList)[e]
        invariant forall e :: e in old(ctxRegistrationList) ==>
                                (e in ctxRegistrationList <==>
                                 e in todo || old(ctxRegistrationList)[e].provider != provider)
      {
        var e :| e in todo;
        if ctxRegistrationList[e].provider == provider {
          ctxRegistrationList := ctxRegistrationList - {e};
        }
        todo := todo - {e};
      }
    }
  }
}
