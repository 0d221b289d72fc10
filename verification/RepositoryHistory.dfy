/** What any history of requests and removals leaves in the registration table (discovery/repository.go), told from
    the requests themselves. */
module RepositoryHistory {
  import opened Repository

  // ----- Which requests count -----

  predicate IsRequest(c: Change, id: EntityId)
  {
    c.Register? && c.request.id == id
  }

  /** Change `j` takes the entity out: it is deleted, or its provider leaves. */
  predicate Removes(cs: seq<Change>, j: nat, id: EntityId)
    requires j < |cs|
  {
    var before := History(cs[..j]);
    match cs[j]
    case Register(_) => false
    case Delete(e) => e == id
    case ProviderLeft(p) => id in before && before[id].provider == p
  }

  /** The entity was created by request `c` and has not been taken out since. */
  ghost predicate CreatedAt(cs: seq<Change>, id: EntityId, c: nat)
  {
    && c < |cs| && IsRequest(cs[c], id) && id !in History(cs[..c])
    && forall j :: c <= j < |cs| ==> !Removes(cs, j, id)
  }

  lemma RemovesInit(cs: seq<Change>, j: nat, id: EntityId)
    requires j < |cs| - 1
    ensures Removes(cs, j, id) <==> Removes(cs[..|cs| - 1], j, id)
  {
    assert cs[..|cs| - 1][..j] == cs[..j];
  }

  /** An entity is in the table iff it was registered after it was last taken out. */
  lemma {:induction false} InTableIff(cs: seq<Change>, id: EntityId)
    ensures id in History(cs) <==>
            exists k :: 0 <= k < |cs| && IsRequest(cs[k], id) && forall j :: k < j < |cs| ==> !Removes(cs, j, id)
  {
    if cs != [] {
      var init, n := cs[..|cs| - 1], |cs| - 1;
      InTableIff(init, id);
      forall j | 0 <= j < n ensures Removes(cs, j, id) <==> Removes(init, j, id) {
        RemovesInit(cs, j, id);
      }
      if IsRequest(cs[n], id) {
        assert id in History(cs);
      } else if id in History(init) && !Removes(cs, n, id) {
        var k :| 0 <= k < |init| && IsRequest(init[k], id) && forall j :: k < j < |init| ==> !Removes(init, j, id);
        assert IsRequest(cs[k], id);
      }
    }
  }

  // ----- What it is registered with -----

  /** Entry `i` is the last of that name. */
  ghost predicate IsLastEntry(es: seq<Entry>, name: string, i: nat)
  {
    i < |es| && es[i].name == name && forall j :: i < j < |es| ==> es[j].name != name
  }

  predicate HasEntry(es: seq<Entry>, name: string)
  {
    exists i :: 0 <= i < |es| && es[i].name == name
  }

  lemma {:induction false} ByNameIsLast(es: seq<Entry>, name: string)
    ensures name in ByName(es) <==> HasEntry(es, name)
    ensures name in ByName(es) ==> exists i: nat :: IsLastEntry(es, name, i) && ByName(es)[name] == es[i].content
  {
    if es != [] {
      var init, n := es[..|es| - 1], |es| - 1;
      ByNameIsLast(init, name);
      if es[n].name == name {
        assert IsLastEntry(es, name, n);
      } else if name in ByName(init) {
        var i: nat :| IsLastEntry(init, name, i) && ByName(init)[name] == init[i].content;
        assert IsLastEntry(es, name, i);
      }
    }
  }

  /** Request `k`, since the creation `c`, is the latest one for the entity that has an entry of that name. */
  ghost predicate IsLatestMention(cs: seq<Change>, id: EntityId, c: nat, name: string, k: nat)
  {
    && c <= k < |cs| && IsRequest(cs[k], id) && HasEntry(cs[k].request.metadata, name)
    && forall j :: k < j < |cs| && IsRequest(cs[j], id) ==> !HasEntry(cs[j].request.metadata, name)
  }

  ghost predicate NeverMentioned(cs: seq<Change>, id: EntityId, c: nat, name: string)
  {
    forall j :: c <= j < |cs| && IsRequest(cs[j], id) ==> !HasEntry(cs[j].request.metadata, name)
  }

  /** The metadata under the name are those of the latest request that mentions it, the last entry counting. */
  ghost predicate IsAsMentioned(cs: seq<Change>, id: EntityId, c: nat, name: string, metadata: map<string, string>)
  {
    if NeverMentioned(cs, id, c, name) then name !in metadata
    else
      exists k: nat, i: nat ::
        && IsLatestMention(cs, id, c, name, k) && IsLastEntry(cs[k].request.metadata, name, i)
        && name in metadata && metadata[name] == cs[k].request.metadata[i].content
  }

  /** `value` is the latest one given that is not empty, or empty if none is. */
  ghost predicate IsLatestGiven(cs: seq<Change>, id: EntityId, c: nat, given: Request -> string, value: string)
  {
    if forall j :: c <= j < |cs| && IsRequest(cs[j], id) ==> given(cs[j].request) == "" then value == ""
    else
      exists k :: c <= k < |cs| && IsRequest(cs[k], id) && given(cs[k].request) == value != ""
                  && forall j :: k < j < |cs| && IsRequest(cs[j], id) ==> given(cs[j].request) == ""
  }

  function TypeOf(r: Request): string { r.typ }

  function ProviderOf(r: Request): string { r.provider }

  /** Everything known of a registered entity, from the requests since it was created. */
  ghost predicate AsRequested(cs: seq<Change>, id: EntityId, c: nat)
    requires id in History(cs)
  {
    && (forall name :: IsAsMentioned(cs, id, c, name, History(cs)[id].metadata))
    && IsLatestGiven(cs, id, c, TypeOf, History(cs)[id].typ)
    && IsLatestGiven(cs, id, c, ProviderOf, History(cs)[id].provider)
  }

  lemma CreatedMetadata(cs: seq<Change>, id: EntityId, name: string)
    requires cs != [] && IsRequest(cs[|cs| - 1], id)
    ensures IsAsMentioned(cs, id, |cs| - 1, name, ByName(cs[|cs| - 1].request.metadata))
  {
    var n := |cs| - 1;
    ByNameIsLast(cs[n].request.metadata, name);
    if HasEntry(cs[n].request.metadata, name) {
      assert IsLatestMention(cs, id, n, name, n);
    }
  }

  /** One more change, which adds the metadata it brings if it is a request for the entity. */
  lemma KeptMetadata(cs: seq<Change>, id: EntityId, c: nat, name: string, old': map<string, string>,
                     new': map<string, string>)
    requires cs != [] && c < |cs| && IsAsMentioned(cs[..|cs| - 1], id, c, name, old')
    requires new' == if IsRequest(cs[|cs| - 1], id) then old' + ByName(cs[|cs| - 1].request.metadata) else old'
    ensures IsAsMentioned(cs, id, c, name, new')
  {
    var init, n := cs[..|cs| - 1], |cs| - 1;
    if IsRequest(cs[n], id) {
      ByNameIsLast(cs[n].request.metadata, name);
    }
    if IsRequest(cs[n], id) && HasEntry(cs[n].request.metadata, name) {
      assert IsLatestMention(cs, id, c, name, n);
    } else if NeverMentioned(init, id, c, name) {
      assert NeverMentioned(cs, id, c, name);
    } else {
      var k: nat, i: nat :| IsLatestMention(init, id, c, name, k) && IsLastEntry(init[k].request.metadata, name, i)
                            && name in old' && old'[name] == init[k].request.metadata[i].content;
      assert cs[k] == init[k];
      assert IsLatestMention(cs, id, c, name, k);
    }
  }

  lemma KeptGiven(cs: seq<Change>, id: EntityId, c: nat, given: Request -> string, old': string, new': string)
    requires cs != [] && c < |cs| - 1 && IsLatestGiven(cs[..|cs| - 1], id, c, given, old')
    requires new' == if IsRequest(cs[|cs| - 1], id) && given(cs[|cs| - 1].request) != ""
                     then given(cs[|cs| - 1].request) else old'
    ensures IsLatestGiven(cs, id, c, given, new')
  {
    var init, n := cs[..|cs| - 1], |cs| - 1;
    if IsRequest(cs[n], id) && given(cs[n].request) != "" {
      assert IsRequest(cs[n], id);
    } else if k :| c <= k < |init| && IsRequest(init[k], id) && given(init[k].request) == old' != ""
                   && forall j :: k < j < |init| && IsRequest(init[j], id) ==> given(init[j].request) == "" {
      assert IsRequest(cs[k], id) && given(cs[k].request) == old';
    }
  }

  /** What the last change does to a registration that stays. */
  lemma LastChange(cs: seq<Change>, id: EntityId)
    requires cs != [] && id in History(cs[..|cs| - 1]) && id in History(cs)
    ensures
      var before, after, last := History(cs[..|cs| - 1])[id], History(cs)[id], cs[|cs| - 1];
      if IsRequest(last, id) then after == Merged(before, last.request) else after == before
    ensures !Removes(cs, |cs| - 1, id)
  {
  }

  lemma StillCreated(cs: seq<Change>, id: EntityId, c: nat)
    requires cs != [] && !Removes(cs, |cs| - 1, id) && CreatedAt(cs[..|cs| - 1], id, c)
    ensures CreatedAt(cs, id, c)
  {
    var init := cs[..|cs| - 1];
    assert init[..c] == cs[..c];
    forall j | c <= j < |cs| ensures !Removes(cs, j, id) {
      if j < |init| {
        RemovesInit(cs, j, id);
      }
    }
  }

  lemma StillAsRequested(cs: seq<Change>, id: EntityId, c: nat)
    requires cs != [] && c < |cs| - 1 && id in History(cs[..|cs| - 1]) && id in History(cs)
    requires AsRequested(cs[..|cs| - 1], id, c)
    ensures AsRequested(cs, id, c)
  {
    LastChange(cs, id);
    var before, after := History(cs[..|cs| - 1])[id], History(cs)[id];
    forall name ensures IsAsMentioned(cs, id, c, name, after.metadata) {
      KeptMetadata(cs, id, c, name, before.metadata, after.metadata);
    }
    KeptGiven(cs, id, c, TypeOf, before.typ, after.typ);
    KeptGiven(cs, id, c, ProviderOf, before.provider, after.provider);
  }

  lemma FirstChange(cs: seq<Change>, id: EntityId)
    requires cs != [] && id !in History(cs[..|cs| - 1]) && id in History(cs)
    ensures IsRequest(cs[|cs| - 1], id) && History(cs)[id] == Created(cs[|cs| - 1].request)
    ensures CreatedAt(cs, id, |cs| - 1)
  {
  }

  lemma CreatedGiven(cs: seq<Change>, id: EntityId, given: Request -> string)
    requires cs != [] && IsRequest(cs[|cs| - 1], id)
    ensures IsLatestGiven(cs, id, |cs| - 1, given, given(cs[|cs| - 1].request))
  {
  }

  lemma CreatedAsRequested(cs: seq<Change>, id: EntityId)
    requires cs != [] && id !in History(cs[..|cs| - 1]) && id in History(cs)
    ensures CreatedAt(cs, id, |cs| - 1) && AsRequested(cs, id, |cs| - 1)
  {
    FirstChange(cs, id);
    var n, reg := |cs| - 1, History(cs)[id];
    forall name ensures IsAsMentioned(cs, id, n, name, reg.metadata) {
      CreatedMetadata(cs, id, name);
    }
    CreatedGiven(cs, id, TypeOf);
    CreatedGiven(cs, id, ProviderOf);
  }

  /** In every history, a registered entity was created by a request since which nothing took it out, and its
      metadata, type and provider are those of the latest requests since then that give them. */
  lemma {:induction false} RegisteredAsRequested(cs: seq<Change>, id: EntityId)
    requires id in History(cs)
    ensures exists c: nat :: CreatedAt(cs, id, c) && AsRequested(cs, id, c)
  {
    var init := cs[..|cs| - 1];
    if id !in History(init) {
      CreatedAsRequested(cs, id);
    } else {
      RegisteredAsRequested(init, id);
      var c: nat :| CreatedAt(init, id, c) && AsRequested(init, id, c);
      LastChange(cs, id);
      StillCreated(cs, id, c);
      StillAsRequested(cs, id, c);
    }
  }
}
