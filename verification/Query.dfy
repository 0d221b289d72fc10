/** The availability query of discovery (discovery/repository.go, discovery/utils.go): all matches, or the
    nearest ones when a nearby limit is given, each under its provider. */
module Query {
  import opened Listings
  import opened Repository
  import opened Wrappers

  datatype EntityFilter = EntityFilter(typ: string, id: EntityId, isPattern: bool)

  /** The subscribed entities and attributes; regular expressions and metadata restrictions are left open. */
  datatype Filter = Filter(
    entities: seq<EntityFilter>,
    attributes: seq<string>,
    regex: (string, string) -> bool,
    restriction: map<string, string> -> bool)

  predicate MatchEntityId(reg: Registration, e: EntityFilter, regex: (string, string) -> bool)
  {
    if e.isPattern then
      (e.id != "" ==> regex(e.id, reg.id)) && (e.typ != "" ==> regex(e.typ, reg.typ))
    else
      e.id == reg.id && (e.typ != "" ==> e.typ == reg.typ)
  }

  /** Patterns are put to the id and the type of the registration: with a pattern that matches what it is a prefix of,
      a filter lets through exactly the registrations whose id and type it begins, empty patterns included; without
      patterns it asks for the very id, and for the type only if it names one. */
  lemma FilterMeans(reg: Registration, e: EntityFilter, regex: (string, string) -> bool)
    requires forall p, s :: regex(p, s) <==> p <= s
    ensures e.isPattern ==> (MatchEntityId(reg, e, regex) <==> e.id <= reg.id && e.typ <= reg.typ)
    ensures !e.isPattern ==> (MatchEntityId(reg, e, regex) <==> e.id == reg.id && e.typ in {"", reg.typ})
  {
    assert "" <= reg.id && "" <= reg.typ;
  }

  ghost predicate Matching(reg: Registration, f: Filter)
  {
    && (exists i :: 0 <= i < |f.entities| && MatchEntityId(reg, f.entities[i], f.regex))
    && (forall a :: a in f.attributes ==> a in reg.attributes)
    && f.restriction(reg.metadata)
  }

  /** `matchingWithFilters` with `matchAttributes`: read-only loops that stop at the first decision. */
  method MatchingWithFilters(reg: Registration, f: Filter) returns (matched: bool)
    ensures matched <==> Matching(reg, f)
  {
    var atLeastOne, i := false, 0;
    while i < |f.entities| && !atLeastOne
      invariant i <= |f.entities|
      invariant atLeastOne <==> exists j :: 0 <= j < i && MatchEntityId(reg, f.entities[j], f.regex)
    {
      atLeastOne := MatchEntityId(reg, f.entities[i], f.regex);
      i := i + 1;
    }
    if !atLeastOne {
      return false;
    }
    for k := 0 to |f.attributes|
      invariant forall j :: 0 <= j < k ==> f.attributes[j] in reg.attributes
    {
      if f.attributes[k] !in reg.attributes {
        assert f.attributes[k] in f.attributes;
        return false;
      }
    }
    return f.restriction(reg.metadata);
  }

  datatype Candidate = Candidate(provider: string, id: EntityId, typ: string, distance: nat)

  datatype Entity = Entity(id: EntityId, typ: string)

  function CandidateOf(reg: Registration, distance: Registration -> nat): Candidate
  {
    Candidate(reg.provider, reg.id, reg.typ, distance(reg))
  }

  ghost function Matches(table: Table, f: Filter): set<EntityId>
  {
    set e | e in table && Matching(table[e], f)
  }

  ghost predicate Filed(table: Table)
  {
    forall e :: e in table ==> table[e].id == e
  }

  // ----- What the query answers -----

  /** All matches, or the nearest `limit` of them if there are more. */
  ghost predicate IsAnswer(table: Table, f: Filter, limit: Option<int>, distance: Registration -> nat,
                           chosen: set<EntityId>)
  {
    var all := Matches(table, f);
    && chosen <= all
    && (limit.None? || |all| <= limit.value ==> chosen == all)
    && (limit.Some? && |all| > limit.value ==>
          && |chosen| == limit.value
          && forall a, b :: a in chosen && b in all - chosen ==> distance(table[a]) <= distance(table[b]))
  }

  /** Every chosen entity is listed exactly once, under its own provider, and nothing else is listed. */
  ghost predicate IsGrouped(table: Table, chosen: set<EntityId>, m: map<string, seq<Entity>>)
    requires chosen <= table.Keys
  {
    && (forall p :: p in m ==> m[p] != [] && Distinct(m[p]))
    && (forall p, x :: p in m && x in m[p] ==>
                         x.id in chosen && table[x.id].provider == p && table[x.id].typ == x.typ)
    && (forall e :: e in chosen ==> table[e].provider in m && Entity(e, table[e].typ) in m[table[e].provider])
  }

  ghost predicate Ascending(cs: seq<Candidate>)
  {
    forall i, j :: 0 <= i < j < |cs| ==> cs[i].distance <= cs[j].distance
  }

  /** Stands for `sort.Slice`: nothing is used of it but that the result is an ascending permutation. */
  method SortByDistance(cs: seq<Candidate>) returns (sorted: seq<Candidate>)
    requires Distinct(cs)
    ensures Ascending(sorted) && Lists(sorted, Elements(cs)) && |sorted| == |cs|
  {
    sorted := [];
    for n := 0 to |cs|
      invariant Ascending(sorted) && Lists(sorted, Elements(cs[..n])) && |sorted| == n
    {
      var c, k := cs[n], n;
      while k > 0 && sorted[k - 1].distance > c.distance
        invariant 0 <= k <= n
        invariant forall j :: k <= j < n ==> sorted[j].distance > c.distance
      {
        k := k - 1;
      }
      assert c !in Elements(cs[..n]);
      InsertedAt(sorted, c, k);
      sorted := sorted[..k] + [c] + sorted[k..];
      assert cs[..n + 1] == cs[..n] + [c];
    }
    assert cs[..|cs|] == cs;
  }

  lemma InsertedAt(cs: seq<Candidate>, c: Candidate, k: nat)
    requires k <= |cs| && Distinct(cs) && c !in Elements(cs)
    requires Ascending(cs)
    requires forall j :: 0 <= j < k ==> cs[j].distance <= c.distance
    requires forall j :: k <= j < |cs| ==> cs[j].distance > c.distance
    ensures Ascending(cs[..k] + [c] + cs[k..])
    ensures Lists(cs[..k] + [c] + cs[k..], Elements(cs) + {c})
  {
    InsertedAscending(cs, c, k);
    InsertedLists(cs, c, k);
  }

  lemma InsertedAscending(cs: seq<Candidate>, c: Candidate, k: nat)
    requires k <= |cs| && Ascending(cs)
    requires forall j :: 0 <= j < k ==> cs[j].distance <= c.distance
    requires forall j :: k <= j < |cs| ==> cs[j].distance > c.distance
    ensures Ascending(cs[..k] + [c] + cs[k..])
  {
    var r := cs[..k] + [c] + cs[k..];
    forall i, j | 0 <= i < j < |r| ensures r[i].distance <= r[j].distance {
      assert r[i] == if i < k then cs[i] else if i == k then c else cs[i - 1];
      assert r[j] == if j < k then cs[j] else if j == k then c else cs[j - 1];
    }
  }

  lemma InsertedLists<T>(cs: seq<T>, c: T, k: nat)
    requires k <= |cs| && Distinct(cs) && c !in Elements(cs)
    ensures Lists(cs[..k] + [c] + cs[k..], Elements(cs) + {c})
  {
    var r := cs[..k] + [c] + cs[k..];
    assert cs == cs[..k] + cs[k..];
    assert Elements(r) == Elements(cs) + {c};
    forall i, j | 0 <= i < j < |r| ensures r[i] != r[j] {
      assert r[i] == if i < k then cs[i] else if i == k then c else cs[i - 1];
      assert r[j] == if j < k then cs[j] else if j == k then c else cs[j - 1];
      assert i != k ==> r[i] in Elements(cs);
      assert j != k ==> r[j] in Elements(cs);
    }
  }

  /** The candidates are those of the listed entities, in the same order. */
  ghost predicate AreCandidates(table: Table, distance: Registration -> nat, ids: seq<EntityId>, cs: seq<Candidate>)
  {
    |cs| == |ids| && forall i :: 0 <= i < |ids| ==> ids[i] in table && cs[i] == CandidateOf(table[ids[i]], distance)
  }

  function IdsOf(cs: seq<Candidate>): seq<EntityId>
  {
    seq(|cs|, i requires 0 <= i < |cs| => cs[i].id)
  }

  lemma CandidatesDistinct(table: Table, distance: Registration -> nat, ids: seq<EntityId>, cs: seq<Candidate>)
    requires Filed(table) && AreCandidates(table, distance, ids, cs) && Distinct(ids)
    ensures Distinct(cs) && IdsOf(cs) == ids
  {
  }

  /** A permutation of the candidates is the candidates of a permutation. */
  lemma PermutedCandidates(table: Table, distance: Registration -> nat, ids: seq<EntityId>, cs: seq<Candidate>,
                           sorted: seq<Candidate>)
    requires Filed(table) && AreCandidates(table, distance, ids, cs) && Distinct(ids)
    requires Lists(sorted, Elements(cs)) && |sorted| == |cs|
    ensures AreCandidates(table, distance, IdsOf(sorted), sorted)
    ensures Lists(IdsOf(sorted), Elements(ids))
  {
    forall i | 0 <= i < |sorted|
      ensures sorted[i].id in Elements(ids) && sorted[i].id in table
              && sorted[i] == CandidateOf(table[sorted[i].id], distance)
    {
      assert sorted[i] in Elements(cs);
      var j :| 0 <= j < |cs| && cs[j] == sorted[i];
      assert ids[j] in Elements(ids);
    }
    forall i, j | 0 <= i < j < |sorted| ensures sorted[i].id != sorted[j].id {
      assert sorted[i] != sorted[j];
    }
    forall e | e in Elements(ids) ensures e in Elements(IdsOf(sorted)) {
      var j :| 0 <= j < |ids| && ids[j] == e;
      assert cs[j] in Elements(cs);
      var i :| 0 <= i < |sorted| && sorted[i] == cs[j];
      assert IdsOf(sorted)[i] == e;
    }
    forall e | e in Elements(IdsOf(sorted)) ensures e in Elements(ids) {
      var i :| 0 <= i < |sorted| && IdsOf(sorted)[i] == e;
    }
  }

  lemma {:induction false} DistinctSize<T>(xs: seq<T>)
    requires Distinct(xs)
    ensures |Elements(xs)| == |xs|
  {
    if xs != [] {
      var init, last := xs[..|xs| - 1], xs[|xs| - 1];
      DistinctSize(init);
      assert xs == init + [last];
      assert last !in init;
      assert Elements(xs) == Elements(init) + {last};
    }
  }

  /** The first `limit` of an ascending list are an answer. */
  lemma NearestAnswer(table: Table, f: Filter, limit: int, distance: Registration -> nat, ids: seq<EntityId>,
                      cs: seq<Candidate>)
    requires 0 <= limit < |cs| && Ascending(cs)
    requires AreCandidates(table, distance, ids, cs) && Lists(ids, Matches(table, f))
    ensures IsAnswer(table, f, Some(limit), distance, Elements(ids[..limit]))
    ensures Distinct(ids[..limit])
  {
    var all, chosen := Matches(table, f), Elements(ids[..limit]);
    DistinctSize(ids);
    DistinctSize(ids[..limit]);
    assert chosen <= all by {
      assert forall i :: 0 <= i < |ids| ==> ids[i] in Elements(ids);
    }
    assert forall i :: 0 <= i < limit ==> ids[i] in chosen;
    forall a, b | a in chosen && b in all - chosen ensures distance(table[a]) <= distance(table[b]) {
      var i :| 0 <= i < limit && ids[i] == a;
      var j :| 0 <= j < |ids| && ids[j] == b;
      assert cs[i].distance <= cs[j].distance;
    }
  }

  /** `queryEntitiesInMemory`.  A negative limit makes the slice expression panic: `None`. */
  method QueryEntities(table: Table, f: Filter, limit: Option<int>, distance: Registration -> nat)
    returns (r: Option<map<string, seq<Entity>>>, ghost chosen: set<EntityId>)
    requires Filed(table)
    ensures r.None? <==> limit.Some? && limit.value < 0
    ensures r.Some? ==> IsAnswer(table, f, limit, distance, chosen)
    ensures r.Some? ==> IsGrouped(table, chosen, r.value)
  {
    var cs := CollectCandidates(table, f, distance);
    ghost var ids := IdsOf(cs);
    CandidatesDistinct(table, distance, ids, cs);
    DistinctSize(ids);
    if limit.Some? {
      if |cs| > limit.value {
        var sorted := SortByDistance(cs);
        PermutedCandidates(table, distance, ids, cs, sorted);
        if limit.value < 0 {
          return None, {};
        }
        ids := IdsOf(sorted);
        NearestAnswer(table, f, limit.value, distance, ids, sorted);
        cs, ids := sorted[..limit.value], ids[..limit.value];
      }
    }
    chosen := Elements(ids);
    var m := GroupByProvider(table, cs, distance, ids);
    r := Some(m);
  }

  method CollectCandidates(table: Table, f: Filter, distance: Registration -> nat)
    returns (cs: seq<Candidate>)
    requires Filed(table)
    ensures AreCandidates(table, distance, IdsOf(cs), cs) && Lists(IdsOf(cs), Matches(table, f))
  {
    cs := [];
    ghost var ids: seq<EntityId> := [];
    var todo := table.Keys;
    while todo != {}
      invariant todo <= table.Keys
      invariant AreCandidates(table, distance, ids, cs) && Lists(ids, Matches(table, f) - todo)
    {
      var e :| e in todo;
      var matched := MatchingWithFilters(table[e], f);
      ghost var before := Matches(table, f) - todo;
      if matched {
        cs := cs + [CandidateOf(table[e], distance)];
        ListsAppend(ids, before, e);
        ids := ids + [e];
      }
      todo := todo - {e};
      assert Matches(table, f) - todo == if matched then before + {e} else before;
    }
    assert Matches(table, f) - todo == Matches(table, f);
    CandidatesDistinct(table, distance, ids, cs);
  }

  method GroupByProvider(table: Table, cs: seq<Candidate>, ghost distance: Registration -> nat,
                         ghost ids: seq<EntityId>)
    returns (m: map<string, seq<Entity>>)
    requires Filed(table) && AreCandidates(table, distance, ids, cs) && Distinct(ids)
    ensures Elements(ids) <= table.Keys && IsGrouped(table, Elements(ids), m)
  {
    m := map[];
    for n := 0 to |cs|
      invariant Elements(ids[..n]) <= table.Keys
      invariant IsGrouped(table, Elements(ids[..n]), m)
    {
      var c := cs[n];
      var entity := Entity(c.id, c.typ);
      ghost var before := m;
      assert ids[..n + 1] == ids[..n] + [ids[n]];
      assert ids[n] !in Elements(ids[..n]);
      m := m[c.provider := (if c.provider in m then m[c.provider] else []) + [entity]];
      GroupedNext(table, Elements(ids[..n]), before, c.id, m);
      assert Elements(ids[..n + 1]) == Elements(ids[..n]) + {ids[n]};
    }
    assert ids[..|cs|] == ids;
  }

  lemma GroupedNext(table: Table, chosen: set<EntityId>, m: map<string, seq<Entity>>, e: EntityId,
                    m': map<string, seq<Entity>>)
    requires chosen <= table.Keys && IsGrouped(table, chosen, m) && e in table && e !in chosen
    requires
      var p := table[e].provider;
      m' == m[p := (if p in m then m[p] else []) + [Entity(e, table[e].typ)]]
    ensures IsGrouped(table, chosen + {e}, m')
  {
    var p := table[e].provider;
    assert forall x :: p in m && x in m[p] ==> x.id in chosen;
    assert m'[p][|m'[p]| - 1] == Entity(e, table[e].typ);
  }
}
