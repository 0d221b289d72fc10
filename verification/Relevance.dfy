/** Relevant groups and relevant entities (master/taskMgr.go): what `searchRelevantEntities` lists, and its duality
    with `getRelevantGroups`. */
module Relevance {
  import opened Planner

  // ----- A table that is in step with the registrations -----

  /** A selector grouped by "ALL" shares its row of the table only with others grouped by "ALL". */
  ghost predicate NoKeyClash(f: Flow)
  {
    forall s, t :: s in f.subs && t in f.subs && f.subs[s].selector.key == f.subs[t].selector.key
                   ==> (f.subs[s].selector.groupBy == All <==> f.subs[t].selector.groupBy == All)
  }

  /** Every registered value is in its row, and a row for "ALL" holds nothing else. */
  ghost predicate TableListed(f: Flow)
  {
    forall s :: s in f.subs ==> RowListed(f.subs[s], f.unique)
  }

  ghost predicate RowListed(sub: Subscription, unique: map<string, seq<Value>>)
  {
    && (sub.regs.Keys != {} ==> sub.selector.key in unique)
    && (sub.selector.groupBy == All && sub.selector.key in unique ==> unique[sub.selector.key] == [AllValue])
    && (forall e :: e in sub.regs ==> ValueOf(sub.selector, sub.regs[e]) in unique[sub.selector.key])
  }

  /** For a point of the product and a registered entity whose row is there, whatever other selectors share the row:
      relevance and restriction agree if and only if a selector by "ALL" meets "ALL". */
  lemma DualExactly(f: Flow, s: SubId, e: EntityId, g: Group)
    requires s in f.subs && e in f.subs[s].regs && f.subs[s].selector.key in f.unique && IsFull(f.unique, g)
    ensures
      var selector := f.subs[s].selector;
      (IsRelevant(f.unique, selector, f.subs[s].regs[e], g) <==> Yields(f, g, s, e))
      <==> (selector.groupBy == All ==> g[selector.key] == AllValue)
  {
    assert g.Keys == f.unique.Keys + {f.subs[s].selector.key};
  }

  /** For a point of the product and a registered entity: the group is relevant to the entity iff the group's
      restriction lets the entity through. */
  lemma RelevantIffYields(f: Flow, s: SubId, e: EntityId, g: Group)
    requires TableListed(f) && s in f.subs && e in f.subs[s].regs && IsFull(f.unique, g)
    ensures IsRelevant(f.unique, f.subs[s].selector, f.subs[s].regs[e], g) <==> Yields(f, g, s, e)
  {
    var sub := f.subs[s];
    assert RowListed(sub, f.unique);
    if sub.selector.groupBy == All {
      assert g[sub.selector.key] in [AllValue];
    }
    DualExactly(f, s, e, g);
  }

  lemma RelevantIsFull(f: Flow, s: SubId, e: EntityId, g: Group)
    requires TableListed(f) && s in f.subs && e in f.subs[s].regs
    requires IsRelevant(f.unique, f.subs[s].selector, f.subs[s].regs[e], g)
    ensures IsFull(f.unique, g)
  {
    assert RowListed(f.subs[s], f.unique);
  }

  // ----- What visiting in some order collects -----

  ghost predicate AllRegistered(subs: map<SubId, Subscription>, order: seq<Visit>)
  {
    forall v :: v in order ==> IsRegistered(subs, v)
  }

  lemma {:induction false} CollectedOnly(subs: map<SubId, Subscription>, order: seq<Visit>, x: Input) returns (v: Visit)
    requires AllRegistered(subs, order) && x in Collected(subs, order)
    ensures v in order && x == VisitInput(subs, v)
  {
    var init := order[..|order| - 1];
    v := order[|order| - 1];
    if x in Collected(subs, init) {
      v := CollectedOnly(subs, init, x);
    }
  }

  /** Nothing found is lost later. */
  lemma {:induction false} CollectedAll(subs: map<SubId, Subscription>, order: seq<Visit>, v: Visit)
    requires AllRegistered(subs, order) && v in order && IsRegistered(subs, v)
    ensures || VisitInput(subs, v) in Collected(subs, order)
            || (IsSimpleByType(subs[v.sub].selector) && HasUntyped(Collected(subs, order)))
  {
    var init, all := order[..|order| - 1], Collected(subs, order);
    var before := Collected(subs, init);
    if v in init {
      CollectedAll(subs, init, v);
      if HasUntyped(before) {
        var k :| 0 <= k < |before| && before[k].typ == "";
        assert all[k].typ == "";
      }
    }
  }

  lemma {:induction false} CollectedDistinct(subs: map<SubId, Subscription>, order: seq<Visit>)
    requires AllRegistered(subs, order)
    requires forall i, j :: 0 <= i < j < |order| ==> VisitInput(subs, order[i]).id != VisitInput(subs, order[j]).id
    ensures DistinctIds(Collected(subs, order))
  {
    if order != [] {
      var init, v := order[..|order| - 1], order[|order| - 1];
      CollectedDistinct(subs, init);
      var before := Collected(subs, init);
      forall k | 0 <= k < |before| ensures before[k].id != VisitInput(subs, v).id {
        var u := CollectedOnly(subs, init, before[k]);
        var i :| 0 <= i < |init| && init[i] == u;
        assert order[i] == u;
      }
    }
  }

  /** Whatever is listed is the input of an entity the group lets through. */
  lemma ListedIsRelevant(f: Flow, g: Group, r: seq<Input>, x: Input)
    requires ListsRelevant(f, g, r) && x in r
    ensures exists s, e :: Yields(f, g, s, e) && x == InputOf(f.subs[s].selector, f.subs[s].regs[e])
  {
    var order: seq<Visit> :| IsVisitOrder(f, g, order) && r == Collected(f.subs, order);
    var v := CollectedOnly(f.subs, order, x);
    assert Yields(f, g, v.sub, v.entity);
  }

  /** Every entity the group lets through is listed, unless it is selected by type alone. */
  lemma RelevantIsListed(f: Flow, g: Group, r: seq<Input>, s: SubId, e: EntityId)
    requires ListsRelevant(f, g, r) && Yields(f, g, s, e) && !IsSimpleByType(f.subs[s].selector)
    ensures InputOf(f.subs[s].selector, f.subs[s].regs[e]) in r
  {
    var order: seq<Visit> :| IsVisitOrder(f, g, order) && r == Collected(f.subs, order);
    assert Visit(s, e) in order;
    CollectedAll(f.subs, order, Visit(s, e));
  }

  lemma ListedOncePerEntity(f: Flow, g: Group, r: seq<Input>)
    requires ListsRelevant(f, g, r) && AllByEntity(f) && Separate(f)
    ensures DistinctIds(r)
  {
    var order: seq<Visit> :| IsVisitOrder(f, g, order) && r == Collected(f.subs, order);
    forall i, j | 0 <= i < j < |order| ensures VisitInput(f.subs, order[i]).id != VisitInput(f.subs, order[j]).id {
      var v, w := order[i], order[j];
      assert v in order && w in order;
      assert v.sub != w.sub || v.entity != w.entity;
    }
    CollectedDistinct(f.subs, order);
  }

  // ----- Groups and entities are dual -----

  /** The group is among those of entity `e` through a subscription with a scoped or EntityID-grouped selector. */
  ghost predicate ReachesEntity(f: Flow, g: Group, s: SubId, e: EntityId)
  {
    && s in f.subs && e in f.subs[s].regs && !IsSimpleByType(f.subs[s].selector)
    && IsRelevant(f.unique, f.subs[s].selector, f.subs[s].regs[e], g)
  }

  /** `getRelevantGroups` and `searchRelevantEntities` are dual, for every full assignment and any selectors: the
      assignment is among the groups of a registered entity iff the search visits the entity through that
      subscription. */
  lemma GroupsAndVisitsDual(f: Flow, g: Group, order: seq<Visit>, v: Visit)
    requires TableListed(f) && IsFull(f.unique, g) && IsVisitOrder(f, g, order) && IsRegistered(f.subs, v)
    ensures v in order <==> IsRelevant(f.unique, f.subs[v.sub].selector, f.subs[v.sub].regs[v.entity], g)
  {
    RelevantIffYields(f, v.sub, v.entity, g);
  }

  /** An entity is among the inputs found iff the assignment is among its groups through some scoped or
      EntityID-grouped selector. */
  lemma GroupsAndEntitiesDual(f: Flow, g: Group, found: seq<Input>, e: EntityId)
    requires TableListed(f) && UnderOwnId(f) && IsFull(f.unique, g) && ListsRelevant(f, g, found) && e != ""
    ensures (exists x :: x in found && x.id == e) <==> exists s :: ReachesEntity(f, g, s, e)
  {
    if x :| x in found && x.id == e {
      ListedIsRelevant(f, g, found, x);
      var s, d :| Yields(f, g, s, d) && x == InputOf(f.subs[s].selector, f.subs[s].regs[d]);
      RelevantIffYields(f, s, d, g);
      assert ReachesEntity(f, g, s, e);
    }
    if s :| ReachesEntity(f, g, s, e) {
      RelevantIffYields(f, s, e, g);
      RelevantIsListed(f, g, found, s, e);
      assert InputOf(f.subs[s].selector, f.subs[s].regs[e]).id == e;
    }
  }

  // ----- What groups mean -----

  /** The two registrations agree on what the selector groups by. */
  ghost predicate AgreeOn(grouping: Grouping, a: Registration, b: Registration)
  {
    match grouping
    case All => true
    case EntityID => a.id == b.id
    case EntityType => a.typ == b.typ
    case ByMetadata(n) => (n in a.metadata <==> n in b.metadata) && (n in a.metadata ==> a.metadata[n] == b.metadata[n])
  }

  /** Some group is relevant to any registration, if no row is empty. */
  lemma SomeGroup(unique: map<string, seq<Value>>, s: Selector, reg: Registration) returns (g: Group)
    requires forall k :: k in unique ==> unique[k] != []
    ensures IsRelevant(unique, s, reg, g)
  {
    g := (map k | k in unique :: unique[k][0])[s.key := ValueOf(s, reg)];
  }

  /** Two entities of a selector take part in the same groups iff they agree on what it groups by. */
  lemma SameGroupsIff(unique: map<string, seq<Value>>, s: Selector, a: Registration, b: Registration)
    requires forall k :: k in unique ==> unique[k] != []
    ensures (forall g :: IsRelevant(unique, s, a, g) <==> IsRelevant(unique, s, b, g)) <==> AgreeOn(s.groupBy, a, b)
  {
    if forall g :: IsRelevant(unique, s, a, g) <==> IsRelevant(unique, s, b, g) {
      var g := SomeGroup(unique, s, a);
      assert IsRelevant(unique, s, b, g);
    }
  }

  /** An input that the search lists has the type and the place that the entity is registered with, and its id unless
      the selector is by type alone. */
  lemma ListedAsRegistered(f: Flow, g: Group, r: seq<Input>, x: Input)
    requires ListsRelevant(f, g, r) && x in r
    ensures exists s, e :: Yields(f, g, s, e) && IsRegisteredAs(f.subs[s], e, x)
  {
    ListedIsRelevant(f, g, r, x);
    var s, e :| Yields(f, g, s, e) && x == InputOf(f.subs[s].selector, f.subs[s].regs[e]);
    assert IsRegisteredAs(f.subs[s], e, x);
  }

  ghost predicate IsRegisteredAs(sub: Subscription, e: EntityId, x: Input)
  {
    && e in sub.regs && x.typ == sub.regs[e].typ
    && (if LOCATION in sub.regs[e].metadata && sub.regs[e].metadata[LOCATION].PointMetadata?
        then sub.regs[e].metadata[LOCATION] == PointMetadata(x.location) else x.location == Point(0.0, 0.0))
    && x.id == if sub.selector.scoped || sub.selector.groupBy == EntityID then sub.regs[e].id else ""
  }
}
