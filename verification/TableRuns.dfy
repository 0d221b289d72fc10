/** What every run of CREATE, UPDATE and DELETE notifications keeps of the unique-value table, whatever the selectors
    and the hash (master/taskMgr.go). */
module TableRuns {
  import opened Planner
  import opened PlannerProofs
  import opened PlacementProofs
  import opened Relevance

  /** Rows list what is registered, and registrations are filed under their ids. */
  ghost predicate Listed(f: Flow)
  {
    NoKeyClash(f) && TableListed(f) && UnderOwnId(f)
  }

  /** How `Recorded` changes the registrations of a subscription with any kind of selector. */
  ghost predicate KeyRecorded(f: Flow, f': Flow, s: SubId, e: EntityId)
  {
    && SubsGrown(f, f', s)
    && f'.subs[s].regs.Keys == f.subs[s].regs.Keys + {e}
    && (forall d :: d in f.subs[s].regs && d != e ==> f'.subs[s].regs[d] == f.subs[s].regs[d])
  }

  /** The row of the new value gains it; every other row is as it was. */
  ghost predicate RowTabulated(f: Flow, f': Flow, s: Selector, v: Value)
  {
    && f'.unique.Keys == f.unique.Keys + {s.key}
    && (forall k :: k in f.unique && k != s.key ==> f'.unique[k] == f.unique[k])
    && v in f'.unique[s.key]
    && (s.key in f.unique ==> forall w :: w in f.unique[s.key] ==> w in f'.unique[s.key])
    && (s.groupBy == All ==> f'.unique[s.key] == [AllValue])
  }

  lemma RecordedKey(f: Flow, s: SubId, reg: Registration)
    requires s in f.subs && TableListed(f)
    ensures
      var f', e := Recorded(f, s, reg), EntityKey(f.subs[s].selector, reg);
      && KeyRecorded(f, f', s, e)
      && RowTabulated(f, f', f.subs[s].selector, ValueOf(f.subs[s].selector, f'.subs[s].regs[e]))
  {
    RecordedSubs(f, s, reg);
    assert RowListed(f.subs[s], f.unique);
  }

  lemma RowsStayListed(f: Flow, f': Flow, s: SubId, e: EntityId)
    requires NoKeyClash(f) && TableListed(f) && KeyRecorded(f, f', s, e)
    requires RowTabulated(f, f', f.subs[s].selector, ValueOf(f.subs[s].selector, f'.subs[s].regs[e]))
    ensures NoKeyClash(f') && TableListed(f')
  {
    forall t | t in f'.subs ensures RowListed(f'.subs[t], f'.unique) {
      assert RowListed(f.subs[t], f.unique);
      assert f'.subs[t].selector == f.subs[t].selector;
      if t != s {
        OtherRowListed(f, f', f.subs[s].selector, ValueOf(f.subs[s].selector, f'.subs[s].regs[e]), f.subs[t]);
      }
    }
  }

  lemma OtherRowListed(f: Flow, f': Flow, s: Selector, v: Value, sub: Subscription)
    requires RowTabulated(f, f', s, v) && RowListed(sub, f.unique)
    requires sub.selector.key == s.key ==> (sub.selector.groupBy == All <==> s.groupBy == All)
    ensures RowListed(sub, f'.unique)
  {
  }

  lemma StaysUnderOwnId(f: Flow, f': Flow, s: SubId, reg: Registration)
    requires s in f.subs && UnderOwnId(f) && f' == Recorded(f, s, reg)
    requires KeyRecorded(f, f', s, EntityKey(f.subs[s].selector, reg))
    ensures UnderOwnId(f')
  {
    forall t, d | t in f'.subs && d in f'.subs[t].regs && !IsSimpleByType(f'.subs[t].selector)
      ensures f'.subs[t].regs[d].id == d
    {
      assert t != s ==> f'.subs[t] == f.subs[t];
    }
  }

  lemma RecordedListed(f: Flow, s: SubId, reg: Registration)
    requires Listed(f) && s in f.subs
    ensures Listed(Recorded(f, s, reg))
  {
    var f' := Recorded(f, s, reg);
    RecordedKey(f, s, reg);
    RowsStayListed(f, f', s, EntityKey(f.subs[s].selector, reg));
    StaysUnderOwnId(f, f', s, reg);
  }

  /** `d` has the selectors of `f` and some of its registrations. */
  ghost predicate FewerRegistrations(f: Flow, d: Flow)
  {
    && d.unique == f.unique && d.subs.Keys == f.subs.Keys
    && forall t :: t in f.subs ==> SomeOf(f.subs[t], d.subs[t])
  }

  ghost predicate SomeOf(a: Subscription, b: Subscription)
  {
    && b.selector == a.selector
    && forall e :: e in b.regs ==> e in a.regs && b.regs[e] == a.regs[e]
  }

  /** The table keeps its rows when registrations go. */
  lemma FewerListed(f: Flow, d: Flow)
    requires Listed(f) && FewerRegistrations(f, d)
    ensures Listed(d)
  {
    forall t | t in d.subs ensures RowListed(d.subs[t], d.unique) && d.subs[t].selector == f.subs[t].selector {
      assert RowListed(f.subs[t], f.unique) && SomeOf(f.subs[t], d.subs[t]);
    }
  }

  // ----- The plan stays on the table -----

  ghost predicate PlanOnTable(f: Flow, hash: Group -> HashId)
  {
    forall h :: h in f.plan ==> exists g :: IsFull(f.unique, g) && hash(g) == h
  }

  ghost predicate OnTable(f: Flow, hash: Group -> HashId)
  {
    Listed(f) && (f.plan.Keys != {} ==> Available(f)) && PlanOnTable(f, hash)
  }

  lemma {:induction false} ShrinkKeys(f: Flow, hash: Group -> HashId, streams: seq<string>, c: Choices, e: EntityId,
                                      n: nat)
    requires n <= |c.groups|
    ensures Shrink(f, hash, streams, c, e, n).plan.Keys <= f.plan.Keys
  {
    if n > 0 {
      ShrinkKeys(f, hash, streams, c, e, n - 1);
    }
  }

  lemma FullExtended(f: Flow, f': Flow, s: Selector, v: Value, g: Group)
    requires RowTabulated(f, f', s, v) && s.key in f.unique && IsFull(f.unique, g)
    ensures IsFull(f'.unique, g)
  {
    assert f'.unique.Keys == f.unique.Keys;
  }

  /** Without the inputs of the entity, the task has no input of the type of some stream. */
  ghost predicate LosesStream(f: Flow, streams: seq<string>, e: EntityId, h: HashId)
  {
    h in f.plan && exists t :: t in streams && NoOtherOf(f.plan[h].inputs, e, t)
  }

  ghost predicate NoOtherOf(inputs: seq<Input>, e: EntityId, t: string)
  {
    forall x :: x in inputs ==> x.id == e || x.typ != t
  }

  lemma {:induction false} WithoutMembers(inputs: seq<Input>, e: EntityId)
    ensures forall x :: x in Without(inputs, e) <==> x in inputs && x.id != e
  {
    if inputs != [] {
      WithoutMembers(inputs[1..], e);
      assert inputs == [inputs[0]] + inputs[1..];
    }
  }

  lemma LosesStreamIff(inputs: seq<Input>, streams: seq<string>, e: EntityId)
    ensures !HasAllStreams(Without(inputs, e), streams) <==> exists t :: t in streams && NoOtherOf(inputs, e, t)
  {
    var rest := Without(inputs, e);
    WithoutMembers(inputs, e);
    forall t ensures NoOtherOf(inputs, e, t) <==> forall i :: 0 <= i < |rest| ==> rest[i].typ != t {
      if NoOtherOf(inputs, e, t) {
        assert forall i :: 0 <= i < |rest| ==> rest[i] in rest;
      } else {
        var x :| x in inputs && x.id != e && x.typ == t;
        var i :| 0 <= i < |rest| && rest[i] == x;
      }
    }
  }

  /** What a DELETE leaves of the plan, after the first `n` groups. */
  lemma {:induction false} ShrinkExactly(f: Flow, hash: Group -> HashId, streams: seq<string>, c: Choices, e: EntityId,
                                         n: nat, h: HashId)
    requires n <= |c.groups|
    ensures
      var plan := Shrink(f, hash, streams, c, e, n).plan;
      && (h in plan <==> h in f.plan && !(IsHashOf(c.groups, n, hash, h) && LosesStream(f, streams, e, h)))
      && (h in plan ==> plan[h].inputs == if IsHashOf(c.groups, n, hash, h) then Without(f.plan[h].inputs, e)
                                          else f.plan[h].inputs)
  {
    if n > 0 {
      ShrinkExactly(f, hash, streams, c, e, n - 1, h);
      IsHashOfNext(c.groups, n, hash, h);
      if h in f.plan {
        WithoutTwice(f.plan[h].inputs, e);
        LosesStreamIff(f.plan[h].inputs, streams, e);
      }
    }
  }

  /** A DELETE takes from the plan exactly the tasks of groups the entity is relevant to that are left without an
      input of some stream, and nothing before all inputs are there. */
  lemma DeleteExactly(f: Flow, log: seq<Command>, hash: Group -> HashId, streams: seq<string>, ev: Event, c: Choices,
                      h: HashId)
    requires ev.isDelete && ev.sub in f.subs && Legal(f, ev, c)
    ensures
      var sub := f.subs[ev.sub];
      var e := EntityKey(sub.selector, ev.reg);
      h in Handle(f, log, hash, streams, ev, c).flow.plan <==>
        && h in f.plan
        && !(Plans(f, ev) && LosesStream(f, streams, e, h)
             && exists g :: IsRelevant(f.unique, sub.selector, sub.regs[e], g) && hash(g) == h)
  {
    var (d, actions) := Decide(f, hash, streams, ev, c);
    CarryOutKeeps(d, log, actions, |actions|, c.place);
    if Plans(f, ev) {
      var sub := f.subs[ev.sub];
      var e := EntityKey(sub.selector, ev.reg);
      ShrinkExactly(f, hash, streams, c, e, |c.groups|, h);
      if g :| IsRelevant(f.unique, sub.selector, sub.regs[e], g) && hash(g) == h {
        assert g in c.groups;
        var i :| 0 <= i < |c.groups| && c.groups[i] == g;
        assert IsHashOf(c.groups, |c.groups|, hash, h);
      }
      if IsHashOf(c.groups, |c.groups|, hash, h) {
        var i :| 0 <= i < |c.groups| && hash(c.groups[i]) == h;
        assert c.groups[i] in c.groups;
      }
    }
  }

  /** Recording keeps every planned group a point of the product. */
  lemma RecordedOnTable(f: Flow, hash: Group -> HashId, s: SubId, reg: Registration)
    requires OnTable(f, hash) && s in f.subs
    ensures OnTable(Recorded(f, s, reg), hash)
  {
    var f' := Recorded(f, s, reg);
    RecordedKey(f, s, reg);
    RecordedListed(f, s, reg);
    forall h | h in f'.plan ensures exists g :: IsFull(f'.unique, g) && hash(g) == h {
      assert RowListed(f.subs[s], f.unique);
      var g :| IsFull(f.unique, g) && hash(g) == h;
      var selector := f.subs[s].selector;
      FullExtended(f, f', selector, ValueOf(selector, f'.subs[s].regs[EntityKey(selector, reg)]), g);
    }
  }

  /** Expanding adds only groups of the product. */
  lemma ExpandOnTable(f: Flow, hash: Group -> HashId, s: SubId, e: EntityId, c: Choices, byType: bool)
    requires OnTable(f, hash) && s in f.subs && e in f.subs[s].regs
    requires forall g :: g in c.groups <==> IsRelevant(f.unique, f.subs[s].selector, f.subs[s].regs[e], g)
    ensures PlanOnTable(f.(plan := Expand(f, hash, c, byType, |c.groups|).plan), hash)
  {
    ExpandKeys(f, hash, c, byType, |c.groups|);
    forall h | h in Expand(f, hash, c, byType, |c.groups|).plan
      ensures exists g :: IsFull(f.unique, g) && hash(g) == h
    {
      if h !in f.plan {
        var i :| 0 <= i < |c.groups| && hash(c.groups[i]) == h;
        assert c.groups[i] in c.groups;
        RelevantIsFull(f, s, e, c.groups[i]);
      }
    }
  }

  lemma DecideOnTable(f: Flow, hash: Group -> HashId, streams: seq<string>, ev: Event, c: Choices)
    requires OnTable(f, hash) && (ev.sub in f.subs ==> Legal(f, ev, c))
    ensures OnTable(Decide(f, hash, streams, ev, c).0, hash)
  {
    if ev.sub in f.subs {
      var f', d := Prepared(f, ev), Decide(f, hash, streams, ev, c).0;
      var s, e := ev.sub, EntityKey(f.subs[ev.sub].selector, ev.reg);
      if !ev.isDelete {
        RecordedOnTable(f, hash, s, ev.reg);
        RecordedSubs(f, s, ev.reg);
      }
      if Plans(f, ev) {
        FewerListed(f', d);
        if ev.isDelete {
          ShrinkKeys(f', hash, streams, c, e, |c.groups|);
        } else {
          ExpandOnTable(f', hash, s, e, c, IsSimpleByType(f.subs[s].selector));
        }
      } else if ev.isDelete && e in f.subs[s].regs {
        assert FewerRegistrations(f, d);
        FewerListed(f, d);
      }
    }
  }

  lemma HandleOnTable(f: Flow, log: seq<Command>, hash: Group -> HashId, streams: seq<string>, ev: Event, c: Choices)
    requires OnTable(f, hash) && (ev.sub in f.subs ==> Legal(f, ev, c))
    ensures OnTable(Handle(f, log, hash, streams, ev, c).flow, hash)
  {
    DecideOnTable(f, hash, streams, ev, c);
    var (d, actions) := Decide(f, hash, streams, ev, c);
    CarryOutKeeps(d, log, actions, |actions|, c.place);
    SameKeysOnTable(d, CarryOut(d, log, actions, |actions|, c.place).flow, hash);
  }

  lemma SameKeysOnTable(d: Flow, o: Flow, hash: Group -> HashId)
    requires OnTable(d, hash) && o.subs == d.subs && o.unique == d.unique && o.plan.Keys == d.plan.Keys
    ensures OnTable(o, hash)
  {
    FewerListed(d, o);
  }

  /** In every run with deletions included and any hash: rows list what is registered, nothing is planned before
      every subscription has a registration, and the keys of the plan are among the hashes of the product. */
  lemma {:induction false} RunOnTable(r: Run, hash: Group -> HashId, streams: seq<string>, n: nat)
    requires IsRun(r, hash, streams) && n <= |r.events| && NoKeyClash(r.flows[0])
    ensures OnTable(r.flows[n], hash)
  {
    if n == 0 {
      assert forall t :: t in r.flows[0].subs ==> RowListed(r.flows[0].subs[t], r.flows[0].unique);
    } else {
      RunOnTable(r, hash, streams, n - 1);
      assert IsStep(r, hash, streams, n - 1);
      HandleOnTable(r.flows[n - 1], r.logs[n - 1], hash, streams, r.events[n - 1], r.choices[n - 1]);
    }
  }

  // ----- Without any assumption on the keys -----

  /** Every subscription with a registration has its row. */
  ghost predicate RowsThere(f: Flow)
  {
    forall s :: s in f.subs && f.subs[s].regs.Keys != {} ==> f.subs[s].selector.key in f.unique
  }

  lemma HandleRowsThere(f: Flow, log: seq<Command>, hash: Group -> HashId, streams: seq<string>, ev: Event, c: Choices)
    requires RowsThere(f)
    ensures RowsThere(Handle(f, log, hash, streams, ev, c).flow)
  {
    var (d, actions) := Decide(f, hash, streams, ev, c);
    CarryOutKeeps(d, log, actions, |actions|, c.place);
    if ev.sub in f.subs && !ev.isDelete {
      RecordedSubs(f, ev.sub, ev.reg);
    }
  }

  lemma {:induction false} RunRowsThere(r: Run, hash: Group -> HashId, streams: seq<string>, n: nat)
    requires IsRun(r, hash, streams) && n <= |r.events|
    ensures RowsThere(r.flows[n])
  {
    if n > 0 {
      RunRowsThere(r, hash, streams, n - 1);
      assert IsStep(r, hash, streams, n - 1);
      HandleRowsThere(r.flows[n - 1], r.logs[n - 1], hash, streams, r.events[n - 1], r.choices[n - 1]);
    }
  }

  /** In every reachable state of every flow: a full assignment is among the groups of a registered entity exactly
      when the search lets the entity through, if and only if a selector by "ALL" meets "ALL" in the assignment. */
  lemma RunDualExactly(r: Run, hash: Group -> HashId, streams: seq<string>, n: nat, s: SubId, e: EntityId, g: Group)
    requires IsRun(r, hash, streams) && n <= |r.events|
    requires s in r.flows[n].subs && e in r.flows[n].subs[s].regs && IsFull(r.flows[n].unique, g)
    ensures
      var selector, f := r.flows[n].subs[s].selector, r.flows[n];
      && selector.key in g
      && ((IsRelevant(f.unique, selector, f.subs[s].regs[e], g) <==> Yields(f, g, s, e))
          <==> (selector.groupBy == All ==> g[selector.key] == AllValue))
  {
    RunRowsThere(r, hash, streams, n);
    DualExactly(r.flows[n], s, e, g);
  }

  /** In every reachable state, whatever the selectors: a full assignment is among the groups of a registered entity
      iff the search for that assignment visits the entity through that subscription; and an entity is among the
      inputs found iff the assignment is among its groups through a scoped or EntityID-grouped selector. */
  lemma RunGroupsAndEntitiesDual(r: Run, hash: Group -> HashId, streams: seq<string>, n: nat, g: Group,
                                 order: seq<Visit>, v: Visit)
    requires IsRun(r, hash, streams) && n <= |r.events| && NoKeyClash(r.flows[0])
    requires IsFull(r.flows[n].unique, g) && IsVisitOrder(r.flows[n], g, order)
    requires IsRegistered(r.flows[n].subs, v)
    ensures
      var sub := r.flows[n].subs[v.sub];
      v in order <==> IsRelevant(r.flows[n].unique, sub.selector, sub.regs[v.entity], g)
    ensures v.entity != "" ==>
              ((exists x :: x in Collected(r.flows[n].subs, order) && x.id == v.entity)
               <==> exists s :: ReachesEntity(r.flows[n], g, s, v.entity))
  {
    RunOnTable(r, hash, streams, n);
    GroupsAndVisitsDual(r.flows[n], g, order, v);
    if v.entity != "" {
      GroupsAndEntitiesDual(r.flows[n], g, Collected(r.flows[n].subs, order), v.entity);
    }
  }
}
