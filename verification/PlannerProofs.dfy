/** What runs of availability notifications keep in the planner (master/taskMgr.go). */
module PlannerProofs {
  import opened Planner

  /** One run of a flow: the events, the choices made by each, and the states between them. */
  datatype Run = Run(flows: seq<Flow>, logs: seq<seq<Command>>, events: seq<Event>, choices: seq<Choices>)

  ghost predicate IsStart(f: Flow)
  {
    && f.unique == map[] && f.plan == map[] && f.deployed == map[]
    && forall s :: s in f.subs ==> f.subs[s].regs.Keys == {}
  }

  ghost predicate IsRun(r: Run, hash: Group -> HashId, streams: seq<string>)
  {
    && |r.flows| == |r.logs| == |r.events| + 1 == |r.choices| + 1
    && IsStart(r.flows[0]) && r.logs[0] == []
    && forall k :: 0 <= k < |r.events| ==> IsStep(r, hash, streams, k)
  }

  ghost predicate IsStep(r: Run, hash: Group -> HashId, streams: seq<string>, k: nat)
    requires |r.flows| == |r.logs| == |r.events| + 1 == |r.choices| + 1
    requires k < |r.events|
  {
    && (r.events[k].sub in r.flows[k].subs ==> Legal(r.flows[k], r.events[k], r.choices[k]))
    && var o := Handle(r.flows[k], r.logs[k], hash, streams, r.events[k], r.choices[k]);
       r.flows[k + 1] == o.flow && r.logs[k + 1] == o.log
  }

  // ----- The plan is the Cartesian product -----

  ghost predicate DistinctKeys(f: Flow)
  {
    forall s, t :: s in f.subs && t in f.subs && s != t ==> f.subs[s].selector.key != f.subs[t].selector.key
  }

  /** Exactly the selectors with a registration have a row. */
  ghost predicate TableCurrent(f: Flow)
  {
    forall s :: s in f.subs ==> RowCurrent(f.subs[s], f.unique)
  }

  ghost predicate RowCurrent(sub: Subscription, unique: map<string, seq<Value>>)
  {
    && (sub.regs.Keys != {} <==> sub.selector.key in unique)
    && (sub.regs.Keys != {} && sub.selector.groupBy == All ==> AllValue in unique[sub.selector.key])
  }

  /** The hashes of the full product are exactly the keys. */
  ghost predicate KeysAreProduct(plan: map<HashId, TaskConfig>, unique: map<string, seq<Value>>, hash: Group -> HashId)
  {
    forall h :: h in plan <==> exists g :: IsFull(unique, g) && hash(g) == h
  }

  /** The keys of the plan are exactly the hashes of the full product, or none before all inputs are there. */
  ghost predicate PlanIsProduct(f: Flow, hash: Group -> HashId)
  {
    if f.subs != map[] && Available(f) then
      KeysAreProduct(f.plan, f.unique, hash)
    else
      f.plan.Keys == {}
  }

  /** `h` is the hash of one of the first `n` groups. */
  ghost predicate IsHashOf(gs: seq<Group>, n: nat, hash: Group -> HashId, h: HashId)
    requires n <= |gs|
  {
    exists i :: 0 <= i < n && hash(gs[i]) == h
  }

  lemma ExpandOneKey(f: Flow, hash: Group -> HashId, c: Choices, byType: bool, n: nat)
    requires 0 < n <= |c.groups|
    ensures Expand(f, hash, c, byType, n).plan.Keys
            == Expand(f, hash, c, byType, n - 1).plan.Keys + {hash(c.groups[n - 1])}
  {
    var prev := Expand(f, hash, c, byType, n - 1);
    var h, xs := hash(c.groups[n - 1]), c.Found(c.groups[n - 1]);
    if h in prev.plan {
      var p := Absorb(Progress(prev.plan[h], prev.actions), h, Host(f, h), xs, |xs|, byType, c.select);
      assert Expand(f, hash, c, byType, n).plan == prev.plan[h := p.task];
    }
  }

  lemma {:induction false} ExpandKeys(f: Flow, hash: Group -> HashId, c: Choices, byType: bool, n: nat)
    requires n <= |c.groups|
    ensures forall h :: h in Expand(f, hash, c, byType, n).plan <==> h in f.plan || IsHashOf(c.groups, n, hash, h)
  {
    if n > 0 {
      ExpandKeys(f, hash, c, byType, n - 1);
      ExpandOneKey(f, hash, c, byType, n);
      var a, b := Expand(f, hash, c, byType, n).plan.Keys, Expand(f, hash, c, byType, n - 1).plan.Keys;
      assert a == b + {hash(c.groups[n - 1])};
      forall h ensures h in a <==> h in f.plan || IsHashOf(c.groups, n, hash, h) {
        assert IsHashOf(c.groups, n, hash, h) <==> IsHashOf(c.groups, n - 1, hash, h) || h == hash(c.groups[n - 1]);
      }
    }
  }

  lemma {:induction false} CarryOutKeeps(f: Flow, log: seq<Command>, actions: seq<Action>, n: nat, place: Placement)
    requires n <= |actions|
    ensures var o := CarryOut(f, log, actions, n, place);
            o.flow.subs == f.subs && o.flow.unique == f.unique && o.flow.plan.Keys == f.plan.Keys
  {
    if n > 0 {
      CarryOutKeeps(f, log, actions, n - 1, place);
    }
  }

  /** `f'` has at least one registration under `s`, and its subscriptions are otherwise as those of `f`. */
  ghost predicate SubsGrown(f: Flow, f': Flow, s: SubId)
  {
    && s in f.subs
    && f'.subs.Keys == f.subs.Keys
    && (forall t :: t in f.subs ==> f'.subs[t].selector == f.subs[t].selector)
    && (forall t :: t in f.subs && t != s ==> f'.subs[t] == f.subs[t])
    && f'.subs[s].regs.Keys != {}
  }

  /** The table of `f'` is that of `f` with value `v` listed in row `key`, alone if the row is new. */
  ghost predicate RowGrown(f: Flow, f': Flow, key: string, v: Value, isNew: bool)
  {
    && f'.unique.Keys == f.unique.Keys + {key}
    && (forall k :: k in f.unique && k != key ==> f'.unique[k] == f.unique[k])
    && (if isNew then key !in f.unique && f'.unique[key] == [v]
        else key in f.unique && forall w :: w in f'.unique[key] <==> w == v || w in f.unique[key])
  }

  lemma RecordedSubs(f: Flow, s: SubId, reg: Registration)
    requires s in f.subs
    ensures SubsGrown(f, Recorded(f, s, reg), s)
  {
    assert EntityKey(f.subs[s].selector, reg) in Received(f.subs[s], reg).regs;
  }

  lemma RecordedRow(f: Flow, s: SubId, reg: Registration)
    requires s in f.subs && DistinctKeys(f) && TableCurrent(f)
    ensures
      var sub := Received(f.subs[s], reg);
      RowGrown(f, Recorded(f, s, reg), sub.selector.key,
               ValueOf(sub.selector, sub.regs[EntityKey(sub.selector, reg)]), f.subs[s].regs.Keys == {})
  {
    assert RowCurrent(f.subs[s], f.unique);
  }

  /** A table that gains value `v` in a row gains exactly the groups with that value. */
  lemma RowProduct(f: Flow, f': Flow, s: Selector, reg: Registration, isNew: bool, g: Group)
    requires RowGrown(f, f', s.key, ValueOf(s, reg), isNew)
    ensures IsFull(f'.unique, g) <==> IsRelevant(f'.unique, s, reg, g) || (!isNew && IsFull(f.unique, g))
  {
    if IsFull(f'.unique, g) && g[s.key] == ValueOf(s, reg) {
      assert g.Keys == f'.unique.Keys + {s.key};
    } else if IsFull(f'.unique, g) {
      assert f'.unique.Keys == f.unique.Keys;
    }
  }

  lemma GrownTable(f: Flow, f': Flow, s: SubId, v: Value, isNew: bool)
    requires SubsGrown(f, f', s) && RowGrown(f, f', f.subs[s].selector.key, v, isNew)
    requires f.subs[s].selector.groupBy == All ==> v == AllValue
    requires DistinctKeys(f) && TableCurrent(f)
    ensures DistinctKeys(f') && TableCurrent(f')
  {
    forall t | t in f'.subs ensures RowCurrent(f'.subs[t], f'.unique) {
      assert RowCurrent(f.subs[t], f.unique);
    }
  }

  /** The keys after an expansion, when before it the plan was the product of the smaller table. */
  lemma ProductAfter(f: Flow, f': Flow, sub: Subscription, reg: Registration, isNew: bool, hash: Group -> HashId,
                     groups: seq<Group>, h: HashId)
    requires RowGrown(f, f', sub.selector.key, ValueOf(sub.selector, reg), isNew)
    requires forall g :: g in groups <==> IsRelevant(f'.unique, sub.selector, reg, g)
    requires if isNew then f.plan.Keys == {}
             else KeysAreProduct(f.plan, f.unique, hash)
    ensures (h in f.plan || IsHashOf(groups, |groups|, hash, h)) <==> exists g :: IsFull(f'.unique, g) && hash(g) == h
  {
    if h in f.plan {
      var g :| IsFull(f.unique, g) && hash(g) == h;
      RowProduct(f, f', sub.selector, reg, isNew, g);
    } else if IsHashOf(groups, |groups|, hash, h) {
      var i :| 0 <= i < |groups| && hash(groups[i]) == h;
      RowProduct(f, f', sub.selector, reg, isNew, groups[i]);
    } else if g :| IsFull(f'.unique, g) && hash(g) == h {
      RowProduct(f, f', sub.selector, reg, isNew, g);
    }
  }

  lemma RecordedTable(f: Flow, s: SubId, reg: Registration)
    requires s in f.subs && DistinctKeys(f) && TableCurrent(f)
    ensures DistinctKeys(Recorded(f, s, reg)) && TableCurrent(Recorded(f, s, reg))
  {
    var sub := Received(f.subs[s], reg);
    RecordedSubs(f, s, reg);
    RecordedRow(f, s, reg);
    GrownTable(f, Recorded(f, s, reg), s, ValueOf(sub.selector, sub.regs[EntityKey(sub.selector, reg)]),
               f.subs[s].regs.Keys == {});
  }

  /** A flow that gained a registration under `s` and now has them all had them all before, unless it is the
      first one of `s`. */
  lemma AvailableBefore(f: Flow, f': Flow, s: SubId)
    requires SubsGrown(f, f', s) && Available(f')
    ensures Available(f) <==> f.subs[s].regs.Keys != {}
  {
    assert forall t :: t in f.subs && t != s ==> f'.subs[t] == f.subs[t];
  }

  lemma ExpandedKeys(f: Flow, f': Flow, sub: Subscription, reg: Registration, isNew: bool, hash: Group -> HashId,
                     c: Choices, byType: bool)
    requires RowGrown(f, f', sub.selector.key, ValueOf(sub.selector, reg), isNew) && f'.plan == f.plan
    requires forall g :: g in c.groups <==> IsRelevant(f'.unique, sub.selector, reg, g)
    requires if isNew then f.plan.Keys == {} else KeysAreProduct(f.plan, f.unique, hash)
    ensures KeysAreProduct(Expand(f', hash, c, byType, |c.groups|).plan, f'.unique, hash)
  {
    ExpandKeys(f', hash, c, byType, |c.groups|);
    forall h ensures (h in f.plan || IsHashOf(c.groups, |c.groups|, hash, h))
                     <==> exists g :: IsFull(f'.unique, g) && hash(g) == h {
      ProductAfter(f, f', sub, reg, isNew, hash, c.groups, h);
    }
  }

  lemma ExpandedProduct(f: Flow, hash: Group -> HashId, ev: Event, c: Choices, byType: bool)
    requires DistinctKeys(f) && TableCurrent(f) && PlanIsProduct(f, hash)
    requires !ev.isDelete && ev.sub in f.subs && Legal(f, ev, c) && Plans(f, ev)
    ensures
      var f' := Recorded(f, ev.sub, ev.reg);
      KeysAreProduct(Expand(f', hash, c, byType, |c.groups|).plan, f'.unique, hash)
  {
    var f' := Recorded(f, ev.sub, ev.reg);
    var sub := Received(f.subs[ev.sub], ev.reg);
    var reg := sub.regs[EntityKey(sub.selector, ev.reg)];
    RecordedSubs(f, ev.sub, ev.reg);
    AvailableBefore(f, f', ev.sub);
    RecordedRow(f, ev.sub, ev.reg);
    ExpandedKeys(f, f', sub, reg, f.subs[ev.sub].regs.Keys == {}, hash, c, byType);
  }

  /** One CREATE or UPDATE: recording keeps the table current and planning keeps the plan the product. */
  lemma DecideKeepsProduct(f: Flow, hash: Group -> HashId, streams: seq<string>, ev: Event, c: Choices)
    requires DistinctKeys(f) && TableCurrent(f) && PlanIsProduct(f, hash)
    requires !ev.isDelete && ev.sub in f.subs && Legal(f, ev, c)
    ensures
      var d := Decide(f, hash, streams, ev, c).0;
      DistinctKeys(d) && TableCurrent(d) && PlanIsProduct(d, hash)
  {
    RecordedTable(f, ev.sub, ev.reg);
    RecordedSubs(f, ev.sub, ev.reg);
    if Plans(f, ev) {
      ExpandedProduct(f, hash, ev, c, IsSimpleByType(f.subs[ev.sub].selector));
    } else {
      assert !Available(Recorded(f, ev.sub, ev.reg));
    }
  }

  lemma HandleKeepsProduct(f: Flow, log: seq<Command>, hash: Group -> HashId, streams: seq<string>, ev: Event,
                           c: Choices)
    requires DistinctKeys(f) && TableCurrent(f) && PlanIsProduct(f, hash)
    requires !ev.isDelete && (ev.sub in f.subs ==> Legal(f, ev, c))
    ensures
      var f' := Handle(f, log, hash, streams, ev, c).flow;
      DistinctKeys(f') && TableCurrent(f') && PlanIsProduct(f', hash)
  {
    if ev.sub in f.subs {
      DecideKeepsProduct(f, hash, streams, ev, c);
    }
    var (d, actions) := Decide(f, hash, streams, ev, c);
    CarryOutKeeps(d, log, actions, |actions|, c.place);
    SamePlanKeys(d, CarryOut(d, log, actions, |actions|, c.place).flow, hash);
  }

  lemma SamePlanKeys(d: Flow, f: Flow, hash: Group -> HashId)
    requires DistinctKeys(d) && TableCurrent(d) && PlanIsProduct(d, hash)
    requires f.subs == d.subs && f.unique == d.unique && f.plan.Keys == d.plan.Keys
    ensures DistinctKeys(f) && TableCurrent(f) && PlanIsProduct(f, hash)
  {
  }

  /** In every run of CREATE and UPDATE notifications with pairwise distinct selector keys, the plan is empty
      until every subscription has a registration, and then its keys are the hashes of the full product. */
  lemma {:induction false} RunPlanIsProduct(r: Run, hash: Group -> HashId, streams: seq<string>, n: nat)
    requires IsRun(r, hash, streams) && n <= |r.events|
    requires DistinctKeys(r.flows[0])
    requires forall k :: 0 <= k < |r.events| ==> !r.events[k].isDelete
    ensures DistinctKeys(r.flows[n]) && TableCurrent(r.flows[n]) && PlanIsProduct(r.flows[n], hash)
  {
    if n > 0 {
      RunPlanIsProduct(r, hash, streams, n - 1);
      assert IsStep(r, hash, streams, n - 1);
      HandleKeepsProduct(r.flows[n - 1], r.logs[n - 1], hash, streams, r.events[n - 1], r.choices[n - 1]);
    }
  }
}
