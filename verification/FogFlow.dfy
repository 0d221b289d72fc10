/** The planner's methods (master/taskMgr.go), each updating the flow in place and proved against `Planner`.
    Loops over maps pick the next key arbitrarily. */
module FogFlowClass {
  import opened Listings
  import opened Planner

  // ----- The product of groups with one row of the table -----

  function ExtendedBy(gs: seq<Group>, k: string, v: Value): seq<Group>
  {
    seq(|gs|, i requires 0 <= i < |gs| => gs[i][k := v])
  }

  function Multiplied(gs: seq<Group>, k: string, vs: seq<Value>): seq<Group>
  {
    if vs == [] then [] else Multiplied(gs, k, vs[..|vs| - 1]) + ExtendedBy(gs, k, vs[|vs| - 1])
  }

  ghost predicate IsExtension(g: Group, gs: seq<Group>, k: string, v: Value)
  {
    exists i :: 0 <= i < |gs| && g == gs[i][k := v]
  }

  lemma {:induction false} MultipliedMembers(gs: seq<Group>, k: string, vs: seq<Value>, g: Group)
    ensures g in Multiplied(gs, k, vs) <==> k in g && g[k] in vs && IsExtension(g, gs, k, g[k])
  {
    if vs != [] {
      var v := vs[|vs| - 1];
      MultipliedMembers(gs, k, vs[..|vs| - 1], g);
      assert vs == vs[..|vs| - 1] + [v];
      var last := ExtendedBy(gs, k, v);
      assert g in last <==> IsExtension(g, gs, k, v) by {
        if g in last {
          var i :| 0 <= i < |last| && last[i] == g;
        }
        if IsExtension(g, gs, k, v) {
          var i :| 0 <= i < |gs| && g == gs[i][k := v];
          assert last[i] == g;
        }
      }
    }
  }

  lemma {:induction false} MultipliedDistinct(gs: seq<Group>, k: string, vs: seq<Value>)
    requires Distinct(gs) && Distinct(vs)
    requires forall i :: 0 <= i < |gs| ==> k !in gs[i]
    ensures Distinct(Multiplied(gs, k, vs))
  {
    if vs != [] {
      var v := vs[|vs| - 1];
      var before, last := Multiplied(gs, k, vs[..|vs| - 1]), ExtendedBy(gs, k, v);
      MultipliedDistinct(gs, k, vs[..|vs| - 1]);
      forall i, j | 0 <= i < j < |last| ensures last[i] != last[j] {
        assert gs[i] == last[i] - {k} && gs[j] == last[j] - {k};
      }
      forall i, j | 0 <= i < |before| && 0 <= j < |last| ensures before[i] != last[j] {
        MultipliedMembers(gs, k, vs[..|vs| - 1], before[i]);
        assert last[j][k] == v;
      }
    }
  }

  /** The groups built from the rows visited so far. */
  ghost predicate IsPartial(unique: map<string, seq<Value>>, key: string, v: Value, done: set<string>, g: Group)
  {
    && g.Keys == done + {key} && g[key] == v
    && forall k :: k in done && k != key ==> k in unique && g[k] in unique[k]
  }

  lemma PartialStep(unique: map<string, seq<Value>>, key: string, v: Value, done: set<string>, k: string,
                    gs: seq<Group>, g: Group)
    requires k in unique && k !in done && k != key
    requires forall x :: x in gs <==> IsPartial(unique, key, v, done, x)
    ensures g in Multiplied(gs, k, unique[k]) <==> IsPartial(unique, key, v, done + {k}, g)
  {
    MultipliedMembers(gs, k, unique[k], g);
    if k in g && IsExtension(g, gs, k, g[k]) {
      var i :| 0 <= i < |gs| && g == gs[i][k := g[k]];
      assert gs[i] in gs;
    }
    if IsPartial(unique, key, v, done + {k}, g) {
      var x := g - {k};
      assert IsPartial(unique, key, v, done, x);
      var i :| 0 <= i < |gs| && gs[i] == x;
      assert g == gs[i][k := g[k]];
      assert IsExtension(g, gs, k, g[k]);
    }
  }

  ghost predicate RowsDistinct(unique: map<string, seq<Value>>)
  {
    forall k :: k in unique ==> Distinct(unique[k])
  }

  /** Expanding looks only at the groups it has reached. */
  lemma {:induction false} ExpandAgrees(f: Flow, hash: Group -> HashId, c: Choices, d: Choices, byType: bool, n: nat)
    requires n <= |c.groups| && c.groups == d.groups && c.select == d.select
    requires forall i :: 0 <= i < n ==> c.Found(c.groups[i]) == d.Found(c.groups[i])
    ensures Expand(f, hash, c, byType, n) == Expand(f, hash, d, byType, n)
  {
    if n > 0 {
      ExpandAgrees(f, hash, c, d, byType, n - 1);
    }
  }

  lemma {:induction false} StoppedStays(f: Flow, log: seq<Command>, actions: seq<Action>, n: nat, place: Placement)
    requires n <= |actions| && CarryOut(f, log, actions, n, place).stopped
    ensures CarryOut(f, log, actions, |actions|, place) == CarryOut(f, log, actions, n, place)
    decreases |actions| - n
  {
    if n < |actions| {
      StoppedStays(f, log, actions, n + 1, place);
    }
  }

  ghost predicate FoundFor(f: Flow, c: Choices, n: nat)
    requires n <= |c.groups|
  {
    forall i :: 0 <= i < n ==> ListsRelevant(f, c.groups[i], c.Found(c.groups[i]))
  }

  /** The choices with the entities of one more group on record. */
  function FoundNext(c: Choices, n: nat, xs: seq<Input>): Choices
    requires n < |c.groups|
  {
    c.(entities := c.entities[c.groups[n] := xs])
  }

  lemma FoundForNext(f: Flow, c: Choices, n: nat, xs: seq<Input>)
    requires n < |c.groups| && Distinct(c.groups) && FoundFor(f, c, n) && ListsRelevant(f, c.groups[n], xs)
    ensures FoundFor(f, FoundNext(c, n, xs), n + 1)
  {
    var d := FoundNext(c, n, xs);
    forall i | 0 <= i < n + 1 ensures ListsRelevant(f, d.groups[i], d.Found(d.groups[i])) {
      assert d.Found(d.groups[i]) == if i < n then c.Found(c.groups[i]) else xs;
    }
  }

  lemma ExpandNext(f: Flow, hash: Group -> HashId, c: Choices, byType: bool, n: nat, xs: seq<Input>)
    requires n < |c.groups| && Distinct(c.groups)
    ensures Expand(f, hash, FoundNext(c, n, xs), byType, n + 1)
            == ExpandOne(f, Expand(f, hash, c, byType, n), hash(c.groups[n]), xs, byType, c.select)
  {
    var d := FoundNext(c, n, xs);
    assert forall i :: 0 <= i < n ==> d.Found(d.groups[i]) == c.Found(c.groups[i]);
    ExpandAgrees(f, hash, c, d, byType, n);
  }

  lemma SameHost(f: Flow, d: Flow, x: Expansion, h: HashId, xs: seq<Input>, byType: bool, select: Selection)
    requires f.deployed == d.deployed
    ensures ExpandOne(f, x, h, xs, byType, select) == ExpandOne(d, x, h, xs, byType, select)
  {
    assert Host(f, h) == Host(d, h);
  }

  method AbsorbEntity(task: TaskConfig, h: HashId, host: WorkerId, entity: Input, n: nat, byType: bool,
                      select: Selection, actions: seq<Action>)
    returns (task': TaskConfig, more: seq<Action>)
    ensures Progress(task', more) == AbsorbOne(Progress(task, actions), h, host, entity, n, byType, select)
  {
    task', more := task, actions;
    var inputs := task.inputs;
    var newInput, i := true, 0;
    while i < |inputs|
      invariant i <= |inputs|
      invariant newInput && IsNewInput(inputs[..i], entity, byType)
    {
      if (if byType then inputs[i].typ == entity.typ else inputs[i].id == entity.id) {
        newInput := false;
        break;
      }
      i := i + 1;
    }
    assert newInput ==> inputs[..i] == inputs;
    if newInput {
      task' := task.(inputs := inputs + [entity]);
      more := actions + [AddInput(h, host, entity)];
    } else {
      var k := 0;
      while k < |inputs| && !(inputs[k].id == entity.id && inputs[k].location != entity.location)
        invariant k <= |inputs|
        invariant forall j :: 0 <= j < k ==> inputs[j].id != entity.id || inputs[j].location == entity.location
      {
        k := k + 1;
      }
      assert k == FirstMoved(inputs, entity);
      if k < |inputs| {
        task' := task.(inputs := inputs[k := inputs[k].(location := entity.location)]);
        var selected := select(h, n, Locations(task'.inputs));
        if selected != task.worker {
          if task.worker != "" {
            more := more + [RemoveTask(h, host)];
          }
          task' := task'.(worker := selected);
          more := more + [AddTask(h, task'.inputs)];
        }
      }
    }
  }

  lemma SameListing(f: Flow, d: Flow, g: Group, r: seq<Input>)
    requires f.subs == d.subs && ListsRelevant(f, g, r)
    ensures ListsRelevant(d, g, r)
  {
    var order: seq<Visit> :| IsVisitOrder(f, g, order) && r == Collected(f.subs, order);
    forall v: Visit ensures Yields(f, g, v.sub, v.entity) <==> Yields(d, g, v.sub, v.entity) {}
    assert IsVisitOrder(d, g, order);
  }

  /** One more group of `expandExecutionPlan`, `cur` being the flow with the plan so far. */
  lemma NextGroup(f: Flow, cur: Flow, hash: Group -> HashId, c: Choices, byType: bool, n: nat, xs: seq<Input>,
                  actions: seq<Action>)
    requires n < |c.groups| && Distinct(c.groups) && cur == f.(plan := cur.plan) && FoundFor(f, c, n)
    requires Expansion(cur.plan, actions) == Expand(f, hash, c, byType, n) && ListsRelevant(cur, c.groups[n], xs)
    ensures FoundFor(f, FoundNext(c, n, xs), n + 1)
    ensures Expand(f, hash, FoundNext(c, n, xs), byType, n + 1)
            == ExpandOne(cur, Expansion(cur.plan, actions), hash(c.groups[n]), xs, byType, c.select)
  {
    SameListing(cur, f, c.groups[n], xs);
    FoundForNext(f, c, n, xs);
    ExpandNext(f, hash, c, byType, n, xs);
    SameHost(cur, f, Expansion(cur.plan, actions), hash(c.groups[n]), xs, byType, c.select);
  }

  /** `removeInput`: splices every input of the entity out of the list, stepping back after each. */
  method DropInput(inputs: seq<Input>, e: EntityId) returns (rest: seq<Input>)
    ensures rest == Without(inputs, e)
  {
    rest := inputs;
    var i := 0;
    while i < |rest|
      invariant i <= |rest|
      invariant rest[..i] + Without(rest[i..], e) == Without(inputs, e)
      decreases |rest| - i
    {
      assert rest[i..] == [rest[i]] + rest[i + 1..];
      assert rest[i..][1..] == rest[i + 1..];
      if rest[i].id == e {
        ghost var was := rest;
        rest := rest[..i] + rest[i + 1..];
        assert rest[..i] == was[..i] && rest[i..] == was[i + 1..];
      } else {
        assert rest[..i] + [rest[i]] == rest[..i + 1];
        i := i + 1;
      }
    }
    assert rest[..i] == rest && rest[i..] == [];
  }

  // ----- Which entities the nested loops have visited -----

  /** Subscription `s` is finished, or it is the one being visited and `e` is behind us. */
  ghost predicate Visited(todo: set<SubId>, cur: SubId, left: set<EntityId>, s: SubId, e: EntityId)
  {
    s !in todo && (s == cur ==> e !in left)
  }

  /** The order so far holds exactly the entities visited that the group lets through. */
  ghost predicate SoFar(f: Flow, g: Group, order: seq<Visit>, todo: set<SubId>, cur: SubId, left: set<EntityId>)
  {
    && Distinct(order)
    && forall v :: v in order <==> Yields(f, g, v.sub, v.entity) && Visited(todo, cur, left, v.sub, v.entity)
  }

  /** Nothing of `cur` is visited while all of it is left, and everything once nothing is. */
  lemma SoFarEnter(f: Flow, g: Group, order: seq<Visit>, todo: set<SubId>, s: SubId)
    requires s in todo && s in f.subs && SoFar(f, g, order, todo, "", {})
    ensures SoFar(f, g, order, todo - {s}, s, f.subs[s].regs.Keys)
  {
    forall t, e | Yields(f, g, t, e)
      ensures Visited(todo - {s}, s, f.subs[s].regs.Keys, t, e) <==> Visited(todo, "", {}, t, e) {}
  }

  lemma SoFarLeave(f: Flow, g: Group, order: seq<Visit>, todo: set<SubId>, s: SubId)
    requires SoFar(f, g, order, todo, s, {})
    ensures SoFar(f, g, order, todo, "", {})
  {
    forall t, e ensures Visited(todo, s, {}, t, e) <==> Visited(todo, "", {}, t, e) {}
  }

  lemma SoFarDone(f: Flow, g: Group, order: seq<Visit>)
    requires SoFar(f, g, order, {}, "", {})
    ensures IsVisitOrder(f, g, order)
  {
    forall v: Visit ensures Visited({}, "", {}, v.sub, v.entity) {}
  }

  /** One more entity, which joins the order if the group lets it through. */
  lemma SoFarNext(f: Flow, g: Group, order: seq<Visit>, todo: set<SubId>, s: SubId, left: set<EntityId>, e: EntityId)
    requires s !in todo && e in left && SoFar(f, g, order, todo, s, left)
    ensures SoFar(f, g, if Yields(f, g, s, e) then order + [Visit(s, e)] else order, todo, s, left - {e})
  {
    forall t, d ensures Visited(todo, s, left - {e}, t, d) <==> Visited(todo, s, left, t, d) || (t == s && d == e) {}
    assert Visit(s, e) !in order;
  }

  class FogFlow {
    const hash: Group -> HashId
    const streams: seq<string>
    var subscriptions: map<SubId, Subscription>
    var uniqueKeys: map<string, seq<Value>>
    var executionPlan: map<HashId, TaskConfig>
    var deploymentPlan: map<HashId, WorkerId>
    var log: seq<Command>

    constructor (hash: Group -> HashId, streams: seq<string>, selectors: map<SubId, Selector>)
      ensures this.hash == hash && this.streams == streams && log == []
      ensures View() == Flow(map s | s in selectors :: Subscription(selectors[s], map[]), map[], map[], map[])
    {
      this.hash, this.streams, log := hash, streams, [];
      subscriptions := map s | s in selectors :: Subscription(selectors[s], map[]);
      uniqueKeys, executionPlan, deploymentPlan := map[], map[], map[];
    }

    function View(): Flow
      reads this
    {
      Flow(subscriptions, uniqueKeys, executionPlan, deploymentPlan)
    }

    /** `updateGroupedKeyValueTable`. */
    method UpdateGroupedKeyValueTable(s: SubId, e: EntityId)
      requires s in subscriptions && e in subscriptions[s].regs
      modifies this`uniqueKeys
      ensures uniqueKeys == Tabulated(old(uniqueKeys), subscriptions[s].selector, subscriptions[s].regs[e])
    {
      var selector, entity := subscriptions[s].selector, subscriptions[s].regs[e];
      var key := selector.key;
      if selector.groupBy == All {
        if key !in uniqueKeys {
          uniqueKeys := uniqueKeys[key := [AllValue]];
        }
      } else {
        var value := ValueOf(selector, entity);
        if key in uniqueKeys {
          var inList, items, i := false, uniqueKeys[key], 0;
          while i < |items|
            invariant i <= |items|
            invariant inList <==> value in items[..i]
          {
            if items[i] == value {
              inList := true;
              break;
            }
            i := i + 1;
          }
          assert inList <==> value in items;
          if !inList {
            uniqueKeys := uniqueKeys[key := items + [value]];
          }
        } else {
          uniqueKeys := uniqueKeys[key := [value]];
        }
      }
    }

    /** The two inner loops of `getRelevantGroups`: every listed value with every group so far. */
    method Multiply(gs: seq<Group>, k: string, vs: seq<Value>) returns (groups: seq<Group>)
      ensures groups == Multiplied(gs, k, vs)
    {
      groups := [];
      for i := 0 to |vs|
        invariant groups == Multiplied(gs, k, vs[..i])
      {
        ghost var before := groups;
        for j := 0 to |gs|
          invariant groups == before + ExtendedBy(gs[..j], k, vs[i])
        {
          groups := groups + [gs[j][k := vs[i]]];
          assert ExtendedBy(gs[..j + 1], k, vs[i]) == ExtendedBy(gs[..j], k, vs[i]) + [gs[j][k := vs[i]]];
        }
        assert gs[..|gs|] == gs;
        assert vs[..i + 1][..i] == vs[..i];
      }
      assert vs[..|vs|] == vs;
    }

    /** `getRelevantGroups`: this entity's own value multiplied with all other rows of the table. */
    method GetRelevantGroups(s: SubId, e: EntityId) returns (groups: seq<Group>)
      requires s in subscriptions && e in subscriptions[s].regs
      ensures forall g :: g in groups <==>
                            IsRelevant(uniqueKeys, subscriptions[s].selector, subscriptions[s].regs[e], g)
      ensures RowsDistinct(uniqueKeys) ==> Distinct(groups)
    {
      var selector := subscriptions[s].selector;
      var key, value := selector.key, ValueOf(selector, subscriptions[s].regs[e]);
      groups := [map[key := value]];
      ghost var done: set<string> := {};
      var todo := uniqueKeys.Keys;
      assert forall g :: IsPartial(uniqueKeys, key, value, {}, g) ==> g == map[key := value];
      while todo != {}
        invariant todo <= uniqueKeys.Keys && done == uniqueKeys.Keys - todo
        invariant forall g :: g in groups <==> IsPartial(uniqueKeys, key, value, done, g)
        invariant RowsDistinct(uniqueKeys) ==> Distinct(groups)
      {
        var k :| k in todo;
        if k != key {
          ghost var before := groups;
          forall g ensures g in Multiplied(before, k, uniqueKeys[k])
                           <==> IsPartial(uniqueKeys, key, value, done + {k}, g) {
            PartialStep(uniqueKeys, key, value, done, k, before, g);
          }
          if RowsDistinct(uniqueKeys) {
            assert forall i :: 0 <= i < |before| ==> before[i] in before;
            MultipliedDistinct(before, k, uniqueKeys[k]);
          }
          groups := Multiply(groups, k, uniqueKeys[k]);
        } else {
          assert done + {k} + {key} == done + {key};
        }
        todo := todo - {k};
        done := done + {k};
      }
      assert done == uniqueKeys.Keys;
    }

    /** `searchRelevantEntities`: two nested loops over maps. */
    method SearchRelevantEntities(g: Group) returns (entities: seq<Input>)
      ensures ListsRelevant(View(), g, entities)
    {
      entities := [];
      ghost var order: seq<Visit> := [];
      var todo := subscriptions.Keys;
      while todo != {}
        invariant todo <= subscriptions.Keys
        invariant SoFar(View(), g, order, todo, "", {}) && entities == Collected(subscriptions, order)
      {
        var s :| s in todo;
        var sub := subscriptions[s];
        var left := sub.regs.Keys;
        SoFarEnter(View(), g, order, todo, s);
        todo := todo - {s};
        while left != {}
          invariant left <= sub.regs.Keys
          invariant SoFar(View(), g, order, todo, s, left) && entities == Collected(subscriptions, order)
        {
          var e :| e in left;
          var reg := sub.regs[e];
          ghost var before := order;
          SoFarNext(View(), g, order, todo, s, left, e);
          if IsMatched(sub.selector, reg, g) {
            order := before + [Visit(s, e)];
            assert order[..|before|] == before;
            // the type compared here is still that of an empty input
            if !(IsSimpleByType(sub.selector) && HasUntyped(entities)) {
              entities := entities + [InputOf(sub.selector, reg)];
            }
          }
          left := left - {e};
        }
        SoFarLeave(View(), g, order, todo, s);
      }
      SoFarDone(View(), g, order);
    }

    /** The inner loop of `expandExecutionPlan`: an existing task meets the relevant entities one by one. */
    method AbsorbEntities(h: HashId, entities: seq<Input>, byType: bool, select: Selection, actions: seq<Action>)
      returns (more: seq<Action>)
      requires h in executionPlan
      modifies this`executionPlan
      ensures
        var p := Absorb(Progress(old(executionPlan)[h], actions), h, Host(old(View()), h), entities, |entities|,
                        byType, select);
        executionPlan == old(executionPlan)[h := p.task] && more == p.actions
    {
      more := actions;
      var host := if h in deploymentPlan then deploymentPlan[h] else "";
      ghost var start := Progress(executionPlan[h], actions);
      for n := 0 to |entities|
        invariant h in executionPlan && executionPlan == old(executionPlan)[h := executionPlan[h]]
        invariant Progress(executionPlan[h], more) == Absorb(start, h, host, entities, n, byType, select)
      {
        var task;
        task, more := AbsorbEntity(executionPlan[h], h, host, entities[n], n, byType, select, more);
        executionPlan := executionPlan[h := task];
      }
    }

    /** The body of the loop over groups in `expandExecutionPlan`. */
    method ExpandGroup(h: HashId, entities: seq<Input>, byType: bool, select: Selection, actions: seq<Action>)
      returns (more: seq<Action>)
      modifies this`executionPlan
      ensures Expansion(executionPlan, more)
              == ExpandOne(old(View()), Expansion(old(executionPlan), actions), h, entities, byType, select)
    {
      if h in executionPlan {
        more := AbsorbEntities(h, entities, byType, select, actions);
      } else {
        executionPlan := executionPlan[h := TaskConfig("", entities)];
        more := actions + [AddTask(h, entities)];
      }
    }

    /** `expandExecutionPlan`. */
    method ExpandExecutionPlan(s: SubId, e: EntityId, select: Selection, ghost place: Placement)
      returns (actions: seq<Action>, ghost c: Choices)
      requires s in subscriptions && e in subscriptions[s].regs && RowsDistinct(uniqueKeys)
      modifies this`executionPlan
      ensures c.select == select && c.place == place && Distinct(c.groups)
      ensures forall g :: g in c.groups <==>
                            IsRelevant(uniqueKeys, subscriptions[s].selector, subscriptions[s].regs[e], g)
      ensures forall g :: g in c.groups ==> ListsRelevant(old(View()), g, c.Found(g))
      ensures Expansion(executionPlan, actions)
              == Expand(old(View()), hash, c, IsSimpleByType(subscriptions[s].selector), |c.groups|)
    {
      var groups := GetRelevantGroups(s, e);
      var byType := IsSimpleByType(subscriptions[s].selector);
      ghost var f := View();
      actions := [];
      c := Choices(groups, map[], select, place);
      for n := 0 to |groups|
        invariant View() == f.(plan := executionPlan)
        invariant c == Choices(groups, c.entities, select, place)
        invariant FoundFor(f, c, n)
        invariant Expansion(executionPlan, actions) == Expand(f, hash, c, byType, n)
      {
        var entities := SearchRelevantEntities(groups[n]);
        NextGroup(f, View(), hash, c, byType, n, entities, actions);
        c := FoundNext(c, n, entities);
        actions := ExpandGroup(hash(groups[n]), entities, byType, select, actions);
      }
    }

    /** `checkInputsOfTaskInstance`. */
    method CheckInputsOfTaskInstance(inputs: seq<Input>) returns (ok: bool)
      ensures ok <==> HasAllStreams(inputs, streams)
    {
      for n := 0 to |streams|
        invariant HasAllStreams(inputs, streams[..n])
      {
        var exist, i := false, 0;
        while i < |inputs| && !exist
          invariant i <= |inputs|
          invariant exist <==> exists j :: 0 <= j < i && inputs[j].typ == streams[n]
        {
          exist := inputs[i].typ == streams[n];
          i := i + 1;
        }
        if !exist {
          assert streams[n] in streams;
          return false;
        }
        assert streams[..n + 1] == streams[..n] + [streams[n]];
      }
      assert streams[..|streams|] == streams;
      return true;
    }

    /** The body of the loop over groups in `removeExecutionPlan`. */
    method ShrinkGroup(h: HashId, e: EntityId, actions: seq<Action>) returns (more: seq<Action>)
      modifies this`executionPlan
      ensures Expansion(executionPlan, more)
              == ShrinkOne(old(View()), Expansion(old(executionPlan), actions), h, streams, e)
    {
      more := actions;
      if h in executionPlan {
        var inputs := DropInput(executionPlan[h].inputs, e);
        executionPlan := executionPlan[h := executionPlan[h].(inputs := inputs)];
        var ok := CheckInputsOfTaskInstance(inputs);
        if !ok {
          if h in deploymentPlan {
            more := more + [RemoveTask(h, deploymentPlan[h])];
          }
          executionPlan := executionPlan - {h};
        } else {
          more := more + [RemoveInput(h, if h in deploymentPlan then deploymentPlan[h] else "", e)];
        }
      }
    }

    /** `removeExecutionPlan`. */
    method RemoveExecutionPlan(s: SubId, e: EntityId, ghost select: Selection, ghost place: Placement)
      returns (actions: seq<Action>, ghost c: Choices)
      requires s in subscriptions && e in subscriptions[s].regs && RowsDistinct(uniqueKeys)
      modifies this`executionPlan
      ensures c.select == select && c.place == place && Distinct(c.groups)
      ensures forall g :: g in c.groups <==>
                            IsRelevant(uniqueKeys, subscriptions[s].selector, subscriptions[s].regs[e], g)
      ensures Expansion(executionPlan, actions) == Shrink(old(View()), hash, streams, c, e, |c.groups|)
    {
      var groups := GetRelevantGroups(s, e);
      ghost var f := View();
      actions := [];
      c := Choices(groups, map[], select, place);
      for n := 0 to |groups|
        invariant View() == f.(plan := executionPlan)
        invariant Expansion(executionPlan, actions) == Shrink(f, hash, streams, c, e, n)
      {
        actions := ShrinkGroup(hash(groups[n]), e, actions);
      }
    }

    /** `checkInputAvailability`. */
    method CheckInputAvailability() returns (ok: bool)
      ensures ok <==> Available(View())
    {
      var todo := subscriptions.Keys;
      while todo != {}
        invariant todo <= subscriptions.Keys
        invariant forall s :: s in subscriptions && s !in todo ==> subscriptions[s].regs.Keys != {}
      {
        var s :| s in todo;
        if subscriptions[s].regs.Keys == {} {
          return false;
        }
        todo := todo - {s};
      }
      return true;
    }

    /** `MetadataDrivenTaskOrchestration`. */
    method MetadataDrivenTaskOrchestration(ev: Event, select: Selection, ghost place: Placement)
      returns (actions: seq<Action>, ghost c: Choices)
      requires RowsDistinct(uniqueKeys)
      modifies this`subscriptions, this`uniqueKeys, this`executionPlan
      ensures RowsDistinct(uniqueKeys)
      ensures c.select == select && c.place == place
      ensures ev.sub in old(subscriptions) ==> Legal(old(View()), ev, c)
      ensures (View(), actions) == Decide(old(View()), hash, streams, ev, c)
    {
      actions, c := [], Choices([], map[], select, place);
      if ev.sub !in subscriptions {
        return;
      }
      var sub := subscriptions[ev.sub];
      var entityID := EntityKey(sub.selector, ev.reg);
      if !ev.isDelete {
        if entityID in sub.regs {
          if !IsSimpleByType(sub.selector) {
            var merged := Updated(sub.regs[entityID], ev.reg);
            subscriptions := subscriptions[ev.sub := sub.(regs := sub.regs[entityID := merged])];
          }
        } else {
          subscriptions := subscriptions[ev.sub := sub.(regs := sub.regs[entityID := ev.reg])];
        }
        assert subscriptions == old(subscriptions)[ev.sub := Received(sub, ev.reg)];
        UpdateGroupedKeyValueTable(ev.sub, entityID);
        assert View() == Recorded(old(View()), ev.sub, ev.reg);
        var ok := CheckInputAvailability();
        if ok {
          actions, c := ExpandExecutionPlan(ev.sub, entityID, select, place);
        }
      } else {
        if entityID !in sub.regs {
          return;
        }
        var ok := CheckInputAvailability();
        if ok {
          actions, c := RemoveExecutionPlan(ev.sub, entityID, select, place);
          return;
        }
        subscriptions := subscriptions[ev.sub := sub.(regs := sub.regs - {entityID})];
      }
    }

    /** `HandleContextAvailabilityUpdate` for this flow: plan, then place each task and send the commands. */
    method HandleUpdate(ev: Event, select: Selection, place: Placement) returns (ghost c: Choices)
      requires RowsDistinct(uniqueKeys)
      modifies this
      ensures RowsDistinct(uniqueKeys)
      ensures c.select == select && c.place == place
      ensures ev.sub in old(subscriptions) ==> Legal(old(View()), ev, c)
      ensures
        var o := Handle(old(View()), old(log), hash, streams, ev, c);
        View() == o.flow && log == o.log
    {
      var actions;
      actions, c := MetadataDrivenTaskOrchestration(ev, select, place);
      CarryOutActions(actions, place);
    }

    /** The loop over the actions. */
    method CarryOutActions(actions: seq<Action>, place: Placement)
      modifies this`executionPlan, this`deploymentPlan, this`log
      ensures
        var o := CarryOut(old(View()), old(log), actions, |actions|, place);
        View() == o.flow && log == o.log
    {
      ghost var d := View();
      for i := 0 to |actions|
        invariant Outcome(View(), log, false) == CarryOut(d, old(log), actions, i, place)
      {
        var stopped := CarryOutAction(actions[i], i, place);
        if stopped {
          StoppedStays(d, old(log), actions, i + 1, place);
          return;
        }
      }
    }

    /** One turn of the loop over the actions; `stopped` when no worker was found for a task. */
    method CarryOutAction(a: Action, i: nat, place: Placement) returns (stopped: bool)
      modifies this`executionPlan, this`deploymentPlan, this`log
      ensures Outcome(View(), log, stopped) == CarryOutOne(Outcome(old(View()), old(log), false), a, i, place)
    {
      stopped := false;
      match a
      case AddTask(h, inputs) =>
        var locations := if h in executionPlan then Locations(executionPlan[h].inputs) else [];
        var selected := place(i, locations);
        if selected == "" {
          return true;
        }
        log := log + [Deploy(h, selected, inputs)];
        deploymentPlan := deploymentPlan[h := selected];
        if h in executionPlan {
          executionPlan := executionPlan[h := executionPlan[h].(worker := selected)];
        }
      case RemoveTask(h, w) =>
        if w != "" {
          log := log + [Undeploy(h, w)];
        }
      case AddInput(h, w, x) =>
        log := log + [Feed(h, w, x)];
      case RemoveInput(h, w, e) =>
        log := log + [Starve(h, w, e)];
    }
  }

  class TaskMgr {
    var subID2FogFunc: map<SubId, string>
    var fogFlows: map<string, FogFlow>

    constructor (subID2FogFunc: map<SubId, string>, fogFlows: map<string, FogFlow>)
      requires forall n, m :: n in fogFlows && m in fogFlows && n != m ==> fogFlows[n] != fogFlows[m]
      requires forall n :: n in fogFlows ==> RowsDistinct(fogFlows[n].uniqueKeys)
      ensures Valid() && this.subID2FogFunc == subID2FogFunc && this.fogFlows == fogFlows
    {
      this.subID2FogFunc, this.fogFlows := subID2FogFunc, fogFlows;
    }

    /** Functions have flows of their own, and no row of a table lists a value twice. */
    ghost predicate Valid()
      reads this, fogFlows.Values
    {
      && (forall n, m :: n in fogFlows && m in fogFlows && n != m ==> fogFlows[n] != fogFlows[m])
      && (forall n :: n in fogFlows ==> RowsDistinct(fogFlows[n].uniqueKeys))
    }

    /** The notification belongs to one of the flows. */
    predicate IsMine(sub: SubId)
      reads this
    {
      sub in subID2FogFunc && subID2FogFunc[sub] in fogFlows
    }

    /** `HandleContextAvailabilityUpdate`: the flow of the subscription handles the notification, for a legal
        choice of map orders; every other flow, and all of them if the subscription or its flow is unknown, stay as
        they are. */
    method HandleContextAvailabilityUpdate(ev: Event, select: Selection, place: Placement) returns (ghost c: Choices)
      requires Valid()
      modifies fogFlows.Values
      ensures Valid() && c.select == select && c.place == place
      ensures forall n :: n in fogFlows && !(IsMine(ev.sub) && n == subID2FogFunc[ev.sub]) ==>
                            fogFlows[n].View() == old(fogFlows[n].View()) && fogFlows[n].log == old(fogFlows[n].log)
      ensures IsMine(ev.sub) ==>
                var flow := fogFlows[subID2FogFunc[ev.sub]];
                var o := Handle(old(flow.View()), old(flow.log), flow.hash, flow.streams, ev, c);
                && flow.View() == o.flow && flow.log == o.log
                && (ev.sub in old(flow.subscriptions) ==> Legal(old(flow.View()), ev, c))
    {
      c := Choices([], map[], select, place);
      if ev.sub !in subID2FogFunc {
        return;
      }
      var funcName := subID2FogFunc[ev.sub];
      if funcName !in fogFlows {
        return;
      }
      var fogflow := fogFlows[funcName];
      assert forall n :: n in fogFlows && n != funcName ==> fogFlows[n] != fogflow;
      c := fogflow.HandleUpdate(ev, select, place);
    }
  }
}
