/** The invariant behind at most one live deployment per task (master/taskMgr.go). */
module PlacementRuns {
  import opened Listings
  import opened Wrappers
  import opened Planner
  import opened PlannerProofs
  import opened Relevance
  import opened TableRuns
  import opened PlacementProofs

  // ----- The invariant -----

  /** Every input of a planned task whose entity still belongs to the group stands at the entity's place. */
  ghost predicate InSync(f: Flow, hash: Group -> HashId)
  {
    forall g :: IsFull(f.unique, g) && hash(g) in f.plan ==> TaskInSync(f, g, f.plan[hash(g)].inputs)
  }

  ghost predicate TaskInSync(f: Flow, g: Group, inputs: seq<Input>)
  {
    forall s, e, i :: Yields(f, g, s, e) && 0 <= i < |inputs| && inputs[i].id == e
                      ==> inputs[i].location == GetLocation(f.subs[s].regs[e])
  }

  /** What holds of the registrations. */
  ghost predicate Filed(f: Flow)
  {
    AllByEntity(f) && Separate(f) && NoKeyClash(f) && TableListed(f)
  }

  /** What holds of the plan: its tasks are points of the product, in step with the registrations. */
  ghost predicate Aligned(f: Flow, hash: Group -> HashId)
  {
    Filed(f) && (f.plan.Keys != {} ==> Available(f)) && PlanOnTable(f, hash) && InSync(f, hash)
  }

  ghost predicate Orderly(f: Flow, log: seq<Command>, hash: Group -> HashId)
  {
    Aligned(f, hash) && Settled(f) && Replay(log) == Some(Live(f))
  }

  /** The entity is not known to another subscription. */
  ghost predicate OwnEntity(f: Flow, ev: Event)
  {
    forall t :: t in f.subs && t != ev.sub ==> ev.reg.id !in f.subs[t].regs
  }

  // ----- Recording a registration -----

  /** How `Recorded` changes a flow of scoped or EntityID-grouped selectors. */
  ghost predicate EntityRecorded(f: Flow, f': Flow, s: SubId, e: EntityId)
  {
    && KeyRecorded(f, f', s, e)
    && e in f'.subs[s].regs && f'.subs[s].regs[e].id == e
  }

  lemma RecordedEntity(f: Flow, s: SubId, reg: Registration)
    requires Filed(f) && s in f.subs
    ensures EntityRecorded(f, Recorded(f, s, reg), s, reg.id)
  {
    RecordedKey(f, s, reg);
  }

  lemma RecordedFiled(f: Flow, f': Flow, s: SubId, e: EntityId)
    requires Filed(f) && EntityRecorded(f, f', s, e)
    requires RowTabulated(f, f', f.subs[s].selector, ValueOf(f.subs[s].selector, f'.subs[s].regs[e]))
    requires forall t :: t in f.subs && t != s ==> e !in f.subs[t].regs
    ensures Filed(f')
  {
    RowsStayListed(f, f', s, e);
    SeparateAfter(f, f', s, e);
  }

  lemma SeparateAfter(f: Flow, f': Flow, s: SubId, e: EntityId)
    requires AllByEntity(f) && Separate(f) && EntityRecorded(f, f', s, e)
    requires forall t :: t in f.subs && t != s ==> e !in f.subs[t].regs
    ensures Separate(f')
  {
    forall t, d | t in f'.subs && d in f'.subs[t].regs ensures f'.subs[t].regs[d].id == d {
      if t != s {
        assert f'.subs[t] == f.subs[t];
      }
    }
    forall t, u, d | t in f'.subs && u in f'.subs && t != u && d in f'.subs[t].regs ensures d !in f'.subs[u].regs {
      assert t != s ==> f'.subs[t] == f.subs[t];
      assert u != s ==> f'.subs[u] == f.subs[u];
    }
  }

  // ----- Expanding the plan after a CREATE or UPDATE -----

  /** What is known when the plan of `f`, recorded as `f'`, is about to be expanded for entity `e` of `s`. */
  ghost predicate Expanding(f: Flow, f': Flow, s: SubId, e: EntityId, hash: Group -> HashId)
  {
    && Filed(f') && EntityRecorded(f, f', s, e)
    && RowTabulated(f, f', f.subs[s].selector, ValueOf(f.subs[s].selector, f'.subs[s].regs[e]))
    && f'.plan == f.plan && f'.deployed == f.deployed
    && Aligned(f, hash) && InjectiveOn(f'.unique, hash)
  }

  lemma FullAfter(f: Flow, f': Flow, s: SubId, e: EntityId, hash: Group -> HashId, g: Group)
    requires Expanding(f, f', s, e, hash) && Available(f) && IsFull(f.unique, g)
    ensures IsFull(f'.unique, g)
  {
    assert RowListed(f.subs[s], f.unique);
    FullExtended(f, f', f.subs[s].selector, ValueOf(f.subs[s].selector, f'.subs[s].regs[e]), g);
  }

  /** The group of an existing task was already a point of the product. */
  lemma FullBefore(f: Flow, f': Flow, s: SubId, e: EntityId, hash: Group -> HashId, g: Group)
    requires Expanding(f, f', s, e, hash) && IsFull(f'.unique, g) && hash(g) in f.plan
    ensures IsFull(f.unique, g)
  {
    var k :| IsFull(f.unique, k) && hash(k) == hash(g);
    FullAfter(f, f', s, e, hash, k);
  }

  /** An entity other than the notified one is as it was. */
  lemma OtherEntitySame(f: Flow, f': Flow, s: SubId, e: EntityId, g: Group, t: SubId, d: EntityId)
    requires EntityRecorded(f, f', s, e) && Separate(f') && Yields(f', g, t, d) && d != e
    ensures Yields(f, g, t, d) && f.subs[t].regs[d] == f'.subs[t].regs[d]
  {
    if t != s {
      assert f'.subs[t] == f.subs[t];
    }
  }

  lemma ReadyForGroup(f: Flow, f': Flow, s: SubId, e: EntityId, hash: Group -> HashId, g: Group, xs: seq<Input>)
    requires Expanding(f, f', s, e, hash) && IsFull(f'.unique, g) && ListsRelevant(f', g, xs)
    ensures GroupReady(f', hash(g), xs, e)
  {
    var h := hash(g);
    ListedOncePerEntity(f', g, xs);
    if h in f'.plan {
      FullBefore(f, f', s, e, hash, g);
      var inputs := f.plan[h].inputs;
      assert TaskInSync(f, g, inputs);
      forall i, j | 0 <= i < |inputs| && 0 <= j < |xs| && xs[j].id != e && inputs[i].id == xs[j].id
        ensures inputs[i].location == xs[j].location
      {
        ListedIsRelevant(f', g, xs, xs[j]);
        var t, d :| Yields(f', g, t, d) && xs[j] == InputOf(f'.subs[t].selector, f'.subs[t].regs[d]);
        OtherEntitySame(f, f', s, e, g, t, d);
      }
    }
  }

  lemma ReadyToExpand(f: Flow, f': Flow, s: SubId, e: EntityId, hash: Group -> HashId, c: Choices)
    requires Expanding(f, f', s, e, hash)
    requires Distinct(c.groups)
    requires forall g :: g in c.groups ==> IsFull(f'.unique, g) && ListsRelevant(f', g, c.Found(g))
    requires forall a, b, p :: c.select(a, b, p) != ""
    ensures Ready(f', hash, c, e)
  {
    forall i | 0 <= i < |c.groups| ensures GroupReady(f', hash(c.groups[i]), c.Found(c.groups[i]), e) {
      assert c.groups[i] in c.groups;
      ReadyForGroup(f, f', s, e, hash, c.groups[i], c.Found(c.groups[i]));
    }
    forall i, j | 0 <= i < j < |c.groups| ensures hash(c.groups[i]) != hash(c.groups[j]) {
      assert c.groups[i] in c.groups && c.groups[j] in c.groups;
    }
  }

  /** The inputs of a group that was expanded are in step with its relevant entities. */
  lemma PlannedInSync(f': Flow, g: Group, xs: seq<Input>, inputs: seq<Input>)
    requires Filed(f') && ListsRelevant(f', g, xs) && Synced(inputs, xs, |xs|)
    ensures TaskInSync(f', g, inputs)
  {
    forall t, d, i | Yields(f', g, t, d) && 0 <= i < |inputs| && inputs[i].id == d
      ensures inputs[i].location == GetLocation(f'.subs[t].regs[d])
    {
      var x := InputOf(f'.subs[t].selector, f'.subs[t].regs[d]);
      RelevantIsListed(f', g, xs, t, d);
      var j :| 0 <= j < |xs| && xs[j] == x;
    }
  }

  /** The inputs of a group the entity has no part in are still in step. */
  lemma OthersInSync(f: Flow, f': Flow, s: SubId, e: EntityId, hash: Group -> HashId, g: Group)
    requires Expanding(f, f', s, e, hash) && IsFull(f'.unique, g) && hash(g) in f.plan
    requires !IsRelevant(f'.unique, f'.subs[s].selector, f'.subs[s].regs[e], g)
    ensures TaskInSync(f', g, f.plan[hash(g)].inputs)
  {
    var inputs := f.plan[hash(g)].inputs;
    FullBefore(f, f', s, e, hash, g);
    assert TaskInSync(f, g, inputs);
    RelevantIffYields(f', s, e, g);
    forall t, d, i | Yields(f', g, t, d) && 0 <= i < |inputs| && inputs[i].id == d
      ensures inputs[i].location == GetLocation(f'.subs[t].regs[d])
    {
      assert d == e ==> t == s;
      OtherEntitySame(f, f', s, e, g, t, d);
    }
  }

  lemma ExpandedInSync(f: Flow, f': Flow, s: SubId, e: EntityId, hash: Group -> HashId, c: Choices, x: Expansion)
    requires Expanding(f, f', s, e, hash)
    requires forall g :: g in c.groups <==> IsRelevant(f'.unique, f'.subs[s].selector, f'.subs[s].regs[e], g)
    requires forall g :: g in c.groups ==> IsFull(f'.unique, g) && ListsRelevant(f', g, c.Found(g))
    requires PlanExpanded(f', x, hash, c, |c.groups|)
    ensures InSync(f'.(plan := x.plan), hash)
  {
    var d := f'.(plan := x.plan);
    forall g | IsFull(d.unique, g) && hash(g) in d.plan ensures TaskInSync(d, g, d.plan[hash(g)].inputs) {
      if IsHashOf(c.groups, |c.groups|, hash, hash(g)) {
        var i :| 0 <= i < |c.groups| && hash(c.groups[i]) == hash(g);
        assert c.groups[i] in c.groups;
        assert c.groups[i] == g;
        assert GroupPlanned(x.plan, hash(c.groups[i]), c.Found(c.groups[i]));
        PlannedInSync(f', g, c.Found(g), x.plan[hash(g)].inputs);
      } else {
        OthersInSync(f, f', s, e, hash, g);
      }
      assert TaskInSync(f', g, x.plan[hash(g)].inputs);
      forall t, k ensures Yields(d, g, t, k) <==> Yields(f', g, t, k) {}
    }
  }

  lemma ExpandedOnTable(f: Flow, f': Flow, s: SubId, e: EntityId, hash: Group -> HashId, c: Choices, x: Expansion)
    requires Expanding(f, f', s, e, hash)
    requires forall g :: g in c.groups ==> IsFull(f'.unique, g)
    requires PlanExpanded(f', x, hash, c, |c.groups|)
    ensures PlanOnTable(f'.(plan := x.plan), hash)
  {
    forall h | h in x.plan ensures exists g :: IsFull(f'.unique, g) && hash(g) == h {
      if IsHashOf(c.groups, |c.groups|, hash, h) {
        var i :| 0 <= i < |c.groups| && hash(c.groups[i]) == h;
        assert c.groups[i] in c.groups;
      } else {
        var g :| IsFull(f.unique, g) && hash(g) == h;
        FullAfter(f, f', s, e, hash, g);
      }
    }
  }

  // ----- One notification keeps the flow orderly -----

  ghost predicate AlwaysFinds(c: Choices)
  {
    (forall a, b, p :: c.select(a, b, p) != "") && (forall i, p :: c.place(i, p) != "")
  }

  /** Carrying out the actions leaves registrations, table, groups and inputs alone. */
  lemma CarriedOrderly(f: Flow, d: Flow, log: seq<Command>, acts: seq<Action>, hash: Group -> HashId, place: Placement)
    requires Aligned(d, hash) && Settled(f) && Replay(log) == Some(Live(f)) && Fits(f, d, acts)
    requires forall i, p :: place(i, p) != ""
    ensures
      var o := CarryOut(d, log, acts, |acts|, place);
      Orderly(o.flow, o.log, hash)
  {
    CarryOutSettles(f, d, log, acts, place);
    CarriedAligned(d, log, acts, hash, place);
  }

  lemma CarriedAligned(d: Flow, log: seq<Command>, acts: seq<Action>, hash: Group -> HashId, place: Placement)
    requires Aligned(d, hash)
    ensures Aligned(CarryOut(d, log, acts, |acts|, place).flow, hash)
  {
    CarryOutFrame(d, log, acts, |acts|, place);
    SameButAligned(d, CarryOut(d, log, acts, |acts|, place).flow, Touched(acts), hash);
  }

  lemma SameButAligned(d: Flow, o: Flow, touched: set<HashId>, hash: Group -> HashId)
    requires SameBut(d, o, touched) && Aligned(d, hash)
    ensures Aligned(o, hash)
  {
    forall g | IsFull(o.unique, g) && hash(g) in o.plan ensures TaskInSync(o, g, o.plan[hash(g)].inputs) {
      assert TaskInSync(d, g, d.plan[hash(g)].inputs);
      forall t, k ensures Yields(o, g, t, k) <==> Yields(d, g, t, k) {}
    }
  }

  lemma RecordedExpanding(f: Flow, log: seq<Command>, hash: Group -> HashId, ev: Event)
    requires Orderly(f, log, hash) && ev.sub in f.subs && OwnEntity(f, ev)
    requires InjectiveOn(Recorded(f, ev.sub, ev.reg).unique, hash)
    ensures Expanding(f, Recorded(f, ev.sub, ev.reg), ev.sub, ev.reg.id, hash)
  {
    RecordedEntity(f, ev.sub, ev.reg);
    RecordedKey(f, ev.sub, ev.reg);
    RecordedFiled(f, Recorded(f, ev.sub, ev.reg), ev.sub, ev.reg.id);
  }

  lemma ExpansionOrderly(f: Flow, f': Flow, log: seq<Command>, hash: Group -> HashId, s: SubId, e: EntityId, c: Choices,
                         x: Expansion)
    requires Settled(f') && Replay(log) == Some(Live(f')) && Expanding(f, f', s, e, hash) && Available(f')
    requires forall i, p :: c.place(i, p) != ""
    requires forall g :: g in c.groups <==> IsRelevant(f'.unique, f'.subs[s].selector, f'.subs[s].regs[e], g)
    requires forall g :: g in c.groups ==> IsFull(f'.unique, g) && ListsRelevant(f', g, c.Found(g))
    requires ActionsExpanded(f', x, hash, c.groups, |c.groups|) && PlanExpanded(f', x, hash, c, |c.groups|)
    ensures
      var o := CarryOut(f'.(plan := x.plan), log, x.actions, |x.actions|, c.place);
      Orderly(o.flow, o.log, hash)
  {
    ExpansionAligned(f, f', hash, s, e, c, x);
    assert Fits(f', f'.(plan := x.plan), x.actions);
    CarriedOrderly(f', f'.(plan := x.plan), log, x.actions, hash, c.place);
  }

  lemma ExpansionAligned(f: Flow, f': Flow, hash: Group -> HashId, s: SubId, e: EntityId, c: Choices, x: Expansion)
    requires Expanding(f, f', s, e, hash) && Available(f')
    requires forall g :: g in c.groups <==> IsRelevant(f'.unique, f'.subs[s].selector, f'.subs[s].regs[e], g)
    requires forall g :: g in c.groups ==> IsFull(f'.unique, g) && ListsRelevant(f', g, c.Found(g))
    requires PlanExpanded(f', x, hash, c, |c.groups|)
    ensures Aligned(f'.(plan := x.plan), hash)
  {
    ExpandedInSync(f, f', s, e, hash, c, x);
    ExpandedOnTable(f, f', s, e, hash, c, x);
    SameRegistrations(f', f'.(plan := x.plan));
  }

  lemma ExpandOrderly(f: Flow, f': Flow, log: seq<Command>, hash: Group -> HashId, s: SubId, e: EntityId, c: Choices)
    requires Orderly(f, log, hash) && Expanding(f, f', s, e, hash) && Available(f') && AlwaysFinds(c)
    requires Distinct(c.groups)
    requires forall g :: g in c.groups <==> IsRelevant(f'.unique, f'.subs[s].selector, f'.subs[s].regs[e], g)
    requires forall g :: g in c.groups ==> ListsRelevant(f', g, c.Found(g))
    ensures
      var x := Expand(f', hash, c, false, |c.groups|);
      var o := CarryOut(f'.(plan := x.plan), log, x.actions, |x.actions|, c.place);
      Orderly(o.flow, o.log, hash)
  {
    forall g | g in c.groups ensures IsFull(f'.unique, g) {
      RelevantIsFull(f', s, e, g);
    }
    ReadyToExpand(f, f', s, e, hash, c);
    SettledSame(f, f');
    ExpandSound(f', hash, c, e, |c.groups|);
    ExpansionOrderly(f, f', log, hash, s, e, c, Expand(f', hash, c, false, |c.groups|));
  }

  lemma SettledSame(f: Flow, f': Flow)
    requires Settled(f) && f'.plan == f.plan && f'.deployed == f.deployed
    ensures Settled(f') && Live(f') == Live(f)
  {
    forall h | h in f'.plan ensures TaskSettled(f', h) {
      assert TaskSettled(f, h);
    }
  }

  lemma SameRegistrations(f: Flow, d: Flow)
    requires Filed(f) && d.subs == f.subs && d.unique == f.unique
    ensures Filed(d) && (Available(d) <==> Available(f))
  {
    forall t | t in d.subs ensures RowListed(d.subs[t], d.unique) {
      assert RowListed(f.subs[t], f.unique);
    }
  }

  lemma ShrinkOrderly(f: Flow, log: seq<Command>, hash: Group -> HashId, streams: seq<string>, c: Choices, e: EntityId)
    requires Orderly(f, log, hash) && Available(f) && AlwaysFinds(c)
    ensures
      var x := Shrink(f, hash, streams, c, e, |c.groups|);
      var o := CarryOut(f.(plan := x.plan), log, x.actions, |x.actions|, c.place);
      Orderly(o.flow, o.log, hash)
  {
    ShrinkSound(f, hash, streams, c, e, |c.groups|);
    var x := Shrink(f, hash, streams, c, e, |c.groups|);
    var d := f.(plan := x.plan);
    SameRegistrations(f, d);
    assert forall h :: h in x.plan ==> TaskShrunk(f, x, h);
    forall g | IsFull(d.unique, g) && hash(g) in d.plan ensures TaskInSync(d, g, d.plan[hash(g)].inputs) {
      assert TaskShrunk(f, x, hash(g));
      assert TaskInSync(f, g, f.plan[hash(g)].inputs);
      FewerInputsInSync(f, d, g, f.plan[hash(g)].inputs, d.plan[hash(g)].inputs);
    }
    CarriedOrderly(f, d, log, x.actions, hash, c.place);
  }

  lemma FewerInputsInSync(f: Flow, d: Flow, g: Group, inputs: seq<Input>, fewer: seq<Input>)
    requires d.subs == f.subs && TaskInSync(f, g, inputs) && forall x :: x in fewer ==> x in inputs
    ensures TaskInSync(d, g, fewer)
  {
    forall s, e, i | Yields(d, g, s, e) && 0 <= i < |fewer| && fewer[i].id == e
      ensures fewer[i].location == GetLocation(d.subs[s].regs[e])
    {
      assert Yields(f, g, s, e);
      assert fewer[i] in fewer;
      var j :| 0 <= j < |inputs| && inputs[j] == fewer[i];
    }
  }

  /** Before all inputs are there nothing is planned, so registrations come and go freely. */
  lemma UnplannedOrderly(f: Flow, d: Flow, log: seq<Command>, hash: Group -> HashId)
    requires Orderly(f, log, hash) && f.plan.Keys == {} && Filed(d)
    requires d.plan == f.plan && d.deployed == f.deployed
    ensures Orderly(d, log, hash)
  {
  }

  lemma DroppedFiled(f: Flow, s: SubId, e: EntityId)
    requires Filed(f) && s in f.subs
    ensures Filed(f.(subs := f.subs[s := f.subs[s].(regs := f.subs[s].regs - {e})]))
  {
    var d := f.(subs := f.subs[s := f.subs[s].(regs := f.subs[s].regs - {e})]);
    forall t | t in d.subs ensures RowListed(d.subs[t], d.unique) {
      assert RowListed(f.subs[t], f.unique);
    }
    forall t ensures t in d.subs <==> t in f.subs {}
    assert forall t :: t in f.subs ==> d.subs[t].selector == f.subs[t].selector;
    assert forall t, k :: t in f.subs && k in d.subs[t].regs
                          ==> k in f.subs[t].regs && d.subs[t].regs[k] == f.subs[t].regs[k];
  }

  lemma DeleteOrderly(f: Flow, log: seq<Command>, hash: Group -> HashId, streams: seq<string>, ev: Event, c: Choices)
    requires Orderly(f, log, hash) && AlwaysFinds(c) && ev.sub in f.subs && ev.isDelete
    ensures
      var o := Handle(f, log, hash, streams, ev, c);
      Orderly(o.flow, o.log, hash)
  {
    var e := ev.reg.id;
    if Plans(f, ev) {
      ShrinkOrderly(f, log, hash, streams, c, e);
    } else if e in f.subs[ev.sub].regs {
      DroppedFiled(f, ev.sub, e);
      UnplannedOrderly(f, Decide(f, hash, streams, ev, c).0, log, hash);
    }
  }

  lemma UpdateOrderly(f: Flow, log: seq<Command>, hash: Group -> HashId, streams: seq<string>, ev: Event, c: Choices)
    requires Orderly(f, log, hash) && AlwaysFinds(c) && ev.sub in f.subs && !ev.isDelete && Legal(f, ev, c)
    requires OwnEntity(f, ev) && InjectiveOn(Recorded(f, ev.sub, ev.reg).unique, hash)
    ensures
      var o := Handle(f, log, hash, streams, ev, c);
      Orderly(o.flow, o.log, hash)
  {
    var f' := Recorded(f, ev.sub, ev.reg);
    RecordedExpanding(f, log, hash, ev);
    if Plans(f, ev) {
      ExpandOrderly(f, f', log, hash, ev.sub, ev.reg.id, c);
    } else {
      NotYetAvailable(f, f', ev.sub);
      UnplannedOrderly(f, f', log, hash);
    }
  }

  lemma NotYetAvailable(f: Flow, f': Flow, s: SubId)
    requires SubsGrown(f, f', s) && !Available(f')
    ensures !Available(f)
  {
    var t :| t in f'.subs && f'.subs[t].regs.Keys == {};
    assert f'.subs[t] == f.subs[t];
  }

  lemma HandleOrderly(f: Flow, log: seq<Command>, hash: Group -> HashId, streams: seq<string>, ev: Event, c: Choices)
    requires Orderly(f, log, hash) && OwnEntity(f, ev) && AlwaysFinds(c)
    requires ev.sub in f.subs ==> Legal(f, ev, c)
    requires InjectiveOn(Handle(f, log, hash, streams, ev, c).flow.unique, hash)
    ensures
      var o := Handle(f, log, hash, streams, ev, c);
      Orderly(o.flow, o.log, hash)
  {
    if ev.sub in f.subs {
      if ev.isDelete {
        DeleteOrderly(f, log, hash, streams, ev, c);
      } else {
        var (d, actions) := Decide(f, hash, streams, ev, c);
        CarryOutKeeps(d, log, actions, |actions|, c.place);
        UpdateOrderly(f, log, hash, streams, ev, c);
      }
    }
  }

  /** What a notification is asked to respect: an entity reports through one subscription, every selection
      finds a worker, and distinct groups over the table hash differently. */
  ghost predicate Respected(r: Run, hash: Group -> HashId, k: nat)
    requires |r.flows| == |r.events| + 1 == |r.choices| + 1 && k < |r.events|
  {
    OwnEntity(r.flows[k], r.events[k]) && AlwaysFinds(r.choices[k]) && InjectiveOn(r.flows[k + 1].unique, hash)
  }

  lemma StepOrderly(r: Run, hash: Group -> HashId, streams: seq<string>, k: nat)
    requires IsRun(r, hash, streams) && k < |r.events| && IsStep(r, hash, streams, k) && Respected(r, hash, k)
    requires Orderly(r.flows[k], r.logs[k], hash)
    ensures Orderly(r.flows[k + 1], r.logs[k + 1], hash)
  {
    HandleOrderly(r.flows[k], r.logs[k], hash, streams, r.events[k], r.choices[k]);
  }

  lemma StartOrderly(f: Flow, hash: Group -> HashId)
    requires IsStart(f) && AllByEntity(f) && NoKeyClash(f)
    ensures Orderly(f, [], hash)
  {
    assert forall t :: t in f.subs ==> RowListed(f.subs[t], f.unique);
    assert Live(f) == map[];
  }

  lemma {:induction false} RunOrderly(r: Run, hash: Group -> HashId, streams: seq<string>, n: nat)
    requires IsRun(r, hash, streams) && n <= |r.events|
    requires AllByEntity(r.flows[0]) && NoKeyClash(r.flows[0])
    requires forall k :: 0 <= k < |r.events| ==> Respected(r, hash, k)
    ensures Orderly(r.flows[n], r.logs[n], hash)
  {
    if n > 0 {
      RunOrderly(r, hash, streams, n - 1);
      StepOrderly(r, hash, streams, n - 1);
    } else {
      StartOrderly(r.flows[0], hash);
    }
  }

  /** At most one live deployment per task: in every run of CREATE, UPDATE and DELETE notifications, replaying
      the commands never places a task on two workers, every removal names the worker the task was last placed
      on, and what is left running is the execution plan. */
  lemma RunPlacesOnce(r: Run, hash: Group -> HashId, streams: seq<string>, n: nat)
    requires IsRun(r, hash, streams) && n <= |r.events|
    requires AllByEntity(r.flows[0]) && NoKeyClash(r.flows[0])
    requires forall k :: 0 <= k < |r.events| ==> Respected(r, hash, k)
    ensures Replay(r.logs[n]) == Some(Live(r.flows[n])) && Live(r.flows[n]).Keys == r.flows[n].plan.Keys
  {
    RunOrderly(r, hash, streams, n);
    assert forall h :: h in r.flows[n].plan ==> TaskSettled(r.flows[n], h);
  }
}
