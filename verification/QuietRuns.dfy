/** When a notification that brings nothing new has no effect (master/taskMgr.go). */
module QuietRuns {
  import opened Listings
  import opened Planner
  import opened PlannerProofs
  import opened InputProofs
  import opened PlacementProofs
  import opened Relevance
  import opened PlacementRuns

  // ----- Expanding group by group -----

  ghost predicate DistinctHashes(hash: Group -> HashId, groups: seq<Group>)
  {
    forall i, j :: 0 <= i < j < |groups| ==> hash(groups[i]) != hash(groups[j])
  }

  /** Whatever the actions so far, the task of the group has inputs as wanted once it has met its entities. */
  ghost predicate WantedAfter(f: Flow, h: HashId, g: Group, xs: seq<Input>, byType: bool, select: Selection,
                              wanted: (Group, seq<Input>) -> bool)
  {
    if h in f.plan then
      forall acts: seq<Action> ::
        wanted(g, Absorb(Progress(f.plan[h], acts), h, Host(f, h), xs, |xs|, byType, select).task.inputs)
    else wanted(g, xs)
  }

  /** The first `n` groups have tasks with inputs as wanted, and the other tasks are as they were. */
  ghost predicate ExpandedAs(f: Flow, plan: map<HashId, TaskConfig>, hash: Group -> HashId, groups: seq<Group>, n: nat,
                             wanted: (Group, seq<Input>) -> bool)
    requires n <= |groups|
  {
    && (forall i :: 0 <= i < n ==> PlannedAs(plan, hash(groups[i]), groups[i], wanted))
    && (forall h :: !IsHashOf(groups, n, hash, h) ==> (h in plan <==> h in f.plan))
    && (forall h :: h in f.plan && !IsHashOf(groups, n, hash, h) ==> plan[h] == f.plan[h])
  }

  ghost predicate PlannedAs(plan: map<HashId, TaskConfig>, h: HashId, g: Group, wanted: (Group, seq<Input>) -> bool)
  {
    h in plan && wanted(g, plan[h].inputs)
  }

  lemma {:induction false} ExpandGroups(f: Flow, hash: Group -> HashId, c: Choices, byType: bool, n: nat,
                                        wanted: (Group, seq<Input>) -> bool)
    requires n <= |c.groups| && DistinctHashes(hash, c.groups)
    requires forall i :: 0 <= i < |c.groups| ==>
      WantedAfter(f, hash(c.groups[i]), c.groups[i], c.Found(c.groups[i]), byType, c.select, wanted)
    ensures ExpandedAs(f, Expand(f, hash, c, byType, n).plan, hash, c.groups, n, wanted)
  {
    if n > 0 {
      ExpandGroups(f, hash, c, byType, n - 1, wanted);
      var prev, g := Expand(f, hash, c, byType, n - 1), c.groups[n - 1];
      assert !IsHashOf(c.groups, n - 1, hash, hash(g));
      assert WantedAfter(f, hash(g), g, c.Found(g), byType, c.select, wanted);
      OneExpanded(f, prev, hash, c, byType, n, wanted);
    }
  }

  lemma OneExpanded(f: Flow, prev: Expansion, hash: Group -> HashId, c: Choices, byType: bool, n: nat,
                    wanted: (Group, seq<Input>) -> bool)
    requires 0 < n <= |c.groups| && ExpandedAs(f, prev.plan, hash, c.groups, n - 1, wanted)
    requires !IsHashOf(c.groups, n - 1, hash, hash(c.groups[n - 1]))
    requires WantedAfter(f, hash(c.groups[n - 1]), c.groups[n - 1], c.Found(c.groups[n - 1]), byType, c.select, wanted)
    ensures
      var g := c.groups[n - 1];
      ExpandedAs(f, ExpandOne(f, prev, hash(g), c.Found(g), byType, c.select).plan, hash, c.groups, n, wanted)
  {
    var g, h := c.groups[n - 1], hash(c.groups[n - 1]);
    var plan := ExpandOne(f, prev, h, c.Found(g), byType, c.select).plan;
    assert plan.Keys == prev.plan.Keys + {h} && PlannedAs(plan, h, g, wanted);
    forall k ensures IsHashOf(c.groups, n, hash, k) <==> IsHashOf(c.groups, n - 1, hash, k) || k == h {
      IsHashOfNext(c.groups, n, hash, k);
    }
    forall i | 0 <= i < n ensures PlannedAs(plan, hash(c.groups[i]), c.groups[i], wanted) {
      if i < n - 1 {
        assert PlannedAs(prev.plan, hash(c.groups[i]), c.groups[i], wanted);
        assert IsHashOf(c.groups, n - 1, hash, hash(c.groups[i]));
      }
    }
  }

  // ----- Selectors by entity: every entity of a group is an input of its task -----

  predicate HasId(inputs: seq<Input>, e: EntityId)
  {
    exists i :: 0 <= i < |inputs| && inputs[i].id == e
  }

  ghost predicate AllInputs(f: Flow, g: Group, inputs: seq<Input>)
  {
    forall s, e :: Yields(f, g, s, e) ==> HasId(inputs, e)
  }

  ghost predicate Complete(f: Flow, hash: Group -> HashId)
  {
    forall g :: IsFull(f.unique, g) && hash(g) in f.plan ==> AllInputs(f, g, f.plan[hash(g)].inputs)
  }

  ghost predicate HasIdsOf(inputs: seq<Input>, xs: seq<Input>)
  {
    forall i :: 0 <= i < |xs| ==> HasId(inputs, xs[i].id)
  }

  lemma AbsorbHasIds(p: Progress, h: HashId, host: WorkerId, xs: seq<Input>, select: Selection)
    ensures HasIdsOf(Absorb(p, h, host, xs, |xs|, false, select).task.inputs, xs)
  {
    var inputs := Absorb(p, h, host, xs, |xs|, false, select).task.inputs;
    forall i | 0 <= i < |xs| ensures HasId(inputs, xs[i].id) {
      AbsorbCounts(p, h, host, xs, false, select, xs[i].id);
      assert KeyOf(xs[i], false) == xs[i].id;
      CountPositive(inputs, false, xs[i].id);
      var j :| 0 <= j < |inputs| && KeyOf(inputs[j], false) == xs[i].id;
    }
  }

  lemma ListedAreAll(f: Flow, g: Group, xs: seq<Input>, inputs: seq<Input>)
    requires AllByEntity(f) && UnderOwnId(f) && ListsRelevant(f, g, xs) && HasIdsOf(inputs, xs)
    ensures AllInputs(f, g, inputs)
  {
    forall s, e | Yields(f, g, s, e) ensures HasId(inputs, e) {
      RelevantIsListed(f, g, xs, s, e);
      var i :| 0 <= i < |xs| && xs[i] == InputOf(f.subs[s].selector, f.subs[s].regs[e]);
    }
  }

  /** A group the notified entity has no part in is as complete as it was. */
  lemma OthersComplete(f: Flow, f': Flow, s: SubId, e: EntityId, hash: Group -> HashId, g: Group)
    requires Expanding(f, f', s, e, hash) && Complete(f, hash) && IsFull(f'.unique, g) && hash(g) in f.plan
    requires !IsRelevant(f'.unique, f'.subs[s].selector, f'.subs[s].regs[e], g)
    ensures AllInputs(f', g, f.plan[hash(g)].inputs)
  {
    FullBefore(f, f', s, e, hash, g);
    assert AllInputs(f, g, f.plan[hash(g)].inputs);
    RelevantIffYields(f', s, e, g);
    forall t, d | Yields(f', g, t, d) ensures HasId(f.plan[hash(g)].inputs, d) {
      assert d == e ==> t == s;
      OtherEntitySame(f, f', s, e, g, t, d);
    }
  }

  lemma ExpandComplete(f: Flow, f': Flow, hash: Group -> HashId, s: SubId, e: EntityId, c: Choices)
    requires Expanding(f, f', s, e, hash) && Complete(f, hash) && Distinct(c.groups)
    requires forall g :: g in c.groups <==> IsRelevant(f'.unique, f'.subs[s].selector, f'.subs[s].regs[e], g)
    requires forall g :: g in c.groups ==> IsFull(f'.unique, g) && ListsRelevant(f', g, c.Found(g))
    ensures Complete(f'.(plan := Expand(f', hash, c, false, |c.groups|).plan), hash)
  {
    var wanted := (g: Group, inputs: seq<Input>) => HasIdsOf(inputs, c.Found(g));
    HashesDiffer(f'.unique, hash, c.groups);
    forall i | 0 <= i < |c.groups|
      ensures WantedAfter(f', hash(c.groups[i]), c.groups[i], c.Found(c.groups[i]), false, c.select, wanted)
    {
      AbsorbWanted(f', hash(c.groups[i]), c.groups[i], c, wanted);
    }
    ExpandGroups(f', hash, c, false, |c.groups|, wanted);
    var plan := Expand(f', hash, c, false, |c.groups|).plan;
    forall g | IsFull(f'.unique, g) && hash(g) in plan ensures AllInputs(f', g, plan[hash(g)].inputs) {
      if IsHashOf(c.groups, |c.groups|, hash, hash(g)) {
        var i :| 0 <= i < |c.groups| && hash(c.groups[i]) == hash(g);
        assert c.groups[i] in c.groups && c.groups[i] == g;
        assert PlannedAs(plan, hash(c.groups[i]), c.groups[i], wanted);
        ListedAreAll(f', g, c.Found(g), plan[hash(g)].inputs);
      } else {
        OthersComplete(f, f', s, e, hash, g);
      }
    }
    SameSubsComplete(f', plan, hash);
  }

  lemma HashesDiffer(unique: map<string, seq<Value>>, hash: Group -> HashId, groups: seq<Group>)
    requires InjectiveOn(unique, hash) && Distinct(groups) && forall g :: g in groups ==> IsFull(unique, g)
    ensures DistinctHashes(hash, groups)
  {
    forall i, j | 0 <= i < j < |groups| ensures hash(groups[i]) != hash(groups[j]) {
      assert groups[i] in groups && groups[j] in groups;
    }
  }

  lemma AbsorbWanted(f: Flow, h: HashId, g: Group, c: Choices, wanted: (Group, seq<Input>) -> bool)
    requires forall inputs :: wanted(g, inputs) <==> HasIdsOf(inputs, c.Found(g))
    ensures WantedAfter(f, h, g, c.Found(g), false, c.select, wanted)
  {
    if h in f.plan {
      forall acts: seq<Action> {
        AbsorbHasIds(Progress(f.plan[h], acts), h, Host(f, h), c.Found(g), c.select);
      }
    }
  }

  lemma SameSubsComplete(f: Flow, plan: map<HashId, TaskConfig>, hash: Group -> HashId)
    requires forall g :: IsFull(f.unique, g) && hash(g) in plan ==> AllInputs(f, g, plan[hash(g)].inputs)
    ensures Complete(f.(plan := plan), hash)
  {
    var d := f.(plan := plan);
    forall g | IsFull(d.unique, g) && hash(g) in d.plan ensures AllInputs(d, g, d.plan[hash(g)].inputs) {
      assert AllInputs(f, g, plan[hash(g)].inputs);
      forall s, e ensures Yields(d, g, s, e) <==> Yields(f, g, s, e) {}
    }
  }

  lemma CarriedComplete(d: Flow, log: seq<Command>, acts: seq<Action>, hash: Group -> HashId, place: Placement)
    requires Complete(d, hash)
    ensures Complete(CarryOut(d, log, acts, |acts|, place).flow, hash)
  {
    var o := CarryOut(d, log, acts, |acts|, place).flow;
    CarryOutFrame(d, log, acts, |acts|, place);
    forall g | IsFull(o.unique, g) && hash(g) in o.plan ensures AllInputs(o, g, o.plan[hash(g)].inputs) {
      assert AllInputs(d, g, d.plan[hash(g)].inputs);
      forall s, e ensures Yields(o, g, s, e) <==> Yields(d, g, s, e) {}
    }
  }

  lemma DecideComplete(f: Flow, log: seq<Command>, hash: Group -> HashId, streams: seq<string>, ev: Event, c: Choices)
    requires Orderly(f, log, hash) && Complete(f, hash) && OwnEntity(f, ev) && !ev.isDelete && ev.sub in f.subs
    requires Legal(f, ev, c) && InjectiveOn(Recorded(f, ev.sub, ev.reg).unique, hash)
    ensures Complete(Decide(f, hash, streams, ev, c).0, hash)
  {
    var f' := Recorded(f, ev.sub, ev.reg);
    RecordedExpanding(f, log, hash, ev);
    if Plans(f, ev) {
      forall g | g in c.groups ensures IsFull(f'.unique, g) {
        RelevantIsFull(f', ev.sub, ev.reg.id, g);
      }
      ExpandComplete(f, f', hash, ev.sub, ev.reg.id, c);
    } else {
      NotYetAvailable(f, f', ev.sub);
      assert f'.plan.Keys == {};
    }
  }

  lemma HandleComplete(f: Flow, log: seq<Command>, hash: Group -> HashId, streams: seq<string>, ev: Event, c: Choices)
    requires Orderly(f, log, hash) && Complete(f, hash) && OwnEntity(f, ev) && !ev.isDelete
    requires ev.sub in f.subs ==> Legal(f, ev, c)
    requires InjectiveOn(Handle(f, log, hash, streams, ev, c).flow.unique, hash)
    ensures Complete(Handle(f, log, hash, streams, ev, c).flow, hash)
  {
    var (d, acts) := Decide(f, hash, streams, ev, c);
    CarryOutKeeps(d, log, acts, |acts|, c.place);
    if ev.sub in f.subs {
      DecideComplete(f, log, hash, streams, ev, c);
    }
    CarriedComplete(d, log, acts, hash, c.place);
  }

  lemma StepComplete(r: Run, hash: Group -> HashId, streams: seq<string>, k: nat)
    requires IsRun(r, hash, streams) && k < |r.events| && IsStep(r, hash, streams, k) && Respected(r, hash, k)
    requires Orderly(r.flows[k], r.logs[k], hash) && Complete(r.flows[k], hash) && !r.events[k].isDelete
    ensures Complete(r.flows[k + 1], hash)
  {
    HandleComplete(r.flows[k], r.logs[k], hash, streams, r.events[k], r.choices[k]);
  }

  /** In every CREATE and UPDATE run of the placement theorem, every entity of a planned group is an input of its
      task. */
  lemma {:induction false} RunComplete(r: Run, hash: Group -> HashId, streams: seq<string>, n: nat)
    requires IsRun(r, hash, streams) && n <= |r.events|
    requires AllByEntity(r.flows[0]) && NoKeyClash(r.flows[0])
    requires forall k :: 0 <= k < |r.events| ==> Respected(r, hash, k) && !r.events[k].isDelete
    ensures Complete(r.flows[n], hash)
  {
    if n > 0 {
      RunComplete(r, hash, streams, n - 1);
      RunOrderly(r, hash, streams, n - 1);
      assert IsStep(r, hash, streams, n - 1) && Respected(r, hash, n - 1);
      StepComplete(r, hash, streams, n - 1);
    }
  }

  // ----- Nothing new, nothing done -----

  ghost predicate GroupQuiet(f: Flow, h: HashId, xs: seq<Input>, byType: bool)
  {
    h in f.plan && forall i :: 0 <= i < |xs| ==> InPlace(f.plan[h].inputs, xs[i], byType)
  }

  lemma {:induction false} ExpandQuiet(f: Flow, hash: Group -> HashId, c: Choices, byType: bool, n: nat)
    requires n <= |c.groups|
    requires forall i :: 0 <= i < n ==> GroupQuiet(f, hash(c.groups[i]), c.Found(c.groups[i]), byType)
    ensures Expand(f, hash, c, byType, n) == Expansion(f.plan, [])
  {
    if n > 0 {
      ExpandQuiet(f, hash, c, byType, n - 1);
      var h, xs := hash(c.groups[n - 1]), c.Found(c.groups[n - 1]);
      assert GroupQuiet(f, h, xs, byType);
      AllInPlaceIff(f.plan[h].inputs, xs, |xs|, byType);
      AbsorbIdle(Progress(f.plan[h], []), h, Host(f, h), xs, |xs|, byType, c.select);
      assert f.plan[h := f.plan[h]] == f.plan;
    }
  }

  /** The notification leaves the flow alone and sends nothing. */
  ghost predicate IsQuiet(f: Flow, log: seq<Command>, hash: Group -> HashId, streams: seq<string>, ev: Event,
                          c: Choices)
  {
    Decide(f, hash, streams, ev, c) == (f, []) && Handle(f, log, hash, streams, ev, c) == Outcome(f, log, false)
  }

  lemma QuietDecision(f: Flow, log: seq<Command>, hash: Group -> HashId, streams: seq<string>, ev: Event, c: Choices)
    requires ev.sub in f.subs && !ev.isDelete && Recorded(f, ev.sub, ev.reg) == f
    requires Plans(f, ev) ==> forall i :: 0 <= i < |c.groups| ==>
      GroupQuiet(f, hash(c.groups[i]), c.Found(c.groups[i]), IsSimpleByType(f.subs[ev.sub].selector))
    ensures IsQuiet(f, log, hash, streams, ev, c)
  {
    if Plans(f, ev) {
      ExpandQuiet(f, hash, c, IsSimpleByType(f.subs[ev.sub].selector), |c.groups|);
    }
    assert CarryOut(f, log, [], 0, c.place) == Outcome(f, log, false);
  }

  lemma ExpandOneGrows(f: Flow, prev: Expansion, h: HashId, xs: seq<Input>, byType: bool, select: Selection)
    ensures |ExpandOne(f, prev, h, xs, byType, select).actions| >= |prev.actions|
  {
    if h in prev.plan {
      AbsorbGrows(Progress(prev.plan[h], prev.actions), h, Host(f, h), xs, |xs|, byType, select);
    }
  }

  lemma ExpandOneBusy(f: Flow, h: HashId, xs: seq<Input>, byType: bool) returns (select: Selection)
    requires !GroupQuiet(f, h, xs, byType)
    ensures ExpandOne(f, Expansion(f.plan, []), h, xs, byType, select).actions != []
  {
    select := Elsewhere(if h in f.plan then f.plan[h].worker else "");
    if h in f.plan {
      AllInPlaceIff(f.plan[h].inputs, xs, |xs|, byType);
      AbsorbBusy(Progress(f.plan[h], []), h, Host(f, h), xs, |xs|, byType);
    }
  }

  lemma StillQuiet(f: Flow, hash: Group -> HashId, c: Choices, select: Selection, byType: bool, n: nat)
    requires n <= |c.groups|
    requires forall i :: 0 <= i < n ==> GroupQuiet(f, hash(c.groups[i]), c.Found(c.groups[i]), byType)
    ensures Expand(f, hash, c.(select := select), byType, n) == Expansion(f.plan, [])
  {
    ExpandQuiet(f, hash, c.(select := select), byType, n);
  }

  /** A group that is not quiet leads to an action for some selection of workers. */
  lemma {:induction false} ExpandBusy(f: Flow, hash: Group -> HashId, c: Choices, byType: bool, n: nat)
    returns (select: Selection)
    requires n <= |c.groups|
    requires exists i :: 0 <= i < n && !GroupQuiet(f, hash(c.groups[i]), c.Found(c.groups[i]), byType)
    ensures Expand(f, hash, c.(select := select), byType, n).actions != []
  {
    var h, xs := hash(c.groups[n - 1]), c.Found(c.groups[n - 1]);
    if exists i :: 0 <= i < n - 1 && !GroupQuiet(f, hash(c.groups[i]), c.Found(c.groups[i]), byType) {
      select := ExpandBusy(f, hash, c, byType, n - 1);
      ExpandOneGrows(f, Expand(f, hash, c.(select := select), byType, n - 1), h, xs, byType, select);
    } else {
      select := ExpandOneBusy(f, h, xs, byType);
      StillQuiet(f, hash, c, select, byType, n - 1);
    }
  }

  /** In any flow, for selectors of all kinds: a notification that changes neither registrations nor table issues no
      action, whichever workers are selected, if and only if every entity of its groups is in place. */
  lemma RepeatIsQuietIff(f: Flow, hash: Group -> HashId, streams: seq<string>, ev: Event, c: Choices)
    requires ev.sub in f.subs && !ev.isDelete && Recorded(f, ev.sub, ev.reg) == f
    ensures
      var byType := IsSimpleByType(f.subs[ev.sub].selector);
      (forall select: Selection :: Decide(f, hash, streams, ev, c.(select := select)).1 == []) <==>
      (Plans(f, ev) ==> forall i :: 0 <= i < |c.groups| ==>
        GroupQuiet(f, hash(c.groups[i]), c.Found(c.groups[i]), byType))
  {
    var byType := IsSimpleByType(f.subs[ev.sub].selector);
    if Plans(f, ev) {
      if forall i :: 0 <= i < |c.groups| ==> GroupQuiet(f, hash(c.groups[i]), c.Found(c.groups[i]), byType) {
        forall select: Selection ensures Decide(f, hash, streams, ev, c.(select := select)).1 == [] {
          StillQuiet(f, hash, c, select, byType, |c.groups|);
        }
      } else {
        var select := ExpandBusy(f, hash, c, byType, |c.groups|);
        assert Decide(f, hash, streams, ev, c.(select := select)).1 != [];
      }
    }
  }

  lemma EntityGroupQuiet(f: Flow, log: seq<Command>, hash: Group -> HashId, g: Group, xs: seq<Input>)
    requires Orderly(f, log, hash) && Complete(f, hash) && IsFull(f.unique, g) && hash(g) in f.plan
    requires ListsRelevant(f, g, xs)
    ensures GroupQuiet(f, hash(g), xs, false)
  {
    var inputs := f.plan[hash(g)].inputs;
    assert AllInputs(f, g, inputs) && TaskInSync(f, g, inputs);
    forall i | 0 <= i < |xs| ensures InPlace(inputs, xs[i], false) {
      ListedIsRelevant(f, g, xs, xs[i]);
      var s, e :| Yields(f, g, s, e) && xs[i] == InputOf(f.subs[s].selector, f.subs[s].regs[e]);
      assert xs[i].id == e && HasId(inputs, e);
      var j :| 0 <= j < |inputs| && inputs[j].id == e;
      assert KeyOf(inputs[j], false) == e;
    }
  }

  /** In every CREATE and UPDATE run of the placement theorem: a notification that changes neither the registrations
      nor the table, all of whose groups are planned, issues no action and changes nothing. */
  lemma RunRepeatIsQuiet(r: Run, hash: Group -> HashId, streams: seq<string>, n: nat, ev: Event, c: Choices)
    requires IsRun(r, hash, streams) && n <= |r.events|
    requires AllByEntity(r.flows[0]) && NoKeyClash(r.flows[0])
    requires forall k :: 0 <= k < |r.events| ==> Respected(r, hash, k) && !r.events[k].isDelete
    requires ev.sub in r.flows[n].subs && !ev.isDelete && Recorded(r.flows[n], ev.sub, ev.reg) == r.flows[n]
    requires Legal(r.flows[n], ev, c) && forall g :: g in c.groups ==> hash(g) in r.flows[n].plan
    ensures IsQuiet(r.flows[n], r.logs[n], hash, streams, ev, c)
  {
    var f := r.flows[n];
    RunOrderly(r, hash, streams, n);
    RunComplete(r, hash, streams, n);
    if Plans(f, ev) {
      forall i | 0 <= i < |c.groups| ensures GroupQuiet(f, hash(c.groups[i]), c.Found(c.groups[i]), false) {
        assert c.groups[i] in c.groups;
        RelevantIsFull(f, ev.sub, ev.reg.id, c.groups[i]);
        EntityGroupQuiet(f, r.logs[n], hash, c.groups[i], c.Found(c.groups[i]));
      }
    }
    QuietDecision(f, r.logs[n], hash, streams, ev, c);
  }
}
