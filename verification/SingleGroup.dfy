/** Notifications that concern one group, worked out: what concrete runs of the planner are made of
    (master/taskMgr.go). */
module SingleGroup {
  import opened Planner
  import opened PlannerProofs
  import opened PlacementRuns

  function Selecting(w: WorkerId): Selection
  {
    (h: HashId, j: nat, ps: seq<Point>) => w
  }

  function Placing(w: WorkerId): Placement
  {
    (i: nat, ps: seq<Point>) => w
  }

  /** The choices of a notification with one relevant group. */
  function OneGroup(g: Group, xs: seq<Input>, select: Selection, place: Placement): Choices
  {
    Choices([g], map[g := xs], select, place)
  }

  /** An UPDATE whose only relevant group is `g`. */
  lemma UpdateOneGroup(f: Flow, log: seq<Command>, hash: Group -> HashId, streams: seq<string>, ev: Event, g: Group,
                       xs: seq<Input>, select: Selection, place: Placement)
    requires ev.sub in f.subs && !ev.isDelete && Plans(f, ev)
    ensures
      var f' := Recorded(f, ev.sub, ev.reg);
      var x := ExpandOne(f', Expansion(f'.plan, []), hash(g), xs, IsSimpleByType(f.subs[ev.sub].selector), select);
      Handle(f, log, hash, streams, ev, OneGroup(g, xs, select, place))
      == CarryOut(f'.(plan := x.plan), log, x.actions, |x.actions|, place)
  {
    var c, f' := OneGroup(g, xs, select, place), Recorded(f, ev.sub, ev.reg);
    var byType := IsSimpleByType(f.subs[ev.sub].selector);
    assert Expand(f', hash, c, byType, 0) == Expansion(f'.plan, []);
    assert c.Found(g) == xs;
    assert Expand(f', hash, c, byType, 1)
           == ExpandOne(f', Expand(f', hash, c, byType, 0), hash(c.groups[0]), c.Found(c.groups[0]), byType, select);
  }

  /** An UPDATE whose only relevant group has no task yet. */
  lemma UpdateNewTask(f: Flow, f': Flow, log: seq<Command>, hash: Group -> HashId, streams: seq<string>, ev: Event,
                      g: Group, xs: seq<Input>, w: WorkerId, h: HashId)
    requires ev.sub in f.subs && !ev.isDelete && Plans(f, ev) && w != ""
    requires f' == Recorded(f, ev.sub, ev.reg) && hash(g) == h && h !in f'.plan
    ensures Handle(f, log, hash, streams, ev, OneGroup(g, xs, Selecting(w), Placing(w)))
            == Outcome(f'.(plan := f'.plan[h := TaskConfig(w, xs)], deployed := f'.deployed[h := w]),
                       log + [Deploy(h, w, xs)], false)
  {
    UpdateOneGroup(f, log, hash, streams, ev, g, xs, Selecting(w), Placing(w));
    var d, acts := f'.(plan := f'.plan[h := TaskConfig("", xs)]), [AddTask(h, xs)];
    assert CarryOut(d, log, acts, 0, Placing(w)) == Outcome(d, log, false);
    assert f'.plan[h := TaskConfig("", xs)][h := TaskConfig(w, xs)] == f'.plan[h := TaskConfig(w, xs)];
  }

  /** An UPDATE whose only relevant group has a task already. */
  lemma UpdateExisting(f: Flow, f': Flow, log: seq<Command>, hash: Group -> HashId, streams: seq<string>, ev: Event,
                       g: Group, xs: seq<Input>, select: Selection, place: Placement, p: Progress)
    requires ev.sub in f.subs && !ev.isDelete && Plans(f, ev) && !IsSimpleByType(f.subs[ev.sub].selector)
    requires f' == Recorded(f, ev.sub, ev.reg) && hash(g) in f'.plan
    requires p == Absorb(Progress(f'.plan[hash(g)], []), hash(g), Host(f', hash(g)), xs, |xs|, false, select)
    ensures Handle(f, log, hash, streams, ev, OneGroup(g, xs, select, place))
            == CarryOut(f'.(plan := f'.plan[hash(g) := p.task]), log, p.actions, |p.actions|, place)
  {
    UpdateOneGroup(f, log, hash, streams, ev, g, xs, select, place);
  }

  /** The same with the pieces spelled out. */
  lemma UpdateTask(f: Flow, f': Flow, log: seq<Command>, hash: Group -> HashId, streams: seq<string>, ev: Event,
                   g: Group, xs: seq<Input>, select: Selection, place: Placement, h: HashId, t: TaskConfig,
                   host: WorkerId, p: Progress, d: Flow, o: Outcome)
    requires ev.sub in f.subs && !ev.isDelete && Plans(f, ev) && !IsSimpleByType(f.subs[ev.sub].selector)
    requires f' == Recorded(f, ev.sub, ev.reg) && hash(g) == h
    requires h in f'.plan && f'.plan[h] == t && Host(f', h) == host
    requires p == Absorb(Progress(t, []), h, host, xs, |xs|, false, select)
    requires d == f'.(plan := f'.plan[h := p.task]) && o == CarryOut(d, log, p.actions, |p.actions|, place)
    ensures Handle(f, log, hash, streams, ev, OneGroup(g, xs, select, place)) == o
  {
    UpdateExisting(f, f', log, hash, streams, ev, g, xs, select, place, p);
  }

  /** An existing task meets two entities. */
  lemma AbsorbTwo(p: Progress, h: HashId, host: WorkerId, x: Input, y: Input, select: Selection)
    ensures Absorb(p, h, host, [x, y], 2, false, select)
            == AbsorbOne(AbsorbOne(p, h, host, x, 0, false, select), h, host, y, 1, false, select)
  {
    var xs := [x, y];
    assert Absorb(p, h, host, xs, 1, false, select)
           == AbsorbOne(Absorb(p, h, host, xs, 0, false, select), h, host, xs[0], 0, false, select);
  }

  lemma CollectedTwo(subs: map<SubId, Subscription>, v: Visit, w: Visit)
    requires IsRegistered(subs, v) && IsRegistered(subs, w)
    requires !IsSimpleByType(subs[v.sub].selector) && !IsSimpleByType(subs[w.sub].selector)
    ensures Collected(subs, [v, w]) == [VisitInput(subs, v), VisitInput(subs, w)]
  {
    assert [v, w][..1] == [v] && [v][..0] == [];
    assert Collected(subs, [v]) == [VisitInput(subs, v)];
  }

  /** Over a table of one row an entity has one group. */
  lemma OneRelevant(unique: map<string, seq<Value>>, s: Selector, reg: Registration, g: Group)
    requires unique.Keys == {s.key}
    ensures IsRelevant(unique, s, reg, g) <==> g == map[s.key := ValueOf(s, reg)]
  {
  }

  /** The choices are legal if `g` is the only relevant group and `order` visits what it lets through. */
  lemma OneGroupLegal(f: Flow, ev: Event, g: Group, order: seq<Visit>, select: Selection, place: Placement)
    requires ev.sub in f.subs && !ev.isDelete
    requires
      var f' := Recorded(f, ev.sub, ev.reg);
      var sub := f'.subs[ev.sub];
      && f'.unique.Keys == {sub.selector.key} && IsVisitOrder(f', g, order)
      && EntityKey(sub.selector, ev.reg) in sub.regs
      && g == map[sub.selector.key := ValueOf(sub.selector, sub.regs[EntityKey(sub.selector, ev.reg)])]
    ensures
      var f' := Recorded(f, ev.sub, ev.reg);
      Legal(f, ev, OneGroup(g, Collected(f'.subs, order), select, place))
  {
    var f' := Recorded(f, ev.sub, ev.reg);
    var sub, c := f'.subs[ev.sub], OneGroup(g, Collected(f'.subs, order), select, place);
    forall x ensures x in c.groups <==> IsRelevant(f'.unique, sub.selector,
                                                   sub.regs[EntityKey(sub.selector, ev.reg)], x) {
      OneRelevant(f'.unique, sub.selector, sub.regs[EntityKey(sub.selector, ev.reg)], x);
    }
    assert c.Found(g) == Collected(f'.subs, order);
  }

  // ----- Runs -----

  /** One notification takes a flow and its log to the next, respecting what the placement theorem asks. */
  ghost predicate Leads(f: Flow, log: seq<Command>, hash: Group -> HashId, streams: seq<string>, ev: Event, c: Choices,
                        f': Flow, log': seq<Command>)
  {
    && (ev.sub in f.subs ==> Legal(f, ev, c))
    && Handle(f, log, hash, streams, ev, c) == Outcome(f', log', false)
    && OwnEntity(f, ev) && AlwaysFinds(c) && InjectiveOn(f'.unique, hash)
  }

  lemma MakeLeads(f: Flow, log: seq<Command>, hash: Group -> HashId, streams: seq<string>, ev: Event, g: Group,
                  xs: seq<Input>, w: WorkerId, f': Flow, log': seq<Command>, key: string, v: Value)
    requires var c := OneGroup(g, xs, Selecting(w), Placing(w));
             (ev.sub in f.subs ==> Legal(f, ev, c)) && Handle(f, log, hash, streams, ev, c) == Outcome(f', log', false)
    requires OwnEntity(f, ev) && w != "" && f'.unique == map[key := [v]]
    ensures Leads(f, log, hash, streams, ev, OneGroup(g, xs, Selecting(w), Placing(w)), f', log')
  {
    OneValueInjective(key, v, hash);
  }

  ghost predicate RespectfulRun(r: Run, hash: Group -> HashId, streams: seq<string>)
  {
    IsRun(r, hash, streams) && forall k :: 0 <= k < |r.events| ==> Respected(r, hash, k)
  }

  function Extended(r: Run, ev: Event, c: Choices, f: Flow, log: seq<Command>): Run
  {
    Run(r.flows + [f], r.logs + [log], r.events + [ev], r.choices + [c])
  }

  /** A run gets longer by one notification. */
  lemma LongerRun(r: Run, hash: Group -> HashId, streams: seq<string>, ev: Event, c: Choices, f: Flow,
                  log: seq<Command>)
    requires RespectfulRun(r, hash, streams)
    requires Leads(r.flows[|r.events|], r.logs[|r.events|], hash, streams, ev, c, f, log)
    ensures RespectfulRun(Extended(r, ev, c, f, log), hash, streams)
  {
    var r' := Extended(r, ev, c, f, log);
    LongerIsRun(r, hash, streams, ev, c, f, log);
    forall k | 0 <= k < |r'.events| ensures Respected(r', hash, k) {
      if k < |r.events| {
        assert Respected(r, hash, k);
      }
    }
  }

  lemma LongerIsRun(r: Run, hash: Group -> HashId, streams: seq<string>, ev: Event, c: Choices, f: Flow,
                    log: seq<Command>)
    requires IsRun(r, hash, streams)
    requires Leads(r.flows[|r.events|], r.logs[|r.events|], hash, streams, ev, c, f, log)
    ensures IsRun(Extended(r, ev, c, f, log), hash, streams)
  {
    var r' := Extended(r, ev, c, f, log);
    forall k | 0 <= k < |r'.events| ensures IsStep(r', hash, streams, k) {
      if k < |r.events| {
        assert IsStep(r, hash, streams, k);
      }
    }
  }

  /** A table with one value has one group. */
  lemma OneValueInjective(key: string, v: Value, hash: Group -> HashId)
    ensures InjectiveOn(map[key := [v]], hash)
  {
    forall g | IsFull(map[key := [v]], g) ensures g == map[key := v] {}
  }
}
