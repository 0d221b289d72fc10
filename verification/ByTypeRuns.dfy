/** Flows whose selectors are all by type alone (master/taskMgr.go): each keeps the first registration it is told of,
    and a task has one input for each. */
module ByTypeRuns {
  import opened Listings
  import opened Planner
  import opened PlannerProofs
  import opened InputProofs
  import opened PlacementProofs
  import opened Relevance
  import opened TableRuns
  import opened QuietRuns

  ghost predicate AllByType(f: Flow)
  {
    forall s :: s in f.subs ==> IsSimpleByType(f.subs[s].selector)
  }

  /** The only registration of a subscription is filed under "*", and it has a type. */
  ghost predicate KeepsFirst(f: Flow)
  {
    forall s, e :: s in f.subs && e in f.subs[s].regs ==> e == ANY && f.subs[s].regs[e].typ != ""
  }

  // ----- The inputs of a task -----

  predicate HasTyp(inputs: seq<Input>, t: string)
  {
    exists i :: 0 <= i < |inputs| && inputs[i].typ == t
  }

  /** The input stands where the registration of `s` is. */
  ghost predicate PlaceOf(f: Flow, s: SubId, x: Input)
  {
    s in f.subs && ANY in f.subs[s].regs && x.location == GetLocation(f.subs[s].regs[ANY])
  }

  /** Every type the group lets through has an input, and every input is without id and at the place of some
      registration. */
  ghost predicate TypedInputs(f: Flow, g: Group, inputs: seq<Input>)
  {
    && (forall s {:trigger Yields(f, g, s, ANY)} ::
          Yields(f, g, s, ANY) ==> HasTyp(inputs, f.subs[s].regs[ANY].typ))
    && (forall x :: x in inputs ==> x.id == "" && exists s :: PlaceOf(f, s, x))
  }

  ghost predicate AllTyped(f: Flow, hash: Group -> HashId)
  {
    forall g :: IsFull(f.unique, g) && hash(g) in f.plan ==> TypedInputs(f, g, f.plan[hash(g)].inputs)
  }

  lemma ListedHasPlace(f: Flow, g: Group, xs: seq<Input>, x: Input)
    requires AllByType(f) && KeepsFirst(f) && ListsRelevant(f, g, xs) && x in xs
    ensures x.id == "" && x.typ != "" && exists s :: PlaceOf(f, s, x)
  {
    ListedIsRelevant(f, g, xs, x);
    var s, e :| Yields(f, g, s, e) && x == InputOf(f.subs[s].selector, f.subs[s].regs[e]);
    assert PlaceOf(f, s, x);
  }

  /** With every registration typed, nothing the group lets through is left out. */
  lemma ListedTyped(f: Flow, g: Group, xs: seq<Input>)
    requires AllByType(f) && KeepsFirst(f) && ListsRelevant(f, g, xs)
    ensures TypedInputs(f, g, xs)
  {
    forall x | x in xs ensures x.id == "" && x.typ != "" && exists s :: PlaceOf(f, s, x) {
      ListedHasPlace(f, g, xs, x);
    }
    assert !HasUntyped(xs) by {
      assert forall i :: 0 <= i < |xs| ==> xs[i] in xs;
    }
    var order: seq<Visit> :| IsVisitOrder(f, g, order) && xs == Collected(f.subs, order);
    forall s | Yields(f, g, s, ANY) ensures HasTyp(xs, f.subs[s].regs[ANY].typ) {
      assert Visit(s, ANY) in order;
      CollectedAll(f.subs, order, Visit(s, ANY));
      var i :| 0 <= i < |xs| && xs[i] == VisitInput(f.subs, Visit(s, ANY));
    }
  }

  lemma TypedAppend(f: Flow, g: Group, inputs: seq<Input>, x: Input)
    requires TypedInputs(f, g, inputs) && x.id == "" && exists s :: PlaceOf(f, s, x)
    ensures TypedInputs(f, g, inputs + [x])
  {
    var after := inputs + [x];
    forall s | Yields(f, g, s, ANY) ensures HasTyp(after, f.subs[s].regs[ANY].typ) {
      var i :| 0 <= i < |inputs| && inputs[i].typ == f.subs[s].regs[ANY].typ;
      assert after[i].typ == inputs[i].typ;
    }
  }

  lemma TypedMoved(f: Flow, g: Group, inputs: seq<Input>, k: nat, x: Input)
    requires k < |inputs| && TypedInputs(f, g, inputs) && exists s :: PlaceOf(f, s, x)
    ensures TypedInputs(f, g, inputs[k := inputs[k].(location := x.location)])
  {
    var moved := inputs[k].(location := x.location);
    var after := inputs[k := moved];
    var t :| PlaceOf(f, t, x);
    assert PlaceOf(f, t, moved);
    assert inputs[k] in inputs;
    forall y | y in after ensures y.id == "" && exists s :: PlaceOf(f, s, y) {
      assert y == moved || y in inputs;
    }
    forall s | Yields(f, g, s, ANY) ensures HasTyp(after, f.subs[s].regs[ANY].typ) {
      var i :| 0 <= i < |inputs| && inputs[i].typ == f.subs[s].regs[ANY].typ;
      assert after[i].typ == inputs[i].typ;
    }
  }

  lemma AbsorbOneTyped(f: Flow, g: Group, p: Progress, h: HashId, host: WorkerId, x: Input, j: nat, select: Selection)
    requires TypedInputs(f, g, p.task.inputs) && x.id == "" && exists s :: PlaceOf(f, s, x)
    ensures TypedInputs(f, g, AbsorbOne(p, h, host, x, j, true, select).task.inputs)
  {
    var inputs := p.task.inputs;
    if IsNewInput(inputs, x, true) {
      TypedAppend(f, g, inputs, x);
    } else if FirstMoved(inputs, x) < |inputs| {
      TypedMoved(f, g, inputs, FirstMoved(inputs, x), x);
    }
  }

  lemma AbsorbTyped(f: Flow, g: Group, p: Progress, h: HashId, host: WorkerId, xs: seq<Input>, select: Selection)
    requires AllByType(f) && KeepsFirst(f) && ListsRelevant(f, g, xs) && TypedInputs(f, g, p.task.inputs)
    ensures TypedInputs(f, g, Absorb(p, h, host, xs, |xs|, true, select).task.inputs)
  {
    var keeps := (n: nat, q: Progress) => TypedInputs(f, g, q.task.inputs);
    forall i, q | 0 <= i < |xs| && keeps(i, q) ensures keeps(i + 1, AbsorbOne(q, h, host, xs[i], i, true, select)) {
      ListedHasPlace(f, g, xs, xs[i]);
      AbsorbOneTyped(f, g, q, h, host, xs[i], i, select);
    }
    AbsorbInduction(keeps, p, h, host, xs, |xs|, true, select);
    assert keeps(|xs|, Absorb(p, h, host, xs, |xs|, true, select));
  }

  // ----- One notification -----

  /** What a flow of such selectors keeps. */
  ghost predicate Tidy(f: Flow, hash: Group -> HashId)
  {
    AllByType(f) && KeepsFirst(f) && OnTable(f, hash) && AllTyped(f, hash)
  }

  /** A subscription that has its registration ignores any other. */
  lemma RecordedNothing(f: Flow, s: SubId, reg: Registration)
    requires AllByType(f) && KeepsFirst(f) && TableListed(f) && s in f.subs && f.subs[s].regs.Keys != {}
    ensures Recorded(f, s, reg) == f
  {
    var sub := f.subs[s];
    assert (forall e :: e !in sub.regs.Keys) ==> sub.regs.Keys == {};
    var e :| e in sub.regs.Keys;
    assert e == ANY && Received(sub, reg) == sub;
    assert RowListed(sub, f.unique);
    assert f.subs[s := sub] == f.subs;
    assert Tabulated(f.unique, sub.selector, sub.regs[ANY]) == f.unique;
  }

  lemma RecordedTidy(f: Flow, hash: Group -> HashId, s: SubId, reg: Registration)
    requires Tidy(f, hash) && s in f.subs && reg.typ != ""
    ensures
      var f' := Recorded(f, s, reg);
      && AllByType(f') && KeepsFirst(f') && OnTable(f', hash)
      && (f' == f || f'.plan.Keys == {})
  {
    RecordedOnTable(f, hash, s, reg);
    if f.subs[s].regs.Keys != {} {
      RecordedNothing(f, s, reg);
    } else {
      assert !Available(f);
    }
  }

  lemma ExpandTyped(f: Flow, hash: Group -> HashId, s: SubId, c: Choices)
    requires Tidy(f, hash) && s in f.subs && ANY in f.subs[s].regs && InjectiveOn(f.unique, hash) && Distinct(c.groups)
    requires forall g :: g in c.groups <==> IsRelevant(f.unique, f.subs[s].selector, f.subs[s].regs[ANY], g)
    requires forall g :: g in c.groups ==> ListsRelevant(f, g, c.Found(g))
    ensures AllTyped(f.(plan := Expand(f, hash, c, true, |c.groups|).plan), hash)
  {
    var wanted := (g: Group, inputs: seq<Input>) => TypedInputs(f, g, inputs);
    forall g | g in c.groups ensures IsFull(f.unique, g) {
      RelevantIsFull(f, s, ANY, g);
    }
    HashesDiffer(f.unique, hash, c.groups);
    forall i | 0 <= i < |c.groups|
      ensures WantedAfter(f, hash(c.groups[i]), c.groups[i], c.Found(c.groups[i]), true, c.select, wanted)
    {
      assert c.groups[i] in c.groups;
      GroupTyped(f, hash, c.groups[i], c, wanted);
    }
    ExpandGroups(f, hash, c, true, |c.groups|, wanted);
    var plan := Expand(f, hash, c, true, |c.groups|).plan;
    forall g | IsFull(f.unique, g) && hash(g) in plan ensures TypedInputs(f, g, plan[hash(g)].inputs) {
      if IsHashOf(c.groups, |c.groups|, hash, hash(g)) {
        var i :| 0 <= i < |c.groups| && hash(c.groups[i]) == hash(g);
        assert c.groups[i] in c.groups && c.groups[i] == g;
        assert PlannedAs(plan, hash(c.groups[i]), c.groups[i], wanted);
      }
    }
    SameSubsTyped(f, f.(plan := plan), hash);
  }

  lemma GroupTyped(f: Flow, hash: Group -> HashId, g: Group, c: Choices, wanted: (Group, seq<Input>) -> bool)
    requires Tidy(f, hash) && IsFull(f.unique, g) && ListsRelevant(f, g, c.Found(g))
    requires forall inputs :: wanted(g, inputs) <==> TypedInputs(f, g, inputs)
    ensures WantedAfter(f, hash(g), g, c.Found(g), true, c.select, wanted)
  {
    ListedTyped(f, g, c.Found(g));
    if hash(g) in f.plan {
      forall acts: seq<Action> {
        AbsorbTyped(f, g, Progress(f.plan[hash(g)], acts), hash(g), Host(f, hash(g)), c.Found(g), c.select);
      }
    }
  }

  lemma SameSubsTyped(f: Flow, d: Flow, hash: Group -> HashId)
    requires d.subs == f.subs && d.unique == f.unique
    requires forall g :: IsFull(f.unique, g) && hash(g) in d.plan ==> TypedInputs(f, g, d.plan[hash(g)].inputs)
    ensures AllTyped(d, hash)
  {
    forall g | IsFull(d.unique, g) && hash(g) in d.plan ensures TypedInputs(d, g, d.plan[hash(g)].inputs) {
      assert TypedInputs(f, g, d.plan[hash(g)].inputs);
      forall s, e ensures Yields(d, g, s, e) <==> Yields(f, g, s, e) {}
      forall s, x ensures PlaceOf(d, s, x) <==> PlaceOf(f, s, x) {}
    }
  }

  lemma CarriedTyped(d: Flow, log: seq<Command>, acts: seq<Action>, hash: Group -> HashId, place: Placement)
    requires AllTyped(d, hash)
    ensures AllTyped(CarryOut(d, log, acts, |acts|, place).flow, hash)
  {
    var o := CarryOut(d, log, acts, |acts|, place).flow;
    CarryOutFrame(d, log, acts, |acts|, place);
    forall g | IsFull(o.unique, g) && hash(g) in o.plan ensures TypedInputs(d, g, o.plan[hash(g)].inputs) {
      assert TypedInputs(d, g, d.plan[hash(g)].inputs);
    }
    SameSubsTyped(d, o, hash);
  }

  lemma DecideTyped(f: Flow, hash: Group -> HashId, streams: seq<string>, ev: Event, c: Choices)
    requires Tidy(f, hash) && !ev.isDelete && ev.sub in f.subs && ev.reg.typ != "" && Legal(f, ev, c)
    requires InjectiveOn(Recorded(f, ev.sub, ev.reg).unique, hash)
    ensures
      var d := Decide(f, hash, streams, ev, c).0;
      AllByType(d) && KeepsFirst(d) && AllTyped(d, hash)
  {
    var f' := Recorded(f, ev.sub, ev.reg);
    RecordedTidy(f, hash, ev.sub, ev.reg);
    assert AllTyped(f', hash);
    if Plans(f, ev) {
      ExpandTyped(f', hash, ev.sub, c);
    }
  }

  lemma HandleTidy(f: Flow, log: seq<Command>, hash: Group -> HashId, streams: seq<string>, ev: Event, c: Choices)
    requires Tidy(f, hash) && !ev.isDelete && ev.reg.typ != "" && (ev.sub in f.subs ==> Legal(f, ev, c))
    requires InjectiveOn(Handle(f, log, hash, streams, ev, c).flow.unique, hash)
    ensures Tidy(Handle(f, log, hash, streams, ev, c).flow, hash)
  {
    var (d, acts) := Decide(f, hash, streams, ev, c);
    CarryOutKeeps(d, log, acts, |acts|, c.place);
    HandleOnTable(f, log, hash, streams, ev, c);
    if ev.sub in f.subs {
      DecideTyped(f, hash, streams, ev, c);
    }
    CarriedTyped(d, log, acts, hash, c.place);
  }

  // ----- Runs -----

  /** CREATE and UPDATE notifications of typed registrations, with distinct groups hashing differently. */
  ghost predicate TypedRun(r: Run, hash: Group -> HashId, streams: seq<string>)
  {
    && IsRun(r, hash, streams) && AllByType(r.flows[0]) && NoKeyClash(r.flows[0])
    && forall k :: 0 <= k < |r.events| ==>
         !r.events[k].isDelete && r.events[k].reg.typ != "" && InjectiveOn(r.flows[k + 1].unique, hash)
  }

  lemma {:induction false} RunTidy(r: Run, hash: Group -> HashId, streams: seq<string>, n: nat)
    requires TypedRun(r, hash, streams) && n <= |r.events|
    ensures Tidy(r.flows[n], hash)
  {
    if n == 0 {
      RunOnTable(r, hash, streams, 0);
    } else {
      RunTidy(r, hash, streams, n - 1);
      assert IsStep(r, hash, streams, n - 1);
      HandleTidy(r.flows[n - 1], r.logs[n - 1], hash, streams, r.events[n - 1], r.choices[n - 1]);
    }
  }

  /** All registrations kept are at one place. */
  ghost predicate SamePlace(f: Flow)
  {
    forall s, t :: s in f.subs && t in f.subs && ANY in f.subs[s].regs && ANY in f.subs[t].regs
                   ==> GetLocation(f.subs[s].regs[ANY]) == GetLocation(f.subs[t].regs[ANY])
  }

  lemma TypeGroupQuiet(f: Flow, hash: Group -> HashId, g: Group, xs: seq<Input>)
    requires Tidy(f, hash) && SamePlace(f) && IsFull(f.unique, g) && hash(g) in f.plan && ListsRelevant(f, g, xs)
    ensures GroupQuiet(f, hash(g), xs, true)
  {
    var inputs := f.plan[hash(g)].inputs;
    assert TypedInputs(f, g, inputs);
    forall i | 0 <= i < |xs| ensures InPlace(inputs, xs[i], true) {
      ListedIsRelevant(f, g, xs, xs[i]);
      var s, e :| Yields(f, g, s, e) && xs[i] == InputOf(f.subs[s].selector, f.subs[s].regs[e]);
      assert e == ANY && HasTyp(inputs, xs[i].typ);
      var j :| 0 <= j < |inputs| && inputs[j].typ == xs[i].typ;
      assert KeyOf(inputs[j], true) == xs[i].typ;
      forall k | 0 <= k < |inputs| ensures inputs[k].location == xs[i].location {
        assert inputs[k] in inputs;
        var t :| PlaceOf(f, t, inputs[k]);
      }
    }
  }

  /** In every run of typed CREATE and UPDATE notifications to selectors by type alone: once every subscription has a
      registration and these are at one place, no further notification for planned groups issues an action or changes
      anything. */
  lemma RunByTypeIsQuiet(r: Run, hash: Group -> HashId, streams: seq<string>, n: nat, ev: Event, c: Choices)
    requires TypedRun(r, hash, streams) && n <= |r.events| && Available(r.flows[n]) && SamePlace(r.flows[n])
    requires ev.sub in r.flows[n].subs && !ev.isDelete && Legal(r.flows[n], ev, c)
    requires forall g :: g in c.groups ==> hash(g) in r.flows[n].plan
    ensures IsQuiet(r.flows[n], r.logs[n], hash, streams, ev, c)
  {
    var f := r.flows[n];
    RunTidy(r, hash, streams, n);
    RecordedNothing(f, ev.sub, ev.reg);
    if Plans(f, ev) {
      forall i | 0 <= i < |c.groups| ensures GroupQuiet(f, hash(c.groups[i]), c.Found(c.groups[i]), true) {
        assert c.groups[i] in c.groups;
        RelevantIsFull(f, ev.sub, ANY, c.groups[i]);
        TypeGroupQuiet(f, hash, c.groups[i], c.Found(c.groups[i]));
      }
    }
    QuietDecision(f, r.logs[n], hash, streams, ev, c);
  }
}
