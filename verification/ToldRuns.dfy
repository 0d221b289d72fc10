/** What the workers have been told of the inputs of each task (master/taskMgr.go): in every run of the placement
    theorem it is what the execution plan holds. */
module ToldRuns {
  import opened Planner
  import opened PlannerProofs
  import opened PlacementProofs
  import opened Relevance
  import opened InputProofs
  import opened PlacementRuns
  import opened InputRuns

  type Told = map<HashId, set<EntityId>>

  function Ids(inputs: seq<Input>): set<EntityId>
  {
    set x | x in inputs :: x.id
  }

  // ----- Replaying commands and actions -----

  /** The inputs of each task after a command: those it was deployed with, those fed to it, less those taken away. */
  function Tell(told: Told, c: Command): Told
  {
    match c
    case Deploy(h, _, inputs) => told[h := Ids(inputs)]
    case Undeploy(h, _) => told - {h}
    case Feed(h, _, x) => if h in told then told[h := told[h] + {x.id}] else told
    case Starve(h, _, e) => if h in told then told[h := told[h] - {e}] else told
  }

  function TellAll(told: Told, log: seq<Command>): Told
  {
    if log == [] then told else Tell(TellAll(told, log[..|log| - 1]), log[|log| - 1])
  }

  /** The same for the action that the command carries out. */
  function Act(told: Told, a: Action): Told
  {
    match a
    case AddTask(h, inputs) => told[h := Ids(inputs)]
    case RemoveTask(h, _) => told - {h}
    case AddInput(h, _, x) => if h in told then told[h := told[h] + {x.id}] else told
    case RemoveInput(h, _, e) => if h in told then told[h := told[h] - {e}] else told
  }

  function ActAll(told: Told, acts: seq<Action>): Told
  {
    if acts == [] then told else Act(ActAll(told, acts[..|acts| - 1]), acts[|acts| - 1])
  }

  lemma ActAppend(told: Told, acts: seq<Action>, a: Action)
    ensures ActAll(told, acts + [a]) == Act(ActAll(told, acts), a)
  {
    assert (acts + [a])[..|acts|] == acts;
  }

  lemma TellAppend(told: Told, log: seq<Command>, c: Command)
    ensures TellAll(told, log + [c]) == Tell(TellAll(told, log), c)
  {
    assert (log + [c])[..|log|] == log;
  }

  /** Every REMOVE_TASK names a worker, so that it is sent. */
  ghost predicate AllSent(acts: seq<Action>)
  {
    forall i :: 0 <= i < |acts| && acts[i].RemoveTask? ==> acts[i].worker != ""
  }

  lemma {:induction false} CarriedTells(d: Flow, log: seq<Command>, acts: seq<Action>, n: nat, place: Placement)
    requires n <= |acts| && AllSent(acts) && forall i, p :: place(i, p) != ""
    ensures
      var o := CarryOut(d, log, acts, n, place);
      !o.stopped && TellAll(map[], o.log) == ActAll(TellAll(map[], log), acts[..n])
  {
    if n > 0 {
      CarriedTells(d, log, acts, n - 1, place);
      var o := CarryOut(d, log, acts, n - 1, place);
      assert acts[..n] == acts[..n - 1] + [acts[n - 1]];
      ActAppend(TellAll(map[], log), acts[..n - 1], acts[n - 1]);
      OneTold(o, acts[n - 1], n - 1, place);
    } else {
      assert acts[..0] == [];
    }
  }

  lemma OneTold(o: Outcome, a: Action, i: nat, place: Placement)
    requires !o.stopped && (forall j, p :: place(j, p) != "") && (a.RemoveTask? ==> a.worker != "")
    ensures
      var o' := CarryOutOne(o, a, i, place);
      !o'.stopped && TellAll(map[], o'.log) == Act(TellAll(map[], o.log), a)
  {
    match a
    case AddTask(h, inputs) =>
      var w := place(i, if h in o.flow.plan then Locations(o.flow.plan[h].inputs) else []);
      TellAppend(map[], o.log, Deploy(h, w, inputs));
    case RemoveTask(h, w) => TellAppend(map[], o.log, Undeploy(h, w));
    case AddInput(h, w, x) => TellAppend(map[], o.log, Feed(h, w, x));
    case RemoveInput(h, w, e) => TellAppend(map[], o.log, Starve(h, w, e));
  }

  // ----- Plan and actions go together -----

  /** What the plan says the workers are to be told. */
  function Planned(plan: map<HashId, TaskConfig>): Told
  {
    map h | h in plan :: Ids(plan[h].inputs)
  }

  lemma PlannedUpdate(plan: map<HashId, TaskConfig>, h: HashId, t: TaskConfig)
    ensures Planned(plan[h := t]) == Planned(plan)[h := Ids(t.inputs)]
  {
  }

  lemma PlannedRemove(plan: map<HashId, TaskConfig>, h: HashId)
    ensures Planned(plan - {h}) == Planned(plan) - {h}
  {
  }

  lemma IdsAppend(inputs: seq<Input>, x: Input)
    ensures Ids(inputs + [x]) == Ids(inputs) + {x.id}
  {
  }

  lemma IdsMoved(inputs: seq<Input>, k: nat, p: Point)
    requires k < |inputs|
    ensures Ids(inputs[k := inputs[k].(location := p)]) == Ids(inputs)
  {
    var moved := inputs[k := inputs[k].(location := p)];
    forall e ensures e in Ids(moved) <==> e in Ids(inputs) {
      if x :| x in inputs && x.id == e {
        var i :| 0 <= i < |inputs| && inputs[i] == x;
        assert moved[i].id == e && moved[i] in moved;
      }
      if x :| x in moved && x.id == e {
        var i :| 0 <= i < |moved| && moved[i] == x;
        assert inputs[i].id == e && inputs[i] in inputs;
      }
    }
  }

  /** The task is told what it has. */
  ghost predicate ToldTask(start: Told, p: Progress, h: HashId, others: Told)
  {
    ActAll(start, p.actions) == others[h := Ids(p.task.inputs)]
  }

  lemma ToldInput(start: Told, acts: seq<Action>, h: HashId, host: WorkerId, inputs: seq<Input>, x: Input,
                  others: Told)
    requires ActAll(start, acts) == others[h := Ids(inputs)]
    ensures ActAll(start, acts + [AddInput(h, host, x)]) == others[h := Ids(inputs + [x])]
  {
    IdsAppend(inputs, x);
    ActAppend(start, acts, AddInput(h, host, x));
    assert others[h := Ids(inputs)][h := Ids(inputs + [x])] == others[h := Ids(inputs + [x])];
  }

  lemma ToldMigration(start: Told, acts: seq<Action>, h: HashId, host: WorkerId, inputs: seq<Input>, others: Told,
                      remove: bool)
    requires ActAll(start, acts) == others[h := Ids(inputs)]
    ensures ActAll(start, acts + (if remove then [RemoveTask(h, host)] else []) + [AddTask(h, inputs)])
            == others[h := Ids(inputs)]
  {
    var mid := acts + (if remove then [RemoveTask(h, host)] else []);
    if remove {
      ActAppend(start, acts, RemoveTask(h, host));
    } else {
      assert mid == acts;
    }
    ActAppend(start, mid, AddTask(h, inputs));
    assert ActAll(start, mid)[h := Ids(inputs)] == others[h := Ids(inputs)];
  }

  lemma AbsorbOneTold(start: Told, p: Progress, h: HashId, host: WorkerId, x: Input, j: nat, byType: bool,
                      select: Selection, others: Told)
    requires ToldTask(start, p, h, others)
    ensures ToldTask(start, AbsorbOne(p, h, host, x, j, byType, select), h, others)
  {
    var inputs, k := p.task.inputs, FirstMoved(p.task.inputs, x);
    if IsNewInput(inputs, x, byType) {
      ToldInput(start, p.actions, h, host, inputs, x, others);
      assert AbsorbOne(p, h, host, x, j, byType, select)
             == Progress(p.task.(inputs := inputs + [x]), p.actions + [AddInput(h, host, x)]);
    } else if k < |inputs| {
      var moved := inputs[k := inputs[k].(location := x.location)];
      IdsMoved(inputs, k, x.location);
      ToldMigration(start, p.actions, h, host, moved, others, p.task.worker != "");
      var w := select(h, j, Locations(moved));
      assert AbsorbOne(p, h, host, x, j, byType, select)
             == if w == p.task.worker then Progress(TaskConfig(w, moved), p.actions)
                else Progress(TaskConfig(w, moved),
                              p.actions + (if p.task.worker != "" then [RemoveTask(h, host)] else [])
                              + [AddTask(h, moved)]);
    } else {
      assert AbsorbOne(p, h, host, x, j, byType, select) == p;
    }
  }

  lemma AbsorbTold(start: Told, p: Progress, h: HashId, host: WorkerId, xs: seq<Input>, byType: bool, select: Selection,
                   others: Told)
    requires ToldTask(start, p, h, others)
    ensures ToldTask(start, Absorb(p, h, host, xs, |xs|, byType, select), h, others)
  {
    var keeps := (n: nat, q: Progress) => ToldTask(start, q, h, others);
    forall i, q | 0 <= i < |xs| && keeps(i, q) ensures keeps(i + 1, AbsorbOne(q, h, host, xs[i], i, byType, select)) {
      AbsorbOneTold(start, q, h, host, xs[i], i, byType, select, others);
    }
    AbsorbInduction(keeps, p, h, host, xs, |xs|, byType, select);
    assert keeps(|xs|, Absorb(p, h, host, xs, |xs|, byType, select));
  }

  lemma {:induction false} ExpandTold(f: Flow, hash: Group -> HashId, c: Choices, byType: bool, n: nat)
    requires n <= |c.groups|
    ensures
      var x := Expand(f, hash, c, byType, n);
      ActAll(Planned(f.plan), x.actions) == Planned(x.plan)
  {
    if n > 0 {
      ExpandTold(f, hash, c, byType, n - 1);
      ExpandOneTold(f, Planned(f.plan), Expand(f, hash, c, byType, n - 1), hash(c.groups[n - 1]),
                    c.Found(c.groups[n - 1]), byType, c.select);
    }
  }

  lemma ExpandOneTold(f: Flow, start: Told, prev: Expansion, h: HashId, xs: seq<Input>, byType: bool, select: Selection)
    requires ActAll(start, prev.actions) == Planned(prev.plan)
    ensures
      var x := ExpandOne(f, prev, h, xs, byType, select);
      ActAll(start, x.actions) == Planned(x.plan)
  {
    if h in prev.plan {
      var p := Progress(prev.plan[h], prev.actions);
      assert Planned(prev.plan) == Planned(prev.plan)[h := Ids(p.task.inputs)];
      AbsorbTold(start, p, h, Host(f, h), xs, byType, select, Planned(prev.plan));
      var q := Absorb(p, h, Host(f, h), xs, |xs|, byType, select);
      PlannedUpdate(prev.plan, h, q.task);
    } else {
      ActAppend(start, prev.actions, AddTask(h, xs));
      PlannedUpdate(prev.plan, h, TaskConfig("", xs));
    }
  }

  lemma {:induction false} IdsWithout(inputs: seq<Input>, e: EntityId)
    ensures Ids(Without(inputs, e)) == Ids(inputs) - {e}
  {
    if inputs != [] {
      IdsWithout(inputs[1..], e);
      assert inputs == [inputs[0]] + inputs[1..];
      assert Ids(inputs) == {inputs[0].id} + Ids(inputs[1..]);
      var rest := Without(inputs[1..], e);
      assert Ids([inputs[0]] + rest) == {inputs[0].id} + Ids(rest);
    }
  }

  lemma {:induction false} ShrinkTold(f: Flow, hash: Group -> HashId, streams: seq<string>, c: Choices, e: EntityId,
                                      n: nat)
    requires n <= |c.groups| && Settled(f)
    ensures
      var x := Shrink(f, hash, streams, c, e, n);
      ActAll(Planned(f.plan), x.actions) == Planned(x.plan)
  {
    if n > 0 {
      ShrinkTold(f, hash, streams, c, e, n - 1);
      ShrinkSound(f, hash, streams, c, e, n - 1);
      var prev, h := Shrink(f, hash, streams, c, e, n - 1), hash(c.groups[n - 1]);
      if h in prev.plan {
        assert TaskShrunk(f, prev, h) && TaskSettled(f, h);
        ShrinkOneTold(f, Planned(f.plan), prev, h, streams, e);
      }
    }
  }

  lemma ShrinkOneTold(f: Flow, start: Told, prev: Expansion, h: HashId, streams: seq<string>, e: EntityId)
    requires ActAll(start, prev.actions) == Planned(prev.plan) && h in prev.plan && h in f.deployed
    ensures
      var x := ShrinkOne(f, prev, h, streams, e);
      ActAll(start, x.actions) == Planned(x.plan)
  {
    var inputs := Without(prev.plan[h].inputs, e);
    IdsWithout(prev.plan[h].inputs, e);
    if HasAllStreams(inputs, streams) {
      ActAppend(start, prev.actions, RemoveInput(h, Host(f, h), e));
      PlannedUpdate(prev.plan, h, prev.plan[h].(inputs := inputs));
    } else {
      ActAppend(start, prev.actions, RemoveTask(h, f.deployed[h]));
      PlannedRemove(prev.plan, h);
    }
  }

  // ----- Runs -----

  lemma {:induction false} SoundIsSent(acts: seq<Action>, live: map<HashId, WorkerId>)
    requires Sound(acts, live) && forall h :: h in live ==> live[h] != ""
    ensures AllSent(acts)
  {
    if acts != [] {
      SoundIsSent(acts[..|acts| - 1], live);
    }
  }

  lemma DecidedTold(f: Flow, hash: Group -> HashId, streams: seq<string>, ev: Event, c: Choices)
    requires Settled(f)
    ensures
      var (d, acts) := Decide(f, hash, streams, ev, c);
      ActAll(Planned(f.plan), acts) == Planned(d.plan)
  {
    if ev.sub in f.subs && Plans(f, ev) {
      var s := f.subs[ev.sub].selector;
      if ev.isDelete {
        ShrinkTold(f, hash, streams, c, EntityKey(s, ev.reg), |c.groups|);
      } else {
        ExpandTold(Recorded(f, ev.sub, ev.reg), hash, c, IsSimpleByType(s), |c.groups|);
      }
    }
  }

  lemma CarriedPlanned(d: Flow, log: seq<Command>, acts: seq<Action>, place: Placement)
    ensures Planned(CarryOut(d, log, acts, |acts|, place).flow.plan) == Planned(d.plan)
  {
    CarryOutFrame(d, log, acts, |acts|, place);
  }

  lemma HandleTold(f: Flow, log: seq<Command>, hash: Group -> HashId, streams: seq<string>, ev: Event, c: Choices)
    requires Orderly(f, log, hash) && OwnEntity(f, ev) && AlwaysFinds(c) && (ev.sub in f.subs ==> Legal(f, ev, c))
    requires InjectiveOn(Handle(f, log, hash, streams, ev, c).flow.unique, hash)
    requires TellAll(map[], log) == Planned(f.plan)
    ensures
      var o := Handle(f, log, hash, streams, ev, c);
      TellAll(map[], o.log) == Planned(o.flow.plan)
  {
    var (d, acts) := Decide(f, hash, streams, ev, c);
    CarryOutKeeps(d, log, acts, |acts|, c.place);
    DecidedNamed(f, log, hash, streams, ev, c);
    forall h | h in Live(f) ensures Live(f)[h] != "" {
      assert TaskSettled(f, h);
    }
    SoundIsSent(acts, Live(f));
    DecidedTold(f, hash, streams, ev, c);
    CarriedTells(d, log, acts, |acts|, c.place);
    assert acts[..|acts|] == acts;
    CarriedPlanned(d, log, acts, c.place);
  }

  /** In every run of the placement theorem, deletions included: replaying the commands, each live task has been told
      of exactly the inputs that it has in the execution plan. */
  lemma {:induction false} RunTold(r: Run, hash: Group -> HashId, streams: seq<string>, n: nat)
    requires IsRun(r, hash, streams) && n <= |r.events|
    requires AllByEntity(r.flows[0]) && NoKeyClash(r.flows[0])
    requires forall k :: 0 <= k < |r.events| ==> Respected(r, hash, k)
    ensures TellAll(map[], r.logs[n]) == Planned(r.flows[n].plan)
  {
    if n > 0 {
      RunTold(r, hash, streams, n - 1);
      RunOrderly(r, hash, streams, n - 1);
      assert IsStep(r, hash, streams, n - 1) && Respected(r, hash, n - 1);
      HandleTold(r.flows[n - 1], r.logs[n - 1], hash, streams, r.events[n - 1], r.choices[n - 1]);
    }
  }
}
