/** A run of the planner in which an ADD_INPUT goes to a worker the task has just left (master/taskMgr.go). */
module LateInputRun {
  import opened Planner
  import opened PlannerProofs
  import opened Relevance
  import opened SingleGroup

  // ----- The four notifications -----


  const ROW := "T-ALL"
  const S := "s"
  const E := "e"
  const D := "d"
  const TASK := "h"
  const W1 := "w1"
  const W2 := "w2"

  const here := Point(0.0, 0.0)
  const there := Point(1.0, 1.0)

  function ByAll(): Selector
  {
    Selector(ROW, All, true)
  }

  function Reg(id: EntityId, p: Point): Registration
  {
    Registration(id, "T", map[LOCATION := PointMetadata(p)])
  }

  function In(id: EntityId, p: Point): Input
  {
    Input(id, "T", p)
  }

  function TheGroup(): Group
  {
    map[ROW := AllValue]
  }

  /** A flow with one selector and, once something is registered, one task. */
  function Fresh(): Flow
  {
    Flow(map[S := Subscription(ByAll(), map[])], map[], map[], map[])
  }

  function Fed(regs: map<EntityId, Registration>, inputs: seq<Input>, w: WorkerId): Flow
  {
    Flow(map[S := Subscription(ByAll(), regs)], map[ROW := [AllValue]], map[TASK := TaskConfig(w, inputs)],
         map[TASK := w])
  }

  function TheHash(): Group -> HashId
  {
    (g: Group) => TASK
  }

  /** An UPDATE of such a flow. */
  lemma FedUpdate(f: Flow, log: seq<Command>, ev: Event, xs: seq<Input>, regs: map<EntityId, Registration>,
                  inputs: seq<Input>, w: WorkerId, w': WorkerId, p: Progress)
    requires ev.sub == S && !ev.isDelete && S in f.subs && f.subs[S].selector == ByAll() && Plans(f, ev)
    requires Recorded(f, S, ev.reg) == Fed(regs, inputs, w)
    requires p == Absorb(Progress(TaskConfig(w, inputs), []), TASK, w, xs, |xs|, false, Selecting(w'))
    ensures Handle(f, log, TheHash(), ["T"], ev, OneGroup(TheGroup(), xs, Selecting(w'), Placing(w')))
            == CarryOut(Fed(regs, inputs, w).(plan := map[TASK := p.task]), log, p.actions, |p.actions|, Placing(w'))
  {
    var f' := Fed(regs, inputs, w);
    UpdateTask(f, f', log, TheHash(), ["T"], ev, TheGroup(), xs, Selecting(w'), Placing(w'), TASK, f'.plan[TASK], w, p,
               f'.(plan := map[TASK := p.task]),
               CarryOut(f'.(plan := map[TASK := p.task]), log, p.actions, |p.actions|, Placing(w')));
  }

  /** Step 1: CREATE e. */
  lemma FirstCreated()
    ensures
      var ev := Event(S, false, Reg(E, here));
      var c := OneGroup(TheGroup(), [In(E, here)], Selecting(W1), Placing(W1));
      && Legal(Fresh(), ev, c)
      && Handle(Fresh(), [], TheHash(), ["T"], ev, c)
         == Outcome(Fed(map[E := Reg(E, here)], [In(E, here)], W1), [Deploy(TASK, W1, [In(E, here)])], false)
  {
    var f, ev, g := Fresh(), Event(S, false, Reg(E, here)), TheGroup();
    var f' := Recorded(f, S, ev.reg);
    assert f' == Flow(map[S := Subscription(ByAll(), map[E := Reg(E, here)])], map[ROW := [AllValue]], map[], map[]);
    assert IsVisitOrder(f', g, [Visit(S, E)]);
    assert [Visit(S, E)][..0] == [];
    assert Collected(f'.subs, [Visit(S, E)]) == [In(E, here)];
    OneGroupLegal(f, ev, g, [Visit(S, E)], Selecting(W1), Placing(W1));
    UpdateOneGroup(f, [], TheHash(), ["T"], ev, g, [In(E, here)], Selecting(W1), Placing(W1));
  }

  lemma BothVisited(f: Flow, p: Point, q: Point)
    requires f.subs == map[S := Subscription(ByAll(), map[E := Reg(E, p), D := Reg(D, q)])]
    ensures IsVisitOrder(f, TheGroup(), [Visit(S, E), Visit(S, D)])
    ensures Collected(f.subs, [Visit(S, E), Visit(S, D)]) == [In(E, p), In(D, q)]
  {
    CollectedTwo(f.subs, Visit(S, E), Visit(S, D));
  }

  lemma Moved(id: EntityId, p: Point, q: Point)
    ensures Updated(Reg(id, p), Reg(id, q)) == Reg(id, q)
  {
    assert map[LOCATION := PointMetadata(p)] + map[LOCATION := PointMetadata(q)] == map[LOCATION := PointMetadata(q)];
  }

  function Both(p: Point): map<EntityId, Registration>
  {
    map[E := Reg(E, p), D := Reg(D, here)]
  }

  /** Meeting e, where it is, and then d, which is new. */
  lemma SecondAbsorbed()
    ensures Absorb(Progress(TaskConfig(W1, [In(E, here)]), []), TASK, W1, [In(E, here), In(D, here)], 2, false,
                   Selecting(W1))
            == Progress(TaskConfig(W1, [In(E, here), In(D, here)]), [AddInput(TASK, W1, In(D, here))])
  {
    var p := Progress(TaskConfig(W1, [In(E, here)]), []);
    AbsorbTwo(p, TASK, W1, In(E, here), In(D, here), Selecting(W1));
    assert AbsorbOne(p, TASK, W1, In(E, here), 0, false, Selecting(W1)) == p;
  }

  lemma SecondRecorded()
    ensures
      var f, ev := Fed(map[E := Reg(E, here)], [In(E, here)], W1), Event(S, false, Reg(D, here));
      && Recorded(f, S, ev.reg) == Fed(Both(here), [In(E, here)], W1) && Plans(f, ev)
      && Legal(f, ev, OneGroup(TheGroup(), [In(E, here), In(D, here)], Selecting(W1), Placing(W1)))
  {
    var f, ev := Fed(map[E := Reg(E, here)], [In(E, here)], W1), Event(S, false, Reg(D, here));
    var f' := Recorded(f, S, ev.reg);
    assert f' == Fed(Both(here), [In(E, here)], W1);
    BothVisited(f', here, here);
    OneGroupLegal(f, ev, TheGroup(), [Visit(S, E), Visit(S, D)], Selecting(W1), Placing(W1));
  }

  /** Step 2: CREATE d, which becomes a second input. */
  lemma SecondCreated(log: seq<Command>)
    ensures
      var f, ev := Fed(map[E := Reg(E, here)], [In(E, here)], W1), Event(S, false, Reg(D, here));
      var c := OneGroup(TheGroup(), [In(E, here), In(D, here)], Selecting(W1), Placing(W1));
      Handle(f, log, TheHash(), ["T"], ev, c)
      == Outcome(Fed(Both(here), [In(E, here), In(D, here)], W1), log + [Feed(TASK, W1, In(D, here))], false)
  {
    var f, ev := Fed(map[E := Reg(E, here)], [In(E, here)], W1), Event(S, false, Reg(D, here));
    SecondRecorded();
    SecondAbsorbed();
    var p := Progress(TaskConfig(W1, [In(E, here), In(D, here)]), [AddInput(TASK, W1, In(D, here))]);
    var d := Fed(Both(here), [In(E, here), In(D, here)], W1);
    FedUpdate(f, log, ev, [In(E, here), In(D, here)], Both(here), [In(E, here)], W1, W1, p);
    assert CarryOut(d, log, p.actions, 0, Placing(W1)) == Outcome(d, log, false);
  }

  lemma DeletePlans()
    ensures
      var f, ev := Fed(Both(here), [In(E, here), In(D, here)], W1), Event(S, true, Reg(D, here));
      f.subs[S].selector == ByAll() && EntityKey(ByAll(), ev.reg) == D && Plans(f, ev)
  {
    assert D in Both(here).Keys;
  }

  lemma DeleteLegal()
    ensures Legal(Fed(Both(here), [In(E, here), In(D, here)], W1), Event(S, true, Reg(D, here)),
                  OneGroup(TheGroup(), [], Selecting(W1), Placing(W1)))
  {
    var f, c := Fed(Both(here), [In(E, here), In(D, here)], W1), OneGroup(TheGroup(), [], Selecting(W1), Placing(W1));
    forall x ensures x in c.groups <==> IsRelevant(f.unique, ByAll(), Reg(D, here), x) {
      OneRelevant(f.unique, ByAll(), Reg(D, here), x);
    }
  }

  /** Step 3: DELETE d, which leaves the task and, as all inputs are available, keeps its registration. */
  lemma SecondDeleted(log: seq<Command>)
    ensures
      var f, ev := Fed(Both(here), [In(E, here), In(D, here)], W1), Event(S, true, Reg(D, here));
      var c := OneGroup(TheGroup(), [], Selecting(W1), Placing(W1));
      Handle(f, log, TheHash(), ["T"], ev, c)
      == Outcome(Fed(Both(here), [In(E, here)], W1), log + [Starve(TASK, W1, D)], false)
  {
    var f, ev := Fed(Both(here), [In(E, here), In(D, here)], W1), Event(S, true, Reg(D, here));
    var c := OneGroup(TheGroup(), [], Selecting(W1), Placing(W1));
    SecondShrunk(f, c);
    DeletePlans();
    var d, acts := f.(plan := map[TASK := TaskConfig(W1, [In(E, here)])]), [RemoveInput(TASK, W1, D)];
    assert Decide(f, TheHash(), ["T"], ev, c) == (d, acts);
    assert CarryOut(d, log, acts, 0, Placing(W1)) == Outcome(d, log, false);
  }

  lemma SecondShrunk(f: Flow, c: Choices)
    requires f == Fed(Both(here), [In(E, here), In(D, here)], W1) && c.groups == [TheGroup()]
    ensures Shrink(f, TheHash(), ["T"], c, D, 1)
            == Expansion(map[TASK := TaskConfig(W1, [In(E, here)])], [RemoveInput(TASK, W1, D)])
  {
    var inputs := [In(E, here), In(D, here)];
    assert inputs[1..] == [In(D, here)] && inputs[1..][1..] == [];
    assert Without(inputs[1..], D) == [];
    assert Without(inputs, D) == [In(E, here)];
    assert [In(E, here)][0].typ == "T";
    assert Shrink(f, TheHash(), ["T"], c, D, 1)
           == ShrinkOne(f, Shrink(f, TheHash(), ["T"], c, D, 0), TASK, ["T"], D);
  }

  /** Meeting e, which has moved, and then d, which is new again. */
  lemma MovedAbsorbed()
    ensures Absorb(Progress(TaskConfig(W1, [In(E, here)]), []), TASK, W1, [In(E, there), In(D, here)], 2, false,
                   Selecting(W2))
            == Progress(TaskConfig(W2, [In(E, there), In(D, here)]),
                        [RemoveTask(TASK, W1), AddTask(TASK, [In(E, there)]), AddInput(TASK, W1, In(D, here))])
  {
    var p := Progress(TaskConfig(W1, [In(E, here)]), []);
    AbsorbTwo(p, TASK, W1, In(E, there), In(D, here), Selecting(W2));
    assert FirstMoved([In(E, here)], In(E, there)) == 0;
    assert [In(E, here)][0 := In(E, there)] == [In(E, there)];
    assert [] + [RemoveTask(TASK, W1)] + [AddTask(TASK, [In(E, there)])]
           == [RemoveTask(TASK, W1), AddTask(TASK, [In(E, there)])];
    var q := AbsorbOne(p, TASK, W1, In(E, there), 0, false, Selecting(W2));
    assert q == Progress(TaskConfig(W2, [In(E, there)]), [RemoveTask(TASK, W1), AddTask(TASK, [In(E, there)])]);
  }

  /** Carrying out the migration and the new input. */
  lemma MovedCarried(d: Flow, log: seq<Command>, acts: seq<Action>)
    requires d == Fed(Both(there), [In(E, there), In(D, here)], W2).(deployed := map[TASK := W1])
    requires acts == [RemoveTask(TASK, W1), AddTask(TASK, [In(E, there)]), AddInput(TASK, W1, In(D, here))]
    ensures CarryOut(d, log, acts, 3, Placing(W2))
            == Outcome(Fed(Both(there), [In(E, there), In(D, here)], W2),
                       log + [Undeploy(TASK, W1), Deploy(TASK, W2, [In(E, there)]), Feed(TASK, W1, In(D, here))], false)
  {
    assert CarryOut(d, log, acts, 1, Placing(W2)) == Outcome(d, log + [Undeploy(TASK, W1)], false);
    assert CarryOut(d, log, acts, 2, Placing(W2))
           == Outcome(Fed(Both(there), [In(E, there), In(D, here)], W2),
                      log + [Undeploy(TASK, W1)] + [Deploy(TASK, W2, [In(E, there)])], false);
  }

  lemma MovedRecorded()
    ensures
      var f, ev := Fed(Both(here), [In(E, here)], W1), Event(S, false, Reg(E, there));
      && Recorded(f, S, ev.reg) == Fed(Both(there), [In(E, here)], W1) && Plans(f, ev)
      && Legal(f, ev, OneGroup(TheGroup(), [In(E, there), In(D, here)], Selecting(W2), Placing(W2)))
  {
    var f, ev := Fed(Both(here), [In(E, here)], W1), Event(S, false, Reg(E, there));
    var f' := Recorded(f, S, ev.reg);
    Moved(E, here, there);
    assert Both(here)[E := Reg(E, there)] == Both(there);
    assert f' == Fed(Both(there), [In(E, here)], W1);
    BothVisited(f', there, here);
    OneGroupLegal(f, ev, TheGroup(), [Visit(S, E), Visit(S, D)], Selecting(W2), Placing(W2));
  }

  /** Step 4: UPDATE e at another place.  The task migrates, and then d is found missing and is added where the
      task was. */
  lemma FirstMovedAway(log: seq<Command>)
    ensures
      var f, ev := Fed(Both(here), [In(E, here)], W1), Event(S, false, Reg(E, there));
      var c := OneGroup(TheGroup(), [In(E, there), In(D, here)], Selecting(W2), Placing(W2));
      Handle(f, log, TheHash(), ["T"], ev, c)
      == Outcome(Fed(Both(there), [In(E, there), In(D, here)], W2),
                 log + [Undeploy(TASK, W1), Deploy(TASK, W2, [In(E, there)]), Feed(TASK, W1, In(D, here))], false)
  {
    var f, ev := Fed(Both(here), [In(E, here)], W1), Event(S, false, Reg(E, there));
    MovedRecorded();
    MovedAbsorbed();
    var acts := [RemoveTask(TASK, W1), AddTask(TASK, [In(E, there)]), AddInput(TASK, W1, In(D, here))];
    var f', t := Fed(Both(there), [In(E, here)], W1), TaskConfig(W2, [In(E, there), In(D, here)]);
    FedUpdate(f, log, ev, [In(E, there), In(D, here)], Both(there), [In(E, here)], W1, W2, Progress(t, acts));
    MovedCarried(f'.(plan := map[TASK := t]), log, acts);
  }

  // ----- The run -----

  function Deployed(): seq<Command>
  {
    [Deploy(TASK, W1, [In(E, here)])]
  }

  function DeployedFed(): seq<Command>
  {
    Deployed() + [Feed(TASK, W1, In(D, here))]
  }

  function DeployedStarved(): seq<Command>
  {
    DeployedFed() + [Starve(TASK, W1, D)]
  }

  function FedLate(): seq<Command>
  {
    DeployedStarved() + [Undeploy(TASK, W1), Deploy(TASK, W2, [In(E, there)]), Feed(TASK, W1, In(D, here))]
  }

  function Before(): Run
  {
    Run([Fresh()], [[]], [], [])
  }

  function After1(): Run
  {
    Extended(Before(), Event(S, false, Reg(E, here)),
             OneGroup(TheGroup(), [In(E, here)], Selecting(W1), Placing(W1)),
             Fed(map[E := Reg(E, here)], [In(E, here)], W1), Deployed())
  }

  function After2(): Run
  {
    Extended(After1(), Event(S, false, Reg(D, here)),
             OneGroup(TheGroup(), [In(E, here), In(D, here)], Selecting(W1), Placing(W1)),
             Fed(Both(here), [In(E, here), In(D, here)], W1), DeployedFed())
  }

  function After3(): Run
  {
    Extended(After2(), Event(S, true, Reg(D, here)), OneGroup(TheGroup(), [], Selecting(W1), Placing(W1)),
             Fed(Both(here), [In(E, here)], W1), DeployedStarved())
  }

  function After4(): Run
  {
    Extended(After3(), Event(S, false, Reg(E, there)),
             OneGroup(TheGroup(), [In(E, there), In(D, here)], Selecting(W2), Placing(W2)),
             Fed(Both(there), [In(E, there), In(D, here)], W2), FedLate())
  }

  lemma Run1()
    ensures RespectfulRun(After1(), TheHash(), ["T"])
  {
    OneValueInjective(ROW, AllValue, TheHash());
    assert RespectfulRun(Before(), TheHash(), ["T"]);
    FirstCreated();
    LongerRun(Before(), TheHash(), ["T"], Event(S, false, Reg(E, here)),
              OneGroup(TheGroup(), [In(E, here)], Selecting(W1), Placing(W1)),
              Fed(map[E := Reg(E, here)], [In(E, here)], W1), Deployed());
  }

  lemma Run2()
    ensures RespectfulRun(After2(), TheHash(), ["T"])
  {
    Run1();
    OneValueInjective(ROW, AllValue, TheHash());
    SecondRecorded();
    SecondCreated(Deployed());
    LongerRun(After1(), TheHash(), ["T"], Event(S, false, Reg(D, here)),
              OneGroup(TheGroup(), [In(E, here), In(D, here)], Selecting(W1), Placing(W1)),
              Fed(Both(here), [In(E, here), In(D, here)], W1), DeployedFed());
  }

  lemma Run3()
    ensures RespectfulRun(After3(), TheHash(), ["T"])
  {
    Run2();
    OneValueInjective(ROW, AllValue, TheHash());
    DeleteLegal();
    SecondDeleted(DeployedFed());
    LongerRun(After2(), TheHash(), ["T"], Event(S, true, Reg(D, here)),
              OneGroup(TheGroup(), [], Selecting(W1), Placing(W1)), Fed(Both(here), [In(E, here)], W1),
              DeployedStarved());
  }

  lemma Run4()
    ensures RespectfulRun(After4(), TheHash(), ["T"])
  {
    Run3();
    OneValueInjective(ROW, AllValue, TheHash());
    MovedRecorded();
    FirstMovedAway(DeployedStarved());
    LongerRun(After3(), TheHash(), ["T"], Event(S, false, Reg(E, there)),
              OneGroup(TheGroup(), [In(E, there), In(D, here)], Selecting(W2), Placing(W2)),
              Fed(Both(there), [In(E, there), In(D, here)], W2), FedLate());
  }

  /** CREATE e, CREATE d, DELETE d, UPDATE e at another place: a run that meets all that the placement theorem asks,
      in which the last notification takes the task from one worker to another and then feeds it at the first. */
  lemma FedAtOldPlace()
    ensures
      var r := After4();
      && RespectfulRun(r, TheHash(), ["T"]) && AllByEntity(r.flows[0]) && NoKeyClash(r.flows[0])
      && |r.events| == 4
      && r.logs[4] == r.logs[3] + [Undeploy(TASK, W1), Deploy(TASK, W2, [In(E, there)]), Feed(TASK, W1, In(D, here))]
      && W1 != W2
  {
    Run4();
  }
}
