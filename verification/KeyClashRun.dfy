/** A run of the planner in which a selector by "ALL" shares its row with one by metadata, and a task is removed from
    a worker it is not on (master/taskMgr.go). */
module KeyClashRun {
  import opened Wrappers
  import opened Planner
  import opened PlannerProofs
  import opened PlacementProofs
  import opened Relevance
  import opened PlacementRuns
  import opened SingleGroup

  // ----- The two selectors and their entities -----

  /** The row of type "X-Y" by "ALL" and of type "X" by metadata "Y-ALL". */
  const ROW := "X-Y-ALL"
  const MARK := "Y-ALL"

  const SA := "sa"
  const SB := "sb"
  const A := "a"
  const B := "b"
  const HA := "all"
  const HB := "other"
  const W1 := "w1"
  const W2 := "w2"
  const W3 := "w3"

  const here := Point(0.0, 0.0)
  const there := Point(1.0, 1.0)

  function ByAll(): Selector
  {
    Selector(ROW, All, true)
  }

  function ByMark(): Selector
  {
    Selector(ROW, ByMetadata(MARK), true)
  }

  function RegA(p: Point): Registration
  {
    Registration(A, "X-Y", map[LOCATION := PointMetadata(p)])
  }

  function RegB(p: Point): Registration
  {
    Registration(B, "X", map[MARK := OtherMetadata("string", "1"), LOCATION := PointMetadata(p)])
  }

  function InA(p: Point): Input
  {
    Input(A, "X-Y", p)
  }

  function InB(p: Point): Input
  {
    Input(B, "X", p)
  }

  function Mark(): Value
  {
    Meta(Some(OtherMetadata("string", "1")))
  }

  function GroupA(): Group
  {
    map[ROW := AllValue]
  }

  function GroupB(): Group
  {
    map[ROW := Mark()]
  }

  function TheHash(): Group -> HashId
  {
    (g: Group) => if ROW in g && g[ROW] == AllValue then HA else HB
  }

  function Subs(ra: map<EntityId, Registration>, rb: map<EntityId, Registration>): map<SubId, Subscription>
  {
    map[SA := Subscription(ByAll(), ra), SB := Subscription(ByMark(), rb)]
  }

  function Fresh(): Flow
  {
    Flow(Subs(map[], map[]), map[], map[], map[])
  }

  function Known(ra: map<EntityId, Registration>, p: Point, plan: map<HashId, TaskConfig>,
                 deployed: map<HashId, WorkerId>): Flow
  {
    Flow(Subs(ra, map[B := RegB(p)]), map[ROW := [Mark()]], plan, deployed)
  }

  lemma MovedA(p: Point, q: Point)
    ensures Updated(RegA(p), RegA(q)) == RegA(q)
  {
    assert map[LOCATION := PointMetadata(p)] + map[LOCATION := PointMetadata(q)] == map[LOCATION := PointMetadata(q)];
  }

  lemma MovedB(p: Point, q: Point)
    ensures Updated(RegB(p), RegB(q)) == RegB(q)
  {
    assert RegB(p).metadata + RegB(q).metadata == RegB(q).metadata;
  }

  /** A registration of a leaves the row as it is. */
  lemma RecordedA(ra: map<EntityId, Registration>, q: Point, p: Point, plan: map<HashId, TaskConfig>,
                  deployed: map<HashId, WorkerId>)
    requires ra == map[] || exists o :: ra == map[A := RegA(o)]
    ensures
      var f, ev := Known(ra, p, plan, deployed), Event(SA, false, RegA(q));
      Recorded(f, SA, ev.reg) == Known(map[A := RegA(q)], p, plan, deployed) && Plans(f, ev)
  {
    var f, ev := Known(ra, p, plan, deployed), Event(SA, false, RegA(q));
    if ra != map[] {
      var o :| ra == map[A := RegA(o)];
      MovedA(o, q);
    }
    assert Received(f.subs[SA], ev.reg) == Subscription(ByAll(), map[A := RegA(q)]);
    assert Recorded(f, SA, ev.reg).subs == Subs(map[A := RegA(q)], map[B := RegB(p)]);
    BothThere(map[A := RegA(q)], p, plan, deployed);
  }

  lemma RecordedB(o: Point, p: Point, q: Point, plan: map<HashId, TaskConfig>, deployed: map<HashId, WorkerId>)
    ensures
      var f, ev := Known(map[A := RegA(o)], p, plan, deployed), Event(SB, false, RegB(q));
      Recorded(f, SB, ev.reg) == Known(map[A := RegA(o)], q, plan, deployed) && Plans(f, ev)
  {
    var f, ev := Known(map[A := RegA(o)], p, plan, deployed), Event(SB, false, RegB(q));
    MovedB(p, q);
    assert Received(f.subs[SB], ev.reg) == Subscription(ByMark(), map[B := RegB(q)]);
    assert Recorded(f, SB, ev.reg).subs == Subs(map[A := RegA(o)], map[B := RegB(q)]);
    BothThere(map[A := RegA(o)], q, plan, deployed);
  }

  lemma BothThere(ra: map<EntityId, Registration>, p: Point, plan: map<HashId, TaskConfig>,
                  deployed: map<HashId, WorkerId>)
    requires A in ra
    ensures Available(Known(ra, p, plan, deployed))
  {
    assert A in ra.Keys && B in map[B := RegB(p)].Keys;
  }

  /** The group "ALL" reaches a alone, and the other group both. */
  lemma VisitedA(f: Flow, p: Point, q: Point)
    requires f.subs == Subs(map[A := RegA(p)], map[B := RegB(q)])
    ensures IsVisitOrder(f, GroupA(), [Visit(SA, A)]) && Collected(f.subs, [Visit(SA, A)]) == [InA(p)]
  {
    assert [Visit(SA, A)][..0] == [];
  }

  lemma VisitedB(f: Flow, p: Point, q: Point)
    requires f.subs == Subs(map[A := RegA(p)], map[B := RegB(q)])
    ensures IsVisitOrder(f, GroupB(), [Visit(SA, A), Visit(SB, B)])
    ensures Collected(f.subs, [Visit(SA, A), Visit(SB, B)]) == [InA(p), InB(q)]
  {
    CollectedTwo(f.subs, Visit(SA, A), Visit(SB, B));
  }

  lemma OwnEntities(f: Flow, ra: map<EntityId, Registration>, rb: map<EntityId, Registration>, p: Point)
    requires f.subs == Subs(ra, rb) && ra.Keys <= {A} && rb.Keys <= {B}
    ensures OwnEntity(f, Event(SA, false, RegA(p))) && OwnEntity(f, Event(SB, false, RegB(p)))
  {
  }

  // ----- The five notifications -----

  lemma Handled1()
    ensures
      var f, ev := Fresh(), Event(SB, false, RegB(here));
      var c := OneGroup(GroupB(), [], Selecting(W1), Placing(W1));
      Legal(f, ev, c) && Handle(f, [], TheHash(), [], ev, c) == Outcome(Known(map[], here, map[], map[]), [], false)
  {
    var f, ev := Fresh(), Event(SB, false, RegB(here));
    var f' := Recorded(f, SB, ev.reg);
    assert f' == Known(map[], here, map[], map[]);
    assert f'.subs[SA].regs.Keys == {};
    assert !Plans(f, ev);
  }

  /** Step 1: CREATE b.  There is no entity for the other selector yet. */
  lemma Created1()
    ensures Leads(Fresh(), [], TheHash(), [], Event(SB, false, RegB(here)),
                  OneGroup(GroupB(), [], Selecting(W1), Placing(W1)), Known(map[], here, map[], map[]), [])
  {
    Handled1();
    OwnEntities(Fresh(), map[], map[], here);
    MakeLeads(Fresh(), [], TheHash(), [], Event(SB, false, RegB(here)), GroupB(), [], W1,
              Known(map[], here, map[], map[]), [], ROW, Mark());
  }

  function Task1(p: Point): TaskConfig
  {
    TaskConfig(W1, [InA(p)])
  }

  lemma Legal2()
    ensures Legal(Known(map[], here, map[], map[]), Event(SA, false, RegA(here)),
                  OneGroup(GroupA(), [InA(here)], Selecting(W1), Placing(W1)))
  {
    var f, ev := Known(map[], here, map[], map[]), Event(SA, false, RegA(here));
    RecordedA(map[], here, here, map[], map[]);
    VisitedA(Recorded(f, SA, ev.reg), here, here);
    OneGroupLegal(f, ev, GroupA(), [Visit(SA, A)], Selecting(W1), Placing(W1));
  }

  lemma Handled2()
    ensures Handle(Known(map[], here, map[], map[]), [], TheHash(), [], Event(SA, false, RegA(here)),
                   OneGroup(GroupA(), [InA(here)], Selecting(W1), Placing(W1)))
            == Outcome(Known(map[A := RegA(here)], here, map[HA := Task1(here)], map[HA := W1]),
                       [Deploy(HA, W1, [InA(here)])], false)
  {
    RecordedA(map[], here, here, map[], map[]);
    UpdateNewTask(Known(map[], here, map[], map[]), Known(map[A := RegA(here)], here, map[], map[]), [], TheHash(), [],
                  Event(SA, false, RegA(here)), GroupA(), [InA(here)], W1, HA);
  }

  /** Step 2: CREATE a, whose only group is "ALL" although "ALL" is not in the row. */
  lemma Created2()
    ensures Leads(Known(map[], here, map[], map[]), [], TheHash(), [], Event(SA, false, RegA(here)),
                  OneGroup(GroupA(), [InA(here)], Selecting(W1), Placing(W1)),
                  Known(map[A := RegA(here)], here, map[HA := Task1(here)], map[HA := W1]),
                  [Deploy(HA, W1, [InA(here)])])
  {
    Legal2();
    Handled2();
    var f := Known(map[], here, map[], map[]);
    OwnEntities(f, map[], map[B := RegB(here)], here);
    MakeLeads(f, [], TheHash(), [], Event(SA, false, RegA(here)), GroupA(), [InA(here)], W1,
              Known(map[A := RegA(here)], here, map[HA := Task1(here)], map[HA := W1]), [Deploy(HA, W1, [InA(here)])],
              ROW, Mark());
  }

  function Task2(p: Point, q: Point): TaskConfig
  {
    TaskConfig(W1, [InA(p), InB(q)])
  }

  function Plan2(p: Point): map<HashId, TaskConfig>
  {
    map[HA := Task1(p), HB := Task2(here, here)]
  }

  function OnW1(): map<HashId, WorkerId>
  {
    map[HA := W1, HB := W1]
  }

  lemma Legal3()
    ensures Legal(Known(map[A := RegA(here)], here, map[HA := Task1(here)], map[HA := W1]),
                  Event(SB, false, RegB(here)),
                  OneGroup(GroupB(), [InA(here), InB(here)], Selecting(W1), Placing(W1)))
  {
    var f := Known(map[A := RegA(here)], here, map[HA := Task1(here)], map[HA := W1]);
    var ev := Event(SB, false, RegB(here));
    RecordedB(here, here, here, map[HA := Task1(here)], map[HA := W1]);
    VisitedB(Recorded(f, SB, ev.reg), here, here);
    OneGroupLegal(f, ev, GroupB(), [Visit(SA, A), Visit(SB, B)], Selecting(W1), Placing(W1));
  }

  lemma Handled3(log: seq<Command>)
    ensures
      var f := Known(map[A := RegA(here)], here, map[HA := Task1(here)], map[HA := W1]);
      Handle(f, log, TheHash(), [], Event(SB, false, RegB(here)),
             OneGroup(GroupB(), [InA(here), InB(here)], Selecting(W1), Placing(W1)))
      == Outcome(Known(map[A := RegA(here)], here, Plan2(here), OnW1()),
                 log + [Deploy(HB, W1, [InA(here), InB(here)])], false)
  {
    RecordedB(here, here, here, map[HA := Task1(here)], map[HA := W1]);
    var f := Known(map[A := RegA(here)], here, map[HA := Task1(here)], map[HA := W1]);
    UpdateNewTask(f, f, log, TheHash(), [], Event(SB, false, RegB(here)), GroupB(), [InA(here), InB(here)], W1, HB);
    assert map[HA := Task1(here)][HB := Task2(here, here)] == Plan2(here);
    assert map[HA := W1][HB := W1] == OnW1();
  }

  /** Step 3: UPDATE b, whose group has a second task that reaches a as well. */
  lemma Created3(log: seq<Command>)
    ensures Leads(Known(map[A := RegA(here)], here, map[HA := Task1(here)], map[HA := W1]), log, TheHash(), [],
                  Event(SB, false, RegB(here)),
                  OneGroup(GroupB(), [InA(here), InB(here)], Selecting(W1), Placing(W1)),
                  Known(map[A := RegA(here)], here, Plan2(here), OnW1()),
                  log + [Deploy(HB, W1, [InA(here), InB(here)])])
  {
    Legal3();
    Handled3(log);
    var f := Known(map[A := RegA(here)], here, map[HA := Task1(here)], map[HA := W1]);
    OwnEntities(f, map[A := RegA(here)], map[B := RegB(here)], here);
    MakeLeads(f, log, TheHash(), [], Event(SB, false, RegB(here)), GroupB(), [InA(here), InB(here)], W1,
              Known(map[A := RegA(here)], here, Plan2(here), OnW1()), log + [Deploy(HB, W1, [InA(here), InB(here)])],
              ROW, Mark());
  }

  lemma Legal4()
    ensures Legal(Known(map[A := RegA(here)], here, Plan2(here), OnW1()), Event(SA, false, RegA(there)),
                  OneGroup(GroupA(), [InA(there)], Selecting(W1), Placing(W1)))
  {
    var f, ev := Known(map[A := RegA(here)], here, Plan2(here), OnW1()), Event(SA, false, RegA(there));
    RecordedA(map[A := RegA(here)], there, here, Plan2(here), OnW1());
    VisitedA(Recorded(f, SA, ev.reg), there, here);
    OneGroupLegal(f, ev, GroupA(), [Visit(SA, A)], Selecting(W1), Placing(W1));
  }

  lemma Absorbed4()
    ensures Absorb(Progress(Task1(here), []), HA, W1, [InA(there)], 1, false, Selecting(W1))
            == Progress(Task1(there), [])
  {
    var p := Progress(Task1(here), []);
    assert Absorb(p, HA, W1, [InA(there)], 1, false, Selecting(W1))
           == AbsorbOne(Absorb(p, HA, W1, [InA(there)], 0, false, Selecting(W1)), HA, W1, InA(there), 0, false,
                        Selecting(W1));
    assert FirstMoved([InA(here)], InA(there)) == 0;
    assert [InA(here)][0 := InA(there)] == [InA(there)];
  }

  lemma Handled4(log: seq<Command>)
    ensures
      var f := Known(map[A := RegA(here)], here, Plan2(here), OnW1());
      Handle(f, log, TheHash(), [], Event(SA, false, RegA(there)),
             OneGroup(GroupA(), [InA(there)], Selecting(W1), Placing(W1)))
      == Outcome(Known(map[A := RegA(there)], here, Plan2(there), OnW1()), log, false)
  {
    RecordedA(map[A := RegA(here)], there, here, Plan2(here), OnW1());
    Absorbed4();
    var f', d := Known(map[A := RegA(there)], here, Plan2(here), OnW1()),
                 Known(map[A := RegA(there)], here, Plan2(there), OnW1());
    assert Plan2(here)[HA := Task1(there)] == Plan2(there);
    UpdateTask(Known(map[A := RegA(here)], here, Plan2(here), OnW1()), f', log, TheHash(), [],
               Event(SA, false, RegA(there)), GroupA(), [InA(there)], Selecting(W1), Placing(W1), HA, Task1(here), W1,
               Progress(Task1(there), []), d, Outcome(d, log, false));
  }

  /** Step 4: UPDATE a at another place, which only the task of "ALL" takes notice of. */
  lemma Moved4(log: seq<Command>)
    ensures Leads(Known(map[A := RegA(here)], here, Plan2(here), OnW1()), log, TheHash(), [],
                  Event(SA, false, RegA(there)), OneGroup(GroupA(), [InA(there)], Selecting(W1), Placing(W1)),
                  Known(map[A := RegA(there)], here, Plan2(there), OnW1()), log)
  {
    Legal4();
    Handled4(log);
    var f := Known(map[A := RegA(here)], here, Plan2(here), OnW1());
    OwnEntities(f, map[A := RegA(here)], map[B := RegB(here)], there);
    MakeLeads(f, log, TheHash(), [], Event(SA, false, RegA(there)), GroupA(), [InA(there)], W1,
              Known(map[A := RegA(there)], here, Plan2(there), OnW1()), log, ROW, Mark());
  }

  function Selecting5(): Selection
  {
    (h: HashId, j: nat, ps: seq<Point>) => if j == 0 then W2 else W3
  }

  function Choices5(): Choices
  {
    OneGroup(GroupB(), [InA(there), InB(there)], Selecting5(), Placing(W2))
  }

  lemma Legal5()
    ensures Legal(Known(map[A := RegA(there)], here, Plan2(there), OnW1()), Event(SB, false, RegB(there)), Choices5())
  {
    var f, ev := Known(map[A := RegA(there)], here, Plan2(there), OnW1()), Event(SB, false, RegB(there));
    RecordedB(there, here, there, Plan2(there), OnW1());
    VisitedB(Recorded(f, SB, ev.reg), there, there);
    OneGroupLegal(f, ev, GroupB(), [Visit(SA, A), Visit(SB, B)], Selecting5(), Placing(W2));
  }

  function Actions5(): seq<Action>
  {
    [RemoveTask(HB, W1), AddTask(HB, [InA(there), InB(here)]),
     RemoveTask(HB, W1), AddTask(HB, [InA(there), InB(there)])]
  }

  /** The task finds both inputs moved, and migrates twice. */
  lemma Absorbed5()
    ensures Absorb(Progress(Task2(here, here), []), HB, W1, [InA(there), InB(there)], 2, false, Selecting5())
            == Progress(TaskConfig(W3, [InA(there), InB(there)]), Actions5())
  {
    var p := Progress(Task2(here, here), []);
    AbsorbTwo(p, HB, W1, InA(there), InB(there), Selecting5());
    var q := Progress(TaskConfig(W2, [InA(there), InB(here)]),
                      [RemoveTask(HB, W1), AddTask(HB, [InA(there), InB(here)])]);
    First5(p, q);
    Second5(q);
  }

  lemma First5(p: Progress, q: Progress)
    requires p == Progress(Task2(here, here), [])
    requires q == Progress(TaskConfig(W2, [InA(there), InB(here)]),
                           [RemoveTask(HB, W1), AddTask(HB, [InA(there), InB(here)])])
    ensures AbsorbOne(p, HB, W1, InA(there), 0, false, Selecting5()) == q
  {
    assert FirstMoved([InA(here), InB(here)], InA(there)) == 0;
    assert [InA(here), InB(here)][0 := InA(there)] == [InA(there), InB(here)];
    assert [] + [RemoveTask(HB, W1)] + [AddTask(HB, [InA(there), InB(here)])] == q.actions;
  }

  lemma Second5(q: Progress)
    requires q == Progress(TaskConfig(W2, [InA(there), InB(here)]),
                           [RemoveTask(HB, W1), AddTask(HB, [InA(there), InB(here)])])
    ensures AbsorbOne(q, HB, W1, InB(there), 1, false, Selecting5())
            == Progress(TaskConfig(W3, [InA(there), InB(there)]), Actions5())
  {
    var inputs := [InA(there), InB(here)];
    assert inputs[1].id == B && inputs[1].location != there && inputs[0].id != B;
    assert FirstMoved(inputs, InB(there)) == 1;
    assert inputs[1 := InB(there)] == [InA(there), InB(there)];
    assert q.actions + [RemoveTask(HB, W1)] + [AddTask(HB, [InA(there), InB(there)])] == Actions5();
  }

  function Decided5(): Flow
  {
    Known(map[A := RegA(there)], there, Plan2(there)[HB := TaskConfig(W3, [InA(there), InB(there)])], OnW1())
  }

  lemma Handled5(log: seq<Command>)
    ensures Handle(Known(map[A := RegA(there)], here, Plan2(there), OnW1()), log, TheHash(), [],
                   Event(SB, false, RegB(there)), Choices5())
            == CarryOut(Decided5(), log, Actions5(), 4, Placing(W2))
  {
    RecordedB(there, here, there, Plan2(there), OnW1());
    Absorbed5();
    var f := Known(map[A := RegA(there)], here, Plan2(there), OnW1());
    var f' := Known(map[A := RegA(there)], there, Plan2(there), OnW1());
    UpdateTask(f, f', log, TheHash(), [], Event(SB, false, RegB(there)), GroupB(), [InA(there), InB(there)],
               Selecting5(), Placing(W2), HB, Task2(here, here), W1,
               Progress(TaskConfig(W3, [InA(there), InB(there)]), Actions5()), Decided5(),
               CarryOut(Decided5(), log, Actions5(), 4, Placing(W2)));
  }

  function Commands5(): seq<Command>
  {
    [Undeploy(HB, W1), Deploy(HB, W2, [InA(there), InB(here)]),
     Undeploy(HB, W1), Deploy(HB, W2, [InA(there), InB(there)])]
  }

  lemma Carried5(log: seq<Command>)
    ensures
      var o := CarryOut(Decided5(), log, Actions5(), 4, Placing(W2));
      o == Outcome(o.flow, log + Commands5(), false) && o.flow.unique == map[ROW := [Mark()]]
  {
    var d, acts, c := Decided5(), Actions5(), Commands5();
    CarryOutKeeps(d, log, acts, 4, Placing(W2));
    assert CarryOut(d, log, acts, 1, Placing(W2)) == Outcome(d, log + [c[0]], false);
    var o2 := CarryOut(d, log, acts, 2, Placing(W2));
    assert o2 == Outcome(o2.flow, log + [c[0]] + [c[1]], false);
    var o3 := CarryOut(d, log, acts, 3, Placing(W2));
    assert o3 == Outcome(o3.flow, log + [c[0]] + [c[1]] + [c[2]], false);
    assert log + [c[0]] + [c[1]] + [c[2]] + [c[3]] == log + c;
  }

  /** Step 5: UPDATE b at another place.  The task removed once from its worker is removed from it again. */
  lemma Moved5(log: seq<Command>) returns (f': Flow)
    ensures Leads(Known(map[A := RegA(there)], here, Plan2(there), OnW1()), log, TheHash(), [],
                  Event(SB, false, RegB(there)), Choices5(), f', log + Commands5())
  {
    Legal5();
    Handled5(log);
    Carried5(log);
    f' := CarryOut(Decided5(), log, Actions5(), 4, Placing(W2)).flow;
    OneValueInjective(ROW, Mark(), TheHash());
    OwnEntities(Known(map[A := RegA(there)], here, Plan2(there), OnW1()), map[A := RegA(there)], map[B := RegB(here)],
                there);
  }

  // ----- The run -----

  function Log3(): seq<Command>
  {
    [Deploy(HA, W1, [InA(here)])] + [Deploy(HB, W1, [InA(here), InB(here)])]
  }

  lemma Run0() returns (r: Run)
    ensures r == Run([Fresh()], [[]], [], []) && RespectfulRun(r, TheHash(), [])
  {
    r := Run([Fresh()], [[]], [], []);
    assert IsStart(Fresh());
  }

  lemma Run1() returns (r: Run)
    ensures RespectfulRun(r, TheHash(), []) && |r.events| == 1 && r.flows[0] == Fresh()
    ensures r.flows[1] == Known(map[], here, map[], map[]) && r.logs[1] == []
  {
    r := Run0();
    var f, c := Known(map[], here, map[], map[]), OneGroup(GroupB(), [], Selecting(W1), Placing(W1));
    Created1();
    LongerRun(r, TheHash(), [], Event(SB, false, RegB(here)), c, f, []);
    r := Extended(r, Event(SB, false, RegB(here)), c, f, []);
  }

  lemma Run2() returns (r: Run)
    ensures RespectfulRun(r, TheHash(), []) && |r.events| == 2 && r.flows[0] == Fresh()
    ensures r.flows[2] == Known(map[A := RegA(here)], here, map[HA := Task1(here)], map[HA := W1])
    ensures r.logs[2] == [Deploy(HA, W1, [InA(here)])]
  {
    r := Run1();
    var f := Known(map[A := RegA(here)], here, map[HA := Task1(here)], map[HA := W1]);
    var c := OneGroup(GroupA(), [InA(here)], Selecting(W1), Placing(W1));
    Created2();
    LongerRun(r, TheHash(), [], Event(SA, false, RegA(here)), c, f, [Deploy(HA, W1, [InA(here)])]);
    r := Extended(r, Event(SA, false, RegA(here)), c, f, [Deploy(HA, W1, [InA(here)])]);
  }

  lemma Run3() returns (r: Run)
    ensures RespectfulRun(r, TheHash(), []) && |r.events| == 3 && r.flows[0] == Fresh()
    ensures r.flows[3] == Known(map[A := RegA(here)], here, Plan2(here), OnW1()) && r.logs[3] == Log3()
  {
    r := Run2();
    var f := Known(map[A := RegA(here)], here, Plan2(here), OnW1());
    var c := OneGroup(GroupB(), [InA(here), InB(here)], Selecting(W1), Placing(W1));
    Created3(r.logs[2]);
    LongerRun(r, TheHash(), [], Event(SB, false, RegB(here)), c, f, Log3());
    r := Extended(r, Event(SB, false, RegB(here)), c, f, Log3());
  }

  lemma Run4() returns (r: Run)
    ensures RespectfulRun(r, TheHash(), []) && |r.events| == 4 && r.flows[0] == Fresh()
    ensures r.flows[4] == Known(map[A := RegA(there)], here, Plan2(there), OnW1()) && r.logs[4] == Log3()
  {
    r := Run3();
    var f := Known(map[A := RegA(there)], here, Plan2(there), OnW1());
    var c := OneGroup(GroupA(), [InA(there)], Selecting(W1), Placing(W1));
    Moved4(Log3());
    LongerRun(r, TheHash(), [], Event(SA, false, RegA(there)), c, f, Log3());
    r := Extended(r, Event(SA, false, RegA(there)), c, f, Log3());
  }

  lemma Run5() returns (r: Run)
    ensures RespectfulRun(r, TheHash(), []) && |r.events| == 5 && r.flows[0] == Fresh()
    ensures r.logs[5] == Log3() + Commands5()
  {
    r := Run4();
    var f := Moved5(Log3());
    LongerRun(r, TheHash(), [], Event(SB, false, RegB(there)), Choices5(), f, Log3() + Commands5());
    r := Extended(r, Event(SB, false, RegB(there)), Choices5(), f, Log3() + Commands5());
  }

  lemma ReplaysToNothing()
    ensures Replay(Log3() + Commands5()) == None
  {
    var c := Commands5();
    var d1, d2 := Deploy(HA, W1, [InA(here)]), Deploy(HB, W1, [InA(here), InB(here)]);
    assert Replay([]) == Some(map[]);
    ReplayAppend([], d1);
    ReplayAppend([d1], d2);
    assert Log3() == [d1] + [d2] && [] + [d1] == [d1];
    assert Replay(Log3()) == Some(map[HA := W1, HB := W1]);
    ReplayAppend(Log3(), c[0]);
    ReplayAppend(Log3() + [c[0]], c[1]);
    ReplayAppend(Log3() + [c[0]] + [c[1]], c[2]);
    var log := Log3() + [c[0]] + [c[1]] + [c[2]];
    assert Replay(log) == None;
    assert (log + [c[3]])[..|log|] == log;
    assert Log3() + c == log + [c[3]];
  }

  /** CREATE b, CREATE a, UPDATE b, UPDATE a at another place, UPDATE b at another place: apart from the shared row
      the run meets all that the placement theorem asks, and a task is removed from a worker it is not on. */
  lemma SharedRowMisplaces() returns (r: Run)
    ensures RespectfulRun(r, TheHash(), []) && |r.events| == 5
    ensures AllByEntity(r.flows[0]) && !NoKeyClash(r.flows[0])
    ensures Replay(r.logs[5]) == None
  {
    r := Run5();
    ReplaysToNothing();
    assert r.flows[0].subs[SA].selector == ByAll() && r.flows[0].subs[SB].selector == ByMark();
  }
}
