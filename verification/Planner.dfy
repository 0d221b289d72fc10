/** The orchestration planner of the master (master/taskMgr.go) as functions of the flow's state.
    A task is named by the hash of its group: the task id is that hash behind a prefix fixed per flow. */
module Planner {
  import opened Listings
  import opened Wrappers

  type SubId = string
  type EntityId = string
  type HashId = string
  type WorkerId = string

  datatype Point = Point(latitude: real, longitude: real)

  /** Metadata of type "point" holds a point; any other type is carried as it is. */
  datatype Metadata = PointMetadata(point: Point) | OtherMetadata(typ: string, value: string)

  datatype Registration = Registration(id: EntityId, typ: string, metadata: map<string, Metadata>)

  /** How a selector groups its entities: "ALL", "EntityID", "EntityType", or the name of a metadata. */
  datatype Grouping = All | EntityID | EntityType | ByMetadata(name: string)

  /** `key` is the row of the unique-value table, built from the entity type and the grouping. */
  datatype Selector = Selector(key: string, groupBy: Grouping, scoped: bool)

  datatype Subscription = Subscription(selector: Selector, regs: map<EntityId, Registration>)

  /** A value of the unique-value table: a text, or the metadata of a registration if it has any. */
  datatype Value = Text(text: string) | Meta(metadata: Option<Metadata>)

  /** The value of every entity that is grouped by "ALL". */
  const AllValue: Value := Text("ALL")

  type Group = map<string, Value>

  datatype Input = Input(id: EntityId, typ: string, location: Point)

  datatype TaskConfig = TaskConfig(worker: WorkerId, inputs: seq<Input>)

  datatype Action =
    | AddTask(task: HashId, inputs: seq<Input>)
    | RemoveTask(task: HashId, worker: WorkerId)
    | AddInput(task: HashId, worker: WorkerId, input: Input)
    | RemoveInput(task: HashId, worker: WorkerId, entity: EntityId)

  /** What the master sends to the workers. */
  datatype Command =
    | Deploy(task: HashId, worker: WorkerId, inputs: seq<Input>)
    | Undeploy(task: HashId, worker: WorkerId)
    | Feed(task: HashId, worker: WorkerId, input: Input)
    | Starve(task: HashId, worker: WorkerId, entity: EntityId)

  datatype Flow = Flow(
    subs: map<SubId, Subscription>,
    unique: map<string, seq<Value>>,
    plan: map<HashId, TaskConfig>,
    deployed: map<HashId, WorkerId>)

  // ----- Registrations and groups -----

  predicate IsSimpleByType(s: Selector)
  {
    !s.scoped && s.groupBy != EntityID
  }

  function ValueOf(s: Selector, reg: Registration): Value
  {
    match s.groupBy
    case All => AllValue
    case EntityID => Text(reg.id)
    case EntityType => Text(reg.typ)
    case ByMetadata(name) => Meta(if name in reg.metadata then Some(reg.metadata[name]) else None)
  }

  const LOCATION := "location"

  function GetLocation(reg: Registration): Point
  {
    if LOCATION in reg.metadata && reg.metadata[LOCATION].PointMetadata?
    then reg.metadata[LOCATION].point
    else Point(0.0, 0.0)
  }

  function Updated(reg: Registration, news: Registration): Registration
  {
    Registration(reg.id, if news.typ != "" then news.typ else reg.typ, reg.metadata + news.metadata)
  }

  const ANY := "*"

  /** A subscription by type alone keeps one registration, the first, under "*". */
  function EntityKey(s: Selector, reg: Registration): EntityId
  {
    if IsSimpleByType(s) then ANY else reg.id
  }

  function Received(sub: Subscription, reg: Registration): Subscription
  {
    var e := EntityKey(sub.selector, reg);
    if e !in sub.regs then sub.(regs := sub.regs[e := reg])
    else if IsSimpleByType(sub.selector) then sub
    else sub.(regs := sub.regs[e := Updated(sub.regs[e], reg)])
  }

  function Tabulated(unique: map<string, seq<Value>>, s: Selector, reg: Registration): map<string, seq<Value>>
  {
    var key, v := s.key, ValueOf(s, reg);
    if key !in unique then unique[key := [v]]
    else if s.groupBy == All || v in unique[key] then unique
    else unique[key := unique[key] + [v]]
  }

  predicate Available(f: Flow)
  {
    forall s :: s in f.subs ==> f.subs[s].regs.Keys != {}
  }

  /** The flow once the registration has been recorded and its group value tabulated. */
  function Recorded(f: Flow, s: SubId, reg: Registration): Flow
    requires s in f.subs
  {
    var sub := Received(f.subs[s], reg);
    var e := EntityKey(sub.selector, reg);
    f.(subs := f.subs[s := sub], unique := Tabulated(f.unique, sub.selector, sub.regs[e]))
  }

  /** `g` gives every key of the table one of the values listed for it: a point of the Cartesian product. */
  ghost predicate IsFull(unique: map<string, seq<Value>>, g: Group)
  {
    && g.Keys == unique.Keys
    && forall k :: k in g ==> g[k] in unique[k]
  }

  /** Distinct groups over the table hash differently. */
  ghost predicate InjectiveOn(unique: map<string, seq<Value>>, hash: Group -> HashId)
  {
    forall g, k :: IsFull(unique, g) && IsFull(unique, k) && hash(g) == hash(k) ==> g == k
  }

  /** The groups that a registered entity takes part in through its selector. */
  ghost predicate IsRelevant(unique: map<string, seq<Value>>, s: Selector, reg: Registration, g: Group)
  {
    && g.Keys == unique.Keys + {s.key}
    && g[s.key] == ValueOf(s, reg)
    && forall k :: k in unique && k != s.key ==> g[k] in unique[k]
  }

  /** `EntityRegistration.IsMatched` for the one restriction that a group puts on a selector, if any. */
  predicate IsMatched(s: Selector, reg: Registration, g: Group)
  {
    s.key in g && s.groupBy != All ==> ValueOf(s, reg) == g[s.key]
  }

  ghost predicate Yields(f: Flow, g: Group, s: SubId, e: EntityId)
  {
    s in f.subs && e in f.subs[s].regs && IsMatched(f.subs[s].selector, f.subs[s].regs[e], g)
  }

  function InputOf(s: Selector, reg: Registration): Input
  {
    Input(if IsSimpleByType(s) then "" else reg.id, reg.typ, GetLocation(reg))
  }

  ghost predicate DistinctIds(inputs: seq<Input>)
  {
    forall i, j :: 0 <= i < j < |inputs| ==> inputs[i].id != inputs[j].id
  }

  /** No selector is by type alone. */
  ghost predicate AllByEntity(f: Flow)
  {
    forall s :: s in f.subs ==> !IsSimpleByType(f.subs[s].selector)
  }

  /** Leaving aside selectors by type alone, registrations are filed under their id. */
  ghost predicate UnderOwnId(f: Flow)
  {
    forall s, e :: s in f.subs && e in f.subs[s].regs && !IsSimpleByType(f.subs[s].selector)
                   ==> f.subs[s].regs[e].id == e
  }

  /** Leaving those aside, no entity is known to two subscriptions either. */
  ghost predicate Separate(f: Flow)
  {
    && UnderOwnId(f)
    && (forall s, t, e :: s in f.subs && t in f.subs && s != t && e in f.subs[s].regs && e in f.subs[t].regs
                          ==> IsSimpleByType(f.subs[s].selector) || IsSimpleByType(f.subs[t].selector))
  }

  datatype Visit = Visit(sub: SubId, entity: EntityId)

  predicate IsRegistered(subs: map<SubId, Subscription>, v: Visit)
  {
    v.sub in subs && v.entity in subs[v.sub].regs
  }

  function VisitInput(subs: map<SubId, Subscription>, v: Visit): Input
    requires IsRegistered(subs, v)
  {
    InputOf(subs[v.sub].selector, subs[v.sub].regs[v.entity])
  }

  predicate HasUntyped(r: seq<Input>)
  {
    exists i :: 0 <= i < |r| && r[i].typ == ""
  }

  /** The inputs found by visiting entities in this order: an entity selected by type alone is left out once an
      input without a type has been found. */
  function Collected(subs: map<SubId, Subscription>, order: seq<Visit>): seq<Input>
    requires forall v :: v in order ==> IsRegistered(subs, v)
  {
    if order == [] then []
    else
      var before, v := Collected(subs, order[..|order| - 1]), order[|order| - 1];
      assert IsRegistered(subs, v);
      if IsSimpleByType(subs[v.sub].selector) && HasUntyped(before) then before else before + [VisitInput(subs, v)]
  }

  /** An order of the entities that the group lets through, each once under each subscription that knows it. */
  ghost predicate IsVisitOrder(f: Flow, g: Group, order: seq<Visit>)
  {
    && Distinct(order)
    && forall v :: v in order <==> Yields(f, g, v.sub, v.entity)
  }

  /** What `searchRelevantEntities` may return for a group. */
  ghost predicate ListsRelevant(f: Flow, g: Group, r: seq<Input>)
  {
    exists order :: IsVisitOrder(f, g, order) && r == Collected(f.subs, order)
  }

  // ----- Expanding the execution plan -----

  type Selection = (HashId, nat, seq<Point>) -> WorkerId

  type Placement = (nat, seq<Point>) -> WorkerId

  datatype Progress = Progress(task: TaskConfig, actions: seq<Action>)

  datatype Expansion = Expansion(plan: map<HashId, TaskConfig>, actions: seq<Action>)

  function Locations(inputs: seq<Input>): seq<Point>
  {
    seq(|inputs|, i requires 0 <= i < |inputs| => inputs[i].location)
  }

  predicate IsNewInput(inputs: seq<Input>, x: Input, byType: bool)
  {
    forall i :: 0 <= i < |inputs| ==> if byType then inputs[i].typ != x.typ else inputs[i].id != x.id
  }

  /** The first input of that entity recorded at another place, or the length of the list. */
  function FirstMoved(inputs: seq<Input>, x: Input): (k: nat)
    ensures k <= |inputs|
    ensures k < |inputs| ==> inputs[k].id == x.id && inputs[k].location != x.location
    ensures forall i :: 0 <= i < k ==> inputs[i].id != x.id || inputs[i].location == x.location
  {
    if inputs == [] then 0
    else if inputs[0].id == x.id && inputs[0].location != x.location then 0
    else
      var k := FirstMoved(inputs[1..], x);
      assert forall i :: 1 <= i < |inputs| ==> inputs[i] == inputs[1..][i - 1];
      k + 1
  }

  /** An existing task meets one relevant entity: a new input, a move of an input, possibly a migration. */
  function AbsorbOne(p: Progress, h: HashId, host: WorkerId, x: Input, j: nat, byType: bool, select: Selection)
    : Progress
  {
    var inputs := p.task.inputs;
    if IsNewInput(inputs, x, byType) then
      Progress(p.task.(inputs := inputs + [x]), p.actions + [AddInput(h, host, x)])
    else
      var k := FirstMoved(inputs, x);
      if k == |inputs| then p
      else
        var moved := inputs[k := inputs[k].(location := x.location)];
        var w := select(h, j, Locations(moved));
        if w == p.task.worker then Progress(p.task.(inputs := moved), p.actions)
        else
          Progress(TaskConfig(w, moved),
                   p.actions + (if p.task.worker != "" then [RemoveTask(h, host)] else []) + [AddTask(h, moved)])
  }

  function Absorb(p: Progress, h: HashId, host: WorkerId, xs: seq<Input>, n: nat, byType: bool, select: Selection)
    : Progress
    requires n <= |xs|
  {
    if n == 0 then p
    else AbsorbOne(Absorb(p, h, host, xs, n - 1, byType, select), h, host, xs[n - 1], n - 1, byType, select)
  }

  function Host(f: Flow, h: HashId): WorkerId
  {
    if h in f.deployed then f.deployed[h] else ""
  }

  /** Everything the code leaves open in one notification: map orders and the answers of `SelectWorker`. */
  datatype Choices = Choices(
    groups: seq<Group>,
    entities: map<Group, seq<Input>>,
    select: Selection,
    place: Placement)
  {
    function Found(g: Group): seq<Input>
    {
      if g in entities then entities[g] else []
    }
  }

  /** One relevant group: its task meets the relevant entities, or is created with them. */
  function ExpandOne(f: Flow, prev: Expansion, h: HashId, xs: seq<Input>, byType: bool, select: Selection): Expansion
  {
    if h in prev.plan then
      var p := Absorb(Progress(prev.plan[h], prev.actions), h, Host(f, h), xs, |xs|, byType, select);
      Expansion(prev.plan[h := p.task], p.actions)
    else
      Expansion(prev.plan[h := TaskConfig("", xs)], prev.actions + [AddTask(h, xs)])
  }

  function Expand(f: Flow, hash: Group -> HashId, c: Choices, byType: bool, n: nat): Expansion
    requires n <= |c.groups|
  {
    if n == 0 then Expansion(f.plan, [])
    else
      var g := c.groups[n - 1];
      ExpandOne(f, Expand(f, hash, c, byType, n - 1), hash(g), c.Found(g), byType, c.select)
  }

  // ----- Shrinking the execution plan -----

  function Without(inputs: seq<Input>, e: EntityId): seq<Input>
  {
    if inputs == [] then []
    else if inputs[0].id == e then Without(inputs[1..], e)
    else [inputs[0]] + Without(inputs[1..], e)
  }

  /** Every input stream of the task's operator still has an input of its type. */
  predicate HasAllStreams(inputs: seq<Input>, streams: seq<string>)
  {
    forall t :: t in streams ==> exists i :: 0 <= i < |inputs| && inputs[i].typ == t
  }

  /** One group the deleted entity was relevant to: its task loses the input, or ends. */
  function ShrinkOne(f: Flow, prev: Expansion, h: HashId, streams: seq<string>, e: EntityId): Expansion
  {
    if h !in prev.plan then prev
    else
      var inputs := Without(prev.plan[h].inputs, e);
      if HasAllStreams(inputs, streams) then
        Expansion(prev.plan[h := prev.plan[h].(inputs := inputs)],
                  prev.actions + [RemoveInput(h, Host(f, h), e)])
      else
        Expansion(prev.plan - {h}, prev.actions + (if h in f.deployed then [RemoveTask(h, f.deployed[h])] else []))
  }

  function Shrink(f: Flow, hash: Group -> HashId, streams: seq<string>, c: Choices, e: EntityId, n: nat): Expansion
    requires n <= |c.groups|
  {
    if n == 0 then Expansion(f.plan, [])
    else ShrinkOne(f, Shrink(f, hash, streams, c, e, n - 1), hash(c.groups[n - 1]), streams, e)
  }

  // ----- Carrying out the actions -----

  /** The flow and the command log; `stopped` once a task found no worker and the handler gave up. */
  datatype Outcome = Outcome(flow: Flow, log: seq<Command>, stopped: bool)

  function Placed(f: Flow, h: HashId, w: WorkerId): Flow
  {
    f.(deployed := f.deployed[h := w],
       plan := if h in f.plan then f.plan[h := f.plan[h].(worker := w)] else f.plan)
  }

  function CarryOutOne(o: Outcome, a: Action, i: nat, place: Placement): Outcome
  {
    if o.stopped then o
    else match a
      case AddTask(h, inputs) =>
        var w := place(i, if h in o.flow.plan then Locations(o.flow.plan[h].inputs) else []);
        if w == "" then o.(stopped := true)
        else Outcome(Placed(o.flow, h, w), o.log + [Deploy(h, w, inputs)], false)
      case RemoveTask(h, w) => if w != "" then o.(log := o.log + [Undeploy(h, w)]) else o
      case AddInput(h, w, x) => o.(log := o.log + [Feed(h, w, x)])
      case RemoveInput(h, w, e) => o.(log := o.log + [Starve(h, w, e)])
  }

  function CarryOut(f: Flow, log: seq<Command>, actions: seq<Action>, n: nat, place: Placement): Outcome
    requires n <= |actions|
  {
    if n == 0 then Outcome(f, log, false)
    else CarryOutOne(CarryOut(f, log, actions, n - 1, place), actions[n - 1], n - 1, place)
  }

  // ----- One availability notification -----

  datatype Event = Event(sub: SubId, isDelete: bool, reg: Registration)

  /** The flow on which the plan is expanded or shrunk. */
  function Prepared(f: Flow, ev: Event): Flow
    requires ev.sub in f.subs
  {
    if ev.isDelete then f else Recorded(f, ev.sub, ev.reg)
  }

  /** The notification reaches the planning step. */
  predicate Plans(f: Flow, ev: Event)
    requires ev.sub in f.subs
  {
    && Available(Prepared(f, ev))
    && EntityKey(f.subs[ev.sub].selector, ev.reg) in Prepared(f, ev).subs[ev.sub].regs
  }

  /** The choices are an enumeration of the relevant groups and, per group, of the relevant entities. */
  ghost predicate Legal(f: Flow, ev: Event, c: Choices)
    requires ev.sub in f.subs
  {
    Plans(f, ev) ==>
      var f' := Prepared(f, ev);
      var sub := f'.subs[ev.sub];
      var reg := sub.regs[EntityKey(sub.selector, ev.reg)];
      && Distinct(c.groups)
      && (forall g :: g in c.groups <==> IsRelevant(f'.unique, sub.selector, reg, g))
      && (!ev.isDelete ==> forall g :: g in c.groups ==> ListsRelevant(f', g, c.Found(g)))
  }

  function Decide(f: Flow, hash: Group -> HashId, streams: seq<string>, ev: Event, c: Choices): (Flow, seq<Action>)
  {
    if ev.sub !in f.subs then (f, [])
    else
      var f' := Prepared(f, ev);
      var s := f.subs[ev.sub].selector;
      var e := EntityKey(s, ev.reg);
      if !Plans(f, ev) then
        (if ev.isDelete && e in f.subs[ev.sub].regs then
           f.(subs := f.subs[ev.sub := f.subs[ev.sub].(regs := f.subs[ev.sub].regs - {e})])
         else f', [])
      else
        var x := if ev.isDelete then Shrink(f', hash, streams, c, e, |c.groups|)
                 else Expand(f', hash, c, IsSimpleByType(s), |c.groups|);
        (f'.(plan := x.plan), x.actions)
  }

  function Handle(f: Flow, log: seq<Command>, hash: Group -> HashId, streams: seq<string>, ev: Event, c: Choices)
    : Outcome
  {
    var (f', actions) := Decide(f, hash, streams, ev, c);
    CarryOut(f', log, actions, |actions|, c.place)
  }
}
