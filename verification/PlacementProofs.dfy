/** At most one live deployment per task (master/taskMgr.go): the actions of a notification place and remove
    each task soundly, and replaying the commands of a whole run never finds a task on two workers. */
module PlacementProofs {
  import opened Wrappers
  import opened Planner
  import opened PlannerProofs

  // ----- Sound action lists -----

  /** The tasks on a worker once the actions are carried out. */
  ghost function After(acts: seq<Action>, live: set<HashId>): set<HashId>
  {
    if acts == [] then live
    else
      var before := After(acts[..|acts| - 1], live);
      match acts[|acts| - 1]
      case AddTask(h, _) => before + {h}
      case RemoveTask(h, _) => before - {h}
      case _ => before
  }

  ghost function Touched(acts: seq<Action>): set<HashId>
  {
    if acts == [] then {}
    else
      var before, a := Touched(acts[..|acts| - 1]), acts[|acts| - 1];
      if a.AddTask? || a.RemoveTask? then before + {a.task} else before
  }

  /** A task is added only where it is not, and removed at most once and from the worker it is on. */
  ghost predicate Sound(acts: seq<Action>, live: map<HashId, WorkerId>)
  {
    if acts == [] then true
    else
      var before := acts[..|acts| - 1];
      && Sound(before, live)
      && match acts[|acts| - 1]
         case AddTask(h, _) => h !in After(before, live.Keys)
         case RemoveTask(h, w) => h in live && live[h] == w && h !in Touched(before)
         case _ => true
  }

  lemma SoundAppend(acts: seq<Action>, a: Action, live: map<HashId, WorkerId>)
    requires Sound(acts, live)
    requires a.AddTask? ==> a.task !in After(acts, live.Keys)
    requires a.RemoveTask? ==> a.task in live && live[a.task] == a.worker && a.task !in Touched(acts)
    ensures Sound(acts + [a], live)
    ensures After(acts + [a], live.Keys) == match a
                                            case AddTask(h, _) => After(acts, live.Keys) + {h}
                                            case RemoveTask(h, _) => After(acts, live.Keys) - {h}
                                            case _ => After(acts, live.Keys)
    ensures Touched(acts + [a]) == if a.AddTask? || a.RemoveTask? then Touched(acts) + {a.task} else Touched(acts)
  {
    assert (acts + [a])[..|acts|] == acts;
  }

  lemma {:induction false} TouchedMember(acts: seq<Action>, i: nat)
    requires i < |acts| && (acts[i].AddTask? || acts[i].RemoveTask?)
    ensures acts[i].task in Touched(acts)
  {
    if i < |acts| - 1 {
      TouchedMember(acts[..|acts| - 1], i);
    }
  }

  /** A task that is not touched stays where it is. */
  lemma {:induction false} UntouchedStays(acts: seq<Action>, live: set<HashId>, h: HashId)
    requires h !in Touched(acts)
    ensures h in After(acts, live) <==> h in live
  {
    if acts != [] {
      UntouchedStays(acts[..|acts| - 1], live, h);
    }
  }

  // ----- One task meets its relevant entities -----

  /** Wherever an input stands for a listed entity other than `e`, it stands at that entity's place. */
  ghost predicate SyncedBut(inputs: seq<Input>, xs: seq<Input>, e: EntityId)
  {
    forall i, j :: 0 <= i < |inputs| && 0 <= j < |xs| && xs[j].id != e && inputs[i].id == xs[j].id
                   ==> inputs[i].location == xs[j].location
  }

  ghost predicate Synced(inputs: seq<Input>, xs: seq<Input>, n: nat)
    requires n <= |xs|
  {
    forall i, j :: 0 <= i < |inputs| && 0 <= j < n && inputs[i].id == xs[j].id
                   ==> inputs[i].location == xs[j].location
  }

  ghost predicate InputsAbsorbed(inputs: seq<Input>, xs: seq<Input>, n: nat, e: EntityId)
    requires n <= |xs|
  {
    DistinctIds(inputs) && Synced(inputs, xs, n) && SyncedBut(inputs, xs, e)
  }

  /** The actions so far: nothing about the placement of `h`, or one migration once `e` has been met. */
  ghost predicate ActionsAbsorbed(p: Progress, before: seq<Action>, live: map<HashId, WorkerId>, h: HashId,
                                  host: WorkerId, met: bool)
  {
    && p.task.worker != ""
    && Sound(p.actions, live) && After(p.actions, live.Keys) == After(before, live.Keys)
    && (if h in Touched(p.actions) then Touched(p.actions) == Touched(before) + {h} && met
        else Touched(p.actions) == Touched(before) && p.task.worker == host)
  }

  ghost predicate Met(xs: seq<Input>, n: nat, e: EntityId)
    requires n <= |xs|
  {
    exists j :: 0 <= j < n && xs[j].id == e
  }

  /** The input list an existing task has after meeting one entity. */
  function InputsAfter(inputs: seq<Input>, x: Input): seq<Input>
  {
    if IsNewInput(inputs, x, false) then inputs + [x]
    else
      var k := FirstMoved(inputs, x);
      if k == |inputs| then inputs else inputs[k := inputs[k].(location := x.location)]
  }

  lemma InputsStep(inputs: seq<Input>, xs: seq<Input>, n: nat, e: EntityId)
    requires n < |xs| && DistinctIds(xs) && InputsAbsorbed(inputs, xs, n, e)
    ensures InputsAbsorbed(InputsAfter(inputs, xs[n]), xs, n + 1, e)
    ensures !IsNewInput(inputs, xs[n], false) && FirstMoved(inputs, xs[n]) < |inputs| ==> xs[n].id == e
  {
    if IsNewInput(inputs, xs[n], false) {
      NewInputStep(inputs, xs, n, e);
    } else if FirstMoved(inputs, xs[n]) < |inputs| {
      MovedInputStep(inputs, xs, n, e, FirstMoved(inputs, xs[n]));
    }
  }

  lemma NewInputStep(inputs: seq<Input>, xs: seq<Input>, n: nat, e: EntityId)
    requires n < |xs| && DistinctIds(xs) && InputsAbsorbed(inputs, xs, n, e)
    requires IsNewInput(inputs, xs[n], false)
    ensures InputsAbsorbed(inputs + [xs[n]], xs, n + 1, e)
  {
    var after := inputs + [xs[n]];
    forall i, j | 0 <= i < |after| && 0 <= j < |xs| && after[i].id == xs[j].id && (j < n + 1 || xs[j].id != e)
      ensures after[i].location == xs[j].location
    {
      if i < |inputs| {
        assert after[i] == inputs[i];
      }
    }
  }

  lemma MovedInputStep(inputs: seq<Input>, xs: seq<Input>, n: nat, e: EntityId, k: nat)
    requires n < |xs| && k < |inputs| && DistinctIds(xs) && InputsAbsorbed(inputs, xs, n, e)
    requires inputs[k].id == xs[n].id && inputs[k].location != xs[n].location
    ensures xs[n].id == e
    ensures InputsAbsorbed(inputs[k := inputs[k].(location := xs[n].location)], xs, n + 1, e)
  {
    var after := inputs[k := inputs[k].(location := xs[n].location)];
    forall i, j | 0 <= i < |after| && 0 <= j < |xs| && after[i].id == xs[j].id && (j < n + 1 || xs[j].id != e)
      ensures after[i].location == xs[j].location
    {
      if i != k {
        assert after[i] == inputs[i];
      }
    }
  }

  lemma ActionsStep(p: Progress, before: seq<Action>, live: map<HashId, WorkerId>, h: HashId, host: WorkerId,
                    x: Input, j: nat, met: bool, isE: bool, select: Selection)
    requires h in live && live[h] == host != "" && h !in Touched(before) && h in After(before, live.Keys)
    requires forall a, b, c :: select(a, b, c) != ""
    requires ActionsAbsorbed(p, before, live, h, host, met)
    requires !IsNewInput(p.task.inputs, x, false) && FirstMoved(p.task.inputs, x) < |p.task.inputs| ==> isE && !met
    ensures ActionsAbsorbed(AbsorbOne(p, h, host, x, j, false, select), before, live, h, host, met || isE)
    ensures AbsorbOne(p, h, host, x, j, false, select).task.inputs == InputsAfter(p.task.inputs, x)
  {
    var q := AbsorbOne(p, h, host, x, j, false, select);
    if IsNewInput(p.task.inputs, x, false) {
      SoundAppend(p.actions, AddInput(h, host, x), live);
    } else if q.actions != p.actions {
      SoundAppend(p.actions, RemoveTask(h, host), live);
      var mid := p.actions + [RemoveTask(h, host)];
      SoundAppend(mid, AddTask(h, q.task.inputs), live);
      assert q.actions == mid + [AddTask(h, q.task.inputs)];
    }
  }

  lemma {:induction false} AbsorbSteps(p: Progress, live: map<HashId, WorkerId>, h: HashId, host: WorkerId,
                                       xs: seq<Input>, n: nat, e: EntityId, select: Selection)
    requires n <= |xs| && DistinctIds(xs)
    requires h in live && live[h] == host != "" && h !in Touched(p.actions) && h in After(p.actions, live.Keys)
    requires forall a, b, c :: select(a, b, c) != ""
    requires DistinctIds(p.task.inputs) && p.task.worker == host && SyncedBut(p.task.inputs, xs, e)
    requires Sound(p.actions, live)
    ensures InputsAbsorbed(Absorb(p, h, host, xs, n, false, select).task.inputs, xs, n, e)
    ensures ActionsAbsorbed(Absorb(p, h, host, xs, n, false, select), p.actions, live, h, host, Met(xs, n, e))
  {
    if n > 0 {
      AbsorbSteps(p, live, h, host, xs, n - 1, e, select);
      var q := Absorb(p, h, host, xs, n - 1, false, select);
      InputsStep(q.task.inputs, xs, n - 1, e);
      ActionsStep(q, p.actions, live, h, host, xs[n - 1], n - 1, Met(xs, n - 1, e), xs[n - 1].id == e, select);
      assert Met(xs, n, e) <==> Met(xs, n - 1, e) || xs[n - 1].id == e;
    }
  }

  // ----- All relevant groups of one notification -----

  /** Every planned task is on the worker recorded for it, with one input per entity. */
  ghost predicate Settled(f: Flow)
  {
    forall h :: h in f.plan ==> TaskSettled(f, h)
  }

  ghost predicate TaskSettled(f: Flow, h: HashId)
    requires h in f.plan
  {
    h in f.deployed && f.deployed[h] == f.plan[h].worker != "" && DistinctIds(f.plan[h].inputs)
  }

  ghost function Live(f: Flow): map<HashId, WorkerId>
  {
    map h | h in f.plan && h in f.deployed :: f.deployed[h]
  }

  /** The groups may be planned: their hashes differ, and of an existing task only `e` may have moved. */
  ghost predicate Ready(f: Flow, hash: Group -> HashId, c: Choices, e: EntityId)
  {
    && (forall i, j :: 0 <= i < j < |c.groups| ==> hash(c.groups[i]) != hash(c.groups[j]))
    && (forall i :: 0 <= i < |c.groups| ==> GroupReady(f, hash(c.groups[i]), c.Found(c.groups[i]), e))
    && (forall a, b, p :: c.select(a, b, p) != "")
  }

  ghost predicate GroupReady(f: Flow, h: HashId, xs: seq<Input>, e: EntityId)
  {
    DistinctIds(xs) && (h in f.plan ==> SyncedBut(f.plan[h].inputs, xs, e))
  }

  ghost predicate ActionsExpanded(f: Flow, x: Expansion, hash: Group -> HashId, groups: seq<Group>, n: nat)
    requires n <= |groups|
  {
    && Sound(x.actions, Live(f)) && After(x.actions, Live(f).Keys) == x.plan.Keys
    && (forall h :: h in Touched(x.actions) ==> IsHashOf(groups, n, hash, h))
    && (forall h :: h in x.plan && h !in Touched(x.actions) ==> h in f.plan && x.plan[h].worker == f.plan[h].worker)
  }

  ghost predicate PlanExpanded(f: Flow, x: Expansion, hash: Group -> HashId, c: Choices, n: nat)
    requires n <= |c.groups|
  {
    && (forall h :: h in x.plan ==> DistinctIds(x.plan[h].inputs))
    && (forall h :: !IsHashOf(c.groups, n, hash, h) ==> (h in x.plan <==> h in f.plan))
    && (forall h :: h in f.plan && !IsHashOf(c.groups, n, hash, h) ==> x.plan[h] == f.plan[h])
    && (forall i :: 0 <= i < n ==> GroupPlanned(x.plan, hash(c.groups[i]), c.Found(c.groups[i])))
  }

  ghost predicate GroupPlanned(plan: map<HashId, TaskConfig>, h: HashId, xs: seq<Input>)
  {
    h in plan && Synced(plan[h].inputs, xs, |xs|)
  }

  /** One more group: what `Absorb` or the creation of the task yields. */
  ghost predicate GroupStep(f: Flow, prev: Expansion, next: Expansion, h: HashId, xs: seq<Input>)
  {
    && next.plan.Keys == prev.plan.Keys + {h}
    && (forall k :: k in prev.plan && k != h ==> next.plan[k] == prev.plan[k])
    && DistinctIds(next.plan[h].inputs) && Synced(next.plan[h].inputs, xs, |xs|)
    && Sound(next.actions, Live(f)) && After(next.actions, Live(f).Keys) == next.plan.Keys
    && (if h in Touched(next.actions) then Touched(next.actions) == Touched(prev.actions) + {h}
        else Touched(next.actions) == Touched(prev.actions) && h in f.plan && next.plan[h].worker == f.plan[h].worker)
  }

  lemma ExistingGroupStep(f: Flow, prev: Expansion, h: HashId, xs: seq<Input>, e: EntityId, select: Selection)
    requires Settled(f) && GroupReady(f, h, xs, e) && forall a, b, p :: select(a, b, p) != ""
    requires h in f.plan && h in prev.plan && prev.plan[h] == f.plan[h] && h !in Touched(prev.actions)
    requires Sound(prev.actions, Live(f)) && After(prev.actions, Live(f).Keys) == prev.plan.Keys
    ensures
      var p := Absorb(Progress(prev.plan[h], prev.actions), h, Host(f, h), xs, |xs|, false, select);
      GroupStep(f, prev, Expansion(prev.plan[h := p.task], p.actions), h, xs)
  {
    assert TaskSettled(f, h);
    AbsorbSteps(Progress(prev.plan[h], prev.actions), Live(f), h, Host(f, h), xs, |xs|, e, select);
  }

  lemma NewGroupStep(f: Flow, prev: Expansion, h: HashId, xs: seq<Input>)
    requires DistinctIds(xs) && h !in prev.plan
    requires Sound(prev.actions, Live(f)) && After(prev.actions, Live(f).Keys) == prev.plan.Keys
    ensures GroupStep(f, prev, Expansion(prev.plan[h := TaskConfig("", xs)], prev.actions + [AddTask(h, xs)]), h, xs)
  {
    SoundAppend(prev.actions, AddTask(h, xs), Live(f));
  }

  lemma {:induction false} ExpandSound(f: Flow, hash: Group -> HashId, c: Choices, e: EntityId, n: nat)
    requires n <= |c.groups| && Settled(f) && Ready(f, hash, c, e)
    ensures ActionsExpanded(f, Expand(f, hash, c, false, n), hash, c.groups, n)
    ensures PlanExpanded(f, Expand(f, hash, c, false, n), hash, c, n)
  {
    if n == 0 {
      assert forall h :: h in f.plan ==> TaskSettled(f, h);
      assert Live(f).Keys == f.plan.Keys;
    } else {
      ExpandSound(f, hash, c, e, n - 1);
      var prev := Expand(f, hash, c, false, n - 1);
      var h, xs := hash(c.groups[n - 1]), c.Found(c.groups[n - 1]);
      assert !IsHashOf(c.groups, n - 1, hash, h);
      assert GroupReady(f, h, xs, e);
      if h in prev.plan {
        ExistingGroupStep(f, prev, h, xs, e, c.select);
      } else {
        NewGroupStep(f, prev, h, xs);
      }
      GroupStepExpands(f, prev, Expand(f, hash, c, false, n), hash, c, n);
    }
  }

  lemma IsHashOfNext(groups: seq<Group>, n: nat, hash: Group -> HashId, h: HashId)
    requires 0 < n <= |groups|
    ensures IsHashOf(groups, n, hash, h) <==> IsHashOf(groups, n - 1, hash, h) || h == hash(groups[n - 1])
  {
  }

  lemma GroupStepExpands(f: Flow, prev: Expansion, next: Expansion, hash: Group -> HashId, c: Choices, n: nat)
    requires 0 < n <= |c.groups|
    requires !IsHashOf(c.groups, n - 1, hash, hash(c.groups[n - 1]))
    requires GroupStep(f, prev, next, hash(c.groups[n - 1]), c.Found(c.groups[n - 1]))
    requires ActionsExpanded(f, prev, hash, c.groups, n - 1) && PlanExpanded(f, prev, hash, c, n - 1)
    ensures ActionsExpanded(f, next, hash, c.groups, n) && PlanExpanded(f, next, hash, c, n)
  {
    forall k ensures IsHashOf(c.groups, n, hash, k) <==>
                     IsHashOf(c.groups, n - 1, hash, k) || k == hash(c.groups[n - 1]) {
      IsHashOfNext(c.groups, n, hash, k);
    }
    GroupsPlanned(f, prev, next, hash, c, n);
  }

  lemma GroupsPlanned(f: Flow, prev: Expansion, next: Expansion, hash: Group -> HashId, c: Choices, n: nat)
    requires 0 < n <= |c.groups|
    requires !IsHashOf(c.groups, n - 1, hash, hash(c.groups[n - 1]))
    requires GroupStep(f, prev, next, hash(c.groups[n - 1]), c.Found(c.groups[n - 1]))
    requires PlanExpanded(f, prev, hash, c, n - 1)
    ensures forall i :: 0 <= i < n ==> GroupPlanned(next.plan, hash(c.groups[i]), c.Found(c.groups[i]))
  {
    forall i | 0 <= i < n ensures GroupPlanned(next.plan, hash(c.groups[i]), c.Found(c.groups[i])) {
      if i < n - 1 {
        assert GroupPlanned(prev.plan, hash(c.groups[i]), c.Found(c.groups[i]));
        assert IsHashOf(c.groups, n - 1, hash, hash(c.groups[i]));
      }
    }
  }

  // ----- A deleted entity -----

  lemma {:induction false} WithoutKeeps(inputs: seq<Input>, e: EntityId)
    requires DistinctIds(inputs)
    ensures DistinctIds(Without(inputs, e))
    ensures forall x :: x in Without(inputs, e) <==> x in inputs && x.id != e
  {
    if inputs != [] {
      WithoutKeeps(inputs[1..], e);
      assert inputs == [inputs[0]] + inputs[1..];
      var rest := Without(inputs[1..], e);
      assert forall j :: 0 <= j < |rest| ==> rest[j] in inputs[1..];
    }
  }

  lemma {:induction false} WithoutTwice(inputs: seq<Input>, e: EntityId)
    ensures Without(Without(inputs, e), e) == Without(inputs, e)
  {
    if inputs != [] {
      WithoutTwice(inputs[1..], e);
      var rest := Without(inputs[1..], e);
      assert ([inputs[0]] + rest)[1..] == rest;
    }
  }

  ghost predicate PlanShrunk(f: Flow, x: Expansion)
  {
    && Sound(x.actions, Live(f)) && After(x.actions, Live(f).Keys) == x.plan.Keys
    && x.plan.Keys !! Touched(x.actions)
    && forall h :: h in x.plan ==> TaskShrunk(f, x, h)
  }

  ghost predicate TaskShrunk(f: Flow, x: Expansion, h: HashId)
    requires h in x.plan
  {
    && h in f.plan && x.plan[h].worker == f.plan[h].worker
    && DistinctIds(x.plan[h].inputs)
    && forall i :: i in x.plan[h].inputs ==> i in f.plan[h].inputs
  }

  lemma {:induction false} ShrinkSound(f: Flow, hash: Group -> HashId, streams: seq<string>, c: Choices, e: EntityId,
                                       n: nat)
    requires n <= |c.groups| && Settled(f)
    ensures PlanShrunk(f, Shrink(f, hash, streams, c, e, n))
  {
    if n == 0 {
      assert forall h :: h in f.plan ==> TaskSettled(f, h);
      assert Live(f).Keys == f.plan.Keys;
    } else {
      ShrinkSound(f, hash, streams, c, e, n - 1);
      var prev := Shrink(f, hash, streams, c, e, n - 1);
      var h := hash(c.groups[n - 1]);
      if h in prev.plan {
        ShrinkOneSound(f, prev, h, e, HasAllStreams(Without(prev.plan[h].inputs, e), streams));
      }
    }
  }

  lemma ShrinkOneSound(f: Flow, prev: Expansion, h: HashId, e: EntityId, keep: bool)
    requires Settled(f) && PlanShrunk(f, prev) && h in prev.plan
    ensures
      var inputs := Without(prev.plan[h].inputs, e);
      PlanShrunk(f, if keep then Expansion(prev.plan[h := prev.plan[h].(inputs := inputs)],
                                           prev.actions + [RemoveInput(h, Host(f, h), e)])
                    else Expansion(prev.plan - {h},
                                   prev.actions + (if h in f.deployed then [RemoveTask(h, f.deployed[h])] else [])))
  {
    assert TaskShrunk(f, prev, h);
    assert TaskSettled(f, h);
    WithoutKeeps(prev.plan[h].inputs, e);
    SoundAppend(prev.actions, if keep then RemoveInput(h, Host(f, h), e) else RemoveTask(h, f.deployed[h]), Live(f));
    forall k | k in prev.plan ensures TaskShrunk(f, prev, k) {}
  }

  // ----- Replaying the commands -----

  /** The worker each live task is on, or `None` if a task was placed twice or removed from elsewhere. */
  function Replay(log: seq<Command>): Option<map<HashId, WorkerId>>
  {
    if log == [] then Some(map[])
    else match Replay(log[..|log| - 1])
      case None => None
      case Some(live) =>
        match log[|log| - 1]
        case Deploy(h, w, _) => if h in live then None else Some(live[h := w])
        case Undeploy(h, w) => if h in live && live[h] == w then Some(live - {h}) else None
        case _ => Some(live)
  }

  lemma ReplayAppend(log: seq<Command>, c: Command)
    requires Replay(log).Some?
    ensures
      var live := Replay(log).value;
      Replay(log + [c]) == match c
                           case Deploy(h, w, _) => if h in live then None else Some(live[h := w])
                           case Undeploy(h, w) => if h in live && live[h] == w then Some(live - {h}) else None
                           case _ => Some(live)
  {
    assert (log + [c])[..|log|] == log;
  }

  /** Touched tasks are where they were placed, the others where they were. */
  ghost predicate Whereabouts(f: Flow, now: map<HashId, WorkerId>, touched: set<HashId>, live: map<HashId, WorkerId>)
  {
    && (forall h :: h in now && h !in touched ==> h in live && now[h] == live[h])
    && (forall h :: h in now && h in touched ==> PlacedAs(f, h, now[h]))
  }

  ghost predicate Carried(o: Outcome, acts: seq<Action>, live: map<HashId, WorkerId>)
  {
    && !o.stopped && Replay(o.log).Some?
    && Replay(o.log).value.Keys == After(acts, live.Keys)
    && Whereabouts(o.flow, Replay(o.log).value, Touched(acts), live)
  }

  lemma WhereaboutsAdd(f: Flow, now: map<HashId, WorkerId>, touched: set<HashId>, live: map<HashId, WorkerId>,
                       h: HashId, w: WorkerId)
    requires Whereabouts(f, now, touched, live) && h !in now && w != ""
    ensures Whereabouts(Placed(f, h, w), now[h := w], touched + {h}, live)
  {
    var f', now' := Placed(f, h, w), now[h := w];
    forall k | k in now' && k in touched + {h} ensures PlacedAs(f', k, now'[k]) {
      if k != h {
        assert PlacedAs(f, k, now[k]);
      }
    }
  }

  ghost predicate PlacedAs(f: Flow, h: HashId, w: WorkerId)
  {
    w != "" && h in f.deployed && f.deployed[h] == w && (h in f.plan ==> f.plan[h].worker == w)
  }

  lemma CarriedAdd(o: Outcome, acts: seq<Action>, h: HashId, inputs: seq<Input>, w: WorkerId,
                   live: map<HashId, WorkerId>)
    requires Carried(o, acts, live) && Sound(acts, live) && h !in After(acts, live.Keys) && w != ""
    ensures Carried(Outcome(Placed(o.flow, h, w), o.log + [Deploy(h, w, inputs)], false),
                    acts + [AddTask(h, inputs)], live)
  {
    SoundAppend(acts, AddTask(h, inputs), live);
    ReplayAppend(o.log, Deploy(h, w, inputs));
    WhereaboutsAdd(o.flow, Replay(o.log).value, Touched(acts), live, h, w);
  }

  lemma CarriedRemove(o: Outcome, acts: seq<Action>, h: HashId, w: WorkerId, live: map<HashId, WorkerId>)
    requires Carried(o, acts, live) && Sound(acts, live)
    requires h in live && live[h] == w && h !in Touched(acts)
    ensures Carried(o.(log := o.log + [Undeploy(h, w)]), acts + [RemoveTask(h, w)], live)
  {
    SoundAppend(acts, RemoveTask(h, w), live);
    UntouchedStays(acts, live.Keys, h);
    ReplayAppend(o.log, Undeploy(h, w));
  }

  lemma CarriedInput(o: Outcome, acts: seq<Action>, a: Action, c: Command, live: map<HashId, WorkerId>)
    requires Carried(o, acts, live) && Sound(acts, live)
    requires (a.AddInput? && c.Feed?) || (a.RemoveInput? && c.Starve?)
    ensures Carried(o.(log := o.log + [c]), acts + [a], live)
  {
    SoundAppend(acts, a, live);
    ReplayAppend(o.log, c);
  }

  lemma CarriedOne(o: Outcome, acts: seq<Action>, a: Action, live: map<HashId, WorkerId>, place: Placement)
    requires Carried(o, acts, live) && Sound(acts + [a], live) && forall i, p :: place(i, p) != ""
    requires forall h :: h in live ==> live[h] != ""
    ensures Carried(CarryOutOne(o, a, |acts|, place), acts + [a], live)
  {
    assert (acts + [a])[..|acts|] == acts;
    match a
    case AddTask(h, inputs) =>
      var w := place(|acts|, if h in o.flow.plan then Locations(o.flow.plan[h].inputs) else []);
      CarriedAdd(o, acts, h, inputs, w, live);
    case RemoveTask(h, w) => CarriedRemove(o, acts, h, w, live);
    case AddInput(h, w, x) => CarriedInput(o, acts, a, Feed(h, w, x), live);
    case RemoveInput(h, w, e) => CarriedInput(o, acts, a, Starve(h, w, e), live);
  }

  lemma {:induction false} SoundPrefix(acts: seq<Action>, live: map<HashId, WorkerId>, n: nat)
    requires Sound(acts, live) && n <= |acts|
    ensures Sound(acts[..n], live)
    decreases |acts|
  {
    if n < |acts| {
      SoundPrefix(acts[..|acts| - 1], live, n);
      assert acts[..|acts| - 1][..n] == acts[..n];
    } else {
      assert acts[..n] == acts;
    }
  }

  lemma {:induction false} CarryOutReplays(f: Flow, log: seq<Command>, acts: seq<Action>, n: nat, place: Placement,
                                           live: map<HashId, WorkerId>)
    requires n <= |acts| && Sound(acts, live) && Replay(log) == Some(live)
    requires forall i, p :: place(i, p) != ""
    requires forall h :: h in live ==> live[h] != ""
    ensures Carried(CarryOut(f, log, acts, n, place), acts[..n], live)
  {
    if n > 0 {
      CarryOutReplays(f, log, acts, n - 1, place, live);
      SoundPrefix(acts, live, n);
      assert acts[..n] == acts[..n - 1] + [acts[n - 1]];
      CarriedOne(CarryOut(f, log, acts, n - 1, place), acts[..n - 1], acts[n - 1], live, place);
    }
  }

  /** Carrying out actions changes where touched tasks are, and nothing else. */
  ghost predicate SameBut(f: Flow, o: Flow, touched: set<HashId>)
  {
    && o.subs == f.subs && o.unique == f.unique && o.plan.Keys == f.plan.Keys
    && (forall h :: h in f.plan ==> o.plan[h].inputs == f.plan[h].inputs)
    && (forall h :: h !in touched && h in f.deployed ==> h in o.deployed && o.deployed[h] == f.deployed[h])
    && (forall h :: h !in touched && h in f.plan ==> o.plan[h] == f.plan[h])
  }

  lemma {:induction false} CarryOutFrame(f: Flow, log: seq<Command>, acts: seq<Action>, n: nat, place: Placement)
    requires n <= |acts|
    ensures SameBut(f, CarryOut(f, log, acts, n, place).flow, Touched(acts))
  {
    if n > 0 {
      CarryOutFrame(f, log, acts, n - 1, place);
      if acts[n - 1].AddTask? {
        TouchedMember(acts, n - 1);
      }
    }
  }

  /** The actions take the tasks of `f` to those of the plan of `d`. */
  ghost predicate Fits(f: Flow, d: Flow, acts: seq<Action>)
  {
    && d.deployed == f.deployed
    && Sound(acts, Live(f)) && After(acts, Live(f).Keys) == d.plan.Keys
    && (forall h :: h in d.plan ==> DistinctIds(d.plan[h].inputs))
    && (forall h :: h in d.plan && h !in Touched(acts) ==> h in f.plan && d.plan[h].worker == f.plan[h].worker)
  }

  /** A settled flow with sound actions is settled again, and the log replays to where its tasks are. */
  lemma CarryOutSettles(f: Flow, d: Flow, log: seq<Command>, acts: seq<Action>, place: Placement)
    requires Settled(f) && Replay(log) == Some(Live(f)) && Fits(f, d, acts)
    requires forall i, p :: place(i, p) != ""
    ensures
      var o := CarryOut(d, log, acts, |acts|, place);
      Settled(o.flow) && Replay(o.log) == Some(Live(o.flow))
  {
    var o := CarryOut(d, log, acts, |acts|, place);
    forall h | h in Live(f) ensures Live(f)[h] != "" {
      assert TaskSettled(f, h);
    }
    CarryOutReplays(d, log, acts, |acts|, place, Live(f));
    assert acts[..|acts|] == acts;
    CarryOutFrame(d, log, acts, |acts|, place);
    var now := Replay(o.log).value;
    forall h | h in o.flow.plan ensures TaskSettled(o.flow, h) && h in now && now[h] == o.flow.deployed[h] {
      if h in Touched(acts) {
        assert PlacedAs(o.flow, h, now[h]);
      } else {
        assert TaskSettled(f, h);
      }
    }
    assert now == Live(o.flow);
  }
}
