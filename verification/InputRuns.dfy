/** Which worker the ADD_INPUT and REMOVE_INPUT commands of a run go to (master/taskMgr.go). */
module InputRuns {
  import opened Wrappers
  import opened Listings
  import opened Planner
  import opened PlannerProofs
  import opened InputProofs
  import opened PlacementProofs
  import opened Relevance
  import opened PlacementRuns

  predicate IsInputAction(a: Action)
  {
    a.AddInput? || a.RemoveInput?
  }

  /** The command goes to the worker its task is on after the commands in the log. */
  ghost predicate NamesPlace(log: seq<Command>, a: Action)
    requires IsInputAction(a)
  {
    Replay(log).Some? && a.task in Replay(log).value && Replay(log).value[a.task] == a.worker
  }

  /** Every input action is for a task that is then planned, and names the worker it was on to begin with. */
  ghost predicate Named(live: map<HashId, WorkerId>, acts: seq<Action>)
  {
    forall i :: 0 <= i < |acts| && IsInputAction(acts[i]) ==> NamedAfter(live, acts[..i], acts[i])
  }

  ghost predicate NamedAfter(live: map<HashId, WorkerId>, before: seq<Action>, a: Action)
    requires IsInputAction(a)
  {
    a.task in live && a.worker == live[a.task] && a.task in After(before, live.Keys)
  }

  lemma NamedAppend(live: map<HashId, WorkerId>, acts: seq<Action>, a: Action)
    requires Named(live, acts) && (IsInputAction(a) ==> NamedAfter(live, acts, a))
    ensures Named(live, acts + [a])
    ensures forall h :: h in After(acts, live.Keys) && !a.RemoveTask? ==> h in After(acts + [a], live.Keys)
    ensures a.AddTask? ==> a.task in After(acts + [a], live.Keys)
  {
    var more := acts + [a];
    assert more[..|acts|] == acts;
    forall i | 0 <= i < |more| && IsInputAction(more[i]) ensures NamedAfter(live, more[..i], more[i]) {
      assert i < |acts| ==> more[..i] == acts[..i];
    }
  }

  // ----- The actions of one notification -----

  ghost predicate NamedFor(live: map<HashId, WorkerId>, acts: seq<Action>, h: HashId)
  {
    Named(live, acts) && h in After(acts, live.Keys)
  }

  lemma AbsorbOneNamed(p: Progress, live: map<HashId, WorkerId>, h: HashId, host: WorkerId, x: Input, j: nat,
                       select: Selection)
    requires h in live && live[h] == host && NamedFor(live, p.actions, h)
    ensures NamedFor(live, AbsorbOne(p, h, host, x, j, false, select).actions, h)
  {
    var q := AbsorbOne(p, h, host, x, j, false, select);
    if IsNewInput(p.task.inputs, x, false) {
      NamedAppend(live, p.actions, AddInput(h, host, x));
    } else if q.actions != p.actions {
      var mid := p.actions + (if p.task.worker != "" then [RemoveTask(h, host)] else []);
      if p.task.worker != "" {
        NamedAppend(live, p.actions, RemoveTask(h, host));
      } else {
        assert mid == p.actions;
      }
      NamedAppend(live, mid, AddTask(h, q.task.inputs));
      assert q.actions == mid + [AddTask(h, q.task.inputs)];
    }
  }

  lemma AbsorbNamed(p: Progress, live: map<HashId, WorkerId>, h: HashId, host: WorkerId, xs: seq<Input>,
                    select: Selection)
    requires h in live && live[h] == host && NamedFor(live, p.actions, h)
    ensures Named(live, Absorb(p, h, host, xs, |xs|, false, select).actions)
  {
    var keeps := (n: nat, q: Progress) => NamedFor(live, q.actions, h);
    forall i, q | 0 <= i < |xs| && keeps(i, q) ensures keeps(i + 1, AbsorbOne(q, h, host, xs[i], i, false, select)) {
      AbsorbOneNamed(q, live, h, host, xs[i], i, select);
    }
    AbsorbInduction(keeps, p, h, host, xs, |xs|, false, select);
  }

  lemma {:induction false} ExpandNamed(f: Flow, hash: Group -> HashId, c: Choices, e: EntityId, n: nat)
    requires n <= |c.groups| && Settled(f) && Ready(f, hash, c, e)
    ensures Named(Live(f), Expand(f, hash, c, false, n).actions)
  {
    if n > 0 {
      ExpandNamed(f, hash, c, e, n - 1);
      ExpandSound(f, hash, c, e, n - 1);
      var h := hash(c.groups[n - 1]);
      assert !IsHashOf(c.groups, n - 1, hash, h);
      ExpandOneNamed(f, Expand(f, hash, c, false, n - 1), h, c.Found(c.groups[n - 1]), c.select);
    }
  }

  lemma ExpandOneNamed(f: Flow, prev: Expansion, h: HashId, xs: seq<Input>, select: Selection)
    requires Settled(f) && Named(Live(f), prev.actions) && After(prev.actions, Live(f).Keys) == prev.plan.Keys
    requires h in prev.plan ==> h in f.plan
    ensures Named(Live(f), ExpandOne(f, prev, h, xs, false, select).actions)
  {
    if h in prev.plan {
      assert TaskSettled(f, h);
      AbsorbNamed(Progress(prev.plan[h], prev.actions), Live(f), h, Host(f, h), xs, select);
    } else {
      NamedAppend(Live(f), prev.actions, AddTask(h, xs));
    }
  }

  /** A DELETE names every worker before it touches the task. */
  ghost predicate NamedUntouched(acts: seq<Action>)
  {
    forall i :: 0 <= i < |acts| && IsInputAction(acts[i]) ==> acts[i].task !in Touched(acts[..i])
  }

  lemma {:induction false} ShrinkNamed(f: Flow, hash: Group -> HashId, streams: seq<string>, c: Choices, e: EntityId,
                                       n: nat)
    requires n <= |c.groups| && Settled(f)
    ensures Named(Live(f), Shrink(f, hash, streams, c, e, n).actions)
    ensures NamedUntouched(Shrink(f, hash, streams, c, e, n).actions)
  {
    if n > 0 {
      ShrinkNamed(f, hash, streams, c, e, n - 1);
      ShrinkSound(f, hash, streams, c, e, n - 1);
      var prev := Shrink(f, hash, streams, c, e, n - 1);
      var h := hash(c.groups[n - 1]);
      if h in prev.plan {
        ShrinkOneNamed(f, prev, h, streams, e);
      }
    }
  }

  lemma ShrinkOneNamed(f: Flow, prev: Expansion, h: HashId, streams: seq<string>, e: EntityId)
    requires Settled(f) && PlanShrunk(f, prev) && h in prev.plan && Named(Live(f), prev.actions)
    requires NamedUntouched(prev.actions)
    ensures Named(Live(f), ShrinkOne(f, prev, h, streams, e).actions)
    ensures NamedUntouched(ShrinkOne(f, prev, h, streams, e).actions)
  {
    assert TaskShrunk(f, prev, h);
    assert TaskSettled(f, h);
    var a := if HasAllStreams(Without(prev.plan[h].inputs, e), streams) then RemoveInput(h, Host(f, h), e)
             else RemoveTask(h, f.deployed[h]);
    NamedAppend(Live(f), prev.actions, a);
    var acts := prev.actions + [a];
    assert ShrinkOne(f, prev, h, streams, e).actions == acts;
    forall i | 0 <= i < |acts| && IsInputAction(acts[i]) ensures acts[i].task !in Touched(acts[..i]) {
      assert acts[..i] == prev.actions[..i];
      assert i == |prev.actions| ==> prev.actions[..i] == prev.actions;
    }
  }

  // ----- When the action is carried out -----

  /** An input action names the place of its task exactly when the task has not been placed anew before in the same
      notification, or has been placed where it was. */
  lemma NamesPlaceIff(f: Flow, d: Flow, log: seq<Command>, acts: seq<Action>, i: nat, place: Placement)
    requires Settled(f) && Replay(log) == Some(Live(f)) && Sound(acts, Live(f)) && Named(Live(f), acts)
    requires forall j, p :: place(j, p) != ""
    requires i < |acts| && IsInputAction(acts[i])
    ensures
      var o := CarryOut(d, log, acts, i, place);
      NamesPlace(o.log, acts[i])
      <==> (acts[i].task in Touched(acts[..i]) ==> Host(o.flow, acts[i].task) == acts[i].worker)
  {
    forall h | h in Live(f) ensures Live(f)[h] != "" {
      assert TaskSettled(f, h);
    }
    CarryOutReplays(d, log, acts, i, place, Live(f));
    assert NamedAfter(Live(f), acts[..i], acts[i]);
    var o, h := CarryOut(d, log, acts, i, place), acts[i].task;
    if h in Touched(acts[..i]) {
      assert PlacedAs(o.flow, h, Replay(o.log).value[h]);
    }
  }

  /** The actions of a notification are sound and name the workers of the flow. */
  lemma DecidedNamed(f: Flow, log: seq<Command>, hash: Group -> HashId, streams: seq<string>, ev: Event, c: Choices)
    requires Orderly(f, log, hash) && OwnEntity(f, ev) && AlwaysFinds(c) && (ev.sub in f.subs ==> Legal(f, ev, c))
    requires InjectiveOn(Decide(f, hash, streams, ev, c).0.unique, hash)
    ensures
      var acts := Decide(f, hash, streams, ev, c).1;
      Sound(acts, Live(f)) && Named(Live(f), acts) && (ev.isDelete ==> NamedUntouched(acts))
  {
    if ev.sub in f.subs && Plans(f, ev) {
      if ev.isDelete {
        ShrinkSound(f, hash, streams, c, ev.reg.id, |c.groups|);
        ShrinkNamed(f, hash, streams, c, ev.reg.id, |c.groups|);
      } else {
        RecordedExpanding(f, log, hash, ev);
        ExpandedNamed(f, Recorded(f, ev.sub, ev.reg), hash, ev.sub, ev.reg.id, c);
      }
    }
  }

  lemma ExpandedNamed(f: Flow, f': Flow, hash: Group -> HashId, s: SubId, e: EntityId, c: Choices)
    requires Settled(f) && Expanding(f, f', s, e, hash) && AlwaysFinds(c) && Distinct(c.groups)
    requires forall g :: g in c.groups <==> IsRelevant(f'.unique, f'.subs[s].selector, f'.subs[s].regs[e], g)
    requires forall g :: g in c.groups ==> ListsRelevant(f', g, c.Found(g))
    ensures
      var acts := Expand(f', hash, c, false, |c.groups|).actions;
      Sound(acts, Live(f)) && Named(Live(f), acts)
  {
    forall g | g in c.groups ensures IsFull(f'.unique, g) {
      RelevantIsFull(f', s, e, g);
    }
    ReadyToExpand(f, f', s, e, hash, c);
    SettledSame(f, f');
    ExpandSound(f', hash, c, e, |c.groups|);
    ExpandNamed(f', hash, c, e, |c.groups|);
  }

  /** In every run of the placement theorem: an ADD_INPUT or REMOVE_INPUT goes to the worker its task is on if and
      only if the task has not migrated to another worker earlier in the same notification; a DELETE never fails. */
  lemma RunNamesPlaceIff(r: Run, hash: Group -> HashId, streams: seq<string>, k: nat, i: nat)
    requires IsRun(r, hash, streams) && k < |r.events|
    requires AllByEntity(r.flows[0]) && NoKeyClash(r.flows[0])
    requires forall j :: 0 <= j < |r.events| ==> Respected(r, hash, j)
    requires
      var acts := Decide(r.flows[k], hash, streams, r.events[k], r.choices[k]).1;
      i < |acts| && IsInputAction(acts[i])
    ensures
      var (d, acts) := Decide(r.flows[k], hash, streams, r.events[k], r.choices[k]);
      var o := CarryOut(d, r.logs[k], acts, i, r.choices[k].place);
      && (NamesPlace(o.log, acts[i])
          <==> (acts[i].task in Touched(acts[..i]) ==> Host(o.flow, acts[i].task) == acts[i].worker))
      && (r.events[k].isDelete ==> NamesPlace(o.log, acts[i]))
  {
    RunOrderly(r, hash, streams, k);
    assert IsStep(r, hash, streams, k);
    assert Respected(r, hash, k);
    var f, ev, c := r.flows[k], r.events[k], r.choices[k];
    var (d, acts) := Decide(f, hash, streams, ev, c);
    CarryOutKeeps(d, r.logs[k], acts, |acts|, c.place);
    DecidedNamed(f, r.logs[k], hash, streams, ev, c);
    NamesPlaceIff(f, d, r.logs[k], acts, i, c.place);
  }
}
