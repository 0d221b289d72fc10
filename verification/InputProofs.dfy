/** Which inputs a task has after it met its relevant entities (master/taskMgr.go), for selectors by entity and by type
    alike. */
module InputProofs {
  import opened Planner

  // ----- Counting inputs -----

  /** What inputs are told apart by: the type when the notified selector is by type alone, otherwise the id. */
  function KeyOf(x: Input, byType: bool): string
  {
    if byType then x.typ else x.id
  }

  function CountKey(inputs: seq<Input>, byType: bool, k: string): nat
  {
    if inputs == [] then 0
    else CountKey(inputs[..|inputs| - 1], byType, k) + if KeyOf(inputs[|inputs| - 1], byType) == k then 1 else 0
  }

  /** One of the first `n` entities has that key. */
  ghost predicate MetKey(xs: seq<Input>, n: nat, byType: bool, k: string)
    requires n <= |xs|
  {
    exists i :: 0 <= i < n && KeyOf(xs[i], byType) == k
  }

  /** The ADD_INPUT actions for that key. */
  function CountAdds(acts: seq<Action>, byType: bool, k: string): nat
  {
    if acts == [] then 0
    else
      var a := acts[|acts| - 1];
      CountAdds(acts[..|acts| - 1], byType, k) + if a.AddInput? && KeyOf(a.input, byType) == k then 1 else 0
  }

  lemma CountAppend(inputs: seq<Input>, x: Input, byType: bool, k: string)
    ensures CountKey(inputs + [x], byType, k)
            == CountKey(inputs, byType, k) + if KeyOf(x, byType) == k then 1 else 0
  {
    assert (inputs + [x])[..|inputs|] == inputs;
  }

  lemma AddsAppend(acts: seq<Action>, a: Action, byType: bool, k: string)
    ensures CountAdds(acts + [a], byType, k)
            == CountAdds(acts, byType, k) + if a.AddInput? && KeyOf(a.input, byType) == k then 1 else 0
  {
    assert (acts + [a])[..|acts|] == acts;
  }

  lemma {:induction false} CountPositive(inputs: seq<Input>, byType: bool, k: string)
    ensures CountKey(inputs, byType, k) > 0 <==> exists i :: 0 <= i < |inputs| && KeyOf(inputs[i], byType) == k
  {
    if inputs != [] {
      var init := inputs[..|inputs| - 1];
      CountPositive(init, byType, k);
      if i :| 0 <= i < |init| && KeyOf(init[i], byType) == k {
        assert KeyOf(inputs[i], byType) == k;
      }
      if i :| 0 <= i < |inputs| && KeyOf(inputs[i], byType) == k {
        assert i < |init| ==> KeyOf(init[i], byType) == k;
      }
    }
  }

  /** Moving an input changes no key. */
  lemma {:induction false} CountMoved(inputs: seq<Input>, i: nat, p: Point, byType: bool, k: string)
    requires i < |inputs|
    ensures CountKey(inputs[i := inputs[i].(location := p)], byType, k) == CountKey(inputs, byType, k)
  {
    var moved, n := inputs[i := inputs[i].(location := p)], |inputs| - 1;
    if i < n {
      assert moved[..n] == inputs[..n][i := inputs[i].(location := p)];
      CountMoved(inputs[..n], i, p, byType, k);
    } else {
      assert moved[..n] == inputs[..n];
    }
  }

  // ----- A task meets its relevant entities -----

  /** What holds at first and is carried on by meeting one entity holds after meeting them all. */
  lemma {:induction false} AbsorbInduction(keeps: (nat, Progress) -> bool, p: Progress, h: HashId, host: WorkerId,
                                           xs: seq<Input>, n: nat, byType: bool, select: Selection)
    requires n <= |xs| && keeps(0, p)
    requires forall i, q :: 0 <= i < |xs| && keeps(i, q)
                            ==> keeps(i + 1, AbsorbOne(q, h, host, xs[i], i, byType, select))
    ensures keeps(n, Absorb(p, h, host, xs, n, byType, select))
  {
    if n > 0 {
      AbsorbInduction(keeps, p, h, host, xs, n - 1, byType, select);
    }
  }

  /** From `p` to `q`, an input and an ADD_INPUT for the key were added if it was met and missing, and no other. */
  ghost predicate Counted(p: Progress, q: Progress, met: bool, byType: bool, k: string)
  {
    var before := CountKey(p.task.inputs, byType, k);
    var added := if met && before == 0 then 1 else 0;
    && CountKey(q.task.inputs, byType, k) == before + added
    && CountAdds(q.actions, byType, k) == CountAdds(p.actions, byType, k) + added
  }

  lemma AbsorbOneCounts(p: Progress, h: HashId, host: WorkerId, x: Input, j: nat, byType: bool, select: Selection,
                        k: string)
    ensures Counted(p, AbsorbOne(p, h, host, x, j, byType, select), KeyOf(x, byType) == k, byType, k)
  {
    var q, inputs := AbsorbOne(p, h, host, x, j, byType, select), p.task.inputs;
    CountPositive(inputs, byType, k);
    if q.task.inputs == inputs + [x] && q.actions == p.actions + [AddInput(h, host, x)] {
      CountAppend(inputs, x, byType, k);
      AddsAppend(p.actions, AddInput(h, host, x), byType, k);
    } else if q != p {
      CountMoved(inputs, FirstMoved(inputs, x), x.location, byType, k);
      if q.actions != p.actions {
        var mid := p.actions + (if p.task.worker != "" then [RemoveTask(h, host)] else []);
        if p.task.worker != "" {
          AddsAppend(p.actions, RemoveTask(h, host), byType, k);
        } else {
          assert mid == p.actions;
        }
        AddsAppend(mid, AddTask(h, q.task.inputs), byType, k);
      }
    }
  }

  ghost predicate CountedUpTo(p: Progress, q: Progress, xs: seq<Input>, n: nat, byType: bool, k: string)
  {
    n <= |xs| && Counted(p, q, MetKey(xs, n, byType, k), byType, k)
  }

  lemma CountedTwice(p: Progress, q: Progress, r: Progress, met: bool, isNext: bool, byType: bool, k: string)
    requires Counted(p, q, met, byType, k) && Counted(q, r, isNext, byType, k)
    ensures Counted(p, r, met || isNext, byType, k)
  {
  }

  lemma MetNext(xs: seq<Input>, i: nat, byType: bool, k: string)
    requires i < |xs|
    ensures MetKey(xs, i + 1, byType, k) <==> MetKey(xs, i, byType, k) || KeyOf(xs[i], byType) == k
  {
  }

  lemma CountedNext(p: Progress, q: Progress, h: HashId, host: WorkerId, xs: seq<Input>, i: nat, byType: bool,
                    select: Selection, k: string)
    requires i < |xs| && CountedUpTo(p, q, xs, i, byType, k)
    ensures CountedUpTo(p, AbsorbOne(q, h, host, xs[i], i, byType, select), xs, i + 1, byType, k)
  {
    var r := AbsorbOne(q, h, host, xs[i], i, byType, select);
    AbsorbOneCounts(q, h, host, xs[i], i, byType, select, k);
    CountedTwice(p, q, r, MetKey(xs, i, byType, k), KeyOf(xs[i], byType) == k, byType, k);
    MetNext(xs, i, byType, k);
  }

  /** After a task has met its relevant entities it has as many inputs of each key as before, or one if there was none
      and the key was met; and there is one ADD_INPUT for each key that was missing and was met. */
  lemma AbsorbCounts(p: Progress, h: HashId, host: WorkerId, xs: seq<Input>, byType: bool, select: Selection, k: string)
    ensures Counted(p, Absorb(p, h, host, xs, |xs|, byType, select), MetKey(xs, |xs|, byType, k), byType, k)
  {
    var keeps := (n: nat, q: Progress) => CountedUpTo(p, q, xs, n, byType, k);
    forall i, q | 0 <= i < |xs| && keeps(i, q)
      ensures keeps(i + 1, AbsorbOne(q, h, host, xs[i], i, byType, select))
    {
      CountedNext(p, q, h, host, xs, i, byType, select, k);
    }
    assert keeps(0, p);
    AbsorbInduction(keeps, p, h, host, xs, |xs|, byType, select);
    assert keeps(|xs|, Absorb(p, h, host, xs, |xs|, byType, select));
  }

  // ----- When nothing is to be done -----

  /** The task has an input of that key, and every input of the entity stands at its place. */
  ghost predicate InPlace(inputs: seq<Input>, x: Input, byType: bool)
  {
    && (exists i :: 0 <= i < |inputs| && KeyOf(inputs[i], byType) == KeyOf(x, byType))
    && (forall i :: 0 <= i < |inputs| && inputs[i].id == x.id ==> inputs[i].location == x.location)
  }

  /** Meeting an entity leaves a task alone if and only if the entity is in place. */
  lemma AbsorbOneIdleIff(p: Progress, h: HashId, host: WorkerId, x: Input, j: nat, byType: bool, select: Selection)
    ensures AbsorbOne(p, h, host, x, j, byType, select) == p <==> InPlace(p.task.inputs, x, byType)
  {
    var inputs := p.task.inputs;
    assert |inputs + [x]| > |inputs|;
    var k := FirstMoved(inputs, x);
    if k < |inputs| {
      assert inputs[k := inputs[k].(location := x.location)][k] != inputs[k];
    }
  }

  /** The first `n` entities are in place. */
  ghost predicate AllInPlace(inputs: seq<Input>, xs: seq<Input>, n: nat, byType: bool)
    requires n <= |xs|
  {
    n == 0 || (AllInPlace(inputs, xs, n - 1, byType) && InPlace(inputs, xs[n - 1], byType))
  }

  lemma {:induction false} AllInPlaceIff(inputs: seq<Input>, xs: seq<Input>, n: nat, byType: bool)
    requires n <= |xs|
    ensures AllInPlace(inputs, xs, n, byType) <==> forall i :: 0 <= i < n ==> InPlace(inputs, xs[i], byType)
  {
    if n > 0 {
      AllInPlaceIff(inputs, xs, n - 1, byType);
    }
  }

  lemma {:induction false} AbsorbIdle(p: Progress, h: HashId, host: WorkerId, xs: seq<Input>, n: nat, byType: bool,
                                      select: Selection)
    requires n <= |xs| && AllInPlace(p.task.inputs, xs, n, byType)
    ensures Absorb(p, h, host, xs, n, byType, select) == p
  {
    if n > 0 {
      AbsorbIdle(p, h, host, xs, n - 1, byType, select);
      AbsorbOneIdleIff(p, h, host, xs[n - 1], n - 1, byType, select);
    }
  }

  /** Actions are only ever added. */
  lemma AbsorbOneGrows(p: Progress, h: HashId, host: WorkerId, x: Input, j: nat, byType: bool, select: Selection)
    ensures |AbsorbOne(p, h, host, x, j, byType, select).actions| >= |p.actions|
  {
  }

  lemma {:induction false} AbsorbGrows(p: Progress, h: HashId, host: WorkerId, xs: seq<Input>, n: nat, byType: bool,
                                       select: Selection)
    requires n <= |xs|
    ensures |Absorb(p, h, host, xs, n, byType, select).actions| >= |p.actions|
  {
    if n > 0 {
      AbsorbGrows(p, h, host, xs, n - 1, byType, select);
      AbsorbOneGrows(Absorb(p, h, host, xs, n - 1, byType, select), h, host, xs[n - 1], n - 1, byType, select);
    }
  }

  /** A selection that never names this worker. */
  function Elsewhere(w: WorkerId): Selection
  {
    (h: HashId, j: nat, ps: seq<Point>) => w + "'"
  }

  /** An entity that is not in place leads to an action if another worker is selected. */
  lemma AbsorbOneBusy(p: Progress, h: HashId, host: WorkerId, x: Input, j: nat, byType: bool)
    requires !InPlace(p.task.inputs, x, byType)
    ensures |AbsorbOne(p, h, host, x, j, byType, Elsewhere(p.task.worker)).actions| > |p.actions|
  {
    AbsorbOneIdleIff(p, h, host, x, j, byType, Elsewhere(p.task.worker));
    assert |p.task.worker + "'"| > |p.task.worker|;
  }

  lemma {:induction false} AbsorbBusy(p: Progress, h: HashId, host: WorkerId, xs: seq<Input>, n: nat, byType: bool)
    requires n <= |xs| && !AllInPlace(p.task.inputs, xs, n, byType)
    ensures |Absorb(p, h, host, xs, n, byType, Elsewhere(p.task.worker)).actions| > |p.actions|
  {
    var select := Elsewhere(p.task.worker);
    if !AllInPlace(p.task.inputs, xs, n - 1, byType) {
      AbsorbBusy(p, h, host, xs, n - 1, byType);
      AbsorbOneGrows(Absorb(p, h, host, xs, n - 1, byType, select), h, host, xs[n - 1], n - 1, byType, select);
    } else {
      AbsorbIdle(p, h, host, xs, n - 1, byType, select);
      AbsorbOneBusy(p, h, host, xs[n - 1], n - 1, byType);
    }
  }

  /** Two selectors by type alone whose entities are at different places: both inputs carry the empty id, so meeting
      one moves the input of the other. */
  lemma OtherInputMoved(t: string, u: string, p: Point, q: Point, w: WorkerId, w': WorkerId, h: HashId)
    requires t != u && p != q && w' != w && w != ""
    ensures
      var inputs := [Input("", t, p), Input("", u, q)];
      var select: Selection := (h: HashId, j: nat, ps: seq<Point>) => w';
      AbsorbOne(Progress(TaskConfig(w, inputs), []), h, w, inputs[0], 0, true, select)
      == Progress(TaskConfig(w', [Input("", t, p), Input("", u, p)]),
                  [RemoveTask(h, w), AddTask(h, [Input("", t, p), Input("", u, p)])])
  {
    var inputs := [Input("", t, p), Input("", u, q)];
    assert inputs[1].id == "" && inputs[1].location != p;
    assert FirstMoved(inputs, inputs[0]) == 1;
    var moved := [Input("", t, p), Input("", u, p)];
    assert inputs[1 := inputs[1].(location := p)] == moved;
    assert [] + [RemoveTask(h, w)] + [AddTask(h, moved)] == [RemoveTask(h, w), AddTask(h, moved)];
    assert KeyOf(inputs[0], true) == t;
  }

  // ----- The registration a subscription keeps -----

  /** A registration after further ones for the same entity. */
  function UpdatedAll(reg: Registration, us: seq<Registration>): Registration
  {
    if us == [] then reg else Updated(UpdatedAll(reg, us[..|us| - 1]), us[|us| - 1])
  }

  /** `us[k]` is the last that has the metadata. */
  ghost predicate IsLatestWith(us: seq<Registration>, name: string, k: nat)
  {
    k < |us| && name in us[k].metadata && forall j :: k < j < |us| ==> name !in us[j].metadata
  }

  /** The metadata under a name are those of the latest registration that has them. */
  lemma {:induction false} LatestMetadata(reg: Registration, us: seq<Registration>, name: string, k: nat)
    requires IsLatestWith(us, name, k)
    ensures
      var after := UpdatedAll(reg, us).metadata;
      name in after && after[name] == us[k].metadata[name]
  {
    if k < |us| - 1 {
      LatestMetadata(reg, us[..|us| - 1], name, k);
    }
  }

  /** The type is that of the latest registration that gives one, or the first one's. */
  lemma {:induction false} LatestType(reg: Registration, us: seq<Registration>, k: nat)
    requires k <= |us| && (k < |us| ==> us[k].typ != "") && forall j :: k < j < |us| ==> us[j].typ == ""
    requires k == |us| ==> forall j :: 0 <= j < |us| ==> us[j].typ == ""
    ensures UpdatedAll(reg, us).typ == if k < |us| then us[k].typ else reg.typ
  {
    if us != [] && k < |us| - 1 {
      LatestType(reg, us[..|us| - 1], k);
    } else if us != [] && k == |us| {
      LatestType(reg, us[..|us| - 1], |us| - 1);
    }
  }

  /** An entity is where the latest registration with a location puts it. */
  lemma LatestLocation(reg: Registration, us: seq<Registration>, k: nat, p: Point)
    requires IsLatestWith(us, LOCATION, k) && us[k].metadata[LOCATION] == PointMetadata(p)
    ensures GetLocation(UpdatedAll(reg, us)) == p
  {
    LatestMetadata(reg, us, LOCATION, k);
  }

  /** Without one it stays where it was, and its id never changes. */
  lemma {:induction false} KeptLocation(reg: Registration, us: seq<Registration>)
    requires forall k :: 0 <= k < |us| ==> LOCATION !in us[k].metadata
    ensures GetLocation(UpdatedAll(reg, us)) == GetLocation(reg) && UpdatedAll(reg, us).id == reg.id
  {
    if us != [] {
      KeptLocation(reg, us[..|us| - 1]);
    }
  }

  // ----- Where a task goes -----

  /** The places of the inputs, one for each. */
  ghost predicate ArePlaces(inputs: seq<Input>, ps: seq<Point>)
  {
    |ps| == |inputs| && forall i :: 0 <= i < |inputs| ==> ps[i] == inputs[i].location
  }

  /** An existing task that meets a moved entity brings the first input of it up to date, and goes elsewhere iff the
      selection for the places its inputs then have names another worker. */
  lemma MigratesIff(p: Progress, h: HashId, host: WorkerId, x: Input, j: nat, byType: bool, select: Selection,
                    k: nat, ps: seq<Point>)
    requires k < |p.task.inputs| && p.task.inputs[k].id == x.id && p.task.inputs[k].location != x.location
    requires forall i :: 0 <= i < k ==> p.task.inputs[i].id != x.id || p.task.inputs[i].location == x.location
    requires exists i :: 0 <= i < |p.task.inputs| && KeyOf(p.task.inputs[i], byType) == KeyOf(x, byType)
    requires ArePlaces(p.task.inputs[k := p.task.inputs[k].(location := x.location)], ps)
    ensures
      var q := AbsorbOne(p, h, host, x, j, byType, select);
      && q.task == TaskConfig(select(h, j, ps), p.task.inputs[k := p.task.inputs[k].(location := x.location)])
      && (q.actions != p.actions <==> select(h, j, ps) != p.task.worker)
  {
    assert FirstMoved(p.task.inputs, x) == k;
    assert ps == Locations(p.task.inputs[k := p.task.inputs[k].(location := x.location)]);
    var q := AbsorbOne(p, h, host, x, j, byType, select);
    assert select(h, j, ps) != p.task.worker ==> |q.actions| > |p.actions|;
  }

  /** An ADD_TASK deploys the task on the worker selected for the places of the inputs it has in the plan, and records
      that worker. */
  lemma DeploysWhereSelected(o: Outcome, h: HashId, inputs: seq<Input>, i: nat, place: Placement, ps: seq<Point>)
    requires !o.stopped && h in o.flow.plan && ArePlaces(o.flow.plan[h].inputs, ps) && place(i, ps) != ""
    ensures
      var o' := CarryOutOne(o, AddTask(h, inputs), i, place);
      && o'.log == o.log + [Deploy(h, place(i, ps), inputs)] && !o'.stopped
      && o'.flow.deployed == o.flow.deployed[h := place(i, ps)]
      && o'.flow.plan == o.flow.plan[h := TaskConfig(place(i, ps), o.flow.plan[h].inputs)]
  {
    assert ps == Locations(o.flow.plan[h].inputs);
  }
}
