/** The executor of a worker (worker/executor.go): contexts of launched tasks, broker subscriptions opened and
    cancelled for them, and ADD_INPUT commands that come before the task does.  One step per region of
    `taskMap_lock`; subscribing while a task is launched happens outside the lock, one step per input. */
module ExecutorState {
  import opened Listings
  import opened Wrappers

  type TaskId = string
  type EntityId = string
  type SubId = string

  /** `Subscribing`: the launch has not inserted its context yet.  `Inserted`: it has, but has not drained the
      queue.  `Live`: the launch is done.  A task may be terminated as soon as it is inserted. */
  datatype Phase = Subscribing | Inserted | Live

  datatype Context = Context(phase: Phase, subs: seq<SubId>, byEntity: map<EntityId, SubId>)

  /** An ADD_INPUT command; `no` tells commands with the same content apart. */
  datatype Flow = Flow(no: nat, task: TaskId, entity: EntityId)

  datatype State = State(
    tasks: map<TaskId, Context>,
    queue: map<TaskId, seq<Flow>>,
    subscribed: set<SubId>,
    cancelled: seq<SubId>,
    issued: seq<Flow>,
    handled: seq<Flow>)

  datatype Step =
    | Launch(task: TaskId)
    | OpenInput(task: TaskId, entity: EntityId, result: Option<SubId>)
    | Insert(task: TaskId)
    | Drain(task: TaskId, results: seq<Option<SubId>>)
    | AddInput(flow: Flow, answer: Option<SubId>)
    | RemoveInput(task: TaskId, entity: EntityId)
    | Terminate(task: TaskId)

  /** The task has an entry in `taskInstances`. */
  predicate InInstances(s: State, t: TaskId)
  {
    t in s.tasks && s.tasks[t].phase != Subscribing
  }

  /** The broker failed, or answered with an id never given before. */
  predicate FreshAnswer(s: State, r: Option<SubId>)
  {
    r.Some? ==> r.value != "" && r.value !in s.subscribed
  }

  function Queued(s: State, t: TaskId): seq<Flow>
  {
    if t in s.queue then s.queue[t] else []
  }

  /** A subscription for the task: listed in its context and remembered under the entity. */
  function Opened(s: State, t: TaskId, e: EntityId, r: Option<SubId>): State
    requires t in s.tasks
  {
    match r
    case None => s
    case Some(x) =>
      var c := s.tasks[t];
      s.(tasks := s.tasks[t := c.(subs := c.subs + [x], byEntity := c.byEntity[e := x])],
         subscribed := s.subscribed + {x})
  }

  /** `handleAddInput`. */
  function HandledInput(s: State, f: Flow, r: Option<SubId>): State
    requires f.task in s.tasks
  {
    Opened(s, f.task, f.entity, r).(handled := s.handled + [f])
  }

  /** The first `n` flows handled one after the other. */
  function HandledInputs(s: State, t: TaskId, fs: seq<Flow>, rs: seq<Option<SubId>>, n: nat): (s': State)
    requires t in s.tasks && n <= |fs| == |rs| && forall i :: 0 <= i < |fs| ==> fs[i].task == t
    ensures t in s'.tasks
  {
    if n == 0 then s else HandledInput(HandledInputs(s, t, fs, rs, n - 1), fs[n - 1], rs[n - 1])
  }

  ghost predicate FreshAnswers(s: State, rs: seq<Option<SubId>>)
  {
    && (forall i :: 0 <= i < |rs| ==> FreshAnswer(s, rs[i]))
    && (forall i, j :: 0 <= i < j < |rs| && rs[i].Some? ==> rs[i] != rs[j])
  }

  ghost predicate Enabled(s: State, step: Step)
  {
    match step
    case Launch(t) => t !in s.tasks
    case OpenInput(t, _, r) => t in s.tasks && s.tasks[t].phase == Subscribing && FreshAnswer(s, r)
    case Insert(t) => t in s.tasks && s.tasks[t].phase == Subscribing
    case Drain(t, rs) =>
      && t in s.tasks && s.tasks[t].phase == Inserted
      && |rs| == |Queued(s, t)| && FreshAnswers(s, rs)
      && forall i :: 0 <= i < |Queued(s, t)| ==> Queued(s, t)[i].task == t
    case AddInput(f, r) => f !in s.issued && FreshAnswer(s, r)
    case RemoveInput(t, _) => InInstances(s, t)
    case Terminate(t) => InInstances(s, t)
  }

  /** The first occurrence is spliced out. */
  function Spliced(xs: seq<SubId>, x: SubId): seq<SubId>
  {
    if xs == [] then [] else if xs[0] == x then xs[1..] else [xs[0]] + Spliced(xs[1..], x)
  }

  function Dropped(s: State, t: TaskId, e: EntityId): State
    requires t in s.tasks
  {
    var c := s.tasks[t];
    var x := if e in c.byEntity then c.byEntity[e] else "";
    s.(cancelled := s.cancelled + [x],
       tasks := s.tasks[t := c.(subs := Spliced(c.subs, x), byEntity := c.byEntity - {e})])
  }

  ghost function Next(s: State, step: Step): State
    requires Enabled(s, step)
  {
    match step
    case Launch(t) => s.(tasks := s.tasks[t := Context(Subscribing, [], map[])])
    case OpenInput(t, e, r) => Opened(s, t, e, r)
    case Insert(t) => s.(tasks := s.tasks[t := s.tasks[t].(phase := Inserted)])
    case Drain(t, rs) =>
      var d := HandledInputs(s, t, Queued(s, t), rs, |rs|);
      d.(queue := d.queue - {t}, tasks := d.tasks[t := d.tasks[t].(phase := Live)])
    case AddInput(f, r) =>
      var i := s.(issued := s.issued + [f]);
      if InInstances(s, f.task) then HandledInput(i, f, r)
      else i.(queue := s.queue[f.task := Queued(s, f.task) + [f]])
    case RemoveInput(t, e) => Dropped(s, t, e)
    case Terminate(t) => s.(cancelled := s.cancelled + s.tasks[t].subs, tasks := s.tasks - {t})
  }

  // ----- Subscriptions are conserved -----

  /** The context's list has no duplicates, and the entity map points into it, to a subscription per entity. */
  ghost predicate ContextFormed(c: Context)
  {
    && Distinct(c.subs)
    && (forall e :: e in c.byEntity ==> c.byEntity[e] in c.subs)
    && (forall d, e :: d in c.byEntity && e in c.byEntity && d != e ==> c.byEntity[d] != c.byEntity[e])
  }

  ghost predicate ListedBy(s: State, x: SubId, t: TaskId)
  {
    t in s.tasks && x in s.tasks[t].subs
  }

  ghost predicate SubsConserved(s: State)
  {
    && "" !in s.subscribed
    && (forall t :: t in s.tasks ==> ContextFormed(s.tasks[t]))
    && (forall x, t :: ListedBy(s, x, t) ==> x in s.subscribed && x !in s.cancelled)
    && (forall x, t, u :: ListedBy(s, x, t) && ListedBy(s, x, u) ==> t == u)
    && (forall x :: x in s.subscribed ==> x in s.cancelled || exists t :: ListedBy(s, x, t))
    && (forall i, j :: 0 <= i < j < |s.cancelled| && s.cancelled[i] in s.subscribed
                       ==> s.cancelled[i] != s.cancelled[j])
    && (forall x :: x in s.cancelled ==> x == "" || x in s.subscribed)
  }

  lemma OpenedConserves(s: State, t: TaskId, e: EntityId, r: Option<SubId>)
    requires SubsConserved(s) && t in s.tasks && FreshAnswer(s, r)
    ensures SubsConserved(Opened(s, t, e, r))
  {
    if r.Some? {
      var s', x := Opened(s, t, e, r), r.value;
      assert !ListedBy(s, x, t);
      forall y, u ensures ListedBy(s', y, u) <==> ListedBy(s, y, u) || (y == x && u == t) {}
      assert ListedBy(s', x, t);
      forall y | y in s'.subscribed ensures y in s'.cancelled || exists u :: ListedBy(s', y, u) {
        if y != x && y !in s.cancelled {
          var u :| ListedBy(s, y, u);
          assert ListedBy(s', y, u);
        }
      }
    }
  }

  lemma {:induction false} SplicedMembers(xs: seq<SubId>, x: SubId)
    requires Distinct(xs)
    ensures Distinct(Spliced(xs, x))
    ensures forall y :: y in Spliced(xs, x) <==> y in xs && y != x
  {
    if xs != [] {
      assert xs == [xs[0]] + xs[1..];
      if xs[0] != x {
        SplicedMembers(xs[1..], x);
        var rest := Spliced(xs[1..], x);
        assert forall j :: 0 <= j < |rest| ==> rest[j] in xs[1..];
      } else {
        assert forall j :: 0 <= j < |xs[1..]| ==> xs[1..][j] == xs[j + 1];
      }
    }
  }

  lemma DroppedConserves(s: State, t: TaskId, e: EntityId)
    requires SubsConserved(s) && t in s.tasks
    ensures SubsConserved(Dropped(s, t, e))
  {
    var s', c := Dropped(s, t, e), s.tasks[t];
    var x := if e in c.byEntity then c.byEntity[e] else "";
    assert ContextFormed(c);
    SplicedMembers(c.subs, x);
    assert x in c.subs ==> ListedBy(s, x, t);
    assert x == "" || ListedBy(s, x, t);
    forall y, u ensures ListedBy(s', y, u) <==> ListedBy(s, y, u) && !(y == x && u == t) {}
    assert ContextFormed(s'.tasks[t]);
    forall y | y in s'.subscribed ensures y in s'.cancelled || exists u :: ListedBy(s', y, u) {
      if y != x && y !in s.cancelled {
        var u :| ListedBy(s, y, u);
        assert ListedBy(s', y, u);
      }
    }
  }

  lemma TerminateConserves(s: State, t: TaskId)
    requires SubsConserved(s) && t in s.tasks
    ensures SubsConserved(s.(cancelled := s.cancelled + s.tasks[t].subs, tasks := s.tasks - {t}))
  {
    var subs := s.tasks[t].subs;
    var s' := s.(cancelled := s.cancelled + subs, tasks := s.tasks - {t});
    assert ContextFormed(s.tasks[t]);
    forall y, u ensures ListedBy(s', y, u) <==> ListedBy(s, y, u) && u != t {}
    forall y | y in subs ensures ListedBy(s, y, t) && y in s.subscribed && y !in s.cancelled {
      assert ListedBy(s, y, t);
    }
    assert forall y, u :: ListedBy(s', y, u) ==> y !in subs && y !in s.cancelled;
    forall y | y in s'.subscribed ensures y in s'.cancelled || exists u :: ListedBy(s', y, u) {
      if y !in s.cancelled {
        var u :| ListedBy(s, y, u);
        assert u != t ==> ListedBy(s', y, u);
      }
    }
  }

  /** The contexts have kept their lists. */
  ghost predicate SameLists(s: State, s': State)
  {
    && s'.subscribed == s.subscribed && s'.cancelled == s.cancelled && s'.tasks.Keys == s.tasks.Keys
    && (forall t :: t in s.tasks ==> s'.tasks[t].subs == s.tasks[t].subs)
    && (forall t :: t in s.tasks ==> s'.tasks[t].byEntity == s.tasks[t].byEntity)
  }

  /** A context that keeps its lists, in another phase, changes nothing for the subscriptions. */
  lemma SameListsConserve(s: State, s': State)
    requires SubsConserved(s) && SameLists(s, s')
    ensures SubsConserved(s')
  {
    forall y, u ensures ListedBy(s', y, u) <==> ListedBy(s, y, u) {}
    forall t | t in s'.tasks ensures ContextFormed(s'.tasks[t]) {
      assert ContextFormed(s.tasks[t]);
    }
    forall y | y in s'.subscribed ensures y in s'.cancelled || exists u :: ListedBy(s', y, u) {
      if y !in s.cancelled {
        var u :| ListedBy(s, y, u);
        assert ListedBy(s', y, u);
      }
    }
  }

  lemma LaunchConserves(s: State, t: TaskId)
    requires SubsConserved(s) && t !in s.tasks
    ensures SubsConserved(s.(tasks := s.tasks[t := Context(Subscribing, [], map[])]))
  {
    var s' := s.(tasks := s.tasks[t := Context(Subscribing, [], map[])]);
    forall y, u ensures ListedBy(s', y, u) <==> ListedBy(s, y, u) {}
    forall y | y in s'.subscribed ensures y in s'.cancelled || exists u :: ListedBy(s', y, u) {
      if y !in s.cancelled {
        var u :| ListedBy(s, y, u);
        assert ListedBy(s', y, u);
      }
    }
  }

  lemma HandledConserves(s: State, f: Flow, r: Option<SubId>)
    requires SubsConserved(s) && f.task in s.tasks && FreshAnswer(s, r)
    ensures SubsConserved(HandledInput(s, f, r))
  {
    OpenedConserves(s, f.task, f.entity, r);
    SameListsConserve(Opened(s, f.task, f.entity, r), HandledInput(s, f, r));
  }

  lemma {:induction false} DrainConserves(s: State, t: TaskId, fs: seq<Flow>, rs: seq<Option<SubId>>, n: nat)
    requires SubsConserved(s) && t in s.tasks && FreshAnswers(s, rs)
    requires n <= |fs| == |rs| && forall i :: 0 <= i < |fs| ==> fs[i].task == t
    ensures SubsConserved(HandledInputs(s, t, fs, rs, n))
    ensures forall i :: n <= i < |rs| ==> FreshAnswer(HandledInputs(s, t, fs, rs, n), rs[i])
  {
    if n > 0 {
      DrainConserves(s, t, fs, rs, n - 1);
      HandledConserves(HandledInputs(s, t, fs, rs, n - 1), fs[n - 1], rs[n - 1]);
    }
  }

  lemma DrainedConserves(s: State, t: TaskId, rs: seq<Option<SubId>>)
    requires SubsConserved(s) && Enabled(s, Drain(t, rs))
    ensures SubsConserved(Next(s, Drain(t, rs)))
  {
    DrainConserves(s, t, Queued(s, t), rs, |rs|);
    SameListsConserve(HandledInputs(s, t, Queued(s, t), rs, |rs|), Next(s, Drain(t, rs)));
  }

  lemma StepConservesSubs(s: State, step: Step)
    requires SubsConserved(s) && Enabled(s, step)
    ensures SubsConserved(Next(s, step))
  {
    match step
    case Launch(t) => LaunchConserves(s, t);
    case OpenInput(t, e, r) => OpenedConserves(s, t, e, r);
    case Insert(t) => SameListsConserve(s, Next(s, step));
    case Drain(t, rs) => DrainedConserves(s, t, rs);
    case AddInput(f, r) => AddConserves(s, f, r);
    case RemoveInput(t, e) => DroppedConserves(s, t, e);
    case Terminate(t) => TerminateConserves(s, t);
  }

  lemma AddConserves(s: State, f: Flow, r: Option<SubId>)
    requires SubsConserved(s) && Enabled(s, AddInput(f, r))
    ensures SubsConserved(Next(s, AddInput(f, r)))
  {
    var i := s.(issued := s.issued + [f]);
    SameListsConserve(s, i);
    if InInstances(s, f.task) {
      HandledConserves(i, f, r);
    } else {
      SameListsConserve(s, Next(s, AddInput(f, r)));
    }
  }

  // ----- Every ADD_INPUT is handled exactly once -----

  ghost predicate QueueFormed(s: State, t: TaskId)
    requires t in s.queue
  {
    && Distinct(s.queue[t]) && s.queue[t] != []
    && (forall i :: 0 <= i < |s.queue[t]| ==> s.queue[t][i].task == t && s.queue[t][i] in s.issued)
    && (t in s.tasks ==> s.tasks[t].phase != Live)
  }

  /** Handled once, or waiting once in the queue of its task, which is then not launched; not both. */
  ghost predicate FlowPlaced(s: State, f: Flow)
  {
    f in s.handled <==> f in s.issued && f !in Queued(s, f.task)
  }

  ghost predicate FlowsAccounted(s: State)
  {
    && Distinct(s.issued) && Distinct(s.handled)
    && (forall t :: t in s.queue ==> QueueFormed(s, t))
    && (forall f :: FlowPlaced(s, f))
  }

  /** Handling flows appends them to the log and leaves queues and phases alone. */
  lemma {:induction false} HandledFrame(s: State, t: TaskId, fs: seq<Flow>, rs: seq<Option<SubId>>, n: nat)
    requires t in s.tasks && n <= |fs| == |rs| && forall i :: 0 <= i < |fs| ==> fs[i].task == t
    ensures
      var d := HandledInputs(s, t, fs, rs, n);
      && d.queue == s.queue && d.issued == s.issued && d.handled == s.handled + fs[..n]
      && d.tasks.Keys == s.tasks.Keys
      && forall u :: u in s.tasks ==> d.tasks[u].phase == s.tasks[u].phase
  {
    if n > 0 {
      HandledFrame(s, t, fs, rs, n - 1);
      assert fs[..n] == fs[..n - 1] + [fs[n - 1]];
    }
  }

  /** Neither the log of commands nor the queues nor who is launched has changed. */
  lemma SameFlows(s: State, s': State)
    requires FlowsAccounted(s) && s'.queue == s.queue && s'.issued == s.issued && s'.handled == s.handled
    requires forall t :: t in s'.tasks && s'.tasks[t].phase == Live ==> t in s.tasks && s.tasks[t].phase == Live
    ensures FlowsAccounted(s')
  {
    forall t | t in s'.queue ensures QueueFormed(s', t) {
      assert QueueFormed(s, t);
    }
    forall f ensures FlowPlaced(s', f) {
      assert FlowPlaced(s, f);
    }
  }

  lemma DrainAccounts(s: State, t: TaskId, rs: seq<Option<SubId>>)
    requires FlowsAccounted(s) && Enabled(s, Drain(t, rs))
    ensures FlowsAccounted(Next(s, Drain(t, rs))) && t !in Next(s, Drain(t, rs)).queue
  {
    var s', fs := Next(s, Drain(t, rs)), Queued(s, t);
    HandledFrame(s, t, fs, rs, |rs|);
    assert fs[..|rs|] == fs;
    assert s'.handled == s.handled + fs;
    forall u | u in s'.queue ensures QueueFormed(s', u) {
      assert QueueFormed(s, u);
    }
    assert t in s.queue ==> QueueFormed(s, t);
    forall i, j | 0 <= i < |s.handled| && 0 <= j < |fs| ensures s.handled[i] != fs[j] {
      assert FlowPlaced(s, s.handled[i]);
    }
    forall f ensures FlowPlaced(s', f) {
      assert FlowPlaced(s, f);
    }
  }

  lemma AddAccounts(s: State, f: Flow, r: Option<SubId>)
    requires FlowsAccounted(s) && Enabled(s, AddInput(f, r))
    ensures FlowsAccounted(Next(s, AddInput(f, r)))
  {
    var s' := Next(s, AddInput(f, r));
    assert FlowPlaced(s, f);
    assert f.task in s.queue ==> QueueFormed(s, f.task);
    assert f !in Queued(s, f.task);
    forall t | t in s'.queue ensures QueueFormed(s', t) {
      if t in s.queue {
        assert QueueFormed(s, t);
      }
    }
    forall g ensures FlowPlaced(s', g) {
      assert FlowPlaced(s, g);
    }
  }

  lemma StepAccountsFlows(s: State, step: Step)
    requires FlowsAccounted(s) && Enabled(s, step)
    ensures FlowsAccounted(Next(s, step))
  {
    match step
    case Drain(t, rs) => DrainAccounts(s, t, rs);
    case AddInput(f, r) => AddAccounts(s, f, r);
    case _ => SameFlows(s, Next(s, step));
  }

  /** An input is handled only for a task that has its context in `taskInstances`. */
  lemma HandledOnlyWithContext(s: State, step: Step, f: Flow)
    requires FlowsAccounted(s) && Enabled(s, step) && f in Next(s, step).handled && f !in s.handled
    ensures InInstances(s, f.task)
  {
    if step.Drain? {
      HandledFrame(s, step.task, Queued(s, step.task), step.results, |step.results|);
      var fs := Queued(s, step.task);
      assert fs[..|fs|] == fs;
    }
  }

  // ----- Runs -----

  ghost predicate IsRun(states: seq<State>, steps: seq<Step>)
  {
    && |states| == |steps| + 1
    && states[0] == State(map[], map[], {}, [], [], [])
    && forall i :: 0 <= i < |steps| ==> Enabled(states[i], steps[i]) && states[i + 1] == Next(states[i], steps[i])
  }

  lemma {:induction false} RunKeeps(states: seq<State>, steps: seq<Step>, n: nat)
    requires IsRun(states, steps) && n <= |steps|
    ensures SubsConserved(states[n]) && FlowsAccounted(states[n])
  {
    if n > 0 {
      RunKeeps(states, steps, n - 1);
      assert Enabled(states[n - 1], steps[n - 1]) && states[n] == Next(states[n - 1], steps[n - 1]);
      StepConservesSubs(states[n - 1], steps[n - 1]);
      StepAccountsFlows(states[n - 1], steps[n - 1]);
    }
  }

  lemma {:induction false} CountUnique<T>(xs: seq<T>, x: T)
    requires forall i, j :: 0 <= i < j < |xs| && xs[i] == x ==> xs[j] != x
    ensures Count(xs, x) == if x in xs then 1 else 0
  {
    if xs != [] {
      CountUnique(xs[1..], x);
      assert xs == [xs[0]] + xs[1..];
      assert xs[0] == x ==> x !in xs[1..];
    }
  }

  /** In every run, a subscription that was opened is listed by exactly one task and never cancelled, or listed by
      none and its cancellation has been requested exactly once. */
  lemma SubscriptionsConserved(states: seq<State>, steps: seq<Step>, n: nat, x: SubId)
    requires IsRun(states, steps) && n <= |steps| && x in states[n].subscribed
    ensures
      var s := states[n];
      || (Count(s.cancelled, x) == 0 && exists t :: ListedBy(s, x, t) && Count(s.tasks[t].subs, x) == 1
                                                   && forall u :: ListedBy(s, x, u) ==> u == t)
      || (Count(s.cancelled, x) == 1 && forall t :: !ListedBy(s, x, t))
  {
    RunKeeps(states, steps, n);
    var s := states[n];
    CountUnique(s.cancelled, x);
    if x !in s.cancelled {
      var t :| ListedBy(s, x, t);
      assert ContextFormed(s.tasks[t]);
      CountUnique(s.tasks[t].subs, x);
    }
  }

  /** In every run, an ADD_INPUT command has been handled exactly once, or waits exactly once in the queue of its
      task; and no queue is left for a task whose launch has drained it. */
  lemma InputsHandledOnce(states: seq<State>, steps: seq<Step>, n: nat, f: Flow)
    requires IsRun(states, steps) && n <= |steps| && f in states[n].issued
    ensures
      var s := states[n];
      && Count(s.handled, f) + Count(Queued(s, f.task), f) == 1
      && (f.task in s.tasks && s.tasks[f.task].phase == Live ==> Count(s.handled, f) == 1 && f.task !in s.queue)
  {
    RunKeeps(states, steps, n);
    var s := states[n];
    assert f.task in s.queue ==> QueueFormed(s, f.task);
    assert FlowPlaced(s, f);
    CountUnique(s.handled, f);
    CountUnique(Queued(s, f.task), f);
  }

  /** Some launch that has not inserted its context yet has opened the subscription. */
  ghost predicate BeingLaunched(s: State, x: SubId)
  {
    exists t :: ListedBy(s, x, t) && s.tasks[t].phase == Subscribing
  }

  /** With no task in `taskInstances`, the subscriptions of launches still subscribing are open and every other one
      has been cancelled exactly once. */
  lemma OpenOnlyForLaunches(s: State, x: SubId)
    requires SubsConserved(s) && x in s.subscribed && forall t :: !InInstances(s, t)
    ensures Count(s.cancelled, x) == if BeingLaunched(s, x) then 0 else 1
  {
    CountUnique(s.cancelled, x);
    if x !in s.cancelled {
      var t :| ListedBy(s, x, t);
      assert !InInstances(s, t);
    }
  }

  /** So in every run: once every task has been terminated, exactly the launches still subscribing leave
      subscriptions open. */
  lemma NoneLeftOpen(states: seq<State>, steps: seq<Step>, n: nat, x: SubId)
    requires IsRun(states, steps) && n <= |steps| && forall t :: !InInstances(states[n], t)
    ensures x in states[n].subscribed ==> Count(states[n].cancelled, x) == if BeingLaunched(states[n], x) then 0 else 1
    ensures x !in states[n].subscribed && x != "" ==> Count(states[n].cancelled, x) == 0
  {
    RunKeeps(states, steps, n);
    if x in states[n].subscribed {
      OpenOnlyForLaunches(states[n], x);
    } else if x != "" {
      CountUnique(states[n].cancelled, x);
    }
  }
}
