/** Which subscription a REMOVE_INPUT cancels (worker/executor.go), told from the steps of the run. */
module ExecutorHistory {
  import opened Listings
  import opened Wrappers
  import opened ExecutorState

  // ----- The latest opening -----

  /** The last answer among the first `n` that opened a subscription for the entity. */
  function LastAnswer(fs: seq<Flow>, rs: seq<Option<SubId>>, n: nat, e: EntityId): Option<SubId>
    requires n <= |fs| == |rs|
  {
    if n == 0 then None
    else if fs[n - 1].entity == e && rs[n - 1].Some? then rs[n - 1]
    else LastAnswer(fs, rs, n - 1, e)
  }

  /** What a step does to the latest opening for the entity of the task, `before` being the one so far: a launch, a
      termination and a REMOVE_INPUT end it, a successful subscription replaces it. */
  function Follow(s: State, step: Step, t: TaskId, e: EntityId, before: Option<SubId>): Option<SubId>
  {
    match step
    case Launch(u) => if u == t then None else before
    case Terminate(u) => if u == t then None else before
    case RemoveInput(u, d) => if u == t && d == e then None else before
    case OpenInput(u, d, r) => if u == t && d == e && r.Some? then r else before
    case AddInput(f, r) => if f.task == t && f.entity == e && InInstances(s, t) && r.Some? then r else before
    case Drain(u, rs) =>
      if u == t && |rs| == |Queued(s, t)| && LastAnswer(Queued(s, t), rs, |rs|, e).Some?
      then LastAnswer(Queued(s, t), rs, |rs|, e) else before
    case Insert(_) => before
  }

  /** The latest successful opening for the entity since the launch of the task and the last REMOVE_INPUT for it. */
  function LatestOpening(states: seq<State>, steps: seq<Step>, n: nat, t: TaskId, e: EntityId): Option<SubId>
    requires n <= |steps| && n <= |states|
  {
    if n == 0 then None
    else Follow(states[n - 1], steps[n - 1], t, e, LatestOpening(states, steps, n - 1, t, e))
  }

  // ----- It is what the context remembers -----

  function Remembered(c: Context, e: EntityId): Option<SubId>
  {
    if e in c.byEntity then Some(c.byEntity[e]) else None
  }

  lemma {:induction false} HandledRemembers(s: State, t: TaskId, fs: seq<Flow>, rs: seq<Option<SubId>>, n: nat,
                                            u: TaskId, e: EntityId)
    requires t in s.tasks && u in s.tasks && n <= |fs| == |rs| && forall i :: 0 <= i < |fs| ==> fs[i].task == t
    ensures
      var d := HandledInputs(s, t, fs, rs, n);
      && u in d.tasks
      && Remembered(d.tasks[u], e)
         == if u == t && LastAnswer(fs, rs, n, e).Some? then LastAnswer(fs, rs, n, e) else Remembered(s.tasks[u], e)
  {
    if n > 0 {
      HandledRemembers(s, t, fs, rs, n - 1, u, e);
    }
  }

  lemma StepRemembers(s: State, step: Step, t: TaskId, e: EntityId, before: Option<SubId>)
    requires Enabled(s, step) && t in Next(s, step).tasks
    requires t in s.tasks ==> Remembered(s.tasks[t], e) == before
    ensures Remembered(Next(s, step).tasks[t], e) == Follow(s, step, t, e, before)
  {
    if step.Drain? {
      HandledFrame(s, step.task, Queued(s, step.task), step.results, |step.results|);
      HandledRemembers(s, step.task, Queued(s, step.task), step.results, |step.results|, t, e);
    }
  }

  lemma {:induction false} RunRemembers(states: seq<State>, steps: seq<Step>, n: nat, t: TaskId, e: EntityId)
    requires IsRun(states, steps) && n <= |steps| && t in states[n].tasks
    ensures Remembered(states[n].tasks[t], e) == LatestOpening(states, steps, n, t, e)
  {
    assert Enabled(states[n - 1], steps[n - 1]) && states[n] == Next(states[n - 1], steps[n - 1]);
    if t in states[n - 1].tasks {
      RunRemembers(states, steps, n - 1, t, e);
    }
    StepRemembers(states[n - 1], steps[n - 1], t, e, LatestOpening(states, steps, n - 1, t, e));
  }

  /** In every run a REMOVE_INPUT requests the cancellation of the latest subscription opened for the entity, which is
      then cancelled once and listed by no task, or of nothing if there is none. */
  lemma CancelsLatestOpening(states: seq<State>, steps: seq<Step>, n: nat, t: TaskId, e: EntityId)
    requires IsRun(states, steps) && n < |steps| && steps[n] == RemoveInput(t, e)
    ensures
      var s, s' := states[n], states[n + 1];
      match LatestOpening(states, steps, n, t, e)
      case None => s'.cancelled == s.cancelled + [""]
      case Some(x) =>
        && s'.cancelled == s.cancelled + [x] && x in s.subscribed && x in s.tasks[t].subs
        && Count(s'.cancelled, x) == 1 && forall u :: !ListedBy(s', x, u)
  {
    var s, s' := states[n], states[n + 1];
    assert Enabled(s, steps[n]) && s' == Next(s, steps[n]);
    RunRemembers(states, steps, n, t, e);
    RunKeeps(states, steps, n);
    RunKeeps(states, steps, n + 1);
    if LatestOpening(states, steps, n, t, e).Some? {
      var x := LatestOpening(states, steps, n, t, e).value;
      assert ContextFormed(s.tasks[t]);
      assert ListedBy(s, x, t);
      assert s'.cancelled[|s.cancelled|] == x;
      CountUnique(s'.cancelled, x);
      assert forall u :: ListedBy(s', x, u) ==> x !in s'.cancelled;
    }
  }

  // ----- The queue -----

  /** The commands queued for a task are in the order in which they were issued. */
  ghost predicate InOrder(issued: seq<Flow>, queue: seq<Flow>)
  {
    forall i, j :: 0 <= i < j < |queue| ==> Precedes(issued, queue[i], queue[j])
  }

  ghost predicate Precedes(issued: seq<Flow>, f: Flow, g: Flow)
  {
    exists a, b :: 0 <= a < b < |issued| && issued[a] == f && issued[b] == g
  }

  lemma IssuedOneMore(issued: seq<Flow>, queue: seq<Flow>, f: Flow)
    requires InOrder(issued, queue) && forall i :: 0 <= i < |queue| ==> queue[i] in issued
    ensures InOrder(issued + [f], queue) && InOrder(issued + [f], queue + [f])
  {
    var more := issued + [f];
    forall i, j | 0 <= i < j < |queue| ensures Precedes(more, queue[i], queue[j]) {
      var a, b :| 0 <= a < b < |issued| && issued[a] == queue[i] && issued[b] == queue[j];
      assert more[a] == queue[i] && more[b] == queue[j];
    }
    forall i | 0 <= i < |queue| ensures Precedes(more, queue[i], f) {
      var a :| 0 <= a < |issued| && issued[a] == queue[i];
      assert more[a] == queue[i] && more[|issued|] == f;
    }
  }

  lemma QueueStep(s: State, step: Step, t: TaskId)
    requires Enabled(s, step) && FlowsAccounted(s) && InOrder(s.issued, Queued(s, t))
    ensures InOrder(Next(s, step).issued, Queued(Next(s, step), t))
  {
    assert t in s.queue ==> QueueFormed(s, t);
    if step.AddInput? {
      IssuedOneMore(s.issued, Queued(s, t), step.flow);
    } else if step.Drain? {
      HandledFrame(s, step.task, Queued(s, step.task), step.results, |step.results|);
    }
  }

  /** In every run, and so they are handled in that order when the launch drains the queue. */
  lemma {:induction false} QueueInOrder(states: seq<State>, steps: seq<Step>, n: nat, t: TaskId)
    requires IsRun(states, steps) && n <= |steps|
    ensures InOrder(states[n].issued, Queued(states[n], t))
  {
    if n > 0 {
      QueueInOrder(states, steps, n - 1, t);
      RunKeeps(states, steps, n - 1);
      assert Enabled(states[n - 1], steps[n - 1]) && states[n] == Next(states[n - 1], steps[n - 1]);
      QueueStep(states[n - 1], steps[n - 1], t);
    }
  }

  lemma DrainedInOrder(states: seq<State>, steps: seq<Step>, n: nat, t: TaskId, rs: seq<Option<SubId>>)
    requires IsRun(states, steps) && n < |steps| && steps[n] == Drain(t, rs)
    ensures states[n + 1].handled == states[n].handled + Queued(states[n], t)
    ensures InOrder(states[n].issued, Queued(states[n], t))
  {
    QueueInOrder(states, steps, n, t);
    assert Enabled(states[n], steps[n]) && states[n + 1] == Next(states[n], steps[n]);
    var fs := Queued(states[n], t);
    HandledFrame(states[n], t, fs, rs, |rs|);
    assert fs[..|rs|] == fs;
  }
}
