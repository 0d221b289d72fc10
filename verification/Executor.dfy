/** The executor's methods (worker/executor.go), one per lock region, each proved to be the step of
    `ExecutorState` it stands for and to keep what `ExecutorState` proves of all runs.  Answers of the broker are
    parameters. */
module ExecutorClass {
  import opened Listings
  import opened Wrappers
  import opened ExecutorState

  class Executor {
    var tasks: map<TaskId, Context>
    var delayedAddInputCommands: map<TaskId, seq<Flow>>
    var subscribed: set<SubId>
    var cancelled: seq<SubId>
    var issued: seq<Flow>
    var handled: seq<Flow>

    /** Every subscription opened is listed by exactly one task or cancelled once, and every ADD_INPUT is handled
        once or queued once. */
    ghost predicate Valid()
      reads this
    {
      SubsConserved(View()) && FlowsAccounted(View())
    }

    constructor ()
      ensures Valid() && View() == State(map[], map[], {}, [], [], [])
    {
      tasks, delayedAddInputCommands, subscribed, cancelled, issued, handled := map[], map[], {}, [], [], [];
    }

    function View(): State
      reads this
    {
      State(tasks, delayedAddInputCommands, subscribed, cancelled, issued, handled)
    }

    /** `LaunchTask` up to its subscriptions. */
    method BeginLaunch(t: TaskId)
      requires Valid() && Enabled(View(), Launch(t))
      modifies this`tasks
      ensures Valid() && View() == Next(old(View()), Launch(t))
    {
      ghost var s := View();
      tasks := tasks[t := Context(Subscribing, [], map[])];
      StepKeeps(s, Launch(t));
    }

    /** One input of `LaunchTask`: subscribe, and record the answer in the context being built. */
    method SubscribeInput(t: TaskId, e: EntityId, r: Option<SubId>)
      requires Valid() && Enabled(View(), OpenInput(t, e, r))
      modifies this`tasks, this`subscribed
      ensures Valid() && View() == Next(old(View()), OpenInput(t, e, r))
    {
      ghost var s := View();
      Record(t, e, r);
      StepKeeps(s, OpenInput(t, e, r));
    }

    method Record(t: TaskId, e: EntityId, r: Option<SubId>)
      requires t in tasks
      modifies this`tasks, this`subscribed
      ensures View() == Opened(old(View()), t, e, r)
    {
      if r.Some? {
        var c := tasks[t];
        tasks := tasks[t := c.(subs := c.subs + [r.value], byEntity := c.byEntity[e := r.value])];
        subscribed := subscribed + {r.value};
      }
    }

    /** `LaunchTask` inserts the context. */
    method InsertContext(t: TaskId)
      requires Valid() && Enabled(View(), Insert(t))
      modifies this`tasks
      ensures Valid() && View() == Next(old(View()), Insert(t))
    {
      ghost var s := View();
      tasks := tasks[t := tasks[t].(phase := Inserted)];
      StepKeeps(s, Insert(t));
    }

    /** `handleAddInput`, with the lock held: the command may still be in the queue it came from. */
    method HandleAddInput(f: Flow, r: Option<SubId>)
      requires f.task in tasks
      modifies this`tasks, this`subscribed, this`handled
      ensures View() == HandledInput(old(View()), f, r)
    {
      Record(f.task, f.entity, r);
      handled := handled + [f];
    }

    /** `handleDelayedAddInputCommands`. */
    method HandleDelayedAddInputCommands(t: TaskId, results: seq<Option<SubId>>)
      requires Valid() && Enabled(View(), Drain(t, results))
      modifies this
      ensures Valid() && View() == Next(old(View()), Drain(t, results))
      ensures t !in delayedAddInputCommands
    {
      ghost var s := View();
      if t in delayedAddInputCommands {
        var flowList := delayedAddInputCommands[t];
        for i := 0 to |flowList|
          invariant View() == HandledInputs(s, t, flowList, results, i)
        {
          HandleAddInput(flowList[i], results[i]);
        }
        delayedAddInputCommands := delayedAddInputCommands - {t};
      }
      tasks := tasks[t := tasks[t].(phase := Live)];
      assert t !in s.queue ==> s.queue - {t} == s.queue;
      StepKeeps(s, Drain(t, results));
    }

    /** `onAddInput`. */
    method OnAddInput(f: Flow, r: Option<SubId>)
      requires Valid() && Enabled(View(), AddInput(f, r))
      modifies this
      ensures Valid() && View() == Next(old(View()), AddInput(f, r))
    {
      ghost var s := View();
      issued := issued + [f];
      if f.task in tasks && tasks[f.task].phase != Subscribing {
        HandleAddInput(f, r);
      } else {
        Enqueue(f);
      }
      assert View() == Next(s, AddInput(f, r));
      StepKeeps(s, AddInput(f, r));
    }

    method Enqueue(f: Flow)
      modifies this`delayedAddInputCommands
      ensures View() == old(View()).(queue := old(delayedAddInputCommands)[f.task := Queued(old(View()), f.task) + [f]])
    {
      if f.task !in delayedAddInputCommands {
        delayedAddInputCommands := delayedAddInputCommands[f.task := []];
      }
      delayedAddInputCommands := delayedAddInputCommands[f.task := delayedAddInputCommands[f.task] + [f]];
    }

    /** `onRemoveInput`: cancel, splice the subscription out of the list, forget the entity. */
    method OnRemoveInput(t: TaskId, e: EntityId)
      requires Valid() && Enabled(View(), RemoveInput(t, e))
      modifies this`tasks, this`cancelled
      ensures Valid() && View() == Next(old(View()), RemoveInput(t, e))
    {
      ghost var s := View();
      var c := tasks[t];
      var subID := if e in c.byEntity then c.byEntity[e] else "";
      cancelled := cancelled + [subID];
      var subs := Splice(c.subs, subID);
      tasks := tasks[t := c.(subs := subs, byEntity := c.byEntity - {e})];
      StepKeeps(s, RemoveInput(t, e));
    }

    static method Splice(xs: seq<SubId>, x: SubId) returns (r: seq<SubId>)
      ensures r == Spliced(xs, x)
    {
      r := xs;
      for i := 0 to |xs|
        invariant r == xs && Spliced(xs, x) == xs[..i] + Spliced(xs[i..], x)
      {
        assert xs[i..][1..] == xs[i + 1..];
        if xs[i] == x {
          r := xs[..i] + xs[i + 1..];
          return;
        }
        assert xs[..i + 1] == xs[..i] + [xs[i]];
      }
      assert xs[..|xs|] == xs && xs[|xs|..] == [];
    }

    /** `TerminateTask` for a task that is there: one cancellation per listed subscription. */
    method TerminateTask(t: TaskId)
      requires Valid() && Enabled(View(), Terminate(t))
      modifies this`tasks, this`cancelled
      ensures Valid() && View() == Next(old(View()), Terminate(t))
    {
      ghost var s := View();
      var subs := tasks[t].subs;
      for i := 0 to |subs|
        invariant tasks == old(tasks) && cancelled == old(cancelled) + subs[..i]
      {
        cancelled := cancelled + [subs[i]];
      }
      assert subs[..|subs|] == subs;
      tasks := tasks - {t};
      StepKeeps(s, Terminate(t));
    }

    /** The tasks in `taskInstances`. */
    function Instances(): set<TaskId>
      reads this
    {
      set t | t in tasks && tasks[t].phase != Subscribing
    }

    /** `terminateAllTasks`: ends every task in the table, drained or not.  Of the subscriptions opened, exactly
        those of launches still subscribing stay open; every other one has been cancelled exactly once. */
    method TerminateAllTasks()
      requires Valid()
      modifies this`tasks, this`cancelled
      ensures Valid() && tasks == old(tasks) - old(Instances())
      ensures forall x :: x in subscribed ==> Count(cancelled, x) == if BeingLaunched(View(), x) then 0 else 1
    {
      var idList := Instances();
      var todo := idList;
      while todo != {}
        invariant Valid() && todo <= idList && tasks == old(tasks) - (idList - todo)
      {
        var t :| t in todo;
        TerminateTask(t);
        todo := todo - {t};
      }
      assert idList - todo == idList;
      OpenAfterwards(View());
    }
  }

  lemma OpenAfterwards(s: State)
    requires SubsConserved(s) && forall t :: !InInstances(s, t)
    ensures forall x :: x in s.subscribed ==> Count(s.cancelled, x) == if BeingLaunched(s, x) then 0 else 1
  {
    forall x | x in s.subscribed ensures Count(s.cancelled, x) == if BeingLaunched(s, x) then 0 else 1 {
      OpenOnlyForLaunches(s, x);
    }
  }

  lemma StepKeeps(s: State, step: Step)
    requires SubsConserved(s) && FlowsAccounted(s) && Enabled(s, step)
    ensures SubsConserved(Next(s, step)) && FlowsAccounted(Next(s, step))
  {
    StepConservesSubs(s, step);
    StepAccountsFlows(s, step);
  }
}
