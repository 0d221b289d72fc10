/** The priority scheduler of a worker (worker/worker.go): ADD_TASK and REMOVE_TASK pause, pre-empt
    and resume tasks, and hand launch and terminate commands to the executor. */
module WorkerScheduler {
  import opened Listings

  type TaskId = string

  datatype Task = Task(exclusive: bool, level: int, running: bool)

  type Tasks = map<TaskId, Task>

  datatype Command = Launch(id: TaskId) | Terminate(id: TaskId, paused: bool)

  // ----- The two handlers as functions of the task table -----

  /** The incoming task `t` pauses the present task `x`. */
  predicate Preempts(t: Task, x: Task)
  {
    t.exclusive && (!x.exclusive || x.level < t.level)
  }

  /** The present task `x` keeps the incoming task `t` from running. */
  predicate Blocks(x: Task, t: Task)
  {
    x.exclusive && (!t.exclusive || x.level > t.level)
  }

  predicate Runnable(tasks: Tasks, t: Task)
  {
    forall i :: i in tasks ==> !Blocks(tasks[i], t)
  }

  function PauseAll(tasks: Tasks, ids: set<TaskId>): Tasks
  {
    map i | i in tasks :: if i in ids then tasks[i].(running := false) else tasks[i]
  }

  function ResumeAll(tasks: Tasks, ids: set<TaskId>): Tasks
  {
    map i | i in tasks :: if i in ids then tasks[i].(running := true) else tasks[i]
  }

  function Preempted(tasks: Tasks, t: Task): set<TaskId>
  {
    set i | i in tasks && Preempts(t, tasks[i])
  }

  function Schedule(tasks: Tasks, id: TaskId, t: Task): Tasks
  {
    PauseAll(tasks, Preempted(tasks, t))[id := t.(running := Runnable(tasks, t))]
  }

  predicate ActiveUrgent(tasks: Tasks)
  {
    exists i :: i in tasks && tasks[i].exclusive && tasks[i].running
  }

  /** The levels the search for a paused exclusive task can find: it starts from priority 0. */
  function PausedLevels(tasks: Tasks): set<int>
  {
    set i | i in tasks && tasks[i].exclusive && !tasks[i].running && tasks[i].level > 0 :: tasks[i].level
  }

  /** The tasks that `REMOVE_TASK` restarts, given the table after the removal. */
  ghost predicate IsResumed(rest: Tasks, ids: set<TaskId>)
  {
    if ActiveUrgent(rest) then
      ids == {}
    else if PausedLevels(rest) != {} then
      exists p :: IsGreatest(PausedLevels(rest), p) && ids == set i | i in rest && rest[i].level == p
    else
      ids == set i | i in rest && !rest[i].running
  }

  ghost predicate Terminated(tasks: Tasks, id: TaskId, tasks': Tasks, resumed: set<TaskId>)
  {
    if id !in tasks then tasks' == tasks && resumed == {}
    else
      && (if tasks[id].exclusive then IsResumed(tasks - {id}, resumed) else resumed == {})
      && tasks' == ResumeAll(tasks - {id}, resumed)
  }

  function Pauses(ids: seq<TaskId>): seq<Command>
  {
    seq(|ids|, i requires 0 <= i < |ids| => Terminate(ids[i], true))
  }

  function Launches(ids: seq<TaskId>): seq<Command>
  {
    seq(|ids|, i requires 0 <= i < |ids| => Launch(ids[i]))
  }

  datatype Event = Add(id: TaskId, task: Task) | Remove(id: TaskId)

  /** One handler: `ids` is the order in which its loop met the tasks it paused or restarted. */
  ghost predicate Next(tasks: Tasks, ev: Event, ids: seq<TaskId>, tasks': Tasks)
  {
    match ev
    case Add(id, t) => Lists(ids, Preempted(tasks, t)) && tasks' == Schedule(tasks, id, t)
    case Remove(id) => Distinct(ids) && Terminated(tasks, id, tasks', Elements(ids))
  }

  function Commands(tasks: Tasks, ev: Event, ids: seq<TaskId>): seq<Command>
  {
    match ev
    case Add(id, t) => Pauses(ids) + (if Runnable(tasks, t) then [Launch(id)] else [])
    case Remove(id) => (if id in tasks && tasks[id].running then [Terminate(id, false)] else []) + Launches(ids)
  }

  // ----- The handlers themselves -----

  class Worker {
    var allTasks: Tasks
    var log: seq<Command>

    constructor ()
      ensures allTasks == map[] && log == []
    {
      allTasks, log := map[], [];
    }

    /** ADD_TASK: one pass over the table in any order decides whether the task may run and pauses the
        tasks it overtakes; `ids` is the order in which they were paused. */
    method OnScheduledTask(id: TaskId, task: Task) returns (ghost ids: seq<TaskId>)
      modifies this
      ensures Next(old(allTasks), Add(id, task), ids, allTasks)
      ensures log == old(log) + Commands(old(allTasks), Add(id, task), ids)
    {
      var runnable := true;
      ids := [];
      var todo := allTasks.Keys;
      while todo != {}
        invariant todo <= allTasks.Keys == old(allTasks.Keys)
        invariant runnable == forall i :: i in old(allTasks) && i !in todo ==> !Blocks(old(allTasks)[i], task)
        invariant Lists(ids, Preempted(old(allTasks), task) - todo)
        invariant allTasks == PauseAll(old(allTasks), Preempted(old(allTasks), task) - todo)
        invariant log == old(log) + Pauses(ids)
      {
        var i :| i in todo;
        var exist := allTasks[i];
        if !task.exclusive && exist.exclusive {
          runnable := false;
        }
        if task.exclusive && exist.exclusive && exist.level > task.level {
          runnable := false;
        }
        var overTaken := false;
        if task.exclusive && !exist.exclusive {
          overTaken := true;
        }
        if task.exclusive && exist.exclusive && exist.level < task.level {
          overTaken := true;
        }
        ghost var before := Preempted(old(allTasks), task) - todo;
        if overTaken {
          log := log + [Terminate(i, true)];
          allTasks := allTasks[i := exist.(running := false)];
          ListsAppend(ids, before, i);
          assert Pauses(ids + [i]) == Pauses(ids) + [Terminate(i, true)];
          ids := ids + [i];
        }
        todo := todo - {i};
        assert Preempted(old(allTasks), task) - todo == if overTaken then before + {i} else before;
      }
      assert Preempted(old(allTasks), task) - todo == Preempted(old(allTasks), task);
      if runnable {
        log := log + [Launch(id)];
        allTasks := allTasks[id := task.(running := true)];
      } else {
        allTasks := allTasks[id := task.(running := false)];
      }
    }

    /** REMOVE_TASK. */
    method OnTerminateTask(id: TaskId) returns (ghost ids: seq<TaskId>)
      modifies this
      ensures Next(old(allTasks), Remove(id), ids, allTasks)
      ensures log == old(log) + Commands(old(allTasks), Remove(id), ids)
    {
      ids := [];
      if id !in allTasks {
        return;
      }
      var myTask := allTasks[id];
      if myTask.running {
        log := log + [Terminate(id, false)];
      }
      allTasks := allTasks - {id};
      assert allTasks == ResumeAll(allTasks, {});
      if !myTask.exclusive {
        return;
      }
      ids := CheckPausedTasks();
    }

    /** What follows the removal of an exclusive task. */
    method CheckPausedTasks() returns (ghost ids: seq<TaskId>)
      modifies this
      ensures Distinct(ids) && IsResumed(old(allTasks), Elements(ids))
      ensures allTasks == ResumeAll(old(allTasks), Elements(ids))
      ensures log == old(log) + Launches(ids)
    {
      ids := [];
      var hasActiveUrgentTask := exists i :: i in allTasks && allTasks[i].exclusive && allTasks[i].running;
      if hasActiveUrgentTask {
        assert allTasks == ResumeAll(allTasks, {});
        return;
      }
      var hasExclusiveTask, priority := FindPriority();
      ids := Restart(hasExclusiveTask, priority);
      if hasExclusiveTask {
        assert IsGreatest(PausedLevels(old(allTasks)), priority);
      }
    }

    /** The search for the highest paused exclusive task. */
    method FindPriority() returns (found: bool, priority: int)
      ensures found <==> PausedLevels(allTasks) != {}
      ensures found ==> IsGreatest(PausedLevels(allTasks), priority)
    {
      found, priority := false, 0;
      var todo := allTasks.Keys;
      while todo != {}
        invariant todo <= allTasks.Keys
        invariant priority >= 0
        invariant found ==> priority in PausedLevels(allTasks)
        invariant !found ==> priority == 0
        invariant forall i :: i in allTasks && i !in todo && allTasks[i].exclusive && !allTasks[i].running
                              ==> allTasks[i].level <= priority
      {
        var i :| i in todo;
        var t := allTasks[i];
        if t.exclusive && !t.running && t.level > priority {
          found, priority := true, t.level;
        }
        todo := todo - {i};
      }
    }

    /** The two resume loops: by level when an exclusive task was found, otherwise everything paused. */
    method Restart(byLevel: bool, priority: int) returns (ghost ids: seq<TaskId>)
      modifies this
      ensures Distinct(ids)
      ensures Elements(ids) == set i | i in old(allTasks) &&
                                 if byLevel then old(allTasks)[i].level == priority else !old(allTasks)[i].running
      ensures allTasks == ResumeAll(old(allTasks), Elements(ids))
      ensures log == old(log) + Launches(ids)
    {
      ids := [];
      ghost var chosen := set i | i in allTasks &&
                            if byLevel then allTasks[i].level == priority else !allTasks[i].running;
      var todo := allTasks.Keys;
      while todo != {}
        invariant todo <= allTasks.Keys == old(allTasks.Keys)
        invariant Lists(ids, chosen - todo)
        invariant allTasks == ResumeAll(old(allTasks), chosen - todo)
        invariant log == old(log) + Launches(ids)
      {
        var i :| i in todo;
        var t := allTasks[i];
        ghost var before := chosen - todo;
        if (if byLevel then t.level == priority else !t.running) {
          log := log + [Launch(i)];
          allTasks := allTasks[i := t.(running := true)];
          ListsAppend(ids, before, i);
          assert Launches(ids + [i]) == Launches(ids) + [Launch(i)];
          ids := ids + [i];
        }
        todo := todo - {i};
        assert chosen - todo == if i in chosen then before + {i} else before;
      }
      assert chosen - todo == chosen;
    }
  }
}
