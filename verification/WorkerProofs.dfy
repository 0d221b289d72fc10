/** What every run of the worker's scheduler keeps (worker/worker.go). */
module WorkerProofs {
  import opened Listings
  import opened WorkerScheduler

  // ----- The running set as a function of the tasks present -----

  ghost predicate Exclusive(tasks: Tasks, i: TaskId)
  {
    i in tasks && tasks[i].exclusive
  }

  /** Task `i` ought to run: no exclusive task is present, or it is a highest exclusive one. */
  ghost predicate MayRun(tasks: Tasks, i: TaskId)
    requires i in tasks
  {
    || (forall j :: !Exclusive(tasks, j))
    || (tasks[i].exclusive && forall j :: Exclusive(tasks, j) ==> tasks[j].level <= tasks[i].level)
  }

  ghost predicate Consistent(tasks: Tasks)
  {
    forall i :: i in tasks ==> (tasks[i].running <==> MayRun(tasks, i))
  }

  /** `id` is re-sent as `t` without leaving the table short of a highest exclusive task. */
  ghost predicate SafeAdd(tasks: Tasks, id: TaskId, t: Task)
  {
    Exclusive(tasks, id) ==>
      || (t.exclusive && t.level >= tasks[id].level)
      || exists j :: Exclusive(tasks, j) && j != id && tasks[j].level >= tasks[id].level
  }

  ghost function ExclusiveLevels(tasks: Tasks): set<int>
  {
    set i | i in tasks && tasks[i].exclusive :: tasks[i].level
  }

  /** `id` may go: another exclusive task is at least as high; or, of the exclusive tasks that remain,
      the highest has a positive level no other kind of task shares, or is of the level of all that remain. */
  ghost predicate SafeRemove(tasks: Tasks, id: TaskId)
  {
    var rest := tasks - {id};
    && Exclusive(tasks, id)
    && (forall j :: Exclusive(rest, j) ==> rest[j].level < tasks[id].level)
    ==>
    forall p :: IsGreatest(ExclusiveLevels(rest), p) ==>
                  forall i :: i in rest ==> if p > 0 then rest[i].level == p ==> rest[i].exclusive
                                            else rest[i].exclusive && rest[i].level == p
  }

  /** ADD_TASK keeps the table consistent exactly when the re-sent task is `SafeAdd`. */
  lemma ScheduleConsistentIff(tasks: Tasks, id: TaskId, t: Task)
    requires Consistent(tasks)
    ensures Consistent(Schedule(tasks, id, t)) <==> SafeAdd(tasks, id, t)
  {
    var after := Schedule(tasks, id, t);
    forall j ensures Exclusive(after, j) <==> (if j == id then t.exclusive else Exclusive(tasks, j)) {}
    if SafeAdd(tasks, id, t) {
      ScheduleKeeps(tasks, id, t);
    } else {
      assert after[id].running == Runnable(tasks, t);
      assert Blocks(tasks[id], t);
      UnsafeAddLeavesNoRunner(tasks, id, t);
    }
  }

  lemma ScheduleKeeps(tasks: Tasks, id: TaskId, t: Task)
    requires Consistent(tasks) && SafeAdd(tasks, id, t)
    ensures Consistent(Schedule(tasks, id, t))
  {
    var after := Schedule(tasks, id, t);
    forall i | i in after ensures after[i].running <==> MayRun(after, i) {
      if t.exclusive {
        ExclusiveAdded(tasks, id, t, i);
      } else {
        OrdinaryAdded(tasks, id, t, i);
      }
    }
  }

  lemma ExclusiveAdded(tasks: Tasks, id: TaskId, t: Task, i: TaskId)
    requires Consistent(tasks) && SafeAdd(tasks, id, t) && t.exclusive && i in Schedule(tasks, id, t)
    ensures Schedule(tasks, id, t)[i].running <==> MayRun(Schedule(tasks, id, t), i)
  {
    var after := Schedule(tasks, id, t);
    forall j ensures Exclusive(after, j) <==> j == id || Exclusive(tasks, j) {}
    assert Exclusive(after, id) && after[id].level == t.level;
    if i == id {
      NewcomerMayRun(tasks, id, t);
    } else if Exclusive(tasks, id) && tasks[id].level > t.level {
      var j :| Exclusive(tasks, j) && j != id && tasks[j].level >= tasks[id].level;
      assert Exclusive(after, j);
    }
  }

  lemma NewcomerMayRun(tasks: Tasks, id: TaskId, t: Task)
    requires SafeAdd(tasks, id, t) && t.exclusive
    ensures Runnable(tasks, t) <==> MayRun(Schedule(tasks, id, t), id)
  {
    var after := Schedule(tasks, id, t);
    if j :| Exclusive(tasks, j) && tasks[j].level > t.level {
      assert Blocks(tasks[j], t);
      assert Exclusive(after, id);
      if j == id {
        var k :| Exclusive(tasks, k) && k != id && tasks[k].level >= tasks[id].level;
        assert Exclusive(after, k) && after[k].level > t.level;
      } else {
        assert Exclusive(after, j) && after[j].level > t.level;
      }
    } else {
      forall i | i in tasks ensures !Blocks(tasks[i], t) {
        assert tasks[i].exclusive ==> Exclusive(tasks, i);
      }
      assert forall i :: Exclusive(after, i) ==> i == id || Exclusive(tasks, i);
    }
  }

  lemma OrdinaryAdded(tasks: Tasks, id: TaskId, t: Task, i: TaskId)
    requires Consistent(tasks) && SafeAdd(tasks, id, t) && !t.exclusive && i in Schedule(tasks, id, t)
    ensures Schedule(tasks, id, t)[i].running <==> MayRun(Schedule(tasks, id, t), i)
  {
    var after := Schedule(tasks, id, t);
    forall j ensures Exclusive(after, j) <==> j != id && Exclusive(tasks, j) {}
    if Exclusive(tasks, id) {
      var j :| Exclusive(tasks, j) && j != id && tasks[j].level >= tasks[id].level;
      assert Exclusive(after, j) && Blocks(tasks[j], t);
      if i != id && MayRun(after, i) {
        assert tasks[j].level <= tasks[i].level;
      }
    } else if j :| Exclusive(tasks, j) {
      assert Exclusive(after, j) && Blocks(tasks[j], t);
    } else {
      assert forall k :: k in tasks && Blocks(tasks[k], t) ==> Exclusive(tasks, k);
    }
  }

  /** A table with a task in it always has a task that ought to run. */
  lemma SomeoneMayRun(tasks: Tasks, i: TaskId) returns (top: TaskId)
    requires i in tasks
    ensures top in tasks && MayRun(tasks, top)
  {
    if forall j :: !Exclusive(tasks, j) {
      top := i;
    } else {
      var j :| Exclusive(tasks, j);
      assert tasks[j].level in ExclusiveLevels(tasks);
      GreatestExists(ExclusiveLevels(tasks));
      var m :| IsGreatest(ExclusiveLevels(tasks), m);
      top :| top in tasks && tasks[top].exclusive && tasks[top].level == m;
      assert forall k :: Exclusive(tasks, k) ==> tasks[k].level in ExclusiveLevels(tasks);
    }
  }

  lemma UnsafeAddLeavesNoRunner(tasks: Tasks, id: TaskId, t: Task)
    requires Consistent(tasks) && !SafeAdd(tasks, id, t)
    ensures !Consistent(Schedule(tasks, id, t))
  {
    var after := Schedule(tasks, id, t);
    assert Blocks(tasks[id], t);
    forall i | i in after ensures !after[i].running {
      if i != id {
        assert Exclusive(tasks, id);
      }
    }
    var top := SomeoneMayRun(after, id);
  }

  /** REMOVE_TASK keeps the table consistent exactly when it is `SafeRemove`. */
  lemma TerminateConsistentIff(tasks: Tasks, id: TaskId, tasks': Tasks, resumed: set<TaskId>)
    requires Consistent(tasks) && Terminated(tasks, id, tasks', resumed)
    ensures Consistent(tasks') <==> SafeRemove(tasks, id)
  {
    if Exclusive(tasks, id) {
      var rest := tasks - {id};
      forall j ensures Exclusive(rest, j) <==> Exclusive(tasks, j) && j != id {}
      forall j ensures Exclusive(tasks', j) <==> Exclusive(rest, j) {}
      if j :| Exclusive(rest, j) && rest[j].level >= tasks[id].level {
        var top := SomeoneMayRun(rest, j);
        assert Exclusive(rest, top) && tasks[top].level >= tasks[id].level;
        assert MayRun(tasks, top);
        assert ActiveUrgent(rest);
        assert tasks' == rest;
      } else {
        LastUrgentRemoved(tasks, id, tasks', resumed);
      }
    } else {
      assert forall j :: Exclusive(tasks', j) <==> Exclusive(tasks, j);
    }
  }

  /** The highest exclusive task goes and nothing of its level stays. */
  lemma LastUrgentRemoved(tasks: Tasks, id: TaskId, tasks': Tasks, resumed: set<TaskId>)
    requires Consistent(tasks) && Terminated(tasks, id, tasks', resumed)
    requires Exclusive(tasks, id)
    requires forall j :: Exclusive(tasks - {id}, j) ==> tasks[j].level < tasks[id].level
    ensures Consistent(tasks') <==> SafeRemove(tasks, id)
  {
    var rest := tasks - {id};
    forall j ensures Exclusive(rest, j) <==> Exclusive(tasks, j) && j != id {}
    forall i | i in rest ensures !rest[i].running {
      assert Exclusive(tasks, id);
      if Exclusive(rest, i) {
        assert rest[i].level < tasks[id].level;
      }
    }
    assert !ActiveUrgent(rest);
    forall j ensures Exclusive(tasks', j) <==> Exclusive(rest, j) {}
    if ExclusiveLevels(rest) == {} {
      assert forall j :: Exclusive(rest, j) ==> rest[j].level in ExclusiveLevels(rest);
      assert PausedLevels(rest) <= ExclusiveLevels(rest);
      assert forall i :: i in tasks' ==> tasks'[i].running;
    } else {
      GreatestExists(ExclusiveLevels(rest));
      var p :| IsGreatest(ExclusiveLevels(rest), p);
      assert forall q :: IsGreatest(ExclusiveLevels(rest), q) ==> q == p;
      NextLevelResumed(rest, p, tasks', resumed);
    }
  }

  /** With every task paused and `p` the highest exclusive level, the resume loops restart exactly the tasks
      of level `p`, or all of them if `p` is not positive; only exclusive tasks of level `p` ought to run. */
  lemma NextLevelResumed(rest: Tasks, p: int, tasks': Tasks, resumed: set<TaskId>)
    requires IsResumed(rest, resumed) && tasks' == ResumeAll(rest, resumed)
    requires forall i :: i in rest ==> !rest[i].running
    requires IsGreatest(ExclusiveLevels(rest), p)
    ensures forall i :: i in rest ==> (tasks'[i].running <==> p <= 0 || rest[i].level == p)
    ensures forall i :: i in rest ==> (MayRun(tasks', i) <==> rest[i].exclusive && rest[i].level == p)
  {
    forall j ensures Exclusive(tasks', j) <==> Exclusive(rest, j) {}
    forall j | Exclusive(rest, j) ensures rest[j].level <= p {
      assert rest[j].level in ExclusiveLevels(rest);
    }
    var e :| e in rest && rest[e].exclusive && rest[e].level == p;
    assert Exclusive(tasks', e);
    assert PausedLevels(rest) <= ExclusiveLevels(rest);
    if p > 0 {
      assert p in PausedLevels(rest);
      assert forall q :: IsGreatest(PausedLevels(rest), q) ==> q == p;
    } else {
      assert PausedLevels(rest) == {};
    }
  }

  // ----- Runs -----

  /** The tables, the commands issued so far, the events and the orders in which their loops met the tasks. */
  datatype Run = Run(states: seq<Tasks>, logs: seq<seq<Command>>, events: seq<Event>, orders: seq<seq<TaskId>>)

  ghost predicate IsRun(r: Run)
  {
    && |r.states| == |r.logs| == |r.events| + 1 == |r.orders| + 1
    && r.states[0] == map[] && r.logs[0] == []
    && forall k :: 0 <= k < |r.events| ==> IsStep(r, k)
  }

  ghost predicate IsStep(r: Run, k: nat)
    requires |r.states| == |r.logs| == |r.events| + 1 == |r.orders| + 1
    requires k < |r.events|
  {
    && Next(r.states[k], r.events[k], r.orders[k], r.states[k + 1])
    && r.logs[k + 1] == r.logs[k] + Commands(r.states[k], r.events[k], r.orders[k])
  }

  ghost predicate SafeEvent(tasks: Tasks, ev: Event)
  {
    match ev
    case Add(id, t) => SafeAdd(tasks, id, t)
    case Remove(id) => SafeRemove(tasks, id)
  }

  ghost predicate AllConsistent(r: Run, n: nat)
    requires IsRun(r) && n <= |r.events|
  {
    forall k :: 0 <= k <= n ==> Consistent(r.states[k])
  }

  ghost predicate AllSafe(r: Run, n: nat)
    requires IsRun(r) && n <= |r.events|
  {
    forall k :: 0 <= k < n ==> SafeEvent(r.states[k], r.events[k])
  }

  lemma ConsistentNext(r: Run, n: nat)
    requires IsRun(r) && n < |r.events| && Consistent(r.states[n])
    ensures Consistent(r.states[n + 1]) <==> SafeEvent(r.states[n], r.events[n])
  {
    assert IsStep(r, n);
    match r.events[n]
    case Add(id, t) => ScheduleConsistentIff(r.states[n], id, t);
    case Remove(id) => TerminateConsistentIff(r.states[n], id, r.states[n + 1], Elements(r.orders[n]));
  }

  /** Along every run, the running set is as it ought to be at every point if and only if every event is safe. */
  lemma {:induction false} RunConsistent(r: Run, n: nat)
    requires IsRun(r) && n <= |r.events|
    ensures AllConsistent(r, n) <==> AllSafe(r, n)
  {
    if n > 0 {
      RunConsistent(r, n - 1);
      assert AllConsistent(r, n) <==> AllConsistent(r, n - 1) && Consistent(r.states[n]);
      assert AllSafe(r, n) <==> AllSafe(r, n - 1) && SafeEvent(r.states[n - 1], r.events[n - 1]);
      if AllConsistent(r, n - 1) {
        ConsistentNext(r, n - 1);
      }
    }
  }

  // ----- The level discipline that makes every event safe -----

  /** Exclusive tasks have positive levels that no non-exclusive task shares. */
  ghost predicate Disciplined(config: map<TaskId, Task>)
  {
    && (forall i :: i in config && config[i].exclusive ==> config[i].level > 0)
    && (forall i, j :: i in config && j in config && config[i].exclusive && !config[j].exclusive
                       ==> config[i].level != config[j].level)
  }

  ghost predicate Conforms(t: Task, config: map<TaskId, Task>, id: TaskId)
  {
    id in config && t.exclusive == config[id].exclusive && t.level == config[id].level
  }

  ghost predicate RunConforms(r: Run, config: map<TaskId, Task>)
  {
    forall k :: 0 <= k < |r.events| && r.events[k].Add? ==> Conforms(r.events[k].task, config, r.events[k].id)
  }

  ghost predicate TableConforms(tasks: Tasks, config: map<TaskId, Task>)
  {
    forall i :: i in tasks ==> Conforms(tasks[i], config, i)
  }

  lemma {:induction false} RunTableConforms(r: Run, config: map<TaskId, Task>, n: nat)
    requires IsRun(r) && RunConforms(r, config) && n <= |r.events|
    ensures TableConforms(r.states[n], config)
  {
    if n > 0 {
      RunTableConforms(r, config, n - 1);
      assert IsStep(r, n - 1);
    }
  }

  lemma DisciplinedEventsAreSafe(tasks: Tasks, config: map<TaskId, Task>, ev: Event)
    requires Disciplined(config) && TableConforms(tasks, config)
    requires ev.Add? ==> Conforms(ev.task, config, ev.id)
    ensures SafeEvent(tasks, ev)
  {
    if ev.Remove? {
      var rest := tasks - {ev.id};
      forall p | IsGreatest(ExclusiveLevels(rest), p)
        ensures forall i :: i in rest ==> p > 0 && (rest[i].level == p ==> rest[i].exclusive)
      {
        var e :| e in rest && rest[e].exclusive && rest[e].level == p;
        assert Conforms(tasks[e], config, e);
        assert forall i :: i in rest ==> Conforms(tasks[i], config, i);
      }
    }
  }

  /** Under the level discipline, in every reachable state a task is running iff no exclusive task is
      present or it is a highest exclusive one. */
  lemma RunningIffMayRun(r: Run, config: map<TaskId, Task>, n: nat)
    requires IsRun(r) && Disciplined(config) && RunConforms(r, config) && n <= |r.events|
    ensures Consistent(r.states[n])
  {
    forall k | 0 <= k < n ensures SafeEvent(r.states[k], r.events[k]) {
      RunTableConforms(r, config, k);
      DisciplinedEventsAreSafe(r.states[k], config, r.events[k]);
    }
    RunConsistent(r, n);
  }

  /** Hence the running set depends on the tasks present only, not on the order of the commands. */
  lemma OrderIndependent(r1: Run, r2: Run, config: map<TaskId, Task>)
    requires Disciplined(config)
    requires IsRun(r1) && RunConforms(r1, config)
    requires IsRun(r2) && RunConforms(r2, config)
    requires r1.states[|r1.events|].Keys == r2.states[|r2.events|].Keys
    ensures r1.states[|r1.events|] == r2.states[|r2.events|]
  {
    var a, b := r1.states[|r1.events|], r2.states[|r2.events|];
    RunningIffMayRun(r1, config, |r1.events|);
    RunningIffMayRun(r2, config, |r2.events|);
    RunTableConforms(r1, config, |r1.events|);
    RunTableConforms(r2, config, |r2.events|);
    forall j ensures Exclusive(a, j) <==> Exclusive(b, j) {
      assert j in a ==> Conforms(a[j], config, j) && Conforms(b[j], config, j);
    }
    forall i | i in a ensures a[i] == b[i] {
      assert Conforms(a[i], config, i) && Conforms(b[i], config, i);
      assert forall j :: j in a ==> Conforms(a[j], config, j) && Conforms(b[j], config, j);
      assert MayRun(a, i) <==> MayRun(b, i);
    }
  }

  // ----- Launch and terminate commands balance -----

  /** The tasks launched and not terminated since; terminating an absent task is a no-op. */
  function Replay(live: set<TaskId>, cmds: seq<Command>): set<TaskId>
    decreases cmds
  {
    if cmds == [] then live
    else match cmds[0]
      case Launch(id) => Replay(live + {id}, cmds[1..])
      case Terminate(id, _) => Replay(live - {id}, cmds[1..])
  }

  /** No task is launched while it is already launched. */
  predicate NoRelaunch(live: set<TaskId>, cmds: seq<Command>)
    decreases cmds
  {
    if cmds == [] then true
    else match cmds[0]
      case Launch(id) => id !in live && NoRelaunch(live + {id}, cmds[1..])
      case Terminate(id, _) => NoRelaunch(live - {id}, cmds[1..])
  }

  lemma {:induction false} ReplayConcat(live: set<TaskId>, a: seq<Command>, b: seq<Command>)
    ensures Replay(live, a + b) == Replay(Replay(live, a), b)
    ensures NoRelaunch(live, a + b) <==> NoRelaunch(live, a) && NoRelaunch(Replay(live, a), b)
    decreases a
  {
    if a == [] {
      assert a + b == b;
    } else {
      assert (a + b)[1..] == a[1..] + b;
      ReplayConcat(match a[0] case Launch(id) => live + {id} case Terminate(id, _) => live - {id}, a[1..], b);
    }
  }

  lemma {:induction false} ReplayPauses(live: set<TaskId>, ids: seq<TaskId>)
    ensures Replay(live, Pauses(ids)) == live - Elements(ids)
    ensures NoRelaunch(live, Pauses(ids))
    decreases ids
  {
    if ids != [] {
      assert Pauses(ids)[1..] == Pauses(ids[1..]);
      ReplayPauses(live - {ids[0]}, ids[1..]);
      assert Elements(ids) == {ids[0]} + Elements(ids[1..]);
    }
  }

  lemma {:induction false} ReplayLaunches(live: set<TaskId>, ids: seq<TaskId>)
    requires Distinct(ids)
    ensures Replay(live, Launches(ids)) == live + Elements(ids)
    ensures NoRelaunch(live, Launches(ids)) <==> live !! Elements(ids)
    decreases ids
  {
    if ids != [] {
      assert Launches(ids)[1..] == Launches(ids[1..]);
      ReplayLaunches(live + {ids[0]}, ids[1..]);
      assert Elements(ids) == {ids[0]} + Elements(ids[1..]);
      assert ids[0] !in Elements(ids[1..]);
    }
  }

  /** What the commands of a handler say agrees with the table after it: a task that is terminated stays in the table
      iff the command says that it is paused, and it is then not running unless it is launched again; a task that is
      launched is in the table and runs. */
  lemma CommandsTellTheTruth(tasks: Tasks, ev: Event, ids: seq<TaskId>, tasks': Tasks, i: nat)
    requires Next(tasks, ev, ids, tasks') && i < |Commands(tasks, ev, ids)|
    ensures
      match Commands(tasks, ev, ids)[i]
      case Terminate(id, paused) =>
        (paused <==> id in tasks') && (paused && id != ev.id ==> !tasks'[id].running)
      case Launch(id) => id in tasks' && tasks'[id].running
  {
    match ev
    case Add(id, t) =>
      if i < |ids| {
        assert Commands(tasks, ev, ids)[i] == Pauses(ids)[i];
        assert ids[i] in Elements(ids);
      }
    case Remove(id) =>
      var head := if id in tasks && tasks[id].running then [Terminate(id, false)] else [];
      if i >= |head| {
        assert Commands(tasks, ev, ids)[i] == Launches(ids)[i - |head|];
        assert ids[i - |head|] in Elements(ids);
        ResumedStay(tasks, id, tasks', Elements(ids));
      }
  }

  lemma ResumedStay(tasks: Tasks, id: TaskId, tasks': Tasks, resumed: set<TaskId>)
    requires Terminated(tasks, id, tasks', resumed)
    ensures resumed <= tasks'.Keys
  {
  }

  ghost function RunningSet(tasks: Tasks): set<TaskId>
  {
    set i | i in tasks && tasks[i].running
  }

  /** A non-exclusive task that runs beside paused exclusive ones is above all of them. */
  ghost predicate Layered(tasks: Tasks)
  {
    forall i, j :: i in tasks && j in tasks && !tasks[i].exclusive && tasks[i].running
                   && tasks[j].exclusive && !tasks[j].running && tasks[j].level > 0
                   ==> tasks[i].level > tasks[j].level
  }

  /** The id is not that of a running task, unless the new task pauses it first. */
  predicate Resendable(tasks: Tasks, id: TaskId, t: Task)
  {
    id in tasks && tasks[id].running ==> Preempts(t, tasks[id])
  }

  /** The commands of a handler take what is launched to what the table then marks running. */
  ghost predicate Balances(tasks: Tasks, cmds: seq<Command>, tasks': Tasks)
  {
    NoRelaunch(RunningSet(tasks), cmds) && Replay(RunningSet(tasks), cmds) == RunningSet(tasks')
  }

  /** ADD_TASK balances exactly when the id may be sent. */
  lemma AddBalancesIff(tasks: Tasks, id: TaskId, t: Task, ids: seq<TaskId>)
    requires Lists(ids, Preempted(tasks, t))
    ensures Balances(tasks, Commands(tasks, Add(id, t), ids), Schedule(tasks, id, t)) <==> Resendable(tasks, id, t)
  {
    var live := RunningSet(tasks);
    var tail := if Runnable(tasks, t) then [Launch(id)] else [];
    ReplayConcat(live, Pauses(ids), tail);
    ReplayPauses(live, ids);
    var left := live - Elements(ids);
    if Runnable(tasks, t) {
      assert Replay(left, tail) == Replay(left + {id}, []);
    }
    AddedRunning(tasks, id, t);
  }

  /** What runs after ADD_TASK. */
  lemma AddedRunning(tasks: Tasks, id: TaskId, t: Task)
    ensures RunningSet(Schedule(tasks, id, t))
            == RunningSet(tasks) - Preempted(tasks, t) - {id} + if Runnable(tasks, t) then {id} else {}
    ensures id in RunningSet(tasks) - Preempted(tasks, t) <==> !Resendable(tasks, id, t)
  {
  }

  lemma RemoveBalances(tasks: Tasks, id: TaskId, tasks': Tasks, ids: seq<TaskId>)
    requires Distinct(ids) && Terminated(tasks, id, tasks', Elements(ids)) && Layered(tasks)
    ensures Balances(tasks, Commands(tasks, Remove(id), ids), tasks')
  {
    var live := RunningSet(tasks);
    var head := if id in tasks && tasks[id].running then [Terminate(id, false)] else [];
    ReplayConcat(live, head, Launches(ids));
    var left := live - {id};
    if head != [] {
      assert Replay(live, head) == Replay(left, []);
    } else {
      assert left == live;
    }
    ReplayLaunches(left, ids);
    RemoveKeepsLayers(tasks, id, tasks', Elements(ids));
    assert RunningSet(tasks') == left + Elements(ids);
  }

  lemma AddKeepsLayers(tasks: Tasks, id: TaskId, t: Task)
    requires Layered(tasks)
    ensures Layered(Schedule(tasks, id, t))
  {
    var after := Schedule(tasks, id, t);
    forall j | j in tasks && tasks[j].exclusive && !t.exclusive ensures !after[id].running {
      assert Blocks(tasks[j], t);
    }
  }

  lemma RemoveKeepsLayers(tasks: Tasks, id: TaskId, tasks': Tasks, resumed: set<TaskId>)
    requires Layered(tasks) && Terminated(tasks, id, tasks', resumed)
    ensures Layered(tasks')
    ensures resumed <= tasks'.Keys && resumed !! RunningSet(tasks) - {id}
  {
    if Exclusive(tasks, id) {
      var rest := tasks - {id};
      if !ActiveUrgent(rest) && PausedLevels(rest) != {} {
        var p :| IsGreatest(PausedLevels(rest), p) && resumed == set i | i in rest && rest[i].level == p;
        var e :| e in rest && rest[e].exclusive && !rest[e].running && rest[e].level > 0 && rest[e].level == p;
        forall i | i in resumed ensures !rest[i].running {
          assert rest[i].exclusive || !rest[i].running;
        }
        forall j | j in rest && rest[j].exclusive && !rest[j].running && rest[j].level > 0 ensures rest[j].level <= p {
          assert rest[j].level in PausedLevels(rest);
        }
      }
    }
  }

  lemma NextKeepsLayers(tasks: Tasks, ev: Event, ids: seq<TaskId>, tasks': Tasks)
    requires Next(tasks, ev, ids, tasks') && Layered(tasks)
    ensures Layered(tasks')
  {
    match ev
    case Add(id, t) => AddKeepsLayers(tasks, id, t);
    case Remove(id) => RemoveKeepsLayers(tasks, id, tasks', Elements(ids));
  }

  predicate ResendableEvent(tasks: Tasks, ev: Event)
  {
    ev.Add? ==> Resendable(tasks, ev.id, ev.task)
  }

  /** One handler balances exactly when it does not add a running task that it does not pause. */
  lemma NextBalancesIff(tasks: Tasks, ev: Event, ids: seq<TaskId>, tasks': Tasks)
    requires Next(tasks, ev, ids, tasks') && Layered(tasks)
    ensures Balances(tasks, Commands(tasks, ev, ids), tasks') <==> ResendableEvent(tasks, ev)
  {
    match ev
    case Add(id, t) => AddBalancesIff(tasks, id, t, ids);
    case Remove(id) => RemoveBalances(tasks, id, tasks', ids);
  }

  /** Replaying the first `n` handlers relaunches nothing and leaves exactly the tasks marked running. */
  ghost predicate Balanced(r: Run, n: nat)
    requires IsRun(r) && n <= |r.events|
  {
    Replay({}, r.logs[n]) == RunningSet(r.states[n]) && NoRelaunch({}, r.logs[n])
  }

  lemma {:induction false} RunLayered(r: Run, n: nat)
    requires IsRun(r) && n <= |r.events|
    ensures Layered(r.states[n])
  {
    if n > 0 {
      RunLayered(r, n - 1);
      assert IsStep(r, n - 1);
      NextKeepsLayers(r.states[n - 1], r.events[n - 1], r.orders[n - 1], r.states[n]);
    }
  }

  /** A balanced log stays balanced exactly when the next handler may send its id. */
  lemma BalancedNext(r: Run, n: nat)
    requires IsRun(r) && n < |r.events| && Balanced(r, n)
    ensures Balanced(r, n + 1) <==> ResendableEvent(r.states[n], r.events[n])
  {
    RunLayered(r, n);
    assert IsStep(r, n);
    NextBalancesIff(r.states[n], r.events[n], r.orders[n], r.states[n + 1]);
    ReplayConcat({}, r.logs[n], Commands(r.states[n], r.events[n], r.orders[n]));
  }

  ghost predicate AllBalanced(r: Run, n: nat)
    requires IsRun(r) && n <= |r.events|
  {
    forall k :: 0 <= k <= n ==> Balanced(r, k)
  }

  ghost predicate AllResendable(r: Run, n: nat)
    requires IsRun(r) && n <= |r.events|
  {
    forall k :: 0 <= k < n ==> ResendableEvent(r.states[k], r.events[k])
  }

  /** Whatever the levels: at every point of a run replaying the commands in issue order leaves exactly the tasks
      marked running, with no task launched while already launched, if and only if no ADD_TASK re-sends a running
      task that it does not pause. */
  lemma {:induction false} CommandsBalance(r: Run, n: nat)
    requires IsRun(r) && n <= |r.events|
    ensures AllBalanced(r, n) <==> AllResendable(r, n)
  {
    if n > 0 {
      CommandsBalance(r, n - 1);
      assert AllBalanced(r, n) <==> AllBalanced(r, n - 1) && Balanced(r, n);
      assert AllResendable(r, n) <==> AllResendable(r, n - 1) && ResendableEvent(r.states[n - 1], r.events[n - 1]);
      if AllBalanced(r, n - 1) {
        assert Balanced(r, n - 1);
        BalancedNext(r, n - 1);
      }
    }
  }

  /** In particular with fresh ids. */
  lemma FreshIdsBalance(r: Run, n: nat)
    requires IsRun(r) && n <= |r.events|
    requires forall k :: 0 <= k < n && r.events[k].Add? ==> r.events[k].id !in r.states[k]
    ensures Balanced(r, n)
  {
    CommandsBalance(r, n);
  }

  /** A running task that is sent again is launched a second time. */
  lemma ResentIsRelaunched()
    ensures
      var t := Task(false, 0, true);
      !NoRelaunch(RunningSet(map["n" := t]), Commands(map["n" := t], Add("n", t), []))
  {
    var t := Task(false, 0, true);
    var tasks := map["n" := t];
    assert "n" in RunningSet(tasks);
    assert Commands(tasks, Add("n", t), []) == [Launch("n")];
  }

  // ----- Without the discipline the running set is not a function of the tasks present -----

  /** An exclusive task of level 0 is not found by the search, so everything is resumed beside it. */
  lemma LevelZeroIsMissed()
    ensures
      var tasks := map["u" := Task(true, 5, true), "z" := Task(true, 0, false), "n" := Task(false, 7, false)];
      && Consistent(tasks)
      && !SafeRemove(tasks, "u")
      && forall tasks', resumed :: Terminated(tasks, "u", tasks', resumed) ==> !Consistent(tasks')
  {
    var tasks := map["u" := Task(true, 5, true), "z" := Task(true, 0, false), "n" := Task(false, 7, false)];
    assert Exclusive(tasks, "u");
    assert Consistent(tasks);
    var rest := tasks - {"u"};
    assert rest["z"].exclusive && rest["z"].level in ExclusiveLevels(rest);
    assert IsGreatest(ExclusiveLevels(rest), 0);
    assert "n" in rest && !rest["n"].exclusive;
    forall tasks', resumed | Terminated(tasks, "u", tasks', resumed) ensures !Consistent(tasks') {
      TerminateConsistentIff(tasks, "u", tasks', resumed);
    }
  }

  // ----- Two runs with the same tasks and different running sets -----

  const N := Task(false, 7, true)
  const Z := Task(true, 0, true)
  const U := Task(true, 5, true)

  function Paused(t: Task): Task
  {
    t.(running := false)
  }

  /** A run with one more handler. */
  function Longer(r: Run, ev: Event, ids: seq<TaskId>, tasks: Tasks): Run
    requires |r.states| == |r.logs| > 0
  {
    var last, log := r.states[|r.states| - 1], r.logs[|r.logs| - 1];
    Run(r.states + [tasks], r.logs + [log + Commands(last, ev, ids)], r.events + [ev], r.orders + [ids])
  }

  lemma LongerIsRun(r: Run, ev: Event, ids: seq<TaskId>, tasks: Tasks)
    requires IsRun(r) && Next(r.states[|r.events|], ev, ids, tasks)
    ensures IsRun(Longer(r, ev, ids, tasks))
  {
    var r' := Longer(r, ev, ids, tasks);
    forall k | 0 <= k < |r'.events| ensures IsStep(r', k) {
      if k < |r.events| {
        assert IsStep(r, k);
      }
    }
  }

  /** Add n, add z: n is paused and z runs. */
  lemma TwoAdded() returns (r: Run)
    ensures IsRun(r) && r.events == [Add("n", N), Add("z", Z)]
    ensures r.states[2] == map["n" := Paused(N), "z" := Z]
  {
    r := Run([map[]], [[]], [], []);
    assert Preempted(map[], N) == {} && Elements<TaskId>([]) == {};
    assert Schedule(map[], "n", N) == map["n" := N];
    LongerIsRun(r, Add("n", N), [], map["n" := N]);
    r := Longer(r, Add("n", N), [], map["n" := N]);
    assert Preempted(map["n" := N], Z) == {"n"};
    assert Schedule(map["n" := N], "z", Z) == map["n" := Paused(N), "z" := Z];
    LongerIsRun(r, Add("z", Z), ["n"], map["n" := Paused(N), "z" := Z]);
    r := Longer(r, Add("z", Z), ["n"], map["n" := Paused(N), "z" := Z]);
  }

  lemma UrgentAdded()
    ensures Next(map["n" := Paused(N), "z" := Z], Add("u", U), ["n", "z"],
                 map["n" := Paused(N), "z" := Paused(Z), "u" := U])
  {
    var tasks := map["n" := Paused(N), "z" := Z];
    assert Preempted(tasks, U) == {"n", "z"};
    assert Elements(["n", "z"]) == {"n", "z"};
    assert Runnable(tasks, U);
    assert Schedule(tasks, "u", U) == map["n" := Paused(N), "z" := Paused(Z), "u" := U];
  }

  lemma UrgentRemoved()
    ensures Next(map["n" := Paused(N), "z" := Paused(Z), "u" := U], Remove("u"), ["n", "z"], map["n" := N, "z" := Z])
  {
    var tasks := map["n" := Paused(N), "z" := Paused(Z), "u" := U];
    var rest := tasks - {"u"};
    assert rest == map["n" := Paused(N), "z" := Paused(Z)];
    assert Elements(["n", "z"]) == {"n", "z"};
    assert PausedLevels(rest) == {};
    assert (set i | i in rest && !rest[i].running) == {"n", "z"};
    assert ResumeAll(rest, {"n", "z"}) == map["n" := N, "z" := Z];
  }

  /** Without the discipline the running set is not a function of the tasks present: adding n and z leaves z
      running, and adding and removing u besides leaves both running. */
  lemma OrderMatters() returns (r1: Run, r2: Run)
    ensures IsRun(r1) && r1.events == [Add("n", N), Add("z", Z)]
    ensures IsRun(r2) && r2.events == [Add("n", N), Add("z", Z), Add("u", U), Remove("u")]
    ensures r1.states[2] == map["n" := Paused(N), "z" := Z] && r2.states[4] == map["n" := N, "z" := Z]
  {
    r1 := TwoAdded();
    UrgentAdded();
    LongerIsRun(r1, Add("u", U), ["n", "z"], map["n" := Paused(N), "z" := Paused(Z), "u" := U]);
    r2 := Longer(r1, Add("u", U), ["n", "z"], map["n" := Paused(N), "z" := Paused(Z), "u" := U]);
    UrgentRemoved();
    LongerIsRun(r2, Remove("u"), ["n", "z"], map["n" := N, "z" := Z]);
    r2 := Longer(r2, Remove("u"), ["n", "z"], map["n" := N, "z" := Z]);
  }
}
