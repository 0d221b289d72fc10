# Verified model of the FogFlow daemons

FogFlow is a fog-computing orchestrator. Its master turns the availability of context entities into data-processing
tasks, its workers run those tasks by priority, its discovery service keeps and queries the registrations of entities,
and its brokers store, merge and translate the entities themselves. This project models the state machines inside these
four daemons in Dafny and proves what every run of them keeps.

`dafny verify dfyconfig.toml` checks the whole project.

## How the code is modelled

- A daemon object whose methods update its fields is a class with those fields. Each method is proved against a
  function or predicate on the old and new state, and the theorems are about that function.
- Go ranges over a map in an arbitrary order. A loop over a map picks any key that is left, and a specification that
  depends on the order takes it as a sequence that lists each key once (`Listings.Lists`).
- Handlers that run concurrently are a transition system with one step per lock region, or per access to a shared flag;
  a run is any interleaving of steps.
- Slices that the code compacts in place are arrays; maps and lists that a method reassigns are `map` and `seq` fields.
- Answers of other processes (a broker, a subscriber, `SelectWorker`) and the contents of opaque functions (the hash,
  the JSON encoding of a value, regular expressions, the comparison of slopes, distances) are parameters, so the
  theorems hold for all of them.

| file | what it holds |
|---|---|
| `Listings.dfy`, `Wrappers.dfy` | orders of a range over a map; optional values |
| `Worker.dfy`, `WorkerProofs.dfy` | the worker's priority scheduler; what every run keeps |
| `Planner.dfy`, `FogFlow.dfy` | the master's planner as functions; its methods, proved against them |
| `PlannerProofs.dfy` | the execution plan is the Cartesian product of the unique-value table |
| `PlacementProofs.dfy`, `PlacementRuns.dfy` | at most one live deployment per task |
| `Relevance.dfy`, `TableRuns.dfy` | relevant groups and relevant entities are dual; table and plan in every run, deletions included |
| `InputProofs.dfy`, `QuietRuns.dfy`, `ByTypeRuns.dfy` | the inputs of a task, and notifications that bring nothing new |
| `ToldRuns.dfy` | what the workers have been told of the inputs |
| `InputRuns.dfy` | which worker ADD_INPUT and REMOVE_INPUT go to |
| `SingleGroup.dfy`, `LateInputRun.dfy`, `KeyClashRun.dfy` | concrete runs in which a command goes to the wrong worker |
| `GroupHash.dfy` | `GetHash` |
| `Repository.dfy`, `RepositoryHistory.dfy`, `Query.dfy` | discovery's registration table and its query |
| `Persistence.dfy`, `Availability.dfy`, `AvailabilityNotices.dfy`, `RetryCache.dfy` | discovery's concurrent protocols |
| `Polygon.dfy`, `Triangle.dfy` | ray casting; the exact answer for triangles |
| `ExecutorState.dfy`, `ExecutorHistory.dfy`, `Executor.dfy` | the executor's subscriptions and delayed inputs |
| `EarlyNotify.dfy` | the broker's early notifications |
| `Attributes.dfy` | the broker's in-place merge and its test for a new registration |
| `NgsiLd.dfy`, `NgsiLdCodec.dfy`, `NgsiLdProofs.dfy`, `NgsiLdExact.dfy` | NGSI-LD reading, writing, the round trip and exactly when it holds |

## What the code does differently from what one would expect

- The search for a paused exclusive task starts at priority 0 and the resume loop compares levels only
  (worker/worker.go:343-355). The running set is therefore not a function of the tasks present for arbitrary levels.
  `WorkerProofs.ScheduleConsistentIff` and `WorkerProofs.TerminateConsistentIff` give the exact conditions, and
  `WorkerProofs.OrderMatters` two runs that end with the same tasks and different running sets. The balance of launches
  and terminations does not depend on levels; it fails exactly when an ADD_TASK re-sends a running task that it does not
  pause (`WorkerProofs.CommandsBalance`, `WorkerProofs.ResentIsRelaunched`).
- The key of a table row joins the entity type and the grouping by a hyphen, so a selector by "ALL" can share its row
  with one by metadata (type "X-Y" by "ALL" and type "X" by metadata "Y-ALL"). Then groups and entities are no longer
  dual, exactly when the row gives such a selector another value than "ALL" (`TableRuns.RunDualExactly`), and a task
  can be removed from a worker it is not on (`KeyClashRun.SharedRowMisplaces`).
- An ADD_INPUT goes to the worker the task was on before the notification. After a migration in the same notification
  that is the wrong one (`LateInputRun.FedAtOldPlace`); `InputRuns.RunNamesPlaceIff` is the exact condition.
- A DELETE that arrives when all inputs are available returns before it drops the registration
  (master/taskMgr.go:215-219). The model follows the code; the placement theorem covers it.
- While searching entities for a selector by type alone, the code compares the types found so far with that of a still
  empty input (master/taskMgr.go:725-737), so it leaves an entity out exactly when an input without a type was found
  before.
- A point below a polygon is said to be inside it when an odd number of edges join a vertex at its longitude to one at
  the very next float. `Polygon.OutsideExactly` is the exact condition and `Polygon.StepGoesWrong` a concrete failure.
- At the latitude of the end of a descending edge with the smaller longitude the comparison of slopes divides by zero and
  takes the edge for hit from above, so that a point strictly inside a triangle can be said to be outside
  (`Triangle.ZeroGoesWrong`). `Triangle.TriangleExactly` is the exact condition for points that no vertex shares the
  longitude of, `Triangle.VertexGoesWrong` a failure for one that a vertex does.
- All inputs selected by type alone carry the empty id. With two such selectors whose entities are at different places,
  meeting the one moves the input of the other (`InputProofs.OtherInputMoved`), so that a repeated notification can
  migrate the task. `QuietRuns.RepeatIsQuietIff` is the exact condition for it to do nothing, and
  `ByTypeRuns.RunByTypeIsQuiet` shows that it does nothing when they are at one place.
- Of several availability notifications that arrive before the broker has recorded the link, only the newest is kept.
- Not every entity comes back from NGSI-LD reading and writing: an array of one attribute object is written back as the
  object (`NgsiLdProofs.SingletonArrayCollapses`), keys in another case and other geometries than Point are not restored.
  `NgsiLdExact.RoundTripIff` says exactly which entities come back.
- The broker's test for a new registration looks at all entries of a metadata name but an update changes only the first
  one. `Attributes.RegistersExactlyOnChange` is the exact condition for the test to agree with what changes, and
  `Attributes.StoredBehindIsMissed` and `Attributes.TakenBackIsRegistered` are concrete failures.
- A negative nearby limit makes the query's slice expression panic; `Query.QueryEntities` returns `None` exactly then.

## Model

| member | source | states |
|---|---|---|
| `WorkerScheduler.Worker.OnScheduledTask` | worker/worker.go:241-296 | ADD_TASK, ranging over the table in any order: exactly the overtaken tasks are paused, the new task runs iff no present task blocks it, and the command log gains one pause per overtaken task and then the launch, if any |
| `WorkerScheduler.Worker.OnTerminateTask` | worker/worker.go:307-375 | REMOVE_TASK: an unknown id changes nothing; otherwise the task leaves the table, is terminated iff it ran, and the restarted tasks are those the resume rule names, each launched once |
| `WorkerScheduler.Worker.CheckPausedTasks` | worker/worker.go:330-374 | nothing is restarted while an exclusive task runs; else the tasks of the highest paused positive exclusive level; else everything paused |
| `WorkerScheduler.Worker.FindPriority` | worker/worker.go:343-351 | the search finds a level iff there is a paused exclusive task of positive level, and then the greatest such level |
| `WorkerScheduler.Worker.Restart` | worker/worker.go:353-374 | exactly the tasks of that level, or exactly the paused ones, are marked running and launched once each |
| `WorkerProofs.ScheduleConsistentIff` | worker/worker.go:241-296 | ADD_TASK keeps "running iff no exclusive task is present or a highest exclusive one" if and only if the re-sent task does not leave the table without its highest exclusive level |
| `WorkerProofs.TerminateConsistentIff` | worker/worker.go:307-375 | REMOVE_TASK keeps it if and only if another exclusive task is as high, or the next exclusive level is positive and not shared by a non-exclusive task, or all that remains is of that level and exclusive |
| `WorkerProofs.RunConsistent` | worker/worker.go:241-375 | over every run the running set is as it ought to be at every point if and only if every event meets its condition |
| `WorkerProofs.DisciplinedEventsAreSafe` | worker/worker.go:345-355 | positive exclusive levels shared with no non-exclusive task, and re-sent ids keeping class and level, make every event meet its condition |
| `WorkerProofs.RunningIffMayRun` | worker/worker.go:241-375 | under that discipline, in every reachable state a task runs iff no exclusive task is present or it is exclusive of the maximum level |
| `WorkerProofs.OrderIndependent` | worker/worker.go:241-375 | two runs that end with the same tasks present end with the same running set, whatever the order of ADD_TASK and REMOVE_TASK |
| `WorkerProofs.AddBalancesIff` | worker/worker.go:241-296 | the commands of one ADD_TASK relaunch nothing and replay to the new running set if and only if the id is not that of a running task which the new one does not pause |
| `WorkerProofs.NextBalancesIff` | worker/worker.go:267-374 | so do those of one handler of either kind; REMOVE_TASK always balances |
| `WorkerProofs.CommandsBalance` | worker/worker.go:241-375 | for any levels, at every point of a run replaying the commands in issue order leaves exactly the tasks marked running and never launches a launched task, if and only if no ADD_TASK re-sends a running task that it does not pause |
| `WorkerProofs.FreshIdsBalance` | worker/worker.go:241-375 | in particular in every run with fresh ids |
| `WorkerProofs.ResentIsRelaunched` | worker/worker.go:277-285 | a concrete running task that is launched again when it is sent again |
| `WorkerProofs.ReplayPauses` | worker/executor.go:342-349 | terminating tasks removes exactly them, absent ones being a no-op, and launches nothing twice |
| `WorkerProofs.CommandsTellTheTruth` | worker/worker.go:267-374 | a task terminated as paused, and no other, is still in the table after the handler and does not run; a task launched is in the table and runs |
| `WorkerProofs.LevelZeroIsMissed` | worker/worker.go:343-374 | a concrete table on which removing the running exclusive task resumes a non-exclusive task beside an exclusive one of level 0 |
| `WorkerProofs.OrderMatters` | worker/worker.go:241-375 | two runs that end with the same tasks present and different running sets: add n, add z, against add n, add z, add u, remove u |
| `FogFlowClass.FogFlow.constructor` | master/taskMgr.go:152-157 | a flow starts with empty table, plans and log, and no registration under any subscription |
| `FogFlowClass.FogFlow.UpdateGroupedKeyValueTable` | master/taskMgr.go:581-630 | the entity's value is appended to its row unless it is listed already, and no other row changes |
| `FogFlowClass.FogFlow.GetRelevantGroups` | master/taskMgr.go:632-683 | returns each assignment that gives this entity's row its value and every other row one of its values, and no other, once each when rows list no value twice |
| `FogFlowClass.FogFlow.Multiply` | master/taskMgr.go:670-678 | every listed value combined with every group so far |
| `FogFlowClass.MultipliedMembers` | master/taskMgr.go:665-680 | a group is in the product iff its value in that row is listed and it extends one of the groups |
| `FogFlowClass.MultipliedDistinct` | master/taskMgr.go:665-680 | the product of distinct groups with distinct values has no duplicates |
| `FogFlowClass.FogFlow.SearchRelevantEntities` | master/taskMgr.go:685-764 | for some order of the entities the group lets through, each once per subscription that knows it: the input of each, except that one selected by type alone is left out exactly when an input without a type was found before |
| `FogFlowClass.FogFlow.CheckInputAvailability` | master/taskMgr.go:227-235 | true iff every subscription has a registration |
| `FogFlowClass.FogFlow.CheckInputsOfTaskInstance` | master/taskMgr.go:238-259 | true iff each input stream of the operator has an input of its type |
| `FogFlowClass.AbsorbEntity` | master/taskMgr.go:281-386 | one entity meeting an existing task: a new input, or the first moved input is moved and the task migrates iff another worker is selected |
| `FogFlowClass.FogFlow.AbsorbEntities` | master/taskMgr.go:280-387 | the task and the actions after all entities are those of meeting them one by one |
| `FogFlowClass.FogFlow.ExpandGroup` | master/taskMgr.go:269-412 | an existing task meets the entities; a new group gets a task with them and an ADD_TASK |
| `FogFlowClass.FogFlow.ExpandExecutionPlan` | master/taskMgr.go:261-419 | plan and actions are those of expanding for exactly the relevant groups, each with its relevant entities |
| `FogFlowClass.DropInput` | master/taskMgr.go:46-53 | splicing in place leaves exactly the inputs of other entities, in order |
| `FogFlowClass.FogFlow.ShrinkGroup` | master/taskMgr.go:496-548 | the task loses the input, or ends with a REMOVE_TASK naming its recorded worker once a stream has no input |
| `FogFlowClass.FogFlow.RemoveExecutionPlan` | master/taskMgr.go:487-551 | plan and actions are those of shrinking exactly the relevant groups |
| `FogFlowClass.FogFlow.MetadataDrivenTaskOrchestration` | master/taskMgr.go:160-223 | flow and actions are those the planner decides, for a legal choice of map orders; DELETE keeps the registration once all inputs are there |
| `FogFlowClass.FogFlow.CarryOutAction` | master/taskMgr.go:1022-1087 | ADD_TASK deploys and records the worker in both plans or stops when none is found; REMOVE_TASK without a worker sends nothing |
| `FogFlowClass.FogFlow.CarryOutActions` | master/taskMgr.go:1022-1088 | the actions are carried out in order until a task finds no worker |
| `FogFlowClass.FogFlow.HandleUpdate` | master/taskMgr.go:1007-1089 | one notification for this flow: the new flow and the commands sent are those of deciding and carrying out the actions, for a legal choice of map orders |
| `FogFlowClass.TaskMgr.HandleContextAvailabilityUpdate` | master/taskMgr.go:984-1089 | the flow of the subscription's function handles the notification; no other flow changes, and none does if the subscription or its flow is unknown |
| `FogFlowClass.StoppedStays` | master/taskMgr.go:1036-1041 | once a task finds no worker the remaining actions have no effect |
| `Planner.FirstMoved` | master/taskMgr.go:346-356 | the first input of the entity recorded at another place, or none |
| `InputProofs.AbsorbCounts` | master/taskMgr.go:280-387 | after a task has met its entities it has, of each type if the notified selector is by type alone and of each id otherwise, as many inputs as before or one if there was none and it was met; and one ADD_INPUT for each that was missing and met |
| `InputProofs.AbsorbOneIdleIff` | master/taskMgr.go:281-386 | meeting an entity leaves the task alone if and only if it has an input of that type or id and every input of that id is at the entity's place |
| `InputProofs.MigratesIff` | master/taskMgr.go:340-385 | a moved entity moves the first input of it, and the task migrates iff the worker selected for the places its inputs then have is another |
| `InputProofs.DeploysWhereSelected` | master/taskMgr.go:1028-1070 | an ADD_TASK deploys on the worker selected for the places of the inputs in the plan and records it in both plans |
| `InputProofs.OtherInputMoved` | master/taskMgr.go:346-356 | two selectors by type alone with entities at different places: meeting one moves the input of the other and migrates the task |
| `InputProofs.LatestMetadata` | common/ngsi/ngsi.go:963-979 | the metadata a subscription keeps of an entity are, name by name, those of the latest registration that has them |
| `InputProofs.LatestType` | common/ngsi/ngsi.go:963-979 | its type is that of the latest registration that gives one |
| `InputProofs.LatestLocation` | common/ngsi/ngsi.go:921-930 | an entity is where the latest registration with a location puts it |
| `InputProofs.KeptLocation` | common/ngsi/ngsi.go:921-979 | without one it stays where it was, and its id never changes |
| `QuietRuns.RunComplete` | master/taskMgr.go:261-412 | in every CREATE and UPDATE run of the placement theorem every entity a planned group lets through is an input of its task |
| `QuietRuns.RunRepeatIsQuiet` | master/taskMgr.go:160-206 | in such a run a notification that changes neither registrations nor table, all of whose groups are planned, issues no action and changes nothing |
| `QuietRuns.RepeatIsQuietIff` | master/taskMgr.go:261-412 | in any flow and for selectors of all kinds, a notification that changes neither registrations nor table issues no action, whichever workers are selected, if and only if every group is planned, its task has an input of the id or type of each entity found, and all inputs of such an entity stand at its place |
| `ByTypeRuns.RunTidy` | master/taskMgr.go:160-206 | in every run of typed CREATE and UPDATE notifications to selectors by type alone, each keeps its first registration and every task has an input of each type its group lets through, at the place of a registration |
| `ByTypeRuns.RunByTypeIsQuiet` | master/taskMgr.go:160-206 | once all have a registration and these are at one place, no further notification for planned groups issues an action or changes anything |
| `ToldRuns.RunTold` | master/taskMgr.go:1022-1087 | in every run of the placement theorem, deletions included, replaying the commands each live task has been told of exactly the inputs it has in the plan |
| `PlannerProofs.ExpandKeys` | master/taskMgr.go:261-412 | expanding adds to the plan exactly the hashes of the relevant groups |
| `PlannerProofs.RowProduct` | master/taskMgr.go:581-683 | a table that gains a value in a row gains exactly the groups with that value |
| `PlannerProofs.HandleKeepsProduct` | master/taskMgr.go:160-206 | one CREATE or UPDATE keeps the plan's keys the hashes of the full product |
| `PlannerProofs.RunPlanIsProduct` | master/taskMgr.go:160-412 | in every run of CREATE and UPDATE with distinct selector keys the plan is empty until every subscription has a registration, and then its keys are exactly the hashes of the Cartesian product of the table |
| `Relevance.DualExactly` | master/taskMgr.go:632-764 | for a registered entity and a full assignment, whoever shares the row, relevance of the group and its restriction agree if and only if a selector by "ALL" meets "ALL" |
| `Relevance.RelevantIffYields` | master/taskMgr.go:632-764 | in a table that lists what is registered, the group is relevant to a registered entity iff its restriction lets the entity through |
| `Relevance.ListedIsRelevant` | master/taskMgr.go:718-756 | whatever the search lists is the input of an entity the group lets through |
| `Relevance.RelevantIsListed` | master/taskMgr.go:718-756 | every entity the group lets through is listed, unless it is selected by type alone |
| `Relevance.ListedOncePerEntity` | master/taskMgr.go:685-764 | no entity is listed twice when no selector is by type alone and entities report through one subscription |
| `Relevance.ListedAsRegistered` | master/taskMgr.go:724-756 | an input found has the type and place the entity is registered with, and its id unless the selector is by type alone |
| `Relevance.SameGroupsIff` | master/taskMgr.go:632-683 | two entities of a selector take part in the same groups iff they agree on what it groups by |
| `Relevance.GroupsAndVisitsDual` | common/ngsi/ngsi.go:933-961 | for any selectors, `getRelevantGroups` returns a full assignment for an entity iff `searchRelevantEntities` on it visits the entity through that subscription |
| `Relevance.GroupsAndEntitiesDual` | master/taskMgr.go:632-764 | an entity is among the inputs found for a full assignment iff the assignment is among its groups through some scoped or EntityID-grouped selector, also when several subscriptions know it |
| `TableRuns.RunOnTable` | master/taskMgr.go:160-223 | every CREATE/UPDATE/DELETE run with any hash, in which a selector by "ALL" shares its row only with such, keeps each registered value in its row, plans nothing before every subscription has a registration, and keeps the plan's keys among the hashes of the Cartesian product |
| `TableRuns.DeleteExactly` | master/taskMgr.go:487-551 | a DELETE takes from the plan exactly the tasks of groups the entity is relevant to that have, for some stream, no input of its type but the entity's; and nothing before all inputs are there |
| `TableRuns.RunDualExactly` | master/taskMgr.go:632-764 | in every reachable state of every flow, groups and entities agree on an assignment if and only if a selector by "ALL" meets "ALL" in it |
| `TableRuns.RunGroupsAndEntitiesDual` | master/taskMgr.go:632-764 | both dualities hold in every reachable state |
| `PlacementProofs.InputsStep` | master/taskMgr.go:281-356 | meeting one entity keeps one input per entity and brings its place up to date; only the notified entity can have moved |
| `PlacementProofs.AbsorbSteps` | master/taskMgr.go:280-387 | an existing task meeting its entities migrates at most once, from the worker it is on |
| `PlacementProofs.ExpandSound` | master/taskMgr.go:269-412 | the actions add a task only where it is not and remove it at most once from where it is; the tasks after them are the plan |
| `PlacementProofs.ShrinkSound` | master/taskMgr.go:487-551 | so do the actions of a DELETE, which never add a task |
| `PlacementProofs.WithoutKeeps` | master/taskMgr.go:46-53 | dropping an entity's inputs keeps exactly the others |
| `PlacementProofs.CarryOutReplays` | master/taskMgr.go:1022-1087 | carrying out sound actions, the commands replay without placing a task twice or removing it from elsewhere |
| `PlacementProofs.CarryOutSettles` | master/taskMgr.go:565-575 | afterwards every planned task is on the worker recorded in both plans, and the log replays to exactly that |
| `PlacementRuns.HandleOrderly` | master/taskMgr.go:984-1089 | one notification of any kind keeps the registrations filed, the plan on the table, inputs at their entities' places, and the log in agreement |
| `PlacementRuns.RunOrderly` | master/taskMgr.go:160-223 | every run keeps it |
| `PlacementRuns.RunPlacesOnce` | master/taskMgr.go:469-575 | in every CREATE/UPDATE/DELETE run, replaying the commands never places a task on two workers, each removal names the worker of the last placement, and the live tasks are exactly the plan |
| `KeyClashRun.SharedRowMisplaces` | master/taskMgr.go:581-764 | a run of five notifications that breaks only the assumption on shared rows, and whose commands remove a task from a worker it is not on |
| `InputRuns.ExpandNamed` | master/taskMgr.go:318-336 | every ADD_INPUT is for a task that is then planned and names the worker it was on before the notification |
| `InputRuns.ShrinkNamed` | master/taskMgr.go:533-545 | so does every REMOVE_INPUT, before the task is touched |
| `InputRuns.RunNamesPlaceIff` | master/taskMgr.go:280-387 | in every run of the placement theorem an ADD_INPUT or REMOVE_INPUT goes to the worker its task is on if and only if the task has not been placed on another worker earlier in the same notification; a REMOVE_INPUT always does |
| `LateInputRun.FedAtOldPlace` | master/taskMgr.go:215-219 | CREATE e, CREATE d, DELETE d, UPDATE e moved: the task migrates and is then fed d at the worker it left |
| `GroupHash.BubbleDown` | master/taskMgr.go:114-125 | one pass of swaps inserts the pair at its sorted place and moves nothing else |
| `GroupHash.SortedPairs` | master/taskMgr.go:102-126 | the loop over the group, in any order, ends with its one sorted listing |
| `GroupHash.GetHash` | master/taskMgr.go:102-138 | for every order of the range, the hashed text is the concatenation of the encoded values by ascending key |
| `GroupHash.AscendingUnique` | master/taskMgr.go:118-125 | a set of keys has one ascending order |
| `GroupHash.LessIff` | master/taskMgr.go:119 | the order of keys: the first difference decides, and a proper prefix comes first |
| `GroupHash.ListingUnique` | master/taskMgr.go:102-131 | a group has one sorted listing |
| `GroupHash.EncodedInjective` | master/taskMgr.go:128-133 | if in no row of the table the encoding of a value is a prefix of another's, listings over the same keys with values of the table and the same text are the same |
| `GroupHash.TextInjective` | master/taskMgr.go:102-138 | under that condition groups over the table have the same text only if they are equal |
| `GroupHash.ListingExists` | master/taskMgr.go:102-125 | every group has a sorted listing |
| `GroupHash.HashInjectiveIff` | master/taskMgr.go:102-138 | under that condition distinct groups over the table hash differently, as the placement theorem assumes, if and only if FNV has no collision on their texts |
| `Repository.EntityRepository.UpdateRegistrationInMemory` | discovery/repository.go:87-153 | a known entity's attributes are replaced, its metadata accumulate, an empty type or provider keeps the old one; no other entry changes |
| `Repository.EntityRepository.ReplaceAttributes` | discovery/repository.go:97-116 | assigning and then deleting while ranging leaves exactly the new attributes, the last of a name winning |
| `Repository.EntityRepository.ProviderLeaves` | discovery/repository.go:224-231 | deleting while ranging removes exactly the provider's registrations |
| `Repository.LatestAttributes` | discovery/repository.go:87-153 | after any history a registration is filed under its own id and its attributes are those of the entity's latest request |
| `RepositoryHistory.RegisteredAsRequested` | discovery/repository.go:87-153 | after any history a registered entity was created by a request since which nothing took it out; each metadata name has the last entry of the latest request since then that mentions it, or is absent; type and provider are the latest given that are not empty |
| `RepositoryHistory.InTableIff` | discovery/repository.go:212-231 | an entity is registered iff it was requested after it was last taken out, by a delete or by its provider leaving |
| `RepositoryHistory.ByNameIsLast` | discovery/repository.go:99-121 | of several entries of a name the last counts |
| `Persistence.ChangeKeeps` | discovery/repository.go:53-63 | a change leaves a handler responsible for writing it |
| `Persistence.AdvanceKeeps` | discovery/repository.go:246-290 | each step of a writer keeps one writer, the flag owned, what was marshalled current, and no difference unattended |
| `Persistence.RunKeeps` | discovery/repository.go:246-290 | so every interleaving does |
| `Persistence.TableIsAllChanges` | discovery/repository.go:87-153 | the table is the starting one with every change applied in lock order |
| `Persistence.FileHoldsEveryChange` | discovery/repository.go:212-290 | whenever no handler is in progress the file holds the starting table with every change applied |
| `Persistence.SkipIsCovered` | discovery/repository.go:257-260 | a handler that skips because a store is scheduled leaves a current file or a scheduled writer that is still to write |
| `Persistence.SomeoneCanAdvance` | discovery/repository.go:257-290 | while a handler is in progress one of them can take a step that brings it nearer its end |
| `Query.MatchingWithFilters` | discovery/utils.go:12-48 | true iff some entity filter matches, all asked attributes are registered and the restriction holds |
| `Query.FilterMeans` | discovery/utils.go:50-86 | patterns are put to the id and the type, an empty one matching all; without patterns the very id is asked for, and the type if it is given |
| `Query.CollectCandidates` | discovery/repository.go:159-183 | the candidates are those of exactly the matching registrations, once each |
| `Query.GroupByProvider` | discovery/repository.go:198-209 | each chosen entity is listed exactly once, under its own provider, and nothing else is |
| `Query.NearestAnswer` | discovery/repository.go:185-193 | the first `limit` of an ascending list are that many matches, none farther than one left out |
| `Query.QueryEntities` | discovery/repository.go:159-210 | all matches without a limit or within it, otherwise exactly the limit's number and none farther than an omitted match; each once under its provider; a panic iff the limit is negative |
| `Query.SortByDistance` | discovery/repository.go:188-190 | an ascending permutation, which is all that is used of the library sort |
| `Availability.CoveredStays` | discovery/fastDiscovery.go:137-173 | every step leaves each current match of a subscription sent or owed by a handler; a notifier that read the provider before it changed owes nothing |
| `Availability.RunKeeps` | discovery/fastDiscovery.go:137-197 | so does every interleaving |
| `Availability.StepNumbered` | discovery/fastDiscovery.go:137-173 | numbers given to requests and subscriptions grow, and every message carries numbers given before it was made |
| `Availability.VersionIsLatest` | discovery/fastDiscovery.go:163-173 | the version of a registration is the time of the latest request recorded for it |
| `Availability.NothingMissed` | discovery/fastDiscovery.go:266-331 | in every interleaving, deletes and re-subscriptions included, when all handlers are done each subscription without a nearby limit has been sent every registration that matches it, with its current type and provider, in a message not yet sent when the latest request for it was recorded nor when the subscription was last stored |
| `AvailabilityNotices.DeleteIsTold` | discovery/fastDiscovery.go:137-197 | in every interleaving a subscription that is stored when a delete ranges over the subscriptions, and that the registration matches until it has done so, has been sent a DELETE of that entity, with type and version as registered, once no handler is in progress |
| `AvailabilityNotices.MessagesComeFrom` | discovery/fastDiscovery.go:137-331 | every DELETE sent is of an entity whose delete was begun before; every other message comes from a query or from a request for the entity; and the registration matched the subscription when it was made |
| `AvailabilityNotices.InTableIff` | discovery/fastDiscovery.go:163-197 | an entity is in the table iff it was registered after a delete last took it out |
| `AvailabilityNotices.DropWasBegun` | discovery/fastDiscovery.go:175-197 | only a begun delete takes an entity out |
| `AvailabilityNotices.StoredIff` | discovery/fastDiscovery.go:266-286 | a subscription is stored iff it was not cancelled after it was last stored |
| `Availability.QueryAnswerIsFound` | discovery/repository.go:159-210 | the answer proved of `Query.QueryEntities`, with or without a limit, is what the query step of the protocol asks for |
| `RetryCache.StepConserves` | discovery/fastDiscovery.go:366-408 | each post, failure, caching, taking and putting back keeps the number of places of every notification |
| `RetryCache.RunConserves` | discovery/fastDiscovery.go:366-408 | so does every interleaving of senders and resenders |
| `RetryCache.ExactlyOnePlace` | discovery/fastDiscovery.go:366-408 | each issued notification is accepted once, or cached once, or held by exactly one sender; one never issued is nowhere |
| `RetryCache.QuietMeansAcceptedOrCached` | discovery/fastDiscovery.go:376-408 | with no sender at work it has been accepted exactly once or is in the cache exactly once |
| `EarlyNotify.StepAccounted` | broker/ngsiv1.go:324-341 | each step keeps: a due notification is handled or about to be, once in all; any other is not |
| `EarlyNotify.RunKeeps` | broker/thinBroker.go:758-771 | so does every interleaving of arrivals and links |
| `EarlyNotify.OnlyAfterTheLink` | broker/ngsiv1.go:327-341 | none is handled before its link exists, and each for the subscription the link names |
| `EarlyNotify.HandledExactlyWhenDue` | broker/thinBroker.go:758-771 | with no thread at work, of those that arrived before the link exactly the newest has been handled, once, and every later one once; the others not at all |
| `EarlyNotify.NothingLeftBehind` | broker/thinBroker.go:768-770 | with no thread at work nothing is cached for a subscription whose link is recorded |
| `ExecutorState.StepConservesSubs` | worker/executor.go:142-164 | every step, termination before the drain included, keeps each opened subscription listed by exactly one task or cancelled exactly once |
| `ExecutorState.StepAccountsFlows` | worker/executor.go:419-470 | every step keeps each ADD_INPUT handled or queued, not both |
| `ExecutorState.HandledOnlyWithContext` | worker/executor.go:425-470 | an input is handled only when its task's context is in the table |
| `ExecutorState.SplicedMembers` | worker/executor.go:489-494 | the splice removes exactly that subscription |
| `ExecutorState.RunKeeps` | worker/executor.go:142-176 | every run keeps both |
| `ExecutorState.SubscriptionsConserved` | worker/executor.go:362-497 | in every run an opened subscription is listed once by exactly one task and not cancelled, or listed by none and cancelled exactly once |
| `ExecutorState.InputsHandledOnce` | worker/executor.go:419-470 | in every run an ADD_INPUT is handled exactly once or queued exactly once, and no queue is left for a task that has drained it |
| `ExecutorState.OpenOnlyForLaunches` | worker/executor.go:397-416 | with no task in the table, exactly the subscriptions of launches still subscribing are open and every other one has been cancelled exactly once |
| `ExecutorState.NoneLeftOpen` | worker/executor.go:397-416 | so in every reachable state without a task in the table, and nothing else is cancelled |
| `ExecutorHistory.RunRemembers` | worker/executor.go:149-156 | in every run the context remembers, for each entity, the latest subscription opened for it since the launch and the last REMOVE_INPUT |
| `ExecutorHistory.CancelsLatestOpening` | worker/executor.go:473-497 | in every run a REMOVE_INPUT cancels exactly the latest subscription opened for the entity, by the launch or by an ADD_INPUT, which is then cancelled once and listed by no task; with none it cancels the empty id |
| `ExecutorHistory.QueueInOrder` | worker/executor.go:429-437 | queued commands are in the order in which they were issued |
| `ExecutorHistory.DrainedInOrder` | worker/executor.go:458-470 | the drain handles exactly the queued commands, in that order |
| `ExecutorClass.Executor.SubscribeInput` | worker/executor.go:145-162 | a successful answer is listed and remembered under the entity, a failure changes nothing; conservation of subscriptions and inputs is kept |
| `ExecutorClass.Executor.InsertContext` | worker/executor.go:164-167 | the context enters the table with the subscriptions collected so far; conservation is kept |
| `ExecutorClass.Executor.HandleAddInput` | worker/executor.go:443-455 | one subscription for the task's context, and the command counted as handled |
| `ExecutorClass.Executor.HandleDelayedAddInputCommands` | worker/executor.go:458-470 | every queued command is handled in order and the queue is gone; conservation is kept |
| `ExecutorClass.Executor.OnAddInput` | worker/executor.go:419-440 | handled at once if the context is there, otherwise queued behind the earlier ones; it stays handled or queued exactly once |
| `ExecutorClass.Executor.OnRemoveInput` | worker/executor.go:473-497 | the entity's subscription, or the empty id if there is none, is cancelled, spliced out and forgotten; conservation is kept |
| `ExecutorClass.Executor.Splice` | worker/executor.go:489-494 | the first occurrence is removed |
| `ExecutorClass.Executor.TerminateTask` | worker/executor.go:362-385 | one cancellation per listed subscription, then the context goes, drained or not; conservation is kept |
| `ExecutorClass.Executor.TerminateAllTasks` | worker/executor.go:397-416 | in whatever order, every task in the table goes; exactly the subscriptions of launches still subscribing stay open and every other one opened has been cancelled exactly once |
| `Polygon.IntersectsWithRaycast` | discovery/utils.go:228-272 | the loop that moves the point off the ends stops, and the answer is that of the case distinction on the moved point |
| `Polygon.PointInPolygon` | discovery/utils.go:210-223 | true iff an odd number of edges of the ring are hit |
| `Polygon.RotationKeeps` | discovery/utils.go:210-223 | the parity over a ring is the same from whichever vertex it is written |
| `Polygon.ReversalKeeps` | discovery/utils.go:210-223 | and in whichever direction, for a symmetric test |
| `Polygon.ClosingKeeps` | discovery/utils.go:210-223 | and whether or not the first vertex is repeated at the end |
| `Polygon.HitsSymmetric` | discovery/utils.go:228-244 | the direction of an edge does not matter, and an edge from a vertex to itself is never hit |
| `Polygon.SameRingSameAnswer` | discovery/utils.go:210-272 | rotating, reversing or closing the ring as in section 3.1.6 of RFC 7946 leaves the answer as it is, for every comparison of slopes |
| `Polygon.RingChangesSideEvenly` | discovery/utils.go:210-223 | a closed ring changes side of a meridian an even number of times |
| `Polygon.HitFromBelow` | discovery/utils.go:228-272 | from below, an edge is hit iff its ends are on different sides, except for an edge between the point's longitude and the next float |
| `Polygon.OutsideExactly` | discovery/utils.go:210-272 | a point strictly outside the bounding box is said to be inside iff it is below and an odd number of edges are such steps |
| `Polygon.OutsideIsOutside` | discovery/utils.go:210-272 | so it is never said to be inside when no vertex is at the float just above its longitude |
| `Polygon.StepGoesWrong` | discovery/utils.go:238-244 | a triangle that is said to contain a point below it |
| `Triangle.HitExactly` | discovery/utils.go:228-272 | with slopes compared exactly, an edge is hit iff the moved longitude lies between its ends and the point is at or below the segment there, or the point lies above it and the code divides by zero |
| `Triangle.AnswerExactly` | discovery/utils.go:210-272 | for every polygon the answer is the parity of edges met upwards, turned around once for every division by zero |
| `Triangle.TriangleExactly` | discovery/utils.go:210-272 | for every triangle and every point off its vertices' longitudes, strictly inside or strictly outside by the three half-planes: the answer is right if and only if the code divides by zero an even number of times |
| `Triangle.ZeroGoesWrong` | discovery/utils.go:268-271 | a point strictly inside a triangle that is said to be outside for a division by zero |
| `Triangle.AnswerOfMoved` | discovery/utils.go:238-244 | with a vertex at the point's longitude, none at the next float and no other edge crossed between them, the answer is that for the next float |
| `Triangle.VertexGoesWrong` | discovery/utils.go:238-244 | a point strictly inside a triangle and below a vertex that is said to be outside |
| `Attributes.UpdateAttributes` | broker/utils.go:645-662 | the in-place compaction over the shared array followed by the append yields the old attributes of other names, in order, then the new ones |
| `Attributes.Compact` | broker/utils.go:651-658 | overwriting the array while reading it keeps exactly the attributes of other names, in order |
| `Attributes.Append` | broker/utils.go:660-661 | the new attributes follow, in the same array if it has room and in a new one otherwise |
| `Attributes.UnderMerge` | broker/utils.go:645-662 | one merge stores under a name the update's instances if it mentions the name and the old ones otherwise |
| `Attributes.LatestUpdateWins` | broker/thinBroker.go:695-734 | after any history the instances under a name are exactly those of the latest update mentioning it |
| `Attributes.NeverMentioned` | broker/thinBroker.go:695-734 | and there are none under a name no update mentions |
| `Attributes.MergeIdempotent` | broker/utils.go:645-662 | repeating an update changes nothing |
| `Attributes.UpdateDomainMetadata` | broker/utils.go:710-722 | the first entry of the name gets the value and keeps its type; without one the entry is appended |
| `Attributes.PutKeepsTypes` | broker/utils.go:710-722 | an update keeps the entries there are with their names and types, and their values but for the first of its name |
| `Attributes.LookupPutAll` | broker/thinBroker.go:721-723 | an update gives each metadata name it mentions the last value it mentions and leaves the others |
| `Attributes.IsNewAttribute` | broker/utils.go:573-581 | true iff no stored attribute has the name |
| `Attributes.HasUpdatedMetadata` | broker/utils.go:601-625 | false with neither element; otherwise true iff nothing is stored, or some attribute name is new, or some metadata value is not stored under its name |
| `Attributes.UnchangedExactly` | broker/thinBroker.go:695-734 | an update leaves attribute names and metadata values as they are iff it brings no new name and the last value of every name is the one stored first |
| `Attributes.RegistersExactlyOnChange` | broker/utils.go:583-625 | for all elements, the test agrees with whether the update changes what is registered, if and only if the update brings a new attribute name, or all its values are stored exactly when the last value of each name is the one stored first |
| `Attributes.DistinctIsExact` | broker/utils.go:583-625 | in particular when metadata names are distinct on each side |
| `Attributes.StoredBehindIsMissed` | broker/utils.go:583-599 | entries a=1, a=2 and the update a=2: a change that is not registered |
| `Attributes.TakenBackIsRegistered` | broker/utils.go:583-599 | entry a=1 and the update a=2, a=1: a registration without a change |
| `Attributes.ThinBroker.UpdateContextElement` | broker/thinBroker.go:695-734 | a known element becomes the merge, an unknown one is stored as received; no other element changes and no array comes to be shared |
| `NgsiLdCodec.ReadAttributeFromNGSILD` | common/ngsi/ngsi.go:503-555 | a Property or Relationship gives name, kind, value and one metadata per other key, in some order; any other type reads as nothing |
| `NgsiLdCodec.ReadItems` | common/ngsi/ngsi.go:468-492 | the objects of an array give their kept attributes in order |
| `NgsiLdCodec.ReadKey` | common/ngsi/ngsi.go:423-497 | what one key contributes to the attributes and the domain metadata |
| `NgsiLdCodec.ReadFromNGSILD` | common/ngsi/ngsi.go:410-501 | refused iff `id` or `type` is missing; otherwise, for some order of the keys, the contributions of all keys one after the other |
| `NgsiLdCodec.WriteAttribute` | broker/utils.go:344-371 | the object written for an attribute, with the metadata of a plain one put twice to the same effect |
| `NgsiLdCodec.ToNGSILD` | broker/utils.go:315-439 | the entity written for an element: repeated names become arrays, domain metadata replace what is under their name, the core `@context` is added if asked for |
| `NgsiLdProofs.PlainIsReadable` | common/ngsi/ngsi.go:410-555 | none of the reader's type assertions fails on the entities of the round trip |
| `NgsiLdProofs.AttributeRoundTrip` | common/ngsi/ngsi.go:503-555 | a Property or Relationship object read as an attribute is written as the same object |
| `NgsiLdProofs.ItemsRoundTrip` | common/ngsi/ngsi.go:468-492 | so is each object of an array, none lost |
| `NgsiLdProofs.BlockRoundTrip` | broker/utils.go:333-400 | the attributes read from a key put back exactly that key's value |
| `NgsiLdProofs.DomainRoundTrip` | common/ngsi/ngsi.go:140-157 | the domain metadata read from a `location` put back its value and disturb nothing |
| `NgsiLdProofs.RoundTrip` | broker/utils.go:315-439 | for every order of all ranges, reading then writing returns the same entity: `urn:` id, Property or Relationship objects with non-null value and canonical keys, arrays of two or more, and an optional Point `location` |
| `NgsiLdExact.WrittenAt` | broker/utils.go:333-434 | what is written under a key depends only on what was read under it |
| `NgsiLdExact.WrittenIsPlain` | common/ngsi/ngsi.go:503-555 | an object that comes back as it was read is a Property or Relationship with canonical keys and a non-null value |
| `NgsiLdExact.ArrayComesBack` | broker/utils.go:373-400 | an array that comes back has at least two items, all such objects |
| `NgsiLdExact.LocationComesBack` | common/ngsi/ngsi.go:449-466 | a location that comes back is a Point, a Property without sub-attributes, or a Relationship without a value |
| `NgsiLdExact.RoundTripIff` | common/ngsi/ngsi.go:410-555 | of all entities the reader accepts, with or without the added `@context`, reading then writing returns exactly these unchanged and no other |
| `NgsiLdProofs.SingletonArrayCollapses` | broker/utils.go:373-400 | an array of one object comes back as the object |
| `NgsiLdProofs.DateComesBackTyped` | broker/utils.go:351-357 | a date is written as a Property whose value holds the date and its type, and is read and written again as that |
| `NgsiLdProofs.KindTells` | common/ngsi/ngsi.go:511-520 | the kind read tells numbers and strings from everything else |
| `NgsiLdProofs.DomainWrittenIff` | broker/utils.go:408-410 | domain metadata are written unless name, type or value is missing |
| `NgsiLdProofs.UrnOnce` | broker/utils.go:321-325 | the written id is a URN ending with the element's id and is kept the next time |
| `NgsiLdProofs.LongitudeFirst` | common/ngsi/ngsi.go:145-152 | the first coordinate is the longitude, when read and when written |

## Left out

- HTTP, AMQP, Docker, Kubernetes, MEC and Airflow plumbing, configuration, logging, TLS and wall-clock checks: replaced by parameters, oracles and command logs.
- The designer, browser scripts, devices, operators and other examples.
- common/geolocation/foghaversine.go: it repeats the ray casting and adds only easy wrappers.
- `Distance`, `LDDistance` and the metadata restrictions (circles, nearby, simple geometries): open functions. The comparison of slopes is open in `Polygon.dfy` and exact in `Triangle.dfy`, since rounding and trigonometry are not the point.
- Regular expressions in `matchEntityId`: an open function.
- Floats: longitudes are ranks of finite floats with increasing values, latitudes reals; NaN and infinities are not modelled, nor is the endless loop of `Nextafter` at plus infinity.
- The 32-bit hash and the JSON encoding of group values: open functions; that distinct groups hash differently is an assumption of the placement theorem only, and `GroupHash.HashInjectiveIff` says when it holds of tables whose values have prefix-free encodings row by row.
- A task id is the hash of its group behind a prefix fixed per flow; the model uses the hash alone. The outputs of a task and the delivery and attribute fields of its inputs are not carried.
- A nil `DeploymentPlan` entry (master/taskMgr.go:330, 538) or a nil REMOVE_TASK action (master/taskMgr.go:377-378) makes the code panic; the model gives such a task the empty host. The placement theorem shows that neither occurs under its assumptions.
- A metadata of type "point" whose value is not a point makes `GetLocation` panic; the model holds a point in every such metadata.
- Master workload counters and the removal of a whole task intent: heartbeats overwrite the counters, so there is no conservation law.
- Broker `entityId2Subcriptions` and the timer-driven resend of `NotifyCache`: the code does not keep them free of duplicates.
- The fields of `FastDiscovery` and of the broker's link tables are states of transition systems rather than classes, because the claims are about interleavings of their handlers.
- PlacementRuns.RunPlacesOnce: assumes that selectors are scoped or grouped by EntityID, that an entity reports through one subscription, that every selection finds a worker, that distinct groups over the table hash differently, and that a selector by "ALL" shares its table row only with such; without the last the property is false (`KeyClashRun.SharedRowMisplaces`).
- TableRuns.RunGroupsAndEntitiesDual: assumes that a selector by "ALL" shares its table row only with such, as `TableRuns.RunDualExactly` shows to be needed; an entity with an empty id cannot be told apart among the inputs found.
- QuietRuns.RunRepeatIsQuiet: CREATE and UPDATE runs, since a DELETE takes an input from a task and keeps its registration (`LateInputRun.FedAtOldPlace`); for other flows, mixed selectors included, `QuietRuns.RepeatIsQuietIff` is the exact condition.
- Triangle.TriangleExactly: points on the line of an edge but not strictly inside or outside, and points that share a longitude with a vertex, are left to `Triangle.AnswerExactly` and `Triangle.AnswerOfMoved`.
- PlannerProofs.RunPlanIsProduct: CREATE and UPDATE only, since a DELETE removes tasks from the plan but leaves the table; `TableRuns.DeleteExactly` says which, and `TableRuns.RunOnTable` covers runs with DELETE.
- FogFlowClass.FogFlow.GetRelevantGroups: groups are free of duplicates when no row lists a value twice, which every method of the class keeps.
- WorkerScheduler.Worker.OnScheduledTask: commands are logged in issue order; the goroutines that carry them out are not interleaved.
- Persistence.FileHoldsEveryChange: writes succeed, memory is sequentially consistent and storing on disk is switched on.
- Query.QueryEntities: asks that registrations be filed under their own ids, which `Repository.LatestAttributes` proves of every table; distances are naturals.
- Availability.NothingMissed: subscriptions with a nearby limit are excluded, as the query may leave matches out for them; the message is counted when `sendNotify` is reached, its delivery is the matter of `RetryCache`. The numbers in messages are not in the code.
- RetryCache.ExactlyOnePlace: `postNotify` either has the notification accepted or not; a subscriber that accepts but whose answer is lost is not modelled.
- EarlyNotify.HandledExactlyWhenDue: a discovery subscription id is linked once.
- ExecutorState.SubscriptionsConserved: fresh non-empty subscription ids, no relaunch of a live task, REMOVE_INPUT and termination only for tasks in the table (an absent one is a no-op for termination and a nil dereference for REMOVE_INPUT), no second termination of the same task meanwhile (a nil dereference).
- ExecutorState.InputsHandledOnce: `StartActualTask` is on; the drain of a launch whose task was terminated after its insert is not a step, because the code dereferences nil there if a command is queued and does nothing otherwise.
- Polygon.PointInPolygon: asks for a non-empty polygon; the code panics on an empty one.
- Attributes.HasUpdatedMetadata: a stored element without a received one is excluded, since the code dereferences nil.
- Attributes.ThinBroker.UpdateContextElement: the received slice is not one already stored; its later use by the sender is not modelled.
- NgsiLdCodec.ReadFromNGSILD: the reader's type assertions (a string `type` in every attribute object, numeric coordinates, ...) are preconditions, since the code panics without them; lower-casing is that of ASCII letters.
- NgsiLdCodec.ToNGSILD: one element; a metadata of type "point" holds a point, since the code panics otherwise.
