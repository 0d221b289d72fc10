/** The debounced writer of discovery's registrations (discovery/repository.go), as every interleaving of
    handlers that change the table and then store it, one step per lock region or access to the shared flag. */
module Persistence {
  import opened Repository

  type HandlerId = nat

  /** Where a handler is after its change to the table. */
  datatype Pc =
    | Check                  // about to look at storeToFileScheduled
    | WantDb                 // found it unset, waiting for dbLock
    | HoldDb                 // has dbLock, about to set the flag
    | Sleeping               // flag set; sleeps, then takes the read lock
    | Marshal                // has the read lock
    | Write(content: Table)  // has marshalled the table
    | Clear                  // file written, about to clear the flag
    | ReleaseDb              // flag cleared, about to release dbLock
    | ReleaseList            // about to release the read lock

  datatype State = State(table: Table, file: Table, scheduled: bool, handlers: map<HandlerId, Pc>)

  predicate HoldsDb(pc: Pc)
  {
    pc.HoldDb? || pc.Sleeping? || pc.Marshal? || pc.Write? || pc.Clear? || pc.ReleaseDb?
  }

  predicate HoldsList(pc: Pc)
  {
    pc.Marshal? || pc.Write? || pc.Clear? || pc.ReleaseDb? || pc.ReleaseList?
  }

  datatype Step = Change(h: HandlerId, change: Repository.Change) | Advance(h: HandlerId)

  /** A change needs the list's write lock; `WantDb` needs dbLock; every other step is free to happen. */
  predicate Enabled(s: State, step: Step)
  {
    match step
    case Change(h, _) => h !in s.handlers && forall k :: k in s.handlers ==> !HoldsList(s.handlers[k])
    case Advance(h) =>
      h in s.handlers && (s.handlers[h].WantDb? ==> forall k :: k in s.handlers ==> !HoldsDb(s.handlers[k]))
  }

  function Goto(s: State, h: HandlerId, pc: Pc): State
  {
    s.(handlers := s.handlers[h := pc])
  }

  function Finish(s: State, h: HandlerId): State
  {
    s.(handlers := s.handlers - {h})
  }

  function Next(s: State, step: Step): State
    requires Enabled(s, step)
  {
    match step
    case Change(h, c) => Goto(s, h, Check).(table := Apply(s.table, c))
    case Advance(h) =>
      match s.handlers[h]
      case Check => if s.scheduled then Finish(s, h) else Goto(s, h, WantDb)
      case WantDb => Goto(s, h, HoldDb)
      case HoldDb => Goto(s, h, Sleeping).(scheduled := true)
      case Sleeping => Goto(s, h, Marshal)
      case Marshal => Goto(s, h, Write(s.table))
      case Write(content) => Goto(s, h, Clear).(file := content)
      case Clear => Goto(s, h, ReleaseDb).(scheduled := false)
      case ReleaseDb => Goto(s, h, ReleaseList)
      case ReleaseList => Finish(s, h)
  }

  // ----- The invariant -----

  /** The handler has yet to write a table that includes every change made so far. */
  predicate WillWrite(pc: Pc)
  {
    pc.Check? || pc.WantDb? || pc.HoldDb? || pc.Sleeping? || pc.Marshal? || pc.Write?
  }

  predicate KeepsFlag(pc: Pc)
  {
    pc.Sleeping? || pc.Marshal? || pc.Write? || pc.Clear?
  }

  ghost predicate AtMostOneWriter(s: State)
  {
    forall h, k :: h in s.handlers && k in s.handlers && HoldsDb(s.handlers[h]) && HoldsDb(s.handlers[k]) ==> h == k
  }

  ghost predicate FlagOwned(s: State)
  {
    s.scheduled <==> exists h :: h in s.handlers && KeepsFlag(s.handlers[h])
  }

  /** While the read lock is held the table stands still, so what was marshalled is current. */
  ghost predicate ContentCurrent(s: State)
  {
    forall h :: h in s.handlers ==>
                  && (s.handlers[h].Write? ==> s.handlers[h].content == s.table)
                  && (s.handlers[h].Clear? ==> s.file == s.table)
  }

  /** A difference between file and table is some handler's business. */
  ghost predicate NothingDropped(s: State)
  {
    s.file != s.table ==> exists h :: h in s.handlers && WillWrite(s.handlers[h])
  }

  ghost predicate Inv(s: State)
  {
    AtMostOneWriter(s) && FlagOwned(s) && ContentCurrent(s) && NothingDropped(s)
  }

  lemma ChangeKeeps(s: State, h: HandlerId, c: Repository.Change)
    requires Inv(s) && Enabled(s, Change(h, c))
    ensures Inv(Next(s, Change(h, c)))
  {
    var s' := Next(s, Change(h, c));
    assert h in s'.handlers && WillWrite(s'.handlers[h]);
    if s.scheduled {
      var k :| k in s.handlers && KeepsFlag(s.handlers[k]);
      assert k in s'.handlers && KeepsFlag(s'.handlers[k]);
    }
  }

  lemma AdvanceKeeps(s: State, h: HandlerId)
    requires Inv(s) && Enabled(s, Advance(h))
    ensures Inv(Next(s, Advance(h)))
  {
    AdvanceFlag(s, h);
    AdvanceDropsNothing(s, h);
  }

  /** The other handlers stay where they are. */
  lemma OthersStay(s: State, h: HandlerId, k: HandlerId)
    requires Enabled(s, Advance(h)) && k in s.handlers && k != h
    ensures k in Next(s, Advance(h)).handlers && Next(s, Advance(h)).handlers[k] == s.handlers[k]
  {
  }

  /** A handler that moves on stays responsible, or has written, or leaves it to the one that keeps the flag. */
  lemma AdvanceDropsNothing(s: State, h: HandlerId)
    requires Inv(s) && Enabled(s, Advance(h))
    ensures NothingDropped(Next(s, Advance(h)))
  {
    var s' := Next(s, Advance(h));
    if s'.file != s'.table {
      if s.handlers[h].Check? && s.scheduled {
        var k :| k in s.handlers && KeepsFlag(s.handlers[k]);
        OthersStay(s, h, k);
        assert WillWrite(s'.handlers[k]);
      } else if h in s'.handlers && WillWrite(s'.handlers[h]) {
      } else {
        var k :| k in s.handlers && WillWrite(s.handlers[k]);
        OthersStay(s, h, k);
        assert WillWrite(s'.handlers[k]);
      }
    }
  }

  lemma AdvanceFlag(s: State, h: HandlerId)
    requires Inv(s) && Enabled(s, Advance(h))
    ensures FlagOwned(Next(s, Advance(h)))
  {
    var s' := Next(s, Advance(h));
    if h in s'.handlers && KeepsFlag(s'.handlers[h]) {
    } else if s.handlers[h].Clear? {
      assert forall k :: k in s'.handlers && KeepsFlag(s'.handlers[k]) ==> HoldsDb(s.handlers[k]);
    } else if s.scheduled {
      var k :| k in s.handlers && KeepsFlag(s.handlers[k]);
      assert k in s'.handlers && KeepsFlag(s'.handlers[k]);
    }
  }

  // ----- Runs -----

  /** Discovery starts from the table it read from the file. */
  ghost predicate IsRun(states: seq<State>, steps: seq<Step>)
  {
    && |states| == |steps| + 1
    && states[0].file == states[0].table && !states[0].scheduled && states[0].handlers == map[]
    && forall i :: 0 <= i < |steps| ==> Enabled(states[i], steps[i]) && states[i + 1] == Next(states[i], steps[i])
  }

  lemma {:induction false} RunKeeps(states: seq<State>, steps: seq<Step>, n: nat)
    requires IsRun(states, steps) && n <= |steps|
    ensures Inv(states[n])
  {
    if n > 0 {
      RunKeeps(states, steps, n - 1);
      assert states[n] == Next(states[n - 1], steps[n - 1]);
      match steps[n - 1]
      case Change(h, c) => ChangeKeeps(states[n - 1], h, c);
      case Advance(h) => AdvanceKeeps(states[n - 1], h);
    }
  }

  ghost function ChangesOf(steps: seq<Step>): seq<Repository.Change>
  {
    if steps == [] then []
    else
      var before := ChangesOf(steps[..|steps| - 1]);
      if steps[|steps| - 1].Change? then before + [steps[|steps| - 1].change] else before
  }

  ghost function ApplyAll(table: Table, cs: seq<Repository.Change>): Table
  {
    if cs == [] then table else Apply(ApplyAll(table, cs[..|cs| - 1]), cs[|cs| - 1])
  }

  lemma {:induction false} TableIsAllChanges(states: seq<State>, steps: seq<Step>, n: nat)
    requires IsRun(states, steps) && n <= |steps|
    ensures states[n].table == ApplyAll(states[0].table, ChangesOf(steps[..n]))
  {
    if n > 0 {
      TableIsAllChanges(states, steps, n - 1);
      assert steps[..n][..n - 1] == steps[..n - 1];
      assert states[n] == Next(states[n - 1], steps[n - 1]);
      var before := ChangesOf(steps[..n - 1]);
      if steps[n - 1].Change? {
        assert (before + [steps[n - 1].change])[..|before|] == before;
      }
    }
  }

  /** Debounced persistence loses nothing: in every interleaving, once no handler is in progress the file holds
      the starting table with every change applied, in the order the changes took the lock. */
  lemma FileHoldsEveryChange(states: seq<State>, steps: seq<Step>, n: nat)
    requires IsRun(states, steps) && n <= |steps| && states[n].handlers == map[]
    ensures states[n].file == ApplyAll(states[0].file, ChangesOf(steps[..n]))
  {
    RunKeeps(states, steps, n);
    TableIsAllChanges(states, steps, n);
  }

  /** Skipping because a store is already scheduled never drops a change: the one scheduled will still write, or
      the file is already current. */
  lemma SkipIsCovered(states: seq<State>, steps: seq<Step>, n: nat, h: HandlerId)
    requires IsRun(states, steps) && n < |steps| && steps[n] == Advance(h)
    requires states[n].handlers[h].Check? && states[n].scheduled
    ensures
      var s := states[n + 1];
      && h !in s.handlers
      && (s.file == s.table || exists k :: k in s.handlers && WillWrite(s.handlers[k]) && KeepsFlag(s.handlers[k]))
  {
    RunKeeps(states, steps, n);
    RunKeeps(states, steps, n + 1);
    assert states[n + 1] == Next(states[n], steps[n]);
    var k :| k in states[n].handlers && KeepsFlag(states[n].handlers[k]);
    assert k in states[n + 1].handlers && states[n + 1].handlers[k] == states[n].handlers[k];
  }

  // ----- Handlers always finish -----

  /** The steps a handler still has to take. */
  function Remaining(pc: Pc): nat
  {
    match pc
    case Check => 9
    case WantDb => 8
    case HoldDb => 7
    case Sleeping => 6
    case Marshal => 5
    case Write(_) => 4
    case Clear => 3
    case ReleaseDb => 2
    case ReleaseList => 1
  }

  /** No deadlock: as long as a handler is in progress, one of them can advance. */
  lemma SomeoneCanAdvance(s: State, h: HandlerId) returns (k: HandlerId)
    requires h in s.handlers
    ensures Enabled(s, Advance(k))
    ensures var s' := Next(s, Advance(k));
            k in s'.handlers ==> Remaining(s'.handlers[k]) < Remaining(s.handlers[k])
  {
    k := h;
    if !Enabled(s, Advance(h)) {
      k :| k in s.handlers && HoldsDb(s.handlers[k]);
    }
  }
}
