/** The handshake between an availability notification and the subscription link it belongs to
    (broker/ngsiv1.go, broker/thinBroker.go): a notification may arrive before the broker has recorded which
    subscription the availability subscription serves.  One step per region of `subLinks_lock`. */
module EarlyNotify {

  type AvailabilityId = string
  type MainId = string

  /** Notifications are numbered in the order in which they take the lock. */
  type Note = nat

  datatype Thread =
    | Idle
    | Handling(note: Note, main: MainId)      // found the link, about to handle its own notification
    | Forwarding(note: Note, main: MainId)    // recorded the link and found a cached notification
    | Cleaning(sub: AvailabilityId)           // forwarded it, about to empty the cache entry

  datatype Handled = Handled(note: Note, main: MainId)

  datatype State = State(
    arrivals: seq<AvailabilityId>,
    links: map<AvailabilityId, MainId>,
    linkedAt: map<AvailabilityId, nat>,       // how many notifications had arrived when the link was recorded
    cache: map<AvailabilityId, Note>,
    threads: seq<Thread>,
    handled: seq<Handled>)

  datatype Step =
    | Arrive(sub: AvailabilityId)
    | Link(sub: AvailabilityId, main: MainId)
    | Handle(i: nat)
    | Clean(i: nat)

  predicate Enabled(s: State, step: Step)
  {
    match step
    case Arrive(_) => true
    case Link(sub, _) => sub !in s.links
    case Handle(i) => i < |s.threads| && (s.threads[i].Handling? || s.threads[i].Forwarding?)
    case Clean(i) => i < |s.threads| && s.threads[i].Cleaning?
  }

  function Next(s: State, step: Step): State
    requires Enabled(s, step)
  {
    match step
    case Arrive(sub) =>
      var note := |s.arrivals|;
      if sub in s.links then
        s.(arrivals := s.arrivals + [sub], threads := s.threads + [Handling(note, s.links[sub])])
      else
        s.(arrivals := s.arrivals + [sub], cache := s.cache[sub := note])
    case Link(sub, main) =>
      s.(links := s.links[sub := main], linkedAt := s.linkedAt[sub := |s.arrivals|],
         threads := if sub in s.cache then s.threads + [Forwarding(s.cache[sub], main)] else s.threads)
    case Handle(i) =>
      var t := s.threads[i];
      s.(handled := s.handled + [Handled(t.note, t.main)],
         threads := s.threads[i := if t.Forwarding? && t.note < |s.arrivals| then Cleaning(s.arrivals[t.note])
                                   else Idle])
    case Clean(i) => s.(cache := s.cache - {s.threads[i].sub}, threads := s.threads[i := Idle])
  }

  // ----- Who is to handle what -----

  /** The last of the first `n` notifications that is for `sub`, if there is one. */
  ghost predicate IsNewest(arrivals: seq<AvailabilityId>, n: nat, sub: AvailabilityId, note: Note)
    requires n <= |arrivals|
  {
    note < n && arrivals[note] == sub && forall k :: note < k < n ==> arrivals[k] != sub
  }

  /** The notification is due: its link exists, and it came after the link or is the newest from before. */
  ghost predicate IsDue(s: State, note: Note)
    requires note < |s.arrivals|
  {
    var sub := s.arrivals[note];
    && sub in s.links && sub in s.linkedAt && s.linkedAt[sub] <= |s.arrivals|
    && (note >= s.linkedAt[sub] || IsNewest(s.arrivals, s.linkedAt[sub], sub, note))
  }

  function Pending(t: Thread, note: Note): nat
  {
    if (t.Handling? || t.Forwarding?) && t.note == note then 1 else 0
  }

  function PendingCount(ts: seq<Thread>, note: Note): nat
  {
    if ts == [] then 0 else Pending(ts[0], note) + PendingCount(ts[1..], note)
  }

  function HandledCount(hs: seq<Handled>, note: Note): nat
  {
    if hs == [] then 0 else HandledCount(hs[..|hs| - 1], note) + (if hs[|hs| - 1].note == note then 1 else 0)
  }

  lemma {:induction false} PendingUpdate(ts: seq<Thread>, i: nat, t: Thread, note: Note)
    requires i < |ts|
    ensures PendingCount(ts[i := t], note) + Pending(ts[i], note) == PendingCount(ts, note) + Pending(t, note)
  {
    if i == 0 {
      assert ts[0 := t][1..] == ts[1..];
    } else {
      assert ts[i := t][1..] == ts[1..][i - 1 := t];
      PendingUpdate(ts[1..], i - 1, t, note);
    }
  }

  lemma {:induction false} PendingAppend(ts: seq<Thread>, t: Thread, note: Note)
    ensures PendingCount(ts + [t], note) == PendingCount(ts, note) + Pending(t, note)
  {
    if ts == [] {
      assert ts + [t] == [t];
    } else {
      assert (ts + [t])[1..] == ts[1..] + [t];
      PendingAppend(ts[1..], t, note);
    }
  }

  // ----- The invariant -----

  /** A due notification is handled or about to be, once in all; any other is not. */
  ghost predicate Accounted(s: State, note: Note)
  {
    HandledCount(s.handled, note) + PendingCount(s.threads, note)
    == if note < |s.arrivals| && IsDue(s, note) then 1 else 0
  }

  ghost predicate CacheNewest(s: State, sub: AvailabilityId)
  {
    if sub in s.cache then IsNewest(s.arrivals, |s.arrivals|, sub, s.cache[sub])
    else forall k :: 0 <= k < |s.arrivals| ==> s.arrivals[k] != sub
  }

  ghost predicate LinkFormed(s: State)
  {
    && s.links.Keys == s.linkedAt.Keys
    && (forall sub :: sub in s.linkedAt ==> s.linkedAt[sub] <= |s.arrivals|)
    && (forall sub :: sub !in s.links ==> CacheNewest(s, sub))
  }

  /** Whatever is handled or about to be is handled for the subscription its link names, which exists. */
  ghost predicate ForItsLink(s: State, note: Note, main: MainId)
  {
    note < |s.arrivals| && s.arrivals[note] in s.links && s.links[s.arrivals[note]] == main
  }

  ghost predicate Directed(s: State)
  {
    && (forall j :: 0 <= j < |s.handled| ==> ForItsLink(s, s.handled[j].note, s.handled[j].main))
    && (forall i :: 0 <= i < |s.threads| && (s.threads[i].Handling? || s.threads[i].Forwarding?)
                    ==> ForItsLink(s, s.threads[i].note, s.threads[i].main))
    && (forall i :: 0 <= i < |s.threads| && s.threads[i].Cleaning? ==> s.threads[i].sub in s.links)
  }

  ghost predicate Inv(s: State)
  {
    LinkFormed(s) && Directed(s) && forall note :: Accounted(s, note)
  }

  lemma StepLinkFormed(s: State, step: Step)
    requires Inv(s) && Enabled(s, step)
    ensures LinkFormed(Next(s, step))
  {
    var s' := Next(s, step);
    forall sub | sub !in s'.links ensures CacheNewest(s', sub) {
      assert CacheNewest(s, sub);
    }
  }

  lemma StepDirected(s: State, step: Step)
    requires Inv(s) && Enabled(s, step)
    ensures Directed(Next(s, step))
  {
    var s' := Next(s, step);
    forall note, main | ForItsLink(s, note, main) ensures ForItsLink(s', note, main) {}
    match step
    case Arrive(sub) => assert sub in s.links ==> ForItsLink(s', |s.arrivals|, s.links[sub]);
    case Link(sub, main) =>
      assert CacheNewest(s, sub);
      assert sub in s.cache ==> ForItsLink(s', s.cache[sub], main);
    case Handle(i) =>
      assert ForItsLink(s, s.threads[i].note, s.threads[i].main);
      assert forall j :: 0 <= j < |s'.handled| - 1 ==> s'.handled[j] == s.handled[j];
    case Clean(i) =>
  }

  lemma StepAccounted(s: State, step: Step, note: Note)
    requires Inv(s) && Enabled(s, step)
    ensures Accounted(Next(s, step), note)
  {
    match step
    case Arrive(sub) => ArriveAccounted(s, sub, note);
    case Link(sub, main) => LinkAccounted(s, sub, main, note);
    case Handle(i) => HandleAccounted(s, i, note);
    case Clean(i) =>
      assert Accounted(s, note);
      PendingUpdate(s.threads, i, Idle, note);
  }

  lemma HandleAccounted(s: State, i: nat, note: Note)
    requires Inv(s) && Enabled(s, Handle(i))
    ensures Accounted(Next(s, Handle(i)), note)
  {
    var s' := Next(s, Handle(i));
    assert Accounted(s, note);
    assert s'.handled[..|s.handled|] == s.handled;
    PendingUpdate(s.threads, i, s'.threads[i], note);
    assert note < |s.arrivals| ==> (IsDue(s', note) <==> IsDue(s, note));
  }

  lemma NewestExtended(a: seq<AvailabilityId>, x: AvailabilityId, n: nat, sub: AvailabilityId, note: Note)
    requires n <= |a|
    ensures IsNewest(a + [x], n, sub, note) <==> IsNewest(a, n, sub, note)
  {
    assert forall k :: 0 <= k < n ==> (a + [x])[k] == a[k];
  }

  lemma ArriveAccounted(s: State, sub: AvailabilityId, note: Note)
    requires Inv(s)
    ensures Accounted(Next(s, Arrive(sub)), note)
  {
    var s' := Next(s, Arrive(sub));
    assert Accounted(s, note);
    if sub in s.links {
      PendingAppend(s.threads, Handling(|s.arrivals|, s.links[sub]), note);
    }
    if note < |s.arrivals| {
      var it := s.arrivals[note];
      if it in s.links {
        NewestExtended(s.arrivals, sub, s.linkedAt[it], it, note);
      }
    }
  }

  lemma LinkAccounted(s: State, sub: AvailabilityId, main: MainId, note: Note)
    requires Inv(s) && sub !in s.links
    ensures Accounted(Next(s, Link(sub, main)), note)
  {
    var s' := Next(s, Link(sub, main));
    assert Accounted(s, note);
    assert CacheNewest(s, sub);
    if sub in s.cache {
      PendingAppend(s.threads, Forwarding(s.cache[sub], main), note);
    }
    if note < |s.arrivals| && s.arrivals[note] == sub {
      assert IsDue(s', note) <==> IsNewest(s.arrivals, |s.arrivals|, sub, note);
    }
  }

  // ----- Runs -----

  ghost predicate IsRun(states: seq<State>, steps: seq<Step>)
  {
    && |states| == |steps| + 1
    && states[0] == State([], map[], map[], map[], [], [])
    && forall i :: 0 <= i < |steps| ==> Enabled(states[i], steps[i]) && states[i + 1] == Next(states[i], steps[i])
  }

  lemma {:induction false} RunKeeps(states: seq<State>, steps: seq<Step>, n: nat)
    requires IsRun(states, steps) && n <= |steps|
    ensures Inv(states[n])
  {
    if n > 0 {
      RunKeeps(states, steps, n - 1);
      var s, step := states[n - 1], steps[n - 1];
      assert Enabled(s, step) && states[n] == Next(s, step);
      StepLinkFormed(s, step);
      StepDirected(s, step);
      forall note ensures Accounted(states[n], note) {
        StepAccounted(s, step, note);
      }
    }
  }

  /** None is handled before its link exists, and always for the subscription the link names. */
  lemma OnlyAfterTheLink(states: seq<State>, steps: seq<Step>, n: nat, j: nat)
    requires IsRun(states, steps) && n <= |steps| && j < |states[n].handled|
    ensures ForItsLink(states[n], states[n].handled[j].note, states[n].handled[j].main)
  {
    RunKeeps(states, steps, n);
  }

  lemma {:induction false} NonePending(ts: seq<Thread>, note: Note)
    requires forall i :: 0 <= i < |ts| ==> ts[i].Idle?
    ensures PendingCount(ts, note) == 0
  {
    if ts != [] {
      NonePending(ts[1..], note);
    }
  }

  /** In every interleaving, once no thread is at work: of the notifications that arrived before the link exactly
      the newest has been handled, exactly once, and every later one exactly once; the older early ones and those
      without a link have not been handled. */
  lemma HandledExactlyWhenDue(states: seq<State>, steps: seq<Step>, n: nat, note: Note)
    requires IsRun(states, steps) && n <= |steps| && note < |states[n].arrivals|
    requires forall i :: 0 <= i < |states[n].threads| ==> states[n].threads[i].Idle?
    ensures HandledCount(states[n].handled, note) == if IsDue(states[n], note) then 1 else 0
  {
    RunKeeps(states, steps, n);
    assert Accounted(states[n], note);
    NonePending(states[n].threads, note);
  }

  // ----- The cache is emptied -----

  /** Some thread is to forward the cached notification of the subscription, or to empty its entry. */
  ghost predicate ToBeEmptied(s: State, sub: AvailabilityId)
  {
    exists i :: 0 <= i < |s.threads| && Empties(s, s.threads[i], sub)
  }

  ghost predicate Empties(s: State, t: Thread, sub: AvailabilityId)
  {
    match t
    case Forwarding(note, _) => note < |s.arrivals| && s.arrivals[note] == sub
    case Cleaning(c) => c == sub
    case _ => false
  }

  ghost predicate CacheAttended(s: State)
  {
    forall sub :: sub in s.cache && sub in s.links ==> ToBeEmptied(s, sub)
  }

  lemma StepAttended(s: State, step: Step)
    requires Inv(s) && CacheAttended(s) && Enabled(s, step)
    ensures CacheAttended(Next(s, step))
  {
    var s' := Next(s, step);
    forall sub | sub in s'.cache && sub in s'.links ensures ToBeEmptied(s', sub) {
      if sub in s.links {
        var i :| 0 <= i < |s.threads| && Empties(s, s.threads[i], sub);
        assert Empties(s', s'.threads[i], sub);
      } else {
        assert CacheNewest(s, sub);
        assert Empties(s', s'.threads[|s.threads|], sub);
      }
    }
  }

  lemma {:induction false} RunAttended(states: seq<State>, steps: seq<Step>, n: nat)
    requires IsRun(states, steps) && n <= |steps|
    ensures CacheAttended(states[n])
  {
    if n > 0 {
      RunAttended(states, steps, n - 1);
      RunKeeps(states, steps, n - 1);
      assert Enabled(states[n - 1], steps[n - 1]) && states[n] == Next(states[n - 1], steps[n - 1]);
      StepAttended(states[n - 1], steps[n - 1]);
    }
  }

  /** In every interleaving, once no thread is at work nothing is cached for a subscription whose link is recorded. */
  lemma NothingLeftBehind(states: seq<State>, steps: seq<Step>, n: nat, sub: AvailabilityId)
    requires IsRun(states, steps) && n <= |steps| && sub in states[n].links
    requires forall i :: 0 <= i < |states[n].threads| ==> states[n].threads[i].Idle?
    ensures sub !in states[n].cache
  {
    RunAttended(states, steps, n);
    assert sub in states[n].cache ==> ToBeEmptied(states[n], sub);
  }
}
