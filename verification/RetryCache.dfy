/** The retry cache of discovery's notifications (discovery/fastDiscovery.go): any number of senders post
    notifications and resenders retry the ones that were put aside, under every interleaving. */
module RetryCache {
  import opened Listings

  /** A notification to a subscriber. */
  type Item = nat

  datatype Sender =
    | Idle
    | Posting(item: Item)                               // sendNotify, before postNotify answers
    | Failed(item: Item)                                // not accepted, about to be cached
    | Resending(todo: seq<Item>, failed: seq<Item>)     // took the whole cache, posting one by one

  datatype State = State(issued: seq<Item>, accepted: seq<Item>, cache: seq<Item>, senders: seq<Sender>)

  datatype Step =
    | Send(item: Item)
    | Post(i: nat, ok: bool)
    | PutAside(i: nat)
    | TakeCache
    | Resend(i: nat, ok: bool)
    | PutBack(i: nat)

  predicate Enabled(s: State, step: Step)
  {
    match step
    case Send(item) => item !in s.issued
    case Post(i, _) => i < |s.senders| && s.senders[i].Posting?
    case PutAside(i) => i < |s.senders| && s.senders[i].Failed?
    case TakeCache => true
    case Resend(i, _) => i < |s.senders| && s.senders[i].Resending? && s.senders[i].todo != []
    case PutBack(i) => i < |s.senders| && s.senders[i].Resending? && s.senders[i].todo == []
  }

  function Next(s: State, step: Step): State
    requires Enabled(s, step)
  {
    match step
    case Send(item) => s.(issued := s.issued + [item], senders := s.senders + [Posting(item)])
    case Post(i, ok) =>
      var item := s.senders[i].item;
      if ok then s.(accepted := s.accepted + [item], senders := s.senders[i := Idle])
      else s.(senders := s.senders[i := Failed(item)])
    case PutAside(i) => s.(cache := s.cache + [s.senders[i].item], senders := s.senders[i := Idle])
    case TakeCache => s.(cache := [], senders := s.senders + [Resending(s.cache, [])])
    case Resend(i, ok) =>
      var r := s.senders[i];
      if ok then s.(accepted := s.accepted + [r.todo[0]], senders := s.senders[i := r.(todo := r.todo[1..])])
      else s.(senders := s.senders[i := Resending(r.todo[1..], r.failed + [r.todo[0]])])
    case PutBack(i) => s.(cache := s.cache + s.senders[i].failed, senders := s.senders[i := Idle])
  }

  // ----- Conservation -----

  lemma {:induction false} CountConcat(a: seq<Item>, b: seq<Item>, x: Item)
    ensures Count(a + b, x) == Count(a, x) + Count(b, x)
  {
    if a == [] {
      assert a + b == b;
    } else {
      assert (a + b)[1..] == a[1..] + b;
      CountConcat(a[1..], b, x);
    }
  }

  lemma CountOne(y: Item, x: Item)
    ensures Count([y], x) == if y == x then 1 else 0
  {
    assert [y][1..] == [];
  }

  /** How often the sender holds the notification. */
  function Held(s: Sender, x: Item): nat
  {
    match s
    case Idle => 0
    case Posting(item) => if item == x then 1 else 0
    case Failed(item) => if item == x then 1 else 0
    case Resending(todo, failed) => Count(todo, x) + Count(failed, x)
  }

  function HeldCount(xs: seq<Sender>, x: Item): nat
  {
    if xs == [] then 0 else Held(xs[0], x) + HeldCount(xs[1..], x)
  }

  lemma {:induction false} HeldUpdate(xs: seq<Sender>, i: nat, y: Sender, x: Item)
    requires i < |xs|
    ensures HeldCount(xs[i := y], x) + Held(xs[i], x) == HeldCount(xs, x) + Held(y, x)
  {
    if i == 0 {
      assert xs[0 := y][1..] == xs[1..];
    } else {
      assert xs[i := y][1..] == xs[1..][i - 1 := y];
      HeldUpdate(xs[1..], i - 1, y, x);
    }
  }

  lemma {:induction false} HeldAppend(xs: seq<Sender>, y: Sender, x: Item)
    ensures HeldCount(xs + [y], x) == HeldCount(xs, x) + Held(y, x)
  {
    if xs == [] {
      assert xs + [y] == [y];
    } else {
      assert (xs + [y])[1..] == xs[1..] + [y];
      HeldAppend(xs[1..], y, x);
    }
  }

  /** A notification is where it was issued to go: accepted, cached or held, and as often as it was issued. */
  ghost predicate ConservedItem(s: State, x: Item)
  {
    && Count(s.issued, x) == Count(s.accepted, x) + Count(s.cache, x) + HeldCount(s.senders, x)
    && Count(s.issued, x) <= 1
  }

  ghost predicate Conserved(s: State)
  {
    forall x :: ConservedItem(s, x)
  }

  lemma StepConserves(s: State, step: Step, x: Item)
    requires ConservedItem(s, x) && Enabled(s, step)
    ensures ConservedItem(Next(s, step), x)
  {
    match step
    case Send(item) =>
      HeldAppend(s.senders, Posting(item), x);
      CountConcat(s.issued, [item], x);
      CountOne(item, x);
      NotIssued(s.issued, item);
    case Post(i, ok) =>
      var item := s.senders[i].item;
      HeldUpdate(s.senders, i, if ok then Idle else Failed(item), x);
      CountConcat(s.accepted, [item], x);
      CountOne(item, x);
    case PutAside(i) =>
      HeldUpdate(s.senders, i, Idle, x);
      CountConcat(s.cache, [s.senders[i].item], x);
      CountOne(s.senders[i].item, x);
    case TakeCache => HeldAppend(s.senders, Resending(s.cache, []), x);
    case Resend(i, ok) => ResendConserves(s, i, ok, x);
    case PutBack(i) =>
      HeldUpdate(s.senders, i, Idle, x);
      CountConcat(s.cache, s.senders[i].failed, x);
  }

  lemma ResendConserves(s: State, i: nat, ok: bool, x: Item)
    requires ConservedItem(s, x) && Enabled(s, Resend(i, ok))
    ensures ConservedItem(Next(s, Resend(i, ok)), x)
  {
    var r := s.senders[i];
    var y := r.todo[0];
    CountOne(y, x);
    if ok {
      HeldUpdate(s.senders, i, r.(todo := r.todo[1..]), x);
      CountConcat(s.accepted, [y], x);
    } else {
      HeldUpdate(s.senders, i, Resending(r.todo[1..], r.failed + [y]), x);
      CountConcat(r.failed, [y], x);
    }
  }

  lemma {:induction false} NotIssued(items: seq<Item>, x: Item)
    ensures Count(items, x) == 0 <==> x !in items
  {
    if items != [] {
      NotIssued(items[1..], x);
      assert items == [items[0]] + items[1..];
    }
  }

  ghost predicate IsRun(states: seq<State>, steps: seq<Step>)
  {
    && |states| == |steps| + 1
    && states[0] == State([], [], [], [])
    && forall i :: 0 <= i < |steps| ==> Enabled(states[i], steps[i]) && states[i + 1] == Next(states[i], steps[i])
  }

  lemma {:induction false} RunConserves(states: seq<State>, steps: seq<Step>, n: nat)
    requires IsRun(states, steps) && n <= |steps|
    ensures Conserved(states[n])
  {
    if n > 0 {
      RunConserves(states, steps, n - 1);
      assert Enabled(states[n - 1], steps[n - 1]) && states[n] == Next(states[n - 1], steps[n - 1]);
      forall x ensures ConservedItem(states[n], x) {
        assert ConservedItem(states[n - 1], x);
        StepConserves(states[n - 1], steps[n - 1], x);
      }
    }
  }

  /** The number of senders that hold the notification. */
  function Holders(xs: seq<Sender>, x: Item): nat
  {
    if xs == [] then 0 else (if Held(xs[0], x) > 0 then 1 else 0) + Holders(xs[1..], x)
  }

  lemma {:induction false} HoldersAreHeld(xs: seq<Sender>, x: Item)
    requires HeldCount(xs, x) <= 1
    ensures Holders(xs, x) == HeldCount(xs, x)
  {
    if xs != [] {
      HoldersAreHeld(xs[1..], x);
    }
  }

  /** In every interleaving, each issued notification is accepted once, or in the cache once, or held by exactly
      one sender; one that was never issued is nowhere. */
  lemma ExactlyOnePlace(states: seq<State>, steps: seq<Step>, n: nat, x: Item)
    requires IsRun(states, steps) && n <= |steps|
    ensures
      var s := states[n];
      Count(s.accepted, x) + Count(s.cache, x) + Holders(s.senders, x) == (if x in s.issued then 1 else 0)
  {
    RunConserves(states, steps, n);
    assert ConservedItem(states[n], x);
    HoldersAreHeld(states[n].senders, x);
    NotIssued(states[n].issued, x);
  }

  /** Once no sender is at work, every notification has been accepted exactly once or waits in the cache. */
  lemma QuietMeansAcceptedOrCached(states: seq<State>, steps: seq<Step>, n: nat, x: Item)
    requires IsRun(states, steps) && n <= |steps| && x in states[n].issued
    requires forall i :: 0 <= i < |states[n].senders| ==> states[n].senders[i].Idle?
    ensures Count(states[n].accepted, x) + Count(states[n].cache, x) == 1
  {
    RunConserves(states, steps, n);
    assert ConservedItem(states[n], x);
    AllIdle(states[n].senders, x);
    NotIssued(states[n].issued, x);
  }

  lemma {:induction false} AllIdle(xs: seq<Sender>, x: Item)
    requires forall i :: 0 <= i < |xs| ==> xs[i].Idle?
    ensures HeldCount(xs, x) == 0
  {
    if xs != [] {
      AllIdle(xs[1..], x);
    }
  }
}
