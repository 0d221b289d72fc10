/** What the availability messages say and where they come from (discovery/fastDiscovery.go): a delete is announced
    as one, and nothing is announced that did not happen. */
module AvailabilityNotices {
  import opened Repository
  import opened Query
  import opened Availability
  import opened Wrappers

  // ----- A message that is being sent arrives -----

  ghost predicate OnItsWay(s: State, h: HandlerId, m: Message)
  {
    m in s.sent || (h in s.handlers && s.handlers[h].Sending? && m in s.handlers[h].messages)
  }

  lemma StepKeepsOnItsWay(s: State, step: Step, h: HandlerId, m: Message)
    requires Enabled(s, step) && OnItsWay(s, h, m)
    ensures OnItsWay(Next(s, step), h, m)
  {
  }

  lemma {:induction false} Arrives(states: seq<State>, steps: seq<Step>, k: nat, n: nat, h: HandlerId, m: Message)
    requires IsRun(states, steps) && k <= n <= |steps| && OnItsWay(states[k], h, m)
    ensures OnItsWay(states[n], h, m)
  {
    if k < n {
      Arrives(states, steps, k, n - 1, h, m);
      assert Enabled(states[n - 1], steps[n - 1]) && states[n] == Next(states[n - 1], steps[n - 1]);
      StepKeepsOnItsWay(states[n - 1], steps[n - 1], h, m);
    }
  }

  // ----- A delete from its beginning to its end -----

  /** The handler whose step it is, for steps other than the start of one. */
  predicate IsStepOf(step: Step, h: HandlerId)
  {
    match step
    case RunQuery(k, _) => k == h
    case StartRange(k) => k == h
    case Visit(k, _, _) => k == h
    case EndRange(k) => k == h
    case Drop(k) => k == h
    case Deliver(k) => k == h
    case _ => false
  }

  /** Handler `h` begins to delete `e` at step `b`, starts to range over the subscriptions at step `i` and has visited
      them all at step `j`. */
  ghost predicate IsDelete(steps: seq<Step>, h: HandlerId, e: EntityId, b: nat, i: nat, j: nat)
  {
    && b < i < j < |steps| && steps[b] == BeginDelete(h, e) && steps[i] == StartRange(h) && steps[j] == EndRange(h)
    && (forall k :: b < k < i ==> !IsStepOf(steps[k], h))
    && (forall k :: i < k < j && IsStepOf(steps[k], h) ==> steps[k].Visit?)
  }

  /** A handler stays where it is until its next step. */
  lemma StaysPut(s: State, step: Step, h: HandlerId)
    requires Enabled(s, step) && h in s.handlers && !IsStepOf(step, h)
    ensures h in Next(s, step).handlers && Next(s, step).handlers[h] == s.handlers[h]
  {
  }

  lemma DeleteBegins(s: State, h: HandlerId, e: EntityId)
    requires Enabled(s, BeginDelete(h, e))
    ensures e in s.table
    ensures var s' := Next(s, BeginDelete(h, e)); h in s'.handlers && s'.handlers[h] == Deleting(s.table[e], e)
  {
  }

  lemma StaysPutAt(states: seq<State>, steps: seq<Step>, k: nat, h: HandlerId)
    requires IsRun(states, steps) && k < |steps| && h in states[k].handlers && !IsStepOf(steps[k], h)
    ensures h in states[k + 1].handlers && states[k + 1].handlers[h] == states[k].handlers[h]
  {
    assert Enabled(states[k], steps[k]) && states[k + 1] == Next(states[k], steps[k]);
    StaysPut(states[k], steps[k], h);
  }

  lemma DeleteBeginsAt(states: seq<State>, steps: seq<Step>, h: HandlerId, e: EntityId, b: nat)
    requires IsRun(states, steps) && b < |steps| && steps[b] == BeginDelete(h, e)
    ensures e in states[b].table
    ensures h in states[b + 1].handlers && states[b + 1].handlers[h] == Deleting(states[b].table[e], e)
  {
    assert Enabled(states[b], steps[b]) && states[b + 1] == Next(states[b], steps[b]);
    DeleteBegins(states[b], h, e);
  }

  lemma {:induction false} StillDeleting(states: seq<State>, steps: seq<Step>, h: HandlerId, e: EntityId, b: nat,
                                         k: nat)
    requires IsRun(states, steps) && b < k <= |steps| && steps[b] == BeginDelete(h, e)
    requires forall x :: b < x < k ==> !IsStepOf(steps[x], h)
    ensures e in states[b].table
    ensures h in states[k].handlers && states[k].handlers[h] == Deleting(states[b].table[e], e)
  {
    if b < k - 1 {
      StillDeleting(states, steps, h, e, b, k - 1);
      StaysPutAt(states, steps, k - 1, h);
    } else {
      DeleteBeginsAt(states, steps, h, e, b);
    }
  }

  /** The message tells the subscription, as it stands, that the entity is deleted, and of which version. */
  ghost predicate TellsDelete(s: State, ref: Ref, sub: SubId, e: EntityId, m: Message)
  {
    && ref in s.objects && sub in s.subs
    && m.sub == sub && m.since == s.subs[sub].since && m.isDelete
    && m.entity == Entity(e, s.objects[ref].reg.typ) && m.version == s.objects[ref].version
  }

  ghost predicate VisitedAt(steps: seq<Step>, h: HandlerId, sub: SubId, v: nat)
  {
    v < |steps| && steps[v].Visit? && steps[v].h == h && steps[v].sub == sub
  }

  /** While it ranges, a subscription that was stored at the start is still to be visited or has been. */
  ghost predicate RangesAt(states: seq<State>, steps: seq<Step>, h: HandlerId, e: EntityId, ref: Ref, i: nat, k: nat,
                           sub: SubId)
    requires i < k < |states| && ref in states[i].objects
  {
    && h in states[k].handlers && states[k].handlers[h].Ranging?
    && var x := states[k].handlers[h];
       && x.ref == ref && x.provider == states[i].objects[ref].reg.provider && x.drop == Some(e)
       && (sub in x.todo || exists v: nat :: i < v < k && VisitedAt(steps, h, sub, v))
  }

  lemma {:induction false} StillRanging(states: seq<State>, steps: seq<Step>, h: HandlerId, e: EntityId, ref: Ref,
                                        i: nat, k: nat, sub: SubId)
    requires IsRun(states, steps) && i < k <= |steps| && steps[i] == StartRange(h)
    requires h in states[i].handlers && states[i].handlers[h] == Deleting(ref, e) && sub in states[i].subs
    requires forall x :: i < x < k && IsStepOf(steps[x], h) ==> steps[x].Visit?
    ensures ref in states[i].objects && RangesAt(states, steps, h, e, ref, i, k, sub)
  {
    assert Enabled(states[k - 1], steps[k - 1]) && states[k] == Next(states[k - 1], steps[k - 1]);
    if i < k - 1 {
      StillRanging(states, steps, h, e, ref, i, k - 1, sub);
      if !IsStepOf(steps[k - 1], h) {
        StaysPut(states[k - 1], steps[k - 1], h);
      } else if steps[k - 1].sub == sub {
        assert VisitedAt(steps, h, sub, k - 1);
      }
    }
  }

  /** In every interleaving: a subscription that is stored when a delete ranges over the subscriptions, and that the
      registration matches until it has done so, has been sent a DELETE for the entity once no handler is in
      progress, with the type the registration had when the subscription was visited. */
  lemma DeleteIsTold(states: seq<State>, steps: seq<Step>, h: HandlerId, e: EntityId, b: nat, i: nat, j: nat,
                     sub: SubId, n: nat)
    requires IsRun(states, steps) && IsDelete(steps, h, e, b, i, j) && j < n <= |steps| && states[n].handlers == map[]
    requires e in states[b].table && sub in states[i].subs
    requires forall k :: i <= k <= j ==> MatchesAt(states[k], states[b].table[e], sub)
    ensures
      var ref := states[b].table[e];
      exists v: nat, m :: i < v < j && TellsDelete(states[v], ref, sub, e, m) && m in states[n].sent
  {
    var ref := states[b].table[e];
    StillDeleting(states, steps, h, e, b, i);
    StillRanging(states, steps, h, e, ref, i, j, sub);
    assert Enabled(states[j], steps[j]);
    var v: nat :| i < v < j && VisitedAt(steps, h, sub, v);
    StillRanging(states, steps, h, e, ref, i, v, sub);
    assert Enabled(states[v], steps[v]) && states[v + 1] == Next(states[v], steps[v]);
    assert MatchesAt(states[v], ref, sub);
    IdStays(states, steps, b, v, e);
    var m := NoticeFrom(sub, states[v].subs[sub].since, states[v].objects[ref], states[v].handlers[h].provider, true);
    assert TellsDelete(states[v], ref, sub, e, m);
    Arrives(states, steps, v + 1, n, steps[v].sender, m);
  }

  ghost predicate MatchesAt(s: State, ref: Ref, sub: SubId)
  {
    ref in s.objects && sub in s.subs && Matching(s.objects[ref].reg, s.subs[sub].filter)
  }

  /** An object keeps the id of its entity. */
  lemma {:induction false} IdStays(states: seq<State>, steps: seq<Step>, b: nat, k: nat, e: EntityId)
    requires IsRun(states, steps) && b <= k <= |steps| && e in states[b].table
    ensures
      var ref := states[b].table[e];
      ref in states[k].objects && states[k].objects[ref].reg.id == e
  {
    if b == k {
      RunKeeps(states, steps, b);
    } else {
      IdStays(states, steps, b, k - 1, e);
      RunKeeps(states, steps, k - 1);
      assert Enabled(states[k - 1], steps[k - 1]) && states[k] == Next(states[k - 1], steps[k - 1]);
    }
  }

  // ----- Where messages come from -----

  /** The step is a query that finds the registration, which matches. */
  ghost predicate MadeByQuery(s: State, step: Step, m: Message)
  {
    && step.RunQuery? && step.h in s.handlers && s.handlers[step.h].Querying?
    && exists e :: FoundAs(s, s.handlers[step.h], m, e)
  }

  /** The step is a visit that reads the registration, which matches, and announces a delete iff it is for one. */
  ghost predicate MadeByVisit(s: State, step: Step, m: Message)
  {
    && step.Visit? && step.h in s.handlers && s.handlers[step.h].Ranging?
    && var x := s.handlers[step.h];
       && MatchesAt(s, x.ref, step.sub) && m.sub == step.sub && m.since == s.subs[step.sub].since
       && m.entity == Entity(s.objects[x.ref].reg.id, s.objects[x.ref].reg.typ)
       && m.version == s.objects[x.ref].version && m.provider == x.provider
       && (m.isDelete <==> x.drop.Some?)
  }

  ghost predicate MadeAt(states: seq<State>, steps: seq<Step>, m: Message, k: nat)
    requires |states| == |steps| + 1
  {
    k < |steps| && (MadeByQuery(states[k], steps[k], m) || MadeByVisit(states[k], steps[k], m))
  }

  ghost predicate Present(s: State, m: Message)
  {
    m in s.sent || exists h :: h in s.handlers && s.handlers[h].Sending? && m in s.handlers[h].messages
  }

  lemma NewlyPresent(s: State, step: Step, m: Message)
    requires Enabled(s, step) && Present(Next(s, step), m) && !Present(s, m)
    ensures MadeByQuery(s, step, m) || MadeByVisit(s, step, m)
  {
    var s' := Next(s, step);
    if m !in s'.sent {
      var h :| h in s'.handlers && s'.handlers[h].Sending? && m in s'.handlers[h].messages;
      assert h in s.handlers ==> s.handlers[h] != s'.handlers[h];
    }
  }

  lemma {:induction false} EveryMessageWasMade(states: seq<State>, steps: seq<Step>, n: nat, m: Message)
    requires IsRun(states, steps) && n <= |steps| && Present(states[n], m)
    ensures exists k: nat :: k < n && MadeAt(states, steps, m, k)
  {
    assert Enabled(states[n - 1], steps[n - 1]) && states[n] == Next(states[n - 1], steps[n - 1]);
    if Present(states[n - 1], m) {
      EveryMessageWasMade(states, steps, n - 1, m);
    } else {
      NewlyPresent(states[n - 1], steps[n - 1], m);
      assert MadeAt(states, steps, m, n - 1);
    }
  }

  /** The handler was started by a delete of the entity, or by a request for the object. */
  ghost predicate StartedAt(states: seq<State>, steps: seq<Step>, h: HandlerId, ref: Ref, drop: Option<EntityId>,
                            b: nat)
    requires |states| == |steps| + 1
  {
    && b < |steps|
    && match drop
       case Some(e) => steps[b] == BeginDelete(h, e) && e in states[b].table && states[b].table[e] == ref
       case None => steps[b].Register? && steps[b].h == h && Requests(states[b], steps[b], ref)
  }

  /** What a handler that ranges or is about to is at work on. */
  ghost predicate WorksOn(x: Handler, ref: Ref, drop: Option<EntityId>)
  {
    match x
    case Notifying(r) => r == ref && drop == None
    case Deleting(r, e) => r == ref && drop == Some(e)
    case Ranging(r, _, d, _) => r == ref && drop == d
    case _ => false
  }

  lemma {:induction false} EveryHandlerWasStarted(states: seq<State>, steps: seq<Step>, n: nat, h: HandlerId, ref: Ref,
                                                  drop: Option<EntityId>)
    requires IsRun(states, steps) && n <= |steps|
    requires h in states[n].handlers && WorksOn(states[n].handlers[h], ref, drop)
    ensures exists b: nat :: b < n && StartedAt(states, steps, h, ref, drop, b)
  {
    assert Enabled(states[n - 1], steps[n - 1]) && states[n] == Next(states[n - 1], steps[n - 1]);
    if h in states[n - 1].handlers && WorksOn(states[n - 1].handlers[h], ref, drop) {
      EveryHandlerWasStarted(states, steps, n - 1, h, ref, drop);
    } else {
      assert StartedAt(states, steps, h, ref, drop, n - 1);
    }
  }

  /** The request of step `b` is for the entity of its object. */
  lemma RequestedEntity(states: seq<State>, steps: seq<Step>, b: nat, k: nat, ref: Ref)
    requires IsRun(states, steps) && b < k <= |steps| && Requests(states[b], steps[b], ref)
    ensures ref in states[k].objects && states[k].objects[ref].reg.id == steps[b].news.id
  {
    assert Enabled(states[b], steps[b]) && states[b + 1] == Next(states[b], steps[b]);
    IdStays(states, steps, b + 1, k, steps[b].news.id);
  }

  /** In every interleaving, a DELETE that was sent is of an entity whose delete was begun before, and any other message
      comes from a query that found the registration, or from a request for the entity; and the registration matched
      the subscription when the message was made. */
  lemma MessagesComeFrom(states: seq<State>, steps: seq<Step>, n: nat, m: Message)
    requires IsRun(states, steps) && n <= |steps| && m in states[n].sent
    ensures exists k: nat :: k < n && MadeAt(states, steps, m, k)
                             && ((MadeByQuery(states[k], steps[k], m) && !m.isDelete)
                                 || exists b: nat :: b < k && Announced(steps, b, m))
  {
    EveryMessageWasMade(states, steps, n, m);
    var k: nat :| k < n && MadeAt(states, steps, m, k);
    if !MadeByQuery(states[k], steps[k], m) {
      var h, x := steps[k].h, states[k].handlers[steps[k].h];
      EveryHandlerWasStarted(states, steps, k, h, x.ref, x.drop);
      var b: nat :| b < k && StartedAt(states, steps, h, x.ref, x.drop, b);
      if x.drop.Some? {
        IdStays(states, steps, b, k, x.drop.value);
      } else {
        RequestedEntity(states, steps, b, k, x.ref);
      }
      assert Announced(steps, b, m);
    }
  }

  /** Step `b` begins the delete or records the request that the message is about. */
  ghost predicate Announced(steps: seq<Step>, b: nat, m: Message)
  {
    && b < |steps|
    && if m.isDelete then steps[b].BeginDelete? && steps[b].id == m.entity.id
       else steps[b].Register? && steps[b].news.id == m.entity.id
  }

  // ----- What is stored -----

  /** Step `k` takes the entity out of the table. */
  ghost predicate DropsAt(s: State, step: Step, e: EntityId)
  {
    step.Drop? && step.h in s.handlers && s.handlers[step.h] == Dropping(e)
  }

  lemma TableStep(s: State, step: Step, e: EntityId)
    requires Enabled(s, step)
    ensures e in Next(s, step).table <==>
            (step.Register? && step.news.id == e) || (e in s.table && !DropsAt(s, step, e))
  {
  }

  /** An entity is in the table iff it was registered after a delete last took it out. */
  lemma {:induction false} InTableIff(states: seq<State>, steps: seq<Step>, n: nat, e: EntityId)
    requires IsRun(states, steps) && n <= |steps|
    ensures e in states[n].table <==>
            exists k: nat :: k < n && steps[k].Register? && steps[k].news.id == e
                             && forall j :: k < j < n ==> !DropsAt(states[j], steps[j], e)
  {
    if n > 0 {
      InTableIff(states, steps, n - 1, e);
      assert Enabled(states[n - 1], steps[n - 1]) && states[n] == Next(states[n - 1], steps[n - 1]);
      TableStep(states[n - 1], steps[n - 1], e);
      if steps[n - 1].Register? && steps[n - 1].news.id == e {
        assert e in states[n].table;
      } else if e in states[n - 1].table && !DropsAt(states[n - 1], steps[n - 1], e) {
        var k: nat :| k < n - 1 && steps[k].Register? && steps[k].news.id == e
                      && forall j :: k < j < n - 1 ==> !DropsAt(states[j], steps[j], e);
      }
    }
  }

  lemma DropComesFrom(s: State, step: Step, h: HandlerId, e: EntityId)
    requires Enabled(s, step) && h in Next(s, step).handlers && Next(s, step).handlers[h] == Dropping(e)
    requires !(h in s.handlers && s.handlers[h] == Dropping(e))
    ensures h in s.handlers && s.handlers[h].Ranging? && s.handlers[h].drop == Some(e)
  {
  }

  /** A handler that is about to take an entity out was started by a delete of it. */
  lemma {:induction false} DropWasBegun(states: seq<State>, steps: seq<Step>, n: nat, h: HandlerId, e: EntityId)
    requires IsRun(states, steps) && n <= |steps| && h in states[n].handlers && states[n].handlers[h] == Dropping(e)
    ensures exists b: nat :: b < n && steps[b] == BeginDelete(h, e)
  {
    var s := states[n - 1];
    assert Enabled(s, steps[n - 1]) && states[n] == Next(s, steps[n - 1]);
    if h in s.handlers && s.handlers[h] == Dropping(e) {
      DropWasBegun(states, steps, n - 1, h, e);
    } else {
      DropComesFrom(s, steps[n - 1], h, e);
      EveryHandlerWasStarted(states, steps, n - 1, h, s.handlers[h].ref, Some(e));
      var b: nat :| b < n - 1 && StartedAt(states, steps, h, s.handlers[h].ref, Some(e), b);
    }
  }

  /** A subscription is stored iff it was not cancelled after it was last stored. */
  lemma {:induction false} StoredIff(states: seq<State>, steps: seq<Step>, n: nat, sub: SubId)
    requires IsRun(states, steps) && n <= |steps|
    ensures sub in states[n].subs <==>
            exists k: nat :: k < n && steps[k].Subscribe? && steps[k].sub == sub
                             && forall j :: k < j < n ==> steps[j] != Unsubscribe(sub)
  {
    if n > 0 {
      StoredIff(states, steps, n - 1, sub);
      assert Enabled(states[n - 1], steps[n - 1]) && states[n] == Next(states[n - 1], steps[n - 1]);
      if steps[n - 1].Subscribe? && steps[n - 1].sub == sub {
        assert sub in states[n].subs;
      } else if sub in states[n - 1].subs && steps[n - 1] != Unsubscribe(sub) {
        var k: nat :| k < n - 1 && steps[k].Subscribe? && steps[k].sub == sub
                      && forall j :: k < j < n - 1 ==> steps[j] != Unsubscribe(sub);
      }
    }
  }
}
