/** Subscribing to and registering availability (discovery/fastDiscovery.go), as every interleaving of the
    handlers: subscribe stores and then queries, register updates the table and then notifies.  Registrations
    are objects that later requests change in place, so a notifier reads whatever its object holds by then; the
    provider it reads once, before it ranges over the subscriptions.  A clock numbers registrations and
    subscriptions, and every message carries the numbers of what it is about: nothing in the code reads them, they
    tell a message about the present registration from one about an earlier registration of the same entity. */
module Availability {
  import opened Repository
  import opened Query
  import opened Wrappers

  type SubId = string
  type Ref = nat
  type HandlerId = nat

  /** `since` is when it was stored. */
  datatype Subscription = Subscription(filter: Filter, isNearby: bool, since: nat)

  /** `version` is when the latest request for it was recorded. */
  datatype Object = Object(reg: Registration, version: nat)

  datatype Message = Message(sub: SubId, since: nat, isDelete: bool, entity: Entity, provider: string, version: nat)

  datatype Handler =
    | Querying(sub: SubId, request: Subscription)           // stored its subscription, about to query
    | Notifying(ref: Ref)                                   // updated the table, about to notify
    | Deleting(ref: Ref, id: EntityId)                      // found the registration, about to notify
    | Ranging(ref: Ref, provider: string, drop: Option<EntityId>, todo: set<SubId>) // read-locks the subscriptions
    | Dropping(id: EntityId)                                // notified, about to delete from the table
    | Sending(messages: set<Message>)

  datatype State = State(
    clock: nat,
    objects: map<Ref, Object>,
    table: map<EntityId, Ref>,
    subs: map<SubId, Subscription>,
    handlers: map<HandlerId, Handler>,
    sent: set<Message>)

  function Notice(sub: SubId, since: nat, o: Object, isDelete: bool): Message
  {
    NoticeFrom(sub, since, o, o.reg.provider, isDelete)
  }

  function NoticeFrom(sub: SubId, since: nat, o: Object, provider: string, isDelete: bool): Message
  {
    Message(sub, since, isDelete, Entity(o.reg.id, o.reg.typ), provider, o.version)
  }

  datatype Step =
    | Subscribe(h: HandlerId, sub: SubId, request: Subscription)
    | Unsubscribe(sub: SubId)
    | Register(h: HandlerId, news: Request, ref: Ref)
    | BeginDelete(h: HandlerId, id: EntityId)
    | RunQuery(h: HandlerId, found: set<Message>)
    | StartRange(h: HandlerId)
    | Visit(h: HandlerId, sub: SubId, sender: HandlerId)
    | EndRange(h: HandlerId)
    | Drop(h: HandlerId)
    | Deliver(h: HandlerId)

  /** What a query finds: matches of the table, and every one unless a nearby limit lets it leave some out. */
  ghost predicate IsFound(s: State, q: Handler, found: set<Message>)
    requires q.Querying?
  {
    && (forall m :: m in found ==> exists e :: FoundAs(s, q, m, e))
    && (!q.request.isNearby ==>
          forall e :: InTable(s, e) && Matching(At(s, e).reg, q.request.filter)
                      ==> Notice(q.sub, q.request.since, At(s, e), false) in found)
  }

  ghost predicate FoundAs(s: State, q: Handler, m: Message, e: EntityId)
    requires q.Querying?
  {
    && InTable(s, e) && Matching(At(s, e).reg, q.request.filter)
    && m == Notice(q.sub, q.request.since, At(s, e), false)
  }

  ghost predicate InTable(s: State, e: EntityId)
  {
    e in s.table && s.table[e] in s.objects
  }

  ghost function At(s: State, e: EntityId): Object
    requires InTable(s, e)
  {
    s.objects[s.table[e]]
  }

  ghost predicate NobodyRanges(s: State)
  {
    forall h :: h in s.handlers ==> !s.handlers[h].Ranging?
  }

  ghost predicate Enabled(s: State, step: Step)
  {
    match step
    case Subscribe(h, _, request) => h !in s.handlers && NobodyRanges(s) && request.since == s.clock
    case Unsubscribe(_) => NobodyRanges(s)
    case Register(h, r, ref) => h !in s.handlers && (r.id !in s.table ==> ref !in s.objects)
    case BeginDelete(h, id) => h !in s.handlers && id in s.table
    case RunQuery(h, found) => h in s.handlers && s.handlers[h].Querying? && IsFound(s, s.handlers[h], found)
    case StartRange(h) =>
      h in s.handlers && (s.handlers[h].Notifying? || s.handlers[h].Deleting?) && s.handlers[h].ref in s.objects
    case Visit(h, sub, sender) =>
      && h in s.handlers && s.handlers[h].Ranging? && sub in s.handlers[h].todo && sender !in s.handlers
      && sub in s.subs && s.handlers[h].ref in s.objects
    case EndRange(h) => h in s.handlers && s.handlers[h].Ranging? && s.handlers[h].todo == {}
    case Drop(h) => h in s.handlers && s.handlers[h].Dropping?
    case Deliver(h) => h in s.handlers && s.handlers[h].Sending?
  }

  ghost function Next(s: State, step: Step): State
    requires Enabled(s, step)
  {
    match step
    case Subscribe(h, sub, request) =>
      s.(clock := s.clock + 1, subs := s.subs[sub := request], handlers := s.handlers[h := Querying(sub, request)])
    case Unsubscribe(sub) => s.(subs := s.subs - {sub})
    case Register(h, r, fresh') =>
      var ref := if r.id in s.table then s.table[r.id] else fresh';
      var reg := if r.id in s.table && ref in s.objects then Merged(s.objects[ref].reg, r) else Created(r);
      s.(clock := s.clock + 1, objects := s.objects[ref := Object(reg, s.clock)], table := s.table[r.id := ref],
         handlers := s.handlers[h := Notifying(ref)])
    case BeginDelete(h, id) => s.(handlers := s.handlers[h := Deleting(s.table[id], id)])
    case RunQuery(h, found) => s.(handlers := s.handlers[h := Sending(found)])
    case StartRange(h) =>
      var drop := if s.handlers[h].Deleting? then Some(s.handlers[h].id) else None;
      var ref := s.handlers[h].ref;
      s.(handlers := s.handlers[h := Ranging(ref, s.objects[ref].reg.provider, drop, s.subs.Keys)])
    case Visit(h, sub, sender) =>
      var r := s.handlers[h];
      var moved := s.handlers[h := r.(todo := r.todo - {sub})];
      if Matching(s.objects[r.ref].reg, s.subs[sub].filter) then
        var notice := NoticeFrom(sub, s.subs[sub].since, s.objects[r.ref], r.provider, r.drop.Some?);
        s.(handlers := moved[sender := Sending({notice})])
      else s.(handlers := moved)
    case EndRange(h) =>
      (match s.handlers[h].drop
       case Some(id) => s.(handlers := s.handlers[h := Dropping(id)])
       case None => s.(handlers := s.handlers - {h}))
    case Drop(h) => s.(table := s.table - {s.handlers[h].id}, handlers := s.handlers - {h})
    case Deliver(h) => s.(sent := s.sent + s.handlers[h].messages, handlers := s.handlers - {h})
  }

  // ----- The invariant -----

  ghost predicate WellFormed(s: State)
  {
    && (forall e :: e in s.table ==> s.table[e] in s.objects && s.objects[s.table[e]].reg.id == e)
    && (forall h :: h in s.handlers ==> HandlerFormed(s, s.handlers[h]))
  }

  ghost predicate HandlerFormed(s: State, x: Handler)
  {
    && (x.Notifying? || x.Deleting? || x.Ranging? ==> x.ref in s.objects)
    && (x.Ranging? ==> x.todo <= s.subs.Keys)
  }

  /** The handler will have `s`'s subscription told of the registration it has now under `e`. */
  ghost predicate Owes(s: State, x: Handler, sub: SubId, e: EntityId)
    requires sub in s.subs && InTable(s, e)
  {
    match x
    case Querying(q, request) => q == sub && request == s.subs[sub]
    case Notifying(ref) => ref == s.table[e]
    case Ranging(ref, provider, drop, todo) =>
      ref == s.table[e] && provider == s.objects[ref].reg.provider && drop.None? && sub in todo
    case Sending(messages) => Notice(sub, s.subs[sub].since, At(s, e), false) in messages
    case _ => false
  }

  /** The registration under `e` currently matches the subscription, which has no nearby limit. */
  ghost predicate Concerns(s: State, sub: SubId, e: EntityId)
  {
    && sub in s.subs && !s.subs[sub].isNearby
    && InTable(s, e) && Matching(At(s, e).reg, s.subs[sub].filter)
  }

  ghost predicate Told(s: State, sub: SubId, e: EntityId)
    requires Concerns(s, sub, e)
  {
    Notice(sub, s.subs[sub].since, At(s, e), false) in s.sent
  }

  ghost predicate Covered(s: State, sub: SubId, e: EntityId)
    requires Concerns(s, sub, e)
  {
    Told(s, sub, e) || exists h :: h in s.handlers && Owes(s, s.handlers[h], sub, e)
  }

  ghost predicate Inv(s: State)
  {
    WellFormed(s) && forall sub, e :: Concerns(s, sub, e) ==> Covered(s, sub, e)
  }

  /** Steps other than `Register` leave every debt with a handler that keeps or settles it. */
  lemma CoveredStays(s: State, step: Step, sub: SubId, e: EntityId)
    requires Inv(s) && Enabled(s, step) && Concerns(Next(s, step), sub, e)
    ensures Covered(Next(s, step), sub, e)
  {
    var s' := Next(s, step);
    match step {
      case Subscribe(h, t, request) =>
        if t == sub {
          assert Owes(s', s'.handlers[h], sub, e);
        } else {
          KeepDebt(s, s', sub, e);
        }
      case Register(h, r, _) =>
        if r.id == e {
          assert Owes(s', s'.handlers[h], sub, e);
        } else {
          KeepDebt(s, s', sub, e);
        }
      case _ =>
        assert Concerns(s, sub, e);
        if !Told(s, sub, e) {
          var k :| k in s.handlers && Owes(s, s.handlers[k], sub, e);
          DebtMoves(s, step, k, sub, e);
        }
    }
  }

  /** Nothing that the debt for `sub` and `e` depends on has changed. */
  lemma KeepDebt(s: State, s': State, sub: SubId, e: EntityId)
    requires Inv(s) && Concerns(s', sub, e)
    requires sub in s.subs && s'.subs[sub] == s.subs[sub]
    requires e in s.table && s'.table[e] == s.table[e] && s'.objects[s'.table[e]] == s.objects[s.table[e]]
    requires s'.sent == s.sent && forall k :: k in s.handlers ==> k in s'.handlers && s'.handlers[k] == s.handlers[k]
    ensures Covered(s', sub, e)
  {
    assert Concerns(s, sub, e);
    if !Told(s, sub, e) {
      var k :| k in s.handlers && Owes(s, s.handlers[k], sub, e);
      assert Owes(s', s'.handlers[k], sub, e);
    }
  }

  lemma DebtMoves(s: State, step: Step, k: HandlerId, sub: SubId, e: EntityId)
    requires Inv(s) && Enabled(s, step) && !step.Subscribe? && !step.Register?
    requires Concerns(s, sub, e) && Concerns(Next(s, step), sub, e)
    requires k in s.handlers && Owes(s, s.handlers[k], sub, e)
    ensures Covered(Next(s, step), sub, e)
  {
    var s' := Next(s, step);
    if k in s'.handlers && Owes(s', s'.handlers[k], sub, e) {
    } else if step.Visit? {
      assert Owes(s', s'.handlers[step.sender], sub, e);
    }
  }

  lemma FormedStays(s: State, step: Step)
    requires Inv(s) && Enabled(s, step)
    ensures WellFormed(Next(s, step))
  {
    var s' := Next(s, step);
    forall h | h in s'.handlers ensures HandlerFormed(s', s'.handlers[h]) {
      if h in s.handlers {
        assert HandlerFormed(s, s.handlers[h]);
      }
    }
  }

  // ----- Runs -----

  ghost predicate IsRun(states: seq<State>, steps: seq<Step>)
  {
    && |states| == |steps| + 1
    && states[0] == State(0, map[], map[], map[], map[], {})
    && forall i :: 0 <= i < |steps| ==> Enabled(states[i], steps[i]) && states[i + 1] == Next(states[i], steps[i])
  }

  lemma {:induction false} RunKeeps(states: seq<State>, steps: seq<Step>, n: nat)
    requires IsRun(states, steps) && n <= |steps|
    ensures Inv(states[n])
  {
    if n > 0 {
      RunKeeps(states, steps, n - 1);
      var s, step := states[n - 1], steps[n - 1];
      assert Enabled(s, step) && states[n] == Next(s, step);
      FormedStays(s, step);
      forall sub, e | Concerns(states[n], sub, e) ensures Covered(states[n], sub, e) {
        CoveredStays(s, step, sub, e);
      }
    }
  }

  // ----- What the numbers mean -----

  ghost predicate IsPast(s: State, m: Message)
  {
    m.since < s.clock && m.version < s.clock
  }

  /** Every number given so far is in the past. */
  ghost predicate Numbered(s: State)
  {
    && (forall ref :: ref in s.objects ==> s.objects[ref].version < s.clock)
    && (forall sub :: sub in s.subs ==> s.subs[sub].since < s.clock)
    && (forall h :: h in s.handlers ==> HandlerNumbered(s, s.handlers[h]))
    && (forall m :: m in s.sent ==> IsPast(s, m))
  }

  ghost predicate HandlerNumbered(s: State, x: Handler)
  {
    && (x.Querying? ==> x.request.since < s.clock)
    && (x.Sending? ==> forall m :: m in x.messages ==> IsPast(s, m))
  }

  lemma StepNumbered(s: State, step: Step)
    requires Numbered(s) && Enabled(s, step)
    ensures Numbered(Next(s, step)) && s.sent <= Next(s, step).sent
  {
    var s' := Next(s, step);
    forall h | h in s'.handlers ensures HandlerNumbered(s', s'.handlers[h]) {
      if h in s.handlers {
        assert HandlerNumbered(s, s.handlers[h]);
      }
    }
  }

  lemma {:induction false} RunNumbered(states: seq<State>, steps: seq<Step>, n: nat)
    requires IsRun(states, steps) && n <= |steps|
    ensures Numbered(states[n])
  {
    if n > 0 {
      RunNumbered(states, steps, n - 1);
      assert Enabled(states[n - 1], steps[n - 1]) && states[n] == Next(states[n - 1], steps[n - 1]);
      StepNumbered(states[n - 1], steps[n - 1]);
    }
  }

  /** The step records a request for the object. */
  ghost predicate Requests(s: State, step: Step, ref: Ref)
  {
    step.Register? && ref == if step.news.id in s.table then s.table[step.news.id] else step.ref
  }

  ghost predicate IsLatestRequest(states: seq<State>, steps: seq<Step>, n: nat, ref: Ref, k: nat)
    requires IsRun(states, steps) && n <= |steps|
  {
    && k < n && Requests(states[k], steps[k], ref)
    && forall j :: k < j < n ==> !Requests(states[j], steps[j], ref)
  }

  ghost predicate IsLatestSubscribe(steps: seq<Step>, n: nat, sub: SubId, k: nat)
    requires n <= |steps|
  {
    && k < n && steps[k].Subscribe? && steps[k].sub == sub
    && forall j :: k < j < n ==> !(steps[j].Subscribe? && steps[j].sub == sub)
  }

  /** An object's version is the time of the latest request for it. */
  lemma {:induction false} VersionIsLatest(states: seq<State>, steps: seq<Step>, n: nat, ref: Ref)
    requires IsRun(states, steps) && n <= |steps| && ref in states[n].objects
    ensures
      var version := states[n].objects[ref].version;
      exists k: nat :: IsLatestRequest(states, steps, n, ref, k) && version == states[k].clock
  {
    var s, step := states[n - 1], steps[n - 1];
    assert Enabled(s, step) && states[n] == Next(s, step);
    if Requests(s, step, ref) {
      assert IsLatestRequest(states, steps, n, ref, n - 1);
    } else {
      VersionIsLatest(states, steps, n - 1, ref);
      var k: nat :| IsLatestRequest(states, steps, n - 1, ref, k) && s.objects[ref].version == states[k].clock;
      assert IsLatestRequest(states, steps, n, ref, k);
    }
  }

  /** A subscription is as old as the latest step that stored it. */
  lemma {:induction false} SinceIsLatest(states: seq<State>, steps: seq<Step>, n: nat, sub: SubId)
    requires IsRun(states, steps) && n <= |steps| && sub in states[n].subs
    ensures exists k: nat :: IsLatestSubscribe(steps, n, sub, k) && states[n].subs[sub].since == states[k].clock
  {
    var s, step := states[n - 1], steps[n - 1];
    assert Enabled(s, step) && states[n] == Next(s, step);
    if step.Subscribe? && step.sub == sub {
      assert IsLatestSubscribe(steps, n, sub, n - 1);
    } else {
      SinceIsLatest(states, steps, n - 1, sub);
      var k: nat :| IsLatestSubscribe(steps, n - 1, sub, k) && s.subs[sub].since == states[k].clock;
      assert IsLatestSubscribe(steps, n, sub, k);
    }
  }

  /** No missed availability: in every interleaving, deletions and re-subscriptions included, once all started
      handlers have finished every subscription without a nearby limit has been sent each registration that
      currently matches it, with its current type and provider, in a message that was not yet sent when the latest
      request for the registration was recorded, nor when the subscription was last stored. */
  lemma NothingMissed(states: seq<State>, steps: seq<Step>, n: nat, sub: SubId, e: EntityId)
    requires IsRun(states, steps) && n <= |steps| && states[n].handlers == map[]
    requires Concerns(states[n], sub, e)
    ensures
      var s, o := states[n], At(states[n], e);
      var m := Message(sub, s.subs[sub].since, false, Entity(e, o.reg.typ), o.reg.provider, o.version);
      && m in s.sent
      && (exists k: nat :: IsLatestRequest(states, steps, n, s.table[e], k) && m !in states[k].sent)
      && (exists k: nat :: IsLatestSubscribe(steps, n, sub, k) && m !in states[k].sent)
  {
    RunKeeps(states, steps, n);
    var s := states[n];
    VersionIsLatest(states, steps, n, s.table[e]);
    var k: nat :| IsLatestRequest(states, steps, n, s.table[e], k) && At(s, e).version == states[k].clock;
    RunNumbered(states, steps, k);
    SinceIsLatest(states, steps, n, sub);
    var j: nat :| IsLatestSubscribe(steps, n, sub, j) && s.subs[sub].since == states[j].clock;
    RunNumbered(states, steps, j);
  }

  // ----- The query step is what `QueryEntities` answers -----

  ghost function TableOf(s: State): Table
  {
    map e | e in s.table && s.table[e] in s.objects :: s.objects[s.table[e]].reg
  }

  /** The messages `sendNotify` makes of an entity map. */
  ghost function MessagesOf(s: State, q: Handler, m: map<string, seq<Entity>>): set<Message>
    requires q.Querying?
  {
    set p, x | p in m && x in m[p] && InTable(s, x.id) ::
      Message(q.sub, q.request.since, false, x, p, At(s, x.id).version)
  }

  lemma QueryAnswerIsFound(s: State, q: Handler, limit: Option<int>, m: map<string, seq<Entity>>,
                           chosen: set<EntityId>, distance: Registration -> nat)
    requires WellFormed(s) && q.Querying? && (limit.Some? ==> q.request.isNearby)
    requires IsAnswer(TableOf(s), q.request.filter, limit, distance, chosen)
    requires IsGrouped(TableOf(s), chosen, m)
    ensures IsFound(s, q, MessagesOf(s, q, m))
  {
    forall e | InTable(s, e) && Matching(At(s, e).reg, q.request.filter) && !q.request.isNearby
      ensures Notice(q.sub, q.request.since, At(s, e), false) in MessagesOf(s, q, m)
    {
      var reg := TableOf(s)[e];
      assert e in Matches(TableOf(s), q.request.filter);
      assert reg.provider in m && Entity(e, reg.typ) in m[reg.provider];
    }
    forall x | x in MessagesOf(s, q, m) ensures exists e :: FoundAs(s, q, x, e) {
      assert x.entity.id in Matches(TableOf(s), q.request.filter);
      assert FoundAs(s, q, x, x.entity.id);
    }
  }
}
