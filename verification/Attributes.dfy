/** Updates of a context element in the broker (broker/utils.go, broker/thinBroker.go). */
module Attributes {
  import opened Wrappers

  datatype Attribute = Attribute(name: string, content: string)

  datatype Metadata = Metadata(name: string, typ: string, value: string)

  datatype Element = Element(attributes: seq<Attribute>, metadata: seq<Metadata>)

  function Names(xs: seq<Attribute>): set<string>
  {
    set i | 0 <= i < |xs| :: xs[i].name
  }

  /** The attributes whose name is not in the set, in order. */
  function Outside(xs: seq<Attribute>, names: set<string>): seq<Attribute>
  {
    if xs == [] then []
    else
      var kept := Outside(xs[..|xs| - 1], names);
      if xs[|xs| - 1].name in names then kept else kept + [xs[|xs| - 1]]
  }

  function Merge(xs: seq<Attribute>, news: seq<Attribute>): seq<Attribute>
  {
    Outside(xs, Names(news)) + news
  }

  /** `updateAttributes` on the backing array of the slice: the kept attributes are compacted to the front of the
      same array while it is still being read, and the new ones are appended, in a new array only if the capacity
      does not suffice (`spare` more than needed). */
  method UpdateAttributes(a: array<Attribute>, n: nat, news: seq<Attribute>, spare: nat)
    returns (b: array<Attribute>, m: nat)
    requires n <= a.Length
    modifies a
    ensures m <= b.Length && (b == a || fresh(b))
    ensures b[..m] == Merge(old(a[..n]), news)
  {
    ghost var was := a[..n];
    var names: set<string> := {};
    for i := 0 to |news|
      invariant a[..n] == was && names == Names(news[..i])
    {
      assert news[..i + 1][..i] == news[..i];
      assert Names(news[..i + 1]) == Names(news[..i]) + {news[i].name} by {
        assert forall j :: 0 <= j < i ==> news[..i + 1][j] == news[..i][j];
      }
      names := names + {news[i].name};
    }
    assert news[..|news|] == news;
    var w := Compact(a, n, names);
    b, m := Append(a, w, news, spare);
  }

  method Compact(a: array<Attribute>, n: nat, names: set<string>) returns (w: nat)
    requires n <= a.Length
    modifies a
    ensures w <= n && a[..w] == Outside(old(a[..n]), names)
  {
    ghost var was := a[..n];
    w := 0;
    for i := 0 to n
      invariant w <= i
      invariant a[..w] == Outside(was[..i], names)
      invariant forall k :: i <= k < n ==> a[k] == was[k]
    {
      assert was[..i + 1][..i] == was[..i];
      var attr := a[i];
      if attr.name !in names {
        a[w] := attr;
        w := w + 1;
        assert a[..w] == a[..w - 1] + [attr];
      }
    }
    assert was[..n] == was;
  }

  method Grown(a: array<Attribute>, w: nat, capacity: nat) returns (b: array<Attribute>)
    requires w <= a.Length && w <= capacity
    ensures fresh(b) && b.Length == capacity && b[..w] == a[..w]
  {
    b := new Attribute[capacity](_ => Attribute("", ""));
    for i := 0 to w
      invariant b[..i] == a[..i]
    {
      b[i] := a[i];
    }
  }

  method Append(a: array<Attribute>, w: nat, news: seq<Attribute>, spare: nat) returns (b: array<Attribute>, m: nat)
    requires w <= a.Length
    modifies a
    ensures m == w + |news| <= b.Length && (b == a || fresh(b))
    ensures b[..m] == old(a[..w]) + news
  {
    ghost var was := a[..w];
    m := w + |news|;
    if m <= a.Length {
      b := a;
    } else {
      b := Grown(a, w, m + spare);
    }
    for i := 0 to |news|
      invariant b[..w] == was
      invariant b[w..w + i] == news[..i]
    {
      b[w + i] := news[i];
    }
    assert b[..m] == b[..w] + b[w..m];
  }

  // ----- Histories of updates -----

  function History(us: seq<seq<Attribute>>): seq<Attribute>
  {
    if us == [] then [] else Merge(History(us[..|us| - 1]), us[|us| - 1])
  }

  /** The instances under a name. */
  function Under(xs: seq<Attribute>, name: string): seq<Attribute>
  {
    if xs == [] then []
    else
      var rest := Under(xs[..|xs| - 1], name);
      if xs[|xs| - 1].name == name then rest + [xs[|xs| - 1]] else rest
  }

  lemma {:induction false} UnderConcat(xs: seq<Attribute>, ys: seq<Attribute>, name: string)
    ensures Under(xs + ys, name) == Under(xs, name) + Under(ys, name)
  {
    if ys == [] {
      assert xs + ys == xs;
    } else {
      assert (xs + ys)[..|xs + ys| - 1] == xs + ys[..|ys| - 1];
      UnderConcat(xs, ys[..|ys| - 1], name);
    }
  }

  lemma {:induction false} UnderOutside(xs: seq<Attribute>, names: set<string>, name: string)
    ensures Under(Outside(xs, names), name) == if name in names then [] else Under(xs, name)
  {
    if xs != [] {
      UnderOutside(xs[..|xs| - 1], names, name);
      UnderAppend(Outside(xs[..|xs| - 1], names), xs[|xs| - 1], name);
    }
  }

  lemma UnderAppend(xs: seq<Attribute>, x: Attribute, name: string)
    ensures Under(xs + [x], name) == if x.name == name then Under(xs, name) + [x] else Under(xs, name)
  {
    assert (xs + [x])[..|xs|] == xs;
  }

  lemma {:induction false} UnderAbsent(xs: seq<Attribute>, name: string)
    ensures Under(xs, name) == [] <==> name !in Names(xs)
  {
    if xs != [] {
      UnderAbsent(xs[..|xs| - 1], name);
      assert Names(xs) == Names(xs[..|xs| - 1]) + {xs[|xs| - 1].name} by {
        assert forall i :: 0 <= i < |xs| - 1 ==> xs[..|xs| - 1][i] == xs[i];
      }
    }
  }

  lemma UnderMerge(xs: seq<Attribute>, news: seq<Attribute>, name: string)
    ensures Under(Merge(xs, news), name) == if name in Names(news) then Under(news, name) else Under(xs, name)
  {
    UnderConcat(Outside(xs, Names(news)), news, name);
    UnderOutside(xs, Names(news), name);
    UnderAbsent(news, name);
  }

  /** `us[k]` is the last update that mentions the name. */
  ghost predicate IsLatest(us: seq<seq<Attribute>>, name: string, k: nat)
    requires k < |us|
  {
    name in Names(us[k]) && forall j :: k < j < |us| ==> name !in Names(us[j])
  }

  /** After any history, the instances stored under a name are exactly those of the latest update that mentions
      it. */
  lemma {:induction false} LatestUpdateWins(us: seq<seq<Attribute>>, name: string, k: nat)
    requires k < |us| && IsLatest(us, name, k)
    ensures Under(History(us), name) == Under(us[k], name)
  {
    var init := us[..|us| - 1];
    UnderMerge(History(init), us[|us| - 1], name);
    if k < |init| {
      assert init[k] == us[k];
      LatestUpdateWins(init, name, k);
    }
  }

  /** A name no update mentions is not stored. */
  lemma {:induction false} NeverMentioned(us: seq<seq<Attribute>>, name: string)
    requires forall k :: 0 <= k < |us| ==> name !in Names(us[k])
    ensures name !in Names(History(us))
  {
    if us != [] {
      var init := us[..|us| - 1];
      NeverMentioned(init, name);
      MergedNames(History(init), us[|us| - 1]);
    }
  }

  lemma {:induction false} OutsideNothing(xs: seq<Attribute>, names: set<string>)
    requires Names(xs) <= names
    ensures Outside(xs, names) == []
  {
    if xs != [] {
      assert forall i :: 0 <= i < |xs| - 1 ==> xs[..|xs| - 1][i] == xs[i];
      assert xs[|xs| - 1].name in Names(xs);
      OutsideNothing(xs[..|xs| - 1], names);
    }
  }

  lemma {:induction false} OutsideConcat(xs: seq<Attribute>, ys: seq<Attribute>, names: set<string>)
    ensures Outside(xs + ys, names) == Outside(xs, names) + Outside(ys, names)
  {
    if ys == [] {
      assert xs + ys == xs;
    } else {
      assert (xs + ys)[..|xs + ys| - 1] == xs + ys[..|ys| - 1];
      OutsideConcat(xs, ys[..|ys| - 1], names);
    }
  }

  lemma {:induction false} OutsideTwice(xs: seq<Attribute>, names: set<string>)
    ensures Outside(Outside(xs, names), names) == Outside(xs, names)
  {
    if xs != [] {
      OutsideTwice(xs[..|xs| - 1], names);
      var kept, last := Outside(xs[..|xs| - 1], names), xs[|xs| - 1];
      assert (kept + [last])[..|kept|] == kept;
    }
  }

  /** Repeating an update changes nothing. */
  lemma MergeIdempotent(xs: seq<Attribute>, news: seq<Attribute>)
    ensures Merge(Merge(xs, news), news) == Merge(xs, news)
  {
    OutsideConcat(Outside(xs, Names(news)), news, Names(news));
    OutsideTwice(xs, Names(news));
    OutsideNothing(news, Names(news));
  }

  // ----- Domain metadata -----

  /** The first entry of that name gets the value and keeps its type; without one the entry is added. */
  function Put(ms: seq<Metadata>, m: Metadata): seq<Metadata>
  {
    if ms == [] then [m]
    else if ms[0].name == m.name then [ms[0].(value := m.value)] + ms[1..]
    else [ms[0]] + Put(ms[1..], m)
  }

  function PutAll(ms: seq<Metadata>, news: seq<Metadata>): seq<Metadata>
  {
    if news == [] then ms else Put(PutAll(ms, news[..|news| - 1]), news[|news| - 1])
  }

  lemma {:induction false} PutAt(ms: seq<Metadata>, m: Metadata, i: nat)
    requires i <= |ms| && forall j :: 0 <= j < i ==> ms[j].name != m.name
    requires i < |ms| ==> ms[i].name == m.name
    ensures Put(ms, m) == if i < |ms| then ms[i := ms[i].(value := m.value)] else ms + [m]
  {
    if i > 0 {
      PutAt(ms[1..], m, i - 1);
    }
  }

  /** An update keeps the entries there are, with their names and types, and their values but for the first of its
      name. */
  lemma {:induction false} PutKeepsTypes(ms: seq<Metadata>, m: Metadata, i: nat)
    requires i < |ms|
    ensures |Put(ms, m)| >= |ms| && Put(ms, m)[i].name == ms[i].name && Put(ms, m)[i].typ == ms[i].typ
    ensures Put(ms, m)[i].value != ms[i].value ==>
      ms[i].name == m.name && forall j :: 0 <= j < i ==> ms[j].name != m.name
  {
    if ms[0].name != m.name && i > 0 {
      PutKeepsTypes(ms[1..], m, i - 1);
    } else if ms[0].name != m.name && |ms| > 1 {
      PutKeepsTypes(ms[1..], m, 0);
    }
  }

  /** `updateDomainMetadata`. */
  method UpdateDomainMetadata(ms: seq<Metadata>, m: Metadata) returns (r: seq<Metadata>)
    ensures r == Put(ms, m)
  {
    for i := 0 to |ms|
      invariant forall j :: 0 <= j < i ==> ms[j].name != m.name
    {
      if ms[i].name == m.name {
        PutAt(ms, m, i);
        return ms[i := ms[i].(value := m.value)];
      }
    }
    PutAt(ms, m, |ms|);
    r := ms + [m];
  }

  method UpdateAllMetadata(ms: seq<Metadata>, news: seq<Metadata>) returns (r: seq<Metadata>)
    ensures r == PutAll(ms, news)
  {
    r := ms;
    for i := 0 to |news|
      invariant r == PutAll(ms, news[..i])
    {
      assert news[..i + 1][..i] == news[..i];
      r := UpdateDomainMetadata(r, news[i]);
    }
    assert news[..|news|] == news;
  }

  function Lookup(ms: seq<Metadata>, name: string): Option<string>
  {
    if ms == [] then None
    else if ms[0].name == name then Some(ms[0].value)
    else Lookup(ms[1..], name)
  }

  lemma {:induction false} LookupPut(ms: seq<Metadata>, m: Metadata, name: string)
    ensures Lookup(Put(ms, m), name) == if name == m.name then Some(m.value) else Lookup(ms, name)
  {
    if ms == [] {
      assert [m][1..] == [];
    } else if ms[0].name == m.name {
      assert Put(ms, m)[1..] == ms[1..];
    } else {
      assert Put(ms, m)[1..] == Put(ms[1..], m);
      LookupPut(ms[1..], m, name);
    }
  }

  ghost predicate DistinctNames(ms: seq<Metadata>)
  {
    forall i, j :: 0 <= i < j < |ms| ==> ms[i].name != ms[j].name
  }

  lemma {:induction false} LookupDistinct(ms: seq<Metadata>, i: nat)
    requires DistinctNames(ms) && i < |ms|
    ensures Lookup(ms, ms[i].name) == Some(ms[i].value)
  {
    if i > 0 {
      LookupDistinct(ms[1..], i - 1);
    }
  }

  lemma {:induction false} LookupAbsent(ms: seq<Metadata>, name: string)
    ensures Lookup(ms, name).None? <==> forall i :: 0 <= i < |ms| ==> ms[i].name != name
  {
    if ms != [] {
      LookupAbsent(ms[1..], name);
      assert forall i :: 1 <= i < |ms| ==> ms[i] == ms[1..][i - 1];
      assert ms == [ms[0]] + ms[1..];
    }
  }

  /** The value of the last entry of that name. */
  function LastValue(ms: seq<Metadata>, name: string): Option<string>
  {
    if ms == [] then None
    else if ms[|ms| - 1].name == name then Some(ms[|ms| - 1].value)
    else LastValue(ms[..|ms| - 1], name)
  }

  /** A list of updates gives each name it mentions the last value mentioned; the others keep theirs. */
  lemma {:induction false} LookupPutAll(ms: seq<Metadata>, news: seq<Metadata>, name: string)
    ensures Lookup(PutAll(ms, news), name)
            == if LastValue(news, name).Some? then LastValue(news, name) else Lookup(ms, name)
  {
    if news != [] {
      LookupPutAll(ms, news[..|news| - 1], name);
      LookupPut(PutAll(ms, news[..|news| - 1]), news[|news| - 1], name);
    }
  }

  /** The last value of a name is that of an entry. */
  lemma {:induction false} LastValueStored(ms: seq<Metadata>, name: string)
    ensures LastValue(ms, name).Some? <==> exists i :: 0 <= i < |ms| && ms[i].name == name
    ensures LastValue(ms, name).Some? ==> Holds(ms, name, LastValue(ms, name).value)
  {
    if ms != [] {
      var init := ms[..|ms| - 1];
      LastValueStored(init, name);
      if i :| 0 <= i < |init| && init[i].name == name {
        assert ms[i].name == name;
      }
      if LastValue(init, name).Some? {
        var i :| 0 <= i < |init| && init[i].name == name && init[i].value == LastValue(init, name).value;
        assert ms[i] == init[i];
      }
    }
  }

  // ----- Registering again exactly when something registered changes -----

  function Updated(cur: Element, recv: Element): Element
  {
    Element(Merge(cur.attributes, recv.attributes), PutAll(cur.metadata, recv.metadata))
  }

  /** What discovery knows of an element: its attribute names and the values of its metadata. */
  ghost predicate SameRegistration(a: Element, b: Element)
  {
    Names(a.attributes) == Names(b.attributes) && forall name :: Lookup(a.metadata, name) == Lookup(b.metadata, name)
  }

  /** Some entry has that name and value. */
  predicate Holds(ms: seq<Metadata>, name: string, value: string)
  {
    exists i :: 0 <= i < |ms| && ms[i].name == name && ms[i].value == value
  }

  predicate HasMetadataChange(m: Metadata, cur: Element)
  {
    !Holds(cur.metadata, m.name, m.value)
  }

  ghost predicate HasUpdate(recv: Element, cur: Element)
  {
    || (exists i :: 0 <= i < |recv.attributes| && recv.attributes[i].name !in Names(cur.attributes))
    || (exists i :: 0 <= i < |recv.metadata| && HasMetadataChange(recv.metadata[i], cur))
  }

  /** `hasUpdatedMetadata`; a stored element without a received one makes the code panic. */
  method HasUpdatedMetadata(received: Option<Element>, cur: Option<Element>) returns (b: bool)
    requires received.Some? || cur.None?
    ensures b <==> received.Some? && (cur.None? || HasUpdate(received.value, cur.value))
  {
    if received.None? && cur.None? {
      return false;
    }
    if cur.None? {
      return true;
    }
    var recv := received.value;
    for i := 0 to |recv.attributes|
      invariant forall j :: 0 <= j < i ==> recv.attributes[j].name in Names(cur.value.attributes)
    {
      var isNew := IsNewAttribute(recv.attributes[i].name, cur.value);
      if isNew {
        return true;
      }
    }
    for i := 0 to |recv.metadata|
      invariant forall j :: 0 <= j < i ==> !HasMetadataChange(recv.metadata[j], cur.value)
    {
      if HasMetadataChange(recv.metadata[i], cur.value) {
        return true;
      }
    }
    return false;
  }

  /** `isNewAttribute`. */
  method IsNewAttribute(name: string, cur: Element) returns (isNew: bool)
    ensures isNew <==> name !in Names(cur.attributes)
  {
    for i := 0 to |cur.attributes|
      invariant forall j :: 0 <= j < i ==> cur.attributes[j].name != name
    {
      if cur.attributes[i].name == name {
        return false;
      }
    }
    return true;
  }

  lemma MergedNames(xs: seq<Attribute>, news: seq<Attribute>)
    ensures Names(Merge(xs, news)) == Names(xs) + Names(news)
  {
    forall name ensures name in Names(Merge(xs, news)) <==> name in Names(xs) || name in Names(news) {
      UnderMerge(xs, news, name);
      UnderAbsent(Merge(xs, news), name);
      UnderAbsent(xs, name);
      UnderAbsent(news, name);
    }
  }

  ghost predicate NoNewAttribute(recv: Element, cur: Element)
  {
    Names(recv.attributes) <= Names(cur.attributes)
  }

  /** Of every name received, the last value received is the one stored first. */
  ghost predicate FirstIsLast(recv: Element, cur: Element)
  {
    forall name :: LastValue(recv.metadata, name).Some?
                   ==> Lookup(cur.metadata, name) == LastValue(recv.metadata, name)
  }

  ghost predicate EachStored(recv: Element, cur: Element)
  {
    forall i :: 0 <= i < |recv.metadata| ==> Holds(cur.metadata, recv.metadata[i].name, recv.metadata[i].value)
  }

  /** An update leaves what is registered as it is exactly when it brings no new attribute and every name's last
      value is already stored first. */
  lemma UnchangedExactly(recv: Element, cur: Element)
    ensures SameRegistration(cur, Updated(cur, recv)) <==> NoNewAttribute(recv, cur) && FirstIsLast(recv, cur)
  {
    MergedNames(cur.attributes, recv.attributes);
    forall name ensures Lookup(Updated(cur, recv).metadata, name)
                        == if LastValue(recv.metadata, name).Some? then LastValue(recv.metadata, name)
                           else Lookup(cur.metadata, name) {
      LookupPutAll(cur.metadata, recv.metadata, name);
    }
    if SameRegistration(cur, Updated(cur, recv)) {
      assert forall name :: Lookup(cur.metadata, name) == Lookup(Updated(cur, recv).metadata, name);
    }
  }

  /** Every value received is stored, but the last of some name only behind another value of the name. */
  ghost predicate StoredBehind(recv: Element, cur: Element)
  {
    NoNewAttribute(recv, cur) && EachStored(recv, cur) && !FirstIsLast(recv, cur)
  }

  /** Some value received is not stored, but later values of the update restore what is. */
  ghost predicate TakenBack(recv: Element, cur: Element)
  {
    NoNewAttribute(recv, cur) && !EachStored(recv, cur) && FirstIsLast(recv, cur)
  }

  /** For all elements: the broker's test asks for a new registration exactly when the update changes what is
      registered, if and only if the update is neither stored behind nor taken back. */
  lemma RegistersExactlyOnChange(recv: Element, cur: Element)
    ensures (HasUpdate(recv, cur) <==> !SameRegistration(cur, Updated(cur, recv)))
            <==> !StoredBehind(recv, cur) && !TakenBack(recv, cur)
  {
    UnchangedExactly(recv, cur);
    assert HasUpdate(recv, cur) <==> !(NoNewAttribute(recv, cur) && EachStored(recv, cur)) by {
      if i :| 0 <= i < |recv.attributes| && recv.attributes[i].name !in Names(cur.attributes) {
        assert recv.attributes[i].name in Names(recv.attributes);
      }
    }
  }

  /** Neither happens when the names are distinct on each side. */
  lemma DistinctIsExact(recv: Element, cur: Element)
    requires DistinctNames(recv.metadata) && DistinctNames(cur.metadata)
    ensures HasUpdate(recv, cur) <==> !SameRegistration(cur, Updated(cur, recv))
  {
    forall name | LastValue(recv.metadata, name).Some?
      ensures Lookup(cur.metadata, name) == LastValue(recv.metadata, name)
              <==> Holds(cur.metadata, name, LastValue(recv.metadata, name).value)
    {
      HoldsIsLookup(cur.metadata, name, LastValue(recv.metadata, name).value);
    }
    forall i | 0 <= i < |recv.metadata|
      ensures LastValue(recv.metadata, recv.metadata[i].name) == Some(recv.metadata[i].value)
    {
      LastValueDistinct(recv.metadata, i);
    }
    forall name | LastValue(recv.metadata, name).Some?
      ensures exists i :: 0 <= i < |recv.metadata| && recv.metadata[i].name == name
    {
      LastValueStored(recv.metadata, name);
    }
    RegistersExactlyOnChange(recv, cur);
  }

  lemma {:induction false} LastValueDistinct(ms: seq<Metadata>, i: nat)
    requires DistinctNames(ms) && i < |ms|
    ensures LastValue(ms, ms[i].name) == Some(ms[i].value)
  {
    if i < |ms| - 1 {
      LastValueDistinct(ms[..|ms| - 1], i);
    }
  }

  lemma HoldsIsLookup(ms: seq<Metadata>, name: string, value: string)
    requires DistinctNames(ms)
    ensures Holds(ms, name, value) <==> Lookup(ms, name) == Some(value)
  {
    LookupAbsent(ms, name);
    if i :| 0 <= i < |ms| && ms[i].name == name {
      LookupDistinct(ms, i);
    }
  }

  /** Two entries of one name: the update to the second value changes the first entry, and is not registered. */
  lemma StoredBehindIsMissed()
    ensures
      var cur := Element([], [Metadata("a", "", "1"), Metadata("a", "", "2")]);
      var recv := Element([], [Metadata("a", "", "2")]);
      !HasUpdate(recv, cur) && !SameRegistration(cur, Updated(cur, recv))
  {
    var cur := Element([], [Metadata("a", "", "1"), Metadata("a", "", "2")]);
    var recv := Element([], [Metadata("a", "", "2")]);
    assert cur.metadata[1].name == "a" && cur.metadata[1].value == "2";
    assert Holds(cur.metadata, "a", "2");
    assert LastValue(recv.metadata, "a") == Some("2") && Lookup(cur.metadata, "a") == Some("1");
    UnchangedExactly(recv, cur);
  }

  /** An update that sets a value and sets it back is registered, though nothing changes. */
  lemma TakenBackIsRegistered()
    ensures
      var cur := Element([], [Metadata("a", "", "1")]);
      var recv := Element([], [Metadata("a", "", "2"), Metadata("a", "", "1")]);
      HasUpdate(recv, cur) && SameRegistration(cur, Updated(cur, recv))
  {
    var cur := Element([], [Metadata("a", "", "1")]);
    var recv := Element([], [Metadata("a", "", "2"), Metadata("a", "", "1")]);
    assert recv.metadata[0].value == "2" && HasMetadataChange(recv.metadata[0], cur);
    forall name | LastValue(recv.metadata, name).Some? ensures name == "a" {
      LastValueStored(recv.metadata, name);
    }
    assert LastValue(recv.metadata, "a") == Some("1") && Lookup(cur.metadata, "a") == Some("1");
    UnchangedExactly(recv, cur);
  }

  // ----- The broker's entities -----

  /** A slice of attributes, its backing array and length, and the metadata. */
  datatype Slot = Slot(a: array<Attribute>, n: nat, metadata: seq<Metadata>)

  class ThinBroker {
    var entities: map<string, Slot>

    constructor ()
      ensures entities == map[]
    {
      entities := map[];
    }

    ghost function Arrays(): set<array<Attribute>>
      reads this
    {
      set e | e in entities :: entities[e].a
    }

    /** No two entities share a backing array. */
    ghost predicate Valid()
      reads this
    {
      && (forall e :: e in entities ==> entities[e].n <= entities[e].a.Length)
      && (forall d, e :: d in entities && e in entities && d != e ==> entities[d].a != entities[e].a)
    }

    /** The element stored under an id. */
    ghost function At(e: string): Element
      requires e in entities && entities[e].n <= entities[e].a.Length
      reads this, entities[e].a
    {
      Element(entities[e].a[..entities[e].n], entities[e].metadata)
    }

    /** `updateContextElement`: an element known already is updated in place, a new one takes over the slice it
        came with; every other element stays as it is. */
    method UpdateContextElement(eid: string, a: array<Attribute>, n: nat, metadata: seq<Metadata>, spare: nat)
      requires Valid() && n <= a.Length && a !in Arrays()
      modifies this, if eid in entities then {entities[eid].a} else {}
      ensures Valid() && entities.Keys == old(entities.Keys) + {eid}
      ensures forall e :: e in old(entities) && e != eid ==> At(e) == old(At(e))
      ensures
        var recv := Element(old(a[..n]), metadata);
        At(eid) == if eid in old(entities) then Updated(old(At(eid)), recv) else recv
    {
      if eid in entities {
        var slot := entities[eid];
        var b, m := UpdateAttributes(slot.a, slot.n, a[..n], spare);
        var ms := UpdateAllMetadata(slot.metadata, metadata);
        entities := entities[eid := Slot(b, m, ms)];
      } else {
        assert forall e :: e in entities ==> entities[e].a in Arrays();
        entities := entities[eid := Slot(a, n, metadata)];
      }
    }
  }
}
