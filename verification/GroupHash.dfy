/** `GroupInfo.GetHash` (master/taskMgr.go): the text that is hashed is the concatenation of the encoded values
    in the order of the sorted keys. */
module GroupHash {
  import opened Listings
  import opened Planner

  /** Go's string order: the first difference decides, a proper prefix comes first. */
  predicate Less(a: string, b: string)
  {
    if b == [] then false
    else if a == [] then true
    else if a[0] != b[0] then a[0] < b[0]
    else Less(a[1..], b[1..])
  }

  lemma {:induction false} LessTotal(a: string, b: string)
    ensures !(Less(a, b) && Less(b, a))
    ensures a != b ==> Less(a, b) || Less(b, a)
    ensures !Less(a, a)
  {
    if a != [] && b != [] && a[0] == b[0] {
      LessTotal(a[1..], b[1..]);
      assert a == [a[0]] + a[1..] && b == [b[0]] + b[1..];
    }
    if a != [] {
      LessTotal(a[1..], a[1..]);
    }
  }

  /** The strings differ first at `i`, or the first ends there. */
  predicate DiffersAt(a: string, b: string, i: nat)
  {
    && i <= |a| && i < |b| && a[..i] == b[..i]
    && (i == |a| || a[i] < b[i])
  }

  /** The first difference decides, and a proper prefix comes first. */
  lemma {:induction false} LessIff(a: string, b: string)
    ensures Less(a, b) <==> exists i: nat :: DiffersAt(a, b, i)
  {
    if a == [] && b != [] {
      assert DiffersAt(a, b, 0);
    } else if a != [] && b != [] && a[0] == b[0] {
      LessIff(a[1..], b[1..]);
      if i: nat :| DiffersAt(a[1..], b[1..], i) {
        assert a[..i + 1] == [a[0]] + a[1..][..i] && b[..i + 1] == [b[0]] + b[1..][..i];
        assert DiffersAt(a, b, i + 1);
      }
      if i: nat :| DiffersAt(a, b, i) {
        assert i > 0;
        assert a[1..][..i - 1] == a[..i][1..] && b[1..][..i - 1] == b[..i][1..];
        assert DiffersAt(a[1..], b[1..], i - 1);
      }
    } else if a != [] && b != [] && a[0] < b[0] {
      assert DiffersAt(a, b, 0);
    } else {
      forall i: nat | 0 < i <= |a| && i < |b| ensures a[..i] != b[..i] {
        assert a[..i][0] == a[0] && b[..i][0] == b[0];
      }
    }
  }

  lemma {:induction false} LessTransitive(a: string, b: string, c: string)
    requires Less(a, b) && Less(b, c)
    ensures Less(a, c)
  {
    if a != [] && a[0] == b[0] == c[0] {
      LessTransitive(a[1..], b[1..], c[1..]);
    }
  }

  datatype Pair = Pair(key: string, value: Value)

  function KeysOf(ps: seq<Pair>): seq<string>
  {
    seq(|ps|, i requires 0 <= i < |ps| => ps[i].key)
  }

  ghost predicate Ascending(ks: seq<string>)
  {
    forall i, j :: 0 <= i < j < |ks| ==> Less(ks[i], ks[j])
  }

  /** `ps` lists exactly the entries of the group, by ascending key. */
  ghost predicate SortedListing(g: Group, ps: seq<Pair>)
  {
    && Ascending(KeysOf(ps)) && Elements(KeysOf(ps)) == g.Keys
    && forall i :: 0 <= i < |ps| ==> ps[i].key in g && ps[i].value == g[ps[i].key]
  }

  function Encoded(ps: seq<Pair>, encode: Value -> string): string
  {
    if ps == [] then [] else encode(ps[0].value) + Encoded(ps[1..], encode)
  }

  // ----- The insertion by swaps -----

  ghost predicate Inserted(before: seq<Pair>, p: Pair, pos: nat, ps: seq<Pair>)
  {
    && |ps| == |before| + 1 && pos <= |before| && ps[pos] == p
    && (forall i :: 0 <= i < pos ==> ps[i] == before[i])
    && (forall i :: pos < i < |ps| ==> ps[i] == before[i - 1])
  }

  /** `p` stands at `pos`, above the smaller keys and below the greater ones. */
  ghost predicate InsertedInOrder(before: seq<Pair>, p: Pair, pos: nat, ps: seq<Pair>)
  {
    && Inserted(before, p, pos, ps)
    && (forall i :: 0 <= i < pos ==> Less(before[i].key, p.key))
    && (forall i :: pos <= i < |before| ==> Less(p.key, before[i].key))
  }

  /** The new pair goes to the end and one pass of swaps carries it down to its place. */
  method BubbleDown(before: seq<Pair>, p: Pair) returns (ps: seq<Pair>)
    requires Ascending(KeysOf(before)) && p.key !in KeysOf(before)
    ensures exists pos :: InsertedInOrder(before, p, pos, ps)
  {
    ps := before + [p];
    ghost var pos := |before|;
    ghost var ks := KeysOf(before);
    var i := |ps| - 1;
    while i > 0
      invariant 0 <= i <= pos <= |before| == |ps| - 1
      invariant Inserted(before, p, pos, ps)
      invariant forall j :: pos <= j < |before| ==> Less(p.key, ks[j])
      invariant i < pos ==> Less(ks[pos - 1], p.key)
    {
      if i == pos {
        LessTotal(p.key, ks[i - 1]);
        assert ks[i - 1] in ks;
      } else {
        LessTotal(ks[i - 1], ks[i]);
      }
      if Less(ps[i].key, ps[i - 1].key) {
        ps := ps[i := ps[i - 1]][i - 1 := ps[i]];
        pos := pos - 1;
      }
      i := i - 1;
    }
    InPlace(before, p, pos, ps);
  }

  /** The pair stands above the pair below it, and so above all below that. */
  lemma InPlace(before: seq<Pair>, p: Pair, pos: nat, ps: seq<Pair>)
    requires Ascending(KeysOf(before)) && Inserted(before, p, pos, ps)
    requires 0 < pos ==> Less(KeysOf(before)[pos - 1], p.key)
    requires forall j :: pos <= j < |before| ==> Less(p.key, KeysOf(before)[j])
    ensures InsertedInOrder(before, p, pos, ps)
  {
    var ks := KeysOf(before);
    forall j | 0 <= j < pos ensures Less(before[j].key, p.key) {
      if j < pos - 1 {
        LessTransitive(ks[j], ks[pos - 1], p.key);
      }
    }
    assert forall j :: pos <= j < |before| ==> ks[j] == before[j].key;
  }

  lemma InsertedAscending(ks: seq<string>, k: string, pos: nat, ks': seq<string>)
    requires Ascending(ks) && pos <= |ks| && ks' == ks[..pos] + [k] + ks[pos..]
    requires forall i :: 0 <= i < pos ==> Less(ks[i], k)
    requires forall i :: pos <= i < |ks| ==> Less(k, ks[i])
    ensures Ascending(ks') && Elements(ks') == Elements(ks) + {k}
  {
    forall i, j | 0 <= i < j < |ks'| ensures Less(ks'[i], ks'[j]) {
      assert i < pos ==> ks'[i] == ks[i];
      assert j < pos ==> ks'[j] == ks[j];
      assert i > pos ==> ks'[i] == ks[i - 1];
      assert j > pos ==> ks'[j] == ks[j - 1];
    }
    assert ks == ks[..pos] + ks[pos..];
  }

  /** The part of a group over some of its keys. */
  ghost function Part(g: Group, done: set<string>): Group
  {
    map x | x in g && x in done :: g[x]
  }

  lemma InsertedListing(g: Group, done: set<string>, before: seq<Pair>, k: string, pos: nat, ps: seq<Pair>)
    requires done <= g.Keys && k in g && k !in done
    requires SortedListing(Part(g, done), before)
    requires InsertedInOrder(before, Pair(k, g[k]), pos, ps)
    ensures SortedListing(Part(g, done + {k}), ps)
  {
    var ks := KeysOf(before);
    assert KeysOf(ps) == ks[..pos] + [k] + ks[pos..];
    InsertedAscending(ks, k, pos, KeysOf(ps));
    assert Part(g, done + {k}).Keys == done + {k};
    InsertedValues(g, done, before, k, pos, ps);
  }

  lemma InsertedValues(g: Group, done: set<string>, before: seq<Pair>, k: string, pos: nat, ps: seq<Pair>)
    requires k in g && SortedListing(Part(g, done), before) && Inserted(before, Pair(k, g[k]), pos, ps)
    ensures forall i :: 0 <= i < |ps| ==> ps[i].key in Part(g, done + {k}) && ps[i].value == g[ps[i].key]
  {
    forall i | 0 <= i < |ps| ensures ps[i].key in Part(g, done + {k}) && ps[i].value == g[ps[i].key] {
      assert ps[i] == if i < pos then before[i] else if i == pos then Pair(k, g[k]) else before[i - 1];
    }
  }

  /** The loop over the group, in whatever order its map is ranged over. */
  method SortedPairs(g: Group) returns (ps: seq<Pair>)
    ensures SortedListing(g, ps)
  {
    ps := [];
    var todo := g.Keys;
    while todo != {}
      invariant todo <= g.Keys
      invariant SortedListing(Part(g, g.Keys - todo), ps)
    {
      var k :| k in todo;
      ghost var before := ps;
      assert k !in KeysOf(ps) by {
        assert Elements(KeysOf(ps)) == g.Keys - todo;
      }
      ps := BubbleDown(ps, Pair(k, g[k]));
      ghost var pos :| InsertedInOrder(before, Pair(k, g[k]), pos, ps);
      InsertedListing(g, g.Keys - todo, before, k, pos, ps);
      assert g.Keys - (todo - {k}) == g.Keys - todo + {k};
      todo := todo - {k};
    }
    assert Part(g, g.Keys - todo) == g;
  }

  /** The loop that makes the text. */
  method Concatenated(ps: seq<Pair>, encode: Value -> string) returns (text: string)
    ensures text == Encoded(ps, encode)
  {
    text := "";
    for i := 0 to |ps|
      invariant text + Encoded(ps[i..], encode) == Encoded(ps, encode)
    {
      assert ps[i..][1..] == ps[i + 1..];
      text := text + encode(ps[i].value);
    }
    assert ps[|ps|..] == [];
  }

  /** `GetHash`: whatever order the map is ranged over in, the hash is that of the canonical text. */
  method GetHash(g: Group, encode: Value -> string, fnv: string -> HashId) returns (hash: HashId)
    ensures exists ps :: SortedListing(g, ps)
    ensures forall ps :: SortedListing(g, ps) ==> hash == fnv(Encoded(ps, encode))
  {
    var ps := SortedPairs(g);
    var text := Concatenated(ps, encode);
    forall qs | SortedListing(g, qs) ensures text == Encoded(qs, encode) {
      ListingUnique(g, ps, qs);
    }
    hash := fnv(text);
  }

  // ----- The text is canonical and, over fixed keys, injective -----

  lemma {:induction false} AscendingUnique(a: seq<string>, b: seq<string>)
    requires Ascending(a) && Ascending(b) && Elements(a) == Elements(b)
    ensures a == b
  {
    if a == [] {
      assert forall i :: 0 <= i < |b| ==> b[i] in Elements(b);
    } else {
      assert a[0] in Elements(b);
      assert b[0] in Elements(a);
      var j :| 0 <= j < |b| && b[j] == a[0];
      var i :| 0 <= i < |a| && a[i] == b[0];
      LessTotal(a[0], b[0]);
      assert Elements(a[1..]) == Elements(a) - {a[0]} by {
        assert a == [a[0]] + a[1..];
        FirstNotInRest(a);
      }
      assert Elements(b[1..]) == Elements(b) - {b[0]} by {
        assert b == [b[0]] + b[1..];
        FirstNotInRest(b);
      }
      AscendingUnique(a[1..], b[1..]);
      assert a == [a[0]] + a[1..] && b == [b[0]] + b[1..];
    }
  }

  lemma FirstNotInRest(a: seq<string>)
    requires a != [] && Ascending(a)
    ensures a[0] !in a[1..]
  {
    forall i | 1 <= i < |a| ensures a[i] != a[0] {
      LessTotal(a[0], a[0]);
    }
  }

  /** A group has one sorted listing: the text does not depend on the order of the range. */
  lemma ListingUnique(g: Group, ps: seq<Pair>, qs: seq<Pair>)
    requires SortedListing(g, ps) && SortedListing(g, qs)
    ensures ps == qs
  {
    AscendingUnique(KeysOf(ps), KeysOf(qs));
    assert |ps| == |KeysOf(ps)| == |qs|;
    forall i | 0 <= i < |ps| ensures ps[i] == qs[i] {
      assert KeysOf(ps)[i] == KeysOf(qs)[i];
    }
  }

  /** In no row of the table is the encoding of a value a prefix of that of another. */
  ghost predicate PrefixFree(unique: map<string, seq<Value>>, encode: Value -> string)
  {
    forall k, v, w :: k in unique && v in unique[k] && w in unique[k] && encode(v) <= encode(w) ==> v == w
  }

  /** Every pair is a key of the table with one of its values. */
  ghost predicate DrawnFrom(unique: map<string, seq<Value>>, ps: seq<Pair>)
  {
    forall i :: 0 <= i < |ps| ==> ps[i].key in unique && ps[i].value in unique[ps[i].key]
  }

  lemma {:induction false} EncodedInjective(unique: map<string, seq<Value>>, ps: seq<Pair>, qs: seq<Pair>,
                                            encode: Value -> string)
    requires KeysOf(ps) == KeysOf(qs) && PrefixFree(unique, encode) && DrawnFrom(unique, ps) && DrawnFrom(unique, qs)
    requires Encoded(ps, encode) == Encoded(qs, encode)
    ensures ps == qs
  {
    assert |ps| == |KeysOf(ps)| == |qs|;
    if ps != [] {
      assert KeysOf(ps)[0] == KeysOf(qs)[0];
      var a, b, text := encode(ps[0].value), encode(qs[0].value), Encoded(ps, encode);
      assert a == text[..|a|] && b == text[..|b|];
      assert a <= b || b <= a;
      assert ps[0].value == qs[0].value;
      assert Encoded(ps[1..], encode) == text[|a|..] && Encoded(qs[1..], encode) == text[|a|..];
      assert KeysOf(ps[1..]) == KeysOf(ps)[1..] && KeysOf(qs[1..]) == KeysOf(qs)[1..];
      EncodedInjective(unique, ps[1..], qs[1..], encode);
      assert ps == [ps[0]] + ps[1..] && qs == [qs[0]] + qs[1..];
    }
  }

  /** Groups over a table have the same text only if they are the same group. */
  lemma TextInjective(unique: map<string, seq<Value>>, g: Group, k: Group, ps: seq<Pair>, qs: seq<Pair>,
                      encode: Value -> string)
    requires IsFull(unique, g) && IsFull(unique, k) && PrefixFree(unique, encode)
    requires SortedListing(g, ps) && SortedListing(k, qs) && Encoded(ps, encode) == Encoded(qs, encode)
    ensures g == k
  {
    AscendingUnique(KeysOf(ps), KeysOf(qs));
    EncodedInjective(unique, ps, qs, encode);
    forall x | x in g ensures g[x] == k[x] {
      assert x in Elements(KeysOf(ps));
      var i :| 0 <= i < |ps| && KeysOf(ps)[i] == x;
    }
  }

  // ----- Distinct groups over a table hash differently -----

  lemma {:induction false} PositionExists(ks: seq<string>, k: string) returns (pos: nat)
    requires Ascending(ks) && k !in ks
    ensures pos <= |ks|
    ensures forall i :: 0 <= i < pos ==> Less(ks[i], k)
    ensures forall i :: pos <= i < |ks| ==> Less(k, ks[i])
  {
    pos := |ks|;
    if ks != [] {
      var last := ks[|ks| - 1];
      LessTotal(last, k);
      if Less(k, last) {
        pos := PositionExists(ks[..|ks| - 1], k);
      } else {
        forall i | 0 <= i < |ks| ensures Less(ks[i], k) {
          if i < |ks| - 1 {
            LessTransitive(ks[i], last, k);
          }
        }
      }
    }
  }

  lemma InsertionExists(before: seq<Pair>, p: Pair) returns (pos: nat, ps: seq<Pair>)
    requires Ascending(KeysOf(before)) && p.key !in KeysOf(before)
    ensures InsertedInOrder(before, p, pos, ps)
  {
    pos := PositionExists(KeysOf(before), p.key);
    ps := before[..pos] + [p] + before[pos..];
    assert forall i :: 0 <= i < |before| ==> before[i].key == KeysOf(before)[i];
  }

  /** Every group has a sorted listing of any part of its keys. */
  lemma {:induction false} ListingExists(g: Group, done: set<string>) returns (ps: seq<Pair>)
    requires done <= g.Keys
    ensures SortedListing(Part(g, done), ps)
    decreases done
  {
    ps := [];
    if done != {} {
      var k :| k in done;
      var before := ListingExists(g, done - {k});
      assert Elements(KeysOf(before)) == done - {k};
      assert k !in KeysOf(before);
      var pos;
      pos, ps := InsertionExists(before, Pair(k, g[k]));
      InsertedListing(g, done - {k}, before, k, pos, ps);
      assert done - {k} + {k} == done;
    }
  }

  /** `hash` is what `GetHash` returns. */
  ghost predicate IsGetHash(hash: Group -> HashId, encode: Value -> string, fnv: string -> HashId)
  {
    forall g, ps :: SortedListing(g, ps) ==> hash(g) == fnv(Encoded(ps, encode))
  }

  /** No two different texts of groups over the table have the same FNV hash. */
  ghost predicate NoCollision(unique: map<string, seq<Value>>, encode: Value -> string, fnv: string -> HashId)
  {
    forall g, k, ps, qs :: IsFull(unique, g) && IsFull(unique, k) && SortedListing(g, ps) && SortedListing(k, qs)
                           && fnv(Encoded(ps, encode)) == fnv(Encoded(qs, encode))
                           ==> Encoded(ps, encode) == Encoded(qs, encode)
  }

  lemma SameHashSameGroup(unique: map<string, seq<Value>>, hash: Group -> HashId, encode: Value -> string,
                          fnv: string -> HashId, g: Group, k: Group)
    requires IsGetHash(hash, encode, fnv) && PrefixFree(unique, encode) && NoCollision(unique, encode, fnv)
    requires IsFull(unique, g) && IsFull(unique, k) && hash(g) == hash(k)
    ensures g == k
  {
    var ps := ListingExists(g, g.Keys);
    var qs := ListingExists(k, k.Keys);
    assert Part(g, g.Keys) == g && Part(k, k.Keys) == k;
    TextInjective(unique, g, k, ps, qs, encode);
  }

  /** With prefix-free encodings, distinct groups over a table hash differently if and only if FNV has no collision
      on their texts. */
  lemma HashInjectiveIff(unique: map<string, seq<Value>>, hash: Group -> HashId, encode: Value -> string,
                         fnv: string -> HashId)
    requires IsGetHash(hash, encode, fnv) && PrefixFree(unique, encode)
    ensures InjectiveOn(unique, hash) <==> NoCollision(unique, encode, fnv)
  {
    if NoCollision(unique, encode, fnv) {
      forall g, k | IsFull(unique, g) && IsFull(unique, k) && hash(g) == hash(k) ensures g == k {
        SameHashSameGroup(unique, hash, encode, fnv, g, k);
      }
    }
    if InjectiveOn(unique, hash) {
      forall g, k, ps, qs | IsFull(unique, g) && IsFull(unique, k) && SortedListing(g, ps) && SortedListing(k, qs)
                            && fnv(Encoded(ps, encode)) == fnv(Encoded(qs, encode))
        ensures Encoded(ps, encode) == Encoded(qs, encode)
      {
        assert hash(g) == hash(k);
        ListingUnique(g, ps, qs);
      }
    }
  }
}
