/** The algebra of tag lists and tag maps: what the conversions in
    pkg/resource/state_machine/tags.go and pkg/util/tags.go compute. */
module AckTags {
  import opened Wrappers
  import opened Api

  type Tags = map<string, string>

  ghost predicate NoNil(tags: seq<Tag>) {
    forall t | t in tags :: t.Tag?
  }

  predicate Keyed(t: Tag) {
    t.Tag? && t.key.Some?
  }

  /** A nil value reads as the empty string. */
  function ValueOf(t: Tag): string
    requires t.Tag?
  {
    if t.value.Some? then t.value.value else ""
  }

  function MakeTag(k: string, v: string): Tag {
    Tag(Some(k), Some(v))
  }

  /** The map a list stands for: later entries overwrite earlier ones. */
  function ToAck(tags: seq<Tag>): Tags {
    if tags == [] then map[]
    else
      var m, t := ToAck(tags[..|tags| - 1]), tags[|tags| - 1];
      if Keyed(t) then m[t.key.value := ValueOf(t)] else m
  }

  /** The keys of a list in list order, repetitions included. */
  function KeyOrder(tags: seq<Tag>): seq<string> {
    if tags == [] then []
    else
      var ks, t := KeyOrder(tags[..|tags| - 1]), tags[|tags| - 1];
      if Keyed(t) then ks + [t.key.value] else ks
  }

  /** The tags of `m` whose key is in `order`, at the first place it has there. */
  function Ordered(m: Tags, order: seq<string>): seq<Tag> {
    if order == [] then []
    else if order[0] in m then [MakeTag(order[0], m[order[0]])] + Ordered(m - {order[0]}, order[1..])
    else Ordered(m, order[1..])
  }

  function Listing(m: Tags, keys: seq<string>): seq<Tag>
    requires forall k | k in keys :: k in m
  {
    seq(|keys|, i requires 0 <= i < |keys| => MakeTag(keys[i], m[keys[i]]))
  }

  function Elements(keys: seq<string>): set<string> {
    set k | k in keys
  }

  /** `rest` is one of the orders in which a Go map with these keys can be walked. */
  ghost predicate Enumerates(rest: seq<string>, keys: set<string>) {
    && Elements(rest) == keys
    && forall i, j | 0 <= i < j < |rest| :: rest[i] != rest[j]
  }

  function Remainder(m: Tags, order: seq<string>): Tags {
    m - Elements(order)
  }

  /** The list fromACKTags returns when the map remainder is walked as `rest`. */
  ghost function FromAck(m: Tags, order: seq<string>, rest: seq<string>): seq<Tag>
    requires Enumerates(rest, m.Keys - Elements(order))
  {
    assert forall k | k in rest :: k in Elements(rest);
    Ordered(m, order) + Listing(m, rest)
  }

  /** fromACKTags after convertToOrderedACKTags: the walk of the remainder is empty. */
  function Normal(tags: seq<Tag>): seq<Tag> {
    Ordered(ToAck(tags), KeyOrder(tags))
  }

  /** Keys set and distinct, values set: what a user's tag list looks like. */
  ghost predicate Canonical(tags: seq<Tag>) {
    && (forall i | 0 <= i < |tags| :: Keyed(tags[i]) && tags[i].value.Some?)
    && forall i, j | 0 <= i < j < |tags| :: tags[i].key != tags[j].key
  }

  function Keep(tags: seq<Tag>, p: string -> bool): seq<Tag> {
    if tags == [] then []
    else if Keyed(tags[0]) && p(tags[0].key.value) then [tags[0]] + Keep(tags[1..], p)
    else Keep(tags[1..], p)
  }

  function Restrict(m: Tags, p: string -> bool): Tags {
    map k | k in m && p(k) :: m[k]
  }

  /** Least index of a key in a list of keys; the length when it is absent. */
  function IndexOf(order: seq<string>, k: string): nat {
    if order == [] || order[0] == k then 0 else 1 + IndexOf(order[1..], k)
  }

  lemma WalkOneMore(rest: seq<string>, keys: set<string>, k: string)
    requires Enumerates(rest, keys) && k !in keys
    ensures Enumerates(rest + [k], keys + {k})
  {
  }

  // ---------- lists to maps ----------

  lemma {:induction false} ToAckConcat(a: seq<Tag>, b: seq<Tag>)
    ensures ToAck(a + b) == ToAck(a) + ToAck(b)
    ensures KeyOrder(a + b) == KeyOrder(a) + KeyOrder(b)
  {
    if b == [] {
      assert a + b == a;
    } else {
      var n := |b| - 1;
      assert (a + b)[..|a + b| - 1] == a + b[..n];
      ToAckConcat(a, b[..n]);
    }
  }

  /** A key is in the map exactly when it is in the key order, and the map holds
      the value of the last entry with that key. */
  lemma {:induction false} ToAckMeaning(tags: seq<Tag>, k: string)
    ensures k in ToAck(tags) <==> k in KeyOrder(tags)
    ensures k in ToAck(tags) <==> exists i :: 0 <= i < |tags| && tags[i].Tag? && tags[i].key.Some? && tags[i].key.value == k
    ensures k in ToAck(tags) ==>
              exists i :: 0 <= i < |tags| && tags[i].Tag? && tags[i].key.Some? && tags[i].key.value == k
                          && ToAck(tags)[k] == (if tags[i].value.Some? then tags[i].value.value else "")
                          && forall j | i < j < |tags| && tags[j].Tag? && tags[j].key.Some? :: tags[j].key.value != k
  {
    if tags != [] {
      var n := |tags| - 1;
      var t, init := tags[n], tags[..n];
      ToAckMeaning(init, k);
      assert forall i | 0 <= i < n :: init[i] == tags[i];
      if Keyed(t) && t.key.value == k {
        assert Keyed(tags[n]) && ToAck(tags)[k] == ValueOf(tags[n]);
      } else if k in ToAck(init) {
        var i :| 0 <= i < n && Keyed(init[i]) && init[i].key.value == k
                 && ToAck(init)[k] == ValueOf(init[i])
                 && forall j | i < j < n && Keyed(init[j]) :: init[j].key.value != k;
        assert Keyed(tags[i]) && tags[i].key.value == k && ToAck(tags)[k] == ValueOf(tags[i]);
        forall j | i < j < |tags| && Keyed(tags[j]) ensures tags[j].key.value != k {
          if j < n { assert tags[j] == init[j]; }
        }
      }
    }
  }

  lemma KeyOrderElements(tags: seq<Tag>)
    ensures Elements(KeyOrder(tags)) == ToAck(tags).Keys
  {
  }

  lemma EntryOf(tags: seq<Tag>, k: string) returns (t: Tag)
    requires k in ToAck(tags)
    ensures t in tags && Keyed(t) && t.key.value == k && ToAck(tags)[k] == ValueOf(t)
  {
    ToAckMeaning(tags, k);
    var i :| 0 <= i < |tags| && Keyed(tags[i]) && tags[i].key.value == k && ToAck(tags)[k] == ValueOf(tags[i]);
    t := tags[i];
  }

  lemma EntryIn(tags: seq<Tag>, t: Tag)
    requires t in tags && Keyed(t)
    ensures t.key.value in ToAck(tags)
  {
    ToAckMeaning(tags, t.key.value);
  }

  /** With distinct keys only membership matters, so a permutation changes nothing. */
  lemma PermutationKeepsMap(a: seq<Tag>, b: seq<Tag>)
    requires multiset(a) == multiset(b)
    requires forall i, j | 0 <= i < j < |a| && Keyed(a[i]) && Keyed(a[j]) :: a[i].key != a[j].key
    ensures ToAck(a) == ToAck(b)
  {
    forall t ensures t in a <==> t in b {
      assert t in a <==> t in multiset(a);
      assert t in b <==> t in multiset(b);
    }
    forall k ensures (k in ToAck(a) <==> k in ToAck(b)) && (k in ToAck(a) ==> ToAck(a)[k] == ToAck(b)[k]) {
      if k in ToAck(b) {
        var u := EntryOf(b, k);
        EntryIn(a, u);
      }
      if k in ToAck(a) {
        var t := EntryOf(a, k);
        EntryIn(b, t);
        var u := EntryOf(b, k);
        assert t in a && u in a;
      }
    }
  }

  // ---------- maps to lists ----------

  lemma SingletonTag(k: string, v: string)
    ensures ToAck([MakeTag(k, v)]) == map[k := v]
    ensures KeyOrder([MakeTag(k, v)]) == [k]
  {
  }

  lemma {:induction false} OrderedRoundTrip(m: Tags, order: seq<string>)
    ensures ToAck(Ordered(m, order)) == map k | k in m && k in order :: m[k]
  {
    if order != [] {
      var k, tail := order[0], order[1..];
      assert forall x :: x in order <==> x == k || x in tail;
      if k in m {
        OrderedRoundTrip(m - {k}, tail);
        SingletonTag(k, m[k]);
        ToAckConcat([MakeTag(k, m[k])], Ordered(m - {k}, tail));
      } else {
        OrderedRoundTrip(m, tail);
      }
    }
  }

  lemma {:induction false} ListingRoundTrip(m: Tags, rest: seq<string>)
    requires forall k | k in rest :: k in m
    ensures ToAck(Listing(m, rest)) == map k | k in m && k in rest :: m[k]
    ensures KeyOrder(Listing(m, rest)) == rest
  {
    if rest != [] {
      var n := |rest| - 1;
      ListingRoundTrip(m, rest[..n]);
      assert Listing(m, rest)[..n] == Listing(m, rest[..n]);
      assert rest == rest[..n] + [rest[n]];
    }
  }

  /** Listing a whole map in any order loses nothing. */
  lemma WholeListing(m: Tags, keys: seq<string>)
    requires Enumerates(keys, m.Keys) && forall k | k in keys :: k in m
    ensures Canonical(Listing(m, keys)) && ToAck(Listing(m, keys)) == m
  {
    ListingRoundTrip(m, keys);
    forall k | k in m ensures k in keys {
      assert k in m.Keys;
      assert k in Elements(keys);
    }
  }

  /** Whatever the map, the key order and the walk of the remainder, converting
      the list back gives the map that went in. */
  lemma FromAckRoundTrip(m: Tags, order: seq<string>, rest: seq<string>)
    requires Enumerates(rest, m.Keys - Elements(order))
    ensures ToAck(FromAck(m, order, rest)) == m
  {
    assert forall k :: k in rest <==> k in Elements(rest);
    OrderedRoundTrip(m, order);
    ListingRoundTrip(m, rest);
    ToAckConcat(Ordered(m, order), Listing(m, rest));
  }

  lemma {:induction false} OrderedCanonical(m: Tags, order: seq<string>)
    ensures Canonical(Ordered(m, order))
    ensures forall t | t in Ordered(m, order) :: t.key.value in m && t.key.value in order && t.value == Some(m[t.key.value])
    ensures forall k | k in m && k in order :: MakeTag(k, m[k]) in Ordered(m, order)
  {
    if order != [] {
      var k, tail := order[0], order[1..];
      assert forall x :: x in order <==> x == k || x in tail;
      if k in m {
        var sub := Ordered(m - {k}, tail);
        OrderedCanonical(m - {k}, tail);
        assert forall t :: t in Ordered(m, order) <==> t == MakeTag(k, m[k]) || t in sub;
        assert forall i | 0 <= i < |sub| :: sub[i] in sub;
      } else {
        OrderedCanonical(m, tail);
      }
    }
  }

  lemma FromAckCanonical(m: Tags, order: seq<string>, rest: seq<string>)
    requires Enumerates(rest, m.Keys - Elements(order))
    ensures Canonical(FromAck(m, order, rest))
    ensures forall t: Tag :: t in FromAck(m, order, rest) <==> t.Tag? && t.key.Some? && t.key.value in m && t.value == Some(m[t.key.value])
  {
    assert forall k :: k in rest <==> k in Elements(rest);
    OrderedCanonical(m, order);
    var a, b := Ordered(m, order), Listing(m, rest);
    assert FromAck(m, order, rest) == a + b;
    assert forall i | 0 <= i < |b| :: b[i].key.value in rest;
    assert forall i | 0 <= i < |a| :: a[i] in a;
    forall t: Tag | t.Tag? && t.key.Some? && t.key.value in m && t.value == Some(m[t.key.value])
      ensures t in a + b
    {
      var k := t.key.value;
      assert t == MakeTag(k, m[k]);
      if k !in order {
        assert k in m.Keys - Elements(order);
        assert k in rest;
        var i :| 0 <= i < |rest| && rest[i] == k;
        assert b[i] == t;
      }
    }
  }

  lemma {:induction false} CanonicalFixed(tags: seq<Tag>)
    requires Canonical(tags)
    ensures Normal(tags) == tags
  {
    if tags != [] {
      var t, tail := tags[0], tags[1..];
      var k := t.key.value;
      assert tags == [t] + tail;
      assert t == MakeTag(k, ValueOf(t));
      CanonicalFixed(tail);
      SingletonTag(k, ValueOf(t));
      ToAckConcat([t], tail);
      ToAckMeaning(tail, k);
      assert KeyOrder(tags)[0] == k && KeyOrder(tags)[1..] == KeyOrder(tail);
      assert ToAck(tags) - {k} == ToAck(tail);
    }
  }

  /** Only the part of the map that `order` names matters. */
  lemma {:induction false} OrderedDependsOnOrder(m: Tags, m': Tags, order: seq<string>)
    requires forall k | k in order :: (k in m <==> k in m') && (k in m ==> m[k] == m'[k])
    ensures Ordered(m, order) == Ordered(m', order)
  {
    if order != [] {
      var k, tail := order[0], order[1..];
      assert k in order && forall x | x in tail :: x in order;
      if k in m {
        OrderedDependsOnOrder(m - {k}, m' - {k}, tail);
      } else {
        OrderedDependsOnOrder(m, m', tail);
      }
    }
  }

  // ---------- normal form ----------

  lemma {:induction false} OrderedByFirstPosition(m: Tags, order: seq<string>, i: nat, j: nat)
    requires i < j < |Ordered(m, order)|
    ensures Ordered(m, order)[i].Tag? && Ordered(m, order)[i].key.Some?
    ensures Ordered(m, order)[j].Tag? && Ordered(m, order)[j].key.Some?
    ensures IndexOf(order, Ordered(m, order)[i].key.value) < IndexOf(order, Ordered(m, order)[j].key.value)
  {
    OrderedCanonical(m, order);
    var k, tail := order[0], order[1..];
    var out := Ordered(m, order);
    assert out[i] in out && out[j] in out;
    if k in m {
      var sub := Ordered(m - {k}, tail);
      OrderedCanonical(m - {k}, tail);
      assert out[j] == sub[j - 1] && sub[j - 1] in sub;
      if i > 0 {
        assert out[i] == sub[i - 1] && sub[i - 1] in sub;
        OrderedByFirstPosition(m - {k}, tail, i - 1, j - 1);
      }
    } else {
      OrderedByFirstPosition(m, tail, i, j);
    }
  }

  /** fromACKTags after convertToOrderedACKTags: no remainder to walk, keys
      unique, values set, and the pairs are exactly those of the map. */
  lemma NormalForm(tags: seq<Tag>)
    ensures Enumerates([], ToAck(tags).Keys - Elements(KeyOrder(tags)))
    ensures Normal(tags) == FromAck(ToAck(tags), KeyOrder(tags), [])
    ensures Canonical(Normal(tags))
    ensures ToAck(Normal(tags)) == ToAck(tags)
    ensures forall t: Tag :: t in Normal(tags) <==> t.Tag? && t.key.Some? && t.key.value in ToAck(tags) && t.value == Some(ToAck(tags)[t.key.value])
  {
    KeyOrderElements(tags);
    var m, order := ToAck(tags), KeyOrder(tags);
    assert Listing(m, []) == [];
    FromAckCanonical(m, order, []);
    FromAckRoundTrip(m, order, []);
  }

  /** In the normal form every key sits where the list first had it. */
  lemma NormalByFirstPosition(tags: seq<Tag>, i: nat, j: nat)
    requires i < j < |Normal(tags)|
    ensures Keyed(Normal(tags)[i]) && Keyed(Normal(tags)[j])
    ensures IndexOf(KeyOrder(tags), Normal(tags)[i].key.value) < IndexOf(KeyOrder(tags), Normal(tags)[j].key.value)
  {
    OrderedByFirstPosition(ToAck(tags), KeyOrder(tags), i, j);
  }

  lemma NormalIdempotent(tags: seq<Tag>)
    ensures Normal(Normal(tags)) == Normal(tags)
  {
    NormalForm(tags);
    CanonicalFixed(Normal(tags));
  }

  /** A list is its own normal form exactly when it is canonical. */
  lemma NormalFixedIffCanonical(tags: seq<Tag>)
    ensures Normal(tags) == tags <==> Canonical(tags)
  {
    NormalForm(tags);
    if Canonical(tags) { CanonicalFixed(tags); }
  }

  // ---------- filtering ----------

  lemma {:induction false} KeepConcat(a: seq<Tag>, b: seq<Tag>, p: string -> bool)
    ensures Keep(a + b, p) == Keep(a, p) + Keep(b, p)
  {
    if a == [] {
      assert a + b == b;
    } else {
      assert (a + b)[1..] == a[1..] + b;
      KeepConcat(a[1..], b, p);
    }
  }

  lemma {:induction false} KeepOrdered(m: Tags, order: seq<string>, p: string -> bool)
    ensures Keep(Ordered(m, order), p) == Ordered(Restrict(m, p), order)
  {
    if order != [] {
      var k, tail := order[0], order[1..];
      if k in m {
        KeepOrdered(m - {k}, tail, p);
        assert Restrict(m - {k}, p) == Restrict(m, p) - {k};
        if !p(k) {
          assert Restrict(m, p) - {k} == Restrict(m, p);
        }
      } else {
        KeepOrdered(m, tail, p);
      }
    }
  }

  lemma {:induction false} KeepAll(tags: seq<Tag>, p: string -> bool)
    requires forall t | t in tags :: Keyed(t) && p(t.key.value)
    ensures Keep(tags, p) == tags
  {
    if tags != [] {
      assert tags[0] in tags && forall t | t in tags[1..] :: t in tags;
      KeepAll(tags[1..], p);
    }
  }

  lemma KeepNone(tags: seq<Tag>, p: string -> bool)
    requires forall t | t in tags :: Keyed(t) ==> !p(t.key.value)
    ensures Keep(tags, p) == []
  {
  }
}
