/** pkg/resource/state_machine/tags.go over mutable Go maps. A walk over a map
    takes the keys in any order, so each `:|` stands for every iteration order. */
module TagMaps {
  import opened Wrappers
  import opened Api
  import opened AckTags

  const AWS_PREFIX := "aws:"

  predicate IsAws(k: string) {
    AWS_PREFIX <= k
  }

  predicate IsSystem(k: string, systemTags: seq<string>) {
    IsAws(k) || k in systemTags
  }

  function NotAws(): string -> bool {
    k => !IsAws(k)
  }

  function NotSystem(systemTags: seq<string>): string -> bool {
    k => !IsSystem(k, systemTags)
  }

  /** `a` with every "aws:" entry of `b` written over it. */
  function WithAwsTags(a: Tags, b: Tags): Tags {
    a + map k | k in b && IsAws(k) :: b[k]
  }

  class TagMap {
    var m: Tags

    constructor ()
      ensures m == map[]
    {
      m := map[];
    }
  }

  method ConvertToOrderedACKTags(tags: seq<Tag>) returns (result: TagMap, keyOrder: seq<string>)
    requires NoNil(tags)
    ensures fresh(result)
    ensures result.m == ToAck(tags) && keyOrder == KeyOrder(tags)
  {
    result := new TagMap();
    keyOrder := [];
    if |tags| == 0 {
      return;
    }
    for i := 0 to |tags|
      invariant fresh(result)
      invariant result.m == ToAck(tags[..i]) && keyOrder == KeyOrder(tags[..i])
    {
      var t := tags[i];
      assert tags[..i + 1][..i] == tags[..i];
      if t.key.Some? {
        keyOrder := keyOrder + [t.key.value];
        if t.value.Some? {
          result.m := result.m[t.key.value := t.value.value];
        } else {
          result.m := result.m[t.key.value := ""];
        }
      }
    }
    assert tags[..|tags|] == tags;
  }

  /** Consumes its map: the keys named by `keyOrder` are gone afterwards. The
      ghost result is the order in which the remainder was walked. */
  method FromACKTags(tags: TagMap, keyOrder: seq<string>) returns (result: seq<Tag>, ghost rest: seq<string>)
    modifies tags
    ensures Enumerates(rest, old(tags.m).Keys - Elements(keyOrder))
    ensures result == FromAck(old(tags.m), keyOrder, rest)
    ensures tags.m == Remainder(old(tags.m), keyOrder)
  {
    result := [];
    ghost var m0 := tags.m;
    for i := 0 to |keyOrder|
      invariant tags.m == Remainder(m0, keyOrder[..i])
      invariant result + Ordered(tags.m, keyOrder[i..]) == Ordered(m0, keyOrder)
    {
      var k := keyOrder[i];
      assert keyOrder[..i + 1] == keyOrder[..i] + [k];
      assert Elements(keyOrder[..i + 1]) == Elements(keyOrder[..i]) + {k};
      assert keyOrder[i..][1..] == keyOrder[i + 1..];
      if k in tags.m {
        var tag := Tag(Some(k), Some(tags.m[k]));
        result := result + [tag];
        tags.m := tags.m - {k};
      }
    }
    assert keyOrder[..|keyOrder|] == keyOrder;

    rest := [];
    ghost var m1 := tags.m;
    var todo := tags.m.Keys;
    while todo != {}
      invariant tags.m == m1 && todo <= m1.Keys
      invariant Enumerates(rest, tags.m.Keys - todo)
      invariant forall k | k in rest :: k in tags.m
      invariant result == Ordered(m0, keyOrder) + Listing(tags.m, rest)
      decreases todo
    {
      var k :| k in todo;
      var tag := Tag(Some(k), Some(tags.m[k]));
      WalkOneMore(rest, tags.m.Keys - todo, k);
      assert tags.m.Keys - (todo - {k}) == tags.m.Keys - todo + {k};
      assert Listing(tags.m, rest + [k]) == Listing(tags.m, rest) + [tag];
      result := result + [tag];
      rest := rest + [k];
      todo := todo - {k};
    }
    assert tags.m.Keys - todo == m0.Keys - Elements(keyOrder);
    assert forall i | 0 <= i < |rest| :: rest[i] in rest && tags.m[rest[i]] == m0[rest[i]];
    assert Listing(tags.m, rest) == Listing(m0, rest);
  }

  method IgnoreSystemTags(tags: TagMap, systemTags: seq<string>)
    modifies tags
    ensures tags.m == Restrict(old(tags.m), NotSystem(systemTags))
    ensures forall k :: k in tags.m <==> k in old(tags.m) && !("aws:" <= k) && k !in systemTags
    ensures forall k | k in tags.m :: tags.m[k] == old(tags.m)[k]
  {
    ghost var m0 := tags.m;
    var todo := tags.m.Keys;
    while todo != {}
      invariant todo <= m0.Keys
      invariant tags.m == map k | k in m0 && (k in todo || !IsSystem(k, systemTags)) :: m0[k]
      decreases todo
    {
      var k :| k in todo;
      if IsAws(k) || k in systemTags {
        tags.m := tags.m - {k};
      }
      todo := todo - {k};
    }
  }

  lemma WithAwsMeaning(a: Tags, b: Tags)
    ensures var m := WithAwsTags(a, b);
            && (forall k :: k in m <==> k in a || ("aws:" <= k && k in b))
            && (forall k | k in m :: m[k] == if "aws:" <= k && k in b then b[k] else a[k])
  {
  }

  lemma WithAwsStep(a: Tags, b: Tags, todo: set<string>, k: string)
    requires k in todo && k in b
    ensures WithAwsTags(a, b - (todo - {k})) == if IsAws(k) then WithAwsTags(a, b - todo)[k := b[k]] else WithAwsTags(a, b - todo)
  {
  }

  method SyncAWSTags(a: TagMap, b: TagMap)
    modifies a
    ensures a.m == WithAwsTags(old(a.m), old(b.m))
    ensures forall k :: k in a.m <==> k in old(a.m) || ("aws:" <= k && k in old(b.m))
    ensures forall k | k in a.m :: a.m[k] == if "aws:" <= k && k in old(b.m) then old(b.m)[k] else old(a.m)[k]
  {
    ghost var a0, b0 := a.m, b.m;
    var todo := b.m.Keys;
    while todo != {}
      invariant todo <= b0.Keys
      invariant b.m == b0
      invariant a.m == WithAwsTags(a0, b0 - todo)
      decreases todo
    {
      var k :| k in todo;
      WithAwsStep(a0, b0, todo, k);
      if IsAws(k) {
        a.m := a.m[k := b.m[k]];
      }
      todo := todo - {k};
    }
    assert b0 - todo == b0;
    WithAwsMeaning(a0, b0);
  }
}
