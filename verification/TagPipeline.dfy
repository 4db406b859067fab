/** EnsureTags, FilterSystemTags and mirrorAWSTags of
    pkg/resource/state_machine/manager.go: each rewrites Spec.Tags in place by
    way of a map, and together they must leave the user's list as it was. */
module TagPipeline {
  import opened Api
  import opened AckTags
  import opened TagMaps
  import opened SortedKeys

  /** The custom resource as an object whose fields the controller overwrites. */
  class StateMachine {
    var spec: Spec
    var status: Status

    constructor (spec: Spec, status: Status)
      ensures this.spec == spec && this.status == status
    {
      this.spec, this.status := spec, status;
    }

    function Value(): Resource
      reads this
    {
      Resource(spec, status)
    }

    method DeepCopy() returns (copy: StateMachine)
      ensures fresh(copy) && copy.Value() == Value()
    {
      copy := new StateMachine(spec, status);
    }
  }

  /** acktags.Merge: on a conflict the first map wins. */
  method Merge(a: TagMap, b: Tags) returns (result: TagMap)
    ensures fresh(result) && result.m == b + a.m
  {
    result := new TagMap();
    result.m := b + a.m;
  }

  // ---------- what each step leaves in Spec.Tags ----------

  /** The default tags missing from the list follow it, in some order. */
  ghost predicate EnsureOrder(tags: seq<Tag>, defaults: Tags, rest: seq<string>) {
    Enumerates(rest, defaults.Keys - ToAck(tags).Keys)
  }

  ghost function Ensured(tags: seq<Tag>, defaults: Tags, rest: seq<string>): seq<Tag>
    requires EnsureOrder(tags, defaults, rest)
  {
    assert forall k | k in rest :: k in Elements(rest);
    Normal(tags) + Listing(defaults, rest)
  }

  function Filtered(tags: seq<Tag>, systemTags: seq<string>): seq<Tag> {
    Keep(Normal(tags), NotSystem(systemTags))
  }

  ghost predicate MirrorOrder(desired: seq<Tag>, latest: seq<Tag>, rest: seq<string>) {
    Enumerates(rest, WithAwsTags(ToAck(desired), ToAck(latest)).Keys - Elements(KeyOrder(desired)))
  }

  ghost function Mirrored(desired: seq<Tag>, latest: seq<Tag>, rest: seq<string>): seq<Tag>
    requires MirrorOrder(desired, latest, rest)
  {
    FromAck(WithAwsTags(ToAck(desired), ToAck(latest)), KeyOrder(desired), rest)
  }

  // ---------- the methods ----------

  method EnsureTags(r: StateMachine, defaultTags: Tags) returns (ghost rest: seq<string>)
    requires NoNil(r.spec.tags)
    modifies r
    ensures EnsureOrder(old(r.spec.tags), defaultTags, rest)
    ensures r.spec == old(r.spec).(tags := Ensured(old(r.spec.tags), defaultTags, rest))
    ensures r.status == old(r.status)
  {
    var resourceTags, keyOrder := ConvertToOrderedACKTags(r.spec.tags);
    var tags := Merge(resourceTags, defaultTags);
    var out;
    ghost var existing := r.spec.tags;
    out, rest := FromACKTags(tags, keyOrder);
    EnsuredFromAck(existing, defaultTags, rest);
    r.spec := r.spec.(tags := out);
  }

  lemma EnsuredFromAck(tags: seq<Tag>, defaults: Tags, rest: seq<string>)
    requires Enumerates(rest, (defaults + ToAck(tags)).Keys - Elements(KeyOrder(tags)))
    ensures EnsureOrder(tags, defaults, rest)
    ensures FromAck(defaults + ToAck(tags), KeyOrder(tags), rest) == Ensured(tags, defaults, rest)
  {
    KeyOrderElements(tags);
    var all, order := defaults + ToAck(tags), KeyOrder(tags);
    assert forall k | k in order :: k in Elements(order);
    OrderedDependsOnOrder(all, ToAck(tags), order);
    assert all.Keys - Elements(order) == defaults.Keys - ToAck(tags).Keys;
    forall i | 0 <= i < |rest| ensures rest[i] in defaults && all[rest[i]] == defaults[rest[i]] {
      assert rest[i] in Elements(rest);
      assert rest[i] in defaults.Keys - ToAck(tags).Keys;
    }
    assert Listing(all, rest) == Listing(defaults, rest);
  }

  lemma FilteredFromAck(tags: seq<Tag>, systemTags: seq<string>, rest: seq<string>)
    requires Enumerates(rest, Restrict(ToAck(tags), NotSystem(systemTags)).Keys - Elements(KeyOrder(tags)))
    ensures FromAck(Restrict(ToAck(tags), NotSystem(systemTags)), KeyOrder(tags), rest) == Filtered(tags, systemTags)
  {
    var kept, order := Restrict(ToAck(tags), NotSystem(systemTags)), KeyOrder(tags);
    KeyOrderElements(tags);
    EmptyIff(rest);
    assert kept.Keys - Elements(order) == {};
    assert rest == [] by { assert forall k :: k in rest ==> k in Elements(rest); }
    assert Listing(kept, rest) == [];
    KeepOrdered(ToAck(tags), order, NotSystem(systemTags));
  }

  /** Neither "aws:" tags nor those with a listed key are left; the others keep
      their values, and come back once each, in the order of their first place. */
  ghost predicate FilteredFrom(before: seq<Tag>, after: seq<Tag>, systemTags: seq<string>) {
    && Canonical(after)
    && (forall k :: k in ToAck(after) <==> k in ToAck(before) && !("aws:" <= k) && k !in systemTags)
    && (forall k | k in ToAck(after) :: ToAck(after)[k] == ToAck(before)[k])
    && forall i, j | 0 <= i < j < |after| ::
         IndexOf(KeyOrder(before), after[i].key.value) < IndexOf(KeyOrder(before), after[j].key.value)
  }

  lemma FilteredMeaning(tags: seq<Tag>, systemTags: seq<string>)
    ensures FilteredFrom(tags, Filtered(tags, systemTags), systemTags)
  {
    var p, m, order := NotSystem(systemTags), ToAck(tags), KeyOrder(tags);
    FilteredContents(tags, systemTags);
    KeepOrdered(m, order, p);
    forall i, j | 0 <= i < j < |Filtered(tags, systemTags)|
      ensures IndexOf(order, Filtered(tags, systemTags)[i].key.value) < IndexOf(order, Filtered(tags, systemTags)[j].key.value)
    {
      OrderedByFirstPosition(Restrict(m, p), order, i, j);
    }
  }

  method FilterSystemTags(r: StateMachine?, systemTags: seq<string>)
    requires r != null ==> NoNil(r.spec.tags)
    modifies r
    ensures r != null ==>
              && r.spec == old(r.spec).(tags := Filtered(old(r.spec.tags), systemTags))
              && FilteredFrom(old(r.spec.tags), r.spec.tags, systemTags)
              && r.status == old(r.status)
  {
    if r == null {
      return;
    }
    var resourceTags, keyOrder := ConvertToOrderedACKTags(r.spec.tags);
    IgnoreSystemTags(resourceTags, systemTags);
    ghost var existing := r.spec.tags;
    var out, rest := FromACKTags(resourceTags, keyOrder);
    FilteredFromAck(existing, systemTags, rest);
    FilteredMeaning(existing, systemTags);
    r.spec := r.spec.(tags := out);
  }

  /** The desired tags, with every "aws:" tag of the latest written over them. */
  ghost predicate MirroredFrom(desired: seq<Tag>, latest: seq<Tag>, after: seq<Tag>) {
    && (forall k :: k in ToAck(after) <==> k in ToAck(desired) || ("aws:" <= k && k in ToAck(latest)))
    && (forall k | k in ToAck(after) ::
          ToAck(after)[k] == if "aws:" <= k && k in ToAck(latest) then ToAck(latest)[k] else ToAck(desired)[k])
  }

  method MirrorAWSTags(a: StateMachine?, b: StateMachine?) returns (ghost rest: seq<string>)
    requires a != null && b != null ==> NoNil(a.spec.tags) && NoNil(b.spec.tags)
    modifies a
    ensures a != null && b == null ==> a.Value() == old(a.Value())
    ensures a != null && b != null ==>
              && MirrorOrder(old(a.spec.tags), old(b.spec.tags), rest)
              && MirroredFrom(old(a.spec.tags), old(b.spec.tags), a.spec.tags)
              && a.spec == old(a.spec).(tags := Mirrored(old(a.spec.tags), old(b.spec.tags), rest))
              && a.status == old(a.status)
  {
    rest := [];
    if a == null || b == null {
      return;
    }
    ghost var desired, latest := a.spec.tags, b.spec.tags;
    var desiredTags, desiredTagKeyOrder := ConvertToOrderedACKTags(a.spec.tags);
    var latestTags, _ := ConvertToOrderedACKTags(b.spec.tags);
    SyncAWSTags(desiredTags, latestTags);
    var out;
    out, rest := FromACKTags(desiredTags, desiredTagKeyOrder);
    MirroredContents(desired, latest, rest);
    a.spec := a.spec.(tags := out);
  }

  // ---------- the user's list survives ----------

  lemma EnsuredContents(tags: seq<Tag>, defaults: Tags, rest: seq<string>)
    requires EnsureOrder(tags, defaults, rest)
    ensures Canonical(Ensured(tags, defaults, rest))
    ensures ToAck(Ensured(tags, defaults, rest)) == defaults + ToAck(tags)
  {
    KeyOrderElements(tags);
    var all := defaults + ToAck(tags);
    assert all.Keys - Elements(KeyOrder(tags)) == defaults.Keys - ToAck(tags).Keys;
    EnsuredFromAck(tags, defaults, rest);
    FromAckCanonical(all, KeyOrder(tags), rest);
    FromAckRoundTrip(all, KeyOrder(tags), rest);
  }

  /** The user's list is canonical, names no system key, and leaves out only
      default tags whose key is a system key. */
  ghost predicate Untouched(tags: seq<Tag>, defaults: Tags, systemTags: seq<string>) {
    && Canonical(tags)
    && (forall k | k in ToAck(tags) :: !("aws:" <= k) && k !in systemTags)
    && (forall k | k in defaults && k !in ToAck(tags) :: "aws:" <= k || k in systemTags)
  }

  lemma UntouchedSurvives(tags: seq<Tag>, defaults: Tags, systemTags: seq<string>, rest: seq<string>)
    requires EnsureOrder(tags, defaults, rest) && Untouched(tags, defaults, systemTags)
    ensures Keep(Ensured(tags, defaults, rest), NotSystem(systemTags)) == tags
  {
    var p := NotSystem(systemTags);
    NormalForm(tags);
    CanonicalFixed(tags);
    assert forall k :: k in rest <==> k in Elements(rest);
    KeepConcat(tags, Listing(defaults, rest), p);
    KeepAll(tags, p);
    KeepNone(Listing(defaults, rest), p);
  }

  /** EnsureTags followed by FilterSystemTags gives the list back, whatever the
      order in which the default tags were appended, exactly when: keys are
      distinct and set with set values, no key is "aws:" or a system key, and
      every default key the list lacks is a system key. */
  lemma EnsureThenFilter(tags: seq<Tag>, defaults: Tags, systemTags: seq<string>, rest: seq<string>)
    requires EnsureOrder(tags, defaults, rest)
    ensures Filtered(Ensured(tags, defaults, rest), systemTags) == tags <==> Untouched(tags, defaults, systemTags)
  {
    var ensured := Ensured(tags, defaults, rest);
    EnsuredContents(tags, defaults, rest);
    CanonicalFixed(ensured);
    if Untouched(tags, defaults, systemTags) {
      UntouchedSurvives(tags, defaults, systemTags, rest);
    }
    if Filtered(ensured, systemTags) == tags {
      FilteredContents(ensured, systemTags);
      assert forall k :: k in ToAck(tags) <==> k in defaults + ToAck(tags) && !IsSystem(k, systemTags);
    }
  }

  lemma FilteredContents(tags: seq<Tag>, systemTags: seq<string>)
    ensures Canonical(Filtered(tags, systemTags))
    ensures ToAck(Filtered(tags, systemTags)) == Restrict(ToAck(tags), NotSystem(systemTags))
  {
    var p := NotSystem(systemTags);
    var m, order := ToAck(tags), KeyOrder(tags);
    KeepOrdered(m, order, p);
    OrderedCanonical(Restrict(m, p), order);
    OrderedRoundTrip(Restrict(m, p), order);
    KeyOrderElements(tags);
    assert forall k :: k in order <==> k in Elements(order);
  }

  lemma MirroredContents(desired: seq<Tag>, latest: seq<Tag>, rest: seq<string>)
    requires MirrorOrder(desired, latest, rest)
    ensures Canonical(Mirrored(desired, latest, rest))
    ensures ToAck(Mirrored(desired, latest, rest)) == WithAwsTags(ToAck(desired), ToAck(latest))
    ensures MirroredFrom(desired, latest, Mirrored(desired, latest, rest))
  {
    var m, order := WithAwsTags(ToAck(desired), ToAck(latest)), KeyOrder(desired);
    FromAckCanonical(m, order, rest);
    FromAckRoundTrip(m, order, rest);
  }

  /** What mirroring appends are "aws:" tags of the latest. */
  lemma MirrorAppendsAws(desired: seq<Tag>, latest: seq<Tag>, rest: seq<string>)
    requires MirrorOrder(desired, latest, rest)
    ensures forall k | k in rest :: IsAws(k) && k in ToAck(latest)
  {
    KeyOrderElements(desired);
    forall k | k in rest ensures IsAws(k) && k in ToAck(latest) {
      assert k in Elements(rest);
    }
  }

  /** Mirroring leaves the tags a filter without "aws:" keys lets through with the
      values and in the order the user gave them. */
  lemma MirrorKeepsFiltered(desired: seq<Tag>, latest: seq<Tag>, rest: seq<string>, p: string -> bool)
    requires MirrorOrder(desired, latest, rest) && forall k | IsAws(k) :: !p(k)
    ensures Keep(Mirrored(desired, latest, rest), p) == Keep(Normal(desired), p)
  {
    var d, m, order := ToAck(desired), WithAwsTags(ToAck(desired), ToAck(latest)), KeyOrder(desired);
    MirrorAppendsAws(desired, latest, rest);
    assert Restrict(m, p) == Restrict(d, p);
    KeepOrdered(m, order, p);
    KeepOrdered(d, order, p);
    KeepConcat(Ordered(m, order), Listing(m, rest), p);
    KeepNone(Listing(m, rest), p);
  }

  /** So the tags that are not "aws:" are left as they were. */
  lemma MirrorKeepsUserTags(desired: seq<Tag>, latest: seq<Tag>, rest: seq<string>)
    requires MirrorOrder(desired, latest, rest)
    ensures Keep(Mirrored(desired, latest, rest), NotAws()) == Keep(Normal(desired), NotAws())
    ensures Canonical(desired) ==> Keep(Mirrored(desired, latest, rest), NotAws()) == Keep(desired, NotAws())
  {
    MirrorKeepsFiltered(desired, latest, rest, NotAws());
    NormalFixedIffCanonical(desired);
  }

  /** The three steps in a row, whatever "aws:" tags were mirrored and in whatever
      order tags were appended: the filter gives the user's list back exactly under
      the condition for EnsureTags alone. */
  lemma PipelineKeepsList(tags: seq<Tag>, defaults: Tags, systemTags: seq<string>, latest: seq<Tag>,
                          appended: seq<string>, mirrored: seq<string>)
    requires EnsureOrder(tags, defaults, appended) && MirrorOrder(Ensured(tags, defaults, appended), latest, mirrored)
    ensures Filtered(Mirrored(Ensured(tags, defaults, appended), latest, mirrored), systemTags) == tags
       <==> Untouched(tags, defaults, systemTags)
  {
    var ensured := Ensured(tags, defaults, appended);
    MirroredContents(ensured, latest, mirrored);
    CanonicalFixed(Mirrored(ensured, latest, mirrored));
    MirrorKeepsFiltered(ensured, latest, mirrored, NotSystem(systemTags));
    EnsureThenFilter(tags, defaults, systemTags, appended);
  }
}
