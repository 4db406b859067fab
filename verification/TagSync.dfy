/** pkg/util/tags.go: the two-call tag sync, and what any number of attempts,
    failing anywhere, can do to the tags of the backend. */
module TagSync {
  import opened Wrappers
  import opened Api
  import opened AckTags
  import opened TagMaps
  import opened SortedKeys
  import opened Service

  // ---------- the difference of two maps ----------

  /** GetTagsDifference: a key whose value changed counts as added only. */
  function Added(from: Tags, to: Tags): Tags {
    map k | k in to && !(k in from && from[k] == to[k]) :: to[k]
  }

  function Removed(from: Tags, to: Tags): Tags {
    map k | k in from && k !in to :: from[k]
  }

  function Lookup(m: Tags, k: string): Option<string> {
    if k in m then Some(m[k]) else None
  }

  ghost function Disagreeing(a: Tags, b: Tags): set<string> {
    set k | k in a.Keys + b.Keys && Lookup(a, k) != Lookup(b, k)
  }

  // ---------- SyncResourceTags as a function ----------

  datatype SyncOutcome = SyncOutcome(untag: Option<Error>, tag: Option<Error>)

  datatype SyncResult = SyncResult(tags: Tags, requests: seq<Request>, error: Option<Error>)

  ghost function UntagRequest(arn: string, removed: Tags): Request {
    UntagResource(arn, Sorted(removed.Keys))
  }

  ghost function TagRequest(arn: string, added: Tags): Request {
    TagResource(arn, SdkListing(added, Sorted(added.Keys)))
  }

  ghost function UntagPhase(arn: string, tags: Tags, removed: Tags, e: Option<Error>): SyncResult {
    if removed == map[] then SyncResult(tags, [], None)
    else SyncResult(if e.Some? then tags else tags - removed.Keys, [UntagRequest(arn, removed)], e)
  }

  ghost function TagPhase(arn: string, tags: Tags, added: Tags, e: Option<Error>): SyncResult {
    if added == map[] then SyncResult(tags, [], None)
    else SyncResult(if e.Some? then tags else tags + added, [TagRequest(arn, added)], e)
  }

  /** Backend tags `tags`, brought from what was read (`latest`) to `desired`. */
  ghost function Sync(arn: string, tags: Tags, latest: Tags, desired: Tags, o: SyncOutcome): SyncResult {
    var u := UntagPhase(arn, tags, Removed(latest, desired), o.untag);
    if u.error.Some? then u
    else
      var t := TagPhase(arn, u.tags, Added(latest, desired), o.tag);
      SyncResult(t.tags, u.requests + t.requests, t.error)
  }

  lemma DifferenceExact(from: Tags, to: Tags)
    ensures Added(from, to) == map[] && Removed(from, to) == map[] <==> from == to
    ensures from - Removed(from, to).Keys + Added(from, to) == to
  {
    var added, removed := Added(from, to), Removed(from, to);
    if added == map[] && removed == map[] {
      forall k ensures Lookup(from, k) == Lookup(to, k) {
        assert k !in added && k !in removed;
      }
      assert forall k :: (k in from <==> k in to) by {
        forall k ensures k in from <==> k in to { assert Lookup(from, k) == Lookup(to, k); }
      }
      assert forall k | k in from :: Lookup(from, k) == Lookup(to, k);
    }
  }

  lemma {:induction false} ApplyListing(tags: Tags, added: Tags, keys: seq<string>)
    requires forall k | k in keys :: k in added
    ensures ApplyTags(tags, SdkListing(added, keys)) == tags + map k | k in keys :: added[k]
    decreases |keys|
  {
    if keys != [] {
      var k, tail := keys[0], keys[1..];
      assert keys == [k] + tail;
      assert SdkListing(added, keys)[1..] == SdkListing(added, tail);
      ApplyListing(tags[k := added[k]], added, tail);
    }
  }

  method ToACKTags(tags: seq<Tag>) returns (m: Tags)
    ensures m == ToAck(tags)
  {
    m := map[];
    for i := 0 to |tags|
      invariant m == ToAck(tags[..i])
    {
      var t := tags[i];
      assert tags[..i + 1][..i] == tags[..i];
      if t.Nil? || t.key.None? {
        continue;
      }
      var v := "";
      if t.value.Some? {
        v := t.value.value;
      }
      m := m[t.key.value := v];
    }
    assert tags[..|tags|] == tags;
  }

  method SdkTagsFromResourceTags(rTags: seq<Tag>) returns (result: seq<SdkTag>)
    requires NoNil(rTags)
    ensures |result| == |rTags|
    ensures forall i | 0 <= i < |rTags| :: result[i] == SdkTag(rTags[i].key, rTags[i].value)
  {
    var tags := new SdkTag[|rTags|](_ => SdkTag(None, None));
    for i := 0 to |rTags|
      invariant forall j | 0 <= j < i :: tags[j] == SdkTag(rTags[j].key, rTags[j].value)
    {
      tags[i] := SdkTag(rTags[i].key, rTags[i].value);
    }
    result := tags[..];
  }

  /** GetResourceTags: the backend's tags as a list of the custom resource, in the
      order in which the service lists them. */
  method GetResourceTags(client: Client, arn: string, o: Outcome) returns (r: Result<seq<Tag>, Error>, ghost listing: seq<SdkTag>)
    modifies client`requests
    ensures client.requests == old(client.requests) + [ListTags(arn)]
    ensures var e := CallError(client.machine, Some(arn), o);
            if e.Some? then r == Err(e.value)
            else && r.Ok? && ListsTags(listing, client.machine.value.tags)
                 && |r.value| == |listing|
                 && (forall i | 0 <= i < |listing| :: r.value[i] == Tag(listing[i].key, listing[i].value))
                 && Canonical(r.value) && ToAck(r.value) == client.machine.value.tags
  {
    var response := client.ListTagsForResource(Some(arn), o);
    if response.Err? {
      return Err(response.error), [];
    }
    var tags: seq<Tag> := [];
    for i := 0 to |response.value|
      invariant |tags| == i
      invariant forall j | 0 <= j < i :: tags[j] == Tag(response.value[j].key, response.value[j].value)
    {
      tags := tags + [Tag(response.value[i].key, response.value[i].value)];
    }
    ghost var m := client.machine.value.tags;
    ghost var rest: seq<string> :| Enumerates(rest, m.Keys) && (forall k | k in rest :: k in m) && response.value == SdkListing(m, rest);
    ListingContents(m, rest, tags);
    return Ok(tags), response.value;
  }

  lemma ListingContents(m: Tags, rest: seq<string>, tags: seq<Tag>)
    requires Enumerates(rest, m.Keys) && forall k | k in rest :: k in m
    requires |tags| == |rest| && forall i | 0 <= i < |rest| :: tags[i] == MakeTag(rest[i], m[rest[i]])
    ensures Canonical(tags) && ToAck(tags) == m
  {
    assert tags == Listing(m, rest);
    WholeListing(m, rest);
  }

  ghost function OutcomeFor(machine: Option<Machine>, arn: string, untag: Outcome, tag: Outcome): SyncOutcome {
    SyncOutcome(CallError(machine, Some(arn), untag), CallError(machine, Some(arn), tag))
  }

  function TagsOf(machine: Option<Machine>): Tags {
    if machine.Some? then machine.value.tags else map[]
  }

  function WithTags(machine: Option<Machine>, tags: Tags): Option<Machine> {
    if machine.Some? then Some(machine.value.(tags := tags)) else None
  }

  /** The first half of SyncResourceTags: untag what is no longer desired. */
  method UntagRemoved(client: Client, arn: string, removed: Tags, untag: Outcome) returns (err: Option<Error>)
    modifies client
    ensures var m := old(client.machine);
            var u := UntagPhase(arn, TagsOf(m), removed, CallError(m, Some(arn), untag));
            && err == u.error
            && client.requests == old(client.requests) + u.requests
            && client.machine == WithTags(m, u.tags)
  {
    if |removed| > 0 {
      var keys := SortKeys(removed.Keys);
      assert Elements(keys) == removed.Keys;
      err := client.UntagResource(Some(arn), keys, untag);
      return;
    }
    return None;
  }

  /** The second half: list the added tags in key order and write them. */
  method TagAdded(client: Client, arn: string, added: Tags, tag: Outcome) returns (err: Option<Error>)
    modifies client
    ensures var m := old(client.machine);
            var t := TagPhase(arn, TagsOf(m), added, CallError(m, Some(arn), tag));
            && err == t.error
            && client.requests == old(client.requests) + t.requests
            && client.machine == WithTags(m, t.tags)
  {
    if |added| > 0 {
      var addedTags: seq<Tag> := [];
      var keys := SortKeys(added.Keys);
      for i := 0 to |keys|
        invariant |addedTags| == i
        invariant forall j | 0 <= j < i :: keys[j] in added && addedTags[j] == MakeTag(keys[j], added[keys[j]])
      {
        assert keys[i] in added.Keys;
        addedTags := addedTags + [Tag(Some(keys[i]), Some(added[keys[i]]))];
      }
      var written := SdkTagsFromResourceTags(addedTags);
      assert written == SdkListing(added, keys);
      ApplyListing(TagsOf(client.machine), added, keys);
      assert added == map k | k in keys :: added[k];
      err := client.TagResource(Some(arn), written, tag);
      return;
    }
    return None;
  }

  method SyncResourceTags(client: Client, arn: string, latestTags: seq<Tag>, desiredTags: seq<Tag>,
                          untag: Outcome, tag: Outcome)
    returns (err: Option<Error>)
    modifies client
    ensures var m := old(client.machine);
            var s := Sync(arn, TagsOf(m), ToAck(latestTags), ToAck(desiredTags), OutcomeFor(m, arn, untag, tag));
            && err == s.error
            && client.requests == old(client.requests) + s.requests
            && client.machine == WithTags(m, s.tags)
  {
    var latest := ToACKTags(latestTags);
    var desired := ToACKTags(desiredTags);
    var added, removed := Added(latest, desired), Removed(latest, desired);
    if |added| == 0 && |removed| == 0 {
      assert added == map[] && removed == map[];
      return None;
    }
    err := UntagRemoved(client, arn, removed, untag);
    if err.Some? {
      return;
    }
    err := TagAdded(client, arn, added, tag);
  }

  // ---------- requests ----------

  function NamedKeys(r: Request): seq<string> {
    match r
    case UntagResource(_, keys) => keys
    case TagResource(_, tags) => seq(|tags|, i requires 0 <= i < |tags| => if tags[i].key.Some? then tags[i].key.value else "")
    case _ => []
  }

  /** A request names its keys once each in increasing order; it untags only keys
      that are read and not desired, and tags only keys that disagree, with
      their desired value. */
  ghost predicate Sound(r: Request, latest: Tags, desired: Tags) {
    && StrictlySorted(NamedKeys(r))
    && (forall k | k in NamedKeys(r) :: Lookup(latest, k) != Lookup(desired, k))
    && (r.UntagResource? || r.TagResource?)
    && (r.UntagResource? ==> forall k :: k in r.keys <==> k in latest && k !in desired)
    && (r.TagResource? ==> forall i | 0 <= i < |r.tags| ::
          r.tags[i].key.Some? && r.tags[i].key.value in desired && r.tags[i].value == Some(desired[r.tags[i].key.value]))
  }

  lemma RequestsSound(arn: string, latest: Tags, desired: Tags)
    ensures Sound(UntagRequest(arn, Removed(latest, desired)), latest, desired)
    ensures Sound(TagRequest(arn, Added(latest, desired)), latest, desired)
  {
    var added, removed := Added(latest, desired), Removed(latest, desired);
    var keys := Sorted(added.Keys);
    assert NamedKeys(TagRequest(arn, added)) == keys;
    assert NamedKeys(UntagRequest(arn, removed)) == Sorted(removed.Keys);
    forall i | 0 <= i < |keys| ensures keys[i] in desired && added[keys[i]] == desired[keys[i]] {
      assert keys[i] in added.Keys;
    }
  }

  /** A request is issued exactly when the two maps differ, whatever fails, and
      every request is sound. */
  lemma RequestsExact(arn: string, tags: Tags, latest: Tags, desired: Tags, o: SyncOutcome)
    ensures Sync(arn, tags, latest, desired, o).requests == [] <==> latest == desired
    ensures forall r | r in Sync(arn, tags, latest, desired, o).requests :: Sound(r, latest, desired)
  {
    DifferenceExact(latest, desired);
    RequestsSound(arn, latest, desired);
    RequestsAre(arn, tags, latest, desired, o);
  }

  lemma RequestsAre(arn: string, tags: Tags, latest: Tags, desired: Tags, o: SyncOutcome)
    ensures forall r | r in Sync(arn, tags, latest, desired, o).requests ::
              r == UntagRequest(arn, Removed(latest, desired)) || r == TagRequest(arn, Added(latest, desired))
    ensures Sync(arn, tags, latest, desired, o).requests == [] <==> Added(latest, desired) == map[] && Removed(latest, desired) == map[]
  {
  }

  /** Read and not desired. */
  ghost predicate Stale(latest: Tags, desired: Tags, k: string) {
    k in latest && k !in desired
  }

  /** Desired, and not read with that value. */
  ghost predicate Wanted(latest: Tags, desired: Tags, k: string) {
    k in desired && !(k in latest && latest[k] == desired[k])
  }

  /** The untag call fails when one is made. */
  ghost predicate Stopped(latest: Tags, desired: Tags, o: SyncOutcome) {
    o.untag.Some? && exists k :: Stale(latest, desired, k)
  }

  /** The calls of a sync: all stale keys are untagged first, in one call, and when
      that fails it is the only one; then all wanted tags are written, in one call. */
  ghost predicate UntagsThenTags(arn: string, latest: Tags, desired: Tags, o: SyncOutcome, requests: seq<Request>, error: Option<Error>) {
    var untags := exists k :: Stale(latest, desired, k);
    var writes := !Stopped(latest, desired, o) && exists k :: Wanted(latest, desired, k);
    && |requests| == (if untags then 1 else 0) + (if writes then 1 else 0)
    && (untags ==> Untags(arn, latest, desired, requests[0]))
    && (writes ==> Writes(arn, latest, desired, requests[|requests| - 1]))
    && error == if Stopped(latest, desired, o) then o.untag else if writes then o.tag else None
  }

  ghost predicate Untags(arn: string, latest: Tags, desired: Tags, r: Request) {
    && r.UntagResource? && r.arn == arn
    && forall k :: k in r.keys <==> Stale(latest, desired, k)
  }

  ghost predicate Writes(arn: string, latest: Tags, desired: Tags, r: Request) {
    && r.TagResource? && r.arn == arn
    && forall k, v :: SdkTag(Some(k), Some(v)) in r.tags <==> Wanted(latest, desired, k) && v == desired[k]
  }

  /** What a sync leaves: the old tags when the untag call failed; otherwise the
      stale keys are gone, also when the write fails, and the wanted tags are there
      unless it does. */
  ghost predicate Leaves(tags: Tags, latest: Tags, desired: Tags, o: SyncOutcome, after: Tags) {
    if Stopped(latest, desired, o) then after == tags
    else forall k ::
      Lookup(after, k) == if Stale(latest, desired, k) then None
                          else if Wanted(latest, desired, k) && o.tag.None? then Some(desired[k])
                          else Lookup(tags, k)
  }

  lemma UntagRequestMeaning(arn: string, latest: Tags, desired: Tags)
    ensures Untags(arn, latest, desired, UntagRequest(arn, Removed(latest, desired)))
    ensures Removed(latest, desired) != map[] <==> exists k :: Stale(latest, desired, k)
  {
    var removed := Removed(latest, desired);
    assert forall k :: k in removed <==> Stale(latest, desired, k);
    if removed != map[] {
      var k :| k in removed;
    }
  }

  lemma TagRequestMeaning(arn: string, latest: Tags, desired: Tags)
    ensures Writes(arn, latest, desired, TagRequest(arn, Added(latest, desired)))
    ensures Added(latest, desired) != map[] <==> exists k :: Wanted(latest, desired, k)
  {
    var added := Added(latest, desired);
    assert forall k :: k in added <==> Wanted(latest, desired, k);
    if added != map[] {
      var k :| k in added;
    }
    var keys := Sorted(added.Keys);
    var written := TagRequest(arn, added).tags;
    forall k, v ensures SdkTag(Some(k), Some(v)) in written <==> Wanted(latest, desired, k) && v == desired[k] {
      if k in added && v == added[k] {
        var i :| 0 <= i < |keys| && keys[i] == k;
        assert written[i] == SdkTag(Some(k), Some(v));
      }
    }
  }

  /** The order of the calls, and what is left when one fails. */
  lemma SyncOrder(arn: string, tags: Tags, latest: Tags, desired: Tags, o: SyncOutcome)
    ensures var s := Sync(arn, tags, latest, desired, o);
            UntagsThenTags(arn, latest, desired, o, s.requests, s.error) && Leaves(tags, latest, desired, o, s.tags)
  {
    UntagRequestMeaning(arn, latest, desired);
    TagRequestMeaning(arn, latest, desired);
    SyncLeaves(arn, tags, latest, desired, o);
  }

  lemma SyncLeaves(arn: string, tags: Tags, latest: Tags, desired: Tags, o: SyncOutcome)
    ensures Leaves(tags, latest, desired, o, Sync(arn, tags, latest, desired, o).tags)
  {
    var removed, added := Removed(latest, desired), Added(latest, desired);
    assert Stopped(latest, desired, o) <==> o.untag.Some? && removed != map[] by {
      UntagRequestMeaning(arn, latest, desired);
    }
    var kept := tags - removed.Keys;
    var after := Sync(arn, tags, latest, desired, o).tags;
    assert removed == map[] ==> kept == tags;
    assert added == map[] ==> kept + added == kept;
    if !Stopped(latest, desired, o) {
      assert after == if o.tag.None? then kept + added else kept;
      KeysLeft(tags, latest, desired, kept, added);
    }
  }

  lemma KeysLeft(tags: Tags, latest: Tags, desired: Tags, kept: Tags, added: Tags)
    requires kept == tags - Removed(latest, desired).Keys && added == Added(latest, desired)
    ensures forall k :: Lookup(kept, k) == if Stale(latest, desired, k) then None else Lookup(tags, k)
    ensures forall k :: Lookup(kept + added, k) == if Stale(latest, desired, k) then None
                                                   else if Wanted(latest, desired, k) then Some(desired[k]) else Lookup(tags, k)
  {
  }

  /** Lists that are permutations of lists with distinct keys give the same requests. */
  lemma RequestsIgnoreOrder(arn: string, tags: Tags, latest: seq<Tag>, latest': seq<Tag>,
                            desired: seq<Tag>, desired': seq<Tag>, o: SyncOutcome)
    requires multiset(latest) == multiset(latest') && multiset(desired) == multiset(desired')
    requires forall i, j | 0 <= i < j < |latest| && Keyed(latest[i]) && Keyed(latest[j]) :: latest[i].key != latest[j].key
    requires forall i, j | 0 <= i < j < |desired| && Keyed(desired[i]) && Keyed(desired[j]) :: desired[i].key != desired[j].key
    ensures Sync(arn, tags, ToAck(latest), ToAck(desired), o) == Sync(arn, tags, ToAck(latest'), ToAck(desired'), o)
  {
    PermutationKeepsMap(latest, latest');
    PermutationKeepsMap(desired, desired');
  }

  /** When the desired tags carry the "aws:" tags of the latest, no request names one. */
  lemma AwsTagsNeverNamed(arn: string, tags: Tags, latest: Tags, user: Tags, o: SyncOutcome)
    ensures var s := Sync(arn, tags, latest, WithAwsTags(user, latest), o);
            && (forall r, k | r in s.requests && k in NamedKeys(r) :: !(IsAws(k) && k in latest))
            && (forall k | IsAws(k) && k in latest :: Lookup(s.tags, k) == Lookup(tags, k))
  {
    var desired := WithAwsTags(user, latest);
    RequestsExact(arn, tags, latest, desired, o);
    forall k | IsAws(k) && k in latest
      ensures Lookup(latest, k) == Lookup(desired, k) && k !in Added(latest, desired) && k !in Removed(latest, desired)
    {
    }
  }

  // ---------- one attempt on fresh tags ----------

  ghost function Attempt(arn: string, tags: Tags, desired: Tags, o: SyncOutcome): SyncResult {
    Sync(arn, tags, tags, desired, o)
  }

  /** Each key keeps its value or takes the desired one, so agreement never
      shrinks; the attempt succeeds exactly when no call it makes fails, and then
      the tags are the desired ones. */
  lemma AttemptStep(arn: string, tags: Tags, desired: Tags, o: SyncOutcome)
    ensures var s := Attempt(arn, tags, desired, o);
            && (forall k :: Lookup(s.tags, k) == Lookup(tags, k) || Lookup(s.tags, k) == Lookup(desired, k))
            && Disagreeing(s.tags, desired) <= Disagreeing(tags, desired)
            && (s.error.None? ==> s.tags == desired)
            && (o == SyncOutcome(None, None) ==> s.error.None?)
            && (tags == desired ==> s == SyncResult(tags, [], None))
  {
    DifferenceExact(tags, desired);
    var added, removed := Added(tags, desired), Removed(tags, desired);
    var s := Attempt(arn, tags, desired, o);
    assert removed == map[] ==> tags - removed.Keys == tags;
    assert added == map[] ==> tags - removed.Keys + added == tags - removed.Keys;
    assert s.tags == tags || s.tags == tags - removed.Keys || s.tags == desired;
  }

  // ---------- any sequence of attempts ----------

  ghost function After(arn: string, tags: Tags, desired: Tags, os: seq<SyncOutcome>): Tags
    decreases |os|
  {
    if os == [] then tags
    else After(arn, Attempt(arn, tags, desired, os[0]).tags, desired, os[1..])
  }

  ghost function NthAttempt(arn: string, tags: Tags, desired: Tags, os: seq<SyncOutcome>, i: nat): SyncResult
    requires i < |os|
  {
    Attempt(arn, After(arn, tags, desired, os[..i]), desired, os[i])
  }

  lemma {:induction false} AfterSnoc(arn: string, tags: Tags, desired: Tags, os: seq<SyncOutcome>, o: SyncOutcome)
    ensures After(arn, tags, desired, os + [o]) == Attempt(arn, After(arn, tags, desired, os), desired, o).tags
    decreases |os|
  {
    if os == [] {
      assert After(arn, tags, desired, [o]) == Attempt(arn, tags, desired, o).tags;
    } else {
      assert (os + [o])[1..] == os[1..] + [o];
      AfterSnoc(arn, Attempt(arn, tags, desired, os[0]).tags, desired, os[1..], o);
    }
  }

  /** Through any run of attempts every key holds its old or its desired value,
      and the set of disagreeing keys only shrinks. */
  lemma {:induction false} SyncNeverDrifts(arn: string, tags: Tags, desired: Tags, os: seq<SyncOutcome>)
    ensures forall k :: Lookup(After(arn, tags, desired, os), k) == Lookup(tags, k)
                     || Lookup(After(arn, tags, desired, os), k) == Lookup(desired, k)
    ensures Disagreeing(After(arn, tags, desired, os), desired) <= Disagreeing(tags, desired)
    ensures tags == desired ==> After(arn, tags, desired, os) == desired
    decreases |os|
  {
    if os != [] {
      AttemptStep(arn, tags, desired, os[0]);
      SyncNeverDrifts(arn, Attempt(arn, tags, desired, os[0]).tags, desired, os[1..]);
    }
  }

  lemma {:induction false} AfterSplit(arn: string, tags: Tags, desired: Tags, os: seq<SyncOutcome>, i: nat)
    requires i <= |os|
    ensures After(arn, tags, desired, os) == After(arn, After(arn, tags, desired, os[..i]), desired, os[i..])
    decreases |os|
  {
    if i == 0 {
      assert os[..0] == [] && os[0..] == os;
    } else {
      assert os[..i][1..] == os[1..][..i - 1] && os[i..] == os[1..][i - 1..];
      AfterSplit(arn, Attempt(arn, tags, desired, os[0]).tags, desired, os[1..], i - 1);
    }
  }

  lemma SuccessReachesDesired(arn: string, tags: Tags, desired: Tags, os: seq<SyncOutcome>, i: nat)
    requires i < |os| && NthAttempt(arn, tags, desired, os, i).error.None?
    ensures After(arn, tags, desired, os[..i + 1]) == desired
  {
    AttemptStep(arn, After(arn, tags, desired, os[..i]), desired, os[i]);
    assert os[..i + 1] == os[..i] + [os[i]];
    AfterSnoc(arn, tags, desired, os[..i], os[i]);
  }

  /** From the first successful attempt on the backend holds the desired tags and
      every later attempt, whatever would fail, makes no call. */
  lemma SyncConverges(arn: string, tags: Tags, desired: Tags, os: seq<SyncOutcome>, i: nat, j: nat)
    requires i < j <= |os|
    requires NthAttempt(arn, tags, desired, os, i).error.None?
    ensures After(arn, tags, desired, os[..j]) == desired
    ensures j < |os| ==> NthAttempt(arn, tags, desired, os, j) == SyncResult(desired, [], None)
  {
    SuccessReachesDesired(arn, tags, desired, os, i);
    assert os[..j][..i + 1] == os[..i + 1];
    AfterSplit(arn, tags, desired, os[..j], i + 1);
    SyncNeverDrifts(arn, desired, desired, os[..j][i + 1..]);
    if j < |os| {
      AttemptStep(arn, desired, desired, os[j]);
    }
  }
}
