/** The resource manager of the StateMachine kind: read, create and update against
    the service, with the version-publish bookkeeping
    (pkg/resource/state_machine/{hooks,sdk,manager}.go). */
module Manager {
  import opened Wrappers
  import opened Api
  import opened AckTags
  import opened SortedKeys
  import opened TagMaps
  import opened TagPipeline
  import opened TagSync
  import opened Payloads
  import opened Service
  import Delta
  import Conditions

  /** Where the manager works; it completes the metadata of every resource. */
  datatype Identity = Identity(region: string, partition: string, accountId: string)

  datatype ReadOutcome = ReadOutcome(describe: Outcome, list: Outcome, probe: Outcome)
  datatype UpdateOutcome = UpdateOutcome(untag: Outcome, tag: Outcome, update: Outcome)

  // ---------- the steps as functions of values ----------

  /** Members that are set stay; the others take the manager's own values. */
  function CompleteMetadata(id: Identity, metadata: Option<Metadata>): Metadata {
    var md := if metadata.Some? then metadata.value else Metadata(None, None, None, None);
    md.(region := if md.region.Some? then md.region else Some(id.region),
        partition := if md.partition.Some? then md.partition else Some(id.partition),
        ownerAccountId := if md.ownerAccountId.Some? then md.ownerAccountId else Some(id.accountId))
  }

  function WithDefaults(id: Identity, s: Status): Status {
    s.(metadata := Some(CompleteMetadata(id, s.metadata)))
  }

  /** A version is probed only when the user versions and one is recorded. */
  predicate Probes(r: Resource) {
    IsTrue(r.spec.publish) && r.status.versionArn.Some?
  }

  /** The recorded version is dropped exactly when the probe was answered with
      "does not exist". */
  function ClearDeleted(r: Resource, machine: Option<Machine>, probe: Outcome): Resource {
    if Probes(r) && VersionError(machine, r.status.versionArn.value, probe) == Some(MISSING)
    then r.(status := r.status.(versionArn := None))
    else r
  }

  /** What sdkFind makes of `r` when the service lists its tags as `listed`. */
  function Find(id: Identity, r: Resource, machine: Option<Machine>, o: ReadOutcome, listed: seq<Tag>): Result<Resource, Error> {
    if ArnOf(r.status).None? then Err(NotFound)
    else
      var described := CallError(machine, ArnOf(r.status), o.describe);
      if described.Some? then Err(if IsMissing(described.value) then NotFound else described.value)
      else
        var resp := Describe(machine.value);
        var status := r.status.(creationDate := resp.creationDate,
                                revisionId := resp.revisionId,
                                metadata := Some(WithArn(r.status.metadata, resp.stateMachineArn)));
        var tagError := CallError(machine, resp.stateMachineArn, o.list);
        if tagError.Some? then Err(tagError.value)
        else Ok(ClearDeleted(Resource(ReadBack(r.spec, resp).(tags := listed), WithDefaults(id, status)), machine, o.probe))
  }

  /** The calls a read makes: it stops at the first that fails, and probes a version
      only when versions are wanted and one is recorded. */
  function ReadRequests(r: Resource, machine: Option<Machine>, o: ReadOutcome): seq<Request> {
    var arn := ArnOf(r.status);
    if arn.None? then []
    else if CallError(machine, arn, o.describe).Some? then [DescribeStateMachine(arn.value)]
    else if CallError(machine, arn, o.list).Some? || !Probes(r) then [DescribeStateMachine(arn.value), ListTags(arn.value)]
    else [DescribeStateMachine(arn.value), ListTags(arn.value), DescribeVersion(r.status.versionArn.value)]
  }

  ghost predicate IsListing(machine: Option<Machine>, listed: seq<Tag>) {
    machine.Some? ==> Canonical(listed) && ToAck(listed) == machine.value.tags
  }

  lemma SortedEnumerates(keys: set<string>)
    ensures Enumerates(Sorted(keys), keys)
  {
    var s := Sorted(keys);
    forall i, j | 0 <= i < j < |s| ensures s[i] != s[j] {
      LessIsStrict(s[i], s[j]);
    }
  }

  /** Some listing and some mirror order always exist. */
  lemma SomeListing(machine: Option<Machine>, tags: seq<Tag>) returns (listed: seq<Tag>, rest: seq<string>)
    ensures IsListing(machine, listed) && MirrorOrder(tags, listed, rest)
  {
    listed := [];
    if machine.Some? {
      var m := machine.value.tags;
      SortedEnumerates(m.Keys);
      listed := Listing(m, Sorted(m.Keys));
      ListingContents(m, Sorted(m.Keys), listed);
    }
    var keys := WithAwsTags(ToAck(tags), ToAck(listed)).Keys - Elements(KeyOrder(tags));
    SortedEnumerates(keys);
    rest := Sorted(keys);
  }

  datatype UpdateResult = UpdateResult(machine: Option<Machine>, requests: seq<Request>, result: Result<Resource, Error>)

  /** The tag half of customUpdateStateMachine. */
  ghost function SyncHalf(desired: Resource, latest: Resource, ds: seq<Delta.Path>, machine: Option<Machine>, o: UpdateOutcome): SyncResult
    requires ArnOf(desired.status).Some?
  {
    var arn := ArnOf(desired.status).value;
    if Delta.DifferentAtPath(ds, Delta.SPEC_TAGS)
    then Sync(arn, TagsOf(machine), ToAck(latest.spec.tags), ToAck(desired.spec.tags), OutcomeFor(machine, arn, o.untag, o.tag))
    else SyncResult(TagsOf(machine), [], None)
  }

  /** customUpdateStateMachine: tags first, then the configuration; the recorded
      version mirrors the response of the configuration update, absence included. */
  ghost function CustomUpdate(id: Identity, desired: Resource, latest: Resource, ds: seq<Delta.Path>,
                              machine: Option<Machine>, o: UpdateOutcome): UpdateResult
    requires ArnOf(desired.status).Some?
  {
    var s := SyncHalf(desired, latest, ds, machine, o);
    var m := WithTags(machine, s.tags);
    if s.error.Some? then UpdateResult(m, s.requests, Err(s.error.value))
    else if !Delta.DifferentExceptPath(ds, Delta.SPEC_TAGS) then
      UpdateResult(m, s.requests, Ok(desired.(status := WithDefaults(id, desired.status))))
    else
      var input := UpdatePayload(desired);
      var requests := s.requests + [Request.UpdateStateMachine(input)];
      var e := CallError(m, input.stateMachineArn, o.update);
      if e.Some? then UpdateResult(m, requests, Err(e.value))
      else
        var recorded := desired.status.(versionArn := UpdateAnswer(m.value, input).versionArn);
        UpdateResult(Some(Update(m.value, input)), requests, Ok(desired.(status := WithDefaults(id, recorded))))
  }

  /** The outcome of an update about the machine at hand, in terms of what it
      left behind: tags alone, or tags and the pushed configuration. */
  lemma CustomUpdateMeaning(id: Identity, desired: Resource, latest: Resource, ds: seq<Delta.Path>, m: Machine, o: UpdateOutcome)
    requires ArnOf(desired.status) == Some(m.arn)
    ensures var u, input := CustomUpdate(id, desired, latest, ds, Some(m), o), UpdatePayload(desired);
            var m1 := m.(tags := SyncHalf(desired, latest, ds, Some(m), o).tags);
            var pushed := u.result.Ok? && Delta.DifferentExceptPath(ds, Delta.SPEC_TAGS);
            && u.machine == Some(if pushed then Update(m1, input) else m1)
            && (u.result.Ok? ==>
                  && u.result.value.spec == desired.spec
                  && ArnOf(u.result.value.status) == Some(m.arn)
                  && u.result.value.status.versionArn == if pushed then UpdateAnswer(m1, input).versionArn else desired.status.versionArn)
  {
  }

  /** Unless the configuration call itself fails, a failed update never issued it. */
  lemma TagFailureStopsUpdate(id: Identity, desired: Resource, latest: Resource, ds: seq<Delta.Path>, m: Machine, o: UpdateOutcome)
    requires ArnOf(desired.status) == Some(m.arn)
    requires o.update.Answered? && CustomUpdate(id, desired, latest, ds, Some(m), o).result.Err?
    ensures forall r | r in CustomUpdate(id, desired, latest, ds, Some(m), o).requests :: r.UntagResource? || r.TagResource?
  {
  }

  /** What onError and onSuccess make of a resource. */
  function Noted(id: Identity, r: Resource, err: Option<Error>): Resource {
    if Conditions.Tracked(r.status.conditions) || err.Some?
    then r.(status := WithDefaults(id, r.status).(conditions := Conditions.Updated(r.status.conditions, err)))
    else r
  }

  /** Condition bookkeeping and defaults touch nothing the protocol reads. */
  lemma NotedKeeps(id: Identity, r: Resource, err: Option<Error>)
    ensures var n := Noted(id, r, err);
            n.spec == r.spec && n.status.versionArn == r.status.versionArn && ArnOf(n.status) == ArnOf(r.status)
  {
  }

  // ---------- what the steps mean, member by member ----------

  /** Members that are set stay; region, partition and account default to those the
      manager works in. */
  ghost predicate Completes(id: Identity, before: Option<Metadata>, after: Option<Metadata>) {
    && after.Some?
    && after.value.arn == (if before.Some? then before.value.arn else None)
    && after.value.region == (if before.Some? && before.value.region.Some? then before.value.region else Some(id.region))
    && after.value.partition == (if before.Some? && before.value.partition.Some? then before.value.partition else Some(id.partition))
    && after.value.ownerAccountId
       == if before.Some? && before.value.ownerAccountId.Some? then before.value.ownerAccountId else Some(id.accountId)
  }

  /** `after` is `before` with the outcome of a call told in its conditions and its
      metadata completed; a success with nothing to tell changes nothing. */
  ghost predicate Tells(id: Identity, before: Resource, after: Resource, err: Option<Error>) {
    && after.spec == before.spec
    && Conditions.Records(before.status.conditions, after.status.conditions, err)
    && if err.None? && forall c | c in before.status.conditions :: c.typ != Terminal && c.typ != Recoverable && c.typ != ResourceSynced
       then after == before
       else && Completes(id, before.status.metadata, after.status.metadata)
            && after.status == before.status.(conditions := after.status.conditions, metadata := after.status.metadata)
  }

  lemma TrackedIff(cs: seq<Condition>)
    ensures Conditions.Tracked(cs) <==> exists c :: c in cs && (c.typ == Terminal || c.typ == Recoverable || c.typ == ResourceSynced)
  {
    Conditions.FindMeaning(cs, Terminal);
    Conditions.FindMeaning(cs, Recoverable);
    Conditions.FindMeaning(cs, ResourceSynced);
  }

  lemma NotedTells(id: Identity, r: Resource, err: Option<Error>)
    ensures Tells(id, r, Noted(id, r, err), err)
  {
    TrackedIff(r.status.conditions);
    Conditions.UpdateRecords(r.status.conditions, err);
  }

  /** When a read succeeds, which error it reports otherwise, and everything the
      copy it returns has in its status; its specification is the one read back
      with the machine's tags. */
  lemma FindReports(id: Identity, r: Resource, machine: Option<Machine>, o: ReadOutcome, listed: seq<Tag>)
    ensures var found := Find(id, r, machine, o, listed);
            var there := machine.Some? && ArnOf(r.status) == Some(machine.value.arn);
            && (found.Ok? <==> there && o.describe.Answered? && o.list.Answered?)
            && (ArnOf(r.status).None? ==> found == Err(NotFound))
            && (ArnOf(r.status).Some? && o.describe.Failed? ==> found == Err(o.describe.fault))
            && (o.describe.Answered? && !there ==> found == Err(NotFound))
            && (there && o.describe.Answered? && o.list.Failed? ==> found == Err(o.list.fault))
            && (found.Ok? ==>
                  var m, s := machine.value, found.value.status;
                  && found.value.spec == ReadBack(r.spec, Describe(m)).(tags := listed)
                  && Completes(id, r.status.metadata, s.metadata)
                  && s == r.status.(creationDate := Some(m.creationDate), revisionId := Some(m.revision), metadata := s.metadata,
                                    versionArn := s.versionArn)
                  && s.versionArn == if && r.spec.publish.Some? && r.spec.publish.value && r.status.versionArn.Some?
                                        && o.probe.Answered? && r.status.versionArn.value !in m.live
                                     then None else r.status.versionArn)
  {
  }

  /** The calls of a read, one after another: each is made only when the one before
      it was answered, and the version is described only when versions are wanted
      and one is recorded. */
  lemma ReadCalls(r: Resource, machine: Option<Machine>, o: ReadOutcome)
    ensures var calls, arn := ReadRequests(r, machine, o), ArnOf(r.status);
            var there := machine.Some? && arn == Some(machine.value.arn);
            && |calls| <= 3
            && (|calls| >= 1 <==> arn.Some?)
            && (|calls| >= 2 <==> there && o.describe.Answered?)
            && (|calls| >= 3 <==> && there && o.describe.Answered? && o.list.Answered?
                                  && r.spec.publish.Some? && r.spec.publish.value && r.status.versionArn.Some?)
            && (|calls| >= 1 ==> calls[0] == DescribeStateMachine(arn.value))
            && (|calls| >= 2 ==> calls[1] == ListTags(arn.value))
            && (|calls| >= 3 ==> calls[2] == DescribeVersion(r.status.versionArn.value))
  {
  }

  /** When an update succeeds, which error it reports otherwise, which calls it
      makes in which order, and everything the resource it returns has in its status. */
  lemma UpdateReports(id: Identity, desired: Resource, latest: Resource, ds: seq<Delta.Path>, machine: Option<Machine>, o: UpdateOutcome)
    requires ArnOf(desired.status).Some?
    ensures var u, s := CustomUpdate(id, desired, latest, ds, machine, o), SyncHalf(desired, latest, ds, machine, o);
            var there := machine.Some? && ArnOf(desired.status) == Some(machine.value.arn);
            var others := Delta.DifferentExceptPath(ds, Delta.SPEC_TAGS);
            && (u.result.Ok? <==> s.error.None? && (others ==> there && o.update.Answered?))
            && (s.error.Some? ==> u.result == Err(s.error.value))
            && (s.error.None? && others && o.update.Failed? ==> u.result == Err(o.update.fault))
            && (s.error.None? && others && o.update.Answered? && !there ==> u.result == Err(MISSING))
            && u.requests == s.requests
                             + (if s.error.None? && others then [Request.UpdateStateMachine(UpdatePayload(desired))] else [])
            && (!Delta.DifferentAtPath(ds, Delta.SPEC_TAGS) ==> s.requests == [] && s.error.None?)
            && (u.result.Ok? ==>
                  var v := u.result.value;
                  && v.spec == desired.spec
                  && Completes(id, desired.status.metadata, v.status.metadata)
                  && v.status == desired.status.(metadata := v.status.metadata, versionArn := v.status.versionArn)
                  && (!others ==> v.status.versionArn == desired.status.versionArn)
                  && (others && !(desired.spec.publish.Some? && desired.spec.publish.value) ==> v.status.versionArn == None))
  {
  }

  /** Everything a successful create leaves in the resource. */
  lemma CreatedReports(id: Identity, r: Resource, m: Machine)
    ensures var c, before := Created(id, r, m), r.status.metadata;
            && c.spec == r.spec
            && c.status == r.status.(creationDate := Some(m.creationDate), metadata := c.status.metadata, versionArn := c.status.versionArn)
            && c.status.versionArn == (if r.spec.publish.Some? && r.spec.publish.value then m.current else None)
            && Completes(id, Some((if before.Some? then before.value else Metadata(None, None, None, None)).(arn := Some(m.arn))),
                         c.status.metadata)
  {
  }

  // ---------- the manager ----------

  class ResourceManager {
    const id: Identity
    const client: Client

    constructor (id: Identity, client: Client)
      ensures this.id == id && this.client == client
    {
      this.id, this.client := id, client;
    }

    method SetStatusDefaults(ko: StateMachine)
      modifies ko
      ensures ko.spec == old(ko.spec) && ko.status == WithDefaults(id, old(ko.status))
      ensures Completes(id, old(ko.status.metadata), ko.status.metadata)
    {
      if ko.status.metadata.None? {
        ko.status := ko.status.(metadata := Some(Metadata(None, None, None, None)));
      }
      if ko.status.metadata.value.region.None? {
        ko.status := ko.status.(metadata := Some(ko.status.metadata.value.(region := Some(id.region))));
      }
      if ko.status.metadata.value.partition.None? {
        ko.status := ko.status.(metadata := Some(ko.status.metadata.value.(partition := Some(id.partition))));
      }
      if ko.status.metadata.value.ownerAccountId.None? {
        ko.status := ko.status.(metadata := Some(ko.status.metadata.value.(ownerAccountId := Some(id.accountId))));
      }
    }

    method ClearDeletedVersionARN(ko: StateMachine, probe: Outcome)
      modifies ko, client`requests
      ensures ko.Value() == ClearDeleted(old(ko.Value()), client.machine, probe)
      ensures client.requests == old(client.requests)
                                 + if Probes(old(ko.Value())) then [DescribeVersion(old(ko.status).versionArn.value)] else []
    {
      if ko.spec.publish.None? || !ko.spec.publish.value || ko.status.versionArn.None? {
        return;
      }
      var err := client.DescribeVersion(ko.status.versionArn.value, probe);
      var versionGone := err.Some? && IsMissing(err.value);
      if versionGone {
        ko.status := ko.status.(versionArn := None);
      }
    }

    method SetResourceAdditionalFields(ko: StateMachine, list: Outcome, probe: Outcome) returns (err: Option<Error>)
      requires ArnOf(ko.status).Some?
      modifies ko, client`requests
      ensures err == CallError(client.machine, old(ArnOf(ko.status)), list)
      ensures client.requests == old(client.requests) + [ListTags(old(ArnOf(ko.status)).value)]
                                 + if err.None? && Probes(old(ko.Value())) then [DescribeVersion(old(ko.status).versionArn.value)] else []
      ensures err.None? ==>
                && IsListing(client.machine, ko.spec.tags)
                && ko.Value() == ClearDeleted(old(ko.Value()).(spec := old(ko.spec).(tags := ko.spec.tags)), client.machine, probe)
    {
      var tags, _ := GetResourceTags(client, ArnOf(ko.status).value, list);
      if tags.Err? {
        ko.spec := ko.spec.(tags := []);
        return Some(tags.error);
      }
      ko.spec := ko.spec.(tags := tags.value);
      ClearDeletedVersionARN(ko, probe);
      return None;
    }

    method SdkFind(r: StateMachine, o: ReadOutcome) returns (latest: StateMachine?, err: Option<Error>)
      modifies client`requests
      ensures client.requests == old(client.requests) + ReadRequests(r.Value(), client.machine, o)
      ensures latest != null <==> err.None?
      ensures latest != null ==>
                && fresh(latest) && IsListing(client.machine, latest.spec.tags)
                && Find(id, r.Value(), client.machine, o, latest.spec.tags) == Ok(latest.Value())
      ensures err.Some? ==> forall listed :: Find(id, r.Value(), client.machine, o, listed) == Err(err.value)
    {
      if r.status.metadata.None? || r.status.metadata.value.arn.None? {
        return null, Some(NotFound);
      }
      var resp := client.DescribeStateMachine(r.status.metadata.value.arn, o.describe);
      if resp.Err? {
        if IsMissing(resp.error) {
          return null, Some(NotFound);
        }
        return null, Some(resp.error);
      }
      var ko := r.DeepCopy();
      SetOutput(ko, resp.value);
      SetStatusDefaults(ko);
      err := SetResourceAdditionalFields(ko, o.list, o.probe);
      if err.Some? {
        return null, err;
      }
      return ko, None;
    }

    method SdkCreate(desired: StateMachine, o: Outcome, chosen: Chosen)
      returns (created: StateMachine?, err: Option<Error>)
      requires NoNil(desired.spec.tags)
      modifies client
      ensures client.requests == old(client.requests) + [Request.CreateStateMachine(CreatePayload(desired.spec))]
      ensures err == CreateError(old(client.machine), o)
      ensures err.Some? ==> created == null && client.machine == old(client.machine)
      ensures err.None? ==>
                && created != null && fresh(created)
                && client.machine == Some(Service.Create(CreatePayload(desired.spec), chosen))
                && created.Value() == Created(id, desired.Value(), client.machine.value)
    {
      var input := NewCreateRequestPayload(desired);
      var resp := client.CreateStateMachine(input, o, chosen);
      if resp.Err? {
        return null, Some(resp.error);
      }
      var ko := desired.DeepCopy();
      ko.status := ko.status.(creationDate := resp.value.creationDate);
      if ko.status.metadata.None? {
        ko.status := ko.status.(metadata := Some(Metadata(None, None, None, None)));
      }
      if resp.value.stateMachineArn.Some? {
        ko.status := ko.status.(metadata := Some(ko.status.metadata.value.(arn := resp.value.stateMachineArn)));
      }
      if resp.value.versionArn.Some? {
        ko.status := ko.status.(versionArn := resp.value.versionArn);
      } else {
        ko.status := ko.status.(versionArn := None);
      }
      SetStatusDefaults(ko);
      return ko, None;
    }

    method UpdateConditions(r: StateMachine, err: Option<Error>) returns (res: StateMachine?, updated: bool)
      ensures updated <==> Conditions.Tracked(r.status.conditions) || err.Some?
      ensures updated ==> res != null && fresh(res) && res.Value() == Noted(id, r.Value(), err)
      ensures !updated ==> res == null
    {
      var ko := r.DeepCopy();
      SetStatusDefaults(ko);
      var conditions;
      conditions, updated := Conditions.UpdateConditions(ko.status.conditions, err);
      ko.status := ko.status.(conditions := conditions);
      if updated {
        return ko, true;
      }
      return null, false;
    }

    /** The loop onError ends with. */
    method RaisesTerminal(conditions: seq<Condition>) returns (terminal: bool)
      ensures terminal <==> Conditions.Raised(conditions, Terminal)
    {
      for i := 0 to |conditions|
        invariant forall j | 0 <= j < i :: !(conditions[j].typ == Terminal && conditions[j].status == True)
      {
        if conditions[i].typ == Terminal && conditions[i].status == True {
          return true;
        }
      }
      return false;
    }

    /** The error is told in the conditions of a copy. Returns the terminal error exactly when a Terminal condition is raised
        afterwards, that is for a terminal error or a shadowed Terminal entry; with
        unique condition types, exactly for terminal errors. */
    method OnError(r: StateMachine?, err: Error) returns (res: StateMachine?, out: Error)
      ensures r == null ==> res == null && out == err
      ensures r != null ==>
                && res != null && res.Value() == Noted(id, r.Value(), Some(err))
                && Tells(id, r.Value(), res.Value(), Some(err))
                && out == (if Conditions.Raised(res.status.conditions, Terminal) then TerminalSentinel else err)
                && out == Conditions.Reported(r.status.conditions, err)
      ensures r != null && Conditions.Unique(r.status.conditions) ==>
                out == if err.SecretTypeNotSupported? || err.SecretNotFound? || err.TerminalError? then TerminalSentinel else err
    {
      if r == null {
        return null, err;
      }
      var r1, updated := UpdateConditions(r, Some(err));
      var terminal := RaisesTerminal(r1.status.conditions);
      NotedTells(id, r.Value(), Some(err));
      Conditions.ReportedMeaning(r.status.conditions, err);
      return r1, if terminal then TerminalSentinel else err;
    }

    method OnSuccess(r: StateMachine?) returns (res: StateMachine?)
      ensures r == null ==> res == null
      ensures r != null ==> res != null && res.Value() == Noted(id, r.Value(), None) && (res == r || fresh(res))
      ensures r != null ==> Tells(id, r.Value(), res.Value(), None)
    {
      if r == null {
        return null;
      }
      var r1, updated := UpdateConditions(r, None);
      NotedTells(id, r.Value(), None);
      if !updated {
        return r;
      }
      return r1;
    }

    /** The resource read keeps its recorded conditions up to date, and the
        resource asked for takes over the "aws:" tags that were read. */
    method ReadOne(r: StateMachine, o: ReadOutcome)
      returns (res: StateMachine, err: Option<Error>, ghost listed: seq<Tag>, ghost rest: seq<string>)
      requires NoNil(r.spec.tags)
      modifies r, client`requests
      ensures client.requests == old(client.requests) + ReadRequests(old(r.Value()), client.machine, o)
      ensures var found := Find(id, old(r.Value()), client.machine, o, listed);
              if found.Err? then
                && r.Value() == old(r.Value())
                && res.Value() == Noted(id, r.Value(), Some(found.error))
                && Tells(id, r.Value(), res.Value(), Some(found.error))
                && err == Some(Conditions.Reported(old(r.status.conditions), found.error))
              else
                && err.None? && IsListing(client.machine, listed)
                && MirrorOrder(old(r.spec.tags), listed, rest)
                && r.Value() == WithMirror(old(r.Value()), listed, rest)
                && res != r && res.Value() == Noted(id, found.value, None)
                && Tells(id, found.value, res.Value(), None)
    {
      var observed;
      observed, err := SdkFind(r, o);
      listed := if observed != null then observed.spec.tags else [];
      if observed != null {
        CanonicalNoNil(observed.spec.tags);
      }
      rest := MirrorAWSTags(r, observed);
      if err.Some? {
        var subject: StateMachine? := if observed != null then observed else r;
        var out;
        res, out := OnError(subject, err.value);
        return res, Some(out), listed, rest;
      }
      res := OnSuccess(observed);
    }

    method Create(r: StateMachine, o: Outcome, chosen: Chosen)
      returns (res: StateMachine, err: Option<Error>)
      requires NoNil(r.spec.tags)
      modifies client
      ensures client.requests == old(client.requests) + [Request.CreateStateMachine(CreatePayload(r.spec))]
      ensures var e := CreateError(old(client.machine), o);
              if e.Some? then
                && client.machine == old(client.machine)
                && res.Value() == Noted(id, r.Value(), e)
                && Tells(id, r.Value(), res.Value(), e)
                && err == Some(Conditions.Reported(r.status.conditions, e.value))
              else
                && client.machine == Some(Service.Create(CreatePayload(r.spec), chosen))
                && res.Value() == Noted(id, Created(id, r.Value(), client.machine.value), None) && err.None?
                && Tells(id, Created(id, r.Value(), client.machine.value), res.Value(), None)
    {
      var created;
      created, err := SdkCreate(r, o, chosen);
      if err.Some? {
        var subject: StateMachine? := if created != null then created else r;
        var out;
        res, out := OnError(subject, err.value);
        return res, Some(out);
      }
      res := OnSuccess(created);
    }

    method CustomUpdateStateMachine(desired: StateMachine, latest: StateMachine, delta: Delta.DeltaSet, o: UpdateOutcome)
      returns (updated: StateMachine?, err: Option<Error>)
      requires ArnOf(desired.status).Some?
      modifies desired, client
      ensures var u := CustomUpdate(id, old(desired.Value()), old(latest.Value()), delta.differences, old(client.machine), o);
              && client.machine == u.machine
              && client.requests == old(client.requests) + u.requests
              && (match u.result
                  case Ok(v) => updated == desired && desired.Value() == v && err.None?
                  case Err(e) => updated == null && desired.Value() == old(desired.Value()) && err == Some(e))
    {
      var tagsDiffer := delta.DifferentAt(Delta.SPEC_TAGS);
      if tagsDiffer {
        err := SyncResourceTags(client, ArnOf(desired.status).value, latest.spec.tags, desired.spec.tags, o.untag, o.tag);
        if err.Some? {
          return null, err;
        }
      }
      var othersDiffer := delta.DifferentExcept(Delta.SPEC_TAGS);
      if othersDiffer {
        var input := NewUpdateRequestPayload(desired);
        var resp := client.UpdateStateMachine(input, o.update);
        if resp.Err? {
          return null, Some(resp.error);
        }
        desired.status := desired.status.(versionArn := resp.value.versionArn);
      }
      SetStatusDefaults(desired);
      return desired, None;
    }

    /** On failure what comes back is the latest resource, not the desired one. */
    method Update(desired: StateMachine, latest: StateMachine, delta: Delta.DeltaSet, o: UpdateOutcome)
      returns (res: StateMachine, err: Option<Error>)
      requires ArnOf(desired.status).Some?
      requires desired != latest
      modifies desired, client
      ensures var u := CustomUpdate(id, old(desired.Value()), old(latest.Value()), delta.differences, old(client.machine), o);
              && client.machine == u.machine
              && client.requests == old(client.requests) + u.requests
              && (match u.result
                  case Ok(v) => res.Value() == Noted(id, v, None) && Tells(id, v, res.Value(), None) && err.None?
                  case Err(e) =>
                    && res.Value() == Noted(id, old(latest.Value()), Some(e))
                    && Tells(id, old(latest.Value()), res.Value(), Some(e))
                    && err == Some(Conditions.Reported(old(latest.status.conditions), e)))
    {
      var updated;
      updated, err := CustomUpdateStateMachine(desired, latest, delta, o);
      if err.Some? {
        var subject: StateMachine? := if updated != null then updated else latest;
        var out;
        res, out := OnError(subject, err.value);
        return res, Some(out);
      }
      res := OnSuccess(updated);
    }
  }

  function Created(id: Identity, r: Resource, m: Machine): Resource {
    r.(status := WithDefaults(id, r.status.(
         creationDate := Some(m.creationDate),
         metadata := Some(WithArn(r.status.metadata, Some(m.arn))),
         versionArn := CreateAnswer(CreatePayload(r.spec), m).versionArn)))
  }

  ghost function WithMirror(r: Resource, listed: seq<Tag>, rest: seq<string>): Resource
    requires MirrorOrder(r.spec.tags, listed, rest)
  {
    r.(spec := r.spec.(tags := Mirrored(r.spec.tags, listed, rest)))
  }

  /** mirrorAWSTags before SyncResourceTags: no request names an "aws:" tag that was
      read, and the user's own tags keep their values and their order. */
  lemma MirrorProtectsAwsTags(arn: string, tags: AckTags.Tags, desired: seq<Tag>, latest: seq<Tag>, rest: seq<string>, o: SyncOutcome)
    requires MirrorOrder(desired, latest, rest)
    ensures var s := Sync(arn, tags, ToAck(latest), ToAck(Mirrored(desired, latest, rest)), o);
            && (forall r, k | r in s.requests && k in NamedKeys(r) :: !(IsAws(k) && k in ToAck(latest)))
            && (forall k | IsAws(k) && k in ToAck(latest) :: Lookup(s.tags, k) == Lookup(tags, k))
    ensures Canonical(desired) ==> Keep(Mirrored(desired, latest, rest), NotAws()) == Keep(desired, NotAws())
  {
    MirroredContents(desired, latest, rest);
    MirrorKeepsUserTags(desired, latest, rest);
    AwsTagsNeverNamed(arn, tags, ToAck(latest), ToAck(desired), o);
  }

  lemma CanonicalNoNil(tags: seq<Tag>)
    requires Canonical(tags)
    ensures NoNil(tags)
  {
  }
}
