/** The state machine alias: routing weights are int64 in the resource and int32 on
    the wire (pkg/resource/state_machine_alias/{sdk,delta}.go). */
module AliasRouting {
  import opened Wrappers
  import opened Api
  import opened Delta
  import opened Manager
  import opened Payloads
  import Service

  type int64 = w: int | -0x8000_0000_0000_0000 <= w < 0x8000_0000_0000_0000
  newtype int32 = w: int | -0x8000_0000 <= w < 0x8000_0000

  const MAX_INT32: int := 0x7fff_ffff
  const MIN_INT32: int := -0x8000_0000

  datatype RoutingItem = RoutingItem(versionArn: Option<string>, weight: Option<int64>)
  datatype SdkRoutingItem = SdkRoutingItem(versionArn: Option<string>, weight: int32)

  datatype AliasSpec = AliasSpec(description: Option<string>, name: Option<string>, routing: Option<seq<RoutingItem>>)

  datatype AliasStatus = AliasStatus(metadata: Option<Metadata>, conditions: seq<Condition>, creationDate: Option<nat>)
  datatype AliasResource = AliasResource(spec: AliasSpec, status: AliasStatus)

  datatype AliasCreateInput = AliasCreateInput(description: Option<string>, name: Option<string>, routing: Option<seq<SdkRoutingItem>>)
  datatype AliasUpdateInput = AliasUpdateInput(aliasArn: Option<string>, description: Option<string>, routing: Option<seq<SdkRoutingItem>>)

  predicate InInt32(w: int) {
    MIN_INT32 <= w <= MAX_INT32
  }

  predicate Convertible(items: seq<RoutingItem>) {
    forall i | 0 <= i < |items| :: items[i].weight.Some? ==> InInt32(items[i].weight.value)
  }

  /** `sent` carries each ARN, and each weight exactly; one that is not set is
      carried as zero. */
  ghost predicate Carries(items: seq<RoutingItem>, sent: seq<SdkRoutingItem>) {
    && |sent| == |items|
    && forall i | 0 <= i < |items| ::
         && sent[i].versionArn == items[i].versionArn
         && sent[i].weight as int == if items[i].weight.Some? then items[i].weight.value else 0
  }

  /** The loop written out in both builders: stops at the first weight that does not fit. */
  method ConvertRouting(items: seq<RoutingItem>) returns (r: Result<seq<SdkRoutingItem>, Error>)
    ensures r.Ok? <==> Convertible(items)
    ensures r.Ok? <==> forall i | 0 <= i < |items| ::
                         items[i].weight.Some? ==> -2147483648 <= items[i].weight.value <= 2147483647
    ensures r.Err? ==> r.error == PlainError("error: field weight is of type int32")
    ensures r.Ok? ==> Carries(items, r.value)
  {
    var f1: seq<SdkRoutingItem> := [];
    for i := 0 to |items|
      invariant Convertible(items[..i]) && Carries(items[..i], f1)
    {
      assert items[..i + 1] == items[..i] + [items[i]];
      var elem := SdkRoutingItem(None, 0);
      if items[i].versionArn.Some? {
        elem := elem.(versionArn := items[i].versionArn);
      }
      if items[i].weight.Some? {
        var weightCopy0: int := items[i].weight.value;
        if weightCopy0 > MAX_INT32 || weightCopy0 < MIN_INT32 {
          assert !InInt32(items[i].weight.value);
          return Err(PlainError("error: field weight is of type int32"));
        }
        elem := elem.(weight := weightCopy0 as int32);
      }
      f1 := f1 + [elem];
    }
    assert items[..|items|] == items;
    return Ok(f1);
  }

  ghost predicate RoutingSent(s: AliasSpec, sent: Option<seq<SdkRoutingItem>>) {
    if s.routing.Some? then sent.Some? && Carries(s.routing.value, sent.value) else sent.None?
  }

  predicate Sendable(s: AliasSpec) {
    s.routing.Some? ==> Convertible(s.routing.value)
  }

  ghost predicate SentInCreate(s: AliasSpec, input: AliasCreateInput) {
    input.description == s.description && input.name == s.name && RoutingSent(s, input.routing)
  }

  /** An update names the alias by its ARN. */
  ghost predicate SentInUpdate(r: AliasResource, input: AliasUpdateInput) {
    && input.aliasArn == (if r.status.metadata.Some? then r.status.metadata.value.arn else None)
    && input.description == r.spec.description && RoutingSent(r.spec, input.routing)
  }

  const WEIGHT_ERROR := PlainError("error: field weight is of type int32")

  method NewCreateRequestPayload(s: AliasSpec) returns (r: Result<AliasCreateInput, Error>)
    ensures r.Ok? <==> Sendable(s)
    ensures r.Err? ==> r.error == WEIGHT_ERROR
    ensures r.Ok? ==> SentInCreate(s, r.value)
  {
    var res := AliasCreateInput(None, None, None);
    if s.description.Some? {
      res := res.(description := s.description);
    }
    if s.name.Some? {
      res := res.(name := s.name);
    }
    if s.routing.Some? {
      var f2 := ConvertRouting(s.routing.value);
      if f2.Err? {
        return Err(f2.error);
      }
      res := res.(routing := Some(f2.value));
    }
    return Ok(res);
  }

  method NewUpdateRequestPayload(r: AliasResource) returns (result: Result<AliasUpdateInput, Error>)
    ensures result.Ok? <==> Sendable(r.spec)
    ensures result.Err? ==> result.error == WEIGHT_ERROR
    ensures result.Ok? ==> SentInUpdate(r, result.value)
  {
    var s := r.spec;
    var res := AliasUpdateInput(None, None, None);
    if s.description.Some? {
      res := res.(description := s.description);
    }
    if s.routing.Some? {
      var f1 := ConvertRouting(s.routing.value);
      if f1.Err? {
        return Err(f1.error);
      }
      res := res.(routing := Some(f1.value));
    }
    if r.status.metadata.Some? && r.status.metadata.value.arn.Some? {
      res := res.(aliasArn := r.status.metadata.value.arn);
    }
    return Ok(res);
  }

  datatype AliasRequest =
    | CreateStateMachineAlias(create: AliasCreateInput)
    | UpdateStateMachineAlias(update: AliasUpdateInput)

  /** The alias as the service holds it, and the calls it has seen. */
  class AliasClient {
    var description: Option<string>
    var routing: Option<seq<SdkRoutingItem>>
    var requests: seq<AliasRequest>

    constructor (description: Option<string>, routing: Option<seq<SdkRoutingItem>>)
      ensures this.description == description && this.routing == routing && requests == []
    {
      this.description, this.routing, requests := description, routing, [];
    }

    /** The service chooses the alias's ARN and date. */
    method CreateStateMachineAlias(input: AliasCreateInput, o: Service.Outcome, arn: string, date: nat)
      returns (err: Option<Error>, aliasArn: Option<string>, creationDate: Option<nat>)
      modifies this
      ensures requests == old(requests) + [AliasRequest.CreateStateMachineAlias(input)]
      ensures err == if o.Failed? then Some(o.fault) else None
      ensures err.None? ==> aliasArn == Some(arn) && creationDate == Some(date)
      ensures if err.Some? then description == old(description) && routing == old(routing)
              else description == input.description && routing == input.routing
    {
      requests := requests + [AliasRequest.CreateStateMachineAlias(input)];
      if o.Failed? {
        return Some(o.fault), None, None;
      }
      description, routing := input.description, input.routing;
      return None, Some(arn), Some(date);
    }

    method UpdateStateMachineAlias(input: AliasUpdateInput, o: Service.Outcome) returns (err: Option<Error>)
      modifies this
      ensures requests == old(requests) + [AliasRequest.UpdateStateMachineAlias(input)]
      ensures err == if o.Failed? then Some(o.fault) else None
      ensures if err.Some? then description == old(description) && routing == old(routing)
              else && description == (if input.description.Some? then input.description else old(description))
                   && routing == if input.routing.Some? then input.routing else old(routing)
    {
      requests := requests + [AliasRequest.UpdateStateMachineAlias(input)];
      if o.Failed? {
        return Some(o.fault);
      }
      if input.description.Some? {
        description := input.description;
      }
      if input.routing.Some? {
        routing := input.routing;
      }
      return None;
    }
  }

  function WithAliasDefaults(id: Identity, s: AliasStatus): AliasStatus {
    s.(metadata := Some(CompleteMetadata(id, s.metadata)))
  }

  /** sdkCreate: a weight that does not fit stops it before any call is made. What
      comes back is the desired resource with the identifiers of the response. */
  method SdkCreate(id: Identity, client: AliasClient, desired: AliasResource, o: Service.Outcome, arn: string, date: nat)
    returns (created: Option<AliasResource>, err: Option<Error>)
    modifies client
    ensures if Sendable(desired.spec) then
              exists input :: SentInCreate(desired.spec, input) && client.requests == old(client.requests) + [AliasRequest.CreateStateMachineAlias(input)]
            else client.requests == old(client.requests) && err == Some(WEIGHT_ERROR)
    ensures err.None? <==> Sendable(desired.spec) && o.Answered?
    ensures Sendable(desired.spec) && o.Failed? ==> err == Some(o.fault)
    ensures err.Some? ==> created.None? && client.routing == old(client.routing) && client.description == old(client.description)
    ensures err.None? ==> RoutingSent(desired.spec, client.routing) && client.description == desired.spec.description
    ensures err.None? ==>
              created == Some(desired.(status := WithAliasDefaults(id, desired.status.(
                creationDate := Some(date), metadata := Some(WithArn(desired.status.metadata, Some(arn)))))))
    ensures err.None? ==>
              var before := if desired.status.metadata.Some? then desired.status.metadata.value else Metadata(None, None, None, None);
              Completes(id, Some(before.(arn := Some(arn))), created.value.status.metadata)
  {
    var input := NewCreateRequestPayload(desired.spec);
    if input.Err? {
      return None, Some(input.error);
    }
    var aliasArn, creationDate;
    err, aliasArn, creationDate := client.CreateStateMachineAlias(input.value, o, arn, date);
    if err.Some? {
      return None, err;
    }
    var ko := desired;
    ko := ko.(status := ko.status.(creationDate := creationDate));
    ko := ko.(status := ko.status.(metadata := Some(WithArn(ko.status.metadata, aliasArn))));
    ko := ko.(status := WithAliasDefaults(id, ko.status));
    return Some(ko), None;
  }

  /** sdkUpdate: likewise; what comes back is the desired resource. */
  method SdkUpdate(id: Identity, client: AliasClient, desired: AliasResource, o: Service.Outcome)
    returns (updated: Option<AliasResource>, err: Option<Error>)
    modifies client
    ensures if Sendable(desired.spec) then
              exists input :: SentInUpdate(desired, input) && client.requests == old(client.requests) + [AliasRequest.UpdateStateMachineAlias(input)]
            else client.requests == old(client.requests) && err == Some(WEIGHT_ERROR)
    ensures err.None? <==> Sendable(desired.spec) && o.Answered?
    ensures Sendable(desired.spec) && o.Failed? ==> err == Some(o.fault)
    ensures err.Some? ==> updated.None? && client.routing == old(client.routing) && client.description == old(client.description)
    ensures err.None? ==>
              && updated == Some(desired.(status := WithAliasDefaults(id, desired.status)))
              && Completes(id, desired.status.metadata, updated.value.status.metadata)
              && client.description == (if desired.spec.description.Some? then desired.spec.description else old(client.description))
              && if desired.spec.routing.Some? then RoutingSent(desired.spec, client.routing) else client.routing == old(client.routing)
  {
    var input := NewUpdateRequestPayload(desired);
    if input.Err? {
      return None, Some(input.error);
    }
    err := client.UpdateStateMachineAlias(input.value, o);
    if err.Some? {
      return None, err;
    }
    return Some(desired.(status := WithAliasDefaults(id, desired.status))), None;
  }

  function FromSdkItem(item: SdkRoutingItem): RoutingItem {
    RoutingItem(item.versionArn, Some(item.weight as int))
  }

  /** The routing part of sdkFind. */
  method ReadRouting(stored: Option<seq<SdkRoutingItem>>) returns (routing: Option<seq<RoutingItem>>)
    ensures routing.Some? <==> stored.Some?
    ensures routing.Some? ==> |routing.value| == |stored.value|
    ensures routing.Some? ==> forall i | 0 <= i < |stored.value| ::
              && routing.value[i] == FromSdkItem(stored.value[i])
              && routing.value[i].versionArn == stored.value[i].versionArn
              && routing.value[i].weight == Some(stored.value[i].weight as int)
  {
    if stored.None? {
      return None;
    }
    var f3: seq<RoutingItem> := [];
    for i := 0 to |stored.value|
      invariant |f3| == i
      invariant forall j | 0 <= j < i :: f3[j] == FromSdkItem(stored.value[j])
    {
      var elem := RoutingItem(None, None);
      if stored.value[i].versionArn.Some? {
        elem := elem.(versionArn := stored.value[i].versionArn);
      }
      var weightCopy: int64 := stored.value[i].weight as int;
      elem := elem.(weight := Some(weightCopy));
      f3 := f3 + [elem];
    }
    return Some(f3);
  }

  function ItemList<T>(routing: Option<seq<T>>): seq<T> {
    if routing.Some? then routing.value else []
  }

  const SPEC_ROUTING: Path := [Part.Spec, Part.RoutingConfiguration]
  const SPEC_DESCRIPTION: Path := [Part.Spec, Part.Description]

  function AliasDeltaPaths(a: AliasSpec, b: AliasSpec): seq<Path> {
    var d1 := Report([], a.description != b.description, SPEC_DESCRIPTION);
    var d2 := Report(d1, a.name != b.name, SPEC_NAME);
    Report(d2, ItemList(a.routing) != ItemList(b.routing), SPEC_ROUTING)
  }

  /** Every field under its own path and under no other. */
  lemma FieldsReportedAt(a: AliasSpec, b: AliasSpec, q: Path)
    ensures DifferentAtPath(AliasDeltaPaths(a, b), q)
       <==> || (a.description != b.description && Above(q, Part.Description))
            || (a.name != b.name && Above(q, Part.Name))
            || ((if a.routing.Some? then a.routing.value else []) != (if b.routing.Some? then b.routing.value else [])
                && Above(q, Part.RoutingConfiguration))
  {
    ReportAt([], a.description != b.description, SPEC_DESCRIPTION, q);
    var d1 := Report([], a.description != b.description, SPEC_DESCRIPTION);
    ReportAt(d1, a.name != b.name, SPEC_NAME, q);
    ReportAt(Report(d1, a.name != b.name, SPEC_NAME), ItemList(a.routing) != ItemList(b.routing), SPEC_ROUTING, q);
  }

  method NewAliasDelta(a: AliasSpec, b: AliasSpec) returns (delta: DeltaSet)
    ensures fresh(delta)
    ensures delta.differences == AliasDeltaPaths(a, b)
  {
    delta := new DeltaSet();
    CompareScalar(delta, a.description, b.description, SPEC_DESCRIPTION);
    CompareScalar(delta, a.name, b.name, SPEC_NAME);
    if |ItemList(a.routing)| != |ItemList(b.routing)| {
      delta.Add(SPEC_ROUTING);
    } else if |ItemList(a.routing)| > 0 {
      if ItemList(a.routing) != ItemList(b.routing) {
        delta.Add(SPEC_ROUTING);
      }
    }
  }

  predicate WeightsSet(items: seq<RoutingItem>) {
    forall i | 0 <= i < |items| :: items[i].weight.Some?
  }

  /** What was carried reads back as the same list exactly when every weight is set. */
  lemma CarriedReadsBack(items: seq<RoutingItem>, sent: seq<SdkRoutingItem>, back: seq<RoutingItem>)
    requires Carries(items, sent)
    requires |back| == |sent| && forall i | 0 <= i < |sent| :: back[i] == FromSdkItem(sent[i])
    ensures back == items <==> WeightsSet(items)
  {
  }

  /** Update, read, compare: after an update that succeeds the comparison reports no
      routing difference exactly when all weights are set, or, for a resource
      that gives no routing, when the service has none. */
  method UpdateReadCompare(id: Identity, client: AliasClient, desired: AliasResource, o: Service.Outcome)
    returns (err: Option<Error>, differs: bool)
    modifies client
    ensures err.None? <==> Sendable(desired.spec) && o.Answered?
    ensures err.None? ==>
              (!differs <==> if desired.spec.routing.Some? then WeightsSet(desired.spec.routing.value)
                             else ItemList(old(client.routing)) == [])
  {
    var updated;
    updated, err := SdkUpdate(id, client, desired, o);
    if err.Some? {
      return err, false;
    }
    var spec := desired.spec;
    var routing := ReadRouting(client.routing);
    var delta := NewAliasDelta(spec, spec.(routing := routing));
    differs := delta.DifferentAt(SPEC_ROUTING);
    if spec.routing.Some? {
      CarriedReadsBack(spec.routing.value, client.routing.value, routing.value);
    }
    FieldsReportedAt(spec, spec.(routing := routing), SPEC_ROUTING);
  }
}
