/** The create and update request builders and the read-back of a describe
    response (pkg/resource/state_machine/hooks.go and sdk.go). */
module Payloads {
  import opened Wrappers
  import opened Api
  import opened TagPipeline
  import opened AckTags
  import opened Service

  // ---------- what a specification means on the wire ----------

  function ToSdkDestination(d: LogDestination): SdkLogDestination {
    SdkLogDestination(
      if d.cloudWatchLogsLogGroup.Some? then Some(SdkLogGroup(d.cloudWatchLogsLogGroup.value.logGroupArn)) else None)
  }

  function FromSdkDestination(d: SdkLogDestination): LogDestination {
    LogDestination(
      if d.cloudWatchLogsLogGroup.Some? then Some(LogGroup(d.cloudWatchLogsLogGroup.value.logGroupArn)) else None)
  }

  function ToSdkLogging(l: LoggingConfiguration): SdkLogging {
    SdkLogging(
      if l.destinations.Some?
      then Some(seq(|l.destinations.value|, i requires 0 <= i < |l.destinations.value| => ToSdkDestination(l.destinations.value[i])))
      else None,
      IsTrue(l.includeExecutionData),
      if l.level.Some? then l.level.value else "")
  }

  function FromSdkLogging(l: SdkLogging): LoggingConfiguration {
    LoggingConfiguration(
      if l.destinations.Some?
      then Some(seq(|l.destinations.value|, i requires 0 <= i < |l.destinations.value| => FromSdkDestination(l.destinations.value[i])))
      else None,
      Some(l.includeExecutionData),
      if l.level != "" then Some(l.level) else None)
  }

  function ToSdkTags(tags: seq<Tag>): seq<SdkTag> {
    seq(|tags|, i requires 0 <= i < |tags| => if tags[i].Tag? then SdkTag(tags[i].key, tags[i].value) else SdkTag(None, None))
  }

  function CreatePayload(s: Spec): CreateInput {
    CreateInput(
      s.definition,
      if s.logging.Some? then Some(ToSdkLogging(s.logging.value)) else None,
      s.name,
      IsTrue(s.publish),
      s.roleArn,
      ToSdkTags(s.tags),
      if s.tracing.Some? then Some(SdkTracing(IsTrue(s.tracing.value.enabled))) else None,
      if s.typ.Some? then s.typ.value else "")
  }

  function ArnOf(status: Status): Option<string> {
    if status.metadata.Some? then status.metadata.value.arn else None
  }

  /** The update payload is the create payload's shared members and the ARN. */
  function UpdatePayload(r: Resource): UpdateInput {
    var c := CreatePayload(r.spec);
    UpdateInput(c.definition, c.logging, c.publish, c.roleArn, ArnOf(r.status), c.tracing)
  }

  /** The specification after the describe response was merged into it. */
  function ReadBack(s: Spec, resp: DescribeOutput): Spec {
    s.(definition := resp.definition,
       logging := if resp.logging.Some? then Some(FromSdkLogging(resp.logging.value)) else None,
       name := resp.name,
       roleArn := resp.roleArn,
       tracing := if resp.tracing.Some? then Some(TracingConfiguration(Some(resp.tracing.value.enabled))) else None,
       typ := if resp.typ != "" then Some(resp.typ) else None)
  }

  /** Creating with a list of tags leaves the tags the list stands for. */
  lemma {:induction false} CreatedTags(m: Tags, tags: seq<Tag>)
    requires NoNil(tags)
    ensures ApplyTags(m, ToSdkTags(tags)) == m + ToAck(tags)
    decreases |tags|
  {
    if tags != [] {
      var t, tail := tags[0], tags[1..];
      assert t in tags && forall x | x in tail :: x in tags;
      assert tags == [t] + tail;
      ToAckConcat([t], tail);
      assert [t][..0] == [];
      assert ToSdkTags(tags)[1..] == ToSdkTags(tail);
      CreatedTags(if Keyed(t) then m[t.key.value := ValueOf(t)] else m, tail);
    }
  }

  // ---------- the same, member by member ----------

  /** A flag is set on the wire exactly when it is given as true. */
  ghost predicate SentFlag(given: Option<bool>, sent: bool) {
    sent <==> given.Some? && given.value
  }

  /** A text that is not given is sent as the empty one. */
  ghost predicate SentText(given: Option<string>, sent: string) {
    sent == if given.Some? then given.value else ""
  }

  /** A log group on both sides with the same ARN, or on neither. */
  ghost predicate SameDestination(d: LogDestination, w: SdkLogDestination) {
    if d.cloudWatchLogsLogGroup.Some? then
      && w.cloudWatchLogsLogGroup.Some?
      && w.cloudWatchLogsLogGroup.value.logGroupArn == d.cloudWatchLogsLogGroup.value.logGroupArn
    else w.cloudWatchLogsLogGroup.None?
  }

  ghost predicate SameDestinations(ds: Option<seq<LogDestination>>, ws: Option<seq<SdkLogDestination>>) {
    if ds.Some? then
      && ws.Some? && |ws.value| == |ds.value|
      && forall i | 0 <= i < |ds.value| :: SameDestination(ds.value[i], ws.value[i])
    else ws.None?
  }

  ghost predicate SentLogging(l: Option<LoggingConfiguration>, sent: Option<SdkLogging>) {
    if l.Some? then
      && sent.Some?
      && SameDestinations(l.value.destinations, sent.value.destinations)
      && SentFlag(l.value.includeExecutionData, sent.value.includeExecutionData)
      && SentText(l.value.level, sent.value.level)
    else sent.None?
  }

  ghost predicate SentTracing(t: Option<TracingConfiguration>, sent: Option<SdkTracing>) {
    if t.Some? then sent.Some? && SentFlag(t.value.enabled, sent.value.enabled) else sent.None?
  }

  /** Every member of the specification in the create request. */
  ghost predicate SentInCreate(s: Spec, c: CreateInput) {
    && c.definition == s.definition && SentLogging(s.logging, c.logging) && c.name == s.name
    && SentFlag(s.publish, c.publish) && c.roleArn == s.roleArn && SentTracing(s.tracing, c.tracing) && SentText(s.typ, c.typ)
    && |c.tags| == |s.tags|
    && forall i | 0 <= i < |s.tags| && s.tags[i].Tag? :: c.tags[i].key == s.tags[i].key && c.tags[i].value == s.tags[i].value
  }

  /** Every member of the update request: neither name, tags nor type, but the ARN
      of the machine. */
  ghost predicate SentInUpdate(r: Resource, u: UpdateInput) {
    && u.definition == r.spec.definition && SentLogging(r.spec.logging, u.logging)
    && SentFlag(r.spec.publish, u.publish) && u.roleArn == r.spec.roleArn && SentTracing(r.spec.tracing, u.tracing)
    && u.stateMachineArn == if r.status.metadata.Some? then r.status.metadata.value.arn else None
  }

  /** Every member of the specification after a read; Publish, RoleRef and Tags are
      not in the answer and stay. */
  ghost predicate ReadFrom(resp: DescribeOutput, before: Spec, after: Spec) {
    && after == before.(definition := resp.definition, logging := after.logging, name := resp.name, roleArn := resp.roleArn,
                        tracing := after.tracing, typ := after.typ)
    && after.typ == (if resp.typ == "" then None else Some(resp.typ))
    && (after.tracing.Some? <==> resp.tracing.Some?)
    && (resp.tracing.Some? ==> after.tracing.value.enabled == Some(resp.tracing.value.enabled))
    && (after.logging.Some? <==> resp.logging.Some?)
    && (resp.logging.Some? ==>
          var l, w := after.logging.value, resp.logging.value;
          && SameDestinations(l.destinations, w.destinations)
          && l.includeExecutionData == Some(w.includeExecutionData)
          && l.level == if w.level == "" then None else Some(w.level))
  }

  lemma CreateMembers(s: Spec)
    ensures SentInCreate(s, CreatePayload(s))
  {
  }

  lemma UpdateMembers(r: Resource)
    ensures SentInUpdate(r, UpdatePayload(r))
  {
    CreateMembers(r.spec);
  }

  lemma ReadBackMembers(s: Spec, resp: DescribeOutput)
    ensures ReadFrom(resp, s, ReadBack(s, resp))
  {
  }

  // ---------- the builders ----------

  /** The logging and the tracing block, written out in both builders. */
  method NewLoggingConfiguration(l: LoggingConfiguration) returns (f1: SdkLogging)
    ensures f1 == ToSdkLogging(l)
  {
    f1 := SdkLogging(None, false, "");
    if l.destinations.Some? {
      var f1f0: seq<SdkLogDestination> := [];
      for i := 0 to |l.destinations.value|
        invariant |f1f0| == i
        invariant forall j | 0 <= j < i :: f1f0[j] == ToSdkDestination(l.destinations.value[j])
      {
        var elem := SdkLogDestination(None);
        if l.destinations.value[i].cloudWatchLogsLogGroup.Some? {
          var group := SdkLogGroup(None);
          if l.destinations.value[i].cloudWatchLogsLogGroup.value.logGroupArn.Some? {
            group := group.(logGroupArn := l.destinations.value[i].cloudWatchLogsLogGroup.value.logGroupArn);
          }
          elem := elem.(cloudWatchLogsLogGroup := Some(group));
        }
        f1f0 := f1f0 + [elem];
      }
      assert f1f0 == ToSdkLogging(l).destinations.value;
      f1 := f1.(destinations := Some(f1f0));
    }
    if l.includeExecutionData.Some? {
      f1 := f1.(includeExecutionData := l.includeExecutionData.value);
    }
    if l.level.Some? {
      f1 := f1.(level := l.level.value);
    }
  }

  method NewTracingConfiguration(t: TracingConfiguration) returns (f: SdkTracing)
    ensures f == SdkTracing(IsTrue(t.enabled))
  {
    f := SdkTracing(false);
    if t.enabled.Some? {
      f := f.(enabled := t.enabled.value);
    }
  }

  method NewTags(tags: seq<Tag>) returns (f5: seq<SdkTag>)
    requires NoNil(tags)
    ensures f5 == ToSdkTags(tags)
  {
    f5 := [];
    for i := 0 to |tags|
      invariant |f5| == i
      invariant forall j | 0 <= j < i :: tags[j].Tag? && f5[j] == SdkTag(tags[j].key, tags[j].value)
    {
      assert tags[i] in tags;
      var elem := SdkTag(None, None);
      if tags[i].key.Some? {
        elem := elem.(key := tags[i].key);
      }
      if tags[i].value.Some? {
        elem := elem.(value := tags[i].value);
      }
      f5 := f5 + [elem];
    }
    assert f5 == ToSdkTags(tags);
  }

  method NewUpdateRequestPayload(r: StateMachine) returns (res: UpdateInput)
    ensures res == UpdatePayload(r.Value())
    ensures SentInUpdate(r.Value(), res)
  {
    res := UpdateInput(None, None, false, None, None, None);
    if r.spec.definition.Some? {
      res := res.(definition := r.spec.definition);
    }
    if r.spec.logging.Some? {
      var f1 := NewLoggingConfiguration(r.spec.logging.value);
      res := res.(logging := Some(f1));
    }
    if r.spec.publish.Some? {
      res := res.(publish := r.spec.publish.value);
    }
    if r.spec.roleArn.Some? {
      res := res.(roleArn := r.spec.roleArn);
    }
    if r.status.metadata.Some? && r.status.metadata.value.arn.Some? {
      res := res.(stateMachineArn := r.status.metadata.value.arn);
    }
    if r.spec.tracing.Some? {
      var f4 := NewTracingConfiguration(r.spec.tracing.value);
      res := res.(tracing := Some(f4));
    }
    UpdateMembers(r.Value());
  }

  method NewCreateRequestPayload(r: StateMachine) returns (res: CreateInput)
    requires NoNil(r.spec.tags)
    ensures res == CreatePayload(r.spec)
    ensures SentInCreate(r.spec, res)
  {
    res := CreateInput(None, None, None, false, None, [], None, "");
    if r.spec.definition.Some? {
      res := res.(definition := r.spec.definition);
    }
    if r.spec.logging.Some? {
      var f1 := NewLoggingConfiguration(r.spec.logging.value);
      res := res.(logging := Some(f1));
    }
    if r.spec.name.Some? {
      res := res.(name := r.spec.name);
    }
    if r.spec.publish.Some? {
      res := res.(publish := r.spec.publish.value);
    }
    if r.spec.roleArn.Some? {
      res := res.(roleArn := r.spec.roleArn);
    }
    var f5 := NewTags(r.spec.tags);
    res := res.(tags := f5);
    if r.spec.tracing.Some? {
      var f6 := NewTracingConfiguration(r.spec.tracing.value);
      res := res.(tracing := Some(f6));
    }
    if r.spec.typ.Some? {
      res := res.(typ := r.spec.typ.value);
    }
    assert res == CreatePayload(r.spec);
    CreateMembers(r.spec);
  }

  /** The part of sdkFind that merges the response into the copied object. */
  method SetOutput(ko: StateMachine, resp: DescribeOutput)
    modifies ko
    ensures ko.spec == ReadBack(old(ko.spec), resp)
    ensures ReadFrom(resp, old(ko.spec), ko.spec)
    ensures ko.status == old(ko.status).(
              creationDate := resp.creationDate,
              revisionId := resp.revisionId,
              metadata := Some(WithArn(old(ko.status).metadata, resp.stateMachineArn)))
  {
    ReadBackMembers(ko.spec, resp);
    ko.status := ko.status.(creationDate := resp.creationDate);
    ko.spec := ko.spec.(definition := resp.definition);
    if resp.logging.Some? {
      var f5 := LoggingConfiguration(None, None, None);
      if resp.logging.value.destinations.Some? {
        var f5f0: seq<LogDestination> := [];
        var ds := resp.logging.value.destinations.value;
        for i := 0 to |ds|
          invariant |f5f0| == i
          invariant forall j | 0 <= j < i :: f5f0[j] == FromSdkDestination(ds[j])
        {
          var elem := LogDestination(None);
          if ds[i].cloudWatchLogsLogGroup.Some? {
            var group := LogGroup(None);
            if ds[i].cloudWatchLogsLogGroup.value.logGroupArn.Some? {
              group := group.(logGroupArn := ds[i].cloudWatchLogsLogGroup.value.logGroupArn);
            }
            elem := elem.(cloudWatchLogsLogGroup := Some(group));
          }
          f5f0 := f5f0 + [elem];
        }
        assert f5f0 == FromSdkLogging(resp.logging.value).destinations.value;
        f5 := f5.(destinations := Some(f5f0));
      }
      f5 := f5.(includeExecutionData := Some(resp.logging.value.includeExecutionData));
      if resp.logging.value.level != "" {
        f5 := f5.(level := Some(resp.logging.value.level));
      }
      ko.spec := ko.spec.(logging := Some(f5));
    } else {
      ko.spec := ko.spec.(logging := None);
    }
    ko.spec := ko.spec.(name := resp.name);
    ko.status := ko.status.(revisionId := resp.revisionId);
    ko.spec := ko.spec.(roleArn := resp.roleArn);
    if ko.status.metadata.None? {
      ko.status := ko.status.(metadata := Some(Metadata(None, None, None, None)));
    }
    if resp.stateMachineArn.Some? {
      ko.status := ko.status.(metadata := Some(ko.status.metadata.value.(arn := resp.stateMachineArn)));
    }
    if resp.tracing.Some? {
      ko.spec := ko.spec.(tracing := Some(TracingConfiguration(Some(resp.tracing.value.enabled))));
    } else {
      ko.spec := ko.spec.(tracing := None);
    }
    if resp.typ != "" {
      ko.spec := ko.spec.(typ := Some(resp.typ));
    } else {
      ko.spec := ko.spec.(typ := None);
    }
  }

  function WithArn(md: Option<Metadata>, arn: Option<string>): Metadata {
    var base := if md.Some? then md.value else Metadata(None, None, None, None);
    if arn.Some? then base.(arn := arn) else base
  }
}
