/** The comparison of the desired with the latest resource
    (pkg/resource/state_machine/delta.go and customPreCompare in hooks.go). */
module Delta {
  import opened Wrappers
  import opened Api
  import opened AckTags
  import opened TagMaps
  import opened TagSync
  import opened TagPipeline
  import opened Service
  import opened Payloads

  /** A difference path, split at its dots. */
  datatype Part =
    | Root | Spec | Tags | Publish | Definition | LoggingConfiguration | Destinations | IncludeExecutionData | Level
    | Name | RoleARN | RoleRef | TracingConfiguration | Enabled | Type | Description | RoutingConfiguration
  type Path = seq<Part>

  const SPEC: Path := [Part.Spec]
  const SPEC_TAGS: Path := [Part.Spec, Part.Tags]
  const SPEC_PUBLISH: Path := [Part.Spec, Part.Publish]
  const SPEC_DEFINITION: Path := [Part.Spec, Part.Definition]
  const SPEC_LOGGING: Path := [Part.Spec, Part.LoggingConfiguration]
  const SPEC_LOGGING_DESTINATIONS: Path := [Part.Spec, Part.LoggingConfiguration, Part.Destinations]
  const SPEC_LOGGING_DATA: Path := [Part.Spec, Part.LoggingConfiguration, Part.IncludeExecutionData]
  const SPEC_LOGGING_LEVEL: Path := [Part.Spec, Part.LoggingConfiguration, Part.Level]
  const SPEC_NAME: Path := [Part.Spec, Part.Name]
  const SPEC_ROLE_ARN: Path := [Part.Spec, Part.RoleARN]
  const SPEC_ROLE_REF: Path := [Part.Spec, Part.RoleRef]
  const SPEC_TRACING: Path := [Part.Spec, Part.TracingConfiguration]
  const SPEC_TRACING_ENABLED: Path := [Part.Spec, Part.TracingConfiguration, Part.Enabled]
  const SPEC_TYPE: Path := [Part.Spec, Part.Type]

  /** A JSON document's canonical form; None when the text is not valid JSON. */
  type Canon = string -> Option<string>

  /** DocumentEqual: an equivalence on valid documents, an error otherwise. */
  function DocumentEqual(canon: Canon, a: string, b: string): Result<bool, Error> {
    if canon(a).None? || canon(b).None? then Err(PlainError("invalid document"))
    else Ok(canon(a) == canon(b))
  }

  function HasNilDifference<T>(a: Option<T>, b: Option<T>): bool {
    a.Some? != b.Some?
  }

  ghost predicate DifferentAtPath(ds: seq<Path>, path: Path) {
    exists i :: 0 <= i < |ds| && path <= ds[i]
  }

  ghost predicate DifferentExceptPath(ds: seq<Path>, path: Path) {
    exists i :: 0 <= i < |ds| && !(path <= ds[i])
  }

  class DeltaSet {
    var differences: seq<Path>

    constructor ()
      ensures differences == []
    {
      differences := [];
    }

    method Add(path: Path)
      modifies this
      ensures differences == old(differences) + [path]
    {
      differences := differences + [path];
    }

    method DifferentAt(path: Path) returns (b: bool)
      ensures b <==> DifferentAtPath(differences, path)
    {
      for i := 0 to |differences|
        invariant forall j | 0 <= j < i :: !(path <= differences[j])
      {
        if path <= differences[i] {
          return true;
        }
      }
      return false;
    }

    method DifferentExcept(path: Path) returns (b: bool)
      ensures b <==> DifferentExceptPath(differences, path)
    {
      for i := 0 to |differences|
        invariant forall j | 0 <= j < i :: path <= differences[j]
      {
        if !(path <= differences[i]) {
          return true;
        }
      }
      return false;
    }
  }

  // ---------- which paths are reported ----------

  function Report(ds: seq<Path>, differs: bool, path: Path): seq<Path> {
    if differs then ds + [path] else ds
  }

  /** A publish is owed: versions are wanted and none is recorded. */
  predicate PublishOwed(a: Resource, b: Resource) {
    IsTrue(a.spec.publish) && b.status.versionArn.None?
  }

  ghost function ReportPreCompare(ds: seq<Path>, a: Resource, b: Resource): seq<Path> {
    Report(Report(ds, ToAck(a.spec.tags) != ToAck(b.spec.tags), SPEC_TAGS), PublishOwed(a, b), SPEC_PUBLISH)
  }

  predicate DefinitionsAgree(canon: Canon, a: Option<string>, b: Option<string>) {
    if a.Some? && b.Some? then DocumentEqual(canon, a.value, b.value) == Ok(true) else a == b
  }

  /** A nil destination list and an empty one are the same list. */
  function DestinationList(l: Api.LoggingConfiguration): seq<LogDestination> {
    if l.destinations.Some? then l.destinations.value else []
  }

  function ReportLogging(ds: seq<Path>, a: Option<Api.LoggingConfiguration>, b: Option<Api.LoggingConfiguration>): seq<Path> {
    if a.Some? && b.Some? then
      var d1 := Report(ds, DestinationList(a.value) != DestinationList(b.value), SPEC_LOGGING_DESTINATIONS);
      var d2 := Report(d1, a.value.includeExecutionData != b.value.includeExecutionData, SPEC_LOGGING_DATA);
      Report(d2, a.value.level != b.value.level, SPEC_LOGGING_LEVEL)
    else Report(ds, a != b, SPEC_LOGGING)
  }

  function ReportTracing(ds: seq<Path>, a: Option<Api.TracingConfiguration>, b: Option<Api.TracingConfiguration>): seq<Path> {
    if a.Some? && b.Some? then Report(ds, a != b, SPEC_TRACING_ENABLED)
    else Report(ds, a != b, SPEC_TRACING)
  }

  ghost function DeltaPaths(canon: Canon, a: Resource, b: Resource): seq<Path> {
    var d1 := ReportPreCompare([], a, b);
    var d2 := Report(d1, !DefinitionsAgree(canon, a.spec.definition, b.spec.definition), SPEC_DEFINITION);
    var d3 := ReportLogging(d2, a.spec.logging, b.spec.logging);
    ReportRest(d3, a.spec, b.spec)
  }

  function ReportRest(ds: seq<Path>, a: Api.Spec, b: Api.Spec): seq<Path> {
    var d4 := Report(ds, a.name != b.name, SPEC_NAME);
    var d5 := Report(d4, a.roleArn != b.roleArn, SPEC_ROLE_ARN);
    var d6 := Report(d5, a.roleRef != b.roleRef, SPEC_ROLE_REF);
    var d7 := ReportTracing(d6, a.tracing, b.tracing);
    Report(d7, a.typ != b.typ, SPEC_TYPE)
  }

  // ---------- the comparison, field by field ----------

  method CustomPreCompare(delta: DeltaSet, a: StateMachine, b: StateMachine)
    requires NoNil(a.spec.tags) && NoNil(b.spec.tags)
    modifies delta
    ensures delta.differences == ReportPreCompare(old(delta.differences), a.Value(), b.Value())
  {
    var desiredTags, _ := ConvertToOrderedACKTags(a.spec.tags);
    var latestTags, _ := ConvertToOrderedACKTags(b.spec.tags);
    var tagsToAdd, tagsToRemove := Added(latestTags.m, desiredTags.m), Removed(latestTags.m, desiredTags.m);
    DifferenceExact(latestTags.m, desiredTags.m);
    if |tagsToAdd| > 0 || |tagsToRemove| > 0 {
      delta.Add(SPEC_TAGS);
    }
    if a.spec.publish.Some? && a.spec.publish.value && b.status.versionArn.None? {
      delta.Add(SPEC_PUBLISH);
    }
  }

  /** The comparison repeated for every optional scalar field. */
  method CompareScalar<T(==)>(delta: DeltaSet, a: Option<T>, b: Option<T>, path: Path)
    modifies delta
    ensures delta.differences == Report(old(delta.differences), a != b, path)
  {
    if HasNilDifference(a, b) {
      delta.Add(path);
    } else if a.Some? && b.Some? {
      if a.value != b.value {
        delta.Add(path);
      }
    }
  }

  method CompareDefinition(delta: DeltaSet, canon: Canon, a: Option<string>, b: Option<string>)
    modifies delta
    ensures delta.differences == Report(old(delta.differences), !DefinitionsAgree(canon, a, b), SPEC_DEFINITION)
  {
    if HasNilDifference(a, b) {
      delta.Add(SPEC_DEFINITION);
    } else if a.Some? && b.Some? {
      var equal := DocumentEqual(canon, a.value, b.value);
      if equal.Err? || !equal.value {
        delta.Add(SPEC_DEFINITION);
      }
    }
  }

  method CompareLogging(delta: DeltaSet, a: Option<Api.LoggingConfiguration>, b: Option<Api.LoggingConfiguration>)
    modifies delta
    ensures delta.differences == ReportLogging(old(delta.differences), a, b)
  {
    if HasNilDifference(a, b) {
      delta.Add(SPEC_LOGGING);
    } else if a.Some? && b.Some? {
      var ad, bd := DestinationList(a.value), DestinationList(b.value);
      if |ad| != |bd| {
        delta.Add(SPEC_LOGGING_DESTINATIONS);
      } else if |ad| > 0 {
        if ad != bd {
          delta.Add(SPEC_LOGGING_DESTINATIONS);
        }
      }
      CompareScalar(delta, a.value.includeExecutionData, b.value.includeExecutionData, SPEC_LOGGING_DATA);
      CompareScalar(delta, a.value.level, b.value.level, SPEC_LOGGING_LEVEL);
    }
  }

  method CompareTracing(delta: DeltaSet, a: Option<Api.TracingConfiguration>, b: Option<Api.TracingConfiguration>)
    modifies delta
    ensures delta.differences == ReportTracing(old(delta.differences), a, b)
  {
    if HasNilDifference(a, b) {
      delta.Add(SPEC_TRACING);
    } else if a.Some? && b.Some? {
      CompareScalar(delta, a.value.enabled, b.value.enabled, SPEC_TRACING_ENABLED);
    }
  }

  method NewResourceDelta(canon: Canon, a: StateMachine?, b: StateMachine?) returns (delta: DeltaSet)
    requires a != null || b != null
    requires a != null && b != null ==> NoNil(a.spec.tags) && NoNil(b.spec.tags)
    ensures fresh(delta)
    ensures delta.differences ==
            if a == null || b == null then [[Part.Root]] else DeltaPaths(canon, a.Value(), b.Value())
  {
    delta := new DeltaSet();
    if (a == null && b != null) || (a != null && b == null) {
      delta.Add([Part.Root]);
      return;
    }
    CustomPreCompare(delta, a, b);
    CompareDefinition(delta, canon, a.spec.definition, b.spec.definition);
    CompareLogging(delta, a.spec.logging, b.spec.logging);
    CompareScalar(delta, a.spec.name, b.spec.name, SPEC_NAME);
    CompareScalar(delta, a.spec.roleArn, b.spec.roleArn, SPEC_ROLE_ARN);
    if a.spec.roleRef != b.spec.roleRef {
      delta.Add(SPEC_ROLE_REF);
    }
    CompareTracing(delta, a.spec.tracing, b.spec.tracing);
    CompareScalar(delta, a.spec.typ, b.spec.typ, SPEC_TYPE);
  }

  // ---------- what the comparison means ----------

  ghost predicate LoggingAgrees(a: Option<Api.LoggingConfiguration>, b: Option<Api.LoggingConfiguration>) {
    if a.Some? && b.Some? then
      && DestinationList(a.value) == DestinationList(b.value)
      && a.value.includeExecutionData == b.value.includeExecutionData
      && a.value.level == b.value.level
    else a == b
  }

  /** The two specifications ask for the same machine, tags and publish aside. */
  ghost predicate SameConfiguration(canon: Canon, a: Api.Spec, b: Api.Spec) {
    && DefinitionsAgree(canon, a.definition, b.definition)
    && LoggingAgrees(a.logging, b.logging)
    && a.name == b.name && a.roleArn == b.roleArn && a.roleRef == b.roleRef
    && a.tracing == b.tracing && a.typ == b.typ
  }

  lemma ReportMeaning(ds: seq<Path>, differs: bool, path: Path)
    requires SPEC <= path
    ensures var out := Report(ds, differs, path);
            && (DifferentAtPath(out, SPEC_TAGS) <==> DifferentAtPath(ds, SPEC_TAGS) || (differs && SPEC_TAGS <= path))
            && (DifferentExceptPath(out, SPEC_TAGS) <==> DifferentExceptPath(ds, SPEC_TAGS) || (differs && !(SPEC_TAGS <= path)))
            && (DifferentAtPath(out, SPEC) <==> DifferentAtPath(ds, SPEC) || differs)
            && (out == [] <==> ds == [] && !differs)
  {
    var out := Report(ds, differs, path);
    if differs {
      assert forall i | 0 <= i < |ds| :: out[i] == ds[i];
      assert out[|ds|] == path;
    }
  }

  /** The three questions asked of a delta, answered by the two resources. */
  ghost predicate Answers(ds: seq<Path>, tags: bool, other: bool) {
    && (DifferentAtPath(ds, SPEC_TAGS) <==> tags)
    && (DifferentExceptPath(ds, SPEC_TAGS) <==> other)
    && (DifferentAtPath(ds, SPEC) <==> tags || other)
    && (ds == [] <==> !(tags || other))
  }

  lemma ReportTagsAnswers(ds: seq<Path>, tags: bool, other: bool, differs: bool)
    requires Answers(ds, tags, other)
    ensures Answers(Report(ds, differs, SPEC_TAGS), tags || differs, other)
  {
    ReportMeaning(ds, differs, SPEC_TAGS);
  }

  lemma ReportAnswers(ds: seq<Path>, tags: bool, other: bool, differs: bool, path: Path)
    requires Answers(ds, tags, other)
    requires |path| >= 2 && path[0] == Part.Spec && path[1] != Part.Tags
    ensures Answers(Report(ds, differs, path), tags, other || differs)
  {
    assert SPEC_TAGS[1] == Part.Tags;
    ReportMeaning(ds, differs, path);
  }

  lemma LoggingAnswers(ds: seq<Path>, tags: bool, other: bool, a: Option<Api.LoggingConfiguration>, b: Option<Api.LoggingConfiguration>)
    requires Answers(ds, tags, other)
    ensures Answers(ReportLogging(ds, a, b), tags, other || !LoggingAgrees(a, b))
  {
    if a.Some? && b.Some? {
      var c1 := DestinationList(a.value) != DestinationList(b.value);
      var c2 := a.value.includeExecutionData != b.value.includeExecutionData;
      ReportAnswers(ds, tags, other, c1, SPEC_LOGGING_DESTINATIONS);
      var d1 := Report(ds, c1, SPEC_LOGGING_DESTINATIONS);
      ReportAnswers(d1, tags, other || c1, c2, SPEC_LOGGING_DATA);
      var d2 := Report(d1, c2, SPEC_LOGGING_DATA);
      ReportAnswers(d2, tags, other || c1 || c2, a.value.level != b.value.level, SPEC_LOGGING_LEVEL);
    } else {
      ReportAnswers(ds, tags, other, a != b, SPEC_LOGGING);
    }
  }

  lemma RestAnswers(ds: seq<Path>, tags: bool, other: bool, a: Api.Spec, b: Api.Spec)
    requires Answers(ds, tags, other)
    ensures Answers(ReportRest(ds, a, b), tags,
                    other || a.name != b.name || a.roleArn != b.roleArn || a.roleRef != b.roleRef
                    || a.tracing != b.tracing || a.typ != b.typ)
  {
    ReportAnswers(ds, tags, other, a.name != b.name, SPEC_NAME);
    var d4, o4 := Report(ds, a.name != b.name, SPEC_NAME), other || a.name != b.name;
    ReportAnswers(d4, tags, o4, a.roleArn != b.roleArn, SPEC_ROLE_ARN);
    var d5, o5 := Report(d4, a.roleArn != b.roleArn, SPEC_ROLE_ARN), o4 || a.roleArn != b.roleArn;
    ReportAnswers(d5, tags, o5, a.roleRef != b.roleRef, SPEC_ROLE_REF);
    var d6, o6 := Report(d5, a.roleRef != b.roleRef, SPEC_ROLE_REF), o5 || a.roleRef != b.roleRef;
    ReportAnswers(d6, tags, o6, a.tracing != b.tracing,
                  if a.tracing.Some? && b.tracing.Some? then SPEC_TRACING_ENABLED else SPEC_TRACING);
    ReportAnswers(ReportTracing(d6, a.tracing, b.tracing), tags, o6 || a.tracing != b.tracing, a.typ != b.typ, SPEC_TYPE);
  }

  /** A delta reports Spec.Tags exactly when the tag maps differ, something else
      exactly when the configurations differ or a publish is owed, and every
      difference lies under "Spec", the only place the runtime looks. */
  lemma DeltaMeaning(canon: Canon, a: Resource, b: Resource)
    ensures Answers(DeltaPaths(canon, a, b), ToAck(a.spec.tags) != ToAck(b.spec.tags),
                    !SameConfiguration(canon, a.spec, b.spec) || PublishOwed(a, b))
  {
    var tags, owed := ToAck(a.spec.tags) != ToAck(b.spec.tags), PublishOwed(a, b);
    var c2 := !DefinitionsAgree(canon, a.spec.definition, b.spec.definition);
    ReportTagsAnswers([], false, false, tags);
    ReportAnswers(Report([], tags, SPEC_TAGS), tags, false, owed, SPEC_PUBLISH);
    var d1 := ReportPreCompare([], a, b);
    ReportAnswers(d1, tags, owed, c2, SPEC_DEFINITION);
    var d2 := Report(d1, c2, SPEC_DEFINITION);
    LoggingAnswers(d2, tags, owed || c2, a.spec.logging, b.spec.logging);
    var d3, o3 := ReportLogging(d2, a.spec.logging, b.spec.logging), owed || c2 || !LoggingAgrees(a.spec.logging, b.spec.logging);
    RestAnswers(d3, tags, o3, a.spec, b.spec);
  }

  /** The comparison reports Spec.Tags exactly when syncing the same lists would
      issue a request, whichever of its calls would fail. */
  lemma TagDeltaMatchesSync(canon: Canon, a: Resource, b: Resource, arn: string, tags: AckTags.Tags, o: SyncOutcome)
    ensures DifferentAtPath(DeltaPaths(canon, a, b), SPEC_TAGS)
       <==> Sync(arn, tags, ToAck(b.spec.tags), ToAck(a.spec.tags), o).requests != []
  {
    DeltaMeaning(canon, a, b);
    RequestsExact(arn, tags, ToAck(b.spec.tags), ToAck(a.spec.tags), o);
  }

  // ---------- which field is reported where ----------

  lemma ReportAt(ds: seq<Path>, differs: bool, path: Path, q: Path)
    ensures DifferentAtPath(Report(ds, differs, path), q) <==> DifferentAtPath(ds, q) || (differs && q <= path)
  {
    var out := Report(ds, differs, path);
    if differs {
      assert forall i | 0 <= i < |ds| :: out[i] == ds[i];
      assert out[|ds|] == path;
    }
  }

  /** `q` lies on the way to a field of Spec. */
  ghost predicate Above(q: Path, field: Part) {
    q <= [Part.Spec, field]
  }

  ghost predicate AboveInner(q: Path, field: Part, inner: Part) {
    q <= [Part.Spec, field, inner]
  }

  /** Where the differences of the optional blocks are reported: at the block when
      one side has none, otherwise at the members that differ. */
  ghost predicate LoggingReportedAt(a: Option<Api.LoggingConfiguration>, b: Option<Api.LoggingConfiguration>, q: Path) {
    if a.Some? && b.Some? then
      || ((if a.value.destinations.Some? then a.value.destinations.value else [])
          != (if b.value.destinations.Some? then b.value.destinations.value else [])
          && AboveInner(q, Part.LoggingConfiguration, Part.Destinations))
      || (a.value.includeExecutionData != b.value.includeExecutionData
          && AboveInner(q, Part.LoggingConfiguration, Part.IncludeExecutionData))
      || (a.value.level != b.value.level && AboveInner(q, Part.LoggingConfiguration, Part.Level))
    else a.Some? != b.Some? && Above(q, Part.LoggingConfiguration)
  }

  ghost predicate TracingReportedAt(a: Option<Api.TracingConfiguration>, b: Option<Api.TracingConfiguration>, q: Path) {
    if a.Some? && b.Some? then a.value.enabled != b.value.enabled && AboveInner(q, Part.TracingConfiguration, Part.Enabled)
    else a.Some? != b.Some? && Above(q, Part.TracingConfiguration)
  }

  /** Two texts are the same document: both are given and valid and agree, or
      neither is given. */
  ghost predicate SameDocument(canon: Canon, a: Option<string>, b: Option<string>) {
    if a.Some? && b.Some? then canon(a.value).Some? && canon(a.value) == canon(b.value) else a.None? && b.None?
  }

  lemma LoggingAt(ds: seq<Path>, a: Option<Api.LoggingConfiguration>, b: Option<Api.LoggingConfiguration>, q: Path)
    ensures DifferentAtPath(ReportLogging(ds, a, b), q) <==> DifferentAtPath(ds, q) || LoggingReportedAt(a, b, q)
  {
    if a.Some? && b.Some? {
      var c1 := DestinationList(a.value) != DestinationList(b.value);
      var c2 := a.value.includeExecutionData != b.value.includeExecutionData;
      ReportAt(ds, c1, SPEC_LOGGING_DESTINATIONS, q);
      var d1 := Report(ds, c1, SPEC_LOGGING_DESTINATIONS);
      ReportAt(d1, c2, SPEC_LOGGING_DATA, q);
      ReportAt(Report(d1, c2, SPEC_LOGGING_DATA), a.value.level != b.value.level, SPEC_LOGGING_LEVEL, q);
    } else {
      ReportAt(ds, a != b, SPEC_LOGGING, q);
    }
  }

  lemma RestAt(ds: seq<Path>, a: Api.Spec, b: Api.Spec, q: Path)
    ensures DifferentAtPath(ReportRest(ds, a, b), q)
       <==> || DifferentAtPath(ds, q)
            || (a.name != b.name && Above(q, Part.Name))
            || (a.roleArn != b.roleArn && Above(q, Part.RoleARN))
            || (a.roleRef != b.roleRef && Above(q, Part.RoleRef))
            || TracingReportedAt(a.tracing, b.tracing, q)
            || (a.typ != b.typ && Above(q, Part.Type))
  {
    ReportAt(ds, a.name != b.name, SPEC_NAME, q);
    var d4 := Report(ds, a.name != b.name, SPEC_NAME);
    ReportAt(d4, a.roleArn != b.roleArn, SPEC_ROLE_ARN, q);
    var d5 := Report(d4, a.roleArn != b.roleArn, SPEC_ROLE_ARN);
    ReportAt(d5, a.roleRef != b.roleRef, SPEC_ROLE_REF, q);
    var d6 := Report(d5, a.roleRef != b.roleRef, SPEC_ROLE_REF);
    ReportAt(d6, a.tracing != b.tracing,
             if a.tracing.Some? && b.tracing.Some? then SPEC_TRACING_ENABLED else SPEC_TRACING, q);
    ReportAt(ReportTracing(d6, a.tracing, b.tracing), a.typ != b.typ, SPEC_TYPE, q);
  }

  /** Every field is reported under its own path and under no other: `q` is reported
      exactly when it lies on the way to a field whose values differ. */
  lemma FieldsReportedAt(canon: Canon, a: Resource, b: Resource, q: Path)
    ensures DifferentAtPath(DeltaPaths(canon, a, b), q)
       <==> || (ToAck(a.spec.tags) != ToAck(b.spec.tags) && Above(q, Part.Tags))
            || (a.spec.publish.Some? && a.spec.publish.value && b.status.versionArn.None? && Above(q, Part.Publish))
            || (!SameDocument(canon, a.spec.definition, b.spec.definition) && Above(q, Part.Definition))
            || LoggingReportedAt(a.spec.logging, b.spec.logging, q)
            || (a.spec.name != b.spec.name && Above(q, Part.Name))
            || (a.spec.roleArn != b.spec.roleArn && Above(q, Part.RoleARN))
            || (a.spec.roleRef != b.spec.roleRef && Above(q, Part.RoleRef))
            || TracingReportedAt(a.spec.tracing, b.spec.tracing, q)
            || (a.spec.typ != b.spec.typ && Above(q, Part.Type))
  {
    var tags := ToAck(a.spec.tags) != ToAck(b.spec.tags);
    var c2 := !DefinitionsAgree(canon, a.spec.definition, b.spec.definition);
    ReportAt([], tags, SPEC_TAGS, q);
    ReportAt(Report([], tags, SPEC_TAGS), PublishOwed(a, b), SPEC_PUBLISH, q);
    var d1 := ReportPreCompare([], a, b);
    ReportAt(d1, c2, SPEC_DEFINITION, q);
    var d2 := Report(d1, c2, SPEC_DEFINITION);
    LoggingAt(d2, a.spec.logging, b.spec.logging, q);
    RestAt(ReportLogging(d2, a.spec.logging, b.spec.logging), a.spec, b.spec, q);
  }

  // ---------- no pushable change is missed ----------

  ghost predicate SameWireLogging(a: Option<SdkLogging>, b: Option<SdkLogging>) {
    if a.Some? && b.Some? then
      && (if a.value.destinations.Some? then a.value.destinations.value else [])
         == (if b.value.destinations.Some? then b.value.destinations.value else [])
      && a.value.includeExecutionData == b.value.includeExecutionData
      && a.value.level == b.value.level
    else a == b
  }

  /** With nothing reported outside Spec.Tags the two resources push the same
      thing: logging (nil and empty destinations are one), role and tracing
      alike, definitions equal as documents. */
  lemma ComparisonSound(canon: Canon, a: Resource, b: Resource)
    requires !DifferentExceptPath(DeltaPaths(canon, a, b), SPEC_TAGS)
    ensures var ua, ub := UpdatePayload(a), UpdatePayload(b);
            && DefinitionsAgree(canon, ua.definition, ub.definition)
            && SameWireLogging(ua.logging, ub.logging)
            && ua.roleArn == ub.roleArn && ua.tracing == ub.tracing
  {
    DeltaMeaning(canon, a, b);
  }

  // ---------- update, then read ----------

  /** An empty level is sent like none, and none is reported as the default. */
  predicate LevelReadsBack(l: Api.LoggingConfiguration, defaultLevel: string) {
    if l.level.Some? then l.level.value != "" else defaultLevel == ""
  }

  /** What a specification must be for an update of `m` to make it true. Only a
      nil member leaves room for what the machine already had. */
  ghost predicate Representable(canon: Canon, s: Api.Spec, m: Machine) {
    && (if s.definition.Some? then canon(s.definition.value).Some? else m.config.definition.None?)
    && (if s.logging.Some? then s.logging.value.includeExecutionData.Some? && LevelReadsBack(s.logging.value, m.defaultLevel)
        else m.config.logging.None?)
    && (s.roleArn.Some? || m.config.roleArn.None?)
    && (if s.tracing.Some? then s.tracing.value.enabled.Some? else m.config.tracing.None?)
    && s.name == m.name
    && s.typ == (if m.typ == "" then None else Some(m.typ))
  }

  /** Every optional member an update can carry is given, and Name and Type are
      the machine's own. */
  ghost predicate FullySpecified(canon: Canon, s: Api.Spec, name: Option<string>, typ: string) {
    && s.definition.Some? && canon(s.definition.value).Some?
    && s.logging.Some? && s.logging.value.includeExecutionData.Some?
    && s.logging.value.level.Some? && s.logging.value.level.value != ""
    && s.roleArn.Some?
    && s.tracing.Some? && s.tracing.value.enabled.Some?
    && s.name == name
    && s.typ == (if typ == "" then None else Some(typ))
  }

  lemma UpdateDescribes(m: Machine, u: UpdateInput)
    ensures var out := Describe(Update(m, u));
            && out.definition == Over(u.definition, m.config.definition)
            && out.logging == ReportedLogging(Over(u.logging, m.config.logging), m.defaultLevel)
            && out.roleArn == Over(u.roleArn, m.config.roleArn)
            && out.tracing == Over(u.tracing, m.config.tracing)
            && out.name == m.name && out.typ == m.typ
  {
  }

  lemma LoggingReadsBack(l: Option<Api.LoggingConfiguration>, standing: Option<SdkLogging>, defaultLevel: string,
                         resp: Option<SdkLogging>)
    requires var sent := if l.Some? then Some(ToSdkLogging(l.value)) else None;
             SameWireLogging(ReportedLogging(Over(sent, standing), defaultLevel), resp)
    ensures LoggingAgrees(l, if resp.Some? then Some(FromSdkLogging(resp.value)) else None)
       <==> if l.Some? then l.value.includeExecutionData.Some? && LevelReadsBack(l.value, defaultLevel) else standing.None?
  {
    if l.Some? {
      assert DestinationList(FromSdkLogging(resp.value)) == DestinationList(l.value);
    }
  }

  /** The same, for an answer given member by member. */
  lemma RepresentableMembers(canon: Canon, s: Api.Spec, m: Machine, resp: DescribeOutput)
    requires var p := CreatePayload(s);
             && resp.definition == Over(p.definition, m.config.definition)
             && SameWireLogging(ReportedLogging(Over(p.logging, m.config.logging), m.defaultLevel), resp.logging)
             && resp.roleArn == Over(p.roleArn, m.config.roleArn)
             && resp.tracing == Over(p.tracing, m.config.tracing)
             && resp.name == m.name && resp.typ == m.typ
    ensures SameConfiguration(canon, s, ReadBack(s, resp)) <==> Representable(canon, s, m)
  {
    LoggingReadsBack(s.logging, m.config.logging, m.defaultLevel, resp.logging);
  }

  /** Pushing a specification and reading it back gives a resource on which the
      comparison finds no configuration difference, exactly when the
      specification is representable; the service may answer with a nil list of
      destinations for an empty one and the other way round. */
  lemma UpdateReadRoundTrip(canon: Canon, r: Resource, m: Machine, resp: DescribeOutput)
    requires var out := Describe(Update(m, UpdatePayload(r)));
             resp == out.(logging := resp.logging) && SameWireLogging(out.logging, resp.logging)
    ensures SameConfiguration(canon, r.spec, ReadBack(r.spec, resp)) <==> Representable(canon, r.spec, m)
  {
    UpdateDescribes(m, UpdatePayload(r));
    RepresentableMembers(canon, r.spec, m, resp);
  }

  /** What a specification must be for a create to make it true: what it leaves
      out, the service leaves out too. */
  ghost predicate CreatedAsGiven(canon: Canon, s: Api.Spec, chosen: Chosen) {
    && (if s.definition.Some? then canon(s.definition.value).Some? else chosen.config.definition.None?)
    && (if s.logging.Some? then s.logging.value.includeExecutionData.Some? && LevelReadsBack(s.logging.value, chosen.level)
        else chosen.config.logging.None?)
    && (s.roleArn.Some? || chosen.config.roleArn.None?)
    && (if s.tracing.Some? then s.tracing.value.enabled.Some? else chosen.config.tracing.None?)
    && (if s.typ.Some? then s.typ.value != "" else chosen.typ == "")
  }

  /** Creating and reading back shows no configuration difference exactly under
      that condition, which is the one for later updates too; a fully specified
      resource always meets it. */
  lemma CreateReadRoundTrip(canon: Canon, s: Api.Spec, chosen: Chosen)
    ensures var m := Service.Create(CreatePayload(s), chosen);
            && (SameConfiguration(canon, s, ReadBack(s, Describe(m))) <==> CreatedAsGiven(canon, s, chosen))
            && (Representable(canon, s, m) <==> CreatedAsGiven(canon, s, chosen))
            && (FullySpecified(canon, s, m.name, m.typ) ==> CreatedAsGiven(canon, s, chosen))
  {
    var m := Service.Create(CreatePayload(s), chosen);
    RepresentableMembers(canon, s, m, Describe(m));
  }
}
