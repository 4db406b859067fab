# A model of the Step Functions controller's reconcile protocol

The controller keeps a `StateMachine` custom resource and an AWS Step Functions
state machine in agreement. This project models the part of it that holds state
across an unreliable service, and proves what that part is for:

- the version-publish protocol: `Status.StateMachineVersionARN` means "the version
  holding the configuration last pushed", and its absence under `publish: true`
  means that a publish is owed;
- the tag pipeline: lists to maps and back, default tags, system tags, mirrored
  `aws:` tags, and a sync made of two calls either of which may fail;
- the comparison that decides whether anything is pushed, and the two payload
  builders it has to agree with;
- condition bookkeeping, the shared cache of resource managers, the routing
  weights of aliases, and the role reference.

| file | content |
|---|---|
| `Wrappers.dfy`, `Api.dfy` | options and results, the custom resource, the wire shapes, the errors |
| `AckTags.dfy`, `TagMaps.dfy`, `TagPipeline.dfy` | tag lists and maps, the conversions over mutable maps, `EnsureTags` / `FilterSystemTags` / `mirrorAWSTags` |
| `SortedKeys.dfy`, `TagSync.dfy` | key order, the two-call tag sync and any number of attempts at it |
| `Service.dfy` | the service as the controller relies on it |
| `Payloads.dfy`, `Delta.dfy` | request builders, read-back, comparison, round trips |
| `Conditions.dfy`, `Manager.dfy` | conditions; the resource manager's read, create and update |
| `Protocol.dfy`, `Reconcile.dfy` | the reconcile protocol as a transition system and what its runs keep; the loop body that takes its steps |
| `Convergence.dfy`, `PublishLoop.dfy` | what reconciles reach and when that lasts; how often the machine is updated |
| `ManagerFactory.dfy`, `AliasRouting.dfy`, `References.dfy` | the manager cache, alias routing, role references |

Code that works on objects is modelled on objects: a custom resource
(`TagPipeline.StateMachine`), a Go map that callees write to (`TagMaps.TagMap`), an
accumulating delta (`Delta.DeltaSet`), the client, the manager and the factory are
classes, and each method is proved equal to a function of the old state. The
theorems are about those functions, so they can speak of whole runs. What these
functions compute is stated once more from the inputs alone, field by field, in
predicates that no operation uses: `Conditions.Records` and `Manager.Tells` for the
bookkeeping, `Payloads.SentInCreate`, `SentInUpdate` and `ReadFrom` for the wire,
`TagSync.UntagsThenTags` and `Leaves` for the sync, `References.ResolvesTo`,
`TagPipeline.FilteredFrom` and `MirroredFrom`.
`Reconcile.ReconcileOnce` closes the circle: what the manager's methods do to the
objects in one reconcile is a run of the protocol.

## Assumptions

- A call that fails has no effect, and `StateMachineDoesNotExist` is only answered
  when the target does not exist.
- The service cuts a version when asked to publish a revision that has no live
  version, answers with the live one otherwise, gives a changed configuration a new
  revision, and never reuses a version number. An update replaces the members it
  carries and keeps the others.
- The service chooses the members that a create leaves out and reports them. A logging
  block without a level is reported with a default level, which may be any text; the
  API type documents OFF (`apis/v1alpha1/state_machine.go:29-35`). Configurations are
  compared and versioned as they were sent.
- The service accepts every payload; a definition that is not JSON is stored like any
  other. Where it refuses one, that call fails and nothing changes.
- The runtime calls `Update` only when the delta differs at `Spec`, and persists the
  status of the resource that a manager call returned. Each manager call is one
  step; users and third parties act between the calls, and the controller may
  restart between read and update, which forgets the update.
- The specification in the protocol is the one after `ResolveReferences`, so a
  resource that refers to a role has its ARN filled in; a change of the resolved ARN
  is a spec edit.
- The tag list of the resource is the one after `EnsureTags`, without nil elements
  (`convertToOrderedACKTags` would dereference one); log destinations and routing
  items are not nil either. A nil list and an empty one are not told apart, except
  for log destinations and routing.
- JSON equality is an equivalence on valid documents (equal canonical forms) and an
  error on anything else. `GetTagsDifference`, `acktags.Merge`, `DifferentAt` and
  `DifferentExcept` are specified from their uses and tests.

## Where a stronger claim is false

- A successful reconcile need not be followed by an empty delta. It is, for as long
  as nobody else acts, exactly when the specification is representable on the machine
  and no missing version was hidden by an unanswered probe:
  `Convergence.EmptyDeltaForeverIff`. The case that hides one is a version deleted out
  of band and a throttled probe (`pkg/resource/state_machine/hooks.go:81-102` keeps
  the ARN): `Convergence.ThrottledProbeHidesDeletion`.
- `Update` omits nil members, so only a *representable* specification can be made
  true; `Delta.UpdateReadRoundTrip` gives the exact condition. Any other one (no
  tracing block against a machine that has one, a logging block without a level where
  the service has a default, an empty log level, a type that is not the machine's, a
  document that is not JSON) is found different by every successful read of an
  undisturbed run (`PublishLoop.StuckStep`, `PublishLoop.StuckForever`), and as long
  as the service accepts the updates there is no bound on their number
  (`PublishLoop.PushesForever`). A new resource gets there exactly when the service
  fills in something that its specification leaves out or gives in a form that does
  not read back: `PublishLoop.CreateLoopsIff`. Leaving out the type or the log level
  is enough: `PublishLoop.CreateOnDefaultsLoops`.
- The recorded version holds what was last *pushed*, which need not be what the
  machine is now: `Protocol.RecordedVersionIsLastPushed` and
  `Convergence.ForeignEditAdopted` say exactly when the two agree.
- `ManagerFor` does not look at the cache again under the write lock, so a key may be
  built more than once (`ManagerFactory.TwoMissesBuildTwo`). When no construction
  fails, and `newResourceManager` never does, a key that was asked for has exactly one
  manager built unless some call for it misses while another one is waiting, and at
  least two if so: `ManagerFactory.BuiltTwiceIffOverlap`.
- A cache key decides account and region exactly when none of account, region and
  role ARN contains a slash: `ManagerFactory.KeyDecidesIff`. Callers that collide are
  handed each other's manager: `ManagerFactory.CollisionHandsOutWrongManager`. For a
  given set of callers every interleaving hands out fitting managers exactly when no
  two of them collide: `ManagerFactory.CallersFitIff`. They cannot when no account and
  no region contains a slash, whatever the role ARNs:
  `ManagerFactory.PlainInterleaving`.
- A terminal error leaves a Recoverable condition as it is
  (`Conditions.ConditionsOverRun`). A plain error comes back as terminal exactly when
  a raised Terminal entry stands before a later Terminal entry
  (`Conditions.TerminalAfter`, `Conditions.TerminalExactIff`), as in
  `Conditions.DuplicateTerminalMisreports`.
- Clearing resolved references loses the user's ARN exactly when both a reference
  and an ARN were given: `References.ClearUndoesResolve`. The comment on
  `ResolveReferences` says that it works on a copy
  (`pkg/resource/state_machine/references.go:52-58`); the code writes into the
  object it is given, and so does the model.
- A routing item without a weight reads back with weight zero, so the alias differs
  for good: `AliasRouting.CarriedReadsBack`.

## Model

| member | source | states |
|---|---|---|
| Protocol.RecordedVersionIsLastPushed | pkg/resource/state_machine/hooks.go:126-139 | in every state any run can reach, a recorded version ARN names a version cut with exactly the configuration last pushed; it holds the machine's own exactly when that is the last pushed, as it is while nobody else changes it |
| Protocol.StepKeepsInv | pkg/resource/state_machine/hooks.go:55-171 | creates, reads, updates failing at any call, restarts, spec edits, publish flips, out-of-band version deletions and configuration and tag edits all keep the protocol invariant |
| Protocol.UpdateKeepsMachine | pkg/resource/state_machine/hooks.go:107-143 | an update failing at any of its calls keeps every version ever cut and the machine's identity; unless the configuration was pushed nothing but tags changes |
| Protocol.UpdateRecords | pkg/resource/state_machine/hooks.go:126-142 | after a push the recorded version is live and holds the pushed configuration, or there is none when versions are not wanted; a tags-only update keeps what was recorded |
| Protocol.FindMeaning | pkg/resource/state_machine/sdk.go:57-168 | a read drops the recorded version exactly when versions are wanted, the probe was answered and the version is not live |
| Protocol.OutcomeIsPersisted | pkg/resource/state_machine/manager.go:97-167 | after a create, a read or an update the persisted status tells how the call ended: in the resource's own status when a create or read failed, in that of the latest resource when an update failed, in that of what was returned when it succeeded |
| Convergence.NoLostPublish | pkg/resource/state_machine/hooks.go:145-171 | from any state, a reconcile that wants versions, ends without error and had its probe answered records a live version of the last pushed configuration |
| Convergence.ProbeNeverHidesMachine | pkg/resource/state_machine/hooks.go:66-103 | the outcome of the version probe changes neither the error of the read nor the specification read; NotFound comes only from a missing ARN or from the describe call |
| Convergence.ReadVerdict | pkg/resource/state_machine/delta.go:34-115 | a read finds something to push only when the machine is not what the resource asks for; with the probe answered it always finds it |
| Convergence.PushSettlesIff | pkg/resource/state_machine/hooks.go:206-259 | a push settles the resource exactly when what was pushed is representable on the machine |
| Convergence.UnrepresentablePushesAgain | pkg/resource/state_machine/hooks.go:206-259 | for every specification, after a push of it the next answered read wants to push again exactly when it is not representable |
| Convergence.SuccessfulReconcile | pkg/resource/state_machine/hooks.go:71-143 | a reconcile that ends without error brings the tags to the desired ones, and leaves nothing to do exactly when the specification is representable and no missing version was hidden by an unanswered probe |
| Convergence.CleanReconcileSettles | pkg/resource/state_machine/hooks.go:107-143 | a failure-free reconcile of a fully specified resource succeeds, reaches exactly the desired tags and configuration, and leaves nothing to do |
| Convergence.RetryConverges | pkg/resource/state_machine/manager.go:159-166 | after an update failing anywhere the invariant holds, only tags may have changed, the latest status is what persists, and the next failure-free reconcile makes everything good |
| Convergence.QuietForever | pkg/resource/state_machine/delta.go:34-115 | with nobody else acting a settled resource stays settled over any run, whatever calls fail: no push, no change of the machine, the same recorded version |
| Convergence.QuietStep | pkg/resource/state_machine/hooks.go:145-171 | every successful read of a settled resource finds an empty delta |
| Convergence.EmptyDeltaForeverIff | pkg/resource/state_machine/hooks.go:71-171 | after a reconcile that succeeds the delta is empty over every undisturbed run exactly under that condition; otherwise the next answered read has something to push |
| Convergence.ThrottledProbeHidesDeletion | pkg/resource/state_machine/hooks.go:81-102 | from any settled state with a recorded version: the version is deleted, the probe throttled, the reconcile ends without error, and the next answered read pushes |
| PublishLoop.RunStaysInPlay | pkg/resource/state_machine/hooks.go:55-171 | over any run with fully specified specifications the resource stays identified, its specification true to the machine's name and type, and the invariant holds |
| PublishLoop.NoPublishLoop | pkg/resource/state_machine/hooks.go:107-171 | over any run with fully specified specifications, successful UpdateStateMachine calls plus what is still owed are at most what was owed before plus the disturbances |
| PublishLoop.CreateSettles | pkg/resource/state_machine/sdk.go:197-255 | a successful create leaves exactly the listed tags, and nothing to do exactly when the machine is created as given, as a fully specified one always is |
| PublishLoop.NoPublishLoopAfterCreate | pkg/resource/state_machine/hooks.go:107-171 | after a create there are at most as many updates as disturbances |
| PublishLoop.VersionsPaidFor | apis/v1alpha1/state_machine.go:44-52 | versions are cut by pushes only, at most one each |
| PublishLoop.VersionsBounded | apis/v1alpha1/state_machine.go:44-52 | with fully specified specifications no more versions are cut over a run than are owed at its start and disturbances pay for |
| PublishLoop.StuckStep | pkg/resource/state_machine/delta.go:46-112 | undisturbed, an unrepresentable specification stays so, and every successful read of it, its probe answered or not, finds something to push |
| PublishLoop.StuckForever | pkg/resource/state_machine/hooks.go:206-259 | the same over any undisturbed run |
| PublishLoop.PushesForever | pkg/resource/state_machine/hooks.go:107-143 | for every number there is an undisturbed run of an unrepresentable specification with that many successful updates |
| PublishLoop.CreateLoopsIff | pkg/resource/state_machine/sdk.go:259-328 | a new resource is in that loop exactly when the service does not create the machine as given: it chooses a member that was left out, or one given does not read back |
| PublishLoop.CreateOnDefaultsLoops | apis/v1alpha1/state_machine.go:29-35 | no type, where the service chooses one, or a logging block without a level, where it has a default, is enough |
| Convergence.ForeignEditAdopted | pkg/resource/state_machine/hooks.go:158-170 | when a third party edits the machine and the user then edits the specification to match, nothing is left to push, and the recorded version holds the machine's configuration exactly when that is the one last pushed |
| Reconcile.ReconcileOnce | pkg/resource/state_machine/hooks.go:158-164 | one reconcile through the manager's methods is a read and, exactly when the delta differs at Spec, an update of the protocol; it reports no error exactly when both succeed |
| Manager.ResourceManager.ReadOne | pkg/resource/state_machine/manager.go:97-115 | what the read returns, what it leaves in the resource asked for, which calls it makes and which error comes back, for every outcome of its calls; the conditions returned tell the outcome, entry by entry |
| Manager.ResourceManager.SdkFind | pkg/resource/state_machine/sdk.go:57-168 | the copy that is returned is the read-back of the machine with its tags and the probe's verdict; the resource asked for is untouched; the calls stop at the first that fails |
| Manager.ResourceManager.ClearDeletedVersionARN | pkg/resource/state_machine/hooks.go:71-103 | clears the recorded version exactly on the answer that it does not exist, and issues the probe only when versions are wanted and one is recorded |
| Manager.ResourceManager.CustomUpdateStateMachine | pkg/resource/state_machine/hooks.go:107-143 | machine, requests, result and the object written to are those of the update function; on an error the desired object is unchanged |
| Manager.ResourceManager.Update | pkg/resource/state_machine/manager.go:147-167 | on failure the latest resource comes back with the error told in its conditions, on success the desired one with what was raised lowered |
| Manager.ResourceManager.Create | pkg/resource/state_machine/manager.go:120-137 | one create request; a failed one changes nothing but the conditions, which tell the error; a successful one records the date, the ARN and the version of the response, absence included |
| Manager.ResourceManager.OnError | pkg/resource/state_machine/manager.go:386-406 | tells the error in the conditions of a copy: a plain error raises Recoverable with its own text and lowers Terminal, a terminal error raises Terminal with its text and leaves Recoverable, the rest is kept in place; returns the terminal error exactly for terminal errors when condition types are unique, and for every list exactly for terminal errors or a raised Terminal entry before a later one |
| Manager.ResourceManager.OnSuccess | pkg/resource/state_machine/manager.go:408-421 | lowers what was raised and completes the metadata on a copy; a resource without managed or sync conditions is left as it is |
| Manager.FindReports | pkg/resource/state_machine/sdk.go:57-168 | a read succeeds exactly when the machine is there and describe and list are answered; which error it reports otherwise; every member of the status it returns |
| Manager.ReadCalls | pkg/resource/state_machine/hooks.go:71-87 | the calls of a read in order, each made only when the one before it was answered, the version described only when versions are wanted and one is recorded |
| Manager.UpdateReports | pkg/resource/state_machine/hooks.go:107-143 | an update succeeds exactly when no call it makes fails; the tag error comes first; the configuration call is the last and is made only after the tags succeeded; all other members of the status stay |
| Manager.CreatedReports | pkg/resource/state_machine/sdk.go:220-241 | a successful create sets date, ARN and the version of the response, completes the metadata and changes nothing else |
| Manager.ResourceManager.SetStatusDefaults | pkg/resource/state_machine/sdk.go:377-395 | metadata that is set stays, region, partition and account default to the manager's own |
| Manager.TagFailureStopsUpdate | pkg/resource/state_machine/hooks.go:113-125 | a failed update whose configuration call would have been answered never issued it |
| Manager.MirrorProtectsAwsTags | pkg/resource/state_machine/manager.go:345-357 | after mirroring no request of the tag sync names an "aws:" tag that was read, and the user's other tags keep values and order |
| Conditions.UpdateConditions | pkg/resource/state_machine/sdk.go:399-472 | for every list, entry by entry: only the last entry of a type is written to, an error raises its condition with its own text and appends one when there is none, other outcomes lower Terminal, success lowers Recoverable, nothing else changes; reports whether anything is tracked |
| Conditions.RecordsMeaning | pkg/resource/state_machine/sdk.go:423-465 | with unique types: the error's condition is listed with its own text, a terminal error leaves Recoverable alone, any other outcome leaves no raised Terminal, success no raised Recoverable, and unmanaged conditions keep content and order |
| Conditions.UpdateStep | pkg/resource/state_machine/sdk.go:423-465 | one outcome keeps types unique and other conditions as they are, raises Terminal exactly on a terminal error, and Recoverable follows unless it was one |
| Conditions.ConditionsOverRun | pkg/resource/state_machine/sdk.go:399-472 | over any sequence of outcomes Terminal tells the last one and Recoverable the last that was not a terminal error |
| Conditions.TerminalAfter | pkg/resource/state_machine/manager.go:393-404 | for every list of conditions, Terminal is raised after an outcome exactly when that is a terminal error or an older raised Terminal entry stands before a later one |
| Conditions.TerminalExactIff | pkg/resource/state_machine/manager.go:393-404 | Terminal tells terminal errors from all other outcomes exactly when no raised Terminal entry stands before a later one, as with unique types |
| Conditions.DuplicateTerminalMisreports | pkg/resource/state_machine/manager.go:397-404 | an input on which it does not: with a raised Terminal listed twice a plain error comes back as terminal |
| Delta.NewResourceDelta | pkg/resource/state_machine/delta.go:34-115 | the differences reported, in order, for every pair of resources, a nil one included |
| Delta.DeltaMeaning | pkg/resource/state_machine/delta.go:46-112 | Spec.Tags is reported exactly when the tag maps differ, anything else exactly when the configurations differ or a publish is owed, and all of it lies under Spec |
| Delta.FieldsReportedAt | pkg/resource/state_machine/delta.go:46-112 | for every path: it is reported exactly when it lies on the way to a field whose values differ, so every field is reported under its own path and no other |
| Delta.TagDeltaMatchesSync | pkg/resource/state_machine/hooks.go:150-157 | the comparison reports Spec.Tags exactly when syncing the same lists would issue a request, whichever call would fail |
| Delta.ComparisonSound | pkg/resource/state_machine/delta.go:46-105 | with nothing reported outside Spec.Tags both resources push the same logging, role, tracing and, as documents, definition |
| Delta.UpdateReadRoundTrip | pkg/resource/state_machine/sdk.go:91-168 | pushing a specification and reading it back shows no configuration difference exactly when it is representable, for any list of destinations and any default log level |
| Delta.CreateReadRoundTrip | pkg/resource/state_machine/sdk.go:259-328 | creating from a specification and reading it back shows no configuration difference exactly when what it leaves out the service leaves out too and what it gives reads back; the same condition makes it representable for updates |
| Payloads.NewUpdateRequestPayload | pkg/resource/state_machine/hooks.go:206-259 | member by member from the specification: flags are set exactly when given as true, texts and destinations are the given ones, plus the ARN; equal to the create payload on every shared member |
| Payloads.NewCreateRequestPayload | pkg/resource/state_machine/sdk.go:259-328 | member by member from the specification: flags are set exactly when given as true, a text that is not given is empty, destinations and tags are carried element by element |
| Payloads.SetOutput | pkg/resource/state_machine/sdk.go:91-161 | every field of the response in the object, absence included; Publish, RoleRef and Tags stay |
| Payloads.CreatedTags | pkg/resource/state_machine/sdk.go:302-315 | the tags of the create request leave exactly the tags the list stands for |
| TagSync.SyncResourceTags | pkg/util/tags.go:73-131 | requests, error and tags left behind, for every outcome of the two calls |
| TagSync.SyncOrder | pkg/util/tags.go:88-129 | all keys read and not desired are untagged first, in one call; when it fails nothing else is called and the tags are the old ones; then exactly the tags missing or different are written, in one call, and when that fails the undesired keys are already gone |
| TagSync.GetResourceTags | pkg/util/tags.go:45-69 | the service's listing tag by tag and in its order; keys are distinct, values set, and the list stands for exactly the machine's tags |
| TagSync.RequestsExact | pkg/util/tags.go:88-129 | a request is issued exactly when the maps differ; its keys are strictly sorted, disagree, and are untagged only when not desired and tagged only with the desired value |
| TagSync.RequestsIgnoreOrder | pkg/util/tags.go:138-151 | permutations of lists with distinct keys give the same requests |
| TagSync.AttemptStep | pkg/util/tags.go:96-129 | after one attempt failing anywhere each key has its old or its desired value, agreement has not shrunk, and success means equality |
| TagSync.SyncNeverDrifts | pkg/util/tags.go:73-131 | the same over any sequence of attempts |
| TagSync.SyncConverges | pkg/util/tags.go:73-131 | from the first success on the tags are the desired ones and no later attempt makes a call |
| TagSync.AwsTagsNeverNamed | pkg/util/tags.go:88-129 | when the desired tags carry the "aws:" tags of the latest, no request names one and none changes |
| SortedKeys.SortedUnique | pkg/util/tags.go:101 | the strictly increasing enumeration of a set of keys is unique, so a request is determined by its keys |
| SortedKeys.LessMeaning | pkg/util/tags.go:101 | the order of keys is Go's: the smaller character at the first difference, a proper prefix first |
| AckTags.ToAckMeaning | pkg/resource/state_machine/tags.go:36-55 | a key is in the map exactly when it is in the key order, with the value of the last entry that has it |
| AckTags.FromAckRoundTrip | pkg/resource/state_machine/tags.go:61-78 | for every map, key order and walk of the remainder, converting the list back gives the map that went in |
| AckTags.NormalForm | pkg/resource/state_machine/tags.go:36-78 | list to map to list leaves unique keys with set values and exactly the map's pairs |
| AckTags.NormalByFirstPosition | pkg/resource/state_machine/tags.go:61-72 | every key sits where the list first had it |
| AckTags.NormalIdempotent | pkg/resource/state_machine/tags.go:36-78 | normalising twice is normalising once |
| AckTags.NormalFixedIffCanonical | pkg/resource/state_machine/tags.go:36-78 | a list comes back unchanged exactly when its keys are set and distinct and its values set |
| TagMaps.ConvertToOrderedACKTags | pkg/resource/state_machine/tags.go:36-55 | a fresh map and key order with the meaning given by AckTags.ToAckMeaning, for every list without nil elements |
| TagMaps.FromACKTags | pkg/resource/state_machine/tags.go:61-78 | the list for whatever order the remainder is walked in, and what is left of the map it consumes |
| TagMaps.IgnoreSystemTags | pkg/resource/state_machine/tags.go:85-92 | exactly the keys that begin with "aws:" or are listed as system tags are gone, whatever the order of deletion; the others keep their values |
| TagMaps.SyncAWSTags | pkg/resource/state_machine/tags.go:113-119 | the first map with exactly those entries of the second written over it whose key begins with "aws:" |
| TagPipeline.EnsureTags | pkg/resource/state_machine/manager.go:284-301 | the normal form of the user's list first (the list itself when it is canonical), then the default tags it lacks, in some order |
| TagPipeline.FilterSystemTags | pkg/resource/state_machine/manager.go:322-332 | a tag is left exactly when its key does not begin with "aws:" and is not listed as a system tag; what is left keeps its value, once each, in the order of first places |
| TagPipeline.MirrorAWSTags | pkg/resource/state_machine/manager.go:345-357 | the desired tags with every "aws:" tag of the latest written over them, nothing else touched; nil resources leave all as it is |
| TagPipeline.EnsureThenFilter | pkg/resource/state_machine/manager.go:284-332 | EnsureTags then FilterSystemTags gives the list back, for every order, exactly when it is canonical, names no system key, and every default key it lacks is a system key |
| TagPipeline.PipelineKeepsList | pkg/resource/state_machine/manager.go:284-357 | EnsureTags, mirroring of any latest tags and FilterSystemTags in a row, in whatever orders tags are appended, give the list back exactly under the same condition |
| TagPipeline.MirrorKeepsUserTags | pkg/resource/state_machine/manager.go:334-357 | mirroring keeps the values and the relative order of all tags that are not "aws:" |
| ManagerFactory.EveryInterleaving | pkg/resource/state_machine/manager_factory.go:48-79 | in every interleaving of calls with any arguments each manager handed out was built for one of the callers of the run, who has the same key, so for the account and region asked for when the key decides them; a cached key stays cached; every miss has built a manager, has failed or is still waiting |
| ManagerFactory.PlainInterleaving | pkg/resource/state_machine/manager_factory.go:48-79 | when no account and region contains a slash each manager handed out is for the account and region asked for |
| ManagerFactory.CallersFitIff | pkg/resource/state_machine/manager_factory.go:48-79 | for any set of callers, every interleaving of their calls hands out managers for the account and region asked for exactly when no two of them share a key and differ in account or region |
| ManagerFactory.CollisionHandsOutWrongManager | pkg/resource/state_machine/manager_factory.go:61-68 | of two callers with one key and different accounts or regions the second is handed the manager of the first |
| ManagerFactory.KeyDecidesIff | pkg/resource/state_machine/manager_factory.go:58-61 | the key decides account and region exactly when neither they nor the role ARN contain a slash |
| ManagerFactory.SequentialBuildsOnce | pkg/resource/state_machine/manager_factory.go:48-79 | calls one after another build exactly one manager per key |
| ManagerFactory.KeyInjective | pkg/resource/state_machine/manager_factory.go:58-61 | without slashes in account and region the key determines the arguments |
| ManagerFactory.KeyCollidesWithSlashes | pkg/resource/state_machine/manager_factory.go:61 | two different callers with one key |
| ManagerFactory.BuiltTwiceIffOverlap | pkg/resource/state_machine/manager_factory.go:63-79 | in every interleaving a second construction for a key needs a call that misses while another waits; without failures, and once no call waits, it happens exactly then, and otherwise a key asked for is built exactly once |
| ManagerFactory.TwoMissesBuildTwo | pkg/resource/state_machine/manager_factory.go:66-78 | two calls that miss together build two managers and drop the first |
| ManagerFactory.Factory.ManagerFor | pkg/resource/state_machine/manager_factory.go:48-79 | an uninterrupted call returns the cached manager, or builds, stores and returns one |
| AliasRouting.ConvertRouting | pkg/resource/state_machine_alias/sdk.go:232-250 | fails exactly when some weight lies outside -2147483648 to 2147483647, and otherwise carries every ARN and every weight exactly, zero for one that is not set |
| AliasRouting.SdkUpdate | pkg/resource/state_machine_alias/sdk.go:257-325 | a weight that does not fit stops the update before any call; otherwise the one request names the alias by its ARN and carries description and routing, and on success the desired resource comes back with its defaults |
| AliasRouting.SdkCreate | pkg/resource/state_machine_alias/sdk.go:163-216 | the same for create, with the ARN and the date of the response in what comes back |
| AliasRouting.CarriedReadsBack | pkg/resource/state_machine_alias/sdk.go:109-123 | a routing list that was sent reads back the same exactly when every weight is set |
| AliasRouting.FieldsReportedAt | pkg/resource/state_machine_alias/delta.go:45-65 | for every path: it is reported exactly when it lies on the way to a field whose values differ |
| AliasRouting.UpdateReadCompare | pkg/resource/state_machine_alias/delta.go:59-65 | after a successful update the comparison reports no routing difference exactly when all weights are set, or, without routing, when the service has none |
| References.GetReferencedResourceState | pkg/resource/state_machine/references.go:128-176 | a role is usable exactly when it can be read, no Terminal condition stands, a Synced one does, and it has an ARN; a lowered condition does not count; each refusal goes with exactly one of these reasons, in that order |
| References.ResolveReferences | pkg/resource/state_machine/references.go:59-75 | for every specification and cluster: a usable role that is named puts its ARN into the object it is given, anything else leaves the specification and reports the reason; validation is reported only when the resolution has no error |
| References.ClearUndoesResolve | pkg/resource/state_machine/references.go:42-122 | clearing after resolving, successful or not, restores the specification exactly when it did not give both a reference and an ARN |
| References.ResolutionIsSound | pkg/resource/state_machine/references.go:94-122 | a resolution without error leaves the ARN of a usable role that the reference names |
| References.SecondResolutionRefused | pkg/resource/state_machine/references.go:64-88 | resolving an object a second time is refused exactly when the first time resolved something |

## Left out

- Lost responses: an UpdateStateMachine call that fails and still takes effect is assumed not to happen; the code does not recover the recorded version there.
- A failure to persist the status after an update is not modelled either; the persisted version would then be stale in the same way.
- Calls inside one ReadOne or one Update are not interleaved with other parties; events happen between manager calls.
- Delete, adoption, and the deletion of the state machine behind the controller's back.
- LateInitialize: its list of fields is empty, so it returns its input.
- The activity resource: its tag, manager, SDK and factory code is the same as that of the state machine.
- ARN and date formats, logging and metrics: no decision depends on them. A version ARN is represented by its number, a date by a count.
- DeepCopy is taken to give an equal, fresh copy.
- EnsureTags and FilterSystemTags are proved on their own and are not events of the protocol; the runtime that orders them is not part of this model.
- Conditions are a list of values that the update reassigns element by element, not a list of pointers; aliasing of condition entries is not captured.
- The texts of the runtime's own sentinel errors are placeholders; messages matter only through being copied into conditions.
- JSON comparison and the inspection of error chains are library code; they appear as a canonical form and as a classification of error values.
