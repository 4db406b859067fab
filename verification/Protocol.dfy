/** The reconcile protocol of a StateMachine as a transition system: what the
    controller, its user, and anybody else with access to the account may do, in
    any order, and what holds in every state a run can reach.

    The runtime calls Update only when the comparison differs at "Spec", and
    persists the status of the resource a manager call returned. */
module Protocol {
  import opened Wrappers
  import opened Api
  import opened AckTags
  import opened TagPipeline
  import opened TagSync
  import opened Payloads
  import opened Manager
  import Service
  import opened Delta

  datatype Env = Env(id: Identity, canon: Canon)

  /** Between ReadOne and Update the runtime holds a copy of both resources. */
  datatype Phase = Idle | Pending(desired: Resource, latest: Resource)

  /** `cr` is the persisted custom resource, its references resolved. `pushed` and `foreign` are history:
      the configuration the controller last pushed, and whether somebody else
      changed the configuration since. */
  datatype World = World(
    cr: Resource,
    machine: Option<Service.Machine>,
    phase: Phase,
    pushed: Option<Service.Config>,
    foreign: bool)

  /** The controller's own events are Create, Read, Update and Restart; a restart
      forgets what was held between read and update. */
  datatype Event =
    | Create(create: Service.Outcome, chosen: Service.Chosen)
    | Read(read: ReadOutcome, listed: seq<Api.Tag>, rest: seq<string>)
    | Update(update: UpdateOutcome)
    | Restart
    | EditSpec(spec: Api.Spec)
    | DeleteVersion(number: nat)
    | EditConfig(config: Service.Config)
    | EditTags(tags: AckTags.Tags)

  ghost predicate Initial(w: World) {
    w.machine.None? && w.phase.Idle? && w.pushed.None? && !w.foreign
    && ArnOf(w.cr.status).None? && w.cr.status.versionArn.None?
  }

  ghost predicate Possible(w: World, e: Event) {
    match e
    case Create(_, _) => w.phase.Idle? && ArnOf(w.cr.status).None?
    case Read(_, listed, rest) => w.phase.Idle? && IsListing(w.machine, listed) && MirrorOrder(w.cr.spec.tags, listed, rest)
    case Update(_) => w.phase.Pending? && ArnOf(w.phase.desired.status).Some?
    case Restart => w.phase.Pending?
    case EditSpec(_) => true
    case DeleteVersion(_) => w.machine.Some?
    case EditConfig(_) => w.machine.Some?
    case EditTags(_) => w.machine.Some?
  }

  function WithStatus(w: World, s: Status): World {
    w.(cr := w.cr.(status := s))
  }

  ghost function AfterCreate(env: Env, w: World, e: Event): World
    requires e.Create?
  {
    var err := Service.CreateError(w.machine, e.create);
    if err.Some? then WithStatus(w, Noted(env.id, w.cr, err).status)
    else
      var m := Service.Create(CreatePayload(w.cr.spec), e.chosen);
      WithStatus(w, Noted(env.id, Created(env.id, w.cr, m), None).status)
      .(machine := Some(m), pushed := Some(m.config), foreign := false)
  }

  ghost function AfterRead(env: Env, w: World, e: Event): World
    requires e.Read? && Possible(w, e)
  {
    var found := Find(env.id, w.cr, w.machine, e.read, e.listed);
    if found.Err? then WithStatus(w, Noted(env.id, w.cr, Some(found.error)).status)
    else
      var desired := WithMirror(w.cr, e.listed, e.rest);
      var latest := Noted(env.id, found.value, None);
      if DifferentAtPath(DeltaPaths(env.canon, desired, latest), SPEC) then w.(phase := Pending(desired, latest))
      else WithStatus(w, latest.status)
  }

  ghost function Attempted(env: Env, w: World, e: Event): UpdateResult
    requires e.Update? && Possible(w, e)
  {
    var d, l := w.phase.desired, w.phase.latest;
    CustomUpdate(env.id, d, l, DeltaPaths(env.canon, d, l), w.machine, e.update)
  }

  /** The comparison the update acts on shows more than tags. */
  ghost predicate Pushes(env: Env, w: World) {
    w.phase.Pending? && DifferentExceptPath(DeltaPaths(env.canon, w.phase.desired, w.phase.latest), SPEC_TAGS)
  }

  /** This event is a successful UpdateStateMachine call. */
  ghost predicate Pushed(env: Env, w: World, e: Event)
    requires Possible(w, e)
  {
    e.Update? && Pushes(env, w) && Attempted(env, w, e).result.Ok?
  }

  ghost function AfterUpdate(env: Env, w: World, e: Event): World
    requires e.Update? && Possible(w, e)
  {
    var u := Attempted(env, w, e);
    var noted := match u.result
                 case Ok(v) => Noted(env.id, v, None)
                 case Err(err) => Noted(env.id, w.phase.latest, Some(err));
    var w' := WithStatus(w, noted.status).(machine := u.machine, phase := Idle);
    if Pushed(env, w, e) && u.machine.Some? then w'.(pushed := Some(u.machine.value.config), foreign := false) else w'
  }

  ghost function Next(env: Env, w: World, e: Event): World
    requires Possible(w, e)
  {
    match e
    case Create(_, _) => AfterCreate(env, w, e)
    case Read(_, _, _) => AfterRead(env, w, e)
    case Update(_) => AfterUpdate(env, w, e)
    case Restart => w.(phase := Idle)
    case EditSpec(spec) => w.(cr := w.cr.(spec := spec))
    case DeleteVersion(n) => w.(machine := Some(Service.DeleteVersion(w.machine.value, n)))
    case EditConfig(c) =>
      w.(machine := Some(Service.WithConfig(w.machine.value, c)), foreign := w.foreign || c != w.machine.value.config)
    case EditTags(tags) => w.(machine := WithTags(w.machine, tags))
  }

  ghost predicate Feasible(env: Env, w: World, es: seq<Event>)
    decreases |es|
  {
    es == [] || (Possible(w, es[0]) && Feasible(env, Next(env, w, es[0]), es[1..]))
  }

  ghost function Run(env: Env, w: World, es: seq<Event>): World
    requires Feasible(env, w, es)
    decreases |es|
  {
    if es == [] then w else Run(env, Next(env, w, es[0]), es[1..])
  }

  // ---------- the invariant ----------

  /** A recorded version was cut, and with exactly the configuration last pushed. */
  ghost predicate RecordsPushed(w: World, s: Status) {
    s.versionArn.Some? ==>
      && w.machine.Some? && w.pushed.Some?
      && s.versionArn.value in w.machine.value.history
      && w.machine.value.history[s.versionArn.value].config == w.pushed.value
  }

  ghost predicate Identified(w: World, s: Status) {
    w.machine.Some? && ArnOf(s) == Some(w.machine.value.arn)
  }

  ghost predicate Inv(w: World) {
    && (w.machine.Some? ==> Service.Consistent(w.machine.value) && w.pushed.Some?)
    && (w.machine.Some? && !w.foreign ==> w.pushed == Some(w.machine.value.config))
    && (ArnOf(w.cr.status).Some? ==> Identified(w, w.cr.status))
    && RecordsPushed(w, w.cr.status)
    && (w.phase.Pending? ==>
          && Identified(w, w.cr.status)
          && w.phase.desired.status == w.cr.status
          && Identified(w, w.phase.latest.status)
          && (w.phase.latest.status.versionArn == w.cr.status.versionArn
              || (w.phase.latest.status.versionArn.None? && IsTrue(w.phase.desired.spec.publish))))
  }

  /** What a successful read returns. */
  lemma FindMeaning(env: Env, r: Resource, m: Service.Machine, o: ReadOutcome, listed: seq<Api.Tag>)
    requires Find(env.id, r, Some(m), o, listed).Ok?
    ensures var l := Find(env.id, r, Some(m), o, listed).value;
            && ArnOf(r.status) == Some(m.arn) == ArnOf(l.status)
            && l.spec == ReadBack(r.spec, Service.Describe(m)).(tags := listed)
            && l.status.versionArn == if Probes(r) && o.probe.Answered? && r.status.versionArn.value !in m.live then None else r.status.versionArn
  {
  }

  /** What the controller persists tells how its call ended: a failed create or
      read in the resource's own status, a failed update in that of the latest one;
      a success in the status of what the call returned. A read that leaves an
      update pending persists nothing. */
  lemma OutcomeIsPersisted(env: Env, w: World, e: Event)
    requires Possible(w, e) && (e.Create? || e.Read? || e.Update?)
    ensures var z := Next(env, w, e);
            && z.cr.spec == w.cr.spec
            && (match e
                case Create(o, chosen) =>
                  var err := Service.CreateError(w.machine, o);
                  if err.Some? then Tells(env.id, w.cr, z.cr, err)
                  else z.machine.Some? && Tells(env.id, Created(env.id, w.cr, z.machine.value), z.cr, None)
                case Read(o, listed, rest) =>
                  var found := Find(env.id, w.cr, w.machine, o, listed);
                  if found.Err? then Tells(env.id, w.cr, z.cr, Some(found.error))
                  else if z.phase.Pending? then z.cr == w.cr
                  else Tells(env.id, found.value, Resource(found.value.spec, z.cr.status), None)
                case Update(o) =>
                  match Attempted(env, w, e).result
                  case Ok(v) => Tells(env.id, v, Resource(v.spec, z.cr.status), None)
                  case Err(err) => Tells(env.id, w.phase.latest, Resource(w.phase.latest.spec, z.cr.status), Some(err)))
  {
    match e
    case Create(o, chosen) =>
      var err := Service.CreateError(w.machine, o);
      if err.Some? {
        NotedTells(env.id, w.cr, err);
      } else {
        NotedTells(env.id, Created(env.id, w.cr, Service.Create(CreatePayload(w.cr.spec), chosen)), None);
      }
    case Read(o, listed, _) =>
      var found := Find(env.id, w.cr, w.machine, o, listed);
      if found.Err? {
        NotedTells(env.id, w.cr, Some(found.error));
      } else {
        NotedTells(env.id, found.value, None);
      }
    case Update(_) =>
      match Attempted(env, w, e).result {
        case Ok(v) => NotedTells(env.id, v, None);
        case Err(err) => NotedTells(env.id, w.phase.latest, Some(err));
      }
  }

  /** One update, whichever of its calls fails: the machine keeps its identity and
      every version ever cut, and unless the configuration was pushed nothing but
      its tags changes. */
  lemma UpdateKeepsMachine(env: Env, w: World, e: Event)
    requires Inv(w) && e.Update? && Possible(w, e)
    ensures var u, m := Attempted(env, w, e), w.machine.value;
            && u.machine.Some? && Service.Consistent(u.machine.value)
            && u.machine.value.arn == m.arn && u.machine.value.name == m.name && u.machine.value.typ == m.typ
            && u.machine.value.defaultLevel == m.defaultLevel
            && (forall n | n in m.history :: n in u.machine.value.history && u.machine.value.history[n] == m.history[n])
            && (if Pushed(env, w, e) then u.machine.value.config == Service.Push(m.config, UpdatePayload(w.phase.desired))
                else u.machine.value == m.(tags := u.machine.value.tags))
  {
    var d, l := w.phase.desired, w.phase.latest;
    var ds, m := DeltaPaths(env.canon, d, l), w.machine.value;
    CustomUpdateMeaning(env.id, d, l, ds, m, e.update);
    var m1 := m.(tags := SyncHalf(d, l, ds, w.machine, e.update).tags);
    Service.UpdateConsistent(m1, UpdatePayload(d));
  }

  /** The version a successful update records: after a push a live version of the
      pushed configuration, or none when the user does not version; otherwise
      what was recorded before. */
  lemma UpdateRecords(env: Env, w: World, e: Event)
    requires Inv(w) && e.Update? && Possible(w, e) && Attempted(env, w, e).result.Ok?
    ensures var u := Attempted(env, w, e);
            var v := u.result.value;
            && v.spec == w.phase.desired.spec && ArnOf(v.status) == Some(w.machine.value.arn)
            && if Pushed(env, w, e)
               then && (v.status.versionArn.Some? <==> IsTrue(v.spec.publish))
                    && (v.status.versionArn.Some? ==>
                          && v.status.versionArn.value in u.machine.value.live
                          && v.status.versionArn.value in u.machine.value.history
                          && u.machine.value.history[v.status.versionArn.value].config == u.machine.value.config)
               else v.status.versionArn == w.cr.status.versionArn
  {
  }

  lemma ReadKeepsInv(env: Env, w: World, e: Event)
    requires Inv(w) && e.Read? && Possible(w, e)
    ensures Inv(AfterRead(env, w, e))
  {
    var found := Find(env.id, w.cr, w.machine, e.read, e.listed);
    if found.Ok? {
      FindMeaning(env, w.cr, w.machine.value, e.read, e.listed);
      NotedKeeps(env.id, found.value, None);
    } else {
      NotedKeeps(env.id, w.cr, Some(found.error));
    }
  }

  lemma UpdateKeepsInv(env: Env, w: World, e: Event)
    requires Inv(w) && e.Update? && Possible(w, e)
    ensures Inv(AfterUpdate(env, w, e))
  {
    var u := Attempted(env, w, e);
    UpdateKeepsMachine(env, w, e);
    if u.result.Ok? {
      UpdateRecords(env, w, e);
      NotedKeeps(env.id, u.result.value, None);
    } else {
      NotedKeeps(env.id, w.phase.latest, Some(u.result.error));
    }
  }

  /** Every step keeps the invariant. */
  lemma StepKeepsInv(env: Env, w: World, e: Event)
    requires Inv(w) && Possible(w, e)
    ensures Inv(Next(env, w, e))
  {
    match e
    case Create(_, chosen) =>
      Service.CreateConsistent(CreatePayload(w.cr.spec), chosen);
    case Read(_, _, _) => ReadKeepsInv(env, w, e);
    case Update(_) => UpdateKeepsInv(env, w, e);
    case Restart =>
    case EditSpec(_) =>
    case DeleteVersion(n) => Service.DeleteVersionConsistent(w.machine.value, n);
    case EditConfig(c) => Service.WithConfigConsistent(w.machine.value, c);
    case EditTags(tags) =>
  }

  lemma {:induction false} RunKeepsInv(env: Env, w: World, es: seq<Event>)
    requires Inv(w) && Feasible(env, w, es)
    ensures Inv(Run(env, w, es))
    decreases |es|
  {
    if es != [] {
      StepKeepsInv(env, w, es[0]);
      RunKeepsInv(env, Next(env, w, es[0]), es[1..]);
    }
  }

  /** In every state any run can reach, a recorded version ARN names a version cut
      with exactly the configuration the controller last pushed; so it holds the
      machine's current one exactly when that was the last pushed, as it is while
      nobody else changes it. */
  lemma RecordedVersionIsLastPushed(env: Env, w: World, es: seq<Event>)
    requires Initial(w) && Feasible(env, w, es)
    ensures var z := Run(env, w, es);
            var v := z.cr.status.versionArn;
            v.Some? ==>
              && z.machine.Some? && z.pushed.Some?
              && v.value in z.machine.value.history
              && z.machine.value.history[v.value].config == z.pushed.value
              && (z.machine.value.history[v.value].config == z.machine.value.config <==> z.pushed.value == z.machine.value.config)
              && (!z.foreign ==> z.pushed.value == z.machine.value.config)
  {
    RunKeepsInv(env, w, es);
  }
}
