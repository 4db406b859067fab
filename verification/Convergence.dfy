/** What the reconcile protocol achieves: no publish is lost, failures are made
    good, and a settled resource stays settled. */
module Convergence {
  import opened Wrappers
  import opened Api
  import opened AckTags
  import opened TagMaps
  import opened TagPipeline
  import opened TagSync
  import opened Payloads
  import opened Manager
  import Service
  import opened Delta
  import opened Protocol

  /** The machine is what the resource asks for, and a wanted version is recorded
      and live. Tags are left aside. */
  ghost predicate Settled(env: Env, r: Resource, m: Service.Machine) {
    && SameConfiguration(env.canon, r.spec, ReadBack(r.spec, Service.Describe(m)))
    && (IsTrue(r.spec.publish) ==> r.status.versionArn.Some? && r.status.versionArn.value in m.live)
  }

  ghost predicate SameButTags(a: Api.Spec, b: Api.Spec) {
    a.(tags := []) == b.(tags := [])
  }

  ghost predicate Reads(env: Env, w: World, e: Event) {
    e.Read? && Possible(w, e) && Find(env.id, w.cr, w.machine, e.read, e.listed).Ok?
  }

  /** A read finds something to push when the machine is not settled, and only
      then; an unanswered probe can at most hide a missing version. */
  lemma ReadVerdict(env: Env, w: World, e: Event)
    requires Inv(w) && Reads(env, w, e)
    ensures var w' := Next(env, w, e);
            && (Pushes(env, w') ==> !Settled(env, w.cr, w.machine.value))
            && (!Pushes(env, w') && (e.read.probe.Answered? || !Probes(w.cr)) ==> Settled(env, w.cr, w.machine.value))
            && (w'.phase.Pending? ==> SameButTags(w'.phase.desired.spec, w.cr.spec) && w'.cr == w.cr)
            && (!w'.phase.Pending? ==> w'.cr.spec == w.cr.spec && w'.cr.status.versionArn == w.cr.status.versionArn)
            && w'.machine == w.machine
            && (w'.phase.Pending? <==> Pushes(env, w') || WithAwsTags(ToAck(w.cr.spec.tags), w.machine.value.tags) != w.machine.value.tags)
            && (w'.phase.Pending? ==>
                  && ToAck(w'.phase.desired.spec.tags) == WithAwsTags(ToAck(w.cr.spec.tags), w.machine.value.tags)
                  && ToAck(w'.phase.latest.spec.tags) == w.machine.value.tags)
  {
    var m := w.machine.value;
    FindMeaning(env, w.cr, m, e.read, e.listed);
    var found := Find(env.id, w.cr, w.machine, e.read, e.listed).value;
    NotedKeeps(env.id, found, None);
    MirroredContents(w.cr.spec.tags, e.listed, e.rest);
    DeltaMeaning(env.canon, WithMirror(w.cr, e.listed, e.rest), Noted(env.id, found, None));
  }

  // ---------- no lost publish ----------

  /** Read, and update when the read leaves something pending. */
  ghost function Reconciled(env: Env, w: World, read: Event, update: Event): World
    requires read.Read? && Possible(w, read) && update.Update?
    requires Next(env, w, read).phase.Pending? ==> Possible(Next(env, w, read), update)
  {
    var w1 := Next(env, w, read);
    if w1.phase.Pending? then Next(env, w1, update) else w1
  }

  ghost predicate Succeeds(env: Env, w: World, read: Event, update: Event) {
    && Reads(env, w, read) && update.Update?
    && (Next(env, w, read).phase.Pending? ==>
          Possible(Next(env, w, read), update) && Attempted(env, Next(env, w, read), update).result.Ok?)
  }

  /** From whatever state (never published, version deleted, configuration changed
      while publish was off), a reconcile that wants versions, ends without error
      and had its probe answered records a live version of what was last pushed. */
  lemma NoLostPublish(env: Env, w: World, read: Event, update: Event)
    requires Inv(w) && IsTrue(w.cr.spec.publish)
    ensures Succeeds(env, w, read, update) && read.read.probe.Answered? ==>
              var z := Reconciled(env, w, read, update);
              var v := z.cr.status.versionArn;
              && z.phase.Idle? && v.Some? && z.machine.Some? && z.pushed.Some?
              && v.value in z.machine.value.live && v.value in z.machine.value.history
              && z.machine.value.history[v.value].config == z.pushed.value
  {
    if Succeeds(env, w, read, update) && read.read.probe.Answered? {
      StepKeepsInv(env, w, read);
      ReadVerdict(env, w, read);
      var w1 := Next(env, w, read);
      if w1.phase.Pending? {
        UpdateKeepsMachine(env, w1, update);
        UpdateRecords(env, w1, update);
        StepKeepsInv(env, w1, update);
        NotedKeeps(env.id, Attempted(env, w1, update).result.value, None);
      }
    }
  }

  /** Whatever the probe's outcome, a read reports the machine as gone only when the
      resource has no ARN or the describe call itself was answered that way. */
  lemma ProbeNeverHidesMachine(id: Identity, r: Resource, machine: Option<Service.Machine>, o: ReadOutcome, probe: Service.Outcome, listed: seq<Api.Tag>)
    ensures var a, b := Find(id, r, machine, o, listed), Find(id, r, machine, o.(probe := probe), listed);
            && (a.Err? <==> b.Err?) && (a.Err? ==> a == b)
            && (a.Ok? ==> a.value.spec == b.value.spec)
            && (a == Err(NotFound) <==>
                  || ArnOf(r.status).None?
                  || (o.describe.Answered? && !(machine.Some? && ArnOf(r.status) == Some(machine.value.arn))))
  {
  }

  // ---------- failures are made good ----------

  /** The persisted tags, with the machine's own "aws:" tags, are the machine's tags. */
  ghost predicate TagsAgree(w: World)
    requires w.machine.Some?
  {
    WithAwsTags(ToAck(w.cr.spec.tags), w.machine.value.tags) == w.machine.value.tags
  }

  ghost predicate Quiet(env: Env, w: World) {
    && Inv(w) && w.phase.Idle? && Identified(w, w.cr.status)
    && Settled(env, w.cr, w.machine.value) && TagsAgree(w)
  }

  ghost predicate Specified(env: Env, s: Api.Spec, m: Service.Machine) {
    FullySpecified(env.canon, s, m.name, m.typ)
  }

  const ALL_READ := ReadOutcome(Service.Answered, Service.Answered, Service.Answered)
  const ALL_UPDATED := UpdateOutcome(Service.Answered, Service.Answered, Service.Answered)

  /** What was pushed reads back without a configuration difference exactly when it
      is representable on the machine. */
  lemma PushReadsBack(env: Env, w: World, e: Event)
    requires Inv(w) && e.Update? && Possible(w, e) && Pushed(env, w, e)
    ensures var u, d := Attempted(env, w, e), w.phase.desired;
            && u.machine.Some?
            && (SameConfiguration(env.canon, d.spec, ReadBack(d.spec, Service.Describe(u.machine.value)))
                <==> Representable(env.canon, d.spec, w.machine.value))
  {
    var d, l, m := w.phase.desired, w.phase.latest, w.machine.value;
    var ds := DeltaPaths(env.canon, d, l);
    CustomUpdateMeaning(env.id, d, l, ds, m, e.update);
    var m1 := m.(tags := SyncHalf(d, l, ds, w.machine, e.update).tags);
    UpdateReadRoundTrip(env.canon, d, m1, Service.Describe(Service.Update(m1, UpdatePayload(d))));
  }

  /** A push settles every resource that differs from the pushed one in tags only,
      exactly when what was pushed is representable on the machine. */
  lemma PushSettlesIff(env: Env, w: World, e: Event, s: Api.Spec)
    requires Inv(w) && e.Update? && Possible(w, e) && Pushed(env, w, e)
    requires SameButTags(s, w.phase.desired.spec)
    ensures Attempted(env, w, e).machine.Some?
    ensures Settled(env, Resource(s, Attempted(env, w, e).result.value.status), Attempted(env, w, e).machine.value)
       <==> Representable(env.canon, w.phase.desired.spec, w.machine.value)
  {
    UpdateRecords(env, w, e);
    PushReadsBack(env, w, e);
  }

  /** A specification that is not representable is the one cause of a loop: after
      every successful push of it the next answered read wants to push again. */
  lemma UnrepresentablePushesAgain(env: Env, w: World, e: Event, read: Event)
    requires Inv(w) && e.Update? && Possible(w, e) && Pushed(env, w, e)
    requires SameButTags(w.cr.spec, w.phase.desired.spec)
    ensures Reads(env, Next(env, w, e), read) && read.read.probe.Answered? ==>
              (Pushes(env, Next(env, Next(env, w, e), read)) <==>
                !Representable(env.canon, w.phase.desired.spec, w.machine.value))
  {
    var w1 := Next(env, w, e);
    if Reads(env, w1, read) && read.read.probe.Answered? {
      StepKeepsInv(env, w, e);
      PushSettlesIff(env, w, e, w.cr.spec);
      NotedKeeps(env.id, Attempted(env, w, e).result.value, None);
      ReadVerdict(env, w1, read);
    }
  }

  // ---------- what a reconcile that succeeds leaves ----------

  lemma StaysIdentified(env: Env, w: World, e: Event)
    requires Inv(w) && Identified(w, w.cr.status) && Possible(w, e)
    ensures Identified(Next(env, w, e), Next(env, w, e).cr.status)
  {
    match e
    case Read(_, _, _) =>
      var found := Find(env.id, w.cr, w.machine, e.read, e.listed);
      if found.Ok? {
        FindMeaning(env, w.cr, w.machine.value, e.read, e.listed);
        NotedKeeps(env.id, found.value, None);
      } else {
        NotedKeeps(env.id, w.cr, Some(found.error));
      }
    case Update(_) =>
      UpdateKeepsMachine(env, w, e);
      if Attempted(env, w, e).result.Ok? {
        UpdateRecords(env, w, e);
        NotedKeeps(env.id, Attempted(env, w, e).result.value, None);
      } else {
        NotedKeeps(env.id, w.phase.latest, Some(Attempted(env, w, e).result.error));
      }
    case _ =>
  }

  lemma SuccessSyncsTags(env: Env, w: World, update: Event)
    requires Inv(w) && update.Update? && Possible(w, update) && Attempted(env, w, update).result.Ok?
    requires ToAck(w.phase.latest.spec.tags) == w.machine.value.tags
    ensures Attempted(env, w, update).machine.Some?
    ensures Attempted(env, w, update).machine.value.tags == ToAck(w.phase.desired.spec.tags)
  {
    var d, l, m := w.phase.desired, w.phase.latest, w.machine.value;
    AttemptStep(m.arn, m.tags, ToAck(d.spec.tags), OutcomeFor(w.machine, m.arn, update.update.untag, update.update.tag));
    DeltaMeaning(env.canon, d, l);
    CustomUpdateMeaning(env.id, d, l, DeltaPaths(env.canon, d, l), m, update.update);
  }

  /** An update none of whose calls fails succeeds. */
  lemma CleanUpdateSucceeds(env: Env, w: World, update: Event)
    requires Inv(w) && update.Update? && Possible(w, update) && update.update == ALL_UPDATED
    requires ToAck(w.phase.latest.spec.tags) == w.machine.value.tags
    ensures Attempted(env, w, update).result.Ok?
  {
    AttemptStep(w.machine.value.arn, w.machine.value.tags, ToAck(w.phase.desired.spec.tags), SyncOutcome(None, None));
  }

  lemma SuccessfulUpdateLeaves(env: Env, w: World, update: Event)
    requires Inv(w) && update.Update? && Possible(w, update) && Attempted(env, w, update).result.Ok?
    requires ToAck(w.phase.latest.spec.tags) == w.machine.value.tags
    requires SameButTags(w.cr.spec, w.phase.desired.spec)
    ensures var z := Next(env, w, update);
            && Inv(z) && z.phase.Idle? && Identified(z, z.cr.status) && z.cr.spec == w.cr.spec
            && z.machine.value.tags == ToAck(w.phase.desired.spec.tags)
            && (Settled(env, z.cr, z.machine.value) <==>
                  if Pushes(env, w) then Representable(env.canon, w.phase.desired.spec, w.machine.value)
                  else Settled(env, w.cr, w.machine.value))
  {
    SuccessSyncsTags(env, w, update);
    StepKeepsInv(env, w, update);
    UpdateKeepsMachine(env, w, update);
    UpdateRecords(env, w, update);
    NotedKeeps(env.id, Attempted(env, w, update).result.value, None);
    if Pushed(env, w, update) {
      PushSettlesIff(env, w, update, w.cr.spec);
    }
  }

  /** No missing version can hide from this read: the probe is answered or not
      needed, or the version is live, or the configuration is pushed anyway. */
  ghost predicate NothingHidden(env: Env, w: World, read: Event)
    requires read.Read? && w.machine.Some?
  {
    || read.read.probe.Answered?
    || !Probes(w.cr)
    || w.cr.status.versionArn.value in w.machine.value.live
    || !SameConfiguration(env.canon, w.cr.spec, ReadBack(w.cr.spec, Service.Describe(w.machine.value)))
  }

  lemma SuccessfulReconcileLeaves(env: Env, w: World, read: Event, update: Event)
    requires Inv(w) && Identified(w, w.cr.status) && Succeeds(env, w, read, update)
    ensures var z := Reconciled(env, w, read, update);
            && Inv(z) && z.phase.Idle? && Identified(z, z.cr.status) && z.cr.spec == w.cr.spec
            && z.machine.value.tags == WithAwsTags(ToAck(w.cr.spec.tags), w.machine.value.tags)
            && (Settled(env, z.cr, z.machine.value) <==>
                  if Pushes(env, Next(env, w, read)) then Representable(env.canon, w.cr.spec, w.machine.value)
                  else Settled(env, w.cr, w.machine.value))
  {
    StepKeepsInv(env, w, read);
    ReadVerdict(env, w, read);
    StaysIdentified(env, w, read);
    if Next(env, w, read).phase.Pending? {
      SuccessfulUpdateLeaves(env, Next(env, w, read), update);
    }
  }

  /** A reconcile that ends without error brings the tags to the desired ones, and
      leaves nothing to do exactly when the specification is representable and no
      missing version was hidden by an unanswered probe. */
  lemma SuccessfulReconcile(env: Env, w: World, read: Event, update: Event)
    requires Inv(w) && Identified(w, w.cr.status)
    ensures Succeeds(env, w, read, update) ==>
              var z := Reconciled(env, w, read, update);
              && Inv(z) && z.phase.Idle? && Identified(z, z.cr.status) && z.cr.spec == w.cr.spec && TagsAgree(z)
              && z.machine.value.tags == WithAwsTags(ToAck(w.cr.spec.tags), w.machine.value.tags)
              && (Quiet(env, z) <==> Representable(env.canon, w.cr.spec, w.machine.value) && NothingHidden(env, w, read))
  {
    if Succeeds(env, w, read, update) {
      HiddenByRead(env, w, read);
      MirrorTwice(ToAck(w.cr.spec.tags), w.machine.value.tags);
      SuccessfulReconcileLeaves(env, w, read, update);
    }
  }

  /** Why a successful read pushes: the configurations differ, or a publish is owed
      that the probe could not hide. */
  lemma PushReasons(env: Env, w: World, e: Event)
    requires Inv(w) && Reads(env, w, e)
    ensures Pushes(env, Next(env, w, e)) <==>
              || !SameConfiguration(env.canon, w.cr.spec, ReadBack(w.cr.spec, Service.Describe(w.machine.value)))
              || (IsTrue(w.cr.spec.publish) && w.cr.status.versionArn.None?)
              || (Probes(w.cr) && e.read.probe.Answered? && w.cr.status.versionArn.value !in w.machine.value.live)
  {
    FindMeaning(env, w.cr, w.machine.value, e.read, e.listed);
    var found := Find(env.id, w.cr, w.machine, e.read, e.listed).value;
    NotedKeeps(env.id, found, None);
    DeltaMeaning(env.canon, WithMirror(w.cr, e.listed, e.rest), Noted(env.id, found, None));
  }

  lemma SettledIsRepresentable(env: Env, r: Resource, m: Service.Machine)
    ensures SameConfiguration(env.canon, r.spec, ReadBack(r.spec, Service.Describe(m))) ==> Representable(env.canon, r.spec, m)
  {
  }

  /** A read that pushes hid nothing; one that does not, leaves a settled resource
      exactly when it hid nothing. */
  lemma HiddenByRead(env: Env, w: World, e: Event)
    requires Inv(w) && Reads(env, w, e)
    ensures w.machine.Some?
    ensures Pushes(env, Next(env, w, e)) ==> NothingHidden(env, w, e)
    ensures !Pushes(env, Next(env, w, e)) ==>
              && Representable(env.canon, w.cr.spec, w.machine.value)
              && (Settled(env, w.cr, w.machine.value) <==> NothingHidden(env, w, e))
  {
    PushReasons(env, w, e);
    SettledIsRepresentable(env, w.cr, w.machine.value);
  }

  lemma MirrorTwice(user: AckTags.Tags, machine: AckTags.Tags)
    ensures WithAwsTags(user, WithAwsTags(user, machine)) == WithAwsTags(user, machine)
  {
  }

  /** A failure-free reconcile of a fully specified resource succeeds, reaches
      exactly the desired tags and configuration, and leaves nothing to do. */
  lemma CleanReconcileSettles(env: Env, w: World, read: Event, update: Event)
    requires Inv(w) && Identified(w, w.cr.status) && Specified(env, w.cr.spec, w.machine.value)
    requires read.Read? && Possible(w, read) && read.read == ALL_READ && update.Update? && update.update == ALL_UPDATED
    ensures Succeeds(env, w, read, update)
    ensures var z := Reconciled(env, w, read, update);
            && Quiet(env, z) && z.cr.spec == w.cr.spec
            && z.machine.value.tags == WithAwsTags(ToAck(w.cr.spec.tags), w.machine.value.tags)
  {
    assert Reads(env, w, read);
    StepKeepsInv(env, w, read);
    ReadVerdict(env, w, read);
    var w1 := Next(env, w, read);
    if w1.phase.Pending? {
      CleanUpdateSucceeds(env, w1, update);
    }
    SuccessfulReconcile(env, w, read, update);
  }

  /** Whichever call of an update fails, the invariant holds, no configuration was
      pushed and no version cut unless the configuration call succeeded, and the
      next failure-free reconcile makes everything good. */
  lemma RetryConverges(env: Env, w: World, failed: Event, read: Event, update: Event)
    requires Inv(w) && failed.Update? && Possible(w, failed)
    requires read.Read? && read.read == ALL_READ && update.Update? && update.update == ALL_UPDATED
    ensures Attempted(env, w, failed).result.Err? ==>
              var w1 := Next(env, w, failed);
              && Inv(w1) && w1.phase.Idle?
              && w1.cr.spec == w.cr.spec && w1.cr.status.versionArn == w.phase.latest.status.versionArn
              && w1.machine.Some? && w1.machine.value == w.machine.value.(tags := w1.machine.value.tags)
              && (Specified(env, w.cr.spec, w.machine.value) && Possible(w1, read) ==>
                    && Succeeds(env, w1, read, update)
                    && Quiet(env, Reconciled(env, w1, read, update))
                    && Reconciled(env, w1, read, update).machine.value.tags
                       == WithAwsTags(ToAck(w.cr.spec.tags), w1.machine.value.tags))
  {
    if Attempted(env, w, failed).result.Err? {
      var w1 := Next(env, w, failed);
      StepKeepsInv(env, w, failed);
      UpdateKeepsMachine(env, w, failed);
      NotedKeeps(env.id, w.phase.latest, Some(Attempted(env, w, failed).result.error));
      if Specified(env, w.cr.spec, w.machine.value) && Possible(w1, read) {
        CleanReconcileSettles(env, w1, read, update);
      }
    }
  }

  // ---------- a settled resource stays settled ----------

  ghost function PushCount(env: Env, w: World, es: seq<Event>): nat
    requires Feasible(env, w, es)
    decreases |es|
  {
    if es == [] then 0
    else (if Pushed(env, w, es[0]) then 1 else 0) + PushCount(env, Next(env, w, es[0]), es[1..])
  }

  predicate ByController(e: Event) {
    e.Create? || e.Read? || e.Update? || e.Restart?
  }

  /** An event in front of a run. */
  lemma EventFirst(env: Env, w: World, e: Event, es: seq<Event>)
    requires Possible(w, e) && Feasible(env, Next(env, w, e), es)
    ensures Feasible(env, w, [e] + es) && Run(env, w, [e] + es) == Run(env, Next(env, w, e), es)
    ensures PushCount(env, w, [e] + es) == (if Pushed(env, w, e) then 1 else 0) + PushCount(env, Next(env, w, e), es)
  {
    assert ([e] + es)[1..] == es;
  }

  lemma TwoEventsFirst(env: Env, w: World, e: Event, f: Event, es: seq<Event>)
    requires Possible(w, e) && Possible(Next(env, w, e), f) && Feasible(env, Next(env, Next(env, w, e), f), es)
    ensures var w1 := Next(env, w, e);
            && Feasible(env, w, [e, f] + es) && Run(env, w, [e, f] + es) == Run(env, Next(env, w1, f), es)
            && PushCount(env, w, [e, f] + es)
               == (if Pushed(env, w, e) then 1 else 0) + (if Pushed(env, w1, f) then 1 else 0) + PushCount(env, Next(env, w1, f), es)
  {
    EventFirst(env, Next(env, w, e), f, es);
    EventFirst(env, w, e, [f] + es);
    assert [e, f] + es == [e] + ([f] + es);
  }

  /** With nobody else acting, every read of a quiet world that succeeds finds an
      empty delta, and nothing but conditions ever changes. */
  lemma QuietStep(env: Env, w: World, e: Event)
    requires Quiet(env, w) && Possible(w, e) && ByController(e)
    ensures Quiet(env, Next(env, w, e))
    ensures Next(env, w, e).machine == w.machine && Next(env, w, e).cr.spec == w.cr.spec
    ensures Next(env, w, e).cr.status.versionArn == w.cr.status.versionArn
    ensures Reads(env, w, e) ==>
              DeltaPaths(env.canon, WithMirror(w.cr, e.listed, e.rest),
                         Noted(env.id, Find(env.id, w.cr, w.machine, e.read, e.listed).value, None)) == []
  {
    StepKeepsInv(env, w, e);
    var found := Find(env.id, w.cr, w.machine, e.read, e.listed);
    if found.Ok? {
      ReadVerdict(env, w, e);
      DeltaMeaning(env.canon, WithMirror(w.cr, e.listed, e.rest), Noted(env.id, found.value, None));
      FindMeaning(env, w.cr, w.machine.value, e.read, e.listed);
      NotedKeeps(env.id, found.value, None);
    } else {
      NotedKeeps(env.id, w.cr, Some(found.error));
    }
  }

  lemma {:induction false} QuietForever(env: Env, w: World, es: seq<Event>)
    requires Quiet(env, w) && Feasible(env, w, es)
    requires forall e | e in es :: ByController(e)
    ensures Quiet(env, Run(env, w, es))
    ensures Run(env, w, es).machine == w.machine
    ensures Run(env, w, es).cr.status.versionArn == w.cr.status.versionArn
    ensures PushCount(env, w, es) == 0
    decreases |es|
  {
    if es != [] {
      QuietStep(env, w, es[0]);
      QuietForever(env, Next(env, w, es[0]), es[1..]);
    }
  }

  /** After a reconcile that succeeds the delta is empty for as long as nobody else
      acts, exactly when the specification is representable and nothing was hidden
      from the read: otherwise the next answered read has something to push. */
  lemma EmptyDeltaForeverIff(env: Env, w: World, read: Event, update: Event, es: seq<Event>, next: Event)
    requires Inv(w) && Identified(w, w.cr.status) && update.Update?
    ensures Succeeds(env, w, read, update) ==>
              var z := Reconciled(env, w, read, update);
              if Representable(env.canon, w.cr.spec, w.machine.value) && NothingHidden(env, w, read) then
                Feasible(env, z, es) && (forall e | e in es :: ByController(e)) ==>
                  && Quiet(env, Run(env, z, es)) && PushCount(env, z, es) == 0
                  && Run(env, z, es).machine == z.machine
              else
                Reads(env, z, next) && next.read.probe.Answered? ==> Pushes(env, Next(env, z, next))
  {
    if Succeeds(env, w, read, update) {
      var z := Reconciled(env, w, read, update);
      SuccessfulReconcile(env, w, read, update);
      if Quiet(env, z) {
        if Feasible(env, z, es) && (forall e | e in es :: ByController(e)) {
          QuietForever(env, z, es);
        }
      } else if Reads(env, z, next) {
        ReadVerdict(env, z, next);
      }
    }
  }

  /** The case in which something is hidden: from any settled state in which a
      version is recorded, that version is deleted out of band and the probe of
      the next read is throttled. The reconcile ends without error and without an
      update, still records the version, and the next answered read pushes. */
  lemma ThrottledProbeHidesDeletion(env: Env, w: World) returns (read: Event, next: Event)
    requires Quiet(env, w) && IsTrue(w.cr.spec.publish)
    ensures var v := w.cr.status.versionArn.value;
            var w1 := Next(env, w, DeleteVersion(v));
            && Reads(env, w1, read) && read.read.probe.Failed?
            && var z := Next(env, w1, read);
            && z.phase.Idle? && z.machine == w1.machine
            && z.cr.status.versionArn == Some(v) && v !in z.machine.value.live
            && Reads(env, z, next) && next.read.probe.Answered? && Pushes(env, Next(env, z, next))
  {
    var v := w.cr.status.versionArn.value;
    var w1 := Next(env, w, DeleteVersion(v));
    StepKeepsInv(env, w, DeleteVersion(v));
    var listed, rest := SomeListing(w1.machine, w1.cr.spec.tags);
    read := Read(ReadOutcome(Service.Answered, Service.Answered, Service.Failed(PlainError("throttled"))), listed, rest);
    next := Read(ALL_READ, listed, rest);
    assert Reads(env, w1, read);
    ReadVerdict(env, w1, read);
    PushReasons(env, w1, read);
    var z := Next(env, w1, read);
    StepKeepsInv(env, w1, read);
    StaysIdentified(env, w1, read);
    assert Reads(env, z, next);
    PushReasons(env, z, next);
  }

  /** Why the recorded version is tied to what was pushed and not to what the
      machine is: somebody else changes the configuration, the user follows suit
      in the specification, and nothing is left to push; the recorded version then
      holds the machine's configuration exactly when that is the last pushed one. */
  lemma ForeignEditAdopted(env: Env, w: World, c: Service.Config, spec: Api.Spec)
    requires Quiet(env, w) && IsTrue(w.cr.spec.publish) && IsTrue(spec.publish)
    requires SameConfiguration(env.canon, spec, ReadBack(spec, Service.Describe(Service.WithConfig(w.machine.value, c))))
    ensures var es := [EditConfig(c), EditSpec(spec)];
            && Feasible(env, w, es)
            && var z := Run(env, w, es);
            && z.machine.Some? && Settled(env, z.cr, z.machine.value)
            && z.cr.status.versionArn.Some? && z.cr.status.versionArn.value in z.machine.value.history
            && (z.machine.value.history[z.cr.status.versionArn.value].config == z.machine.value.config <==> w.pushed == Some(c))
  {
    var es := [EditConfig(c), EditSpec(spec)];
    assert es[1..] == [EditSpec(spec)] && es[1..][1..] == [];
    var w1 := Next(env, w, EditConfig(c));
    var w2 := Next(env, w1, EditSpec(spec));
    assert Feasible(env, w1, es[1..]) && Run(env, w1, es[1..]) == w2;
    assert Feasible(env, w, es) && Run(env, w, es) == w2;
  }
}
