/** How often the controller updates the machine: with fully specified resources
    every update is paid for by a disturbance, so there is no publish loop; with a
    specification that cannot be made true there is one. */
module PublishLoop {
  import opened Wrappers
  import opened Api
  import opened AckTags
  import opened TagMaps
  import opened Payloads
  import opened Manager
  import Service
  import opened Delta
  import opened Protocol
  import opened Convergence

  // ---------- updates are paid for ----------

  predicate Disturbs(e: Event) {
    e.EditSpec? || e.DeleteVersion? || e.EditConfig?
  }

  function Disturbances(es: seq<Event>): nat {
    if es == [] then 0 else (if Disturbs(es[0]) then 1 else 0) + Disturbances(es[1..])
  }

  /** The potential: updates that are already due, and updates that will be. */
  ghost function Debt(env: Env, w: World): nat
    requires w.machine.Some?
  {
    if Pushes(env, w) then 1 + (if SameButTags(w.cr.spec, w.phase.desired.spec) then 0 else 1)
    else if Settled(env, w.cr, w.machine.value) then 0 else 1
  }

  /** The resource exists and every specification in play is fully specified. */
  ghost predicate InPlay(env: Env, w: World) {
    && Inv(w) && Identified(w, w.cr.status)
    && Specified(env, w.cr.spec, w.machine.value)
    && (w.phase.Pending? ==> Specified(env, w.phase.desired.spec, w.machine.value))
  }

  lemma DebtOfRead(env: Env, w: World, e: Event)
    requires InPlay(env, w) && e.Read? && Possible(w, e)
    ensures InPlay(env, Next(env, w, e)) && Debt(env, Next(env, w, e)) <= Debt(env, w)
  {
    StepKeepsInv(env, w, e);
    var found := Find(env.id, w.cr, w.machine, e.read, e.listed);
    if found.Ok? {
      ReadVerdict(env, w, e);
      FindMeaning(env, w.cr, w.machine.value, e.read, e.listed);
      NotedKeeps(env.id, found.value, None);
    } else {
      NotedKeeps(env.id, w.cr, Some(found.error));
    }
  }

  lemma DebtOfFailedUpdate(env: Env, w: World, e: Event)
    requires InPlay(env, w) && e.Update? && Possible(w, e) && Attempted(env, w, e).result.Err?
    ensures InPlay(env, Next(env, w, e))
    ensures Debt(env, Next(env, w, e)) <= Debt(env, w)
  {
    StepKeepsInv(env, w, e);
    UpdateKeepsMachine(env, w, e);
    DeltaMeaning(env.canon, w.phase.desired, w.phase.latest);
    NotedKeeps(env.id, w.phase.latest, Some(Attempted(env, w, e).result.error));
  }

  lemma SuccessfulUpdateStaysInPlay(env: Env, w: World, e: Event)
    requires InPlay(env, w) && e.Update? && Possible(w, e) && Attempted(env, w, e).result.Ok?
    ensures InPlay(env, Next(env, w, e)) && Next(env, w, e).phase.Idle?
  {
    StepKeepsInv(env, w, e);
    UpdateKeepsMachine(env, w, e);
    UpdateRecords(env, w, e);
    NotedKeeps(env.id, Attempted(env, w, e).result.value, None);
  }

  lemma DebtOfSuccessfulUpdate(env: Env, w: World, e: Event)
    requires InPlay(env, w) && e.Update? && Possible(w, e) && Attempted(env, w, e).result.Ok?
    ensures InPlay(env, Next(env, w, e))
    ensures Debt(env, Next(env, w, e)) + (if Pushed(env, w, e) then 1 else 0) <= Debt(env, w)
  {
    SuccessfulUpdateStaysInPlay(env, w, e);
    if Pushed(env, w, e) {
      NotedKeeps(env.id, Attempted(env, w, e).result.value, None);
      if SameButTags(w.cr.spec, w.phase.desired.spec) {
        PushSettlesIff(env, w, e, w.cr.spec);
      }
    } else {
      UpdateKeepsMachine(env, w, e);
      UpdateRecords(env, w, e);
      NotedKeeps(env.id, Attempted(env, w, e).result.value, None);
    }
  }

  lemma DebtOfOthers(env: Env, w: World, e: Event)
    requires InPlay(env, w) && Possible(w, e) && !e.Read? && !e.Update?
    requires e.EditSpec? ==> Specified(env, e.spec, w.machine.value)
    ensures InPlay(env, Next(env, w, e))
    ensures Debt(env, Next(env, w, e)) <= Debt(env, w) + if Disturbs(e) then 1 else 0
    ensures Next(env, w, e).machine.value.name == w.machine.value.name
    ensures Next(env, w, e).machine.value.typ == w.machine.value.typ
  {
    StepKeepsInv(env, w, e);
  }

  lemma DebtStep(env: Env, w: World, e: Event)
    requires InPlay(env, w) && Possible(w, e)
    requires e.EditSpec? ==> Specified(env, e.spec, w.machine.value)
    ensures InPlay(env, Next(env, w, e))
    ensures Debt(env, Next(env, w, e)) + (if Pushed(env, w, e) then 1 else 0) <= Debt(env, w) + if Disturbs(e) then 1 else 0
    ensures Next(env, w, e).machine.value.name == w.machine.value.name
    ensures Next(env, w, e).machine.value.typ == w.machine.value.typ
  {
    match e
    case Read(_, _, _) => DebtOfRead(env, w, e);
    case Update(_) =>
      UpdateKeepsMachine(env, w, e);
      if Attempted(env, w, e).result.Ok? {
        DebtOfSuccessfulUpdate(env, w, e);
      } else {
        DebtOfFailedUpdate(env, w, e);
      }
    case _ => DebtOfOthers(env, w, e);
  }

  lemma {:induction false} RunStaysInPlay(env: Env, w: World, es: seq<Event>)
    requires InPlay(env, w) && Feasible(env, w, es)
    requires forall e | e in es && e.EditSpec? :: Specified(env, e.spec, w.machine.value)
    ensures InPlay(env, Run(env, w, es))
    decreases |es|
  {
    if es != [] {
      assert es[0] in es && forall e | e in es[1..] :: e in es;
      DebtStep(env, w, es[0]);
      RunStaysInPlay(env, Next(env, w, es[0]), es[1..]);
    }
  }

  /** Over any run the successful UpdateStateMachine calls are paid for by
      disturbances: spec edits and publish flips, versions deleted and
      configurations edited out of band. */
  lemma {:induction false} NoPublishLoop(env: Env, w: World, es: seq<Event>)
    requires InPlay(env, w) && Feasible(env, w, es)
    requires forall e | e in es && e.EditSpec? :: Specified(env, e.spec, w.machine.value)
    ensures Run(env, w, es).machine.Some?
    ensures PushCount(env, w, es) + Debt(env, Run(env, w, es)) <= Debt(env, w) + Disturbances(es)
    decreases |es|
  {
    if es != [] {
      assert es[0] in es && forall e | e in es[1..] :: e in es;
      DebtStep(env, w, es[0]);
      NoPublishLoop(env, Next(env, w, es[0]), es[1..]);
    }
  }

  /** A create settles the version, and the configuration exactly when the machine
      is created as given. */
  lemma CreateSettlesConfiguration(env: Env, w: World, create: Event)
    requires Inv(w) && create.Create? && Possible(w, create) && Service.CreateError(w.machine, create.create).None?
    ensures Settled(env, Next(env, w, create).cr, Next(env, w, create).machine.value)
       <==> CreatedAsGiven(env.canon, w.cr.spec, create.chosen)
  {
    CreateReadRoundTrip(env.canon, w.cr.spec, create.chosen);
    NotedKeeps(env.id, Created(env.id, w.cr, Next(env, w, create).machine.value), None);
  }

  lemma CreateSettlesTags(env: Env, w: World, create: Event)
    requires Inv(w) && create.Create? && Possible(w, create) && Service.CreateError(w.machine, create.create).None?
    requires NoNil(w.cr.spec.tags)
    ensures Next(env, w, create).machine.value.tags == ToAck(w.cr.spec.tags) && TagsAgree(Next(env, w, create))
  {
    var tags := ToAck(w.cr.spec.tags);
    CreatedTags(map[], w.cr.spec.tags);
    assert map[] + tags == tags && WithAwsTags(tags, tags) == tags;
  }

  /** A successful create leaves nothing to do exactly when the machine is created
      as given, as a fully specified one always is. */
  lemma CreateSettles(env: Env, w: World, create: Event)
    requires Inv(w) && create.Create? && Possible(w, create) && Service.CreateError(w.machine, create.create).None?
    requires NoNil(w.cr.spec.tags)
    ensures Quiet(env, Next(env, w, create)) <==> CreatedAsGiven(env.canon, w.cr.spec, create.chosen)
    ensures Specified(env, w.cr.spec, Next(env, w, create).machine.value) ==> CreatedAsGiven(env.canon, w.cr.spec, create.chosen)
    ensures Next(env, w, create).machine.value.tags == ToAck(w.cr.spec.tags)
  {
    StepKeepsInv(env, w, create);
    CreateReadRoundTrip(env.canon, w.cr.spec, create.chosen);
    CreateSettlesConfiguration(env, w, create);
    CreateSettlesTags(env, w, create);
  }

  /** So after it there are at most as many updates as disturbances. */
  lemma NoPublishLoopAfterCreate(env: Env, w: World, create: Event, es: seq<Event>)
    requires Inv(w) && create.Create? && Possible(w, create) && Service.CreateError(w.machine, create.create).None?
    requires NoNil(w.cr.spec.tags)
    requires var w1 := Next(env, w, create);
             && Specified(env, w1.cr.spec, w1.machine.value) && Feasible(env, w1, es)
             && forall e | e in es && e.EditSpec? :: Specified(env, e.spec, w1.machine.value)
    ensures PushCount(env, Next(env, w, create), es) <= Disturbances(es)
  {
    CreateSettles(env, w, create);
    NoPublishLoop(env, Next(env, w, create), es);
  }

  lemma StepCutsAtMostOne(env: Env, w: World, e: Event)
    requires Inv(w) && Identified(w, w.cr.status) && Possible(w, e)
    ensures var z := Next(env, w, e);
            && z.machine.Some?
            && w.machine.value.next <= z.machine.value.next <= w.machine.value.next + if Pushed(env, w, e) then 1 else 0
  {
    if e.Update? {
      var d, l := w.phase.desired, w.phase.latest;
      CustomUpdateMeaning(env.id, d, l, DeltaPaths(env.canon, d, l), w.machine.value, e.update);
    }
  }

  /** Versions are cut by pushes only, at most one each; with the bound on pushes,
      over any run no more versions are cut than there are disturbances to pay. */
  lemma {:induction false} VersionsPaidFor(env: Env, w: World, es: seq<Event>)
    requires Inv(w) && Identified(w, w.cr.status) && Feasible(env, w, es)
    ensures var z := Run(env, w, es);
            z.machine.Some? && w.machine.value.next <= z.machine.value.next <= w.machine.value.next + PushCount(env, w, es)
    decreases |es|
  {
    if es != [] {
      StepKeepsInv(env, w, es[0]);
      StaysIdentified(env, w, es[0]);
      StepCutsAtMostOne(env, w, es[0]);
      VersionsPaidFor(env, Next(env, w, es[0]), es[1..]);
    }
  }

  /** So over any run with fully specified specifications no more versions are cut
      than are owed at its start and disturbances pay for. */
  lemma VersionsBounded(env: Env, w: World, es: seq<Event>)
    requires InPlay(env, w) && Feasible(env, w, es)
    requires forall e | e in es && e.EditSpec? :: Specified(env, e.spec, w.machine.value)
    ensures var z := Run(env, w, es);
            z.machine.Some? && z.machine.value.next <= w.machine.value.next + Debt(env, w) + Disturbances(es)
  {
    VersionsPaidFor(env, w, es);
    NoPublishLoop(env, w, es);
  }

  // ---------- the loop that an unrepresentable specification is in ----------

  /** The specification cannot be made true on this machine. */
  ghost predicate Stuck(env: Env, w: World) {
    && Inv(w) && Identified(w, w.cr.status)
    && !Representable(env.canon, w.cr.spec, w.machine.value)
    && (w.phase.Pending? ==> SameButTags(w.phase.desired.spec, w.cr.spec))
  }

  lemma PushKeepsUnrepresentable(canon: Canon, s: Api.Spec, m: Service.Machine, m': Service.Machine, r: Resource)
    requires SameButTags(s, r.spec) && !Representable(canon, s, m)
    requires m'.config == Service.Push(m.config, UpdatePayload(r))
    requires m'.name == m.name && m'.typ == m.typ && m'.defaultLevel == m.defaultLevel
    ensures !Representable(canon, s, m')
  {
  }

  /** Undisturbed it stays so, and every read that succeeds, its probe answered or
      not, finds something to push. */
  lemma StuckStep(env: Env, w: World, e: Event)
    requires Stuck(env, w) && Possible(w, e) && ByController(e)
    ensures Stuck(env, Next(env, w, e))
    ensures Reads(env, w, e) ==> Pushes(env, Next(env, w, e))
  {
    StepKeepsInv(env, w, e);
    StaysIdentified(env, w, e);
    if Reads(env, w, e) {
      ReadVerdict(env, w, e);
      HiddenByRead(env, w, e);
    } else if e.Update? {
      UpdateKeepsMachine(env, w, e);
      if Attempted(env, w, e).result.Ok? {
        UpdateRecords(env, w, e);
      }
      if Pushed(env, w, e) {
        PushKeepsUnrepresentable(env.canon, w.cr.spec, w.machine.value, Attempted(env, w, e).machine.value, w.phase.desired);
      }
    }
  }

  lemma {:induction false} StuckForever(env: Env, w: World, es: seq<Event>)
    requires Stuck(env, w) && Feasible(env, w, es)
    requires forall e | e in es :: ByController(e)
    ensures Stuck(env, Run(env, w, es))
    decreases |es|
  {
    if es != [] {
      StuckStep(env, w, es[0]);
      StuckForever(env, Next(env, w, es[0]), es[1..]);
    }
  }

  /** One failure-free round of the loop: it pushes and ends where it began. */
  lemma StuckRound(env: Env, w: World) returns (read: Event, update: Event)
    requires Stuck(env, w) && w.phase.Idle?
    ensures read.Read? && Possible(w, read) && !Pushed(env, w, read)
    ensures var w1 := Next(env, w, read);
            && update.Update? && Possible(w1, update) && Pushed(env, w1, update)
            && Stuck(env, Next(env, w1, update)) && Next(env, w1, update).phase.Idle?
  {
    var listed, rest := SomeListing(w.machine, w.cr.spec.tags);
    read, update := Read(ALL_READ, listed, rest), Update(ALL_UPDATED);
    assert Reads(env, w, read);
    ReadVerdict(env, w, read);
    StuckStep(env, w, read);
    var w1 := Next(env, w, read);
    CleanUpdateSucceeds(env, w1, update);
    StuckStep(env, w1, update);
  }

  /** So with nobody else acting there is no bound on the number of updates. */
  lemma {:induction false} PushesForever(env: Env, w: World, n: nat) returns (es: seq<Event>)
    requires Stuck(env, w) && w.phase.Idle?
    ensures Feasible(env, w, es) && (forall e | e in es :: ByController(e)) && PushCount(env, w, es) == n
    decreases n
  {
    if n == 0 {
      return [];
    }
    var read, update := StuckRound(env, w);
    var w1 := Next(env, w, read);
    var more := PushesForever(env, Next(env, w1, update), n - 1);
    TwoEventsFirst(env, w, read, update, more);
    return [read, update] + more;
  }

  /** A new resource gets there exactly when it is not created as given; it then
      updates the machine as often as it is reconciled. */
  lemma CreateLoopsIff(env: Env, w: World, create: Event, n: nat) returns (es: seq<Event>)
    requires Initial(w) && create.Create? && create.create.Answered?
    ensures Possible(w, create)
    ensures var w1 := Next(env, w, create);
            && (Stuck(env, w1) <==> !CreatedAsGiven(env.canon, w.cr.spec, create.chosen))
            && (Stuck(env, w1) ==>
                  Feasible(env, w1, es) && (forall e | e in es :: ByController(e)) && PushCount(env, w1, es) == n)
  {
    StepKeepsInv(env, w, create);
    CreateReadRoundTrip(env.canon, w.cr.spec, create.chosen);
    es := [];
    if Stuck(env, Next(env, w, create)) {
      es := PushesForever(env, Next(env, w, create), n);
    }
  }

  /** Two inputs that do: no type, which the service chooses and reports, and a
      logging block without a level, which it reports with its default. */
  lemma CreateOnDefaultsLoops(env: Env, w: World, create: Event, n: nat) returns (es: seq<Event>)
    requires Initial(w) && create.Create? && create.create.Answered?
    requires || (w.cr.spec.typ.None? && create.chosen.typ != "")
             || (w.cr.spec.logging.Some? && w.cr.spec.logging.value.level.None? && create.chosen.level != "")
    ensures Possible(w, create)
    ensures var w1 := Next(env, w, create);
            && Stuck(env, w1) && Feasible(env, w1, es)
            && (forall e | e in es :: ByController(e)) && PushCount(env, w1, es) == n
  {
    es := CreateLoopsIff(env, w, create, n);
  }
}
