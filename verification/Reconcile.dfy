/** The runtime's loop body around the resource manager: read, compare, update when
    the comparison differs at "Spec", persist the status. The protocol's steps are
    exactly what these methods do to the objects. */
module Reconcile {
  import opened Wrappers
  import opened Api
  import opened AckTags
  import opened TagPipeline
  import opened Payloads
  import opened Manager
  import Service
  import opened Delta
  import opened Protocol
  import opened Convergence

  /** A read that leaves nothing pending, as a run. */
  lemma ReadAlone(env: Env, w: World, e: Event, f: Event)
    requires e.Read? && f.Update? && Possible(w, e) && !Next(env, w, e).phase.Pending?
    ensures Feasible(env, w, [e]) && Run(env, w, [e]) == Next(env, w, e)
    ensures Succeeds(env, w, e, f) <==> Find(env.id, w.cr, w.machine, e.read, e.listed).Ok?
  {
    EventFirst(env, w, e, []);
    assert [e] == [e] + [];
  }

  /** A read and the update it leaves pending, as a run. */
  lemma ReadThenUpdate(env: Env, w: World, e: Event, f: Event)
    requires e.Read? && f.Update? && Possible(w, e) && Next(env, w, e).phase.Pending? && Possible(Next(env, w, e), f)
    ensures Feasible(env, w, [e, f]) && Run(env, w, [e, f]) == Next(env, Next(env, w, e), f)
    ensures Succeeds(env, w, e, f) <==> Attempted(env, Next(env, w, e), f).result.Ok?
  {
    TwoEventsFirst(env, w, e, f, []);
    assert [e, f] == [e, f] + [];
  }

  /** The world after a successful read, by what the comparison shows. */
  lemma ReadStep(env: Env, w: World, e: Event, latest: Resource)
    requires e.Read? && Possible(w, e) && Find(env.id, w.cr, w.machine, e.read, e.listed).Ok?
    requires latest == Noted(env.id, Find(env.id, w.cr, w.machine, e.read, e.listed).value, None)
    ensures var desired := WithMirror(w.cr, e.listed, e.rest);
            && NoNil(desired.spec.tags) && NoNil(latest.spec.tags)
            && Next(env, w, e) == if DifferentAtPath(DeltaPaths(env.canon, desired, latest), SPEC)
                                  then w.(phase := Pending(desired, latest)) else WithStatus(w, latest.status)
  {
    MirroredContents(w.cr.spec.tags, e.listed, e.rest);
    CanonicalNoNil(WithMirror(w.cr, e.listed, e.rest).spec.tags);
    CanonicalNoNil(latest.spec.tags);
  }

  /** The world after a read that fails, whatever would have been listed. */
  lemma ReadFails(env: Env, w: World, read: ReadOutcome, any: seq<Api.Tag>) returns (e: Event)
    requires w.phase.Idle? && Find(env.id, w.cr, w.machine, read, any).Err?
    ensures e.Read? && e.read == read && Possible(w, e)
    ensures Find(env.id, w.cr, w.machine, read, e.listed) == Find(env.id, w.cr, w.machine, read, any)
    ensures Next(env, w, e) == WithStatus(w, Noted(env.id, w.cr, Some(Find(env.id, w.cr, w.machine, read, any).error)).status)
  {
    var listed, rest := SomeListing(w.machine, w.cr.spec.tags);
    e := Read(read, listed, rest);
  }

  /** The read and the comparison. `delta` is null when there is nothing to update. */
  method ReadAndCompare(rm: ResourceManager, canon: Canon, desired: StateMachine, read: ReadOutcome, ghost w: World)
    returns (latest: StateMachine, delta: DeltaSet?, err: Option<Error>, ghost e: Event)
    requires NoNil(desired.spec.tags)
    requires w.cr == desired.Value() && w.machine == rm.client.machine && w.phase.Idle?
    modifies desired, rm.client`requests
    ensures e.Read? && e.read == read && Possible(w, e)
    ensures err.None? <==> Find(rm.id, w.cr, w.machine, read, e.listed).Ok?
    ensures var w1 := Next(Env(rm.id, canon), w, e);
            if delta == null then
              w1 == WithStatus(w, latest.status)
            else
              && fresh(delta) && latest != desired && err.None?
              && w1 == w.(phase := Pending(desired.Value(), latest.Value()))
              && delta.differences == DeltaPaths(canon, desired.Value(), latest.Value())
  {
    ghost var listed, rest;
    latest, err, listed, rest := rm.ReadOne(desired, read);
    if err.Some? {
      e := ReadFails(Env(rm.id, canon), w, read, listed);
      return latest, null, err, e;
    }
    e := Read(read, listed, rest);
    ReadStep(Env(rm.id, canon), w, e, latest.Value());
    delta := NewResourceDelta(canon, desired, latest);
    var differs := delta.DifferentAt(SPEC);
    if !differs {
      delta := null;
    }
  }

  /** One reconcile of an existing resource. The ghost run says which events of the
      protocol happened: a read, and an update exactly when the read left one
      pending; the objects end where the run ends, and no error is reported
      exactly when both events succeeded. */
  method ReconcileOnce(rm: ResourceManager, canon: Canon, cr: StateMachine, read: ReadOutcome, update: UpdateOutcome, ghost w: World)
    returns (err: Option<Error>, ghost es: seq<Event>)
    requires NoNil(cr.spec.tags)
    requires w.cr == cr.Value() && w.machine == rm.client.machine && w.phase.Idle? && Inv(w)
    requires ArnOf(cr.status).Some?
    modifies cr, rm.client
    ensures Feasible(Env(rm.id, canon), w, es)
    ensures |es| > 0 && es[0].Read? && es[0].read == read
    ensures |es| == if Next(Env(rm.id, canon), w, es[0]).phase.Pending? then 2 else 1
    ensures |es| == 2 ==> es[1].Update? && es[1].update == update
    ensures err.None? <==> Succeeds(Env(rm.id, canon), w, es[0], Update(update))
    ensures cr.Value() == Run(Env(rm.id, canon), w, es).cr
    ensures rm.client.machine == Run(Env(rm.id, canon), w, es).machine
  {
    ghost var env := Env(rm.id, canon);
    var desired := cr.DeepCopy();
    var latest, delta;
    ghost var e;
    latest, delta, err, e := ReadAndCompare(rm, canon, desired, read, w);
    ghost var f := Update(update);
    if delta == null {
      ReadAlone(env, w, e, f);
      cr.status := latest.status;
      return err, [e];
    }
    ReadThenUpdate(env, w, e, f);
    var updated;
    updated, err := rm.Update(desired, latest, delta, update);
    cr.status := updated.status;
    return err, [e, f];
  }
}
