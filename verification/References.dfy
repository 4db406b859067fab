/** Resolving and clearing the role reference
    (pkg/resource/state_machine/references.go). */
module References {
  import opened Wrappers
  import opened Api
  import opened TagPipeline

  datatype Role = Role(metadata: Option<Metadata>, conditions: seq<Condition>)

  datatype RefError =
    | ReferenceAndIdNotSupported
    | ReferenceOrIdRequired
    | EmptyReference
    | RoleTerminal
    | RoleNotSynced
    | RoleArnMissing
    | Other(error: Error)

  /** The cluster: which namespace a reference may name, and what a read returns. */
  datatype Cluster = Cluster(
    namespaceOf: (Option<string>, string) -> Result<string, Error>,
    read: (string, string) -> Result<Role, Error>)

  ghost predicate HasTrue(cs: seq<Condition>, typ: ConditionType) {
    exists i :: 0 <= i < |cs| && cs[i].typ == typ && cs[i].status == True
  }

  /** What the state of a referenced role means: a terminal role is refused first,
      then one that is not synced, then one without an ARN. */
  ghost function RoleVerdict(role: Role): Option<RefError> {
    if HasTrue(role.conditions, Terminal) then Some(RoleTerminal)
    else if !HasTrue(role.conditions, ResourceSynced) then Some(RoleNotSynced)
    else if role.metadata.None? || role.metadata.value.arn.None? then Some(RoleArnMissing)
    else None
  }

  /** The condition is listed and true; a lowered one does not count. */
  ghost predicate Stands(role: Role, typ: ConditionType) {
    exists c :: c in role.conditions && c.typ == typ && c.status == True
  }

  /** What comes of reading a role: the role itself exactly when it is there, synced,
      not terminal and has an ARN; otherwise the first reason against it. */
  ghost predicate UsableOrRefused(got: Result<Role, Error>, r: Result<Role, RefError>) {
    && (got.Err? ==> r == Err(Other(got.error)))
    && (got.Ok? ==>
          var role := got.value;
          var identified := role.metadata.Some? && role.metadata.value.arn.Some?;
          && (r.Ok? <==> !Stands(role, Terminal) && Stands(role, ResourceSynced) && identified)
          && (r.Ok? ==> r.value == role)
          && (r == Err(RoleTerminal) <==> Stands(role, Terminal))
          && (r == Err(RoleNotSynced) <==> !Stands(role, Terminal) && !Stands(role, ResourceSynced))
          && (r == Err(RoleArnMissing) <==> !Stands(role, Terminal) && Stands(role, ResourceSynced) && !identified))
  }

  lemma StandsIff(role: Role, typ: ConditionType)
    ensures Stands(role, typ) <==> HasTrue(role.conditions, typ)
  {
    if HasTrue(role.conditions, typ) {
      var i :| 0 <= i < |role.conditions| && role.conditions[i].typ == typ && role.conditions[i].status == True;
      assert role.conditions[i] in role.conditions;
    }
  }

  lemma VerdictMeaning(role: Role)
    ensures var v := RoleVerdict(role); UsableOrRefused(Ok(role), if v.Some? then Err(v.value) else Ok(role))
  {
    StandsIff(role, Terminal);
    StandsIff(role, ResourceSynced);
  }

  method GetReferencedResourceState(cluster: Cluster, name: string, namespace: string) returns (r: Result<Role, RefError>)
    ensures UsableOrRefused(cluster.read(name, namespace), r)
    ensures var got := cluster.read(name, namespace);
            if got.Err? then r == Err(Other(got.error))
            else var v := RoleVerdict(got.value); r == if v.Some? then Err(v.value) else Ok(got.value)
  {
    var got := cluster.read(name, namespace);
    if got.Err? {
      return Err(Other(got.error));
    }
    var obj := got.value;
    VerdictMeaning(obj);
    for i := 0 to |obj.conditions|
      invariant forall j | 0 <= j < i :: !(obj.conditions[j].typ == Terminal && obj.conditions[j].status == True)
    {
      if obj.conditions[i].typ == Terminal && obj.conditions[i].status == True {
        return Err(RoleTerminal);
      }
    }
    var refResourceSynced := false;
    for i := 0 to |obj.conditions|
      invariant refResourceSynced <==> exists j :: 0 <= j < i && obj.conditions[j].typ == ResourceSynced && obj.conditions[j].status == True
    {
      if obj.conditions[i].typ == ResourceSynced && obj.conditions[i].status == True {
        refResourceSynced := true;
      }
    }
    if !refResourceSynced {
      return Err(RoleNotSynced);
    }
    if obj.metadata.None? || obj.metadata.value.arn.None? {
      return Err(RoleArnMissing);
    }
    return Ok(obj);
  }

  /** The role a specification refers to, by name; None when it refers to none. */
  ghost function Target(cluster: Cluster, s: Spec): Option<Result<Role, RefError>> {
    if s.roleRef.None? || s.roleRef.value.from.None? then None
    else
      var from := s.roleRef.value.from.value;
      if from.name.None? || from.name.value == "" then Some(Err(EmptyReference))
      else
        var namespace := cluster.namespaceOf(from.namespace, from.name.value);
        if namespace.Err? then Some(Err(Other(namespace.error)))
        else
          var got := cluster.read(from.name.value, namespace.value);
          if got.Err? then Some(Err(Other(got.error)))
          else var v := RoleVerdict(got.value); Some(if v.Some? then Err(v.value) else Ok(got.value))
  }

  ghost function Resolved(cluster: Cluster, s: Spec): Spec {
    var t := Target(cluster, s);
    if t.Some? && t.value.Ok? && t.value.value.metadata.Some? then s.(roleArn := t.value.value.metadata.value.arn) else s
  }

  /** What resolving makes of a specification: nothing when it refers to no role;
      the ARN of the role that the reference names when that is usable; otherwise
      the reason why not, and the specification as it was. A specification that
      gives both a reference and an ARN, or neither, is refused all the same, but
      the resolution's own error comes first. */
  ghost predicate ResolvesTo(cluster: Cluster, s: Spec, after: Spec, hasReferences: bool, err: Option<RefError>) {
    && (hasReferences <==> s.roleRef.Some? && s.roleRef.value.from.Some?)
    && (!hasReferences ==>
          && after == s
          && err == if s.roleRef.Some? && s.roleArn.Some? then Some(ReferenceAndIdNotSupported)
                    else if s.roleRef.None? && s.roleArn.None? then Some(ReferenceOrIdRequired)
                    else None)
    && (hasReferences ==>
          var from := s.roleRef.value.from.value;
          if from.name.None? || from.name.value == "" then err == Some(EmptyReference) && after == s
          else
            var namespace := cluster.namespaceOf(from.namespace, from.name.value);
            if namespace.Err? then err == Some(Other(namespace.error)) && after == s
            else Follows(cluster.read(from.name.value, namespace.value), s, after, err))
  }

  ghost predicate Follows(got: Result<Role, Error>, s: Spec, after: Spec, err: Option<RefError>) {
    && (got.Err? ==> err == Some(Other(got.error)) && after == s)
    && (got.Ok? ==>
          var role := got.value;
          if Stands(role, Terminal) then err == Some(RoleTerminal) && after == s
          else if !Stands(role, ResourceSynced) then err == Some(RoleNotSynced) && after == s
          else if role.metadata.None? || role.metadata.value.arn.None? then err == Some(RoleArnMissing) && after == s
          else && after == s.(roleArn := role.metadata.value.arn)
               && err == if s.roleArn.Some? then Some(ReferenceAndIdNotSupported) else None)
  }

  lemma ResolutionMeaning(cluster: Cluster, s: Spec)
    ensures ResolvesTo(cluster, s, Resolved(cluster, s), Target(cluster, s).Some?, ResolutionError(cluster, s))
  {
    if s.roleRef.Some? && s.roleRef.value.from.Some? && s.roleRef.value.from.value.name.Some? {
      var from := s.roleRef.value.from.value;
      var namespace := cluster.namespaceOf(from.namespace, from.name.value);
      if namespace.Ok? && cluster.read(from.name.value, namespace.value).Ok? {
        VerdictMeaning(cluster.read(from.name.value, namespace.value).value);
      }
    }
  }

  function Validation(s: Spec): Option<RefError> {
    if s.roleRef.Some? && s.roleArn.Some? then Some(ReferenceAndIdNotSupported)
    else if s.roleRef.None? && s.roleArn.None? then Some(ReferenceOrIdRequired)
    else None
  }

  /** A failed resolution is reported before a failed validation. */
  ghost function ResolutionError(cluster: Cluster, s: Spec): Option<RefError> {
    var t := Target(cluster, s);
    if t.Some? && t.value.Err? then Some(t.value.error) else Validation(s)
  }

  function Cleared(s: Spec): Spec {
    if s.roleRef.Some? then s.(roleArn := None) else s
  }

  method ResolveReferenceForRoleARN(cluster: Cluster, ko: StateMachine) returns (hasReferences: bool, err: Option<RefError>)
    modifies ko
    ensures var t := Target(cluster, old(ko.spec));
            && hasReferences == t.Some?
            && err == if t.Some? && t.value.Err? then Some(t.value.error) else None
    ensures ko.spec == Resolved(cluster, old(ko.spec)) && ko.status == old(ko.status)
  {
    hasReferences := false;
    if ko.spec.roleRef.Some? && ko.spec.roleRef.value.from.Some? {
      hasReferences := true;
      var arr := ko.spec.roleRef.value.from.value;
      if arr.name.None? || arr.name.value == "" {
        return hasReferences, Some(EmptyReference);
      }
      var namespace := cluster.namespaceOf(arr.namespace, arr.name.value);
      if namespace.Err? {
        return hasReferences, Some(Other(namespace.error));
      }
      var obj := GetReferencedResourceState(cluster, arr.name.value, namespace.value);
      if obj.Err? {
        return hasReferences, Some(obj.error);
      }
      ko.spec := ko.spec.(roleArn := obj.value.metadata.value.arn);
    }
    return hasReferences, None;
  }

  /** Resolves in the object it is given, validation failed or not. */
  method ResolveReferences(cluster: Cluster, ko: StateMachine) returns (hasReferences: bool, err: Option<RefError>)
    modifies ko
    ensures hasReferences == Target(cluster, old(ko.spec)).Some?
    ensures err == ResolutionError(cluster, old(ko.spec))
    ensures ko.spec == Resolved(cluster, old(ko.spec)) && ko.status == old(ko.status)
    ensures ResolvesTo(cluster, old(ko.spec), ko.spec, hasReferences, err)
  {
    ResolutionMeaning(cluster, ko.spec);
    err := Validation(ko.spec);
    var resolveErr;
    hasReferences, resolveErr := ResolveReferenceForRoleARN(cluster, ko);
    if resolveErr.Some? {
      return hasReferences, resolveErr;
    }
  }

  method ClearResolvedReferences(res: StateMachine) returns (ko: StateMachine)
    ensures fresh(ko) && ko.spec == Cleared(res.spec) && ko.status == res.status
    ensures ko.spec == res.spec.(roleArn := if res.spec.roleRef.Some? then None else res.spec.roleArn)
  {
    ko := res.DeepCopy();
    if ko.spec.roleRef.Some? {
      ko.spec := ko.spec.(roleArn := None);
    }
  }

  /** Clearing after resolving, successful or not, gives the specification back
      exactly when it did not give both a reference and an ARN; every
      specification that passes validation is of that kind. */
  lemma ClearUndoesResolve(cluster: Cluster, s: Spec)
    ensures Cleared(Resolved(cluster, s)) == s <==> !(s.roleRef.Some? && s.roleArn.Some?)
    ensures Validation(s).None? ==> Cleared(Resolved(cluster, s)) == s
  {
  }

  /** A resolution without error that had something to resolve leaves the ARN of a
      role that has a raised Synced condition and no raised Terminal one. */
  lemma ResolutionIsSound(cluster: Cluster, s: Spec)
    requires ResolutionError(cluster, s).None? && s.roleRef.Some? && s.roleRef.value.from.Some?
    ensures Resolved(cluster, s).roleArn.Some?
    ensures exists name, namespace ::
              && s.roleRef.value.from.value.name == Some(name) && name != ""
              && cluster.namespaceOf(s.roleRef.value.from.value.namespace, name) == Ok(namespace)
              && cluster.read(name, namespace).Ok?
              && var role := cluster.read(name, namespace).value;
              && Stands(role, ResourceSynced) && !Stands(role, Terminal)
              && role.metadata.Some? && role.metadata.value.arn == Resolved(cluster, s).roleArn
  {
    ResolutionMeaning(cluster, s);
  }

  /** The object is resolved in place, so resolving it a second time is refused. */
  lemma SecondResolutionRefused(cluster: Cluster, s: Spec)
    requires ResolutionError(cluster, s).None?
    ensures ResolutionError(cluster, Resolved(cluster, s)).Some? <==> Target(cluster, s).Some?
  {
  }
}
