/** The Step Functions service as far as the controller relies on it: one state
    machine with its configuration, its revision, the versions ever cut from it,
    those still live, and its tags. Publishing is deduplicated per revision and
    version numbers are never used twice. */
module Service {
  import opened Wrappers
  import opened Api
  import opened AckTags

  datatype Config = Config(
    definition: Option<string>,
    logging: Option<SdkLogging>,
    roleArn: Option<string>,
    tracing: Option<SdkTracing>)

  datatype Version = Version(revision: nat, config: Config)

  /** `current` is the live version of the current revision, if there is one;
      `defaultLevel` is what a logging block without a level is reported with. */
  datatype Machine = Machine(
    arn: string,
    creationDate: nat,
    name: Option<string>,
    typ: string,
    defaultLevel: string,
    config: Config,
    revision: nat,
    history: map<nat, Version>,
    live: set<nat>,
    current: Option<nat>,
    next: nat,
    tags: Tags)

  /** An error of a call that is not the answer that its target does not exist. */
  type Fault = e: Error | (e.AwsError? || e.PlainError?) && !IsMissing(e) witness PlainError("")

  /** What becomes of one call: the service answers it, or it fails without effect. */
  datatype Outcome = Answered | Failed(fault: Fault)

  datatype Request =
    | DescribeStateMachine(arn: string)
    | DescribeVersion(number: nat)
    | ListTags(arn: string)
    | UntagResource(arn: string, keys: seq<string>)
    | TagResource(arn: string, tags: seq<SdkTag>)
    | CreateStateMachine(create: CreateInput)
    | UpdateStateMachine(update: UpdateInput)

  const MISSING := AwsError(STATE_MACHINE_DOES_NOT_EXIST, "", "")

  /** How a call about `arn` ends. */
  function CallError(machine: Option<Machine>, arn: Option<string>, o: Outcome): Option<Error> {
    match o
    case Failed(e) => Some(e)
    case Answered => if machine.Some? && arn == Some(machine.value.arn) then None else Some(MISSING)
  }

  // ---------- effects of the calls ----------

  /** A level that was not given is reported as the service's default. */
  function ReportedLogging(l: Option<SdkLogging>, defaultLevel: string): Option<SdkLogging> {
    if l.Some? && l.value.level == "" then Some(l.value.(level := defaultLevel)) else l
  }

  function Describe(m: Machine): DescribeOutput {
    DescribeOutput(Some(m.creationDate), m.config.definition, ReportedLogging(m.config.logging, m.defaultLevel), m.name,
                   Some(m.revision), m.config.roleArn, Some(m.arn), m.config.tracing, m.typ)
  }

  function Over<T>(given: Option<T>, standing: Option<T>): Option<T> {
    if given.Some? then given else standing
  }

  /** An update replaces the members it carries and keeps the others. */
  function Push(c: Config, input: UpdateInput): Config {
    Config(Over(input.definition, c.definition), Over(input.logging, c.logging),
           Over(input.roleArn, c.roleArn), Over(input.tracing, c.tracing))
  }

  function WithConfig(m: Machine, c: Config): Machine {
    if c == m.config then m
    else m.(config := c, revision := m.revision + 1, current := None)
  }

  function Publish(m: Machine): Machine {
    if m.current.Some? then m
    else m.(history := m.history[m.next := Version(m.revision, m.config)],
            live := m.live + {m.next},
            current := Some(m.next),
            next := m.next + 1)
  }

  function Update(m: Machine, input: UpdateInput): Machine {
    var m' := WithConfig(m, Push(m.config, input));
    if input.publish then Publish(m') else m'
  }

  function UpdateAnswer(m: Machine, input: UpdateInput): UpdateOutput {
    UpdateOutput(if input.publish then Update(m, input).current else None)
  }

  /** What the service chooses for a new machine: its ARN, its date, and what
      members the request leaves out default to, now and in later updates. */
  datatype Chosen = Chosen(arn: string, creationDate: nat, config: Config, typ: string, level: string)

  function Create(input: CreateInput, chosen: Chosen): Machine {
    var config := Config(Over(input.definition, chosen.config.definition), Over(input.logging, chosen.config.logging),
                         Over(input.roleArn, chosen.config.roleArn), Over(input.tracing, chosen.config.tracing));
    var m := Machine(chosen.arn, chosen.creationDate, input.name, if input.typ == "" then chosen.typ else input.typ,
                     chosen.level, config, 0, map[], {}, None, 1, ApplyTags(map[], input.tags));
    if input.publish then Publish(m) else m
  }

  function CreateAnswer(input: CreateInput, m: Machine): CreateOutput {
    CreateOutput(Some(m.creationDate), Some(m.arn), if input.publish then m.current else None)
  }

  function DeleteVersion(m: Machine, n: nat): Machine {
    m.(live := m.live - {n}, current := if m.current == Some(n) then None else m.current)
  }

  /** Tags are written in request order. */
  function ApplyTags(tags: Tags, written: seq<SdkTag>): Tags
    decreases |written|
  {
    if written == [] then tags
    else
      var t := written[0];
      ApplyTags(if t.key.Some? then tags[t.key.value := if t.value.Some? then t.value.value else ""] else tags,
                written[1..])
  }

  // ---------- what always holds of a machine ----------

  /** Live versions were cut; numbers in use are below `next`; a version of the
      current revision holds the current configuration; at most the version
      `current` is live at the current revision. */
  ghost predicate Consistent(m: Machine) {
    && m.live <= m.history.Keys
    && (forall n | n in m.history :: n < m.next && m.history[n].revision <= m.revision)
    && (forall n | n in m.history && m.history[n].revision == m.revision :: m.history[n].config == m.config)
    && (m.current.Some? ==> m.current.value in m.live && m.history[m.current.value].revision == m.revision)
    && (forall n | n in m.live && m.history[n].revision == m.revision :: m.current == Some(n))
  }

  lemma CreateConsistent(input: CreateInput, chosen: Chosen)
    ensures Consistent(Create(input, chosen))
  {
  }

  /** An answered update holds exactly the pushed configuration, publishes a live
      version of it when asked, and loses no version ever cut. */
  lemma UpdateConsistent(m: Machine, input: UpdateInput)
    requires Consistent(m)
    ensures Consistent(Update(m, input))
    ensures Update(m, input).config == Push(m.config, input)
    ensures forall n | n in m.history :: n in Update(m, input).history && Update(m, input).history[n] == m.history[n]
    ensures var v := UpdateAnswer(m, input).versionArn;
            && (v.Some? <==> input.publish)
            && (v.Some? ==> && v.value in Update(m, input).live
                            && Update(m, input).history[v.value].config == Push(m.config, input))
    ensures Push(m.config, input) == m.config && m.current.Some? ==> Update(m, input) == m
  {
  }

  lemma DeleteVersionConsistent(m: Machine, n: nat)
    requires Consistent(m)
    ensures Consistent(DeleteVersion(m, n))
  {
  }

  lemma WithConfigConsistent(m: Machine, c: Config)
    requires Consistent(m)
    ensures Consistent(WithConfig(m, c))
  {
  }

  method ListInSomeOrder(tags: Tags) returns (listed: seq<SdkTag>)
    ensures ListsTags(listed, tags)
  {
    ghost var rest: seq<string> := [];
    listed := [];
    var todo := tags.Keys;
    while todo != {}
      invariant todo <= tags.Keys
      invariant Enumerates(rest, tags.Keys - todo)
      invariant forall k | k in rest :: k in tags
      invariant listed == SdkListing(tags, rest)
      decreases todo
    {
      var k :| k in todo;
      WalkOneMore(rest, tags.Keys - todo, k);
      assert tags.Keys - (todo - {k}) == tags.Keys - todo + {k};
      listed := listed + [SdkTag(Some(k), Some(tags[k]))];
      rest := rest + [k];
      todo := todo - {k};
    }
    assert tags.Keys - todo == tags.Keys;
  }

  /** The client the resource manager calls. Every call is recorded. */
  class Client {
    var machine: Option<Machine>
    var requests: seq<Request>

    constructor ()
      ensures machine == None && requests == []
    {
      machine, requests := None, [];
    }

    method DescribeStateMachine(arn: Option<string>, o: Outcome) returns (r: Result<DescribeOutput, Error>)
      modifies this`requests
      ensures requests == old(requests) + [Request.DescribeStateMachine(if arn.Some? then arn.value else "")]
      ensures var e := CallError(machine, arn, o); r == if e.Some? then Err(e.value) else Ok(Describe(machine.value))
    {
      requests := requests + [Request.DescribeStateMachine(if arn.Some? then arn.value else "")];
      var e := CallError(machine, arn, o);
      r := if e.Some? then Err(e.value) else Ok(Describe(machine.value));
    }

    /** DescribeStateMachine on a version ARN: answers as long as the version is live. */
    method DescribeVersion(n: nat, o: Outcome) returns (err: Option<Error>)
      modifies this`requests
      ensures requests == old(requests) + [Request.DescribeVersion(n)]
      ensures err == VersionError(machine, n, o)
    {
      requests := requests + [Request.DescribeVersion(n)];
      err := VersionError(machine, n, o);
    }

    /** ListTagsForResource may list the tags in any order. */
    method ListTagsForResource(arn: Option<string>, o: Outcome) returns (r: Result<seq<SdkTag>, Error>)
      modifies this`requests
      ensures requests == old(requests) + [ListTags(if arn.Some? then arn.value else "")]
      ensures var e := CallError(machine, arn, o);
              if e.Some? then r == Err(e.value) else r.Ok? && ListsTags(r.value, machine.value.tags)
    {
      requests := requests + [ListTags(if arn.Some? then arn.value else "")];
      var e := CallError(machine, arn, o);
      if e.Some? {
        return Err(e.value);
      }
      var listed := ListInSomeOrder(machine.value.tags);
      return Ok(listed);
    }

    method UntagResource(arn: Option<string>, keys: seq<string>, o: Outcome) returns (err: Option<Error>)
      modifies this
      ensures requests == old(requests) + [Request.UntagResource(if arn.Some? then arn.value else "", keys)]
      ensures err == CallError(old(machine), arn, o)
      ensures machine == if err.Some? then old(machine)
                         else Some(old(machine).value.(tags := old(machine).value.tags - Elements(keys)))
    {
      requests := requests + [Request.UntagResource(if arn.Some? then arn.value else "", keys)];
      err := CallError(machine, arn, o);
      if err.None? {
        machine := Some(machine.value.(tags := machine.value.tags - Elements(keys)));
      }
    }

    method TagResource(arn: Option<string>, tags: seq<SdkTag>, o: Outcome) returns (err: Option<Error>)
      modifies this
      ensures requests == old(requests) + [Request.TagResource(if arn.Some? then arn.value else "", tags)]
      ensures err == CallError(old(machine), arn, o)
      ensures machine == if err.Some? then old(machine)
                         else Some(old(machine).value.(tags := ApplyTags(old(machine).value.tags, tags)))
    {
      requests := requests + [Request.TagResource(if arn.Some? then arn.value else "", tags)];
      err := CallError(machine, arn, o);
      if err.None? {
        machine := Some(machine.value.(tags := ApplyTags(machine.value.tags, tags)));
      }
    }

    method UpdateStateMachine(input: UpdateInput, o: Outcome) returns (r: Result<UpdateOutput, Error>)
      modifies this
      ensures requests == old(requests) + [Request.UpdateStateMachine(input)]
      ensures var e := CallError(old(machine), input.stateMachineArn, o);
              if e.Some? then r == Err(e.value) && machine == old(machine)
              else && r == Ok(UpdateAnswer(old(machine).value, input))
                   && machine == Some(Update(old(machine).value, input))
    {
      requests := requests + [Request.UpdateStateMachine(input)];
      var e := CallError(machine, input.stateMachineArn, o);
      if e.Some? {
        return Err(e.value);
      }
      r := Ok(UpdateAnswer(machine.value, input));
      machine := Some(Update(machine.value, input));
    }

    /** Creation is refused while a machine exists. */
    method CreateStateMachine(input: CreateInput, o: Outcome, chosen: Chosen)
      returns (r: Result<CreateOutput, Error>)
      modifies this
      ensures requests == old(requests) + [Request.CreateStateMachine(input)]
      ensures var e := CreateError(old(machine), o);
              if e.Some? then r == Err(e.value) && machine == old(machine)
              else && machine == Some(Create(input, chosen))
                   && r == Ok(CreateAnswer(input, machine.value))
    {
      requests := requests + [Request.CreateStateMachine(input)];
      var e := CreateError(machine, o);
      if e.Some? {
        return Err(e.value);
      }
      machine := Some(Create(input, chosen));
      r := Ok(CreateAnswer(input, machine.value));
    }
  }

  function VersionError(machine: Option<Machine>, n: nat, o: Outcome): Option<Error> {
    match o
    case Failed(e) => Some(e)
    case Answered => if machine.Some? && n in machine.value.live then None else Some(MISSING)
  }

  function CreateError(machine: Option<Machine>, o: Outcome): Option<Error> {
    match o
    case Failed(e) => Some(e)
    case Answered => if machine.Some? then Some(AwsError("StateMachineAlreadyExists", "", "")) else None
  }

  function SdkListing(tags: Tags, keys: seq<string>): seq<SdkTag>
    requires forall k | k in keys :: k in tags
  {
    seq(|keys|, i requires 0 <= i < |keys| => SdkTag(Some(keys[i]), Some(tags[keys[i]])))
  }

  /** `listed` shows every tag once, in some order. */
  ghost predicate ListsTags(listed: seq<SdkTag>, tags: Tags) {
    exists rest: seq<string> :: Enumerates(rest, tags.Keys) && (forall k | k in rest :: k in tags) && listed == SdkListing(tags, rest)
  }
}
