/** Condition bookkeeping: updateConditions, onError and onSuccess
    (pkg/resource/state_machine/sdk.go and manager.go). */
module Conditions {
  import opened Wrappers
  import opened Api

  /** The secret errors and whatever wraps a TerminalError. terminalAWSError
      knows no terminal service error for this resource. */
  predicate IsTerminal(e: Error) {
    e.SecretTypeNotSupported? || e.SecretNotFound? || e.TerminalError?
  }

  function Text(e: Error): string {
    match e
    case NotFound => "resource not found"
    case TerminalSentinel => "resource is in terminal condition"
    case SecretTypeNotSupported => "secret type not supported"
    case SecretNotFound => "kubernetes secret not found"
    case TerminalError(text) => text
    case AwsError(_, text, _) => text
    case PlainError(text) => text
  }

  /** A service error is reported by its own text, not by that of the chain around it. */
  function RecoverableText(e: Error): string {
    if e.AwsError? then e.awsText else Text(e)
  }

  // ---------- one update, on the list ----------

  /** The entry the scan ends up pointing at: the last of its type. */
  function Find(cs: seq<Condition>, typ: ConditionType): Option<nat> {
    if cs == [] then None
    else if cs[|cs| - 1].typ == typ then Some(|cs| - 1)
    else Find(cs[..|cs| - 1], typ)
  }

  lemma {:induction false} FindMeaning(cs: seq<Condition>, typ: ConditionType)
    ensures var i := Find(cs, typ);
            && (i.Some? ==> i.value < |cs| && cs[i.value].typ == typ && forall j | i.value < j < |cs| :: cs[j].typ != typ)
            && (i.None? ==> forall j | 0 <= j < |cs| :: cs[j].typ != typ)
  {
    if cs != [] && cs[|cs| - 1].typ != typ {
      FindMeaning(cs[..|cs| - 1], typ);
      assert forall j | 0 <= j < |cs| - 1 :: cs[j] == cs[..|cs| - 1][j];
    }
  }

  function Raise(cs: seq<Condition>, typ: ConditionType, message: string): (r: seq<Condition>) {
    FindMeaning(cs, typ);
    var i := Find(cs, typ);
    var raised := Condition(typ, True, Some(message));
    if i.Some? then cs[i.value := raised] else cs + [raised]
  }

  function Lower(cs: seq<Condition>, typ: ConditionType): (r: seq<Condition>) {
    FindMeaning(cs, typ);
    var i := Find(cs, typ);
    if i.Some? then cs[i.value := Condition(typ, False, None)] else cs
  }

  function Updated(cs: seq<Condition>, err: Option<Error>): seq<Condition> {
    if err.Some? && IsTerminal(err.value) then Raise(cs, Terminal, Text(err.value))
    else
      var lowered := Lower(cs, Terminal);
      if err.Some? then Raise(lowered, Recoverable, RecoverableText(err.value))
      else Lower(lowered, Recoverable)
  }

  predicate Tracked(cs: seq<Condition>) {
    Find(cs, Terminal).Some? || Find(cs, Recoverable).Some? || Find(cs, ResourceSynced).Some?
  }

  method UpdateConditions(conditions: seq<Condition>, err: Option<Error>) returns (cs: seq<Condition>, updated: bool)
    ensures cs == Updated(conditions, err)
    ensures Records(conditions, cs, err)
    ensures updated <==> Tracked(conditions) || err.Some?
    ensures !updated ==> cs == conditions
  {
    cs := conditions;
    var terminal: Option<nat>, recoverable: Option<nat>, sync: Option<nat> := None, None, None;
    for i := 0 to |cs|
      invariant terminal == Find(cs[..i], Terminal)
      invariant recoverable == Find(cs[..i], Recoverable)
      invariant sync == Find(cs[..i], ResourceSynced)
    {
      assert cs[..i + 1][..i] == cs[..i];
      if cs[i].typ == Terminal { terminal := Some(i); }
      if cs[i].typ == Recoverable { recoverable := Some(i); }
      if cs[i].typ == ResourceSynced { sync := Some(i); }
    }
    assert cs[..|cs|] == cs;
    FindMeaning(cs, Terminal);
    FindMeaning(cs, Recoverable);
    FindAfterLower(cs);
    if err.Some? && IsTerminal(err.value) {
      if terminal.None? {
        terminal := Some(|cs|);
        cs := cs + [Condition(Terminal, Unknown, None)];
      }
      cs := cs[terminal.value := cs[terminal.value].(status := True, message := Some(Text(err.value)))];
    } else {
      if terminal.Some? {
        cs := cs[terminal.value := cs[terminal.value].(status := False, message := None)];
      }
      if err.Some? {
        if recoverable.None? {
          recoverable := Some(|cs|);
          cs := cs + [Condition(Recoverable, Unknown, None)];
        }
        cs := cs[recoverable.value := cs[recoverable.value].(status := True, message := Some(RecoverableText(err.value)))];
      } else if recoverable.Some? {
        cs := cs[recoverable.value := cs[recoverable.value].(status := False, message := None)];
      }
    }
    updated := terminal.Some? || recoverable.Some? || sync.Some?;
    assert cs == Updated(conditions, err);
    UpdateRecords(conditions, err);
  }

  /** Lowering one type leaves the place of every other type. */
  lemma FindAfterLower(cs: seq<Condition>)
    ensures Find(Lower(cs, Terminal), Recoverable) == Find(cs, Recoverable)
  {
    var lowered := Lower(cs, Terminal);
    FindMeaning(cs, Terminal);
    FindMeaning(cs, Recoverable);
    FindMeaning(lowered, Recoverable);
    assert |lowered| == |cs| && forall i | 0 <= i < |cs| :: lowered[i].typ == cs[i].typ;
  }

  // ---------- what the entries are afterwards ----------

  /** No entry of the same type follows. */
  ghost predicate LastOfType(cs: seq<Condition>, i: nat)
    requires i < |cs|
  {
    forall j | i < j < |cs| :: cs[j].typ != cs[i].typ
  }

  ghost predicate Listed(cs: seq<Condition>, typ: ConditionType) {
    exists i :: 0 <= i < |cs| && cs[i].typ == typ
  }

  /** The text by which an error is told: its own, without the chain around a
      service error. */
  ghost function OwnText(e: Error): string {
    match e
    case TerminalError(text) => text
    case PlainError(text) => text
    case AwsError(_, _, awsText) => awsText
    case _ => Text(e)
  }

  /** The type of the condition that an error raises. */
  ghost function RaisedBy(e: Error): ConditionType {
    if e.SecretTypeNotSupported? || e.SecretNotFound? || e.TerminalError? then Terminal else Recoverable
  }

  /** `out` tells the outcome of a call on a resource whose conditions were `cs`,
      entry by entry. Only the last entry of a type is written to. An error raises
      its condition with its own text, appended when there is none. Terminal is
      lowered by every other outcome, Recoverable by success; a terminal error
      leaves Recoverable alone, and nothing else changes. */
  ghost predicate Records(cs: seq<Condition>, out: seq<Condition>, err: Option<Error>) {
    && |cs| <= |out|
    && (forall i | 0 <= i < |cs| ::
          out[i] == if !LastOfType(cs, i) then cs[i]
                    else if err.Some? && cs[i].typ == RaisedBy(err.value) then Condition(cs[i].typ, True, Some(OwnText(err.value)))
                    else if cs[i].typ == Terminal || (cs[i].typ == Recoverable && err.None?) then Condition(cs[i].typ, False, None)
                    else cs[i])
    && out[|cs|..] == if err.Some? && !Listed(cs, RaisedBy(err.value))
                      then [Condition(RaisedBy(err.value), True, Some(OwnText(err.value)))] else []
  }

  lemma RaiseEntries(cs: seq<Condition>, typ: ConditionType, message: string)
    ensures var out := Raise(cs, typ, message);
            && |cs| <= |out|
            && (forall i | 0 <= i < |cs| ::
                  out[i] == if cs[i].typ == typ && LastOfType(cs, i) then Condition(typ, True, Some(message)) else cs[i])
            && out[|cs|..] == if Listed(cs, typ) then [] else [Condition(typ, True, Some(message))]
  {
    FindMeaning(cs, typ);
    var i := Find(cs, typ);
    if i.Some? {
      assert cs[i.value].typ == typ && LastOfType(cs, i.value);
    }
  }

  lemma LowerEntries(cs: seq<Condition>, typ: ConditionType)
    ensures var out := Lower(cs, typ);
            && |cs| == |out|
            && (forall i | 0 <= i < |cs| ::
                  out[i] == if cs[i].typ == typ && LastOfType(cs, i) then Condition(typ, False, None) else cs[i])
            && (forall i | 0 <= i < |cs| :: LastOfType(out, i) <==> LastOfType(cs, i))
            && (forall t :: Listed(out, t) <==> Listed(cs, t))
  {
    FindMeaning(cs, typ);
    var i, out := Find(cs, typ), Lower(cs, typ);
    if i.Some? {
      assert LastOfType(cs, i.value);
    }
    assert forall k | 0 <= k < |cs| :: out[k].typ == cs[k].typ;
  }

  lemma UpdateRecords(cs: seq<Condition>, err: Option<Error>)
    ensures Records(cs, Updated(cs, err), err)
  {
    LowerEntries(cs, Terminal);
    var lowered := Lower(cs, Terminal);
    LowerEntries(lowered, Recoverable);
    if err.Some? {
      RaiseEntries(cs, Terminal, Text(err.value));
      RaiseEntries(lowered, Recoverable, RecoverableText(err.value));
    }
  }

  // ---------- what one update does ----------

  ghost predicate Unique(cs: seq<Condition>) {
    forall i, j | 0 <= i < j < |cs| :: cs[i].typ != cs[j].typ
  }

  /** The condition of a type is raised. */
  ghost predicate Raised(cs: seq<Condition>, typ: ConditionType) {
    exists i :: 0 <= i < |cs| && cs[i].typ == typ && cs[i].status == True
  }

  /** The conditions the update does not manage. */
  function Others(cs: seq<Condition>): seq<Condition> {
    if cs == [] then []
    else
      var os, c := Others(cs[..|cs| - 1]), cs[|cs| - 1];
      if c.typ == Terminal || c.typ == Recoverable then os else os + [c]
  }

  lemma {:induction false} OthersIgnoreManaged(cs: seq<Condition>, i: nat, c: Condition)
    requires i < |cs| && cs[i].typ == c.typ && (c.typ == Terminal || c.typ == Recoverable)
    ensures Others(cs[i := c]) == Others(cs)
  {
    var n := |cs| - 1;
    if i < n {
      assert cs[i := c][..n] == cs[..n][i := c];
      OthersIgnoreManaged(cs[..n], i, c);
    } else {
      assert cs[i := c][..n] == cs[..n];
    }
  }

  lemma RaiseStep(cs: seq<Condition>, typ: ConditionType, message: string)
    requires Unique(cs) && (typ == Terminal || typ == Recoverable)
    ensures var out := Raise(cs, typ, message);
            && Unique(out) && Others(out) == Others(cs)
            && Condition(typ, True, Some(message)) in out
            && (forall t | t != typ :: Raised(out, t) <==> Raised(cs, t))
  {
    FindMeaning(cs, typ);
    var i, out := Find(cs, typ), Raise(cs, typ, message);
    if i.Some? {
      OthersIgnoreManaged(cs, i.value, Condition(typ, True, Some(message)));
      assert out[i.value] == Condition(typ, True, Some(message));
      forall t | t != typ ensures Raised(out, t) <==> Raised(cs, t) {
        assert forall j | 0 <= j < |cs| && j != i.value :: out[j] == cs[j];
      }
    } else {
      assert out[..|cs|] == cs;
      forall t | t != typ ensures Raised(out, t) <==> Raised(cs, t) {
        assert forall j | 0 <= j < |cs| :: out[j] == cs[j];
      }
    }
  }

  lemma LowerStep(cs: seq<Condition>, typ: ConditionType)
    requires Unique(cs) && (typ == Terminal || typ == Recoverable)
    ensures var out := Lower(cs, typ);
            && Unique(out) && Others(out) == Others(cs)
            && !Raised(out, typ)
            && (forall t | t != typ :: Raised(out, t) <==> Raised(cs, t))
  {
    FindMeaning(cs, typ);
    var i, out := Find(cs, typ), Lower(cs, typ);
    if i.Some? {
      OthersIgnoreManaged(cs, i.value, Condition(typ, False, None));
      forall t | t != typ ensures Raised(out, t) <==> Raised(cs, t) {
        assert forall j | 0 <= j < |cs| && j != i.value :: out[j] == cs[j];
      }
    }
  }

  /** One outcome: types stay unique, unmanaged conditions keep content and
      order, Terminal is raised exactly on a terminal error, and Recoverable
      follows the outcome unless that is a terminal error, which leaves it alone. */
  lemma UpdateStep(cs: seq<Condition>, err: Option<Error>)
    requires Unique(cs)
    ensures var out := Updated(cs, err);
            && Unique(out) && Others(out) == Others(cs)
            && (Raised(out, Terminal) <==> err.Some? && IsTerminal(err.value))
            && (if err.Some? && IsTerminal(err.value)
                then (Raised(out, Recoverable) <==> Raised(cs, Recoverable))
                     && Condition(Terminal, True, Some(Text(err.value))) in out
                else (Raised(out, Recoverable) <==> err.Some?)
                     && (err.Some? ==> Condition(Recoverable, True, Some(RecoverableText(err.value))) in out))
  {
    var out := Updated(cs, err);
    if err.Some? && IsTerminal(err.value) {
      RaiseStep(cs, Terminal, Text(err.value));
      RaisedWhen(out, Condition(Terminal, True, Some(Text(err.value))));
    } else {
      LowerStep(cs, Terminal);
      var lowered := Lower(cs, Terminal);
      if err.Some? {
        RaiseStep(lowered, Recoverable, RecoverableText(err.value));
        RaisedWhen(out, Condition(Recoverable, True, Some(RecoverableText(err.value))));
      } else {
        LowerStep(lowered, Recoverable);
      }
    }
  }

  lemma RaisedWhen(cs: seq<Condition>, c: Condition)
    requires c in cs && c.status == True
    ensures Raised(cs, c.typ)
  {
  }

  /** For a list with unique types that says: a plain error raises Recoverable with
      its own text and leaves no raised Terminal, a terminal error raises Terminal
      with its text and leaves Recoverable alone, success raises neither, and the
      conditions that are not managed are kept in order. */
  lemma RecordsMeaning(cs: seq<Condition>, out: seq<Condition>, err: Option<Error>)
    requires Unique(cs) && Records(cs, out, err)
    ensures Unique(out) && Others(out) == Others(cs)
    ensures err.Some? ==> Condition(RaisedBy(err.value), True, Some(OwnText(err.value))) in out
    ensures err.Some? && RaisedBy(err.value) == Terminal ==> forall c: Condition | c.typ == Recoverable :: c in out <==> c in cs
    ensures !(err.Some? && RaisedBy(err.value) == Terminal) ==> !Raised(out, Terminal)
    ensures err.None? ==> !Raised(out, Recoverable)
  {
    UpdateStep(cs, err);
    RecordsDetermines(cs, out, err);
    if err.Some? && RaisedBy(err.value) == Terminal {
      RecoverableLeftAlone(cs, out, err.value);
    }
  }

  lemma RecoverableLeftAlone(cs: seq<Condition>, out: seq<Condition>, err: Error)
    requires Records(cs, out, Some(err)) && RaisedBy(err) == Terminal
    ensures forall c: Condition | c.typ == Recoverable :: c in out <==> c in cs
  {
    forall c: Condition | c.typ == Recoverable ensures c in out <==> c in cs {
      if c in cs {
        var i :| 0 <= i < |cs| && cs[i] == c;
        assert out[i] == c;
      }
      if c in out {
        var i :| 0 <= i < |out| && out[i] == c;
        assert i >= |cs| ==> out[i] == out[|cs|..][i - |cs|];
      }
    }
  }

  lemma RecordsDetermines(cs: seq<Condition>, out: seq<Condition>, err: Option<Error>)
    requires Records(cs, out, err)
    ensures out == Updated(cs, err)
  {
    UpdateRecords(cs, err);
    var u := Updated(cs, err);
    assert out == out[..|cs|] + out[|cs|..] && u == u[..|cs|] + u[|cs|..];
    assert out[..|cs|] == u[..|cs|];
  }

  /** An older Terminal entry that is raised behind a later one, which is the only
      one the update writes to. */
  ghost predicate Shadowed(cs: seq<Condition>) {
    exists i, j :: 0 <= i < j < |cs| && cs[i].typ == Terminal && cs[i].status == True && cs[j].typ == Terminal
  }

  lemma LowerTerminalLeavesShadowed(cs: seq<Condition>)
    ensures Raised(Lower(cs, Terminal), Terminal) <==> Shadowed(cs)
  {
    FindMeaning(cs, Terminal);
    var i, out := Find(cs, Terminal), Lower(cs, Terminal);
    if Raised(out, Terminal) {
      var k :| 0 <= k < |out| && out[k].typ == Terminal && out[k].status == True;
      assert cs[k] == out[k] && k < i.value;
    }
    if Shadowed(cs) {
      var k, j :| 0 <= k < j < |cs| && cs[k].typ == Terminal && cs[k].status == True && cs[j].typ == Terminal;
      assert out[k] == cs[k];
    }
  }

  lemma RecoverableKeepsTerminal(cs: seq<Condition>, message: string)
    ensures Raised(Raise(cs, Recoverable, message), Terminal) <==> Raised(cs, Terminal)
    ensures Raised(Lower(cs, Recoverable), Terminal) <==> Raised(cs, Terminal)
  {
    FindMeaning(cs, Recoverable);
    var i, up, down := Find(cs, Recoverable), Raise(cs, Recoverable, message), Lower(cs, Recoverable);
    assert forall k | 0 <= k < |cs| && i != Some(k) :: up[k] == cs[k] && down[k] == cs[k];
  }

  /** Whatever the list, Terminal is raised after an outcome exactly when that is a
      terminal error or an older Terminal entry was shadowed. */
  lemma TerminalAfter(cs: seq<Condition>, err: Option<Error>)
    ensures Raised(Updated(cs, err), Terminal) <==> (err.Some? && IsTerminal(err.value)) || Shadowed(cs)
  {
    if err.Some? && IsTerminal(err.value) {
      FindMeaning(cs, Terminal);
      var i := Find(cs, Terminal);
      var at := if i.Some? then i.value else |cs|;
      assert Updated(cs, err)[at] == Condition(Terminal, True, Some(Text(err.value)));
    } else {
      LowerTerminalLeavesShadowed(cs);
      RecoverableKeepsTerminal(Lower(cs, Terminal), if err.Some? then RecoverableText(err.value) else "");
    }
  }

  /** Terminal tells terminal errors from all other outcomes exactly when no raised
      Terminal entry is shadowed; a list with unique types has none. */
  lemma TerminalExactIff(cs: seq<Condition>)
    ensures (forall err :: Raised(Updated(cs, err), Terminal) <==> err.Some? && IsTerminal(err.value)) <==> !Shadowed(cs)
    ensures Unique(cs) ==> !Shadowed(cs)
  {
    forall err ensures Raised(Updated(cs, err), Terminal) <==> (err.Some? && IsTerminal(err.value)) || Shadowed(cs) {
      TerminalAfter(cs, err);
    }
    if Shadowed(cs) {
      assert Raised(Updated(cs, None), Terminal);
    }
  }

  /** The error onError returns for a resource with these conditions. */
  ghost function Reported(cs: seq<Condition>, err: Error): Error {
    if IsTerminal(err) || Shadowed(cs) then TerminalSentinel else err
  }

  lemma ReportedMeaning(cs: seq<Condition>, err: Error)
    ensures Reported(cs, err) == if Raised(Updated(cs, Some(err)), Terminal) then TerminalSentinel else err
    ensures Unique(cs) ==> Reported(cs, err) == if RaisedBy(err) == Terminal then TerminalSentinel else err
  {
    TerminalAfter(cs, Some(err));
    TerminalExactIff(cs);
  }

  // ---------- any sequence of outcomes ----------

  function After(cs: seq<Condition>, outcomes: seq<Option<Error>>): seq<Condition> {
    if outcomes == [] then cs
    else Updated(After(cs, outcomes[..|outcomes| - 1]), outcomes[|outcomes| - 1])
  }

  function NonTerminal(outcomes: seq<Option<Error>>): seq<Option<Error>> {
    if outcomes == [] then []
    else
      var rest, o := NonTerminal(outcomes[..|outcomes| - 1]), outcomes[|outcomes| - 1];
      if o.Some? && IsTerminal(o.value) then rest else rest + [o]
  }

  /** Over any run Terminal tells the last outcome and Recoverable the last one
      that was not a terminal error: a terminal error never clears it. */
  lemma {:induction false} ConditionsOverRun(cs: seq<Condition>, outcomes: seq<Option<Error>>)
    requires Unique(cs)
    ensures var out, plain := After(cs, outcomes), NonTerminal(outcomes);
            && Unique(out) && Others(out) == Others(cs)
            && (outcomes != [] ==>
                  (Raised(out, Terminal) <==> outcomes[|outcomes| - 1].Some? && IsTerminal(outcomes[|outcomes| - 1].value)))
            && (Raised(out, Recoverable) <==> if plain == [] then Raised(cs, Recoverable) else plain[|plain| - 1].Some?)
  {
    if outcomes != [] {
      var n := |outcomes| - 1;
      var before := After(cs, outcomes[..n]);
      ConditionsOverRun(cs, outcomes[..n]);
      UpdateStep(before, outcomes[n]);
      assert After(cs, outcomes) == Updated(before, outcomes[n]);
    }
  }

  /** Listed twice, an old Terminal entry survives and turns a plain error into a
      terminal one. */
  lemma DuplicateTerminalMisreports()
    ensures var cs := [Condition(Terminal, True, None), Condition(Terminal, True, None)];
            var err := PlainError("throttled");
            !IsTerminal(err) && Raised(Updated(cs, Some(err)), Terminal)
  {
    var cs := [Condition(Terminal, True, None), Condition(Terminal, True, None)];
    assert cs[0].status == True && cs[1].typ == Terminal;
    TerminalAfter(cs, Some(PlainError("throttled")));
  }
}
