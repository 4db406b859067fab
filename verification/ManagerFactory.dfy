/** The shared cache of resource managers (pkg/resource/state_machine/manager_factory.go).
    A call looks its key up under the read lock, and on a miss builds and stores a
    manager under the write lock; between the two anything may happen. */
module ManagerFactory {
  import opened Wrappers

  datatype Args = Args(accountId: string, region: string, roleArn: string)

  /** The serial number tells managers built for the same key apart. */
  datatype Manager = Manager(accountId: string, region: string, serial: nat)

  function Key(a: Args): string {
    a.accountId + "/" + a.region + "/" + a.roleArn
  }

  predicate Plain(a: Args) {
    '/' !in a.accountId && '/' !in a.region
  }

  lemma FirstSlash(a: string, s: string)
    requires '/' !in a
    ensures forall i | 0 <= i < |a| :: (a + "/" + s)[i] != '/'
    ensures (a + "/" + s)[|a|] == '/'
  {
  }

  lemma SplitAtSlash(a: string, s: string, b: string, t: string)
    requires '/' !in a && '/' !in b && a + "/" + s == b + "/" + t
    ensures a == b && s == t
  {
    FirstSlash(a, s);
    FirstSlash(b, t);
    var x := a + "/" + s;
    assert |a| == |b|;
    assert a == x[..|a|] && b == x[..|b|] && s == x[|a| + 1..] && t == x[|b| + 1..];
  }

  /** Without slashes in account and region the key determines the arguments. */
  lemma KeyInjective(a: Args, b: Args)
    requires Plain(a) && Plain(b)
    ensures Key(a) == Key(b) <==> a == b
  {
    if Key(a) == Key(b) {
      assert Key(a) == a.accountId + "/" + (a.region + "/" + a.roleArn);
      assert Key(b) == b.accountId + "/" + (b.region + "/" + b.roleArn);
      SplitAtSlash(a.accountId, a.region + "/" + a.roleArn, b.accountId, b.region + "/" + b.roleArn);
      SplitAtSlash(a.region, a.roleArn, b.region, b.roleArn);
    }
  }

  lemma KeyCollidesWithSlashes()
    ensures var a, b := Args("1/2", "3", ""), Args("1", "2/3", ""); a != b && Key(a) == Key(b)
  {
  }

  /** No caller for another account or region shares the key. */
  ghost predicate KeyDecides(a: Args) {
    forall b: Args :: Key(b) == Key(a) ==> b.accountId == a.accountId && b.region == a.region
  }

  function Slashes(s: string): nat {
    if s == "" then 0 else (if s[0] == '/' then 1 else 0) + Slashes(s[1..])
  }

  lemma {:induction false} SlashesConcat(s: string, t: string)
    ensures Slashes(s + t) == Slashes(s) + Slashes(t)
  {
    if s == "" {
      assert s + t == t;
    } else {
      assert (s + t)[1..] == s[1..] + t;
      SlashesConcat(s[1..], t);
    }
  }

  lemma {:induction false} NoSlashes(s: string)
    ensures Slashes(s) == 0 <==> '/' !in s
  {
    if s != "" {
      NoSlashes(s[1..]);
      assert s == [s[0]] + s[1..];
    }
  }

  lemma KeySlashes(a: Args)
    ensures Slashes(Key(a)) == Slashes(a.accountId) + Slashes(a.region) + Slashes(a.roleArn) + 2
  {
    assert Slashes("/") == 1;
    SlashesConcat(a.accountId, "/");
    SlashesConcat(a.accountId + "/", a.region);
    SlashesConcat(a.accountId + "/" + a.region, "/");
    SlashesConcat(a.accountId + "/" + a.region + "/", a.roleArn);
  }

  /** Another way to cut the key of arguments that contain a slash. */
  lemma OtherReading(a: Args) returns (b: Args)
    requires '/' in a.accountId || '/' in a.region || '/' in a.roleArn
    ensures Key(b) == Key(a) && !(b.accountId == a.accountId && b.region == a.region)
  {
    if '/' in a.accountId {
      var i :| 0 <= i < |a.accountId| && a.accountId[i] == '/';
      b := Args(a.accountId[..i], a.accountId[i + 1..], a.region + "/" + a.roleArn);
      assert a.accountId == a.accountId[..i] + "/" + a.accountId[i + 1..];
    } else if '/' in a.region {
      var i :| 0 <= i < |a.region| && a.region[i] == '/';
      b := Args(a.accountId, a.region[..i], a.region[i + 1..] + "/" + a.roleArn);
      assert a.region == a.region[..i] + "/" + a.region[i + 1..];
      assert |b.region| < |a.region|;
    } else {
      var i :| 0 <= i < |a.roleArn| && a.roleArn[i] == '/';
      b := Args(a.accountId + "/" + a.region, a.roleArn[..i], a.roleArn[i + 1..]);
      assert a.roleArn == a.roleArn[..i] + "/" + a.roleArn[i + 1..];
      assert |b.accountId| > |a.accountId|;
    }
    assert Key(b) == Key(a);
  }

  /** The key decides account and region exactly when none of its three parts has a
      slash; a slash in the role ARN alone lets a caller with a slash collide. */
  lemma KeyDecidesIff(a: Args)
    ensures KeyDecides(a) <==> '/' !in a.accountId && '/' !in a.region && '/' !in a.roleArn
  {
    if '/' !in a.accountId && '/' !in a.region && '/' !in a.roleArn {
      NoSlashes(a.accountId);
      NoSlashes(a.region);
      NoSlashes(a.roleArn);
      KeySlashes(a);
      forall b: Args | Key(b) == Key(a) ensures b.accountId == a.accountId && b.region == a.region {
        KeySlashes(b);
        NoSlashes(b.accountId);
        NoSlashes(b.region);
        KeyInjective(a, b);
      }
    } else {
      var b := OtherReading(a);
    }
  }

  // ---------- interleaved calls ----------

  /** `waiting` are the calls between their two critical sections; the rest but the
      cache is history. */
  datatype State = State(
    cache: map<string, Manager>,
    waiting: seq<Args>,
    missed: multiset<string>,
    built: multiset<string>,
    failed: multiset<string>,
    callers: set<Args>,
    returned: seq<(Args, Manager)>,
    serial: nat)

  const EMPTY := State(map[], [], multiset{}, multiset{}, multiset{}, {}, [], 0)

  datatype Step =
    | Lookup(args: Args)
    | Store(index: nat, ok: bool)

  predicate Possible(s: State, e: Step) {
    e.Store? ==> e.index < |s.waiting|
  }

  function Next(s: State, e: Step): State
    requires Possible(s, e)
  {
    match e
    case Lookup(args) =>
      var s1 := s.(callers := s.callers + {args});
      if Key(args) in s.cache then s1.(returned := s.returned + [(args, s.cache[Key(args)])])
      else s1.(waiting := s.waiting + [args], missed := s.missed + multiset{Key(args)})
    case Store(i, ok) =>
      var args, waiting := s.waiting[i], s.waiting[..i] + s.waiting[i + 1..];
      if !ok then s.(waiting := waiting, failed := s.failed + multiset{Key(args)})
      else
        var rm := Manager(args.accountId, args.region, s.serial);
        s.(cache := s.cache[Key(args) := rm], waiting := waiting, built := s.built + multiset{Key(args)},
           returned := s.returned + [(args, rm)], serial := s.serial + 1)
  }

  predicate Feasible(s: State, es: seq<Step>)
    decreases |es|
  {
    es == [] || (Possible(s, es[0]) && Feasible(Next(s, es[0]), es[1..]))
  }

  function Run(s: State, es: seq<Step>): State
    requires Feasible(s, es)
    decreases |es|
  {
    if es == [] then s else Run(Next(s, es[0]), es[1..])
  }

  function KeysOf(calls: seq<Args>): multiset<string> {
    if calls == [] then multiset{} else multiset{Key(calls[0])} + KeysOf(calls[1..])
  }

  lemma {:induction false} KeysOfConcat(a: seq<Args>, b: seq<Args>)
    ensures KeysOf(a + b) == KeysOf(a) + KeysOf(b)
  {
    if a == [] {
      assert a + b == b;
    } else {
      assert (a + b)[1..] == a[1..] + b;
      KeysOfConcat(a[1..], b);
    }
  }

  lemma KeysOfRemoval(calls: seq<Args>, i: nat)
    requires i < |calls|
    ensures KeysOf(calls) == KeysOf(calls[..i] + calls[i + 1..]) + multiset{Key(calls[i])}
  {
    var init, tail := calls[..i], calls[i..];
    assert calls == init + tail;
    KeysOfConcat(init, tail);
    assert tail[0] == calls[i] && tail[1..] == calls[i + 1..];
    KeysOfConcat(init, calls[i + 1..]);
  }

  /** The manager carries the account and the region of the arguments. */
  predicate For(rm: Manager, a: Args) {
    rm.accountId == a.accountId && rm.region == a.region
  }

  /** Built for one of these callers, who has this key. */
  ghost predicate BuiltForKey(rm: Manager, key: string, callers: set<Args>) {
    exists a :: a in callers && Key(a) == key && For(rm, a)
  }

  ghost predicate ManagersFit(s: State) {
    && (forall a | a in s.waiting :: a in s.callers)
    && (forall k | k in s.cache :: BuiltForKey(s.cache[k], k, s.callers))
    && (forall r | r in s.returned :: r.0 in s.callers && BuiltForKey(r.1, Key(r.0), s.callers))
  }

  /** Somebody called with this key. */
  ghost predicate Asked(s: State, k: string) {
    exists a :: a in s.callers && Key(a) == k
  }

  /** Every miss is waiting, has failed or has built a manager. */
  ghost predicate MissesAccounted(s: State) {
    && (forall k :: s.missed[k] == s.built[k] + s.failed[k] + KeysOf(s.waiting)[k])
    && (forall k :: k in s.cache <==> s.built[k] > 0)
  }

  /** The first call for a key misses. */
  ghost predicate AskersMiss(s: State) {
    forall k :: Asked(s, k) <==> s.missed[k] > 0
  }

  ghost predicate Inv(s: State) {
    ManagersFit(s) && MissesAccounted(s) && AskersMiss(s)
  }

  lemma StepKeepsFit(s: State, e: Step)
    requires ManagersFit(s) && Possible(s, e)
    ensures ManagersFit(Next(s, e))
  {
    var s' := Next(s, e);
    match e
    case Lookup(args) =>
    case Store(i, ok) =>
      if ok {
        var a := s.waiting[i];
        assert For(s'.cache[Key(a)], a);
      }
  }

  lemma LookupKeepsAccounts(s: State, args: Args)
    requires MissesAccounted(s)
    ensures MissesAccounted(Next(s, Lookup(args)))
  {
    KeysOfConcat(s.waiting, [args]);
    assert [args][1..] == [];
    assert KeysOf([args]) == multiset{Key(args)};
  }

  lemma AskedAfterLookup(s: State, args: Args, k: string)
    ensures Asked(Next(s, Lookup(args)), k) <==> Asked(s, k) || k == Key(args)
  {
    var callers := Next(s, Lookup(args)).callers;
    assert args in callers && forall a | a in s.callers :: a in callers;
    if Asked(s, k) {
      var a :| a in s.callers && Key(a) == k;
      assert a in callers;
    }
  }

  lemma LookupKeepsAskers(s: State, args: Args)
    requires MissesAccounted(s) && AskersMiss(s)
    ensures AskersMiss(Next(s, Lookup(args)))
  {
    var s' := Next(s, Lookup(args));
    assert s.missed[Key(args)] >= s.built[Key(args)];
    forall k ensures Asked(s', k) <==> s'.missed[k] > 0 {
      AskedAfterLookup(s, args, k);
    }
  }

  lemma StoreKeepsAccounts(s: State, i: nat, ok: bool)
    requires MissesAccounted(s) && i < |s.waiting|
    ensures MissesAccounted(Next(s, Store(i, ok)))
  {
    KeysOfRemoval(s.waiting, i);
    var key, waiting, s' := Key(s.waiting[i]), s.waiting[..i] + s.waiting[i + 1..], Next(s, Store(i, ok));
    assert s'.waiting == waiting && s'.missed == s.missed;
    assert ok ==> s'.built == s.built + multiset{key} && s'.failed == s.failed;
    assert !ok ==> s'.built == s.built && s'.failed == s.failed + multiset{key};
  }

  lemma StepKeepsInv(s: State, e: Step)
    requires Inv(s) && Possible(s, e)
    ensures Inv(Next(s, e))
    ensures forall k | k in s.cache :: k in Next(s, e).cache
  {
    StepKeepsFit(s, e);
    match e
    case Lookup(args) =>
      LookupKeepsAccounts(s, args);
      LookupKeepsAskers(s, args);
    case Store(i, ok) =>
      StoreKeepsAccounts(s, i, ok);
      assert forall k :: Asked(Next(s, e), k) <==> Asked(s, k);
  }

  lemma {:induction false} RunKeepsInv(s: State, es: seq<Step>)
    requires Inv(s) && Feasible(s, es)
    ensures Inv(Run(s, es))
    ensures forall k | k in s.cache :: k in Run(s, es).cache
    decreases |es|
  {
    if es != [] {
      StepKeepsInv(s, es[0]);
      RunKeepsInv(Next(s, es[0]), es[1..]);
    }
  }

  /** Those who call in these steps. */
  function Callers(es: seq<Step>): set<Args> {
    set e | e in es && e.Lookup? :: e.args
  }

  lemma {:induction false} RunCallers(s: State, es: seq<Step>)
    requires Feasible(s, es)
    ensures Run(s, es).callers == s.callers + Callers(es)
    decreases |es|
  {
    if es != [] {
      assert es == [es[0]] + es[1..];
      RunCallers(Next(s, es[0]), es[1..]);
    }
  }

  lemma RunFromEmpty(es: seq<Step>)
    requires Feasible(EMPTY, es)
    ensures Inv(Run(EMPTY, es)) && Run(EMPTY, es).callers == Callers(es)
  {
    EmptyInv(EMPTY);
    RunKeepsInv(EMPTY, es);
    RunCallers(EMPTY, es);
    assert EMPTY.callers + Callers(es) == Callers(es);
  }

  lemma EmptyInv(s: State)
    requires s == EMPTY
    ensures Inv(s)
  {
  }

  lemma CachedStays(s: State)
    requires Inv(s)
    ensures forall more: seq<Step> | Feasible(s, more) :: forall k | k in s.cache :: k in Run(s, more).cache
  {
    forall more: seq<Step> | Feasible(s, more) ensures forall k | k in s.cache :: k in Run(s, more).cache {
      RunKeepsInv(s, more);
    }
  }

  lemma DecidedFits(s: State)
    requires Inv(s)
    ensures forall r | r in s.returned && KeyDecides(r.0) :: For(r.1, r.0)
  {
    forall r | r in s.returned && KeyDecides(r.0) ensures For(r.1, r.0) {
      var a :| a in s.callers && Key(a) == Key(r.0) && For(r.1, a);
    }
  }

  /** In every interleaving of calls on an empty factory, whatever their arguments:
      a manager handed out was built for one of the callers so far, who has the same
      key, so for the account and region asked for when the key decides them; a key
      is cached exactly when a manager was built for it, and stays cached; every
      miss has built a manager, has failed or is still waiting. */
  lemma EveryInterleaving(es: seq<Step>)
    requires Feasible(EMPTY, es)
    ensures var z := Run(EMPTY, es);
            && (forall k | k in z.cache :: BuiltForKey(z.cache[k], k, Callers(es)))
            && (forall r | r in z.returned ::
                  r.0 in Callers(es) && BuiltForKey(r.1, Key(r.0), Callers(es)) && (KeyDecides(r.0) ==> For(r.1, r.0)))
            && (forall k :: k in z.cache <==> z.built[k] > 0)
            && (forall k :: z.missed[k] == z.built[k] + z.failed[k] + KeysOf(z.waiting)[k])
            && (forall more: seq<Step> | Feasible(z, more) :: forall k | k in z.cache :: k in Run(z, more).cache)
  {
    var z := Run(EMPTY, es);
    RunFromEmpty(es);
    DecidedFits(z);
    CachedStays(z);
  }

  // ---------- who is handed the manager of another ----------

  /** No two of these callers share a key and differ in account or region. */
  ghost predicate NoCollision(callers: set<Args>) {
    forall a, b | a in callers && b in callers && Key(a) == Key(b) :: a.accountId == b.accountId && a.region == b.region
  }

  ghost predicate AllFit(s: State) {
    forall r | r in s.returned :: For(r.1, r.0)
  }

  lemma NoCollisionFits(es: seq<Step>)
    requires Feasible(EMPTY, es) && NoCollision(Callers(es))
    ensures AllFit(Run(EMPTY, es))
  {
    var z := Run(EMPTY, es);
    EveryInterleaving(es);
    forall r | r in z.returned ensures For(r.1, r.0) {
      var a :| a in Callers(es) && Key(a) == Key(r.0) && For(r.1, a);
    }
  }

  /** When no account and no region passed in contains a slash, every manager handed
      out is for the account and region asked for. */
  lemma PlainInterleaving(es: seq<Step>)
    requires Feasible(EMPTY, es)
    requires forall e | e in es && e.Lookup? :: Plain(e.args)
    ensures forall r | r in Run(EMPTY, es).returned :: For(r.1, r.0)
  {
    forall a, b | a in Callers(es) && b in Callers(es) && Key(a) == Key(b) ensures a == b {
      KeyInjective(a, b);
    }
    NoCollisionFits(es);
  }

  /** Two callers with the same key and different accounts or regions: the second is
      handed the manager of the first. */
  lemma CollisionHandsOutWrongManager(a: Args, b: Args)
    requires Key(a) == Key(b) && !(a.accountId == b.accountId && a.region == b.region)
    ensures var s1 := Next(EMPTY, Lookup(a));
            && s1.waiting == [a]
            && var s3 := Next(Next(s1, Store(0, true)), Lookup(b));
            && |s3.returned| == 2 && s3.returned[1].0 == b && !For(s3.returned[1].1, b)
  {
  }

  /** For any set of callers: every manager handed out, in every interleaving of
      calls by them, is for the account and region asked for, exactly when no two of
      them collide. */
  lemma CallersFitIff(callers: set<Args>)
    ensures (forall es | Feasible(EMPTY, es) && Callers(es) <= callers :: AllFit(Run(EMPTY, es))) <==> NoCollision(callers)
  {
    forall es | Feasible(EMPTY, es) && Callers(es) <= callers && NoCollision(callers) ensures AllFit(Run(EMPTY, es)) {
      NoCollisionFits(es);
    }
    forall a, b | a in callers && b in callers && Key(a) == Key(b) && !(a.accountId == b.accountId && a.region == b.region)
      ensures exists es :: Feasible(EMPTY, es) && Callers(es) <= callers && !AllFit(Run(EMPTY, es))
    {
      CollisionRun(a, b);
      assert Callers([Lookup(a), Store(0, true), Lookup(b)]) <= callers;
    }
  }

  lemma CollisionRun(a: Args, b: Args)
    requires Key(a) == Key(b) && !(a.accountId == b.accountId && a.region == b.region)
    ensures var es := [Lookup(a), Store(0, true), Lookup(b)]; Feasible(EMPTY, es) && !AllFit(Run(EMPTY, es))
  {
    var es := [Lookup(a), Store(0, true), Lookup(b)];
    CollisionHandsOutWrongManager(a, b);
    var s1 := Next(EMPTY, es[0]);
    var s2 := Next(s1, es[1]);
    var s3 := Next(s2, es[2]);
    assert es[1..] == [Store(0, true), Lookup(b)] && es[1..][1..] == [Lookup(b)] && es[1..][1..][1..] == [];
    assert Feasible(s2, [Lookup(b)]) && Run(s2, [Lookup(b)]) == s3;
    assert Feasible(s1, es[1..]) && Run(s1, es[1..]) == s3;
    assert s3.returned[1] in s3.returned;
  }

  // ---------- when a key is built more than once ----------

  /** Managers built for the key, and calls that are about to build one. */
  function Owned(s: State, k: string): nat {
    s.built[k] + KeysOf(s.waiting)[k]
  }

  /** Some call for the key misses while another one is waiting. */
  predicate Overlap(s: State, es: seq<Step>, k: string)
    requires Feasible(s, es)
    decreases |es|
  {
    && es != []
    && ((es[0].Lookup? && Key(es[0].args) == k && k !in s.cache && KeysOf(s.waiting)[k] > 0)
        || Overlap(Next(s, es[0]), es[1..], k))
  }

  predicate AllSucceed(es: seq<Step>) {
    forall e | e in es && e.Store? :: e.ok
  }

  lemma OwnedStep(s: State, e: Step, k: string)
    requires Possible(s, e)
    ensures Owned(Next(s, e), k) == Owned(s, k)
            + (if e.Lookup? && Key(e.args) == k && k !in s.cache then 1 else 0)
            - (if e.Store? && !e.ok && Key(s.waiting[e.index]) == k then 1 else 0)
  {
    match e
    case Lookup(args) =>
      KeysOfConcat(s.waiting, [args]);
      assert KeysOf([args]) == multiset{Key(args)} + KeysOf([args][1..]);
    case Store(i, ok) =>
      KeysOfRemoval(s.waiting, i);
      assert Next(s, e).waiting == s.waiting[..i] + s.waiting[i + 1..];
  }

  lemma {:induction false} OwnedOverRun(s: State, es: seq<Step>, k: string)
    requires MissesAccounted(s) && Feasible(s, es)
    ensures Owned(Run(s, es), k) >= 2 ==> Owned(s, k) >= 2 || Overlap(s, es, k)
    ensures AllSucceed(es) && (Owned(s, k) >= 2 || Overlap(s, es, k)) ==> Owned(Run(s, es), k) >= 2
    decreases |es|
  {
    if es != [] {
      assert es[0] in es && forall e | e in es[1..] :: e in es;
      match es[0] {
        case Lookup(args) => LookupKeepsAccounts(s, args);
        case Store(i, ok) => StoreKeepsAccounts(s, i, ok);
      }
      OwnedStep(s, es[0], k);
      OwnedOverRun(Next(s, es[0]), es[1..], k);
    }
  }

  lemma OwnedFromEmpty(es: seq<Step>, k: string)
    requires Feasible(EMPTY, es)
    ensures Owned(Run(EMPTY, es), k) >= 2 ==> Overlap(EMPTY, es, k)
    ensures AllSucceed(es) && Overlap(EMPTY, es, k) ==> Owned(Run(EMPTY, es), k) >= 2
  {
    assert Owned(EMPTY, k) == 0;
    OwnedOverRun(EMPTY, es, k);
  }

  /** A second manager is built for a key only when a call for it misses while
      another is waiting. When no construction fails and no call for the key is left
      waiting, that is exactly when; and otherwise every key asked for has exactly
      one manager built. */
  lemma BuiltTwiceIffOverlap(es: seq<Step>, k: string)
    requires Feasible(EMPTY, es)
    ensures var z := Run(EMPTY, es);
            && (z.built[k] >= 2 ==> Overlap(EMPTY, es, k))
            && (AllSucceed(es) && KeysOf(z.waiting)[k] == 0 ==>
                  && (z.built[k] >= 2 <==> Overlap(EMPTY, es, k))
                  && (z.built[k] == 1 <==> !Overlap(EMPTY, es, k) && exists a :: a in Callers(es) && Key(a) == k))
  {
    OwnedFromEmpty(es, k);
    AskedFromEmpty(es, k);
    if AllSucceed(es) {
      NothingFailed(EMPTY, es);
    }
  }

  lemma AskedFromEmpty(es: seq<Step>, k: string)
    requires Feasible(EMPTY, es)
    ensures var z := Run(EMPTY, es);
            && ((exists a :: a in Callers(es) && Key(a) == k) <==> z.missed[k] > 0)
            && z.missed[k] == z.built[k] + z.failed[k] + KeysOf(z.waiting)[k]
  {
    RunFromEmpty(es);
    var z := Run(EMPTY, es);
    assert Asked(z, k) <==> z.missed[k] > 0;
  }

  lemma {:induction false} NothingFailed(s: State, es: seq<Step>)
    requires Feasible(s, es) && AllSucceed(es)
    ensures Run(s, es).failed == s.failed
    decreases |es|
  {
    if es != [] {
      assert es[0] in es && forall e | e in es[1..] :: e in es;
      NothingFailed(Next(s, es[0]), es[1..]);
    }
  }

  /** The cache is not looked at again under the write lock: two calls that miss
      together build two managers, and the first one handed out is dropped. */
  lemma TwoMissesBuildTwo(a: Args)
    ensures var s2 := Next(Next(EMPTY, Lookup(a)), Lookup(a));
            && s2.waiting == [a, a]
            && var s3 := Next(s2, Store(0, true));
            && s3.waiting == [a]
            && var s4 := Next(s3, Store(0, true));
            && s4.built[Key(a)] == 2 && |s4.returned| == 2 && Key(a) in s4.cache
            && s4.returned[0].1 != s4.cache[Key(a)]
  {
  }

  // ---------- one call at a time ----------

  /** An uninterrupted call. */
  function Call(s: State, args: Args, ok: bool): State
    requires s.waiting == []
  {
    var s1 := Next(s, Lookup(args));
    if Key(args) in s.cache then s1 else Next(s1, Store(0, ok))
  }

  function Calls(s: State, calls: seq<Args>): (z: State)
    requires s.waiting == []
    ensures z.waiting == []
    decreases |calls|
  {
    if calls == [] then s else Calls(Call(s, calls[0], true), calls[1..])
  }

  lemma CallBuildsOnMiss(s: State, a: Args)
    requires s.waiting == [] && (forall k :: k in s.cache <==> s.built[k] > 0) && forall k :: s.built[k] <= 1
    ensures forall k :: Call(s, a, true).built[k] == if k == Key(a) then 1 else s.built[k]
    ensures forall k :: k in Call(s, a, true).cache <==> k in s.cache || k == Key(a)
    ensures forall k | k in s.cache :: Call(s, a, true).cache[k] == s.cache[k]
  {
  }

  /** Sequential calls that succeed build exactly one manager for each key asked for. */
  lemma {:induction false} SequentialBuildsOnce(s: State, calls: seq<Args>)
    requires s.waiting == [] && (forall k :: k in s.cache <==> s.built[k] > 0) && forall k :: s.built[k] <= 1
    ensures forall k :: Calls(s, calls).built[k] == if k in s.cache || k in KeysOf(calls) then 1 else 0
    ensures forall k | k in s.cache :: k in Calls(s, calls).cache && Calls(s, calls).cache[k] == s.cache[k]
    decreases |calls|
  {
    if calls != [] {
      var a, s1 := calls[0], Call(s, calls[0], true);
      CallBuildsOnMiss(s, a);
      SequentialBuildsOnce(s1, calls[1..]);
    }
  }

  /** The factory object. Each method body up to the final one is one critical
      section; `state` is the history the interleavings are told in. */
  class Factory {
    var rmCache: map<string, Manager>
    var constructed: nat
    ghost var state: State

    ghost predicate Valid()
      reads this
    {
      rmCache == state.cache && constructed == state.serial
    }

    constructor ()
      ensures Valid() && state == EMPTY
    {
      rmCache, constructed, state := map[], 0, EMPTY;
    }

    method LookupLocked(args: Args) returns (rm: Option<Manager>)
      requires Valid()
      modifies this`state
      ensures Valid() && state == Next(old(state), Lookup(args))
      ensures rm == if Key(args) in rmCache then Some(rmCache[Key(args)]) else None
    {
      var rmId := args.accountId + "/" + args.region + "/" + args.roleArn;
      rm := if rmId in rmCache then Some(rmCache[rmId]) else None;
      state := Next(state, Lookup(args));
    }

    method StoreLocked(args: Args, ghost index: nat, ok: bool) returns (rm: Option<Manager>)
      requires Valid() && index < |state.waiting| && state.waiting[index] == args
      modifies this
      ensures Valid() && state == Next(old(state), Store(index, ok))
      ensures rm == if ok then Some(Manager(args.accountId, args.region, old(constructed))) else None
    {
      state := Next(state, Store(index, ok));
      if !ok {
        return None;
      }
      rm := Some(Manager(args.accountId, args.region, constructed));
      constructed := constructed + 1;
      rmCache := rmCache[args.accountId + "/" + args.region + "/" + args.roleArn := rm.value];
    }

    /** A call during which nobody else holds the lock. */
    method ManagerFor(args: Args, ok: bool) returns (rm: Option<Manager>)
      requires Valid() && state.waiting == []
      modifies this
      ensures Valid() && state == Call(old(state), args, ok)
      ensures Key(args) in old(rmCache) ==> rm == Some(old(rmCache)[Key(args)]) && rmCache == old(rmCache)
      ensures Key(args) !in old(rmCache) && !ok ==> rm == None && rmCache == old(rmCache)
      ensures Key(args) !in old(rmCache) && ok ==>
                rm.Some? && For(rm.value, args) && rmCache == old(rmCache)[Key(args) := rm.value]
    {
      rm := LookupLocked(args);
      if rm.Some? {
        return;
      }
      rm := StoreLocked(args, 0, ok);
    }
  }
}
