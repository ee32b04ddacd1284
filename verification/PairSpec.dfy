/**
 The route registry keyed by pairs of namespace and name, which is what the registry keyed by text stands for.
 Over namespaces without a slash the two behave alike, operation by operation.
 */
module PairSpec {
  import opened Base
  import opened ItemMonitor
  import Monitor = SecretSpec
  import Text = ManagerSpec

  type Pair = (string, string)

  type Registry = map<Pair, Registration>

  datatype State = State(monitor: Monitor.State, registered: Registry, handler: Option<Handler>)

  const INIT := State(Monitor.INIT, map[], None)

  predicate Wf(p: State) {
    Monitor.Wf(p.monitor)
  }

  function Register(p: State, ns: string, name: string, secret: string, env: Monitor.Env): (r: (State, Result<()>))
    requires Wf(p)
    ensures Wf(r.0)
  {
    if (ns, name) in p.registered then (p, Err(AlreadyRegistered))
    else match Monitor.Add(p.monitor, ObjectKey(ns, secret), p.handler, env)
      case (s, Err(why)) => (p.(monitor := s), Err(why))
      case (s, Ok(reg)) => (p.(monitor := s, registered := p.registered[(ns, name) := reg]), Ok(()))
  }

  function Unregister(p: State, ns: string, name: string, lenient: bool): (r: (State, Result<()>))
    requires Wf(p)
    ensures Wf(r.0)
  {
    if (ns, name) !in p.registered then (p, Err(NotRegistered))
    else match Monitor.Remove(p.monitor, Some(p.registered[(ns, name)]), lenient)
      case (s, Err(why)) => (p.(monitor := s), Err(why))
      case (s, Ok(_)) => (p.(monitor := s, registered := p.registered - {(ns, name)}), Ok(()))
  }

  function GetSecret(p: State, ns: string, name: string): Result<SecretObject>
    requires Wf(p)
  {
    if (ns, name) !in p.registered then Err(NotRegistered)
    else Monitor.GetSecret(p.monitor, Some(p.registered[(ns, name)]))
  }

  // ---- Runs, with the labels of the registry keyed by text ----

  predicate Enabled(p: State, l: Text.Label) {
    match l
    case RegisterOp(ns, _, secret, env) => Monitor.EnvOk(ObjectKey(ns, secret), env)
    case UnregisterOp(_, _, _) => true
    case SetHandler(_) => true
    case Environment(step) => !step.AddOp? && !step.RemoveOp? && Monitor.Enabled(p.monitor, step)
  }

  function Apply(p: State, l: Text.Label): (p': State)
    requires Wf(p) && Enabled(p, l)
    ensures Wf(p')
  {
    match l
    case RegisterOp(ns, name, secret, env) => Register(p, ns, name, secret, env).0
    case UnregisterOp(ns, name, lenient) => Unregister(p, ns, name, lenient).0
    case SetHandler(h) => p.(handler := Some(h))
    case Environment(step) => p.(monitor := Monitor.Apply(p.monitor, step))
  }

  /** What the operation of a label returns. */
  function Outcome(p: State, l: Text.Label): Option<Result<()>>
    requires Wf(p) && Enabled(p, l)
  {
    match l
    case RegisterOp(ns, name, secret, env) => Some(Register(p, ns, name, secret, env).1)
    case UnregisterOp(ns, name, lenient) => Some(Unregister(p, ns, name, lenient).1)
    case _ => None
  }

  function TextOutcome(m: Text.State, l: Text.Label): Option<Result<()>>
    requires Text.Wf(m) && Text.Enabled(m, l)
  {
    match l
    case RegisterOp(ns, name, secret, env) => Some(Text.Register(m, ns, name, secret, env).1)
    case UnregisterOp(ns, name, lenient) => Some(Text.Unregister(m, ns, name, lenient).1)
    case _ => None
  }

  predicate IsRun(p: State, run: seq<Text.Label>)
    requires Wf(p)
    decreases |run|
  {
    run == [] || (Enabled(p, run[0]) && IsRun(Apply(p, run[0]), run[1..]))
  }

  function After(p: State, run: seq<Text.Label>): (p': State)
    requires Wf(p) && IsRun(p, run)
    ensures Wf(p')
    decreases |run|
  {
    if run == [] then p else After(Apply(p, run[0]), run[1..])
  }

  function Outcomes(p: State, run: seq<Text.Label>): seq<Option<Result<()>>>
    requires Wf(p) && IsRun(p, run)
    decreases |run|
  {
    if run == [] then [] else [Outcome(p, run[0])] + Outcomes(Apply(p, run[0]), run[1..])
  }

  function TextOutcomes(m: Text.State, run: seq<Text.Label>): seq<Option<Result<()>>>
    requires Text.Wf(m) && Text.IsRun(m, run)
    decreases |run|
  {
    if run == [] then [] else [TextOutcome(m, run[0])] + TextOutcomes(Text.Apply(m, run[0]), run[1..])
  }

  // ---- The refinement ----

  predicate SlashFree(l: Text.Label) {
    match l
    case RegisterOp(ns, _, _, _) => '/' !in ns
    case UnregisterOp(ns, _, _) => '/' !in ns
    case _ => true
  }

  function TextOf(x: Pair): string {
    PathKey(x.0, x.1)
  }

  /** A pair is registered under its text, with a secret of its own namespace. */
  predicate PairOk(texts: Text.Registry, pairs: Registry, x: Pair)
    requires x in pairs
  {
    '/' !in x.0 && TextOf(x) in texts && texts[TextOf(x)] == pairs[x] && pairs[x].key.ns == x.0
  }

  ghost predicate HasPair(pairs: Registry, k: string) {
    exists x :: x in pairs && TextOf(x) == k
  }

  /** The registered texts are exactly those of the registered pairs. */
  ghost predicate SameRegistry(texts: Text.Registry, pairs: Registry) {
    && (forall x {:trigger PairOk(texts, pairs, x)} | x in pairs :: PairOk(texts, pairs, x))
    && (forall k {:trigger HasPair(pairs, k)} | k in texts :: HasPair(pairs, k))
  }

  ghost predicate Refines(m: Text.State, p: State) {
    m.monitor == p.monitor && m.handler == p.handler && SameRegistry(m.registered, p.registered)
  }

  lemma TextOfInjective(x: Pair, y: Pair)
    requires '/' !in x.0 && '/' !in y.0 && TextOf(x) == TextOf(y)
    ensures x == y
  {
    PathKeyInjective(x.0, x.1, y.0, y.1);
  }

  /** Looking up the text of a pair finds what looking up the pair finds. */
  lemma SameLookup(texts: Text.Registry, pairs: Registry, x: Pair)
    requires SameRegistry(texts, pairs) && '/' !in x.0
    ensures TextOf(x) in texts <==> x in pairs
    ensures x in pairs ==> texts[TextOf(x)] == pairs[x] && pairs[x].key.ns == x.0
  {
    hide TextOf;
    if x in pairs {
      assert PairOk(texts, pairs, x);
    }
    if TextOf(x) in texts {
      assert HasPair(pairs, TextOf(x));
      var y :| y in pairs && TextOf(y) == TextOf(x);
      assert PairOk(texts, pairs, y);
      TextOfInjective(x, y);
    }
  }

  lemma SameWith(texts: Text.Registry, pairs: Registry, x: Pair, reg: Registration)
    requires SameRegistry(texts, pairs) && '/' !in x.0 && x !in pairs && reg.key.ns == x.0
    ensures SameRegistry(texts[TextOf(x) := reg], pairs[x := reg])
  {
    hide TextOf;
    var ts, ps := texts[TextOf(x) := reg], pairs[x := reg];
    forall y | y in ps ensures PairOk(ts, ps, y) {
      if y != x {
        assert PairOk(texts, pairs, y);
        if TextOf(y) == TextOf(x) {
          TextOfInjective(x, y);
        }
      }
    }
    forall k | k in ts ensures HasPair(ps, k) {
      if k == TextOf(x) {
        assert x in ps;
      } else {
        assert HasPair(pairs, k);
        var y :| y in pairs && TextOf(y) == k;
        assert y in ps;
      }
    }
  }

  lemma SameWithout(texts: Text.Registry, pairs: Registry, x: Pair)
    requires SameRegistry(texts, pairs) && '/' !in x.0 && x in pairs
    ensures SameRegistry(texts - {TextOf(x)}, pairs - {x})
  {
    hide TextOf;
    var ts, ps := texts - {TextOf(x)}, pairs - {x};
    forall y | y in ps ensures PairOk(ts, ps, y) {
      assert PairOk(texts, pairs, y);
      if TextOf(y) == TextOf(x) {
        TextOfInjective(x, y);
      }
    }
    forall k | k in ts ensures HasPair(ps, k) {
      assert HasPair(pairs, k);
      var y :| y in pairs && TextOf(y) == k;
      assert y in ps;
    }
  }

  /** Registering gives one result in both registries, and keeps them alike. */
  lemma RegisterSimulates(m: Text.State, p: State, ns: string, name: string, secret: string, env: Monitor.Env)
    requires Monitor.Inv(m.monitor) && Refines(m, p) && '/' !in ns && Monitor.EnvOk(ObjectKey(ns, secret), env)
    ensures Text.Wf(m) && Wf(p)
    ensures var (m', r) := Text.Register(m, ns, name, secret, env);
            var (p', r') := Register(p, ns, name, secret, env);
            r == r' && Refines(m', p') && (r'.Ok? ==> p'.registered[(ns, name)].key == ObjectKey(ns, secret))
  {
    assert Monitor.Wf(m.monitor);
    hide Monitor.Add, Monitor.Inv, SameRegistry, PathKey;
    SameLookup(m.registered, p.registered, (ns, name));
    if (ns, name) !in p.registered {
      Monitor.AddSucceedsIff(m.monitor, ObjectKey(ns, secret), m.handler, env);
      var r := Monitor.Add(m.monitor, ObjectKey(ns, secret), m.handler, env).1;
      if r.Ok? {
        SameWith(m.registered, p.registered, (ns, name), r.value);
      }
    }
  }

  lemma UnregisterSimulates(m: Text.State, p: State, ns: string, name: string, lenient: bool)
    requires Text.Wf(m) && Refines(m, p) && '/' !in ns
    ensures var (m', r) := Text.Unregister(m, ns, name, lenient);
            var (p', r') := Unregister(p, ns, name, lenient);
            r == r' && Refines(m', p')
  {
    hide Monitor.Remove, SameRegistry, PathKey;
    SameLookup(m.registered, p.registered, (ns, name));
    if (ns, name) in p.registered {
      SameWithout(m.registered, p.registered, (ns, name));
    }
  }

  lemma GetSecretSimulates(m: Text.State, p: State, ns: string, name: string)
    requires Text.Wf(m) && Refines(m, p) && '/' !in ns
    ensures Text.GetSecret(m, ns, name) == GetSecret(p, ns, name)
  {
    hide SameRegistry;
    SameLookup(m.registered, p.registered, (ns, name));
  }

  lemma StepSimulates(m: Text.State, p: State, l: Text.Label)
    requires Text.Inv(m) && Refines(m, p) && Text.Enabled(m, l) && SlashFree(l)
    ensures Enabled(p, l) && TextOutcome(m, l) == Outcome(p, l) && Refines(Text.Apply(m, l), Apply(p, l))
  {
    hide Text.Register, Text.Unregister, Register, Unregister, SameRegistry;
    match l
    case RegisterOp(ns, name, secret, env) => RegisterSimulates(m, p, ns, name, secret, env);
    case UnregisterOp(ns, name, lenient) => UnregisterSimulates(m, p, ns, name, lenient);
    case SetHandler(_) =>
    case Environment(step) =>
  }

  /** In every run over namespaces without a slash, the registry keyed by text returns and holds what the one keyed by pairs does. */
  lemma {:induction false} RunSimulates(m: Text.State, p: State, run: seq<Text.Label>)
    requires Text.Inv(m) && Refines(m, p) && Text.IsRun(m, run) && forall l | l in run :: SlashFree(l)
    ensures Wf(p) && IsRun(p, run)
    ensures TextOutcomes(m, run) == Outcomes(p, run) && Refines(Text.After(m, run), After(p, run))
    decreases |run|
  {
    hide Text.Apply, Apply, SameRegistry, Outcome, TextOutcome;
    if run != [] {
      assert run[0] in run;
      StepSimulates(m, p, run[0]);
      Text.InvStep(m, run[0]);
      RunSimulates(Text.Apply(m, run[0]), Apply(p, run[0]), run[1..]);
    }
  }

  lemma StartsAlike()
    ensures Text.Inv(Text.INIT) && Refines(Text.INIT, INIT)
  {
  }

  /**
   In every run over namespaces without a slash, cancelled or not: reading a route answers with an object exactly
   if this pair is registered, and the object is cached in its own namespace under the secret it is registered with.
   */
  lemma ReadsOwnSecret(run: seq<Text.Label>, ns: string, name: string, o: SecretObject)
    requires Text.IsRun(Text.INIT, run) && '/' !in ns && forall l | l in run :: SlashFree(l)
    ensures IsRun(INIT, run)
    ensures var m := Text.After(Text.INIT, run); var p := After(INIT, run);
            && Refines(m, p) && Text.GetSecret(m, ns, name) == GetSecret(p, ns, name)
            && ((ns, name) in p.registered ==> p.registered[(ns, name)].key in m.monitor.monitors)
            && (Text.GetSecret(m, ns, name) == Ok(o) <==>
                 (ns, name) in p.registered && ns != "" && o.ns == ns && o.name == p.registered[(ns, name)].key.name
                 && o in Monitor.ItemOf(m.monitor, p.registered[(ns, name)].key).informer.store.Values)
  {
    hide SameRegistry, Text.OwnHandles, Text.NoOtherHandles, Monitor.Faithful, Monitor.Inv;
    StartsAlike();
    RunSimulates(Text.INIT, INIT, run);
    Text.InvRun(Text.INIT, run);
    Reads(Text.After(Text.INIT, run), After(INIT, run), ns, name, o);
  }

  lemma Reads(m: Text.State, p: State, ns: string, name: string, o: SecretObject)
    requires Text.Inv(m) && Refines(m, p) && '/' !in ns
    ensures Text.Wf(m) && Text.GetSecret(m, ns, name) == GetSecret(p, ns, name)
    ensures (ns, name) in p.registered ==> p.registered[(ns, name)].key in m.monitor.monitors
    ensures Text.GetSecret(m, ns, name) == Ok(o) <==>
            (ns, name) in p.registered && ns != "" && o.ns == ns && o.name == p.registered[(ns, name)].key.name
            && o in Monitor.ItemOf(m.monitor, p.registered[(ns, name)].key).informer.store.Values
  {
    SameLookup(m.registered, p.registered, (ns, name));
    GetSecretSimulates(m, p, ns, name);
    if (ns, name) in p.registered {
      Text.CacheAgreement(m, ns, name);
    }
  }

  /** Routes of one namespace that are registered with one secret read one answer, in every such run. */
  lemma SharedSecretSharedAnswer(run: seq<Text.Label>, ns: string, name1: string, name2: string)
    requires Text.IsRun(Text.INIT, run) && IsRun(INIT, run) && '/' !in ns && forall l | l in run :: SlashFree(l)
    requires var reg := After(INIT, run).registered;
             (ns, name1) in reg && (ns, name2) in reg && reg[(ns, name1)].key.name == reg[(ns, name2)].key.name
    ensures var m := Text.After(Text.INIT, run); Text.GetSecret(m, ns, name1) == Text.GetSecret(m, ns, name2)
  {
    hide SameRegistry, PathKey, Monitor.GetSecret;
    StartsAlike();
    RunSimulates(Text.INIT, INIT, run);
    var m, p := Text.After(Text.INIT, run), After(INIT, run);
    GetSecretSimulates(m, p, ns, name1);
    GetSecretSimulates(m, p, ns, name2);
    SameLookup(m.registered, p.registered, (ns, name1));
    SameLookup(m.registered, p.registered, (ns, name2));
    assert p.registered[(ns, name1)].key == p.registered[(ns, name2)].key;
    SameKeySameAnswer(p.monitor, p.registered[(ns, name1)], p.registered[(ns, name2)]);
  }

  lemma SameKeySameAnswer(s: Monitor.State, a: Registration, b: Registration)
    requires Monitor.Wf(s) && a.key == b.key
    ensures Monitor.GetSecret(s, Some(a)) == Monitor.GetSecret(s, Some(b))
  {
  }

  // ---- With slashes ----

  /** What is registered under the text of a pair is registered with a secret of that pair's namespace. */
  predicate Own(m: Text.State, ns: string, name: string) {
    PathKey(ns, name) in m.registered ==> m.registered[PathKey(ns, name)].key.ns == ns
  }

  /** Every registered text begins with the namespace that it is registered with. */
  ghost predicate Rooted(registered: Text.Registry) {
    forall k {:trigger RootedAt(registered, k)} | k in registered :: RootedAt(registered, k)
  }

  ghost predicate RootedAt(registered: Text.Registry, k: string)
    requires k in registered
  {
    exists name :: PathKey(registered[k].key.ns, name) == k
  }

  lemma RootedStep(m: Text.State, l: Text.Label)
    requires Text.Inv(m) && Rooted(m.registered) && Text.Enabled(m, l)
    ensures Rooted(Text.Apply(m, l).registered)
  {
    hide PathKey, Monitor.Add, Monitor.Remove, Monitor.Faithful, Text.OwnHandles, Text.NoOtherHandles;
    if l.RegisterOp? {
      Monitor.AddSucceedsIff(m.monitor, ObjectKey(l.ns, l.secret), m.handler, l.env);
    }
    var m' := Text.Apply(m, l);
    forall k | k in m'.registered ensures RootedAt(m'.registered, k) {
      if k in m.registered {
        assert RootedAt(m.registered, k);
      }
    }
  }

  lemma {:induction false} RootedRun(m: Text.State, run: seq<Text.Label>)
    requires Text.Inv(m) && Rooted(m.registered) && Text.IsRun(m, run)
    ensures Rooted(Text.After(m, run).registered)
    decreases |run|
  {
    hide Text.Apply;
    if run != [] {
      RootedStep(m, run[0]);
      Text.InvStep(m, run[0]);
      RootedRun(Text.Apply(m, run[0]), run[1..]);
    }
  }

  /**
   With slashes anywhere, what a pair reads is always of its own namespace exactly if neither its namespace nor
   its name has a slash; any other pair can be read under a registration of another one.
   */
  lemma ReadsOwnNamespaceIff(ns: string, name: string)
    ensures (forall run | Text.IsRun(Text.INIT, run) :: Own(Text.After(Text.INIT, run), ns, name))
            <==> '/' !in ns && '/' !in name
  {
    if '/' !in ns && '/' !in name {
      forall run | Text.IsRun(Text.INIT, run) ensures Own(Text.After(Text.INIT, run), ns, name) {
        StartsAlike();
        RootedRun(Text.INIT, run);
        RootedIsOwn(Text.After(Text.INIT, run), ns, name);
      }
    } else {
      var a, b := OtherPair(ns, name);
      var run := RegisteredRun(a, b);
      assert !Own(Text.After(Text.INIT, run), ns, name);
    }
  }

  lemma RootedIsOwn(m: Text.State, ns: string, name: string)
    requires Rooted(m.registered) && '/' !in ns && '/' !in name
    ensures Own(m, ns, name)
  {
    var k := PathKey(ns, name);
    if k in m.registered {
      assert RootedAt(m.registered, k);
      var other := m.registered[k].key.ns;
      var rest :| PathKey(other, rest) == k;
      PathKeyCollisions(ns, name, other, rest);
      OverlapHasSeparator('/', ns, name, other, rest);
      OverlapHasSeparator('/', other, rest, ns, name);
    }
  }

  /** A pair with a slash shares its text with a pair of another namespace. */
  lemma OtherPair(ns: string, name: string) returns (a: string, b: string)
    requires '/' in ns || '/' in name
    ensures a != ns && PathKey(a, b) == PathKey(ns, name)
  {
    var text := PathKey(ns, name);
    assert text[|ns|] == '/' && text[..|ns|] == ns && text[|ns| + 1..] == name;
    var i: nat;
    if '/' in ns {
      i :| 0 <= i < |ns| && ns[i] == '/';
      assert text[i] == '/';
    } else {
      var j :| 0 <= j < |name| && name[j] == '/';
      i := |ns| + 1 + j;
      assert text[i] == '/';
    }
    a, b := text[..i], text[i + 1..];
    assert a + "/" + b == text;
  }

  lemma RegisteredRun(a: string, b: string) returns (run: seq<Text.Label>)
    ensures Text.IsRun(Text.INIT, run)
    ensures var m := Text.After(Text.INIT, run); PathKey(a, b) in m.registered && m.registered[PathKey(a, b)].key.ns == a
  {
    hide PathKey;
    var env := Monitor.Env(false, false, map[]);
    var l1 := Text.SetHandler(Handler(Route(a, b, "", 0)));
    var l2 := Text.RegisterOp(a, b, "", env);
    var m1 := Text.Apply(Text.INIT, l1);
    Text.RunCons(m1, l2, []);
    Text.RunCons(Text.INIT, l1, [l2]);
    assert [l2] + [] == [l2] && [l1] + [l2] == [l1, l2];
    run := [l1, l2];
  }
}
