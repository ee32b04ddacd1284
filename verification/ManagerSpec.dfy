/** The route registry on top of the secret monitor: one registration for each route. */
module ManagerSpec {
  import opened Base
  import opened ItemMonitor
  import Spec = SecretSpec

  datatype State = State(monitor: Spec.State, registered: map<string, Registration>, handler: Option<Handler>)

  const INIT := State(Spec.INIT, map[], None)

  predicate Wf(m: State) {
    Spec.Wf(m.monitor)
  }

  function Register(m: State, ns: string, name: string, secret: string, env: Spec.Env): (r: (State, Result<()>))
    requires Wf(m)
    ensures Wf(r.0)
  {
    var k := PathKey(ns, name);
    if k in m.registered then (m, Err(AlreadyRegistered))
    else match Spec.Add(m.monitor, ObjectKey(ns, secret), m.handler, env)
      case (s, Err(why)) => (m.(monitor := s), Err(why))
      case (s, Ok(reg)) => (m.(monitor := s, registered := m.registered[k := reg]), Ok(()))
  }

  function Unregister(m: State, ns: string, name: string, lenient: bool): (r: (State, Result<()>))
    requires Wf(m)
    ensures Wf(r.0)
  {
    var k := PathKey(ns, name);
    if k !in m.registered then (m, Err(NotRegistered))
    else match Spec.Remove(m.monitor, Some(m.registered[k]), lenient)
      case (s, Err(why)) => (m.(monitor := s), Err(why))
      case (s, Ok(_)) => (m.(monitor := s, registered := m.registered - {k}), Ok(()))
  }

  function GetSecret(m: State, ns: string, name: string): Result<SecretObject>
    requires Wf(m)
  {
    var k := PathKey(ns, name);
    if k !in m.registered then Err(NotRegistered) else Spec.GetSecret(m.monitor, Some(m.registered[k]))
  }

  // ---- Runs ----

  datatype Label =
    | RegisterOp(ns: string, name: string, secret: string, env: Spec.Env)
    | UnregisterOp(ns: string, name: string, lenient: bool)
    | SetHandler(handler: Handler)
    | Environment(step: Spec.Label)  // a cancellation, or an informer's own step

  predicate Enabled(m: State, l: Label) {
    match l
    case RegisterOp(ns, _, secret, env) => Spec.EnvOk(ObjectKey(ns, secret), env)
    case UnregisterOp(_, _, _) => true
    case SetHandler(_) => true
    case Environment(step) => !step.AddOp? && !step.RemoveOp? && Spec.Enabled(m.monitor, step)
  }

  function Apply(m: State, l: Label): (m': State)
    requires Wf(m) && Enabled(m, l)
    ensures Wf(m')
  {
    match l
    case RegisterOp(ns, name, secret, env) => Register(m, ns, name, secret, env).0
    case UnregisterOp(ns, name, lenient) => Unregister(m, ns, name, lenient).0
    case SetHandler(h) => m.(handler := Some(h))
    case Environment(step) => m.(monitor := Spec.Apply(m.monitor, step))
  }

  predicate IsRun(m: State, run: seq<Label>)
    requires Wf(m)
    decreases |run|
  {
    run == [] || (Enabled(m, run[0]) && IsRun(Apply(m, run[0]), run[1..]))
  }

  function After(m: State, run: seq<Label>): (m': State)
    requires Wf(m) && IsRun(m, run)
    ensures Wf(m')
    decreases |run|
  {
    if run == [] then m else After(Apply(m, run[0]), run[1..])
  }

  lemma RunCons(m: State, l: Label, rest: seq<Label>)
    requires Wf(m) && Enabled(m, l) && IsRun(Apply(m, l), rest)
    ensures IsRun(m, [l] + rest) && After(m, [l] + rest) == After(Apply(m, l), rest)
  {
    assert ([l] + rest)[1..] == rest;
  }

  // ---- The invariant across the two layers ----

  type Registry = map<string, Registration>

  /** The routes that are registered with a secret. */
  function Watchers(registered: Registry, key: ObjectKey): set<string> {
    set k | k in registered && registered[k].key == key
  }

  function IdOf(registered: Registry, k: string): nat
    requires k in registered
  {
    registered[k].id
  }

  ghost predicate DistinctIds(registered: Registry) {
    forall k1, k2 {:trigger IdOf(registered, k1), IdOf(registered, k2)} |
      k1 in registered && k2 in registered && IdOf(registered, k1) == IdOf(registered, k2) :: k1 == k2
  }

  /** Each registered route has a live handle of its own. */
  ghost predicate OwnHandles(s: Spec.State, registered: Registry)
    requires Spec.Wf(s)
  {
    && (forall k | k in registered :: registered[k].id < s.next && Spec.Live(s, registered[k]))
    && DistinctIds(registered)
  }

  /** There are no other handles: a monitor has as many as there are routes registered with its secret. */
  ghost predicate NoOtherHandles(s: Spec.State, registered: Registry)
    requires Spec.Wf(s)
  {
    forall key | key in s.monitors :: |Spec.Handlers(s, key)| == |Watchers(registered, key)|
  }

  ghost predicate Inv(m: State) {
    && Spec.Inv(m.monitor) && Spec.Faithful(m.monitor)
    && OwnHandles(m.monitor, m.registered) && NoOtherHandles(m.monitor, m.registered)
  }

  /** No monitor in the map has been cancelled. */
  ghost predicate AllRunning(m: State)
    requires Wf(m)
  {
    forall key | key in m.monitor.monitors :: !Spec.ItemOf(m.monitor, key).stopped
  }

  lemma SameId(registered: Registry, k1: string, k2: string)
    requires DistinctIds(registered) && k1 in registered && k2 in registered && registered[k1].id == registered[k2].id
    ensures k1 == k2
  {
    assert IdOf(registered, k1) == IdOf(registered, k2);
  }

  lemma WatchersWith(registered: Registry, k: string, reg: Registration, key: ObjectKey)
    requires k !in registered
    ensures Watchers(registered[k := reg], key) == Watchers(registered, key) + if key == reg.key then {k} else {}
  {
  }

  lemma WatchersWithout(registered: Registry, k: string, key: ObjectKey)
    requires k in registered
    ensures Watchers(registered - {k}, key) == Watchers(registered, key) - if key == registered[k].key then {k} else {}
  {
  }

  /** A key that is not in the map has no routes. */
  lemma NoWatchers(s: Spec.State, registered: Registry, key: ObjectKey)
    requires Spec.Wf(s) && OwnHandles(s, registered) && key !in s.monitors
    ensures Watchers(registered, key) == {}
  {
  }

  lemma OnlyElement<T>(s: set<T>, a: T, b: T)
    requires |s| == 1 && a in s && b in s
    ensures a == b
  {
    assert s == {a} by {
      assert |s - {a}| == 0;
    }
  }

  /** The registry after an add, also after one that failed but created a monitor. */
  lemma AddedHandles(s: Spec.State, registered: Registry, k: string, key: ObjectKey, handler: Option<Handler>, env: Spec.Env,
                     s': Spec.State, r: Result<Registration>)
    requires Spec.Wf(s) && OwnHandles(s, registered) && NoOtherHandles(s, registered) && k !in registered
    requires Spec.AddEffect(s, key, handler, env, s', r)
    requires key in s.monitors ==> s.next !in Spec.Handlers(s, key)
    ensures var after := if r.Ok? then registered[k := r.value] else registered;
            OwnHandles(s', after) && NoOtherHandles(s', after)
  {
    var after := if r.Ok? then registered[k := r.value] else registered;
    forall j | j in s'.monitors ensures |Spec.Handlers(s', j)| == |Watchers(after, j)| {
      if r.Ok? {
        WatchersWith(registered, k, r.value, j);
      }
      if j !in s.monitors {
        NoWatchers(s, registered, j);
      }
    }
    OneMoreHandle(s, registered, k, key, handler, env, s', r);
  }

  lemma OneMoreHandle(s: Spec.State, registered: Registry, k: string, key: ObjectKey, handler: Option<Handler>, env: Spec.Env,
                      s': Spec.State, r: Result<Registration>)
    requires Spec.Wf(s) && OwnHandles(s, registered) && k !in registered
    requires Spec.AddEffect(s, key, handler, env, s', r)
    ensures OwnHandles(s', if r.Ok? then registered[k := r.value] else registered)
  {
    if r.Ok? {
      StillDistinct(registered, k, r.value);
      hide DistinctIds;
    }
  }

  lemma StillDistinct(registered: Registry, k: string, reg: Registration)
    requires DistinctIds(registered) && k !in registered && forall j | j in registered :: registered[j].id < reg.id
    ensures DistinctIds(registered[k := reg])
  {
    var after := registered[k := reg];
    forall k1, k2 | k1 in after && k2 in after && IdOf(after, k1) == IdOf(after, k2) ensures k1 == k2 {
      if k1 != k && k2 != k {
        SameId(registered, k1, k2);
      }
    }
  }

  lemma RegisterInv(m: State, ns: string, name: string, secret: string, env: Spec.Env)
    requires Inv(m) && Spec.EnvOk(ObjectKey(ns, secret), env)
    ensures Inv(Register(m, ns, name, secret, env).0)
  {
    hide PathKey;
    var k, key := PathKey(ns, name), ObjectKey(ns, secret);
    if k !in m.registered {
      var (s, r) := Spec.Add(m.monitor, key, m.handler, env);
      Spec.AddInv(m.monitor, key, m.handler, env);
      Spec.AddFaithful(m.monitor, key, m.handler, env);
      Spec.AddSucceedsIff(m.monitor, key, m.handler, env);
      assert key in m.monitor.monitors ==> m.monitor.next !in m.monitor.items[m.monitor.monitors[key].item].informer.handlers;
      AddedHandles(m.monitor, m.registered, k, key, m.handler, env, s, r);
    }
  }

  /** The registry after a removal: the key loses one handle and one route, or leaves the map with its last one. */
  lemma RemovedHandles(s: Spec.State, registered: Registry, k: string, lenient: bool, s': Spec.State)
    requires Spec.Wf(s) && OwnHandles(s, registered) && NoOtherHandles(s, registered) && k in registered
    requires s.monitors[registered[k].key].count == |Spec.Handlers(s, registered[k].key)|
    requires Spec.RemoveEffect(s, Some(registered[k]), lenient, s', Ok(()))
    ensures OwnHandles(s', registered - {k}) && NoOtherHandles(s', registered - {k})
  {
    var after := registered - {k};
    forall j | j in s'.monitors ensures |Spec.Handlers(s', j)| == |Watchers(after, j)| {
      WatchersWithout(registered, k, j);
    }
    forall i | i in after ensures Spec.Live(s', after[i]) {
      OtherStaysLive(s, registered, k, i, lenient, s');
    }
    forall k1, k2 | k1 in after && k2 in after && IdOf(after, k1) == IdOf(after, k2) ensures k1 == k2 {
      SameId(registered, k1, k2);
    }
  }

  /** Removing one route's handle leaves the handle of another route, with the same handler. */
  lemma OtherStaysLive(s: Spec.State, registered: Registry, k: string, i: string, lenient: bool, s': Spec.State)
    requires Spec.Wf(s) && OwnHandles(s, registered) && NoOtherHandles(s, registered)
    requires k in registered && i in registered && i != k
    requires s.monitors[registered[k].key].count == |Spec.Handlers(s, registered[k].key)|
    requires Spec.RemoveEffect(s, Some(registered[k]), lenient, s', Ok(()))
    ensures Spec.Live(s', registered[i])
    ensures Spec.Handlers(s', registered[i].key)[registered[i].id] == Spec.Handlers(s, registered[i].key)[registered[i].id]
  {
    var a, b := registered[i], registered[k];
    if a.id == b.id {
      SameId(registered, i, k);
    }
    if a.key == b.key && s.monitors[b.key].count == 1 {
      OnlyElement(Watchers(registered, b.key), i, k);
    }
  }

  lemma UnregisterInv(m: State, ns: string, name: string, lenient: bool)
    requires Inv(m)
    ensures Inv(Unregister(m, ns, name, lenient).0)
  {
    hide PathKey;
    var k := PathKey(ns, name);
    if k in m.registered {
      var reg := m.registered[k];
      assert Spec.Live(m.monitor, reg);
      Spec.RemoveInv(m.monitor, Some(reg), lenient);
      Spec.RemoveKeepsCountsIff(m.monitor, Some(reg), lenient);
      Spec.RemoveSucceedsIff(m.monitor, Some(reg), lenient);
      var (s, r) := Spec.Remove(m.monitor, Some(reg), lenient);
      if r.Ok? {
        RemovedHandles(m.monitor, m.registered, k, lenient, s);
      }
    }
  }

  /**
   Registering a new route is one add of the shared handler for its secret: its handle becomes the registration, and its
   failure is returned and leaves the registry alone. A registered route is refused.
   */
  lemma RegisterEffect(m: State, ns: string, name: string, secret: string, env: Spec.Env) returns (added: Result<Registration>)
    requires Inv(m) && Spec.EnvOk(ObjectKey(ns, secret), env)
    ensures var (m', r) := Register(m, ns, name, secret, env); var k := PathKey(ns, name);
            if k in m.registered then m' == m && r == Err(AlreadyRegistered)
            else
              && Spec.AddEffect(m.monitor, ObjectKey(ns, secret), m.handler, env, m'.monitor, added) && m'.handler == m.handler
              && match added
                 case Ok(reg) => r == Ok(()) && m'.registered == m.registered[k := reg]
                 case Err(why) => r == Err(why) && m'.registered == m.registered
  {
    hide PathKey, Spec.Add, Spec.AddEffect;
    added := Spec.Add(m.monitor, ObjectKey(ns, secret), m.handler, env).1;
    Spec.AddSucceedsIff(m.monitor, ObjectKey(ns, secret), m.handler, env);
  }

  /** Unregistering a route is one removal of its handle; when that fails, the route stays registered. */
  lemma UnregisterEffect(m: State, ns: string, name: string, lenient: bool) returns (removed: Result<()>)
    requires Inv(m)
    ensures var (m', r) := Unregister(m, ns, name, lenient); var k := PathKey(ns, name);
            if k !in m.registered then m' == m && r == Err(NotRegistered)
            else
              && Spec.RemoveEffect(m.monitor, Some(m.registered[k]), lenient, m'.monitor, removed)
              && m'.handler == m.handler
              && match removed
                 case Ok(_) => r == Ok(()) && m'.registered == m.registered - {k}
                 case Err(why) => r == Err(why) && m'.registered == m.registered
  {
    hide PathKey, Spec.Remove, Spec.RemoveEffect;
    var k := PathKey(ns, name);
    if k in m.registered {
      removed := Spec.Remove(m.monitor, Some(m.registered[k]), lenient).1;
      Spec.RemoveSucceedsIff(m.monitor, Some(m.registered[k]), lenient);
    } else {
      removed := Err(NotRegistered);
    }
  }

  lemma EnvironmentInv(m: State, step: Spec.Label)
    requires Inv(m) && Enabled(m, Environment(step))
    ensures Inv(Apply(m, Environment(step)))
  {
    hide PathKey, Spec.Faithful, Spec.Apply, Spec.Enabled, OwnHandles, NoOtherHandles;
    Spec.InvStep(m.monitor, step);
    Spec.FaithfulStep(m.monitor, step);
    EnvironmentHandles(m, step);
  }

  lemma EnvironmentHandles(m: State, step: Spec.Label)
    requires Wf(m) && OwnHandles(m.monitor, m.registered) && NoOtherHandles(m.monitor, m.registered)
    requires Enabled(m, Environment(step))
    ensures var s' := Spec.Apply(m.monitor, step); OwnHandles(s', m.registered) && NoOtherHandles(s', m.registered)
  {
    hide Spec.Apply, Spec.Enabled, DistinctIds;
    Spec.EnvironmentEffect(m.monitor, step);
  }

  lemma InvStep(m: State, l: Label)
    requires Inv(m) && Enabled(m, l)
    ensures Inv(Apply(m, l))
  {
    hide PathKey;
    match l
    case RegisterOp(ns, name, secret, env) => RegisterInv(m, ns, name, secret, env);
    case UnregisterOp(ns, name, lenient) => UnregisterInv(m, ns, name, lenient);
    case SetHandler(h) =>
    case Environment(step) => EnvironmentInv(m, step);
  }

  lemma {:induction false} InvRun(m: State, run: seq<Label>)
    requires Inv(m) && IsRun(m, run)
    ensures Inv(After(m, run))
    decreases |run|
  {
    if run != [] {
      InvStep(m, run[0]);
      InvRun(Apply(m, run[0]), run[1..]);
    }
  }

  // ---- Conservation between the layers ----

  /** Also after cancellations: a monitor's count is the number of routes registered with its secret. */
  lemma CountsAreRoutes(m: State, key: ObjectKey)
    requires Inv(m) && key in m.monitor.monitors
    ensures m.monitor.monitors[key].count == |Watchers(m.registered, key)|
    ensures Spec.Handlers(m.monitor, key).Keys == set k | k in Watchers(m.registered, key) :: m.registered[k].id
  {
    var routes := Watchers(m.registered, key);
    var ids := map k | k in routes :: m.registered[k].id;
    var image := set k | k in routes :: m.registered[k].id;
    assert image == set k | k in routes :: ids[k] by {
      forall k | k in routes ensures ids[k] == m.registered[k].id {}
    }
    forall a, b | a in routes && b in routes && ids[a] == ids[b] ensures a == b {
      SameId(m.registered, a, b);
    }
    InjectiveImageSize(routes, ids, image);
    var hs := Spec.Handlers(m.monitor, key);
    assert image <= hs.Keys by {
      forall k | k in routes ensures m.registered[k].id in hs {
        assert Spec.Live(m.monitor, m.registered[k]);
      }
    }
    SameSize(image, hs.Keys);
  }

  lemma SameSize<T>(a: set<T>, b: set<T>)
    requires a <= b && |a| == |b|
    ensures a == b
  {
    assert |b - a| == 0;
  }

  /** With nothing cancelled, a secret is monitored exactly when a route is registered with it. */
  lemma MonitoredIffRegistered(m: State, key: ObjectKey)
    requires Inv(m) && AllRunning(m)
    ensures key in m.monitor.monitors <==> Watchers(m.registered, key) != {}
  {
    if key in m.monitor.monitors {
      CountsAreRoutes(m, key);
      assert m.monitor.monitors[key].count >= 1;
    }
  }

  predicate Uncancelled(l: Label) {
    match l
    case RegisterOp(_, _, _, env) => !env.cancelled
    case Environment(step) => !step.Cancelled?
    case _ => true
  }

  lemma RunningStep(m: State, l: Label)
    requires Inv(m) && AllRunning(m) && Enabled(m, l) && Uncancelled(l)
    ensures AllRunning(Apply(m, l))
  {
    hide PathKey;
    match l
    case RegisterOp(ns, name, secret, env) => RegisterRunning(m, ns, name, secret, env);
    case UnregisterOp(ns, name, lenient) => UnregisterRunning(m, ns, name, lenient);
    case SetHandler(_) =>
    case Environment(step) => Spec.EnvironmentEffect(m.monitor, step);
  }

  /** With nothing cancelled, registering fails exactly for a route that is registered, or before a handler is set. */
  lemma RegisterRunning(m: State, ns: string, name: string, secret: string, env: Spec.Env)
    requires Inv(m) && AllRunning(m) && Spec.EnvOk(ObjectKey(ns, secret), env) && !env.cancelled
    ensures var (m', r) := Register(m, ns, name, secret, env); var k := PathKey(ns, name);
            && AllRunning(m')
            && (r.Ok? <==> k !in m.registered && m.handler.Some?)
            && (r.Err? ==> m' == m)
            && (r.Ok? ==> m'.registered == m.registered[k := Registration(m.monitor.next, ObjectKey(ns, secret))])
  {
    hide PathKey, Spec.Faithful, Spec.Add, OwnHandles, NoOtherHandles;
    AddKeepsRunning(m.monitor, ObjectKey(ns, secret), m.handler, env);
  }

  lemma AddKeepsRunning(s: Spec.State, key: ObjectKey, handler: Option<Handler>, env: Spec.Env)
    requires Spec.Inv(s) && Spec.EnvOk(key, env) && !env.cancelled
    requires forall k | k in s.monitors :: !Spec.ItemOf(s, k).stopped
    ensures var (s', r) := Spec.Add(s, key, handler, env);
            && (r.Ok? <==> handler.Some?)
            && (r.Err? ==> s' == s)
            && (r.Ok? ==> r.value == Registration(s.next, key))
            && forall k | k in s'.monitors :: !Spec.ItemOf(s', k).stopped
  {
    hide Spec.Add;
    Spec.AddSucceedsIff(s, key, handler, env);
  }

  /** With nothing cancelled, unregistering fails exactly for a route that is not registered. */
  lemma UnregisterRunning(m: State, ns: string, name: string, lenient: bool)
    requires Inv(m) && AllRunning(m)
    ensures var (m', r) := Unregister(m, ns, name, lenient); var k := PathKey(ns, name);
            && AllRunning(m')
            && (r.Ok? <==> k in m.registered)
            && m'.registered == m.registered - {k}
  {
    hide PathKey;
    if PathKey(ns, name) in m.registered {
      hide Spec.Remove;
      assert Spec.Live(m.monitor, m.registered[PathKey(ns, name)]);
      RemoveKeepsRunning(m.monitor, m.registered[PathKey(ns, name)], lenient);
    }
  }

  lemma RemoveKeepsRunning(s: Spec.State, reg: Registration, lenient: bool)
    requires Spec.Inv(s) && Spec.Live(s, reg) && forall key | key in s.monitors :: !Spec.ItemOf(s, key).stopped
    ensures var (s', r) := Spec.Remove(s, Some(reg), lenient);
            r.Ok? && forall key | key in s'.monitors :: !Spec.ItemOf(s', key).stopped
  {
    hide Spec.Remove;
    Spec.RemoveSucceedsIff(s, Some(reg), lenient);
    assert reg.key in s.monitors && !Spec.ItemOf(s, reg.key).stopped;
  }

  lemma {:induction false} RunningRun(m: State, run: seq<Label>)
    requires Inv(m) && AllRunning(m) && IsRun(m, run) && forall l | l in run :: Uncancelled(l)
    ensures Inv(After(m, run)) && AllRunning(After(m, run))
    decreases |run|
  {
    if run != [] {
      assert Uncancelled(run[0]);
      InvStep(m, run[0]);
      RunningStep(m, run[0]);
      RunningRun(Apply(m, run[0]), run[1..]);
    }
  }

  /**
   In every run without a cancellation: a secret is monitored iff a route is registered with it, its count is
   the number of those routes, and without routes every informer ever created has been stopped, once.
   */
  lemma Conservation(run: seq<Label>)
    requires IsRun(INIT, run) && forall l | l in run :: Uncancelled(l)
    ensures var m := After(INIT, run);
            && (forall key :: key in m.monitor.monitors <==> Watchers(m.registered, key) != {})
            && (forall key | key in m.monitor.monitors :: m.monitor.monitors[key].count == |Watchers(m.registered, key)|)
            && (m.registered == map[] ==>
              && m.monitor.monitors == map[]
              && forall i | 0 <= i < |m.monitor.items| :: m.monitor.items[i].stopped && m.monitor.items[i].closes == 1)
  {
    hide PathKey;
    RunningRun(INIT, run);
    var m := After(INIT, run);
    forall key ensures key in m.monitor.monitors <==> Watchers(m.registered, key) != {} {
      MonitoredIffRegistered(m, key);
    }
    forall key | key in m.monitor.monitors ensures m.monitor.monitors[key].count == |Watchers(m.registered, key)| {
      CountsAreRoutes(m, key);
    }
    if m.registered == map[] {
      EmptyRegistry(m);
    }
  }

  lemma EmptyRegistry(m: State)
    requires Inv(m) && AllRunning(m) && m.registered == map[]
    ensures m.monitor.monitors == map[]
    ensures forall i | 0 <= i < |m.monitor.items| :: m.monitor.items[i].stopped && m.monitor.items[i].closes == 1
  {
    forall key ensures key !in m.monitor.monitors {
      MonitoredIffRegistered(m, key);
      assert Watchers(m.registered, key) == {};
    }
    forall i | 0 <= i < |m.monitor.items| ensures m.monitor.items[i].stopped && m.monitor.items[i].closes == 1 {
      assert !Spec.Mapped(m.monitor, i) && ItemOk(m.monitor.items[i]);
    }
  }

  // ---- Unregistering everything ----

  /** One removal; `lenient` says whether the informer would ignore a handle that it does not know. */
  datatype Removal = Removal(ns: string, name: string, lenient: bool) {
    function Key(): string {
      PathKey(ns, name)
    }
  }

  function KeysOf(routes: seq<Removal>): set<string> {
    set i | 0 <= i < |routes| :: routes[i].Key()
  }

  /** Unregisters the routes one after another; also says whether all of them succeeded. */
  function UnregisterAll(m: State, routes: seq<Removal>): (r: (State, bool))
    requires Wf(m)
    ensures Wf(r.0)
    decreases |routes|
  {
    if routes == [] then (m, true)
    else
      var (m1, r) := Unregister(m, routes[0].ns, routes[0].name, routes[0].lenient);
      var (m2, ok) := UnregisterAll(m1, routes[1..]);
      (m2, r.Ok? && ok)
  }

  /** In any order, and even if informers ignore unknown handles: the map empties and every channel is closed. */
  lemma {:induction false} UnregisterAllEmpties(m: State, routes: seq<Removal>)
    requires Inv(m) && AllRunning(m)
    requires KeysOf(routes) == m.registered.Keys
    requires forall i, j | 0 <= i < j < |routes| :: routes[i].Key() != routes[j].Key()
    ensures var (m', ok) := UnregisterAll(m, routes);
            && ok && m'.registered == map[] && m'.monitor.monitors == map[]
            && forall i | 0 <= i < |m'.monitor.items| :: m'.monitor.items[i].closes == 1
    decreases |routes|
  {
    hide PathKey, Unregister, Spec.Faithful, OwnHandles, NoOtherHandles;
    if routes == [] {
      EmptyRegistry(m);
    } else {
      KeysOfRest(routes);
      UnregisterInv(m, routes[0].ns, routes[0].name, routes[0].lenient);
      UnregisterRunning(m, routes[0].ns, routes[0].name, routes[0].lenient);
      UnregisterAllEmpties(Unregister(m, routes[0].ns, routes[0].name, routes[0].lenient).0, routes[1..]);
    }
  }

  lemma KeysOfRest(routes: seq<Removal>)
    requires routes != []
    requires forall i, j | 0 <= i < j < |routes| :: routes[i].Key() != routes[j].Key()
    ensures routes[0].Key() in KeysOf(routes)
    ensures KeysOf(routes[1..]) == KeysOf(routes) - {routes[0].Key()}
  {
    hide PathKey;
    var k, rest := routes[0].Key(), routes[1..];
    forall x | x in KeysOf(routes) - {k} ensures x in KeysOf(rest) {
      var i :| 0 <= i < |routes| && x == routes[i].Key();
      assert rest[i - 1] == routes[i];
    }
  }

  // ---- A route whose monitor was cancelled ----

  /** It can never be unregistered, nor registered again: both fail in every later state, which keeps its registration. */
  lemma {:induction false} StuckRoute(m: State, ns: string, name: string, run: seq<Label>)
    requires Inv(m) && IsRun(m, run) && PathKey(ns, name) in m.registered
    requires Spec.ItemOf(m.monitor, m.registered[PathKey(ns, name)].key).stopped
    ensures var k, t := PathKey(ns, name), After(m, run);
            && k in t.registered && t.registered[k] == m.registered[k]
            && (forall lenient :: Unregister(t, ns, name, lenient) == (t, Err(InformerStopped)))
            && (forall secret, env :: Register(t, ns, name, secret, env) == (t, Err(AlreadyRegistered)))
    decreases |run|
  {
    hide PathKey;
    Spec.StuckKey(m.monitor, m.registered[PathKey(ns, name)].key, []);
    if run != [] {
      StuckStep(m, PathKey(ns, name), m.registered[PathKey(ns, name)], run[0]);
      InvStep(m, run[0]);
      StuckRoute(Apply(m, run[0]), ns, name, run[1..]);
    }
  }

  /** A run that gets there: a route is registered, and then its monitor is cancelled. */
  lemma StuckRouteIsReached(ns: string, name: string, secret: string, handler: Handler, env: Spec.Env)
    requires Spec.EnvOk(ObjectKey(ns, secret), env) && !env.cancelled
    ensures var run := [SetHandler(handler), RegisterOp(ns, name, secret, env), Environment(Spec.Cancelled(0))];
            && IsRun(INIT, run)
            && var m := After(INIT, run); var k := PathKey(ns, name);
               k in m.registered && m.registered[k].key in m.monitor.monitors
               && Spec.ItemOf(m.monitor, m.registered[k].key).stopped
  {
    hide PathKey;
    var l1, l2, l3 := SetHandler(handler), RegisterOp(ns, name, secret, env), Environment(Spec.Cancelled(0));
    var m1 := Apply(INIT, l1);
    var m2 := Apply(m1, l2);
    RunCons(m2, l3, []);
    RunCons(m1, l2, [l3]);
    RunCons(INIT, l1, [l2, l3]);
    assert [l3] + [] == [l3] && [l2] + [l3] == [l2, l3] && [l1] + [l2, l3] == [l1, l2, l3];
  }

  ghost predicate Stuck(m: State, k: string, reg: Registration)
    requires Wf(m)
  {
    k in m.registered && m.registered[k] == reg && reg.key in m.monitor.monitors && Spec.ItemOf(m.monitor, reg.key).stopped
  }

  lemma StuckStep(m: State, k: string, reg: Registration, l: Label)
    requires Inv(m) && Enabled(m, l) && Stuck(m, k, reg)
    ensures Stuck(Apply(m, l), k, reg)
  {
    hide PathKey;
    match l
    case RegisterOp(ns, name, secret, env) => StuckRegister(m, k, reg, l);
    case UnregisterOp(ns, name, lenient) => StuckUnregister(m, k, reg, l);
    case SetHandler(_) =>
    case Environment(step) =>
  }

  lemma StuckRegister(m: State, k: string, reg: Registration, l: Label)
    requires Inv(m) && Enabled(m, l) && l.RegisterOp? && Stuck(m, k, reg)
    ensures Stuck(Apply(m, l), k, reg)
  {
    hide PathKey, Spec.Add;
    AddKeepsStopped(m.monitor, ObjectKey(l.ns, l.secret), m.handler, l.env, reg.key);
  }

  lemma StuckUnregister(m: State, k: string, reg: Registration, l: Label)
    requires Inv(m) && Enabled(m, l) && l.UnregisterOp? && Stuck(m, k, reg)
    ensures Stuck(Apply(m, l), k, reg)
  {
    hide PathKey, Spec.Remove;
    if PathKey(l.ns, l.name) in m.registered {
      RemoveKeepsStopped(m.monitor, m.registered[PathKey(l.ns, l.name)], l.lenient, reg.key);
    }
  }

  lemma AddKeepsStopped(s: Spec.State, added: ObjectKey, handler: Option<Handler>, env: Spec.Env, key: ObjectKey)
    requires Spec.Inv(s) && Spec.EnvOk(added, env) && key in s.monitors && Spec.ItemOf(s, key).stopped
    ensures var s' := Spec.Add(s, added, handler, env).0; key in s'.monitors && Spec.ItemOf(s', key).stopped
  {
    hide Spec.Add;
    Spec.AddSucceedsIff(s, added, handler, env);
  }

  lemma RemoveKeepsStopped(s: Spec.State, reg: Registration, lenient: bool, key: ObjectKey)
    requires Spec.Inv(s) && key in s.monitors && Spec.ItemOf(s, key).stopped
    ensures var (s', r) := Spec.Remove(s, Some(reg), lenient);
            key in s'.monitors && Spec.ItemOf(s', key).stopped && (r.Ok? ==> key != reg.key)
  {
    hide Spec.Remove;
    Spec.RemoveSucceedsIff(s, Some(reg), lenient);
  }

  // ---- Reading a secret ----

  /**
   The answer for a registered route is a direct lookup of its secret in the informer's cache: exactly the
   cached object of that namespace and name, or not found.
   */
  lemma CacheAgreement(m: State, ns: string, name: string)
    requires Inv(m) && PathKey(ns, name) in m.registered
    ensures var key := m.registered[PathKey(ns, name)].key;
            var store := Spec.ItemOf(m.monitor, key).informer.store;
            && (forall o :: GetSecret(m, ns, name) == Ok(o) <==>
                 key.ns != "" && o.ns == key.ns && o.name == key.name && o in store.Values)
            && (GetSecret(m, ns, name).Err? ==> GetSecret(m, ns, name) == Err(NotFound))
  {
    assert Spec.Live(m.monitor, m.registered[PathKey(ns, name)]);
    hide PathKey, Spec.Inv, Spec.GetSecret;
    Spec.ReadOutcome(m.monitor, Some(m.registered[PathKey(ns, name)]));
  }

  /** Some object of the namespace and name of a key is cached by its monitor. */
  ghost predicate Cached(m: State, key: ObjectKey)
    requires Wf(m)
  {
    key in m.monitor.monitors && key.ns != ""
    && exists o :: o in Spec.ItemOf(m.monitor, key).informer.store.Values && o.ns == key.ns && o.name == key.name
  }

  /** Reading a route fails exactly if its text is not registered, or the secret that it is registered with is not cached. */
  lemma ReadOutcome(m: State, ns: string, name: string)
    requires Inv(m)
    ensures var k := PathKey(ns, name); var r := GetSecret(m, ns, name);
            && (r.Ok? <==> k in m.registered && Cached(m, m.registered[k].key))
            && (r.Err? ==> r.error == if k in m.registered then NotFound else NotRegistered)
  {
    var k := PathKey(ns, name);
    if k in m.registered {
      assert Spec.Live(m.monitor, m.registered[k]);
      CacheAgreement(m, ns, name);
    }
  }
}
