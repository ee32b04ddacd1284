/**
 The registry over the per-route monitors. Unlike its successor it registers a route again without complaint,
 and then forgets the handle it had.
 */
module RouteManagerSpec {
  import opened Base
  import opened RouteNames
  import Spec = RouteMonitorSpec

  type Registry = map<ObjectKey, Registration>

  datatype State = State(monitor: Spec.State, registered: Registry, handler: Handler)

  predicate Wf(m: State) {
    Spec.Wf(m.monitor)
  }

  function KeyOf(r: Route): ObjectKey {
    GenerateKey(r.ns, r.name, r.secret)
  }

  function Register(m: State, route: Route): (r: (State, Result<()>))
    requires Wf(m)
    ensures Wf(r.0)
  {
    match Spec.Add(m.monitor, KeyOf(route), m.handler)
    case (s, Err(why)) => (m.(monitor := s), Err(why))
    case (s, Ok(reg)) => (m.(monitor := s, registered := m.registered[KeyOf(route) := reg]), Ok(()))
  }

  function Unregister(m: State, route: Route, lenient: bool): (r: (State, Result<()>))
    requires Wf(m)
    ensures Wf(r.0)
  {
    var key := KeyOf(route);
    if key !in m.registered then (m, Err(NotRegistered))
    else match Spec.Remove(m.monitor, Some(m.registered[key]), lenient)
      case (s, Err(why)) => (m.(monitor := s), Err(why))
      case (s, Ok(_)) => (m.(monitor := s, registered := m.registered - {key}), Ok(()))
  }

  /** `synced` says whether the handler synced within the time that reading waits for it. */
  function GetSecret(m: State, route: Route, synced: bool): Result<SecretObject>
    requires Wf(m)
  {
    var key := KeyOf(route);
    if key !in m.registered then Err(NotRegistered)
    else if !synced then Err(NotSynced)
    else Spec.GetSecret(m.monitor, Some(m.registered[key]))
  }

  // ---- Runs ----

  datatype Label =
    | RegisterOp(route: Route)
    | UnregisterOp(route: Route, lenient: bool)
    | SetHandler(handler: Handler)
    | Environment(step: Spec.Label)

  predicate Enabled(m: State, l: Label) {
    l.Environment? ==> !l.step.AddOp? && !l.step.RemoveOp? && Spec.Enabled(m.monitor, l.step)
  }

  function Apply(m: State, l: Label): (m': State)
    requires Wf(m) && Enabled(m, l)
    ensures Wf(m')
  {
    match l
    case RegisterOp(route) => Register(m, route).0
    case UnregisterOp(route, lenient) => Unregister(m, route, lenient).0
    case SetHandler(h) => m.(handler := h)
    case Environment(step) => m.(monitor := Spec.Apply(m.monitor, step))
  }

  predicate IsRun(m: State, run: seq<Label>)
    requires Wf(m)
    decreases |run|
  {
    run == [] || (Enabled(m, run[0]) && IsRun(Apply(m, run[0]), run[1..]))
  }

  function After(m: State, run: seq<Label>): (m': State)
    requires Wf(m) && IsRun(m, run)
    ensures Wf(m')
    decreases |run|
  {
    if run == [] then m else After(Apply(m, run[0]), run[1..])
  }

  // ---- The invariant ----

  predicate LiveAt(s: Spec.State, registered: Registry, key: ObjectKey)
    requires Spec.Wf(s) && key in registered
  {
    registered[key].key == key && key in s.monitors && registered[key].id in Spec.ItemOf(s, key).informer.handlers
  }

  ghost predicate AllLive(s: Spec.State, registered: Registry)
    requires Spec.Wf(s)
  {
    forall k {:trigger LiveAt(s, registered, k)} | k in registered :: LiveAt(s, registered, k)
  }

  ghost predicate Exact(s: Spec.State)
    requires Spec.Wf(s)
  {
    forall k | k in s.monitors :: Spec.ItemOf(s, k).count == |Spec.ItemOf(s, k).informer.handlers|
  }

  /** Every registered handle is live, and every monitor counts its handlers exactly. */
  ghost predicate Inv(m: State) {
    Wf(m) && Spec.Inv(m.monitor) && AllLive(m.monitor, m.registered) && Exact(m.monitor)
  }

  /** How many handlers the monitor of a key has. */
  function Handlers(m: State, key: ObjectKey): int
    requires Wf(m)
  {
    if key in m.monitor.monitors then Spec.ItemOf(m.monitor, key).count else 0
  }

  /** The handlers of the monitor of a key, by their handles. */
  function HandlersOf(m: State, key: ObjectKey): map<nat, Handler>
    requires Wf(m)
  {
    if key in m.monitor.monitors then Spec.ItemOf(m.monitor, key).informer.handlers else map[]
  }

  function Registered(m: State, key: ObjectKey): int {
    if key in m.registered then 1 else 0
  }

  /** Adding a handler for a key makes its handle live, and keeps the other ones. */
  lemma AddKeepsLive(s: Spec.State, registered: Registry, key: ObjectKey, handler: Handler, s': Spec.State)
    requires Spec.Wf(s) && AllLive(s, registered) && Spec.AddEffect(s, key, handler, s')
    ensures AllLive(s', registered[key := Registration(s.next, key)])
  {
    var after := registered[key := Registration(s.next, key)];
    forall k | k in after ensures LiveAt(s', after, k) {
      if k != key {
        assert LiveAt(s, registered, k);
      }
    }
  }

  lemma AddKeepsExact(s: Spec.State, key: ObjectKey, handler: Handler, s': Spec.State)
    requires Spec.Wf(s) && Exact(s) && Spec.AddEffect(s, key, handler, s')
    requires key in s.monitors ==> s.next !in Spec.ItemOf(s, key).informer.handlers
    ensures Exact(s')
  {
    forall k | k in s'.monitors ensures Spec.ItemOf(s', k).count == |Spec.ItemOf(s', k).informer.handlers| {
      assert k != key ==> k in s.monitors;
    }
  }

  lemma NextIsFresh(s: Spec.State, key: ObjectKey)
    requires Spec.Inv(s)
    ensures key in s.monitors ==> s.next !in Spec.ItemOf(s, key).informer.handlers
  {
    assert key in s.monitors ==> Spec.Fresh(Spec.ItemOf(s, key), s.next);
  }

  lemma OneMoreHandler(m: State, key: ObjectKey, s': Spec.State, registered: Registry)
    requires Wf(m) && Spec.AddEffect(m.monitor, key, m.handler, s')
    ensures var m' := m.(monitor := s', registered := registered);
            && (forall k :: Handlers(m', k) == Handlers(m, k) + if k == key then 1 else 0)
            && HandlersOf(m', key) == HandlersOf(m, key)[m.monitor.next := m.handler] && s'.next == m.monitor.next + 1
  {
  }

  /**
   Registering succeeds exactly for plain names. There is then one more handler at its key, the one that was set last,
   and its handle is the registration, also where there was another one before.
   */
  lemma RegisterOutcome(m: State, route: Route)
    requires Inv(m)
    ensures var (m', r) := Register(m, route);
            && Inv(m')
            && (r.Ok? <==> Plain(route.name) && Plain(route.secret))
            && (r.Err? ==> m' == m)
            && (r.Err? ==> r.error == InvalidName)
            && m'.handler == m.handler
            && (r.Ok? ==>
              && m'.registered == m.registered[KeyOf(route) := Registration(m.monitor.next, KeyOf(route))]
              && HandlersOf(m', KeyOf(route)) == HandlersOf(m, KeyOf(route))[m.monitor.next := m.handler]
              && m'.monitor.next == m.monitor.next + 1
              && forall key :: Handlers(m', key) == Handlers(m, key) + if key == KeyOf(route) then 1 else 0)
  {
    hide Spec.Add, Spec.Inv, Spec.AddEffect, GenerateKey, AllLive, Exact, Handlers, HandlersOf;
    var (s', r) := Spec.Add(m.monitor, KeyOf(route), m.handler);
    Spec.AddOutcome(m.monitor, KeyOf(route), m.handler);
    NextIsFresh(m.monitor, KeyOf(route));
    GeneratedValid(route.ns, route.name, route.secret);
    if r.Ok? {
      AddKeepsLive(m.monitor, m.registered, KeyOf(route), m.handler, s');
      AddKeepsExact(m.monitor, KeyOf(route), m.handler, s');
      OneMoreHandler(m, KeyOf(route), s', m.registered[KeyOf(route) := r.value]);
    }
  }

  /** Removing the registered handle of a key keeps the other ones. */
  lemma RemoveKeeps(s: Spec.State, registered: Registry, key: ObjectKey, s': Spec.State)
    requires Spec.Wf(s) && AllLive(s, registered) && Exact(s) && key in registered && LiveAt(s, registered, key)
    requires Spec.RemoveEffect(s, registered[key], s')
    ensures AllLive(s', registered - {key}) && Exact(s')
  {
    var hs, id := Spec.ItemOf(s, key).informer.handlers, registered[key].id;
    assert (hs - {id}).Keys == hs.Keys - {id} && |(hs - {id}).Keys| == |hs - {id}| && |hs.Keys| == |hs|;
    forall k | k in registered - {key} ensures LiveAt(s', registered - {key}, k) {
      assert LiveAt(s, registered, k);
    }
  }

  /** Unregistering succeeds exactly for a registered key, and takes away one handler. */
  lemma UnregisterOutcome(m: State, route: Route, lenient: bool)
    requires Inv(m)
    ensures var (m', r) := Unregister(m, route, lenient);
            && Inv(m')
            && (r.Ok? <==> KeyOf(route) in m.registered)
            && (r.Err? ==> m' == m)
            && (r.Err? ==> r.error == NotRegistered)
            && m'.handler == m.handler
            && (r.Ok? ==> HandlersOf(m', KeyOf(route)) == HandlersOf(m, KeyOf(route)) - {m.registered[KeyOf(route)].id})
            && (r.Ok? ==> m'.registered == m.registered - {KeyOf(route)}
                          && forall key :: Handlers(m', key) == Handlers(m, key) - if key == KeyOf(route) then 1 else 0)
  {
    hide GenerateKey, Spec.Remove, Spec.Inv, Exact;
    var key := KeyOf(route);
    if key in m.registered {
      assert LiveAt(m.monitor, m.registered, key);
      Spec.RemoveOutcome(m.monitor, Some(m.registered[key]), lenient);
      RemoveKeeps(m.monitor, m.registered, key, Spec.Remove(m.monitor, Some(m.registered[key]), lenient).0);
      OneHandlerGone(m, key, Unregister(m, route, lenient).0);
    }
  }

  lemma OneHandlerGone(m: State, key: ObjectKey, m': State)
    requires Wf(m) && Wf(m') && Exact(m.monitor) && key in m.registered && LiveAt(m.monitor, m.registered, key)
    requires Spec.RemoveEffect(m.monitor, m.registered[key], m'.monitor)
    ensures HandlersOf(m', key) == HandlersOf(m, key) - {m.registered[key].id}
  {
    var hs, id := HandlersOf(m, key), m.registered[key].id;
    assert (hs - {id}).Keys == hs.Keys - {id} && |(hs - {id}).Keys| == |hs - {id}| && |hs.Keys| == |hs|;
    if |hs| == 1 {
      assert hs - {id} == map[];
    }
  }

  lemma OtherStep(m: State, l: Label)
    requires Inv(m) && Enabled(m, l) && (l.SetHandler? || l.Environment?)
    ensures Inv(Apply(m, l)) && Apply(m, l).registered == m.registered
    ensures forall key :: Handlers(Apply(m, l), key) == Handlers(m, key)
  {
    hide Spec.Inv;
    if l.Environment? {
      Spec.InformerInv(m.monitor, l.step);
      hide Spec.Apply, Spec.Enabled;
      forall k | k in m.registered ensures LiveAt(Apply(m, l).monitor, m.registered, k) {
        assert LiveAt(m.monitor, m.registered, k);
      }
    }
  }

  /** A handler that is set is the one that the next registration adds. */
  lemma SetThenRegister(m: State, handler: Handler, route: Route)
    requires Inv(m) && Plain(route.name) && Plain(route.secret)
    ensures var m1 := Apply(m, SetHandler(handler)); var (m2, r) := Register(m1, route);
            && m1.monitor == m.monitor && m1.registered == m.registered
            && r.Ok? && HandlersOf(m2, KeyOf(route)) == HandlersOf(m, KeyOf(route))[m.monitor.next := handler]
  {
    hide Register, KeyOf;
    OtherStep(m, SetHandler(handler));
    RegisterOutcome(Apply(m, SetHandler(handler)), route);
  }

  // ---- Handlers that are forgotten ----

  /** How often a run registers a route under a key that is registered already. */
  function Overwrites(m: State, run: seq<Label>, key: ObjectKey): nat
    requires Wf(m) && IsRun(m, run)
    decreases |run|
  {
    if run == [] then 0
    else (if run[0].RegisterOp? && KeyOf(run[0].route) == key && key in m.registered then 1 else 0)
         + Overwrites(Apply(m, run[0]), run[1..], key)
  }

  lemma StepBalance(m: State, l: Label, key: ObjectKey)
    requires Inv(m) && Enabled(m, l)
    ensures var m' := Apply(m, l);
            && Inv(m')
            && Handlers(m', key) - Registered(m', key)
                 == Handlers(m, key) - Registered(m, key)
                    + if l.RegisterOp? && KeyOf(l.route) == key && key in m.registered then 1 else 0
  {
    hide Spec.Add, Spec.Remove, Spec.Apply, Spec.Inv, GenerateKey, Handlers;
    match l
    case RegisterOp(route) =>
      RegisterOutcome(m, route);
      if KeyOf(route) in m.registered {
        RegisteredIsValid(m, route);
      }
    case UnregisterOp(route, lenient) => UnregisterOutcome(m, route, lenient);
    case _ => OtherStep(m, l);
  }

  lemma RegisteredIsValid(m: State, route: Route)
    requires Inv(m) && KeyOf(route) in m.registered
    ensures Plain(route.name) && Plain(route.secret)
  {
    var key := KeyOf(route);
    assert LiveAt(m.monitor, m.registered, key);
    assert Spec.ItemOk(Spec.ItemOf(m.monitor, key)) && Spec.ItemOf(m.monitor, key).key == key;
    GeneratedValid(route.ns, route.name, route.secret);
  }

  lemma {:induction false} Balance(m: State, run: seq<Label>, key: ObjectKey)
    requires Inv(m) && IsRun(m, run)
    ensures var t := After(m, run);
            Inv(t) && Handlers(t, key) - Registered(t, key) == Handlers(m, key) - Registered(m, key) + Overwrites(m, run, key)
    decreases |run|
  {
    if run != [] {
      StepBalance(m, run[0], key);
      Balance(Apply(m, run[0]), run[1..], key);
    }
  }

  function Init(handler: Handler): State {
    State(Spec.INIT, map[], handler)
  }

  /** In every run a monitor counts one handler if its key is registered, and one for each time it was registered again. */
  lemma Conservation(handler: Handler, run: seq<Label>, key: ObjectKey)
    requires IsRun(Init(handler), run)
    ensures var m := After(Init(handler), run);
            Handlers(m, key) == Registered(m, key) + Overwrites(Init(handler), run, key)
  {
    Balance(Init(handler), run, key);
  }

  /** Once nothing is registered, the map is empty exactly if no route was ever registered again while it was registered. */
  lemma EmptiesIff(handler: Handler, run: seq<Label>)
    requires IsRun(Init(handler), run) && After(Init(handler), run).registered == map[]
    ensures After(Init(handler), run).monitor.monitors == map[] <==> forall key :: Overwrites(Init(handler), run, key) == 0
  {
    var m := After(Init(handler), run);
    forall key ensures Overwrites(Init(handler), run, key) == 0 <==> key !in m.monitor.monitors {
      Balance(Init(handler), run, key);
      assert key in m.monitor.monitors ==> Spec.MappedOk(Spec.ItemOf(m.monitor, key));
    }
    if m.monitor.monitors != map[] {
      var key :| key in m.monitor.monitors;
      assert Overwrites(Init(handler), run, key) != 0;
    }
  }

  /**
   A run that gets there: a route is registered twice and unregistered. That removes the second handle, and the monitor
   runs on with the first one.
   */
  lemma LeakIsReached(handler: Handler, route: Route)
    requires Plain(route.name) && Plain(route.secret)
    ensures var run := [RegisterOp(route), RegisterOp(route), UnregisterOp(route, false)];
            && IsRun(Init(handler), run)
            && var m := After(Init(handler), run);
               m.registered == map[] && KeyOf(route) in m.monitor.monitors
               && Handlers(m, KeyOf(route)) == 1 && HandlersOf(m, KeyOf(route)) == map[0 := handler]
  {
    hide Register, Unregister, KeyOf, Inv, HandlersOf, Handlers;
    LeakStates(handler, route);
    RunThree(Init(handler), RegisterOp(route), RegisterOp(route), UnregisterOp(route, false));
  }

  lemma LeakStates(handler: Handler, route: Route)
    requires Plain(route.name) && Plain(route.secret)
    ensures var m1 := Register(Init(handler), route).0; var m := Unregister(Register(m1, route).0, route, false).0;
            m.registered == map[] && KeyOf(route) in m.monitor.monitors
            && Handlers(m, KeyOf(route)) == 1 && HandlersOf(m, KeyOf(route)) == map[0 := handler]
  {
    hide Register, Unregister, GenerateKey, Spec.Inv;
    var m0 := Init(handler);
    InitInv(handler);
    var m1 := Register(m0, route).0;
    var m2 := Register(m1, route).0;
    RegisterOutcome(m0, route);
    RegisterOutcome(m1, route);
    UnregisterOutcome(m2, route, false);
    assert Unregister(m2, route, false).0.registered == map[];
    assert map[0 := handler][1 := handler] - {1} == map[0 := handler];
  }

  lemma InitInv(handler: Handler)
    ensures Inv(Init(handler))
  {
  }

  lemma RunThree(m: State, l1: Label, l2: Label, l3: Label)
    requires Wf(m) && Enabled(m, l1) && Enabled(Apply(m, l1), l2) && Enabled(Apply(Apply(m, l1), l2), l3)
    ensures IsRun(m, [l1, l2, l3]) && After(m, [l1, l2, l3]) == Apply(Apply(Apply(m, l1), l2), l3)
  {
    hide Apply, Enabled;
    assert [l1, l2, l3][1..] == [l2, l3] && [l2, l3][1..] == [l3] && [l3][1..] == [];
    var m2 := Apply(Apply(m, l1), l2);
    assert IsRun(m2, [l3]) && After(m2, [l3]) == Apply(m2, l3);
  }

  /**
   Reading fails exactly for a route that is not registered, one that has not synced in time, and one whose secret is
   not cached, and says which of these it is.
   */
  lemma ReadOutcome(handler: Handler, run: seq<Label>, route: Route, synced: bool)
    requires IsRun(Init(handler), run)
    ensures var m := After(Init(handler), run); var key := KeyOf(route);
            match GetSecret(m, route, synced)
            case Ok(o) =>
              key in m.registered && synced && key in m.monitor.monitors
              && o in Spec.ItemOf(m.monitor, key).informer.store.Values && o.ns == route.ns && o.name == route.secret
            case Err(why) =>
              if key !in m.registered then why == NotRegistered
              else if !synced then why == NotSynced
              else why == NotFound && key in m.monitor.monitors
                   && forall o :: !(o in Spec.ItemOf(m.monitor, key).informer.store.Values && o.ns == route.ns
                                    && o.name == route.secret && route.ns != "")
  {
    var m, key := After(Init(handler), run), KeyOf(route);
    if key in m.registered && synced {
      RouteReadsItsSecret(handler, run, route, SecretObject("", "", ""));
      forall o ensures GetSecret(m, route, true) == Ok(o) <==>
                       o in Spec.ItemOf(m.monitor, key).informer.store.Values
                       && o.ns == route.ns && o.name == route.secret && route.ns != "" {
        RouteReadsItsSecret(handler, run, route, o);
      }
    }
  }

  /** A registered route reads, once synced, exactly the cached object of its namespace and its own secret. */
  lemma RouteReadsItsSecret(handler: Handler, run: seq<Label>, route: Route, o: SecretObject)
    requires IsRun(Init(handler), run) && KeyOf(route) in After(Init(handler), run).registered
    ensures var m := After(Init(handler), run);
            && KeyOf(route) in m.monitor.monitors
            && (GetSecret(m, route, true).Err? ==> GetSecret(m, route, true) == Err(NotFound))
            && (GetSecret(m, route, true) == Ok(o) <==>
                 o in Spec.ItemOf(m.monitor, KeyOf(route)).informer.store.Values
                 && o.ns == route.ns && o.name == route.secret && route.ns != "")
  {
    Balance(Init(handler), run, KeyOf(route));
    ReadsItsSecret(After(Init(handler), run), route, o);
  }

  lemma ReadsItsSecret(m: State, route: Route, o: SecretObject)
    requires Inv(m) && KeyOf(route) in m.registered
    ensures KeyOf(route) in m.monitor.monitors
    ensures GetSecret(m, route, true).Err? ==> GetSecret(m, route, true) == Err(NotFound)
    ensures GetSecret(m, route, true) == Ok(o) <==>
              o in Spec.ItemOf(m.monitor, KeyOf(route)).informer.store.Values
              && o.ns == route.ns && o.name == route.secret && route.ns != ""
  {
    var key := KeyOf(route);
    assert LiveAt(m.monitor, m.registered, key);
    RegisteredIsValid(m, route);
    ValidExactly(key.name);
    hide Spec.Inv, AllLive, Exact, GetSecretName;
    Spec.ReadExactly(m.monitor, m.registered[key], o);
  }

  /** After its informer updated the cache, a route reads from what was put there; routes of other monitors read as before. */
  lemma CacheUpdateIsRead(m: State, i: nat, store: map<string, SecretObject>, route: Route, o: SecretObject)
    requires Inv(m) && Enabled(m, Environment(Spec.StoreChanges(i, store))) && KeyOf(route) in m.registered
    ensures KeyOf(route) in m.monitor.monitors
    ensures var m' := Apply(m, Environment(Spec.StoreChanges(i, store)));
            if m.monitor.monitors[KeyOf(route)] == i then
              GetSecret(m', route, true) == Ok(o) <==>
                o in store.Values && o.ns == route.ns && o.name == route.secret && route.ns != ""
            else GetSecret(m', route, true) == Ok(o) <==> GetSecret(m, route, true) == Ok(o)
  {
    hide GetSecret, KeyOf, Inv;
    var step := Spec.StoreChanges(i, store);
    OtherStep(m, Environment(step));
    ReadsItsSecret(m, route, o);
    ReadsItsSecret(Apply(m, Environment(step)), route, o);
    Spec.InformerChangesOne(m.monitor, step);
  }
}
