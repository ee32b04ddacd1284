/**
 The route controller: route events go through a queue to one worker, which drives the manager; handlers that
 the manager registered put notifications on the same queue. A run interleaves the route informer, the secret
 informers and the worker in any order.
 */
module RouteController {
  import opened Base
  import opened ItemMonitor
  import Spec = SecretSpec
  import Manager = ManagerSpec

  datatype Event = Added(route: Route) | Modified(route: Route) | Deleted(route: Route)

  /** What the worker is doing: nothing, holding an event, or about to register after setting the handler. */
  datatype Worker = Resting | Holding(event: Event) | HandlerSet(event: Event)

  /**
   `live` is the route informer's index, `pending` what its current callback has still to put on the queue,
   and `inflight` the notifications on their way through the listeners of the secret informers.
   */
  datatype State = State(
    live: map<string, Route>,
    pending: seq<Event>,
    queue: seq<Event>,
    worker: Worker,
    inflight: seq<Event>,
    manager: Manager.State)

  const INIT := State(map[], [], [], Resting, [], Manager.INIT)

  // ---- What the callbacks and the worker do ----

  function OnAdd(route: Route): seq<Event> {
    [Added(route)]
  }

  function OnUpdate(old_: Route, new_: Route): seq<Event> {
    if old_.secret != new_.secret then [Deleted(old_), Added(new_)] else []
  }

  function OnDelete(route: Route): seq<Event> {
    [Deleted(route)]
  }

  /** The first half of registering a route: the manager's shared handler becomes the one of this route. */
  function SetHandler(m: Manager.State, route: Route): Manager.State {
    m.(handler := Some(Handler(route)))
  }

  /** Handling an event, for an addition after its handler was set. */
  function HandleRoute(m: Manager.State, e: Event, env: Spec.Env, lenient: bool): (r: (Manager.State, Result<()>))
    requires Manager.Wf(m)
    ensures Manager.Wf(r.0)
  {
    match e
    case Added(route) => Manager.Register(m, route.ns, route.name, route.secret, env)
    case Modified(route) =>
      (match Manager.GetSecret(m, route.ns, route.name)
       case Err(why) => (m, Err(why))
       case Ok(_) => (m, Ok(())))
    case Deleted(route) => Manager.Unregister(m, route.ns, route.name, lenient)
  }

  /** One notification for each listener of an informer, in the order in which the listeners are visited. */
  function Notifications(handlers: map<nat, Handler>, order: seq<nat>): seq<Event>
    requires forall id | id in order :: id in handlers
  {
    if order == [] then []
    else [Modified(handlers[order[0]].route)] + Notifications(handlers, order[1..])
  }

  ghost predicate Visits(handlers: map<nat, Handler>, order: seq<nat>) {
    && (forall id :: id in order <==> id in handlers)
    && (forall i, j | 0 <= i < j < |order| :: order[i] != order[j])
  }

  // ---- Steps ----

  datatype Label =
    | RouteAdded(route: Route)
    | RouteUpdated(route: Route)
    | RouteDeleted(key: string)
    | Enqueue
    | Take
    | Prepare                                                 // the worker sets the handler of an added route
    | Handle(env: Spec.Env, lenient: bool)
    | Distribute(secret: ObjectKey, order: seq<nat>)          // an informer notifies its listeners
    | Greet(secret: ObjectKey, id: nat)                       // an informer tells one listener what it has cached
    | Deliver(i: nat)                                         // a listener runs its handler
    | Lose(i: nat)                                            // a removed listener drops a notification
    | Environment(step: Spec.Label)

  ghost predicate Enabled(c: State, l: Label)
    requires Manager.Wf(c.manager)
  {
    match l
    case RouteAdded(r) => c.pending == [] && RouteKey(r) !in c.live
    case RouteUpdated(r) =>  // an update keeps the namespace and the name
      c.pending == [] && RouteKey(r) in c.live && c.live[RouteKey(r)].ns == r.ns && c.live[RouteKey(r)].name == r.name
    case RouteDeleted(k) => c.pending == [] && k in c.live
    case Enqueue => c.pending != []
    case Take => c.worker.Resting? && c.queue != []
    case Prepare => c.worker.Holding? && c.worker.event.Added?
    case Handle(env, _) =>
      && (c.worker.HandlerSet? || (c.worker.Holding? && !c.worker.event.Added?))
      && Spec.EnvOk(SecretKey(c.worker.event.route), env) && !env.cancelled
    case Distribute(key, order) =>
      key in c.manager.monitor.monitors && Visits(Spec.Handlers(c.manager.monitor, key), order)
    case Greet(key, id) => key in c.manager.monitor.monitors && id in Spec.Handlers(c.manager.monitor, key)
    case Deliver(i) => i < |c.inflight|
    case Lose(i) => i < |c.inflight|
    case Environment(step) =>
      (step.RunEnds? || step.StoreChanges?) && Spec.Enabled(c.manager.monitor, step)
  }

  ghost function Apply(c: State, l: Label): (c': State)
    requires Manager.Wf(c.manager) && Enabled(c, l)
    ensures Manager.Wf(c'.manager)
  {
    match l
    case RouteAdded(r) => c.(live := c.live[RouteKey(r) := r], pending := OnAdd(r))
    case RouteUpdated(r) => c.(live := c.live[RouteKey(r) := r], pending := OnUpdate(c.live[RouteKey(r)], r))
    case RouteDeleted(k) => c.(live := c.live - {k}, pending := OnDelete(c.live[k]))
    case Enqueue => c.(queue := c.queue + [c.pending[0]], pending := c.pending[1..])
    case Take => c.(worker := Holding(c.queue[0]), queue := c.queue[1..])
    case Prepare => c.(worker := HandlerSet(c.worker.event), manager := SetHandler(c.manager, c.worker.event.route))
    case Handle(env, lenient) =>
      c.(worker := Resting, manager := HandleRoute(c.manager, c.worker.event, env, lenient).0)
    case Distribute(key, order) =>
      c.(inflight := c.inflight + Notifications(Spec.Handlers(c.manager.monitor, key), order))
    case Greet(key, id) => c.(inflight := c.inflight + [Modified(Spec.Handlers(c.manager.monitor, key)[id].route)])
    case Deliver(i) => c.(inflight := c.inflight[..i] + c.inflight[i + 1..], queue := c.queue + [c.inflight[i]])
    case Lose(i) => c.(inflight := c.inflight[..i] + c.inflight[i + 1..])
    case Environment(step) => c.(manager := c.manager.(monitor := Spec.Apply(c.manager.monitor, step)))
  }

  ghost predicate IsRun(c: State, run: seq<Label>)
    requires Manager.Wf(c.manager)
    decreases |run|
  {
    run == [] || (Enabled(c, run[0]) && IsRun(Apply(c, run[0]), run[1..]))
  }

  ghost function After(c: State, run: seq<Label>): (c': State)
    requires Manager.Wf(c.manager) && IsRun(c, run)
    ensures Manager.Wf(c'.manager)
    decreases |run|
  {
    if run == [] then c else After(Apply(c, run[0]), run[1..])
  }

  // ---- Replaying the queue ----

  type Keyed = map<string, ObjectKey>

  /** What the registry says: which secret each registered route is watched for. */
  function Registry(m: Manager.State): Keyed {
    map k | k in m.registered :: m.registered[k].key
  }

  /** What the cluster says. */
  function Wanted(live: map<string, Route>): Keyed {
    map k | k in live :: SecretKey(live[k])
  }

  function ReplayOne(reg: Keyed, e: Event): Option<Keyed> {
    var k := RouteKey(e.route);
    match e
    case Added(r) => if k in reg then None else Some(reg[k := SecretKey(r)])
    case Modified(_) => Some(reg)
    case Deleted(_) => if k in reg then Some(reg - {k}) else None
  }

  /** The registry after a sequence of events, or nothing if one of them would be rejected. */
  function Replay(reg: Keyed, events: seq<Event>): Option<Keyed>
    decreases |events|
  {
    if events == [] then Some(reg)
    else match ReplayOne(reg, events[0])
      case None => None
      case Some(reg') => Replay(reg', events[1..])
  }

  lemma {:induction false} ReplayAppend(reg: Keyed, a: seq<Event>, b: seq<Event>)
    ensures Replay(reg, a + b) == match Replay(reg, a) case None => None case Some(r) => Replay(r, b)
    decreases |a|
  {
    if a == [] {
      assert a + b == b;
    } else {
      assert (a + b)[0] == a[0] && (a + b)[1..] == a[1..] + b;
      match ReplayOne(reg, a[0])
      case None =>
      case Some(r) => ReplayAppend(r, a[1..], b);
    }
  }

  /** A notification changes no replay, wherever it is put. */
  lemma ReplayInsert(reg: Keyed, a: seq<Event>, e: Event, b: seq<Event>)
    requires e.Modified?
    ensures Replay(reg, a + [e] + b) == Replay(reg, a + b)
  {
    ReplayAppend(reg, a, [e] + b);
    ReplayAppend(reg, a, b);
    assert a + [e] + b == a + ([e] + b);
    forall r ensures Replay(r, [e] + b) == Replay(r, b) {
      assert ([e] + b)[1..] == b;
    }
  }

  // ---- The invariant ----

  /** Everything that the registry has not seen yet, oldest first. */
  function ToDo(c: State): seq<Event> {
    (if c.worker.Resting? then [] else [c.worker.event]) + c.queue + c.pending
  }

  /** The route captured by the handler that is stored for a registration. */
  function Captured(s: Spec.State, reg: Registration): Route
    requires Spec.Wf(s) && Spec.Live(s, reg)
  {
    Spec.Handlers(s, reg.key)[reg.id].route
  }

  ghost predicate RoutedAt(s: Spec.State, registered: Manager.Registry, k: string)
    requires Spec.Wf(s) && k in registered
  {
    var reg := registered[k];
    Spec.Live(s, reg) && RouteKey(Captured(s, reg)) == k && SecretKey(Captured(s, reg)) == reg.key
  }

  /** Every registered route's handler was generated for this route and the secret it is registered with. */
  ghost predicate Routed(s: Spec.State, registered: Manager.Registry)
    requires Spec.Wf(s)
  {
    forall k {:trigger RoutedAt(s, registered, k)} | k in registered :: RoutedAt(s, registered, k)
  }

  ghost predicate Converging(c: State) {
    Replay(Registry(c.manager), ToDo(c)) == Some(Wanted(c.live))
  }

  ghost predicate ManagerOk(m: Manager.State) {
    Manager.Inv(m) && Manager.AllRunning(m) && Routed(m.monitor, m.registered)
  }

  ghost predicate LiveOk(live: map<string, Route>) {
    forall k | k in live :: RouteKey(live[k]) == k
  }

  ghost predicate Inv(c: State) {
    && Manager.Wf(c.manager) && ManagerOk(c.manager)
    && LiveOk(c.live)
    && (forall e | e in c.inflight :: e.Modified?)
    && (c.worker.HandlerSet? ==> c.worker.event.Added? && c.manager.handler == Some(Handler(c.worker.event.route)))
    && Converging(c)
  }

  // ---- The worker's step ----

  lemma RoutedAfterAdd(s: Spec.State, registered: Manager.Registry, route: Route, env: Spec.Env)
    requires Spec.Inv(s) && Routed(s, registered) && Spec.EnvOk(SecretKey(route), env)
    requires forall k | k in registered :: registered[k].id < s.next
    ensures var (s', r) := Spec.Add(s, SecretKey(route), Some(Handler(route)), env);
            r.Ok? ==> Routed(s', registered[RouteKey(route) := r.value])
  {
    hide PathKey, Spec.Add;
    Spec.AddSucceedsIff(s, SecretKey(route), Some(Handler(route)), env);
    var (s', r) := Spec.Add(s, SecretKey(route), Some(Handler(route)), env);
    if r.Ok? {
      var after := registered[RouteKey(route) := r.value];
      forall k | k in after ensures RoutedAt(s', after, k) {
        if k != RouteKey(route) {
          assert RoutedAt(s, registered, k);
        }
      }
    }
  }

  lemma RoutedAfterRegister(m: Manager.State, route: Route, env: Spec.Env)
    requires Manager.Inv(m) && Routed(m.monitor, m.registered) && Spec.EnvOk(SecretKey(route), env)
    requires m.handler == Some(Handler(route)) && RouteKey(route) !in m.registered
    ensures var (m', r) := Manager.Register(m, route.ns, route.name, route.secret, env);
            r.Ok? ==> Routed(m'.monitor, m'.registered)
  {
    hide PathKey, Spec.Add, Routed, Manager.NoOtherHandles, Spec.Faithful;
    RoutedAfterAdd(m.monitor, m.registered, route, env);
  }

  lemma RoutedAfterUnregister(m: Manager.State, route: Route, lenient: bool)
    requires Manager.Inv(m) && Routed(m.monitor, m.registered) && RouteKey(route) in m.registered
    ensures var (m', r) := Manager.Unregister(m, route.ns, route.name, lenient);
            r.Ok? ==> Routed(m'.monitor, m'.registered)
  {
    hide PathKey, Spec.Remove, Routed, Manager.NoOtherHandles, Spec.Faithful;
    RoutedAfterRemove(m, RouteKey(route), lenient);
  }

  lemma RoutedAfterRemove(m: Manager.State, k: string, lenient: bool)
    requires Manager.Inv(m) && Routed(m.monitor, m.registered) && k in m.registered
    ensures var (s', r) := Spec.Remove(m.monitor, Some(m.registered[k]), lenient);
            r.Ok? ==> Routed(s', m.registered - {k})
  {
    hide PathKey, Spec.Remove;
    var (s, reg) := (m.monitor, m.registered[k]);
    Spec.RemoveSucceedsIff(s, Some(reg), lenient);
    var (s', r) := Spec.Remove(s, Some(reg), lenient);
    if r.Ok? {
      var after := m.registered - {k};
      forall i | i in after ensures RoutedAt(s', after, i) {
        assert RoutedAt(s, m.registered, i);
        Manager.OtherStaysLive(s, m.registered, k, i, lenient, s');
      }
    }
  }

  /**
   No event that the worker takes is rejected, and handling it changes the registry as the replay says:
   a route is registered with the secret of its event, or unregistered, or left alone.
   */
  lemma HandleMatchesReplay(m: Manager.State, e: Event, env: Spec.Env, lenient: bool)
    requires ManagerOk(m)
    requires Spec.EnvOk(SecretKey(e.route), env) && !env.cancelled
    requires e.Added? ==> m.handler == Some(Handler(e.route))
    requires ReplayOne(Registry(m), e).Some?
    ensures var (m', r) := HandleRoute(m, e, env, lenient);
            && ManagerOk(m')
            && ReplayOne(Registry(m), e) == Some(Registry(m'))
            && (!e.Modified? ==> r.Ok?)
  {
    hide PathKey;
    match e
    case Added(r) => HandleAdded(m, r, env);
    case Deleted(r) => HandleDeleted(m, r, lenient);
    case Modified(_) =>
  }

  lemma HandleAdded(m: Manager.State, route: Route, env: Spec.Env)
    requires ManagerOk(m) && Spec.EnvOk(SecretKey(route), env) && !env.cancelled
    requires m.handler == Some(Handler(route)) && RouteKey(route) !in m.registered
    ensures var (m', r) := Manager.Register(m, route.ns, route.name, route.secret, env);
            ManagerOk(m') && r.Ok? && Registry(m') == Registry(m)[RouteKey(route) := SecretKey(route)]
  {
    hide PathKey, Manager.Register;
    RegisterOk(m, route, env);
    Manager.RegisterInv(m, route.ns, route.name, route.secret, env);
    RoutedAfterRegister(m, route, env);
  }

  lemma RegisterOk(m: Manager.State, route: Route, env: Spec.Env)
    requires Manager.Inv(m) && Manager.AllRunning(m) && Spec.EnvOk(SecretKey(route), env) && !env.cancelled
    requires m.handler.Some? && RouteKey(route) !in m.registered
    ensures var (m', r) := Manager.Register(m, route.ns, route.name, route.secret, env);
            Manager.AllRunning(m') && r.Ok? && Registry(m') == Registry(m)[RouteKey(route) := SecretKey(route)]
  {
    hide PathKey, Manager.Register;
    Manager.RegisterRunning(m, route.ns, route.name, route.secret, env);
  }

  lemma HandleDeleted(m: Manager.State, route: Route, lenient: bool)
    requires ManagerOk(m) && RouteKey(route) in m.registered
    ensures var (m', r) := Manager.Unregister(m, route.ns, route.name, lenient);
            ManagerOk(m') && r.Ok? && Registry(m') == Registry(m) - {RouteKey(route)}
  {
    hide PathKey, Manager.Unregister;
    UnregisterOk(m, route, lenient);
    Manager.UnregisterInv(m, route.ns, route.name, lenient);
    RoutedAfterUnregister(m, route, lenient);
  }

  lemma UnregisterOk(m: Manager.State, route: Route, lenient: bool)
    requires Manager.Inv(m) && Manager.AllRunning(m) && RouteKey(route) in m.registered
    ensures var (m', r) := Manager.Unregister(m, route.ns, route.name, lenient);
            Manager.AllRunning(m') && r.Ok? && Registry(m') == Registry(m) - {RouteKey(route)}
  {
    hide PathKey, Manager.Unregister, Manager.OwnHandles, Manager.NoOtherHandles, Spec.Faithful;
    Manager.UnregisterRunning(m, route.ns, route.name, lenient);
  }

  // ---- Every step keeps the invariant ----

  lemma CallbackInv(c: State, l: Label)
    requires Inv(c) && Enabled(c, l) && (l.RouteAdded? || l.RouteUpdated? || l.RouteDeleted?)
    ensures Inv(Apply(c, l))
  {
    hide PathKey;
    var c' := Apply(c, l);
    assert ToDo(c') == ToDo(c) + c'.pending;
    ReplayAppend(Registry(c.manager), ToDo(c), c'.pending);
    CallbackReplay(c, l);
  }

  /** What a callback puts on the queue leads from the old index to the new one. */
  lemma CallbackReplay(c: State, l: Label)
    requires Manager.Wf(c.manager) && LiveOk(c.live) && Enabled(c, l) && (l.RouteAdded? || l.RouteUpdated? || l.RouteDeleted?)
    ensures var c' := Apply(c, l); Replay(Wanted(c.live), c'.pending) == Some(Wanted(c'.live)) && LiveOk(c'.live)
  {
    hide PathKey;
    var w, w' := Wanted(c.live), Wanted(Apply(c, l).live);
    match l {
      case RouteAdded(r) =>
        assert w' == w[RouteKey(r) := SecretKey(r)];
        assert Replay(w', []) == Some(w') && OnAdd(r)[1..] == [];
      case RouteUpdated(r) =>
        assert w' == w[RouteKey(r) := SecretKey(r)];
        UpdateReplay(w, c.live[RouteKey(r)], r);
      case RouteDeleted(k) =>
        assert w' == w - {k};
        assert Replay(w', []) == Some(w') && OnDelete(c.live[k])[1..] == [];
    }
  }

  /** The events of an update lead from the old reference to the new one. */
  lemma UpdateReplay(w: Keyed, before: Route, after: Route)
    requires before.ns == after.ns && before.name == after.name
    requires RouteKey(before) in w && w[RouteKey(before)] == SecretKey(before)
    ensures Replay(w, OnUpdate(before, after)) == Some(w[RouteKey(after) := SecretKey(after)])
  {
    hide PathKey;
    var k := RouteKey(before);
    if before.secret != after.secret {
      var es := OnUpdate(before, after);
      assert es[1..] == [Added(after)];
      assert Replay(w - {k}, [Added(after)]) == Some((w - {k})[k := SecretKey(after)]);
      assert (w - {k})[k := SecretKey(after)] == w[k := SecretKey(after)];
    } else {
      assert w[k := SecretKey(after)] == w;
    }
  }

  lemma DeliverInv(c: State, i: nat)
    requires Inv(c) && i < |c.inflight|
    ensures Inv(Apply(c, Deliver(i)))
  {
    hide PathKey, ManagerOk, LiveOk, Replay, Wanted, Registry;
    var held := if c.worker.Resting? then [] else [c.worker.event];
    assert ToDo(c) == (held + c.queue) + c.pending;
    assert ToDo(Apply(c, Deliver(i))) == (held + c.queue) + [c.inflight[i]] + c.pending;
    ReplayInsert(Registry(c.manager), held + c.queue, c.inflight[i], c.pending);
  }

  lemma QueueInv(c: State, l: Label)
    requires Inv(c) && Enabled(c, l) && (l.Enqueue? || l.Take? || l.Distribute? || l.Greet? || l.Deliver? || l.Lose?)
    ensures Inv(Apply(c, l))
  {
    hide PathKey, ManagerOk, LiveOk, Replay, Wanted, Registry;
    var c' := Apply(c, l);
    match l
    case Enqueue => assert ToDo(c') == ToDo(c);
    case Take => assert ToDo(c') == ToDo(c);
    case Distribute(key, order) => NotificationsAreModified(Spec.Handlers(c.manager.monitor, key), order);
    case Greet(key, id) =>
    case Deliver(i) => DeliverInv(c, i);
    case Lose(i) =>
  }

  lemma {:induction false} NotificationsAreModified(handlers: map<nat, Handler>, order: seq<nat>)
    requires forall id | id in order :: id in handlers
    ensures forall e | e in Notifications(handlers, order) :: e.Modified?
    ensures |Notifications(handlers, order)| == |order|
  {
    if order != [] {
      NotificationsAreModified(handlers, order[1..]);
    }
  }

  lemma PrepareInv(c: State)
    requires Inv(c) && Enabled(c, Prepare)
    ensures Inv(Apply(c, Prepare))
  {
    hide PathKey;
    var c' := Apply(c, Prepare);
    Manager.InvStep(c.manager, Manager.SetHandler(Handler(c.worker.event.route)));
    assert Registry(c'.manager) == Registry(c.manager);
    assert ToDo(c') == ToDo(c);
  }

  lemma ReplayHead(reg: Keyed, e: Event, rest: seq<Event>, end: Keyed)
    requires Replay(reg, [e] + rest) == Some(end)
    ensures ReplayOne(reg, e).Some? && Replay(ReplayOne(reg, e).value, rest) == Some(end)
  {
    hide RouteKey;
    assert ([e] + rest)[1..] == rest;
  }

  /** What handling the held event keeps. */
  lemma HandleConverges(c: State, m: Manager.State, rest: seq<Event>, env: Spec.Env, lenient: bool)
    requires ManagerOk(m) && !c.worker.Resting? && Spec.EnvOk(SecretKey(c.worker.event.route), env) && !env.cancelled
    requires c.worker.event.Added? ==> m.handler == Some(Handler(c.worker.event.route))
    requires Replay(Registry(m), [c.worker.event] + rest) == Some(Wanted(c.live))
    ensures var m' := HandleRoute(m, c.worker.event, env, lenient).0;
            ManagerOk(m') && Replay(Registry(m'), rest) == Some(Wanted(c.live))
  {
    ReplayHead(Registry(m), c.worker.event, rest, Wanted(c.live));
    assert Manager.Wf(m);
    hide HandleRoute, ManagerOk, ReplayOne, Replay, Registry, Wanted, SecretKey;
    HandleMatchesReplay(m, c.worker.event, env, lenient);
  }

  lemma HeldFirst(c: State)
    requires !c.worker.Resting?
    ensures ToDo(c) == [c.worker.event] + (c.queue + c.pending)
    ensures forall m :: ToDo(c.(worker := Resting, manager := m)) == c.queue + c.pending
  {
  }

  lemma HandledInv(c: State, env: Spec.Env, lenient: bool)
    requires Inv(c) && !c.worker.Resting? && (c.worker.event.Added? ==> c.worker.HandlerSet?)
    requires Spec.EnvOk(SecretKey(c.worker.event.route), env) && !env.cancelled
    ensures Inv(c.(worker := Resting, manager := HandleRoute(c.manager, c.worker.event, env, lenient).0))
  {
    HeldFirst(c);
    assert Manager.Wf(c.manager);
    hide HandleRoute, ManagerOk, LiveOk, Replay, Registry, Wanted, RouteKey, SecretKey, ToDo;
    HandleConverges(c, c.manager, c.queue + c.pending, env, lenient);
  }

  lemma HandleInv(c: State, l: Label)
    requires Inv(c) && Enabled(c, l) && l.Handle?
    ensures Inv(Apply(c, l))
  {
    hide HandleRoute, Inv;
    HandledInv(c, l.env, l.lenient);
  }

  lemma EnvironmentInv(c: State, step: Spec.Label)
    requires Inv(c) && Enabled(c, Environment(step))
    ensures Inv(Apply(c, Environment(step)))
  {
    hide PathKey;
    Manager.EnvironmentInv(c.manager, step);
    Manager.RunningStep(c.manager, Manager.Environment(step));
    RoutedAfterEnvironment(c.manager.monitor, c.manager.registered, step);
    assert Registry(Apply(c, Environment(step)).manager) == Registry(c.manager);
  }

  lemma RoutedAfterEnvironment(s: Spec.State, registered: Manager.Registry, step: Spec.Label)
    requires Spec.Wf(s) && Routed(s, registered) && Spec.Enabled(s, step) && (step.RunEnds? || step.StoreChanges?)
    ensures Routed(Spec.Apply(s, step), registered)
  {
    hide PathKey;
    Spec.EnvironmentEffect(s, step);
    forall k | k in registered ensures RoutedAt(Spec.Apply(s, step), registered, k) {
      assert RoutedAt(s, registered, k);
    }
  }

  lemma InvStep(c: State, l: Label)
    requires Inv(c) && Enabled(c, l)
    ensures Inv(Apply(c, l))
  {
    hide PathKey;
    if l.RouteAdded? || l.RouteUpdated? || l.RouteDeleted? {
      CallbackInv(c, l);
    } else if l.Prepare? {
      PrepareInv(c);
    } else if l.Handle? {
      HandleInv(c, l);
    } else if l.Environment? {
      EnvironmentInv(c, l.step);
    } else {
      QueueInv(c, l);
    }
  }

  lemma {:induction false} InvRun(c: State, run: seq<Label>)
    requires Inv(c) && IsRun(c, run)
    ensures Inv(After(c, run))
    decreases |run|
  {
    if run != [] {
      InvStep(c, run[0]);
      InvRun(Apply(c, run[0]), run[1..]);
    }
  }

  // ---- Convergence ----

  /** No callback is running, the queue is empty and the worker rests. */
  predicate Quiet(c: State) {
    c.pending == [] && c.queue == [] && c.worker.Resting?
  }

  /**
   In every run: replaying what is queued over the registry gives exactly the live routes with their current
   secrets, so once things are quiet the registry is the live routes.
   */
  lemma Convergence(run: seq<Label>)
    requires IsRun(INIT, run)
    ensures var c := After(INIT, run);
            && Replay(Registry(c.manager), ToDo(c)) == Some(Wanted(c.live))
            && (Quiet(c) ==> Registry(c.manager) == Wanted(c.live))
  {
    InitInv();
    InvRun(INIT, run);
  }

  lemma QuietMeansConverged(c: State)
    requires Inv(c) && Quiet(c)
    ensures Registry(c.manager) == Wanted(c.live)
  {
    hide PathKey, ManagerOk, LiveOk;
    assert ToDo(c) == [];
  }

  lemma InitInv()
    ensures Inv(INIT)
  {
    assert Registry(INIT.manager) == Wanted(INIT.live) == map[];
  }

  /** In every run, no addition and no deletion that the worker takes from the queue is rejected. */
  lemma NothingRejected(run: seq<Label>, env: Spec.Env, lenient: bool)
    requires IsRun(INIT, run) && Enabled(After(INIT, run), Handle(env, lenient))
    ensures var c := After(INIT, run);
            !c.worker.event.Modified? ==> HandleRoute(c.manager, c.worker.event, env, lenient).1.Ok?
  {
    InitInv();
    InvRun(INIT, run);
    var c := After(INIT, run);
    assert ToDo(c)[0] == c.worker.event;
    hide HandleRoute;
    HandleMatchesReplay(c.manager, c.worker.event, env, lenient);
  }

  /**
   In every reachable state: a notification changes nothing, and it succeeds exactly if the route's text is registered and
   an object of the namespace and name it is registered with is cached by its monitor; the error says which is missing.
   */
  lemma NotificationOutcome(run: seq<Label>, route: Route, env: Spec.Env, lenient: bool)
    requires IsRun(INIT, run)
    ensures var m := After(INIT, run).manager;
            NotificationReads(m, route, HandleRoute(m, Modified(route), env, lenient))
  {
    InitInv();
    InvRun(INIT, run);
    ReadsRoute(After(INIT, run).manager, route, env, lenient);
  }

  ghost predicate NotificationReads(m: Manager.State, route: Route, out: (Manager.State, Result<()>))
    requires Manager.Wf(m)
  {
    var k := RouteKey(route);
    && out.0 == m
    && (out.1.Ok? <==> k in m.registered && Manager.Cached(m, m.registered[k].key))
    && (out.1.Err? ==> out.1.error == if k in m.registered then NotFound else NotRegistered)
  }

  lemma ReadsRoute(m: Manager.State, route: Route, env: Spec.Env, lenient: bool)
    requires Manager.Inv(m)
    ensures NotificationReads(m, route, HandleRoute(m, Modified(route), env, lenient))
  {
    hide PathKey, Manager.GetSecret, Manager.Cached, Manager.Inv;
    Manager.ReadOutcome(m, route.ns, route.name);
  }

  /** When things are quiet, the secrets that are monitored are those of the live routes, each counted once a route. */
  lemma MonitorsMatchLiveRoutes(run: seq<Label>, key: ObjectKey)
    requires IsRun(INIT, run) && Quiet(After(INIT, run))
    ensures var c := After(INIT, run);
            var users := set k | k in c.live && SecretKey(c.live[k]) == key;
            && (key in c.manager.monitor.monitors <==> users != {})
            && (key in c.manager.monitor.monitors ==> c.manager.monitor.monitors[key].count == |users|)
  {
    InitInv();
    InvRun(INIT, run);
    var c := After(INIT, run);
    var users := set k | k in c.live && SecretKey(c.live[k]) == key;
    Convergence(run);
    UsersAreWatchers(c.manager.registered, c.live, key);
    Manager.MonitoredIffRegistered(c.manager, key);
    if key in c.manager.monitor.monitors {
      Manager.CountsAreRoutes(c.manager, key);
    }
  }

  lemma UsersAreWatchers(registered: Manager.Registry, live: map<string, Route>, key: ObjectKey)
    requires (map k | k in registered :: registered[k].key) == Wanted(live)
    ensures Manager.Watchers(registered, key) == set k | k in live && SecretKey(live[k]) == key
  {
    var reg: Keyed := map k | k in registered :: registered[k].key;
    forall k ensures k in registered <==> k in live {
      assert k in reg <==> k in Wanted(live);
    }
    forall k | k in live ensures registered[k].key == SecretKey(live[k]) {
      assert reg[k] == Wanted(live)[k];
    }
  }

  // ---- Notification routing ----

  function CountFor(events: seq<Event>, k: string): nat {
    if events == [] then 0
    else (if RouteKey(events[0].route) == k then 1 else 0) + CountFor(events[1..], k)
  }

  lemma {:induction false} CountNone(handlers: map<nat, Handler>, order: seq<nat>, k: string)
    requires forall id | id in order :: id in handlers && RouteKey(handlers[id].route) != k
    ensures CountFor(Notifications(handlers, order), k) == 0
  {
    if order != [] {
      CountNone(handlers, order[1..], k);
      assert Notifications(handlers, order)[1..] == Notifications(handlers, order[1..]);
    }
  }

  lemma {:induction false} CountOne(handlers: map<nat, Handler>, order: seq<nat>, k: string, own: nat)
    requires forall id | id in order :: id in handlers && (RouteKey(handlers[id].route) == k <==> id == own)
    requires own in order && forall i, j | 0 <= i < j < |order| :: order[i] != order[j]
    ensures CountFor(Notifications(handlers, order), k) == 1
  {
    assert Notifications(handlers, order)[1..] == Notifications(handlers, order[1..]);
    if order[0] == own {
      assert own !in order[1..];
      CountNone(handlers, order[1..], k);
    } else {
      CountOne(handlers, order[1..], k, own);
    }
  }

  /**
   In every reachable state: an event on a secret, distributed to the listeners in any order, makes exactly one
   notification for each route registered with that secret, and none for any other route.
   */
  lemma NotificationRouting(run: seq<Label>, key: ObjectKey, order: seq<nat>, k: string)
    requires IsRun(INIT, run) && Enabled(After(INIT, run), Distribute(key, order))
    ensures var m := After(INIT, run).manager;
            CountFor(Notifications(Spec.Handlers(m.monitor, key), order), k)
              == if k in Manager.Watchers(m.registered, key) then 1 else 0
  {
    InitInv();
    InvRun(INIT, run);
    RoutedNotifications(After(INIT, run).manager, key, order, k);
  }

  lemma RoutedNotifications(m: Manager.State, key: ObjectKey, order: seq<nat>, k: string)
    requires ManagerOk(m) && key in m.monitor.monitors && Visits(Spec.Handlers(m.monitor, key), order)
    ensures CountFor(Notifications(Spec.Handlers(m.monitor, key), order), k)
              == if k in Manager.Watchers(m.registered, key) then 1 else 0
  {
    hide PathKey;
    var handlers := Spec.Handlers(m.monitor, key);
    var routes := Manager.Watchers(m.registered, key);
    Manager.CountsAreRoutes(m, key);
    forall id | id in handlers
      ensures exists j :: j in routes && m.registered[j].id == id && RouteKey(handlers[id].route) == j {
      var j :| j in routes && m.registered[j].id == id;
      assert RoutedAt(m.monitor, m.registered, j);
    }
    if k in routes {
      assert RoutedAt(m.monitor, m.registered, k);
      CountOne(handlers, order, k, m.registered[k].id);
    } else {
      CountNone(handlers, order, k);
    }
  }

  // ---- Whole callbacks and whole events ----

  /** A callback that has put everything it has on the queue. */
  function Enqueued(c: State): State {
    c.(queue := c.queue + c.pending, pending := [])
  }

  lemma {:induction false} EnqueuedInv(c: State)
    requires Inv(c)
    ensures Inv(Enqueued(c))
    decreases |c.pending|
  {
    hide PathKey;
    if c.pending == [] {
      assert Enqueued(c) == c;
    } else {
      QueueInv(c, Enqueue);
      EnqueuedInv(Apply(c, Enqueue));
      assert Enqueued(Apply(c, Enqueue)) == Enqueued(c);
    }
  }

  /** The worker takes the next event and handles it, without anything happening in between. */
  ghost predicate CanProcess(c: State, env: Spec.Env) {
    c.worker.Resting? && c.queue != [] && Spec.EnvOk(SecretKey(c.queue[0].route), env) && !env.cancelled
  }

  function Processed(c: State, env: Spec.Env, lenient: bool): (c': State)
    requires Manager.Wf(c.manager) && c.queue != []
    ensures Manager.Wf(c'.manager)
  {
    var e := c.queue[0];
    var m := if e.Added? then SetHandler(c.manager, e.route) else c.manager;
    c.(queue := c.queue[1..], manager := HandleRoute(m, e, env, lenient).0)
  }

  /** Processing is a run of the worker's own steps. */
  lemma ProcessedSteps(c: State, env: Spec.Env, lenient: bool)
    requires Manager.Wf(c.manager) && CanProcess(c, env)
    ensures Enabled(c, Take) && var c1 := Apply(c, Take);
            if c.queue[0].Added? then
              Enabled(c1, Prepare) && Enabled(Apply(c1, Prepare), Handle(env, lenient))
              && Apply(Apply(c1, Prepare), Handle(env, lenient)) == Processed(c, env, lenient)
            else
              Enabled(c1, Handle(env, lenient)) && Apply(c1, Handle(env, lenient)) == Processed(c, env, lenient)
  {
    hide HandleRoute;
  }

  lemma ProcessedInv(c: State, env: Spec.Env, lenient: bool)
    requires Inv(c) && CanProcess(c, env)
    ensures Inv(Processed(c, env, lenient))
  {
    hide Apply, Enabled, Processed, ManagerOk, LiveOk, Converging;
    ProcessedSteps(c, env, lenient);
    var c1 := Apply(c, Take);
    InvStep(c, Take);
    if c.queue[0].Added? {
      InvStep(c1, Prepare);
      InvStep(Apply(c1, Prepare), Handle(env, lenient));
    } else {
      InvStep(c1, Handle(env, lenient));
    }
  }

  /** Notifications that are delivered at once. */
  lemma NotifiedInv(c: State, events: seq<Event>)
    requires Inv(c) && c.pending == [] && forall e | e in events :: e.Modified?
    ensures Inv(c.(queue := c.queue + events))
    decreases |events|
  {
    hide PathKey, ManagerOk, LiveOk;
    if events == [] {
      assert c.queue + events == c.queue;
    } else {
      var c1 := c.(queue := c.queue + [events[0]]);
      assert ToDo(c1) == ToDo(c) + [events[0]] + [] && ToDo(c) == ToDo(c) + [];
      ReplayInsert(Registry(c.manager), ToDo(c), events[0], []);
      NotifiedInv(c1, events[1..]);
      assert c1.queue + events[1..] == c.queue + events;
    }
  }

  /** Why there is one worker: a second one that prepares meanwhile makes the first register the wrong handler. */
  lemma TwoWorkersMisroute(m: Manager.State, mine: Route, other: Route, env: Spec.Env)
    requires Manager.Inv(m) && Manager.AllRunning(m) && RouteKey(mine) !in m.registered && RouteKey(other) != RouteKey(mine)
    requires Spec.EnvOk(SecretKey(mine), env) && !env.cancelled
    ensures var (m', r) := Manager.Register(SetHandler(SetHandler(m, mine), other), mine.ns, mine.name, mine.secret, env);
            && r.Ok? && RouteKey(mine) in m'.registered
            && Spec.Live(m'.monitor, m'.registered[RouteKey(mine)])
            && Captured(m'.monitor, m'.registered[RouteKey(mine)]) == other
  {
    hide PathKey;
    hide Spec.Add;
    Spec.AddSucceedsIff(m.monitor, SecretKey(mine), Some(Handler(other)), env);
  }
}
