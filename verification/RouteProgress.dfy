/**
 What becomes of events and notifications: nothing is lost, doubled or overtaken on the queue, every notification
 that goes out is accounted for, and the worker can always get through everything.
 */
module RouteProgress {
  import opened Base
  import opened RouteController
  import Spec = SecretSpec
  import Manager = ManagerSpec

  // ---- The queue is first in, first out ----

  /** What the worker has taken and not finished, and what waits behind it. */
  function Line(c: State): seq<Event> {
    (if c.worker.Resting? then [] else [c.worker.event]) + c.queue
  }

  /** What a callback of the route informer asks for. */
  ghost function CalledBy(c: State, l: Label): seq<Event>
    requires Manager.Wf(c.manager) && Enabled(c, l)
  {
    match l
    case RouteAdded(r) => [Added(r)]
    case RouteUpdated(r) =>
      var before := c.live[RouteKey(r)];
      if before.secret == r.secret then [] else [Deleted(before), Added(r)]
    case RouteDeleted(k) => [Deleted(c.live[k])]
    case _ => []
  }

  /** What a callback puts on the queue. */
  ghost function EnqueuedBy(c: State, l: Label): seq<Event>
    requires Manager.Wf(c.manager) && Enabled(c, l)
  {
    if l.Enqueue? then [c.pending[0]] else []
  }

  /** What is put on the queue at all: by callbacks, and by the handlers that listeners run. */
  ghost function EntersBy(c: State, l: Label): seq<Event>
    requires Manager.Wf(c.manager) && Enabled(c, l)
  {
    if l.Deliver? then [c.inflight[l.i]] else EnqueuedBy(c, l)
  }

  ghost function HandledBy(c: State, l: Label): seq<Event>
    requires Manager.Wf(c.manager) && Enabled(c, l)
  {
    if l.Handle? then [c.worker.event] else []
  }

  ghost function Called(c: State, run: seq<Label>): seq<Event>
    requires Manager.Wf(c.manager) && IsRun(c, run)
    decreases |run|
  {
    if run == [] then [] else CalledBy(c, run[0]) + Called(Apply(c, run[0]), run[1..])
  }

  ghost function EnqueuedIn(c: State, run: seq<Label>): seq<Event>
    requires Manager.Wf(c.manager) && IsRun(c, run)
    decreases |run|
  {
    if run == [] then [] else EnqueuedBy(c, run[0]) + EnqueuedIn(Apply(c, run[0]), run[1..])
  }

  ghost function Entered(c: State, run: seq<Label>): seq<Event>
    requires Manager.Wf(c.manager) && IsRun(c, run)
    decreases |run|
  {
    if run == [] then [] else EntersBy(c, run[0]) + Entered(Apply(c, run[0]), run[1..])
  }

  ghost function Handled(c: State, run: seq<Label>): seq<Event>
    requires Manager.Wf(c.manager) && IsRun(c, run)
    decreases |run|
  {
    if run == [] then [] else HandledBy(c, run[0]) + Handled(Apply(c, run[0]), run[1..])
  }

  lemma StepInOrder(c: State, l: Label)
    requires Manager.Wf(c.manager) && Enabled(c, l)
    ensures Line(c) + EntersBy(c, l) == HandledBy(c, l) + Line(Apply(c, l))
    ensures c.pending + CalledBy(c, l) == EnqueuedBy(c, l) + Apply(c, l).pending
  {
    hide RouteKey, HandleRoute, Notifications, Spec.Apply, Spec.Enabled, Spec.EnvOk;
  }

  /**
   In every run: what was waiting, followed by what enters, is what has been handled, followed by what still waits;
   and callbacks enqueue exactly the events that they ask for, in order.
   */
  lemma {:induction false} InOrder(c: State, run: seq<Label>)
    requires Manager.Wf(c.manager) && IsRun(c, run)
    ensures Line(c) + Entered(c, run) == Handled(c, run) + Line(After(c, run))
    ensures c.pending + Called(c, run) == EnqueuedIn(c, run) + After(c, run).pending
    decreases |run|
  {
    hide Line, Apply, Enabled, CalledBy, EnqueuedBy, EntersBy, HandledBy;
    if run != [] {
      var l, rest := run[0], run[1..];
      var c1 := Apply(c, l);
      StepInOrder(c, l);
      InOrder(c1, rest);
      assert Line(c) + (EntersBy(c, l) + Entered(c1, rest)) == (Line(c) + EntersBy(c, l)) + Entered(c1, rest);
      assert HandledBy(c, l) + (Line(c1) + Entered(c1, rest)) == (HandledBy(c, l) + Handled(c1, rest)) + Line(After(c1, rest));
      assert c.pending + (CalledBy(c, l) + Called(c1, rest)) == (c.pending + CalledBy(c, l)) + Called(c1, rest);
      assert EnqueuedBy(c, l) + (c1.pending + Called(c1, rest))
          == (EnqueuedBy(c, l) + EnqueuedIn(c1, rest)) + After(c1, rest).pending;
    }
  }

  // ---- Every notification is accounted for ----

  /** The listeners of a secret whose handler was generated for this route object. */
  ghost function Listeners(c: State, key: ObjectKey, route: Route): set<nat>
    requires Manager.Wf(c.manager) && key in c.manager.monitor.monitors
  {
    var handlers := Spec.Handlers(c.manager.monitor, key);
    set id | id in handlers && handlers[id].route == route
  }

  /** How many notifications for a route object go out. */
  ghost function SentBy(c: State, l: Label, route: Route): nat
    requires Manager.Wf(c.manager) && Enabled(c, l)
  {
    match l
    case Distribute(key, _) => |Listeners(c, key, route)|
    case Greet(key, id) => if id in Listeners(c, key, route) then 1 else 0
    case _ => 0
  }

  /** How many arrive on the queue, or are dropped. */
  ghost function EndedBy(c: State, l: Label, route: Route): nat
    requires Manager.Wf(c.manager) && Enabled(c, l)
  {
    if (l.Deliver? || l.Lose?) && c.inflight[l.i] == Modified(route) then 1 else 0
  }

  ghost function Sent(c: State, run: seq<Label>, route: Route): nat
    requires Manager.Wf(c.manager) && IsRun(c, run)
    decreases |run|
  {
    if run == [] then 0 else SentBy(c, run[0], route) + Sent(Apply(c, run[0]), run[1..], route)
  }

  ghost function Ended(c: State, run: seq<Label>, route: Route): nat
    requires Manager.Wf(c.manager) && IsRun(c, run)
    decreases |run|
  {
    if run == [] then 0 else EndedBy(c, run[0], route) + Ended(Apply(c, run[0]), run[1..], route)
  }

  function Underway(c: State, route: Route): nat {
    multiset(c.inflight)[Modified(route)]
  }

  function ListenersIn(handlers: map<nat, Handler>, order: seq<nat>, route: Route): set<nat> {
    set id | id in order && id in handlers && handlers[id].route == route
  }

  lemma OneMoreListener(handlers: map<nat, Handler>, order: seq<nat>, route: Route)
    requires order != [] && order[0] in handlers && order[0] !in order[1..]
    ensures |ListenersIn(handlers, order, route)|
         == |ListenersIn(handlers, order[1..], route)| + if handlers[order[0]].route == route then 1 else 0
  {
    var all, rest := ListenersIn(handlers, order, route), ListenersIn(handlers, order[1..], route);
    assert order == [order[0]] + order[1..];
    assert all == rest + if handlers[order[0]].route == route then {order[0]} else {};
  }

  lemma {:induction false} NotificationCount(handlers: map<nat, Handler>, order: seq<nat>, route: Route)
    requires forall id | id in order :: id in handlers
    requires forall i, j | 0 <= i < j < |order| :: order[i] != order[j]
    ensures multiset(Notifications(handlers, order))[Modified(route)] == |ListenersIn(handlers, order, route)|
  {
    if order != [] {
      OneMoreListener(handlers, order, route);
      hide ListenersIn;
      NotificationCount(handlers, order[1..], route);
    }
  }

  lemma RemovedOne(events: seq<Event>, i: nat, e: Event)
    requires i < |events|
    ensures multiset(events[..i] + events[i + 1..])[e] + (if events[i] == e then 1 else 0) == multiset(events)[e]
  {
    assert events == events[..i] + [events[i]] + events[i + 1..];
  }

  lemma DistributeCounts(c: State, l: Label, route: Route)
    requires Manager.Wf(c.manager) && Enabled(c, l) && l.Distribute?
    ensures Underway(c, route) + SentBy(c, l, route) == Underway(Apply(c, l), route)
  {
    var handlers := Spec.Handlers(c.manager.monitor, l.secret);
    NotificationCount(handlers, l.order, route);
    assert ListenersIn(handlers, l.order, route) == Listeners(c, l.secret, route);
    assert multiset(Apply(c, l).inflight) == multiset(c.inflight) + multiset(Notifications(handlers, l.order));
  }

  lemma EndCounts(c: State, l: Label, route: Route)
    requires Manager.Wf(c.manager) && Enabled(c, l) && (l.Deliver? || l.Lose?)
    ensures Underway(c, route) == Underway(Apply(c, l), route) + EndedBy(c, l, route)
  {
    RemovedOne(c.inflight, l.i, Modified(route));
  }

  lemma OtherCounts(c: State, l: Label, route: Route)
    requires Manager.Wf(c.manager) && Enabled(c, l) && !l.Deliver? && !l.Lose? && !l.Distribute?
    ensures Underway(c, route) + SentBy(c, l, route) == Underway(Apply(c, l), route)
  {
    hide RouteKey, HandleRoute, Spec.Apply, Spec.Enabled, Spec.EnvOk;
  }

  lemma StepCounts(c: State, l: Label, route: Route)
    requires Manager.Wf(c.manager) && Enabled(c, l)
    ensures Underway(c, route) + SentBy(c, l, route) == Underway(Apply(c, l), route) + EndedBy(c, l, route)
  {
    hide Apply, Enabled, Underway;
    if l.Deliver? || l.Lose? {
      EndCounts(c, l, route);
    } else if l.Distribute? {
      DistributeCounts(c, l, route);
    } else {
      OtherCounts(c, l, route);
    }
  }

  /**
   In every run and for every route object: a distribution sends one notification to each listener that was generated
   for it, and the notifications sent are those that arrived, were dropped by a removed listener, or are underway.
   */
  lemma {:induction false} NotificationsAddUp(c: State, run: seq<Label>, route: Route)
    requires Manager.Wf(c.manager) && IsRun(c, run)
    ensures Underway(c, route) + Sent(c, run, route) == Underway(After(c, run), route) + Ended(c, run, route)
    decreases |run|
  {
    hide Apply, Enabled, SentBy, EndedBy, Underway;
    if run != [] {
      StepCounts(c, run[0], route);
      NotificationsAddUp(Apply(c, run[0]), run[1..], route);
    }
  }

  // ---- The same for the registered routes ----

  /** How many notifications for a route the registry asks for. */
  ghost function OwedBy(c: State, l: Label, k: string): nat
    requires Manager.Wf(c.manager) && Enabled(c, l)
  {
    var registered := c.manager.registered;
    match l
    case Distribute(key, _) => if k in registered && registered[k].key == key then 1 else 0
    case Greet(key, id) => if k in registered && registered[k] == Registration(id, key) then 1 else 0
    case _ => 0
  }

  ghost function EndedForBy(c: State, l: Label, k: string): nat
    requires Manager.Wf(c.manager) && Enabled(c, l)
  {
    if (l.Deliver? || l.Lose?) && RouteKey(c.inflight[l.i].route) == k then 1 else 0
  }

  ghost function Owed(c: State, run: seq<Label>, k: string): nat
    requires Manager.Wf(c.manager) && IsRun(c, run)
    decreases |run|
  {
    if run == [] then 0 else OwedBy(c, run[0], k) + Owed(Apply(c, run[0]), run[1..], k)
  }

  ghost function EndedFor(c: State, run: seq<Label>, k: string): nat
    requires Manager.Wf(c.manager) && IsRun(c, run)
    decreases |run|
  {
    if run == [] then 0 else EndedForBy(c, run[0], k) + EndedFor(Apply(c, run[0]), run[1..], k)
  }

  lemma {:induction false} CountForAppend(a: seq<Event>, b: seq<Event>, k: string)
    ensures CountFor(a + b, k) == CountFor(a, k) + CountFor(b, k)
  {
    if a == [] {
      assert a + b == b;
    } else {
      assert (a + b)[1..] == a[1..] + b;
      CountForAppend(a[1..], b, k);
    }
  }

  lemma CountForRemoved(events: seq<Event>, i: nat, k: string)
    requires i < |events|
    ensures CountFor(events[..i] + events[i + 1..], k) + CountFor([events[i]], k) == CountFor(events, k)
  {
    assert events == events[..i] + ([events[i]] + events[i + 1..]);
    CountForAppend(events[..i], [events[i]] + events[i + 1..], k);
    CountForAppend([events[i]], events[i + 1..], k);
    CountForAppend(events[..i], events[i + 1..], k);
  }

  /** The route that a listener was generated for is the one registered with its handle. */
  lemma ListenerRoute(m: Manager.State, key: ObjectKey, id: nat, k: string)
    requires ManagerOk(m) && key in m.monitor.monitors && id in Spec.Handlers(m.monitor, key)
    ensures RouteKey(Spec.Handlers(m.monitor, key)[id].route) == k <==>
            k in m.registered && m.registered[k] == Registration(id, key)
  {
    hide RouteKey;
    Manager.CountsAreRoutes(m, key);
    var j :| j in Manager.Watchers(m.registered, key) && m.registered[j].id == id;
    assert RoutedAt(m.monitor, m.registered, j);
    if k in m.registered && m.registered[k] == Registration(id, key) {
      Manager.SameId(m.registered, j, k);
    }
  }

  lemma StepPays(c: State, l: Label, k: string)
    requires Inv(c) && Enabled(c, l)
    ensures CountFor(c.inflight, k) + OwedBy(c, l, k) == CountFor(Apply(c, l).inflight, k) + EndedForBy(c, l, k)
  {
    hide RouteKey, HandleRoute, Notifications, Spec.Apply, Spec.Enabled, Spec.EnvOk, ManagerOk, LiveOk, Converging;
    var m := c.manager;
    match l
    case Distribute(key, order) =>
      CountForAppend(c.inflight, Notifications(Spec.Handlers(m.monitor, key), order), k);
      RoutedNotifications(m, key, order, k);
    case Greet(key, id) =>
      CountForAppend(c.inflight, [Modified(Spec.Handlers(m.monitor, key)[id].route)], k);
      ListenerRoute(m, key, id, k);
    case Deliver(i) => CountForRemoved(c.inflight, i, k);
    case Lose(i) => CountForRemoved(c.inflight, i, k);
    case _ =>
  }

  /**
   In every run and for every route: each event on the secret that it is registered with at that time, and each greeting
   of its handle, makes one notification, and these are the ones that arrived, were dropped, or are underway.
   */
  lemma {:induction false} EachEventNotifiesOnce(c: State, run: seq<Label>, k: string)
    requires Inv(c) && IsRun(c, run)
    ensures CountFor(c.inflight, k) + Owed(c, run, k) == CountFor(After(c, run).inflight, k) + EndedFor(c, run, k)
    decreases |run|
  {
    hide ManagerOk, LiveOk, Converging, Apply, Enabled, OwedBy, EndedForBy, CountFor;
    if run != [] {
      StepPays(c, run[0], k);
      InvStep(c, run[0]);
      EachEventNotifiesOnce(Apply(c, run[0]), run[1..], k);
    }
  }

  // ---- Everything can be handled ----

  /** Steps of callbacks, listeners and the worker: nothing new happens in the cluster, and nothing is dropped. */
  predicate Working(l: Label) {
    l.Enqueue? || l.Deliver? || l.Take? || l.Prepare? || l.Handle?
  }

  function Work(c: State): nat {
    4 * |c.pending| + 4 * |c.inflight| + 3 * |c.queue|
    + match c.worker
      case Resting => 0
      case Holding(e) => if e.Added? then 2 else 1
      case HandlerSet(_) => 1
  }

  function Next(c: State, cluster: ObjectKey -> Spec.Env, lenient: bool): Label {
    if c.pending != [] then Enqueue
    else if c.inflight != [] then Deliver(0)
    else if c.worker.Resting? then Take
    else if c.worker.Holding? && c.worker.event.Added? then Prepare
    else Handle(cluster(SecretKey(c.worker.event.route)), lenient)
  }

  /** What a step of the work does: one thing less to do, and what is handled comes off the front. */
  ghost predicate Works(c: State, l: Label)
    requires Manager.Wf(c.manager)
  {
    && Working(l) && Enabled(c, l)
    && Work(Apply(c, l)) < Work(c) && Apply(c, l).live == c.live
    && Line(c) + c.pending + c.inflight
         == HandledBy(c, l) + (Line(Apply(c, l)) + Apply(c, l).pending + Apply(c, l).inflight)
  }

  lemma QueueingWorks(c: State)
    requires Manager.Wf(c.manager)
    ensures c.pending != [] ==> Works(c, Enqueue)
    ensures c.pending == [] && c.inflight != [] ==> Works(c, Deliver(0))
  {
    hide RouteKey, SecretKey, HandleRoute, Notifications, Spec.Apply, Spec.Enabled, Spec.EnvOk;
  }

  lemma HandlingWorks(c: State, env: Spec.Env, lenient: bool)
    requires Manager.Wf(c.manager)
    ensures c.worker.Resting? && c.queue != [] ==> Works(c, Take)
    ensures c.worker.Holding? && c.worker.event.Added? ==> Works(c, Prepare)
    ensures Enabled(c, Handle(env, lenient)) ==> Works(c, Handle(env, lenient))
  {
    hide RouteKey, SecretKey, HandleRoute, Notifications, Spec.Apply, Spec.Enabled, Spec.EnvOk;
  }

  lemma NextWorks(c: State, cluster: ObjectKey -> Spec.Env, lenient: bool)
    requires Manager.Wf(c.manager) && Work(c) > 0
    requires forall key :: Spec.EnvOk(key, cluster(key)) && !cluster(key).cancelled
    ensures Works(c, Next(c, cluster, lenient))
  {
    QueueingWorks(c);
    if !c.worker.Resting? {
      HandlingWorks(c, cluster(SecretKey(c.worker.event.route)), lenient);
    } else {
      HandlingWorks(c, cluster(ObjectKey("", "")), lenient);
    }
    hide Works, Apply, SecretKey, Spec.EnvOk;
  }

  /**
   From every reachable state, within four steps for each event and notification there is: everything is handled, in
   order and once each, and then the registry is the live routes with their secrets.
   */
  lemma {:induction false} EverythingIsHandled(c: State, cluster: ObjectKey -> Spec.Env, lenient: bool)
    returns (run: seq<Label>)
    requires Inv(c) && forall key :: Spec.EnvOk(key, cluster(key)) && !cluster(key).cancelled
    ensures IsRun(c, run) && |run| <= Work(c) && forall l | l in run :: Working(l)
    ensures Handled(c, run) == Line(c) + c.pending + c.inflight
    ensures var c' := After(c, run);
            Quiet(c') && c'.inflight == [] && c'.live == c.live && Registry(c'.manager) == Wanted(c.live)
    decreases Work(c)
  {
    hide RouteKey, SecretKey, Apply, Enabled, Spec.EnvOk, ManagerOk, LiveOk, Converging, HandledBy, Next;
    if Work(c) == 0 {
      run := [];
      QuietMeansConverged(c);
    } else {
      var l := Next(c, cluster, lenient);
      NextWorks(c, cluster, lenient);
      InvStep(c, l);
      var rest := EverythingIsHandled(Apply(c, l), cluster, lenient);
      run := [l] + rest;
      assert run[1..] == rest;
    }
  }
}
