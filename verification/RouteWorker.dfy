/** The route controller as an object: callbacks, generated handlers, and the worker's loop. */
module RouteWorker {
  import opened Base
  import opened SecretManager
  import opened WorkQueues
  import Monitor = SecretSpec
  import ManagerSpec
  import Spec = RouteController

  class Controller {
    const queue: WorkQueue<Spec.Event>
    const manager: Manager
    var indexer: map<string, Route>
    ghost var queued: map<string, Route>  // the index as of the last event that the queue took

    /** The state between two callbacks and two events of the worker. */
    ghost function State(): Spec.State
      reads this, queue, manager, manager.monitor
    {
      Spec.State(queued, [], queue.items, Spec.Resting, [], manager.State())
    }

    ghost predicate Valid()
      reads this, queue, manager, manager.monitor, manager.monitor.all, manager.monitor.monitors.Values
    {
      && manager.resourceChanges == queue && manager.Valid() && Spec.Inv(State())
      && (!queue.shuttingDown ==> queued == indexer)
    }

    ghost function Repr(): set<object>
      reads this, manager, manager.monitor
    {
      {this, queue} + manager.Repr()
    }

    constructor ()
      ensures Valid() && State() == Spec.INIT && indexer == map[] && !queue.shuttingDown && fresh(Repr())
    {
      hide Spec.Inv, Manager.Valid;
      var q := new WorkQueue<Spec.Event>();
      queue, indexer, queued := q, map[], map[];
      manager := new Manager(q);
      new;
      Spec.InitInv();
    }

    // ---- The callbacks of the route informer ----

    method RouteAdded(route: Route)
      requires Valid() && RouteKey(route) !in indexer
      modifies this, queue
      ensures Valid() && indexer == old(indexer)[RouteKey(route) := route] && queue.shuttingDown == old(queue.shuttingDown)
      ensures State() == if queue.shuttingDown then old(State())
                         else Spec.Enqueued(Spec.Apply(old(State()), Spec.RouteAdded(route)))
    {
      hide PathKey, Spec.Inv, Manager.Valid;
      if !queue.shuttingDown {
        Spec.InvStep(State(), Spec.RouteAdded(route));
        Spec.EnqueuedInv(Spec.Apply(State(), Spec.RouteAdded(route)));
      }
      indexer := indexer[RouteKey(route) := route];
      queued := if queue.shuttingDown then queued else indexer;
      queue.Add(Spec.Added(route));
    }

    /** Only a changed reference matters: the old watch is removed before the new one is made. */
    method RouteUpdated(route: Route)
      requires Valid() && RouteKey(route) in indexer
      requires indexer[RouteKey(route)].ns == route.ns && indexer[RouteKey(route)].name == route.name
      modifies this, queue
      ensures Valid() && indexer == old(indexer)[RouteKey(route) := route] && queue.shuttingDown == old(queue.shuttingDown)
      ensures State() == if queue.shuttingDown then old(State())
                         else Spec.Enqueued(Spec.Apply(old(State()), Spec.RouteUpdated(route)))
    {
      hide PathKey, Spec.Inv, Manager.Valid;
      if !queue.shuttingDown {
        Spec.InvStep(State(), Spec.RouteUpdated(route));
        Spec.EnqueuedInv(Spec.Apply(State(), Spec.RouteUpdated(route)));
      }
      var before := indexer[RouteKey(route)];
      indexer := indexer[RouteKey(route) := route];
      queued := if queue.shuttingDown then queued else indexer;
      if before.secret != route.secret {
        queue.Add(Spec.Deleted(before));
        queue.Add(Spec.Added(route));
      }
      assert !queue.shuttingDown ==> queue.items == old(queue.items) + Spec.OnUpdate(before, route);
    }

    method RouteDeleted(key: string)
      requires Valid() && key in indexer
      modifies this, queue
      ensures Valid() && indexer == old(indexer) - {key} && queue.shuttingDown == old(queue.shuttingDown)
      ensures State() == if queue.shuttingDown then old(State())
                         else Spec.Enqueued(Spec.Apply(old(State()), Spec.RouteDeleted(key)))
    {
      hide PathKey, Spec.Inv, Manager.Valid;
      if !queue.shuttingDown {
        Spec.InvStep(State(), Spec.RouteDeleted(key));
        Spec.EnqueuedInv(Spec.Apply(State(), Spec.RouteDeleted(key)));
      }
      queue.Add(Spec.Deleted(indexer[key]));
      indexer := indexer - {key};
      queued := if queue.shuttingDown then queued else indexer;
    }

    // ---- The generated handlers ----

    /** Every event on a secret, whatever its kind, runs a closure that was generated for a route. */
    method SecretChanged(handler: Handler)
      requires Valid()
      modifies queue
      ensures Valid() && queue.shuttingDown == old(queue.shuttingDown)
      ensures queue.items == old(queue.items) + if queue.shuttingDown then [] else [Spec.Modified(handler.route)]
    {
      hide PathKey, Spec.Inv, Manager.Valid;
      Spec.NotifiedInv(State(), [Spec.Modified(handler.route)]);
      queue.Add(Spec.Modified(handler.route));
    }

    /** Visits listeners one after another. */
    method Visit(handlers: map<nat, Handler>, order: seq<nat>)
      requires Valid() && forall id | id in order :: id in handlers
      modifies queue
      ensures Valid() && queue.shuttingDown == old(queue.shuttingDown)
      ensures queue.items == if queue.shuttingDown then old(queue.items)
                             else old(queue.items) + Spec.Notifications(handlers, order)
    {
      hide PathKey, Spec.Inv, Manager.Valid;
      var i := 0;
      assert order[0..] == order;
      while i < |order|
        invariant 0 <= i <= |order| && Valid() && queue.shuttingDown == old(queue.shuttingDown)
        invariant queue.shuttingDown ==> queue.items == old(queue.items)
        invariant !queue.shuttingDown ==>
                    queue.items + Spec.Notifications(handlers, order[i..])
                      == old(queue.items) + Spec.Notifications(handlers, order)
      {
        SecretChanged(handlers[order[i]]);
        assert order[i..][1..] == order[i + 1..];
        i := i + 1;
      }
    }

    /**
     The informer of a secret visits its listeners, in any order: one notification is queued for each route that is
     registered with the secret, and none for any other route.
     */
    method Distribute(secret: ObjectKey, order: seq<nat>)
      requires Valid() && secret in manager.monitor.monitors && secret in manager.monitor.state.monitors
      requires Spec.Visits(Monitor.Handlers(manager.monitor.state, secret), order)
      modifies queue
      ensures Valid() && queue.shuttingDown == old(queue.shuttingDown)
      ensures queue.items == if queue.shuttingDown then old(queue.items)
                             else old(queue.items) + Spec.Notifications(Monitor.Handlers(manager.monitor.state, secret), order)
      ensures forall k ::
                Spec.CountFor(Spec.Notifications(Monitor.Handlers(manager.monitor.state, secret), order), k)
                  == if k in ManagerSpec.Watchers(manager.registeredHandlers, secret) then 1 else 0
    {
      hide PathKey, Spec.Inv, Manager.Valid, Spec.Notifications, Spec.CountFor;
      Routing(secret, order);
      var handlers := Handlers(secret);
      Visit(handlers, order);
    }

    method Handlers(secret: ObjectKey) returns (handlers: map<nat, Handler>)
      requires Valid() && secret in manager.monitor.monitors
      ensures secret in manager.monitor.state.monitors && handlers == Monitor.Handlers(manager.monitor.state, secret)
    {
      handlers := manager.monitor.Listeners(secret);
    }

    lemma Routing(secret: ObjectKey, order: seq<nat>)
      requires Valid() && secret in manager.monitor.state.monitors
      requires Spec.Visits(Monitor.Handlers(manager.monitor.state, secret), order)
      ensures forall k :: Spec.CountFor(Spec.Notifications(Monitor.Handlers(manager.monitor.state, secret), order), k)
                == if k in ManagerSpec.Watchers(manager.registeredHandlers, secret) then 1 else 0
    {
      forall k ensures Spec.CountFor(Spec.Notifications(Monitor.Handlers(manager.monitor.state, secret), order), k)
                == if k in ManagerSpec.Watchers(manager.registeredHandlers, secret) then 1 else 0 {
        Spec.RoutedNotifications(manager.State(), secret, order, k);
      }
    }

    /** The queue stops taking events; what it has is still handled. */
    method ShutDown()
      requires Valid()
      modifies queue
      ensures Valid() && State() == old(State()) && queue.shuttingDown
    {
      hide PathKey, Spec.Inv, Manager.Valid;
      queue.ShutDown();
    }

    // ---- The worker ----

    /** Sets the shared handler to the one of this route, then registers the route. */
    method RegisterRoute(route: Route, env: Monitor.Env) returns (r: Result<()>)
      requires manager.Valid() && Monitor.EnvOk(SecretKey(route), env)
      modifies manager.Repr()
      ensures manager.Valid() && fresh(manager.Repr() - old(manager.Repr()))
      ensures (manager.State(), r) ==
              ManagerSpec.Register(Spec.SetHandler(old(manager.State()), route), route.ns, route.name, route.secret, env)
    {
      hide PathKey, Manager.Valid, ManagerSpec.Register;
      manager.WithSecretHandler(Handler(route));
      r := manager.RegisterRoute(route.ns, route.name, route.secret, env);
    }

    lemma Reads(route: Route, env: Monitor.Env, lenient: bool)
      requires manager.Valid()
      ensures Spec.NotificationReads(manager.State(), route, Spec.HandleRoute(manager.State(), Spec.Modified(route), env, lenient))
    {
      hide PathKey, Spec.NotificationReads, Spec.HandleRoute;
      Spec.ReadsRoute(manager.State(), route, env, lenient);
    }

    /** Handles one event by its kind; a notification reads the secret of its route, and fails if there is none. */
    method HandleRoute(e: Spec.Event, env: Monitor.Env, lenient: bool) returns (r: Result<()>)
      requires manager.Valid() && Monitor.EnvOk(SecretKey(e.route), env)
      modifies manager.Repr()
      ensures manager.Valid() && fresh(manager.Repr() - old(manager.Repr()))
      ensures var m := if e.Added? then Spec.SetHandler(old(manager.State()), e.route) else old(manager.State());
              (manager.State(), r) == Spec.HandleRoute(m, e, env, lenient)
      ensures e.Modified? ==> Spec.NotificationReads(old(manager.State()), e.route, (manager.State(), r))
    {
      hide PathKey, Manager.Valid, ManagerSpec.Register, ManagerSpec.Unregister, ManagerSpec.GetSecret, Spec.NotificationReads;
      if e.Modified? {
        Reads(e.route, env, lenient);
      }
      match e
      case Added(route) =>
        r := RegisterRoute(route, env);
      case Modified(route) =>
        var got := manager.GetSecret(route.ns, route.name);
        r := if got.Err? then Err(got.error) else Ok(());
      case Deleted(route) =>
        r := manager.UnregisterRoute(route.ns, route.name, lenient);
    }

    /** Handles the oldest event; says that there is nothing more to come once the queue was shut down and is empty. */
    method ProcessNextItem(cluster: ObjectKey -> Monitor.Env, lenient: bool) returns (more: bool)
      requires Valid() && (queue.items != [] || queue.shuttingDown)
      requires forall key :: Monitor.EnvOk(key, cluster(key)) && !cluster(key).cancelled
      modifies Repr()
      ensures Valid() && fresh(Repr() - old(Repr()))
      ensures queue.shuttingDown == old(queue.shuttingDown) && indexer == old(indexer) && queued == old(queued)
      ensures more == (old(queue.items) != [])
      ensures State() == if old(queue.items) == [] then old(State())
                         else Spec.Processed(old(State()), cluster(SecretKey(old(queue.items)[0].route)), lenient)
    {
      hide PathKey, Spec.Inv, Manager.Valid, Spec.HandleRoute;
      var item := queue.Get();
      if item.None? {
        return false;
      }
      var e := item.value;
      Spec.ProcessedInv(old(State()), cluster(SecretKey(e.route)), lenient);
      var _ := HandleRoute(e, cluster(SecretKey(e.route)), lenient);
      more := true;
    }

    /**
     The worker's loop, up to where it would wait for ever or the queue has been shut down: everything that was queued
     is handled, and the registered routes are exactly those of the index as of the last event that the queue took,
     each with its secret. Where it waits, that is the index as it is.
     */
    method RunWorker(cluster: ObjectKey -> Monitor.Env, lenient: bool) returns (waits: bool)
      requires Valid()
      requires forall key :: Monitor.EnvOk(key, cluster(key)) && !cluster(key).cancelled
      modifies Repr()
      ensures Valid() && queue.items == [] && waits == !queue.shuttingDown
      ensures queue.shuttingDown == old(queue.shuttingDown) && indexer == old(indexer) && queued == old(queued)
      ensures Spec.Registry(manager.State()) == Spec.Wanted(queued) && (waits ==> queued == indexer)
    {
      hide PathKey, Spec.Inv, Manager.Valid, Spec.HandleRoute;
      var more := true;
      while more && (queue.items != [] || queue.shuttingDown)
        invariant Valid() && fresh(Repr() - old(Repr()))
        invariant queue.shuttingDown == old(queue.shuttingDown) && indexer == old(indexer) && queued == old(queued)
        invariant !more ==> queue.items == [] && queue.shuttingDown
        decreases |queue.items|, more
      {
        more := ProcessNextItem(cluster, lenient);
      }
      waits := more;
      Spec.QuietMeansConverged(State());
    }
  }
}
