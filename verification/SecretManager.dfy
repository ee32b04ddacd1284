/** The route registry as an object, proved against its specification on values. */
module SecretManager {
  import opened Base
  import opened SecretWatch
  import opened WorkQueues
  import opened RouteController
  import Monitor = SecretSpec
  import Spec = ManagerSpec

  class Manager {
    const monitor: SecretMonitor
    const resourceChanges: WorkQueue<Event>
    var registeredHandlers: map<string, Registration>
    var secretHandler: Option<Handler>

    ghost function State(): Spec.State
      reads this, monitor
    {
      Spec.State(monitor.state, registeredHandlers, secretHandler)
    }

    ghost predicate Valid()
      reads this, monitor, monitor.all, monitor.monitors.Values
    {
      monitor.Valid() && Spec.Inv(State())
    }

    ghost function Repr(): set<object>
      reads this, monitor
    {
      {this} + monitor.Repr()
    }

    constructor (queue: WorkQueue<Event>)
      ensures Valid() && State() == Spec.INIT && resourceChanges == queue && fresh(Repr())
    {
      monitor := new SecretMonitor();
      resourceChanges := queue;
      registeredHandlers, secretHandler := map[], None;
    }

    method WithSecretHandler(handler: Handler)
      requires Valid()
      modifies this`secretHandler
      ensures Valid() && State() == Spec.Apply(old(State()), Spec.SetHandler(handler))
    {
      secretHandler := Some(handler);
    }

    /** Registers a route that is not registered yet; a failed add leaves the registry as it was. */
    method RegisterRoute(ns: string, routeName: string, secretName: string, env: Monitor.Env) returns (r: Result<()>)
      requires Valid() && Monitor.EnvOk(ObjectKey(ns, secretName), env)
      modifies Repr()
      ensures Valid() && fresh(Repr() - old(Repr()))
      ensures (State(), r) == Spec.Register(old(State()), ns, routeName, secretName, env)
    {
      hide PathKey, Monitor.Add, Monitor.Inv, Monitor.Faithful, Spec.OwnHandles, Spec.NoOtherHandles;
      hide SecretMonitor.Valid;
      Spec.RegisterInv(State(), ns, routeName, secretName, env);
      var key := PathKey(ns, routeName);
      if key in registeredHandlers {
        return Err(AlreadyRegistered);
      }
      var added := monitor.AddSecretEventHandler(ns, secretName, secretHandler, env);
      if added.Err? {
        return Err(added.error);
      }
      registeredHandlers := registeredHandlers[key := added.value];
      r := Ok(());
    }

    /** Unregisters a route; when its handler cannot be removed, the route stays registered. */
    method UnregisterRoute(ns: string, routeName: string, lenient: bool) returns (r: Result<()>)
      requires Valid()
      modifies Repr()
      ensures Valid() && Repr() <= old(Repr())
      ensures (State(), r) == Spec.Unregister(old(State()), ns, routeName, lenient)
    {
      hide PathKey, Monitor.Remove, Monitor.Inv, Monitor.Faithful, Spec.OwnHandles, Spec.NoOtherHandles;
      hide SecretMonitor.Valid;
      Spec.UnregisterInv(State(), ns, routeName, lenient);
      var key := PathKey(ns, routeName);
      if key !in registeredHandlers {
        return Err(NotRegistered);
      }
      var removed := monitor.RemoveSecretEventHandler(Some(registeredHandlers[key]), lenient);
      if removed.Err? {
        return Err(removed.error);
      }
      registeredHandlers := registeredHandlers - {key};
      r := Ok(());
    }

    method GetSecret(ns: string, routeName: string) returns (r: Result<SecretObject>)
      requires Valid()
      ensures r == Spec.GetSecret(State(), ns, routeName)
    {
      var key := PathKey(ns, routeName);
      if key !in registeredHandlers {
        return Err(NotRegistered);
      }
      r := monitor.GetSecret(Some(registeredHandlers[key]));
    }
  }
}
