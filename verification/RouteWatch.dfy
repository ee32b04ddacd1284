/** The per-route monitors and their registry as objects, proved against their specifications on values. */
module RouteWatch {
  import opened Base
  import opened RouteNames
  import Single = ItemMonitor
  import Spec = RouteMonitorSpec
  import ManagerSpec = RouteManagerSpec

  class SingleItemMonitor {
    const key: ObjectKey
    const selector: ObjectKey
    const serial: nat  // its position among all monitors of its owner
    var informer: Single.Informer
    var numHandlers: int
    var stopped: bool
    var closes: nat

    ghost function Value(): Spec.Item
      reads this
    {
      Spec.Item(key, selector, numHandlers, stopped, closes, informer)
    }

    constructor (key: ObjectKey, selector: ObjectKey, serial: nat)
      ensures Value() == Spec.NewItem(key, selector)
      ensures this.key == key && this.selector == selector && this.serial == serial
    {
      this.key, this.selector, this.serial := key, selector, serial;
      informer := Single.Informer(false, false, false, map[], map[]);
      numHandlers, stopped, closes := 0, false, 0;
    }

    method StopInformer() returns (ok: bool)
      requires !stopped ==> closes == 0  // closing a closed channel panics
      modifies this
      ensures Value() == Spec.StopItem(old(Value())) && ok == !old(stopped)
    {
      if stopped {
        return false;
      }
      stopped, closes := true, closes + 1;
      ok := true;
    }

    method AddEventHandler(handler: Handler, id: nat) returns (r: Result<Registration>)
      modifies this
      ensures (Value(), r) == Spec.AddHandler(old(Value()), id, handler)
    {
      if stopped {
        return Err(InformerStopped);
      }
      match Single.AddTo(informer, id, handler) {
        case None => r := Err(InformerStopped);
        case Some(inf) =>
          informer, numHandlers := inf, numHandlers + 1;
          r := Ok(Registration(id, key));
      }
    }

    method RemoveEventHandler(reg: Registration, lenient: bool) returns (r: Result<()>)
      modifies this
      ensures (Value(), r) == Spec.RemoveHandler(old(Value()), reg, lenient)
    {
      match Single.RemoveFrom(informer, reg.id, lenient) {
        case None => r := Err(UnknownHandle);
        case Some(inf) =>
          informer, numHandlers := inf, numHandlers - 1;
          r := Ok(());
      }
    }

    method GetItem(name: string) returns (item: Option<SecretObject>)
      ensures item == Spec.Lookup(Value(), name)
    {
      var k := PathKey(key.ns, name);
      item := if k in informer.store then Some(informer.store[k]) else None;
    }
  }

  class SecretMonitor {
    var monitors: map<ObjectKey, SingleItemMonitor>
    var created: nat
    var nextHandle: nat
    ghost var all: seq<SingleItemMonitor>  // every monitor ever created, also those dropped from the map
    ghost var state: Spec.State

    /** The value agrees with the objects. */
    ghost predicate Shape()
      reads this, all
    {
      && created == |all| == |state.items| && nextHandle == state.next
      && (forall i | 0 <= i < |all| :: all[i].serial == i && all[i].Value() == state.items[i])
      && monitors.Keys == state.monitors.Keys
      && (forall k | k in monitors ::
           monitors[k].serial < |all| && monitors[k] == all[monitors[k].serial] && state.monitors[k] == monitors[k].serial)
    }

    ghost predicate Valid()
      reads this, all
    {
      Shape() && Spec.Inv(state)
    }

    /** All objects it owns. */
    ghost function Repr(): set<object>
      reads this
    {
      {this} + (set n: SingleItemMonitor | n in all)
    }

    constructor ()
      ensures Valid() && state == Spec.INIT && fresh(Repr())
    {
      monitors, created, nextHandle, all, state := map[], 0, 0, [], Spec.INIT;
    }

    /** Adds a handler for a valid name, and creates the monitor of the name if there is none. */
    method AddSecretEventHandler(ns: string, routeSecretName: string, handler: Handler) returns (r: Result<Registration>)
      requires Valid()
      modifies Repr()
      ensures Valid() && fresh(Repr() - old(Repr()))
      ensures (state, r) == Spec.Add(old(state), ObjectKey(ns, routeSecretName), handler)
    {
      hide Spec.Inv, Split;
      Spec.AddOutcome(state, ObjectKey(ns, routeSecretName), handler);
      if !ValidateName(routeSecretName) {
        return Err(InvalidName);
      }
      var key := ObjectKey(ns, routeSecretName);
      if key !in monitors {
        Create(key);
      }
      r := Attach(key, handler);
    }

    /** Creates the monitor of a key; its informer watches the secret that the name of the key holds. */
    method Create(key: ObjectKey)
      requires Shape() && Spec.Wf(state) && ValidateName(key.name) && key !in monitors
      modifies this
      ensures Shape() && state == Spec.Ensured(old(state), key)
      ensures key in monitors && fresh(Repr() - old(Repr())) && old(Repr()) <= Repr()
    {
      hide Split, ValidateName;
      var secretName := GetSecretName(key.name, true);
      var n := new SingleItemMonitor(key, ObjectKey(key.ns, secretName.value), created);
      monitors := monitors[key := n];
      all, created := all + [n], created + 1;
      state := Spec.Ensured(state, key);
    }

    method Attach(key: ObjectKey, handler: Handler) returns (r: Result<Registration>)
      requires Shape() && Spec.Wf(state) && key in monitors && ValidateName(key.name)
      modifies this`nextHandle, this`state, monitors[key]
      ensures Shape() && (state, r) == Spec.Add(old(state), key, handler)
    {
      hide Split, ValidateName;
      var m := monitors[key];
      r := m.AddEventHandler(handler, nextHandle);
      if r.Ok? {
        nextHandle := nextHandle + 1;
        state := state.(items := state.items[m.serial := m.Value()], next := state.next + 1);
      }
    }

    /** Removes a handler; the last one that is counted stops the monitor and drops it. A missing monitor is no error. */
    method RemoveSecretEventHandler(reg: Option<Registration>, lenient: bool) returns (r: Result<()>)
      requires Valid()
      modifies Repr()
      ensures Valid() && Repr() == old(Repr())
      ensures (state, r) == Spec.Remove(old(state), reg, lenient)
    {
      hide Spec.Inv, Spec.RemoveEffect;
      Spec.RemoveOutcome(state, reg, lenient);
      if reg.None? {
        return Err(NilRegistration);
      }
      var key := reg.value.key;
      if key !in monitors {
        return Ok(());
      }
      Spec.MappedRuns(state, key);
      r := Detach(reg.value, lenient);
    }

    method Detach(reg: Registration, lenient: bool) returns (r: Result<()>)
      requires Shape() && Spec.Wf(state) && reg.key in monitors
      requires !monitors[reg.key].stopped && monitors[reg.key].closes == 0
      modifies this`monitors, this`state, monitors[reg.key]
      ensures Shape() && (state, r) == Spec.Remove(old(state), Some(reg), lenient)
    {
      var m := monitors[reg.key];
      r := m.RemoveEventHandler(reg, lenient);
      if r.Ok? {
        if m.numHandlers <= 0 {
          var _ := m.StopInformer();
          monitors := monitors - {reg.key};
          state := state.(monitors := state.monitors - {reg.key});
        }
        state := state.(items := state.items[m.serial := m.Value()]);
      }
    }

    method GetSecret(reg: Option<Registration>) returns (r: Result<SecretObject>)
      requires Valid()
      ensures r == Spec.GetSecret(state, reg)
    {
      if reg.None? {
        return Err(NilRegistration);
      }
      if reg.value.key !in monitors {
        return Err(NoMonitor);
      }
      var name := GetSecretName(reg.value.key.name, false);
      if name.Err? {
        return Err(name.error);
      }
      var item := monitors[reg.value.key].GetItem(name.value);
      match item {
        case None => r := Err(NotFound);
        case Some(o) => r := Ok(o);
      }
    }
  }

  class Manager {
    const monitor: SecretMonitor
    var registeredHandlers: map<ObjectKey, Registration>
    var secretHandler: Handler

    ghost function State(): ManagerSpec.State
      reads this, monitor
    {
      ManagerSpec.State(monitor.state, registeredHandlers, secretHandler)
    }

    ghost predicate Valid()
      reads this, monitor, monitor.all
    {
      monitor.Valid() && ManagerSpec.Inv(State())
    }

    ghost function Repr(): set<object>
      reads this, monitor
    {
      {this} + monitor.Repr()
    }

    /** The handler that does nothing is the default. */
    constructor (default_: Handler)
      ensures Valid() && State() == ManagerSpec.Init(default_) && fresh(Repr())
    {
      monitor := new SecretMonitor();
      registeredHandlers, secretHandler := map[], default_;
    }

    method WithSecretHandler(handler: Handler)
      requires Valid()
      modifies this`secretHandler
      ensures Valid() && State() == ManagerSpec.Apply(old(State()), ManagerSpec.SetHandler(handler))
    {
      secretHandler := handler;
    }

    /** Registers a route under its name and its secret's name; a handle that is there already is overwritten. */
    method RegisterRoute(parent: Route) returns (r: Result<()>)
      requires Valid()
      modifies Repr()
      ensures Valid() && fresh(Repr() - old(Repr()))
      ensures (State(), r) == ManagerSpec.Register(old(State()), parent)
    {
      hide Spec.Add, Spec.Inv, ManagerSpec.AllLive, ManagerSpec.Exact, SecretMonitor.Valid;
      ManagerSpec.RegisterOutcome(State(), parent);
      var key := GenerateKey(parent.ns, parent.name, parent.secret);
      var added := monitor.AddSecretEventHandler(key.ns, key.name, secretHandler);
      if added.Err? {
        return Err(added.error);
      }
      registeredHandlers := registeredHandlers[key := added.value];
      r := Ok(());
    }

    method UnregisterRoute(parent: Route, lenient: bool) returns (r: Result<()>)
      requires Valid()
      modifies Repr()
      ensures Valid() && Repr() == old(Repr())
      ensures (State(), r) == ManagerSpec.Unregister(old(State()), parent, lenient)
    {
      hide Spec.Remove, Spec.Inv, ManagerSpec.AllLive, ManagerSpec.Exact, SecretMonitor.Valid;
      ManagerSpec.UnregisterOutcome(State(), parent, lenient);
      var key := GenerateKey(parent.ns, parent.name, parent.secret);
      if key !in registeredHandlers {
        return Err(NotRegistered);
      }
      r := monitor.RemoveSecretEventHandler(Some(registeredHandlers[key]), lenient);
      if r.Ok? {
        registeredHandlers := registeredHandlers - {key};
        r := Ok(());
      }
    }

    /** `synced` says whether the handler synced within the time that this method waits for it. */
    method GetSecret(parent: Route, synced: bool) returns (r: Result<SecretObject>)
      requires Valid()
      ensures r == ManagerSpec.GetSecret(State(), parent, synced)
    {
      var key := GenerateKey(parent.ns, parent.name, parent.secret);
      if key !in registeredHandlers {
        return Err(NotRegistered);
      }
      if !synced {
        return Err(NotSynced);
      }
      r := monitor.GetSecret(Some(registeredHandlers[key]));
    }
  }
}
