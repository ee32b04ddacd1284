/** The secret monitor as an object: a map of monitored items that counts handlers and owns the informers. */
module SecretWatch {
  import opened Base
  import opened ItemMonitor
  import Spec = SecretSpec

  lemma ValuesAfterInsert<K, V>(m: map<K, V>, k: K, v: V)
    requires k !in m
    ensures m[k := v].Values == m.Values + {v}
  {
    var m' := m[k := v];
    assert m'[k] == v;
    forall x | x in m.Values ensures x in m'.Values {
      var j :| j in m && m[j] == x;
      assert m'[j] == x;
    }
  }

  lemma RemovedOk(i: Item, reg: Registration, lenient: bool)
    requires ItemOk(i)
    ensures var (x, r) := RemoveSection(i, reg, lenient); ItemOk(x) && (r.Ok? ==> r == Ok(()))
  {
  }

  /** A new monitor, started, after its first sync and whatever else the environment did to it meanwhile. */
  method Started(key: ObjectKey, serial: nat, env: Spec.Env) returns (n: SingleItemMonitor)
    requires Spec.EnvOk(key, env)
    ensures fresh(n) && n.serial == serial && n.key == key && n.Value() == Spec.Born(key, env)
  {
    n := new SingleItemMonitor(key, serial);
    var _ := n.StartInformer();
    n.Sync(env.store);
    if env.cancelled {
      var _ := n.StopInformer();
    }
    if env.ended {
      n.RunReturns();
    }
  }

  class MonitoredItem {
    const itemMonitor: SingleItemMonitor
    var numHandlers: int

    constructor (itemMonitor: SingleItemMonitor)
      ensures this.itemMonitor == itemMonitor && numHandlers == 0
    {
      this.itemMonitor := itemMonitor;
      numHandlers := 0;
    }
  }

  class SecretMonitor {
    var monitors: map<ObjectKey, MonitoredItem>
    var created: nat
    var nextHandle: nat
    ghost var all: seq<SingleItemMonitor>  // every monitor ever created, also those dropped from the map
    ghost var state: Spec.State             // the value of this object

    /** The value agrees with the objects. */
    ghost predicate Shape()
      reads this, all, monitors.Values
    {
      && created == |all| == |state.items| && nextHandle == state.next
      && (forall i | 0 <= i < |all| :: all[i].serial == i && all[i].Value() == state.items[i])
      && monitors.Keys == state.monitors.Keys
      && (forall k | k in monitors ::
        && monitors[k].itemMonitor.key == k
        && monitors[k].itemMonitor.serial < |all| && monitors[k].itemMonitor == all[monitors[k].itemMonitor.serial]
        && state.monitors[k] == Spec.Entry(monitors[k].itemMonitor.serial, monitors[k].numHandlers))
    }

    ghost predicate Valid()
      reads this, all, monitors.Values
    {
      Shape() && Spec.Inv(state)
    }

    /** All objects it owns. */
    ghost function Repr(): set<object>
      reads this
    {
      {this} + (set n: SingleItemMonitor | n in all) + monitors.Values
    }

    constructor ()
      ensures Valid() && state == Spec.INIT && fresh(Repr())
    {
      monitors, created, nextHandle, all, state := map[], 0, 0, [], Spec.INIT;
    }

    /**
     Adds a handler, and creates and starts the monitor of the secret if there is none. `env` says what the
     environment does to a new monitor while this method waits for its first sync.
     */
    method AddSecretEventHandler(ns: string, secretName: string, handler: Option<Handler>, env: Spec.Env)
      returns (r: Result<Registration>)
      requires Valid() && Spec.EnvOk(ObjectKey(ns, secretName), env)
      modifies Repr()
      ensures Valid() && fresh(Repr() - old(Repr()))
      ensures (state, r) == Spec.Add(old(state), ObjectKey(ns, secretName), handler, env)
    {
      Spec.AddInv(state, ObjectKey(ns, secretName), handler, env);
      if handler.None? {
        return Err(NilHandler);
      }
      r := EnsureAndAttach(ObjectKey(ns, secretName), handler.value, env);
    }

    method EnsureAndAttach(key: ObjectKey, handler: Handler, env: Spec.Env) returns (r: Result<Registration>)
      requires Shape() && Spec.Wf(state) && Spec.EnvOk(key, env)
      modifies Repr()
      ensures Shape() && fresh(Repr() - old(Repr()))
      ensures (state, r) == Spec.Add(old(state), key, Some(handler), env)
    {
      if key !in monitors {
        Create(key, env);
      }
      r := Attach(key, handler);
    }

    /** Creates the monitor of a key, starts it, and waits for its first sync. */
    method Create(key: ObjectKey, env: Spec.Env)
      requires Shape() && Spec.Wf(state) && Spec.EnvOk(key, env) && key !in monitors
      modifies this
      ensures Shape() && state == Spec.Ensured(old(state), key, env)
      ensures key in monitors && fresh(Repr() - old(Repr())) && old(Repr()) <= Repr()
    {
      hide Shape;
      var n := Started(key, created, env);
      var m := new MonitoredItem(n);
      ValuesAfterInsert(monitors, key, m);
      Insert(key, m, env);
    }

    /** Puts a new monitor in the map. */
    method Insert(key: ObjectKey, m: MonitoredItem, ghost env: Spec.Env)
      requires Shape() && Spec.Wf(state) && key !in monitors && m.numHandlers == 0
      requires m.itemMonitor.key == key && m.itemMonitor.serial == created && m.itemMonitor.Value() == Spec.Born(key, env)
      modifies this
      ensures Shape() && state == Spec.Ensured(old(state), key, env)
      ensures monitors == old(monitors)[key := m] && all == old(all) + [m.itemMonitor]
    {
      monitors := monitors[key := m];
      all, created := all + [m.itemMonitor], created + 1;
      state := Spec.Ensured(state, key, env);
    }

    /** What the shape says about one key. */
    lemma Linked(key: ObjectKey)
      requires Shape() && key in monitors
      ensures var m := monitors[key];
              && m.itemMonitor in all && m.itemMonitor.serial < |state.items|
              && m.itemMonitor.Value() == state.items[m.itemMonitor.serial] && nextHandle == state.next
              && key in state.monitors && state.monitors[key] == Spec.Entry(m.itemMonitor.serial, m.numHandlers)
    {
    }

    /** Adds the handler to the monitor of its key and counts it. */
    method Attach(key: ObjectKey, handler: Handler) returns (r: Result<Registration>)
      requires Shape() && Spec.Wf(state) && key in monitors
      modifies this`nextHandle, this`state, monitors[key], monitors[key].itemMonitor
      ensures Shape()
      ensures (state, r) == Spec.Attach(old(state), key, handler)
    {
      hide Shape, AddSection;
      Linked(key);
      var m := monitors[key];
      r := AddAt(m.itemMonitor, handler);
      if r.Ok? {
        SetCount(key, m.numHandlers + 1);
      }
    }

    /** The section of one monitor that adds a handler: the others keep their values. */
    method AddAt(n: SingleItemMonitor, handler: Handler) returns (r: Result<Registration>)
      requires Shape() && n in all
      modifies this`nextHandle, this`state, n
      ensures Shape() && var (x, r') := AddSection(old(n.Value()), old(nextHandle), handler);
              r == r' && state == if r.Err? then old(state)
                                  else old(state).(items := old(state).items[n.serial := x], next := old(state).next + 1)
    {
      r := n.AddEventHandler(handler, nextHandle);
      if r.Ok? {
        nextHandle := nextHandle + 1;
        state := state.(items := state.items[n.serial := n.Value()], next := state.next + 1);
      }
    }

    method RemoveSecretEventHandler(reg: Option<Registration>, lenient: bool) returns (r: Result<()>)
      requires Valid()
      modifies Repr()
      ensures Valid() && Repr() <= old(Repr())
      ensures (state, r) == Spec.Remove(old(state), reg, lenient)
    {
      Spec.RemoveInv(state, reg, lenient);
      if reg.None? {
        return Err(NilRegistration);
      }
      var key := reg.value.key;
      if key !in monitors {
        return Err(NoMonitor);
      }
      r := Detach(reg.value, lenient);
    }

    /** Removes the handler from the monitor of its key; the last one stops the monitor and drops it. */
    method Detach(reg: Registration, lenient: bool) returns (r: Result<()>)
      requires Shape() && Spec.Wf(state) && reg.key in monitors
      requires ItemOk(Spec.ItemOf(state, reg.key))
      modifies this`monitors, this`state, monitors[reg.key], monitors[reg.key].itemMonitor
      ensures Shape() && monitors.Values <= old(monitors.Values)
      ensures (state, r) == Spec.Remove(old(state), Some(reg), lenient)
    {
      hide Shape, RemoveSection;
      ghost var before := state;
      var m := monitors[reg.key];
      Linked(reg.key);
      RemovedOk(m.itemMonitor.Value(), reg, lenient);
      r := Uncount(m, reg, lenient);
      Linked(reg.key);
      if r.Ok? && m.numHandlers <= 0 {
        Drop(reg.key, m.itemMonitor);
        assert state.monitors == before.monitors - {reg.key};
        assert state.items == Spec.Remove(before, Some(reg), lenient).0.items;
      }
    }

    /** Removes the handler from the informer and uncounts it. */
    method Uncount(m: MonitoredItem, reg: Registration, lenient: bool) returns (r: Result<()>)
      requires Shape() && reg.key in monitors && m == monitors[reg.key]
      modifies this`state, m, m.itemMonitor
      ensures Shape()
      ensures var e := old(state).monitors[reg.key];
              var (x, r') := RemoveSection(old(state).items[e.item], reg, lenient);
              && r == r'
              && state == if r.Err? then old(state) else old(state).(
                   monitors := old(state).monitors[reg.key := Spec.Entry(e.item, e.count - 1)],
                   items := old(state).items[e.item := x])
    {
      hide Shape, RemoveSection;
      Linked(reg.key);
      r := RemoveAt(m.itemMonitor, reg, lenient);
      if r.Ok? {
        SetCount(reg.key, m.numHandlers - 1);
      }
    }

    method SetCount(key: ObjectKey, count: int)
      requires Shape() && key in monitors
      modifies this`state, monitors[key]
      ensures Shape() && monitors[key].numHandlers == count
      ensures state == old(state).(monitors := old(state).monitors[key := Spec.Entry(old(state).monitors[key].item, count)])
    {
      monitors[key].numHandlers := count;
      state := state.(monitors := state.monitors[key := Spec.Entry(state.monitors[key].item, count)]);
    }

    /** One critical section of one monitor: the others keep their values. */
    method RemoveAt(n: SingleItemMonitor, reg: Registration, lenient: bool) returns (r: Result<()>)
      requires Shape() && n in all
      modifies this`state, n
      ensures Shape() && var (x, r') := RemoveSection(old(n.Value()), reg, lenient);
              r == r' && state == if r.Err? then old(state) else old(state).(items := old(state).items[n.serial := x])
    {
      r := n.RemoveEventHandler(reg, lenient);
      if r.Ok? {
        state := state.(items := state.items[n.serial := n.Value()]);
      }
    }

    /** Stops a monitor and takes its key out of the map. */
    method Drop(key: ObjectKey, n: SingleItemMonitor)
      requires Shape() && key in monitors && n == monitors[key].itemMonitor && (!n.stopped ==> n.closes == 0)
      modifies this`monitors, this`state, n
      ensures Shape() && monitors.Values <= old(monitors.Values)
      ensures state == old(state).(
                monitors := old(state).monitors - {key},
                items := old(state).items[n.serial := StopSection(old(n.Value())).0])
    {
      var _ := n.StopInformer();
      monitors := monitors - {key};
      state := state.(monitors := state.monitors - {key}, items := state.items[n.serial := n.Value()]);
    }

    method GetSecret(reg: Option<Registration>) returns (r: Result<SecretObject>)
      requires Valid()
      ensures r == Spec.GetSecret(state, reg)
    {
      if reg.None? {
        return Err(NilRegistration);
      }
      if reg.value.key !in monitors {
        return Err(NoMonitor);
      }
      var n := monitors[reg.value.key].itemMonitor;
      var item := n.Lookup();
      match item {
        case None => r := Err(NotFound);
        case Some(o) => r := Ok(o);
      }
    }

    /** The handlers that the informer of a secret notifies. */
    method Listeners(key: ObjectKey) returns (handlers: map<nat, Handler>)
      requires Valid() && key in monitors
      ensures handlers == Spec.Handlers(state, key)
    {
      Linked(key);
      handlers := monitors[key].itemMonitor.informer.handlers;
    }

    /** The watcher of a monitor, which may already have been dropped, reacts to the cancellation of its context. */
    method ContextCancelled(n: SingleItemMonitor)
      requires Valid() && n in all
      modifies this`state, n
      ensures Valid()
      ensures state == Spec.Apply(old(state), Spec.Cancelled(n.serial))
    {
      Spec.InvStep(state, Spec.Cancelled(n.serial));
      assert ItemOk(state.items[n.serial]);
      Stop(n);
    }

    method Stop(n: SingleItemMonitor)
      requires Shape() && Spec.Wf(state) && n in all && (!n.stopped ==> n.closes == 0)
      modifies this`state, n
      ensures Shape() && state == Spec.Apply(old(state), Spec.Cancelled(n.serial))
    {
      var _ := n.StopInformer();
      state := Spec.Apply(state, Spec.Cancelled(n.serial));
    }
  }
}
