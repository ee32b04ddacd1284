/**
 One monitored secret: `singleItemMonitor` and the informer behind it.

 The informer is an environment object. Three things are assumed of it: it has not synced before it runs,
 adding a handler fails only after it ended, and removing a handle it does not know may succeed silently.
 */
module ItemMonitor {
  import opened Base

  datatype Informer = Informer(
    ran: bool,
    synced: bool,
    ended: bool,
    handlers: map<nat, Handler>,
    store: map<string, SecretObject>)

  /** The value of a monitor. `closes` counts how often `stopCh` was closed: the second close panics. */
  datatype Item = Item(key: ObjectKey, stopped: bool, closes: nat, started: bool, informer: Informer)

  function NewItem(key: ObjectKey): Item {
    Item(key, true, 0, false, Informer(false, false, false, map[], map[]))
  }

  // ---- The informer's own steps ----

  function AddTo(inf: Informer, id: nat, handler: Handler): Option<Informer> {
    if inf.ended then None else Some(inf.(handlers := inf.handlers[id := handler]))
  }

  function RemoveFrom(inf: Informer, id: nat, lenient: bool): Option<Informer> {
    if id in inf.handlers then Some(inf.(handlers := inf.handlers - {id}))
    else if lenient then Some(inf)
    else None
  }

  /** The store's key of an object: a cluster-scoped object has no namespace part. */
  function StoreKey(o: SecretObject): string {
    if o.ns == "" then o.name else PathKey(o.ns, o.name)
  }

  /** Whether the list-watch of a monitor selects an object; the empty namespace selects all of them. */
  predicate Selects(key: ObjectKey, o: SecretObject) {
    (key.ns == "" || o.ns == key.ns) && o.name == key.name
  }

  predicate StoreOk(key: ObjectKey, store: map<string, SecretObject>) {
    forall k | k in store :: k == StoreKey(store[k]) && Selects(key, store[k])
  }

  // ---- The critical sections of the item lock ----

  function StartSection(i: Item): Item {
    if i.stopped then i.(stopped := false, started := true) else i
  }

  function StopSection(i: Item): (Item, bool) {
    if i.stopped then (i, false) else (i.(stopped := true, closes := i.closes + 1), true)
  }

  function AddSection(i: Item, id: nat, handler: Handler): (Item, Result<Registration>) {
    if i.stopped then (i, Err(InformerStopped))
    else match AddTo(i.informer, id, handler)
      case None => (i, Err(InformerStopped))
      case Some(inf) => (i.(informer := inf), Ok(Registration(id, i.key)))
  }

  function RemoveSection(i: Item, reg: Registration, lenient: bool): (Item, Result<()>) {
    if i.stopped then (i, Err(InformerStopped))
    else match RemoveFrom(i.informer, reg.id, lenient)
      case None => (i, Err(UnknownHandle))
      case Some(inf) => (i.(informer := inf), Ok(()))
  }

  function GetItem(i: Item): Option<SecretObject> {
    var k := PathKey(i.key.ns, i.key.name);
    if k in i.informer.store then Some(i.informer.store[k]) else None
  }

  /** What every monitor that is started at most once satisfies whenever its lock is free. */
  predicate ItemOk(i: Item) {
    && i.closes <= 1
    && (if i.started then i.stopped <==> i.closes == 1 else i.stopped && i.closes == 0)
    && (i.informer.synced ==> i.informer.ran)
    && (i.informer.ran ==> i.started)
    && (i.informer.ended ==> i.closes == 1)
    && (i.informer.handlers != map[] ==> i.started)
    && StoreOk(i.key, i.informer.store)
  }

  /** A lookup answers exactly with the selected secret, if it is cached; without a namespace it never answers. */
  lemma GetItemExact(i: Item, o: SecretObject)
    requires StoreOk(i.key, i.informer.store)
    ensures GetItem(i) == Some(o) <==>
            i.key.ns != "" && o.ns == i.key.ns && o.name == i.key.name && o in i.informer.store.Values
  {
    if GetItem(i) == Some(o) {
      assert Selects(i.key, o);
    }
  }

  /** Without a namespace the objects of this name in all namespaces are watched and may be cached, but none is ever found. */
  lemma WatchedButNotFound(i: Item, o: SecretObject)
    requires i.key.ns == "" && o.name == i.key.name
    ensures var i' := i.(informer := i.informer.(store := map[StoreKey(o) := o])); StoreOk(i.key, i'.informer.store)
    ensures StoreOk(i.key, i.informer.store) ==> GetItem(i) == None
  {
    if StoreOk(i.key, i.informer.store) && GetItem(i).Some? {
      GetItemExact(i, GetItem(i).value);
    }
  }

  // ---- Starting more than once ----

  datatype Call = Start | Stop

  function Exec(i: Item, calls: seq<Call>): Item
    decreases |calls|
  {
    if calls == [] then i
    else
      var last := Exec(i, calls[..|calls| - 1]);
      if calls[|calls| - 1].Start? then StartSection(last) else StopSection(last).0
  }

  /** How much of Start, Stop, Start, Stop occurs, in this order but not necessarily adjacent. */
  function Alternations(calls: seq<Call>): nat
    decreases |calls|
  {
    if calls == [] then 0
    else
      var n := Alternations(calls[..|calls| - 1]);
      if calls[|calls| - 1].Start? <==> n % 2 == 0 then n + 1 else n
  }

  ghost predicate Restarted(calls: seq<Call>) {
    exists a, b, c, d :: 0 <= a < b < c < d < |calls|
      && calls[a].Start? && calls[b].Stop? && calls[c].Start? && calls[d].Stop?
  }

  lemma {:induction false} ExecAlternates(key: ObjectKey, calls: seq<Call>)
    ensures var i := Exec(NewItem(key), calls); var n := Alternations(calls);
            i.closes == n / 2 && (i.stopped <==> n % 2 == 0)
    decreases |calls|
  {
    if calls != [] {
      ExecAlternates(key, calls[..|calls| - 1]);
    }
  }

  /** A prefix of the alternating word is found greedily: the witnesses are positions inside `calls`. */
  lemma {:induction false} AlternationsFound(calls: seq<Call>, n: nat)
    returns (at: seq<nat>)
    requires n <= Alternations(calls)
    ensures |at| == n
    ensures forall k | 0 <= k < n :: at[k] < |calls| && (calls[at[k]].Start? <==> k % 2 == 0)
    ensures forall k | 0 < k < n :: at[k - 1] < at[k]
    decreases |calls|
  {
    if n == 0 {
      at := [];
    } else if n <= Alternations(calls[..|calls| - 1]) {
      at := AlternationsFound(calls[..|calls| - 1], n);
    } else {
      at := AlternationsFound(calls[..|calls| - 1], n - 1);
      at := at + [|calls| - 1];
    }
  }

  /** Greedy matching is maximal: every alternating choice of positions is matched. */
  lemma {:induction false} AlternationsMaximal(calls: seq<Call>, at: seq<nat>)
    requires forall k | 0 <= k < |at| :: at[k] < |calls| && (calls[at[k]].Start? <==> k % 2 == 0)
    requires forall k | 0 < k < |at| :: at[k - 1] < at[k]
    ensures |at| <= Alternations(calls)
    decreases |calls|
  {
    if at != [] {
      var n := |at| - 1;
      assert at[n] < |calls|;
      var front := calls[..|calls| - 1];
      if at[n] == |calls| - 1 {
        var at' := at[..n];
        forall k | 0 <= k < n ensures at'[k] < |front| && front[at'[k]] == calls[at[k]] {
          Increasing(at, k, n);
        }
        AlternationsMaximal(front, at');
      } else {
        forall k | 0 <= k <= n ensures at[k] < |front| && front[at[k]] == calls[at[k]] {
          Increasing(at, k, n);
        }
        AlternationsMaximal(front, at);
      }
    }
  }

  lemma {:induction false} Increasing(at: seq<nat>, k: nat, n: nat)
    requires k <= n < |at|
    requires forall j | 0 < j < |at| :: at[j - 1] < at[j]
    ensures k < n ==> at[k] < at[n]
    decreases n - k
  {
    if k < n {
      Increasing(at, k, n - 1);
    }
  }

  /** The channel is closed twice exactly when a stopped monitor was started again and stopped once more. */
  lemma DoubleCloseExactly(key: ObjectKey, calls: seq<Call>)
    ensures Exec(NewItem(key), calls).closes >= 2 <==> Restarted(calls)
  {
    ExecAlternates(key, calls);
    if Alternations(calls) >= 4 {
      var at := AlternationsFound(calls, 4);
      assert calls[at[0]].Start? && calls[at[1]].Stop? && calls[at[2]].Start? && calls[at[3]].Stop?;
      assert at[0] < at[1] < at[2] < at[3];
    }
    if Restarted(calls) {
      var a, b, c, d :| 0 <= a < b < c < d < |calls|
        && calls[a].Start? && calls[b].Stop? && calls[c].Start? && calls[d].Stop?;
      AlternationsMaximal(calls, [a, b, c, d]);
    }
  }

  // ---- The monitor as an object ----

  class SingleItemMonitor {
    const key: ObjectKey
    const serial: nat  // its position among all monitors of its owner
    var informer: Informer
    var stopped: bool
    var closes: nat
    ghost var started: bool

    ghost function Value(): Item
      reads this
    {
      Item(key, stopped, closes, started, informer)
    }

    constructor (key: ObjectKey, serial: nat)
      ensures Value() == NewItem(key) && this.key == key && this.serial == serial
    {
      this.key, this.serial := key, serial;
      informer := Informer(false, false, false, map[], map[]);
      stopped, closes, started := true, 0, false;
    }

    /**
     The section of `StartInformer` under the lock; `run` says that the caller goes on to run the informer. A start
     after a stop reuses the closed channel: see DoubleCloseExactly.
     */
    method StartInformer() returns (run: bool)
      modifies this
      ensures Value() == StartSection(old(Value()))
      ensures run == old(stopped)
    {
      if !stopped {
        return false;
      }
      stopped, started := false, true;
      run := true;
    }

    method StopInformer() returns (ok: bool)
      requires !stopped ==> closes == 0  // closing a closed channel panics
      modifies this
      ensures (Value(), ok) == StopSection(old(Value()))
    {
      if stopped {
        return false;
      }
      stopped := true;
      closes := closes + 1;
      ok := true;
    }

    /** `id` is the identity of the handle that the informer makes. */
    method AddEventHandler(handler: Handler, id: nat) returns (r: Result<Registration>)
      modifies this
      ensures (Value(), r) == AddSection(old(Value()), id, handler)
    {
      if stopped {
        return Err(InformerStopped);
      }
      match AddTo(informer, id, handler) {
        case None => r := Err(InformerStopped);
        case Some(inf) =>
          informer := inf;
          r := Ok(Registration(id, key));
      }
    }

    method RemoveEventHandler(reg: Registration, lenient: bool) returns (r: Result<()>)
      modifies this
      ensures (Value(), r) == RemoveSection(old(Value()), reg, lenient)
    {
      if stopped {
        return Err(InformerStopped);
      }
      match RemoveFrom(informer, reg.id, lenient) {
        case None => r := Err(UnknownHandle);
        case Some(inf) =>
          informer := inf;
          r := Ok(());
      }
    }

    method Lookup() returns (item: Option<SecretObject>)
      ensures item == GetItem(Value())
    {
      var k := PathKey(key.ns, key.name);
      item := if k in informer.store then Some(informer.store[k]) else None;
    }

    /** The environment: the informer runs and syncs, and lists what its selector matches. */
    method Sync(store: map<string, SecretObject>)
      requires started
      modifies this
      ensures Value() == old(Value()).(informer := Informer(true, true, old(informer.ended), old(informer.handlers), store))
    {
      informer := informer.(ran := true, synced := true, store := store);
    }

    /** The environment: the run returns once the channel is closed. */
    method RunReturns()
      requires closes > 0
      modifies this
      ensures Value() == old(Value()).(informer := old(informer).(ended := true))
    {
      informer := informer.(ended := true);
    }
  }
}
