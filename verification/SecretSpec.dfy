/**
 The reference-counted map of monitors, one whole operation at a time. `items` keeps every monitor ever
 created, so that nothing is forgotten about those that were dropped from the map.
 */
module SecretSpec {
  import opened Base
  import opened ItemMonitor

  datatype Entry = Entry(item: nat, count: int)

  datatype State = State(monitors: map<ObjectKey, Entry>, items: seq<Item>, next: nat)

  const INIT := State(map[], [], 0)

  /** What the environment did to a new monitor before its first handler is added. */
  datatype Env = Env(cancelled: bool, ended: bool, store: map<string, SecretObject>)

  predicate EnvOk(key: ObjectKey, env: Env) {
    StoreOk(key, env.store) && (env.ended ==> env.cancelled)
  }

  /** A new monitor as it is found after the wait for its first sync. */
  function Born(key: ObjectKey, env: Env): Item {
    Item(key, env.cancelled, if env.cancelled then 1 else 0, true, Informer(true, true, env.ended, map[], env.store))
  }

  predicate Wf(s: State) {
    forall k | k in s.monitors :: s.monitors[k].item < |s.items|
  }

  function ItemOf(s: State, key: ObjectKey): Item
    requires Wf(s) && key in s.monitors
  {
    s.items[s.monitors[key].item]
  }

  function Handlers(s: State, key: ObjectKey): map<nat, Handler>
    requires Wf(s) && key in s.monitors
  {
    ItemOf(s, key).informer.handlers
  }

  // ---- The operations ----

  function Ensured(s: State, key: ObjectKey, env: Env): State {
    if key in s.monitors then s
    else s.(monitors := s.monitors[key := Entry(|s.items|, 0)], items := s.items + [Born(key, env)])
  }

  /** The part of adding that follows once the monitor is in the map. */
  function Attach(s: State, key: ObjectKey, handler: Handler): (r: (State, Result<Registration>))
    requires Wf(s) && key in s.monitors
    ensures Wf(r.0)
  {
    var e := s.monitors[key];
    match AddSection(s.items[e.item], s.next, handler)
    case (i, Err(why)) => (s, Err(why))
    case (i, Ok(reg)) =>
      (State(s.monitors[key := Entry(e.item, e.count + 1)], s.items[e.item := i], s.next + 1), Ok(reg))
  }

  function Add(s: State, key: ObjectKey, handler: Option<Handler>, env: Env): (r: (State, Result<Registration>))
    requires Wf(s)
    ensures Wf(r.0)
  {
    if handler.None? then (s, Err(NilHandler)) else Attach(Ensured(s, key, env), key, handler.value)
  }

  function Remove(s: State, reg: Option<Registration>, lenient: bool): (r: (State, Result<()>))
    requires Wf(s)
    ensures Wf(r.0)
  {
    if reg.None? then (s, Err(NilRegistration))
    else if reg.value.key !in s.monitors then (s, Err(NoMonitor))
    else
      var e := s.monitors[reg.value.key];
      match RemoveSection(s.items[e.item], reg.value, lenient)
      case (i, Err(why)) => (s, Err(why))
      case (i, Ok(_)) =>
        if e.count - 1 <= 0
        then (s.(monitors := s.monitors - {reg.value.key}, items := s.items[e.item := StopSection(i).0]), Ok(()))
        else (s.(monitors := s.monitors[reg.value.key := Entry(e.item, e.count - 1)], items := s.items[e.item := i]), Ok(()))
  }

  function GetSecret(s: State, reg: Option<Registration>): Result<SecretObject>
    requires Wf(s)
  {
    if reg.None? then Err(NilRegistration)
    else if reg.value.key !in s.monitors then Err(NoMonitor)
    else match GetItem(ItemOf(s, reg.value.key))
      case None => Err(NotFound)
      case Some(o) => Ok(o)
  }

  // ---- Runs: operations, cancellations, and the informers' own steps, in any order ----

  datatype Label =
    | AddOp(key: ObjectKey, handler: Option<Handler>, env: Env)
    | RemoveOp(reg: Option<Registration>, lenient: bool)
    | Cancelled(i: nat)                                       // the watcher of monitor i stops it
    | RunEnds(i: nat)                                         // the informer of monitor i returns
    | StoreChanges(i: nat, store: map<string, SecretObject>)  // the informer of monitor i updates its cache

  predicate Enabled(s: State, l: Label) {
    match l
    case AddOp(key, _, env) => EnvOk(key, env)
    case RemoveOp(_, _) => true
    case Cancelled(i) => i < |s.items|
    case RunEnds(i) => i < |s.items| && s.items[i].closes > 0
    case StoreChanges(i, store) => i < |s.items| && StoreOk(s.items[i].key, store)
  }

  function Apply(s: State, l: Label): (s': State)
    requires Wf(s) && Enabled(s, l)
    ensures Wf(s')
  {
    match l
    case AddOp(key, handler, env) => Add(s, key, handler, env).0
    case RemoveOp(reg, lenient) => Remove(s, reg, lenient).0
    case Cancelled(i) => s.(items := s.items[i := StopSection(s.items[i]).0])
    case RunEnds(i) => s.(items := s.items[i := s.items[i].(informer := s.items[i].informer.(ended := true))])
    case StoreChanges(i, store) => s.(items := s.items[i := s.items[i].(informer := s.items[i].informer.(store := store))])
  }

  predicate IsRun(s: State, run: seq<Label>)
    requires Wf(s)
    decreases |run|
  {
    run == [] || (Enabled(s, run[0]) && IsRun(Apply(s, run[0]), run[1..]))
  }

  function After(s: State, run: seq<Label>): (s': State)
    requires Wf(s) && IsRun(s, run)
    ensures Wf(s')
    decreases |run|
  {
    if run == [] then s else After(Apply(s, run[0]), run[1..])
  }

  // ---- Invariants ----

  predicate Mapped(s: State, i: nat)
    requires i < |s.items|
  {
    s.items[i].key in s.monitors && s.monitors[s.items[i].key].item == i
  }

  ghost predicate ItemsOk(s: State) {
    && (forall i | 0 <= i < |s.items| :: ItemOk(s.items[i]) && s.items[i].informer.synced)
    && (forall i, id | 0 <= i < |s.items| && id in s.items[i].informer.handlers :: id < s.next)
  }

  ghost predicate DroppedClosed(s: State) {
    forall i | 0 <= i < |s.items| && !Mapped(s, i) :: s.items[i].closes == 1
  }

  /** Each entry belongs to its key, and is stopped or has a handler; `pending` is exempt from the latter. */
  ghost predicate EntriesOk(s: State, pending: set<ObjectKey>)
    requires Wf(s)
  {
    forall k | k in s.monitors ::
      && ItemOf(s, k).key == k
      && (k in pending || ItemOf(s, k).stopped || s.monitors[k].count >= 1)
  }

  /**
   Whatever is removed, repeated or stale, and whatever is cancelled: a mapped monitor is running with a
   positive count or stopped, a dropped one has its channel closed, and no channel is closed twice.
   */
  ghost predicate Inv(s: State) {
    Wf(s) && ItemsOk(s) && DroppedClosed(s) && EntriesOk(s, {})
  }

  /** The counts are the numbers of live handlers, and no dropped monitor still has one. */
  ghost predicate Faithful(s: State) {
    && Wf(s)
    && (forall k | k in s.monitors :: s.monitors[k].count == |Handlers(s, k)|)
    && (forall i | 0 <= i < |s.items| && !Mapped(s, i) :: s.items[i].informer.handlers == map[])
  }

  predicate Live(s: State, reg: Registration)
    requires Wf(s)
  {
    reg.key in s.monitors && reg.id in Handlers(s, reg.key)
  }

  /** Replacing one monitor by a later value of itself, with no new handlers. */
  lemma SetItem(s: State, i: nat, x: Item)
    requires Wf(s) && ItemsOk(s) && DroppedClosed(s) && i < |s.items|
    requires x.key == s.items[i].key && ItemOk(x) && x.informer.synced && x.closes >= s.items[i].closes
    requires x.informer.handlers.Keys <= s.items[i].informer.handlers.Keys
    ensures var s' := s.(items := s.items[i := x]); Wf(s') && ItemsOk(s') && DroppedClosed(s')
  {
    var s' := s.(items := s.items[i := x]);
    forall j | 0 <= j < |s'.items| ensures Mapped(s', j) == Mapped(s, j) {}
  }

  lemma EnsuredOk(s: State, key: ObjectKey, env: Env)
    requires Inv(s) && EnvOk(key, env)
    ensures var s1 := Ensured(s, key, env);
            && Wf(s1) && ItemsOk(s1) && DroppedClosed(s1) && EntriesOk(s1, {key})
            && key in s1.monitors && (key in s.monitors ==> s1 == s) && (key !in s.monitors ==> ItemOf(s1, key) == Born(key, env))
            && forall k | k in s.monitors :: k in s1.monitors && s1.monitors[k] == s.monitors[k] && ItemOf(s1, k) == ItemOf(s, k)
  {
    var s1 := Ensured(s, key, env);
    if key !in s.monitors {
      forall j | 0 <= j < |s.items| ensures Mapped(s1, j) == Mapped(s, j) {}
    }
  }

  /** What attaching a handler changes: one count, one handler set, and nothing else. */
  ghost predicate AttachEffect(s: State, key: ObjectKey, handler: Handler, s': State, r: Result<Registration>)
    requires Wf(s) && key in s.monitors
  {
    && Wf(s')
    && (r.Ok? <==> !ItemOf(s, key).stopped)
    && (r.Err? ==> s' == s && r.error == InformerStopped)
    && s'.monitors.Keys == s.monitors.Keys
    && |s'.items| == |s.items|
    && (forall j | 0 <= j < |s.items| :: Mapped(s', j) == Mapped(s, j) && s'.items[j].key == s.items[j].key)
    && (forall j | 0 <= j < |s.items| && j != s.monitors[key].item :: s'.items[j] == s.items[j])
    && (forall k | k in s.monitors && k != key :: s'.monitors[k] == s.monitors[k] && ItemOf(s', k) == ItemOf(s, k))
    && (r.Ok? ==>
      && r.value == Registration(s.next, key) && s'.next == s.next + 1
      && s'.monitors[key] == Entry(s.monitors[key].item, s.monitors[key].count + 1)
      && ItemOf(s', key) == AddSection(ItemOf(s, key), s.next, handler).0
      && Handlers(s', key) == Handlers(s, key)[s.next := handler])
  }

  lemma AttachFacts(s: State, key: ObjectKey, handler: Handler)
    requires Wf(s) && ItemsOk(s) && DroppedClosed(s) && EntriesOk(s, {key}) && key in s.monitors
    ensures var (s', r) := Attach(s, key, handler); AttachEffect(s, key, handler, s', r)
  {
    assert ItemOk(ItemOf(s, key));
    var (s', r) := Attach(s, key, handler);
    forall j | 0 <= j < |s.items| ensures Mapped(s', j) == Mapped(s, j) {}
    forall k | k in s.monitors && k != key ensures s.monitors[k].item != s.monitors[key].item {
      assert ItemOf(s, k).key == k;
    }
  }

  lemma AttachInv(s: State, key: ObjectKey, handler: Handler)
    requires Wf(s) && ItemsOk(s) && DroppedClosed(s) && EntriesOk(s, {key}) && key in s.monitors
    requires s.monitors[key].count >= 0 || ItemOf(s, key).stopped
    ensures Inv(Attach(s, key, handler).0)
  {
    AttachFacts(s, key, handler);
    var (s', r) := Attach(s, key, handler);
    forall j | 0 <= j < |s'.items| ensures ItemOk(s'.items[j]) && s'.items[j].informer.synced {
      assert ItemOk(s.items[j]);
    }
  }

  lemma AddInv(s: State, key: ObjectKey, handler: Option<Handler>, env: Env)
    requires Inv(s) && EnvOk(key, env)
    ensures Inv(Add(s, key, handler, env).0)
  {
    if handler.Some? {
      EnsuredOk(s, key, env);
      AttachInv(Ensured(s, key, env), key, handler.value);
    }
  }

  lemma RemoveInv(s: State, reg: Option<Registration>, lenient: bool)
    requires Inv(s)
    ensures Inv(Remove(s, reg, lenient).0)
  {
    var (s', r) := Remove(s, reg, lenient);
    if r.Ok? {
      var key := reg.value.key;
      var n := s.monitors[key].item;
      assert ItemOk(s.items[n]);
      SetItem(s, n, s'.items[n]);
      assert s'.items == s.items[n := s'.items[n]];
      DropOrCount(s.(items := s'.items), key, s'.monitors);
    }
  }

  /** Taking one from a count of a running monitor, or dropping a stopped one. */
  lemma DropOrCount(s: State, key: ObjectKey, monitors: map<ObjectKey, Entry>)
    requires Wf(s) && ItemsOk(s) && DroppedClosed(s) && EntriesOk(s, {key}) && key in s.monitors
    requires
      || (monitors == s.monitors - {key} && ItemOf(s, key).closes == 1)
      || exists n :: n >= 1 && monitors == s.monitors[key := Entry(s.monitors[key].item, n)]
    ensures Inv(s.(monitors := monitors))
  {
    var s' := s.(monitors := monitors);
    forall j | 0 <= j < |s.items| && j != s.monitors[key].item ensures Mapped(s', j) == Mapped(s, j) {
      assert Mapped(s, s.monitors[key].item);
    }
  }

  lemma InvStep(s: State, l: Label)
    requires Inv(s) && Enabled(s, l)
    ensures Inv(Apply(s, l))
  {
    match l
    case AddOp(key, handler, env) => AddInv(s, key, handler, env);
    case RemoveOp(reg, lenient) => RemoveInv(s, reg, lenient);
    case _ => SetItem(s, l.i, Apply(s, l).items[l.i]);
  }

  lemma {:induction false} InvRun(s: State, run: seq<Label>)
    requires Inv(s) && IsRun(s, run)
    ensures Inv(After(s, run))
    decreases |run|
  {
    if run != [] {
      InvStep(s, run[0]);
      InvRun(Apply(s, run[0]), run[1..]);
    }
  }

  // ---- When the operations succeed ----

  function HandlersAt(s: State, key: ObjectKey): map<nat, Handler>
    requires Wf(s)
  {
    if key in s.monitors then Handlers(s, key) else map[]
  }

  /** What one add does: success counts one new handle of `key`; nothing else changes but a new idle monitor. */
  ghost predicate AddEffect(s: State, key: ObjectKey, handler: Option<Handler>, env: Env, s': State, r: Result<Registration>)
    requires Wf(s)
  {
    && Wf(s')
    && (r.Ok? <==> handler.Some? && (if key in s.monitors then !ItemOf(s, key).stopped else !env.cancelled))
    && s.monitors.Keys <= s'.monitors.Keys <= s.monitors.Keys + {key}
    && (forall k | k in s.monitors && k != key :: s'.monitors[k] == s.monitors[k] && ItemOf(s', k) == ItemOf(s, k))
    && (r.Ok? ==>
      && r.value == Registration(s.next, key) && s'.next == s.next + 1
      && key in s'.monitors && !ItemOf(s', key).stopped
      && s'.monitors[key].count == (if key in s.monitors then s.monitors[key].count else 0) + 1
      && Handlers(s', key) == HandlersAt(s, key)[s.next := handler.value])
    && (r.Err? && (handler.None? || key in s.monitors) ==> s' == s)
    && (r.Err? ==> s'.next == s.next && (key in s'.monitors ==> Handlers(s', key) == HandlersAt(s, key)))
    && (r.Err? ==> r.error == if handler.None? then NilHandler else InformerStopped)
    && (handler.Some? ==> StaysOrIsBorn(s, key, env, s'))
  }

  /** The monitor of the key stays the same one or is a new one, also when adding failed, and no other monitor changes. */
  ghost predicate StaysOrIsBorn(s: State, key: ObjectKey, env: Env, s': State)
    requires Wf(s) && Wf(s')
  {
    && key in s'.monitors && s'.monitors[key].item == (if key in s.monitors then s.monitors[key].item else |s.items|)
    && |s'.items| == |s.items| + (if key in s.monitors then 0 else 1)
    && (forall i | 0 <= i < |s.items| && i != s'.monitors[key].item :: s'.items[i] == s.items[i])
    && var before, after := (if key in s.monitors then ItemOf(s, key) else Born(key, env)), ItemOf(s', key);
       after == before.(informer := before.informer.(handlers := after.informer.handlers))
  }

  /** Adding fails exactly for a nil handler and for a monitor that was stopped; the failure adds no handler. */
  lemma AddSucceedsIff(s: State, key: ObjectKey, handler: Option<Handler>, env: Env)
    requires Inv(s) && EnvOk(key, env)
    ensures var (s', r) := Add(s, key, handler, env); AddEffect(s, key, handler, env, s', r)
  {
    if handler.Some? {
      var s1 := Ensured(s, key, env);
      EnsuredOk(s, key, env);
      AttachFacts(s1, key, handler.value);
      var (s', r) := Attach(s1, key, handler.value);
      EnsureThenAttach(s, s1, key, handler.value, env, s', r);
    }
  }

  lemma EnsureThenAttach(s: State, s1: State, key: ObjectKey, handler: Handler, env: Env, s': State, r: Result<Registration>)
    requires Wf(s) && Wf(s1) && s1 == Ensured(s, key, env) && key in s1.monitors
    requires if key in s.monitors then s1 == s else ItemOf(s1, key) == Born(key, env)
    requires forall k | k in s.monitors :: s1.monitors[k] == s.monitors[k] && ItemOf(s1, k) == ItemOf(s, k)
    requires AttachEffect(s1, key, handler, s', r)
    ensures AddEffect(s, key, Some(handler), env, s', r)
  {
    hide StaysOrIsBorn, Mapped;
    EnsureThenStays(s, s1, key, handler, env, s', r);
  }

  lemma EnsureThenStays(s: State, s1: State, key: ObjectKey, handler: Handler, env: Env, s': State, r: Result<Registration>)
    requires Wf(s) && Wf(s1) && s1 == Ensured(s, key, env) && key in s1.monitors
    requires if key in s.monitors then s1 == s else ItemOf(s1, key) == Born(key, env)
    requires AttachEffect(s1, key, handler, s', r)
    ensures StaysOrIsBorn(s, key, env, s')
  {
    hide Mapped;
  }

  /** What one removal does: success takes one from the count, and the key out of the map when none is left. */
  ghost predicate RemoveEffect(s: State, reg: Option<Registration>, lenient: bool, s': State, r: Result<()>)
    requires Wf(s)
  {
    && Wf(s')
    && (r.Ok? <==> reg.Some? && reg.value.key in s.monitors && !ItemOf(s, reg.value.key).stopped && (lenient || Live(s, reg.value)))
    && s'.next == s.next
    && (r.Err? ==> s' == s)
    && (r.Ok? ==> var key := reg.value.key;
      && s'.monitors.Keys == (if s.monitors[key].count == 1 then s.monitors.Keys - {key} else s.monitors.Keys)
      && (key in s'.monitors ==>
        && s'.monitors[key].count == s.monitors[key].count - 1
        && Handlers(s', key) == Handlers(s, key) - {reg.value.id}
        && !ItemOf(s', key).stopped)
      && forall k | k in s.monitors && k != key :: s'.monitors[k] == s.monitors[k] && ItemOf(s', k) == ItemOf(s, k))
    && (r.Err? ==> r.error == RemoveError(s, reg))
    && (r.Ok? ==> HandlerGone(s, reg.value, s'))
  }

  /** Why a removal fails. */
  function RemoveError(s: State, reg: Option<Registration>): Error
    requires Wf(s)
  {
    if reg.None? then NilRegistration
    else if reg.value.key !in s.monitors then NoMonitor
    else if ItemOf(s, reg.value.key).stopped then InformerStopped
    else UnknownHandle
  }

  /** The monitor of the key loses the handler, and is stopped if its key is dropped; no other monitor changes. */
  ghost predicate HandlerGone(s: State, reg: Registration, s': State)
    requires Wf(s) && reg.key in s.monitors
  {
    var n := s.monitors[reg.key].item;
    && |s'.items| == |s.items| && (forall i | 0 <= i < |s.items| && i != n :: s'.items[i] == s.items[i])
    && s'.items[n] == s.items[n].(
         informer := s.items[n].informer.(handlers := s.items[n].informer.handlers - {reg.id}),
         stopped := reg.key !in s'.monitors,
         closes := s.items[n].closes + if reg.key in s'.monitors then 0 else 1)
  }

  /** What the invariant says about one key. */
  lemma OneEntry(s: State, key: ObjectKey)
    requires Inv(s)
    ensures Wf(s)
    ensures key in s.monitors ==>
            && (!ItemOf(s, key).stopped ==> s.monitors[key].count >= 1)
            && forall k | k in s.monitors && k != key :: s.monitors[k].item != s.monitors[key].item
  {
    if key in s.monitors {
      assert Mapped(s, s.monitors[key].item);
      forall k | k in s.monitors && k != key ensures s.monitors[k].item != s.monitors[key].item {
        assert ItemOf(s, k).key == k;
      }
    }
  }

  /** Removing fails exactly for a nil registration, a missing or stopped monitor, and a refused unknown handle. */
  lemma RemoveSucceedsIff(s: State, reg: Option<Registration>, lenient: bool)
    requires Inv(s)
    ensures var (s', r) := Remove(s, reg, lenient); RemoveEffect(s, reg, lenient, s', r)
  {
    hide Inv;
    OneEntry(s, if reg.Some? then reg.value.key else ObjectKey("", ""));
  }

  /** A step of the environment changes one monitor, and no registration: the map, the counts and the handlers stay. */
  lemma EnvironmentEffect(s: State, l: Label)
    requires Wf(s) && Enabled(s, l) && !l.AddOp? && !l.RemoveOp?
    ensures var s' := Apply(s, l);
            && s'.monitors == s.monitors && s'.next == s.next && |s'.items| == |s.items|
            && (forall i | 0 <= i < |s.items| ::
              && s'.items[i].key == s.items[i].key && s'.items[i].informer.handlers == s.items[i].informer.handlers
              && (l.Cancelled? || s'.items[i].stopped == s.items[i].stopped))
            && (forall k | k in s.monitors :: Handlers(s', k) == Handlers(s, k))
    ensures var s' := Apply(s, l); var y := s'.items[l.i];
            && (forall i | 0 <= i < |s.items| && i != l.i :: s'.items[i] == s.items[i])
            && (l.Cancelled? ==> y.stopped && y.closes == s.items[l.i].closes + if s.items[l.i].stopped then 0 else 1)
            && (l.RunEnds? ==> y.informer.ended) && (l.StoreChanges? ==> y.informer.store == l.store)
  {
    var s' := Apply(s, l);
    forall k | k in s.monitors ensures Handlers(s', k) == Handlers(s, k) {}
  }

  /**
   Reading answers with an object exactly if there is a monitor for the key of the handle and the object of that
   namespace and name is in its cache; otherwise with what is missing.
   */
  lemma ReadOutcome(s: State, reg: Option<Registration>)
    requires Inv(s)
    ensures GetSecret(s, None) == Err(NilRegistration)
    ensures reg.Some? && reg.value.key !in s.monitors ==> GetSecret(s, reg) == Err(NoMonitor)
    ensures reg.Some? && reg.value.key in s.monitors ==>
            var key := reg.value.key; var store := ItemOf(s, key).informer.store;
            && (forall o :: GetSecret(s, reg) == Ok(o) <==>
                 key.ns != "" && o.ns == key.ns && o.name == key.name && o in store.Values)
            && (GetSecret(s, reg).Err? ==> GetSecret(s, reg) == Err(NotFound))
  {
    if reg.Some? && reg.value.key in s.monitors {
      var i := ItemOf(s, reg.value.key);
      assert ItemOk(s.items[s.monitors[reg.value.key].item]) && i.key == reg.value.key;
      forall o ensures GetItem(i) == Some(o) <==>
                       i.key.ns != "" && o.ns == i.key.ns && o.name == i.key.name && o in i.informer.store.Values {
        GetItemExact(i, o);
      }
    }
  }

  // ---- Counting ----

  lemma AttachFaithful(s: State, key: ObjectKey, handler: Handler)
    requires Wf(s) && ItemsOk(s) && DroppedClosed(s) && EntriesOk(s, {key}) && key in s.monitors && Faithful(s)
    ensures Faithful(Attach(s, key, handler).0)
  {
    AttachFacts(s, key, handler);
    var (s', r) := Attach(s, key, handler);
    if r.Ok? {
      assert s.next !in s.items[s.monitors[key].item].informer.handlers;
      assert Handlers(s', key).Keys == Handlers(s, key).Keys + {s.next};
      forall j | 0 <= j < |s'.items| && !Mapped(s', j) ensures s'.items[j].informer.handlers == map[] {
        assert Mapped(s, s.monitors[key].item);
      }
    }
  }

  lemma AddFaithful(s: State, key: ObjectKey, handler: Option<Handler>, env: Env)
    requires Inv(s) && Faithful(s) && EnvOk(key, env)
    ensures Faithful(Add(s, key, handler, env).0)
  {
    if handler.Some? {
      var s1 := Ensured(s, key, env);
      EnsuredOk(s, key, env);
      forall j | 0 <= j < |s1.items| && !Mapped(s1, j) ensures s1.items[j].informer.handlers == map[] {
        if j < |s.items| {
          assert s1.items[j] == s.items[j] && !Mapped(s, j);
        }
      }
      AttachFaithful(s1, key, handler.value);
    }
  }

  lemma FaithfulStep(s: State, l: Label)
    requires Inv(s) && Faithful(s) && Enabled(s, l) && !l.RemoveOp?
    ensures Faithful(Apply(s, l))
  {
    if l.AddOp? {
      AddFaithful(s, l.key, l.handler, l.env);
    } else {
      var s' := Apply(s, l);
      forall j | 0 <= j < |s.items|
        ensures Mapped(s', j) == Mapped(s, j) && s'.items[j].informer.handlers == s.items[j].informer.handlers {
      }
    }
  }

  /**
   The counts stay right over a removal exactly when nothing is there to remove from, or the informer is strict,
   or the handle is really there.
   */
  lemma RemoveKeepsCountsIff(s: State, reg: Option<Registration>, lenient: bool)
    requires Inv(s) && Faithful(s)
    ensures Faithful(Remove(s, reg, lenient).0) <==>
            (reg.None? || reg.value.key !in s.monitors || ItemOf(s, reg.value.key).stopped || !lenient || Live(s, reg.value))
  {
    hide Inv, Remove;
    RemoveSucceedsIff(s, reg, lenient);
    if Remove(s, reg, lenient).1.Ok? {
      RemoveLeavesOthers(s, reg.value, lenient);
      if Live(s, reg.value) {
        RemovingLive(s, reg.value, lenient);
      } else {
        RemovingStale(s, reg.value);
      }
    }
  }

  /** Everything but the monitor of one key is as before; that key may have left the map. */
  ghost predicate OnlyTouches(s: State, s': State, key: ObjectKey)
    requires Wf(s) && Wf(s') && key in s.monitors
  {
    var n := s.monitors[key].item;
    && |s'.items| == |s.items| && Mapped(s, n) && (Mapped(s', n) <==> key in s'.monitors)
    && (forall j | 0 <= j < |s.items| && j != n :: s'.items[j] == s.items[j] && Mapped(s', j) == Mapped(s, j))
    && (forall k | k in s.monitors && k != key :: k in s'.monitors && s'.monitors[k] == s.monitors[k] && s.monitors[k].item != n)
    && (forall k | k in s'.monitors :: k in s.monitors)
  }

  lemma RemoveLeavesOthers(s: State, reg: Registration, lenient: bool)
    requires Inv(s) && Remove(s, Some(reg), lenient).1.Ok?
    ensures OnlyTouches(s, Remove(s, Some(reg), lenient).0, reg.key)
  {
    var s' := Remove(s, Some(reg), lenient).0;
    var n := s.monitors[reg.key].item;
    assert ItemOf(s, reg.key).key == reg.key;
    forall k | k in s.monitors && k != reg.key ensures s.monitors[k].item != n {
      assert ItemOf(s, k).key == k;
    }
    forall j | 0 <= j < |s.items| && j != n ensures Mapped(s', j) == Mapped(s, j) {}
  }

  lemma RemovedHandler(s: State, reg: Registration, lenient: bool)
    requires Wf(s) && Remove(s, Some(reg), lenient).1.Ok? && Live(s, reg)
    ensures var s' := Remove(s, Some(reg), lenient).0; var n := s.monitors[reg.key].item;
            && |s'.items| == |s.items| && |s'.items[n].informer.handlers| == |s.items[n].informer.handlers| - 1
            && (reg.key in s'.monitors ==> s'.monitors[reg.key] == Entry(n, s.monitors[reg.key].count - 1))
            && (reg.key !in s'.monitors ==> s.monitors[reg.key].count <= 1)
  {
    var n := s.monitors[reg.key].item;
    var before, after := s.items[n].informer.handlers, Remove(s, Some(reg), lenient).0.items[n].informer.handlers;
    assert after.Keys == before.Keys - {reg.id} && |before| == |before.Keys| && |after| == |after.Keys|;
  }

  lemma RemovingLive(s: State, reg: Registration, lenient: bool)
    requires Inv(s) && Faithful(s) && Remove(s, Some(reg), lenient).1.Ok? && Live(s, reg)
    ensures Faithful(Remove(s, Some(reg), lenient).0)
  {
    RemoveLeavesOthers(s, reg, lenient);
    RemovedHandler(s, reg, lenient);
    hide OnlyTouches, Faithful, Remove;
    OneHandlerLess(s, Remove(s, Some(reg), lenient).0, reg.key);
  }

  lemma OneHandlerLess(s: State, s': State, key: ObjectKey)
    requires Faithful(s) && Wf(s') && key in s.monitors && OnlyTouches(s, s', key)
    requires var n := s.monitors[key].item;
             && |s'.items[n].informer.handlers| == |s.items[n].informer.handlers| - 1
             && (key in s'.monitors ==> s'.monitors[key] == Entry(n, s.monitors[key].count - 1))
             && (key !in s'.monitors ==> s.monitors[key].count <= 1)
    ensures Faithful(s')
  {
    hide Mapped;
  }

  lemma RemovingStale(s: State, reg: Registration)
    requires Inv(s) && Faithful(s) && Remove(s, Some(reg), true).1.Ok? && !Live(s, reg)
    ensures !Faithful(Remove(s, Some(reg), true).0)
  {
    var s' := Remove(s, Some(reg), true).0;
    var n := s.monitors[reg.key].item;
    RemoveLeavesOthers(s, reg, true);
    assert s'.items[n].informer.handlers == s.items[n].informer.handlers;
    assert |Handlers(s, reg.key)| == s.monitors[reg.key].count >= 1;
    assert reg.key !in s'.monitors ==> !Mapped(s', n);
  }

  // ---- A stopped monitor that is still mapped ----

  /**
   Once a cancelled monitor is in the map while the lock is free, its key is stuck: in every later state it is
   still there with the same count, and every later add, and every removal, for the key fails.
   */
  lemma {:induction false} StuckKey(s: State, key: ObjectKey, run: seq<Label>)
    requires Inv(s) && IsRun(s, run)
    requires key in s.monitors && ItemOf(s, key).stopped
    ensures var t := After(s, run);
            && key in t.monitors && t.monitors[key] == s.monitors[key] && ItemOf(t, key).stopped
            && (forall handler, env | EnvOk(key, env) :: Add(t, key, handler, env).1.Err?)
            && (forall id, lenient :: Remove(t, Some(Registration(id, key)), lenient) == (t, Err(InformerStopped)))
    decreases |run|
  {
    if run != [] {
      var l := run[0];
      var s' := Apply(s, l);
      InvStep(s, l);
      match l {
        case AddOp(k, handler, env) => AddSucceedsIff(s, k, handler, env);
        case RemoveOp(reg, lenient) => RemoveSucceedsIff(s, reg, lenient);
        case _ =>
      }
      assert key in s'.monitors && s'.monitors[key] == s.monitors[key] && ItemOf(s', key).stopped;
      StuckKey(s', key, run[1..]);
    }
  }

  /** A run that gets there: a handler is added, and then its monitor is cancelled. */
  lemma StuckKeyIsReached(key: ObjectKey, handler: Handler, env: Env)
    requires EnvOk(key, env) && !env.cancelled
    ensures var run := [AddOp(key, Some(handler), env), Cancelled(0)];
            && IsRun(INIT, run)
            && key in After(INIT, run).monitors && ItemOf(After(INIT, run), key).stopped
  {
    var l1, l2 := AddOp(key, Some(handler), env), Cancelled(0);
    var s1 := Apply(INIT, l1);
    assert [l1, l2][1..] == [l2] && [l2][1..] == [];
    assert After(INIT, [l1, l2]) == After(s1, [l2]) == Apply(s1, l2);
  }

  /** In every run from the start: nothing leaks, nothing is closed twice, and an empty map means that all are closed. */
  lemma NothingLeaks(run: seq<Label>)
    requires IsRun(INIT, run)
    ensures var s := After(INIT, run);
            && Inv(s)
            && (forall i | 0 <= i < |s.items| :: s.items[i].closes <= 1)
            && (s.monitors == map[] ==> forall i | 0 <= i < |s.items| :: s.items[i].closes == 1)
  {
    InvRun(INIT, run);
  }

  /** A handle removed twice: the second removal stops the monitor although another handler is still live. */
  lemma RemovingTwiceBreaksCounts(key: ObjectKey, h: Handler, store: map<string, SecretObject>)
    requires StoreOk(key, store)
    ensures var env := Env(false, false, store);
            var s1 := Add(INIT, key, Some(h), env).0;
            var s2 := Add(s1, key, Some(h), env).0;
            var s3 := Remove(s2, Some(Registration(0, key)), true).0;
            var (s4, r) := Remove(s3, Some(Registration(0, key)), true);
            && r == Ok(()) && s4.monitors == map[]
            && |s4.items| == 1 && s4.items[0].stopped && s4.items[0].informer.handlers == map[1 := h]
  {
    var env := Env(false, false, store);
    var s1 := Add(INIT, key, Some(h), env).0;
    assert s1.monitors == map[key := Entry(0, 1)] && s1.items[0].informer.handlers == map[0 := h];
    var s2 := Add(s1, key, Some(h), env).0;
    assert s2.monitors == map[key := Entry(0, 2)] && s2.items[0].informer.handlers == map[0 := h, 1 := h];
    var s3 := Remove(s2, Some(Registration(0, key)), true).0;
    assert s3.monitors == map[key := Entry(0, 1)] && s3.items[0].informer.handlers == map[1 := h];
  }
}
