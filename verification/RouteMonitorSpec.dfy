/**
 The monitors with one informer for each pair of route and secret, one whole operation at a time, and the route
 registry on top of them. Every monitor ever created stays in `items`, also after it left the map.
 */
module RouteMonitorSpec {
  import opened Base
  import opened RouteNames
  import Single = ItemMonitor

  /** A monitor counts its own handlers, and is stopped once and for all. `selector` is what its informer watches. */
  datatype Item = Item(key: ObjectKey, selector: ObjectKey, count: int, stopped: bool, closes: nat, informer: Single.Informer)

  datatype State = State(monitors: map<ObjectKey, nat>, items: seq<Item>, next: nat)

  const INIT := State(map[], [], 0)

  predicate Wf(s: State) {
    forall k | k in s.monitors :: s.monitors[k] < |s.items|
  }

  function ItemOf(s: State, key: ObjectKey): Item
    requires Wf(s) && key in s.monitors
  {
    s.items[s.monitors[key]]
  }

  // ---- One monitor ----

  function NewItem(key: ObjectKey, selector: ObjectKey): Item {
    Item(key, selector, 0, false, 0, Single.Informer(false, false, false, map[], map[]))
  }

  function StopItem(i: Item): Item {
    if i.stopped then i else i.(stopped := true, closes := i.closes + 1)
  }

  function AddHandler(i: Item, id: nat, handler: Handler): (Item, Result<Registration>) {
    if i.stopped then (i, Err(InformerStopped))
    else match Single.AddTo(i.informer, id, handler)
      case None => (i, Err(InformerStopped))
      case Some(inf) => (i.(informer := inf, count := i.count + 1), Ok(Registration(id, i.key)))
  }

  function RemoveHandler(i: Item, reg: Registration, lenient: bool): (Item, Result<()>) {
    match Single.RemoveFrom(i.informer, reg.id, lenient)
    case None => (i, Err(UnknownHandle))
    case Some(inf) => (i.(informer := inf, count := i.count - 1), Ok(()))
  }

  function Lookup(i: Item, name: string): Option<SecretObject> {
    var k := PathKey(i.key.ns, name);
    if k in i.informer.store then Some(i.informer.store[k]) else None
  }

  // ---- The operations ----

  function Ensured(s: State, key: ObjectKey): State
    requires ValidateName(key.name)
  {
    if key in s.monitors then s
    else
      var selector := ObjectKey(key.ns, GetSecretName(key.name, true).value);
      s.(monitors := s.monitors[key := |s.items|], items := s.items + [NewItem(key, selector)])
  }

  function Add(s: State, key: ObjectKey, handler: Handler): (r: (State, Result<Registration>))
    requires Wf(s)
    ensures Wf(r.0)
  {
    if !ValidateName(key.name) then (s, Err(InvalidName))
    else
      var s1 := Ensured(s, key);
      match AddHandler(ItemOf(s1, key), s1.next, handler)
      case (_, Err(why)) => (s1, Err(why))
      case (i, Ok(reg)) => (s1.(items := s1.items[s1.monitors[key] := i], next := s1.next + 1), Ok(reg))
  }

  function Remove(s: State, reg: Option<Registration>, lenient: bool): (r: (State, Result<()>))
    requires Wf(s)
    ensures Wf(r.0)
  {
    if reg.None? then (s, Err(NilRegistration))
    else if reg.value.key !in s.monitors then (s, Ok(()))
    else
      var n := s.monitors[reg.value.key];
      match RemoveHandler(s.items[n], reg.value, lenient)
      case (_, Err(why)) => (s, Err(why))
      case (i, Ok(_)) =>
        if i.count <= 0 then (s.(monitors := s.monitors - {reg.value.key}, items := s.items[n := StopItem(i)]), Ok(()))
        else (s.(items := s.items[n := i]), Ok(()))
  }

  function GetSecret(s: State, reg: Option<Registration>): Result<SecretObject>
    requires Wf(s)
  {
    if reg.None? then Err(NilRegistration)
    else if reg.value.key !in s.monitors then Err(NoMonitor)
    else match GetSecretName(reg.value.key.name, false)
      case Err(why) => Err(why)
      case Ok(name) =>
        match Lookup(ItemOf(s, reg.value.key), name)
        case None => Err(NotFound)
        case Some(o) => Ok(o)
  }

  // ---- Runs ----

  datatype Label =
    | AddOp(key: ObjectKey, handler: Handler)
    | RemoveOp(reg: Option<Registration>, lenient: bool)
    | RunStarts(i: nat)                                       // the goroutine that runs informer i begins
    | RunEnds(i: nat)
    | StoreChanges(i: nat, store: map<string, SecretObject>)

  predicate Enabled(s: State, l: Label) {
    match l
    case AddOp(_, _) => true
    case RemoveOp(_, _) => true
    case RunStarts(i) => i < |s.items|
    case RunEnds(i) => i < |s.items| && s.items[i].informer.ran && s.items[i].closes > 0
    case StoreChanges(i, store) => i < |s.items| && s.items[i].informer.ran && Single.StoreOk(s.items[i].selector, store)
  }

  function OnInformer(s: State, i: nat, inf: Single.Informer): State
    requires i < |s.items|
  {
    s.(items := s.items[i := s.items[i].(informer := inf)])
  }

  function Apply(s: State, l: Label): (s': State)
    requires Wf(s) && Enabled(s, l)
    ensures Wf(s')
  {
    match l
    case AddOp(key, handler) => Add(s, key, handler).0
    case RemoveOp(reg, lenient) => Remove(s, reg, lenient).0
    case RunStarts(i) => OnInformer(s, i, s.items[i].informer.(ran := true))
    case RunEnds(i) => OnInformer(s, i, s.items[i].informer.(ended := true))
    case StoreChanges(i, store) => OnInformer(s, i, s.items[i].informer.(synced := true, store := store))
  }

  predicate IsRun(s: State, run: seq<Label>)
    requires Wf(s)
    decreases |run|
  {
    run == [] || (Enabled(s, run[0]) && IsRun(Apply(s, run[0]), run[1..]))
  }

  function After(s: State, run: seq<Label>): (s': State)
    requires Wf(s) && IsRun(s, run)
    ensures Wf(s')
    decreases |run|
  {
    if run == [] then s else After(Apply(s, run[0]), run[1..])
  }

  // ---- What every run keeps ----

  /** The monitor watches the secret that reading decodes from its key, and closes its channel at most once. */
  predicate ItemOk(i: Item) {
    && ValidateName(i.key.name)
    && i.selector == ObjectKey(i.key.ns, GetSecretName(i.key.name, false).value)
    && Single.StoreOk(i.selector, i.informer.store)
    && i.closes == (if i.stopped then 1 else 0)
    && (i.informer.ended ==> i.stopped)
  }

  /** A monitor in the map runs, and counts at least one and at most all of its handlers. */
  predicate MappedOk(i: Item) {
    !i.stopped && 1 <= i.count <= |i.informer.handlers|
  }

  predicate Fresh(i: Item, next: nat) {
    forall id | id in i.informer.handlers :: id < next
  }

  ghost predicate ItemsOk(s: State) {
    forall i | 0 <= i < |s.items| :: ItemOk(s.items[i]) && Fresh(s.items[i], s.next)
  }

  /** The map finds monitors under their keys, and every monitor that was not stopped. */
  ghost predicate Placed(s: State) {
    && Wf(s)
    && (forall k | k in s.monitors :: ItemOf(s, k).key == k)
    && (forall i | 0 <= i < |s.items| && !s.items[i].stopped ::
          s.items[i].key in s.monitors && s.monitors[s.items[i].key] == i)
  }

  ghost predicate Inv(s: State) {
    Wf(s) && ItemsOk(s) && Placed(s) && forall k | k in s.monitors :: MappedOk(ItemOf(s, k))
  }

  lemma AddedItem(i: Item, id: nat, handler: Handler)
    requires ItemOk(i) && Fresh(i, id) && !i.stopped && 0 <= i.count <= |i.informer.handlers|
    ensures var (i', r) := AddHandler(i, id, handler);
            && r == Ok(Registration(id, i.key))
            && ItemOk(i') && Fresh(i', id + 1) && MappedOk(i') && i'.key == i.key && i'.count == i.count + 1
            && i'.informer.handlers == i.informer.handlers[id := handler]
  {
    var hs := i.informer.handlers;
    assert hs[id := handler].Keys == hs.Keys + {id};
    assert |hs[id := handler].Keys| == |hs[id := handler]| && |hs.Keys| == |hs|;
  }

  /** Replacing the monitor of a key by a later version of itself. */
  lemma PutItem(s: State, key: ObjectKey, i: Item, next: nat)
    requires ItemsOk(s) && Placed(s) && key in s.monitors && forall k | k in s.monitors && k != key :: MappedOk(ItemOf(s, k))
    requires i.key == key && ItemOk(i) && MappedOk(i) && Fresh(i, next) && s.next <= next
    ensures var s' := s.(items := s.items[s.monitors[key] := i], next := next);
            Inv(s') && ItemOf(s', key) == i && forall k | k in s.monitors && k != key :: ItemOf(s', k) == ItemOf(s, k)
  {
    hide ItemOk;
    var s' := s.(items := s.items[s.monitors[key] := i], next := next);
    forall k | k in s.monitors && k != key ensures ItemOf(s', k) == ItemOf(s, k) {
      assert ItemOf(s, k).key == k && ItemOf(s, key).key == key;
    }
  }

  /** Taking a stopped monitor out of the map. */
  lemma DropItem(s: State, key: ObjectKey, i: Item)
    requires Inv(s) && key in s.monitors
    requires i.key == key && ItemOk(i) && i.stopped && Fresh(i, s.next)
    ensures var s' := s.(monitors := s.monitors - {key}, items := s.items[s.monitors[key] := i]);
            Inv(s') && forall k | k in s.monitors && k != key :: ItemOf(s', k) == ItemOf(s, k)
  {
    hide ItemOk, MappedOk, Fresh;
    var s' := s.(monitors := s.monitors - {key}, items := s.items[s.monitors[key] := i]);
    forall k | k in s.monitors && k != key ensures ItemOf(s', k) == ItemOf(s, k) {
      assert ItemOf(s, k).key == k && ItemOf(s, key).key == key;
    }
  }

  lemma AppendItem(s: State, i: Item)
    requires ItemsOk(s) && Placed(s) && ItemOk(i) && Fresh(i, s.next) && i.key !in s.monitors
    ensures var s1 := s.(monitors := s.monitors[i.key := |s.items|], items := s.items + [i]);
            ItemsOk(s1) && Placed(s1) && (forall k | k in s.monitors :: ItemOf(s1, k) == ItemOf(s, k)) && ItemOf(s1, i.key) == i
  {
    hide ItemOk, Fresh;
    var s1 := s.(monitors := s.monitors[i.key := |s.items|], items := s.items + [i]);
    forall n | 0 <= n < |s1.items| && !s1.items[n].stopped
      ensures s1.items[n].key in s1.monitors && s1.monitors[s1.items[n].key] == n {
      if n < |s.items| {
        assert s.items[n].key in s.monitors;
      }
    }
  }

  /** After the first half of adding, the monitor is there, and perhaps has no handler yet. */
  ghost predicate Ready(s: State, key: ObjectKey, s1: State)
    requires Wf(s)
  {
    && ItemsOk(s1) && Placed(s1) && s1.next == s.next && s1.monitors.Keys == s.monitors.Keys + {key}
    && (forall k | k in s.monitors :: ItemOf(s1, k) == ItemOf(s, k))
    && (key !in s.monitors ==> ItemOf(s1, key).count == 0 && ItemOf(s1, key).informer.handlers == map[])
    && (forall k | k in s.monitors && k != key :: MappedOk(ItemOf(s1, k)))
    && !ItemOf(s1, key).stopped && 0 <= ItemOf(s1, key).count <= |ItemOf(s1, key).informer.handlers|
  }

  lemma EnsuredReady(s: State, key: ObjectKey)
    requires Inv(s) && ValidateName(key.name)
    ensures Wf(s) && Ready(s, key, Ensured(s, key))
  {
    hide ItemsOk, Placed, ItemOk, Fresh, MappedOk, Ready, ValidateName, Split;
    if key in s.monitors {
      ReadyAlready(s, key);
    } else {
      NewItemOk(key, s.next);
      ReadyNew(s, NewItem(key, ObjectKey(key.ns, GetSecretName(key.name, true).value)));
    }
  }

  lemma ReadyAlready(s: State, key: ObjectKey)
    requires Inv(s) && key in s.monitors
    ensures Ready(s, key, s)
  {
    hide ItemsOk, Placed, ItemOk, Fresh;
  }

  lemma ReadyNew(s: State, i: Item)
    requires Inv(s) && i.key !in s.monitors && ItemOk(i) && Fresh(i, s.next)
    requires !i.stopped && i.count == 0 && i.informer.handlers == map[]
    ensures Ready(s, i.key, s.(monitors := s.monitors[i.key := |s.items|], items := s.items + [i]))
  {
    hide ItemsOk, Placed, ItemOk, Fresh, MappedOk;
    AppendItem(s, i);
  }

  lemma NewItemOk(key: ObjectKey, next: nat)
    requires ValidateName(key.name)
    ensures var i := NewItem(key, ObjectKey(key.ns, GetSecretName(key.name, true).value)); ItemOk(i) && Fresh(i, next)
  {
  }

  /** Adding a handler to a monitor in the map, which may have none yet. */
  lemma AddToReady(s: State, key: ObjectKey, s1: State, handler: Handler)
    requires Wf(s) && Ready(s, key, s1)
    ensures var (i', r) := AddHandler(ItemOf(s1, key), s1.next, handler);
            var s' := s1.(items := s1.items[s1.monitors[key] := i'], next := s1.next + 1);
            && r == Ok(Registration(s.next, key)) && Inv(s') && AddEffect(s, key, handler, s')
  {
    hide AddHandler, Ready, AddEffect, ItemsOk, Placed, ItemOk, Fresh, MappedOk, Inv;
    ReadyItem(s, key, s1);
    AddedItem(ItemOf(s1, key), s1.next, handler);
    PutItem(s1, key, AddHandler(ItemOf(s1, key), s1.next, handler).0, s1.next + 1);
    AddedEffect(s, key, s1, handler, AddHandler(ItemOf(s1, key), s1.next, handler).0);
  }

  lemma AddedEffect(s: State, key: ObjectKey, s1: State, handler: Handler, i: Item)
    requires Wf(s) && Ready(s, key, s1) && i.count == ItemOf(s1, key).count + 1
    requires i.informer.handlers == ItemOf(s1, key).informer.handlers[s.next := handler]
    requires var s' := s1.(items := s1.items[s1.monitors[key] := i], next := s1.next + 1);
             Wf(s') && ItemOf(s', key) == i && forall k | k in s1.monitors && k != key :: ItemOf(s', k) == ItemOf(s1, k)
    ensures AddEffect(s, key, handler, s1.(items := s1.items[s1.monitors[key] := i], next := s1.next + 1))
  {
    hide ItemsOk, Placed, MappedOk;
  }

  lemma ReadyItem(s: State, key: ObjectKey, s1: State)
    requires Wf(s) && Ready(s, key, s1)
    ensures Wf(s1) && key in s1.monitors && s1.next == s.next && ItemsOk(s1) && Placed(s1)
    ensures var i := ItemOf(s1, key);
            ItemOk(i) && Fresh(i, s1.next) && i.key == key && !i.stopped && 0 <= i.count <= |i.informer.handlers|
    ensures forall k | k in s1.monitors && k != key :: MappedOk(ItemOf(s1, k))
  {
    hide ItemOk, Fresh, MappedOk;
  }

  /** One more handler for a key, which is in the map then. */
  ghost predicate AddEffect(s: State, key: ObjectKey, handler: Handler, s': State)
    requires Wf(s)
  {
    && Wf(s') && s'.next == s.next + 1
    && s'.monitors.Keys == s.monitors.Keys + {key}
    && ItemOf(s', key).count == (if key in s.monitors then ItemOf(s, key).count else 0) + 1
    && ItemOf(s', key).informer.handlers
         == (if key in s.monitors then ItemOf(s, key).informer.handlers else map[])[s.next := handler]
    && forall k | k in s.monitors && k != key :: ItemOf(s', k) == ItemOf(s, k)
  }

  /** In a reachable state, adding fails exactly for an invalid name, and then changes nothing. */
  lemma AddOutcome(s: State, key: ObjectKey, handler: Handler)
    requires Inv(s)
    ensures var (s', r) := Add(s, key, handler);
            && (r.Ok? <==> ValidateName(key.name))
            && (r.Err? ==> s' == s && r.error == InvalidName)
            && (r.Ok? ==> Inv(s') && r.value == Registration(s.next, key) && AddEffect(s, key, handler, s'))
  {
    hide Ensured, AddHandler, Inv, Ready, AddEffect, ValidateName;
    if ValidateName(key.name) {
      EnsuredReady(s, key);
      AddToReady(s, key, Ensured(s, key), handler);
    }
  }

  lemma RemovedItem(i: Item, reg: Registration, lenient: bool)
    requires ItemOk(i) && MappedOk(i)
    ensures var (i', r) := RemoveHandler(i, reg, lenient);
            && (r.Ok? <==> reg.id in i.informer.handlers || lenient)
            && (r.Ok? ==>
              && ItemOk(i') && i'.key == i.key && !i'.stopped && i'.count == i.count - 1 && i'.count <= |i'.informer.handlers|
              && i'.informer.handlers == i.informer.handlers - {reg.id})
  {
    var hs := i.informer.handlers;
    assert (hs - {reg.id}).Keys == hs.Keys - {reg.id};
    assert |(hs - {reg.id}).Keys| == |hs - {reg.id}| && |hs.Keys| == |hs|;
    if reg.id !in hs {
      assert hs - {reg.id} == hs;
    }
  }

  /** In a reachable state, removing fails exactly for a nil registration and a refused unknown handle. */
  lemma RemoveOutcome(s: State, reg: Option<Registration>, lenient: bool)
    requires Inv(s)
    ensures var (s', r) := Remove(s, reg, lenient);
            && Inv(s') && s'.next == s.next && (r.Err? ==> s' == s)
            && (r.Ok? <==> reg.Some? && (reg.value.key !in s.monitors || lenient
                                         || reg.value.id in ItemOf(s, reg.value.key).informer.handlers))
            && (r.Ok? && reg.value.key in s.monitors ==> RemoveEffect(s, reg.value, s'))
            && (r.Ok? && reg.value.key !in s.monitors ==> s' == s)
  {
    if reg.Some? && reg.value.key in s.monitors {
      var key, i := reg.value.key, ItemOf(s, reg.value.key);
      RemovedItem(i, reg.value, lenient);
      var (i', r) := RemoveHandler(i, reg.value, lenient);
      if r.Ok? {
        assert Fresh(i', s.next);
        hide RemoveHandler, ItemsOk, Placed;
        if i'.count <= 0 {
          DropItem(s, key, StopItem(i'));
        } else {
          PutItem(s, key, i', s.next);
        }
      }
    }
  }

  /** One handler less for a key, which leaves the map with its last one. */
  ghost predicate RemoveEffect(s: State, reg: Registration, s': State)
    requires Wf(s) && reg.key in s.monitors
  {
    var before := ItemOf(s, reg.key);
    && Wf(s')
    && s'.monitors == (if before.count == 1 then s.monitors - {reg.key} else s.monitors)
    && (before.count != 1 ==>
      && ItemOf(s', reg.key).count == before.count - 1
      && ItemOf(s', reg.key).informer.handlers == before.informer.handlers - {reg.id})
    && forall k | k in s.monitors && k != reg.key :: ItemOf(s', k) == ItemOf(s, k)
  }

  lemma InformerInv(s: State, l: Label)
    requires Inv(s) && Enabled(s, l) && !l.AddOp? && !l.RemoveOp?
    ensures Inv(Apply(s, l))
    ensures var s' := Apply(s, l);
            && s'.monitors == s.monitors && s'.next == s.next
            && forall k | k in s.monitors :: ItemOf(s', k).informer.handlers == ItemOf(s, k).informer.handlers
                                             && ItemOf(s', k).count == ItemOf(s, k).count
  {
    var inf := Apply(s, l).items[l.i].informer;
    assert ItemOk(s.items[l.i].(informer := inf)) && Fresh(s.items[l.i].(informer := inf), s.next);
    hide ItemOk, Fresh;
    NewInformer(s, l.i, inf);
  }

  lemma NewInformer(s: State, i: nat, inf: Single.Informer)
    requires Inv(s) && i < |s.items| && inf.handlers == s.items[i].informer.handlers
    requires ItemOk(s.items[i].(informer := inf)) && Fresh(s.items[i].(informer := inf), s.next)
    ensures Inv(OnInformer(s, i, inf))
    ensures var s' := OnInformer(s, i, inf);
            forall k | k in s.monitors :: ItemOf(s', k).informer.handlers == ItemOf(s, k).informer.handlers
                                          && ItemOf(s', k).count == ItemOf(s, k).count
  {
    hide ItemOk, Fresh;
  }

  lemma InvStep(s: State, l: Label)
    requires Inv(s) && Enabled(s, l)
    ensures Inv(Apply(s, l))
  {
    hide ItemOk, MappedOk;
    match l
    case AddOp(key, handler) => AddOutcome(s, key, handler);
    case RemoveOp(reg, lenient) => RemoveOutcome(s, reg, lenient);
    case _ => InformerInv(s, l);
  }

  lemma {:induction false} InvRun(s: State, run: seq<Label>)
    requires Inv(s) && IsRun(s, run)
    ensures Inv(After(s, run))
    decreases |run|
  {
    if run != [] {
      InvStep(s, run[0]);
      InvRun(Apply(s, run[0]), run[1..]);
    }
  }

  /**
   In every run, with any handles, also stale and repeated ones: no monitor in the map is stopped, no channel is
   closed twice, those of dropped monitors are closed, and what a monitor watches is what reading decodes from
   its key.
   */
  lemma EveryRun(run: seq<Label>)
    requires IsRun(INIT, run)
    ensures var s := After(INIT, run);
            && (forall k | k in s.monitors :: var i := ItemOf(s, k);
                 !i.stopped && i.closes == 0 && i.count >= 1
                 && GetSecretName(k.name, false) == Ok(i.selector.name) && i.selector.ns == k.ns)
            && (forall n | 0 <= n < |s.items| :: s.items[n].closes <= 1)
            && (forall n | 0 <= n < |s.items| && !(s.items[n].key in s.monitors && s.monitors[s.items[n].key] == n) ::
                 s.items[n].closes == 1)
  {
    InvRun(INIT, run);
    var s := After(INIT, run);
    forall k | k in s.monitors ensures ItemOk(ItemOf(s, k)) && MappedOk(ItemOf(s, k)) && ItemOf(s, k).key == k {}
  }

  // ---- One monitor at a time ----

  /** All monitors but one are as they were. */
  predicate OnlyAt(s: State, s': State, n: nat) {
    |s.items| <= |s'.items| && n < |s'.items| && forall i | 0 <= i < |s.items| && i != n :: s'.items[i] == s.items[i]
  }

  /** Adding changes one monitor, which is there already or new and not run yet: it gets the handler, and counts it. */
  lemma AddChangesOne(s: State, key: ObjectKey, handler: Handler)
    requires Inv(s) && ValidateName(key.name)
    ensures var s' := Add(s, key, handler).0;
            && key in s'.monitors && OnlyAt(s, s', s'.monitors[key])
            && s'.monitors[key] == (if key in s.monitors then s.monitors[key] else |s.items|)
            && |s'.items| == |s.items| + (if key in s.monitors then 0 else 1)
            && var y := ItemOf(s', key);
               if key in s.monitors then
                 var x := ItemOf(s, key);
                 y == x.(count := x.count + 1, informer := x.informer.(handlers := x.informer.handlers[s.next := handler]))
               else
                 && y.key == key && y.count == 1 && !y.stopped && y.closes == 0
                 && y.informer == Single.Informer(false, false, false, map[s.next := handler], map[])
  {
    hide ValidateName, Split;
    if key in s.monitors {
      MappedRuns(s, key);
    }
  }

  /**
   Removing changes at most one monitor: it loses the handler and uncounts it, and is stopped if that was the last one.
   It fails for a nil registration and for a handle that its informer refuses.
   */
  lemma RemoveChangesOne(s: State, reg: Option<Registration>, lenient: bool)
    requires Inv(s)
    ensures var (s', r) := Remove(s, reg, lenient);
            && (r.Err? ==> s' == s && r.error == if reg.None? then NilRegistration else UnknownHandle)
            && (r.Ok? && reg.value.key in s.monitors ==>
              var n := s.monitors[reg.value.key]; var x, y := s.items[n], s'.items[n];
              var last := reg.value.key !in s'.monitors;
              && |s'.items| == |s.items| && OnlyAt(s, s', n) && (last <==> x.count == 1)
              && y == x.(count := x.count - 1, stopped := last, closes := if last then 1 else 0,
                         informer := x.informer.(handlers := x.informer.handlers - {reg.value.id})))
  {
    if reg.Some? && reg.value.key in s.monitors {
      var x := ItemOf(s, reg.value.key);
      MappedRuns(s, reg.value.key);
      assert MappedOk(x);
      assert reg.value.id !in x.informer.handlers ==> x.informer.handlers - {reg.value.id} == x.informer.handlers;
    }
  }

  /** A step of an informer changes that informer, as it says, and nothing else. */
  lemma InformerChangesOne(s: State, l: Label)
    requires Wf(s) && Enabled(s, l) && !l.AddOp? && !l.RemoveOp?
    ensures var s' := Apply(s, l); var x, y := s.items[l.i], s'.items[l.i];
            && s' == s.(items := s'.items) && |s'.items| == |s.items| && OnlyAt(s, s', l.i)
            && y == x.(informer := y.informer) && y.informer.handlers == x.informer.handlers
            && (y.informer.ran <==> x.informer.ran || l.RunStarts?)
            && (y.informer.synced <==> x.informer.synced || l.StoreChanges?)
            && (y.informer.ended <==> x.informer.ended || l.RunEnds?)
            && y.informer.store == if l.StoreChanges? then l.store else x.informer.store
  {
  }

  lemma MappedRuns(s: State, key: ObjectKey)
    requires Inv(s) && key in s.monitors
    ensures Wf(s) && !ItemOf(s, key).stopped && ItemOf(s, key).closes == 0
  {
    assert ItemOk(ItemOf(s, key)) && MappedOk(ItemOf(s, key));
  }

  /** Reading returns exactly the cached object that the informer's selector names. */
  lemma ReadExactly(s: State, reg: Registration, o: SecretObject)
    requires Inv(s) && reg.key in s.monitors
    ensures var i := ItemOf(s, reg.key);
            && i.selector.ns == reg.key.ns && GetSecretName(reg.key.name, false) == Ok(i.selector.name)
            && (GetSecret(s, Some(reg)) == Ok(o) <==>
                 o in i.informer.store.Values && o.ns == i.selector.ns && o.name == i.selector.name && i.selector.ns != "")
            && (GetSecret(s, Some(reg)).Err? ==> GetSecret(s, Some(reg)) == Err(NotFound))
  {
    var i := ItemOf(s, reg.key);
    assert ItemOk(i) && i.key == reg.key;
    var x := Single.Item(i.selector, false, 0, true, i.informer);
    Single.GetItemExact(x, o);
    assert Lookup(i, i.selector.name) == Single.GetItem(x);
  }

  /** Reading fails exactly without a handle, without a monitor for it, or without the object in the cache, and says which. */
  lemma ReadOutcome(s: State, reg: Option<Registration>)
    requires Inv(s)
    ensures match GetSecret(s, reg)
            case Ok(o) =>
              reg.Some? && reg.value.key in s.monitors && o in ItemOf(s, reg.value.key).informer.store.Values
            case Err(why) =>
              if reg.None? then why == NilRegistration
              else if reg.value.key !in s.monitors then why == NoMonitor
              else
                var i := ItemOf(s, reg.value.key);
                why == NotFound && forall o ::
                  !(o in i.informer.store.Values && o.ns == i.selector.ns && o.name == i.selector.name && o.ns != "")
  {
    if reg.Some? && reg.value.key in s.monitors {
      hide Inv, GetSecret;
      forall o ensures GetSecret(s, reg) == Ok(o) <==>
                       o in ItemOf(s, reg.value.key).informer.store.Values && o.ns == ItemOf(s, reg.value.key).selector.ns
                       && o.name == ItemOf(s, reg.value.key).selector.name && o.ns != ""
              ensures GetSecret(s, reg).Err? ==> GetSecret(s, reg) == Err(NotFound) {
        ReadExactly(s, reg.value, o);
      }
      ReadExactly(s, reg.value, SecretObject("", "", ""));
    }
  }
}
