/**
 The operations of the secret monitor split at every critical section of an item lock. While an operation
 holds the monitor lock, starters, watchers and informers still take their own steps, on any monitor.
 Every run is shown to behave like a run of whole operations.
 */
module SecretProtocol {
  import opened Base
  import opened ItemMonitor
  import Spec = SecretSpec

  /** The operation that holds the lock of the map, and how far it is. */
  datatype Op =
    | Idle
    | Syncing(key: ObjectKey, handler: Handler)                // a new monitor, last in `items`, not in the map yet
    | Adding(key: ObjectKey, handler: Handler, isNew: bool)    // about to add the handler
    | Counting(key: ObjectKey, reg: Registration)              // handler added, counter not yet incremented
    | Removing(key: ObjectKey, reg: Registration)              // about to remove the handler
    | Uncounting(key: ObjectKey)                               // handler removed, counter not yet decremented
    | StoppingLast(key: ObjectKey)                             // counter is zero, about to stop the informer
    | Deleting(key: ObjectKey)                                 // stopped, about to delete the key

  datatype Output = AddOut(added: Result<Registration>) | RemoveOut(removed: Result<()>)

  /** `outs` lists what the finished operations returned. */
  datatype State = State(s: Spec.State, op: Op, outs: seq<Output>)

  const INIT := State(Spec.INIT, Idle, [])

  datatype Label =
    | BeginAdd(key: ObjectKey, handler: Option<Handler>)
    | Publish
    | AddHandler
    | CountUp
    | BeginRemove(reg: Option<Registration>)
    | RemoveHandler(lenient: bool)
    | CountDown
    | StopLast
    | Delete
    | Starts(i: nat)
    | Runs(i: nat)
    | Syncs(i: nat, store: map<string, SecretObject>)
    | WatcherStops(i: nat)
    | RunEnds(i: nat)
    | StoreChanges(i: nat, store: map<string, SecretObject>)

  predicate OpOk(c: State)
    requires Spec.Wf(c.s)
  {
    match c.op
    case Idle => true
    case Syncing(key, _) => c.s.items != [] && key !in c.s.monitors
    case _ => c.op.key in c.s.monitors
  }

  predicate Wf(c: State) {
    Spec.Wf(c.s) && OpOk(c)
  }

  function Last(c: State): nat
    requires c.s.items != []
  {
    |c.s.items| - 1
  }

  predicate Enabled(c: State, l: Label)
    requires Wf(c)
  {
    match l
    case BeginAdd(_, _) => c.op.Idle?
    case Publish => c.op.Syncing? && c.s.items[Last(c)].informer.synced
    case AddHandler => c.op.Adding?
    case CountUp => c.op.Counting?
    case BeginRemove(_) => c.op.Idle?
    case RemoveHandler(_) => c.op.Removing?
    case CountDown => c.op.Uncounting?
    case StopLast => c.op.StoppingLast?
    case Delete => c.op.Deleting?
    case Starts(i) => i < |c.s.items| && !c.s.items[i].started
    case Runs(i) => i < |c.s.items| && c.s.items[i].started && !c.s.items[i].informer.ran
    case Syncs(i, store) =>
      i < |c.s.items| && c.s.items[i].informer.ran && !c.s.items[i].informer.synced && StoreOk(c.s.items[i].key, store)
    case WatcherStops(i) => i < |c.s.items| && c.s.items[i].started
    case RunEnds(i) => i < |c.s.items| && c.s.items[i].informer.ran && c.s.items[i].closes > 0
    case StoreChanges(i, store) => i < |c.s.items| && c.s.items[i].informer.synced && StoreOk(c.s.items[i].key, store)
  }

  function WithItem(s: Spec.State, i: nat, x: Item): Spec.State
    requires i < |s.items|
  {
    s.(items := s.items[i := x])
  }

  function WithInformer(s: Spec.State, i: nat, inf: Informer): Spec.State
    requires i < |s.items|
  {
    WithItem(s, i, s.items[i].(informer := inf))
  }

  function Counted(s: Spec.State, key: ObjectKey, delta: int): Spec.State
    requires key in s.monitors
  {
    s.(monitors := s.monitors[key := Spec.Entry(s.monitors[key].item, s.monitors[key].count + delta)])
  }

  function Stopped(s: Spec.State, key: ObjectKey): Spec.State
    requires Spec.Wf(s) && key in s.monitors
  {
    WithItem(s, s.monitors[key].item, StopSection(Spec.ItemOf(s, key)).0)
  }

  function Without(s: Spec.State, key: ObjectKey): Spec.State {
    s.(monitors := s.monitors - {key})
  }

  function Apply(c: State, l: Label): (c': State)
    requires Wf(c) && Enabled(c, l)
    ensures Wf(c')
  {
    var s := c.s;
    match l
    case BeginAdd(key, handler) =>
      if handler.None? then c.(outs := c.outs + [AddOut(Err(NilHandler))])
      else if key in s.monitors then c.(op := Adding(key, handler.value, false))
      else c.(s := s.(items := s.items + [NewItem(key)]), op := Syncing(key, handler.value))
    case Publish =>
      c.(s := s.(monitors := s.monitors[c.op.key := Spec.Entry(Last(c), 0)]), op := Adding(c.op.key, c.op.handler, true))
    case AddHandler =>
      (match AddSection(Spec.ItemOf(s, c.op.key), s.next, c.op.handler)
       case (_, Err(why)) => c.(op := Idle, outs := c.outs + [AddOut(Err(why))])
       case (x, Ok(reg)) =>
         c.(s := WithItem(s, s.monitors[c.op.key].item, x).(next := s.next + 1), op := Counting(c.op.key, reg)))
    case CountUp => State(Counted(s, c.op.key, 1), Idle, c.outs + [AddOut(Ok(c.op.reg))])
    case BeginRemove(reg) =>
      if reg.None? then c.(outs := c.outs + [RemoveOut(Err(NilRegistration))])
      else if reg.value.key !in s.monitors then c.(outs := c.outs + [RemoveOut(Err(NoMonitor))])
      else c.(op := Removing(reg.value.key, reg.value))
    case RemoveHandler(lenient) =>
      (match RemoveSection(Spec.ItemOf(s, c.op.key), c.op.reg, lenient)
       case (_, Err(why)) => c.(op := Idle, outs := c.outs + [RemoveOut(Err(why))])
       case (x, Ok(_)) => c.(s := WithItem(s, s.monitors[c.op.key].item, x), op := Uncounting(c.op.key)))
    case CountDown =>
      var s' := Counted(s, c.op.key, -1);
      if s'.monitors[c.op.key].count <= 0 then c.(s := s', op := StoppingLast(c.op.key))
      else State(s', Idle, c.outs + [RemoveOut(Ok(()))])
    case StopLast => c.(s := Stopped(s, c.op.key), op := Deleting(c.op.key))
    case Delete => State(Without(s, c.op.key), Idle, c.outs + [RemoveOut(Ok(()))])
    case Starts(i) => c.(s := WithItem(s, i, StartSection(s.items[i])))
    case Runs(i) => c.(s := WithInformer(s, i, s.items[i].informer.(ran := true)))
    case Syncs(i, store) => c.(s := WithInformer(s, i, s.items[i].informer.(synced := true, store := store)))
    case WatcherStops(i) => c.(s := WithItem(s, i, StopSection(s.items[i]).0))
    case RunEnds(i) => c.(s := WithInformer(s, i, s.items[i].informer.(ended := true)))
    case StoreChanges(i, store) => c.(s := WithInformer(s, i, s.items[i].informer.(store := store)))
  }

  predicate IsRun(c: State, run: seq<Label>)
    requires Wf(c)
    decreases |run|
  {
    run == [] || (Enabled(c, run[0]) && IsRun(Apply(c, run[0]), run[1..]))
  }

  function After(c: State, run: seq<Label>): (c': State)
    requires Wf(c) && IsRun(c, run)
    ensures Wf(c')
    decreases |run|
  {
    if run == [] then c else After(Apply(c, run[0]), run[1..])
  }

  // ---- Whole operations, with what they return ----

  datatype Whole = Whole(s: Spec.State, outs: seq<Output>)

  predicate CanPerform(w: Whole, l: Spec.Label) {
    Spec.Wf(w.s) && Spec.Enabled(w.s, l)
  }

  function Perform(w: Whole, l: Spec.Label): (w': Whole)
    requires CanPerform(w, l)
    ensures Spec.Wf(w'.s)
  {
    match l
    case AddOp(key, handler, env) =>
      var (s', r) := Spec.Add(w.s, key, handler, env); Whole(s', w.outs + [AddOut(r)])
    case RemoveOp(reg, lenient) =>
      var (s', r) := Spec.Remove(w.s, reg, lenient); Whole(s', w.outs + [RemoveOut(r)])
    case _ => w.(s := Spec.Apply(w.s, l))
  }

  /**
   A state with an operation in progress, seen as if operations were whole: adding takes effect when the handler
   is added, removing when the handler is removed. Before that a new monitor is hidden; after that the rest
   of the operation is already done.
   */
  function Seen(c: State): (w: Whole)
    requires Wf(c)
    ensures Spec.Wf(w.s) || c.op.Syncing? || (c.op.Adding? && c.op.isNew)
  {
    match c.op
    case Idle => Whole(c.s, c.outs)
    case Syncing(_, _) => Whole(c.s.(items := c.s.items[..Last(c)]), c.outs)
    case Adding(key, _, isNew) =>
      if isNew && c.s.items != [] then Whole(Without(c.s, key).(items := c.s.items[..Last(c)]), c.outs) else Whole(c.s, c.outs)
    case Counting(key, reg) => Whole(Counted(c.s, key, 1), c.outs + [AddOut(Ok(reg))])
    case Removing(_, _) => Whole(c.s, c.outs)
    case Uncounting(key) =>
      var s' := Counted(c.s, key, -1);
      Whole(if s'.monitors[key].count <= 0 then Without(Stopped(s', key), key) else s', c.outs + [RemoveOut(Ok(()))])
    case StoppingLast(key) => Whole(Without(Stopped(c.s, key), key), c.outs + [RemoveOut(Ok(()))])
    case Deleting(key) => Whole(Without(c.s, key), c.outs + [RemoveOut(Ok(()))])
  }

  // ---- What every state of a run satisfies ----

  predicate Hidden(c: State) {
    c.op.Syncing? || (c.op.Adding? && c.op.isNew)
  }

  ghost predicate Inv(c: State) {
    && Wf(c)
    && (forall k | k in c.s.monitors :: Spec.ItemOf(c.s, k).key == k)
    && (forall i | 0 <= i < |c.s.items| ::
      && ItemOk(c.s.items[i])
      && ((c.s.items[i].started && c.s.items[i].informer.synced) || (c.op.Syncing? && i == Last(c))))
    && (Hidden(c) ==>
      && c.s.items != [] && c.s.items[Last(c)].key == c.op.key && c.s.items[Last(c)].informer.handlers == map[]
      && (c.op.Adding? ==> c.s.monitors[c.op.key] == Spec.Entry(Last(c), 0)))
    && (c.op.Deleting? ==> Spec.ItemOf(c.s, c.op.key).stopped)
    && (c.op.Removing? ==> c.op.reg.key == c.op.key)
  }

  predicate Environment(l: Label) {
    l.Starts? || l.Runs? || l.Syncs? || l.WatcherStops? || l.RunEnds? || l.StoreChanges?
  }

  /** One monitor by a later value of itself, as the environment changes it. */
  predicate Later(x: Item, y: Item) {
    && y.key == x.key && y.informer.handlers == x.informer.handlers
    && (x.stopped && x.started ==> y.stopped) && (x.started ==> y.started) && (x.informer.synced ==> y.informer.synced)
  }

  lemma LaterInv(c: State, i: nat, y: Item)
    requires Inv(c) && i < |c.s.items| && ItemOk(y) && Later(c.s.items[i], y)
    ensures Inv(c.(s := WithItem(c.s, i, y)))
  {
    hide ItemOk;
  }

  lemma EnvironmentChange(c: State, l: Label)
    requires Wf(c) && Enabled(c, l) && Environment(l) && ItemOk(c.s.items[l.i])
    ensures var y := Apply(c, l).s.items[l.i];
            ItemOk(y) && Later(c.s.items[l.i], y) && Apply(c, l) == c.(s := WithItem(c.s, l.i, y))
  {
  }

  lemma EnvironmentInv(c: State, l: Label)
    requires Inv(c) && Enabled(c, l) && Environment(l)
    ensures Inv(Apply(c, l))
  {
    hide ItemOk, Later, Apply;
    EnvironmentChange(c, l);
    LaterInv(c, l.i, Apply(c, l).s.items[l.i]);
  }

  lemma HandlerInv(c: State, l: Label)
    requires Inv(c) && Enabled(c, l) && (l.AddHandler? || l.RemoveHandler? || l.StopLast?)
    ensures Inv(Apply(c, l))
  {
    var i := c.s.monitors[c.op.key].item;
    var c' := Apply(c, l);
    assert ItemOk(c.s.items[i]);
    assert ItemOk(c'.s.items[i]) && c'.s.items[i].key == c.s.items[i].key;
    assert forall j | 0 <= j < |c.s.items| && j != i :: c'.s.items[j] == c.s.items[j];
  }

  lemma BeginInv(c: State, l: Label)
    requires Inv(c) && Enabled(c, l) && (l.BeginAdd? || l.BeginRemove?)
    ensures Inv(Apply(c, l))
  {
    var c' := Apply(c, l);
    if c'.op.Syncing? {
      assert c'.s.items[Last(c')] == NewItem(l.key);
    }
    forall k | k in c'.s.monitors ensures Spec.ItemOf(c'.s, k) == Spec.ItemOf(c.s, k) {}
  }

  lemma CountInv(c: State, l: Label)
    requires Inv(c) && Enabled(c, l) && (l.Publish? || l.CountUp? || l.CountDown? || l.Delete?)
    ensures Inv(Apply(c, l))
  {
    var c' := Apply(c, l);
    assert c'.s.items == c.s.items;
    forall k | k in c'.s.monitors ensures Spec.ItemOf(c'.s, k).key == k {
      if k in c.s.monitors {
        assert Spec.ItemOf(c.s, k).key == k;
      }
    }
  }

  lemma InvStep(c: State, l: Label)
    requires Inv(c) && Enabled(c, l)
    ensures Inv(Apply(c, l))
  {
    match l
    case BeginAdd(_, _) => BeginInv(c, l);
    case BeginRemove(_) => BeginInv(c, l);
    case AddHandler => HandlerInv(c, l);
    case RemoveHandler(_) => HandlerInv(c, l);
    case StopLast => HandlerInv(c, l);
    case Publish => CountInv(c, l);
    case CountUp => CountInv(c, l);
    case CountDown => CountInv(c, l);
    case Delete => CountInv(c, l);
    case _ => EnvironmentInv(c, l);
  }

  lemma SeenWf(c: State)
    requires Inv(c)
    ensures Spec.Wf(Seen(c).s)
  {
    if Hidden(c) {
      forall k | k in c.s.monitors && k != c.op.key ensures c.s.monitors[k].item != Last(c) {
        assert Spec.ItemOf(c.s, k).key == k;
      }
    }
  }

  /** The environment of a hidden monitor: what happened to it between its creation and its first handler. */
  function EnvOf(i: Item): Spec.Env {
    Spec.Env(i.stopped, i.informer.ended, i.informer.store)
  }

  /** The whole operation that a step performs, if any. */
  function Meaning(c: State, l: Label): Option<Spec.Label>
    requires Wf(c) && Enabled(c, l)
  {
    match l
    case BeginAdd(key, None) => Some(Spec.AddOp(key, None, Spec.Env(false, false, map[])))
    case AddHandler =>
      var env := if c.op.isNew && c.s.items != [] then EnvOf(c.s.items[Last(c)]) else Spec.Env(false, false, map[]);
      Some(Spec.AddOp(c.op.key, Some(c.op.handler), env))
    case BeginRemove(reg) =>
      if reg.None? || reg.value.key !in c.s.monitors then Some(Spec.RemoveOp(reg, false)) else None
    case RemoveHandler(lenient) => Some(Spec.RemoveOp(Some(c.op.reg), lenient))
    case WatcherStops(i) => if Hidden(c) && i + 1 == |c.s.items| then None else Some(Spec.Cancelled(i))
    case RunEnds(i) => if Hidden(c) && i + 1 == |c.s.items| then None else Some(Spec.RunEnds(i))
    case StoreChanges(i, store) => if Hidden(c) && i + 1 == |c.s.items| then None else Some(Spec.StoreChanges(i, store))
    case _ => None
  }

  /** A step is either invisible, or one whole operation with the same output. */
  ghost predicate Simulates(c: State, l: Label)
    requires Wf(c) && Enabled(c, l)
  {
    match Meaning(c, l)
    case None => Seen(Apply(c, l)) == Seen(c)
    case Some(m) => CanPerform(Seen(c), m) && Perform(Seen(c), m) == Seen(Apply(c, l))
  }

  lemma Simulation(c: State, l: Label)
    requires Inv(c) && Enabled(c, l)
    ensures Simulates(c, l)
  {
    SeenWf(c);
    match l
    case BeginAdd(_, _) => SimulateBeginAdd(c, l);
    case Publish => SimulatePublish(c);
    case AddHandler => SimulateAddHandler(c);
    case RemoveHandler(_) => SimulateRemoveHandler(c, l);
    case CountDown =>
    case StopLast =>
    case Delete =>
    case CountUp =>
    case BeginRemove(_) =>
    case _ => SimulateEnvironment(c, l);
  }

  lemma SimulateBeginAdd(c: State, l: Label)
    requires Inv(c) && Enabled(c, l) && l.BeginAdd?
    ensures Simulates(c, l)
  {
    assert (c.s.items + [NewItem(l.key)])[..|c.s.items|] == c.s.items;
  }

  lemma SimulatePublish(c: State)
    requires Inv(c) && Enabled(c, Publish)
    ensures Simulates(c, Publish)
  {
    var s' := c.s.monitors[c.op.key := Spec.Entry(Last(c), 0)];
    assert s' - {c.op.key} == c.s.monitors;
  }

  /** A new monitor that is about to get its first handler is the one that a whole add would make. */
  lemma HiddenIsEnsured(c: State)
    requires Inv(c) && c.op.Adding? && c.op.isNew
    ensures var w := Seen(c); var x := c.s.items[Last(c)];
            Spec.Wf(w.s) && w.outs == c.outs && Spec.Ensured(w.s, c.op.key, EnvOf(x)) == c.s && Spec.EnvOk(c.op.key, EnvOf(x))
  {
    SeenWf(c);
    var key := c.op.key;
    var w := Seen(c);
    var x := c.s.items[Last(c)];
    assert x == Spec.Born(key, EnvOf(x));
    assert w.s.items + [x] == c.s.items;
    assert w.s.monitors[key := Spec.Entry(Last(c), 0)] == c.s.monitors;
  }

  lemma SimulateAddHandler(c: State)
    requires Inv(c) && Enabled(c, AddHandler)
    ensures Simulates(c, AddHandler)
  {
    if c.op.isNew {
      SimulateFirstHandler(c);
    } else {
      EmptyEnvOk(c.op.key);
      hide Spec.EnvOk;
    }
  }

  lemma SimulateFirstHandler(c: State)
    requires Inv(c) && Enabled(c, AddHandler) && c.op.isNew
    ensures Simulates(c, AddHandler)
  {
    hide AddSection, EnvOf, Spec.EnvOk, Spec.Ensured, ItemOk;
    HiddenIsEnsured(c);
  }

  lemma EmptyEnvOk(key: ObjectKey)
    ensures Spec.EnvOk(key, Spec.Env(false, false, map[]))
  {
  }

  lemma SimulateRemoveHandler(c: State, l: Label)
    requires Inv(c) && Enabled(c, l) && l.RemoveHandler?
    ensures Simulates(c, l)
  {
    var key := c.op.key;
    var e := c.s.monitors[key];
    var (x, r) := RemoveSection(c.s.items[e.item], c.op.reg, l.lenient);
    if r.Ok? {
      var c' := Apply(c, l);
      assert c'.s.items[e.item := StopSection(x).0] == c.s.items[e.item := StopSection(x).0];
      assert c'.s.monitors[key := Spec.Entry(e.item, e.count - 1)] - {key} == c.s.monitors - {key};
    }
  }

  /** A step on one monitor changes that monitor and nothing else. */
  lemma EnvironmentFacts(c: State, l: Label)
    requires Inv(c) && Enabled(c, l) && Environment(l)
    ensures l.i < |c.s.items| && var c' := Apply(c, l);
            && c'.op == c.op && c'.outs == c.outs && c'.s == c.s.(items := c'.s.items)
            && c'.s.items == c.s.items[l.i := c'.s.items[l.i]]
    ensures ItemOk(c.s.items[l.i]) && (!Hidden(c) || l.i < Last(c) ==> c.s.items[l.i].started && c.s.items[l.i].informer.synced)
  {
  }

  lemma SimulateHidden(c: State, l: Label)
    requires Inv(c) && Enabled(c, l) && Environment(l) && Hidden(c) && Spec.Wf(Seen(c).s)
    ensures Simulates(c, l)
  {
    EnvironmentFacts(c, l);
    var c' := Apply(c, l);
    if l.i == Last(c) {
      assert c'.s.items[..Last(c)] == c.s.items[..Last(c)];
    } else {
      assert c'.s.items[..Last(c)] == c.s.items[..Last(c)][l.i := c'.s.items[l.i]];
    }
  }

  /** Stopping and dropping a monitor, seen early, commutes with what happens to any monitor meanwhile. */
  lemma StoppingCommutes(s: Spec.State, key: ObjectKey, m: Spec.Label)
    requires Spec.Wf(s) && key in s.monitors && (m.Cancelled? || m.RunEnds? || m.StoreChanges?) && Spec.Enabled(s, m)
    ensures var s' := Spec.Apply(s, m);
            && key in s'.monitors && Spec.Enabled(Without(Stopped(s, key), key), m)
            && Spec.Apply(Without(Stopped(s, key), key), m) == Without(Stopped(s', key), key)
  {
    var n := s.monitors[key].item;
    var s1, s2 := Spec.Apply(Without(Stopped(s, key), key), m), Without(Stopped(Spec.Apply(s, m), key), key);
    forall j | 0 <= j < |s.items| ensures s1.items[j] == s2.items[j] {}
    assert s1.items == s2.items;
  }

  /** Counting, seen early, commutes as well. */
  lemma CountingCommutes(s: Spec.State, key: ObjectKey, d: int, m: Spec.Label)
    requires Spec.Wf(s) && key in s.monitors && (m.Cancelled? || m.RunEnds? || m.StoreChanges?) && Spec.Enabled(s, m)
    ensures var s' := Spec.Apply(s, m);
            && s'.monitors == s.monitors && Spec.Enabled(Counted(s, key, d), m)
            && Spec.Apply(Counted(s, key, d), m) == Counted(s', key, d)
  {
  }

  lemma DroppingCommutes(s: Spec.State, key: ObjectKey, m: Spec.Label)
    requires Spec.Wf(s) && (m.Cancelled? || m.RunEnds? || m.StoreChanges?) && Spec.Enabled(s, m)
    ensures Spec.Enabled(Without(s, key), m) && Spec.Apply(Without(s, key), m) == Without(Spec.Apply(s, m), key)
  {
  }

  /** Outside a hidden monitor, a step of the environment is the same step of the whole machine. */
  lemma EnvironmentMeaning(c: State, l: Label)
    requires Inv(c) && Enabled(c, l) && Environment(l) && !Hidden(c)
    ensures Meaning(c, l).Some?
    ensures var m := Meaning(c, l).value;
            && (m.Cancelled? || m.RunEnds? || m.StoreChanges?) && Spec.Enabled(c.s, m)
            && Apply(c, l) == c.(s := Spec.Apply(c.s, m))
  {
    EnvironmentFacts(c, l);
  }

  /** A removal that has reached zero counts as already stopped; a late cancellation finds nothing to stop. */
  lemma SimulateStopping(c: State, l: Label)
    requires Inv(c) && Enabled(c, l) && Environment(l) && c.op.StoppingLast? && Spec.Wf(Seen(c).s)
    ensures Simulates(c, l)
  {
    hide Spec.Apply, Spec.Enabled, Meaning, Apply, Stopped, Without;
    EnvironmentMeaning(c, l);
    StoppingCommutes(c.s, c.op.key, Meaning(c, l).value);
  }

  lemma SimulateUncounting(c: State, l: Label)
    requires Inv(c) && Enabled(c, l) && Environment(l) && c.op.Uncounting? && Spec.Wf(Seen(c).s)
    ensures Simulates(c, l)
  {
    hide Spec.Apply, Spec.Enabled, Meaning, Apply, Stopped, Without;
    EnvironmentMeaning(c, l);
    var m := Meaning(c, l).value;
    CountingCommutes(c.s, c.op.key, -1, m);
    StoppingCommutes(Counted(c.s, c.op.key, -1), c.op.key, m);
  }

  lemma SimulateEnvironment(c: State, l: Label)
    requires Inv(c) && Enabled(c, l)
    requires Environment(l)
    ensures Simulates(c, l)
  {
    SeenWf(c);
    hide Simulates, Inv, Apply;
    if Hidden(c) {
      SimulateHidden(c, l);
    } else if c.op.StoppingLast? {
      SimulateStopping(c, l);
    } else if c.op.Uncounting? {
      SimulateUncounting(c, l);
    } else {
      SimulateElsewhere(c, l);
    }
  }

  lemma SimulateElsewhere(c: State, l: Label)
    requires Inv(c) && Enabled(c, l) && Environment(l) && !Hidden(c) && !c.op.StoppingLast? && !c.op.Uncounting?
    requires Spec.Wf(Seen(c).s)
    ensures Simulates(c, l)
  {
    hide Spec.Apply, Spec.Enabled, Meaning, Apply, Counted, Without;
    EnvironmentMeaning(c, l);
    if c.op.Counting? {
      CountingCommutes(c.s, c.op.key, 1, Meaning(c, l).value);
    } else if c.op.Deleting? {
      DroppingCommutes(c.s, c.op.key, Meaning(c, l).value);
    }
  }

  // ---- Runs of steps are runs of whole operations ----

  predicate CanPerformAll(w: Whole, ms: seq<Spec.Label>)
    decreases |ms|
  {
    ms == [] || (CanPerform(w, ms[0]) && CanPerformAll(Perform(w, ms[0]), ms[1..]))
  }

  function PerformAll(w: Whole, ms: seq<Spec.Label>): Whole
    requires CanPerformAll(w, ms)
    decreases |ms|
  {
    if ms == [] then w else PerformAll(Perform(w, ms[0]), ms[1..])
  }

  // ---- What is asked for, and what is served ----

  datatype Request = AddRequest(key: ObjectKey, handler: Option<Handler>) | RemoveRequest(reg: Option<Registration>)

  /** What a step asks for. */
  function Asked(l: Label): seq<Request> {
    match l
    case BeginAdd(key, handler) => [AddRequest(key, handler)]
    case BeginRemove(reg) => [RemoveRequest(reg)]
    case _ => []
  }

  function AskedBy(run: seq<Label>): seq<Request> {
    if run == [] then [] else Asked(run[0]) + AskedBy(run[1..])
  }

  /** What a whole operation serves. */
  function Served(m: Spec.Label): seq<Request> {
    match m
    case AddOp(key, handler, _) => [AddRequest(key, handler)]
    case RemoveOp(reg, _) => [RemoveRequest(reg)]
    case _ => []
  }

  function ServedBy(ms: seq<Spec.Label>): seq<Request> {
    if ms == [] then [] else Served(ms[0]) + ServedBy(ms[1..])
  }

  /** The request of an operation that has begun and has not taken effect. */
  function Unserved(c: State): seq<Request> {
    match c.op
    case Syncing(key, handler) => [AddRequest(key, Some(handler))]
    case Adding(key, handler, _) => [AddRequest(key, Some(handler))]
    case Removing(_, reg) => [RemoveRequest(Some(reg))]
    case _ => []
  }

  function InProgress(c: State): nat {
    if c.op.Idle? then 0 else 1
  }

  lemma StepServes(c: State, l: Label)
    requires Wf(c) && Enabled(c, l)
    ensures (match Meaning(c, l) case None => [] case Some(m) => Served(m)) + Unserved(Apply(c, l)) == Unserved(c) + Asked(l)
    ensures |Apply(c, l).outs| + InProgress(Apply(c, l)) == |c.outs| + InProgress(c) + |Asked(l)|
  {
  }

  /**
   However the steps interleave, the outputs and the seen state are those of whole operations one after another.
   These are the operations that were asked for, in the order in which they were asked for, but for the last one
   while it has not taken effect; and each of them has one output, but for the one in progress.
   */
  lemma {:induction false} StepsRefineWholeOperations(c: State, run: seq<Label>) returns (ms: seq<Spec.Label>)
    requires Inv(c) && IsRun(c, run)
    ensures CanPerformAll(Seen(c), ms) && PerformAll(Seen(c), ms) == Seen(After(c, run))
    ensures Inv(After(c, run)) && |ms| <= |run|
    ensures ServedBy(ms) + Unserved(After(c, run)) == Unserved(c) + AskedBy(run)
    ensures |After(c, run).outs| + InProgress(After(c, run)) == |c.outs| + InProgress(c) + |AskedBy(run)|
    decreases |run|
  {
    hide Apply, Enabled, Meaning, Unserved, Asked, Served, Seen, Perform, InProgress;
    if run == [] {
      ms := [];
    } else {
      var l := run[0];
      InvStep(c, l);
      Simulation(c, l);
      StepServes(c, l);
      ms := StepsRefineWholeOperations(Apply(c, l), run[1..]);
      if Meaning(c, l).Some? {
        var rest := ms;
        ms := [Meaning(c, l).value] + rest;
        assert ms[1..] == rest;
        Reassociate(Served(ms[0]), ServedBy(rest), Unserved(After(c, run)), Unserved(Apply(c, l)), AskedBy(run[1..]), Unserved(c), Asked(l));
      } else {
        Reassociate([], ServedBy(ms), Unserved(After(c, run)), Unserved(Apply(c, l)), AskedBy(run[1..]), Unserved(c), Asked(l));
        assert [] + ServedBy(ms) == ServedBy(ms);
      }
    }
  }

  lemma Reassociate<T>(first: seq<T>, rest: seq<T>, end: seq<T>, middle: seq<T>, later: seq<T>, begin: seq<T>, now: seq<T>)
    requires rest + end == middle + later && first + middle == begin + now
    ensures (first + rest) + end == begin + (now + later)
  {
    assert (first + rest) + end == first + (middle + later) == (begin + now) + later;
  }

  lemma {:induction false} WholeRun(w: Whole, ms: seq<Spec.Label>)
    requires Spec.Wf(w.s) && CanPerformAll(w, ms)
    ensures Spec.IsRun(w.s, ms) && Spec.After(w.s, ms) == PerformAll(w, ms).s
    decreases |ms|
  {
    if ms != [] {
      WholeRun(Perform(w, ms[0]), ms[1..]);
    }
  }

  /**
   Whenever the lock is free: each mapped monitor runs with a positive count or is stopped, each dropped one has
   its channel closed, and no channel was closed twice; the whole operations that were asked for lead, in this order,
   to the same state and the same outputs, one for each.
   */
  lemma WhenLockIsFree(run: seq<Label>) returns (ms: seq<Spec.Label>)
    requires IsRun(INIT, run) && After(INIT, run).op.Idle?
    ensures CanPerformAll(Whole(Spec.INIT, []), ms)
    ensures var c := After(INIT, run);
            && PerformAll(Whole(Spec.INIT, []), ms) == Whole(c.s, c.outs)
            && ServedBy(ms) == AskedBy(run) && |c.outs| == |AskedBy(run)|
            && Spec.Inv(c.s)
  {
    ms := StepsRefineWholeOperations(INIT, run);
    assert ServedBy(ms) == ServedBy(ms) + [] == [] + AskedBy(run) == AskedBy(run);
    WholeRun(Whole(Spec.INIT, []), ms);
    Spec.InvRun(Spec.INIT, ms);
  }

  // ---- Counting under the discipline that a handle is removed only while it is live ----

  /** Every handler that a run asks an informer to remove is one that the informer has. */
  predicate Careful(c: State, run: seq<Label>)
    requires Wf(c) && IsRun(c, run)
    decreases |run|
  {
    run == [] || (
      && (run[0].RemoveHandler? ==> c.op.reg.id in Spec.Handlers(c.s, c.op.key))
      && Careful(Apply(c, run[0]), run[1..]))
  }

  lemma {:induction false} CarefulCounts(c: State, run: seq<Label>)
    requires Inv(c) && IsRun(c, run) && Careful(c, run)
    requires Spec.Inv(Seen(c).s) && Spec.Faithful(Seen(c).s)
    ensures Inv(After(c, run)) && Spec.Inv(Seen(After(c, run)).s) && Spec.Faithful(Seen(After(c, run)).s)
    decreases |run|
  {
    if run != [] {
      var l := run[0];
      InvStep(c, l);
      Simulation(c, l);
      if Meaning(c, l).Some? {
        var m := Meaning(c, l).value;
        Spec.InvStep(Seen(c).s, m);
        if m.RemoveOp? {
          Spec.RemoveKeepsCountsIff(Seen(c).s, m.reg, m.lenient);
        } else {
          Spec.FaithfulStep(Seen(c).s, m);
        }
      }
      CarefulCounts(Apply(c, l), run[1..]);
    }
  }

  /** With that discipline, whenever the lock is free each count is the number of handlers of its informer. */
  lemma CountsWhenLockIsFree(run: seq<Label>)
    requires IsRun(INIT, run) && Careful(INIT, run) && After(INIT, run).op.Idle?
    ensures Spec.Faithful(After(INIT, run).s)
  {
    CarefulCounts(INIT, run);
  }

  // ---- The removal that reaches zero ----

  predicate Finishing(l: Label) {
    Environment(l) || l.CountDown? || l.StopLast? || l.Delete?
  }

  /**
   A removal whose counter reaches zero ends with the key deleted and the channel closed once, and returns
   no error, whoever wins the race to stop the informer.
   */
  lemma {:induction false} LastRemovalDeletes(c: State, run: seq<Label>)
    requires Inv(c) && IsRun(c, run) && After(c, run).op.Idle? && forall l | l in run :: Finishing(l)
    requires match c.op
             case Uncounting(key) => c.s.monitors[key].count <= 1
             case StoppingLast(_) => true
             case Deleting(_) => true
             case _ => false
    ensures var c' := After(c, run);
            && c'.outs == c.outs + [RemoveOut(Ok(()))]
            && c'.s.monitors == c.s.monitors - {c.op.key}
            && c.s.monitors[c.op.key].item < |c'.s.items|
            && c'.s.items[c.s.monitors[c.op.key].item].closes == 1
    decreases |run|
  {
    var l := run[0];
    var c1 := Apply(c, l);
    InvStep(c, l);
    if l.Delete? {
      DoneStaysDone(c1, run[1..], c.s.monitors[c.op.key].item);
    } else {
      LastRemovalDeletes(c1, run[1..]);
    }
  }

  lemma {:induction false} DoneStaysDone(c: State, run: seq<Label>, i: nat)
    requires Inv(c) && c.op.Idle? && IsRun(c, run) && forall l | l in run :: Finishing(l)
    requires i < |c.s.items| && c.s.items[i].stopped
    ensures var c' := After(c, run);
            c'.outs == c.outs && c'.s.monitors == c.s.monitors && i < |c'.s.items| && c'.s.items[i].closes == 1
    decreases |run|
  {
    assert ItemOk(c.s.items[i]);
    if run != [] {
      assert Finishing(run[0]);
      InvStep(c, run[0]);
      DoneStaysDone(Apply(c, run[0]), run[1..], i);
    }
  }
}
