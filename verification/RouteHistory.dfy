/**
 What the runs of the route controller leave behind: the route that each stored handler holds, and a registry that
 is the one keyed by pairs of namespace and name.
 */
module RouteHistory {
  import opened Base
  import opened ItemMonitor
  import opened RouteController
  import Spec = SecretSpec
  import Manager = ManagerSpec
  import Pairs = PairSpec

  type Routes = map<string, Route>

  // ---- The routes that the stored handlers hold ----

  /** The routes captured by the handlers of the registered routes. */
  function HeldBy(s: Spec.State, registered: Manager.Registry): Routes
    requires Spec.Wf(s)
  {
    map k | k in registered && Spec.Live(s, registered[k]) :: Captured(s, registered[k])
  }

  function Held(m: Manager.State): Routes
    requires Manager.Wf(m)
  {
    HeldBy(m.monitor, m.registered)
  }

  function ReplayRoute(held: Routes, e: Event): Routes {
    match e
    case Added(r) => held[RouteKey(r) := r]
    case Modified(_) => held
    case Deleted(r) => held - {RouteKey(r)}
  }

  function ReplayRoutes(held: Routes, events: seq<Event>): Routes
    decreases |events|
  {
    if events == [] then held else ReplayRoutes(ReplayRoute(held, events[0]), events[1..])
  }

  lemma {:induction false} ReplayRoutesAppend(held: Routes, a: seq<Event>, b: seq<Event>)
    ensures ReplayRoutes(held, a + b) == ReplayRoutes(ReplayRoutes(held, a), b)
    decreases |a|
  {
    if a == [] {
      assert a + b == b;
    } else {
      assert (a + b)[0] == a[0] && (a + b)[1..] == a[1..] + b;
      ReplayRoutesAppend(ReplayRoute(held, a[0]), a[1..], b);
    }
  }

  // ---- What was queued last ----

  /** The route object that was queued last for a key, and how many updates changed the route since, unqueued. */
  datatype Note = Note(route: Route, silent: nat)

  type Notes = map<string, Note>

  ghost function Noted(notes: Notes, c: State, l: Label): Notes
    requires Manager.Wf(c.manager) && Enabled(c, l)
  {
    match l
    case RouteAdded(r) => notes[RouteKey(r) := Note(r, 0)]
    case RouteUpdated(r) =>
      var k, before := RouteKey(r), c.live[RouteKey(r)];
      if before.secret != r.secret then notes[k := Note(r, 0)]
      else if k in notes && before != r then notes[k := Note(notes[k].route, notes[k].silent + 1)]
      else notes
    case RouteDeleted(k) => notes - {k}
    case _ => notes
  }

  ghost function NotesAfter(notes: Notes, c: State, run: seq<Label>): Notes
    requires Manager.Wf(c.manager) && IsRun(c, run)
    decreases |run|
  {
    if run == [] then notes else NotesAfter(Noted(notes, c, run[0]), Apply(c, run[0]), run[1..])
  }

  function RoutesOf(notes: Notes): Routes {
    map k | k in notes :: notes[k].route
  }

  /** Every change of a route gives it a higher version. */
  ghost predicate Ascends(c: State, l: Label)
    requires Manager.Wf(c.manager) && Enabled(c, l)
  {
    l.RouteUpdated? ==> l.route == c.live[RouteKey(l.route)] || l.route.version > c.live[RouteKey(l.route)].version
  }

  ghost predicate Ascending(c: State, run: seq<Label>)
    requires Manager.Wf(c.manager) && IsRun(c, run)
    decreases |run|
  {
    run == [] || (Ascends(c, run[0]) && Ascending(Apply(c, run[0]), run[1..]))
  }

  predicate NoteOk(note: Note, live: Route) {
    note.route == live.(version := note.route.version) && (note.silent == 0 ==> note.route == live)
  }

  ghost predicate NotesOk(notes: Notes, live: Routes) {
    notes.Keys == live.Keys && forall k | k in notes :: NoteOk(notes[k], live[k])
  }

  /** Updates that were not queued have left an older version behind. */
  ghost predicate NotesAscend(notes: Notes, live: Routes) {
    forall k | k in notes && k in live && notes[k].silent > 0 :: notes[k].route.version < live[k].version
  }

  ghost predicate HistoryInv(c: State, notes: Notes) {
    && Inv(c) && NotesOk(notes, c.live)
    && ReplayRoutes(Held(c.manager), ToDo(c)) == RoutesOf(notes)
  }

  // ---- Every step keeps it ----

  /** An added handler is held for its own registration, and the others are held as before. */
  lemma HeldAt(s: Spec.State, s': Spec.State, registered: Manager.Registry, k: string, handler: Handler, env: Spec.Env,
               reg: Registration)
    requires Spec.Wf(s) && Spec.AddEffect(s, reg.key, Some(handler), env, s', Ok(reg))
    requires k in registered && registered[k].id < s.next && Spec.Live(s, registered[k])
    ensures Spec.Wf(s') && Spec.Live(s', registered[k]) && Captured(s', registered[k]) == Captured(s, registered[k])
  {
  }

  lemma AddedIsHeld(s: Spec.State, s': Spec.State, route: Route, env: Spec.Env, reg: Registration)
    requires Spec.Wf(s) && Spec.AddEffect(s, reg.key, Some(Handler(route)), env, s', Ok(reg))
    ensures Spec.Wf(s') && Spec.Live(s', reg) && Captured(s', reg) == route
  {
  }

  lemma HeldAfterAdd(s: Spec.State, s': Spec.State, registered: Manager.Registry, route: Route, env: Spec.Env, reg: Registration)
    requires Spec.Wf(s) && Routed(s, registered) && RouteKey(route) !in registered
    requires forall k | k in registered :: registered[k].id < s.next
    requires Spec.AddEffect(s, reg.key, Some(Handler(route)), env, s', Ok(reg))
    ensures HeldBy(s', registered[RouteKey(route) := reg]) == HeldBy(s, registered)[RouteKey(route) := route]
  {
    hide PathKey, RouteKey, Spec.Live, Captured, Spec.AddEffect;
    var after := registered[RouteKey(route) := reg];
    AddedIsHeld(s, s', route, env, reg);
    forall k | k in registered
      ensures Spec.Live(s, registered[k]) && Spec.Live(s', after[k]) && Captured(s', after[k]) == Captured(s, registered[k]) {
      assert RoutedAt(s, registered, k);
      HeldAt(s, s', registered, k, Handler(route), env, reg);
    }
  }

  lemma HeldAtRemove(m: Manager.State, k: string, i: string, lenient: bool, s': Spec.State)
    requires Manager.Inv(m) && Routed(m.monitor, m.registered) && k in m.registered && i in m.registered && i != k
    requires Spec.RemoveEffect(m.monitor, Some(m.registered[k]), lenient, s', Ok(()))
    ensures Spec.Live(m.monitor, m.registered[i]) && Spec.Live(s', m.registered[i])
    ensures Captured(s', m.registered[i]) == Captured(m.monitor, m.registered[i])
  {
    hide PathKey;
    assert RoutedAt(m.monitor, m.registered, i) && RoutedAt(m.monitor, m.registered, k);
    Manager.OtherStaysLive(m.monitor, m.registered, k, i, lenient, s');
  }

  lemma HeldWithout(s: Spec.State, s': Spec.State, registered: Manager.Registry, k: string)
    requires Spec.Wf(s) && Spec.Wf(s')
    requires forall i | i in registered && i != k ::
               Spec.Live(s, registered[i]) && Spec.Live(s', registered[i]) && Captured(s', registered[i]) == Captured(s, registered[i])
    ensures HeldBy(s', registered - {k}) == HeldBy(s, registered) - {k}
  {
    hide Spec.Live, Captured;
  }

  lemma HeldAfterRemove(m: Manager.State, k: string, lenient: bool, s': Spec.State)
    requires Manager.Inv(m) && Routed(m.monitor, m.registered) && k in m.registered
    requires Spec.RemoveEffect(m.monitor, Some(m.registered[k]), lenient, s', Ok(()))
    ensures Spec.Wf(s') && HeldBy(s', m.registered - {k}) == HeldBy(m.monitor, m.registered) - {k}
  {
    hide PathKey, Spec.Live, Captured, Manager.OwnHandles, Manager.NoOtherHandles, Routed, HeldBy;
    forall i | i in m.registered && i != k
      ensures Spec.Live(m.monitor, m.registered[i]) && Spec.Live(s', m.registered[i])
      ensures Captured(s', m.registered[i]) == Captured(m.monitor, m.registered[i]) {
      HeldAtRemove(m, k, i, lenient, s');
    }
    HeldWithout(m.monitor, s', m.registered, k);
  }

  lemma RemovedOk(s: Spec.State, reg: Registration, lenient: bool)
    requires Spec.Wf(s)
    ensures var r := Spec.Remove(s, Some(reg), lenient).1; r.Ok? ==> r == Ok(())
  {
  }

  /** Handling an event changes the held routes as the replay says. */
  lemma HeldAfterHandle(m: Manager.State, e: Event, env: Spec.Env, lenient: bool)
    requires ManagerOk(m) && Spec.EnvOk(SecretKey(e.route), env) && !env.cancelled
    requires e.Added? ==> m.handler == Some(Handler(e.route))
    requires ReplayOne(Registry(m), e).Some?
    ensures Held(HandleRoute(m, e, env, lenient).0) == ReplayRoute(Held(m), e)
  {
    hide PathKey;
    match e
    case Added(r) => HeldAfterRegister(m, r, env);
    case Deleted(r) => HeldAfterUnregister(m, r, lenient);
    case Modified(_) =>
  }

  lemma AddedUnderItsKey(s: Spec.State, key: ObjectKey, handler: Option<Handler>, env: Spec.Env)
    requires Spec.Inv(s) && Spec.EnvOk(key, env)
    ensures var r := Spec.Add(s, key, handler, env).1; r.Ok? ==> r == Ok(Registration(s.next, key))
  {
    hide Spec.Add;
    Spec.AddSucceedsIff(s, key, handler, env);
  }

  lemma HeldAfterRegister(m: Manager.State, route: Route, env: Spec.Env)
    requires ManagerOk(m) && Spec.EnvOk(SecretKey(route), env) && !env.cancelled
    requires m.handler == Some(Handler(route)) && RouteKey(route) !in m.registered
    ensures Held(Manager.Register(m, route.ns, route.name, route.secret, env).0) == Held(m)[RouteKey(route) := route]
  {
    hide PathKey, Spec.Add, Routed, HeldBy, Manager.NoOtherHandles, Spec.Faithful, Spec.AddEffect;
    RegisterOk(m, route, env);
    Spec.AddSucceedsIff(m.monitor, SecretKey(route), m.handler, env);
    var (s', r) := Spec.Add(m.monitor, SecretKey(route), m.handler, env);
    AddedUnderItsKey(m.monitor, SecretKey(route), m.handler, env);
    HeldAfterAdd(m.monitor, s', m.registered, route, env, r.value);
  }

  lemma HeldAfterUnregister(m: Manager.State, route: Route, lenient: bool)
    requires ManagerOk(m) && RouteKey(route) in m.registered
    ensures Held(Manager.Unregister(m, route.ns, route.name, lenient).0) == Held(m) - {RouteKey(route)}
  {
    hide PathKey, Spec.Remove, Spec.RemoveEffect, Routed, HeldBy, Manager.NoOtherHandles, Spec.Faithful;
    UnregisterOk(m, route, lenient);
    Spec.RemoveSucceedsIff(m.monitor, Some(m.registered[RouteKey(route)]), lenient);
    RemovedOk(m.monitor, m.registered[RouteKey(route)], lenient);
    HeldAfterRemove(m, RouteKey(route), lenient, Spec.Remove(m.monitor, Some(m.registered[RouteKey(route)]), lenient).0);
  }

  lemma HeldAfterEnvironment(m: Manager.State, step: Spec.Label)
    requires Manager.Wf(m) && Spec.Enabled(m.monitor, step) && (step.RunEnds? || step.StoreChanges?)
    ensures Held(m.(monitor := Spec.Apply(m.monitor, step))) == Held(m)
  {
    Spec.EnvironmentEffect(m.monitor, step);
  }

  lemma CallbackHistory(c: State, l: Label, notes: Notes)
    requires HistoryInv(c, notes) && Enabled(c, l) && (l.RouteAdded? || l.RouteUpdated? || l.RouteDeleted?)
    ensures HistoryInv(Apply(c, l), Noted(notes, c, l))
  {
    hide PathKey, Held, ManagerOk, Converging;
    InvStep(c, l);
    var c' := Apply(c, l);
    assert ToDo(c') == ToDo(c) + c'.pending;
    ReplayRoutesAppend(Held(c.manager), ToDo(c), c'.pending);
    CallbackNotes(c, l, notes);
  }

  /** What a callback queues leads from what was noted before it to what is noted after it. */
  lemma CallbackNotes(c: State, l: Label, notes: Notes)
    requires Manager.Wf(c.manager) && LiveOk(c.live) && NotesOk(notes, c.live) && Enabled(c, l)
    requires l.RouteAdded? || l.RouteUpdated? || l.RouteDeleted?
    ensures var (c', notes') := (Apply(c, l), Noted(notes, c, l));
            NotesOk(notes', c'.live) && ReplayRoutes(RoutesOf(notes), c'.pending) == RoutesOf(notes')
  {
    hide PathKey;
    var pending, routes, routes' := Apply(c, l).pending, RoutesOf(notes), RoutesOf(Noted(notes, c, l));
    match l {
      case RouteAdded(r) =>
        ReplayRoutesOne(routes, Added(r));
        assert routes' == routes[RouteKey(r) := r];
      case RouteUpdated(r) => UpdateNotes(c, r, notes);
      case RouteDeleted(k) =>
        ReplayRoutesOne(routes, Deleted(c.live[k]));
        assert routes' == routes - {k};
    }
  }

  lemma UpdateNotes(c: State, r: Route, notes: Notes)
    requires Manager.Wf(c.manager) && LiveOk(c.live) && NotesOk(notes, c.live) && Enabled(c, RouteUpdated(r))
    ensures var (c', notes') := (Apply(c, RouteUpdated(r)), Noted(notes, c, RouteUpdated(r)));
            NotesOk(notes', c'.live) && ReplayRoutes(RoutesOf(notes), c'.pending) == RoutesOf(notes')
  {
    hide PathKey;
    var before := c.live[RouteKey(r)];
    var routes, routes' := RoutesOf(notes), RoutesOf(Noted(notes, c, RouteUpdated(r)));
    if before.secret != r.secret {
      assert OnUpdate(before, r) == [Deleted(before)] + [Added(r)];
      ReplayRoutesAppend(routes, [Deleted(before)], [Added(r)]);
      ReplayRoutesOne(routes, Deleted(before));
      ReplayRoutesOne(routes - {RouteKey(r)}, Added(r));
      assert routes' == (routes - {RouteKey(r)})[RouteKey(r) := r];
    } else {
      assert routes' == routes;
    }
  }

  lemma ReplayRoutesOne(held: Routes, e: Event)
    ensures ReplayRoutes(held, [e]) == ReplayRoute(held, e)
  {
    assert [e][1..] == [];
  }

  lemma QueueHistory(c: State, l: Label, notes: Notes)
    requires HistoryInv(c, notes) && Enabled(c, l) && !l.RouteAdded? && !l.RouteUpdated? && !l.RouteDeleted?
    requires !l.Handle? && !l.Environment?
    ensures HistoryInv(Apply(c, l), notes)
  {
    hide PathKey, ManagerOk, LiveOk, Converging, NotesOk, ReplayRoutes, RoutesOf;
    InvStep(c, l);
    if l.Deliver? {
      DeliverHistory(c, l.i);
    } else {
      assert ToDo(Apply(c, l)) == ToDo(c);
      assert Held(Apply(c, l).manager) == Held(c.manager);
    }
  }

  lemma DeliverHistory(c: State, i: nat)
    requires Inv(c) && i < |c.inflight|
    ensures forall held :: ReplayRoutes(held, ToDo(Apply(c, Deliver(i)))) == ReplayRoutes(held, ToDo(c))
  {
    hide PathKey, ManagerOk, LiveOk, Converging;
    var held := if c.worker.Resting? then [] else [c.worker.event];
    var front := held + c.queue;
    assert ToDo(c) == front + c.pending;
    assert ToDo(Apply(c, Deliver(i))) == front + ([c.inflight[i]] + c.pending);
    assert c.inflight[i].Modified? && ([c.inflight[i]] + c.pending)[1..] == c.pending;
    forall h ensures ReplayRoutes(h, ToDo(Apply(c, Deliver(i)))) == ReplayRoutes(h, ToDo(c)) {
      ReplayRoutesAppend(h, front, c.pending);
      ReplayRoutesAppend(h, front, [c.inflight[i]] + c.pending);
    }
  }

  lemma HandleReplays(m: Manager.State, e: Event, rest: seq<Event>, end: Keyed, env: Spec.Env, lenient: bool)
    requires ManagerOk(m) && Spec.EnvOk(SecretKey(e.route), env) && !env.cancelled
    requires e.Added? ==> m.handler == Some(Handler(e.route))
    requires Replay(Registry(m), [e] + rest) == Some(end)
    ensures ReplayRoutes(Held(HandleRoute(m, e, env, lenient).0), rest) == ReplayRoutes(Held(m), [e] + rest)
  {
    hide PathKey, ManagerOk, ReplayOne, Replay, Held, HandleRoute, SecretKey;
    ReplayHead(Registry(m), e, rest, end);
    HeldAfterHandle(m, e, env, lenient);
    assert ([e] + rest)[1..] == rest;
  }

  lemma HandleHistory(c: State, l: Label, notes: Notes)
    requires HistoryInv(c, notes) && Enabled(c, l) && l.Handle?
    ensures HistoryInv(Apply(c, l), notes)
  {
    hide PathKey, ManagerOk, LiveOk, Replay, ReplayRoutes, Held, HandleRoute, NotesOk, RoutesOf, ToDo, Registry, Wanted;
    HeldFirst(c);
    InvStep(c, l);
    HandleReplays(c.manager, c.worker.event, c.queue + c.pending, Wanted(c.live), l.env, l.lenient);
  }

  lemma EnvironmentHistory(c: State, step: Spec.Label, notes: Notes)
    requires HistoryInv(c, notes) && Enabled(c, Environment(step))
    ensures HistoryInv(Apply(c, Environment(step)), notes)
  {
    hide PathKey, ManagerOk, LiveOk, Converging, Held, NotesOk, RoutesOf;
    InvStep(c, Environment(step));
    HeldAfterEnvironment(c.manager, step);
    assert ToDo(Apply(c, Environment(step))) == ToDo(c);
  }

  lemma HistoryStep(c: State, l: Label, notes: Notes)
    requires HistoryInv(c, notes) && Enabled(c, l)
    ensures HistoryInv(Apply(c, l), Noted(notes, c, l))
  {
    hide HistoryInv, Apply, Enabled;
    if l.RouteAdded? || l.RouteUpdated? || l.RouteDeleted? {
      CallbackHistory(c, l, notes);
    } else if l.Handle? {
      HandleHistory(c, l, notes);
    } else if l.Environment? {
      EnvironmentHistory(c, l.step, notes);
    } else {
      QueueHistory(c, l, notes);
    }
  }

  lemma {:induction false} HistoryRun(c: State, notes: Notes, run: seq<Label>)
    requires HistoryInv(c, notes) && IsRun(c, run)
    ensures HistoryInv(After(c, run), NotesAfter(notes, c, run))
    decreases |run|
  {
    hide Apply, Noted;
    if run != [] {
      HistoryStep(c, run[0], notes);
      HistoryRun(Apply(c, run[0]), Noted(notes, c, run[0]), run[1..]);
    }
  }

  lemma AscendStep(c: State, l: Label, notes: Notes)
    requires HistoryInv(c, notes) && NotesAscend(notes, c.live) && Enabled(c, l) && Ascends(c, l)
    ensures NotesAscend(Noted(notes, c, l), Apply(c, l).live)
  {
    hide PathKey, ManagerOk, Converging, ReplayRoutes;
  }

  lemma {:induction false} AscendRun(c: State, notes: Notes, run: seq<Label>)
    requires HistoryInv(c, notes) && NotesAscend(notes, c.live) && IsRun(c, run) && Ascending(c, run)
    ensures NotesAscend(NotesAfter(notes, c, run), After(c, run).live)
    decreases |run|
  {
    hide Apply, Noted, NotesAscend, Ascends;
    if run != [] {
      AscendStep(c, run[0], notes);
      HistoryStep(c, run[0], notes);
      AscendRun(Apply(c, run[0]), Noted(notes, c, run[0]), run[1..]);
    }
  }

  lemma InitHistory()
    ensures HistoryInv(INIT, map[])
  {
    InitInv();
    assert ToDo(INIT) == [] && Held(INIT.manager) == RoutesOf(map[]);
  }

  // ---- Which version a stored handler holds ----

  /**
   In every run, replaying what is queued over the routes that the stored handlers hold gives the route objects that
   were queued last; so when things are quiet, these are the ones that are held.
   */
  lemma HeldRoutes(run: seq<Label>)
    requires IsRun(INIT, run)
    ensures var c := After(INIT, run); var notes := NotesAfter(map[], INIT, run);
            && ReplayRoutes(Held(c.manager), ToDo(c)) == RoutesOf(notes)
            && (Quiet(c) ==> Held(c.manager) == RoutesOf(notes))
            && notes.Keys == c.live.Keys
  {
    InitHistory();
    HistoryRun(INIT, map[], run);
  }

  /**
   When things are quiet, the stored handler of a live route holds the object that was queued last. It is the current
   object if no update changed the route since; and where every change has a higher version, it is the current one
   exactly then, and has a lower version otherwise.
   */
  lemma StoredVersion(run: seq<Label>, k: string)
    requires IsRun(INIT, run) && Quiet(After(INIT, run)) && k in After(INIT, run).live
    ensures var c := After(INIT, run); var m := c.manager; var notes := NotesAfter(map[], INIT, run);
            && k in m.registered && Spec.Live(m.monitor, m.registered[k]) && k in notes
            && var held := Captured(m.monitor, m.registered[k]);
               && held == notes[k].route && held == c.live[k].(version := held.version)
               && (notes[k].silent == 0 ==> held == c.live[k])
               && (Ascending(INIT, run) ==>
                    && (held == c.live[k] <==> notes[k].silent == 0)
                    && (notes[k].silent > 0 ==> held.version < c.live[k].version))
  {
    InitHistory();
    HistoryRun(INIT, map[], run);
    var c, notes := After(INIT, run), NotesAfter(map[], INIT, run);
    if Ascending(INIT, run) {
      AscendRun(INIT, map[], run);
    }
    assert ToDo(c) == [];
    hide PathKey;
    assert k in Held(c.manager) && Held(c.manager)[k] == notes[k].route;
    assert NoteOk(notes[k], c.live[k]);
  }

  /** A run that gets there: an update that keeps the secret leaves the handler with the version before it. */
  lemma OlderVersionIsHeld(r0: Route, env: Spec.Env)
    requires Spec.EnvOk(SecretKey(r0), env) && !env.cancelled
    ensures var r1 := r0.(version := r0.version + 1);
            var run := [RouteAdded(r0), Enqueue, Take, Prepare, Handle(env, false), RouteUpdated(r1)];
            && IsRun(INIT, run)
            && var c := After(INIT, run); var k := RouteKey(r0);
               && Quiet(c) && k in c.live && c.live[k] == r1
               && k in c.manager.registered && Spec.Live(c.manager.monitor, c.manager.registered[k])
               && Captured(c.manager.monitor, c.manager.registered[k]) == r0
  {
    hide PathKey;
    var r1 := r0.(version := r0.version + 1);
    var l1, l2, l3, l4, l5, l6 := RouteAdded(r0), Enqueue, Take, Prepare, Handle(env, false), RouteUpdated(r1);
    var c1 := Apply(INIT, l1);
    var c2 := Apply(c1, l2);
    var c3 := Apply(c2, l3);
    var c4 := Apply(c3, l4);
    var c5 := Apply(c4, l5);
    var c6 := Apply(c5, l6);
    assert Enabled(c5, l6) && c6.live[RouteKey(r0)] == r1;
    RunThree(c3, l4, l5, l6, []);
    assert [l4, l5, l6] + [] == [l4, l5, l6];
    RunThree(INIT, l1, l2, l3, [l4, l5, l6]);
    assert [l1, l2, l3] + [l4, l5, l6] == [l1, l2, l3, l4, l5, l6];
  }

  lemma RunThree(c: State, l1: Label, l2: Label, l3: Label, rest: seq<Label>)
    requires Manager.Wf(c.manager) && Enabled(c, l1) && Enabled(Apply(c, l1), l2) && Enabled(Apply(Apply(c, l1), l2), l3)
    requires IsRun(Apply(Apply(Apply(c, l1), l2), l3), rest)
    ensures IsRun(c, [l1, l2, l3] + rest)
    ensures After(c, [l1, l2, l3] + rest) == After(Apply(Apply(Apply(c, l1), l2), l3), rest)
  {
    hide Apply, Enabled;
    var c1 := Apply(c, l1);
    var c2 := Apply(c1, l2);
    RunCons(c2, l3, rest);
    RunCons(c1, l2, [l3] + rest);
    RunCons(c, l1, [l2] + ([l3] + rest));
    assert [l1] + ([l2] + ([l3] + rest)) == [l1, l2, l3] + rest;
  }

  lemma RunCons(c: State, l: Label, rest: seq<Label>)
    requires Manager.Wf(c.manager) && Enabled(c, l) && IsRun(Apply(c, l), rest)
    ensures IsRun(c, [l] + rest) && After(c, [l] + rest) == After(Apply(c, l), rest)
  {
    assert ([l] + rest)[1..] == rest;
  }

  // ---- The registry of every reachable state is one keyed by pairs ----

  /** What a step of the controller does to its manager. */
  ghost function Operation(c: State, l: Label): seq<Manager.Label>
    requires Manager.Wf(c.manager) && Enabled(c, l)
  {
    match l
    case Prepare => [Manager.SetHandler(Handler(c.worker.event.route))]
    case Handle(env, lenient) =>
      (match c.worker.event
       case Added(r) => [Manager.RegisterOp(r.ns, r.name, r.secret, env)]
       case Modified(_) => []
       case Deleted(r) => [Manager.UnregisterOp(r.ns, r.name, lenient)])
    case Environment(step) => [Manager.Environment(step)]
    case _ => []
  }

  ghost function Operations(c: State, run: seq<Label>): seq<Manager.Label>
    requires Manager.Wf(c.manager) && IsRun(c, run)
    decreases |run|
  {
    if run == [] then [] else Operation(c, run[0]) + Operations(Apply(c, run[0]), run[1..])
  }

  lemma OperationStep(c: State, l: Label, rest: seq<Manager.Label>)
    requires Manager.Wf(c.manager) && Enabled(c, l) && Manager.IsRun(Apply(c, l).manager, rest)
    ensures var ops := Operation(c, l) + rest;
            Manager.IsRun(c.manager, ops) && Manager.After(c.manager, ops) == Manager.After(Apply(c, l).manager, rest)
  {
    hide PathKey, Manager.Register, Manager.Unregister, Manager.GetSecret;
    var op := Operation(c, l);
    if op == [] {
      assert op + rest == rest;
    } else {
      assert op == [op[0]];
      Manager.RunCons(c.manager, op[0], rest);
    }
  }

  /** A run of the controller is a run of its manager. */
  lemma {:induction false} OperationsRun(c: State, run: seq<Label>)
    requires Manager.Wf(c.manager) && IsRun(c, run)
    ensures var ops := Operations(c, run);
            Manager.IsRun(c.manager, ops) && Manager.After(c.manager, ops) == After(c, run).manager
    decreases |run|
  {
    hide Apply, Operation;
    if run != [] {
      OperationsRun(Apply(c, run[0]), run[1..]);
      OperationStep(c, run[0], Operations(Apply(c, run[0]), run[1..]));
    }
  }

  /** The namespaces of all routes that come up are without a slash. */
  predicate PlainLabel(l: Label) {
    l.RouteAdded? || l.RouteUpdated? ==> '/' !in l.route.ns
  }

  predicate PlainEvent(e: Event) {
    e.Modified? || '/' !in e.route.ns
  }

  ghost predicate PlainState(c: State) {
    && (forall k | k in c.live :: '/' !in c.live[k].ns)
    && (forall e | e in ToDo(c) :: PlainEvent(e))
    && (forall e | e in c.inflight :: e.Modified?)
  }

  lemma PlainStep(c: State, l: Label)
    requires Manager.Wf(c.manager) && Enabled(c, l) && PlainState(c) && PlainLabel(l)
    ensures PlainState(Apply(c, l)) && forall op | op in Operation(c, l) :: Pairs.SlashFree(op)
  {
    hide PathKey, HandleRoute, Spec.Apply;
    if l.Distribute? {
      NotificationsAreModified(Spec.Handlers(c.manager.monitor, l.secret), l.order);
    }
    if !c.worker.Resting? {
      assert ToDo(c)[0] == c.worker.event && ToDo(c)[0] in ToDo(c);
    }
    forall e | e in ToDo(Apply(c, l)) ensures PlainEvent(e) {
      assert e in ToDo(c) || e in c.inflight || l.RouteAdded? || l.RouteUpdated? || l.RouteDeleted?;
    }
  }

  lemma {:induction false} PlainRun(c: State, run: seq<Label>)
    requires Manager.Wf(c.manager) && IsRun(c, run) && PlainState(c) && forall l | l in run :: PlainLabel(l)
    ensures forall op | op in Operations(c, run) :: Pairs.SlashFree(op)
    decreases |run|
  {
    hide Apply, Operation, PlainState, PlainLabel, Pairs.SlashFree;
    if run != [] {
      assert run[0] in run;
      PlainStep(c, run[0]);
      PlainRun(Apply(c, run[0]), run[1..]);
    }
  }

  /**
   In every run over namespaces without a slash: the registry is the one that the same operations make over pairs of
   namespace and name, and reading a route answers with an object exactly if this pair is registered, and the
   object is cached in its own namespace under the secret it is registered with.
   */
  lemma RegistryIsPairKeyed(run: seq<Label>, ns: string, name: string, o: SecretObject)
    requires IsRun(INIT, run) && '/' !in ns && forall l | l in run :: PlainLabel(l)
    ensures var m := After(INIT, run).manager; var ops := Operations(INIT, run);
            && Pairs.IsRun(Pairs.INIT, ops)
            && var p := Pairs.After(Pairs.INIT, ops);
               && Pairs.Refines(m, p)
               && ((ns, name) in p.registered ==> p.registered[(ns, name)].key in m.monitor.monitors)
               && (Manager.GetSecret(m, ns, name) == Ok(o) <==>
                    (ns, name) in p.registered && ns != "" && o.ns == ns && o.name == p.registered[(ns, name)].key.name
                    && o in Spec.ItemOf(m.monitor, p.registered[(ns, name)].key).informer.store.Values)
  {
    hide PathKey, Pairs.SameRegistry;
    OperationsRun(INIT, run);
    PlainRun(INIT, run);
    Pairs.ReadsOwnSecret(Operations(INIT, run), ns, name, o);
  }

  /** When things are quiet, the registered pairs are those of the live routes, each with its current secret. */
  lemma QuietPairs(run: seq<Label>, ns: string, name: string)
    requires IsRun(INIT, run) && Quiet(After(INIT, run)) && '/' !in ns && forall l | l in run :: PlainLabel(l)
    ensures var c := After(INIT, run); var ops := Operations(INIT, run);
            && Pairs.IsRun(Pairs.INIT, ops)
            && var reg := Pairs.After(Pairs.INIT, ops).registered;
               && ((ns, name) in reg <==> exists r :: r in c.live.Values && r.ns == ns && r.name == name)
               && forall r | r in c.live.Values && r.ns == ns && r.name == name ::
                    (ns, name) in reg && reg[(ns, name)].key == SecretKey(r)
  {
    RegistryIsPairKeyed(run, ns, name, SecretObject("", "", ""));
    InitInv();
    InvRun(INIT, run);
    Convergence(run);
    var c := After(INIT, run);
    var p := Pairs.After(Pairs.INIT, Operations(INIT, run));
    Pairs.SameLookup(c.manager.registered, p.registered, (ns, name));
    PlainLive(INIT, run);
    LiveAtText(c, ns, name);
  }

  lemma {:induction false} PlainLive(c: State, run: seq<Label>)
    requires Manager.Wf(c.manager) && IsRun(c, run) && PlainState(c) && forall l | l in run :: PlainLabel(l)
    ensures PlainState(After(c, run))
    decreases |run|
  {
    hide Apply, Operation, PlainState, PlainLabel;
    if run != [] {
      assert run[0] in run;
      PlainStep(c, run[0]);
      PlainLive(Apply(c, run[0]), run[1..]);
    }
  }

  lemma LiveAtText(c: State, ns: string, name: string)
    requires LiveOk(c.live) && PlainState(c) && '/' !in ns && Manager.Wf(c.manager)
    requires Registry(c.manager) == Wanted(c.live)
    ensures var k := PathKey(ns, name);
            && (k in c.manager.registered <==> exists r :: r in c.live.Values && r.ns == ns && r.name == name)
            && forall r | r in c.live.Values && r.ns == ns && r.name == name ::
                 k in c.manager.registered && c.manager.registered[k].key == SecretKey(r)
  {
    var k := PathKey(ns, name);
    assert k in c.manager.registered <==> k in Registry(c.manager);
    assert k in c.live <==> k in Wanted(c.live);
    if k in c.live {
      PathKeyInjective(c.live[k].ns, c.live[k].name, ns, name);
      assert c.live[k] in c.live.Values;
    }
    forall r | r in c.live.Values && r.ns == ns && r.name == name
      ensures k in c.manager.registered && c.manager.registered[k].key == SecretKey(r) {
      var j :| j in c.live && c.live[j] == r;
      assert j == k && Registry(c.manager)[k] == Wanted(c.live)[k];
    }
  }

  /**
   When things are quiet, a live route reads exactly the cached object of its own namespace and current secret, and
   its stored handler holds the object of this route that was queued last.
   */
  lemma LiveRouteReadsItsSecret(run: seq<Label>, k: string, o: SecretObject)
    requires IsRun(INIT, run) && Quiet(After(INIT, run)) && k in After(INIT, run).live
    ensures var c := After(INIT, run); var r := c.live[k]; var notes := NotesAfter(map[], INIT, run);
            && k in c.manager.registered && SecretKey(r) in c.manager.monitor.monitors
            && (Manager.GetSecret(c.manager, r.ns, r.name) == Ok(o) <==>
                 r.ns != "" && o.ns == r.ns && o.name == r.secret
                 && o in Spec.ItemOf(c.manager.monitor, SecretKey(r)).informer.store.Values)
            && Spec.Live(c.manager.monitor, c.manager.registered[k]) && k in notes
            && Captured(c.manager.monitor, c.manager.registered[k]) == notes[k].route
  {
    InitInv();
    InvRun(INIT, run);
    Convergence(run);
    StoredVersion(run, k);
    var c := After(INIT, run);
    assert k in Registry(c.manager) && Registry(c.manager)[k] == Wanted(c.live)[k];
    Manager.CacheAgreement(c.manager, c.live[k].ns, c.live[k].name);
  }
}
