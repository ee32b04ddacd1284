/**
 What the steps of the secret monitor achieve: every operation that has begun can finish, whatever happened meanwhile,
 and what the environment did to a new monitor is what its first handler meets.
 */
module SecretProgress {
  import opened Base
  import opened ItemMonitor
  import opened SecretProtocol
  import Spec = SecretSpec

  lemma RunCons(c: State, l: Label, rest: seq<Label>)
    requires Wf(c) && Enabled(c, l) && IsRun(Apply(c, l), rest)
    ensures IsRun(c, [l] + rest) && After(c, [l] + rest) == After(Apply(c, l), rest)
  {
    assert ([l] + rest)[1..] == rest;
  }

  // ---- Operations finish ----

  /** The steps that the operation in progress still takes at most, with those of a new monitor up to its first sync. */
  function StepsLeft(c: State): nat
    requires Wf(c)
  {
    match c.op
    case Idle => 0
    case Syncing(_, _) =>
      var x := c.s.items[Last(c)];
      (if !x.started then 3 else if !x.informer.ran then 2 else if !x.informer.synced then 1 else 0) + 3
    case Adding(_, _, _) => 2
    case Counting(_, _) => 1
    case Removing(_, _) => 4
    case Uncounting(_) => 3
    case StoppingLast(_) => 2
    case Deleting(_) => 1
  }

  /** The next step of the operation in progress, or of the new monitor that it waits for. */
  function NextStep(c: State, store: map<string, SecretObject>, lenient: bool): Label
    requires Wf(c) && !c.op.Idle?
  {
    match c.op
    case Idle => Publish
    case Syncing(_, _) =>
      var x := c.s.items[Last(c)];
      if !x.started then Starts(Last(c))
      else if !x.informer.ran then Runs(Last(c))
      else if !x.informer.synced then Syncs(Last(c), store)
      else Publish
    case Adding(_, _, _) => AddHandler
    case Counting(_, _) => CountUp
    case Removing(_, _) => RemoveHandler(lenient)
    case Uncounting(_) => CountDown
    case StoppingLast(_) => StopLast
    case Deleting(_) => Delete
  }

  lemma StepCloser(c: State, store: map<string, SecretObject>, lenient: bool)
    requires Inv(c) && !c.op.Idle? && (c.op.Syncing? ==> StoreOk(c.op.key, store))
    ensures var l := NextStep(c, store, lenient);
            && Enabled(c, l) && StepsLeft(Apply(c, l)) < StepsLeft(c) && Asked(l) == []
            && (Apply(c, l).op.Syncing? ==> c.op.Syncing? && Apply(c, l).op.key == c.op.key)
  {
  }

  lemma {:induction false} FinishFrom(c: State, store: map<string, SecretObject>, lenient: bool) returns (run: seq<Label>)
    requires Inv(c) && (c.op.Syncing? ==> StoreOk(c.op.key, store))
    ensures IsRun(c, run) && |run| <= StepsLeft(c) && AskedBy(run) == [] && After(c, run).op.Idle?
    decreases StepsLeft(c)
  {
    if c.op.Idle? {
      run := [];
    } else {
      hide Apply, Enabled, StepsLeft, NextStep, Asked, StoreOk;
      var l := NextStep(c, store, lenient);
      StepCloser(c, store, lenient);
      InvStep(c, l);
      var rest := FinishFrom(Apply(c, l), store, lenient);
      RunCons(c, l, rest);
      run := [l] + rest;
      assert run[1..] == rest;
    }
  }

  /**
   Every operation can finish: from every reachable state at most six steps, of the operation in progress and of the
   new monitor that it waits for, lead to a free lock, with the output of that operation and no other.
   */
  lemma OperationsFinish(run: seq<Label>, store: map<string, SecretObject>, lenient: bool) returns (more: seq<Label>)
    requires IsRun(INIT, run)
    requires After(INIT, run).op.Syncing? ==> StoreOk(After(INIT, run).op.key, store)
    ensures var c := After(INIT, run);
            && IsRun(c, more) && |more| <= 6 && AskedBy(more) == []
            && var c' := After(c, more);
               c'.op.Idle? && |c'.outs| == |c.outs| + InProgress(c) && (c.op.Idle? ==> more == [])
  {
    var _ := StepsRefineWholeOperations(INIT, run);
    var c := After(INIT, run);
    more := FinishFrom(c, store, lenient);
    var _ := StepsRefineWholeOperations(c, more);
  }

  // ---- What happened to a new monitor ----

  /** The cache of a monitor after a step. */
  function StoreNow(l: Label, i: nat, store: map<string, SecretObject>): map<string, SecretObject> {
    match l
    case Syncs(j, new_) => if j == i then new_ else store
    case StoreChanges(j, new_) => if j == i then new_ else store
    case _ => store
  }

  /** The cache of a monitor after a run, which is what the last sync or update put there. */
  function LastStore(run: seq<Label>, i: nat, store: map<string, SecretObject>): map<string, SecretObject> {
    if run == [] then store else LastStore(run[1..], i, StoreNow(run[0], i, store))
  }

  predicate IsSync(l: Label, i: nat) {
    l.Syncs? && l.i == i
  }

  ghost predicate Synced(run: seq<Label>, i: nat) {
    exists k :: 0 <= k < |run| && IsSync(run[k], i)
  }

  /** What a run of the environment made of a monitor. */
  ghost predicate History(x: Item, y: Item, run: seq<Label>, i: nat) {
    && y.key == x.key && y.informer.handlers == x.informer.handlers
    && (y.started <==> x.started || Starts(i) in run)
    && (y.informer.ran <==> x.informer.ran || Runs(i) in run)
    && (y.informer.synced <==> x.informer.synced || Synced(run, i))
    && (y.informer.ended <==> x.informer.ended || RunEnds(i) in run)
    && (y.started ==> (y.stopped <==> (x.started && x.stopped) || WatcherStops(i) in run))
    && (!y.started ==> WatcherStops(i) !in run)
    && y.informer.store == LastStore(run, i, x.informer.store)
  }

  lemma {:induction false} ItemHistory(c: State, run: seq<Label>, i: nat)
    requires Inv(c) && IsRun(c, run) && i < |c.s.items| && forall l | l in run :: Environment(l)
    ensures var c' := After(c, run);
            && Inv(c') && c'.op == c.op && c'.outs == c.outs && c'.s.monitors == c.s.monitors && c'.s.next == c.s.next
            && |c'.s.items| == |c.s.items| && History(c.s.items[i], c'.s.items[i], run, i)
    decreases |run|
  {
    if run != [] {
      var l := run[0];
      assert l in run;
      InvStep(c, l);
      StepHistory(c, l, i);
      ItemHistory(Apply(c, l), run[1..], i);
      HistoryCons(c.s.items[i], Apply(c, l).s.items[i], After(c, run).s.items[i], l, run[1..], i);
      assert [l] + run[1..] == run;
    }
  }

  lemma StepHistory(c: State, l: Label, i: nat)
    requires Inv(c) && Enabled(c, l) && i < |c.s.items| && Environment(l)
    ensures var c' := Apply(c, l);
            && c'.op == c.op && c'.outs == c.outs && c'.s.monitors == c.s.monitors && c'.s.next == c.s.next
            && |c'.s.items| == |c.s.items| && History(c.s.items[i], c'.s.items[i], [l], i)
  {
    assert [l][1..] == [] && [l][0] == l;
    assert ItemOk(c.s.items[i]);
    assert Synced([l], i) <==> IsSync(l, i);
  }

  lemma HistoryCons(x: Item, y: Item, z: Item, l: Label, rest: seq<Label>, i: nat)
    requires History(x, y, [l], i) && History(y, z, rest, i)
    ensures History(x, z, [l] + rest, i)
  {
    var run := [l] + rest;
    assert run[1..] == rest;
    LastStoreAppend([l], rest, i, x.informer.store);
    assert Synced(run, i) <==> IsSync(l, i) || Synced(rest, i) by {
      if k :| 0 <= k < |rest| && IsSync(rest[k], i) {
        assert run[k + 1] == rest[k];
      }
      assert run[0] == l;
    }
    assert Synced([l], i) <==> IsSync(l, i) by {
      assert [l][0] == l;
    }
  }

  /**
   The first handler of a new monitor meets what happened to it since the add began: the whole add that is performed is
   one with the cancellations, the end and the cache that the environment brought about meanwhile.
   */
  lemma FirstAddMeetsItsEnvironment(c: State, key: ObjectKey, handler: Handler, before: seq<Label>, between: seq<Label>)
    requires Inv(c) && c.op.Idle? && key !in c.s.monitors
    requires (forall l | l in before :: Environment(l)) && (forall l | l in between :: Environment(l))
    requires var c1 := Apply(c, BeginAdd(key, Some(handler)));
             && IsRun(c1, before) && Enabled(After(c1, before), Publish)
             && IsRun(Apply(After(c1, before), Publish), between)
    ensures var c1 := Apply(c, BeginAdd(key, Some(handler)));
            var c2 := After(Apply(After(c1, before), Publish), between);
            var n, events := |c.s.items|, before + between;
            && Enabled(c2, AddHandler)
            && Meaning(c2, AddHandler) == Some(Spec.AddOp(key, Some(handler),
                 Spec.Env(WatcherStops(n) in events, RunEnds(n) in events, LastStore(events, n, map[]))))
  {
    hide History, EnvOf, LastStore;
    var n := |c.s.items|;
    InvStep(c, BeginAdd(key, Some(handler)));
    var c1 := Apply(c, BeginAdd(key, Some(handler)));
    ItemHistory(c1, before, n);
    var c2 := After(c1, before);
    InvStep(c2, Publish);
    ItemHistory(Apply(c2, Publish), between, n);
    EnvOfHistory(key, c2.s.items[n], After(Apply(c2, Publish), between).s.items[n], before, between, n);
  }

  lemma EnvOfHistory(key: ObjectKey, y: Item, z: Item, before: seq<Label>, between: seq<Label>, n: nat)
    requires History(NewItem(key), y, before, n) && History(y, z, between, n) && ItemOk(y) && y.informer.synced
    ensures var events := before + between;
            EnvOf(z) == Spec.Env(WatcherStops(n) in events, RunEnds(n) in events, LastStore(events, n, map[]))
  {
    LastStoreAppend(before, between, n, map[]);
  }

  lemma {:induction false} LastStoreAppend(a: seq<Label>, b: seq<Label>, i: nat, store: map<string, SecretObject>)
    ensures LastStore(a + b, i, store) == LastStore(b, i, LastStore(a, i, store))
    decreases |a|
  {
    if a == [] {
      assert a + b == b;
    } else {
      assert (a + b)[0] == a[0] && (a + b)[1..] == a[1..] + b;
      LastStoreAppend(a[1..], b, i, StoreNow(a[0], i, store));
    }
  }
}
