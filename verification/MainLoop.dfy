/**
 The loop of the main program around the retry policy. As it is written, it returns early for every key that is a
 text and asserts afterwards that the key is one, so the policy is never reached; a driver without the early return
 is what the policy is meant for.
 */
module MainLoop {
  import opened Retry

  // ---- One item, point by point ----

  /** Where the worker is: before taking a key, before the early return, before synchronizing, before reporting it done. */
  datatype Point = AtStart | AtCheck | AtSync | AtDone | Crashed

  datatype LoopState = LoopState(queue: State, at: Point)

  datatype LoopLabel =
    | TakeKey
    | CheckText
    | Synchronize(failed: bool)
    | FinishKey
    | Wakes(i: nat)   // the delay of a waiting key passes
    | Arrives(k: Key) // a callback adds a key

  predicate CanStep(c: LoopState, l: LoopLabel) {
    match l
    case TakeKey => c.at.AtStart? && c.queue.worker.Resting? && c.queue.queue != []
    case CheckText => c.at.AtCheck? && c.queue.worker.Syncing?
    case Synchronize(_) => c.at.AtSync? && c.queue.worker.Syncing?
    case FinishKey => c.at.AtDone? && !c.queue.worker.Resting?
    case Wakes(i) => i < |c.queue.waiting|
    case Arrives(_) => true
  }

  /** Synchronizing asserts that the key is a text; when that fails, the key is still reported as done. */
  function Step(c: LoopState, l: LoopLabel): LoopState
    requires CanStep(c, l)
  {
    match l
    case TakeKey => LoopState(Taken(c.queue), AtCheck)
    case CheckText => c.(at := if c.queue.worker.key.Text? then AtDone else AtSync)
    case Synchronize(failed) =>
      if c.queue.worker.key.Text? then LoopState(HandleErr(c.queue, c.queue.worker.key, failed), AtDone)
      else LoopState(Finished(c.queue), Crashed)
    case FinishKey => LoopState(Finished(c.queue), AtStart)
    case Wakes(i) => c.(queue := Apply(c.queue, Label.DelayPasses(i)))
    case Arrives(k) => c.(queue := Added(c.queue, k))
  }

  predicate Steps(c: LoopState, run: seq<LoopLabel>)
    decreases |run|
  {
    run == [] || (CanStep(c, run[0]) && Steps(Step(c, run[0]), run[1..]))
  }

  function End(c: LoopState, run: seq<LoopLabel>): LoopState
    requires Steps(c, run)
    decreases |run|
  {
    if run == [] then c else End(Step(c, run[0]), run[1..])
  }

  function Begin(keys: seq<Key>): LoopState {
    LoopState(Start(keys), AtStart)
  }

  // ---- The policy is never reached ----

  /** How often a run attempts to synchronize a key. */
  function Attempted(c: LoopState, run: seq<LoopLabel>, k: Key): nat
    requires Steps(c, run)
    decreases |run|
  {
    if run == [] then 0
    else (if run[0].Synchronize? && k.Text? && c.queue.worker.key == k then 1 else 0) + Attempted(Step(c, run[0]), run[1..], k)
  }

  /** Nothing has failed and nothing waits, and only a key that is no text gets to where keys are synchronized. */
  ghost predicate Untried(c: LoopState) {
    && c.queue.failures == map[] && c.queue.waiting == []
    && (c.at.AtStart? || c.at.Crashed? <==> c.queue.worker.Resting?)
    && (!c.queue.worker.Resting? ==> c.queue.worker.Syncing?)
    && (c.at.AtSync? ==> c.queue.worker.key.Other?)
    && (c.at.AtDone? ==> c.queue.worker.key.Text?)
  }

  lemma {:induction false} UntriedRun(c: LoopState, run: seq<LoopLabel>, k: Key)
    requires Untried(c) && Steps(c, run)
    ensures Attempted(c, run, k) == 0 && Untried(End(c, run))
    decreases |run|
  {
    if run != [] {
      UntriedRun(Step(c, run[0]), run[1..], k);
    }
  }

  /**
   In every run, whatever is queued and whatever arrives: no key is ever attempted, requeued or remembered as failed,
   and only a key that is no text gets past the early return.
   */
  lemma NothingIsTried(keys: seq<Key>, run: seq<LoopLabel>, k: Key)
    requires Steps(Begin(keys), run)
    ensures var c := End(Begin(keys), run);
            && Attempted(Begin(keys), run, k) == 0 && NumRequeues(c.queue, k) == 0 && c.queue.waiting == []
            && (c.at.AtSync? ==> c.queue.worker.Syncing? && c.queue.worker.key.Other?)
  {
    UntriedRun(Begin(keys), run, k);
  }

  // ---- One pass ----

  function Takes(run: seq<LoopLabel>): nat {
    if run == [] then 0 else (if run[0].TakeKey? then 1 else 0) + Takes(run[1..])
  }

  /** The first n keys have been taken, the last of them perhaps being still in work. */
  ghost predicate Passed(c: LoopState, keys: seq<Key>, n: nat) {
    && Untried(c) && n <= |keys|
    && c.queue.queue == keys[n..] && c.queue.dirty == (set k | k in keys[n..])
    && (forall i | 0 <= i < n - 1 :: keys[i].Text?)
    && (!c.at.AtStart? ==> n > 0)
    && (c.at.AtStart? && n > 0 ==> keys[n - 1].Text?)
    && (c.at.Crashed? ==> keys[n - 1].Other?)
    && (!c.queue.worker.Resting? ==> c.queue.worker.key == keys[n - 1])
  }

  lemma PassedStep(c: LoopState, l: LoopLabel, keys: seq<Key>, n: nat)
    requires Retry.Distinct(keys) && Passed(c, keys, n) && CanStep(c, l) && !l.Arrives?
    ensures Passed(Step(c, l), keys, n + if l.TakeKey? then 1 else 0)
  {
    if l.TakeKey? {
      assert keys[n..][1..] == keys[n + 1..];
      forall k ensures k in keys[n + 1..] <==> k in keys[n..] && k != keys[n] {
        if k in keys[n..] && k != keys[n] {
          var j :| n <= j < |keys| && keys[j] == k;
          assert keys[n + 1..][j - n - 1] == k;
        }
      }
    }
  }

  lemma {:induction false} PassedRun(c: LoopState, run: seq<LoopLabel>, keys: seq<Key>, n: nat)
    requires Retry.Distinct(keys) && Passed(c, keys, n) && Steps(c, run) && forall l | l in run :: !l.Arrives?
    ensures Passed(End(c, run), keys, n + Takes(run))
    decreases |run|
  {
    hide Passed, Step, Retry.Distinct;
    if run != [] {
      assert run[0] in run;
      PassedStep(c, run[0], keys, n);
      PassedRun(Step(c, run[0]), run[1..], keys, n + if run[0].TakeKey? then 1 else 0);
    }
  }

  /**
   Without arrivals the queue drains in one pass: keys are taken in their order and once each. The loop stops exactly
   when all of them are texts and taken, or when the last one taken is the first that is no text, which crashes it.
   */
  lemma OnePass(keys: seq<Key>, run: seq<LoopLabel>)
    requires Retry.Distinct(keys) && Steps(Begin(keys), run) && forall l | l in run :: !l.Arrives?
    ensures var c := End(Begin(keys), run); var n := Takes(run);
            && n <= |keys| && c.queue.queue == keys[n..] && (forall i | 0 <= i < n - 1 :: keys[i].Text?)
            && ((forall l: LoopLabel | !l.Arrives? :: !CanStep(c, l)) <==> c.at.Crashed? || (c.at.AtStart? && n == |keys|))
            && (c.at.Crashed? ==> n > 0 && keys[n - 1].Other?)
            && (c.at.AtStart? && n > 0 ==> keys[n - 1].Text?)
  {
    hide Step;
    assert keys[0..] == keys;
    PassedRun(Begin(keys), run, keys, 0);
    StuckExactly(End(Begin(keys), run), keys, Takes(run));
  }

  lemma StuckExactly(c: LoopState, keys: seq<Key>, n: nat)
    requires Passed(c, keys, n)
    ensures (forall l: LoopLabel | !l.Arrives? :: !CanStep(c, l)) <==> c.at.Crashed? || (c.at.AtStart? && n == |keys|)
  {
    if !c.at.Crashed? && !(c.at.AtStart? && n == |keys|) {
      assert CanStep(c, TakeKey) || CanStep(c, CheckText) || CanStep(c, Synchronize(true)) || CanStep(c, FinishKey);
    }
  }

  // ---- Arrivals ----

  /** A key that arrives enters at once unless it is there or in work; a key in work enters when it is done. */
  function EntersBy(c: LoopState, l: LoopLabel): seq<Key>
    requires CanStep(c, l)
  {
    match l
    case Arrives(k) => if Present(c.queue, k) then [] else [k]
    case FinishKey => if c.queue.worker.key in c.queue.dirty then [c.queue.worker.key] else []
    case Synchronize(_) =>
      if c.queue.worker.key.Other? && c.queue.worker.key in c.queue.dirty then [c.queue.worker.key] else []
    case _ => []
  }

  function Entered(c: LoopState, run: seq<LoopLabel>): seq<Key>
    requires Steps(c, run)
    decreases |run|
  {
    if run == [] then [] else EntersBy(c, run[0]) + Entered(Step(c, run[0]), run[1..])
  }

  function TakenIn(c: LoopState, run: seq<LoopLabel>): seq<Key>
    requires Steps(c, run)
    decreases |run|
  {
    if run == [] then []
    else (if run[0].TakeKey? then [c.queue.queue[0]] else []) + TakenIn(Step(c, run[0]), run[1..])
  }

  /** The key has arrived since it was taken last; `due` says so of the beginning. */
  function Due(due: bool, c: LoopState, run: seq<LoopLabel>, k: Key): bool
    requires Steps(c, run)
    decreases |run|
  {
    if run == [] then due
    else
      var now := if run[0] == Arrives(k) then true
                 else if run[0].TakeKey? && c.queue.queue[0] == k then false
                 else due;
      Due(now, Step(c, run[0]), run[1..], k)
  }

  /** Every dirty key is queued once, except the one in work. */
  ghost predicate Arranged(c: LoopState) {
    && Untried(c) && Retry.Distinct(c.queue.queue)
    && forall k :: k in c.queue.queue <==> k in c.queue.dirty && !(!c.queue.worker.Resting? && c.queue.worker.key == k)
  }

  lemma ArrangedTake(c: LoopState)
    requires Arranged(c) && CanStep(c, TakeKey)
    ensures Arranged(Step(c, TakeKey))
  {
    WithoutOne(c.queue.queue, 0);
    assert c.queue.queue[..0] + c.queue.queue[1..] == c.queue.queue[1..];
    hide Retry.Distinct;
  }

  lemma ArrangedArrival(c: LoopState, k: Key)
    requires Arranged(c)
    ensures Arranged(Step(c, Arrives(k)))
  {
  }

  lemma ArrangedEnd(c: LoopState, l: LoopLabel)
    requires Arranged(c) && CanStep(c, l) && (l.Synchronize? || l.FinishKey?)
    ensures Arranged(Step(c, l))
  {
  }

  lemma ArrangedStep(c: LoopState, l: LoopLabel)
    requires Arranged(c) && CanStep(c, l)
    ensures Arranged(Step(c, l))
  {
    hide Retry.Distinct, Apply;
    match l
    case TakeKey => ArrangedTake(c);
    case Arrives(k) => ArrangedArrival(c, k);
    case Synchronize(_) => ArrangedEnd(c, l);
    case FinishKey => ArrangedEnd(c, l);
    case CheckText =>
    case Wakes(_) =>
  }

  lemma StepInOrder(c: LoopState, l: LoopLabel, k: Key)
    requires Arranged(c) && CanStep(c, l) && (l.TakeKey? ==> c.queue.queue != [])
    ensures c.queue.queue + EntersBy(c, l) == (if l.TakeKey? then [c.queue.queue[0]] else []) + Step(c, l).queue.queue
    ensures k in Step(c, l).queue.dirty <==>
              l == Arrives(k) || (k in c.queue.dirty && !(l.TakeKey? && c.queue.queue[0] == k))
  {
    hide Retry.Distinct;
  }

  lemma {:induction false} ArrivalsRun(c: LoopState, run: seq<LoopLabel>, k: Key)
    requires Arranged(c) && Steps(c, run)
    ensures c.queue.queue + Entered(c, run) == TakenIn(c, run) + End(c, run).queue.queue
    ensures Due(k in c.queue.dirty, c, run, k) <==> k in End(c, run).queue.dirty
    ensures Arranged(End(c, run))
    decreases |run|
  {
    hide Arranged, Step, EntersBy;
    if run != [] {
      var c1 := Step(c, run[0]);
      var (into, out) := (EntersBy(c, run[0]), if run[0].TakeKey? then [c.queue.queue[0]] else []);
      ArrangedStep(c, run[0]);
      StepInOrder(c, run[0], k);
      ArrivalsRun(c1, run[1..], k);
      InterleavedOrder(c.queue.queue, into, out, c1.queue.queue,
                       Entered(c1, run[1..]), TakenIn(c1, run[1..]), End(c, run).queue.queue);
    }
  }

  /**
   In every run, whatever arrives and whenever: keys are taken in the order in which they entered, and a key that arrived
   since it was taken last is queued, or in work and queued again after that; no other key is.
   */
  lemma ArrivalsInOrder(keys: seq<Key>, run: seq<LoopLabel>, k: Key)
    requires Retry.Distinct(keys) && Steps(Begin(keys), run)
    ensures var c := End(Begin(keys), run).queue;
            && keys + Entered(Begin(keys), run) == TakenIn(Begin(keys), run) + c.queue
            && (k in c.queue || (!c.worker.Resting? && c.worker.key == k && k in c.dirty) <==>
                 Due(k in keys, Begin(keys), run, k))
  {
    ArrivalsRun(Begin(keys), run, k);
  }

  // ---- The controller as an object ----

  class Controller {
    const queue: RateLimitingQueue

    constructor (queue: RateLimitingQueue)
      ensures this.queue == queue
    {
      this.queue := queue;
    }

    /** Forgets a key that succeeded or has failed too often; requeues any other. */
    method HandleErr(failed: bool, key: Key)
      requires queue.worker == Syncing(key)
      modifies queue
      ensures queue.Value() == Apply(old(queue.Value()), Handle(failed))
    {
      if !failed {
        queue.Forget(key);
      } else if queue.NumRequeues(key) < MAX_REQUEUES {
        queue.AddRateLimited(key);
      } else {
        queue.Forget(key);
      }
      queue.worker := Finishing(key);  // still being processed, but its outcome is handled
    }

    /**
     As it is written: a text is skipped, and the assertion that any other key is a text panics, so that nothing is ever
     synchronized. The deferred report is made on both ways out.
     */
    method ProcessNextItem() returns (panicked: bool)
      requires queue.worker.Resting? && queue.queue != []
      modifies queue
      ensures panicked == old(queue.queue)[0].Other? && queue.Value() == Finished(Taken(old(queue.Value())))
    {
      var key := queue.Get();
      if key.Text? {
        queue.Done();
        return false;
      }
      queue.Done();
      panicked := true;
    }

    /** As it is written: takes the texts at the front of the queue, and panics at the first key that is none. */
    method RunWorker() returns (panicked: bool)
      requires InOrder(queue.Value()) && queue.worker.Resting?
      modifies queue
      ensures queue.worker.Resting? && queue.failures == old(queue.failures) && queue.waiting == old(queue.waiting)
      ensures panicked <==> exists k :: k in old(queue.queue) && k.Other?
      ensures if panicked
              then exists n :: 0 <= n < |old(queue.queue)| && FirstOther(old(queue.queue), n)
                               && queue.queue == old(queue.queue)[n + 1..]
              else queue.queue == []
    {
      var n: nat := 0;
      panicked := false;
      while !panicked && queue.queue != []
        invariant n <= |old(queue.queue)| && queue.queue == old(queue.queue)[n..]
        invariant InOrder(queue.Value()) && queue.worker.Resting?
        invariant queue.failures == old(queue.failures) && queue.waiting == old(queue.waiting)
        invariant if panicked then n > 0 && FirstOther(old(queue.queue), n - 1)
                  else forall i | 0 <= i < n :: old(queue.queue)[i].Text?
        decreases |queue.queue|, !panicked
      {
        TakenAndFinished(queue.Value());
        panicked := ProcessNextItem();
        n := n + 1;
      }
    }
  }

  /** The queue has every dirty key once. */
  ghost predicate InOrder(c: State) {
    Retry.Distinct(c.queue) && forall k :: k in c.queue <==> k in c.dirty
  }

  predicate FirstOther(keys: seq<Key>, n: nat)
    requires n < |keys|
  {
    keys[n].Other? && forall i | 0 <= i < n :: keys[i].Text?
  }

  lemma TakenAndFinished(c: State)
    requires InOrder(c) && c.worker.Resting? && c.queue != []
    ensures InOrder(Finished(Taken(c))) && Finished(Taken(c)).queue == c.queue[1..]
  {
    WithoutOne(c.queue, 0);
    assert c.queue[..0] + c.queue[1..] == c.queue[1..];
  }

  // ---- A driver of the policy ----

  /** Drives the policy: every key is attempted, and `fails` says which attempts fail. */
  class Driver {
    const controller: Controller

    constructor (controller: Controller)
      ensures this.controller == controller
    {
      this.controller := controller;
    }

    /** Takes the oldest key, attempts it, and handles the outcome. */
    method Attempt(fails: (Key, nat) -> bool)
      requires controller.queue.worker.Resting? && controller.queue.queue != []
      modifies controller.queue
      ensures var c := old(controller.queue.Value()); var k := c.queue[0];
              controller.queue.Value() == Processed(c, fails(k, NumRequeues(c, k)))
    {
      var queue := controller.queue;
      var key := queue.Get();
      var failed := fails(key, queue.NumRequeues(key));
      controller.HandleErr(failed, key);
      queue.Done();
    }

    /** Goes on until nothing is queued or waiting. What happened is a run, to which all the bounds on runs apply. */
    method Drain(fails: (Key, nat) -> bool, ghost keys: seq<Key>) returns (ghost run: seq<Label>)
      requires var c := controller.queue.Value(); Inv(c) && c.worker.Resting? && Covers(keys, c)
      modifies controller.queue
      ensures var c := controller.queue.Value(); Idle(c) && c.dirty == {} && c.failures == map[]
      ensures var c0 := old(controller.queue.Value()); IsRun(c0, run) && controller.queue.Value() == After(c0, run)
    {
      var queue := controller.queue;
      ghost var c0 := queue.Value();
      run := [];
      TotalIsNat(c0, keys);
      while queue.queue != [] || queue.waiting != []
        invariant Inv(queue.Value()) && queue.worker.Resting? && Covers(keys, queue.Value())
        invariant IsRun(c0, run) && queue.Value() == After(c0, run)
        invariant 0 <= Total(queue.Value(), keys)
        decreases Total(queue.Value(), keys)
      {
        ghost var c := queue.Value();
        ghost var steps: seq<Label>;
        if queue.queue == [] {
          steps := [Label.DelayPasses(0)];
          OneStep(c, Label.DelayPasses(0));
          queue.DelayPasses(0);
        } else {
          ghost var failed := fails(c.queue[0], NumRequeues(c, c.queue[0]));
          steps := [Take, Handle(failed), Finish];
          WholeItem(c, failed);
          Attempt(fails);
        }
        RunLength(c, steps, keys);
        StillCovers(c, steps, keys);
        RunAppend(c0, run, steps);
        run := run + steps;
      }
      IdleMeansDone(queue.Value());
    }
  }
}
