/**
 The retry policy over a rate-limited work queue with one worker. A key that failed waits for its delay and is
 then added again; after five such requeues in a row it is dropped.
 */
module Retry {
  /** The queue holds values of any type; most keys are texts. */
  datatype Key = Text(text: string) | Other(id: nat)

  /** The worker rests, synchronizes a key, or has handled the outcome and has still to report the key as done. */
  datatype Worker = Resting | Syncing(key: Key) | Finishing(key: Key)

  /** `dirty` holds the keys that are to be processed, `waiting` those whose delay has not passed yet. */
  datatype State = State(queue: seq<Key>, dirty: set<Key>, worker: Worker, waiting: seq<Key>, failures: map<Key, nat>)

  const MAX_REQUEUES := 5

  function NumRequeues(c: State, k: Key): nat {
    if k in c.failures then c.failures[k] else 0
  }

  // ---- The operations of the queue ----

  /** A key that is dirty already is not added twice, and one that is being processed waits until it is done. */
  function Added(c: State, k: Key): State {
    if k in c.dirty then c
    else if !c.worker.Resting? && c.worker.key == k then c.(dirty := c.dirty + {k})
    else c.(dirty := c.dirty + {k}, queue := c.queue + [k])
  }

  function Taken(c: State): State
    requires c.worker.Resting? && c.queue != []
  {
    c.(queue := c.queue[1..], dirty := c.dirty - {c.queue[0]}, worker := Syncing(c.queue[0]))
  }

  function Finished(c: State): State
    requires !c.worker.Resting?
  {
    c.(worker := Resting, queue := if c.worker.key in c.dirty then c.queue + [c.worker.key] else c.queue)
  }

  function Requeued(c: State, k: Key): State {
    c.(failures := c.failures[k := NumRequeues(c, k) + 1], waiting := c.waiting + [k])
  }

  function Forgotten(c: State, k: Key): State {
    c.(failures := c.failures - {k})
  }

  function HandleErr(c: State, k: Key, failed: bool): State {
    if !failed then Forgotten(c, k)
    else if NumRequeues(c, k) < MAX_REQUEUES then Requeued(c, k)
    else Forgotten(c, k)
  }

  // ---- Steps ----

  datatype Label = Take | Handle(failed: bool) | Finish | DelayPasses(i: nat)

  predicate Enabled(c: State, l: Label) {
    match l
    case Take => c.worker.Resting? && c.queue != []
    case Handle(_) => c.worker.Syncing?
    case Finish => c.worker.Finishing?
    case DelayPasses(i) => i < |c.waiting|
  }

  function Apply(c: State, l: Label): State
    requires Enabled(c, l)
  {
    match l
    case Take => Taken(c)
    case Handle(failed) => HandleErr(c, c.worker.key, failed).(worker := Finishing(c.worker.key))
    case Finish => Finished(c)
    case DelayPasses(i) => Added(c.(waiting := c.waiting[..i] + c.waiting[i + 1..]), c.waiting[i])
  }

  predicate IsRun(c: State, run: seq<Label>)
    decreases |run|
  {
    run == [] || (Enabled(c, run[0]) && IsRun(Apply(c, run[0]), run[1..]))
  }

  function After(c: State, run: seq<Label>): State
    requires IsRun(c, run)
    decreases |run|
  {
    if run == [] then c else After(Apply(c, run[0]), run[1..])
  }

  // ---- Every key is in one place ----

  ghost predicate Distinct(s: seq<Key>) {
    forall i, j | 0 <= i < j < |s| :: s[i] != s[j]
  }

  predicate IsSyncing(c: State, k: Key) {
    c.worker.Syncing? && c.worker.key == k
  }

  predicate IsFinishing(c: State, k: Key) {
    c.worker.Finishing? && c.worker.key == k
  }

  predicate Pending(c: State, k: Key) {
    k in c.dirty || k in c.waiting || IsSyncing(c, k)
  }

  /** A key is queued, waiting or being synchronized, and never two of these. */
  ghost predicate Inv(c: State) {
    && Distinct(c.queue) && Distinct(c.waiting)
    && (forall k | k in c.dirty :: k in c.queue || IsFinishing(c, k))
    && (forall k | k in c.queue :: k in c.dirty && !IsFinishing(c, k))
    && (forall k | k in c.waiting :: k !in c.dirty && !IsSyncing(c, k))
    && (c.worker.Syncing? ==> c.worker.key !in c.dirty)
    && (forall k | k in c.failures :: c.failures[k] <= MAX_REQUEUES && Pending(c, k))
  }

  lemma WithoutOne(s: seq<Key>, i: nat)
    requires i < |s| && Distinct(s)
    ensures var r := s[..i] + s[i + 1..]; Distinct(r) && forall k :: k in r <==> k in s && k != s[i]
  {
    var r := s[..i] + s[i + 1..];
    forall k ensures k in r <==> k in s && k != s[i] {
      if k in s && k != s[i] {
        var j :| 0 <= j < |s| && s[j] == k;
        assert r[if j < i then j else j - 1] == k;
      }
    }
  }

  lemma InvStep(c: State, l: Label)
    requires Inv(c) && Enabled(c, l)
    ensures Inv(Apply(c, l))
  {
    match l
    case Take => TakeInv(c);
    case Handle(failed) => HandleInv(c, failed);
    case Finish =>
    case DelayPasses(i) => DelayInv(c, i);
  }

  lemma TakeInv(c: State)
    requires Inv(c) && Enabled(c, Take)
    ensures Inv(Apply(c, Take))
  {
    WithoutOne(c.queue, 0);
    assert c.queue[..0] + c.queue[1..] == c.queue[1..];
  }

  lemma HandleInv(c: State, failed: bool)
    requires Inv(c) && Enabled(c, Handle(failed))
    ensures Inv(Apply(c, Handle(failed)))
  {
  }

  lemma DelayInv(c: State, i: nat)
    requires Inv(c) && i < |c.waiting|
    ensures Inv(Apply(c, DelayPasses(i)))
  {
    WithoutOne(c.waiting, i);
  }

  // ---- Attempts ----

  /** How many attempts a key has left at most. */
  ghost function Left(c: State, k: Key): int {
    if Pending(c, k) then MAX_REQUEUES + 1 - NumRequeues(c, k) else 0
  }

  function Attempts(c: State, run: seq<Label>, k: Key): nat
    requires IsRun(c, run)
    decreases |run|
  {
    if run == [] then 0
    else (if run[0].Handle? && c.worker.key == k then 1 else 0) + Attempts(Apply(c, run[0]), run[1..], k)
  }

  lemma LeftStep(c: State, l: Label, k: Key)
    requires Inv(c) && Enabled(c, l)
    ensures var now := if l.Handle? && c.worker.key == k then 1 else 0;
            && Left(Apply(c, l), k) + now <= Left(c, k)
            && (l == Handle(true) || !l.Handle? ==> Left(Apply(c, l), k) + now == Left(c, k))
            && 0 <= Left(Apply(c, l), k)
  {
    InvStep(c, l);
    match l
    case Take =>
      WithoutOne(c.queue, 0);
      assert c.queue[..0] + c.queue[1..] == c.queue[1..];
    case Handle(failed) =>
    case Finish =>
    case DelayPasses(i) => WithoutOne(c.waiting, i);
  }

  /**
   A key is attempted at most once more than it may still be requeued, and exactly that often if every attempt
   fails and the run goes on until the key is no longer pending.
   */
  lemma {:induction false} AttemptsBound(c: State, run: seq<Label>, k: Key)
    requires Inv(c) && IsRun(c, run)
    ensures Attempts(c, run, k) + Left(After(c, run), k) <= Left(c, k)
    ensures Handle(false) !in run ==> Attempts(c, run, k) + Left(After(c, run), k) == Left(c, k)
    ensures Inv(After(c, run)) && 0 <= Left(After(c, run), k)
    decreases |run|
  {
    if run == [] {
      assert 0 <= Left(c, k);
    } else {
      LeftStep(c, run[0], k);
      InvStep(c, run[0]);
      AttemptsBound(Apply(c, run[0]), run[1..], k);
    }
  }

  /** A key that succeeded is not attempted again. */
  lemma SuccessIsLast(c: State, rest: seq<Label>)
    requires Inv(c) && c.worker.Syncing? && IsRun(c, [Handle(false)] + rest)
    ensures Attempts(c, [Handle(false)] + rest, c.worker.key) == 1
  {
    var run := [Handle(false)] + rest;
    assert run[0] == Handle(false) && run[1..] == rest;
    InvStep(c, Handle(false));
    AttemptsBound(Apply(c, Handle(false)), rest, c.worker.key);
  }

  // ---- The queue empties ----

  /** The steps that a key can take part in at most, four for each attempt. */
  ghost function Weight(c: State, k: Key): int {
    (if !Pending(c, k) then 0 else 4 * Left(c, k) - if IsSyncing(c, k) then 2 else if k in c.dirty then 1 else 0)
    + if IsFinishing(c, k) then 1 else 0
  }

  ghost function Total(c: State, keys: seq<Key>): int {
    if keys == [] then 0 else Weight(c, keys[0]) + Total(c, keys[1..])
  }

  function KeyOf(c: State, l: Label): Key
    requires Enabled(c, l)
  {
    match l
    case Take => c.queue[0]
    case Handle(_) => c.worker.key
    case Finish => c.worker.key
    case DelayPasses(i) => c.waiting[i]
  }

  /** A step takes weight from its own key, and leaves all other keys alone. */
  lemma WeightStep(c: State, l: Label, k: Key)
    requires Inv(c) && Enabled(c, l)
    ensures k != KeyOf(c, l) ==> Weight(Apply(c, l), k) == Weight(c, k)
    ensures k == KeyOf(c, l) ==> Weight(Apply(c, l), k) < Weight(c, k)
    ensures Weight(c, k) >= 0 && (Weight(c, k) > 0 <==> Pending(c, k) || IsFinishing(c, k))
  {
    LeftStep(c, l, k);
    match l
    case Take =>
      WithoutOne(c.queue, 0);
      assert c.queue[..0] + c.queue[1..] == c.queue[1..];
    case Handle(failed) =>
    case Finish =>
    case DelayPasses(i) => WithoutOne(c.waiting, i);
  }

  lemma {:induction false} TotalStep(c: State, l: Label, keys: seq<Key>)
    requires Inv(c) && Enabled(c, l) && Distinct(keys)
    ensures 0 <= Total(Apply(c, l), keys) <= Total(c, keys)
    ensures KeyOf(c, l) in keys ==> Total(Apply(c, l), keys) < Total(c, keys)
  {
    if keys != [] {
      TotalStep(c, l, keys[1..]);
      WeightStep(c, l, keys[0]);
      InvStep(c, l);
      WeightIsNat(Apply(c, l), keys[0]);
    }
  }

  lemma WeightIsNat(c: State, k: Key)
    requires Inv(c)
    ensures Weight(c, k) >= 0
  {
  }

  /** The keys cover everything that is to be done. */
  ghost predicate Covers(keys: seq<Key>, c: State) {
    Distinct(keys) && forall k | Pending(c, k) || IsFinishing(c, k) :: k in keys
  }

  lemma CoversStep(keys: seq<Key>, c: State, l: Label)
    requires Inv(c) && Enabled(c, l) && Covers(keys, c)
    ensures KeyOf(c, l) in keys && Covers(keys, Apply(c, l))
  {
    assert Pending(c, KeyOf(c, l)) || IsFinishing(c, KeyOf(c, l));
    forall k | Pending(Apply(c, l), k) || IsFinishing(Apply(c, l), k) ensures k in keys {
      assert Pending(c, k) || IsFinishing(c, k);
    }
  }

  /** Every run is finite: each step takes from a total that is there at the start. */
  lemma {:induction false} RunLength(c: State, run: seq<Label>, keys: seq<Key>)
    requires Inv(c) && IsRun(c, run) && Covers(keys, c)
    ensures |run| + Total(After(c, run), keys) <= Total(c, keys) && 0 <= Total(After(c, run), keys)
    decreases |run|
  {
    if run == [] {
      TotalIsNat(c, keys);
    } else {
      InvStep(c, run[0]);
      CoversStep(keys, c, run[0]);
      TotalStep(c, run[0], keys);
      RunLength(Apply(c, run[0]), run[1..], keys);
    }
  }

  lemma {:induction false} TotalIsNat(c: State, keys: seq<Key>)
    requires Inv(c)
    ensures 0 <= Total(c, keys)
  {
    if keys != [] {
      WeightIsNat(c, keys[0]);
      TotalIsNat(c, keys[1..]);
    }
  }

  /** Nothing is left to do. */
  predicate Idle(c: State) {
    c.worker.Resting? && c.queue == [] && c.waiting == []
  }

  function Start(keys: seq<Key>): State {
    State(keys, (set k | k in keys), Resting, [], map[])
  }

  lemma {:induction false} StartTotal(keys: seq<Key>, rest: seq<Key>)
    requires Distinct(keys) && forall k | k in rest :: k in keys
    ensures Inv(Start(keys)) && Total(Start(keys), rest) == 23 * |rest|
  {
    if rest != [] {
      assert rest[0] in keys;
      StartTotal(keys, rest[1..]);
    }
  }

  /**
   From any finite list of keys, with delays that pass in any order: there are at most 23 steps for each key,
   and a run that does not end early ends with nothing queued, waiting or remembered. By then every key was
   attempted at most six times, and exactly six times if every attempt failed.
   */
  lemma RetriesDrain(keys: seq<Key>, run: seq<Label>, k: Key)
    requires Distinct(keys) && IsRun(Start(keys), run)
    ensures var c := After(Start(keys), run); var n := Attempts(Start(keys), run, k);
            && |run| <= 23 * |keys|
            && n <= (if k in keys then 6 else 0)
            && NumRequeues(c, k) <= 5
            && ((forall l :: !Enabled(c, l)) <==> Idle(c))
            && (Idle(c) ==> c.dirty == {} && c.failures == map[])
            && (Idle(c) && Handle(false) !in run ==> n == if k in keys then 6 else 0)
  {
    StartTotal(keys, keys);
    AttemptsBound(Start(keys), run, k);
    RunLength(Start(keys), run, keys);
    var c := After(Start(keys), run);
    IdleMeansDone(c);
    if !Idle(c) {
      assert Enabled(c, Take) || Enabled(c, Handle(true)) || Enabled(c, Finish) || Enabled(c, DelayPasses(0));
    }
  }

  lemma IdleMeansDone(c: State)
    requires Inv(c)
    ensures Idle(c) ==> c.dirty == {} && c.failures == map[] && forall k :: !Pending(c, k)
  {
  }

  // ---- The queue is first in, first out ----

  predicate Present(c: State, k: Key) {
    k in c.dirty || (!c.worker.Resting? && c.worker.key == k)
  }

  /** A key whose delay has passed enters at once unless it is there or in work; a key in work enters when it is done. */
  function EntersBy(c: State, l: Label): seq<Key>
    requires Enabled(c, l)
  {
    match l
    case Finish => if c.worker.key in c.dirty then [c.worker.key] else []
    case DelayPasses(i) => if Present(c, c.waiting[i]) then [] else [c.waiting[i]]
    case _ => []
  }

  function Entered(c: State, run: seq<Label>): seq<Key>
    requires IsRun(c, run)
    decreases |run|
  {
    if run == [] then [] else EntersBy(c, run[0]) + Entered(Apply(c, run[0]), run[1..])
  }

  /** The keys that the worker takes. */
  function TakenIn(c: State, run: seq<Label>): seq<Key>
    requires IsRun(c, run)
    decreases |run|
  {
    if run == [] then []
    else (if run[0].Take? then [c.queue[0]] else []) + TakenIn(Apply(c, run[0]), run[1..])
  }

  lemma InterleavedOrder(q0: seq<Key>, in0: seq<Key>, out0: seq<Key>, q1: seq<Key>, in1: seq<Key>, out1: seq<Key>, q2: seq<Key>)
    requires q0 + in0 == out0 + q1 && q1 + in1 == out1 + q2
    ensures q0 + (in0 + in1) == (out0 + out1) + q2
  {
    assert q0 + (in0 + in1) == (q0 + in0) + in1;
    assert out0 + (q1 + in1) == (out0 + q1) + in1;
    assert (out0 + out1) + q2 == out0 + (out1 + q2);
  }

  /** In every run: what was queued, followed by what enters, is what was taken, followed by what is still queued. */
  lemma {:induction false} FirstInFirstOut(c: State, run: seq<Label>)
    requires IsRun(c, run)
    ensures c.queue + Entered(c, run) == TakenIn(c, run) + After(c, run).queue
    decreases |run|
  {
    if run != [] {
      var c1 := Apply(c, run[0]);
      var (into, out) := (EntersBy(c, run[0]), if run[0].Take? then [c.queue[0]] else []);
      assert c.queue + into == out + c1.queue;
      FirstInFirstOut(c1, run[1..]);
      InterleavedOrder(c.queue, into, out, c1.queue, Entered(c1, run[1..]), TakenIn(c1, run[1..]), After(c, run).queue);
    }
  }

  // ---- The queue as an object ----

  class RateLimitingQueue {
    var queue: seq<Key>
    var dirty: set<Key>
    var worker: Worker
    var waiting: seq<Key>
    var failures: map<Key, nat>

    ghost function Value(): State
      reads this
    {
      State(queue, dirty, worker, waiting, failures)
    }

    constructor (keys: seq<Key>)
      ensures Value() == Start(keys)
    {
      queue, dirty, worker, waiting, failures := keys, (set k | k in keys), Resting, [], map[];
    }

    method Get() returns (key: Key)
      requires worker.Resting? && queue != []
      modifies this
      ensures key == old(queue)[0] && Value() == Taken(old(Value()))
    {
      key := queue[0];
      queue, dirty, worker := queue[1..], dirty - {key}, Syncing(key);
    }

    method Done()
      requires !worker.Resting?
      modifies this
      ensures Value() == Finished(old(Value()))
    {
      if worker.key in dirty {
        queue := queue + [worker.key];
      }
      worker := Resting;
    }

    function NumRequeues(key: Key): nat
      reads this
    {
      if key in failures then failures[key] else 0
    }

    method AddRateLimited(key: Key)
      modifies this`waiting, this`failures
      ensures Value() == Requeued(old(Value()), key)
    {
      failures := failures[key := NumRequeues(key) + 1];
      waiting := waiting + [key];
    }

    method Forget(key: Key)
      modifies this`failures
      ensures Value() == Forgotten(old(Value()), key)
    {
      failures := failures - {key};
    }

    /** The delay of a waiting key has passed, and the key is added. */
    method DelayPasses(i: nat)
      requires i < |waiting|
      modifies this
      ensures Value() == Apply(old(Value()), Label.DelayPasses(i))
    {
      var key := waiting[i];
      waiting := waiting[..i] + waiting[i + 1..];
      if key !in dirty {
        dirty := dirty + {key};
        if worker.Resting? || worker.key != key {
          queue := queue + [key];
        }
      }
    }
  }

  /** One whole item: taken, handled and finished. */
  function Processed(c: State, failed: bool): State
    requires Enabled(c, Take)
  {
    Apply(Apply(Apply(c, Take), Handle(failed)), Finish)
  }

  lemma OneStep(c: State, l: Label)
    requires Enabled(c, l)
    ensures IsRun(c, [l]) && After(c, [l]) == Apply(c, l)
  {
    assert [l][1..] == [];
  }

  lemma WholeItem(c: State, failed: bool)
    requires Enabled(c, Take)
    ensures var steps := [Take, Handle(failed), Finish]; IsRun(c, steps) && After(c, steps) == Processed(c, failed)
  {
    var c1 := Apply(c, Take);
    var c2 := Apply(c1, Handle(failed));
    OneStep(c2, Finish);
    assert [Handle(failed), Finish][1..] == [Finish] && [Take, Handle(failed), Finish][1..] == [Handle(failed), Finish];
  }

  lemma {:induction false} StillCovers(c: State, run: seq<Label>, keys: seq<Key>)
    requires Inv(c) && IsRun(c, run) && Covers(keys, c)
    ensures Inv(After(c, run)) && Covers(keys, After(c, run))
    decreases |run|
  {
    if run != [] {
      InvStep(c, run[0]);
      CoversStep(keys, c, run[0]);
      StillCovers(Apply(c, run[0]), run[1..], keys);
    }
  }

  lemma {:induction false} RunAppend(c: State, a: seq<Label>, b: seq<Label>)
    requires IsRun(c, a) && IsRun(After(c, a), b)
    ensures IsRun(c, a + b) && After(c, a + b) == After(After(c, a), b)
    decreases |a|
  {
    if a == [] {
      assert a + b == b;
    } else {
      assert (a + b)[0] == a[0] && (a + b)[1..] == a[1..] + b;
      RunAppend(Apply(c, a[0]), a[1..], b);
    }
  }
}
