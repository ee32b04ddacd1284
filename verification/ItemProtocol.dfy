/**
 The threads around one monitor, one instruction at a time: the starter goroutine, the watcher it spawns,
 any number of callers of `StopInformer`, the first `AddEventHandler`, and a context that may be cancelled
 at any moment. A run is a sequence of labels, each enabled when it is taken.
 */
module ItemProtocol {
  import opened Base
  import opened ItemMonitor

  datatype Tid = Watcher | Caller(n: nat)

  datatype Lock = Free | ByStarter | ByAdder | By(t: Tid)

  datatype StarterPc = NotBegun | Locked | Spawned | Cleared | RunPending | InRun | RunOver | Refused

  datatype WatcherPc = Absent | Selecting | Stopping | Gone

  /** A call of `StopInformer`: waiting for the lock, inside, flag set, channel closed, returned. */
  datatype CallPc = Waiting | Entered | Marked | Signalled | Returned(ok: bool)

  datatype AdderPc = Syncing | Ready | Adding | Added | Rejected

  datatype State = State(
    lock: Lock,
    stopped: bool,
    closes: nat,
    cancelled: bool,
    starter: StarterPc,
    watcher: WatcherPc,
    calls: map<Tid, CallPc>,
    ran: bool,
    synced: bool,
    ended: bool,
    adder: AdderPc)

  const INIT := State(Free, true, 0, false, NotBegun, Absent, map[], false, false, false, Syncing)

  datatype Label =
    | StarterLock | StarterCheck | StarterClear | StarterUnlock | StarterRun | StarterReturn
    | Cancel | WatchCancel | WatchClosed | WatcherLeaves
    | NewCall(n: nat) | CallLock(t: Tid) | CallCheck(t: Tid) | CallClose(t: Tid) | CallReturn(t: Tid)
    | Sync | AdderReady | AdderLock | AdderAdd

  predicate At(s: State, t: Tid, pc: CallPc) {
    t in s.calls && s.calls[t] == pc
  }

  predicate Enabled(s: State, l: Label) {
    match l
    case StarterLock => s.starter == NotBegun && s.lock == Free
    case StarterCheck => s.starter == Locked
    case StarterClear => s.starter == Spawned
    case StarterUnlock => s.starter == Cleared
    case StarterRun => s.starter == RunPending
    case StarterReturn => s.starter == InRun && s.closes > 0
    case Cancel => true
    case WatchCancel => s.watcher == Selecting && s.cancelled
    case WatchClosed => s.watcher == Selecting && s.closes > 0
    case WatcherLeaves => s.watcher == Stopping && Watcher in s.calls && s.calls[Watcher].Returned?
    case NewCall(n) => Caller(n) !in s.calls
    case CallLock(t) => At(s, t, Waiting) && s.lock == Free
    case CallCheck(t) => At(s, t, Entered)
    case CallClose(t) => At(s, t, Marked)
    case CallReturn(t) => At(s, t, Signalled)
    case Sync => s.ran
    case AdderReady => s.adder == Syncing && s.synced
    case AdderLock => s.adder == Ready && s.lock == Free
    case AdderAdd => s.adder == Adding
  }

  function Apply(s: State, l: Label): State
    requires Enabled(s, l)
  {
    match l
    case StarterLock => s.(starter := Locked, lock := ByStarter)
    case StarterCheck =>
      if s.stopped then s.(starter := Spawned, watcher := Selecting) else s.(starter := Refused, lock := Free)
    case StarterClear => s.(starter := Cleared, stopped := false)
    case StarterUnlock => s.(starter := RunPending, lock := Free)
    case StarterRun => s.(starter := InRun, ran := true)
    case StarterReturn => s.(starter := RunOver, ended := true)
    case Cancel => s.(cancelled := true)
    case WatchCancel => s.(watcher := Stopping, calls := s.calls[Watcher := Waiting])
    case WatchClosed => s.(watcher := Gone)
    case WatcherLeaves => s.(watcher := Gone)
    case NewCall(n) => s.(calls := s.calls[Caller(n) := Waiting])
    case CallLock(t) => s.(calls := s.calls[t := Entered], lock := By(t))
    case CallCheck(t) =>
      if s.stopped then s.(calls := s.calls[t := Returned(false)], lock := Free)
      else s.(calls := s.calls[t := Marked], stopped := true)
    case CallClose(t) => s.(calls := s.calls[t := Signalled], closes := s.closes + 1)
    case CallReturn(t) => s.(calls := s.calls[t := Returned(true)], lock := Free)
    case Sync => s.(synced := true)
    case AdderReady => s.(adder := Ready)
    case AdderLock => s.(adder := Adding, lock := ByAdder)
    case AdderAdd => s.(adder := if s.stopped || s.ended then Rejected else Added, lock := Free)
  }

  predicate IsRun(s: State, run: seq<Label>)
    decreases |run|
  {
    run == [] || (Enabled(s, run[0]) && IsRun(Apply(s, run[0]), run[1..]))
  }

  function After(s: State, run: seq<Label>): State
    requires IsRun(s, run)
    decreases |run|
  {
    if run == [] then s else After(Apply(s, run[0]), run[1..])
  }

  // ---- The invariant ----

  /** The starter has left its critical section, so the monitor counts as started. */
  predicate Started(s: State) {
    s.starter in {RunPending, InRun, RunOver}
  }

  function Winners(s: State): set<Tid> {
    set t | t in s.calls && s.calls[t] == Returned(true)
  }

  /** The holder of the lock has closed the channel but not returned yet. */
  predicate Signalling(s: State) {
    s.lock.By? && At(s, s.lock.t, Signalled)
  }

  predicate Marking(s: State) {
    s.lock.By? && At(s, s.lock.t, Marked)
  }

  ghost predicate LockOk(s: State) {
    && (forall t | t in s.calls :: s.calls[t] in {Entered, Marked, Signalled} <==> s.lock == By(t))
    && (s.lock.By? ==> s.lock.t in s.calls)
    && (s.lock == ByStarter <==> s.starter in {Locked, Spawned, Cleared})
    && (s.lock == ByAdder <==> s.adder == Adding)
  }

  ghost predicate FlagOk(s: State) {
    && s.starter != Refused
    && (s.starter in {NotBegun, Locked, Spawned} ==> s.stopped && s.closes == 0 && !Marking(s) && !Signalling(s))
    && (s.starter == Cleared ==> !s.stopped && s.closes == 0)
    && (Started(s) ==>
      && (Marking(s) ==> s.stopped && s.closes == 0)
      && (!Marking(s) ==> s.closes == if s.stopped then 1 else 0)
      && (Signalling(s) ==> s.stopped))
  }

  ghost predicate WatcherOk(s: State) {
    && (s.watcher == Absent <==> s.starter in {NotBegun, Locked})
    && (s.watcher in {Absent, Selecting} ==> Watcher !in s.calls)
    && (s.watcher == Stopping ==> Watcher in s.calls)
    && (Watcher in s.calls && s.calls[Watcher] != Waiting ==> Started(s))
    && (Watcher in s.calls && s.calls[Watcher].Returned? ==> s.closes == 1)
    && (s.watcher == Gone ==> s.closes == 1)
    && (s.watcher == Gone && Watcher in s.calls ==> s.calls[Watcher].Returned?)
  }

  ghost predicate InformerOk(s: State) {
    && (s.ran ==> Started(s))
    && (s.starter in {InRun, RunOver} ==> s.ran)
    && (s.synced ==> s.ran)
    && (s.ended ==> s.ran && s.closes == 1)
    && (s.adder != Syncing ==> s.synced)
    && (s.adder == Rejected ==> s.closes == 1)
  }

  ghost predicate Inv(s: State) {
    && LockOk(s) && FlagOk(s) && WatcherOk(s) && InformerOk(s)
    && |Winners(s)| == if Signalling(s) then 0 else s.closes
  }

  lemma WinnersStep(s: State, l: Label)
    requires Inv(s) && Enabled(s, l)
    ensures |Winners(Apply(s, l))| == if Signalling(Apply(s, l)) then 0 else Apply(s, l).closes
  {
    var s' := Apply(s, l);
    match l
    case CallReturn(t) =>
      assert Signalling(s);
      assert Winners(s') == Winners(s) + {t};
    case _ =>
      assert Winners(s') == Winners(s);
  }

  predicate ByCaller(l: Label) {
    l.NewCall? || l.CallLock? || l.CallCheck? || l.CallClose? || l.CallReturn?
  }

  lemma CallerInv(s: State, l: Label)
    requires Inv(s) && Enabled(s, l) && ByCaller(l)
    ensures Inv(Apply(s, l))
  {
    WinnersStep(s, l);
  }

  lemma WatcherInv(s: State, l: Label)
    requires Inv(s) && Enabled(s, l) && (l.WatchCancel? || l.WatchClosed? || l.WatcherLeaves?)
    ensures Inv(Apply(s, l))
  {
    WinnersStep(s, l);
  }

  lemma StarterInv(s: State, l: Label)
    requires Inv(s) && Enabled(s, l) && !ByCaller(l) && !(l.WatchCancel? || l.WatchClosed? || l.WatcherLeaves?)
    ensures Inv(Apply(s, l))
  {
    WinnersStep(s, l);
  }

  lemma InvStep(s: State, l: Label)
    requires Inv(s) && Enabled(s, l)
    ensures Inv(Apply(s, l))
  {
    hide Inv;
    if ByCaller(l) {
      CallerInv(s, l);
    } else if l.WatchCancel? || l.WatchClosed? || l.WatcherLeaves? {
      WatcherInv(s, l);
    } else {
      StarterInv(s, l);
    }
  }

  lemma {:induction false} InvRun(s: State, run: seq<Label>)
    requires Inv(s) && IsRun(s, run)
    ensures Inv(After(s, run))
    decreases |run|
  {
    if run != [] {
      InvStep(s, run[0]);
      InvRun(Apply(s, run[0]), run[1..]);
    }
  }

  // ---- What holds in every run ----

  /** However the threads interleave, the channel is closed at most once, and each close has exactly one winner. */
  lemma ClosedOnce(run: seq<Label>)
    requires IsRun(INIT, run)
    ensures var s := After(INIT, run);
            && s.closes <= 1
            && (s.lock == Free ==>
              && |Winners(s)| == s.closes
              && (s.closes == 1 <==> Started(s) && s.stopped))
  {
    assert Winners(INIT) == {};
    InvRun(INIT, run);
  }

  /** The watcher goes away only when the channel is closed, also when its own call of `StopInformer` was refused. */
  lemma WatcherGoneMeansClosed(run: seq<Label>)
    requires IsRun(INIT, run)
    ensures var s := After(INIT, run);
            && (s.watcher == Gone ==> s.closes == 1)
            && (At(s, Watcher, Returned(false)) ==> s.closes == 1 && |Winners(s) - {Watcher}| + (if Signalling(s) then 1 else 0) == 1)
  {
    assert Winners(INIT) == {};
    InvRun(INIT, run);
    var s := After(INIT, run);
    if At(s, Watcher, Returned(false)) {
      assert Winners(s) - {Watcher} == Winners(s);
    }
  }

  /** The first handler is added after the sync, so it never meets the initial stopped flag. */
  lemma AdderSeesStart(run: seq<Label>)
    requires IsRun(INIT, run)
    ensures var s := After(INIT, run);
            && (s.adder == Adding ==> Started(s) && (s.stopped <==> s.closes == 1))
            && (s.adder == Rejected ==> Started(s) && s.closes == 1)
  {
    assert Winners(INIT) == {};
    InvRun(INIT, run);
  }

  // ---- A cancellation is never lost ----

  /** The labels that the current holder of the lock, the starter inside its section, or the watcher may take. */
  predicate HolderOrWatcher(l: Label) {
    l in {StarterClear, StarterUnlock, AdderAdd, WatchCancel, WatchClosed, WatcherLeaves, CallLock(Watcher)}
    || l.CallCheck? || l.CallClose? || l.CallReturn?
  }

  ghost predicate Continuation(s: State, run: seq<Label>) {
    IsRun(s, run) && forall l | l in run :: HolderOrWatcher(l)
  }

  lemma {:induction false} RunAppend(s: State, a: seq<Label>, b: seq<Label>)
    requires IsRun(s, a) && IsRun(After(s, a), b)
    ensures IsRun(s, a + b) && After(s, a + b) == After(After(s, a), b)
    decreases |a|
  {
    if a == [] {
      assert a + b == b;
    } else {
      RunAppend(Apply(s, a[0]), a[1..], b);
      assert (a + b)[1..] == a[1..] + b;
    }
  }

  /** How many steps the holder of the lock still needs. */
  function HolderSteps(s: State): nat {
    match s.lock
    case Free => 0
    case ByStarter => if s.starter == Cleared then 1 else 2
    case ByAdder => 1
    case By(t) => if At(s, t, Entered) then 3 else if At(s, t, Marked) then 2 else 1
  }

  /** The watcher is either still waiting for an event, or on its way to the lock, or through. */
  function WatcherSteps(s: State): nat {
    match s.watcher
    case Absent => 0
    case Selecting => 6
    case Stopping => if At(s, Watcher, Waiting) then 5 else if Watcher in s.calls && s.calls[Watcher].Returned? then 1 else 4
    case Gone => 0
  }

  /** One step brings the watcher nearer to its end: the holder of the lock moves, or the watcher does. */
  lemma StepTowardsEnd(s: State) returns (l: Label)
    requires Inv(s) && s.watcher in {Selecting, Stopping}
    requires s.watcher == Selecting ==> s.cancelled || s.closes > 0
    ensures Enabled(s, l) && HolderOrWatcher(l)
    ensures var s' := Apply(s, l);
            && s'.watcher in {Selecting, Stopping, Gone} && s'.cancelled == s.cancelled && s'.closes >= s.closes
            && HolderSteps(s') + 4 * WatcherSteps(s') < HolderSteps(s) + 4 * WatcherSteps(s)
  {
    match s.lock {
      case ByStarter => l := if s.starter == Cleared then StarterUnlock else StarterClear;
      case ByAdder => l := AdderAdd;
      case By(t) => l := if At(s, t, Entered) then CallCheck(t) else if At(s, t, Marked) then CallClose(t) else CallReturn(t);
      case Free =>
        if s.watcher == Selecting {
          l := if s.cancelled then WatchCancel else WatchClosed;
        } else {
          l := if At(s, Watcher, Waiting) then CallLock(Watcher) else WatcherLeaves;
        }
    }
  }

  lemma {:induction false} WatcherEnds(s: State) returns (run: seq<Label>)
    requires Inv(s) && s.watcher in {Selecting, Stopping, Gone}
    requires s.watcher == Selecting ==> s.cancelled || s.closes > 0
    ensures Continuation(s, run) && |run| <= HolderSteps(s) + 4 * WatcherSteps(s)
    ensures After(s, run).watcher == Gone && After(s, run).closes == 1
    decreases HolderSteps(s) + 4 * WatcherSteps(s)
  {
    if s.watcher == Gone {
      run := [];
    } else {
      var l := StepTowardsEnd(s);
      InvStep(s, l);
      var rest := WatcherEnds(Apply(s, l));
      run := [l] + rest;
      assert run[1..] == rest;
    }
  }

  /**
   In every reachable state in which the watcher exists, and the context is cancelled or the channel is closed,
   the watcher is not blocked: the holder of the lock and the watcher alone reach, in at most 27 steps,
   a state where the watcher has ended and the channel is closed.
   */
  lemma NoLostCancellation(run: seq<Label>) returns (more: seq<Label>)
    requires IsRun(INIT, run)
    requires var s := After(INIT, run); s.watcher != Absent && (s.cancelled || s.closes > 0)
    ensures Continuation(After(INIT, run), more) && |more| <= 27
    ensures IsRun(INIT, run + more)
    ensures var s := After(INIT, run + more); s.watcher == Gone && s.closes == 1
  {
    assert Winners(INIT) == {};
    InvRun(INIT, run);
    more := WatcherEnds(After(INIT, run));
    RunAppend(INIT, run, more);
  }

  // ---- The critical sections are atomic ----

  /**
   The monitor as the others see it: starting shows when the lock is released, stopping when the channel is closed.
   `handler` is the one of the first `AddEventHandler`, which becomes handle `id`.
   */
  function Seen(s: State, key: ObjectKey, id: nat, handler: Handler): Item {
    var handlers := if s.adder == Added then map[id := handler] else map[];
    var inf := Informer(s.ran, s.synced, s.ended, handlers, map[]);
    if !Started(s) then NewItem(key).(informer := inf)
    else if Marking(s) then Item(key, false, 0, true, inf)
    else Item(key, s.stopped, s.closes, true, inf)
  }

  /** The effect that a label has on the monitor as it is seen. */
  ghost predicate SectionStep(l: Label, s: State, s': State, i: Item, i': Item, id: nat, handler: Handler) {
    match l
    case StarterUnlock => i' == StartSection(i)
    case CallCheck(t) => i' == i && (At(s', t, Returned(false)) ==> StopSection(i) == (i', false))
    case CallClose(t) => StopSection(i) == (i', true)
    case AdderAdd =>
      && AddSection(i, id, handler).0 == i'
      && (s'.adder == Added <==> AddSection(i, id, handler).1.Ok?)
    case StarterRun => i' == i.(informer := i.informer.(ran := true))
    case StarterReturn => i' == i.(informer := i.informer.(ended := true))
    case Sync => i' == i.(informer := i.informer.(synced := true))
    case _ => i' == i
  }

  /** Every step is either invisible or one whole critical section: the threads refine atomic sections. */
  lemma StepIsSection(s: State, l: Label, key: ObjectKey, id: nat, handler: Handler)
    requires Inv(s) && Enabled(s, l)
    ensures var s' := Apply(s, l);
            SectionStep(l, s, s', Seen(s, key, id, handler), Seen(s', key, id, handler), id, handler)
  {
    if ByCaller(l) {
      CallIsSection(s, l, key, id, handler);
    } else {
      assert Marking(Apply(s, l)) == Marking(s);
    }
  }

  lemma CallIsSection(s: State, l: Label, key: ObjectKey, id: nat, handler: Handler)
    requires Inv(s) && Enabled(s, l) && ByCaller(l)
    ensures var s' := Apply(s, l);
            SectionStep(l, s, s', Seen(s, key, id, handler), Seen(s', key, id, handler), id, handler)
  {
  }

  /** What is seen is a well-formed monitor in every reachable state. */
  lemma SeenOk(run: seq<Label>, key: ObjectKey, id: nat, handler: Handler)
    requires IsRun(INIT, run)
    ensures ItemOk(Seen(After(INIT, run), key, id, handler))
  {
    assert Winners(INIT) == {};
    InvRun(INIT, run);
  }
}
