/**
 What the threads around one monitor achieve: from every reachable state a start, a stop, a cancellation and the
 first handler go through in a bounded number of steps of those concerned, whatever happened before.
 */
module ItemProgress {
  import opened Base
  import opened ItemMonitor
  import opened ItemProtocol

  /** The reachable states. */
  lemma Reachable(run: seq<Label>)
    requires IsRun(INIT, run)
    ensures Inv(After(INIT, run))
  {
    assert Winners(INIT) == {};
    InvRun(INIT, run);
  }

  lemma RunCons(s: State, l: Label, rest: seq<Label>)
    requires Enabled(s, l) && IsRun(Apply(s, l), rest)
    ensures IsRun(s, [l] + rest) && After(s, [l] + rest) == After(Apply(s, l), rest)
  {
    assert ([l] + rest)[1..] == rest;
  }

  // ---- The holder of the lock ----

  /** The steps of a thread that holds the lock for a call of `StopInformer` or for the first handler. */
  predicate ByHolder(l: Label) {
    l.AdderAdd? || l.CallCheck? || l.CallClose? || l.CallReturn?
  }

  /** What a step of a holder leaves alone: everything but its own call, the flag, the channel and the lock. */
  predicate OthersKept(s: State, s': State) {
    && s'.starter == s.starter && s'.watcher == s.watcher && s'.cancelled == s.cancelled
    && s'.ran == s.ran && s'.synced == s.synced && s'.ended == s.ended
    && s'.calls.Keys == s.calls.Keys && (forall t | t in s.calls && s.lock != By(t) :: s'.calls[t] == s.calls[t])
  }

  lemma HolderMoves(s: State) returns (l: Label)
    requires Inv(s) && s.lock != ByStarter && s.lock != Free
    ensures Enabled(s, l) && ByHolder(l)
    ensures var s' := Apply(s, l); OthersKept(s, s') && s'.lock in {Free, s.lock} && HolderSteps(s') < HolderSteps(s) <= 3
  {
    match s.lock
    case ByAdder => l := AdderAdd;
    case By(t) => l := if At(s, t, Entered) then CallCheck(t) else if At(s, t, Marked) then CallClose(t) else CallReturn(t);
  }

  /** A call or the adder gives the lock back in at most three steps, and nothing else happens. */
  lemma {:induction false} HolderLeaves(s: State) returns (run: seq<Label>)
    requires Inv(s) && s.lock != ByStarter
    ensures IsRun(s, run) && |run| <= HolderSteps(s) && |run| <= 3 && forall l | l in run :: ByHolder(l)
    ensures Inv(After(s, run)) && After(s, run).lock == Free && OthersKept(s, After(s, run)) && (s.lock == Free ==> run == [])
    decreases HolderSteps(s)
  {
    if s.lock == Free {
      run := [];
    } else {
      hide Inv, Apply, Enabled, HolderSteps, ByHolder;
      var l := HolderMoves(s);
      InvStep(s, l);
      var rest := HolderLeaves(Apply(s, l));
      RunCons(s, l, rest);
      run := [l] + rest;
    }
  }

  // ---- Starting ----

  predicate ByStarterThread(l: Label) {
    l in {StarterLock, StarterCheck, StarterClear, StarterUnlock, StarterRun}
  }

  function StarterSteps(s: State): nat {
    match s.starter
    case NotBegun => 5
    case Locked => 4
    case Spawned => 3
    case Cleared => 2
    case RunPending => 1
    case _ => 0
  }

  lemma {:induction false} StarterGoesOn(s: State) returns (run: seq<Label>)
    requires Inv(s) && (s.starter == NotBegun ==> s.lock == Free)
    ensures IsRun(s, run) && |run| == StarterSteps(s) && forall l | l in run :: ByStarterThread(l)
    ensures var s' := After(s, run);
            && Inv(s') && Started(s') && s'.ran && s'.starter in {InRun, RunOver} && s'.watcher != Absent
            && s'.calls == s.calls && s'.closes == s.closes && s'.cancelled == s.cancelled && s'.adder == s.adder
    decreases StarterSteps(s)
  {
    if StarterSteps(s) == 0 {
      run := [];
    } else {
      var l := match s.starter
        case NotBegun => StarterLock
        case Locked => StarterCheck
        case Spawned => StarterClear
        case Cleared => StarterUnlock
        case _ => StarterRun;
      InvStep(s, l);
      var rest := StarterGoesOn(Apply(s, l));
      RunCons(s, l, rest);
      run := [l] + rest;
    }
  }

  /**
   A start goes through: from every reachable state at most three steps of the holder of the lock and five of the
   starter lead to a started monitor with a running informer.
   */
  lemma StartGoesThrough(run: seq<Label>) returns (more: seq<Label>)
    requires IsRun(INIT, run)
    ensures IsRun(INIT, run + more) && |more| <= 8 && forall l | l in more :: ByHolder(l) || ByStarterThread(l)
    ensures var s := After(INIT, run + more); Started(s) && s.ran && s.watcher != Absent
  {
    Reachable(run);
    more := StartFrom(After(INIT, run));
    RunAppend(INIT, run, more);
  }

  lemma StartFrom(s: State) returns (run: seq<Label>)
    requires Inv(s)
    ensures IsRun(s, run) && |run| <= 8 && forall l | l in run :: ByHolder(l) || ByStarterThread(l)
    ensures var s' := After(s, run);
            && Inv(s') && Started(s') && s'.ran && s'.starter in {InRun, RunOver} && s'.watcher != Absent
            && s'.cancelled == s.cancelled && s'.calls.Keys == s.calls.Keys
            && (s.calls == map[] && s.adder != Adding ==> s'.closes == s.closes && s'.adder == s.adder && |run| <= 5)
  {
    var first: seq<Label> := [];
    if s.starter == NotBegun {
      first := HolderLeaves(s);
    }
    assert s.calls == map[] && s.adder != Adding ==> !s.lock.By? && s.lock != ByAdder;
    var s1 := After(s, first);
    var second := StarterGoesOn(s1);
    RunAppend(s, first, second);
    run := first + second;
  }

  // ---- The first handler ----

  /**
   Where nobody cancels and nobody stops, the first handler is added: from every reachable state without either, at
   most nine steps of the starter, the informer and the adder lead to it, with the channel open.
   */
  lemma FirstHandlerIsAdded(run: seq<Label>) returns (more: seq<Label>)
    requires IsRun(INIT, run)
    requires forall l | l in run :: l != Cancel && !l.NewCall?
    ensures IsRun(INIT, run + more) && |more| <= 9
    ensures forall l | l in more :: ByStarterThread(l) || l in {Sync, AdderReady, AdderLock, AdderAdd}
    ensures var s := After(INIT, run + more); s.adder == Added && s.closes == 0 && !s.stopped
  {
    Reachable(run);
    NobodyStops(INIT, run);
    var s := After(INIT, run);
    var first, s1 := [], s;
    if s.adder == Adding {
      first := [AdderAdd];
      s1 := Apply(s, AdderAdd);
      InvStep(s, AdderAdd);
      RunCons(s, AdderAdd, []);
      assert [AdderAdd] + [] == [AdderAdd];
    }
    var second := StartedOrNot(s1);
    var s2 := After(s1, second);
    var third := AdderGoesOn(s2);
    RunAppend(s1, second, third);
    RunAppend(s, first, second + third);
    more := first + (second + third);
    RunAppend(INIT, run, more);
  }

  lemma StartedOrNot(s: State) returns (run: seq<Label>)
    requires Inv(s) && Unstopped(s) && s.adder != Adding
    ensures IsRun(s, run) && |run| <= 5 && forall l | l in run :: ByStarterThread(l)
    ensures var s' := After(s, run); Inv(s') && Unstopped(s') && Started(s') && s'.ran && s'.adder == s.adder
    ensures s.adder == Added ==> run == []
  {
    if s.adder == Added {
      run := [];
    } else {
      run := StarterGoesOn(s);
    }
  }

  /** Nobody has cancelled or stopped anything. */
  predicate Unstopped(s: State) {
    !s.cancelled && s.calls == map[] && s.closes == 0 && s.watcher in {Absent, Selecting} && s.adder != Rejected
  }

  lemma NobodyStopsStep(s: State, l: Label)
    requires Inv(s) && Unstopped(s) && Enabled(s, l) && l != Cancel && !l.NewCall?
    ensures Unstopped(Apply(s, l))
  {
    assert forall t :: t !in s.calls;
    if l.AdderAdd? {
      assert Started(s) && !Marking(s);
    }
  }

  lemma {:induction false} NobodyStops(s: State, run: seq<Label>)
    requires Inv(s) && Unstopped(s) && IsRun(s, run) && forall l | l in run :: l != Cancel && !l.NewCall?
    ensures Unstopped(After(s, run))
    decreases |run|
  {
    if run != [] {
      hide Inv, Unstopped, Apply;
      assert run[0] in run;
      assert forall l | l in run[1..] :: l in run;
      NobodyStopsStep(s, run[0]);
      InvStep(s, run[0]);
      NobodyStops(Apply(s, run[0]), run[1..]);
    }
  }

  lemma {:induction false} AdderGoesOn(s: State) returns (run: seq<Label>)
    requires Inv(s) && Unstopped(s) && Started(s) && s.ran
    ensures IsRun(s, run) && |run| <= AdderSteps(s) && forall l | l in run :: l in {Sync, AdderReady, AdderLock, AdderAdd}
    ensures var s' := After(s, run); Inv(s') && s'.adder == Added && s'.closes == 0 && !s'.stopped
    ensures s.adder == Added ==> run == []
    decreases AdderSteps(s)
  {
    if s.adder == Added {
      run := [];
    } else {
      var l := match s.adder
        case Syncing => if s.synced then AdderReady else Sync
        case Ready => AdderLock
        case _ => AdderAdd;
      InvStep(s, l);
      var rest := AdderGoesOn(Apply(s, l));
      RunCons(s, l, rest);
      run := [l] + rest;
    }
  }

  function AdderSteps(s: State): nat {
    match s.adder
    case Syncing => if s.synced then 3 else 4
    case Ready => 2
    case Adding => 1
    case _ => 0
  }

  // ---- Stopping ----

  /** The steps of one call, and of whoever holds the lock before it. */
  predicate ByCallOf(n: nat, l: Label) {
    ByHolder(l) || l == NewCall(n) || l == CallLock(Caller(n))
  }

  /** A call that has the lock refuses a stopped monitor, and stops a running one. */
  lemma CallCloses(s: State, t: Tid) returns (run: seq<Label>)
    requires Inv(s) && s.lock == By(t) && At(s, t, Marked)
    ensures IsRun(s, run) && |run| <= 2 && forall l | l in run :: ByHolder(l)
    ensures var s' := After(s, run);
            && Inv(s') && s'.lock == Free && s'.stopped == s.stopped && s'.starter == s.starter && s'.watcher == s.watcher
            && t in s'.calls && s'.calls[t] == Returned(true) && s'.closes == s.closes + 1
  {
    InvStep(s, CallClose(t));
    var s1 := Apply(s, CallClose(t));
    InvStep(s1, CallReturn(t));
    RunCons(s1, CallReturn(t), []);
    RunCons(s, CallClose(t), [CallReturn(t)] + []);
    run := [CallClose(t)] + ([CallReturn(t)] + []);
  }

  lemma CallFinishes(s: State, t: Tid) returns (run: seq<Label>)
    requires Inv(s) && s.lock == By(t) && At(s, t, Entered)
    ensures IsRun(s, run) && |run| <= 3 && forall l | l in run :: ByHolder(l)
    ensures var s' := After(s, run);
            && Inv(s') && s'.lock == Free && s'.stopped && s'.starter == s.starter && s'.watcher == s.watcher
            && t in s'.calls && s'.calls[t] == Returned(!s.stopped)
            && s'.closes == s.closes + if s.stopped then 0 else 1
  {
    InvStep(s, CallCheck(t));
    var s1 := Apply(s, CallCheck(t));
    if s.stopped {
      RunCons(s, CallCheck(t), []);
      run := [CallCheck(t)] + [];
    } else {
      var rest := CallCloses(s1, t);
      RunCons(s, CallCheck(t), rest);
      run := [CallCheck(t)] + rest;
    }
  }

  /**
   A call of `StopInformer` goes through: made in any reachable state where the starter is not inside its section, it
   returns in at most eight steps of its own and of the holder of the lock, and leaves the channel of a started monitor
   closed. Made while the lock is free, it wins exactly if the monitor is running.
   */
  lemma StopGoesThrough(run: seq<Label>, n: nat) returns (more: seq<Label>)
    requires IsRun(INIT, run) && Caller(n) !in After(INIT, run).calls && After(INIT, run).lock != ByStarter
    ensures IsRun(INIT, run + more) && |more| <= 8 && forall l | l in more :: ByCallOf(n, l)
    ensures var (s, s') := (After(INIT, run), After(INIT, run + more));
            && s'.lock == Free && Caller(n) in s'.calls && s'.calls[Caller(n)].Returned?
            && s'.starter == s.starter && s'.watcher == s.watcher && (s'.closes == if Started(s) then 1 else 0)
            && (s.lock == Free ==> s'.calls[Caller(n)] == Returned(!s.stopped))
  {
    Reachable(run);
    var s := After(INIT, run);
    more := StopFrom(s, n);
    RunAppend(INIT, run, more);
  }

  lemma StopFrom(s: State, n: nat) returns (run: seq<Label>)
    requires Inv(s) && Caller(n) !in s.calls && s.lock != ByStarter
    ensures IsRun(s, run) && |run| <= 8 && forall l | l in run :: ByCallOf(n, l)
    ensures var s' := After(s, run);
            && s'.lock == Free && Caller(n) in s'.calls && s'.calls[Caller(n)].Returned?
            && s'.starter == s.starter && s'.watcher == s.watcher && (s'.closes == if Started(s) then 1 else 0)
            && (s.lock == Free ==> s'.calls[Caller(n)] == Returned(!s.stopped))
  {
    hide ByHolder;
    InvStep(s, NewCall(n));
    var s1 := Apply(s, NewCall(n));
    var first := HolderLeaves(s1);
    var second := CallFromLock(After(s1, first), Caller(n));
    RunAppend(s1, first, second);
    RunCons(s, NewCall(n), first + second);
    run := [NewCall(n)] + (first + second);
  }

  /** A waiting call takes the free lock and finishes. */
  lemma CallFromLock(s: State, t: Tid) returns (run: seq<Label>)
    requires Inv(s) && s.lock == Free && At(s, t, Waiting)
    ensures IsRun(s, run) && |run| <= 4 && forall l | l in run :: ByHolder(l) || l == CallLock(t)
    ensures var s' := After(s, run);
            && s'.lock == Free && t in s'.calls && s'.calls[t] == Returned(!s.stopped)
            && s'.starter == s.starter && s'.watcher == s.watcher && (s'.closes == if Started(s) then 1 else 0)
  {
    InvStep(s, CallLock(t));
    var rest := CallFinishes(Apply(s, CallLock(t)), t);
    RunCons(s, CallLock(t), rest);
    run := [CallLock(t)] + rest;
    ClosedIffStarted(After(s, run));
  }

  lemma ClosedIffStarted(s: State)
    requires Inv(s) && s.lock == Free && s.stopped
    ensures s.closes == if Started(s) then 1 else 0
  {
  }

  // ---- Cancelling ----

  /** Only the watcher ever calls `StopInformer`. */
  predicate OnlyWatcher(s: State) {
    forall t | t in s.calls :: t == Watcher
  }

  lemma {:induction false} OnlyWatcherRun(s: State, run: seq<Label>)
    requires OnlyWatcher(s) && IsRun(s, run) && forall l | l in run :: !l.NewCall?
    ensures OnlyWatcher(After(s, run))
    decreases |run|
  {
    if run != [] {
      assert run[0] in run;
      OnlyWatcherRun(Apply(s, run[0]), run[1..]);
    }
  }

  /**
   A cancellation goes through: in every reachable state where nobody called `StopInformer`, a cancellation, with the
   start before it where it was still to come, leads in at most 36 steps to an ended watcher that is the only winner, with
   the channel closed once.
   */
  lemma CancellationStops(run: seq<Label>) returns (more: seq<Label>)
    requires IsRun(INIT, run) && forall l | l in run :: !l.NewCall?
    ensures IsRun(INIT, run + more) && |more| <= 36 && Cancel in more
    ensures forall l | l in more :: l == Cancel || ByHolder(l) || ByStarterThread(l) || HolderOrWatcher(l)
    ensures var s := After(INIT, run + more); s.watcher == Gone && s.closes == 1 && s.stopped && Winners(s) == {Watcher}
  {
    Reachable(run);
    more := CancelFrom(After(INIT, run));
    RunAppend(INIT, run, more);
    OnlyWatcherRun(INIT, run + more);
    OnlyWinner(After(INIT, run + more));
  }

  lemma CancelFrom(s: State) returns (run: seq<Label>)
    requires Inv(s)
    ensures IsRun(s, run) && |run| <= 36 && Cancel in run
    ensures forall l | l in run :: l == Cancel || ByHolder(l) || ByStarterThread(l) || HolderOrWatcher(l)
    ensures Inv(After(s, run)) && After(s, run).watcher == Gone && After(s, run).closes == 1
  {
    hide ByHolder, ByStarterThread, HolderOrWatcher, Inv;
    var first := StartFrom(s);
    var s1 := After(s, first);
    InvStep(s1, Cancel);
    var s2 := Apply(s1, Cancel);
    WatcherThere(s1);
    var second := WatcherEnds(s2);
    WatcherBound(s2);
    InvRun(s2, second);
    RunCons(s1, Cancel, second);
    RunAppend(s, first, [Cancel] + second);
    run := first + ([Cancel] + second);
    assert run[|first|] == Cancel;
  }

  lemma WatcherThere(s: State)
    requires s.watcher != Absent
    ensures s.watcher in {Selecting, Stopping, Gone}
  {
  }

  lemma WatcherBound(s: State)
    ensures HolderSteps(s) + 4 * WatcherSteps(s) <= 27
  {
  }

  lemma OnlyWinner(s: State)
    requires Inv(s) && OnlyWatcher(s) && s.watcher == Gone && s.closes == 1
    ensures Winners(s) == {Watcher} && s.stopped
  {
    assert !Signalling(s) && !Marking(s);
    var t :| t in Winners(s);
    assert Winners(s) - {t} == {} by {
      assert |Winners(s) - {t}| == 0;
    }
  }
}
