// Arbitration between the process watcher and any number of Stop callers over one
// process tree. Every interlocked operation, every callback and every critical section
// of the monitor is one atomic step; a run is any list of steps, in any interleaving.
module TreeTeardown {

  // The four values of the interlocked field, in the source 0, 1, 2 and 3.
  datatype Phase = Running | Stopping | Watching | Crashed

  // What a thread inside Observe does next.
  datatype Stage = Graceful | Terminate | Dispose | Publish

  datatype Watcher =
    | NotStarted
    | Waiting
    | Observes(at: Stage, observed: bool)
    | Deciding
    | Crashing
    | Exited

  datatype Stopper =
    | Reading
    | Comparing(previous: Phase)
    | Owns(at: Stage, observed: bool)
    | Checking
    | Sleeping
    | Returned(result: bool)

  // A callback either returns a value or throws.
  datatype Outcome = Value(result: bool) | Thrown

  // What the outside world saw: the callbacks of Observe in order, and the crash callback.
  datatype Call = Called(at: Stage, outcome: Outcome)

  datatype Log = Log(calls: seq<Call>, crashes: nat)

  // Who runs Observe; startup failure leaves it to nobody for good.
  datatype Owner = Nobody | Abandoned | TheWatcher | TheStopper(index: nat)

  datatype State = State(
    phase: Phase, completed: bool, empty: bool,
    watcher: Watcher, stoppers: seq<Stopper>,
    failures: seq<nat>,  // failed compare-exchanges of each Stop call
    owner: Owner, log: Log)

  datatype Event =
    | StartWatcher
    | StartupFailed
    | ChildExits
    | WatcherObserves(outcome: Outcome)
    | WatcherDecides
    | WatcherCrashes
    | CallStop
    | StopReads(i: nat)
    | StopCompares(i: nat)
    | StopObserves(i: nat, outcome: Outcome)
    | StopChecks(i: nat, expired: bool)
    | StopTimesOut(i: nat)

  function Init(): State {
    State(Running, false, false, NotStarted, [], [], Nobody, Log([], 0))
  }

  // One callback of Observe: the log, the next stage and the local `observed`.
  function Callback(log: Log, at: Stage, observed: bool, outcome: Outcome): (Log, Stage, bool)
    requires !at.Publish?
  {
    var after := log.(calls := log.calls + [Called(at, outcome)]);
    match at
    case Graceful => (after, if outcome.Thrown? then Dispose else Terminate, observed)
    case Terminate => (after, Dispose, outcome.Value? && outcome.result)
    case Dispose => (after, Publish, observed && !outcome.Thrown?)
  }

  // Monitor.PulseAll: every sleeping Stop call competes for the lock again.
  function PulseAll(stoppers: seq<Stopper>): (r: seq<Stopper>)
    ensures |r| == |stoppers|
    ensures forall i :: 0 <= i < |r| ==> r[i] == if stoppers[i].Sleeping? then Checking else stoppers[i]
  {
    seq(|stoppers|, i requires 0 <= i < |stoppers| => if stoppers[i].Sleeping? then Checking else stoppers[i])
  }

  predicate FromStopper(e: Event) {
    e.StopReads? || e.StopCompares? || e.StopObserves? || e.StopChecks? || e.StopTimesOut?
  }

  // An event that is not enabled changes nothing, so every list of events is a run.
  function Next(s: State, e: Event): State {
    if FromStopper(e) then StopperNext(s, e) else WatcherNext(s, e)
  }

  // StartupFailed, ChildExited and the watcher's part of Observe; also the arrival of a Stop call.
  function WatcherNext(s: State, e: Event): State
    requires !FromStopper(e)
  {
    match e
    case StartWatcher =>
      if s.watcher.NotStarted? then s.(watcher := Waiting) else s
    case StartupFailed =>
      // Startup fails only before the watcher thread exists; no watcher is created later.
      if s.watcher.NotStarted? then s.(phase := Stopping, watcher := Exited,
                                       owner := if s.owner.Nobody? then Abandoned else s.owner) else s
    case ChildExits =>
      if !s.watcher.Waiting? then s
      else if s.phase.Running? then s.(phase := Watching, watcher := Observes(Terminate, false), owner := TheWatcher)
      else s.(watcher := Exited)
    case WatcherObserves(outcome) =>
      if !s.watcher.Observes? then s
      else if s.watcher.at.Publish? then
        s.(empty := s.watcher.observed, completed := true, stoppers := PulseAll(s.stoppers), watcher := Deciding)
      else
        var (log, at, observed) := Callback(s.log, s.watcher.at, s.watcher.observed, outcome);
        s.(log := log, watcher := Observes(at, observed))
    case WatcherDecides =>
      if !s.watcher.Deciding? then s
      else if s.phase.Watching? then s.(phase := Crashed, watcher := Crashing)
      else s.(watcher := Exited)
    case WatcherCrashes =>
      if s.watcher.Crashing? then s.(log := s.log.(crashes := s.log.crashes + 1), watcher := Exited) else s
    case CallStop =>
      s.(stoppers := s.stoppers + [Reading], failures := s.failures + [0])
  }

  // One step of a Stop call.
  function StopperNext(s: State, e: Event): State
    requires FromStopper(e)
  {
    match e
    case StopReads(i) =>
      if !(i < |s.stoppers| && s.stoppers[i].Reading?) then s
      else s.(stoppers := s.stoppers[i := if s.phase.Crashed? then Returned(false) else Comparing(s.phase)])
    case StopCompares(i) =>
      if !(i < |s.stoppers| && i < |s.failures| && s.stoppers[i].Comparing?) then s
      else if s.phase != s.stoppers[i].previous then
        s.(stoppers := s.stoppers[i := Reading], failures := s.failures[i := s.failures[i] + 1])
      else if s.stoppers[i].previous.Running? then
        s.(phase := Stopping, stoppers := s.stoppers[i := Owns(Graceful, false)], owner := TheStopper(i))
      else s.(phase := Stopping, stoppers := s.stoppers[i := Checking])
    case StopObserves(i, outcome) =>
      if !(i < |s.stoppers| && s.stoppers[i].Owns?) then s
      else if s.stoppers[i].at.Publish? then
        s.(empty := s.stoppers[i].observed, completed := true,
           stoppers := PulseAll(s.stoppers[i := Returned(s.stoppers[i].observed)]))
      else
        var (log, at, observed) := Callback(s.log, s.stoppers[i].at, s.stoppers[i].observed, outcome);
        s.(log := log, stoppers := s.stoppers[i := Owns(at, observed)])
    case StopChecks(i, expired) =>
      if !(i < |s.stoppers| && s.stoppers[i].Checking?) then s
      else s.(stoppers := s.stoppers[i := if s.completed then Returned(s.empty)
                                          else if expired then Returned(false) else Sleeping])
    case StopTimesOut(i) =>
      if i < |s.stoppers| && s.stoppers[i].Sleeping? then s.(stoppers := s.stoppers[i := Checking]) else s
  }

  function Run(events: seq<Event>): State {
    if events == [] then Init() else Next(Run(events[..|events| - 1]), events[|events| - 1])
  }

  // Deciding who wins moves only upwards, which bounds the compare-exchange retries.
  function Rank(p: Phase): nat {
    match p case Running => 0 case Watching => 1 case Stopping => 2 case Crashed => 2
  }

  // Observe, called with or without the request for a graceful stop, has got past terminate:
  // it ran last, or graceful was asked for and threw.
  ghost predicate Terminated(calls: seq<Call>, asked: bool, observed: bool) {
    if |calls| == 1 && calls[0].at.Graceful? then asked && calls[0].outcome.Thrown? && !observed
    else
      && |calls| == (if asked then 2 else 1)
      && (asked ==> calls[0].at.Graceful? && calls[0].outcome.Value?)
      && calls[|calls| - 1].at.Terminate?
      && (observed <==> calls[|calls| - 1].outcome == Value(true))
  }

  // A whole Observe and its answer.
  ghost predicate Observed(calls: seq<Call>, asked: bool, answer: bool) {
    && |calls| > 0 && calls[|calls| - 1].at.Dispose?
    && (Terminated(calls[..|calls| - 1], asked, true) || Terminated(calls[..|calls| - 1], asked, false))
    && (answer <==> Terminated(calls[..|calls| - 1], asked, true) && calls[|calls| - 1].outcome.Value?)
  }

  // How much of Observe has happened when its owner is at `at`.
  ghost predicate Progress(calls: seq<Call>, asked: bool, at: Stage, observed: bool) {
    match at
    case Graceful => asked && calls == [] && !observed
    case Terminate => !observed && if asked then |calls| == 1 && calls[0].at.Graceful? && calls[0].outcome.Value? else calls == []
    case Dispose => Terminated(calls, asked, observed)
    case Publish => Observed(calls, asked, observed)
  }

  ghost predicate Finished(s: State, asked: bool) {
    s.completed && Observed(s.log.calls, asked, s.empty)
  }

  ghost predicate Untouched(s: State) {
    !s.completed && s.log.calls == []
  }

  ghost predicate OwnerInv(s: State) {
    match s.owner
    case Nobody =>
      Untouched(s) && (s.watcher.NotStarted? || s.watcher.Waiting?) && s.phase.Running?
    case TheWatcher =>
      && !s.phase.Running?
      && !s.watcher.NotStarted? && !s.watcher.Waiting?
      && (if s.watcher.Observes? then !s.completed && Progress(s.log.calls, false, s.watcher.at, s.watcher.observed)
          else Finished(s, false))
    case Abandoned =>
      Untouched(s) && s.watcher.Exited? && s.phase.Stopping?
    case TheStopper(i) =>
      && s.phase.Stopping?
      && i < |s.stoppers|
      && (s.watcher.NotStarted? || s.watcher.Waiting? || s.watcher.Exited?)
      && (s.stoppers[i].Owns? || (s.stoppers[i] == Returned(s.empty) && Finished(s, true)))
      && (s.stoppers[i].Owns? ==> !s.completed && Progress(s.log.calls, true, s.stoppers[i].at, s.stoppers[i].observed))
  }

  ghost predicate StopperInv(s: State, i: nat)
    requires i < |s.stoppers| == |s.failures|
  {
    match s.stoppers[i]
    case Reading => s.failures[i] <= Rank(s.phase)
    case Comparing(previous) =>
      && !previous.Crashed?
      && s.failures[i] <= Rank(previous)
      && (previous == s.phase || Rank(previous) < Rank(s.phase))
    case Owns(_, _) => s.owner == TheStopper(i) && s.failures[i] <= 2
    case Checking => s.phase.Stopping? && s.failures[i] <= 2
    case Sleeping => s.phase.Stopping? && !s.completed && s.failures[i] <= 2
    case Returned(result) => (result ==> s.phase.Stopping? && s.completed && s.empty) && s.failures[i] <= 2
  }

  ghost predicate PhaseInv(s: State) {
    && (s.phase.Watching? ==> s.owner.TheWatcher? && (s.watcher.Observes? || s.watcher.Deciding?))
    && (s.phase.Crashed? <==> s.watcher.Crashing? || s.log.crashes > 0)
    && s.log.crashes <= 1
    && (s.log.crashes == 1 ==> s.watcher.Exited?)
  }

  ghost predicate StoppersInv(s: State) {
    && |s.stoppers| == |s.failures|
    && forall i: nat :: i < |s.stoppers| ==> StopperInv(s, i)
  }

  ghost predicate Inv(s: State) {
    OwnerInv(s) && PhaseInv(s) && StoppersInv(s)
  }

  function StopIndex(e: Event): nat
    requires FromStopper(e)
  {
    match e
    case StopReads(i) => i
    case StopCompares(i) => i
    case StopObserves(i, _) => i
    case StopChecks(i, _) => i
    case StopTimesOut(i) => i
  }

  lemma GracefulProgress(calls: seq<Call>, outcome: Outcome)
    requires calls == []
    ensures outcome.Thrown? ==> Terminated(calls + [Called(Graceful, outcome)], true, false)
    ensures outcome.Value? ==> Progress(calls + [Called(Graceful, outcome)], true, Terminate, false)
  {
  }

  lemma TerminateProgress(calls: seq<Call>, asked: bool, observed: bool, outcome: Outcome)
    requires Progress(calls, asked, Terminate, observed)
    ensures Terminated(calls + [Called(Terminate, outcome)], asked, outcome.Value? && outcome.result)
  {
  }

  lemma DisposeProgress(calls: seq<Call>, asked: bool, observed: bool, outcome: Outcome)
    requires Terminated(calls, asked, observed)
    ensures Observed(calls + [Called(Dispose, outcome)], asked, observed && !outcome.Thrown?)
  {
    var after := calls + [Called(Dispose, outcome)];
    assert after[..|after| - 1] == calls;
    OneAnswer(calls, asked, observed);
  }

  lemma OneAnswer(calls: seq<Call>, asked: bool, observed: bool)
    requires Terminated(calls, asked, observed)
    ensures !Terminated(calls, asked, !observed)
  {
  }

  lemma CallbackProgress(log: Log, asked: bool, at: Stage, observed: bool, outcome: Outcome)
    requires Progress(log.calls, asked, at, observed) && !at.Publish?
    ensures var (after, next, seen) := Callback(log, at, observed, outcome);
            Progress(after.calls, asked, next, seen) && after.crashes == log.crashes
  {
    match at {
      case Graceful => GracefulProgress(log.calls, outcome);
      case Terminate => TerminateProgress(log.calls, asked, observed, outcome);
      case Dispose => DisposeProgress(log.calls, asked, observed, outcome);
    }
  }

  lemma WatcherMovesKeepOwner(s: State, e: Event)
    requires OwnerInv(s) && PhaseInv(s) && |s.stoppers| == |s.failures| && !FromStopper(e) && !e.WatcherObserves?
    ensures OwnerInv(WatcherNext(s, e)) && PhaseInv(WatcherNext(s, e))
  {
  }

  lemma WatcherObservesKeepsOwner(s: State, outcome: Outcome)
    requires OwnerInv(s) && PhaseInv(s) && |s.stoppers| == |s.failures|
    ensures OwnerInv(WatcherNext(s, WatcherObserves(outcome))) && PhaseInv(WatcherNext(s, WatcherObserves(outcome)))
  {
    if s.watcher.Observes? && !s.watcher.at.Publish? { CallbackProgress(s.log, false, s.watcher.at, s.watcher.observed, outcome); }
  }

  lemma WatcherKeepsOwner(s: State, e: Event)
    requires OwnerInv(s) && PhaseInv(s) && |s.stoppers| == |s.failures| && !FromStopper(e)
    ensures OwnerInv(WatcherNext(s, e)) && PhaseInv(WatcherNext(s, e))
  {
    if e.WatcherObserves? { WatcherObservesKeepsOwner(s, e.outcome); } else { WatcherMovesKeepOwner(s, e); }
  }

  lemma WatcherKeepsStopper(s: State, e: Event, i: nat)
    requires OwnerInv(s) && PhaseInv(s) && |s.stoppers| == |s.failures| && !FromStopper(e)
    requires i < |s.stoppers| && StopperInv(s, i)
    ensures |WatcherNext(s, e).stoppers| == |WatcherNext(s, e).failures| >= |s.stoppers|
    ensures StopperInv(WatcherNext(s, e), i)
  {
  }

  lemma StopperMovesKeepOwner(s: State, e: Event)
    requires OwnerInv(s) && PhaseInv(s) && |s.stoppers| == |s.failures| && FromStopper(e) && !e.StopObserves?
    requires StopIndex(e) < |s.stoppers| ==> StopperInv(s, StopIndex(e))
    ensures OwnerInv(StopperNext(s, e)) && PhaseInv(StopperNext(s, e))
  {
  }

  lemma StopperObservesKeepsOwner(s: State, i: nat, outcome: Outcome)
    requires OwnerInv(s) && PhaseInv(s) && |s.stoppers| == |s.failures|
    requires i < |s.stoppers| ==> StopperInv(s, i)
    ensures OwnerInv(StopperNext(s, StopObserves(i, outcome))) && PhaseInv(StopperNext(s, StopObserves(i, outcome)))
  {
    if i < |s.stoppers| && s.stoppers[i].Owns? {
      if s.stoppers[i].at.Publish? { StopperPublishesKeepsOwner(s, i, outcome); } else { StopperCallsKeepsOwner(s, i, outcome); }
    }
  }

  lemma StopperPublishesKeepsOwner(s: State, i: nat, outcome: Outcome)
    requires OwnerInv(s) && PhaseInv(s) && s.owner == TheStopper(i) && i < |s.stoppers| && s.stoppers[i].Owns? && s.stoppers[i].at.Publish?
    ensures OwnerInv(StopperNext(s, StopObserves(i, outcome))) && PhaseInv(StopperNext(s, StopObserves(i, outcome)))
  {
  }

  lemma StopperCallsKeepsOwner(s: State, i: nat, outcome: Outcome)
    requires OwnerInv(s) && PhaseInv(s) && s.owner == TheStopper(i) && i < |s.stoppers| && s.stoppers[i].Owns? && !s.stoppers[i].at.Publish?
    ensures OwnerInv(StopperNext(s, StopObserves(i, outcome))) && PhaseInv(StopperNext(s, StopObserves(i, outcome)))
  {
    CallbackProgress(s.log, true, s.stoppers[i].at, s.stoppers[i].observed, outcome);
  }

  lemma StopperKeepsOwner(s: State, e: Event)
    requires OwnerInv(s) && PhaseInv(s) && |s.stoppers| == |s.failures| && FromStopper(e)
    requires StopIndex(e) < |s.stoppers| ==> StopperInv(s, StopIndex(e))
    ensures OwnerInv(StopperNext(s, e)) && PhaseInv(StopperNext(s, e))
  {
    if e.StopObserves? { StopperObservesKeepsOwner(s, e.i, e.outcome); } else { StopperMovesKeepOwner(s, e); }
  }

  lemma StopperMovesKeepStopper(s: State, e: Event, i: nat)
    requires OwnerInv(s) && PhaseInv(s) && |s.stoppers| == |s.failures| && FromStopper(e) && !e.StopObserves?
    requires StopIndex(e) < |s.stoppers| ==> StopperInv(s, StopIndex(e))
    requires i < |s.stoppers| && StopperInv(s, i)
    ensures |StopperNext(s, e).stoppers| == |s.stoppers| == |StopperNext(s, e).failures|
    ensures StopperInv(StopperNext(s, e), i)
  {
  }

  lemma StopperObservesKeepsStopper(s: State, j: nat, outcome: Outcome, i: nat)
    requires OwnerInv(s) && PhaseInv(s) && |s.stoppers| == |s.failures|
    requires j < |s.stoppers| ==> StopperInv(s, j)
    requires i < |s.stoppers| && StopperInv(s, i)
    ensures var t := StopperNext(s, StopObserves(j, outcome));
            |t.stoppers| == |s.stoppers| == |t.failures| && StopperInv(t, i)
  {
  }

  lemma StopperKeepsStopper(s: State, e: Event, i: nat)
    requires OwnerInv(s) && PhaseInv(s) && |s.stoppers| == |s.failures| && FromStopper(e)
    requires StopIndex(e) < |s.stoppers| ==> StopperInv(s, StopIndex(e))
    requires i < |s.stoppers| && StopperInv(s, i)
    ensures |StopperNext(s, e).stoppers| == |s.stoppers| == |StopperNext(s, e).failures|
    ensures StopperInv(StopperNext(s, e), i)
  {
    if e.StopObserves? { StopperObservesKeepsStopper(s, e.i, e.outcome, i); } else { StopperMovesKeepStopper(s, e, i); }
  }

  lemma WatcherStep(s: State, e: Event)
    requires Inv(s) && !FromStopper(e)
    ensures Inv(WatcherNext(s, e))
  {
    WatcherKeepsOwner(s, e);
    var t := WatcherNext(s, e);
    WatcherAddsStopper(s, e);
    forall i: nat | i < |t.stoppers| ensures StopperInv(t, i) {
      if i < |s.stoppers| { WatcherKeepsStopper(s, e, i); }
    }
  }

  lemma WatcherAddsStopper(s: State, e: Event)
    requires |s.stoppers| == |s.failures| && !FromStopper(e)
    ensures var t := WatcherNext(s, e);
            |t.stoppers| == |t.failures| && forall i: nat :: |s.stoppers| <= i < |t.stoppers| ==> StopperInv(t, i)
  {
  }

  lemma StopperStep(s: State, e: Event)
    requires Inv(s) && FromStopper(e)
    ensures Inv(StopperNext(s, e))
  {
    assert StopIndex(e) < |s.stoppers| ==> StopperInv(s, StopIndex(e));
    StopperKeepsOwner(s, e);
    var t := StopperNext(s, e);
    assert |t.stoppers| == |s.stoppers| == |t.failures|;
    forall i: nat | i < |t.stoppers| ensures StopperInv(t, i) {
      StopperKeepsStopper(s, e, i);
    }
  }

  lemma InvStep(s: State, e: Event)
    requires Inv(s)
    ensures Inv(Next(s, e))
  {
    if FromStopper(e) { StopperStep(s, e); } else { WatcherStep(s, e); }
  }

  lemma {:induction false} RunInv(events: seq<Event>)
    ensures Inv(Run(events))
  {
    if events != [] {
      RunInv(events[..|events| - 1]);
      InvStep(Run(events[..|events| - 1]), events[|events| - 1]);
    }
  }

  function Count(calls: seq<Call>, at: Stage): nat {
    if calls == [] then 0 else Count(calls[..|calls| - 1], at) + if calls[|calls| - 1].at == at then 1 else 0
  }

  lemma CountTerminated(calls: seq<Call>, asked: bool, observed: bool)
    requires Terminated(calls, asked, observed)
    ensures Count(calls, Graceful) == (if asked then 1 else 0) && Count(calls, Dispose) == 0
    ensures Count(calls, Terminate) == if Called(Graceful, Thrown) in calls then 0 else 1
    ensures observed <==> Called(Terminate, Value(true)) in calls
    ensures Called(Dispose, Thrown) !in calls
  {
    if |calls| == 2 {
      assert calls[..1] == [calls[0]] && calls == [calls[0], calls[1]];
    } else {
      assert calls == [calls[0]];
    }
  }

  // A whole Observe in terms of its calls: each callback runs once, but for a graceful stop
  // that nobody asked for and a terminate that a throwing graceful stop has skipped.
  lemma CountObserved(calls: seq<Call>, asked: bool, answer: bool)
    requires Observed(calls, asked, answer)
    ensures Count(calls, Graceful) == if asked then 1 else 0
    ensures Count(calls, Terminate) == if Called(Graceful, Thrown) in calls then 0 else 1
    ensures Count(calls, Dispose) == 1 && calls[|calls| - 1].at.Dispose?
    ensures answer <==> Called(Terminate, Value(true)) in calls && Called(Dispose, Thrown) !in calls
  {
    var front, last := calls[..|calls| - 1], calls[|calls| - 1];
    var observed := Terminated(front, asked, true);
    CountTerminated(front, asked, observed);
    assert calls == front + [last];
  }

  lemma CountProgress(calls: seq<Call>, asked: bool, at: Stage, observed: bool)
    requires Progress(calls, asked, at, observed)
    ensures Count(calls, Graceful) <= 1 && Count(calls, Terminate) <= 1 && Count(calls, Dispose) <= 1
  {
    match at {
      case Graceful =>
      case Terminate => if asked { assert calls[..0] == []; }
      case Dispose => CountTerminated(calls, asked, observed);
      case Publish => CountObserved(calls, asked, observed);
    }
  }

  // In every interleaving each teardown callback is invoked at most once.
  lemma TeardownAtMostOnce(events: seq<Event>)
    ensures var log := Run(events).log;
            && Count(log.calls, Graceful) <= 1 && Count(log.calls, Terminate) <= 1 && Count(log.calls, Dispose) <= 1
            && log.crashes <= 1
  {
    RunInv(events);
    var s := Run(events);
    match s.owner
    case Nobody =>
    case Abandoned =>
    case TheWatcher =>
      if s.watcher.Observes? { CountProgress(s.log.calls, false, s.watcher.at, s.watcher.observed); }
      else { CountProgress(s.log.calls, false, Publish, s.empty); }
    case TheStopper(i) =>
      if s.stoppers[i].Owns? { CountProgress(s.log.calls, true, s.stoppers[i].at, s.stoppers[i].observed); }
      else { CountProgress(s.log.calls, true, Publish, s.empty); }
  }

  // And once teardown is complete it has happened: dispose ran, last; terminate ran before it
  // unless a throwing graceful stop skipped it; graceful ran if and only if a Stop call owned
  // the teardown; and the owner's answer is that terminate saw the tree empty and dispose
  // did not throw.
  lemma TeardownHappens(events: seq<Event>)
    requires Run(events).completed
    ensures var s := Run(events);
            && Count(s.log.calls, Dispose) == 1 && s.log.calls[|s.log.calls| - 1].at.Dispose?
            && Count(s.log.calls, Terminate) == (if Called(Graceful, Thrown) in s.log.calls then 0 else 1)
            && Count(s.log.calls, Graceful) == (if s.owner.TheStopper? then 1 else 0)
            && (s.empty <==> Called(Terminate, Value(true)) in s.log.calls && Called(Dispose, Thrown) !in s.log.calls)
            && (s.owner.TheStopper? ==> s.owner.index < |s.stoppers| && s.stoppers[s.owner.index] == Returned(s.empty))
            && (s.owner.TheStopper? || s.owner.TheWatcher?)
  {
    RunInv(events);
    CountObserved(Run(events).log.calls, Run(events).owner.TheStopper?, Run(events).empty);
  }

  function Turns(events: seq<Event>, i: nat): nat {
    if events == [] then 0 else Turns(events[..|events| - 1], i) + if IsTurn(events[|events| - 1], i) then 1 else 0
  }

  predicate IsTurn(e: Event, i: nat) {
    e.StopObserves? && e.i == i
  }

  // How many of its own steps the owner is away from completion, at most.
  function Left(at: Stage): nat {
    match at case Graceful => 4 case Terminate => 3 case Dispose => 2 case Publish => 1
  }

  ghost predicate Owning(s: State, i: nat, turns: nat) {
    && s.owner == TheStopper(i) && i < |s.stoppers|
    && (s.completed || (s.stoppers[i].Owns? && Left(s.stoppers[i].at) + turns <= 4))
  }

  lemma OwningStep(s: State, e: Event, i: nat, turns: nat)
    requires Inv(s) && Owning(s, i, turns)
    ensures Owning(Next(s, e), i, turns + if IsTurn(e, i) then 1 else 0)
  {
  }

  lemma RunOneMore(events: seq<Event>, later: seq<Event>, before: seq<Event>)
    requires later != [] && before == events + later[..|later| - 1]
    ensures Run(events + later) == Next(Run(before), later[|later| - 1])
  {
    assert (events + later)[..|events + later| - 1] == before;
  }

  // No interleaving keeps a Stop call that has claimed the teardown from completing it: four
  // steps of its own are enough.
  lemma {:induction false} OwnerCompletes(events: seq<Event>, later: seq<Event>, i: nat)
    requires Run(events).owner == TheStopper(i)
    ensures Run(events + later).owner == TheStopper(i)
    ensures Turns(later, i) >= 4 ==> Run(events + later).completed
  {
    OwnerStays(events, later, i);
  }

  lemma {:induction false} OwnerStays(events: seq<Event>, later: seq<Event>, i: nat)
    requires Run(events).owner == TheStopper(i)
    ensures Owning(Run(events + later), i, Turns(later, i))
  {
    if later == [] {
      assert events + later == events;
      RunInv(events);
    } else {
      var front := later[..|later| - 1];
      OwnerStays(events, front, i);
      RunInv(events + front);
      RunOneMore(events, later, events + front);
      OwningStep(Run(events + front), later[|later| - 1], i, Turns(front, i));
    }
  }

  lemma RunAppend(events: seq<Event>, e: Event)
    ensures Run(events + [e]) == Next(Run(events), e)
  {
    assert (events + [e])[..|events|] == events;
  }

  // What one Observe answers, by what its callbacks do.
  function Verdict(terminate: Outcome, dispose: Outcome): bool {
    terminate == Value(true) && dispose.Value?
  }

  lemma WatcherTakes(s: State)
    requires OwnerInv(s) && PhaseInv(s) && s.phase.Running? && (s.watcher.NotStarted? || s.watcher.Waiting?)
    ensures var t := Next(Next(s, StartWatcher), ChildExits);
            t.watcher == Observes(Terminate, false) && t.phase.Watching? && t.log == Log([], 0)
  {
  }

  lemma WatcherTearsDown(s: State, terminate: Outcome, dispose: Outcome, last: Outcome)
    requires s.watcher == Observes(Terminate, false) && s.log == Log([], 0)
    ensures var t := Next(Next(Next(s, WatcherObserves(terminate)), WatcherObserves(dispose)), WatcherObserves(last));
            && t.watcher.Deciding? && t.phase == s.phase && t.completed && t.empty == Verdict(terminate, dispose)
            && t.log == Log([Called(Terminate, terminate), Called(Dispose, dispose)], 0)
  {
    var a := Next(s, WatcherObserves(terminate));
    assert a.log.calls == [Called(Terminate, terminate)];
    var b := Next(a, WatcherObserves(dispose));
    assert b.log.calls == [Called(Terminate, terminate), Called(Dispose, dispose)];
    assert b.watcher == Observes(Publish, Verdict(terminate, dispose));
  }

  lemma WatcherCommits(s: State)
    requires s.watcher.Deciding? && s.phase.Watching?
    ensures var t := Next(Next(s, WatcherDecides), WatcherCrashes);
            t.completed == s.completed && t.empty == s.empty && t.log == s.log.(crashes := s.log.crashes + 1)
  {
  }

  // A child that exits while nobody has asked to stop: the watcher tears the tree down and
  // commits the crash.
  lemma UnexpectedExitIsServed(events: seq<Event>, terminate: Outcome, dispose: Outcome, last: Outcome)
    requires var s := Run(events); s.phase.Running? && (s.watcher.NotStarted? || s.watcher.Waiting?)
    ensures var t := Run(events + [StartWatcher] + [ChildExits] + [WatcherObserves(terminate)] + [WatcherObserves(dispose)]
                         + [WatcherObserves(last)] + [WatcherDecides] + [WatcherCrashes]);
            && t.completed && t.empty == Verdict(terminate, dispose)
            && t.log == Log([Called(Terminate, terminate), Called(Dispose, dispose)], 1)
  {
    RunInv(events);
    var a := events + [StartWatcher];
    var b := a + [ChildExits];
    var c := b + [WatcherObserves(terminate)];
    var d := c + [WatcherObserves(dispose)];
    var f := d + [WatcherObserves(last)];
    RunAppend(events, StartWatcher);
    RunAppend(a, ChildExits);
    RunAppend(b, WatcherObserves(terminate));
    RunAppend(c, WatcherObserves(dispose));
    RunAppend(d, WatcherObserves(last));
    RunAppend(f, WatcherDecides);
    RunAppend(f + [WatcherDecides], WatcherCrashes);
    WatcherTakes(Run(events));
    WatcherTearsDown(Run(b), terminate, dispose, last);
    WatcherCommits(Run(f));
  }

  lemma StopTakes(s: State)
    requires OwnerInv(s) && PhaseInv(s) && s.phase.Running? && |s.stoppers| == |s.failures|
    ensures var i := |s.stoppers|;
            var t := Next(Next(Next(s, CallStop), StopReads(i)), StopCompares(i));
            i < |t.stoppers| && t.stoppers[i] == Owns(Graceful, false) && t.phase.Stopping? && t.log == Log([], 0)
  {
  }

  lemma StopTearsDown(s: State, i: nat, graceful: bool, terminate: Outcome, dispose: Outcome, last: Outcome)
    requires i < |s.stoppers| && s.stoppers[i] == Owns(Graceful, false) && s.log == Log([], 0)
    ensures var a := Next(Next(s, StopObserves(i, Value(graceful))), StopObserves(i, terminate));
            var t := Next(Next(a, StopObserves(i, dispose)), StopObserves(i, last));
            && t.phase == s.phase && t.completed && i < |t.stoppers| && t.stoppers[i] == Returned(Verdict(terminate, dispose))
            && t.log == Log([Called(Graceful, Value(graceful)), Called(Terminate, terminate), Called(Dispose, dispose)], 0)
  {
    var a := Next(s, StopObserves(i, Value(graceful)));
    assert a.log.calls == [Called(Graceful, Value(graceful))] && a.stoppers[i] == Owns(Terminate, false);
    var b := Next(a, StopObserves(i, terminate));
    assert b.log.calls == [Called(Graceful, Value(graceful)), Called(Terminate, terminate)];
    var c := Next(b, StopObserves(i, dispose));
    assert c.log.calls == [Called(Graceful, Value(graceful)), Called(Terminate, terminate), Called(Dispose, dispose)];
    assert c.stoppers[i] == Owns(Publish, Verdict(terminate, dispose));
  }

  // A Stop call while the child runs: it asks for a graceful stop, terminates what is left,
  // disposes the job, and answers whether the tree was seen empty.
  lemma StopIsServed(events: seq<Event>, graceful: bool, terminate: Outcome, dispose: Outcome, last: Outcome)
    requires Run(events).phase.Running?
    ensures var i := |Run(events).stoppers|;
            var t := Run(events + [CallStop] + [StopReads(i)] + [StopCompares(i)] + [StopObserves(i, Value(graceful))]
                         + [StopObserves(i, terminate)] + [StopObserves(i, dispose)] + [StopObserves(i, last)]);
            && t.completed && t.phase.Stopping? && i < |t.stoppers| && t.stoppers[i] == Returned(Verdict(terminate, dispose))
            && t.log == Log([Called(Graceful, Value(graceful)), Called(Terminate, terminate), Called(Dispose, dispose)], 0)
  {
    RunInv(events);
    var i := |Run(events).stoppers|;
    var a := events + [CallStop];
    var b := a + [StopReads(i)];
    var c := b + [StopCompares(i)];
    var d := c + [StopObserves(i, Value(graceful))];
    var f := d + [StopObserves(i, terminate)];
    RunAppend(events, CallStop);
    RunAppend(a, StopReads(i));
    RunAppend(b, StopCompares(i));
    RunAppend(c, StopObserves(i, Value(graceful)));
    RunAppend(d, StopObserves(i, terminate));
    RunAppend(f, StopObserves(i, dispose));
    RunAppend(f + [StopObserves(i, dispose)], StopObserves(i, last));
    StopTakes(Run(events));
    StopTearsDown(Run(c), i, graceful, terminate, dispose, last);
  }

  // --- Who wins ---

  // At step k a Stop call takes the outcome over from the watcher.
  ghost predicate TakesOver(events: seq<Event>, k: nat) {
    && k < |events| && events[k].StopCompares?
    && Run(events[..k]).phase.Watching? && Run(events[..k + 1]).phase.Stopping?
  }

  lemma PhaseStep(s: State, e: Event)
    requires Inv(s)
    ensures s.phase.Stopping? ==> Next(s, e).phase.Stopping?
    ensures s.phase.Crashed? ==> Next(s, e).phase.Crashed?
    ensures s.phase.Watching? && Next(s, e).phase.Stopping? ==> e.StopCompares?
    ensures s.owner.TheWatcher? ==> Next(s, e).owner.TheWatcher?
    ensures Next(s, e).owner.TheWatcher? && !s.owner.TheWatcher? ==> Next(s, e).phase.Watching?
  {
    if FromStopper(e) && StopIndex(e) < |s.stoppers| { assert StopperInv(s, StopIndex(e)); }
  }

  lemma {:induction false} StoppingStays(events: seq<Event>, k: nat)
    requires k <= |events| && Run(events[..k]).phase.Stopping?
    ensures Run(events).phase.Stopping?
  {
    if k == |events| {
      assert events[..k] == events;
    } else {
      var front := events[..|events| - 1];
      assert front[..k] == events[..k];
      StoppingStays(front, k);
      RunInv(front);
      PhaseStep(Run(front), events[|events| - 1]);
    }
  }

  lemma TakenBefore(events: seq<Event>, k: nat)
    requires events != [] && TakesOver(events[..|events| - 1], k)
    ensures TakesOver(events, k)
  {
    var front := events[..|events| - 1];
    assert front[..k] == events[..k] && front[..k + 1] == events[..k + 1];
  }

  lemma TakenNow(events: seq<Event>, s: State, e: Event)
    requires events != [] && e == events[|events| - 1] && s == Run(events[..|events| - 1])
    requires e.StopCompares? && s.phase.Watching? && Next(s, e).phase.Stopping?
    ensures TakesOver(events, |events| - 1)
  {
    assert events[..|events| - 1 + 1] == events;
  }

  lemma {:induction false} StoppingWasTaken(events: seq<Event>)
    requires Run(events).owner.TheWatcher? && Run(events).phase.Stopping?
    ensures exists k: nat :: TakesOver(events, k)
  {
    var front, e := events[..|events| - 1], events[|events| - 1];
    RunInv(front);
    PhaseStep(Run(front), e);
    if Run(front).phase.Stopping? {
      StoppingWasTaken(front);
      var k: nat :| TakesOver(front, k);
      TakenBefore(events, k);
    } else {
      TakenNow(events, Run(front), e);
    }
  }

  // A watcher that owned the teardown and is through has run the crash callback, once, if and
  // only if no Stop call took the outcome over from it.
  lemma CrashIffNotTakenOver(events: seq<Event>)
    requires Run(events).owner.TheWatcher? && Run(events).watcher.Exited?
    ensures Run(events).completed
    ensures Run(events).log.crashes == 1 <==> !exists k: nat :: TakesOver(events, k)
  {
    RunInv(events);
    if Run(events).phase.Stopping? {
      StoppingWasTaken(events);
    } else if k: nat :| TakesOver(events, k) {
      StoppingStays(events, k + 1);
    }
  }

  lemma PublishedStays(s: State, e: Event)
    requires Inv(s) && s.completed
    ensures Next(s, e).completed && Next(s, e).empty == s.empty
  {
    if e.StopObserves? && e.i < |s.stoppers| { assert StopperInv(s, e.i); }
  }

  // Call i checks with its deadline over and no completion.
  predicate GivesUpAt(s: State, e: Event, i: nat) {
    e == StopChecks(i, true) && !s.completed && i < |s.stoppers| && s.stoppers[i].Checking?
  }

  ghost predicate GivesUp(events: seq<Event>, k: nat, i: nat) {
    k < |events| && GivesUpAt(Run(events[..k]), events[k], i)
  }

  lemma ReturnedStays(s: State, e: Event, i: nat)
    requires i < |s.stoppers|
    ensures i < |Next(s, e).stoppers|
    ensures s.stoppers[i].Returned? ==> Next(s, e).stoppers[i] == s.stoppers[i]
  {
  }

  lemma AnswerStep(s: State, e: Event, i: nat)
    requires Inv(s) && i < |s.stoppers| && !s.stoppers[i].Returned?
    requires i < |Next(s, e).stoppers| && Next(s, e).stoppers[i].Returned?
    ensures var t := Next(s, e);
            || (t.completed && t.stoppers[i].result == t.empty)
            || (!t.stoppers[i].result && (t.phase.Crashed? || GivesUpAt(s, e, i)))
  {
    assert FromStopper(e);
  }

  lemma EveryoneArrives(s: State, e: Event)
    requires |Next(s, e).stoppers| > |s.stoppers|
    ensures Next(s, e).stoppers == s.stoppers + [Reading]
  {
  }

  ghost predicate Explained(events: seq<Event>, s: State, i: nat)
    requires i < |s.stoppers|
  {
    || (s.completed && s.stoppers[i] == Returned(s.empty))
    || (s.stoppers[i] == Returned(false) && (s.phase.Crashed? || exists k: nat :: GivesUp(events, k, i)))
  }

  lemma GaveUpBefore(events: seq<Event>, k: nat, i: nat)
    requires events != [] && k < |events| - 1
    ensures GivesUp(events[..|events| - 1], k, i) <==> GivesUp(events, k, i)
  {
    assert events[..|events| - 1][..k] == events[..k];
  }

  lemma ExplainedLater(events: seq<Event>, s: State, i: nat)
    requires events != [] && s == Run(events[..|events| - 1]) && Inv(s)
    requires i < |s.stoppers| && Explained(events[..|events| - 1], s, i)
    ensures var t := Next(s, events[|events| - 1]); i < |t.stoppers| && Explained(events, t, i)
  {
    var e := events[|events| - 1];
    ReturnedStays(s, e, i);
    PhaseStep(s, e);
    if s.completed { PublishedStays(s, e); }
    var before := events[..|events| - 1];
    if k: nat :| GivesUp(before, k, i) { GaveUpBefore(events, k, i); }
  }

  // A Stop call fails for a reason: it gave up at its deadline, the crash was committed, or
  // the completed teardown left the tree in doubt. Otherwise its answer is the published one.
  lemma {:induction false} AnswersAreExplained(events: seq<Event>, i: nat)
    requires i < |Run(events).stoppers| && Run(events).stoppers[i].Returned?
    ensures Explained(events, Run(events), i)
  {
    var front, e := events[..|events| - 1], events[|events| - 1];
    var s := Run(front);
    RunInv(front);
    if i >= |s.stoppers| {
      EveryoneArrives(s, e);
    } else if s.stoppers[i].Returned? {
      AnswersAreExplained(front, i);
      ExplainedLater(events, s, i);
    } else {
      AnswerStep(s, e, i);
      if GivesUpAt(s, e, i) { assert GivesUp(events, |events| - 1, i); }
    }
  }

  lemma {:induction false} ReturnedForGood(events: seq<Event>, k: nat, i: nat)
    requires k <= |events| && i < |Run(events[..k]).stoppers| && Run(events[..k]).stoppers[i].Returned?
    ensures i < |Run(events).stoppers| && Run(events).stoppers[i] == Run(events[..k]).stoppers[i]
  {
    if k == |events| {
      assert events[..k] == events;
    } else {
      var front := events[..|events| - 1];
      assert front[..k] == events[..k];
      ReturnedForGood(front, k, i);
      ReturnedStays(Run(front), events[|events| - 1], i);
    }
  }

  // And one that gives up is not kept waiting.
  lemma GivingUpEnds(events: seq<Event>, k: nat, i: nat)
    requires GivesUp(events, k, i)
    ensures i < |Run(events).stoppers| && Run(events).stoppers[i] == Returned(false)
  {
    assert events[..k + 1][..k] == events[..k];
    ReturnedForGood(events, k + 1, i);
  }

  // A confirmed stop and a crash callback exclude each other.
  lemma StopExcludesCrash(events: seq<Event>, i: nat)
    requires i < |Run(events).stoppers| && Run(events).stoppers[i] == Returned(true)
    ensures Run(events).log.crashes == 0 && !Run(events).watcher.Crashing?
  {
    RunInv(events);
    assert StopperInv(Run(events), i);
  }

  // Stop answers true only when the tree was seen empty and disposing it did not throw.
  lemma TrueStopWasObserved(events: seq<Event>, i: nat)
    requires i < |Run(events).stoppers| && Run(events).stoppers[i] == Returned(true)
    ensures var calls := Run(events).log.calls;
            && Count(calls, Terminate) == 1 && Called(Terminate, Value(true)) in calls
            && Count(calls, Dispose) == 1 && Called(Dispose, Thrown) !in calls
  {
    RunInv(events);
    assert StopperInv(Run(events), i);
    TeardownHappens(events);
    var calls := Run(events).log.calls;
    OnlyOneTerminate(calls, Run(events).owner.TheStopper?, Run(events).empty);
  }

  lemma OnlyOneTerminate(calls: seq<Call>, asked: bool, answer: bool)
    requires Observed(calls, asked, answer) && Called(Terminate, Value(true)) in calls
    ensures Called(Graceful, Thrown) !in calls
  {
    assert calls == calls[..|calls| - 1] + [calls[|calls| - 1]];
  }

  // The compare-exchange loop of one Stop call fails at most twice.
  lemma RetriesAreBounded(events: seq<Event>, i: nat)
    requires i < |Run(events).stoppers|
    ensures i < |Run(events).failures| && Run(events).failures[i] <= 2
  {
    RunInv(events);
    assert StopperInv(Run(events), i);
  }

  // No waiter sleeps past completion, and the next check of an awake waiter returns the published result.
  lemma {:induction false} NoWaiterSleepsPastCompletion(events: seq<Event>, i: nat, expired: bool)
    requires i < |Run(events).stoppers| && Run(events).completed
    ensures !Run(events).stoppers[i].Sleeping?
    ensures Run(events).stoppers[i].Checking? ==>
              Next(Run(events), StopChecks(i, expired)).stoppers[i] == Returned(Run(events).empty)
  {
    RunInv(events);
    assert StopperInv(Run(events), i);
  }

  // The object itself: its three fields, the program counters of the threads inside it,
  // and what the callbacks were seen to do. Each method is one atomic step.
  class Teardown {
    var stopping: Phase
    var completed: bool
    var empty: bool
    var watcher: Watcher
    var stoppers: seq<Stopper>
    ghost var failures: seq<nat>
    ghost var owner: Owner
    ghost var log: Log

    ghost function View(): State reads this {
      State(stopping, completed, empty, watcher, stoppers, failures, owner, log)
    }

    constructor ()
      ensures View() == Init()
    {
      stopping, completed, empty, watcher, stoppers := Running, false, false, NotStarted, [];
      failures, owner, log := [], Nobody, Log([], 0);
    }

    // Interlocked.CompareExchange on the arbitration field.
    method CompareExchange(value: Phase, comparand: Phase) returns (previous: Phase)
      modifies `stopping
      ensures previous == old(stopping)
      ensures stopping == if previous == comparand then value else previous
    {
      previous := stopping;
      if previous == comparand { stopping := value; }
    }

    // The watcher sees the child exit and tries to claim the teardown.
    method ChildExited()
      requires watcher.Waiting?
      modifies this
      ensures View() == Next(old(View()), ChildExits)
    {
      var previous := CompareExchange(Watching, Running);
      if previous != Running {
        watcher := Exited;
      } else {
        watcher := Observes(Terminate, false);
        owner := TheWatcher;
      }
    }

    // After Observe, the watcher commits a crash unless a deliberate stop took over.
    method DecideCrash()
      requires watcher.Deciding?
      modifies this
      ensures View() == Next(old(View()), WatcherDecides)
    {
      var previous := CompareExchange(Crashed, Watching);
      watcher := if previous == Watching then Crashing else Exited;
    }

    // The critical section at the end of Observe, entered by the watcher.
    method PublishFromWatcher(outcome: Outcome)
      requires watcher.Observes? && watcher.at.Publish?
      modifies this
      ensures View() == Next(old(View()), WatcherObserves(outcome))
    {
      empty := watcher.observed;
      completed := true;
      WakeAll();
      watcher := Deciding;
    }

    method WakeAll()
      modifies `stoppers
      ensures stoppers == PulseAll(old(stoppers))
    {
      var k := 0;
      while k < |stoppers|
        invariant 0 <= k <= |stoppers| == |old(stoppers)|
        invariant forall i :: 0 <= i < k ==> stoppers[i] == PulseAll(old(stoppers))[i]
        invariant forall i :: k <= i < |stoppers| ==> stoppers[i] == old(stoppers)[i]
      {
        if stoppers[k].Sleeping? { stoppers := stoppers[k := Checking]; }
        k := k + 1;
      }
    }

    // Volatile.Read at the head of the retry loop; a committed crash ends the call.
    method ReadPhase(i: nat)
      requires i < |stoppers| && stoppers[i].Reading?
      modifies this
      ensures View() == Next(old(View()), StopReads(i))
    {
      var previous := stopping;
      stoppers := stoppers[i := if previous == Crashed then Returned(false) else Comparing(previous)];
    }

    // The compare-exchange of the retry loop and the branch taken on its old value.
    method ClaimStop(i: nat)
      requires i < |stoppers| == |failures| && stoppers[i].Comparing?
      modifies this
      ensures View() == Next(old(View()), StopCompares(i))
    {
      var seen := stoppers[i].previous;
      var previous := CompareExchange(Stopping, seen);
      if previous != seen {
        stoppers := stoppers[i := Reading];
        failures := failures[i := failures[i] + 1];
      } else if seen == Running {
        stoppers := stoppers[i := Owns(Graceful, false)];
        owner := TheStopper(i);
      } else {
        stoppers := stoppers[i := Checking];
      }
    }

    // The critical section at the end of Observe, entered by the Stop call that owns it.
    method PublishFromStop(i: nat, outcome: Outcome)
      requires i < |stoppers| && stoppers[i].Owns? && stoppers[i].at.Publish?
      modifies this
      ensures View() == Next(old(View()), StopObserves(i, outcome))
    {
      var observed := stoppers[i].observed;
      empty := observed;
      completed := true;
      stoppers := stoppers[i := Returned(observed)];
      WakeAll();
    }

    // One turn of the waiting loop, holding the lock: answer, give up or sleep.
    method CheckCompletion(i: nat, expired: bool)
      requires i < |stoppers| && stoppers[i].Checking?
      modifies this
      ensures View() == Next(old(View()), StopChecks(i, expired))
    {
      if completed {
        stoppers := stoppers[i := Returned(empty)];
      } else if expired {
        stoppers := stoppers[i := Returned(false)];
      } else {
        stoppers := stoppers[i := Sleeping];
      }
    }
  }
}
