// The Windows snapshot manager. Timer ticks, completions of the collectors and session
// changes arrive in any order; everything between two of them is one synchronous step.
module WindowsSnapshots {
  import opened Options

  datatype Request = Request(generation: nat, maxBytes: int)

  // A suspended collection and whether the signal it was given has been aborted.
  datatype Flight = Flight(request: Request, aborted: bool)

  // A payload that was handed to the transport, and the manager's state at that moment.
  datatype Sent = Sent(request: Request, generation: nat, active: bool)

  datatype State = State(
    active: bool, generation: nat,
    interval: Option<Request>,  // the source's field: the timer, named by what it captured
    intervals: seq<Request>,    // the interval timers that are armed
    inFlight: bool,             // the source's field
    flights: seq<Flight>,       // the collections that are suspended
    pending: Option<Request>,
    begun: seq<Request>,        // collections begun so far
    sent: seq<Sent>)

  datatype Event =
    | Start(maxBytes: int)
    | Stop
    | Tick(k: nat)
    | Completed(k: nat, fits: bool)  // the host has answered and the trimmed payload fits, or not
    | Failed(k: nat)

  function Init(): State {
    State(false, 0, None, [], false, [], None, [], [])
  }

  function Cleared(timers: seq<Request>, timer: Request): seq<Request> {
    if timers == [] then []
    else (if timers[0] == timer then [] else [timers[0]]) + Cleared(timers[1..], timer)
  }

  // The signals of earlier starts have been aborted already.
  function Aborted(flights: seq<Flight>): seq<Flight> {
    seq(|flights|, k requires 0 <= k < |flights| => flights[k].(aborted := true))
  }

  function Stopped(s: State): State {
    var t := s.(active := false, generation := s.generation + 1, pending := None, flights := Aborted(s.flights));
    if t.interval.None? then t else t.(interval := None, intervals := Cleared(t.intervals, t.interval.value))
  }

  function Collect(s: State, r: Request, startup: bool): State {
    if !s.active || r.generation != s.generation then s
    else if s.inFlight then (if startup then s.(pending := Some(r)) else s)
    else s.(inFlight := true, flights := s.flights + [Flight(r, false)], begun := s.begun + [r])
  }

  function Started(s: State, maxBytes: int): State {
    var t := Stopped(s);
    var r := Request(t.generation, maxBytes);
    Collect(t.(active := true, interval := Some(r), intervals := t.intervals + [r]), r, true)
  }

  // The finally block of the collection at k: the slot is free, and what is pending starts at once.
  function Finally(s: State, k: nat): State
    requires k < |s.flights|
  {
    var t := s.(inFlight := false, flights := s.flights[..k] + s.flights[k + 1..], pending := None);
    if s.active && s.pending.Some? then Collect(t, s.pending.value, false) else t
  }

  predicate At(s: State, e: Event) {
    match e
    case Tick(k) => k < |s.intervals|
    case Completed(k, _) => k < |s.flights|
    case Failed(k) => k < |s.flights|
    case _ => true
  }

  function Next(s: State, e: Event): State {
    if !At(s, e) then s
    else
      match e
      case Start(maxBytes) => Started(s, maxBytes)
      case Stop => Stopped(s)
      case Tick(k) => Collect(s, s.intervals[k], false)
      case Completed(k, fits) =>
        var r := s.flights[k].request;
        if r.generation == s.generation && fits then Finally(s.(sent := s.sent + [Sent(r, s.generation, s.active)]), k)
        else Finally(s, k)
      case Failed(k) => Finally(s, k)
  }

  function Run(s: State, events: seq<Event>): State {
    if events == [] then s else Next(Run(s, events[..|events| - 1]), events[|events| - 1])
  }

  // --- At most one of each ---

  // The fields tell exactly what is suspended and what is armed.
  ghost predicate Exact(s: State) {
    && |s.flights| == (if s.inFlight then 1 else 0)
    && s.intervals == (if s.interval.Some? then [s.interval.value] else [])
    && (s.active <==> s.interval.Some?)
    && (s.active ==> s.interval.value.generation == s.generation)
  }

  ghost predicate Begun(s: State, generation: nat) {
    exists k :: 0 <= k < |s.begun| && s.begun[k].generation == generation
  }

  ghost predicate Progress(s: State) {
    && (s.pending.Some? ==> s.active && s.inFlight && s.pending == s.interval)
    && (s.active ==> (s.pending.None? <==> Begun(s, s.generation)))
    && (forall k :: 0 <= k < |s.begun| ==> s.begun[k].generation <= s.generation)
  }

  // A suspended collection is of the current start, or its signal has been aborted.
  ghost predicate Signalled(s: State, f: Flight) {
    && f.request.generation <= s.generation
    && (f.aborted <==> !s.active || f.request.generation != s.generation)
    && (!f.aborted ==> Some(f.request) == s.interval)
    && (!s.active ==> f.request.generation < s.generation)
  }

  ghost predicate Current(s: State) {
    && (forall k :: 0 <= k < |s.flights| ==> Signalled(s, s.flights[k]))
    && (forall k :: 0 <= k < |s.sent| ==> s.sent[k].active && s.sent[k].request.generation == s.sent[k].generation)
  }

  ghost predicate Inv(s: State) {
    Exact(s) && Progress(s) && Current(s)
  }

  lemma StoppedIsExact(s: State)
    requires Exact(s)
    ensures Exact(Stopped(s)) && Stopped(s).intervals == []
  {
    if s.interval.Some? { assert s.intervals[1..] == [] && Cleared(s.intervals[1..], s.interval.value) == []; }
  }

  lemma StartIsExact(s: State, maxBytes: int)
    requires Exact(s)
    ensures Exact(Started(s, maxBytes))
  {
    StoppedIsExact(s);
    var r := Request(s.generation + 1, maxBytes);
    assert [] + [r] == [r];
  }

  lemma FinallyIsExact(s: State, k: nat)
    requires Exact(s) && k < |s.flights|
    ensures Exact(Finally(s, k))
  {
    assert s.flights[..k] + s.flights[k + 1..] == [];
  }

  lemma NextIsExact(s: State, e: Event)
    requires Exact(s)
    ensures Exact(Next(s, e))
  {
    if !At(s, e) { return; }
    match e
    case Start(maxBytes) => StartIsExact(s, maxBytes);
    case Stop => StoppedIsExact(s);
    case Tick(_) =>
    case Completed(k, fits) =>
      FinallyIsExact(s, k);
      FinallyIsExact(s.(sent := s.sent + [Sent(s.flights[k].request, s.generation, s.active)]), k);
    case Failed(k) => FinallyIsExact(s, k);
  }

  lemma BegunMore(s: State, t: State, r: Request)
    requires t.begun == s.begun + [r]
    ensures forall g: nat :: Begun(t, g) <==> Begun(s, g) || g == r.generation
  {
    forall g: nat ensures Begun(t, g) <==> Begun(s, g) || g == r.generation {
      if Begun(s, g) {
        var k :| 0 <= k < |s.begun| && s.begun[k].generation == g;
        assert t.begun[k].generation == g;
      }
      assert t.begun[|s.begun|] == r;
    }
  }

  lemma StartProgresses(s: State, maxBytes: int)
    requires Exact(s) && Progress(s)
    ensures Progress(Started(s, maxBytes)) && Progress(Stopped(s))
  {
    var t := Started(s, maxBytes);
    assert !Begun(s, s.generation + 1);
    if !s.inFlight { BegunMore(s, t, Request(s.generation + 1, maxBytes)); } else { assert t.begun == s.begun; }
  }

  lemma FinallyProgresses(s: State, k: nat)
    requires Exact(s) && Progress(s) && k < |s.flights|
    ensures Progress(Finally(s, k))
  {
    if s.active && s.pending.Some? {
      BegunMore(s, Finally(s, k), s.pending.value);
    } else {
      assert Finally(s, k).begun == s.begun;
    }
  }

  lemma NextProgresses(s: State, e: Event)
    requires Exact(s) && Progress(s)
    ensures Progress(Next(s, e))
  {
    if !At(s, e) { return; }
    match e
    case Start(maxBytes) => StartProgresses(s, maxBytes);
    case Stop => StartProgresses(s, 0);
    case Tick(k) => if Next(s, e).begun != s.begun { BegunMore(s, Next(s, e), s.intervals[k]); }
    case Completed(k, fits) => CompletedProgresses(s, k, fits);
    case Failed(k) => FinallyProgresses(s, k);
  }

  lemma CompletedProgresses(s: State, k: nat, fits: bool)
    requires Exact(s) && Progress(s) && k < |s.flights|
    ensures Progress(Next(s, Completed(k, fits)))
  {
    var t := s.(sent := s.sent + [Sent(s.flights[k].request, s.generation, s.active)]);
    assert forall g :: Begun(t, g) <==> Begun(s, g);
    FinallyProgresses(s, k);
    FinallyProgresses(t, k);
  }

  lemma StartIsCurrent(s: State, maxBytes: int)
    requires Inv(s)
    ensures Current(Started(s, maxBytes)) && Current(Stopped(s))
  {
  }

  lemma FinallyIsCurrent(s: State, k: nat)
    requires Inv(s) && k < |s.flights|
    ensures Current(Finally(s, k))
  {
    assert s.flights[..k] + s.flights[k + 1..] == [];
  }

  lemma NextIsCurrent(s: State, e: Event)
    requires Inv(s)
    ensures Current(Next(s, e))
  {
    if !At(s, e) { return; }
    match e
    case Start(maxBytes) => StartIsCurrent(s, maxBytes);
    case Stop => StartIsCurrent(s, 0);
    case Tick(_) =>
    case Completed(k, fits) => CompletedIsCurrent(s, k, fits);
    case Failed(k) => FinallyIsCurrent(s, k);
  }

  lemma CompletedIsCurrent(s: State, k: nat, fits: bool)
    requires Inv(s) && k < |s.flights|
    ensures Current(Next(s, Completed(k, fits)))
  {
    FinallyIsCurrent(s, k);
    assert Signalled(s, s.flights[k]);
    if s.flights[k].request.generation == s.generation {
      var t := s.(sent := s.sent + [Sent(s.flights[k].request, s.generation, s.active)]);
      assert forall g :: Begun(t, g) <==> Begun(s, g);
      assert forall j :: 0 <= j < |s.flights| ==> (Signalled(t, s.flights[j]) <==> Signalled(s, s.flights[j]));
      FinallyIsCurrent(t, k);
    }
  }

  lemma {:induction false} RunKeepsInv(s: State, events: seq<Event>)
    requires Inv(s)
    ensures Inv(Run(s, events))
  {
    if events != [] {
      var t, e := Run(s, events[..|events| - 1]), events[|events| - 1];
      RunKeepsInv(s, events[..|events| - 1]);
      NextIsExact(t, e);
      NextProgresses(t, e);
      NextIsCurrent(t, e);
    }
  }

  // --- Main results ---

  // At most one collection is suspended and at most one interval is armed, and the fields of
  // the manager tell exactly which.
  lemma AtMostOneOfEach(events: seq<Event>)
    ensures var s := Run(Init(), events);
            && |s.flights| <= 1 && (s.inFlight <==> |s.flights| == 1)
            && |s.intervals| <= 1 && s.intervals == (if s.interval.Some? then [s.interval.value] else [])
            && (s.active ==> |s.intervals| == 1 && s.intervals[0].generation == s.generation) && (!s.active ==> s.intervals == [])
  {
    RunKeepsInv(Init(), events);
  }

  // Whatever is pending belongs to an active manager with a collection in flight, and is the
  // newest start with its own budget.
  lemma {:induction false} PendingIsNewest(events: seq<Event>)
    ensures var s := Run(Init(), events);
            s.pending.Some? ==> s.active && s.inFlight && |s.flights| == 1 && s.pending == s.interval
                                && s.pending.value.generation == s.generation
  {
    RunKeepsInv(Init(), events);
  }

  // A start is never lost: while the manager is active its generation either has begun a
  // collection or waits behind the one in flight, never both.
  lemma {:induction false} StartsAreNeverLost(events: seq<Event>)
    ensures var s := Run(Init(), events);
            s.active ==> (Begun(s, s.generation) <==> !(s.pending.Some? && s.inFlight))
  {
    RunKeepsInv(Init(), events);
  }

  // Nothing is sent for a generation that is over, and such a collection has been aborted.
  lemma {:induction false} NeverSendsStale(events: seq<Event>)
    ensures var s := Run(Init(), events);
            && (forall k :: 0 <= k < |s.sent| ==> s.sent[k].active && s.sent[k].request.generation == s.sent[k].generation)
            && (forall k :: 0 <= k < |s.flights| ==>
                  (s.flights[k].aborted <==> !s.active || s.flights[k].request.generation != s.generation))
  {
    RunKeepsInv(Init(), events);
    assert forall k :: 0 <= k < |Run(Init(), events).flights| ==> Signalled(Run(Init(), events), Run(Init(), events).flights[k]);
  }

  // With nothing in flight the interval of an active manager begins a collection of its start.
  lemma TicksCollect(events: seq<Event>)
    requires var s := Run(Init(), events); s.active && !s.inFlight
    ensures var s := Run(Init(), events);
            var t := Next(s, Tick(0));
            && s.interval.Some? && s.interval.value.generation == s.generation
            && t.begun == s.begun + [s.interval.value] && t.flights == [Flight(s.interval.value, false)] && t.inFlight
  {
    RunKeepsInv(Init(), events);
    assert Run(Init(), events).flights == [];
  }

  // The budget of the last start.
  function LastBudget(events: seq<Event>): int {
    if events == [] then 0
    else if events[|events| - 1].Start? then events[|events| - 1].maxBytes
    else LastBudget(events[..|events| - 1])
  }

  lemma IntervalStep(s: State, e: Event)
    requires Inv(s)
    ensures var t := Next(s, e); t.active && !e.Start? ==> t.interval == s.interval && s.active
    ensures e.Start? ==> Next(s, e).interval == Some(Request(s.generation + 1, e.maxBytes))
  {
  }

  // What ends a collection decides what is sent: the payload goes out, once and with the budget
  // of the last start, if and only if its generation is the current one and it fits.
  lemma {:induction false} SentIff(events: seq<Event>, k: nat, fits: bool)
    requires k < |Run(Init(), events).flights|
    ensures var s := Run(Init(), events);
            var r := s.flights[k].request;
            && (s.active ==> s.interval == Some(Request(s.generation, LastBudget(events))))
            && (s.active && r.generation == s.generation ==> r.maxBytes == LastBudget(events))
            && Next(s, Failed(k)).sent == s.sent
            && Next(s, Completed(k, fits)).sent ==
                 s.sent + if fits && s.active && r.generation == s.generation then [Sent(r, s.generation, true)] else []
  {
    RunKeepsInv(Init(), events);
    LastIsArmed(events);
    var s := Run(Init(), events);
    assert Signalled(s, s.flights[k]);
  }

  lemma {:induction false} LastIsArmed(events: seq<Event>)
    ensures var s := Run(Init(), events); s.active ==> s.interval == Some(Request(s.generation, LastBudget(events)))
  {
    RunKeepsInv(Init(), events);
    if events != [] {
      var before := events[..|events| - 1];
      LastIsArmed(before);
      RunKeepsInv(Init(), before);
      IntervalStep(Run(Init(), before), events[|events| - 1]);
    }
  }

  predicate Quiet(events: seq<Event>) {
    forall e :: e in events ==> !e.Completed? && !e.Failed?
  }

  lemma {:induction false} NothingBeginsWhileInFlight(s: State, events: seq<Event>)
    requires s.inFlight && |s.flights| == 1 && Quiet(events)
    ensures Run(s, events).begun == s.begun && Run(s, events).inFlight && |Run(s, events).flights| == 1
  {
    if events != [] {
      assert forall e :: e in events[..|events| - 1] ==> e in events;
      NothingBeginsWhileInFlight(s, events[..|events| - 1]);
      assert events[|events| - 1] in events;
    }
  }

  // However many starts, stops and ticks arrive during one collection, they lead to at most
  // one follow-up: the collection of the current generation, if it has not begun.
  lemma TriggersCoalesce(before: seq<Event>, during: seq<Event>, end: Event)
    requires Run(Init(), before).inFlight && Quiet(during) && (end == Failed(0) || end == Completed(0, true) || end == Completed(0, false))
    ensures var s := Run(Init(), before);
            var t := Run(s, during);
            Next(t, end).begun == s.begun + if t.active && t.interval.Some? && !Begun(t, t.generation) then [t.interval.value] else []
  {
    RunKeepsInv(Init(), before);
    var s := Run(Init(), before);
    NothingBeginsWhileInFlight(s, during);
    RunKeepsInv(s, during);
  }

  // The run without the ticks that came during a collection.
  function WithoutSkipped(events: seq<Event>): seq<Event> {
    if events == [] then []
    else
      var before, e := events[..|events| - 1], events[|events| - 1];
      if e.Tick? && Run(Init(), before).inFlight then WithoutSkipped(before) else WithoutSkipped(before) + [e]
  }

  // Ticks during a collection are as if they had not been: the same collections begin, the
  // same payloads are sent, and the manager ends in the same state.
  lemma {:induction false} SkippedTicksLeaveNoTrace(events: seq<Event>)
    ensures Run(Init(), WithoutSkipped(events)) == Run(Init(), events)
  {
    if events != [] {
      var before, e := events[..|events| - 1], events[|events| - 1];
      SkippedTicksLeaveNoTrace(before);
      if !(e.Tick? && Run(Init(), before).inFlight) {
        assert (WithoutSkipped(before) + [e])[..|WithoutSkipped(before)|] == WithoutSkipped(before);
      }
    }
  }

  class WindowsSnapshotManager {
    var interval: Option<Request>
    var intervals: seq<Request>  // the interval timers that are armed
    var active: bool
    var generation: nat
    var inFlight: bool
    var flights: seq<Flight>     // the suspended activations of collect
    var pending: Option<Request>
    ghost var begun: seq<Request>
    ghost var sent: seq<Sent>

    ghost function View(): State reads this {
      State(active, generation, interval, intervals, inFlight, flights, pending, begun, sent)
    }

    constructor ()
      ensures View() == Init()
    {
      interval, intervals, active, generation, inFlight, flights := None, [], false, 0, false, [];
      pending, begun, sent := None, [], [];
    }

    method Stop()
      modifies this
      ensures View() == Next(old(View()), Event.Stop)
    {
      active := false;
      generation := generation + 1;
      pending := None;
      if interval.Some? {
        intervals := Cleared(intervals, interval.value);
        interval := None;
      }
      flights := Aborted(flights);
    }

    method Start(maxBytes: int)
      modifies this
      ensures View() == Next(old(View()), Event.Start(maxBytes))
    {
      Stop();
      active := true;
      var request := Request(generation, maxBytes);
      interval := Some(request);
      intervals := intervals + [request];
      BeginCollection(request, true);
    }

    // collect up to its first await.
    method BeginCollection(request: Request, startup: bool)
      modifies this
      ensures View() == Collect(old(View()), request, startup)
    {
      if !active || request.generation != generation { return; }
      if inFlight {
        if startup { pending := Some(request); }
        return;
      }
      inFlight := true;
      flights := flights + [Flight(request, false)];
      begun := begun + [request];
    }

    // collect from the answer of the host to its end, including the follow-up.
    method EndCollection(k: nat, answered: bool, fits: bool)
      requires k < |flights|
      modifies this
      ensures View() == Next(old(View()), if answered then Completed(k, fits) else Failed(k))
    {
      var request := flights[k].request;
      if answered && request.generation == generation && fits {
        sent := sent + [Sent(request, generation, active)];
      }
      flights := flights[..k] + flights[k + 1..];
      inFlight := false;
      var next := pending;
      pending := None;
      if active && next.Some? { BeginCollection(next.value, false); }
    }
  }
}
