// The Linux snapshot manager. A collection awaits the host facts, then the inventory, then
// the compressor; starts, stops, triggers and ticks may arrive at any of these awaits.
module LinuxSnapshots {
  import opened Options
  import opened SnapshotTrimming

  datatype Await = Host | Inventory | Compressor(dataBytes: nat, noteBytes: nat, budget: int)

  // A suspended collection and the await it is at.
  datatype Flight = Flight(generation: nat, at: Await)

  // A payload handed to the transport: whose it is, what it measured and what it was held against.
  datatype Sent = Sent(flight: Flight, compressed: nat, generation: nat, budget: int)

  datatype State = State(
    active: bool, generation: nat, maxBytes: int,
    interval: Option<nat>,   // the source's field: the timer, named by the generation it captured
    intervals: seq<nat>,     // the interval timers that are armed
    inFlight: bool,          // the source's field
    flights: seq<Flight>,    // the collections that are suspended
    pending: bool,
    begun: seq<nat>,         // generations of the collections begun so far
    sent: seq<Sent>)

  datatype Event =
    | Start(maxBytes: int)
    | Stop
    | Trigger
    | Tick(k: nat)
    | HostAnswers(k: nat)
    | InventoryAnswers(k: nat, dataBytes: nat, noteBytes: nat)  // sizes after trimming
    | Compressed(k: nat, bytes: nat)
    | Fails(k: nat)

  function Init(): State {
    State(false, 0, 1024 * 1024, None, [], false, [], false, [], [])
  }

  function Cleared(timers: seq<nat>, timer: nat): seq<nat> {
    if timers == [] then []
    else (if timers[0] == timer then [] else [timers[0]]) + Cleared(timers[1..], timer)
  }

  function Stopped(s: State): State {
    var t := s.(active := false, generation := s.generation + 1, pending := false);
    if t.interval.None? then t else t.(interval := None, intervals := Cleared(t.intervals, t.interval.value))
  }

  // collect up to its first await; only interval ticks are dropped without a follow-up.
  function Collect(s: State, generation: nat, ticked: bool): State {
    if !s.active || generation != s.generation then s
    else if s.inFlight then (if !ticked then s.(pending := true) else s)
    else s.(inFlight := true, flights := s.flights + [Flight(generation, Host)], begun := s.begun + [generation])
  }

  function Started(s: State, maxBytes: int): State {
    var t := Stopped(s);
    var g := t.generation + 1;
    var u := t.(active := true, generation := g, maxBytes := maxBytes, interval := Some(g), intervals := t.intervals + [g]);
    Collect(u, g, false)
  }

  // The finally block of the collection at k.
  function Finally(s: State, k: nat): State
    requires k < |s.flights|
  {
    var t := s.(inFlight := false, flights := s.flights[..k] + s.flights[k + 1..]);
    if t.pending && t.active then Collect(t.(pending := false), t.generation, false) else t
  }

  predicate At(s: State, e: Event) {
    match e
    case Tick(k) => k < |s.intervals|
    case HostAnswers(k) => k < |s.flights| && s.flights[k].at.Host?
    case InventoryAnswers(k, _, _) => k < |s.flights| && s.flights[k].at.Inventory?
    case Compressed(k, _) => k < |s.flights| && s.flights[k].at.Compressor?
    case Fails(k) => k < |s.flights|
    case _ => true
  }

  function Move(s: State, k: nat, at: Await): State
    requires k < |s.flights|
  {
    s.(flights := s.flights[k := s.flights[k].(at := at)])
  }

  predicate Over(s: State, k: nat)
    requires k < |s.flights|
  {
    !s.active || s.flights[k].generation != s.generation
  }

  function Next(s: State, e: Event): State {
    if !At(s, e) then s
    else
      match e
      case Start(maxBytes) => Started(s, maxBytes)
      case Stop => Stopped(s)
      case Trigger => if s.active then Collect(s, s.generation, false) else s
      case Tick(k) => Collect(s, s.intervals[k], true)
      case HostAnswers(k) => if Over(s, k) then Finally(s, k) else Move(s, k, Inventory)
      case InventoryAnswers(k, dataBytes, noteBytes) =>
        if Over(s, k) || dataBytes > Budget(s.maxBytes) || noteBytes > s.maxBytes then Finally(s, k)
        else Move(s, k, Compressor(dataBytes, noteBytes, s.maxBytes))
      case Compressed(k, bytes) =>
        // The generation is not looked at again here.
        if bytes > s.maxBytes then Finally(s, k)
        else Finally(s.(sent := s.sent + [Sent(s.flights[k], bytes, s.generation, s.maxBytes)]), k)
      case Fails(k) => Finally(s, k)
  }

  function Run(s: State, events: seq<Event>): State {
    if events == [] then s else Next(Run(s, events[..|events| - 1]), events[|events| - 1])
  }

  // --- At most one of each ---

  // The fields tell exactly what is suspended and what is armed.
  ghost predicate Exact(s: State) {
    && |s.flights| == (if s.inFlight then 1 else 0)
    && s.intervals == (if s.interval.Some? then [s.interval.value] else [])
    && (s.active <==> s.interval.Some?)
    && (s.active ==> s.interval.value == s.generation)
  }

  ghost predicate HasBegun(s: State, generation: nat) {
    exists k :: 0 <= k < |s.begun| && s.begun[k] == generation
  }

  ghost predicate Progress(s: State) {
    && (s.pending ==> s.active && s.inFlight)
    && (s.active ==> s.pending || HasBegun(s, s.generation))
    && (forall k :: 0 <= k < |s.flights| && !s.active ==> s.flights[k].generation < s.generation)
    && (forall k :: 0 <= k < |s.flights| ==> s.flights[k].generation <= s.generation)
  }

  // What reached the compressor was measured against the budget of that moment.
  ghost predicate Measured(s: State, f: Flight) {
    f.at.Compressor? ==>
      && f.at.dataBytes <= Budget(f.at.budget) && f.at.noteBytes <= f.at.budget
      && (f.generation == s.generation ==> f.at.budget == s.maxBytes)
  }

  ghost predicate Fits(p: Sent) {
    && p.flight.at.Compressor?
    && p.flight.at.dataBytes <= Budget(p.flight.at.budget) && p.flight.at.noteBytes <= p.flight.at.budget
    && p.compressed <= p.budget
    && (p.flight.generation == p.generation ==> p.budget == p.flight.at.budget)
  }

  ghost predicate Budgeted(s: State) {
    && (forall k :: 0 <= k < |s.flights| ==> Measured(s, s.flights[k]))
    && (forall k :: 0 <= k < |s.sent| ==> Fits(s.sent[k]))
  }

  ghost predicate Inv(s: State) {
    Exact(s) && Progress(s) && Budgeted(s)
  }

  lemma StoppedIsExact(s: State)
    requires Exact(s)
    ensures Exact(Stopped(s)) && Stopped(s).intervals == []
  {
    if s.interval.Some? { assert s.intervals[1..] == [] && Cleared(s.intervals[1..], s.interval.value) == []; }
  }

  lemma StartIsExact(s: State, maxBytes: int)
    requires Exact(s)
    ensures Exact(Started(s, maxBytes))
  {
    StoppedIsExact(s);
    assert [] + [s.generation + 2] == [s.generation + 2];
  }

  lemma FinallyIsExact(s: State, k: nat)
    requires Exact(s) && k < |s.flights|
    ensures Exact(Finally(s, k))
  {
    assert s.flights[..k] + s.flights[k + 1..] == [];
  }

  lemma NextIsExact(s: State, e: Event)
    requires Exact(s)
    ensures Exact(Next(s, e))
  {
    if !At(s, e) { return; }
    match e
    case Start(maxBytes) => StartIsExact(s, maxBytes);
    case Stop => StoppedIsExact(s);
    case HostAnswers(k) => FinallyIsExact(s, k);
    case InventoryAnswers(k, _, _) => FinallyIsExact(s, k);
    case Compressed(k, bytes) =>
      FinallyIsExact(s, k);
      FinallyIsExact(s.(sent := s.sent + [Sent(s.flights[k], bytes, s.generation, s.maxBytes)]), k);
    case Fails(k) => FinallyIsExact(s, k);
    case _ =>
  }

  lemma BegunMore(s: State, t: State, g: nat)
    requires t.begun == s.begun + [g]
    ensures HasBegun(t, g)
  {
    assert t.begun[|s.begun|] == g;
  }

  lemma CollectProgresses(s: State, ticked: bool)
    requires Exact(s) && (s.pending ==> s.active && s.inFlight) && (ticked ==> s.pending || HasBegun(s, s.generation))
    requires forall k :: 0 <= k < |s.flights| ==> s.flights[k].generation <= s.generation && (!s.active ==> s.flights[k].generation < s.generation)
    requires s.active
    ensures Progress(Collect(s, s.generation, ticked))
  {
    if !s.inFlight { BegunMore(s, Collect(s, s.generation, ticked), s.generation); }
  }

  lemma StopProgresses(s: State)
    requires Exact(s) && Progress(s)
    ensures var t := Stopped(s);
            Progress(t) && Exact(t) && t.intervals == [] && forall k :: 0 <= k < |t.flights| ==> t.flights[k].generation < t.generation
  {
    StoppedIsExact(s);
  }

  lemma StartProgresses(s: State, maxBytes: int)
    requires Exact(s) && Progress(s)
    ensures Progress(Started(s, maxBytes))
  {
    StopProgresses(s);
    var t := Stopped(s);
    var g := t.generation + 1;
    var u := t.(active := true, generation := g, maxBytes := maxBytes, interval := Some(g), intervals := t.intervals + [g]);
    assert [] + [g] == [g];
    CollectProgresses(u, false);
  }

  lemma FinallyProgresses(s: State, k: nat)
    requires Exact(s) && Progress(s) && k < |s.flights|
    ensures Progress(Finally(s, k))
  {
    FinallyIsExact(s, k);
    var t := s.(inFlight := false, flights := s.flights[..k] + s.flights[k + 1..]);
    assert t.flights == [];
    if t.pending && t.active { CollectProgresses(t.(pending := false), false); }
  }

  lemma NextProgresses(s: State, e: Event)
    requires Exact(s) && Progress(s)
    ensures Progress(Next(s, e))
  {
    if !At(s, e) { return; }
    match e
    case Start(maxBytes) => StartProgresses(s, maxBytes);
    case Stop => StopProgresses(s);
    case Trigger => if s.active { CollectProgresses(s, false); }
    case Tick(k) => CollectProgresses(s, true);
    case HostAnswers(k) => FinallyProgresses(s, k);
    case InventoryAnswers(k, _, _) => FinallyProgresses(s, k);
    case Compressed(k, bytes) => SentProgresses(s, k, bytes);
    case Fails(k) => FinallyProgresses(s, k);
  }

  lemma SentProgresses(s: State, k: nat, bytes: nat)
    requires Exact(s) && Progress(s) && At(s, Compressed(k, bytes))
    ensures Progress(Next(s, Compressed(k, bytes)))
  {
    var t := s.(sent := s.sent + [Sent(s.flights[k], bytes, s.generation, s.maxBytes)]);
    assert HasBegun(s, s.generation) ==> HasBegun(t, t.generation);
    FinallyProgresses(s, k);
    FinallyProgresses(t, k);
  }

  lemma FinallyIsBudgeted(s: State, k: nat)
    requires Exact(s) && Budgeted(s) && k < |s.flights|
    ensures Budgeted(Finally(s, k))
  {
    assert s.flights[..k] + s.flights[k + 1..] == [];
  }

  lemma StartIsBudgeted(s: State, maxBytes: int)
    requires Exact(s) && Progress(s) && Budgeted(s)
    ensures Budgeted(Started(s, maxBytes)) && Budgeted(Stopped(s))
  {
  }

  lemma MoveIsBudgeted(s: State, k: nat, at: Await)
    requires Budgeted(s) && k < |s.flights| && Measured(s, s.flights[k].(at := at))
    ensures Budgeted(Move(s, k, at))
  {
  }

  lemma CollectIsBudgeted(s: State, g: nat, ticked: bool)
    requires Budgeted(s)
    ensures Budgeted(Collect(s, g, ticked))
  {
  }

  lemma SentIsBudgeted(s: State, k: nat, bytes: nat)
    requires Inv(s) && At(s, Compressed(k, bytes))
    ensures Budgeted(Next(s, Compressed(k, bytes)))
  {
    FinallyIsBudgeted(s, k);
    if bytes <= s.maxBytes {
      var p := Sent(s.flights[k], bytes, s.generation, s.maxBytes);
      assert Measured(s, s.flights[k]) && Fits(p);
      FinallyIsBudgeted(s.(sent := s.sent + [p]), k);
    }
  }

  lemma NextIsBudgeted(s: State, e: Event)
    requires Inv(s)
    ensures Budgeted(Next(s, e))
  {
    if !At(s, e) { return; }
    match e
    case Start(maxBytes) => StartIsBudgeted(s, maxBytes);
    case Stop => StartIsBudgeted(s, 0);
    case Trigger => CollectIsBudgeted(s, s.generation, false);
    case Tick(k) => CollectIsBudgeted(s, s.intervals[k], true);
    case HostAnswers(k) => if Over(s, k) { FinallyIsBudgeted(s, k); } else { MoveIsBudgeted(s, k, Inventory); }
    case InventoryAnswers(k, dataBytes, noteBytes) =>
      if Over(s, k) || dataBytes > Budget(s.maxBytes) || noteBytes > s.maxBytes { FinallyIsBudgeted(s, k); }
      else { MoveIsBudgeted(s, k, Compressor(dataBytes, noteBytes, s.maxBytes)); }
    case Compressed(k, bytes) => SentIsBudgeted(s, k, bytes);
    case Fails(k) => FinallyIsBudgeted(s, k);
  }

  lemma {:induction false} RunKeepsInv(s: State, events: seq<Event>)
    requires Inv(s)
    ensures Inv(Run(s, events))
  {
    if events != [] {
      var t, e := Run(s, events[..|events| - 1]), events[|events| - 1];
      RunKeepsInv(s, events[..|events| - 1]);
      NextIsExact(t, e);
      NextProgresses(t, e);
      NextIsBudgeted(t, e);
    }
  }

  // --- Main results ---

  // At most one collection is suspended and at most one interval is armed, and the fields of
  // the manager tell exactly which.
  lemma AtMostOneOfEach(events: seq<Event>)
    ensures var s := Run(Init(), events);
            && |s.flights| <= 1 && (s.inFlight <==> |s.flights| == 1)
            && |s.intervals| <= 1 && s.intervals == (if s.interval.Some? then [s.interval.value] else [])
            && (s.active ==> s.intervals == [s.generation]) && (!s.active ==> s.intervals == [])
  {
    RunKeepsInv(Init(), events);
  }

  // Pending work belongs to an active manager behind a collection in flight, and a start is
  // never lost: the current generation has begun or is what is pending.
  lemma {:induction false} StartsAreNeverLost(events: seq<Event>)
    ensures var s := Run(Init(), events);
            && (s.pending ==> s.active && s.inFlight && |s.flights| == 1)
            && (s.active ==> HasBegun(s, s.generation) || (s.pending && s.inFlight))
  {
    RunKeepsInv(Init(), events);
  }

  predicate Quiet(events: seq<Event>) {
    forall e :: e in events ==> e.Start? || e.Stop? || e.Trigger? || e.Tick?
  }

  lemma QuietStep(s: State, e: Event)
    requires s.inFlight && (e.Start? || e.Stop? || e.Trigger? || e.Tick?)
    ensures var t := Next(s, e);
            && t.begun == s.begun && t.flights == s.flights && t.inFlight && t.sent == s.sent
            && t.generation >= s.generation
            && (t.generation == s.generation <==> !e.Start? && !e.Stop?)
            && (t.generation == s.generation ==> t.maxBytes == s.maxBytes && t.active == s.active)
  {
  }

  lemma {:induction false} QuietRun(s: State, events: seq<Event>)
    requires s.inFlight && Quiet(events)
    ensures var t := Run(s, events);
            && t.begun == s.begun && t.flights == s.flights && t.inFlight && t.sent == s.sent
            && t.generation >= s.generation
            && (t.generation == s.generation <==> forall e :: e in events ==> !e.Start? && !e.Stop?)
            && (t.generation == s.generation ==> t.maxBytes == s.maxBytes && t.active == s.active)
  {
    if events != [] {
      var before, e := events[..|events| - 1], events[|events| - 1];
      assert forall x :: x in before ==> x in events;
      assert forall x :: x in events ==> x in before || x == e;
      QuietRun(s, before);
      assert e in events;
      QuietStep(Run(s, before), e);
    }
  }

  // Any number of starts, stops, triggers and ticks during one collection coalesce into at
  // most one follow-up, and it is of the newest generation.
  lemma TriggersCoalesce(before: seq<Event>, during: seq<Event>)
    requires Run(Init(), before).inFlight && Quiet(during)
    ensures var s := Run(Init(), before);
            var t := Run(s, during);
            Next(t, Fails(0)).begun == s.begun + if t.pending then [t.generation] else []
  {
    RunKeepsInv(Init(), before);
    var s := Run(Init(), before);
    QuietRun(s, during);
    RunKeepsInv(s, during);
  }

  // A start, or a trigger of the active manager, that no stop has followed.
  predicate AsksFor(s: State, during: seq<Event>, k: nat) {
    && k < |during|
    && (during[k].Start? || (during[k].Trigger? && Run(s, during[..k]).active))
    && forall j :: k < j < |during| ==> !during[j].Stop?
  }

  lemma AskedEarlier(s: State, during: seq<Event>, k: nat)
    requires during != [] && k < |during| - 1
    ensures AsksFor(s, during, k) <==> AsksFor(s, during[..|during| - 1], k) && !during[|during| - 1].Stop?
  {
    assert during[..|during| - 1][..k] == during[..k];
  }

  // During a collection a follow-up is asked for by every start and trigger that no stop has
  // followed, and by nothing else: ticks are dropped.
  lemma {:induction false} FollowUpIff(s: State, during: seq<Event>)
    requires s.inFlight && Quiet(during)
    ensures Run(s, during).pending <==>
              (s.pending && forall e :: e in during ==> !e.Stop?) || exists k: nat :: AsksFor(s, during, k)
  {
    if during != [] {
      var n := |during| - 1;
      var before, e := during[..n], during[n];
      assert (forall x :: x in before ==> x in during) && (forall x :: x in during ==> x in before || x == e) && e in during;
      FollowUpIff(s, before);
      QuietRun(s, before);
      forall k: nat ensures k < n ==> (AsksFor(s, during, k) <==> AsksFor(s, before, k) && !e.Stop?) {
        if k < n { AskedEarlier(s, during, k); }
      }
      if e.Start? || (e.Trigger? && Run(s, before).active) { assert AsksFor(s, during, n); }
      else if k: nat :| AsksFor(s, before, k) { assert AsksFor(s, during, k) <==> !e.Stop?; }
    }
  }

  // With nothing in flight the interval of an active manager, and a trigger, begin a
  // collection of its generation.
  lemma TicksCollect(events: seq<Event>)
    requires var s := Run(Init(), events); s.active && !s.inFlight
    ensures var s := Run(Init(), events);
            && s.intervals == [s.generation]
            && Next(s, Tick(0)).begun == s.begun + [s.generation] && Next(s, Tick(0)).flights == [Flight(s.generation, Host)]
            && Next(s, Trigger) == Next(s, Tick(0))
  {
    RunKeepsInv(Init(), events);
    assert Run(Init(), events).flights == [];
  }

  // The budget of the last start.
  function LastBudget(events: seq<Event>): int {
    if events == [] then 1024 * 1024
    else if events[|events| - 1].Start? then events[|events| - 1].maxBytes
    else LastBudget(events[..|events| - 1])
  }

  lemma {:induction false} BudgetIsTheLast(events: seq<Event>)
    ensures Run(Init(), events).maxBytes == LastBudget(events)
  {
    if events != [] { BudgetIsTheLast(events[..|events| - 1]); }
  }

  // A collection that nothing disturbs is sent if and only if it fits the budget of the last
  // start at every stage: its data, the notification around it, and the compressed payload.
  lemma UndisturbedIsSentIff(events: seq<Event>, dataBytes: nat, noteBytes: nat, bytes: nat)
    requires var s := Run(Init(), events); s.active && s.flights == [Flight(s.generation, Host)]
    ensures var s := Run(Init(), events);
            var max := LastBudget(events);
            var t := Next(Next(Next(s, HostAnswers(0)), InventoryAnswers(0, dataBytes, noteBytes)), Compressed(0, bytes));
            if dataBytes <= Budget(max) && noteBytes <= max && bytes <= max then
              t.sent == s.sent + [Sent(Flight(s.generation, Compressor(dataBytes, noteBytes, max)), bytes, s.generation, max)]
            else t.sent == s.sent
  {
    BudgetIsTheLast(events);
    var s := Run(Init(), events);
    var a := Next(s, HostAnswers(0));
    assert a == s.(flights := [Flight(s.generation, Inventory)]);
    InventoryStep(a, dataBytes, noteBytes, bytes);
  }

  lemma InventoryStep(a: State, dataBytes: nat, noteBytes: nat, bytes: nat)
    requires a.active && a.flights == [Flight(a.generation, Inventory)]
    ensures var b := Next(a, InventoryAnswers(0, dataBytes, noteBytes));
            var t := Next(b, Compressed(0, bytes));
            if dataBytes <= Budget(a.maxBytes) && noteBytes <= a.maxBytes && bytes <= a.maxBytes then
              t.sent == a.sent + [Sent(Flight(a.generation, Compressor(dataBytes, noteBytes, a.maxBytes)), bytes, a.generation, a.maxBytes)]
            else t.sent == a.sent
  {
    assert a.flights[..0] + a.flights[1..] == [];
  }

  // What is sent fitted the budget before and after compression; it is one and the same
  // budget whenever the payload still belongs to the current generation.
  lemma {:induction false} SentFitsBudget(events: seq<Event>, k: nat)
    requires k < |Run(Init(), events).sent|
    ensures var p := Run(Init(), events).sent[k];
            && p.flight.at.Compressor?
            && p.flight.at.dataBytes <= Budget(p.flight.at.budget) && p.flight.at.noteBytes <= p.flight.at.budget
            && p.compressed <= p.budget
            && (p.flight.generation == p.generation ==> p.budget == p.flight.at.budget)
  {
    RunKeepsInv(Init(), events);
    assert Fits(Run(Init(), events).sent[k]);
  }

  // The payload of a collection that reached the compressor under the current generation is
  // stale when it is sent if and only if the manager was started or stopped meanwhile.
  lemma StaleIffRestartedWhileCompressing(before: seq<Event>, during: seq<Event>, bytes: nat)
    requires var s := Run(Init(), before);
             s.inFlight && |s.flights| == 1 && s.flights[0].at.Compressor? && s.flights[0].generation == s.generation
    requires Quiet(during) && bytes <= Run(Run(Init(), before), during).maxBytes
    ensures var s := Run(Init(), before);
            var t := Next(Run(s, during), Compressed(0, bytes));
            && |t.sent| == |s.sent| + 1
            && (t.sent[|s.sent|].flight.generation != t.sent[|s.sent|].generation
                <==> exists e :: e in during && (e.Start? || e.Stop?))
  {
    var s := Run(Init(), before);
    QuietRun(s, during);
    var t := Run(s, during);
    assert At(t, Compressed(0, bytes));
    assert Next(t, Compressed(0, bytes)).sent == t.sent + [Sent(t.flights[0], bytes, t.generation, t.maxBytes)];
  }

  lemma RunAppend(s: State, events: seq<Event>, e: Event)
    ensures Run(s, events + [e]) == Next(Run(s, events), e)
  {
    assert (events + [e])[..|events|] == events;
  }

  // A concrete run in which a payload is sent although its generation is over.
  lemma StaleSendExample()
    ensures exists events: seq<Event> ::
              var s := Run(Init(), events);
              |s.sent| == 1 && s.sent[0].flight.generation == 2 && s.sent[0].generation == 4
  {
    var c := Compressing();
    var d := c + [Start(1048576)];
    var events := d + [Compressed(0, 50)];
    RunAppend(Init(), c, Start(1048576));
    RunAppend(Init(), d, Compressed(0, 50));
    assert |Run(Init(), events).sent| == 1;
  }

  lemma Compressing() returns (events: seq<Event>)
    ensures var s := Run(Init(), events);
            && s.active && s.inFlight && s.generation == 2 && s.sent == [] && s.begun == [2] && !s.pending
            && s.flights == [Flight(2, Compressor(100, 200, 1048576))] && s.interval == Some(2) && s.intervals == [2]
  {
    var a := [Start(1048576)];
    var b := a + [HostAnswers(0)];
    events := b + [InventoryAnswers(0, 100, 200)];
    assert [] + [Start(1048576)] == a;
    RunAppend(Init(), [], Start(1048576));
    RunAppend(Init(), a, HostAnswers(0));
    RunAppend(Init(), b, InventoryAnswers(0, 100, 200));
  }

  class SnapshotManager {
    var interval: Option<nat>
    var intervals: seq<nat>    // the interval timers that are armed
    var active: bool
    var generation: nat
    var inFlight: bool
    var flights: seq<Flight>   // the suspended activations of collect
    var pending: bool
    var maxBytes: int
    ghost var begun: seq<nat>
    ghost var sent: seq<Sent>

    ghost function View(): State reads this {
      State(active, generation, maxBytes, interval, intervals, inFlight, flights, pending, begun, sent)
    }

    constructor ()
      ensures View() == Init()
    {
      interval, intervals, active, generation, inFlight, flights, pending := None, [], false, 0, false, [], false;
      maxBytes, begun, sent := 1024 * 1024, [], [];
    }

    method Stop()
      modifies this
      ensures View() == Next(old(View()), Event.Stop)
    {
      active := false;
      generation := generation + 1;
      pending := false;
      if interval.Some? {
        intervals := Cleared(intervals, interval.value);
        interval := None;
      }
    }

    method Start(maxBytes: int)
      modifies this
      ensures View() == Next(old(View()), Event.Start(maxBytes))
    {
      Stop();
      active := true;
      generation := generation + 1;
      this.maxBytes := maxBytes;
      interval := Some(generation);
      intervals := intervals + [generation];
      BeginCollection(generation, false);
    }

    method TriggerNow()
      modifies this
      ensures View() == Next(old(View()), Trigger)
    {
      if active { BeginCollection(generation, false); }
    }

    method BeginCollection(of: nat, ticked: bool)
      modifies this
      ensures View() == Collect(old(View()), of, ticked)
    {
      if !active || of != generation { return; }
      if inFlight {
        if !ticked { pending := true; }
        return;
      }
      inFlight := true;
      flights := flights + [Flight(of, Host)];
      begun := begun + [of];
    }

    // The finally block of collect.
    method EndCollection(k: nat)
      requires k < |flights|
      modifies this
      ensures View() == Finally(old(View()), k)
    {
      flights := flights[..k] + flights[k + 1..];
      inFlight := false;
      if pending && active {
        pending := false;
        BeginCollection(generation, false);
      }
    }

    // collect from the answer of the host to the await of the inventory.
    method AfterHost(k: nat)
      requires k < |flights| && flights[k].at.Host?
      modifies this
      ensures View() == Next(old(View()), HostAnswers(k))
    {
      if !active || flights[k].generation != generation { EndCollection(k); return; }
      flights := flights[k := flights[k].(at := Inventory)];
    }

    // collect from the answer of the inventory to the await of the compressor.
    method AfterInventory(k: nat, dataBytes: nat, noteBytes: nat)
      requires k < |flights| && flights[k].at.Inventory?
      modifies this
      ensures View() == Next(old(View()), InventoryAnswers(k, dataBytes, noteBytes))
    {
      if !active || flights[k].generation != generation { EndCollection(k); return; }
      if dataBytes > Budget(maxBytes) { EndCollection(k); return; }
      if noteBytes > maxBytes { EndCollection(k); return; }
      flights := flights[k := flights[k].(at := Compressor(dataBytes, noteBytes, maxBytes))];
    }

    // collect from the compressor's answer to its end.
    method AfterCompression(k: nat, bytes: nat)
      requires k < |flights| && flights[k].at.Compressor?
      modifies this
      ensures View() == Next(old(View()), Compressed(k, bytes))
    {
      if bytes <= maxBytes { sent := sent + [Sent(flights[k], bytes, generation, maxBytes)]; }
      EndCollection(k);
    }
  }
}
