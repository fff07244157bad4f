// The bounded tool executor: two gates, one for reads and one for writes, that share a
// single queue budget. Each call of `execute` is an activation that is suspended at its
// awaits; a run is any list of timer firings, handler completions, continuations and
// session changes, in any order.
module ToolExecutor {
  import opened Options

  datatype Capability = Read | Write

  datatype Waiter = Waiter(id: nat, generation: int)

  datatype Gate = Gate(concurrency: nat, active: int, queue: seq<Waiter>, grants: seq<nat>)

  // Where a call of `execute` is suspended. A call holds its permit from Granted to Draining.
  datatype Stage =
    | Queued     // its waiter is in the queue of its gate
    | Granted    // the permit is its own, the continuation has not run yet
    | Running    // its handler has been called
    | Draining   // it answered TOOL_TIMEOUT and waits for the handler before releasing
    | Done
    | Refused

  datatype Call = Call(
    gate: Capability, generation: int, stage: Stage,
    waited: bool,      // it took the queue
    timer: bool,       // its queue timer is armed
    settled: nat,      // how often its waiting promise was resolved or rejected
    handler: bool,     // its handler has begun and has not settled
    overdue: bool,     // its execution timer fired
    registered: bool,  // its abort controller is in activeControllers
    aborted: bool,
    released: nat)     // how often it returned its permit

  datatype State = State(
    activeGeneration: Option<int>, limit: nat, queued: int,
    read: Gate, write: Gate, calls: seq<Call>)

  datatype Event =
    | Execute(gate: Capability, generation: int)
    | QueueTimer(id: nat)
    | Begin(id: nat, throws: bool)
    | HandlerSettles(id: nat)
    | ExecutionTimer(id: nat)
    | Finish(id: nat)
    | HandlerDrained(id: nat)
    | SetActiveGeneration(generation: int)
    | ClearActiveGeneration

  function Init(readConcurrency: nat, writeConcurrency: nat, limit: nat): State {
    State(None, limit, 0, Gate(readConcurrency, 0, [], []), Gate(writeConcurrency, 0, [], []), [])
  }

  function GateOf(s: State, c: Capability): Gate {
    if c.Read? then s.read else s.write
  }

  function WithGate(s: State, c: Capability, g: Gate): State {
    if c.Read? then s.(read := g) else s.(write := g)
  }

  function NewCall(gate: Capability, generation: int): Call {
    Call(gate, generation, Granted, false, false, 0, false, false, false, false, 0)
  }

  // Gate.acquire for the next call, after the checks of `execute`.
  function Acquire(s: State, gate: Capability, generation: int): State {
    var g, id, call := GateOf(s, gate), |s.calls|, NewCall(gate, generation);
    if g.active < g.concurrency then
      WithGate(s, gate, g.(active := g.active + 1, grants := g.grants + [id])).(calls := s.calls + [call])
    else if s.queued >= s.limit then
      s.(calls := s.calls + [call.(stage := Refused)])
    else
      WithGate(s, gate, g.(queue := g.queue + [Waiter(id, generation)]))
        .(queued := s.queued + 1, calls := s.calls + [call.(stage := Queued, waited := true, timer := true)])
  }

  // Gate.release by the holder `id`: the permit goes to the longest waiter, or back to the gate.
  function Release(s: State, id: nat): State
    requires id < |s.calls|
  {
    var c := s.calls[id].gate;
    var g := GateOf(s, c);
    var calls := s.calls[id := s.calls[id].(stage := Done, registered := false, released := s.calls[id].released + 1)];
    if g.queue == [] then
      WithGate(s, c, g.(active := g.active - 1)).(calls := calls)
    else
      var next := g.queue[0].id;
      WithGate(s, c, g.(queue := g.queue[1..], grants := g.grants + [next]))
        .(queued := s.queued - 1,
          calls := if next < |calls| then calls[next := calls[next].(stage := Granted, timer := false, settled := calls[next].settled + 1)]
                   else calls)
  }

  // queue.splice at the waiter's index, if it has one.
  function Without(queue: seq<Waiter>, id: nat): seq<Waiter> {
    if queue == [] then []
    else
      var n := |queue| - 1;
      if queue[n].id == id then queue[..n] else Without(queue[..n], id) + [queue[n]]
  }

  // The callback of a queue timer: it leaves the budget whether or not the waiter was found.
  function QueueTimeout(s: State, id: nat): State
    requires id < |s.calls|
  {
    var c := s.calls[id].gate;
    var g := GateOf(s, c);
    WithGate(s, c, g.(queue := Without(g.queue, id)))
      .(queued := s.queued - 1,
        calls := s.calls[id := s.calls[id].(stage := Refused, timer := false, settled := s.calls[id].settled + 1)])
  }

  // cancelQueued: every waiter is rejected and every registered controller aborted.
  function Cancelled(call: Call): Call {
    if call.stage.Queued? then call.(stage := Refused, timer := false, settled := call.settled + 1)
    else if call.registered then call.(aborted := true)
    else call
  }

  function CancelQueued(s: State): State {
    s.(queued := s.queued - |s.read.queue| - |s.write.queue|,
       read := s.read.(queue := []), write := s.write.(queue := []),
       calls := seq(|s.calls|, i requires 0 <= i < |s.calls| => Cancelled(s.calls[i])))
  }

  // The continuation of acquire in `execute`.
  function BeginCall(s: State, id: nat, throws: bool): State
    requires id < |s.calls|
  {
    if s.activeGeneration != Some(s.calls[id].generation) || throws then Release(s, id)
    else s.(calls := s.calls[id := s.calls[id].(stage := Running, handler := true, registered := true)])
  }

  // The finally block of `execute`, once the race between handler and timeout is decided.
  function FinishCall(s: State, id: nat): State
    requires id < |s.calls|
  {
    if s.calls[id].overdue then s.(calls := s.calls[id := s.calls[id].(stage := Draining, registered := false)])
    else Release(s, id)
  }

  predicate At(s: State, id: nat, stage: Stage) {
    id < |s.calls| && s.calls[id].stage == stage
  }

  function Next(s: State, e: Event): State {
    match e
    case Execute(gate, generation) =>
      if s.activeGeneration == Some(generation) then Acquire(s, gate, generation) else s
    case QueueTimer(id) =>
      if id < |s.calls| && s.calls[id].timer then QueueTimeout(s, id) else s
    case Begin(id, throws) =>
      if At(s, id, Granted) then BeginCall(s, id, throws) else s
    case HandlerSettles(id) =>
      if id < |s.calls| && s.calls[id].handler then s.(calls := s.calls[id := s.calls[id].(handler := false)]) else s
    case ExecutionTimer(id) =>
      if At(s, id, Running) && !s.calls[id].overdue then
        s.(calls := s.calls[id := s.calls[id].(overdue := true, aborted := true)]) else s
    case Finish(id) =>
      if At(s, id, Running) && (!s.calls[id].handler || s.calls[id].overdue) then FinishCall(s, id) else s
    case HandlerDrained(id) =>
      if At(s, id, Draining) && !s.calls[id].handler then Release(s, id) else s
    case SetActiveGeneration(generation) =>
      (if s.activeGeneration.Some? && s.activeGeneration.value != generation then CancelQueued(s) else s)
        .(activeGeneration := Some(generation))
    case ClearActiveGeneration =>
      CancelQueued(s).(activeGeneration := None)
  }

  function Run(init: State, events: seq<Event>): State {
    if events == [] then init else Next(Run(init, events[..|events| - 1]), events[|events| - 1])
  }

  predicate Holds(call: Call) {
    call.stage.Granted? || call.stage.Running? || call.stage.Draining?
  }

  // How many calls hold a permit of a gate, and how many handlers it has in flight.
  function Held(calls: seq<Call>, c: Capability): nat {
    if calls == [] then 0
    else Held(calls[..|calls| - 1], c) + if calls[|calls| - 1].gate == c && Holds(calls[|calls| - 1]) then 1 else 0
  }

  function Handlers(calls: seq<Call>, c: Capability): nat {
    if calls == [] then 0
    else Handlers(calls[..|calls| - 1], c) + if calls[|calls| - 1].gate == c && calls[|calls| - 1].handler then 1 else 0
  }

  ghost predicate CallInv(activeGeneration: Option<int>, call: Call) {
    && (call.timer <==> call.stage.Queued?)
    && (call.stage.Queued? ==> call.waited && activeGeneration == Some(call.generation))
    && call.settled == (if call.waited && !call.stage.Queued? then 1 else 0)
    && call.released == (if call.stage.Done? then 1 else 0)
    && (call.handler ==> call.stage.Running? || call.stage.Draining?)
    && (call.registered <==> call.stage.Running?)
    && (call.stage.Running? && activeGeneration != Some(call.generation) ==> call.aborted)
    && (call.stage.Draining? || call.overdue ==> call.aborted)
  }

  ghost predicate CallsInv(activeGeneration: Option<int>, calls: seq<Call>) {
    forall i :: 0 <= i < |calls| ==> CallInv(activeGeneration, calls[i])
  }

  // The queued calls of one gate, in order of arrival.
  function Waiting(calls: seq<Call>, c: Capability): seq<Waiter> {
    if calls == [] then []
    else
      var n := |calls| - 1;
      Waiting(calls[..n], c)
      + if calls[n].gate == c && calls[n].stage.Queued? then [Waiter(n, calls[n].generation)] else []
  }

  // Permits were granted in order of arrival, and nobody waits who arrived before a grant.
  ghost predicate GrantInv(g: Gate, n: nat) {
    && (forall j, k :: 0 <= j < k < |g.grants| ==> g.grants[j] < g.grants[k])
    && (forall j :: 0 <= j < |g.grants| ==> g.grants[j] < n)
    && (forall j, k :: 0 <= j < |g.grants| && 0 <= k < |g.queue| ==> g.grants[j] < g.queue[k].id)
  }

  // A gate over n calls, of which `waiting` wait and `held` hold a permit.
  ghost predicate GateShape(g: Gate, waiting: seq<Waiter>, held: nat, n: nat) {
    && g.queue == waiting
    && g.active == held <= g.concurrency
    && (g.queue != [] ==> g.active == g.concurrency)
    && GrantInv(g, n)
  }

  ghost predicate GateInv(g: Gate, calls: seq<Call>, c: Capability) {
    GateShape(g, Waiting(calls, c), Held(calls, c), |calls|)
  }

  ghost predicate Inv(s: State) {
    && CallsInv(s.activeGeneration, s.calls)
    && GateInv(s.read, s.calls, Read) && GateInv(s.write, s.calls, Write)
    && s.queued == |s.read.queue| + |s.write.queue| <= s.limit
  }

  lemma {:induction false} WaitingMembers(calls: seq<Call>, c: Capability)
    ensures forall k :: 0 <= k < |Waiting(calls, c)| ==>
              var w := Waiting(calls, c)[k];
              w.id < |calls| && calls[w.id].gate == c && calls[w.id].stage.Queued? && calls[w.id].generation == w.generation
    ensures forall j, k :: 0 <= j < k < |Waiting(calls, c)| ==> Waiting(calls, c)[j].id < Waiting(calls, c)[k].id
  {
    if calls != [] { WaitingMembers(calls[..|calls| - 1], c); }
  }

  // When a call stops waiting its waiter disappears and the others keep their order.
  lemma {:induction false} WaitingUpdate(calls: seq<Call>, i: nat, call: Call, c: Capability)
    requires i < |calls| && !call.stage.Queued?
    ensures Waiting(calls[i := call], c) ==
            if calls[i].gate == c && calls[i].stage.Queued? then Without(Waiting(calls, c), i) else Waiting(calls, c)
  {
    var n := |calls| - 1;
    var last := if calls[n].gate == c && calls[n].stage.Queued? then [Waiter(n, calls[n].generation)] else [];
    assert Waiting(calls, c) == Waiting(calls[..n], c) + last;
    if i == n {
      assert calls[i := call][..n] == calls[..n];
      assert last != [] ==> (Waiting(calls[..n], c) + last)[..|Waiting(calls[..n], c)|] == Waiting(calls[..n], c);
    } else {
      assert calls[i := call][..n] == calls[..n][i := call];
      WaitingUpdate(calls[..n], i, call, c);
      assert last != [] ==> (Waiting(calls[..n], c) + last)[..|Waiting(calls[..n], c)|] == Waiting(calls[..n], c);
      assert last == [] ==> Waiting(calls, c) == Waiting(calls[..n], c);
    }
  }

  // A waiting call is found in its queue, so removing it makes the queue one shorter.
  lemma {:induction false} WaitingRemoval(calls: seq<Call>, c: Capability, i: nat)
    requires i < |calls| && calls[i].gate == c && calls[i].stage.Queued?
    ensures |Without(Waiting(calls, c), i)| == |Waiting(calls, c)| - 1
  {
    var n := |calls| - 1;
    var w := Waiting(calls[..n], c);
    if i < n {
      WaitingRemoval(calls[..n], c, i);
      if calls[n].gate == c && calls[n].stage.Queued? {
        assert (w + [Waiter(n, calls[n].generation)])[..|w|] == w;
      } else {
        assert Waiting(calls, c) == w;
      }
    }
  }

  lemma {:induction false} WithoutMembers(queue: seq<Waiter>, id: nat)
    ensures forall w :: w in Without(queue, id) ==> w in queue
  {
    if queue != [] { WithoutMembers(queue[..|queue| - 1], id); }
  }

  lemma {:induction false} WithoutFirst(queue: seq<Waiter>)
    requires queue != [] && forall j, k :: 0 <= j < k < |queue| ==> queue[j].id < queue[k].id
    ensures Without(queue, queue[0].id) == queue[1..]
  {
    var n := |queue| - 1;
    if n > 0 {
      WithoutFirst(queue[..n]);
      assert queue[..n][1..] + [queue[n]] == queue[1..];
    }
  }

  lemma {:induction false} WaitingNone(calls: seq<Call>, c: Capability)
    requires forall i :: 0 <= i < |calls| ==> !calls[i].stage.Queued?
    ensures Waiting(calls, c) == []
  {
    if calls != [] { WaitingNone(calls[..|calls| - 1], c); }
  }

  lemma {:induction false} HeldUpdate(calls: seq<Call>, i: nat, call: Call, c: Capability)
    requires i < |calls|
    ensures Held(calls[i := call], c) + (if calls[i].gate == c && Holds(calls[i]) then 1 else 0)
         == Held(calls, c) + (if call.gate == c && Holds(call) then 1 else 0)
  {
    var n := |calls| - 1;
    if i == n {
      assert calls[i := call][..n] == calls[..n];
    } else {
      assert calls[i := call][..n] == calls[..n][i := call];
      HeldUpdate(calls[..n], i, call, c);
    }
  }

  lemma {:induction false} HeldSame(a: seq<Call>, b: seq<Call>, c: Capability)
    requires |a| == |b|
    requires forall i :: 0 <= i < |a| ==> a[i].gate == b[i].gate && (Holds(a[i]) <==> Holds(b[i]))
    ensures Held(a, c) == Held(b, c)
  {
    if a != [] { HeldSame(a[..|a| - 1], b[..|b| - 1], c); }
  }

  lemma {:induction false} HandlersWithinHeld(s: State, n: nat, c: Capability)
    requires n <= |s.calls| && CallsInv(s.activeGeneration, s.calls)
    ensures Handlers(s.calls[..n], c) <= Held(s.calls[..n], c)
  {
    if n > 0 {
      assert s.calls[..n][..n - 1] == s.calls[..n - 1];
      HandlersWithinHeld(s, n - 1, c);
      assert CallInv(s.activeGeneration, s.calls[n - 1]);
    }
  }

  ghost predicate Sorted(queue: seq<Waiter>) {
    forall j, k :: 0 <= j < k < |queue| ==> queue[j].id < queue[k].id
  }

  lemma Appended(calls: seq<Call>, call: Call, c: Capability)
    ensures Waiting(calls + [call], c) == Waiting(calls, c)
              + if call.gate == c && call.stage.Queued? then [Waiter(|calls|, call.generation)] else []
    ensures Held(calls + [call], c) == Held(calls, c) + if call.gate == c && Holds(call) then 1 else 0
  {
    assert (calls + [call])[..|calls|] == calls;
  }

  lemma ArrivalShape(g: Gate, waiting: seq<Waiter>, held: nat, n: nat, generation: int)
    requires GateShape(g, waiting, held, n) && forall w :: w in waiting ==> w.id < n
    ensures GateShape(g, waiting, held, n + 1)
    ensures held < g.concurrency ==> GateShape(g.(active := g.active + 1, grants := g.grants + [n]), waiting, held + 1, n + 1)
    ensures held == g.concurrency ==>
              GateShape(g.(queue := g.queue + [Waiter(n, generation)]), waiting + [Waiter(n, generation)], held, n + 1)
  {
  }

  lemma AcquireKeepsGate(g: Gate, calls: seq<Call>, c: Capability, call: Call, after: Gate)
    requires GateInv(g, calls, c)
    requires if call.gate != c || call.stage.Refused? then after == g
             else if g.active < g.concurrency then
               call.stage.Granted? && after == g.(active := g.active + 1, grants := g.grants + [|calls|])
             else call.stage.Queued? && after == g.(queue := g.queue + [Waiter(|calls|, call.generation)])
    ensures GateInv(after, calls + [call], c)
  {
    Appended(calls, call, c);
    WaitingMembers(calls, c);
    ArrivalShape(g, Waiting(calls, c), Held(calls, c), |calls|, call.generation);
    assert Waiting(calls, c) + [] == Waiting(calls, c);
  }

  lemma AcquireKeepsInv(s: State, gate: Capability, generation: int)
    requires Inv(s) && s.activeGeneration == Some(generation)
    ensures Inv(Acquire(s, gate, generation))
  {
    var t := Acquire(s, gate, generation);
    var call := t.calls[|s.calls|];
    assert t.calls == s.calls + [call];
    AcquireKeepsGate(s.read, s.calls, Read, call, t.read);
    AcquireKeepsGate(s.write, s.calls, Write, call, t.write);
    OneMoreCall(s.activeGeneration, s.calls, call);
  }

  lemma OneMoreCall(activeGeneration: Option<int>, calls: seq<Call>, call: Call)
    requires CallsInv(activeGeneration, calls) && CallInv(activeGeneration, call)
    ensures CallsInv(activeGeneration, calls + [call])
  {
  }

  // One call changes without touching its permit or its place in the queue.
  lemma TouchKeepsInv(s: State, id: nat, call: Call)
    requires Inv(s) && id < |s.calls|
    requires call.gate == s.calls[id].gate && !call.stage.Queued? && !s.calls[id].stage.Queued?
    requires Holds(call) <==> Holds(s.calls[id])
    requires CallInv(s.activeGeneration, call)
    ensures Inv(s.(calls := s.calls[id := call]))
  {
    WaitingUpdate(s.calls, id, call, Read); WaitingUpdate(s.calls, id, call, Write);
    HeldUpdate(s.calls, id, call, Read); HeldUpdate(s.calls, id, call, Write);
  }

  lemma ReturnShape(g: Gate, calls: seq<Call>, c: Capability, id: nat, done: Call)
    requires GateInv(g, calls, c) && g.queue == [] && id < |calls| && done.stage.Done?
    requires calls[id].gate == c == done.gate && Holds(calls[id])
    ensures GateInv(g.(active := g.active - 1), calls[id := done], c)
  {
    WaitingUpdate(calls, id, done, c);
    HeldUpdate(calls, id, done, c);
  }

  lemma FirstWaiter(g: Gate, calls: seq<Call>, c: Capability)
    requires GateInv(g, calls, c) && g.queue != []
    ensures var next := g.queue[0].id;
            next < |calls| && calls[next].gate == c && calls[next].stage.Queued? && Sorted(g.queue)
  {
    WaitingMembers(calls, c);
  }

  lemma HandOverQueue(calls: seq<Call>, c: Capability, id: nat, done: Call, next: nat, granted: Call)
    requires Waiting(calls, c) != [] && next == Waiting(calls, c)[0].id
    requires id < |calls| && next < |calls| && next != id && !done.stage.Queued? && !granted.stage.Queued?
    requires !calls[id].stage.Queued? && calls[next].gate == c && calls[next].stage.Queued?
    ensures Waiting(calls[id := done][next := granted], c) == Waiting(calls, c)[1..]
  {
    WaitingMembers(calls, c);
    WaitingUpdate(calls, id, done, c);
    WaitingUpdate(calls[id := done], next, granted, c);
    WithoutFirst(Waiting(calls, c));
  }

  lemma HandOverHeld(calls: seq<Call>, c: Capability, id: nat, done: Call, next: nat, granted: Call)
    requires id < |calls| && next < |calls| && next != id && !Holds(done) && Holds(granted)
    requires calls[id].gate == c == done.gate && Holds(calls[id]) && calls[next].gate == c == granted.gate && !Holds(calls[next])
    ensures Held(calls[id := done][next := granted], c) == Held(calls, c)
  {
    HeldUpdate(calls, id, done, c);
    HeldUpdate(calls[id := done], next, granted, c);
  }

  lemma HandOverShape(g: Gate, calls: seq<Call>, c: Capability, id: nat, done: Call, next: nat, granted: Call)
    requires GateInv(g, calls, c) && g.queue != [] && next == g.queue[0].id
    requires id < |calls| && next < |calls| && next != id && done.stage.Done? && granted.stage.Granted?
    requires calls[id].gate == c == done.gate && Holds(calls[id])
    requires calls[next].gate == c == granted.gate && calls[next].stage.Queued?
    ensures GateInv(g.(queue := g.queue[1..], grants := g.grants + [next]), calls[id := done][next := granted], c)
  {
    HandOverQueue(calls, c, id, done, next, granted);
    HandOverHeld(calls, c, id, done, next, granted);
    WaitingMembers(calls, c);
    ServedShape(g, |calls|);
  }

  lemma ServedShape(g: Gate, n: nat)
    requires GrantInv(g, n) && Sorted(g.queue) && g.queue != [] && g.queue[0].id < n
    ensures GrantInv(g.(queue := g.queue[1..], grants := g.grants + [g.queue[0].id]), n)
  {
  }

  lemma OtherGate(g: Gate, calls: seq<Call>, c: Capability, id: nat, call: Call)
    requires GateInv(g, calls, c) && id < |calls| && calls[id].gate == call.gate != c && !call.stage.Queued?
    ensures GateInv(g, calls[id := call], c)
  {
    WaitingUpdate(calls, id, call, c);
    HeldUpdate(calls, id, call, c);
  }

  // The releasing call's own gate `g` and the other one `h`, through a release.
  lemma ReleaseShapes(g: Gate, h: Gate, calls: seq<Call>, c: Capability, other: Capability, id: nat, done: Call)
    requires GateInv(g, calls, c) && GateInv(h, calls, other) && c != other
    requires id < |calls| && calls[id].gate == c == done.gate && Holds(calls[id]) && done.stage.Done?
    ensures g.queue == [] ==> GateInv(g.(active := g.active - 1), calls[id := done], c)
    ensures GateInv(h, calls[id := done], other)
    ensures g.queue != [] ==>
      var next := g.queue[0].id;
      next < |calls| && next != id && calls[next].stage.Queued? && calls[next].gate == c
  {
    OtherGate(h, calls, other, id, done);
    if g.queue == [] { ReturnShape(g, calls, c, id, done); } else { FirstWaiter(g, calls, c); }
  }

  function Other(c: Capability): Capability {
    if c.Read? then Write else Read
  }

  function Finished(call: Call): Call {
    call.(stage := Done, registered := false, released := call.released + 1)
  }

  function Served(call: Call): Call {
    call.(stage := Granted, timer := false, settled := call.settled + 1)
  }

  lemma HandOverEffect(s: State, id: nat, c: Capability, next: nat)
    requires id < |s.calls| && s.calls[id].gate == c && GateOf(s, c).queue != []
    requires next == GateOf(s, c).queue[0].id < |s.calls| && next != id
    ensures var t := Release(s, id);
            && t.calls == s.calls[id := Finished(s.calls[id])][next := Served(s.calls[next])]
            && GateOf(t, c) == GateOf(s, c).(queue := GateOf(s, c).queue[1..], grants := GateOf(s, c).grants + [next])
            && GateOf(t, Other(c)) == GateOf(s, Other(c))
  {
  }

  lemma BothGates(t: State, c: Capability)
    requires GateInv(GateOf(t, c), t.calls, c) && GateInv(GateOf(t, Other(c)), t.calls, Other(c))
    ensures GateInv(t.read, t.calls, Read) && GateInv(t.write, t.calls, Write)
  {
  }

  lemma HandOverKeepsGates(s: State, id: nat, c: Capability)
    requires GateInv(GateOf(s, c), s.calls, c) && GateInv(GateOf(s, Other(c)), s.calls, Other(c))
    requires id < |s.calls| && s.calls[id].gate == c && Holds(s.calls[id]) && GateOf(s, c).queue != []
    ensures var t := Release(s, id); GateInv(GateOf(t, c), t.calls, c) && GateInv(GateOf(t, Other(c)), t.calls, Other(c))
  {
    var g, h, done := GateOf(s, c), GateOf(s, Other(c)), Finished(s.calls[id]);
    ReleaseShapes(g, h, s.calls, c, Other(c), id, done);
    var next := g.queue[0].id;
    HandOverEffect(s, id, c, next);
    HandOverShape(g, s.calls, c, id, done, next, Served(s.calls[next]));
    OtherGate(h, s.calls[id := done], Other(c), next, Served(s.calls[next]));
  }

  lemma ReturnKeepsGates(s: State, id: nat, c: Capability)
    requires GateInv(GateOf(s, c), s.calls, c) && GateInv(GateOf(s, Other(c)), s.calls, Other(c))
    requires id < |s.calls| && s.calls[id].gate == c && Holds(s.calls[id]) && GateOf(s, c).queue == []
    ensures var t := Release(s, id); GateInv(GateOf(t, c), t.calls, c) && GateInv(GateOf(t, Other(c)), t.calls, Other(c))
  {
    ReleaseShapes(GateOf(s, c), GateOf(s, Other(c)), s.calls, c, Other(c), id, Finished(s.calls[id]));
    assert Release(s, id).calls == s.calls[id := Finished(s.calls[id])];
  }

  lemma ReleaseKeepsGates(s: State, id: nat)
    requires Inv(s) && id < |s.calls| && Holds(s.calls[id])
    ensures var t := Release(s, id); GateInv(t.read, t.calls, Read) && GateInv(t.write, t.calls, Write)
  {
    var c := s.calls[id].gate;
    if GateOf(s, c).queue != [] { HandOverKeepsGates(s, id, c); } else { ReturnKeepsGates(s, id, c); }
    BothGates(Release(s, id), c);
  }

  lemma ReleaseKeepsCalls(s: State, id: nat)
    requires CallsInv(s.activeGeneration, s.calls)
    requires id < |s.calls| && Holds(s.calls[id]) && !s.calls[id].handler
    requires var queue := GateOf(s, s.calls[id].gate).queue;
             queue != [] ==> queue[0].id < |s.calls| && s.calls[queue[0].id].stage.Queued?
    ensures CallsInv(s.activeGeneration, Release(s, id).calls)
  {
    assert CallInv(s.activeGeneration, s.calls[id]);
    var queue := GateOf(s, s.calls[id].gate).queue;
    if queue != [] { assert CallInv(s.activeGeneration, s.calls[queue[0].id]); }
  }

  lemma ReleaseKeepsInv(s: State, id: nat)
    requires Inv(s) && id < |s.calls| && Holds(s.calls[id]) && !s.calls[id].handler
    ensures Inv(Release(s, id))
  {
    ReleaseKeepsGates(s, id);
    if GateOf(s, s.calls[id].gate).queue != [] { FirstWaiter(GateOf(s, s.calls[id].gate), s.calls, s.calls[id].gate); }
    ReleaseKeepsCalls(s, id);
  }

  lemma TimeoutKeepsInv(s: State, id: nat)
    requires Inv(s) && id < |s.calls| && s.calls[id].timer
    ensures Inv(QueueTimeout(s, id))
  {
    var c := s.calls[id].gate;
    var other := if c.Read? then Write else Read;
    var t := QueueTimeout(s, id);
    assert CallInv(s.activeGeneration, s.calls[id]);
    OtherGate(GateOf(s, other), s.calls, other, id, t.calls[id]);
    TimeoutShape(GateOf(s, c), s.calls, c, id, t.calls[id]);
    assert GateInv(GateOf(t, c), t.calls, c) && GateInv(GateOf(t, other), t.calls, other);
  }

  lemma TimeoutShape(g: Gate, calls: seq<Call>, c: Capability, id: nat, refused: Call)
    requires GateInv(g, calls, c) && id < |calls| && calls[id].gate == c == refused.gate
    requires calls[id].stage.Queued? && refused.stage.Refused?
    ensures GateInv(g.(queue := Without(g.queue, id)), calls[id := refused], c)
    ensures |Without(g.queue, id)| == |g.queue| - 1
  {
    WaitingUpdate(calls, id, refused, c);
    HeldUpdate(calls, id, refused, c);
    WaitingRemoval(calls, c, id);
    WithoutMembers(g.queue, id);
    RemovalKeepsGrants(g, |calls|, Without(g.queue, id));
  }

  lemma RemovalKeepsGrants(g: Gate, n: nat, queue: seq<Waiter>)
    requires GrantInv(g, n) && forall w :: w in queue ==> w in g.queue
    ensures GrantInv(g.(queue := queue), n)
  {
    forall j, k | 0 <= j < |g.grants| && 0 <= k < |queue| ensures g.grants[j] < queue[k].id {
      assert queue[k] in queue;
      var m :| 0 <= m < |g.queue| && g.queue[m] == queue[k];
    }
  }

  lemma CancelKeepsInv(s: State, active: Option<int>)
    requires Inv(s)
    ensures Inv(CancelQueued(s).(activeGeneration := active))
  {
    var t := CancelQueued(s).(activeGeneration := active);
    forall i | 0 <= i < |t.calls| ensures CallInv(active, t.calls[i]) {
      assert CallInv(s.activeGeneration, s.calls[i]);
    }
    WaitingNone(t.calls, Read); WaitingNone(t.calls, Write);
    HeldSame(s.calls, t.calls, Read); HeldSame(s.calls, t.calls, Write);
  }

  lemma {:induction false} NextKeepsInv(s: State, e: Event)
    requires Inv(s)
    ensures Inv(Next(s, e))
  {
    match e
    case Execute(gate, generation) =>
      if s.activeGeneration == Some(generation) { AcquireKeepsInv(s, gate, generation); }
    case QueueTimer(id) =>
      if id < |s.calls| && s.calls[id].timer { TimeoutKeepsInv(s, id); }
    case Begin(id, throws) =>
      if At(s, id, Granted) {
        assert CallInv(s.activeGeneration, s.calls[id]);
        if s.activeGeneration != Some(s.calls[id].generation) || throws { ReleaseKeepsInv(s, id); }
        else { TouchKeepsInv(s, id, s.calls[id].(stage := Running, handler := true, registered := true)); }
      }
    case HandlerSettles(id) =>
      if id < |s.calls| && s.calls[id].handler {
        assert CallInv(s.activeGeneration, s.calls[id]);
        TouchKeepsInv(s, id, s.calls[id].(handler := false));
      }
    case ExecutionTimer(id) =>
      if At(s, id, Running) && !s.calls[id].overdue {
        assert CallInv(s.activeGeneration, s.calls[id]);
        TouchKeepsInv(s, id, s.calls[id].(overdue := true, aborted := true));
      }
    case Finish(id) =>
      if At(s, id, Running) && (!s.calls[id].handler || s.calls[id].overdue) {
        assert CallInv(s.activeGeneration, s.calls[id]);
        if s.calls[id].overdue { TouchKeepsInv(s, id, s.calls[id].(stage := Draining, registered := false)); }
        else { ReleaseKeepsInv(s, id); }
      }
    case HandlerDrained(id) =>
      if At(s, id, Draining) && !s.calls[id].handler { ReleaseKeepsInv(s, id); }
    case SetActiveGeneration(generation) =>
      if s.activeGeneration.Some? && s.activeGeneration.value != generation {
        CancelKeepsInv(s, Some(generation));
      } else {
        ActivateKeepsInv(s, generation);
      }
    case ClearActiveGeneration =>
      CancelKeepsInv(s, None);
  }

  // Installing a generation over none, or over itself, needs no cancellation.
  lemma ActivateKeepsInv(s: State, generation: int)
    requires Inv(s) && (s.activeGeneration.None? || s.activeGeneration.value == generation)
    ensures Inv(s.(activeGeneration := Some(generation)))
  {
    var t := s.(activeGeneration := Some(generation));
    forall i | 0 <= i < |t.calls| ensures CallInv(t.activeGeneration, t.calls[i]) {
      assert CallInv(s.activeGeneration, s.calls[i]);
    }
  }

  lemma {:induction false} RunKeepsInv(init: State, events: seq<Event>)
    requires Inv(init)
    ensures Inv(Run(init, events))
  {
    if events != [] {
      RunKeepsInv(init, events[..|events| - 1]);
      NextKeepsInv(Run(init, events[..|events| - 1]), events[|events| - 1]);
    }
  }

  // Main results, for every run from an idle executor.

  ghost predicate Idle(s: State) {
    exists r: nat, w: nat, limit: nat :: s == Init(r, w, limit)
  }

  lemma Reachable(init: State, events: seq<Event>)
    requires Idle(init)
    ensures Inv(Run(init, events))
    ensures forall c: Capability :: GateOf(Run(init, events), c).concurrency == GateOf(init, c).concurrency
  {
    RunKeepsInv(init, events);
    RunKeepsLimits(init, events);
  }

  lemma {:induction false} RunKeepsLimits(init: State, events: seq<Event>)
    ensures forall c: Capability :: GateOf(Run(init, events), c).concurrency == GateOf(init, c).concurrency
  {
    if events != [] {
      RunKeepsLimits(init, events[..|events| - 1]);
      var s, e := Run(init, events[..|events| - 1]), events[|events| - 1];
      forall c: Capability ensures GateOf(Next(s, e), c).concurrency == GateOf(s, c).concurrency {}
    }
  }

  // The shared counter is the sum of both queues although the timer callback decrements it
  // unconditionally; a gate with waiters has no free permit; permits are granted in order of
  // arrival and nobody who still waits arrived before somebody who was served.
  lemma GateAccounting(init: State, events: seq<Event>, c: Capability)
    requires Idle(init)
    ensures var s := Run(init, events);
            var g := GateOf(s, c);
            && 0 <= s.queued == |s.read.queue| + |s.write.queue| <= s.limit
            && 0 <= g.active <= g.concurrency
            && (g.queue != [] ==> g.active == g.concurrency)
            && (forall j, k :: 0 <= j < k < |g.grants| ==> g.grants[j] < g.grants[k])
            && (forall j, k :: 0 <= j < |g.grants| && 0 <= k < |g.queue| ==> g.grants[j] < g.queue[k].id)
  {
    Reachable(init, events);
  }

  // The queue of a gate holds exactly its waiting calls, each once, in order of arrival and
  // with the generation it arrived under.
  lemma QueueIsExact(init: State, events: seq<Event>, c: Capability)
    requires Idle(init)
    ensures var s := Run(init, events);
            var q := GateOf(s, c).queue;
            && (forall j, k :: 0 <= j < k < |q| ==> q[j].id < q[k].id)
            && (forall k :: 0 <= k < |q| ==>
                  q[k].id < |s.calls| && s.calls[q[k].id].gate == c && s.calls[q[k].id].stage.Queued?
                  && s.calls[q[k].id].generation == q[k].generation)
            && (forall i :: 0 <= i < |s.calls| && s.calls[i].gate == c && s.calls[i].stage.Queued? ==>
                  exists k :: 0 <= k < |q| && q[k].id == i)
  {
    Reachable(init, events);
    var s := Run(init, events);
    WaitingMembers(s.calls, c);
    forall i | 0 <= i < |s.calls| && s.calls[i].gate == c && s.calls[i].stage.Queued?
      ensures exists k :: 0 <= k < |GateOf(s, c).queue| && GateOf(s, c).queue[k].id == i
    {
      WaitingContains(s.calls, c, i);
      var k :| 0 <= k < |Waiting(s.calls, c)| && Waiting(s.calls, c)[k].id == i;
      assert GateOf(s, c).queue[k].id == i;
    }
  }

  // Each waiting promise settles exactly once, and its timer is armed exactly while it waits.
  lemma WaitersSettleOnce(init: State, events: seq<Event>, id: nat)
    requires Idle(init) && id < |Run(init, events).calls|
    ensures var s := Run(init, events);
            var call := s.calls[id];
            && (call.timer <==> exists k :: 0 <= k < |GateOf(s, call.gate).queue| && GateOf(s, call.gate).queue[k].id == id)
            && call.settled == (if call.waited && !call.timer then 1 else 0)
  {
    Reachable(init, events);
    var s := Run(init, events);
    TimersAreExact(s, id, s.calls[id].gate);
  }

  lemma TimersAreExact(s: State, id: nat, c: Capability)
    requires CallsInv(s.activeGeneration, s.calls) && id < |s.calls| && s.calls[id].gate == c
    requires GateOf(s, c).queue == Waiting(s.calls, c)
    ensures s.calls[id].timer <==> exists k :: 0 <= k < |GateOf(s, c).queue| && GateOf(s, c).queue[k].id == id
    ensures s.calls[id].settled == (if s.calls[id].waited && !s.calls[id].timer then 1 else 0)
  {
    assert CallInv(s.activeGeneration, s.calls[id]);
    QueuedIsWaiting(s.calls, c, id);
  }

  lemma QueuedIsWaiting(calls: seq<Call>, c: Capability, i: nat)
    requires i < |calls| && calls[i].gate == c
    ensures calls[i].stage.Queued? <==> exists k :: 0 <= k < |Waiting(calls, c)| && Waiting(calls, c)[k].id == i
  {
    WaitingMembers(calls, c);
    if calls[i].stage.Queued? { WaitingContains(calls, c, i); }
  }

  lemma {:induction false} WaitingContains(calls: seq<Call>, c: Capability, i: nat)
    requires i < |calls| && calls[i].gate == c && calls[i].stage.Queued?
    ensures exists k :: 0 <= k < |Waiting(calls, c)| && Waiting(calls, c)[k].id == i
  {
    var n := |calls| - 1;
    if i < n {
      WaitingContains(calls[..n], c, i);
      var k :| 0 <= k < |Waiting(calls[..n], c)| && Waiting(calls[..n], c)[k].id == i;
      assert Waiting(calls, c)[k].id == i;
    } else {
      assert Waiting(calls, c)[|Waiting(calls, c)| - 1].id == i;
    }
  }

  // Handlers that have begun and not settled never exceed the concurrency of their gate, not
  // even those that outlived their timeout.
  lemma HandlersBounded(init: State, events: seq<Event>, c: Capability)
    requires Idle(init)
    ensures Handlers(Run(init, events).calls, c) <= GateOf(init, c).concurrency
  {
    Reachable(init, events);
    var s := Run(init, events);
    assert s.calls[..|s.calls|] == s.calls;
    HandlersWithinHeld(s, |s.calls|, c);
  }

  // A permit is returned exactly once by a finished call, and never by a refused one.
  lemma PermitsReturnedOnce(init: State, events: seq<Event>, id: nat)
    requires Idle(init) && id < |Run(init, events).calls|
    ensures Run(init, events).calls[id].released == if Run(init, events).calls[id].stage.Done? then 1 else 0
  {
    Reachable(init, events);
    assert CallInv(Run(init, events).activeGeneration, Run(init, events).calls[id]);
  }

  // Every permit ever granted is held by one call or has been returned by one.
  lemma {:induction false} PermitsConserved(init: State, events: seq<Event>, c: Capability)
    requires Idle(init)
    ensures var s := Run(init, events); |GateOf(s, c).grants| == Permits(s.calls, c)
  {
    if events != [] {
      var before, e := events[..|events| - 1], events[|events| - 1];
      PermitsConserved(init, before, c);
      Reachable(init, before);
      NextConservesPermits(Run(init, before), e, c);
    }
  }

  function Permits(calls: seq<Call>, c: Capability): nat {
    if calls == [] then 0
    else Permits(calls[..|calls| - 1], c) + PermitsOf(calls[|calls| - 1], c)
  }

  function PermitsOf(call: Call, c: Capability): nat {
    if call.gate == c then call.released + (if Holds(call) then 1 else 0) else 0
  }

  lemma {:induction false} PermitsUpdate(calls: seq<Call>, i: nat, call: Call, c: Capability)
    requires i < |calls|
    ensures Permits(calls[i := call], c) + PermitsOf(calls[i], c) == Permits(calls, c) + PermitsOf(call, c)
  {
    var n := |calls| - 1;
    if i == n {
      assert calls[i := call][..n] == calls[..n];
    } else {
      assert calls[i := call][..n] == calls[..n][i := call];
      PermitsUpdate(calls[..n], i, call, c);
    }
  }

  lemma {:induction false} PermitsSame(a: seq<Call>, b: seq<Call>, c: Capability)
    requires |a| == |b| && forall i :: 0 <= i < |a| ==> PermitsOf(a[i], c) == PermitsOf(b[i], c)
    ensures Permits(a, c) == Permits(b, c)
  {
    if a != [] { PermitsSame(a[..|a| - 1], b[..|b| - 1], c); }
  }

  ghost predicate FirstWaits(s: State) {
    forall c: Capability :: GateOf(s, c).queue != [] ==>
      At(s, GateOf(s, c).queue[0].id, Queued) && s.calls[GateOf(s, c).queue[0].id].gate == c
  }

  lemma InvFirstWaits(s: State)
    requires Inv(s)
    ensures FirstWaits(s)
  {
    if s.read.queue != [] { FirstWaiter(s.read, s.calls, Read); }
    if s.write.queue != [] { FirstWaiter(s.write, s.calls, Write); }
  }

  lemma ReturnConservesPermits(s: State, id: nat, c: Capability)
    requires id < |s.calls| && Holds(s.calls[id]) && GateOf(s, s.calls[id].gate).queue == []
    ensures |GateOf(Release(s, id), c).grants| == |GateOf(s, c).grants| && Permits(Release(s, id).calls, c) == Permits(s.calls, c)
  {
    var done := Finished(s.calls[id]);
    PermitsUpdate(s.calls, id, done, c);
    assert Release(s, id).calls == s.calls[id := done];
  }

  lemma HandOverPermits(calls: seq<Call>, id: nat, next: nat, c: Capability)
    requires id < |calls| && next < |calls| && next != id && Holds(calls[id]) && calls[next].stage.Queued?
    ensures Permits(calls[id := Finished(calls[id])][next := Served(calls[next])], c)
         == Permits(calls, c) + if calls[next].gate == c then 1 else 0
  {
    PermitsUpdate(calls, id, Finished(calls[id]), c);
    PermitsUpdate(calls[id := Finished(calls[id])], next, Served(calls[next]), c);
  }

  lemma ReleaseConservesPermits(s: State, id: nat, c: Capability)
    requires FirstWaits(s) && id < |s.calls| && Holds(s.calls[id])
    ensures |GateOf(Release(s, id), c).grants| - |GateOf(s, c).grants|
         == Permits(Release(s, id).calls, c) - Permits(s.calls, c)
  {
    var d := s.calls[id].gate;
    if GateOf(s, d).queue == [] {
      ReturnConservesPermits(s, id, c);
    } else {
      var next := GateOf(s, d).queue[0].id;
      HandOverEffect(s, id, d, next);
      HandOverPermits(s.calls, id, next, c);
    }
  }

  // The events that return a permit.
  predicate Releases(s: State, e: Event) {
    match e
    case Begin(id, throws) => At(s, id, Granted) && (s.activeGeneration != Some(s.calls[id].generation) || throws)
    case Finish(id) => At(s, id, Running) && !s.calls[id].handler && !s.calls[id].overdue
    case HandlerDrained(id) => At(s, id, Draining) && !s.calls[id].handler
    case _ => false
  }

  lemma NextConservesPermits(s: State, e: Event, c: Capability)
    requires Inv(s)
    ensures |GateOf(Next(s, e), c).grants| - |GateOf(s, c).grants| == Permits(Next(s, e).calls, c) - Permits(s.calls, c)
  {
    InvFirstWaits(s);
    if Releases(s, e) {
      ReleaseConservesPermits(s, e.id, c);
    } else {
      QuietEventConservesPermits(s, e, c);
    }
  }

  // How many permits of c the gate has given out beyond those that were held or returned.
  function Excess(s: State, c: Capability): int {
    |GateOf(s, c).grants| - Permits(s.calls, c)
  }

  lemma CancellingConservesPermits(s: State, e: Event, c: Capability)
    requires CallsInv(s.activeGeneration, s.calls) && (e.SetActiveGeneration? || e.ClearActiveGeneration?)
    ensures Excess(Next(s, e), c) == Excess(s, c)
  {
    PermitsSame(s.calls, Next(s, e).calls, c);
  }

  lemma ExecutingConservesPermits(s: State, gate: Capability, generation: int, c: Capability)
    ensures Excess(Next(s, Execute(gate, generation)), c) == Excess(s, c)
  {
    var t := Next(s, Execute(gate, generation));
    if s.activeGeneration == Some(generation) { assert t.calls[..|s.calls|] == s.calls; }
  }

  lemma QuietEventConservesPermits(s: State, e: Event, c: Capability)
    requires CallsInv(s.activeGeneration, s.calls) && !Releases(s, e)
    ensures Excess(Next(s, e), c) == Excess(s, c)
  {
    if e.Execute? {
      ExecutingConservesPermits(s, e.gate, e.generation, c);
    } else if e.SetActiveGeneration? || e.ClearActiveGeneration? {
      CancellingConservesPermits(s, e, c);
    } else if e.id < |s.calls| {
      QuietTouch(s, e, c);
      PermitsUpdate(s.calls, e.id, Next(s, e).calls[e.id], c);
    }
  }

  lemma QuietTouch(s: State, e: Event, c: Capability)
    requires !Releases(s, e) && !e.Execute? && !e.SetActiveGeneration? && !e.ClearActiveGeneration?
    requires e.id < |s.calls| && CallInv(s.activeGeneration, s.calls[e.id])
    ensures var t := Next(s, e);
            && |t.calls| == |s.calls| && t.calls == s.calls[e.id := t.calls[e.id]]
            && GateOf(t, c).grants == GateOf(s, c).grants
            && PermitsOf(t.calls[e.id], c) == PermitsOf(s.calls[e.id], c)
  {
    assert s.calls[e.id := s.calls[e.id]] == s.calls;
  }

  // Answers are final: no later event changes a finished or refused call.
  lemma SettledCallsAreFinal(init: State, events: seq<Event>, id: nat, e: Event)
    requires Idle(init) && id < |Run(init, events).calls|
    requires Run(init, events).calls[id].stage.Done? || Run(init, events).calls[id].stage.Refused?
    ensures var s := Run(init, events); id < |Next(s, e).calls| && Next(s, e).calls[id] == s.calls[id]
  {
    Reachable(init, events);
    NextKeepsFinal(Run(init, events), id, e);
  }

  lemma ReleaseKeepsFinal(s: State, id: nat, holder: nat)
    requires Inv(s) && holder < |s.calls| && Holds(s.calls[holder])
    requires id < |s.calls| && (s.calls[id].stage.Done? || s.calls[id].stage.Refused?)
    ensures Release(s, holder).calls[id] == s.calls[id]
  {
    var g := GateOf(s, s.calls[holder].gate);
    if g.queue != [] { FirstWaiter(g, s.calls, s.calls[holder].gate); }
  }

  lemma NextKeepsFinal(s: State, id: nat, e: Event)
    requires Inv(s) && id < |s.calls| && (s.calls[id].stage.Done? || s.calls[id].stage.Refused?)
    ensures id < |Next(s, e).calls| && Next(s, e).calls[id] == s.calls[id]
  {
    assert CallInv(s.activeGeneration, s.calls[id]);
    match e
    case Begin(holder, _) => if At(s, holder, Granted) { ReleaseKeepsFinal(s, id, holder); }
    case Finish(holder) => if At(s, holder, Running) { ReleaseKeepsFinal(s, id, holder); }
    case HandlerDrained(holder) => if At(s, holder, Draining) { ReleaseKeepsFinal(s, id, holder); }
    case _ =>
  }

  // Every waiter belongs to the active generation, and a handler that still runs for another
  // generation has been told to abort.
  lemma GenerationsAreIsolated(init: State, events: seq<Event>, id: nat)
    requires Idle(init) && id < |Run(init, events).calls|
    ensures var s := Run(init, events);
            var call := s.calls[id];
            && (call.stage.Queued? ==> s.activeGeneration == Some(call.generation))
            && (call.handler && s.activeGeneration != Some(call.generation) ==> call.aborted)
  {
    Reachable(init, events);
    assert CallInv(Run(init, events).activeGeneration, Run(init, events).calls[id]);
  }

  // --- The limits are those that were configured ---

  function Configured(c: Capability, readConcurrency: nat, writeConcurrency: nat): nat {
    match c case Read => readConcurrency case Write => writeConcurrency
  }

  lemma {:induction false} LimitsStay(r: nat, w: nat, limit: nat, events: seq<Event>)
    ensures var s := Run(Init(r, w, limit), events);
            s.limit == limit && s.read.concurrency == r && s.write.concurrency == w
  {
    if events != [] { LimitsStay(r, w, limit, events[..|events| - 1]); }
  }

  // In every run the handlers in flight and the permits out stay within the number configured
  // for their capability, and the waiters of both within the one configured for the queue.
  lemma LimitsAreAsConfigured(r: nat, w: nat, limit: nat, events: seq<Event>)
    ensures var s := Run(Init(r, w, limit), events);
            && Handlers(s.calls, Read) <= Held(s.calls, Read) <= r
            && Handlers(s.calls, Write) <= Held(s.calls, Write) <= w
            && s.queued == |Waiting(s.calls, Read)| + |Waiting(s.calls, Write)| <= limit
  {
    var init := Init(r, w, limit);
    Reachable(init, events);
    LimitsStay(r, w, limit, events);
    var s := Run(init, events);
    assert s.calls[..|s.calls|] == s.calls;
    HandlersWithinHeld(s, |s.calls|, Read);
    HandlersWithinHeld(s, |s.calls|, Write);
  }

  // How a call of the active generation is received: at once when a permit of its capability
  // is free, into the queue when there is room, and not at all otherwise. A call of another
  // generation changes nothing.
  lemma ArrivalsAreAnswered(r: nat, w: nat, limit: nat, events: seq<Event>, c: Capability, generation: int)
    ensures var s := Run(Init(r, w, limit), events);
            var t := Next(s, Execute(c, generation));
            var id := |s.calls|;
            if s.activeGeneration != Some(generation) then t == s
            else
              && |t.calls| == id + 1 && t.calls[..id] == s.calls
              && t.calls[id].gate == c && t.calls[id].generation == generation
              && (t.calls[id].stage.Granted? <==> Held(s.calls, c) < Configured(c, r, w))
              && (t.calls[id].stage.Queued? <==>
                    Held(s.calls, c) == Configured(c, r, w) && |Waiting(s.calls, Read)| + |Waiting(s.calls, Write)| < limit)
              && (t.calls[id].stage.Granted? || t.calls[id].stage.Queued? || t.calls[id].stage.Refused?)
  {
    Reachable(Init(r, w, limit), events);
    LimitsStay(r, w, limit, events);
  }

  lemma {:induction false} HandlersUpdate(calls: seq<Call>, i: nat, call: Call, c: Capability)
    requires i < |calls| && call.gate == calls[i].gate
    ensures Handlers(calls[i := call], c) + (if calls[i].gate == c && calls[i].handler then 1 else 0)
         == Handlers(calls, c) + (if calls[i].gate == c && call.handler then 1 else 0)
  {
    var n := |calls| - 1;
    if i == n {
      assert calls[i := call][..n] == calls[..n];
    } else {
      assert calls[i := call][..n] == calls[..n][i := call];
      HandlersUpdate(calls[..n], i, call, c);
    }
  }

  lemma HandlersThrough(calls: seq<Call>, id: nat, next: nat, c: Capability)
    requires id < |calls| && next < |calls| && next != id
    ensures Handlers(calls[id := Finished(calls[id])][next := Served(calls[next])], c) == Handlers(calls, c)
  {
    HandlersUpdate(calls, id, Finished(calls[id]), c);
    HandlersUpdate(calls[id := Finished(calls[id])], next, Served(calls[next]), c);
  }

  lemma ReleaseKeepsHandlers(s: State, id: nat, c: Capability)
    requires FirstWaits(s) && id < |s.calls| && Holds(s.calls[id])
    ensures Handlers(Release(s, id).calls, c) == Handlers(s.calls, c)
  {
    var d := s.calls[id].gate;
    if GateOf(s, d).queue == [] {
      assert Release(s, id).calls == s.calls[id := Finished(s.calls[id])];
      HandlersUpdate(s.calls, id, Finished(s.calls[id]), c);
    } else {
      var next := GateOf(s, d).queue[0].id;
      HandOverEffect(s, id, d, next);
      HandlersThrough(s.calls, id, next, c);
    }
  }

  // A call with a permit runs its handler if and only if its generation is still active and
  // the call does not throw before: then one handler more is in flight. Otherwise its permit
  // goes to the call that has waited longest, or back to the gate.
  lemma PermitsAreUsedIff(init: State, events: seq<Event>, id: nat, throws: bool)
    requires Idle(init) && At(Run(init, events), id, Granted)
    ensures var s := Run(init, events);
            var t := Next(s, Begin(id, throws));
            var c := s.calls[id].gate;
            if s.activeGeneration == Some(s.calls[id].generation) && !throws then
              Handlers(t.calls, c) == Handlers(s.calls, c) + 1 && id < |t.calls| && t.calls[id].handler && Held(t.calls, c) == Held(s.calls, c)
            else
              && Handlers(t.calls, c) == Handlers(s.calls, c) && id < |t.calls| && t.calls[id].stage.Done?
              && (if GateOf(s, c).queue == [] then Held(t.calls, c) == Held(s.calls, c) - 1
                  else Held(t.calls, c) == Held(s.calls, c) && GateOf(t, c).grants == GateOf(s, c).grants + [GateOf(s, c).queue[0].id])
  {
    Reachable(init, events);
    var s := Run(init, events);
    var t := Next(s, Begin(id, throws));
    var c := s.calls[id].gate;
    assert CallInv(s.activeGeneration, s.calls[id]);
    if s.activeGeneration == Some(s.calls[id].generation) && !throws {
      HandlersUpdate(s.calls, id, t.calls[id], c);
      HeldUpdate(s.calls, id, t.calls[id], c);
    } else {
      InvFirstWaits(s);
      ReleaseKeepsHandlers(s, id, c);
      ReleaseFinishes(s, id);
      NextKeepsInv(s, Begin(id, throws));
      HeldByShape(s, t, c);
      if GateOf(s, c).queue != [] { FirstWaiter(GateOf(s, c), s.calls, c); }
    }
  }

  lemma HeldByShape(s: State, t: State, c: Capability)
    requires Inv(s) && Inv(t)
    ensures Held(t.calls, c) - Held(s.calls, c) == GateOf(t, c).active - GateOf(s, c).active
  {
  }

  // A handler that outlives its timeout is aborted, and keeps the permit of its call until it
  // has settled, although the call has been answered.
  lemma OverdueCallsKeepTheirPermit(init: State, events: seq<Event>, id: nat)
    requires Idle(init) && At(Run(init, events), id, Running)
    requires Run(init, events).calls[id].handler && !Run(init, events).calls[id].overdue
    ensures var s := Run(init, events);
            var t := Next(s, ExecutionTimer(id));
            var u := Next(t, Finish(id));
            var c := s.calls[id].gate;
            && id < |t.calls| && t.calls[id].overdue && t.calls[id].aborted
            && At(u, id, Draining) && u.calls[id].handler && Held(u.calls, c) == Held(s.calls, c) && Next(u, HandlerDrained(id)) == u
  {
    var s := Run(init, events);
    var t := Next(s, ExecutionTimer(id));
    OverdueStep(s, id);
    HeldUpdate(s.calls, id, t.calls[id], s.calls[id].gate);
    DrainingStep(t, id);
    HeldUpdate(t.calls, id, Next(t, Finish(id)).calls[id], s.calls[id].gate);
  }

  lemma OverdueStep(s: State, id: nat)
    requires At(s, id, Running) && s.calls[id].handler && !s.calls[id].overdue
    ensures Next(s, ExecutionTimer(id)).calls == s.calls[id := s.calls[id].(overdue := true, aborted := true)]
  {
  }

  lemma DrainingStep(s: State, id: nat)
    requires At(s, id, Running) && s.calls[id].handler && s.calls[id].overdue
    ensures var t := Next(s, Finish(id));
            && t.calls == s.calls[id := s.calls[id].(stage := Draining, registered := false)]
            && Next(t, HandlerDrained(id)) == t
  {
  }

  // --- Every permit comes back ---

  // How far a call that got its permit has come: begun, settled, finished, done.
  predicate Reached(call: Call, n: nat) {
    && (Holds(call) || call.stage.Done?)
    && (n >= 1 ==> !call.stage.Granted?)
    && (n >= 2 ==> !call.handler)
    && (n >= 3 ==> !call.stage.Running?)
    && (n >= 4 ==> call.stage.Done?)
  }

  predicate ReachedBy(s: State, id: nat, n: nat) {
    id < |s.calls| && Reached(s.calls[id], n)
  }

  lemma ReleaseKeepsOthers(s: State, holder: nat, id: nat)
    requires Inv(s) && holder < |s.calls| && Holds(s.calls[holder])
    requires id < |s.calls| && id != holder && !s.calls[id].stage.Queued?
    ensures id < |Release(s, holder).calls| && Release(s, holder).calls[id] == s.calls[id]
  {
    var g := GateOf(s, s.calls[holder].gate);
    if g.queue != [] { FirstWaiter(g, s.calls, s.calls[holder].gate); }
  }

  lemma ReleaseFinishes(s: State, holder: nat)
    requires Inv(s) && holder < |s.calls| && Holds(s.calls[holder])
    ensures holder < |Release(s, holder).calls| && Release(s, holder).calls[holder].stage.Done?
  {
    var g := GateOf(s, s.calls[holder].gate);
    if g.queue != [] { FirstWaiter(g, s.calls, s.calls[holder].gate); }
  }

  // The event by which the call `id` goes on from stage n.
  predicate GoesOn(e: Event, id: nat, n: nat) {
    match e
    case Begin(i, _) => i == id && n == 0
    case HandlerSettles(i) => i == id && n == 1
    case Finish(i) => i == id && n == 2
    case HandlerDrained(i) => i == id && n == 3
    case _ => false
  }

  lemma OtherEventsKeepReached(s: State, e: Event, id: nat, n: nat)
    requires Inv(s) && ReachedBy(s, id, n) && !Releases(s, e)
    ensures ReachedBy(Next(s, e), id, n)
    ensures GoesOn(e, id, n) ==> ReachedBy(Next(s, e), id, n + 1)
  {
    assert CallInv(s.activeGeneration, s.calls[id]);
  }

  lemma ReleasesKeepReached(s: State, e: Event, id: nat, n: nat)
    requires Inv(s) && ReachedBy(s, id, n) && Releases(s, e)
    ensures ReachedBy(Next(s, e), id, n)
    ensures GoesOn(e, id, n) ==> ReachedBy(Next(s, e), id, n + 1)
  {
    assert CallInv(s.activeGeneration, s.calls[id]);
    if e.id == id {
      ReleaseFinishes(s, id);
      NextKeepsInv(s, e);
      assert CallInv(Next(s, e).activeGeneration, Next(s, e).calls[id]);
    } else {
      ReleaseKeepsOthers(s, e.id, id);
    }
  }

  lemma ReachedStep(s: State, e: Event, id: nat, n: nat)
    requires Inv(s) && ReachedBy(s, id, n)
    ensures ReachedBy(Next(s, e), id, n)
    ensures GoesOn(e, id, n) ==> ReachedBy(Next(s, e), id, n + 1)
  {
    if Releases(s, e) { ReleasesKeepReached(s, e, id, n); } else { OtherEventsKeepReached(s, e, id, n); }
  }

  lemma {:induction false} ReachedStays(s: State, events: seq<Event>, id: nat, n: nat)
    requires Inv(s) && ReachedBy(s, id, n)
    ensures Inv(Run(s, events)) && ReachedBy(Run(s, events), id, n)
  {
    RunKeepsInv(s, events);
    if events != [] {
      ReachedStays(s, events[..|events| - 1], id, n);
      ReachedStep(Run(s, events[..|events| - 1]), events[|events| - 1], id, n);
    }
  }

  lemma ReachedNext(s: State, events: seq<Event>, e: Event, id: nat, n: nat)
    requires Inv(s) && ReachedBy(s, id, n) && GoesOn(e, id, n)
    ensures var t := Next(Run(s, events), e); Inv(t) && ReachedBy(t, id, n + 1)
  {
    ReachedStays(s, events, id, n);
    ReachedStep(Run(s, events), e, id, n);
    NextKeepsInv(Run(s, events), e);
  }

  // From every reachable state, with anything in between: once a call that has its permit has
  // begun, its handler has settled, its answer is decided and a late handler is awaited, the
  // permit is back. So no permit is lost, not even when a handler outlives its timeout.
  lemma EveryPermitComesBack(init: State, events: seq<Event>, id: nat, throws: bool,
                             a: seq<Event>, b: seq<Event>, c: seq<Event>, d: seq<Event>)
    requires Idle(init) && id < |Run(init, events).calls| && Holds(Run(init, events).calls[id])
    ensures var s1 := Next(Run(Run(init, events), a), Begin(id, throws));
            var s2 := Next(Run(s1, b), HandlerSettles(id));
            var s3 := Next(Run(s2, c), Finish(id));
            var s4 := Next(Run(s3, d), HandlerDrained(id));
            id < |s4.calls| && s4.calls[id].stage.Done? && s4.calls[id].released == 1
  {
    Reachable(init, events);
    var s := Run(init, events);
    ReachedNext(s, a, Begin(id, throws), id, 0);
    var s1 := Next(Run(s, a), Begin(id, throws));
    ReachedNext(s1, b, HandlerSettles(id), id, 1);
    var s2 := Next(Run(s1, b), HandlerSettles(id));
    ReachedNext(s2, c, Finish(id), id, 2);
    var s3 := Next(Run(s2, c), Finish(id));
    ReachedNext(s3, d, HandlerDrained(id), id, 3);
    var s4 := Next(Run(s3, d), HandlerDrained(id));
    assert CallInv(s4.activeGeneration, s4.calls[id]);
  }

  // --- Nothing is refused or aborted without a reason ---

  // At step k the generation is left.
  ghost predicate Leaves(init: State, events: seq<Event>, k: nat, generation: int) {
    && k < |events| && Run(init, events[..k]).activeGeneration == Some(generation)
    && Run(init, events[..k + 1]).activeGeneration != Some(generation)
  }

  ghost predicate WasLeft(init: State, events: seq<Event>, generation: int) {
    exists k: nat :: Leaves(init, events, k, generation)
  }

  ghost predicate TimedOut(events: seq<Event>, id: nat) {
    QueueTimer(id) in events
  }

  ghost predicate Explained(init: State, events: seq<Event>, id: nat, call: Call) {
    && (call.stage.Refused? && call.waited ==> TimedOut(events, id) || WasLeft(init, events, call.generation))
    && (call.aborted ==> call.overdue || WasLeft(init, events, call.generation))
  }

  lemma ReleaseServes(s: State, holder: nat, id: nat)
    requires Inv(s) && holder < |s.calls| && Holds(s.calls[holder])
    requires id < |s.calls| && s.calls[id].stage.Queued?
    ensures id < |Release(s, holder).calls|
    ensures Release(s, holder).calls[id] == s.calls[id] || Release(s, holder).calls[id] == Served(s.calls[id])
  {
    var g := GateOf(s, s.calls[holder].gate);
    if g.queue != [] { FirstWaiter(g, s.calls, s.calls[holder].gate); }
  }

  // From c to d, by an event e that moves the active generation as given.
  ghost predicate Reasoned(id: nat, e: Event, c: Call, d: Call, left: bool) {
    && d.generation == c.generation && (c.waited ==> d.waited) && (c.overdue ==> d.overdue)
    && (d.stage.Refused? && !c.stage.Refused? ==> e == QueueTimer(id) || left)
    && (d.stage.Refused? && c.stage.Refused? ==> d.waited == c.waited)
    && (d.aborted && !c.aborted ==> d.overdue || left)
  }

  predicate LeftBy(s: State, e: Event, generation: int) {
    s.activeGeneration == Some(generation) && Next(s, e).activeGeneration != Some(generation)
  }

  lemma ReleaseReasons(s: State, e: Event, id: nat)
    requires Inv(s) && id < |s.calls| && Releases(s, e)
    ensures var t := Next(s, e);
            id < |t.calls| && Reasoned(id, e, s.calls[id], t.calls[id], LeftBy(s, e, s.calls[id].generation))
  {
    if e.id == id { ReleaseFinishes(s, id); }
    else if s.calls[id].stage.Queued? { ReleaseServes(s, e.id, id); }
    else { ReleaseKeepsOthers(s, e.id, id); }
  }

  lemma CancelReasons(s: State, e: Event, id: nat)
    requires Inv(s) && id < |s.calls| && (e.SetActiveGeneration? || e.ClearActiveGeneration?)
    ensures var t := Next(s, e);
            id < |t.calls| && Reasoned(id, e, s.calls[id], t.calls[id], LeftBy(s, e, s.calls[id].generation))
  {
    assert CallInv(s.activeGeneration, s.calls[id]);
  }

  lemma OtherReasons(s: State, e: Event, id: nat)
    requires Inv(s) && id < |s.calls| && !Releases(s, e) && !e.SetActiveGeneration? && !e.ClearActiveGeneration?
    ensures var t := Next(s, e);
            id < |t.calls| && Reasoned(id, e, s.calls[id], t.calls[id], LeftBy(s, e, s.calls[id].generation))
  {
    assert CallInv(s.activeGeneration, s.calls[id]);
  }

  // A call that waits or runs is refused or aborted by an event for one of the two reasons.
  lemma ReasonsStep(s: State, e: Event, id: nat)
    requires Inv(s) && id < |s.calls|
    ensures var t := Next(s, e);
            id < |t.calls| && Reasoned(id, e, s.calls[id], t.calls[id], LeftBy(s, e, s.calls[id].generation))
  {
    if Releases(s, e) { ReleaseReasons(s, e, id); }
    else if e.SetActiveGeneration? || e.ClearActiveGeneration? { CancelReasons(s, e, id); }
    else { OtherReasons(s, e, id); }
  }

  lemma ArrivalExplained(s: State, e: Event, id: nat)
    requires |s.calls| <= id < |Next(s, e).calls|
    ensures !Next(s, e).calls[id].aborted && (Next(s, e).calls[id].stage.Refused? ==> !Next(s, e).calls[id].waited)
  {
    if e.Execute? { AcquiredCall(s, e.gate, e.generation); } else { OnlyArrivalsAdd(s, e); }
  }

  lemma AcquiredCall(s: State, gate: Capability, generation: int)
    ensures var t, n := Acquire(s, gate, generation), |s.calls|;
            |t.calls| == n + 1 && !t.calls[n].aborted && (t.calls[n].stage.Refused? ==> !t.calls[n].waited)
  {
  }

  lemma ReleaseAddsNothing(s: State, id: nat)
    requires id < |s.calls|
    ensures |Release(s, id).calls| == |s.calls|
  {
  }

  lemma OnlyArrivalsAdd(s: State, e: Event)
    requires !e.Execute?
    ensures |Next(s, e).calls| == |s.calls|
  {
    match e
    case Begin(id, _) => if id < |s.calls| { ReleaseAddsNothing(s, id); }
    case Finish(id) => if id < |s.calls| { ReleaseAddsNothing(s, id); }
    case HandlerDrained(id) => if id < |s.calls| { ReleaseAddsNothing(s, id); }
    case _ =>
  }

  lemma LeftBefore(init: State, events: seq<Event>, generation: int)
    requires events != [] && WasLeft(init, events[..|events| - 1], generation)
    ensures WasLeft(init, events, generation)
  {
    var before := events[..|events| - 1];
    var k: nat :| Leaves(init, before, k, generation);
    assert before[..k] == events[..k] && before[..k + 1] == events[..k + 1];
    assert Leaves(init, events, k, generation);
  }

  lemma LeftNow(init: State, events: seq<Event>, s: State, t: State, generation: int)
    requires events != [] && s == Run(init, events[..|events| - 1]) && t == Run(init, events)
    requires s.activeGeneration == Some(generation) && t.activeGeneration != Some(generation)
    ensures WasLeft(init, events, generation)
  {
    assert events[..|events|] == events;
    assert Leaves(init, events, |events| - 1, generation);
  }

  // And the queue timer does refuse: the call that it belongs to waits no longer, and its place
  // is free.
  lemma QueueTimersRefuse(init: State, events: seq<Event>, id: nat)
    requires Idle(init) && id < |Run(init, events).calls| && Run(init, events).calls[id].timer
    ensures var s := Run(init, events);
            var t := Next(s, QueueTimer(id));
            var c := s.calls[id].gate;
            && id < |t.calls| && t.calls[id].stage.Refused? && t.calls[id].settled == 1 && t.queued == s.queued - 1
            && (forall w :: w in GateOf(t, c).queue ==> w.id != id)
  {
    Reachable(init, events);
    var s := Run(init, events);
    NextKeepsInv(s, QueueTimer(id));
    assert CallInv(s.activeGeneration, s.calls[id]);
    TimeoutRefuses(s, id);
    RefusedIsGone(Next(s, QueueTimer(id)), id, s.calls[id].gate);
  }

  lemma TimeoutRefuses(s: State, id: nat)
    requires id < |s.calls| && s.calls[id].timer && s.calls[id].settled == 0
    ensures var t := Next(s, QueueTimer(id));
            && id < |t.calls| && t.calls[id].stage.Refused? && t.calls[id].settled == 1 && t.queued == s.queued - 1
            && t.calls[id].gate == s.calls[id].gate
  {
  }

  lemma RefusedIsGone(s: State, id: nat, c: Capability)
    requires Inv(s) && id < |s.calls| && s.calls[id].stage.Refused?
    ensures forall w :: w in GateOf(s, c).queue ==> w.id != id
  {
    WaitingMembers(s.calls, c);
    assert GateOf(s, c).queue == Waiting(s.calls, c);
  }

  // A call that waited was refused because its queue timer fired or its generation was left,
  // and a handler was aborted because its execution timer fired or its generation was left.
  lemma {:induction false} RefusalsAreExplained(init: State, events: seq<Event>, id: nat)
    requires Idle(init) && id < |Run(init, events).calls|
    ensures Explained(init, events, id, Run(init, events).calls[id])
  {
    var before, e := events[..|events| - 1], events[|events| - 1];
    var s := Run(init, before);
    Reachable(init, before);
    if id >= |s.calls| {
      ArrivalExplained(s, e, id);
    } else {
      RefusalsAreExplained(init, before, id);
      ReasonsStep(s, e, id);
      StaysExplained(init, events, s, id);
    }
  }

  lemma StaysExplained(init: State, events: seq<Event>, s: State, id: nat)
    requires events != [] && s == Run(init, events[..|events| - 1]) && Inv(s) && id < |s.calls|
    requires Explained(init, events[..|events| - 1], id, s.calls[id])
    requires id < |Next(s, events[|events| - 1]).calls|
    ensures Explained(init, events, id, Next(s, events[|events| - 1]).calls[id])
  {
    var e := events[|events| - 1];
    var c, t := s.calls[id], Next(s, e);
    ReasonsStep(s, e, id);
    assert e in events && forall x :: x in events[..|events| - 1] ==> x in events;
    if WasLeft(init, events[..|events| - 1], c.generation) { LeftBefore(init, events, c.generation); }
    if s.activeGeneration == Some(c.generation) && t.activeGeneration != Some(c.generation) {
      LeftNow(init, events, s, t, c.generation);
    }
  }

  // The objects of the source. Both gates hold a reference to the one budget.

  class QueueBudget {
    const limit: nat
    var queued: int

    constructor (limit: nat)
      ensures this.limit == limit && queued == 0
    {
      this.limit, queued := limit, 0;
    }

    method Enter() returns (entered: bool)
      modifies this
      ensures entered == (old(queued) < limit)
      ensures queued == old(queued) + if entered then 1 else 0
    {
      if queued >= limit { return false; }
      queued := queued + 1;
      return true;
    }

    method Leave()
      modifies this
      ensures queued == old(queued) - 1
    {
      queued := queued - 1;
    }
  }

  datatype Answer = Permitted | Enqueued | Busy

  class GateObject {
    const concurrency: nat
    const budget: QueueBudget
    var active: int
    var queue: seq<Waiter>
    ghost var grants: seq<nat>

    ghost function View(): Gate reads this {
      Gate(concurrency, active, queue, grants)
    }

    constructor (concurrency: nat, budget: QueueBudget)
      ensures View() == Gate(concurrency, 0, [], []) && this.budget == budget
    {
      this.concurrency, this.budget, active, queue, grants := concurrency, budget, 0, [], [];
    }

    method Acquire(id: nat, generation: int) returns (answer: Answer)
      modifies this, budget
      ensures answer == if old(active) < concurrency then Permitted
                        else if old(budget.queued) >= budget.limit then Busy else Enqueued
      ensures View() == if answer.Permitted? then old(View()).(active := old(active) + 1, grants := old(grants) + [id])
                        else if answer.Busy? then old(View())
                        else old(View()).(queue := old(queue) + [Waiter(id, generation)])
      ensures budget.queued == old(budget.queued) + if answer.Enqueued? then 1 else 0
    {
      if active < concurrency {
        active := active + 1;
        grants := grants + [id];
        return Permitted;
      }
      var entered := budget.Enter();
      if !entered { return Busy; }
      queue := queue + [Waiter(id, generation)];
      return Enqueued;
    }

    // Ids are distinct, so the direction of the search is immaterial.
    method IndexOf(id: nat) returns (index: int)
      ensures -1 <= index < |queue| && (index >= 0 ==> queue[index].id == id)
      ensures forall k :: index < k < |queue| ==> queue[k].id != id
    {
      index := |queue| - 1;
      while index >= 0 && queue[index].id != id
        invariant -1 <= index < |queue|
        invariant forall k :: index < k < |queue| ==> queue[k].id != id
      {
        index := index - 1;
      }
    }

    // The callback of a waiter's timer.
    method TimeOut(id: nat)
      modifies this, budget
      ensures View() == old(View()).(queue := Without(old(queue), id))
      ensures budget.queued == old(budget.queued) - 1
    {
      var index := IndexOf(id);
      WithoutAt(queue, id, index);
      if index >= 0 { queue := queue[..index] + queue[index + 1..]; }
      budget.Leave();
    }

    // Rejects the waiters of one generation, or all of them, from the back of the queue.
    method CancelGeneration(generation: Option<int>)
      modifies this, budget
      ensures View() == old(View()).(queue := Retained(old(queue), generation))
      ensures budget.queued == old(budget.queued) - (|old(queue)| - |queue|)
    {
      var index := |queue| - 1;
      ghost var before, n := queue, |queue|;
      assert before[..n] + Retained(before[n..], generation) == before;
      while index >= 0
        invariant index == n - 1 && 0 <= n <= |before|
        invariant queue == before[..n] + Retained(before[n..], generation)
        invariant View() == old(View()).(queue := queue)
        invariant budget.queued == old(budget.queued) - (|before| - |queue|)
      {
        n := n - 1;
        SpliceStep(before, queue, n, generation);
        if generation.None? || queue[index].generation == generation.value {
          queue := queue[..index] + queue[index + 1..];
          budget.Leave();
        }
        index := index - 1;
      }
      WholeRetained(before, generation);
    }

    // Hands the permit to the longest waiter, whose timer is cleared, or gives it back.
    method ReleasePermit() returns (next: Option<nat>)
      modifies this, budget
      ensures next == if old(queue) == [] then None else Some(old(queue)[0].id)
      ensures View() == if next.None? then old(View()).(active := old(active) - 1)
                        else old(View()).(queue := old(queue)[1..], grants := old(grants) + [next.value])
      ensures budget.queued == old(budget.queued) - if next.None? then 0 else 1
    {
      if queue == [] {
        active := active - 1;
        return None;
      }
      next := Some(queue[0].id);
      grants := grants + [queue[0].id];
      queue := queue[1..];
      budget.Leave();
    }
  }

  lemma {:induction false} WithoutAt(queue: seq<Waiter>, id: nat, index: int)
    requires -1 <= index < |queue| && (index >= 0 ==> queue[index].id == id)
    requires forall k :: index < k < |queue| ==> queue[k].id != id
    ensures Without(queue, id) == Spliced(queue, index)
    decreases |queue|
  {
    if index == |queue| - 1 {
      SplicedEnd(queue, id);
    } else {
      WithoutAt(queue[..|queue| - 1], id, index);
      SplicedLast(queue, index);
      WithoutEarlier(queue, id);
    }
  }

  lemma WithoutEarlier(queue: seq<Waiter>, id: nat)
    requires queue != [] && queue[|queue| - 1].id != id
    ensures Without(queue, id) == Without(queue[..|queue| - 1], id) + [queue[|queue| - 1]]
  {
  }

  lemma SplicedEnd(queue: seq<Waiter>, id: nat)
    requires queue != [] ==> queue[|queue| - 1].id == id
    ensures Without(queue, id) == Spliced(queue, |queue| - 1)
  {
    if queue != [] {
      var n := |queue| - 1;
      assert queue[n + 1..] == [] && queue[..n] + [] == queue[..n];
    }
  }

  // splice(index, 1), for an index that findIndex may have left at -1.
  function Spliced(queue: seq<Waiter>, index: int): seq<Waiter>
    requires -1 <= index < |queue|
  {
    if index < 0 then queue else queue[..index] + queue[index + 1..]
  }

  lemma SplicedLast(queue: seq<Waiter>, index: int)
    requires -1 <= index < |queue| - 1
    ensures var n := |queue| - 1; Spliced(queue, index) == Spliced(queue[..n], index) + [queue[n]]
  {
  }

  // One step of the backward loop that splices waiters out of the queue.
  lemma SpliceStep(before: seq<Waiter>, queue: seq<Waiter>, index: nat, generation: Option<int>)
    requires index < |before| && queue == before[..index + 1] + Retained(before[index + 1..], generation)
    ensures index < |queue| && queue[index] == before[index]
    ensures (if generation.None? || before[index].generation == generation.value then queue[..index] + queue[index + 1..] else queue)
         == before[..index] + Retained(before[index..], generation)
  {
    RetainedStep(before, index, generation);
    CutAt(before, queue, Retained(before[index + 1..], generation), index);
  }

  lemma CutAt(before: seq<Waiter>, queue: seq<Waiter>, rest: seq<Waiter>, index: nat)
    requires index < |before| && queue == before[..index + 1] + rest
    ensures index < |queue| && queue[index] == before[index]
    ensures queue[..index] + queue[index + 1..] == before[..index] + ([] + rest)
    ensures queue == before[..index] + ([before[index]] + rest)
  {
    assert before[..index + 1] == before[..index] + [before[index]];
    assert queue[index + 1..] == rest && queue[..index] == before[..index];
  }

  lemma RetainedStep(before: seq<Waiter>, index: nat, generation: Option<int>)
    requires index < |before|
    ensures Retained(before[index..], generation)
         == (if generation.None? || before[index].generation == generation.value then [] else [before[index]])
            + Retained(before[index + 1..], generation)
  {
    assert before[index..][1..] == before[index + 1..];
  }

  lemma WholeRetained(before: seq<Waiter>, generation: Option<int>)
    ensures before[..0] + Retained(before[0..], generation) == Retained(before, generation)
  {
    assert before[0..] == before;
  }

  function Retained(queue: seq<Waiter>, generation: Option<int>): seq<Waiter> {
    if queue == [] then []
    else (if generation.None? || queue[0].generation == generation.value then [] else [queue[0]])
         + Retained(queue[1..], generation)
  }

  lemma {:induction false} RetainedNone(queue: seq<Waiter>)
    ensures Retained(queue, None) == []
  {
    if queue != [] { RetainedNone(queue[1..]); }
  }

  class Executor {
    var activeGeneration: Option<int>
    const budget: QueueBudget
    const read: GateObject
    const write: GateObject
    var calls: seq<Call>  // the suspended activations of execute

    ghost predicate Valid() reads this, read, write, budget {
      read.budget == budget == write.budget && read != write
    }

    ghost function View(): State reads this, read, write, budget {
      State(activeGeneration, budget.limit, budget.queued, read.View(), write.View(), calls)
    }

    constructor (readConcurrency: nat, writeConcurrency: nat, queueLimit: nat)
      ensures Valid() && View() == Init(readConcurrency, writeConcurrency, queueLimit)
      ensures read.concurrency == readConcurrency && write.concurrency == writeConcurrency && budget.limit == queueLimit
      ensures fresh(read) && fresh(write) && fresh(budget)
    {
      var shared := new QueueBudget(queueLimit);
      budget := shared;
      read := new GateObject(readConcurrency, shared);
      write := new GateObject(writeConcurrency, shared);
      activeGeneration, calls := None, [];
    }

    function Gate(c: Capability): GateObject {
      if c.Read? then read else write
    }

    method Execute(c: Capability, generation: int)
      requires Valid()
      modifies this, read, write, budget
      ensures Valid() && View() == Next(old(View()), Event.Execute(c, generation))
    {
      if activeGeneration != Some(generation) { return; }
      var id := |calls|;
      var call := NewCall(c, generation);
      var answer := Gate(c).Acquire(id, generation);
      match answer {
        case Permitted => calls := calls + [call];
        case Busy => calls := calls + [call.(stage := Refused)];
        case Enqueued => calls := calls + [call.(stage := Queued, waited := true, timer := true)];
      }
    }

    method FireQueueTimer(id: nat)
      requires Valid() && id < |calls| && calls[id].timer
      modifies this, read, write, budget
      ensures Valid() && View() == Next(old(View()), QueueTimer(id))
    {
      Gate(calls[id].gate).TimeOut(id);
      calls := calls[id := calls[id].(stage := Refused, timer := false, settled := calls[id].settled + 1)];
    }

    // release(), run by the holder `id`.
    method ReturnPermit(id: nat)
      requires Valid() && id < |calls|
      modifies this, read, write, budget
      ensures Valid() && View() == Release(old(View()), id)
    {
      var next := Gate(calls[id].gate).ReleasePermit();
      calls := calls[id := calls[id].(stage := Done, registered := false, released := calls[id].released + 1)];
      if next.Some? && next.value < |calls| {
        var waiter := calls[next.value];
        calls := calls[next.value := waiter.(stage := Granted, timer := false, settled := waiter.settled + 1)];
      }
    }

    method BeginHandler(id: nat, throws: bool)
      requires Valid() && id < |calls| && calls[id].stage.Granted?
      modifies this, read, write, budget
      ensures Valid() && View() == Next(old(View()), Begin(id, throws))
    {
      if activeGeneration != Some(calls[id].generation) || throws {
        ReturnPermit(id);
      } else {
        calls := calls[id := calls[id].(stage := Running, handler := true, registered := true)];
      }
    }

    method FinishExecution(id: nat)
      requires Valid() && id < |calls| && calls[id].stage.Running? && (!calls[id].handler || calls[id].overdue)
      modifies this, read, write, budget
      ensures Valid() && View() == Next(old(View()), Finish(id))
    {
      if calls[id].overdue {
        calls := calls[id := calls[id].(stage := Draining, registered := false)];
      } else {
        ReturnPermit(id);
      }
    }

    method SettleHandler(id: nat)
      requires Valid() && id < |calls| && calls[id].handler
      modifies `calls
      ensures Valid() && View() == Next(old(View()), HandlerSettles(id))
    {
      calls := calls[id := calls[id].(handler := false)];
    }

    method FireExecutionTimer(id: nat)
      requires Valid() && id < |calls| && calls[id].stage.Running? && !calls[id].overdue
      modifies `calls
      ensures Valid() && View() == Next(old(View()), ExecutionTimer(id))
    {
      calls := calls[id := calls[id].(overdue := true, aborted := true)];
    }

    // The handler of a call that was answered late has settled: only now its permit goes back.
    method AfterDrain(id: nat)
      requires Valid() && id < |calls| && calls[id].stage.Draining? && !calls[id].handler
      modifies this, read, write, budget
      ensures Valid() && View() == Next(old(View()), HandlerDrained(id))
    {
      ReturnPermit(id);
    }

    // Rejects every waiter and aborts every registered controller.
    method CancelAll()
      requires Valid()
      modifies this, read, write, budget
      ensures Valid() && View() == CancelQueued(old(View()))
    {
      RetainedNone(read.queue);
      RetainedNone(write.queue);
      read.CancelGeneration(None);
      write.CancelGeneration(None);
      for k := 0 to |calls|
        invariant Valid() && |calls| == |old(calls)|
        invariant View() == CancelQueued(old(View())).(calls := calls)
        invariant forall i :: 0 <= i < k ==> calls[i] == Cancelled(old(calls)[i])
        invariant forall i :: k <= i < |calls| ==> calls[i] == old(calls)[i]
      {
        if calls[k].stage.Queued? {
          calls := calls[k := calls[k].(stage := Refused, timer := false, settled := calls[k].settled + 1)];
        } else if calls[k].registered {
          calls := calls[k := calls[k].(aborted := true)];
        }
      }
    }

    method Activate(generation: int)
      requires Valid()
      modifies this, read, write, budget
      ensures Valid() && View() == Next(old(View()), SetActiveGeneration(generation))
    {
      if activeGeneration.Some? && activeGeneration.value != generation { CancelAll(); }
      activeGeneration := Some(generation);
    }

    method Deactivate()
      requires Valid()
      modifies this, read, write, budget
      ensures Valid() && View() == Next(old(View()), ClearActiveGeneration)
    {
      activeGeneration := None;
      CancelAll();
    }
  }
}
