// The reconnecting WebSocket client. Sockets are numbered in the order they are created;
// what the network and the timers do to them is any list of events.
module Transport {
  import opened Options

  // A socket that was open is closing from the first sign of its end until its close event.
  datatype ReadyState = Connecting | Open | Closing | Closed

  datatype Kind = Opened | Received | Failed | Ended

  // An event that reached the listeners, and the socket it came from (none if forced).
  datatype Emission = Emission(kind: Kind, source: Option<nat>)

  datatype Client = Client(
    stopped: bool, socket: Option<nat>, states: seq<ReadyState>,
    reconnect: Option<nat>,  // the source's field for the reconnect timer
    timers: seq<nat>,        // the reconnect timers that are armed
    created: nat,            // how many of them were ever armed
    ping: Option<nat>,     // the socket the ping interval was started for
    pong: Option<nat>,     // the socket the pong deadline was armed for
    attempts: nat,
    emitted: seq<Emission>)

  function Init(): Client {
    Client(true, None, [], None, [], 0, None, None, 0, [])
  }

  function Emit(c: Client, kind: Kind, source: Option<nat>): Client {
    c.(emitted := c.emitted + [Emission(kind, source)])
  }

  function State(c: Client, id: nat): ReadyState {
    if id < |c.states| then c.states[id] else Closed
  }

  function SetState(c: Client, id: nat, r: ReadyState): Client {
    if id < |c.states| then c.(states := c.states[id := r]) else c
  }

  function Cleared(timers: seq<nat>, timer: nat): seq<nat> {
    if timers == [] then []
    else (if timers[0] == timer then [] else [timers[0]]) + Cleared(timers[1..], timer)
  }

  function ClearReconnect(c: Client): Client {
    if c.reconnect.None? then c else c.(reconnect := None, timers := Cleared(c.timers, c.reconnect.value))
  }

  function Connect(c: Client): Client {
    var d := ClearReconnect(c.(stopped := false));
    if d.socket.Some? && State(d, d.socket.value) != Closed then d
    else d.(socket := Some(|d.states|), states := d.states + [Connecting])
  }

  function ClearPing(c: Client): Client {
    c.(ping := None, pong := None)
  }

  function ScheduleReconnect(c: Client): Client {
    if c.stopped || c.reconnect.Some? then c
    else c.(attempts := c.attempts + 1, reconnect := Some(c.created), timers := c.timers + [c.created], created := c.created + 1)
  }

  // forceReconnect up to the point where the listeners hear about it. The socket it lets go
  // is terminated, but may still be heard from until its own close event.
  function Drop(c: Client): Client {
    Emit(ClearPing(c.(socket := None)), Ended, None)
  }

  function ForceReconnect(c: Client): Client {
    if c.stopped then c else ScheduleReconnect(Drop(c))
  }

  function Close(c: Client): Client {
    ClearPing(ClearReconnect(c.(stopped := true)).(socket := None))
  }

  function MarkReady(c: Client): Client {
    c.(attempts := 0)
  }

  predicate IsOpen(c: Client) {
    !c.stopped && c.socket.Some? && State(c, c.socket.value) == Open
  }

  predicate Up(r: ReadyState) {
    r.Open? || r.Closing?
  }

  // The current socket has opened, and its close event is still to come.
  predicate IsUp(c: Client) {
    !c.stopped && c.socket.Some? && Up(State(c, c.socket.value))
  }

  // The handlers of one socket, up to the point where the listeners run.
  function HearOpen(c: Client, id: nat): Client {
    var d := SetState(c, id, Open);
    if c.socket != Some(id) || c.stopped then d else Emit(d.(ping := Some(id), pong := None), Opened, Some(id))
  }

  function HearMessage(c: Client, id: nat): Client {
    if c.socket == Some(id) && !c.stopped then Emit(c, Received, Some(id)) else c
  }

  function HearError(c: Client, id: nat): Client {
    if c.socket == Some(id) && !c.stopped then Emit(c, Failed, Some(id)) else c
  }

  function HearClose(c: Client, id: nat): Client {
    var d := SetState(c, id, Closed);
    if c.socket != Some(id) then d else Emit(ClearPing(d.(socket := None)), Ended, Some(id))
  }

  // A socket opens at most once and is silent after its close event, whether or not it is
  // still the current one.
  predicate Enabled(c: Client, e: Event) {
    match e
    case SocketOpens(id) => id < |c.states| && c.states[id] == Connecting
    case SocketMessage(id) => id < |c.states| && Up(c.states[id])
    case SocketPong(id) => id < |c.states| && Up(c.states[id])
    case SocketCloseBegins(id) => id < |c.states| && c.states[id] == Open
    case SocketError(id) => id < |c.states| && c.states[id] != Closed
    case SocketCloses(id) => id < |c.states| && c.states[id] != Closed
    case ReconnectFires(k) => k < |c.timers|
    case PingFires => c.ping.Some?
    case PongExpires => c.pong.Some?
    case _ => true
  }

  datatype Event =
    | CallConnect
    | CallForceReconnect
    | CallClose
    | CallMarkReady
    | SocketOpens(id: nat)
    | SocketMessage(id: nat)
    | SocketPong(id: nat)
    | SocketError(id: nat)
    | SocketCloseBegins(id: nat)
    | SocketCloses(id: nat)
    | ReconnectFires(k: nat)
    | PingFires
    | PongExpires

  function Next(c: Client, e: Event): Client {
    if !Enabled(c, e) then c
    else
      match e
      case CallConnect => Connect(c)
      case CallForceReconnect => ForceReconnect(c)
      case CallClose => Close(c)
      case CallMarkReady => MarkReady(c)
      case SocketOpens(id) => HearOpen(c, id)
      case SocketMessage(id) => HearMessage(c, id)
      case SocketPong(id) => c.(pong := None)  // not guarded by the identity of the socket
      case SocketError(id) => HearError(c, id)
      case SocketCloseBegins(id) => SetState(c, id, Closing)
      case SocketCloses(id) =>
        var d := HearClose(c, id);
        if c.socket == Some(id) then ScheduleReconnect(d) else d
      case ReconnectFires(k) =>
        var d := c.(timers := c.timers[..k] + c.timers[k + 1..], reconnect := None);
        if d.stopped then d else Connect(d)
      case PingFires =>
        if c.socket != c.ping || State(c, c.ping.value) != Open then c else c.(pong := c.ping)
      case PongExpires => ForceReconnect(c.(pong := None))
  }

  function Run(c: Client, events: seq<Event>): Client {
    if events == [] then c else Next(Run(c, events[..|events| - 1]), events[|events| - 1])
  }

  ghost predicate Inv(c: Client) {
    && c.timers == (if c.reconnect.Some? then [c.reconnect.value] else [])
    && (c.stopped ==> c.socket.None? && c.reconnect.None?)
    && (!c.stopped ==> (c.socket.Some? <==> c.reconnect.None?))
    && (c.socket.Some? ==> c.socket.value < |c.states| && c.states[c.socket.value] != Closed)
    && (c.ping.Some? ==> c.ping == c.socket && Up(State(c, c.ping.value)))
    && (c.pong.Some? ==> c.pong == c.ping)
  }

  lemma ClearedOnly(c: Client)
    requires c.timers == (if c.reconnect.Some? then [c.reconnect.value] else [])
    ensures ClearReconnect(c).timers == []
  {
    if c.reconnect.Some? { assert c.timers[1..] == [] && Cleared(c.timers[1..], c.reconnect.value) == []; }
  }

  lemma CallKeepsInv(c: Client, e: Event)
    requires Inv(c) && (e.CallConnect? || e.CallForceReconnect? || e.CallClose? || e.CallMarkReady?)
    ensures Inv(Next(c, e))
  {
    ClearedOnly(c.(stopped := false));
    ClearedOnly(c.(stopped := true));
  }

  lemma TimerKeepsInv(c: Client, e: Event)
    requires Inv(c) && Enabled(c, e) && (e.ReconnectFires? || e.PingFires? || e.PongExpires?)
    ensures Inv(Next(c, e))
  {
    if e.ReconnectFires? { assert c.timers[..e.k] + c.timers[e.k + 1..] == []; }
  }

  lemma SocketKeepsInv(c: Client, e: Event)
    requires Inv(c) && Enabled(c, e)
    requires e.SocketOpens? || e.SocketMessage? || e.SocketPong? || e.SocketError? || e.SocketCloseBegins? || e.SocketCloses?
    ensures Inv(Next(c, e))
  {
  }

  lemma NextKeepsInv(c: Client, e: Event)
    requires Inv(c)
    ensures Inv(Next(c, e))
  {
    if e.CallConnect? || e.CallForceReconnect? || e.CallClose? || e.CallMarkReady? {
      CallKeepsInv(c, e);
    } else if Enabled(c, e) {
      if e.ReconnectFires? || e.PingFires? || e.PongExpires? { TimerKeepsInv(c, e); } else { SocketKeepsInv(c, e); }
    }
  }

  lemma {:induction false} RunKeepsInv(c: Client, events: seq<Event>)
    requires Inv(c)
    ensures Inv(Run(c, events))
  {
    if events != [] {
      RunKeepsInv(c, events[..|events| - 1]);
      NextKeepsInv(Run(c, events[..|events| - 1]), events[|events| - 1]);
    }
  }

  // A client that is not stopped has either a live socket and no armed reconnect timer, or no
  // socket and exactly one, which is the one its field holds; a stopped one has none of them.
  // A pong deadline only ever guards the current socket.
  lemma {:induction false} SocketOrTimer(events: seq<Event>)
    ensures var c := Run(Init(), events);
            && |c.timers| == (if c.stopped || c.socket.Some? then 0 else 1)
            && c.timers == (if c.reconnect.Some? then [c.reconnect.value] else [])
            && (c.stopped ==> c.socket.None?)
            && (c.socket.Some? ==> State(c, c.socket.value) != Closed)
            && (c.pong.Some? ==> c.pong == c.socket)
  {
    RunKeepsInv(Init(), events);
  }

  // How often the listeners heard from one socket.
  function Heard(emitted: seq<Emission>, id: nat): nat {
    if emitted == [] then 0
    else Heard(emitted[..|emitted| - 1], id) + if emitted[|emitted| - 1].source == Some(id) then 1 else 0
  }

  lemma HeardAppend(emitted: seq<Emission>, x: Emission, id: nat)
    ensures Heard(emitted + [x], id) == Heard(emitted, id) + if x.source == Some(id) then 1 else 0
  {
    assert (emitted + [x])[..|emitted|] == emitted;
  }

  lemma StepFromReplaced(c: Client, e: Event, id: nat)
    requires id < |c.states| && c.socket != Some(id)
    ensures var d := Next(c, e); id < |d.states| && d.socket != Some(id)
    ensures Heard(Next(c, e).emitted, id) == Heard(c.emitted, id)
  {
    var d := Next(c, e);
    if d.emitted != c.emitted {
      var x := d.emitted[|c.emitted|];
      assert d.emitted == c.emitted + [x];
      HeardAppend(c.emitted, x, id);
    }
  }

  // Once a socket is no longer the current one its listeners never hear from it again.
  lemma {:induction false} ReplacedSocketsAreSilent(c: Client, events: seq<Event>, id: nat)
    requires id < |c.states| && c.socket != Some(id)
    ensures Run(c, events).socket != Some(id) && id < |Run(c, events).states|
    ensures Heard(Run(c, events).emitted, id) == Heard(c.emitted, id)
  {
    if events != [] {
      ReplacedSocketsAreSilent(c, events[..|events| - 1], id);
      StepFromReplaced(Run(c, events[..|events| - 1]), events[|events| - 1], id);
    }
  }

  // The event comes from this socket, which is the current one.
  predicate Speaks(c: Client, e: Event, id: nat) {
    && Enabled(c, e) && c.socket == Some(id) && !c.stopped
    && (e == SocketOpens(id) || e == SocketMessage(id) || e == SocketError(id) || e == SocketCloses(id))
  }

  // How often a socket had something to say while it was the current one.
  function Spoken(events: seq<Event>, id: nat): nat {
    if events == [] then 0
    else
      var before := events[..|events| - 1];
      Spoken(before, id) + if Speaks(Run(Init(), before), events[|events| - 1], id) then 1 else 0
  }

  // What one event adds to what the listeners have heard.
  function Heeded(c: Client, e: Event): seq<Emission> {
    match e
    case SocketOpens(id) => if Speaks(c, e, id) then [Emission(Opened, Some(id))] else []
    case SocketMessage(id) => if Speaks(c, e, id) then [Emission(Received, Some(id))] else []
    case SocketError(id) => if Speaks(c, e, id) then [Emission(Failed, Some(id))] else []
    case SocketCloses(id) => if Speaks(c, e, id) then [Emission(Ended, Some(id))] else []
    case CallForceReconnect => if c.stopped then [] else [Emission(Ended, None)]
    case PongExpires => if c.stopped || c.pong.None? then [] else [Emission(Ended, None)]
    case _ => []
  }

  lemma EmittedBySocket(c: Client, e: Event)
    requires Inv(c) && (e.SocketOpens? || e.SocketMessage? || e.SocketError? || e.SocketCloses?)
    ensures Next(c, e).emitted == c.emitted + Heeded(c, e)
  {
  }

  lemma EmittedOtherwise(c: Client, e: Event)
    requires !(e.SocketOpens? || e.SocketMessage? || e.SocketError? || e.SocketCloses?)
    ensures Next(c, e).emitted == c.emitted + Heeded(c, e)
  {
  }

  lemma Emitted(c: Client, e: Event)
    requires Inv(c)
    ensures Next(c, e).emitted == c.emitted + Heeded(c, e)
  {
    if e.SocketOpens? || e.SocketMessage? || e.SocketError? || e.SocketCloses? { EmittedBySocket(c, e); } else { EmittedOtherwise(c, e); }
  }

  lemma HeededSpeaks(c: Client, e: Event, id: nat)
    ensures |Heeded(c, e)| <= 1
    ensures Speaks(c, e, id) <==> Heeded(c, e) != [] && Heeded(c, e)[0].source == Some(id)
  {
  }

  lemma HeardStep(c: Client, e: Event, id: nat, heeded: seq<Emission>)
    requires heeded == Heeded(c, e)
    ensures Heard(c.emitted + heeded, id) == Heard(c.emitted, id) + if Speaks(c, e, id) then 1 else 0
  {
    HeededSpeaks(c, e, id);
    if heeded == [] {
      assert c.emitted + heeded == c.emitted;
    } else {
      assert heeded == [heeded[0]];
      HeardAppend(c.emitted, heeded[0], id);
    }
  }

  // The listeners hear every event of the current socket, once, and nothing else of any.
  lemma {:induction false} HeardExactly(events: seq<Event>, id: nat)
    ensures Heard(Run(Init(), events).emitted, id) == Spoken(events, id)
  {
    if events != [] {
      var before := events[..|events| - 1];
      RunKeepsInv(Init(), before);
      HeardExactly(before, id);
      var c, e := Run(Init(), before), events[|events| - 1];
      Emitted(c, e);
      HeardStep(c, e, id, Heeded(c, e));
    }
  }

  // How many reconnects have been scheduled since the client was last marked ready.
  function Scheduled(events: seq<Event>): nat {
    if events == [] then 0
    else
      var before, e := events[..|events| - 1], events[|events| - 1];
      if e.CallMarkReady? then 0
      else Scheduled(before) + (Next(Run(Init(), before), e).created - Run(Init(), before).created) as nat
  }

  lemma ScheduledStep(c: Client, e: Event)
    ensures var d := Next(c, e);
            && c.created <= d.created <= c.created + 1
            && d.attempts == if e.CallMarkReady? then 0 else c.attempts + (d.created - c.created)
  {
  }

  // A client that has lost its socket goes on: the timer that is armed then connects a new
  // socket when it fires, and the attempts that the delays are computed from are the
  // reconnects scheduled since the session was last ready.
  lemma {:induction false} ReconnectingGoesOn(events: seq<Event>)
    ensures var c := Run(Init(), events);
            && c.attempts == Scheduled(events)
            && (c.timers != [] ==>
                  var d := Next(c, ReconnectFires(0));
                  d.socket == Some(|c.states|) && d.states == c.states + [Connecting] && d.timers == [])
  {
    RunKeepsInv(Init(), events);
    if events != [] {
      ReconnectingGoesOn(events[..|events| - 1]);
      ScheduledStep(Run(Init(), events[..|events| - 1]), events[|events| - 1]);
    }
    var c := Run(Init(), events);
    if c.timers != [] { assert c.timers[..0] + c.timers[1..] == []; }
  }

  // The pong handler, unlike the others, does not ask whose socket it serves. This is the
  // client whose handler would ask.
  predicate StalePong(c: Client, e: Event) {
    e.SocketPong? && Enabled(c, e) && c.socket != Some(e.id)
  }

  function RunGuarded(c: Client, events: seq<Event>): Client {
    if events == [] then c
    else
      var d, e := RunGuarded(c, events[..|events| - 1]), events[|events| - 1];
      if StalePong(d, e) then d else Next(d, e)
  }

  // The event at k is the pong of a replaced socket while a deadline guards the current one.
  predicate Disarms(events: seq<Event>, k: nat)
    requires k < |events|
  {
    StalePong(Run(Init(), events[..k]), events[k]) && Run(Init(), events[..k]).pong.Some?
  }

  predicate SameSoFar(events: seq<Event>, k: nat)
    requires k <= |events|
  {
    RunGuarded(Init(), events[..k]) == Run(Init(), events[..k])
  }

  lemma SameOneMore(events: seq<Event>, k: nat)
    requires k < |events| && SameSoFar(events, k)
    ensures SameSoFar(events, k + 1) <==> !Disarms(events, k)
  {
    assert events[..k + 1][..k] == events[..k];
  }

  lemma {:induction false} SameWhileHarmless(events: seq<Event>, k: nat)
    requires k <= |events| && forall j :: 0 <= j < k ==> !Disarms(events, j)
    ensures SameSoFar(events, k)
  {
    if k > 0 {
      SameWhileHarmless(events, k - 1);
      SameOneMore(events, k - 1);
    }
  }

  // In a whole run the missing test goes unnoticed if and only if no pong of a replaced socket
  // arrives while a deadline is armed.
  lemma StalePongsMatterIff(events: seq<Event>)
    ensures (forall k :: 0 <= k <= |events| ==> SameSoFar(events, k)) <==> (forall k :: 0 <= k < |events| ==> !Disarms(events, k))
  {
    if forall k :: 0 <= k <= |events| ==> SameSoFar(events, k) {
      forall k | 0 <= k < |events| ensures !Disarms(events, k) {
        assert SameSoFar(events, k) && SameSoFar(events, k + 1);
        SameOneMore(events, k);
      }
    }
    if forall k :: 0 <= k < |events| ==> !Disarms(events, k) {
      forall k | 0 <= k <= |events| ensures SameSoFar(events, k) { SameWhileHarmless(events, k); }
    }
  }

  // What is lost when one does: the deadline that would have dropped a silent connection.
  lemma LostDeadline(events: seq<Event>, k: nat)
    requires k < |events| && Disarms(events, k)
    ensures var c := Run(Init(), events[..k]);
            var d := Next(c, events[k]);
            && Next(c, PongExpires).socket.None? && |Next(c, PongExpires).timers| == 1
            && Next(d, PongExpires) == d && d.socket == c.socket
  {
    RunKeepsInv(Init(), events[..k]);
    NextKeepsInv(Run(Init(), events[..k]), PongExpires);
  }

  lemma RunAppend(c: Client, events: seq<Event>, e: Event)
    ensures Run(c, events + [e]) == Next(Run(c, events), e)
  {
    assert (events + [e])[..|events|] == events;
  }

  lemma ReplacedSocket() returns (events: seq<Event>)
    ensures |events| == 3
    ensures var c := Run(Init(), events);
            !c.stopped && c.socket.None? && c.states == [Open] && c.timers == [0] && c.reconnect == Some(0) && c.pong.None?
  {
    var a := [CallConnect];
    var b := a + [SocketOpens(0)];
    events := b + [CallForceReconnect];
    assert [] + [CallConnect] == a;
    RunAppend(Init(), [], CallConnect);
    RunAppend(Init(), a, SocketOpens(0));
    RunAppend(Init(), b, CallForceReconnect);
  }

  lemma Reconnected(c: seq<Event>) returns (events: seq<Event>)
    requires var d := Run(Init(), c); !d.stopped && d.socket.None? && d.states == [Open] && d.timers == [0] && d.reconnect == Some(0)
    ensures |events| == |c| + 2
    ensures var d := Run(Init(), events); !d.stopped && d.socket == Some(1) && d.states == [Open, Open] && d.ping == Some(1)
  {
    var d := c + [ReconnectFires(0)];
    events := d + [SocketOpens(1)];
    RunAppend(Init(), c, ReconnectFires(0));
    RunAppend(Init(), d, SocketOpens(1));
  }

  // A run that ends with such a pong.
  lemma StalePongExample()
    ensures exists events: seq<Event> :: |events| == 7 && Disarms(events, 6)
  {
    var c := ReplacedSocket();
    var e := Reconnected(c);
    var f := e + [PingFires];
    var g := f + [SocketPong(0)];
    RunAppend(Init(), e, PingFires);
    assert g[..6] == f && Disarms(g, 6);
  }

  // Equal jitter: half of the base, plus a random part of the other half.

  function Pow2(k: nat): nat {
    if k == 0 then 1 else 2 * Pow2(k - 1)
  }

  function Base(attempts: nat): nat {
    if 1000 * Pow2(attempts) < 15000 then 1000 * Pow2(attempts) else 15000
  }

  // Math.round, which rounds halves up.
  function Round(x: real): int {
    (x + 0.5).Floor
  }

  function Delay(attempts: nat, random: real): int {
    Round(Base(attempts) as real / 2.0 + random * (Base(attempts) as real) / 2.0)
  }

  lemma {:induction false} BaseIsEven(attempts: nat)
    ensures Base(attempts) % 2 == 0 && 1000 <= Base(attempts) <= 15000
    ensures Pow2(attempts) >= 1
  {
    if attempts > 0 { BaseIsEven(attempts - 1); }
  }

  // Every delay lies between half the base and the base, whatever the random number.
  lemma DelayBounds(attempts: nat, random: real)
    requires 0.0 <= random < 1.0
    ensures Base(attempts) / 2 <= Delay(attempts, random) <= Base(attempts)
  {
    BaseIsEven(attempts);
    var half := Base(attempts) / 2;
    var part := random * (Base(attempts) as real) / 2.0;
    assert Base(attempts) as real / 2.0 == half as real;
    Scaled(random, Base(attempts) as real);
    assert half as real <= half as real + part <= (2 * half) as real;
  }

  lemma Scaled(f: real, x: real)
    requires 0.0 <= f < 1.0 && 0.0 <= x
    ensures 0.0 <= f * x <= x
  {
  }

  class WebSocketClient {
    var stopped: bool
    var socket: Option<nat>
    var states: seq<ReadyState>  // of every socket created so far
    var reconnectTimer: Option<nat>
    var timers: seq<nat>  // the reconnect timers that are armed
    var created: nat
    var pingTimer: Option<nat>
    var pongDeadline: Option<nat>
    var attempts: nat
    ghost var emitted: seq<Emission>

    ghost function View(): Client reads this {
      Client(stopped, socket, states, reconnectTimer, timers, created, pingTimer, pongDeadline, attempts, emitted)
    }

    constructor ()
      ensures View() == Init()
    {
      stopped, socket, states, reconnectTimer, timers, created := true, None, [], None, [], 0;
      pingTimer, pongDeadline, attempts, emitted := None, None, 0, [];
    }

    predicate SocketIsOpen()
      reads this
      ensures SocketIsOpen() <==> IsOpen(View())
    {
      !stopped && socket.Some? && socket.value < |states| && states[socket.value] == Open
    }

    method ClearTimer()
      modifies `reconnectTimer, `timers
      ensures View() == ClearReconnect(old(View()))
    {
      if reconnectTimer.Some? {
        timers := Cleared(timers, reconnectTimer.value);
        reconnectTimer := None;
      }
    }

    method ConnectSocket()
      modifies this
      ensures View() == Connect(old(View()))
    {
      stopped := false;
      ClearTimer();
      if socket.Some? && (socket.value < |states| && states[socket.value] != Closed) { return; }
      socket := Some(|states|);
      states := states + [Connecting];
    }

    method Schedule()
      modifies this
      ensures View() == ScheduleReconnect(old(View()))
    {
      if stopped || reconnectTimer.Some? { return; }
      attempts := attempts + 1;
      reconnectTimer, timers, created := Some(created), timers + [created], created + 1;
    }

    // forceReconnect, before and after its listeners run.
    method DropSocket()
      modifies this
      ensures View() == Drop(old(View()))
    {
      socket := None;
      pingTimer, pongDeadline := None, None;
      emitted := emitted + [Emission(Ended, None)];
    }

    method Reconnect()
      modifies this
      ensures View() == ForceReconnect(old(View()))
    {
      if stopped { return; }
      DropSocket();
      Schedule();
    }

    method CloseClient()
      modifies this
      ensures View() == Close(old(View()))
    {
      stopped := true;
      ClearTimer();
      pingTimer, pongDeadline := None, None;
      socket := None;
    }

    method OnOpen(id: nat) returns (heard: bool)
      requires id < |states| && states[id] == Connecting
      modifies this
      ensures View() == HearOpen(old(View()), id)
      ensures heard <==> old(socket) == Some(id) && !old(stopped)
    {
      states := states[id := Open];
      if socket != Some(id) || stopped { return false; }
      pongDeadline := None;
      pingTimer := Some(id);
      emitted := emitted + [Emission(Opened, Some(id))];
      return true;
    }

    method OnMessage(id: nat) returns (heard: bool)
      modifies this
      ensures View() == HearMessage(old(View()), id)
      ensures heard <==> old(socket) == Some(id) && !old(stopped)
    {
      heard := socket == Some(id) && !stopped;
      if heard { emitted := emitted + [Emission(Received, Some(id))]; }
    }

    method OnClose(id: nat) returns (heard: bool)
      requires id < |states|
      modifies this
      ensures View() == HearClose(old(View()), id)
      ensures heard <==> old(socket) == Some(id)
    {
      states := states[id := Closed];
      if socket != Some(id) { return false; }
      socket := None;
      pingTimer, pongDeadline := None, None;
      emitted := emitted + [Emission(Ended, Some(id))];
      return true;
    }

    method FirePing()
      requires pingTimer.Some?
      modifies this
      ensures View() == Next(old(View()), PingFires)
    {
      if socket != pingTimer || !(pingTimer.value < |states| && states[pingTimer.value] == Open) { return; }
      pongDeadline := pingTimer;
    }

    method FireReconnect(k: nat)
      requires k < |timers|
      modifies this
      ensures View() == Next(old(View()), ReconnectFires(k))
    {
      timers := timers[..k] + timers[k + 1..];
      reconnectTimer := None;
      if !stopped { ConnectSocket(); }
    }
  }
}
