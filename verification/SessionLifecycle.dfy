// The authenticated session on top of the reconnecting transport. Every connection attempt
// gets a generation of its own; asynchronous continuations carry the generation they were
// captured in and must do nothing once it is over.
module SessionLifecycle {
  import opened Options
  import Transport

  // What the control plane can send, as far as the lifecycle tells it apart.
  datatype Message = Malformed | Handshake(answer: Answer) | Request | Other

  datatype Answer = Rejected | Provisional | Accepted

  datatype FrameKind = HandshakeFrame | Response | Invalid | Heartbeat | SnapshotFrame

  // A frame that was put on the wire: the generation that was captured for it, the generation
  // at that moment and the socket it went to.
  datatype Frame = Frame(kind: FrameKind, captured: nat, generation: nat, ready: bool, socket: Option<nat>)

  // What an authenticated session installs and arms.
  datatype Parts = Parts(
    ready: bool,
    deadline: Option<nat>,    // handshake deadline, armed in this generation
    heartbeat: Option<nat>,   // heartbeat interval, started in this generation
    policy: Option<nat>,      // generation of the router's session policy
    executor: Option<nat>,    // active generation of the tool executor
    snapshots: Option<nat>)   // generation that started the snapshot manager, while it is active

  // Continuations, with the generation each was captured in.
  datatype Pending = Pending(
    probes: seq<nat>,         // capability probes not yet answered
    responses: seq<nat>,      // tool requests not yet answered
    retries: seq<nat>,        // provisional retry timers
    collections: seq<nat>)    // snapshot collections in flight

  datatype Session = Session(
    linux: bool,              // which snapshot manager it has; see Collected
    client: Transport.Client,
    running: bool, generation: nat, helperReady: bool,
    parts: Parts,
    pending: Pending,
    peers: map<nat, nat>,     // the socket whose opening began a generation
    frames: seq<Frame>)

  datatype Event =
    | Start
    | Stop
    | SocketOpens(id: nat)
    | SocketReceives(id: nat, message: Message, fits: bool)
    | SocketCloses(id: nat)
    | TransportEvent(e: Transport.Event)      // pings, pongs, errors, the reconnect timer
    | PongExpires
    | ProbeAnswers(k: nat, usable: bool, fits: bool)
    | ResponseReady(k: nat, fits: bool)
    | RetryFires(k: nat)
    | DeadlineFires
    | HeartbeatFires(fits: bool)
    | SnapshotBegins
    | SnapshotReady(k: nat, fits: bool)

  const CLEARED := Parts(false, None, None, None, None, None)

  function Init(linux: bool): Session {
    Session(linux, Transport.Init(), false, 0, false, CLEARED, Pending([], [], [], []), map[], [])
  }

  function ClearSession(s: Session): Session {
    s.(parts := CLEARED)
  }

  // The 'close' listener.
  function Closed(s: Session): Session {
    if !s.running then s else ClearSession(s.(generation := s.generation + 1))
  }

  // transport.forceReconnect with its listener run in the middle.
  function ForceReconnect(s: Session): Session {
    if s.client.stopped then s
    else
      var t := Closed(s.(client := Transport.Drop(s.client)));
      t.(client := Transport.ScheduleReconnect(t.client))
  }

  // transport.send: an open socket and room in its outbound buffer.
  predicate CanSend(s: Session, fits: bool) {
    Transport.IsOpen(s.client) && fits
  }

  function Send(s: Session, kind: FrameKind, captured: nat): Session {
    s.(frames := s.frames + [Frame(kind, captured, s.generation, s.parts.ready, s.client.socket)])
  }

  function Disarmed(s: Session): Session {
    s.(parts := s.parts.(deadline := None))
  }

  function Without(captured: seq<nat>, k: nat): seq<nat>
    requires k < |captured|
  {
    captured[..k] + captured[k + 1..]
  }

  function DropProbe(s: Session, k: nat): Session
    requires k < |s.pending.probes|
  {
    s.(pending := s.pending.(probes := Without(s.pending.probes, k)))
  }

  function DropResponse(s: Session, k: nat): Session
    requires k < |s.pending.responses|
  {
    s.(pending := s.pending.(responses := Without(s.pending.responses, k)))
  }

  function DropRetry(s: Session, k: nat): Session
    requires k < |s.pending.retries|
  {
    s.(pending := s.pending.(retries := Without(s.pending.retries, k)))
  }

  function DropCollection(s: Session, k: nat): Session
    requires k < |s.pending.collections|
  {
    s.(pending := s.pending.(collections := Without(s.pending.collections, k)))
  }

  function Started(s: Session): Session {
    if s.running then s
    else
      var t := ClearSession(s.(running := true, generation := s.generation + 1));
      t.(client := Transport.Connect(t.client))
  }

  function Stopped(s: Session): Session {
    var t := ClearSession(s.(running := false, generation := s.generation + 1));
    t.(client := Transport.Close(t.client))
  }

  // The 'open' listener up to the capability probe.
  function Opened(s: Session, id: nat): Session {
    if !s.running then s
    else
      var g := s.generation + 1;
      ClearSession(s.(generation := g, peers := s.peers[g := id], helperReady := false,
                      pending := s.pending.(probes := s.pending.probes + [g])))
  }

  // The 'open' listener after the probe of generation g.
  function Probed(s: Session, g: nat, usable: bool, fits: bool): Session {
    if !s.running || g != s.generation || !Transport.IsOpen(s.client) then s
    else
      var t := s.(helperReady := usable);
      if !CanSend(t, fits) then ForceReconnect(t)
      else
        var u := Send(t, HandshakeFrame, g);
        u.(parts := u.parts.(deadline := Some(u.generation)))
  }

  function Install(s: Session): Session {
    var g := Some(s.generation);
    s.(parts := s.parts.(ready := true, policy := g, executor := g, snapshots := g, heartbeat := g),
       client := Transport.MarkReady(s.client))
  }

  function Retried(s: Session): Session {
    s.(pending := s.pending.(retries := s.pending.retries + [s.generation]))
  }

  // The 'message' listener.
  function Received(s: Session, message: Message, fits: bool): Session {
    if !s.running then s
    else if message.Malformed? then ForceReconnect(s)
    else if !s.parts.ready then
      if !message.Handshake? || message.answer.Rejected? then ForceReconnect(s)
      else if message.answer.Provisional? then Retried(Disarmed(s))
      else Install(Disarmed(s))
    else if !message.Request? then
      if CanSend(s, fits) then Send(s, Invalid, s.generation) else ForceReconnect(s)
    else s.(pending := s.pending.(responses := s.pending.responses + [s.generation]))
  }

  // The 'message' listener after the router has answered a request of generation g.
  function Answered(s: Session, g: nat, fits: bool): Session {
    if !s.parts.ready || g != s.generation then s
    else if CanSend(s, fits) then Send(s, Response, g) else ForceReconnect(s)
  }

  // The end of a collection that began in generation g. Its payload reaches the session only
  // if the manager still serves g; the Linux manager compresses after it has tested that.
  function Collected(s: Session, g: nat, fits: bool): Session {
    if (s.linux || s.parts.snapshots == Some(g)) && s.parts.ready && CanSend(s, fits) then Send(s, SnapshotFrame, g) else s
  }

  function Beat(s: Session, fits: bool): Session
    requires s.parts.heartbeat.Some?
  {
    if s.parts.ready && s.parts.heartbeat.value == s.generation then
      if CanSend(s, fits) then Send(s, Heartbeat, s.parts.heartbeat.value) else ForceReconnect(s)
    else s
  }

  function HeardOpen(s: Session, id: nat): Session {
    var t := s.(client := Transport.HearOpen(s.client, id));
    if s.client.socket == Some(id) && !s.client.stopped then Opened(t, id) else t
  }

  function HeardMessage(s: Session, id: nat, message: Message, fits: bool): Session {
    var t := s.(client := Transport.HearMessage(s.client, id));
    if s.client.socket == Some(id) && !s.client.stopped then Received(t, message, fits) else t
  }

  function HeardClose(s: Session, id: nat): Session {
    var t := s.(client := Transport.HearClose(s.client, id));
    if s.client.socket == Some(id) then
      var u := Closed(t);
      u.(client := Transport.ScheduleReconnect(u.client))
    else t
  }

  predicate Enabled(s: Session, e: Event) {
    match e
    case SocketOpens(id) => Transport.Enabled(s.client, Transport.SocketOpens(id))
    case SocketReceives(id, _, _) => Transport.Enabled(s.client, Transport.SocketMessage(id))
    case SocketCloses(id) => Transport.Enabled(s.client, Transport.SocketCloses(id))
    case TransportEvent(e) => e.SocketPong? || e.SocketError? || e.SocketCloseBegins? || e.ReconnectFires? || e.PingFires?
    case PongExpires => s.client.pong.Some?
    case ProbeAnswers(k, _, _) => k < |s.pending.probes|
    case ResponseReady(k, _) => k < |s.pending.responses|
    case RetryFires(k) => k < |s.pending.retries|
    case DeadlineFires => s.parts.deadline.Some?
    case HeartbeatFires(_) => s.parts.heartbeat.Some?
    case SnapshotBegins => s.parts.snapshots.Some?
    case SnapshotReady(k, _) => k < |s.pending.collections|
    case _ => true
  }

  function Next(s: Session, e: Event): Session {
    if !Enabled(s, e) then s
    else
      match e
      case Start => Started(s)
      case Stop => Stopped(s)
      case SocketOpens(id) => HeardOpen(s, id)
      case SocketReceives(id, message, fits) => HeardMessage(s, id, message, fits)
      case SocketCloses(id) => HeardClose(s, id)
      case TransportEvent(e) => s.(client := Transport.Next(s.client, e))
      case PongExpires => ForceReconnect(s.(client := s.client.(pong := None)))
      case ProbeAnswers(k, usable, fits) => Probed(DropProbe(s, k), s.pending.probes[k], usable, fits)
      case ResponseReady(k, fits) => Answered(DropResponse(s, k), s.pending.responses[k], fits)
      case RetryFires(k) =>
        if s.pending.retries[k] == s.generation then ForceReconnect(DropRetry(s, k)) else DropRetry(s, k)
      case DeadlineFires => ForceReconnect(Disarmed(s))
      case HeartbeatFires(fits) => Beat(s, fits)
      case SnapshotBegins => s.(pending := s.pending.(collections := s.pending.collections + [s.parts.snapshots.value]))
      case SnapshotReady(k, fits) => Collected(DropCollection(s, k), s.pending.collections[k], fits)
  }

  function Run(s: Session, events: seq<Event>): Session {
    if events == [] then s else Next(Run(s, events[..|events| - 1]), events[|events| - 1])
  }

  // The parts of a session stand or fall together.
  ghost predicate Agreement(s: Session) {
    var installed := if s.parts.ready then Some(s.generation) else None;
    && s.parts.policy == installed && s.parts.executor == installed && s.parts.snapshots == installed && s.parts.heartbeat == installed
  }

  // Connection, generation and session parts.
  ghost predicate Linked(s: Session) {
    && Transport.Inv(s.client)
    && s.running == !s.client.stopped
    && Agreement(s)
    && (s.parts.deadline.Some? ==> s.parts.deadline.value == s.generation)
    // A current socket that has opened is the one that began the current generation.
    && (Transport.IsUp(s.client) ==> s.generation in s.peers && s.client.socket == Some(s.peers[s.generation]))
    && (s.parts.ready || s.parts.deadline.Some? ==> s.running && Transport.IsUp(s.client))
  }

  ghost predicate UpTo(captured: seq<nat>, generation: nat) {
    forall g :: g in captured ==> g <= generation
  }

  // What starts and stops the session, and what the sockets do.
  predicate FromOutside(e: Event) {
    e.Start? || e.Stop? || e.SocketOpens? || e.SocketReceives? || e.SocketCloses? || e.TransportEvent?
  }

  // Nothing comes from a generation that has not begun.
  ghost predicate Bounded(s: Session) {
    && (forall g :: g in s.peers ==> g <= s.generation)
    && UpTo(s.pending.probes, s.generation) && UpTo(s.pending.responses, s.generation)
    && UpTo(s.pending.retries, s.generation) && UpTo(s.pending.collections, s.generation)
  }

  ghost predicate FrameInv(s: Session, f: Frame) {
    && f.captured <= f.generation <= s.generation
    && (f.captured == f.generation || (s.linux && f.kind.SnapshotFrame?))
    && f.generation in s.peers && f.socket == Some(s.peers[f.generation])
    && (f.ready || f.kind.HandshakeFrame?)
  }

  ghost predicate Framed(s: Session) {
    forall k :: 0 <= k < |s.frames| ==> FrameInv(s, s.frames[k])
  }

  ghost predicate Inv(s: Session) {
    Linked(s) && Bounded(s) && Framed(s)
  }

  // --- Connection, generation and session parts ---

  // Every way a connection ends: the generation is over, nothing stays installed, and no
  // socket is open.
  lemma EndStaysLinked(s: Session, client: Transport.Client, running: bool)
    requires Transport.Inv(client) && !Transport.IsUp(client) && running == !client.stopped
    ensures Linked(ClearSession(s.(generation := s.generation + 1, client := client, running := running)))
  {
  }

  lemma ForceReconnectStaysLinked(s: Session)
    requires Linked(s)
    ensures Linked(ForceReconnect(s))
  {
    if !s.client.stopped {
      var client := Transport.ScheduleReconnect(Transport.Drop(s.client));
      Transport.NextKeepsInv(s.client, Transport.CallForceReconnect);
      EndStaysLinked(s, client, s.running);
      assert ForceReconnect(s) == ClearSession(s.(generation := s.generation + 1, client := client));
    }
  }

  lemma OpenStaysLinked(s: Session, id: nat)
    requires Linked(s) && Enabled(s, SocketOpens(id))
    ensures Linked(Next(s, SocketOpens(id)))
  {
    var client := Transport.HearOpen(s.client, id);
    Transport.NextKeepsInv(s.client, Transport.SocketOpens(id));
    if s.client.socket == Some(id) && !s.client.stopped {
      OpenedIsLinked(s.(client := client), id);
    } else {
      OtherClientStaysLinked(s, client);
    }
  }

  lemma OpenedIsLinked(s: Session, id: nat)
    requires Transport.Inv(s.client) && s.client.socket == Some(id) && s.running == !s.client.stopped && s.running
    ensures Linked(Opened(s, id))
  {
  }

  lemma OtherClientStaysLinked(s: Session, client: Transport.Client)
    requires Linked(s) && Transport.Inv(client) && client.socket == s.client.socket && client.stopped == s.client.stopped
    requires Transport.IsUp(client) == Transport.IsUp(s.client)
    ensures Linked(s.(client := client))
  {
  }

  lemma CloseStaysLinked(s: Session, id: nat)
    requires Linked(s) && Enabled(s, SocketCloses(id))
    ensures Linked(Next(s, SocketCloses(id)))
  {
    Transport.NextKeepsInv(s.client, Transport.SocketCloses(id));
    if s.client.socket == Some(id) {
      var client := Transport.ScheduleReconnect(Transport.HearClose(s.client, id));
      EndStaysLinked(s, client, s.running);
      assert Next(s, SocketCloses(id)) == ClearSession(s.(generation := s.generation + 1, client := client));
    }
  }

  lemma HearingStaysLinked(s: Session, id: nat)
    requires Linked(s)
    ensures Linked(s.(client := Transport.HearMessage(s.client, id)))
  {
  }

  lemma InstallStaysLinked(s: Session)
    requires Linked(s) && s.running && Transport.IsUp(s.client)
    ensures Linked(Install(Disarmed(s)))
  {
  }

  lemma AnswerStaysLinked(s: Session, fits: bool)
    requires Linked(s)
    ensures Linked(Retried(Disarmed(s))) && (CanSend(s, fits) ==> Linked(Send(s, Invalid, s.generation)))
    ensures Linked(s.(pending := s.pending.(responses := s.pending.responses + [s.generation])))
  {
  }

  lemma ReceivedStaysLinked(s: Session, message: Message, fits: bool)
    requires Linked(s) && (s.running ==> Transport.IsUp(s.client))
    ensures Linked(Received(s, message, fits))
  {
    ForceReconnectStaysLinked(s);
    if s.running { InstallStaysLinked(s); }
    AnswerStaysLinked(s, fits);
  }

  lemma ReceiveStaysLinked(s: Session, id: nat, message: Message, fits: bool)
    requires Linked(s) && Enabled(s, SocketReceives(id, message, fits))
    ensures Linked(Next(s, SocketReceives(id, message, fits)))
  {
    HearingStaysLinked(s, id);
    if s.client.socket == Some(id) && !s.client.stopped {
      ReceivedStaysLinked(s.(client := Transport.HearMessage(s.client, id)), message, fits);
    }
  }

  lemma ProbedStaysLinked(s: Session, g: nat, usable: bool, fits: bool)
    requires Linked(s)
    ensures Linked(Probed(s, g, usable, fits))
  {
    ForceReconnectStaysLinked(s.(helperReady := usable));
  }

  lemma DeadlinesStayLinked(s: Session)
    requires Linked(s)
    ensures Linked(ForceReconnect(Disarmed(s)))
    ensures Linked(ForceReconnect(s.(client := s.client.(pong := None))))
  {
    ForceReconnectStaysLinked(Disarmed(s));
    ForceReconnectStaysLinked(s.(client := s.client.(pong := None)));
  }

  lemma StartStopStayLinked(s: Session)
    requires Linked(s)
    ensures Linked(Next(s, Start)) && Linked(Next(s, Stop))
  {
    Transport.NextKeepsInv(s.client, Transport.CallClose);
    Transport.NextKeepsInv(s.client, Transport.CallConnect);
    EndStaysLinked(s, Transport.Close(s.client), false);
    if !s.running { EndStaysLinked(s, Transport.Connect(s.client), true); }
  }

  lemma OutsideStaysLinked(s: Session, e: Event)
    requires Linked(s) && Enabled(s, e) && FromOutside(e)
    ensures Linked(Next(s, e))
  {
    match e
    case Start => StartStopStayLinked(s);
    case Stop => StartStopStayLinked(s);
    case SocketOpens(id) => OpenStaysLinked(s, id);
    case SocketReceives(id, message, fits) => ReceiveStaysLinked(s, id, message, fits);
    case SocketCloses(id) => CloseStaysLinked(s, id);
    case TransportEvent(x) => Transport.NextKeepsInv(s.client, x);
  }

  lemma AnsweredStaysLinked(s: Session, g: nat, fits: bool)
    requires Linked(s)
    ensures Linked(Answered(s, g, fits))
  {
    ForceReconnectStaysLinked(s);
  }

  lemma RetryStaysLinked(s: Session, k: nat)
    requires Linked(s) && k < |s.pending.retries|
    ensures Linked(Next(s, RetryFires(k)))
  {
    ForceReconnectStaysLinked(DropRetry(s, k));
  }

  lemma ProbeStaysLinked(s: Session, k: nat, usable: bool, fits: bool)
    requires Linked(s) && Enabled(s, ProbeAnswers(k, usable, fits))
    ensures Linked(Next(s, ProbeAnswers(k, usable, fits)))
  {
    ProbedStaysLinked(DropProbe(s, k), s.pending.probes[k], usable, fits);
  }

  lemma ResponseStaysLinked(s: Session, k: nat, fits: bool)
    requires Linked(s) && Enabled(s, ResponseReady(k, fits))
    ensures Linked(Next(s, ResponseReady(k, fits)))
  {
    AnsweredStaysLinked(DropResponse(s, k), s.pending.responses[k], fits);
  }

  lemma HeartbeatStaysLinked(s: Session, fits: bool)
    requires Linked(s) && Enabled(s, HeartbeatFires(fits))
    ensures Linked(Next(s, HeartbeatFires(fits)))
  {
    ForceReconnectStaysLinked(s);
  }

  lemma SnapshotsStayLinked(s: Session, e: Event)
    requires Linked(s) && Enabled(s, e) && (e.SnapshotBegins? || e.SnapshotReady?)
    ensures Linked(Next(s, e))
  {
  }

  lemma StepStaysLinked(s: Session, e: Event)
    requires Linked(s) && Enabled(s, e)
    ensures Linked(Next(s, e))
  {
    if FromOutside(e) {
      OutsideStaysLinked(s, e);
    } else {
      match e
      case ProbeAnswers(k, usable, fits) => ProbeStaysLinked(s, k, usable, fits);
      case ResponseReady(k, fits) => ResponseStaysLinked(s, k, fits);
      case RetryFires(k) => RetryStaysLinked(s, k);
      case HeartbeatFires(fits) => HeartbeatStaysLinked(s, fits);
      case DeadlineFires => DeadlinesStayLinked(s);
      case PongExpires => DeadlinesStayLinked(s);
      case SnapshotBegins => SnapshotsStayLinked(s, e);
      case SnapshotReady(_, _) => SnapshotsStayLinked(s, e);
    }
  }

  // --- What is captured comes from a generation that has begun ---

  // How a step may change what is captured and which sockets began a generation.
  ghost predicate Captures(before: seq<nat>, after: seq<nat>, generation: nat) {
    forall g :: g in after ==> g in before || g == generation
  }

  ghost predicate Extends(before: map<nat, nat>, after: map<nat, nat>, generation: nat) {
    && (forall g :: g in after ==> g in before || g == generation)
    && (forall g :: g in before && g != generation ==> g in after && after[g] == before[g])
  }

  ghost predicate Grows(s: Session, t: Session) {
    && s.generation <= t.generation && t.linux == s.linux
    && Captures(s.pending.probes, t.pending.probes, t.generation) && Captures(s.pending.responses, t.pending.responses, t.generation)
    && Captures(s.pending.retries, t.pending.retries, t.generation) && Captures(s.pending.collections, t.pending.collections, t.generation)
    && (t.peers == s.peers || (s.generation < t.generation && Extends(s.peers, t.peers, t.generation)))
  }

  lemma ForceReconnectGrows(s: Session)
    ensures var t := ForceReconnect(s);
            && s.generation <= t.generation && t.linux == s.linux && t.peers == s.peers && t.frames == s.frames
            && t.pending.probes == s.pending.probes && t.pending.responses == s.pending.responses && t.pending.retries == s.pending.retries && t.pending.collections == s.pending.collections
            && (t.generation == s.generation ==> t.parts.ready == s.parts.ready && t.parts.deadline == s.parts.deadline)
            && (t.generation > s.generation ==> !t.parts.ready)
  {
  }

  lemma ReceivedGrows(s: Session, message: Message, fits: bool)
    ensures Grows(s, Received(s, message, fits))
  {
    ForceReconnectGrows(s);
  }

  lemma OpenGrows(s: Session, id: nat)
    ensures Grows(s, HeardOpen(s, id))
  {
  }

  lemma ProbedGrows(s: Session, k: nat, usable: bool, fits: bool)
    requires k < |s.pending.probes|
    ensures Grows(s, Next(s, ProbeAnswers(k, usable, fits)))
  {
    ForceReconnectGrows(DropProbe(s, k).(helperReady := usable));
  }

  lemma TurnGrows(s: Session, id: nat)
    ensures Grows(s, Started(s)) && Grows(s, Stopped(s)) && Grows(s, HeardClose(s, id))
  {
  }

  lemma OutsideGrows(s: Session, e: Event)
    requires Enabled(s, e) && FromOutside(e)
    ensures Grows(s, Next(s, e))
  {
    match e
    case SocketOpens(id) => OpenGrows(s, id);
    case SocketReceives(id, message, fits) => ReceivedGrows(s.(client := Transport.HearMessage(s.client, id)), message, fits);
    case SocketCloses(id) => TurnGrows(s, id);
    case TransportEvent(_) =>
    case _ => TurnGrows(s, 0);
  }

  lemma ResponseGrows(s: Session, k: nat, fits: bool)
    requires k < |s.pending.responses|
    ensures Grows(s, Next(s, ResponseReady(k, fits)))
  {
    ForceReconnectGrows(DropResponse(s, k));
  }

  lemma RetryGrows(s: Session, k: nat)
    requires k < |s.pending.retries|
    ensures Grows(s, Next(s, RetryFires(k)))
  {
    ForceReconnectGrows(DropRetry(s, k));
  }

  lemma SnapshotsGrow(s: Session, k: nat, fits: bool)
    ensures Agreement(s) && s.parts.snapshots.Some? ==> Grows(s, Next(s, SnapshotBegins))
    ensures k < |s.pending.collections| ==> Grows(s, Next(s, SnapshotReady(k, fits)))
  {
  }

  lemma HeartbeatGrows(s: Session, fits: bool)
    requires s.parts.heartbeat.Some?
    ensures Grows(s, Next(s, HeartbeatFires(fits)))
  {
    ForceReconnectGrows(s);
  }

  lemma DeadlineGrows(s: Session)
    requires s.parts.deadline.Some?
    ensures Grows(s, Next(s, DeadlineFires))
  {
    ForceReconnectGrows(Disarmed(s));
  }

  lemma PongDeadlineGrows(s: Session)
    requires s.client.pong.Some?
    ensures Grows(s, Next(s, PongExpires))
  {
    ForceReconnectGrows(s.(client := s.client.(pong := None)));
  }

  lemma StepGrows(s: Session, e: Event)
    requires Linked(s) && Enabled(s, e)
    ensures Grows(s, Next(s, e))
  {
    if FromOutside(e) {
      OutsideGrows(s, e);
    } else {
      match e
      case ProbeAnswers(k, usable, fits) => ProbedGrows(s, k, usable, fits);
      case ResponseReady(k, fits) => ResponseGrows(s, k, fits);
      case RetryFires(k) => RetryGrows(s, k);
      case HeartbeatFires(fits) => HeartbeatGrows(s, fits);
      case DeadlineFires => DeadlineGrows(s);
      case PongExpires => PongDeadlineGrows(s);
      case SnapshotBegins => SnapshotsGrow(s, 0, true);
      case SnapshotReady(k, fits) => SnapshotsGrow(s, k, fits);
    }
  }

  lemma StepStaysBounded(s: Session, e: Event)
    requires Linked(s) && Bounded(s) && Enabled(s, e)
    ensures Bounded(Next(s, e))
  {
    StepGrows(s, e);
  }

  // --- Frames ---

  // A step sends at most one frame, in the generation that it keeps.
  ghost predicate SendsOne(s: Session, t: Session) {
    t.frames == s.frames
    || (t.generation == s.generation && t.peers == s.peers
        && |t.frames| == |s.frames| + 1 && t.frames[..|s.frames|] == s.frames
        && FrameInv(t, t.frames[|s.frames|]) && t.frames[|s.frames|].generation == s.generation)
  }

  lemma SendIsFramed(s: Session, kind: FrameKind, captured: nat)
    requires Linked(s) && Transport.IsOpen(s.client) && (s.parts.ready || kind.HandshakeFrame?) && captured <= s.generation
    requires captured == s.generation || (s.linux && kind.SnapshotFrame?)
    ensures SendsOne(s, Send(s, kind, captured))
  {
  }

  lemma ProbedSendsOne(s: Session, g: nat, usable: bool, fits: bool)
    requires Linked(s)
    ensures SendsOne(s, Probed(s, g, usable, fits))
  {
    var t := s.(helperReady := usable);
    ForceReconnectGrows(t);
    if Transport.IsOpen(s.client) { SendIsFramed(t, HandshakeFrame, t.generation); }
  }

  lemma ReceivedSendsOne(s: Session, message: Message, fits: bool)
    requires Linked(s)
    ensures SendsOne(s, Received(s, message, fits))
  {
    ForceReconnectGrows(s);
    if Transport.IsOpen(s.client) && s.parts.ready { SendIsFramed(s, Invalid, s.generation); }
  }

  lemma AnsweredSendsOne(s: Session, g: nat, fits: bool)
    requires Linked(s)
    ensures SendsOne(s, Answered(s, g, fits))
  {
    ForceReconnectGrows(s);
    if Transport.IsOpen(s.client) && s.parts.ready { SendIsFramed(s, Response, s.generation); }
  }

  lemma CollectedSendsOne(s: Session, g: nat, fits: bool)
    requires Linked(s) && g <= s.generation
    ensures SendsOne(s, Collected(s, g, fits))
  {
    if (s.linux || s.parts.snapshots == Some(g)) && s.parts.ready && CanSend(s, fits) { SendIsFramed(s, SnapshotFrame, g); }
  }

  lemma HeartbeatSendsOne(s: Session, fits: bool)
    requires Linked(s) && s.parts.heartbeat.Some?
    ensures SendsOne(s, Beat(s, fits))
  {
    ForceReconnectGrows(s);
    if Transport.IsOpen(s.client) && s.parts.ready { SendIsFramed(s, Heartbeat, s.generation); }
  }

  lemma OutsideSendsOne(s: Session, e: Event)
    requires Linked(s) && Enabled(s, e) && FromOutside(e)
    ensures SendsOne(s, Next(s, e))
  {
    match e
    case SocketReceives(id, message, fits) => ReceivedSendsOne(s.(client := Transport.HearMessage(s.client, id)), message, fits);
    case SocketOpens(_) => TurnSends(s, e);
    case SocketCloses(_) => TurnSends(s, e);
    case Start => TurnSends(s, e);
    case Stop => TurnSends(s, e);
    case TransportEvent(_) =>
  }

  lemma TurnSends(s: Session, e: Event)
    requires Enabled(s, e) && (e.Start? || e.Stop? || e.SocketOpens? || e.SocketCloses?)
    ensures Next(s, e).frames == s.frames
  {
  }

  lemma ProbeSendsOne(s: Session, k: nat, usable: bool, fits: bool)
    requires Linked(s) && Enabled(s, ProbeAnswers(k, usable, fits))
    ensures SendsOne(s, Next(s, ProbeAnswers(k, usable, fits)))
  {
    ProbedSendsOne(DropProbe(s, k), s.pending.probes[k], usable, fits);
  }

  lemma ResponseSendsOne(s: Session, k: nat, fits: bool)
    requires Linked(s) && Enabled(s, ResponseReady(k, fits))
    ensures SendsOne(s, Next(s, ResponseReady(k, fits)))
  {
    AnsweredSendsOne(DropResponse(s, k), s.pending.responses[k], fits);
  }

  lemma TimersSendNothing(s: Session, e: Event)
    requires Enabled(s, e) && (e.RetryFires? || e.DeadlineFires? || e.PongExpires?)
    ensures Next(s, e).frames == s.frames
  {
    match e
    case RetryFires(k) => ForceReconnectGrows(DropRetry(s, k));
    case DeadlineFires => ForceReconnectGrows(Disarmed(s));
    case PongExpires => ForceReconnectGrows(s.(client := s.client.(pong := None)));
  }

  lemma SnapshotSendsOne(s: Session, k: nat, fits: bool)
    requires Linked(s) && Bounded(s) && Enabled(s, SnapshotReady(k, fits))
    ensures SendsOne(s, Next(s, SnapshotReady(k, fits)))
  {
    assert s.pending.collections[k] in s.pending.collections;
    CollectedSendsOne(DropCollection(s, k), s.pending.collections[k], fits);
  }

  lemma StepSendsOne(s: Session, e: Event)
    requires Linked(s) && Bounded(s) && Enabled(s, e)
    ensures SendsOne(s, Next(s, e))
  {
    if FromOutside(e) {
      OutsideSendsOne(s, e);
    } else {
      match e
      case ProbeAnswers(k, usable, fits) => ProbeSendsOne(s, k, usable, fits);
      case ResponseReady(k, fits) => ResponseSendsOne(s, k, fits);
      case HeartbeatFires(fits) => HeartbeatSendsOne(s, fits);
      case SnapshotBegins =>
      case SnapshotReady(k, fits) => SnapshotSendsOne(s, k, fits);
      case RetryFires(_) => TimersSendNothing(s, e);
      case DeadlineFires => TimersSendNothing(s, e);
      case PongExpires => TimersSendNothing(s, e);
    }
  }

  lemma FrameStays(s: Session, t: Session, f: Frame)
    requires FrameInv(s, f) && Grows(s, t) && forall g :: g in s.peers ==> g <= s.generation
    ensures FrameInv(t, f)
  {
  }

  lemma FramesStay(s: Session, t: Session)
    requires Framed(s) && Grows(s, t) && SendsOne(s, t) && forall g :: g in s.peers ==> g <= s.generation
    ensures Framed(t)
  {
    forall k | 0 <= k < |t.frames| ensures FrameInv(t, t.frames[k]) {
      if k < |s.frames| {
        assert t.frames[k] == s.frames[k];
        FrameStays(s, t, s.frames[k]);
      }
    }
  }

  lemma StepStaysFramed(s: Session, e: Event)
    requires Inv(s) && Enabled(s, e)
    ensures Framed(Next(s, e))
  {
    StepGrows(s, e);
    StepSendsOne(s, e);
    FramesStay(s, Next(s, e));
  }

  lemma NextKeepsInv(s: Session, e: Event)
    requires Inv(s)
    ensures Inv(Next(s, e))
  {
    if Enabled(s, e) {
      StepStaysLinked(s, e);
      StepStaysBounded(s, e);
      StepStaysFramed(s, e);
    }
  }

  lemma {:induction false} RunKeepsInv(s: Session, events: seq<Event>)
    requires Inv(s)
    ensures Inv(Run(s, events))
  {
    if events != [] {
      RunKeepsInv(s, events[..|events| - 1]);
      NextKeepsInv(Run(s, events[..|events| - 1]), events[|events| - 1]);
    }
  }

  // Main results, for every run of the lifecycle over every behaviour of the network.

  // Readiness, the router's policy, the executor's generation, the active snapshot manager
  // and the armed heartbeat are all there for the current generation, or none of them is.
  lemma PartsAgree(linux: bool, events: seq<Event>)
    ensures var s := Run(Init(linux), events);
            var installed := if s.parts.ready then Some(s.generation) else None;
            && s.parts.policy == installed && s.parts.executor == installed
            && s.parts.snapshots == installed && s.parts.heartbeat == installed
            && (s.parts.deadline.Some? ==> s.parts.deadline.value == s.generation)
            && (s.parts.ready ==> s.running && Transport.IsUp(s.client))
  {
    RunKeepsInv(Init(linux), events);
  }

  // Every frame on the wire was captured in the generation in which it was sent and went to
  // the socket whose opening began that generation; anything but the handshake needs
  // readiness. Only a snapshot of the Linux manager can be older than its generation.
  lemma FramesBelongToTheirConnection(linux: bool, events: seq<Event>, f: Frame)
    requires f in Run(Init(linux), events).frames
    ensures var s := Run(Init(linux), events);
            && f.captured <= f.generation && (f.captured == f.generation || (linux && f.kind.SnapshotFrame?))
            && f.generation in s.peers && f.socket == Some(s.peers[f.generation])
            && (f.ready || f.kind.HandshakeFrame?)
  {
    RunKeepsInv(Init(linux), events);
    KeepsManager(Init(linux), events);
    var k :| 0 <= k < |Run(Init(linux), events).frames| && Run(Init(linux), events).frames[k] == f;
    assert FrameInv(Run(Init(linux), events), f);
  }

  lemma {:induction false} KeepsManager(s: Session, events: seq<Event>)
    requires Inv(s)
    ensures Run(s, events).linux == s.linux
  {
    if events != [] {
      var t, e := Run(s, events[..|events| - 1]), events[|events| - 1];
      KeepsManager(s, events[..|events| - 1]);
      RunKeepsInv(s, events[..|events| - 1]);
      if Enabled(t, e) { StepGrows(t, e); }
    }
  }

  // What ends or begins a connection.
  predicate Turns(s: Session, e: Event) {
    match e
    case Start => !s.running
    case Stop => true
    case SocketOpens(id) => Enabled(s, e) && s.client.socket == Some(id) && s.running
    case SocketCloses(id) => Enabled(s, e) && s.client.socket == Some(id) && s.running
    case _ => false
  }

  // Generations never repeat: they only grow, and every opening, ending, start and stop of a
  // connection begins a new one.
  lemma GenerationsIncrease(linux: bool, events: seq<Event>, e: Event)
    ensures var s := Run(Init(linux), events);
            && s.generation <= Next(s, e).generation
            && (Turns(s, e) ==> s.generation < Next(s, e).generation)
            && (s.client.socket.Some? && Next(s, e).client.socket != s.client.socket ==> s.generation < Next(s, e).generation)
            && (s.parts.ready && !Next(s, e).parts.ready ==> s.generation < Next(s, e).generation)
  {
    var s := Run(Init(linux), events);
    RunKeepsInv(Init(linux), events);
    NextKeepsInv(s, e);
    GenerationStep(s, e);
    if s.parts.ready && !Next(s, e).parts.ready {
      ReadinessStep(s, e);
    }
  }

  lemma ReadinessStep(s: Session, e: Event)
    requires Linked(s) && s.parts.ready
    ensures Next(s, e).generation == s.generation ==> Next(s, e).parts.ready
  {
    if Enabled(s, e) { StepIsOrderly(s, e); }
  }

  // A continuation that was captured in an earlier generation only disappears: it sends
  // nothing and changes nothing else.
  lemma StaleContinuationsAreInert(s: Session, k: nat, usable: bool, fits: bool)
    ensures k < |s.pending.probes| && s.pending.probes[k] != s.generation ==>
              Next(s, ProbeAnswers(k, usable, fits)) == DropProbe(s, k)
    ensures k < |s.pending.responses| && s.pending.responses[k] != s.generation ==>
              Next(s, ResponseReady(k, fits)) == DropResponse(s, k)
    ensures k < |s.pending.retries| && s.pending.retries[k] != s.generation ==>
              Next(s, RetryFires(k)) == DropRetry(s, k)
    ensures Agreement(s) && !s.linux && k < |s.pending.collections| && s.pending.collections[k] != s.generation ==>
              Next(s, SnapshotReady(k, fits)) == DropCollection(s, k)
  {
  }

  // t comes after s: what was sent since belongs to the generation of s or to a later one.
  ghost predicate Since(s: Session, t: Session) {
    s.generation <= t.generation && s.frames <= t.frames
    && forall k :: |s.frames| <= k < |t.frames| ==> t.frames[k].generation >= s.generation
  }

  lemma StepSince(s: Session, e: Event)
    requires Inv(s)
    ensures Since(s, Next(s, e))
  {
    if Enabled(s, e) {
      StepGrows(s, e);
      StepSendsOne(s, e);
      SentSince(s, Next(s, e));
    }
  }

  lemma SentSince(s: Session, t: Session)
    requires s.generation <= t.generation && SendsOne(s, t)
    ensures Since(s, t)
  {
  }

  lemma SinceTrans(s: Session, t: Session, u: Session)
    requires Since(s, t) && Since(t, u)
    ensures Since(s, u)
  {
    assert forall k :: 0 <= k < |t.frames| ==> u.frames[k] == t.frames[k];
  }

  lemma {:induction false} RunSince(s: Session, events: seq<Event>)
    requires Inv(s)
    ensures Since(s, Run(s, events))
  {
    if events != [] {
      var before, e := events[..|events| - 1], events[|events| - 1];
      RunSince(s, before);
      RunKeepsInv(s, before);
      StepSince(Run(s, before), e);
      SinceTrans(s, Run(s, before), Run(s, events));
    }
  }

  // Whatever was captured up to the moment when a connection ended or began, for any reason:
  // in every later state of every run it is still without effect, nothing of the old session
  // is installed or armed, and no frame sent since belongs to an earlier generation.
  lemma NothingOutlivesItsConnection(linux: bool, before: seq<Event>, e: Event, after: seq<Event>)
    requires Run(Init(linux), before).generation < Next(Run(Init(linux), before), e).generation
    ensures var s := Run(Init(linux), before);
            var t := Run(Next(s, e), after);
            && Inert(t, s.generation)
            && (t.parts.heartbeat.Some? ==> t.parts.heartbeat.value > s.generation)
            && (t.parts.deadline.Some? ==> t.parts.deadline.value > s.generation)
            && SentAfter(t, |s.frames|, s.generation)
  {
    var s := Run(Init(linux), before);
    var u := Next(s, e);
    RunKeepsInv(Init(linux), before);
    NextKeepsInv(s, e);
    StepIsOrderly(s, e);
    RunSince(u, after);
    RunKeepsInv(u, after);
    LaterOwesNothing(u, Run(u, after), s.generation);
  }

  lemma LaterOwesNothing(u: Session, t: Session, g: nat)
    requires Inv(t) && Since(u, t) && g < u.generation
    ensures Inert(t, g) && SentAfter(t, |u.frames|, g)
    ensures t.parts.heartbeat.Some? ==> t.parts.heartbeat.value > g
    ensures t.parts.deadline.Some? ==> t.parts.deadline.value > g
  {
    OldIsInert(t, g);
    forall k | |u.frames| <= k < |t.frames| ensures FrameInv(t, t.frames[k]) {}
  }

  // Continuations captured in generation g or before only disappear.
  ghost predicate Inert(t: Session, g: nat) {
    && (forall k, usable, fits :: 0 <= k < |t.pending.probes| && t.pending.probes[k] <= g ==>
          Next(t, ProbeAnswers(k, usable, fits)) == DropProbe(t, k))
    && (forall k, fits :: 0 <= k < |t.pending.responses| && t.pending.responses[k] <= g ==> Next(t, ResponseReady(k, fits)) == DropResponse(t, k))
    && (forall k :: 0 <= k < |t.pending.retries| && t.pending.retries[k] <= g ==> Next(t, RetryFires(k)) == DropRetry(t, k))
    && (forall k, fits :: 0 <= k < |t.pending.collections| && t.pending.collections[k] <= g && !t.linux ==>
          Next(t, SnapshotReady(k, fits)) == DropCollection(t, k))
  }

  // The frames from the nth on are all of generations after g, and so are the captures that
  // they carry, except for snapshots of the Linux manager.
  ghost predicate SentAfter(t: Session, n: nat, g: nat) {
    forall k :: n <= k < |t.frames| ==>
      t.frames[k].generation > g && (t.frames[k].captured > g || (t.linux && t.frames[k].kind.SnapshotFrame?))
  }

  lemma OldIsInert(t: Session, g: nat)
    requires Agreement(t) && g < t.generation
    ensures Inert(t, g)
  {
    forall k, usable, fits | 0 <= k < |t.pending.probes| && t.pending.probes[k] <= g
      ensures Next(t, ProbeAnswers(k, usable, fits)) == DropProbe(t, k)
    {
      StaleContinuationsAreInert(t, k, usable, fits);
    }
    forall k, fits | 0 <= k < |t.pending.responses| && t.pending.responses[k] <= g
      ensures Next(t, ResponseReady(k, fits)) == DropResponse(t, k)
    {
      StaleContinuationsAreInert(t, k, true, fits);
    }
    forall k | 0 <= k < |t.pending.retries| && t.pending.retries[k] <= g ensures Next(t, RetryFires(k)) == DropRetry(t, k) {
      StaleContinuationsAreInert(t, k, true, true);
    }
    forall k, fits | 0 <= k < |t.pending.collections| && t.pending.collections[k] <= g && !t.linux
      ensures Next(t, SnapshotReady(k, fits)) == DropCollection(t, k)
    {
      StaleContinuationsAreInert(t, k, true, fits);
    }
  }

  ghost predicate Core(s: Session) {
    Transport.Inv(s.client) && s.running == !s.client.stopped
  }

  lemma ForcedGeneration(s: Session)
    requires Core(s)
    ensures ForceReconnect(s).generation == s.generation + if s.running then 1 else 0
    ensures !s.running ==> ForceReconnect(s) == s
  {
  }

  lemma ReceivedGeneration(s: Session, message: Message, fits: bool)
    requires Core(s)
    ensures s.generation <= Received(s, message, fits).generation
    ensures Received(s, message, fits).generation == s.generation ==>
              Received(s, message, fits).client.socket == s.client.socket
  {
    ForcedGeneration(s);
  }

  // A step that keeps the generation keeps the current socket.
  ghost predicate Advances(s: Session, t: Session) {
    s.generation <= t.generation
    && (s.client.socket.Some? && t.client.socket != s.client.socket ==> s.generation < t.generation)
  }

  lemma SocketGeneration(s: Session, e: Event)
    requires Core(s) && Enabled(s, e) && (e.SocketOpens? || e.SocketCloses?)
    ensures Advances(s, Next(s, e)) && (Turns(s, e) ==> s.generation < Next(s, e).generation)
  {
  }

  lemma SwitchGeneration(s: Session, e: Event)
    requires Core(s) && (e.Start? || e.Stop?)
    ensures Advances(s, Next(s, e)) && (Turns(s, e) ==> s.generation < Next(s, e).generation)
  {
  }

  lemma TransportGeneration(s: Session, e: Transport.Event)
    requires Core(s) && (e.SocketPong? || e.SocketError? || e.SocketCloseBegins? || e.ReconnectFires? || e.PingFires?)
    ensures Transport.Next(s.client, e).socket == s.client.socket || s.client.socket.None?
  {
  }

  lemma GenerationStep(s: Session, e: Event)
    requires Core(s)
    ensures Advances(s, Next(s, e)) && (Turns(s, e) ==> s.generation < Next(s, e).generation)
  {
    if !Enabled(s, e) { return; }
    match e
    case Start => SwitchGeneration(s, e);
    case Stop => SwitchGeneration(s, e);
    case SocketOpens(_) => SocketGeneration(s, e);
    case SocketCloses(_) => SocketGeneration(s, e);
    case TransportEvent(x) => TransportGeneration(s, x);
    case SnapshotBegins =>
    case SnapshotReady(_, _) =>
    case _ => ForcedStep(s, e);
  }

  lemma ProbeGeneration(s: Session, k: nat, usable: bool, fits: bool)
    requires Core(s) && Enabled(s, ProbeAnswers(k, usable, fits))
    ensures Advances(s, Next(s, ProbeAnswers(k, usable, fits)))
  {
    ForcedGeneration(DropProbe(s, k).(helperReady := usable));
  }

  lemma SendGeneration(s: Session, k: nat, fits: bool)
    requires Core(s)
    ensures Enabled(s, ResponseReady(k, fits)) ==> Advances(s, Next(s, ResponseReady(k, fits)))
    ensures Enabled(s, HeartbeatFires(fits)) ==> Advances(s, Next(s, HeartbeatFires(fits)))
  {
    if k < |s.pending.responses| { ForcedGeneration(DropResponse(s, k)); }
    ForcedGeneration(s);
  }

  lemma TimerGeneration(s: Session, e: Event)
    requires Core(s) && Enabled(s, e) && (e.RetryFires? || e.DeadlineFires? || e.PongExpires?)
    ensures Advances(s, Next(s, e))
  {
    match e
    case RetryFires(k) => ForcedGeneration(DropRetry(s, k));
    case DeadlineFires => ForcedGeneration(Disarmed(s));
    case PongExpires => ForcedGeneration(s.(client := s.client.(pong := None)));
  }

  lemma ForcedStep(s: Session, e: Event)
    requires Core(s) && Enabled(s, e)
    requires !e.Start? && !e.Stop? && !e.SocketOpens? && !e.SocketCloses? && !e.TransportEvent? && !e.SnapshotReady? && !e.SnapshotBegins?
    ensures Advances(s, Next(s, e))
  {
    match e
    case SocketReceives(id, message, fits) =>
      ReceivedGeneration(s.(client := Transport.HearMessage(s.client, id)), message, fits);
    case ProbeAnswers(k, usable, fits) => ProbeGeneration(s, k, usable, fits);
    case ResponseReady(k, fits) => SendGeneration(s, k, fits);
    case HeartbeatFires(fits) => SendGeneration(s, 0, fits);
    case RetryFires(_) => TimerGeneration(s, e);
    case DeadlineFires => TimerGeneration(s, e);
    case PongExpires => TimerGeneration(s, e);
  }

  lemma RunAppend(s: Session, events: seq<Event>, e: Event)
    ensures Run(s, events + [e]) == Next(Run(s, events), e)
  {
    assert (events + [e])[..|events|] == events;
  }

  // --- Within one generation the order is not protected ---

  // A handshake frame of the current generation that was sent while the session was ready:
  // the answer had come before the capability probe was back.
  ghost predicate Early(s: Session) {
    exists k :: 0 <= k < |s.frames| && EarlyFrame(s, s.frames[k])
  }

  predicate EarlyFrame(s: Session, f: Frame) {
    f.kind.HandshakeFrame? && f.ready && f.generation == s.generation
  }

  // How a step treats readiness, the deadline and the frames.
  ghost predicate Orderly(s: Session, t: Session) {
    if t.generation != s.generation then t.frames == s.frames && !t.parts.ready
    else if t.frames == s.frames then
      (s.parts.ready ==> t.parts.ready) && (t.parts.ready && t.parts.deadline.Some? <==> s.parts.ready && s.parts.deadline.Some?)
    else
      && |t.frames| == |s.frames| + 1 && t.frames[..|s.frames|] == s.frames && t.parts.ready == s.parts.ready
      && (if EarlyFrame(t, t.frames[|s.frames|]) then t.parts.ready && t.parts.deadline.Some? else t.parts.ready ==> t.parts.deadline == s.parts.deadline)
  }

  lemma ReceivedIsOrderly(s: Session, message: Message, fits: bool)
    requires Linked(s)
    ensures Orderly(s, Received(s, message, fits))
  {
    ForceReconnectGrows(s);
  }

  lemma ProbedIsOrderly(s: Session, g: nat, usable: bool, fits: bool)
    requires Linked(s)
    ensures Orderly(s, Probed(s, g, usable, fits))
  {
    ForceReconnectGrows(s.(helperReady := usable));
  }

  lemma ProbeIsOrderly(s: Session, k: nat, usable: bool, fits: bool)
    requires Linked(s) && Enabled(s, ProbeAnswers(k, usable, fits))
    ensures Orderly(s, Next(s, ProbeAnswers(k, usable, fits)))
  {
    ProbedIsOrderly(DropProbe(s, k), s.pending.probes[k], usable, fits);
  }

  lemma ResponseIsOrderly(s: Session, k: nat, fits: bool)
    requires Linked(s) && Enabled(s, ResponseReady(k, fits))
    ensures Orderly(s, Next(s, ResponseReady(k, fits)))
  {
    ForceReconnectGrows(DropResponse(s, k));
  }

  lemma HeartbeatIsOrderly(s: Session, fits: bool)
    requires Linked(s) && Enabled(s, HeartbeatFires(fits))
    ensures Orderly(s, Next(s, HeartbeatFires(fits)))
  {
    ForceReconnectGrows(s);
  }

  lemma SnapshotIsOrderly(s: Session, k: nat, fits: bool)
    requires Linked(s) && Enabled(s, SnapshotReady(k, fits))
    ensures Orderly(s, Next(s, SnapshotReady(k, fits)))
  {
  }

  lemma TimerIsOrderly(s: Session, e: Event)
    requires Linked(s) && Enabled(s, e) && (e.RetryFires? || e.DeadlineFires? || e.PongExpires?)
    ensures Orderly(s, Next(s, e))
  {
    match e
    case RetryFires(k) => ForceReconnectGrows(DropRetry(s, k));
    case DeadlineFires => ForceReconnectGrows(Disarmed(s));
    case PongExpires => ForceReconnectGrows(s.(client := s.client.(pong := None)));
  }

  lemma TurnIsOrderly(s: Session, e: Event)
    requires Linked(s) && Enabled(s, e) && (e.Start? || e.Stop? || e.SocketOpens? || e.SocketCloses?)
    ensures Orderly(s, Next(s, e))
  {
  }

  lemma OutsideIsOrderly(s: Session, e: Event)
    requires Linked(s) && Enabled(s, e) && FromOutside(e)
    ensures Orderly(s, Next(s, e))
  {
    match e
    case SocketReceives(id, message, fits) => ReceivedIsOrderly(s.(client := Transport.HearMessage(s.client, id)), message, fits);
    case TransportEvent(_) =>
    case _ => TurnIsOrderly(s, e);
  }

  lemma StepIsOrderly(s: Session, e: Event)
    requires Linked(s) && Enabled(s, e)
    ensures Orderly(s, Next(s, e))
  {
    if FromOutside(e) {
      OutsideIsOrderly(s, e);
    } else {
      match e
      case ProbeAnswers(k, usable, fits) => ProbeIsOrderly(s, k, usable, fits);
      case ResponseReady(k, fits) => ResponseIsOrderly(s, k, fits);
      case HeartbeatFires(fits) => HeartbeatIsOrderly(s, fits);
      case SnapshotBegins =>
      case SnapshotReady(k, fits) => SnapshotIsOrderly(s, k, fits);
      case RetryFires(_) => TimerIsOrderly(s, e);
      case DeadlineFires => TimerIsOrderly(s, e);
      case PongExpires => TimerIsOrderly(s, e);
    }
  }

  lemma EarlyStep(s: Session, t: Session)
    requires Framed(s) && s.generation <= t.generation && Orderly(s, t)
    requires Early(s) <==> s.parts.ready && s.parts.deadline.Some?
    ensures Early(t) <==> t.parts.ready && t.parts.deadline.Some?
  {
    if t.generation != s.generation {
      assert forall k :: 0 <= k < |s.frames| ==> FrameInv(s, s.frames[k]);
    } else {
      assert forall k :: 0 <= k < |s.frames| ==> t.frames[k] == s.frames[k];
      assert forall k :: 0 <= k < |s.frames| ==> (EarlyFrame(t, t.frames[k]) <==> EarlyFrame(s, s.frames[k]));
      if Early(s) {
        var k :| 0 <= k < |s.frames| && EarlyFrame(s, s.frames[k]);
        assert EarlyFrame(t, t.frames[k]);
      }
    }
  }

  // A ready session has its handshake deadline armed, and will be dropped by it, if and only
  // if the handshake of its generation was sent while it was ready already.
  lemma {:induction false} ReadyWithDeadlineIff(linux: bool, events: seq<Event>)
    ensures var s := Run(Init(linux), events); Early(s) <==> s.parts.ready && s.parts.deadline.Some?
  {
    if events != [] {
      var before, e := events[..|events| - 1], events[|events| - 1];
      var s := Run(Init(linux), before);
      ReadyWithDeadlineIff(linux, before);
      RunKeepsInv(Init(linux), before);
      if Enabled(s, e) {
        StepGrows(s, e);
        StepIsOrderly(s, e);
        EarlyStep(s, Next(s, e));
      }
    }
  }

  // The answer comes while the capability probe is out, and then the probe.
  lemma EarlyAnswer(s: Session)
    requires s.running && !s.parts.ready && s.pending.probes == [s.generation]
    requires s.client.socket == Some(0) && !s.client.stopped && |s.client.states| == 1 && s.client.states[0] == Transport.Open
    ensures var t := Next(s, SocketReceives(0, Handshake(Accepted), true));
            t.running && t.parts.ready && t.pending == s.pending && t.generation == s.generation && Transport.IsOpen(t.client)
  {
  }

  lemma LateProbe(s: Session)
    requires s.running && s.parts.ready && s.pending.probes == [s.generation] && Transport.IsOpen(s.client)
    ensures var t := Next(s, ProbeAnswers(0, true, true));
            t.running && t.parts.ready && t.parts.deadline == Some(t.generation) && !t.client.stopped
  {
  }

  lemma DeadlineEnds(s: Session)
    requires s.running && s.parts.deadline.Some? && !s.client.stopped
    ensures !Next(s, DeadlineFires).parts.ready
  {
  }

  // It happens when the answer comes before the capability probe is back.
  lemma EarlyHandshakeExample(linux: bool)
    ensures exists events: seq<Event> ::
              var s := Run(Init(linux), events);
              s.parts.ready && s.parts.deadline == Some(s.generation) && !Next(s, DeadlineFires).parts.ready
  {
    var before := OpenedSession(linux);
    var c := before + [SocketReceives(0, Handshake(Accepted), true)];
    var d := c + [ProbeAnswers(0, true, true)];
    RunAppend(Init(linux), before, SocketReceives(0, Handshake(Accepted), true));
    RunAppend(Init(linux), c, ProbeAnswers(0, true, true));
    EarlyAnswer(Run(Init(linux), before));
    LateProbe(Run(Init(linux), c));
    DeadlineEnds(Run(Init(linux), d));
    assert Run(Init(linux), d).parts.ready;
  }

  lemma StartedSession(linux: bool)
    ensures var s := Run(Init(linux), [Start]);
            s.running && s.client == Transport.Connect(Transport.Init()) && s.parts == CLEARED && s.pending == Init(linux).pending
  {
    RunAppend(Init(linux), [], Start);
    assert [] + [Start] == [Start];
  }

  lemma OpenedSession(linux: bool) returns (events: seq<Event>)
    ensures var s := Run(Init(linux), events);
            && s.running && !s.parts.ready && s.pending.probes == [s.generation] && s.pending.retries == [] && s.pending.responses == []
            && s.client.socket == Some(0) && !s.client.stopped && |s.client.states| == 1 && s.client.states[0] == Transport.Open
  {
    StartedSession(linux);
    events := [Start] + [SocketOpens(0)];
    RunAppend(Init(linux), [Start], SocketOpens(0));
    var t := Run(Init(linux), [Start]);
    assert t.client.socket == Some(0) && t.client.states == [Transport.Connecting] && !t.client.stopped;
    assert Run(Init(linux), events) == HeardOpen(t, 0);
  }

  // --- What makes a session ready ---

  // The current socket delivers an accepted handshake answer.
  predicate Admits(s: Session, e: Event) {
    e.SocketReceives? && Enabled(s, e) && e.message == Handshake(Accepted) && s.running && s.client.socket == Some(e.id)
  }

  // Step k admitted the generation in which the run has ended, over the socket that began it.
  ghost predicate AdmittedAt(linux: bool, events: seq<Event>, k: nat) {
    && k < |events|
    && var s, t := Run(Init(linux), events[..k]), Run(Init(linux), events);
       && Admits(s, events[k]) && s.generation == t.generation
       && t.generation in t.peers && t.peers[t.generation] == events[k].id
  }

  lemma ForcedIsUnready(s: Session)
    ensures ForceReconnect(s).parts.ready ==> s.parts.ready
  {
  }

  lemma NotReadied(s: Session, e: Event)
    requires Enabled(s, e) && !FromOutside(e)
    ensures Next(s, e).parts.ready ==> s.parts.ready
  {
    match e
    case ProbeAnswers(k, usable, _) => ForcedIsUnready(DropProbe(s, k).(helperReady := usable));
    case ResponseReady(k, _) => ForcedIsUnready(DropResponse(s, k));
    case RetryFires(k) => ForcedIsUnready(DropRetry(s, k));
    case HeartbeatFires(_) => ForcedIsUnready(s);
    case DeadlineFires => ForcedIsUnready(Disarmed(s));
    case PongExpires => ForcedIsUnready(s.(client := s.client.(pong := None)));
    case SnapshotBegins =>
    case SnapshotReady(_, _) =>
  }

  lemma ReceivedReadies(s: Session, message: Message, fits: bool)
    requires s.running
    ensures var t := Received(s, message, fits);
            && (t.parts.ready ==> s.parts.ready || message == Handshake(Accepted))
            && (!s.parts.ready && message == Handshake(Accepted) ==> t.parts.ready)
  {
    ForcedIsUnready(s);
  }

  lemma OutsideReadies(s: Session, e: Event)
    requires Linked(s) && Enabled(s, e) && FromOutside(e)
    ensures Next(s, e).parts.ready ==> s.parts.ready || Admits(s, e)
    ensures Admits(s, e) && !s.parts.ready ==> Next(s, e).parts.ready
  {
    if e.SocketReceives? && s.running { ReceivedReadies(s.(client := Transport.HearMessage(s.client, e.id)), e.message, e.fits); }
  }

  lemma ReadyStep(s: Session, e: Event)
    requires Inv(s)
    ensures var t := Next(s, e);
            if t.generation == s.generation then
              t.peers == s.peers && (t.parts.ready <==> s.parts.ready || Admits(s, e))
            else s.generation < t.generation && !t.parts.ready
  {
    if Enabled(s, e) {
      StepGrows(s, e);
      StepIsOrderly(s, e);
      if FromOutside(e) { OutsideReadies(s, e); } else { NotReadied(s, e); }
    }
  }

  lemma {:induction false} GenerationGrows(linux: bool, events: seq<Event>, k: nat)
    requires k <= |events|
    ensures Run(Init(linux), events[..k]).generation <= Run(Init(linux), events).generation
  {
    if k == |events| {
      assert events[..k] == events;
    } else {
      var before := events[..|events| - 1];
      assert before[..k] == events[..k];
      GenerationGrows(linux, before, k);
      RunKeepsInv(Init(linux), before);
      ReadyStep(Run(Init(linux), before), events[|events| - 1]);
    }
  }

  lemma AdmittedBefore(linux: bool, events: seq<Event>, k: nat)
    requires events != [] && k < |events| - 1
    requires var s, t := Run(Init(linux), events[..|events| - 1]), Run(Init(linux), events);
             s.generation == t.generation && s.peers == t.peers
    ensures AdmittedAt(linux, events[..|events| - 1], k) <==> AdmittedAt(linux, events, k)
  {
    assert events[..|events| - 1][..k] == events[..k];
  }

  lemma AdmittedNow(linux: bool, events: seq<Event>, s: Session, e: Event)
    requires events != [] && s == Run(Init(linux), events[..|events| - 1]) && e == events[|events| - 1]
    requires Linked(s) && Admits(s, e) && Next(s, e).generation == s.generation && Next(s, e).peers == s.peers
    ensures AdmittedAt(linux, events, |events| - 1)
  {
  }

  // A session is ready if and only if its own socket has delivered an accepted handshake
  // answer in its generation.
  lemma {:induction false} ReadyIff(linux: bool, events: seq<Event>)
    ensures Run(Init(linux), events).parts.ready <==> exists k: nat :: AdmittedAt(linux, events, k)
  {
    if events != [] {
      var before, e := events[..|events| - 1], events[|events| - 1];
      var s, t := Run(Init(linux), before), Run(Init(linux), events);
      RunKeepsInv(Init(linux), before);
      ReadyStep(s, e);
      ReadyIff(linux, before);
      if t.parts.ready {
        if s.parts.ready {
          var k: nat :| AdmittedAt(linux, before, k);
          AdmittedBefore(linux, events, k);
        } else {
          AdmittedNow(linux, events, s, e);
        }
      }
      if k: nat :| AdmittedAt(linux, events, k) {
        AdmissionLasts(linux, events, k);
      }
    }
  }

  lemma AdmissionLasts(linux: bool, events: seq<Event>, k: nat)
    requires events != [] && AdmittedAt(linux, events, k)
    requires var before := events[..|events| - 1];
             Run(Init(linux), before).parts.ready <==> exists j: nat :: AdmittedAt(linux, before, j)
    ensures Run(Init(linux), events).parts.ready
  {
    var before, e := events[..|events| - 1], events[|events| - 1];
    var s := Run(Init(linux), before);
    RunKeepsInv(Init(linux), before);
    ReadyStep(s, e);
    if k < |before| {
      assert events[..k] == before[..k];
      GenerationGrows(linux, before, k);
      AdmittedBefore(linux, events, k);
    } else {
      assert events[..k] == before;
    }
  }

  // What a message of the current socket does before readiness: an accepted answer installs
  // everything, a provisional one leaves the session unready with one retry more of this
  // generation, and everything else ends the generation, with nothing installed and the
  // reconnect timer armed. Either answer disarms the handshake deadline.
  lemma UnreadyMessages(linux: bool, events: seq<Event>, id: nat, message: Message, fits: bool)
    requires var s := Run(Init(linux), events);
             s.running && !s.parts.ready && s.client.socket == Some(id) && Enabled(s, SocketReceives(id, message, fits))
    ensures var s := Run(Init(linux), events);
            var t := Next(s, SocketReceives(id, message, fits));
            && t.frames == s.frames
            && (message == Handshake(Accepted) ==>
                  t.generation == s.generation && t.client.attempts == 0 && t.parts == Parts(true, None, Some(s.generation), Some(s.generation), Some(s.generation), Some(s.generation)))
            && (message == Handshake(Provisional) ==>
                  t.generation == s.generation && t.parts == CLEARED && t.pending.retries == s.pending.retries + [s.generation])
            && (message != Handshake(Accepted) && message != Handshake(Provisional) ==>
                  t.generation == s.generation + 1 && t.parts == CLEARED && t.client.socket.None? && |t.client.timers| == 1)
  {
    RunKeepsInv(Init(linux), events);
    var s := Run(Init(linux), events);
    if message == Handshake(Accepted) { AcceptedWhileUnready(s, id, fits); }
    else if message == Handshake(Provisional) { ProvisionalWhileUnready(s, id, fits); }
    else { RejectedWhileUnready(s, id, message, fits); }
  }

  lemma AcceptedWhileUnready(s: Session, id: nat, fits: bool)
    requires Linked(s) && s.running && !s.parts.ready && s.client.socket == Some(id) && Enabled(s, SocketReceives(id, Handshake(Accepted), fits))
    ensures var g, t := Some(s.generation), Next(s, SocketReceives(id, Handshake(Accepted), fits));
            t.frames == s.frames && t.generation == s.generation && t.client.attempts == 0 && t.parts == Parts(true, None, g, g, g, g)
  {
    HeardWhileUnready(s, id, Handshake(Accepted), fits);
    InstalledParts(Disarmed(s.(client := Transport.HearMessage(s.client, id))));
  }

  lemma ProvisionalWhileUnready(s: Session, id: nat, fits: bool)
    requires Linked(s) && s.running && !s.parts.ready && s.client.socket == Some(id) && Enabled(s, SocketReceives(id, Handshake(Provisional), fits))
    ensures var t := Next(s, SocketReceives(id, Handshake(Provisional), fits));
            t.frames == s.frames && t.generation == s.generation && t.parts == CLEARED && t.pending.retries == s.pending.retries + [s.generation]
  {
    HeardWhileUnready(s, id, Handshake(Provisional), fits);
    UnreadyParts(s.(client := Transport.HearMessage(s.client, id)));
  }

  lemma RejectedWhileUnready(s: Session, id: nat, message: Message, fits: bool)
    requires Inv(s) && s.running && !s.parts.ready && s.client.socket == Some(id) && Enabled(s, SocketReceives(id, message, fits))
    requires message != Handshake(Accepted) && message != Handshake(Provisional)
    ensures var t := Next(s, SocketReceives(id, message, fits));
            t.frames == s.frames && t.generation == s.generation + 1 && t.parts == CLEARED && t.client.socket.None? && |t.client.timers| == 1
  {
    HeardWhileUnready(s, id, message, fits);
    UnreadyEnds(s.(client := Transport.HearMessage(s.client, id)));
    NextKeepsInv(s, SocketReceives(id, message, fits));
    LostSocketHasTimer(Next(s, SocketReceives(id, message, fits)));
  }

  lemma LostSocketHasTimer(s: Session)
    requires Core(s) && s.running && s.client.socket.None?
    ensures |s.client.timers| == 1
  {
  }

  lemma InstalledParts(s: Session)
    requires s.parts.deadline.None?
    ensures var g, t := Some(s.generation), Install(s);
            t.parts == Parts(true, None, g, g, g, g) && t.generation == s.generation && t.frames == s.frames && t.client.attempts == 0
  {
  }

  lemma UnreadyEnds(s: Session)
    requires Core(s) && s.running
    ensures var t := ForceReconnect(s);
            t.running && t.generation == s.generation + 1 && t.parts == CLEARED && t.client.socket.None? && t.frames == s.frames
  {
  }

  lemma UnreadyParts(s: Session)
    requires Agreement(s) && !s.parts.ready
    ensures Disarmed(s).parts == CLEARED
  {
  }

  lemma HeardWhileUnready(s: Session, id: nat, message: Message, fits: bool)
    requires Linked(s) && s.running && !s.parts.ready && s.client.socket == Some(id) && Enabled(s, SocketReceives(id, message, fits))
    ensures var u := s.(client := Transport.HearMessage(s.client, id));
            Next(s, SocketReceives(id, message, fits)) ==
              (if message == Handshake(Accepted) then Install(Disarmed(u))
               else if message == Handshake(Provisional) then Retried(Disarmed(u)) else ForceReconnect(u))
  {
  }

  // --- An unready session does not wait for ever ---

  // The handshake of the current generation is on the wire.
  ghost predicate Asked(s: Session) {
    exists k :: 0 <= k < |s.frames| && AskedBy(s, s.frames[k])
  }

  predicate AskedBy(s: Session, f: Frame) {
    f.kind.HandshakeFrame? && f.generation == s.generation
  }

  // Something is armed that will end the generation.
  predicate Guarded(s: Session) {
    s.parts.deadline.Some? || s.generation in s.pending.retries
  }

  // A step that keeps the generation of a running session keeps it guarded, or makes it ready,
  // and one that sends the handshake guards it.
  ghost predicate KeepsGuard(s: Session, t: Session) {
    if !s.running then t.frames == s.frames
    else t.generation == s.generation ==>
      && t.running && (Guarded(s) ==> Guarded(t) || t.parts.ready)
      && (t.frames == s.frames || Guarded(t) || (|t.frames| > 0 && !t.frames[|t.frames| - 1].kind.HandshakeFrame?))
  }

  lemma ForcedEnds(s: Session)
    requires Core(s) && s.running
    ensures ForceReconnect(s).generation == s.generation + 1
  {
  }

  lemma ReceivedKeepsGuard(s: Session, message: Message, fits: bool)
    requires Linked(s)
    ensures KeepsGuard(s, Received(s, message, fits))
  {
    if s.running { ForcedEnds(s); }
  }

  lemma OutsideKeepsGuard(s: Session, e: Event)
    requires Linked(s) && Enabled(s, e) && FromOutside(e)
    ensures KeepsGuard(s, Next(s, e))
  {
    match e
    case SocketReceives(id, message, fits) => ReceiveKeepsGuard(s, id, message, fits);
    case TransportEvent(_) =>
    case _ => TurnKeepsGuard(s, e);
  }

  lemma ReceiveKeepsGuard(s: Session, id: nat, message: Message, fits: bool)
    requires Linked(s) && Enabled(s, SocketReceives(id, message, fits))
    ensures KeepsGuard(s, Next(s, SocketReceives(id, message, fits)))
  {
    var u := s.(client := Transport.HearMessage(s.client, id));
    HearingStaysLinked(s, id);
    ReceivedKeepsGuard(u, message, fits);
    if s.client.socket == Some(id) && !s.client.stopped {
      GuardFrom(s, u, Received(u, message, fits));
    } else {
      GuardFrom(s, u, u);
    }
  }

  lemma GuardFrom(s: Session, u: Session, t: Session)
    requires u == s.(client := u.client) && (KeepsGuard(u, t) || t == u)
    ensures KeepsGuard(s, t)
  {
  }

  lemma TurnKeepsGuard(s: Session, e: Event)
    requires Linked(s) && Enabled(s, e) && (e.Start? || e.Stop? || e.SocketOpens? || e.SocketCloses?)
    ensures KeepsGuard(s, Next(s, e))
  {
  }

  lemma ProbeKeepsGuard(s: Session, k: nat, usable: bool, fits: bool)
    requires Linked(s) && Enabled(s, ProbeAnswers(k, usable, fits))
    ensures KeepsGuard(s, Next(s, ProbeAnswers(k, usable, fits)))
  {
    if s.running { ForcedEnds(DropProbe(s, k).(helperReady := usable)); } else { ForcedGeneration(DropProbe(s, k).(helperReady := usable)); }
  }

  lemma ResponseKeepsGuard(s: Session, k: nat, fits: bool)
    requires Linked(s) && Enabled(s, ResponseReady(k, fits))
    ensures KeepsGuard(s, Next(s, ResponseReady(k, fits)))
  {
    if s.running { ForcedEnds(DropResponse(s, k)); }
  }

  lemma StaysIn(captured: seq<nat>, k: nat, g: nat)
    requires k < |captured| && g in captured && captured[k] != g
    ensures g in Without(captured, k)
  {
    var j :| 0 <= j < |captured| && captured[j] == g;
    if j < k { assert Without(captured, k)[j] == g; } else { assert Without(captured, k)[j - 1] == g; }
  }

  lemma TimersKeepGuard(s: Session, e: Event)
    requires Linked(s) && Enabled(s, e) && (e.RetryFires? || e.DeadlineFires? || e.PongExpires?)
    ensures KeepsGuard(s, Next(s, e))
  {
    if !s.running {
      TimersSendNothing(s, e);
      return;
    }
    match e
    case RetryFires(k) =>
      if s.pending.retries[k] == s.generation { ForcedEnds(DropRetry(s, k)); }
      else if s.generation in s.pending.retries { StaysIn(s.pending.retries, k, s.generation); }
    case DeadlineFires => ForcedEnds(Disarmed(s));
    case PongExpires => ForcedEnds(s.(client := s.client.(pong := None)));
  }

  lemma BeatKeepsGuard(s: Session, fits: bool)
    requires Linked(s) && Enabled(s, HeartbeatFires(fits))
    ensures KeepsGuard(s, Next(s, HeartbeatFires(fits)))
  {
    if s.running { ForcedEnds(s); }
  }

  lemma SnapshotKeepsGuard(s: Session, k: nat, fits: bool)
    requires Linked(s) && Enabled(s, SnapshotReady(k, fits))
    ensures KeepsGuard(s, Next(s, SnapshotReady(k, fits)))
  {
  }

  lemma StepKeepsGuard(s: Session, e: Event)
    requires Linked(s) && Enabled(s, e)
    ensures KeepsGuard(s, Next(s, e))
  {
    if FromOutside(e) {
      OutsideKeepsGuard(s, e);
    } else {
      match e
      case ProbeAnswers(k, usable, fits) => ProbeKeepsGuard(s, k, usable, fits);
      case ResponseReady(k, fits) => ResponseKeepsGuard(s, k, fits);
      case HeartbeatFires(fits) => BeatKeepsGuard(s, fits);
      case SnapshotBegins =>
      case SnapshotReady(k, fits) => SnapshotKeepsGuard(s, k, fits);
      case _ => TimersKeepGuard(s, e);
    }
  }

  lemma AskedStep(s: Session, t: Session)
    requires Framed(s) && s.generation <= t.generation && SendsOne(s, t) && Asked(t)
    ensures t.generation == s.generation
    ensures Asked(s) || (t.frames != s.frames && t.frames[|t.frames| - 1].kind.HandshakeFrame?)
  {
    var k :| 0 <= k < |t.frames| && AskedBy(t, t.frames[k]);
    if k < |s.frames| {
      assert t.frames[k] == s.frames[k] && FrameInv(s, s.frames[k]);
      assert AskedBy(s, s.frames[k]);
    }
  }

  lemma {:induction false} AskedIsGuarded(linux: bool, events: seq<Event>)
    ensures var s := Run(Init(linux), events); Asked(s) ==> s.running && (s.parts.ready || Guarded(s))
  {
    if events != [] {
      var before, e := events[..|events| - 1], events[|events| - 1];
      var s := Run(Init(linux), before);
      AskedIsGuarded(linux, before);
      RunKeepsInv(Init(linux), before);
      if Enabled(s, e) && Asked(Next(s, e)) { GuardStep(s, e); }
    }
  }

  lemma GuardStep(s: Session, e: Event)
    requires Inv(s) && Enabled(s, e) && Asked(Next(s, e))
    requires Asked(s) ==> s.running && (s.parts.ready || Guarded(s))
    ensures Next(s, e).running && (Next(s, e).parts.ready || Guarded(Next(s, e)))
  {
    var t := Next(s, e);
    StepGrows(s, e);
    StepSendsOne(s, e);
    StepIsOrderly(s, e);
    StepKeepsGuard(s, e);
    AskedStep(s, t);
  }

  // The timers that are armed for this generation end it, and the client reconnects.
  predicate EndsGeneration(s: Session, e: Event) {
    match e
    case DeadlineFires => s.parts.deadline.Some?
    case RetryFires(k) => k < |s.pending.retries| && s.pending.retries[k] == s.generation
    case PongExpires => s.client.pong.Some?
    case _ => false
  }

  lemma ForcedClears(s: Session)
    requires Core(s) && s.running
    ensures var t := ForceReconnect(s); t.generation == s.generation + 1 && t.parts == CLEARED && t.client.socket.None?
  {
  }

  // Once the handshake of a generation is out the session is ready, or a timer is armed for
  // this generation that ends it: the handshake deadline or the retry of a provisional answer.
  lemma WaitingIsBounded(linux: bool, events: seq<Event>, e: Event)
    ensures var s := Run(Init(linux), events);
            && (Asked(s) && !s.parts.ready ==> s.parts.deadline.Some? || exists k: nat :: EndsGeneration(s, RetryFires(k)))
            && (s.running && EndsGeneration(s, e) ==>
                  var t := Next(s, e);
                  t.generation == s.generation + 1 && t.parts == CLEARED && t.client.socket.None? && |t.client.timers| == 1)
  {
    RunKeepsInv(Init(linux), events);
    var s := Run(Init(linux), events);
    AskedIsGuarded(linux, events);
    if s.generation in s.pending.retries {
      var k :| 0 <= k < |s.pending.retries| && s.pending.retries[k] == s.generation;
      assert EndsGeneration(s, RetryFires(k));
    }
    NextKeepsInv(s, e);
    if s.running && EndsGeneration(s, e) { TimerEnds(s, e); }
  }

  lemma TimerEnds(s: Session, e: Event)
    requires Core(s) && s.running && EndsGeneration(s, e)
    ensures var t := Next(s, e); t.running && t.generation == s.generation + 1 && t.parts == CLEARED && t.client.socket.None?
  {
    match e
    case DeadlineFires => ForcedClears(Disarmed(s));
    case RetryFires(k) => ForcedClears(DropRetry(s, k));
    case PongExpires => ForcedClears(s.(client := s.client.(pong := None)));
  }

  // --- Writing is offered on what this connection has seen ---

  // The probe of the generation in which the run has ended found the helper usable at step k.
  ghost predicate FoundUsable(linux: bool, events: seq<Event>, k: nat) {
    && k < |events| && events[k].ProbeAnswers? && events[k].usable
    && var s := Run(Init(linux), events[..k]);
       && events[k].k < |s.pending.probes| && s.pending.probes[events[k].k] == s.generation
       && s.generation == Run(Init(linux), events).generation
  }

  predicate Usable(s: Session, e: Event) {
    e.ProbeAnswers? && e.usable && e.k < |s.pending.probes| && s.pending.probes[e.k] == s.generation
  }

  ghost predicate KeepsHelper(s: Session, e: Event, t: Session) {
    if t.generation == s.generation then
      && (t.helperReady ==> s.helperReady || Usable(s, e))
      && (Transport.IsUp(t.client) ==> Transport.IsUp(s.client))
    else Transport.IsUp(t.client) ==> !t.helperReady
  }

  lemma ForcedKeepsHelper(s: Session)
    ensures var t := ForceReconnect(s); t.helperReady == s.helperReady && (t.generation != s.generation || !s.running ==> !Transport.IsUp(t.client) || t == s)
    ensures ForceReconnect(s).generation == s.generation && Transport.IsUp(ForceReconnect(s).client) ==> Transport.IsUp(s.client)
  {
  }

  lemma OutsideKeepsHelper(s: Session, e: Event)
    requires Linked(s) && Enabled(s, e) && FromOutside(e)
    ensures KeepsHelper(s, e, Next(s, e))
  {
    match e
    case SocketReceives(id, message, fits) =>
      ForcedKeepsHelper(s.(client := Transport.HearMessage(s.client, id)));
    case TransportEvent(x) => TransportStaysDown(s.client, x);
    case _ => TurnKeepsHelper(s, e);
  }

  lemma TransportStaysDown(c: Transport.Client, e: Transport.Event)
    requires Transport.Inv(c) && (e.SocketPong? || e.SocketError? || e.SocketCloseBegins? || e.ReconnectFires? || e.PingFires?)
    ensures Transport.IsUp(Transport.Next(c, e)) ==> Transport.IsUp(c)
  {
  }

  lemma TurnKeepsHelper(s: Session, e: Event)
    requires Linked(s) && Enabled(s, e) && (e.Start? || e.Stop? || e.SocketOpens? || e.SocketCloses?)
    ensures KeepsHelper(s, e, Next(s, e))
  {
  }

  lemma ProbeKeepsHelper(s: Session, k: nat, usable: bool, fits: bool)
    requires Linked(s) && k < |s.pending.probes|
    ensures KeepsHelper(s, ProbeAnswers(k, usable, fits), Next(s, ProbeAnswers(k, usable, fits)))
  {
    ForcedKeepsHelper(DropProbe(s, k).(helperReady := usable));
  }

  lemma TimersKeepHelper(s: Session, e: Event)
    requires Linked(s) && Enabled(s, e) && (e.RetryFires? || e.DeadlineFires? || e.PongExpires?)
    ensures KeepsHelper(s, e, Next(s, e))
  {
    match e
    case RetryFires(k) => ForcedKeepsHelper(DropRetry(s, k));
    case DeadlineFires => ForcedKeepsHelper(Disarmed(s));
    case PongExpires => ForcedKeepsHelper(s.(client := s.client.(pong := None)));
  }

  lemma SendingKeepsHelper(s: Session, e: Event)
    requires Linked(s) && Enabled(s, e) && (e.ResponseReady? || e.HeartbeatFires?)
    ensures KeepsHelper(s, e, Next(s, e))
  {
    if e.ResponseReady? { ForcedKeepsHelper(DropResponse(s, e.k)); } else { ForcedKeepsHelper(s); }
  }

  lemma InsideKeepsHelper(s: Session, e: Event)
    requires Linked(s) && Enabled(s, e) && !FromOutside(e)
    ensures KeepsHelper(s, e, Next(s, e))
  {
    match e
    case ProbeAnswers(k, usable, fits) => ProbeKeepsHelper(s, k, usable, fits);
    case ResponseReady(_, _) => SendingKeepsHelper(s, e);
    case HeartbeatFires(_) => SendingKeepsHelper(s, e);
    case SnapshotBegins =>
    case SnapshotReady(_, _) =>
    case _ => TimersKeepHelper(s, e);
  }

  // Over a connection that is up, the helper counts as ready only if the probe of this very
  // generation found it usable: nothing is left of what an earlier connection had found.
  lemma {:induction false} HelperReadyIsFresh(linux: bool, events: seq<Event>)
    ensures var s := Run(Init(linux), events);
            Transport.IsUp(s.client) && s.helperReady ==> exists k: nat :: FoundUsable(linux, events, k)
  {
    if events != [] {
      var before, e := events[..|events| - 1], events[|events| - 1];
      var s, t := Run(Init(linux), before), Run(Init(linux), events);
      RunKeepsInv(Init(linux), before);
      HelperReadyIsFresh(linux, before);
      if Enabled(s, e) { if FromOutside(e) { OutsideKeepsHelper(s, e); } else { InsideKeepsHelper(s, e); } }
      if Transport.IsUp(t.client) && t.helperReady {
        if Usable(s, e) {
          assert FoundUsable(linux, events, |events| - 1);
        } else {
          var k: nat :| FoundUsable(linux, before, k);
          assert before[..k] == events[..k];
          assert FoundUsable(linux, events, k);
        }
      }
    }
  }

  // --- What is current acts ---

  // The frame goes out over the socket of this generation, which goes on.
  predicate Sends(s: Session, t: Session, kind: FrameKind) {
    t.frames == s.frames + [Frame(kind, s.generation, s.generation, s.parts.ready, s.client.socket)] && t.generation == s.generation
  }

  predicate Ends(s: Session, t: Session) {
    t.frames == s.frames && t.generation == s.generation + 1 && t.parts == CLEARED
  }

  lemma ForcedEndsAll(s: Session)
    requires Core(s) && s.running
    ensures Ends(s, ForceReconnect(s))
  {
  }

  lemma ProbeActs(s: Session, k: nat, usable: bool, fits: bool)
    requires Linked(s) && k < |s.pending.probes| && s.pending.probes[k] == s.generation && Transport.IsOpen(s.client)
    ensures var t := Next(s, ProbeAnswers(k, usable, fits));
            if fits then Sends(s, t, HandshakeFrame) && t.parts.deadline == Some(s.generation) && t.helperReady == usable else Ends(s, t)
  {
    ForcedEndsAll(DropProbe(s, k).(helperReady := usable));
  }

  lemma HeartbeatActs(s: Session, fits: bool)
    requires Linked(s) && s.parts.heartbeat.Some?
    ensures var t := Next(s, HeartbeatFires(fits)); if Transport.IsOpen(s.client) && fits then Sends(s, t, Heartbeat) else Ends(s, t)
  {
    ForcedEndsAll(s);
  }

  lemma SnapshotActs(s: Session, k: nat, fits: bool)
    requires Linked(s) && k < |s.pending.collections| && s.pending.collections[k] == s.generation && s.parts.ready
    ensures var t := Next(s, SnapshotReady(k, fits));
            if Transport.IsOpen(s.client) && fits then Sends(s, t, SnapshotFrame) else t == DropCollection(s, k)
  {
  }

  lemma MessageActs(s: Session, id: nat, message: Message, fits: bool)
    requires Linked(s) && s.parts.ready && s.client.socket == Some(id) && Enabled(s, SocketReceives(id, message, fits))
    ensures var t := Next(s, SocketReceives(id, message, fits));
            if message.Malformed? then Ends(s, t)
            else if message.Request? then t.frames == s.frames && t.pending.responses == s.pending.responses + [s.generation]
            else if Transport.IsOpen(s.client) && fits then Sends(s, t, Invalid) else Ends(s, t)
  {
    ForcedEndsAll(s.(client := Transport.HearMessage(s.client, id)));
  }

  // The counterpart of what has gone stale: in every run a probe of this generation sends the
  // handshake and arms its deadline, the heartbeat and a snapshot of this generation are sent,
  // and a ready session takes every request and refuses what is none. Whatever but a snapshot
  // cannot be sent ends the generation.
  lemma CurrentContinuationsAct(linux: bool, events: seq<Event>, k: nat, id: nat, message: Message, usable: bool, fits: bool)
    ensures var s := Run(Init(linux), events);
            k < |s.pending.probes| && s.pending.probes[k] == s.generation && Transport.IsOpen(s.client) ==>
              var t := Next(s, ProbeAnswers(k, usable, fits));
              if fits then Sends(s, t, HandshakeFrame) && t.parts.deadline == Some(s.generation) && t.helperReady == usable else Ends(s, t)
    ensures var s := Run(Init(linux), events);
            s.parts.ready ==>
              var t := Next(s, HeartbeatFires(fits)); if Transport.IsOpen(s.client) && fits then Sends(s, t, Heartbeat) else Ends(s, t)
    ensures var s := Run(Init(linux), events);
            s.parts.ready && k < |s.pending.collections| && s.pending.collections[k] == s.generation ==>
              var t := Next(s, SnapshotReady(k, fits));
              if Transport.IsOpen(s.client) && fits then Sends(s, t, SnapshotFrame) else t == DropCollection(s, k)
    ensures var s := Run(Init(linux), events);
            s.parts.ready && s.client.socket == Some(id) && Enabled(s, SocketReceives(id, message, fits)) ==>
              var t := Next(s, SocketReceives(id, message, fits));
              if message.Malformed? then Ends(s, t)
              else if message.Request? then t.frames == s.frames && t.pending.responses == s.pending.responses + [s.generation]
              else if Transport.IsOpen(s.client) && fits then Sends(s, t, Invalid) else Ends(s, t)
  {
    RunKeepsInv(Init(linux), events);
    var s := Run(Init(linux), events);
    if k < |s.pending.probes| && s.pending.probes[k] == s.generation && Transport.IsOpen(s.client) { ProbeActs(s, k, usable, fits); }
    if s.parts.ready { HeartbeatActs(s, fits); }
    if s.parts.ready && k < |s.pending.collections| && s.pending.collections[k] == s.generation { SnapshotActs(s, k, fits); }
    if s.parts.ready && s.client.socket == Some(id) && Enabled(s, SocketReceives(id, message, fits)) { MessageActs(s, id, message, fits); }
  }

  // A snapshot of the Linux manager goes out to a ready session whatever generation it is of.
  lemma LinuxSnapshotsAreNotTested(events: seq<Event>, k: nat)
    requires var s := Run(Init(true), events); s.parts.ready && k < |s.pending.collections| && Transport.IsOpen(s.client)
    ensures var s := Run(Init(true), events);
            Next(s, SnapshotReady(k, true)).frames ==
              s.frames + [Frame(SnapshotFrame, s.pending.collections[k], s.generation, true, s.client.socket)]
  {
    RunKeepsInv(Init(true), events);
    KeepsManager(Init(true), events);
    LinuxSnapshotGoesOut(Run(Init(true), events), k);
  }

  lemma LinuxSnapshotGoesOut(s: Session, k: nat)
    requires s.linux && s.parts.ready && k < |s.pending.collections| && Transport.IsOpen(s.client)
    ensures Next(s, SnapshotReady(k, true)).frames ==
              s.frames + [Frame(SnapshotFrame, s.pending.collections[k], s.generation, true, s.client.socket)]
  {
  }

  // --- No request is lost or answered twice ---

  // A request that the session takes.
  predicate Takes(s: Session, e: Event) {
    e.SocketReceives? && Enabled(s, e) && e.message.Request? && s.running && s.parts.ready && s.client.socket == Some(e.id)
  }

  // The requests taken in one generation.
  function Taken(linux: bool, events: seq<Event>, g: nat): nat {
    if events == [] then 0
    else
      var before := events[..|events| - 1];
      var s := Run(Init(linux), before);
      Taken(linux, before, g) + if Takes(s, events[|events| - 1]) && s.generation == g then 1 else 0
  }

  function Captured(captured: seq<nat>, g: nat): nat {
    if captured == [] then 0
    else Captured(captured[..|captured| - 1], g) + if captured[|captured| - 1] == g then 1 else 0
  }

  function Responses(frames: seq<Frame>, g: nat): nat {
    if frames == [] then 0
    else Responses(frames[..|frames| - 1], g) + if IsResponse(frames[|frames| - 1], g) then 1 else 0
  }

  predicate IsResponse(f: Frame, g: nat) {
    f.kind.Response? && f.generation == g
  }

  lemma CapturedAppend(captured: seq<nat>, h: nat, g: nat)
    ensures Captured(captured + [h], g) == Captured(captured, g) + if h == g then 1 else 0
  {
    assert (captured + [h])[..|captured|] == captured;
  }

  lemma ResponsesAppend(frames: seq<Frame>, f: Frame, g: nat)
    ensures Responses(frames + [f], g) == Responses(frames, g) + if IsResponse(f, g) then 1 else 0
  {
    assert (frames + [f])[..|frames|] == frames;
  }

  lemma {:induction false} CapturedWithout(captured: seq<nat>, k: nat, g: nat)
    requires k < |captured|
    ensures Captured(Without(captured, k), g) == Captured(captured, g) - if captured[k] == g then 1 else 0
  {
    var n := |captured| - 1;
    if k == n {
      assert Without(captured, k) == captured[..n];
    } else {
      CapturedWithout(captured[..n], k, g);
      assert Without(captured, k) == Without(captured[..n], k) + [captured[n]];
      CapturedAppend(Without(captured[..n], k), captured[n], g);
    }
  }

  lemma {:induction false} CapturedNone(captured: seq<nat>, g: nat)
    requires g !in captured
    ensures Captured(captured, g) == 0
  {
    if captured != [] { CapturedNone(captured[..|captured| - 1], g); }
  }

  lemma {:induction false} ResponsesNone(frames: seq<Frame>, g: nat)
    requires forall k :: 0 <= k < |frames| ==> frames[k].generation != g
    ensures Responses(frames, g) == 0
  {
    if frames != [] { ResponsesNone(frames[..|frames| - 1], g); }
  }

  // The requests of generation g that wait for the router, and those that were answered.
  function Served(s: Session, g: nat): nat {
    Captured(s.pending.responses, g) + Responses(s.frames, g)
  }

  // The step neither takes nor answers a request.
  predicate Elsewhere(s: Session, t: Session) {
    && t.pending.responses == s.pending.responses
    && (t.frames == s.frames
        || (t.frames != [] && !t.frames[|t.frames| - 1].kind.Response? && t.frames == s.frames + [t.frames[|t.frames| - 1]]))
  }

  lemma ElsewhereServes(s: Session, t: Session, g: nat)
    requires Elsewhere(s, t)
    ensures Served(t, g) == Served(s, g)
  {
    if t.frames != s.frames { ResponsesAppend(s.frames, t.frames[|t.frames| - 1], g); }
  }

  lemma ReceivedElsewhere(s: Session, message: Message, fits: bool)
    requires !(s.running && s.parts.ready && message.Request?)
    ensures Elsewhere(s, Received(s, message, fits))
  {
    ForceReconnectGrows(s);
  }

  lemma OutsideElsewhere(s: Session, e: Event)
    requires Enabled(s, e) && FromOutside(e) && !Takes(s, e)
    ensures Elsewhere(s, Next(s, e))
  {
    match e
    case SocketReceives(id, message, fits) =>
      var u := s.(client := Transport.HearMessage(s.client, id));
      if s.client.socket == Some(id) && !s.client.stopped { ReceivedElsewhere(u, message, fits); }
    case _ =>
  }

  lemma ProbedElsewhere(s: Session, k: nat, usable: bool, fits: bool)
    requires k < |s.pending.probes|
    ensures Elsewhere(s, Next(s, ProbeAnswers(k, usable, fits)))
  {
    ForceReconnectGrows(DropProbe(s, k).(helperReady := usable));
  }

  lemma TimersElsewhere(s: Session, e: Event)
    requires Enabled(s, e) && (e.RetryFires? || e.DeadlineFires? || e.PongExpires?)
    ensures Elsewhere(s, Next(s, e))
  {
    match e
    case RetryFires(k) => ForceReconnectGrows(DropRetry(s, k));
    case DeadlineFires => ForceReconnectGrows(Disarmed(s));
    case PongExpires => ForceReconnectGrows(s.(client := s.client.(pong := None)));
  }

  lemma BeatElsewhere(s: Session, fits: bool)
    requires Enabled(s, HeartbeatFires(fits))
    ensures Elsewhere(s, Next(s, HeartbeatFires(fits)))
  {
    ForceReconnectGrows(s);
  }

  lemma StepElsewhere(s: Session, e: Event)
    requires Enabled(s, e) && !Takes(s, e) && !e.ResponseReady?
    ensures Elsewhere(s, Next(s, e))
  {
    if FromOutside(e) {
      OutsideElsewhere(s, e);
    } else {
      match e
      case ProbeAnswers(k, usable, fits) => ProbedElsewhere(s, k, usable, fits);
      case HeartbeatFires(fits) => BeatElsewhere(s, fits);
      case SnapshotBegins =>
      case SnapshotReady(_, _) =>
      case _ => TimersElsewhere(s, e);
    }
  }

  lemma TakeStep(s: Session, e: Event)
    requires Linked(s) && Takes(s, e)
    ensures var t := Next(s, e);
            && t.generation == s.generation && t.frames == s.frames && t.parts.ready
            && t.pending.responses == s.pending.responses + [s.generation]
  {
  }

  // The answer to a request of this generation is sent, or the generation ends.
  lemma AnswerStep(s: Session, k: nat, fits: bool)
    requires Linked(s) && k < |s.pending.responses| && (s.pending.responses[k] == s.generation ==> s.parts.ready)
    ensures var t := Next(s, ResponseReady(k, fits));
            && t.pending.responses == Without(s.pending.responses, k)
            && (s.pending.responses[k] == s.generation ==>
                  (t.generation > s.generation || (t.frames != [] && IsResponse(t.frames[|t.frames| - 1], s.generation) && t.frames == s.frames + [t.frames[|t.frames| - 1]])))
            && (s.pending.responses[k] != s.generation ==> t.frames == s.frames && t.generation == s.generation)
  {
    var u := DropResponse(s, k);
    ForceReconnectGrows(u);
    if s.running { ForcedEnds(u); }
  }

  lemma AnswerServes(s: Session, k: nat, fits: bool)
    requires Linked(s) && k < |s.pending.responses| && (s.pending.responses[k] == s.generation ==> s.parts.ready)
    requires Next(s, ResponseReady(k, fits)).generation == s.generation
    ensures Served(Next(s, ResponseReady(k, fits)), s.generation) == Served(s, s.generation)
  {
    var t := Next(s, ResponseReady(k, fits));
    AnswerStep(s, k, fits);
    CapturedWithout(s.pending.responses, k, s.generation);
    if t.frames != [] { ResponsesAppend(s.frames, t.frames[|t.frames| - 1], s.generation); }
  }

  // In a new generation nothing is pending or answered yet.
  lemma FreshServes(s: Session, t: Session)
    requires Framed(s) && UpTo(s.pending.responses, s.generation) && s.generation < t.generation && t.frames == s.frames
    requires forall g :: g in t.pending.responses ==> g in s.pending.responses
    ensures Served(t, t.generation) == 0 && t.generation !in t.pending.responses
  {
    CapturedNone(t.pending.responses, t.generation);
    assert forall k :: 0 <= k < |s.frames| ==> FrameInv(s, s.frames[k]);
    ResponsesNone(t.frames, t.generation);
  }

  lemma {:induction false} TakenLater(linux: bool, events: seq<Event>, g: nat)
    requires Run(Init(linux), events).generation < g
    ensures Taken(linux, events, g) == 0
  {
    if events != [] {
      var before := events[..|events| - 1];
      RunKeepsInv(Init(linux), before);
      ReadyStep(Run(Init(linux), before), events[|events| - 1]);
      TakenLater(linux, before, g);
    }
  }

  // What a step owes: the balance of the generation it ends in.
  ghost predicate Balanced(s: Session, taken: nat) {
    taken == Served(s, s.generation) && (s.generation in s.pending.responses ==> s.parts.ready)
  }

  lemma BalancedStep(s: Session, e: Event, taken: nat)
    requires Inv(s) && Balanced(s, taken) && Next(s, e).generation == s.generation
    ensures Balanced(Next(s, e), taken + if Takes(s, e) then 1 else 0)
  {
    ReadyStep(s, e);
    var t := Next(s, e);
    if !Enabled(s, e) {
    } else if Takes(s, e) {
      TakeStep(s, e);
      CapturedAppend(s.pending.responses, s.generation, s.generation);
    } else if e.ResponseReady? {
      AnswerServes(s, e.k, e.fits);
      AnswerStep(s, e.k, e.fits);
    } else {
      StepElsewhere(s, e);
      ElsewhereServes(s, t, s.generation);
    }
  }

  lemma TurnedStep(s: Session, e: Event)
    requires Inv(s) && Next(s, e).generation != s.generation && (s.generation in s.pending.responses ==> s.parts.ready)
    ensures Balanced(Next(s, e), 0) && s.generation < Next(s, e).generation && !Takes(s, e)
  {
    ReadyStep(s, e);
    var t := Next(s, e);
    if Takes(s, e) { TakeStep(s, e); }
    StepIsOrderly(s, e);
    if e.ResponseReady? { AnswerStep(s, e.k, e.fits); } else { StepElsewhere(s, e); }
    FreshServes(s, t);
  }

  // Every request that was taken in the current generation waits for the router or has been
  // answered, once, in this generation and over its socket.
  lemma {:induction false} RequestsAreConserved(linux: bool, events: seq<Event>)
    ensures var s := Run(Init(linux), events);
            && Taken(linux, events, s.generation) == Captured(s.pending.responses, s.generation) + Responses(s.frames, s.generation)
            && (s.generation in s.pending.responses ==> s.parts.ready)
  {
    if events != [] {
      var before, e := events[..|events| - 1], events[|events| - 1];
      var s := Run(Init(linux), before);
      RequestsAreConserved(linux, before);
      RunKeepsInv(Init(linux), before);
      if Next(s, e).generation == s.generation {
        BalancedStep(s, e, Taken(linux, before, s.generation));
      } else {
        TurnedStep(s, e);
        TakenLater(linux, before, Next(s, e).generation);
      }
    }
  }

  // The object with its fields; the transport is a separate object, and its listeners are
  // the methods below. `parts` stands for the fields of the session and for those that the
  // router, the executor and the snapshot manager keep for it.
  class LifecycleManager {
    const linux: bool
    const transport: Transport.WebSocketClient
    var running: bool
    var generation: nat
    var helperReady: bool
    var parts: Parts
    var pending: Pending
    ghost var peers: map<nat, nat>
    ghost var frames: seq<Frame>

    ghost function View(): Session reads this, transport {
      Session(linux, transport.View(), running, generation, helperReady, parts, pending, peers, frames)
    }

    constructor (linux: bool)
      ensures View() == Init(linux) && fresh(transport)
    {
      this.linux := linux;
      transport := new Transport.WebSocketClient();
      running, generation, helperReady, parts := false, 0, false, CLEARED;
      pending, peers, frames := Pending([], [], [], []), map[], [];
    }

    method ClearAll()
      modifies `parts
      ensures View() == ClearSession(old(View()))
    {
      parts := parts.(ready := false);
      parts := parts.(policy := None, executor := None);
      parts := parts.(snapshots := None);
      parts := parts.(deadline := None, heartbeat := None);
    }

    method StartSession()
      modifies this, transport
      ensures View() == Next(old(View()), Start)
    {
      if running { return; }
      running := true;
      generation := generation + 1;
      ClearAll();
      transport.ConnectSocket();
    }

    method StopSession()
      modifies this, transport
      ensures View() == Next(old(View()), Stop)
    {
      running := false;
      generation := generation + 1;
      ClearAll();
      transport.CloseClient();
    }

    method OnClosed()
      modifies `generation, `parts
      ensures View() == Closed(old(View()))
    {
      if !running { return; }
      generation := generation + 1;
      ClearAll();
    }

    method Reconnect()
      modifies `generation, `parts, transport
      ensures View() == ForceReconnect(old(View()))
    {
      if transport.stopped { return; }
      transport.DropSocket();
      OnClosed();
      transport.Schedule();
    }

    method SendFrame(kind: FrameKind, captured: nat, fits: bool) returns (sent: bool)
      modifies `frames
      ensures sent == CanSend(old(View()), fits)
      ensures View() == if sent then Send(old(View()), kind, captured) else old(View())
    {
      sent := transport.SocketIsOpen() && fits;
      if sent { frames := frames + [Frame(kind, captured, generation, parts.ready, transport.socket)]; }
    }

    // open, up to the await of the capability probe.
    method OnOpened(id: nat)
      modifies this
      ensures View() == Opened(old(View()), id)
    {
      if !running { return; }
      generation := generation + 1;
      ClearAll();
      helperReady := false;
      peers := peers[generation := id];
      pending := pending.(probes := pending.probes + [generation]);
    }

    // open, after the await.
    method AfterProbe(captured: nat, usable: bool, fits: bool)
      modifies this, transport
      ensures View() == Probed(old(View()), captured, usable, fits)
    {
      if !running || captured != generation || !transport.SocketIsOpen() { return; }
      helperReady := usable;
      var sent := SendFrame(HandshakeFrame, captured, fits);
      if !sent { Reconnect(); return; }
      parts := parts.(deadline := Some(generation));
    }

    // message, up to the await of the router.
    method OnMessage(message: Message, fits: bool)
      modifies this, transport
      ensures View() == Received(old(View()), message, fits)
    {
      if !running { return; }
      if message.Malformed? { Reconnect(); return; }
      if !parts.ready {
        if !message.Handshake? { Reconnect(); return; }
        AcceptHandshake(message.answer);
        return;
      }
      if !message.Request? {
        var sent := SendFrame(Invalid, generation, fits);
        if !sent { Reconnect(); }
        return;
      }
      pending := pending.(responses := pending.responses + [generation]);
    }

    // An answer that breaks the handshake contract drops the connection.
    method AcceptHandshake(answer: Answer)
      requires running && !parts.ready
      modifies this, transport
      ensures View() == Received(old(View()), Handshake(answer), true)
    {
      if answer.Rejected? { Reconnect(); return; }
      parts := parts.(deadline := None);
      if answer.Provisional? {
        pending := pending.(retries := pending.retries + [generation]);
      } else {
        InstallSession();
      }
    }

    // The parts of an authenticated session, in the order the source installs them.
    method InstallSession()
      modifies `parts, transport`attempts
      ensures View() == Install(old(View()))
    {
      parts := parts.(policy := Some(generation), executor := Some(generation));
      parts := parts.(ready := true);
      transport.attempts := 0;
      parts := parts.(snapshots := Some(generation));
      parts := parts.(heartbeat := Some(generation));
    }

    // message, after the await.
    method AfterRouter(captured: nat, fits: bool)
      modifies this, transport
      ensures View() == Answered(old(View()), captured, fits)
    {
      if !parts.ready || captured != generation { return; }
      var sent := SendFrame(Response, captured, fits);
      if !sent { Reconnect(); }
    }

    method FireHeartbeat(fits: bool)
      requires parts.heartbeat.Some?
      modifies this, transport
      ensures View() == Next(old(View()), HeartbeatFires(fits))
    {
      if parts.ready && parts.heartbeat.value == generation {
        var sent := SendFrame(Heartbeat, parts.heartbeat.value, fits);
        if !sent { Reconnect(); }
      }
    }

    method FireRetry(k: nat)
      requires k < |pending.retries|
      modifies this, transport
      ensures View() == Next(old(View()), RetryFires(k))
    {
      var captured := pending.retries[k];
      pending := pending.(retries := Without(pending.retries, k));
      if captured == generation { Reconnect(); }
    }

    method BeginSnapshot()
      requires parts.snapshots.Some?
      modifies `pending
      ensures View() == Next(old(View()), SnapshotBegins)
    {
      pending := pending.(collections := pending.collections + [parts.snapshots.value]);
    }

    // The send callback that the snapshot managers were given.
    method SendSnapshot(k: nat, fits: bool)
      requires k < |pending.collections|
      modifies `pending, `frames
      ensures View() == Next(old(View()), SnapshotReady(k, fits))
    {
      var captured := pending.collections[k];
      pending := pending.(collections := Without(pending.collections, k));
      if (linux || parts.snapshots == Some(captured)) && parts.ready {
        var sent := SendFrame(SnapshotFrame, captured, fits);
      }
    }
  }
}
