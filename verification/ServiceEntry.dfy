// The Windows service entry: framing of the control pipe, and the START, STOP, end of input
// and deadline events that decide how the runtime is started, stopped and reported.
module ServiceEntry {
  import opened Options

  type Unit = u: int | 0 <= u < 256
  type Bytes = seq<Unit>

  const NEWLINE: Unit := 10
  const MAX_LINE: nat := 4096
  const MAX_INPUT: nat := 8192

  // What a complete line of the control stream asks for; parsing it is left to a parameter.
  datatype Command = Start(launch: string) | Stop | Invalid
  type Parser = Bytes -> Command

  datatype Timer = Off | StartDeadline | StartupDeadline

  datatype Outcome = Resolved | Rejected

  datatype State = State(
    buffer: Bytes,
    starts: seq<string>,
    started: bool,
    starting: bool,
    handle: bool,
    stopRequested: bool,
    stops: nat,
    stopping: bool,
    timer: Timer,
    outcome: Option<Outcome>)

  datatype Service = Service(core: State, inputBytes: nat)

  const INITIAL := Service(State([], [], false, false, false, false, 0, false, StartDeadline, None), 0)

  // --- One byte at a time ---

  // The first settlement wins. Once settled, the timer is cleared and the input detached.
  function Settle(s: State, outcome: Outcome): State {
    if s.outcome.Some? then s else s.(outcome := Some(outcome), timer := Off, buffer := [])
  }

  function BoundedStop(s: State): State {
    if s.stops > 0 then s else s.(stops := 1, stopping := true)
  }

  function RequestStop(s: State): State {
    var t := s.(stopRequested := true);
    if t.handle then BoundedStop(t) else if !t.started then Settle(t, Resolved) else t
  }

  function Fail(s: State): State {
    RequestStop(Settle(s, Rejected))
  }

  function Line(s: State, command: Command): State {
    match command
    case Stop => RequestStop(s)
    case Invalid => Fail(s)
    case Start(launch) =>
      if s.started || s.stopRequested then Fail(s)
      else s.(started := true, starting := true, timer := StartupDeadline, starts := s.starts + [launch])
  }

  function ReadByte(s: State, b: Unit, parse: Parser): State {
    if s.outcome.Some? then s
    else if b == NEWLINE then Line(s.(buffer := []), parse(s.buffer))
    else if |s.buffer| + 1 > MAX_LINE then Fail(s)
    else s.(buffer := s.buffer + [b])
  }

  function Read(s: State, bytes: Bytes, parse: Parser): State
    decreases |bytes|
  {
    if bytes == [] then s else Read(ReadByte(s, bytes[0], parse), bytes[1..], parse)
  }

  // One chunk. The limit on all input is checked before any of the chunk is looked at.
  function Data(s: Service, chunk: Bytes, parse: Parser): Service {
    if s.core.outcome.Some? then s
    else
      var n := s.inputBytes + |chunk|;
      Service(if n > MAX_INPUT then Fail(s.core) else Read(s.core, chunk, parse), n)
  }

  // --- Everything that can happen ---

  datatype Event =
    | Chunk(bytes: Bytes)
    | End
    | InputError
    | TimerFires
    | RuntimeStarted
    | StartFailed
    | StopFinished(ok: bool)

  function Step(s: State, e: Event): State {
    match e
    case Chunk(_) => s
    case End =>
      if s.outcome.Some? then s else if !s.started || s.buffer != [] then Fail(s) else RequestStop(s)
    case InputError => if s.outcome.Some? then s else Fail(s)
    case TimerFires =>
      (match s.timer
       case Off => s
       case StartDeadline => Settle(s.(timer := Off), Rejected)
       case StartupDeadline => Settle(s.(timer := Off, stopRequested := true), Rejected))
    case RuntimeStarted =>
      if !s.starting then s
      else
        var t := s.(starting := false, handle := true, timer := Off);
        if t.stopRequested then BoundedStop(t) else t
    case StartFailed => if !s.starting then s else Settle(s.(starting := false), Rejected)
    case StopFinished(ok) =>
      if !s.stopping then s else Settle(s.(stopping := false), if ok then Resolved else Rejected)
  }

  function Next(s: Service, e: Event, parse: Parser): Service {
    if e.Chunk? then Data(s, e.bytes, parse) else s.(core := Step(s.core, e))
  }

  function Run(s: Service, events: seq<Event>, parse: Parser): Service
    decreases |events|
  {
    if events == [] then s else Run(Next(s, events[0], parse), events[1..], parse)
  }

  // --- The pipe handler as it is written ---

  class Entry {
    var buffer: Bytes
    var inputBytes: nat
    var starts: seq<string>
    var started: bool
    var starting: bool
    var handle: bool
    var stopRequested: bool
    var stops: nat
    var stopping: bool
    var timer: Timer
    var outcome: Option<Outcome>

    // What is left in the buffer after settlement is never looked at.
    ghost function View(): State
      reads this
    {
      State(if outcome.Some? then [] else buffer, starts, started, starting, handle, stopRequested, stops, stopping,
            timer, outcome)
    }

    constructor ()
      ensures Service(View(), inputBytes) == INITIAL
    {
      buffer, inputBytes, starts := [], 0, [];
      started, starting, handle, stopRequested := false, false, false, false;
      stops, stopping, timer, outcome := 0, false, StartDeadline, None;
    }

    method Finish(result: Outcome)
      modifies `outcome, `timer
      ensures View() == Settle(old(View()), result)
    {
      if outcome.None? {
        outcome := Some(result);
        timer := Off;
      }
    }

    method AskToStop()
      modifies `stopRequested, `stops, `stopping, `outcome, `timer
      ensures View() == RequestStop(old(View()))
    {
      stopRequested := true;
      if handle {
        if stops == 0 { stops, stopping := 1, true; }
      } else if !started {
        Finish(Resolved);
      }
    }

    method Reject()
      modifies `stopRequested, `stops, `stopping, `outcome, `timer
      ensures View() == Fail(old(View()))
    {
      Finish(Rejected);
      AskToStop();
    }

    // The input stays attached until the outcome is known.
    method OnEnd()
      requires outcome.None?
      modifies `stopRequested, `stops, `stopping, `outcome, `timer
      ensures View() == Step(old(View()), End)
    {
      if !started || |buffer| > 0 { Reject(); } else { AskToStop(); }
    }

    method OnTimer()
      modifies `stopRequested, `outcome, `timer
      ensures View() == Step(old(View()), TimerFires)
    {
      if timer == Off { return; }
      if timer == StartupDeadline { stopRequested := true; }
      timer := Off;
      Finish(Rejected);
    }

    method OnStarted()
      requires starting
      modifies `starting, `handle, `timer, `stops, `stopping
      ensures View() == Step(old(View()), RuntimeStarted)
    {
      starting, handle, timer := false, true, Off;
      if stopRequested && stops == 0 { stops, stopping := 1, true; }
    }

    method OnStartFailed()
      requires starting
      modifies `starting, `outcome, `timer
      ensures View() == Step(old(View()), StartFailed)
    {
      starting := false;
      Finish(Rejected);
    }

    method OnStopFinished(ok: bool)
      requires stopping
      modifies `stopping, `outcome, `timer
      ensures View() == Step(old(View()), StopFinished(ok))
    {
      stopping := false;
      Finish(if ok then Resolved else Rejected);
    }

    // One parsed line; true when the handler gives up on the chunk.
    method Handle(command: Command) returns (refused: bool)
      modifies `started, `starting, `starts, `stopRequested, `stops, `stopping, `outcome, `timer
      ensures View() == Line(old(View()), command)
      ensures refused ==> View() == Fail(old(View()))
    {
      refused := command.Invalid? || (command.Start? && (started || stopRequested));
      if refused {
        Reject();
      } else if command.Stop? {
        AskToStop();
      } else {
        started, starting, timer, starts := true, true, StartupDeadline, starts + [command.launch];
      }
    }

    // The source's loop over the lines of a chunk does what reading byte by byte does.
    method OnData(chunk: Bytes, parse: Parser)
      requires outcome.None? && Framed(View())
      modifies this
      ensures Service(View(), inputBytes) == Data(old(Service(View(), inputBytes)), chunk, parse)
    {
      inputBytes := inputBytes + |chunk|;
      if inputBytes > MAX_INPUT {
        Reject();
        return;
      }
      Unread(View(), parse);
      ReadAppend(View().(buffer := []), buffer, chunk, parse);
      buffer := buffer + chunk;
      Lines(parse);
    }

    method Lines(parse: Parser)
      requires outcome.None?
      modifies `buffer, `started, `starting, `starts, `stopRequested, `stops, `stopping, `outcome, `timer
      ensures View() == Read(old(View()).(buffer := []), old(buffer), parse)
    {
      ghost var last := Read(View().(buffer := []), buffer, parse);
      while |buffer| > 0
        invariant Read(View().(buffer := []), buffer, parse) == last
        invariant outcome.Some? ==> Quiet(View())
        decreases |buffer|
      {
        var done := TakeLine(parse);
        if done { return; }
      }
    }

    // No line to read: a partial line is kept within its limit, and a long one rejected.
    method KeepOrReject(newline: nat, parse: Parser)
      requires newline == IndexOfNewline(buffer) && (newline == |buffer| || newline > MAX_LINE)
      requires outcome.Some? ==> Quiet(View())
      modifies `stopRequested, `stops, `stopping, `outcome, `timer
      ensures View() == old(Read(View().(buffer := []), buffer, parse))
    {
      Progress(View().(buffer := []), buffer, newline, parse);
      if newline == |buffer| {
        if |buffer| > MAX_LINE { Reject(); }
      } else {
        Reject();
      }
    }

    // The body of the loop: the first line of the buffer, or the reason to wait for more.
    method TakeLine(parse: Parser) returns (done: bool)
      requires outcome.Some? ==> Quiet(View())
      modifies `buffer, `started, `starting, `starts, `stopRequested, `stops, `stopping, `outcome, `timer
      ensures old(Read(View().(buffer := []), buffer, parse)) == if done then View() else Read(View().(buffer := []), buffer, parse)
      ensures !done ==> |buffer| < old(|buffer|) && (outcome.Some? ==> Quiet(View()))
    {
      var newline := IndexOfNewline(buffer);
      if newline == |buffer| || newline > MAX_LINE {
        KeepOrReject(newline, parse);
        return true;
      }
      Progress(View().(buffer := []), buffer, newline, parse);
      var line := buffer[..newline];
      buffer := buffer[newline + 1..];
      done := Apply(parse(line), parse);
    }

    method Apply(command: Command, parse: Parser) returns (done: bool)
      requires outcome.Some? ==> Quiet(View())
      modifies `started, `starting, `starts, `stopRequested, `stops, `stopping, `outcome, `timer
      ensures Read(Line(old(View()).(buffer := []), command), buffer, parse)
           == if done then View() else Read(View().(buffer := []), buffer, parse)
      ensures !done && outcome.Some? ==> Quiet(View())
    {
      ghost var s := View();
      done := Handle(command);
      Applied(s, command, View(), done, buffer, parse);
    }
  }

  // The position of the first newline, or the length when there is none.
  function IndexOfNewline(s: Bytes): (k: nat)
    ensures k <= |s| && (k < |s| ==> s[k] == NEWLINE) && forall j :: 0 <= j < k ==> s[j] != NEWLINE
  {
    if s == [] || s[0] == NEWLINE then 0 else 1 + IndexOfNewline(s[1..])
  }

  // Between chunks the buffer holds the beginning of one line.
  predicate Framed(s: State) {
    |s.buffer| <= MAX_LINE && NEWLINE !in s.buffer && (s.outcome.Some? ==> s.buffer == [])
  }

  // Settled while reading: no further command changes anything.
  predicate Quiet(s: State) {
    s.outcome.Some? && s.stopRequested && (s.handle ==> s.stops > 0) && s.timer == Off
  }

  // --- The loop over lines reads every byte once ---

  lemma {:induction false} ReadAppend(s: State, a: Bytes, b: Bytes, parse: Parser)
    ensures Read(s, a + b, parse) == Read(Read(s, a, parse), b, parse)
    decreases |a|
  {
    if a == [] {
      assert a + b == b;
    } else {
      assert (a + b)[0] == a[0] && (a + b)[1..] == a[1..] + b;
      ReadAppend(ReadByte(s, a[0], parse), a[1..], b, parse);
    }
  }

  lemma {:induction false} ReadSettled(s: State, bytes: Bytes, parse: Parser)
    requires s.outcome.Some?
    ensures Read(s, bytes, parse) == s
    decreases |bytes|
  {
    if bytes != [] { ReadSettled(s, bytes[1..], parse); }
  }

  // A piece of a line is kept if it fits and refused if it does not.
  lemma {:induction false} ReadPiece(s: State, piece: Bytes, parse: Parser)
    requires s.outcome.None? && NEWLINE !in piece && |s.buffer| <= MAX_LINE
    ensures Read(s, piece, parse) == if |s.buffer| + |piece| <= MAX_LINE then s.(buffer := s.buffer + piece) else Fail(s)
    decreases |piece|
  {
    if piece == [] {
      assert s.buffer + piece == s.buffer;
    } else if |s.buffer| == MAX_LINE {
      ReadSettled(Fail(s), piece[1..], parse);
    } else {
      assert s.buffer + piece == s.buffer + [piece[0]] + piece[1..];
      ReadPiece(s.(buffer := s.buffer + [piece[0]]), piece[1..], parse);
    }
  }

  lemma Unread(s: State, parse: Parser)
    requires Framed(s)
    ensures Read(s.(buffer := []), s.buffer, parse) == s
  {
    if s.outcome.None? { ReadPiece(s.(buffer := []), s.buffer, parse); }
  }

  lemma ReadFirstLine(s: State, piece: Bytes, rest: Bytes, parse: Parser)
    requires s.buffer == [] && s.outcome.None? && NEWLINE !in piece && |piece| <= MAX_LINE
    ensures Read(s, piece + ([NEWLINE] + rest), parse) == Read(Line(s, parse(piece)), rest, parse)
  {
    var tail := [NEWLINE] + rest;
    ReadAppend(s, piece, tail, parse);
    ReadPiece(s, piece, parse);
    assert [] + piece == piece;
    assert tail[0] == NEWLINE && tail[1..] == rest;
  }

  lemma ReadTooLong(s: State, piece: Bytes, rest: Bytes, parse: Parser)
    requires s.buffer == [] && s.outcome.None? && NEWLINE !in piece && |piece| > MAX_LINE
    ensures Read(s, piece + rest, parse) == Fail(s)
  {
    ReadAppend(s, piece, rest, parse);
    ReadPiece(s, piece, parse);
    ReadSettled(Fail(s), rest, parse);
  }

  lemma OpenTooLong(s: State, bytes: Bytes, newline: nat, parse: Parser)
    requires s.buffer == [] && newline == IndexOfNewline(bytes) && s.outcome.None? && newline > MAX_LINE
    ensures Read(s, bytes, parse) == Fail(s)
  {
    assert bytes == bytes[..newline] + bytes[newline..];
    ReadTooLong(s, bytes[..newline], bytes[newline..], parse);
  }

  lemma OpenPiece(s: State, bytes: Bytes, newline: nat, parse: Parser)
    requires s.buffer == [] && newline == IndexOfNewline(bytes) && s.outcome.None? && newline <= MAX_LINE && newline == |bytes|
    ensures Read(s, bytes, parse) == s.(buffer := bytes)
  {
    ReadPiece(s, bytes, parse);
    assert [] + bytes == bytes;
  }

  lemma OpenLine(s: State, bytes: Bytes, newline: nat, parse: Parser)
    requires s.buffer == [] && newline == IndexOfNewline(bytes) && s.outcome.None? && newline <= MAX_LINE && newline < |bytes|
    ensures Read(s, bytes, parse) == Read(Line(s, parse(bytes[..newline])), bytes[newline + 1..], parse)
  {
    var piece, rest := bytes[..newline], bytes[newline + 1..];
    SplitAt(bytes, newline);
    NotIn(bytes, newline);
    assert bytes == piece + ([NEWLINE] + rest);
    ReadFirstLine(s, piece, rest, parse);
  }

  lemma SplitAt(bytes: Bytes, k: nat)
    requires k < |bytes|
    ensures bytes == bytes[..k] + ([bytes[k]] + bytes[k + 1..])
  {
    var tail := [bytes[k]] + bytes[k + 1..];
    assert tail == bytes[k..];
    assert bytes[..k] + bytes[k..] == bytes;
  }

  lemma NotIn(bytes: Bytes, k: nat)
    requires k <= |bytes| && forall j :: 0 <= j < k ==> bytes[j] != NEWLINE
    ensures NEWLINE !in bytes[..k]
  {
    forall j | 0 <= j < k ensures bytes[..k][j] != NEWLINE {}
  }

  // What the loop relies on, settled or not.
  lemma Progress(s: State, bytes: Bytes, newline: nat, parse: Parser)
    requires s.buffer == [] && newline == IndexOfNewline(bytes) && (s.outcome.Some? ==> Quiet(s))
    ensures newline > MAX_LINE ==> Read(s, bytes, parse) == Fail(s)
    ensures newline <= MAX_LINE && newline == |bytes| ==> Read(s, bytes, parse) == if s.outcome.Some? then s else s.(buffer := bytes)
    ensures newline <= MAX_LINE && newline < |bytes| ==>
              Read(s, bytes, parse) == Read(Line(s, parse(bytes[..newline])), bytes[newline + 1..], parse)
  {
    if s.outcome.Some? {
      ReadQuiet(s, bytes, newline, parse);
    } else if newline > MAX_LINE {
      OpenTooLong(s, bytes, newline, parse);
    } else if newline == |bytes| {
      OpenPiece(s, bytes, newline, parse);
    } else {
      OpenLine(s, bytes, newline, parse);
    }
  }

  lemma SettleIgnoresBuffer(s: State, outcome: Outcome)
    ensures Settle(s, outcome).(buffer := []) == Settle(s.(buffer := []), outcome)
  {
  }

  lemma StopIgnoresBuffer(s: State)
    ensures RequestStop(s).(buffer := []) == RequestStop(s.(buffer := []))
  {
    var t := s.(stopRequested := true);
    assert t.(buffer := []) == s.(buffer := []).(stopRequested := true);
    if !t.handle && !t.started { SettleIgnoresBuffer(t, Resolved); }
  }

  lemma FailIgnoresBuffer(s: State)
    ensures Fail(s).(buffer := []) == Fail(s.(buffer := []))
  {
    SettleIgnoresBuffer(s, Rejected);
    StopIgnoresBuffer(Settle(s, Rejected));
  }

  // What is left in the buffer has no part in a command.
  lemma LineIgnoresBuffer(s: State, command: Command)
    ensures Line(s, command).(buffer := []) == Line(s.(buffer := []), command)
  {
    FailIgnoresBuffer(s);
    StopIgnoresBuffer(s);
  }

  // u is what the command made of s; a refused one has settled the service with an empty buffer.
  lemma Applied(s: State, command: Command, u: State, refused: bool, rest: Bytes, parse: Parser)
    requires (s.outcome.Some? ==> Quiet(s) && s.buffer == []) && u == Line(s, command) && (refused ==> u == Fail(s))
    ensures Read(Line(s.(buffer := []), command), rest, parse) == if refused then u else Read(u.(buffer := []), rest, parse)
    ensures u.outcome.Some? ==> Quiet(u)
  {
    LineIgnoresBuffer(s, command);
    SettlesQuietly(s, command);
    if refused { ReadSettled(u, rest, parse); }
  }

  lemma SettlesQuietly(s: State, command: Command)
    requires s.outcome.Some? ==> Quiet(s)
    ensures Line(s, command).outcome.Some? ==> Quiet(Line(s, command))
  {
  }

  // Settled in the middle of a chunk: the rest of it is read without effect.
  lemma ReadQuiet(s: State, bytes: Bytes, newline: nat, parse: Parser)
    requires Quiet(s) && s.buffer == []
    ensures Read(s, bytes, parse) == s
    ensures newline < |bytes| ==> Read(s, bytes[newline + 1..], parse) == s
    ensures Fail(s) == s && forall command :: Line(s, command) == s
  {
    ReadSettled(s, bytes, parse);
    if newline < |bytes| { ReadSettled(s, bytes[newline + 1..], parse); }
  }

  // --- How the stream is cut into chunks does not matter ---

  // The same to everyone outside: only the count of bytes that arrived after settlement may differ.
  predicate Alike(s: Service, t: Service) {
    s.core == t.core && (s.core.outcome.None? ==> s.inputBytes == t.inputBytes)
  }

  lemma ChunkCanBeSplit(s: Service, a: Bytes, b: Bytes, parse: Parser)
    requires s.core.outcome.Some? || s.inputBytes + |a| + |b| <= MAX_INPUT
    ensures Alike(Data(Data(s, a, parse), b, parse), Data(s, a + b, parse))
  {
    var t := Read(s.core, a, parse);
    ReadAppend(s.core, a, b, parse);
    if t.outcome.Some? { ReadSettled(t, b, parse); }
  }

  lemma AlikeStep(s: Service, t: Service, e: Event, parse: Parser)
    requires Alike(s, t)
    ensures Alike(Next(s, e, parse), Next(t, e, parse))
  {
  }

  lemma {:induction false} AlikeRun(s: Service, t: Service, events: seq<Event>, parse: Parser)
    requires Alike(s, t)
    ensures Alike(Run(s, events, parse), Run(t, events, parse))
    decreases |events|
  {
    if events != [] {
      AlikeStep(s, t, events[0], parse);
      AlikeRun(Next(s, events[0], parse), Next(t, events[0], parse), events[1..], parse);
    }
  }

  lemma {:induction false} RunAppend(s: Service, a: seq<Event>, b: seq<Event>, parse: Parser)
    ensures Run(s, a + b, parse) == Run(Run(s, a, parse), b, parse)
    decreases |a|
  {
    if a == [] {
      assert a + b == b;
    } else {
      assert (a + b)[0] == a[0] && (a + b)[1..] == a[1..] + b;
      RunAppend(Next(s, a[0], parse), a[1..], b, parse);
    }
  }

  function Concat(chunks: seq<Bytes>): Bytes {
    if chunks == [] then [] else chunks[0] + Concat(chunks[1..])
  }

  function Chunks(chunks: seq<Bytes>): seq<Event> {
    if chunks == [] then [] else [Chunk(chunks[0])] + Chunks(chunks[1..])
  }

  lemma {:induction false} ChunksAreOne(s: Service, chunks: seq<Bytes>, parse: Parser)
    requires s.core.outcome.Some? || s.inputBytes + |Concat(chunks)| <= MAX_INPUT
    ensures Alike(Run(s, Chunks(chunks), parse), Data(s, Concat(chunks), parse))
    decreases |chunks|
  {
    if chunks != [] {
      var first, rest := chunks[0], chunks[1..];
      ChunksAreOne(Data(s, first, parse), rest, parse);
      ChunkCanBeSplit(s, first, Concat(rest), parse);
      assert Chunks(chunks)[0] == Chunk(first) && Chunks(chunks)[1..] == Chunks(rest);
    }
  }

  // Any two ways to cut the same bytes into chunks, at any point of a run, lead to the same.
  lemma ChunkingIsInvisible(before: seq<Event>, xs: seq<Bytes>, ys: seq<Bytes>, after: seq<Event>, parse: Parser)
    requires Concat(xs) == Concat(ys)
    requires var s := Run(INITIAL, before, parse); s.core.outcome.Some? || s.inputBytes + |Concat(xs)| <= MAX_INPUT
    ensures Alike(Run(INITIAL, before + (Chunks(xs) + after), parse), Run(INITIAL, before + (Chunks(ys) + after), parse))
  {
    var s := Run(INITIAL, before, parse);
    ChunksAreOne(s, xs, parse);
    ChunksAreOne(s, ys, parse);
    AlikeRun(Run(s, Chunks(xs), parse), Run(s, Chunks(ys), parse), after, parse);
    RunAppend(s, Chunks(xs), after, parse);
    RunAppend(s, Chunks(ys), after, parse);
    RunAppend(INITIAL, before, Chunks(xs) + after, parse);
    RunAppend(INITIAL, before, Chunks(ys) + after, parse);
  }

  // Past the limit on all input it does matter: a chunk that crosses the limit is refused
  // whole, so what its beginning asked for is lost.
  lemma CrossingChunkIff(s: Service, a: Bytes, b: Bytes, parse: Parser)
    requires s.core.outcome.None? && s.inputBytes + |a| <= MAX_INPUT < s.inputBytes + |a| + |b|
    ensures var split, whole := Data(Data(s, a, parse), b, parse).core, Data(s, a + b, parse).core;
            && (split.outcome == whole.outcome <==> Data(s, a, parse).core.outcome != Some(Resolved))
            && (split.starts == whole.starts <==> Data(s, a, parse).core.starts == s.core.starts)
  {
    var t, n := Read(s.core, a, parse), s.inputBytes + |a|;
    assert |a + b| == |a| + |b|;
    assert Data(s, a, parse) == Service(t, n);
    assert Data(s, a + b, parse).core == Fail(s.core);
    assert Data(Service(t, n), b, parse).core == if t.outcome.Some? then t else Fail(t);
    assert Fail(s.core).outcome == Some(Rejected);
    assert t.outcome.None? ==> Fail(t).outcome == Some(Rejected);
    assert t.outcome.Some? ==> t.outcome.value.Resolved? || t.outcome.value.Rejected?;
  }

  lemma CrossingChunkExample(line: Bytes, rest: Bytes, parse: Parser)
    requires parse(line) == Stop && NEWLINE !in line && |line| <= MAX_LINE && |line| + 1 + |rest| > MAX_INPUT
    ensures Data(Data(INITIAL, line + [NEWLINE], parse), rest, parse).core.outcome == Some(Resolved)
    ensures Data(INITIAL, line + [NEWLINE] + rest, parse).core.outcome == Some(Rejected)
  {
    var s := INITIAL.core;
    var t := s.(buffer := line);
    ReadAppend(s, line, [NEWLINE], parse);
    ReadPiece(s, line, parse);
    assert s.buffer + line == line;
    assert Read(t, [NEWLINE], parse) == ReadByte(t, NEWLINE, parse);
  }

  // --- Every run ---

  ghost predicate Inv(s: State) {
    && |s.starts| == (if s.started then 1 else 0)
    && (s.starting ==> s.started && !s.handle) && (s.handle ==> s.started)
    && s.stops == (if s.handle && s.stopRequested then 1 else 0)
    && (s.stopping ==> s.stops == 1)
    && (s.timer == StartDeadline ==> !s.started) && (s.timer == StartupDeadline ==> s.starting)
    && (if s.outcome.None? then Waiting(s) else Finished(s))
  }

  // Not settled: some deadline is armed, or the runtime is up, or its bounded stop is running.
  predicate Waiting(s: State) {
    && |s.buffer| <= MAX_LINE && NEWLINE !in s.buffer
    && (!s.started ==> s.timer == StartDeadline && !s.stopRequested)
    && (s.started ==> s.starting || s.handle)
    && (s.starting ==> s.timer == StartupDeadline)
    && (s.handle ==> s.timer == Off && (s.stopRequested <==> s.stopping))
  }

  // Settled: a runtime that is up or may still come up has been or will be stopped, and
  // success means that nothing was started or that the runtime stopped cleanly.
  predicate Finished(s: State) {
    && s.timer == Off && s.buffer == []
    && (s.starting || s.handle ==> s.stopRequested)
    && (s.outcome == Some(Resolved) ==> s.stopRequested && (s.started ==> s.handle && !s.stopping))
  }

  lemma ReadByteInv(s: State, b: Unit, parse: Parser)
    requires Inv(s)
    ensures Inv(ReadByte(s, b, parse))
  {
  }

  lemma {:induction false} ReadInv(s: State, bytes: Bytes, parse: Parser)
    requires Inv(s)
    ensures Inv(Read(s, bytes, parse))
    decreases |bytes|
  {
    if bytes != [] {
      ReadByteInv(s, bytes[0], parse);
      ReadInv(ReadByte(s, bytes[0], parse), bytes[1..], parse);
    }
  }

  lemma StepInv(s: State, e: Event)
    requires Inv(s)
    ensures Inv(Step(s, e))
  {
  }

  lemma {:induction false} RunInv(s: Service, events: seq<Event>, parse: Parser)
    requires Inv(s.core)
    ensures Inv(Run(s, events, parse).core)
    decreases |events|
  {
    if events != [] {
      if events[0].Chunk? { ReadInv(s.core, events[0].bytes, parse); } else { StepInv(s.core, events[0]); }
      RunInv(Next(s, events[0], parse), events[1..], parse);
    }
  }

  // The runtime is started at most once and, once it is up and a stop has been asked for by
  // STOP, end of input, failure or deadline, its handle is stopped exactly once.
  lemma StartedAndStoppedOnce(events: seq<Event>, parse: Parser)
    ensures var s := Run(INITIAL, events, parse).core;
            |s.starts| <= 1 && s.stops == (if s.handle && s.stopRequested then 1 else 0)
  {
    RunInv(INITIAL, events, parse);
  }

  // Settling always leaves a runtime that is up, or still coming up, with a stop request.
  lemma NoRuntimeIsLeftRunning(events: seq<Event>, parse: Parser)
    ensures var s := Run(INITIAL, events, parse).core;
            s.outcome.Some? ==> (s.handle ==> s.stops == 1) && (s.starting ==> Step(s, RuntimeStarted).stops == 1)
    ensures var s := Run(INITIAL, events, parse).core;
            s.outcome == Some(Resolved) ==> s.starts == [] || (s.handle && s.stops == 1 && !s.stopping)
  {
    RunInv(INITIAL, events, parse);
  }

  predicate Closed(s: State) {
    s.stopRequested || s.outcome.Some?
  }

  // What stays as it is once a service is closed.
  predicate Follows(s: State, t: State) {
    && Closed(t) && t.starts == s.starts && (s.stopRequested ==> t.stopRequested) && (s.started <==> t.started)
    && (s.outcome.Some? ==> t.outcome == s.outcome)
  }

  lemma ReadByteClosed(s: State, b: Unit, parse: Parser)
    requires Closed(s)
    ensures Follows(s, ReadByte(s, b, parse))
  {
  }

  lemma {:induction false} ReadClosed(s: State, bytes: Bytes, parse: Parser)
    requires Closed(s)
    ensures Follows(s, Read(s, bytes, parse))
    decreases |bytes|
  {
    if bytes != [] {
      ReadByteClosed(s, bytes[0], parse);
      ReadClosed(ReadByte(s, bytes[0], parse), bytes[1..], parse);
    }
  }

  lemma StepClosed(s: State, e: Event)
    requires Closed(s)
    ensures Follows(s, Step(s, e))
  {
  }

  // After STOP, end of input, a protocol failure or a deadline nothing is started, and the
  // first settlement is the result.
  lemma {:induction false} NothingStartsAfterStop(s: Service, events: seq<Event>, parse: Parser)
    requires Closed(s.core)
    ensures Follows(s.core, Run(s, events, parse).core)
    decreases |events|
  {
    if events != [] {
      if events[0].Chunk? { ReadClosed(s.core, events[0].bytes, parse); } else { StepClosed(s.core, events[0]); }
      NothingStartsAfterStop(Next(s, events[0], parse), events[1..], parse);
    }
  }

  // A stop was asked for: a runtime that is up has been stopped once, and until the result is
  // known the runtime is coming up under its deadline or its stop is running.
  predicate Ending(t: State) {
    && t.stopRequested && (t.handle ==> t.stops == 1)
    && (t.outcome.None? ==> (t.starting && t.timer == StartupDeadline) || (t.handle && t.stopping))
  }

  lemma RequestedIsEnding(s: State)
    requires Inv(s) && s.stopRequested
    ensures Ending(s)
  {
  }

  // From an event that closes the service, or asks it to stop, to any later state.
  lemma ClosedRun(before: seq<Event>, e: Event, after: seq<Event>, parse: Parser)
    requires Closed(Run(INITIAL, before + [e], parse).core)
    ensures var u, t := Run(INITIAL, before + [e], parse).core, Run(INITIAL, before + ([e] + after), parse).core;
            Inv(t) && Follows(u, t) && (u.stopRequested ==> Ending(t))
  {
    var u := Run(INITIAL, before + [e], parse);
    assert before + ([e] + after) == before + [e] + after;
    RunAppend(INITIAL, before + [e], after, parse);
    NothingStartsAfterStop(u, after, parse);
    RunInv(INITIAL, before + ([e] + after), parse);
    var t := Run(u, after, parse).core;
    if t.stopRequested { RequestedIsEnding(t); }
  }

  lemma RunOneMore(before: seq<Event>, e: Event, parse: Parser)
    ensures Run(INITIAL, before + [e], parse) == Next(Run(INITIAL, before, parse), e, parse)
  {
    RunAppend(INITIAL, before, [e], parse);
    assert Run(Next(Run(INITIAL, before, parse), e, parse), [], parse) == Next(Run(INITIAL, before, parse), e, parse);
  }

  lemma WholeLine(s: State, line: Bytes, parse: Parser)
    requires s.outcome.None? && |s.buffer| <= MAX_LINE
    requires NEWLINE !in line && |s.buffer| + |line| <= MAX_LINE
    ensures Read(s, line + [NEWLINE], parse) == Line(s.(buffer := []), parse(s.buffer + line))
  {
    ReadAppend(s, line, [NEWLINE], parse);
    ReadPiece(s, line, parse);
    var t := s.(buffer := s.buffer + line);
    assert Read(t, [NEWLINE], parse) == ReadByte(t, NEWLINE, parse);
  }

  lemma StopLine(s: State, line: Bytes, parse: Parser)
    requires s.outcome.None? && |s.buffer| <= MAX_LINE
    requires NEWLINE !in line && |s.buffer| + |line| <= MAX_LINE && parse(s.buffer + line) == Stop
    ensures Read(s, line + [NEWLINE], parse) == RequestStop(s.(buffer := []))
  {
    WholeLine(s, line, parse);
  }

  // STOP is honoured wherever it arrives and whatever follows: before START it settles with
  // success and nothing is ever started; otherwise the runtime that comes up is stopped once,
  // and nothing else ends the service without that but a rejection.
  lemma StopIsHonoured(before: seq<Event>, line: Bytes, after: seq<Event>, parse: Parser)
    requires var s := Run(INITIAL, before, parse);
             && s.core.outcome.None? && NEWLINE !in line && |s.core.buffer| + |line| <= MAX_LINE
             && s.inputBytes + |line| + 1 <= MAX_INPUT && parse(s.core.buffer + line) == Stop
    ensures var s, t := Run(INITIAL, before, parse).core, Run(INITIAL, before + ([Chunk(line + [NEWLINE])] + after), parse).core;
            && Ending(t) && t.starts == s.starts
            && (!s.started ==> t.outcome == Some(Resolved) && t.stops == 0)
            && (s.started && t.outcome == Some(Resolved) ==> t.stops == 1 && !t.stopping)
  {
    var s := Run(INITIAL, before, parse);
    var e := Chunk(line + [NEWLINE]);
    RunInv(INITIAL, before, parse);
    StopLine(s.core, line, parse);
    RunOneMore(before, e, parse);
    ClosedRun(before, e, after, parse);
  }

  // So do end of input, an input error and the startup deadline; all but an orderly end of
  // input reject, and before START all of them do.
  lemma EveryEndAsksToStop(before: seq<Event>, e: Event, after: seq<Event>, parse: Parser)
    requires var s := Run(INITIAL, before, parse).core;
             s.outcome.None? && (e.End? || e.InputError? || (e.TimerFires? && s.timer != Off))
    ensures var s, t := Run(INITIAL, before, parse).core, Run(INITIAL, before + ([e] + after), parse).core;
            && t.starts == s.starts && (s.started ==> Ending(t))
            && (!s.started ==> t.outcome == Some(Rejected) && t.stops == 0)
            && (!(e.End? && s.buffer == []) ==> t.outcome == Some(Rejected))
  {
    RunInv(INITIAL, before, parse);
    RunOneMore(before, e, parse);
    ClosedRun(before, e, after, parse);
  }

  // --- What is asked for happens ---

  predicate Began(s: State, launch: string) {
    s.started && s.starts == [launch]
  }

  lemma ReadByteBegan(s: State, b: Unit, parse: Parser, launch: string)
    requires Began(s, launch)
    ensures Began(ReadByte(s, b, parse), launch)
  {
  }

  lemma {:induction false} ReadBegan(s: State, bytes: Bytes, parse: Parser, launch: string)
    requires Began(s, launch)
    ensures Began(Read(s, bytes, parse), launch)
    decreases |bytes|
  {
    if bytes != [] {
      ReadByteBegan(s, bytes[0], parse, launch);
      ReadBegan(ReadByte(s, bytes[0], parse), bytes[1..], parse, launch);
    }
  }

  lemma {:induction false} RunBegan(s: Service, events: seq<Event>, parse: Parser, launch: string)
    requires Began(s.core, launch)
    ensures Began(Run(s, events, parse).core, launch)
    decreases |events|
  {
    if events != [] {
      if events[0].Chunk? { ReadBegan(s.core, events[0].bytes, parse, launch); }
      RunBegan(Next(s, events[0], parse), events[1..], parse, launch);
    }
  }

  // The first START line that comes in time starts the runtime with what it carries, under the
  // startup deadline, and whatever follows that is the one start there is.
  lemma StartIsHonoured(before: seq<Event>, line: Bytes, launch: string, after: seq<Event>, parse: Parser)
    requires var s := Run(INITIAL, before, parse);
             && s.core.outcome.None? && !s.core.started && NEWLINE !in line && |s.core.buffer| + |line| <= MAX_LINE
             && s.inputBytes + |line| + 1 <= MAX_INPUT && parse(s.core.buffer + line) == Start(launch)
    ensures var e := Chunk(line + [NEWLINE]);
            && Run(INITIAL, before + [e], parse).core.starting && Run(INITIAL, before + [e], parse).core.timer == StartupDeadline
            && Run(INITIAL, before + ([e] + after), parse).core.starts == [launch]
  {
    var s := Run(INITIAL, before, parse);
    var e := Chunk(line + [NEWLINE]);
    RunInv(INITIAL, before, parse);
    WholeLine(s.core, line, parse);
    RunOneMore(before, e, parse);
    assert Run(INITIAL, before + [e], parse).core == Line(s.core.(buffer := []), Start(launch));
    assert before + ([e] + after) == before + [e] + after;
    RunAppend(INITIAL, before + [e], after, parse);
    assert [] + [launch] == [launch];
    RunBegan(Run(INITIAL, before + [e], parse), after, parse, launch);
  }

  // What breaks the protocol: a line that is no command, a second START, a START after STOP, a
  // line that is too long, and more input than is allowed.
  predicate Breaks(s: Service, bytes: Bytes, parse: Parser) {
    || s.inputBytes + |bytes| > MAX_INPUT
    || (NEWLINE !in bytes && |s.core.buffer| + |bytes| > MAX_LINE)
    || (bytes != [] && bytes[|bytes| - 1] == NEWLINE && NEWLINE !in bytes[..|bytes| - 1]
        && (|s.core.buffer| + |bytes| - 1 > MAX_LINE
            || parse(s.core.buffer + bytes[..|bytes| - 1]).Invalid?
            || (parse(s.core.buffer + bytes[..|bytes| - 1]).Start? && (s.core.started || s.core.stopRequested))))
  }

  lemma LongPiece(s: State, piece: Bytes, rest: Bytes, parse: Parser)
    requires s.outcome.None? && |s.buffer| <= MAX_LINE && NEWLINE !in piece && |s.buffer| + |piece| > MAX_LINE
    ensures Read(s, piece + rest, parse) == Fail(s)
  {
    ReadAppend(s, piece, rest, parse);
    ReadPiece(s, piece, parse);
    ReadSettled(Fail(s), rest, parse);
  }

  lemma BreakingFails(s: Service, bytes: Bytes, parse: Parser)
    requires Inv(s.core) && s.core.outcome.None? && Breaks(s, bytes, parse)
    ensures Data(s, bytes, parse).core.outcome == Some(Rejected) && Data(s, bytes, parse).core.starts == s.core.starts
    ensures s.core.started ==> Data(s, bytes, parse).core.stopRequested
  {
    if s.inputBytes + |bytes| <= MAX_INPUT {
      if NEWLINE !in bytes {
        LongPiece(s.core, bytes, [], parse);
        assert bytes + [] == bytes;
      } else {
        var line := bytes[..|bytes| - 1];
        assert bytes == line + [NEWLINE];
        if |s.core.buffer| + |line| > MAX_LINE { LongPiece(s.core, line, [NEWLINE], parse); } else { WholeLine(s.core, line, parse); }
      }
    }
  }

  // Such input is answered with a rejection for good, starts nothing, and leads a runtime
  // that was started to its end.
  lemma ProtocolErrorsReject(before: seq<Event>, bytes: Bytes, after: seq<Event>, parse: Parser)
    requires var s := Run(INITIAL, before, parse); s.core.outcome.None? && Breaks(s, bytes, parse)
    ensures var s, t := Run(INITIAL, before, parse).core, Run(INITIAL, before + ([Chunk(bytes)] + after), parse).core;
            t.outcome == Some(Rejected) && t.starts == s.starts && (s.started ==> Ending(t))
  {
    RunInv(INITIAL, before, parse);
    BreakingFails(Run(INITIAL, before, parse), bytes, parse);
    RunOneMore(before, Chunk(bytes), parse);
    ClosedRun(before, Chunk(bytes), after, parse);
  }

  // The step that settled with success: the stop of the runtime went well, or nothing was
  // started and STOP was read.
  ghost predicate SucceedsAt(events: seq<Event>, k: nat, parse: Parser) {
    && k < |events|
    && var s := Run(INITIAL, events[..k], parse).core;
       && s.outcome.None?
       && ((events[k] == StopFinished(true) && s.stopping)
           || (events[k].Chunk? && !Run(INITIAL, events[..k + 1], parse).core.started && Run(INITIAL, events[..k + 1], parse).core.stopRequested))
  }

  lemma StepSucceeds(s: State, e: Event)
    requires Inv(s) && s.outcome.None?
    ensures Step(s, e).outcome == Some(Resolved) <==> e == StopFinished(true) && s.stopping
    ensures e == StopFinished(false) && s.stopping ==> Step(s, e).outcome == Some(Rejected)
    ensures e == StartFailed && s.starting ==> Step(s, e).outcome == Some(Rejected)
  {
  }

  lemma ChunkSucceeds(s: Service, bytes: Bytes, parse: Parser)
    requires Inv(s.core) && s.core.outcome.None?
    ensures var t := Data(s, bytes, parse).core;
            t.outcome == Some(Resolved) ==> !t.started && t.stopRequested
  {
    if s.inputBytes + |bytes| <= MAX_INPUT { ReadSucceeds(s.core, bytes, parse); }
  }

  lemma {:induction false} ReadSucceeds(s: State, bytes: Bytes, parse: Parser)
    requires Inv(s) && (s.outcome == Some(Resolved) ==> !s.started && s.stopRequested)
    ensures var t := Read(s, bytes, parse); t.outcome == Some(Resolved) ==> !t.started && t.stopRequested
    decreases |bytes|
  {
    if bytes != [] {
      ReadByteInv(s, bytes[0], parse);
      ReadByteSucceeds(s, bytes[0], parse);
      ReadSucceeds(ReadByte(s, bytes[0], parse), bytes[1..], parse);
    }
  }

  lemma ReadByteSucceeds(s: State, b: Unit, parse: Parser)
    requires Inv(s) && (s.outcome == Some(Resolved) ==> !s.started && s.stopRequested)
    ensures var t := ReadByte(s, b, parse); t.outcome == Some(Resolved) ==> !t.started && t.stopRequested
  {
  }

  lemma SucceedsBefore(events: seq<Event>, k: nat, parse: Parser)
    requires events != [] && k < |events| - 1
    ensures SucceedsAt(events[..|events| - 1], k, parse) <==> SucceedsAt(events, k, parse)
  {
    assert events[..|events| - 1][..k] == events[..k] && events[..|events| - 1][..k + 1] == events[..k + 1];
  }

  lemma OutcomeStays(s: Service, e: Event, parse: Parser)
    requires s.core.outcome.Some?
    ensures Next(s, e, parse).core.outcome == s.core.outcome
  {
  }

  // The service succeeds for one of two reasons only: the bounded stop of its runtime went
  // well, or it was told to stop before it had started anything.
  lemma {:induction false} SuccessIsExplained(events: seq<Event>, parse: Parser)
    requires Run(INITIAL, events, parse).core.outcome == Some(Resolved)
    ensures exists k: nat :: SucceedsAt(events, k, parse)
  {
    var before, e := events[..|events| - 1], events[|events| - 1];
    assert events == before + [e];
    RunOneMore(before, e, parse);
    RunInv(INITIAL, before, parse);
    var s := Run(INITIAL, before, parse);
    if s.core.outcome.Some? {
      OutcomeStays(s, e, parse);
      SuccessIsExplained(before, parse);
      var k: nat :| SucceedsAt(before, k, parse);
      SucceedsBefore(events, k, parse);
    } else {
      if e.Chunk? { ChunkSucceeds(s, e.bytes, parse); } else { StepSucceeds(s.core, e); }
      assert events[..|events| - 1 + 1] == events;
      assert SucceedsAt(events, |events| - 1, parse);
    }
  }

  // And a stop that is awaited decides: well or not.
  lemma StopDecides(before: seq<Event>, ok: bool, after: seq<Event>, parse: Parser)
    requires var s := Run(INITIAL, before, parse).core; s.outcome.None? && s.stopping
    ensures Run(INITIAL, before + ([StopFinished(ok)] + after), parse).core.outcome == Some(if ok then Resolved else Rejected)
  {
    RunInv(INITIAL, before, parse);
    StepSucceeds(Run(INITIAL, before, parse).core, StopFinished(ok));
    RunOneMore(before, StopFinished(ok), parse);
    ClosedRun(before, StopFinished(ok), after, parse);
  }
}
