// One Windows collector process: the byte-at-a-time scanner that finds stage lines in its
// standard error, and how its failures and its exit settle the call.
module CollectorRunner {
  import opened Options

  type Unit = u: int | 0 <= u < 256
  type Bytes = seq<Unit>

  const NEWLINE: Unit := 10
  const RETURN: Unit := 13
  const MAX_LINE: nat := 96
  const MAX_TRACED: nat := 32
  const MAX_OUTPUT: nat := 0x100000

  // "agentv-stage:"
  const PREFIX: Bytes := [97, 103, 101, 110, 116, 118, 45, 115, 116, 97, 103, 101, 58]

  // --- Reference: split everything received so far into lines ---

  function LineLength(b: Bytes): (k: nat)
    ensures k <= |b| && (k < |b| ==> b[k] == NEWLINE) && forall j :: 0 <= j < k ==> b[j] != NEWLINE
  {
    if b == [] || b[0] == NEWLINE then 0 else 1 + LineLength(b[1..])
  }

  function Lines(b: Bytes): seq<Bytes> {
    var k := LineLength(b);
    if k == |b| then [] else [b[..k]] + Lines(b[k + 1..])
  }

  // The line that has no newline yet.
  function Unfinished(b: Bytes): Bytes {
    var k := LineLength(b);
    if k == |b| then b else Unfinished(b[k + 1..])
  }

  function WithoutReturn(value: Bytes): Bytes {
    if value != [] && value[|value| - 1] == RETURN then value[..|value| - 1] else value
  }

  // The stage that a line announces, if it is short enough and announces a known one.
  function Announced(line: Bytes, stages: set<Bytes>): seq<Bytes> {
    if |line| <= MAX_LINE && PREFIX <= line && WithoutReturn(line[|PREFIX|..]) in stages
    then [WithoutReturn(line[|PREFIX|..])]
    else []
  }

  function AnnouncedBy(lines: seq<Bytes>, stages: set<Bytes>): seq<Bytes> {
    if lines == [] then [] else Announced(lines[0], stages) + AnnouncedBy(lines[1..], stages)
  }

  function Stages(b: Bytes, stages: set<Bytes>): seq<Bytes> {
    AnnouncedBy(Lines(b), stages)
  }

  // --- The scanner ---

  datatype Scan = Scan(line: Bytes, oversized: bool, stage: Bytes, observed: nat, traced: seq<Bytes>)

  function FinishLine(s: Scan, stages: set<Bytes>): Scan {
    if s.oversized || !(PREFIX <= s.line) then s
    else
      var value := WithoutReturn(s.line[|PREFIX|..]);
      if value !in stages then s
      else s.(stage := value, observed := s.observed + 1, traced := if s.observed < MAX_TRACED then s.traced + [value] else s.traced)
  }

  function ScanByte(s: Scan, byte: Unit, stages: set<Bytes>): Scan {
    if byte == NEWLINE then FinishLine(s, stages).(line := [], oversized := false)
    else if |s.line| < MAX_LINE && !s.oversized then s.(line := s.line + [byte])
    else s.(oversized := true)
  }

  function ScanAll(s: Scan, bytes: Bytes, stages: set<Bytes>): Scan {
    if bytes == [] then s else ScanByte(ScanAll(s, bytes[..|bytes| - 1], stages), bytes[|bytes| - 1], stages)
  }

  class StageScanner {
    const stages: set<Bytes>

    var stderrLine: Bytes
    var oversizedLine: bool
    var stage: Bytes
    var observedStages: nat
    var traced: seq<Bytes>

    ghost function View(): Scan
      reads this
    {
      Scan(stderrLine, oversizedLine, stage, observedStages, traced)
    }

    constructor (stages: set<Bytes>, initial: Bytes)
      ensures this.stages == stages && View() == Scan([], false, initial, 0, [])
    {
      this.stages := stages;
      stderrLine, oversizedLine, stage, observedStages, traced := [], false, initial, 0, [];
    }

    method ObserveStage(chunk: Bytes)
      modifies this
      ensures View() == ScanAll(old(View()), chunk, stages)
    {
      for i := 0 to |chunk|
        invariant View() == ScanAll(old(View()), chunk[..i], stages)
      {
        assert chunk[..i + 1][..i] == chunk[..i];
        var byte := chunk[i];
        if byte == NEWLINE {
          if !oversizedLine && PREFIX <= stderrLine {
            var value := WithoutReturn(stderrLine[|PREFIX|..]);
            if value in stages {
              stage := value;
              if observedStages < MAX_TRACED { traced := traced + [value]; }
              observedStages := observedStages + 1;
            }
          }
          stderrLine, oversizedLine := [], false;
        } else if |stderrLine| < MAX_LINE && !oversizedLine {
          stderrLine := stderrLine + [byte];
        } else {
          oversizedLine := true;
        }
      }
      assert chunk[..|chunk|] == chunk;
    }
  }

  // --- What the scanner knows ---

  function Clip(line: Bytes): Bytes {
    if |line| > MAX_LINE then line[..MAX_LINE] else line
  }

  // The state that a split of everything received tells.
  function Known(b: Bytes, initial: Bytes, stages: set<Bytes>): Scan {
    Told(Stages(b, stages), Unfinished(b), initial)
  }

  function Told(found: seq<Bytes>, line: Bytes, initial: Bytes): Scan {
    Scan(Clip(line), |line| > MAX_LINE, if found == [] then initial else found[|found| - 1], |found|,
         if |found| > MAX_TRACED then found[..MAX_TRACED] else found)
  }

  lemma ToldByte(found: seq<Bytes>, line: Bytes, initial: Bytes, byte: Unit, stages: set<Bytes>)
    ensures ScanByte(Told(found, line, initial), byte, stages)
         == if byte == NEWLINE then Told(found + Announced(line, stages), [], initial) else Told(found, line + [byte], initial)
  {
    if byte == NEWLINE {
      ToldLine(found, line, initial, stages);
    } else if |line| > MAX_LINE {
      assert (line + [byte])[..MAX_LINE] == line[..MAX_LINE];
    }
  }

  lemma ToldLine(found: seq<Bytes>, line: Bytes, initial: Bytes, stages: set<Bytes>)
    ensures FinishLine(Told(found, line, initial), stages).(line := [], oversized := false)
         == Told(found + Announced(line, stages), [], initial)
  {
    if Announced(line, stages) == [] {
      assert found + [] == found;
    } else {
      assert |found| >= MAX_TRACED ==> (found + Announced(line, stages))[..MAX_TRACED] == found[..MAX_TRACED];
    }
  }

  // Byte by byte, in whatever chunks, the scanner arrives at what splitting the whole stream
  // into lines tells: the last announced stage, how many were announced, the first 32 of them
  // and the beginning of the line that is still open.
  lemma {:induction false} ScannerKnows(b: Bytes, initial: Bytes, stages: set<Bytes>)
    ensures ScanAll(Scan([], false, initial, 0, []), b, stages) == Known(b, initial, stages)
  {
    if b != [] {
      var n := |b| - 1;
      assert b == b[..n] + [b[n]];
      ScannerKnows(b[..n], initial, stages);
      NextByte(b[..n], b[n], stages);
      ToldByte(Stages(b[..n], stages), Unfinished(b[..n]), initial, b[n], stages);
    }
  }

  lemma {:induction false} ChunksDoNotMatter(s: Scan, a: Bytes, b: Bytes, stages: set<Bytes>)
    ensures ScanAll(ScanAll(s, a, stages), b, stages) == ScanAll(s, a + b, stages)
  {
    if b == [] {
      assert a + b == a;
    } else {
      var n := |b| - 1;
      assert (a + b)[..|a| + n] == a + b[..n] && (a + b)[|a| + n] == b[n];
      ChunksDoNotMatter(s, a, b[..n], stages);
    }
  }

  // --- One more byte, in the reference ---

  lemma {:induction false} LengthOfLine(line: Bytes, rest: Bytes)
    requires NEWLINE !in line
    ensures LineLength(line + [NEWLINE] + rest) == |line|
  {
    var b := line + [NEWLINE] + rest;
    assert b[|line|] == NEWLINE && forall j :: 0 <= j < |line| ==> b[j] == line[j];
  }

  lemma FirstLine(line: Bytes, rest: Bytes)
    requires NEWLINE !in line
    ensures Lines(line + [NEWLINE] + rest) == [line] + Lines(rest) && Unfinished(line + [NEWLINE] + rest) == Unfinished(rest)
  {
    LengthOfLine(line, rest);
    assert (line + [NEWLINE] + rest)[..|line|] == line && (line + [NEWLINE] + rest)[|line| + 1..] == rest;
  }

  lemma NoLine(b: Bytes)
    requires NEWLINE !in b
    ensures Lines(b) == [] && Unfinished(b) == b
  {
    var k := LineLength(b);
  }

  // What one more byte does to the lines of a stream.
  ghost predicate AppendsByte(b: Bytes, byte: Unit) {
    && Lines(b + [byte]) == (if byte == NEWLINE then Lines(b) + [Unfinished(b)] else Lines(b))
    && Unfinished(b + [byte]) == (if byte == NEWLINE then [] else Unfinished(b) + [byte])
  }

  lemma OpenLineAppends(b: Bytes, byte: Unit)
    requires NEWLINE !in b
    ensures AppendsByte(b, byte)
  {
    NoLine(b);
    if byte == NEWLINE {
      FirstLine(b, []);
      assert b + [NEWLINE] + [] == b + [byte];
      NoLine([]);
    } else {
      NoLine(b + [byte]);
    }
  }

  lemma LineAppends(b: Bytes, line: Bytes, rest: Bytes, byte: Unit)
    requires NEWLINE !in line && b == line + [NEWLINE] + rest
    ensures AppendsByte(rest, byte) ==> AppendsByte(b, byte)
  {
    FirstLine(line, rest);
    FirstLine(line, rest + [byte]);
    BehindLine(line, rest, byte);
    OneMoreLine(line, Lines(rest), Unfinished(rest));
  }

  lemma BehindLine(line: Bytes, rest: Bytes, byte: Unit)
    ensures line + [NEWLINE] + (rest + [byte]) == line + [NEWLINE] + rest + [byte]
  {
  }

  lemma OneMoreLine(line: Bytes, lines: seq<Bytes>, last: Bytes)
    ensures [line] + (lines + [last]) == [line] + lines + [last]
  {
  }

  lemma SplitAtNewline(b: Bytes) returns (line: Bytes, rest: Bytes)
    requires NEWLINE in b
    ensures NEWLINE !in line && b == line + [NEWLINE] + rest
  {
    var k := LineLength(b);
    line, rest := b[..k], b[k + 1..];
  }

  lemma {:induction false} LinesAppend(b: Bytes, byte: Unit)
    ensures AppendsByte(b, byte)
    decreases |b|
  {
    if NEWLINE !in b {
      OpenLineAppends(b, byte);
    } else {
      var line, rest := SplitAtNewline(b);
      LinesAppend(rest, byte);
      LineAppends(b, line, rest, byte);
    }
  }

  lemma {:induction false} AnnouncedAppend(lines: seq<Bytes>, line: Bytes, stages: set<Bytes>)
    ensures AnnouncedBy(lines + [line], stages) == AnnouncedBy(lines, stages) + Announced(line, stages)
  {
    if lines == [] {
      assert [line][1..] == [];
    } else {
      assert (lines + [line])[1..] == lines[1..] + [line];
      AnnouncedAppend(lines[1..], line, stages);
    }
  }

  lemma NextByte(b: Bytes, byte: Unit, stages: set<Bytes>)
    ensures Stages(b + [byte], stages) == if byte == NEWLINE then Stages(b, stages) + Announced(Unfinished(b), stages) else Stages(b, stages)
    ensures Unfinished(b + [byte]) == if byte == NEWLINE then [] else Unfinished(b) + [byte]
  {
    LinesAppend(b, byte);
    if byte == NEWLINE { AnnouncedAppend(Lines(b), Unfinished(b), stages); }
  }

  // --- How a run settles ---

  datatype Failure = Cancelled | TimedOut | TooLarge | CouldNotStart

  datatype Event =
    | Stdout(chunk: Bytes)
    | Stderr(chunk: Bytes)
    | Abort
    | TimerFires
    | SpawnError
    | Close(code: int)

  datatype Outcome = Failed(failure: Failure) | ExitFailure | Output(text: Bytes)

  datatype State = State(bytes: nat, output: Bytes, failure: Option<Failure>, outcome: Option<Outcome>)

  const INITIAL := State(0, [], None, None)

  // The first failure is the one reported.
  function Kill(s: State, f: Failure): State {
    if s.failure.Some? then s else s.(failure := Some(f))
  }

  function Consume(s: State, chunk: Bytes, retain: bool): State {
    var t := s.(bytes := s.bytes + |chunk|);
    if t.bytes > MAX_OUTPUT then Kill(t, TooLarge) else if retain then t.(output := t.output + chunk) else t
  }

  function Next(s: State, e: Event): State {
    if s.outcome.Some? then s
    else
      match e
      case Stdout(chunk) => Consume(s, chunk, true)
      case Stderr(chunk) => Consume(s, chunk, false)
      case Abort => Kill(s, Cancelled)
      case TimerFires => Kill(s, TimedOut)
      case SpawnError => Kill(s, CouldNotStart)
      case Close(code) =>
        s.(outcome := Some(if s.failure.Some? then Failed(s.failure.value) else if code != 0 then ExitFailure else Output(s.output)))
  }

  function Run(events: seq<Event>): State {
    if events == [] then INITIAL else Next(Run(events[..|events| - 1]), events[|events| - 1])
  }

  // --- The same, told from the history ---

  function Received(events: seq<Event>): nat {
    if events == [] then 0
    else
      var e := events[|events| - 1];
      Received(events[..|events| - 1]) + if e.Stdout? || e.Stderr? then |e.chunk| else 0
  }

  function StdoutOf(events: seq<Event>): Bytes {
    if events == [] then []
    else
      var e := events[|events| - 1];
      StdoutOf(events[..|events| - 1]) + if e.Stdout? then e.chunk else []
  }

  // What the event at position k makes of a collector that has not failed before it.
  function FailureAt(events: seq<Event>, k: nat): Option<Failure>
    requires k < |events|
  {
    match events[k]
    case Abort => Some(Cancelled)
    case TimerFires => Some(TimedOut)
    case SpawnError => Some(CouldNotStart)
    case Stdout(_) => if Received(events[..k + 1]) > MAX_OUTPUT then Some(TooLarge) else None
    case Stderr(_) => if Received(events[..k + 1]) > MAX_OUTPUT then Some(TooLarge) else None
    case Close(_) => None
  }

  predicate FailsFirstAt(events: seq<Event>, k: nat) {
    k < |events| && FailureAt(events, k).Some? && forall j :: 0 <= j < k ==> FailureAt(events, j).None?
  }

  predicate Unfailed(events: seq<Event>) {
    forall k :: 0 <= k < |events| ==> FailureAt(events, k).None?
  }

  predicate StillOpen(events: seq<Event>) {
    forall k :: 0 <= k < |events| ==> !events[k].Close?
  }

  lemma FailurePrefix(events: seq<Event>, e: Event, k: nat)
    requires k < |events|
    ensures FailureAt(events + [e], k) == FailureAt(events, k)
  {
    assert (events + [e])[..k + 1] == events[..k + 1];
  }

  ghost predicate Reports(s: State, events: seq<Event>) {
    && s.outcome == None && s.bytes == Received(events)
    && (s.failure.None? ==> s.output == StdoutOf(events) && Unfailed(events))
    && (s.failure.Some? ==> exists k :: FailsFirstAt(events, k) && FailureAt(events, k) == s.failure)
  }

  lemma StillFailed(s: State, events: seq<Event>, e: Event)
    requires Reports(s, events) && s.failure.Some?
    ensures exists k :: FailsFirstAt(events + [e], k) && FailureAt(events + [e], k) == s.failure
  {
    var k :| FailsFirstAt(events, k) && FailureAt(events, k) == s.failure;
    forall j | 0 <= j <= k ensures FailureAt(events + [e], j) == FailureAt(events, j) { FailurePrefix(events, e, j); }
    assert FailsFirstAt(events + [e], k);
  }

  lemma FirstFailure(s: State, events: seq<Event>, e: Event)
    requires Reports(s, events) && s.failure.None? && !e.Close?
    ensures var t, all := Next(s, e), events + [e];
            FailureAt(all, |events|) == t.failure && (forall j :: 0 <= j < |events| ==> FailureAt(all, j).None?)
    ensures Next(s, e).bytes == Received(events + [e])
  {
    assert (events + [e])[..|events|] == events && (events + [e])[..|events| + 1] == events + [e];
    forall j | 0 <= j < |events| ensures FailureAt(events + [e], j).None? { FailurePrefix(events, e, j); }
  }

  lemma ReportsStep(s: State, events: seq<Event>, e: Event)
    requires Reports(s, events) && !e.Close?
    ensures Reports(Next(s, e), events + [e])
  {
    var t, all := Next(s, e), events + [e];
    assert all[..|events|] == events;
    if s.failure.Some? {
      StillFailed(s, events, e);
    } else {
      FirstFailure(s, events, e);
      if t.failure.Some? { assert FailsFirstAt(all, |events|); }
    }
  }

  lemma {:induction false} OpenRun(events: seq<Event>)
    requires StillOpen(events)
    ensures Reports(Run(events), events)
  {
    if events != [] {
      var n := |events| - 1;
      assert events == events[..n] + [events[n]];
      OpenRun(events[..n]);
      ReportsStep(Run(events[..n]), events[..n], events[n]);
    }
  }

  lemma CloseRun(events: seq<Event>, code: int)
    requires StillOpen(events)
    ensures var s, closed := Run(events), Run(events + [Close(code)]);
            closed.outcome == Some(if s.failure.Some? then Failed(s.failure.value) else if code != 0 then ExitFailure else Output(s.output))
  {
    OpenRun(events);
    assert (events + [Close(code)])[..|events|] == events;
  }

  // A collector delivers output if and only if nothing failed before it exited cleanly, and
  // then it delivers all of its standard output.
  lemma DeliversIff(events: seq<Event>, code: int)
    requires StillOpen(events)
    ensures var outcome := Run(events + [Close(code)]).outcome;
            && (outcome.Some? && outcome.value.Output? <==> code == 0 && Unfailed(events))
            && (code == 0 && Unfailed(events) ==> outcome == Some(Output(StdoutOf(events))) && Received(events) <= MAX_OUTPUT)
  {
    OpenRun(events);
    CloseRun(events, code);
    if Unfailed(events) { NeverTooLarge(events); }
  }

  // Whatever comes later, the earliest failure is the one reported.
  lemma FirstFailureWins(events: seq<Event>, code: int, k: nat)
    requires StillOpen(events) && FailsFirstAt(events, k)
    ensures Run(events + [Close(code)]).outcome == Some(Failed(FailureAt(events, k).value))
  {
    OpenRun(events);
    CloseRun(events, code);
    var s := Run(events);
    FailedSomewhere(events, k);
    var i :| FailsFirstAt(events, i) && FailureAt(events, i) == s.failure;
    OneFirstFailure(events, i, k);
  }

  lemma FailedSomewhere(events: seq<Event>, k: nat)
    requires FailsFirstAt(events, k)
    ensures !Unfailed(events)
  {
  }

  lemma OneFirstFailure(events: seq<Event>, i: nat, k: nat)
    requires FailsFirstAt(events, i) && FailsFirstAt(events, k)
    ensures i == k
  {
  }

  lemma {:induction false} NeverTooLarge(events: seq<Event>)
    requires forall k :: 0 <= k < |events| ==> FailureAt(events, k).None?
    ensures Received(events) <= MAX_OUTPUT
  {
    if events != [] {
      var n := |events| - 1;
      assert events == events[..n] + [events[n]] && events[..n + 1] == events;
      forall k | 0 <= k < n ensures FailureAt(events[..n], k).None? { FailurePrefix(events[..n], events[n], k); }
      NeverTooLarge(events[..n]);
      assert FailureAt(events, n).None?;
    }
  }
}
