// From a native collector's rows to the findings of a Windows snapshot: what is cut is
// counted at every step, and complete coverage is claimed only on complete evidence.
module WindowsEvidence {
  import opened Options

  datatype Status = Ok | Partial | Unavailable | PermissionDenied | TimedOut | Unsupported

  // What a collector process returned, and whether its rows have the promised fields.
  datatype Collected<T> = Collected(status: Status, truncated: bool, items: seq<T>, wellFormed: bool)

  datatype Listing<T> = Listing(items: seq<T>, originalCount: int, omittedCount: int, status: Status)

  datatype Error = InvalidArguments | HostUnavailable

  datatype Result<T> = Success(value: T) | Failure(error: Error)

  const MAX_ROWS: int := 1000

  function Max(a: int, b: int): int {
    if a >= b then a else b
  }

  // Array.prototype.slice(0, end): a negative end counts from the back.
  function Slice<T>(items: seq<T>, end: int): (r: seq<T>)
    ensures |r| == if end < 0 then Max(|items| + end, 0) else if end < |items| then end else |items|
    ensures r <= items
  {
    if end < 0 then items[..Max(|items| + end, 0)] else if end < |items| then items[..end] else items
  }

  function Map<T, U>(f: T -> U, items: seq<T>): (r: seq<U>)
    ensures |r| == |items| && forall k :: 0 <= k < |items| ==> r[k] == f(items[k])
  {
    seq(|items|, k requires 0 <= k < |items| => f(items[k]))
  }

  function Select<T>(items: seq<T>, p: T -> bool): (r: seq<T>)
    ensures |r| <= |items| && (forall k :: 0 <= k < |r| ==> r[k] in items && p(r[k]))
    ensures forall k :: 0 <= k < |items| && p(items[k]) ==> items[k] in r
  {
    if items == [] then [] else (if p(items[0]) then [items[0]] else []) + Select(items[1..], p)
  }

  // What is selected keeps its order and its multiplicity: piece by piece, row by row.
  lemma {:induction false} SelectConcat<T>(a: seq<T>, b: seq<T>, p: T -> bool)
    ensures Select(a + b, p) == Select(a, p) + Select(b, p)
  {
    if a == [] {
      assert a + b == b;
    } else {
      assert (a + b)[1..] == a[1..] + b;
      SelectConcat(a[1..], b, p);
    }
  }

  lemma SelectOne<T>(x: T, p: T -> bool)
    ensures Select([x], p) == if p(x) then [x] else []
  {
    assert [x][1..] == [];
  }

  // Denied and unavailable collectors have no authoritative rows.
  function Authoritative<T>(c: Collected<T>): seq<T> {
    if c.status.PermissionDenied? || c.status.Unavailable? then [] else c.items
  }

  function Collect<T>(c: Collected<T>, limit: int, redact: T -> T): Result<Listing<T>> {
    if limit < 1 || limit > MAX_ROWS then Failure(InvalidArguments)
    else if !c.wellFormed then Failure(HostUnavailable)
    else
      var items := Authoritative(c);
      var original := |items| + if c.truncated then 1 else 0;
      var retained := Slice(items, limit);
      Success(Listing(Map(redact, retained), original, original - |retained|, if c.truncated && c.status.Ok? then Partial else c.status))
  }

  function Filter<T>(l: Listing<T>, limit: int, matches: T -> bool): Listing<T> {
    var filtered := Select(l.items, matches);
    Listing(Slice(filtered, limit), |filtered| + l.omittedCount, l.omittedCount + Max(0, |filtered| - limit), l.status)
  }

  // --- Counting ---

  ghost predicate Counted<T>(l: Listing<T>) {
    l.omittedCount >= 0 && |l.items| + l.omittedCount == l.originalCount
  }

  // A listing needs a limit within bounds and rows of the promised form; its counts add up, and
  // a collector that was denied or is unavailable shows nothing, whatever it sent.
  lemma CollectCounts<T>(c: Collected<T>, limit: int, redact: T -> T)
    ensures Collect(c, limit, redact).Success? <==> 1 <= limit <= 1000 && c.wellFormed
    ensures Collect(c, limit, redact).Success? ==>
              var l := Collect(c, limit, redact).value;
              && Counted(l) && |l.items| <= limit
              && l.originalCount == |Authoritative(c)| + (if c.truncated then 1 else 0)
              && (l.omittedCount == 0 <==> !c.truncated && |Authoritative(c)| <= limit)
              && (l.omittedCount == 0 ==> l.items == Map(redact, Authoritative(c)))
    ensures Collect(c, limit, redact).Success? && (c.status.PermissionDenied? || c.status.Unavailable?) ==>
              Collect(c, limit, redact).value.items == [] && Collect(c, limit, redact).value.originalCount <= 1
  {
  }

  // Filtering keeps the count if and only if its limit is not negative; the limit of the query
  // is not checked again after collection. Nothing omitted afterwards means that nothing had
  // been before and that every match is still there.
  lemma FilterCountsIff<T>(l: Listing<T>, limit: int, matches: T -> bool)
    requires Counted(l)
    ensures var f := Filter(l, limit, matches);
            && (Counted(f) <==> limit >= 0)
            && (limit >= 0 ==> |f.items| <= limit)
            && (limit >= 0 ==> (f.omittedCount == 0 <==> l.omittedCount == 0 && f.items == Select(l.items, matches)))
  {
  }

  // A listing tool: at most a thousand rows, those that are wanted, and those of the query.
  function ToolListing<T>(c: Collected<T>, limit: int, redact: T -> T, wanted: T -> bool, matches: T -> bool): Result<Listing<T>> {
    match Collect(c, MAX_ROWS, redact)
    case Failure(e) => Failure(e)
    case Success(l) => Success(Filter(l.(items := Select(l.items, wanted)), limit, matches))
  }

  // The limits that the schemas of the tools let through.
  predicate ToolLimit(limit: int, max: int) {
    1 <= limit <= max
  }

  // With such a limit the counts are right, and nothing is omitted exactly when the collector
  // gave all it had, within a thousand rows, and every matching row is listed.
  lemma ToolListingCounts<T>(c: Collected<T>, limit: int, max: int, redact: T -> T, wanted: T -> bool, matches: T -> bool)
    requires ToolLimit(limit, max) && ToolListing(c, limit, redact, wanted, matches).Success?
    ensures var l := ToolListing(c, limit, redact, wanted, matches).value;
            var rows := Authoritative(c);
            && Counted(l) && |l.items| <= limit <= max
            && (l.omittedCount == 0
                <==> !c.truncated && |rows| <= MAX_ROWS && l.items == Select(Select(Map(redact, rows), wanted), matches))
  {
    var rows := Authoritative(c);
    if |rows| <= MAX_ROWS { assert Slice(rows, MAX_ROWS) == rows; }
  }

  // --- Services ---

  datatype Service = Service(
    name: string,
    displayName: string,
    state: Option<string>,
    startMode: Option<string>,
    exitCode: Option<nat>,
    specificExitCode: Option<nat>)

  const STATES := {"Running", "Stopped"}
  const FAILING_MODES := {"Auto", "Manual", "Automatic"}
  const MODES := {"Auto", "Automatic", "Manual", "Disabled"}

  predicate IsFailed(s: Service) {
    && s.state == Some("Stopped")
    && s.startMode.Some? && s.startMode.value in FAILING_MODES
    && s.exitCode.Some? && s.exitCode.value != 0 && s.exitCode.value != 1077
  }

  predicate IsKnown(s: Service) {
    && s.state.Some? && s.state.value in STATES
    && s.startMode.Some? && s.startMode.value in MODES
    && s.exitCode.Some?
  }

  type Redactor = string -> string

  function RedactOption(t: Option<string>, redact: Redactor): Option<string> {
    if t.None? then None else Some(redact(t.value))
  }

  function RedactService(s: Service, redact: Redactor): Service {
    s.(name := redact(s.name), displayName := redact(s.displayName), state := RedactOption(s.state, redact),
       startMode := RedactOption(s.startMode, redact))
  }

  // Redaction neither changes the enumerated words nor produces them from other text.
  ghost predicate KeepsWords(redact: Redactor) {
    forall t :: (redact(t) in STATES + MODES || t in STATES + MODES) ==> redact(t) == t
  }

  // A service-specific code means something only beside the exit code that announces it.
  function Normalized(s: Service): Service {
    s.(specificExitCode := if s.exitCode == Some(1066) then s.specificExitCode else None)
  }

  function Everything<T>(): T -> bool {
    (x: T) => true
  }

  // listServices with the snapshot's limit, all states and no query.
  function ListServices(c: Collected<Service>, redact: Redactor): Result<Listing<Service>> {
    match Collect(c, MAX_ROWS, (s: Service) => RedactService(s, redact))
    case Failure(e) => Failure(e)
    case Success(l) => Success(Filter(l.(items := Map(Normalized, l.items)), MAX_ROWS, Everything()))
  }

  // --- The service part of a snapshot ---

  const MAX_DEGRADED: int := 50

  datatype ServiceSection = ServiceSection(degraded: seq<Service>, findings: seq<string>, complete: bool, truncation: int)

  // The section made of the listing, or of nothing when the collector failed.
  function Section(services: Result<Listing<Service>>): ServiceSection {
    var items := if services.Success? then services.value.items else [];
    var omitted := if services.Success? then services.value.omittedCount else 0;
    var failures := Select(items, IsFailed);
    ServiceSection(
      Slice(failures, MAX_DEGRADED),
      Map((s: Service) => s.name, failures),
      services.Success? && services.value.status.Ok? && omitted == 0 && AllKnown(items),
      omitted + Max(0, |failures| - MAX_DEGRADED))
  }

  lemma {:induction false} SelectAll<T>(items: seq<T>, p: T -> bool)
    requires forall x :: x in items ==> p(x)
    ensures Select(items, p) == items
  {
    if items != [] { SelectAll(items[1..], p); }
  }

  function Show(s: Service, redact: Redactor): Service {
    Normalized(RedactService(s, redact))
  }

  function Shown(rows: seq<Service>, redact: Redactor): (r: seq<Service>)
    ensures |r| == |rows| && forall k :: 0 <= k < |rows| ==> r[k] == Show(rows[k], redact)
  {
    Map((s: Service) => Show(s, redact), rows)
  }

  // The rows that the snapshot sees are the collector's first thousand, redacted.
  function Seen(c: Collected<Service>, redact: Redactor): seq<Service> {
    Shown(Slice(Authoritative(c), MAX_ROWS), redact)
  }

  lemma ListedServices(c: Collected<Service>, redact: Redactor)
    requires c.wellFormed
    ensures var r := ListServices(c, redact);
            && r.Success? && r.value.items == Seen(c, redact) && Counted(r.value)
            && (r.value.omittedCount == 0 <==> !c.truncated && |Authoritative(c)| <= MAX_ROWS)
            && r.value.status == (if c.truncated && c.status.Ok? then Partial else c.status)
  {
    var f := (s: Service) => RedactService(s, redact);
    CollectCounts(c, MAX_ROWS, f);
    var l := Collect(c, MAX_ROWS, f).value;
    ShownInTwoSteps(Slice(Authoritative(c), MAX_ROWS), redact, f);
    WholeListing(l.(items := Seen(c, redact)));
  }

  lemma ShownInTwoSteps(rows: seq<Service>, redact: Redactor, f: Service -> Service)
    requires forall s :: f(s) == RedactService(s, redact)
    ensures Map(Normalized, Map(f, rows)) == Shown(rows, redact)
  {
  }

  // A filter that lets everything through, with no more rows than its limit.
  lemma WholeListing<T>(l: Listing<T>)
    requires |l.items| <= MAX_ROWS && Counted(l)
    ensures Filter(l, MAX_ROWS, Everything()) == l
  {
    SelectAll(l.items, Everything<T>());
  }

  lemma RedactionKeepsVerdict(s: Service, redact: Redactor)
    requires KeepsWords(redact)
    ensures var r := Show(s, redact);
            (IsFailed(r) <==> IsFailed(s)) && (IsKnown(r) <==> IsKnown(s)) && r.name == redact(s.name)
  {
  }

  predicate AllKnown(rows: seq<Service>) {
    forall k :: 0 <= k < |rows| ==> IsKnown(rows[k])
  }

  lemma {:induction false} KnownAsShown(rows: seq<Service>, redact: Redactor)
    requires KeepsWords(redact)
    ensures AllKnown(Shown(rows, redact)) <==> AllKnown(rows)
  {
    forall k | 0 <= k < |rows| ensures IsKnown(Shown(rows, redact)[k]) <==> IsKnown(rows[k]) { RedactionKeepsVerdict(rows[k], redact); }
  }

  // Complete service coverage is claimed if and only if the collector succeeded, said so, cut
  // nothing, stayed within the limit, and told state, start mode and exit code of every row.
  lemma CompleteIff(c: Collected<Service>, redact: Redactor)
    requires KeepsWords(redact)
    ensures Section(ListServices(c, redact)).complete
            <==> c.wellFormed && c.status.Ok? && !c.truncated && |c.items| <= MAX_ROWS && AllKnown(c.items)
  {
    if c.wellFormed {
      ListedServices(c, redact);
      KnownAsShown(Slice(Authoritative(c), MAX_ROWS), redact);
    }
  }

  lemma {:induction false} FailuresAsShown(rows: seq<Service>, redact: Redactor)
    requires KeepsWords(redact)
    ensures Select(Shown(rows, redact), IsFailed) == Shown(Select(rows, IsFailed), redact)
  {
    if rows != [] {
      var first, rest := rows[0], rows[1..];
      assert rows == [first] + rest;
      FailuresAsShown(rest, redact);
      RedactionKeepsVerdict(first, redact);
      ShownConcat([first], rest, redact);
      ShownOne(first, redact);
      SelectConcat([first], rest, IsFailed);
      SelectConcat([Show(first, redact)], Shown(rest, redact), IsFailed);
      SelectOne(first, IsFailed);
      SelectOne(Show(first, redact), IsFailed);
      ShownConcat(Select([first], IsFailed), Select(rest, IsFailed), redact);
      assert Shown([], redact) == [];
    }
  }

  lemma ShownOne(s: Service, redact: Redactor)
    ensures Shown([s], redact) == [Show(s, redact)]
  {
  }

  lemma ShownConcat(a: seq<Service>, b: seq<Service>, redact: Redactor)
    ensures Shown(a + b, redact) == Shown(a, redact) + Shown(b, redact)
  {
  }

  // A service-specific code is told only beside the exit code that announces it, and then it is
  // the one that the collector gave.
  lemma SpecificCodesAreBacked(c: Collected<Service>, redact: Redactor, k: nat)
    requires c.wellFormed && k < |Seen(c, redact)|
    ensures ListServices(c, redact).Success? && k < |ListServices(c, redact).value.items| && k < |c.items|
    ensures var shown := ListServices(c, redact).value.items[k];
            && shown.exitCode == c.items[k].exitCode
            && (shown.exitCode != Some(1066) ==> shown.specificExitCode.None?)
            && (shown.exitCode == Some(1066) ==> shown.specificExitCode == c.items[k].specificExitCode)
  {
    ListedServices(c, redact);
  }

  // Of the failures and the rows that never arrived, each is shown or counted as cut.
  lemma {:induction false} SectionCounts(c: Collected<Service>, redact: Redactor)
    requires c.wellFormed
    ensures var section := Section(ListServices(c, redact));
            && |section.degraded| <= MAX_DEGRADED
            && |section.degraded| + section.truncation == |section.findings| + ListServices(c, redact).value.omittedCount
            && (section.truncation == 0 ==> !c.truncated && |section.degraded| == |section.findings|)
  {
    ListedServices(c, redact);
  }

  // The findings name the failed services of the rows that were seen, in their order, and
  // nothing else, and the first fifty of these are listed; with complete coverage these are all
  // services there are. Nothing is reported as cut if and only if every row the collector had
  // was seen and every failed one is listed.
  lemma FindingsAreExact(c: Collected<Service>, redact: Redactor)
    requires KeepsWords(redact) && c.wellFormed
    ensures var section := Section(ListServices(c, redact));
            var failed := Select(Slice(Authoritative(c), MAX_ROWS), IsFailed);
            && section.findings == Map((s: Service) => redact(s.name), failed)
            && section.degraded == Slice(Shown(failed, redact), MAX_DEGRADED)
            && (section.complete ==> section.findings == Map((s: Service) => redact(s.name), Select(c.items, IsFailed)))
            && (section.truncation == 0
                <==> !c.truncated && |Authoritative(c)| <= MAX_ROWS && |failed| <= MAX_DEGRADED)
  {
    ListedServices(c, redact);
    FailuresAsShown(Slice(Authoritative(c), MAX_ROWS), redact);
    CompleteIff(c, redact);
    SectionCounts(c, redact);
  }

  // --- Logs ---

  datatype Log = Log(channel: string, message: string)

  datatype LogPage = LogPage(entries: seq<Log>, originalCount: nat, truncated: bool, status: Status)

  // Entries are dropped from the end until they fit; what remains is the longest beginning
  // that does.
  method FitEntries(entries: seq<Log>, byteLimit: nat, size: seq<Log> -> nat) returns (kept: seq<Log>)
    ensures kept <= entries && (kept == [] || size(kept) <= byteLimit)
    ensures forall n :: |kept| < n <= |entries| ==> size(entries[..n]) > byteLimit
  {
    kept := entries;
    while |kept| > 0 && size(kept) > byteLimit
      invariant kept <= entries
      invariant forall n :: |kept| < n <= |entries| ==> size(entries[..n]) > byteLimit
      decreases |kept|
    {
      assert entries[..|kept|] == kept;
      kept := kept[..|kept| - 1];
    }
  }

  function Wanted(c: Collected<Log>, wanted: Log -> bool, redact: Log -> Log): seq<Log> {
    Select(Map(redact, Slice(Authoritative(c), MAX_ROWS)), wanted)
  }

  // A page is the longest beginning of the wanted rows that the limits let through, and it is
  // not marked truncated if and only if it is everything there was to find.
  method QueryLogs(c: Collected<Log>, limit: int, byteLimit: nat, wanted: Log -> bool, redact: Log -> Log, size: seq<Log> -> nat)
      returns (page: Result<LogPage>)
    requires limit >= 0
    ensures page == Failure(HostUnavailable) || (page.Success? && c.wellFormed)
    ensures c.wellFormed ==> page.Success?
    ensures page.Success? ==>
              var rows := Slice(Wanted(c, wanted, redact), limit);
              && page.value.originalCount == |Wanted(c, wanted, redact)| && page.value.entries <= rows
              && (page.value.entries == [] || size(page.value.entries) <= byteLimit)
              && (forall n :: |page.value.entries| < n <= |rows| ==> size(rows[..n]) > byteLimit)
    ensures page.Success? ==>
              (!page.value.truncated <==>
                 && c.status.Ok? && !c.truncated && |c.items| <= MAX_ROWS
                 && page.value.entries == Select(Map(redact, c.items), wanted))
  {
    var result := Collect(c, MAX_ROWS, redact);
    if result.Failure? { return Failure(result.error); }
    CollectCounts(c, MAX_ROWS, redact);
    var filtered := Select(result.value.items, wanted);
    var first := Slice(filtered, limit);
    var entries := FitEntries(first, byteLimit, size);
    var truncated := result.value.omittedCount > 0 || |entries| < |filtered| || result.value.status != Ok;
    WholePage(c, redact, entries, filtered, first);
    page := Success(LogPage(entries, |filtered|, truncated, result.value.status));
  }

  lemma WholePage<T>(c: Collected<T>, redact: T -> T, entries: seq<T>, filtered: seq<T>, first: seq<T>)
    requires entries <= first <= filtered && c.wellFormed
    ensures |entries| == |filtered| ==> entries == filtered
    ensures var l := Collect(c, MAX_ROWS, redact).value;
            && l.items == Map(redact, Slice(Authoritative(c), MAX_ROWS))
            && (l.omittedCount == 0 && l.status == Ok <==> c.status.Ok? && !c.truncated && |c.items| <= MAX_ROWS)
            && (c.status.Ok? && |c.items| <= MAX_ROWS ==> l.items == Map(redact, c.items))
  {
    CollectCounts(c, MAX_ROWS, redact);
  }
}
