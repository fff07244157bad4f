// The privileged restart helper over its durable ledger. Requests, the steps of the one
// restart in progress, crashes of the process and losses of power interleave freely; the
// ledger lookup and the busy test of one request are a single step.
module ActionHelper {
  import opened Options

  type Id = string
  type Hash = string

  datatype Outcome = Success | Failure | Unknown

  datatype Receipt = Receipt(id: Id, outcome: Outcome, completed: bool)

  datatype Record = Record(hash: Hash, receipt: Receipt)

  datatype Code = InvalidArguments | PermissionDenied | PreconditionFailed | ToolBusy | HostUnavailable | InternalError

  datatype Started = NotStarted | MayHaveStarted

  datatype Reply =
    | Result(receipt: Receipt)
    | Error(code: Code, started: Started)

  // Validation and policy, before the ledger is looked at.
  datatype Screening = Malformed | NotAllowed | LedgerUnreadable | Passed

  // `invoked` tells whether a restart was issued between the arrival of the request and its
  // answer; it is read off the list of restarts, not off the reply.
  datatype Answer = Answer(id: Id, hash: Hash, screening: Screening, reply: Reply, invoked: bool)

  // Where the request that holds `busy` is suspended.
  datatype Stage =
    | ReadingBefore
    | Recording
    | Recorded
    | Restarting
    | ReadingAfter(timedOut: bool, done: bool)
    | Completing(receipt: Receipt)
    | Pruning(receipt: Receipt)

  // `mutationMayHaveStarted` is the flag the error path looks at; `admitted` is how many
  // restarts had been issued when the request was let in.
  datatype Job = Job(id: Id, hash: Hash, admitted: nat, mutationMayHaveStarted: bool, stage: Stage)

  // A ledger write: nothing appears; or the new record appears, with or without reaching
  // stable storage, and the call may still throw after that.
  datatype Put = Nothing | Written(synced: bool, throws: bool)

  datatype Restart = Restart(id: Id, incarnation: nat)

  datatype Disk = Disk(
    ledger: map<Id, Record>,   // what the file system shows
    durable: map<Id, Record>,  // what had reached stable storage when it was last written
    pending: set<Record>,      // written since, without being synchronised
    removing: set<Id>,         // unlinked since; a removal is never synchronised
    unsynced: set<Id>,         // written at least once without being synchronised
    pruned: set<Id>,           // removed by pruning at some time
    lost: set<Id>)             // gone after a loss of power

  datatype State = State(
    disk: Disk,
    job: Option<Job>,          // `busy` and the suspended request
    incarnation: nat,
    commands: seq<Restart>,    // restart commands issued whose client has not yet ended
    restarts: seq<Restart>,    // every restart command ever issued
    answers: seq<Answer>)

  datatype Event =
    | Request(id: Id, hash: Hash, screening: Screening)
    | BeforeRead(ok: bool, matches: bool)
    | FirstPut(put: Put)
    | IssueRestart
    | CommandEnds(done: bool, timedOut: bool)
    | AfterRead(ok: bool, changed: bool)
    | FinalPut(put: Put)
    | Prune(removed: set<Id>, ok: bool)
    | OrphanEnds(k: nat)
    | Crash
    | PowerLoss(after: map<Id, Record>)

  function InProgress(id: Id): Receipt {
    Receipt(id, Unknown, false)
  }

  function Init(): State {
    State(Disk(map[], map[], {}, {}, {}, {}, {}), None, 0, [], [], [])
  }

  function OfOthers(records: set<Record>, id: Id): set<Record> {
    set r | r in records && r.receipt.id != id
  }

  function Store(disk: Disk, record: Record, put: Put): Disk {
    var id := record.receipt.id;
    if put.Nothing? then disk
    else if put.synced then
      disk.(ledger := disk.ledger[id := record], durable := disk.durable[id := record],
            pending := OfOthers(disk.pending, id), removing := disk.removing - {id})
    else
      disk.(ledger := disk.ledger[id := record], pending := disk.pending + {record}, unsynced := disk.unsynced + {id})
  }

  function Remove(disk: Disk, removed: set<Id>): Disk {
    disk.(ledger := disk.ledger - removed, removing := disk.removing + removed, pruned := disk.pruned + removed)
  }

  // What a loss of power may leave: of every operation the durable record or one that was
  // written since, and none only if none is durable or it was unlinked.
  predicate Survives(disk: Disk, after: map<Id, Record>) {
    && (forall id :: id in after ==>
          after[id].receipt.id == id && ((id in disk.durable && after[id] == disk.durable[id]) || after[id] in disk.pending))
    && (forall id :: id in disk.durable && id !in disk.removing ==> id in after)
  }

  function Reboot(disk: Disk, after: map<Id, Record>): Disk {
    disk.(ledger := after, durable := after, pending := {}, removing := {}, lost := disk.lost + (disk.ledger.Keys - after.Keys))
  }

  predicate Failed(put: Put) {
    put.Nothing? || put.throws
  }

  // An answer to a request that arrived when `admitted` restarts had been issued.
  function Respond(s: State, id: Id, hash: Hash, screening: Screening, reply: Reply, admitted: nat): State {
    s.(answers := s.answers + [Answer(id, hash, screening, reply, |s.restarts| != admitted)])
  }

  function Finish(s: State, reply: Reply): State
    requires s.job.Some?
  {
    var job := s.job.value;
    Respond(s, job.id, job.hash, Passed, reply, job.admitted).(job := None)
  }

  // The catch block: the error itself, or an unknown outcome behind the host boundary.
  function Caught(job: Job, code: Code): Reply {
    if job.mutationMayHaveStarted then Error(HostUnavailable, MayHaveStarted) else Error(code, NotStarted)
  }

  function Continue(s: State, stage: Stage): State
    requires s.job.Some?
  {
    s.(job := Some(s.job.value.(stage := stage)))
  }

  function Lookup(ledger: map<Id, Record>, id: Id, hash: Hash): Reply
    requires id in ledger
  {
    if ledger[id].hash != hash then Error(PreconditionFailed, NotStarted) else Result(ledger[id].receipt)
  }

  function Serve(s: State, id: Id, hash: Hash, screening: Screening): State {
    match screening
    case Malformed => Respond(s, id, hash, screening, Error(InvalidArguments, NotStarted), |s.restarts|)
    case NotAllowed => Respond(s, id, hash, screening, Error(PermissionDenied, NotStarted), |s.restarts|)
    case LedgerUnreadable => Respond(s, id, hash, screening, Error(InternalError, NotStarted), |s.restarts|)
    case Passed =>
      if id in s.disk.ledger then Respond(s, id, hash, Passed, Lookup(s.disk.ledger, id, hash), |s.restarts|)
      else if s.job.Some? then Respond(s, id, hash, Passed, Error(ToolBusy, NotStarted), |s.restarts|)
      else s.(job := Some(Job(id, hash, |s.restarts|, false, ReadingBefore)))
  }

  function Checked(s: State, ok: bool, matches: bool): State
    requires s.job.Some?
  {
    if !ok then Finish(s, Caught(s.job.value, InternalError))
    else if !matches then Finish(s, Caught(s.job.value, PreconditionFailed))
    else Continue(s, Recording)
  }

  function WriteAhead(s: State, put: Put): State
    requires s.job.Some?
  {
    var job := s.job.value;
    var t := s.(disk := Store(s.disk, Record(job.hash, InProgress(job.id)), put));
    if Failed(put) then Finish(t, Caught(job, InternalError)) else Continue(t, Recorded)
  }

  function Issue(s: State): State
    requires s.job.Some?
  {
    var job := s.job.value;
    var command := Restart(job.id, s.incarnation);
    s.(job := Some(job.(mutationMayHaveStarted := true, stage := Restarting)),
       commands := s.commands + [command], restarts := s.restarts + [command])
  }

  // The commands left to systemd by earlier processes: all but the one just waited for.
  function Orphans(commands: seq<Restart>, incarnation: nat): seq<Restart> {
    if commands != [] && commands[|commands| - 1].incarnation == incarnation then commands[..|commands| - 1] else commands
  }

  function Verified(s: State, ok: bool, changed: bool): State
    requires s.job.Some? && s.job.value.stage.ReadingAfter?
  {
    var stage := s.job.value.stage;
    var outcome := if !ok || stage.timedOut then Unknown else if stage.done && changed then Success else Failure;
    Continue(s, Completing(Receipt(s.job.value.id, outcome, true)))
  }

  function Completed(s: State, put: Put): State
    requires s.job.Some? && s.job.value.stage.Completing?
  {
    var job := s.job.value;
    var t := s.(disk := Store(s.disk, Record(job.hash, job.stage.receipt), put));
    if Failed(put) then Finish(t, Caught(job, InternalError)) else Continue(t, Pruning(job.stage.receipt))
  }

  // Pruning at startup, or at the end of a request.
  function Pruned(s: State, removed: set<Id>, ok: bool): State
    requires s.job.Some? ==> s.job.value.stage.Pruning?
  {
    var t := s.(disk := Remove(s.disk, removed));
    if s.job.None? then t
    else if !ok then Finish(t, Caught(s.job.value, InternalError))
    else Finish(t, Result(s.job.value.stage.receipt))
  }

  predicate At(s: State, e: Event) {
    match e
    case BeforeRead(_, _) => s.job.Some? && s.job.value.stage.ReadingBefore?
    case FirstPut(_) => s.job.Some? && s.job.value.stage.Recording?
    case IssueRestart => s.job.Some? && s.job.value.stage.Recorded?
    case CommandEnds(_, _) => s.job.Some? && s.job.value.stage.Restarting?
    case AfterRead(_, _) => s.job.Some? && s.job.value.stage.ReadingAfter?
    case FinalPut(_) => s.job.Some? && s.job.value.stage.Completing?
    case Prune(removed, _) => s.job.Some? ==> s.job.value.stage.Pruning?
    case OrphanEnds(k) => k < |s.commands| && s.commands[k].incarnation < s.incarnation
    case Request(_, _, _) => true
    case Crash => true
    case PowerLoss(after) => Survives(s.disk, after)
  }

  function Next(s: State, e: Event): State {
    if !At(s, e) then s
    else
      match e
      case Request(id, hash, screening) => Serve(s, id, hash, screening)
      case BeforeRead(ok, matches) => Checked(s, ok, matches)
      case FirstPut(put) => WriteAhead(s, put)
      case IssueRestart => Issue(s)
      case CommandEnds(done, timedOut) =>
        Continue(s, ReadingAfter(timedOut, done)).(commands := Orphans(s.commands, s.incarnation))
      case AfterRead(ok, changed) => Verified(s, ok, changed)
      case FinalPut(put) => Completed(s, put)
      case Prune(removed, ok) => Pruned(s, removed, ok)
      case OrphanEnds(k) => s.(commands := s.commands[..k] + s.commands[k + 1..])
      case Crash => s.(job := None, incarnation := s.incarnation + 1)
      case PowerLoss(after) => s.(disk := Reboot(s.disk, after), job := None, incarnation := s.incarnation + 1, commands := [])
  }

  function Run(s: State, events: seq<Event>): State {
    if events == [] then s else Next(Run(s, events[..|events| - 1]), events[|events| - 1])
  }

  function Count(restarts: seq<Restart>, id: Id): nat {
    if restarts == [] then 0
    else Count(restarts[..|restarts| - 1], id) + if restarts[|restarts| - 1].id == id then 1 else 0
  }

  // Every record carries its own operation; what could be lost was written without being
  // synchronised, and so was everything that got lost.
  ghost predicate DiskInv(disk: Disk) {
    && (forall id :: id in disk.ledger && !(id in disk.durable && id !in disk.removing) ==> id in disk.unsynced)
    && disk.lost <= disk.unsynced
    && (forall id :: id in disk.ledger ==> disk.ledger[id].receipt.id == id)
    && (forall id :: id in disk.durable ==> disk.durable[id].receipt.id == id)
  }

  // The write-ahead record of an operation is in the ledger, and on stable storage unless a
  // synchronisation was skipped.
  predicate Announced(disk: Disk, id: Id) {
    && id in disk.ledger && disk.ledger[id].receipt == InProgress(id)
    && ((id in disk.durable && disk.durable[id] == disk.ledger[id]) || id in disk.unsynced)
  }

  predicate AnnouncedAs(disk: Disk, id: Id, hash: Hash) {
    Announced(disk, id) && disk.ledger[id].hash == hash
  }

  // What the ledger holds for the request in progress, stage by stage.
  predicate Backed(job: Job, disk: Disk) {
    match job.stage
    case ReadingBefore => job.id !in disk.ledger
    case Recording => job.id !in disk.ledger
    case Completing(receipt) => receipt.id == job.id && receipt.completed && AnnouncedAs(disk, job.id, job.hash)
    case Pruning(receipt) => receipt.completed && job.id in disk.ledger && disk.ledger[job.id] == Record(job.hash, receipt)
    case Recorded => AnnouncedAs(disk, job.id, job.hash)
    case Restarting => AnnouncedAs(disk, job.id, job.hash)
    case ReadingAfter(_, _) => AnnouncedAs(disk, job.id, job.hash)
  }

  // The flag is raised exactly when the request has issued its one restart.
  predicate Flagged(job: Job, restarts: seq<Restart>) {
    && job.mutationMayHaveStarted == !(job.stage.ReadingBefore? || job.stage.Recording? || job.stage.Recorded?)
    && |restarts| == job.admitted + (if job.mutationMayHaveStarted then 1 else 0)
    && (job.mutationMayHaveStarted ==> restarts[job.admitted].id == job.id)
  }

  ghost predicate JobInv(s: State) {
    s.job.Some? ==> Backed(s.job.value, s.disk) && Flagged(s.job.value, s.restarts)
  }

  // Outstanding commands belong to different processes, the newest last, and the one of the
  // present process is being waited for.
  ghost predicate Awaited(commands: seq<Restart>, incarnation: nat, job: Option<Job>) {
    && (forall j, k :: 0 <= j < k < |commands| ==> commands[j].incarnation < commands[k].incarnation)
    && (forall k :: 0 <= k < |commands| ==> commands[k].incarnation <= incarnation)
    && (forall k :: 0 <= k < |commands| && commands[k].incarnation == incarnation ==>
          job.Some? && job.value.stage.Restarting? && commands[k].id == job.value.id)
  }

  ghost predicate CommandInv(s: State) {
    Awaited(s.commands, s.incarnation, s.job)
  }

  // An error says "not started" exactly if no restart was issued for the request, and blames
  // the host exactly if one was; a receipt is for the operation that was asked about.
  predicate Truthful(a: Answer) {
    if a.reply.Error? then
      (a.reply.started.NotStarted? <==> !a.invoked) && (a.reply.code.HostUnavailable? <==> a.invoked)
    else a.reply.receipt.id == a.id
  }

  ghost predicate AnswersInv(s: State) {
    forall a :: a in s.answers ==> Truthful(a)
  }

  // The record of the request in progress is there, and its restart is still to come.
  predicate AboutToRestart(job: Option<Job>, id: Id) {
    job.Some? && job.value.id == id && job.value.stage.Recorded?
  }

  // As long as its record is retained, an operation has been restarted at most once.
  ghost predicate IdInv(s: State, id: Id) {
    id !in s.disk.pruned && id !in s.disk.lost ==>
      Count(s.restarts, id) <= if id in s.disk.ledger && !AboutToRestart(s.job, id) then 1 else 0
  }

  ghost predicate Inv(s: State) {
    DiskInv(s.disk) && JobInv(s) && CommandInv(s) && AnswersInv(s) && forall id :: IdInv(s, id)
  }

  lemma CountAppend(restarts: seq<Restart>, r: Restart, id: Id)
    ensures Count(restarts + [r], id) == Count(restarts, id) + if r.id == id then 1 else 0
  {
    assert (restarts + [r])[..|restarts|] == restarts;
  }

  lemma StoreKeepsDisk(disk: Disk, record: Record, put: Put)
    requires DiskInv(disk)
    ensures DiskInv(Store(disk, record, put))
  {
  }

  lemma RemoveKeepsDisk(disk: Disk, removed: set<Id>)
    requires DiskInv(disk)
    ensures DiskInv(Remove(disk, removed))
  {
  }

  lemma RebootKeepsDisk(disk: Disk, after: map<Id, Record>)
    requires DiskInv(disk) && Survives(disk, after)
    ensures DiskInv(Reboot(disk, after))
  {
  }

  lemma DiskStep(s: State, e: Event)
    requires DiskInv(s.disk)
    ensures DiskInv(Next(s, e).disk)
  {
    if !At(s, e) { return; }
    match e
    case FirstPut(put) => StoreKeepsDisk(s.disk, Record(s.job.value.hash, InProgress(s.job.value.id)), put);
    case FinalPut(put) => StoreKeepsDisk(s.disk, Record(s.job.value.hash, s.job.value.stage.receipt), put);
    case Prune(removed, _) => RemoveKeepsDisk(s.disk, removed);
    case PowerLoss(after) => RebootKeepsDisk(s.disk, after);
    case _ => assert Next(s, e).disk == s.disk;
  }

  lemma AnnouncedByPut(disk: Disk, id: Id, hash: Hash, put: Put)
    requires !Failed(put)
    ensures AnnouncedAs(Store(disk, Record(hash, InProgress(id)), put), id, hash)
  {
  }

  lemma JobStep(s: State, e: Event)
    requires JobInv(s)
    ensures JobInv(Next(s, e))
  {
    if !At(s, e) { return; }
    match e
    case FirstPut(put) =>
      if !Failed(put) { AnnouncedByPut(s.disk, s.job.value.id, s.job.value.hash, put); }
    case _ =>
  }

  lemma AwaitedByNone(commands: seq<Restart>, incarnation: nat, job: Option<Job>)
    requires Awaited(commands, incarnation, job)
    ensures Awaited(commands, incarnation + 1, None)
  {
  }

  lemma AwaitedOnlyWhileRestarting(commands: seq<Restart>, incarnation: nat, job: Option<Job>, next: Option<Job>)
    requires Awaited(commands, incarnation, job) && (job.Some? ==> !job.value.stage.Restarting?)
    ensures Awaited(commands, incarnation, next)
  {
    assert forall k :: 0 <= k < |commands| ==> commands[k].incarnation < incarnation;
  }

  lemma AwaitedCommand(commands: seq<Restart>, incarnation: nat, before: Job, after: Job)
    requires Awaited(commands, incarnation, Some(before)) && !before.stage.Restarting?
    requires after.stage.Restarting?
    ensures Awaited(commands + [Restart(after.id, incarnation)], incarnation, Some(after))
    ensures forall k :: 0 <= k < |commands| ==> commands[k].incarnation < incarnation
  {
    assert forall k :: 0 <= k < |commands| ==> commands[k].incarnation < incarnation;
  }

  lemma AwaitedOrphans(commands: seq<Restart>, incarnation: nat, job: Option<Job>, next: Option<Job>)
    requires Awaited(commands, incarnation, job)
    ensures Awaited(Orphans(commands, incarnation), incarnation, next)
  {
  }

  lemma AwaitedAfterEnd(commands: seq<Restart>, k: nat, incarnation: nat, job: Option<Job>)
    requires Awaited(commands, incarnation, job) && k < |commands|
    ensures Awaited(commands[..k] + commands[k + 1..], incarnation, job)
  {
    var rest := commands[..k] + commands[k + 1..];
    forall i | 0 <= i < |rest| ensures rest[i] == commands[if i < k then i else i + 1] {}
  }

  // The events that neither issue nor end a command.
  lemma QuietCommandStep(s: State, e: Event)
    requires CommandInv(s) && At(s, e)
    requires e.Request? || e.BeforeRead? || e.FirstPut? || e.AfterRead? || e.FinalPut? || e.Prune?
    ensures CommandInv(Next(s, e))
  {
    var t := Next(s, e);
    assert t.commands == s.commands && t.incarnation == s.incarnation;
    if s.job.Some? && s.job.value.stage.Restarting? {
      assert t.job == s.job;
    } else {
      AwaitedOnlyWhileRestarting(s.commands, s.incarnation, s.job, t.job);
    }
  }

  lemma CommandStep(s: State, e: Event)
    requires CommandInv(s)
    ensures CommandInv(Next(s, e))
  {
    if !At(s, e) { return; }
    match e
    case IssueRestart => AwaitedCommand(s.commands, s.incarnation, s.job.value, Next(s, e).job.value);
    case CommandEnds(_, _) => AwaitedOrphans(s.commands, s.incarnation, s.job, Next(s, e).job);
    case OrphanEnds(k) => AwaitedAfterEnd(s.commands, k, s.incarnation, s.job);
    case Crash => AwaitedByNone(s.commands, s.incarnation, s.job);
    case PowerLoss(_) =>
    case _ => QuietCommandStep(s, e);
  }

  lemma RespondStep(s: State, a: Answer)
    requires AnswersInv(s) && Truthful(a)
    ensures AnswersInv(s.(answers := s.answers + [a]))
  {
  }

  lemma CaughtStep(s: State, code: Code)
    requires AnswersInv(s) && s.job.Some? && Flagged(s.job.value, s.restarts) && !code.HostUnavailable?
    ensures AnswersInv(Finish(s, Caught(s.job.value, code)))
  {
    var job := s.job.value;
    RespondStep(s, Answer(job.id, job.hash, Passed, Caught(job, code), |s.restarts| != job.admitted));
  }

  lemma ServeStep(s: State, id: Id, hash: Hash, screening: Screening)
    requires DiskInv(s.disk) && AnswersInv(s)
    ensures AnswersInv(Serve(s, id, hash, screening))
  {
    var t := Serve(s, id, hash, screening);
    if t.job == s.job {
      var a := t.answers[|s.answers|];
      assert t == s.(answers := s.answers + [a]);
      RespondStep(s, a);
    }
  }

  lemma PrunedStep(s: State, removed: set<Id>, ok: bool)
    requires DiskInv(s.disk) && JobInv(s) && AnswersInv(s) && At(s, Prune(removed, ok))
    ensures AnswersInv(Pruned(s, removed, ok))
  {
    if s.job.Some? {
      var t := s.(disk := Remove(s.disk, removed));
      var job := s.job.value;
      if ok {
        RespondStep(t, Answer(job.id, job.hash, Passed, Result(job.stage.receipt), |s.restarts| != job.admitted));
      } else {
        CaughtStep(t, InternalError);
      }
    }
  }

  lemma AnswerStep(s: State, e: Event)
    requires DiskInv(s.disk) && JobInv(s) && AnswersInv(s)
    ensures AnswersInv(Next(s, e))
  {
    if !At(s, e) { return; }
    match e
    case Request(id, hash, screening) => ServeStep(s, id, hash, screening);
    case BeforeRead(ok, matches) => CaughtStep(s, if !ok then InternalError else PreconditionFailed);
    case FirstPut(put) =>
      CaughtStep(s.(disk := Store(s.disk, Record(s.job.value.hash, InProgress(s.job.value.id)), put)), InternalError);
    case FinalPut(put) =>
      CaughtStep(s.(disk := Store(s.disk, Record(s.job.value.hash, s.job.value.stage.receipt), put)), InternalError);
    case Prune(removed, ok) => PrunedStep(s, removed, ok);
    case _ => assert Next(s, e).answers == s.answers;
  }

  lemma IssueIdStep(s: State, id: Id)
    requires IdInv(s, id) && JobInv(s) && At(s, IssueRestart)
    ensures IdInv(Next(s, IssueRestart), id)
  {
    CountAppend(s.restarts, Restart(s.job.value.id, s.incarnation), id);
  }

  lemma FirstPutIdStep(s: State, put: Put, id: Id)
    requires IdInv(s, id) && JobInv(s) && At(s, FirstPut(put))
    ensures IdInv(Next(s, FirstPut(put)), id)
  {
  }

  lemma FinalPutIdStep(s: State, put: Put, id: Id)
    requires IdInv(s, id) && JobInv(s) && At(s, FinalPut(put))
    ensures IdInv(Next(s, FinalPut(put)), id)
  {
  }

  lemma PruneIdStep(s: State, removed: set<Id>, ok: bool, id: Id)
    requires IdInv(s, id) && At(s, Prune(removed, ok))
    ensures IdInv(Next(s, Prune(removed, ok)), id)
  {
  }

  // The events that leave the disk alone and issue nothing.
  lemma OtherIdStep(s: State, e: Event, id: Id)
    requires IdInv(s, id) && JobInv(s) && At(s, e)
    requires !e.FirstPut? && !e.IssueRestart? && !e.FinalPut? && !e.Prune? && !e.PowerLoss?
    ensures IdInv(Next(s, e), id)
  {
    var t := Next(s, e);
    assert t.restarts == s.restarts && t.disk == s.disk;
    assert AboutToRestart(t.job, id) ==> AboutToRestart(s.job, id);
  }

  lemma PowerLossIdStep(s: State, after: map<Id, Record>, id: Id)
    requires IdInv(s, id) && At(s, PowerLoss(after))
    ensures IdInv(Next(s, PowerLoss(after)), id)
  {
    assert id !in s.disk.lost + (s.disk.ledger.Keys - after.Keys) ==> (id in s.disk.ledger ==> id in after);
  }

  lemma IdStep(s: State, e: Event, id: Id)
    requires IdInv(s, id) && DiskInv(s.disk) && JobInv(s)
    ensures IdInv(Next(s, e), id)
  {
    if !At(s, e) { return; }
    match e
    case IssueRestart => IssueIdStep(s, id);
    case FirstPut(put) => FirstPutIdStep(s, put, id);
    case FinalPut(put) => FinalPutIdStep(s, put, id);
    case Prune(removed, ok) => PruneIdStep(s, removed, ok, id);
    case PowerLoss(after) => PowerLossIdStep(s, after, id);
    case _ => OtherIdStep(s, e, id);
  }

  lemma NextKeepsInv(s: State, e: Event)
    requires Inv(s)
    ensures Inv(Next(s, e))
  {
    DiskStep(s, e);
    JobStep(s, e);
    CommandStep(s, e);
    AnswerStep(s, e);
    forall id ensures IdInv(Next(s, e), id) { IdStep(s, e, id); }
  }

  lemma {:induction false} RunKeepsInv(s: State, events: seq<Event>)
    requires Inv(s)
    ensures Inv(Run(s, events))
  {
    if events != [] {
      RunKeepsInv(s, events[..|events| - 1]);
      NextKeepsInv(Run(s, events[..|events| - 1]), events[|events| - 1]);
    }
  }

  // Of any two outstanding commands the earlier one belongs to an earlier process, so each
  // process has at most one, and all but the last were left behind by a crash.
  lemma OneCommandPerProcess(events: seq<Event>, j: nat, k: nat)
    requires j < k < |Run(Init(), events).commands|
    ensures var s := Run(Init(), events); s.commands[j].incarnation < s.commands[k].incarnation <= s.incarnation
  {
    RunKeepsInv(Init(), events);
  }

  lemma RestartsGrow(s: State, e: Event)
    ensures Next(s, e).restarts == s.restarts || (At(s, e) && e.IssueRestart? && |Next(s, e).restarts| == |s.restarts| + 1)
    ensures s.restarts <= Next(s, e).restarts
  {
  }

  // Step n of a run issues restart k, and at that moment its operation is announced.
  ghost predicate IssuedAt(events: seq<Event>, n: nat, k: nat, r: Restart) {
    && n < |events|
    && var s := Run(Init(), events[..n]);
       |s.restarts| == k && Next(s, events[n]).restarts == s.restarts + [r] && Announced(s.disk, r.id)
  }

  lemma StillIssuedAt(events: seq<Event>, e: Event, n: nat, k: nat, r: Restart)
    requires IssuedAt(events, n, k, r)
    ensures IssuedAt(events + [e], n, k, r)
  {
    assert (events + [e])[..n] == events[..n];
  }

  lemma IssuedNow(events: seq<Event>, e: Event)
    requires var s := Run(Init(), events); |Next(s, e).restarts| > |s.restarts|
    ensures var s, t := Run(Init(), events), Next(Run(Init(), events), e);
            |t.restarts| == |s.restarts| + 1 && IssuedAt(events + [e], |events|, |s.restarts|, t.restarts[|s.restarts|])
  {
    RunKeepsInv(Init(), events);
    RestartsGrow(Run(Init(), events), e);
    assert (events + [e])[..|events|] == events;
  }

  // Every restart of every run was issued when the ledger held an unknown receipt for its
  // operation, durable unless the file system had skipped a synchronisation.
  lemma {:induction false} RestartsAreRecordedFirst(events: seq<Event>, k: nat)
    requires k < |Run(Init(), events).restarts|
    ensures exists n: nat :: IssuedAt(events, n, k, Run(Init(), events).restarts[k])
  {
    assert events != [];
    var before, e := events[..|events| - 1], events[|events| - 1];
    assert before + [e] == events;
    RestartsGrow(Run(Init(), before), e);
    if k < |Run(Init(), before).restarts| {
      RestartsAreRecordedFirst(before, k);
      var r := Run(Init(), before).restarts[k];
      var n: nat :| IssuedAt(before, n, k, r);
      StillIssuedAt(before, e, n, k, r);
    } else {
      IssuedNow(before, e);
    }
  }

  // Over any run, with crashes and losses of power at any point, an operation whose record
  // was neither pruned nor lost has been restarted at most once; and a record is lost only
  // if it was never synchronised to stable storage.
  lemma {:induction false} AtMostOneRestart(events: seq<Event>, id: Id)
    ensures var s := Run(Init(), events);
            && (id !in s.disk.pruned && id !in s.disk.lost ==> Count(s.restarts, id) <= 1)
            && (id in s.disk.lost ==> id in s.disk.unsynced)
            && (id !in s.disk.pruned && id !in s.disk.lost && Count(s.restarts, id) == 1 ==> id in s.disk.ledger)
  {
    RunKeepsInv(Init(), events);
    assert IdInv(Run(Init(), events), id);
  }

  // An error that says the restart did not start goes exactly to the requests for which none
  // was issued, and an unavailable host is blamed exactly when one was.
  lemma {:induction false} NotStartedIsTruthful(events: seq<Event>, a: Answer)
    requires a in Run(Init(), events).answers && a.reply.Error?
    ensures a.reply.started.NotStarted? <==> !a.invoked
    ensures a.reply.code.HostUnavailable? <==> a.invoked
  {
    RunKeepsInv(Init(), events);
    assert Truthful(a);
  }

  // While a request is being served, the flag its error path looks at tells whether its
  // restart has been issued since it was admitted.
  lemma FlagIsTruthful(events: seq<Event>)
    requires Run(Init(), events).job.Some?
    ensures var s := Run(Init(), events);
            s.job.value.mutationMayHaveStarted <==> |s.restarts| > s.job.value.admitted
  {
    RunKeepsInv(Init(), events);
  }

  // Neither a loss of power nor a pruning that removes the record.
  predicate Spares(e: Event, id: Id) {
    !e.PowerLoss? && (e.Prune? ==> id !in e.removed)
  }

  // A record is replaced at most once, by the completed receipt of the same request.
  predicate Advances(before: Record, after: Record) {
    after == before || (!before.receipt.completed && after.hash == before.hash && after.receipt.completed)
  }

  // Some request still has to complete the record.
  predicate Owned(s: State, id: Id) {
    s.job.Some? && s.job.value.id == id && !s.job.value.stage.Pruning?
  }

  lemma OthersPut(disk: Disk, record: Record, put: Put, id: Id)
    requires id in disk.ledger && record.receipt.id != id
    ensures id in Store(disk, record, put).ledger && Store(disk, record, put).ledger[id] == disk.ledger[id]
  {
  }

  lemma CompletionAdvances(s: State, put: Put, id: Id)
    requires JobInv(s) && id in s.disk.ledger && At(s, FinalPut(put))
    ensures var t := Next(s, FinalPut(put));
            id in t.disk.ledger && Advances(s.disk.ledger[id], t.disk.ledger[id]) && !Owned(t, id)
            && (!Owned(s, id) ==> t.disk.ledger[id] == s.disk.ledger[id])
  {
    if s.job.value.id != id { OthersPut(s.disk, Record(s.job.value.hash, s.job.value.stage.receipt), put, id); }
  }

  lemma RecordStep(s: State, e: Event, id: Id)
    requires JobInv(s) && id in s.disk.ledger && Spares(e, id)
    ensures var t := Next(s, e);
            id in t.disk.ledger && Advances(s.disk.ledger[id], t.disk.ledger[id])
            && (!Owned(s, id) ==> !Owned(t, id) && t.disk.ledger[id] == s.disk.ledger[id])
  {
    if !At(s, e) { return; }
    match e
    case FirstPut(put) => OthersPut(s.disk, Record(s.job.value.hash, InProgress(s.job.value.id)), put, id);
    case FinalPut(put) => CompletionAdvances(s, put, id);
    case _ =>
  }

  // A completed record has no owner any more.
  lemma CompletedIsSettled(s: State, id: Id)
    requires JobInv(s) && id in s.disk.ledger && s.disk.ledger[id].receipt.completed
    ensures !Owned(s, id)
  {
  }

  lemma {:induction false} RecordsAdvance(s: State, events: seq<Event>, id: Id)
    requires Inv(s) && id in s.disk.ledger && forall e :: e in events ==> Spares(e, id)
    ensures var t := Run(s, events);
            Inv(t) && id in t.disk.ledger && Advances(s.disk.ledger[id], t.disk.ledger[id])
            && (!Owned(s, id) ==> !Owned(t, id) && t.disk.ledger[id] == s.disk.ledger[id])
  {
    if events != [] {
      var before, e := events[..|events| - 1], events[|events| - 1];
      assert forall x :: x in before ==> x in events;
      RecordsAdvance(s, before, id);
      var u := Run(s, before);
      RecordStep(u, e, id);
      NextKeepsInv(u, e);
      if u.disk.ledger[id].receipt.completed { CompletedIsSettled(u, id); }
    }
  }

  // The events that answer an operation from its record: a lookup, or the end of its request.
  predicate Reports(e: Event) {
    e.Request? || (e.Prune? && e.ok)
  }

  // What such an event answers is what the ledger holds.
  lemma ReportedFromLedger(s: State, e: Event, a: Answer)
    requires JobInv(s) && Next(s, e).answers == s.answers + [a]
    requires Reports(e) && a.screening.Passed? && a.id in s.disk.ledger
    ensures a.reply == Lookup(s.disk.ledger, a.id, a.hash)
    ensures e.Request? ==> !a.invoked && Next(s, e) == s.(answers := s.answers + [a])
  {
    assert a == Next(s, e).answers[|s.answers|];
  }

  // A receipt, once given, is given again. After `first` has answered an operation with a
  // receipt, every later lookup answers the same hash with that receipt and any other hash
  // with a refusal, until the record is pruned or power is lost. Only a receipt handed out
  // while the operation was still running changes, once, to the completed one.
  lemma ReplaysAgree(events: seq<Event>, first: Event, a: Answer, later: seq<Event>, second: Event, b: Answer)
    requires var s := Run(Init(), events);
             && Next(s, first).answers == s.answers + [a] && a.reply.Result? && a.id in Next(s, first).disk.ledger
    requires var u := Run(Next(Run(Init(), events), first), later);
             Next(u, second).answers == u.answers + [b]
    requires Reports(second) && b.id == a.id && b.screening.Passed?
    requires forall e :: e in later ==> Spares(e, a.id)
    ensures b.hash != a.hash ==> b.reply == Error(PreconditionFailed, NotStarted)
    ensures b.hash == a.hash ==>
              b.reply == a.reply || (!a.reply.receipt.completed && b.reply.Result? && b.reply.receipt.completed)
    ensures b.hash == a.hash && !Owned(Next(Run(Init(), events), first), a.id) ==> b.reply == a.reply
    ensures second.Request? ==> !b.invoked
  {
    var s := Run(Init(), events);
    var t := Next(s, first);
    RunKeepsInv(Init(), events);
    NextKeepsInv(s, first);
    FirstReport(s, first, a);
    RecordsAdvance(t, later, a.id);
    ReportedFromLedger(Run(t, later), second, b);
  }

  // A receipt is answered from the record, by a lookup or at the end of a request.
  lemma FirstReport(s: State, e: Event, a: Answer)
    requires JobInv(s) && Next(s, e).answers == s.answers + [a] && a.reply.Result? && a.id in Next(s, e).disk.ledger
    ensures Next(s, e).disk.ledger[a.id] == Record(a.hash, a.reply.receipt)
  {
    assert a == Next(s, e).answers[|s.answers|];
  }

  lemma RunAppend(s: State, events: seq<Event>, e: Event)
    ensures Run(s, events + [e]) == Next(Run(s, events), e)
  {
    assert (events + [e])[..|events|] == events;
  }

  // Four events that carry a request to its restart command, if nothing is in their way.
  function Attempt(id: Id, hash: Hash, put: Put): seq<Event> {
    [Request(id, hash, Passed), BeforeRead(true, true), FirstPut(put), IssueRestart]
  }

  function Attempted(s: State, id: Id, hash: Hash, put: Put): State {
    Next(Next(Next(Next(s, Request(id, hash, Passed)), BeforeRead(true, true)), FirstPut(put)), IssueRestart)
  }

  lemma AttemptIsRun(before: seq<Event>, id: Id, hash: Hash, put: Put)
    ensures Run(Init(), before + Attempt(id, hash, put)) == Attempted(Run(Init(), before), id, hash, put)
  {
    var a := before + [Request(id, hash, Passed)];
    var b := a + [BeforeRead(true, true)];
    var c := b + [FirstPut(put)];
    assert before + Attempt(id, hash, put) == c + [IssueRestart];
    RunAppend(Init(), before, Request(id, hash, Passed));
    RunAppend(Init(), a, BeforeRead(true, true));
    RunAppend(Init(), b, FirstPut(put));
    RunAppend(Init(), c, IssueRestart);
  }

  lemma AttemptRestarts(s: State, id: Id, hash: Hash, put: Put)
    requires s.job.None? && id !in s.disk.ledger && !Failed(put)
    ensures var t, r := Attempted(s, id, hash, put), Restart(id, s.incarnation);
            && t.restarts == s.restarts + [r] && t.commands == s.commands + [r]
            && t.disk == Store(s.disk, Record(hash, InProgress(id)), put)
  {
  }

  lemma AttemptEnds(s: State, id: Id, hash: Hash, put: Put)
    requires s.job.None? && (id in s.disk.ledger || Failed(put))
    ensures var t := Attempted(s, id, hash, put); t.restarts == s.restarts && t.commands == s.commands
  {
  }

  // An operation is restarted again exactly if its record is gone when it is requested and
  // can be written; and a record that was there is gone only by pruning, or by a loss of
  // power after a synchronisation was skipped.
  lemma RestartsAgainIff(events: seq<Event>, id: Id, hash: Hash, put: Put)
    requires var s := Run(Init(), events); s.job.None? && Count(s.restarts, id) > 0
    ensures var s, t := Run(Init(), events), Run(Init(), events + Attempt(id, hash, put));
            && (Count(t.restarts, id) > Count(s.restarts, id) <==> id !in s.disk.ledger && !Failed(put))
            && (id !in s.disk.ledger ==> id in s.disk.pruned || (id in s.disk.lost && id in s.disk.unsynced))
  {
    var s := Run(Init(), events);
    RunKeepsInv(Init(), events);
    AttemptIsRun(events, id, hash, put);
    assert IdInv(s, id);
    if id in s.disk.ledger || Failed(put) {
      AttemptEnds(s, id, hash, put);
    } else {
      AttemptRestarts(s, id, hash, put);
      CountAppend(s.restarts, Restart(id, s.incarnation), id);
    }
  }

  // A request leaves more than one command outstanding exactly if its record is new and can
  // be written while a command of a crashed process is still running.
  lemma SecondCommandIff(events: seq<Event>, id: Id, hash: Hash, put: Put)
    requires var s := Run(Init(), events); s.job.None? && |s.commands| <= 1
    ensures var s, t := Run(Init(), events), Run(Init(), events + Attempt(id, hash, put));
            && (|t.commands| > 1 <==> id !in s.disk.ledger && !Failed(put) && s.commands != [])
            && (forall r :: r in s.commands ==> r.incarnation < s.incarnation)
  {
    var s := Run(Init(), events);
    RunKeepsInv(Init(), events);
    AttemptIsRun(events, id, hash, put);
    if id in s.disk.ledger || Failed(put) {
      AttemptEnds(s, id, hash, put);
    } else {
      AttemptRestarts(s, id, hash, put);
    }
  }

  // One attempt from the initial state, and then a crash, or a loss of power that costs the
  // record, which was not synchronised.
  lemma InterruptedAttempt(id: Id, hash: Hash, synced: bool) returns (events: seq<Event>)
    ensures var s := Run(Init(), events);
            var disk := Store(Init().disk, Record(hash, InProgress(id)), Written(synced, false));
            && s.job.None? && s.incarnation == 1 && s.restarts == [Restart(id, 0)] && s.disk.pruned == {}
            && (synced ==> s.commands == [Restart(id, 0)] && s.disk == disk)
            && (!synced ==> s.commands == [] && s.disk == Reboot(disk, map[]))
  {
    var put := Written(synced, false);
    var interruption := if synced then Crash else PowerLoss(map[]);
    events := [] + Attempt(id, hash, put) + [interruption];
    AttemptIsRun([], id, hash, put);
    AttemptRestarts(Init(), id, hash, put);
    RunAppend(Init(), [] + Attempt(id, hash, put), interruption);
    assert [] + [Restart(id, 0)] == [Restart(id, 0)];
  }

  // No command of an earlier process is outstanding.
  ghost predicate NoOrphans(s: State) {
    forall k :: 0 <= k < |s.commands| ==> s.commands[k].incarnation == s.incarnation
  }

  lemma OrphanStep(s: State, e: Event)
    requires NoOrphans(s) && !e.Crash?
    ensures NoOrphans(Next(s, e))
  {
  }

  lemma {:induction false} NoOrphansWithoutCrash(s: State, events: seq<Event>)
    requires NoOrphans(s) && Crash !in events
    ensures NoOrphans(Run(s, events))
  {
    if events != [] {
      var before, e := events[..|events| - 1], events[|events| - 1];
      assert (forall x :: x in before ==> x in events) && e in events;
      NoOrphansWithoutCrash(s, before);
      OrphanStep(Run(s, before), e);
    }
  }

  // A second command takes a crash: from a moment without orphans on, whatever is requested,
  // ends or loses power, there is at most one outstanding until a process crashes.
  lemma SecondCommandTakesCrash(before: seq<Event>, later: seq<Event>)
    requires NoOrphans(Run(Init(), before)) && Crash !in later
    ensures |Run(Run(Init(), before), later).commands| <= 1
  {
    var s := Run(Init(), before);
    RunKeepsInv(Init(), before);
    RunKeepsInv(s, later);
    NoOrphansWithoutCrash(s, later);
    OneOfOneProcess(Run(s, later));
  }

  lemma {:induction false} IncarnationsSpread(commands: seq<Restart>, n: nat)
    requires forall j, k :: 0 <= j < k < |commands| ==> commands[j].incarnation < commands[k].incarnation
    requires n < |commands|
    ensures commands[n].incarnation >= commands[0].incarnation + n
  {
    if n > 0 { IncarnationsSpread(commands, n - 1); }
  }

  lemma OneOfOneProcess(s: State)
    requires CommandInv(s) && NoOrphans(s)
    ensures |s.commands| <= 1
  {
    if s.commands != [] { IncarnationsSpread(s.commands, |s.commands| - 1); }
  }

  lemma RecordForbidsStep(s: State, e: Event, id: Id)
    requires JobInv(s) && id in s.disk.ledger && !AboutToRestart(s.job, id) && Spares(e, id)
    ensures var t := Next(s, e); id in t.disk.ledger && !AboutToRestart(t.job, id) && Count(t.restarts, id) == Count(s.restarts, id)
  {
    RecordStep(s, e, id);
    if At(s, e) && e.IssueRestart? { CountAppend(s.restarts, Restart(s.job.value.id, s.incarnation), id); }
  }

  // A record forbids every further restart of its operation, whatever happens in between,
  // until it is pruned or power is lost.
  lemma {:induction false} RecordForbidsRestart(s: State, later: seq<Event>, id: Id)
    requires Inv(s) && id in s.disk.ledger && !AboutToRestart(s.job, id) && forall e :: e in later ==> Spares(e, id)
    ensures var t := Run(s, later);
            id in t.disk.ledger && !AboutToRestart(t.job, id) && Count(t.restarts, id) == Count(s.restarts, id)
  {
    if later != [] {
      var before, e := later[..|later| - 1], later[|later| - 1];
      assert (forall x :: x in before ==> x in later) && e in later;
      RecordForbidsRestart(s, before, id);
      RunKeepsInv(s, before);
      RecordForbidsStep(Run(s, before), e, id);
    }
  }

  // On a file system that does not synchronise directories, a loss of power can cost the
  // record and the same operation restarts twice.
  lemma UnsyncedRecordExample(id: Id, hash: Hash)
    ensures exists events: seq<Event> ::
              var s := Run(Init(), events); Count(s.restarts, id) == 2 && id !in s.disk.pruned && id in s.disk.lost
  {
    var put := Written(false, false);
    var before := InterruptedAttempt(id, hash, false);
    var s := Run(Init(), before);
    AttemptIsRun(before, id, hash, put);
    AttemptRestarts(s, id, hash, put);
    CountAppend([], Restart(id, 0), id);
    CountAppend([Restart(id, 0)], Restart(id, 1), id);
    assert [] + [Restart(id, 0)] == [Restart(id, 0)];
    var t := Run(Init(), before + Attempt(id, hash, put));
    assert Count(t.restarts, id) == 2 && t.disk.lost == s.disk.lost;
  }

  // A crash leaves its command with systemd, and the next process may issue another one.
  lemma TwoCommandsExample(first: Id, second: Id, hash: Hash)
    requires first != second
    ensures exists events: seq<Event> :: |Run(Init(), events).commands| == 2
  {
    var put := Written(true, false);
    var before := InterruptedAttempt(first, hash, true);
    AttemptIsRun(before, second, hash, put);
    AttemptRestarts(Run(Init(), before), second, hash, put);
    assert |Run(Init(), before + Attempt(second, hash, put)).commands| == 2;
  }

  // --- What a request has been through ---

  // The steps that the request in progress has taken, its admission first.
  function Steps(events: seq<Event>): seq<nat> {
    if events == [] then []
    else
      var n := |events| - 1;
      var s, t := Run(Init(), events[..n]), Run(Init(), events);
      if t.job.None? then [] else if s.job.None? then [n] else if t.job == s.job then Steps(events[..n]) else Steps(events[..n]) + [n]
  }

  // What the command and the read behind it make of a restart.
  function Judged(command: Event, read: Event): Outcome {
    if command == CommandEnds(true, false) && read == AfterRead(true, true) then Success
    else if (command.CommandEnds? && command.timedOut) || (read.AfterRead? && !read.ok) then Unknown
    else Failure
  }

  function Number(stage: Stage): nat {
    match stage
    case ReadingBefore => 1
    case Recording => 2
    case Recorded => 3
    case Restarting => 4
    case ReadingAfter(_, _) => 5
    case Completing(_) => 6
    case Pruning(_) => 7
  }

  // The steps of a request that has come this far, by what each of them was.
  ghost predicate Course(job: Job, done: seq<Event>) {
    && |done| == Number(job.stage)
    && done[0] == Request(job.id, job.hash, Passed)
    && (|done| > 1 ==> done[1] == BeforeRead(true, true))
    && (|done| > 2 ==> done[2].FirstPut? && !Failed(done[2].put))
    && (|done| > 3 ==> done[3] == IssueRestart)
    && (|done| > 4 ==> done[4].CommandEnds?)
    && (|done| > 5 ==> done[5].AfterRead?)
    && (|done| > 6 ==> done[6].FinalPut? && !Failed(done[6].put))
    && (job.stage.ReadingAfter? ==> done[4] == CommandEnds(job.stage.done, job.stage.timedOut))
    && (job.stage.Completing? || job.stage.Pruning? ==> job.stage.receipt == Receipt(job.id, Judged(done[4], done[5]), true))
  }

  function Taken(events: seq<Event>, at: seq<nat>): seq<Event>
    requires forall k :: 0 <= k < |at| ==> at[k] < |events|
  {
    seq(|at|, k requires 0 <= k < |at| => events[at[k]])
  }

  ghost predicate Ascending(at: seq<nat>, n: nat) {
    (forall j, k :: 0 <= j < k < |at| ==> at[j] < at[k]) && forall k :: 0 <= k < |at| ==> at[k] < n
  }

  // From step i on the same request has been in progress, in the same process.
  ghost predicate Serving(events: seq<Event>, i: nat, m: nat) {
    i < m <= |events| ==>
      var s, t := Run(Init(), events[..m]), Run(Init(), events);
      s.job.Some? && t.job.Some? && s.job.value.id == t.job.value.id && s.job.value.hash == t.job.value.hash && s.incarnation == t.incarnation
  }

  ghost predicate Told(events: seq<Event>) {
    var s, at := Run(Init(), events), Steps(events);
    && Ascending(at, |events|)
    && (s.job.None? ==> at == [])
    && (s.job.Some? ==> Course(s.job.value, Taken(events, at)) && forall m: nat :: Serving(events, at[0], m))
  }

  // How the request in progress goes on, and which event does it.
  lemma CourseStep(s: State, e: Event, done: seq<Event>)
    requires s.job.Some? && Course(s.job.value, done)
    ensures var t := Next(s, e);
            t.job.Some? && t.job != s.job ==>
              && Course(t.job.value, done + [e]) && t.job.value.id == s.job.value.id && t.job.value.hash == s.job.value.hash
    ensures Next(s, e).job.Some? ==> Next(s, e).incarnation == s.incarnation
  {
  }

  lemma AdmissionStep(s: State, e: Event)
    requires s.job.None?
    ensures var t := Next(s, e);
            t.job.Some? ==> e == Request(t.job.value.id, t.job.value.hash, Passed) && t.job.value.stage.ReadingBefore? && t.incarnation == s.incarnation
  {
  }

  lemma ServingLater(events: seq<Event>, i: nat, m: nat)
    requires events != [] && Serving(events[..|events| - 1], i, m) && m < |events|
    requires var s, t := Run(Init(), events[..|events| - 1]), Run(Init(), events);
             s.job.Some? && t.job.Some? && t.job.value.id == s.job.value.id && t.job.value.hash == s.job.value.hash && t.incarnation == s.incarnation
    ensures Serving(events, i, m)
  {
    if i < m { assert events[..|events| - 1][..m] == events[..m]; }
  }

  lemma ServingNow(events: seq<Event>, i: nat)
    requires Run(Init(), events).job.Some?
    ensures Serving(events, i, |events|)
  {
    assert events[..|events|] == events;
  }

  lemma TakenLater(events: seq<Event>, at: seq<nat>)
    requires events != [] && Ascending(at, |events| - 1)
    ensures Taken(events[..|events| - 1], at) == Taken(events, at)
  {
  }

  lemma TakenNow(events: seq<Event>, at: seq<nat>)
    requires events != [] && Ascending(at, |events| - 1)
    ensures Ascending(at + [|events| - 1], |events|)
    ensures Taken(events, at + [|events| - 1]) == Taken(events[..|events| - 1], at) + [events[|events| - 1]]
  {
  }

  lemma ServingOn(before: seq<Event>, events: seq<Event>, i: nat)
    requires events != [] && before == events[..|events| - 1] && forall m: nat :: Serving(before, i, m)
    requires var s, t := Run(Init(), before), Run(Init(), events);
             s.job.Some? && t.job.Some? && t.job.value.id == s.job.value.id && t.job.value.hash == s.job.value.hash && t.incarnation == s.incarnation
    ensures forall m: nat :: Serving(events, i, m)
  {
    forall m: nat ensures Serving(events, i, m) {
      assert Serving(before, i, m);
      if m < |events| { ServingLater(events, i, m); }
      if m == |events| { ServingNow(events, i); }
    }
  }

  lemma {:induction false} StepsTell(events: seq<Event>)
    ensures Told(events)
  {
    if events != [] {
      var n := |events| - 1;
      var before, e := events[..n], events[n];
      var s, t, at := Run(Init(), before), Run(Init(), events), Steps(before);
      StepsTell(before);
      if t.job.Some? {
        if s.job.None? {
          AdmissionStep(s, e);
          TakenNow(events, []);
          assert [] + [n] == [n] && Taken(before, []) + [e] == [e];
          forall m: nat ensures Serving(events, n, m) { if m == n + 1 { ServingNow(events, n); } }
        } else {
          CourseStep(s, e, Taken(before, at));
          TakenLater(events, at);
          TakenNow(events, at);
          ServingOn(before, events, at[0]);
        }
      }
    }
  }

  // Restart k was issued at step n for a request that was let in at step i, allowed and well
  // formed, and that found the service as expected at step j; in between the same process
  // served no other.
  ghost predicate CheckedFirst(events: seq<Event>, i: nat, j: nat, n: nat, k: nat, r: Restart) {
    && i < j < n < |events| && IssuedAt(events, n, k, r) && events[n] == IssueRestart
    && events[i].Request? && events[i].id == r.id && events[i].screening.Passed? && Run(Init(), events[..i]).job.None?
    && events[j] == BeforeRead(true, true)
    && forall m: nat :: i < m <= n ==> ServesAt(events, m, r)
  }

  ghost predicate ServesAt(events: seq<Event>, m: nat, r: Restart) {
    m <= |events|
    && var s := Run(Init(), events[..m]); s.job.Some? && s.job.value.id == r.id && s.incarnation == r.incarnation
  }

  lemma {:induction false} AdmittedWhenIdle(events: seq<Event>)
    requires Run(Init(), events).job.Some? && Told(events)
    ensures Steps(events) != [] && Steps(events)[0] < |events| && Run(Init(), events[..Steps(events)[0]]).job.None?
  {
    var n := |events| - 1;
    if Run(Init(), events[..n]).job.Some? {
      StepsTell(events[..n]);
      AdmittedWhenIdle(events[..n]);
      assert events[..n][..Steps(events[..n])[0]] == events[..Steps(events[..n])[0]];
    }
  }

  lemma ServesOn(events: seq<Event>, n: nat, i: nat, r: Restart)
    requires n <= |events| && i < n && Run(Init(), events[..n]).job.Some?
    requires Run(Init(), events[..n]).job.value.id == r.id && Run(Init(), events[..n]).incarnation == r.incarnation
    requires forall m: nat :: Serving(events[..n], i, m)
    ensures forall m: nat :: i < m <= n ==> ServesAt(events, m, r)
  {
    forall m: nat | i < m <= n ensures ServesAt(events, m, r) {
      assert Serving(events[..n], i, m);
      assert events[..n][..m] == events[..m];
    }
  }

  lemma IssuedIsChecked(events: seq<Event>, n: nat, k: nat, r: Restart)
    requires IssuedAt(events, n, k, r)
    ensures exists i: nat, j: nat :: CheckedFirst(events, i, j, n, k, r)
  {
    var before := events[..n];
    var s, at := Run(Init(), before), Steps(before);
    RestartsGrow(s, events[n]);
    StepsTell(before);
    AdmittedWhenIdle(before);
    var done := Taken(before, at);
    assert done[0] == before[at[0]] && done[1] == before[at[1]];
    assert r == Next(s, events[n]).restarts[|s.restarts|];
    ServesOn(events, n, at[0], r);
    assert before[..at[0]] == events[..at[0]];
    assert CheckedFirst(events, at[0], at[1], n, k, r);
  }

  // No restart without its checks: in every run each restart was issued for a request that was
  // well formed and allowed when it came and met the service in the state it expected.
  lemma RestartsWereChecked(events: seq<Event>, k: nat)
    requires k < |Run(Init(), events).restarts|
    ensures exists i: nat, j: nat, n: nat :: CheckedFirst(events, i, j, n, k, Run(Init(), events).restarts[k])
  {
    RestartsAreRecordedFirst(events, k);
    var r := Run(Init(), events).restarts[k];
    var n: nat :| IssuedAt(events, n, k, r);
    IssuedIsChecked(events, n, k, r);
  }

  // A read that fails or finds another state ends the request: nothing is written or
  // restarted, and the answer says so.
  lemma FailedChecksLeaveNoTrace(events: seq<Event>, ok: bool, matches: bool)
    requires var s := Run(Init(), events); s.job.Some? && s.job.value.stage.ReadingBefore? && !(ok && matches)
    ensures var s := Run(Init(), events);
            var t := Next(s, BeforeRead(ok, matches));
            && t.disk == s.disk && t.restarts == s.restarts && t.commands == s.commands && t.job.None?
            && t.answers == s.answers + [Answer(s.job.value.id, s.job.value.hash, Passed, Error(if ok then PreconditionFailed else InternalError, NotStarted), false)]
  {
    RunKeepsInv(Init(), events);
  }

  // The receipt that ends a request is earned: success exactly if the command ended well and
  // the read behind it found the service changed and active, unknown exactly if the command
  // timed out or the read failed.
  lemma ReceiptsAreEarned(events: seq<Event>, e: Event, a: Answer)
    requires var s := Run(Init(), events); Next(s, e).answers == s.answers + [a] && a.reply.Result? && !e.Request?
    ensures var at := Steps(events);
            && |at| == 7 && Ascending(at, |events|)
            && events[at[0]] == Request(a.id, a.hash, Passed) && events[at[4]].CommandEnds? && events[at[5]].AfterRead?
            && a.reply.receipt.id == a.id && a.reply.receipt.completed
            && (a.reply.receipt.outcome.Success? <==> events[at[4]] == CommandEnds(true, false) && events[at[5]] == AfterRead(true, true))
            && (a.reply.receipt.outcome.Unknown? <==> events[at[4]].timedOut || !events[at[5]].ok)
  {
    StepsTell(events);
    var s, at := Run(Init(), events), Steps(events);
    FinalAnswer(s, e, a);
    var done := Taken(events, at);
    Earned(s.job.value, done);
    assert |at| == |done|;
    assert done[0] == events[at[0]] && done[4] == events[at[4]] && done[5] == events[at[5]];
  }

  lemma FinalAnswer(s: State, e: Event, a: Answer)
    requires Next(s, e).answers == s.answers + [a] && a.reply.Result? && !e.Request?
    ensures s.job.Some? && s.job.value.stage == Pruning(a.reply.receipt) && a.id == s.job.value.id && a.hash == s.job.value.hash
  {
    assert a == Next(s, e).answers[|s.answers|];
  }

  lemma Earned(job: Job, done: seq<Event>)
    requires Course(job, done) && job.stage.Pruning?
    ensures var receipt := job.stage.receipt;
            && |done| == 7 && done[0] == Request(job.id, job.hash, Passed) && done[4].CommandEnds? && done[5].AfterRead?
            && receipt.id == job.id && receipt.completed
            && (receipt.outcome.Success? <==> done[4] == CommandEnds(true, false) && done[5] == AfterRead(true, true))
            && (receipt.outcome.Unknown? <==> done[4].timedOut || !done[5].ok)
  {
  }

  // The restart command of the operation ended well at step p, and at step q behind it the
  // service was read and had changed.
  ghost predicate SeenAt(events: seq<Event>, p: nat, q: nat, id: Id) {
    && p < q < |events| && events[p] == CommandEnds(true, false) && events[q] == AfterRead(true, true)
    && ForId(Run(Init(), events[..p]), id) && ForId(Run(Init(), events[..q]), id)
  }

  predicate ForId(s: State, id: Id) {
    s.job.Some? && s.job.value.id == id
  }

  ghost predicate Seen(events: seq<Event>, receipt: Receipt) {
    receipt.outcome.Success? ==> exists p: nat, q: nat :: SeenAt(events, p, q, receipt.id)
  }

  lemma SeenLater(events: seq<Event>, receipt: Receipt)
    requires events != [] && Seen(events[..|events| - 1], receipt)
    ensures Seen(events, receipt)
  {
    if receipt.outcome.Success? {
      var before := events[..|events| - 1];
      var p: nat, q: nat :| SeenAt(before, p, q, receipt.id);
      assert before[..p] == events[..p] && before[..q] == events[..q];
      assert SeenAt(events, p, q, receipt.id);
    }
  }

  // A record that is somewhere on the disk, or may come back after a loss of power.
  ghost predicate Kept(disk: Disk, r: Record) {
    r in disk.ledger.Values || r in disk.durable.Values || r in disk.pending
  }

  // Where the records of a step come from: they were there, or the request put them there.
  ghost predicate Origin(s: State, r: Record) {
    || Kept(s.disk, r)
    || (s.job.Some? && r.receipt == InProgress(s.job.value.id))
    || (s.job.Some? && s.job.value.stage.Completing? && r.receipt == s.job.value.stage.receipt)
  }

  lemma StoreOrigin(disk: Disk, record: Record, put: Put, r: Record)
    requires Kept(Store(disk, record, put), r)
    ensures Kept(disk, r) || r == record
  {
  }

  lemma RebootOrigin(disk: Disk, after: map<Id, Record>, r: Record)
    requires Survives(disk, after) && Kept(Reboot(disk, after), r)
    ensures Kept(disk, r)
  {
    var id :| id in after && after[id] == r;
  }

  lemma RemoveOrigin(disk: Disk, removed: set<Id>, r: Record)
    requires Kept(Remove(disk, removed), r)
    ensures Kept(disk, r)
  {
  }

  lemma RecordOrigin(s: State, e: Event, r: Record)
    requires Kept(Next(s, e).disk, r)
    ensures Origin(s, r)
  {
    if !At(s, e) { return; }
    match e
    case FirstPut(put) => StoreOrigin(s.disk, Record(s.job.value.hash, InProgress(s.job.value.id)), put, r);
    case FinalPut(put) => StoreOrigin(s.disk, Record(s.job.value.hash, s.job.value.stage.receipt), put, r);
    case Prune(removed, _) => RemoveOrigin(s.disk, removed, r);
    case PowerLoss(after) => RebootOrigin(s.disk, after, r);
    case _ => assert Next(s, e).disk == s.disk;
  }

  predicate Reported(s: State, a: Answer)
    requires a.reply.Result?
  {
    || (a.id in s.disk.ledger && a.reply.receipt == s.disk.ledger[a.id].receipt)
    || (s.job.Some? && s.job.value.stage == Pruning(a.reply.receipt))
  }

  lemma AnswerOrigin(s: State, e: Event)
    ensures Next(s, e).answers == s.answers
            || (exists a :: Next(s, e).answers == s.answers + [a]
                 && (a.reply.Result? ==> Reported(s, a)))
  {
    var t := Next(s, e);
    if t.answers != s.answers { assert t.answers == s.answers + [t.answers[|s.answers|]]; }
  }

  lemma JobSeen(events: seq<Event>)
    requires Run(Init(), events).job.Some?
    ensures var stage := Run(Init(), events).job.value.stage; stage.Completing? || stage.Pruning? ==> Seen(events, stage.receipt)
  {
    var s, at := Run(Init(), events), Steps(events);
    var stage := s.job.value.stage;
    if (stage.Completing? || stage.Pruning?) && stage.receipt.outcome.Success? {
      StepsTell(events);
      var done := Taken(events, at);
      assert done[4] == events[at[4]] && done[5] == events[at[5]];
      assert Serving(events, at[0], at[4]) && Serving(events, at[0], at[5]);
      assert SeenAt(events, at[4], at[5], s.job.value.id);
    }
  }

  ghost predicate Grounded(events: seq<Event>) {
    var s := Run(Init(), events);
    && (forall r :: Kept(s.disk, r) ==> Seen(events, r.receipt))
    && (forall a :: a in s.answers && a.reply.Result? ==> Seen(events, a.reply.receipt))
  }

  lemma OriginSeen(events: seq<Event>, r: Record)
    requires Origin(Run(Init(), events), r) && Grounded(events)
    ensures Seen(events, r.receipt)
  {
    var s := Run(Init(), events);
    if s.job.Some? { JobSeen(events); }
  }

  lemma AnswersSeen(events: seq<Event>, a: Answer)
    requires events != [] && Grounded(events[..|events| - 1]) && a in Run(Init(), events).answers && a.reply.Result?
    ensures Seen(events[..|events| - 1], a.reply.receipt)
  {
    var before, e := events[..|events| - 1], events[|events| - 1];
    var s := Run(Init(), before);
    AnswerOrigin(s, e);
    if a !in s.answers {
      if s.job.Some? { JobSeen(before); }
      if a.id in s.disk.ledger { assert Kept(s.disk, s.disk.ledger[a.id]); }
    }
  }

  lemma {:induction false} AllGrounded(events: seq<Event>)
    ensures Grounded(events)
  {
    if events != [] {
      var before, e := events[..|events| - 1], events[|events| - 1];
      var s, t := Run(Init(), before), Run(Init(), events);
      AllGrounded(before);
      forall r | Kept(t.disk, r) ensures Seen(events, r.receipt) {
        RecordOrigin(s, e, r);
        OriginSeen(before, r);
        SeenLater(events, r.receipt);
      }
      forall a | a in t.answers && a.reply.Result? ensures Seen(events, a.reply.receipt) {
        AnswersSeen(events, a);
        SeenLater(events, a.reply.receipt);
      }
    }
  }

  // Success is never claimed without having been seen: in every run, through crashes, losses
  // of power and replays, a receipt of success that was answered is that of an operation whose
  // command ended well and whose service was found changed behind it.
  lemma SuccessWasSeen(events: seq<Event>, a: Answer)
    requires a in Run(Init(), events).answers && a.reply.Result? && a.reply.receipt.outcome.Success?
    ensures exists p: nat, q: nat :: SeenAt(events, p, q, a.id)
  {
    AllGrounded(events);
    RunKeepsInv(Init(), events);
    assert Truthful(a);
  }

  // The rest of a request whose restart has been issued, when both its read and its record work.
  function Rest(done: bool, timedOut: bool, ok: bool, changed: bool, put: Put): seq<Event> {
    [CommandEnds(done, timedOut), AfterRead(ok, changed), FinalPut(put), Prune({}, true)]
  }

  lemma RunFour(s: State, e1: Event, e2: Event, e3: Event, e4: Event)
    ensures Run(s, [e1, e2, e3, e4]) == Next(Next(Next(Next(s, e1), e2), e3), e4)
  {
    RunAppend(s, [], e1);
    RunAppend(s, [e1], e2);
    RunAppend(s, [e1, e2], e3);
    RunAppend(s, [e1, e2, e3], e4);
    assert [] + [e1] == [e1] && [e1] + [e2] == [e1, e2] && [e1, e2] + [e3] == [e1, e2, e3] && [e1, e2, e3] + [e4] == [e1, e2, e3, e4];
  }

  // A request that nothing interrupts is served: it restarts the service once, leaves its
  // receipt in the ledger, is answered with it, and lets the next one in.
  lemma RequestsAreServed(events: seq<Event>, id: Id, hash: Hash, first: Put, done: bool, timedOut: bool, ok: bool, changed: bool, last: Put)
    requires Run(Init(), events).job.None? && id !in Run(Init(), events).disk.ledger && !Failed(first) && !Failed(last)
    ensures var s := Run(Init(), events);
            var t := Run(Run(Init(), events + Attempt(id, hash, first)), Rest(done, timedOut, ok, changed, last));
            var receipt := Receipt(id, Judged(CommandEnds(done, timedOut), AfterRead(ok, changed)), true);
            && t.job.None? && t.restarts == s.restarts + [Restart(id, s.incarnation)]
            && id in t.disk.ledger && t.disk.ledger[id] == Record(hash, receipt)
            && t.answers == s.answers + [Answer(id, hash, Passed, Result(receipt), true)]
  {
    var s := Run(Init(), events);
    AttemptIsRun(events, id, hash, first);
    RunKeepsInv(Init(), events);
    RunKeepsInv(Init(), events + Attempt(id, hash, first));
    AttemptRestarts(s, id, hash, first);
    var u := Attempted(s, id, hash, first);
    AttemptWaits(s, id, hash, first);
    RestIsServed(u, done, timedOut, ok, changed, last);
  }

  lemma AttemptWaits(s: State, id: Id, hash: Hash, put: Put)
    requires s.job.None? && id !in s.disk.ledger && !Failed(put)
    ensures var t := Attempted(s, id, hash, put);
            t.job == Some(Job(id, hash, |s.restarts|, true, Restarting)) && t.answers == s.answers
  {
  }

  lemma RestIsServed(s: State, done: bool, timedOut: bool, ok: bool, changed: bool, put: Put)
    requires s.job.Some? && s.job.value.stage.Restarting? && !Failed(put) && |s.restarts| > s.job.value.admitted
    ensures var t := Run(s, Rest(done, timedOut, ok, changed, put));
            var job := s.job.value;
            var receipt := Receipt(job.id, Judged(CommandEnds(done, timedOut), AfterRead(ok, changed)), true);
            && t.job.None? && t.restarts == s.restarts && job.id in t.disk.ledger && t.disk.ledger[job.id] == Record(job.hash, receipt)
            && t.answers == s.answers + [Answer(job.id, job.hash, Passed, Result(receipt), true)]
  {
    RunFour(s, CommandEnds(done, timedOut), AfterRead(ok, changed), FinalPut(put), Prune({}, true));
    RestIsJudged(s, done, timedOut, ok, changed);
    RestIsRecorded(Next(Next(s, CommandEnds(done, timedOut)), AfterRead(ok, changed)), put);
  }

  lemma RestIsJudged(s: State, done: bool, timedOut: bool, ok: bool, changed: bool)
    requires s.job.Some? && s.job.value.stage.Restarting?
    ensures var t := Next(Next(s, CommandEnds(done, timedOut)), AfterRead(ok, changed));
            var receipt := Receipt(s.job.value.id, Judged(CommandEnds(done, timedOut), AfterRead(ok, changed)), true);
            && t.job == Some(s.job.value.(stage := Completing(receipt)))
            && t.restarts == s.restarts && t.answers == s.answers && t.disk == s.disk
  {
  }

  lemma RestIsRecorded(s: State, put: Put)
    requires s.job.Some? && s.job.value.stage.Completing? && !Failed(put) && |s.restarts| > s.job.value.admitted
    requires s.job.value.stage.receipt.id == s.job.value.id
    ensures var t := Next(Next(s, FinalPut(put)), Prune({}, true));
            var job := s.job.value;
            && t.job.None? && t.restarts == s.restarts && job.id in t.disk.ledger && t.disk.ledger[job.id] == Record(job.hash, job.stage.receipt)
            && t.answers == s.answers + [Answer(job.id, job.hash, Passed, Result(job.stage.receipt), true)]
  {
  }

  // The ledger directory: a record is written to a temporary file, synchronised, renamed
  // into place, and the directory is synchronised when the file system can do that.
  class ActionLedger {
    var files: map<Id, Record>
    ghost var durable: map<Id, Record>
    ghost var pending: set<Record>
    ghost var removing: set<Id>
    ghost var unsynced: set<Id>
    ghost var pruned: set<Id>
    ghost var lost: set<Id>

    ghost function View(): Disk reads this {
      Disk(files, durable, pending, removing, unsynced, pruned, lost)
    }

    constructor ()
      ensures View() == Init().disk
    {
      files, durable, pending, removing, unsynced, pruned, lost := map[], map[], {}, {}, {}, {}, {};
    }

    method PutRecord(record: Record, put: Put) returns (ok: bool)
      modifies this
      ensures ok == !Failed(put)
      ensures View() == Store(old(View()), record, put)
    {
      if put.Nothing? { return false; }
      files := files[record.receipt.id := record];
      if put.synced {
        durable := durable[record.receipt.id := record];
        pending, removing := OfOthers(pending, record.receipt.id), removing - {record.receipt.id};
      } else {
        pending, unsynced := pending + {record}, unsynced + {record.receipt.id};
      }
      return !put.throws;
    }

    method RemoveRecords(removed: set<Id>)
      modifies this
      ensures View() == Remove(old(View()), removed)
    {
      files, removing, pruned := files - removed, removing + removed, pruned + removed;
    }
  }

  class Helper {
    const ledger: ActionLedger
    var busy: bool
    var job: Option<Job>
    var commands: seq<Restart>
    var restarts: seq<Restart>
    var answers: seq<Answer>
    var incarnation: nat

    ghost predicate Valid() reads this {
      busy == job.Some?
    }

    ghost function View(): State reads this, ledger {
      State(ledger.View(), job, incarnation, commands, restarts, answers)
    }

    constructor ()
      ensures Valid() && View() == Init() && fresh(ledger)
    {
      ledger := new ActionLedger();
      busy, job, incarnation, commands, restarts, answers := false, None, 0, [], [], [];
    }

    // An answer given before anything is let in.
    method Answering(id: Id, hash: Hash, screening: Screening, reply: Reply)
      modifies `answers
      ensures View() == Respond(old(View()), id, hash, screening, reply, |restarts|)
    {
      answers := answers + [Answer(id, hash, screening, reply, false)];
    }

    // The finally block, with the answer.
    method Conclude(reply: Reply)
      requires Valid() && job.Some?
      modifies this
      ensures Valid() && View() == Finish(old(View()), reply)
    {
      answers := answers + [Answer(job.value.id, job.value.hash, Passed, reply, |restarts| != job.value.admitted)];
      busy, job := false, None;
    }

    // The catch block, and then the finally block.
    method Fail(code: Code)
      requires Valid() && job.Some?
      modifies this
      ensures Valid() && View() == Finish(old(View()), Caught(old(job).value, code))
    {
      if !job.value.mutationMayHaveStarted {
        Conclude(Error(code, NotStarted));
      } else {
        Conclude(Error(HostUnavailable, MayHaveStarted));
      }
    }

    // handleRequest up to the first await after `busy` is taken.
    method HandleRequest(id: Id, hash: Hash, screening: Screening)
      requires Valid()
      modifies this
      ensures Valid() && View() == Next(old(View()), Request(id, hash, screening))
    {
      match screening {
        case Malformed => Answering(id, hash, screening, Error(InvalidArguments, NotStarted));
        case NotAllowed => Answering(id, hash, screening, Error(PermissionDenied, NotStarted));
        case LedgerUnreadable => Answering(id, hash, screening, Error(InternalError, NotStarted));
        case Passed =>
          if id in ledger.files {
            var prior := ledger.files[id];
            if prior.hash != hash {
              Answering(id, hash, screening, Error(PreconditionFailed, NotStarted));
            } else {
              Answering(id, hash, screening, Result(prior.receipt));
            }
          } else if busy {
            Answering(id, hash, screening, Error(ToolBusy, NotStarted));
          } else {
            busy, job := true, Some(Job(id, hash, |restarts|, false, ReadingBefore));
          }
      }
    }

    method CheckPrecondition(ok: bool, matches: bool)
      requires Valid() && job.Some? && job.value.stage.ReadingBefore?
      modifies this
      ensures Valid() && View() == Next(old(View()), BeforeRead(ok, matches))
    {
      if !ok {
        Fail(InternalError);
      } else if !matches {
        Fail(PreconditionFailed);
      } else {
        job := Some(job.value.(stage := Recording));
      }
    }

    // The write-ahead record.
    method RecordIntent(put: Put)
      requires Valid() && job.Some? && job.value.stage.Recording?
      modifies this, ledger
      ensures Valid() && View() == Next(old(View()), FirstPut(put))
    {
      var inProgress := Receipt(job.value.id, Unknown, false);
      var ok := ledger.PutRecord(Record(job.value.hash, inProgress), put);
      if !ok {
        Fail(InternalError);
      } else {
        job := Some(job.value.(stage := Stage.Recorded));
      }
    }

    // The flag, and then the restart command.
    method StartRestart()
      requires Valid() && job.Some? && job.value.stage.Recorded?
      modifies this
      ensures Valid() && View() == Next(old(View()), IssueRestart)
    {
      job := Some(job.value.(mutationMayHaveStarted := true));
      var command := Restart(job.value.id, incarnation);
      commands, restarts := commands + [command], restarts + [command];
      job := Some(job.value.(stage := Restarting));
    }

    method VerifyAfterRestart(ok: bool, changed: bool)
      requires Valid() && job.Some? && job.value.stage.ReadingAfter?
      modifies this
      ensures Valid() && View() == Next(old(View()), AfterRead(ok, changed))
    {
      var stage := job.value.stage;
      var outcome := Failure;
      if !ok || stage.timedOut { outcome := Unknown; } else if stage.done && changed { outcome := Success; }
      job := Some(job.value.(stage := Completing(Receipt(job.value.id, outcome, true))));
    }

    method Complete(put: Put)
      requires Valid() && job.Some? && job.value.stage.Completing?
      modifies this, ledger
      ensures Valid() && View() == Next(old(View()), FinalPut(put))
    {
      var receipt := job.value.stage.receipt;
      var ok := ledger.PutRecord(Record(job.value.hash, receipt), put);
      if !ok {
        Fail(InternalError);
      } else {
        job := Some(job.value.(stage := Pruning(receipt)));
      }
    }

    method PruneAndReturn(removed: set<Id>, ok: bool)
      requires Valid() && job.Some? && job.value.stage.Pruning?
      modifies this, ledger
      ensures Valid() && View() == Next(old(View()), Prune(removed, ok))
    {
      var receipt := job.value.stage.receipt;
      ledger.RemoveRecords(removed);
      if !ok {
        Fail(InternalError);
      } else {
        Conclude(Result(receipt));
      }
    }
  }
}
