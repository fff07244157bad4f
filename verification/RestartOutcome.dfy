// How the outcome of a restart travels from the helper through the socket client, the tool
// handler, the executor and the router to the `retryable` flag of the response.
module RestartOutcome {
  import opened Options
  import Helper = ActionHelper

  datatype Code =
    | InvalidArguments | ToolNotAllowed | WriteDisabled | ToolTimeout | ToolBusy | PreconditionFailed
    | OutputTooLarge | ResourceNotFound | PermissionDenied | CommandUnavailable | HostUnavailable | InternalError

  datatype Outcome = NotStarted | Failed | Unknown

  // A ToolExecutionError with the outcome in its data, if there is one.
  datatype ToolError = ToolError(code: Code, outcome: Option<Outcome>)

  datatype Verdict = Success | Rejected(error: ToolError)

  // The line the client reads: not JSON, a result, or an error with a code and an outcome.
  datatype Line = Garbage | Result(receipt: ReceiptText) | Refusal(code: Code, unknown: bool)

  // A result either fails the receipt schema or carries one of the four outcomes.
  datatype ReceiptText = Unparsable | Valid(outcome: ReceiptOutcome)
  datatype ReceiptOutcome = Succeeded | FailedVerification | NeverStarted | Indeterminate

  // What happens at the client's socket.
  datatype Signal =
    | Abort
    | Deadline
    | Connect
    | Oversized
    | Incomplete
    | Arrives(line: Line)
    | SocketError(accessDenied: bool)
    | End

  datatype Client = Client(sent: bool, answer: Option<ClientAnswer>)

  datatype ClientAnswer = Replied(receipt: ReceiptText) | Failure(error: ToolError)

  function CurrentOutcome(c: Client): Outcome {
    if c.sent then Unknown else NotStarted
  }

  function Settle(c: Client, code: Code): Client {
    c.(answer := Some(Failure(ToolError(code, Some(CurrentOutcome(c))))))
  }

  // One event of `call` with mayMutate; once settled the promise ignores everything.
  function Hear(c: Client, s: Signal): Client {
    if c.answer.Some? then c
    else
      match s
      case Abort => Settle(c, ToolTimeout)
      case Deadline => Settle(c, ToolTimeout)
      case Connect => c.(sent := true)
      case Oversized => Settle(c, OutputTooLarge)
      case Incomplete => c
      case Arrives(line) =>
        (match line
         case Garbage => Settle(c, HostUnavailable)
         case Result(receipt) => c.(answer := Some(Replied(receipt)))
         case Refusal(code, unknown) => c.(answer := Some(Failure(ToolError(code, Some(if unknown then Unknown else NotStarted))))))
      case SocketError(accessDenied) => Settle(c, if accessDenied then PermissionDenied else HostUnavailable)
      case End => Settle(c, HostUnavailable)
  }

  function Listen(signals: seq<Signal>): Client {
    if signals == [] then Client(false, None) else Hear(Listen(signals[..|signals| - 1]), signals[|signals| - 1])
  }

  // SocketActionClient.restart and the restart_service handler.
  function Handle(answer: ClientAnswer): Verdict {
    match answer
    case Failure(error) => Rejected(error)
    case Replied(Unparsable) => Rejected(ToolError(HostUnavailable, Some(Unknown)))
    case Replied(Valid(Succeeded)) => Success
    case Replied(Valid(Indeterminate)) => Rejected(ToolError(HostUnavailable, Some(Unknown)))
    case Replied(Valid(NeverStarted)) => Rejected(ToolError(PreconditionFailed, Some(NotStarted)))
    case Replied(Valid(FailedVerification)) => Rejected(ToolError(HostUnavailable, Some(Failed)))
  }

  // How one call of the executor ends.
  datatype Path =
    | NotAdmitted(code: Code)   // a check before the gate
    | QueueFull
    | QueueTimeout
    | Revoked(begun: bool)      // the session generation changed before or after the handler ran
    | ExecutionTimeout
    | TooLarge
    | Handled                   // the handler's own verdict

  // A write error that names no outcome becomes unknown, except for errors of the gate and
  // of the checks before it, which are passed on as they are.
  function Mapped(error: ToolError): ToolError {
    if error.outcome.None? then error.(outcome := Some(Unknown)) else error
  }

  function Execute(path: Path, handled: Verdict): Verdict {
    match path
    case NotAdmitted(code) => Rejected(ToolError(code, None))
    case QueueFull => Rejected(ToolError(ToolBusy, None))
    case QueueTimeout => Rejected(ToolError(ToolTimeout, Some(NotStarted)))
    case Revoked(begun) => Rejected(Mapped(ToolError(ToolNotAllowed, None)))
    case ExecutionTimeout => Rejected(Mapped(ToolError(ToolTimeout, Some(Unknown))))
    case TooLarge => Rejected(Mapped(ToolError(OutputTooLarge, Some(Unknown))))
    case Handled => if handled.Success? then Success else Rejected(Mapped(handled.error))
  }

  // The router's flag, for a tool that writes.
  predicate Retryable(v: Verdict) {
    v.Rejected? && (v.error.code.ToolBusy? || v.error.code.HostUnavailable?) && v.error.outcome == Some(NotStarted)
  }

  // The checks before the gate never report a busy tool or an unavailable host.
  predicate Possible(path: Path) {
    path.NotAdmitted? ==> path.code.InvalidArguments? || path.code.ToolNotAllowed? || path.code.WriteDisabled?
  }

  // The code the client keeps for a code of the helper.
  function Spoken(code: Helper.Code): Code {
    match code
    case InvalidArguments => InvalidArguments
    case PermissionDenied => PermissionDenied
    case PreconditionFailed => PreconditionFailed
    case ToolBusy => ToolBusy
    case HostUnavailable => HostUnavailable
    case InternalError => InternalError
  }

  function Written(reply: Helper.Reply): Line {
    match reply
    case Result(receipt) =>
      Result(Valid(match receipt.outcome case Success => Succeeded case Failure => FailedVerification case Unknown => Indeterminate))
    case Error(code, started) => Refusal(Spoken(code), started.MayHaveStarted?)
  }

  // What became of the request at the helper: it was never asked; or its framing turned the
  // connection away, because of its size or of a second request; or the request was read, and
  // then the helper answered or died before it could.
  datatype Service = NotAsked | TurnedAway | Asked(answer: Option<Helper.Answer>, invoked: bool)

  const FRAMING_REFUSAL := Helper.Error(Helper.InvalidArguments, Helper.NotStarted)

  predicate Invoked(service: Service) {
    service.Asked? && service.invoked
  }

  // The answer comes from a run of the helper, and `invoked` is what that run remembers.
  ghost predicate Honest(service: Service, events: seq<Helper.Event>) {
    service.Asked? && service.answer.Some? ==>
      service.answer.value in Helper.Run(Helper.Init(), events).answers && service.invoked == service.answer.value.invoked
  }

  // The helper hears of it exactly when the client has written its request, and the only
  // well-formed line the client reads is the helper's answer or the refusal of its framing.
  ghost predicate Conversation(signals: seq<Signal>, service: Service) {
    && (Listen(signals).sent <==> !service.NotAsked?)
    && (forall k, line :: 0 <= k < |signals| && signals[k] == Arrives(line) && !line.Garbage? ==>
          (service.Asked? && service.answer.Some? && line == Written(service.answer.value.reply))
          || (service.TurnedAway? && line == Written(FRAMING_REFUSAL)))
  }

  // What a client that reports "not started" has seen: it never sent the request, or it read
  // a refusal that said so.
  lemma {:induction false} NotStartedMeans(signals: seq<Signal>)
    requires var c := Listen(signals); c.answer.Some? && c.answer.value.Failure? && c.answer.value.error.outcome == Some(NotStarted)
    ensures var c := Listen(signals);
            !c.sent || Arrives(Refusal(c.answer.value.error.code, false)) in signals
  {
    var before, last := signals[..|signals| - 1], signals[|signals| - 1];
    assert signals == before + [last];
    if Listen(before).answer.Some? { NotStartedMeans(before); }
  }

  // A response that invites a retry was produced without running a restart: either the
  // helper was never asked, or it refused because another restart was in progress. This
  // holds for every path through the executor, every behaviour of the socket and every run
  // of the helper, crashes included.
  lemma RetryableMeansNotInvoked(path: Path, signals: seq<Signal>, service: Service, events: seq<Helper.Event>)
    requires Possible(path) && Listen(signals).answer.Some?
    requires Conversation(signals, service) && Honest(service, events)
    requires Retryable(Execute(path, Handle(Listen(signals).answer.value)))
    ensures !Invoked(service)
    ensures service.NotAsked? || (service.Asked? && service.answer.Some? && service.answer.value.reply == Helper.Error(Helper.ToolBusy, Helper.NotStarted))
  {
    var c := Listen(signals);
    assert c.answer.value.Failure? && c.answer.value.error.outcome == Some(NotStarted);
    NotStartedMeans(signals);
    if c.sent {
      var line := Refusal(c.answer.value.error.code, false);
      var k :| 0 <= k < |signals| && signals[k] == Arrives(line);
      if service.Asked? {
        assert line == Written(service.answer.value.reply);
        Helper.NotStartedIsTruthful(events, service.answer.value);
      }
    }
  }

  // Conversely, the two harmless failures do invite a retry: a busy helper, and a socket that
  // failed before the request was written.
  lemma HarmlessFailuresAreRetryable(signals: seq<Signal>, k: nat)
    requires k < |signals| && Listen(signals[..k]).answer.None?
    requires signals[k] == Arrives(Written(Helper.Error(Helper.ToolBusy, Helper.NotStarted)))
             || (signals[k] == SocketError(false) && !Listen(signals[..k]).sent)
    ensures var c := Listen(signals);
            c.answer.Some? && Retryable(Execute(Handled, Handle(c.answer.value)))
  {
    assert signals[..k + 1][..k] == signals[..k];
    SettledOnce(signals, k + 1);
  }

  lemma {:induction false} RepliedMeans(signals: seq<Signal>)
    requires var c := Listen(signals); c.answer.Some? && c.answer.value.Replied?
    ensures Arrives(Result(Listen(signals).answer.value.receipt)) in signals
  {
    var before, last := signals[..|signals| - 1], signals[|signals| - 1];
    assert signals == before + [last];
    if Listen(before).answer.Some? { RepliedMeans(before); }
  }

  // A response of success is earned: the helper answered the request with a receipt of
  // success, and in its run the command of that operation ended well and the service was
  // found changed behind it.
  lemma SuccessIsEarned(path: Path, signals: seq<Signal>, service: Service, events: seq<Helper.Event>)
    requires Listen(signals).answer.Some? && Conversation(signals, service) && Honest(service, events)
    requires Execute(path, Handle(Listen(signals).answer.value)).Success?
    ensures path.Handled? && service.Asked? && service.answer.Some?
    ensures exists p: nat, q: nat :: Helper.SeenAt(events, p, q, service.answer.value.id)
  {
    RepliedMeans(signals);
    var line := Result(Listen(signals).answer.value.receipt);
    var k :| 0 <= k < |signals| && signals[k] == Arrives(line);
    Helper.SuccessWasSeen(events, service.answer.value);
  }

  // The call succeeds if and only if the executor ran its handler and the first thing that
  // settled the client was a receipt of success.
  lemma SuccessIff(path: Path, signals: seq<Signal>)
    requires Listen(signals).answer.Some?
    ensures Execute(path, Handle(Listen(signals).answer.value)).Success?
            <==> path.Handled? && exists k: nat :: ReadsSuccess(signals, k)
  {
    if Listen(signals).answer.value == Replied(Valid(Succeeded)) { ReadAt(signals); }
    if k: nat :| ReadsSuccess(signals, k) {
      assert signals[..k + 1][..k] == signals[..k];
      SettledOnce(signals, k + 1);
    }
  }

  predicate ReadsSuccess(signals: seq<Signal>, k: nat) {
    k < |signals| && signals[k] == Arrives(Result(Valid(Succeeded))) && Listen(signals[..k]).answer.None?
  }

  lemma {:induction false} ReadAt(signals: seq<Signal>)
    requires Listen(signals).answer == Some(Replied(Valid(Succeeded)))
    ensures exists k: nat :: ReadsSuccess(signals, k)
  {
    var before := signals[..|signals| - 1];
    if Listen(before).answer.Some? {
      ReadAt(before);
      var k: nat :| ReadsSuccess(before, k);
      assert before[..k] == signals[..k];
      assert ReadsSuccess(signals, k);
    } else {
      assert ReadsSuccess(signals, |signals| - 1);
    }
  }

  // The code that a client answers with when a signal ends its wait without an answer.
  function Reason(s: Signal): Option<Code> {
    match s
    case Abort => Some(ToolTimeout)
    case Deadline => Some(ToolTimeout)
    case Oversized => Some(OutputTooLarge)
    case SocketError(accessDenied) => Some(if accessDenied then PermissionDenied else HostUnavailable)
    case End => Some(HostUnavailable)
    case Arrives(Garbage) => Some(HostUnavailable)
    case _ => None
  }

  // No client waits past its deadline or the end of its socket: the first such signal answers,
  // with its code, and tells an unknown outcome exactly if the request had been written.
  lemma EveryWaitEnds(signals: seq<Signal>, k: nat)
    requires k < |signals| && Listen(signals[..k]).answer.None? && Reason(signals[k]).Some?
    ensures Listen(signals).answer ==
              Some(Failure(ToolError(Reason(signals[k]).value, Some(if Connect in signals[..k] then Unknown else NotStarted))))
  {
    assert signals[..k + 1][..k] == signals[..k];
    SettledOnce(signals, k + 1);
    SentIffConnected(signals[..k]);
  }

  lemma {:induction false} SentIffConnected(signals: seq<Signal>)
    requires Listen(signals).answer.None?
    ensures Listen(signals).sent <==> Connect in signals
  {
    if signals != [] {
      var before, last := signals[..|signals| - 1], signals[|signals| - 1];
      assert signals == before + [last];
      SentIffConnected(before);
    }
  }

  // The answer of the helper that is read first decides: a receipt of success is a success
  // and nothing else is, a failed or unknown restart is reported as such, an error of the
  // helper keeps its code and tells whether something may have been started, and only a
  // busy helper invites a retry.
  lemma AnswersAreFaithful(signals: seq<Signal>, k: nat, events: seq<Helper.Event>, a: Helper.Answer)
    requires k < |signals| && Listen(signals[..k]).answer.None? && signals[k] == Arrives(Written(a.reply))
    requires a in Helper.Run(Helper.Init(), events).answers
    ensures Listen(signals).answer.Some?
    ensures var reply := a.reply;
            var v := Execute(Handled, Handle(Listen(signals).answer.value));
            && (v.Success? <==> reply.Result? && reply.receipt.outcome.Success?)
            && (reply.Result? && reply.receipt.outcome.Failure? ==> v.error.outcome == Some(Failed))
            && (reply.Result? && reply.receipt.outcome.Unknown? ==> v.error.outcome == Some(Unknown))
            && (reply.Error? ==> v.error.code == Spoken(reply.code) && v.error.outcome == Some(if reply.started.NotStarted? then NotStarted else Unknown))
            && (Retryable(v) <==> reply.Error? && reply.code.ToolBusy?)
  {
    assert signals[..k + 1][..k] == signals[..k];
    SettledOnce(signals, k + 1);
    if a.reply.Error? { Helper.NotStartedIsTruthful(events, a); }
  }

  // What a failed call tells about the host: "not started" only from the queue or from the
  // handler itself, and whenever the handler may have begun and did not speak, "unknown".
  lemma FailuresTell(path: Path, answer: ClientAnswer)
    ensures var handled := Handle(answer);
            var v := Execute(path, handled);
            && (v.Rejected? && v.error.outcome == Some(NotStarted) <==>
                  path.QueueTimeout? || (path.Handled? && handled.Rejected? && handled.error.outcome == Some(NotStarted)))
            && (path.Revoked? || path.ExecutionTimeout? || path.TooLarge? ==> v.Rejected? && v.error.outcome == Some(Unknown))
            && (path.NotAdmitted? || path.QueueFull? ==> v.Rejected? && v.error.outcome.None?)
    ensures answer.Replied? && answer.receipt.Valid? && !answer.receipt.outcome.Succeeded? ==>
              Handle(answer).Rejected?
              && (answer.receipt.outcome.NeverStarted? <==> Handle(answer).error.outcome == Some(NotStarted))
              && (answer.receipt.outcome.Indeterminate? <==> Handle(answer).error.outcome == Some(Unknown))
  {
  }

  // The promise settles once: later socket events do not change the answer.
  lemma {:induction false} SettledOnce(signals: seq<Signal>, k: nat)
    requires k <= |signals| && Listen(signals[..k]).answer.Some?
    ensures Listen(signals) == Listen(signals[..k])
  {
    if k < |signals| {
      assert signals[..|signals| - 1][..k] == signals[..k];
      SettledOnce(signals[..|signals| - 1], k);
    } else {
      assert signals[..k] == signals;
    }
  }

  // A write that was handed to the helper is never offered for retry on account of what the
  // client alone saw: timeouts, resets, oversized or malformed answers are all unknown.
  lemma {:induction false} SentFailuresAreUnknown(signals: seq<Signal>)
    requires var c := Listen(signals); c.sent && c.answer.Some? && c.answer.value.Failure?
    requires forall code, unknown :: Arrives(Refusal(code, unknown)) !in signals
    ensures Listen(signals).answer.value.error.outcome == Some(Unknown)
  {
    var before, last := signals[..|signals| - 1], signals[|signals| - 1];
    assert signals == before + [last];
    if Listen(before).answer.Some? { SentFailuresAreUnknown(before); }
  }

  // The client object: its event handlers over the fields of one call.
  class SocketCall {
    var requestSent: bool
    var settled: bool
    var answer: Option<ClientAnswer>

    ghost predicate Valid() reads this {
      settled <==> answer.Some?
    }

    ghost function View(): Client reads this {
      Client(requestSent, answer)
    }

    constructor ()
      ensures Valid() && View() == Listen([])
    {
      requestSent, settled, answer := false, false, None;
    }

    method Finish(value: ClientAnswer)
      requires Valid()
      modifies this
      ensures Valid() && requestSent == old(requestSent)
      ensures answer == if old(settled) then old(answer) else Some(value)
    {
      if settled { return; }
      settled, answer := true, Some(value);
    }

    // The current value of outcome().
    method Fail(code: Code)
      requires Valid()
      modifies this
      ensures Valid() && View() == if old(settled) then old(View()) else Settle(old(View()), code)
    {
      Finish(Failure(ToolError(code, Some(if requestSent then Unknown else NotStarted))));
    }

    method OnSignal(s: Signal)
      requires Valid()
      modifies this
      ensures Valid() && View() == Hear(old(View()), s)
    {
      match s {
        case Abort => Fail(ToolTimeout);
        case Deadline => Fail(ToolTimeout);
        case Connect => if !settled { requestSent := true; }
        case Oversized => Fail(OutputTooLarge);
        case Incomplete =>
        case Arrives(line) =>
          match line {
            case Garbage => Fail(HostUnavailable);
            case Result(receipt) => Finish(Replied(receipt));
            case Refusal(code, unknown) => Finish(Failure(ToolError(code, Some(if unknown then Unknown else NotStarted))));
          }
        case SocketError(accessDenied) => Fail(if accessDenied then PermissionDenied else HostUnavailable);
        case End => Fail(HostUnavailable);
      }
    }
  }
}
