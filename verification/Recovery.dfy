// Boot recovery of an interrupted installation. The script may stop after any command, by a
// crash, a reboot or a failing command, and is run again until no transaction is left; the
// control plane and the service move between its commands. The functions say what the
// script does for every oracle, which holds what the world answers to each command; the
// class below them is written as the script is, and does what the functions say.
module Recovery {
  import opened Options

  // What selects the installation that runs.
  datatype Installation = Installation(
    nodePath: Option<string>,
    current: Option<string>,
    env: Option<string>,
    actions: Option<string>)

  datatype Remote = Exchanged | Verified | Completed | Cancelled | Expired | Unknown

  datatype Phase = Interrupted | RecoveryPending | RolledBack | Committed

  // The files that the installer recorded; recovery does not change them. control tells
  // whether there is a control-plane transaction, commitSent whether the installer had got as
  // far as asking for the commit.
  datatype Transaction = Transaction(
    previous: Installation,
    candidate: Installation,
    previousActive: bool,
    previousInstallation: bool,
    control: bool,
    commitSent: bool)

  datatype Files = Files(
    linked: bool,
    evidence: bool,
    phase: Phase,
    previousSelected: bool,
    installed: Installation,
    assets: bool)

  // marker: the file the service writes when it has authenticated. connected: whether the
  // control plane holds a connection of the active credential.
  datatype World = World(marker: bool, remote: Remote, connected: bool)

  datatype Ending = GoesOn | Fails | Dies

  // What happens around one command: how the world has moved when it is over, whether it was
  // the last one, and what a command that asks something is told.
  datatype Answer = Answer(
    world: World,
    ending: Ending,
    reachable: bool,
    code: nat,
    processed: bool,
    active: bool)

  datatype Oracle = Silence | Then(answer: Answer, rest: Oracle)

  // How a command or the script ends. Stopped: nothing more of this run is executed.
  datatype Status = Continue | Exit(code: nat) | Stopped {
    predicate IsFailure() {
      !Continue?
    }

    function PropagateFailure(): Status {
      this
    }
  }

  datatype Report = Report(status: Remote, activeConnected: bool)

  datatype Part = Node | Link | Environment | Actions

  // The commands of the script. AskActive carries what systemctl answered.
  datatype Act =
    | Load | Fetch | PostRollback
    | Replace(part: Part) | RemoveUnits | AskActive(active: bool) | ClearMarker | Restart
    | ReadMarker | SetPhase(phase: Phase) | RemoveNote | DropLink | DropEvidence

  // The variables of one run: the downloaded status, the answer to the rollback request, what
  // the test for the marker file has found, and the commands issued so far.
  datatype Script = Script(
    status: Status,
    report: Option<Report>,
    rollback: nat,
    markerSeen: bool,
    oracle: Oracle,
    done: seq<Act>)

  // What a run had seen of both sides when it decided the outcome.
  datatype Settlement = Settlement(
    kept: bool,
    local: Installation,
    remote: Remote,
    markerSeen: bool,
    connectedSeen: bool)

  datatype State = State(files: Files, world: World, script: Script, settlement: Option<Settlement>)

  predicate Terminal(r: Remote) {
    r.Cancelled? || r.Expired?
  }

  predicate Pending(r: Remote) {
    r.Exchanged? || r.Verified?
  }

  // The control plane's own moves: a pending transaction is verified, expires, or is completed
  // by a commit request that the installer had sent. Nothing is known of a status that the
  // script does not know.
  predicate RemoteMoves(tx: Transaction, a: Remote, b: Remote) {
    || a == b || a.Unknown?
    || (Pending(a) && (b.Verified? || b.Expired? || (b.Completed? && tx.commitSent)))
  }

  predicate MayComplete(tx: Transaction, r: Remote) {
    r.Completed? || r.Unknown? || (Pending(r) && tx.commitSent)
  }

  predicate Running(s: State) {
    s.script.status.Continue?
  }

  function Ends(s: State, code: nat): State {
    s.(script := s.script.(status := Exit(code)))
  }

  function Moved(tx: Transaction, before: World, after: World): World {
    if RemoteMoves(tx, before.remote, after.remote) then after else after.(remote := before.remote)
  }

  function Did(s: State, act: Act): State {
    s.(script := s.script.(done := s.script.done + [act]))
  }

  // A command that has had its effect: the world has moved, and the run may be over.
  function Execute(tx: Transaction, s: State, act: Act): State {
    if !Running(s) then s else Continued(tx, Did(s, act))
  }

  function Continued(tx: Transaction, s: State): State {
    match s.script.oracle
    case Silence => s.(script := s.script.(status := Stopped))
    case Then(a, rest) =>
      var status := match a.ending case GoesOn => Continue case Fails => Exit(1) case Dies => Stopped;
      s.(world := Moved(tx, s.world, a.world), script := s.script.(status := status, oracle := rest))
  }

  // What the next command is told, if there is one.
  function Told(s: State): Answer {
    match s.script.oracle
    case Silence => Answer(s.world, Dies, false, 0, false, false)
    case Then(a, _) => a
  }

  function Install(tx: Transaction, s: State, part: Part, next: Installation): State {
    if !Running(s) then s else Execute(tx, s.(files := s.files.(installed := next)), Replace(part))
  }

  function RestoreNode(tx: Transaction, s: State): State {
    if s.files.installed.nodePath == tx.previous.nodePath then s
    else Install(tx, s, Node, s.files.installed.(nodePath := tx.previous.nodePath))
  }

  // Whether the link is set again: by comparison with the recorded candidate, not with what
  // the link says now.
  predicate Relinks(tx: Transaction, installed: Installation) {
    if tx.previous.current.Some? then
      (if tx.candidate.current.Some? then tx.candidate.current else installed.current) != tx.previous.current
    else installed.current.Some?
  }

  function RestoreLink(tx: Transaction, s: State): State {
    if Relinks(tx, s.files.installed) then Install(tx, s, Link, s.files.installed.(current := tx.previous.current)) else s
  }

  function RestoreEnv(tx: Transaction, s: State): State {
    if s.files.installed.env == tx.previous.env then s
    else Install(tx, s, Environment, s.files.installed.(env := tx.previous.env))
  }

  function RestoreActions(tx: Transaction, s: State): State {
    Install(tx, s, Actions, s.files.installed.(actions := tx.previous.actions))
  }

  // A first installation leaves nothing behind, not even this script.
  function RemoveAssets(tx: Transaction, s: State): State {
    if !Running(s) || tx.previousInstallation then s else Execute(tx, s.(files := s.files.(assets := false)), RemoveUnits)
  }

  // The marker is removed before the restart is queued, so that what is there afterwards was
  // written by the restarted service.
  function RestartService(tx: Transaction, s: State): State {
    if !Running(s) then s
    else
      var t := Execute(tx, s.(world := s.world.(marker := false)), ClearMarker);
      if !Running(t) then t else Execute(tx, t, Restart)
  }

  // A changed running service is restarted and has to authenticate anew.
  function RestartPrevious(tx: Transaction, s: State, localChanged: bool): State {
    if !(Running(s) && localChanged && tx.previousActive) then s
    else if Told(s).active then RestartService(tx, Did(s, AskActive(true)))
    else Did(s, AskActive(false))
  }

  function RestoreFiles(tx: Transaction, s: State): State {
    RestoreActions(tx, RestoreEnv(tx, RestoreLink(tx, RestoreNode(tx, s))))
  }

  predicate LocalChanged(tx: Transaction, s: State) {
    var s1 := RestoreNode(tx, s);
    s.files.installed.nodePath != tx.previous.nodePath || Relinks(tx, s1.files.installed)
    || RestoreLink(tx, s1).files.installed.env != tx.previous.env
  }

  function RestoreLocal(tx: Transaction, s: State): State {
    RestartPrevious(tx, RemoveAssets(tx, RestoreFiles(tx, s)), LocalChanged(tx, s))
  }

  predicate CandidateRecorded(tx: Transaction) {
    tx.candidate.current.Some? && tx.candidate.env.Some? && tx.candidate.actions.Some?
  }

  function SelectCandidate(tx: Transaction, s: State): State {
    var s1 := Install(tx, s, Node, s.files.installed.(nodePath := tx.candidate.nodePath));
    var s2 := Install(tx, s1, Link, s1.files.installed.(current := tx.candidate.current));
    var s3 := Install(tx, s2, Environment, s2.files.installed.(env := tx.candidate.env));
    Install(tx, s3, Actions, s3.files.installed.(actions := tx.candidate.actions))
  }

  function RestoreCandidate(tx: Transaction, s: State): State {
    if !Running(s) then s
    else if !CandidateRecorded(tx) then Ends(s, 1)
    else RestartService(tx, SelectCandidate(tx, s))
  }

  predicate Accepted(code: nat) {
    200 <= code < 300
  }

  predicate WindowClosed(code: nat) {
    code == 401 || code == 409
  }

  // The request may be processed without its answer arriving. A transaction that is over
  // already stays as it is.
  function Rollback(tx: Transaction, s: State): State {
    if !Running(s) then s
    else
      var a := Told(s);
      var cancels := !Terminal(s.world.remote) && (Accepted(a.code) || (a.processed && !WindowClosed(a.code)));
      Execute(tx, s.(world := if cancels then s.world.(remote := Cancelled) else s.world,
                     script := s.script.(rollback := a.code)), PostRollback)
  }

  function TestMarker(tx: Transaction, s: State): State {
    if !Running(s) then s else Execute(tx, s.(script := s.script.(markerSeen := s.world.marker)), ReadMarker)
  }

  predicate ReportsConnection(s: State) {
    s.script.report.Some? && s.script.report.value.activeConnected
  }

  // What the run knows when it decides.
  function Decision(s: State, kept: bool): Settlement {
    Settlement(kept, s.files.installed, s.world.remote, s.script.markerSeen, ReportsConnection(s))
  }

  function WritePhase(tx: Transaction, s: State, phase: Phase): State {
    if !Running(s) then s else Execute(tx, s.(files := s.files.(phase := phase)), SetPhase(phase))
  }

  function WaitForConnection(tx: Transaction, s: State): State {
    var t := WritePhase(tx, s, RecoveryPending);
    if Running(t) then Ends(t, 75) else t
  }

  // The link first, and then the directory behind it.
  function Unlink(tx: Transaction, s: State): State {
    if !Running(s) then s
    else
      var t := Execute(tx, s.(files := s.files.(linked := false)), DropLink);
      if !Running(t) then t
      else
        var u := Execute(tx, t.(files := t.files.(evidence := false)), DropEvidence);
        if Running(u) then Ends(u, 0) else u
  }

  function Forget(tx: Transaction, s: State): State {
    if !Running(s) then s else Unlink(tx, s.(settlement := Some(Decision(s, false))))
  }

  function Retain(tx: Transaction, s: State): State {
    if !Running(s) then s
    else Unlink(tx, WritePhase(tx, s.(settlement := Some(Decision(s, true))), Committed))
  }

  function RequireRestoredConnection(tx: Transaction, s: State): State {
    if !Running(s) || !tx.previousActive then s
    else
      var t := TestMarker(tx, s);
      if Running(t) && (!t.script.markerSeen || (tx.control && !ReportsConnection(t))) then WaitForConnection(tx, t) else t
  }

  function DropNote(tx: Transaction, s: State): State {
    if !Running(s) then s
    else
      var t := Execute(tx, s.(files := s.files.(previousSelected := false)), RemoveNote);
      if Running(t) then Ends(t, 75) else t
  }

  // The previous installation is selected, but the control plane holds the commit.
  function UndoCommit(tx: Transaction, s: State): State {
    var t := Rollback(tx, s);
    if !Running(t) then t
    else if Accepted(t.script.rollback) then
      var u := RestoreLocal(tx, t);
      if tx.previousActive then WaitForConnection(tx, u) else Forget(tx, u)
    else if WindowClosed(t.script.rollback) then DropNote(tx, RestoreCandidate(tx, t))
    else Ends(t, 75)
  }

  function KeepCommit(tx: Transaction, s: State): State {
    var t := TestMarker(tx, s);
    if !Running(t) then t
    else if !t.script.markerSeen || !ReportsConnection(t) then Ends(t, 75)
    else Retain(tx, t)
  }

  function FinishUndone(tx: Transaction, s: State): State {
    Forget(tx, WritePhase(tx, s, RolledBack))
  }

  function RecoverUndone(tx: Transaction, s: State): State {
    FinishUndone(tx, RequireRestoredConnection(tx, RestoreLocal(tx, s)))
  }

  // A pending credential is cancelled before anything local changes.
  function RecoverPending(tx: Transaction, s: State): State {
    var t := Rollback(tx, s);
    if !Running(t) then t
    else if !Accepted(t.script.rollback) then Ends(t, 75)
    else
      var u := RestoreLocal(tx, t);
      if tx.previousActive then WaitForConnection(tx, u) else FinishUndone(tx, u)
  }

  function FetchStatus(tx: Transaction, s: State): State {
    if !Running(s) then s
    else if s.script.oracle.Then? && !Told(s).reachable then Ends(s, 75)
    else Execute(tx, s.(script := s.script.(report := Some(Report(s.world.remote, s.world.connected)))), Fetch)
  }

  function RecoverControl(tx: Transaction, s: State): State {
    var t := FetchStatus(tx, s);
    if !Running(t) || t.script.report.None? then t
    else
      match t.script.report.value.status
      case Completed => if t.files.previousSelected then UndoCommit(tx, t) else KeepCommit(tx, t)
      case Cancelled => RecoverUndone(tx, t)
      case Expired => RecoverUndone(tx, t)
      case Exchanged => RecoverPending(tx, t)
      case Verified => RecoverPending(tx, t)
      case Unknown => Ends(t, 75)
  }

  function Started(s: State, oracle: Oracle): State {
    s.(script := Script(Continue, None, 0, false, oracle, []))
  }

  // One run of the script.
  function Recover(tx: Transaction, s: State, oracle: Oracle): State {
    var t := Started(s, oracle);
    if !s.files.linked then Ends(t, 0)
    else if s.files.phase == Committed then Unlink(tx, t)
    else
      var u := Execute(tx, t, Load);
      if tx.control then RecoverControl(tx, u) else RecoverUndone(tx, u)
  }

  // The script is run again and again, as long as it is installed.
  function Recoveries(tx: Transaction, s: State, oracles: seq<Oracle>): State {
    if oracles == [] then s
    else
      var t := Recoveries(tx, s, oracles[..|oracles| - 1]);
      if t.files.assets then Recover(tx, t, oracles[|oracles| - 1]) else t
  }

  // Both sides tell the same story.
  predicate Agree(tx: Transaction, local: Installation, remote: Remote) {
    if tx.control then (local == tx.candidate && remote == Completed) || (local == tx.previous && Terminal(remote))
    else local == tx.candidate || local == tx.previous
  }

  // As long as the control plane may come to hold the commit, the candidate is selected or a
  // note says that it is not; and where restoring trusts the link to be right, it is.
  predicate Aligned(tx: Transaction, files: Files, remote: Remote) {
    && (tx.control && MayComplete(tx, remote) && !files.previousSelected ==> files.installed == tx.candidate)
    && (tx.candidate.current.Some? && tx.candidate.current == tx.previous.current ==>
          files.installed.current == tx.previous.current)
  }

  // A candidate is kept when it was selected, committed, and seen to authenticate; the previous
  // installation is back when it was selected, the commit is over, and, if it was running, it
  // was seen to authenticate.
  predicate Sound(tx: Transaction, s: Settlement) {
    if s.kept then tx.control && s.local == tx.candidate && s.remote == Completed && s.markerSeen && s.connectedSeen
    else
      && s.local == tx.previous && (tx.control ==> Terminal(s.remote))
      && (tx.previousActive ==> s.markerSeen && (tx.control ==> s.connectedSeen))
  }

  // What an interrupted installer has left: the link, the script, and its recorded files.
  predicate Start(s: State) {
    s.files.linked && s.files.evidence && s.files.assets && s.settlement.None?
  }

  // The condition on the recorded files and the control plane under which recovery is safe.
  predicate SafeStart(tx: Transaction, s: State) {
    if s.files.phase == Committed then Agree(tx, s.files.installed, s.world.remote)
    else Aligned(tx, s.files, s.world.remote)
  }

  predicate Open(s: State) {
    s.files.linked && s.files.phase != Committed
  }

  predicate Inv(tx: Transaction, s: State) {
    && (s.files.linked ==> s.files.evidence)
    && (if Open(s) then Aligned(tx, s.files, s.world.remote) else Agree(tx, s.files.installed, s.world.remote))
    && (s.settlement.Some? ==> Sound(tx, s.settlement.value))
  }

  // A run that says it is done has removed the link, and one that asks to be run again has not.
  predicate Codes(s: State) {
    (s.script.status == Exit(0) ==> !s.files.linked) && (s.script.status == Exit(75) ==> s.files.linked)
  }

  // An open transaction whose control-plane side is over, or has never been.
  predicate Undone(tx: Transaction, s: State) {
    Open(s) && (tx.control ==> Terminal(s.world.remote))
  }

  lemma WorldKeepsInv(tx: Transaction, s: State, world: World)
    requires Inv(tx, s)
    ensures Inv(tx, s.(world := Moved(tx, s.world, world)))
  {
  }

  lemma ExecuteKeeps(tx: Transaction, s: State, act: Act)
    requires Inv(tx, s)
    ensures var t := Execute(tx, s, act); Inv(tx, t) && t.files == s.files && RemoteMoves(tx, s.world.remote, t.world.remote)
    ensures Codes(s) ==> Codes(Execute(tx, s, act))
  {
    if Running(s) && s.script.oracle.Then? { WorldKeepsInv(tx, s, s.script.oracle.answer.world); }
  }

  // One command that replaces a part of what is installed, while both sides are decided or
  // the installer's note keeps them apart.
  lemma InstallKeeps(tx: Transaction, s: State, part: Part, next: Installation)
    requires Inv(tx, s) && Codes(s) && Open(s) && (tx.control ==> Terminal(s.world.remote) || s.files.previousSelected)
    requires next.current == s.files.installed.current || next.current == tx.previous.current || next.current == tx.candidate.current
    ensures var t := Install(tx, s, part, next);
            && Inv(tx, t) && Codes(t) && RemoteMoves(tx, s.world.remote, t.world.remote)
            && t.files == s.files.(installed := if Running(s) then next else s.files.installed)
  {
    if Running(s) { ExecuteKeeps(tx, s.(files := s.files.(installed := next)), Replace(part)); }
  }

  predicate Restoring(tx: Transaction, s: State) {
    Inv(tx, s) && Codes(s) && Undone(tx, s)
  }

  // One step of the restoration: it replaces a part by the previous one, or leaves it.
  lemma InstallRestores(tx: Transaction, s: State, part: Part, next: Installation)
    requires Restoring(tx, s)
    requires next.current == s.files.installed.current || next.current == tx.previous.current
    ensures var t := Install(tx, s, part, next); Restoring(tx, t) && (Running(t) ==> t.files.installed == next)
  {
    InstallKeeps(tx, s, part, next);
  }

  // Restoring selects the previous installation, whatever was selected before.
  lemma RestoreFilesKeeps(tx: Transaction, s: State)
    requires Restoring(tx, s)
    ensures var t := RestoreFiles(tx, s);
            Restoring(tx, t) && (Running(t) ==> t.files.installed == tx.previous)
  {
    InstallRestores(tx, s, Node, s.files.installed.(nodePath := tx.previous.nodePath));
    var s1 := RestoreNode(tx, s);
    assert Running(s1) ==> s1.files.installed == s.files.installed.(nodePath := tx.previous.nodePath);
    InstallRestores(tx, s1, Link, s1.files.installed.(current := tx.previous.current));
    var s2 := RestoreLink(tx, s1);
    assert Running(s2) ==> s2.files.installed == s1.files.installed.(current := tx.previous.current);
    InstallRestores(tx, s2, Environment, s2.files.installed.(env := tx.previous.env));
    var s3 := RestoreEnv(tx, s2);
    InstallRestores(tx, s3, Actions, s3.files.installed.(actions := tx.previous.actions));
  }

  lemma RestartKeeps(tx: Transaction, s: State)
    requires Inv(tx, s) && Codes(s)
    ensures var t := RestartService(tx, s);
            Inv(tx, t) && Codes(t) && t.files == s.files && RemoteMoves(tx, s.world.remote, t.world.remote)
  {
    if Running(s) {
      var u := s.(world := s.world.(marker := false));
      ExecuteKeeps(tx, u, ClearMarker);
      ExecuteKeeps(tx, Execute(tx, u, ClearMarker), Restart);
    }
  }

  lemma RestoreLocalKeeps(tx: Transaction, s: State)
    requires Restoring(tx, s)
    ensures var t := RestoreLocal(tx, s); Restoring(tx, t) && (Running(t) ==> t.files.installed == tx.previous)
  {
    RestoreFilesKeeps(tx, s);
    var t := RestoreFiles(tx, s);
    RemoveAssetsKeeps(tx, t);
    RestartKeeps(tx, Did(RemoveAssets(tx, t), AskActive(true)));
  }

  lemma RemoveAssetsKeeps(tx: Transaction, s: State)
    requires Restoring(tx, s)
    ensures var t := RemoveAssets(tx, s);
            Restoring(tx, t) && t.files.installed == s.files.installed && (Running(t) ==> Running(s))
  {
    ExecuteKeeps(tx, s.(files := s.files.(assets := false)), RemoveUnits);
  }

  // The candidate is restored only under the note that the previous installation is selected.
  predicate Noted(tx: Transaction, s: State) {
    Inv(tx, s) && Codes(s) && Open(s) && s.files.previousSelected && s.world.remote == Completed
  }

  lemma InstallCandidate(tx: Transaction, s: State, part: Part, next: Installation)
    requires Noted(tx, s)
    requires next.current == s.files.installed.current || next.current == tx.candidate.current
    ensures var t := Install(tx, s, part, next); Noted(tx, t) && (Running(t) ==> t.files.installed == next)
  {
    InstallKeeps(tx, s, part, next);
  }

  lemma RestoreCandidateKeeps(tx: Transaction, s: State)
    requires Noted(tx, s)
    ensures var t := RestoreCandidate(tx, s); Noted(tx, t) && (Running(t) ==> t.files.installed == tx.candidate)
  {
    if Running(s) && CandidateRecorded(tx) {
      var s1 := Install(tx, s, Node, s.files.installed.(nodePath := tx.candidate.nodePath));
      InstallCandidate(tx, s, Node, s.files.installed.(nodePath := tx.candidate.nodePath));
      var s2 := Install(tx, s1, Link, s1.files.installed.(current := tx.candidate.current));
      InstallCandidate(tx, s1, Link, s1.files.installed.(current := tx.candidate.current));
      var s3 := Install(tx, s2, Environment, s2.files.installed.(env := tx.candidate.env));
      InstallCandidate(tx, s2, Environment, s2.files.installed.(env := tx.candidate.env));
      InstallCandidate(tx, s3, Actions, s3.files.installed.(actions := tx.candidate.actions));
      var s4 := Install(tx, s3, Actions, s3.files.installed.(actions := tx.candidate.actions));
      RestartKeeps(tx, s4);
    }
  }

  lemma DropNoteKeeps(tx: Transaction, s: State)
    requires Noted(tx, s) && (Running(s) ==> s.files.installed == tx.candidate)
    ensures Inv(tx, DropNote(tx, s)) && Codes(DropNote(tx, s))
  {
    if Running(s) { ExecuteKeeps(tx, s.(files := s.files.(previousSelected := false)), RemoveNote); }
  }

  // An accepted rollback ends the transaction; a closed window leaves the commit alone.
  lemma RollbackKeeps(tx: Transaction, s: State)
    requires Inv(tx, s) && Codes(s) && Open(s) && Running(s)
    ensures var t := Rollback(tx, s);
            && Inv(tx, t) && Codes(t) && t.files == s.files && t.script.report == s.script.report
            && (Running(t) && Accepted(t.script.rollback) ==> Terminal(t.world.remote))
            && (Running(t) && WindowClosed(t.script.rollback) ==> RemoteMoves(tx, s.world.remote, t.world.remote))
  {
    var a := Told(s);
    var world := if !Terminal(s.world.remote) && (Accepted(a.code) || (a.processed && !WindowClosed(a.code)))
                 then s.world.(remote := Cancelled) else s.world;
    ExecuteKeeps(tx, s.(world := world, script := s.script.(rollback := a.code)), PostRollback);
  }

  lemma WritePhaseKeeps(tx: Transaction, s: State, phase: Phase)
    requires Inv(tx, s) && Codes(s) && Open(s) && phase != Committed
    ensures var t := WritePhase(tx, s, phase);
            && Inv(tx, t) && Codes(t) && Open(t) && t.files.installed == s.files.installed
            && RemoteMoves(tx, s.world.remote, t.world.remote)
            && t.script.report == s.script.report && t.script.markerSeen == s.script.markerSeen
  {
    if Running(s) { ExecuteKeeps(tx, s.(files := s.files.(phase := phase)), SetPhase(phase)); }
  }

  lemma WaitKeeps(tx: Transaction, s: State)
    requires Inv(tx, s) && Codes(s) && Open(s)
    ensures var t := WaitForConnection(tx, s); Inv(tx, t) && Codes(t) && !Running(t) && Open(t)
    ensures WaitForConnection(tx, s).files.installed == s.files.installed
    ensures RemoteMoves(tx, s.world.remote, WaitForConnection(tx, s).world.remote)
  {
    WritePhaseKeeps(tx, s, RecoveryPending);
  }

  lemma UnlinkKeeps(tx: Transaction, s: State)
    requires Inv(tx, s) && Codes(s) && (Running(s) ==> Agree(tx, s.files.installed, s.world.remote))
    ensures Inv(tx, Unlink(tx, s)) && Codes(Unlink(tx, s))
  {
    if Running(s) {
      ExecuteKeeps(tx, s.(files := s.files.(linked := false)), DropLink);
      var t := Execute(tx, s.(files := s.files.(linked := false)), DropLink);
      ExecuteKeeps(tx, t.(files := t.files.(evidence := false)), DropEvidence);
    }
  }

  lemma ForgetKeeps(tx: Transaction, s: State)
    requires Inv(tx, s) && Codes(s) && (Running(s) ==> Sound(tx, Decision(s, false)))
    ensures Inv(tx, Forget(tx, s)) && Codes(Forget(tx, s))
  {
    if Running(s) { UnlinkKeeps(tx, s.(settlement := Some(Decision(s, false)))); }
  }

  lemma RetainKeeps(tx: Transaction, s: State)
    requires Inv(tx, s) && Codes(s) && (Running(s) ==> Sound(tx, Decision(s, true)))
    ensures Inv(tx, Retain(tx, s)) && Codes(Retain(tx, s))
  {
    if Running(s) {
      var t := s.(settlement := Some(Decision(s, true)), files := s.files.(phase := Committed));
      ExecuteKeeps(tx, t, SetPhase(Committed));
      UnlinkKeeps(tx, Execute(tx, t, SetPhase(Committed)));
    }
  }

  // Goes on only if the previous installation was not running, or was seen to authenticate.
  lemma RequireKeeps(tx: Transaction, s: State)
    requires Restoring(tx, s)
    ensures var t := RequireRestoredConnection(tx, s);
            && Restoring(tx, t) && t.files.installed == s.files.installed
            && (Running(t) && tx.previousActive ==> t.script.markerSeen && (tx.control ==> ReportsConnection(t)))
  {
    if Running(s) && tx.previousActive {
      ExecuteKeeps(tx, s.(script := s.script.(markerSeen := s.world.marker)), ReadMarker);
      WaitKeeps(tx, TestMarker(tx, s));
    }
  }

  lemma FinishUndoneKeeps(tx: Transaction, s: State)
    requires Restoring(tx, s) && (Running(s) ==> Sound(tx, Decision(s, false)))
    ensures Inv(tx, FinishUndone(tx, s)) && Codes(FinishUndone(tx, s))
  {
    WritePhaseKeeps(tx, s, RolledBack);
    ForgetKeeps(tx, WritePhase(tx, s, RolledBack));
  }

  lemma RecoverUndoneKeeps(tx: Transaction, s: State)
    requires Restoring(tx, s)
    ensures Inv(tx, RecoverUndone(tx, s)) && Codes(RecoverUndone(tx, s))
  {
    RestoreLocalKeeps(tx, s);
    RequireKeeps(tx, RestoreLocal(tx, s));
    FinishUndoneKeeps(tx, RequireRestoredConnection(tx, RestoreLocal(tx, s)));
  }

  lemma RecoverPendingKeeps(tx: Transaction, s: State)
    requires Inv(tx, s) && Codes(s) && Open(s) && Running(s)
    ensures Inv(tx, RecoverPending(tx, s)) && Codes(RecoverPending(tx, s))
  {
    RollbackKeeps(tx, s);
    var t := Rollback(tx, s);
    if Running(t) && Accepted(t.script.rollback) {
      RestoreLocalKeeps(tx, t);
      if tx.previousActive { WaitKeeps(tx, RestoreLocal(tx, t)); } else { FinishUndoneKeeps(tx, RestoreLocal(tx, t)); }
    }
  }

  lemma UndoCommitKeeps(tx: Transaction, s: State)
    requires Inv(tx, s) && Codes(s) && Open(s) && Running(s) && s.files.previousSelected && s.world.remote == Completed
    ensures Inv(tx, UndoCommit(tx, s)) && Codes(UndoCommit(tx, s))
  {
    RollbackKeeps(tx, s);
    var t := Rollback(tx, s);
    if Running(t) {
      if Accepted(t.script.rollback) {
        RestoreLocalKeeps(tx, t);
        if tx.previousActive { WaitKeeps(tx, RestoreLocal(tx, t)); } else { ForgetKeeps(tx, RestoreLocal(tx, t)); }
      } else if WindowClosed(t.script.rollback) {
        RestoreCandidateKeeps(tx, t);
        DropNoteKeeps(tx, RestoreCandidate(tx, t));
      }
    }
  }

  lemma KeepCommitKeeps(tx: Transaction, s: State)
    requires Inv(tx, s) && Codes(s) && Open(s) && Running(s) && tx.control
    requires !s.files.previousSelected && s.world.remote == Completed
    ensures Inv(tx, KeepCommit(tx, s)) && Codes(KeepCommit(tx, s))
  {
    ExecuteKeeps(tx, s.(script := s.script.(markerSeen := s.world.marker)), ReadMarker);
    var t := TestMarker(tx, s);
    if Running(t) && t.script.markerSeen && ReportsConnection(t) { RetainKeeps(tx, t); }
  }

  // A status that was read stays true where it matters: what is over or committed remains so.
  lemma FetchStatusKeeps(tx: Transaction, s: State)
    requires Inv(tx, s) && Codes(s) && Open(s) && Running(s)
    ensures var t := FetchStatus(tx, s);
            && Inv(tx, t) && Codes(t) && t.files == s.files
            && (Running(t) ==> t.script.report.Some? && RemoteMoves(tx, t.script.report.value.status, t.world.remote))
  {
    ExecuteKeeps(tx, s.(script := s.script.(report := Some(Report(s.world.remote, s.world.connected)))), Fetch);
  }

  lemma RecoverControlKeeps(tx: Transaction, s: State)
    requires Inv(tx, s) && Codes(s) && Open(s) && tx.control
    ensures Inv(tx, RecoverControl(tx, s)) && Codes(RecoverControl(tx, s))
  {
    if Running(s) {
      FetchStatusKeeps(tx, s);
      var t := FetchStatus(tx, s);
      if Running(t) {
        match t.script.report.value.status
        case Completed => if t.files.previousSelected { UndoCommitKeeps(tx, t); } else { KeepCommitKeeps(tx, t); }
        case Cancelled => RecoverUndoneKeeps(tx, t);
        case Expired => RecoverUndoneKeeps(tx, t);
        case Exchanged => RecoverPendingKeeps(tx, t);
        case Verified => RecoverPendingKeeps(tx, t);
        case Unknown =>
      }
    }
  }

  // One run, stopped after any command, keeps the invariant; it reports success only when the
  // link is gone, and asks to be run again only when it is still there.
  lemma RecoverKeeps(tx: Transaction, s: State, oracle: Oracle)
    requires Inv(tx, s)
    ensures Inv(tx, Recover(tx, s, oracle)) && Codes(Recover(tx, s, oracle))
  {
    var t := Started(s, oracle);
    assert Inv(tx, t) && Codes(t);
    if s.files.linked {
      if s.files.phase == Committed {
        UnlinkKeeps(tx, t);
      } else {
        ExecuteKeeps(tx, t, Load);
        var u := Execute(tx, t, Load);
        if tx.control { RecoverControlKeeps(tx, u); } else { RecoverUndoneKeeps(tx, u); }
      }
    }
  }

  lemma {:induction false} RecoveriesKeep(tx: Transaction, s: State, oracles: seq<Oracle>)
    requires Inv(tx, s)
    ensures Inv(tx, Recoveries(tx, s, oracles))
  {
    if oracles != [] {
      RecoveriesKeep(tx, s, oracles[..|oracles| - 1]);
      var t := Recoveries(tx, s, oracles[..|oracles| - 1]);
      if t.files.assets { RecoverKeeps(tx, t, oracles[|oracles| - 1]); }
    }
  }

  function Repeat(a: Answer, n: nat): Oracle {
    if n == 0 then Silence else Then(a, Repeat(a, n - 1))
  }

  predicate Lasts(o: Oracle, a: Answer, n: nat) {
    n == 0 || (o.Then? && o.answer == a && Lasts(o.rest, a, n - 1))
  }

  lemma {:induction false} RepeatLasts(a: Answer, n: nat)
    ensures Lasts(Repeat(a, n), a, n)
  {
    if n > 0 { RepeatLasts(a, n - 1); }
  }

  // A world that lets every command succeed: the service has authenticated and is connected,
  // and the control plane answers the rollback request with the code.
  predicate Calm(a: Answer) {
    a.ending.GoesOn? && a.reachable && !a.processed && a.world.marker && a.world.connected
  }

  function CalmAt(remote: Remote, code: nat): Answer {
    Answer(World(true, remote, true), GoesOn, true, code, false, false)
  }

  // Where the control plane ends up when the world moves as this answer says.
  function Settled(tx: Transaction, remote: Remote, a: Answer): Remote {
    if RemoteMoves(tx, remote, a.world.remote) then a.world.remote else remote
  }

  // The next n commands find a calm world that stands still.
  predicate Quiet(tx: Transaction, s: State, a: Answer, n: nat) {
    && Running(s) && Calm(a) && Lasts(s.script.oracle, a, n)
    && s.world.marker && s.world.connected && Settled(tx, s.world.remote, a) == s.world.remote
  }

  predicate SameScript(s: State, t: State) {
    t.script.report == s.script.report && t.script.markerSeen == s.script.markerSeen && t.script.rollback == s.script.rollback
  }

  lemma QuietExecute(tx: Transaction, s: State, act: Act, a: Answer, n: nat)
    requires Running(s) && Calm(a) && Lasts(s.script.oracle, a, n + 1)
    ensures var t := Execute(tx, s, act);
            Quiet(tx, t, a, n) && t.files == s.files && SameScript(s, t) && t.world.remote == Settled(tx, s.world.remote, a)
  {
  }

  lemma QuietInstall(tx: Transaction, s: State, part: Part, next: Installation, a: Answer, n: nat)
    requires Quiet(tx, s, a, n + 1)
    ensures var t := Install(tx, s, part, next);
            Quiet(tx, t, a, n) && t.files == s.files.(installed := next) && SameScript(s, t) && t.world == s.world
  {
    QuietExecute(tx, s.(files := s.files.(installed := next)), Replace(part), a, n);
  }

  lemma Fewer(tx: Transaction, s: State, a: Answer, n: nat, m: nat)
    requires Quiet(tx, s, a, n) && m <= n
    ensures Quiet(tx, s, a, m)
  {
    FewerLast(s.script.oracle, a, n, m);
  }

  lemma {:induction false} FewerLast(o: Oracle, a: Answer, n: nat, m: nat)
    requires Lasts(o, a, n) && m <= n
    ensures Lasts(o, a, m)
  {
    if m > 0 { FewerLast(o.rest, a, n - 1, m - 1); }
  }

  // What restoring makes of an installation: the link is set by comparison with the candidate.
  function Restored(tx: Transaction, installed: Installation): Installation {
    tx.previous.(current := if Relinks(tx, installed) then tx.previous.current else installed.current)
  }

  lemma QuietNodeAndLink(tx: Transaction, s: State, a: Answer, n: nat)
    requires Quiet(tx, s, a, n + 2)
    ensures var t := RestoreLink(tx, RestoreNode(tx, s));
            && Quiet(tx, t, a, n) && SameScript(s, t) && t.world == s.world
            && t.files == s.files.(installed := s.files.installed.(nodePath := tx.previous.nodePath, current := Restored(tx, s.files.installed).current))
  {
    QuietInstall(tx, s, Node, s.files.installed.(nodePath := tx.previous.nodePath), a, n + 1);
    Fewer(tx, s, a, n + 2, n + 1);
    var s1 := RestoreNode(tx, s);
    QuietInstall(tx, s1, Link, s1.files.installed.(current := tx.previous.current), a, n);
    Fewer(tx, s1, a, n + 1, n);
  }

  lemma QuietRestoreFiles(tx: Transaction, s: State, a: Answer, n: nat)
    requires Quiet(tx, s, a, n + 4)
    ensures var t := RestoreFiles(tx, s);
            && Quiet(tx, t, a, n) && SameScript(s, t) && t.world == s.world
            && t.files == s.files.(installed := Restored(tx, s.files.installed))
  {
    QuietNodeAndLink(tx, s, a, n + 2);
    var s2 := RestoreLink(tx, RestoreNode(tx, s));
    QuietInstall(tx, s2, Environment, s2.files.installed.(env := tx.previous.env), a, n + 1);
    Fewer(tx, s2, a, n + 2, n + 1);
    var s3 := RestoreEnv(tx, s2);
    QuietInstall(tx, s3, Actions, s3.files.installed.(actions := tx.previous.actions), a, n);
  }

  lemma QuietRestart(tx: Transaction, s: State, a: Answer, n: nat)
    requires Quiet(tx, s, a, n + 2)
    ensures var t := RestartService(tx, s); Quiet(tx, t, a, n) && t.files == s.files && SameScript(s, t) && t.world == s.world
  {
    var u := s.(world := s.world.(marker := false));
    QuietExecute(tx, u, ClearMarker, a, n + 1);
    QuietExecute(tx, Execute(tx, u, ClearMarker), Restart, a, n);
  }

  lemma QuietRestore(tx: Transaction, s: State, a: Answer, n: nat)
    requires Quiet(tx, s, a, n + 7)
    ensures var t := RestoreLocal(tx, s);
            && Quiet(tx, t, a, n) && SameScript(s, t) && t.world == s.world
            && t.files == s.files.(installed := Restored(tx, s.files.installed),
                                   assets := s.files.assets && tx.previousInstallation)
  {
    QuietRestoreFiles(tx, s, a, n + 3);
    var t := RestoreFiles(tx, s);
    QuietExecute(tx, t.(files := t.files.(assets := false)), RemoveUnits, a, n + 2);
    Fewer(tx, t, a, n + 3, n + 2);
    var u := RemoveAssets(tx, t);
    QuietRestart(tx, Did(u, AskActive(true)), a, n);
    Fewer(tx, u, a, n + 2, n);
  }

  lemma QuietUnlink(tx: Transaction, s: State, a: Answer)
    requires Running(s) && Calm(a) && Lasts(s.script.oracle, a, 2)
    ensures var t := Unlink(tx, s); t.files == s.files.(linked := false, evidence := false)
    ensures Settled(tx, s.world.remote, a) == s.world.remote ==> Unlink(tx, s).world.remote == s.world.remote
  {
    var s1 := s.(files := s.files.(linked := false));
    QuietExecute(tx, s1, DropLink, a, 1);
    var t := Execute(tx, s1, DropLink);
    QuietExecute(tx, t.(files := t.files.(evidence := false)), DropEvidence, a, 0);
  }

  lemma QuietForget(tx: Transaction, s: State, a: Answer)
    requires Quiet(tx, s, a, 3)
    ensures var t := FinishUndone(tx, s);
            t.files == s.files.(linked := false, evidence := false, phase := RolledBack) && t.world.remote == s.world.remote
  {
    var s1 := s.(files := s.files.(phase := RolledBack));
    QuietExecute(tx, s1, SetPhase(RolledBack), a, 2);
    var t := Execute(tx, s1, SetPhase(RolledBack));
    QuietUnlink(tx, t.(settlement := Some(Decision(t, false))), a);
  }

  // What is left when a restoration is through and the transaction is forgotten.
  predicate Gone(tx: Transaction, s: State, t: State) {
    !t.files.linked && !t.files.evidence && t.files.installed == Restored(tx, s.files.installed) && t.world.remote == s.world.remote
  }

  lemma QuietUndone(tx: Transaction, s: State, a: Answer)
    requires Quiet(tx, s, a, 11) && (tx.control ==> ReportsConnection(s))
    ensures Gone(tx, s, RecoverUndone(tx, s))
  {
    QuietRestore(tx, s, a, 4);
    var t := RestoreLocal(tx, s);
    QuietExecute(tx, t.(script := t.script.(markerSeen := t.world.marker)), ReadMarker, a, 3);
    Fewer(tx, t, a, 4, 3);
    QuietForget(tx, RequireRestoredConnection(tx, t), a);
  }

  // The beginning of a run.
  lemma QuietLoad(tx: Transaction, s: State, a: Answer, n: nat)
    requires Calm(a)
    ensures var t := Execute(tx, Started(s, Repeat(a, n + 1)), Load);
            Quiet(tx, t, a, n) && t.files == s.files && t.world.remote == Settled(tx, s.world.remote, a)
  {
    RepeatLasts(a, n + 1);
    QuietExecute(tx, Started(s, Repeat(a, n + 1)), Load, a, n);
  }

  lemma QuietFetch(tx: Transaction, s: State, a: Answer, n: nat)
    requires Quiet(tx, s, a, n + 1)
    ensures var t := FetchStatus(tx, s);
            && Quiet(tx, t, a, n) && t.files == s.files && t.world.remote == s.world.remote
            && t.script.report == Some(Report(s.world.remote, true))
  {
    QuietExecute(tx, s.(script := s.script.(report := Some(Report(s.world.remote, s.world.connected)))), Fetch, a, n);
  }

  // How many answers are enough for one run.
  const ENOUGH: nat := 14

  // A calm run that restores the previous installation forgets the transaction.
  lemma QuietRestoration(tx: Transaction, s: State, a: Answer)
    requires Open(s) && Calm(a) && (tx.control ==> Terminal(Settled(tx, s.world.remote, a)))
    ensures var t := Recover(tx, s, Repeat(a, ENOUGH));
            && !t.files.linked && !t.files.evidence && t.files.installed == Restored(tx, s.files.installed)
            && t.world.remote == Settled(tx, s.world.remote, a)
  {
    QuietLoad(tx, s, a, 13);
    var t := Execute(tx, Started(s, Repeat(a, ENOUGH)), Load);
    if tx.control {
      QuietFetch(tx, t, a, 12);
      Fewer(tx, FetchStatus(tx, t), a, 12, 11);
      QuietUndone(tx, FetchStatus(tx, t), a);
    } else {
      Fewer(tx, t, a, 13, 11);
      QuietUndone(tx, t, a);
    }
  }

  // A calm run that finds a commit and no note keeps whatever is selected.
  lemma QuietRetention(tx: Transaction, s: State, a: Answer)
    requires Open(s) && Calm(a) && tx.control && Settled(tx, s.world.remote, a) == Completed && !s.files.previousSelected
    ensures var t := Recover(tx, s, Repeat(a, ENOUGH));
            t.files == s.files.(linked := false, evidence := false, phase := Committed) && t.world.remote == Completed
  {
    QuietLoad(tx, s, a, 13);
    var t := Execute(tx, Started(s, Repeat(a, ENOUGH)), Load);
    QuietFetch(tx, t, a, 12);
    var u := FetchStatus(tx, t);
    var u1 := u.(script := u.script.(markerSeen := true));
    QuietExecute(tx, u1, ReadMarker, a, 11);
    var v := Execute(tx, u1, ReadMarker);
    assert v == TestMarker(tx, u);
    var w := v.(settlement := Some(Decision(v, true)), files := v.files.(phase := Committed));
    QuietExecute(tx, w, SetPhase(Committed), a, 10);
    var x := Execute(tx, w, SetPhase(Committed));
    Fewer(tx, x, a, 10, 2);
    QuietUnlink(tx, x, a);
  }

  // A rollback that is accepted, and then nothing more of this run.
  function Cut(): Oracle {
    var a := CalmAt(Completed, 200);
    Then(a, Then(a, Then(a.(ending := Dies), Silence)))
  }

  lemma RollbackThenCut(tx: Transaction, s: State)
    requires Open(s) && tx.control && s.world.remote == Completed && s.files.previousSelected
    ensures var t := Recover(tx, s, Cut()); t.files == s.files && t.world.remote == Cancelled
  {
    var t := Execute(tx, Started(s, Cut()), Load);
    assert t.world.remote == Completed && t.files == s.files && Running(t);
    var u := FetchStatus(tx, t);
    assert u.world.remote == Completed && u.files == s.files && Running(u) && u.script.report == Some(Report(Completed, true));
    var v := Rollback(tx, u);
    assert v.world.remote == Cancelled && v.files == s.files && !Running(v);
  }

  // A history of runs that forgets the transaction although the sides disagree.
  ghost predicate Fails(tx: Transaction, s: State, oracles: seq<Oracle>) {
    var t := Recoveries(tx, s, oracles); !t.files.linked && !Agree(tx, t.files.installed, t.world.remote)
  }

  lemma OneRun(tx: Transaction, s: State, oracle: Oracle)
    requires s.files.assets
    ensures Recoveries(tx, s, [oracle]) == Recover(tx, s, oracle)
  {
    assert [oracle][..0] == [];
  }

  lemma TwoRuns(tx: Transaction, s: State, first: Oracle, second: Oracle)
    requires s.files.assets && Recover(tx, s, first).files.assets
    ensures Recoveries(tx, s, [first, second]) == Recover(tx, Recover(tx, s, first), second)
  {
    assert [first, second][..1] == [first];
    OneRun(tx, s, first);
  }

  lemma CommittedFails(tx: Transaction, s: State)
    requires Start(s) && s.files.phase == Committed && !Agree(tx, s.files.installed, s.world.remote)
    ensures Fails(tx, s, [Repeat(CalmAt(s.world.remote, 200), 2)])
  {
    var a := CalmAt(s.world.remote, 200);
    var o := Repeat(a, 2);
    OneRun(tx, s, o);
    RepeatLasts(a, 2);
    QuietUnlink(tx, Started(s, o), a);
  }

  // An installer that fails after its commit selects the previous installation again before it
  // writes the note that it has. If power is lost in between, the first recovery that finds
  // the marker and the connection deletes the evidence, with something else than the
  // committed candidate selected.
  lemma RelinkedBeforeTheNote(tx: Transaction, s: State)
    requires Start(s) && s.files.phase != Committed && tx.control
    requires MayComplete(tx, s.world.remote) && !s.files.previousSelected && s.files.installed != tx.candidate
    ensures Fails(tx, s, [Repeat(CalmAt(Completed, 200), ENOUGH)])
    ensures var t := Recoveries(tx, s, [Repeat(CalmAt(Completed, 200), ENOUGH)]);
            !t.files.evidence && t.files.installed == s.files.installed && t.world.remote == Completed
  {
    QuietRetention(tx, s, CalmAt(Completed, 200));
    OneRun(tx, s, Repeat(CalmAt(Completed, 200), ENOUGH));
  }

  // Every start outside the condition has such a history.
  lemma UnsafeStartsFail(tx: Transaction, s: State)
    requires Start(s) && !SafeStart(tx, s)
    ensures exists oracles :: Fails(tx, s, oracles)
  {
    var remote := s.world.remote;
    if s.files.phase == Committed {
      CommittedFails(tx, s);
    } else if tx.control && MayComplete(tx, remote) && !s.files.previousSelected && s.files.installed != tx.candidate {
      RelinkedBeforeTheNote(tx, s);
    } else if tx.control && remote == Completed {
      CutFails(tx, s);
    } else {
      WrongLinkFails(tx, s, if !tx.control || Terminal(remote) then remote else Expired);
    }
  }

  // A link that restoring trusts, and that is wrong.
  predicate WrongLink(tx: Transaction, s: State) {
    && tx.candidate.current.Some? && tx.candidate.current == tx.previous.current
    && s.files.installed.current != tx.previous.current
  }

  lemma CutFails(tx: Transaction, s: State)
    requires Start(s) && s.files.phase != Committed && tx.control && s.world.remote == Completed
    requires s.files.previousSelected && WrongLink(tx, s)
    ensures Fails(tx, s, [Cut(), Repeat(CalmAt(Cancelled, 200), ENOUGH)])
  {
    RollbackThenCut(tx, s);
    QuietRestoration(tx, Recover(tx, s, Cut()), CalmAt(Cancelled, 200));
    TwoRuns(tx, s, Cut(), Repeat(CalmAt(Cancelled, 200), ENOUGH));
  }

  lemma WrongLinkFails(tx: Transaction, s: State, end: Remote)
    requires Start(s) && s.files.phase != Committed && WrongLink(tx, s)
    requires RemoteMoves(tx, s.world.remote, end) && (tx.control ==> Terminal(end))
    ensures Fails(tx, s, [Repeat(CalmAt(end, 200), ENOUGH)])
  {
    QuietRestoration(tx, s, CalmAt(end, 200));
    OneRun(tx, s, Repeat(CalmAt(end, 200), ENOUGH));
  }

  // Recovery is safe for exactly these starts: whatever happens around and between its runs,
  // once the link is gone both sides agree.
  lemma RecoveryIsSafeIff(tx: Transaction, s: State)
    requires Start(s)
    ensures (forall oracles :: !Fails(tx, s, oracles)) <==> SafeStart(tx, s)
  {
    if SafeStart(tx, s) {
      forall oracles ensures !Fails(tx, s, oracles) { RecoveriesKeep(tx, s, oracles); }
    } else {
      UnsafeStartsFail(tx, s);
    }
  }

  // From a safe start, what is decided is decided on proof: a candidate is kept only after a
  // run that saw it authenticate and connect, and a previous installation that was running is
  // settled for only after it did.
  lemma DecisionsAreProven(tx: Transaction, s: State, oracles: seq<Oracle>)
    requires Start(s) && SafeStart(tx, s)
    ensures var t := Recoveries(tx, s, oracles); t.settlement.Some? ==> Sound(tx, t.settlement.value)
    ensures var t := Recoveries(tx, s, oracles); !t.files.evidence ==> !t.files.linked
  {
    RecoveriesKeep(tx, s, oracles);
  }

  // --- When a command is due ---

  predicate Selects(a: Act) {
    a.Replace? && !a.part.Actions?
  }

  ghost predicate Changed(done: seq<Act>) {
    exists a :: a in done && Selects(a)
  }

  // From here on what the service runs is what is selected: it was not active, or its marker
  // has been removed and its restart queued.
  predicate Renewal(done: seq<Act>, m: nat) {
    m < |done| && (done[m] == AskActive(false) || (done[m].ClearMarker? && m + 1 < |done| && done[m + 1].Restart?))
  }

  // After every replacement the service has been renewed.
  ghost predicate Renewed(done: seq<Act>) {
    forall j :: 0 <= j < |done| && Selects(done[j]) ==> exists m: nat :: j < m && Renewal(done, m)
  }

  // The previous installation is back: everything is replaced, a first installation has left
  // nothing behind, and a service that was running before is on its way again.
  ghost predicate Back(tx: Transaction, done: seq<Act>) {
    && Replace(Actions) in done && (tx.previousInstallation || RemoveUnits in done)
    && (tx.previousActive ==> Renewed(done))
  }

  // Nothing has been asked or decided but the fate of the transaction.
  predicate Untouched(done: seq<Act>) {
    forall a :: a in done ==> a.Load? || a.Fetch? || a.PostRollback?
  }

  predicate Replacing(done: seq<Act>) {
    forall a :: a in done ==> a.Load? || a.Fetch? || a.PostRollback? || a.Replace?
  }

  predicate EndsWith(done: seq<Act>, act: Act) {
    done != [] && done[|done| - 1] == act
  }

  // The recorded candidate differs from the previous release, so that the link is set again by
  // every restoration, whatever it says.
  predicate AlwaysRelinks(tx: Transaction) {
    tx.previous.current.Some? && tx.candidate.current.Some? && tx.candidate.current != tx.previous.current
  }

  // What must have been done when a command is issued.
  ghost predicate Due(tx: Transaction, done: seq<Act>, act: Act) {
    match act
    case Load => done == []
    case Fetch => done == [Load]
    case PostRollback => done == [Load, Fetch]
    case Replace(part) => Replacing(done) && (part.Actions? && AlwaysRelinks(tx) ==> Replace(Link) in done)
    case RemoveUnits => !tx.previousInstallation && EndsWith(done, Replace(Actions))
    case AskActive(_) => tx.previousActive && Changed(done)
    case ClearMarker => EndsWith(done, AskActive(true)) || EndsWith(done, Replace(Actions))
    case Restart => EndsWith(done, ClearMarker)
    case ReadMarker => Renewed(done)
    case SetPhase(phase) =>
      && (phase.RecoveryPending? ==> tx.previousActive && Back(tx, done))
      && (phase.RolledBack? ==> Back(tx, done))
      && (phase.Committed? ==> done == [Load, Fetch, ReadMarker])
      && !phase.Interrupted?
    case RemoveNote => EndsWith(done, Restart) && forall part :: Replace(part) in done
    case DropLink =>
      || done == [] || EndsWith(done, SetPhase(Committed)) || EndsWith(done, SetPhase(RolledBack))
      || (PostRollback in done && !tx.previousActive && Back(tx, done))
    case DropEvidence => EndsWith(done, DropLink)
  }

  ghost predicate DueAt(tx: Transaction, done: seq<Act>, k: nat) {
    k < |done| ==> Due(tx, done[..k], done[k])
  }

  ghost predicate Ordered(tx: Transaction, done: seq<Act>) {
    forall k: nat :: DueAt(tx, done, k)
  }

  lemma OrderedNext(tx: Transaction, done: seq<Act>, act: Act)
    requires Ordered(tx, done) && Due(tx, done, act)
    ensures Ordered(tx, done + [act])
  {
    forall k: nat ensures DueAt(tx, done + [act], k) {
      assert DueAt(tx, done, k);
      if k <= |done| { assert (done + [act])[..k] == done[..k]; }
      if k == |done| { assert done[..k] == done; }
    }
  }

  // Only commands have come, and no decision.
  predicate Later(s: State, t: State) {
    && (forall a :: a in s.script.done ==> a in t.script.done) && t.settlement == s.settlement
    && (t.script.status == Exit(75) ==> s.script.status == Exit(75))
  }

  // In this run so far every command was due, and the units are there unless it removed them.
  ghost predicate Duly(tx: Transaction, s: State) {
    Ordered(tx, s.script.done) && (s.files.assets <==> RemoveUnits !in s.script.done)
  }

  lemma ExecuteDuly(tx: Transaction, s: State, act: Act)
    requires Running(s) && Ordered(tx, s.script.done) && Due(tx, s.script.done, act)
    requires s.files.assets <==> RemoveUnits !in s.script.done + [act]
    ensures var t := Execute(tx, s, act); Duly(tx, t) && t.script.done == s.script.done + [act]
    ensures Later(s, Execute(tx, s, act))
  {
    OrderedNext(tx, s.script.done, act);
  }

  lemma ExecutePlain(tx: Transaction, s: State, act: Act)
    requires Running(s) && Duly(tx, s) && Due(tx, s.script.done, act) && !act.RemoveUnits?
    ensures var t := Execute(tx, s, act);
            Duly(tx, t) && Later(s, t) && t.script.done == s.script.done + [act] && t.files == s.files
  {
    ExecuteDuly(tx, s, act);
  }

  lemma InstallDuly(tx: Transaction, s: State, part: Part, next: Installation)
    requires Duly(tx, s) && (Running(s) ==> Due(tx, s.script.done, Replace(part)))
    ensures var t := Install(tx, s, part, next);
            && Duly(tx, t) && Replacing(t.script.done) == Replacing(s.script.done) && Later(s, t)
            && t.script.done == if Running(s) then s.script.done + [Replace(part)] else s.script.done
  {
    if Running(s) { ExecutePlain(tx, s.(files := s.files.(installed := next)), Replace(part)); }
  }

  lemma ChangedNext(done: seq<Act>, act: Act)
    ensures Changed(done + [act]) <==> Changed(done) || Selects(act)
  {
    if Changed(done) {
      var a :| a in done && Selects(a);
      assert a in done + [act];
    }
    if Selects(act) { assert act in done + [act]; }
  }

  ghost predicate Partly(s: State, changed: bool) {
    Running(s) ==> Replacing(s.script.done) && (Changed(s.script.done) <==> changed)
  }

  lemma NodeAndLinkDuly(tx: Transaction, s: State)
    requires Duly(tx, s) && Partly(s, false)
    ensures var t := RestoreLink(tx, RestoreNode(tx, s));
            && Duly(tx, t) && Later(s, t)
            && Partly(t, s.files.installed.nodePath != tx.previous.nodePath || Relinks(tx, RestoreNode(tx, s).files.installed))
            && (Running(t) && AlwaysRelinks(tx) ==> Replace(Link) in t.script.done)
  {
    InstallDuly(tx, s, Node, s.files.installed.(nodePath := tx.previous.nodePath));
    ChangedNext(s.script.done, Replace(Node));
    var s1 := RestoreNode(tx, s);
    assert Partly(s1, s.files.installed.nodePath != tx.previous.nodePath);
    InstallDuly(tx, s1, Link, s1.files.installed.(current := tx.previous.current));
    ChangedNext(s1.script.done, Replace(Link));
  }

  lemma EnvDuly(tx: Transaction, s: State, changed: bool)
    requires Duly(tx, s) && Partly(s, changed)
    ensures var t := RestoreEnv(tx, s);
            Duly(tx, t) && Later(s, t) && Partly(t, changed || s.files.installed.env != tx.previous.env) && (Running(t) ==> Running(s))
  {
    InstallDuly(tx, s, Environment, s.files.installed.(env := tx.previous.env));
    ChangedNext(s.script.done, Replace(Environment));
  }

  lemma ActionsDuly(tx: Transaction, s: State, changed: bool)
    requires Duly(tx, s) && Partly(s, changed) && (Running(s) && AlwaysRelinks(tx) ==> Replace(Link) in s.script.done)
    ensures var t := RestoreActions(tx, s);
            && Duly(tx, t) && Later(s, t) && Partly(t, changed)
            && (Running(t) ==> EndsWith(t.script.done, Replace(Actions)))
  {
    InstallDuly(tx, s, Actions, s.files.installed.(actions := tx.previous.actions));
    ChangedNext(s.script.done, Replace(Actions));
  }

  lemma RestoreFilesDuly(tx: Transaction, s: State)
    requires Duly(tx, s) && Partly(s, false)
    ensures var t := RestoreFiles(tx, s);
            && Duly(tx, t) && Later(s, t) && Partly(t, LocalChanged(tx, s))
            && (Running(t) ==> EndsWith(t.script.done, Replace(Actions)))
  {
    NodeAndLinkDuly(tx, s);
    var s2 := RestoreLink(tx, RestoreNode(tx, s));
    var changed := s.files.installed.nodePath != tx.previous.nodePath || Relinks(tx, RestoreNode(tx, s).files.installed);
    EnvDuly(tx, s2, changed);
    ActionsDuly(tx, RestoreEnv(tx, s2), LocalChanged(tx, s));
  }

  lemma RemoveAssetsDuly(tx: Transaction, s: State)
    requires Duly(tx, s) && (Running(s) ==> EndsWith(s.script.done, Replace(Actions)))
    ensures var t := RemoveAssets(tx, s);
            && Duly(tx, t) && Later(s, t)
            && (Running(t) ==> Running(s) && Replace(Actions) in t.script.done && (tx.previousInstallation || RemoveUnits in t.script.done))
            && (Running(t) ==> (Changed(t.script.done) <==> Changed(s.script.done)))
  {
    if Running(s) && !tx.previousInstallation {
      ExecuteDuly(tx, s.(files := s.files.(assets := false)), RemoveUnits);
      ChangedNext(s.script.done, RemoveUnits);
    }
  }

  lemma RestartDuly(tx: Transaction, s: State)
    requires Duly(tx, s)
    requires Running(s) ==> EndsWith(s.script.done, AskActive(true)) || EndsWith(s.script.done, Replace(Actions))
    ensures var t := RestartService(tx, s);
            Duly(tx, t) && Later(s, t) && (Running(t) ==> t.script.done == s.script.done + [ClearMarker] + [Restart])
  {
    if Running(s) {
      var u := s.(world := s.world.(marker := false));
      ExecutePlain(tx, u, ClearMarker);
      if Running(Execute(tx, u, ClearMarker)) { ExecutePlain(tx, Execute(tx, u, ClearMarker), Restart); }
    }
  }

  lemma RenewedByRestart(done: seq<Act>)
    ensures Renewed(done + [ClearMarker] + [Restart])
  {
    var after := done + [ClearMarker] + [Restart];
    assert Renewal(after, |done|);
    forall j | 0 <= j < |after| && Selects(after[j]) ensures exists m: nat :: j < m && Renewal(after, m) {
      assert j < |done|;
    }
  }

  lemma RenewedByAsking(done: seq<Act>)
    ensures Renewed(done + [AskActive(false)])
  {
    var after := done + [AskActive(false)];
    assert Renewal(after, |done|);
    forall j | 0 <= j < |after| && Selects(after[j]) ensures exists m: nat :: j < m && Renewal(after, m) {
      assert j < |done|;
    }
  }

  lemma RestartPreviousDuly(tx: Transaction, s: State, localChanged: bool)
    requires Duly(tx, s) && (Running(s) ==> (Changed(s.script.done) <==> localChanged))
    ensures var t := RestartPrevious(tx, s, localChanged);
            && Duly(tx, t) && Later(s, t) && (Running(t) ==> Running(s))
            && (Running(t) && tx.previousActive ==> Renewed(t.script.done))
  {
    if Running(s) && localChanged && tx.previousActive {
      var asked := AskActive(Told(s).active);
      OrderedNext(tx, s.script.done, asked);
      if asked.active {
        RestartDuly(tx, Did(s, asked));
        RenewedByRestart(s.script.done + [asked]);
      } else {
        RenewedByAsking(s.script.done);
      }
    }
  }

  lemma RestoreLocalDuly(tx: Transaction, s: State)
    requires Duly(tx, s) && (Running(s) ==> Untouched(s.script.done))
    ensures var t := RestoreLocal(tx, s);
            && Duly(tx, t) && Later(s, t)
            && (Running(t) ==> Back(tx, t.script.done))
  {
    assert Partly(s, false);
    RestoreFilesDuly(tx, s);
    var t := RestoreFiles(tx, s);
    RemoveAssetsDuly(tx, t);
    RestartPreviousDuly(tx, RemoveAssets(tx, t), LocalChanged(tx, s));
  }

  // --- What a run does in the end ---

  // A decision and the units: a first installation is gone if and only if it was given up.
  predicate Fair(tx: Transaction, s: State) {
    && (tx.previousInstallation ==> s.files.assets)
    && (s.settlement.Some? && s.settlement.value.kept ==> s.files.assets && s.files.phase.Committed?)
    && (s.settlement.Some? && !s.settlement.value.kept ==> (s.files.assets <==> tx.previousInstallation))
  }

  // A run that asks to be run again has changed nothing, or its last command says what it waits for.
  predicate Says(done: seq<Act>) {
    (forall a :: a in done ==> !a.Replace?) || EndsWith(done, SetPhase(RecoveryPending)) || EndsWith(done, RemoveNote)
  }

  // How a part of a run ends.
  ghost predicate Well(tx: Transaction, s: State, t: State) {
    && Duly(tx, t)
    && (t.settlement == s.settlement || Fair(tx, t))
    && (t.script.status == Exit(75) ==> s.script.status == Exit(75) || Says(t.script.done))
  }

  lemma NoUnitsRemoved(tx: Transaction, done: seq<Act>)
    requires Ordered(tx, done) && RemoveUnits in done
    ensures !tx.previousInstallation
  {
    var k: nat :| k < |done| && done[k] == RemoveUnits;
    assert DueAt(tx, done, k);
  }

  lemma CandidateFilesDuly(tx: Transaction, s: State)
    requires Duly(tx, s) && Running(s) && Untouched(s.script.done)
    ensures var t := SelectCandidate(tx, s);
            && Duly(tx, t) && Later(s, t)
            && (Running(t) ==> EndsWith(t.script.done, Replace(Actions)) && forall part :: Replace(part) in t.script.done)
  {
    InstallDuly(tx, s, Node, s.files.installed.(nodePath := tx.candidate.nodePath));
    var s1 := Install(tx, s, Node, s.files.installed.(nodePath := tx.candidate.nodePath));
    InstallDuly(tx, s1, Link, s1.files.installed.(current := tx.candidate.current));
    var s2 := Install(tx, s1, Link, s1.files.installed.(current := tx.candidate.current));
    InstallDuly(tx, s2, Environment, s2.files.installed.(env := tx.candidate.env));
    var s3 := Install(tx, s2, Environment, s2.files.installed.(env := tx.candidate.env));
    InstallDuly(tx, s3, Actions, s3.files.installed.(actions := tx.candidate.actions));
    forall part ensures Running(SelectCandidate(tx, s)) ==> Replace(part) in SelectCandidate(tx, s).script.done {
      match part { case Node => case Link => case Environment => case Actions => }
    }
  }

  lemma RestoreCandidateDuly(tx: Transaction, s: State)
    requires Duly(tx, s) && (Running(s) ==> Untouched(s.script.done))
    ensures var t := RestoreCandidate(tx, s); Duly(tx, t)
    ensures var t := RestoreCandidate(tx, s);
            Later(s, t) && (Running(t) ==> EndsWith(t.script.done, Restart) && forall part :: Replace(part) in t.script.done)
  {
    if Running(s) && CandidateRecorded(tx) {
      CandidateFilesDuly(tx, s);
      RestartDuly(tx, SelectCandidate(tx, s));
    }
  }

  lemma WaitDuly(tx: Transaction, s: State)
    requires Duly(tx, s) && (Running(s) ==> tx.previousActive && Back(tx, s.script.done))
    ensures Well(tx, s, WaitForConnection(tx, s))
  {
    if Running(s) { ExecutePlain(tx, s.(files := s.files.(phase := RecoveryPending)), SetPhase(RecoveryPending)); }
  }

  lemma UnlinkDuly(tx: Transaction, s: State)
    requires Duly(tx, s) && (Running(s) ==> Due(tx, s.script.done, DropLink))
    ensures var t := Unlink(tx, s);
            Duly(tx, t) && Later(s, t) && t.files.assets == s.files.assets && t.files.phase == s.files.phase
  {
    if Running(s) {
      var s1 := s.(files := s.files.(linked := false));
      ExecutePlain(tx, s1, DropLink);
      var t := Execute(tx, s1, DropLink);
      if Running(t) { EvidenceDuly(tx, t); }
    }
  }

  lemma EvidenceDuly(tx: Transaction, s: State)
    requires Duly(tx, s) && Running(s) && EndsWith(s.script.done, DropLink)
    ensures var t := Execute(tx, s.(files := s.files.(evidence := false)), DropEvidence);
            Duly(tx, t) && Later(s, t) && t.files.assets == s.files.assets && t.files.phase == s.files.phase
  {
    ExecutePlain(tx, s.(files := s.files.(evidence := false)), DropEvidence);
  }

  lemma ForgetDuly(tx: Transaction, s: State)
    requires Duly(tx, s) && (Running(s) ==> Back(tx, s.script.done) && Due(tx, s.script.done, DropLink))
    ensures Well(tx, s, Forget(tx, s))
  {
    if Running(s) {
      UnlinkDuly(tx, s.(settlement := Some(Decision(s, false))));
      if RemoveUnits in s.script.done { NoUnitsRemoved(tx, s.script.done); }
    }
  }

  lemma RetainDuly(tx: Transaction, s: State)
    requires Duly(tx, s) && (Running(s) ==> s.script.done == [Load, Fetch, ReadMarker])
    ensures Well(tx, s, Retain(tx, s))
  {
    if Running(s) {
      var t := s.(settlement := Some(Decision(s, true)), files := s.files.(phase := Committed));
      ExecutePlain(tx, t, SetPhase(Committed));
      UnlinkDuly(tx, Execute(tx, t, SetPhase(Committed)));
    }
  }

  lemma BackNext(tx: Transaction, done: seq<Act>, act: Act)
    requires Back(tx, done) && !Selects(act)
    ensures Back(tx, done + [act])
  {
    if tx.previousActive {
      forall j | 0 <= j < |done + [act]| && Selects((done + [act])[j]) ensures exists m: nat :: j < m && Renewal(done + [act], m) {
        var m: nat :| j < m && Renewal(done, m);
        assert Renewal(done + [act], m);
      }
    }
  }

  lemma RequireDuly(tx: Transaction, s: State)
    requires Duly(tx, s) && (Running(s) ==> Back(tx, s.script.done))
    ensures var t := RequireRestoredConnection(tx, s);
            Well(tx, s, t) && (Running(t) ==> Back(tx, t.script.done) && t.settlement == s.settlement)
  {
    if Running(s) && tx.previousActive {
      ExecutePlain(tx, s.(script := s.script.(markerSeen := s.world.marker)), ReadMarker);
      BackNext(tx, s.script.done, ReadMarker);
      WaitDuly(tx, TestMarker(tx, s));
    }
  }

  lemma FinishUndoneDuly(tx: Transaction, s: State)
    requires Duly(tx, s) && (Running(s) ==> Back(tx, s.script.done))
    ensures Well(tx, s, FinishUndone(tx, s))
  {
    if Running(s) {
      ExecutePlain(tx, s.(files := s.files.(phase := RolledBack)), SetPhase(RolledBack));
      BackNext(tx, s.script.done, SetPhase(RolledBack));
      ForgetDuly(tx, WritePhase(tx, s, RolledBack));
    }
  }

  lemma RecoverUndoneDuly(tx: Transaction, s: State)
    requires Duly(tx, s) && (Running(s) ==> Untouched(s.script.done))
    ensures Well(tx, s, RecoverUndone(tx, s))
  {
    RestoreLocalDuly(tx, s);
    var t := RestoreLocal(tx, s);
    RequireDuly(tx, t);
    FinishUndoneDuly(tx, RequireRestoredConnection(tx, t));
  }

  lemma RollbackDuly(tx: Transaction, s: State)
    requires Duly(tx, s) && Running(s) && s.script.done == [Load, Fetch]
    ensures var t := Rollback(tx, s); Duly(tx, t) && Later(s, t) && t.script.done == [Load, Fetch, PostRollback]
  {
    var a := Told(s);
    var cancels := !Terminal(s.world.remote) && (Accepted(a.code) || (a.processed && !WindowClosed(a.code)));
    ExecutePlain(tx, s.(world := if cancels then s.world.(remote := Cancelled) else s.world,
                       script := s.script.(rollback := a.code)), PostRollback);
  }

  lemma RecoverPendingDuly(tx: Transaction, s: State)
    requires Duly(tx, s) && Running(s) && s.script.done == [Load, Fetch]
    ensures Well(tx, s, RecoverPending(tx, s))
  {
    RollbackDuly(tx, s);
    var t := Rollback(tx, s);
    if Running(t) && Accepted(t.script.rollback) {
      RestoreLocalDuly(tx, t);
      if tx.previousActive { WaitDuly(tx, RestoreLocal(tx, t)); } else { FinishUndoneDuly(tx, RestoreLocal(tx, t)); }
    }
  }

  lemma DropNoteDuly(tx: Transaction, s: State)
    requires Duly(tx, s) && (Running(s) ==> Due(tx, s.script.done, RemoveNote))
    ensures Well(tx, s, DropNote(tx, s))
  {
    if Running(s) {
      var u := s.(files := s.files.(previousSelected := false));
      ExecutePlain(tx, u, RemoveNote);
      assert EndsWith(Execute(tx, u, RemoveNote).script.done, RemoveNote);
    }
  }

  lemma UndoCommitDuly(tx: Transaction, s: State)
    requires Duly(tx, s) && Running(s) && s.script.done == [Load, Fetch]
    ensures Well(tx, s, UndoCommit(tx, s))
  {
    RollbackDuly(tx, s);
    var t := Rollback(tx, s);
    if Running(t) {
      if Accepted(t.script.rollback) {
        RestoreLocalDuly(tx, t);
        if tx.previousActive { WaitDuly(tx, RestoreLocal(tx, t)); } else { ForgetDuly(tx, RestoreLocal(tx, t)); }
      } else if WindowClosed(t.script.rollback) {
        RestoreCandidateDuly(tx, t);
        DropNoteDuly(tx, RestoreCandidate(tx, t));
      }
    }
  }

  lemma KeepCommitDuly(tx: Transaction, s: State)
    requires Duly(tx, s) && Running(s) && s.script.done == [Load, Fetch]
    ensures Well(tx, s, KeepCommit(tx, s))
  {
    ExecutePlain(tx, s.(script := s.script.(markerSeen := s.world.marker)), ReadMarker);
    RetainDuly(tx, TestMarker(tx, s));
  }

  lemma RecoverControlDuly(tx: Transaction, s: State)
    requires Duly(tx, s) && s.script.done == [Load] && s.script.status != Exit(75)
    ensures Well(tx, s, RecoverControl(tx, s))
  {
    if Running(s) {
      var s1 := s.(script := s.script.(report := Some(Report(s.world.remote, s.world.connected))));
      ExecutePlain(tx, s1, Fetch);
      var t := FetchStatus(tx, s);
      if Running(t) && t.script.done == [Load, Fetch] {
        match t.script.report.value.status
        case Completed => if t.files.previousSelected { UndoCommitDuly(tx, t); } else { KeepCommitDuly(tx, t); }
        case Cancelled => RecoverUndoneDuly(tx, t);
        case Expired => RecoverUndoneDuly(tx, t);
        case Exchanged => RecoverPendingDuly(tx, t);
        case Verified => RecoverPendingDuly(tx, t);
        case Unknown =>
      }
    }
  }

  lemma RecoverDuly(tx: Transaction, s: State, oracle: Oracle)
    requires s.files.assets && Fair(tx, s)
    ensures var t := Recover(tx, s, oracle); Duly(tx, t) && Fair(tx, t) && (t.script.status == Exit(75) ==> Says(t.script.done))
  {
    var t := Started(s, oracle);
    assert Duly(tx, t) && t.script.done == [];
    if s.files.linked {
      if s.files.phase == Committed {
        UnlinkDuly(tx, t);
      } else {
        ExecutePlain(tx, t, Load);
        var u := Execute(tx, t, Load);
        if tx.control { RecoverControlDuly(tx, u); } else { RecoverUndoneDuly(tx, u); }
        var v := Recover(tx, s, oracle);
        if RemoveUnits in v.script.done { NoUnitsRemoved(tx, v.script.done); }
      }
    }
  }

  lemma {:induction false} RecoveriesFair(tx: Transaction, s: State, oracles: seq<Oracle>)
    requires Start(s)
    ensures Fair(tx, Recoveries(tx, s, oracles))
  {
    if oracles != [] {
      var t := Recoveries(tx, s, oracles[..|oracles| - 1]);
      RecoveriesFair(tx, s, oracles[..|oracles| - 1]);
      if t.files.assets { RecoverDuly(tx, t, oracles[|oracles| - 1]); }
    }
  }

  lemma {:induction false} LastRun(tx: Transaction, s: State, oracles: seq<Oracle>)
    requires Start(s) && oracles != []
    ensures var t := Recoveries(tx, s, oracles); Duly(tx, t) && (t.script.status == Exit(75) ==> Says(t.script.done))
  {
    var before := oracles[..|oracles| - 1];
    var t := Recoveries(tx, s, before);
    RecoveriesFair(tx, s, before);
    if t.files.assets {
      RecoverDuly(tx, t, oracles[|oracles| - 1]);
    } else {
      assert before != [];
      LastRun(tx, s, before);
    }
  }

  // In every run of every history each command is issued only when it is due, and a run that
  // asks to be run again after it has replaced something ends with the command that says why.
  lemma CommandsAreDue(tx: Transaction, s: State, oracles: seq<Oracle>, k: nat)
    requires Start(s) && oracles != [] && k < |Recoveries(tx, s, oracles).script.done|
    ensures var done := Recoveries(tx, s, oracles).script.done; Due(tx, done[..k], done[k])
    ensures Recoveries(tx, s, oracles).script.status == Exit(75) ==> Says(Recoveries(tx, s, oracles).script.done)
  {
    LastRun(tx, s, oracles);
    assert DueAt(tx, Recoveries(tx, s, oracles).script.done, k);
  }

  // What is read of a running service is its own: between a replacement of node path, link or
  // environment and the test of the marker the service was found inactive, or its marker was
  // removed and its restart issued.
  lemma MarkerIsOfTheRestarted(tx: Transaction, s: State, oracles: seq<Oracle>, j: nat, k: nat)
    requires Start(s) && oracles != [] && j < k < |Recoveries(tx, s, oracles).script.done|
    requires var done := Recoveries(tx, s, oracles).script.done; Selects(done[j]) && done[k].ReadMarker?
    ensures var done := Recoveries(tx, s, oracles).script.done;
            exists m: nat :: j < m < k && Renewal(done[..k], m)
  {
    CommandsAreDue(tx, s, oracles, k);
    var done := Recoveries(tx, s, oracles).script.done;
    assert done[..k][j] == done[j];
  }

  // Where the link is always set again, every run that comes to test the marker after restoring
  // has renewed the service itself, however often earlier runs were stopped.
  lemma RenewedInEveryRun(tx: Transaction, s: State, oracles: seq<Oracle>, k: nat)
    requires Start(s) && oracles != [] && AlwaysRelinks(tx)
    requires var done := Recoveries(tx, s, oracles).script.done;
             k < |done| && done[k].ReadMarker? && Replace(Actions) in done[..k]
    ensures var done := Recoveries(tx, s, oracles).script.done;
            exists j: nat, m: nat :: j < m < k && done[j] == Replace(Link) && Renewal(done[..k], m)
  {
    var done := Recoveries(tx, s, oracles).script.done;
    var i :| 0 <= i < k && done[..k][i] == Replace(Actions);
    CommandsAreDue(tx, s, oracles, i);
    assert Replace(Link) in done[..i];
    var j :| 0 <= j < i && done[..i][j] == Replace(Link);
    MarkerIsOfTheRestarted(tx, s, oracles, j, k);
  }

  // The answers to a run that is killed by its second command.
  function Killed(a: Answer): Oracle {
    Then(a, Then(a.(ending := Dies), Silence))
  }

  lemma KilledRun(tx: Transaction, s: State, a: Answer)
    requires Start(s) && s.files.phase != Committed && !tx.control && Calm(a)
    requires s.files.installed == tx.previous.(env := s.files.installed.env) && s.files.installed.env != tx.previous.env
    requires !AlwaysRelinks(tx)
    ensures var t := Recover(tx, s, Killed(a));
            && t.script.done == [Load, Replace(Environment)] && t.files == s.files.(installed := tx.previous) && t.settlement.None?
  {
    var u := Execute(tx, Started(s, Killed(a)), Load);
    assert Running(u) && u.files == s.files && u.script.done == [Load] && u.script.oracle == Killed(a).rest;
    assert RestoreLink(tx, RestoreNode(tx, u)) == u;
    var v := RestoreEnv(tx, u);
    assert !Running(v) && v.files == s.files.(installed := tx.previous) && v.script.done == [Load] + [Replace(Environment)];
  }

  // But where it is not, because the release is the same or was not recorded, a run that was
  // killed after it had put the previous environment back is followed by one that finds
  // nothing to change: it does not restart the service, takes the marker of the process that
  // still runs with the candidate's environment for the restored one's, and forgets the
  // transaction.
  lemma KilledBeforeTheRestart(tx: Transaction, s: State, a: Answer)
    requires Start(s) && s.files.phase != Committed && !tx.control && tx.previousActive && tx.previousInstallation && Calm(a)
    requires s.files.installed == tx.previous.(env := s.files.installed.env) && s.files.installed.env != tx.previous.env
    requires !AlwaysRelinks(tx)
    ensures var t := Recover(tx, s, Killed(a));
            var u := Recover(tx, t, Repeat(a, ENOUGH));
            && Replace(Environment) in t.script.done && Restart !in t.script.done && Restart !in u.script.done
            && !u.files.linked && u.settlement.Some? && !u.settlement.value.kept
  {
    KilledRun(tx, s, a);
    var t := Recover(tx, s, Killed(a));
    QuietRestoration(tx, t, a);
    QuietLoad(tx, t, a, 13);
    var v := Execute(tx, Started(t, Repeat(a, ENOUGH)), Load);
    assert v.script.done == [Load];
    Fewer(tx, v, a, 13, 6);
    NothingToRestore(tx, v, a);
  }

  lemma NothingToRestore(tx: Transaction, s: State, a: Answer)
    requires Quiet(tx, s, a, 6) && s.script.done == [Load] && s.files.installed == tx.previous && s.settlement.None?
    requires !tx.control && tx.previousActive && tx.previousInstallation
    requires !AlwaysRelinks(tx)
    ensures var t := RecoverUndone(tx, s); Restart !in t.script.done && t.settlement.Some? && !t.settlement.value.kept
  {
    UnchangedRestore(tx, s, a);
    var t := RestoreLocal(tx, s);
    QuietExecute(tx, t.(script := t.script.(markerSeen := t.world.marker)), ReadMarker, a, 4);
    var u := TestMarker(tx, t);
    assert RequireRestoredConnection(tx, t) == u && Restart !in u.script.done;
    QuietExecute(tx, u.(files := u.files.(phase := RolledBack)), SetPhase(RolledBack), a, 3);
    var v := WritePhase(tx, u, RolledBack);
    assert Restart !in v.script.done && Running(v);
    UnlinkDoesNotRestart(tx, v.(settlement := Some(Decision(v, false))));
  }

  lemma UnchangedRestore(tx: Transaction, s: State, a: Answer)
    requires Quiet(tx, s, a, 6) && s.script.done == [Load] && s.files.installed == tx.previous
    requires tx.previousInstallation && !AlwaysRelinks(tx)
    ensures var t := RestoreLocal(tx, s);
            Quiet(tx, t, a, 5) && t.files == s.files && t.settlement == s.settlement && t.script.done == [Load, Replace(Actions)]
  {
    assert RestoreEnv(tx, RestoreLink(tx, RestoreNode(tx, s))) == s;
    QuietInstall(tx, s, Actions, s.files.installed.(actions := tx.previous.actions), a, 5);
    assert RestoreLocal(tx, s).script.done == [Load] + [Replace(Actions)];
  }

  lemma UnlinkDoesNotRestart(tx: Transaction, s: State)
    requires Restart !in s.script.done
    ensures Restart !in Unlink(tx, s).script.done && Unlink(tx, s).settlement == s.settlement
  {
  }

  // The units of a host that had AgentV before stay in every run; those of a first
  // installation are gone if it was given up, and there if it was kept.
  lemma UnitsFollowTheOutcome(tx: Transaction, s: State, oracles: seq<Oracle>)
    requires Start(s)
    ensures var t := Recoveries(tx, s, oracles);
            && (tx.previousInstallation ==> t.files.assets)
            && (t.settlement.Some? ==> (t.files.assets <==> t.settlement.value.kept || tx.previousInstallation))
  {
    RecoveriesFair(tx, s, oracles);
  }

  // --- Recovery ends ---

  lemma QuietWait(tx: Transaction, s: State, a: Answer)
    requires Quiet(tx, s, a, 1)
    ensures var t := WaitForConnection(tx, s); t.files == s.files.(phase := RecoveryPending) && t.world.remote == s.world.remote
  {
    QuietExecute(tx, s.(files := s.files.(phase := RecoveryPending)), SetPhase(RecoveryPending), a, 0);
  }

  lemma QuietRollback(tx: Transaction, s: State, a: Answer, n: nat)
    requires Quiet(tx, s, a, n + 1) && !Terminal(s.world.remote)
    ensures var t := Rollback(tx, s);
            && Quiet(tx, t, a, n) && t.files == s.files && t.script.rollback == a.code
            && t.world.remote == if Accepted(a.code) then Cancelled else s.world.remote
  {
    var world := if Accepted(a.code) then s.world.(remote := Cancelled) else s.world;
    QuietExecute(tx, s.(world := world, script := s.script.(rollback := a.code)), PostRollback, a, n);
  }

  // After a rollback: the transaction is forgotten, or waits for its connection.
  predicate RolledBackTo(tx: Transaction, s: State, t: State) {
    if tx.previousActive then
      Open(t) && t.world.remote == Cancelled && t.files.assets == (s.files.assets && tx.previousInstallation)
    else !t.files.linked
  }

  lemma QuietPending(tx: Transaction, s: State, a: Answer)
    requires Quiet(tx, s, a, 12) && Open(s) && Accepted(a.code) && !Terminal(s.world.remote)
    ensures RolledBackTo(tx, s, RecoverPending(tx, s))
  {
    QuietRollback(tx, s, a, 11);
    var t := Rollback(tx, s);
    QuietRestore(tx, t, a, 4);
    var u := RestoreLocal(tx, t);
    if tx.previousActive {
      Fewer(tx, u, a, 4, 1);
      QuietWait(tx, u, a);
    } else {
      Fewer(tx, u, a, 4, 3);
      QuietForget(tx, u, a);
    }
  }

  lemma QuietUndoCommit(tx: Transaction, s: State, a: Answer)
    requires Quiet(tx, s, a, 12) && Open(s) && Accepted(a.code) && !Terminal(s.world.remote)
    ensures RolledBackTo(tx, s, UndoCommit(tx, s))
  {
    QuietRollback(tx, s, a, 11);
    var t := Rollback(tx, s);
    QuietRestore(tx, t, a, 4);
    var u := RestoreLocal(tx, t);
    if tx.previousActive {
      Fewer(tx, u, a, 4, 1);
      QuietWait(tx, u, a);
    } else {
      Fewer(tx, u, a, 4, 2);
      QuietUnlink(tx, u.(settlement := Some(Decision(u, false))), a);
    }
  }

  lemma QuietSelectCandidate(tx: Transaction, s: State, a: Answer, n: nat)
    requires Quiet(tx, s, a, n + 4)
    ensures var t := SelectCandidate(tx, s);
            Quiet(tx, t, a, n) && t.files == s.files.(installed := tx.candidate) && t.world == s.world
  {
    QuietInstall(tx, s, Node, s.files.installed.(nodePath := tx.candidate.nodePath), a, n + 3);
    var s1 := Install(tx, s, Node, s.files.installed.(nodePath := tx.candidate.nodePath));
    QuietInstall(tx, s1, Link, s1.files.installed.(current := tx.candidate.current), a, n + 2);
    var s2 := Install(tx, s1, Link, s1.files.installed.(current := tx.candidate.current));
    QuietInstall(tx, s2, Environment, s2.files.installed.(env := tx.candidate.env), a, n + 1);
    var s3 := Install(tx, s2, Environment, s2.files.installed.(env := tx.candidate.env));
    QuietInstall(tx, s3, Actions, s3.files.installed.(actions := tx.candidate.actions), a, n);
  }

  // A rollback that comes too late leaves the candidate selected, without the note.
  lemma QuietTooLate(tx: Transaction, s: State, a: Answer)
    requires Quiet(tx, s, a, 12) && Open(s) && WindowClosed(a.code) && s.world.remote == Completed && CandidateRecorded(tx)
    ensures var t := UndoCommit(tx, s);
            t.files == s.files.(installed := tx.candidate, previousSelected := false) && t.world.remote == Completed
  {
    QuietRollback(tx, s, a, 11);
    var t := Rollback(tx, s);
    QuietSelectCandidate(tx, t, a, 7);
    QuietRestart(tx, SelectCandidate(tx, t), a, 5);
    var u := RestoreCandidate(tx, t);
    QuietExecute(tx, u.(files := u.files.(previousSelected := false)), RemoveNote, a, 4);
  }

  // The first of two calm runs of a transaction that has to be rolled back.
  lemma QuietFirst(tx: Transaction, s: State, a: Answer)
    requires Open(s) && Calm(a) && tx.control
    requires var r := Settled(tx, s.world.remote, a); Pending(r) || (r.Completed? && s.files.previousSelected)
    ensures var t := Recover(tx, s, Repeat(a, ENOUGH));
            var r := Settled(tx, s.world.remote, a);
            && (Accepted(a.code) ==> RolledBackTo(tx, s, t))
            && (r.Completed? && WindowClosed(a.code) && CandidateRecorded(tx) ==>
                  t.files == s.files.(installed := tx.candidate, previousSelected := false) && t.world.remote == Completed)
  {
    QuietLoad(tx, s, a, 13);
    var t := Execute(tx, Started(s, Repeat(a, ENOUGH)), Load);
    QuietFetch(tx, t, a, 12);
    var u := FetchStatus(tx, t);
    if Pending(u.world.remote) {
      if Accepted(a.code) { QuietPending(tx, u, a); }
    } else {
      if Accepted(a.code) { QuietUndoCommit(tx, u, a); }
      if WindowClosed(a.code) && CandidateRecorded(tx) { QuietTooLate(tx, u, a); }
    }
  }

  // What a calm world needs for that: an answer to every rollback that is asked for. With an
  // unknown status, without such an answer, or without its files a transaction has to wait.
  predicate CanEnd(tx: Transaction, s: State, a: Answer) {
    var r := Settled(tx, s.world.remote, a);
    || s.files.phase.Committed? || !tx.control || Terminal(r)
    || (r.Completed? && !s.files.previousSelected)
    || (!r.Unknown? && Accepted(a.code) && (tx.previousActive ==> tx.previousInstallation))
    || (r.Completed? && WindowClosed(a.code) && CandidateRecorded(tx))
  }

  // In a calm world two runs end the transaction, and from a safe start both sides agree then.
  lemma TwoCalmRunsEnd(tx: Transaction, s: State, a: Answer)
    requires Start(s) && Calm(a) && CanEnd(tx, s, a)
    ensures var t := Recoveries(tx, s, [Repeat(a, ENOUGH), Repeat(a, ENOUGH)]);
            !t.files.linked && (SafeStart(tx, s) ==> Agree(tx, t.files.installed, t.world.remote))
  {
    var o := Repeat(a, ENOUGH);
    var t := Recover(tx, s, o);
    FirstCalmRun(tx, s, a);
    OneRun(tx, s, o);
    assert [o, o][..1] == [o];
    if t.files.linked { SecondCalmRun(tx, t, a); }
    if SafeStart(tx, s) { RecoveriesKeep(tx, s, [o, o]); }
  }

  // What one calm run may leave to another.
  predicate Left(tx: Transaction, t: State, a: Answer) {
    && t.files.assets && Open(t) && tx.control
    && (t.world.remote == Cancelled || (t.world.remote == Completed && Settled(tx, Completed, a) == Completed && !t.files.previousSelected))
  }

  lemma FirstCalmRun(tx: Transaction, s: State, a: Answer)
    requires Start(s) && Calm(a) && CanEnd(tx, s, a)
    ensures var t := Recover(tx, s, Repeat(a, ENOUGH)); !t.files.linked || Left(tx, t, a)
  {
    var r := Settled(tx, s.world.remote, a);
    if s.files.phase.Committed? {
      RepeatLasts(a, ENOUGH);
      FewerLast(Repeat(a, ENOUGH), a, ENOUGH, 2);
      QuietUnlink(tx, Started(s, Repeat(a, ENOUGH)), a);
    } else if !tx.control || Terminal(r) {
      QuietRestoration(tx, s, a);
    } else if r.Completed? && !s.files.previousSelected {
      QuietRetention(tx, s, a);
    } else {
      QuietFirst(tx, s, a);
    }
  }

  lemma SecondCalmRun(tx: Transaction, t: State, a: Answer)
    requires Calm(a) && Left(tx, t, a)
    ensures !Recover(tx, t, Repeat(a, ENOUGH)).files.linked
  {
    if t.world.remote == Cancelled { QuietRestoration(tx, t, a); } else { QuietRetention(tx, t, a); }
  }

  class Host {
    const tx: Transaction
    var files: Files
    var world: World
    var script: Script
    var settlement: Option<Settlement>

    ghost function View(): State reads this {
      State(files, world, script, settlement)
    }

    // The recorded files of an installer that was interrupted anywhere.
    constructor (tx: Transaction, phase: Phase, previousSelected: bool, installed: Installation, world: World)
      ensures this.tx == tx && Start(View())
      ensures files == Files(true, true, phase, previousSelected, installed, true) && this.world == world
    {
      this.tx, this.world := tx, world;
      files := Files(true, true, phase, previousSelected, installed, true);
      script, settlement := Script(Continue, None, 0, false, Silence, []), None;
    }

    // The end of one command.
    method Command(act: Act) returns (s: Status)
      requires script.status.Continue?
      modifies this
      ensures View() == Execute(tx, old(View()), act) && s == script.status
    {
      script := script.(done := script.done + [act]);
      match script.oracle {
        case Silence => script := script.(status := Stopped);
        case Then(a, rest) =>
          if RemoteMoves(tx, world.remote, a.world.remote) {
            world := a.world;
          } else {
            world := a.world.(remote := world.remote);
          }
          script := script.(status := match a.ending case GoesOn => Continue case Fails => Exit(1) case Dies => Stopped, oracle := rest);
      }
      s := script.status;
    }

    method Leave(code: nat) returns (s: Status)
      modifies this
      ensures View() == Ends(old(View()), code) && s == Exit(code)
    {
      script := script.(status := Exit(code));
      s := Exit(code);
    }

    method Select(part: Part, next: Installation) returns (s: Status)
      requires script.status.Continue?
      modifies this
      ensures View() == Install(tx, old(View()), part, next) && s == script.status
    {
      files := files.(installed := next);
      s := Command(Replace(part));
    }

    method ReplaceFiles() returns (s: Status, localChanged: bool)
      requires script.status.Continue?
      modifies this
      ensures View() == RestoreFiles(tx, old(View())) && s == script.status
      ensures s == Continue ==> localChanged == LocalChanged(tx, old(View()))
    {
      localChanged := files.installed.nodePath != tx.previous.nodePath;
      if localChanged { :- Select(Node, files.installed.(nodePath := tx.previous.nodePath)); }
      assert View() == RestoreNode(tx, old(View()));
      var candidateRelease := if tx.candidate.current.Some? then tx.candidate.current else files.installed.current;
      var relinked := if tx.previous.current.Some? then candidateRelease != tx.previous.current else files.installed.current.Some?;
      if relinked {
        :- Select(Link, files.installed.(current := tx.previous.current));
        localChanged := true;
      }
      assert View() == RestoreLink(tx, RestoreNode(tx, old(View())));
      if files.installed.env != tx.previous.env {
        :- Select(Environment, files.installed.(env := tx.previous.env));
        localChanged := true;
      }
      assert View() == RestoreEnv(tx, RestoreLink(tx, RestoreNode(tx, old(View()))));
      s := Select(Actions, files.installed.(actions := tx.previous.actions));
    }

    method RestartUnit() returns (s: Status)
      requires script.status.Continue?
      modifies this
      ensures View() == RestartService(tx, old(View())) && s == script.status
    {
      world := world.(marker := false);
      :- Command(ClearMarker);
      s := Command(Restart);
    }

    // restore_local.
    method RestorePrevious() returns (s: Status)
      requires script.status.Continue?
      modifies this
      ensures View() == RestoreLocal(tx, old(View())) && s == script.status
    {
      var localChanged;
      s, localChanged := ReplaceFiles();
      if s != Continue { return; }
      if !tx.previousInstallation {
        files := files.(assets := false);
        :- Command(RemoveUnits);
      }
      if localChanged && tx.previousActive {
        var active := script.oracle.Then? && script.oracle.answer.active;
        script := script.(done := script.done + [AskActive(active)]);
        if active { s := RestartUnit(); }
      }
    }

    // restore_candidate.
    method RestoreCommitted() returns (s: Status)
      requires script.status.Continue?
      modifies this
      ensures View() == RestoreCandidate(tx, old(View())) && s == script.status
    {
      if tx.candidate.current.None? || tx.candidate.env.None? || tx.candidate.actions.None? {
        s := Leave(1);
        return;
      }
      :- Select(Node, files.installed.(nodePath := tx.candidate.nodePath));
      :- Select(Link, files.installed.(current := tx.candidate.current));
      :- Select(Environment, files.installed.(env := tx.candidate.env));
      :- Select(Actions, files.installed.(actions := tx.candidate.actions));
      s := RestartUnit();
    }

    method RequestRollback() returns (s: Status)
      requires script.status.Continue?
      modifies this
      ensures View() == Rollback(tx, old(View())) && s == script.status
    {
      var code, processed := 0, false;
      if script.oracle.Then? { code, processed := script.oracle.answer.code, script.oracle.answer.processed; }
      if !Terminal(world.remote) && (200 <= code < 300 || (processed && code != 401 && code != 409)) {
        world := world.(remote := Cancelled);
      }
      script := script.(rollback := code);
      s := Command(PostRollback);
    }

    method EnterPhase(phase: Phase) returns (s: Status)
      requires script.status.Continue?
      modifies this
      ensures View() == WritePhase(tx, old(View()), phase) && s == script.status
    {
      files := files.(phase := phase);
      s := Command(SetPhase(phase));
    }

    method Wait() returns (s: Status)
      requires script.status.Continue?
      modifies this
      ensures View() == WaitForConnection(tx, old(View())) && s == script.status
    {
      s := Continue;
      :- EnterPhase(RecoveryPending);
      s := Leave(75);
    }

    method LookForMarker() returns (s: Status)
      requires script.status.Continue?
      modifies this
      ensures View() == TestMarker(tx, old(View())) && s == script.status
    {
      script := script.(markerSeen := world.marker);
      s := Command(ReadMarker);
    }

    // require_restored_connection.
    method RequireConnection() returns (s: Status)
      requires script.status.Continue?
      modifies this
      ensures View() == RequireRestoredConnection(tx, old(View())) && s == script.status
    {
      s := Continue;
      if !tx.previousActive { return; }
      :- LookForMarker();
      var connected := script.report.Some? && script.report.value.activeConnected;
      if !script.markerSeen || (tx.control && !connected) { s := Wait(); }
    }

    // The link, and then the directory behind it.
    method DeleteEvidence() returns (s: Status)
      requires script.status.Continue?
      modifies this
      ensures View() == Unlink(tx, old(View())) && s == script.status
    {
      files := files.(linked := false);
      :- Command(DropLink);
      files := files.(evidence := false);
      :- Command(DropEvidence);
      s := Leave(0);
    }

    method Settle(kept: bool)
      modifies `settlement
      ensures settlement == Some(Decision(old(View()), kept))
    {
      var connected := script.report.Some? && script.report.value.activeConnected;
      settlement := Some(Settlement(kept, files.installed, world.remote, script.markerSeen, connected));
    }

    // The case of a completed transaction.
    method RecoverCompleted() returns (s: Status)
      requires script.status.Continue?
      modifies this
      ensures View() == (if old(files).previousSelected then UndoCommit(tx, old(View())) else KeepCommit(tx, old(View())))
      ensures s == script.status
    {
      if files.previousSelected {
        :- RequestRollback();
        if 200 <= script.rollback < 300 {
          :- RestorePrevious();
          if tx.previousActive {
            s := Wait();
            return;
          }
          Settle(false);
          s := DeleteEvidence();
        } else if script.rollback == 401 || script.rollback == 409 {
          :- RestoreCommitted();
          files := files.(previousSelected := false);
          :- Command(RemoveNote);
          s := Leave(75);
        } else {
          s := Leave(75);
        }
        return;
      }
      :- LookForMarker();
      var connected := script.report.Some? && script.report.value.activeConnected;
      if !script.markerSeen || !connected {
        s := Leave(75);
        return;
      }
      Settle(true);
      :- EnterPhase(Committed);
      s := DeleteEvidence();
    }

    // What follows every restoration that needs no more proof.
    method ForgetTransaction() returns (s: Status)
      requires script.status.Continue?
      modifies this
      ensures View() == FinishUndone(tx, old(View())) && s == script.status
    {
      s := Continue;
      :- EnterPhase(RolledBack);
      Settle(false);
      s := DeleteEvidence();
    }

    method RecoverCancelled() returns (s: Status)
      requires script.status.Continue?
      modifies this
      ensures View() == RecoverUndone(tx, old(View())) && s == script.status
    {
      s := Continue;
      :- RestorePrevious();
      :- RequireConnection();
      s := ForgetTransaction();
    }

    method CancelPending() returns (s: Status)
      requires script.status.Continue?
      modifies this
      ensures View() == RecoverPending(tx, old(View())) && s == script.status
    {
      s := Continue;
      :- RequestRollback();
      if !(200 <= script.rollback < 300) {
        s := Leave(75);
        return;
      }
      :- RestorePrevious();
      if tx.previousActive {
        s := Wait();
        return;
      }
      s := ForgetTransaction();
    }

    method RecoverWithControl() returns (s: Status)
      requires script.status.Continue?
      modifies this
      ensures View() == RecoverControl(tx, old(View())) && s == script.status
    {
      if script.oracle.Then? && !script.oracle.answer.reachable {
        s := Leave(75);
        return;
      }
      script := script.(report := Some(Report(world.remote, world.connected)));
      :- Command(Fetch);
      match script.report.value.status {
        case Completed => s := RecoverCompleted();
        case Cancelled => s := RecoverCancelled();
        case Expired => s := RecoverCancelled();
        case Exchanged => s := CancelPending();
        case Verified => s := CancelPending();
        case Unknown => s := Leave(75);
      }
    }

    method RunScript(oracle: Oracle) returns (s: Status)
      modifies this
      ensures View() == Recover(tx, old(View()), oracle) && s == script.status
    {
      script := Script(Continue, None, 0, false, oracle, []);
      if !files.linked {
        s := Leave(0);
        return;
      }
      if files.phase == Committed {
        s := DeleteEvidence();
        return;
      }
      :- Command(Load);
      if tx.control {
        s := RecoverWithControl();
      } else {
        s := RecoverCancelled();
      }
    }
  }
}
