// The helper's runs with the pruning that the ledger really does: what is removed is removed
// for its age or for the number of newer files.
module LedgerRetention {
  import Helper = ActionHelper
  import Pruning = LedgerPruning

  // An event, the time it happens at, and what the directory listing shows then.
  datatype Step = Step(event: Helper.Event, now: int, listing: seq<Pruning.File>)

  function Events(steps: seq<Step>): seq<Helper.Event> {
    seq(|steps|, k requires 0 <= k < |steps| => steps[k].event)
  }

  function Run(steps: seq<Step>): Helper.State {
    Helper.Run(Helper.Init(), Events(steps))
  }

  // The files listed are those of the ledger.
  predicate Lists(s: Helper.State, listing: seq<Pruning.File>) {
    && Pruning.Distinct(listing)
    && forall f :: f in listing ==> f.name in s.disk.ledger
  }

  // A pruning removes no more than its rule allows, and less when a removal fails.
  ghost predicate Legal(s: Helper.State, step: Step) {
    step.event.Prune? ==> Lists(s, step.listing) && step.event.removed <= Pruning.Removed(step.listing, step.now)
  }

  ghost predicate LegalRun(steps: seq<Step>) {
    forall k :: 0 <= k < |steps| ==> Legal(Run(steps[..k]), steps[k])
  }

  // A thousand other files are at least as new.
  ghost predicate Crowded(listing: seq<Pruning.File>, f: Pruning.File) {
    exists others: seq<Pruning.File> :: |others| == Pruning.CAPACITY && Pruning.Distinct(others)
      && forall x :: x in others ==> x in listing && x != f && x.modified >= f.modified
  }

  // At this step the record of id is at most a week old, and not crowded out by others.
  ghost predicate Fresh(step: Step, id: Helper.Id) {
    forall f :: f in step.listing && f.name == id ==> step.now - f.modified <= Pruning.WEEK && !Crowded(step.listing, f)
  }

  // Whenever the ledger is pruned in the run, the record of id is fresh.
  ghost predicate StaysFresh(steps: seq<Step>, id: Helper.Id) {
    forall k :: 0 <= k < |steps| && steps[k].event.Prune? ==> Fresh(steps[k], id)
  }

  lemma FreshIsKept(s: Helper.State, step: Step, id: Helper.Id)
    requires step.event.Prune? && Legal(s, step) && Fresh(step, id)
    ensures id !in step.event.removed
  {
    if id in step.event.removed {
      var sorted := Pruning.Sort(step.listing);
      var k :| 0 <= k < |sorted| && Pruning.Expired(sorted[k], k, step.now) && sorted[k].name == id;
      Pruning.SortKeepsNames(step.listing);
      Pruning.RemovalIsJustified(step.listing, step.now, sorted[k]);
      assert false;
    }
  }

  lemma RunOneMore(steps: seq<Step>)
    requires steps != []
    ensures Run(steps) == Helper.Next(Run(steps[..|steps| - 1]), steps[|steps| - 1].event)
  {
    assert Events(steps)[..|steps| - 1] == Events(steps[..|steps| - 1]);
  }

  lemma PrunedOnlyByPruning(s: Helper.State, e: Helper.Event, id: Helper.Id)
    requires id !in s.disk.pruned && (e.Prune? ==> id !in e.removed)
    ensures id !in Helper.Next(s, e).disk.pruned
  {
  }

  lemma {:induction false} FreshIsNotPruned(steps: seq<Step>, id: Helper.Id)
    requires LegalRun(steps) && StaysFresh(steps, id)
    ensures id !in Run(steps).disk.pruned
  {
    if steps != [] {
      var n := |steps| - 1;
      forall k | 0 <= k < n ensures Legal(Run(steps[..n][..k]), steps[..n][k]) {
        assert steps[..n][..k] == steps[..k];
      }
      FreshIsNotPruned(steps[..n], id);
      assert Legal(Run(steps[..n]), steps[n]);
      if steps[n].event.Prune? { FreshIsKept(Run(steps[..n]), steps[n], id); }
      RunOneMore(steps);
      PrunedOnlyByPruning(Run(steps[..n]), steps[n].event, id);
    }
  }

  // Over any run in which pruning keeps its rule, an operation is restarted at most once as
  // long as its record is at most a week old and has fewer than a thousand others as new
  // whenever the ledger is pruned, and is not lost with power.
  lemma AtMostOneRestartWhileFresh(steps: seq<Step>, id: Helper.Id)
    requires LegalRun(steps) && StaysFresh(steps, id)
    ensures var s := Run(steps);
            id !in s.disk.lost ==>
              Helper.Count(s.restarts, id) <= 1 && (Helper.Count(s.restarts, id) == 1 ==> id in s.disk.ledger)
  {
    FreshIsNotPruned(steps, id);
    Helper.AtMostOneRestart(Events(steps), id);
  }
}
