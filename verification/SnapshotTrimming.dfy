// The removal loop that both snapshot managers run before sending: rows are popped off the
// optional sections, in a fixed order, until the snapshot fits its byte budget.
module SnapshotTrimming {
  import opened Options

  // `required` stands for the findings, the coverage, the health and the host summary.
  datatype Snapshot<T, R> = Snapshot(
    processes: seq<T>, listeners: seq<T>, filesystems: seq<T>, services: seq<T>,
    truncated: Counters, required: R)

  datatype Counters = Counters(processes: nat, listeners: nat, filesystems: nat, services: nat)

  function Rows<T, R>(s: Snapshot<T, R>): nat {
    |s.processes| + |s.listeners| + |s.filesystems| + |s.services|
  }

  // One turn of the loop: the first section that still has rows loses its last one.
  function Pop<T, R>(s: Snapshot<T, R>): Snapshot<T, R> {
    var t := s.truncated;
    if s.processes != [] then
      s.(processes := s.processes[..|s.processes| - 1], truncated := t.(processes := t.processes + 1))
    else if s.listeners != [] then
      s.(listeners := s.listeners[..|s.listeners| - 1], truncated := t.(listeners := t.listeners + 1))
    else if s.filesystems != [] then
      s.(filesystems := s.filesystems[..|s.filesystems| - 1], truncated := t.(filesystems := t.filesystems + 1))
    else if s.services != [] then
      s.(services := s.services[..|s.services| - 1], truncated := t.(services := t.services + 1))
    else s
  }

  function Popped<T, R>(s: Snapshot<T, R>, k: nat): Snapshot<T, R> {
    if k == 0 then s else Pop(Popped(s, k - 1))
  }

  // The same state described directly: k rows are taken off the back of the sections, the
  // processes first, then the listeners, the filesystems and the services.
  function Taken(k: int, length: nat): nat {
    if k <= 0 then 0 else if k <= length then k else length
  }

  function Cut<T, R>(s: Snapshot<T, R>, k: nat): Snapshot<T, R> {
    var p, l, f, v := |s.processes|, |s.listeners|, |s.filesystems|, |s.services|;
    var a, b, c, d := Taken(k, p), Taken(k - p, l), Taken(k - p - l, f), Taken(k - p - l - f, v);
    Snapshot(s.processes[..p - a], s.listeners[..l - b], s.filesystems[..f - c], s.services[..v - d],
             Counters(s.truncated.processes + a, s.truncated.listeners + b,
                      s.truncated.filesystems + c, s.truncated.services + d), s.required)
  }

  lemma PopProcesses<T, R>(s: Snapshot<T, R>, k: nat)
    requires k < |s.processes|
    ensures Pop(Cut(s, k)) == Cut(s, k + 1)
  {
    var p := |s.processes|;
    assert s.processes[..p - k][..p - k - 1] == s.processes[..p - k - 1];
  }

  lemma PopListeners<T, R>(s: Snapshot<T, R>, k: nat)
    requires 0 <= k - |s.processes| < |s.listeners|
    ensures Pop(Cut(s, k)) == Cut(s, k + 1)
  {
    var n := |s.processes| + |s.listeners| - k;
    assert s.listeners[..n][..n - 1] == s.listeners[..n - 1];
  }

  lemma PopFilesystems<T, R>(s: Snapshot<T, R>, k: nat)
    requires 0 <= k - |s.processes| - |s.listeners| < |s.filesystems|
    ensures Pop(Cut(s, k)) == Cut(s, k + 1)
  {
    var n := |s.processes| + |s.listeners| + |s.filesystems| - k;
    assert s.filesystems[..n][..n - 1] == s.filesystems[..n - 1];
  }

  lemma PopServices<T, R>(s: Snapshot<T, R>, k: nat)
    requires 0 <= k - |s.processes| - |s.listeners| - |s.filesystems|
    ensures Pop(Cut(s, k)) == Cut(s, k + 1)
  {
    var n := Rows(s) - k;
    if n > 0 { assert s.services[..n][..n - 1] == s.services[..n - 1]; }
  }

  lemma PopOfCut<T, R>(s: Snapshot<T, R>, k: nat)
    ensures Pop(Cut(s, k)) == Cut(s, k + 1)
  {
    if k < |s.processes| {
      PopProcesses(s, k);
    } else if k - |s.processes| < |s.listeners| {
      PopListeners(s, k);
    } else if k - |s.processes| - |s.listeners| < |s.filesystems| {
      PopFilesystems(s, k);
    } else {
      PopServices(s, k);
    }
  }

  lemma CutNothing<T, R>(s: Snapshot<T, R>)
    ensures Cut(s, 0) == s
  {
    assert s.processes[..|s.processes|] == s.processes && s.listeners[..|s.listeners|] == s.listeners;
    assert s.filesystems[..|s.filesystems|] == s.filesystems && s.services[..|s.services|] == s.services;
  }

  lemma PoppedOnce<T, R>(s: Snapshot<T, R>, k: nat, next: Snapshot<T, R>)
    requires Pop(Popped(s, k)) == next
    ensures Popped(s, k + 1) == next
  {
  }

  // Popping k times is cutting k rows, whatever the cut is a name for.
  lemma {:induction false} PoppedIs<T, R>(s: Snapshot<T, R>, cuts: seq<Snapshot<T, R>>, k: nat)
    requires k < |cuts| && cuts[0] == s
    requires forall j :: 0 <= j < k ==> Pop(cuts[j]) == cuts[j + 1]
    ensures Popped(s, k) == cuts[k]
  {
    if k > 0 {
      PoppedIs(s, cuts, k - 1);
      assert Pop(cuts[k - 1]) == cuts[k - 1 + 1];
      PoppedOnce(s, k - 1, cuts[k]);
    }
  }

  lemma {:induction false} PoppedIsCut<T, R>(s: Snapshot<T, R>, k: nat)
    ensures Popped(s, k) == Cut(s, k)
  {
    var cuts := seq(k + 1, j requires 0 <= j => Cut(s, j));
    CutNothing(s);
    forall j | 0 <= j < k ensures Pop(cuts[j]) == cuts[j + 1] { PopOfCut(s, j); }
    PoppedIs(s, cuts, k);
  }

  // Trimming leaves the required part alone, keeps every section a prefix of what it was,
  // and keeps retained rows plus truncation counter constant per section.
  lemma {:induction false} PoppingConserves<T, R>(s: Snapshot<T, R>, k: nat)
    ensures var t := Popped(s, k);
            && t.required == s.required
            && t.processes <= s.processes && t.listeners <= s.listeners
            && t.filesystems <= s.filesystems && t.services <= s.services
            && |t.processes| + t.truncated.processes == |s.processes| + s.truncated.processes
            && |t.listeners| + t.truncated.listeners == |s.listeners| + s.truncated.listeners
            && |t.filesystems| + t.truncated.filesystems == |s.filesystems| + s.truncated.filesystems
            && |t.services| + t.truncated.services == |s.services| + s.truncated.services
    ensures Rows(Popped(s, k)) == if k <= Rows(s) then Rows(s) - k else 0
  {
    PoppedIsCut(s, k);
  }

  // A section loses rows only when all sections before it in the order are empty.
  lemma {:induction false} OrderOfRemoval<T, R>(s: Snapshot<T, R>, k: nat)
    ensures var t := Popped(s, k);
            && (t.listeners != s.listeners ==> t.processes == [])
            && (t.filesystems != s.filesystems ==> t.listeners == [] && t.processes == [])
            && (t.services != s.services ==> t.filesystems == [] && t.listeners == [] && t.processes == [])
  {
    PoppedIsCut(s, k);
  }

  // `trimmed` is the first state of the removal order that fits, or the last one there is.
  ghost predicate FirstFit<T, R>(s: Snapshot<T, R>, size: Snapshot<T, R> -> nat, budget: int, k: nat) {
    && k <= Rows(s)
    && (size(Popped(s, k)) <= budget || k == Rows(s))
    && forall j: nat :: j < k ==> size(Popped(s, j)) > budget
  }

  lemma FirstFitIsUnique<T, R>(s: Snapshot<T, R>, size: Snapshot<T, R> -> nat, budget: int, j: nat, k: nat)
    requires FirstFit(s, size, budget, j) && FirstFit(s, size, budget, k)
    ensures j == k
  {
  }

  method Trim<T, R>(snapshot: Snapshot<T, R>, size: Snapshot<T, R> -> nat, budget: int)
    returns (s: Snapshot<T, R>, ghost k: nat)
    ensures FirstFit(snapshot, size, budget, k) && s == Popped(snapshot, k)
    ensures forall j: nat :: FirstFit(snapshot, size, budget, j) ==> s == Popped(snapshot, j)
    ensures size(s) <= budget || Rows(s) == 0
  {
    s, k := snapshot, 0;
    while size(s) > budget && Rows(s) > 0
      invariant k <= Rows(snapshot) && s == Popped(snapshot, k)
      invariant Rows(s) == Rows(snapshot) - k
      invariant forall j: nat :: j < k ==> size(Popped(snapshot, j)) > budget
      decreases Rows(s)
    {
      s := Pop(s);
      k := k + 1;
    }
    forall j: nat | FirstFit(snapshot, size, budget, j) ensures s == Popped(snapshot, j) {
      FirstFitIsUnique(snapshot, size, budget, j, k);
    }
  }

  const OVERHEAD := 1024  // bytes reserved for the notification around the snapshot

  // What is left of a collection after trimming, on Linux: the snapshot itself and the
  // notification around it must each fit before it is compressed.
  method PrepareLinux<T, R>(snapshot: Snapshot<T, R>, maxBytes: int,
                            size: Snapshot<T, R> -> nat, wrapped: Snapshot<T, R> -> nat)
    returns (r: Option<Snapshot<T, R>>)
    ensures r.Some? ==> size(r.value) <= Budget(maxBytes) && wrapped(r.value) <= maxBytes
    ensures exists k :: FirstFit(snapshot, size, Budget(maxBytes), k)
              && (r.Some? <==> size(Popped(snapshot, k)) <= Budget(maxBytes) && wrapped(Popped(snapshot, k)) <= maxBytes)
              && (r.Some? ==> r.value == Popped(snapshot, k))
  {
    var s, k := Trim(snapshot, size, Budget(maxBytes));
    if size(s) > Budget(maxBytes) || wrapped(s) > maxBytes { return None; }
    return Some(s);
  }

  function Budget(maxBytes: int): nat {
    if maxBytes > OVERHEAD then maxBytes - OVERHEAD else 0
  }

  // On Windows the notification and its compressed form decide; both are checked in the same
  // synchronous step as the trimming.
  method PrepareWindows<T, R>(snapshot: Snapshot<T, R>, maxBytes: int, size: Snapshot<T, R> -> nat,
                              wrapped: Snapshot<T, R> -> nat, compressed: Snapshot<T, R> -> nat)
    returns (r: Option<Snapshot<T, R>>)
    ensures r.Some? ==> wrapped(r.value) <= maxBytes && compressed(r.value) <= maxBytes
    ensures exists k :: FirstFit(snapshot, size, maxBytes - OVERHEAD, k)
              && (r.Some? <==> wrapped(Popped(snapshot, k)) <= maxBytes && compressed(Popped(snapshot, k)) <= maxBytes)
              && (r.Some? ==> r.value == Popped(snapshot, k))
  {
    var s, k := Trim(snapshot, size, maxBytes - OVERHEAD);
    if wrapped(s) > maxBytes || compressed(s) > maxBytes { return None; }
    return Some(s);
  }
}
