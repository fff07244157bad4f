// How the ledger is kept bounded: files older than a week, or beyond the thousand newest,
// are removed one by one.
module LedgerPruning {

  datatype File = File(name: string, modified: int)

  const WEEK := 7 * 24 * 60 * 60 * 1000
  const CAPACITY := 1000

  predicate NewestFirst(files: seq<File>) {
    forall j, k :: 0 <= j < k < |files| ==> files[j].modified >= files[k].modified
  }

  // Stable insertion, newest first.
  function Insert(files: seq<File>, f: File): seq<File> {
    if files == [] || files[|files| - 1].modified >= f.modified then files + [f]
    else Insert(files[..|files| - 1], f) + [files[|files| - 1]]
  }

  function Sort(files: seq<File>): seq<File> {
    if files == [] then [] else Insert(Sort(files[..|files| - 1]), files[|files| - 1])
  }

  lemma {:induction false} InsertKeeps(files: seq<File>, f: File)
    ensures multiset(Insert(files, f)) == multiset(files) + multiset{f}
  {
    if files != [] && files[|files| - 1].modified < f.modified {
      var n := |files| - 1;
      assert files == files[..n] + [files[n]];
      InsertKeeps(files[..n], f);
    }
  }

  lemma LastIsOldest(files: seq<File>, last: File)
    requires NewestFirst(files) && forall x :: x in files ==> x.modified >= last.modified
    ensures NewestFirst(files + [last])
  {
  }

  lemma {:induction false} InsertSorts(files: seq<File>, f: File)
    requires NewestFirst(files)
    ensures NewestFirst(Insert(files, f))
  {
    if files == [] || files[|files| - 1].modified >= f.modified {
      LastIsOldest(files, f);
    } else {
      var n := |files| - 1;
      var front := Insert(files[..n], f);
      InsertSorts(files[..n], f);
      InsertKeeps(files[..n], f);
      forall x | x in front ensures x.modified >= files[n].modified {
        assert x in multiset(front);
      }
      LastIsOldest(front, files[n]);
    }
  }

  lemma {:induction false} SortKeeps(files: seq<File>)
    ensures multiset(Sort(files)) == multiset(files)
  {
    if files != [] {
      var n := |files| - 1;
      SortKeeps(files[..n]);
      InsertKeeps(Sort(files[..n]), files[n]);
      assert files == files[..n] + [files[n]];
    }
  }

  lemma {:induction false} SortSorts(files: seq<File>)
    ensures NewestFirst(Sort(files)) && multiset(Sort(files)) == multiset(files)
  {
    SortKeeps(files);
    if files != [] {
      SortSorts(files[..|files| - 1]);
      InsertSorts(Sort(files[..|files| - 1]), files[|files| - 1]);
    }
  }

  predicate Expired(f: File, index: nat, now: int) {
    now - f.modified > WEEK || index >= CAPACITY
  }

  // The names a complete pruning removes.
  ghost function Removed(files: seq<File>, now: int): set<string> {
    var sorted := Sort(files);
    set k | 0 <= k < |sorted| && Expired(sorted[k], k, now) :: sorted[k].name
  }

  predicate Distinct(files: seq<File>) {
    forall j, k :: 0 <= j < k < |files| ==> files[j].name != files[k].name
  }

  lemma {:induction false} InsertMembers(files: seq<File>, f: File)
    ensures |Insert(files, f)| == |files| + 1
    ensures forall x :: x in Insert(files, f) <==> x in files || x == f
  {
    if files != [] && files[|files| - 1].modified < f.modified {
      InsertMembers(files[..|files| - 1], f);
      assert files == files[..|files| - 1] + [files[|files| - 1]];
    }
  }

  lemma DistinctAppend(files: seq<File>, f: File)
    requires Distinct(files) && forall x :: x in files ==> x.name != f.name
    ensures Distinct(files + [f])
  {
  }

  lemma {:induction false} InsertKeepsNames(files: seq<File>, f: File)
    requires Distinct(files) && forall x :: x in files ==> x.name != f.name
    ensures Distinct(Insert(files, f))
  {
    if files == [] || files[|files| - 1].modified >= f.modified {
      DistinctAppend(files, f);
    } else {
      var n := |files| - 1;
      InsertKeepsNames(files[..n], f);
      InsertMembers(files[..n], f);
      forall x | x in Insert(files[..n], f) ensures x.name != files[n].name {
        if x != f { var j :| 0 <= j < n && files[j] == x; }
      }
      DistinctAppend(Insert(files[..n], f), files[n]);
    }
  }

  lemma {:induction false} SortKeepsNames(files: seq<File>)
    requires Distinct(files)
    ensures Distinct(Sort(files)) && |Sort(files)| == |files|
    ensures forall x :: x in Sort(files) <==> x in files
  {
    if files != [] {
      var n := |files| - 1;
      SortKeepsNames(files[..n]);
      assert files == files[..n] + [files[n]];
      forall x | x in Sort(files[..n]) ensures x.name != files[n].name {
        var j :| 0 <= j < n && files[j] == x;
      }
      InsertKeepsNames(Sort(files[..n]), files[n]);
      InsertMembers(Sort(files[..n]), files[n]);
    }
  }

  lemma NameIsIndex(sorted: seq<File>, j: nat, k: nat)
    requires Distinct(sorted) && j < |sorted| && k < |sorted| && sorted[j].name == sorted[k].name
    ensures j == k
  {
  }

  lemma NewerBefore(sorted: seq<File>, j: nat, x: File)
    requires NewestFirst(sorted) && Distinct(sorted) && CAPACITY <= j < |sorted| && x in sorted[..CAPACITY]
    ensures x in sorted && x != sorted[j] && x.modified >= sorted[j].modified
  {
    var i :| 0 <= i < CAPACITY && sorted[i] == x;
  }

  lemma RemovedAt(files: seq<File>, now: int, f: File) returns (j: nat)
    requires Distinct(files) && f in files && f.name in Removed(files, now)
    ensures j < |Sort(files)| && Sort(files)[j] == f && Expired(f, j, now)
  {
    SortKeepsNames(files);
    var sorted := Sort(files);
    var k :| 0 <= k < |sorted| && Expired(sorted[k], k, now) && sorted[k].name == f.name;
    j :| 0 <= j < |sorted| && sorted[j] == f;
    NameIsIndex(sorted, j, k);
  }

  // Every removed file is more than a week old or has a thousand files at least as new.
  lemma RemovalIsJustified(files: seq<File>, now: int, f: File)
    requires Distinct(files) && f in files && f.name in Removed(files, now)
    ensures now - f.modified > WEEK
            || (exists others: seq<File> :: |others| == CAPACITY && Distinct(others)
                  && forall x :: x in others ==> x in files && x != f && x.modified >= f.modified)
  {
    var j := RemovedAt(files, now, f);
    if now - f.modified <= WEEK {
      SortSorts(files);
      SortKeepsNames(files);
      var others := Sort(files)[..CAPACITY];
      forall x | x in others ensures x in files && x != f && x.modified >= f.modified { NewerBefore(Sort(files), j, x); }
      assert Distinct(others);
    }
  }

  lemma NewerIsFirst(sorted: seq<File>, j: nat)
    requires NewestFirst(sorted) && Distinct(sorted) && 0 < j < |sorted|
    ensures sorted[0] in sorted && sorted[0] != sorted[j] && sorted[0].modified >= sorted[j].modified
  {
  }

  // The newest file goes only if it is more than a week old itself.
  lemma NewestSurvives(files: seq<File>, now: int, f: File)
    requires Distinct(files) && f in files && now - f.modified <= WEEK
    requires forall x :: x in files && x != f ==> x.modified < f.modified
    ensures f.name !in Removed(files, now)
  {
    SortSorts(files);
    SortKeepsNames(files);
    var sorted := Sort(files);
    var j :| 0 <= j < |sorted| && sorted[j] == f;
    if j > 0 {
      NewerIsFirst(sorted, j);
    }
    forall k | 0 <= k < |sorted| && Expired(sorted[k], k, now) ensures sorted[k].name != f.name {
      if sorted[k].name == f.name { NameIsIndex(sorted, j, k); }
    }
  }

  function Names(files: seq<File>): set<string> {
    set k | 0 <= k < |files| :: files[k].name
  }

  lemma {:induction false} AsManyNames(files: seq<File>)
    requires Distinct(files)
    ensures |Names(files)| == |files|
  {
    if files != [] {
      var n := |files| - 1;
      AsManyNames(files[..n]);
      assert Names(files) == Names(files[..n]) + {files[n].name};
    }
  }

  lemma {:induction false} FewerNames(a: set<string>, b: set<string>)
    requires a <= b
    ensures |a| <= |b|
  {
    if a != {} {
      var x :| x in a;
      FewerNames(a - {x}, b - {x});
    }
  }

  // Distinct files that all stand before position j are at most j.
  lemma FewBefore(sorted: seq<File>, j: nat, some: seq<File>)
    requires Distinct(sorted) && Distinct(some) && j <= |sorted| && forall x :: x in some ==> x in sorted[..j]
    ensures |some| <= j
  {
    forall name | name in Names(some) ensures name in Names(sorted[..j]) {
      var k :| 0 <= k < |some| && some[k].name == name;
      assert some[k] in sorted[..j];
      var i :| 0 <= i < j && sorted[i] == some[k];
      assert sorted[..j][i].name == name;
    }
    AsManyNames(some);
    AsManyNames(sorted[..j]);
    FewerNames(Names(some), Names(sorted[..j]));
  }

  // And what the rule is meant to remove is removed: a file that is more than a week old, and
  // one with a thousand newer files beside it.
  lemma PruningIsComplete(files: seq<File>, now: int, f: File, others: seq<File>)
    requires Distinct(files) && f in files
    requires now - f.modified > WEEK
             || (|others| == CAPACITY && Distinct(others) && forall x :: x in others ==> x in files && x.modified > f.modified)
    ensures f.name in Removed(files, now)
  {
    SortSorts(files);
    SortKeepsNames(files);
    var sorted := Sort(files);
    var j :| 0 <= j < |sorted| && sorted[j] == f;
    if now - f.modified <= WEEK {
      forall x | x in others ensures x in sorted[..j] {
        var i :| 0 <= i < |sorted| && sorted[i] == x;
        assert i < j;
      }
      FewBefore(sorted, j, others);
    }
    assert Expired(sorted[j], j, now);
  }

  // After a complete pruning no more than a thousand files are left, all from the last week.
  lemma WhatIsLeftIsBounded(files: seq<File>, now: int, kept: seq<File>)
    requires Distinct(files) && Distinct(kept) && forall x :: x in kept ==> x in files && x.name !in Removed(files, now)
    ensures |kept| <= CAPACITY && forall x :: x in kept ==> now - x.modified <= WEEK
  {
    SortKeepsNames(files);
    var sorted := Sort(files);
    var n := if |sorted| < CAPACITY then |sorted| else CAPACITY;
    forall x | x in kept ensures x in sorted[..n] && now - x.modified <= WEEK {
      var i :| 0 <= i < |sorted| && sorted[i] == x;
      assert Expired(sorted[i], i, now) ==> x.name in Removed(files, now);
    }
    FewBefore(sorted, n, kept);
  }

  class LedgerDirectory {
    var names: set<string>

    // The unlink loop; it stops early after `steps` removals when one of them throws.
    method Prune(files: seq<File>, now: int, steps: nat) returns (complete: bool)
      requires Distinct(files)
      modifies this
      ensures complete ==> names == old(names) - Removed(files, now)
      ensures old(names) - Removed(files, now) <= names <= old(names)
    {
      var sorted := Sort(files);
      var left, index := steps, 0;
      ghost var gone: set<string> := {};
      SortKeepsNames(files);
      while index < |sorted|
        invariant 0 <= index <= |sorted|
        invariant gone == set k | 0 <= k < index && Expired(sorted[k], k, now) :: sorted[k].name
        invariant names == old(names) - gone
      {
        if Expired(sorted[index], index, now) {
          if left == 0 { return false; }
          left := left - 1;
          names := names - {sorted[index].name};
          gone := gone + {sorted[index].name};
        }
        index := index + 1;
      }
      return true;
    }
  }
}
