// The rotating log sink of the service host: the file `path`, here number 0, and its
// three predecessors `path.1`, `path.2` and `path.3`.
module LogRotation {

  type Bytes = seq<bv8>

  datatype Slot = Missing | File(bytes: Bytes)

  // 5 MiB, the size above which the current file is rotated away.
  const LIMIT := 5 * 1024 * 1024

  // The four names the sink uses.
  datatype Directory = Directory(current: Slot, first: Slot, second: Slot, third: Slot) {
    function Get(k: nat): Slot {
      if k == 0 then current else if k == 1 then first else if k == 2 then second else if k == 3 then third else Missing
    }

    function Set(k: nat, s: Slot): Directory {
      if k == 0 then this.(current := s) else if k == 1 then this.(first := s)
      else if k == 2 then this.(second := s) else if k == 3 then this.(third := s) else this
    }
  }

  function Content(s: Slot): Bytes {
    if s.File? then s.bytes else []
  }

  // What a reader gets from the oldest file to the newest.
  function Text(d: Directory): Bytes {
    Content(d.third) + (Content(d.second) + (Content(d.first) + Content(d.current)))
  }

  ghost predicate IsSuffix(s: Bytes, t: Bytes) {
    |s| <= |t| && s == t[|t| - |s|..]
  }

  // The file operations of one rotation, in the order the source issues them. Shift(k)
  // moves file k to k + 1; the moves of 2 and 1 are skipped when there is no such file.
  datatype Op = DeleteOldest | Shift(index: nat) | Create

  const ROTATION: seq<Op> := [DeleteOldest, Shift(2), Shift(1), Shift(0), Create]

  function Apply(d: Directory, op: Op): Directory {
    match op
    case DeleteOldest => d.Set(3, Missing)
    case Shift(k) => if d.Get(k).File? then d.Set(k, Missing).Set(k + 1, d.Get(k)) else d
    case Create => d.Set(0, File([]))
  }

  function Rotated(d: Directory, n: nat): Directory
    requires n <= |ROTATION|
  {
    if n == 0 then d else Apply(Rotated(d, n - 1), ROTATION[n - 1])
  }

  // What a file operation needs in order not to throw: a move or a creation needs a free name.
  ghost predicate Allowed(d: Directory, op: Op) {
    match op
    case DeleteOldest => true
    case Shift(k) => d.Get(k).File? ==> d.Get(k + 1).Missing?
    case Create => d.current.Missing?
  }

  // Opening the current file creates it when it does not exist.
  function Opened(d: Directory): Directory {
    if d.current.File? then d else d.Set(0, File([]))
  }

  predicate Rotates(d: Directory, count: nat) {
    |Content(d.current)| + count > LIMIT
  }

  // The final write: with no step left nothing is written, with one left only a part may be.
  function Written(bytes: Bytes, steps: nat, partial: nat): Bytes {
    if steps == 0 then [] else if steps == 1 && partial < |bytes| then bytes[..partial] else bytes
  }

  function Append(d: Directory, bytes: Bytes): Directory {
    d.Set(0, File(Content(d.current) + bytes))
  }

  // One Write that is interrupted, or fails, after `steps` file operations: opening the
  // current file, then the rotation if one is due, then the write itself, of which a
  // failure may leave only the first `partial` bytes. Also returns the bytes written.
  function WriteUpTo(d: Directory, bytes: Bytes, steps: nat, partial: nat): (Directory, Bytes) {
    if steps == 0 then (d, [])
    else
      var ready := Opened(d);
      if !Rotates(ready, |bytes|) then
        var written := Written(bytes, steps - 1, partial);
        (Append(ready, written), written)
      else if steps - 1 <= |ROTATION| then
        (Rotated(ready, steps - 1), [])
      else
        var written := Written(bytes, steps - 1 - |ROTATION|, partial);
        (Append(Rotated(ready, |ROTATION|), written), written)
  }

  // A number of steps that no Write reaches: it meets no failure.
  const ALL_STEPS: nat := |ROTATION| + 3

  function Write(d: Directory, bytes: Bytes): Directory {
    WriteUpTo(d, bytes, ALL_STEPS, 0).0
  }

  lemma SuffixTransitive(a: Bytes, b: Bytes, c: Bytes)
    requires IsSuffix(a, b) && IsSuffix(b, c)
    ensures IsSuffix(a, c)
  {
    assert c[|c| - |a|..] == c[|c| - |b|..][|b| - |a|..];
  }

  // What the directory looks like after n of the five operations.
  function Staged(d: Directory, n: nat): Directory {
    match n
    case 0 => d
    case 1 => Directory(d.current, d.first, d.second, Missing)
    case 2 => Directory(d.current, d.first, Missing, d.second)
    case 3 => Directory(d.current, Missing, d.first, d.second)
    case 4 => Directory(Missing, d.current, d.first, d.second)
    case _ => Directory(File([]), d.current, d.first, d.second)
  }

  // Every file moves up by one, whichever of them exist; the name each operation needs is
  // free when its turn comes, so nothing is ever moved onto an existing file.
  lemma {:induction false} RotationShiftsFiles(d: Directory, n: nat)
    requires n <= |ROTATION|
    ensures Rotated(d, n) == Staged(d, n)
    ensures n < |ROTATION| ==> Allowed(Rotated(d, n), ROTATION[n])
  {
    if n > 0 {
      RotationShiftsFiles(d, n - 1);
      assert Apply(Staged(d, n - 1), ROTATION[n - 1]) == Staged(d, n);
    }
  }

  lemma RotationKeepsText(d: Directory, n: nat)
    requires n <= |ROTATION|
    ensures IsSuffix(Text(Rotated(d, n)), Text(d))
  {
    RotationShiftsFiles(d, n);
    var a, b, c := Content(d.second), Content(d.first), Content(d.current);
    var kept := a + (b + c);
    assert Text(d) == Content(d.third) + kept;
    match n {
      case 0 =>
      case 1 => assert [] + kept == kept;
      case 2 => assert [] + (b + c) == b + c;
      case 3 => assert [] + c == c;
      case 4 => assert c + [] == c;
      case _ => assert c + [] == c;
    }
    assert n > 0 ==> Text(Rotated(d, n)) == kept;
  }

  // However a Write is interrupted, the files still read as a suffix of the old text followed
  // by the bytes that were written, and those are a prefix of the chunk.
  lemma WriteKeepsSuffix(d: Directory, bytes: Bytes, steps: nat, partial: nat)
    ensures var (after, written) := WriteUpTo(d, bytes, steps, partial);
            IsSuffix(Text(after), Text(d) + written) && written <= bytes
  {
    var ready := Opened(d);
    assert Text(ready) == Text(d);
    var (after, written) := WriteUpTo(d, bytes, steps, partial);
    assert Text(d) + [] == Text(d);
    if steps > 0 && !Rotates(ready, |bytes|) {
      AppendText(ready, written);
    } else if steps > 0 && steps - 1 <= |ROTATION| {
      RotationKeepsText(ready, steps - 1);
    } else if steps > 0 {
      RotationKeepsText(ready, |ROTATION|);
      AppendText(Rotated(ready, |ROTATION|), written);
      SuffixAppend(Text(Rotated(ready, |ROTATION|)), Text(d), written);
    }
  }

  lemma AppendText(d: Directory, bytes: Bytes)
    ensures Text(Append(d, bytes)) == Text(d) + bytes
  {
    var a, b, c, e := Content(d.third), Content(d.second), Content(d.first), Content(d.current);
    assert c + (e + bytes) == (c + e) + bytes;
    assert b + ((c + e) + bytes) == (b + (c + e)) + bytes;
    assert a + ((b + (c + e)) + bytes) == (a + (b + (c + e))) + bytes;
  }

  lemma SuffixAppend(a: Bytes, b: Bytes, c: Bytes)
    requires IsSuffix(a, b)
    ensures IsSuffix(a + c, b + c)
  {
    assert (b + c)[|b| - |a|..] == b[|b| - |a|..] + c;
  }

  // A Write as seen from outside: the chunk, and where it was interrupted.
  datatype Call = Call(bytes: Bytes, steps: nat, partial: nat)

  // The directory after some calls on whatever an earlier sink had left, and everything ever
  // written: the text that was there, and all the bytes since.
  function Run(initial: Directory, calls: seq<Call>): (Directory, Bytes) {
    if calls == [] then (initial, Text(initial))
    else
      var (d, stream) := Run(initial, calls[..|calls| - 1]);
      var c := calls[|calls| - 1];
      var (after, written) := WriteUpTo(d, c.bytes, c.steps, c.partial);
      (after, stream + written)
  }

  // From any directory, over any sequence of writes, each possibly cut off after any file
  // operation, the four files read in order are a suffix of all the bytes ever written.
  lemma {:induction false} TextIsSuffixOfStream(initial: Directory, calls: seq<Call>)
    ensures var (d, stream) := Run(initial, calls); IsSuffix(Text(d), stream)
  {
    if calls != [] {
      TextIsSuffixOfStream(initial, calls[..|calls| - 1]);
      var (d, stream) := Run(initial, calls[..|calls| - 1]);
      var c := calls[|calls| - 1];
      var (after, written) := WriteUpTo(d, c.bytes, c.steps, c.partial);
      WriteKeepsSuffix(d, c.bytes, c.steps, c.partial);
      SuffixAppend(Text(d), stream, written);
      SuffixTransitive(Text(after), Text(d) + written, stream + written);
    }
  }

  // Every file respects the limit; a rotated file was close to it, and there are no gaps.
  ghost predicate Filled(d: Directory, max: nat) {
    && |Content(d.current)| <= LIMIT
    && (forall k: nat {:trigger d.Get(k)} :: 0 < k && d.Get(k).File? ==>
          LIMIT - max < |Content(d.Get(k))| <= LIMIT && d.Get(k - 1).File?)
  }

  lemma WriteEffect(d: Directory, bytes: Bytes)
    ensures Write(d, bytes) == if Rotates(Opened(d), |bytes|)
                               then Directory(File(bytes), Opened(d).current, d.first, d.second)
                               else Append(Opened(d), bytes)
    ensures WriteUpTo(d, bytes, ALL_STEPS, 0).1 == bytes
  {
    if Rotates(Opened(d), |bytes|) {
      RotationShiftsFiles(Opened(d), |ROTATION|);
      assert [] + bytes == bytes;
    }
  }

  const EMPTY := Directory(Missing, Missing, Missing, Missing)

  lemma EmptyIsFilled(max: nat)
    ensures Filled(EMPTY, max)
  {
  }

  predicate AllUninterrupted(calls: seq<Call>, max: nat) {
    forall c :: c in calls ==> c.steps == ALL_STEPS && c.partial == 0 && |c.bytes| <= max
  }

  // With chunks of at most `max` <= LIMIT bytes and no failure, from an empty directory or
  // what such writes had left, no file ever exceeds the limit, and as soon as one byte has
  // been dropped more than 3 * (LIMIT - max) of the latest bytes are still there.
  lemma {:induction false} RetentionBound(initial: Directory, calls: seq<Call>, max: nat)
    requires max <= LIMIT && (initial == EMPTY || Filled(initial, max)) && AllUninterrupted(calls, max)
    ensures var (d, stream) := Run(initial, calls);
            && Filled(d, max)
            && (Text(d) != stream ==> d.third.File? && |Text(d)| > 3 * (LIMIT - max))
  {
    EmptyIsFilled(max);
    if calls != [] {
      var before, c := calls[..|calls| - 1], calls[|calls| - 1];
      assert forall x :: x in before ==> x in calls;
      RetentionBound(initial, before, max);
      var (d, stream) := Run(initial, before);
      WriteEffect(d, c.bytes);
      StepKeepsFilled(d, c.bytes, max);
      if Text(d) == stream && Write(d, c.bytes).third.Missing? {
        NothingDropped(d, c.bytes);
      }
    }
  }

  lemma StepKeepsFilled(d: Directory, bytes: Bytes, max: nat)
    requires Filled(d, max) && |bytes| <= max <= LIMIT
    ensures var e := Write(d, bytes);
            Filled(e, max) && e.current.File? && (d.third.File? ==> e.third.File?)
    ensures var e := Write(d, bytes); e.third.File? ==> |Text(e)| > 3 * (LIMIT - max)
  {
    WriteEffect(d, bytes);
    var e := Write(d, bytes);
    assert e.Get(0) == e.current && e.Get(1) == e.first && e.Get(2) == e.second && e.Get(3) == e.third;
    assert d.Get(0) == d.current && d.Get(1) == d.first && d.Get(2) == d.second && d.Get(3) == d.third;
  }

  // A Write after which there is still no oldest file has dropped nothing.
  lemma NothingDropped(d: Directory, bytes: Bytes)
    requires Write(d, bytes).third.Missing? && (d.third.File? ==> d.second.File?)
    ensures Text(Write(d, bytes)) == Text(d) + bytes
  {
    WriteEffect(d, bytes);
    var ready := Opened(d);
    assert Text(ready) == Text(d);
    if Rotates(ready, |bytes|) {
      ShiftedText(ready, bytes);
    } else {
      AppendText(ready, bytes);
    }
  }

  lemma ShiftedText(d: Directory, bytes: Bytes)
    requires d.second.Missing? && d.third.Missing?
    ensures Text(Directory(File(bytes), d.current, d.first, Missing)) == Text(d) + bytes
  {
    var b, c := Content(d.first), Content(d.current);
    assert b + (c + bytes) == (b + c) + bytes;
    assert [] + (b + c) == b + c;
    assert [] + (b + (c + bytes)) == b + (c + bytes);
  }

  // --- Files above the limit ---

  // A file above the limit is all that was written of one chunk above the limit.
  ghost predicate Excused(s: Slot, calls: seq<Call>) {
    |Content(s)| > LIMIT ==> exists i :: 0 <= i < |calls| && Content(s) <= calls[i].bytes
  }

  ghost predicate AllExcused(d: Directory, calls: seq<Call>) {
    Excused(d.current, calls) && Excused(d.first, calls) && Excused(d.second, calls) && Excused(d.third, calls)
  }

  lemma StagedStayExcused(d: Directory, calls: seq<Call>, n: nat)
    requires AllExcused(d, calls) && n <= |ROTATION|
    ensures AllExcused(Rotated(d, n), calls)
    ensures n == |ROTATION| ==> Rotated(d, n).current == File([])
  {
    RotationShiftsFiles(d, n);
  }

  lemma ExcusedLater(s: Slot, calls: seq<Call>, c: Call)
    requires Excused(s, calls)
    ensures Excused(s, calls + [c])
  {
    if |Content(s)| > LIMIT {
      var i :| 0 <= i < |calls| && Content(s) <= calls[i].bytes;
      assert (calls + [c])[i] == calls[i];
    }
  }

  lemma WriteStaysExcused(d: Directory, calls: seq<Call>, c: Call)
    requires AllExcused(d, calls)
    ensures AllExcused(WriteUpTo(d, c.bytes, c.steps, c.partial).0, calls + [c])
  {
    ExcusedLater(d.current, calls, c);
    ExcusedLater(d.first, calls, c);
    ExcusedLater(d.second, calls, c);
    ExcusedLater(d.third, calls, c);
    var ready := Opened(d);
    if c.steps > 0 && Rotates(ready, |c.bytes|) {
      var n := if c.steps - 1 <= |ROTATION| then c.steps - 1 else |ROTATION|;
      StagedStayExcused(ready, calls + [c], n);
      if c.steps - 1 > |ROTATION| { FreshFileIsExcused(calls, c); }
    }
  }

  // After a whole rotation the current file holds nothing but the chunk.
  lemma FreshFileIsExcused(calls: seq<Call>, c: Call)
    requires c.steps > |ROTATION| + 1
    ensures Excused(File([] + Written(c.bytes, c.steps - 1 - |ROTATION|, c.partial)), calls + [c])
  {
    assert (calls + [c])[|calls|] == c;
  }

  // From a directory within the limit, whatever is interrupted: a file above the limit is a
  // beginning of one chunk that is above the limit itself. And such a chunk is written all the
  // same: after a write without failure the current file is above the limit if and only if
  // its chunk is.
  lemma {:induction false} OnlyOversizedChunksOverflow(initial: Directory, calls: seq<Call>)
    requires AllExcused(initial, [])
    ensures var d := Run(initial, calls).0;
            && AllExcused(d, calls)
            && (calls != [] && calls[|calls| - 1].steps == ALL_STEPS ==>
                  (|Content(d.current)| > LIMIT <==> |calls[|calls| - 1].bytes| > LIMIT))
  {
    if calls != [] {
      var before, c := calls[..|calls| - 1], calls[|calls| - 1];
      OnlyOversizedChunksOverflow(initial, before);
      assert before + [c] == calls;
      WriteStaysExcused(Run(initial, before).0, before, c);
      if c.steps == ALL_STEPS { WholeWriteOverflows(Run(initial, before).0, c.bytes, c.partial); }
    }
  }

  lemma WholeWriteOverflows(d: Directory, bytes: Bytes, partial: nat)
    ensures |Content(WriteUpTo(d, bytes, ALL_STEPS, partial).0.current)| > LIMIT <==> |bytes| > LIMIT
  {
    if Rotates(Opened(d), |bytes|) {
      RotationShiftsFiles(Opened(d), |ROTATION|);
      assert [] + bytes == bytes;
    }
  }

  class RotatingSink {
    var directory: Directory
    var streaming: bool  // the current file is open for writing

    predicate Valid() reads this {
      streaming ==> directory.current.File?
    }

    // The sink is opened over whatever files an earlier one left behind.
    constructor (existing: Directory)
      ensures Valid() && directory == existing && !streaming
    {
      directory, streaming := existing, false;
    }

    // File.Move throws when there is nothing to move or the target exists.
    method Move(from: nat, to: nat)
      requires from <= 3 && to <= 3 && from != to
      requires directory.Get(from).File? && directory.Get(to).Missing?
      modifies `directory
      ensures directory == old(directory.Set(from, Missing).Set(to, directory.Get(from)))
    {
      var file := directory.Get(from);
      directory := directory.Set(from, Missing);
      directory := directory.Set(to, file);
    }

    // The rotation of Write, cut off when no step is left; answers how many are left over.
    method Rotate(steps: nat) returns (left: nat, complete: bool)
      requires directory.current.File?
      modifies this
      ensures complete == (steps >= |ROTATION|)
      ensures complete ==> left == steps - |ROTATION| && streaming
      ensures !complete ==> !streaming
      ensures directory == Rotated(old(directory), if complete then |ROTATION| else steps)
    {
      ghost var before := directory;
      streaming := false;
      left, complete := steps, false;
      RotationShiftsFiles(before, 0);
      if left == 0 { return; }
      left := left - 1;
      if directory.third.File? { directory := directory.Set(3, Missing); }
      RotationShiftsFiles(before, 1);
      var index := 2;
      while index >= 1
        invariant 0 <= index <= 2 && !streaming && !complete
        invariant directory == Rotated(before, 3 - index) == Staged(before, 3 - index)
        invariant left == steps - (3 - index)
      {
        if left == 0 { return; }
        left := left - 1;
        RotationShiftsFiles(before, 4 - index);
        assert ROTATION[3 - index] == Shift(index);
        if directory.Get(index).File? { Move(index, index + 1); }
        index := index - 1;
      }
      if left == 0 { return; }
      left := left - 1;
      Move(0, 1);
      RotationShiftsFiles(before, 4);
      if left == 0 { return; }
      left := left - 1;
      directory := directory.Set(0, File([]));
      streaming, complete := true, true;
      RotationShiftsFiles(before, 5);
    }

    method Write(bytes: Bytes, steps: nat, partial: nat) returns (written: Bytes)
      requires Valid()
      modifies this
      ensures Valid()
      ensures (directory, written) == WriteUpTo(old(directory), bytes, steps, partial)
    {
      written := [];
      if steps == 0 { streaming := false; return; }
      if !streaming {
        if directory.current.Missing? { directory := directory.Set(0, File([])); }
        streaming := true;
      }
      var left: nat := steps - 1;
      if |Content(directory.current)| + |bytes| > LIMIT {
        ghost var before := directory;
        var complete;
        left, complete := Rotate(left);
        if !complete { return; }
        assert left == 0 ==> Append(directory, []) == directory by {
          RotationShiftsFiles(before, |ROTATION|);
        }
      }
      written := Written(bytes, left, partial);
      directory := Append(directory, written);
    }
  }
}
