// The walk that turns a configured runtime path into a trusted physical path: pathname
// resolution with a trust check on every object that it passes.
module PathWalk {
  import opened Options

  type Path = seq<string>

  // The permission bits of an object, as in stat's %a.
  datatype Node =
    | Dir(uid: nat, mode: nat)
    | File(uid: nat, mode: nat)
    | Link(uid: nat, target: string)

  // What lstat reports for a path whose proper prefixes are directories.
  type FileSystem = Path -> Option<Node>

  const MAX_LINKS: nat := 40

  predicate SafeChar(c: char) {
    'a' <= c <= 'z' || 'A' <= c <= 'Z' || '0' <= c <= '9' || c == '.' || c == '_' || c == '/' || c == '-'
  }

  predicate Safe(text: string) {
    text != "" && forall k :: 0 <= k < |text| ==> SafeChar(text[k])
  }

  predicate Home(path: Path) {
    path == ["home"] || path == ["root"] || path == ["run", "user"]
  }

  // Root-owned and neither group nor world writable.
  predicate Protected(uid: nat, mode: nat) {
    uid == 0 && mode / 16 % 2 == 0 && mode / 2 % 2 == 0
  }

  predicate Searchable(mode: nat) {
    mode % 2 == 1
  }

  // --- Text of a path ---

  function Head(text: string): string {
    if text == "" || text[0] == '/' then "" else [text[0]] + Head(text[1..])
  }

  // What follows the first slash; empty when there is none.
  function Tail(text: string): (rest: string)
    ensures text != "" ==> |rest| < |text|
  {
    if text == "" then "" else if text[0] == '/' then text[1..] else Tail(text[1..])
  }

  function WithoutSlash(text: string): string {
    if text != "" && text[0] == '/' then text[1..] else text
  }

  function Parent(path: Path): Path {
    if path == [] then [] else path[..|path| - 1]
  }

  // --- Reference: recursive resolution, as in section 4.13 of IEEE Std 1003.1-2017 ---

  datatype Walked =
    | Resolved(path: Path, budget: nat, visited: seq<Path>)
    | Failed

  function After(visited: seq<Path>, w: Walked): Walked {
    if w.Failed? then w else w.(visited := visited + w.visited)
  }

  // Resolves text from the physical directory dir; more tells that the result must be a
  // directory because something follows. A link is resolved completely before the walk goes on.
  function Resolve(fs: FileSystem, dir: Path, text: string, budget: nat, more: bool): (w: Walked)
    ensures w.Resolved? ==> w.budget <= budget
    decreases budget, |text|
  {
    if text == "" then Resolved(dir, budget, [])
    else
      var part, rest := Head(text), Tail(text);
      if part == "" || part == "." then Resolve(fs, dir, rest, budget, more)
      else if part == ".." then Resolve(fs, Parent(dir), rest, budget, more)
      else
        var at := dir + [part];
        match fs(at)
        case None => Failed
        case Some(File(_, _)) => if more || rest != "" then Failed else Resolved(at, budget, [at])
        case Some(Dir(_, _)) => After([at], Resolve(fs, at, rest, budget, more))
        case Some(Link(_, target)) =>
          if budget == 0 then Failed
          else
            var inner := Resolve(fs, Base(dir, target), WithoutSlash(target), budget - 1, more || rest != "");
            if inner.Failed? then Failed else After([at] + inner.visited, Resolve(fs, inner.path, rest, inner.budget, more))
  }

  function Base(dir: Path, target: string): Path {
    if target != "" && target[0] == '/' then [] else dir
  }

  // Trust in one object that the walk passes.
  predicate Accepted(fs: FileSystem, at: Path) {
    !Home(at)
    && match fs(at)
       case None => false
       case Some(Link(uid, target)) => uid == 0 && Safe(target)
       case Some(File(uid, mode)) => Protected(uid, mode)
       case Some(Dir(uid, mode)) => Protected(uid, mode) && Searchable(mode)
  }

  predicate AllAccepted(fs: FileSystem, visited: seq<Path>) {
    forall k :: 0 <= k < |visited| ==> Accepted(fs, visited[k])
  }

  function Verdict(fs: FileSystem, w: Walked): Option<Path> {
    if w.Resolved? && AllAccepted(fs, w.visited) then Some(w.path) else None
  }

  predicate RootProtected(fs: FileSystem) {
    fs([]).Some? && !fs([]).value.Link? && Protected(fs([]).value.uid, fs([]).value.mode)
  }

  // What the walk promises: the resolution of the path, if it takes at most 40 links and
  // every object on the way can be trusted.
  function Trusted(fs: FileSystem, input: string): Option<Path> {
    if !(input != "" && input[0] == '/' && Safe(input[1..])) || !RootProtected(fs) then None
    else Verdict(fs, Resolve(fs, [], input[1..], MAX_LINKS, false))
  }

  // What the walk still decides from a directory, the pending text and the links followed.
  function Remaining(fs: FileSystem, current: Path, pending: string, links: nat): Option<Path>
    requires links <= MAX_LINKS
  {
    Verdict(fs, Resolve(fs, current, pending, MAX_LINKS - links, false))
  }

  // --- The loop of the script ---

  method SecurePath(fs: FileSystem, input: string) returns (r: Option<Path>)
    ensures r == Trusted(fs, input)
  {
    if input == "" || input[0] != '/' || !Safe(input[1..]) { return None; }
    if !RootProtected(fs) { return None; }
    var pending, current, links := input[1..], [], 0;
    while pending != ""
      invariant links <= MAX_LINKS
      invariant Remaining(fs, current, pending, links) == Trusted(fs, input)
      decreases MAX_LINKS - links, |pending|
    {
      var part, text := Head(pending), pending;
      pending := Tail(pending);
      if part == "" || part == "." { continue; }
      if part == ".." {
        current := Parent(current);
        continue;
      }
      OrdinaryStep(fs, current, text, MAX_LINKS - links);
      current := current + [part];
      if Home(current) { return None; }
      if fs(current).None? { return None; }
      match fs(current).value {
        case Link(uid, link) =>
          if uid != 0 { return None; }
          links := links + 1;
          if links > MAX_LINKS { return None; }
          if !Safe(link) { return None; }
          current := if link[0] == '/' then [] else Parent(current);
          pending := Spliced(WithoutSlash(link), pending);
        case Dir(uid, mode) =>
          if !Protected(uid, mode) || !Searchable(mode) { return None; }
        case File(uid, mode) =>
          if !Protected(uid, mode) || pending != "" { return None; }
      }
    }
    return Some(current);
  }

  function Spliced(link: string, pending: string): string {
    link + if pending != "" then "/" + pending else ""
  }

  predicate Ordinary(text: string) {
    text != "" && Head(text) != "" && Head(text) != "." && Head(text) != ".."
  }

  // --- Splicing a link into the pending text resolves it first ---

  lemma {:induction false} HeadTail(a: string, pending: string)
    ensures Head(a + "/" + pending) == Head(a)
    ensures Tail(a + "/" + pending) == if '/' in a then Tail(a) + "/" + pending else pending
    ensures '/' !in a ==> Tail(a) == ""
  {
    var text := a + "/" + pending;
    if a == "" {
      assert text == ['/'] + pending;
    } else {
      assert text[0] == a[0] && text[1..] == a[1..] + "/" + pending;
      if a[0] != '/' { HeadTail(a[1..], pending); }
    }
  }

  function Then(fs: FileSystem, w: Walked, text: string, more: bool): Walked {
    if w.Failed? then w else After(w.visited, Resolve(fs, w.path, text, w.budget, more))
  }

  lemma AfterAfter(a: seq<Path>, b: seq<Path>, w: Walked)
    ensures After(a, After(b, w)) == After(a + b, w)
  {
    if w.Resolved? { assert a + (b + w.visited) == a + b + w.visited; }
  }

  // The text left after one component of a + "/" + pending, resolved from any directory.
  lemma {:induction false} SpliceRest(fs: FileSystem, dir: Path, a: string, pending: string, budget: nat, more: bool)
    requires pending != "" && a != ""
    ensures Resolve(fs, dir, Tail(a + "/" + pending), budget, more) == Then(fs, Resolve(fs, dir, Tail(a), budget, true), pending, more)
    decreases budget, |a|, 0
  {
    HeadTail(a, pending);
    if '/' in a {
      SpliceResolves(fs, dir, Tail(a), pending, budget, more);
    } else {
      NothingVisited(Resolve(fs, dir, pending, budget, more));
    }
  }

  lemma NothingVisited(w: Walked)
    ensures After([], w) == w
  {
    if w.Resolved? { assert [] + w.visited == w.visited; }
  }

  lemma {:induction false} SpliceResolves(fs: FileSystem, dir: Path, a: string, pending: string, budget: nat, more: bool)
    requires pending != ""
    ensures Resolve(fs, dir, a + "/" + pending, budget, more) == Then(fs, Resolve(fs, dir, a, budget, true), pending, more)
    decreases budget, |a|, 1
  {
    HeadTail(a, pending);
    if a == "" {
      NothingVisited(Resolve(fs, dir, pending, budget, more));
    } else {
      var text, part, at := a + "/" + pending, Head(a), dir + [Head(a)];
      assert Tail(text) != "";
      if part == "" || part == "." {
        SpliceRest(fs, dir, a, pending, budget, more);
      } else if part == ".." {
        SpliceRest(fs, Parent(dir), a, pending, budget, more);
      } else if fs(at).Some? && fs(at).value.Dir? {
        SpliceRest(fs, at, a, pending, budget, more);
        var w := Resolve(fs, at, Tail(a), budget, true);
        if w.Resolved? { AfterAfter([at], w.visited, Resolve(fs, w.path, pending, w.budget, more)); }
      } else if fs(at).Some? && fs(at).value.Link? && budget > 0 {
        SpliceLink(fs, dir, a, pending, budget, more);
      }
    }
  }

  lemma {:induction false} SpliceLink(fs: FileSystem, dir: Path, a: string, pending: string, budget: nat, more: bool)
    requires pending != "" && Ordinary(a) && budget > 0
    requires fs(dir + [Head(a)]).Some? && fs(dir + [Head(a)]).value.Link?
    ensures Resolve(fs, dir, a + "/" + pending, budget, more) == Then(fs, Resolve(fs, dir, a, budget, true), pending, more)
    decreases budget, |a|, 0
  {
    HeadTail(a, pending);
    var at := dir + [Head(a)];
    var target := fs(at).value.target;
    var inner := Resolve(fs, Base(dir, target), WithoutSlash(target), budget - 1, true);
    if inner.Resolved? {
      SpliceRest(fs, inner.path, a, pending, inner.budget, more);
      var w := Resolve(fs, inner.path, Tail(a), inner.budget, true);
      if w.Resolved? { AfterAfter([at] + inner.visited, w.visited, Resolve(fs, w.path, pending, w.budget, more)); }
    }
  }

  // --- One component ---

  // An object that cannot be accepted spoils every resolution that passes it.
  lemma Refused(fs: FileSystem, dir: Path, text: string, budget: nat)
    requires Ordinary(text) && !Accepted(fs, dir + [Head(text)])
    ensures Verdict(fs, Resolve(fs, dir, text, budget, false)) == None
  {
    var at := dir + [Head(text)];
    var w := Resolve(fs, dir, text, budget, false);
    if w.Resolved? { assert w.visited[0] == at; }
  }

  lemma AcceptedAfter(fs: FileSystem, visited: seq<Path>, w: Walked)
    requires AllAccepted(fs, visited)
    ensures Verdict(fs, After(visited, w)) == Verdict(fs, w)
  {
    if w.Resolved? {
      assert forall k :: 0 <= k < |w.visited| ==> (visited + w.visited)[|visited| + k] == w.visited[k];
    }
  }

  lemma DirStep(fs: FileSystem, dir: Path, text: string, budget: nat)
    requires Ordinary(text) && Accepted(fs, dir + [Head(text)]) && fs(dir + [Head(text)]).value.Dir?
    ensures Verdict(fs, Resolve(fs, dir, text, budget, false)) == Verdict(fs, Resolve(fs, dir + [Head(text)], Tail(text), budget, false))
  {
    var at := dir + [Head(text)];
    AcceptedAfter(fs, [at], Resolve(fs, at, Tail(text), budget, false));
  }

  lemma LinkStep(fs: FileSystem, dir: Path, text: string, budget: nat)
    requires Ordinary(text) && Accepted(fs, dir + [Head(text)]) && fs(dir + [Head(text)]).value.Link? && budget > 0
    ensures var target := fs(dir + [Head(text)]).value.target;
            Verdict(fs, Resolve(fs, dir, text, budget, false))
            == Verdict(fs, Resolve(fs, Base(dir, target), Spliced(WithoutSlash(target), Tail(text)), budget - 1, false))
  {
    var at, rest := dir + [Head(text)], Tail(text);
    var target := fs(at).value.target;
    var link := WithoutSlash(target);
    var inner := Resolve(fs, Base(dir, target), link, budget - 1, rest != "");
    if inner.Resolved? {
      AfterAfter([at], inner.visited, Resolve(fs, inner.path, rest, inner.budget, false));
    }
    if rest == "" {
      assert Spliced(link, rest) == link;
      if inner.Resolved? { assert After(inner.visited, Resolved(inner.path, inner.budget, [])) == inner by { assert inner.visited + [] == inner.visited; } }
    } else {
      assert Spliced(link, rest) == link + "/" + rest;
      SpliceResolves(fs, Base(dir, target), link, rest, budget - 1, false);
    }
    AcceptedAfter(fs, [at], Resolve(fs, Base(dir, target), Spliced(link, rest), budget - 1, false));
  }

  // What remains to be decided after one accepted object.
  function Onward(fs: FileSystem, dir: Path, text: string, budget: nat): Option<Path>
    requires Ordinary(text) && fs(dir + [Head(text)]).Some?
  {
    var at, rest := dir + [Head(text)], Tail(text);
    match fs(at).value
    case Dir(_, _) => Verdict(fs, Resolve(fs, at, rest, budget, false))
    case File(_, _) => if rest == "" then Some(at) else None
    case Link(_, target) =>
      if budget == 0 then None
      else Verdict(fs, Resolve(fs, Base(dir, target), Spliced(WithoutSlash(target), rest), budget - 1, false))
  }

  lemma ObjectStep(fs: FileSystem, dir: Path, text: string, budget: nat)
    requires Ordinary(text) && Accepted(fs, dir + [Head(text)])
    ensures Verdict(fs, Resolve(fs, dir, text, budget, false)) == Onward(fs, dir, text, budget)
  {
    var at := dir + [Head(text)];
    if fs(at).value.Dir? {
      DirStep(fs, dir, text, budget);
    } else if fs(at).value.Link? && budget > 0 {
      LinkStep(fs, dir, text, budget);
    }
  }

  lemma OrdinaryStep(fs: FileSystem, dir: Path, text: string, budget: nat)
    requires Ordinary(text)
    ensures Verdict(fs, Resolve(fs, dir, text, budget, false))
         == if Accepted(fs, dir + [Head(text)]) then Onward(fs, dir, text, budget) else None
  {
    if Accepted(fs, dir + [Head(text)]) { ObjectStep(fs, dir, text, budget); } else { Refused(fs, dir, text, budget); }
  }

  // --- What a trusted path is like ---

  // Every directory on the way to p is a directory and not a link to one.
  predicate Physical(fs: FileSystem, p: Path) {
    forall k :: 0 < k < |p| ==> fs(p[..k]).Some? && fs(p[..k]).value.Dir?
  }

  predicate PhysicalDir(fs: FileSystem, p: Path) {
    Physical(fs, p) && (p == [] || (fs(p).Some? && fs(p).value.Dir?))
  }

  lemma Child(fs: FileSystem, dir: Path, name: string)
    requires PhysicalDir(fs, dir)
    ensures Physical(fs, dir + [name])
  {
    forall k | 0 < k < |dir| + 1 ensures (dir + [name])[..k] == dir[..k] && (k == |dir| ==> dir[..k] == dir) {}
  }

  lemma Up(fs: FileSystem, dir: Path)
    requires PhysicalDir(fs, dir)
    ensures PhysicalDir(fs, Parent(dir))
  {
    forall k | 0 < k < |Parent(dir)| ensures Parent(dir)[..k] == dir[..k] {}
  }

  // Popping the last component for ".." is sound because the current path is physical, and
  // it stays so: the result contains no link.
  lemma {:induction false} ResolvedIsPhysical(fs: FileSystem, dir: Path, text: string, budget: nat, more: bool)
    requires PhysicalDir(fs, dir)
    ensures var w := Resolve(fs, dir, text, budget, more);
            w.Resolved? ==> (if more then PhysicalDir(fs, w.path) else PhysicalDir(fs, w.path) || PhysicalFile(fs, w.path))
    decreases budget, |text|
  {
    if text != "" {
      var part, rest := Head(text), Tail(text);
      if part == "" || part == "." {
        ResolvedIsPhysical(fs, dir, rest, budget, more);
      } else if part == ".." {
        Up(fs, dir);
        ResolvedIsPhysical(fs, Parent(dir), rest, budget, more);
      } else {
        Child(fs, dir, part);
        var at := dir + [part];
        if fs(at).Some? && fs(at).value.Dir? {
          ResolvedIsPhysical(fs, at, rest, budget, more);
        } else if fs(at).Some? && fs(at).value.Link? && budget > 0 {
          var target := fs(at).value.target;
          var inner := Resolve(fs, Base(dir, target), WithoutSlash(target), budget - 1, more || rest != "");
          ResolvedIsPhysical(fs, Base(dir, target), WithoutSlash(target), budget - 1, more || rest != "");
          if inner.Resolved? && PhysicalDir(fs, inner.path) { ResolvedIsPhysical(fs, inner.path, rest, inner.budget, more); }
        }
      }
    }
  }

  predicate PhysicalFile(fs: FileSystem, p: Path) {
    p != [] && Physical(fs, p) && fs(p).Some? && fs(p).value.File?
  }

  // Every prefix of the result is where the walk started or was passed on the way.
  predicate Covered(p: Path, dir: Path, visited: seq<Path>) {
    forall k :: 0 < k <= |p| ==> p[..k] <= dir || p[..k] in visited
  }

  lemma CoveredTrans(p: Path, mid: Path, dir: Path, a: seq<Path>, b: seq<Path>)
    requires Covered(mid, dir, a) && Covered(p, mid, b)
    ensures Covered(p, dir, a + b)
  {
    forall k | 0 < k <= |p| ensures p[..k] <= dir || p[..k] in a + b {
      if p[..k] <= mid { assert p[..k] == mid[..k]; }
    }
  }

  lemma CoveredBase(at: Path, dir: Path, name: string)
    requires at == dir + [name]
    ensures Covered(at, dir, [at])
  {
    forall k | 0 < k <= |at| ensures at[..k] <= dir || at[..k] == at {}
  }

  lemma {:induction false} ResolvedIsCovered(fs: FileSystem, dir: Path, text: string, budget: nat, more: bool)
    ensures var w := Resolve(fs, dir, text, budget, more); w.Resolved? ==> Covered(w.path, dir, w.visited)
    decreases budget, |text|
  {
    if text != "" {
      var part, rest := Head(text), Tail(text);
      var w := Resolve(fs, dir, text, budget, more);
      if part == "" || part == "." {
        ResolvedIsCovered(fs, dir, rest, budget, more);
      } else if part == ".." {
        ResolvedIsCovered(fs, Parent(dir), rest, budget, more);
        if w.Resolved? {
          CoveredTrans(w.path, Parent(dir), dir, [], w.visited);
          assert [] + w.visited == w.visited;
        }
      } else if w.Resolved? {
        var at := dir + [part];
        CoveredBase(at, dir, part);
        if fs(at).value.Dir? {
          var next := Resolve(fs, at, rest, budget, more);
          ResolvedIsCovered(fs, at, rest, budget, more);
          CoveredTrans(next.path, at, dir, [at], next.visited);
        } else if fs(at).value.Link? {
          LinkIsCovered(fs, dir, text, budget, more);
        }
      }
    }
  }

  lemma {:induction false} LinkIsCovered(fs: FileSystem, dir: Path, text: string, budget: nat, more: bool)
    requires Ordinary(text) && budget > 0 && fs(dir + [Head(text)]).Some? && fs(dir + [Head(text)]).value.Link?
    ensures var w := Resolve(fs, dir, text, budget, more); w.Resolved? ==> Covered(w.path, dir, w.visited)
    decreases budget, |text|, 0
  {
    var at, rest := dir + [Head(text)], Tail(text);
    var target := fs(at).value.target;
    var base := Base(dir, target);
    var inner := Resolve(fs, base, WithoutSlash(target), budget - 1, more || rest != "");
    ResolvedIsCovered(fs, base, WithoutSlash(target), budget - 1, more || rest != "");
    if inner.Resolved? {
      var next := Resolve(fs, inner.path, rest, inner.budget, more);
      ResolvedIsCovered(fs, inner.path, rest, inner.budget, more);
      if next.Resolved? {
        assert Covered(base, dir, [at]);
        CoveredTrans(inner.path, base, dir, [at], inner.visited);
        CoveredTrans(next.path, inner.path, dir, [at] + inner.visited, next.visited);
      }
    }
  }

  // A trusted path has no link in it, and each of its prefixes is outside home directories,
  // root-owned and not writable by others; all but the last are directories anyone can search.
  lemma TrustedPathIsSafe(fs: FileSystem, input: string, k: nat)
    requires Trusted(fs, input).Some? && 0 < k <= |Trusted(fs, input).value|
    ensures var p := Trusted(fs, input).value;
            && fs(p[..k]).Some? && !Home(p[..k])
            && (fs(p[..k]).value.Dir? || (k == |p| && fs(p[..k]).value.File?))
            && Protected(fs(p[..k]).value.uid, fs(p[..k]).value.mode)
            && (fs(p[..k]).value.Dir? ==> Searchable(fs(p[..k]).value.mode))
  {
    var w := Resolve(fs, [], input[1..], MAX_LINKS, false);
    ResolvedIsPhysical(fs, [], input[1..], MAX_LINKS, false);
    ResolvedIsCovered(fs, [], input[1..], MAX_LINKS, false);
    assert w.path[..|w.path|] == w.path;
    assert w.path[..k] in w.visited;
    assert Accepted(fs, w.path[..k]);
  }

  // An octal digit of a mode that does not allow writing.
  predicate NoWrite(digit: nat) {
    digit == 0 || digit == 1 || digit == 4 || digit == 5
  }

  // What is asked of every object that a walk passes, of links as of what they lead to.
  predicate Trustworthy(at: Path, node: Node) {
    && at != ["home"] && at != ["root"] && at != ["run", "user"]
    && node.uid == 0
    && (node.Link? ==> Safe(node.target))
    && (!node.Link? ==> NoWrite(node.mode / 8 % 8) && NoWrite(node.mode % 8))
    && (node.Dir? ==> node.mode % 8 % 2 == 1)
  }

  lemma NoWriteIff(digit: nat)
    requires digit < 8
    ensures NoWrite(digit) <==> digit / 2 % 2 == 0
  {
  }

  lemma Half(q: nat, t: nat)
    requires t < 2
    ensures (2 * q + t) / 2 == q && (2 * q + t) % 2 == t
  {
  }

  // The second bit of a number is that of its last octal digit.
  lemma SecondBit(a: nat)
    ensures a / 2 % 2 == a % 8 / 2 % 2 && a % 8 % 2 == a % 2
  {
    var b, r := a / 8, a % 8;
    var s, t := r / 2, r % 2;
    var u, v := s / 2, s % 2;
    Half(4 * b + s, t);
    assert a == 2 * (4 * b + s) + t;
    Half(2 * b + u, v);
    assert 4 * b + s == 2 * (2 * b + u) + v;
  }

  lemma DigitsOfMode(mode: nat)
    ensures NoWrite(mode / 8 % 8) && NoWrite(mode % 8) <==> mode / 16 % 2 == 0 && mode / 2 % 2 == 0
    ensures mode % 8 % 2 == mode % 2
  {
    NoWriteIff(mode % 8);
    NoWriteIff(mode / 8 % 8);
    SecondBit(mode);
    SecondBit(mode / 8);
    Sixteenth(mode);
  }

  lemma Sixteenth(mode: nat)
    ensures mode / 16 == mode / 8 / 2
  {
  }

  lemma AcceptedIff(fs: FileSystem, at: Path)
    ensures Accepted(fs, at) <==> fs(at).Some? && Trustworthy(at, fs(at).value)
  {
    if fs(at).Some? && !fs(at).value.Link? { DigitsOfMode(fs(at).value.mode); }
  }

  // A path is accepted if and only if it is absolute and of safe characters, can be resolved
  // with at most forty links, and the root and every object passed on the way, links included,
  // can be trusted.
  lemma TrustedIff(fs: FileSystem, input: string)
    ensures Trusted(fs, input).Some?
            <==> && |input| > 1 && input[0] == '/' && (forall k :: 0 < k < |input| ==> SafeChar(input[k]))
                 && fs([]).Some? && !fs([]).value.Link? && fs([]).value.uid == 0
                 && NoWrite(fs([]).value.mode / 8 % 8) && NoWrite(fs([]).value.mode % 8)
                 && var w := Resolve(fs, [], input[1..], MAX_LINKS, false);
                    w.Resolved? && forall at :: at in w.visited ==> fs(at).Some? && Trustworthy(at, fs(at).value)
  {
    if fs([]).Some? && !fs([]).value.Link? { DigitsOfMode(fs([]).value.mode); }
    if input != "" {
      assert Safe(input[1..]) <==> |input| > 1 && forall k :: 0 < k < |input| ==> SafeChar(input[k]) by {
        assert forall k :: 0 < k < |input| ==> input[1..][k - 1] == input[k];
      }
      forall at ensures Accepted(fs, at) <==> fs(at).Some? && Trustworthy(at, fs(at).value) { AcceptedIff(fs, at); }
    }
  }

  // --- A printed path is accepted again, as itself ---

  function Join(names: seq<string>): string {
    if names == [] then "" else if |names| == 1 then names[0] else names[0] + "/" + Join(names[1..])
  }

  predicate Name(n: string) {
    n != "" && n != "." && n != ".." && forall k :: 0 <= k < |n| ==> SafeChar(n[k]) && n[k] != '/'
  }

  predicate Names(p: Path) {
    forall k :: 0 <= k < |p| ==> Name(p[k])
  }

  predicate SafeText(text: string) {
    forall k :: 0 <= k < |text| ==> SafeChar(text[k])
  }

  lemma {:induction false} HeadIsName(text: string)
    requires SafeText(text)
    ensures SafeText(Tail(text)) && SafeText(Head(text)) && '/' !in Head(text)
  {
    if text != "" && text[0] != '/' { HeadIsName(text[1..]); }
  }

  lemma {:induction false} ResolvedNames(fs: FileSystem, dir: Path, text: string, budget: nat, more: bool)
    requires Names(dir) && SafeText(text)
    ensures var w := Resolve(fs, dir, text, budget, more); w.Resolved? && AllAccepted(fs, w.visited) ==> Names(w.path)
    decreases budget, |text|
  {
    if text != "" {
      var part, rest := Head(text), Tail(text);
      HeadIsName(text);
      var at := dir + [part];
      if part == "" || part == "." {
        ResolvedNames(fs, dir, rest, budget, more);
      } else if part == ".." {
        ResolvedNames(fs, Parent(dir), rest, budget, more);
      } else if fs(at).Some? && fs(at).value.Dir? {
        ResolvedNames(fs, at, rest, budget, more);
        LaterAccepted(fs, [at], Resolve(fs, at, rest, budget, more));
      } else if fs(at).Some? && fs(at).value.Link? && budget > 0 {
        LinkNames(fs, dir, text, budget, more);
      }
    }
  }

  lemma {:induction false} LinkNames(fs: FileSystem, dir: Path, text: string, budget: nat, more: bool)
    requires Names(dir) && SafeText(text) && Ordinary(text) && budget > 0
    requires fs(dir + [Head(text)]).Some? && fs(dir + [Head(text)]).value.Link?
    ensures var w := Resolve(fs, dir, text, budget, more); w.Resolved? && AllAccepted(fs, w.visited) ==> Names(w.path)
    decreases budget, |text|, 0
  {
    HeadIsName(text);
    var at, rest := dir + [Head(text)], Tail(text);
    var base, link := Base(dir, fs(at).value.target), WithoutSlash(fs(at).value.target);
    var inner := Resolve(fs, base, link, budget - 1, more || rest != "");
    var w := Resolve(fs, dir, text, budget, more);
    if w.Resolved? && AllAccepted(fs, w.visited) {
      var next := Resolve(fs, inner.path, rest, inner.budget, more);
      AfterAfter([at], inner.visited, next);
      LaterAccepted(fs, [at], After(inner.visited, next));
      LaterAccepted(fs, inner.visited, next);
      EarlierAccepted(fs, inner.visited, next);
      assert w.visited[0] == at;
      assert SafeText(link);
      ResolvedNames(fs, base, link, budget - 1, more || rest != "");
      ResolvedNames(fs, inner.path, rest, inner.budget, more);
    }
  }

  lemma EarlierAccepted(fs: FileSystem, visited: seq<Path>, w: Walked)
    requires w.Resolved? && AllAccepted(fs, After(visited, w).visited)
    ensures AllAccepted(fs, visited)
  {
    forall k | 0 <= k < |visited| ensures visited[k] == (visited + w.visited)[k] {}
  }

  lemma LaterAccepted(fs: FileSystem, visited: seq<Path>, w: Walked)
    ensures var all := After(visited, w); all.Resolved? && AllAccepted(fs, all.visited) ==> AllAccepted(fs, w.visited)
  {
    if w.Resolved? {
      forall k | 0 <= k < |w.visited| ensures w.visited[k] == (visited + w.visited)[|visited| + k] {}
    }
  }

  lemma {:induction false} HeadOfName(n: string)
    requires forall k :: 0 <= k < |n| ==> n[k] != '/'
    ensures Head(n) == n && Tail(n) == ""
  {
    if n != "" { HeadOfName(n[1..]); }
  }

  lemma HeadOfJoin(names: seq<string>)
    requires names != [] && Names(names)
    ensures Head(Join(names)) == names[0] && Tail(Join(names)) == Join(names[1..]) && Ordinary(Join(names))
  {
    HeadOfName(names[0]);
    if |names| > 1 { HeadTail(names[0], Join(names[1..])); }
  }

  // Resolving the text of a physical path follows no link.
  lemma {:induction false} ResolveJoined(fs: FileSystem, dir: Path, names: seq<string>, budget: nat)
    requires Names(names) && (names == [] || PhysicalDir(fs, dir + names) || PhysicalFile(fs, dir + names))
    requires forall k :: |dir| < k <= |dir + names| ==> Accepted(fs, (dir + names)[..k])
    ensures Verdict(fs, Resolve(fs, dir, Join(names), budget, false)) == Some(dir + names)
    decreases |names|
  {
    if names == [] {
      assert dir + names == dir;
    } else {
      HeadOfJoin(names);
      var at := dir + [names[0]];
      assert at + names[1..] == dir + names;
      assert (dir + names)[..|at|] == at;
      assert names[1..] == [] ==> at == dir + names;
      if fs(at).value.Dir? {
        ResolveJoined(fs, at, names[1..], budget);
        DirStep(fs, dir, Join(names), budget);
      }
    }
  }

  lemma {:induction false} JoinIsSafe(names: seq<string>)
    requires names != [] && Names(names)
    ensures Safe(Join(names))
  {
    if |names| > 1 { JoinIsSafe(names[1..]); }
  }

  // The selection that is saved after one walk is what the next walk of it yields.
  lemma WalkingAgain(fs: FileSystem, input: string)
    requires Trusted(fs, input).Some? && Trusted(fs, input).value != []
    ensures Trusted(fs, "/" + Join(Trusted(fs, input).value)) == Trusted(fs, input)
  {
    var p := Trusted(fs, input).value;
    ResolvedNames(fs, [], input[1..], MAX_LINKS, false);
    ResolvedIsPhysical(fs, [], input[1..], MAX_LINKS, false);
    ResolvedIsCovered(fs, [], input[1..], MAX_LINKS, false);
    JoinIsSafe(p);
    assert [] + p == p;
    ResolveJoined(fs, [], p, MAX_LINKS);
    assert ("/" + Join(p))[1..] == Join(p);
  }

  // --- The standard's resolution ---

  // Section 4.13 also wants a directory wherever a slash follows, even at the very end.
  function Posix(fs: FileSystem, dir: Path, text: string, budget: nat, more: bool): (w: Walked)
    ensures w.Resolved? ==> w.budget <= budget
    decreases budget, |text|
  {
    if text == "" then Resolved(dir, budget, [])
    else
      var part, rest := Head(text), Tail(text);
      if part == "" || part == "." then Posix(fs, dir, rest, budget, more)
      else if part == ".." then Posix(fs, Parent(dir), rest, budget, more)
      else
        var at := dir + [part];
        match fs(at)
        case None => Failed
        case Some(File(_, _)) => if more || text != part then Failed else Resolved(at, budget, [at])
        case Some(Dir(_, _)) => After([at], Posix(fs, at, rest, budget, more))
        case Some(Link(_, target)) =>
          if budget == 0 then Failed
          else
            var inner := Posix(fs, Base(dir, target), WithoutSlash(target), budget - 1, more || text != part);
            if inner.Failed? then Failed else After([at] + inner.visited, Posix(fs, inner.path, rest, inner.budget, more))
  }

  predicate EndsAtFile(fs: FileSystem, w: Walked) {
    w.Resolved? && PhysicalFile(fs, w.path)
  }

  // Whether the name on which the walk ends is followed by a slash: in the text, or, where
  // that name is a link, in the link's target or further on.
  predicate SlashBehind(fs: FileSystem, dir: Path, text: string, budget: nat)
    decreases budget, |text|
  {
    if text == "" then false
    else
      var part, rest := Head(text), Tail(text);
      if part == "" || part == "." then SlashBehind(fs, dir, rest, budget)
      else if part == ".." then SlashBehind(fs, Parent(dir), rest, budget)
      else
        var at := dir + [part];
        match fs(at)
        case None => false
        case Some(File(_, _)) => text != part
        case Some(Dir(_, _)) => SlashBehind(fs, at, rest, budget)
        case Some(Link(_, target)) =>
          if budget == 0 then false
          else if rest == "" then text != part || SlashBehind(fs, Base(dir, target), WithoutSlash(target), budget - 1)
          else
            var inner := Resolve(fs, Base(dir, target), WithoutSlash(target), budget - 1, true);
            inner.Resolved? && SlashBehind(fs, inner.path, rest, inner.budget)
  }

  // What the standard makes of a walk that ends at a file.
  function WithoutFile(fs: FileSystem, w: Walked, slash: bool): Walked {
    if EndsAtFile(fs, w) && slash then Failed else w
  }

  ghost predicate Differs(fs: FileSystem, dir: Path, text: string, budget: nat, more: bool, strict: bool) {
    Posix(fs, dir, text, budget, strict)
    == WithoutFile(fs, Resolve(fs, dir, text, budget, more), strict || SlashBehind(fs, dir, text, budget))
  }

  lemma {:induction false} WalksDiffer(fs: FileSystem, dir: Path, text: string, budget: nat, more: bool, strict: bool)
    requires PhysicalDir(fs, dir) && (more ==> strict)
    ensures Differs(fs, dir, text, budget, more, strict)
    decreases budget, |text|
  {
    if text != "" {
      var part, rest := Head(text), Tail(text);
      var at := dir + [part];
      if part == "" || part == "." {
        WalksDiffer(fs, dir, rest, budget, more, strict);
      } else if part == ".." {
        Up(fs, dir);
        WalksDiffer(fs, Parent(dir), rest, budget, more, strict);
      } else {
        Child(fs, dir, part);
        HeadOfWhole(text);
        if fs(at).Some? && fs(at).value.Dir? {
          WalksDiffer(fs, at, rest, budget, more, strict);
          PastDir(fs, dir, text, budget, more, strict);
        } else if fs(at).Some? && fs(at).value.Link? && budget > 0 {
          LinksDiffer(fs, dir, text, budget, more, strict);
        }
      }
    }
  }

  lemma PastDir(fs: FileSystem, dir: Path, text: string, budget: nat, more: bool, strict: bool)
    requires Ordinary(text) && fs(dir + [Head(text)]).Some? && fs(dir + [Head(text)]).value.Dir?
    requires Differs(fs, dir + [Head(text)], Tail(text), budget, more, strict)
    ensures Differs(fs, dir, text, budget, more, strict)
  {
  }

  lemma {:induction false} HeadOfWhole(text: string)
    ensures text == Head(text) ==> Tail(text) == ""
    ensures text != Head(text) ==> text == Head(text) + "/" + Tail(text)
  {
    if text != "" && text[0] != '/' { HeadOfWhole(text[1..]); }
  }

  lemma {:induction false} LinksDiffer(fs: FileSystem, dir: Path, text: string, budget: nat, more: bool, strict: bool)
    requires PhysicalDir(fs, dir) && (more ==> strict) && Ordinary(text) && budget > 0
    requires fs(dir + [Head(text)]).Some? && fs(dir + [Head(text)]).value.Link?
    ensures Differs(fs, dir, text, budget, more, strict)
    decreases budget, |text|, 0
  {
    var at, rest := dir + [Head(text)], Tail(text);
    var base, link := Base(dir, fs(at).value.target), WithoutSlash(fs(at).value.target);
    HeadOfWhole(text);
    assert PhysicalDir(fs, base);
    WalksDiffer(fs, base, link, budget - 1, more || rest != "", strict || text != Head(text));
    if rest == "" {
      LastLink(fs, dir, text, budget, more, strict);
    } else {
      var inner := Resolve(fs, base, link, budget - 1, true);
      ResolvedIsPhysical(fs, base, link, budget - 1, true);
      if inner.Resolved? { WalksDiffer(fs, inner.path, rest, inner.budget, more, strict); }
      InnerLink(fs, dir, text, budget, more, strict);
    }
  }

  // A link on which the text ends: the walk ends where the link does.
  lemma LastLink(fs: FileSystem, dir: Path, text: string, budget: nat, more: bool, strict: bool)
    requires Ordinary(text) && budget > 0 && Tail(text) == ""
    requires fs(dir + [Head(text)]).Some? && fs(dir + [Head(text)]).value.Link?
    requires var target := fs(dir + [Head(text)]).value.target;
             Differs(fs, Base(dir, target), WithoutSlash(target), budget - 1, more, strict || text != Head(text))
    ensures Differs(fs, dir, text, budget, more, strict)
  {
  }

  // A link with more behind it: it has to lead to a directory, and the walk goes on there.
  lemma InnerLink(fs: FileSystem, dir: Path, text: string, budget: nat, more: bool, strict: bool)
    requires Ordinary(text) && budget > 0 && Tail(text) != "" && text != Head(text)
    requires fs(dir + [Head(text)]).Some? && fs(dir + [Head(text)]).value.Link?
    requires var target := fs(dir + [Head(text)]).value.target;
             var inner := Resolve(fs, Base(dir, target), WithoutSlash(target), budget - 1, true);
             && Differs(fs, Base(dir, target), WithoutSlash(target), budget - 1, true, true)
             && (inner.Resolved? ==> PhysicalDir(fs, inner.path) && Differs(fs, inner.path, Tail(text), inner.budget, more, strict))
    ensures Differs(fs, dir, text, budget, more, strict)
  {
  }

  // The script's walk and the standard's take the same path over the same objects, except
  // that the standard refuses a file when a slash follows its name. The difference is decided
  // by the text and the targets of links.
  lemma AgreesWithStandard(fs: FileSystem, dir: Path, text: string, budget: nat)
    requires PhysicalDir(fs, dir)
    ensures var ours := Resolve(fs, dir, text, budget, false);
            Posix(fs, dir, text, budget, false)
            == if EndsAtFile(fs, ours) && SlashBehind(fs, dir, text, budget) then Failed else ours
  {
    WalksDiffer(fs, dir, text, budget, false, false);
  }

  predicate EndsInSlash(text: string) {
    text != "" && text[|text| - 1] == '/'
  }

  // Wherever the target of a link starts, it does not end in a slash.
  ghost predicate NoLinkEndsInSlash(fs: FileSystem) {
    forall at :: fs(at).Some? && fs(at).value.Link? ==> !EndsInSlash(WithoutSlash(fs(at).value.target))
  }

  lemma RestEndsAlike(text: string)
    requires text != ""
    ensures text != Head(text) && Tail(text) == "" ==> EndsInSlash(text)
    ensures EndsInSlash(Tail(text)) ==> EndsInSlash(text)
    ensures EndsInSlash(text) && Tail(text) != "" ==> EndsInSlash(Tail(text))
    ensures EndsInSlash(text) ==> text != Head(text)
  {
    HeadOfWhole(text);
    HeadHasNoSlash(text);
  }

  lemma {:induction false} HeadHasNoSlash(text: string)
    ensures '/' !in Head(text)
  {
    if text != "" && text[0] != '/' { HeadHasNoSlash(text[1..]); }
  }

  lemma {:induction false} NoSlashNoDifference(fs: FileSystem, dir: Path, text: string, budget: nat, more: bool)
    requires !EndsInSlash(text) && NoLinkEndsInSlash(fs)
    requires Resolve(fs, dir, text, budget, more).Resolved?
    ensures !SlashBehind(fs, dir, text, budget)
    decreases budget, |text|
  {
    if text != "" {
      RestEndsAlike(text);
      var part, rest := Head(text), Tail(text);
      var at := dir + [part];
      if part == "" || part == "." {
        NoSlashNoDifference(fs, dir, rest, budget, more);
      } else if part == ".." {
        NoSlashNoDifference(fs, Parent(dir), rest, budget, more);
      } else if fs(at).Some? && fs(at).value.Dir? {
        NoSlashNoDifference(fs, at, rest, budget, more);
      } else if fs(at).Some? && fs(at).value.Link? && budget > 0 {
        var base, link := Base(dir, fs(at).value.target), WithoutSlash(fs(at).value.target);
        if rest == "" {
          NoSlashNoDifference(fs, base, link, budget - 1, more);
        } else {
          var inner := Resolve(fs, base, link, budget - 1, true);
          NoSlashNoDifference(fs, inner.path, rest, inner.budget, more);
        }
      }
    }
  }

  // Without a slash at the end of the text and of every link's target the walks are equal.
  lemma EqualWithoutFinalSlash(fs: FileSystem, dir: Path, text: string, budget: nat)
    requires PhysicalDir(fs, dir) && !EndsInSlash(text) && NoLinkEndsInSlash(fs)
    ensures Posix(fs, dir, text, budget, false) == Resolve(fs, dir, text, budget, false)
  {
    AgreesWithStandard(fs, dir, text, budget);
    if Resolve(fs, dir, text, budget, false).Resolved? { NoSlashNoDifference(fs, dir, text, budget, false); }
  }

  lemma DirIsNoFile(fs: FileSystem, dir: Path, budget: nat)
    requires PhysicalDir(fs, dir)
    ensures !EndsAtFile(fs, Resolve(fs, dir, "", budget, false))
  {
  }

  lemma {:induction false} FinalSlashIsBehind(fs: FileSystem, dir: Path, text: string, budget: nat)
    requires PhysicalDir(fs, dir) && EndsAtFile(fs, Resolve(fs, dir, text, budget, false))
    ensures EndsInSlash(text) ==> SlashBehind(fs, dir, text, budget)
    decreases budget, |text|
  {
    DirIsNoFile(fs, dir, budget);
    RestEndsAlike(text);
    var part, rest := Head(text), Tail(text);
    var at := dir + [part];
    if part == "" || part == "." {
      DirIsNoFile(fs, dir, budget);
      FinalSlashIsBehind(fs, dir, rest, budget);
    } else if part == ".." {
      Up(fs, dir);
      DirIsNoFile(fs, Parent(dir), budget);
      FinalSlashIsBehind(fs, Parent(dir), rest, budget);
    } else {
      Child(fs, dir, part);
      if fs(at).Some? && fs(at).value.Dir? {
        DirIsNoFile(fs, at, budget);
        FinalSlashIsBehind(fs, at, rest, budget);
      } else if fs(at).Some? && fs(at).value.Link? && budget > 0 && rest != "" {
        var base, link := Base(dir, fs(at).value.target), WithoutSlash(fs(at).value.target);
        var inner := Resolve(fs, base, link, budget - 1, true);
        ResolvedIsPhysical(fs, base, link, budget - 1, true);
        FinalSlashIsBehind(fs, inner.path, rest, inner.budget);
      }
    }
  }

  // A text that ends in a slash and leads to a file is what the standard refuses.
  lemma FinalSlashIsRefused(fs: FileSystem, dir: Path, text: string, budget: nat)
    requires PhysicalDir(fs, dir) && EndsInSlash(text) && EndsAtFile(fs, Resolve(fs, dir, text, budget, false))
    ensures Posix(fs, dir, text, budget, false).Failed?
  {
    AgreesWithStandard(fs, dir, text, budget);
    FinalSlashIsBehind(fs, dir, text, budget);
  }

  // A file named with a slash at the end is accepted, which the standard forbids.
  lemma TrailingSlashExample(fs: FileSystem)
    requires RootProtected(fs) && fs(["f"]) == Some(File(0, 0))
    ensures Trusted(fs, "/f/") == Some(["f"]) && Posix(fs, [], "f/", MAX_LINKS, false).Failed?
  {
    assert "f/" == "f" + "/" + "" && "/f/"[1..] == "f/";
    HeadTail("f", "");
    HeadOfName("f");
    assert [] + ["f"] == ["f"];
    assert Safe("f/");
  }
}
