// The compact view of a tool result: strings, arrays, keys and depth are limited at every
// level, and every cut is reported in a bounded list of omissions.
module Compaction {
  import opened JsonValues
  import opened Options
  import JsonLength

  const MAX_DEPTH := 6
  const OMITTED: Text := [91, 111, 109, 105, 116, 116, 101, 100, 93]

  datatype Limits = Limits(maxString: nat, maxArray: nat, maxKeys: nat)

  datatype Step = Index(index: nat) | Key(key: Text)
  type Path = seq<Step>

  datatype Omission =
    | StringLimit(path: Path, original: nat, retained: nat)
    | DepthLimit(path: Path)
    | ItemLimit(path: Path, original: nat, retained: nat)
    | KeyLimit(path: Path, original: nat, retained: nat)
    | ByteLimit(path: Path)
    | MetadataLimit(omittedCount: nat)

  function Min(a: nat, b: nat): nat {
    if a <= b then a else b
  }

  // --- What compaction keeps and what it reports ---

  function Compact(v: Json, leq: Order, limits: Limits, depth: nat): Json
    requires depth <= MAX_DEPTH
    decreases MAX_DEPTH - depth, 0, v
  {
    match v
    case Str(t) => Str(t[..Min(|t|, limits.maxString)])
    case Arr(items) =>
      if depth == MAX_DEPTH then Str(OMITTED) else Arr(CompactItems(items, Min(|items|, limits.maxArray), leq, limits, depth + 1))
    case Obj(members) =>
      if depth == MAX_DEPTH then Str(OMITTED)
      else
        var entries := Sort(members, leq);
        Obj(CompactMembers(entries, Min(|entries|, limits.maxKeys), leq, limits, depth + 1))
    case _ => v
  }

  function CompactItems(items: seq<Json>, n: nat, leq: Order, limits: Limits, depth: nat): seq<Json>
    requires n <= |items| && depth <= MAX_DEPTH
    decreases MAX_DEPTH - depth, 1, items
  {
    seq(n, k requires 0 <= k < n => Compact(items[k], leq, limits, depth))
  }

  function CompactMembers(entries: seq<Member>, n: nat, leq: Order, limits: Limits, depth: nat): seq<Member>
    requires n <= |entries| && depth <= MAX_DEPTH
    decreases MAX_DEPTH - depth, 1, entries
  {
    seq(n, k requires 0 <= k < n => Pair(entries[k].key, Compact(entries[k].value, leq, limits, depth)))
  }

  function Omissions(v: Json, path: Path, leq: Order, limits: Limits, depth: nat): seq<Omission>
    requires depth <= MAX_DEPTH
    decreases MAX_DEPTH - depth, 0, v
  {
    match v
    case Str(t) => if |t| <= limits.maxString then [] else [StringLimit(path, |t|, limits.maxString)]
    case Arr(items) =>
      if depth == MAX_DEPTH then [DepthLimit(path)]
      else
        var n := Min(|items|, limits.maxArray);
        ItemOmissions(items, n, path, leq, limits, depth + 1) + (if n < |items| then [ItemLimit(path, |items|, n)] else [])
    case Obj(members) =>
      if depth == MAX_DEPTH then [DepthLimit(path)]
      else
        var entries := Sort(members, leq);
        var n := Min(|entries|, limits.maxKeys);
        MemberOmissions(entries, n, path, leq, limits, depth + 1) + (if n < |entries| then [KeyLimit(path, |entries|, n)] else [])
    case _ => []
  }

  function ItemOmissions(items: seq<Json>, n: nat, path: Path, leq: Order, limits: Limits, depth: nat): seq<Omission>
    requires n <= |items| && depth <= MAX_DEPTH
    decreases MAX_DEPTH - depth, 1, n, items
  {
    if n == 0 then []
    else ItemOmissions(items, n - 1, path, leq, limits, depth) + Omissions(items[n - 1], path + [Index(n - 1)], leq, limits, depth)
  }

  function MemberOmissions(entries: seq<Member>, n: nat, path: Path, leq: Order, limits: Limits, depth: nat): seq<Omission>
    requires n <= |entries| && depth <= MAX_DEPTH
    decreases MAX_DEPTH - depth, 1, n, entries
  {
    if n == 0 then []
    else MemberOmissions(entries, n - 1, path, leq, limits, depth)
         + Omissions(entries[n - 1].value, path + [Key(entries[n - 1].key)], leq, limits, depth)
  }

  // Compaction of a whole value, and what it reports.
  function Pass(source: Json, limits: Limits, leq: Order): Json {
    Compact(source, leq, limits, 0)
  }

  function Cuts(source: Json, limits: Limits, leq: Order): seq<Omission> {
    Omissions(source, [], leq, limits, 0)
  }

  lemma ItemsOneMore(items: seq<Json>, n: nat, path: Path, leq: Order, limits: Limits, depth: nat)
    requires n < |items| && depth <= MAX_DEPTH
    ensures CompactItems(items, n + 1, leq, limits, depth)
         == CompactItems(items, n, leq, limits, depth) + [Compact(items[n], leq, limits, depth)]
    ensures ItemOmissions(items, n + 1, path, leq, limits, depth)
         == ItemOmissions(items, n, path, leq, limits, depth) + Omissions(items[n], path + [Index(n)], leq, limits, depth)
  {
  }

  lemma MembersOneMore(entries: seq<Member>, n: nat, path: Path, leq: Order, limits: Limits, depth: nat)
    requires n < |entries| && depth <= MAX_DEPTH
    ensures CompactMembers(entries, n + 1, leq, limits, depth)
         == CompactMembers(entries, n, leq, limits, depth) + [Pair(entries[n].key, Compact(entries[n].value, leq, limits, depth))]
    ensures MemberOmissions(entries, n + 1, path, leq, limits, depth)
         == MemberOmissions(entries, n, path, leq, limits, depth)
            + Omissions(entries[n].value, path + [Key(entries[n].key)], leq, limits, depth)
  {
  }

  // --- The recursive procedure that fills one shared list ---

  class OmissionLog {
    var entries: seq<Omission>

    constructor ()
      ensures entries == []
    {
      entries := [];
    }

    method CompactObject(source: Json, limits: Limits, leq: Order) returns (r: Json)
      modifies this
      ensures r == Pass(source, limits, leq)
      ensures entries == old(entries) + Cuts(source, limits, leq)
    {
      r := CompactValue(source, [], leq, limits, 0);
    }

    method CompactValue(value: Json, path: Path, leq: Order, limits: Limits, depth: nat) returns (r: Json)
      requires depth <= MAX_DEPTH
      modifies this
      ensures r == Compact(value, leq, limits, depth)
      ensures entries == old(entries) + Omissions(value, path, leq, limits, depth)
      decreases MAX_DEPTH - depth, 0
    {
      match value {
        case Str(t) =>
          if |t| <= limits.maxString { return value; }
          entries := entries + [StringLimit(path, |t|, limits.maxString)];
          return Str(t[..limits.maxString]);
        case Arr(items) =>
          if depth >= MAX_DEPTH {
            entries := entries + [DepthLimit(path)];
            return Str(OMITTED);
          }
          var retained := CompactArray(items, path, leq, limits, depth + 1);
          if |retained| < |items| { entries := entries + [ItemLimit(path, |items|, |retained|)]; }
          return Arr(retained);
        case Obj(members) =>
          if depth >= MAX_DEPTH {
            entries := entries + [DepthLimit(path)];
            return Str(OMITTED);
          }
          var sorted := Sort(members, leq);
          var retained := CompactEntries(sorted, path, leq, limits, depth + 1);
          if |retained| < |sorted| { entries := entries + [KeyLimit(path, |sorted|, |retained|)]; }
          return Obj(retained);
        case _ => return value;
      }
    }

    method CompactArray(items: seq<Json>, path: Path, leq: Order, limits: Limits, depth: nat) returns (retained: seq<Json>)
      requires depth <= MAX_DEPTH
      modifies this
      ensures retained == CompactItems(items, Min(|items|, limits.maxArray), leq, limits, depth)
      ensures entries == old(entries) + ItemOmissions(items, Min(|items|, limits.maxArray), path, leq, limits, depth)
      decreases MAX_DEPTH - depth, 1
    {
      retained := [];
      while |retained| < |items| && |retained| < limits.maxArray
        invariant |retained| <= Min(|items|, limits.maxArray)
        invariant retained == CompactItems(items, |retained|, leq, limits, depth)
        invariant entries == old(entries) + ItemOmissions(items, |retained|, path, leq, limits, depth)
        decreases |items| - |retained|
      {
        ItemsOneMore(items, |retained|, path, leq, limits, depth);
        var item := CompactValue(items[|retained|], path + [Index(|retained|)], leq, limits, depth);
        retained := retained + [item];
      }
    }

    method CompactEntries(sorted: seq<Member>, path: Path, leq: Order, limits: Limits, depth: nat) returns (retained: seq<Member>)
      requires depth <= MAX_DEPTH
      modifies this
      ensures retained == CompactMembers(sorted, Min(|sorted|, limits.maxKeys), leq, limits, depth)
      ensures entries == old(entries) + MemberOmissions(sorted, Min(|sorted|, limits.maxKeys), path, leq, limits, depth)
      decreases MAX_DEPTH - depth, 1
    {
      retained := [];
      while |retained| < |sorted| && |retained| < limits.maxKeys
        invariant |retained| <= Min(|sorted|, limits.maxKeys)
        invariant retained == CompactMembers(sorted, |retained|, leq, limits, depth)
        invariant entries == old(entries) + MemberOmissions(sorted, |retained|, path, leq, limits, depth)
        decreases |sorted| - |retained|
      {
        MembersOneMore(sorted, |retained|, path, leq, limits, depth);
        var e := sorted[|retained|];
        var child := CompactValue(e.value, path + [Key(e.key)], leq, limits, depth);
        retained := retained + [Pair(e.key, child)];
      }
    }
  }

  // --- Limits at every level ---

  predicate Within(v: Json, limits: Limits, depth: nat) {
    match v
    case Str(t) => |t| <= limits.maxString
    case Arr(items) =>
      depth < MAX_DEPTH && |items| <= limits.maxArray && forall k :: 0 <= k < |items| ==> Within(items[k], limits, depth + 1)
    case Obj(members) =>
      depth < MAX_DEPTH && |members| <= limits.maxKeys && forall k :: 0 <= k < |members| ==> Within(members[k].value, limits, depth + 1)
    case _ => true
  }

  lemma {:induction false} CompactIsWithin(v: Json, leq: Order, limits: Limits, depth: nat)
    requires depth <= MAX_DEPTH && |OMITTED| <= limits.maxString
    ensures Within(Compact(v, leq, limits, depth), limits, depth)
    decreases MAX_DEPTH - depth
  {
    if depth < MAX_DEPTH {
      match v {
        case Arr(items) =>
          forall k | 0 <= k < Min(|items|, limits.maxArray) ensures Within(Compact(items[k], leq, limits, depth + 1), limits, depth + 1) {
            CompactIsWithin(items[k], leq, limits, depth + 1);
          }
        case Obj(members) =>
          var entries := Sort(members, leq);
          forall k | 0 <= k < Min(|entries|, limits.maxKeys)
            ensures Within(Compact(entries[k].value, leq, limits, depth + 1), limits, depth + 1)
          {
            CompactIsWithin(entries[k].value, leq, limits, depth + 1);
          }
        case _ =>
      }
    }
  }

  // --- A tighter pass over a looser pass's output is the tighter pass over the source ---

  predicate Tighter(a: Limits, b: Limits) {
    a.maxString <= b.maxString && a.maxArray <= b.maxArray && a.maxKeys <= b.maxKeys
  }

  ghost predicate Absorbs(v: Json, leq: Order, loose: Limits, tight: Limits, depth: nat)
    requires depth <= MAX_DEPTH
  {
    Compact(Compact(v, leq, loose, depth), leq, tight, depth) == Compact(v, leq, tight, depth)
  }

  lemma AbsorbItems(items: seq<Json>, leq: Order, loose: Limits, tight: Limits, depth: nat)
    requires depth < MAX_DEPTH && Tighter(tight, loose)
    requires forall k :: 0 <= k < |items| ==> Absorbs(items[k], leq, loose, tight, depth + 1)
    ensures Absorbs(Arr(items), leq, loose, tight, depth)
  {
    var first := CompactItems(items, Min(|items|, loose.maxArray), leq, loose, depth + 1);
    var second := CompactItems(first, Min(|first|, tight.maxArray), leq, tight, depth + 1);
    var direct := CompactItems(items, Min(|items|, tight.maxArray), leq, tight, depth + 1);
    assert |second| == |direct|;
    forall k | 0 <= k < |direct| ensures second[k] == direct[k] {
      assert Absorbs(items[k], leq, loose, tight, depth + 1);
    }
    assert second == direct;
  }

  function Retained(entries: seq<Member>, leq: Order, limits: Limits, depth: nat): seq<Member>
    requires depth <= MAX_DEPTH
  {
    CompactMembers(entries, Min(|entries|, limits.maxKeys), leq, limits, depth)
  }

  lemma CompactOfObject(members: seq<Member>, leq: Order, limits: Limits, depth: nat)
    requires depth < MAX_DEPTH
    ensures Compact(Obj(members), leq, limits, depth) == Obj(Retained(Sort(members, leq), leq, limits, depth + 1))
  {
  }

  // All that absorption needs of the comparison.
  ghost predicate Orders(leq: Order) {
    forall members: seq<Member> :: SortOrders(members, leq)
  }

  ghost predicate SortOrders(members: seq<Member>, leq: Order) {
    Sorted(Sort(members, leq), leq)
  }

  lemma PreorderOrders(leq: Order)
    requires TotalPreorder(leq)
    ensures Orders(leq)
  {
    forall members: seq<Member> ensures SortOrders(members, leq) { SortSorts(members, leq); }
  }

  // The keys that survive the first pass are sorted already.
  lemma SurvivorsAreSorted(members: seq<Member>, leq: Order, limits: Limits, depth: nat)
    requires Orders(leq) && depth <= MAX_DEPTH
    ensures var kept := Retained(Sort(members, leq), leq, limits, depth); Sort(kept, leq) == kept
  {
    var entries := Sort(members, leq);
    var kept := Retained(entries, leq, limits, depth);
    assert SortOrders(members, leq);
    forall j, k | 0 <= j < k < |kept| ensures leq(kept[j].key, kept[k].key) {
      assert kept[j].key == entries[j].key && kept[k].key == entries[k].key;
    }
    SortedStays(kept, leq);
  }

  lemma {:induction false} Absorption(v: Json, leq: Order, loose: Limits, tight: Limits, depth: nat)
    requires Orders(leq) && depth <= MAX_DEPTH && Tighter(tight, loose) && |OMITTED| <= tight.maxString
    ensures Absorbs(v, leq, loose, tight, depth)
    decreases MAX_DEPTH - depth, 2
  {
    match v {
      case Str(t) => assert t[..Min(|t|, loose.maxString)][..Min(|t|, tight.maxString)] == t[..Min(|t|, tight.maxString)];
      case Arr(items) =>
        if depth == MAX_DEPTH {
          assert OMITTED[..|OMITTED|] == OMITTED;
        } else {
          forall k | 0 <= k < |items| ensures Absorbs(items[k], leq, loose, tight, depth + 1) {
            Absorption(items[k], leq, loose, tight, depth + 1);
          }
          AbsorbItems(items, leq, loose, tight, depth);
        }
      case Obj(members) =>
        if depth == MAX_DEPTH {
          assert OMITTED[..|OMITTED|] == OMITTED;
        } else {
          ObjectAbsorbs(members, leq, loose, tight, depth);
        }
      case _ =>
    }
  }

  lemma {:induction false} ObjectAbsorbs(members: seq<Member>, leq: Order, loose: Limits, tight: Limits, depth: nat)
    requires Orders(leq) && depth < MAX_DEPTH && Tighter(tight, loose) && |OMITTED| <= tight.maxString
    ensures Absorbs(Obj(members), leq, loose, tight, depth)
    decreases MAX_DEPTH - depth, 1
  {
    var entries := Sort(members, leq);
    EntriesAbsorb(entries, leq, loose, tight, depth + 1);
    SurvivorsAreSorted(members, leq, loose, depth + 1);
    var first := Retained(entries, leq, loose, depth + 1);
    CompactOfObject(members, leq, loose, depth);
    CompactOfObject(members, leq, tight, depth);
    CompactOfSorted(first, leq, tight, depth);
    TwoPasses(Obj(members), Obj(first), Obj(Retained(first, leq, tight, depth + 1)), leq, loose, tight, depth);
  }

  lemma CompactOfSorted(members: seq<Member>, leq: Order, limits: Limits, depth: nat)
    requires depth < MAX_DEPTH && Sort(members, leq) == members
    ensures Compact(Obj(members), leq, limits, depth) == Obj(Retained(members, leq, limits, depth + 1))
  {
  }

  lemma TwoPasses(v: Json, first: Json, second: Json, leq: Order, loose: Limits, tight: Limits, depth: nat)
    requires depth <= MAX_DEPTH && Compact(v, leq, loose, depth) == first
    requires Compact(first, leq, tight, depth) == second && Compact(v, leq, tight, depth) == second
    ensures Absorbs(v, leq, loose, tight, depth)
  {
  }

  lemma {:induction false} EntriesAbsorb(entries: seq<Member>, leq: Order, loose: Limits, tight: Limits, depth: nat)
    requires Orders(leq) && 0 < depth <= MAX_DEPTH && Tighter(tight, loose) && |OMITTED| <= tight.maxString
    ensures Retained(Retained(entries, leq, loose, depth), leq, tight, depth) == Retained(entries, leq, tight, depth)
    decreases MAX_DEPTH - depth, 3
  {
    var second := Retained(Retained(entries, leq, loose, depth), leq, tight, depth);
    var direct := Retained(entries, leq, tight, depth);
    assert |second| == |direct|;
    forall k | 0 <= k < |direct| ensures second[k] == direct[k] {
      Absorption(entries[k].value, leq, loose, tight, depth);
      assert Absorbs(entries[k].value, leq, loose, tight, depth);
    }
  }

  lemma TighterAbsorbs(v: Json, leq: Order, loose: Limits, tight: Limits, depth: nat)
    requires TotalPreorder(leq) && depth <= MAX_DEPTH && Tighter(tight, loose) && |OMITTED| <= tight.maxString
    ensures Absorbs(v, leq, loose, tight, depth)
  {
    PreorderOrders(leq);
    Absorption(v, leq, loose, tight, depth);
  }

  lemma CompactionIsIdempotent(v: Json, leq: Order, limits: Limits)
    requires TotalPreorder(leq) && |OMITTED| <= limits.maxString
    ensures Compact(Compact(v, leq, limits, 0), leq, limits, 0) == Compact(v, leq, limits, 0)
  {
    TighterAbsorbs(v, leq, limits, limits, 0);
  }

  // --- Nothing is omitted exactly when nothing changed ---

  lemma {:induction false} ItemOmissionsEmpty(items: seq<Json>, n: nat, path: Path, leq: Order, limits: Limits, depth: nat)
    requires n <= |items| && depth <= MAX_DEPTH
    ensures ItemOmissions(items, n, path, leq, limits, depth) == []
            <==> forall k :: 0 <= k < n ==> Omissions(items[k], path + [Index(k)], leq, limits, depth) == []
  {
    if n > 0 { ItemOmissionsEmpty(items, n - 1, path, leq, limits, depth); }
  }

  lemma {:induction false} MemberOmissionsEmpty(entries: seq<Member>, n: nat, path: Path, leq: Order, limits: Limits, depth: nat)
    requires n <= |entries| && depth <= MAX_DEPTH
    ensures MemberOmissions(entries, n, path, leq, limits, depth) == []
            <==> forall k :: 0 <= k < n ==> Omissions(entries[k].value, path + [Key(entries[k].key)], leq, limits, depth) == []
  {
    if n > 0 { MemberOmissionsEmpty(entries, n - 1, path, leq, limits, depth); }
  }

  // What the omissions of a container are made of.
  lemma OmissionsOfArray(items: seq<Json>, path: Path, leq: Order, limits: Limits, depth: nat)
    requires depth < MAX_DEPTH
    ensures var n := Min(|items|, limits.maxArray);
            Omissions(Arr(items), path, leq, limits, depth)
            == ItemOmissions(items, n, path, leq, limits, depth + 1) + (if n < |items| then [ItemLimit(path, |items|, n)] else [])
  {
  }

  lemma OmissionsOfObject(members: seq<Member>, path: Path, leq: Order, limits: Limits, depth: nat)
    requires depth < MAX_DEPTH
    ensures var n := Min(|members|, limits.maxKeys);
            && |Sort(members, leq)| == |members|
            && Omissions(Obj(members), path, leq, limits, depth)
               == MemberOmissions(Sort(members, leq), n, path, leq, limits, depth + 1)
                  + (if n < |members| then [KeyLimit(path, |members|, n)] else [])
  {
    SortKeeps(members, leq);
  }

  lemma WithinOfObject(members: seq<Member>, limits: Limits, depth: nat)
    requires depth < MAX_DEPTH
    ensures Within(Obj(members), limits, depth) <==> |members| <= limits.maxKeys && AllWithin(members, limits, depth + 1)
  {
  }

  // Whether something is omitted depends neither on the path nor on the order of keys.
  lemma {:induction false} NothingOmittedIffWithin(v: Json, path: Path, leq: Order, limits: Limits, depth: nat)
    requires depth <= MAX_DEPTH
    ensures Omissions(v, path, leq, limits, depth) == [] <==> Within(v, limits, depth)
    decreases MAX_DEPTH - depth, 3
  {
    if depth < MAX_DEPTH && v.Arr? {
      OmissionsOfArray(v.items, path, leq, limits, depth);
      ItemsOmittedIff(v.items, path, leq, limits, depth + 1);
    } else if depth < MAX_DEPTH && v.Obj? {
      NothingOmittedInObject(v.members, path, leq, limits, depth);
    }
  }

  lemma {:induction false} NothingOmittedInObject(members: seq<Member>, path: Path, leq: Order, limits: Limits, depth: nat)
    requires depth < MAX_DEPTH
    ensures Omissions(Obj(members), path, leq, limits, depth) == [] <==> Within(Obj(members), limits, depth)
    decreases MAX_DEPTH - depth, 2
  {
    var n := Min(|members|, limits.maxKeys);
    OmissionsOfObject(members, path, leq, limits, depth);
    SortedOmittedIff(members, path, leq, limits, depth + 1);
    NoneInEither(Omissions(Obj(members), path, leq, limits, depth),
                 MemberOmissions(Sort(members, leq), n, path, leq, limits, depth + 1), n < |members|, KeyLimit(path, |members|, n));
    WithinOfObject(members, limits, depth);
  }

  lemma NoneInEither(all: seq<Omission>, inside: seq<Omission>, cut: bool, last: Omission)
    requires all == inside + (if cut then [last] else [])
    ensures all == [] <==> inside == [] && !cut
  {
  }

  lemma {:induction false} SortedOmittedIff(members: seq<Member>, path: Path, leq: Order, limits: Limits, depth: nat)
    requires 0 < depth <= MAX_DEPTH
    ensures |Sort(members, leq)| == |members|
    ensures MemberOmissions(Sort(members, leq), Min(|members|, limits.maxKeys), path, leq, limits, depth) == [] && |members| <= limits.maxKeys
            <==> |members| <= limits.maxKeys && AllWithin(members, limits, depth)
    decreases MAX_DEPTH - depth + 1, 1
  {
    SortKeeps(members, leq);
    MembersOmittedIff(Sort(members, leq), path, leq, limits, depth);
    WithinPermuted(Sort(members, leq), members, limits, depth);
  }

  lemma {:induction false} ItemsOmittedIff(items: seq<Json>, path: Path, leq: Order, limits: Limits, depth: nat)
    requires 0 < depth <= MAX_DEPTH
    ensures ItemOmissions(items, Min(|items|, limits.maxArray), path, leq, limits, depth) == [] && |items| <= limits.maxArray
            <==> |items| <= limits.maxArray && forall k :: 0 <= k < |items| ==> Within(items[k], limits, depth)
    decreases MAX_DEPTH - depth + 1, 0
  {
    ItemOmissionsEmpty(items, Min(|items|, limits.maxArray), path, leq, limits, depth);
    forall k | 0 <= k < |items|
      ensures Omissions(items[k], path + [Index(k)], leq, limits, depth) == [] <==> Within(items[k], limits, depth)
    {
      NothingOmittedIffWithin(items[k], path + [Index(k)], leq, limits, depth);
    }
  }

  lemma {:induction false} MembersOmittedIff(entries: seq<Member>, path: Path, leq: Order, limits: Limits, depth: nat)
    requires 0 < depth <= MAX_DEPTH
    ensures MemberOmissions(entries, Min(|entries|, limits.maxKeys), path, leq, limits, depth) == [] && |entries| <= limits.maxKeys
            <==> |entries| <= limits.maxKeys && AllWithin(entries, limits, depth)
    decreases MAX_DEPTH - depth + 1, 0
  {
    MemberOmissionsEmpty(entries, Min(|entries|, limits.maxKeys), path, leq, limits, depth);
    forall k | 0 <= k < |entries|
      ensures Omissions(entries[k].value, path + [Key(entries[k].key)], leq, limits, depth) == [] <==> Within(entries[k].value, limits, depth)
    {
      NothingOmittedIffWithin(entries[k].value, path + [Key(entries[k].key)], leq, limits, depth);
    }
  }

  predicate AllWithin(entries: seq<Member>, limits: Limits, depth: nat) {
    forall k :: 0 <= k < |entries| ==> Within(entries[k].value, limits, depth)
  }

  lemma WithinPermuted(a: seq<Member>, b: seq<Member>, limits: Limits, depth: nat)
    requires multiset(a) == multiset(b)
    ensures AllWithin(a, limits, depth) <==> AllWithin(b, limits, depth)
  {
    if AllWithin(a, limits, depth) { forall m | m in b ensures Within(m.value, limits, depth) { assert m in multiset(a); } }
    if AllWithin(b, limits, depth) { forall m | m in a ensures Within(m.value, limits, depth) { assert m in multiset(b); } }
  }

  // --- A value is unchanged exactly when it was within the limits ---

  lemma {:induction false} InsertKeepsDistinct(entries: seq<Member>, e: Member, leq: Order)
    requires DistinctKeys(entries) && forall x :: x in entries ==> x.key != e.key
    ensures DistinctKeys(Insert(entries, e, leq))
  {
    if entries != [] {
      var n := |entries| - 1;
      if !leq(entries[n].key, e.key) {
        var inner := Insert(entries[..n], e, leq);
        InsertKeepsDistinct(entries[..n], e, leq);
        InsertKeeps(entries[..n], e, leq);
        forall x | x in inner ensures x.key != entries[n].key {
          assert x in multiset(inner);
          assert x == e || x in entries[..n];
        }
      }
    }
  }

  lemma {:induction false} SortKeepsDistinct(entries: seq<Member>, leq: Order)
    requires DistinctKeys(entries)
    ensures DistinctKeys(Sort(entries, leq))
  {
    if entries != [] {
      var n := |entries| - 1;
      var sorted := Sort(entries[..n], leq);
      SortKeepsDistinct(entries[..n], leq);
      SortKeeps(entries[..n], leq);
      forall x | x in sorted ensures x.key != entries[n].key {
        assert x in multiset(sorted);
      }
      InsertKeepsDistinct(sorted, entries[n], leq);
    }
  }

  ghost predicate Faithful(v: Json, leq: Order, limits: Limits, depth: nat)
    requires depth <= MAX_DEPTH
  {
    Same(v, Compact(v, leq, limits, depth)) <==> Within(v, limits, depth)
  }

  lemma {:induction false} UnchangedIffWithin(v: Json, leq: Order, limits: Limits, depth: nat)
    requires WellFormed(v) && depth <= MAX_DEPTH
    ensures Faithful(v, leq, limits, depth)
    decreases MAX_DEPTH - depth, 1
  {
    if depth < MAX_DEPTH {
      match v {
        case Arr(items) =>
          forall k | 0 <= k < |items| ensures Faithful(items[k], leq, limits, depth + 1) {
            UnchangedIffWithin(items[k], leq, limits, depth + 1);
          }
          ItemsUnchanged(items, leq, limits, depth);
        case Obj(members) => ObjectUnchanged(members, leq, limits, depth);
        case _ =>
      }
    }
  }

  lemma {:induction false} ObjectUnchanged(members: seq<Member>, leq: Order, limits: Limits, depth: nat)
    requires WellFormed(Obj(members)) && depth < MAX_DEPTH
    ensures Faithful(Obj(members), leq, limits, depth)
    decreases MAX_DEPTH - depth, 0
  {
    CompactOfObject(members, leq, limits, depth);
    WithinOfObject(members, limits, depth);
    MembersUnchanged(members, leq, limits, depth + 1);
    KeptIffWithin(members, leq, limits, depth + 1);
  }

  lemma {:induction false} KeptIffWithin(members: seq<Member>, leq: Order, limits: Limits, depth: nat)
    requires WellFormed(Obj(members)) && 0 < depth <= MAX_DEPTH
    ensures AllKept(members, leq, limits, depth) <==> AllWithin(members, limits, depth)
    decreases MAX_DEPTH - depth, 2
  {
    forall k | 0 <= k < |members| ensures Kept(members[k], leq, limits, depth) <==> Within(members[k].value, limits, depth) {
      UnchangedIffWithin(members[k].value, leq, limits, depth);
    }
  }

  ghost predicate AllKept(members: seq<Member>, leq: Order, limits: Limits, depth: nat)
    requires depth <= MAX_DEPTH
  {
    forall k :: 0 <= k < |members| ==> Kept(members[k], leq, limits, depth)
  }

  lemma ItemsUnchanged(items: seq<Json>, leq: Order, limits: Limits, depth: nat)
    requires depth < MAX_DEPTH && forall k :: 0 <= k < |items| ==> Faithful(items[k], leq, limits, depth + 1)
    ensures Faithful(Arr(items), leq, limits, depth)
  {
    var kept := CompactItems(items, Min(|items|, limits.maxArray), leq, limits, depth + 1);
    assert forall k :: 0 <= k < |kept| ==> kept[k] == Compact(items[k], leq, limits, depth + 1);
    assert Compact(Arr(items), leq, limits, depth) == Arr(kept);
  }

  ghost predicate Kept(m: Member, leq: Order, limits: Limits, depth: nat)
    requires depth <= MAX_DEPTH
  {
    Same(m.value, Compact(m.value, leq, limits, depth))
  }

  // A key that was not cut is found again under the same key and nowhere else.
  lemma KeptAtItsKey(members: seq<Member>, j: nat, leq: Order, limits: Limits, depth: nat)
    requires j < |members| <= limits.maxKeys && DistinctKeys(members) && depth <= MAX_DEPTH
    ensures HasSame(Retained(Sort(members, leq), leq, limits, depth), members[j]) <==> Kept(members[j], leq, limits, depth)
  {
    var entries := Sort(members, leq);
    var kept := Retained(entries, leq, limits, depth);
    SortKeeps(members, leq);
    SortKeepsDistinct(members, leq);
    assert members[j] in multiset(entries);
    var i :| 0 <= i < |entries| && entries[i] == members[j];
    assert kept[i] == Pair(members[j].key, Compact(members[j].value, leq, limits, depth));
    forall k | 0 <= k < |kept| && kept[k].key == members[j].key ensures k == i {
      assert kept[k].key == entries[k].key && kept[i].key == entries[i].key;
    }
  }

  lemma MembersUnchanged(members: seq<Member>, leq: Order, limits: Limits, depth: nat)
    requires DistinctKeys(members) && depth <= MAX_DEPTH
    ensures Same(Obj(members), Obj(Retained(Sort(members, leq), leq, limits, depth)))
            <==> |members| <= limits.maxKeys && AllKept(members, leq, limits, depth)
  {
    var kept := Retained(Sort(members, leq), leq, limits, depth);
    SortKeeps(members, leq);
    SameAsMaps(Obj(members), Obj(kept));
    if |members| <= limits.maxKeys {
      forall j | 0 <= j < |members| ensures HasSame(kept, members[j]) <==> Kept(members[j], leq, limits, depth) {
        KeptAtItsKey(members, j, leq, limits, depth);
      }
    }
  }

  lemma SameAsMaps(v: Json, w: Json)
    requires v.Obj? && w.Obj?
    ensures Same(v, w) <==> |v.members| == |w.members| && forall j :: 0 <= j < |v.members| ==> HasSame(w.members, v.members[j])
  {
  }

  // An empty list of omissions means an unchanged value, and an unchanged value means an
  // empty list.
  lemma NothingOmittedIffUnchanged(v: Json, path: Path, leq: Order, limits: Limits)
    requires WellFormed(v)
    ensures Omissions(v, path, leq, limits, 0) == [] <==> Same(v, Compact(v, leq, limits, 0))
  {
    NothingOmittedIffWithin(v, path, leq, limits, 0);
    UnchangedIffWithin(v, leq, limits, 0);
  }

  // --- Every omission tells the truth about the place it names ---

  function Lookup(members: seq<Member>, key: Text): Option<Json> {
    if members == [] then None
    else if members[0].key == key then Some(members[0].value)
    else Lookup(members[1..], key)
  }

  function Find(v: Json, path: Path): Option<Json>
    decreases |path|
  {
    if path == [] then Some(v)
    else
      match path[0]
      case Index(k) => if v.Arr? && k < |v.items| then Find(v.items[k], path[1..]) else None
      case Key(key) =>
        if v.Obj? && Lookup(v.members, key).Some? then Find(Lookup(v.members, key).value, path[1..]) else None
  }

  // rest leads from the value where compaction stands to the place that was cut.
  predicate Describes(o: Omission, v: Json, path: Path, rest: Path, limits: Limits, depth: nat) {
    && Find(v, rest).Some?
    && var place := Find(v, rest).value;
       match o
       case StringLimit(p, original, retained) => p == path + rest && place.Str? && original == |place.text| && retained == limits.maxString < original
       case ItemLimit(p, original, retained) => p == path + rest && place.Arr? && original == |place.items| && retained == limits.maxArray < original
       case KeyLimit(p, original, retained) => p == path + rest && place.Obj? && original == |place.members| && retained == limits.maxKeys < original
       case DepthLimit(p) => p == path + rest && (place.Arr? || place.Obj?) && depth + |rest| == MAX_DEPTH
       case _ => false
  }

  ghost predicate Accurate(o: Omission, v: Json, path: Path, limits: Limits, depth: nat) {
    exists rest :: Describes(o, v, path, rest, limits, depth)
  }

  lemma {:induction false} LookupFinds(members: seq<Member>, j: nat)
    requires j < |members| && DistinctKeys(members)
    ensures Lookup(members, members[j].key) == Some(members[j].value)
  {
    if j > 0 { LookupFinds(members[1..], j - 1); }
  }

  lemma {:induction false} ItemOmissionSource(o: Omission, items: seq<Json>, n: nat, path: Path, leq: Order, limits: Limits, depth: nat) returns (k: nat)
    requires n <= |items| && depth <= MAX_DEPTH && o in ItemOmissions(items, n, path, leq, limits, depth)
    ensures k < n && o in Omissions(items[k], path + [Index(k)], leq, limits, depth)
  {
    if o in Omissions(items[n - 1], path + [Index(n - 1)], leq, limits, depth) { return n - 1; }
    k := ItemOmissionSource(o, items, n - 1, path, leq, limits, depth);
  }

  lemma {:induction false} MemberOmissionSource(o: Omission, entries: seq<Member>, n: nat, path: Path, leq: Order, limits: Limits, depth: nat)
      returns (k: nat)
    requires n <= |entries| && depth <= MAX_DEPTH && o in MemberOmissions(entries, n, path, leq, limits, depth)
    ensures k < n && o in Omissions(entries[k].value, path + [Key(entries[k].key)], leq, limits, depth)
  {
    if o in Omissions(entries[n - 1].value, path + [Key(entries[n - 1].key)], leq, limits, depth) { return n - 1; }
    k := MemberOmissionSource(o, entries, n - 1, path, leq, limits, depth);
  }

  lemma Deeper(o: Omission, v: Json, step: Step, child: Json, path: Path, limits: Limits, depth: nat)
    requires Find(v, [step]) == Some(child) && Accurate(o, child, path + [step], limits, depth + 1)
    ensures Accurate(o, v, path, limits, depth)
  {
    var rest :| Describes(o, child, path + [step], rest, limits, depth + 1);
    assert path + [step] + rest == path + ([step] + rest);
    assert ([step] + rest)[1..] == rest;
    assert Find(v, [step] + rest) == Find(child, rest);
    assert Describes(o, v, path, [step] + rest, limits, depth);
  }

  lemma Here(o: Omission, v: Json, path: Path, limits: Limits, depth: nat)
    requires Describes(o, v, path, [], limits, depth)
    ensures Accurate(o, v, path, limits, depth)
  {
  }

  lemma SortedMember(members: seq<Member>, k: nat, leq: Order)
    requires DistinctKeys(members) && k < |Sort(members, leq)|
    ensures Sort(members, leq)[k] in members
    ensures Lookup(members, Sort(members, leq)[k].key) == Some(Sort(members, leq)[k].value)
  {
    SortKeeps(members, leq);
    assert Sort(members, leq)[k] in multiset(members);
    var j :| 0 <= j < |members| && members[j] == Sort(members, leq)[k];
    LookupFinds(members, j);
  }

  // Where an omission of v comes from: v itself, one of its items or one of its members.
  lemma OmissionSource(o: Omission, v: Json, path: Path, leq: Order, limits: Limits, depth: nat) returns (step: Step, child: Json)
    requires WellFormed(v) && depth <= MAX_DEPTH && o in Omissions(v, path, leq, limits, depth)
    requires !Describes(o, v, path, [], limits, depth)
    ensures depth < MAX_DEPTH && WellFormed(child) && Find(v, [step]) == Some(child)
    ensures o in Omissions(child, path + [step], leq, limits, depth + 1)
  {
    assert path + [] == path;
    if v.Arr? {
      step, child := ArraySource(o, v.items, path, leq, limits, depth);
    } else {
      step, child := ObjectSource(o, v.members, path, leq, limits, depth);
    }
  }

  lemma ArraySource(o: Omission, items: seq<Json>, path: Path, leq: Order, limits: Limits, depth: nat) returns (step: Step, child: Json)
    requires WellFormed(Arr(items)) && depth < MAX_DEPTH && o in Omissions(Arr(items), path, leq, limits, depth)
    requires !Describes(o, Arr(items), path, [], limits, depth)
    ensures WellFormed(child) && step.Index? && step.index < |items| && child == items[step.index]
    ensures o in Omissions(child, path + [step], leq, limits, depth + 1)
  {
    assert path + [] == path;
    OmissionsOfArray(items, path, leq, limits, depth);
    var k := ItemOmissionSource(o, items, Min(|items|, limits.maxArray), path, leq, limits, depth + 1);
    return Index(k), items[k];
  }

  lemma ObjectSource(o: Omission, members: seq<Member>, path: Path, leq: Order, limits: Limits, depth: nat) returns (step: Step, child: Json)
    requires WellFormed(Obj(members)) && depth < MAX_DEPTH && o in Omissions(Obj(members), path, leq, limits, depth)
    requires !Describes(o, Obj(members), path, [], limits, depth)
    ensures WellFormed(child) && step.Key? && Lookup(members, step.key) == Some(child)
    ensures o in Omissions(child, path + [step], leq, limits, depth + 1)
  {
    assert path + [] == path;
    OmissionsOfObject(members, path, leq, limits, depth);
    step, child := MemberSource(o, members, path, leq, limits, depth + 1);
  }

  lemma MemberSource(o: Omission, members: seq<Member>, path: Path, leq: Order, limits: Limits, depth: nat) returns (step: Step, child: Json)
    requires WellFormed(Obj(members)) && depth <= MAX_DEPTH
    requires o in MemberOmissions(Sort(members, leq), Min(|Sort(members, leq)|, limits.maxKeys), path, leq, limits, depth)
    ensures WellFormed(child) && step.Key? && Lookup(members, step.key) == Some(child)
    ensures o in Omissions(child, path + [step], leq, limits, depth)
  {
    var entries := Sort(members, leq);
    var k := MemberOmissionSource(o, entries, Min(|entries|, limits.maxKeys), path, leq, limits, depth);
    SortedMember(members, k, leq);
    return Key(entries[k].key), entries[k].value;
  }

  lemma {:induction false} OmissionsAreAccurate(o: Omission, v: Json, path: Path, leq: Order, limits: Limits, depth: nat)
    requires WellFormed(v) && depth <= MAX_DEPTH && o in Omissions(v, path, leq, limits, depth)
    ensures Accurate(o, v, path, limits, depth)
    decreases MAX_DEPTH - depth
  {
    if Describes(o, v, path, [], limits, depth) {
      Here(o, v, path, limits, depth);
    } else {
      var step, child := OmissionSource(o, v, path, leq, limits, depth);
      OmissionsAreAccurate(o, child, path + [step], leq, limits, depth + 1);
      Deeper(o, v, step, child, path, limits, depth);
    }
  }

  // --- Every place of the result is the compaction of the same place of the source ---

  lemma {:induction false} LookupSome(members: seq<Member>, key: Text) returns (k: nat)
    requires Lookup(members, key).Some?
    ensures k < |members| && members[k] == Pair(key, Lookup(members, key).value)
  {
    if members[0].key == key { return 0; }
    k := LookupSome(members[1..], key);
    k := k + 1;
  }

  lemma LookupRetained(members: seq<Member>, key: Text, leq: Order, limits: Limits, depth: nat)
    requires DistinctKeys(members) && depth <= MAX_DEPTH
    requires Lookup(Retained(Sort(members, leq), leq, limits, depth), key).Some?
    ensures Lookup(members, key).Some?
    ensures Lookup(Retained(Sort(members, leq), leq, limits, depth), key).value == Compact(Lookup(members, key).value, leq, limits, depth)
    ensures exists m :: m in members && m.value == Lookup(members, key).value
  {
    var entries := Sort(members, leq);
    var k := LookupSome(Retained(entries, leq, limits, depth), key);
    SortedMember(members, k, leq);
    assert entries[k].key == key;
  }

  lemma ItemPlace(items: seq<Json>, k: nat, path: Path, leq: Order, limits: Limits, depth: nat)
    requires depth < MAX_DEPTH && path != [] && path[0] == Index(k)
    requires Find(Compact(Arr(items), leq, limits, depth), path).Some?
    ensures k < |items| && Find(Arr(items), path) == Find(items[k], path[1..])
    ensures Find(Compact(Arr(items), leq, limits, depth), path) == Find(Compact(items[k], leq, limits, depth + 1), path[1..])
  {
  }

  // A member that the compact object still has leads to the compaction of the source's member.
  lemma MemberPlace(members: seq<Member>, key: Text, path: Path, leq: Order, limits: Limits, depth: nat) returns (child: Json)
    requires WellFormed(Obj(members)) && depth < MAX_DEPTH && path != [] && path[0] == Key(key)
    requires Find(Compact(Obj(members), leq, limits, depth), path).Some?
    ensures WellFormed(child) && Find(Obj(members), path) == Find(child, path[1..])
    ensures Find(Compact(Obj(members), leq, limits, depth), path) == Find(Compact(child, leq, limits, depth + 1), path[1..])
  {
    var kept := Retained(Sort(members, leq), leq, limits, depth + 1);
    CompactOfObject(members, leq, limits, depth);
    FindMember(kept, key, path);
    LookupRetained(members, key, leq, limits, depth + 1);
    FindMember(members, key, path);
    child := Lookup(members, key).value;
  }

  // A step that the compact value still has leads to the compaction of the source's child.
  lemma Place(v: Json, path: Path, leq: Order, limits: Limits, depth: nat) returns (child: Json)
    requires WellFormed(v) && depth <= MAX_DEPTH && path != [] && Find(Compact(v, leq, limits, depth), path).Some?
    ensures depth < MAX_DEPTH && WellFormed(child) && Find(v, path) == Find(child, path[1..])
    ensures Find(Compact(v, leq, limits, depth), path) == Find(Compact(child, leq, limits, depth + 1), path[1..])
  {
    match path[0] {
      case Index(k) =>
        ItemPlace(v.items, k, path, leq, limits, depth);
        child := v.items[k];
      case Key(key) => child := MemberPlace(v.members, key, path, leq, limits, depth);
    }
  }

  lemma {:induction false} PlacesAgree(v: Json, path: Path, leq: Order, limits: Limits, depth: nat)
    requires WellFormed(v) && depth <= MAX_DEPTH && Find(Compact(v, leq, limits, depth), path).Some?
    ensures depth + |path| <= MAX_DEPTH && Find(v, path).Some?
    ensures Find(Compact(v, leq, limits, depth), path).value == Compact(Find(v, path).value, leq, limits, depth + |path|)
    decreases |path|
  {
    if path != [] {
      var child := Place(v, path, leq, limits, depth);
      PlacesAgree(child, path[1..], leq, limits, depth + 1);
    }
  }

  lemma FindMember(members: seq<Member>, key: Text, path: Path)
    requires path != [] && path[0] == Key(key)
    ensures Find(Obj(members), path) == if Lookup(members, key).Some? then Find(Lookup(members, key).value, path[1..]) else None
  {
  }

  // --- Every cut is reported, once ---

  // At this depth the value is too long, too wide or too deep.
  predicate CutHere(v: Json, limits: Limits, depth: nat) {
    match v
    case Str(t) => |t| > limits.maxString
    case Arr(items) => depth >= MAX_DEPTH || |items| > limits.maxArray
    case Obj(members) => depth >= MAX_DEPTH || |members| > limits.maxKeys
    case _ => false
  }

  lemma {:induction false} ItemReported(o: Omission, items: seq<Json>, n: nat, k: nat, path: Path, leq: Order, limits: Limits, depth: nat)
    requires k < n <= |items| && depth <= MAX_DEPTH && o in Omissions(items[k], path + [Index(k)], leq, limits, depth)
    ensures o in ItemOmissions(items, n, path, leq, limits, depth)
  {
    if k < n - 1 { ItemReported(o, items, n - 1, k, path, leq, limits, depth); }
  }

  lemma {:induction false} MemberReported(o: Omission, entries: seq<Member>, n: nat, k: nat, path: Path, leq: Order, limits: Limits, depth: nat)
    requires k < n <= |entries| && depth <= MAX_DEPTH && o in Omissions(entries[k].value, path + [Key(entries[k].key)], leq, limits, depth)
    ensures o in MemberOmissions(entries, n, path, leq, limits, depth)
  {
    if k < n - 1 { MemberReported(o, entries, n - 1, k, path, leq, limits, depth); }
  }

  // The cut of a value itself.
  lemma OwnCut(v: Json, path: Path, leq: Order, limits: Limits, depth: nat) returns (o: Omission)
    requires depth <= MAX_DEPTH && CutHere(v, limits, depth)
    ensures o in Omissions(v, path, leq, limits, depth) && Describes(o, v, path, [], limits, depth)
  {
    assert path + [] == path;
    match v {
      case Str(t) => o := StringLimit(path, |t|, limits.maxString);
      case Arr(items) =>
        o := if depth == MAX_DEPTH then DepthLimit(path) else ItemLimit(path, |items|, limits.maxArray);
        if depth < MAX_DEPTH { OmissionsOfArray(items, path, leq, limits, depth); }
      case Obj(members) =>
        o := if depth == MAX_DEPTH then DepthLimit(path) else KeyLimit(path, |members|, limits.maxKeys);
        if depth < MAX_DEPTH { OmissionsOfObject(members, path, leq, limits, depth); }
    }
  }

  // What is reported of the child behind a step that the compact value still has.
  lemma ChildReported(v: Json, base: Path, path: Path, leq: Order, limits: Limits, depth: nat) returns (child: Json)
    requires WellFormed(v) && depth <= MAX_DEPTH && path != [] && Find(Compact(v, leq, limits, depth), path).Some?
    ensures depth < MAX_DEPTH && WellFormed(child) && Find(v, [path[0]]) == Some(child) && Find(v, path) == Find(child, path[1..])
    ensures Find(Compact(child, leq, limits, depth + 1), path[1..]).Some?
    ensures forall o :: o in Omissions(child, base + [path[0]], leq, limits, depth + 1) ==> o in Omissions(v, base, leq, limits, depth)
  {
    match path[0] {
      case Index(k) =>
        ItemPlace(v.items, k, path, leq, limits, depth);
        child := v.items[k];
        OmissionsOfArray(v.items, base, leq, limits, depth);
        forall o | o in Omissions(child, base + [path[0]], leq, limits, depth + 1) ensures o in Omissions(v, base, leq, limits, depth) {
          ItemReported(o, v.items, Min(|v.items|, limits.maxArray), k, base, leq, limits, depth + 1);
        }
      case Key(key) => child := MemberChildReported(v.members, key, base, path, leq, limits, depth);
    }
  }

  // The member behind a key that the compact object still has.
  lemma RetainedMember(members: seq<Member>, key: Text, path: Path, leq: Order, limits: Limits, depth: nat) returns (k: nat)
    requires WellFormed(Obj(members)) && depth < MAX_DEPTH && path != [] && path[0] == Key(key)
    requires Find(Compact(Obj(members), leq, limits, depth), path).Some?
    ensures var entries := Sort(members, leq);
            && k < Min(|entries|, limits.maxKeys) && entries[k].key == key && WellFormed(entries[k].value)
            && Lookup(members, key) == Some(entries[k].value)
            && Find(Compact(entries[k].value, leq, limits, depth + 1), path[1..]).Some?
  {
    var entries := Sort(members, leq);
    var kept := Retained(entries, leq, limits, depth + 1);
    CompactOfObject(members, leq, limits, depth);
    FindMember(kept, key, path);
    k := LookupSome(kept, key);
    SortedMember(members, k, leq);
    SortKeepsMembers(members, leq, k);
    RetainedPlace(entries, k, path, leq, limits, depth);
  }

  lemma MemberChildReported(members: seq<Member>, key: Text, base: Path, path: Path, leq: Order, limits: Limits, depth: nat)
      returns (child: Json)
    requires WellFormed(Obj(members)) && depth < MAX_DEPTH && path != [] && path[0] == Key(key)
    requires Find(Compact(Obj(members), leq, limits, depth), path).Some?
    ensures WellFormed(child) && Find(Obj(members), [path[0]]) == Some(child) && Find(Obj(members), path) == Find(child, path[1..])
    ensures Find(Compact(child, leq, limits, depth + 1), path[1..]).Some?
    ensures forall o :: o in Omissions(child, base + [path[0]], leq, limits, depth + 1) ==> o in Omissions(Obj(members), base, leq, limits, depth)
  {
    var k := RetainedMember(members, key, path, leq, limits, depth);
    child := Sort(members, leq)[k].value;
    FindMember(members, key, path);
    FindMember(members, key, [path[0]]);
    MemberIsReported(members, k, base, leq, limits, depth);
  }

  lemma MemberIsReported(members: seq<Member>, k: nat, base: Path, leq: Order, limits: Limits, depth: nat)
    requires depth < MAX_DEPTH && k < Min(|Sort(members, leq)|, limits.maxKeys)
    ensures var m := Sort(members, leq)[k];
            forall o :: o in Omissions(m.value, base + [Key(m.key)], leq, limits, depth + 1) ==> o in Omissions(Obj(members), base, leq, limits, depth)
  {
    var entries := Sort(members, leq);
    OmissionsOfObject(members, base, leq, limits, depth);
    forall o | o in Omissions(entries[k].value, base + [Key(entries[k].key)], leq, limits, depth + 1)
      ensures o in Omissions(Obj(members), base, leq, limits, depth)
    {
      MemberReported(o, entries, Min(|entries|, limits.maxKeys), k, base, leq, limits, depth + 1);
    }
  }

  lemma RetainedPlace(entries: seq<Member>, k: nat, path: Path, leq: Order, limits: Limits, depth: nat)
    requires k < |entries| && depth < MAX_DEPTH && path != [] && path[0] == Key(entries[k].key)
    requires k < |Retained(entries, leq, limits, depth + 1)|
    requires Lookup(Retained(entries, leq, limits, depth + 1), entries[k].key) == Some(Retained(entries, leq, limits, depth + 1)[k].value)
    requires Find(Obj(Retained(entries, leq, limits, depth + 1)), path).Some?
    ensures Find(Compact(entries[k].value, leq, limits, depth + 1), path[1..]).Some?
  {
    FindMember(Retained(entries, leq, limits, depth + 1), entries[k].key, path);
  }

  // Every place that the compact value still shows and that was cut there is reported under its
  // path, with what was there and how much of it was kept.
  lemma {:induction false} EveryCutIsReported(v: Json, base: Path, path: Path, leq: Order, limits: Limits, depth: nat) returns (o: Omission)
    requires WellFormed(v) && depth <= MAX_DEPTH && Find(Compact(v, leq, limits, depth), path).Some?
    requires Find(v, path).Some? && CutHere(Find(v, path).value, limits, depth + |path|)
    ensures o in Omissions(v, base, leq, limits, depth) && Describes(o, v, base, path, limits, depth)
    decreases |path|
  {
    if path == [] {
      o := OwnCut(v, base, leq, limits, depth);
    } else {
      var child := ChildReported(v, base, path, leq, limits, depth);
      o := EveryCutIsReported(child, base + [path[0]], path[1..], leq, limits, depth + 1);
      assert base + [path[0]] + path[1..] == base + path;
    }
  }

  function PathOf(o: Omission): Path {
    if o.MetadataLimit? then [] else o.path
  }

  // The omissions of one part of a value: each once, and all under the part's own path.
  ghost predicate Under(omissions: seq<Omission>, base: Path) {
    && (forall o :: o in omissions ==> base <= PathOf(o))
    && (forall j, k :: 0 <= j < k < |omissions| ==> PathOf(omissions[j]) != PathOf(omissions[k]))
  }

  // None of them under this path.
  ghost predicate Beside(omissions: seq<Omission>, path: Path) {
    forall o :: o in omissions ==> !(path <= PathOf(o))
  }

  lemma UnderBoth(a: seq<Omission>, b: seq<Omission>, base: Path, part: Path)
    requires Under(a, base) && Under(b, part) && base <= part && Beside(a, part)
    ensures Under(a + b, base)
  {
    forall j, k | 0 <= j < k < |a + b| ensures PathOf((a + b)[j]) != PathOf((a + b)[k]) {
      if j < |a| <= k { assert a[j] in a && b[k - |a|] in b; }
    }
    forall o | o in a + b ensures base <= PathOf(o) {
      if o in b { assert part <= PathOf(o); }
    }
  }

  // The cut of the value itself comes last and stands for none of its parts.
  lemma UnderOwn(a: seq<Omission>, own: seq<Omission>, base: Path)
    requires Under(a, base) && |own| <= 1 && forall o :: o in own ==> PathOf(o) == base
    requires forall o :: o in a ==> PathOf(o) != base
    ensures Under(a + own, base)
  {
    forall j, k | 0 <= j < k < |a + own| ensures PathOf((a + own)[j]) != PathOf((a + own)[k]) {
      if j < |a| <= k { assert a[j] in a && own[k - |a|] in own; }
    }
  }

  // Different steps lead to different paths.
  lemma StepsPart(base: Path, x: Step, y: Step, p: Path)
    requires x != y && base + [x] <= p
    ensures !(base + [y] <= p) && p != base
  {
    assert (base + [x])[|base|] == x && (base + [y])[|base|] == y;
  }

  lemma {:induction false} ItemsOnce(items: seq<Json>, n: nat, base: Path, leq: Order, limits: Limits, depth: nat)
    requires WellFormed(Arr(items)) && n <= |items| && depth <= MAX_DEPTH
    ensures var all := ItemOmissions(items, n, base, leq, limits, depth);
            Under(all, base) && forall o :: o in all ==> exists k: nat :: k < n && base + [Index(k)] <= PathOf(o)
    decreases MAX_DEPTH - depth, 3, n
  {
    if n > 0 {
      var rest := ItemOmissions(items, n - 1, base, leq, limits, depth);
      ItemsOnce(items, n - 1, base, leq, limits, depth);
      EachCutOnce(items[n - 1], base + [Index(n - 1)], leq, limits, depth);
      forall o | o in rest ensures !(base + [Index(n - 1)] <= PathOf(o)) {
        var k: nat :| k < n - 1 && base + [Index(k)] <= PathOf(o);
        StepsPart(base, Index(k), Index(n - 1), PathOf(o));
      }
      UnderBoth(rest, Omissions(items[n - 1], base + [Index(n - 1)], leq, limits, depth), base, base + [Index(n - 1)]);
    }
  }

  lemma {:induction false} MembersOnce(entries: seq<Member>, n: nat, base: Path, leq: Order, limits: Limits, depth: nat)
    requires DistinctKeys(entries) && n <= |entries| && depth <= MAX_DEPTH
    requires forall k :: 0 <= k < |entries| ==> WellFormed(entries[k].value)
    ensures var all := MemberOmissions(entries, n, base, leq, limits, depth);
            Under(all, base) && forall o :: o in all ==> exists k: nat :: k < n && base + [Key(entries[k].key)] <= PathOf(o)
    decreases MAX_DEPTH - depth, 3, n
  {
    if n > 0 {
      var rest := MemberOmissions(entries, n - 1, base, leq, limits, depth);
      var last := Key(entries[n - 1].key);
      MembersOnce(entries, n - 1, base, leq, limits, depth);
      EachCutOnce(entries[n - 1].value, base + [last], leq, limits, depth);
      forall o | o in rest ensures !(base + [last] <= PathOf(o)) {
        var k: nat :| k < n - 1 && base + [Key(entries[k].key)] <= PathOf(o);
        StepsPart(base, Key(entries[k].key), last, PathOf(o));
      }
      UnderBoth(rest, Omissions(entries[n - 1].value, base + [last], leq, limits, depth), base, base + [last]);
    }
  }

  lemma {:induction false} EachCutOnce(v: Json, base: Path, leq: Order, limits: Limits, depth: nat)
    requires WellFormed(v) && depth <= MAX_DEPTH
    ensures Under(Omissions(v, base, leq, limits, depth), base)
    decreases MAX_DEPTH - depth, 2
  {
    if depth < MAX_DEPTH && v.Arr? {
      ArrayCutsOnce(v.items, base, leq, limits, depth);
    } else if depth < MAX_DEPTH && v.Obj? {
      ObjectCutsOnce(v.members, base, leq, limits, depth);
    } else {
      OwnCutsOnce(v, base, leq, limits, depth);
    }
  }

  lemma OwnCutsOnce(v: Json, base: Path, leq: Order, limits: Limits, depth: nat)
    requires depth <= MAX_DEPTH && (depth == MAX_DEPTH || !(v.Arr? || v.Obj?))
    ensures Under(Omissions(v, base, leq, limits, depth), base)
  {
  }

  lemma ArrayCutsOnce(items: seq<Json>, base: Path, leq: Order, limits: Limits, depth: nat)
    requires WellFormed(Arr(items)) && depth < MAX_DEPTH
    ensures Under(Omissions(Arr(items), base, leq, limits, depth), base)
    decreases MAX_DEPTH - depth, 1
  {
    var n := Min(|items|, limits.maxArray);
    OmissionsOfArray(items, base, leq, limits, depth);
    ItemsOnce(items, n, base, leq, limits, depth + 1);
    var all := ItemOmissions(items, n, base, leq, limits, depth + 1);
    forall o | o in all ensures PathOf(o) != base {
      var k: nat :| k < n && base + [Index(k)] <= PathOf(o);
    }
    UnderOwn(all, if n < |items| then [ItemLimit(base, |items|, n)] else [], base);
  }

  lemma ObjectCutsOnce(members: seq<Member>, base: Path, leq: Order, limits: Limits, depth: nat)
    requires WellFormed(Obj(members)) && depth < MAX_DEPTH
    ensures Under(Omissions(Obj(members), base, leq, limits, depth), base)
    decreases MAX_DEPTH - depth, 1
  {
    var entries := Sort(members, leq);
    OmissionsOfObject(members, base, leq, limits, depth);
    SortKeepsDistinct(members, leq);
    forall k | 0 <= k < |entries| ensures WellFormed(entries[k].value) { SortKeepsMembers(members, leq, k); }
    var n := Min(|entries|, limits.maxKeys);
    MembersOnce(entries, n, base, leq, limits, depth + 1);
    var all := MemberOmissions(entries, n, base, leq, limits, depth + 1);
    forall o | o in all ensures PathOf(o) != base {
      var k: nat :| k < n && base + [Key(entries[k].key)] <= PathOf(o);
    }
    UnderOwn(all, if n < |members| then [KeyLimit(base, |members|, n)] else [], base);
  }

  // An object keeps as many keys as the limit allows, in order, and none that comes after a
  // key that was cut.
  lemma KeepsTheFirstKeys(members: seq<Member>, leq: Order, limits: Limits, depth: nat)
    requires TotalPreorder(leq) && depth < MAX_DEPTH
    ensures var kept := Compact(Obj(members), leq, limits, depth).members;
            && |kept| == Min(|members|, limits.maxKeys) && Sorted(kept, leq)
            && forall m :: m in members ==> (exists k :: 0 <= k < |kept| && kept[k].key == m.key)
                                            || forall k :: 0 <= k < |kept| ==> leq(kept[k].key, m.key)
  {
    var entries := Sort(members, leq);
    var kept := Retained(entries, leq, limits, depth + 1);
    CompactOfObject(members, leq, limits, depth);
    SortKeeps(members, leq);
    SortSorts(members, leq);
    forall m | m in members
      ensures (exists k :: 0 <= k < |kept| && kept[k].key == m.key) || forall k :: 0 <= k < |kept| ==> leq(kept[k].key, m.key)
    {
      assert m in multiset(entries);
      var j :| 0 <= j < |entries| && entries[j] == m;
      if j < |kept| {
        assert kept[j].key == m.key;
      } else {
        forall k | 0 <= k < |kept| ensures leq(kept[k].key, m.key) { assert kept[k].key == entries[k].key; }
      }
    }
  }

  // --- The bounded projection ---

  const TARGET_BYTES: nat := 8192
  const FIRST_PASS := Limits(512, 20, 24)
  const SECOND_PASS := Limits(128, 8, 12)
  const TRUNCATED := Obj([Pair([116, 114, 117, 110, 99, 97, 116, 101, 100], Bool(true))])
  const MAX_OMISSIONS: nat := 16

  // A result that is not an object or an array becomes the value of one.
  function Wrapped(result: Json): Json {
    if result.Arr? || result.Obj? then result else Obj([Pair([118, 97, 108, 117, 101], result)])
  }

  type Size = Json -> nat

  // The size of a value that can be serialised does not depend on the order of its keys, and
  // the placeholder is small.
  ghost predicate ByteLength(size: Size) {
    && size(TRUNCATED) <= TARGET_BYTES
    && forall v, w :: WellFormed(v) && WellFormed(w) && Same(v, w) ==> size(v) == size(w)
  }

  // The length of the JSON text in bytes is such a size.
  lemma JsonTextIsByteLength()
    ensures ByteLength(JsonLength.Bytes)
  {
    JsonLength.SingletonBytes(TRUNCATED.members[0].key, Bool(true));
    assert TRUNCATED == Obj([Pair(TRUNCATED.members[0].key, Bool(true))]);
    forall v, w | WellFormed(v) && WellFormed(w) && Same(v, w) ensures JsonLength.Bytes(v) == JsonLength.Bytes(w) {
      JsonLength.SameLength(v, w);
    }
  }

  lemma {:induction false} CompactKeepsWellFormed(v: Json, leq: Order, limits: Limits, depth: nat)
    requires WellFormed(v) && depth <= MAX_DEPTH
    ensures WellFormed(Compact(v, leq, limits, depth))
    decreases MAX_DEPTH - depth
  {
    if depth < MAX_DEPTH {
      match v {
        case Arr(items) =>
          forall k | 0 <= k < Min(|items|, limits.maxArray) ensures WellFormed(Compact(items[k], leq, limits, depth + 1)) {
            CompactKeepsWellFormed(items[k], leq, limits, depth + 1);
          }
        case Obj(members) =>
          CompactKeepsObject(members, leq, limits, depth);
        case _ =>
      }
    }
  }

  lemma RetainedKeepsWellFormed(entries: seq<Member>, leq: Order, limits: Limits, depth: nat)
    requires DistinctKeys(entries) && depth <= MAX_DEPTH
    requires forall k :: 0 <= k < |entries| ==> WellFormed(Compact(entries[k].value, leq, limits, depth))
    ensures WellFormed(Obj(Retained(entries, leq, limits, depth)))
  {
    var kept := Retained(entries, leq, limits, depth);
    assert forall k :: 0 <= k < |kept| ==> kept[k] == Pair(entries[k].key, Compact(entries[k].value, leq, limits, depth));
  }

  lemma SortKeepsMembers(members: seq<Member>, leq: Order, k: nat)
    requires WellFormed(Obj(members)) && k < |Sort(members, leq)|
    ensures WellFormed(Sort(members, leq)[k].value)
  {
    SortKeeps(members, leq);
    assert Sort(members, leq)[k] in multiset(members);
  }

  lemma CompactKeepsObject(members: seq<Member>, leq: Order, limits: Limits, depth: nat)
    requires WellFormed(Obj(members)) && depth < MAX_DEPTH
    ensures WellFormed(Compact(Obj(members), leq, limits, depth))
    decreases MAX_DEPTH - depth, 0
  {
    var entries := Sort(members, leq);
    SortKeepsDistinct(members, leq);
    forall k | 0 <= k < |entries| ensures WellFormed(Compact(entries[k].value, leq, limits, depth + 1)) {
      SortKeepsMembers(members, leq, k);
      CompactKeepsWellFormed(entries[k].value, leq, limits, depth + 1);
    }
    RetainedKeepsWellFormed(entries, leq, limits, depth + 1);
    CompactOfObject(members, leq, limits, depth);
  }

  // The first of the source, its two compact forms and the placeholder that is small enough.
  function Chosen(source: Json, leq: Order, size: Size): Json {
    if size(source) <= TARGET_BYTES then source
    else if size(Pass(source, FIRST_PASS, leq)) <= TARGET_BYTES then Pass(source, FIRST_PASS, leq)
    else if size(Pass(source, SECOND_PASS, leq)) <= TARGET_BYTES then Pass(source, SECOND_PASS, leq)
    else TRUNCATED
  }

  // A pass that was not enough still reports its cuts, and the second pass starts from the source again.
  function Reported(source: Json, leq: Order, size: Size): seq<Omission> {
    var first := Cuts(source, FIRST_PASS, leq);
    var second := Cuts(source, SECOND_PASS, leq);
    if size(source) <= TARGET_BYTES then []
    else if size(Pass(source, FIRST_PASS, leq)) <= TARGET_BYTES then first
    else if size(Pass(source, SECOND_PASS, leq)) <= TARGET_BYTES then first + second
    else first + second + [ByteLimit([])]
  }

  function Capped(omissions: seq<Omission>): seq<Omission> {
    if |omissions| <= MAX_OMISSIONS then omissions
    else omissions[..MAX_OMISSIONS - 1] + [MetadataLimit(|omissions| - (MAX_OMISSIONS - 1))]
  }

  // The number of cuts a list of omissions stands for.
  function Total(omissions: seq<Omission>): nat {
    if omissions == [] then 0
    else
      var last := omissions[|omissions| - 1];
      Total(omissions[..|omissions| - 1]) + if last.MetadataLimit? then last.omittedCount else 1
  }

  method BoundedProjection(result: Json, leq: Order, size: Size) returns (data: Json, omissions: seq<Omission>)
    ensures data == Chosen(Wrapped(result), leq, size)
    ensures omissions == Capped(Reported(Wrapped(result), leq, size))
  {
    data, omissions := ProjectData(Wrapped(result), leq, size);
    omissions := CapOmissions(omissions);
  }

  method CapOmissions(omissions: seq<Omission>) returns (r: seq<Omission>)
    ensures r == Capped(omissions)
  {
    r := omissions;
    if |r| > MAX_OMISSIONS {
      var omittedCount := |r| - 15;
      r := r[..15] + [MetadataLimit(omittedCount)];
    }
  }

  // Both passes start from the source and add to the same list.
  method ProjectData(source: Json, leq: Order, size: Size) returns (data: Json, omissions: seq<Omission>)
    ensures data == Chosen(source, leq, size) && omissions == Reported(source, leq, size)
  {
    var log := new OmissionLog();
    data := source;
    if size(data) > TARGET_BYTES { data := log.CompactObject(source, FIRST_PASS, leq); }
    assert data == (if size(source) <= TARGET_BYTES then source else Pass(source, FIRST_PASS, leq));
    assert log.entries == (if size(source) <= TARGET_BYTES then [] else Cuts(source, FIRST_PASS, leq));
    if size(data) > TARGET_BYTES { data := log.CompactObject(source, SECOND_PASS, leq); }
    if size(data) > TARGET_BYTES {
      data := TRUNCATED;
      log.entries := log.entries + [ByteLimit([])];
    }
    omissions := log.entries;
  }

  lemma {:induction false} TotalPlain(omissions: seq<Omission>)
    requires forall o :: o in omissions ==> !o.MetadataLimit?
    ensures Total(omissions) == |omissions|
  {
    if omissions != [] { TotalPlain(omissions[..|omissions| - 1]); }
  }

  // Capping the list loses no count: it has at most 16 entries, starts with the first 15
  // reported cuts and stands for all of them.
  lemma CappingConserves(omissions: seq<Omission>)
    requires forall o :: o in omissions ==> !o.MetadataLimit?
    ensures |Capped(omissions)| <= MAX_OMISSIONS && Total(Capped(omissions)) == |omissions|
    ensures Capped(omissions)[..Min(|omissions|, MAX_OMISSIONS - 1)] == omissions[..Min(|omissions|, MAX_OMISSIONS - 1)]
  {
    if |omissions| <= MAX_OMISSIONS {
      TotalPlain(omissions);
    } else {
      var head := omissions[..MAX_OMISSIONS - 1];
      TotalPlain(head);
      assert Capped(omissions)[..MAX_OMISSIONS - 1] == head;
    }
  }

  lemma ReportedCuts(source: Json, leq: Order, size: Size)
    requires WellFormed(source)
    ensures forall o :: o in Reported(source, leq, size) ==>
              o == ByteLimit([]) || Accurate(o, source, [], FIRST_PASS, 0) || Accurate(o, source, [], SECOND_PASS, 0)
  {
    forall o | o in Cuts(source, FIRST_PASS, leq) ensures Accurate(o, source, [], FIRST_PASS, 0) {
      OmissionsAreAccurate(o, source, [], leq, FIRST_PASS, 0);
    }
    forall o | o in Cuts(source, SECOND_PASS, leq) ensures Accurate(o, source, [], SECOND_PASS, 0) {
      OmissionsAreAccurate(o, source, [], leq, SECOND_PASS, 0);
    }
  }

  // What the projection tries, one after the other.
  function Candidates(source: Json, leq: Order): seq<Json> {
    [source, Pass(source, FIRST_PASS, leq), Pass(source, SECOND_PASS, leq), TRUNCATED]
  }

  // No more is cut than has to be: the data is the first candidate within the target, so a
  // result within it is kept whole; every cut that the chosen pass has made is reported, and
  // the byte limit exactly if no pass was enough.
  lemma NoMoreIsCut(source: Json, leq: Order, size: Size)
    requires WellFormed(source) && ByteLength(size)
    ensures exists i :: 0 <= i < 4 && Chosen(source, leq, size) == Candidates(source, leq)[i]
              && size(Candidates(source, leq)[i]) <= TARGET_BYTES
              && (forall j :: 0 <= j < i ==> size(Candidates(source, leq)[j]) > TARGET_BYTES)
              && (i == 0 ==> Reported(source, leq, size) == [])
              && (i == 1 ==> Reported(source, leq, size) == Cuts(source, FIRST_PASS, leq))
              && (i >= 2 ==> Cuts(source, FIRST_PASS, leq) + Cuts(source, SECOND_PASS, leq) <= Reported(source, leq, size))
              && (ByteLimit([]) in Reported(source, leq, size) <==> i == 3)
  {
    var c := Candidates(source, leq);
    NoByteLimit(source, leq, FIRST_PASS);
    NoByteLimit(source, leq, SECOND_PASS);
    if size(c[0]) <= TARGET_BYTES {
      assert Chosen(source, leq, size) == c[0];
    } else if size(c[1]) <= TARGET_BYTES {
      assert Chosen(source, leq, size) == c[1];
    } else if size(c[2]) <= TARGET_BYTES {
      assert Chosen(source, leq, size) == c[2];
    } else {
      assert Chosen(source, leq, size) == c[3];
    }
  }

  lemma NoByteLimit(source: Json, leq: Order, limits: Limits)
    requires WellFormed(source)
    ensures forall o :: o in Cuts(source, limits, leq) ==> !o.ByteLimit?
  {
    forall o | o in Cuts(source, limits, leq) ensures !o.ByteLimit? { OmissionsAreAccurate(o, source, [], leq, limits, 0); }
  }

  // What a bounded projection promises: it fits the target, its short list of omissions stands
  // for every cut, the list is empty exactly when the data is the whole result, and the data
  // can be serialised.
  ghost predicate Accountable(source: Json, leq: Order, size: Size) {
    && size(Chosen(source, leq, size)) <= TARGET_BYTES
    && |Capped(Reported(source, leq, size))| <= MAX_OMISSIONS
    && Total(Capped(Reported(source, leq, size))) == |Reported(source, leq, size)|
    && (Capped(Reported(source, leq, size)) == [] <==> Same(source, Chosen(source, leq, size)))
    && WellFormed(Chosen(source, leq, size))
  }

  // A pass that cut nothing has changed nothing, and then the size is still the same.
  lemma PassFacts(source: Json, limits: Limits, leq: Order, size: Size)
    requires WellFormed(source) && ByteLength(size)
    ensures WellFormed(Pass(source, limits, leq))
    ensures Cuts(source, limits, leq) == [] <==> Same(source, Pass(source, limits, leq))
    ensures Cuts(source, limits, leq) == [] ==> size(Pass(source, limits, leq)) == size(source)
  {
    CompactKeepsWellFormed(source, leq, limits, 0);
    NothingOmittedIffUnchanged(source, [], leq, limits);
  }

  lemma PlaceholderFacts(source: Json, size: Size)
    requires WellFormed(source) && ByteLength(size)
    ensures WellFormed(TRUNCATED) && (size(source) > TARGET_BYTES ==> !Same(source, TRUNCATED))
  {
  }

  lemma ReportedIffChanged(source: Json, leq: Order, size: Size)
    requires WellFormed(source) && ByteLength(size)
    ensures Reported(source, leq, size) == [] <==> Same(source, Chosen(source, leq, size))
    ensures WellFormed(Chosen(source, leq, size)) && size(Chosen(source, leq, size)) <= TARGET_BYTES
  {
    PassFacts(source, FIRST_PASS, leq, size);
    PassFacts(source, SECOND_PASS, leq, size);
    PlaceholderFacts(source, size);
    SameReflexive(source);
  }

  // The bounded projection keeps its promise for every size that respects equality.
  lemma ProjectionIsAccountable(source: Json, leq: Order, size: Size)
    requires WellFormed(source) && ByteLength(size)
    ensures Accountable(source, leq, size)
  {
    var reported := Reported(source, leq, size);
    ReportedIsPlain(source, leq, size);
    CappedFacts(reported);
    ReportedIffChanged(source, leq, size);
  }

  lemma ReportedIsPlain(source: Json, leq: Order, size: Size)
    requires WellFormed(source)
    ensures forall o :: o in Reported(source, leq, size) ==> !o.MetadataLimit?
  {
    ReportedCuts(source, leq, size);
  }

  lemma CappedFacts(omissions: seq<Omission>)
    requires forall o :: o in omissions ==> !o.MetadataLimit?
    ensures |Capped(omissions)| <= MAX_OMISSIONS && Total(Capped(omissions)) == |omissions|
    ensures Capped(omissions) == [] <==> omissions == []
  {
    CappingConserves(omissions);
  }

  // In particular for the length of the JSON text, and for any result a tool may give.
  lemma ResultIsAccountable(result: Json, leq: Order)
    requires WellFormed(result)
    ensures Accountable(Wrapped(result), leq, JsonLength.Bytes)
  {
    JsonTextIsByteLength();
    ProjectionIsAccountable(Wrapped(result), leq, JsonLength.Bytes);
  }

  lemma {:induction false} SameReflexive(v: Json)
    ensures Same(v, v)
    decreases v
  {
    match v {
      case Arr(items) => forall k | 0 <= k < |items| ensures Same(items[k], items[k]) { SameReflexive(items[k]); }
      case Obj(members) =>
        forall j | 0 <= j < |members| ensures HasSame(members, members[j]) {
          SameReflexive(members[j].value);
        }
      case _ =>
    }
  }
}
