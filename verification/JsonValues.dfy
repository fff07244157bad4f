// JSON values, equality of values with objects read as maps, and the stable sort by key
// that both the canonical text and the compact projection use. Text is a sequence of
// UTF-16 code units.
module JsonValues {

  type Unit = u: int | 0 <= u < 0x10000
  type Text = seq<Unit>

  // A number is represented by the text JSON.stringify gives it.
  datatype Json =
    | Null
    | Bool(value: bool)
    | Num(digits: Text)
    | Str(text: Text)
    | Arr(items: seq<Json>)
    | Obj(members: seq<Member>)

  datatype Pair<+V> = Pair(key: Text, value: V)
  type Member = Pair<Json>

  predicate NumberUnit(u: Unit) {
    48 <= u <= 57 || u == 43 || u == 45 || u == 46 || u == 101 || u == 69
  }

  predicate IsNumber(t: Text) {
    t != [] && (48 <= t[0] <= 57 || t[0] == 45) && forall k :: 0 <= k < |t| ==> NumberUnit(t[k])
  }

  predicate DistinctKeys(members: seq<Member>) {
    forall j, k :: 0 <= j < k < |members| ==> members[j].key != members[k].key
  }

  // What JSON.parse can produce: numbers are numbers and no object repeats a key.
  predicate WellFormed(v: Json) {
    match v
    case Num(digits) => IsNumber(digits)
    case Arr(items) => forall k :: 0 <= k < |items| ==> WellFormed(items[k])
    case Obj(members) => DistinctKeys(members) && forall k :: 0 <= k < |members| ==> WellFormed(members[k].value)
    case _ => true
  }

  // Equality of JSON values with objects read as maps.
  predicate Same(v: Json, w: Json)
    decreases v, 0
  {
    match v
    case Arr(items) =>
      w.Arr? && |items| == |w.items| && forall k :: 0 <= k < |items| ==> Same(items[k], w.items[k])
    case Obj(members) =>
      w.Obj? && |members| == |w.members| && forall j :: 0 <= j < |members| ==> HasSame(w.members, members[j])
    case _ => v == w
  }

  // A member is found under its key.
  predicate HasSame(members: seq<Member>, m: Member)
    decreases m.value, 1
  {
    exists k :: 0 <= k < |members| && members[k].key == m.key && Same(m.value, members[k].value)
  }

  // --- Sorting by key ---

  // The comparison behind sort: localeCompare(a, b) <= 0.
  type Order = (Text, Text) -> bool

  ghost predicate TotalPreorder(leq: Order) {
    && (forall a, b :: leq(a, b) || leq(b, a))
    && (forall a, b, c :: leq(a, b) && leq(b, c) ==> leq(a, c))
  }

  // Array.prototype.sort is stable: an entry goes behind the entries it does not precede.
  function Insert<V>(entries: seq<Pair<V>>, e: Pair<V>, leq: Order): seq<Pair<V>> {
    if entries == [] || leq(entries[|entries| - 1].key, e.key) then entries + [e]
    else Insert(entries[..|entries| - 1], e, leq) + [entries[|entries| - 1]]
  }

  function Sort<V>(entries: seq<Pair<V>>, leq: Order): seq<Pair<V>> {
    if entries == [] then [] else Insert(Sort(entries[..|entries| - 1], leq), entries[|entries| - 1], leq)
  }

  lemma {:induction false} InsertKeeps<V>(entries: seq<Pair<V>>, e: Pair<V>, leq: Order)
    ensures multiset(Insert(entries, e, leq)) == multiset(entries) + multiset{e}
  {
    if entries != [] {
      var n := |entries| - 1;
      assert entries == entries[..n] + [entries[n]];
      InsertKeeps(entries[..n], e, leq);
    }
  }

  lemma {:induction false} SortKeeps<V>(entries: seq<Pair<V>>, leq: Order)
    ensures multiset(Sort(entries, leq)) == multiset(entries) && |Sort(entries, leq)| == |entries|
  {
    if entries != [] {
      var n := |entries| - 1;
      assert entries == entries[..n] + [entries[n]];
      SortKeeps(entries[..n], leq);
      InsertKeeps(Sort(entries[..n], leq), entries[n], leq);
      assert |multiset(Sort(entries, leq))| == |multiset(entries)|;
    }
  }

  ghost predicate Tied(a: Text, b: Text, leq: Order) {
    leq(a, b) && leq(b, a)
  }

  ghost predicate Sorted<V>(entries: seq<Pair<V>>, leq: Order) {
    forall j, k :: 0 <= j < k < |entries| ==> leq(entries[j].key, entries[k].key)
  }

  lemma {:induction false} InsertSorts<V>(entries: seq<Pair<V>>, e: Pair<V>, leq: Order)
    requires TotalPreorder(leq) && Sorted(entries, leq)
    ensures Sorted(Insert(entries, e, leq), leq)
  {
    if entries != [] {
      var n := |entries| - 1;
      assert entries == entries[..n] + [entries[n]];
      if leq(entries[n].key, e.key) {
        assert Sorted(entries + [e], leq);
      } else {
        InsertSorts(entries[..n], e, leq);
        InsertKeeps(entries[..n], e, leq);
        forall x | x in Insert(entries[..n], e, leq) ensures leq(x.key, entries[n].key) {
          assert x in multiset(Insert(entries[..n], e, leq));
        }
      }
    }
  }

  lemma {:induction false} SortSorts<V>(entries: seq<Pair<V>>, leq: Order)
    requires TotalPreorder(leq)
    ensures Sorted(Sort(entries, leq), leq)
  {
    if entries != [] {
      var n := |entries| - 1;
      SortSorts(entries[..n], leq);
      InsertSorts(Sort(entries[..n], leq), entries[n], leq);
    }
  }

  // Sorting leaves a sorted list as it is.
  lemma {:induction false} SortedStays<V>(entries: seq<Pair<V>>, leq: Order)
    requires Sorted(entries, leq)
    ensures Sort(entries, leq) == entries
  {
    if entries != [] {
      var n := |entries| - 1;
      SortedStays(entries[..n], leq);
      assert entries == entries[..n] + [entries[n]];
    }
  }
}
