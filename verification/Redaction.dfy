// Redaction walks a graph of objects that may share parts and may have cycles. One set of
// seen objects, filled in the order of the walk, makes it end and makes it expand every
// object once.
module Redaction {

  type Ref = nat

  datatype Value = Text(text: string) | Other | Object(ref: Ref)

  // The items of an array have no key; the empty key is never a secret one.
  datatype Field = Field(key: string, value: Value)
  datatype Node = Node(isArray: bool, fields: seq<Field>)

  type Heap = map<Ref, Node>

  datatype Clean = CleanText(text: string) | CleanOther | Redacted | Circular | CleanNode(isArray: bool, fields: seq<CleanField>)
  datatype CleanField = CleanField(key: string, value: Clean)

  // redactString and the test for secret keys.
  datatype Rules = Rules(redact: string -> string, secret: string -> bool)

  // References lead to objects.
  predicate Whole(heap: Heap, v: Value) {
    v.Object? ==> v.ref in heap
  }

  predicate WellFormed(heap: Heap) {
    forall r :: r in heap ==> forall k :: 0 <= k < |heap[r].fields| ==> Whole(heap, heap[r].fields[k].value)
  }

  predicate AllWhole(heap: Heap, fields: seq<Field>) {
    forall k :: 0 <= k < |fields| ==> Whole(heap, fields[k].value)
  }

  datatype Walk<T> = Walk(result: T, seen: set<Ref>)

  // The measure of the walk: how many objects have not been seen.
  lemma NoMoreLeft(keys: set<Ref>, a: set<Ref>, b: set<Ref>)
    requires a <= b
    ensures |keys - b| <= |keys - a|
  {
    Smaller(keys - b, keys - a);
  }

  lemma FewerLeft(keys: set<Ref>, a: set<Ref>, r: Ref)
    requires r in keys && r !in a
    ensures |keys - (a + {r})| < |keys - a|
  {
    Smaller(keys - (a + {r}), keys - a - {r});
  }

  lemma {:induction false} Smaller(a: set<Ref>, b: set<Ref>)
    requires a <= b
    ensures |a| <= |b|
  {
    if a != {} {
      var r :| r in a;
      Smaller(a - {r}, b - {r});
    }
  }

  function RedactValue(heap: Heap, v: Value, key: string, seen: set<Ref>, rules: Rules): (w: Walk<Clean>)
    requires WellFormed(heap) && Whole(heap, v)
    ensures seen <= w.seen
    decreases |heap.Keys - seen|, 0
  {
    if rules.secret(key) then Walk(Redacted, seen)
    else
      match v
      case Text(t) => Walk(CleanText(rules.redact(t)), seen)
      case Other => Walk(CleanOther, seen)
      case Object(r) =>
        if r in seen then Walk(Circular, seen)
        else
          FewerLeft(heap.Keys, seen, r);
          var w := RedactFields(heap, heap[r].fields, |heap[r].fields|, seen + {r}, rules);
          Walk(CleanNode(heap[r].isArray, w.result), w.seen)
  }

  // The first n fields, one after the other.
  function RedactFields(heap: Heap, fields: seq<Field>, n: nat, seen: set<Ref>, rules: Rules): (w: Walk<seq<CleanField>>)
    requires WellFormed(heap) && AllWhole(heap, fields) && n <= |fields|
    ensures seen <= w.seen && |w.result| == n
    decreases |heap.Keys - seen|, n + 1
  {
    if n == 0 then Walk([], seen)
    else
      var before := RedactFields(heap, fields, n - 1, seen, rules);
      NoMoreLeft(heap.Keys, seen, before.seen);
      var last := RedactValue(heap, fields[n - 1].value, fields[n - 1].key, before.seen, rules);
      Walk(before.result + [CleanField(fields[n - 1].key, last.result)], last.seen)
  }

  // --- The recursion that fills one shared set ---

  class Redactor {
    var seen: set<Ref>

    constructor ()
      ensures seen == {}
    {
      seen := {};
    }

    method Value(heap: Heap, v: Value, key: string, rules: Rules) returns (r: Clean)
      requires WellFormed(heap) && Whole(heap, v)
      modifies this
      ensures Walk(r, seen) == RedactValue(heap, v, key, old(seen), rules)
      decreases |heap.Keys - seen|, 0
    {
      if rules.secret(key) { return Redacted; }
      match v {
        case Text(t) => return CleanText(rules.redact(t));
        case Other => return CleanOther;
        case Object(ref) =>
          if ref in seen { return Circular; }
          FewerLeft(heap.Keys, seen, ref);
          seen := seen + {ref};
          var fields := Fields(heap, heap[ref].fields, rules);
          return CleanNode(heap[ref].isArray, fields);
      }
    }

    method Fields(heap: Heap, fields: seq<Field>, rules: Rules) returns (clean: seq<CleanField>)
      requires WellFormed(heap) && AllWhole(heap, fields)
      modifies this
      ensures Walk(clean, seen) == RedactFields(heap, fields, |fields|, old(seen), rules)
      decreases |heap.Keys - seen|, 1
    {
      clean := [];
      ghost var start := seen;
      for n := 0 to |fields|
        invariant |clean| == n && start <= seen
        invariant Walk(clean, seen) == RedactFields(heap, fields, n, start, rules)
      {
        NoMoreLeft(heap.Keys, start, seen);
        NextFieldStep(heap, fields, n + 1, start, rules);
        var value := Value(heap, fields[n].value, fields[n].key, rules);
        clean := clean + [CleanField(fields[n].key, value)];
      }
    }
  }

  // --- Every object that can be reached is expanded, and only once ---

  // The objects that an object shows: secret fields are not followed.
  predicate Shows(heap: Heap, from: Ref, to: Ref, rules: Rules) {
    from in heap && exists k :: 0 <= k < |heap[from].fields| && heap[from].fields[k] == Field(heap[from].fields[k].key, Object(to))
                                && !rules.secret(heap[from].fields[k].key)
  }

  predicate StepAt(heap: Heap, path: seq<Ref>, k: nat, rules: Rules)
    requires k + 1 < |path|
  {
    Shows(heap, path[k], path[k + 1], rules)
  }

  // path leads from its first object to its last one.
  predicate Leads(heap: Heap, path: seq<Ref>, rules: Rules) {
    path != [] && forall k: nat :: k + 1 < |path| ==> StepAt(heap, path, k, rules)
  }

  ghost predicate Reachable(heap: Heap, root: Ref, r: Ref, rules: Rules) {
    exists path :: Leads(heap, path, rules) && path[0] == root && path[|path| - 1] == r
  }

  // What was added to the seen objects shows nothing that was not seen.
  ghost predicate Complete(heap: Heap, before: set<Ref>, after: set<Ref>, rules: Rules) {
    forall from, to {:trigger Shows(heap, from, to, rules)} ::
      from in after && from !in before && Shows(heap, from, to, rules) ==> to in after
  }

  // What was added can be reached from one of the starting points.
  ghost predicate Justified(heap: Heap, starts: set<Ref>, before: set<Ref>, after: set<Ref>, rules: Rules) {
    forall r :: r in after && r !in before ==> r in heap && exists s :: s in starts && Reachable(heap, s, r, rules)
  }

  function Start(v: Value, key: string, rules: Rules): set<Ref> {
    if rules.secret(key) || !v.Object? then {} else {v.ref}
  }

  function Starts(fields: seq<Field>, n: nat, rules: Rules): set<Ref>
    requires n <= |fields|
  {
    if n == 0 then {} else Starts(fields, n - 1, rules) + Start(fields[n - 1].value, fields[n - 1].key, rules)
  }

  lemma {:induction false} StartsAreShown(heap: Heap, from: Ref, n: nat, rules: Rules)
    requires from in heap && n <= |heap[from].fields|
    ensures forall to :: to in Starts(heap[from].fields, n, rules) ==> Shows(heap, from, to, rules)
    ensures forall k :: 0 <= k < n ==> Start(heap[from].fields[k].value, heap[from].fields[k].key, rules) <= Starts(heap[from].fields, n, rules)
  {
    if n > 0 {
      StartsAreShown(heap, from, n - 1, rules);
      var f := heap[from].fields[n - 1];
      if !rules.secret(f.key) && f.value.Object? { assert f == Field(f.key, Object(f.value.ref)); }
    }
  }

  lemma ShownIsStart(heap: Heap, from: Ref, to: Ref, rules: Rules)
    requires Shows(heap, from, to, rules)
    ensures to in Starts(heap[from].fields, |heap[from].fields|, rules)
  {
    StartsAreShown(heap, from, |heap[from].fields|, rules);
    var k :| 0 <= k < |heap[from].fields| && heap[from].fields[k] == Field(heap[from].fields[k].key, Object(to))
             && !rules.secret(heap[from].fields[k].key);
    assert to in Start(heap[from].fields[k].value, heap[from].fields[k].key, rules);
  }

  lemma StepOn(heap: Heap, from: Ref, next: Ref, r: Ref, rules: Rules)
    requires Shows(heap, from, next, rules) && Reachable(heap, next, r, rules)
    ensures Reachable(heap, from, r, rules)
  {
    var path :| Leads(heap, path, rules) && path[0] == next && path[|path| - 1] == r;
    var longer := [from] + path;
    forall k: nat | k + 1 < |longer| ensures StepAt(heap, longer, k, rules) {
      if k > 0 { assert StepAt(heap, path, k - 1, rules); }
    }
    assert Leads(heap, longer, rules);
  }

  lemma {:induction false} ValueVisits(heap: Heap, v: Value, key: string, seen: set<Ref>, rules: Rules)
    requires WellFormed(heap) && Whole(heap, v)
    ensures ValueLeads(heap, v, key, seen, rules)
    decreases |heap.Keys - seen|, 0
  {
    if !rules.secret(key) && v.Object? && v.ref !in seen {
      var r := v.ref;
      FewerLeft(heap.Keys, seen, r);
      var fields := heap[r].fields;
      var after := RedactFields(heap, fields, |fields|, seen + {r}, rules).seen;
      FieldsVisit(heap, fields, |fields|, seen + {r}, rules);
      forall from, to | from in after && from !in seen && Shows(heap, from, to, rules) ensures to in after {
        if from == r { ShownIsStart(heap, r, to, rules); }
      }
      JustifiedFromRoot(heap, r, seen, after, rules);
    }
  }

  lemma JustifiedFromRoot(heap: Heap, root: Ref, seen: set<Ref>, after: set<Ref>, rules: Rules)
    requires root in heap && Justified(heap, Starts(heap[root].fields, |heap[root].fields|, rules), seen + {root}, after, rules)
    ensures Justified(heap, {root}, seen, after, rules)
  {
    assert Leads(heap, [root], rules) && Reachable(heap, root, root, rules);
    StartsAreShown(heap, root, |heap[root].fields|, rules);
    forall r | r in after && r !in seen ensures r in heap && Reachable(heap, root, r, rules) {
      if r != root {
        var s :| s in Starts(heap[root].fields, |heap[root].fields|, rules) && Reachable(heap, s, r, rules);
        StepOn(heap, root, s, r, rules);
      }
    }
  }

  ghost predicate Visits(heap: Heap, starts: set<Ref>, seen: set<Ref>, after: set<Ref>, rules: Rules) {
    starts <= after && seen <= after && Complete(heap, seen, after, rules) && Justified(heap, starts, seen, after, rules)
  }

  lemma VisitsCompose(heap: Heap, a: set<Ref>, b: set<Ref>, seen: set<Ref>, mid: set<Ref>, after: set<Ref>, rules: Rules)
    ensures Visits(heap, a, seen, mid, rules) && Visits(heap, b, mid, after, rules) ==> Visits(heap, a + b, seen, after, rules)
  {
    if Visits(heap, a, seen, mid, rules) && Visits(heap, b, mid, after, rules) {
      forall r | r in after && r !in seen ensures r in heap && exists s :: s in a + b && Reachable(heap, s, r, rules) {
        if r in mid {
          var s :| s in a && Reachable(heap, s, r, rules);
          assert s in a + b;
        } else {
          var s :| s in b && Reachable(heap, s, r, rules);
          assert s in a + b;
        }
      }
    }
  }

  lemma VisitsNothing(heap: Heap, seen: set<Ref>, rules: Rules)
    ensures Visits(heap, {}, seen, seen, rules)
  {
  }

  // Where the first n fields lead.
  ghost predicate FieldsLead(heap: Heap, fields: seq<Field>, n: nat, seen: set<Ref>, rules: Rules)
    requires WellFormed(heap) && AllWhole(heap, fields) && n <= |fields|
  {
    Visits(heap, Starts(fields, n, rules), seen, RedactFields(heap, fields, n, seen, rules).seen, rules)
  }

  ghost predicate ValueLeads(heap: Heap, v: Value, key: string, seen: set<Ref>, rules: Rules)
    requires WellFormed(heap) && Whole(heap, v)
  {
    Visits(heap, Start(v, key, rules), seen, RedactValue(heap, v, key, seen, rules).seen, rules)
  }

  lemma NextFieldLeads(heap: Heap, fields: seq<Field>, n: nat, seen: set<Ref>, before: set<Ref>, rules: Rules)
    requires WellFormed(heap) && AllWhole(heap, fields) && 0 < n <= |fields|
    requires before == RedactFields(heap, fields, n - 1, seen, rules).seen
    requires FieldsLead(heap, fields, n - 1, seen, rules) && ValueLeads(heap, fields[n - 1].value, fields[n - 1].key, before, rules)
    ensures FieldsLead(heap, fields, n, seen, rules)
  {
    var f := fields[n - 1];
    var after := RedactValue(heap, f.value, f.key, before, rules).seen;
    assert after == RedactFields(heap, fields, n, seen, rules).seen;
    VisitsCompose(heap, Starts(fields, n - 1, rules), Start(f.value, f.key, rules), seen, before, after, rules);
  }

  lemma {:induction false} FieldsVisit(heap: Heap, fields: seq<Field>, n: nat, seen: set<Ref>, rules: Rules)
    requires WellFormed(heap) && AllWhole(heap, fields) && n <= |fields|
    ensures FieldsLead(heap, fields, n, seen, rules)
    decreases |heap.Keys - seen|, n + 1
  {
    if n == 0 {
      VisitsNothing(heap, seen, rules);
    } else {
      FieldsVisit(heap, fields, n - 1, seen, rules);
      NextFieldVisits(heap, fields, n, seen, RedactFields(heap, fields, n - 1, seen, rules).seen, rules);
    }
  }

  lemma {:induction false} NextFieldVisits(heap: Heap, fields: seq<Field>, n: nat, seen: set<Ref>, before: set<Ref>, rules: Rules)
    requires WellFormed(heap) && AllWhole(heap, fields) && 0 < n <= |fields|
    requires before == RedactFields(heap, fields, n - 1, seen, rules).seen
    ensures FieldsLead(heap, fields, n - 1, seen, rules) ==> FieldsLead(heap, fields, n, seen, rules)
    decreases |heap.Keys - seen|, n
  {
    if FieldsLead(heap, fields, n - 1, seen, rules) {
      NoMoreLeft(heap.Keys, seen, before);
      ValueVisits(heap, fields[n - 1].value, fields[n - 1].key, before, rules);
      NextFieldLeads(heap, fields, n, seen, before, rules);
    }
  }

  lemma {:induction false} ClosedContains(heap: Heap, seen: set<Ref>, path: seq<Ref>, rules: Rules)
    requires Complete(heap, {}, seen, rules) && Leads(heap, path, rules) && path[0] in seen
    ensures path[|path| - 1] in seen
  {
    if |path| > 1 {
      assert StepAt(heap, path, 0, rules);
      forall k: nat | k + 1 < |path[1..]| ensures StepAt(heap, path[1..], k, rules) {
        assert StepAt(heap, path, k + 1, rules);
      }
      ClosedContains(heap, seen, path[1..], rules);
    }
  }

  // A redaction from a root visits exactly the objects that non-secret fields lead to.
  lemma VisitsExactlyReachable(heap: Heap, root: Ref, rules: Rules, r: Ref)
    requires WellFormed(heap) && root in heap && !rules.secret("")
    ensures r in RedactValue(heap, Object(root), "", {}, rules).seen <==> Reachable(heap, root, r, rules)
  {
    var after := RedactValue(heap, Object(root), "", {}, rules).seen;
    ValueVisits(heap, Object(root), "", {}, rules);
    if r in after {
      var s :| s in {root} && Reachable(heap, s, r, rules);
    }
    if Reachable(heap, root, r, rules) {
      var path :| Leads(heap, path, rules) && path[0] == root && path[|path| - 1] == r;
      ClosedContains(heap, after, path, rules);
    }
  }

  // How many objects a clean value spells out.
  function Expanded(c: Clean): nat
    decreases c, 0
  {
    if c.CleanNode? then 1 + ExpandedFields(c.fields) else 0
  }

  function ExpandedFields(fields: seq<CleanField>): nat
    decreases fields, |fields|
  {
    if fields == [] then 0 else ExpandedFields(fields[..|fields| - 1]) + Expanded(fields[|fields| - 1].value)
  }

  lemma {:induction false} ValueExpandsOnce(heap: Heap, v: Value, key: string, seen: set<Ref>, rules: Rules)
    requires WellFormed(heap) && Whole(heap, v)
    ensures var w := RedactValue(heap, v, key, seen, rules); Expanded(w.result) + |seen| == |w.seen|
    decreases |heap.Keys - seen|, 0
  {
    if !rules.secret(key) && v.Object? && v.ref !in seen {
      FewerLeft(heap.Keys, seen, v.ref);
      FieldsExpandOnce(heap, heap[v.ref].fields, |heap[v.ref].fields|, seen + {v.ref}, rules);
    }
  }

  lemma LastExpands(fields: seq<CleanField>, f: CleanField)
    ensures ExpandedFields(fields + [f]) == ExpandedFields(fields) + Expanded(f.value)
  {
    assert (fields + [f])[..|fields|] == fields;
  }

  // One more field, after those before it have filled `before.seen`.
  lemma NextFieldStep(heap: Heap, fields: seq<Field>, n: nat, seen: set<Ref>, rules: Rules)
    requires WellFormed(heap) && AllWhole(heap, fields) && 0 < n <= |fields|
    ensures var before := RedactFields(heap, fields, n - 1, seen, rules);
            var last := RedactValue(heap, fields[n - 1].value, fields[n - 1].key, before.seen, rules);
            RedactFields(heap, fields, n, seen, rules)
            == Walk(before.result + [CleanField(fields[n - 1].key, last.result)], last.seen)
  {
  }

  lemma {:induction false} FieldsExpandOnce(heap: Heap, fields: seq<Field>, n: nat, seen: set<Ref>, rules: Rules)
    requires WellFormed(heap) && AllWhole(heap, fields) && n <= |fields|
    ensures var w := RedactFields(heap, fields, n, seen, rules); ExpandedFields(w.result) + |seen| == |w.seen|
    decreases |heap.Keys - seen|, n + 1
  {
    if n > 0 {
      FieldsExpandOnce(heap, fields, n - 1, seen, rules);
      NextFieldExpandsOnce(heap, fields, n, seen, RedactFields(heap, fields, n - 1, seen, rules), rules);
    }
  }

  lemma {:induction false} NextFieldExpandsOnce(heap: Heap, fields: seq<Field>, n: nat, seen: set<Ref>,
                                                before: Walk<seq<CleanField>>, rules: Rules)
    requires WellFormed(heap) && AllWhole(heap, fields) && 0 < n <= |fields|
    requires before == RedactFields(heap, fields, n - 1, seen, rules) && ExpandedFields(before.result) + |seen| == |before.seen|
    ensures var w := RedactFields(heap, fields, n, seen, rules); ExpandedFields(w.result) + |seen| == |w.seen|
    decreases |heap.Keys - seen|, n
  {
    var f := fields[n - 1];
    NoMoreLeft(heap.Keys, seen, before.seen);
    ValueExpandsOnce(heap, f.value, f.key, before.seen, rules);
    NextFieldStep(heap, fields, n, seen, rules);
    LastExpands(before.result, CleanField(f.key, RedactValue(heap, f.value, f.key, before.seen, rules).result));
  }

  // The result spells out every object that can be reached exactly once, however the objects
  // share parts or refer to each other.
  lemma EachObjectOnce(heap: Heap, root: Ref, rules: Rules)
    requires WellFormed(heap) && root in heap && !rules.secret("")
    ensures var w := RedactValue(heap, Object(root), "", {}, rules);
            Expanded(w.result) == |w.seen| && forall r :: r in w.seen <==> Reachable(heap, root, r, rules)
  {
    ValueExpandsOnce(heap, Object(root), "", {}, rules);
    forall r ensures r in RedactValue(heap, Object(root), "", {}, rules).seen <==> Reachable(heap, root, r, rules) {
      VisitsExactlyReachable(heap, root, rules, r);
    }
  }

  // --- Nothing escapes ---

  predicate Scrubbed(c: Clean, key: string, rules: Rules)
    decreases c
  {
    if rules.secret(key) then c == Redacted
    else c.CleanNode? ==> forall k :: 0 <= k < |c.fields| ==> Scrubbed(c.fields[k].value, c.fields[k].key, rules)
  }

  predicate AllScrubbed(fields: seq<CleanField>, rules: Rules) {
    forall k :: 0 <= k < |fields| ==> Scrubbed(fields[k].value, fields[k].key, rules)
  }

  lemma OneMoreScrubbed(fields: seq<CleanField>, f: CleanField, rules: Rules)
    requires AllScrubbed(fields, rules) && Scrubbed(f.value, f.key, rules)
    ensures AllScrubbed(fields + [f], rules)
  {
  }

  lemma {:induction false} SecretsAreRedacted(heap: Heap, v: Value, key: string, seen: set<Ref>, rules: Rules)
    requires WellFormed(heap) && Whole(heap, v)
    ensures Scrubbed(RedactValue(heap, v, key, seen, rules).result, key, rules)
    decreases |heap.Keys - seen|, 0
  {
    if !rules.secret(key) && v.Object? && v.ref !in seen {
      FewerLeft(heap.Keys, seen, v.ref);
      FieldsRedacted(heap, heap[v.ref].fields, |heap[v.ref].fields|, seen + {v.ref}, rules);
    }
  }

  lemma {:induction false} FieldsRedacted(heap: Heap, fields: seq<Field>, n: nat, seen: set<Ref>, rules: Rules)
    requires WellFormed(heap) && AllWhole(heap, fields) && n <= |fields|
    ensures AllScrubbed(RedactFields(heap, fields, n, seen, rules).result, rules)
    decreases |heap.Keys - seen|, n + 1
  {
    if n > 0 {
      FieldsRedacted(heap, fields, n - 1, seen, rules);
      NextFieldRedacted(heap, fields, n, seen, RedactFields(heap, fields, n - 1, seen, rules), rules);
    }
  }

  lemma {:induction false} NextFieldRedacted(heap: Heap, fields: seq<Field>, n: nat, seen: set<Ref>,
                                             before: Walk<seq<CleanField>>, rules: Rules)
    requires WellFormed(heap) && AllWhole(heap, fields) && 0 < n <= |fields|
    requires before == RedactFields(heap, fields, n - 1, seen, rules)
    ensures AllScrubbed(before.result, rules) ==> AllScrubbed(RedactFields(heap, fields, n, seen, rules).result, rules)
    decreases |heap.Keys - seen|, n
  {
    if AllScrubbed(before.result, rules) {
      var f := fields[n - 1];
      NoMoreLeft(heap.Keys, seen, before.seen);
      SecretsAreRedacted(heap, f.value, f.key, before.seen, rules);
      NextFieldStep(heap, fields, n, seen, rules);
      OneMoreScrubbed(before.result, CleanField(f.key, RedactValue(heap, f.value, f.key, before.seen, rules).result), rules);
    }
  }

  // --- And nothing else is lost ---

  // The clean value stands for this value at this key: secret keys and only these are
  // redacted, texts are cleaned, and an object keeps its kind, its keys and their order.
  predicate StandsFor(heap: Heap, v: Value, key: string, c: Clean, rules: Rules)
    decreases c
  {
    if rules.secret(key) then c == Redacted
    else
      match v
      case Text(t) => c == CleanText(rules.redact(t))
      case Other => c == CleanOther
      case Object(r) =>
        c == Circular
        || (r in heap && c.CleanNode? && c.isArray == heap[r].isArray && |c.fields| == |heap[r].fields|
            && forall k :: 0 <= k < |c.fields| ==>
                 c.fields[k].key == heap[r].fields[k].key && StandsFor(heap, heap[r].fields[k].value, c.fields[k].key, c.fields[k].value, rules))
  }

  predicate AllStand(heap: Heap, fields: seq<Field>, clean: seq<CleanField>, rules: Rules) {
    |clean| <= |fields|
    && forall k :: 0 <= k < |clean| ==> clean[k].key == fields[k].key && StandsFor(heap, fields[k].value, clean[k].key, clean[k].value, rules)
  }

  lemma OneMoreStands(heap: Heap, fields: seq<Field>, clean: seq<CleanField>, c: Clean, rules: Rules)
    requires AllStand(heap, fields, clean, rules) && |clean| < |fields|
    requires StandsFor(heap, fields[|clean|].value, fields[|clean|].key, c, rules)
    ensures AllStand(heap, fields, clean + [CleanField(fields[|clean|].key, c)], rules)
  {
  }

  // At every place the result shows what the graph has at the same place.
  lemma {:induction false} RedactionKeepsTheRest(heap: Heap, v: Value, key: string, seen: set<Ref>, rules: Rules)
    requires WellFormed(heap) && Whole(heap, v)
    ensures StandsFor(heap, v, key, RedactValue(heap, v, key, seen, rules).result, rules)
    decreases |heap.Keys - seen|, 0
  {
    if !rules.secret(key) && v.Object? && v.ref !in seen {
      FewerLeft(heap.Keys, seen, v.ref);
      FieldsStand(heap, heap[v.ref].fields, |heap[v.ref].fields|, seen + {v.ref}, rules);
    }
  }

  lemma {:induction false} FieldsStand(heap: Heap, fields: seq<Field>, n: nat, seen: set<Ref>, rules: Rules)
    requires WellFormed(heap) && AllWhole(heap, fields) && n <= |fields|
    ensures AllStand(heap, fields, RedactFields(heap, fields, n, seen, rules).result, rules)
    decreases |heap.Keys - seen|, n + 1
  {
    if n > 0 {
      FieldsStand(heap, fields, n - 1, seen, rules);
      NextFieldStands(heap, fields, n, seen, RedactFields(heap, fields, n - 1, seen, rules), rules);
    }
  }

  lemma {:induction false} NextFieldStands(heap: Heap, fields: seq<Field>, n: nat, seen: set<Ref>,
                                           before: Walk<seq<CleanField>>, rules: Rules)
    requires WellFormed(heap) && AllWhole(heap, fields) && 0 < n <= |fields|
    requires before == RedactFields(heap, fields, n - 1, seen, rules)
    ensures AllStand(heap, fields, before.result, rules) ==>
              AllStand(heap, fields, RedactFields(heap, fields, n, seen, rules).result, rules)
    decreases |heap.Keys - seen|, n
  {
    if AllStand(heap, fields, before.result, rules) {
      var f := fields[n - 1];
      NoMoreLeft(heap.Keys, seen, before.seen);
      RedactionKeepsTheRest(heap, f.value, f.key, before.seen, rules);
      NextFieldStep(heap, fields, n, seen, rules);
      OneMoreStands(heap, fields, before.result, RedactValue(heap, f.value, f.key, before.seen, rules).result, rules);
    }
  }

  // An object that is only shared, without any cycle, is called circular the second time.
  lemma SharedIsCalledCircular(rules: Rules)
    requires !rules.secret("") && !rules.secret("a") && !rules.secret("b")
    ensures var heap := map[0 := Node(false, [Field("a", Object(1)), Field("b", Object(1))]), 1 := Node(true, [])];
            WellFormed(heap) && RedactValue(heap, Object(0), "", {}, rules).result
            == CleanNode(false, [CleanField("a", CleanNode(true, [])), CleanField("b", Circular)])
  {
    var fields := [Field("a", Object(1)), Field("b", Object(1))];
    var heap := map[0 := Node(false, fields), 1 := Node(true, [])];
    var shown := CleanField("a", CleanNode(true, []));
    assert RedactFields(heap, heap[1].fields, 0, {0} + {1}, rules) == Walk([], {0} + {1});
    assert RedactValue(heap, fields[0].value, fields[0].key, {0}, rules) == Walk(CleanNode(true, []), {0} + {1});
    assert RedactFields(heap, fields, 1, {0}, rules) == Walk([] + [shown], {0} + {1});
    assert [] + [shown] == [shown];
    assert RedactFields(heap, fields, 2, {0}, rules).result == [shown] + [CleanField("b", Circular)];
    assert {} + {0} == {0};
  }

  // --- What is called circular ---

  predicate HasCircular(c: Clean)
    decreases c
  {
    c.Circular? || (c.CleanNode? && exists k :: 0 <= k < |c.fields| && HasCircular(c.fields[k].value))
  }

  predicate AnyCircular(fields: seq<CleanField>) {
    exists k :: 0 <= k < |fields| && HasCircular(fields[k].value)
  }

  // A field of an object, and the object it shows.
  datatype Edge = Edge(from: Ref, index: nat)

  function Target(heap: Heap, e: Edge, rules: Rules): (t: set<Ref>) {
    if e.from in heap && e.index < |heap[e.from].fields|
    then Start(heap[e.from].fields[e.index].value, heap[e.from].fields[e.index].key, rules)
    else {}
  }

  // The fields a walk has passed: the first n of the owner, and all of those it visited.
  predicate Passed(e: Edge, owner: Ref, n: nat, seen: set<Ref>, after: set<Ref>) {
    (e.from == owner && e.index < n) || (e.from in after && e.from !in seen)
  }

  // e shows an object that was seen before, or the one that another passed field shows.
  predicate Meets(heap: Heap, d: Edge, e: Edge, r: Ref, owner: Ref, n: nat, seen: set<Ref>, after: set<Ref>, rules: Rules) {
    && Passed(e, owner, n, seen, after) && r in Target(heap, e, rules)
    && (r in seen || (d != e && Passed(d, owner, n, seen, after) && r in Target(heap, d, rules)))
  }

  ghost predicate Clash(heap: Heap, owner: Ref, n: nat, seen: set<Ref>, after: set<Ref>, rules: Rules) {
    exists d, e, r :: Meets(heap, d, e, r, owner, n, seen, after, rules)
  }

  // Passed fields show objects that are seen now, and what is new was shown by one of them.
  ghost predicate Traced(heap: Heap, owner: Ref, n: nat, seen: set<Ref>, after: set<Ref>, rules: Rules) {
    && seen <= after
    && (forall e, r :: Passed(e, owner, n, seen, after) && r in Target(heap, e, rules) ==> r in after)
    && (forall r :: r in after && r !in seen ==> exists e :: Passed(e, owner, n, seen, after) && r in Target(heap, e, rules))
  }

  lemma TracedNothing(heap: Heap, owner: Ref, seen: set<Ref>, rules: Rules)
    ensures Traced(heap, owner, 0, seen, seen, rules) && !Clash(heap, owner, 0, seen, seen, rules)
  {
  }

  lemma PassedOn(e: Edge, owner: Ref, n: nat, seen: set<Ref>, after: set<Ref>)
    requires owner in seen
    ensures Passed(e, owner, n + 1, seen, after) <==> Passed(e, owner, n, seen, after) || e == Edge(owner, n)
  {
  }

  // The next field leads nowhere new.
  lemma StillTraced(heap: Heap, owner: Ref, n: nat, seen: set<Ref>, after: set<Ref>, rules: Rules)
    requires owner in seen && Target(heap, Edge(owner, n), rules) <= after
    ensures Traced(heap, owner, n, seen, after, rules) ==> Traced(heap, owner, n + 1, seen, after, rules)
  {
    if Traced(heap, owner, n, seen, after, rules) {
      forall e, r | Passed(e, owner, n + 1, seen, after) && r in Target(heap, e, rules) ensures r in after {
        PassedOn(e, owner, n, seen, after);
      }
      forall r | r in after && r !in seen ensures exists e :: Passed(e, owner, n + 1, seen, after) && r in Target(heap, e, rules) {
        var e :| Passed(e, owner, n, seen, after) && r in Target(heap, e, rules);
        assert Passed(e, owner, n + 1, seen, after);
      }
    }
  }

  // The next field shows no object.
  lemma QuietField(heap: Heap, owner: Ref, n: nat, seen: set<Ref>, after: set<Ref>, rules: Rules)
    requires owner in seen && Target(heap, Edge(owner, n), rules) == {}
    ensures Clash(heap, owner, n + 1, seen, after, rules) <==> Clash(heap, owner, n, seen, after, rules)
  {
    if Clash(heap, owner, n, seen, after, rules) {
      var d, e, r :| Meets(heap, d, e, r, owner, n, seen, after, rules);
      assert Meets(heap, d, e, r, owner, n + 1, seen, after, rules);
    }
    if Clash(heap, owner, n + 1, seen, after, rules) {
      var d, e, r :| Meets(heap, d, e, r, owner, n + 1, seen, after, rules);
      PassedOn(d, owner, n, seen, after);
      PassedOn(e, owner, n, seen, after);
      assert Meets(heap, d, e, r, owner, n, seen, after, rules);
    }
  }

  // The next field shows an object that has been seen.
  lemma MetField(heap: Heap, owner: Ref, n: nat, seen: set<Ref>, after: set<Ref>, r: Ref, rules: Rules)
    requires Traced(heap, owner, n, seen, after, rules) && owner in seen && Target(heap, Edge(owner, n), rules) == {r} && r in after
    ensures Clash(heap, owner, n + 1, seen, after, rules)
  {
    var e := Edge(owner, n);
    if r in seen {
      assert Meets(heap, e, e, r, owner, n + 1, seen, after, rules);
    } else {
      var d :| Passed(d, owner, n, seen, after) && r in Target(heap, d, rules);
      assert Meets(heap, d, e, r, owner, n + 1, seen, after, rules);
    }
  }

  // The next field shows a new object r, whose own walk from before + {r} ends with after.
  lemma NewField(heap: Heap, owner: Ref, n: nat, seen: set<Ref>, before: set<Ref>, r: Ref, m: nat, after: set<Ref>, rules: Rules)
    requires owner in seen && r !in before && Target(heap, Edge(owner, n), rules) == {r}
    requires r in heap && m == |heap[r].fields|
    requires Traced(heap, owner, n, seen, before, rules) && Traced(heap, r, m, before + {r}, after, rules)
    ensures Traced(heap, owner, n + 1, seen, after, rules)
  {
    forall e, x | Passed(e, owner, n + 1, seen, after) && x in Target(heap, e, rules) ensures x in after {
      PassedBy(heap, e, owner, n, seen, before, r, m, after, rules);
    }
    forall x | x in after && x !in seen ensures exists e :: Passed(e, owner, n + 1, seen, after) && x in Target(heap, e, rules) {
      if x in before {
        var e :| Passed(e, owner, n, seen, before) && x in Target(heap, e, rules);
        assert Passed(e, owner, n + 1, seen, after);
      } else if x == r {
        assert Passed(Edge(owner, n), owner, n + 1, seen, after);
      } else {
        var e :| Passed(e, r, m, before + {r}, after) && x in Target(heap, e, rules);
        assert Passed(e, owner, n + 1, seen, after);
      }
    }
  }

  // Every field that was passed was passed before, is the next one, or was passed below it.
  lemma PassedBy(heap: Heap, e: Edge, owner: Ref, n: nat, seen: set<Ref>, before: set<Ref>, r: Ref, m: nat, after: set<Ref>, rules: Rules)
    requires owner in seen && seen <= before && r !in before && before <= after && r in heap && m == |heap[r].fields|
    requires Passed(e, owner, n + 1, seen, after) && Target(heap, e, rules) != {}
    ensures Passed(e, owner, n, seen, before) || e == Edge(owner, n) || Passed(e, r, m, before + {r}, after)
  {
    assert e.from == owner && e.index == n ==> e == Edge(owner, n);
  }

  lemma NewFieldClash(heap: Heap, owner: Ref, n: nat, seen: set<Ref>, before: set<Ref>, r: Ref, m: nat, after: set<Ref>, rules: Rules)
    requires owner in seen && r !in before && Target(heap, Edge(owner, n), rules) == {r}
    requires r in heap && m == |heap[r].fields|
    requires Traced(heap, owner, n, seen, before, rules) && Traced(heap, r, m, before + {r}, after, rules)
    requires Clash(heap, owner, n, seen, before, rules) || Clash(heap, r, m, before + {r}, after, rules)
    ensures Clash(heap, owner, n + 1, seen, after, rules)
  {
    if Clash(heap, owner, n, seen, before, rules) {
      var d, e, x :| Meets(heap, d, e, x, owner, n, seen, before, rules);
      assert Meets(heap, d, e, x, owner, n + 1, seen, after, rules);
    } else {
      var d, e, x :| Meets(heap, d, e, x, r, m, before + {r}, after, rules);
      ClashBelow(heap, d, e, x, owner, n, seen, before, r, m, after, rules);
    }
  }

  lemma ClashBelow(heap: Heap, d: Edge, e: Edge, x: Ref, owner: Ref, n: nat, seen: set<Ref>, before: set<Ref>, r: Ref, m: nat,
                   after: set<Ref>, rules: Rules)
    requires owner in seen && r !in before && Target(heap, Edge(owner, n), rules) == {r}
    requires Traced(heap, owner, n, seen, before, rules) && Traced(heap, r, m, before + {r}, after, rules)
    requires Meets(heap, d, e, x, r, m, before + {r}, after, rules)
    ensures Clash(heap, owner, n + 1, seen, after, rules)
  {
    assert r in after;
    assert Passed(e, owner, n + 1, seen, after) && e.from !in before;
    if x in seen {
      assert Meets(heap, d, e, x, owner, n + 1, seen, after, rules);
    } else if x == r {
      assert Meets(heap, Edge(owner, n), e, x, owner, n + 1, seen, after, rules);
    } else if x in before {
      var f :| Passed(f, owner, n, seen, before) && x in Target(heap, f, rules);
      assert f != e;
      assert Meets(heap, f, e, x, owner, n + 1, seen, after, rules);
    } else {
      assert Meets(heap, d, e, x, owner, n + 1, seen, after, rules);
    }
  }

  lemma NoNewClash(heap: Heap, d: Edge, e: Edge, x: Ref, owner: Ref, n: nat, seen: set<Ref>, before: set<Ref>, r: Ref, m: nat,
                   after: set<Ref>, rules: Rules)
    requires owner in seen && r !in before && Target(heap, Edge(owner, n), rules) == {r}
    requires r in heap && m == |heap[r].fields|
    requires Traced(heap, owner, n, seen, before, rules) && Traced(heap, r, m, before + {r}, after, rules)
    requires Meets(heap, d, e, x, owner, n + 1, seen, after, rules)
    ensures Clash(heap, owner, n, seen, before, rules) || Clash(heap, r, m, before + {r}, after, rules)
  {
    PassedBy(heap, e, owner, n, seen, before, r, m, after, rules);
    if x in seen {
      if Passed(e, owner, n, seen, before) {
        assert Meets(heap, d, e, x, owner, n, seen, before, rules);
      } else {
        assert Meets(heap, d, e, x, r, m, before + {r}, after, rules);
      }
    } else {
      PassedBy(heap, d, owner, n, seen, before, r, m, after, rules);
      if Passed(e, r, m, before + {r}, after) {
        if x in before + {r} || Passed(d, r, m, before + {r}, after) { assert Meets(heap, d, e, x, r, m, before + {r}, after, rules); }
      } else if Passed(d, r, m, before + {r}, after) {
        assert Meets(heap, e, d, x, r, m, before + {r}, after, rules);
      } else {
        assert Meets(heap, d, e, x, owner, n, seen, before, rules);
      }
    }
  }

  lemma NewFieldIff(heap: Heap, owner: Ref, n: nat, seen: set<Ref>, before: set<Ref>, r: Ref, m: nat, after: set<Ref>, rules: Rules)
    requires owner in seen && r !in before && Target(heap, Edge(owner, n), rules) == {r}
    requires r in heap && m == |heap[r].fields|
    ensures Traced(heap, owner, n, seen, before, rules) && Traced(heap, r, m, before + {r}, after, rules) ==>
              && Traced(heap, owner, n + 1, seen, after, rules)
              && (Clash(heap, owner, n + 1, seen, after, rules)
                  <==> Clash(heap, owner, n, seen, before, rules) || Clash(heap, r, m, before + {r}, after, rules))
  {
    if Traced(heap, owner, n, seen, before, rules) && Traced(heap, r, m, before + {r}, after, rules) {
      NewField(heap, owner, n, seen, before, r, m, after, rules);
      if Clash(heap, owner, n, seen, before, rules) || Clash(heap, r, m, before + {r}, after, rules) {
        NewFieldClash(heap, owner, n, seen, before, r, m, after, rules);
      }
      if Clash(heap, owner, n + 1, seen, after, rules) {
        var d, e, x :| Meets(heap, d, e, x, owner, n + 1, seen, after, rules);
        NoNewClash(heap, d, e, x, owner, n, seen, before, r, m, after, rules);
      }
    }
  }

  lemma OneMoreField(fields: seq<CleanField>, f: CleanField)
    ensures AnyCircular(fields + [f]) <==> AnyCircular(fields) || HasCircular(f.value)
  {
    var all := fields + [f];
    if AnyCircular(fields) {
      var k :| 0 <= k < |fields| && HasCircular(fields[k].value);
      assert all[k] == fields[k];
    }
    assert all[|fields|] == f;
  }

  ghost predicate CircularIsClash(heap: Heap, owner: Ref, n: nat, seen: set<Ref>, rules: Rules)
    requires WellFormed(heap) && owner in heap && n <= |heap[owner].fields|
  {
    var w := RedactFields(heap, heap[owner].fields, n, seen, rules);
    && Traced(heap, owner, n, seen, w.seen, rules)
    && (AnyCircular(w.result) <==> Clash(heap, owner, n, seen, w.seen, rules))
  }

  // The next field shows nothing, or something that was seen.
  lemma SeenFieldWalk(heap: Heap, owner: Ref, n: nat, seen: set<Ref>, before: Walk<seq<CleanField>>, rules: Rules)
    requires WellFormed(heap) && owner in heap && owner in seen && 0 < n <= |heap[owner].fields|
    requires before == RedactFields(heap, heap[owner].fields, n - 1, seen, rules)
    requires var f := heap[owner].fields[n - 1]; rules.secret(f.key) || !f.value.Object? || f.value.ref in before.seen
    ensures CircularIsClash(heap, owner, n - 1, seen, rules) ==> CircularIsClash(heap, owner, n, seen, rules)
  {
    var f := heap[owner].fields[n - 1];
    var last := RedactValue(heap, f.value, f.key, before.seen, rules);
    NextFieldStep(heap, heap[owner].fields, n, seen, rules);
    OneMoreField(before.result, CleanField(f.key, last.result));
    if CircularIsClash(heap, owner, n - 1, seen, rules) {
      StillTraced(heap, owner, n - 1, seen, before.seen, rules);
      if rules.secret(f.key) || !f.value.Object? {
        QuietField(heap, owner, n - 1, seen, before.seen, rules);
      } else {
        MetField(heap, owner, n - 1, seen, before.seen, f.value.ref, rules);
      }
    }
  }

  lemma {:induction false} NextFieldWalk(heap: Heap, owner: Ref, n: nat, seen: set<Ref>, before: Walk<seq<CleanField>>, rules: Rules)
    requires WellFormed(heap) && owner in heap && owner in seen && 0 < n <= |heap[owner].fields|
    requires before == RedactFields(heap, heap[owner].fields, n - 1, seen, rules)
    ensures CircularIsClash(heap, owner, n - 1, seen, rules) ==> CircularIsClash(heap, owner, n, seen, rules)
    decreases |heap.Keys - seen|, n - 1, 1
  {
    var f := heap[owner].fields[n - 1];
    if rules.secret(f.key) || !f.value.Object? || f.value.ref in before.seen {
      SeenFieldWalk(heap, owner, n, seen, before, rules);
    } else {
      NewFieldWalk(heap, owner, n, seen, before.seen, rules);
    }
  }

  lemma {:induction false} FieldsClash(heap: Heap, owner: Ref, n: nat, seen: set<Ref>, rules: Rules)
    requires WellFormed(heap) && owner in heap && owner in seen && n <= |heap[owner].fields|
    ensures CircularIsClash(heap, owner, n, seen, rules)
    decreases |heap.Keys - seen|, n
  {
    if n == 0 {
      TracedNothing(heap, owner, seen, rules);
    } else {
      FieldsClash(heap, owner, n - 1, seen, rules);
      NextFieldWalk(heap, owner, n, seen, RedactFields(heap, heap[owner].fields, n - 1, seen, rules), rules);
    }
  }

  // A new object's fields are walked with it among the seen ones.
  lemma NewObjectStep(heap: Heap, fields: seq<Field>, n: nat, seen: set<Ref>, rules: Rules)
    requires WellFormed(heap) && AllWhole(heap, fields) && 0 < n <= |fields|
    requires var f, before := fields[n - 1], RedactFields(heap, fields, n - 1, seen, rules);
             !rules.secret(f.key) && f.value.Object? && f.value.ref !in before.seen
    ensures var before, r := RedactFields(heap, fields, n - 1, seen, rules), fields[n - 1].value.ref;
            var inner := RedactFields(heap, heap[r].fields, |heap[r].fields|, before.seen + {r}, rules);
            RedactFields(heap, fields, n, seen, rules)
            == Walk(before.result + [CleanField(fields[n - 1].key, CleanNode(heap[r].isArray, inner.result))], inner.seen)
  {
  }

  lemma CleanNodeCircular(isArray: bool, fields: seq<CleanField>)
    ensures HasCircular(CleanNode(isArray, fields)) <==> AnyCircular(fields)
  {
  }

  lemma NewFieldJoins(heap: Heap, owner: Ref, n: nat, seen: set<Ref>, before: set<Ref>, r: Ref, rules: Rules)
    requires WellFormed(heap) && owner in heap && owner in seen && 0 < n <= |heap[owner].fields|
    requires before == RedactFields(heap, heap[owner].fields, n - 1, seen, rules).seen
    requires var f := heap[owner].fields[n - 1]; !rules.secret(f.key) && f.value == Object(r) && r !in before && r in heap
    ensures CircularIsClash(heap, owner, n - 1, seen, rules) && CircularIsClash(heap, r, |heap[r].fields|, before + {r}, rules)
            ==> CircularIsClash(heap, owner, n, seen, rules)
  {
    var fields, m := heap[owner].fields, |heap[r].fields|;
    var inner := RedactFields(heap, heap[r].fields, m, before + {r}, rules);
    NewObjectStep(heap, fields, n, seen, rules);
    CleanNodeCircular(heap[r].isArray, inner.result);
    OneMoreField(RedactFields(heap, fields, n - 1, seen, rules).result,
                 CleanField(fields[n - 1].key, CleanNode(heap[r].isArray, inner.result)));
    NewFieldIff(heap, owner, n - 1, seen, before, r, m, inner.seen, rules);
  }

  lemma {:induction false} NewFieldWalk(heap: Heap, owner: Ref, n: nat, seen: set<Ref>, before: set<Ref>, rules: Rules)
    requires WellFormed(heap) && owner in heap && owner in seen && 0 < n <= |heap[owner].fields|
    requires before == RedactFields(heap, heap[owner].fields, n - 1, seen, rules).seen
    requires var f := heap[owner].fields[n - 1]; !rules.secret(f.key) && f.value.Object? && f.value.ref !in before && seen <= before
    ensures CircularIsClash(heap, owner, n - 1, seen, rules) ==> CircularIsClash(heap, owner, n, seen, rules)
    decreases |heap.Keys - seen|, n - 1, 0
  {
    var r := heap[owner].fields[n - 1].value.ref;
    NoMoreLeft(heap.Keys, seen, before);
    FewerLeft(heap.Keys, before, r);
    FieldsClash(heap, r, |heap[r].fields|, before + {r}, rules);
    NewFieldJoins(heap, owner, n, seen, before, r, rules);
  }

  // A field of an object that can be reached shows r.
  ghost predicate Displays(heap: Heap, root: Ref, e: Edge, r: Ref, rules: Rules) {
    Reachable(heap, root, e.from, rules) && r in Target(heap, e, rules)
  }

  // Something is called circular exactly if the root is met again, or two different fields
  // show one object.
  lemma CircularIff(heap: Heap, root: Ref, rules: Rules)
    requires WellFormed(heap) && root in heap && !rules.secret("")
    ensures HasCircular(RedactValue(heap, Object(root), "", {}, rules).result)
            <==> (exists e :: Displays(heap, root, e, root, rules))
                 || exists d, e, r :: d != e && Displays(heap, root, d, r, rules) && Displays(heap, root, e, r, rules)
  {
    var n := |heap[root].fields|;
    var w := RedactFields(heap, heap[root].fields, n, {root}, rules);
    assert {} + {root} == {root};
    assert RedactValue(heap, Object(root), "", {}, rules) == Walk(CleanNode(heap[root].isArray, w.result), w.seen);
    FieldsClash(heap, root, n, {root}, rules);
    forall e ensures Passed(e, root, n, {root}, w.seen) && Target(heap, e, rules) != {}
                     <==> Reachable(heap, root, e.from, rules) && Target(heap, e, rules) != {}
    {
      VisitsExactlyReachable(heap, root, rules, e.from);
    }
    if Clash(heap, root, n, {root}, w.seen, rules) {
      var d, e, r :| Meets(heap, d, e, r, root, n, {root}, w.seen, rules);
      if r == root { assert Displays(heap, root, e, root, rules); } else { assert Displays(heap, root, d, r, rules) && Displays(heap, root, e, r, rules); }
    }
    if e :| Displays(heap, root, e, root, rules) {
      assert Meets(heap, e, e, root, root, n, {root}, w.seen, rules);
    }
    if d, e, r :| d != e && Displays(heap, root, d, r, rules) && Displays(heap, root, e, r, rules) {
      assert Meets(heap, d, e, r, root, n, {root}, w.seen, rules);
    }
  }
}
