// The requests whose hash the restart helper compares: what its validation lets through, and
// what two of them with one hash have in common.
module RestartRequests {
  import opened JsonValues
  import opened Options
  import CanonicalJson

  // A text in ASCII.
  function Ascii(s: string): Text {
    seq(|s|, k requires 0 <= k < |s| => Code(s[k]))
  }

  function Code(c: char): Unit {
    if c < '\U{0080}' then c as int else 0
  }

  const PROTOCOL_VERSION: Text := Ascii("protocol_version")
  const ACTION: Text := Ascii("action")
  const OPERATION_ID: Text := Ascii("operation_id")
  const UNIT: Text := Ascii("unit")
  const REASON: Text := Ascii("reason")
  const ACTIVE_STATE: Text := Ascii("expected_active_state")
  const SUB_STATE: Text := Ascii("expected_sub_state")
  const INVOCATION_ID: Text := Ascii("expected_invocation_id")

  const NAMES: set<Text> :=
    {PROTOCOL_VERSION, ACTION, OPERATION_ID, UNIT, REASON, ACTIVE_STATE, SUB_STATE, INVOCATION_ID}

  // A property of a parsed object.
  function Get(members: seq<Member>, name: Text): Option<Json> {
    if members == [] then None
    else if members[0].key == name then Some(members[0].value)
    else Get(members[1..], name)
  }

  // The two tests that are not spelled out: the pattern of unit names, and what trim removes.
  datatype Patterns = Patterns(serviceUnit: Text -> bool, blank: Unit -> bool)

  predicate HexDigit(u: Unit) {
    48 <= u <= 57 || 97 <= u <= 102
  }

  predicate OwnUnit(unit: Text) {
    unit == Ascii("acornops-agentv.service") || Ascii("acornops-agentv-") <= unit
  }

  predicate TextBetween(v: Option<Json>, low: nat, high: nat) {
    v.Some? && v.value.Str? && low <= |v.value.text| <= high
  }

  predicate ValidOperation(v: Option<Json>) {
    TextBetween(v, 24, 24) && forall k :: 0 <= k < 24 ==> HexDigit(v.value.text[k])
  }

  predicate ValidUnit(v: Option<Json>, patterns: Patterns) {
    v.Some? && v.value.Str? && patterns.serviceUnit(v.value.text) && !OwnUnit(v.value.text)
  }

  predicate ValidReason(v: Option<Json>, patterns: Patterns) {
    TextBetween(v, 1, 512) && exists k :: 0 <= k < |v.value.text| && !patterns.blank(v.value.text[k])
  }

  // validateRestartRequest: only the eight names, and a test for each of them.
  predicate Validated(request: Json, patterns: Patterns) {
    && request.Obj?
    && (forall k :: 0 <= k < |request.members| ==> request.members[k].key in NAMES)
    && Get(request.members, PROTOCOL_VERSION) == Some(Num([49]))
    && Get(request.members, ACTION) == Some(Str(Ascii("restart_service")))
    && ValidOperation(Get(request.members, OPERATION_ID))
    && ValidUnit(Get(request.members, UNIT), patterns)
    && ValidReason(Get(request.members, REASON), patterns)
    && TextBetween(Get(request.members, ACTIVE_STATE), 1, 64)
    && TextBetween(Get(request.members, SUB_STATE), 1, 64)
    && (Get(request.members, INVOCATION_ID).Some? ==> TextBetween(Get(request.members, INVOCATION_ID), 1, 128))
  }

  // --- What a client sends ---

  // A request as the client of the helper builds it.
  datatype Request = Request(operation: Text, unit: Text, reason: Text, active: Text, sub: Text, invocation: Option<Text>)

  function Sent(r: Request): seq<Member> {
    [Pair(PROTOCOL_VERSION, Num([49])), Pair(ACTION, Str(Ascii("restart_service"))), Pair(OPERATION_ID, Str(r.operation)),
     Pair(UNIT, Str(r.unit)), Pair(REASON, Str(r.reason)), Pair(ACTIVE_STATE, Str(r.active)), Pair(SUB_STATE, Str(r.sub))]
    + if r.invocation.Some? then [Pair(INVOCATION_ID, Str(r.invocation.value))] else []
  }

  // The names have different lengths, but for two that begin differently.
  lemma NamesDiffer()
    ensures |PROTOCOL_VERSION| == 16 && |ACTION| == 6 && |OPERATION_ID| == 12 && |UNIT| == 4 && |REASON| == 6
    ensures |ACTIVE_STATE| == 21 && |SUB_STATE| == 18 && |INVOCATION_ID| == 22 && ACTION[0] != REASON[0]
  {
  }

  lemma {:induction false} GetBehind(front: seq<Member>, rest: seq<Member>, name: Text)
    requires forall k :: 0 <= k < |front| ==> front[k].key != name
    ensures Get(front + rest, name) == Get(rest, name)
  {
    if front == [] {
      assert front + rest == rest;
    } else {
      assert (front + rest)[1..] == front[1..] + rest;
      GetBehind(front[1..], rest, name);
    }
  }

  // The member at k is what its name gets, if no member before it has that name.
  lemma GetNth(members: seq<Member>, k: nat)
    requires k < |members| && forall j :: 0 <= j < k ==> members[j].key != members[k].key
    ensures Get(members, members[k].key) == Some(members[k].value)
  {
    assert members == members[..k] + members[k..];
    GetBehind(members[..k], members[k..], members[k].key);
  }

  lemma GetMissing(members: seq<Member>, name: Text)
    requires forall k :: 0 <= k < |members| ==> members[k].key != name
    ensures Get(members, name) == None
  {
    assert members == members + [];
    GetBehind(members, [], name);
  }

  lemma SentFields(r: Request)
    ensures var members := Sent(r);
            && Get(members, PROTOCOL_VERSION) == Some(Num([49])) && Get(members, ACTION) == Some(Str(Ascii("restart_service")))
            && Get(members, OPERATION_ID) == Some(Str(r.operation)) && Get(members, UNIT) == Some(Str(r.unit))
            && Get(members, REASON) == Some(Str(r.reason)) && Get(members, ACTIVE_STATE) == Some(Str(r.active))
            && Get(members, SUB_STATE) == Some(Str(r.sub))
            && Get(members, INVOCATION_ID) == (if r.invocation.Some? then Some(Str(r.invocation.value)) else None)
  {
    var members := Sent(r);
    NamesDiffer();
    GetNth(members, 0);
    GetNth(members, 1);
    GetNth(members, 2);
    GetNth(members, 3);
    GetNth(members, 4);
    GetNth(members, 5);
    GetNth(members, 6);
    if r.invocation.Some? { GetNth(members, 7); } else { GetMissing(members, INVOCATION_ID); }
  }

  // A request of the client is let through exactly if its operation is named by 24 hexadecimal
  // digits, its unit is one that may be restarted and not one of AgentV's own, it has a reason
  // that is not blank, and it tells the state it expects.
  lemma SentIsValidatedIff(r: Request, patterns: Patterns)
    ensures Validated(Obj(Sent(r)), patterns)
            <==> && |r.operation| == 24 && (forall k :: 0 <= k < 24 ==> HexDigit(r.operation[k]))
                 && patterns.serviceUnit(r.unit) && !OwnUnit(r.unit)
                 && 1 <= |r.reason| <= 512 && (exists k :: 0 <= k < |r.reason| && !patterns.blank(r.reason[k]))
                 && 1 <= |r.active| <= 64 && 1 <= |r.sub| <= 64
                 && (r.invocation.Some? ==> 1 <= |r.invocation.value| <= 128)
  {
    SentFields(r);
    assert forall k :: 0 <= k < |Sent(r)| ==> Sent(r)[k].key in NAMES;
  }

  // The comparison never calls two of the eight names equal.
  ghost predicate TellsNamesApart(leq: Order) {
    forall a, b :: a in NAMES && b in NAMES && Tied(a, b, leq) ==> a == b
  }

  lemma {:induction false} GetAt(members: seq<Member>, k: nat)
    requires DistinctKeys(members) && k < |members|
    ensures Get(members, members[k].key) == Some(members[k].value)
  {
    if k > 0 {
      assert members[0].key != members[k].key;
      GetAt(members[1..], k - 1);
    }
  }

  lemma {:induction false} GetFinds(members: seq<Member>, name: Text) returns (k: nat)
    requires Get(members, name).Some?
    ensures k < |members| && members[k] == Pair(name, Get(members, name).value)
  {
    if members[0].key == name { return 0; }
    k := GetFinds(members[1..], name);
    k := k + 1;
  }

  predicate Scalar(v: Json) {
    v.Num? || v.Str?
  }

  lemma ValuesAreScalar(request: Json, patterns: Patterns, k: nat)
    requires Validated(request, patterns) && WellFormed(request) && k < |request.members|
    ensures Scalar(request.members[k].value)
  {
    GetAt(request.members, k);
    assert request.members[k].key in NAMES;
  }

  // What is validated has no two names that the comparison confuses, so its canonical text
  // does not depend on the order in which they were sent.
  lemma ValidatedIsSeparated(request: Json, patterns: Patterns, leq: Order)
    requires Validated(request, patterns) && WellFormed(request) && TellsNamesApart(leq)
    ensures CanonicalJson.Separated(request, leq)
  {
    var members := request.members;
    forall j, k | 0 <= j < k < |members| ensures !Tied(members[j].key, members[k].key, leq) {
      assert members[j].key in NAMES && members[k].key in NAMES;
    }
    forall k | 0 <= k < |members| ensures CanonicalJson.Separated(members[k].value, leq) {
      ValuesAreScalar(request, patterns, k);
    }
  }

  function Keys(members: seq<Member>): set<Text> {
    set k | 0 <= k < |members| :: members[k].key
  }

  lemma {:induction false} AsManyKeys(members: seq<Member>)
    requires DistinctKeys(members)
    ensures |Keys(members)| == |members|
  {
    if members != [] {
      var n := |members| - 1;
      AsManyKeys(members[..n]);
      assert Keys(members) == Keys(members[..n]) + {members[n].key};
    }
  }

  lemma {:induction false} EqualSubset(a: set<Text>, b: set<Text>)
    requires a <= b && |a| == |b|
    ensures a == b
  {
    if a != {} {
      var x :| x in a;
      EqualSubset(a - {x}, b - {x});
    } else {
      assert |b| == 0;
    }
  }

  ghost predicate EqualFields(v: Json, w: Json)
    requires v.Obj? && w.Obj?
  {
    forall name :: Get(v.members, name) == Get(w.members, name)
  }

  // Two objects with scalar values are equal as maps exactly if every name has one value.
  lemma SameFields(v: Json, w: Json)
    requires v.Obj? && w.Obj? && WellFormed(v) && WellFormed(w)
    requires forall k :: 0 <= k < |v.members| ==> Scalar(v.members[k].value)
    ensures Same(v, w) <==> EqualFields(v, w)
  {
    AsManyKeys(v.members);
    AsManyKeys(w.members);
    if Same(v, w) {
      forall j | 0 <= j < |v.members| ensures Get(w.members, v.members[j].key) == Some(v.members[j].value) {
        assert HasSame(w.members, v.members[j]);
        var k :| 0 <= k < |w.members| && w.members[k].key == v.members[j].key && Same(v.members[j].value, w.members[k].value);
        assert Scalar(v.members[j].value);
        GetAt(w.members, k);
      }
      forall name ensures Get(v.members, name) == Get(w.members, name) { SameGets(v, w, name); }
    }
    if EqualFields(v, w) { SameFromGets(v, w); }
  }

  lemma SameGets(v: Json, w: Json, name: Text)
    requires v.Obj? && w.Obj? && WellFormed(v) && WellFormed(w) && |v.members| == |w.members|
    requires forall j :: 0 <= j < |v.members| ==> Get(w.members, v.members[j].key) == Some(v.members[j].value)
    ensures Get(v.members, name) == Get(w.members, name)
  {
    if Get(v.members, name).Some? {
      var j := GetFinds(v.members, name);
      assert Get(w.members, v.members[j].key) == Some(v.members[j].value);
    } else if Get(w.members, name).Some? {
      AsManyKeys(v.members);
      AsManyKeys(w.members);
      forall key | key in Keys(v.members) ensures key in Keys(w.members) {
        var j :| 0 <= j < |v.members| && v.members[j].key == key;
        var k := GetFinds(w.members, v.members[j].key);
      }
      EqualSubset(Keys(v.members), Keys(w.members));
      var k := GetFinds(w.members, name);
      assert name in Keys(w.members);
      var j :| 0 <= j < |v.members| && v.members[j].key == name;
      GetAt(v.members, j);
      assert false;
    }
  }

  lemma SameFromGets(v: Json, w: Json)
    requires v.Obj? && w.Obj? && WellFormed(v) && WellFormed(w)
    requires forall k :: 0 <= k < |v.members| ==> Scalar(v.members[k].value)
    requires EqualFields(v, w)
    ensures Same(v, w)
  {
    SubKeys(v, w);
    SubKeys(w, v);
    AsManyKeys(v.members);
    AsManyKeys(w.members);
    assert Keys(v.members) == Keys(w.members);
    forall j | 0 <= j < |v.members| ensures HasSame(w.members, v.members[j]) {
      GetAt(v.members, j);
      assert Get(v.members, v.members[j].key) == Get(w.members, v.members[j].key);
      var k := GetFinds(w.members, v.members[j].key);
      assert Scalar(v.members[j].value) && w.members[k].value == v.members[j].value;
    }
  }

  lemma SubKeys(v: Json, w: Json)
    requires v.Obj? && w.Obj? && WellFormed(v) && EqualFields(v, w)
    ensures Keys(v.members) <= Keys(w.members)
  {
    forall key | key in Keys(v.members) ensures key in Keys(w.members) {
      var j :| 0 <= j < |v.members| && v.members[j].key == key;
      GetAt(v.members, j);
      assert Get(v.members, key) == Get(w.members, key);
      var k := GetFinds(w.members, key);
    }
  }

  // Two validated requests have one hash exactly if they agree in all fields, in whatever
  // order the fields were sent.
  lemma RequestsAreIdentified(v: Json, w: Json, patterns: Patterns, leq: Order, hash: Text -> Text)
    requires WellFormed(v) && WellFormed(w) && Validated(v, patterns) && Validated(w, patterns)
    requires TotalPreorder(leq) && TellsNamesApart(leq)
    requires forall s, t :: hash(s) == hash(t) ==> s == t
    ensures hash(CanonicalJson.Stable(v, leq)) == hash(CanonicalJson.Stable(w, leq))
            <==> EqualFields(v, w)
  {
    ValidatedIsSeparated(v, patterns, leq);
    CanonicalJson.HashIdentifiesRequest(v, w, leq, hash);
    forall k | 0 <= k < |v.members| ensures Scalar(v.members[k].value) { ValuesAreScalar(v, patterns, k); }
    SameFields(v, w);
  }
}
