// How many bytes the text of a JSON value has: the text of JSON.stringify, with members in
// their own order, encoded in UTF-8.
module JsonLength {
  import opened JsonValues
  import opened CanonicalJson

  // --- UTF-8 ---

  predicate High(u: Unit) {
    0xD800 <= u < 0xDC00
  }

  predicate Low(u: Unit) {
    0xDC00 <= u < 0xE000
  }

  // A unit of its own; a lone surrogate is written as the replacement character.
  function UnitLength(u: Unit): nat {
    if u < 0x80 then 1 else if u < 0x800 then 2 else 3
  }

  // Section 3 of RFC 3629: a surrogate pair is one character of four bytes.
  function Utf8Length(t: Text): nat
    decreases |t|
  {
    if t == [] then 0
    else if |t| > 1 && High(t[0]) && Low(t[1]) then 4 + Utf8Length(t[2..])
    else UnitLength(t[0]) + Utf8Length(t[1..])
  }

  // --- The length of a text, part by part ---

  // How much one unit of a string adds; the two units of a pair have four bytes together.
  function CodeBytes(s: Text, k: nat): nat
    requires k < |s|
  {
    var code := Code(s[k], Lone(s, k));
    if code != [s[k]] then |code| else if High(s[k]) || Low(s[k]) then 2 else UnitLength(s[k])
  }

  // The units from k on.
  function BodyBytes(s: Text, k: nat): nat
    requires k <= |s|
    decreases |s| - k
  {
    if k == |s| then 0 else CodeBytes(s, k) + BodyBytes(s, k + 1)
  }

  function QuotedBytes(s: Text): nat {
    2 + BodyBytes(s, 0)
  }

  function Sum(parts: seq<nat>): nat {
    if parts == [] then 0 else parts[0] + Sum(parts[1..])
  }

  function Weight(parts: seq<Pair<nat>>): nat {
    if parts == [] then 0 else parts[0].value + Weight(parts[1..])
  }

  // A comma between any two of n parts.
  function Commas(n: nat): nat {
    if n == 0 then 0 else n - 1
  }

  function Bytes(v: Json): nat
    decreases v
  {
    match v
    case Null => 4
    case Bool(b) => if b then 4 else 5
    case Num(digits) => |digits|
    case Str(text) => QuotedBytes(text)
    case Arr(items) => 2 + Sum(ItemBytes(items)) + Commas(|items|)
    case Obj(members) => 2 + Weight(Parts(members)) + Commas(|members|)
  }

  function ItemBytes(items: seq<Json>): (parts: seq<nat>)
    ensures |parts| == |items| && forall k :: 0 <= k < |parts| ==> parts[k] == Bytes(items[k])
    decreases items
  {
    seq(|items|, k requires 0 <= k < |items| => Bytes(items[k]))
  }

  // The key, the colon and a value of the given length.
  function Part(key: Text, bytes: nat): Pair<nat> {
    Pair(key, QuotedBytes(key) + 1 + bytes)
  }

  // The length of each member, under its key.
  function Parts(members: seq<Member>): (parts: seq<Pair<nat>>)
    ensures |parts| == |members|
    ensures forall k :: 0 <= k < |parts| ==> parts[k] == Part(members[k].key, Bytes(members[k].value))
    decreases members
  {
    seq(|members|, k requires 0 <= k < |members| => Part(members[k].key, Bytes(members[k].value)))
  }

  // --- It is the length of the text in UTF-8 ---

  predicate IsAscii(t: Text) {
    forall k :: 0 <= k < |t| ==> t[k] < 0x80
  }

  lemma {:induction false} AsciiLength(t: Text, rest: Text)
    requires IsAscii(t)
    ensures Utf8Length(t + rest) == |t| + Utf8Length(rest)
    decreases |t|
  {
    if t == [] {
      assert t + rest == rest;
    } else {
      AsciiLength(t[1..], rest);
      assert (t + rest)[0] == t[0] && (t + rest)[1..] == t[1..] + rest;
    }
  }

  lemma UnitThen(u: Unit, rest: Text)
    requires !High(u)
    ensures Utf8Length([u] + rest) == UnitLength(u) + Utf8Length(rest)
  {
    assert ([u] + rest)[1..] == rest;
  }

  lemma PairThen(u: Unit, v: Unit, rest: Text)
    requires High(u) && Low(v)
    ensures Utf8Length([u] + ([v] + rest)) == 4 + Utf8Length(rest)
  {
    var t := [u] + ([v] + rest);
    assert t[0] == u && t[1] == v && t[2..] == rest;
  }

  // Position k is not in the middle of a pair.
  predicate Between(s: Text, k: nat)
    requires k <= |s|
  {
    0 < k < |s| && High(s[k - 1]) ==> !Low(s[k])
  }

  lemma EscapesAreAscii(u: Unit, lone: bool)
    ensures Code(u, lone) == [u] || IsAscii(Code(u, lone))
  {
  }

  lemma BodyStep(s: Text, k: nat, rest: Text)
    requires k < |s|
    ensures Body(s, k) + rest == Code(s[k], Lone(s, k)) + (Body(s, k + 1) + rest)
  {
  }

  lemma PairCode(s: Text, k: nat)
    requires k + 1 < |s| && High(s[k]) && Low(s[k + 1])
    ensures Code(s[k], Lone(s, k)) == [s[k]] && Code(s[k + 1], Lone(s, k + 1)) == [s[k + 1]]
    ensures CodeBytes(s, k) == 2 && CodeBytes(s, k + 1) == 2
  {
  }

  // A unit that does not begin a pair: it is no surrogate, or it is escaped.
  lemma SingleLength(s: Text, k: nat, rest: Text)
    requires k < |s| && Between(s, k) && !(k + 1 < |s| && High(s[k]) && Low(s[k + 1]))
    ensures Utf8Length(Code(s[k], Lone(s, k)) + rest) == CodeBytes(s, k) + Utf8Length(rest)
  {
    var code := Code(s[k], Lone(s, k));
    EscapesAreAscii(s[k], Lone(s, k));
    if code == [s[k]] { UnitThen(s[k], rest); } else { AsciiLength(code, rest); }
  }

  lemma {:induction false} BodyLength(s: Text, k: nat, rest: Text)
    requires k <= |s| && Between(s, k)
    ensures Utf8Length(Body(s, k) + rest) == BodyBytes(s, k) + 1 + Utf8Length(rest)
    decreases |s| - k
  {
    if k == |s| {
      AsciiLength([QUOTE], rest);
    } else if k + 1 < |s| && High(s[k]) && Low(s[k + 1]) {
      BodyLength(s, k + 2, rest);
      BodyStep(s, k, rest);
      BodyStep(s, k + 1, rest);
      PairCode(s, k);
      PairThen(s[k], s[k + 1], Body(s, k + 2) + rest);
    } else {
      BodyLength(s, k + 1, rest);
      BodyStep(s, k, rest);
      SingleLength(s, k, Body(s, k + 1) + rest);
    }
  }

  lemma QuotedLength(s: Text, rest: Text)
    ensures Utf8Length(Quoted(s) + rest) == QuotedBytes(s) + Utf8Length(rest)
  {
    BodyLength(s, 0, rest);
    AsciiLength([QUOTE], Body(s, 0) + rest);
    Associative([QUOTE], Body(s, 0), rest);
  }

  // The order in which an object was built: no key is put behind another.
  const AS_BUILT: Order := (a, b) => true

  // JSON.stringify.
  function Written(v: Json): Text {
    Stable(v, AS_BUILT)
  }

  lemma {:induction false} ValueLength(v: Json, rest: Text)
    requires WellFormed(v)
    ensures Utf8Length(Written(v) + rest) == Bytes(v) + Utf8Length(rest)
    decreases v, 2
  {
    match v {
      case Str(text) => QuotedLength(text, rest);
      case Arr(items) => ArrayLength(v, rest);
      case Obj(members) => ObjectLength(v, rest);
      case _ => AsciiLength(Written(v), rest);
    }
  }

  lemma {:induction false} ArrayLength(v: Json, rest: Text)
    requires v.Arr? && WellFormed(v)
    ensures Utf8Length(Written(v) + rest) == Bytes(v) + Utf8Length(rest)
    decreases v, 1
  {
    var joined := JoinItems(v.items, AS_BUILT);
    ItemsLength(v, v.items, rest);
    AsciiLength([OPEN_ARRAY], joined + rest);
    Associative([OPEN_ARRAY], joined, rest);
  }

  lemma {:induction false} ItemsLength(v: Json, items: seq<Json>, rest: Text)
    requires v.Arr? && WellFormed(v) && forall x :: x in items ==> x in v.items
    ensures Utf8Length(JoinItems(items, AS_BUILT) + rest) == 1 + Sum(ItemBytes(items)) + Commas(|items|) + Utf8Length(rest)
    decreases v, 0, |items|
  {
    if items == [] {
      AsciiLength([CLOSE_ARRAY], rest);
    } else {
      var comma: Text := if |items| == 1 then [] else [COMMA];
      var tail := JoinItems(items[1..], AS_BUILT) + rest;
      assert items[0] in v.items;
      ItemsLength(v, items[1..], rest);
      ItemsSplit(items, rest, AS_BUILT);
      ValueLength(items[0], comma + tail);
      AsciiLength(comma, tail);
      assert ItemBytes(items)[1..] == ItemBytes(items[1..]);
    }
  }

  lemma SortAsBuilt(entries: seq<Entry>)
    ensures Sort(entries, AS_BUILT) == entries
  {
    SortedStays(entries, AS_BUILT);
  }

  lemma {:induction false} ObjectLength(v: Json, rest: Text)
    requires v.Obj? && WellFormed(v)
    ensures Utf8Length(Written(v) + rest) == Bytes(v) + Utf8Length(rest)
    decreases v, 1
  {
    var joined := JoinEntries(Entries(v.members, AS_BUILT));
    MembersLength(v, v.members, rest);
    SortAsBuilt(Entries(v.members, AS_BUILT));
    AsciiLength([OPEN_OBJECT], joined + rest);
    Associative([OPEN_OBJECT], joined, rest);
  }

  lemma {:induction false} MembersLength(v: Json, members: seq<Member>, rest: Text)
    requires v.Obj? && WellFormed(v) && forall m :: m in members ==> m in v.members
    ensures Utf8Length(JoinEntries(Entries(members, AS_BUILT)) + rest)
         == 1 + Weight(Parts(members)) + Commas(|members|) + Utf8Length(rest)
    decreases v, 0, |members|
  {
    if members == [] {
      AsciiLength([CLOSE_OBJECT], rest);
    } else {
      var m := members[0];
      var comma: Text := if |members| == 1 then [] else [COMMA];
      var tail := JoinEntries(Entries(members[1..], AS_BUILT)) + rest;
      assert m in v.members;
      MembersLength(v, members[1..], rest);
      MembersSplit(members, rest, AS_BUILT);
      MemberLength(m, comma, tail, Bytes(m.value), Written(m.value)) by {
        ValueLength(m.value, comma + tail);
      }
      assert Parts(members)[1..] == Parts(members[1..]);
    }
  }

  lemma MemberLength(m: Member, comma: Text, tail: Text, bytes: nat, text: Text)
    requires IsAscii(comma) && Utf8Length(text + (comma + tail)) == bytes + Utf8Length(comma + tail)
    ensures Utf8Length(Quoted(m.key) + ([COLON] + (text + (comma + tail)))) == Part(m.key, bytes).value + |comma| + Utf8Length(tail)
  {
    QuotedLength(m.key, [COLON] + (text + (comma + tail)));
    AsciiLength([COLON], text + (comma + tail));
    AsciiLength(comma, tail);
  }

  // The length is that of the text of JSON.stringify, encoded in UTF-8.
  lemma BytesAreWritten(v: Json)
    requires WellFormed(v)
    ensures Bytes(v) == Utf8Length(Written(v))
  {
    ValueLength(v, []);
    assert Written(v) + [] == Written(v);
  }

  // --- It does not depend on the order of members ---

  lemma {:induction false} WeightWithout(parts: seq<Pair<nat>>, k: nat)
    requires k < |parts|
    ensures Weight(parts) == Weight(parts[..k] + parts[k + 1..]) + parts[k].value
  {
    var rest := parts[..k] + parts[k + 1..];
    if k == 0 {
      assert rest == parts[1..];
    } else {
      var shorter := parts[1..];
      WeightWithout(shorter, k - 1);
      assert rest[0] == parts[0] && rest[1..] == shorter[..k - 1] + shorter[k..];
    }
  }

  lemma OthersStay(parts: seq<Pair<nat>>, k: nat, p: Pair<nat>)
    requires k < |parts| && p in parts && p != parts[k]
    ensures p in parts[..k] + parts[k + 1..]
  {
    var i :| 0 <= i < |parts| && parts[i] == p;
    assert p == (parts[..k] + parts[k + 1..])[if i < k then i else i - 1];
  }

  // Lists of one length with distinct keys, each entry of the one found in the other.
  lemma {:induction false} WeightsAgree(a: seq<Pair<nat>>, b: seq<Pair<nat>>)
    requires |a| == |b| && forall j, k :: 0 <= j < k < |a| ==> a[j].key != a[k].key
    requires forall j :: 0 <= j < |a| ==> a[j] in b
    ensures Weight(a) == Weight(b)
  {
    if a != [] {
      assert a[0] in b;
      var k :| 0 <= k < |b| && b[k] == a[0];
      var rest := b[..k] + b[k + 1..];
      forall j | 0 <= j < |a[1..]| ensures a[1..][j] in rest { OthersStay(b, k, a[j + 1]); }
      WeightsAgree(a[1..], rest);
      WeightWithout(b, k);
    }
  }

  lemma PartFound(members: seq<Member>, j: nat, others: seq<Member>, k: nat)
    requires j < |members| && k < |others| && others[k].key == members[j].key
    requires Bytes(members[j].value) == Bytes(others[k].value)
    ensures Parts(members)[j] in Parts(others)
  {
    var key, bytes := members[j].key, Bytes(members[j].value);
    assert Parts(members)[j] == Part(key, bytes);
    assert Parts(others)[k] == Part(key, bytes);
  }

  // Equal values have texts of one length, in whatever order their members come.
  lemma {:induction false} SameLength(v: Json, w: Json)
    requires WellFormed(v) && Same(v, w)
    ensures Bytes(v) == Bytes(w)
    decreases v, 1
  {
    match v {
      case Arr(items) => SameArrayLength(v, w);
      case Obj(members) => SameObjectLength(v, w);
      case _ =>
    }
  }

  lemma SameArrayLength(v: Json, w: Json)
    requires v.Arr? && WellFormed(v) && Same(v, w)
    ensures Bytes(v) == Bytes(w)
    decreases v, 0
  {
    forall k | 0 <= k < |v.items| ensures Bytes(v.items[k]) == Bytes(w.items[k]) { SameLength(v.items[k], w.items[k]); }
    assert ItemBytes(v.items) == ItemBytes(w.items);
  }

  lemma SameObjectLength(v: Json, w: Json)
    requires v.Obj? && WellFormed(v) && Same(v, w)
    ensures Bytes(v) == Bytes(w)
    decreases v, 0
  {
    var a, b := v.members, w.members;
    forall j | 0 <= j < |a| ensures Parts(a)[j] in Parts(b) {
      assert HasSame(b, a[j]);
      var k :| 0 <= k < |b| && b[k].key == a[j].key && Same(a[j].value, b[k].value);
      SameLength(a[j].value, b[k].value);
      PartFound(a, j, b, k);
    }
    WeightsAgree(Parts(a), Parts(b));
  }

  // No unit takes more than six bytes.
  lemma {:induction false} BodyBound(s: Text, k: nat)
    requires k <= |s|
    ensures BodyBytes(s, k) <= 6 * (|s| - k)
    decreases |s| - k
  {
    if k < |s| { BodyBound(s, k + 1); }
  }

  lemma SingletonBytes(key: Text, value: Json)
    ensures Bytes(Obj([Pair(key, value)])) <= 5 + 6 * |key| + Bytes(value)
  {
    var members := [Pair(key, value)];
    BodyBound(key, 0);
    assert Parts(members)[1..] == [];
    assert Weight(Parts(members)) == Part(key, Bytes(value)).value;
  }
}
