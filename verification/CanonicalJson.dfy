// The canonical text that identifies a helper request, and what it means for two JSON
// values to have the same one.
module CanonicalJson {
  import opened JsonValues

  const QUOTE: Unit := 34
  const BACKSLASH: Unit := 92
  const COMMA: Unit := 44
  const COLON: Unit := 58
  const OPEN_ARRAY: Unit := 91
  const CLOSE_ARRAY: Unit := 93
  const OPEN_OBJECT: Unit := 123
  const CLOSE_OBJECT: Unit := 125

  // --- Strings ---

  predicate Lone(s: Text, k: nat)
    requires k < |s|
  {
    (0xD800 <= s[k] < 0xDC00 && !(k + 1 < |s| && 0xDC00 <= s[k + 1] < 0xE000))
    || (0xDC00 <= s[k] < 0xE000 && !(k > 0 && 0xD800 <= s[k - 1] < 0xDC00))
  }

  function Hex(d: int): Unit
    requires 0 <= d < 16
  {
    if d < 10 then 48 + d else 87 + d
  }

  function Escape(u: Unit): Text {
    [BACKSLASH, 117, Hex(u / 0x1000), Hex(u / 0x100 % 16), Hex(u / 16 % 16), Hex(u % 16)]
  }

  // How JSON.stringify writes one unit: short escapes, six-unit escapes for other control
  // units and for lone surrogates, and everything else as it is.
  function Code(u: Unit, lone: bool): Text {
    if u == QUOTE then [BACKSLASH, QUOTE]
    else if u == BACKSLASH then [BACKSLASH, BACKSLASH]
    else if u == 8 then [BACKSLASH, 98]
    else if u == 12 then [BACKSLASH, 102]
    else if u == 10 then [BACKSLASH, 110]
    else if u == 13 then [BACKSLASH, 114]
    else if u == 9 then [BACKSLASH, 116]
    else if u < 32 || lone then Escape(u)
    else [u]
  }

  // The units of s from k on, and the closing quote.
  function Body(s: Text, k: nat): Text
    requires k <= |s|
    decreases |s| - k
  {
    if k == |s| then [QUOTE] else Code(s[k], Lone(s, k)) + Body(s, k + 1)
  }

  function Quoted(s: Text): Text {
    [QUOTE] + Body(s, 0)
  }

  // --- Values ---

  type Entry = Pair<Text>

  function Stable(v: Json, leq: Order): Text
    decreases v
  {
    match v
    case Null => [110, 117, 108, 108]
    case Bool(b) => if b then [116, 114, 117, 101] else [102, 97, 108, 115, 101]
    case Num(digits) => digits
    case Str(text) => Quoted(text)
    case Arr(items) => [OPEN_ARRAY] + JoinItems(items, leq)
    case Obj(members) => [OPEN_OBJECT] + JoinEntries(Sort(Entries(members, leq), leq))
  }

  // The items from the first on, comma separated, and the closing bracket.
  function JoinItems(items: seq<Json>, leq: Order): Text
    decreases items
  {
    if items == [] then [CLOSE_ARRAY]
    else Stable(items[0], leq) + (if |items| == 1 then [] else [COMMA]) + JoinItems(items[1..], leq)
  }

  function Entries(members: seq<Member>, leq: Order): (r: seq<Entry>)
    ensures |r| == |members|
    decreases members
  {
    if members == [] then []
    else [Pair(members[0].key, Stable(members[0].value, leq))] + Entries(members[1..], leq)
  }

  function JoinEntries(entries: seq<Entry>): Text {
    if entries == [] then [CLOSE_OBJECT]
    else Quoted(entries[0].key) + [COLON] + entries[0].value + (if |entries| == 1 then [] else [COMMA]) + JoinEntries(entries[1..])
  }

  // --- Reading the text back: no two values are written alike ---

  lemma Nibbles(u: Unit)
    ensures u == u / 0x1000 * 0x1000 + u / 0x100 % 16 * 0x100 + u / 16 % 16 * 16 + u % 16
  {
    assert u / 0x100 == u / 16 / 16 && u / 0x1000 == u / 16 / 16 / 16;
  }

  lemma HexDigits(a: int, b: int)
    requires 0 <= a < 16 && 0 <= b < 16 && Hex(a) == Hex(b)
    ensures a == b
  {
  }

  lemma HexInjective(u: Unit, v: Unit)
    requires Escape(u) == Escape(v)
    ensures u == v
  {
    assert Escape(u)[2] == Escape(v)[2] && Escape(u)[3] == Escape(v)[3];
    assert Escape(u)[4] == Escape(v)[4] && Escape(u)[5] == Escape(v)[5];
    HexDigits(u / 0x1000, v / 0x1000);
    HexDigits(u / 0x100 % 16, v / 0x100 % 16);
    HexDigits(u / 16 % 16, v / 16 % 16);
    HexDigits(u % 16, v % 16);
    Nibbles(u);
    Nibbles(v);
  }

  // The first two units of a code tell how long it is and, for a short one, what it means.
  lemma CodeShape(u: Unit, lone: bool)
    ensures Code(u, lone) != [] && Code(u, lone)[0] != QUOTE
    ensures Code(u, lone)[0] != BACKSLASH ==> Code(u, lone) == [u]
    ensures Code(u, lone)[0] == BACKSLASH ==> |Code(u, lone)| >= 2
    ensures Code(u, lone)[0] == BACKSLASH ==>
              if Code(u, lone)[1] == 117 then Code(u, lone) == Escape(u) else |Code(u, lone)| == 2
  {
  }

  lemma ShortCodes(u: Unit, a: bool, v: Unit, b: bool)
    requires |Code(u, a)| == 2 && |Code(v, b)| == 2 && Code(u, a)[1] == Code(v, b)[1]
    ensures u == v
  {
  }

  lemma CodePrefix(u: Unit, a: bool, x: Text, v: Unit, b: bool, y: Text)
    requires Code(u, a) + x == Code(v, b) + y
    ensures u == v && x == y
  {
    var p, q := Code(u, a), Code(v, b);
    CodeShape(u, a);
    CodeShape(v, b);
    assert (p + x)[0] == p[0] && (q + y)[0] == q[0];
    if p[0] == BACKSLASH {
      assert (p + x)[1] == p[1] && (q + y)[1] == q[1];
      if p[1] == 117 {
        assert (p + x)[..6] == p && (q + y)[..6] == q;
        HexInjective(u, v);
      } else {
        ShortCodes(u, a, v, b);
      }
    }
    assert |p| == |q|;
    assert (p + x)[|p|..] == x && (q + y)[|q|..] == y;
  }

  lemma Associative(a: Text, b: Text, c: Text)
    ensures a + b + c == a + (b + c)
  {
  }

  lemma SameHead(a: Text, x: Text, b: Text, y: Text)
    requires a + x == b + y && a != [] && b != []
    ensures a[0] == b[0]
  {
    assert (a + x)[0] == a[0] && (b + y)[0] == b[0];
  }

  lemma BodyHead(s: Text, j: nat)
    requires j <= |s|
    ensures Body(s, j) != [] && (Body(s, j)[0] == QUOTE <==> j == |s|)
  {
    if j < |s| { CodeShape(s[j], Lone(s, j)); }
  }

  lemma {:induction false} BodyPrefix(s: Text, j: nat, x: Text, t: Text, k: nat, y: Text)
    requires j <= |s| && k <= |t| && Body(s, j) + x == Body(t, k) + y
    ensures s[j..] == t[k..] && x == y
    decreases |s| - j
  {
    BodyHead(s, j);
    BodyHead(t, k);
    SameHead(Body(s, j), x, Body(t, k), y);
    if j == |s| {
      assert ([QUOTE] + x)[1..] == x && ([QUOTE] + y)[1..] == y;
    } else {
      Associative(Code(s[j], Lone(s, j)), Body(s, j + 1), x);
      Associative(Code(t[k], Lone(t, k)), Body(t, k + 1), y);
      CodePrefix(s[j], Lone(s, j), Body(s, j + 1) + x, t[k], Lone(t, k), Body(t, k + 1) + y);
      BodyPrefix(s, j + 1, x, t, k + 1, y);
      assert s[j..] == [s[j]] + s[j + 1..] && t[k..] == [t[k]] + t[k + 1..];
    }
  }

  // A quoted string ends where it ends, whatever follows.
  lemma QuotedPrefix(s: Text, x: Text, t: Text, y: Text)
    requires Quoted(s) + x == Quoted(t) + y
    ensures s == t && x == y
  {
    assert (Quoted(s) + x)[1..] == Body(s, 0) + x && (Quoted(t) + y)[1..] == Body(t, 0) + y;
    BodyPrefix(s, 0, x, t, 0, y);
    assert s[0..] == s && t[0..] == t;
  }

  // What can follow a value: nothing, a comma or a closing bracket.
  predicate Delimited(x: Text) {
    x == [] || x[0] == COMMA || x[0] == CLOSE_ARRAY || x[0] == CLOSE_OBJECT
  }

  lemma NumberEnds(a: Text, x: Text, b: Text, y: Text)
    requires (forall k :: 0 <= k < |b| ==> NumberUnit(b[k])) && Delimited(x) && a + x == b + y
    ensures |b| <= |a|
  {
    assert forall k :: 0 <= k < |b| ==> NumberUnit((b + y)[k]);
    assert x != [] ==> (a + x)[|a|] == x[0];
    assert |a + x| == |b + y|;
  }

  lemma NumberPrefix(a: Text, x: Text, b: Text, y: Text)
    requires (forall k :: 0 <= k < |a| ==> NumberUnit(a[k])) && (forall k :: 0 <= k < |b| ==> NumberUnit(b[k]))
    requires Delimited(x) && Delimited(y) && a + x == b + y
    ensures a == b && x == y
  {
    NumberEnds(a, x, b, y);
    NumberEnds(b, y, a, x);
    assert (a + x)[..|a|] == a && (b + y)[..|b|] == b;
    assert (a + x)[|a|..] == x && (b + y)[|b|..] == y;
  }

  // The first unit of a value's text tells its kind.
  function Kind(u: Unit): nat {
    if u == 110 then 0 else if u == 116 then 1 else if u == 102 then 2 else if u == QUOTE then 4
    else if u == OPEN_ARRAY then 5 else if u == OPEN_OBJECT then 6 else 3
  }

  lemma FirstUnit(v: Json, leq: Order)
    requires WellFormed(v)
    ensures Stable(v, leq) != []
    ensures Kind(Stable(v, leq)[0]) == match v
      case Null => 0 case Bool(b) => (if b then 1 else 2) case Num(_) => 3 case Str(_) => 4 case Arr(_) => 5 case Obj(_) => 6
    ensures !Delimited(Stable(v, leq))
  {
  }

  lemma {:induction false} EntriesAppend(members: seq<Member>, m: Member, leq: Order)
    ensures Entries(members + [m], leq) == Entries(members, leq) + [Pair(m.key, Stable(m.value, leq))]
  {
    if members != [] {
      assert (members + [m])[1..] == members[1..] + [m];
      EntriesAppend(members[1..], m, leq);
    }
  }

  lemma {:induction false} EntriesOfInsert(members: seq<Member>, m: Member, leq: Order)
    ensures Entries(Insert(members, m, leq), leq) == Insert(Entries(members, leq), Pair(m.key, Stable(m.value, leq)), leq)
  {
    if members == [] {
      assert Insert(members, m, leq) == [m];
    } else {
      var n := |members| - 1;
      assert members == members[..n] + [members[n]];
      EntriesAppend(members[..n], members[n], leq);
      var e := Entries(members, leq);
      assert e[..|e| - 1] == Entries(members[..n], leq) && e[|e| - 1].key == members[n].key;
      if leq(members[n].key, m.key) {
        EntriesAppend(members, m, leq);
      } else {
        EntriesOfInsert(members[..n], m, leq);
        EntriesAppend(Insert(members[..n], m, leq), members[n], leq);
      }
    }
  }

  lemma {:induction false} EntriesOfSort(members: seq<Member>, leq: Order)
    ensures Entries(Sort(members, leq), leq) == Sort(Entries(members, leq), leq)
  {
    if members != [] {
      var n := |members| - 1;
      assert members == members[..n] + [members[n]];
      EntriesOfSort(members[..n], leq);
      EntriesAppend(members[..n], members[n], leq);
      EntriesOfInsert(Sort(members[..n], leq), members[n], leq);
      var e := Entries(members, leq);
      assert e[..|e| - 1] == Entries(members[..n], leq);
    }
  }

  // The text of a value followed by something that cannot continue it determines both.
  lemma {:induction false} Unambiguous(v: Json, x: Text, w: Json, y: Text, leq: Order)
    requires WellFormed(v) && WellFormed(w) && Delimited(x) && Delimited(y)
    requires Stable(v, leq) + x == Stable(w, leq) + y
    ensures Same(v, w) && x == y
    decreases v, 3
  {
    FirstUnit(v, leq);
    FirstUnit(w, leq);
    SameHead(Stable(v, leq), x, Stable(w, leq), y);
    match v {
      case Num(digits) => NumberPrefix(digits, x, w.digits, y);
      case Str(text) => QuotedPrefix(text, x, w.text, y);
      case Arr(items) =>
        Associative([OPEN_ARRAY], JoinItems(items, leq), x);
        Associative([OPEN_ARRAY], JoinItems(w.items, leq), y);
        SameTail(OPEN_ARRAY, JoinItems(items, leq) + x, JoinItems(w.items, leq) + y);
        UnambiguousItems(items, x, w.items, y, leq);
      case Obj(members) => UnambiguousObject(v, x, w, y, leq);
      case _ =>
        assert Stable(v, leq) == Stable(w, leq);
        Cancel(Stable(v, leq), x, y);
    }
  }

  lemma Cancel(a: Text, x: Text, y: Text)
    requires a + x == a + y
    ensures x == y
  {
    assert (a + x)[|a|..] == x && (a + y)[|a|..] == y;
  }

  lemma {:induction false} UnambiguousObject(v: Json, x: Text, w: Json, y: Text, leq: Order)
    requires v.Obj? && w.Obj? && WellFormed(v) && WellFormed(w) && Delimited(x) && Delimited(y)
    requires Stable(v, leq) + x == Stable(w, leq) + y
    ensures Same(v, w) && x == y
    decreases v, 2
  {
    var a, b := Sort(v.members, leq), Sort(w.members, leq);
    EntriesOfSort(v.members, leq);
    EntriesOfSort(w.members, leq);
    Associative([OPEN_OBJECT], JoinEntries(Entries(a, leq)), x);
    Associative([OPEN_OBJECT], JoinEntries(Entries(b, leq)), y);
    SameTail(OPEN_OBJECT, JoinEntries(Entries(a, leq)) + x, JoinEntries(Entries(b, leq)) + y);
    SortKeeps(v.members, leq);
    SortKeeps(w.members, leq);
    forall m | m in a ensures m in v.members { assert m in multiset(a); }
    forall m | m in b ensures m in w.members { assert m in multiset(b); }
    UnambiguousMembers(v, a, x, w, b, y, leq);
    SameMembers(v.members, a, w.members, b);
  }

  lemma SameTail(u: Unit, a: Text, b: Text)
    requires [u] + a == [u] + b
    ensures a == b
  {
    assert ([u] + a)[1..] == a && ([u] + b)[1..] == b;
  }

  lemma {:induction false} UnambiguousItems(a: seq<Json>, x: Text, b: seq<Json>, y: Text, leq: Order)
    requires (forall k :: 0 <= k < |a| ==> WellFormed(a[k])) && (forall k :: 0 <= k < |b| ==> WellFormed(b[k]))
    requires Delimited(x) && Delimited(y) && JoinItems(a, leq) + x == JoinItems(b, leq) + y
    ensures |a| == |b| && (forall k :: 0 <= k < |a| ==> Same(a[k], b[k])) && x == y
    decreases a
  {
    ItemsHead(a, leq);
    ItemsHead(b, leq);
    SameHead(JoinItems(a, leq), x, JoinItems(b, leq), y);
    if a == [] {
      SameTail(CLOSE_ARRAY, x, y);
    } else {
      var p, q := (if |a| == 1 then [] else [COMMA]), (if |b| == 1 then [] else [COMMA]);
      var c, d := p + (JoinItems(a[1..], leq) + x), q + (JoinItems(b[1..], leq) + y);
      ItemsSplit(a, x, leq);
      ItemsSplit(b, y, leq);
      ItemsHead(a[1..], leq);
      ItemsHead(b[1..], leq);
      assert c[0] == (if |a| == 1 then CLOSE_ARRAY else COMMA) && d[0] == (if |b| == 1 then CLOSE_ARRAY else COMMA);
      Unambiguous(a[0], c, b[0], d, leq);
      assert |a| == 1 <==> |b| == 1;
      if |a| == 1 {
        assert c == JoinItems(a[1..], leq) + x && d == JoinItems(b[1..], leq) + y;
      } else {
        SameTail(COMMA, JoinItems(a[1..], leq) + x, JoinItems(b[1..], leq) + y);
      }
      UnambiguousItems(a[1..], x, b[1..], y, leq);
    }
  }

  lemma ItemsHead(items: seq<Json>, leq: Order)
    requires forall k :: 0 <= k < |items| ==> WellFormed(items[k])
    ensures JoinItems(items, leq) != [] && (JoinItems(items, leq)[0] == CLOSE_ARRAY <==> items == [])
  {
    if items != [] { FirstUnit(items[0], leq); }
  }

  lemma ItemsSplit(items: seq<Json>, x: Text, leq: Order)
    requires items != []
    ensures JoinItems(items, leq) + x
         == Stable(items[0], leq) + ((if |items| == 1 then [] else [COMMA]) + (JoinItems(items[1..], leq) + x))
  {
    var p, r := if |items| == 1 then [] else [COMMA], JoinItems(items[1..], leq);
    Associative(Stable(items[0], leq), p, r);
    Associative(Stable(items[0], leq), p + r, x);
    Associative(p, r, x);
  }

  lemma MembersSplit(members: seq<Member>, x: Text, leq: Order)
    requires members != []
    ensures JoinEntries(Entries(members, leq)) + x
         == Quoted(members[0].key) + ([COLON] + (Stable(members[0].value, leq)
            + ((if |members| == 1 then [] else [COMMA]) + (JoinEntries(Entries(members[1..], leq)) + x))))
  {
    var q, t := Quoted(members[0].key), Stable(members[0].value, leq);
    var p, r := if |members| == 1 then [] else [COMMA], JoinEntries(Entries(members[1..], leq));
    assert Entries(members, leq)[1..] == Entries(members[1..], leq);
    assert JoinEntries(Entries(members, leq)) == q + [COLON] + t + p + r;
    Associative(q + [COLON] + t + p, r, x);
    Associative(q + [COLON] + t, p, r + x);
    Associative(q + [COLON], t, p + (r + x));
    Associative(q, [COLON], t + (p + (r + x)));
  }

  lemma ConsAgrees(a: seq<Member>, b: seq<Member>)
    requires a != [] && b != [] && a[0].key == b[0].key && Same(a[0].value, b[0].value) && |a[1..]| == |b[1..]|
    requires forall k :: 0 <= k < |a[1..]| ==> a[1..][k].key == b[1..][k].key && Same(a[1..][k].value, b[1..][k].value)
    ensures forall k :: 0 <= k < |a| ==> a[k].key == b[k].key && Same(a[k].value, b[k].value)
  {
    forall k | 0 <= k < |a| ensures a[k].key == b[k].key && Same(a[k].value, b[k].value) {
      if k > 0 { assert a[1..][k - 1] == a[k] && b[1..][k - 1] == b[k]; }
    }
  }

  lemma {:induction false} UnambiguousMembers(v: Json, a: seq<Member>, x: Text, w: Json, b: seq<Member>, y: Text, leq: Order)
    requires v.Obj? && w.Obj? && WellFormed(v) && WellFormed(w)
    requires (forall m :: m in a ==> m in v.members) && (forall m :: m in b ==> m in w.members)
    requires Delimited(x) && Delimited(y)
    requires JoinEntries(Entries(a, leq)) + x == JoinEntries(Entries(b, leq)) + y
    ensures |a| == |b| && x == y
    ensures forall k :: 0 <= k < |a| ==> a[k].key == b[k].key && Same(a[k].value, b[k].value)
    decreases v, 1, |a|
  {
    MembersHead(a, leq);
    MembersHead(b, leq);
    SameHead(JoinEntries(Entries(a, leq)), x, JoinEntries(Entries(b, leq)), y);
    if a == [] {
      SameTail(CLOSE_OBJECT, x, y);
    } else {
      var p, q := (if |a| == 1 then [] else [COMMA]), (if |b| == 1 then [] else [COMMA]);
      var c, d := p + (JoinEntries(Entries(a[1..], leq)) + x), q + (JoinEntries(Entries(b[1..], leq)) + y);
      MembersSplit(a, x, leq);
      MembersSplit(b, y, leq);
      QuotedPrefix(a[0].key, [COLON] + (Stable(a[0].value, leq) + c), b[0].key, [COLON] + (Stable(b[0].value, leq) + d));
      SameTail(COLON, Stable(a[0].value, leq) + c, Stable(b[0].value, leq) + d);
      MembersHead(a[1..], leq);
      MembersHead(b[1..], leq);
      assert c[0] == (if |a| == 1 then CLOSE_OBJECT else COMMA) && d[0] == (if |b| == 1 then CLOSE_OBJECT else COMMA);
      assert a[0] in v.members && b[0] in w.members;
      Unambiguous(a[0].value, c, b[0].value, d, leq);
      if |a| == 1 {
        assert c == JoinEntries(Entries(a[1..], leq)) + x && d == JoinEntries(Entries(b[1..], leq)) + y;
      } else {
        SameTail(COMMA, JoinEntries(Entries(a[1..], leq)) + x, JoinEntries(Entries(b[1..], leq)) + y);
      }
      UnambiguousMembers(v, a[1..], x, w, b[1..], y, leq);
      ConsAgrees(a, b);
    }
  }

  lemma MembersHead(members: seq<Member>, leq: Order)
    ensures JoinEntries(Entries(members, leq)) != []
    ensures JoinEntries(Entries(members, leq))[0] == if members == [] then CLOSE_OBJECT else QUOTE
  {
  }

  // Sorted copies that agree member by member mean equal maps.
  lemma SameMembers(members: seq<Member>, a: seq<Member>, others: seq<Member>, b: seq<Member>)
    requires multiset(a) == multiset(members) && multiset(b) == multiset(others) && |a| == |b|
    requires forall k :: 0 <= k < |a| ==> a[k].key == b[k].key && Same(a[k].value, b[k].value)
    ensures Same(Obj(members), Obj(others))
  {
    assert |multiset(a)| == |multiset(members)| && |multiset(b)| == |multiset(others)|;
    forall j | 0 <= j < |members| ensures HasSame(others, members[j]) {
      assert members[j] in multiset(a);
      var i :| 0 <= i < |a| && a[i] == members[j];
      assert b[i] in multiset(others);
      var k :| 0 <= k < |others| && others[k] == b[i];
    }
  }

  // Injectivity: equal canonical texts mean equal values, whatever the comparison does.
  lemma EqualTextsMeanEqualValues(v: Json, w: Json, leq: Order)
    requires WellFormed(v) && WellFormed(w) && Stable(v, leq) == Stable(w, leq)
    ensures Same(v, w)
  {
    assert Stable(v, leq) + [] == Stable(w, leq) + [];
    Unambiguous(v, [], w, [], leq);
  }

  // --- Key order: equal values are written alike if the comparison tells keys apart ---

  // No object in v has two keys that the comparison considers equal.
  ghost predicate Separated(v: Json, leq: Order) {
    match v
    case Arr(items) => forall k :: 0 <= k < |items| ==> Separated(items[k], leq)
    case Obj(members) =>
      && (forall j, k :: 0 <= j < k < |members| ==> !Tied(members[j].key, members[k].key, leq))
      && (forall k :: 0 <= k < |members| ==> Separated(members[k].value, leq))
    case _ => true
  }

  ghost predicate TellsApart(bag: multiset<Entry>, leq: Order) {
    forall x, y :: x in bag && y in bag && Tied(x.key, y.key, leq) ==> x == y
  }

  lemma LastIsGreatest(a: seq<Entry>, x: Entry, leq: Order)
    requires a != [] && Sorted(a, leq) && TotalPreorder(leq) && x in multiset(a)
    ensures leq(x.key, a[|a| - 1].key)
  {
    var k :| 0 <= k < |a| && a[k] == x;
  }

  lemma LastIsUnique(a: seq<Entry>, b: seq<Entry>, leq: Order)
    requires TotalPreorder(leq) && Sorted(a, leq) && Sorted(b, leq) && multiset(a) == multiset(b)
    requires a != [] && b != [] && TellsApart(multiset(a), leq)
    ensures a[|a| - 1] == b[|b| - 1]
  {
    var x, y := a[|a| - 1], b[|b| - 1];
    assert x in multiset(b) && y in multiset(a);
    LastIsGreatest(a, y, leq);
    LastIsGreatest(b, x, leq);
    assert Tied(x.key, y.key, leq);
  }

  lemma WithoutLast(a: seq<Entry>, leq: Order)
    requires a != [] && Sorted(a, leq) && TellsApart(multiset(a), leq)
    ensures var n := |a| - 1; multiset(a[..n]) == multiset(a) - multiset{a[n]}
    ensures var n := |a| - 1; a == a[..n] + [a[n]] && Sorted(a[..n], leq) && TellsApart(multiset(a[..n]), leq)
  {
    var n := |a| - 1;
    assert a == a[..n] + [a[n]];
    forall x | x in multiset(a[..n]) ensures x in multiset(a) {}
  }

  // A sorted arrangement is unique when no two of its entries tie.
  lemma {:induction false} SortedIsUnique(a: seq<Entry>, b: seq<Entry>, leq: Order)
    requires TotalPreorder(leq) && Sorted(a, leq) && Sorted(b, leq) && multiset(a) == multiset(b)
    requires TellsApart(multiset(a), leq)
    ensures a == b
  {
    assert |multiset(a)| == |a| && |multiset(b)| == |b|;
    if a != [] {
      LastIsUnique(a, b, leq);
      WithoutLast(a, leq);
      WithoutLast(b, leq);
      SortedIsUnique(a[..|a| - 1], b[..|b| - 1], leq);
    }
  }

  lemma {:induction false} EntryAt(members: seq<Member>, leq: Order, k: nat)
    requires k < |members|
    ensures Entries(members, leq)[k] == Pair(members[k].key, Stable(members[k].value, leq))
  {
    if k > 0 { EntryAt(members[1..], leq, k - 1); }
  }

  lemma {:induction false} EntriesDistinct(entries: seq<Entry>)
    requires forall j, k :: 0 <= j < k < |entries| ==> entries[j].key != entries[k].key
    ensures forall e :: multiset(entries)[e] <= 1
  {
    if entries != [] {
      var n := |entries| - 1;
      assert entries == entries[..n] + [entries[n]];
      EntriesDistinct(entries[..n]);
      assert entries[n] !in entries[..n];
    }
  }

  lemma SubsetOfEqualSize(a: multiset<Entry>, b: multiset<Entry>)
    requires a <= b && |a| == |b|
    ensures a == b
  {
    assert b == a + (b - a);
  }

  ghost predicate HasText(members: seq<Member>, m: Member, leq: Order) {
    exists k :: 0 <= k < |members| && members[k].key == m.key && Stable(members[k].value, leq) == Stable(m.value, leq)
  }

  ghost predicate EqualMembers(a: seq<Member>, b: seq<Member>, leq: Order) {
    forall j :: 0 <= j < |a| ==> HasText(b, a[j], leq)
  }

  lemma {:induction false} EntriesAgree(v: Json, w: Json, leq: Order)
    requires v.Obj? && w.Obj? && WellFormed(v) && WellFormed(w) && Same(v, w)
    requires EqualMembers(v.members, w.members, leq)
    ensures multiset(Entries(v.members, leq)) == multiset(Entries(w.members, leq))
  {
    var a, b := Entries(v.members, leq), Entries(w.members, leq);
    forall k | 0 <= k < |a| ensures a[k] == Pair(v.members[k].key, Stable(v.members[k].value, leq)) { EntryAt(v.members, leq, k); }
    forall k | 0 <= k < |b| ensures b[k] == Pair(w.members[k].key, Stable(w.members[k].value, leq)) { EntryAt(w.members, leq, k); }
    EntriesDistinct(a);
    forall e | e in multiset(a) ensures e in multiset(b) {
      var j :| 0 <= j < |a| && a[j] == e;
      assert HasText(w.members, v.members[j], leq);
      var k :| 0 <= k < |w.members| && w.members[k].key == v.members[j].key
               && Stable(w.members[k].value, leq) == Stable(v.members[j].value, leq);
      assert b[k] == e;
    }
    assert multiset(a) <= multiset(b);
    SubsetOfEqualSize(multiset(a), multiset(b));
  }

  lemma {:induction false} EqualValuesHaveEqualTexts(v: Json, w: Json, leq: Order)
    requires TotalPreorder(leq) && WellFormed(v) && WellFormed(w) && Separated(v, leq) && Same(v, w)
    ensures Stable(v, leq) == Stable(w, leq)
    decreases v
  {
    match v {
      case Arr(items) => EqualItems(items, w.items, leq);
      case Obj(members) =>
        forall j | 0 <= j < |members| ensures HasText(w.members, members[j], leq) {
          assert HasSame(w.members, members[j]);
          var k :| 0 <= k < |w.members| && w.members[k].key == members[j].key && Same(members[j].value, w.members[k].value);
          EqualValuesHaveEqualTexts(members[j].value, w.members[k].value, leq);
        }
        assert EqualMembers(v.members, w.members, leq);
        EntriesAgree(v, w, leq);
        EntriesToldApart(members, leq);
        SortSorts(Entries(members, leq), leq);
        SortSorts(Entries(w.members, leq), leq);
        SortKeeps(Entries(members, leq), leq);
        SortKeeps(Entries(w.members, leq), leq);
        SortedIsUnique(Sort(Entries(members, leq), leq), Sort(Entries(w.members, leq), leq), leq);
      case _ =>
    }
  }

  lemma EntriesToldApart(members: seq<Member>, leq: Order)
    requires forall j, k :: 0 <= j < k < |members| ==> !Tied(members[j].key, members[k].key, leq)
    ensures TellsApart(multiset(Entries(members, leq)), leq)
  {
    var e := Entries(members, leq);
    forall k | 0 <= k < |e| ensures e[k].key == members[k].key { EntryAt(members, leq, k); }
    forall x, y | x in multiset(e) && y in multiset(e) && Tied(x.key, y.key, leq) ensures x == y {
      if x != y { DifferentPositions(e, x, y, leq); }
    }
  }

  lemma DifferentPositions(e: seq<Entry>, x: Entry, y: Entry, leq: Order)
    requires forall j, k :: 0 <= j < k < |e| ==> !Tied(e[j].key, e[k].key, leq)
    requires x in multiset(e) && y in multiset(e) && x != y
    ensures !Tied(x.key, y.key, leq)
  {
    var j :| 0 <= j < |e| && e[j] == x;
    var k :| 0 <= k < |e| && e[k] == y;
    assert j < k || k < j;
  }

  lemma {:induction false} EqualItems(a: seq<Json>, b: seq<Json>, leq: Order)
    requires TotalPreorder(leq) && |a| == |b|
    requires forall k :: 0 <= k < |a| ==> WellFormed(a[k]) && WellFormed(b[k]) && Separated(a[k], leq) && Same(a[k], b[k])
    ensures JoinItems(a, leq) == JoinItems(b, leq)
    decreases a
  {
    if a != [] {
      EqualValuesHaveEqualTexts(a[0], b[0], leq);
      EqualItems(a[1..], b[1..], leq);
    }
  }

  // The canonical text identifies a value exactly, with objects read as maps.
  lemma TextIdentifiesValue(v: Json, w: Json, leq: Order)
    requires TotalPreorder(leq) && WellFormed(v) && WellFormed(w) && Separated(v, leq)
    ensures Stable(v, leq) == Stable(w, leq) <==> Same(v, w)
  {
    if Stable(v, leq) == Stable(w, leq) { EqualTextsMeanEqualValues(v, w, leq); }
    if Same(v, w) { EqualValuesHaveEqualTexts(v, w, leq); }
  }

  // Requests are identified by a hash of the text; with a hash that does not collide, two
  // requests with the same one carry the same arguments, in whatever order.
  lemma HashIdentifiesRequest(v: Json, w: Json, leq: Order, hash: Text -> Text)
    requires TotalPreorder(leq) && WellFormed(v) && WellFormed(w) && Separated(v, leq)
    requires forall s, t :: hash(s) == hash(t) ==> s == t
    ensures hash(Stable(v, leq)) == hash(Stable(w, leq)) <==> Same(v, w)
  {
    TextIdentifiesValue(v, w, leq);
  }

  // Independence of the key order holds for all values if and only if the comparison never
  // calls two different keys equal.
  lemma KeyOrderIndependentIff(leq: Order)
    requires TotalPreorder(leq)
    ensures (forall a, b :: Tied(a, b, leq) ==> a == b)
            <==> (forall v, w :: WellFormed(v) && WellFormed(w) && Same(v, w) ==> Stable(v, leq) == Stable(w, leq))
  {
    if forall a, b :: Tied(a, b, leq) ==> a == b {
      forall v, w | WellFormed(v) && WellFormed(w) && Same(v, w) ensures Stable(v, leq) == Stable(w, leq) {
        DistinctIsSeparated(v, leq);
        EqualValuesHaveEqualTexts(v, w, leq);
      }
    } else {
      var a, b :| Tied(a, b, leq) && a != b;
      TiedKeysKeepTheirOrder(a, b, leq);
    }
  }

  lemma {:induction false} DistinctIsSeparated(v: Json, leq: Order)
    requires WellFormed(v) && forall a, b :: Tied(a, b, leq) ==> a == b
    ensures Separated(v, leq)
    decreases v
  {
    match v {
      case Arr(items) => forall k | 0 <= k < |items| ensures Separated(items[k], leq) { DistinctIsSeparated(items[k], leq); }
      case Obj(members) =>
        forall k | 0 <= k < |members| ensures Separated(members[k].value, leq) { DistinctIsSeparated(members[k].value, leq); }
      case _ =>
    }
  }

  function TwoNulls(a: Text, b: Text): Json {
    Obj([Pair(a, Null), Pair(b, Null)])
  }

  // Two tied keys stay in the order in which the object was built, and show it.
  lemma TiedKeysKeepTheirOrder(a: Text, b: Text, leq: Order)
    requires Tied(a, b, leq) && a != b
    ensures WellFormed(TwoNulls(a, b)) && WellFormed(TwoNulls(b, a)) && Same(TwoNulls(a, b), TwoNulls(b, a))
    ensures Stable(TwoNulls(a, b), leq) != Stable(TwoNulls(b, a), leq)
  {
    var v, w := TwoNulls(a, b), TwoNulls(b, a);
    assert w.members[1].key == v.members[0].key && w.members[0].key == v.members[1].key;
    if Stable(v, leq) == Stable(w, leq) {
      var x := TextAfterKey(a, b, leq);
      var y := TextAfterKey(b, a, leq);
      SameTail(OPEN_OBJECT, Quoted(a) + x, Quoted(b) + y);
      QuotedPrefix(a, x, b, y);
    }
  }

  lemma TextAfterKey(a: Text, b: Text, leq: Order) returns (rest: Text)
    requires leq(a, b)
    ensures Stable(TwoNulls(a, b), leq) == [OPEN_OBJECT] + (Quoted(a) + rest)
  {
    var t := Stable(Null, leq);
    EntriesOfTwo(a, b, leq);
    SortedStays([Pair(a, t), Pair(b, t)], leq);
    rest := JoinTwo(Pair(a, t), Pair(b, t));
  }

  lemma EntriesOfTwo(a: Text, b: Text, leq: Order)
    ensures Entries([Pair(a, Null), Pair(b, Null)], leq) == [Pair(a, Stable(Null, leq)), Pair(b, Stable(Null, leq))]
  {
    assert [Pair(a, Null), Pair(b, Null)][1..] == [Pair(b, Null)];
  }

  lemma JoinTwo(e: Entry, f: Entry) returns (rest: Text)
    ensures JoinEntries([e, f]) == Quoted(e.key) + rest
  {
    var tail := [COMMA] + JoinEntries([f]);
    rest := [COLON] + (e.value + tail);
    assert [e, f][1..] == [f];
    Associative(Quoted(e.key), [COLON], e.value + tail);
    Associative(Quoted(e.key) + [COLON], e.value, tail);
    Associative(Quoted(e.key) + [COLON] + e.value, [COMMA], JoinEntries([f]));
  }
}
