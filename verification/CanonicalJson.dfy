/**
 The canonical text of a JSON value, which the demo journal compares instead of values: it is the same
 for two values exactly if they are the same up to the order of object members, at any depth. Strings
 and numbers are encoded as in sections 7 and 6 of RFC 8259.
 */
module CanonicalJson {
  type Unit = u: nat | u < 0x1_0000  // one UTF-16 code unit
  type Text = seq<Unit>

  const QUOTE: Unit := 34
  const BACKSLASH: Unit := 92
  const COMMA: Unit := 44
  const COLON: Unit := 58
  const OPEN_ARRAY: Unit := 91
  const CLOSE_ARRAY: Unit := 93
  const OPEN_OBJECT: Unit := 123
  const CLOSE_OBJECT: Unit := 125

  datatype Member = Member(key: Text, value: Json)
  datatype Json =
    | Null
    | Bool(value: bool)
    | Number(literal: Text)  // the shortest literal of the number, which is its own
    | String(text: Text)
    | Array(items: seq<Json>)
    | Object(members: seq<Member>)

  predicate NumberUnit(u: Unit) {
    48 <= u <= 57 || u == 43 || u == 45 || u == 46 || u == 69 || u == 101
  }

  predicate DistinctKeys(ms: seq<Member>) {
    forall i, j :: 0 <= i < j < |ms| ==> ms[i].key != ms[j].key
  }

  predicate Valid(a: Json) {
    match a
    case Number(literal) => literal != [] && forall i :: 0 <= i < |literal| ==> NumberUnit(literal[i])
    case Array(items) => forall i :: 0 <= i < |items| ==> Valid(items[i])
    case Object(members) => DistinctKeys(members) && forall i :: 0 <= i < |members| ==> Valid(members[i].value)
    case _ => true
  }

  /** Some member has the key, and the same value. */
  ghost predicate HasMember(ms: seq<Member>, m: Member)
    decreases m, 0
  {
    exists j :: 0 <= j < |ms| && ms[j].key == m.key && Same(m.value, ms[j].value)
  }

  ghost predicate HasKey(ms: seq<Member>, key: Text) {
    exists i :: 0 <= i < |ms| && ms[i].key == key
  }

  /** The same value, up to the order of members. */
  ghost predicate Same(a: Json, b: Json)
    decreases a, 1
  {
    match a
    case Array(items) => b.Array? && |items| == |b.items| && forall i :: 0 <= i < |items| ==> Same(items[i], b.items[i])
    case Object(members) =>
      && b.Object?
      && (forall i :: 0 <= i < |members| ==> HasMember(b.members, members[i]))
      && (forall j :: 0 <= j < |b.members| ==> HasKey(members, b.members[j].key))
    case _ => a == b
  }

  // ----- Strings

  function HexDigit(d: nat): Unit
    requires d < 16
  {
    if d < 10 then 48 + d else 87 + d
  }

  function HexValue(u: Unit): nat {
    if 48 <= u <= 57 then u - 48 else if 97 <= u <= 102 then u - 87 else 0
  }

  predicate Surrogate(u: Unit) {
    0xD800 <= u <= 0xDFFF
  }

  function Short(u: Unit): Unit {
    if u == 8 then 98 else if u == 9 then 116 else if u == 10 then 110 else if u == 12 then 102
    else if u == 13 then 114 else u
  }

  /** One unit inside quotes. A surrogate without its other half is escaped. */
  function Escape(u: Unit, lone: bool): Text {
    if u == QUOTE || u == BACKSLASH || u == 8 || u == 9 || u == 10 || u == 12 || u == 13 then [BACKSLASH, Short(u)]
    else if u < 32 || (Surrogate(u) && lone) then
      [BACKSLASH, 117, HexDigit(u / 4096), HexDigit(u / 256 % 16), HexDigit(u / 16 % 16), HexDigit(u % 16)]
    else [u]
  }

  predicate Lone(s: Text, i: nat)
    requires i < |s|
  {
    if 0xD800 <= s[i] <= 0xDBFF then !(i + 1 < |s| && 0xDC00 <= s[i + 1] <= 0xDFFF)
    else !(i > 0 && 0xD800 <= s[i - 1] <= 0xDBFF)
  }

  function Escapes(s: Text, i: nat): Text
    requires i <= |s|
    decreases |s| - i
  {
    if i == |s| then [QUOTE] else Escape(s[i], Lone(s, i)) + Escapes(s, i + 1)
  }

  function Quoted(s: Text): Text {
    [QUOTE] + Escapes(s, 0)
  }

  /** Read one unit back, and what follows it. */
  function Unescape(t: Text): (Unit, Text)
    requires t != []
  {
    if t[0] != BACKSLASH then (t[0], t[1..])
    else if |t| < 2 then (0, [])
    else if t[1] == 117 then
      if |t| < 6 then (0, [])
      else
        var v := HexValue(t[2]) * 4096 + HexValue(t[3]) * 256 + HexValue(t[4]) * 16 + HexValue(t[5]);
        (if v < 0x1_0000 then v else 0, t[6..])
    else
      (if t[1] == 98 then 8 else if t[1] == 116 then 9 else if t[1] == 110 then 10 else if t[1] == 102 then 12
       else if t[1] == 114 then 13 else t[1], t[2..])
  }

  lemma HexRoundTrip(u: Unit)
    ensures u / 4096 < 16
    ensures HexValue(HexDigit(u / 4096)) * 4096 + HexValue(HexDigit(u / 256 % 16)) * 256
            + HexValue(HexDigit(u / 16 % 16)) * 16 + HexValue(HexDigit(u % 16)) == u
  {
    var a, b, c := u / 4096, u / 256, u / 16;
    assert b / 16 == a && c / 16 == b;
    assert u == c * 16 + u % 16 && c == b * 16 + c % 16 && b == a * 16 + b % 16;
  }

  lemma EscapeReads(u: Unit, lone: bool, rest: Text)
    ensures var t := Escape(u, lone) + rest; t != [] && t[0] != QUOTE && Unescape(t) == (u, rest)
  {
    HexRoundTrip(u);
    var t := Escape(u, lone) + rest;
    assert t[|Escape(u, lone)|..] == rest;
  }

  /** A quoted string ends where it ends, and is read back. */
  lemma {:induction false} EscapesApart(s: Text, i: nat, x: Text, t: Text, j: nat, y: Text)
    requires i <= |s| && j <= |t| && Escapes(s, i) + x == Escapes(t, j) + y
    ensures s[i..] == t[j..] && x == y
    decreases |s| - i
  {
    hide Escape, Unescape, Lone;
    var left, right := Escapes(s, i) + x, Escapes(t, j) + y;
    if i < |s| {
      EscapeReads(s[i], Lone(s, i), Escapes(s, i + 1) + x);
      assert left == Escape(s[i], Lone(s, i)) + (Escapes(s, i + 1) + x);
    } else {
      assert left == [QUOTE] + x && left[1..] == x;
    }
    if j < |t| {
      EscapeReads(t[j], Lone(t, j), Escapes(t, j + 1) + y);
      assert right == Escape(t[j], Lone(t, j)) + (Escapes(t, j + 1) + y);
    } else {
      assert right == [QUOTE] + y && right[1..] == y;
    }
    if i < |s| && j < |t| {
      EscapesApart(s, i + 1, x, t, j + 1, y);
      assert s[i..] == [s[i]] + s[i + 1..] && t[j..] == [t[j]] + t[j + 1..];
    }
  }

  lemma QuotedApart(s: Text, x: Text, t: Text, y: Text)
    requires Quoted(s) + x == Quoted(t) + y
    ensures s == t && x == y
  {
    assert (Quoted(s) + x)[1..] == Escapes(s, 0) + x;
    assert (Quoted(t) + y)[1..] == Escapes(t, 0) + y;
    EscapesApart(s, 0, x, t, 0, y);
  }

  // ----- Sorted members

  /** By UTF-16 code units, a prefix first. */
  predicate Less(a: Text, b: Text) {
    b != [] && (a == [] || a[0] < b[0] || (a[0] == b[0] && Less(a[1..], b[1..])))
  }

  lemma {:induction false} Trichotomy(a: Text, b: Text)
    ensures Less(a, b) || a == b || Less(b, a)
    ensures !(Less(a, b) && Less(b, a)) && !(a == b && Less(a, b))
  {
    if a != [] && b != [] {
      Trichotomy(a[1..], b[1..]);
      assert a == [a[0]] + a[1..] && b == [b[0]] + b[1..];
    }
  }

  lemma {:induction false} Transitive(a: Text, b: Text, c: Text)
    requires Less(a, b) && Less(b, c)
    ensures Less(a, c)
  {
    if a != [] && a[0] == b[0] && b[0] == c[0] { Transitive(a[1..], b[1..], c[1..]); }
  }

  function Insert(m: Member, ms: seq<Member>): seq<Member> {
    if ms == [] || Less(m.key, ms[0].key) then [m] + ms else [ms[0]] + Insert(m, ms[1..])
  }

  function Sorted(ms: seq<Member>): seq<Member> {
    if ms == [] then [] else Insert(ms[0], Sorted(ms[1..]))
  }

  ghost predicate Increasing(ms: seq<Member>) {
    forall i, j :: 0 <= i < j < |ms| ==> Less(ms[i].key, ms[j].key)
  }

  lemma {:induction false} InsertSorts(m: Member, ms: seq<Member>)
    requires Increasing(ms) && forall i :: 0 <= i < |ms| ==> ms[i].key != m.key
    ensures Increasing(Insert(m, ms)) && |Insert(m, ms)| == |ms| + 1
    ensures forall x :: x in Insert(m, ms) <==> x == m || x in ms
  {
    hide Less;
    if ms == [] {
    } else if Less(m.key, ms[0].key) {
      forall j | 0 <= j < |ms| ensures Less(m.key, ms[j].key) {
        if j > 0 { Transitive(m.key, ms[0].key, ms[j].key); }
      }
    } else {
      Trichotomy(m.key, ms[0].key);
      InsertSorts(m, ms[1..]);
      var rest := Insert(m, ms[1..]);
      forall j | 0 <= j < |rest| ensures Less(ms[0].key, rest[j].key) {
        assert rest[j] in rest;
        if rest[j] != m {
          var k :| 0 <= k < |ms[1..]| && ms[1..][k] == rest[j];
          assert ms[k + 1] == rest[j];
        }
      }
      assert ms == [ms[0]] + ms[1..];
    }
  }

  lemma {:induction false} SortedSorts(ms: seq<Member>)
    requires DistinctKeys(ms)
    ensures Increasing(Sorted(ms)) && |Sorted(ms)| == |ms|
    ensures forall x :: x in Sorted(ms) <==> x in ms
  {
    if ms != [] {
      SortedSorts(ms[1..]);
      var rest := Sorted(ms[1..]);
      forall i | 0 <= i < |rest| ensures rest[i].key != ms[0].key {
        assert rest[i] in ms[1..];
      }
      InsertSorts(ms[0], rest);
      assert ms == [ms[0]] + ms[1..];
    }
  }

  // ----- Canonical text

  function Size(a: Json): nat {
    match a
    case Array(items) => 1 + ItemsSize(items)
    case Object(members) => 1 + MembersSize(members)
    case _ => 1
  }

  function ItemsSize(items: seq<Json>): nat {
    if items == [] then 0 else Size(items[0]) + ItemsSize(items[1..])
  }

  function MembersSize(ms: seq<Member>): nat {
    if ms == [] then 0 else Size(ms[0].value) + MembersSize(ms[1..])
  }

  lemma {:induction false} ItemSize(items: seq<Json>, i: nat)
    requires i < |items|
    ensures Size(items[i]) <= ItemsSize(items)
  {
    if i > 0 { ItemSize(items[1..], i - 1); }
  }

  lemma {:induction false} MemberSize(ms: seq<Member>, m: Member)
    requires m in ms
    ensures Size(m.value) <= MembersSize(ms)
  {
    if m != ms[0] { MemberSize(ms[1..], m); }
  }

  lemma {:induction false} InInsert(m: Member, ms: seq<Member>, x: Member)
    ensures x in Insert(m, ms) <==> x == m || x in ms
  {
    if ms != [] && !Less(m.key, ms[0].key) {
      InInsert(m, ms[1..], x);
      assert ms == [ms[0]] + ms[1..];
    }
  }

  lemma {:induction false} InSorted(ms: seq<Member>, x: Member)
    ensures x in Sorted(ms) <==> x in ms
  {
    if ms != [] {
      InSorted(ms[1..], x);
      InInsert(ms[0], Sorted(ms[1..]), x);
      assert ms == [ms[0]] + ms[1..];
    }
  }

  lemma Smaller(a: Json)
    ensures a.Array? ==> forall x :: x in a.items ==> Size(x) < Size(a)
    ensures a.Object? ==> forall m :: m in Sorted(a.members) ==> Size(m.value) < Size(a)
  {
    if a.Array? {
      forall x | x in a.items ensures Size(x) < Size(a) {
        var i :| 0 <= i < |a.items| && a.items[i] == x;
        ItemSize(a.items, i);
      }
    }
    if a.Object? {
      forall m | m in Sorted(a.members) ensures Size(m.value) < Size(a) {
        InSorted(a.members, m);
        MemberSize(a.members, m);
      }
    }
  }

  function Canonical(a: Json): Text
    decreases Size(a), 1, 0
  {
    match a
    case Null => [110, 117, 108, 108]
    case Bool(value) => if value then [116, 114, 117, 101] else [102, 97, 108, 115, 101]
    case Number(literal) => literal
    case String(text) => Quoted(text)
    case Array(items) =>
      Smaller(a);
      [OPEN_ARRAY] + if items == [] then [CLOSE_ARRAY] else Canonical(items[0]) + Items(items[1..], Size(a))
    case Object(members) =>
      Smaller(a);
      var ms := Sorted(members);
      [OPEN_OBJECT] + if ms == [] then [CLOSE_OBJECT]
                      else Quoted(ms[0].key) + [COLON] + Canonical(ms[0].value) + Members(ms[1..], Size(a))
  }

  /** The items after the first. */
  function Items(items: seq<Json>, bound: nat): Text
    requires forall x :: x in items ==> Size(x) < bound
    decreases bound, 0, |items|
  {
    if items == [] then [CLOSE_ARRAY] else [COMMA] + Canonical(items[0]) + Items(items[1..], bound)
  }

  /** The members after the first. */
  function Members(ms: seq<Member>, bound: nat): Text
    requires forall m :: m in ms ==> Size(m.value) < bound
    decreases bound, 0, |ms|
  {
    if ms == [] then [CLOSE_OBJECT]
    else [COMMA] + (Quoted(ms[0].key) + [COLON] + Canonical(ms[0].value)) + Members(ms[1..], bound)
  }

  /** What may follow a value. */
  predicate Follows(x: Text) {
    x != [] ==> x[0] == COMMA || x[0] == CLOSE_ARRAY || x[0] == CLOSE_OBJECT
  }

  /** The first unit tells the kind of a value. */
  lemma Starts(a: Json)
    requires Valid(a)
    ensures
      var t := Canonical(a);
      && t != [] && t[0] != CLOSE_ARRAY && t[0] != CLOSE_OBJECT
      && (a.Null? <==> t[0] == 110) && (a == Bool(true) <==> t[0] == 116) && (a == Bool(false) <==> t[0] == 102)
      && (a.Number? <==> NumberUnit(t[0])) && (a.String? <==> t[0] == QUOTE)
      && (a.Array? <==> t[0] == OPEN_ARRAY) && (a.Object? <==> t[0] == OPEN_OBJECT)
  {
    hide Escapes, Items, Members;
  }

  lemma {:induction false} NumbersApart(a: Text, x: Text, b: Text, y: Text)
    requires forall i :: 0 <= i < |a| ==> NumberUnit(a[i])
    requires forall i :: 0 <= i < |b| ==> NumberUnit(b[i])
    requires Follows(x) && Follows(y) && a + x == b + y
    ensures a == b && x == y
  {
    assert a != [] ==> (a + x)[0] == a[0] && (a + x)[1..] == a[1..] + x;
    assert b != [] ==> (b + y)[0] == b[0] && (b + y)[1..] == b[1..] + y;
    assert a == [] ==> a + x == x;
    assert b == [] ==> b + y == y;
    if a != [] {
      assert b != [];
      NumbersApart(a[1..], x, b[1..], y);
      assert a == [a[0]] + a[1..] && b == [b[0]] + b[1..];
    }
  }

  lemma {:induction false} Apart(a: Json, x: Text, b: Json, y: Text)
    requires Valid(a) && Valid(b) && Follows(x) && Follows(y) && Canonical(a) + x == Canonical(b) + y
    ensures Same(a, b) && x == y
    decreases Size(a), 1, 0
  {
    hide Quoted, NumberUnit, Less, Follows, Canonical, Same;
    Starts(a);
    Starts(b);
    assert (Canonical(a) + x)[0] == Canonical(a)[0] && (Canonical(b) + y)[0] == Canonical(b)[0];
    match a
    case Number(literal) => LeafIs(a); LeafIs(b); NumbersApart(literal, x, b.literal, y); LeafSame(a, b);
    case String(text) => LeafIs(a); LeafIs(b); QuotedApart(text, x, b.text, y); LeafSame(a, b);
    case Array(items) => ArraysApart(a, x, b, y);
    case Object(members) => ObjectsApart(a, x, b, y);
    case _ =>
      assert a == b;
      assert (Canonical(a) + x)[|Canonical(a)|..] == x && (Canonical(b) + y)[|Canonical(a)|..] == y;
      LeafSame(a, b);
  }

  lemma LeafIs(a: Json)
    ensures a.Number? ==> Canonical(a) == a.literal
    ensures a.String? ==> Canonical(a) == Quoted(a.text)
  {
  }

  lemma LeafSame(a: Json, b: Json)
    requires !a.Array? && !a.Object?
    ensures Same(a, b) <==> a == b
  {
  }

  lemma {:induction false} ArraysApart(a: Json, x: Text, b: Json, y: Text)
    requires Valid(a) && Valid(b) && a.Array? && b.Array? && Follows(x) && Follows(y) && Canonical(a) + x == Canonical(b) + y
    ensures Same(a, b) && x == y
    decreases Size(a), 0, |a.items| + 1
  {
    hide Canonical, Items, Follows;
    var u := ArrayRest(a, x);
    var v := ArrayRest(b, y);
    assert ([OPEN_ARRAY] + u)[1..] == u && ([OPEN_ARRAY] + v)[1..] == v;
    ItemsApart(a.items, Size(a), x, b.items, Size(b), y);
  }

  /** What follows the bracket: the items, each after a comma, less the first comma. */
  lemma ArrayRest(a: Json, x: Text) returns (u: Text)
    requires Valid(a) && a.Array?
    ensures forall t :: t in a.items ==> Size(t) < Size(a)
    ensures Canonical(a) + x == [OPEN_ARRAY] + u
    ensures Items(a.items, Size(a)) + x == if a.items == [] then u else [COMMA] + u
    ensures u != [] && (a.items == [] <==> u[0] == CLOSE_ARRAY)
  {
    hide Valid;
    Smaller(a);
    if a.items == [] {
      u := [CLOSE_ARRAY] + x;
    } else {
      assert Valid(a.items[0]) by { ItemValid(a, 0); }
      Starts(a.items[0]);
      u := Canonical(a.items[0]) + Items(a.items[1..], Size(a)) + x;
    }
  }

  lemma ItemValid(a: Json, i: nat)
    requires Valid(a) && a.Array? && i < |a.items|
    ensures Valid(a.items[i])
  {
  }

  lemma {:induction false} ItemsApart(xs: seq<Json>, m: nat, x: Text, ys: seq<Json>, n: nat, y: Text)
    requires (forall a :: a in xs ==> Size(a) < m) && (forall b :: b in ys ==> Size(b) < n)
    requires (forall i :: 0 <= i < |xs| ==> Valid(xs[i])) && (forall i :: 0 <= i < |ys| ==> Valid(ys[i]))
    requires Follows(x) && Follows(y) && Items(xs, m) + x == Items(ys, n) + y
    ensures |xs| == |ys| && x == y && forall i :: 0 <= i < |xs| ==> Same(xs[i], ys[i])
    decreases m, 0, |xs|
  {
    hide Canonical, Same, Valid, Items;
    ItemsHead(xs, m, x);
    ItemsHead(ys, n, y);
    if xs != [] {
      var p, q := Items(xs[1..], m) + x, Items(ys[1..], n) + y;
      assert xs[0] in xs;
      assert ([COMMA] + (Canonical(xs[0]) + p))[1..] == Canonical(xs[0]) + p;
      assert ([COMMA] + (Canonical(ys[0]) + q))[1..] == Canonical(ys[0]) + q;
      ItemsHead(xs[1..], m, x);
      ItemsHead(ys[1..], n, y);
      Apart(xs[0], p, ys[0], q);
      ItemsApart(xs[1..], m, x, ys[1..], n, y);
      assert xs == [xs[0]] + xs[1..] && ys == [ys[0]] + ys[1..];
    } else {
      assert ([CLOSE_ARRAY] + x)[1..] == x && ([CLOSE_ARRAY] + y)[1..] == y;
    }
  }

  lemma ItemsHead(xs: seq<Json>, m: nat, x: Text)
    requires forall a :: a in xs ==> Size(a) < m
    ensures Items(xs, m) + x == if xs == [] then [CLOSE_ARRAY] + x else [COMMA] + (Canonical(xs[0]) + (Items(xs[1..], m) + x))
    ensures Follows(Items(xs, m) + x)
  {
    hide Canonical;
  }

  lemma {:induction false} ObjectsApart(a: Json, x: Text, b: Json, y: Text)
    requires Valid(a) && Valid(b) && a.Object? && b.Object? && Follows(x) && Follows(y) && Canonical(a) + x == Canonical(b) + y
    ensures Same(a, b) && x == y
    decreases Size(a), 0, |Sorted(a.members)| + 1
  {
    hide Canonical, Members, Follows, Sorted, Same;
    var u := ObjectRest(a, x);
    var v := ObjectRest(b, y);
    assert ([OPEN_OBJECT] + u)[1..] == u && ([OPEN_OBJECT] + v)[1..] == v;
    SortedValid(a);
    SortedValid(b);
    MembersApart(Sorted(a.members), Size(a), x, Sorted(b.members), Size(b), y);
    MembersSame(a, b);
  }

  lemma ObjectRest(a: Json, x: Text) returns (u: Text)
    requires Valid(a) && a.Object?
    ensures forall t :: t in Sorted(a.members) ==> Size(t.value) < Size(a)
    ensures Canonical(a) + x == [OPEN_OBJECT] + u
    ensures Members(Sorted(a.members), Size(a)) + x == if Sorted(a.members) == [] then u else [COMMA] + u
    ensures u != [] && (Sorted(a.members) == [] <==> u[0] == CLOSE_OBJECT)
  {
    hide Valid, Sorted, Escapes;
    Smaller(a);
    var ms := Sorted(a.members);
    if ms == [] {
      u := [CLOSE_OBJECT] + x;
    } else {
      u := Quoted(ms[0].key) + [COLON] + Canonical(ms[0].value) + Members(ms[1..], Size(a)) + x;
    }
  }

  lemma SortedValid(a: Json)
    requires Valid(a) && a.Object?
    ensures forall i :: 0 <= i < |Sorted(a.members)| ==> Valid(Sorted(a.members)[i].value)
  {
    forall i | 0 <= i < |Sorted(a.members)| ensures Valid(Sorted(a.members)[i].value) {
      InSorted(a.members, Sorted(a.members)[i]);
    }
  }

  ghost predicate Paired(s: seq<Member>, t: seq<Member>) {
    |s| == |t| && forall i :: 0 <= i < |s| ==> s[i].key == t[i].key && Same(s[i].value, t[i].value)
  }

  lemma {:induction false} MembersApart(xs: seq<Member>, m: nat, x: Text, ys: seq<Member>, n: nat, y: Text)
    requires (forall a :: a in xs ==> Size(a.value) < m) && (forall b :: b in ys ==> Size(b.value) < n)
    requires (forall i :: 0 <= i < |xs| ==> Valid(xs[i].value)) && (forall i :: 0 <= i < |ys| ==> Valid(ys[i].value))
    requires Follows(x) && Follows(y) && Members(xs, m) + x == Members(ys, n) + y
    ensures Paired(xs, ys) && x == y
    decreases m, 0, |xs|
  {
    hide Canonical, Same, Valid, Members, Quoted;
    MembersHead(xs, m, x);
    MembersHead(ys, n, y);
    if xs != [] {
      var p, q := Members(xs[1..], m) + x, Members(ys[1..], n) + y;
      var r, s := [COLON] + (Canonical(xs[0].value) + p), [COLON] + (Canonical(ys[0].value) + q);
      assert ([COMMA] + (Quoted(xs[0].key) + r))[1..] == Quoted(xs[0].key) + r;
      assert ([COMMA] + (Quoted(ys[0].key) + s))[1..] == Quoted(ys[0].key) + s;
      QuotedApart(xs[0].key, r, ys[0].key, s);
      assert r[1..] == Canonical(xs[0].value) + p && s[1..] == Canonical(ys[0].value) + q;
      assert xs[0] in xs;
      MembersHead(xs[1..], m, x);
      MembersHead(ys[1..], n, y);
      Apart(xs[0].value, p, ys[0].value, q);
      MembersApart(xs[1..], m, x, ys[1..], n, y);
      assert xs == [xs[0]] + xs[1..] && ys == [ys[0]] + ys[1..];
    } else {
      assert ([CLOSE_OBJECT] + x)[1..] == x && ([CLOSE_OBJECT] + y)[1..] == y;
    }
  }

  lemma MembersHead(xs: seq<Member>, m: nat, x: Text)
    requires forall a :: a in xs ==> Size(a.value) < m
    ensures Members(xs, m) + x ==
            if xs == [] then [CLOSE_OBJECT] + x
            else [COMMA] + (Quoted(xs[0].key) + ([COLON] + (Canonical(xs[0].value) + (Members(xs[1..], m) + x))))
    ensures Follows(Members(xs, m) + x)
  {
    hide Canonical, Quoted;
  }

  /** Members that match in order match out of order. */
  lemma MembersSame(a: Json, b: Json)
    requires a.Object? && b.Object? && Paired(Sorted(a.members), Sorted(b.members))
    ensures Same(a, b)
  {
    hide Sorted;
    var s, t := Sorted(a.members), Sorted(b.members);
    forall i | 0 <= i < |a.members| ensures HasMember(b.members, a.members[i]) {
      InSorted(a.members, a.members[i]);
      var k :| 0 <= k < |s| && s[k] == a.members[i];
      InSorted(b.members, t[k]);
      var j :| 0 <= j < |b.members| && b.members[j] == t[k];
    }
    forall j | 0 <= j < |b.members| ensures HasKey(a.members, b.members[j].key) {
      InSorted(b.members, b.members[j]);
      var k :| 0 <= k < |t| && t[k] == b.members[j];
      InSorted(a.members, s[k]);
      var i :| 0 <= i < |a.members| && a.members[i] == s[k];
    }
  }

  // ----- The other direction

  ghost predicate KeysIn(s: seq<Member>, t: seq<Member>) {
    forall i :: 0 <= i < |s| ==> HasKey(t, s[i].key)
  }

  lemma FirstKey(s: seq<Member>, t: seq<Member>)
    requires Increasing(s) && Increasing(t) && s != [] && t != [] && KeysIn(s, t) && KeysIn(t, s)
    ensures s[0].key == t[0].key
  {
    hide Less;
    assert HasKey(t, s[0].key) && HasKey(s, t[0].key);
    var j :| 0 <= j < |t| && t[j].key == s[0].key;
    var i :| 0 <= i < |s| && s[i].key == t[0].key;
    Trichotomy(s[0].key, t[0].key);
  }

  lemma TailKeys(s: seq<Member>, t: seq<Member>)
    requires Increasing(s) && s != [] && t != [] && s[0].key == t[0].key && KeysIn(s, t)
    ensures KeysIn(s[1..], t[1..])
  {
    hide Less;
    forall i | 0 <= i < |s[1..]| ensures HasKey(t[1..], s[1..][i].key) {
      assert s[1..][i] == s[i + 1] && HasKey(t, s[i + 1].key);
      var j :| 0 <= j < |t| && t[j].key == s[i + 1].key;
      Trichotomy(s[0].key, s[i + 1].key);
      assert j > 0 && t[1..][j - 1] == t[j];
    }
  }

  lemma {:induction false} SameKeys(s: seq<Member>, t: seq<Member>)
    requires Increasing(s) && Increasing(t) && KeysIn(s, t) && KeysIn(t, s)
    ensures |s| == |t| && forall i :: 0 <= i < |s| ==> s[i].key == t[i].key
  {
    hide Less, HasKey;
    if s == [] || t == [] {
      if t == [] { NoKeys(s, t); } else { NoKeys(t, s); }
    } else {
      FirstKey(s, t);
      TailKeys(s, t);
      TailKeys(t, s);
      SameKeys(s[1..], t[1..]);
      assert s == [s[0]] + s[1..] && t == [t[0]] + t[1..];
    }
  }

  lemma NoKeys(s: seq<Member>, t: seq<Member>)
    requires KeysIn(s, t) && t == []
    ensures s == []
  {
    assert s != [] ==> HasKey(t, s[0].key);
  }

  lemma SortedSame(a: Json, b: Json)
    requires Valid(a) && Valid(b) && a.Object? && Same(a, b)
    ensures Paired(Sorted(a.members), Sorted(b.members))
  {
    hide Less, Sorted, Valid;
    assert DistinctKeys(a.members) && DistinctKeys(b.members) by { ValidObject(a); ValidObject(b); }
    var s, t := Sorted(a.members), Sorted(b.members);
    SortedSorts(a.members);
    SortedSorts(b.members);
    forall i | 0 <= i < |s| ensures HasKey(t, s[i].key) { var j := Partner(a, b, i); }
    forall j | 0 <= j < |t| ensures HasKey(s, t[j].key) { var i := KeyPartner(a, b, j); }
    SameKeys(s, t);
    forall i | 0 <= i < |s| ensures Same(s[i].value, t[i].value) {
      var j := Partner(a, b, i);
      if i < j { Trichotomy(t[i].key, t[j].key); }
      if j < i { Trichotomy(t[j].key, t[i].key); }
    }
  }

  lemma ValidObject(a: Json)
    requires Valid(a) && a.Object?
    ensures DistinctKeys(a.members)
  {
  }

  lemma Partner(a: Json, b: Json, i: nat) returns (j: nat)
    requires a.Object? && Same(a, b) && i < |Sorted(a.members)|
    ensures j < |Sorted(b.members)| && Sorted(b.members)[j].key == Sorted(a.members)[i].key
    ensures Same(Sorted(a.members)[i].value, Sorted(b.members)[j].value)
  {
    hide Sorted;
    var s, t := Sorted(a.members), Sorted(b.members);
    InSorted(a.members, s[i]);
    var p :| 0 <= p < |a.members| && a.members[p] == s[i];
    assert HasMember(b.members, a.members[p]);
    var q :| 0 <= q < |b.members| && b.members[q].key == a.members[p].key && Same(a.members[p].value, b.members[q].value);
    InSorted(b.members, b.members[q]);
    j :| 0 <= j < |t| && t[j] == b.members[q];
  }

  lemma KeyPartner(a: Json, b: Json, j: nat) returns (i: nat)
    requires a.Object? && Same(a, b) && j < |Sorted(b.members)|
    ensures i < |Sorted(a.members)| && Sorted(a.members)[i].key == Sorted(b.members)[j].key
  {
    hide Sorted;
    var s, t := Sorted(a.members), Sorted(b.members);
    InSorted(b.members, t[j]);
    var q :| 0 <= q < |b.members| && b.members[q] == t[j];
    assert HasKey(a.members, b.members[q].key);
    var p :| 0 <= p < |a.members| && a.members[p].key == b.members[q].key;
    InSorted(a.members, a.members[p]);
    i :| 0 <= i < |s| && s[i] == a.members[p];
  }

  lemma {:induction false} SameText(a: Json, b: Json)
    requires Valid(a) && Valid(b) && Same(a, b)
    ensures Canonical(a) == Canonical(b)
    decreases Size(a), 1, 0
  {
    hide Items, Members, Sorted, Canonical;
    if a.Array? {
      var u := ArrayRest(a, []);
      var v := ArrayRest(b, []);
      ItemsText(a.items, Size(a), b.items, Size(b));
      assert Canonical(a) + [] == Canonical(a) && Canonical(b) + [] == Canonical(b);
      assert ([COMMA] + u)[1..] == u && ([COMMA] + v)[1..] == v;
    } else if a.Object? {
      SortedSame(a, b);
      SortedValid(a);
      SortedValid(b);
      var u := ObjectRest(a, []);
      var v := ObjectRest(b, []);
      MembersText(Sorted(a.members), Size(a), Sorted(b.members), Size(b));
      assert Canonical(a) + [] == Canonical(a) && Canonical(b) + [] == Canonical(b);
      assert ([COMMA] + u)[1..] == u && ([COMMA] + v)[1..] == v;
    } else {
      LeafSame(a, b);
    }
  }

  lemma {:induction false} ItemsText(xs: seq<Json>, m: nat, ys: seq<Json>, n: nat)
    requires (forall a :: a in xs ==> Size(a) < m) && (forall b :: b in ys ==> Size(b) < n) && |xs| == |ys|
    requires forall i :: 0 <= i < |xs| ==> Valid(xs[i]) && Valid(ys[i]) && Same(xs[i], ys[i])
    ensures Items(xs, m) == Items(ys, n)
    decreases m, 0, |xs|
  {
    hide Canonical, Same, Valid;
    if xs != [] {
      assert xs[0] in xs;
      SameText(xs[0], ys[0]);
      ItemsText(xs[1..], m, ys[1..], n);
    }
  }

  lemma {:induction false} MembersText(xs: seq<Member>, m: nat, ys: seq<Member>, n: nat)
    requires (forall a :: a in xs ==> Size(a.value) < m) && (forall b :: b in ys ==> Size(b.value) < n) && Paired(xs, ys)
    requires forall i :: 0 <= i < |xs| ==> Valid(xs[i].value) && Valid(ys[i].value)
    ensures Members(xs, m) == Members(ys, n)
    decreases m, 0, |xs|
  {
    hide Canonical, Same, Valid, Quoted;
    if xs != [] {
      assert xs[0] in xs;
      SameText(xs[0].value, ys[0].value);
      MembersText(xs[1..], m, ys[1..], n);
    }
  }

  /** The canonical texts of two values are equal exactly if the values are the same up to the order of
      members, at any depth. */
  lemma CanonicalIffSame(a: Json, b: Json)
    requires Valid(a) && Valid(b)
    ensures Canonical(a) == Canonical(b) <==> Same(a, b)
  {
    hide Canonical, Same, Valid;
    if Canonical(a) == Canonical(b) {
      assert Canonical(a) + [] == Canonical(b) + [];
      Apart(a, [], b, []);
    }
    if Same(a, b) { SameText(a, b); }
  }
}
