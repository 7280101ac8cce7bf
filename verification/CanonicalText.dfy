/**
 What a canonical text looks like: which units of a string are escaped and how, in which order members come, and that the text
 can be written as UTF-8 as it is, without a control character or half a surrogate pair.
 */
module CanonicalText {
  import opened CanonicalJson

  predicate High(u: Unit) {
    0xD800 <= u < 0xDC00
  }

  predicate Low(u: Unit) {
    0xDC00 <= u < 0xE000
  }

  function Units(s: string): (t: Text)
    ensures |t| == |s|
    ensures forall i :: 0 <= i < |s| && (s[i] as int) < 0x1_0000 ==> t[i] == s[i] as int
  {
    if s == "" then [] else [if (s[0] as int) < 0x1_0000 then s[0] as int else 0] + Units(s[1..])
  }

  // ----- Strings

  /** The escapes of section 7 of RFC 8259: the quote, the backslash and five control characters have a short one; other control
      characters, and surrogates without their other half, one of four digits; every other unit stands for itself. */
  lemma EscapesExactly(u: Unit, lone: bool)
    ensures
      var e := Escape(u, lone);
      if u == 34 then e == [92, 34] else if u == 92 then e == [92, 92]
      else if u == 8 then e == [92, 98] else if u == 9 then e == [92, 116] else if u == 10 then e == [92, 110]
      else if u == 12 then e == [92, 102] else if u == 13 then e == [92, 114]
      else if u < 32 || (lone && (High(u) || Low(u))) then
        && |e| == 6 && e[0] == 92 && e[1] == 117
        && (forall i :: 2 <= i < 6 ==> 48 <= e[i] <= 57 || 97 <= e[i] <= 102)
        && HexValue(e[2]) * 4096 + HexValue(e[3]) * 256 + HexValue(e[4]) * 16 + HexValue(e[5]) == u
      else e == [u]
  {
    HexRoundTrip(u);
  }

  /** A surrogate is without its other half unless a high one stands right before a low one. */
  lemma LoneIff(s: Text, i: nat)
    requires i < |s| && (High(s[i]) || Low(s[i]))
    ensures Lone(s, i) <==> !(High(s[i]) && i + 1 < |s| && Low(s[i + 1])) && !(Low(s[i]) && i > 0 && High(s[i - 1]))
  {
  }

  /** A high surrogate is followed by a low one, and a low one follows a high one, or begins the text if a pair is open. */
  predicate Halves(t: Text, open: bool, k: nat)
    requires k < |t|
  {
    && (High(t[k]) ==> k + 1 < |t| && Low(t[k + 1]))
    && (Low(t[k]) ==> if k == 0 then open else High(t[k - 1]))
  }

  predicate Paired(t: Text, open: bool) {
    && (open ==> t != [] && Low(t[0]))
    && (forall k :: 0 <= k < |t| ==> Halves(t, open, k))
  }

  predicate Printable(t: Text) {
    forall k :: 0 <= k < |t| ==> t[k] >= 32
  }

  /** It can be written as it is. */
  predicate Encodable(t: Text) {
    Paired(t, false) && Printable(t)
  }

  lemma EncodableConcat(a: Text, b: Text)
    requires Encodable(a) && Encodable(b)
    ensures Encodable(a + b)
  {
    var t := a + b;
    forall k | 0 <= k < |t| ensures Halves(t, false, k) {
      if k < |a| { assert Halves(a, false, k); } else { assert Halves(b, false, k - |a|); }
    }
  }

  lemma PlainUnits(e: Text, rest: Text)
    requires (forall k :: 0 <= k < |e| ==> 32 <= e[k] < 128) && Paired(rest, false)
    ensures Paired(e + rest, false)
  {
    var t := e + rest;
    forall k | 0 <= k < |t| ensures Halves(t, false, k) {
      if k >= |e| { assert Halves(rest, false, k - |e|); }
    }
  }

  lemma OneUnit(u: Unit, rest: Text, open: bool)
    requires Paired(rest, High(u)) && (open <==> Low(u))
    ensures Paired([u] + rest, open)
  {
    var t := [u] + rest;
    forall k | 0 <= k < |t| ensures Halves(t, open, k) {
      if k > 0 { assert Halves(rest, High(u), k - 1); }
    }
  }

  /** A pair is open before the unit at `i`. */
  predicate Open(s: Text, i: nat) {
    0 < i < |s| && High(s[i - 1]) && Low(s[i])
  }

  lemma EscapeIsPlain(u: Unit, lone: bool)
    ensures Escape(u, lone) == [u] || forall k :: 0 <= k < |Escape(u, lone)| ==> 32 <= Escape(u, lone)[k] < 128
    ensures Printable(Escape(u, lone))
    ensures Escape(u, lone) == [u] ==> (High(u) || Low(u) ==> !lone)
    ensures High(u) || Low(u) ==> !lone ==> Escape(u, lone) == [u]
  {
  }

  lemma {:induction false} EscapesPaired(s: Text, i: nat)
    requires i <= |s|
    ensures Paired(Escapes(s, i), Open(s, i)) && Printable(Escapes(s, i))
    decreases |s| - i
  {
    hide Escape, Lone, Paired;
    if i == |s| {
      assert Paired([QUOTE], false) by { PairedQuote(); }
    } else {
      var u, e, rest := s[i], Escape(s[i], Lone(s, i)), Escapes(s, i + 1);
      EscapesPaired(s, i + 1);
      EscapeIsPlain(u, Lone(s, i));
      if High(u) || Low(u) { LoneIff(s, i); }
      if e == [u] {
        assert Open(s, i + 1) <==> High(u);
        OneUnit(u, rest, Open(s, i));
      } else {
        PlainUnits(e, rest);
      }
      forall k | 0 <= k < |e + rest| ensures (e + rest)[k] >= 32 { if k >= |e| { assert (e + rest)[k] == rest[k - |e|]; } }
    }
  }

  lemma PairedQuote()
    ensures Paired([QUOTE], false)
  {
  }

  /** Whatever units a string has, halves of pairs included. */
  lemma QuotedIsEncodable(s: Text)
    ensures Encodable(Quoted(s))
  {
    EscapesPaired(s, 0);
    PlainUnits([QUOTE], Escapes(s, 0));
  }

  // ----- Values

  lemma PlainIsEncodable(t: Text)
    requires forall k :: 0 <= k < |t| ==> 32 <= t[k] < 128
    ensures Encodable(t)
  {
  }

  /** The units of a number. */
  lemma NumberUnitIff(u: Unit)
    ensures NumberUnit(u) <==>
      || '0' as int <= u <= '9' as int || u == '+' as int || u == '-' as int || u == '.' as int || u == 'e' as int || u == 'E' as int
  {
  }

  /** The three names. */
  lemma NamesExactly()
    ensures Canonical(Null) == Units("null") && Canonical(Bool(true)) == Units("true") && Canonical(Bool(false)) == Units("false")
  {
  }

  /** A canonical text can be written as UTF-8 as it is, so that its bytes determine it. */
  lemma {:induction false} CanonicalIsEncodable(a: Json)
    requires Valid(a)
    ensures Encodable(Canonical(a))
    decreases Size(a), 1, 0
  {
    hide Encodable, Quoted, NumberUnit, Valid;
    match a
    case Null => PlainIsEncodable(Canonical(a));
    case Bool(_) => PlainIsEncodable(Canonical(a));
    case Number(literal) => NumberIsPlain(a);
    case String(text) => QuotedIsEncodable(text);
    case Array(items) =>
      Smaller(a);
      PartsValid(a);
      PlainIsEncodable([OPEN_ARRAY]);
      PlainIsEncodable([CLOSE_ARRAY]);
      if items == [] {
        EncodableConcat([OPEN_ARRAY], [CLOSE_ARRAY]);
      } else {
        assert items[0] in items;
        CanonicalIsEncodable(items[0]);
        assert forall x :: x in items[1..] ==> x in items;
        ItemsEncodable(items[1..], Size(a));
        EncodableConcat(Canonical(items[0]), Items(items[1..], Size(a)));
        EncodableConcat([OPEN_ARRAY], Canonical(items[0]) + Items(items[1..], Size(a)));
      }
    case Object(members) =>
      Smaller(a);
      PartsValid(a);
      var ms := Sorted(members);
      PlainIsEncodable([OPEN_OBJECT]);
      PlainIsEncodable([CLOSE_OBJECT]);
      if ms == [] {
        EncodableConcat([OPEN_OBJECT], [CLOSE_OBJECT]);
      } else {
        assert ms[0] in ms;
        CanonicalIsEncodable(ms[0].value);
        assert forall m :: m in ms[1..] ==> m in ms;
        MembersEncodable(ms[1..], Size(a));
        MemberEncodable(ms[0]);
        var first, rest := Quoted(ms[0].key) + [COLON] + Canonical(ms[0].value), Members(ms[1..], Size(a));
        EncodableConcat(first, rest);
        EncodableConcat([OPEN_OBJECT], first + rest);
      }
  }

  lemma NumberIsPlain(a: Json)
    requires Valid(a) && a.Number?
    ensures Encodable(a.literal)
  {
    PlainIsEncodable(a.literal);
  }

  lemma PartsValid(a: Json)
    requires Valid(a)
    ensures a.Array? ==> forall x :: x in a.items ==> Valid(x)
    ensures a.Object? ==> forall m :: m in Sorted(a.members) ==> Valid(m.value)
  {
    if a.Object? {
      forall m | m in Sorted(a.members) ensures Valid(m.value) { InSorted(a.members, m); }
    }
  }

  lemma MemberEncodable(m: Member)
    requires Encodable(Canonical(m.value))
    ensures Encodable(Quoted(m.key) + [COLON] + Canonical(m.value))
  {
    hide Encodable, Quoted, Canonical;
    QuotedIsEncodable(m.key);
    PlainIsEncodable([COLON]);
    EncodableConcat(Quoted(m.key), [COLON]);
    EncodableConcat(Quoted(m.key) + [COLON], Canonical(m.value));
  }

  lemma {:induction false} ItemsEncodable(items: seq<Json>, bound: nat)
    requires forall x :: x in items ==> Size(x) < bound && Valid(x)
    ensures Encodable(Items(items, bound))
    decreases bound, 0, |items|
  {
    hide Encodable, Valid, Canonical;
    if items == [] {
      PlainIsEncodable([CLOSE_ARRAY]);
    } else {
      CanonicalIsEncodable(items[0]);
      assert forall x :: x in items[1..] ==> x in items;
      ItemsEncodable(items[1..], bound);
      PlainIsEncodable([COMMA]);
      EncodableConcat([COMMA], Canonical(items[0]));
      EncodableConcat([COMMA] + Canonical(items[0]), Items(items[1..], bound));
    }
  }

  lemma {:induction false} MembersEncodable(ms: seq<Member>, bound: nat)
    requires forall m :: m in ms ==> Size(m.value) < bound && Valid(m.value)
    ensures Encodable(Members(ms, bound))
    decreases bound, 0, |ms|
  {
    hide Encodable, Valid, Canonical, Quoted;
    if ms == [] {
      PlainIsEncodable([CLOSE_OBJECT]);
    } else {
      CanonicalIsEncodable(ms[0].value);
      assert forall m :: m in ms[1..] ==> m in ms;
      MembersEncodable(ms[1..], bound);
      MemberEncodable(ms[0]);
      PlainIsEncodable([COMMA]);
      var one := Quoted(ms[0].key) + [COLON] + Canonical(ms[0].value);
      EncodableConcat([COMMA], one);
      EncodableConcat([COMMA] + one, Members(ms[1..], bound));
    }
  }

  // ----- The order of members

  /** Where two keys part. */
  ghost predicate PartsAt(a: Text, b: Text, k: int) {
    && 0 <= k <= |a| && k <= |b| && a[..k] == b[..k]
    && (if k == |a| then k < |b| else k < |b| && a[k] < b[k])
  }

  /** Keys are in the order of the first unit in which they differ, and a key before its continuations. */
  lemma {:induction false} LessIff(a: Text, b: Text)
    ensures Less(a, b) <==> exists k :: PartsAt(a, b, k)
  {
    if a == [] || b == [] || a[0] != b[0] {
      if Less(a, b) { assert PartsAt(a, b, 0); }
      if k :| PartsAt(a, b, k) && k > 0 { assert false; }
    } else {
      LessIff(a[1..], b[1..]);
      if k :| PartsAt(a[1..], b[1..], k) {
        assert a[..k + 1] == [a[0]] + a[1..][..k] && b[..k + 1] == [b[0]] + b[1..][..k];
        assert PartsAt(a, b, k + 1);
      }
      if k :| PartsAt(a, b, k) {
        assert k > 0;
        assert a[1..][..k - 1] == a[..k][1..] && b[1..][..k - 1] == b[..k][1..];
        assert PartsAt(a[1..], b[1..], k - 1);
      }
    }
  }
}
