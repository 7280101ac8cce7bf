/**
 What every reachable ledger keeps, however operations of several tabs interleave and wherever a tab
 dies: exclusion of requests that could be sent twice, survival of everything unresolved, and the
 budget.
 */
module AdmissionLedgerSafety {
  import opened Wrappers
  import opened AdmissionRecovery
  import opened AdmissionLedger

  // ----- Sums

  lemma {:induction false} SumConcat(es: seq<Entry>, fs: seq<Entry>, weight: Entry -> nat)
    ensures Sum(es + fs, weight) == Sum(es, weight) + Sum(fs, weight)
  {
    if es == [] {
      assert es + fs == fs;
    } else {
      assert (es + fs)[1..] == es[1..] + fs;
      SumConcat(es[1..], fs, weight);
    }
  }

  lemma {:induction false} SumOfCount(es: seq<Entry>)
    ensures Sum(es, Count) == |es|
  {
    if es != [] { SumOfCount(es[1..]); }
  }

  // ----- Removing by key

  function Drop(es: seq<Entry>, keys: set<nat>): seq<Entry> {
    if es == [] then []
    else if es[0].item.key in keys then Drop(es[1..], keys) else [es[0]] + Drop(es[1..], keys)
  }

  function KeysOf(es: seq<Entry>): set<nat> {
    set e | e in es :: e.item.key
  }

  ghost predicate Distinct(es: seq<Entry>) {
    forall i, j :: 0 <= i < j < |es| ==> es[i].item.key != es[j].item.key
  }

  lemma {:induction false} InDrop(es: seq<Entry>, keys: set<nat>, e: Entry)
    ensures e in Drop(es, keys) <==> e in es && e.item.key !in keys
  {
    if es != [] { InDrop(es[1..], keys, e); }
  }

  lemma {:induction false} DropDistinct(es: seq<Entry>, keys: set<nat>)
    requires Distinct(es)
    ensures Distinct(Drop(es, keys))
  {
    if es != [] {
      DropDistinct(es[1..], keys);
      var rest := Drop(es[1..], keys);
      forall i | 0 <= i < |rest| ensures rest[i].item.key != es[0].item.key { InDrop(es[1..], keys, rest[i]); }
    }
  }

  lemma {:induction false} DropSum(es: seq<Entry>, keys: set<nat>, weight: Entry -> nat)
    ensures Sum(Drop(es, keys), weight) <= Sum(es, weight)
  {
    if es != [] { DropSum(es[1..], keys, weight); }
  }

  lemma {:induction false} DropTwice(es: seq<Entry>, keys: set<nat>, more: set<nat>)
    ensures Drop(Drop(es, keys), more) == Drop(es, keys + more)
  {
    if es != [] { DropTwice(es[1..], keys, more); }
  }

  lemma {:induction false} DropConcat(es: seq<Entry>, fs: seq<Entry>, keys: set<nat>)
    ensures Drop(es + fs, keys) == Drop(es, keys) + Drop(fs, keys)
  {
    if es == [] {
      assert es + fs == fs;
    } else {
      assert (es + fs)[1..] == es[1..] + fs;
      DropConcat(es[1..], fs, keys);
    }
  }

  lemma {:induction false} DropNone(es: seq<Entry>, keys: set<nat>)
    requires forall e :: e in es ==> e.item.key !in keys
    ensures Drop(es, keys) == es
  {
    if es != [] { DropNone(es[1..], keys); }
  }

  lemma {:induction false} WithoutIsDrop(es: seq<Entry>, key: nat)
    ensures Without(es, key) == Drop(es, {key})
  {
    if es != [] { WithoutIsDrop(es[1..], key); }
  }

  // ----- Retention is removal by key

  lemma {:induction false} InExpired(es: seq<Entry>, protected: Option<nat>, e: Entry)
    ensures e in Expired(es, protected) <==> e in es && Expirable(e, protected)
  {
    if es != [] { InExpired(es[1..], protected, e); }
  }

  lemma {:induction false} KeptIsDrop(es: seq<Entry>, protected: Option<nat>, keys: set<nat>)
    requires forall e :: e in es ==> (e.item.key in keys <==> Expirable(e, protected))
    ensures Kept(es, protected) == Drop(es, keys)
  {
    if es != [] { KeptIsDrop(es[1..], protected, keys); }
  }

  lemma DistinctKey(es: seq<Entry>, a: Entry, b: Entry)
    requires Distinct(es) && a in es && b in es && a.item.key == b.item.key
    ensures a == b
  {
    var i :| 0 <= i < |es| && es[i] == a;
    var j :| 0 <= j < |es| && es[j] == b;
  }

  lemma Apart(es: seq<Entry>, n: nat, a: Entry, b: Entry)
    requires Distinct(es) && n <= |es| && a in es[..n] && b in es[n..]
    ensures a.item.key != b.item.key
  {
    var i :| 0 <= i < n && es[i] == a;
    var j :| 0 <= j < |es| - n && es[n..][j] == b;
    assert es[n + j] == b;
  }

  lemma RetainedIsDrop(es: seq<Entry>, protected: Option<nat>)
    requires Distinct(es)
    ensures Retained(es, protected) == Drop(es, KeysOf(Victims(es, protected)))
    ensures forall e :: e in Victims(es, protected) ==> e in es && Expirable(e, protected)
  {
    var n := CutPoint(es, protected, 0);
    var gone := Victims(es, protected);
    var keys := KeysOf(gone);
    forall e ensures e in gone <==> e in es[..n] && Expirable(e, protected) { InExpired(es[..n], protected, e); }
    forall e | e in es[..n] ensures e.item.key in keys <==> Expirable(e, protected) {
      if e.item.key in keys {
        var f :| f in gone && f.item.key == e.item.key;
        DistinctKey(es, e, f);
      }
    }
    forall e | e in es[n..] ensures e.item.key !in keys {
      forall f | f in gone ensures f.item.key != e.item.key { Apart(es, n, f, e); }
    }
    KeptIsDrop(es[..n], protected, keys);
    DropNone(es[n..], keys);
    DropConcat(es[..n], es[n..], keys);
    assert es[..n] + es[n..] == es;
  }

  /** A record that is not expirable, or is being written, is never a victim. */
  lemma RetainedKeeps(es: seq<Entry>, protected: Option<nat>, e: Entry)
    requires Distinct(es) && e in es && !Expirable(e, protected)
    ensures e in Retained(es, protected)
  {
    RetainedIsDrop(es, protected);
    if e.item.key in KeysOf(Victims(es, protected)) {
      var f :| f in Victims(es, protected) && f.item.key == e.item.key;
      DistinctKey(es, e, f);
    }
    InDrop(es, KeysOf(Victims(es, protected)), e);
  }

  lemma {:induction false} FewTerminals(es: seq<Entry>, protected: Option<nat>)
    requires Distinct(es)
    ensures Terminals(Kept(es, protected)) <= 1
    ensures protected.None? || (forall e :: e in es ==> protected != Some(e.item.key)) ==> Terminals(Kept(es, protected)) == 0
  {
    if es != [] {
      FewTerminals(es[1..], protected);
      var head := if Expirable(es[0], protected) then [] else [es[0]];
      SumConcat(head, Kept(es[1..], protected), CountExpirable);
      if protected == Some(es[0].item.key) {
        forall e | e in es[1..] ensures protected != Some(e.item.key) { }
      }
    }
  }

  /** However large the ledger was, at most 64 expirable records remain. */
  lemma RetainedTerminals(es: seq<Entry>, protected: Option<nat>)
    requires Distinct(es)
    ensures Terminals(Retained(es, protected)) <= MAX_TERMINAL_RECORDS
  {
    var n := CutPoint(es, protected, 0);
    if n == |es| {
      assert es[..n] == es && Cut(es, protected, n) == Kept(es, protected);
      FewTerminals(es, protected);
    }
  }

  // ----- Entries and writes

  /** Storage holds exactly these entries, freshly decoded. */
  ghost predicate Sound(c: Codec, scope: nat, es: seq<Entry>) {
    forall e :: e in es ==> DecodeEntry(c, scope, e.item) == Ok(e)
  }

  function Items(es: seq<Entry>): seq<Item> {
    if es == [] then [] else [es[0].item] + Items(es[1..])
  }

  lemma {:induction false} ReadAllSound(c: Codec, scope: nat, items: seq<Item>)
    ensures ReadAll(c, scope, items).Ok? ==>
      Sound(c, scope, ReadAll(c, scope, items).value) && Items(ReadAll(c, scope, items).value) == items
  {
    hide DecodeEntry;
    if items != [] {
      ReadAllSound(c, scope, items[1..]);
      if ReadAll(c, scope, items).Ok? {
        var es := ReadAll(c, scope, items).value;
        assert es[1..] == ReadAll(c, scope, items[1..]).value;
      }
    }
  }

  lemma {:induction false} SoundReadAll(c: Codec, scope: nat, es: seq<Entry>)
    requires Sound(c, scope, es)
    ensures ReadAll(c, scope, Items(es)) == Ok(es)
  {
    hide DecodeEntry;
    if es != [] {
      assert es[0] in es;
      assert Sound(c, scope, es[1..]) by { assert forall e :: e in es[1..] ==> e in es; }
      SoundReadAll(c, scope, es[1..]);
      hide Sound;
      assert Items(es)[0] == es[0].item && Items(es)[1..] == Items(es[1..]);
      assert [es[0]] + es[1..] == es;
    }
  }

  function Put1(es: seq<Entry>, e: Entry): seq<Entry> {
    if es == [] then [e]
    else if es[0].item.key == e.item.key then [e] + es[1..]
    else [es[0]] + Put1(es[1..], e)
  }

  function WriteOne(es: seq<Entry>, w: Write): seq<Entry> {
    match w
    case Remove(e) => Drop(es, {e.item.key})
    case Put(e) => Put1(es, e)
  }

  function WriteAll(es: seq<Entry>, ws: seq<Write>): seq<Entry>
    decreases |ws|
  {
    if ws == [] then es else WriteAll(WriteOne(es, ws[0]), ws[1..])
  }

  lemma {:induction false} ItemsErase(es: seq<Entry>, key: nat)
    ensures Items(Drop(es, {key})) == Erase(Items(es), key)
  {
    if es != [] {
      ItemsErase(es[1..], key);
      assert Items(es)[1..] == Items(es[1..]);
    }
  }

  lemma {:induction false} ItemsStore(es: seq<Entry>, e: Entry)
    ensures Items(Put1(es, e)) == Store(Items(es), e.item)
  {
    if es != [] {
      assert Items(es)[1..] == Items(es[1..]);
      if es[0].item.key == e.item.key { assert Put1(es, e)[1..] == es[1..]; }
      else { ItemsStore(es[1..], e); assert Put1(es, e)[1..] == Put1(es[1..], e); }
    }
  }

  /** What a plan does to entries is what it does to storage. */
  lemma {:induction false} ApplyWrites(es: seq<Entry>, ws: seq<Write>)
    ensures Apply(Items(es), ws) == Items(WriteAll(es, ws))
    decreases |ws|
  {
    if ws != [] {
      match ws[0] {
        case Remove(e) => ItemsErase(es, e.item.key);
        case Put(e) => ItemsStore(es, e);
      }
      ApplyWrites(WriteOne(es, ws[0]), ws[1..]);
    }
  }

  lemma {:induction false} WritesConcat(es: seq<Entry>, ws: seq<Write>, us: seq<Write>)
    ensures WriteAll(es, ws + us) == WriteAll(WriteAll(es, ws), us)
    decreases |ws|
  {
    if ws == [] {
      assert ws + us == us;
    } else {
      assert (ws + us)[1..] == ws[1..] + us;
      WritesConcat(WriteOne(es, ws[0]), ws[1..], us);
    }
  }

  lemma {:induction false} RemovalsDrop(es: seq<Entry>, gone: seq<Entry>)
    ensures WriteAll(es, Removals(gone)) == Drop(es, KeysOf(gone))
    decreases |gone|
  {
    if gone == [] {
      assert KeysOf(gone) == {};
      DropNone(es, {});
    } else {
      var ws := Removals(gone);
      assert ws[1..] == Removals(gone[1..]);
      assert ws[0] == Remove(gone[0]);
      RemovalsDrop(Drop(es, {gone[0].item.key}), gone[1..]);
      DropTwice(es, {gone[0].item.key}, KeysOf(gone[1..]));
      assert gone == [gone[0]] + gone[1..];
      assert KeysOf(gone) == {gone[0].item.key} + KeysOf(gone[1..]);
    }
  }

  // ----- The invariant

  /** Two requests that may not both be in doubt. */
  predicate Conflict(a: Record, b: Record) {
    || a.frozen.draftKey == b.frozen.draftKey
    || a.frozen.envelope.intent.chainId == b.frozen.envelope.intent.chainId
    || (a.frozen.envelope.intent.conversationId.Some?
        && a.frozen.envelope.intent.conversationId == b.frozen.envelope.intent.conversationId)
  }

  /** At most one unresolved request per draft, per chain and per conversation. */
  ghost predicate Exclusive(es: seq<Entry>) {
    forall a, b :: a in es && b in es && Unresolved(a.record) && Unresolved(b.record) && a != b ==> !Conflict(a.record, b.record)
  }

  ghost predicate LedgerOk(c: Codec, scope: nat, es: seq<Entry>) {
    Sound(c, scope, es) && Distinct(es) && Exclusive(es)
  }

  /** An unresolved record stays, with its envelope, draft and stamps, until its own terminal receipt. */
  ghost predicate Survives(e: Entry, es: seq<Entry>) {
    Unresolved(e.record) ==>
      exists f :: f in es && f.item.key == e.item.key && f.record.frozen == e.record.frozen
        && (f.record.receipt.Some? ==> Correlates(f.record.receipt.value, e.record.frozen.envelope))
  }

  ghost predicate AllSurvive(es: seq<Entry>, fs: seq<Entry>) {
    forall e :: e in es ==> Survives(e, fs)
  }

  lemma DecodedFacts(c: Codec, scope: nat, e: Entry)
    requires DecodeEntry(c, scope, e.item) == Ok(e)
    ensures Valid(e.record) && e.item.key == RequestId(e.record)
    ensures e.record.receipt.Some? ==> Correlates(e.record.receipt.value, e.record.frozen.envelope)
    ensures e.record.receipt.Some? ==> c.receiptSize(e.record.receipt.value) <= MAX_RECEIPT_BYTES
  {
  }

  /** Removing terminal records. */
  lemma DropOk(c: Codec, scope: nat, es: seq<Entry>, keys: set<nat>)
    requires LedgerOk(c, scope, es)
    requires forall e :: e in es && e.item.key in keys ==> Terminal(e.record.receipt)
    ensures LedgerOk(c, scope, Drop(es, keys)) && AllSurvive(es, Drop(es, keys))
  {
    hide DecodeEntry, Conflict, Correlates;
    var fs := Drop(es, keys);
    forall e ensures e in fs <==> e in es && e.item.key !in keys { InDrop(es, keys, e); }
    DropDistinct(es, keys);
    forall e | e in es ensures Survives(e, fs) {
      DecodedFacts(c, scope, e);
      if Unresolved(e.record) { assert e in fs; }
    }
  }

  lemma {:induction false} InPut(es: seq<Entry>, e: Entry, f: Entry)
    requires Distinct(es)
    ensures f in Put1(es, e) <==> f == e || (f in es && f.item.key != e.item.key)
  {
    if es != [] {
      if es[0].item.key == e.item.key {
        forall g | g in es[1..] ensures g.item.key != e.item.key { }
      } else {
        InPut(es[1..], e, f);
      }
    }
  }

  lemma {:induction false} PutDistinct(es: seq<Entry>, e: Entry)
    requires Distinct(es)
    ensures Distinct(Put1(es, e))
  {
    if es != [] && es[0].item.key != e.item.key {
      PutDistinct(es[1..], e);
      var rest := Put1(es[1..], e);
      forall i | 0 <= i < |rest| ensures rest[i].item.key != es[0].item.key { InPut(es[1..], e, rest[i]); }
    }
  }

  /** Writing a record that conflicts with nothing in doubt, or takes the place of the same request. */
  lemma PutOk(c: Codec, scope: nat, es: seq<Entry>, e: Entry)
    requires LedgerOk(c, scope, es) && DecodeEntry(c, scope, e.item) == Ok(e)
    requires forall f :: f in es && f.item.key == e.item.key ==>
      f.record.frozen == e.record.frozen && (Terminal(f.record.receipt) ==> Terminal(e.record.receipt))
    requires (exists f :: f in es && f.item.key == e.item.key) || Terminal(e.record.receipt)
             || forall f :: f in es && Unresolved(f.record) ==> !Conflict(f.record, e.record)
    ensures LedgerOk(c, scope, Put1(es, e)) && AllSurvive(es, Put1(es, e))
  {
    hide DecodeEntry, Conflict, Correlates;
    var fs := Put1(es, e);
    forall f ensures f in fs <==> f == e || (f in es && f.item.key != e.item.key) { InPut(es, e, f); }
    PutDistinct(es, e);
    DecodedFacts(c, scope, e);
    forall f | f in es ensures Survives(f, fs) {
      DecodedFacts(c, scope, f);
      if f.item.key == e.item.key { assert e in fs; } else { assert f in fs; }
    }
    forall a, b | a in fs && b in fs && Unresolved(a.record) && Unresolved(b.record) && a != b ensures !Conflict(a.record, b.record) {
      PutExclusive(es, e, a, b);
    }
  }

  lemma PutExclusive(es: seq<Entry>, e: Entry, a: Entry, b: Entry)
    requires Exclusive(es) && Unresolved(a.record) && Unresolved(b.record) && a != b
    requires a == e || (a in es && a.item.key != e.item.key)
    requires b == e || (b in es && b.item.key != e.item.key)
    requires forall f :: f in es && f.item.key == e.item.key ==>
      f.record.frozen == e.record.frozen && (Terminal(f.record.receipt) ==> Terminal(e.record.receipt))
    requires (exists f :: f in es && f.item.key == e.item.key) || Terminal(e.record.receipt)
             || forall f :: f in es && Unresolved(f.record) ==> !Conflict(f.record, e.record)
    ensures !Conflict(a.record, b.record)
  {
    if a == e || b == e {
      var o := if a == e then b else a;
      if exists f :: f in es && f.item.key == e.item.key {
        var f :| f in es && f.item.key == e.item.key;
        assert Unresolved(f.record) && f != o && !Conflict(f.record, o.record) && !Conflict(o.record, f.record);
      }
    }
  }
}
