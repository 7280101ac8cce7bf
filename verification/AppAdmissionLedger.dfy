/**
 One tab's ledger object over the storage that all tabs share. Its cache is by exact bytes, so every
 answer is what a fresh decoding of storage would give. Each method is proved to write and to answer
 what the plans of `AdmissionLedger` say.
 */
module AppAdmissionLedger {
  import opened Wrappers
  import opened AdmissionRecovery
  import L = AdmissionLedger
  import S = AdmissionLedgerSafety

  class LocalStorage {
    var items: seq<L.Item>

    method SetItem(item: L.Item)
      modifies this
      ensures items == L.Store(old(items), item)
    {
      items := L.Store(items, item);
    }

    method RemoveItem(key: nat)
      modifies this
      ensures items == L.Erase(old(items), key)
    {
      items := L.Erase(items, key);
    }
  }

  class AppAdmissionLedger {
    const codec: L.Codec
    const scope: nat
    const storage: LocalStorage
    var verified: map<nat, L.Entry>

    constructor (codec: L.Codec, scope: nat, storage: LocalStorage)
      ensures this.codec == codec && this.scope == scope && this.storage == storage && CacheOk()
    {
      this.codec, this.scope, this.storage := codec, scope, storage;
      verified := map[];
    }

    /** Whatever is cached is what decoding its bytes gives. */
    ghost predicate CacheOk()
      reads this
    {
      forall key :: key in verified ==>
        verified[key].item.key == key && L.DecodeEntry(codec, scope, verified[key].item) == Ok(verified[key])
    }

    method DecodeEntry(item: L.Item) returns (r: Result<L.Entry>)
      requires CacheOk()
      ensures r == L.DecodeEntry(codec, scope, item)
    {
      hide L.DecodeEntry;
      if item.key in verified && verified[item.key].item.raw == item.raw { return Ok(verified[item.key]); }
      r := L.DecodeEntry(codec, scope, item);
    }

    /** All of storage, decoded, through the cache. */
    method VerifiedRead() returns (r: Result<seq<L.Entry>>)
      requires CacheOk()
      modifies this
      ensures CacheOk() && r == L.ReadAll(codec, scope, storage.items)
    {
      hide L.DecodeEntry;
      var items := storage.items;
      verified := map key | key in verified && exists i :: 0 <= i < |items| && items[i].key == key :: verified[key];
      var entries: seq<L.Entry> := [];
      var i := 0;
      while i < |items|
        invariant 0 <= i <= |items| && CacheOk()
        invariant L.ReadAll(codec, scope, items[..i]) == Ok(entries)
      {
        var decoded := DecodeEntry(items[i]);
        ReadStep(items, i);
        if decoded.Refused? { return Refused; }
        verified := verified[items[i].key := decoded.value];
        entries := entries + [decoded.value];
        i := i + 1;
      }
      assert items[..i] == items;
      r := Ok(entries);
    }

    lemma ReadStep(items: seq<L.Item>, i: nat)
      requires i < |items| && L.ReadAll(codec, scope, items[..i]).Ok?
      ensures
        var e := L.DecodeEntry(codec, scope, items[i]);
        if e.Refused? then L.ReadAll(codec, scope, items).Refused?
        else L.ReadAll(codec, scope, items[..i + 1]) == Ok(L.ReadAll(codec, scope, items[..i]).value + [e.value])
    {
      hide L.DecodeEntry;
      ReadConcat(items[..i], [items[i]]);
      ReadConcat(items[..i], items[i..]);
      assert items[..i + 1] == items[..i] + [items[i]] && items == items[..i] + items[i..];
      assert [items[i]][1..] == [];
      assert L.ReadAll(codec, scope, [items[i]]) == if L.DecodeEntry(codec, scope, items[i]).Refused? then Refused
                                                    else Ok([L.DecodeEntry(codec, scope, items[i]).value] + []);
      assert L.DecodeEntry(codec, scope, items[i]).Ok? ==>
        [L.DecodeEntry(codec, scope, items[i]).value] + [] == [L.DecodeEntry(codec, scope, items[i]).value];
    }

    lemma {:induction false} ReadConcat(a: seq<L.Item>, b: seq<L.Item>)
      ensures
        var x, y := L.ReadAll(codec, scope, a), L.ReadAll(codec, scope, b);
        L.ReadAll(codec, scope, a + b) == if x.Refused? || y.Refused? then Refused else Ok(x.value + y.value)
    {
      hide L.DecodeEntry;
      if a == [] {
        assert a + b == b;
        if L.ReadAll(codec, scope, b).Ok? { assert [] + L.ReadAll(codec, scope, b).value == L.ReadAll(codec, scope, b).value; }
      } else {
        assert (a + b)[1..] == a[1..] + b;
        ReadConcat(a[1..], b);
        var x, y := L.ReadAll(codec, scope, a), L.ReadAll(codec, scope, b);
        if x.Ok? && y.Ok? {
          assert x.value + y.value == [x.value[0]] + (L.ReadAll(codec, scope, a[1..]).value + y.value);
        }
      }
    }

    method RemoveEntry(e: L.Entry)
      requires CacheOk()
      modifies this, storage
      ensures CacheOk() && storage.items == L.ApplyOne(old(storage.items), L.Remove(e))
    {
      storage.RemoveItem(e.item.key);
      verified := map key | key in verified && key != e.item.key :: verified[key];
    }

    static method Totals(entries: seq<L.Entry>) returns (bytes: nat, terminals: nat)
      ensures bytes == L.Bytes(entries) && terminals == L.Terminals(entries)
    {
      bytes, terminals := 0, 0;
      var i := |entries|;
      while i > 0
        invariant 0 <= i <= |entries|
        invariant bytes == L.Bytes(entries[i..]) && terminals == L.Terminals(entries[i..])
      {
        i := i - 1;
        assert entries[i..][1..] == entries[i + 1..];
        bytes := bytes + entries[i].reserved;
        terminals := terminals + L.CountExpirable(entries[i]);
      }
    }

    static function IndexOf(es: seq<L.Entry>, e: L.Entry): (i: nat)
      requires e in es
      ensures i < |es| && es[i] == e && e !in es[..i]
    {
      if es[0] == e then 0 else assert es[1..][..IndexOf(es[1..], e)] == es[1..IndexOf(es[1..], e) + 1]; IndexOf(es[1..], e) + 1
    }

    /** Take one entry out. */
    static function Spliced(es: seq<L.Entry>, e: L.Entry): seq<L.Entry>
      requires e in es
    {
      var i := IndexOf(es, e);
      es[..i] + es[i + 1..]
    }

    /** Give up the oldest expirable entries until the rest is in range. */
    method Retain(entries: seq<L.Entry>, protected: Option<nat>) returns (retained: seq<L.Entry>)
      requires CacheOk() && S.Distinct(entries)
      modifies this, storage
      ensures CacheOk() && retained == L.Retained(entries, protected)
      ensures storage.items == L.Apply(old(storage.items), L.Removals(L.Victims(entries, protected)))
    {
      hide L.Expirable, L.CanExpire, L.ApplyOne, L.Cut, L.Kept, L.Expired, L.Apply, L.Sum, L.Bytes, L.Terminals, L.Retained, L.Victims, Spliced, S.Distinct;
      retained := entries;
      var bytes, terminals := Totals(entries);
      var i := 0;
      CutNothing(entries, protected, storage.items);
      while i < |entries| && !(|retained| <= L.MAX_RECORDS && bytes <= L.MAX_BYTES && terminals <= L.MAX_TERMINAL_RECORDS)
        invariant 0 <= i <= |entries| && CacheOk()
        invariant retained == L.Cut(entries, protected, i)
        invariant bytes == L.Bytes(retained) && terminals == L.Terminals(retained)
        invariant forall k :: 0 <= k < i ==> !L.InRange(L.Cut(entries, protected, k))
        invariant storage.items == L.Apply(old(storage.items), L.Removals(L.Expired(entries[..i], protected)))
      {
        var entry := entries[i];
        CutStep(entries, protected, i);
        if L.Expirable(entry, protected) {
          ghost var gone := L.Expired(entries[..i], protected);
          ApplyMore(old(storage.items), gone, entry);
          SplicedIs(entries, protected, i);
          ghost var before := retained;
          RemoveEntry(entry);
          retained := Spliced(retained, entry);
          SplicedSums(before, entry, protected);
          bytes := bytes - entry.reserved;
          terminals := terminals - 1;
        }
        i := i + 1;
      }
      CutPointIs(entries, protected, i);
    }

    static lemma {:induction false} KeptConcat(a: seq<L.Entry>, b: seq<L.Entry>, protected: Option<nat>)
      ensures L.Kept(a + b, protected) == L.Kept(a, protected) + L.Kept(b, protected)
      ensures L.Expired(a + b, protected) == L.Expired(a, protected) + L.Expired(b, protected)
    {
      hide L.Expirable;
      if a == [] {
        assert a + b == b;
      } else {
        assert (a + b)[1..] == a[1..] + b;
        KeptConcat(a[1..], b, protected);
      }
    }

    static lemma CutStep(es: seq<L.Entry>, protected: Option<nat>, i: nat)
      requires i < |es|
      ensures L.Kept(es[..i + 1], protected) == if L.Expirable(es[i], protected) then L.Kept(es[..i], protected) else L.Kept(es[..i], protected) + [es[i]]
      ensures L.Expired(es[..i + 1], protected) == if L.Expirable(es[i], protected) then L.Expired(es[..i], protected) + [es[i]] else L.Expired(es[..i], protected)
      ensures L.Expirable(es[i], protected) || L.Cut(es, protected, i + 1) == L.Cut(es, protected, i)
    {
      hide L.Expirable;
      assert es[..i + 1] == es[..i] + [es[i]];
      KeptConcat(es[..i], [es[i]], protected);
      assert es[i..] == [es[i]] + es[i + 1..];
      if !L.Expirable(es[i], protected) {
        assert L.Kept([es[i]], protected) == [es[i]];
        assert L.Kept(es[..i], protected) + [es[i]] + es[i + 1..] == L.Kept(es[..i], protected) + es[i..];
      }
    }

    static lemma SplicedIs(es: seq<L.Entry>, protected: Option<nat>, i: nat)
      requires S.Distinct(es) && i < |es| && L.Expirable(es[i], protected)
      ensures es[i] in L.Cut(es, protected, i)
      ensures Spliced(L.Cut(es, protected, i), es[i]) == L.Cut(es, protected, i + 1)
    {
      hide L.Expirable;
      var kept := L.Kept(es[..i], protected);
      var cut := L.Cut(es, protected, i);
      assert cut[|kept|] == es[i];
      assert es[i] !in kept by {
        if es[i] in kept { KeptIn(es[..i], protected, es[i]); }
      }
      assert IndexOf(cut, es[i]) == |kept|;
      CutStep(es, protected, i);
      assert cut[|kept| + 1..] == es[i + 1..];
    }

    static lemma {:induction false} KeptIn(es: seq<L.Entry>, protected: Option<nat>, e: L.Entry)
      ensures e in L.Kept(es, protected) ==> e in es && !L.Expirable(e, protected)
    {
      if es != [] { KeptIn(es[1..], protected, e); }
    }

    static lemma SplicedSums(es: seq<L.Entry>, e: L.Entry, protected: Option<nat>)
      requires e in es && L.Expirable(e, protected)
      ensures L.Bytes(es) == L.Bytes(Spliced(es, e)) + e.reserved
      ensures L.Terminals(es) == L.Terminals(Spliced(es, e)) + 1
    {
      SplicedSum(es, e, L.Size);
      SplicedSum(es, e, L.CountExpirable);
    }

    static lemma SplicedSum(es: seq<L.Entry>, e: L.Entry, weight: L.Entry -> nat)
      requires e in es
      ensures L.Sum(es, weight) == L.Sum(Spliced(es, e), weight) + weight(e)
    {
      var i := IndexOf(es, e);
      assert es == es[..i] + ([e] + es[i + 1..]);
      S.SumConcat(es[..i], [e] + es[i + 1..], weight);
      S.SumConcat([e], es[i + 1..], weight);
      S.SumConcat(es[..i], es[i + 1..], weight);
      assert L.Sum([e], weight) == weight(e);
    }

    static lemma {:induction false} ApplyConcat(items: seq<L.Item>, ws: seq<L.Write>, us: seq<L.Write>)
      ensures L.Apply(items, ws + us) == L.Apply(L.Apply(items, ws), us)
      decreases |ws|
    {
      if ws == [] {
        assert ws + us == us;
      } else {
        assert (ws + us)[1..] == ws[1..] + us;
        ApplyConcat(L.ApplyOne(items, ws[0]), ws[1..], us);
      }
    }

    static lemma ApplyLast(items: seq<L.Item>, ws: seq<L.Write>, w: L.Write)
      ensures L.Apply(items, ws + [w]) == L.ApplyOne(L.Apply(items, ws), w)
    {
      ApplyConcat(items, ws, [w]);
      assert [w][1..] == [];
      assert L.Apply(L.Apply(items, ws), [w]) == L.Apply(L.ApplyOne(L.Apply(items, ws), w), []);
    }

    static lemma ApplyMore(items: seq<L.Item>, gone: seq<L.Entry>, e: L.Entry)
      ensures L.Apply(items, L.Removals(gone + [e])) == L.ApplyOne(L.Apply(items, L.Removals(gone)), L.Remove(e))
    {
      assert L.Removals(gone + [e]) == L.Removals(gone) + [L.Remove(e)];
      ApplyLast(items, L.Removals(gone), L.Remove(e));
    }

    static lemma CutNothing(es: seq<L.Entry>, protected: Option<nat>, items: seq<L.Item>)
      ensures L.Cut(es, protected, 0) == es && L.Apply(items, L.Removals(L.Expired(es[..0], protected))) == items
    {
      assert es[..0] == [] && L.Removals([]) == [];
    }

    static lemma {:induction false} CutPointFrom(es: seq<L.Entry>, protected: Option<nat>, n: nat, i: nat)
      requires n <= i <= |es| && (i == |es| || L.InRange(L.Cut(es, protected, i)))
      requires forall k :: n <= k < i ==> !L.InRange(L.Cut(es, protected, k))
      ensures L.CutPoint(es, protected, n) == i
      decreases i - n
    {
      if n < i { CutPointFrom(es, protected, n + 1, i); }
    }

    static lemma CutPointIs(es: seq<L.Entry>, protected: Option<nat>, i: nat)
      requires i <= |es| && (i == |es| || L.InRange(L.Cut(es, protected, i)))
      requires forall k :: 0 <= k < i ==> !L.InRange(L.Cut(es, protected, k))
      ensures L.Retained(es, protected) == L.Cut(es, protected, i)
      ensures L.Victims(es, protected) == L.Expired(es[..i], protected)
    {
      CutPointFrom(es, protected, 0, i);
    }

    // ----- Writing one record

    static lemma {:induction false} ExpiredFirst(es: seq<L.Entry>, protected: Option<nat>)
      requires L.Expired(es, protected) != []
      ensures
        var oldest := L.Expired(es, protected)[0];
        && oldest in es && L.Expirable(oldest, protected)
        && L.Expired(Spliced(es, oldest), protected) == L.Expired(es, protected)[1..]
    {
      hide L.Expirable;
      var oldest := L.Expired(es, protected)[0];
      if L.Expirable(es[0], protected) {
        assert IndexOf(es, es[0]) == 0;
        assert Spliced(es, es[0]) == es[1..];
      } else {
        ExpiredFirst(es[1..], protected);
        assert es[0] != oldest;
        assert Spliced(es, oldest) == [es[0]] + Spliced(es[1..], oldest);
      }
    }

    /** The oldest entry that may give way. */
    static method Oldest(es: seq<L.Entry>, protected: Option<nat>) returns (oldest: Option<L.Entry>)
      ensures L.Expired(es, protected) == [] ==> oldest.None?
      ensures L.Expired(es, protected) != [] ==> oldest == Some(L.Expired(es, protected)[0])
    {
      hide L.Expirable;
      var i := 0;
      while i < |es|
        invariant 0 <= i <= |es|
        invariant L.Expired(es[i..], protected) == L.Expired(es, protected)
      {
        if L.Expirable(es[i], protected) { return Some(es[i]); }
        assert es[i..][1..] == es[i + 1..];
        i := i + 1;
      }
      oldest := None;
    }

    /** Store, giving up the oldest expirable entry each time the quota refuses. */
    method SetItem(item: L.Item, kept: seq<L.Entry>, weather: L.Weather) returns (ok: bool)
      requires CacheOk()
      modifies this, storage
      ensures CacheOk()
      ensures
        var room := L.Expired(kept, Some(item.key));
        if weather.full > |room| then
          !ok && storage.items == L.Apply(old(storage.items), L.Removals(room))
        else
          var cleared := L.Apply(old(storage.items), L.Removals(room[..weather.full]));
          ok == !weather.broken && storage.items == if ok then L.Store(cleared, item) else cleared
    {
      hide L.Apply, L.ApplyOne, L.Expired, L.Expirable, Spliced, L.Removals, L.Store;
      var retained := kept;
      ghost var room := L.Expired(kept, Some(item.key));
      ghost var m := 0;
      var left: nat := weather.full;
      NoRemovals(storage.items, room);
      while left > 0
        invariant left + m == weather.full && m <= |room| && CacheOk()
        invariant L.Expired(retained, Some(item.key)) == room[m..]
        invariant storage.items == L.Apply(old(storage.items), L.Removals(room[..m]))
      {
        var oldest := Oldest(retained, Some(item.key));
        if oldest.None? {
          assert room[..m] == room;
          return false;
        }
        ExpiredFirst(retained, Some(item.key));
        ApplyMore(old(storage.items), room[..m], oldest.value);
        assert room[..m + 1] == room[..m] + [room[m]];
        RemoveEntry(oldest.value);
        retained := Spliced(retained, oldest.value);
        m := m + 1;
        left := left - 1;
      }
      assert m == weather.full;
      if weather.broken { return false; }
      storage.SetItem(item);
      ok := true;
    }

    static lemma NoRemovals(items: seq<L.Item>, room: seq<L.Entry>)
      ensures L.Apply(items, L.Removals(room[..0])) == items && room[0..] == room
    {
      assert L.Removals(room[..0]) == [];
    }

    ghost predicate Follows<T>(plan: L.Plan<T>, before: seq<L.Item>, after: seq<L.Item>, answer: Result<T>) {
      after == L.Apply(before, plan.writes) && answer == plan.answer
    }

    method Write(record: Record, entries: seq<L.Entry>, requireCapacity: bool, weather: L.Weather) returns (answer: Result<Record>)
      requires CacheOk() && S.Distinct(entries)
      modifies this, storage
      ensures CacheOk()
      ensures Follows(L.WritePlan(codec, scope, entries, record, requireCapacity, weather), old(storage.items), storage.items, answer)
    {
      hide L.DecodeEntry, L.Encode, L.Apply, L.ApplyOne, L.Retained, L.Victims, L.Expired, L.Removals, L.Without, S.Distinct, L.Store;
      ghost var before := storage.items;
      ApplyNothing(before);
      var raw := L.Encode(codec, record);
      if raw.Refused? { return Refused; }
      var key := L.RequestId(record);
      var decoded := DecodeEntry(L.Item(key, raw.value));
      if decoded.Refused? { return Refused; }
      var all := L.Without(entries, key) + [decoded.value];
      AllDistinct(entries, decoded.value);
      var kept := Retain(all, Some(key));
      ghost var first := L.Removals(L.Victims(all, Some(key)));
      if requireCapacity && (|kept| > L.MAX_RECORDS || L.Bytes(kept) > L.MAX_BYTES) { return Refused; }
      ghost var room := L.Expired(kept, Some(key));
      var ok := SetItem(L.Item(key, raw.value), kept, weather);
      ApplyConcat(before, first, L.Removals(if weather.full > |room| then room else room[..weather.full]));
      if !ok { return Refused; }
      ApplyLast(before, first + L.Removals(room[..weather.full]), L.Put(decoded.value));
      ApplyPut(L.Apply(before, first + L.Removals(room[..weather.full])), decoded.value);
      verified := verified[key := decoded.value];
      answer := Ok(decoded.value.record);
    }

    static lemma ApplyNothing(items: seq<L.Item>)
      ensures L.Apply(items, []) == items
    {
    }

    static lemma ApplyPut(items: seq<L.Item>, e: L.Entry)
      ensures L.ApplyOne(items, L.Put(e)) == L.Store(items, e.item)
    {
    }

    static lemma AllDistinct(es: seq<L.Entry>, e: L.Entry)
      requires S.Distinct(es)
      ensures S.Distinct(L.Without(es, e.item.key) + [e])
    {
      S.WithoutIsDrop(es, e.item.key);
      S.DropDistinct(es, {e.item.key});
      forall f | f in L.Without(es, e.item.key) ensures f.item.key != e.item.key { S.InDrop(es, {e.item.key}, f); }
    }

    // ----- The operations, each under the cross-tab lock

    /** The plan of an operation on what storage holds; nothing if it cannot be read. */
    ghost function Planned<T>(items: seq<L.Item>, plan: seq<L.Entry> -> L.Plan<T>): L.Plan<T> {
      var es := L.ReadAll(codec, scope, items);
      if es.Refused? then L.Plan([], Refused) else plan(es.value)
    }

    /** Storage never holds a key twice. */
    ghost predicate DistinctKeys(items: seq<L.Item>) {
      forall i, j :: 0 <= i < j < |items| ==> items[i].key != items[j].key
    }

    lemma ReadDistinct(items: seq<L.Item>)
      requires DistinctKeys(items) && L.ReadAll(codec, scope, items).Ok?
      ensures S.Distinct(L.ReadAll(codec, scope, items).value)
    {
      S.ReadAllSound(codec, scope, items);
      var es := L.ReadAll(codec, scope, items).value;
      ItemsAt(es);
    }

    static lemma {:induction false} ItemsAt(es: seq<L.Entry>)
      ensures |S.Items(es)| == |es| && forall i :: 0 <= i < |es| ==> S.Items(es)[i] == es[i].item
    {
      if es != [] { ItemsAt(es[1..]); }
    }

    method Read() returns (answer: Result<seq<L.Entry>>)
      requires CacheOk() && DistinctKeys(storage.items)
      modifies this, storage
      ensures CacheOk()
      ensures Follows(Planned(old(storage.items), es => L.ReadPlan(es)), old(storage.items), storage.items, answer)
    {
      hide L.DecodeEntry, L.ReadAll, L.Retained, L.Victims, L.Removals, S.Distinct;
      ApplyNothing(storage.items);
      var entries := VerifiedRead();
      if entries.Refused? { return Refused; }
      ReadDistinct(storage.items);
      var retained := Retain(entries.value, None);
      answer := Ok(retained);
    }

    method Reserve(record: Record, weather: L.Weather) returns (answer: Result<Record>)
      requires CacheOk() && DistinctKeys(storage.items)
      modifies this, storage
      ensures CacheOk()
      ensures Follows(Planned(old(storage.items), es => L.ReservePlan(codec, scope, es, record, weather)), old(storage.items), storage.items, answer)
    {
      hide L.DecodeEntry, L.ReadAll, L.WritePlan, S.Distinct, L.Blocked;
      ApplyNothing(storage.items);
      var entries := VerifiedRead();
      if entries.Refused? { return Refused; }
      ReadDistinct(storage.items);
      if L.Find(entries.value, L.RequestId(record)).Some? || L.Blocked(entries.value, record) { return Refused; }
      answer := Write(record, entries.value, true, weather);
    }

    method Settle(record: Record, evidence: Evidence, weather: L.Weather) returns (answer: Result<Record>)
      requires CacheOk() && DistinctKeys(storage.items)
      modifies this, storage
      ensures CacheOk()
      ensures Follows(Planned(old(storage.items), es => L.SettlePlan(codec, scope, es, record, evidence, weather)), old(storage.items), storage.items, answer)
    {
      hide L.DecodeEntry, L.ReadAll, L.WritePlan, S.Distinct, AdmissionRecovery.Settle;
      ApplyNothing(storage.items);
      var entries := VerifiedRead();
      if entries.Refused? { return Refused; }
      ReadDistinct(storage.items);
      var previous := L.Find(entries.value, L.RequestId(record));
      var observed := AdmissionRecovery.Settle(record, evidence);
      if observed.Refused? { return Refused; }
      var merged := observed;
      if previous.None? {
        if !Terminal(Incoming(evidence)) { return Refused; }
      } else {
        merged := AdmissionRecovery.Settle(previous.value.record, L.Relayed(observed.value));
      }
      if merged.Refused? { return Refused; }
      answer := Write(merged.value, entries.value, false, weather);
    }

    /** An explicit discard, which also removes terminal records that never expire by themselves. */
    method RemoveTerminal(record: Record) returns (answer: Result<()>)
      requires CacheOk() && DistinctKeys(storage.items)
      modifies this, storage
      ensures CacheOk()
      ensures Follows(Planned(old(storage.items), es => L.RemovePlan(es, record)), old(storage.items), storage.items, answer)
    {
      hide L.DecodeEntry, L.ReadAll, AdmissionRecovery.Settle, L.ApplyOne;
      ApplyNothing(storage.items);
      var entries := VerifiedRead();
      if entries.Refused? { return Refused; }
      var found := L.Find(entries.value, L.RequestId(record));
      if found.None? { return Ok(()); }
      if L.Unresolved(found.value.record) { return Refused; }
      if AdmissionRecovery.Settle(record, Bare(found.value.record.receipt.value)).Refused? { return Refused; }
      ApplyLast(storage.items, [], L.Remove(found.value));
      assert [] + [L.Remove(found.value)] == [L.Remove(found.value)];
      RemoveEntry(found.value);
      answer := Ok(());
    }
  }
}
