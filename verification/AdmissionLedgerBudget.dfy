/**
 The budget of the ledger: what is accepted can always be finished. Room for a terminal receipt is
 reserved while a request is in doubt, so its settlement needs no more than it had.
 */
module AdmissionLedgerBudget {
  import opened Wrappers
  import opened AdmissionRecovery
  import opened AdmissionLedger
  import opened AdmissionLedgerSafety
  import opened AdmissionLedgerRuns

  // ----- Sums of changed ledgers

  lemma {:induction false} WithoutSum(es: seq<Entry>, e: Entry, weight: Entry -> nat)
    requires Distinct(es) && e in es
    ensures Sum(es, weight) == Sum(Without(es, e.item.key), weight) + weight(e)
  {
    if es[0].item.key == e.item.key {
      DistinctKey(es, es[0], e);
      forall f | f in es[1..] ensures f.item.key !in {e.item.key} { }
      DropNone(es[1..], {e.item.key});
      WithoutIsDrop(es[1..], e.item.key);
    } else {
      WithoutSum(es[1..], e, weight);
    }
  }

  lemma {:induction false} PutSum(es: seq<Entry>, e: Entry, weight: Entry -> nat)
    requires Distinct(es)
    ensures Sum(Put1(es, e), weight) == Sum(Without(es, e.item.key), weight) + weight(e)
  {
    if es == [] {
    } else if es[0].item.key == e.item.key {
      forall f | f in es[1..] ensures f.item.key !in {e.item.key} { }
      DropNone(es[1..], {e.item.key});
      WithoutIsDrop(es[1..], e.item.key);
      assert Put1(es, e)[1..] == es[1..];
    } else {
      PutSum(es[1..], e, weight);
      assert Put1(es, e)[1..] == Put1(es[1..], e);
    }
  }

  lemma {:induction false} DropMore(es: seq<Entry>, keys: set<nat>, more: set<nat>, weight: Entry -> nat)
    requires keys <= more
    ensures Sum(Drop(es, more), weight) <= Sum(Drop(es, keys), weight)
  {
    if es != [] { DropMore(es[1..], keys, more, weight); }
  }

  // ----- Storing what was settled

  /** The ledger only holds what it wrote: a terminal record is written without doubt. */
  ghost predicate Tidy(c: Codec, es: seq<Entry>) {
    forall e :: e in es && Terminal(e.record.receipt) ==> e.item.raw == c.text(e.record) && !e.record.uncertain
  }

  /** A settled record fits where its request was: no accepted record is refused by the record limit
      when its terminal receipt arrives, and it never takes more than what was reserved. */
  lemma SettledFits(c: Codec, scope: nat, previous: Entry, e: Evidence)
    requires CodecOk(c) && DecodeEntry(c, scope, previous.item) == Ok(previous)
    requires Settle(previous.record, e).Ok?
    requires Incoming(e).Some? ==> c.receiptSize(Incoming(e).value) <= MAX_RECEIPT_BYTES
    requires Terminal(previous.record.receipt) ==> previous.item.raw == c.text(previous.record) && !previous.record.uncertain
    ensures
      var r := Settle(previous.record, e).value;
      && Encode(c, r).Ok? && Written(c, scope, r).Ok?
      && Written(c, scope, r).value.reserved <= previous.reserved
  {
    var r := Settle(previous.record, e).value;
    SettledFrozen(previous.record, e);
    SettledFlag(previous.record, e);
    assert Base(c, r) == Base(c, previous.record);
    SettledReceipt(previous.record, e);
    if Terminal(previous.record.receipt) {
      assert r == previous.record;
    } else {
      assert c.size(c.text(r)) <= Base(c, previous.record) + MAX_RECEIPT_BYTES;
    }
  }

  lemma SettledReceipt(r: Record, e: Evidence)
    requires Settle(r, e).Ok?
    ensures Settle(r, e).value.receipt == r.receipt || Settle(r, e).value.receipt == Incoming(e)
  {
  }

  /** A terminal record that was reserved as uncertain takes one byte more once it is settled, and it is
      the only record whose settlement takes more. */
  lemma SettlingGrowsIff(c: Codec, scope: nat, r: Record, e: Evidence)
    requires CodecOk(c) && Written(c, scope, r).Ok? && Settle(r, e).Ok?
    requires Incoming(e).Some? ==> c.receiptSize(Incoming(e).value) <= MAX_RECEIPT_BYTES
    requires Written(c, scope, Settle(r, e).value).Ok?
    ensures Written(c, scope, Settle(r, e).value).value.reserved > Written(c, scope, r).value.reserved
            <==> Terminal(r.receipt) && r.uncertain
  {
    var s := Settle(r, e).value;
    WrittenIs(c, scope, r);
    SettledFrozen(r, e);
    SettledFlag(r, e);
    if !Terminal(r.receipt) {
      WrittenDecodes(c, scope, r);
      SettledFits(c, scope, Written(c, scope, r).value, e);
    } else {
      WrittenIs(c, scope, s);
      assert s == r.(uncertain := false);
    }
  }

  lemma WrittenDecodes(c: Codec, scope: nat, r: Record)
    requires CodecOk(c) && Written(c, scope, r).Ok?
    ensures DecodeEntry(c, scope, Written(c, scope, r).value.item) == Written(c, scope, r)
  {
  }

  /** A request for a new conversation that was rejected already, and yet is handed over as uncertain. */
  function Doubtful(c: Codec, scope: nat): Record {
    var intent := Intent(NewConversation, None, None, None, 0, 0);
    var key := Key(scope, 0, c.sha256(intent));
    Record(Frozen(scope, Envelope(key, intent), 0, Stamp(0, 0, 0), None, 0), Some(Receipt(key, Rejected(0))), true)
  }

  /** There is such a record: an empty ledger takes it in, as long as the codec writes it in few enough bytes, and
      its settlement with its own receipt raises the reserved total by one. */
  lemma DoubtfulGrows(c: Codec, scope: nat)
    requires CodecOk(c)
    requires
      var r := Doubtful(c, scope);
      && c.receiptSize(r.receipt.value) <= MAX_RECEIPT_BYTES && c.frozenSize(r.frozen) + c.receiptSize(r.receipt.value) + 5 <= MAX_RECORD_BYTES
      && c.keySize(0) + c.frozenSize(r.frozen) + c.receiptSize(r.receipt.value) + 5 <= MAX_BYTES
    ensures
      var r, calm := Doubtful(c, scope), Weather(0, false);
      var reserved := ReservePlan(c, scope, [], r, calm);
      var es := WriteAll([], reserved.writes);
      var settled := SettlePlan(c, scope, es, r, Bare(r.receipt.value), calm);
      && Terminal(r.receipt) && r.uncertain && reserved.answer == Ok(r) && settled.answer == Ok(r.(uncertain := false))
      && Bytes(WriteAll(es, settled.writes)) == Bytes(es) + 1
  {
    hide DecodeEntry, Encode, WritePlan;
    var r, calm := Doubtful(c, scope), Weather(0, false);
    var s := r.(uncertain := false);
    var e := DoubtfulWritten(c, scope, r);
    var f := DoubtfulWritten(c, scope, s);
    WritesAlone(c, scope, [], r, e, true);
    WritesAlone(c, scope, [e], s, f, false);
    assert WriteAll([], [Put(e)]) == WriteAll(Put1([], e), []) && WriteAll([e], [Put(f)]) == WriteAll(Put1([e], f), []);
    assert [e][1..] == [] && [f][1..] == [];
  }

  lemma DoubtfulWritten(c: Codec, scope: nat, r: Record) returns (e: Entry)
    requires CodecOk(c) && r.(uncertain := true) == Doubtful(c, scope)
    requires
      && c.receiptSize(r.receipt.value) <= MAX_RECEIPT_BYTES && c.frozenSize(r.frozen) + c.receiptSize(r.receipt.value) + 5 <= MAX_RECORD_BYTES
      && c.keySize(0) + c.frozenSize(r.frozen) + c.receiptSize(r.receipt.value) + 5 <= MAX_BYTES
    ensures Written(c, scope, r) == Ok(e) && e.record == r && e.item.key == 0
    ensures e.reserved == c.keySize(0) + c.frozenSize(r.frozen) + c.receiptSize(r.receipt.value) + (if r.uncertain then 4 else 5)
  {
    e := Written(c, scope, r).value;
  }

  lemma SumSingle(e: Entry, weight: Entry -> nat)
    ensures Sum([e], weight) == weight(e)
  {
    assert [e][1..] == [];
  }

  /** A record that shares the ledger with no other is just written. */
  lemma WritesAlone(c: Codec, scope: nat, es: seq<Entry>, r: Record, e: Entry, requireCapacity: bool)
    requires Written(c, scope, r) == Ok(e) && e.record == r && Without(es, RequestId(r)) == [] && e.reserved <= MAX_BYTES
    ensures WritePlan(c, scope, es, r, requireCapacity, Weather(0, false)) == Plan([Put(e)], Ok(r))
  {
    hide DecodeEntry, Encode;
    var all := [e];
    assert Without(es, RequestId(r)) + [e] == all;
    assert all[..0] == [] && all[0..] == all && all[1..] == [];
    SumSingle(e, Size);
    SumSingle(e, CountExpirable);
    assert Bytes(all) == e.reserved && Terminals(all) <= 1;
    assert Cut(all, Some(RequestId(r)), 0) == all;
    assert CutPoint(all, Some(RequestId(r)), 0) == 0;
    assert Removals([]) == [];
  }

  // ----- The budget of runs

  ghost predicate WithinBudget(es: seq<Entry>) {
    |es| <= MAX_RECORDS && Bytes(es) <= MAX_BYTES && Terminals(es) <= MAX_TERMINAL_RECORDS
  }

  lemma DropBudget(es: seq<Entry>, keys: set<nat>)
    requires WithinBudget(es)
    ensures WithinBudget(Drop(es, keys))
  {
    DropSum(es, keys, Size);
    DropSum(es, keys, CountExpirable);
    DropSum(es, keys, Count);
    SumOfCount(es);
    SumOfCount(Drop(es, keys));
  }

  /** What is there after a write: never more than what retention left. */
  lemma PutWithin(es: seq<Entry>, gone: seq<Entry>, e: Entry, weight: Entry -> nat)
    requires Distinct(es) && forall f :: f in gone ==> f.item.key != e.item.key
    requires forall f :: f in Victims(Without(es, e.item.key) + [e], Some(e.item.key)) ==> f in gone
    ensures Sum(Put1(Drop(es, KeysOf(gone)), e), weight) <= Sum(Retained(Without(es, e.item.key) + [e], Some(e.item.key)), weight)
  {
    hide Retained, Victims;
    var key := e.item.key;
    var all := Without(es, key) + [e];
    AllDistinct(es, e);
    RetainedIsDrop(all, Some(key));
    var few, many := KeysOf(Victims(all, Some(key))), KeysOf(gone);
    assert few <= many;
    DropMore(all, few, many, weight);
    DropDistinct(es, many);
    PutSum(Drop(es, many), e, weight);
    WithoutIsDrop(Drop(es, many), key);
    WithoutIsDrop(es, key);
    DropTwice(es, many, {key});
    DropTwice(es, {key}, many);
    assert many + {key} == {key} + many;
    DropConcat(Without(es, key), [e], many);
    SumConcat(Drop(Without(es, key), many), [e], weight);
    assert key !in many;
    assert Drop([e], many) == [e];
  }

  lemma PutBudget(es: seq<Entry>, gone: seq<Entry>, e: Entry)
    requires Distinct(es) && forall f :: f in gone ==> f.item.key != e.item.key
    requires forall f :: f in Victims(Without(es, e.item.key) + [e], Some(e.item.key)) ==> f in gone
    requires
      var kept := Retained(Without(es, e.item.key) + [e], Some(e.item.key));
      |kept| <= MAX_RECORDS && Bytes(kept) <= MAX_BYTES
    ensures WithinBudget(Put1(Drop(es, KeysOf(gone)), e))
  {
    hide Retained, Victims;
    var kept := Retained(Without(es, e.item.key) + [e], Some(e.item.key));
    PutWithin(es, gone, e, Size);
    PutWithin(es, gone, e, CountExpirable);
    PutWithin(es, gone, e, Count);
    SumOfCount(kept);
    SumOfCount(Put1(Drop(es, KeysOf(gone)), e));
    AllDistinct(es, e);
    RetainedTerminals(Without(es, e.item.key) + [e], Some(e.item.key));
  }

  /** Replacing a record by one that takes no more leaves room. */
  lemma ReplacedWithin(es: seq<Entry>, previous: Entry, e: Entry)
    requires Distinct(es) && previous in es && previous.item.key == e.item.key && e.reserved <= previous.reserved
    requires |es| <= MAX_RECORDS && Bytes(es) <= MAX_BYTES
    ensures
      var kept := Retained(Without(es, e.item.key) + [e], Some(e.item.key));
      |kept| <= MAX_RECORDS && Bytes(kept) <= MAX_BYTES && Bytes(kept) <= Bytes(es)
  {
    hide Retained, Victims;
    var key := e.item.key;
    var all := Without(es, key) + [e];
    AllDistinct(es, e);
    RetainedIsDrop(all, Some(key));
    var keys := KeysOf(Victims(all, Some(key)));
    WithoutSum(es, previous, Size);
    WithoutSum(es, previous, Count);
    SumConcat(Without(es, key), [e], Size);
    assert Sum([e], Size) == e.reserved;
    SumOfCount(es);
    SumOfCount(Without(es, key));
    DropSum(all, keys, Size);
    DropSum(all, keys, Count);
    SumOfCount(all);
    SumOfCount(Drop(all, keys));
  }

  /** A reserved record is not a terminal one in doubt, a settlement finds its record, and receipts are
      within the limit that the codec enforces. */
  ghost predicate Ordinary(c: Codec, es: seq<Entry>, v: Event) {
    match v
    case Reserve(r, _) => Terminal(r.receipt) ==> !r.uncertain
    case Settles(r, e, _) =>
      && Find(es, RequestId(r)).Some?
      && (r.receipt.Some? ==> c.receiptSize(r.receipt.value) <= MAX_RECEIPT_BYTES)
      && (Incoming(e).Some? ==> c.receiptSize(Incoming(e).value) <= MAX_RECEIPT_BYTES)
    case _ => true
  }

  ghost predicate AllOrdinary(c: Codec, scope: nat, es: seq<Entry>, steps: seq<Step>)
    decreases |steps|
  {
    steps == [] || (Ordinary(c, es, steps[0].event) && AllOrdinary(c, scope, After(c, scope, es, steps[0]), steps[1..]))
  }

  ghost predicate BudgetOk(c: Codec, scope: nat, es: seq<Entry>) {
    LedgerOk(c, scope, es) && Tidy(c, es) && WithinBudget(es)
  }

  lemma DropTidy(c: Codec, es: seq<Entry>, keys: set<nat>)
    requires Tidy(c, es)
    ensures Tidy(c, Drop(es, keys))
  {
    forall e | e in Drop(es, keys) ensures e in es { InDrop(es, keys, e); }
  }

  lemma PutTidy(c: Codec, es: seq<Entry>, e: Entry)
    requires Tidy(c, es) && Distinct(es)
    requires Terminal(e.record.receipt) ==> e.item.raw == c.text(e.record) && !e.record.uncertain
    ensures Tidy(c, Put1(es, e))
  {
    forall f | f in Put1(es, e) ensures f == e || f in es { InPut(es, e, f); }
  }

  /** What an ordinary write leaves. */
  lemma WroteBudget(c: Codec, scope: nat, es: seq<Entry>, r: Record, requireCapacity: bool, weather: Weather)
    requires CodecOk(c) && BudgetOk(c, scope, es)
    requires Terminal(r.receipt) ==> !r.uncertain
    requires Written(c, scope, r).Ok? ==> MayWrite(c, scope, es, Written(c, scope, r).value)
    requires !requireCapacity && Written(c, scope, r).Ok? ==>
      exists p :: p in es && p.item.key == RequestId(r) && Written(c, scope, r).value.reserved <= p.reserved
    ensures
      var fs := WriteAll(es, WritePlan(c, scope, es, r, requireCapacity, weather).writes);
      WithinBudget(fs) && Tidy(c, fs) && (!requireCapacity ==> Bytes(fs) <= Bytes(es))
  {
    hide DecodeEntry, Encode, WritePlan, Retained, Victims, MayWrite, LawfulPut, Written, Sound, Exclusive, CodecOk, Bytes, Terminals;
    var ws := WritePlan(c, scope, es, r, requireCapacity, weather).writes;
    var gone, put := WriteShape(c, scope, es, r, requireCapacity, weather);
    LawfulOk(c, scope, es, ws, gone, put);
    var ds := Drop(es, KeysOf(gone));
    DropTidy(c, es, KeysOf(gone));
    if put.None? {
      DropBudget(es, KeysOf(gone));
      DropBytes(es, KeysOf(gone));
    } else {
      var e := put.value;
      WrittenIs(c, scope, r);
      PutKeys(c, scope, es, gone, e);
      DropDistinct(es, KeysOf(gone));
      PutTidy(c, ds, e);
      if !requireCapacity {
        var p :| p in es && p.item.key == e.item.key && e.reserved <= p.reserved;
        ReplacedWithin(es, p, e);
        PutWithinBytes(es, gone, e);
      }
      PutBudget(es, gone, e);
    }
  }

  lemma PutKeys(c: Codec, scope: nat, es: seq<Entry>, gone: seq<Entry>, e: Entry)
    requires LawfulPut(c, scope, es, gone, e)
    ensures forall f :: f in gone ==> f.item.key != e.item.key
  {
  }

  lemma DropBytes(es: seq<Entry>, keys: set<nat>)
    ensures Bytes(Drop(es, keys)) <= Bytes(es)
  {
    DropSum(es, keys, Size);
  }

  lemma PutWithinBytes(es: seq<Entry>, gone: seq<Entry>, e: Entry)
    requires Distinct(es) && forall f :: f in gone ==> f.item.key != e.item.key
    requires forall f :: f in Victims(Without(es, e.item.key) + [e], Some(e.item.key)) ==> f in gone
    ensures Bytes(Put1(Drop(es, KeysOf(gone)), e)) <= Bytes(Retained(Without(es, e.item.key) + [e], Some(e.item.key)))
  {
    hide Retained, Victims;
    PutWithin(es, gone, e, Size);
  }

  /** A settlement that finds its record never raises the reserved total. */
  lemma SettleNeverRaises(c: Codec, scope: nat, es: seq<Entry>, r: Record, e: Evidence, weather: Weather)
    requires CodecOk(c) && BudgetOk(c, scope, es) && Ordinary(c, es, Settles(r, e, weather))
    ensures
      var fs := WriteAll(es, SettlePlan(c, scope, es, r, e, weather).writes);
      WithinBudget(fs) && Tidy(c, fs) && Bytes(fs) <= Bytes(es)
  {
    hide DecodeEntry, Encode, WritePlan, MayWrite, Written, Settle, CodecOk, Exclusive, Tidy;
    var previous := Find(es, RequestId(r)).value;
    var observed := Settle(r, e);
    FindIs(c, scope, es, RequestId(r));
    if observed.Ok? {
      var relayed := Relayed(observed.value);
      SettledReceipt(r, e);
      var merged := Settle(previous.record, relayed);
      if merged.Ok? {
        if Terminal(previous.record.receipt) { PreviousTidy(c, es, previous); }
        SettledFits(c, scope, previous, relayed);
        SettledFlag(previous.record, relayed);
        SettledFrozen(previous.record, relayed);
        SettleMay(c, scope, es, previous, relayed);
        DecodedFacts(c, scope, previous);
        WroteBudget(c, scope, es, merged.value, false, weather);
      }
    }
  }

  lemma PreviousTidy(c: Codec, es: seq<Entry>, e: Entry)
    requires Tidy(c, es) && e in es && Terminal(e.record.receipt)
    ensures e.item.raw == c.text(e.record) && !e.record.uncertain
  {
  }

  lemma DroppedBudget(c: Codec, scope: nat, es: seq<Entry>, ws: seq<Write>, gone: seq<Entry>)
    requires BudgetOk(c, scope, es) && Lawful(c, scope, es, ws, gone, None)
    ensures WithinBudget(WriteAll(es, ws)) && Tidy(c, WriteAll(es, ws))
  {
    hide Sound, Exclusive, DecodeEntry, Conflict;
    LawfulOk(c, scope, es, ws, gone, None);
    DropBudget(es, KeysOf(gone));
    DropTidy(c, es, KeysOf(gone));
  }

  lemma EventBudget(c: Codec, scope: nat, es: seq<Entry>, v: Event)
    requires CodecOk(c) && BudgetOk(c, scope, es) && Ordinary(c, es, v)
    ensures
      var fs := WriteAll(es, Writes(c, scope, es, v));
      WithinBudget(fs) && Tidy(c, fs)
  {
    hide DecodeEntry, Encode, WritePlan, MayWrite, Written, CodecOk, Exclusive, Tidy, Sound, WithinBudget, Blocked, Distinct, Lawful, LawfulPut, SettlePlan, WriteAll;
    match v
    case Reserve(r, weather) =>
      if Find(es, RequestId(r)).None? && !Blocked(es, r) {
        if Written(c, scope, r).Ok? { ReserveMay(c, scope, es, r); }
        WroteBudget(c, scope, es, r, true, weather);
      } else {
        assert WriteAll(es, []) == es by { Nothing(es); }
      }
    case Settles(r, e, weather) => SettleNeverRaises(c, scope, es, r, e, weather);
    case _ =>
      var gone, put := EventShape(c, scope, es, v);
      assert put.None? by { OnlyRemoves(c, scope, es, v, gone, put); }
      DroppedBudget(c, scope, es, Writes(c, scope, es, v), gone);
  }

  lemma Nothing(es: seq<Entry>)
    ensures WriteAll(es, []) == es
  {
  }

  lemma OnlyRemoves(c: Codec, scope: nat, es: seq<Entry>, v: Event, gone: seq<Entry>, put: Option<Entry>)
    requires (v.Removes? || v.Reads?) && Lawful(c, scope, es, Writes(c, scope, es, v), gone, put)
    ensures put.None?
  {
    hide DecodeEntry, LawfulPut, Victims, Retained;
    var ws := Writes(c, scope, es, v);
    assert forall i :: 0 <= i < |ws| ==> ws[i].Remove?;
    var n := |ws|;
    assert n > 0 ==> ws[n - 1].Remove?;
  }

  lemma StepBudget(c: Codec, scope: nat, es: seq<Entry>, s: Step)
    requires CodecOk(c) && BudgetOk(c, scope, es) && Ordinary(c, es, s.event)
    ensures BudgetOk(c, scope, After(c, scope, es, s))
  {
    hide LedgerOk, Writes, CodecOk, Lawful, WithinBudget, Tidy, Ordinary;
    StepSafe(c, scope, es, s);
    var ws := Writes(c, scope, es, s.event);
    if s.dies.Some? && s.dies.value < |ws| {
      var gone, put := EventShape(c, scope, es, s.event);
      LawfulPrefix(c, scope, es, ws, gone, put, s.dies.value);
      DroppedBudget(c, scope, es, ws[..s.dies.value], gone[..s.dies.value]);
    } else {
      EventBudget(c, scope, es, s.event);
    }
  }

  lemma {:induction false} RunKeepsBudget(c: Codec, scope: nat, es: seq<Entry>, steps: seq<Step>)
    requires CodecOk(c) && BudgetOk(c, scope, es) && AllOrdinary(c, scope, es, steps)
    ensures BudgetOk(c, scope, Run(c, scope, es, steps))
    decreases |steps|
  {
    hide BudgetOk, After, CodecOk, Ordinary;
    if steps != [] {
      StepBudget(c, scope, es, steps[0]);
      RunKeepsBudget(c, scope, After(c, scope, es, steps[0]), steps[1..]);
    }
  }

  /** From an empty ledger, every run stays within 256 records, 8,000,000 reserved bytes and 64
      expirable records. */
  lemma RunBudget(c: Codec, scope: nat, steps: seq<Step>)
    requires CodecOk(c) && AllOrdinary(c, scope, [], steps)
    ensures
      var es := Run(c, scope, [], steps);
      && LedgerOk(c, scope, es)
      && |es| <= MAX_RECORDS && Bytes(es) <= MAX_BYTES && Terminals(es) <= MAX_TERMINAL_RECORDS
  {
    hide CodecOk, LedgerOk, AllOrdinary, Run;
    EmptyOk(c, scope);
    RunKeepsBudget(c, scope, [], steps);
  }

  lemma EmptyOk(c: Codec, scope: nat)
    ensures BudgetOk(c, scope, [])
  {
  }

  // ----- A settlement that says nothing

  /** What the ledger hands to the record in storage is taken in exactly when the caller's record has a
      receipt that belongs to it and contradicts no terminal one: an absence is handed on under the whole
      envelope, which is not a key. */
  lemma RelayedTakenInIff(previous: Record, observed: Record)
    requires Valid(previous)
    ensures Settle(previous, Relayed(observed)).Ok? <==>
      && observed.receipt.Some?
      && Correlates(observed.receipt.value, previous.frozen.envelope)
      && (Terminal(previous.receipt) && Terminal(observed.receipt) ==> previous.receipt == observed.receipt)
  {
    hide Correlates;
  }

  /** So looking up a request that the server does not know yet is refused for every request in doubt
      that has no receipt, although the lookup itself is sound, and nothing is written. */
  lemma AbsenceIsRefused(c: Codec, scope: nat, es: seq<Entry>, e: Entry, weather: Weather)
    requires LedgerOk(c, scope, es) && e in es && e.record.receipt.None?
    ensures
      var absent := Absent(ExactKey(e.record.frozen.envelope.key));
      && Settle(e.record, absent) == Ok(e.record.(uncertain := true))
      && SettlePlan(c, scope, es, e.record, absent, weather) == Plan([], Refused)
  {
    hide DecodeEntry, Correlates, LineageOk, IntentOk, WritePlan, Exclusive;
    DecodedFacts(c, scope, e);
    FindIs(c, scope, es, RequestId(e.record));
    if Find(es, RequestId(e.record)).Some? { DistinctKey(es, e, Find(es, RequestId(e.record)).value); }
  }
}
