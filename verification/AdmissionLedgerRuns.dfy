/**
 Runs of the ledger: any interleaving of reserve, settle, discard and read, by any tabs, each of which
 may die after any of its writes.
 */
module AdmissionLedgerRuns {
  import opened Wrappers
  import opened AdmissionRecovery
  import opened AdmissionLedger
  import opened AdmissionLedgerSafety

  datatype Event =
    | Reserve(r: Record, weather: Weather)
    | Settles(r: Record, e: Evidence, weather: Weather)
    | Removes(r: Record)
    | Reads

  /** An operation, and after how many of its writes its tab dies, if it does. */
  datatype Step = Step(event: Event, dies: Option<nat>)

  function Writes(c: Codec, scope: nat, es: seq<Entry>, v: Event): seq<Write> {
    match v
    case Reserve(r, weather) => ReservePlan(c, scope, es, r, weather).writes
    case Settles(r, e, weather) => SettlePlan(c, scope, es, r, e, weather).writes
    case Removes(r) => RemovePlan(es, r).writes
    case Reads => ReadPlan(es).writes
  }

  function After(c: Codec, scope: nat, es: seq<Entry>, s: Step): seq<Entry> {
    var ws := Writes(c, scope, es, s.event);
    WriteAll(es, if s.dies.Some? && s.dies.value < |ws| then ws[..s.dies.value] else ws)
  }

  function Run(c: Codec, scope: nat, es: seq<Entry>, steps: seq<Step>): seq<Entry>
    decreases |steps|
  {
    if steps == [] then es else Run(c, scope, After(c, scope, es, steps[0]), steps[1..])
  }

  // ----- The shape of every plan

  /** Some terminal records go, and then one record may be written. */
  ghost predicate Lawful(c: Codec, scope: nat, es: seq<Entry>, ws: seq<Write>, gone: seq<Entry>, put: Option<Entry>) {
    && ws == Removals(gone) + (if put.Some? then [Put(put.value)] else [])
    && (forall e :: e in gone ==> e in es && Terminal(e.record.receipt))
    && (put.Some? ==> LawfulPut(c, scope, es, gone, put.value))
  }

  ghost predicate LawfulPut(c: Codec, scope: nat, es: seq<Entry>, gone: seq<Entry>, e: Entry) {
    && DecodeEntry(c, scope, e.item) == Ok(e)
    && (forall f :: f in gone ==> f.item.key != e.item.key)
    && (forall f :: f in es && f.item.key == e.item.key ==>
          f.record.frozen == e.record.frozen && (Terminal(f.record.receipt) ==> e.record.receipt == f.record.receipt))
    && ((exists f :: f in es && f.item.key == e.item.key) || Terminal(e.record.receipt)
        || forall f :: f in es && Unresolved(f.record) ==> !Conflict(f.record, e.record))
  }

  lemma GoneOk(c: Codec, scope: nat, es: seq<Entry>, gone: seq<Entry>)
    requires LedgerOk(c, scope, es) && forall e :: e in gone ==> e in es && Terminal(e.record.receipt)
    ensures LedgerOk(c, scope, Drop(es, KeysOf(gone))) && AllSurvive(es, Drop(es, KeysOf(gone)))
  {
    hide DecodeEntry, Exclusive, Sound;
    forall e | e in es && e.item.key in KeysOf(gone) ensures Terminal(e.record.receipt) {
      var f :| f in gone && f.item.key == e.item.key;
      DistinctKey(es, e, f);
    }
    DropOk(c, scope, es, KeysOf(gone));
  }

  lemma LawfulOk(c: Codec, scope: nat, es: seq<Entry>, ws: seq<Write>, gone: seq<Entry>, put: Option<Entry>)
    requires LedgerOk(c, scope, es) && Lawful(c, scope, es, ws, gone, put)
    ensures LedgerOk(c, scope, WriteAll(es, ws)) && AllSurvive(es, WriteAll(es, ws))
    ensures WriteAll(es, ws) == if put.Some? then Put1(Drop(es, KeysOf(gone)), put.value) else Drop(es, KeysOf(gone))
  {
    hide DecodeEntry, LedgerOk, Conflict;
    GoneOk(c, scope, es, gone);
    var fs := Drop(es, KeysOf(gone));
    RemovalsDrop(es, gone);
    if put.Some? {
      WritesConcat(es, Removals(gone), [Put(put.value)]);
      assert WriteAll(fs, [Put(put.value)]) == Put1(fs, put.value);
      LawfulPutOk(c, scope, es, gone, put.value);
    } else {
      assert ws == Removals(gone);
    }
  }

  lemma LawfulPutOk(c: Codec, scope: nat, es: seq<Entry>, gone: seq<Entry>, e: Entry)
    requires LedgerOk(c, scope, es) && LedgerOk(c, scope, Drop(es, KeysOf(gone))) && AllSurvive(es, Drop(es, KeysOf(gone)))
    requires LawfulPut(c, scope, es, gone, e)
    ensures
      var fs := Put1(Drop(es, KeysOf(gone)), e);
      LedgerOk(c, scope, fs) && AllSurvive(es, fs)
  {
    hide DecodeEntry, Conflict, Correlates;
    var ds := Drop(es, KeysOf(gone));
    forall f ensures f in ds <==> f in es && f.item.key !in KeysOf(gone) { InDrop(es, KeysOf(gone), f); }
    assert e.item.key !in KeysOf(gone);
    PutOk(c, scope, ds, e);
    var fs := Put1(ds, e);
    forall f | f in es ensures Survives(f, fs) {
      if Unresolved(f.record) {
        var g :| g in ds && g.item.key == f.item.key && g.record.frozen == f.record.frozen
          && (g.record.receipt.Some? ==> Correlates(g.record.receipt.value, f.record.frozen.envelope));
        InDrop(es, KeysOf(gone), g);
        DistinctKey(es, f, g);
        assert Survives(g, fs);
      }
    }
  }

  /** A tab that dies leaves a lawful beginning. */
  lemma LawfulPrefix(c: Codec, scope: nat, es: seq<Entry>, ws: seq<Write>, gone: seq<Entry>, put: Option<Entry>, n: nat)
    requires Lawful(c, scope, es, ws, gone, put) && n < |ws|
    ensures n <= |gone| && Lawful(c, scope, es, ws[..n], gone[..n], None)
  {
    assert ws[..n] == Removals(gone[..n]);
    assert ws[..n] + [] == ws[..n];
  }

  lemma RemovalsConcat(a: seq<Entry>, b: seq<Entry>)
    ensures Removals(a) + Removals(b) == Removals(a + b)
  {
  }

  // ----- Every plan has that shape

  ghost function Gone(all: seq<Entry>, key: Option<nat>, extra: nat): seq<Entry> {
    var room := Expired(Retained(all, key), key);
    Victims(all, key) + (if extra <= |room| then room[..extra] else room)
  }

  lemma GoneExpirable(all: seq<Entry>, key: Option<nat>, extra: nat)
    requires Distinct(all)
    ensures forall e :: e in Gone(all, key, extra) ==> e in all && Expirable(e, key)
  {
    hide Retained, Victims, Expirable;
    RetainedIsDrop(all, key);
    var kept := Retained(all, key);
    var room := Expired(kept, key);
    forall e | e in room ensures e in all && Expirable(e, key) {
      InExpired(kept, key, e);
      InDrop(all, KeysOf(Victims(all, key)), e);
    }
  }

  lemma AllDistinct(es: seq<Entry>, e: Entry)
    requires Distinct(es)
    ensures Distinct(Without(es, e.item.key) + [e])
    ensures forall f :: f in Without(es, e.item.key) <==> f in es && f.item.key != e.item.key
  {
    WithoutIsDrop(es, e.item.key);
    DropDistinct(es, {e.item.key});
    forall f ensures f in Without(es, e.item.key) <==> f in es && f.item.key != e.item.key { InDrop(es, {e.item.key}, f); }
  }

  /** The entry that writing a record makes, if it is writable. */
  function Written(c: Codec, scope: nat, r: Record): Result<Entry> {
    var raw := Encode(c, r);
    if raw.Refused? then Refused else DecodeEntry(c, scope, Item(RequestId(r), raw.value))
  }

  lemma WrittenIs(c: Codec, scope: nat, r: Record)
    requires CodecOk(c) && Written(c, scope, r).Ok?
    ensures Written(c, scope, r).value.record == r && Written(c, scope, r).value.item == Item(RequestId(r), c.text(r))
    ensures Valid(r)
  {
  }

  lemma WriteShape(c: Codec, scope: nat, es: seq<Entry>, r: Record, requireCapacity: bool, weather: Weather)
    returns (gone: seq<Entry>, put: Option<Entry>)
    requires CodecOk(c) && LedgerOk(c, scope, es)
    requires Written(c, scope, r).Ok? ==> MayWrite(c, scope, es, Written(c, scope, r).value)
    ensures Lawful(c, scope, es, WritePlan(c, scope, es, r, requireCapacity, weather).writes, gone, put)
    ensures forall e :: e in gone ==> CanExpire(e.record)
    ensures put.Some? ==>
      && Written(c, scope, r) == Ok(put.value) && WritePlan(c, scope, es, r, requireCapacity, weather).answer == Ok(r)
      && (forall e :: e in Victims(Without(es, RequestId(r)) + [put.value], Some(RequestId(r))) ==> e in gone)
      && (requireCapacity ==>
            && |Retained(Without(es, RequestId(r)) + [put.value], Some(RequestId(r)))| <= MAX_RECORDS
            && Bytes(Retained(Without(es, RequestId(r)) + [put.value], Some(RequestId(r)))) <= MAX_BYTES)
  {
    hide DecodeEntry, Encode, Retained, Victims, Conflict, Exclusive, Sound;
    gone, put := [], None;
    assert Removals([]) + [] == [];
    if Written(c, scope, r).Ok? {
      var e := Written(c, scope, r).value;
      WrittenIs(c, scope, r);
      var key := Some(RequestId(r));
      AllDistinct(es, e);
      var all := Without(es, RequestId(r)) + [e];
      var kept := Retained(all, key);
      var plan := WritePlan(c, scope, es, r, requireCapacity, weather);
      if requireCapacity && (|kept| > MAX_RECORDS || Bytes(kept) > MAX_BYTES) {
        gone := Gone(all, key, 0);
        assert gone == Victims(all, key);
        assert plan.writes == Removals(gone) + [];
      } else {
        gone := Gone(all, key, weather.full);
        var room := Expired(kept, key);
        RemovalsConcat(Victims(all, key), if weather.full <= |room| then room[..weather.full] else room);
        if weather.full <= |room| && !weather.broken { put := Some(e); }
        assert plan.writes == Removals(gone) + (if put.Some? then [Put(put.value)] else []);
      }
      GoneExpirable(all, key, if requireCapacity && (|kept| > MAX_RECORDS || Bytes(kept) > MAX_BYTES) then 0 else weather.full);
    }
  }

  ghost predicate MayWrite(c: Codec, scope: nat, es: seq<Entry>, e: Entry) {
    && (forall f :: f in es && f.item.key == e.item.key ==>
          f.record.frozen == e.record.frozen && (Terminal(f.record.receipt) ==> e.record.receipt == f.record.receipt))
    && ((exists f :: f in es && f.item.key == e.item.key) || Terminal(e.record.receipt)
        || forall f :: f in es && Unresolved(f.record) ==> !Conflict(f.record, e.record))
  }

  lemma {:induction false} FindIs(c: Codec, scope: nat, es: seq<Entry>, id: nat)
    requires Sound(c, scope, es)
    ensures Find(es, id).Some? ==> Find(es, id).value in es && Find(es, id).value.item.key == id
    ensures Find(es, id).None? ==> forall f :: f in es ==> f.item.key != id
  {
    hide DecodeEntry;
    if es != [] {
      assert es[0] in es;
      DecodedFacts(c, scope, es[0]);
      FindIs(c, scope, es[1..], id);
    }
  }

  lemma ReserveMay(c: Codec, scope: nat, es: seq<Entry>, r: Record)
    requires CodecOk(c) && LedgerOk(c, scope, es) && Written(c, scope, r).Ok?
    requires Find(es, RequestId(r)).None? && !Blocked(es, r)
    ensures MayWrite(c, scope, es, Written(c, scope, r).value)
  {
    hide DecodeEntry, Encode;
    WrittenIs(c, scope, r);
    FindIs(c, scope, es, RequestId(r));
    forall f | f in es && Unresolved(f.record) ensures !Conflict(f.record, r) {
      var i :| 0 <= i < |es| && es[i] == f;
      assert !Blocks(es[i].record, r);
    }
  }

  lemma SettleMay(c: Codec, scope: nat, es: seq<Entry>, previous: Entry, e: Evidence)
    requires CodecOk(c) && LedgerOk(c, scope, es) && previous in es
    requires Settle(previous.record, e).Ok? && Written(c, scope, Settle(previous.record, e).value).Ok?
    ensures MayWrite(c, scope, es, Written(c, scope, Settle(previous.record, e).value).value)
  {
    hide DecodeEntry, Encode, Exclusive, Settle;
    var merged := Settle(previous.record, e).value;
    WrittenIs(c, scope, merged);
    SettledFrozen(previous.record, e);
    DecodedFacts(c, scope, previous);
    forall f | f in es && f.item.key == RequestId(merged)
      ensures f.record.frozen == merged.frozen && (Terminal(f.record.receipt) ==> merged.receipt == f.record.receipt)
    {
      DistinctKey(es, f, previous);
    }
  }

  lemma RestoreMay(c: Codec, scope: nat, es: seq<Entry>, r: Record, e: Evidence)
    requires CodecOk(c) && LedgerOk(c, scope, es) && Find(es, RequestId(r)).None?
    requires Settle(r, e).Ok? && Terminal(Incoming(e)) && Written(c, scope, Settle(r, e).value).Ok?
    ensures MayWrite(c, scope, es, Written(c, scope, Settle(r, e).value).value)
  {
    hide DecodeEntry, Encode, Exclusive;
    WrittenIs(c, scope, Settle(r, e).value);
    FindIs(c, scope, es, RequestId(r));
  }

  lemma EventShape(c: Codec, scope: nat, es: seq<Entry>, v: Event) returns (gone: seq<Entry>, put: Option<Entry>)
    requires CodecOk(c) && LedgerOk(c, scope, es)
    ensures Lawful(c, scope, es, Writes(c, scope, es, v), gone, put)
    ensures forall e :: e in gone ==> if v.Removes? then e.item.key == RequestId(v.r) else CanExpire(e.record)
  {
    hide DecodeEntry, Encode, Settle, WritePlan, LawfulPut, Written, MayWrite, Blocked, Retained, Exclusive, CanExpire;
    gone, put := [], None;
    assert Removals([]) + [] == [];
    match v
    case Reserve(r, weather) =>
      if Find(es, RequestId(r)).None? && !Blocked(es, r) {
        if Written(c, scope, r).Ok? { ReserveMay(c, scope, es, r); }
        gone, put := WriteShape(c, scope, es, r, true, weather);
      }
    case Settles(r, e, weather) =>
      var previous := Find(es, RequestId(r));
      FindIs(c, scope, es, RequestId(r));
      var observed := Settle(r, e);
      if observed.Ok? && previous.None? && Terminal(Incoming(e)) {
        if Written(c, scope, observed.value).Ok? { RestoreMay(c, scope, es, r, e); }
        gone, put := WriteShape(c, scope, es, observed.value, false, weather);
      } else if observed.Ok? && previous.Some? {
        var merged := Settle(previous.value.record, Relayed(observed.value));
        if merged.Ok? {
          if Written(c, scope, merged.value).Ok? { SettleMay(c, scope, es, previous.value, Relayed(observed.value)); }
          gone, put := WriteShape(c, scope, es, merged.value, false, weather);
        }
      }
    case Removes(r) =>
      FindIs(c, scope, es, RequestId(r));
      if RemovePlan(es, r).writes != [] {
        gone := [Find(es, RequestId(r)).value];
        assert Removals(gone) + [] == [Remove(gone[0])];
      }
    case Reads =>
      RetainedIsDrop(es, None);
      gone := Victims(es, None);
      assert Removals(gone) + [] == Removals(gone);
      forall e | e in gone ensures e in es && Terminal(e.record.receipt) { ExpirableIsTerminal(e, None); }
  }

  lemma ExpirableIsTerminal(e: Entry, key: Option<nat>)
    ensures Expirable(e, key) ==> Terminal(e.record.receipt)
  {
  }

  // ----- Exclusion and survival

  /** Every operation, cut off after any of its writes, keeps at most one request in doubt per draft,
      per chain and per conversation, and keeps everything in doubt. */
  lemma StepSafe(c: Codec, scope: nat, es: seq<Entry>, s: Step)
    requires CodecOk(c) && LedgerOk(c, scope, es)
    ensures LedgerOk(c, scope, After(c, scope, es, s)) && AllSurvive(es, After(c, scope, es, s))
  {
    hide LedgerOk, AllSurvive, Writes, CodecOk, Lawful;
    var gone, put := EventShape(c, scope, es, s.event);
    var ws := Writes(c, scope, es, s.event);
    if s.dies.Some? && s.dies.value < |ws| {
      LawfulPrefix(c, scope, es, ws, gone, put, s.dies.value);
      LawfulOk(c, scope, es, ws[..s.dies.value], gone[..s.dies.value], None);
    } else {
      LawfulOk(c, scope, es, ws, gone, put);
    }
  }

  lemma {:induction false} RunSafe(c: Codec, scope: nat, es: seq<Entry>, steps: seq<Step>)
    requires CodecOk(c) && LedgerOk(c, scope, es)
    ensures LedgerOk(c, scope, Run(c, scope, es, steps))
    decreases |steps|
  {
    hide LedgerOk, After, CodecOk;
    if steps != [] {
      StepSafe(c, scope, es, steps[0]);
      RunSafe(c, scope, After(c, scope, es, steps[0]), steps[1..]);
    }
  }

  /** The ledger holds a terminal receipt of exactly this request. */
  ghost predicate Answered(es: seq<Entry>, f: Frozen) {
    exists e :: e in es && e.record.frozen == f && Terminal(e.record.receipt) && Correlates(e.record.receipt.value, f.envelope)
  }

  ghost predicate EverAnswered(c: Codec, scope: nat, es: seq<Entry>, steps: seq<Step>, f: Frozen)
    decreases |steps|
  {
    Answered(es, f) || (steps != [] && EverAnswered(c, scope, After(c, scope, es, steps[0]), steps[1..], f))
  }

  ghost predicate InDoubt(es: seq<Entry>, f: Frozen) {
    exists e :: e in es && e.record.frozen == f && Unresolved(e.record)
  }

  /** A request whose outcome is unknown stays in the ledger, unchanged, until the ledger has its own
      terminal receipt. */
  lemma {:induction false} DoubtSurvives(c: Codec, scope: nat, es: seq<Entry>, steps: seq<Step>, f: Frozen)
    requires CodecOk(c) && LedgerOk(c, scope, es) && InDoubt(es, f)
    ensures InDoubt(Run(c, scope, es, steps), f) || EverAnswered(c, scope, es, steps, f)
    decreases |steps|
  {
    hide LedgerOk, After, CodecOk, Correlates;
    if steps != [] {
      var fs := After(c, scope, es, steps[0]);
      StepSafe(c, scope, es, steps[0]);
      var e :| e in es && e.record.frozen == f && Unresolved(e.record);
      assert Survives(e, fs);
      var g :| g in fs && g.record.frozen == f && (g.record.receipt.Some? ==> Correlates(g.record.receipt.value, f.envelope));
      if Unresolved(g.record) {
        DoubtSurvives(c, scope, fs, steps[1..], f);
      } else {
        assert Answered(fs, f);
      }
    }
  }

  /** What an operation leaves in storage, cut off or not, decodes to what these runs say: the answer of
      every tab, whatever its cache, is decoded from these bytes. */
  lemma StorageFollows(c: Codec, scope: nat, items: seq<Item>, s: Step)
    requires CodecOk(c) && ReadAll(c, scope, items).Ok? && LedgerOk(c, scope, ReadAll(c, scope, items).value)
    ensures
      var es := ReadAll(c, scope, items).value;
      var ws := Writes(c, scope, es, s.event);
      var done := if s.dies.Some? && s.dies.value < |ws| then ws[..s.dies.value] else ws;
      ReadAll(c, scope, Apply(items, done)) == Ok(After(c, scope, es, s))
  {
    hide Writes, CodecOk, ReadAll, Apply, Distinct, Exclusive;
    var es := ReadAll(c, scope, items).value;
    ReadAllSound(c, scope, items);
    var ws := Writes(c, scope, es, s.event);
    ApplyWrites(es, if s.dies.Some? && s.dies.value < |ws| then ws[..s.dies.value] else ws);
    StepSafe(c, scope, es, s);
    SoundReadAll(c, scope, After(c, scope, es, s));
  }
}
