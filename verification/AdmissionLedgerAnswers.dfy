/**
 What each ledger operation answers and which entries it gives up: always the oldest of those that may go; and what
 storage holds once its writes are done.
 */
module AdmissionLedgerAnswers {
  import opened Wrappers
  import opened AdmissionRecovery
  import opened AdmissionLedger
  import opened AdmissionLedgerSafety
  import opened AdmissionLedgerRuns
  import opened AdmissionLedgerRetention

  // ----- Who gives way

  lemma {:induction false} ExpiredConcat(es: seq<Entry>, fs: seq<Entry>, p: Option<nat>)
    ensures Expired(es + fs, p) == Expired(es, p) + Expired(fs, p)
  {
    if es == [] {
      assert es + fs == fs;
    } else {
      assert (es + fs)[1..] == es[1..] + fs;
      ExpiredConcat(es[1..], fs, p);
    }
  }

  lemma {:induction false} KeptHasNone(es: seq<Entry>, p: Option<nat>)
    ensures Expired(Kept(es, p), p) == []
  {
    if es != [] { KeptHasNone(es[1..], p); }
  }

  lemma VictimsFirst(es: seq<Entry>, p: Option<nat>)
    ensures Expired(es, p) == Victims(es, p) + Expired(Retained(es, p), p)
  {
    var n := CutPoint(es, p, 0);
    assert es == es[..n] + es[n..];
    ExpiredConcat(es[..n], es[n..], p);
    ExpiredConcat(Kept(es[..n], p), es[n..], p);
    KeptHasNone(es[..n], p);
  }

  /** What a write is about to leave: the ledger with the record at its end. */
  function Candidates(c: Codec, scope: nat, es: seq<Entry>, r: Record): seq<Entry>
    requires Written(c, scope, r).Ok?
  {
    Without(es, RequestId(r)) + [Written(c, scope, r).value]
  }

  /** A write of a record that can be written: it gives up the oldest entries that may yield, first as many as it takes to
      be within the bounds, and then one for each time that storage is full. It succeeds exactly if the bounds are kept,
      where they count, and there are enough to give up and storage works; and then the record is written last. */
  lemma WriteExactly(c: Codec, scope: nat, es: seq<Entry>, r: Record, requireCapacity: bool, weather: Weather) returns (m: nat)
    requires CodecOk(c) && Written(c, scope, r).Ok?
    ensures
      var e := Written(c, scope, r).value;
      var plan := WritePlan(c, scope, es, r, requireCapacity, weather);
      var all := Candidates(c, scope, es, r);
      var kept := Retained(all, Some(RequestId(r)));
      var yielding := Yielding(all, RequestId(r));
      var fits := !requireCapacity || (|kept| <= 256 && Bytes(kept) <= 8_000_000);
      var ok := fits && weather.full <= |Yielding(kept, RequestId(r))| && !weather.broken;
      && m <= |yielding| && plan.writes == Removals(yielding[..m]) + (if ok then [Put(e)] else [])
      && plan.answer == (if ok then Ok(r) else Refused)
      && m == |yielding| - |Yielding(kept, RequestId(r))|
              + (if !fits then 0 else if weather.full <= |Yielding(kept, RequestId(r))| then weather.full else |Yielding(kept, RequestId(r))|)
  {
    hide CodecOk, DecodeEntry, Encode, Retained, Victims, Lasting;
    var e := Written(c, scope, r).value;
    var key := RequestId(r);
    var all := Candidates(c, scope, es, r);
    var kept := Retained(all, Some(key));
    WrittenIs(c, scope, r);
    VictimsFirst(all, Some(key));
    YieldingIs(all, key);
    YieldingIs(kept, key);
    var victims, room := Victims(all, Some(key)), Yielding(kept, key);
    var yielding := Yielding(all, key);
    assert yielding == victims + room;
    if requireCapacity && (|kept| > MAX_RECORDS || Bytes(kept) > MAX_BYTES) {
      m := |victims|;
      assert yielding[..m] == victims;
      assert Removals(victims) + [] == Removals(victims);
    } else {
      var n := if weather.full <= |room| then weather.full else |room|;
      m := |victims| + n;
      assert yielding[..m] == victims + room[..n];
      RemovalsConcat(victims, room[..n]);
      assert room[..|room|] == room;
      assert Removals(yielding[..m]) + [] == Removals(yielding[..m]);
    }
  }

  /** A record that cannot be written is refused, and nothing is given up for it. */
  lemma UnwritableIsRefused(c: Codec, scope: nat, es: seq<Entry>, r: Record, requireCapacity: bool, weather: Weather)
    requires CodecOk(c) && Written(c, scope, r).Refused?
    ensures WritePlan(c, scope, es, r, requireCapacity, weather) == Plan([], Refused)
  {
    hide DecodeEntry, Encode, CodecOk;
  }

  // ----- Settling

  predicate Final(receipt: Option<Receipt>) {
    receipt.Some? && (receipt.value.state.Admitted? || receipt.value.state.Rejected?)
  }

  /** The most that is known from two answers, of which at most one is final, or both are the same. */
  function Better(a: Option<Receipt>, b: Option<Receipt>): Option<Receipt> {
    if Final(a) || b == None then a else b
  }

  /** Settling a request that the ledger has: the answer is what the ledger, the caller and the evidence know together. It is
      refused if they do not belong together, or know nothing at all; what is known finally stays. */
  lemma SettledKnows(c: Codec, scope: nat, es: seq<Entry>, r: Record, e: Evidence, weather: Weather)
    requires CodecOk(c) && LedgerOk(c, scope, es)
    ensures
      var plan := SettlePlan(c, scope, es, r, e, weather);
      var before := Find(es, RequestId(r));
      plan.answer.Ok? ==>
        && var x := plan.answer.value;
        && Settle(r, e).Ok? && x.uncertain == !Final(x.receipt)
        && (match before
            case Some(f) =>
              && x.frozen == f.record.frozen && Better(r.receipt, Incoming(e)) != None
              && x.receipt == Better(f.record.receipt, Better(r.receipt, Incoming(e)))
            case None => x.frozen == r.frozen && Final(Incoming(e)) && x.receipt == Better(r.receipt, Incoming(e)))
  {
    hide CodecOk, DecodeEntry, Encode, WritePlan, Valid, Correlates, Retained;
    var observed := Settle(r, e);
    var before := Find(es, RequestId(r));
    if observed.Ok? {
      if before.None? {
        if Final(Incoming(e)) { AnswersWith(c, scope, es, observed.value, false, weather); }
      } else {
        var merged := Settle(before.value.record, Relayed(observed.value));
        if merged.Ok? { AnswersWith(c, scope, es, merged.value, false, weather); }
        if observed.value.receipt == None { WholeIsRefused(before.value.record, observed.value.frozen.envelope); }
      }
    }
  }

  lemma WholeIsRefused(r: Record, envelope: Envelope)
    ensures Settle(r, Absent(WholeEnvelope(envelope))).Refused?
  {
  }

  lemma AnswersWith(c: Codec, scope: nat, es: seq<Entry>, r: Record, requireCapacity: bool, weather: Weather)
    requires CodecOk(c)
    ensures WritePlan(c, scope, es, r, requireCapacity, weather).answer.Ok? ==> WritePlan(c, scope, es, r, requireCapacity, weather).answer == Ok(r)
  {
    hide CodecOk, DecodeEntry, Encode, Retained;
    if Written(c, scope, r).Ok? {
      var m := WriteExactly(c, scope, es, r, requireCapacity, weather);
    } else {
      UnwritableIsRefused(c, scope, es, r, requireCapacity, weather);
    }
  }

  /** It is taken in exactly if the caller's record takes the evidence in, the ledger's takes in what the caller then knows
      or, without one there, the evidence is final; and the outcome can be written. The bounds of the ledger do not count. */
  lemma SettledIff(c: Codec, scope: nat, es: seq<Entry>, r: Record, e: Evidence, weather: Weather)
    requires CodecOk(c)
    ensures
      var plan := SettlePlan(c, scope, es, r, e, weather);
      var before := Find(es, RequestId(r));
      var outcome := if Settle(r, e).Refused? then Refused
                     else match before
                          case Some(f) =>
                            (match Settle(r, e).value.receipt
                             case Some(x) => Settle(f.record, Bare(x))
                             case None => Refused)
                          case None => if Final(Incoming(e)) then Settle(r, e) else Refused;
      plan == if outcome.Ok? then WritePlan(c, scope, es, outcome.value, false, weather) else Plan([], Refused)
  {
    hide WritePlan, Valid, Correlates, CodecOk;
    var before := Find(es, RequestId(r));
    if Settle(r, e).Ok? && before.Some? { WholeIsRefused(before.value.record, Settle(r, e).value.frozen.envelope); }
  }

  // ----- Discarding and reading

  /** The user may discard a request of which the ledger has a final answer that the caller's record does not contradict.
      Then exactly it goes; and if there is none, nothing does. */
  lemma DiscardIff(c: Codec, scope: nat, es: seq<Entry>, r: Record)
    requires CodecOk(c) && LedgerOk(c, scope, es)
    ensures
      var plan := RemovePlan(es, r);
      match Find(es, RequestId(r))
      case None => plan == Plan([], Ok(()))
      case Some(f) =>
        plan == if Final(f.record.receipt) && Settle(r, Bare(f.record.receipt.value)).Ok? then Plan([Remove(f)], Ok(())) else Plan([], Refused)
  {
    hide Settle, DecodeEntry;
  }

  lemma {:induction false} FindFirst(es: seq<Entry>, id: nat)
    ensures Find(es, id).Some? ==> exists i :: FirstOf(es, id, i) && es[i] == Find(es, id).value
  {
    if es != [] && RequestId(es[0].record) != id {
      FindFirst(es[1..], id);
      if Find(es, id).Some? {
        var i :| FirstOf(es[1..], id, i) && es[1..][i] == Find(es, id).value;
        assert es[i + 1] == es[1..][i];
        assert forall k :: 0 < k < i + 1 ==> es[k] == es[1..][k - 1];
        assert FirstOf(es, id, i + 1);
      }
    } else if es != [] {
      assert FirstOf(es, id, 0);
    }
  }

  /** The first entry of the request. */
  ghost predicate FirstOf(es: seq<Entry>, id: nat, i: int) {
    0 <= i < |es| && RequestId(es[i].record) == id && forall k :: 0 <= k < i ==> RequestId(es[k].record) != id
  }

  /** A read answers with what stays, and gives up the rest. */
  lemma ReadExactly(c: Codec, scope: nat, es: seq<Entry>)
    requires LedgerOk(c, scope, es)
    ensures
      var plan := ReadPlan(es);
      plan.answer == Ok(Retained(es, None)) && WriteAll(es, plan.writes) == Retained(es, None)
  {
    hide DecodeEntry, Exclusive, Sound, Retained, Victims;
    RetainedIsDrop(es, None);
    RemovalsDrop(es, Victims(es, None));
  }

  // ----- Storage

  predicate Keyed(items: seq<Item>, key: nat) {
    exists i :: 0 <= i < |items| && items[i].key == key
  }

  /** Removing takes every item of the key, and only those, in their order. */
  lemma {:induction false} EraseIs(items: seq<Item>, key: nat)
    ensures !Keyed(Erase(items, key), key)
    ensures !Keyed(items, key) ==> Erase(items, key) == items
    ensures forall x: Item :: x in Erase(items, key) <==> x in items && x.key != key
  {
    if items != [] {
      EraseIs(items[1..], key);
      if !Keyed(items, key) {
        assert items[0].key != key;
        assert forall i :: 0 <= i < |items[1..]| ==> items[1..][i] == items[i + 1];
        assert !Keyed(items[1..], key);
      }
    }
  }

  /** Writing replaces the item of the key where it is, or adds one behind all others; no other item moves. */
  lemma {:induction false} StoreIs(items: seq<Item>, item: Item) returns (i: nat)
    ensures i <= |items| && i < |Store(items, item)| && Store(items, item)[i] == item
    ensures forall k :: 0 <= k < i ==> items[k].key != item.key
    ensures if i == |items| then Store(items, item) == items + [item] else items[i].key == item.key && Store(items, item) == items[i := item]
  {
    if items == [] {
      i := 0;
    } else if items[0].key == item.key {
      i := 0;
      assert [item] + items[1..] == items[0 := item];
    } else {
      var j := StoreIs(items[1..], item);
      i := j + 1;
      assert items == [items[0]] + items[1..];
      forall k | 0 <= k < i ensures items[k].key != item.key { if k > 0 { assert items[k] == items[1..][k - 1]; } }
    }
  }
}
