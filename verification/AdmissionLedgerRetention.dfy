/**
 What retention may give up and what it may not, in terms of the records themselves; and when a reservation is
 let in.
 */
module AdmissionLedgerRetention {
  import opened Wrappers
  import opened AdmissionRecovery
  import opened AdmissionLedger
  import opened AdmissionLedgerSafety
  import opened AdmissionLedgerRuns

  // ----- What stays

  /** Never given up by itself: a request without a final answer, and an admitted science message. */
  predicate Lasting(r: Record) {
    || r.receipt.None?
    || r.receipt.value.state.Pending?
    || (r.receipt.value.state.Admitted? && r.frozen.envelope.intent.operation.ScienceMessage?)
  }

  /** The entries that may go: exactly rejected requests, and admitted ones that are no science message. */
  function Passing(es: seq<Entry>): seq<Entry> {
    if es == [] then []
    else if Lasting(es[0].record) then Passing(es[1..]) else [es[0]] + Passing(es[1..])
  }

  predicate Over(es: seq<Entry>) {
    |es| > 256 || Bytes(es) > 8_000_000 || |Passing(es)| > 64
  }

  /** What is left when everything that may go, and is not being written, goes from among the first `n`. */
  function Sparing(es: seq<Entry>, protected: Option<nat>, n: nat): seq<Entry>
    requires n <= |es|
  {
    if n == 0 then es
    else
      var rest := Sparing(es[1..], protected, n - 1);
      if Lasting(es[0].record) || protected == Some(es[0].item.key) then [es[0]] + rest else rest
  }

  lemma {:induction false} PassingCount(es: seq<Entry>)
    ensures Terminals(es) == |Passing(es)|
    ensures forall e :: e in Passing(es) <==> e in es && !Lasting(e.record)
  {
    if es != [] { PassingCount(es[1..]); }
  }

  lemma {:induction false} CutIsSparing(es: seq<Entry>, protected: Option<nat>, n: nat)
    requires n <= |es|
    ensures Cut(es, protected, n) == Sparing(es, protected, n)
    decreases n
  {
    if n == 0 {
      assert es[..0] == [] && es[0..] == es;
    } else {
      CutIsSparing(es[1..], protected, n - 1);
      assert es[..n][1..] == es[1..][..n - 1] && es[n..] == es[1..][n - 1..];
    }
  }

  lemma InRangeIff(es: seq<Entry>)
    ensures InRange(es) <==> !Over(es)
  {
    PassingCount(es);
  }

  /** Retention gives up the oldest of those that may go, and no more of them than it takes to be within the bounds. */
  lemma RetainedIsShortest(es: seq<Entry>, protected: Option<nat>) returns (n: nat)
    ensures n <= |es| && Retained(es, protected) == Sparing(es, protected, n)
    ensures n == |es| || !Over(Retained(es, protected))
    ensures forall k :: 0 <= k < n ==> Over(Sparing(es, protected, k))
  {
    hide Over, InRange, Sparing, Cut;
    n := CutPoint(es, protected, 0);
    CutIsSparing(es, protected, n);
    InRangeIff(Retained(es, protected));
    forall k | 0 <= k < n ensures Over(Sparing(es, protected, k)) {
      CutIsSparing(es, protected, k);
      InRangeIff(Cut(es, protected, k));
    }
  }

  lemma {:induction false} SparingKeeps(es: seq<Entry>, protected: Option<nat>, n: nat, e: Entry)
    requires n <= |es|
    ensures e in Sparing(es, protected, n) ==> e in es
    ensures e in es && (Lasting(e.record) || protected == Some(e.item.key)) ==> e in Sparing(es, protected, n)
    ensures n == |es| && e in Sparing(es, protected, n) ==> Lasting(e.record) || protected == Some(e.item.key)
    decreases n
  {
    if n > 0 { SparingKeeps(es[1..], protected, n - 1, e); }
  }

  /** However full the ledger is: a request without a final answer stays, an admitted science message stays, and so
      does the record that is being written. Nothing else stays if that does not do; and within the bounds
      everything does. */
  lemma RetainedMeans(es: seq<Entry>, protected: Option<nat>, e: Entry)
    ensures e in es && (Lasting(e.record) || protected == Some(e.item.key)) ==> e in Retained(es, protected)
    ensures e in Retained(es, protected) ==> e in es
    ensures e in Retained(es, protected) && Over(Retained(es, protected)) ==> Lasting(e.record) || protected == Some(e.item.key)
    ensures !Over(es) ==> Retained(es, protected) == es
  {
    hide Over, Retained;
    var n := RetainedIsShortest(es, protected);
    SparingKeeps(es, protected, n, e);
    assert Sparing(es, protected, 0) == es;
  }

  // ----- Over runs

  /** The ledger has the final answer of this request. */
  ghost predicate Has(es: seq<Entry>, f: Frozen, receipt: Receipt) {
    exists e :: e in es && e.record.frozen == f && e.record.receipt == Some(receipt)
  }

  /** The user discards this request. */
  predicate Discards(steps: seq<Step>, id: nat) {
    exists i :: 0 <= i < |steps| && steps[i].event.Removes? && RequestId(steps[i].event.r) == id
  }

  predicate Science(f: Frozen, receipt: Receipt) {
    f.envelope.intent.operation.ScienceMessage? && receipt.state.Admitted?
  }

  lemma StepKeepsScience(c: Codec, scope: nat, es: seq<Entry>, s: Step, f: Frozen, receipt: Receipt)
    requires CodecOk(c) && LedgerOk(c, scope, es) && Has(es, f, receipt) && Science(f, receipt)
    requires s.event.Removes? ==> RequestId(s.event.r) != f.envelope.key.requestId
    ensures Has(After(c, scope, es, s), f, receipt)
  {
    hide DecodeEntry, Writes, CodecOk, Exclusive, Conflict;
    var e :| e in es && e.record.frozen == f && e.record.receipt == Some(receipt);
    DecodedFacts(c, scope, e);
    var gone, put := EventShape(c, scope, es, s.event);
    var ws := Writes(c, scope, es, s.event);
    if s.dies.Some? && s.dies.value < |ws| {
      var n := s.dies.value;
      LawfulPrefix(c, scope, es, ws, gone, put, n);
      forall g | g in gone[..n] ensures g in gone { }
      WrittenKeeps(c, scope, es, ws[..n], gone[..n], None, e);
    } else {
      WrittenKeeps(c, scope, es, ws, gone, put, e);
    }
  }

  lemma WrittenKeeps(c: Codec, scope: nat, es: seq<Entry>, ws: seq<Write>, gone: seq<Entry>, put: Option<Entry>, e: Entry)
    requires LedgerOk(c, scope, es) && Lawful(c, scope, es, ws, gone, put) && e in es && Terminal(e.record.receipt)
    requires forall g :: g in gone ==> g.item.key != e.item.key || g != e
    ensures exists g :: g in WriteAll(es, ws) && g.record.frozen == e.record.frozen && g.record.receipt == e.record.receipt
  {
    hide DecodeEntry, Exclusive, Conflict;
    LawfulOk(c, scope, es, ws, gone, put);
    var ds := Drop(es, KeysOf(gone));
    if e.item.key in KeysOf(gone) {
      var g :| g in gone && g.item.key == e.item.key;
      DistinctKey(es, e, g);
    }
    InDrop(es, KeysOf(gone), e);
    if put.Some? {
      DropDistinct(es, KeysOf(gone));
      InPut(ds, put.value, e);
      InPut(ds, put.value, put.value);
    }
  }

  lemma DiscardsLater(steps: seq<Step>, id: nat)
    requires steps != [] && Discards(steps[1..], id)
    ensures Discards(steps, id)
  {
    var i :| 0 <= i < |steps[1..]| && steps[1..][i].event.Removes? && RequestId(steps[1..][i].event.r) == id;
    assert steps[i + 1] == steps[1..][i];
  }

  /** Over every run of several tabs, each operation cut off anywhere: an admitted science message keeps its receipt
      in the ledger until the user discards it. */
  lemma {:induction false} ScienceStays(c: Codec, scope: nat, es: seq<Entry>, steps: seq<Step>, f: Frozen, receipt: Receipt)
    requires CodecOk(c) && LedgerOk(c, scope, es) && Has(es, f, receipt) && Science(f, receipt)
    requires !Discards(steps, f.envelope.key.requestId)
    ensures Has(Run(c, scope, es, steps), f, receipt)
    decreases |steps|
  {
    hide CodecOk, LedgerOk, After, Has, Science;
    if steps != [] {
      assert steps[0].event.Removes? ==> RequestId(steps[0].event.r) != f.envelope.key.requestId;
      StepKeepsScience(c, scope, es, steps[0], f, receipt);
      StepSafe(c, scope, es, steps[0]);
      if Discards(steps[1..], f.envelope.key.requestId) { DiscardsLater(steps, f.envelope.key.requestId); }
      ScienceStays(c, scope, After(c, scope, es, steps[0]), steps[1..], f, receipt);
    }
  }

  // ----- When a reservation is let in

  /** Another request without a final answer that this one would cross. */
  predicate Crosses(a: Record, b: Record) {
    && (a.receipt.None? || a.receipt.value.state.Pending?)
    && (|| a.frozen.draftKey == b.frozen.draftKey
        || a.frozen.envelope.intent.chainId == b.frozen.envelope.intent.chainId
        || (a.frozen.envelope.intent.conversationId.Some? && a.frozen.envelope.intent.conversationId == b.frozen.envelope.intent.conversationId))
  }

  lemma {:induction false} FindNone(es: seq<Entry>, id: nat)
    ensures Find(es, id).None? <==> forall e :: e in es ==> RequestId(e.record) != id
  {
    if es != [] { FindNone(es[1..], id); }
  }

  lemma {:induction false} NothingWithout(c: Codec, scope: nat, es: seq<Entry>, id: nat)
    requires Sound(c, scope, es) && forall e :: e in es ==> RequestId(e.record) != id
    ensures Without(es, id) == es
  {
    hide DecodeEntry;
    if es != [] {
      assert es[0] in es;
      DecodedFacts(c, scope, es[0]);
      forall e | e in es[1..] ensures e in es { }
      NothingWithout(c, scope, es[1..], id);
    }
  }

  /** The entries that may give way to the record of this request, oldest first. */
  function Yielding(es: seq<Entry>, key: nat): seq<Entry> {
    if es == [] then []
    else if Lasting(es[0].record) || es[0].item.key == key then Yielding(es[1..], key) else [es[0]] + Yielding(es[1..], key)
  }

  lemma {:induction false} YieldingIs(es: seq<Entry>, key: nat)
    ensures Expired(es, Some(key)) == Yielding(es, key)
  {
    if es != [] { YieldingIs(es[1..], key); }
  }

  /** A reservation is let in exactly if its identity is new, it crosses no request in doubt, its record can be
      written, the ledger holds it within its bounds without giving up anything in doubt, and storage takes it, for
      which completed requests may have to give way. What is then answered is the record itself. */
  lemma ReservedIff(c: Codec, scope: nat, es: seq<Entry>, r: Record, weather: Weather)
    requires CodecOk(c) && LedgerOk(c, scope, es)
    ensures
      var plan := ReservePlan(c, scope, es, r, weather);
      && (plan.answer.Ok? ==> plan.answer == Ok(r))
      && (plan.answer.Ok? <==>
            && (forall e :: e in es ==> RequestId(e.record) != RequestId(r) && !Crosses(e.record, r))
            && Written(c, scope, r).Ok?
            && var kept := Retained(es + [Written(c, scope, r).value], Some(RequestId(r)));
            && |kept| <= 256 && Bytes(kept) <= 8_000_000 && weather.full <= |Yielding(kept, RequestId(r))| && !weather.broken)
  {
    hide CodecOk, DecodeEntry, Encode, Retained, Distinct, Exclusive, Crosses;
    FindNone(es, RequestId(r));
    BlockedIff(es, r);
    if Find(es, RequestId(r)).None? && Written(c, scope, r).Ok? {
      NothingWithout(c, scope, es, RequestId(r));
      var e := Written(c, scope, r).value;
      WrittenIs(c, scope, r);
      YieldingIs(Retained(es + [e], Some(RequestId(r))), RequestId(r));
    }
  }

  lemma BlockedIff(es: seq<Entry>, r: Record)
    ensures Blocked(es, r) <==> exists e :: e in es && Crosses(e.record, r)
  {
    if Blocked(es, r) {
      var i :| 0 <= i < |es| && Blocks(es[i].record, r);
      assert es[i] in es && Crosses(es[i].record, r);
    }
    if e :| e in es && Crosses(e.record, r) {
      var i :| 0 <= i < |es| && es[i] == e;
      assert Blocks(es[i].record, r);
    }
  }
}
