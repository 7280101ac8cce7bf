/**
 What the browser knows of one admission request, and how evidence about it is taken in.
 Knowledge is a join: nothing known, then pending, then one terminal receipt. Absence and pending
 answers never take a terminal receipt back, and two different terminal receipts never meet.
 */
module AdmissionRecovery {
  import opened Wrappers

  const MAX_SAFE_INTEGER := 9007199254740991

  datatype Key = Key(storeId: nat, requestId: nat, payloadSha256: nat)
  datatype Operation = NewConversation | Message | LiveInput | ScienceMessage
  /** The source that the browser expected: runtime, authority, native session and directory. */
  datatype Source = Source(cc: bool, authorityId: nat, nativeSessionId: nat, cwd: nat)
  datatype Intent = Intent(operation: Operation, conversationId: Option<nat>, expectedSource: Option<Source>,
                           expectedLiveRunId: Option<nat>, chainId: nat, payload: nat)
  datatype Envelope = Envelope(key: Key, intent: Intent)
  datatype Target = Target(liveInput: bool, source: Source, sessionId: nat, runId: nat, messageId: nat)
  datatype Outcome = Pending | Admitted(target: Target) | Rejected(code: nat)
  datatype Receipt = Receipt(key: Key, state: Outcome)
  datatype Stamp = Stamp(editorId: nat, chainId: nat, revision: nat)

  /** What never changes about a record once it is written. */
  datatype Frozen = Frozen(storeId: nat, envelope: Envelope, draftKey: nat, captured: Stamp, consumed: Option<Stamp>, recovery: nat)
  datatype Record = Record(frozen: Frozen, receipt: Option<Receipt>, uncertain: bool)

  /** The key of an absent lookup, as it was given: exactly a key, or the whole envelope in its place. */
  datatype GivenKey = ExactKey(key: Key) | WholeEnvelope(envelope: Envelope)
  datatype Evidence = Absent(given: GivenKey) | Found(receipt: Receipt) | Bare(receipt: Receipt)

  predicate Terminal(receipt: Option<Receipt>) {
    receipt.Some? && !receipt.value.state.Pending?
  }

  predicate IntentOk(i: Intent) {
    && (i.operation.NewConversation? <==> i.conversationId.None?)
    && (i.operation.NewConversation? <==> i.expectedSource.None?)
    && (i.operation.LiveInput? <==> i.expectedLiveRunId.Some?)
  }

  predicate Correlates(receipt: Receipt, envelope: Envelope) {
    && receipt.key == envelope.key
    && (receipt.state.Admitted? ==>
          && var intent, target := envelope.intent, receipt.state.target;
          && (target.liveInput ==> target.source.cc)
          && (intent.operation.LiveInput? <==> target.liveInput)
          && (intent.conversationId.Some? ==> target.sessionId == intent.conversationId.value)
          && (intent.expectedSource.Some? ==> target.source == intent.expectedSource.value)
          && (intent.operation.LiveInput? ==> intent.expectedLiveRunId == Some(target.runId)))
  }

  /** The stamp that consumed the draft follows the captured one. */
  predicate LineageOk(f: Frozen) {
    && f.captured.chainId == f.envelope.intent.chainId
    && (f.consumed.Some? ==>
          && f.consumed.value.editorId == f.captured.editorId && f.consumed.value.chainId == f.captured.chainId
          && f.captured.revision < MAX_SAFE_INTEGER && f.consumed.value.revision == f.captured.revision + 1)
  }

  predicate ValidFrozen(f: Frozen) {
    f.envelope.key.storeId == f.storeId && IntentOk(f.envelope.intent) && LineageOk(f)
  }

  predicate Valid(r: Record) {
    ValidFrozen(r.frozen) && (r.receipt.Some? ==> Correlates(r.receipt.value, r.frozen.envelope))
  }

  /** Evidence about another request, or in another shape than the wire's, is refused. */
  predicate Acceptable(e: Evidence, envelope: Envelope) {
    match e
    case Absent(given) => given.ExactKey? && given.key == envelope.key
    case Found(receipt) => Correlates(receipt, envelope)
    case Bare(receipt) => Correlates(receipt, envelope)
  }

  function Incoming(e: Evidence): Option<Receipt> {
    match e
    case Absent(_) => None
    case Found(receipt) => Some(receipt)
    case Bare(receipt) => Some(receipt)
  }

  function Settle(r: Record, e: Evidence): Result<Record> {
    if !Valid(r) || !Acceptable(e, r.frozen.envelope) then Refused
    else if Terminal(r.receipt) then
      if Terminal(Incoming(e)) && Incoming(e) != r.receipt then Refused else Ok(r.(uncertain := false))
    else
      var receipt := if Incoming(e).Some? then Incoming(e) else r.receipt;
      Ok(r.(receipt := receipt, uncertain := !Terminal(receipt)))
  }

  function SettleAll(r: Record, es: seq<Evidence>): Result<Record>
    decreases |es|
  {
    if es == [] then (if Valid(r) then Ok(r) else Refused)
    else
      var s := Settle(r, es[0]);
      if s.Refused? then Refused else SettleAll(s.value, es[1..])
  }

  // ----- The join

  /** Every receipt in sight. */
  ghost predicate Known(r: Record, es: seq<Evidence>, receipt: Receipt) {
    r.receipt == Some(receipt) || exists i :: 0 <= i < |es| && Incoming(es[i]) == Some(receipt)
  }

  ghost predicate Agree(r: Record, es: seq<Evidence>) {
    forall a, b :: Known(r, es, a) && Known(r, es, b) && Terminal(Some(a)) && Terminal(Some(b)) ==> a == b
  }

  /** Everything that can be taken in together. */
  ghost predicate Compatible(r: Record, es: seq<Evidence>) {
    && Valid(r)
    && (forall i :: 0 <= i < |es| ==> Acceptable(es[i], r.frozen.envelope))
    && Agree(r, es)
  }

  /** The most that is known: a terminal receipt if there is one, else pending if anything is. */
  ghost predicate IsJoin(r: Record, es: seq<Evidence>, receipt: Option<Receipt>) {
    && (receipt.Some? ==> Known(r, es, receipt.value))
    && (forall a :: Known(r, es, a) ==> receipt.Some? && (Terminal(Some(a)) ==> receipt == Some(a)))
  }

  lemma KnownStep(r: Record, es: seq<Evidence>, s: Record, receipt: Receipt)
    requires es != [] && Settle(r, es[0]) == Ok(s)
    ensures Known(s, es[1..], receipt) ==> Known(r, es, receipt)
    ensures Known(r, es, receipt) && Terminal(Some(receipt)) ==> Known(s, es[1..], receipt)
  {
    var rest := es[1..];
    if Known(s, rest, receipt) && s.receipt != Some(receipt) {
      var i :| 0 <= i < |rest| && Incoming(rest[i]) == Some(receipt);
      assert Incoming(es[i + 1]) == Some(receipt);
    } else if Known(s, rest, receipt) {
      assert r.receipt == Some(receipt) || Incoming(es[0]) == Some(receipt);
    }
    if Known(r, es, receipt) && Terminal(Some(receipt)) && r.receipt != Some(receipt) && Incoming(es[0]) != Some(receipt) {
      var i :| 0 <= i < |es| && Incoming(es[i]) == Some(receipt);
      assert rest[i - 1] == es[i];
    }
  }

  lemma KnownHere(r: Record, es: seq<Evidence>, i: nat)
    requires i < |es| && Incoming(es[i]).Some?
    ensures Known(r, es, Incoming(es[i]).value)
  {
  }

  lemma CompatibleStep(r: Record, es: seq<Evidence>)
    requires es != []
    ensures Compatible(r, es) <==> Settle(r, es[0]).Ok? && Compatible(Settle(r, es[0]).value, es[1..])
  {
    var rest := es[1..];
    if Compatible(r, es) {
      assert Acceptable(es[0], r.frozen.envelope);
      if Terminal(r.receipt) && Terminal(Incoming(es[0])) {
        KnownHere(r, es, 0);
        assert Known(r, es, r.receipt.value);
      }
      var s := Settle(r, es[0]).value;
      forall i | 0 <= i < |rest| ensures Acceptable(rest[i], s.frozen.envelope) { assert rest[i] == es[i + 1]; }
      forall a, b | Known(s, rest, a) && Known(s, rest, b) && Terminal(Some(a)) && Terminal(Some(b)) ensures a == b {
        KnownStep(r, es, s, a);
        KnownStep(r, es, s, b);
      }
    }
    if Settle(r, es[0]).Ok? && Compatible(Settle(r, es[0]).value, rest) {
      var s := Settle(r, es[0]).value;
      forall i | 0 <= i < |es| ensures Acceptable(es[i], r.frozen.envelope) { if i > 0 { assert es[i] == rest[i - 1]; } }
      forall a, b | Known(r, es, a) && Known(r, es, b) && Terminal(Some(a)) && Terminal(Some(b)) ensures a == b {
        KnownStep(r, es, s, a);
        KnownStep(r, es, s, b);
      }
    }
  }

  /** Evidence in any order, with any repeats, is taken in exactly when all of it is about this request
      and all terminal receipts in sight are the same; and what comes out is the join of everything
      in sight, certain exactly when it is terminal, with nothing else changed. */
  lemma {:induction false} SettlesToTheJoin(r: Record, es: seq<Evidence>)
    ensures SettleAll(r, es).Ok? <==> Compatible(r, es)
    ensures SettleAll(r, es).Ok? ==>
      && var s := SettleAll(r, es).value;
      && s.frozen == r.frozen && Valid(s) && IsJoin(r, es, s.receipt)
      && s.uncertain == (if es == [] then r.uncertain else !Terminal(s.receipt))
    decreases |es|
  {
    hide Valid, Acceptable, Correlates;
    if es == [] {
    } else {
      CompatibleStep(r, es);
      if Settle(r, es[0]).Ok? {
        var s := Settle(r, es[0]).value;
        SettlesToTheJoin(s, es[1..]);
        if SettleAll(r, es).Ok? { JoinStep(r, es, s, SettleAll(r, es).value.receipt); }
        SettledFlag(r, es[0]);
        SettledFrozen(r, es[0]);
      }
    }
  }

  lemma SettledFlag(r: Record, e: Evidence)
    ensures Settle(r, e).Ok? ==> Settle(r, e).value.uncertain == !Terminal(Settle(r, e).value.receipt)
  {
  }

  lemma SettledFrozen(r: Record, e: Evidence)
    ensures Settle(r, e).Ok? ==> Settle(r, e).value.frozen == r.frozen && Valid(r) && Valid(Settle(r, e).value)
    ensures Settle(r, e).Ok? && Terminal(r.receipt) ==> Settle(r, e).value.receipt == r.receipt
  {
  }

  lemma JoinStep(r: Record, es: seq<Evidence>, s: Record, receipt: Option<Receipt>)
    requires es != [] && Settle(r, es[0]) == Ok(s) && IsJoin(s, es[1..], receipt)
    ensures IsJoin(r, es, receipt)
  {
    hide Valid, Acceptable, Correlates;
    if receipt.Some? { KnownStep(r, es, s, receipt.value); }
    forall a | Known(r, es, a) ensures receipt.Some? && (Terminal(Some(a)) ==> receipt == Some(a)) {
      KnownStep(r, es, s, a);
      if !Terminal(Some(a)) {
        if r.receipt == Some(a) {
          assert s.receipt.Some? && Known(s, es[1..], s.receipt.value);
        } else {
          var i :| 0 <= i < |es| && Incoming(es[i]) == Some(a);
          if i == 0 { assert s.receipt.Some? && Known(s, es[1..], s.receipt.value); }
          else { assert es[1..][i - 1] == es[i]; KnownHere(s, es[1..], i - 1); }
        }
      }
    }
  }

  /** The same evidence, in another order or with repeats, settles the same. */
  lemma OrderDoesNotMatter(r: Record, es: seq<Evidence>, fs: seq<Evidence>)
    requires (forall e :: e in es <==> e in fs) && (es == [] <==> fs == [])
    ensures SettleAll(r, es) == SettleAll(r, fs)
  {
    hide Valid, Correlates;
    SettlesToTheJoin(r, es);
    SettlesToTheJoin(r, fs);
    forall a ensures Known(r, es, a) <==> Known(r, fs, a) { SameKnown(r, es, fs, a); SameKnown(r, fs, es, a); }
    assert Compatible(r, es) <==> Compatible(r, fs) by {
      assert (forall i :: 0 <= i < |es| ==> Acceptable(es[i], r.frozen.envelope)) <==> (forall e :: e in es ==> Acceptable(e, r.frozen.envelope));
      assert (forall i :: 0 <= i < |fs| ==> Acceptable(fs[i], r.frozen.envelope)) <==> (forall e :: e in fs ==> Acceptable(e, r.frozen.envelope));
    }
    if Compatible(r, es) {
      OneJoin(r, es, fs, SettleAll(r, es).value.receipt, SettleAll(r, fs).value.receipt);
    }
  }

  lemma SameKnown(r: Record, es: seq<Evidence>, fs: seq<Evidence>, a: Receipt)
    requires forall e :: e in es ==> e in fs
    ensures Known(r, es, a) ==> Known(r, fs, a)
  {
    if Known(r, es, a) && r.receipt != Some(a) {
      var i :| 0 <= i < |es| && Incoming(es[i]) == Some(a);
      assert es[i] in fs;
    }
  }

  /** There is one join: a pending receipt of a request says nothing but its key. */
  lemma OneJoin(r: Record, es: seq<Evidence>, fs: seq<Evidence>, a: Option<Receipt>, b: Option<Receipt>)
    requires Compatible(r, es) && Compatible(r, fs) && IsJoin(r, es, a) && IsJoin(r, fs, b)
    requires forall x :: Known(r, es, x) <==> Known(r, fs, x)
    ensures a == b
  {
    if a.Some? && b.Some? && !Terminal(a) && !Terminal(b) {
      KnownKey(r, es, a.value);
      KnownKey(r, es, b.value);
    }
  }

  lemma KnownKey(r: Record, es: seq<Evidence>, a: Receipt)
    requires Compatible(r, es) && Known(r, es, a)
    ensures a.key == r.frozen.envelope.key
  {
    if r.receipt != Some(a) {
      var i :| 0 <= i < |es| && Incoming(es[i]) == Some(a);
      assert Acceptable(es[i], r.frozen.envelope);
    }
  }
}
