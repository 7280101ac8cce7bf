/**
 What settled knowledge says, by the kind of request it is about: where an admitted request ended up, which evidence
 is refused, and which stored records are read.
 */
module AdmissionEvidence {
  import opened Wrappers
  import opened AdmissionRecovery
  import opened AdmissionLedger

  /** A request of each kind, and the draft it was taken from: the stamp that consumed the draft is the next one of the
      same editor and chain. */
  predicate Consistent(f: Frozen) {
    var i := f.envelope.intent;
    && f.envelope.key.storeId == f.storeId
    && (match i.operation
        case NewConversation => i.conversationId.None? && i.expectedSource.None? && i.expectedLiveRunId.None?
        case LiveInput => i.conversationId.Some? && i.expectedSource.Some? && i.expectedLiveRunId.Some?
        case Message => i.conversationId.Some? && i.expectedSource.Some? && i.expectedLiveRunId.None?
        case ScienceMessage => i.conversationId.Some? && i.expectedSource.Some? && i.expectedLiveRunId.None?)
    && f.captured.chainId == i.chainId
    && (match f.consumed
        case None => true
        case Some(stamp) =>
          stamp == Stamp(f.captured.editorId, f.captured.chainId, f.captured.revision + 1) && stamp.revision <= MAX_SAFE_INTEGER)
  }

  /** Where a request of each kind may have been admitted: in the conversation and under the source that it expected,
      and live input in the run that it expected. */
  predicate Landed(i: Intent, t: Target) {
    match i.operation
    case NewConversation => !t.liveInput
    case LiveInput =>
      && t.liveInput && t.source.cc && Some(t.runId) == i.expectedLiveRunId
      && Some(t.sessionId) == i.conversationId && Some(t.source) == i.expectedSource
    case _ => !t.liveInput && Some(t.sessionId) == i.conversationId && Some(t.source) == i.expectedSource
  }

  /** The receipt is of this very request, by store, identity and payload, and says that it was not decided yet, was
      rejected, or was admitted where it belongs. */
  predicate Own(receipt: Receipt, e: Envelope) {
    && receipt.key.storeId == e.key.storeId && receipt.key.requestId == e.key.requestId && receipt.key.payloadSha256 == e.key.payloadSha256
    && (match receipt.state
        case Pending => true
        case Rejected(_) => true
        case Admitted(t) => Landed(e.intent, t))
  }

  lemma ValidIff(r: Record)
    ensures Valid(r) <==> Consistent(r.frozen) && (r.receipt.Some? ==> Own(r.receipt.value, r.frozen.envelope))
    ensures Consistent(r.frozen) ==> forall x: Receipt :: Correlates(x, r.frozen.envelope) <==> Own(x, r.frozen.envelope)
  {
  }

  /** One piece of evidence is taken in exactly if the record is in order, the evidence is of this very request (an
      absence under exactly its key), and no final answer is contradicted. */
  lemma TakenInIff(r: Record, e: Evidence)
    ensures Settle(r, e).Ok? <==>
      && Consistent(r.frozen) && (r.receipt.Some? ==> Own(r.receipt.value, r.frozen.envelope))
      && (match e
          case Absent(given) => given == ExactKey(r.frozen.envelope.key)
          case Found(x) => Own(x, r.frozen.envelope)
          case Bare(x) => Own(x, r.frozen.envelope))
      && (Incoming(e).Some? && !Incoming(e).value.state.Pending? && r.receipt.Some? && !r.receipt.value.state.Pending? ==>
            Incoming(e) == r.receipt)
  {
    hide Consistent, Own, Correlates, Valid;
    ValidIff(r);
  }

  /** Whatever was taken in, in whatever order: a request that counts as admitted landed where it belongs. */
  lemma AdmittedLanded(r: Record, es: seq<Evidence>)
    ensures
      var s := SettleAll(r, es);
      s.Ok? && s.value.receipt.Some? ==>
        && Consistent(r.frozen) && s.value.frozen == r.frozen && s.value.receipt.value.key == r.frozen.envelope.key
        && (s.value.receipt.value.state.Admitted? ==> Landed(r.frozen.envelope.intent, s.value.receipt.value.state.target))
  {
    hide Consistent, Landed, Valid;
    SettlesToTheJoin(r, es);
    if SettleAll(r, es).Ok? { ValidIff(SettleAll(r, es).value); }
  }

  // ----- What storage is read as

  /** A stored entry is read exactly if it is of bounded length and parses to a record in order, of this store, under its
      own identity and with its own payload's hash, whose receipt is of bounded length; and if it awaits its final answer,
      there is room for one. What it takes is its bytes, or what it will take then if that is more. */
  lemma ReadIff(c: Codec, scope: nat, item: Item)
    requires CodecOk(c)
    ensures
      var e := DecodeEntry(c, scope, item);
      && (e.Ok? <==>
            && c.size(item.raw) <= 1_000_000 && c.parse(item.raw).Some?
            && var r := c.parse(item.raw).value;
            && Consistent(r.frozen) && (r.receipt.Some? ==> Own(r.receipt.value, r.frozen.envelope))
            && r.frozen.storeId == scope && item.key == r.frozen.envelope.key.requestId
            && c.sha256(r.frozen.envelope.intent) == r.frozen.envelope.key.payloadSha256
            && (r.receipt.Some? ==> c.receiptSize(r.receipt.value) <= MAX_RECEIPT_BYTES)
            && c.size(c.text(r)) <= 1_000_000
            && (r.receipt.None? || r.receipt.value.state.Pending? ==> c.frozenSize(r.frozen) + 9 + MAX_RECEIPT_BYTES <= 1_000_000))
      && (e.Ok? ==>
            && var r := c.parse(item.raw).value;
            && e.value.item == item && e.value.record == r
            && var room := if r.receipt.None? || r.receipt.value.state.Pending? then c.frozenSize(r.frozen) + 9 + MAX_RECEIPT_BYTES else 0;
            && e.value.reserved == c.keySize(item.key) + (if room > c.size(item.raw) then room else c.size(item.raw)))
  {
    hide Consistent, Own, Correlates, Valid, CodecOk;
    if c.parse(item.raw).Some? {
      var r := c.parse(item.raw).value;
      ValidIff(r);
      assert Base(c, r) == c.frozenSize(r.frozen) + 9 by { BaseIs(c, r); }
    }
  }

  lemma BaseIs(c: Codec, r: Record)
    requires CodecOk(c)
    ensures Base(c, r) == c.frozenSize(r.frozen) + 9
  {
    var s := r.(receipt := None, uncertain := false);
    assert c.size(c.text(s)) == c.frozenSize(s.frozen) + 4 + 5;
  }
}
