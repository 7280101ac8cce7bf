/**
 The store behind the asides: what one request does to it, and what it answers. A request is done once, at its revision, and
 answered the same however often it comes again.
 */
module AsideStore {
  import opened AsideProtocol
  import S = AsideServer
  import R = AsideRecovery
  import C = AsideCreation

  /** The next state of an aside: one revision on, with the text or the state that was asked for, and everything else as it
      was. */
  predicate Follows(r: Record, next: Record, p: Payload) {
    && next.id == r.id && next.source == r.source && next.revision == r.revision + 1
    && (match p
        case SaveDraft(_, _, text) => next.draft == text && next.lifecycle == r.lifecycle
        case SetState(_, _, lifecycle) => next.lifecycle == lifecycle && next.draft == r.draft)
  }

  /** A request may be done: nobody wrote since its revision, the aside is not discarded, and open if its text is to change. */
  predicate MayDo(r: Record, p: Payload) {
    && r.revision == p.expectedRevision
    && (match r.lifecycle
        case Open => true
        case Archived => p.SetState?
        case Discarded => false)
  }

  /** A request about no aside is rejected. One that was done before is answered as then, and another under its identity is a
      conflict. A new one is done exactly if it may be, and then the aside has one more state, with a receipt; otherwise it is
      a conflict, and nothing changes. */
  lemma RequestExactly(v: S.Server, id: Id, p: Payload)
    ensures
      var (u, answer) := S.Process(v, id, p);
      if id !in v.history || v.history[id] == [] then answer == Rejected && u == v
      else if p.requestId in v.receipts then
        && u == v
        && answer == (if v.receipts[p.requestId].id == id && v.receipts[p.requestId].payload == p then Body(v.receipts[p.requestId].record) else Conflicted)
      else
        var r := v.history[id][|v.history[id]| - 1];
        if !MayDo(r, p) then answer == Conflicted && u == v
        else
          && answer.Body? && Follows(r, answer.record, p)
          && u.history == v.history[id := v.history[id] + [answer.record]]
          && u.receipts == v.receipts[p.requestId := S.Receipt(id, p, answer.record)] && u.log == v.log + [p.requestId]
  {
  }

  /** So a request that comes again is answered the same, and does nothing. */
  lemma AgainTheSame(v: S.Server, id: Id, p: Payload)
    requires S.Process(v, id, p).1.Body?
    ensures
      var (u, answer) := S.Process(v, id, p);
      S.Process(u, id, p) == (u, answer)
  {
  }

  /** And once it was done, every other request of its revision is a conflict. */
  lemma OneWriterWins(v: S.Server, id: Id, p: Payload, q: Payload)
    requires S.Process(v, id, p).1.Body? && p.requestId !in v.receipts
    requires q.requestId !in v.receipts && q.requestId != p.requestId && q.expectedRevision == p.expectedRevision
    ensures S.Process(S.Process(v, id, p).0, id, q).1 == Conflicted
  {
  }

  /** A creation that was made before is answered as then, and another under its identity is a conflict; a new one makes its
      aside. */
  lemma CreationExactly(w: C.World, i: R.Intent, r: Record)
    ensures
      var (x, answer) := C.Serve(w, i, r);
      if i.requestId in w.made then
        x == w && answer == (if w.made[i.requestId].intent == i then Body(w.made[i.requestId].record) else Conflicted)
      else
        && answer == Body(r)
        && x == w.(made := w.made[i.requestId := C.Made(i, r)], asides := w.asides[r.id := i.requestId])
  {
  }

  /** What another client asks for is done in the same way, and a new aside is there from then on; neither is the owner's
      doing, nor changes what is on its way. */
  lemma OthersWrite(w: S.World, id: Id, p: Payload, r: Record)
    ensures
      var x := S.Next(w, S.Others(id, p));
      && x == w.(v := x.v)
      && (id in w.v.history && w.v.history[id] != [] && p.requestId !in w.v.receipts && MayDo(S.Current(w.v, id), p) ==>
            && id in x.v.history && |x.v.history[id]| == |w.v.history[id]| + 1 && Follows(S.Current(w.v, id), S.Current(x.v, id), p)
            && p.requestId in x.v.receipts)
    ensures S.Next(w, S.Appears(r)) == w.(v := w.v.(history := w.v.history[r.id := [r]]))
  {
  }
}
