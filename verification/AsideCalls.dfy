/**
 What one call of the owner, or one answer to a call that it suspended, means for whoever makes it: all that
 the invariants of `AsideInvariants`, `AsideRuns`, `AsidePersistence`, `AsideFreshness` and `AsideDoubt` promise
 of one stretch of code, put together.
 */
module AsideCalls {
  import opened Wrappers
  import opened AsideProtocol
  import opened AsideInvariants
  import opened AsideRuns
  import opened AsidePersistence
  import opened AsideFreshness
  import opened AsideDoubt

  /** Every aside is well formed, listed ones are current or marked, and an operation that is not on its way is
      one of unknown outcome. */
  ghost predicate Good(s: State) {
    WF(s) && forall id :: FreshAt(s, id) && SureAt(s, id)
  }

  /** `u` is as good as `s`, with everything that `s` held of every aside, except that `l` applies to `target`;
      and storage is as up to date. */
  ghost predicate Keeps(s: State, u: State, w: bool, target: Option<Id>, l: Licence) {
    && Good(u) && (w && Durable(s) ==> Durable(u))
    && forall id: Id :: KeptAt(s, u, id, if target == Some(id) then l else Quiet)
  }

  lemma GoodAt(s: State, id: Id)
    requires Good(s)
    ensures At(s, id) && FreshAt(s, id) && SureAt(s, id)
  {
    hide At, FreshAt, SureAt;
  }

  lemma CallKeeps(s: State, m: Move)
    requires Good(s)
    ensures Good(Call(s, m).0) && Keeps(s, Call(s, m).0, m.w, if m.event.Edits? then Some(m.event.id) else None, Typed)
  {
    hide At, KeptAt, FreshAt, SureAt, Call, DurableAt, CreateOk, LockTurn, CreateTurn;
    var u := Call(s, m).0;
    var target := if m.event.Edits? then Some(m.event.id) else None;
    CallTurn(s, m);
    forall id: Id ensures At(u, id) && FreshAt(u, id) && SureAt(u, id) && (m.w && DurableAt(s, id) ==> DurableAt(u, id))
      ensures KeptAt(s, u, id, if target == Some(id) then Typed else Quiet)
    {
      GoodAt(s, id);
      CallAt(s, m, id);
      CallFresh(s, m, id);
      CallSure(s, m, id);
      if m.w && DurableAt(s, id) { CallFlush(s, m, id); }
    }
  }

  /** What an answer may do to an aside, by the call that it answers. */
  ghost function Licensed(s: State, t: Task, m: Move, id: Id): Licence
    requires Woken(m.event).Some?
  {
    LicenceOf(System(s, map[Woken(m.event).value := t], 0), m, id)
  }

  lemma WakeKeeps(s: State, t: Task, m: Move, target: Option<Id>, l: Licence)
    requires Good(s) && TaskOk(s, t) && Woken(m.event).Some? && Wake(s, t, m).Some?
    requires forall id: Id :: Licensed(s, t, m, id) == if target == Some(id) then l else Quiet
    ensures Good(Wake(s, t, m).value.0) && Keeps(s, Wake(s, t, m).value.0, m.w, target, l)
  {
    hide At, KeptAt, FreshAt, SureAt, Wake, DurableAt, CreateOk, LockTurn, CreateTurn, TaskOk, LicenceOf;
    var u := Wake(s, t, m).value.0;
    WakeTurn(s, t, m);
    var k := Woken(m.event).value;
    forall id: Id ensures At(u, id) && FreshAt(u, id) && SureAt(u, id) && (m.w && DurableAt(s, id) ==> DurableAt(u, id))
      ensures KeptAt(s, u, id, if target == Some(id) then l else Quiet)
    {
      GoodAt(s, id);
      WakeAt(System(s, map[k := t], 0), k, m, id);
      assert Licensed(s, t, m, id) == LicenceOf(System(s, map[k := t], 0), m, id);
      WakeFresh(s, t, m, id);
      WakeSure(s, t, m, id);
      if m.w && DurableAt(s, id) { WakeFlush(s, t, m, id); }
    }
  }

  // ----- The answers, by what they answer

  lemma ReadKeeps(s: State, t: Task, response: Response, allowed: bool, w: bool)
    requires Good(s) && t.Reading? && TaskOk(s, t)
    ensures Good(ReadFinish(s, t, response, allowed, w).0) && Keeps(s, ReadFinish(s, t, response, allowed, w).0, w, Some(t.id), if Discards(s, t, response, allowed) then Dropped else Quiet)
  {
    hide Good, Keeps, TaskOk, ReadFinish, Discards;
    WakeKeeps(s, t, Move(Answers(0, response), allowed, w), Some(t.id), if Discards(s, t, response, allowed) then Dropped else Quiet);
  }

  lemma ReplyKeeps(s: State, id: Id, op: Operation, response: Response, allowed: bool, w: bool)
    requires Good(s) && Owns(s, id, op)
    ensures Good(PerformReply(s, id, op, response, allowed, w).0) && Keeps(s, PerformReply(s, id, op, response, allowed, w).0, w, Some(id), if Retires(s, id, op, response) then Retired else Quiet)
  {
    hide Good, Keeps, Owns, PerformReply, Retires;
    WakeKeeps(s, Performing(id, op), Move(Answers(0, response), allowed, w), Some(id), if Retires(s, id, op, response) then Retired else Quiet);
  }

  lemma CreateReplyKeeps(s: State, t: Task, response: Response, allowed: bool, w: bool)
    requires Good(s) && t.Creating? && TaskOk(s, t)
    ensures Good(CreateReply(s, t, response, allowed, w).0) && Keeps(s, CreateReply(s, t, response, allowed, w).0, w, None, Quiet)
  {
    hide Good, Keeps, TaskOk, CreateReply;
    WakeKeeps(s, t, Move(Answers(0, response), allowed, w), None, Quiet);
  }

  lemma ReferenceKeeps(s: State, t: Task, response: Response, allowed: bool, w: bool)
    requires Good(s) && t.Referencing?
    ensures Good(ReferenceReply(s, t, response, allowed, w)) && Keeps(s, ReferenceReply(s, t, response, allowed, w), w, None, Quiet)
  {
    hide Good, Keeps, ReferenceReply;
    WakeKeeps(s, t, Move(Answers(0, response), allowed, w), None, Quiet);
  }

  lemma ListKeeps(s: State, t: Task, items: ListResponse, allowed: bool, w: bool)
    requires Good(s) && t.Listing?
    ensures Good(ListReply(s, t, items, allowed, w)) && Keeps(s, ListReply(s, t, items, allowed, w), w, None, Quiet)
  {
    hide Good, Keeps, ListReply;
    WakeKeeps(s, t, Move(Lists(0, items), allowed, w), None, Quiet);
  }

  /** The aside whose operation a continuation retires. */
  function RetiredBy(after: After): Option<Id> {
    if after.ThenFinish? && after.acknowledged.Some? then Some(after.id) else None
  }

  lemma ResumeKeeps(s: State, ok: bool, after: After, token: Token, allowed: bool, w: bool)
    requires Good(s) && TaskOk(s, Resuming(ok, after))
    ensures Good(Resume(s, ok, after, token, allowed, w).0) && Keeps(s, Resume(s, ok, after, token, allowed, w).0, w, RetiredBy(after), Retired)
  {
    hide Good, Keeps, TaskOk, Resume;
    WakeKeeps(s, Resuming(ok, after), Move(Continues(0, token), allowed, w), RetiredBy(after), Retired);
  }

  // ----- What the calls send

  /** A request that goes out: the lock is taken, the draft shows the operation, and a save or a change of state
      rests on the revision held, which no list or answer had superseded. */
  ghost predicate SendsNow(s: State, u: State, id: Id, op: Operation) {
    && id !in s.mutations && u.mutations == s.mutations + {id} && Owns(u, id, op)
    && id in s.drafts && u.drafts[id].text == s.drafts[id].text
    && !s.drafts[id].conflict
  }

  lemma SaveMeans(s: State, id: Id, token: Token, allowed: bool, w: bool)
    requires Good(s)
    ensures
      var (u, t) := Save(s, id, token, allowed, w);
      && Good(u) && Keeps(s, u, w, None, Typed)
      && (id in s.stale ==> u == s && t == Some(ReadBegin(s, id, false, ThenSave(id, EditOf(s, id)), allowed)))
      && (id !in s.stale && t.None? ==> u == s && !MaySave(s, id, allowed))
      && (id !in s.stale && t.Some? ==>
            && t.value.Performing? && t.value.id == id && id in s.drafts && SendsNow(s, u, id, t.value.op)
            && t.value.op.payload == SaveDraft(token, s.drafts[id].record.revision, s.drafts[id].text)
            && s.drafts[id].text != s.drafts[id].record.draft && !t.value.op.uncertain
            && (id in s.asides ==> t.value.op.payload.expectedRevision >= s.asides[id]))
  {
    hide Good, Keeps;
    CallKeeps(s, Move(Saves(id, token), allowed, w));
    GoodAt(s, id);
    SaveGoMeans(s, id, token, allowed, w);
  }

  lemma SaveGoMeans(s: State, id: Id, token: Token, allowed: bool, w: bool)
    requires At(s, id)
    ensures
      var (u, t) := SaveGo(s, id, token, allowed, w);
      && (t.None? <==> !MaySave(s, id, allowed)) && (t.None? ==> u == s)
      && (t.Some? ==>
            && t.value.Performing? && t.value.id == id && id in s.drafts && SendsNow(s, u, id, t.value.op)
            && t.value.op.payload == SaveDraft(token, s.drafts[id].record.revision, s.drafts[id].text)
            && s.drafts[id].text != s.drafts[id].record.draft && !t.value.op.uncertain)
  {
    hide Publish;
  }

  lemma SetStateGoMeans(s: State, id: Id, lifecycle: Lifecycle, token: Token, allowed: bool, w: bool)
    requires At(s, id)
    ensures
      var (u, t) := SetStateGo(s, id, lifecycle, token, allowed, w);
      && (t.None? <==> !MaySetState(s, id, lifecycle, allowed)) && (t.None? ==> u == s)
      && (t.Some? ==>
            && t.value.Performing? && t.value.id == id && id in s.drafts && SendsNow(s, u, id, t.value.op)
            && t.value.op.payload == SetState(token, s.drafts[id].record.revision, lifecycle) && !t.value.op.uncertain)
  {
    hide Publish;
  }

  lemma SetLifecycleMeans(s: State, id: Id, lifecycle: Lifecycle, token: Token, allowed: bool, w: bool)
    requires Good(s)
    ensures
      var (u, t) := SetLifecycle(s, id, lifecycle, token, allowed, w);
      && Good(u) && Keeps(s, u, w, None, Typed)
      && (id in s.stale ==> u == s && t == Some(ReadBegin(s, id, false, ThenSetState(id, lifecycle), allowed)))
      && (id !in s.stale && t.None? ==> u == s && !MaySetState(s, id, lifecycle, allowed))
      && (id !in s.stale && t.Some? ==>
            && t.value.Performing? && t.value.id == id && id in s.drafts && SendsNow(s, u, id, t.value.op)
            && t.value.op.payload == SetState(token, s.drafts[id].record.revision, lifecycle) && !t.value.op.uncertain
            && (id in s.asides ==> t.value.op.payload.expectedRevision >= s.asides[id]))
  {
    hide Good, Keeps;
    CallKeeps(s, Move(Sets(id, lifecycle, token), allowed, w));
    GoodAt(s, id);
    SetStateGoMeans(s, id, lifecycle, token, allowed, w);
  }

  /** A reconcile sends exactly the request whose outcome is unknown. */
  lemma ReconcileMeans(s: State, id: Id, allowed: bool, w: bool)
    requires Good(s)
    ensures
      var (u, t) := Reconcile(s, id, allowed, w);
      && Good(u) && Keeps(s, u, w, None, Typed)
      && (t.None? ==> u == s && (!allowed || id !in s.drafts || s.drafts[id].operation.None? || id in s.mutations))
      && (t.Some? ==>
            && id in s.drafts && s.drafts[id].operation.Some? && t == Some(Performing(id, s.drafts[id].operation.value))
            && t.value.op.uncertain && id !in s.mutations && u.mutations == s.mutations + {id} && Owns(u, id, t.value.op))
  {
    hide Good, Keeps;
    CallKeeps(s, Move(Reconciles(id), allowed, w));
    GoodAt(s, id);
    ReconcileSends(s, id, allowed, w);
  }

  lemma ReconcileSends(s: State, id: Id, allowed: bool, w: bool)
    requires At(s, id) && SureAt(s, id)
    ensures
      var (u, t) := Reconcile(s, id, allowed, w);
      && (t.None? ==> u == s && (!allowed || id !in s.drafts || s.drafts[id].operation.None? || id in s.mutations))
      && (t.Some? ==>
            && id in s.drafts && s.drafts[id].operation.Some? && t == Some(Performing(id, s.drafts[id].operation.value))
            && t.value.op.uncertain && id !in s.mutations && u.mutations == s.mutations + {id} && Owns(u, id, t.value.op))
  {
    hide Publish;
  }

  /** An edit shows the new text, if it may and the text is valid, and changes no other text. */
  lemma EditMeans(s: State, id: Id, text: string, allowed: bool, w: bool)
    requires Good(s)
    ensures
      var u := Edit(s, id, text, allowed, w);
      && Good(u) && Keeps(s, u, w, Some(id), Typed)
      && (id in s.drafts ==> id in u.drafts && u.drafts[id].record == s.drafts[id].record && u.drafts[id].operation == s.drafts[id].operation)
      && (id in s.drafts ==> u.drafts[id].text == if allowed && s.drafts[id].record.lifecycle.Open? && ValidText(text) then text else s.drafts[id].text)
  {
    hide Good, Keeps;
    CallKeeps(s, Move(Edits(id, text), allowed, w));
    EditShows(s, id, text, allowed, w);
  }

  lemma EditShows(s: State, id: Id, text: string, allowed: bool, w: bool)
    ensures
      var u := Edit(s, id, text, allowed, w);
      && (id in s.drafts ==> id in u.drafts && u.drafts[id].record == s.drafts[id].record && u.drafts[id].operation == s.drafts[id].operation)
      && (id in s.drafts ==> u.drafts[id].text == if allowed && s.drafts[id].record.lifecycle.Open? && ValidText(text) then text else s.drafts[id].text)
  {
    hide Publish, ValidText;
  }

  lemma OpenMeans(s: State, id: Id, refresh: bool, allowed: bool, w: bool)
    requires Good(s)
    ensures
      var (u, t) := OpenAside(s, id, refresh, allowed, w);
      && Good(u) && Keeps(s, u, w, None, Typed) && u.drafts == s.drafts
      && (if allowed then u.selected == Some(id) && u.selectionRevision == s.selectionRevision + 1
            && (t.None? ==> id in s.drafts && (id in s.asides ==> s.drafts[id].record.revision >= s.asides[id]))
          else u == s && t.None?)
  {
    hide Good, Keeps, Publish;
    CallKeeps(s, Move(Opens(id, refresh), allowed, w));
    GoodAt(s, id);
  }

  lemma RefreshMeans(s: State, revalidate: bool, allowed: bool, w: bool)
    requires Good(s)
    ensures Good(Refresh(s, revalidate, allowed, w).0) && Keeps(s, Refresh(s, revalidate, allowed, w).0, w, None, Typed)
  {
    hide Good, Keeps, Refresh;
    CallKeeps(s, Move(Refreshes(revalidate), allowed, w));
  }

  lemma RetireMeans(s: State)
    requires Good(s)
    ensures Good(RetireAccess(s)) && Keeps(s, RetireAccess(s), true, None, Typed)
  {
    hide Good, Keeps, RetireAccess;
    CallKeeps(s, Move(LosesAccess, true, true));
  }

  /** A creation that goes out is the only one, and is the one that is kept for recovery. */
  lemma CreateMeans(s: State, target: Target, text: string, token: Token, allowed: bool, canCreate: bool, w: bool)
    requires Good(s)
    ensures
      var (u, t) := Create(s, target, text, token, allowed, canCreate, w);
      && Good(u) && Keeps(s, u, w, None, Typed)
      && (t.Some? <==> MayCreate(s, allowed, canCreate) && ValidText(text))
      && (t.Some? ==> t.value == Creating(PendingCreate(token, target, text, false, false), s.selectionRevision) && TaskOk(u, t.value) && !s.creating)
      && (t.None? ==> u.pendingCreate == s.pendingCreate && u.creating == s.creating)
  {
    hide Good, Keeps;
    CallKeeps(s, Move(Creates(target, text, token, canCreate), allowed, w));
    CreateSends(s, target, text, token, allowed, canCreate, w);
  }

  lemma CreateSends(s: State, target: Target, text: string, token: Token, allowed: bool, canCreate: bool, w: bool)
    ensures
      var (u, t) := Create(s, target, text, token, allowed, canCreate, w);
      && (t.Some? <==> MayCreate(s, allowed, canCreate) && ValidText(text))
      && (t.Some? ==> t.value == Creating(PendingCreate(token, target, text, false, false), s.selectionRevision) && TaskOk(u, t.value) && !s.creating)
      && (t.None? ==> u.pendingCreate == s.pendingCreate && u.creating == s.creating)
  {
    hide Publish, ValidText;
  }

  lemma RetryMeans(s: State, allowed: bool, w: bool)
    requires Good(s)
    ensures
      var (u, t) := RetryCreate(s, allowed, w);
      && Good(u) && Keeps(s, u, w, None, Typed)
      && (t.Some? <==> s.pendingCreate.Some? && !s.creating && allowed)
      && (t.Some? ==> t.value == Creating(s.pendingCreate.value, s.selectionRevision) && TaskOk(u, t.value))
      && (t.None? ==> u == s)
  {
    hide Good, Keeps;
    CallKeeps(s, Move(RetriesCreate, allowed, w));
    RetrySends(s, allowed, w);
  }

  lemma RetrySends(s: State, allowed: bool, w: bool)
    ensures
      var (u, t) := RetryCreate(s, allowed, w);
      && (t.Some? <==> s.pendingCreate.Some? && !s.creating && allowed)
      && (t.Some? ==> t.value == Creating(s.pendingCreate.value, s.selectionRevision) && TaskOk(u, t.value))
      && (t.None? ==> u == s)
  {
    hide Publish;
  }

  // ----- Storage and marks

  /** What is written is what the next page gets back. */
  lemma PublishMeans(s: State, w: bool)
    requires WF(s)
    ensures
      var u := Publish(s, w);
      w ==> forall id :: Local(Restore(u.disk), id) == Local(s, id)
  {
    hide At, Persist, Local, Restore, CreateOk, DurableAt;
    if w {
      var u := Publish(s, w);
      forall id ensures Local(Restore(u.disk), id) == Local(s, id) {
        WellFormedAt(s, id);
        PublishBack(s, id);
      }
    }
  }

  lemma PublishBack(s: State, id: Id)
    requires At(s, id)
    ensures Local(Restore(Publish(s, true).disk), id) == Local(s, id)
  {
    if id in s.drafts { KeepSteps(s.drafts[id], id); }
  }

  /** A mark goes only from an aside that is then held at its listed revision. */
  lemma ConfirmMeans(s: State, r: Record)
    requires forall id :: FreshAt(s, id)
    ensures
      var u := ConfirmRead(s, r);
      && (forall id :: id in s.stale && id !in u.stale ==> id == r.id)
      && (Covers(s, r) ==> forall id :: FreshAt(u, id))
      && (r.id in s.stale && r.id !in u.stale ==> r.id in s.drafts && r.revision >= s.drafts[r.id].record.revision && (r.id in s.asides ==> r.revision >= s.asides[r.id]))
  {
    var u := ConfirmRead(s, r);
    if Covers(s, r) {
      forall id ensures FreshAt(u, id) { ConfirmFresh(s, r, id); }
    }
  }

  /** The end of an operation: the lock goes, and what was acknowledged is no longer an operation. */
  lemma FinishMeans(s: State, id: Id, op: Operation, acknowledged: nat, w: bool)
    requires Good(s) && Owns(s, id, op)
    ensures
      var u := Finish(s, id, op, Some(acknowledged), true, w);
      && Good(u) && Keeps(s, u, w, Some(id), Retired)
      && u.mutations == s.mutations - {id} && id in u.drafts && u.drafts[id].operation.None?
      && u.drafts[id].text == s.drafts[id].text && u.drafts[id].record == s.drafts[id].record
  {
    hide Good, Keeps;
    assert TaskOk(s, Resuming(true, ThenFinish(id, op, Some(acknowledged), true)));
    ResumeKeeps(s, true, ThenFinish(id, op, Some(acknowledged), true), 0, true, w);
    FinishShows(s, id, op, acknowledged, w);
  }

  lemma FinishShows(s: State, id: Id, op: Operation, acknowledged: nat, w: bool)
    requires Owns(s, id, op)
    ensures
      var u := Finish(s, id, op, Some(acknowledged), true, w);
      && u.mutations == s.mutations - {id} && id in u.drafts && u.drafts[id].operation.None?
      && u.drafts[id].text == s.drafts[id].text && u.drafts[id].record == s.drafts[id].record
  {
    hide Publish;
  }

  lemma NewPageGood(disk: Option<Persisted>)
    ensures Good(Restore(disk)) && Durable(Restore(disk))
  {
    hide At, DurableAt;
    RestoreInv(disk);
    forall id ensures DurableAt(Restore(disk), id) { RestoredIsDurable(disk, id); }
  }
}
