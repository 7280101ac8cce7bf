/**
 Page crashes. Where browser storage takes every write, storage always holds what the next page
 needs, so a crash between any two stretches of code loses neither text, nor a conflict, nor the
 request identity and payload of an unresolved operation or creation.
 */
module AsidePersistence {
  import opened Wrappers
  import opened AsideProtocol
  import opened AsideInvariants
  import opened AsideRuns

  /** What the owner would have to recover of an aside, as the next page would see it. */
  function Local(s: State, id: Id): Option<Saved> {
    if id in s.restored then Some(Revive(s.restored[id]))
    else if id in s.drafts && Recovery(s.drafts[id]) then Some(Revive(Keep(s.drafts[id])))
    else None
  }

  function Stored(disk: Option<Persisted>, id: Id): Option<Saved> {
    if disk.Some? && id in disk.value.drafts then Some(Revive(disk.value.drafts[id])) else None
  }

  function LocalCreate(s: State): Option<PendingCreate> {
    if s.pendingCreate.Some? then Some(ReviveCreate(s.pendingCreate.value, s.createRejected)) else None
  }

  function StoredCreate(disk: Option<Persisted>): Option<PendingCreate> {
    if disk.Some? && disk.value.pendingCreate.Some?
    then Some(ReviveCreate(disk.value.pendingCreate.value, disk.value.createRejected)) else None
  }

  ghost predicate DurableAt(s: State, id: Id) {
    Stored(s.disk, id) == Local(s, id) && StoredCreate(s.disk) == LocalCreate(s)
  }

  ghost predicate Durable(s: State) {
    forall id :: DurableAt(s, id)
  }

  // ----- The new page

  /** A restored page sees exactly what the old one had to recover. */
  lemma CrashKeepsLocal(s: State, id: Id)
    requires At(s, id) && CreateOk(s) && DurableAt(s, id)
    ensures Local(Restore(s.disk), id) == Local(s, id)
    ensures LocalCreate(Restore(s.disk)) == LocalCreate(s)
    ensures DurableAt(Restore(s.disk), id)
  {
  }

  /** A start of runs: a new page over whatever storage holds. */
  lemma NewPageOk(disk: Option<Persisted>, next: nat)
    ensures Inv(System(Restore(disk), map[], next)) && Durable(Restore(disk))
  {
    hide At, DurableAt;
    RestoreInv(disk);
    forall id ensures DurableAt(Restore(disk), id) { RestoredIsDurable(disk, id); }
  }

  lemma RestoredIsDurable(disk: Option<Persisted>, id: Id)
    ensures DurableAt(Restore(disk), id)
  {
  }

  lemma RejoinedIsTheSame(d: Draft, r: Record)
    requires DraftOk(d, r.id) && r.revision == d.record.revision && r.draft == d.record.draft
    ensures
      var e := Rejoin(Revive(Keep(d)), r);
      && SavedOk(Keep(d)) && SavedOk(Revive(Keep(d)))
      && e.text == d.text && e.dirty == d.dirty && e.conflict == d.conflict && e.edit == d.edit
      && e.operation.Some? == d.operation.Some?
      && (d.operation.Some? ==>
            && e.operation.value.payload == d.operation.value.payload
            && e.operation.value.uncertain && e.error)
  {
  }

  lemma RestoredEntry(s: State, id: Id)
    requires At(s, id) && id in s.drafts && Recovery(s.drafts[id])
    ensures
      var u := Restore(Publish(s, true).disk);
      && id in u.restored && u.restored[id] == Revive(Keep(s.drafts[id]))
      && u.restored[id].revision == s.drafts[id].record.revision
      && u.drafts == map[] && u.references == map[] && u.accessGeneration == 0
  {
    hide DraftOk;
    assert id in Persist(s).drafts;
    assert SavedOk(Keep(s.drafts[id])) by { KeepSteps(s.drafts[id], id); }
  }

  /** Through storage and back: the page is published, dies, and the next one reads the record at the
      revision that was held, with any kind of read. The draft has the same text, conflict, edit counter
      and operation as before, the operation now of unknown outcome, and every other entry still waits
      for its own record. */
  lemma RestoredDraftIsTheSame(s: State, r: Record, discard: bool, after: After, w: bool)
    requires At(s, r.id) && r.id in s.drafts && Recovery(s.drafts[r.id])
    requires Parsed(r) && r.revision == s.drafts[r.id].record.revision && SameContents(r, s.drafts[r.id].record)
    ensures
      var u := Restore(Publish(s, true).disk);
      var (v, ok) := ReadFinish(u, Reading(r.id, discard, u.accessGeneration, EditOf(u, r.id), after), Body(r), true, w);
      var d := s.drafts[r.id];
      && ok && r.id in v.drafts && r.id !in v.restored
      && var e := v.drafts[r.id];
      && e.record == r && e.text == d.text && e.dirty == d.dirty && e.conflict == d.conflict && e.edit == d.edit
      && e.operation.Some? == d.operation.Some?
      && (d.operation.Some? ==>
            && e.operation.value.payload == d.operation.value.payload && e.operation.value.uncertain && e.error)
      && (forall id :: id != r.id && id in u.restored ==> id in v.restored && v.restored[id] == u.restored[id])
  {
    hide DraftOk, Keep, Revive, Rejoin, SavedOk, Persist, Parsed;
    var u := Restore(Publish(s, true).disk);
    RestoredEntry(s, r.id);
    RejoinedIsTheSame(s.drafts[r.id], r);
    ReadRestored(u, r, discard, after, w);
  }

  /** A read that finds a restored entry joins it with the record and settles it. */
  lemma ReadRestored(u: State, r: Record, discard: bool, after: After, w: bool)
    requires r.id in u.restored && u.restored[r.id].revision <= r.revision && Parsed(r)
    requires u.references == map[] && u.stale == {} && u.asides == map[]
    ensures
      var (v, ok) := ReadFinish(u, Reading(r.id, discard, u.accessGeneration, EditOf(u, r.id), after), Body(r), true, w);
      && ok && v.drafts == u.drafts[r.id := Rejoin(u.restored[r.id], r)] && v.restored == u.restored - {r.id}
  {
    hide Rejoin, Persist, Parsed;
  }

  /** A creation comes back replaceable exactly when its definite rejection was recorded. */
  lemma RestoredCreation(s: State, allowed: bool, canCreate: bool)
    requires CreateOk(s) && s.pendingCreate.Some? && StoredCreate(s.disk) == LocalCreate(s)
    ensures
      var t := Restore(s.disk);
      && t.pendingCreate.Some? && !t.creating
      && t.pendingCreate.value.requestId == s.pendingCreate.value.requestId
      && t.pendingCreate.value.target == s.pendingCreate.value.target
      && t.pendingCreate.value.draft == s.pendingCreate.value.draft
      && (MayCreate(t, allowed, canCreate) <==> allowed && canCreate && !s.creating && !s.pendingCreate.value.uncertain)
      && (!s.createRejected ==> t.pendingCreate.value.uncertain)
  {
  }

  // ----- Writes that reach storage

  /** Only what storage holds, and what it should hold, matters. */
  ghost predicate SameSaved(s: State, t: State) {
    && s.drafts == t.drafts && s.restored == t.restored && s.disk == t.disk
    && s.pendingCreate == t.pendingCreate && s.createRejected == t.createRejected
  }

  lemma SameFlush(s: State, t: State, id: Id)
    requires SameSaved(s, t) && DurableAt(s, id)
    ensures DurableAt(t, id)
  {
    hide Keep, Revive, ReviveCreate;
  }

  lemma Flush(t: State, id: Id)
    requires !(id in t.drafts && id in t.restored)
    ensures DurableAt(Publish(t, true), id)
  {
    hide Keep, Revive, ReviveCreate;
    var p := Persist(t);
    assert id in p.drafts <==> id in t.restored || (id in t.drafts && Recovery(t.drafts[id]));
    if p.drafts == map[] { assert id !in p.drafts; }
  }

  lemma PutFlush(s: State, target: Id, d: Draft, id: Id)
    requires At(s, id) && target in s.drafts
    ensures DurableAt(PutDraft(s, target, d, true), id)
  {
    hide Publish, DurableAt, DraftOk, SavedOk;
    Flush(s.(drafts := s.drafts[target := d]), id);
  }

  lemma InstallFlush(s: State, d: Draft, id: Id)
    requires At(s, id)
    ensures DurableAt(Install(s, d, true), id)
  {
    hide Publish, DurableAt, DraftOk, SavedOk, Summarized;
    var t := d.record.id;
    Flush(Summarized(s.(drafts := s.drafts[t := d], restored := s.restored - {t}), d.record), id);
  }

  lemma MergeFlush(s: State, r: Record, id: Id)
    requires At(s, id) && DurableAt(s, id) && Admissible(s, r, None)
    ensures DurableAt(Merge(s, r, true).0, id)
  {
    hide DurableAt, At, Install, PutDraft, Rejoin, Advance, FreshDraft, RetainReference, Admissible, SameContents;
    if Consistent(s, r) {
      RetainAt(s, r, id);
      var s1 := RetainReference(s, r);
      SameFlush(s, s1, id);
      if r.id in s1.restored { InstallFlush(s1, Rejoin(s1.restored[r.id], r), id); }
      InstallFlush(s1, FreshDraft(r, 0), id);
      if r.id in s1.drafts {
        InstallFlush(s1, Advance(s1.drafts[r.id], r), id);
        PutFlush(s1, r.id, s1.drafts[r.id].(readError := false), id);
      }
    }
  }

  lemma ReadFailedFlush(s: State, target: Id, id: Id)
    requires At(s, id)
    ensures DurableAt(ReadFailed(s, target, true), id)
  {
    hide DurableAt, PutDraft, Publish;
    Flush(s, id);
    if target in s.drafts { PutFlush(s, target, s.drafts[target].(readError := true), id); }
  }

  lemma ReadFlush(s: State, t: Task, response: Response, allowed: bool, id: Id)
    requires At(s, id) && DurableAt(s, id) && t.Reading?
    ensures DurableAt(ReadFinish(s, t, response, allowed, true).0, id)
  {
    hide DurableAt, At, Install, Merge, FreshDraft, RetainReference, ConfirmRead, ReadFailed, Publish, MayDiscard;
    var u := ReadFinish(s, t, response, allowed, true).0;
    ReadFailedFlush(s, t.id, id);
    if response.Body? && Admissible(s, response.record, Some(t.id)) {
      var r := response.record;
      var (m, ok) := Merge(s, r, true);
      MergeAt(s, r, true, id);
      MergeFlush(s, r, id);
      ReadFailedFlush(m, t.id, id);
      NotBoth(m, id);
      Flush(m, id);
      SameFlush(Publish(m, true), ConfirmRead(Publish(m, true), r), id);
      if Consistent(s, r) {
        RetainAt(s, r, id);
        var d := FreshDraft(r, (if t.edit.Some? then t.edit.value else 0) + 1);
        var i := Install(RetainReference(s, r), d, true);
        InstallFlush(RetainReference(s, r), d, id);
        SameFlush(i, ConfirmRead(i, r), id);
      }
    }
  }

  lemma NotBoth(s: State, id: Id)
    requires At(s, id)
    ensures !(id in s.drafts && id in s.restored)
  {
  }

  lemma EditFlush(s: State, target: Id, text: string, allowed: bool, id: Id)
    requires At(s, id) && DurableAt(s, id)
    ensures DurableAt(Edit(s, target, text, allowed, true), id)
  {
    hide DurableAt, At, PutDraft, ValidText;
    if target in s.drafts {
      var d := s.drafts[target];
      PutFlush(s, target, d.(error := true), id);
      PutFlush(s, target, d.(text := text, edit := d.edit + 1, dirty := text != d.record.draft,
                             error := (d.operation.Some? || d.conflict) && d.error), id);
    }
  }

  lemma LaunchFlush(s: State, target: Id, op: Operation, sent: Operation, id: Id)
    requires At(s, id) && target in s.drafts
    ensures DurableAt(PerformBegin(PutDraft(s, target, s.drafts[target].(operation := Some(op), error := false), true), target, sent).0, id)
  {
    hide DurableAt, At, PutDraft;
    var t := PutDraft(s, target, s.drafts[target].(operation := Some(op), error := false), true);
    PutFlush(s, target, s.drafts[target].(operation := Some(op), error := false), id);
    SameFlush(t, PerformBegin(t, target, sent).0, id);
  }

  lemma GoFlush(s: State, target: Id, lifecycle: Lifecycle, token: Token, allowed: bool, id: Id)
    requires At(s, id) && DurableAt(s, id)
    ensures DurableAt(SaveGo(s, target, token, allowed, true).0, id)
    ensures DurableAt(SetStateGo(s, target, lifecycle, token, allowed, true).0, id)
    ensures DurableAt(Reconcile(s, target, allowed, true).0, id)
  {
    hide DurableAt, At, PutDraft, PerformBegin;
    if target in s.drafts {
      var d := s.drafts[target];
      var save := Operation(SaveDraft(token, d.record.revision, d.text), d.edit, false);
      var change := Operation(SetState(token, d.record.revision, lifecycle), d.edit, false);
      LaunchFlush(s, target, save, save, id);
      LaunchFlush(s, target, change, change, id);
      if d.operation.Some? { LaunchFlush(s, target, d.operation.value.(uncertain := false), d.operation.value, id); }
    }
  }

  lemma FinishFlush(s: State, target: Id, op: Operation, acknowledged: Option<nat>, locked: bool, id: Id)
    requires At(s, id) && DurableAt(s, id)
    ensures DurableAt(Finish(s, target, op, acknowledged, locked, true), id)
  {
    hide DurableAt, At, PutDraft, Publish, Unlock;
    var s1 := Unlock(s, target, locked);
    UnlockAt(s, target, locked, id);
    SameFlush(s, s1, id);
    NotBoth(s1, id);
    Flush(s1, id);
    if target in s1.drafts && acknowledged.Some? {
      var d := s1.drafts[target];
      PutFlush(s1, target, d.(operation := None, conflict := d.conflict || (d.record.revision > acknowledged.value && d.dirty)), id);
    }
  }

  lemma ReplyFlush(s: State, target: Id, op: Operation, response: Response, allowed: bool, id: Id)
    requires At(s, id) && DurableAt(s, id) && Owns(s, target, op)
    ensures DurableAt(PerformReply(s, target, op, response, allowed, true).0, id)
  {
    hide DurableAt, At, PutDraft, Publish, Unlock, Acknowledge, RetainReference, Summarized, Finish, Acknowledges, Admissible, Consistent;
    var d := s.drafts[target];
    if Confirms(s, target, op, response) {
      var r := response.record;
      if Consistent(s, r) {
        ConfirmedFlush(s, target, op, r, id);
      } else {
        if id == target { HeldOk(s, id); ReadErrorSteps(d, id, true); }
        var s1 := PutDraft(s, target, d.(readError := true), true);
        PutFlush(s, target, d.(readError := true), id);
        PutOver(s, target, d.(readError := true), true, id, Quiet);
        FinishFlush(s1, target, op, Some(r.revision), true, id);
      }
    } else {
      var s1 := Unlock(s, target, true);
      UnlockAt(s, target, true, id);
      PutFlush(s1, target, d.(operation := None, conflict := true, error := true), id);
      PutFlush(s1, target, d.(operation := None, error := true), id);
      var e := d.(operation := Some(op.(uncertain := true)), error := true);
      PutFlush(s, target, e, id);
      SameFlush(PutDraft(s, target, e, true), Unlock(PutDraft(s, target, e, true), target, true), id);
    }
  }

  lemma HeldOk(s: State, id: Id)
    requires At(s, id) && id in s.drafts
    ensures DraftOk(s.drafts[id], id)
  {
  }

  lemma ConfirmedFlush(s: State, target: Id, op: Operation, r: Record, id: Id)
    requires At(s, id) && Owns(s, target, op) && Admissible(s, r, Some(target)) && Consistent(s, r) && Acknowledges(r, op.payload)
    ensures
      var s1 := RetainReference(s, r);
      var s2 := PutDraft(s1, target, Acknowledge(s1.drafts[target], op, r), true);
      DurableAt(Publish(Summarized(s2, s2.drafts[target].record), true), id)
  {
    hide DurableAt, PutDraft, Publish, Acknowledge, Summarized, DraftOk, SavedOk, Parsed, Acknowledges;
    RetainAt(s, r, id);
    var s1 := RetainReference(s, r);
    var e := Acknowledge(s1.drafts[target], op, r);
    if id == target { AcknowledgeSteps(s1.drafts[target], id, op, r); }
    AcknowledgedRecord(s1.drafts[target], op, r);
    PutOver(s1, target, e, true, id, Quiet);
    PutDrafts(s1, target, e, true);
    var s2 := PutDraft(s1, target, e, true);
    Flush(Summarized(s2, s2.drafts[target].record), id);
  }

  lemma CreateReplyFlush(s: State, t: Task, response: Response, allowed: bool, id: Id)
    requires At(s, id) && t.Creating?
    ensures DurableAt(CreateReply(s, t, response, allowed, true).0, id)
  {
    hide DurableAt, At, Publish, Merge, Admissible, Consistent, RetainReference, ConfirmRead, Summarized, AcknowledgesCreate;
    CreateFailedFlush(s, t.pending, response.Rejected? || response.Conflicted?, id);
    CreateFailedFlush(s, t.pending, false, id);
    if response.Body? && Admissible(s, response.record, None) && Consistent(s, response.record) {
      var r := response.record;
      LearnedAt(s, r, true, id);
      var s1 := if r.id in s.restored then RetainReference(s, r) else Merge(RetainReference(s, r), r, true).0;
      CreateFailedFlush(s1, t.pending, false, id);
      CreatedFlush(s1, r, t.pending.uncertain || r.id in s.restored, s1.selectionRevision == t.selectionRevision, id);
    }
  }

  lemma CreateFailedFlush(s: State, p: PendingCreate, rejected: bool, id: Id)
    requires At(s, id)
    ensures DurableAt(CreateFailed(s, p, rejected, true), id)
  {
    hide DurableAt, Publish;
    Flush(s.(createRejected := rejected, creating := false,
             pendingCreate := Some(p.(uncertain := !rejected, error := true))), id);
  }

  lemma CreatedFlush(s: State, r: Record, again: bool, select: bool, id: Id)
    requires At(s, id)
    ensures DurableAt(Created(s, r, again, select, true), id)
  {
    hide DurableAt, Publish, ConfirmRead, Summarized;
    var s1 := if again then s.(stale := s.stale + {r.id}) else ConfirmRead(s, r);
    var s2 := if select then s1.(selected := Some(r.id)) else s1;
    Flush(Summarized(s2, r).(pendingCreate := None, creating := false), id);
  }

  lemma RetryFlush(s: State, allowed: bool, id: Id)
    requires !(id in s.drafts && id in s.restored) && DurableAt(s, id)
    ensures DurableAt(RetryCreate(s, allowed, true).0, id)
  {
    hide DurableAt, Publish;
    if s.pendingCreate.Some? {
      Flush(s.(createRejected := false, creating := true,
               pendingCreate := Some(s.pendingCreate.value.(uncertain := false, error := false))), id);
    }
  }

  lemma CreateFlush(s: State, target: Target, text: string, token: Token, allowed: bool, canCreate: bool, id: Id)
    requires !(id in s.drafts && id in s.restored) && DurableAt(s, id)
    ensures DurableAt(Create(s, target, text, token, allowed, canCreate, true).0, id)
  {
    hide DurableAt, Publish, RetryCreate, ValidText;
    Flush(s, id);
    var s1 := s.(createRejected := false, pendingCreate := Some(PendingCreate(token, target, text, false, false)));
    Flush(s1, id);
    RetryFlush(Publish(s1, true), allowed, id);
  }

  lemma OpenFlush(s: State, target: Id, refresh: bool, allowed: bool, id: Id)
    requires !(id in s.drafts && id in s.restored) && DurableAt(s, id)
    ensures DurableAt(OpenAside(s, target, refresh, allowed, true).0, id)
  {
    hide DurableAt, Publish;
    Flush(s.(selectionRevision := s.selectionRevision + 1, selected := Some(target)), id);
  }

  lemma RefreshFlush(s: State, revalidate: bool, allowed: bool, id: Id)
    requires !(id in s.drafts && id in s.restored) && DurableAt(s, id)
    ensures DurableAt(Refresh(s, revalidate, allowed, true).0, id)
  {
    hide DurableAt, Publish;
    Flush(s.(reading := s.reading + 1), id);
  }

  lemma CallFlush(s: State, m: Move, id: Id)
    requires At(s, id) && DurableAt(s, id) && m.w
    ensures DurableAt(Call(s, m).0, id)
  {
    hide DurableAt, At, Edit, SaveGo, SetStateGo, Reconcile, Create, RetryCreate, OpenAside, Refresh;
    NotBoth(s, id);
    match m.event
    case Edits(target, text) => EditFlush(s, target, text, m.allowed, id);
    case Saves(target, token) => GoFlush(s, target, Lifecycle.Open, token, m.allowed, id);
    case Sets(target, lifecycle, token) => GoFlush(s, target, lifecycle, token, m.allowed, id);
    case Reconciles(target) => GoFlush(s, target, Lifecycle.Open, 0, m.allowed, id);
    case Opens(target, refresh) => OpenFlush(s, target, refresh, m.allowed, id);
    case Refreshes(revalidate) => RefreshFlush(s, revalidate, m.allowed, id);
    case Creates(target, text, token, canCreate) => CreateFlush(s, target, text, token, m.allowed, canCreate, id);
    case RetriesCreate => RetryFlush(s, m.allowed, id);
    case LosesAccess => SameFlush(s, RetireAccess(s), id);
    case _ =>
  }

  lemma WakeFlush(s: State, t: Task, m: Move, id: Id)
    requires At(s, id) && DurableAt(s, id) && m.w && TaskOk(s, t) && Wake(s, t, m).Some?
    ensures DurableAt(Wake(s, t, m).value.0, id)
  {
    hide DurableAt, At, Publish, ReadFinish, PerformReply, CreateReply, ReferenceReply, ListReply, Resume, Owns;
    match m.event
    case Answers(_, response) =>
      match t {
        case Reading(_, _, _, _, _) => ReadFlush(s, t, response, m.allowed, id);
        case Performing(target, op) => ReplyFlush(s, target, op, response, m.allowed, id);
        case Creating(_, _) => CreateReplyFlush(s, t, response, m.allowed, id);
        case Referencing(_, _) => ReferenceFlush(s, t, response, m.allowed, id);
        case _ =>
      }
    case Lists(_, items) => ListFlush(s, t, items, m.allowed, id);
    case Continues(_, token) => ResumeFlush(s, t, token, m.allowed, id);
    case _ =>
  }

  lemma ReferenceFlush(s: State, t: Task, response: Response, allowed: bool, id: Id)
    requires At(s, id) && DurableAt(s, id) && t.Referencing?
    ensures DurableAt(ReferenceReply(s, t, response, allowed, true), id)
  {
    hide DurableAt, At, Merge, ConfirmRead;
    if response.Body? && Admissible(s, response.record, Some(t.id)) {
      var m := Merge(s, response.record, true).0;
      MergeFlush(s, response.record, id);
      SameFlush(m, ConfirmRead(m, response.record), id);
    }
  }

  lemma ListFlush(s: State, t: Task, items: ListResponse, allowed: bool, id: Id)
    requires At(s, id) && DurableAt(s, id) && t.Listing?
    ensures DurableAt(ListReply(s, t, items, allowed, true), id)
  {
    hide DurableAt, At, Publish, WithList, AdmissibleList;
    NotBoth(s, id);
    Flush(s, id);
    if items.Listed? { Flush(WithList(s, items.items), id); }
  }

  lemma ResumeFlush(s: State, t: Task, token: Token, allowed: bool, id: Id)
    requires At(s, id) && DurableAt(s, id) && t.Resuming?
    ensures DurableAt(Resume(s, t.ok, t.after, token, allowed, true).0, id)
  {
    hide DurableAt, At, SaveGo, SetStateGo, Finish;
    match t.after
    case Nothing =>
    case ThenSave(target, _) => GoFlush(s, target, Lifecycle.Open, token, allowed, id);
    case ThenSetState(target, lifecycle) => GoFlush(s, target, lifecycle, token, allowed, id);
    case ThenFinish(target, op, acknowledged, locked) => FinishFlush(s, target, op, acknowledged, locked, id);
  }

  /** Where storage takes the writes, it is up to date after every move, crashes included. */
  lemma StepDurable(y: System, m: Move)
    requires Inv(y) && Durable(y.s) && m.w
    ensures Durable(Step(y, m).s)
  {
    hide At, DurableAt, Wake, Call, LocksOk, CreateOk;
    forall id ensures DurableAt(Step(y, m).s, id) {
      WellFormedAt(y.s, id);
      if m.event.Crashes? {
        CrashKeepsLocal(y.s, id);
      } else if Woken(m.event).Some? {
        var k := Woken(m.event).value;
        if k in y.tasks && Wake(y.s, y.tasks[k], m).Some? {
          assert TaskOk(y.s, y.tasks[k]) by { TasksOk(y, k); }
          WakeFlush(y.s, y.tasks[k], m, id);
        }
      } else {
        CallFlush(y.s, m, id);
      }
    }
  }

  lemma TasksOk(y: System, k: nat)
    requires Inv(y) && k in y.tasks
    ensures TaskOk(y.s, y.tasks[k])
  {
  }
}
