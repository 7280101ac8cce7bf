/**
 What `uncertain` means: an operation that is not being sent is one whose outcome is unknown. So the owner can
 tell the first attempt of an operation from a repeated one.
 */
module AsideDoubt {
  import opened Wrappers
  import opened AsideProtocol
  import opened AsideInvariants
  import opened AsideRuns
  import opened AsideProvenance

  ghost predicate SureAt(s: State, id: Id) {
    id in s.drafts && s.drafts[id].operation.Some? && id !in s.mutations ==> s.drafts[id].operation.value.uncertain
  }

  /** The draft may stand without a lock. */
  predicate Doubted(d: Draft) {
    d.operation.Some? ==> d.operation.value.uncertain
  }

  lemma SameSure(s: State, t: State, id: Id)
    requires SureAt(s, id) && s.drafts == t.drafts && s.mutations <= t.mutations
    ensures SureAt(t, id)
  {
  }

  lemma PutSure(s: State, target: Id, d: Draft, w: bool, id: Id)
    requires SureAt(s, id) && (id == target && id !in s.mutations ==> Doubted(d))
    ensures SureAt(PutDraft(s, target, d, w), id)
  {
    hide Publish;
  }

  lemma InstallSure(s: State, d: Draft, w: bool, id: Id)
    requires SureAt(s, id) && (id == d.record.id && id !in s.mutations ==> Doubted(d))
    ensures SureAt(Install(s, d, w), id)
  {
    hide Publish;
  }

  lemma MergeSure(s: State, r: Record, w: bool, id: Id)
    requires SureAt(s, id) && At(s, r.id)
    ensures SureAt(Merge(s, r, w).0, id)
  {
    hide SureAt, Install, PutDraft, DraftOk, SavedOk, ReferenceOk, Rejoin, Advance, FreshDraft, Consistent, SameContents;
    var s1 := RetainReference(s, r);
    SameSure(s, s1, id);
    if r.id in s1.restored { InstallSure(s1, Rejoin(s1.restored[r.id], r), w, id); }
    InstallSure(s1, FreshDraft(r, 0), w, id);
    if r.id in s1.drafts {
      var d := s1.drafts[r.id];
      assert r.id == id && id !in s.mutations ==> Doubted(d) by { SureIs(s, id); }
      InstallSure(s1, Advance(d, r), w, id);
      PutSure(s1, r.id, d.(readError := false), w, id);
    }
  }

  lemma SureIs(s: State, id: Id)
    requires SureAt(s, id)
    ensures id in s.drafts && id !in s.mutations ==> Doubted(s.drafts[id])
  {
  }

  lemma ReadFailedSure(s: State, target: Id, w: bool, id: Id)
    requires SureAt(s, id)
    ensures SureAt(ReadFailed(s, target, w), id)
  {
    hide SureAt, PutDraft, Publish;
    SameSure(s, Publish(s, w), id);
    SureIs(s, id);
    if target in s.drafts { PutSure(s, target, s.drafts[target].(readError := true), w, id); }
  }

  lemma ReadSure(s: State, t: Task, response: Response, allowed: bool, w: bool, id: Id)
    requires SureAt(s, id) && t.Reading? && At(s, t.id)
    ensures SureAt(ReadFinish(s, t, response, allowed, w).0, id)
  {
    hide SureAt, At, Install, Merge, FreshDraft, RetainReference, ConfirmRead, ReadFailed, Publish, Consistent, MayDiscard, Admissible, EditOf;
    ReadFailedSure(s, t.id, w, id);
    if response.Body? && Admissible(s, response.record, Some(t.id)) {
      ForThisAside(s, response.record, t.id);
      TakenSure(s, response.record, t.id, w, id);
      ReloadedSure(s, response.record, (if t.edit.Some? then t.edit.value else 0) + 1, w, id);
    }
  }

  lemma ForThisAside(s: State, r: Record, id: Id)
    requires Admissible(s, r, Some(id))
    ensures r.id == id
  {
  }

  /** A record that was taken in, with the read that failed or was confirmed. */
  lemma TakenSure(s: State, r: Record, target: Id, w: bool, id: Id)
    requires SureAt(s, id) && At(s, r.id)
    ensures var m := Merge(s, r, w).0; SureAt(ReadFailed(m, target, w), id) && SureAt(ConfirmRead(Publish(m, w), r), id)
  {
    hide SureAt, At, Merge, ReadFailed, Publish;
    var m := Merge(s, r, w).0;
    MergeSure(s, r, w, id);
    ReadFailedSure(m, target, w, id);
    SameSure(m, ConfirmRead(Publish(m, w), r), id);
  }

  lemma ReloadedSure(s: State, r: Record, edit: nat, w: bool, id: Id)
    requires SureAt(s, id)
    ensures SureAt(ConfirmRead(Install(RetainReference(s, r), FreshDraft(r, edit), w), r), id)
  {
    hide SureAt, Install, FreshDraft;
    var s1 := RetainReference(s, r);
    SameSure(s, s1, id);
    InstallSure(s1, FreshDraft(r, edit), w, id);
    SameSure(Install(s1, FreshDraft(r, edit), w), ConfirmRead(Install(s1, FreshDraft(r, edit), w), r), id);
  }

  lemma EditSure(s: State, target: Id, text: string, allowed: bool, w: bool, id: Id)
    requires SureAt(s, id)
    ensures SureAt(Edit(s, target, text, allowed, w), id)
  {
    hide SureAt, PutDraft, ValidText;
    SureIs(s, id);
    if target in s.drafts {
      var d := s.drafts[target];
      PutSure(s, target, d.(error := true), w, id);
      PutSure(s, target, d.(text := text, edit := d.edit + 1, dirty := text != d.record.draft,
                            error := (d.operation.Some? || d.conflict) && d.error), w, id);
    }
  }

  /** An operation that is launched is locked. */
  lemma LaunchSure(s: State, target: Id, op: Operation, sent: Operation, w: bool, id: Id)
    requires SureAt(s, id) && target in s.drafts
    ensures SureAt(PerformBegin(PutDraft(s, target, s.drafts[target].(operation := Some(op), error := false), w), target, sent).0, id)
  {
    hide Publish;
  }

  lemma GoSure(s: State, target: Id, lifecycle: Lifecycle, token: Token, allowed: bool, w: bool, id: Id)
    requires SureAt(s, id)
    ensures SureAt(SaveGo(s, target, token, allowed, w).0, id)
    ensures SureAt(SetStateGo(s, target, lifecycle, token, allowed, w).0, id)
    ensures SureAt(Reconcile(s, target, allowed, w).0, id)
  {
    hide SureAt, PutDraft, PerformBegin;
    if target in s.drafts {
      var d := s.drafts[target];
      var save := Operation(SaveDraft(token, d.record.revision, d.text), d.edit, false);
      var change := Operation(SetState(token, d.record.revision, lifecycle), d.edit, false);
      LaunchSure(s, target, save, save, w, id);
      LaunchSure(s, target, change, change, w, id);
      if d.operation.Some? { LaunchSure(s, target, d.operation.value.(uncertain := false), d.operation.value, w, id); }
    }
  }

  lemma FinishSure(s: State, target: Id, op: Operation, acknowledged: Option<nat>, locked: bool, w: bool, id: Id)
    requires SureAt(s, id) && (locked ==> HoldsOp(s, target, op)) && acknowledged.Some? == locked
    ensures SureAt(Finish(s, target, op, acknowledged, locked, w), id)
  {
    hide Publish;
  }

  lemma ConfirmedSure(s: State, target: Id, op: Operation, r: Record, w: bool, id: Id)
    requires SureAt(s, id) && Owns(s, target, op)
    ensures
      var s1 := RetainReference(s, r);
      var s2 := PutDraft(s1, target, Acknowledge(s1.drafts[target], op, r), w);
      SureAt(Publish(Summarized(s2, s2.drafts[target].record), w), id)
  {
    hide SureAt, PutDraft, Publish, RetainReference, Acknowledge;
    var s1 := RetainReference(s, r);
    SameSure(s, s1, id);
    var e := Acknowledge(s1.drafts[target], op, r);
    PutSure(s1, target, e, w, id);
    PutDrafts(s1, target, e, w);
    var s2 := PutDraft(s1, target, e, w);
    SameSure(s2, Publish(Summarized(s2, s2.drafts[target].record), w), id);
  }

  lemma ReplySure(s: State, target: Id, op: Operation, response: Response, allowed: bool, w: bool, id: Id)
    requires SureAt(s, id) && Owns(s, target, op)
    ensures SureAt(PerformReply(s, target, op, response, allowed, w).0, id)
  {
    hide SureAt, PutDraft, Publish, Unlock, Acknowledge, RetainReference, Summarized, Finish, Acknowledges, Admissible, Consistent;
    if Confirms(s, target, op, response) {
      var r := response.record;
      ConfirmedSure(s, target, op, r, w, id);
      if !Consistent(s, r) { ContradictedSure(s, target, op, r, w, id); }
    } else {
      RefusedSure(s, target, op, w, id);
    }
  }

  lemma ContradictedSure(s: State, target: Id, op: Operation, r: Record, w: bool, id: Id)
    requires SureAt(s, id) && Owns(s, target, op)
    ensures SureAt(Finish(PutDraft(s, target, s.drafts[target].(readError := true), w), target, op, Some(r.revision), true, w), id)
  {
    hide SureAt, PutDraft, Finish;
    var e := s.drafts[target].(readError := true);
    PutSure(s, target, e, w, id);
    PutDrafts(s, target, e, w);
    FinishSure(PutDraft(s, target, e, w), target, op, Some(r.revision), true, w, id);
  }

  lemma RefusedSure(s: State, target: Id, op: Operation, w: bool, id: Id)
    requires SureAt(s, id) && Owns(s, target, op)
    ensures
      var d := s.drafts[target];
      && SureAt(PutDraft(Unlock(s, target, true), target, d.(operation := None, conflict := true, error := true), w), id)
      && SureAt(PutDraft(Unlock(s, target, true), target, d.(operation := None, error := true), w), id)
      && SureAt(Unlock(PutDraft(s, target, d.(operation := Some(op.(uncertain := true)), error := true), w), target, true), id)
  {
    hide Publish;
  }

  lemma CreateReplySure(s: State, t: Task, response: Response, allowed: bool, w: bool, id: Id)
    requires SureAt(s, id) && t.Creating? && (response.Body? ==> At(s, response.record.id))
    ensures SureAt(CreateReply(s, t, response, allowed, w).0, id)
  {
    hide SureAt, At, KeptAt, Publish, Merge, RetainReference, Created, CreateFailed, AcknowledgesCreate, Parsed, SameContents;
    CreateFailedSure(s, t.pending, response.Rejected? || response.Conflicted?, w, id);
    CreateFailedSure(s, t.pending, false, w, id);
    if response.Body? && Admissible(s, response.record, None) && Consistent(s, response.record) {
      var r := response.record;
      var s0 := RetainReference(s, r);
      SameSure(s, s0, id);
      RetainAt(s, r, r.id);
      MergeSure(s0, r, w, id);
      var s1 := if r.id in s.restored then s0 else Merge(s0, r, w).0;
      CreateFailedSure(s1, t.pending, false, w, id);
      CreatedSure(s1, r, t.pending.uncertain || r.id in s.restored, s1.selectionRevision == t.selectionRevision, w, id);
    }
  }

  lemma CreateFailedSure(s: State, p: PendingCreate, rejected: bool, w: bool, id: Id)
    requires SureAt(s, id)
    ensures SureAt(CreateFailed(s, p, rejected, w), id)
  {
    hide Publish;
  }

  lemma CreatedSure(s: State, r: Record, again: bool, select: bool, w: bool, id: Id)
    requires SureAt(s, id)
    ensures SureAt(Created(s, r, again, select, w), id)
  {
    hide Publish;
  }

  lemma ListSure(s: State, t: Task, items: ListResponse, allowed: bool, w: bool, id: Id)
    requires SureAt(s, id) && t.Listing?
    ensures SureAt(ListReply(s, t, items, allowed, w), id)
  {
    hide Publish, WithList, AdmissibleList;
  }

  lemma CallSure(s: State, m: Move, id: Id)
    requires SureAt(s, id)
    ensures SureAt(Call(s, m).0, id)
  {
    hide SureAt, Publish, Edit, SaveGo, SetStateGo, Reconcile, Create, RetryCreate, OpenAside, Refresh;
    match m.event
    case Edits(target, text) => EditSure(s, target, text, m.allowed, m.w, id);
    case Saves(target, token) => GoSure(s, target, Lifecycle.Open, token, m.allowed, m.w, id);
    case Sets(target, lifecycle, token) => GoSure(s, target, lifecycle, token, m.allowed, m.w, id);
    case Reconciles(target) => GoSure(s, target, Lifecycle.Open, 0, m.allowed, m.w, id);
    case _ => OtherCalls(s, m); SameSure(s, Call(s, m).0, id);
  }

  lemma OtherCalls(s: State, m: Move)
    requires !m.event.Edits? && !m.event.Saves? && !m.event.Sets? && !m.event.Reconciles?
    ensures SameHeld(s, Call(s, m).0)
  {
    hide Publish, Create, RetryCreate, OpenAside, Refresh;
    match m.event
    case Creates(target, text, token, canCreate) => CreateHeld(s, target, text, token, m.allowed, canCreate, m.w);
    case RetriesCreate => RetryHeld(s, m.allowed, m.w);
    case Opens(id, refresh) => OpenHeld(s, id, refresh, m.allowed, m.w);
    case Refreshes(revalidate) => OpenHeld(s, 0, revalidate, m.allowed, m.w);
    case _ =>
  }

  ghost predicate SameHeld(s: State, t: State) {
    s.drafts == t.drafts && s.mutations == t.mutations
  }

  lemma RetryHeld(s: State, allowed: bool, w: bool)
    ensures SameHeld(s, RetryCreate(s, allowed, w).0)
  {
    hide Publish;
  }

  lemma CreateHeld(s: State, target: Target, text: string, token: Token, allowed: bool, canCreate: bool, w: bool)
    ensures SameHeld(s, Create(s, target, text, token, allowed, canCreate, w).0)
  {
    hide Publish, RetryCreate, ValidText;
    RetryHeld(Publish(s.(createRejected := false, pendingCreate := Some(PendingCreate(token, target, text, false, false))), w), allowed, w);
  }

  lemma OpenHeld(s: State, id: Id, again: bool, allowed: bool, w: bool)
    ensures SameHeld(s, OpenAside(s, id, again, allowed, w).0)
    ensures SameHeld(s, Refresh(s, again, allowed, w).0)
  {
    hide Publish;
  }

  lemma ReferenceSure(s: State, t: Task, response: Response, allowed: bool, w: bool, id: Id)
    requires SureAt(s, id) && t.Referencing? && (response.Body? ==> At(s, response.record.id))
    ensures SureAt(ReferenceReply(s, t, response, allowed, w), id)
  {
    hide SureAt, At, Merge, ConfirmRead, Admissible;
    if response.Body? {
      var m := Merge(s, response.record, w).0;
      MergeSure(s, response.record, w, id);
      SameSure(m, ConfirmRead(m, response.record), id);
    }
  }

  lemma ResumeSure(s: State, t: Task, token: Token, allowed: bool, w: bool, id: Id)
    requires SureAt(s, id) && t.Resuming? && TaskOk(s, t)
    ensures SureAt(Resume(s, t.ok, t.after, token, allowed, w).0, id)
  {
    hide SureAt, SaveGo, SetStateGo, Finish;
    match t.after
    case Nothing =>
    case ThenSave(target, _) => GoSure(s, target, Lifecycle.Open, token, allowed, w, id);
    case ThenSetState(target, lifecycle) => GoSure(s, target, lifecycle, token, allowed, w, id);
    case ThenFinish(target, op, acknowledged, locked) => FinishSure(s, target, op, acknowledged, locked, w, id);
  }

  lemma WakeSure(s: State, t: Task, m: Move, id: Id)
    requires WF(s) && SureAt(s, id) && TaskOk(s, t) && Wake(s, t, m).Some?
    ensures SureAt(Wake(s, t, m).value.0, id)
  {
    hide SureAt, At, WF, Publish, ReadFinish, PerformReply, CreateReply, ReferenceReply, ListReply, Resume, Owns;
    match m.event
    case Answers(_, response) =>
      if response.Body? { WellFormedAt(s, response.record.id); }
      match t {
        case Reading(_, _, _, _, _) => WellFormedAt(s, t.id); ReadSure(s, t, response, m.allowed, m.w, id);
        case Performing(target, op) => ReplySure(s, target, op, response, m.allowed, m.w, id);
        case Creating(_, _) => CreateReplySure(s, t, response, m.allowed, m.w, id);
        case Referencing(_, _) => ReferenceSure(s, t, response, m.allowed, m.w, id);
        case _ =>
      }
    case Lists(_, items) => ListSure(s, t, items, m.allowed, m.w, id);
    case Continues(_, token) => ResumeSure(s, t, token, m.allowed, m.w, id);
    case _ =>
  }

  /** After any move: an operation whose request is not on its way has an unknown outcome. */
  lemma StepSure(y: System, m: Move, id: Id)
    requires Inv(y) && SureAt(y.s, id)
    ensures SureAt(Step(y, m).s, id)
  {
    hide At, Wake, Call, WF, LocksOk;
    if m.event.Crashes? {
    } else if Woken(m.event).Some? {
      var k := Woken(m.event).value;
      if k in y.tasks && Wake(y.s, y.tasks[k], m).Some? {
        assert TaskOk(y.s, y.tasks[k]) by { HeldTask(y, k); }
        WakeSure(y.s, y.tasks[k], m, id);
      }
    } else {
      CallSure(y.s, m, id);
    }
  }

  lemma HeldTask(y: System, k: nat)
    requires Inv(y) && k in y.tasks
    ensures TaskOk(y.s, y.tasks[k])
  {
  }

  /** A repeated request is one whose outcome was unknown; and nothing else repeats one. */
  lemma RepeatsDoubt(y: System, m: Move)
    requires Inv(y) && m.event.Reconciles? && Sends(y, m).Some? && SureAt(y.s, m.event.id)
    ensures
      var t := Step(y, m).tasks[y.next];
      t.Performing? && t.id == m.event.id && t.id !in y.s.mutations && t.op.uncertain
  {
    hide WF, LocksOk;
    ReconcileIs(y.s, m.event.id, m.allowed, m.w);
    NextIsNew(y);
  }

  lemma NextIsNew(y: System)
    requires Inv(y)
    ensures y.next !in y.tasks
  {
  }

  lemma ReconcileIs(s: State, id: Id, allowed: bool, w: bool)
    requires Reconcile(s, id, allowed, w).1.Some?
    ensures id in s.drafts && s.drafts[id].operation.Some? && id !in s.mutations
    ensures Reconcile(s, id, allowed, w).1 == Some(Performing(id, s.drafts[id].operation.value))
  {
    hide PutDraft;
  }
}
