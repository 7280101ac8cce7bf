/**
 What every stretch of the draft owner's code keeps, and what it leaves alone.
 */
module AsideInvariants {
  import opened Wrappers
  import opened AsideProtocol

  ghost predicate OpOk(op: Option<Operation>, edit: nat, revision: nat) {
    op.Some? ==>
      && op.value.edit <= edit
      && ParsedPayload(op.value.payload)
      && op.value.payload.expectedRevision <= revision
  }

  ghost predicate DraftOk(d: Draft, id: Id) {
    && d.record.id == id && Parsed(d.record) && ValidText(d.text)
    && (d.dirty <==> d.text != d.record.draft)
    && OpOk(d.operation, d.edit, d.record.revision)
  }

  /** The retained reference is the newest record seen, of the same source, and one revision
      has one content. */
  ghost predicate ReferenceOk(reference: Record, r: Record) {
    && reference.source == r.source
    && reference.revision >= r.revision
    && (reference.revision == r.revision ==> SameContents(reference, r))
  }

  /** What storage holds about an aside is what some page held: readable, and no newer than what is held now. */
  ghost predicate StoredAt(s: State, id: Id) {
    s.disk.Some? && id in s.disk.value.drafts ==>
      && var d := s.disk.value.drafts[id];
      && SavedOk(d)
      && (if id in s.drafts then d.revision <= s.drafts[id].record.revision
          else id in s.restored && d.revision <= s.restored[id].revision)
  }

  /** Everything the owner holds about one aside. Storage never holds anything about it that
      the next page would drop. */
  ghost predicate At(s: State, id: Id) {
    && (id in s.drafts ==>
          && DraftOk(s.drafts[id], id) && id !in s.restored
          && id in s.references && ReferenceOk(s.references[id], s.drafts[id].record))
    && (id in s.references ==> s.references[id].id == id && Parsed(s.references[id]))
    && (id in s.restored ==>
          && SavedOk(s.restored[id])
          && (s.restored[id].operation.Some? ==> s.restored[id].operation.value.uncertain))
    && (id in s.mutations ==> id in s.drafts && s.drafts[id].operation.Some?)
    && StoredAt(s, id)
  }

  ghost predicate SavedCreateOk(disk: Option<Persisted>) {
    disk.Some? && disk.value.pendingCreate.Some? ==> ValidText(disk.value.pendingCreate.value.draft)
  }

  /** A creation is in flight, unconfirmed, or definitely rejected, and storage holds one that is read back. */
  ghost predicate CreateOk(s: State) {
    && SavedCreateOk(s.disk)
    && (s.creating ==> s.pendingCreate.Some?)
    && (s.pendingCreate.Some? ==>
          && var p := s.pendingCreate.value;
          && ValidText(p.draft)
          && (s.creating ==> !p.uncertain && !p.error && !s.createRejected)
          && (!s.creating ==> p.error && (!p.uncertain ==> s.createRejected)))
  }

  ghost predicate WF(s: State) {
    CreateOk(s) && forall id :: At(s, id)
  }

  // ----- What a step leaves alone

  ghost predicate SamePayload(a: Option<Operation>, b: Option<Operation>) {
    a.Some? ==> b.Some? && a.value.payload == b.value.payload
  }

  /** What a step may do to one aside beyond keeping everything: an edit typed into it, an
      explicit reload of it, or the acknowledgement or definite rejection of its operation. */
  datatype Licence = Quiet | Typed | Dropped | Retired

  ghost predicate DraftKept(d: Draft, e: Draft, l: Licence) {
    && d.record.revision <= e.record.revision
    && d.edit <= e.edit
    && (!l.Dropped? && d.conflict ==> e.conflict)
    && (!l.Dropped? && !l.Typed? && Pinned(d) ==> e.text == d.text)
    && (!l.Retired? ==> SamePayload(d.operation, e.operation))
    && (l.Dropped? ==> d.operation.None?)
  }

  /** A restored entry whose record arrives: nothing the user had is lost. */
  ghost predicate RestoredKept(d: Saved, e: Draft) {
    && d.revision <= e.record.revision
    && d.edit == e.edit
    && (d.conflict ==> e.conflict)
    && (PinnedSaved(d) ==> e.text == d.text)
    && e.operation == d.operation
  }

  ghost predicate KeptAt(s: State, t: State, id: Id, l: Licence) {
    && (id in s.references ==>
          && id in t.references && s.references[id].source == t.references[id].source
          && s.references[id].revision <= t.references[id].revision)
    && (id in s.drafts ==> id in t.drafts && DraftKept(s.drafts[id], t.drafts[id], l))
    && (id in s.restored ==>
          if id in t.restored then t.restored[id] == s.restored[id]
          else id in t.drafts && RestoredKept(s.restored[id], t.drafts[id]))
    && (id in t.restored ==> id in s.restored)
  }

  // ----- One draft at a time

  lemma DraftSteps(d: Draft, id: Id, r: Record)
    requires DraftOk(d, id) && Parsed(r) && r.id == id && d.record.revision < r.revision
    ensures DraftOk(Advance(d, r), id) && DraftKept(d, Advance(d, r), Quiet)
  {
  }

  lemma RejoinSteps(d: Saved, r: Record)
    requires SavedOk(d) && Parsed(r) && d.revision <= r.revision
    ensures DraftOk(Rejoin(d, r), r.id) && RestoredKept(d, Rejoin(d, r))
  {
  }

  lemma FreshSteps(r: Record, edit: nat)
    requires Parsed(r)
    ensures DraftOk(FreshDraft(r, edit), r.id)
  {
  }

  lemma KeepSteps(d: Draft, id: Id)
    requires DraftOk(d, id)
    ensures SavedOk(Keep(d)) && Keep(d).revision == d.record.revision
  {
  }

  lemma AcknowledgeSteps(d: Draft, id: Id, op: Operation, r: Record)
    requires DraftOk(d, id) && Parsed(r) && r.id == id
    requires d.operation.Some? && d.operation.value.payload == op.payload && Acknowledges(r, op.payload)
    ensures DraftOk(Acknowledge(d, op, r), id) && DraftKept(d, Acknowledge(d, op, r), Quiet)
  {
  }

  // ----- One stretch of code at a time, seen from one aside

  lemma PublishAt(s: State, w: bool, id: Id)
    requires At(s, id)
    ensures At(Publish(s, w), id)
  {
    hide DraftOk, SavedOk, ReferenceOk, Keep;
    if id in s.drafts { KeepSteps(s.drafts[id], id); }
  }

  lemma RecordSteps(d: Draft, e: Draft, l: Licence)
    requires DraftKept(d, e, l)
    ensures d.record.revision <= e.record.revision
  {
  }

  lemma SameSteps(d: Draft, l: Licence)
    requires !l.Dropped?
    ensures DraftKept(d, d, l)
  {
  }

  lemma RetainAt(s: State, r: Record, id: Id)
    requires At(s, id) && Admissible(s, r, None) && Consistent(s, r)
    ensures At(RetainReference(s, r), id) && KeptAt(s, RetainReference(s, r), id, Quiet)
    ensures id == r.id ==> id in RetainReference(s, r).references && ReferenceOk(RetainReference(s, r).references[id], r)
  {
    hide DraftOk, SavedOk, DraftKept;
    if id in s.drafts { SameSteps(s.drafts[id], Quiet); }
  }

  /** A draft is replaced by one that is fine, on the same record or on the retained one. */
  lemma PutOver(s: State, target: Id, e: Draft, w: bool, id: Id, l: Licence)
    requires At(s, id) && target in s.drafts && !l.Dropped?
    requires id == target ==>
      && DraftOk(e, id) && DraftKept(s.drafts[id], e, l)
      && (id in s.mutations ==> e.operation.Some?)
      && (e.record == s.drafts[id].record || (id in s.references && ReferenceOk(s.references[id], e.record)))
    ensures At(PutDraft(s, target, e, w), id)
    ensures KeptAt(s, PutDraft(s, target, e, w), id, if id == target then l else Quiet)
  {
    hide DraftOk, SavedOk, ReferenceOk, Parsed, Persist, DraftKept, RestoredKept;
    if id in s.drafts && id != target { SameSteps(s.drafts[id], Quiet); }
    if id == target { RecordSteps(s.drafts[id], e, l); }
    PublishAt(s.(drafts := s.drafts[target := e]), w, id);
  }

  lemma UnlockAt(s: State, target: Id, locked: bool, id: Id)
    requires At(s, id)
    ensures At(Unlock(s, target, locked), id)
  {
    hide DraftOk, SavedOk, ReferenceOk;
  }

  lemma SameAt(s: State, id: Id)
    ensures KeptAt(s, s, id, Quiet)
  {
    hide RestoredKept, DraftKept;
    if id in s.drafts { SameSteps(s.drafts[id], Quiet); }
  }

  /** What was kept from a state with the same drafts was kept from this one. */
  lemma KeptFrom(s: State, t: State, u: State, id: Id, l: Licence)
    requires s.drafts == t.drafts && s.references == t.references && s.restored == t.restored
    requires KeptAt(t, u, id, l)
    ensures KeptAt(s, u, id, l)
  {
    hide DraftKept, RestoredKept;
  }

  lemma KeptTrans(s: State, t: State, u: State, id: Id, l: Licence)
    requires KeptAt(s, t, id, Quiet) && KeptAt(t, u, id, l)
    requires s.drafts == t.drafts && s.restored == t.restored
    ensures KeptAt(s, u, id, l)
  {
    hide DraftKept, RestoredKept;
  }

  lemma InstallAt(s: State, d: Draft, w: bool, id: Id)
    requires At(s, id)
    requires id == d.record.id ==>
      && DraftOk(d, id) && (id in s.mutations ==> d.operation.Some?)
      && id in s.references && ReferenceOk(s.references[id], d.record)
      && (id in s.drafts ==> s.drafts[id].record.revision <= d.record.revision)
      && (id in s.restored ==> s.restored[id].revision <= d.record.revision)
    ensures At(Install(s, d, w), id)
  {
    hide DraftOk, SavedOk, ReferenceOk, Parsed, Publish;
    var r := d.record;
    PublishAt(Summarized(s.(drafts := s.drafts[r.id := d], restored := s.restored - {r.id}), r), w, id);
  }

  lemma InstallKept(s: State, d: Draft, w: bool, id: Id, l: Licence)
    requires id == d.record.id && id in s.drafts ==> DraftKept(s.drafts[id], d, l)
    requires id == d.record.id && id in s.restored ==> RestoredKept(s.restored[id], d)
    requires l.Dropped? ==> id == d.record.id
    ensures KeptAt(s, Install(s, d, w), id, l)
  {
    hide DraftKept, Persist, RestoredKept;
    if id in s.drafts && !l.Dropped? { SameSteps(s.drafts[id], l); }
  }

  lemma MergeAt(s: State, r: Record, w: bool, id: Id)
    requires At(s, id) && Admissible(s, r, None)
    ensures At(Merge(s, r, w).0, id)
    ensures KeptAt(s, Merge(s, r, w).0, id, Quiet)
  {
    hide DraftOk, SavedOk, ReferenceOk, DraftKept, RestoredKept, Parsed, Rejoin, Advance, FreshDraft, Install, PutDraft;
    if id in s.drafts { SameSteps(s.drafts[id], Quiet); }
    if Consistent(s, r) {
      RetainAt(s, r, id);
      var s1 := RetainReference(s, r);
      var m := Merge(s, r, w).0;
      if r.id in s1.restored && r.revision >= s1.restored[r.id].revision {
        var d := Rejoin(s1.restored[r.id], r);
        if id == r.id { RejoinSteps(s1.restored[id], r); }
        InstallAt(s1, d, w, id); InstallKept(s1, d, w, id, Quiet);
      } else if r.id !in s1.restored && r.id !in s1.drafts {
        FreshSteps(r, 0);
        var d := FreshDraft(r, 0);
        InstallAt(s1, d, w, id); InstallKept(s1, d, w, id, Quiet);
      } else if r.id !in s1.restored {
        var d := s1.drafts[r.id];
        if d.record.revision == r.revision && SameContents(d.record, r) && d.readError {
          if id == r.id { ReadErrorSteps(d, id, false); }
          PutOver(s1, r.id, d.(readError := false), w, id, Quiet);
        } else if d.record.revision < r.revision {
          if id == r.id { DraftSteps(d, id, r); }
          InstallAt(s1, Advance(d, r), w, id); InstallKept(s1, Advance(d, r), w, id, Quiet);
        }
      }
      KeptTrans(s, s1, m, id, Quiet);
    }
  }

  lemma ReadErrorSteps(d: Draft, id: Id, e: bool)
    requires DraftOk(d, id)
    ensures DraftOk(d.(readError := e), id) && DraftKept(d, d.(readError := e), Quiet)
  {
  }

  lemma ReadFailedAt(s: State, target: Id, w: bool, id: Id)
    requires At(s, id)
    ensures At(ReadFailed(s, target, w), id) && KeptAt(s, ReadFailed(s, target, w), id, Quiet)
  {
    hide KeptAt, PutDraft, Persist;
    if target in s.drafts {
      if id == target { ReadErrorSteps(s.drafts[id], id, true); }
      PutOver(s, target, s.drafts[target].(readError := true), w, id, Quiet);
    } else {
      SameAt(s, id);
      PublishKept(s, s, w, id, Quiet);
    }
  }

  /** The live part of a state is untouched, except for what only guards reads. */
  ghost predicate SameLive(s: State, t: State) {
    && s.drafts == t.drafts && s.references == t.references && s.restored == t.restored && s.mutations == t.mutations
  }

  lemma LiveAt(s: State, t: State, u: State, id: Id, l: Licence)
    requires SameLive(t, u) && t.disk == u.disk
    requires At(t, id) && KeptAt(s, t, id, l)
    ensures At(u, id) && KeptAt(s, u, id, l)
  {
    hide DraftOk, SavedOk, ReferenceOk, DraftKept, RestoredKept, Parsed;
  }

  lemma PublishKept(s: State, t: State, w: bool, id: Id, l: Licence)
    requires At(t, id) && KeptAt(s, t, id, l)
    ensures At(Publish(t, w), id) && KeptAt(s, Publish(t, w), id, l)
  {
    hide DraftOk, SavedOk, ReferenceOk, DraftKept, RestoredKept, Parsed, Persist;
    PublishAt(t, w, id);
  }

  lemma MergeFails(s: State, r: Record, w: bool)
    requires !Merge(s, r, w).1
    ensures Merge(s, r, w).0.drafts == s.drafts && Merge(s, r, w).0.restored == s.restored
    ensures Merge(s, r, w).0.mutations == s.mutations
  {
  }

  lemma DropSteps(d: Draft, r: Record)
    requires d.operation.None? && d.record.revision <= r.revision
    ensures DraftKept(d, FreshDraft(r, d.edit + 1), Dropped)
  {
  }

  /** Exactly when a read gives up local text. */
  ghost predicate Discards(s: State, t: Task, response: Response, allowed: bool)
    requires t.Reading?
  {
    && ReadCurrent(s, t.generation, allowed)
    && response.Body? && Admissible(s, response.record, Some(t.id))
    && MayDiscard(s, t, response.record) && Consistent(s, response.record)
  }

  lemma ReloadAt(s: State, t: Task, r: Record, allowed: bool, w: bool, id: Id)
    requires At(s, id) && t.Reading? && Discards(s, t, Body(r), allowed)
    ensures At(ReadFinish(s, t, Body(r), allowed, w).0, id)
    ensures KeptAt(s, ReadFinish(s, t, Body(r), allowed, w).0, id, if id == t.id then Dropped else Quiet)
  {
    hide DraftOk, SavedOk, ReferenceOk, RestoredKept, Parsed, PutDraft, Persist, Install, FreshDraft, DraftKept;
    var u := ReadFinish(s, t, Body(r), allowed, w).0;
    var l := if id == t.id then Dropped else Quiet;
    var edit := (if t.edit.Some? then t.edit.value else 0) + 1;
    var s1 := RetainReference(s, r);
    RetainAt(s, r, id);
    FreshSteps(r, edit);
    if id == t.id && id in s.drafts { DropSteps(s.drafts[id], r); }
    InstallAt(s1, FreshDraft(r, edit), w, id);
    InstallKept(s1, FreshDraft(r, edit), w, id, l);
    KeptTrans(s, s1, Install(s1, FreshDraft(r, edit), w), id, l);
    LiveAt(s, Install(s1, FreshDraft(r, edit), w), u, id, l);
  }

  lemma ReadFinishAt(s: State, t: Task, response: Response, allowed: bool, w: bool, id: Id)
    requires At(s, id) && t.Reading?
    ensures At(ReadFinish(s, t, response, allowed, w).0, id)
    ensures KeptAt(s, ReadFinish(s, t, response, allowed, w).0, id,
                   if Discards(s, t, response, allowed) && id == t.id then Dropped else Quiet)
  {
    hide DraftOk, SavedOk, ReferenceOk, DraftKept, RestoredKept, Parsed, PutDraft, Publish, Install, Merge, ReadFailed, FreshDraft;
    var u := ReadFinish(s, t, response, allowed, w).0;
    ReadFailedAt(s, t.id, w, id);
    if !ReadCurrent(s, t.generation, allowed) {
      if id in s.drafts { SameSteps(s.drafts[id], Quiet); }
    } else if response.Body? && Admissible(s, response.record, Some(t.id)) {
      var r := response.record;
      if MayDiscard(s, t, r) {
        if Consistent(s, r) { ReloadAt(s, t, r, allowed, w, id); }
      } else {
        MergeAt(s, r, w, id);
        var (m, ok) := Merge(s, r, w);
        if ok {
          PublishKept(s, m, w, id, Quiet);
          LiveAt(s, Publish(m, w), u, id, Quiet);
        } else {
          MergeFails(s, r, w);
          ReadFailedAt(m, t.id, w, id);
          KeptTrans(s, m, u, id, Quiet);
        }
      }
    }
  }

  // ----- Edits and saves

  lemma EditSteps(d: Draft, id: Id, text: string)
    requires DraftOk(d, id) && ValidText(text)
    ensures
      var e := d.(text := text, edit := d.edit + 1, dirty := text != d.record.draft,
                  error := (d.operation.Some? || d.conflict) && d.error);
      DraftOk(e, id) && DraftKept(d, e, Typed)
  {
  }

  lemma ErrorSteps(d: Draft, id: Id, l: Licence)
    requires DraftOk(d, id) && !l.Dropped?
    ensures DraftOk(d.(error := true), id) && DraftKept(d, d.(error := true), l)
  {
  }

  lemma EditAt(s: State, target: Id, text: string, allowed: bool, w: bool, id: Id)
    requires At(s, id)
    ensures At(Edit(s, target, text, allowed, w), id)
    ensures KeptAt(s, Edit(s, target, text, allowed, w), id, if id == target then Typed else Quiet)
  {
    hide KeptAt, PutDraft, DraftOk, ValidText, DraftKept;
    SameAt(s, id);
    if id == target { QuietIsTyped(s, s, id); }
    if allowed && target in s.drafts && s.drafts[target].record.lifecycle.Open? {
      var d := s.drafts[target];
      if ValidText(text) {
        if id == target { EditSteps(d, id, text); }
        PutOver(s, target, d.(text := text, edit := d.edit + 1, dirty := text != d.record.draft,
                              error := (d.operation.Some? || d.conflict) && d.error), w, id, Typed);
      } else {
        if id == target { ErrorSteps(d, id, Typed); }
        PutOver(s, target, d.(error := true), w, id, Typed);
      }
    }
  }

  lemma QuietIsTyped(s: State, t: State, id: Id)
    requires KeptAt(s, t, id, Quiet)
    ensures KeptAt(s, t, id, Typed)
  {
  }

  /** Installing an operation where none is, or marking the one there. */
  lemma OperationSteps(d: Draft, id: Id, op: Operation, error: bool)
    requires DraftOk(d, id) && OpOk(Some(op), d.edit, d.record.revision)
    requires d.operation.Some? ==> d.operation.value.payload == op.payload
    ensures DraftOk(d.(operation := Some(op), error := error), id)
    ensures DraftKept(d, d.(operation := Some(op), error := error), Quiet)
  {
  }

  /** The state in which an operation is sent: the lock is taken in the same stretch. */
  lemma LaunchAt(s: State, target: Id, op: Operation, w: bool, id: Id)
    requires At(s, id) && target in s.drafts
    requires id == target ==>
      && OpOk(Some(op), s.drafts[id].edit, s.drafts[id].record.revision)
      && (s.drafts[id].operation.Some? ==> s.drafts[id].operation.value.payload == op.payload)
    ensures
      var t := PutDraft(s, target, s.drafts[target].(operation := Some(op), error := false), w);
      var u := t.(mutations := t.mutations + {target});
      At(t, id) && At(u, id) && KeptAt(s, u, id, Quiet)
  {
    hide DraftOk, SavedOk, ReferenceOk, DraftKept, RestoredKept, Parsed, Persist, OpOk;
    if id == target { OperationSteps(s.drafts[id], id, op, false); }
    PutOver(s, target, s.drafts[target].(operation := Some(op), error := false), w, id, Quiet);
  }

  lemma SaveGoAt(s: State, target: Id, token: Token, allowed: bool, w: bool, id: Id)
    requires At(s, id)
    ensures At(SaveGo(s, target, token, allowed, w).0, id)
    ensures KeptAt(s, SaveGo(s, target, token, allowed, w).0, id, Quiet)
  {
    hide SavedOk, ReferenceOk, DraftKept, RestoredKept, Persist;
    if id in s.drafts { SameSteps(s.drafts[id], Quiet); }
    if MaySave(s, target, allowed) {
      var d := s.drafts[target];
      LaunchAt(s, target, Operation(SaveDraft(token, d.record.revision, d.text), d.edit, false), w, id);
    }
  }

  lemma SetStateGoAt(s: State, target: Id, lifecycle: Lifecycle, token: Token, allowed: bool, w: bool, id: Id)
    requires At(s, id)
    ensures At(SetStateGo(s, target, lifecycle, token, allowed, w).0, id)
    ensures KeptAt(s, SetStateGo(s, target, lifecycle, token, allowed, w).0, id, Quiet)
  {
    hide SavedOk, ReferenceOk, DraftKept, RestoredKept, Persist;
    if id in s.drafts { SameSteps(s.drafts[id], Quiet); }
    if MaySetState(s, target, lifecycle, allowed) {
      var d := s.drafts[target];
      LaunchAt(s, target, Operation(SetState(token, d.record.revision, lifecycle), d.edit, false), w, id);
    }
  }

  lemma ReconcileAt(s: State, target: Id, allowed: bool, w: bool, id: Id)
    requires At(s, id)
    ensures At(Reconcile(s, target, allowed, w).0, id)
    ensures KeptAt(s, Reconcile(s, target, allowed, w).0, id, Quiet)
  {
    hide SavedOk, ReferenceOk, DraftKept, RestoredKept, Persist;
    if id in s.drafts { SameSteps(s.drafts[id], Quiet); }
    if allowed && target in s.drafts && s.drafts[target].operation.Some? && target !in s.mutations {
      LaunchAt(s, target, s.drafts[target].operation.value.(uncertain := false), w, id);
    }
  }

  // ----- Replies to a sent operation

  /** The lock holder's operation is the one the draft shows. */
  ghost predicate Owns(s: State, target: Id, op: Operation) {
    && target in s.drafts && s.drafts[target].operation.Some?
    && s.drafts[target].operation.value.payload == op.payload
    && op.edit <= s.drafts[target].edit
    && target in s.mutations
  }

  ghost predicate Confirms(s: State, target: Id, op: Operation, response: Response) {
    response.Body? && Admissible(s, response.record, Some(target)) && Acknowledges(response.record, op.payload)
  }

  /** Exactly when a reply ends the operation in the same stretch of code. */
  ghost predicate Retires(s: State, target: Id, op: Operation, response: Response) {
    || response.Conflicted? || response.Rejected?
    || (Confirms(s, target, op, response) && !Consistent(s, response.record))
  }

  lemma RetireSteps(d: Draft, id: Id, conflict: bool, error: bool, readError: bool)
    requires DraftOk(d, id)
    ensures
      var e := d.(operation := None, conflict := d.conflict || conflict, error := error, readError := readError);
      DraftOk(e, id) && DraftKept(d, e, Retired)
  {
  }

  lemma FinishAt(s: State, target: Id, op: Operation, acknowledged: Option<nat>, locked: bool, w: bool, id: Id)
    requires At(s, id)
    requires acknowledged.Some? && HoldsOp(s, target, op) && target in s.mutations ==> locked
    ensures At(Finish(s, target, op, acknowledged, locked, w), id)
    ensures KeptAt(s, Finish(s, target, op, acknowledged, locked, w), id,
                   if id == target && acknowledged.Some? && HoldsOp(s, target, op) then Retired else Quiet)
  {
    hide KeptAt, PutDraft, DraftOk, DraftKept, Publish;
    var s1 := Unlock(s, target, locked);
    var u := Finish(s, target, op, acknowledged, locked, w);
    var l := if id == target && acknowledged.Some? && HoldsOp(s, target, op) then Retired else Quiet;
    UnlockAt(s, target, locked, id);
    SameAt(s1, id);
    if acknowledged.Some? && target in s.drafts {
      if HoldsOp(s, target, op) {
        var d := s.drafts[target];
        var c := d.record.revision > acknowledged.value && d.dirty;
        if id == target { RetireSteps(d, id, c, d.error, d.readError); }
        var e := d.(operation := None, conflict := d.conflict || c);
        assert e == d.(operation := None, conflict := d.conflict || c, error := d.error, readError := d.readError);
        PutOver(s1, target, e, w, id, Retired);
      } else {
        PublishKept(s1, s1, w, id, Quiet);
      }
    }
    KeptFrom(s, s1, u, id, l);
  }

  lemma RefusalAt(s: State, target: Id, op: Operation, response: Response, allowed: bool, w: bool, id: Id)
    requires At(s, id) && Owns(s, target, op) && (response.Conflicted? || response.Rejected?)
    ensures At(PerformReply(s, target, op, response, allowed, w).0, id)
    ensures KeptAt(s, PerformReply(s, target, op, response, allowed, w).0, id, if id == target then Retired else Quiet)
  {
    hide KeptAt, PutDraft, DraftOk, DraftKept;
    var d := s.drafts[target];
    var s1 := Unlock(s, target, true);
    var e := d.(operation := None, conflict := d.conflict || response.Conflicted?, error := true);
    if id == target { RetireSteps(d, id, response.Conflicted?, true, d.readError); }
    assert e == d.(operation := None, conflict := d.conflict || response.Conflicted?, error := true, readError := d.readError);
    UnlockAt(s, target, true, id);
    PutOver(s1, target, e, w, id, Retired);
    KeptFrom(s, s1, PutDraft(s1, target, e, w), id, if id == target then Retired else Quiet);
  }

  lemma UnconfirmedAt(s: State, target: Id, op: Operation, response: Response, allowed: bool, w: bool, id: Id)
    requires At(s, id) && Owns(s, target, op)
    requires !Confirms(s, target, op, response) && !response.Conflicted? && !response.Rejected?
    ensures At(PerformReply(s, target, op, response, allowed, w).0, id)
    ensures KeptAt(s, PerformReply(s, target, op, response, allowed, w).0, id, Quiet)
  {
    hide KeptAt, PutDraft, DraftOk, DraftKept, Admissible, Acknowledges, Consistent;
    var d := s.drafts[target];
    var e := d.(operation := Some(op.(uncertain := true)), error := true);
    if id == target { UncertainSteps(d, id, op); }
    PutOver(s, target, e, w, id, Quiet);
    var t := PutDraft(s, target, e, w);
    UnlockAt(t, target, true, id);
    KeptTo(s, t, Unlock(t, target, true), id, Quiet);
  }

  lemma KeptTo(s: State, t: State, u: State, id: Id, l: Licence)
    requires t.drafts == u.drafts && t.references == u.references && t.restored == u.restored
    requires KeptAt(s, t, id, l)
    ensures KeptAt(s, u, id, l)
  {
    hide DraftKept, RestoredKept;
  }

  lemma UncertainSteps(d: Draft, id: Id, op: Operation)
    requires DraftOk(d, id) && d.operation.Some? && d.operation.value.payload == op.payload && op.edit <= d.edit
    ensures DraftOk(d.(operation := Some(op.(uncertain := true)), error := true), id)
    ensures DraftKept(d, d.(operation := Some(op.(uncertain := true)), error := true), Quiet)
  {
  }

  lemma ConfirmedAt(s: State, target: Id, op: Operation, r: Record, allowed: bool, w: bool, id: Id)
    requires At(s, id) && Owns(s, target, op) && Confirms(s, target, op, Body(r)) && Consistent(s, r)
    ensures At(PerformReply(s, target, op, Body(r), allowed, w).0, id)
    ensures KeptAt(s, PerformReply(s, target, op, Body(r), allowed, w).0, id, Quiet)
  {
    hide KeptAt, Publish, PutDraft, DraftOk, DraftKept, SavedOk, Acknowledge, Parsed, Acknowledges;
    var s1 := RetainReference(s, r);
    RetainAt(s, r, id);
    var e := Acknowledge(s1.drafts[target], op, r);
    if id == target { AcknowledgeSteps(s1.drafts[target], id, op, r); }
    AcknowledgedRecord(s1.drafts[target], op, r);
    PutOver(s1, target, e, w, id, Quiet);
    var s2 := PutDraft(s1, target, e, w);
    KeptTrans(s, s1, s2, id, Quiet);
    PutDrafts(s1, target, e, w);
    var s3 := Summarized(s2, e.record);
    LiveAt(s, s2, s3, id, Quiet);
    PublishKept(s, s3, w, id, Quiet);
  }

  lemma PutDrafts(s: State, target: Id, e: Draft, w: bool)
    ensures target in PutDraft(s, target, e, w).drafts && PutDraft(s, target, e, w).drafts[target] == e
  {
  }

  lemma AcknowledgedRecord(d: Draft, op: Operation, r: Record)
    ensures Acknowledge(d, op, r).record == if d.record.revision > r.revision then d.record else r
  {
  }

  lemma PerformReplyAt(s: State, target: Id, op: Operation, response: Response, allowed: bool, w: bool, id: Id)
    requires At(s, id) && Owns(s, target, op)
    ensures At(PerformReply(s, target, op, response, allowed, w).0, id)
    ensures KeptAt(s, PerformReply(s, target, op, response, allowed, w).0, id,
                   if id == target && Retires(s, target, op, response) then Retired else Quiet)
  {
    hide At, KeptAt, DraftOk, Persist, Keep, Acknowledge, Acknowledges;
    if response.Conflicted? || response.Rejected? {
      RefusalAt(s, target, op, response, allowed, w, id);
    } else if !Confirms(s, target, op, response) {
      UnconfirmedAt(s, target, op, response, allowed, w, id);
    } else if Consistent(s, response.record) {
      ConfirmedAt(s, target, op, response.record, allowed, w, id);
    } else {
      InconsistentAt(s, target, op, response.record, allowed, w, id);
    }
  }

  lemma InconsistentAt(s: State, target: Id, op: Operation, r: Record, allowed: bool, w: bool, id: Id)
    requires At(s, id) && Owns(s, target, op) && Confirms(s, target, op, Body(r)) && !Consistent(s, r)
    ensures At(PerformReply(s, target, op, Body(r), allowed, w).0, id)
    ensures KeptAt(s, PerformReply(s, target, op, Body(r), allowed, w).0, id, if id == target then Retired else Quiet)
  {
    hide KeptAt, PutDraft, DraftOk, DraftKept, SavedOk, Acknowledge, Parsed, Acknowledges, Finish;
    var d := s.drafts[target];
    var s1 := PutDraft(s, target, d.(readError := true), w);
    if id == target { ReadErrorSteps(d, id, true); }
    PutOver(s, target, d.(readError := true), w, id, Quiet);
    FinishAt(s1, target, op, Some(r.revision), true, w, id);
    FinishKept(s, target, op, r.revision, w, id);
  }

  /** A read error on the way does not matter to what the end of the operation keeps. */
  lemma FinishKept(s: State, target: Id, op: Operation, acknowledged: nat, w: bool, id: Id)
    requires target in s.drafts && HoldsOp(s, target, op)
    ensures
      var s1 := PutDraft(s, target, s.drafts[target].(readError := true), w);
      KeptAt(s, Finish(s1, target, op, Some(acknowledged), true, w), id, if id == target then Retired else Quiet)
  {
    hide Persist, RestoredKept;
  }

  // ----- Creation and restoring

  lemma CreateFailedAt(s: State, p: PendingCreate, rejected: bool, w: bool, id: Id)
    requires At(s, id)
    ensures At(CreateFailed(s, p, rejected, w), id) && KeptAt(s, CreateFailed(s, p, rejected, w), id, Quiet)
  {
    hide DraftOk, SavedOk, ReferenceOk, DraftKept, RestoredKept, Persist, Keep;
    if id in s.drafts { SameSteps(s.drafts[id], Quiet); }
    PublishAt(s.(createRejected := rejected, creating := false,
                 pendingCreate := Some(p.(uncertain := !rejected, error := true))), w, id);
  }

  lemma CreatedAt(s: State, s1: State, r: Record, again: bool, select: bool, w: bool, id: Id)
    requires At(s1, id) && KeptAt(s, s1, id, Quiet)
    ensures At(Created(s1, r, again, select, w), id) && KeptAt(s, Created(s1, r, again, select, w), id, Quiet)
  {
    hide At, KeptAt, Publish, Persist, Summarized, ConfirmRead;
    var s2 := if again then s1.(stale := s1.stale + {r.id}) else ConfirmRead(s1, r);
    var s3 := if select then s2.(selected := Some(r.id)) else s2;
    var s4 := Summarized(s3, r).(pendingCreate := None, creating := false);
    LiveAt(s, s1, s4, id, Quiet);
    PublishKept(s, s4, w, id, Quiet);
  }

  lemma CreateReplyAt(s: State, t: Task, response: Response, allowed: bool, w: bool, id: Id)
    requires At(s, id) && t.Creating?
    ensures At(CreateReply(s, t, response, allowed, w).0, id)
    ensures KeptAt(s, CreateReply(s, t, response, allowed, w).0, id, Quiet)
  {
    hide At, KeptAt, Publish, Merge, Admissible, Consistent, CreateFailed, AcknowledgesCreate, RetainReference, Created;
    var p := t.pending;
    if !(response.Body? && Admissible(s, response.record, None) && AcknowledgesCreate(response.record, p)) {
      CreateFailedAt(s, p, response.Rejected? || response.Conflicted?, w, id);
    } else if !Consistent(s, response.record) {
      CreateFailedAt(s, p, false, w, id);
    } else {
      var r := response.record;
      var (s1, ok) := if r.id in s.restored then (RetainReference(s, r), true) else Merge(RetainReference(s, r), r, w);
      LearnedAt(s, r, w, id);
      if ok {
        CreatedAt(s, s1, r, p.uncertain || r.id in s.restored, s1.selectionRevision == t.selectionRevision, w, id);
      } else {
        MergeFails(RetainReference(s, r), r, w);
        CreateFailedAt(s1, p, false, w, id);
        KeptTrans(s, s1, CreateFailed(s1, p, false, w), id, Quiet);
      }
    }
  }

  lemma LearnedAt(s: State, r: Record, w: bool, id: Id)
    requires At(s, id) && Admissible(s, r, None) && Consistent(s, r)
    ensures
      var s0 := RetainReference(s, r);
      var s1 := if r.id in s.restored then s0 else Merge(s0, r, w).0;
      At(s1, id) && KeptAt(s, s1, id, Quiet)
  {
    hide At, KeptAt, Merge, Parsed;
    RetainAt(s, r, id);
    MergeAt(RetainReference(s, r), r, w, id);
    KeptTrans(s, RetainReference(s, r), Merge(RetainReference(s, r), r, w).0, id, Quiet);
  }

  lemma RetryCreateAt(s: State, allowed: bool, w: bool, id: Id)
    requires At(s, id)
    ensures At(RetryCreate(s, allowed, w).0, id)
    ensures KeptAt(s, RetryCreate(s, allowed, w).0, id, Quiet)
  {
    hide At, KeptAt, Publish;
    SameAt(s, id);
    if s.pendingCreate.Some? && !s.creating && allowed {
      var t := s.(createRejected := false, creating := true,
                  pendingCreate := Some(s.pendingCreate.value.(uncertain := false, error := false)));
      LiveAt(s, s, t, id, Quiet);
      PublishKept(s, t, w, id, Quiet);
    }
  }

  lemma CreateAt(s: State, target: Target, text: string, token: Token, allowed: bool, canCreate: bool, w: bool, id: Id)
    requires At(s, id)
    ensures At(Create(s, target, text, token, allowed, canCreate, w).0, id)
    ensures KeptAt(s, Create(s, target, text, token, allowed, canCreate, w).0, id, Quiet)
  {
    hide At, KeptAt, Persist, RetryCreate;
    SameAt(s, id);
    if MayCreate(s, allowed, canCreate) {
      var t := if ValidText(text) then s.(createRejected := false, pendingCreate := Some(PendingCreate(token, target, text, false, false))) else s;
      LiveAt(s, s, t, id, Quiet);
      PublishKept(s, t, w, id, Quiet);
      if ValidText(text) {
        var t1 := Publish(t, w);
        RetryCreateAt(t1, allowed, w, id);
        KeptFrom(s, t1, RetryCreate(t1, allowed, w).0, id, Quiet);
      }
    }
  }

  lemma RestoreAt(disk: Option<Persisted>, id: Id)
    ensures At(Restore(disk), id)
  {
  }
}
