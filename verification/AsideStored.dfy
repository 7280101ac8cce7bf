/**
 What storage is given and what a new page makes of it, and what becomes of creations, field by field.
 */
module AsideStored {
  import opened Wrappers
  import opened AsideProtocol
  import opened AsideShows

  // ----- Storage

  /** There is something that a reload of the page must not lose. */
  predicate Needs(d: Draft) {
    d.dirty || d.conflict || d.error || d.readError || d.operation != None
  }

  /** Storage is rewritten with every change: with each draft that must not be lost, with what was brought back and is not
      shown yet, and with the creation. Once there is none of these it is cleared. A refused write leaves it. */
  lemma PublishExactly(s: State, w: bool)
    ensures
      var t := Publish(s, w);
      && t == s.(disk := t.disk)
      && (if !w then t == s
          else if s.pendingCreate == None && s.restored.Keys == {} && forall id :: id in s.drafts ==> !Needs(s.drafts[id]) then t.disk == None
          else
            && t.disk.Some?
            && var p := t.disk.value;
            && p.pendingCreate == s.pendingCreate && p.createRejected == s.createRejected && p.selected == s.selected
            && (forall id :: id in p.drafts <==> id in s.restored || (id in s.drafts && Needs(s.drafts[id])))
            && (forall id :: id in p.drafts ==>
                  if id in s.drafts && Needs(s.drafts[id]) then
                    var d := s.drafts[id];
                    p.drafts[id] == Saved(d.record.revision, d.record.draft, d.text, d.edit, d.conflict, d.error, d.readError, d.operation)
                  else id in s.restored && p.drafts[id] == s.restored[id]))
  {
    var p := Persist(s);
    if p.drafts == map[] {
      assert forall id :: id in s.drafts ==> (Needs(s.drafts[id]) ==> id in p.drafts);
      assert forall id :: id in s.restored ==> id in p.drafts;
      assert s.restored.Keys == {};
    }
    if s.restored.Keys == {} && (forall id :: id in s.drafts ==> !Needs(s.drafts[id])) {
      assert forall id :: id !in p.drafts;
      assert p.drafts == map[];
    }
  }

  /** An entry that a page takes back: revisions count from one, texts are texts, and an operation rests on a revision and
      an edit that there were. */
  predicate Legible(d: Saved) {
    && d.revision > 0 && |d.text| <= 100000 && '\0' !in d.text && |d.draft| <= 100000 && '\0' !in d.draft
    && (match d.operation
        case None => true
        case Some(op) =>
          && op.edit <= d.edit && 0 < op.payload.expectedRevision <= d.revision
          && (op.payload.SaveDraft? ==> |op.payload.text| <= 100000 && '\0' !in op.payload.text))
  }

  /** A new page shows nothing yet. It takes back every entry that is legible, with an operation of now unknown outcome and
      an error about it; the creation, which may be replaced only if it was no longer on its way, definitely rejected and
      known to be so; and the selection, if its entry was taken back. What it left out counts as gone from storage. */
  lemma RestoreExactly(disk: Option<Persisted>)
    ensures
      var t := Restore(disk);
      && t.drafts == map[] && t.references == map[] && t.stale == {} && t.mutations == {} && t.asides == map[] && !t.creating
      && t.reading == 0 && t.accessGeneration == 0 && t.selectionRevision == 0
      && (disk == None ==> t.restored == map[] && t.pendingCreate == None && t.selected == None && !t.createRejected)
      && (disk.Some? ==>
            && var p := disk.value;
            && (forall id :: id in t.restored <==> id in p.drafts && Legible(p.drafts[id]))
            && (forall id :: id in t.restored ==>
                  && var (d, e) := (p.drafts[id], t.restored[id]);
                  && e.revision == d.revision && e.draft == d.draft && e.text == d.text && e.edit == d.edit && e.conflict == d.conflict
                  && e.readError == d.readError && (e.error <==> d.error || d.operation.Some?)
                  && (e.operation.Some? <==> d.operation.Some?)
                  && (d.operation.Some? ==> e.operation == Some(d.operation.value.(uncertain := true))))
            && (t.selected == (if p.selected.Some? && p.selected.value in t.restored then p.selected else None))
            && (if p.pendingCreate.Some? && |p.pendingCreate.value.draft| <= 100000 && '\0' !in p.pendingCreate.value.draft then
                  var c := p.pendingCreate.value;
                  && t.pendingCreate.Some? && t.createRejected == p.createRejected
                  && t.pendingCreate.value.requestId == c.requestId && t.pendingCreate.value.target == c.target
                  && t.pendingCreate.value.draft == c.draft && t.pendingCreate.value.error
                  && (!t.pendingCreate.value.uncertain <==> p.createRejected && c.error && !c.uncertain)
                else t.pendingCreate == None && !t.createRejected))
    ensures
      var t := Restore(disk);
      && (t.disk == None <==> disk == None)
      && (disk.Some? ==>
            && var (p, q) := (disk.value, t.disk.value);
            && (forall id :: id in q.drafts <==> id in p.drafts && Legible(p.drafts[id]))
            && (forall id :: id in q.drafts ==> q.drafts[id] == p.drafts[id])
            && q.pendingCreate == (if t.pendingCreate.Some? then p.pendingCreate else None)
            && q.createRejected == p.createRejected && q.selected == p.selected)
  {
    hide SavedOk;
    if disk.Some? { LegibleIff(disk.value.drafts); }
  }

  lemma LegibleIff(drafts: map<Id, Saved>)
    ensures forall id :: id in drafts ==> (SavedOk(drafts[id]) <==> Legible(drafts[id]))
  {
  }

  // ----- Creations

  /** A creation goes out exactly if the user may create, none is on its way, the last one, if it is still there, was
      definitely rejected, and its text is a text. */
  lemma CreateExactly(s: State, target: Target, text: string, token: Token, allowed: bool, canCreate: bool, w: bool)
    ensures
      var (t, task) := Create(s, target, text, token, allowed, canCreate, w);
      var may := allowed && canCreate && !s.creating && (s.pendingCreate.Some? ==> s.pendingCreate.value.error && !s.pendingCreate.value.uncertain);
      if may && |text| <= 100000 && '\0' !in text then
        var p := PendingCreate(token, target, text, false, false);
        && task == Some(Creating(p, s.selectionRevision))
        && t == s.(pendingCreate := Some(p), creating := true, createRejected := false, disk := t.disk)
      else task == None && t == s.(disk := t.disk) && (!may ==> t == s)
  {
    hide Publish;
  }

  /** The creation that there is is sent again, unchanged, exactly if it is not on its way. */
  lemma RetryExactly(s: State, allowed: bool, w: bool)
    ensures
      var (t, task) := RetryCreate(s, allowed, w);
      if allowed && !s.creating && s.pendingCreate.Some? then
        var p := s.pendingCreate.value;
        && task == Some(Creating(p, s.selectionRevision))
        && t == s.(pendingCreate := Some(p.(uncertain := false, error := false)), creating := true, createRejected := false, disk := t.disk)
      else t == s && task == None
  {
    hide Publish;
  }

  /** The answer is the aside that was asked for, as it was made. */
  predicate Made(s: State, p: PendingCreate, response: Response) {
    && response.Body? && Parsed(response.record)
    && response.record.revision == 1 && response.record.draft == p.draft && response.record.source.target == p.target
    && (response.record.id in s.references ==> s.references[response.record.id].source == response.record.source)
  }

  /** It was taken in: what storage brought back of it is left alone, otherwise it is shown as a record is. */
  predicate TakesMade(s: State, p: PendingCreate, response: Response, w: bool) {
    && Made(s, p, response) && Consistent(s, response.record)
    && (response.record.id in s.restored || Merge(s, response.record, w).1)
  }

  /** A creation that was not made, as far as the answer says, stays: replaceable if it was definitely rejected, of unknown
      outcome otherwise. */
  lemma NotMadeExactly(s: State, t: Task, response: Response, allowed: bool, w: bool)
    requires t.Creating? && !TakesMade(s, t.pending, response, w)
    ensures
      var (u, task) := CreateReply(s, t, response, allowed, w);
      var rejected := response.Rejected? || response.Conflicted?;
      && task == None && !u.creating && u.createRejected == rejected
      && u.pendingCreate == Some(t.pending.(uncertain := !rejected, error := true))
      && u.drafts == s.drafts && u.restored == s.restored && u.stale == s.stale && u.asides == s.asides
      && u.selected == s.selected && u.mutations == s.mutations
  {
    hide CreateReply, CreateFailed, Merge, TakesMade;
    var rejected := response.Rejected? || response.Conflicted?;
    var s1 := FailsAs(s, t, response, allowed, w);
    FailedIs(s1, t.pending, rejected, w);
  }

  lemma FailedIs(s: State, p: PendingCreate, rejected: bool, w: bool)
    ensures
      var t := CreateFailed(s, p, rejected, w);
      t == s.(createRejected := rejected, creating := false, pendingCreate := Some(p.(uncertain := !rejected, error := true)), disk := t.disk)
  {
    hide Publish;
  }

  lemma FailsAs(s: State, t: Task, response: Response, allowed: bool, w: bool) returns (s1: State)
    requires t.Creating? && !TakesMade(s, t.pending, response, w)
    ensures s1 == s.(references := s1.references)
    ensures CreateReply(s, t, response, allowed, w) == (CreateFailed(s1, t.pending, response.Rejected? || response.Conflicted?, w), None)
  {
    hide CreateFailed, Created, Merge, RetainReference, Consistent, Parsed;
    s1 := s;
    if Made(s, t.pending, response) && Consistent(s, response.record) {
      var s0 := RetainReference(s, response.record);
      RetainTwice(s, response.record, w);
      RefusedLeaves(s0, response.record, w);
      s1 := Merge(s0, response.record, w).0;
    }
  }

  /** Retaining a record first makes no difference to taking it in. */
  lemma RetainTwice(s: State, r: Record, w: bool)
    ensures Consistent(s, r) ==> Merge(RetainReference(s, r), r, w) == Merge(s, r, w)
    ensures Consistent(RetainReference(s, r), r) || !Consistent(s, r)
  {
    hide Install, PutDraft, Rejoin, Advance, FreshDraft;
    var s0 := RetainReference(s, r);
    if Consistent(s, r) { assert RetainReference(s0, r) == s0; }
  }

  /** A creation that was made is over. Its aside is listed, and selected unless the user opened another one meanwhile. One
      that may be an old receipt, because the creation was repeated or storage had the aside, is marked and read again; so is
      one that is marked for a newer revision. */
  lemma MadeExactly(s: State, t: Task, response: Response, allowed: bool, w: bool)
    requires t.Creating? && TakesMade(s, t.pending, response, w)
    ensures
      var (u, task) := CreateReply(s, t, response, allowed, w);
      var r := response.record;
      var m := if r.id in s.restored then RetainReference(s, r) else Merge(s, r, w).0;
      var again := t.pending.uncertain || r.id in s.restored;
      && u.pendingCreate == None && !u.creating && u.createRejected == s.createRejected
      && u.drafts == m.drafts && u.restored == m.restored && u.references == m.references && u.mutations == s.mutations
      && u.selected == (if s.selectionRevision == t.selectionRevision then Some(r.id) else s.selected)
      && r.id in u.asides && u.asides[r.id] == (if r.id in m.asides && m.asides[r.id] > 1 then m.asides[r.id] else 1)
      && (again ==> u.stale == s.stale + {r.id})
      && (!again ==> r.id in m.drafts && u.stale == (if Satisfies(m, r) then s.stale - {r.id} else s.stale))
      && task == (if r.id in u.stale then
                    Some(if allowed then Reading(r.id, false, s.accessGeneration, if r.id in u.drafts then Some(u.drafts[r.id].edit) else None, Nothing)
                         else Resuming(false, Nothing))
                  else None)
  {
    hide CreateReply, Created, Merge, Parsed, Consistent, Satisfies, ReadBegin, RetainReference;
    var r := response.record;
    var again := t.pending.uncertain || r.id in s.restored;
    var m := MakesAs(s, t, response, allowed, w);
    var u := Created(m, r, again, m.selectionRevision == t.selectionRevision, w);
    CreatedIs(m, r, again, m.selectionRevision == t.selectionRevision, w);
    BeginsRead(u, r.id, allowed);
  }

  lemma BeginsRead(s: State, id: Id, allowed: bool)
    ensures ReadBegin(s, id, false, Nothing, allowed) ==
      if allowed then Reading(id, false, s.accessGeneration, if id in s.drafts then Some(s.drafts[id].edit) else None, Nothing) else Resuming(false, Nothing)
  {
  }

  lemma CreatedIs(s: State, r: Record, again: bool, select: bool, w: bool)
    requires r.revision == 1 && (!again ==> r.id in s.drafts)
    ensures
      var u := Created(s, r, again, select, w);
      && u == s.(stale := u.stale, selected := if select then Some(r.id) else s.selected, asides := u.asides, pendingCreate := None, creating := false, disk := u.disk)
      && u.stale == (if again then s.stale + {r.id} else if Satisfies(s, r) then s.stale - {r.id} else s.stale)
      && u.asides == s.asides[r.id := if r.id in s.asides && s.asides[r.id] > 1 then s.asides[r.id] else 1]
  {
    hide Publish;
  }

  lemma MakesAs(s: State, t: Task, response: Response, allowed: bool, w: bool) returns (m: State)
    requires t.Creating? && TakesMade(s, t.pending, response, w)
    ensures
      var r := response.record;
      var again := t.pending.uncertain || r.id in s.restored;
      var u := Created(m, r, again, m.selectionRevision == t.selectionRevision, w);
      && m == (if r.id in s.restored then RetainReference(s, r) else Merge(s, r, w).0)
      && m == s.(drafts := m.drafts, restored := m.restored, references := m.references, asides := m.asides, disk := m.disk)
      && r.revision == 1 && (!again ==> r.id in m.drafts)
      && CreateReply(s, t, response, allowed, w) ==
           (u, if again || r.id in u.stale then Some(ReadBegin(u, r.id, false, Nothing, allowed)) else None)
  {
    hide CreateFailed, Created, Merge, RetainReference, Consistent, Parsed, ReadBegin;
    var r := response.record;
    m := if r.id in s.restored then RetainReference(s, r) else Merge(s, r, w).0;
    RetainTwice(s, r, w);
    MergeTouches(s, r, w, r.id);
    if r.id !in s.restored { MergeLearns(s, r, w); }
  }
}
