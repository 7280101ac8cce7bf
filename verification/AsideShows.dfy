/**
 What the user sees after each stretch of the draft owner's code, field by field: which text an aside shows once a
 record arrives, what a reload drops, what an acknowledgement and a refusal leave, and when a stale mark goes.
 */
module AsideShows {
  import opened Wrappers
  import opened AsideProtocol
  import opened AsideInvariants

  // ----- A record arrives

  /** Nothing else is known of its revision. */
  predicate Agrees(s: State, r: Record) {
    && (r.id in s.references && s.references[r.id].revision == r.revision ==>
          s.references[r.id].draft == r.draft && s.references[r.id].lifecycle == r.lifecycle)
  }

  /** Revisions count from one, which is an open aside; its text is a text. */
  predicate Legal(r: Record) {
    r.revision > 0 && |r.draft| <= 100000 && '\0' !in r.draft && (r.revision == 1 ==> r.lifecycle == Open)
  }

  lemma RecordIff(s: State, r: Record)
    ensures Consistent(s, r) <==> Agrees(s, r)
    ensures Parsed(r) <==> Legal(r)
  {
  }

  /** Nothing local holds the text: it is as the record has it, no conflict is open, and no save is underway. */
  predicate Follows(d: Draft) {
    !d.dirty && !d.conflict && (d.operation.None? || d.operation.value.payload.SetState?)
  }

  /** A newer record under a shown aside. A text that nothing holds follows the record and is clean; any other stays, and
      is unsaved exactly if it differs. Unsaved text that is not being sent becomes a conflict. The operation, the edit
      counter and the error stay, and a failed read is forgotten. */
  lemma NewerShows(s: State, r: Record, w: bool)
    requires At(s, r.id) && Admissible(s, r, None) && Agrees(s, r)
    requires r.id in s.drafts && s.drafts[r.id].record.revision < r.revision
    ensures
      var (t, ok) := Merge(s, r, w);
      && ok && r.id in t.drafts
      && var (d, e) := (s.drafts[r.id], t.drafts[r.id]);
      && e.record == r && e.operation == d.operation && e.edit == d.edit && e.error == d.error && !e.readError
      && (if Follows(d) then e.text == r.draft && !e.dirty && !e.conflict
          else e.text == d.text && (e.dirty <==> d.text != r.draft)
               && (e.conflict <==> d.conflict || (d.dirty && d.operation.None?)))
  {
    hide Persist, ValidText;
  }

  /** So a text that nobody typed is never up for saving because somebody else saved. */
  lemma FollowingIsNotSaved(s: State, r: Record, w: bool, allowed: bool)
    requires At(s, r.id) && Admissible(s, r, None) && Agrees(s, r)
    requires r.id in s.drafts && s.drafts[r.id].record.revision < r.revision && Follows(s.drafts[r.id])
    ensures !MaySave(Merge(s, r, w).0, r.id, allowed)
  {
    hide Persist, ValidText;
  }

  /** A record that is no newer changes nothing of what is shown. One of the same revision with other contents is
      refused, and otherwise ends a failed read. */
  lemma OlderShows(s: State, r: Record, w: bool)
    requires At(s, r.id) && Admissible(s, r, None) && r.id in s.drafts && r.revision <= s.drafts[r.id].record.revision
    ensures
      var (t, ok) := Merge(s, r, w);
      var d := s.drafts[r.id];
      && (ok <==> Agrees(s, r) && (r.revision == d.record.revision ==> r.draft == d.record.draft && r.lifecycle == d.record.lifecycle))
      && r.id in t.drafts && t.restored == s.restored && t.asides == s.asides && t.stale == s.stale
      && t.drafts[r.id] == (if ok && r.revision == d.record.revision then d.(readError := false) else d)
  {
    hide Persist, ValidText;
  }

  /** The first record of an aside that is not known shows it as it is. */
  lemma UnknownShows(s: State, r: Record, w: bool)
    requires At(s, r.id) && Admissible(s, r, None) && r.id !in s.drafts && r.id !in s.restored
    ensures
      var (t, ok) := Merge(s, r, w);
      && (ok <==> Agrees(s, r))
      && (ok ==> r.id in t.drafts && t.drafts[r.id] == Draft(r, r.draft, false, false, false, 0, None, false))
      && (!ok ==> t == s)
  {
    hide Persist, ValidText;
  }

  /** What storage brought back was edited, is in conflict or was being saved. */
  predicate Held(d: Saved) {
    d.text != d.draft || d.conflict || (d.operation.Some? && d.operation.value.payload.SaveDraft?)
  }

  /** The record of an aside that storage brought back, unless it predates that: what is held stays and is unsaved
      exactly if it differs from the record; what is not follows it; and unsaved text that is not being sent is a conflict
      under a newer record. */
  lemma RestoredShows(s: State, r: Record, w: bool)
    requires At(s, r.id) && Admissible(s, r, None) && r.id in s.restored
    ensures
      var (t, ok) := Merge(s, r, w);
      var d := s.restored[r.id];
      && (ok <==> Agrees(s, r) && d.revision <= r.revision)
      && (!ok ==> t.restored == s.restored && t.drafts == s.drafts)
      && (ok ==>
            && t.restored == s.restored - {r.id} && r.id in t.drafts
            && var e := t.drafts[r.id];
            && e.record == r && e.operation == d.operation && e.edit == d.edit && e.error == d.error && !e.readError
            && e.text == (if Held(d) then d.text else r.draft) && (e.dirty <==> e.text != r.draft)
            && (e.conflict <==> d.conflict || (d.text != d.draft && d.operation.None? && d.revision < r.revision)))
  {
    hide Persist, ValidText;
  }

  lemma InstallIs(s: State, d: Draft, w: bool)
    ensures
      var t := Install(s, d, w);
      var (id, n) := (d.record.id, d.record.revision);
      && t == s.(drafts := s.drafts[id := d], restored := s.restored - {id}, asides := t.asides, disk := t.disk)
      && t.asides == s.asides[id := if id in s.asides && n < s.asides[id] then s.asides[id] else n]
  {
    hide Publish;
  }

  lemma PutIs(s: State, id: Id, d: Draft, w: bool)
    ensures PutDraft(s, id, d, w) == s.(drafts := s.drafts[id := d], disk := PutDraft(s, id, d, w).disk)
  {
    hide Publish;
  }

  /** What taking a record in comes to: it is refused, or changes nothing but a failed read, or is installed. */
  lemma MergeIs(s: State, r: Record, w: bool)
    ensures
      var (t, ok) := Merge(s, r, w);
      var s1 := RetainReference(s, r);
      && (!ok ==> t == s || t == s1)
      && (ok ==>
            if r.id !in s.restored && r.id in s.drafts && r.revision <= s.drafts[r.id].record.revision then
              t == s1 || t == PutDraft(s1, r.id, s.drafts[r.id].(readError := false), w)
            else exists d: Draft :: d.record == r && t == Install(s1, d, w))
  {
    hide Install, PutDraft, RetainReference, SameContents, Consistent;
    var s1 := RetainReference(s, r);
    if r.id in s.restored {
      assert Rejoin(s.restored[r.id], r).record == r;
    } else if r.id !in s.drafts {
      assert FreshDraft(r, 0).record == r;
    } else {
      assert Advance(s.drafts[r.id], r).record == r;
    }
  }

  /** A record concerns only its own aside, and of the owner's other state nothing. */
  lemma MergeTouches(s: State, r: Record, w: bool, id: Id)
    ensures
      var t := Merge(s, r, w).0;
      && (id != r.id ==>
            && (id in t.drafts <==> id in s.drafts) && (id in s.drafts ==> t.drafts[id] == s.drafts[id])
            && (id in t.restored <==> id in s.restored) && (id in s.restored ==> t.restored[id] == s.restored[id])
            && (id in t.references <==> id in s.references) && (id in s.references ==> t.references[id] == s.references[id])
            && (id in t.asides <==> id in s.asides) && (id in s.asides ==> t.asides[id] == s.asides[id]))
      && t == s.(drafts := t.drafts, restored := t.restored, references := t.references, asides := t.asides, disk := t.disk)
  {
    hide Merge, Install, PutDraft;
    var t := Merge(s, r, w).0;
    var s1 := RetainReference(s, r);
    MergeIs(s, r, w);
    if r.id in s.drafts { PutIs(s1, r.id, s.drafts[r.id].(readError := false), w); }
    if d: Draft :| d.record == r && t == Install(s1, d, w) { InstallIs(s1, d, w); }
  }

  /** Of its own, the list and the retained reference learn the newest revision. */
  lemma MergeLearns(s: State, r: Record, w: bool)
    requires Merge(s, r, w).1
    ensures
      var t := Merge(s, r, w).0;
      && (r.id in s.restored || r.id !in s.drafts || s.drafts[r.id].record.revision < r.revision ==>
            r.id in t.asides && t.asides[r.id] == (if r.id in s.asides && r.revision < s.asides[r.id] then s.asides[r.id] else r.revision))
      && t.references == (if r.id in s.references && r.revision <= s.references[r.id].revision then s.references else s.references[r.id := r])
      && r.id in t.drafts
  {
    hide Merge, Install, PutDraft;
    var t := Merge(s, r, w).0;
    var s1 := RetainReference(s, r);
    MergeIs(s, r, w);
    if r.id in s.drafts { PutIs(s1, r.id, s.drafts[r.id].(readError := false), w); }
    if d: Draft :| d.record == r && t == Install(s1, d, w) { InstallIs(s1, d, w); }
  }

  // ----- A read ends

  /** An explicit reload drops the text: nothing was brought back by storage and not shown yet, no operation is open,
      nothing was typed since it began, and the record is no older than what is shown. */
  predicate Drops(s: State, t: Task, r: Record)
    requires t.Reading?
  {
    && t.discard && t.id !in s.restored
    && (if t.id in s.drafts then s.drafts[t.id].operation.None? && t.edit == Some(s.drafts[t.id].edit) && s.drafts[t.id].record.revision <= r.revision
        else t.edit.None?)
  }

  /** The answer is of this page's time, and is the record that was asked for. */
  predicate Answers(s: State, t: Task, response: Response, allowed: bool)
    requires t.Reading?
  {
    && allowed && t.generation == s.accessGeneration
    && response.Body? && response.record.id == t.id && Parsed(response.record)
    && (t.id in s.references ==> s.references[t.id].source == response.record.source)
  }

  /** After a reload that drops it, text and conflict are gone and the record is shown as it is; the edit counter moves, so
      that what was sent before is known to be older. */
  lemma ReloadShows(s: State, t: Task, response: Response, allowed: bool, w: bool)
    requires t.Reading? && At(s, t.id) && Answers(s, t, response, allowed) && Drops(s, t, response.record) && Consistent(s, response.record)
    ensures
      var (u, _) := ReadFinish(s, t, response, allowed, w);
      var r := response.record;
      && t.id in u.drafts
      && u.drafts[t.id] == Draft(r, r.draft, false, false, false, (if t.edit.Some? then t.edit.value else 0) + 1, None, false)
  {
    hide Persist, ValidText;
  }

  predicate Current(s: State, t: Task, allowed: bool)
    requires t.Reading?
  {
    allowed && t.generation == s.accessGeneration
  }

  /** The answer is taken in: as a reload, or as a record is. */
  predicate Taken(s: State, t: Task, response: Response, allowed: bool, w: bool)
    requires t.Reading?
  {
    Answers(s, t, response, allowed) && if Drops(s, t, response.record) then Consistent(s, response.record) else Merge(s, response.record, w).1
  }

  lemma NotTaken(s: State, t: Task, response: Response, allowed: bool, w: bool)
    requires t.Reading? && At(s, t.id) && !Taken(s, t, response, allowed, w)
    ensures
      var (u, ok) := ReadFinish(s, t, response, allowed, w);
      !ok && (if !Current(s, t, allowed) then u == s
              else if Answers(s, t, response, allowed) && !Drops(s, t, response.record) then u == ReadFailed(Merge(s, response.record, w).0, t.id, w)
              else u == ReadFailed(s, t.id, w))
  {
    hide Merge, ReadFailed, Parsed, DraftOk, SavedOk, ReferenceOk, StoredAt, Consistent;
  }

  lemma Merged(s: State, t: Task, response: Response, allowed: bool, w: bool)
    requires t.Reading? && Taken(s, t, response, allowed, w) && !Drops(s, t, response.record)
    ensures
      var (u, ok) := ReadFinish(s, t, response, allowed, w);
      u == ConfirmRead(Publish(Merge(s, response.record, w).0, w), response.record) && (ok <==> t.id !in u.stale)
  {
    hide Merge, Publish, ReadFailed, Parsed, ConfirmRead;
  }

  /** What is not taken in changes nothing, but that this page's own reads leave their aside with a failed read. */
  lemma FailedReadShows(s: State, t: Task, response: Response, allowed: bool, w: bool)
    requires t.Reading? && At(s, t.id) && !Taken(s, t, response, allowed, w)
    ensures
      var (u, ok) := ReadFinish(s, t, response, allowed, w);
      && !ok && u.stale == s.stale && u.restored == s.restored && u.asides == s.asides && u.mutations == s.mutations
      && u.drafts == (if Current(s, t, allowed) && t.id in s.drafts then s.drafts[t.id := s.drafts[t.id].(readError := true)] else s.drafts)
  {
    hide Taken, Merge, ReadFinish, ReadFailed, Parsed, Drops, At;
    ReadFailedIs(s, t.id, w);
    NotTaken(s, t, response, allowed, w);
    if Current(s, t, allowed) && Answers(s, t, response, allowed) && !Drops(s, t, response.record) {
      assert !Merge(s, response.record, w).1 by { NotMerged(s, t, response, allowed, w); }
      RefusedLeaves(s, response.record, w);
      ReadFailedIs(Merge(s, response.record, w).0, t.id, w);
    }
  }

  lemma ReadFailedIs(s: State, id: Id, w: bool)
    ensures
      var u := ReadFailed(s, id, w);
      && u == s.(drafts := u.drafts, disk := u.disk)
      && u.drafts == (if id in s.drafts then s.drafts[id := s.drafts[id].(readError := true)] else s.drafts)
  {
    hide Publish;
  }

  lemma NotMerged(s: State, t: Task, response: Response, allowed: bool, w: bool)
    requires t.Reading? && Answers(s, t, response, allowed) && !Drops(s, t, response.record) && !Taken(s, t, response, allowed, w)
    ensures !Merge(s, response.record, w).1
  {
    hide Merge, Parsed;
  }

  /** A record that is refused leaves everything but, at most, the retained reference. */
  lemma RefusedLeaves(s: State, r: Record, w: bool)
    requires !Merge(s, r, w).1
    ensures Merge(s, r, w).0 == s.(references := Merge(s, r, w).0.references)
  {
    hide Publish, Rejoin, Advance, FreshDraft, SameContents;
  }

  /** What is taken in otherwise shows as the record does; and a read answers that the aside is current exactly if then no
      mark is left. The mark goes exactly if the record is no older than the one shown and than the one listed. */
  lemma ReadShows(s: State, t: Task, response: Response, allowed: bool, w: bool)
    requires t.Reading? && Taken(s, t, response, allowed, w) && !Drops(s, t, response.record)
    ensures
      var (u, ok) := ReadFinish(s, t, response, allowed, w);
      var m := Merge(s, response.record, w).0;
      && u.drafts == m.drafts && u.restored == m.restored && u.asides == m.asides && u.references == m.references
      && t.id in u.drafts && (ok <==> t.id !in u.stale)
      && u.stale == (if Satisfies(u, response.record) then s.stale - {t.id} else s.stale)
  {
    hide Merge, Publish, Parsed;
    Merged(s, t, response, allowed, w);
    MergeTouches(s, response.record, w, t.id);
    MergeLearns(s, response.record, w);
  }

  /** The record is no older than the one that is shown and than the one that is listed. */
  predicate Satisfies(s: State, r: Record)
    requires r.id in s.drafts
  {
    s.drafts[r.id].record.revision <= r.revision && (r.id in s.asides ==> s.asides[r.id] <= r.revision)
  }

  lemma ReloadMarks(s: State, t: Task, response: Response, allowed: bool, w: bool)
    requires t.Reading? && Taken(s, t, response, allowed, w) && Drops(s, t, response.record)
    ensures
      var (u, ok) := ReadFinish(s, t, response, allowed, w);
      && t.id in u.drafts && (ok <==> t.id !in u.stale)
      && u.stale == (if Satisfies(u, response.record) then s.stale - {t.id} else s.stale)
  {
    hide Publish, Parsed, Consistent, SameContents;
  }

  /** So it is when the record was read for somebody else's view, but that a failure is nobody's here. */
  lemma ReferenceShows(s: State, t: Task, response: Response, allowed: bool, w: bool)
    requires t.Referencing?
    ensures
      var u := ReferenceReply(s, t, response, allowed, w);
      var fits := allowed && t.generation == s.accessGeneration && response.Body? && response.record.id == t.id && Parsed(response.record)
                  && (t.id in s.references ==> s.references[t.id].source == response.record.source);
      && (!fits ==> u == s)
      && (fits ==>
            var (m, ok) := Merge(s, response.record, w);
            && u.drafts == m.drafts && u.restored == m.restored && u.asides == m.asides && u.references == m.references
            && (!ok ==> u.stale == s.stale)
            && (ok ==> t.id in u.drafts && u.stale == (if Satisfies(u, response.record) then s.stale - {t.id} else s.stale)))
  {
    hide Merge, Parsed;
    if response.Body? && response.record.id == t.id {
      MergeTouches(s, response.record, w, t.id);
      if Merge(s, response.record, w).1 { MergeLearns(s, response.record, w); }
    }
  }
}
