/**
 What the user's calls do and what their answers leave, field by field: when an edit, a save, a lifecycle change, a
 reconcile or a reload takes effect, what is then sent, and what becomes of the draft when the answer is there.
 */
module AsideSends {
  import opened Wrappers
  import opened AsideProtocol

  /** Only this aside's draft changed, and perhaps what is stored. */
  predicate OnlyDraft(s: State, t: State, id: Id) {
    t == s.(drafts := t.drafts, disk := t.disk) && t.drafts.Keys == s.drafts.Keys
    && forall i :: i in s.drafts && i != id ==> t.drafts[i] == s.drafts[i]
  }

  // ----- Typing

  /** Only an open aside that is shown can be typed into. Text that is no text is refused with an error; any other shows, is
      unsaved exactly if it differs from the record, and counts as an edit. An error goes, unless it is about an operation
      or a conflict that is still there. */
  lemma EditExactly(s: State, id: Id, text: string, allowed: bool, w: bool)
    ensures
      var t := Edit(s, id, text, allowed, w);
      if !allowed || id !in s.drafts || s.drafts[id].record.lifecycle != Open then t == s
      else
        && OnlyDraft(s, t, id)
        && var (d, e) := (s.drafts[id], t.drafts[id]);
        && e.record == d.record && e.operation == d.operation && e.conflict == d.conflict && e.readError == d.readError
        && (if |text| > 100000 || '\0' in text then e.text == d.text && e.dirty == d.dirty && e.edit == d.edit && e.error
            else e.text == text && (e.dirty <==> text != d.record.draft) && e.edit == d.edit + 1
                 && (e.error <==> d.error && (d.operation.Some? || d.conflict)))
  {
    hide PutDraft, ValidText, OnlyDraft;
    TextIff(text);
    if id in s.drafts {
      var d := s.drafts[id];
      PutOnly(s, id, d.(error := true), w);
      PutOnly(s, id, d.(text := text, edit := d.edit + 1, dirty := text != d.record.draft, error := (d.operation.Some? || d.conflict) && d.error), w);
    }
  }

  lemma PutOnly(s: State, id: Id, d: Draft, w: bool)
    requires id in s.drafts
    ensures var t := PutDraft(s, id, d, w); OnlyDraft(s, t, id) && id in t.drafts && t.drafts[id] == d
  {
    hide Publish;
  }

  lemma TextIff(text: string)
    ensures ValidText(text) <==> !(|text| > 100000 || '\0' in text)
  {
  }

  // ----- What goes out

  /** The operation went out: it is locked, shown and sent as this. */
  predicate GoesOut(s: State, t: State, task: Option<Task>, id: Id, op: Operation, shown: Operation) {
    && task == Some(Performing(id, op)) && id in s.drafts && id !in s.mutations
    && t == s.(drafts := s.drafts[id := s.drafts[id].(operation := Some(shown), error := false)], mutations := s.mutations + {id}, disk := t.disk)
  }

  /** A save of a current aside goes out exactly if the user may act, no request of the aside is on its way, and there is
      unsaved text in an open aside, without a conflict or an operation of unknown outcome. It carries the text, against
      the revision that is shown. Otherwise nothing happens. */
  lemma SaveExactly(s: State, id: Id, token: Token, allowed: bool, w: bool)
    requires id !in s.stale
    ensures
      var (t, task) := Save(s, id, token, allowed, w);
      if && allowed && id !in s.mutations && id in s.drafts && s.drafts[id].dirty && s.drafts[id].record.lifecycle == Open
         && !s.drafts[id].conflict && s.drafts[id].operation == None
      then
        var d := s.drafts[id];
        var op := Operation(SaveDraft(token, d.record.revision, d.text), d.edit, false);
        GoesOut(s, t, task, id, op, op)
      else t == s && task == None
  {
    hide Publish;
  }

  /** A lifecycle change likewise, to another state of an aside that is not discarded. */
  lemma SetLifecycleExactly(s: State, id: Id, lifecycle: Lifecycle, token: Token, allowed: bool, w: bool)
    requires id !in s.stale
    ensures
      var (t, task) := SetLifecycle(s, id, lifecycle, token, allowed, w);
      if && allowed && id !in s.mutations && id in s.drafts && s.drafts[id].operation == None && !s.drafts[id].conflict
         && s.drafts[id].record.lifecycle != Discarded && s.drafts[id].record.lifecycle != lifecycle
      then
        var d := s.drafts[id];
        var op := Operation(SetState(token, d.record.revision, lifecycle), d.edit, false);
        GoesOut(s, t, task, id, op, op)
      else t == s && task == None
  {
    hide Publish;
  }

  /** A stale aside is read first, and nothing is sent before. What then follows is the save, if nothing was typed since it
      was asked for, or the lifecycle change; and only if the read found the aside current. */
  lemma StaleFirst(s: State, id: Id, lifecycle: Lifecycle, token: Token, allowed: bool, w: bool)
    requires id in s.stale
    ensures
      var edit := if id in s.drafts then Some(s.drafts[id].edit) else None;
      && Save(s, id, token, allowed, w) ==
           (s, Some(if allowed then Reading(id, false, s.accessGeneration, edit, ThenSave(id, edit)) else Resuming(false, ThenSave(id, edit))))
      && SetLifecycle(s, id, lifecycle, token, allowed, w) ==
           (s, Some(if allowed then Reading(id, false, s.accessGeneration, edit, ThenSetState(id, lifecycle))
                    else Resuming(false, ThenSetState(id, lifecycle))))
  {
  }

  lemma FollowsExactly(s: State, id: Id, ok: bool, edit: Option<nat>, lifecycle: Lifecycle, token: Token, allowed: bool, w: bool)
    requires id !in s.stale
    ensures Resume(s, ok, ThenSave(id, edit), token, allowed, w) ==
      if ok && (if id in s.drafts then edit == Some(s.drafts[id].edit) else edit == None) then Save(s, id, token, allowed, w) else (s, None)
    ensures Resume(s, ok, ThenSetState(id, lifecycle), token, allowed, w) ==
      if ok then SetLifecycle(s, id, lifecycle, token, allowed, w) else (s, None)
    ensures Resume(s, ok, Nothing, token, allowed, w) == (s, None)
  {
    hide SaveGo, SetStateGo;
  }

  /** An open operation is sent again, unchanged, exactly if its request is not on its way. While it is, its outcome does not
      count as unknown. */
  lemma ReconcileExactly(s: State, id: Id, allowed: bool, w: bool)
    ensures
      var (t, task) := Reconcile(s, id, allowed, w);
      if allowed && id !in s.mutations && id in s.drafts && s.drafts[id].operation != None
      then GoesOut(s, t, task, id, s.drafts[id].operation.value, s.drafts[id].operation.value.(uncertain := false))
      else t == s && task == None
  {
    hide Publish;
  }

  /** A reload begins exactly if no operation is open, and remembers what was typed so far. */
  lemma ReloadExactly(s: State, id: Id, allowed: bool)
    ensures
      var edit := if id in s.drafts then Some(s.drafts[id].edit) else None;
      Reload(s, id, allowed) ==
        if id in s.drafts && s.drafts[id].operation != None then None
        else Some(if allowed then Reading(id, true, s.accessGeneration, edit, Nothing) else Resuming(false, Nothing))
  {
  }

  // ----- What the answers leave

  /** The answer says that exactly the request was done: the very next revision of this aside, with what was asked for. */
  predicate Confirmed(s: State, id: Id, p: Payload, response: Response) {
    && response.Body?
    && var r := response.record;
    && Parsed(r) && r.id == id && (id in s.references ==> s.references[id].source == r.source)
    && r.revision == p.expectedRevision + 1
    && (match p
        case SaveDraft(_, _, text) => r.draft == text
        case SetState(_, _, lifecycle) => r.lifecycle == lifecycle)
  }

  /** A confirmed request shows its record, unless a newer one is shown. Text that the user has stays, and is unsaved exactly
      if it differs from what is shown of the record; if that is newer than the request, it is a conflict. The request ends
      only when the aside was read again. */
  lemma ConfirmedShows(s: State, id: Id, op: Operation, response: Response, allowed: bool, w: bool)
    requires Confirmed(s, id, op.payload, response) && Consistent(s, response.record)
    requires id in s.drafts && s.drafts[id].operation.Some? && s.drafts[id].operation.value.payload.requestId == op.payload.requestId
    ensures
      var (t, task) := PerformReply(s, id, op, response, allowed, w);
      && id in t.drafts
      && var (d, e, r) := (s.drafts[id], t.drafts[id], response.record);
      && e.record == (if r.revision < d.record.revision then d.record else r)
      && e.text == d.text && (e.dirty <==> e.text != e.record.draft) && !e.error
      && (e.conflict <==> d.conflict || (r.revision < d.record.revision && e.dirty))
      && e.operation == d.operation && e.edit == d.edit && e.readError == d.readError
      && t.mutations == s.mutations
      && task == Some(if allowed then Reading(id, false, t.accessGeneration, Some(e.edit), ThenFinish(id, op, Some(r.revision), true))
                      else Resuming(false, ThenFinish(id, op, Some(r.revision), true)))
  {
    hide PutDraft, Publish, Parsed, Consistent, Acknowledge, Finish, ReadBegin;
    var r := response.record;
    var s1 := RetainReference(s, r);
    var e := Acknowledge(s.drafts[id], op, r);
    var s2 := PutDraft(s1, id, e, w);
    assert s1.drafts == s.drafts && s1.mutations == s.mutations;
    PutOnly(s1, id, e, w);
    AcknowledgedIs(s.drafts[id], op, r);
    var s3 := Publish(Summarized(s2, e.record), w);
    assert s3.drafts == s2.drafts && s3.mutations == s2.mutations;
    assert PerformReply(s, id, op, response, allowed, w) == (s3, Some(ReadBegin(s3, id, false, ThenFinish(id, op, Some(r.revision), true), allowed)));
    BeginIs(s3, id, false, ThenFinish(id, op, Some(r.revision), true), allowed);
  }

  lemma BeginIs(s: State, id: Id, discard: bool, after: After, allowed: bool)
    requires id in s.drafts
    ensures ReadBegin(s, id, discard, after, allowed) ==
      if allowed then Reading(id, discard, s.accessGeneration, Some(s.drafts[id].edit), after) else Resuming(false, after)
  {
  }

  lemma AcknowledgedIs(d: Draft, op: Operation, r: Record)
    requires d.operation.Some?
    ensures
      var e := Acknowledge(d, op, r);
      && e.record == (if r.revision < d.record.revision then d.record else r)
      && e.text == d.text && (e.dirty <==> e.text != e.record.draft) && !e.error
      && (e.conflict <==> d.conflict || (r.revision < d.record.revision && e.dirty))
      && e.operation == d.operation && e.edit == d.edit && e.readError == d.readError
  {
  }

  /** The end of a request that was confirmed: its lock goes, and with it the operation, if it is still the one shown; unsaved
      text under a record that is newer than the confirmed one is a conflict. */
  lemma FinishExactly(s: State, id: Id, op: Operation, revision: nat, w: bool)
    ensures
      var t := Finish(s, id, op, Some(revision), true, w);
      && t == s.(drafts := t.drafts, mutations := s.mutations - {id}, disk := t.disk)
      && (if id in s.drafts && s.drafts[id].operation.Some? && s.drafts[id].operation.value.payload.requestId == op.payload.requestId
          then
            var d := s.drafts[id];
            t.drafts == s.drafts[id := d.(operation := None, conflict := d.conflict || (d.dirty && revision < d.record.revision))]
          else t.drafts == s.drafts)
    ensures Finish(s, id, op, None, false, w) == s
  {
    hide Persist;
  }

  /** A request that was not confirmed is unlocked. A conflict ends it, shows one and reads the aside again; a definite
      rejection ends it; whatever else leaves it open, of unknown outcome. The text stays, and there is an error to show. */
  lemma UnconfirmedShows(s: State, id: Id, op: Operation, response: Response, allowed: bool, w: bool)
    requires !Confirmed(s, id, op.payload, response)
    requires id in s.drafts && s.drafts[id].operation.Some? && s.drafts[id].operation.value.payload.requestId == op.payload.requestId
    ensures
      var (t, task) := PerformReply(s, id, op, response, allowed, w);
      && t == s.(drafts := t.drafts, mutations := s.mutations - {id}, disk := t.disk)
      && var d := s.drafts[id];
      match response
      case Conflicted =>
        && t.drafts == s.drafts[id := d.(operation := None, conflict := true, error := true)]
        && task == Some(if allowed then Reading(id, false, s.accessGeneration, Some(d.edit), ThenFinish(id, op, None, false))
                        else Resuming(false, ThenFinish(id, op, None, false)))
      case Rejected => t.drafts == s.drafts[id := d.(operation := None, error := true)] && task == None
      case _ => t.drafts == s.drafts[id := d.(operation := Some(op.(uncertain := true)), error := true)] && task == None
  {
    hide Persist, Parsed;
  }

  /** A confirmation that contradicts what is known of its own revision ends the request, and leaves a failed read. */
  lemma ContradictedShows(s: State, id: Id, op: Operation, response: Response, allowed: bool, w: bool)
    requires Confirmed(s, id, op.payload, response) && !Consistent(s, response.record)
    requires id in s.drafts && s.drafts[id].operation.Some? && s.drafts[id].operation.value.payload.requestId == op.payload.requestId
    ensures
      var (t, task) := PerformReply(s, id, op, response, allowed, w);
      var d := s.drafts[id];
      && task == None && t == s.(drafts := t.drafts, mutations := s.mutations - {id}, disk := t.disk)
      && t.drafts == s.drafts[id := d.(operation := None, readError := true,
                                       conflict := d.conflict || (d.dirty && response.record.revision < d.record.revision))]
  {
    hide Persist, Parsed;
  }

  // ----- Lists, selection and access

  /** Each aside of the list has the source it always had. */
  predicate SameSources(s: State, items: map<Id, Summary>) {
    forall id :: id in items ==> items[id].revision > 0 && (id in s.references ==> s.references[id].source == items[id].source)
  }

  lemma AdmissibleIff(s: State, items: map<Id, Summary>)
    ensures AdmissibleList(s, items) <==> SameSources(s, items)
  {
  }

  /** A list is of this page's newest request for one, and every aside in it has the source it always had. Of each it keeps
      the newest revision seen; one that is newer than what is shown, or not shown at all, is marked. */
  lemma ListExactly(s: State, t: Task, response: ListResponse, allowed: bool, w: bool)
    requires t.Listing?
    ensures
      var u := ListReply(s, t, response, allowed, w);
      if allowed && t.generation == s.accessGeneration && t.reading == s.reading && response.Listed? && SameSources(s, response.items) then
        && u == s.(asides := u.asides, stale := u.stale, disk := u.disk)
        && u.asides.Keys == s.asides.Keys + response.items.Keys
        && (forall id :: id in u.asides ==>
              && (id in s.asides ==> s.asides[id] <= u.asides[id])
              && (id in response.items ==> response.items[id].revision <= u.asides[id])
              && ((id in s.asides && u.asides[id] == s.asides[id]) || (id in response.items && u.asides[id] == response.items[id].revision)))
        && (forall id :: id in u.stale <==>
              id in s.stale || (id in response.items && (id in s.drafts ==> s.drafts[id].record.revision < response.items[id].revision)))
      else u == s.(disk := u.disk)
  {
    hide Publish, WithList, AdmissibleList, SameSources, MarkedBy;
    if response.Listed? {
      AdmissibleIff(s, response.items);
      ListTakes(s, response.items);
    }
  }

  lemma ListTakes(s: State, items: map<Id, Summary>)
    ensures
      var u := WithList(s, items);
      && u == s.(asides := u.asides, stale := u.stale)
      && u.asides.Keys == s.asides.Keys + items.Keys
      && (forall id :: id in u.asides ==>
            && (id in s.asides ==> s.asides[id] <= u.asides[id])
            && (id in items ==> items[id].revision <= u.asides[id])
            && ((id in s.asides && u.asides[id] == s.asides[id]) || (id in items && u.asides[id] == items[id].revision)))
      && (forall id :: id in u.stale <==> id in s.stale || MarkedBy(s, items, id))
    ensures SameSources(s, items) ==> forall id :: MarkedBy(s, items, id) <==>
      id in items && (id in s.drafts ==> s.drafts[id].record.revision < items[id].revision)
  {
    assert forall id :: id in WithList(s, items).asides <==> id in s.asides || id in items;
  }

  predicate MarkedBy(s: State, items: map<Id, Summary>, id: Id) {
    id in items && items[id].revision > (if id in s.drafts then s.drafts[id].record.revision else 0)
  }

  /** Opening an aside selects it, and reads it exactly if that is asked for, or it is not shown or stale. */
  lemma OpenExactly(s: State, id: Id, refresh: bool, allowed: bool, w: bool)
    ensures
      var (t, task) := OpenAside(s, id, refresh, allowed, w);
      if !allowed then t == s && task == None
      else
        && t == s.(selectionRevision := s.selectionRevision + 1, selected := Some(id), disk := t.disk)
        && task == (if refresh || id !in s.drafts || id in s.stale
                    then Some(Reading(id, false, s.accessGeneration, if id in s.drafts then Some(s.drafts[id].edit) else None, Nothing)) else None)
  {
    hide Publish;
  }

  /** A request for the list makes every earlier one obsolete; and losing access does so with every read that is on its way. */
  lemma RefreshExactly(s: State, revalidate: bool, allowed: bool, w: bool)
    ensures
      var (t, task) := Refresh(s, revalidate, allowed, w);
      if !allowed then t == s && task == None
      else t == s.(reading := s.reading + 1, disk := t.disk) && task == Some(Listing(t.reading, s.accessGeneration, revalidate))
    ensures
      var t := RetireAccess(s);
      && t == s.(reading := t.reading, accessGeneration := t.accessGeneration)
      && t.reading > s.reading && t.accessGeneration > s.accessGeneration
  {
    hide Publish;
  }
}
