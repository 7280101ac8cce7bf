/**
 The draft owner as the object it is: fields that its methods update in place, one method for each
 stretch of code between two awaits. A method returns the call that it suspends, if it suspends one.
 Every method does to the fields what the function of `AsideProtocol` says; those that its page calls also
 keep the object valid and promise what becomes of every aside, of the locks and of storage.
 */
module AsideSession {
  import opened Wrappers
  import P = AsideProtocol
  import I = AsideInvariants
  import R = AsideRuns
  import D = AsidePersistence
  import C = AsideCalls

  class AsideSession {
    var drafts: map<P.Id, P.Draft>
    var references: map<P.Id, P.Record>
    var restored: map<P.Id, P.Saved>
    var stale: set<P.Id>
    var mutations: set<P.Id>
    var asides: map<P.Id, nat>
    var selected: Option<P.Id>
    var selectionRevision: nat
    var reading: nat
    var accessGeneration: nat
    var pendingCreate: Option<P.PendingCreate>
    var creating: bool
    var createRejected: bool
    var disk: Option<P.Persisted>

    function View(): P.State
      reads this
    {
      P.State(drafts, references, restored, stale, mutations, asides, selected, selectionRevision, reading,
              accessGeneration, pendingCreate, creating, createRejected, disk)
    }

    /** Every aside is well formed, and marked if it is not current. */
    ghost predicate Valid()
      reads this
    {
      C.Good(View())
    }

    /** A new owner reads what storage kept, entry by entry, and skips the entries it cannot accept. */
    constructor (storage: Option<P.Persisted>)
      ensures View() == P.Restore(storage)
      ensures Valid() && D.Durable(View())
    {
      hide C.Good, D.Durable, P.SavedOk, P.Revive, P.Readable, P.ValidText, P.ReviveCreate;
      drafts, references, restored, asides := map[], map[], map[], map[];
      stale, mutations := {}, {};
      selected, pendingCreate, disk := None, None, P.Readable(storage);
      selectionRevision, reading, accessGeneration := 0, 0, 0;
      creating, createRejected := false, false;
      new;
      if storage.Some? {
        var value := storage.value;
        ReadEntries(value.drafts);
        if value.pendingCreate.Some? && P.ValidText(value.pendingCreate.value.draft) {
          createRejected := value.createRejected;
          pendingCreate := Some(P.ReviveCreate(value.pendingCreate.value, createRejected));
        }
        if value.selected.Some? && value.selected.value in restored { selected := value.selected; }
      }
      C.NewPageGood(storage);
    }

    method ReadEntries(items: map<P.Id, P.Saved>)
      requires restored == map[]
      modifies this
      ensures View() == old(View()).(restored := map id | id in items && P.SavedOk(items[id]) :: P.Revive(items[id]))
    {
      hide P.SavedOk, P.Revive;
      var rest := items.Keys;
      while rest != {}
        invariant rest <= items.Keys
        invariant restored == map id | id in items && id !in rest && P.SavedOk(items[id]) :: P.Revive(items[id])
        invariant View() == old(View()).(restored := restored)
        decreases |rest|
      {
        var id :| id in rest;
        rest := rest - {id};
        if P.SavedOk(items[id]) { restored := restored[id := P.Revive(items[id])]; }
      }
    }

    /** Rewrite storage. */
    method Publish(w: bool)
      modifies `disk
      ensures View() == P.Publish(old(View()), w)
    {
      if w {
        var p := P.Persist(View());
        disk := if p.drafts == map[] && p.pendingCreate.None? then None else Some(p);
      }
    }

    method Update(id: P.Id, d: P.Draft, w: bool)
      modifies this
      ensures View() == P.PutDraft(old(View()), id, d, w)
    {
      hide P.Persist;
      drafts := drafts[id := d];
      Publish(w);
    }

    method Summarize(r: P.Record)
      modifies `asides
      ensures View() == P.Summarized(old(View()), r)
    {
      if r.id !in asides || asides[r.id] <= r.revision { asides := asides[r.id := r.revision]; }
      else { asides := asides[r.id := asides[r.id]]; }
    }

    /** The newest record of each aside, unless two records of one revision disagree. */
    method RetainReference(r: P.Record) returns (ok: bool)
      modifies `references
      ensures ok == P.Consistent(old(View()), r)
      ensures View() == if ok then P.RetainReference(old(View()), r) else old(View())
    {
      ok := true;
      if r.id in references {
        var known := references[r.id];
        if known.revision == r.revision && !P.SameContents(known, r) { return false; }
        if known.revision >= r.revision { return; }
      }
      references := references[r.id := r];
    }

    method ConfirmRead(r: P.Record)
      modifies `stale
      ensures View() == P.ConfirmRead(old(View()), r)
    {
      if r.id in drafts && r.revision >= drafts[r.id].record.revision && (r.id in asides ==> r.revision >= asides[r.id]) {
        stale := stale - {r.id};
      }
    }

    method Install(d: P.Draft, w: bool)
      modifies this
      ensures View() == P.Install(old(View()), d, w)
    {
      hide P.Persist;
      drafts := drafts[d.record.id := d];
      restored := restored - {d.record.id};
      Summarize(d.record);
      Publish(w);
    }

    method Merge(r: P.Record, w: bool) returns (ok: bool)
      modifies this
      ensures (View(), ok) == P.Merge(old(View()), r, w)
    {
      hide P.Persist, P.Publish, P.Install, P.PutDraft, P.SameContents, P.Consistent, P.RetainReference;
      ok := RetainReference(r);
      if !ok { return; }
      if r.id in restored {
        if r.revision < restored[r.id].revision { return false; }
        Install(P.Rejoin(restored[r.id], r), w);
        return true;
      }
      if r.id !in drafts {
        Install(P.FreshDraft(r, 0), w);
        return true;
      }
      var current := drafts[r.id];
      if current.record.revision > r.revision { return true; }
      if current.record.revision == r.revision {
        if !P.SameContents(current.record, r) { return false; }
        if current.readError { Update(r.id, current.(readError := false), w); }
        return true;
      }
      Install(P.Advance(current, r), w);
    }

    method ReadFailed(id: P.Id, w: bool)
      modifies this
      ensures View() == P.ReadFailed(old(View()), id, w)
    {
      hide P.Persist, P.Publish;
      if id in drafts { Update(id, drafts[id].(readError := true), w); } else { Publish(w); }
    }

    /** `readRecord` up to its await. */
    method ReadRecord(id: P.Id, discard: bool, after: P.After, allowed: bool) returns (t: P.Task)
      ensures t == P.ReadBegin(View(), id, discard, after, allowed)
    {
      if !allowed { return P.Resuming(false, after); }
      t := P.Reading(id, discard, accessGeneration, if id in drafts then Some(drafts[id].edit) else None, after);
    }

    /** `readRecord` from its await on. */
    method ReadFinish(t: P.Task, response: P.Response, allowed: bool, w: bool) returns (ok: bool)
      requires Valid() && R.TaskOk(View(), t)
      requires t.Reading?
      modifies this
      ensures (View(), ok) == P.ReadFinish(old(View()), t, response, allowed, w)
      ensures Valid() && C.Keeps(old(View()), View(), w, Some(t.id), if old(I.Discards(View(), t, response, allowed)) then I.Dropped else I.Quiet)
    {
      hide P.Persist, P.Publish, P.Install, P.Merge, P.ReadFailed, P.Consistent, P.RetainReference, P.ConfirmRead, P.Admissible, P.FreshDraft, C.Good, C.Keeps, R.TaskOk, I.Discards;
      C.ReadKeeps(View(), t, response, allowed, w);
      if !P.ReadCurrent(View(), t.generation, allowed) { return false; }
      if !(response.Body? && P.Admissible(View(), response.record, Some(t.id))) {
        ReadFailed(t.id, w);
        return false;
      }
      var r := response.record;
      if P.MayDiscard(View(), t, r) {
        ok := RetainReference(r);
        if ok { Install(P.FreshDraft(r, (if t.edit.Some? then t.edit.value else 0) + 1), w); }
      } else {
        ok := Merge(r, w);
        if ok { Publish(w); }
      }
      if !ok {
        ReadFailed(t.id, w);
        return false;
      }
      ConfirmRead(r);
      ok := t.id !in stale;
    }

    method Edit(id: P.Id, text: string, allowed: bool, w: bool)
      requires Valid()
      modifies this
      ensures View() == P.Edit(old(View()), id, text, allowed, w)
      ensures Valid() && C.Keeps(old(View()), View(), w, Some(id), I.Typed)
      ensures id in drafts ==> drafts[id].text == if allowed && drafts[id].record.lifecycle.Open? && P.ValidText(text) then text else old(drafts)[id].text
    {
      hide P.PutDraft, P.ValidText, C.Good, C.Keeps;
      C.EditMeans(View(), id, text, allowed, w);
      if !allowed || id !in drafts || !drafts[id].record.lifecycle.Open? { return; }
      var d := drafts[id];
      if !P.ValidText(text) {
        Update(id, d.(error := true), w);
        return;
      }
      Update(id, d.(text := text, edit := d.edit + 1, dirty := text != d.record.draft,
                    error := (d.operation.Some? || d.conflict) && d.error), w);
    }

    /** `perform` up to its await. */
    method Perform(id: P.Id, op: P.Operation) returns (t: Option<P.Task>)
      modifies `mutations
      ensures (View(), t) == P.PerformBegin(old(View()), id, op)
    {
      if id in mutations { return None; }
      mutations := mutations + {id};
      t := Some(P.Performing(id, op));
    }

    method SaveGo(id: P.Id, token: P.Token, allowed: bool, w: bool) returns (t: Option<P.Task>)
      modifies this
      ensures (View(), t) == P.SaveGo(old(View()), id, token, allowed, w)
    {
      hide P.PutDraft, P.PerformBegin;
      if !P.MaySave(View(), id, allowed) { return None; }
      var d := drafts[id];
      var op := P.Operation(P.SaveDraft(token, d.record.revision, d.text), d.edit, false);
      Update(id, d.(operation := Some(op), error := false), w);
      t := Perform(id, op);
    }

    method Save(id: P.Id, token: P.Token, allowed: bool, w: bool) returns (t: Option<P.Task>)
      requires Valid()
      modifies this
      ensures (View(), t) == P.Save(old(View()), id, token, allowed, w)
      ensures Valid() && C.Keeps(old(View()), View(), w, None, I.Typed)
      ensures t.Some? && t.value.Performing? ==>
        && t.value.id == id && old(id in drafts) && C.SendsNow(old(View()), View(), id, t.value.op)
        && t.value.op.payload == P.SaveDraft(token, old(drafts)[id].record.revision, old(drafts)[id].text)
        && (old(id in asides) ==> t.value.op.payload.expectedRevision >= old(asides)[id])
      ensures t.Some? && !t.value.Performing? ==> id in stale && View() == old(View())
    {
      hide P.SaveGo, C.Good, C.Keeps, C.SendsNow;
      C.SaveMeans(View(), id, token, allowed, w);
      if id in stale {
        var read := ReadRecord(id, false, P.ThenSave(id, P.EditOf(View(), id)), allowed);
        return Some(read);
      }
      t := SaveGo(id, token, allowed, w);
    }

    method SetStateGo(id: P.Id, lifecycle: P.Lifecycle, token: P.Token, allowed: bool, w: bool) returns (t: Option<P.Task>)
      modifies this
      ensures (View(), t) == P.SetStateGo(old(View()), id, lifecycle, token, allowed, w)
    {
      hide P.PutDraft, P.PerformBegin;
      if !P.MaySetState(View(), id, lifecycle, allowed) { return None; }
      var d := drafts[id];
      var op := P.Operation(P.SetState(token, d.record.revision, lifecycle), d.edit, false);
      Update(id, d.(operation := Some(op), error := false), w);
      t := Perform(id, op);
    }

    method SetLifecycle(id: P.Id, lifecycle: P.Lifecycle, token: P.Token, allowed: bool, w: bool) returns (t: Option<P.Task>)
      requires Valid()
      modifies this
      ensures (View(), t) == P.SetLifecycle(old(View()), id, lifecycle, token, allowed, w)
      ensures Valid() && C.Keeps(old(View()), View(), w, None, I.Typed)
      ensures t.Some? && t.value.Performing? ==>
        && t.value.id == id && old(id in drafts) && C.SendsNow(old(View()), View(), id, t.value.op)
        && t.value.op.payload == P.SetState(token, old(drafts)[id].record.revision, lifecycle)
        && (old(id in asides) ==> t.value.op.payload.expectedRevision >= old(asides)[id])
      ensures t.Some? && !t.value.Performing? ==> id in stale && View() == old(View())
    {
      hide P.SetStateGo, C.Good, C.Keeps, C.SendsNow;
      C.SetLifecycleMeans(View(), id, lifecycle, token, allowed, w);
      if id in stale {
        var read := ReadRecord(id, false, P.ThenSetState(id, lifecycle), allowed);
        return Some(read);
      }
      t := SetStateGo(id, lifecycle, token, allowed, w);
    }

    method Reconcile(id: P.Id, allowed: bool, w: bool) returns (t: Option<P.Task>)
      requires Valid()
      modifies this
      ensures (View(), t) == P.Reconcile(old(View()), id, allowed, w)
      ensures Valid() && C.Keeps(old(View()), View(), w, None, I.Typed)
      ensures t.Some? ==>
        && old(id in drafts) && Some(t.value) == Some(P.Performing(id, t.value.op)) && old(drafts)[id].operation == Some(t.value.op)
        && t.value.op.uncertain && old(id !in mutations) && mutations == old(mutations) + {id} && I.Owns(View(), id, t.value.op)
    {
      hide P.PutDraft, P.PerformBegin, C.Good, C.Keeps, I.Owns;
      C.ReconcileMeans(View(), id, allowed, w);
      if !allowed || id !in drafts || drafts[id].operation.None? || id in mutations { return None; }
      var op := drafts[id].operation.value;
      Update(id, drafts[id].(operation := Some(op.(uncertain := false)), error := false), w);
      t := Perform(id, op);
    }

    /** The only read that may replace local text, and never while an operation is unresolved. */
    method Reload(id: P.Id, allowed: bool) returns (t: Option<P.Task>)
      ensures t == P.Reload(View(), id, allowed)
      ensures t.None? <==> id in drafts && drafts[id].operation.Some?
      ensures t.Some? && allowed ==> t.value.Reading? && t.value.discard && t.value.id == id && t.value.generation == accessGeneration
    {
      if id in drafts && drafts[id].operation.Some? { return None; }
      var read := ReadRecord(id, true, P.Nothing, allowed);
      t := Some(read);
    }

    /** The `finally` block of `perform`. */
    method Finish(id: P.Id, op: P.Operation, acknowledged: Option<nat>, locked: bool, w: bool)
      modifies this
      ensures View() == P.Finish(old(View()), id, op, acknowledged, locked, w)
    {
      hide P.PutDraft, P.Publish;
      if locked { mutations := mutations - {id}; }
      if acknowledged.None? || id !in drafts { return; }
      var d := drafts[id];
      if P.HoldsOp(View(), id, op) {
        Update(id, d.(operation := None, conflict := d.conflict || (d.record.revision > acknowledged.value && d.dirty)), w);
      } else {
        Publish(w);
      }
    }

    method Acknowledged(id: P.Id, op: P.Operation, r: P.Record, allowed: bool, w: bool) returns (t: Option<P.Task>)
      requires P.Admissible(View(), r, Some(id)) && P.Acknowledges(r, op.payload)
      modifies this
      ensures (View(), t) == P.PerformReply(old(View()), id, op, P.Body(r), allowed, w)
    {
      hide P.PutDraft, P.Publish, P.Acknowledge, P.Admissible, P.Acknowledges, P.Consistent, P.RetainReference, P.Finish, P.Summarized;
      var ok := RetainReference(r);
      if !ok {
        if P.HoldsOp(View(), id, op) { Update(id, drafts[id].(readError := true), w); }
        Finish(id, op, Some(r.revision), true, w);
        return None;
      }
      if id !in drafts {
        Finish(id, op, Some(r.revision), true, w);
        return None;
      }
      var d := if P.HoldsOp(View(), id, op) then P.Acknowledge(drafts[id], op, r) else drafts[id];
      label before:
      Update(id, d, w);
      assert id in drafts by { PutDrafts(old@before(View()), id, d, w); }
      Summarize(drafts[id].record);
      Publish(w);
      var read := ReadRecord(id, false, P.ThenFinish(id, op, Some(r.revision), true), allowed);
      t := Some(read);
    }

    static lemma PutDrafts(s: P.State, id: P.Id, d: P.Draft, w: bool)
      ensures id in P.PutDraft(s, id, d, w).drafts && P.PutDraft(s, id, d, w).drafts[id] == d
    {
    }

    /** `perform` from its await on. */
    method PerformReply(id: P.Id, op: P.Operation, response: P.Response, allowed: bool, w: bool) returns (t: Option<P.Task>)
      requires Valid() && I.Owns(View(), id, op)
      modifies this
      ensures (View(), t) == P.PerformReply(old(View()), id, op, response, allowed, w)
      ensures Valid() && C.Keeps(old(View()), View(), w, Some(id), if old(I.Retires(View(), id, op, response)) then I.Retired else I.Quiet)
    {
      hide C.Good, C.Keeps, I.Owns, I.Retires, P.PerformReply;
      C.ReplyKeeps(View(), id, op, response, allowed, w);
      if response.Body? && P.Admissible(View(), response.record, Some(id)) && P.Acknowledges(response.record, op.payload) {
        t := Acknowledged(id, op, response.record, allowed, w);
      } else {
        t := Unacknowledged(id, op, response, allowed, w);
      }
    }

    method Unacknowledged(id: P.Id, op: P.Operation, response: P.Response, allowed: bool, w: bool) returns (t: Option<P.Task>)
      requires !(response.Body? && P.Admissible(View(), response.record, Some(id)) && P.Acknowledges(response.record, op.payload))
      modifies this
      ensures (View(), t) == P.PerformReply(old(View()), id, op, response, allowed, w)
    {
      hide P.PutDraft, P.Admissible, P.Acknowledges;
      t := None;
      if !P.HoldsOp(View(), id, op) {
        mutations := mutations - {id};
        return;
      }
      var d := drafts[id];
      if response.Conflicted? {
        mutations := mutations - {id};
        Update(id, d.(operation := None, conflict := true, error := true), w);
        var read := ReadRecord(id, false, P.ThenFinish(id, op, None, false), allowed);
        t := Some(read);
      } else if response.Rejected? {
        mutations := mutations - {id};
        Update(id, d.(operation := None, error := true), w);
      } else {
        Update(id, d.(operation := Some(op.(uncertain := true)), error := true), w);
        mutations := mutations - {id};
      }
    }

    /** What a call does after the read it awaited. */
    method Resume(ok: bool, after: P.After, token: P.Token, allowed: bool, w: bool) returns (t: Option<P.Task>)
      requires Valid() && R.TaskOk(View(), P.Resuming(ok, after))
      modifies this
      ensures (View(), t) == P.Resume(old(View()), ok, after, token, allowed, w)
      ensures Valid() && C.Keeps(old(View()), View(), w, C.RetiredBy(after), I.Retired)
    {
      hide P.SaveGo, P.SetStateGo, P.Finish, C.Good, C.Keeps, R.TaskOk;
      C.ResumeKeeps(View(), ok, after, token, allowed, w);
      t := None;
      match after
      case Nothing =>
      case ThenSave(id, edit) => if ok && P.EditOf(View(), id) == edit { t := SaveGo(id, token, allowed, w); }
      case ThenSetState(id, lifecycle) => if ok { t := SetStateGo(id, lifecycle, token, allowed, w); }
      case ThenFinish(id, op, acknowledged, locked) => Finish(id, op, acknowledged, locked, w);
    }

    method Open(id: P.Id, refresh: bool, allowed: bool, w: bool) returns (t: Option<P.Task>)
      requires Valid()
      modifies this
      ensures (View(), t) == P.OpenAside(old(View()), id, refresh, allowed, w)
      ensures Valid() && C.Keeps(old(View()), View(), w, None, I.Typed) && drafts == old(drafts)
      ensures allowed ==> selected == Some(id) && (t.None? ==> id in drafts && (id in asides ==> drafts[id].record.revision >= asides[id]))
      ensures !allowed ==> View() == old(View()) && t.None?
    {
      hide P.Persist, P.Publish, C.Good, C.Keeps;
      C.OpenMeans(View(), id, refresh, allowed, w);
      if !allowed { return None; }
      selectionRevision := selectionRevision + 1;
      selected := Some(id);
      Publish(w);
      if !refresh && id in drafts && id !in stale { return None; }
      var read := ReadRecord(id, false, P.Nothing, allowed);
      t := Some(read);
    }

    method Refresh(revalidate: bool, allowed: bool, w: bool) returns (t: Option<P.Task>)
      requires Valid()
      modifies this
      ensures (View(), t) == P.Refresh(old(View()), revalidate, allowed, w)
      ensures Valid() && C.Keeps(old(View()), View(), w, None, I.Typed)
    {
      hide P.Persist, C.Good, C.Keeps;
      C.RefreshMeans(View(), revalidate, allowed, w);
      if !allowed { return None; }
      reading := reading + 1;
      Publish(w);
      t := Some(P.Listing(reading, accessGeneration, revalidate));
    }

    static ghost predicate Newer(drafts: map<P.Id, P.Draft>, items: map<P.Id, P.Summary>, id: P.Id)
      requires id in items
    {
      items[id].revision > (if id in drafts then drafts[id].record.revision else 0)
    }

    /** Newer summaries mark their drafts. */
    method MarkStale(items: map<P.Id, P.Summary>)
      modifies `stale
      ensures forall id :: id in stale <==> id in old(stale) || (id in items && Newer(drafts, items, id))
    {
      var rest := items.Keys;
      while rest != {}
        invariant rest <= items.Keys
        invariant forall id :: id in stale <==> id in old(stale) || (id in items && id !in rest && Newer(drafts, items, id))
        decreases |rest|
      {
        var id :| id in rest;
        rest := rest - {id};
        if items[id].revision > (if id in drafts then drafts[id].record.revision else 0) { stale := stale + {id}; }
      }
    }

    static function Latest(known: map<P.Id, nat>, items: map<P.Id, P.Summary>, id: P.Id): nat
      requires id in items
    {
      if id in known && known[id] > items[id].revision then known[id] else items[id].revision
    }

    /** The listed summaries, never older than the known ones. */
    static method Summaries(was: map<P.Id, nat>, items: map<P.Id, P.Summary>) returns (known: map<P.Id, nat>)
      ensures forall id :: id in known <==> id in was || id in items
      ensures forall id :: id in items ==> known[id] == Latest(was, items, id)
      ensures forall id :: id in was && id !in items ==> known[id] == was[id]
    {
      known := was;
      var rest := items.Keys;
      while rest != {}
        invariant rest <= items.Keys
        invariant forall id :: id in known <==> id in was || (id in items && id !in rest)
        invariant forall id :: id in items && id !in rest ==> known[id] == Latest(was, items, id)
        invariant forall id :: id in was && (id !in items || id in rest) ==> known[id] == was[id]
        decreases |rest|
      {
        var id :| id in rest;
        rest := rest - {id};
        if id !in known || known[id] <= items[id].revision { known := known[id := items[id].revision]; }
      }
    }

    method TakeList(items: map<P.Id, P.Summary>)
      modifies `stale, `asides
      ensures View() == P.WithList(old(View()), items)
    {
      ghost var was := View();
      MarkStale(items);
      assert stale == P.WithList(was, items).stale;
      asides := Summaries(asides, items);
      assert asides == P.WithList(was, items).asides;
    }

    /** `refresh` from its await on; the reads it starts are the environment's. */
    method ListReply(t: P.Task, response: P.ListResponse, allowed: bool, w: bool)
      requires Valid()
      requires t.Listing?
      modifies this
      ensures View() == P.ListReply(old(View()), t, response, allowed, w)
      ensures Valid() && C.Keeps(old(View()), View(), w, None, I.Quiet)
    {
      hide P.Publish, P.WithList, P.AdmissibleList, C.Good, C.Keeps;
      C.ListKeeps(View(), t, response, allowed, w);
      if t.reading != reading || !P.ReadCurrent(View(), t.generation, allowed) { return; }
      if response.Listed? && P.AdmissibleList(View(), response.items) { TakeList(response.items); }
      Publish(w);
    }

    method RetireAccess()
      requires Valid()
      modifies this
      ensures View() == P.RetireAccess(old(View()))
      ensures Valid() && C.Keeps(old(View()), View(), true, None, I.Typed)
    {
      hide C.Good, C.Keeps;
      C.RetireMeans(View());
      accessGeneration := accessGeneration + 1;
      reading := reading + 1;
    }

    method ReferenceReply(t: P.Task, response: P.Response, allowed: bool, w: bool)
      requires Valid()
      requires t.Referencing?
      modifies this
      ensures View() == P.ReferenceReply(old(View()), t, response, allowed, w)
      ensures Valid() && C.Keeps(old(View()), View(), w, None, I.Quiet)
    {
      hide P.Merge, P.ConfirmRead, P.Admissible, C.Good, C.Keeps;
      C.ReferenceKeeps(View(), t, response, allowed, w);
      if !P.ReadCurrent(View(), t.generation, allowed) || !response.Body? { return; }
      if !P.Admissible(View(), response.record, Some(t.id)) { return; }
      var ok := Merge(response.record, w);
      if ok { ConfirmRead(response.record); }
    }

    method Create(target: P.Target, text: string, token: P.Token, allowed: bool, canCreate: bool, w: bool) returns (t: Option<P.Task>)
      requires Valid()
      modifies this
      ensures (View(), t) == P.Create(old(View()), target, text, token, allowed, canCreate, w)
      ensures Valid() && C.Keeps(old(View()), View(), w, None, I.Typed)
      ensures t.Some? <==> old(P.MayCreate(View(), allowed, canCreate)) && P.ValidText(text)
      ensures t.Some? ==> !old(creating) && R.TaskOk(View(), t.value) && t.value == P.Creating(P.PendingCreate(token, target, text, false, false), old(selectionRevision))
      ensures t.None? ==> pendingCreate == old(pendingCreate) && creating == old(creating)
    {
      hide P.Publish, P.ValidText, P.RetryCreate, C.Good, C.Keeps, R.TaskOk;
      C.CreateMeans(View(), target, text, token, allowed, canCreate, w);
      t := None;
      if !P.MayCreate(View(), allowed, canCreate) { return; }
      if !P.ValidText(text) {
        Publish(w);
        return;
      }
      createRejected := false;
      pendingCreate := Some(P.PendingCreate(token, target, text, false, false));
      Publish(w);
      t := SendCreate(allowed, w);
    }

    /** An unanswered or rejected creation goes out again, as the only one. */
    method RetryCreate(allowed: bool, w: bool) returns (t: Option<P.Task>)
      requires Valid()
      modifies this
      ensures (View(), t) == P.RetryCreate(old(View()), allowed, w)
      ensures Valid() && C.Keeps(old(View()), View(), w, None, I.Typed)
      ensures t.Some? <==> old(pendingCreate.Some? && !creating) && allowed
      ensures t.Some? ==> t.value == P.Creating(old(pendingCreate).value, old(selectionRevision)) && R.TaskOk(View(), t.value)
      ensures t.None? ==> View() == old(View())
    {
      hide C.Good, C.Keeps, R.TaskOk, P.RetryCreate;
      C.RetryMeans(View(), allowed, w);
      t := SendCreate(allowed, w);
    }

    method SendCreate(allowed: bool, w: bool) returns (t: Option<P.Task>)
      modifies this
      ensures (View(), t) == P.RetryCreate(old(View()), allowed, w)
    {
      hide P.Publish;
      if pendingCreate.None? || creating || !allowed { return None; }
      var p := pendingCreate.value;
      createRejected, creating := false, true;
      pendingCreate := Some(p.(uncertain := false, error := false));
      var revision := selectionRevision;
      Publish(w);
      t := Some(P.Creating(p, revision));
    }

    method CreateFailed(p: P.PendingCreate, rejected: bool, w: bool)
      modifies this
      ensures View() == P.CreateFailed(old(View()), p, rejected, w)
    {
      hide P.Publish;
      createRejected, creating := rejected, false;
      pendingCreate := Some(p.(uncertain := !rejected, error := true));
      Publish(w);
    }

    /** `retryCreate` from its await on. */
    method CreateReply(t: P.Task, response: P.Response, allowed: bool, w: bool) returns (next: Option<P.Task>)
      requires Valid() && R.TaskOk(View(), t)
      requires t.Creating?
      modifies this
      ensures (View(), next) == P.CreateReply(old(View()), t, response, allowed, w)
      ensures Valid() && C.Keeps(old(View()), View(), w, None, I.Quiet)
    {
      hide P.Publish, P.Merge, P.Admissible, P.AcknowledgesCreate, P.CreateFailed, P.Consistent, P.RetainReference, P.Created, C.Good, C.Keeps, R.TaskOk;
      C.CreateReplyKeeps(View(), t, response, allowed, w);
      next := None;
      var p := t.pending;
      if !(response.Body? && P.Admissible(View(), response.record, None) && P.AcknowledgesCreate(response.record, p)) {
        CreateFailed(p, response.Rejected? || response.Conflicted?, w);
        return;
      }
      var r := response.record;
      var ok := RetainReference(r);
      if !ok {
        CreateFailed(p, false, w);
        return;
      }
      var again := p.uncertain || r.id in restored;
      if r.id !in restored { ok := Merge(r, w); }
      if !ok {
        CreateFailed(p, false, w);
        return;
      }
      var select := selectionRevision == t.selectionRevision;
      Created(r, again, select, w);
      if again || r.id in stale {
        var read := ReadRecord(r.id, false, P.Nothing, allowed);
        next := Some(read);
      }
    }

    method Created(r: P.Record, again: bool, select: bool, w: bool)
      modifies this
      ensures View() == P.Created(old(View()), r, again, select, w)
    {
      hide P.Publish, P.ConfirmRead, P.Summarized;
      if again { stale := stale + {r.id}; } else { ConfirmRead(r); }
      if select { selected := Some(r.id); }
      Summarize(r);
      pendingCreate, creating := None, false;
      Publish(w);
    }
  }
}
