/**
 Stale marks. An aside that is listed and not marked stale is held at least at its listed revision, so a
 save that is sent without a read first never rests on a revision that a list had already superseded.
 */
module AsideFreshness {
  import opened Wrappers
  import opened AsideProtocol
  import opened AsideInvariants
  import opened AsideRuns
  import opened AsideProvenance

  ghost predicate FreshAt(s: State, id: Id) {
    id in s.asides && id !in s.stale ==> id in s.drafts && s.drafts[id].record.revision >= s.asides[id]
  }

  /** The draft is at least as new as the record. */
  ghost predicate Covers(s: State, r: Record) {
    r.id in s.drafts && s.drafts[r.id].record.revision >= r.revision
  }

  lemma SameFresh(s: State, t: State, id: Id)
    requires FreshAt(s, id) && s.drafts == t.drafts && s.asides == t.asides && s.stale <= t.stale
    ensures FreshAt(t, id)
  {
  }

  lemma PutFresh(s: State, target: Id, d: Draft, w: bool, id: Id)
    requires FreshAt(s, id) && target in s.drafts && d.record.revision >= s.drafts[target].record.revision
    ensures FreshAt(PutDraft(s, target, d, w), id)
  {
    hide Publish;
  }

  lemma InstallFresh(s: State, d: Draft, w: bool, id: Id)
    requires FreshAt(s, id)
    requires d.record.id in s.drafts ==> d.record.revision >= s.drafts[d.record.id].record.revision
    ensures FreshAt(Install(s, d, w), id) && Covers(Install(s, d, w), d.record)
  {
    hide Publish;
  }

  lemma ConfirmFresh(s: State, r: Record, id: Id)
    requires FreshAt(s, id) && Covers(s, r)
    ensures FreshAt(ConfirmRead(s, r), id)
  {
  }

  lemma MergeFresh(s: State, r: Record, w: bool, id: Id)
    requires FreshAt(s, id) && At(s, r.id)
    ensures FreshAt(Merge(s, r, w).0, id)
    ensures Merge(s, r, w).1 ==> Covers(Merge(s, r, w).0, r)
  {
    hide FreshAt, Install, PutDraft, DraftOk, SavedOk, ReferenceOk, Rejoin, Advance, FreshDraft, Consistent, SameContents;
    var s1 := RetainReference(s, r);
    SameFresh(s, s1, id);
    if r.id in s1.restored { InstallFresh(s1, Rejoin(s1.restored[r.id], r), w, id); }
    if r.id !in s1.drafts { InstallFresh(s1, FreshDraft(r, 0), w, id); }
    if r.id in s1.drafts {
      var d := s1.drafts[r.id];
      if d.record.revision <= r.revision { InstallFresh(s1, Advance(d, r), w, id); }
      PutFresh(s1, r.id, d.(readError := false), w, id);
      PutDrafts(s1, r.id, d.(readError := false), w);
    }
  }

  lemma ReadFailedFresh(s: State, target: Id, w: bool, id: Id)
    requires FreshAt(s, id)
    ensures FreshAt(ReadFailed(s, target, w), id)
  {
    hide FreshAt, PutDraft, Publish;
    SameFresh(s, Publish(s, w), id);
    if target in s.drafts { PutFresh(s, target, s.drafts[target].(readError := true), w, id); }
  }

  lemma ReadFresh(s: State, t: Task, response: Response, allowed: bool, w: bool, id: Id)
    requires FreshAt(s, id) && t.Reading? && At(s, t.id)
    ensures FreshAt(ReadFinish(s, t, response, allowed, w).0, id)
  {
    hide FreshAt, At, Install, Merge, FreshDraft, RetainReference, ConfirmRead, ReadFailed, Publish, Consistent, Covers;
    ReadFailedFresh(s, t.id, w, id);
    if response.Body? && Admissible(s, response.record, Some(t.id)) {
      var r := response.record;
      var (m, ok) := Merge(s, r, w);
      MergeFresh(s, r, w, id);
      ReadFailedFresh(m, t.id, w, id);
      var p := Publish(m, w);
      SameFresh(m, p, id);
      if ok {
        assert Covers(p, r) by { SameCovers(m, p, r); }
        ConfirmFresh(p, r, id);
      }
      if MayDiscard(s, t, r) {
        var d := FreshDraft(r, (if t.edit.Some? then t.edit.value else 0) + 1);
        SameFresh(s, RetainReference(s, r), id);
        InstallFresh(RetainReference(s, r), d, w, id);
        ConfirmFresh(Install(RetainReference(s, r), d, w), r, id);
      }
    }
  }

  lemma SameCovers(s: State, t: State, r: Record)
    requires s.drafts == t.drafts && Covers(s, r)
    ensures Covers(t, r)
  {
  }

  lemma EditFresh(s: State, target: Id, text: string, allowed: bool, w: bool, id: Id)
    requires FreshAt(s, id)
    ensures FreshAt(Edit(s, target, text, allowed, w), id)
  {
    hide FreshAt, PutDraft, ValidText;
    if target in s.drafts {
      var d := s.drafts[target];
      PutFresh(s, target, d.(error := true), w, id);
      PutFresh(s, target, d.(text := text, edit := d.edit + 1, dirty := text != d.record.draft,
                             error := (d.operation.Some? || d.conflict) && d.error), w, id);
    }
  }

  lemma LaunchFresh(s: State, target: Id, op: Operation, sent: Operation, w: bool, id: Id)
    requires FreshAt(s, id) && target in s.drafts
    ensures FreshAt(PerformBegin(PutDraft(s, target, s.drafts[target].(operation := Some(op), error := false), w), target, sent).0, id)
  {
    hide FreshAt, PutDraft;
    var d := s.drafts[target].(operation := Some(op), error := false);
    PutFresh(s, target, d, w, id);
    SameFresh(PutDraft(s, target, d, w), PerformBegin(PutDraft(s, target, d, w), target, sent).0, id);
  }

  lemma GoFresh(s: State, target: Id, lifecycle: Lifecycle, token: Token, allowed: bool, w: bool, id: Id)
    requires FreshAt(s, id)
    ensures FreshAt(SaveGo(s, target, token, allowed, w).0, id)
    ensures FreshAt(SetStateGo(s, target, lifecycle, token, allowed, w).0, id)
    ensures FreshAt(Reconcile(s, target, allowed, w).0, id)
  {
    hide FreshAt, PutDraft, PerformBegin;
    if target in s.drafts {
      var d := s.drafts[target];
      var save := Operation(SaveDraft(token, d.record.revision, d.text), d.edit, false);
      var change := Operation(SetState(token, d.record.revision, lifecycle), d.edit, false);
      LaunchFresh(s, target, save, save, w, id);
      LaunchFresh(s, target, change, change, w, id);
      if d.operation.Some? { LaunchFresh(s, target, d.operation.value.(uncertain := false), d.operation.value, w, id); }
    }
  }

  lemma FinishFresh(s: State, target: Id, op: Operation, acknowledged: Option<nat>, locked: bool, w: bool, id: Id)
    requires FreshAt(s, id)
    ensures FreshAt(Finish(s, target, op, acknowledged, locked, w), id)
  {
    hide FreshAt, PutDraft, Publish;
    var s1 := Unlock(s, target, locked);
    SameFresh(s, s1, id);
    SameFresh(s1, Publish(s1, w), id);
    if target in s1.drafts && acknowledged.Some? {
      var d := s1.drafts[target];
      PutFresh(s1, target, d.(operation := None, conflict := d.conflict || (d.record.revision > acknowledged.value && d.dirty)), w, id);
    }
  }

  /** A confirmed write: the draft and the summary move together. */
  lemma ConfirmedFresh(s: State, target: Id, op: Operation, r: Record, w: bool, id: Id)
    requires FreshAt(s, id) && target in s.drafts && At(s, target) && r.id == target
    ensures
      var s1 := RetainReference(s, r);
      var s2 := PutDraft(s1, target, Acknowledge(s1.drafts[target], op, r), w);
      FreshAt(Publish(Summarized(s2, s2.drafts[target].record), w), id)
  {
    hide PutDraft, Publish, RetainReference, Acknowledge, SavedOk, ReferenceOk, Parsed;
    var s1 := RetainReference(s, r);
    var e := Acknowledge(s1.drafts[target], op, r);
    AcknowledgedRecord(s1.drafts[target], op, r);
    SameFresh(s, s1, id);
    PutFresh(s1, target, e, w, id);
    PutDrafts(s1, target, e, w);
  }

  lemma ReplyFresh(s: State, target: Id, op: Operation, response: Response, allowed: bool, w: bool, id: Id)
    requires FreshAt(s, id) && Owns(s, target, op) && At(s, target)
    ensures FreshAt(PerformReply(s, target, op, response, allowed, w).0, id)
  {
    hide FreshAt, At, PutDraft, Publish, Unlock, Acknowledge, RetainReference, Summarized, Finish, Acknowledges, Admissible, Consistent;
    var d := s.drafts[target];
    if Confirms(s, target, op, response) {
      var r := response.record;
      AdmissibleId(s, r, target);
      ConfirmedFresh(s, target, op, r, w, id);
      var s1 := PutDraft(s, target, d.(readError := true), w);
      PutFresh(s, target, d.(readError := true), w, id);
      FinishFresh(s1, target, op, Some(r.revision), true, w, id);
    } else {
      var s1 := Unlock(s, target, true);
      SameFresh(s, s1, id);
      PutFresh(s1, target, d.(operation := None, conflict := true, error := true), w, id);
      PutFresh(s1, target, d.(operation := None, error := true), w, id);
      var e := d.(operation := Some(op.(uncertain := true)), error := true);
      PutFresh(s, target, e, w, id);
      SameFresh(PutDraft(s, target, e, w), Unlock(PutDraft(s, target, e, w), target, true), id);
    }
  }

  lemma CreateReplyFresh(s: State, t: Task, response: Response, allowed: bool, w: bool, id: Id)
    requires FreshAt(s, id) && t.Creating? && (response.Body? ==> At(s, response.record.id))
    ensures FreshAt(CreateReply(s, t, response, allowed, w).0, id)
  {
    hide FreshAt, At, KeptAt, Publish, Merge, RetainReference, Created, CreateFailed, AcknowledgesCreate, Covers, Parsed, SameContents;
    CreateFailedFresh(s, t.pending, response.Rejected? || response.Conflicted?, w, id);
    CreateFailedFresh(s, t.pending, false, w, id);
    if response.Body? && Admissible(s, response.record, None) && Consistent(s, response.record) {
      var r := response.record;
      var s0 := RetainReference(s, r);
      SameFresh(s, s0, id);
      RetainAt(s, r, r.id);
      MergeFresh(s0, r, w, id);
      var s1 := if r.id in s.restored then s0 else Merge(s0, r, w).0;
      CreateFailedFresh(s1, t.pending, false, w, id);
      if r.id in s.restored || Merge(s0, r, w).1 {
        CreatedFresh(s1, r, t.pending.uncertain || r.id in s.restored, s1.selectionRevision == t.selectionRevision, w, id);
      }
    }
  }

  lemma CreateFailedFresh(s: State, p: PendingCreate, rejected: bool, w: bool, id: Id)
    requires FreshAt(s, id)
    ensures FreshAt(CreateFailed(s, p, rejected, w), id)
  {
    hide Publish;
  }

  lemma CreatedFresh(s: State, r: Record, again: bool, select: bool, w: bool, id: Id)
    requires FreshAt(s, id) && (again || Covers(s, r))
    ensures FreshAt(Created(s, r, again, select, w), id)
  {
    hide Publish;
    if !again { ConfirmFresh(s, r, id); }
  }

  lemma ListFresh(s: State, t: Task, items: ListResponse, allowed: bool, w: bool, id: Id)
    requires FreshAt(s, id) && t.Listing?
    ensures FreshAt(ListReply(s, t, items, allowed, w), id)
  {
    hide FreshAt, Publish, WithList, AdmissibleList;
    SameFresh(s, Publish(s, w), id);
    if items.Listed? && AdmissibleList(s, items.items) {
      var u := WithList(s, items.items);
      WithListFresh(s, items.items, id);
      SameFresh(u, Publish(u, w), id);
    }
  }

  lemma WithListFresh(s: State, items: map<Id, Summary>, id: Id)
    requires FreshAt(s, id) && AdmissibleList(s, items)
    ensures FreshAt(WithList(s, items), id)
  {
    var t := WithList(s, items);
    assert id in t.asides <==> id in s.asides || id in items;
  }

  lemma CallFresh(s: State, m: Move, id: Id)
    requires FreshAt(s, id)
    ensures FreshAt(Call(s, m).0, id)
  {
    hide FreshAt, Publish, Edit, SaveGo, SetStateGo, Reconcile, Create, RetryCreate, OpenAside, Refresh;
    match m.event
    case Edits(target, text) => EditFresh(s, target, text, m.allowed, m.w, id);
    case Saves(target, token) => GoFresh(s, target, Lifecycle.Open, token, m.allowed, m.w, id);
    case Sets(target, lifecycle, token) => GoFresh(s, target, lifecycle, token, m.allowed, m.w, id);
    case Reconciles(target) => GoFresh(s, target, Lifecycle.Open, 0, m.allowed, m.w, id);
    case Creates(target, text, token, canCreate) =>
      CreateSame(s, target, text, token, m.allowed, canCreate, m.w);
      SameFresh(s, Call(s, m).0, id);
    case RetriesCreate => RetrySame(s, m.allowed, m.w); SameFresh(s, Call(s, m).0, id);
    case Opens(target, refresh) => OpenSame(s, target, refresh, m.allowed, m.w); SameFresh(s, Call(s, m).0, id);
    case Refreshes(revalidate) => OpenSame(s, 0, revalidate, m.allowed, m.w); SameFresh(s, Call(s, m).0, id);
    case _ => SameFresh(s, Call(s, m).0, id);
  }

  ghost predicate SameShown(s: State, t: State) {
    s.drafts == t.drafts && s.asides == t.asides && s.stale == t.stale
  }

  lemma RetrySame(s: State, allowed: bool, w: bool)
    ensures SameShown(s, RetryCreate(s, allowed, w).0)
  {
    hide Publish;
  }

  lemma CreateSame(s: State, target: Target, text: string, token: Token, allowed: bool, canCreate: bool, w: bool)
    ensures SameShown(s, Create(s, target, text, token, allowed, canCreate, w).0)
  {
    hide Publish, RetryCreate, ValidText;
    var t := Publish(s.(createRejected := false, pendingCreate := Some(PendingCreate(token, target, text, false, false))), w);
    RetrySame(t, allowed, w);
  }

  lemma OpenSame(s: State, id: Id, again: bool, allowed: bool, w: bool)
    ensures SameShown(s, OpenAside(s, id, again, allowed, w).0)
    ensures SameShown(s, Refresh(s, again, allowed, w).0)
  {
    hide Publish;
  }

  lemma WakeFresh(s: State, t: Task, m: Move, id: Id)
    requires WF(s) && FreshAt(s, id) && TaskOk(s, t) && Wake(s, t, m).Some?
    ensures FreshAt(Wake(s, t, m).value.0, id)
  {
    hide FreshAt, At, WF, Publish, ReadFinish, PerformReply, CreateReply, ReferenceReply, ListReply, Resume, Owns;
    match m.event
    case Answers(_, response) =>
      if response.Body? { WellFormedAt(s, response.record.id); }
      match t {
        case Reading(_, _, _, _, _) => WellFormedAt(s, t.id); ReadFresh(s, t, response, m.allowed, m.w, id);
        case Performing(target, op) => WellFormedAt(s, target); ReplyFresh(s, target, op, response, m.allowed, m.w, id);
        case Creating(_, _) => CreateReplyFresh(s, t, response, m.allowed, m.w, id);
        case Referencing(_, _) => ReferenceFresh(s, t, response, m.allowed, m.w, id);
        case _ =>
      }
    case Lists(_, items) => ListFresh(s, t, items, m.allowed, m.w, id);
    case Continues(_, token) => ResumeFresh(s, t, token, m.allowed, m.w, id);
    case _ =>
  }

  lemma ReferenceFresh(s: State, t: Task, response: Response, allowed: bool, w: bool, id: Id)
    requires FreshAt(s, id) && t.Referencing? && (response.Body? ==> At(s, response.record.id))
    ensures FreshAt(ReferenceReply(s, t, response, allowed, w), id)
  {
    hide FreshAt, At, Merge, ConfirmRead, Admissible, Covers;
    if response.Body? {
      var (m, ok) := Merge(s, response.record, w);
      MergeFresh(s, response.record, w, id);
      if ok { ConfirmFresh(m, response.record, id); }
    }
  }

  lemma ResumeFresh(s: State, t: Task, token: Token, allowed: bool, w: bool, id: Id)
    requires FreshAt(s, id) && t.Resuming?
    ensures FreshAt(Resume(s, t.ok, t.after, token, allowed, w).0, id)
  {
    hide FreshAt, SaveGo, SetStateGo, Finish;
    match t.after
    case Nothing =>
    case ThenSave(target, _) => GoFresh(s, target, Lifecycle.Open, token, allowed, w, id);
    case ThenSetState(target, lifecycle) => GoFresh(s, target, lifecycle, token, allowed, w, id);
    case ThenFinish(target, op, acknowledged, locked) => FinishFresh(s, target, op, acknowledged, locked, w, id);
  }

  /** After any move: what is listed and not stale is held at its listed revision or a newer one. */
  lemma StepFresh(y: System, m: Move, id: Id)
    requires Inv(y) && FreshAt(y.s, id)
    ensures FreshAt(Step(y, m).s, id)
  {
    hide At, Wake, Call, WF, LocksOk;
    if m.event.Crashes? {
    } else if Woken(m.event).Some? {
      var k := Woken(m.event).value;
      if k in y.tasks && Wake(y.s, y.tasks[k], m).Some? {
        assert TaskOk(y.s, y.tasks[k]) by { TaskIsOk(y, k); }
        WakeFresh(y.s, y.tasks[k], m, id);
      }
    } else {
      CallFresh(y.s, m, id);
    }
  }

  lemma TaskIsOk(y: System, k: nat)
    requires Inv(y) && k in y.tasks
    ensures TaskOk(y.s, y.tasks[k])
  {
  }

  lemma {:induction false} RunFresh(y: System, moves: seq<Move>, id: Id)
    requires Inv(y) && FreshAt(y.s, id)
    ensures FreshAt(Run(y, moves).s, id)
    decreases |moves|
  {
    hide Inv, Step, FreshAt;
    if moves != [] {
      StepInv(y, moves[0]);
      StepFresh(y, moves[0], id);
      RunFresh(Step(y, moves[0]), moves[1..], id);
    }
  }

  /** A save or a change of state that goes out without a read first rests on the newest revision that any
      list or answer had shown. */
  lemma DirectSendsAreFresh(y: System, m: Move)
    requires Inv(y) && (m.event.Saves? || m.event.Sets?) && Sends(y, m).Some?
    requires FreshAt(y.s, Sends(y, m).value.0)
    ensures
      var (id, p) := Sends(y, m).value;
      id in y.s.asides ==> p.expectedRevision >= y.s.asides[id]
  {
    hide Inv, SaveGo, SetStateGo;
    StepSends(y, m);
    NextIsNew(y);
    SentNotStale(y, m);
  }

  /** And one that goes out after a read does too, unless a list or a replayed creation marked the aside since
      that read ended: that is the only way for a new operation to rest on a superseded revision. */
  lemma SendsAreFresh(y: System, m: Move)
    requires Inv(y) && !m.event.Reconciles? && Sends(y, m).Some?
    requires FreshAt(y.s, Sends(y, m).value.0)
    ensures
      var (id, p) := Sends(y, m).value;
      id in y.s.asides && p.expectedRevision < y.s.asides[id] ==> m.event.Continues? && id in y.s.stale
  {
    hide Inv, SaveGo, SetStateGo, Step;
    StepSends(y, m);
    if m.event.Saves? || m.event.Sets? { DirectSendsAreFresh(y, m); }
  }

  lemma NextIsNew(y: System)
    requires Inv(y)
    ensures y.next !in y.tasks
  {
  }

  lemma SentNotStale(y: System, m: Move)
    requires (m.event.Saves? || m.event.Sets?) && Sends(y, m).Some? && y.next !in y.tasks
    ensures Sends(y, m).value.0 == m.event.id && m.event.id !in y.s.stale
  {
    hide PutDraft;
  }
}
