/**
 Where the owner's records and operations come from: every record it holds was sent by the server,
 and every operation it holds, in memory or in storage, is one that it once launched itself.
 */
module AsideProvenance {
  import opened Wrappers
  import opened AsideProtocol
  import opened AsideInvariants
  import opened AsideRuns

  ghost predicate OpIn(op: Option<Operation>, ops: iset<Payload>) {
    op.Some? ==> op.value.payload in ops
  }

  /** Everything held about one aside comes from `records` and `ops`. */
  ghost predicate From(s: State, id: Id, records: set<Record>, ops: iset<Payload>) {
    && (id in s.drafts ==> s.drafts[id].record in records && OpIn(s.drafts[id].operation, ops))
    && (id in s.references ==> s.references[id] in records)
    && (id in s.restored ==> OpIn(s.restored[id].operation, ops))
    && (s.disk.Some? && id in s.disk.value.drafts ==> OpIn(s.disk.value.drafts[id].operation, ops))
  }

  ghost predicate GoodDraft(d: Draft, records: set<Record>, ops: iset<Payload>) {
    d.record in records && OpIn(d.operation, ops)
  }

  lemma FromMore(s: State, id: Id, records: set<Record>, ops: iset<Payload>, records': set<Record>, ops': iset<Payload>)
    requires From(s, id, records, ops) && records <= records' && ops <= ops'
    ensures From(s, id, records', ops')
  {
  }

  lemma SameFrom(s: State, t: State, id: Id, records: set<Record>, ops: iset<Payload>)
    requires From(s, id, records, ops)
    requires s.drafts == t.drafts && s.references == t.references && s.restored == t.restored && s.disk == t.disk
    ensures From(t, id, records, ops)
  {
  }

  lemma PublishFrom(s: State, w: bool, id: Id, records: set<Record>, ops: iset<Payload>)
    requires From(s, id, records, ops)
    ensures From(Publish(s, w), id, records, ops)
  {
  }

  lemma PutFrom(s: State, target: Id, d: Draft, w: bool, id: Id, records: set<Record>, ops: iset<Payload>)
    requires From(s, id, records, ops) && (id == target ==> GoodDraft(d, records, ops))
    ensures From(PutDraft(s, target, d, w), id, records, ops)
  {
    hide Publish, OpIn;
    PublishFrom(s.(drafts := s.drafts[target := d]), w, id, records, ops);
  }

  lemma InstallFrom(s: State, d: Draft, w: bool, id: Id, records: set<Record>, ops: iset<Payload>)
    requires From(s, id, records, ops) && (id == d.record.id ==> GoodDraft(d, records, ops))
    ensures From(Install(s, d, w), id, records, ops)
  {
    hide Publish, OpIn, Summarized;
    var t := Summarized(s.(drafts := s.drafts[d.record.id := d], restored := s.restored - {d.record.id}), d.record);
    PublishFrom(t, w, id, records, ops);
  }

  lemma RetainFrom(s: State, r: Record, id: Id, records: set<Record>, ops: iset<Payload>)
    requires From(s, id, records, ops) && (id == r.id ==> r in records)
    ensures From(RetainReference(s, r), id, records, ops)
  {
    hide OpIn;
  }

  lemma MergeFrom(s: State, r: Record, w: bool, id: Id, records: set<Record>, ops: iset<Payload>)
    requires From(s, id, records, ops) && (id == r.id ==> r in records)
    ensures From(Merge(s, r, w).0, id, records, ops)
  {
    hide PutDraft, Install, Rejoin, Advance, FreshDraft, RetainReference, SameContents, Consistent;
    if Consistent(s, r) {
      var s1 := RetainReference(s, r);
      RetainFrom(s, r, id, records, ops);
      if r.id in s1.restored { InstallFrom(s1, Rejoin(s1.restored[r.id], r), w, id, records, ops); }
      InstallFrom(s1, FreshDraft(r, 0), w, id, records, ops);
      if r.id in s1.drafts {
        InstallFrom(s1, Advance(s1.drafts[r.id], r), w, id, records, ops);
        PutFrom(s1, r.id, s1.drafts[r.id].(readError := false), w, id, records, ops);
      }
    }
  }

  lemma ReadFailedFrom(s: State, target: Id, w: bool, id: Id, records: set<Record>, ops: iset<Payload>)
    requires From(s, id, records, ops)
    ensures From(ReadFailed(s, target, w), id, records, ops)
  {
    hide PutDraft, Publish;
    PublishFrom(s, w, id, records, ops);
    if target in s.drafts { PutFrom(s, target, s.drafts[target].(readError := true), w, id, records, ops); }
  }

  ghost predicate Sent(response: Response, id: Id, records: set<Record>) {
    response.Body? && response.record.id == id ==> response.record in records
  }

  lemma ReadFrom(s: State, t: Task, response: Response, allowed: bool, w: bool, id: Id, records: set<Record>, ops: iset<Payload>)
    requires From(s, id, records, ops) && t.Reading? && Sent(response, id, records)
    ensures From(ReadFinish(s, t, response, allowed, w).0, id, records, ops)
  {
    hide From, Install, Merge, FreshDraft, RetainReference, ConfirmRead, ReadFailed, Publish, MayDiscard, Admissible, Consistent;
    ReadFailedFrom(s, t.id, w, id, records, ops);
    if response.Body? {
      var r := response.record;
      var m := Merge(s, r, w).0;
      MergeFrom(s, r, w, id, records, ops);
      ReadFailedFrom(m, t.id, w, id, records, ops);
      PublishFrom(m, w, id, records, ops);
      SameFrom(Publish(m, w), ConfirmRead(Publish(m, w), r), id, records, ops);
      RetainFrom(s, r, id, records, ops);
      var d := FreshDraft(r, (if t.edit.Some? then t.edit.value else 0) + 1);
      var i := Install(RetainReference(s, r), d, w);
      InstallFrom(RetainReference(s, r), d, w, id, records, ops);
      SameFrom(i, ConfirmRead(i, r), id, records, ops);
    }
  }

  lemma EditFrom(s: State, target: Id, text: string, allowed: bool, w: bool, id: Id, records: set<Record>, ops: iset<Payload>)
    requires From(s, id, records, ops)
    ensures From(Edit(s, target, text, allowed, w), id, records, ops)
  {
    hide PutDraft, ValidText, OpIn;
    if target in s.drafts {
      var d := s.drafts[target];
      PutFrom(s, target, d.(error := true), w, id, records, ops);
      PutFrom(s, target, d.(text := text, edit := d.edit + 1, dirty := text != d.record.draft,
                            error := (d.operation.Some? || d.conflict) && d.error), w, id, records, ops);
    }
  }

  /** The payload that a call sends, if it sends one. */
  ghost function Launched(t: Option<Task>): Option<(Id, Payload)> {
    if t.Some? && t.value.Performing? then Some((t.value.id, t.value.op.payload)) else None
  }

  ghost predicate Accounted(t: Option<Task>, id: Id, ops: iset<Payload>) {
    Launched(t).Some? && Launched(t).value.0 == id ==> Launched(t).value.1 in ops
  }

  lemma LaunchFrom(s: State, target: Id, op: Operation, sent: Operation, w: bool, id: Id, records: set<Record>, ops: iset<Payload>)
    requires From(s, id, records, ops) && target in s.drafts && (id == target ==> op.payload in ops)
    ensures From(PerformBegin(PutDraft(s, target, s.drafts[target].(operation := Some(op), error := false), w), target, sent).0, id, records, ops)
  {
    hide PutDraft;
    var d := s.drafts[target].(operation := Some(op), error := false);
    PutFrom(s, target, d, w, id, records, ops);
    SameFrom(PutDraft(s, target, d, w), PerformBegin(PutDraft(s, target, d, w), target, sent).0, id, records, ops);
  }

  lemma SaveGoFrom(s: State, target: Id, token: Token, allowed: bool, w: bool, id: Id, records: set<Record>, ops: iset<Payload>)
    requires From(s, id, records, ops) && Accounted(SaveGo(s, target, token, allowed, w).1, id, ops)
    ensures From(SaveGo(s, target, token, allowed, w).0, id, records, ops)
  {
    hide From, Publish;
    if MaySave(s, target, allowed) {
      var d := s.drafts[target];
      var op := Operation(SaveDraft(token, d.record.revision, d.text), d.edit, false);
      LaunchFrom(s, target, op, op, w, id, records, ops);
    }
  }

  lemma SetStateGoFrom(s: State, target: Id, lifecycle: Lifecycle, token: Token, allowed: bool, w: bool, id: Id, records: set<Record>, ops: iset<Payload>)
    requires From(s, id, records, ops) && Accounted(SetStateGo(s, target, lifecycle, token, allowed, w).1, id, ops)
    ensures From(SetStateGo(s, target, lifecycle, token, allowed, w).0, id, records, ops)
  {
    hide From, Publish;
    if MaySetState(s, target, lifecycle, allowed) {
      var d := s.drafts[target];
      var op := Operation(SetState(token, d.record.revision, lifecycle), d.edit, false);
      LaunchFrom(s, target, op, op, w, id, records, ops);
    }
  }

  lemma ReconcileFrom(s: State, target: Id, allowed: bool, w: bool, id: Id, records: set<Record>, ops: iset<Payload>)
    requires From(s, id, records, ops)
    ensures From(Reconcile(s, target, allowed, w).0, id, records, ops)
  {
    hide Publish;
    if target in s.drafts && s.drafts[target].operation.Some? {
      var op := s.drafts[target].operation.value;
      LaunchFrom(s, target, op.(uncertain := false), op, w, id, records, ops);
    }
  }

  lemma FinishFrom(s: State, target: Id, op: Operation, acknowledged: Option<nat>, locked: bool, w: bool, id: Id, records: set<Record>, ops: iset<Payload>)
    requires From(s, id, records, ops)
    ensures From(Finish(s, target, op, acknowledged, locked, w), id, records, ops)
  {
    hide PutDraft, Publish;
    var s1 := Unlock(s, target, locked);
    SameFrom(s, s1, id, records, ops);
    PublishFrom(s1, w, id, records, ops);
    if target in s1.drafts && acknowledged.Some? {
      var d := s1.drafts[target];
      PutFrom(s1, target, d.(operation := None, conflict := d.conflict || (d.record.revision > acknowledged.value && d.dirty)), w, id, records, ops);
    }
  }

  lemma ConfirmedFrom(s: State, target: Id, op: Operation, r: Record, w: bool, id: Id, records: set<Record>, ops: iset<Payload>)
    requires From(s, id, records, ops) && target in s.drafts && r.id == target && (id == target ==> r in records)
    ensures
      var s1 := RetainReference(s, r);
      var s2 := PutDraft(s1, target, Acknowledge(s1.drafts[target], op, r), w);
      From(Publish(Summarized(s2, s2.drafts[target].record), w), id, records, ops)
  {
    hide PutDraft, Publish, Summarized, RetainReference, Acknowledge;
    var s1 := RetainReference(s, r);
    RetainFrom(s, r, id, records, ops);
    var e := Acknowledge(s1.drafts[target], op, r);
    AcknowledgedRecord(s1.drafts[target], op, r);
    PutFrom(s1, target, e, w, id, records, ops);
    PutDrafts(s1, target, e, w);
    var s2 := PutDraft(s1, target, e, w);
    SameFrom(s2, Summarized(s2, e.record), id, records, ops);
    PublishFrom(Summarized(s2, e.record), w, id, records, ops);
  }

  lemma ReplyFrom(s: State, target: Id, op: Operation, response: Response, allowed: bool, w: bool, id: Id, records: set<Record>, ops: iset<Payload>)
    requires From(s, id, records, ops) && Owns(s, target, op) && Sent(response, id, records)
    ensures From(PerformReply(s, target, op, response, allowed, w).0, id, records, ops)
    ensures PerformReply(s, target, op, response, allowed, w).1.Some? ==> !PerformReply(s, target, op, response, allowed, w).1.value.Performing?
  {
    hide PutDraft, Publish, Unlock, Acknowledge, RetainReference, Summarized, Finish, Acknowledges, Admissible, Consistent;
    var d := s.drafts[target];
    if Confirms(s, target, op, response) {
      var r := response.record;
      assert r.id == target by { AdmissibleId(s, r, target); }
      ConfirmedFrom(s, target, op, r, w, id, records, ops);
      var s1 := PutDraft(s, target, d.(readError := true), w);
      PutFrom(s, target, d.(readError := true), w, id, records, ops);
      FinishFrom(s1, target, op, Some(r.revision), true, w, id, records, ops);
    } else {
      var s1 := Unlock(s, target, true);
      SameFrom(s, s1, id, records, ops);
      PutFrom(s1, target, d.(operation := None, conflict := true, error := true), w, id, records, ops);
      PutFrom(s1, target, d.(operation := None, error := true), w, id, records, ops);
      var e := d.(operation := Some(op.(uncertain := true)), error := true);
      PutFrom(s, target, e, w, id, records, ops);
      SameFrom(PutDraft(s, target, e, w), Unlock(PutDraft(s, target, e, w), target, true), id, records, ops);
    }
  }

  lemma AdmissibleId(s: State, r: Record, id: Id)
    requires Admissible(s, r, Some(id))
    ensures r.id == id
  {
  }

  lemma CreateReplyFrom(s: State, t: Task, response: Response, allowed: bool, w: bool, id: Id, records: set<Record>, ops: iset<Payload>)
    requires From(s, id, records, ops) && t.Creating? && Sent(response, id, records)
    ensures From(CreateReply(s, t, response, allowed, w).0, id, records, ops)
  {
    hide From, Publish, Merge, Admissible, Consistent, RetainReference, AcknowledgesCreate, Created, CreateFailed;
    CreateFailedFrom(s, t.pending, response.Rejected? || response.Conflicted?, w, id, records, ops);
    CreateFailedFrom(s, t.pending, false, w, id, records, ops);
    if response.Body? {
      var r := response.record;
      RetainFrom(s, r, id, records, ops);
      MergeFrom(RetainReference(s, r), r, w, id, records, ops);
      var s1 := if r.id in s.restored then RetainReference(s, r) else Merge(RetainReference(s, r), r, w).0;
      CreateFailedFrom(s1, t.pending, false, w, id, records, ops);
      CreatedFrom(s1, r, t.pending.uncertain || r.id in s.restored, s1.selectionRevision == t.selectionRevision, w, id, records, ops);
    }
  }

  lemma CreateFailedFrom(s: State, p: PendingCreate, rejected: bool, w: bool, id: Id, records: set<Record>, ops: iset<Payload>)
    requires From(s, id, records, ops)
    ensures From(CreateFailed(s, p, rejected, w), id, records, ops)
  {
    hide Publish;
    var t := s.(createRejected := rejected, creating := false, pendingCreate := Some(p.(uncertain := !rejected, error := true)));
    SameFrom(s, t, id, records, ops);
    PublishFrom(t, w, id, records, ops);
  }

  lemma CreatedFrom(s: State, r: Record, again: bool, select: bool, w: bool, id: Id, records: set<Record>, ops: iset<Payload>)
    requires From(s, id, records, ops)
    ensures From(Created(s, r, again, select, w), id, records, ops)
  {
    hide Publish, ConfirmRead, Summarized, From;
    var s1 := if again then s.(stale := s.stale + {r.id}) else ConfirmRead(s, r);
    var s2 := if select then s1.(selected := Some(r.id)) else s1;
    var t := Summarized(s2, r).(pendingCreate := None, creating := false);
    SameFrom(s, t, id, records, ops);
    PublishFrom(t, w, id, records, ops);
  }

  /** The calls that only publish. */
  lemma PublishedFrom(s: State, m: Move, id: Id, records: set<Record>, ops: iset<Payload>)
    requires From(s, id, records, ops)
    requires m.event.Opens? || m.event.Refreshes? || m.event.RetriesCreate? || m.event.Creates? || m.event.LosesAccess?
    ensures From(Call(s, m).0, id, records, ops)
  {
    hide Publish, OpIn, ValidText;
    match m.event
    case Opens(target, _) => PublishFrom(s.(selectionRevision := s.selectionRevision + 1, selected := Some(target)), m.w, id, records, ops);
    case Refreshes(_) => PublishFrom(s.(reading := s.reading + 1), m.w, id, records, ops);
    case RetriesCreate => RetryFrom(s, m.allowed, m.w, id, records, ops);
    case Creates(target, text, token, _) =>
      PublishFrom(s, m.w, id, records, ops);
      var t := s.(createRejected := false, pendingCreate := Some(PendingCreate(token, target, text, false, false)));
      PublishFrom(t, m.w, id, records, ops);
      RetryFrom(Publish(t, m.w), m.allowed, m.w, id, records, ops);
    case _ =>
  }

  lemma RetryFrom(s: State, allowed: bool, w: bool, id: Id, records: set<Record>, ops: iset<Payload>)
    requires From(s, id, records, ops)
    ensures From(RetryCreate(s, allowed, w).0, id, records, ops)
  {
    hide Publish, OpIn;
    if s.pendingCreate.Some? {
      PublishFrom(s.(createRejected := false, creating := true,
                     pendingCreate := Some(s.pendingCreate.value.(uncertain := false, error := false))), w, id, records, ops);
    }
  }

  lemma CallFrom(s: State, m: Move, id: Id, records: set<Record>, ops: iset<Payload>)
    requires From(s, id, records, ops) && Accounted(Call(s, m).1, id, ops)
    ensures From(Call(s, m).0, id, records, ops)
  {
    hide From, Edit, SaveGo, SetStateGo, Reconcile, Create, RetryCreate, OpenAside, Refresh;
    match m.event
    case Edits(target, text) => EditFrom(s, target, text, m.allowed, m.w, id, records, ops);
    case Saves(target, token) => if target !in s.stale { SaveGoFrom(s, target, token, m.allowed, m.w, id, records, ops); }
    case Sets(target, lifecycle, token) => if target !in s.stale { SetStateGoFrom(s, target, lifecycle, token, m.allowed, m.w, id, records, ops); }
    case Reconciles(target) => ReconcileFrom(s, target, m.allowed, m.w, id, records, ops);
    case Opens(_, _) => PublishedFrom(s, m, id, records, ops);
    case Refreshes(_) => PublishedFrom(s, m, id, records, ops);
    case Creates(_, _, _, _) => PublishedFrom(s, m, id, records, ops);
    case RetriesCreate => PublishedFrom(s, m, id, records, ops);
    case LosesAccess => PublishedFrom(s, m, id, records, ops);
    case _ =>
  }

  lemma WakeFrom(s: State, t: Task, m: Move, id: Id, records: set<Record>, ops: iset<Payload>)
    requires From(s, id, records, ops) && TaskOk(s, t) && Wake(s, t, m).Some? && Accounted(Wake(s, t, m).value.1, id, ops)
    requires m.event.Answers? ==> Sent(m.event.response, id, records)
    ensures From(Wake(s, t, m).value.0, id, records, ops)
  {
    hide From, Publish, ReadFinish, PerformReply, CreateReply, Merge, ConfirmRead, ListReply, Resume, Owns;
    match m.event
    case Answers(_, response) =>
      match t {
        case Reading(_, _, _, _, _) => ReadFrom(s, t, response, m.allowed, m.w, id, records, ops);
        case Performing(target, op) => ReplyFrom(s, target, op, response, m.allowed, m.w, id, records, ops);
        case Creating(_, _) => CreateReplyFrom(s, t, response, m.allowed, m.w, id, records, ops);
        case Referencing(_, _) => ReferenceFrom(s, t, response, m.allowed, m.w, id, records, ops);
        case _ =>
      }
    case Lists(_, items) => ListFrom(s, t, items, m.allowed, m.w, id, records, ops);
    case Continues(_, token) => ResumeFrom(s, t, token, m.allowed, m.w, id, records, ops);
    case _ =>
  }

  lemma ReferenceFrom(s: State, t: Task, response: Response, allowed: bool, w: bool, id: Id, records: set<Record>, ops: iset<Payload>)
    requires From(s, id, records, ops) && t.Referencing? && Sent(response, id, records)
    ensures From(ReferenceReply(s, t, response, allowed, w), id, records, ops)
  {
    hide From, Merge, ConfirmRead, Admissible;
    if response.Body? {
      var m := Merge(s, response.record, w).0;
      MergeFrom(s, response.record, w, id, records, ops);
      SameFrom(m, ConfirmRead(m, response.record), id, records, ops);
    }
  }

  lemma ListFrom(s: State, t: Task, items: ListResponse, allowed: bool, w: bool, id: Id, records: set<Record>, ops: iset<Payload>)
    requires From(s, id, records, ops) && t.Listing?
    ensures From(ListReply(s, t, items, allowed, w), id, records, ops)
  {
    hide From, Publish, WithList, AdmissibleList;
    PublishFrom(s, w, id, records, ops);
    if items.Listed? {
      SameFrom(s, WithList(s, items.items), id, records, ops);
      PublishFrom(WithList(s, items.items), w, id, records, ops);
    }
  }

  lemma ResumeFrom(s: State, t: Task, token: Token, allowed: bool, w: bool, id: Id, records: set<Record>, ops: iset<Payload>)
    requires From(s, id, records, ops) && t.Resuming? && Accounted(Resume(s, t.ok, t.after, token, allowed, w).1, id, ops)
    ensures From(Resume(s, t.ok, t.after, token, allowed, w).0, id, records, ops)
  {
    hide From, SaveGo, SetStateGo, Finish;
    match t.after
    case Nothing =>
    case ThenSave(target, edit) => if t.ok && EditOf(s, target) == edit { SaveGoFrom(s, target, token, allowed, w, id, records, ops); }
    case ThenSetState(target, lifecycle) => if t.ok { SetStateGoFrom(s, target, lifecycle, token, allowed, w, id, records, ops); }
    case ThenFinish(target, op, acknowledged, locked) => FinishFrom(s, target, op, acknowledged, locked, w, id, records, ops);
  }

  lemma RestoreFrom(s: State, id: Id, records: set<Record>, ops: iset<Payload>)
    requires From(s, id, records, ops)
    ensures From(Restore(s.disk), id, records, ops)
  {
  }

  /** The operation that a move sends, if it sends one. */
  ghost function Sends(y: System, m: Move): Option<(Id, Payload)> {
    var k := y.next;
    if k in Step(y, m).tasks then Launched(Some(Step(y, m).tasks[k])) else None
  }

  /** One move brings in only records of its answer and the operation it sends. */
  lemma StepFrom(y: System, m: Move, id: Id, records: set<Record>, ops: iset<Payload>)
    requires Inv(y) && From(y.s, id, records, ops)
    requires m.event.Answers? && m.event.k in y.tasks ==> Sent(m.event.response, id, records)
    requires Sends(y, m).Some? && Sends(y, m).value.0 == id ==> Sends(y, m).value.1 in ops
    ensures From(Step(y, m).s, id, records, ops)
  {
    hide From, Wake, Call, WF, TaskOk;
    if m.event.Crashes? {
      RestoreFrom(y.s, id, records, ops);
    } else if Woken(m.event).Some? {
      var k := Woken(m.event).value;
      if k in y.tasks && Wake(y.s, y.tasks[k], m).Some? { WakeFrom(y.s, y.tasks[k], m, id, records, ops); }
    } else {
      CallFrom(y.s, m, id, records, ops);
    }
  }

  // ----- What a move sends

  /** A new operation rests on the record that is shown and asks for something else: the unsaved text, or another
      state. */
  predicate RestsOn(d: Draft, p: Payload) {
    && p.expectedRevision == d.record.revision
    && (match p
        case SaveDraft(_, _, text) => d.dirty && text == d.text
        case SetState(_, _, lifecycle) => lifecycle != d.record.lifecycle)
  }

  /** A move sends the operation that the draft holds, if it reconciles, or a new one that rests on what is shown. */
  ghost predicate SendsWell(y: System, m: Move) {
    Sends(y, m).Some? ==>
      && var (id, p) := Sends(y, m).value;
      && id in y.s.drafts
      && (match m.event
          case Reconciles(_) => y.s.drafts[id].operation.Some? && y.s.drafts[id].operation.value.payload == p
          case Saves(_, token) => p.requestId == token && RestsOn(y.s.drafts[id], p)
          case Sets(_, _, token) => p.requestId == token && RestsOn(y.s.drafts[id], p)
          case Continues(_, token) => p.requestId == token && RestsOn(y.s.drafts[id], p)
          case _ => false)
  }

  ghost predicate LaunchesWell(s: State, t: Option<Task>, token: Token) {
    Launched(t).Some? ==>
      && Launched(t).value.0 in s.drafts
      && Launched(t).value.1.requestId == token
      && RestsOn(s.drafts[Launched(t).value.0], Launched(t).value.1)
  }

  lemma GoSends(s: State, id: Id, lifecycle: Lifecycle, token: Token, allowed: bool, w: bool)
    ensures LaunchesWell(s, SaveGo(s, id, token, allowed, w).1, token)
    ensures LaunchesWell(s, SetStateGo(s, id, lifecycle, token, allowed, w).1, token)
    ensures Launched(Reconcile(s, id, allowed, w).1).Some? ==>
      && Launched(Reconcile(s, id, allowed, w).1).value.0 == id && id in s.drafts && s.drafts[id].operation.Some?
      && s.drafts[id].operation.value.payload == Launched(Reconcile(s, id, allowed, w).1).value.1
  {
    hide PutDraft;
  }

  lemma QuietReplies(s: State, t: Task, m: Move)
    requires TaskOk(s, t) && Wake(s, t, m).Some? && !m.event.Continues?
    ensures Launched(Wake(s, t, m).value.1).None?
  {
    hide From, Publish, ReadFinish, PerformReply, CreateReply, ReferenceReply, ListReply, Resume, Owns;
    if m.event.Answers? && t.Performing? {
      ReplyShape(s, t.id, t.op, m.event.response, m.allowed, m.w);
    } else if m.event.Answers? && t.Creating? {
      CreateShape(s, t, m.event.response, m.allowed, m.w);
    }
  }

  lemma ReplyShape(s: State, id: Id, op: Operation, response: Response, allowed: bool, w: bool)
    ensures Launched(PerformReply(s, id, op, response, allowed, w).1).None?
  {
    hide PutDraft, Publish, Finish, Summarized, RetainReference, Consistent, Admissible, Acknowledges;
  }

  lemma CreateShape(s: State, t: Task, response: Response, allowed: bool, w: bool)
    requires t.Creating?
    ensures Launched(CreateReply(s, t, response, allowed, w).1).None?
  {
    hide Publish, Merge, Created, CreateFailed, RetainReference, Consistent, Admissible, AcknowledgesCreate;
  }

  lemma CallSends(s: State, m: Move)
    requires Woken(m.event).None? && Launched(Call(s, m).1).Some?
    ensures match m.event
      case Reconciles(_) =>
        var (id, p) := Launched(Call(s, m).1).value;
        id in s.drafts && s.drafts[id].operation.Some? && s.drafts[id].operation.value.payload == p
      case Saves(_, token) => LaunchesWell(s, Call(s, m).1, token)
      case Sets(_, _, token) => LaunchesWell(s, Call(s, m).1, token)
      case _ => false
  {
    hide Publish, Edit, SaveGo, SetStateGo, Reconcile, LaunchesWell;
    match m.event
    case Reconciles(id) => GoSends(s, id, Lifecycle.Open, 0, m.allowed, m.w);
    case Saves(id, token) => GoSends(s, id, Lifecycle.Open, token, m.allowed, m.w);
    case Sets(id, lifecycle, token) => GoSends(s, id, lifecycle, token, m.allowed, m.w);
    case _ =>
  }

  lemma StepSends(y: System, m: Move)
    requires Inv(y)
    ensures SendsWell(y, m)
  {
    hide Wake, Call, WF, TaskOk, LaunchesWell;
    if m.event.Crashes? {
    } else if Woken(m.event).Some? {
      var k := Woken(m.event).value;
      if k in y.tasks && Wake(y.s, y.tasks[k], m).Some? {
        if m.event.Continues? { ContinueSends(y, m); }
        else { QuietReplies(y.s, y.tasks[k], m); }
      }
    } else if Launched(Call(y.s, m).1).Some? {
      CallSends(y.s, m);
      if m.event.Saves? || m.event.Sets? { LaunchedWell(y.s, Call(y.s, m).1, m.event.token); }
    }
  }

  lemma LaunchedWell(s: State, t: Option<Task>, token: Token)
    ensures LaunchesWell(s, t, token) && Launched(t).Some? ==>
      && Launched(t).value.0 in s.drafts && Launched(t).value.1.requestId == token
      && RestsOn(s.drafts[Launched(t).value.0], Launched(t).value.1)
  {
  }

  lemma ContinueSends(y: System, m: Move)
    requires Inv(y) && m.event.Continues? && m.event.k in y.tasks && Wake(y.s, y.tasks[m.event.k], m).Some?
    ensures SendsWell(y, m)
  {
    hide SaveGo, SetStateGo, Finish, WF, TaskOk;
    var t := y.tasks[m.event.k];
    match t.after
    case Nothing =>
    case ThenSave(id, _) => GoSends(y.s, id, Lifecycle.Open, m.event.token, m.allowed, m.w);
    case ThenSetState(id, lifecycle) => GoSends(y.s, id, lifecycle, m.event.token, m.allowed, m.w);
    case ThenFinish(_, _, _, _) =>
  }
}
