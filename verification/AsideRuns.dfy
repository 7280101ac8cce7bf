/**
 Whole runs of the draft owner: any interleaving of calls, answers, lost answers and page crashes.
 Every await is a boundary: a suspended call is a task, and the environment decides which task
 goes on next, with which response. Any read may start at any time, which covers the reads that
 a finished list starts and the reads that share one request.
 */
module AsideRuns {
  import opened Wrappers
  import opened AsideProtocol
  import opened AsideInvariants

  datatype System = System(s: State, tasks: map<nat, Task>, next: nat)

  datatype Event =
    | Edits(id: Id, text: string)
    | Saves(id: Id, token: Token)
    | Sets(id: Id, lifecycle: Lifecycle, token: Token)
    | Reconciles(id: Id)
    | Reloads(id: Id)
    | Opens(id: Id, refresh: bool)
    | Reads(id: Id)
    | References(id: Id)
    | Refreshes(revalidate: bool)
    | Creates(target: Target, text: string, token: Token, canCreate: bool)
    | RetriesCreate
    | LosesAccess
    | Answers(k: nat, response: Response)
    | Lists(k: nat, items: ListResponse)
    | Continues(k: nat, token: Token)
    | Crashes

  datatype Move = Move(event: Event, allowed: bool, w: bool)

  /** A call made by the user interface. */
  function Call(s: State, m: Move): (State, Option<Task>) {
    match m.event
    case Edits(id, text) => (Edit(s, id, text, m.allowed, m.w), None)
    case Saves(id, token) => Save(s, id, token, m.allowed, m.w)
    case Sets(id, lifecycle, token) => SetLifecycle(s, id, lifecycle, token, m.allowed, m.w)
    case Reconciles(id) => Reconcile(s, id, m.allowed, m.w)
    case Reloads(id) => (s, Reload(s, id, m.allowed))
    case Opens(id, refresh) => OpenAside(s, id, refresh, m.allowed, m.w)
    case Reads(id) => (s, Some(ReadBegin(s, id, false, Nothing, m.allowed)))
    case References(id) => (s, if m.allowed then Some(Referencing(id, s.accessGeneration)) else None)
    case Refreshes(revalidate) => Refresh(s, revalidate, m.allowed, m.w)
    case Creates(target, text, token, canCreate) => Create(s, target, text, token, m.allowed, canCreate, m.w)
    case RetriesCreate => RetryCreate(s, m.allowed, m.w)
    case LosesAccess => (RetireAccess(s), None)
    case _ => (s, None)
  }

  /** What a suspended call does with the event it awaits; `None` if it awaits another kind. */
  function Wake(s: State, t: Task, m: Move): Option<(State, Option<Task>)> {
    match m.event
    case Answers(_, response) =>
      (match t
       case Reading(_, _, _, _, after) =>
         var (s1, ok) := ReadFinish(s, t, response, m.allowed, m.w);
         Some((s1, if after.Nothing? then None else Some(Resuming(ok, after))))
       case Performing(id, op) => Some(PerformReply(s, id, op, response, m.allowed, m.w))
       case Creating(_, _) => Some(CreateReply(s, t, response, m.allowed, m.w))
       case Referencing(_, _) => Some((ReferenceReply(s, t, response, m.allowed, m.w), None))
       case _ => None)
    case Lists(_, items) =>
      if t.Listing? then Some((ListReply(s, t, items, m.allowed, m.w), None)) else None
    case Continues(_, token) =>
      if t.Resuming? then Some(Resume(s, t.ok, t.after, token, m.allowed, m.w)) else None
    case _ => None
  }

  function Woken(e: Event): Option<nat> {
    match e
    case Answers(k, _) => Some(k)
    case Lists(k, _) => Some(k)
    case Continues(k, _) => Some(k)
    case _ => None
  }

  function Spawn(s: State, tasks: map<nat, Task>, next: nat, t: Option<Task>): System {
    System(s, if t.Some? then tasks[next := t.value] else tasks, next + 1)
  }

  function Step(y: System, m: Move): System {
    if m.event.Crashes? then System(Restore(y.s.disk), map[], y.next)
    else if Woken(m.event).Some? then
      var k := Woken(m.event).value;
      if k !in y.tasks || Wake(y.s, y.tasks[k], m).None? then y
      else
        var (s, t) := Wake(y.s, y.tasks[k], m).value;
        Spawn(s, y.tasks - {k}, y.next, t)
    else
      var (s, t) := Call(y.s, m);
      Spawn(s, y.tasks, y.next, t)
  }

  function Run(y: System, moves: seq<Move>): System
    decreases |moves|
  {
    if moves == [] then y else Run(Step(y, moves[0]), moves[1..])
  }

  // ----- Locks

  /** The operation whose mutation lock a suspended call holds. */
  function Lock(t: Task): Option<(Id, Operation)> {
    match t
    case Performing(id, op) => Some((id, op))
    case Reading(_, _, _, _, ThenFinish(id, op, _, locked)) => if locked then Some((id, op)) else None
    case Resuming(_, ThenFinish(id, op, _, locked)) => if locked then Some((id, op)) else None
    case _ => None
  }

  function LockId(t: Task): Option<Id> {
    if Lock(t).Some? then Some(Lock(t).value.0) else None
  }

  function AfterOf(t: Task): After {
    match t
    case Reading(_, _, _, _, after) => after
    case Resuming(_, after) => after
    case _ => Nothing
  }

  ghost predicate TaskOk(s: State, t: Task) {
    && (Lock(t).Some? ==> Owns(s, Lock(t).value.0, Lock(t).value.1))
    && (AfterOf(t).ThenFinish? ==> AfterOf(t).acknowledged.Some? == AfterOf(t).locked)
    && (t.Creating? ==>
          && s.creating && s.pendingCreate.Some?
          && s.pendingCreate.value == t.pending.(uncertain := false, error := false))
  }

  /** One mutation lock, one holder, one operation: the one that the draft shows. */
  ghost predicate LocksOk(s: State, tasks: map<nat, Task>) {
    && (forall k :: k in tasks ==> TaskOk(s, tasks[k]))
    && (forall k, l :: k in tasks && l in tasks && k != l && LockId(tasks[k]).Some? ==> LockId(tasks[k]) != LockId(tasks[l]))
    && (forall id :: id in s.mutations ==> exists k :: k in tasks && LockId(tasks[k]) == Some(id))
    && (forall k, l :: k in tasks && l in tasks && tasks[k].Creating? && tasks[l].Creating? ==> k == l)
    && (s.creating ==> exists k :: k in tasks && tasks[k].Creating?)
  }

  ghost predicate Inv(y: System) {
    && WF(y.s)
    && (forall k :: k in y.tasks ==> k < y.next)
    && LocksOk(y.s, y.tasks)
  }

  /** What a stretch of code does to the locks: `held` is the lock of the call that ran. */
  ghost predicate LockTurn(s: State, u: State, held: Option<Id>, t: Option<Task>) {
    if t.Some? && LockId(t.value).Some? then
      var id := LockId(t.value).value;
      && u.mutations == s.mutations + {id}
      && (held.Some? ==> held == Some(id))
      && (id in s.mutations ==> held == Some(id))
      && Owns(u, id, Lock(t.value).value.1)
    else u.mutations == s.mutations - (if held.Some? then {held.value} else {})
  }

  /** What it does to the creation: `answered` says that the call that ran was sending it. */
  ghost predicate CreateTurn(s: State, u: State, answered: bool, t: Option<Task>) {
    && (if t.Some? && t.value.Creating? then !s.creating && !answered && TaskOk(u, t.value)
        else if answered then !u.creating
        else u.creating == s.creating && (s.creating ==> u.pendingCreate == s.pendingCreate))
  }

  /** What a move may do to one aside. */
  ghost function LicenceOf(y: System, m: Move, id: Id): Licence {
    if m.event.Edits? && m.event.id == id then Typed
    else if m.event.Answers? && m.event.k in y.tasks then
      var t := y.tasks[m.event.k];
      if t.Reading? && t.id == id && Discards(y.s, t, m.event.response, m.allowed) then Dropped
      else if t.Performing? && t.id == id && Retires(y.s, id, t.op, m.event.response) then Retired
      else Quiet
    else if m.event.Continues? && m.event.k in y.tasks then
      var t := y.tasks[m.event.k];
      if t.Resuming? && t.after.ThenFinish? && t.after.id == id && t.after.acknowledged.Some? then Retired else Quiet
    else Quiet
  }

  // ----- One stretch of code

  lemma OpenAt(s: State, target: Id, refresh: bool, allowed: bool, w: bool, id: Id)
    requires At(s, id)
    ensures At(OpenAside(s, target, refresh, allowed, w).0, id)
    ensures KeptAt(s, OpenAside(s, target, refresh, allowed, w).0, id, Quiet)
  {
    hide At, KeptAt, Publish;
    SameAt(s, id);
    var t := s.(selectionRevision := s.selectionRevision + 1, selected := Some(target));
    LiveAt(s, s, t, id, Quiet);
    PublishKept(s, t, w, id, Quiet);
  }

  lemma RefreshAt(s: State, revalidate: bool, allowed: bool, w: bool, id: Id)
    requires At(s, id)
    ensures At(Refresh(s, revalidate, allowed, w).0, id)
    ensures KeptAt(s, Refresh(s, revalidate, allowed, w).0, id, Quiet)
  {
    hide At, KeptAt, Publish;
    SameAt(s, id);
    LiveAt(s, s, s.(reading := s.reading + 1), id, Quiet);
    PublishKept(s, s.(reading := s.reading + 1), w, id, Quiet);
  }

  lemma CallAt(s: State, m: Move, id: Id)
    requires At(s, id)
    ensures At(Call(s, m).0, id)
    ensures KeptAt(s, Call(s, m).0, id, if m.event.Edits? && m.event.id == id then Typed else Quiet)
  {
    hide At, KeptAt, Edit, SaveGo, SetStateGo, Reconcile, Create, RetryCreate, OpenAside, Refresh;
    SameAt(s, id);
    var u := Call(s, m).0;
    match m.event
    case Edits(target, text) => EditAt(s, target, text, m.allowed, m.w, id);
    case Saves(target, token) => SaveGoAt(s, target, token, m.allowed, m.w, id);
    case Sets(target, lifecycle, token) => SetStateGoAt(s, target, lifecycle, token, m.allowed, m.w, id);
    case Reconciles(target) => ReconcileAt(s, target, m.allowed, m.w, id);
    case Opens(target, refresh) => OpenAt(s, target, refresh, m.allowed, m.w, id);
    case Refreshes(_) => RefreshAt(s, m.event.revalidate, m.allowed, m.w, id);
    case Creates(target, text, token, canCreate) => CreateAt(s, target, text, token, m.allowed, canCreate, m.w, id);
    case RetriesCreate => RetryCreateAt(s, m.allowed, m.w, id);
    case LosesAccess => LiveAt(s, s, u, id, Quiet);
    case _ =>
  }

  lemma ListReplyAt(s: State, t: Task, items: ListResponse, allowed: bool, w: bool, id: Id)
    requires At(s, id) && t.Listing?
    ensures At(ListReply(s, t, items, allowed, w), id) && KeptAt(s, ListReply(s, t, items, allowed, w), id, Quiet)
  {
    hide At, KeptAt, Publish, AdmissibleList, WithList;
    SameAt(s, id);
    PublishKept(s, s, w, id, Quiet);
    if items.Listed? {
      LiveAt(s, s, WithList(s, items.items), id, Quiet);
      PublishKept(s, WithList(s, items.items), w, id, Quiet);
    }
  }

  lemma ReferenceReplyAt(s: State, t: Task, response: Response, allowed: bool, w: bool, id: Id)
    requires At(s, id) && t.Referencing?
    ensures At(ReferenceReply(s, t, response, allowed, w), id)
    ensures KeptAt(s, ReferenceReply(s, t, response, allowed, w), id, Quiet)
  {
    hide At, KeptAt, Merge;
    SameAt(s, id);
    if response.Body? && Admissible(s, response.record, Some(t.id)) {
      MergeAt(s, response.record, w, id);
      var s1 := Merge(s, response.record, w).0;
      LiveAt(s, s1, ConfirmRead(s1, response.record), id, Quiet);
    }
  }

  lemma ResumeAt(s: State, t: Task, token: Token, allowed: bool, w: bool, id: Id)
    requires At(s, id) && t.Resuming? && TaskOk(s, t)
    ensures At(Resume(s, t.ok, t.after, token, allowed, w).0, id)
    ensures KeptAt(s, Resume(s, t.ok, t.after, token, allowed, w).0, id,
                   if t.after.ThenFinish? && t.after.id == id && t.after.acknowledged.Some? then Retired else Quiet)
  {
    hide At, KeptAt, SaveGo, SetStateGo, Finish;
    SameAt(s, id);
    match t.after
    case Nothing =>
    case ThenSave(target, _) => SaveGoAt(s, target, token, allowed, w, id);
    case ThenSetState(target, lifecycle) => SetStateGoAt(s, target, lifecycle, token, allowed, w, id);
    case ThenFinish(target, op, acknowledged, locked) => FinishAt(s, target, op, acknowledged, locked, w, id);
  }

  lemma WakeAt(y: System, k: nat, m: Move, id: Id)
    requires k in y.tasks && TaskOk(y.s, y.tasks[k]) && At(y.s, id)
    requires Woken(m.event) == Some(k) && Wake(y.s, y.tasks[k], m).Some?
    ensures At(Wake(y.s, y.tasks[k], m).value.0, id)
    ensures KeptAt(y.s, Wake(y.s, y.tasks[k], m).value.0, id, LicenceOf(y, m, id))
  {
    hide At, KeptAt, ReadFinish, PerformReply, CreateReply, ReferenceReply, ListReply, Resume, Owns, Discards, Retires;
    var s, t := y.s, y.tasks[k];
    match m.event
    case Answers(_, response) =>
      match t {
        case Reading(_, _, _, _, _) => ReadFinishAt(s, t, response, m.allowed, m.w, id);
        case Performing(target, op) => PerformReplyAt(s, target, op, response, m.allowed, m.w, id);
        case Creating(_, _) => CreateReplyAt(s, t, response, m.allowed, m.w, id);
        case Referencing(_, _) => ReferenceReplyAt(s, t, response, m.allowed, m.w, id);
        case _ =>
      }
    case Lists(_, items) => ListReplyAt(s, t, items, m.allowed, m.w, id);
    case Continues(_, token) => ResumeAt(s, t, token, m.allowed, m.w, id);
    case _ =>
  }

  /** The safety of one move, for every aside: text that is dirty, in conflict or being saved
      changes only by an edit or an explicit reload; a conflict ends only by an explicit reload;
      records and references never fall back; an operation keeps its payload and request identity
      until it is acknowledged or definitely rejected. */
  lemma StepKeeps(y: System, m: Move, id: Id)
    requires Inv(y) && !m.event.Crashes?
    ensures At(Step(y, m).s, id)
    ensures KeptAt(y.s, Step(y, m).s, id, LicenceOf(y, m, id))
  {
    hide KeptAt, Wake, Call, WF, At;
    assert At(y.s, id) by { WellFormedAt(y.s, id); }
    if Woken(m.event).Some? {
      var k := Woken(m.event).value;
      if k in y.tasks && Wake(y.s, y.tasks[k], m).Some? {
        WakeAt(y, k, m, id);
      } else {
        SameAt(y.s, id);
        IdleLicence(y, m, id);
      }
    } else {
      CallAt(y.s, m, id);
    }
  }

  lemma WellFormedAt(s: State, id: Id)
    requires WF(s)
    ensures At(s, id)
  {
  }

  /** A move that finds nobody waiting for it licenses nothing. */
  lemma IdleLicence(y: System, m: Move, id: Id)
    requires Woken(m.event).Some?
    requires Woken(m.event).value in y.tasks ==> Wake(y.s, y.tasks[Woken(m.event).value], m).None?
    ensures LicenceOf(y, m, id).Quiet?
  {
  }

  // ----- Locks and creation across one stretch of code

  /** Neither the locks nor the creation are touched, and storage agrees about the creation. */
  ghost predicate Framed(s: State, t: State) {
    && t.mutations == s.mutations && FramedCreate(s, t)
  }

  ghost predicate FramedCreate(s: State, t: State) {
    && t.pendingCreate == s.pendingCreate && t.creating == s.creating && t.createRejected == s.createRejected
    && (t.disk == s.disk || t.disk.None?
        || (t.disk.value.pendingCreate == s.pendingCreate && t.disk.value.createRejected == s.createRejected))
  }

  lemma FramedOk(s: State, t: State)
    requires CreateOk(s) && FramedCreate(s, t)
    ensures CreateOk(t)
  {
  }

  lemma PublishFramed(s: State, t: State, w: bool)
    requires Framed(s, t)
    ensures Framed(s, Publish(t, w))
  {
    hide Publish, Persist;
  }

  lemma InstallFramed(s: State, t: State, d: Draft, w: bool)
    requires Framed(s, t)
    ensures Framed(s, Install(t, d, w))
  {
    hide Publish, Persist;
    var id := d.record.id;
    PublishFramed(s, Summarized(t.(drafts := t.drafts[id := d], restored := t.restored - {id}), d.record), w);
  }

  lemma PutFramed(s: State, t: State, id: Id, d: Draft, w: bool)
    requires Framed(s, t)
    ensures Framed(s, PutDraft(t, id, d, w))
  {
    hide Publish, Persist;
    PublishFramed(s, t.(drafts := t.drafts[id := d]), w);
  }

  lemma MergeFramed(s: State, r: Record, w: bool)
    ensures Framed(s, Merge(s, r, w).0)
  {
    hide Publish, Persist, Rejoin, Advance, FreshDraft, Consistent, SameContents, Install, PutDraft;
    var s1 := RetainReference(s, r);
    if r.id in s1.restored { InstallFramed(s, s1, Rejoin(s1.restored[r.id], r), w); }
    InstallFramed(s, s1, FreshDraft(r, 0), w);
    if r.id in s1.drafts {
      InstallFramed(s, s1, Advance(s1.drafts[r.id], r), w);
      PutFramed(s, s1, r.id, s1.drafts[r.id].(readError := false), w);
    }
  }

  lemma ReadFailedFramed(s: State, t: State, id: Id, w: bool)
    requires Framed(s, t)
    ensures Framed(s, ReadFailed(t, id, w))
  {
    hide Publish, Persist, PutDraft;
    PublishFramed(s, t, w);
    if id in t.drafts { PutFramed(s, t, id, t.drafts[id].(readError := true), w); }
  }

  lemma ReadFramed(s: State, t: Task, response: Response, allowed: bool, w: bool)
    requires t.Reading?
    ensures Framed(s, ReadFinish(s, t, response, allowed, w).0)
  {
    hide Publish, Persist, Merge, FreshDraft, Consistent, Admissible, MayDiscard, ReadFailed, Install, RetainReference, ConfirmRead;
    ReadFailedFramed(s, s, t.id, w);
    if response.Body? {
      var r := response.record;
      InstallFramed(s, RetainReference(s, r), FreshDraft(r, (if t.edit.Some? then t.edit.value else 0) + 1), w);
      MergeFramed(s, r, w);
      ReadFailedFramed(s, Merge(s, r, w).0, t.id, w);
      PublishFramed(s, Merge(s, r, w).0, w);
    }
  }

  lemma EditFramed(s: State, id: Id, text: string, allowed: bool, w: bool)
    ensures Framed(s, Edit(s, id, text, allowed, w))
  {
    hide Publish, Persist, PutDraft, ValidText;
    if id in s.drafts {
      var d := s.drafts[id];
      PutFramed(s, s, id, d.(error := true), w);
      PutFramed(s, s, id, d.(text := text, edit := d.edit + 1, dirty := text != d.record.draft,
                             error := (d.operation.Some? || d.conflict) && d.error), w);
    }
  }

  lemma ListFramed(s: State, t: Task, items: ListResponse, allowed: bool, w: bool)
    requires t.Listing?
    ensures Framed(s, ListReply(s, t, items, allowed, w))
  {
    hide Publish, Persist, AdmissibleList, WithList;
    PublishFramed(s, s, w);
    if items.Listed? { PublishFramed(s, WithList(s, items.items), w); }
  }

  lemma ReferenceFramed(s: State, t: Task, response: Response, allowed: bool, w: bool)
    requires t.Referencing?
    ensures Framed(s, ReferenceReply(s, t, response, allowed, w))
  {
    hide Publish, Persist, Merge, Admissible;
    if response.Body? { MergeFramed(s, response.record, w); }
  }

  lemma LaunchTurn(s: State, id: Id, op: Operation, sent: Operation, w: bool)
    requires id in s.drafts && id !in s.mutations
    requires sent.payload == op.payload && sent.edit <= s.drafts[id].edit
    ensures
      var (u, t) := PerformBegin(PutDraft(s, id, s.drafts[id].(operation := Some(op), error := false), w), id, sent);
      LockTurn(s, u, None, t) && FramedCreate(s, u)
  {
    hide Publish, Persist;
  }

  lemma SaveGoTurn(s: State, id: Id, token: Token, allowed: bool, w: bool)
    ensures LockTurn(s, SaveGo(s, id, token, allowed, w).0, None, SaveGo(s, id, token, allowed, w).1)
    ensures FramedCreate(s, SaveGo(s, id, token, allowed, w).0)
  {
    hide PutDraft, PerformBegin, Owns;
    if MaySave(s, id, allowed) {
      var d := s.drafts[id];
      var op := Operation(SaveDraft(token, d.record.revision, d.text), d.edit, false);
      LaunchTurn(s, id, op, op, w);
    }
  }

  lemma SetStateGoTurn(s: State, id: Id, lifecycle: Lifecycle, token: Token, allowed: bool, w: bool)
    ensures LockTurn(s, SetStateGo(s, id, lifecycle, token, allowed, w).0, None, SetStateGo(s, id, lifecycle, token, allowed, w).1)
    ensures FramedCreate(s, SetStateGo(s, id, lifecycle, token, allowed, w).0)
  {
    hide PutDraft, PerformBegin, Owns;
    if MaySetState(s, id, lifecycle, allowed) {
      var d := s.drafts[id];
      var op := Operation(SetState(token, d.record.revision, lifecycle), d.edit, false);
      LaunchTurn(s, id, op, op, w);
    }
  }

  lemma ReconcileTurn(s: State, id: Id, allowed: bool, w: bool)
    requires At(s, id)
    ensures LockTurn(s, Reconcile(s, id, allowed, w).0, None, Reconcile(s, id, allowed, w).1)
    ensures FramedCreate(s, Reconcile(s, id, allowed, w).0)
  {
    hide PutDraft, PerformBegin, Owns;
    if id in s.drafts && s.drafts[id].operation.Some? && id !in s.mutations {
      var op := s.drafts[id].operation.value;
      LaunchTurn(s, id, op.(uncertain := false), op, w);
    }
  }

  lemma FinishTurn(s: State, id: Id, op: Operation, acknowledged: Option<nat>, locked: bool, w: bool)
    ensures LockTurn(s, Finish(s, id, op, acknowledged, locked, w), if locked then Some(id) else None, None)
    ensures FramedCreate(s, Finish(s, id, op, acknowledged, locked, w))
  {
    hide PutDraft, Publish, Persist;
    var s1 := Unlock(s, id, locked);
    if id in s1.drafts && acknowledged.Some? {
      var d := s.drafts[id];
      PutFramed(s1, s1, id, d.(operation := None, conflict := d.conflict || (d.record.revision > acknowledged.value && d.dirty)), w);
      PublishFramed(s1, s1, w);
    }
  }

  lemma ConfirmedTurn(s: State, id: Id, op: Operation, r: Record, allowed: bool, w: bool)
    requires Owns(s, id, op) && Confirms(s, id, op, Body(r)) && Consistent(s, r)
    ensures PerformTurn(s, id, op, Body(r), allowed, w)
  {
    hide Publish, Persist, PutDraft, Admissible, Acknowledges, Consistent, Acknowledge, Finish, RetainReference, Summarized;
    var s1 := RetainReference(s, r);
    var e := Acknowledge(s1.drafts[id], op, r);
    PutFramed(s, s1, id, e, w);
    PutDrafts(s1, id, e, w);
    var s2 := PutDraft(s1, id, e, w);
    PublishFramed(s, Summarized(s2, e.record), w);
  }

  lemma InconsistentTurn(s: State, id: Id, op: Operation, r: Record, allowed: bool, w: bool)
    requires Owns(s, id, op) && Confirms(s, id, op, Body(r)) && !Consistent(s, r)
    ensures PerformTurn(s, id, op, Body(r), allowed, w)
  {
    hide Publish, Persist, PutDraft, Admissible, Acknowledges, Consistent, Acknowledge, Finish;
    var d := s.drafts[id].(readError := true);
    PutFramed(s, s, id, d, w);
    PutDrafts(s, id, d, w);
    FinishTurn(PutDraft(s, id, d, w), id, op, Some(r.revision), true, w);
  }

  lemma RefusedTurn(s: State, id: Id, op: Operation, response: Response, allowed: bool, w: bool)
    requires Owns(s, id, op) && !Confirms(s, id, op, response)
    ensures PerformTurn(s, id, op, response, allowed, w)
  {
    hide Publish, Persist, PutDraft, Admissible, Acknowledges, Consistent, Acknowledge, Finish, Unlock;
    var d := s.drafts[id];
    var s1 := Unlock(s, id, true);
    PutFramed(s1, s1, id, d.(operation := None, conflict := true, error := true), w);
    PutFramed(s1, s1, id, d.(operation := None, error := true), w);
    PutFramed(s, s, id, d.(operation := Some(op.(uncertain := true)), error := true), w);
    Unlocks(s, id);
    Unlocks(PutDraft(s, id, d.(operation := Some(op.(uncertain := true)), error := true), w), id);
  }

  lemma Unlocks(s: State, id: Id)
    ensures Unlock(s, id, true).mutations == s.mutations - {id}
  {
  }

  ghost predicate PerformTurn(s: State, id: Id, op: Operation, response: Response, allowed: bool, w: bool) {
    var (u, t) := PerformReply(s, id, op, response, allowed, w);
    && LockTurn(s, u, Some(id), t)
    && FramedCreate(s, u)
    && (t.Some? ==> AfterOf(t.value).ThenFinish? && AfterOf(t.value).acknowledged.Some? == AfterOf(t.value).locked)
  }

  lemma PerformReplyTurn(s: State, id: Id, op: Operation, response: Response, allowed: bool, w: bool)
    requires Owns(s, id, op)
    ensures PerformTurn(s, id, op, response, allowed, w)
  {
    hide PerformTurn;
    if !Confirms(s, id, op, response) {
      RefusedTurn(s, id, op, response, allowed, w);
    } else if Consistent(s, response.record) {
      ConfirmedTurn(s, id, op, response.record, allowed, w);
    } else {
      InconsistentTurn(s, id, op, response.record, allowed, w);
    }
  }

  lemma CreateFailedTurn(s: State, t: State, p: PendingCreate, rejected: bool, w: bool)
    requires CreateOk(s) && Framed(s, t) && ValidText(p.draft)
    ensures CreateOk(CreateFailed(t, p, rejected, w)) && !CreateFailed(t, p, rejected, w).creating
    ensures CreateFailed(t, p, rejected, w).mutations == s.mutations
  {
    hide Publish, Persist, ValidText;
  }

  lemma CreateReplyTurn(s: State, t: Task, response: Response, allowed: bool, w: bool)
    requires CreateOk(s) && t.Creating? && TaskOk(s, t)
    ensures
      var (u, next) := CreateReply(s, t, response, allowed, w);
      && CreateOk(u) && !u.creating && u.mutations == s.mutations
      && (next.Some? ==> Lock(next.value).None? && AfterOf(next.value).Nothing? && !next.value.Creating?)
  {
    hide Publish, Persist, ValidText, Merge, Admissible, Consistent, CreateFailed, RetainReference, Created;
    var p := t.pending;
    CreateFailedTurn(s, s, p, response.Rejected? || response.Conflicted?, w);
    CreateFailedTurn(s, s, p, false, w);
    if response.Body? {
      var r := response.record;
      var s0 := RetainReference(s, r);
      MergeFramed(s0, r, w);
      var s1 := if r.id in s.restored then s0 else Merge(s0, r, w).0;
      CreateFailedTurn(s, s1, p, false, w);
      CreatedTurn(s, s1, r, p.uncertain || r.id in s.restored, s1.selectionRevision == t.selectionRevision, w);
    }
  }

  lemma CreatedTurn(s: State, t: State, r: Record, again: bool, select: bool, w: bool)
    requires CreateOk(s) && Framed(s, t)
    ensures CreateOk(Created(t, r, again, select, w)) && !Created(t, r, again, select, w).creating
    ensures Created(t, r, again, select, w).mutations == s.mutations
  {
    hide Publish, Persist, ConfirmRead, Summarized;
  }

  lemma RetryCreateTurn(s: State, allowed: bool, w: bool)
    requires SavedCreateOk(s.disk)
    requires s.pendingCreate.Some? ==> ValidText(s.pendingCreate.value.draft)
    requires CreateOk(s) || (allowed && !s.creating && s.pendingCreate.Some?)
    ensures
      var (u, t) := RetryCreate(s, allowed, w);
      && CreateOk(u) && u.mutations == s.mutations && CreateTurn(s, u, false, t)
      && (t.Some? ==> t.value.Creating?)
  {
    hide Publish, Persist, ValidText;
  }

  lemma CreateTurns(s: State, target: Target, text: string, token: Token, allowed: bool, canCreate: bool, w: bool)
    requires CreateOk(s)
    ensures
      var (u, t) := Create(s, target, text, token, allowed, canCreate, w);
      && CreateOk(u) && u.mutations == s.mutations && CreateTurn(s, u, false, t)
      && (t.Some? ==> t.value.Creating?)
  {
    hide Publish, Persist, ValidText, RetryCreate;
    if MayCreate(s, allowed, canCreate) && ValidText(text) {
      var s1 := s.(createRejected := false, pendingCreate := Some(PendingCreate(token, target, text, false, false)));
      RetryCreateTurn(Publish(s1, w), allowed, w);
    }
  }

  // ----- The invariant of every run

  ghost predicate Shaped(t: Task) {
    AfterOf(t).ThenFinish? ==> AfterOf(t).acknowledged.Some? == AfterOf(t).locked
  }

  ghost predicate Turn(s: State, u: State, held: Option<Id>, answered: bool, t: Option<Task>) {
    CreateOk(u) && LockTurn(s, u, held, t) && CreateTurn(s, u, answered, t) && (t.Some? ==> Shaped(t.value))
  }

  lemma QuietTurn(s: State, u: State, t: Option<Task>)
    requires CreateOk(s) && Framed(s, u)
    requires t.Some? ==> Lock(t.value).None? && !t.value.Creating? && Shaped(t.value)
    ensures Turn(s, u, None, false, t)
  {
    hide CreateOk, Owns;
    FramedOk(s, u);
  }

  lemma LaunchedTurn(s: State, u: State, t: Option<Task>)
    requires CreateOk(s) && FramedCreate(s, u) && LockTurn(s, u, None, t)
    requires t.Some? ==> t.value.Performing?
    ensures Turn(s, u, None, false, t)
  {
    hide CreateOk, Owns;
    FramedOk(s, u);
  }

  lemma CallTurn(s: State, m: Move)
    requires WF(s)
    ensures Turn(s, Call(s, m).0, None, false, Call(s, m).1)
  {
    hide Publish, Edit, SaveGo, SetStateGo, Reconcile, Create, RetryCreate, At, CreateOk, OpenAside, Refresh, Turn, FramedCreate, LockTurn;
    var (u, t) := Call(s, m);
    match m.event
    case Edits(target, text) => EditFramed(s, target, text, m.allowed, m.w); QuietTurn(s, u, t);
    case Saves(target, token) => SaveTurn(s, target, token, m.allowed, m.w);
    case Sets(target, lifecycle, token) => SetLifecycleTurn(s, target, lifecycle, token, m.allowed, m.w);
    case Reconciles(target) =>
      WellFormedAt(s, target);
      ReconcileTurn(s, target, m.allowed, m.w);
      ReconcileShape(s, target, m.allowed, m.w);
      LaunchedTurn(s, u, t);
    case Opens(target, refresh) => OpenFramed(s, target, refresh, m.allowed, m.w); QuietTurn(s, u, t);
    case Refreshes(revalidate) => RefreshFramed(s, revalidate, m.allowed, m.w); QuietTurn(s, u, t);
    case Creates(target, text, token, canCreate) => CreatesTurn(s, target, text, token, m.allowed, canCreate, m.w);
    case RetriesCreate => RetriesTurn(s, m.allowed, m.w);
    case _ => RestFramed(s, m); QuietTurn(s, u, t);
  }

  /** The calls that touch neither storage nor drafts. */
  lemma RestFramed(s: State, m: Move)
    requires m.event.Reloads? || m.event.Reads? || m.event.References? || m.event.LosesAccess? || Woken(m.event).Some? || m.event.Crashes?
    ensures Framed(s, Call(s, m).0)
    ensures Call(s, m).1.Some? ==> Lock(Call(s, m).1.value).None? && !Call(s, m).1.value.Creating? && Shaped(Call(s, m).1.value)
  {
  }

  lemma SaveTurn(s: State, id: Id, token: Token, allowed: bool, w: bool)
    requires CreateOk(s)
    ensures Turn(s, Save(s, id, token, allowed, w).0, None, false, Save(s, id, token, allowed, w).1)
  {
    hide CreateOk, SaveGo, Turn, LockTurn;
    var (u, t) := Save(s, id, token, allowed, w);
    if id in s.stale { QuietTurn(s, u, t); }
    else { SaveGoTurn(s, id, token, allowed, w); SaveGoShape(s, id, token, allowed, w); LaunchedTurn(s, u, t); }
  }

  lemma SetLifecycleTurn(s: State, id: Id, lifecycle: Lifecycle, token: Token, allowed: bool, w: bool)
    requires CreateOk(s)
    ensures Turn(s, SetLifecycle(s, id, lifecycle, token, allowed, w).0, None, false, SetLifecycle(s, id, lifecycle, token, allowed, w).1)
  {
    hide CreateOk, SetStateGo, Turn, LockTurn;
    var (u, t) := SetLifecycle(s, id, lifecycle, token, allowed, w);
    if id in s.stale { QuietTurn(s, u, t); }
    else {
      SetStateGoTurn(s, id, lifecycle, token, allowed, w);
      SetStateGoShape(s, id, lifecycle, token, allowed, w);
      LaunchedTurn(s, u, t);
    }
  }

  lemma CreatesTurn(s: State, target: Target, text: string, token: Token, allowed: bool, canCreate: bool, w: bool)
    requires CreateOk(s)
    ensures Turn(s, Create(s, target, text, token, allowed, canCreate, w).0, None, false, Create(s, target, text, token, allowed, canCreate, w).1)
  {
    hide CreateOk, Create, CreateTurn;
    CreateTurns(s, target, text, token, allowed, canCreate, w);
  }

  lemma RetriesTurn(s: State, allowed: bool, w: bool)
    requires CreateOk(s)
    ensures Turn(s, RetryCreate(s, allowed, w).0, None, false, RetryCreate(s, allowed, w).1)
  {
    hide RetryCreate, CreateTurn;
    PendingOk(s);
    RetryCreateTurn(s, allowed, w);
  }

  lemma PendingOk(s: State)
    requires CreateOk(s)
    ensures SavedCreateOk(s.disk)
    ensures s.pendingCreate.Some? ==> ValidText(s.pendingCreate.value.draft)
  {
  }

  lemma SaveGoShape(s: State, id: Id, token: Token, allowed: bool, w: bool)
    ensures SaveGo(s, id, token, allowed, w).1.Some? ==> SaveGo(s, id, token, allowed, w).1.value.Performing?
  {
    hide PutDraft;
  }

  lemma SetStateGoShape(s: State, id: Id, lifecycle: Lifecycle, token: Token, allowed: bool, w: bool)
    ensures SetStateGo(s, id, lifecycle, token, allowed, w).1.Some? ==> SetStateGo(s, id, lifecycle, token, allowed, w).1.value.Performing?
  {
    hide PutDraft;
  }

  lemma ReconcileShape(s: State, id: Id, allowed: bool, w: bool)
    ensures Reconcile(s, id, allowed, w).1.Some? ==> Reconcile(s, id, allowed, w).1.value.Performing?
  {
    hide PutDraft;
  }

  lemma OpenFramed(s: State, id: Id, refresh: bool, allowed: bool, w: bool)
    ensures Framed(s, OpenAside(s, id, refresh, allowed, w).0)
    ensures OpenAside(s, id, refresh, allowed, w).1.Some? ==> AfterOf(OpenAside(s, id, refresh, allowed, w).1.value).Nothing?
    ensures OpenAside(s, id, refresh, allowed, w).1.Some? ==> !OpenAside(s, id, refresh, allowed, w).1.value.Creating?
    ensures OpenAside(s, id, refresh, allowed, w).1.Some? ==> !OpenAside(s, id, refresh, allowed, w).1.value.Performing?
  {
    hide Publish, Persist;
    PublishFramed(s, s.(selectionRevision := s.selectionRevision + 1, selected := Some(id)), w);
  }

  lemma RefreshFramed(s: State, revalidate: bool, allowed: bool, w: bool)
    ensures Framed(s, Refresh(s, revalidate, allowed, w).0)
    ensures Refresh(s, revalidate, allowed, w).1.Some? ==> Refresh(s, revalidate, allowed, w).1.value.Listing?
  {
    hide Publish, Persist;
    PublishFramed(s, s.(reading := s.reading + 1), w);
  }

  lemma WakeTurn(s: State, t: Task, m: Move)
    requires WF(s) && TaskOk(s, t) && Wake(s, t, m).Some?
    ensures Turn(s, Wake(s, t, m).value.0, LockId(t), t.Creating?, Wake(s, t, m).value.1)
  {
    hide Publish, At, CreateOk, ReadFinish, PerformReply, CreateReply, ReferenceReply, ListReply, Resume, Turn, FramedCreate, LockTurn;
    var (u, next) := Wake(s, t, m).value;
    match m.event
    case Answers(_, response) =>
      match t {
        case Reading(_, _, _, _, _) => ReadTurn(s, t, response, m);
        case Performing(target, op) => SentTurn(s, target, op, response, m);
        case Creating(_, _) => CreatingTurn(s, t, response, m);
        case Referencing(_, _) => ReferenceFramed(s, t, response, m.allowed, m.w); QuietTurn(s, u, next);
        case _ =>
      }
    case Lists(_, items) => ListFramed(s, t, items, m.allowed, m.w); QuietTurn(s, u, next);
    case Continues(_, token) => ResumeTurn(s, t, token, m);
    case _ =>
  }

  lemma ReadTurn(s: State, t: Task, response: Response, m: Move)
    requires WF(s) && TaskOk(s, t) && t.Reading?
    ensures
      var (u, ok) := ReadFinish(s, t, response, m.allowed, m.w);
      Turn(s, u, LockId(t), false, if t.after.Nothing? then None else Some(Resuming(ok, t.after)))
  {
    hide CreateOk, At, ReadFinish, Owns;
    ReadFramed(s, t, response, m.allowed, m.w);
    FramedOk(s, ReadFinish(s, t, response, m.allowed, m.w).0);
    ReadOwns(s, t, response, m);
    if Lock(t).Some? { OwnsLocked(s, Lock(t).value.0, Lock(t).value.1); }
  }

  lemma OwnsLocked(s: State, id: Id, op: Operation)
    requires Owns(s, id, op)
    ensures id in s.mutations
  {
  }

  lemma SentTurn(s: State, id: Id, op: Operation, response: Response, m: Move)
    requires CreateOk(s) && Owns(s, id, op)
    ensures Turn(s, PerformReply(s, id, op, response, m.allowed, m.w).0, Some(id), false, PerformReply(s, id, op, response, m.allowed, m.w).1)
  {
    hide CreateOk, PerformReply, LockTurn;
    PerformReplyTurn(s, id, op, response, m.allowed, m.w);
    FramedOk(s, PerformReply(s, id, op, response, m.allowed, m.w).0);
  }

  lemma CreatingTurn(s: State, t: Task, response: Response, m: Move)
    requires CreateOk(s) && t.Creating? && TaskOk(s, t)
    ensures Turn(s, CreateReply(s, t, response, m.allowed, m.w).0, None, true, CreateReply(s, t, response, m.allowed, m.w).1)
  {
    hide CreateOk, CreateReply;
    CreateReplyTurn(s, t, response, m.allowed, m.w);
  }

  lemma ResumeTurn(s: State, t: Task, token: Token, m: Move)
    requires CreateOk(s) && t.Resuming?
    ensures Turn(s, Resume(s, t.ok, t.after, token, m.allowed, m.w).0, LockId(t), false, Resume(s, t.ok, t.after, token, m.allowed, m.w).1)
  {
    hide CreateOk, SaveGo, SetStateGo, Finish, Owns;
    var u := Resume(s, t.ok, t.after, token, m.allowed, m.w).0;
    match t.after {
      case Nothing =>
      case ThenSave(target, _) => SaveGoTurn(s, target, token, m.allowed, m.w); SaveGoShape(s, target, token, m.allowed, m.w);
      case ThenSetState(target, lifecycle) =>
        SetStateGoTurn(s, target, lifecycle, token, m.allowed, m.w);
        SetStateGoShape(s, target, lifecycle, token, m.allowed, m.w);
      case ThenFinish(target, op, acknowledged, locked) => FinishTurn(s, target, op, acknowledged, locked, m.w);
    }
    FramedOk(s, u);
  }

  /** A read that the lock holder waits for leaves it its operation. */
  lemma ReadOwns(s: State, t: Task, response: Response, m: Move)
    requires WF(s) && TaskOk(s, t) && t.Reading?
    ensures Lock(t).Some? ==>
      Owns(ReadFinish(s, t, response, m.allowed, m.w).0, Lock(t).value.0, Lock(t).value.1)
  {
    hide At, ReadFinish, KeptAt, Owns;
    if Lock(t).Some? {
      var (id, op) := Lock(t).value;
      WellFormedAt(s, id);
      ReadFinishAt(s, t, response, m.allowed, m.w, id);
      ReadFramed(s, t, response, m.allowed, m.w);
      OwnsKept(s, ReadFinish(s, t, response, m.allowed, m.w).0, id, op,
               if Discards(s, t, response, m.allowed) && id == t.id then Dropped else Quiet);
    }
  }

  /** Whoever holds the lock keeps its operation unless its own reply retires it. */
  lemma OwnsKept(s: State, u: State, id: Id, op: Operation, l: Licence)
    requires Owns(s, id, op) && KeptAt(s, u, id, l) && !l.Retired?
    requires id in s.mutations ==> id in u.mutations
    ensures Owns(u, id, op)
  {
  }

  lemma OthersOk(s: State, u: State, held: Option<Id>, answered: bool, next: Option<Task>, t: Task, l: Licence)
    requires TaskOk(s, t) && Turn(s, u, held, answered, next)
    requires LockId(t).Some? ==> KeptAt(s, u, LockId(t).value, l) && !l.Retired? && LockId(t) != held
    requires t.Creating? ==> !answered
    ensures TaskOk(u, t)
    ensures LockId(t).Some? && next.Some? ==> LockId(next.value) != LockId(t)
    ensures t.Creating? && next.Some? ==> !next.value.Creating?
  {
    hide KeptAt;
    if LockId(t).Some? {
      OwnsKept(s, u, Lock(t).value.0, Lock(t).value.1, l);
    }
  }

  ghost predicate KeptSomehow(s: State, u: State, id: Id) {
    KeptAt(s, u, id, Quiet) || KeptAt(s, u, id, Typed) || KeptAt(s, u, id, Dropped)
  }

  /** A call that did not run keeps its lock and its creation, and the continuation takes neither. */
  lemma LeftOk(s: State, tasks: map<nat, Task>, u: State, held: Option<Id>, answered: bool, next: Option<Task>,
               ran: set<nat>, k: nat)
    requires LocksOk(s, tasks) && Turn(s, u, held, answered, next) && k in tasks && k !in ran
    requires held.Some? || answered ==> exists j :: j in ran && j in tasks && LockId(tasks[j]) == held && tasks[j].Creating? == answered
    requires LockId(tasks[k]).Some? ==> KeptSomehow(s, u, LockId(tasks[k]).value)
    ensures TaskOk(u, tasks[k])
    ensures LockId(tasks[k]).Some? && next.Some? ==> LockId(next.value) != LockId(tasks[k])
    ensures tasks[k].Creating? && next.Some? ==> !next.value.Creating?
  {
    hide KeptAt, Owns, CreateOk, Turn;
    var l := if LockId(tasks[k]).None? || KeptAt(s, u, LockId(tasks[k]).value, Quiet) then Quiet
             else if KeptAt(s, u, LockId(tasks[k]).value, Typed) then Typed else Dropped;
    OthersOk(s, u, held, answered, next, tasks[k], l);
  }

  /** The tasks after a stretch of code: the call that ran is gone, its continuation is new. */
  lemma LocksTurn(s: State, tasks: map<nat, Task>, u: State, held: Option<Id>, answered: bool, next: Option<Task>,
                  ran: set<nat>, slot: nat)
    requires LocksOk(s, tasks) && Turn(s, u, held, answered, next) && slot !in tasks
    requires forall k :: k in ran ==> k in tasks && LockId(tasks[k]) == held && tasks[k].Creating? == answered
    requires held.Some? || answered ==> ran != {}
    requires forall k :: k in tasks && k !in ran && LockId(tasks[k]).Some? ==> KeptSomehow(s, u, LockId(tasks[k]).value)
    ensures LocksOk(u, Spawn(u, tasks - ran, slot, next).tasks)
  {
    hide KeptSomehow, Owns, CreateOk, TaskOk;
    var left := tasks - ran;
    var after := Spawn(u, left, slot, next).tasks;
    forall k | k in left
      ensures TaskOk(u, left[k])
      ensures LockId(left[k]).Some? && next.Some? ==> LockId(next.value) != LockId(left[k])
      ensures left[k].Creating? && next.Some? ==> !next.value.Creating?
    {
      if held.Some? || answered { var j :| j in ran; assert j in tasks; }
      LeftOk(s, tasks, u, held, answered, next, ran, k);
    }
    if next.Some? { NextOk(s, u, held, answered, next); }
    HoldersStay(s, tasks, u, held, answered, next, ran, slot);
  }

  lemma NextOk(s: State, u: State, held: Option<Id>, answered: bool, next: Option<Task>)
    requires next.Some? && Turn(s, u, held, answered, next)
    ensures TaskOk(u, next.value)
  {
    hide Owns, CreateOk;
  }

  lemma HoldersStay(s: State, tasks: map<nat, Task>, u: State, held: Option<Id>, answered: bool, next: Option<Task>,
                    ran: set<nat>, slot: nat)
    requires LocksOk(s, tasks) && Turn(s, u, held, answered, next) && slot !in tasks
    requires forall k :: k in ran ==> k in tasks && LockId(tasks[k]) == held && tasks[k].Creating? == answered
    ensures
      var after := Spawn(u, tasks - ran, slot, next).tasks;
      && (forall id :: id in u.mutations ==> exists k :: k in after && LockId(after[k]) == Some(id))
      && (u.creating ==> exists k :: k in after && after[k].Creating?)
  {
    hide Owns, CreateOk, TaskOk;
    var after := Spawn(u, tasks - ran, slot, next).tasks;
    forall id | id in u.mutations
      ensures exists k :: k in after && LockId(after[k]) == Some(id)
    {
      if next.Some? && LockId(next.value) == Some(id) {
        assert slot in after && LockId(after[slot]) == Some(id);
      } else {
        assert id in s.mutations && held != Some(id);
        var k :| k in tasks && LockId(tasks[k]) == Some(id);
        assert k in after && LockId(after[k]) == Some(id);
      }
    }
    if u.creating {
      if next.Some? && next.value.Creating? {
        assert slot in after && after[slot].Creating?;
      } else {
        var k :| k in tasks && tasks[k].Creating?;
        assert k in after && after[k].Creating?;
      }
    }
  }

  lemma OthersKept(y: System, m: Move, k: nat, id: Id)
    requires Inv(y) && !m.event.Crashes? && k in y.tasks && LockId(y.tasks[k]) == Some(id)
    requires Woken(m.event) != Some(k)
    ensures KeptSomehow(y.s, Step(y, m).s, id)
  {
    hide KeptAt, Step, At, Discards, Retires;
    StepKeeps(y, m, id);
    assert !LicenceOf(y, m, id).Retired? by {
      if Woken(m.event).Some? && Woken(m.event).value in y.tasks {
        assert TaskOk(y.s, y.tasks[Woken(m.event).value]);
      }
    }
  }

  /** Every state of every run: each aside is well formed, storage holds nothing that the next page
      would drop, every mutation lock has exactly one holder, whose operation is the one the draft
      shows, and at most one creation is in flight. */
  lemma StepInv(y: System, m: Move)
    requires Inv(y)
    ensures Inv(Step(y, m))
  {
    hide At, KeptAt, Wake, Call, Turn, LocksOk, CreateOk;
    var z := Step(y, m);
    if m.event.Crashes? {
      RestoreInv(y.s.disk);
    } else {
      forall id ensures At(z.s, id) { StepKeeps(y, m, id); }
      StepLocks(y, m);
    }
  }

  lemma StepLocks(y: System, m: Move)
    requires Inv(y) && !m.event.Crashes?
    ensures LocksOk(Step(y, m).s, Step(y, m).tasks) && CreateOk(Step(y, m).s)
    ensures forall k :: k in Step(y, m).tasks ==> k < Step(y, m).next
  {
    hide At, KeptAt, Wake, Call, Owns;
    var z := Step(y, m);
    if Woken(m.event).Some? {
      var k := Woken(m.event).value;
      if k in y.tasks && Wake(y.s, y.tasks[k], m).Some? {
        WakeTurn(y.s, y.tasks[k], m);
        forall j | j in y.tasks && j !in {k} && LockId(y.tasks[j]).Some?
          ensures KeptSomehow(y.s, z.s, LockId(y.tasks[j]).value)
        {
          OthersKept(y, m, j, LockId(y.tasks[j]).value);
        }
        LocksTurn(y.s, y.tasks, z.s, LockId(y.tasks[k]), y.tasks[k].Creating?, Wake(y.s, y.tasks[k], m).value.1, {k}, y.next);
      }
    } else {
      CallTurn(y.s, m);
      forall j | j in y.tasks && j !in {} && LockId(y.tasks[j]).Some?
        ensures KeptSomehow(y.s, z.s, LockId(y.tasks[j]).value)
      {
        OthersKept(y, m, j, LockId(y.tasks[j]).value);
      }
      LocksTurn(y.s, y.tasks, z.s, None, false, Call(y.s, m).1, {}, y.next);
      assert y.tasks - {} == y.tasks;
    }
  }

  /** Every run may start here: a new page, whatever entries storage holds. */
  lemma RestoreInv(disk: Option<Persisted>)
    ensures WF(Restore(disk)) && LocksOk(Restore(disk), map[])
  {
    forall id ensures At(Restore(disk), id) { RestoreAt(disk, id); }
  }

  lemma {:induction false} RunInv(y: System, moves: seq<Move>)
    requires Inv(y)
    ensures Inv(Run(y, moves))
    decreases |moves|
  {
    hide Inv, Step;
    if moves != [] {
      StepInv(y, moves[0]);
      RunInv(Step(y, moves[0]), moves[1..]);
    }
  }

  /** A mutation lock is only ever released by the call that holds it: a move that does not wake
      the holder leaves it its lock and its operation. */
  lemma OnlyTheHolderUnlocks(y: System, m: Move, k: nat)
    requires Inv(y) && !m.event.Crashes? && Woken(m.event) != Some(k)
    requires k in y.tasks && Lock(y.tasks[k]).Some?
    ensures k in Step(y, m).tasks && Step(y, m).tasks[k] == y.tasks[k]
    ensures Owns(Step(y, m).s, Lock(y.tasks[k]).value.0, Lock(y.tasks[k]).value.1)
  {
    hide Wake, Call, At, KeptAt;
    StepInv(y, m);
    assert k in Step(y, m).tasks && Step(y, m).tasks[k] == y.tasks[k];
    assert TaskOk(Step(y, m).s, Step(y, m).tasks[k]);
  }
}
