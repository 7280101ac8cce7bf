/**
 Nothing is lost over whole runs: unsaved text, the payload of an unresolved operation and a
 creation of unknown outcome survive any interleaving of calls, answers, lost answers and page
 crashes, as long as a crash finds them in browser storage.
 */
module AsideRecovery {
  import opened Wrappers
  import opened AsideProtocol
  import opened AsideInvariants
  import opened AsideRuns
  import opened AsidePersistence

  ghost predicate Writes(moves: seq<Move>) {
    forall i :: 0 <= i < |moves| ==> moves[i].w
  }

  /** No move of the run has this licence on the aside. */
  ghost predicate Never(y: System, moves: seq<Move>, id: Id, l: Licence)
    decreases |moves|
  {
    moves == [] || (LicenceOf(y, moves[0], id) != l && Never(Step(y, moves[0]), moves[1..], id, l))
  }

  /** The local text that pins itself: unsaved, in conflict, or being saved. */
  function Unsaved(s: State, id: Id): Option<string> {
    if id in s.restored then (if PinnedSaved(s.restored[id]) then Some(s.restored[id].text) else None)
    else if id in s.drafts && Pinned(s.drafts[id]) then Some(s.drafts[id].text)
    else None
  }

  /** The server's own record of the aside carries the text. */
  ghost predicate ServerHas(s: State, id: Id, text: string) {
    id in s.drafts && s.drafts[id].record.draft == text && s.drafts[id].text == text
  }

  /** At some moment of the run the server's record carries the text. */
  ghost predicate Reaches(y: System, moves: seq<Move>, id: Id, text: string)
    decreases |moves|
  {
    ServerHas(y.s, id, text) || (moves != [] && Reaches(Step(y, moves[0]), moves[1..], id, text))
  }

  function Unresolved(s: State, id: Id): Option<Payload> {
    var op := if id in s.restored then s.restored[id].operation
              else if id in s.drafts then s.drafts[id].operation else None;
    if op.Some? then Some(op.value.payload) else None
  }

  /** What the next page would find of them in storage. */
  function StoredText(disk: Option<Persisted>, id: Id): Option<string> {
    if disk.Some? && id in disk.value.drafts && PinnedSaved(disk.value.drafts[id]) then Some(disk.value.drafts[id].text) else None
  }

  function StoredPayload(disk: Option<Persisted>, id: Id): Option<Payload> {
    if disk.Some? && id in disk.value.drafts && disk.value.drafts[id].operation.Some?
    then Some(disk.value.drafts[id].operation.value.payload) else None
  }

  /** A crash leaves exactly what storage has: the text and the operation survive it if and only if storage has
      them. */
  lemma CrashKeepsIff(y: System, m: Move, id: Id)
    requires Inv(y) && m.event.Crashes?
    ensures Unsaved(Step(y, m).s, id) == Unsaved(y.s, id) <==> StoredText(y.s.disk, id) == Unsaved(y.s, id)
    ensures Unresolved(Step(y, m).s, id) == Unresolved(y.s, id) <==> StoredPayload(y.s.disk, id) == Unresolved(y.s, id)
  {
    hide LocksOk, CreateOk, Parsed, SavedOk;
    WellFormedAt(y.s, id);
  }

  /** Every crash of the run finds the aside's unsaved text in storage. */
  ghost predicate TextBacked(y: System, moves: seq<Move>, id: Id)
    decreases |moves|
  {
    moves == []
    || ((moves[0].event.Crashes? ==> StoredText(y.s.disk, id) == Unsaved(y.s, id)) && TextBacked(Step(y, moves[0]), moves[1..], id))
  }

  /** Every crash of the run finds the aside's operation in storage. */
  ghost predicate OperationBacked(y: System, moves: seq<Move>, id: Id)
    decreases |moves|
  {
    moves == []
    || ((moves[0].event.Crashes? ==> StoredPayload(y.s.disk, id) == Unresolved(y.s, id))
        && OperationBacked(Step(y, moves[0]), moves[1..], id))
  }

  lemma UnsavedAcrossStep(s: State, t: State, id: Id, l: Licence)
    requires At(s, id) && At(t, id) && KeptAt(s, t, id, l)
    requires Unsaved(s, id).Some? && !l.Typed? && !l.Dropped?
    ensures Unsaved(t, id) == Unsaved(s, id) || ServerHas(t, id, Unsaved(s, id).value)
  {
    hide SavedOk, ReferenceOk, Parsed;
  }

  lemma UnresolvedAcrossStep(s: State, t: State, id: Id, l: Licence)
    requires At(s, id) && At(t, id) && KeptAt(s, t, id, l)
    requires Unresolved(s, id).Some? && !l.Retired?
    ensures Unresolved(t, id) == Unresolved(s, id)
  {
    hide SavedOk, ReferenceOk, Parsed, DraftOk;
  }

  lemma StepUnsaved(y: System, m: Move, id: Id)
    requires Inv(y)
    ensures
      Unsaved(y.s, id).Some? && LicenceOf(y, m, id) !in {Typed, Dropped} && (m.event.Crashes? ==> StoredText(y.s.disk, id) == Unsaved(y.s, id)) ==>
        Unsaved(Step(y, m).s, id) == Unsaved(y.s, id) || ServerHas(Step(y, m).s, id, Unsaved(y.s, id).value)
    ensures
      Unresolved(y.s, id).Some? && !LicenceOf(y, m, id).Retired? && (m.event.Crashes? ==> StoredPayload(y.s.disk, id) == Unresolved(y.s, id)) ==>
        Unresolved(Step(y, m).s, id) == Unresolved(y.s, id)
  {
    hide At, KeptAt, Wake, Call, Unsaved, Unresolved, ServerHas, LocksOk, CreateOk, StoredText, StoredPayload;
    WellFormedAt(y.s, id);
    if m.event.Crashes? {
      CrashKeepsIff(y, m, id);
    } else {
      StepKeeps(y, m, id);
      var l := LicenceOf(y, m, id);
      if Unsaved(y.s, id).Some? && !l.Typed? && !l.Dropped? { UnsavedAcrossStep(y.s, Step(y, m).s, id, l); }
      if Unresolved(y.s, id).Some? && !l.Retired? { UnresolvedAcrossStep(y.s, Step(y, m).s, id, l); }
    }
  }

  /** Text that is dirty, in conflict or being saved is never lost while crashes find it in storage: until the
      user types over it or explicitly reloads the aside, it is still the local text, or the server's record has
      had exactly that text on the way. */
  lemma {:induction false} UnsavedTextSurvives(y: System, moves: seq<Move>, id: Id)
    requires Inv(y) && Unsaved(y.s, id).Some? && TextBacked(y, moves, id)
    requires Never(y, moves, id, Typed) && Never(y, moves, id, Dropped)
    ensures Unsaved(Run(y, moves).s, id) == Unsaved(y.s, id) || Reaches(y, moves, id, Unsaved(y.s, id).value)
    decreases |moves|
  {
    hide Inv, Step, Unsaved, ServerHas, LicenceOf, StoredText, StoredPayload;
    if moves != [] {
      StepInv(y, moves[0]);
      StepUnsaved(y, moves[0], id);
      var z := Step(y, moves[0]);
      if Unsaved(z.s, id) == Unsaved(y.s, id) { UnsavedTextSurvives(z, moves[1..], id); }
    }
  }

  /** An unresolved operation keeps its request identity, expected revision and text through any number of lost
      answers, reconciles, reads, and crashes that find it in storage, until it is acknowledged or definitely
      rejected. */
  lemma {:induction false} OperationSurvives(y: System, moves: seq<Move>, id: Id)
    requires Inv(y) && Unresolved(y.s, id).Some? && OperationBacked(y, moves, id)
    requires Never(y, moves, id, Retired)
    ensures Unresolved(Run(y, moves).s, id) == Unresolved(y.s, id)
    decreases |moves|
  {
    hide Inv, Step, Unresolved, LicenceOf, StoredText, StoredPayload;
    if moves != [] {
      StepInv(y, moves[0]);
      StepUnsaved(y, moves[0], id);
      OperationSurvives(Step(y, moves[0]), moves[1..], id);
    }
  }

  // ----- Storage

  /** Storage is up to date after every run whose writes it takes. */
  lemma {:induction false} RunDurable(y: System, moves: seq<Move>)
    requires Inv(y) && Durable(y.s) && Writes(moves)
    ensures Inv(Run(y, moves)) && Durable(Run(y, moves).s)
    decreases |moves|
  {
    hide Inv, Step, Durable;
    if moves != [] {
      StepInv(y, moves[0]);
      StepDurable(y, moves[0]);
      RunDurable(Step(y, moves[0]), moves[1..]);
    }
  }

  lemma Sane(y: System)
    requires Inv(y)
    ensures WF(y.s)
  {
  }

  lemma DurableBacks(s: State, id: Id)
    requires WF(s) && Durable(s)
    ensures StoredText(s.disk, id) == Unsaved(s, id) && StoredPayload(s.disk, id) == Unresolved(s, id)
    ensures StoredIntent(s.disk) == Unproven(s)
  {
    hide CreateOk, Parsed, SavedOk, ReferenceOk, StoredIntent, Unproven;
    WellFormedAt(s, id);
    assert DurableAt(s, id);
    DurableCreate(s, id);
  }

  lemma DurableCreate(s: State, id: Id)
    requires CreateOk(s) && DurableAt(s, id)
    ensures StoredIntent(s.disk) == Unproven(s)
  {
  }

  const HELD := Record(0, Source(Conversation, 0), "", Lifecycle.Open, 1)

  function Clean(): System {
    System(State(map[0 := Draft(HELD, "", false, false, false, 0, None, false)], map[0 := HELD], map[], {}, {}, map[0 := 1], Some(0), 1, 0, 0,
                 None, false, false, None), map[], 0)
  }

  /** Concretely: storage refuses the write of an edit, the page dies, and the text is gone; nothing typed over
      it, nothing reloaded it, and the server never had it. */
  lemma LostOverStaleStorage()
    ensures
      var y := Clean();
      var edit, crash := Move(Edits(0, "text"), true, false), Move(Crashes, true, true);
      var z := Step(y, edit);
      && Inv(y) && Durable(y.s) && Unsaved(z.s, 0) == Some("text") && StoredText(z.s.disk, 0) == None
      && Never(z, [crash], 0, Typed) && Never(z, [crash], 0, Dropped)
      && Unsaved(Run(z, [crash]).s, 0) == None && !Reaches(z, [crash], 0, "text")
  {
    var crash := Move(Crashes, true, true);
    var z := Step(Clean(), Move(Edits(0, "text"), true, false));
    assert [crash][1..] == [];
    assert Run(z, [crash]) == Step(z, crash);
  }

  // ----- Creation

  datatype Intent = Intent(requestId: Token, target: Target, draft: string)

  /** A creation that may have been committed: in flight, or answered by nothing definite. */
  function Unproven(s: State): Option<Intent> {
    if s.pendingCreate.Some? && (s.creating || s.pendingCreate.value.uncertain)
    then Some(Intent(s.pendingCreate.value.requestId, s.pendingCreate.value.target, s.pendingCreate.value.draft))
    else None
  }

  /** The move answers the request of the creation, with its record or with a definite rejection. */
  ghost predicate Settles(y: System, m: Move) {
    && m.event.Answers? && m.event.k in y.tasks && y.tasks[m.event.k].Creating?
    && var t := y.tasks[m.event.k];
    && (m.event.response.Rejected? || m.event.response.Conflicted?
        || (m.event.response.Body? && AcknowledgesCreate(m.event.response.record, t.pending)))
  }

  ghost predicate SettlesNever(y: System, moves: seq<Move>)
    decreases |moves|
  {
    moves == [] || (!Settles(y, moves[0]) && SettlesNever(Step(y, moves[0]), moves[1..]))
  }

  lemma ReplyUnproven(s: State, t: Task, response: Response, allowed: bool, w: bool)
    requires CreateOk(s) && t.Creating? && TaskOk(s, t)
    requires !response.Rejected? && !response.Conflicted?
    requires response.Body? ==> !AcknowledgesCreate(response.record, t.pending)
    ensures Unproven(CreateReply(s, t, response, allowed, w).0) == Unproven(s)
  {
    hide Publish, Persist, ValidText, Merge, Admissible, Consistent, RetainReference, Created, AcknowledgesCreate;
  }

  lemma CallUnproven(s: State, m: Move)
    requires CreateOk(s) && Unproven(s).Some?
    ensures Unproven(Call(s, m).0) == Unproven(s)
  {
    hide Publish, Edit, SaveGo, SetStateGo, Reconcile, OpenAside, Refresh, LockTurn;
    match m.event
    case Edits(target, text) => EditFramed(s, target, text, m.allowed, m.w);
    case Saves(target, token) => SaveGoTurn(s, target, token, m.allowed, m.w);
    case Sets(target, lifecycle, token) => SetStateGoTurn(s, target, lifecycle, token, m.allowed, m.w);
    case Reconciles(target) => ReconcileUnproven(s, target, m.allowed, m.w);
    case Opens(target, refresh) => OpenFramed(s, target, refresh, m.allowed, m.w);
    case Refreshes(revalidate) => RefreshFramed(s, revalidate, m.allowed, m.w);
    case Creates(target, text, token, canCreate) => assert !MayCreate(s, m.allowed, canCreate);
    case _ =>
  }

  lemma ReconcileUnproven(s: State, id: Id, allowed: bool, w: bool)
    ensures Unproven(Reconcile(s, id, allowed, w).0) == Unproven(s)
  {
    hide Publish;
  }

  lemma WakeUnproven(s: State, t: Task, m: Move)
    requires CreateOk(s) && TaskOk(s, t) && Wake(s, t, m).Some?
    requires m.event.Answers? && t.Creating? ==>
      && !m.event.response.Rejected? && !m.event.response.Conflicted?
      && (m.event.response.Body? ==> !AcknowledgesCreate(m.event.response.record, t.pending))
    ensures Unproven(Wake(s, t, m).value.0) == Unproven(s)
  {
    hide Publish, ReadFinish, PerformReply, CreateReply, ReferenceReply, ListReply, Resume, Owns, LockTurn, CreateOk;
    match m.event
    case Answers(_, response) =>
      match t {
        case Reading(_, _, _, _, _) => ReadFramed(s, t, response, m.allowed, m.w);
        case Performing(target, op) => PerformReplyTurn(s, target, op, response, m.allowed, m.w);
        case Creating(_, _) => ReplyUnproven(s, t, response, m.allowed, m.w);
        case Referencing(_, _) => ReferenceFramed(s, t, response, m.allowed, m.w);
        case _ =>
      }
    case Lists(_, items) => ListFramed(s, t, items, m.allowed, m.w);
    case Continues(_, token) => ResumeUnproven(s, t, token, m);
    case _ =>
  }

  lemma ResumeUnproven(s: State, t: Task, token: Token, m: Move)
    requires t.Resuming?
    ensures Unproven(Resume(s, t.ok, t.after, token, m.allowed, m.w).0) == Unproven(s)
  {
    hide SaveGo, SetStateGo, Finish, LockTurn;
    match t.after
    case Nothing =>
    case ThenSave(target, _) => SaveGoTurn(s, target, token, m.allowed, m.w);
    case ThenSetState(target, lifecycle) => SetStateGoTurn(s, target, lifecycle, token, m.allowed, m.w);
    case ThenFinish(target, op, acknowledged, locked) => FinishTurn(s, target, op, acknowledged, locked, m.w);
  }

  lemma StepUnproven(y: System, m: Move)
    requires Inv(y) && Unproven(y.s).Some? && !Settles(y, m)
    requires m.event.Crashes? ==> StoredIntent(y.s.disk) == Unproven(y.s)
    ensures Unproven(Step(y, m).s) == Unproven(y.s)
  {
    hide At, Wake, Call, CreateOk, AcknowledgesCreate, Unproven, StoredIntent;
    if m.event.Crashes? {
      CrashKeepsCreateIff(y.s);
    } else if Woken(m.event).Some? {
      var k := Woken(m.event).value;
      if k in y.tasks && Wake(y.s, y.tasks[k], m).Some? { WakeUnproven(y.s, y.tasks[k], m); }
    } else {
      CallUnproven(y.s, m);
    }
  }

  /** The creation that the next page would find in storage, as one of unknown outcome. */
  function StoredIntent(disk: Option<Persisted>): Option<Intent> {
    var p := StoredCreate(disk);
    if p.Some? && p.value.uncertain then Some(Intent(p.value.requestId, p.value.target, p.value.draft)) else None
  }

  lemma CrashKeepsCreateIff(s: State)
    requires CreateOk(s)
    ensures Unproven(Restore(s.disk)) == Unproven(s) <==> StoredIntent(s.disk) == Unproven(s)
  {
  }

  /** Every crash of the run finds the creation in storage. */
  ghost predicate CreationBacked(y: System, moves: seq<Move>)
    decreases |moves|
  {
    moves == []
    || ((moves[0].event.Crashes? ==> StoredIntent(y.s.disk) == Unproven(y.s)) && CreationBacked(Step(y, moves[0]), moves[1..]))
  }

  /** A creation whose outcome is unknown keeps its request identity, target and text while crashes find it in
      storage, and no call replaces it, until the server acknowledges it or definitely rejects it. */
  lemma {:induction false} CreationSurvives(y: System, moves: seq<Move>)
    requires Inv(y) && Unproven(y.s).Some? && SettlesNever(y, moves) && CreationBacked(y, moves)
    ensures Unproven(Run(y, moves).s) == Unproven(y.s)
    decreases |moves|
  {
    hide Inv, Step, Unproven, Settles, StoredIntent;
    if moves != [] {
      StepInv(y, moves[0]);
      StepUnproven(y, moves[0]);
      CreationSurvives(Step(y, moves[0]), moves[1..]);
    }
  }

  /** Crashes find all of it as long as storage takes the writes. */
  lemma {:induction false} WritesBack(y: System, moves: seq<Move>, id: Id)
    requires Inv(y) && Durable(y.s) && Writes(moves)
    ensures TextBacked(y, moves, id) && OperationBacked(y, moves, id) && CreationBacked(y, moves)
    decreases |moves|
  {
    hide Inv, Step, Durable, Unproven, Unsaved, Unresolved, StoredText, StoredPayload, StoredIntent;
    if moves != [] {
      assert WF(y.s) by { Sane(y); }
      DurableBacks(y.s, id);
      StepInv(y, moves[0]);
      StepDurable(y, moves[0]);
      WritesBack(Step(y, moves[0]), moves[1..], id);
    }
  }
}
