/**
 The draft owner of one aside scope, as values: what each stretch of code between two awaits
 does to the owner's fields. `AsideSession` (the class) is proved against these functions,
 and `AsideInvariants`, `AsideRuns` and `AsideServer` prove what the protocol guarantees.

 Conventions. `allowed` is what the caller's endpoint guard answers during the step. `w` says
 whether browser storage takes the writes of the step. An error is modelled by whether one is
 shown, never by its wording.
 */
module AsideProtocol {
  import opened Wrappers

  type Id = nat
  type Token = nat  // a request identity, a fresh UUID in the source

  const MAX_DRAFT_CHARS := 100000

  predicate ValidText(text: string) {
    |text| <= MAX_DRAFT_CHARS && '\0' !in text
  }

  datatype Lifecycle = Open | Archived | Discarded
  datatype Target = Conversation | Question(form: nat, index: nat)
  /** Everything about an aside that may never change once it was captured. */
  datatype Source = Source(target: Target, capture: nat)
  datatype Record = Record(id: Id, source: Source, draft: string, lifecycle: Lifecycle, revision: nat)

  predicate Parsed(r: Record) {
    r.revision >= 1 && ValidText(r.draft) && (r.revision == 1 ==> r.lifecycle.Open?)
  }

  datatype Payload =
    | SaveDraft(requestId: Token, expectedRevision: nat, text: string)
    | SetState(requestId: Token, expectedRevision: nat, lifecycle: Lifecycle)

  predicate ParsedPayload(p: Payload) {
    p.expectedRevision >= 1 && (p.SaveDraft? ==> ValidText(p.text))
  }

  datatype Operation = Operation(payload: Payload, edit: nat, uncertain: bool)

  datatype Draft = Draft(record: Record, text: string, dirty: bool, conflict: bool, error: bool,
                         edit: nat, operation: Option<Operation>, readError: bool)

  /** The mutable recovery metadata that browser storage keeps, never the captured source. */
  datatype Saved = Saved(revision: nat, draft: string, text: string, edit: nat, conflict: bool,
                         error: bool, readError: bool, operation: Option<Operation>)

  datatype PendingCreate = PendingCreate(requestId: Token, target: Target, draft: string,
                                         uncertain: bool, error: bool)

  datatype Persisted = Persisted(drafts: map<Id, Saved>, pendingCreate: Option<PendingCreate>,
                                 createRejected: bool, selected: Option<Id>)

  datatype State = State(
    drafts: map<Id, Draft>,
    references: map<Id, Record>,
    restored: map<Id, Saved>,
    stale: set<Id>,
    mutations: set<Id>,
    asides: map<Id, nat>,          // listed asides, with the revision of their summary
    selected: Option<Id>,
    selectionRevision: nat,
    reading: nat,
    accessGeneration: nat,
    pendingCreate: Option<PendingCreate>,
    creating: bool,
    createRejected: bool,
    disk: Option<Persisted>)

  /** What a request comes back with. `Rejected` carries a status and code that the source
      accepts as proof that nothing was committed; every other failure is `Unknown`. */
  datatype Response = Body(record: Record) | Conflicted | Rejected | Unknown

  /** The codes that each status may carry as proof that nothing was committed. */
  function PrecommitCodes(status: nat): set<string> {
    if status == 400 then {"aside-input", "aside-invalid"}
    else if status == 404 then {"aside-missing", "aside-not-found", "aside-question-missing", "aside-source-not-found"}
    else if status == 405 then {"aside-method-not-allowed"}
    else if status == 409 then {"aside-conflict", "aside-source-changed", "aside-source-identity", "aside-source-not-ready",
                                "aside-source-binding", "aside-question-source", "aside-source-invalid", "aside-source-unavailable"}
    else if status == 413 then {"aside-input"}
    else if status == 429 then {"aside-limit"}
    else {}
  }

  /** What an error response amounts to. Lost access, server failures and interrupted requests prove
      nothing: the write may have been committed before the route noticed. */
  function ErrorResponse(status: nat, code: string): (r: Response)
    ensures r.Conflicted? <==> status == 409 && code == "aside-conflict"
    ensures status >= 500 || status == 401 || status == 403 || code == "aside-interrupted" ==> r.Unknown?
    ensures !r.Body?
  {
    if code !in PrecommitCodes(status) then Unknown
    else if status == 409 && code == "aside-conflict" then Conflicted else Rejected
  }

  /** What runs after an awaited read. */
  datatype After =
    | Nothing
    | ThenSave(id: Id, edit: Option<nat>)
    | ThenSetState(id: Id, lifecycle: Lifecycle)
    | ThenFinish(id: Id, op: Operation, acknowledged: Option<nat>, locked: bool)

  /** A suspended call: what it awaits, with the locals it captured. */
  datatype Task =
    | Reading(id: Id, discard: bool, generation: nat, edit: Option<nat>, after: After)
    | Resuming(ok: bool, after: After)
    | Performing(id: Id, op: Operation)
    | Creating(pending: PendingCreate, selectionRevision: nat)
    | Listing(reading: nat, generation: nat, revalidate: bool)
    | Referencing(id: Id, generation: nat)

  // ----- Small questions about the state

  function OpToken(d: Draft): Option<Token> {
    if d.operation.Some? then Some(d.operation.value.payload.requestId) else None
  }

  /** A draft that must survive a reload of the page. */
  predicate Recovery(d: Draft) {
    d.dirty || d.conflict || d.operation.Some? || d.error || d.readError
  }

  function EditOf(s: State, id: Id): Option<nat> {
    if id in s.drafts then Some(s.drafts[id].edit) else None
  }

  predicate ReadCurrent(s: State, generation: nat, allowed: bool) {
    generation == s.accessGeneration && allowed
  }

  /** A parsed response belongs to the requested aside and to its known source. */
  predicate Admissible(s: State, r: Record, id: Option<Id>) {
    && Parsed(r)
    && (id.Some? ==> r.id == id.value)
    && (r.id in s.references ==> s.references[r.id].source == r.source)
  }

  predicate SameContents(a: Record, b: Record) {
    a.draft == b.draft && a.lifecycle == b.lifecycle
  }

  // ----- Persistence

  function Keep(d: Draft): Saved {
    Saved(d.record.revision, d.record.draft, d.text, d.edit, d.conflict, d.error, d.readError, d.operation)
  }

  function Persist(s: State): (p: Persisted)
    ensures p.pendingCreate == s.pendingCreate && p.createRejected == s.createRejected
  {
    Persisted(
      map id | id in s.drafts.Keys + s.restored.Keys
               && (id in s.restored || (id in s.drafts && Recovery(s.drafts[id])))
        :: if id in s.drafts && Recovery(s.drafts[id]) then Keep(s.drafts[id]) else s.restored[id],
      s.pendingCreate, s.createRejected, s.selected)
  }

  /** Storage is rewritten after every change, and cleared once nothing needs recovery. */
  function Publish(s: State, w: bool): (t: State)
    ensures t == s.(disk := t.disk)
    ensures t.disk == s.disk || t.disk.None? || t.disk == Some(Persist(s))
  {
    if !w then s
    else
      var p := Persist(s);
      s.(disk := if p.drafts == map[] && p.pendingCreate.None? then None else Some(p))
  }

  predicate SavedOk(d: Saved) {
    && d.revision >= 1 && ValidText(d.text) && ValidText(d.draft)
    && (d.operation.Some? ==>
          && d.operation.value.edit <= d.edit
          && ParsedPayload(d.operation.value.payload)
          && d.operation.value.payload.expectedRevision <= d.revision)
  }

  /** An interrupted operation comes back with an unknown outcome. */
  function Revive(d: Saved): Saved {
    if d.operation.Some?
    then d.(operation := Some(d.operation.value.(uncertain := true)), error := true)
    else d
  }

  /** Only a recorded definite rejection remains replaceable. */
  function ReviveCreate(p: PendingCreate, rejected: bool): PendingCreate {
    p.(uncertain := !(rejected && !p.uncertain && p.error), error := true)
  }

  /** What storage holds, without the entries that every page skips. */
  function Readable(disk: Option<Persisted>): Option<Persisted> {
    if disk.None? then None
    else
      var p := disk.value;
      Some(p.(drafts := map id | id in p.drafts && SavedOk(p.drafts[id]) :: p.drafts[id],
              pendingCreate := if p.pendingCreate.Some? && ValidText(p.pendingCreate.value.draft) then p.pendingCreate else None))
  }

  /** A new page: only what storage holds survives. */
  function Restore(disk: Option<Persisted>): State {
    var empty := State(map[], map[], map[], {}, {}, map[], None, 0, 0, 0, None, false, false, Readable(disk));
    if disk.None? then empty
    else
      var p := disk.value;
      var restored := map id | id in p.drafts && SavedOk(p.drafts[id]) :: Revive(p.drafts[id]);
      var pending := if p.pendingCreate.Some? && ValidText(p.pendingCreate.value.draft)
                     then Some(ReviveCreate(p.pendingCreate.value, p.createRejected)) else None;
      empty.(restored := restored,
             pendingCreate := pending,
             createRejected := pending.Some? && p.createRejected,
             selected := if p.selected.Some? && p.selected.value in restored then p.selected else None)
  }

  // ----- Reading records

  function PutDraft(s: State, id: Id, d: Draft, w: bool): State {
    Publish(s.(drafts := s.drafts[id := d]), w)
  }

  /** Summaries only move forward. */
  function Summarized(s: State, r: Record): (t: State)
    ensures t == s.(asides := t.asides)
  {
    s.(asides := s.asides[r.id := if r.id in s.asides && s.asides[r.id] > r.revision
                                  then s.asides[r.id] else r.revision])
  }

  predicate Consistent(s: State, r: Record) {
    r.id in s.references && s.references[r.id].revision == r.revision ==> SameContents(s.references[r.id], r)
  }

  function RetainReference(s: State, r: Record): (t: State)
    ensures t == s.(references := t.references)
  {
    if r.id !in s.references || s.references[r.id].revision < r.revision
    then s.(references := s.references[r.id := r]) else s
  }

  /** A read satisfies a stale mark only up to its own revision. */
  function ConfirmRead(s: State, r: Record): (t: State)
    ensures t == s.(stale := t.stale)
  {
    if && r.id in s.drafts && r.revision >= s.drafts[r.id].record.revision
       && (r.id in s.asides ==> r.revision >= s.asides[r.id])
    then s.(stale := s.stale - {r.id}) else s
  }

  /** Unsaved text, a conflict and an unresolved save all pin the local text. */
  predicate Pinned(d: Draft) {
    d.dirty || d.conflict || (d.operation.Some? && d.operation.value.payload.SaveDraft?)
  }

  predicate PinnedSaved(d: Saved) {
    d.text != d.draft || d.conflict || (d.operation.Some? && d.operation.value.payload.SaveDraft?)
  }

  /** The draft that a restored entry becomes once its record was read. */
  function Rejoin(d: Saved, r: Record): (e: Draft)
    ensures e.record == r && e.operation == d.operation
  {
    var text := if PinnedSaved(d) then d.text else r.draft;
    Draft(r, text, text != r.draft,
          d.conflict || (d.operation.None? && d.text != d.draft && r.revision > d.revision),
          d.error, d.edit, d.operation, false)
  }

  function Advance(d: Draft, r: Record): (e: Draft)
    ensures e.record == r && e.operation == d.operation
  {
    var text := if Pinned(d) then d.text else r.draft;
    d.(record := r, text := text, dirty := text != r.draft, readError := false,
       conflict := d.conflict || (d.operation.None? && d.dirty))
  }

  function FreshDraft(r: Record, edit: nat): (e: Draft)
    ensures e.record == r && e.operation.None?
  {
    Draft(r, r.draft, false, false, false, edit, None, false)
  }

  /** Show a draft of a record, which settles any restored entry of it. */
  function Install(s: State, d: Draft, w: bool): State {
    var id := d.record.id;
    Publish(Summarized(s.(drafts := s.drafts[id := d], restored := s.restored - {id}), d.record), w)
  }

  /** Take a record in. The second component is false when the source throws; the reference
      may already have been retained by then. */
  function Merge(s: State, r: Record, w: bool): (State, bool) {
    if !Consistent(s, r) then (s, false)
    else
      var s := RetainReference(s, r);
      if r.id in s.restored then
        if r.revision < s.restored[r.id].revision then (s, false)
        else
          (Install(s, Rejoin(s.restored[r.id], r), w), true)
      else if r.id !in s.drafts then
        (Install(s, FreshDraft(r, 0), w), true)
      else
        var d := s.drafts[r.id];
        if d.record.revision > r.revision then (s, true)
        else if d.record.revision == r.revision then
          if !SameContents(d.record, r) then (s, false)
          else if d.readError then (PutDraft(s, r.id, d.(readError := false), w), true)
          else (s, true)
        else
          (Install(s, Advance(d, r), w), true)
  }

  function ReadBegin(s: State, id: Id, discard: bool, after: After, allowed: bool): Task {
    if allowed then Reading(id, discard, s.accessGeneration, EditOf(s, id), after)
    else Resuming(false, after)
  }

  /** An explicit reload may replace the text: nothing is unresolved and no edit came after it. */
  predicate MayDiscard(s: State, t: Task, r: Record)
    requires t.Reading?
  {
    && t.discard && t.id !in s.restored && EditOf(s, t.id) == t.edit
    && (t.id in s.drafts ==> s.drafts[t.id].operation.None? && r.revision >= s.drafts[t.id].record.revision)
  }

  function ReadFailed(s: State, id: Id, w: bool): State {
    if id in s.drafts then PutDraft(s, id, s.drafts[id].(readError := true), w) else Publish(s, w)
  }

  /** The rest of a read once its response is there, and what it answers its caller. */
  function ReadFinish(s: State, t: Task, response: Response, allowed: bool, w: bool): (State, bool)
    requires t.Reading?
  {
    if !ReadCurrent(s, t.generation, allowed) then (s, false)
    else if !(response.Body? && Admissible(s, response.record, Some(t.id))) then (ReadFailed(s, t.id, w), false)
    else
      var r := response.record;
      if MayDiscard(s, t, r) then
        if !Consistent(s, r) then (ReadFailed(s, t.id, w), false)
        else
          var edit := (if t.edit.Some? then t.edit.value else 0) + 1;
          var s1 := ConfirmRead(Install(RetainReference(s, r), FreshDraft(r, edit), w), r);
          (s1, t.id !in s1.stale)
      else
        var (s1, ok) := Merge(s, r, w);
        if !ok then (ReadFailed(s1, t.id, w), false)
        else
          var s2 := ConfirmRead(Publish(s1, w), r);
          (s2, t.id !in s2.stale)
  }

  // ----- Editing and saving

  function Edit(s: State, id: Id, text: string, allowed: bool, w: bool): State {
    if !allowed || id !in s.drafts || !s.drafts[id].record.lifecycle.Open? then s
    else
      var d := s.drafts[id];
      if !ValidText(text) then PutDraft(s, id, d.(error := true), w)
      else PutDraft(s, id, d.(text := text, edit := d.edit + 1, dirty := text != d.record.draft,
                              error := (d.operation.Some? || d.conflict) && d.error), w)
  }

  /** Take the mutation lock and send. */
  function PerformBegin(s: State, id: Id, op: Operation): (State, Option<Task>) {
    if id in s.mutations then (s, None)
    else (s.(mutations := s.mutations + {id}), Some(Performing(id, op)))
  }

  predicate MaySave(s: State, id: Id, allowed: bool) {
    && allowed && id !in s.mutations && id in s.drafts
    && s.drafts[id].dirty && s.drafts[id].operation.None? && !s.drafts[id].conflict
    && s.drafts[id].record.lifecycle.Open?
  }

  function SaveGo(s: State, id: Id, token: Token, allowed: bool, w: bool): (State, Option<Task>) {
    if !MaySave(s, id, allowed) then (s, None)
    else
      var d := s.drafts[id];
      var op := Operation(SaveDraft(token, d.record.revision, d.text), d.edit, false);
      PerformBegin(PutDraft(s, id, d.(operation := Some(op), error := false), w), id, op)
  }

  function Save(s: State, id: Id, token: Token, allowed: bool, w: bool): (State, Option<Task>) {
    if id in s.stale then (s, Some(ReadBegin(s, id, false, ThenSave(id, EditOf(s, id)), allowed)))
    else SaveGo(s, id, token, allowed, w)
  }

  predicate MaySetState(s: State, id: Id, lifecycle: Lifecycle, allowed: bool) {
    && allowed && id !in s.mutations && id in s.drafts
    && s.drafts[id].operation.None? && !s.drafts[id].conflict
    && !s.drafts[id].record.lifecycle.Discarded? && s.drafts[id].record.lifecycle != lifecycle
  }

  function SetStateGo(s: State, id: Id, lifecycle: Lifecycle, token: Token, allowed: bool, w: bool): (State, Option<Task>) {
    if !MaySetState(s, id, lifecycle, allowed) then (s, None)
    else
      var d := s.drafts[id];
      var op := Operation(SetState(token, d.record.revision, lifecycle), d.edit, false);
      PerformBegin(PutDraft(s, id, d.(operation := Some(op), error := false), w), id, op)
  }

  function SetLifecycle(s: State, id: Id, lifecycle: Lifecycle, token: Token, allowed: bool, w: bool): (State, Option<Task>) {
    if id in s.stale then (s, Some(ReadBegin(s, id, false, ThenSetState(id, lifecycle), allowed)))
    else SetStateGo(s, id, lifecycle, token, allowed, w)
  }

  /** Send the original operation again. */
  function Reconcile(s: State, id: Id, allowed: bool, w: bool): (State, Option<Task>) {
    if !allowed || id !in s.drafts || s.drafts[id].operation.None? || id in s.mutations then (s, None)
    else
      var d := s.drafts[id];
      var op := d.operation.value;
      PerformBegin(PutDraft(s, id, d.(operation := Some(op.(uncertain := false)), error := false), w), id, op)
  }

  function Reload(s: State, id: Id, allowed: bool): Option<Task> {
    if id in s.drafts && s.drafts[id].operation.Some? then None
    else Some(ReadBegin(s, id, true, Nothing, allowed))
  }

  predicate Acknowledges(r: Record, p: Payload) {
    && r.revision == p.expectedRevision + 1
    && (match p case SaveDraft(_, _, text) => r.draft == text case SetState(_, _, state) => r.lifecycle == state)
  }

  function Unlock(s: State, id: Id, locked: bool): (t: State)
    ensures t == s.(mutations := t.mutations)
  {
    if locked then s.(mutations := s.mutations - {id}) else s
  }

  predicate HoldsOp(s: State, id: Id, op: Operation) {
    id in s.drafts && OpToken(s.drafts[id]) == Some(op.payload.requestId)
  }

  /** The end of an operation: unlock, then retire it if it was acknowledged. */
  function Finish(s: State, id: Id, op: Operation, acknowledged: Option<nat>, locked: bool, w: bool): State {
    var s := Unlock(s, id, locked);
    if acknowledged.None? || id !in s.drafts then s
    else
      var d := s.drafts[id];
      if !HoldsOp(s, id, op) then Publish(s, w)
      else PutDraft(s, id, d.(operation := None,
                              conflict := d.conflict || (d.record.revision > acknowledged.value && d.dirty)), w)
  }

  /** A confirmed write: keep what was typed since, and never step back from a newer record. */
  function Acknowledge(d: Draft, op: Operation, r: Record): (e: Draft)
    ensures e.operation == d.operation && e.edit == d.edit
  {
    var latest := if d.record.revision > r.revision then d.record else r;
    var text := if Recovery(d) || d.edit != op.edit then d.text else latest.draft;
    d.(record := latest, text := text, dirty := text != latest.draft, error := false,
       conflict := d.conflict || (latest.revision > r.revision && text != latest.draft))
  }

  function PerformReply(s: State, id: Id, op: Operation, response: Response, allowed: bool, w: bool): (State, Option<Task>) {
    if response.Body? && Admissible(s, response.record, Some(id)) && Acknowledges(response.record, op.payload) then
      var r := response.record;
      var acknowledged := Some(r.revision);
      if !Consistent(s, r) then
        var s1 := if HoldsOp(s, id, op) then PutDraft(s, id, s.drafts[id].(readError := true), w) else s;
        (Finish(s1, id, op, acknowledged, true, w), None)
      else
        var s1 := RetainReference(s, r);
        if id !in s1.drafts then (Finish(s1, id, op, acknowledged, true, w), None)
        else
          var s2 := PutDraft(s1, id, if HoldsOp(s1, id, op) then Acknowledge(s1.drafts[id], op, r) else s1.drafts[id], w);
          var s3 := Publish(Summarized(s2, s2.drafts[id].record), w);
          (s3, Some(ReadBegin(s3, id, false, ThenFinish(id, op, acknowledged, true), allowed)))
    else if !HoldsOp(s, id, op) then (Unlock(s, id, true), None)
    else
      var d := s.drafts[id];
      match response
      case Conflicted =>
        var s1 := PutDraft(Unlock(s, id, true), id, d.(operation := None, conflict := true, error := true), w);
        (s1, Some(ReadBegin(s1, id, false, ThenFinish(id, op, None, false), allowed)))
      case Rejected =>
        (PutDraft(Unlock(s, id, true), id, d.(operation := None, error := true), w), None)
      case _ =>
        (Unlock(PutDraft(s, id, d.(operation := Some(op.(uncertain := true)), error := true), w), id, true), None)
  }

  /** The code after an awaited read. */
  function Resume(s: State, ok: bool, after: After, token: Token, allowed: bool, w: bool): (State, Option<Task>) {
    match after
    case Nothing => (s, None)
    case ThenSave(id, edit) =>
      if ok && EditOf(s, id) == edit then SaveGo(s, id, token, allowed, w) else (s, None)
    case ThenSetState(id, lifecycle) =>
      if ok then SetStateGo(s, id, lifecycle, token, allowed, w) else (s, None)
    case ThenFinish(id, op, acknowledged, locked) => (Finish(s, id, op, acknowledged, locked, w), None)
  }

  // ----- Listing, opening, access

  function OpenAside(s: State, id: Id, refresh: bool, allowed: bool, w: bool): (State, Option<Task>) {
    if !allowed then (s, None)
    else
      var s := Publish(s.(selectionRevision := s.selectionRevision + 1, selected := Some(id)), w);
      (s, if refresh || id !in s.drafts || id in s.stale then Some(ReadBegin(s, id, false, Nothing, allowed)) else None)
  }

  function Refresh(s: State, revalidate: bool, allowed: bool, w: bool): (State, Option<Task>) {
    if !allowed then (s, None)
    else
      var s := Publish(s.(reading := s.reading + 1), w);
      (s, Some(Listing(s.reading, s.accessGeneration, revalidate)))
  }

  datatype Summary = Summary(source: Source, revision: nat)

  /** A list of summaries, by identity, or a failed request. */
  datatype ListResponse = Listed(items: map<Id, Summary>) | ListFailed

  predicate AdmissibleList(s: State, items: map<Id, Summary>) {
    forall id :: id in items ==>
      items[id].revision >= 1 && (id in s.references ==> items[id].source == s.references[id].source)
  }

  /** Newer summaries mark their drafts stale. */
  function WithList(s: State, items: map<Id, Summary>): (t: State)
    ensures t == s.(stale := t.stale, asides := t.asides)
  {
    var newer := set id | id in items && items[id].revision > (if id in s.drafts then s.drafts[id].record.revision else 0);
    s.(stale := s.stale + newer,
       asides := map id | id in s.asides.Keys + items.Keys
                   :: if id in items && !(id in s.asides && s.asides[id] > items[id].revision)
                      then items[id].revision else s.asides[id])
  }

  function ListReply(s: State, t: Task, response: ListResponse, allowed: bool, w: bool): State
    requires t.Listing?
  {
    if t.reading != s.reading || !ReadCurrent(s, t.generation, allowed) then s
    else if response.ListFailed? || !AdmissibleList(s, response.items) then Publish(s, w)
    else Publish(WithList(s, response.items), w)
  }

  function RetireAccess(s: State): State {
    s.(accessGeneration := s.accessGeneration + 1, reading := s.reading + 1)
  }

  /** A shared reference read: the owner learns the record too. */
  function ReferenceReply(s: State, t: Task, response: Response, allowed: bool, w: bool): State
    requires t.Referencing?
  {
    if !ReadCurrent(s, t.generation, allowed) || !response.Body? || !Admissible(s, response.record, Some(t.id)) then s
    else
      var (s1, ok) := Merge(s, response.record, w);
      if ok then ConfirmRead(s1, response.record) else s1
  }

  // ----- Creating

  predicate MayCreate(s: State, allowed: bool, canCreate: bool) {
    && allowed && canCreate && !s.creating
    && (s.pendingCreate.Some? ==> !s.pendingCreate.value.uncertain && s.pendingCreate.value.error)
  }

  function RetryCreate(s: State, allowed: bool, w: bool): (State, Option<Task>) {
    if s.pendingCreate.None? || s.creating || !allowed then (s, None)
    else
      var p := s.pendingCreate.value;
      (Publish(s.(createRejected := false, creating := true,
                  pendingCreate := Some(p.(uncertain := false, error := false))), w),
       Some(Creating(p, s.selectionRevision)))
  }

  function Create(s: State, target: Target, text: string, token: Token, allowed: bool, canCreate: bool, w: bool): (State, Option<Task>) {
    if !MayCreate(s, allowed, canCreate) then (s, None)
    else if !ValidText(text) then (Publish(s, w), None)
    else
      RetryCreate(Publish(s.(createRejected := false,
                             pendingCreate := Some(PendingCreate(token, target, text, false, false))), w), allowed, w)
  }

  function CreateFailed(s: State, p: PendingCreate, rejected: bool, w: bool): State {
    Publish(s.(createRejected := rejected, creating := false,
               pendingCreate := Some(p.(uncertain := !rejected, error := true))), w)
  }

  predicate AcknowledgesCreate(r: Record, p: PendingCreate) {
    r.revision == 1 && r.draft == p.draft && r.source.target == p.target
  }

  /** An acknowledged creation. A replayed receipt may be historical, so it is read again; and
      it selects its aside only if nothing else was opened meanwhile. */
  function Created(s: State, r: Record, again: bool, select: bool, w: bool): State {
    var s1 := if again then s.(stale := s.stale + {r.id}) else ConfirmRead(s, r);
    var s2 := if select then s1.(selected := Some(r.id)) else s1;
    Publish(Summarized(s2, r).(pendingCreate := None, creating := false), w)
  }

  function CreateReply(s: State, t: Task, response: Response, allowed: bool, w: bool): (State, Option<Task>)
    requires t.Creating?
  {
    var p := t.pending;
    if !(response.Body? && Admissible(s, response.record, None) && AcknowledgesCreate(response.record, p)) then
      (CreateFailed(s, p, response.Rejected? || response.Conflicted?, w), None)
    else
      var r := response.record;
      if !Consistent(s, r) then (CreateFailed(s, p, false, w), None)
      else
        var again := p.uncertain || r.id in s.restored;
        var (s1, ok) := if r.id in s.restored then (RetainReference(s, r), true) else Merge(RetainReference(s, r), r, w);
        if !ok then (CreateFailed(s1, p, false, w), None)
        else
          var s2 := Created(s1, r, again, s1.selectionRevision == t.selectionRevision, w);
          (s2, if again || r.id in s2.stale then Some(ReadBegin(s2, r.id, false, Nothing, allowed)) else None)
  }
}
