/**
 Doubt that is real. Whenever a definitely rejected request is in doubt, some run from a new page leads to the same
 rejection, of the same request, resting on the same record, and goes on to commit it.
 */
module AsideReachable {
  import opened Wrappers
  import opened AsideProtocol
  import opened AsideInvariants
  import opened AsideRuns
  import opened AsideProvenance
  import opened AsideDoubt
  import opened AsideServer
  import opened AsideRejection
  import opened AsideFinality

  // ----- What requests ask for

  /** The request asks for something else than what it rests on. */
  predicate Changes(r: Record, p: Payload) {
    && p.expectedRevision == r.revision
    && (match p
        case SaveDraft(_, _, text) => ValidText(text) && text != r.draft
        case SetState(_, _, lifecycle) => lifecycle != r.lifecycle)
  }

  ghost predicate ChangesFor(v: Server, id: Id, p: Payload) {
    && id in v.history && 1 <= p.expectedRevision <= |v.history[id]|
    && Changes(v.history[id][p.expectedRevision - 1], p)
  }

  ghost predicate ChangesOk(w: World) {
    forall t :: t in w.issued ==> ChangesFor(w.v, w.issued[t].0, w.issued[t].1)
  }

  lemma ChangesGrow(v: Server, v': Server, id: Id, p: Payload)
    requires Grows(v, v') && ChangesFor(v, id, p)
    ensures ChangesFor(v', id, p)
  {
    assert v.history[id] <= v'.history[id];
  }

  lemma SendsChange(w: World, m: Move)
    requires WorldOk(w) && ChangesOk(w) && Possible(w, Client(m)) && Sends(w.y, m).Some?
    ensures ChangesFor(w.v, Sends(w.y, m).value.0, Sends(w.y, m).value.1)
  {
    hide Step, LocksOk, StoredAt, ReferenceOk, IssuedOk, SentOk, ReceiptOk, Sends, Parsed, ValidText, ChangesFor;
    StepSends(w.y, m);
    var (id, p) := Sends(w.y, m).value;
    assert From(w.y.s, id, RecordsOf(w.v, id), IssuedFor(w, id));
    WellFormedAt(w.y.s, id);
    if m.event.Reconciles? {
      assert p in IssuedFor(w, id);
    } else {
      RestsChanges(w.v, id, w.y.s.drafts[id], p);
    }
  }

  lemma RestsChanges(v: Server, id: Id, d: Draft, p: Payload)
    requires ServerOk(v) && d.record in RecordsOf(v, id) && DraftOk(d, id) && RestsOn(d, p)
    ensures ChangesFor(v, id, p)
  {
    hide ReceiptOk, Parsed, ValidText;
    RevisionIs(v, id, d.record);
  }

  lemma ChangesNext(w: World, a: Act)
    requires WorldOk(w) && ChangesOk(w) && Possible(w, a)
    ensures ChangesOk(Next(w, a))
  {
    hide WorldOk, Possible, Step, Process, Grows, ChangesFor, Sends;
    var x := Next(w, a);
    if a.Client? {
      NextIs(w, a.m);
      if Sends(w.y, a.m).Some? { SendsChange(w, a.m); }
    } else {
      ServerGrows(w, a);
      forall t | t in x.issued ensures ChangesFor(x.v, x.issued[t].0, x.issued[t].1) {
        ChangesGrow(w.v, x.v, x.issued[t].0, x.issued[t].1);
      }
    }
  }

  lemma ServerGrows(w: World, a: Act)
    requires WorldOk(w) && Possible(w, a) && !a.Client?
    ensures Grows(w.v, Next(w, a).v)
  {
    hide Inv, From, IssuedOk, SentOk, Process, Grows, ServerOk;
    GrowsSelf(w.v);
    match a
    case Arrives(k, _) => ProcessOk(w.v, w.sent[k].0, w.sent[k].1);
    case Others(id, p) => ProcessOk(w.v, id, p);
    case Appears(r) => AppearsGrows(w, r);
  }

  lemma {:induction false} PlayChanges(w: World, acts: seq<Act>)
    requires WorldOk(w) && ChangesOk(w) && AllPossible(w, acts)
    ensures ChangesOk(Play(w, acts))
    decreases |acts|
  {
    hide WorldOk, ChangesOk, Possible, Next;
    if acts != [] {
      ChangesNext(w, acts[0]);
      AsideServer.NextOk(w, acts[0]);
      PlayChanges(Next(w, acts[0]), acts[1..]);
    }
  }

  // ----- A run to the same rejection

  /** A server whose newest record of the aside is this one. */
  predicate Newest(v: Server, id: Id, r: Record) {
    && v.receipts == map[] && v.log == [] && id in v.history && v.history[id] != []
    && v.history[id][|v.history[id]| - 1] == r
    && v.history.Keys == {id}
    && (forall n :: 0 <= n < |v.history[id]| ==> v.history[id][n].id == id && v.history[id][n].revision == n + 1)
  }

  /** The request can be made of the record. */
  predicate Askable(r: Record, p: Payload) {
    && Parsed(r) && Changes(r, p) && !r.lifecycle.Discarded? && (p.SaveDraft? ==> r.lifecycle.Open?)
  }

  function TextOf(r: Record, p: Payload): string {
    if p.SaveDraft? then p.text else r.draft
  }

  function Ask(id: Id, p: Payload): Event {
    if p.SaveDraft? then Saves(id, p.requestId) else Sets(id, p.lifecycle, p.requestId)
  }

  /** The record is read, the text typed, and the request sent. */
  function Asking(id: Id, r: Record, p: Payload): seq<Act> {
    [By(Reads(id)), By(Answers(0, Body(r))), By(Edits(id, TextOf(r, p))), By(Ask(id, p))]
  }

  /** The page shows this record. */
  predicate Shows(y: System, id: Id, r: Record) {
    && id in y.s.drafts && y.s.drafts[id].record == r && y.s.drafts[id].operation.None? && !y.s.drafts[id].conflict
    && id in y.s.references && y.s.references[id] == r && y.s.mutations == {} && y.s.stale == {} && y.tasks == map[]
    && y.s.restored == map[]
  }

  /** The request is on its way as attempt `k`, and nothing else is. */
  predicate Underway(w: World, v: Server, k: nat, id: Id, r: Record, op: Operation) {
    var p := op.payload;
    && w.v == v && w.y.tasks == map[k := Performing(id, op)] && w.y.next == k + 1 && w.y.s.mutations == {id}
    && id in w.y.s.drafts && w.y.s.drafts[id].record == r && OpToken(w.y.s.drafts[id]) == Some(p.requestId)
    && id in w.y.s.references && w.y.s.references[id] == r
    && k in w.sent && w.sent[k] == (id, p) && k !in w.answers && StillStored(w.y.s, id, p.requestId)
  }

  lemma ReadsRecord(w: World, id: Id, r: Record)
    requires w.y == System(Restore(None), map[], 0) && Parsed(r) && r.id == id && IsServers(w.v, r)
    ensures
      var w1 := Next(w, By(Reads(id)));
      var x := Next(w1, By(Answers(0, Body(r))));
      && Possible(w, By(Reads(id))) && Possible(w1, By(Answers(0, Body(r))))
      && x == w.(y := x.y) && x.y.next == 2 && Shows(x.y, id, r) && x.y.s.drafts[id] == FreshDraft(r, 0)
  {
    hide Parsed, Publish;
    var t := Reading(id, false, 0, None, Nothing);
    var w1 := Next(w, By(Reads(id)));
    assert w1.y == System(Restore(None), map[0 := t], 1);
    var s := ReadFinish(w1.y.s, t, Body(r), true, true).0;
    assert Next(w1, By(Answers(0, Body(r)))).y == System(s, map[], 2);
  }

  lemma NewestOk(v: Server, id: Id, r: Record)
    requires Newest(v, id, r)
    ensures ServerOk(v) && IsServers(v, r) && r.id == id
  {
  }

  lemma Types(w: World, id: Id, r: Record, text: string)
    requires Shows(w.y, id, r) && w.y.s.drafts[id] == FreshDraft(r, 0) && ValidText(text)
    ensures
      var a := By(Edits(id, text));
      var x := Next(w, a);
      && Possible(w, a) && x == w.(y := x.y) && x.y.next == w.y.next + 1 && Shows(x.y, id, r)
      && (r.lifecycle.Open? ==> x.y.s.drafts[id].text == text && x.y.s.drafts[id].dirty == (text != r.draft))
  {
    hide Publish, ValidText;
  }

  lemma AsksFor(w: World, id: Id, r: Record, p: Payload) returns (op: Operation)
    requires Shows(w.y, id, r) && Askable(r, p) && Unused(w, p.requestId) && w.answers == map[]
    requires p.SaveDraft? ==> w.y.s.drafts[id].text == p.text && w.y.s.drafts[id].dirty
    ensures
      var a := By(Ask(id, p));
      var x := Next(w, a);
      && Possible(w, a) && x.answers == map[] && op.payload == p && !op.uncertain && Underway(x, w.v, w.y.next, id, r, op)
  {
    hide ValidText, Persist, Parsed;
    var a := By(Ask(id, p));
    var d := w.y.s.drafts[id];
    op := Operation(p, d.edit, false);
    var e := d.(operation := Some(op), error := false);
    var s := PutDraft(w.y.s, id, e, true);
    var x := Next(w, a);
    assert x.y == Spawn(s.(mutations := {id}), map[], w.y.next, Some(Performing(id, op)));
    StoresOperation(w.y.s, id, e);
  }

  /** An operation that is shown is stored. */
  lemma StoresOperation(s: State, id: Id, d: Draft)
    requires d.operation.Some?
    ensures StillStored(PutDraft(s, id, d, true), id, d.operation.value.payload.requestId)
  {
    var p := Persist(s.(drafts := s.drafts[id := d]));
    assert id in p.drafts && p.drafts[id] == Keep(d);
  }

  lemma Asked(v: Server, id: Id, r: Record, p: Payload) returns (op: Operation)
    requires Newest(v, id, r) && Askable(r, p)
    ensures AllPossible(FreshPage(v), Asking(id, r, p))
    ensures
      var x := Play(FreshPage(v), Asking(id, r, p));
      op.payload == p && !op.uncertain && Underway(x, v, 3, id, r, op) && x.answers == map[]
  {
    hide Next, Possible, Shows, Underway, ServerOk, ValidText;
    var acts := Asking(id, r, p);
    var w := FreshPage(v);
    var w1 := Next(w, acts[0]);
    var w2 := Next(w1, acts[1]);
    var w3 := Next(w2, acts[2]);
    var x := Next(w3, acts[3]);
    NewestOk(v, id, r);
    ReadsRecord(w, id, r);
    Types(w2, id, r, TextOf(r, p));
    assert Unused(w3, p.requestId);
    op := AsksFor(w3, id, r, p);
    PlayFour(w, acts);
  }

  lemma PlayFour(w: World, acts: seq<Act>)
    requires |acts| == 4
    ensures
      var x := Next(Next(Next(Next(w, acts[0]), acts[1]), acts[2]), acts[3]);
      && Play(w, acts) == x
      && (AllPossible(w, acts) <==>
            && Possible(w, acts[0]) && Possible(Next(w, acts[0]), acts[1])
            && Possible(Next(Next(w, acts[0]), acts[1]), acts[2])
            && Possible(Next(Next(Next(w, acts[0]), acts[1]), acts[2]), acts[3]))
  {
    hide Next, Possible;
    var a1, a2, a3 := acts[1..], acts[2..], acts[3..];
    assert a1[1..] == a2 && a2[1..] == a3 && a3[1..] == [];
    var w1 := Next(w, acts[0]);
    var w2 := Next(w1, a1[0]);
    var w3 := Next(w2, a2[0]);
    assert Play(w, acts) == Play(w1, a1) == Play(w2, a2) == Play(w3, a3) == Play(Next(w3, a3[0]), []);
    assert AllPossible(w3, a3) <==> Possible(w3, a3[0]) by { assert AllPossible(Next(w3, a3[0]), []); }
    assert AllPossible(w2, a2) <==> Possible(w2, a2[0]) && AllPossible(w3, a3);
    assert AllPossible(w1, a1) <==> Possible(w1, a1[0]) && AllPossible(w2, a2);
  }

  lemma {:induction false} PlayMore(w: World, acts: seq<Act>, more: seq<Act>)
    ensures Play(w, acts + more) == Play(Play(w, acts), more)
    ensures AllPossible(w, acts + more) <==> AllPossible(w, acts) && AllPossible(Play(w, acts), more)
    decreases |acts|
  {
    hide Next, Possible;
    if acts == [] {
      assert acts + more == more;
    } else {
      assert (acts + more)[1..] == acts[1..] + more;
      PlayMore(Next(w, acts[0]), acts[1..], more);
    }
  }

  // ----- The rejection

  /** The answer is lost, the request is sent again, and the server refuses it. */
  function Repeating(id: Id): seq<Act> {
    [By(Answers(3, Unknown)), By(Reconciles(id)), Arrives(5, true)]
  }

  lemma Repeats(w: World, v: Server, id: Id, r: Record, op: Operation) returns (again: Operation)
    requires Underway(w, v, 3, id, r, op) && !op.uncertain && w.answers == map[]
    ensures AllPossible(w, Repeating(id))
    ensures
      var x := Play(w, Repeating(id));
      && again == op.(uncertain := true) && x.answers == map[5 := Rejected] && 3 in x.sent && x.sent[3] == (id, op.payload)
      && Underway(x.(answers := map[]), v, 5, id, r, again)
  {
    again := op.(uncertain := true);
    hide Next, Possible, Underway;
    var acts := Repeating(id);
    Loses(w, v, id, r, op);
    SendsAgain(Next(w, acts[0]), v, id, r, again);
    RefusesAgain(Next(Next(w, acts[0]), acts[1]), v, id, r, again);
    PlayThree(w, acts);
  }

  /** The owner has the operation, in doubt, and nothing is on its way. */
  predicate Waits(w: World, v: Server, id: Id, r: Record, op: Operation) {
    && w.v == v && w.y.tasks == map[] && w.y.next == 5 && w.y.s.mutations == {}
    && id in w.y.s.drafts && w.y.s.drafts[id].record == r && w.y.s.drafts[id].operation == Some(op)
    && id in w.y.s.references && w.y.s.references[id] == r
    && 3 in w.sent && w.sent[3] == (id, op.payload) && w.answers == map[]
  }

  lemma Loses(w: World, v: Server, id: Id, r: Record, op: Operation)
    requires Underway(w, v, 3, id, r, op) && w.answers == map[]
    ensures
      var a := By(Answers(3, Unknown));
      Possible(w, a) && Waits(Next(w, a), v, id, r, op.(uncertain := true))
  {
    hide Publish;
  }

  lemma SendsAgain(w: World, v: Server, id: Id, r: Record, op: Operation)
    requires Waits(w, v, id, r, op)
    ensures
      var a := By(Reconciles(id));
      var x := Next(w, a);
      Possible(w, a) && Underway(x, v, 5, id, r, op) && x.answers == map[] && 3 in x.sent && x.sent[3] == (id, op.payload)
  {
    hide Persist;
    var d := w.y.s.drafts[id];
    var e := d.(operation := Some(op.(uncertain := false)), error := false);
    StoresOperation(w.y.s, id, e);
    var x := Next(w, By(Reconciles(id)));
    assert x.y == Spawn(PutDraft(w.y.s, id, e, true).(mutations := {id}), map[], 5, Some(Performing(id, op)));
  }

  lemma RefusesAgain(w: World, v: Server, id: Id, r: Record, op: Operation)
    requires Underway(w, v, 5, id, r, op) && w.answers == map[] && 3 in w.sent && w.sent[3] == (id, op.payload)
    ensures
      var a := Arrives(5, true);
      var x := Next(w, a);
      && Possible(w, a) && x.answers == map[5 := Rejected] && 3 in x.sent && x.sent[3] == (id, op.payload)
      && Underway(x.(answers := map[]), v, 5, id, r, op)
  {
  }

  /** Attempt `k` of the request is refused, and the owner has yet to learn it. */
  predicate Refused(w: World, v: Server, k: nat, id: Id, r: Record, op: Operation) {
    w.answers == map[k := Rejected] && Underway(w.(answers := map[]), v, k, id, r, op)
  }

  lemma RefusedOnce(w: World, v: Server, id: Id, r: Record, op: Operation)
    requires Underway(w, v, 3, id, r, op) && w.answers == map[]
    ensures AllPossible(w, [Arrives(3, true)]) && Refused(Play(w, [Arrives(3, true)]), v, 3, id, r, op)
  {
    var acts := [Arrives(3, true)];
    assert AllPossible(Next(w, acts[0]), acts[1..]);
    assert Play(w, acts) == Play(Next(w, acts[0]), []);
  }

  /** The owner learns it, and storage takes that in or does not. */
  lemma Learns(w: World, v: Server, k: nat, id: Id, r: Record, op: Operation, taken: bool)
    requires Refused(w, v, k, id, r, op) && WorldOk(w)
    ensures
      var m := Move(Answers(k, Rejected), true, taken);
      var x := Next(w, Client(m));
      && Rejects(w, m) && x.y.s == Step(w.y, m).s && x.v == v && x.answers == w.answers && x.sent == w.sent
      && (StillStored(x.y.s, id, op.payload.requestId) <==> !taken)
  {
    hide WorldOk, Persist, Step;
    var m := Move(Answers(k, Rejected), true, taken);
    AfterRejection(w, m);
    RejectedSendsNothing(w, m);
    NextIs(w, m);
    if !taken { KeepsStored(w.y, m); }
  }

  lemma KeepsStored(y: System, m: Move)
    requires Rejecting(y, m) && !m.w
    ensures Step(y, m).s.disk == y.s.disk
  {
    hide Persist;
  }

  /** The record and the request, as the owner sees them, allow the run. */
  lemma AskableHere(w: World, k: nat)
    requires DoubtOk(w) && ChangesOk(w) && k in w.y.tasks && w.y.tasks[k].Performing?
    requires StillAllowed(w.y.s, w.y.tasks[k].id, w.y.tasks[k].op.payload)
    ensures
      var (id, p) := (w.y.tasks[k].id, w.y.tasks[k].op.payload);
      && Askable(w.y.s.references[id], p) && id in w.v.history && 1 <= p.expectedRevision <= |w.v.history[id]|
      && Newest(Server(map[id := w.v.history[id][..p.expectedRevision]], map[], []), id, w.y.s.references[id])
  {
    hide IssuedOk, SentOk, ReceiptOk, LocksOk, SureAt, AttemptOk, Parsed, ValidText, DraftOk, StoredAt, ReferenceOk, From;
    var (id, p) := (w.y.tasks[k].id, w.y.tasks[k].op.payload);
    HolderLocks(w, k);
    ExpectedHere(w, k);
    WellFormedAt(w.y.s, id);
    assert ChangesFor(w.v, id, p);
  }

  /** To the owner the two rejections look the same: of the same request, first attempt or not, resting on the same
      newest record, with storage the same. */
  predicate Alike(y: System, m: Move, y': System, m': Move)
    requires Rejecting(y, m) && Rejecting(y', m')
  {
    var (t, t') := (y.tasks[m.event.k], y'.tasks[m'.event.k]);
    && t.id == t'.id && t.op.payload == t'.op.payload && t.op.uncertain == t'.op.uncertain
    && (if t.id in y.s.references then t.id in y'.s.references && y'.s.references[t.id] == y.s.references[t.id]
        else t.id !in y'.s.references)
    && (StillStored(Step(y, m).s, t.id, t.op.payload.requestId) <==> StillStored(Step(y', m').s, t.id, t.op.payload.requestId))
  }

  /** A run from a new page leads to such a rejection, and goes on to commit the request. */
  ghost predicate Commits(v: Server, acts: seq<Act>, m': Move, y: System, m: Move)
    requires Rejecting(y, m)
  {
    && ServerOk(v) && AllPossible(FreshPage(v), acts)
    && var w := Play(FreshPage(v), acts);
    var t := y.tasks[m.event.k].op.payload.requestId;
    && Rejects(w, m') && Alike(y, m, w.y, m') && t !in w.v.receipts
    && exists more :: CommittedIn(Next(w, Client(m')), more, t)
  }

  lemma RefusedCommits(v: Server, acts: seq<Act>, k: nat, id: Id, r: Record, op: Operation, y: System, m: Move)
    requires Rejecting(y, m) && InDoubt(y, m) && Newest(v, id, r) && Askable(r, op.payload)
    requires AllPossible(FreshPage(v), acts) && Refused(Play(FreshPage(v), acts), v, k, id, r, op)
    requires y.tasks[m.event.k].id == id && y.tasks[m.event.k].op.payload == op.payload
    requires y.tasks[m.event.k].op.uncertain == op.uncertain && id in y.s.references && y.s.references[id] == r
    requires var w := Play(FreshPage(v), acts); op.uncertain ==> k != 3 && 3 in w.sent && w.sent[3] == (id, op.payload)
    ensures
      var taken := !StillStored(Step(y, m).s, id, op.payload.requestId);
      Commits(v, acts, Move(Answers(k, Rejected), true, taken), y, m)
  {
    hide WorldOk, ServerOk, Step, Next, Possible, CommittedIn, StillStored, StillAllowed, Acceptable, Parsed, Play, AllPossible, Newest,
      Askable, Refused;
    var t := op.payload.requestId;
    var taken := !StillStored(Step(y, m).s, id, t);
    var m' := Move(Answers(k, Rejected), true, taken);
    NewestOk(v, id, r);
    FreshPageOk(v);
    AsideServer.PlayOk(FreshPage(v), acts);
    var w := Play(FreshPage(v), acts);
    Learns(w, v, k, id, r, op, taken);
    RefusedHas(w, v, k, id, r, op);
    LearnedCommits(w, m', k, id, op);
  }

  lemma RefusedHas(w: World, v: Server, k: nat, id: Id, r: Record, op: Operation)
    requires Refused(w, v, k, id, r, op) && Newest(v, id, r) && Askable(r, op.payload)
    ensures w.v == v && v.receipts == map[] && w.y.tasks == map[k := Performing(id, op)] && w.answers == map[k := Rejected]
    ensures id in w.y.s.references && w.y.s.references[id] == r && Acceptable(v, id, op.payload)
  {
    hide Parsed, ValidText, StillStored;
  }

  /** What is refused, and either repeats an attempt or is still stored, is committed afterwards. */
  lemma LearnedCommits(w: World, m: Move, k: nat, id: Id, op: Operation)
    requires WorldOk(w) && Rejects(w, m) && m.event.k == k && w.y.tasks[k] == Performing(id, op) && w.v.receipts == map[]
    requires Acceptable(Next(w, Client(m)).v, id, op.payload)
    requires Next(w, Client(m)).sent == w.sent && Next(w, Client(m)).answers == w.answers && Next(w, Client(m)).v == w.v
    requires op.uncertain ==> 3 in w.sent && w.sent[3] == (id, op.payload) && 3 !in w.answers
    requires op.uncertain || StillStored(Next(w, Client(m)).y.s, id, op.payload.requestId)
    ensures exists more :: CommittedIn(Next(w, Client(m)), more, op.payload.requestId)
  {
    hide WorldOk, Next, CommittedIn, StillStored, Acceptable, Possible;
    var x, t := Next(w, Client(m)), op.payload.requestId;
    if op.uncertain {
      assert Pending(x, t, 3);
      PendingCommits(x, t, 3);
    } else {
      RejectionIsFinalIff(w, m);
    }
  }

  lemma DoubtIsReached(w: World, m: Move) returns (v: Server, acts: seq<Act>, m': Move)
    requires DoubtOk(w) && ChangesOk(w) && Rejects(w, m) && InDoubt(w.y, m)
    ensures Commits(v, acts, m', w.y, m)
  {
    hide DoubtOk, ChangesOk, Step, StillStored, StillAllowed, Underway, Refused, Commits, Newest, Askable, Possible, InDoubt;
    var task := w.y.tasks[m.event.k];
    var (id, p) := (task.id, task.op.payload);
    AllowedIsAllowed(w.y, m);
    AskableHere(w, m.event.k);
    assert id in w.y.s.references by { AllowedIs(w.y.s, id, p); }
    var r := w.y.s.references[id];
    v := Server(map[id := w.v.history[id][..p.expectedRevision]], map[], []);
    var op := Asked(v, id, r, p);
    var x := Play(FreshPage(v), Asking(id, r, p));
    m' := Move(Answers(if task.op.uncertain then 5 else 3, Rejected), true, !StillStored(Step(w.y, m).s, id, p.requestId));
    if task.op.uncertain {
      acts := Asking(id, r, p) + Repeating(id);
      PlayMore(FreshPage(v), Asking(id, r, p), Repeating(id));
      op := Repeats(x, v, id, r, op);
      assert Refused(Play(x, Repeating(id)), v, 5, id, r, op) by { RefusedIs(Play(x, Repeating(id)), v, 5, id, r, op); }
      RefusedCommits(v, acts, 5, id, r, op, w.y, m);
    } else {
      acts := Asking(id, r, p) + [Arrives(3, true)];
      PlayMore(FreshPage(v), Asking(id, r, p), [Arrives(3, true)]);
      RefusedOnce(x, v, id, r, op);
      RefusedCommits(v, acts, 3, id, r, op, w.y, m);
    }
  }

  lemma RefusedIs(w: World, v: Server, k: nat, id: Id, r: Record, op: Operation)
    requires w.answers == map[k := Rejected] && Underway(w.(answers := map[]), v, k, id, r, op)
    ensures Refused(w, v, k, id, r, op)
  {
    hide Underway;
  }

  lemma AllowedIs(s: State, id: Id, p: Payload)
    requires StillAllowed(s, id, p)
    ensures id in s.references
  {
  }

  /** Over every run from a new page: a definitely rejected request is in doubt if and only if some run from a new
      page leads to the same rejection, as the owner sees it, and goes on to commit the request. */
  lemma DoubtIsReachedIff(v: Server, acts: seq<Act>, m: Move)
    requires ServerOk(v) && AllPossible(FreshPage(v), acts) && Rejects(Play(FreshPage(v), acts), m)
    ensures
      var y := Play(FreshPage(v), acts).y;
      InDoubt(y, m) <==> exists v', acts', m' :: Commits(v', acts', m', y, m)
  {
    hide DoubtOk, ServerOk, Step, Play, AllPossible, Possible, InDoubt, Commits, ChangesOk;
    FreshPageDoubt(v);
    PlayDoubt(FreshPage(v), acts);
    var w := Play(FreshPage(v), acts);
    assert WorldOk(FreshPage(v)) by { FreshPageOk(v); }
    assert ChangesOk(FreshPage(v)) by { FreshChanges(v); }
    PlayChanges(FreshPage(v), acts);
    if InDoubt(w.y, m) {
      var v', acts', m' := DoubtIsReached(w, m);
    }
    forall v', acts', m' | Commits(v', acts', m', w.y, m) ensures InDoubt(w.y, m) { CommitsDoubts(v', acts', m', w.y, m); }
  }

  lemma FreshChanges(v: Server)
    ensures ChangesOk(FreshPage(v))
  {
  }

  lemma CommitsDoubts(v: Server, acts: seq<Act>, m': Move, y: System, m: Move)
    requires Rejecting(y, m) && Commits(v, acts, m', y, m)
    ensures InDoubt(y, m)
  {
    hide DoubtOk, ServerOk, Step, Play, AllPossible, Possible, CommittedIn, StillStored;
    FreshPageDoubt(v);
    PlayDoubt(FreshPage(v), acts);
    CommitsInDoubt(Play(FreshPage(v), acts), m');
  }
}
