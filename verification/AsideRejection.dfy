/**
 Definite rejections: when the owner drops an operation that the server definitely rejected, is that the end of
 it? An earlier attempt may still be on its way, and storage may still have the operation.
 */
module AsideRejection {
  import opened Wrappers
  import opened AsideProtocol
  import opened AsideInvariants
  import opened AsideRuns
  import opened AsidePersistence
  import opened AsideProvenance
  import opened AsideServer

  /** Storage has the operation, for the next page to bring back. */
  predicate StillStored(s: State, id: Id, t: Token) {
    && s.disk.Some? && id in s.disk.value.drafts && s.disk.value.drafts[id].operation.Some?
    && s.disk.value.drafts[id].operation.value.payload.requestId == t
  }

  /** The move answers a suspended operation with a definite rejection. */
  predicate Rejecting(y: System, m: Move) {
    m.event.Answers? && m.event.response.Rejected? && m.event.k in y.tasks && y.tasks[m.event.k].Performing?
  }

  lemma TaskIssued(w: World, k: nat)
    requires WorldOk(w) && k in w.y.tasks && w.y.tasks[k].Performing?
    ensures var p := w.y.tasks[k].op.payload; p.requestId in w.issued && w.issued[p.requestId] == (w.y.tasks[k].id, p)
  {
    hide Inv, ServerOk, IssuedOk, From;
    assert SentOk(w, k);
  }

  lemma StepKeepsIssued(w: World, m: Move)
    requires WorldOk(w) && Possible(w, Client(m))
    ensures forall t :: t in w.issued ==> t in Next(w, Client(m)).issued && Next(w, Client(m)).issued[t] == w.issued[t]
  {
    hide Inv, ServerOk, Sends, IssuedOk, SentOk, Step, From;
    NextIs(w, m);
    if Sends(w.y, m).Some? { SendsOk(w, m); }
  }

  /** The operation is gone from memory, and from storage if storage takes the write. */
  lemma RejectedState(y: System, m: Move)
    requires Inv(y) && Rejecting(y, m)
    ensures
      var s := Step(y, m).s;
      var (id, p) := (y.tasks[m.event.k].id, y.tasks[m.event.k].op.payload);
      && id in s.drafts && s.drafts[id].operation.None? && id !in s.restored && At(s, id)
      && p.expectedRevision <= s.drafts[id].record.revision
      && (m.w ==> !StillStored(s, id, p.requestId))
  {
    hide WF, Persist, Call, At;
    var (id, op) := (y.tasks[m.event.k].id, y.tasks[m.event.k].op);
    assert TaskOk(y.s, y.tasks[m.event.k]);
    StepInv(y, m);
    var s := Step(y, m).s;
    assert At(s, id) by { WellFormedAt(s, id); }
    assert At(y.s, id) by { WellFormedAt(y.s, id); }
    RejectedDraft(y.s, id, op, m.allowed, m.w);
    NotRestored(s, id);
  }

  lemma NotRestored(s: State, id: Id)
    requires At(s, id) && id in s.drafts
    ensures id !in s.restored
  {
  }

  lemma RejectedDraft(s: State, id: Id, op: Operation, allowed: bool, w: bool)
    requires At(s, id) && Owns(s, id, op)
    ensures
      var u := PerformReply(s, id, op, Rejected, allowed, w).0;
      && id in u.drafts && u.drafts[id].operation.None? && op.payload.expectedRevision <= u.drafts[id].record.revision
      && (w ==> !StillStored(u, id, op.payload.requestId))
  {
  }

  lemma NothingHeld(x: World, id: Id, t: Token)
    requires From(x.y.s, id, RecordsOf(x.v, id), IssuedFor(x, id))
    requires id in x.y.s.drafts && x.y.s.drafts[id].operation.None? && id !in x.y.s.restored && !StillStored(x.y.s, id, t)
    ensures From(x.y.s, id, RecordsOf(x.v, id), Except(x, id, t))
  {
  }

  lemma OtherHeld(x: World, id: Id, t: Token)
    requires From(x.y.s, id, RecordsOf(x.v, id), IssuedFor(x, id))
    requires t in x.issued && x.issued[t].0 != id
    ensures From(x.y.s, id, RecordsOf(x.v, id), Except(x, id, t))
  {
    assert IssuedFor(x, id) == Except(x, id, t);
  }

  /** What a rejection leaves, in the world. */
  lemma AfterRejection(w: World, m: Move)
    requires WorldOk(w) && Possible(w, Client(m)) && Rejecting(w.y, m)
    ensures
      var x := Next(w, Client(m));
      var (id, p) := (w.y.tasks[m.event.k].id, w.y.tasks[m.event.k].op.payload);
      && WorldOk(x) && p.requestId in x.issued && x.issued[p.requestId] == (id, p)
      && id in x.y.s.drafts && x.y.s.drafts[id].operation.None? && id !in x.y.s.restored && At(x.y.s, id)
      && p.expectedRevision <= x.y.s.drafts[id].record.revision
      && (m.w ==> !StillStored(x.y.s, id, p.requestId))
      && (!StillStored(x.y.s, id, p.requestId) ==> Forgotten(x, p.requestId))
  {
    hide Inv, ServerOk, Sends, IssuedOk, SentOk, Step, From, At;
    var x := Next(w, Client(m));
    var (id, t) := (w.y.tasks[m.event.k].id, w.y.tasks[m.event.k].op.payload.requestId);
    ClientOk(w, m);
    NextIs(w, m);
    RejectedState(w.y, m);
    TaskIssued(w, m.event.k);
    StepKeepsIssued(w, m);
    if !StillStored(x.y.s, id, t) {
      forall i ensures From(x.y.s, i, RecordsOf(x.v, i), Except(x, i, t)) {
        assert From(x.y.s, i, RecordsOf(x.v, i), IssuedFor(x, i));
        if i == id { NothingHeld(x, i, t); } else { OtherHeld(x, i, t); }
      }
    }
  }

  /** After a definite rejection the save is committed in some continuation if and only if it is committed already,
      or an earlier attempt of it, whose answer was lost, is on its way to a server that would take it, or storage
      refused the write and still has the operation, and the server would take it. */
  lemma RejectionIsFinalIff(w: World, m: Move)
    requires WorldOk(w) && Possible(w, Client(m)) && Rejecting(w.y, m)
    ensures
      var x := Next(w, Client(m));
      var (id, p) := (w.y.tasks[m.event.k].id, w.y.tasks[m.event.k].op.payload);
      (exists acts :: CommittedIn(x, acts, p.requestId)) <==>
        Live(x, p.requestId) || (StillStored(x.y.s, id, p.requestId) && Acceptable(x.v, id, p))
  {
    hide Inv, ServerOk, Sends, IssuedOk, Step, From, Forgotten, CommittedIn, Acceptable, Live, StillStored, At;
    var x := Next(w, Client(m));
    var (id, p) := (w.y.tasks[m.event.k].id, w.y.tasks[m.event.k].op.payload);
    AfterRejection(w, m);
    if Live(x, p.requestId) {
      var acts := LiveCommits(x, p.requestId);
    } else if !StillStored(x.y.s, id, p.requestId) {
      DroppedMayCommit(x, p.requestId);
    } else if Acceptable(x.v, id, p) {
      assert p.requestId !in x.v.receipts by { NotLive(x, p.requestId); }
      StoredCommits(x, p.requestId);
    } else {
      assert p.requestId !in x.v.receipts by { NotLive(x, p.requestId); }
      RefusedForGood(x, p.requestId);
      forall acts ensures !CommittedIn(x, acts, p.requestId) { OverInAll(x, acts, p.requestId); }
    }
  }

  lemma NotLive(x: World, t: Token)
    requires !Live(x, t)
    ensures t !in x.v.receipts
  {
  }

  /** What the server would not take now, although it rests on no later revision, it never takes. */
  lemma RefusedForGood(x: World, t: Token)
    requires WorldOk(x) && t in x.issued && t !in x.v.receipts && !Acceptable(x.v, x.issued[t].0, x.issued[t].1)
    ensures Over(x, t)
  {
    hide Inv, ServerOk, From, Forgotten, Acceptable;
    assert IssuedOk(x, t);
  }

  lemma OverInAll(x: World, acts: seq<Act>, t: Token)
    requires WorldOk(x) && Over(x, t)
    ensures !CommittedIn(x, acts, t)
  {
    hide WorldOk, Over, AllPossible;
    if AllPossible(x, acts) { OverForGood(x, acts, t); }
  }

  // ----- An operation that storage brings back

  function By(e: Event): Act {
    Client(Move(e, true, true))
  }

  /** The page dies, the next one reads the aside and reconciles the operation that storage still had. */
  function BroughtBack(x: World, id: Id): seq<Act>
    requires id in x.v.history && x.v.history[id] != []
  {
    [By(Crashes), By(Reads(id)), By(Answers(x.y.next, Body(Current(x.v, id)))), By(Reconciles(id)), Arrives(x.y.next + 2, false)]
  }

  /** A record that is shown at the server's newest revision is the server's newest. */
  lemma ShownIsNewest(x: World, id: Id)
    requires WorldOk(x) && id in x.y.s.drafts && id in x.v.history && x.v.history[id] != []
    requires Current(x.v, id).revision <= x.y.s.drafts[id].record.revision
    ensures x.y.s.drafts[id].record == Current(x.v, id)
  {
    hide IssuedOk, SentOk, ReceiptOk, LocksOk;
    WellFormedAt(x.y.s, id);
    assert From(x.y.s, id, RecordsOf(x.v, id), IssuedFor(x, id));
    RevisionIs(x.v, id, x.y.s.drafts[id].record);
  }

  /** The next page finds the operation, at a revision that is not newer than what this one shows. */
  lemma Reborn(s: State, id: Id, t: Token)
    requires At(s, id) && id in s.drafts && StillStored(s, id, t)
    ensures
      var u := Restore(s.disk);
      && id in u.restored && u.restored[id].revision <= s.drafts[id].record.revision
      && u.restored[id].operation.Some? && u.restored[id].operation.value.payload == s.disk.value.drafts[id].operation.value.payload
      && u.references == map[] && u.stale == {} && u.asides == map[] && u.mutations == {} && u.accessGeneration == 0 && id !in u.drafts
  {
    hide DraftOk, ReferenceOk;
  }

  /** Reading the aside joins the operation with its record again. */
  lemma Rereads(y: System, id: Id, r: Record)
    requires id in y.s.restored && y.s.restored[id].revision <= r.revision && Parsed(r) && r.id == id
    requires y.s.references == map[] && y.s.stale == {} && y.s.asides == map[] && y.s.mutations == {} && id !in y.s.drafts
    requires y.tasks == map[]
    ensures
      var y1 := Step(y, Move(Reads(id), true, true));
      var y2 := Step(y1, Move(Answers(y.next, Body(r)), true, true));
      && y1.next == y.next + 1 && y.next in y1.tasks && y1.tasks[y.next].Reading?
      && y2.tasks == map[] && y2.next == y.next + 2 && y2.s.mutations == {}
      && id in y2.s.drafts && y2.s.drafts[id].operation == y.s.restored[id].operation
  {
    hide Rejoin, Parsed, ReadFinish;
    var t := Reading(id, false, y.s.accessGeneration, EditOf(y.s, id), Nothing);
    ReadRestored(y.s, r, false, Nothing, true);
    ReadFramed(y.s, t, Body(r), true, true);
    assert Step(y, Move(Reads(id), true, true)).tasks == map[y.next := t];
  }

  lemma Resends(w: World, id: Id, p: Payload)
    requires id in w.y.s.drafts && w.y.s.drafts[id].operation.Some? && w.y.s.drafts[id].operation.value.payload == p
    requires w.y.s.mutations == {} && w.y.tasks == map[]
    ensures
      var x := Next(w, By(Reconciles(id)));
      x.v == w.v && x.answers == w.answers && w.y.next in x.sent && x.sent[w.y.next] == (id, p)
  {
    hide Publish;
  }

  /** So it is committed, if the server would take it. */
  lemma StoredCommits(x: World, t: Token)
    requires WorldOk(x) && t in x.issued && t !in x.v.receipts
    requires
      var (id, p) := x.issued[t];
      && StillStored(x.y.s, id, t) && Acceptable(x.v, id, p)
      && id in x.y.s.drafts && p.expectedRevision <= x.y.s.drafts[id].record.revision
    ensures x.issued[t].0 in x.v.history && x.v.history[x.issued[t].0] != []
    ensures CommittedIn(x, BroughtBack(x, x.issued[t].0), t)
  {
    hide Inv, ServerOk, From, IssuedOk, SentOk, Step, Restore, At, DraftOk, Parsed, Possible, Process;
    var (id, p) := x.issued[t];
    var acts := BroughtBack(x, id);
    var r := Current(x.v, id);
    ShownIsNewest(x, id);
    StoredIs(x, t);
    var w1 := Next(x, acts[0]);
    var w2 := Next(w1, acts[1]);
    var w3 := Next(w2, acts[2]);
    var w4 := Next(w3, acts[3]);
    CrashIs(x);
    ReadsAgain(w1, id, r);
    Resends(w3, id, p);
    assert Possible(x, acts[0]) && Possible(w3, acts[3]) by { PossibleAlways(x, id); PossibleAlways(w3, id); }
    assert Possible(w4, acts[4]) by { PossibleArrival(w4, x.y.next + 2); }
    FiveActs(x, acts);
    CommitsReceipt(w4.v, id, p);
  }

  lemma StoredIs(x: World, t: Token)
    requires WorldOk(x) && t in x.issued
    requires var id := x.issued[t].0; StillStored(x.y.s, id, t) && id in x.y.s.drafts
    ensures
      var (id, p) := x.issued[t];
      var u := Restore(x.y.s.disk);
      && id in u.restored && u.restored[id].revision <= x.y.s.drafts[id].record.revision
      && u.restored[id].operation.Some? && u.restored[id].operation.value.payload == p
      && u.references == map[] && u.stale == {} && u.asides == map[] && u.mutations == {} && id !in u.drafts
      && Parsed(x.y.s.drafts[id].record) && x.y.s.drafts[id].record.id == id
      && (forall k :: k in x.answers ==> k < x.y.next) && p.requestId == t
  {
    hide ServerOk, LocksOk, Parsed, SavedOk, ReferenceOk, Restore;
    var (id, p) := x.issued[t];
    WellFormedAt(x.y.s, id);
    Reborn(x.y.s, id, t);
    assert IssuedOk(x, t);
    assert From(x.y.s, id, RecordsOf(x.v, id), IssuedFor(x, id));
    forall k | k in x.answers ensures k < x.y.next { assert SentOk(x, k); }
  }

  lemma CrashIs(x: World)
    ensures
      var w := Next(x, By(Crashes));
      && w.y == System(Restore(x.y.s.disk), map[], x.y.next) && w.v == x.v && w.answers == x.answers
  {
  }

  lemma PossibleAlways(w: World, id: Id)
    ensures Possible(w, By(Crashes)) && Possible(w, By(Reads(id))) && Possible(w, By(Reconciles(id)))
  {
  }

  lemma PossibleArrival(w: World, k: nat)
    requires k in w.sent && k !in w.answers
    ensures Possible(w, Arrives(k, false))
  {
  }

  lemma ReadsAgain(w: World, id: Id, r: Record)
    requires id in w.y.s.restored && w.y.s.restored[id].revision <= r.revision && Parsed(r) && r.id == id
    requires w.y.s.references == map[] && w.y.s.stale == {} && w.y.s.asides == map[] && w.y.s.mutations == {} && id !in w.y.s.drafts
    requires w.y.tasks == map[] && IsServers(w.v, r)
    ensures
      var w1 := Next(w, By(Reads(id)));
      var w2 := Next(w1, By(Answers(w.y.next, Body(r))));
      && Possible(w, By(Reads(id))) && Possible(w1, By(Answers(w.y.next, Body(r))))
      && w2.v == w.v && w2.answers == w.answers && w2.y.tasks == map[] && w2.y.next == w.y.next + 2 && w2.y.s.mutations == {}
      && id in w2.y.s.drafts && w2.y.s.drafts[id].operation == w.y.s.restored[id].operation
  {
    hide Step, Parsed;
    Rereads(w.y, id, r);
  }

  lemma FiveActs(w: World, acts: seq<Act>)
    requires |acts| == 5
    ensures
      var w4 := Next(Next(Next(Next(w, acts[0]), acts[1]), acts[2]), acts[3]);
      && Play(w, acts) == Next(w4, acts[4])
      && (AllPossible(w, acts) <==>
            && Possible(w, acts[0]) && Possible(Next(w, acts[0]), acts[1])
            && Possible(Next(Next(w, acts[0]), acts[1]), acts[2])
            && Possible(Next(Next(Next(w, acts[0]), acts[1]), acts[2]), acts[3])
            && Possible(w4, acts[4]))
  {
    hide Next, Possible;
    PlayFive(w, acts);
    assert acts[5..] == [];
  }
  // ----- A definite rejection that is not final

  const FIRST := Record(0, Source(Conversation, 0), "", Lifecycle.Open, 1)
  const TYPED := State(map[0 := Draft(FIRST, "text", true, false, false, 1, None, false)], map[0 := FIRST],
                       map[], {}, {}, map[0 := 1], Some(0), 1, 0, 0, None, false, false, None)

  function Typing(): World {
    World(System(Publish(TYPED, true), map[], 0), Server(map[0 := [FIRST]], map[], []), map[], map[], map[])
  }


  /** A save, whose answer is lost; a reconcile, which the server refuses; and then the first attempt
      arrives. */
  function LostThenRefused(): seq<Act> {
    [By(Saves(0, 7)), By(Answers(0, Unknown)), By(Reconciles(0)), Arrives(2, true), By(Answers(2, Rejected)), Arrives(0, false)]
  }

  lemma SaveLost(w: World)
    requires w == Typing()
    ensures
      var w1 := Next(w, By(Saves(0, 7)));
      var w2 := Next(w1, By(Answers(0, Unknown)));
      && Possible(w, By(Saves(0, 7))) && Possible(w1, By(Answers(0, Unknown)))
      && 0 in w2.y.s.drafts && w2.y.s.drafts[0].operation == Some(Operation(SaveDraft(7, 1, "text"), 1, true))
      && w2.y.s.mutations == {} && w2.y.tasks == map[] && w2.y.next == 2
      && w2.v == w.v && w2.answers == map[] && w2.sent == map[0 := (0, SaveDraft(7, 1, "text"))]
  {
    hide Persist;
    var w1 := Next(w, By(Saves(0, 7)));
    assert w1.y.tasks == map[0 := Performing(0, Operation(SaveDraft(7, 1, "text"), 1, false))];
    var w2 := Next(w1, By(Answers(0, Unknown)));
    assert w1.y.s.mutations == {0};
    assert w2.y.s.mutations == {};
  }

  const AGAIN := Operation(SaveDraft(7, 1, "text"), 1, true)

  lemma Reconciling(w: World)
    requires 0 in w.y.s.drafts && w.y.s.drafts[0].operation == Some(AGAIN)
    requires w.y.s.mutations == {} && w.y.tasks == map[] && w.y.next == 2
    requires w.answers == map[] && w.sent == map[0 := (0, AGAIN.payload)]
    ensures
      var w2 := Next(Next(w, By(Reconciles(0))), Arrives(2, true));
      && Possible(w, By(Reconciles(0))) && Possible(Next(w, By(Reconciles(0))), Arrives(2, true))
      && 0 in w2.y.s.drafts && OpToken(w2.y.s.drafts[0]) == Some(7)
      && w2.y.tasks == map[2 := Performing(0, AGAIN)] && w2.answers == map[2 := Rejected]
      && w2.v == w.v && 0 in w2.sent && w2.sent[0] == (0, AGAIN.payload)
  {
    hide Publish, Persist;
    var w1 := Next(w, By(Reconciles(0)));
    assert w1.y.tasks == map[2 := Performing(0, AGAIN)];
  }

  lemma Refusing(w: World)
    requires 0 in w.y.s.drafts && OpToken(w.y.s.drafts[0]) == Some(7)
    requires w.y.tasks == map[2 := Performing(0, AGAIN)] && w.answers == map[2 := Rejected]
    requires 0 in w.sent && w.sent[0] == (0, AGAIN.payload)
    ensures
      var w1 := Next(w, By(Answers(2, Rejected)));
      && Possible(w, By(Answers(2, Rejected)))
      && 0 in w1.y.s.drafts && w1.y.s.drafts[0].operation.None?
      && w1.v == w.v && 0 in w1.sent && w1.sent[0] == (0, AGAIN.payload) && 0 !in w1.answers
  {
    hide Publish, Persist;
    var m := Move(Answers(2, Rejected), true, true);
    assert Step(w.y, m).tasks == map[];
  }

  /** The owner drops the operation and shows the text as unsaved, and the server saves it afterwards. */
  lemma RejectionIsNotAlwaysFinal()
    ensures WorldOk(Typing()) && Durable(Typing().y.s)
    ensures AllPossible(Typing(), LostThenRefused())
    ensures
      var before := Play(Typing(), LostThenRefused()[..5]);
      && 0 in before.y.s.drafts && before.y.s.drafts[0].operation.None?
      && 7 !in before.v.receipts
    ensures 7 in Play(Typing(), LostThenRefused()).v.receipts
  {
    hide Step, Possible, Persist, Acceptable, WorldOk, Durable;
    var acts := LostThenRefused();
    var w := Typing();
    TypingOk();
    SaveLost(w);
    var w2 := Next(Next(w, acts[0]), acts[1]);
    Reconciling(w2);
    Refusing(Next(Next(w2, acts[2]), acts[3]));
    var w5 := Next(Next(Next(w2, acts[2]), acts[3]), acts[4]);
    LateArrival(w5);
    PlaySix(w, acts);
  }

  lemma TypingOk()
    ensures WorldOk(Typing()) && Durable(Typing().y.s)
  {
    hide Persist;
    var w := Typing();
    forall id ensures At(w.y.s, id) { PublishAt(TYPED, true, id); }
    forall id ensures DurableAt(w.y.s, id) { Flush(TYPED, id); }
    assert CreateOk(w.y.s) by { PublishFramed(TYPED, TYPED, true); FramedOk(TYPED, w.y.s); }
    assert FIRST in RecordsOf(w.v, 0) by { assert w.v.history[0][0] == FIRST; }
    forall id ensures From(w.y.s, id, RecordsOf(w.v, id), IssuedFor(w, id)) {
      PublishFrom(TYPED, true, id, RecordsOf(w.v, id), IssuedFor(w, id));
    }
  }

  lemma LateArrival(w: World)
    requires w.v == Typing().v && 0 in w.sent && w.sent[0] == (0, SaveDraft(7, 1, "text")) && 0 !in w.answers
    ensures Possible(w, Arrives(0, false)) && 7 in Next(w, Arrives(0, false)).v.receipts && 7 !in w.v.receipts
  {
  }

  lemma PlaySix(w: World, acts: seq<Act>)
    requires |acts| == 6
    ensures
      var w5 := Next(Next(Next(Next(Next(w, acts[0]), acts[1]), acts[2]), acts[3]), acts[4]);
      && Play(w, acts[..5]) == w5 && Play(w, acts) == Next(w5, acts[5])
      && (AllPossible(w, acts) <==>
            && Possible(w, acts[0]) && Possible(Next(w, acts[0]), acts[1])
            && Possible(Next(Next(w, acts[0]), acts[1]), acts[2])
            && Possible(Next(Next(Next(w, acts[0]), acts[1]), acts[2]), acts[3])
            && Possible(Next(Next(Next(Next(w, acts[0]), acts[1]), acts[2]), acts[3]), acts[4])
            && Possible(w5, acts[5]))
  {
    hide Next, Possible;
    PlayFive(w, acts[..5]);
    PlayFive(w, acts);
    var w5 := Next(Next(Next(Next(Next(w, acts[0]), acts[1]), acts[2]), acts[3]), acts[4]);
    assert acts[..5][5..] == [] && acts[5..] == [acts[5]];
    assert Play(w5, [acts[5]]) == Play(Next(w5, acts[5]), []);
    assert AllPossible(w5, [acts[5]]) == Possible(w5, acts[5]) by { assert AllPossible(Next(w5, acts[5]), []); }
  }

  lemma PlayFive(w: World, acts: seq<Act>)
    requires |acts| >= 5
    ensures
      var w5 := Next(Next(Next(Next(Next(w, acts[0]), acts[1]), acts[2]), acts[3]), acts[4]);
      && Play(w, acts) == Play(w5, acts[5..])
      && (AllPossible(w, acts) <==>
            && Possible(w, acts[0]) && Possible(Next(w, acts[0]), acts[1])
            && Possible(Next(Next(w, acts[0]), acts[1]), acts[2])
            && Possible(Next(Next(Next(w, acts[0]), acts[1]), acts[2]), acts[3])
            && Possible(Next(Next(Next(Next(w, acts[0]), acts[1]), acts[2]), acts[3]), acts[4])
            && AllPossible(w5, acts[5..]))
  {
    hide Next, Possible;
    var a1, a2, a3, a4 := acts[1..], acts[2..], acts[3..], acts[4..];
    assert a1[1..] == a2 && a2[1..] == a3 && a3[1..] == a4 && a4[1..] == acts[5..];
    var w1 := Next(w, acts[0]);
    var w2 := Next(w1, a1[0]);
    var w3 := Next(w2, a2[0]);
    var w4 := Next(w3, a3[0]);
    assert Play(w, acts) == Play(w1, a1) == Play(w2, a2) == Play(w3, a3) == Play(w4, a4);
    assert AllPossible(w4, a4) <==> Possible(w4, a4[0]) && AllPossible(Next(w4, a4[0]), acts[5..]);
    assert AllPossible(w3, a3) <==> Possible(w3, a3[0]) && AllPossible(w4, a4);
    assert AllPossible(w2, a2) <==> Possible(w2, a2[0]) && AllPossible(w3, a3);
    assert AllPossible(w1, a1) <==> Possible(w1, a1[0]) && AllPossible(w2, a2);
  }

  // ----- The rejection of a first attempt

  /** A save that the server refuses at once, and storage refuses to take that in. */
  function RefusedTwice(): seq<Act> {
    [By(Saves(0, 7)), Arrives(0, true), Client(Move(Answers(0, Rejected), true, false))]
  }

  const ONCE := Operation(SaveDraft(7, 1, "text"), 1, false)

  lemma SavedOnce(w: World)
    requires w == Typing()
    ensures
      var x := Next(w, By(Saves(0, 7)));
      && Possible(w, By(Saves(0, 7))) && x.v == w.v && x.y.next == 1 && x.answers == map[] && x.y.tasks == map[0 := Performing(0, ONCE)]
      && x.sent == map[0 := (0, ONCE.payload)] && 7 in x.issued && x.issued[7] == (0, ONCE.payload)
      && 0 in x.y.s.drafts && x.y.s.drafts[0].operation == Some(ONCE) && x.y.s.drafts[0].record == FIRST && StillStored(x.y.s, 0, 7)
  {
    var d := Draft(FIRST, "text", true, false, false, 1, Some(ONCE), false);
    var s := w.y.s.(drafts := w.y.s.drafts[0 := d]);
    assert Keep(d).operation == Some(ONCE) && Recovery(d);
    assert 0 in Persist(s).drafts && Persist(s).drafts[0] == Keep(d);
  }

  lemma RefusedAtOnce(w: World)
    requires w.y.next == 1 && w.answers == map[] && w.y.tasks == map[0 := Performing(0, ONCE)] && w.sent == map[0 := (0, ONCE.payload)]
    requires 0 in w.y.s.drafts && w.y.s.drafts[0].operation == Some(ONCE) && StillStored(w.y.s, 0, 7)
    ensures
      var w1 := Next(w, Arrives(0, true));
      var m := Move(Answers(0, Rejected), true, false);
      var x := Next(w1, Client(m));
      && Possible(w, Arrives(0, true)) && Possible(w1, Client(m)) && w1.y == w.y
      && x.v == w.v && x.y.next == 2 && x.issued == w.issued
      && 0 in x.y.s.drafts && x.y.s.drafts[0].operation.None? && x.y.s.drafts[0].record == w.y.s.drafts[0].record && StillStored(x.y.s, 0, 7)
  {
    hide Persist;
    assert Step(w.y, Move(Answers(0, Rejected), true, false)).tasks == map[];
  }

  /** Concretely: the only attempt of a save is definitely rejected, but storage refuses the write. The page shows
      the text as unsaved and dies; the next one finds the operation and reconciles it, and the server commits it. */
  lemma FirstRejectionIsNotAlwaysFinal()
    ensures AllPossible(Typing(), RefusedTwice())
    ensures
      var before := Play(Typing(), RefusedTwice()[..2]);
      0 in before.y.tasks && before.y.tasks[0].Performing? && !before.y.tasks[0].op.uncertain
    ensures
      var x := Play(Typing(), RefusedTwice());
      && 0 in x.y.s.drafts && x.y.s.drafts[0].operation.None? && 7 !in x.v.receipts
      && CommittedIn(x, [By(Crashes), By(Reads(0)), By(Answers(2, Body(FIRST))), By(Reconciles(0)), Arrives(4, false)], 7)
  {
    hide Step, Possible, Persist, WorldOk, CommittedIn;
    var acts := RefusedTwice();
    TypingOk();
    SavedOnce(Typing());
    RefusedAtOnce(Next(Typing(), acts[0]));
    PlayThree(Typing(), acts);
    PlayOk(Typing(), acts);
    StoredCommits(Play(Typing(), acts), 7);
  }

  lemma PlayThree(w: World, acts: seq<Act>)
    requires |acts| == 3
    ensures
      var w2 := Next(Next(w, acts[0]), acts[1]);
      && Play(w, acts[..2]) == w2 && Play(w, acts) == Next(w2, acts[2])
      && (AllPossible(w, acts) <==> Possible(w, acts[0]) && Possible(Next(w, acts[0]), acts[1]) && Possible(w2, acts[2]))
  {
    hide Next, Possible;
    assert acts[..2][1..] == [acts[1]] && acts[..2][1..][1..] == [];
    assert acts[1..][1..] == [acts[2]] && acts[1..][1..][1..] == [];
    var w1 := Next(w, acts[0]);
    assert Play(w, acts[..2]) == Play(w1, [acts[1]]) == Play(Next(w1, acts[1]), []);
    assert Play(w, acts) == Play(w1, acts[1..]) == Play(Next(w1, acts[1]), [acts[2]]);
    assert Play(Next(w1, acts[1]), [acts[2]]) == Play(Next(Next(w1, acts[1]), acts[2]), []);
    assert AllPossible(Next(w1, acts[1]), [acts[2]]) == Possible(Next(w1, acts[1]), acts[2]) by { assert AllPossible(Next(Next(w1, acts[1]), acts[2]), []); }
    assert AllPossible(w1, acts[1..]) <==> Possible(w1, acts[1]) && AllPossible(Next(w1, acts[1]), [acts[2]]);
  }
}
