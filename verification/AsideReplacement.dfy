/**
 Replacing a creation. The owner may create anew once a creation was definitely rejected. What that rejection
 proves, what a new page may still bring back, and what the owner itself can know of it.
 */
module AsideReplacement {
  import opened Wrappers
  import opened AsideProtocol
  import opened AsideInvariants
  import opened AsideRuns
  import opened AsideRecovery
  import opened AsideCreation

  // ----- A creation that was replaced

  ghost function Except(w: World, t: Token): iset<Intent> {
    iset i: Intent | i in Issued(w) && i.requestId != t
  }

  /** The owner holds it nowhere: neither in memory nor in storage. */
  ghost predicate Forgotten(w: World, t: Token) {
    Holds(w.y.s, Except(w, t))
  }

  /** An attempt of it that the server has yet to see. */
  predicate Pending(w: World, t: Token, k: nat) {
    k in w.sent && k !in w.answers && w.sent[k].requestId == t
  }

  ghost predicate Over(w: World, t: Token) {
    t in w.issued && t !in w.made && Forgotten(w, t) && forall k :: !Pending(w, t, k)
  }

  lemma ClientKeepsOver(w: World, m: Move, t: Token)
    requires WorldOk(w) && Possible(w, Client(m)) && Over(w, t)
    ensures Over(Next(w, Client(m)), t)
  {
    hide Inv, Step, Asks, Holds, Next, MadeOk, SentOk;
    var x := Next(w, Client(m));
    NextIs(w, m);
    AsksHeld(w, m);
    AsksWhat(w.y, m);
    assert Asks(w.y, m).Some? ==> Asks(w.y, m).value.requestId != t by { NotAsksOver(w, m, t); }
    MoreHolds(w.y.s, Except(w, t), Except(x, t));
    if m.event.Creates? && Asks(w.y, m).None? {
      NotAsked(w.y, m);
      FramedHolds(w.y.s, x.y.s, Except(x, t));
    } else {
      StepHolds(w.y, m, Except(x, t));
    }
    forall k ensures !Pending(x, t, k) { assert !Pending(w, t, k); }
  }

  lemma NotAsksOver(w: World, m: Move, t: Token)
    requires WorldOk(w) && Possible(w, Client(m)) && Over(w, t)
    ensures Asks(w.y, m).Some? ==> Asks(w.y, m).value.requestId != t
  {
    hide Inv, Step, Asks, MadeOk, SentOk;
    AsksWhat(w.y, m);
  }

  lemma KeepsOver(w: World, a: Act, t: Token)
    requires WorldOk(w) && Possible(w, a) && Over(w, t)
    ensures Over(Next(w, a), t)
  {
    hide Inv, Step, Asks, Holds, MadeOk, SentOk, Fits;
    match a
    case Client(m) => ClientKeepsOver(w, m, t);
    case Arrives(k, refused, r) =>
      assert !Pending(w, t, k);
      forall j ensures !Pending(Next(w, a), t, j) { assert !Pending(w, t, j); }
      assert Except(Next(w, a), t) == Except(w, t);
    case Others(i, r) =>
      forall j ensures !Pending(Next(w, a), t, j) { assert !Pending(w, t, j); }
      assert Except(Next(w, a), t) == Except(w, t);
  }

  lemma {:induction false} OverForGood(w: World, acts: seq<Act>, t: Token)
    requires WorldOk(w) && AllPossible(w, acts) && Over(w, t)
    ensures t !in Play(w, acts).made
    decreases |acts|
  {
    hide WorldOk, Possible, Next, Forgotten, Pending;
    if acts != [] {
      AsideCreation.NextOk(w, acts[0]);
      KeepsOver(w, acts[0], t);
      OverForGood(Next(w, acts[0]), acts[1..], t);
    }
  }

  ghost predicate MadeIn(w: World, acts: seq<Act>, t: Token) {
    AllPossible(w, acts) && t in Play(w, acts).made
  }

  /** There is always an identity that no aside has. */
  lemma {:induction false} NewId(ids: set<Id>) returns (id: Id)
    ensures id !in ids && forall i :: i in ids ==> i < id
    decreases |ids|
  {
    id := 0;
    if ids != {} {
      var i :| i in ids;
      var j := NewId(ids - {i});
      id := if i < j then j else i + 1;
      assert forall k :: k in ids ==> k == i || k in ids - {i};
    }
  }

  /** The creation of the token is the one that memory has. */
  predicate InMemory(s: State, t: Token) {
    s.pendingCreate.Some? && s.pendingCreate.value.requestId == t
  }

  /** Storage has it, for the next page to bring back. */
  predicate InStorage(s: State, t: Token) {
    s.disk.Some? && s.disk.value.pendingCreate.Some? && s.disk.value.pendingCreate.value.requestId == t
  }

  lemma NowhereIsForgotten(w: World, t: Token)
    requires WorldOk(w) && !InMemory(w.y.s, t) && !InStorage(w.y.s, t)
    ensures Forgotten(w, t)
  {
    hide Inv, MadeOk, SentOk;
  }

  function By(e: Event): Act {
    Client(Move(e, true, true))
  }

  /** What the server makes for a request. */
  function NewAside(i: Intent, id: Id): Record {
    Record(id, Source(i.target, 0), i.draft, Lifecycle.Open, 1)
  }

  lemma MadeLater(w: World, a: Act, acts: seq<Act>, t: Token)
    requires Possible(w, a) && MadeIn(Next(w, a), acts, t)
    ensures MadeIn(w, [a] + acts, t)
  {
    hide Possible, Next;
    assert ([a] + acts)[1..] == acts;
  }

  lemma ArrivalMakes(w: World, k: nat, t: Token) returns (acts: seq<Act>)
    requires WorldOk(w) && Pending(w, t, k)
    ensures MadeIn(w, acts, t)
  {
    hide WorldOk;
    var id := NewId(w.asides.Keys);
    var a := Arrives(k, false, NewAside(w.sent[k], id));
    assert MadeIn(Next(w, a), [], t);
    MadeLater(w, a, [], t);
    acts := [a] + [];
  }

  /** What memory has, and nothing awaits, is sent again. */
  lemma RetryMakes(w: World, t: Token) returns (acts: seq<Act>)
    requires WorldOk(w) && InMemory(w.y.s, t) && !w.y.s.creating
    ensures MadeIn(w, acts, t)
  {
    hide WorldOk, MadeIn, Possible, Next;
    var a := By(RetriesCreate);
    RetrySends(w, t);
    AsideCreation.NextOk(w, a);
    var more := ArrivalMakes(Next(w, a), w.y.next, t);
    MadeLater(w, a, more, t);
    acts := [a] + more;
  }

  lemma RetrySends(w: World, t: Token)
    requires WorldOk(w) && InMemory(w.y.s, t) && !w.y.s.creating
    ensures Possible(w, By(RetriesCreate)) && Pending(Next(w, By(RetriesCreate)), t, w.y.next)
  {
    hide Inv, Holds, MadeOk, SentOk, Publish;
    NotAnswered(w);
  }

  /** A lost answer leaves the creation in memory. */
  lemma LossLeaves(w: World, t: Token) returns (a: Act)
    requires WorldOk(w) && InMemory(w.y.s, t) && w.y.s.creating
    ensures Possible(w, a) && InMemory(Next(w, a).y.s, t) && !Next(w, a).y.s.creating
  {
    hide WF, Holds, MadeOk, SentOk, TaskOk, CreateReply, Step;
    var k :| k in w.y.tasks && w.y.tasks[k].Creating?;
    a := By(Answers(k, Unknown));
    var m := Move(Answers(k, Unknown), true, true);
    assert TaskOk(w.y.s, w.y.tasks[k]);
    LossIs(w.y, k, t);
    RepliesAskNothing(w, m);
  }

  lemma LossIs(y: System, k: nat, t: Token)
    requires k in y.tasks && y.tasks[k].Creating? && TaskOk(y.s, y.tasks[k]) && InMemory(y.s, t)
    ensures
      var s := Step(y, Move(Answers(k, Unknown), true, true)).s;
      InMemory(s, t) && !s.creating
  {
    hide Publish;
  }

  lemma RepliesAskNothing(w: World, m: Move)
    requires WorldOk(w) && m.event.Answers?
    ensures Next(w, Client(m)).y == Step(w.y, m)
  {
    hide WorldOk, Step, Asks;
    NextIs(w, m);
  }

  /** A new page brings back what storage has. */
  lemma CrashBrings(w: World, t: Token)
    requires WorldOk(w) && InStorage(w.y.s, t)
    ensures
      var x := Next(w, By(Crashes));
      Possible(w, By(Crashes)) && InMemory(x.y.s, t) && !x.y.s.creating
  {
    hide Holds, MadeOk, SentOk, At, LocksOk;
  }

  /** In some continuation the aside of a creation is made if and only if it is made already, or an attempt of it has
      yet to arrive, or the owner still has it, in memory or in storage. So once the owner replaced it, its aside may
      still be made if and only if it is made already, an attempt has yet to arrive, or storage still has it. */
  lemma MayBeMadeIff(w: World, t: Token)
    requires WorldOk(w) && t in w.issued
    ensures (exists acts :: MadeIn(w, acts, t)) <==>
      || t in w.made
      || (exists k :: Pending(w, t, k))
      || InMemory(w.y.s, t)
      || InStorage(w.y.s, t)
  {
    hide WorldOk, Forgotten, Possible, Next;
    if t in w.made {
      assert MadeIn(w, [], t);
    } else if k :| Pending(w, t, k) {
      var acts := ArrivalMakes(w, k, t);
    } else if InMemory(w.y.s, t) {
      if w.y.s.creating {
        var a := LossLeaves(w, t);
        AsideCreation.NextOk(w, a);
        var acts := RetryMakes(Next(w, a), t);
        MadeLater(w, a, acts, t);
      } else {
        var acts := RetryMakes(w, t);
      }
    } else if InStorage(w.y.s, t) {
      var a := By(Crashes);
      CrashBrings(w, t);
      AsideCreation.NextOk(w, a);
      var acts := RetryMakes(Next(w, a), t);
      MadeLater(w, a, acts, t);
    } else {
      NowhereIsForgotten(w, t);
      forall acts ensures !MadeIn(w, acts, t) { if AllPossible(w, acts) { OverForGood(w, acts, t); } }
    }
  }

  // ----- Two concrete runs

  const TEXT := "text"
  const FIRST := Intent(7, Conversation, TEXT)
  const AGAIN := Intent(8, Conversation, TEXT)

  function Asked(id: Id): Record {
    Record(id, Source(Conversation, 0), TEXT, Lifecycle.Open, 1)
  }

  /** A creation whose answer is lost, a retry that the server definitely rejects, and a new creation in its place;
      and then the first attempt arrives. */
  function Replaced(): seq<Act> {
    [By(Creates(Conversation, TEXT, 7, true)), By(Answers(0, Unknown)), By(RetriesCreate), Arrives(2, true, Asked(0)), By(Answers(2, Rejected)),
     By(Creates(Conversation, TEXT, 8, true)), Arrives(4, false, Asked(0)), Arrives(0, false, Asked(1))]
  }

  /** What the user asked for once, and again only after a definite rejection, is there twice. */
  lemma DefinitelyRejectedAndMade()
    ensures AllPossible(FRESH, Replaced())
    ensures
      var w := Play(FRESH, Replaced());
      w.asides == map[0 := 8, 1 := 7] && w.made == map[8 := Made(AGAIN, Asked(0)), 7 := Made(FIRST, Asked(1))]
  {
    hide Step, Asks, Possible, Next;
    var acts := Replaced();
    var w1 := Next(FRESH, acts[0]);
    var w2 := Next(w1, acts[1]);
    var w3 := Next(w2, acts[2]);
    var w4 := Next(w3, acts[3]);
    var w5 := Next(w4, acts[4]);
    var w6 := Next(w5, acts[5]);
    var w7 := Next(w6, acts[6]);
    AskedFirst();
    AnswerLost(w1);
    Retried(w2);
    RefusedThen(w3);
    AskedAgain(w5);
    BothArrive(w6);
    assert acts == acts[..4] + acts[4..] && acts[4..][..4] == acts[4..];
    FourActs(FRESH, acts);
    FourActs(w4, acts[4..]);
    assert acts[4..][4..] == [];
  }

  lemma AskedFirst()
    ensures
      var a := By(Creates(Conversation, TEXT, 7, true));
      var w := Next(FRESH, a);
      && Possible(FRESH, a) && w.y.tasks == map[0 := Creating(PendingCreate(7, Conversation, TEXT, false, false), 0)] && w.y.next == 1
      && w.y.s.creating && w.y.s.pendingCreate == Some(PendingCreate(7, Conversation, TEXT, false, false))
      && w.sent == map[0 := FIRST] && w.issued == map[7 := FIRST] && w.answers == map[] && w.made == map[] && w.asides == map[]
      && w.y.s.disk.Some? && w.y.s.disk.value.pendingCreate == Some(STORED)
  {
  }

  lemma AnswerLost(w: World)
    requires w.y.tasks == map[0 := Creating(PendingCreate(7, Conversation, TEXT, false, false), 0)] && w.y.next == 1
    ensures
      var a := By(Answers(0, Unknown));
      var x := Next(w, a);
      && Possible(w, a) && x.y.tasks == map[] && x.y.next == 2
      && !x.y.s.creating && x.y.s.pendingCreate == Some(PendingCreate(7, Conversation, TEXT, true, true))
      && x == w.(y := x.y)
  {
    hide Publish;
  }

  lemma Retried(w: World)
    requires w.y.tasks == map[] && w.y.next == 2 && !w.y.s.creating && w.y.s.pendingCreate == Some(PendingCreate(7, Conversation, TEXT, true, true))
    ensures
      var a := By(RetriesCreate);
      var x := Next(w, a);
      && Possible(w, a) && x.y.tasks == map[2 := Creating(PendingCreate(7, Conversation, TEXT, true, true), w.y.s.selectionRevision)] && x.y.next == 3
      && x == w.(y := x.y, sent := w.sent[2 := FIRST], issued := w.issued[7 := FIRST])
  {
    hide Publish;
  }

  lemma RefusedThen(w: World)
    requires w.y.next == 3 && exists n :: w.y.tasks == map[2 := Creating(PendingCreate(7, Conversation, TEXT, true, true), n)]
    requires 2 in w.sent && 2 !in w.answers
    ensures
      var w1 := Next(w, Arrives(2, true, Asked(0)));
      var a := By(Answers(2, Rejected));
      var x := Next(w1, a);
      && Possible(w, Arrives(2, true, Asked(0))) && Possible(w1, a) && x.y.tasks == map[] && x.y.next == 4
      && !x.y.s.creating && x.y.s.pendingCreate == Some(PendingCreate(7, Conversation, TEXT, false, true))
      && x == w.(y := x.y, answers := w.answers[2 := Rejected])
  {
    hide Publish;
  }

  lemma AskedAgain(w: World)
    requires w.y.tasks == map[] && w.y.next == 4 && !w.y.s.creating && w.y.s.pendingCreate == Some(PendingCreate(7, Conversation, TEXT, false, true))
    requires 8 !in w.issued && 8 !in w.made
    ensures
      var a := By(Creates(Conversation, TEXT, 8, true));
      var x := Next(w, a);
      && Possible(w, a) && x == w.(y := x.y, sent := w.sent[4 := AGAIN], issued := w.issued[8 := AGAIN])
  {
    hide Publish;
  }

  lemma BothArrive(w: World)
    requires w.made == map[] && w.asides == map[] && w.answers == map[2 := Rejected] && w.sent == map[0 := FIRST, 2 := FIRST, 4 := AGAIN]
    ensures
      var w1 := Next(w, Arrives(4, false, Asked(0)));
      var x := Next(w1, Arrives(0, false, Asked(1)));
      && Possible(w, Arrives(4, false, Asked(0))) && Possible(w1, Arrives(0, false, Asked(1)))
      && x.made == map[8 := Made(AGAIN, Asked(0)), 7 := Made(FIRST, Asked(1))] && x.asides == map[0 := 8, 1 := 7]
  {
  }

  lemma FourActs(w: World, acts: seq<Act>)
    requires |acts| >= 4
    ensures
      var w4 := Next(Next(Next(Next(w, acts[0]), acts[1]), acts[2]), acts[3]);
      && Play(w, acts) == Play(w4, acts[4..])
      && (AllPossible(w, acts) <==>
            && Possible(w, acts[0]) && Possible(Next(w, acts[0]), acts[1])
            && Possible(Next(Next(w, acts[0]), acts[1]), acts[2])
            && Possible(Next(Next(Next(w, acts[0]), acts[1]), acts[2]), acts[3])
            && AllPossible(w4, acts[4..]))
  {
    hide Next, Possible;
    var a1, a2, a3 := acts[1..], acts[2..], acts[3..];
    assert a1[1..] == a2 && a2[1..] == a3 && a3[1..] == acts[4..];
    var w1 := Next(w, acts[0]);
    var w2 := Next(w1, a1[0]);
    var w3 := Next(w2, a2[0]);
    assert Play(w, acts) == Play(w1, a1) == Play(w2, a2) == Play(w3, a3);
    assert AllPossible(w3, a3) <==> Possible(w3, a3[0]) && AllPossible(Next(w3, a3[0]), acts[4..]);
    assert AllPossible(w2, a2) <==> Possible(w2, a2[0]) && AllPossible(w3, a3);
    assert AllPossible(w1, a1) <==> Possible(w1, a1[0]) && AllPossible(w2, a2);
  }

  /** A creation that the server refuses at once; storage takes in neither that nor the new creation in its place.
      The page dies after the new one was made, and the next page finds the first creation and sends it again. */
  function BroughtBack(): seq<Act> {
    [By(Creates(Conversation, TEXT, 7, true)), Arrives(0, true, Asked(0)),
     Client(Move(Answers(0, Rejected), true, false)), Client(Move(Creates(Conversation, TEXT, 8, true), true, false)),
     Arrives(2, false, Asked(0)), By(Crashes), By(RetriesCreate), Arrives(3, false, Asked(1))]
  }

  /** No answer is lost, and the aside is there twice. */
  lemma RejectedOnceAndMade()
    ensures AllPossible(FRESH, BroughtBack())
    ensures
      var x := Play(FRESH, BroughtBack()[..4]);
      && !InMemory(x.y.s, 7) && InStorage(x.y.s, 7) && x.made == map[] && forall k :: !Pending(x, 7, k)
    ensures
      var w := Play(FRESH, BroughtBack());
      w.asides == map[0 := 8, 1 := 7] && w.made == map[8 := Made(AGAIN, Asked(0)), 7 := Made(FIRST, Asked(1))]
  {
    hide Step, Asks, Possible, Next;
    var acts := BroughtBack();
    var w1 := Next(FRESH, acts[0]);
    var w2 := Next(w1, acts[1]);
    var w3 := Next(w2, acts[2]);
    var w4 := Next(w3, acts[3]);
    var w5 := Next(w4, acts[4]);
    AskedFirst();
    RefusedFirst(w1);
    ReplacedUnstored(w3);
    MadeInstead(w4);
    FoundAgain(w5);
    assert acts == acts[..4] + acts[4..] && acts[4..][..4] == acts[4..];
    FourActs(FRESH, acts);
    FourActs(FRESH, acts[..4]);
    FourActs(w4, acts[4..]);
    assert acts[4..][4..] == [] && acts[..4][4..] == [];
  }

  const STORED := PendingCreate(7, Conversation, TEXT, false, false)

  lemma RefusedFirst(w: World)
    requires w.y.tasks == map[0 := Creating(STORED, 0)] && w.y.next == 1 && 0 in w.sent && w.answers == map[]
    ensures
      var w1 := Next(w, Arrives(0, true, Asked(0)));
      var m := Move(Answers(0, Rejected), true, false);
      var x := Next(w1, Client(m));
      && Possible(w, Arrives(0, true, Asked(0))) && Possible(w1, Client(m)) && x.y.tasks == map[] && x.y.next == 2
      && !x.y.s.creating && x.y.s.pendingCreate == Some(STORED.(error := true)) && x.y.s.disk == w.y.s.disk
      && x == w.(y := x.y, answers := map[0 := Rejected])
  {
  }

  lemma ReplacedUnstored(w: World)
    requires w.y.tasks == map[] && w.y.next == 2 && !w.y.s.creating && w.y.s.pendingCreate == Some(STORED.(error := true))
    requires 8 !in w.issued && 8 !in w.made
    ensures
      var m := Move(Creates(Conversation, TEXT, 8, true), true, false);
      var x := Next(w, Client(m));
      && Possible(w, Client(m)) && x.y.next == 3 && x.y.s.disk == w.y.s.disk
      && x.y.s.pendingCreate == Some(PendingCreate(8, Conversation, TEXT, false, false))
      && x == w.(y := x.y, sent := w.sent[2 := AGAIN], issued := w.issued[8 := AGAIN])
  {
  }

  lemma MadeInstead(w: World)
    requires w.sent == map[0 := FIRST, 2 := AGAIN] && w.answers == map[0 := Rejected] && w.made == map[] && w.asides == map[]
    ensures
      var a := Arrives(2, false, Asked(0));
      var x := Next(w, a);
      && Possible(w, a) && x.y == w.y && x.sent == w.sent && x.answers.Keys == {0, 2}
      && x.made == map[8 := Made(AGAIN, Asked(0))] && x.asides == map[0 := 8]
  {
  }

  lemma FoundAgain(w: World)
    requires w.y.next == 3 && w.y.s.disk.Some? && w.y.s.disk.value.pendingCreate == Some(STORED)
    requires w.answers.Keys == {0, 2} && w.made == map[8 := Made(AGAIN, Asked(0))] && w.asides == map[0 := 8]
    ensures
      var w1 := Next(w, By(Crashes));
      var w2 := Next(w1, By(RetriesCreate));
      var a := Arrives(3, false, Asked(1));
      var x := Next(w2, a);
      && Possible(w, By(Crashes)) && Possible(w1, By(RetriesCreate)) && Possible(w2, a)
      && x.made == map[8 := Made(AGAIN, Asked(0)), 7 := Made(FIRST, Asked(1))] && x.asides == map[0 := 8, 1 := 7]
  {
    hide Step, Asks;
    var w1 := Next(w, By(Crashes));
    ComesBack(w);
    SentFromStorage(w1);
    assert Next(w1, By(RetriesCreate)).sent == w.sent[3 := FIRST];
  }

  lemma ComesBack(w: World)
    requires w.y.s.disk.Some? && w.y.s.disk.value.pendingCreate == Some(STORED)
    ensures
      var x := Next(w, By(Crashes));
      x == w.(y := x.y) && x.y.next == w.y.next && !x.y.s.creating && x.y.s.pendingCreate == Some(STORED.(uncertain := true, error := true))
  {
    assert ReviveCreate(STORED, w.y.s.disk.value.createRejected) == STORED.(uncertain := true, error := true);
  }

  lemma SentFromStorage(w: World)
    requires w.y.next == 3 && !w.y.s.creating && w.y.s.pendingCreate == Some(STORED.(uncertain := true, error := true))
    ensures
      var x := Next(w, By(RetriesCreate));
      x == w.(y := x.y, sent := w.sent[3 := FIRST], issued := w.issued[7 := FIRST])
  {
    hide Publish;
  }
}
