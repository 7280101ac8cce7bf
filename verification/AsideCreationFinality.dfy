/**
 What the owner itself can know of a creation that was definitely rejected and that it replaces. It sees neither
 receipts nor what is still on its way, only its own state and storage, and whether the rejected attempt was the
 first.
 */
module AsideCreationFinality {
  import opened Wrappers
  import opened AsideProtocol
  import opened AsideInvariants
  import opened AsideRuns
  import opened AsideRecovery
  import opened AsideCreation
  import opened AsideReplacement

  // ----- Attempts

  ghost predicate Attempted(w: World, t: Token) {
    exists j :: j in w.sent && w.sent[j].requestId == t
  }

  /** An attempt that follows no failure is the only one of its creation; any other repeats one. */
  ghost predicate AttemptOk(w: World, k: nat)
    requires k in w.y.tasks && w.y.tasks[k].Creating?
  {
    var p := w.y.tasks[k].pending;
    if p.error then exists j :: j in w.sent && j != k && w.sent[j] == IntentOf(p)
    else forall j :: j in w.sent && w.sent[j].requestId == p.requestId ==> j == k
  }

  /** What was made for the owner was made by an attempt, which is answered. */
  ghost predicate Answered(w: World, t: Token) {
    exists j :: j in w.answers && w.answers[j].Body? && j in w.sent && w.sent[j].requestId == t
  }

  ghost predicate DoubtOk(w: World) {
    && WorldOk(w)
    && (forall t :: t in w.issued ==> Attempted(w, t) && (t in w.made ==> Answered(w, t)))
    && (forall k :: k in w.y.tasks && w.y.tasks[k].Creating? ==> AttemptOk(w, k))
  }

  /** A new creation shows no failure, and one that is sent again does. */
  lemma AsksHow(y: System, m: Move)
    requires Inv(y) && Asks(y, m).Some?
    ensures y.next in Step(y, m).tasks && Step(y, m).tasks[y.next].Creating?
    ensures
      var p := Step(y, m).tasks[y.next].pending;
      && Asks(y, m) == Some(IntentOf(p))
      && (|| (m.event.Creates? && !p.error && p.requestId == m.event.token && InMemory(Step(y, m).s, m.event.token))
          || (m.event.RetriesCreate? && p.error && InMemory(y.s, p.requestId)))
  {
    hide Step, LocksOk, Call, At;
    AsksWhat(y, m);
    CallIs(y, m);
    CallAsksHow(y.s, m);
  }

  lemma CallIs(y: System, m: Move)
    requires m.event.Creates? || m.event.RetriesCreate?
    ensures Step(y, m) == Spawn(Call(y.s, m).0, y.tasks, y.next, Call(y.s, m).1)
  {
    hide Call, Spawn;
  }

  lemma CallAsksHow(s: State, m: Move)
    requires CreateOk(s) && Call(s, m).1.Some? && Call(s, m).1.value.Creating?
    requires m.event.Creates? || m.event.RetriesCreate?
    ensures
      var p := Call(s, m).1.value.pending;
      || (m.event.Creates? && !p.error && p.requestId == m.event.token && InMemory(Call(s, m).0, m.event.token))
      || (m.event.RetriesCreate? && p.error && InMemory(s, p.requestId))
  {
    hide Persist, ValidText;
  }

  lemma SentBefore(w: World)
    requires WorldOk(w)
    ensures forall j :: j in w.sent ==>
      j < w.y.next && w.sent[j].requestId in w.issued && w.sent[j] == w.issued[w.sent[j].requestId]
  {
    hide Inv, Holds, MadeOk;
    forall j | j in w.sent
      ensures j < w.y.next && w.sent[j].requestId in w.issued && w.sent[j] == w.issued[w.sent[j].requestId]
    {
      assert SentOk(w, j);
    }
  }

  lemma ClientDoubt(w: World, m: Move)
    requires DoubtOk(w) && Possible(w, Client(m))
    ensures DoubtOk(Next(w, Client(m)))
  {
    hide WorldOk, Step, Asks, Next, AttemptOk;
    var x := Next(w, Client(m));
    AsideCreation.NextOk(w, Client(m));
    NextIs(w, m);
    assert Inv(w.y) by { WorldInv(w); }
    AsksWhat(w.y, m);
    AsksHeld(w, m);
    SentBefore(w);
    forall t | t in x.issued ensures Attempted(x, t) && (t in x.made ==> Answered(x, t)) { IssuedNext(w, m, t); }
    forall k | k in x.y.tasks && x.y.tasks[k].Creating? ensures AttemptOk(x, k) {
      if k == w.y.next { AsksTask(w.y, m); NewAttempt(w, m); } else { OldAttempt(w, m, k); }
    }
  }

  lemma WorldInv(w: World)
    requires WorldOk(w)
    ensures Inv(w.y)
  {
    hide Inv, Holds, MadeOk, SentOk;
  }

  lemma IssuedNext(w: World, m: Move, t: Token)
    requires DoubtOk(w) && Possible(w, Client(m)) && t in Next(w, Client(m)).issued
    ensures
      var x := Next(w, Client(m));
      Attempted(x, t) && (t in x.made ==> Answered(x, t))
  {
    hide WorldOk, Step, Asks, Next, AttemptOk;
    var x := Next(w, Client(m));
    NextIs(w, m);
    AsksHeld(w, m);
    SentBefore(w);
    if t in w.issued {
      assert Attempted(w, t);
      var j :| j in w.sent && w.sent[j].requestId == t;
      assert j in x.sent && x.sent[j] == w.sent[j];
      if t in w.made {
        assert Answered(w, t);
        var i :| i in w.answers && w.answers[i].Body? && i in w.sent && w.sent[i].requestId == t;
        assert i in x.answers && x.answers[i].Body? && i in x.sent && x.sent[i].requestId == t;
      }
    } else {
      assert w.y.next in x.sent && x.sent[w.y.next].requestId == t;
    }
  }

  lemma NewAttempt(w: World, m: Move)
    requires DoubtOk(w) && Possible(w, Client(m)) && Asks(w.y, m).Some?
    ensures var x := Next(w, Client(m)); w.y.next in x.y.tasks && x.y.tasks[w.y.next].Creating? && AttemptOk(x, w.y.next)
  {
    hide WorldOk, Step, Asks, Next;
    var x := Next(w, Client(m));
    NextIs(w, m);
    assert Inv(w.y) by { WorldInv(w); }
    AsksHow(w.y, m);
    SentBefore(w);
    var t := Asks(w.y, m).value.requestId;
    if m.event.RetriesCreate? {
      AsksWhat(w.y, m);
      HeldIssued(w);
      assert Attempted(w, t);
      var j :| j in w.sent && w.sent[j].requestId == t;
      assert j in x.sent && j != w.y.next && x.sent[j] == Asks(w.y, m).value;
    }
  }

  lemma HeldIssued(w: World)
    requires WorldOk(w) && w.y.s.pendingCreate.Some?
    ensures var i := IntentOf(w.y.s.pendingCreate.value); i.requestId in w.issued && w.issued[i.requestId] == i
  {
    hide Inv, MadeOk, SentOk;
  }

  lemma OldAttempt(w: World, m: Move, k: nat)
    requires DoubtOk(w) && Possible(w, Client(m)) && k in w.y.tasks && w.y.tasks[k].Creating?
    requires var x := Next(w, Client(m)); k in x.y.tasks && x.y.tasks[k] == w.y.tasks[k]
    ensures AttemptOk(Next(w, Client(m)), k)
  {
    hide WorldOk, Step, Asks, Next;
    var x := Next(w, Client(m));
    var p := w.y.tasks[k].pending;
    NextIs(w, m);
    SentBefore(w);
    assert AttemptOk(w, k);
    if Asks(w.y, m).Some? {
      assert m.event.Creates? && p.requestId in w.issued by { OneInFlight(w, m, k); }
      assert Asks(w.y, m).value.requestId !in w.issued by { assert Inv(w.y) by { WorldInv(w); } AsksHow(w.y, m); }
    }
    if p.error {
      var j :| j in w.sent && j != k && w.sent[j] == IntentOf(p);
      assert j in x.sent && x.sent[j] == IntentOf(p);
    }
  }

  /** While a creation is on its way, none is sent again. */
  lemma OneInFlight(w: World, m: Move, k: nat)
    requires WorldOk(w) && k in w.y.tasks && w.y.tasks[k].Creating? && Asks(w.y, m).Some?
    ensures m.event.Creates? && w.y.tasks[k].pending.requestId in w.issued
  {
    hide WF, Holds, MadeOk, Publish, ValidText;
    assert SentOk(w, k);
    assert TaskOk(w.y.s, w.y.tasks[k]);
    AsksWhat(w.y, m);
  }

  lemma DoubtNext(w: World, a: Act)
    requires DoubtOk(w) && Possible(w, a)
    ensures DoubtOk(Next(w, a))
  {
    hide WorldOk, Next, Possible;
    AsideCreation.NextOk(w, a);
    if a.Client? {
      ClientDoubt(w, a.m);
    } else {
      var x := Next(w, a);
      ServerStays(w, a);
      forall t | t in x.issued ensures Attempted(x, t) && (t in x.made ==> Answered(x, t)) {
        assert Attempted(w, t);
        if t in x.made { ServerAnswers(w, a, t); }
      }
      forall k | k in x.y.tasks && x.y.tasks[k].Creating? ensures AttemptOk(x, k) { assert AttemptOk(w, k); }
    }
  }

  lemma ServerStays(w: World, a: Act)
    requires !a.Client?
    ensures var x := Next(w, a); x.y == w.y && x.sent == w.sent && x.issued == w.issued
  {
  }

  lemma ServerAnswers(w: World, a: Act, t: Token)
    requires DoubtOk(w) && Possible(w, a) && !a.Client? && t in w.issued && t in Next(w, a).made
    ensures Answered(Next(w, a), t)
  {
    hide WorldOk, Fits, AttemptOk;
    var x := Next(w, a);
    if t in w.made {
      var i :| i in w.answers && w.answers[i].Body? && i in w.sent && w.sent[i].requestId == t;
      assert i in x.answers && x.answers[i].Body? && i in x.sent && x.sent[i].requestId == t;
    } else {
      assert a.k in x.answers && x.answers[a.k].Body? && a.k in x.sent && x.sent[a.k].requestId == t;
    }
  }

  lemma {:induction false} PlayDoubt(w: World, acts: seq<Act>)
    requires DoubtOk(w) && AllPossible(w, acts)
    ensures DoubtOk(Play(w, acts))
    decreases |acts|
  {
    hide DoubtOk, Possible, Next;
    if acts != [] {
      DoubtNext(w, acts[0]);
      PlayDoubt(Next(w, acts[0]), acts[1..]);
    }
  }

  lemma FreshDoubt()
    ensures DoubtOk(FRESH)
  {
    hide WorldOk;
    FreshOk();
  }

  // ----- A definite rejection

  predicate Rejecting(y: System, m: Move) {
    m.event.Answers? && m.event.response.Rejected? && m.event.k in y.tasks && y.tasks[m.event.k].Creating?
  }

  predicate Rejects(w: World, m: Move) {
    Possible(w, Client(m)) && Rejecting(w.y, m)
  }

  /** It was not made, and no attempt of it has yet to arrive. */
  ghost predicate Quiet(w: World, t: Token) {
    t in w.issued && t !in w.made && forall k :: !Pending(w, t, k)
  }

  lemma FirstRejection(w: World, m: Move)
    requires DoubtOk(w) && Rejects(w, m) && !w.y.tasks[m.event.k].pending.error
    ensures Quiet(Next(w, Client(m)), w.y.tasks[m.event.k].pending.requestId)
  {
    hide Inv, Step, Asks, Holds, MadeOk;
    var k := m.event.k;
    var t := w.y.tasks[k].pending.requestId;
    RejectedAsksNothing(w, m);
    assert AttemptOk(w, k);
    assert SentOk(w, k);
    assert !Answered(w, t);
  }

  lemma RejectedAsksNothing(w: World, m: Move)
    requires WorldOk(w) && Rejects(w, m)
    ensures
      var x := Next(w, Client(m));
      x.made == w.made && x.sent == w.sent && x.answers == w.answers && x.issued == w.issued && x.y == Step(w.y, m)
  {
    hide WorldOk, Step, Asks;
    assert Inv(w.y) by { WorldInv(w); }
    AsksWhat(w.y, m);
    NextIs(w, m);
  }

  /** No move sends the creation again. */
  ghost predicate Unrepeated(w: World, acts: seq<Act>, t: Token)
    decreases |acts|
  {
    acts == [] || (!Repeats(w, acts[0], t) && Unrepeated(Next(w, acts[0]), acts[1..], t))
  }

  predicate Repeats(w: World, a: Act, t: Token) {
    a.Client? && Asks(w.y, a.m).Some? && Asks(w.y, a.m).value.requestId == t
  }

  lemma QuietNext(w: World, a: Act, t: Token)
    requires Possible(w, a) && Quiet(w, t) && !Repeats(w, a, t)
    ensures Quiet(Next(w, a), t)
  {
    hide Step, Asks, Fits;
    forall k ensures !Pending(Next(w, a), t, k) { assert !Pending(w, t, k); }
    if a.Arrives? { assert !Pending(w, t, a.k); }
  }

  lemma {:induction false} QuietRun(w: World, acts: seq<Act>, t: Token)
    requires AllPossible(w, acts) && Quiet(w, t) && Unrepeated(w, acts, t)
    ensures Quiet(Play(w, acts), t)
    decreases |acts|
  {
    hide Possible, Next, Quiet, Repeats;
    if acts != [] {
      QuietNext(w, acts[0], t);
      QuietRun(Next(w, acts[0]), acts[1..], t);
    }
  }

  /** In every run from a new page: a creation whose first attempt was definitely rejected, and that was not sent
      again until the owner no longer had it, was not made; and it is made in some continuation if and only if storage
      still has it, because it took none of the writes since. */
  lemma FirstRejectionIsFinalIff(acts: seq<Act>, m: Move, more: seq<Act>)
    requires AllPossible(FRESH, acts) && Rejects(Play(FRESH, acts), m) && !Play(FRESH, acts).y.tasks[m.event.k].pending.error
    requires
      var (x, t) := (Next(Play(FRESH, acts), Client(m)), Play(FRESH, acts).y.tasks[m.event.k].pending.requestId);
      AllPossible(x, more) && Unrepeated(x, more, t) && !InMemory(Play(x, more).y.s, t)
    ensures
      var (x, t) := (Next(Play(FRESH, acts), Client(m)), Play(FRESH, acts).y.tasks[m.event.k].pending.requestId);
      var z := Play(x, more);
      && t !in z.made
      && ((exists rest :: MadeIn(z, rest, t)) <==> InStorage(z.y.s, t))
  {
    hide WorldOk, Play, FRESH, MadeIn, InMemory, InStorage, Possible, AllPossible, Next, Unrepeated, AttemptOk;
    FreshDoubt();
    PlayDoubt(FRESH, acts);
    var w := Play(FRESH, acts);
    var t := w.y.tasks[m.event.k].pending.requestId;
    var x := Next(w, Client(m));
    FirstRejection(w, m);
    DoubtNext(w, Client(m));
    PlayDoubt(x, more);
    QuietRun(x, more, t);
    MayBeMadeIff(Play(x, more), t);
  }

  // ----- As far as the owner can know

  /** The move replaces the rejected creation by a new one. */
  predicate Replacing(w: World, m: Move, n: Move) {
    Rejects(w, m) && n.event.Creates? && Possible(Next(w, Client(m)), Client(n)) && Asks(Step(w.y, m), n).Some?
  }

  /** All that the owner can see: the rejected attempt was not the first, or storage refused both writes since. */
  predicate InDoubt(y: System, m: Move, n: Move)
    requires Rejecting(y, m)
  {
    var p := y.tasks[m.event.k].pending;
    p.error || InStorage(Step(Step(y, m), n).s, p.requestId)
  }

  /** A world in which the replaced creation is made after all. */
  ghost predicate MadeAfterwards(w: World, m: Move, n: Move, t: Token) {
    && DoubtOk(w) && Replacing(w, m, n) && t !in w.made
    && exists acts :: MadeIn(Next(Next(w, Client(m)), Client(n)), acts, t)
  }

  /** As far as the owner can know, a creation that was definitely rejected and then replaced may still be made if and
      only if it is in doubt: exactly then some world with the very same owner goes on to make it. */
  lemma ReplacedInDoubtIff(w: World, m: Move, n: Move)
    requires DoubtOk(w) && Replacing(w, m, n)
    ensures
      (exists w': World :: w'.y == w.y && MadeAfterwards(w', m, n, w.y.tasks[m.event.k].pending.requestId)) <==> InDoubt(w.y, m, n)
  {
    hide DoubtOk, MadeAfterwards, Replacing, InDoubt;
    assert Rejecting(w.y, m) && m.event.k in w.answers by { ReplacingIs(w, m, n); }
    var t := w.y.tasks[m.event.k].pending.requestId;
    forall w': World | w'.y == w.y && MadeAfterwards(w', m, n, t) ensures InDoubt(w.y, m, n) { MadeInDoubt(w', m, n); }
    if InDoubt(w.y, m, n) {
      DoubtMakes(w, m, n);
      assert Elsewhere(w, m.event.k).y == w.y;
    }
  }

  lemma ReplacingIs(w: World, m: Move, n: Move)
    requires Replacing(w, m, n)
    ensures Rejecting(w.y, m) && m.event.k in w.answers
  {
    hide Step, Asks, Next;
  }

  /** What replacing leaves: the new creation in memory, and of the old one what there was. */
  lemma AfterReplacing(w: World, m: Move, n: Move)
    requires DoubtOk(w) && Replacing(w, m, n)
    ensures
      var z := Next(Next(w, Client(m)), Client(n));
      var t := w.y.tasks[m.event.k].pending.requestId;
      && WorldOk(z) && z.y == Step(Step(w.y, m), n) && t in z.issued && !InMemory(z.y.s, t)
      && (!w.y.tasks[m.event.k].pending.error ==> Quiet(z, t))
      && (forall j :: j != m.event.k && Pending(w, t, j) ==> Pending(z, t, j))
  {
    hide WorldOk, Step, Asks, Next, AttemptOk, Quiet;
    var x := Next(w, Client(m));
    var t := w.y.tasks[m.event.k].pending.requestId;
    RejectedAsksNothing(w, m);
    DoubtNext(w, Client(m));
    DoubtNext(x, Client(n));
    NextIs(x, n);
    assert Inv(x.y) by { WorldInv(x); }
    AsksHow(x.y, n);
    SentBefore(w);
    SentBefore(x);
    SentHere(w, m.event.k);
    assert !Repeats(x, Client(n), t);
    if !w.y.tasks[m.event.k].pending.error {
      FirstRejection(w, m);
      QuietNext(x, Client(n), t);
    }
    forall j | j != m.event.k && Pending(w, t, j) ensures Pending(Next(x, Client(n)), t, j) { }
  }

  lemma SentHere(w: World, k: nat)
    requires WorldOk(w) && k in w.y.tasks && w.y.tasks[k].Creating?
    ensures k in w.sent && w.sent[k] == IntentOf(w.y.tasks[k].pending) && k < w.y.next
    ensures w.y.tasks[k].pending.requestId in w.issued
  {
    hide Inv, Holds, MadeOk;
    assert SentOk(w, k);
  }

  lemma MadeInDoubt(w: World, m: Move, n: Move)
    requires Rejecting(w.y, m) && MadeAfterwards(w, m, n, w.y.tasks[m.event.k].pending.requestId)
    ensures InDoubt(w.y, m, n)
  {
    hide WorldOk, Step, Asks, Next, AttemptOk, Replacing, MadeIn, InMemory, InStorage;
    AfterReplacing(w, m, n);
    MayBeMadeIff(Next(Next(w, Client(m)), Client(n)), w.y.tasks[m.event.k].pending.requestId);
  }

  /** The same owner, before a server that has seen nothing of it but a refused attempt. */
  function Elsewhere(w: World, k: nat): World {
    World(w.y, map[], map[], w.sent, map[k := Rejected], w.issued)
  }

  lemma ElsewhereOk(w: World, k: nat)
    requires DoubtOk(w) && k in w.sent
    ensures DoubtOk(Elsewhere(w, k))
  {
    hide Inv, MadeOk;
    var x := Elsewhere(w, k);
    forall j | j in x.sent ensures SentOk(x, j) { assert SentOk(w, j); }
    assert Issued(x) == Issued(w);
    forall t | t in x.issued ensures Attempted(x, t) { assert Attempted(w, t); }
    forall j | j in x.y.tasks && x.y.tasks[j].Creating? ensures AttemptOk(x, j) { assert AttemptOk(w, j); }
  }

  lemma ElsewhereReplaces(w: World, m: Move, n: Move)
    requires WorldOk(w) && Replacing(w, m, n) && WorldOk(Elsewhere(w, m.event.k))
    ensures Replacing(Elsewhere(w, m.event.k), m, n)
  {
    hide WorldOk, Step, Asks, Next;
    var w' := Elsewhere(w, m.event.k);
    assert Rejects(w', m);
    RejectedAsksNothing(w, m);
    RejectedAsksNothing(w', m);
  }

  lemma DoubtMakes(w: World, m: Move, n: Move)
    requires DoubtOk(w) && Replacing(w, m, n) && Rejecting(w.y, m) && InDoubt(w.y, m, n)
    ensures MadeAfterwards(Elsewhere(w, m.event.k), m, n, w.y.tasks[m.event.k].pending.requestId)
  {
    hide WorldOk, Step, Asks, Next, Replacing, MadeIn, InMemory, InStorage;
    var k := m.event.k;
    var p := w.y.tasks[k].pending;
    var w' := Elsewhere(w, k);
    SentHere(w, k);
    ElsewhereOk(w, k);
    ElsewhereReplaces(w, m, n);
    AfterReplacing(w', m, n);
    var z := Next(Next(w', Client(m)), Client(n));
    if p.error {
      assert AttemptOk(w, k);
      var j :| j in w.sent && j != k && w.sent[j] == IntentOf(p);
      assert Pending(w', p.requestId, j);
      assert Pending(z, p.requestId, j);
    }
    MayBeMadeIff(z, p.requestId);
  }
}
