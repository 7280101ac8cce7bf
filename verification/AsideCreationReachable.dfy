/**
 Doubt about creations that is real. Whenever a creation that was definitely rejected and replaced is in doubt, some
 run from a new page leads to the same rejection and the same replacement, and goes on to make it.
 */
module AsideCreationReachable {
  import opened Wrappers
  import opened AsideProtocol
  import opened AsideInvariants
  import opened AsideRuns
  import opened AsideRecovery
  import opened AsideCreation
  import opened AsideReplacement
  import opened AsideCreationFinality

  /** Attempt `k` of the creation is on its way, and nothing else is or was made. */
  predicate Underway(w: World, k: nat, p: PendingCreate) {
    var i := IntentOf(p);
    && w.y.tasks.Keys == {k} && w.y.tasks[k].Creating? && w.y.tasks[k].pending == p && w.y.next == k + 1
    && k in w.sent && w.sent[k] == i && w.issued == map[i.requestId := i] && w.made == map[] && InStorage(w.y.s, i.requestId)
  }

  function First(i: Intent): PendingCreate {
    PendingCreate(i.requestId, i.target, i.draft, false, false)
  }

  function Again(i: Intent): PendingCreate {
    PendingCreate(i.requestId, i.target, i.draft, true, true)
  }

  function Begin(i: Intent): Act {
    By(Creates(i.target, i.draft, i.requestId, true))
  }

  /** A creation that the server refuses at once. */
  function RefusedAtOnce(i: Intent): seq<Act> {
    [Begin(i), Arrives(0, true, NewAside(i, 0))]
  }

  /** A creation whose answer is lost, and a second attempt that the server refuses. */
  function RefusedAfterLoss(i: Intent): seq<Act> {
    [Begin(i), By(Answers(0, Unknown)), By(RetriesCreate), Arrives(2, true, NewAside(i, 0))]
  }

  lemma Begins(i: Intent)
    requires ValidText(i.draft)
    ensures
      var x := Next(FRESH, Begin(i));
      Possible(FRESH, Begin(i)) && Underway(x, 0, First(i)) && x.sent == map[0 := i] && x.answers == map[]
  {
    hide ValidText;
  }

  lemma Loses(w: World, i: Intent)
    requires Underway(w, 0, First(i))
    ensures
      var a := By(Answers(0, Unknown));
      var x := Next(w, a);
      && Possible(w, a) && x == w.(y := x.y) && x.y.tasks == map[] && x.y.next == 2
      && !x.y.s.creating && x.y.s.pendingCreate == Some(Again(i))
  {
    hide Publish;
  }

  lemma SendsAgain(w: World, i: Intent)
    requires w.y.tasks == map[] && w.y.next == 2 && !w.y.s.creating && w.y.s.pendingCreate == Some(Again(i))
    requires w.issued == map[i.requestId := i] && w.made == map[]
    ensures
      var a := By(RetriesCreate);
      var x := Next(w, a);
      Possible(w, a) && Underway(x, 2, Again(i)) && x.sent == w.sent[2 := i] && x.answers == w.answers
  {
    hide Persist;
    var s := RetryCreate(w.y.s, true, true).0;
    assert s.disk == Some(Persist(s)) by { Stores(w.y.s, i); }
  }

  lemma Stores(s: State, i: Intent)
    requires s.pendingCreate == Some(Again(i)) && !s.creating
    ensures var t := RetryCreate(s, true, true).0; t.disk.Some? && t.disk.value.pendingCreate == t.pendingCreate && t.disk == Some(Persist(t))
  {
  }

  /** Attempt `k` is refused, and the owner has yet to learn it. */
  predicate Refused(w: World, k: nat, p: PendingCreate) {
    Underway(w, k, p) && w.answers == map[k := Rejected]
  }

  lemma RefusesFirst(i: Intent)
    requires ValidText(i.draft)
    ensures AllPossible(FRESH, RefusedAtOnce(i)) && Refused(Play(FRESH, RefusedAtOnce(i)), 0, First(i))
  {
    hide Step, Asks, ValidText, FRESH, Underway, Next, Possible;
    var acts := RefusedAtOnce(i);
    var w1 := Next(FRESH, acts[0]);
    Begins(i);
    Arriving(w1, 0, First(i), acts[1]);
    assert acts[1..] == [acts[1]] && acts[1..][1..] == [];
    assert Play(FRESH, acts) == Play(w1, acts[1..]) == Play(Next(w1, acts[1]), []);
    assert AllPossible(w1, acts[1..]) by { assert AllPossible(Next(w1, acts[1]), []); }
  }

  lemma Arriving(w: World, k: nat, p: PendingCreate, a: Act)
    requires Underway(w, k, p) && w.answers == map[] && a.Arrives? && a.k == k && a.refused
    ensures Possible(w, a) && Refused(Next(w, a), k, p) && Next(w, a).sent == w.sent
  {
  }

  lemma RefusesSecond(i: Intent)
    requires ValidText(i.draft)
    ensures AllPossible(FRESH, RefusedAfterLoss(i))
    ensures
      var x := Play(FRESH, RefusedAfterLoss(i));
      Refused(x, 2, Again(i)) && Pending(x, i.requestId, 0)
  {
    hide Step, Asks, ValidText, FRESH, Next, Possible;
    var acts := RefusedAfterLoss(i);
    var w1 := Next(FRESH, acts[0]);
    var w2 := Next(w1, acts[1]);
    var w3 := Next(w2, acts[2]);
    Begins(i);
    Loses(w1, i);
    SendsAgain(w2, i);
    Arriving(w3, 2, Again(i), acts[3]);
    FourActs(FRESH, acts);
    assert acts[4..] == [];
  }

  // ----- Rejected and replaced

  /** The owner learns it and creates anew, and storage takes both in or neither. */
  lemma Replaces(w: World, k: nat, p: PendingCreate, e: Event, taken: bool)
    requires Refused(w, k, p) && WorldOk(w) && e.Creates? && e.canCreate && ValidText(e.text) && e.token != p.requestId
    ensures
      var (m, n) := (Move(Answers(k, Rejected), true, taken), Move(e, true, taken));
      Replacing(w, m, n) && (InStorage(Step(Step(w.y, m), n).s, p.requestId) <==> !taken)
  {
    hide WorldOk, Inv, ValidText, Persist;
    var (m, n) := (Move(Answers(k, Rejected), true, taken), Move(e, true, taken));
    var y := Step(w.y, m);
    Learns(w.y, k, p, taken);
    RejectedAsksNothing(w, m);
    Instead(y, e, taken);
  }

  lemma Learns(y: System, k: nat, p: PendingCreate, taken: bool)
    requires y.tasks.Keys == {k} && y.tasks[k].Creating? && y.tasks[k].pending == p
    ensures
      var z := Step(y, Move(Answers(k, Rejected), true, taken));
      && z.tasks == map[] && z.next == y.next + 1 && !z.s.creating && z.s.pendingCreate == Some(p.(uncertain := false, error := true))
      && (!taken ==> z.s.disk == y.s.disk)
  {
    hide Persist;
  }

  lemma Instead(y: System, e: Event, taken: bool)
    requires e.Creates? && e.canCreate && ValidText(e.text) && !y.s.creating
    requires y.s.pendingCreate.Some? && !y.s.pendingCreate.value.uncertain && y.s.pendingCreate.value.error
    ensures
      var n := Move(e, true, taken);
      && Asks(y, n).Some? && (!taken ==> Step(y, n).s.disk == y.s.disk)
      && (taken ==> InStorage(Step(y, n).s, e.token))
  {
    hide ValidText;
  }

  /** What a replacement asks of the owner. */
  lemma ReplacingValid(w: World, m: Move, n: Move)
    requires DoubtOk(w) && Replacing(w, m, n)
    ensures
      var p := w.y.tasks[m.event.k].pending;
      n.event.Creates? && n.event.canCreate && ValidText(n.event.text) && n.event.token != p.requestId && ValidText(p.draft)
  {
    hide Holds, MadeOk, SentOk, At, LocksOk, ValidText, AttemptOk, Persist;
    SentHere(w, m.event.k);
    RejectedAsksNothing(w, m);
    assert ValidText(w.y.tasks[m.event.k].pending.draft) by { PendingValid(w, m.event.k); }
    AsksValid(Step(w.y, m), n);
  }

  lemma PendingValid(w: World, k: nat)
    requires WorldOk(w) && k in w.y.tasks && w.y.tasks[k].Creating?
    ensures ValidText(w.y.tasks[k].pending.draft)
  {
    hide Holds, MadeOk, SentOk, At, ValidText;
    assert TaskOk(w.y.s, w.y.tasks[k]);
  }

  lemma AsksValid(y: System, n: Move)
    requires n.event.Creates? && Asks(y, n).Some? && y.next !in y.tasks
    ensures n.event.canCreate && ValidText(n.event.text)
  {
    hide ValidText, Publish;
  }

  /** To the owner the two look the same: the same creation, rejected at its first attempt or not, replaced by the same
      new one, with storage the same. */
  predicate Alike(y: System, m: Move, n: Move, y': System, m': Move, n': Move)
    requires Rejecting(y, m) && Rejecting(y', m')
  {
    var (p, p') := (y.tasks[m.event.k].pending, y'.tasks[m'.event.k].pending);
    && IntentOf(p) == IntentOf(p') && p.error == p'.error && n.event == n'.event
    && (InStorage(Step(Step(y, m), n).s, p.requestId) <==> InStorage(Step(Step(y', m'), n').s, p.requestId))
  }

  /** A run from a new page leads to such a replacement, and goes on to make the replaced creation. */
  ghost predicate Makes(acts: seq<Act>, m': Move, n': Move, y: System, m: Move, n: Move)
    requires Rejecting(y, m)
  {
    && AllPossible(FRESH, acts)
    && var w := Play(FRESH, acts);
    && Replacing(w, m', n') && Alike(y, m, n, w.y, m', n')
    && MadeAfterwards(w, m', n', y.tasks[m.event.k].pending.requestId)
  }

  lemma DoubtIsReached(w: World, m: Move, n: Move) returns (acts: seq<Act>, m': Move, n': Move)
    requires DoubtOk(w) && Replacing(w, m, n) && InDoubt(w.y, m, n)
    ensures Makes(acts, m', n', w.y, m, n)
  {
    hide WorldOk, Step, Asks, Next, Possible, Play, AllPossible, FRESH, Underway, InStorage, MadeIn, ValidText, AttemptOk;
    var p := w.y.tasks[m.event.k].pending;
    var i := IntentOf(p);
    var taken := !InStorage(Step(Step(w.y, m), n).s, p.requestId);
    var k := if p.error then 2 else 0;
    ReplacingValid(w, m, n);
    RefusesFirst(i);
    RefusesSecond(i);
    acts := if p.error then RefusedAfterLoss(i) else RefusedAtOnce(i);
    var x := Play(FRESH, acts);
    var q := if p.error then Again(i) else First(i);
    assert Refused(x, k, q);
    FreshDoubt();
    PlayDoubt(FRESH, acts);
    Replaces(x, k, q, n.event, taken);
    m', n' := Move(Answers(k, Rejected), true, taken), Move(n.event, true, taken);
    assert x.y.tasks[k].pending == q && x.made == map[] by { UnderwayIs(x, k, q); }
    AfterReplacing(x, m', n');
    MayBeMadeIff(Next(Next(x, Client(m')), Client(n')), p.requestId);
  }

  lemma UnderwayIs(w: World, k: nat, p: PendingCreate)
    requires Refused(w, k, p)
    ensures k in w.y.tasks && w.y.tasks[k].Creating? && w.y.tasks[k].pending == p && w.made == map[]
  {
  }

  /** Over every run from a new page: a creation that was definitely rejected and then replaced is in doubt if and
      only if some run from a new page leads to the same, as the owner sees it, and goes on to make it. */
  lemma DoubtIsReachedIff(acts: seq<Act>, m: Move, n: Move)
    requires AllPossible(FRESH, acts) && Replacing(Play(FRESH, acts), m, n)
    ensures
      var y := Play(FRESH, acts).y;
      Rejecting(y, m) && (InDoubt(y, m, n) <==> exists acts', m', n' :: Makes(acts', m', n', y, m, n))
  {
    hide DoubtOk, Play, FRESH, AllPossible, Replacing, InDoubt, Makes;
    FreshDoubt();
    PlayDoubt(FRESH, acts);
    var w := Play(FRESH, acts);
    ReplacingIs(w, m, n);
    if InDoubt(w.y, m, n) {
      var acts', m', n' := DoubtIsReached(w, m, n);
    }
    forall acts', m', n' | Makes(acts', m', n', w.y, m, n) ensures InDoubt(w.y, m, n) { MakesDoubts(acts', m', n', w.y, m, n); }
  }

  lemma MakesDoubts(acts: seq<Act>, m': Move, n': Move, y: System, m: Move, n: Move)
    requires Rejecting(y, m) && Makes(acts, m', n', y, m, n)
    ensures InDoubt(y, m, n)
  {
    hide DoubtOk, Step, Play, FRESH, AllPossible, Replacing, MadeAfterwards, InStorage;
    ReplacingIs(Play(FRESH, acts), m', n');
    MadeInDoubt(Play(FRESH, acts), m', n');
  }
}
