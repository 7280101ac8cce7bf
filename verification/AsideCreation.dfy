/**
 Creations against the server. Every attempt to create an aside carries the identity of its request, and the
 server answers a repeated one with its receipt; so however often a creation is retried, restored or answered
 late, it makes one aside at most.
 */
module AsideCreation {
  import opened Wrappers
  import opened AsideProtocol
  import opened AsideInvariants
  import opened AsideRuns
  import opened AsidePersistence
  import opened AsideRecovery

  function IntentOf(p: PendingCreate): Intent {
    Intent(p.requestId, p.target, p.draft)
  }

  // ----- What the owner holds and sends

  /** Every creation that is held, in memory or in storage, is one of these. */
  ghost predicate Holds(s: State, ops: iset<Intent>) {
    && (s.pendingCreate.Some? ==> IntentOf(s.pendingCreate.value) in ops)
    && (s.disk.Some? && s.disk.value.pendingCreate.Some? ==> IntentOf(s.disk.value.pendingCreate.value) in ops)
  }

  lemma FramedHolds(s: State, t: State, ops: iset<Intent>)
    requires Holds(s, ops) && FramedCreate(s, t)
    ensures Holds(t, ops)
  {
  }

  lemma PublishHolds(s: State, w: bool, ops: iset<Intent>)
    requires Holds(s, ops)
    ensures Holds(Publish(s, w), ops)
  {
  }

  lemma CallHolds(s: State, m: Move, ops: iset<Intent>)
    requires Holds(s, ops) && WF(s)
    requires m.event.Creates? ==> Intent(m.event.token, m.event.target, m.event.text) in ops
    ensures Holds(Call(s, m).0, ops)
  {
    hide Holds, At, Edit, SaveGo, SetStateGo, Reconcile, Create, RetryCreate, OpenAside, Refresh, FramedCreate, LockTurn, Publish;
    var u := Call(s, m).0;
    FramedSelf(s);
    match m.event
    case Edits(target, text) => EditFramed(s, target, text, m.allowed, m.w); TurnHolds(s, u, ops);
    case Saves(target, token) => SaveGoTurn(s, target, token, m.allowed, m.w); FramedHolds(s, u, ops);
    case Sets(target, lifecycle, token) => SetStateGoTurn(s, target, lifecycle, token, m.allowed, m.w); FramedHolds(s, u, ops);
    case Reconciles(target) => WellFormedAt(s, target); ReconcileTurn(s, target, m.allowed, m.w); FramedHolds(s, u, ops);
    case Opens(target, refresh) => OpenFramed(s, target, refresh, m.allowed, m.w); TurnHolds(s, u, ops);
    case Refreshes(revalidate) => RefreshFramed(s, revalidate, m.allowed, m.w); TurnHolds(s, u, ops);
    case Creates(target, text, token, canCreate) => CreateHolds(s, target, text, token, m.allowed, canCreate, m.w, ops);
    case RetriesCreate => RetryHolds(s, m.allowed, m.w, ops);
    case _ => RestFramed(s, m); TurnHolds(s, u, ops);
  }

  lemma FramedSelf(s: State)
    ensures FramedCreate(s, s)
  {
  }

  lemma TurnHolds(s: State, t: State, ops: iset<Intent>)
    requires Holds(s, ops) && Framed(s, t)
    ensures Holds(t, ops)
  {
    FramedHolds(s, t, ops);
  }

  lemma RetryHolds(s: State, allowed: bool, w: bool, ops: iset<Intent>)
    requires Holds(s, ops)
    ensures Holds(RetryCreate(s, allowed, w).0, ops)
  {
    hide Publish;
    if s.pendingCreate.Some? {
      PublishHolds(s.(createRejected := false, creating := true,
                      pendingCreate := Some(s.pendingCreate.value.(uncertain := false, error := false))), w, ops);
    }
  }

  lemma CreateHolds(s: State, target: Target, text: string, token: Token, allowed: bool, canCreate: bool, w: bool, ops: iset<Intent>)
    requires Holds(s, ops) && Intent(token, target, text) in ops
    ensures Holds(Create(s, target, text, token, allowed, canCreate, w).0, ops)
  {
    hide Publish, RetryCreate, ValidText;
    PublishHolds(s, w, ops);
    var t := s.(createRejected := false, pendingCreate := Some(PendingCreate(token, target, text, false, false)));
    PublishHolds(t, w, ops);
    RetryHolds(Publish(t, w), allowed, w, ops);
  }

  lemma WakeHolds(s: State, t: Task, m: Move, ops: iset<Intent>)
    requires Holds(s, ops) && WF(s) && TaskOk(s, t) && Wake(s, t, m).Some?
    ensures Holds(Wake(s, t, m).value.0, ops)
  {
    hide Holds, At, CreateOk, ReadFinish, PerformReply, CreateReply, ReferenceReply, ListReply, Resume, FramedCreate, LockTurn, Owns;
    var u := Wake(s, t, m).value.0;
    match m.event
    case Answers(_, response) =>
      match t {
        case Reading(_, _, _, _, _) => ReadFramed(s, t, response, m.allowed, m.w); TurnHolds(s, u, ops);
        case Performing(target, op) => PerformReplyTurn(s, target, op, response, m.allowed, m.w); FramedHolds(s, u, ops);
        case Creating(_, _) => CreateReplyHolds(s, t, response, m.allowed, m.w, ops);
        case Referencing(_, _) => ReferenceFramed(s, t, response, m.allowed, m.w); TurnHolds(s, u, ops);
        case _ =>
      }
    case Lists(_, items) => ListFramed(s, t, items, m.allowed, m.w); TurnHolds(s, u, ops);
    case Continues(_, token) => ResumeHolds(s, t, token, m, ops);
    case _ =>
  }

  lemma ResumeHolds(s: State, t: Task, token: Token, m: Move, ops: iset<Intent>)
    requires Holds(s, ops) && t.Resuming?
    ensures Holds(Resume(s, t.ok, t.after, token, m.allowed, m.w).0, ops)
  {
    hide Holds, SaveGo, SetStateGo, Finish, FramedCreate, LockTurn;
    var u := Resume(s, t.ok, t.after, token, m.allowed, m.w).0;
    FramedSelf(s);
    match t.after {
      case Nothing =>
      case ThenSave(target, _) => SaveGoTurn(s, target, token, m.allowed, m.w);
      case ThenSetState(target, lifecycle) => SetStateGoTurn(s, target, lifecycle, token, m.allowed, m.w);
      case ThenFinish(target, op, acknowledged, locked) => FinishTurn(s, target, op, acknowledged, locked, m.w);
    }
    FramedHolds(s, u, ops);
  }

  lemma CreateReplyHolds(s: State, t: Task, response: Response, allowed: bool, w: bool, ops: iset<Intent>)
    requires Holds(s, ops) && t.Creating? && TaskOk(s, t)
    ensures Holds(CreateReply(s, t, response, allowed, w).0, ops)
  {
    hide Publish, Merge, Admissible, Consistent, CreateFailed, RetainReference, Created, AcknowledgesCreate, Holds, FramedCreate;
    var p := t.pending;
    assert IntentOf(p) in ops by { HeldPending(s, t, ops); }
    FailedHolds(s, p, response.Rejected? || response.Conflicted?, w, ops);
    FailedHolds(s, p, false, w, ops);
    if response.Body? {
      var r := response.record;
      var s0 := RetainReference(s, r);
      MergeFramed(s0, r, w);
      var s1 := if r.id in s.restored then s0 else Merge(s0, r, w).0;
      RetainedHolds(s, r, ops);
      if r.id !in s.restored { TurnHolds(s0, s1, ops); }
      FailedHolds(s1, p, false, w, ops);
      MadeHolds(s1, r, p.uncertain || r.id in s.restored, s1.selectionRevision == t.selectionRevision, w, ops);
    }
  }

  lemma HeldPending(s: State, t: Task, ops: iset<Intent>)
    requires Holds(s, ops) && t.Creating? && TaskOk(s, t)
    ensures IntentOf(t.pending) in ops
  {
  }

  lemma RetainedHolds(s: State, r: Record, ops: iset<Intent>)
    requires Holds(s, ops)
    ensures Holds(RetainReference(s, r), ops)
  {
  }

  lemma FailedHolds(s: State, p: PendingCreate, rejected: bool, w: bool, ops: iset<Intent>)
    requires Holds(s, ops) && IntentOf(p) in ops
    ensures Holds(CreateFailed(s, p, rejected, w), ops)
  {
    hide Publish;
    PublishHolds(s.(createRejected := rejected, creating := false, pendingCreate := Some(p.(uncertain := !rejected, error := true))), w, ops);
  }

  lemma MadeHolds(s: State, r: Record, again: bool, select: bool, w: bool, ops: iset<Intent>)
    requires Holds(s, ops)
    ensures Holds(Created(s, r, again, select, w), ops)
  {
    hide Publish;
    var s1 := if again then s.(stale := s.stale + {r.id}) else ConfirmRead(s, r);
    var s2 := if select then s1.(selected := Some(r.id)) else s1;
    PublishHolds(Summarized(s2, r).(pendingCreate := None, creating := false), w, ops);
  }

  /** One move brings in only the creation that it starts. */
  lemma StepHolds(y: System, m: Move, ops: iset<Intent>)
    requires Inv(y) && Holds(y.s, ops)
    requires m.event.Creates? ==> Intent(m.event.token, m.event.target, m.event.text) in ops
    ensures Holds(Step(y, m).s, ops)
  {
    hide Wake, Call, LocksOk, At, CreateOk;
    if m.event.Crashes? {
    } else if Woken(m.event).Some? {
      var k := Woken(m.event).value;
      if k in y.tasks && Wake(y.s, y.tasks[k], m).Some? {
        assert TaskOk(y.s, y.tasks[k]) by { TasksOk(y, k); }
        WakeHolds(y.s, y.tasks[k], m, ops);
      }
    } else {
      CallHolds(y.s, m, ops);
    }
  }

  /** The request that a move sends, if it sends a creation. */
  function Asks(y: System, m: Move): Option<Intent> {
    var k := y.next;
    if k in Step(y, m).tasks && Step(y, m).tasks[k].Creating? then Some(IntentOf(Step(y, m).tasks[k].pending)) else None
  }

  /** It is a new one, or the one that is held. */
  lemma AsksWhat(y: System, m: Move)
    requires Inv(y)
    ensures Asks(y, m).Some? ==>
      || (m.event.Creates? && Asks(y, m).value == Intent(m.event.token, m.event.target, m.event.text))
      || (m.event.RetriesCreate? && y.s.pendingCreate.Some? && Asks(y, m).value == IntentOf(y.s.pendingCreate.value))
    ensures forall k :: k in Step(y, m).tasks && k != y.next ==> k in y.tasks && Step(y, m).tasks[k] == y.tasks[k]
    ensures y.next <= Step(y, m).next && (Asks(y, m).Some? ==> y.next < Step(y, m).next)
  {
    hide Wake, Call, WF, TaskOk, LockTurn, CreateTurn;
    if m.event.Crashes? {
    } else if Woken(m.event).Some? {
      var k := Woken(m.event).value;
      if k in y.tasks && Wake(y.s, y.tasks[k], m).Some? {
        TasksOk(y, k);
        NoCreation(y.s, y.tasks[k], m);
      }
    } else {
      CallAsks(y.s, m);
    }
  }

  lemma NoCreation(s: State, t: Task, m: Move)
    requires WF(s) && TaskOk(s, t) && Wake(s, t, m).Some?
    ensures Wake(s, t, m).value.1.Some? ==> !Wake(s, t, m).value.1.value.Creating?
  {
    hide At, CreateOk, ReadFinish, PerformReply, CreateReply, ReferenceReply, ListReply, Resume, LockTurn, FramedCreate, Owns;
    match m.event
    case Answers(_, response) =>
      match t {
        case Performing(target, op) => PerformReplyTurn(s, target, op, response, m.allowed, m.w);
        case Creating(_, _) => CreateReplyTurn(s, t, response, m.allowed, m.w);
        case _ =>
      }
    case Continues(_, token) => ResumeMakes(s, t, token, m);
    case _ =>
  }

  lemma ResumeMakes(s: State, t: Task, token: Token, m: Move)
    requires t.Resuming?
    ensures
      var n := Resume(s, t.ok, t.after, token, m.allowed, m.w).1;
      n.Some? ==> n.value.Performing?
  {
    hide SaveGo, SetStateGo, Finish;
    match t.after
    case Nothing =>
    case ThenSave(target, _) => SaveGoShape(s, target, token, m.allowed, m.w);
    case ThenSetState(target, lifecycle) => SetStateGoShape(s, target, lifecycle, token, m.allowed, m.w);
    case ThenFinish(_, _, _, _) =>
  }

  lemma CallAsks(s: State, m: Move)
    ensures Call(s, m).1.Some? && Call(s, m).1.value.Creating? ==>
      || (m.event.Creates? && IntentOf(Call(s, m).1.value.pending) == Intent(m.event.token, m.event.target, m.event.text))
      || (m.event.RetriesCreate? && s.pendingCreate.Some? && IntentOf(Call(s, m).1.value.pending) == IntentOf(s.pendingCreate.value))
  {
    hide Publish, ValidText, Edit, SaveGo, SetStateGo, Reconcile, OpenAside, Refresh;
    match m.event
    case Saves(target, token) => SaveGoShape(s, target, token, m.allowed, m.w);
    case Sets(target, lifecycle, token) => SetStateGoShape(s, target, lifecycle, token, m.allowed, m.w);
    case Reconciles(target) => ReconcileShape(s, target, m.allowed, m.w);
    case Opens(target, refresh) => OpenFramed(s, target, refresh, m.allowed, m.w);
    case Refreshes(revalidate) => RefreshFramed(s, revalidate, m.allowed, m.w);
    case _ =>
  }

  // ----- Owner, server and network

  datatype Made = Made(intent: Intent, record: Record)

  /** `made` are the receipts, and `asides` says which request made each aside. */
  datatype World = World(y: System, made: map<Token, Made>, asides: map<Id, Token>,
                         sent: map<nat, Intent>, answers: map<nat, Response>, issued: map<Token, Intent>)

  datatype Act =
    | Client(m: Move)
    | Arrives(k: nat, refused: bool, r: Record)  // an attempt reaches the server, which would make `r`
    | Others(i: Intent, r: Record)               // another client's creation

  /** The aside that the server makes for a request: a new one, as asked for. */
  predicate Fits(w: World, i: Intent, r: Record) {
    r.id !in w.asides && r.revision == 1 && r.lifecycle.Open? && r.draft == i.draft && r.source.target == i.target
  }

  /** Tokens are fresh, and an answer to a creation is the server's or lost; other answers are anything. */
  predicate Possible(w: World, a: Act) {
    match a
    case Client(m) =>
      && (m.event.Creates? ==> m.event.token !in w.issued && m.event.token !in w.made)
      && (m.event.Answers? && m.event.k in w.y.tasks && w.y.tasks[m.event.k].Creating? ==>
            m.event.response.Unknown? || (m.event.k in w.answers && m.event.response == w.answers[m.event.k]))
    case Arrives(k, refused, r) => k in w.sent && k !in w.answers && (refused || Fits(w, w.sent[k], r))
    case Others(i, r) => i.requestId !in w.issued && Fits(w, i, r)
  }

  /** One request: its receipt, or a new aside. */
  function Serve(w: World, i: Intent, r: Record): (World, Response) {
    if i.requestId in w.made then
      (w, if w.made[i.requestId].intent == i then Body(w.made[i.requestId].record) else Conflicted)
    else
      (w.(made := w.made[i.requestId := Made(i, r)], asides := w.asides[r.id := i.requestId]), Body(r))
  }

  function Next(w: World, a: Act): World {
    match a
    case Client(m) =>
      var i := Asks(w.y, m);
      if i.Some? then
        w.(y := Step(w.y, m), sent := w.sent[w.y.next := i.value], issued := w.issued[i.value.requestId := i.value])
      else w.(y := Step(w.y, m))
    case Arrives(k, refused, r) =>
      if k !in w.sent then w
      else if refused then w.(answers := w.answers[k := Rejected])
      else
        var (v, answer) := Serve(w, w.sent[k], r);
        v.(answers := w.answers[k := answer])
    case Others(i, r) => Serve(w, i, r).0
  }

  predicate AllPossible(w: World, acts: seq<Act>)
    decreases |acts|
  {
    acts == [] || (Possible(w, acts[0]) && AllPossible(Next(w, acts[0]), acts[1..]))
  }

  function Play(w: World, acts: seq<Act>): World
    decreases |acts|
  {
    if acts == [] then w else Play(Next(w, acts[0]), acts[1..])
  }

  ghost function Issued(w: World): iset<Intent> {
    iset i: Intent | i.requestId in w.issued && w.issued[i.requestId] == i
  }

  ghost predicate MadeOk(w: World, t: Token)
    requires t in w.made
  {
    var (i, r) := (w.made[t].intent, w.made[t].record);
    && i.requestId == t && r.revision == 1 && r.draft == i.draft && r.source.target == i.target
    && r.id in w.asides && w.asides[r.id] == t
    && (t in w.issued ==> w.issued[t] == i)
  }

  ghost predicate SentOk(w: World, k: nat)
    requires k in w.sent
  {
    && k < w.y.next && w.sent[k].requestId in w.issued && w.issued[w.sent[k].requestId] == w.sent[k]
    && (k in w.answers && w.answers[k].Body? ==>
          w.sent[k].requestId in w.made && w.made[w.sent[k].requestId].record == w.answers[k].record)
  }

  ghost predicate WorldOk(w: World) {
    && Inv(w.y) && Holds(w.y.s, Issued(w))
    && (forall t :: t in w.issued ==> w.issued[t].requestId == t)
    && (forall t :: t in w.made ==> MadeOk(w, t))
    && (forall a :: a in w.asides ==> w.asides[a] in w.made && w.made[w.asides[a]].record.id == a)
    && (forall k :: k in w.sent ==> SentOk(w, k))
    && (forall k :: k in w.answers ==> k in w.sent)
    && (forall k :: k in w.y.tasks && w.y.tasks[k].Creating? ==> k in w.sent && w.sent[k] == IntentOf(w.y.tasks[k].pending))
  }

  lemma NextIs(w: World, m: Move)
    ensures
      var x := Next(w, Client(m));
      && x.y == Step(w.y, m) && x.made == w.made && x.asides == w.asides && x.answers == w.answers
      && (if Asks(w.y, m).Some? then
            var i := Asks(w.y, m).value;
            x.sent == w.sent[w.y.next := i] && x.issued == w.issued[i.requestId := i]
          else x.sent == w.sent && x.issued == w.issued)
  {
    hide Step, Asks;
  }

  lemma AsksTask(y: System, m: Move)
    ensures y.next in Step(y, m).tasks && Step(y, m).tasks[y.next].Creating? ==>
      Asks(y, m) == Some(IntentOf(Step(y, m).tasks[y.next].pending))
  {
    hide Step;
  }

  /** A request that is repeated is the one that was issued. */
  lemma AsksHeld(w: World, m: Move)
    requires WorldOk(w) && Possible(w, Client(m))
    ensures
      var i := Asks(w.y, m);
      i.Some? ==> (if i.value.requestId in w.issued then w.issued[i.value.requestId] == i.value else i.value.requestId !in w.made)
  {
    hide Inv, Step, Asks;
    AsksWhat(w.y, m);
  }

  lemma ClientHolds(w: World, m: Move)
    requires WorldOk(w) && Possible(w, Client(m))
    ensures Holds(Next(w, Client(m)).y.s, Issued(Next(w, Client(m))))
  {
    hide Inv, Step, Asks, Holds, Next, MadeOk, SentOk;
    var x := Next(w, Client(m));
    NextIs(w, m);
    AsksHeld(w, m);
    AsksWhat(w.y, m);
    MoreHolds(w.y.s, Issued(w), Issued(x));
    if m.event.Creates? && Asks(w.y, m).None? {
      NotAsked(w.y, m);
      FramedHolds(w.y.s, x.y.s, Issued(x));
    } else {
      StepHolds(w.y, m, Issued(x));
    }
  }

  lemma MoreHolds(s: State, ops: iset<Intent>, more: iset<Intent>)
    requires Holds(s, ops) && ops <= more
    ensures Holds(s, more)
  {
  }

  /** A creation that is not sent is not held either. */
  lemma NotAsked(y: System, m: Move)
    requires Inv(y) && m.event.Creates? && Asks(y, m).None?
    ensures FramedCreate(y.s, Step(y, m).s)
  {
    hide WF, TaskOk, Publish, ValidText;
  }

  lemma ClientOk(w: World, m: Move)
    requires WorldOk(w) && Possible(w, Client(m))
    ensures WorldOk(Next(w, Client(m)))
  {
    hide Inv, Step, Holds, Asks, Next, MadeOk, SentOk, Possible;
    var x := Next(w, Client(m));
    NextIs(w, m);
    StepInv(w.y, m);
    AsksWhat(w.y, m);
    ClientHolds(w, m);
    AsksTask(w.y, m);
    forall t | t in x.made ensures MadeOk(x, t) { ClientMade(w, m, t); }
    forall k | k in x.sent ensures SentOk(x, k) { ClientSent(w, m, k); }
  }

  lemma ClientMade(w: World, m: Move, t: Token)
    requires WorldOk(w) && Possible(w, Client(m)) && t in w.made
    ensures t in Next(w, Client(m)).made && MadeOk(Next(w, Client(m)), t)
  {
    hide Inv, Step, Holds, Asks, Next, SentOk, Possible;
    NextIs(w, m);
    AsksHeld(w, m);
    assert MadeOk(w, t);
  }

  lemma ClientSent(w: World, m: Move, k: nat)
    requires WorldOk(w) && Possible(w, Client(m)) && k in Next(w, Client(m)).sent
    ensures SentOk(Next(w, Client(m)), k)
  {
    hide Inv, Step, Holds, Asks, Next, MadeOk, Possible;
    NextIs(w, m);
    AsksHeld(w, m);
    AsksWhat(w.y, m);
    if k in w.sent { assert SentOk(w, k); }
    NotAnswered(w);
  }

  lemma NotAnswered(w: World)
    requires WorldOk(w)
    ensures forall k :: k in w.answers ==> k in w.sent && k < w.y.next
  {
    hide Inv, Holds, MadeOk;
    forall k | k in w.answers ensures k < w.y.next { assert SentOk(w, k); }
  }

  // ----- A move of the server

  lemma ServeOk(w: World, i: Intent, r: Record)
    requires WorldOk(w) && Fits(w, i, r) && (i.requestId in w.issued ==> w.issued[i.requestId] == i)
    ensures WorldOk(Serve(w, i, r).0) && Serve(w, i, r).0.answers == w.answers && Serve(w, i, r).0.sent == w.sent
    ensures Serve(w, i, r).1.Body? ==>
      i.requestId in Serve(w, i, r).0.made && Serve(w, i, r).0.made[i.requestId].record == Serve(w, i, r).1.record
  {
    hide Inv, Holds;
    var x := Serve(w, i, r).0;
    if i.requestId !in w.made {
      forall t | t in x.made ensures MadeOk(x, t) { if t in w.made { assert MadeOk(w, t); } }
      forall k | k in x.sent ensures SentOk(x, k) { assert SentOk(w, k); }
      forall a | a in x.asides ensures x.asides[a] in x.made && x.made[x.asides[a]].record.id == a { }
    }
  }

  /** What was answered is on record. */
  lemma AnswerOk(w: World, k: nat, answer: Response)
    requires WorldOk(w) && k in w.sent && k !in w.answers
    requires answer.Body? ==> w.sent[k].requestId in w.made && w.made[w.sent[k].requestId].record == answer.record
    ensures WorldOk(w.(answers := w.answers[k := answer]))
  {
    hide Inv, Holds;
    var x := w.(answers := w.answers[k := answer]);
    forall t | t in x.made ensures MadeOk(x, t) { assert MadeOk(w, t); }
    forall j | j in x.sent ensures SentOk(x, j) { assert SentOk(w, j); }
  }

  lemma NextOk(w: World, a: Act)
    requires WorldOk(w) && Possible(w, a)
    ensures WorldOk(Next(w, a))
  {
    hide WorldOk, Serve, Fits, Step, Asks;
    match a
    case Client(m) => ClientOk(w, m);
    case Arrives(k, refused, r) =>
      var i := w.sent[k];
      IssuedIs(w, k);
      if refused {
        AnswerOk(w, k, Rejected);
      } else {
        ServeOk(w, i, r);
        AnswerOk(Serve(w, i, r).0, k, Serve(w, i, r).1);
      }
    case Others(i, r) => ServeOk(w, i, r);
  }

  lemma IssuedIs(w: World, k: nat)
    requires WorldOk(w) && k in w.sent
    ensures w.sent[k].requestId in w.issued && w.issued[w.sent[k].requestId] == w.sent[k]
  {
    hide Inv, Holds, MadeOk;
    assert SentOk(w, k);
  }

  lemma {:induction false} PlayOk(w: World, acts: seq<Act>)
    requires WorldOk(w) && AllPossible(w, acts)
    ensures WorldOk(Play(w, acts))
    decreases |acts|
  {
    hide WorldOk, Possible, Next;
    if acts != [] {
      NextOk(w, acts[0]);
      PlayOk(Next(w, acts[0]), acts[1..]);
    }
  }

  /** A new page without storage, before a server that made nothing yet. */
  const FRESH := World(System(Restore(None), map[], 0), map[], map[], map[], map[], map[])

  lemma FreshOk()
    ensures WorldOk(FRESH)
  {
    RestoreInv(None);
  }

  // ----- What it amounts to

  /** In every run each creation makes one aside at most, however often it is retried, restored from storage or
      answered late; and that aside has the text and the target that the user asked for. */
  lemma CreatedAtMostOnce(acts: seq<Act>, t: Token)
    requires AllPossible(FRESH, acts)
    ensures
      var w := Play(FRESH, acts);
      && (forall a, b :: a in w.asides && b in w.asides && w.asides[a] == w.asides[b] ==> a == b)
      && (t in w.made && t in w.issued ==>
            && w.made[t].record.revision == 1 && w.made[t].record.draft == w.issued[t].draft
            && w.made[t].record.source.target == w.issued[t].target && w.made[t].record.id in w.asides)
  {
    hide Inv, Holds, Possible, Next, SentOk, Play, FRESH;
    FreshOk();
    PlayOk(FRESH, acts);
    var w := Play(FRESH, acts);
    if t in w.made { assert MadeOk(w, t); }
  }

  /** The owner gives a creation up as acknowledged only once exactly it was made. */
  lemma AcknowledgedWasMade(w: World, m: Move)
    requires WorldOk(w) && Possible(w, Client(m)) && m.event.Answers? && m.event.k in w.y.tasks && w.y.tasks[m.event.k].Creating?
    requires w.y.s.pendingCreate.Some? && Step(w.y, m).s.pendingCreate.None?
    ensures
      var i := IntentOf(w.y.s.pendingCreate.value);
      && m.event.response.Body? && i.requestId in w.made && w.made[i.requestId] == Made(i, m.event.response.record)
  {
    hide WF, Holds, Step;
    var k := m.event.k;
    assert TaskOk(w.y.s, w.y.tasks[k]);
    ClearedBy(w.y, m);
    assert SentOk(w, k);
    assert MadeOk(w, w.sent[k].requestId);
  }

  lemma ClearedBy(y: System, m: Move)
    requires m.event.Answers? && m.event.k in y.tasks && y.tasks[m.event.k].Creating?
    requires Step(y, m).s.pendingCreate.None?
    ensures m.event.response.Body?
  {
    hide Publish, Merge, Created, RetainReference, Consistent, AcknowledgesCreate;
  }
}
