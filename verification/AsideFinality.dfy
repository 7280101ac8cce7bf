/**
 What the owner itself can know when the server definitely rejects a request. It sees neither receipts nor
 what is still on its way, only its own state and whether the request it sent repeated one of unknown outcome.
 */
module AsideFinality {
  import opened Wrappers
  import opened AsideProtocol
  import opened AsideInvariants
  import opened AsideRuns
  import opened AsideProvenance
  import opened AsideDoubt
  import opened AsideServer
  import opened AsideRejection

  // ----- Attempts

  ghost predicate Attempted(w: World, t: Token) {
    exists j :: j in w.sent && w.sent[j].1.requestId == t
  }

  /** A request whose outcome is not in doubt is the only attempt of its token; any other repeats one. */
  ghost predicate AttemptOk(w: World, k: nat)
    requires k in w.y.tasks && w.y.tasks[k].Performing?
  {
    var task := w.y.tasks[k];
    if task.op.uncertain then exists j :: j in w.sent && j != k && w.sent[j] == (task.id, task.op.payload)
    else forall j :: j in w.sent && w.sent[j].1.requestId == task.op.payload.requestId ==> j == k
  }

  ghost predicate DoubtOk(w: World) {
    && WorldOk(w)
    && (forall id :: SureAt(w.y.s, id))
    && (forall t :: t in w.issued ==> Attempted(w, t))
    && (forall k :: k in w.y.tasks && w.y.tasks[k].Performing? ==> AttemptOk(w, k))
  }

  lemma AttemptIs(w: World, t: Token) returns (j: nat)
    requires WorldOk(w) && t in w.issued && Attempted(w, t)
    ensures j in w.sent && w.sent[j] == w.issued[t] && j < w.y.next
  {
    hide Inv, ServerOk, From, IssuedOk;
    j :| j in w.sent && w.sent[j].1.requestId == t;
    assert SentOk(w, j);
  }

  /** What a move that sends adds, by who asked for it. */
  lemma SendsNew(w: World, m: Move)
    requires DoubtOk(w) && Possible(w, Client(m)) && Sends(w.y, m).Some?
    ensures
      var (id, p) := Sends(w.y, m).value;
      var x := Step(w.y, m);
      && w.y.next in x.tasks && x.tasks[w.y.next].Performing? && x.tasks[w.y.next].id == id && x.tasks[w.y.next].op.payload == p
      && (if m.event.Reconciles? then
            p.requestId in w.issued && w.issued[p.requestId] == (id, p) && id !in w.y.s.mutations && x.tasks[w.y.next].op.uncertain
          else p.requestId !in w.issued)
  {
    hide Inv, Step, ServerOk, IssuedOk, SentOk, SureAt;
    StepSends(w.y, m);
    var (id, p) := Sends(w.y, m).value;
    if m.event.Reconciles? {
      RepeatsDoubt(w.y, m);
      assert From(w.y.s, id, RecordsOf(w.v, id), IssuedFor(w, id));
      assert p in IssuedFor(w, id);
    }
  }

  /** Who holds the lock of an aside. */
  lemma HolderLocks(w: World, k: nat)
    requires WorldOk(w) && k in w.y.tasks && w.y.tasks[k].Performing?
    ensures
      var t := w.y.tasks[k];
      && t.id in w.y.s.mutations && Owns(w.y.s, t.id, t.op)
      && k in w.sent && w.sent[k] == (t.id, t.op.payload)
      && t.op.payload.requestId in w.issued && w.issued[t.op.payload.requestId] == w.sent[k] && k < w.y.next
  {
    hide ServerOk, From, IssuedOk;
    assert TaskOk(w.y.s, w.y.tasks[k]);
    assert SentOk(w, k);
  }

  lemma OldAttempt(w: World, m: Move, k: nat)
    requires DoubtOk(w) && Possible(w, Client(m)) && k in w.y.tasks && w.y.tasks[k].Performing?
    requires var x := Next(w, Client(m)); k in x.y.tasks && x.y.tasks[k] == w.y.tasks[k]
    ensures AttemptOk(Next(w, Client(m)), k)
  {
    hide Inv, Step, ServerOk, IssuedOk, From, SureAt, Sends, WorldOk;
    var x := Next(w, Client(m));
    var task := w.y.tasks[k];
    NextIs(w, m);
    HolderLocks(w, k);
    SentBefore(w);
    assert AttemptOk(w, k);
    if Sends(w.y, m).Some? { SendsNew(w, m); }
    if task.op.uncertain {
      var j :| j in w.sent && j != k && w.sent[j] == (task.id, task.op.payload);
      assert j in x.sent && x.sent[j] == (task.id, task.op.payload);
    }
  }

  lemma SentBefore(w: World)
    requires WorldOk(w)
    ensures forall j :: j in w.sent ==> j < w.y.next && w.sent[j].1.requestId in w.issued
  {
    hide Inv, ServerOk, IssuedOk, From;
    forall j | j in w.sent ensures j < w.y.next && w.sent[j].1.requestId in w.issued { assert SentOk(w, j); }
  }

  lemma NewAttempt(w: World, m: Move)
    requires DoubtOk(w) && Possible(w, Client(m)) && Sends(w.y, m).Some?
    requires w.y.next in Next(w, Client(m)).y.tasks && Next(w, Client(m)).y.tasks[w.y.next].Performing?
    ensures AttemptOk(Next(w, Client(m)), w.y.next)
  {
    hide Inv, Step, ServerOk, IssuedOk, From, SureAt, Sends, WorldOk;
    var x := Next(w, Client(m));
    var (id, p) := Sends(w.y, m).value;
    NextIs(w, m);
    SendsNew(w, m);
    SentBefore(w);
    if m.event.Reconciles? {
      var j := AttemptIs(w, p.requestId);
      assert j in x.sent && x.sent[j] == (id, p);
    } else {
      assert Inv(w.y) by { WorldInv(w); }
      SavesCertain(w.y, m);
    }
  }

  lemma WorldInv(w: World)
    requires WorldOk(w)
    ensures Inv(w.y)
  {
    hide Inv, ServerOk, From, IssuedOk, SentOk;
  }

  /** A new operation starts out without doubt. */
  lemma SavesCertain(y: System, m: Move)
    requires Inv(y) && Sends(y, m).Some? && !m.event.Reconciles?
    ensures !Step(y, m).tasks[y.next].op.uncertain
  {
    hide WF, LocksOk, Call, Wake;
    StepSends(y, m);
    AsideDoubt.NextIsNew(y);
    if m.event.Continues? {
      ResumeCertain(y.s, y.tasks[m.event.k], m);
    } else {
      CallCertain(y.s, m);
    }
  }

  lemma GoIsCertain(s: State, id: Id, lifecycle: Lifecycle, token: Token, allowed: bool, w: bool)
    ensures SaveGo(s, id, token, allowed, w).1.Some? ==> SaveGo(s, id, token, allowed, w).1.value.Performing? && !SaveGo(s, id, token, allowed, w).1.value.op.uncertain
    ensures SetStateGo(s, id, lifecycle, token, allowed, w).1.Some? ==> SetStateGo(s, id, lifecycle, token, allowed, w).1.value.Performing? && !SetStateGo(s, id, lifecycle, token, allowed, w).1.value.op.uncertain
  {
    hide PutDraft;
  }

  lemma ResumeCertain(s: State, t: Task, m: Move)
    requires m.event.Continues? && Wake(s, t, m).Some? && Launched(Wake(s, t, m).value.1).Some?
    ensures !Wake(s, t, m).value.1.value.op.uncertain
  {
    hide SaveGo, SetStateGo, Finish;
    match t.after
    case Nothing =>
    case ThenSave(id, _) => GoIsCertain(s, id, Lifecycle.Open, m.event.token, m.allowed, m.w);
    case ThenSetState(id, lifecycle) => GoIsCertain(s, id, lifecycle, m.event.token, m.allowed, m.w);
    case ThenFinish(_, _, _, _) =>
  }

  lemma CallCertain(s: State, m: Move)
    requires Launched(Call(s, m).1).Some? && !m.event.Reconciles?
    ensures !Call(s, m).1.value.op.uncertain
  {
    hide SaveGo, SetStateGo, Reconcile, Edit, Create, RetryCreate, OpenAside, Refresh;
    match m.event
    case Saves(id, token) => GoIsCertain(s, id, Lifecycle.Open, token, m.allowed, m.w);
    case Sets(id, lifecycle, token) => GoIsCertain(s, id, lifecycle, token, m.allowed, m.w);
    case Creates(target, text, token, canCreate) => CreateLaunches(s, target, text, token, m.allowed, canCreate, m.w);
    case RetriesCreate => RetryLaunches(s, m.allowed, m.w);
    case Opens(id, refresh) => OpenLaunches(s, id, refresh, m.allowed, m.w);
    case Refreshes(revalidate) => OpenLaunches(s, 0, revalidate, m.allowed, m.w);
    case _ =>
  }

  lemma CreateLaunches(s: State, target: Target, text: string, token: Token, allowed: bool, canCreate: bool, w: bool)
    ensures Launched(Create(s, target, text, token, allowed, canCreate, w).1).None?
  {
    hide Publish, ValidText;
  }

  lemma RetryLaunches(s: State, allowed: bool, w: bool)
    ensures Launched(RetryCreate(s, allowed, w).1).None?
  {
    hide Publish;
  }

  lemma OpenLaunches(s: State, id: Id, again: bool, allowed: bool, w: bool)
    ensures Launched(OpenAside(s, id, again, allowed, w).1).None? && Launched(Refresh(s, again, allowed, w).1).None?
  {
    hide Publish;
  }

  lemma DoubtNext(w: World, a: Act)
    requires DoubtOk(w) && Possible(w, a)
    ensures DoubtOk(Next(w, a))
  {
    hide WorldOk, SureAt, Step, Possible;
    AsideServer.NextOk(w, a);
    if a.Client? {
      ClientDoubt(w, a.m);
    } else {
      var x := Next(w, a);
      forall t | t in x.issued ensures Attempted(x, t) { assert Attempted(w, t); }
      forall k | k in x.y.tasks && x.y.tasks[k].Performing? ensures AttemptOk(x, k) { assert AttemptOk(w, k); }
    }
  }

  lemma ClientDoubt(w: World, m: Move)
    requires DoubtOk(w) && Possible(w, Client(m))
    ensures
      var x := Next(w, Client(m));
      && (forall id :: SureAt(x.y.s, id))
      && (forall t :: t in x.issued ==> Attempted(x, t))
      && (forall k :: k in x.y.tasks && x.y.tasks[k].Performing? ==> AttemptOk(x, k))
  {
    hide Inv, Step, ServerOk, IssuedOk, From, SureAt, Sends, SentOk, AttemptOk;
    var x := Next(w, Client(m));
    NextIs(w, m);
    TasksNext(w, m);
    SentBefore(w);
    forall id ensures SureAt(x.y.s, id) { StepSure(w.y, m, id); }
    forall t | t in x.issued ensures Attempted(x, t) { AttemptedNext(w, m, t); }
    forall k | k in x.y.tasks && x.y.tasks[k].Performing? ensures AttemptOk(x, k) {
      if k == w.y.next { SendsIs(w.y, m); NewAttempt(w, m); } else { OldAttempt(w, m, k); }
    }
  }

  lemma AttemptedNext(w: World, m: Move, t: Token)
    requires DoubtOk(w) && t in Next(w, Client(m)).issued
    ensures Attempted(Next(w, Client(m)), t)
  {
    hide Inv, Step, ServerOk, IssuedOk, From, SureAt, Sends;
    var x := Next(w, Client(m));
    NextIs(w, m);
    SentBefore(w);
    if t in w.issued {
      assert Attempted(w, t);
      var j :| j in w.sent && w.sent[j].1.requestId == t;
      assert j in x.sent && x.sent[j] == w.sent[j];
    } else {
      assert w.y.next in x.sent && x.sent[w.y.next].1.requestId == t;
    }
  }

  lemma {:induction false} PlayDoubt(w: World, acts: seq<Act>)
    requires DoubtOk(w) && AllPossible(w, acts)
    ensures DoubtOk(Play(w, acts))
    decreases |acts|
  {
    hide DoubtOk, Possible, Next;
    if acts != [] {
      DoubtNext(w, acts[0]);
      PlayDoubt(Next(w, acts[0]), acts[1..]);
    }
  }

  /** A new page without storage, before any server. */
  function FreshPage(v: Server): World {
    World(System(Restore(None), map[], 0), v, map[], map[], map[])
  }

  lemma FreshPageDoubt(v: Server)
    requires ServerOk(v)
    ensures DoubtOk(FreshPage(v))
  {
    hide WorldOk;
    FreshPageOk(v);
  }

  // ----- A definite rejection

  ghost predicate Rejects(w: World, m: Move) {
    Possible(w, Client(m)) && Rejecting(w.y, m)
  }

  /** In every run from a new page: a request that repeated none and is definitely rejected is committed in some
      continuation if and only if storage still has it, because it refused the write, and the server would take it.
      If storage took the write, the rejection is final. */
  lemma FirstRejectionIsFinalIff(v: Server, acts: seq<Act>, m: Move)
    requires ServerOk(v) && AllPossible(FreshPage(v), acts) && Rejects(Play(FreshPage(v), acts), m)
    requires !Play(FreshPage(v), acts).y.tasks[m.event.k].op.uncertain
    ensures
      var w := Play(FreshPage(v), acts);
      var x := Next(w, Client(m));
      var (id, p) := (w.y.tasks[m.event.k].id, w.y.tasks[m.event.k].op.payload);
      && ((exists more :: CommittedIn(x, more, p.requestId)) <==> StillStored(x.y.s, id, p.requestId) && Acceptable(x.v, id, p))
      && (m.w ==> !StillStored(x.y.s, id, p.requestId))
  {
    hide DoubtOk, Play, FreshPage, CommittedIn, Acceptable, StillStored, Possible, AllPossible, Next;
    FreshPageDoubt(v);
    PlayDoubt(FreshPage(v), acts);
    FirstRejection(Play(FreshPage(v), acts), m);
  }

  lemma FirstRejection(w: World, m: Move)
    requires DoubtOk(w) && Rejects(w, m) && !w.y.tasks[m.event.k].op.uncertain
    ensures
      var x := Next(w, Client(m));
      var (id, p) := (w.y.tasks[m.event.k].id, w.y.tasks[m.event.k].op.payload);
      && ((exists more :: CommittedIn(x, more, p.requestId)) <==> StillStored(x.y.s, id, p.requestId) && Acceptable(x.v, id, p))
      && (m.w ==> !StillStored(x.y.s, id, p.requestId))
  {
    hide Inv, ServerOk, From, Forgotten, CommittedIn, Step, StillStored, Acceptable, At;
    var x := Next(w, Client(m));
    var t := w.y.tasks[m.event.k].op.payload.requestId;
    RejectionIsFinalIff(w, m);
    AfterRejection(w, m);
    RejectedSendsNothing(w, m);
    assert AttemptOk(w, m.event.k);
    assert !Live(x, t) by {
      HolderLocks(w, m.event.k);
      assert IssuedOk(w, t);
    }
  }

  lemma RejectedSendsNothing(w: World, m: Move)
    requires WorldOk(w) && Rejects(w, m)
    ensures var x := Next(w, Client(m)); x.v == w.v && x.sent == w.sent && x.answers == w.answers && x.issued == w.issued
  {
    hide Inv, ServerOk, From, Step, Sends, IssuedOk;
    StepSends(w.y, m);
    NextIs(w, m);
  }

  /** The newest record that the owner knows of is still the one that the request expects, in a state that allows
      it. */
  predicate StillAllowed(s: State, id: Id, p: Payload) {
    && id in s.references && s.references[id].revision == p.expectedRevision
    && !s.references[id].lifecycle.Discarded? && (p.SaveDraft? ==> s.references[id].lifecycle.Open?)
  }

  /** All that the owner can see: the request repeated one of unknown outcome, or storage refused to forget it. */
  predicate InDoubt(y: System, m: Move)
    requires Rejecting(y, m)
  {
    var (id, op) := (y.tasks[m.event.k].id, y.tasks[m.event.k].op);
    (op.uncertain || StillStored(Step(y, m).s, id, op.payload.requestId)) && StillAllowed(y.s, id, op.payload)
  }

  /** A world in which the rejected request is committed after all. */
  ghost predicate CommitsAfterwards(w: World, m: Move, t: Token) {
    && DoubtOk(w) && Rejects(w, m) && t !in w.v.receipts
    && exists acts :: CommittedIn(Next(w, Client(m)), acts, t)
  }

  /** As far as the owner can know, a request that was definitely rejected may still be committed afterwards if
      and only if it is in doubt: exactly then some world with the very same owner goes on to commit it. */
  lemma RejectionInDoubtIff(w: World, m: Move)
    requires DoubtOk(w) && Rejects(w, m)
    ensures
      (exists w': World :: w'.y == w.y && CommitsAfterwards(w', m, w.y.tasks[m.event.k].op.payload.requestId)) <==> InDoubt(w.y, m)
  {
    hide DoubtOk, StillAllowed, CommitsAfterwards, Possible;
    var k := m.event.k;
    var t := w.y.tasks[k].op.payload.requestId;
    forall w': World | w'.y == w.y && CommitsAfterwards(w', m, t) ensures InDoubt(w.y, m) { CommitsInDoubt(w', m); }
    if InDoubt(w.y, m) {
      RejectedAnswered(w, m);
      AllowedIsAllowed(w.y, m);
      ExpectedHere(w, k);
      assert Here(w, k);
      DoubtCommits(w, m);
      assert Elsewhere(w, k).y == w.y && CommitsAfterwards(Elsewhere(w, k), m, t);
    }
  }

  lemma AllowedIsAllowed(y: System, m: Move)
    requires Rejecting(y, m) && InDoubt(y, m)
    ensures StillAllowed(y.s, y.tasks[m.event.k].id, y.tasks[m.event.k].op.payload)
  {
    hide Step, StillStored;
  }

  lemma RejectedAnswered(w: World, m: Move)
    requires Rejects(w, m)
    ensures m.event.k in w.answers
  {
  }

  lemma CommitsInDoubt(w: World, m: Move)
    requires Rejecting(w.y, m) && CommitsAfterwards(w, m, w.y.tasks[m.event.k].op.payload.requestId)
    ensures InDoubt(w.y, m)
  {
    hide Inv, ServerOk, From, Forgotten, CommittedIn, Step, Acceptable, IssuedOk, StillStored, StillAllowed;
    var k := m.event.k;
    var task := w.y.tasks[k];
    var x, t := Next(w, Client(m)), task.op.payload.requestId;
    RejectionIsFinalIff(w, m);
    RejectedSendsNothing(w, m);
    NextIs(w, m);
    HolderLocks(w, k);
    assert AttemptOk(w, k);
    if Live(x, t) {
      var j :| Pending(x, t, j) && Acceptable(x.v, x.sent[j].0, x.sent[j].1);
      assert SentOk(w, j);
      assert w.sent[j] == (task.id, task.op.payload);
    }
    ExpectedIsNewest(w, task.id, task.op);
  }

  lemma ExpectedIsNewest(w: World, id: Id, op: Operation)
    requires WorldOk(w) && Owns(w.y.s, id, op) && Acceptable(w.v, id, op.payload)
    ensures StillAllowed(w.y.s, id, op.payload)
  {
    hide IssuedOk, SentOk, ReceiptOk, LocksOk;
    WellFormedAt(w.y.s, id);
    assert From(w.y.s, id, RecordsOf(w.v, id), IssuedFor(w, id));
    RevisionIs(w.v, id, w.y.s.references[id]);
  }

  lemma ExpectedHere(w: World, k: nat)
    requires DoubtOk(w) && k in w.y.tasks && w.y.tasks[k].Performing? && StillAllowed(w.y.s, w.y.tasks[k].id, w.y.tasks[k].op.payload)
    ensures
      var (id, p) := (w.y.tasks[k].id, w.y.tasks[k].op.payload);
      && id in w.v.history && 1 <= p.expectedRevision <= |w.v.history[id]|
      && w.v.history[id][p.expectedRevision - 1] == w.y.s.references[id]
  {
    hide IssuedOk, SentOk, ReceiptOk, LocksOk, SureAt, AttemptOk;
    var id := w.y.tasks[k].id;
    assert From(w.y.s, id, RecordsOf(w.v, id), IssuedFor(w, id));
    RevisionIs(w.v, id, w.y.s.references[id]);
  }

  // ----- The world in which it is committed

  predicate Placed(w: World, k: nat) {
    && k in w.y.tasks && w.y.tasks[k].Performing? && w.y.tasks[k].id in w.v.history
    && 1 <= w.y.tasks[k].op.payload.expectedRevision <= |w.v.history[w.y.tasks[k].id]|
  }

  /** The same owner, before a server that has seen nothing of it but a refused attempt. */
  function Elsewhere(w: World, k: nat): World
    requires Placed(w, k)
  {
    var (id, p) := (w.y.tasks[k].id, w.y.tasks[k].op.payload);
    var issued := map t | t in w.issued && (w.issued[t].0 != id || w.issued[t].1.expectedRevision <= p.expectedRevision) :: w.issued[t];
    World(w.y, Server(w.v.history[id := w.v.history[id][..p.expectedRevision]], map[], []),
          map j | j in w.sent && w.sent[j].1.requestId in issued :: w.sent[j], map[k := Rejected], issued)
  }

  /** The conditions under which this is a world. */
  ghost predicate Here(w: World, k: nat) {
    && Placed(w, k) && DoubtOk(w) && k in w.answers && StillAllowed(w.y.s, w.y.tasks[k].id, w.y.tasks[k].op.payload)
    && w.v.history[w.y.tasks[k].id][w.y.tasks[k].op.payload.expectedRevision - 1] == w.y.s.references[w.y.tasks[k].id]
  }

  lemma ElsewhereServer(w: World, k: nat)
    requires Here(w, k)
    ensures ServerOk(Elsewhere(w, k).v)
  {
    hide Inv, From, IssuedOk, SentOk, ReceiptOk, SureAt, AttemptOk;
  }

  lemma ElsewhereFrom(w: World, k: nat, id: Id)
    requires Here(w, k)
    ensures var x := Elsewhere(w, k); From(x.y.s, id, RecordsOf(x.v, id), IssuedFor(x, id))
  {
    hide Inv, From, IssuedOk, SentOk, ServerOk, SureAt, AttemptOk, StillAllowed;
    var x := Elsewhere(w, k);
    assert From(w.y.s, id, RecordsOf(w.v, id), IssuedFor(w, id));
    if id == w.y.tasks[k].id {
      HolderLocks(w, k);
      ElsewhereRecords(w, k);
      ElsewhereOps(w, k);
      OwnFrom(w.y.s, id, w.y.tasks[k].op, RecordsOf(x.v, id), IssuedFor(x, id));
    } else {
      assert RecordsOf(x.v, id) == RecordsOf(w.v, id);
      assert IssuedFor(x, id) == IssuedFor(w, id);
    }
  }

  /** Every record that the owner holds of the aside is no newer than the expected one. */
  lemma ElsewhereRecords(w: World, k: nat)
    requires Here(w, k)
    ensures
      var id := w.y.tasks[k].id;
      var s := w.y.s;
      && id in s.drafts && s.drafts[id].record in RecordsOf(Elsewhere(w, k).v, id)
      && id in s.references && s.references[id] in RecordsOf(Elsewhere(w, k).v, id)
  {
    hide IssuedOk, SentOk, ReceiptOk, LocksOk, SureAt, AttemptOk;
    var id := w.y.tasks[k].id;
    var h := Elsewhere(w, k).v.history[id];
    HolderLocks(w, k);
    WellFormedAt(w.y.s, id);
    assert From(w.y.s, id, RecordsOf(w.v, id), IssuedFor(w, id));
    var n := w.y.s.drafts[id].record.revision;
    RevisionIs(w.v, id, w.y.s.drafts[id].record);
    assert h[n - 1] == w.y.s.drafts[id].record;
    assert h[|h| - 1] == w.y.s.references[id];
  }

  /** And so is what every operation rests on that it holds of it, in memory or in storage. */
  lemma ElsewhereOps(w: World, k: nat)
    requires Here(w, k)
    ensures
      var (id, op) := (w.y.tasks[k].id, w.y.tasks[k].op);
      && op.payload in IssuedFor(Elsewhere(w, k), id)
      && Owns(w.y.s, id, op) && id !in w.y.s.restored
      && (w.y.s.disk.Some? && id in w.y.s.disk.value.drafts ==> OpIn(w.y.s.disk.value.drafts[id].operation, IssuedFor(Elsewhere(w, k), id)))
  {
    hide ServerOk, IssuedOk, SentOk, LocksOk, SureAt, AttemptOk, DraftOk, Acceptable, ValidText;
    HolderLocks(w, k);
    var id := w.y.tasks[k].id;
    WellFormedAt(w.y.s, id);
    if w.y.s.disk.Some? && id in w.y.s.disk.value.drafts && w.y.s.disk.value.drafts[id].operation.Some? { StoredIsOld(w.y.s, id); }
    assert From(w.y.s, id, RecordsOf(w.v, id), IssuedFor(w, id));
  }

  lemma StoredIsOld(s: State, id: Id)
    requires At(s, id) && id in s.drafts && s.disk.Some? && id in s.disk.value.drafts && s.disk.value.drafts[id].operation.Some?
    ensures id in s.references && s.disk.value.drafts[id].operation.value.payload.expectedRevision <= s.references[id].revision
  {
  }

  lemma OwnFrom(s: State, id: Id, op: Operation, records: set<Record>, ops: iset<Payload>)
    requires Owns(s, id, op) && op.payload in ops && id !in s.restored
    requires s.drafts[id].record in records && id in s.references && s.references[id] in records
    requires s.disk.Some? && id in s.disk.value.drafts ==> OpIn(s.disk.value.drafts[id].operation, ops)
    ensures From(s, id, records, ops)
  {
  }

  lemma ElsewhereIssued(w: World, k: nat, t: Token)
    requires Here(w, k) && t in Elsewhere(w, k).issued
    ensures IssuedOk(Elsewhere(w, k), t) && Attempted(Elsewhere(w, k), t)
  {
    hide Inv, From, SentOk, ServerOk, SureAt, AttemptOk;
    var x := Elsewhere(w, k);
    assert IssuedOk(w, t);
    HolderLocks(w, k);
    var j := AttemptIs(w, t);
    assert SentOk(w, j);
    assert j in x.sent && x.sent[j].1.requestId == t;
  }

  lemma ElsewhereSent(w: World, k: nat, j: nat)
    requires Here(w, k) && j in Elsewhere(w, k).sent
    ensures SentOk(Elsewhere(w, k), j)
  {
    hide Inv, From, IssuedOk, ServerOk, SureAt, AttemptOk, StillAllowed;
    assert SentOk(w, j);
  }

  /** A request that is on its way there is one here. */
  lemma ElsewhereTask(w: World, k: nat, j: nat)
    requires Here(w, k) && j in w.y.tasks && w.y.tasks[j].Performing?
    ensures
      var x := Elsewhere(w, k);
      j in x.sent && x.sent[j] == (w.y.tasks[j].id, w.y.tasks[j].op.payload) && AttemptOk(x, j)
  {
    hide From, IssuedOk, SentOk, ServerOk, SureAt, WF, StillAllowed;
    var x := Elsewhere(w, k);
    HolderLocks(w, k);
    HolderLocks(w, j);
    assert LockId(w.y.tasks[k]) == Some(w.y.tasks[k].id) && LockId(w.y.tasks[j]) == Some(w.y.tasks[j].id);
    var task := w.y.tasks[j];
    assert task.op.payload.requestId in x.issued;
    assert AttemptOk(w, j);
    if task.op.uncertain {
      var i :| i in w.sent && i != j && w.sent[i] == (task.id, task.op.payload);
      assert i in x.sent && x.sent[i] == (task.id, task.op.payload);
    }
  }

  lemma ElsewhereOk(w: World, k: nat)
    requires Placed(w, k) && Here(w, k)
    ensures DoubtOk(Elsewhere(w, k))
  {
    hide Inv, From, IssuedOk, SentOk, ServerOk, SureAt, AttemptOk, Attempted, Here, Elsewhere, Placed;
    var x := Elsewhere(w, k);
    ElsewhereIs(w, k);
    ElsewhereServer(w, k);
    forall id ensures From(x.y.s, id, RecordsOf(x.v, id), IssuedFor(x, id)) { ElsewhereFrom(w, k, id); }
    forall t | t in x.issued ensures IssuedOk(x, t) && Attempted(x, t) { ElsewhereIssued(w, k, t); }
    forall j | j in x.sent ensures SentOk(x, j) { ElsewhereSent(w, k, j); }
    forall j | j in x.y.tasks && x.y.tasks[j].Performing?
      ensures j in x.sent && x.sent[j] == (x.y.tasks[j].id, x.y.tasks[j].op.payload) && AttemptOk(x, j)
    {
      ElsewhereTask(w, k, j);
    }
  }

  lemma ElsewhereIs(w: World, k: nat)
    requires Here(w, k)
    ensures
      var x := Elsewhere(w, k);
      && DoubtOk(w) && x.y == w.y && x.v.receipts == map[] && x.answers == map[k := Rejected] && k in x.sent
  {
    hide Inv, From, IssuedOk, SentOk, ServerOk, SureAt, AttemptOk;
    HolderLocks(w, k);
  }

  lemma DoubtCommits(w: World, m: Move)
    requires DoubtOk(w) && Rejects(w, m) && Placed(w, m.event.k) && Here(w, m.event.k) && InDoubt(w.y, m)
    ensures CommitsAfterwards(Elsewhere(w, m.event.k), m, w.y.tasks[m.event.k].op.payload.requestId)
  {
    hide Inv, From, IssuedOk, SentOk, ServerOk, SureAt, Acceptable, Step, Elsewhere, Here, CommittedIn, StillStored, StillAllowed;
    var k := m.event.k;
    var w' := Elsewhere(w, k);
    var task := w.y.tasks[k];
    var t := task.op.payload.requestId;
    ElsewhereIs(w, k);
    ElsewhereOk(w, k);
    assert Rejects(w', m);
    RejectedSendsNothing(w', m);
    NextIs(w', m);
    var x := Next(w', Client(m));
    ElsewhereTakes(w, k);
    if task.op.uncertain {
      assert AttemptOk(w', k);
      var j :| j in w'.sent && j != k && w'.sent[j] == (task.id, task.op.payload);
      PendingCommits(x, t, j);
    } else {
      RejectionIsFinalIff(w', m);
    }
  }

  lemma ElsewhereTakes(w: World, k: nat)
    requires Here(w, k)
    ensures Acceptable(Elsewhere(w, k).v, w.y.tasks[k].id, w.y.tasks[k].op.payload)
  {
    hide Inv, From, IssuedOk, SentOk, ReceiptOk, SureAt, AttemptOk;
  }
}
