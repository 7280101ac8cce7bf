/**
 The owner against the server it talks to. The server applies a request only at its expected
 revision and replays the receipt of a repeated request identity. Between the two, requests are
 delayed, refused or lost and answers are lost, in any order, and other clients write too.
 */
module AsideServer {
  import opened Wrappers
  import opened AsideProtocol
  import opened AsideInvariants
  import opened AsideRuns
  import opened AsidePersistence
  import opened AsideProvenance

  datatype Receipt = Receipt(id: Id, payload: Payload, record: Record)

  /** Every state an aside ever had, by revision; and the receipts, with the order of the commits. */
  datatype Server = Server(history: map<Id, seq<Record>>, receipts: map<Token, Receipt>, log: seq<Token>)

  function Current(v: Server, id: Id): Record
    requires id in v.history && v.history[id] != []
  {
    v.history[id][|v.history[id]| - 1]
  }

  function Applied(r: Record, p: Payload): Record {
    match p
    case SaveDraft(_, _, text) => r.(draft := text, revision := r.revision + 1)
    case SetState(_, _, lifecycle) => r.(lifecycle := lifecycle, revision := r.revision + 1)
  }

  /** The server would commit the request now, unless it had already. */
  predicate Acceptable(v: Server, id: Id, p: Payload) {
    && id in v.history && v.history[id] != []
    && p.expectedRevision == Current(v, id).revision
    && !Current(v, id).lifecycle.Discarded?
    && (p.SaveDraft? ==> Current(v, id).lifecycle.Open?)
  }

  function Commit(v: Server, id: Id, p: Payload): Server
    requires id in v.history && v.history[id] != []
  {
    var r := Applied(Current(v, id), p);
    Server(v.history[id := v.history[id] + [r]],
           v.receipts[p.requestId := Receipt(id, p, r)],
           v.log + [p.requestId])
  }

  /** One request: the receipt, a conflict, or a commit. */
  function Process(v: Server, id: Id, p: Payload): (Server, Response) {
    if id !in v.history || v.history[id] == [] then (v, Rejected)
    else if p.requestId in v.receipts then
      var receipt := v.receipts[p.requestId];
      (v, if receipt.id == id && receipt.payload == p then Body(receipt.record) else Conflicted)
    else if !Acceptable(v, id, p) then (v, Conflicted)
    else (Commit(v, id, p), Body(Applied(Current(v, id), p)))
  }

  /** `sent` and `answers` are by attempt, that is by the suspended call that awaits the answer. An attempt
      without an answer may reach the server at any later time, whatever became of its task. */
  datatype World = World(y: System, v: Server, sent: map<nat, (Id, Payload)>, answers: map<nat, Response>,
                         issued: map<Token, (Id, Payload)>)

  datatype Act =
    | Client(m: Move)
    | Arrives(k: nat, refused: bool)   // an attempt reaches the server, which may refuse it
    | Others(id: Id, p: Payload)       // another client's request
    | Appears(r: Record)               // a new aside

  /** Tokens are fresh, an answer to a write is the server's or lost, and other records are the server's. */
  ghost predicate Possible(w: World, a: Act) {
    match a
    case Client(m) =>
      && (match m.event
          case Saves(_, token) => Unused(w, token)
          case Sets(_, _, token) => Unused(w, token)
          case Continues(_, token) => Unused(w, token)
          case _ => true)
      && (m.event.Answers? && m.event.k in w.y.tasks ==>
            if w.y.tasks[m.event.k].Performing? then
              m.event.response.Unknown? || (m.event.k in w.answers && m.event.response == w.answers[m.event.k])
            else m.event.response.Body? ==> IsServers(w.v, m.event.response.record))
    case Arrives(k, _) => k in w.sent && k !in w.answers
    case Others(_, p) => p.requestId !in w.issued
    case Appears(r) => r.id !in w.v.history && r.revision == 1 && r.lifecycle.Open?
  }

  predicate Unused(w: World, token: Token) {
    token !in w.issued && token !in w.v.receipts
  }

  predicate IsServers(v: Server, r: Record) {
    r.id in v.history && r in v.history[r.id]
  }

  function Next(w: World, a: Act): World {
    match a
    case Client(m) =>
      var y := Step(w.y, m);
      var k := w.y.next;
      if k in y.tasks && y.tasks[k].Performing? then
        var (id, p) := (y.tasks[k].id, y.tasks[k].op.payload);
        w.(y := y, sent := w.sent[k := (id, p)], issued := w.issued[p.requestId := (id, p)])
      else w.(y := y)
    case Arrives(k, refused) =>
      if k !in w.sent then w
      else if refused then w.(answers := w.answers[k := Rejected])
      else
        var (v, answer) := Process(w.v, w.sent[k].0, w.sent[k].1);
        w.(v := v, answers := w.answers[k := answer])
    case Others(id, p) => w.(v := Process(w.v, id, p).0)
    case Appears(r) => w.(v := w.v.(history := w.v.history[r.id := [r]]))
  }

  ghost predicate AllPossible(w: World, acts: seq<Act>)
    decreases |acts|
  {
    acts == [] || (Possible(w, acts[0]) && AllPossible(Next(w, acts[0]), acts[1..]))
  }

  function Play(w: World, acts: seq<Act>): World
    decreases |acts|
  {
    if acts == [] then w else Play(Next(w, acts[0]), acts[1..])
  }

  // ----- The server on its own

  ghost predicate ServerOk(v: Server) {
    && (forall id :: id in v.history ==>
          && v.history[id] != []
          && (forall i :: 0 <= i < |v.history[id]| ==> v.history[id][i].id == id && v.history[id][i].revision == i + 1))
    && (forall t :: t in v.receipts ==> ReceiptOk(v, t))
    && (forall i, j :: 0 <= i < j < |v.log| ==> v.log[i] != v.log[j])
    && (forall t :: t in v.receipts <==> t in v.log)
  }

  /** A commit made the revision after the expected one, with what was asked for. */
  ghost predicate ReceiptOk(v: Server, t: Token)
    requires t in v.receipts
  {
    var receipt := v.receipts[t];
    && receipt.payload.requestId == t && receipt.id in v.history
    && 1 <= receipt.payload.expectedRevision < |v.history[receipt.id]|
    && v.history[receipt.id][receipt.payload.expectedRevision] == receipt.record
    && Acknowledges(receipt.record, receipt.payload)
  }

  /** Nothing the server ever had is changed. */
  ghost predicate Grows(v: Server, v': Server) {
    && (forall id :: id in v.history ==> id in v'.history && v.history[id] <= v'.history[id])
    && (forall t :: t in v.receipts ==> t in v'.receipts && v'.receipts[t] == v.receipts[t])
  }

  lemma CommitOk(v: Server, id: Id, p: Payload)
    requires ServerOk(v) && Acceptable(v, id, p) && p.requestId !in v.receipts
    ensures ServerOk(Commit(v, id, p)) && Grows(v, Commit(v, id, p))
  {
    var w := Commit(v, id, p);
    forall t | t in w.receipts ensures ReceiptOk(w, t) {
      if t in v.receipts { assert ReceiptOk(v, t); }
    }
  }

  lemma ProcessOk(v: Server, id: Id, p: Payload)
    requires ServerOk(v)
    ensures ServerOk(Process(v, id, p).0) && Grows(v, Process(v, id, p).0)
  {
    hide ReceiptOk, Commit;
    if id in v.history && p.requestId !in v.receipts && Acceptable(v, id, p) { CommitOk(v, id, p); }
  }

  /** The server will never commit the request: it is past its expected revision, or refuses it
      until it is. */
  ghost predicate Hopeless(v: Server, id: Id, p: Payload) {
    id in v.history && p.expectedRevision <= |v.history[id]| && !Acceptable(v, id, p)
  }

  lemma HopelessStays(v: Server, v': Server, id: Id, p: Payload)
    requires ServerOk(v) && ServerOk(v') && Grows(v, v') && Hopeless(v, id, p)
    ensures Hopeless(v', id, p)
  {
    hide ReceiptOk;
    assert v.history[id] <= v'.history[id];
    if |v.history[id]| == |v'.history[id]| { assert v.history[id] == v'.history[id]; }
  }

  // ----- Client and server together

  ghost function RecordsOf(v: Server, id: Id): set<Record> {
    if id in v.history then set i | 0 <= i < |v.history[id]| :: v.history[id][i] else {}
  }

  ghost function IssuedFor(w: World, id: Id): iset<Payload> {
    iset p: Payload | p.requestId in w.issued && w.issued[p.requestId] == (id, p)
  }

  ghost predicate IssuedOk(w: World, t: Token)
    requires t in w.issued
  {
    var (id, p) := w.issued[t];
    && p.requestId == t && id in w.v.history && p.expectedRevision <= |w.v.history[id]|
    && (t in w.v.receipts ==>
          && w.v.receipts[t].id == id && w.v.receipts[t].payload == p
          && exists k :: k in w.answers && w.answers[k].Body? && k in w.sent && w.sent[k] == (id, p))
  }

  ghost predicate SentOk(w: World, k: nat)
    requires k in w.sent
  {
    var (id, p) := w.sent[k];
    && k < w.y.next && p.requestId in w.issued && w.issued[p.requestId] == (id, p)
    && (k in w.answers && w.answers[k].Conflicted? ==> p.requestId !in w.v.receipts && Hopeless(w.v, id, p))
    && (k in w.answers && w.answers[k].Body? ==>
          p.requestId in w.v.receipts && w.v.receipts[p.requestId].record == w.answers[k].record)
  }

  ghost predicate WorldOk(w: World) {
    && Inv(w.y) && ServerOk(w.v)
    && (forall id :: From(w.y.s, id, RecordsOf(w.v, id), IssuedFor(w, id)))
    && (forall t :: t in w.issued ==> IssuedOk(w, t))
    && (forall k :: k in w.sent ==> SentOk(w, k))
    && (forall k :: k in w.answers ==> k in w.sent)
    && (forall k :: k in w.y.tasks && w.y.tasks[k].Performing? ==>
          k in w.sent && w.sent[k] == (w.y.tasks[k].id, w.y.tasks[k].op.payload))
  }

  lemma RecordsGrow(v: Server, v': Server, id: Id)
    requires Grows(v, v')
    ensures RecordsOf(v, id) <= RecordsOf(v', id)
  {
    if id in v.history {
      forall r | r in RecordsOf(v, id) ensures r in RecordsOf(v', id) {
        var i :| 0 <= i < |v.history[id]| && r == v.history[id][i];
        assert r == v'.history[id][i];
      }
    }
  }

  // ----- A move of the client

  /** What the client sends is new and meets its expectations, or is what it sent before. */
  lemma SendsOk(w: World, m: Move)
    requires WorldOk(w) && Possible(w, Client(m)) && Sends(w.y, m).Some?
    ensures
      var (id, p) := Sends(w.y, m).value;
      && id in w.v.history && p.expectedRevision <= |w.v.history[id]|
      && (if p.requestId in w.issued then w.issued[p.requestId] == (id, p) else p.requestId !in w.v.receipts)
  {
    hide Inv, Step, ServerOk, IssuedOk, SentOk, Sends;
    StepSends(w.y, m);
    var (id, p) := Sends(w.y, m).value;
    assert From(w.y.s, id, RecordsOf(w.v, id), IssuedFor(w, id));
    if m.event.Reconciles? {
      assert p in IssuedFor(w, id);
      assert IssuedOk(w, p.requestId);
      IssuedIs(w, p.requestId);
    } else {
      RevisionIs(w.v, id, w.y.s.drafts[id].record);
    }
  }

  lemma IssuedIs(w: World, t: Token)
    requires t in w.issued && IssuedOk(w, t)
    ensures w.issued[t].0 in w.v.history && w.issued[t].1.expectedRevision <= |w.v.history[w.issued[t].0]|
  {
  }

  lemma RevisionIs(v: Server, id: Id, r: Record)
    requires ServerOk(v) && r in RecordsOf(v, id)
    ensures id in v.history && 1 <= r.revision <= |v.history[id]| && v.history[id][r.revision - 1] == r
  {
    hide ReceiptOk;
  }

  lemma NextIs(w: World, m: Move)
    ensures
      var x := Next(w, Client(m));
      && x.y == Step(w.y, m) && x.v == w.v && x.answers == w.answers
      && (if Sends(w.y, m).Some? then
            var (id, p) := Sends(w.y, m).value;
            x.sent == w.sent[w.y.next := (id, p)] && x.issued == w.issued[p.requestId := (id, p)]
          else x.sent == w.sent && x.issued == w.issued)
  {
    hide Step;
  }

  lemma AnswerIs(w: World, m: Move, id: Id)
    requires WorldOk(w) && Possible(w, Client(m)) && m.event.Answers? && m.event.k in w.y.tasks
    ensures Sent(m.event.response, id, RecordsOf(w.v, id))
  {
    hide Inv, From, IssuedOk;
    var k := m.event.k;
    if m.event.response.Body? && m.event.response.record.id == id {
      if w.y.tasks[k].Performing? {
        assert SentOk(w, k);
        var t := w.sent[k].1.requestId;
        assert ReceiptOk(w.v, t);
        assert m.event.response.record in w.v.history[w.v.receipts[t].id];
      }
    }
  }

  lemma ClientFrom(w: World, m: Move, id: Id)
    requires WorldOk(w) && Possible(w, Client(m))
    ensures
      var x := Next(w, Client(m));
      From(x.y.s, id, RecordsOf(x.v, id), IssuedFor(x, id))
  {
    hide Inv, Step, ServerOk, IssuedOk, SentOk, Sends, From;
    var x := Next(w, Client(m));
    NextIs(w, m);
    if m.event.Answers? && m.event.k in w.y.tasks { AnswerIs(w, m, id); }
    if Sends(w.y, m).Some? { SendsOk(w, m); SendsToken(w, m); }
    assert IssuedFor(w, id) <= IssuedFor(x, id);
    FromMore(w.y.s, id, RecordsOf(w.v, id), IssuedFor(w, id), RecordsOf(x.v, id), IssuedFor(x, id));
    StepFrom(w.y, m, id, RecordsOf(x.v, id), IssuedFor(x, id));
  }

  lemma SendsToken(w: World, m: Move)
    requires WorldOk(w) && Sends(w.y, m).Some?
    ensures Sends(w.y, m).value.1.requestId in Next(w, Client(m)).issued
  {
    hide Step, Inv;
  }

  lemma TasksNext(w: World, m: Move)
    requires Inv(w.y)
    ensures
      var z := Step(w.y, m);
      && z.next >= w.y.next
      && (Sends(w.y, m).Some? ==> z.next > w.y.next)
      && (forall k :: k in z.tasks && k != w.y.next ==> k in w.y.tasks && z.tasks[k] == w.y.tasks[k])
  {
    hide Wake, Call, WF, LocksOk;
  }

  lemma ClientOk(w: World, m: Move)
    requires WorldOk(w) && Possible(w, Client(m))
    ensures WorldOk(Next(w, Client(m)))
  {
    hide Inv, Step, ServerOk, From, Sends, Hopeless;
    var x := Next(w, Client(m));
    NextIs(w, m);
    StepInv(w.y, m);
    TasksNext(w, m);
    if Sends(w.y, m).Some? { SendsOk(w, m); }
    forall id ensures From(x.y.s, id, RecordsOf(x.v, id), IssuedFor(x, id)) { ClientFrom(w, m, id); }
    forall t | t in x.issued ensures IssuedOk(x, t) { IssuedNext(w, m, t); }
    forall k | k in x.sent ensures SentOk(x, k) { SentNext(w, m, k); }
    forall k | k in x.y.tasks && x.y.tasks[k].Performing?
      ensures k in x.sent && x.sent[k] == (x.y.tasks[k].id, x.y.tasks[k].op.payload)
    {
      if k == w.y.next { SendsIs(w.y, m); } else { assert k in w.y.tasks; }
    }
  }

  lemma SendsIs(y: System, m: Move)
    requires y.next in Step(y, m).tasks && Step(y, m).tasks[y.next].Performing?
    ensures Sends(y, m) == Some((Step(y, m).tasks[y.next].id, Step(y, m).tasks[y.next].op.payload))
  {
    hide Step;
  }

  lemma IssuedNext(w: World, m: Move, t: Token)
    requires WorldOk(w) && Possible(w, Client(m)) && t in Next(w, Client(m)).issued
    ensures IssuedOk(Next(w, Client(m)), t)
  {
    hide Inv, Step, ServerOk, From, Sends;
    var x := Next(w, Client(m));
    NextIs(w, m);
    StepSends(w.y, m);
    if Sends(w.y, m).Some? { SendsOk(w, m); }
    if t in w.issued {
      assert IssuedOk(w, t);
      if t in w.v.receipts {
        var k :| k in w.answers && w.answers[k].Body? && k in w.sent && w.sent[k] == w.issued[t];
        assert SentOk(w, k);
        assert k in x.answers && x.answers[k].Body? && k in x.sent && x.sent[k] == x.issued[t];
      }
    }
  }

  lemma SentNext(w: World, m: Move, k: nat)
    requires WorldOk(w) && Possible(w, Client(m)) && k in Next(w, Client(m)).sent
    ensures SentOk(Next(w, Client(m)), k)
  {
    hide Inv, Step, ServerOk, From, Sends, Hopeless;
    NextIs(w, m);
    TasksNext(w, m);
    if Sends(w.y, m).Some? { SendsOk(w, m); }
    if k in w.sent { assert SentOk(w, k); }
  }

  // ----- A move of the server

  lemma ServerMoveOk(w: World, v: Server, answers: map<nat, Response>)
    requires WorldOk(w) && ServerOk(v) && Grows(w.v, v)
    requires forall t :: t in w.issued ==> IssuedOk(w.(v := v, answers := answers), t)
    requires forall k :: k in w.sent ==> SentOk(w.(v := v, answers := answers), k)
    requires forall k :: k in answers ==> k in w.sent
    ensures WorldOk(w.(v := v, answers := answers))
  {
    hide Inv, ServerOk, From, IssuedOk, SentOk, Grows;
    var x := w.(v := v, answers := answers);
    forall id ensures From(x.y.s, id, RecordsOf(x.v, id), IssuedFor(x, id)) {
      RecordsGrow(w.v, v, id);
      FromMore(w.y.s, id, RecordsOf(w.v, id), IssuedFor(w, id), RecordsOf(x.v, id), IssuedFor(x, id));
    }
  }

  /** No request of ours was committed by a move: what was known of it stays. */
  lemma UntouchedIssued(w: World, v: Server, answers: map<nat, Response>, t: Token)
    requires WorldOk(w) && Grows(w.v, v) && t in w.issued
    requires forall k :: k in w.answers ==> k in answers && answers[k] == w.answers[k]
    requires t in v.receipts ==> t in w.v.receipts
    ensures IssuedOk(w.(v := v, answers := answers), t)
  {
    hide Inv, ServerOk, From, SentOk;
    assert IssuedOk(w, t);
    if t in w.v.receipts {
      var k :| k in w.answers && w.answers[k].Body? && k in w.sent && w.sent[k] == w.issued[t];
      assert k in answers && answers[k].Body?;
    }
  }

  lemma UntouchedSent(w: World, v: Server, answers: map<nat, Response>, k: nat)
    requires WorldOk(w) && ServerOk(v) && Grows(w.v, v) && k in w.sent
    requires k in answers ==> k in w.answers && answers[k] == w.answers[k]
    requires k in answers && answers[k].Conflicted? && w.sent[k].1.requestId in v.receipts ==> w.sent[k].1.requestId in w.v.receipts
    ensures SentOk(w.(v := v, answers := answers), k)
  {
    hide Inv, ServerOk, From, IssuedOk, Hopeless;
    assert SentOk(w, k);
    if k in w.answers && w.answers[k].Conflicted? { HopelessStays(w.v, v, w.sent[k].0, w.sent[k].1); }
  }

  lemma ArrivesOk(w: World, k: nat, refused: bool)
    requires WorldOk(w) && Possible(w, Arrives(k, refused))
    ensures WorldOk(Next(w, Arrives(k, refused)))
  {
    hide Inv, ServerOk, From, IssuedOk, SentOk, Hopeless, Process, Grows;
    var x := Next(w, Arrives(k, refused));
    var (id, p) := w.sent[k];
    assert Grows(w.v, w.v) by { GrowsSelf(w.v); }
    if !refused { ProcessOk(w.v, id, p); }
    forall t | t in w.issued ensures IssuedOk(x, t) { ArrivesIssued(w, k, refused, t); }
    forall j | j in w.sent ensures SentOk(x, j) { ArrivesSent(w, k, refused, j); }
    ServerMoveOk(w, x.v, x.answers);
  }

  lemma GrowsSelf(v: Server)
    ensures Grows(v, v)
  {
  }

  lemma ArrivesIssued(w: World, k: nat, refused: bool, t: Token)
    requires WorldOk(w) && Possible(w, Arrives(k, refused)) && t in w.issued
    ensures IssuedOk(Next(w, Arrives(k, refused)), t)
  {
    hide Inv, ServerOk, From, Acceptable;
    var x := Next(w, Arrives(k, refused));
    var (id, p) := w.sent[k];
    assert SentOk(w, k);
    assert IssuedOk(w, t);
    ProcessOk(w.v, id, p);
    if p.requestId != t || refused || t in w.v.receipts {
      UntouchedIssued(w, x.v, x.answers, t);
    } else if t in x.v.receipts {
      assert k in x.answers && x.answers[k].Body? && k in x.sent && x.sent[k] == (id, p);
    }
  }

  lemma ArrivesSent(w: World, k: nat, refused: bool, j: nat)
    requires WorldOk(w) && Possible(w, Arrives(k, refused)) && j in w.sent
    ensures SentOk(Next(w, Arrives(k, refused)), j)
  {
    hide Inv, ServerOk, From, IssuedOk, SentOk, Process, Hopeless, Grows;
    var x := Next(w, Arrives(k, refused));
    var (id, p) := w.sent[k];
    if refused { assert Grows(w.v, w.v) by { GrowsSelf(w.v); } } else { ProcessOk(w.v, id, p); }
    if j != k {
      if j in w.answers && w.answers[j].Conflicted? { ConflictStays(w, k, j); }
      UntouchedSent(w, x.v, x.answers, j);
    } else {
      ArrivesHere(w, k, refused);
    }
  }

  lemma ArrivesHere(w: World, k: nat, refused: bool)
    requires WorldOk(w) && Possible(w, Arrives(k, refused))
    ensures SentOk(Next(w, Arrives(k, refused)), k)
  {
    hide Inv, ServerOk, From, Acceptable;
    assert SentOk(w, k);
    assert IssuedOk(w, w.sent[k].1.requestId);
  }

  /** Another attempt of a request that was answered with a conflict is not committed either. */
  lemma ConflictStays(w: World, k: nat, j: nat)
    requires WorldOk(w) && k in w.sent && j in w.answers && w.answers[j].Conflicted?
    ensures j in w.sent && w.sent[j].1.requestId !in Process(w.v, w.sent[k].0, w.sent[k].1).0.receipts
  {
    hide Inv, ServerOk, From, IssuedOk, Acceptable;
    assert SentOk(w, k) && SentOk(w, j);
  }

  lemma OthersOk(w: World, id: Id, p: Payload)
    requires WorldOk(w) && Possible(w, Others(id, p))
    ensures WorldOk(Next(w, Others(id, p)))
  {
    hide Inv, ServerOk, From, IssuedOk, Hopeless, Acceptable;
    var x := Next(w, Others(id, p));
    ProcessOk(w.v, id, p);
    forall t | t in w.issued ensures IssuedOk(x, t) { UntouchedIssued(w, x.v, x.answers, t); }
    forall j | j in w.sent ensures SentOk(x, j) {
      assert SentOk(w, j);
      UntouchedSent(w, x.v, x.answers, j);
    }
    ServerMoveOk(w, x.v, x.answers);
  }

  lemma AppearsOk(w: World, r: Record)
    requires WorldOk(w) && Possible(w, Appears(r))
    ensures WorldOk(Next(w, Appears(r)))
  {
    hide Inv, From, IssuedOk, SentOk, Hopeless;
    var x := Next(w, Appears(r));
    forall t | t in x.v.receipts ensures ReceiptOk(x.v, t) { assert ReceiptOk(w.v, t); }
    forall t | t in w.issued ensures IssuedOk(x, t) { UntouchedIssued(w, x.v, x.answers, t); }
    forall j | j in w.sent ensures SentOk(x, j) { UntouchedSent(w, x.v, x.answers, j); }
    ServerMoveOk(w, x.v, x.answers);
  }

  lemma NextOk(w: World, a: Act)
    requires WorldOk(w) && Possible(w, a)
    ensures WorldOk(Next(w, a))
  {
    hide WorldOk, Possible, Next;
    match a
    case Client(m) => ClientOk(w, m);
    case Arrives(k, refused) => ArrivesOk(w, k, refused);
    case Others(id, p) => OthersOk(w, id, p);
    case Appears(r) => AppearsOk(w, r);
  }

  lemma {:induction false} PlayOk(w: World, acts: seq<Act>)
    requires WorldOk(w) && AllPossible(w, acts)
    ensures WorldOk(Play(w, acts))
    decreases |acts|
  {
    hide WorldOk, Possible, Next;
    if acts != [] {
      NextOk(w, acts[0]);
      PlayOk(Next(w, acts[0]), acts[1..]);
    }
  }

  /** Every run starts here: a new page with nothing in storage. */
  lemma FreshPageOk(v: Server)
    requires ServerOk(v)
    ensures
      var w := World(System(Restore(None), map[], 0), v, map[], map[], map[]);
      WorldOk(w) && Durable(w.y.s)
  {
    hide ReceiptOk;
  }

  // ----- What it amounts to

  /** Any number of lost answers, reconciles, crashes and late arrivals commits each request at most
      once; and if it was committed, then at the revision that the user saw, with the text or state
      that the user chose. */
  lemma AppliedAtMostOnce(w: World, acts: seq<Act>, t: Token)
    requires WorldOk(w) && AllPossible(w, acts)
    ensures
      var x := Play(w, acts);
      && (forall i, j :: 0 <= i < j < |x.v.log| ==> x.v.log[i] != x.v.log[j])
      && (t in x.v.log && t in x.issued ==>
            && var (id, p) := x.issued[t];
            && id in x.v.history && 1 <= p.expectedRevision < |x.v.history[id]|
            && Acknowledges(x.v.history[id][p.expectedRevision], p))
  {
    hide Inv, Possible, Next;
    PlayOk(w, acts);
    var x := Play(w, acts);
    if t in x.v.log && t in x.issued { assert IssuedOk(x, t) && ReceiptOk(x.v, t); }
  }

  /** Every record that the owner holds is one that the server had, and no operation rests on a
      revision that the server never had. */
  lemma HoldsServerRecords(w: World, id: Id)
    requires WorldOk(w) && id in w.y.s.drafts
    ensures IsServers(w.v, w.y.s.drafts[id].record)
    ensures w.y.s.drafts[id].operation.Some? ==>
      id in w.v.history && w.y.s.drafts[id].operation.value.payload.expectedRevision <= |w.v.history[id]|
  {
    hide ServerOk, SentOk;
    WellFormedAt(w.y.s, id);
    var d := w.y.s.drafts[id];
    assert d.record in RecordsOf(w.v, id);
    if d.operation.Some? {
      assert d.operation.value.payload in IssuedFor(w, id);
      assert IssuedOk(w, d.operation.value.payload.requestId);
    }
  }

  /** With an honest server no record ever contradicts what the owner retained. */
  lemma NeverInconsistent(w: World, r: Record)
    requires WorldOk(w) && IsServers(w.v, r)
    ensures Consistent(w.y.s, r)
  {
    hide Inv, IssuedOk, SentOk, ReceiptOk;
    if r.id in w.y.s.references {
      var known := w.y.s.references[r.id];
      assert From(w.y.s, r.id, RecordsOf(w.v, r.id), IssuedFor(w, r.id));
      RevisionIs(w.v, r.id, known);
      RevisionIs(w.v, r.id, r);
    }
  }

  /** An operation is retired as acknowledged only once exactly it was committed. */
  lemma AcknowledgedWasApplied(w: World, m: Move)
    requires WorldOk(w) && Possible(w, Client(m)) && m.event.Answers? && m.event.k in w.y.tasks
    requires w.y.tasks[m.event.k].Performing?
    requires Confirms(w.y.s, w.y.tasks[m.event.k].id, w.y.tasks[m.event.k].op, m.event.response)
    ensures
      var t := w.y.tasks[m.event.k];
      && t.id in w.y.s.drafts && w.y.s.drafts[t.id].operation.Some?
      && var p := w.y.s.drafts[t.id].operation.value.payload;
      && p.requestId in w.v.receipts
      && w.v.receipts[p.requestId] == Receipt(t.id, p, m.event.response.record)
  {
    hide ServerOk, From;
    var k := m.event.k;
    assert TaskOk(w.y.s, w.y.tasks[k]);
    assert SentOk(w, k);
    assert IssuedOk(w, w.sent[k].1.requestId);
  }

  // ----- When an operation is over

  /** The owner holds the token nowhere: neither in memory nor in storage. */
  ghost predicate Forgotten(w: World, t: Token) {
    forall id :: From(w.y.s, id, RecordsOf(w.v, id), Except(w, id, t))
  }

  ghost function Except(w: World, id: Id, t: Token): iset<Payload> {
    iset p: Payload | p in IssuedFor(w, id) && p.requestId != t
  }

  /** An attempt of the token that the server has yet to see. */
  ghost predicate Pending(w: World, t: Token, k: nat) {
    k in w.sent && k !in w.answers && w.sent[k].1.requestId == t
  }

  /** The token is not committed and never will be. */
  ghost predicate Over(w: World, t: Token) {
    && t in w.issued && t !in w.v.receipts
    && (Hopeless(w.v, w.issued[t].0, w.issued[t].1)
        || (Forgotten(w, t) && forall k :: !Pending(w, t, k)))
  }

  lemma ClientKeepsOver(w: World, m: Move, t: Token)
    requires WorldOk(w) && Possible(w, Client(m)) && Over(w, t)
    ensures Over(Next(w, Client(m)), t)
  {
    hide Inv, Step, ServerOk, From, Sends, Hopeless, SentOk, IssuedOk;
    var x := Next(w, Client(m));
    NextIs(w, m);
    if Sends(w.y, m).Some? { SendsOk(w, m); }
    if !Hopeless(w.v, w.issued[t].0, w.issued[t].1) {
      assert Sends(w.y, m).Some? ==> Sends(w.y, m).value.1.requestId != t by {
        if Sends(w.y, m).Some? { NotResent(w, m, t); }
      }
      forall id ensures From(x.y.s, id, RecordsOf(x.v, id), Except(x, id, t)) {
        if m.event.Answers? && m.event.k in w.y.tasks { AnswerIs(w, m, id); }
        assert Except(w, id, t) <= Except(x, id, t);
        FromMore(w.y.s, id, RecordsOf(w.v, id), Except(w, id, t), RecordsOf(x.v, id), Except(x, id, t));
        StepFrom(w.y, m, id, RecordsOf(x.v, id), Except(x, id, t));
      }
      forall k ensures !Pending(x, t, k) { assert !Pending(w, t, k); }
    }
  }

  lemma NotResent(w: World, m: Move, t: Token)
    requires WorldOk(w) && Possible(w, Client(m)) && Forgotten(w, t) && t in w.issued && Sends(w.y, m).Some?
    ensures Sends(w.y, m).value.1.requestId != t
  {
    hide Inv, Step, ServerOk, Sends, Hopeless, SentOk, IssuedOk;
    StepSends(w.y, m);
    var id := Sends(w.y, m).value.0;
    assert From(w.y.s, id, RecordsOf(w.v, id), Except(w, id, t));
  }

  lemma ServerKeepsOver(w: World, v: Server, answers: map<nat, Response>, t: Token)
    requires WorldOk(w) && ServerOk(v) && Grows(w.v, v) && Over(w, t) && t !in v.receipts
    requires forall k :: k in w.answers ==> k in answers
    ensures Over(w.(v := v, answers := answers), t)
  {
    hide Inv, ServerOk, From, SentOk, IssuedOk, Hopeless, Grows;
    var x := w.(v := v, answers := answers);
    if Hopeless(w.v, w.issued[t].0, w.issued[t].1) {
      HopelessStays(w.v, v, w.issued[t].0, w.issued[t].1);
    } else {
      forall id ensures From(x.y.s, id, RecordsOf(x.v, id), Except(x, id, t)) {
        RecordsGrow(w.v, v, id);
        FromMore(w.y.s, id, RecordsOf(w.v, id), Except(w, id, t), RecordsOf(x.v, id), Except(x, id, t));
      }
      forall k ensures !Pending(x, t, k) { assert !Pending(w, t, k); }
    }
  }

  lemma KeepsOver(w: World, a: Act, t: Token)
    requires WorldOk(w) && Possible(w, a) && Over(w, t)
    ensures Over(Next(w, a), t)
  {
    hide Inv, ServerOk, From, IssuedOk, Forgotten, Grows;
    var x := Next(w, a);
    assert Grows(w.v, w.v) by { GrowsSelf(w.v); }
    match a
    case Client(m) => ClientKeepsOver(w, m, t);
    case Arrives(k, refused) =>
      var (id, p) := w.sent[k];
      ProcessOk(w.v, id, p);
      assert SentOk(w, k);
      assert t !in x.v.receipts by {
        if p.requestId == t { assert Pending(w, t, k); assert Hopeless(w.v, id, p); }
      }
      ServerKeepsOver(w, x.v, x.answers, t);
    case Others(id, p) => ProcessOk(w.v, id, p); ServerKeepsOver(w, x.v, x.answers, t);
    case Appears(r) => NextOk(w, a); AppearsGrows(w, r); ServerKeepsOver(w, x.v, x.answers, t);
  }

  lemma AppearsGrows(w: World, r: Record)
    requires r.id !in w.v.history
    ensures Grows(w.v, Next(w, Appears(r)).v)
  {
  }

  lemma {:induction false} OverForGood(w: World, acts: seq<Act>, t: Token)
    requires WorldOk(w) && AllPossible(w, acts) && Over(w, t)
    ensures t !in Play(w, acts).v.receipts
    decreases |acts|
  {
    hide WorldOk, Possible, Next, Forgotten, Hopeless, Pending;
    if acts != [] {
      NextOk(w, acts[0]);
      KeepsOver(w, acts[0], t);
      OverForGood(Next(w, acts[0]), acts[1..], t);
    }
  }

  /** A conflict is final: whatever else of it is still on its way, the save is never committed. */
  lemma ConflictIsFinal(w: World, k: nat, acts: seq<Act>)
    requires WorldOk(w) && AllPossible(w, acts) && k in w.answers && w.answers[k].Conflicted?
    ensures w.sent[k].1.requestId !in Play(w, acts).v.receipts
  {
    hide Inv, ServerOk, From, Forgotten, Hopeless, IssuedOk;
    assert SentOk(w, k);
    OverForGood(w, acts, w.sent[k].1.requestId);
  }

  /** An attempt that the server has yet to see and would commit. */
  ghost predicate Live(w: World, t: Token) {
    t in w.v.receipts || exists k :: Pending(w, t, k) && Acceptable(w.v, w.sent[k].0, w.sent[k].1)
  }

  ghost predicate CommittedIn(w: World, acts: seq<Act>, t: Token) {
    AllPossible(w, acts) && t in Play(w, acts).v.receipts
  }

  /** After the owner dropped an operation, it may still be committed if and only if an attempt of it
      has yet to arrive and the server would take it. */
  lemma DroppedMayCommit(w: World, t: Token)
    requires WorldOk(w) && t in w.issued && Forgotten(w, t)
    ensures (exists acts :: CommittedIn(w, acts, t)) <==> Live(w, t)
  {
    hide WorldOk, Hopeless, Forgotten, From;
    if Live(w, t) {
      var acts := LiveCommits(w, t);
    } else {
      if forall k :: !Pending(w, t, k) {
      } else {
        var k :| Pending(w, t, k);
        PendingHopeless(w, t, k);
      }
      forall acts ensures !CommittedIn(w, acts, t) {
        if AllPossible(w, acts) { OverForGood(w, acts, t); }
      }
    }
  }

  lemma LiveCommits(w: World, t: Token) returns (acts: seq<Act>)
    requires Live(w, t)
    ensures CommittedIn(w, acts, t)
  {
    hide Acceptable;
    acts := [];
    if t !in w.v.receipts {
      var k :| Pending(w, t, k) && Acceptable(w.v, w.sent[k].0, w.sent[k].1);
      PendingCommits(w, t, k);
      acts := [Arrives(k, false)];
    }
  }

  lemma PendingCommits(w: World, t: Token, k: nat)
    requires Pending(w, t, k) && Acceptable(w.v, w.sent[k].0, w.sent[k].1) && t !in w.v.receipts
    ensures CommittedIn(w, [Arrives(k, false)], t)
  {
    hide Commit, Acceptable, Step;
    var acts := [Arrives(k, false)];
    assert AllPossible(Next(w, acts[0]), acts[1..]);
    assert Play(w, acts) == Next(w, acts[0]);
    CommitsReceipt(w.v, w.sent[k].0, w.sent[k].1);
  }

  lemma CommitsReceipt(v: Server, id: Id, p: Payload)
    requires Acceptable(v, id, p) && p.requestId !in v.receipts
    ensures p.requestId in Process(v, id, p).0.receipts
  {
  }

  lemma PendingHopeless(w: World, t: Token, k: nat)
    requires WorldOk(w) && t in w.issued && Pending(w, t, k) && !Acceptable(w.v, w.sent[k].0, w.sent[k].1)
    ensures Hopeless(w.v, w.issued[t].0, w.issued[t].1)
  {
    hide Inv, ServerOk, From, Acceptable;
    assert SentOk(w, k);
    assert IssuedOk(w, t);
  }
}
