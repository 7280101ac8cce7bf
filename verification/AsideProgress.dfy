/**
 That no aside is ever stuck: from every world that runs lead to, the network willing, unsaved text can be saved, and whatever
 an aside got into, it can be brought back to what the server has.
 */
module AsideProgress {
  import opened Wrappers
  import opened AsideProtocol
  import opened AsideInvariants
  import opened AsideRuns
  import opened AsideProvenance
  import opened AsideServer
  import Shows = AsideShows
  import Sends = AsideSends
  import Store = AsideStore

  /** The server's records of an aside can be read, and are of one source. */
  ghost predicate Legible(v: Server, id: Id) {
    && id in v.history && v.history[id] != []
    && forall i :: 0 <= i < |v.history[id]| ==> Parsed(v.history[id][i]) && v.history[id][i].source == v.history[id][0].source
  }

  /** The aside shows what the server has, and nothing of it is open. */
  predicate InSync(w: World, id: Id) {
    && id in w.y.s.drafts && id in w.v.history && w.v.history[id] != []
    && var d := w.y.s.drafts[id];
    && d.record == Current(w.v, id) && d.text == d.record.draft
    && !d.dirty && !d.conflict && d.operation == None && id !in w.y.s.mutations
  }

  function Ask(e: Event): Act {
    Client(Move(e, true, true))
  }

  /** What is known of an aside is the server's. */
  lemma Known(w: World, id: Id)
    requires WorldOk(w) && Legible(w.v, id) && id in w.y.s.drafts
    ensures
      var (s, h) := (w.y.s, w.v.history[id]);
      && At(s, id) && id in s.references
      && 1 <= s.drafts[id].record.revision <= |h| && h[s.drafts[id].record.revision - 1] == s.drafts[id].record
      && 1 <= s.references[id].revision <= |h| && h[s.references[id].revision - 1] == s.references[id]
      && s.references[id].source == h[0].source
      && forall i :: 0 <= i < |h| ==> h[i].id == id && h[i].revision == i + 1
  {
    hide At, Parsed, DraftOk, StoredAt, ReceiptOk, LocksOk, IssuedOk, SentOk;
    assert From(w.y.s, id, RecordsOf(w.v, id), IssuedFor(w, id));
    assert At(w.y.s, id);
    assert id in w.y.s.references by { Referenced(w.y.s, id); }
  }

  lemma Referenced(s: State, id: Id)
    requires At(s, id) && id in s.drafts
    ensures id in s.references
  {
  }

  // ----- One step

  /** The world after a call of the owner, or an answer to one, left this state, and this call waiting. */
  function Left(w: World, s: State, tasks: map<nat, Task>, t: Option<Task>): World {
    var y := Spawn(s, tasks, w.y.next, t);
    if t.Some? && t.value.Performing? then
      var (id, p) := (t.value.id, t.value.op.payload);
      w.(y := y, sent := w.sent[w.y.next := (id, p)], issued := w.issued[p.requestId := (id, p)])
    else w.(y := y)
  }

  lemma Called(w: World, e: Event, s: State, t: Option<Task>)
    requires Inv(w.y) && Woken(e).None? && !e.Crashes? && Call(w.y.s, Move(e, true, true)) == (s, t)
    ensures Next(w, Ask(e)) == Left(w, s, w.y.tasks, t)
  {
    hide Call, WF, LocksOk;
    assert Step(w.y, Move(e, true, true)) == Spawn(s, w.y.tasks, w.y.next, t);
  }

  lemma Woke(w: World, e: Event, k: nat, s: State, t: Option<Task>)
    requires Inv(w.y) && Woken(e) == Some(k) && k in w.y.tasks && Wake(w.y.s, w.y.tasks[k], Move(e, true, true)) == Some((s, t))
    ensures Next(w, Ask(e)) == Left(w, s, w.y.tasks - {k}, t)
  {
    hide Wake, WF, LocksOk;
    assert Step(w.y, Move(e, true, true)) == Spawn(s, w.y.tasks - {k}, w.y.next, t);
  }

  // ----- Reloading

  /** Without an open operation, a reload brings the server's record, whatever was typed and whatever is in conflict. */
  lemma ReloadGetsThrough(w: World, id: Id) returns (acts: seq<Act>)
    requires WorldOk(w) && Legible(w.v, id) && id in w.y.s.drafts && w.y.s.drafts[id].operation == None
    ensures AllPossible(w, acts) && InSync(Play(w, acts), id)
  {
    var first, last := Ask(Reloads(id)), Ask(Answers(w.y.next, Body(Current(w.v, id))));
    hide WorldOk, Legible, Next, Possible, InSync;
    var w1 := ReloadBegins(w, id);
    AsideServer.NextOk(w, first);
    var w2 := ReloadEnds(w1, id, w.y.next);
    acts := [first, last];
    Play2(w, acts, w1, w2);
  }

  lemma Play2(w: World, acts: seq<Act>, w1: World, w2: World)
    requires |acts| == 2 && w1 == Next(w, acts[0]) && w2 == Next(w1, acts[1])
    ensures Play(w, acts) == w2 && (AllPossible(w, acts) <==> Possible(w, acts[0]) && Possible(w1, acts[1]))
  {
    hide Next, Possible;
    assert acts[1..] == [acts[1]] && acts[1..][1..] == [];
    assert Play(w, acts) == Play(w1, acts[1..]);
    assert AllPossible(w1, acts[1..]) <==> Possible(w1, acts[1]) && AllPossible(w2, []);
  }

  lemma ReloadBegins(w: World, id: Id) returns (w1: World)
    requires WorldOk(w) && id in w.y.s.drafts && w.y.s.drafts[id].operation == None
    ensures w1 == Next(w, Ask(Reloads(id))) && Possible(w, Ask(Reloads(id)))
    ensures
      var t := Reading(id, true, w.y.s.accessGeneration, Some(w.y.s.drafts[id].edit), Nothing);
      w1 == w.(y := System(w.y.s, w.y.tasks[w.y.next := t], w.y.next + 1))
  {
    hide Inv, ServerOk, From, IssuedOk, SentOk, Reload;
    var t := Reading(id, true, w.y.s.accessGeneration, Some(w.y.s.drafts[id].edit), Nothing);
    Sends.ReloadExactly(w.y.s, id, true);
    Called(w, Reloads(id), w.y.s, Some(t));
    w1 := Next(w, Ask(Reloads(id)));
  }

  lemma ReloadEnds(w: World, id: Id, k: nat) returns (u: World)
    requires WorldOk(w) && Legible(w.v, id) && id in w.y.s.drafts && w.y.s.drafts[id].operation == None
    requires k in w.y.tasks && w.y.tasks[k] == Reading(id, true, w.y.s.accessGeneration, Some(w.y.s.drafts[id].edit), Nothing)
    ensures
      var a := Ask(Answers(k, Body(Current(w.v, id))));
      Possible(w, a) && u == Next(w, a) && InSync(u, id) && u.v == w.v
  {
    hide ReadFinish, At, Parsed, Inv, ServerOk, From, IssuedOk, SentOk;
    Known(w, id);
    var (s, r, t) := (w.y.s, Current(w.v, id), w.y.tasks[k]);
    Shows.RecordIff(s, r);
    assert id !in s.restored by { NotRestored(s, id); }
    Shows.ReloadShows(s, t, Body(r), true, true);
    Shows.ReloadMarks(s, t, Body(r), true, true);
    var (s1, ok) := ReadFinish(s, t, Body(r), true, true);
    Woke(w, Answers(k, Body(r)), k, s1, None);
    u := Next(w, Ask(Answers(k, Body(r))));
    assert id !in s.mutations by { NoLock(s, id); }
    assert s1.mutations == s.mutations by { KeepsLocks(s, t, Body(r)); }
  }

  lemma NotRestored(s: State, id: Id)
    requires At(s, id) && id in s.drafts
    ensures id !in s.restored
  {
  }

  lemma NoLock(s: State, id: Id)
    requires At(s, id) && id in s.drafts && s.drafts[id].operation == None
    ensures id !in s.mutations
  {
  }

  lemma KeepsLocks(s: State, t: Task, response: Response)
    requires t.Reading?
    ensures ReadFinish(s, t, response, true, true).0.mutations == s.mutations
  {
    hide Merge, Publish, Parsed, Consistent, FreshDraft, RetainReference, Summarized;
    if response.Body? { Shows.MergeTouches(s, response.record, true, t.id); }
  }

  /** An aside that is only referred to can be shown: as the server has it. Without access nothing is asked. */
  lemma ReferenceGetsThrough(w: World, id: Id) returns (acts: seq<Act>)
    requires WorldOk(w) && Legible(w.v, id) && id !in w.y.s.drafts && id !in w.y.s.restored
    ensures AllPossible(w, acts) && InSync(Play(w, acts), id)
    ensures forall stored :: Call(w.y.s, Move(References(id), false, stored)) == (w.y.s, None)
  {
    var first, last := Ask(References(id)), Ask(Answers(w.y.next, Body(Current(w.v, id))));
    hide WorldOk, Legible, Next, Possible, InSync, Call;
    NotWithoutAccess(w.y.s, id);
    var w1 := ReferenceBegins(w, id);
    AsideServer.NextOk(w, first);
    var w2 := ReferenceEnds(w1, id, w.y.next);
    acts := [first, last];
    Play2(w, acts, w1, w2);
  }

  lemma NotWithoutAccess(s: State, id: Id)
    ensures forall stored :: Call(s, Move(References(id), false, stored)) == (s, None)
  {
  }

  lemma ReferenceBegins(w: World, id: Id) returns (w1: World)
    requires WorldOk(w)
    ensures w1 == Next(w, Ask(References(id))) && Possible(w, Ask(References(id)))
    ensures w1 == w.(y := System(w.y.s, w.y.tasks[w.y.next := Referencing(id, w.y.s.accessGeneration)], w.y.next + 1))
  {
    hide Inv, ServerOk, From, IssuedOk, SentOk;
    Called(w, References(id), w.y.s, Some(Referencing(id, w.y.s.accessGeneration)));
    w1 := Next(w, Ask(References(id)));
  }

  lemma ReferenceEnds(w: World, id: Id, k: nat) returns (u: World)
    requires WorldOk(w) && Legible(w.v, id) && id !in w.y.s.drafts && id !in w.y.s.restored
    requires k in w.y.tasks && w.y.tasks[k] == Referencing(id, w.y.s.accessGeneration)
    ensures
      var a := Ask(Answers(k, Body(Current(w.v, id))));
      Possible(w, a) && u == Next(w, a) && InSync(u, id)
  {
    hide Merge, ReferenceReply, Parsed, Inv, IssuedOk, SentOk, At;
    var (s, r, t) := (w.y.s, Current(w.v, id), w.y.tasks[k]);
    assert Admissible(s, r, None) && Shows.Agrees(s, r) && r.id == id && At(s, id) by { CurrentFits(w, id); }
    Shows.UnknownShows(s, r, true);
    Shows.ReferenceShows(s, t, Body(r), true, true);
    var s1 := ReferenceReply(s, t, Body(r), true, true);
    Woke(w, Answers(k, Body(r)), k, s1, None);
    u := Next(w, Ask(Answers(k, Body(r))));
    assert id !in s.mutations by { NotLocked(s, id); }
    assert s1.mutations == s.mutations by { ReferenceKeepsLocks(s, t, r); }
  }

  lemma CurrentFits(w: World, id: Id)
    requires WorldOk(w) && Legible(w.v, id)
    ensures var r := Current(w.v, id); Admissible(w.y.s, r, None) && Shows.Agrees(w.y.s, r) && r.id == id && At(w.y.s, id)
  {
    hide Parsed, DraftOk, StoredAt, ReceiptOk, LocksOk, IssuedOk, SentOk;
    assert From(w.y.s, id, RecordsOf(w.v, id), IssuedFor(w, id)) && At(w.y.s, id);
  }

  lemma NotLocked(s: State, id: Id)
    requires At(s, id) && id !in s.drafts
    ensures id !in s.mutations
  {
  }

  lemma ReferenceKeepsLocks(s: State, t: Task, r: Record)
    requires t.Referencing?
    ensures ReferenceReply(s, t, Body(r), true, true).mutations == s.mutations
  {
    hide Merge, Parsed;
    Shows.MergeTouches(s, r, true, t.id);
  }

  // ----- The end of a request

  lemma PlayConcat(w: World, a: seq<Act>, b: seq<Act>)
    ensures Play(w, a + b) == Play(Play(w, a), b)
    ensures AllPossible(w, a + b) <==> AllPossible(w, a) && AllPossible(Play(w, a), b)
    decreases |a|
  {
    hide Next, Possible;
    if a == [] {
      assert a + b == b;
    } else {
      assert (a + b)[1..] == a[1..] + b;
      PlayConcat(Next(w, a[0]), a[1..], b);
    }
  }

  /** No operation of the aside is open any more. */
  predicate Closed(s: State, id: Id) {
    id in s.drafts && s.drafts[id].operation == None && id !in s.mutations
  }

  /** The call waits to go on with the end of this request, which was confirmed and has the lock. */
  predicate Ending(t: Task, id: Id, op: Operation) {
    t.Resuming? && t.after.ThenFinish? && t.after.id == id && t.after.op == op && t.after.acknowledged.Some? && t.after.locked
  }

  lemma EndGetsThrough(w: World, id: Id, k: nat, op: Operation, token: Token) returns (u: World)
    requires WorldOk(w) && k in w.y.tasks && Ending(w.y.tasks[k], id, op) && Unused(w, token)
    ensures Possible(w, Ask(Continues(k, token))) && u == Next(w, Ask(Continues(k, token))) && u == w.(y := u.y) && Closed(u.y.s, id)
    ensures
      && id in w.y.s.drafts
      && var (d, revision) := (w.y.s.drafts[id], w.y.tasks[k].after.acknowledged.value);
      u.y.s.drafts[id] == d.(operation := None, conflict := d.conflict || (d.dirty && revision < d.record.revision))
  {
    hide WF, ServerOk, From, IssuedOk, SentOk, Finish;
    var (s, t) := (w.y.s, w.y.tasks[k]);
    assert TaskOk(s, t);
    Sends.FinishExactly(s, id, op, t.after.acknowledged.value, true);
    Woke(w, Continues(k, token), k, Finish(s, id, op, t.after.acknowledged, true, true), None);
    u := Next(w, Ask(Continues(k, token)));
  }

  // ----- A confirmed request

  /** The call waits for the read that comes before its end. */
  predicate Rereading(s: State, t: Task, id: Id, op: Operation) {
    && t.Reading? && t.id == id && !t.discard && t.generation == s.accessGeneration
    && t.after.ThenFinish? && t.after.id == id && t.after.op == op && t.after.acknowledged.Some? && t.after.locked
  }

  lemma ReadGetsThrough(w: World, id: Id, k: nat, op: Operation) returns (u: World)
    requires WorldOk(w) && Legible(w.v, id) && k in w.y.tasks && Rereading(w.y.s, w.y.tasks[k], id, op) && id in w.y.s.drafts
    ensures
      var a := Ask(Answers(k, Body(w.y.s.drafts[id].record)));
      Possible(w, a) && u == Next(w, a)
    ensures
      && u == w.(y := u.y) && id in u.y.s.drafts && u.y.s.drafts[id] == w.y.s.drafts[id].(readError := false)
      && u.y.next == w.y.next + 1 && w.y.next in u.y.tasks && Ending(u.y.tasks[w.y.next], id, op)
      && u.y.tasks[w.y.next].after.acknowledged == w.y.tasks[k].after.acknowledged
  {
    hide WF, At, ServerOk, From, IssuedOk, SentOk, Merge, ReadFinish, Parsed;
    Known(w, id);
    var (s, t, r) := (w.y.s, w.y.tasks[k], w.y.s.drafts[id].record);
    ShownIsKnown(s, id);
    Shows.OlderShows(s, r, true);
    assert Shows.Taken(s, t, Body(r), true, true);
    Shows.ReadShows(s, t, Body(r), true, true);
    var (s1, ok) := ReadFinish(s, t, Body(r), true, true);
    Woke(w, Answers(k, Body(r)), k, s1, Some(Resuming(ok, t.after)));
    u := Next(w, Ask(Answers(k, Body(r))));
  }

  lemma ShownIsKnown(s: State, id: Id)
    requires At(s, id) && id in s.drafts
    ensures Shows.Agrees(s, s.drafts[id].record) && Admissible(s, s.drafts[id].record, None) && s.drafts[id].record.id == id
  {
  }

  lemma AnswerConfirms(w: World, id: Id, k: nat, op: Operation, rec: Record) returns (u: World)
    requires WorldOk(w) && Legible(w.v, id) && k in w.y.tasks && w.y.tasks[k] == Performing(id, op)
    requires k in w.answers && w.answers[k] == Body(rec)
    ensures Possible(w, Ask(Answers(k, Body(rec)))) && u == Next(w, Ask(Answers(k, Body(rec)))) && u == w.(y := u.y)
    ensures
      && id in w.y.s.drafts && id in u.y.s.drafts && u.y.next == w.y.next + 1 && w.y.next in u.y.tasks
      && Rereading(u.y.s, u.y.tasks[w.y.next], id, op) && u.y.tasks[w.y.next].after.acknowledged == Some(rec.revision)
      && Took(w.y.s.drafts[id], u.y.s.drafts[id], rec)
  {
    hide WorldOk, Inv, Legible, PerformReply, Sends.Confirmed, Shows.Agrees, Owns, Rereading, Took;
    PerformingOwns(w, id, k, op);
    AnswerIsServers(w, id, k, op, rec);
    var s1, t := ConfirmedThen(w.y.s, id, op, rec);
    assert t.Reading? by { RereadingReads(s1, t, id, op); }
    Woke(w, Answers(k, Body(rec)), k, s1, Some(t));
    u := Next(w, Ask(Answers(k, Body(rec))));
  }

  lemma RereadingReads(s: State, t: Task, id: Id, op: Operation)
    requires Rereading(s, t, id, op)
    ensures t.Reading?
  {
  }

  lemma PerformingOwns(w: World, id: Id, k: nat, op: Operation)
    requires WorldOk(w) && k in w.y.tasks && w.y.tasks[k] == Performing(id, op)
    ensures Inv(w.y) && Owns(w.y.s, id, op) && id in w.y.s.drafts
  {
    hide WF, From, ServerOk, IssuedOk, SentOk;
    assert TaskOk(w.y.s, w.y.tasks[k]);
  }

  /** What the answer leaves: the record, unless a newer one is shown, with the text that the user has. */
  predicate Took(d: Draft, e: Draft, rec: Record) {
    && e.record == (if rec.revision < d.record.revision then d.record else rec)
    && e.text == d.text && (e.dirty <==> e.text != e.record.draft)
    && (e.conflict <==> d.conflict || (rec.revision < d.record.revision && e.dirty))
  }

  lemma ConfirmedThen(s: State, id: Id, op: Operation, rec: Record) returns (s1: State, t: Task)
    requires Owns(s, id, op) && Sends.Confirmed(s, id, op.payload, Body(rec)) && Shows.Agrees(s, rec)
    ensures PerformReply(s, id, op, Body(rec), true, true) == (s1, Some(t)) && id in s1.drafts && Took(s.drafts[id], s1.drafts[id], rec)
    ensures Rereading(s1, t, id, op) && t.after.acknowledged == Some(rec.revision)
  {
    hide PerformReply, Parsed;
    Sends.ConfirmedShows(s, id, op, Body(rec), true, true);
    s1 := PerformReply(s, id, op, Body(rec), true, true).0;
    t := PerformReply(s, id, op, Body(rec), true, true).1.value;
  }

  lemma AnswerIsServers(w: World, id: Id, k: nat, op: Operation, rec: Record)
    requires WorldOk(w) && Legible(w.v, id) && k in w.y.tasks && w.y.tasks[k] == Performing(id, op) && id in w.y.s.drafts
    requires k in w.answers && w.answers[k] == Body(rec)
    ensures Sends.Confirmed(w.y.s, id, op.payload, Body(rec)) && Shows.Agrees(w.y.s, rec) && rec in w.v.history[id]
  {
    hide Inv, From, Parsed;
    Known(w, id);
    assert SentOk(w, k) && w.sent[k] == (id, op.payload);
    var t := op.payload.requestId;
    assert IssuedOk(w, t) && ReceiptOk(w.v, t);
    assert w.v.receipts[t].record == rec && w.v.receipts[t].id == id && w.v.receipts[t].payload == op.payload;
    assert rec == w.v.history[id][op.payload.expectedRevision];
  }

  lemma Play1(w: World, a: Act)
    ensures Play(w, [a]) == Next(w, a) && (AllPossible(w, [a]) <==> Possible(w, a))
  {
    hide Next, Possible;
    assert [a][1..] == [];
  }

  /** A request that was confirmed ends, and nothing of it is open any more. What the user has stays. */
  lemma ConfirmationGetsThrough(w: World, id: Id, k: nat, op: Operation, rec: Record, token: Token) returns (acts: seq<Act>)
    requires WorldOk(w) && Legible(w.v, id) && k in w.y.tasks && w.y.tasks[k] == Performing(id, op)
    requires k in w.answers && w.answers[k] == Body(rec) && Unused(w, token)
    ensures AllPossible(w, acts) && Play(w, acts).v == w.v && Closed(Play(w, acts).y.s, id)
    ensures id in w.y.s.drafts && Play(w, acts).y.s.drafts[id].text == w.y.s.drafts[id].text
    ensures
      var d := w.y.s.drafts[id];
      rec == Current(w.v, id) && rec.draft == d.text && !d.conflict && d.record.revision <= rec.revision ==> InSync(Play(w, acts), id)
  {
    hide WorldOk, Parsed, Next, Possible;
    var first := Ask(Answers(k, Body(rec)));
    var w1 := AnswerConfirms(w, id, k, op, rec);
    AsideServer.NextOk(w, first);
    var second := Ask(Answers(w.y.next, Body(w1.y.s.drafts[id].record)));
    var w2 := ReadGetsThrough(w1, id, w.y.next, op);
    AsideServer.NextOk(w1, second);
    var third := Ask(Continues(w1.y.next, token));
    var w3 := EndGetsThrough(w2, id, w1.y.next, op, token);
    acts := [first, second] + [third];
    PlayConcat(w, [first, second], [third]);
    Play2(w, [first, second], w1, w2);
    Play1(w2, third);
  }

  // ----- Saving

  /** A call sent this request, which has not arrived yet. */
  predicate Sent(w: World, k: nat, id: Id, op: Operation) {
    && k in w.y.tasks && w.y.tasks[k] == Performing(id, op)
    && k in w.sent && w.sent[k] == (id, op.payload) && k !in w.answers
  }

  lemma NewCall(w: World)
    requires WorldOk(w)
    ensures w.y.next !in w.answers && w.y.next !in w.y.tasks
  {
    hide WF, From, ServerOk, LocksOk, IssuedOk;
    forall k | k in w.answers ensures k < w.y.next { assert SentOk(w, k); }
  }

  lemma SaveBegins(w: World, id: Id, token: Token) returns (u: World)
    requires WorldOk(w) && id in w.y.s.drafts && Unused(w, token) && id !in w.y.s.stale && MaySave(w.y.s, id, true)
    ensures Possible(w, Ask(Saves(id, token))) && u == Next(w, Ask(Saves(id, token)))
    ensures
      var d := w.y.s.drafts[id];
      var p := SaveDraft(token, d.record.revision, d.text);
      && u == w.(y := u.y, sent := u.sent, issued := w.issued[token := (id, p)])
      && Sent(u, w.y.next, id, Operation(p, d.edit, false))
      && id in u.y.s.drafts && u.y.s.drafts[id] == d.(operation := Some(Operation(p, d.edit, false)), error := false)
  {
    hide WF, From, ServerOk, IssuedOk, SentOk, Save;
    NewCall(w);
    Sends.SaveExactly(w.y.s, id, token, true, true);
    var (s, t) := Save(w.y.s, id, token, true, true);
    Called(w, Saves(id, token), s, t);
    u := Next(w, Ask(Saves(id, token)));
  }

  /** The server does the request, if it may, and answers so. */
  lemma Done(w: World, id: Id, k: nat, op: Operation) returns (u: World)
    requires WorldOk(w) && Legible(w.v, id) && Sent(w, k, id, op) && ParsedPayload(op.payload)
    requires op.payload.requestId !in w.v.receipts && Store.MayDo(Current(w.v, id), op.payload)
    ensures Possible(w, Arrives(k, false)) && u == Next(w, Arrives(k, false)) && Legible(u.v, id)
    ensures
      && u == w.(v := u.v, answers := u.answers) && k in u.answers && u.answers[k] == Body(Current(u.v, id))
      && Store.Follows(Current(w.v, id), Current(u.v, id), op.payload)
      && u.v.receipts == w.v.receipts[op.payload.requestId := Receipt(id, op.payload, Current(u.v, id))]
  {
    hide WorldOk, Process;
    Store.RequestExactly(w.v, id, op.payload);
    u := Next(w, Arrives(k, false));
    var h := w.v.history[id];
    assert u.v.history[id][|h|] == Current(u.v, id) && u.v.history[id][0] == h[0];
    assert Parsed(h[|h| - 1]) && h[|h| - 1].source == h[0].source;
  }

  /** Unsaved text of an open aside that nobody else wrote to is saved: the network willing, the server has exactly that text, as
      the next revision, and the aside shows it, in sync. */
  lemma SaveGetsThrough(w: World, id: Id, token: Token, after: Token) returns (acts: seq<Act>)
    requires WorldOk(w) && Legible(w.v, id) && id in w.y.s.drafts && Unused(w, token) && Unused(w, after) && after != token
    requires id !in w.y.s.stale && MaySave(w.y.s, id, true) && w.y.s.drafts[id].record == Current(w.v, id)
    ensures AllPossible(w, acts)
    ensures
      var u := Play(w, acts);
      && InSync(u, id) && Current(u.v, id).draft == w.y.s.drafts[id].text
      && Current(u.v, id) == Current(w.v, id).(draft := w.y.s.drafts[id].text, revision := Current(w.v, id).revision + 1)
  {
    hide WorldOk, Next, Possible, Parsed, Current;
    var d := w.y.s.drafts[id];
    var op := Operation(SaveDraft(token, d.record.revision, d.text), d.edit, false);
    var w1 := SaveBegins(w, id, token);
    AsideServer.NextOk(w, Ask(Saves(id, token)));
    assert ParsedPayload(op.payload) by { ShownParses(w, id); }
    var w2 := Done(w1, id, w.y.next, op);
    AsideServer.NextOk(w1, Arrives(w.y.next, false));
    var rest := ConfirmationGetsThrough(w2, id, w.y.next, op, Current(w2.v, id), after);
    acts := [Ask(Saves(id, token)), Arrives(w.y.next, false)] + rest;
    PlayConcat(w, [Ask(Saves(id, token)), Arrives(w.y.next, false)], rest);
    Play2(w, [Ask(Saves(id, token)), Arrives(w.y.next, false)], w1, w2);
  }

  lemma ShownParses(w: World, id: Id)
    requires WorldOk(w) && id in w.y.s.drafts
    ensures w.y.s.drafts[id].record.revision >= 1 && ValidText(w.y.s.drafts[id].text)
  {
    hide From, ServerOk, IssuedOk, SentOk, LocksOk, ValidText, StoredAt;
    assert At(w.y.s, id);
  }

  // ----- Coming back from anything

  lemma ReconcileBegins(w: World, id: Id) returns (u: World)
    requires WorldOk(w) && id in w.y.s.drafts && w.y.s.drafts[id].operation.Some? && id !in w.y.s.mutations
    ensures Possible(w, Ask(Reconciles(id))) && u == Next(w, Ask(Reconciles(id)))
    ensures
      var op := w.y.s.drafts[id].operation.value;
      && u == w.(y := u.y, sent := u.sent, issued := u.issued) && u.issued.Keys == w.issued.Keys
      && Sent(u, w.y.next, id, op)
  {
    hide WF, ServerOk, SentOk, Reconcile;
    NewCall(w);
    Sends.ReconcileExactly(w.y.s, id, true, true);
    var (s, t) := Reconcile(w.y.s, id, true, true);
    Called(w, Reconciles(id), s, t);
    assert From(w.y.s, id, RecordsOf(w.v, id), IssuedFor(w, id));
    u := Next(w, Ask(Reconciles(id)));
  }

  /** The request arrives, and is answered: that it was done, now or before, or that it conflicts. */
  lemma Answered(w: World, id: Id, k: nat, op: Operation) returns (u: World)
    requires WorldOk(w) && Legible(w.v, id) && Sent(w, k, id, op) && ParsedPayload(op.payload)
    ensures Possible(w, Arrives(k, false)) && u == Next(w, Arrives(k, false)) && Legible(u.v, id)
    ensures
      && u == w.(v := u.v, answers := u.answers) && k in u.answers && !u.answers[k].Unknown? && !u.answers[k].Rejected?
      && u.v.receipts.Keys <= w.v.receipts.Keys + {op.payload.requestId}
  {
    hide Inv, From, SentOk, Process;
    Store.RequestExactly(w.v, id, op.payload);
    u := Next(w, Arrives(k, false));
    var h := w.v.history[id];
    assert Parsed(h[|h| - 1]) && h[|h| - 1].source == h[0].source;
    if u.v != w.v { assert u.v.history[id][|h|] == Current(u.v, id) && u.v.history[id][0] == h[0]; }
  }

  lemma AnswerConflicts(w: World, id: Id, k: nat, op: Operation) returns (u: World)
    requires WorldOk(w) && k in w.y.tasks && w.y.tasks[k] == Performing(id, op) && k in w.answers && w.answers[k] == Conflicted
    ensures Possible(w, Ask(Answers(k, Conflicted))) && u == Next(w, Ask(Answers(k, Conflicted))) && u == w.(y := u.y) && Closed(u.y.s, id)
  {
    hide WF, ServerOk, From, IssuedOk, SentOk, PerformReply, Parsed;
    assert TaskOk(w.y.s, w.y.tasks[k]);
    Sends.UnconfirmedShows(w.y.s, id, op, Conflicted, true, true);
    var (s, t) := PerformReply(w.y.s, id, op, Conflicted, true, true);
    Woke(w, Answers(k, Conflicted), k, s, t);
    u := Next(w, Ask(Answers(k, Conflicted)));
  }

  lemma OpenParses(w: World, id: Id)
    requires WorldOk(w) && id in w.y.s.drafts && w.y.s.drafts[id].operation.Some?
    ensures ParsedPayload(w.y.s.drafts[id].operation.value.payload) && w.y.s.drafts[id].operation.value.payload.requestId in w.issued
  {
    hide ServerOk, IssuedOk, SentOk, LocksOk, StoredAt, Parsed;
    assert At(w.y.s, id);
    assert From(w.y.s, id, RecordsOf(w.v, id), IssuedFor(w, id));
  }

  /** A request of unknown outcome is sent again, and then it is over. */
  lemma ReconcileGetsThrough(w: World, id: Id, token: Token) returns (acts: seq<Act>)
    requires WorldOk(w) && Legible(w.v, id) && id in w.y.s.drafts && w.y.s.drafts[id].operation.Some? && id !in w.y.s.mutations
    requires Unused(w, token)
    ensures AllPossible(w, acts) && Legible(Play(w, acts).v, id) && Closed(Play(w, acts).y.s, id)
  {
    hide WorldOk, Next, Possible, Parsed, ParsedPayload, Legible;
    var op := w.y.s.drafts[id].operation.value;
    OpenParses(w, id);
    var k := w.y.next;
    var w1 := ReconcileBegins(w, id);
    AsideServer.NextOk(w, Ask(Reconciles(id)));
    var w2 := Answered(w1, id, k, op);
    AsideServer.NextOk(w1, Arrives(k, false));
    var rest;
    if w2.answers[k].Body? {
      assert Unused(w2, token);
      rest := ConfirmationGetsThrough(w2, id, k, op, w2.answers[k].record, token);
    } else {
      var w3 := AnswerConflicts(w2, id, k, op);
      rest := [Ask(Answers(k, Conflicted))];
      Play1(w2, rest[0]);
    }
    acts := [Ask(Reconciles(id)), Arrives(k, false)] + rest;
    PlayConcat(w, [Ask(Reconciles(id)), Arrives(k, false)], rest);
    Play2(w, [Ask(Reconciles(id)), Arrives(k, false)], w1, w2);
  }

  /** The call that has the lock of the aside. */
  lemma Holder(w: World, id: Id) returns (k: nat, op: Operation)
    requires WorldOk(w) && id in w.y.s.mutations
    ensures k in w.y.tasks && Lock(w.y.tasks[k]) == Some((id, op)) && Owns(w.y.s, id, op) && TaskOk(w.y.s, w.y.tasks[k])
  {
    hide WF, ServerOk, From, IssuedOk, SentOk, Owns;
    k :| k in w.y.tasks && LockId(w.y.tasks[k]) == Some(id);
    op := Lock(w.y.tasks[k]).value.1;
    assert TaskOk(w.y.s, w.y.tasks[k]);
  }

  lemma AnswerIsLost(w: World, id: Id, k: nat, op: Operation) returns (u: World)
    requires WorldOk(w) && k in w.y.tasks && w.y.tasks[k] == Performing(id, op)
    ensures Possible(w, Ask(Answers(k, Unknown))) && u == Next(w, Ask(Answers(k, Unknown))) && u == w.(y := u.y)
    ensures id in u.y.s.drafts && u.y.s.drafts[id].operation.Some? && id !in u.y.s.mutations
  {
    hide WF, ServerOk, From, IssuedOk, SentOk, PerformReply, Parsed;
    assert TaskOk(w.y.s, w.y.tasks[k]);
    Sends.UnconfirmedShows(w.y.s, id, op, Unknown, true, true);
    var (s, t) := PerformReply(w.y.s, id, op, Unknown, true, true);
    Woke(w, Answers(k, Unknown), k, s, t);
    u := Next(w, Ask(Answers(k, Unknown)));
  }

  lemma ReadIsLost(w: World, id: Id, k: nat, op: Operation) returns (u: World)
    requires WorldOk(w) && k in w.y.tasks && w.y.tasks[k].Reading? && TaskOk(w.y.s, w.y.tasks[k]) && Lock(w.y.tasks[k]) == Some((id, op))
    ensures Possible(w, Ask(Answers(k, Unknown))) && u == Next(w, Ask(Answers(k, Unknown))) && u == w.(y := u.y)
    ensures u.y.next == w.y.next + 1 && w.y.next in u.y.tasks && Ending(u.y.tasks[w.y.next], id, op) && id in u.y.s.drafts
  {
    hide ServerOk, From, IssuedOk, SentOk, ReadFinish, Parsed, At;
    var (s, t) := (w.y.s, w.y.tasks[k]);
    assert At(s, t.id);
    Shows.FailedReadShows(s, t, Unknown, true, true);
    var (s1, ok) := ReadFinish(s, t, Unknown, true, true);
    Woke(w, Answers(k, Unknown), k, s1, Some(Resuming(ok, t.after)));
    u := Next(w, Ask(Answers(k, Unknown)));
  }

  /** A request that is on its way may be lost, and one that is being ended ends: then the lock is free. */
  lemma LockGetsFree(w: World, id: Id, token: Token) returns (acts: seq<Act>)
    requires WorldOk(w) && id in w.y.s.mutations && Unused(w, token)
    ensures AllPossible(w, acts) && var u := Play(w, acts); u == w.(y := u.y) && id in u.y.s.drafts && id !in u.y.s.mutations
  {
    var k, op := Holder(w, id);
    hide WorldOk, Next, Possible, Owns, TaskOk;
    match w.y.tasks[k]
    case Performing(_, _) =>
      var u := AnswerIsLost(w, id, k, op);
      acts := [Ask(Answers(k, Unknown))];
      Play1(w, acts[0]);
    case Reading(_, _, _, _, _) =>
      var w1 := ReadIsLost(w, id, k, op);
      AsideServer.NextOk(w, Ask(Answers(k, Unknown)));
      var w2 := EndGetsThrough(w1, id, w.y.next, op, token);
      acts := [Ask(Answers(k, Unknown)), Ask(Continues(w.y.next, token))];
      Play2(w, acts, w1, w2);
    case Resuming(_, _) =>
      assert Ending(w.y.tasks[k], id, op) by { EndingIs(w.y.s, w.y.tasks[k], id, op); }
      var u := EndGetsThrough(w, id, k, op, token);
      acts := [Ask(Continues(k, token))];
      Play1(w, acts[0]);
    case _ => assert false;
  }

  lemma EndingIs(s: State, t: Task, id: Id, op: Operation)
    requires t.Resuming? && TaskOk(s, t) && Lock(t) == Some((id, op))
    ensures Ending(t, id, op)
  {
  }

  lemma {:induction false} Above(xs: set<nat>) returns (n: nat)
    ensures forall x :: x in xs ==> x < n
    decreases |xs|
  {
    if xs == {} {
      n := 0;
    } else {
      var x :| x in xs;
      var m := Above(xs - {x});
      n := if m <= x then x + 1 else m;
      assert forall y :: y in xs ==> y == x || y in xs - {x};
    }
  }

  /** No aside is ever stuck. Whatever state it is in, with requests on their way, lost answers, unsaved text or a conflict: the
      network willing, the user can bring it back to showing exactly what the server has, with nothing open. */
  lemma NeverStuck(w: World, id: Id) returns (acts: seq<Act>)
    requires WorldOk(w) && Legible(w.v, id) && id in w.y.s.drafts
    ensures AllPossible(w, acts) && InSync(Play(w, acts), id)
  {
    hide WorldOk, Legible, Next, Possible, InSync;
    var token := Above(w.issued.Keys + w.v.receipts.Keys);
    acts := [];
    if id in w.y.s.mutations { acts := LockGetsFree(w, id, token); }
    var w1 := Play(w, acts);
    PlayOk(w, acts);
    var more := [];
    if w1.y.s.drafts[id].operation.Some? { more := ReconcileGetsThrough(w1, id, token); }
    var w2 := Play(w1, more);
    PlayOk(w1, more);
    var last := ReloadGetsThrough(w2, id);
    PlayConcat(w1, more, last);
    PlayConcat(w, acts, more + last);
    acts := acts + (more + last);
  }
}
