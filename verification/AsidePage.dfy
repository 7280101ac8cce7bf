/**
 A page with its owner: it makes the calls that the user asks for, keeps the calls that the owner suspends, and
 hands each answer to the call that awaits it. Whatever it does, the owner goes through a run of `AsideRuns`.
 */
module AsidePage {
  import opened Wrappers
  import P = AsideProtocol
  import I = AsideInvariants
  import R = AsideRuns
  import D = AsidePersistence
  import V = AsideRecovery
  import C = AsideCalls
  import S = AsideSession

  /** The event is of the kind that the call awaits. */
  predicate Awaits(t: P.Task, e: R.Event) {
    match e
    case Answers(_, _) => t.Reading? || t.Performing? || t.Creating? || t.Referencing?
    case Lists(_, _) => t.Listing?
    case Continues(_, _) => t.Resuming?
    case _ => false
  }

  lemma AwaitsIff(s: P.State, t: P.Task, m: R.Move)
    ensures R.Wake(s, t, m).Some? <==> Awaits(t, m.event)
  {
    hide P.ReadFinish, P.PerformReply, P.CreateReply, P.ReferenceReply, P.ListReply, P.Resume;
  }

  class Page {
    var session: S.AsideSession
    var tasks: map<nat, P.Task>
    var next: nat

    ghost function System(): R.System
      reads this, session
    {
      R.System(session.View(), tasks, next)
    }

    ghost predicate Valid()
      reads this, session
    {
      R.Inv(System()) && session.Valid()
    }

    /** A new page, whatever asides storage kept. */
    constructor (storage: Option<P.Persisted>)
      ensures Valid() && fresh(session) && D.Durable(session.View())
      ensures System() == R.System(P.Restore(storage), map[], 0)
    {
      hide C.Good, D.Durable, P.Restore, I.WF, R.LocksOk;
      session := new S.AsideSession(storage);
      tasks, next := map[], 0;
      new;
      R.RestoreInv(storage);
    }

    /** What the user asks for. */
    method Ask(m: R.Move) returns (t: Option<P.Task>)
      requires session.Valid() && R.Woken(m.event).None? && !m.event.Crashes?
      modifies session
      ensures session.Valid() && (session.View(), t) == R.Call(old(session.View()), m)
    {
      hide C.Good, C.Keeps, C.SendsNow, I.Owns, R.TaskOk, P.Edit, P.Save, P.SetLifecycle, P.Reconcile, P.Reload, P.OpenAside, P.ReadBegin, P.Refresh,
           P.Create, P.RetryCreate, P.RetireAccess;
      t := None;
      match m.event
      case Edits(id, text) => session.Edit(id, text, m.allowed, m.w);
      case Saves(id, token) => t := session.Save(id, token, m.allowed, m.w);
      case Sets(id, lifecycle, token) => t := session.SetLifecycle(id, lifecycle, token, m.allowed, m.w);
      case Reconciles(id) => t := session.Reconcile(id, m.allowed, m.w);
      case Reloads(id) => t := session.Reload(id, m.allowed);
      case Opens(id, refresh) => t := session.Open(id, refresh, m.allowed, m.w);
      case Reads(id) =>
        var read := session.ReadRecord(id, false, P.Nothing, m.allowed);
        t := Some(read);
      case References(id) => if m.allowed { t := Some(P.Referencing(id, session.accessGeneration)); }
      case Refreshes(revalidate) => t := session.Refresh(revalidate, m.allowed, m.w);
      case Creates(target, text, token, canCreate) => t := session.Create(target, text, token, m.allowed, canCreate, m.w);
      case RetriesCreate => t := session.RetryCreate(m.allowed, m.w);
      case LosesAccess => session.RetireAccess();
    }

    /** An answer, to the call that awaits it. */
    method Tell(t: P.Task, m: R.Move) returns (after: Option<P.Task>)
      requires session.Valid() && R.TaskOk(session.View(), t) && Awaits(t, m.event)
      modifies session
      ensures session.Valid() && R.Wake(old(session.View()), t, m) == Some((session.View(), after))
    {
      hide C.Good, C.Keeps, I.Owns, I.Discards, I.Retires, P.ReadFinish, P.PerformReply, P.CreateReply, P.ReferenceReply, P.ListReply, P.Resume;
      after := None;
      match m.event
      case Answers(_, response) =>
        if t.Reading? {
          var ok := session.ReadFinish(t, response, m.allowed, m.w);
          if !t.after.Nothing? { after := Some(P.Resuming(ok, t.after)); }
        } else if t.Performing? {
          after := session.PerformReply(t.id, t.op, response, m.allowed, m.w);
        } else if t.Creating? {
          after := session.CreateReply(t, response, m.allowed, m.w);
        } else {
          session.ReferenceReply(t, response, m.allowed, m.w);
        }
      case Lists(_, items) => session.ListReply(t, items, m.allowed, m.w);
      case Continues(_, token) => after := session.Resume(t.ok, t.after, token, m.allowed, m.w);
      case _ =>
    }

    method Keep(t: Option<P.Task>)
      modifies `tasks, `next
      ensures tasks == (if t.Some? then old(tasks)[old(next) := t.value] else old(tasks)) && next == old(next) + 1
    {
      if t.Some? { tasks := tasks[next := t.value]; }
      next := next + 1;
    }

    /** One event. The owner makes the move that the event is, and of every aside it keeps what the move does not
        license it to change; after a crash it is what storage had. */
    method Handle(m: R.Move)
      requires Valid()
      modifies this, session
      ensures Valid() && (session == old(session) || fresh(session))
      ensures System() == R.Step(old(System()), m)
      ensures !m.event.Crashes? ==> forall id: P.Id :: I.KeptAt(old(session.View()), session.View(), id, R.LicenceOf(old(System()), m, id))
      ensures m.w && old(D.Durable(session.View())) ==> D.Durable(session.View())
    {
      hide R.Inv, R.TaskOk, R.Wake, R.Call, C.Good, D.Durable, I.KeptAt, R.LicenceOf, P.Restore, Awaits;
      StepMeans(System(), m);
      var k := R.Woken(m.event);
      if m.event.Crashes? {
        session := new S.AsideSession(session.disk);
        tasks := map[];
      } else if k.None? {
        var t := Ask(m);
        Keep(t);
      } else if k.value in tasks && Awaits(tasks[k.value], m.event) {
        var t := tasks[k.value];
        AwaitsIff(session.View(), t, m);
        tasks := tasks - {k.value};
        var after := Tell(t, m);
        Keep(after);
      } else if k.value in tasks {
        AwaitsIff(session.View(), tasks[k.value], m);
      }
    }

    static lemma StepMeans(y: R.System, m: R.Move)
      requires R.Inv(y)
      ensures R.Inv(R.Step(y, m))
      ensures forall k :: k in y.tasks ==> R.TaskOk(y.s, y.tasks[k])
      ensures !m.event.Crashes? ==> forall id: P.Id :: I.KeptAt(y.s, R.Step(y, m).s, id, R.LicenceOf(y, m, id))
      ensures m.w && D.Durable(y.s) ==> D.Durable(R.Step(y, m).s)
    {
      hide I.At, R.Step, I.KeptAt, R.LicenceOf, R.TaskOk, D.Durable;
      R.StepInv(y, m);
      if !m.event.Crashes? {
        forall id: P.Id ensures I.KeptAt(y.s, R.Step(y, m).s, id, R.LicenceOf(y, m, id)) { R.StepKeeps(y, m, id); }
      }
      if m.w && D.Durable(y.s) { D.StepDurable(y, m); }
    }

    /** Any number of events. No unsaved text is lost while crashes find it in storage: until the user types over it
        or reloads the aside, it is still there, or the server's record has had exactly that text on the way. */
    method Play(moves: seq<R.Move>)
      requires Valid()
      modifies this, session
      ensures Valid() && System() == R.Run(old(System()), moves)
      ensures V.Writes(moves) && old(D.Durable(session.View())) ==> D.Durable(session.View())
      ensures forall id: P.Id ::
        old(V.Unsaved(session.View(), id)).Some? && V.TextBacked(old(System()), moves, id)
        && V.Never(old(System()), moves, id, I.Typed) && V.Never(old(System()), moves, id, I.Dropped) ==>
          || V.Unsaved(session.View(), id) == old(V.Unsaved(session.View(), id))
          || V.Reaches(old(System()), moves, id, old(V.Unsaved(session.View(), id)).value)
    {
      hide R.Inv, R.Step, D.Durable, V.Unsaved, V.Never, V.TextBacked, V.Reaches, C.Good, I.KeptAt, R.LicenceOf;
      ghost var was := System();
      var i := 0;
      while i < |moves|
        invariant 0 <= i <= |moves| && Valid() && (session == old(session) || fresh(session))
        invariant R.Run(System(), moves[i..]) == R.Run(was, moves)
      {
        assert moves[i..][1..] == moves[i + 1..];
        Handle(moves[i]);
        i := i + 1;
      }
      assert moves[i..] == [];
      SurvivalOf(was, moves);
      if V.Writes(moves) && D.Durable(was.s) { V.RunDurable(was, moves); }
    }

    static lemma SurvivalOf(y: R.System, moves: seq<R.Move>)
      requires R.Inv(y)
      ensures forall id: P.Id ::
        V.Unsaved(y.s, id).Some? && V.TextBacked(y, moves, id) && V.Never(y, moves, id, I.Typed) && V.Never(y, moves, id, I.Dropped) ==>
          V.Unsaved(R.Run(y, moves).s, id) == V.Unsaved(y.s, id) || V.Reaches(y, moves, id, V.Unsaved(y.s, id).value)
    {
      hide R.Inv, R.Run, V.Unsaved, V.Never, V.TextBacked, V.Reaches;
      forall id: P.Id | V.Unsaved(y.s, id).Some? && V.TextBacked(y, moves, id) && V.Never(y, moves, id, I.Typed) && V.Never(y, moves, id, I.Dropped)
        ensures V.Unsaved(R.Run(y, moves).s, id) == V.Unsaved(y.s, id) || V.Reaches(y, moves, id, V.Unsaved(y.s, id).value)
      {
        V.UnsavedTextSurvives(y, moves, id);
      }
    }
  }
}
