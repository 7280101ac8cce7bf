/**
 Which navigations reach the server: the newest one waits or was sent, unless a failed save or an
 invalidation drops it, or a hydration that started after it leaves it with nothing that would send it.
 */
module CatalogNavigation {
  import opened Wrappers
  import opened CatalogStore

  /** What waits is the newest navigation; the timer and a save belong to a store that is ready, which no
      hydration is then about to make ready; and a store that is busy awaits a response that ends it. */
  ghost predicate Live(s: State) {
    && (s.pending.Some? ==> s.pending.value == |s.navigations| - 1)
    && (s.timer || s.busy ==> s.ready)
    && (s.controller.Some? ==> !s.ready)
    && (s.busy ==> exists k :: k in s.tasks && Saving(s.tasks[k], s.epoch))
  }

  /** The event that ends a task. */
  predicate Answers(s: State, e: Event) {
    Woken(e).Some? && Woken(e).value in s.tasks && Fits(s.tasks[Woken(e).value], e)
  }

  function Without(s: State, k: nat): State {
    s.(tasks := s.tasks - {k})
  }

  lemma OtherSaveStays(s: State, k: nat)
    requires Live(s) && k in s.tasks && !Saving(s.tasks[k], s.epoch)
    ensures Live(Without(s, k))
  {
    if s.busy {
      var j :| j in s.tasks && Saving(s.tasks[j], s.epoch);
      assert j in Without(s, k).tasks;
    }
  }

  lemma AddedStays(s: State, k: nat, t: Task)
    requires Live(s) && k !in s.tasks
    ensures Live(s.(tasks := s.tasks[k := t]))
  {
    if s.busy {
      var j :| j in s.tasks && Saving(s.tasks[j], s.epoch);
      assert s.tasks[k := t][j] == s.tasks[j];
    }
  }

  lemma SaveEnds(s: State, k: nat, e: Event)
    requires Inv(s) && Live(s) && k in s.tasks && Saving(s.tasks[k], s.epoch) && Woken(e) == Some(k) && Fits(s.tasks[k], e)
    ensures Live(Step(s, e))
  {
    hide Inv;
    var t := Step(s, e);
    BusyWith(s, k);
    if e.Fails? && e.conflict { assert t.tasks[s.next] == Rereading(s.epoch); }
  }

  lemma BusyWith(s: State, k: nat)
    requires Inv(s) && k in s.tasks && Saving(s.tasks[k], s.epoch)
    ensures s.busy
  {
  }

  lemma OtherEnds(s: State, k: nat, e: Event)
    requires Live(s) && k in s.tasks && !Saving(s.tasks[k], s.epoch) && Woken(e) == Some(k) && Fits(s.tasks[k], e)
    ensures Live(Step(s, e))
  {
    hide Framed, HydrationCurrent;
    OtherSaveStays(s, k);
    var u, t := Without(s, k), Step(s, e);
    assert t == Reply(u, k, s.tasks[k], e);
    assert t.busy == u.busy && t.tasks == u.tasks && t.epoch == u.epoch;
  }

  lemma LiveStep(s: State, e: Event)
    requires Inv(s) && Live(s)
    ensures Live(Step(s, e))
  {
    hide Inv, Reply, HydrationCurrent, Framed;
    NextFree(s);
    match e
    case Fires =>
      if s.timer && !s.busy && s.pending.Some? && s.ready { assert Step(s, e).tasks[s.next] == Putting(s.pending.value, s.epoch, s.revision); }
    case Hydrates(current, available) => if Step(s, e) != s { AddedStays(s, s.next, Hydrating(s.hydration.value)); }
    case Opens => AddedStays(s, s.next, Opening(s.epoch, s.intent + 1, s.registration + 1, s.auth));
    case Invalidates =>
    case StartsHydration =>
    case Pauses =>
    case Navigates(_) =>
    case AuthChanges =>
    case _ =>
      var k := Woken(e).value;
      if Answers(s, e) {
        if Saving(s.tasks[k], s.epoch) { SaveEnds(s, k, e); } else { OtherEnds(s, k, e); }
      }
  }

  lemma NextFree(s: State)
    requires Inv(s)
    ensures s.next !in s.tasks
  {
    NextIsNew(s);
  }

  // ----- What drops a navigation that waits

  /** The newest navigation waits, or was the last one sent. */
  predicate Kept(s: State) {
    |s.navigations| > 0 ==>
      s.pending == Some(|s.navigations| - 1) || (s.puts != [] && s.puts[|s.puts| - 1] == |s.navigations| - 1)
  }

  /** A save of the epoch fails, by a conflict or not, or everything is invalidated. */
  predicate Drops(s: State, e: Event) {
    e.Invalidates? || (e.Fails? && e.k in s.tasks && s.tasks[e.k].Putting? && s.tasks[e.k].epoch == s.epoch)
  }

  /** One event at a time: what waits is dropped unsent by exactly these. */
  lemma DroppedIff(s: State, e: Event)
    requires s.pending.Some?
    ensures Step(s, e).pending.None? && Step(s, e).puts == s.puts <==> Drops(s, e)
  {
    hide Step;
    NavigationsStep(s, e);
  }

  lemma KeptStepIff(s: State, e: Event)
    requires Inv(s) && Live(s) && Kept(s)
    ensures Kept(Step(s, e)) <==> !(s.pending.Some? && Drops(s, e))
  {
    hide TasksOk, SavesOk, Step;
    NavigationsStep(s, e);
  }

  /** An event navigates, sends what waits, drops it, or leaves it alone. */
  lemma NavigationsStep(s: State, e: Event)
    ensures
      var t := Step(s, e);
      || (t.pending == Some(|t.navigations| - 1) && |t.navigations| == |s.navigations| + 1 && t.puts == s.puts && !Drops(s, e))
      || (t.navigations == s.navigations && s.pending.Some? && t.pending.None? && t.puts == s.puts + [s.pending.value] && !Drops(s, e))
      || (t.navigations == s.navigations && t.puts == s.puts && t.pending == if Drops(s, e) then None else s.pending)
  {
    hide Live, HydrationCurrent, HydrateReply, HydrateFailed, PutReply, RereadReply, Saved, Settled;
    if Answers(s, e) { RepliesStep(s, Woken(e).value, e); }
  }

  lemma RepliesStep(s: State, k: nat, e: Event)
    requires k in s.tasks && Woken(e) == Some(k) && Fits(s.tasks[k], e)
    ensures
      var t := Reply(Without(s, k), k, s.tasks[k], e);
      || (t.pending == Some(|t.navigations| - 1) && |t.navigations| == |s.navigations| + 1 && t.puts == s.puts && !Drops(s, e))
      || (t.navigations == s.navigations && t.puts == s.puts && t.pending == if Drops(s, e) then None else s.pending)
  {
    hide HydrationCurrent, HydrateReply, HydrateFailed, PutReply, RereadReply, Saved, Settled;
  }

  predicate NeverDropped(s: State, events: seq<Event>)
    decreases |events|
  {
    events == [] || (!(s.pending.Some? && Drops(s, events[0])) && NeverDropped(Step(s, events[0]), events[1..]))
  }

  /** Over whole runs: as long as no save fails and nothing is invalidated while a navigation waits, the newest
      navigation is always the one that waits or the last one that was sent. */
  lemma {:induction false} NewestIsKept(s: State, events: seq<Event>)
    requires Inv(s) && Live(s) && Kept(s) && NeverDropped(s, events)
    ensures Inv(Run(s, events)) && Live(Run(s, events)) && Kept(Run(s, events))
    decreases |events|
  {
    hide Inv, Live, Step, Kept, Drops;
    if events != [] {
      StepInv(s, events[0]);
      LiveStep(s, events[0]);
      KeptStepIff(s, events[0]);
      NewestIsKept(Step(s, events[0]), events[1..]);
    }
  }

  /** And exactly as long: until the next navigation, what was dropped is neither waiting nor ever sent. */
  lemma {:induction false} NewestIsKeptIff(s: State, events: seq<Event>)
    requires Inv(s) && Live(s) && Kept(s) && Run(s, events).navigations == s.navigations
    ensures Kept(Run(s, events)) <==> NeverDropped(s, events)
    decreases |events|
  {
    hide Inv, Live, Step, Kept, Drops;
    if events != [] {
      var t := Step(s, events[0]);
      StepInv(s, events[0]);
      LiveStep(s, events[0]);
      KeptStepIff(s, events[0]);
      StepGrows(s, events[0]);
      RunInv(t, events[1..]);
      if s.pending.Some? && Drops(s, events[0]) {
        LostOnes(s, events[0]);
        LostStays(t, events[1..]);
      } else {
        NewestIsKeptIff(t, events[1..]);
      }
    }
  }

  /** The newest navigation is neither waiting nor sent. */
  predicate Lost(s: State) {
    && |s.navigations| > 0 && s.pending.None?
    && forall i :: 0 <= i < |s.puts| ==> s.puts[i] < |s.navigations| - 1
  }

  lemma LostOnes(s: State, e: Event)
    requires Inv(s) && Live(s) && s.pending.Some? && Drops(s, e)
    ensures Lost(Step(s, e)) && Step(s, e).navigations == s.navigations
  {
    hide TasksOk, SavesOk, Step;
    NavigationsStep(s, e);
  }

  lemma {:induction false} LostStays(s: State, events: seq<Event>)
    requires Inv(s) && Live(s) && Lost(s) && Run(s, events).navigations == s.navigations
    ensures !Kept(Run(s, events))
    decreases |events|
  {
    hide Inv, Live, Step, Drops;
    if events != [] {
      var t := Step(s, events[0]);
      StepInv(s, events[0]);
      LiveStep(s, events[0]);
      StepGrows(s, events[0]);
      RunInv(t, events[1..]);
      NavigationsStep(s, events[0]);
      LostStays(t, events[1..]);
    }
  }

  const START := State(0, 0, 0, 0, 0, None, false, false, 0, false, false, None, None, map[], 0, [], [])

  /** Concretely: while a save is on its way the user navigates on, the save fails with a server error, and the
      second navigation is neither waiting nor sent. */
  lemma FailureLosesNavigation()
    ensures
      var s := Run(START, [StartsHydration, Hydrates(true, true), Hydrated(1, true, 0, 0), Navigates(1), Fires, Navigates(2), Fails(2, true, false)]);
      s.navigations == [1, 2] && s.navigation == 2 && s.ready && s.puts == [0] && s.pending.None? && !s.busy && Lost(s)
  {
    var e := [StartsHydration, Hydrates(true, true), Hydrated(1, true, 0, 0), Navigates(1), Fires, Navigates(2), Fails(2, true, false)];
    hide Step, Run, Lost;
    Three(START, e);
    GetsReady(e);
    Four(READY, e[3..]);
    Loses(e[3..]);
  }

  const READY := START.(hydration := Some(Hydration(0, 0, 0, 0)), next := 2, ready := true)

  lemma GetsReady(e: seq<Event>)
    requires |e| >= 3 && e[..3] == [StartsHydration, Hydrates(true, true), Hydrated(1, true, 0, 0)]
    ensures Step(Step(Step(START, e[0]), e[1]), e[2]) == READY
  {
    assert e[0] == e[..3][0] && e[1] == e[..3][1] && e[2] == e[..3][2];
  }

  lemma Loses(e: seq<Event>)
    requires e == [Navigates(1), Fires, Navigates(2), Fails(2, true, false)]
    ensures
      var s := Step(Step(Step(Step(READY, e[0]), e[1]), e[2]), e[3]);
      s.navigations == [1, 2] && s.navigation == 2 && s.ready && s.puts == [0] && s.pending.None? && !s.busy && Lost(s)
  {
    var s1 := Step(READY, e[0]);
    var s2 := Step(s1, e[1]);
    assert s2 == s1.(timer := false, pending := None, busy := true, tasks := map[2 := Putting(0, 0, s1.revision)], next := 3, puts := [0]);
    var s3 := Step(s2, e[2]);
    assert s3.tasks == s2.tasks && s3.navigations == [1, 2];
  }

  lemma Three(s: State, e: seq<Event>)
    requires |e| >= 3
    ensures Run(s, e) == Run(Step(Step(Step(s, e[0]), e[1]), e[2]), e[3..])
  {
    hide Step;
    assert e[1..][1..] == e[2..] && e[2..][1..] == e[3..];
    assert Run(s, e) == Run(Step(s, e[0]), e[1..]);
    assert Run(Step(s, e[0]), e[1..]) == Run(Step(Step(s, e[0]), e[1]), e[2..]);
  }

  lemma Four(s: State, e: seq<Event>)
    requires |e| == 4
    ensures Run(s, e) == Step(Step(Step(Step(s, e[0]), e[1]), e[2]), e[3])
  {
    hide Step;
    Three(s, e);
    assert e[3..][1..] == [];
  }

  // ----- What leaves a navigation waiting

  /** It waits in a store that is ready, with no timer and no save that would set one. */
  predicate Stuck(s: State) {
    s.pending.Some? && s.ready && !s.timer && !s.busy
  }

  /** A hydration that started after the navigation makes the store ready. */
  predicate Strands(s: State, e: Event) {
    && e.Hydrated? && e.k in s.tasks && s.tasks[e.k].Hydrating? && s.controller == Some(e.k)
    && HydrationCurrent(s, s.tasks[e.k].hydration, e.current)
    && s.tasks[e.k].hydration.intent == s.intent && s.pending.Some?
  }

  /** One event at a time: a navigation is left waiting by exactly this. */
  lemma StuckIff(s: State, e: Event)
    requires Inv(s) && Live(s) && !Stuck(s)
    ensures Stuck(Step(s, e)) <==> Strands(s, e)
  {
    hide TasksOk, SavesOk, LogOk;
  }

  /** Exactly then it is lost: what waits in a ready store can still be sent, in some continuation, if and only if
      it is not stuck. */
  lemma SentIff(s: State)
    requires Inv(s) && Live(s) && s.pending.Some? && s.ready
    ensures (exists events :: s.pending.value in Run(s, events).puts) <==> !Stuck(s)
  {
    hide Step, Run;
    if Stuck(s) {
      forall events ensures s.pending.value !in Run(s, events).puts { NeverSent(s, events, s.pending.value); }
    } else {
      var events := SendingRun(s);
      assert s.pending.value in Run(s, events).puts;
    }
  }

  /** The navigation was not sent, and is stuck or no longer waits. */
  predicate Forgone(s: State, n: nat) {
    n < |s.navigations| && n !in s.puts && (s.pending == Some(n) ==> Stuck(s))
  }

  lemma ForgoneStep(s: State, e: Event, n: nat)
    requires Inv(s) && Live(s) && Forgone(s, n)
    ensures Forgone(Step(s, e), n)
  {
    hide TasksOk, LogOk, HydrationCurrent;
    NavigationsStep(s, e);
  }

  lemma {:induction false} ForgoneRun(s: State, events: seq<Event>, n: nat)
    requires Inv(s) && Live(s) && Forgone(s, n)
    ensures n !in Run(s, events).puts
    decreases |events|
  {
    hide Inv, Live, Step, Stuck;
    if events != [] {
      StepInv(s, events[0]);
      LiveStep(s, events[0]);
      ForgoneStep(s, events[0], n);
      ForgoneRun(Step(s, events[0]), events[1..], n);
    }
  }

  lemma NeverSent(s: State, events: seq<Event>, n: nat)
    requires Inv(s) && Live(s) && Stuck(s) && s.pending == Some(n)
    ensures n !in Run(s, events).puts
  {
    ForgoneRun(s, events, n);
  }

  lemma SendingRun(s: State) returns (events: seq<Event>)
    requires Inv(s) && Live(s) && s.pending.Some? && s.ready && !Stuck(s)
    ensures s.pending.value in Run(s, events).puts
  {
    hide Inv;
    if !s.busy {
      events := [Fires];
      assert events[1..] == [];
      assert Run(s, events) == Step(s, Fires);
      assert Step(s, Fires).puts[|s.puts|] == s.pending.value;
    } else {
      var k :| k in s.tasks && Saving(s.tasks[k], s.epoch);
      var e := if s.tasks[k].Putting? then Put(k, 0) else Reread(k, None);
      var t := Step(s, e);
      assert t.timer && !t.busy && t.pending == s.pending && t.ready;
      events := [e, Fires];
      assert events[1..] == [Fires] && [Fires][1..] == [];
      assert Run(s, events) == Run(t, [Fires]) == Step(t, Fires);
      assert Step(t, Fires).puts[|t.puts|] == s.pending.value;
    }
  }

  /** No hydration under way started after the navigation that waits. */
  predicate Fenced(s: State) {
    !s.ready && s.hydration.Some? && s.hydration.value.intent == s.intent ==> s.pending.None?
  }

  /** A hydration starts while a navigation waits for the store to become ready. */
  predicate Risky(s: State, e: Event) {
    e.StartsHydration? && s.pending.Some? && !s.ready
  }

  predicate NeverRisky(s: State, events: seq<Event>)
    decreases |events|
  {
    events == [] || (!Risky(s, events[0]) && NeverRisky(Step(s, events[0]), events[1..]))
  }

  lemma FencedStep(s: State, e: Event)
    requires Inv(s) && Live(s) && Fenced(s) && !Stuck(s) && !Risky(s, e)
    ensures Fenced(Step(s, e)) && !Stuck(Step(s, e))
  {
    hide SavesOk, LogOk, Framed;
    StuckIff(s, e);
  }

  /** Over whole runs: as long as no hydration starts while a navigation waits for the store to become ready, no
      navigation is ever stuck. */
  lemma {:induction false} NeverStuck(s: State, events: seq<Event>)
    requires Inv(s) && Live(s) && Fenced(s) && !Stuck(s) && NeverRisky(s, events)
    ensures !Stuck(Run(s, events)) && Fenced(Run(s, events))
    decreases |events|
  {
    hide Inv, Live, Step, Stuck, Fenced, Risky;
    if events != [] {
      StepInv(s, events[0]);
      LiveStep(s, events[0]);
      FencedStep(s, events[0]);
      NeverStuck(Step(s, events[0]), events[1..]);
    }
  }

  /** And whenever one does, its own response leaves the navigation stuck, whatever it says. */
  lemma RiskyGetsStuck(s: State, e: Event, revision: nat, value: Nav)
    requires Inv(s) && Live(s) && Risky(s, e)
    ensures
      var t := Run(s, [e, Hydrates(true, true), Hydrated(s.next + 1, true, revision, value)]);
      Stuck(t) && t.pending == s.pending && t.navigation == value
  {
    hide Inv;
    var es := [e, Hydrates(true, true), Hydrated(s.next + 1, true, revision, value)];
    Three(s, es);
    assert es[3..] == [];
    var h := Hydration(s.next, s.epoch, s.auth, s.intent);
    var t1 := Step(s, e);
    assert t1 == s.(controller := None, loading := false, hydration := Some(h), next := s.next + 1);
    var t2 := Step(t1, es[1]);
    assert t2 == t1.(controller := Some(t1.next), loading := true, tasks := t1.tasks[t1.next := Hydrating(h)], next := t1.next + 1);
  }
}
