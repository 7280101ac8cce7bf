/**
 The catalog store as the frontend runs it. Every handler does to the fields what `CatalogStore` says, keeps
 its invariants, and promises its caller what becomes of the position that the user sees and of the
 navigation that waits to be saved.
 */
module CatalogOperations {
  import opened Wrappers
  import opened CatalogStore
  import opened CatalogNavigation

  /** What listeners see, replaced as a whole. */
  datatype Shown = Shown(navigation: Nav, ready: bool, loading: bool)

  class Store {
    var epoch: nat
    var intent: nat
    var registration: nat
    var auth: nat
    var revision: nat
    var pending: Option<nat>
    var busy: bool
    var timer: bool
    var state: Shown
    var hydration: Option<Hydration>
    var controller: Option<nat>
    var tasks: map<nat, Task>
    var next: nat
    var navigations: seq<Nav>
    ghost var puts: seq<nat>

    ghost function View(): State
      reads this
    {
      State(epoch, intent, registration, auth, revision, pending, busy, timer, state.navigation, state.ready, state.loading, hydration,
            controller, tasks, next, navigations, puts)
    }

    /** Saves go one at a time and in order, and what waits is the newest navigation. */
    ghost predicate Valid()
      reads this
    {
      Inv(View()) && Live(View())
    }

    constructor (auth: nat, navigation: Nav)
      ensures Valid() && !Stuck(View()) && Fenced(View()) && Kept(View())
      ensures View() == State(0, 0, 0, auth, 0, None, false, false, navigation, false, false, None, None, map[], 0, [], [])
    {
      epoch, intent, registration, revision, next := 0, 0, 0, 0, 0;
      this.auth, state := auth, Shown(navigation, false, false);
      pending, hydration, controller, tasks, navigations, puts := None, None, None, map[], [], [];
      busy, timer := false, false;
    }

    method PauseHydrating()
      modifies `controller, `state
      ensures View() == PauseHydration(old(View()))
    {
      controller := None;
      if state.loading { state := state.(loading := false); }
    }

    /** Afterwards no call that is on its way is of the current epoch, and nothing waits to be saved. */
    method Invalidate()
      requires Valid()
      modifies this
      ensures Valid() && View() == Step(old(View()), Invalidates)
      ensures tasks == old(tasks) && forall k :: k in tasks ==> EpochOf(tasks[k]) < epoch
      ensures pending.None? && !timer && !busy && !state.ready && state.navigation == old(state.navigation)
    {
      hide PauseHydration, Inv, Live, Framed, EpochOf, Step;
      MeansInvalidates(View());
      epoch, intent := epoch + 1, intent + 1;
      hydration := None;
      PauseHydrating();
      timer, pending, busy := false, None, false;
      state := state.(ready := false, loading := false);
    }

    /** A hydration that starts remembers the navigations so far, and replaces any other. */
    method StartHydrating()
      requires Valid()
      modifies this
      ensures Valid() && View() == Step(old(View()), StartsHydration)
      ensures !old(Risky(View(), StartsHydration)) && old(Fenced(View())) ==> Fenced(View())
      ensures forall k :: k in tasks && tasks[k].Hydrating? ==> controller != Some(k)
    {
      hide Inv, Live, Stuck, Kept, Strands, Framed, Step;
      MeansStarts(View());
      hydration := None;
      PauseHydrating();
      hydration := Some(Hydration(next, epoch, auth, intent));
      next := next + 1;
    }

    method Hydrate(current: bool, available: bool)
      requires Valid()
      modifies this
      ensures Valid() && View() == Step(old(View()), Hydrates(current, available))
      ensures controller != old(controller) ==> !state.ready && hydration.Some? && controller == Some(old(next)) && tasks == old(tasks)[old(next) := Hydrating(hydration.value)]
    {
      hide Inv, Live, Stuck, Kept, Strands, Framed, Step;
      MeansHydrates(View(), current, available);
      if hydration.None? { return; }
      var h := hydration.value;
      if !(h.epoch == epoch && h.auth == auth && current) || !available || state.loading || state.ready { return; }
      controller := Some(next);
      state := state.(loading := true);
      tasks := tasks[next := Hydrating(h)];
      next := next + 1;
    }

    /** The position shows at once, and waits to be saved as the newest one. */
    method Navigate(value: Nav)
      requires Valid()
      modifies this
      ensures Valid() && View() == Step(old(View()), Navigates(value))
      ensures state.navigation == value && pending == Some(|navigations| - 1) && navigations == old(navigations) + [value]
      ensures Kept(View()) && (!old(Stuck(View())) ==> !Stuck(View()))
      ensures hydration.Some? ==> hydration.value.intent < intent
    {
      hide Inv, Live, Stuck, Kept, Strands, Framed, Step;
      MeansNavigate(View(), value);
      intent := intent + 1;
      state := state.(navigation := value);
      pending := Some(|navigations|);
      navigations := navigations + [value];
      if state.ready { timer := true; }
    }

    /** Of all navigations that were made the newest is sent, if it was not yet, and none twice. */
    method Flush()
      requires Valid() && timer
      modifies this
      ensures Valid() && View() == Step(old(View()), Fires)
      ensures puts == old(puts) || (puts == old(puts) + [|navigations| - 1] && |navigations| - 1 !in old(puts) && busy)
      ensures puts == old(puts) <==> old(busy || pending.None?)
      ensures old(Kept(View())) ==> Kept(View())
      ensures !Stuck(View())
    {
      hide Inv, Live, Stuck, Kept, Framed, Step;
      MeansFires(View());
      timer := false;
      if busy || pending.None? || !state.ready { return; }
      var body := pending.value;
      pending, busy := None, true;
      tasks := tasks[next := Putting(body, epoch, revision)];
      next := next + 1;
      puts := puts + [body];
    }

    /** The response of a hydration. It replaces the position only if nothing was navigated since the hydration
        started, and leaves what waits waiting: without anything to send it exactly if the hydration started
        after it. */
    method HydrateReplied(k: nat, current: bool, newRevision: nat, value: Nav)
      requires Valid() && k in tasks && tasks[k].Hydrating?
      modifies this
      ensures Valid() && View() == Step(old(View()), Hydrated(k, current, newRevision, value))
      ensures state.navigation != old(state.navigation) ==> state.navigation == value && old(tasks[k]).hydration.intent == intent && state.ready
      ensures old(tasks[k]).hydration.epoch != epoch || controller != old(controller) || revision == old(revision)
      ensures pending == old(pending)
      ensures !old(Stuck(View())) ==> (Stuck(View()) <==> old(Strands(View(), Hydrated(k, current, newRevision, value))))
    {
      hide Inv, Live, Stuck, Kept, Strands, Framed, Step;
      MeansHydrated(View(), k, current, newRevision, value);
      hide HydrateReply;
      var h := tasks[k].hydration;
      tasks := tasks - {k};
      EndHydration(k, h, current, newRevision, value);
    }

    method EndHydration(k: nat, h: Hydration, current: bool, newRevision: nat, value: Nav)
      modifies `revision, `state, `timer, `controller
      ensures View() == HydrateReply(old(View()), k, h, current, newRevision, value)
    {
      hide Framed;
      if hydration == Some(h) && h.epoch == epoch && h.auth == auth && current && controller == Some(k) {
        revision := newRevision;
        state := state.(ready := true, loading := false);
        if h.intent == intent { state := state.(navigation := value); }
        else if pending.Some? { timer := true; }
      }
      if controller == Some(k) { controller := None; }
    }

    /** A save succeeded: the next one may go, and does if a navigation waits. */
    method PutReplied(k: nat, newRevision: nat)
      requires Valid() && k in tasks && tasks[k].Putting?
      modifies this
      ensures Valid() && View() == Step(old(View()), Put(k, newRevision))
      ensures old(tasks[k]).epoch == epoch ==> !busy && revision == newRevision && (pending.Some? ==> timer)
      ensures pending == old(pending) && (!old(Stuck(View())) ==> !Stuck(View())) && (old(Kept(View())) ==> Kept(View()))
    {
      hide Inv, Live, Stuck, Kept, Strands, Framed, Step;
      MeansEnds(View(), k, Put(k, newRevision));
      hide Saved;
      var sentEpoch := tasks[k].epoch;
      tasks := tasks - {k};
      if sentEpoch == epoch {
        revision := newRevision;
        SaveEnds();
      }
    }

    /** The next save may go, and will if a navigation waits. */
    method SaveEnds()
      modifies `busy, `timer
      ensures View() == Saved(old(View())) && !busy && (pending.Some? ==> timer)
    {
      hide Framed;
      busy := false;
      if pending.Some? { timer := true; }
    }

    /** A save failed. The position stays, but a newer navigation that waits is lost with it. */
    method PutFailed(k: nat, current: bool, conflict: bool)
      requires Valid() && k in tasks && tasks[k].Putting?
      modifies this
      ensures Valid() && View() == Step(old(View()), Fails(k, current, conflict))
      ensures state.navigation == old(state.navigation) && puts == old(puts)
      ensures old(tasks[k]).epoch == epoch && old(Kept(View())) ==> pending.None? && (Kept(View()) <==> old(pending).None?)
      ensures old(tasks[k]).epoch == epoch && conflict ==> busy && revision == old(revision)
    {
      hide Inv, Live, Stuck, Kept, Strands, Framed, Step;
      MeansFailed(View(), k, current, conflict);
      var sentEpoch := tasks[k].epoch;
      tasks := tasks - {k};
      if sentEpoch == epoch {
        pending := None;
        if conflict {
          tasks := tasks[next := Rereading(epoch)];
          next := next + 1;
        } else {
          busy := false;
        }
      }
    }

    /** The revision after a conflict was read, or was not. */
    method RereadReplied(k: nat, latest: Option<nat>)
      requires Valid() && k in tasks && tasks[k].Rereading?
      modifies this
      ensures Valid() && View() == Step(old(View()), Reread(k, latest))
      ensures old(tasks[k]).epoch == epoch ==> !busy && (pending.Some? ==> timer)
      ensures pending == old(pending) && (!old(Stuck(View())) ==> !Stuck(View())) && (old(Kept(View())) ==> Kept(View()))
    {
      hide Inv, Live, Stuck, Kept, Strands, Framed, Step;
      MeansEnds(View(), k, Reread(k, latest));
      hide Saved;
      ghost var s := View();
      var sentEpoch := tasks[k].epoch;
      tasks := tasks - {k};
      assert View() == Without(s, k);
      if sentEpoch == epoch {
        if latest.Some? { revision := latest.value; }
        assert View() == Without(s, k).(revision := if latest.Some? then latest.value else s.revision);
        SaveEnds();
      }
      assert View() == RereadReply(Without(s, k), sentEpoch, latest);
    }

    method Open()
      requires Valid()
      modifies this
      ensures Valid() && View() == Step(old(View()), Opens)
      ensures pending == old(pending) && state == old(state)
    {
      hide Inv, Live, Stuck, Kept, Strands, Framed, Step;
      MeansOpens(View());
      intent, registration := intent + 1, registration + 1;
      tasks := tasks[next := Opening(epoch, intent, registration, auth)];
      next := next + 1;
    }

    /** An opening navigates only if nothing else was navigated or opened since. */
    method OpenReplied(k: nat, canActivate: bool, value: Nav)
      requires Valid() && k in tasks && tasks[k].Opening?
      modifies this
      ensures Valid() && View() == Step(old(View()), Opened(k, canActivate, value))
      ensures navigations == old(navigations) || (navigations == old(navigations) + [value] && state.navigation == value && Kept(View()))
      ensures navigations != old(navigations) ==> old(tasks[k]).intent == old(intent) && old(tasks[k]).registration == registration
      ensures navigations == old(navigations) ==> pending == old(pending) && state == old(state)
    {
      hide Inv, Live, Stuck, Kept, Strands, Framed, Step;
      var t := tasks[k];
      MeansOpened(View(), k, canActivate, value);
      tasks := tasks - {k};
      if t.epoch == epoch && t.registration == registration && t.auth == auth && t.intent == intent && canActivate {
        intent := intent + 1;
        state := state.(navigation := value);
        pending := Some(|navigations|);
        navigations := navigations + [value];
        if state.ready { timer := true; }
      }
    }
  }

  // ----- What the handlers promise, of the states

  ghost predicate Fine(s: State) {
    Inv(s) && Live(s)
  }

  lemma MeansInvalidates(s: State)
    requires Fine(s)
    ensures
      var t := Step(s, Invalidates);
      Fine(t) && t == CatalogStore.Invalidate(s) && forall k :: k in s.tasks ==> EpochOf(s.tasks[k]) < t.epoch
  {
    StepInv(s, Invalidates);
    LiveStep(s, Invalidates);
    forall k | k in s.tasks ensures EpochOf(s.tasks[k]) <= s.epoch { HeldTask(s, k); }
  }

  lemma MeansStarts(s: State)
    requires Fine(s)
    ensures
      var t := Step(s, StartsHydration);
      && Fine(t) && t == StartHydration(s) && (!Risky(s, StartsHydration) && Fenced(s) ==> Fenced(t))
  {
    hide Inv, Live;
    StepInv(s, StartsHydration);
    LiveStep(s, StartsHydration);
  }

  lemma MeansHydrates(s: State, current: bool, available: bool)
    requires Fine(s)
    ensures Fine(Step(s, Hydrates(current, available))) && Step(s, Hydrates(current, available)) == CatalogStore.Hydrate(s, current, available)
  {
    hide Inv, Live;
    StepInv(s, Hydrates(current, available));
    LiveStep(s, Hydrates(current, available));
  }

  lemma MeansOpens(s: State)
    requires Fine(s)
    ensures Fine(Step(s, Opens)) && Step(s, Opens) == CatalogStore.Open(s)
  {
    hide Inv, Live;
    StepInv(s, Opens);
    LiveStep(s, Opens);
  }

  lemma MeansNavigate(s: State, value: Nav)
    requires Fine(s)
    ensures
      var t := Step(s, Navigates(value));
      && t == CatalogStore.Navigate(s, value)
      && Fine(t) && Kept(t) && (!Stuck(s) ==> !Stuck(t)) && (t.hydration.Some? ==> t.hydration.value.intent < t.intent)
  {
    hide SavesOk, LogOk;
    StepInv(s, Navigates(value));
    LiveStep(s, Navigates(value));
  }

  lemma MeansFires(s: State)
    requires Fine(s) && s.timer
    ensures
      var t := Step(s, Fires);
      && Fine(t) && !Stuck(t) && (Kept(s) ==> Kept(t))
      && (t.puts == s.puts || (t.puts == s.puts + [|s.navigations| - 1] && |s.navigations| - 1 !in s.puts))
      && (t.puts == s.puts <==> s.busy || s.pending.None?)
      && t == Flush(s) && s.ready
  {
    hide SavesOk, TasksOk;
    StepInv(s, Fires);
    LiveStep(s, Fires);
    assert s.ready;
  }

  lemma MeansHydrated(s: State, k: nat, current: bool, revision: nat, value: Nav)
    requires Fine(s) && k in s.tasks && s.tasks[k].Hydrating?
    ensures
      var e := Hydrated(k, current, revision, value);
      var t := Step(s, e);
      && Fine(t) && t.pending == s.pending && t == HydrateReply(Without(s, k), k, s.tasks[k].hydration, current, revision, value)
      && (t.navigation != s.navigation ==> t.navigation == value && s.tasks[k].hydration.intent == s.intent && t.ready)
      && (!Stuck(s) ==> (Stuck(t) <==> Strands(s, e)))
  {
    hide Inv, Live;
    var e := Hydrated(k, current, revision, value);
    StepInv(s, e);
    LiveStep(s, e);
    if !Stuck(s) { StuckIff(s, e); }
  }

  lemma MeansEnds(s: State, k: nat, e: Event)
    requires Fine(s) && k in s.tasks && Woken(e) == Some(k)
    requires (s.tasks[k].Putting? && e.Put?) || (s.tasks[k].Rereading? && e.Reread?)
    ensures
      var t := Step(s, e);
      && Fine(t) && t.pending == s.pending && (!Stuck(s) ==> !Stuck(t)) && (Kept(s) ==> Kept(t))
      && t == if e.Put? then PutReply(Without(s, k), s.tasks[k].epoch, e.revision) else RereadReply(Without(s, k), s.tasks[k].epoch, e.latest)
  {
    hide Inv, Live;
    StepInv(s, e);
    LiveStep(s, e);
    KeptStep(s, e);
    if !Stuck(s) { StuckIff(s, e); }
  }

  lemma KeptStep(s: State, e: Event)
    requires Fine(s)
    ensures Kept(s) ==> (Kept(Step(s, e)) <==> !(s.pending.Some? && Drops(s, e)))
  {
    hide Inv, Live, Step, Drops, Kept;
    if Kept(s) { KeptStepIff(s, e); }
  }

  lemma MeansFailed(s: State, k: nat, current: bool, conflict: bool)
    requires Fine(s) && k in s.tasks && s.tasks[k].Putting?
    ensures
      var t := Step(s, Fails(k, current, conflict));
      && Fine(t) && t.puts == s.puts && t.navigation == s.navigation
      && t == CatalogStore.PutFailed(Without(s, k), s.tasks[k].epoch, conflict)
      && (s.tasks[k].epoch == s.epoch ==> s.busy)
      && (s.tasks[k].epoch == s.epoch && Kept(s) ==> t.pending.None? && (Kept(t) <==> s.pending.None?))
  {
    hide Live, TasksOk, LogOk;
    var e := Fails(k, current, conflict);
    StepInv(s, e);
    LiveStep(s, e);
    KeptStep(s, e);
    assert Saving(s.tasks[k], s.tasks[k].epoch);
  }

  lemma MeansOpened(s: State, k: nat, canActivate: bool, value: Nav)
    requires Fine(s) && k in s.tasks && s.tasks[k].Opening?
    ensures
      var t := Step(s, Opened(k, canActivate, value));
      && Fine(t) && (t.navigations != s.navigations ==> Kept(t))
      && t == OpenReply(Without(s, k), s.tasks[k], canActivate, value)
  {
    hide Inv, Live;
    StepInv(s, Opened(k, canActivate, value));
    LiveStep(s, Opened(k, canActivate, value));
  }
}
