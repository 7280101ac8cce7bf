/**
 The catalog's navigation: hydration from the server, local navigation, and saving the bookmark, fenced
 by an epoch and an intent counter.
 */
module CatalogStore {
  import opened Wrappers

  type Nav = nat  // a browsing position, without its revision

  /** What a start of hydration captured. */
  datatype Hydration = Hydration(serial: nat, epoch: nat, auth: nat, intent: nat)

  /** A suspended call. */
  datatype Task =
    | Hydrating(hydration: Hydration)
    | Putting(body: nat, epoch: nat, expected: nat)  // the bookmark, by the number of its navigation, and the revision it rests on
    | Rereading(epoch: nat)                    // after a conflict
    | Opening(epoch: nat, intent: nat, registration: nat, auth: nat)

  /** `navigations` are the values that `navigate` was given, in order, and `puts` the numbers of those that
      were sent; both only for reasoning. `pending` is such a number. */
  datatype State = State(epoch: nat, intent: nat, registration: nat, auth: nat, revision: nat, pending: Option<nat>, busy: bool,
                         timer: bool, navigation: Nav, ready: bool, loading: bool, hydration: Option<Hydration>,
                         controller: Option<nat>, tasks: map<nat, Task>, next: nat, navigations: seq<Nav>, puts: seq<nat>)

  datatype Event =
    | Invalidates
    | StartsHydration
    | Hydrates(current: bool, available: bool)
    | Pauses
    | Navigates(value: Nav)
    | Fires                          // the save timer
    | Opens
    | AuthChanges
    | Hydrated(k: nat, current: bool, revision: nat, value: Nav)
    | Put(k: nat, revision: nat)
    | Opened(k: nat, canActivate: bool, value: Nav)
    | Fails(k: nat, current: bool, conflict: bool)
    | Reread(k: nat, latest: Option<nat>)

  /** Neither fences, tasks nor the history move; a controller or a waiting navigation may go. */
  ghost predicate Framed(s: State, t: State) {
    && t.epoch == s.epoch && t.intent == s.intent && t.registration == s.registration && t.auth == s.auth
    && t.tasks == s.tasks && t.next == s.next && t.navigations == s.navigations && t.puts == s.puts
    && t.hydration == s.hydration && (t.controller == s.controller || t.controller.None?)
    && (t.pending == s.pending || t.pending.None?)
  }

  function PauseHydration(s: State): (t: State)
    ensures Framed(s, t) && t.busy == s.busy && t == s.(controller := None, loading := false)
  {
    s.(controller := None, loading := false)
  }

  function Invalidate(s: State): State {
    s.(epoch := s.epoch + 1, intent := s.intent + 1, hydration := None, timer := false, pending := None, busy := false,
       ready := false, controller := None, loading := false)
  }

  function StartHydration(s: State): State {
    PauseHydration(s).(hydration := Some(Hydration(s.next, s.epoch, s.auth, s.intent)), next := s.next + 1)
  }

  predicate HydrationCurrent(s: State, h: Hydration, current: bool) {
    s.hydration == Some(h) && h.epoch == s.epoch && h.auth == s.auth && current
  }

  function Hydrate(s: State, current: bool, available: bool): State {
    if s.hydration.None? || !HydrationCurrent(s, s.hydration.value, current) || !available || s.loading || s.ready then s
    else
      s.(controller := Some(s.next), loading := true, tasks := s.tasks[s.next := Hydrating(s.hydration.value)], next := s.next + 1)
  }

  function Navigate(s: State, value: Nav): State {
    s.(intent := s.intent + 1, navigation := value, pending := Some(|s.navigations|), navigations := s.navigations + [value],
       timer := s.timer || s.ready)
  }

  function Flush(s: State): State {
    var s := s.(timer := false);
    if s.busy || s.pending.None? || !s.ready then s
    else
      s.(pending := None, busy := true, tasks := s.tasks[s.next := Putting(s.pending.value, s.epoch, s.revision)], next := s.next + 1,
         puts := s.puts + [s.pending.value])
  }

  function Open(s: State): State {
    s.(intent := s.intent + 1, registration := s.registration + 1,
       tasks := s.tasks[s.next := Opening(s.epoch, s.intent + 1, s.registration + 1, s.auth)], next := s.next + 1)
  }

  /** The end of a hydration task: its controller goes. */
  function Settled(s: State, k: nat): (t: State)
    ensures Framed(s, t) && t.pending == s.pending && t.busy == s.busy && t.controller != Some(k) && t.navigation == s.navigation
  {
    if s.controller == Some(k) then s.(controller := None) else s
  }

  function HydrateReply(s: State, k: nat, h: Hydration, current: bool, revision: nat, value: Nav): (t: State)
    ensures Framed(s, t) && t.pending == s.pending && t.busy == s.busy
  {
    if !HydrationCurrent(s, h, current) || s.controller != Some(k) then Settled(s, k)
    else
      var t := s.(revision := revision, ready := true, loading := false);
      Settled(if h.intent == s.intent then t.(navigation := value) else t.(timer := t.timer || t.pending.Some?), k)
  }

  function HydrateFailed(s: State, k: nat, h: Hydration, current: bool): (t: State)
    ensures Framed(s, t) && t.pending == s.pending && t.busy == s.busy && t.navigation == s.navigation
  {
    if !HydrationCurrent(s, h, current) || s.controller != Some(k) then Settled(s, k) else Settled(s.(loading := false), k)
  }

  /** The end of a save of the current epoch. */
  function Saved(s: State): (t: State)
    ensures Framed(s, t) && t.pending == s.pending && !t.busy && t.navigation == s.navigation
  {
    s.(busy := false, timer := s.timer || s.pending.Some?)
  }

  function PutReply(s: State, epoch: nat, revision: nat): (t: State)
    ensures Framed(s, t) && t.pending == s.pending && (epoch != s.epoch ==> t == s) && t.navigation == s.navigation
  {
    if epoch == s.epoch then Saved(s.(revision := revision)) else s
  }

  /** A failed save gives up whatever waits; a conflict reads the new revision first. */
  function PutFailed(s: State, epoch: nat, conflict: bool): State {
    if epoch != s.epoch then s
    else if conflict then s.(pending := None, tasks := s.tasks[s.next := Rereading(epoch)], next := s.next + 1)
    else Saved(s.(pending := None))
  }

  function RereadReply(s: State, epoch: nat, revision: Option<nat>): (t: State)
    ensures Framed(s, t) && t.pending == s.pending && (epoch != s.epoch ==> t == s) && t.navigation == s.navigation
  {
    if epoch != s.epoch then s
    else Saved(s.(revision := if revision.Some? then revision.value else s.revision))
  }

  function OpenReply(s: State, t: Task, canActivate: bool, value: Nav): State
    requires t.Opening?
  {
    if t.epoch != s.epoch || t.registration != s.registration || t.auth != s.auth || t.intent != s.intent || !canActivate then s
    else Navigate(s, value)
  }

  function Woken(e: Event): Option<nat> {
    match e
    case Hydrated(k, _, _, _) => Some(k)
    case Put(k, _) => Some(k)
    case Opened(k, _, _) => Some(k)
    case Fails(k, _, _) => Some(k)
    case Reread(k, _) => Some(k)
    case _ => None
  }

  /** A response to the call that awaits it, which `s` no longer has. */
  function Reply(s: State, k: nat, t: Task, e: Event): State {
    match e
    case Hydrated(_, current, revision, value) => if t.Hydrating? then HydrateReply(s, k, t.hydration, current, revision, value) else s
    case Put(_, revision) => if t.Putting? then PutReply(s, t.epoch, revision) else s
    case Opened(_, canActivate, value) => if t.Opening? then OpenReply(s, t, canActivate, value) else s
    case Fails(_, current, conflict) =>
      if t.Hydrating? then HydrateFailed(s, k, t.hydration, current)
      else if t.Putting? then PutFailed(s, t.epoch, conflict) else s
    case Reread(_, revision) => if t.Rereading? then RereadReply(s, t.epoch, revision) else s
    case _ => s
  }

  /** A response of another kind than the call awaits is no event. */
  predicate Fits(t: Task, e: Event) {
    match e
    case Hydrated(_, _, _, _) => t.Hydrating?
    case Put(_, _) => t.Putting?
    case Opened(_, _, _) => t.Opening?
    case Fails(_, _, _) => !t.Rereading?
    case Reread(_, _) => t.Rereading?
    case _ => false
  }

  function Step(s: State, e: Event): State {
    match e
    case Invalidates => Invalidate(s)
    case StartsHydration => StartHydration(s)
    case Hydrates(current, available) => Hydrate(s, current, available)
    case Pauses => PauseHydration(s)
    case Navigates(value) => Navigate(s, value)
    case Fires => if s.timer then Flush(s) else s
    case Opens => Open(s)
    case AuthChanges => s.(auth := s.auth + 1)
    case _ =>
      var k := Woken(e).value;
      if k in s.tasks && Fits(s.tasks[k], e) then Reply(s.(tasks := s.tasks - {k}), k, s.tasks[k], e) else s
  }

  function Run(s: State, events: seq<Event>): State
    decreases |events|
  {
    if events == [] then s else Run(Step(s, events[0]), events[1..])
  }

  // ----- Fences

  predicate Saving(t: Task, epoch: nat) {
    (t.Putting? || t.Rereading?) && t.epoch == epoch
  }

  /** No captured fence is ahead of the current one. */
  ghost predicate TaskOk(s: State, k: nat)
    requires k in s.tasks
  {
    var t := s.tasks[k];
    && k < s.next
    && (t.Hydrating? ==> t.hydration.intent <= s.intent && t.hydration.epoch <= s.epoch)
    && (t.Putting? || t.Rereading? ==> t.epoch <= s.epoch)
    && (t.Opening? ==> t.intent <= s.intent && t.epoch <= s.epoch)
  }

  ghost predicate TasksOk(s: State) {
    && (forall k :: k in s.tasks ==> TaskOk(s, k))
    && (s.hydration.Some? ==> s.hydration.value.intent <= s.intent && s.hydration.value.epoch <= s.epoch)
    && (s.controller.Some? ==> s.controller.value < s.next)
  }

  /** One save at a time in each epoch, and `busy` says so of the current one. */
  ghost predicate SavesOk(s: State) {
    && (forall k, l :: k in s.tasks && l in s.tasks && k != l && (s.tasks[k].Putting? || s.tasks[k].Rereading?) ==>
          !Saving(s.tasks[l], s.tasks[k].epoch))
    && (forall k :: k in s.tasks && Saving(s.tasks[k], s.epoch) ==> s.busy)
  }

  /** What was sent are navigations in their order, and what waits is newer. */
  ghost predicate LogOk(s: State) {
    && (forall i, j :: 0 <= i < j < |s.puts| ==> s.puts[i] < s.puts[j])
    && (forall i :: 0 <= i < |s.puts| ==> s.puts[i] < |s.navigations|)
    && (s.pending.Some? ==> s.pending.value < |s.navigations| && forall i :: 0 <= i < |s.puts| ==> s.puts[i] < s.pending.value)
  }

  ghost predicate Inv(s: State) {
    TasksOk(s) && SavesOk(s) && LogOk(s)
  }

  /** No save of the current epoch is on its way. */
  ghost predicate Unsaved(s: State) {
    forall k :: k in s.tasks ==> !Saving(s.tasks[k], s.epoch)
  }

  lemma FramedInv(s: State, t: State)
    requires Inv(s) && Framed(s, t) && (t.busy == s.busy || Unsaved(s))
    ensures Inv(t)
  {
    forall k | k in t.tasks ensures TaskOk(t, k) { assert TaskOk(s, k); }
  }

  lemma NavigateInv(s: State, value: Nav)
    requires Inv(s)
    ensures Inv(Navigate(s, value))
  {
    var t := Navigate(s, value);
    forall k | k in t.tasks ensures TaskOk(t, k) { assert TaskOk(s, k); }
  }

  lemma AddTask(s: State, t: State)
    requires Inv(s) && s.next in t.tasks && t == s.(tasks := t.tasks, next := s.next + 1, controller := t.controller, loading := t.loading,
                                                     intent := t.intent, registration := t.registration)
    requires t.tasks == s.tasks[s.next := t.tasks[s.next]] && s.intent <= t.intent
    requires TaskOk(t, s.next) && (t.controller == s.controller || t.controller == Some(s.next))
    requires !t.tasks[s.next].Putting? && !t.tasks[s.next].Rereading?
    ensures Inv(t)
  {
    NextIsNew(s);
    forall k | k in t.tasks ensures TaskOk(t, k) { if k in s.tasks { assert TaskOk(s, k); } }
  }

  lemma NextIsNew(s: State)
    requires TasksOk(s)
    ensures s.next !in s.tasks
  {
    forall k | k in s.tasks ensures k < s.next { assert TaskOk(s, k); }
  }

  lemma FlushInv(s: State)
    requires Inv(s)
    ensures Inv(Flush(s))
  {
    var t := Flush(s);
    NextIsNew(s);
    forall k | k in t.tasks ensures TaskOk(t, k) { if k in s.tasks { assert TaskOk(s, k); } }
  }

  lemma InvalidateInv(s: State)
    requires Inv(s)
    ensures Inv(Invalidate(s))
  {
    var t := Invalidate(s);
    forall k | k in s.tasks ensures TaskOk(t, k) && !Saving(t.tasks[k], t.epoch) { assert TaskOk(s, k); }
  }

  lemma StartInv(s: State)
    requires Inv(s)
    ensures Inv(StartHydration(s))
  {
    hide PauseHydration;
    var t := PauseHydration(s);
    FramedInv(s, t);
    forall k | k in t.tasks ensures TaskOk(StartHydration(s), k) { assert TaskOk(t, k); }
  }

  /** The state without a task that is being answered. */
  lemma WithoutInv(s: State, k: nat)
    requires Inv(s) && k in s.tasks
    ensures Inv(s.(tasks := s.tasks - {k}))
    ensures Saving(s.tasks[k], s.epoch) ==> Unsaved(s.(tasks := s.tasks - {k}))
  {
    var t := s.(tasks := s.tasks - {k});
    forall j | j in t.tasks ensures TaskOk(t, j) { assert TaskOk(s, j); }
  }

  lemma ConflictInv(s: State, epoch: nat)
    requires Inv(s) && Unsaved(s) && epoch == s.epoch && s.busy
    ensures Inv(PutFailed(s, epoch, true))
  {
    var t := PutFailed(s, epoch, true);
    NextIsNew(s);
    forall k | k in t.tasks ensures TaskOk(t, k) { if k in s.tasks { assert TaskOk(s, k); } }
  }

  lemma ReplyInv(s: State, k: nat, e: Event)
    requires Inv(s) && k in s.tasks && Woken(e) == Some(k) && Fits(s.tasks[k], e)
    ensures Inv(Reply(s.(tasks := s.tasks - {k}), k, s.tasks[k], e))
  {
    hide HydrateReply, HydrateFailed, PutReply, RereadReply, Navigate, Saved, Inv, Framed, PutFailed;
    var t := s.tasks[k];
    var u := s.(tasks := s.tasks - {k});
    var v := Reply(u, k, t, e);
    WithoutInv(s, k);
    match e
    case Hydrated(_, _, _, _) => FramedInv(u, v);
    case Opened(_, _, value) => NavigateInv(u, value);
    case Put(_, _) => if t.epoch == s.epoch { FramedInv(u, v); }
    case Reread(_, _) => if t.epoch == s.epoch { FramedInv(u, v); }
    case Fails(_, _, conflict) =>
      if t.Hydrating? { FramedInv(u, v); }
      else if t.Putting? { PutFailedInv(s, k, conflict); }
    case _ =>
  }

  lemma PutFailedInv(s: State, k: nat, conflict: bool)
    requires Inv(s) && k in s.tasks && s.tasks[k].Putting?
    ensures Inv(PutFailed(s.(tasks := s.tasks - {k}), s.tasks[k].epoch, conflict))
  {
    hide Saved;
    var u, epoch := s.(tasks := s.tasks - {k}), s.tasks[k].epoch;
    WithoutInv(s, k);
    if epoch == s.epoch {
      assert Saving(s.tasks[k], s.epoch) && s.busy;
      if conflict { ConflictInv(u, epoch); }
      else { FramedInv(u, u.(pending := None)); FramedInv(u.(pending := None), Saved(u.(pending := None))); }
    }
  }

  lemma StepInv(s: State, e: Event)
    requires Inv(s)
    ensures Inv(Step(s, e))
  {
    hide Reply, HydrationCurrent, Inv, Framed, Navigate, Flush, Invalidate, StartHydration, PauseHydration;
    match e
    case Invalidates => InvalidateInv(s);
    case StartsHydration => StartInv(s);
    case Hydrates(current, available) => HydrateInv(s, current, available);
    case Pauses => FramedInv(s, PauseHydration(s));
    case Navigates(value) => NavigateInv(s, value);
    case Fires => FlushInv(s);
    case Opens => OpenInv(s);
    case AuthChanges => AuthInv(s);
    case _ =>
      var k := Woken(e).value;
      if k in s.tasks && Fits(s.tasks[k], e) { ReplyInv(s, k, e); }
  }

  lemma HydrateInv(s: State, current: bool, available: bool)
    requires Inv(s)
    ensures Inv(Hydrate(s, current, available))
  {
    if Hydrate(s, current, available) != s { AddTask(s, Hydrate(s, current, available)); }
  }

  lemma OpenInv(s: State)
    requires Inv(s)
    ensures Inv(Open(s))
  {
    AddTask(s, Open(s));
  }

  lemma AuthInv(s: State)
    requires Inv(s)
    ensures Inv(s.(auth := s.auth + 1))
  {
    var t := s.(auth := s.auth + 1);
    forall k | k in t.tasks ensures TaskOk(t, k) { assert TaskOk(s, k); }
  }

  lemma {:induction false} RunInv(s: State, events: seq<Event>)
    requires Inv(s)
    ensures Inv(Run(s, events)) && s.navigations <= Run(s, events).navigations && s.puts <= Run(s, events).puts
    decreases |events|
  {
    hide Inv, Step;
    if events != [] {
      StepInv(s, events[0]);
      StepGrows(s, events[0]);
      RunInv(Step(s, events[0]), events[1..]);
    }
  }

  lemma {:induction false} IntentNeverFalls(s: State, events: seq<Event>)
    ensures s.intent <= Run(s, events).intent && s.epoch <= Run(s, events).epoch
    decreases |events|
  {
    hide Step;
    if events != [] {
      StepGrows(s, events[0]);
      IntentNeverFalls(Step(s, events[0]), events[1..]);
    }
  }

  lemma StepGrows(s: State, e: Event)
    ensures s.intent <= Step(s, e).intent && s.epoch <= Step(s, e).epoch
    ensures s.navigations <= Step(s, e).navigations && s.puts <= Step(s, e).puts
  {
    hide HydrationCurrent, HydrateReply, HydrateFailed, PutReply, RereadReply, PauseHydration, Settled, Saved, Reply;
    if Woken(e).Some? && Woken(e).value in s.tasks && Fits(s.tasks[Woken(e).value], e) { ReplyGrows(s, Woken(e).value, e); }
  }

  lemma ReplyGrows(s: State, k: nat, e: Event)
    requires k in s.tasks && Woken(e) == Some(k) && Fits(s.tasks[k], e)
    ensures
      var t := Reply(s.(tasks := s.tasks - {k}), k, s.tasks[k], e);
      && s.intent <= t.intent && s.epoch <= t.epoch && s.navigations <= t.navigations && s.puts == t.puts && s.next <= t.next
      && (t.controller == s.controller || t.controller.None?)
  {
    hide HydrationCurrent, HydrateReply, HydrateFailed, PutReply, RereadReply, PauseHydration, Settled, Saved;
  }

  /** A hydration never replaces a navigation made after it started: whatever happens in between, its
      response leaves the local position alone. */
  lemma HydrationKeepsNavigation(s: State, value: Nav, events: seq<Event>, e: Event)
    requires Inv(s) && e.Hydrated? && s.hydration.Some?
    ensures
      var t := Run(Step(s, Navigates(value)), events);
      e.k in t.tasks && t.tasks[e.k] == Hydrating(s.hydration.value) ==> Step(t, e).navigation == t.navigation
  {
    hide Inv, HydrationCurrent;
    IntentNeverFalls(Step(s, Navigates(value)), events);
    HeldIntent(s);
  }

  lemma HeldIntent(s: State)
    requires Inv(s) && s.hydration.Some?
    ensures s.hydration.value.intent <= s.intent
  {
  }

  /** Neither does a hydration that is already on its way, nor an opening: a later navigation wins. */
  lemma LaterNavigationWins(s: State, value: Nav, events: seq<Event>, e: Event, k: nat)
    requires Inv(s) && k in s.tasks && (s.tasks[k].Hydrating? || s.tasks[k].Opening?) && Woken(e) == Some(k)
    ensures
      var t := Run(Step(s, Navigates(value)), events);
      k in t.tasks && t.tasks[k] == s.tasks[k] ==> Step(t, e).navigation == t.navigation
  {
    hide HydrationCurrent;
    IntentNeverFalls(Step(s, Navigates(value)), events);
  }

  function EpochOf(t: Task): nat {
    if t.Hydrating? then t.hydration.epoch else t.epoch
  }

  /** An invalidation fences off everything that was on its way: whatever happens afterwards, the response of
      a hydration, a save, a conflict's second read or an opening from before it changes nothing but that it
      was awaited. */
  lemma EarlierResponsesChangeNothing(s: State, events: seq<Event>, k: nat, e: Event)
    requires Inv(s) && k in s.tasks && Woken(e) == Some(k) && Fits(s.tasks[k], e)
    ensures
      var t := Run(Invalidate(s), events);
      k in t.tasks && t.tasks[k] == s.tasks[k] ==> Step(t, e) == t.(tasks := t.tasks - {k})
  {
    hide Inv, Step, Run;
    IntentNeverFalls(Invalidate(s), events);
    HeldTask(s, k);
    if s.tasks[k].Hydrating? { ControllerIsNew(Invalidate(s), events, k); }
    var t := Run(Invalidate(s), events);
    if k in t.tasks && t.tasks[k] == s.tasks[k] { OldResponse(t, k, e); }
  }

  lemma OldResponse(s: State, k: nat, e: Event)
    requires k in s.tasks && Woken(e) == Some(k) && Fits(s.tasks[k], e)
    requires EpochOf(s.tasks[k]) != s.epoch && (s.tasks[k].Hydrating? ==> s.controller != Some(k))
    ensures Step(s, e) == s.(tasks := s.tasks - {k})
  {
  }

  lemma HeldTask(s: State, k: nat)
    requires Inv(s) && k in s.tasks
    ensures EpochOf(s.tasks[k]) <= s.epoch && k < s.next
  {
    assert TaskOk(s, k);
  }

  lemma {:induction false} ControllerIsNew(s: State, events: seq<Event>, k: nat)
    requires k < s.next && s.controller != Some(k)
    ensures Run(s, events).controller != Some(k)
    decreases |events|
  {
    hide Step;
    if events != [] {
      ControllerStep(s, events[0], k);
      ControllerIsNew(Step(s, events[0]), events[1..], k);
    }
  }

  lemma ControllerStep(s: State, e: Event, k: nat)
    requires k < s.next && s.controller != Some(k)
    ensures k < Step(s, e).next && Step(s, e).controller != Some(k)
  {
    hide HydrationCurrent, HydrateReply, HydrateFailed, PutReply, RereadReply, PauseHydration, Settled, Saved, Reply;
    if Woken(e).Some? && Woken(e).value in s.tasks && Fits(s.tasks[Woken(e).value], e) { ReplyGrows(s, Woken(e).value, e); }
  }

  /** In every run: at most one save per epoch is on its way, and the bookmarks sent are navigations in
      their order, none twice; so no conflict sends an older position again. */
  lemma SavesAreInOrder(s: State, events: seq<Event>)
    requires Inv(s)
    ensures
      var t := Run(s, events);
      && (forall k, l :: k in t.tasks && l in t.tasks && t.tasks[k].Putting? && t.tasks[l].Putting? && t.tasks[k].epoch == t.tasks[l].epoch ==> k == l)
      && (forall i, j :: 0 <= i < j < |t.puts| ==> t.puts[i] < t.puts[j] < |t.navigations|)
  {
    hide Step;
    RunInv(s, events);
  }
}
