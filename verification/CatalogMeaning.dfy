/**
 What each call of the catalog and each response does, field by field: what counts as current, what is shown, what is
 sent against which revision, and what is given up.
 */
module CatalogMeaning {
  import opened Wrappers
  import opened CatalogStore

  /** Everything of the session that ended is behind: whatever is on its way has an older epoch or an older intent, nothing
      waits or counts as being saved, and nothing is shown as ready; only the position stays as it was. */
  lemma InvalidateExactly(s: State)
    ensures
      var t := Step(s, Invalidates);
      && t == s.(epoch := t.epoch, intent := t.intent, hydration := None, timer := false, pending := None, busy := false, ready := false,
                 controller := None, loading := false)
      && t.epoch > s.epoch && t.intent > s.intent
  {
  }

  /** A hydration that starts takes the place of any other, which is interrupted, and remembers where everything stands. */
  lemma StartExactly(s: State)
    ensures
      var t := Step(s, StartsHydration);
      && t == s.(hydration := t.hydration, controller := None, loading := false, next := t.next) && t.next > s.next
      && (s.hydration.Some? && s.hydration.value.serial < s.next ==> t.hydration != s.hydration)
      && t.hydration.Some? && t.hydration.value.epoch == s.epoch && t.hydration.value.auth == s.auth && t.hydration.value.intent == s.intent
  {
  }

  /** The hydration is this session's: not replaced, of this epoch and of this sign-in, and its owner is still there. */
  predicate Current(s: State, h: Hydration, current: bool) {
    match s.hydration
    case None => false
    case Some(x) => x == h && h.epoch == s.epoch && h.auth == s.auth && current
  }

  /** It asks the server exactly if it is current, the page is there and online, and it did not ask or succeed already. */
  lemma HydrateExactly(s: State, current: bool, available: bool)
    ensures
      var t := Step(s, Hydrates(current, available));
      if s.hydration.Some? && Current(s, s.hydration.value, current) && available && !s.loading && !s.ready then
        t == s.(controller := Some(s.next), loading := true, tasks := s.tasks[s.next := Hydrating(s.hydration.value)], next := s.next + 1)
      else t == s
    ensures Step(s, Pauses) == s.(controller := None, loading := false)
    ensures Step(s, AuthChanges) == s.(auth := Step(s, AuthChanges).auth) && Step(s, AuthChanges).auth != s.auth
  {
  }

  /** A navigation shows at once and waits to be saved, instead of any that waited; a timer is set if the store is ready. What
      was asked for before no longer decides. */
  lemma NavigateExactly(s: State, value: Nav)
    ensures
      var t := Step(s, Navigates(value));
      && t == s.(intent := t.intent, navigation := value, pending := t.pending, navigations := s.navigations + [value], timer := t.timer)
      && t.intent > s.intent && t.pending.Some? && t.pending.value < |t.navigations| && t.navigations[t.pending.value] == value
      && t.pending.value == |s.navigations| && (t.timer <==> s.timer || s.ready)
  {
  }

  /** When the timer fires, what waits is sent, against the revision that is known, exactly if the store is ready and no save
      is on its way. */
  lemma FireExactly(s: State)
    ensures
      var t := Step(s, Fires);
      if s.timer && s.pending.Some? && s.ready && !s.busy then
        && t == s.(timer := false, pending := None, busy := true, tasks := t.tasks, next := s.next + 1, puts := s.puts + [s.pending.value])
        && t.tasks == s.tasks[s.next := Putting(s.pending.value, s.epoch, s.revision)]
      else t == s.(timer := false)
  {
  }

  /** An opening that starts makes every earlier one, and every hydration that is on its way, give way. */
  lemma OpenExactly(s: State)
    ensures
      var t := Step(s, Opens);
      && t == s.(intent := t.intent, registration := t.registration, tasks := t.tasks, next := s.next + 1)
      && t.intent > s.intent && t.registration > s.registration
      && t.tasks == s.tasks[s.next := Opening(s.epoch, t.intent, t.registration, s.auth)]
  {
  }

  // ----- Responses

  function Without(s: State, k: nat): State {
    s.(tasks := s.tasks - {k})
  }

  /** The response of a hydration counts exactly if the hydration is current and nothing interrupted this request. Then the
      store is ready at the revision that was read; it shows the bookmark if nothing was navigated or opened since the
      hydration started, and otherwise goes on to save what waits. */
  lemma HydratedExactly(s: State, k: nat, current: bool, revision: nat, value: Nav)
    requires k in s.tasks && s.tasks[k].Hydrating?
    ensures
      var t := Step(s, Hydrated(k, current, revision, value));
      var h := s.tasks[k].hydration;
      if Current(s, h, current) && s.controller == Some(k) then
        && t == Without(s, k).(revision := revision, ready := true, loading := false, controller := None, navigation := t.navigation, timer := t.timer)
        && t.navigation == (if h.intent == s.intent then value else s.navigation)
        && (t.timer <==> s.timer || (h.intent != s.intent && s.pending.Some?))
      else t == Without(s, k).(controller := if s.controller == Some(k) then None else s.controller)
  {
  }

  /** One that failed only ends; so that it can be tried again it no longer counts as loading, if it still counted. */
  lemma HydrationFails(s: State, k: nat, current: bool, conflict: bool)
    requires k in s.tasks && s.tasks[k].Hydrating?
    ensures
      var t := Step(s, Fails(k, current, conflict));
      var mine := s.controller == Some(k);
      t == Without(s, k).(controller := if mine then None else s.controller,
                          loading := if mine && Current(s, s.tasks[k].hydration, current) then false else s.loading)
  {
  }

  /** A save of this epoch that succeeded makes room for the next, which a navigation that waits gets a timer for, against the
      revision that it made. One of another epoch changes nothing. */
  lemma PutExactly(s: State, k: nat, revision: nat)
    requires k in s.tasks && s.tasks[k].Putting?
    ensures Step(s, Put(k, revision)) ==
      if s.tasks[k].epoch == s.epoch then Without(s, k).(revision := revision, busy := false, timer := s.timer || s.pending.Some?) else Without(s, k)
  {
  }

  /** One that failed gives up what waits. After a conflict the revision is read before anything else is saved; otherwise a
      save may start at once. */
  lemma PutFailsExactly(s: State, k: nat, current: bool, conflict: bool)
    requires k in s.tasks && s.tasks[k].Putting?
    ensures
      var t := Step(s, Fails(k, current, conflict));
      if s.tasks[k].epoch != s.epoch then t == Without(s, k)
      else if conflict then t == Without(s, k).(pending := None, tasks := (s.tasks - {k})[s.next := Rereading(s.epoch)], next := s.next + 1)
      else t == Without(s, k).(pending := None, busy := false)
  {
  }

  lemma RereadExactly(s: State, k: nat, latest: Option<nat>)
    requires k in s.tasks && s.tasks[k].Rereading?
    ensures Step(s, Reread(k, latest)) ==
      if s.tasks[k].epoch != s.epoch then Without(s, k)
      else Without(s, k).(revision := match latest { case None => s.revision case Some(n) => n }, busy := false, timer := s.timer || s.pending.Some?)
  {
  }

  /** What was opened is navigated to exactly if nothing was navigated, opened, invalidated or signed in since, and it may be. */
  lemma OpenedExactly(s: State, k: nat, canActivate: bool, value: Nav)
    requires k in s.tasks && s.tasks[k].Opening?
    ensures
      var x := s.tasks[k];
      Step(s, Opened(k, canActivate, value)) ==
        if x == Opening(s.epoch, s.intent, s.registration, s.auth) && canActivate then Step(Without(s, k), Navigates(value)) else Without(s, k)
    ensures Step(s, Fails(k, canActivate, canActivate)) == Without(s, k)
  {
  }

  /** A save that starts after a response of the same epoch rests on what that response said: the newest revision of the
      bookmark that this session knows. */
  lemma SavesAgainstNewest(s: State, k: nat, revision: nat, value: Nav)
    requires k in s.tasks && s.tasks[k].Putting? && s.tasks[k].epoch == s.epoch && s.ready
    ensures
      var t := Step(Step(Step(s, Put(k, revision)), Navigates(value)), Fires);
      s.next in t.tasks && t.tasks[s.next] == Putting(|s.navigations|, s.epoch, revision)
  {
  }
}
