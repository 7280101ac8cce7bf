/**
 Configurations that outlive their plugin instance. Nothing that ends an instance stops a configuration that is
 suspended in it: unless the host aborts it, it goes on, beside the new instance, over the same storage and the
 same native session. Exactly which of its steps, and of the new instance's, take away what `ExecutionBinding`
 proves of one instance.
 */
module ExecutionSurvivors {
  import opened Wrappers
  import opened ExecutionBinding

  /** A configuration of an earlier instance. `touched`: somebody else changed the session since it was read back
      for it. */
  datatype Survivor = Survivor(call: Call, touched: bool)

  datatype World = World(s: State, past: map<nat, Survivor>, next: nat)

  datatype Act =
    | Now(e: Event)                 // of the running instance, or somebody else's; no reload
    | Reloads                       // the plugin is loaded again, and what is suspended in it goes on
    | Dies(applied: bool)           // the process ends, and everything in it
    | Lands(k: nat, legacy: bool)   // what an old configuration awaits resolves
    | Breaks(k: nat, applied: bool) // it rejects, or the call was aborted

  /** The world as an old configuration finds it: its instance's own maps were cleared. */
  function Beside(w: World, k: nat): State
    requires k in w.past
  {
    State(w.s.durable, None, 0, None, Some(w.past[k].call), w.s.native, w.past[k].touched, [], map[], map[], 0)
  }

  /** What it makes of the shared world, and of itself. A ready binding that it stores rests on its own read-back. */
  function After(w: World, k: nat, applied: bool, u: State): World
    requires k in w.past
  {
    var v := w.past[k];
    w.(s := w.s.(durable := u.durable, native := u.native,
                 touched := if applied && v.call.at.SavingReady? then v.touched else w.s.touched),
       past := if u.call.Some? then w.past[k := Survivor(u.call.value, u.touched)] else w.past - {k})
  }

  function Next(w: World, a: Act): World {
    match a
    case Now(e) =>
      w.(s := Step(w.s, e),
         past := if e.Others? then map k | k in w.past :: w.past[k].(touched := true) else w.past)
    case Reloads =>
      World(Setup(w.s), if w.s.call.Some? then w.past[w.next := Survivor(w.s.call.value, w.s.touched)] else w.past, w.next + 1)
    case Dies(applied) => World(Setup(if applied then Effect(w.s) else w.s), map[], w.next)
    case Lands(k, legacy) =>
      if k !in w.past then w else After(w, k, true, Resume(Effect(Beside(w, k)), legacy))
    case Breaks(k, applied) =>
      if k !in w.past then w
      else
        After(w, k, applied, Caught(if applied then Effect(Beside(w, k)) else Beside(w, k)))
  }

  /** A reload finds what is stored, and leaves what was suspended behind under a name of its own; the end of the process leaves
      nothing behind, whether or not the last await had its effect. */
  lemma ReloadsExactly(w: World, applied: bool)
    ensures
      var x := Next(w, Reloads);
      && x.s.durable == w.s.durable && x.s.native == w.s.native && x.s.memory == w.s.durable && x.s.call == None
      && x.past == (if w.s.call == None then w.past else w.past[w.next := Survivor(w.s.call.value, w.s.touched)])
      && x.next > w.next
    ensures
      var x := Next(w, Dies(applied));
      && x.s == Step(w.s, Crashes(applied)) && x.past == map[] && x.next >= w.next
  {
  }

  predicate Legal(a: Act) {
    a.Now? ==> !a.e.Crashes?
  }

  function Run(w: World, acts: seq<Act>): World
    decreases |acts|
  {
    if acts == [] then w else Run(Next(w, acts[0]), acts[1..])
  }

  // ----- What is kept

  /** It is about to store a ready binding, over a session that was read back for it. */
  predicate Verified(v: Survivor) {
    v.call.at.SavingReady? && !v.touched
  }

  /** The invariant of one instance, and of every old configuration what it verified. */
  ghost predicate Sound(w: World) {
    BindingOk(w.s) && forall k :: k in w.past && Verified(w.past[k]) ==> Matches(w.s.native, w.past[k].call.input)
  }

  /** The session would no longer be as it was read back: for the stored ready binding, for the running configuration
      that is about to store one, or for an old one other than `k`. */
  ghost predicate Unsettles(w: World, n: Session, k: Option<nat>) {
    || (k.Some? && w.s.durable.Some? && w.s.durable.value.ready && !w.s.touched && !Matches(n, w.s.durable.value.config))
    || (k.Some? && w.s.call.Some? && w.s.call.value.at.SavingReady? && !w.s.touched && !Matches(n, w.s.call.value.input))
    || (exists j :: j in w.past && Some(j) != k && Verified(w.past[j]) && !Matches(n, w.past[j].call.input))
  }

  /** The effect of what an old configuration awaits: its intent over a ready binding or over the intent of the
      running configuration, its selection over one that is relied on, or its ready binding over another one or over
      the intent of the running configuration. */
  ghost predicate Overwrites(w: World, k: nat)
    requires k in w.past
  {
    var c := w.past[k].call.input;
    var running := w.s.call.Some? && Intended(w.s.call.value.at);
    var bound := w.s.memory.Some? && w.s.memory.value.ready;
    match w.past[k].call.at
    case SavingPending => bound || (running && w.s.call.value.input != c)
    case Recovering => bound || (running && w.s.call.value.input != c)
    case SwitchingAgent => Unsettles(w, w.s.native.(agent := c.agent), Some(k))
    case SwitchingModel => Unsettles(w, w.s.native.(model := c.model), Some(k))
    case SavingReady => (bound && w.s.memory.value.config != c) || running
    case _ => false
  }

  /** Exactly the acts that take something away: the running configuration switches the session from what an old one
      read back, or an old one's effect overwrites. */
  ghost predicate Disturbs(w: World, a: Act) {
    match a
    case Now(e) => !e.Others? && Unsettles(w, Step(w.s, e).native, None)
    case Lands(k, _) => k in w.past && Overwrites(w, k)
    case Breaks(k, applied) => applied && k in w.past && Overwrites(w, k)
    case _ => false
  }

  lemma NowSound(w: World, e: Event)
    requires Sound(w) && !e.Crashes?
    ensures Sound(Next(w, Now(e))) <==> !Disturbs(w, Now(e))
  {
    hide Step, Matches, BindingOk;
    StepOk(w.s, e);
    var x := Next(w, Now(e));
    if e.Others? {
    } else if Unsettles(w, Step(w.s, e).native, None) {
      var j :| j in w.past && Verified(w.past[j]) && !Matches(x.s.native, w.past[j].call.input);
      assert j in x.past;
    }
  }

  lemma ReloadSound(w: World, a: Act)
    requires Sound(w) && (a.Reloads? || a.Dies?)
    ensures Sound(Next(w, a))
  {
    hide Matches, Effect;
    CrashesOk(w.s, a.Dies? && a.applied);
  }

  /** The stored effect of an old configuration, apart from what becomes of the configuration. */
  ghost predicate StoredSound(w: World, k: nat, x: World) {
    BindingOk(x.s) && forall j :: j in w.past && j != k && Verified(w.past[j]) ==> Matches(x.s.native, w.past[j].call.input)
  }

  lemma EffectSound(w: World, k: nat)
    requires Sound(w) && k in w.past
    ensures StoredSound(w, k, After(w, k, true, Effect(Beside(w, k)))) <==> !Overwrites(w, k)
  {
    hide Matches;
  }

  /** What becomes of an old configuration: one that is about to store a ready binding has just read the session back. */
  lemma Becomes(w: World, k: nat, legacy: bool)
    requires k in w.past
    ensures
      var t := Effect(Beside(w, k));
      var (u, v) := (Resume(t, legacy), Caught(t));
      && u.durable == v.durable == t.durable && u.native == v.native == t.native
      && (u.call.Some? && u.call.value.at.SavingReady? && !u.touched ==> Matches(u.native, u.call.value.input))
      && (v.call.Some? ==> !v.call.value.at.SavingReady?)
  {
    hide Matches;
  }

  lemma LandsSound(w: World, k: nat, legacy: bool)
    requires Sound(w) && k in w.past
    ensures Sound(Next(w, Lands(k, legacy))) <==> !Overwrites(w, k)
    ensures Sound(Next(w, Breaks(k, true))) <==> !Overwrites(w, k)
  {
    hide Matches, Effect, Resume, Caught, BindingOk, Overwrites;
    EffectSound(w, k);
    Becomes(w, k, legacy);
    OthersStay(w, k, Resume(Effect(Beside(w, k)), legacy));
    OthersStay(w, k, Caught(Effect(Beside(w, k))));
  }

  lemma OthersStay(w: World, k: nat, u: State)
    requires k in w.past
    requires u.call.Some? && u.call.value.at.SavingReady? && !u.touched ==> Matches(u.native, u.call.value.input)
    ensures Sound(After(w, k, true, u)) <==> StoredSound(w, k, After(w, k, true, u))
  {
    hide Matches, BindingOk;
    var x := After(w, k, true, u);
    if Sound(x) {
      forall j | j in w.past && j != k && Verified(w.past[j]) ensures Matches(x.s.native, w.past[j].call.input) {
        assert j in x.past && x.past[j] == w.past[j];
      }
    }
  }

  lemma BreaksSound(w: World, k: nat)
    requires Sound(w) && k in w.past
    ensures Sound(Next(w, Breaks(k, false)))
  {
    hide Matches, BindingOk;
    var x := Next(w, Breaks(k, false));
    assert x.s == w.s;
    forall j | j in x.past && Verified(x.past[j]) ensures Matches(x.s.native, x.past[j].call.input) {
      assert j in w.past && x.past[j] == w.past[j];
    }
  }

  /** One act at a time: the invariant of the running instance, and with it what every old configuration verified, is
      lost by exactly the acts that disturb. */
  lemma SoundIff(w: World, a: Act)
    requires Sound(w) && Legal(a)
    ensures Sound(Next(w, a)) <==> !Disturbs(w, a)
  {
    hide Sound, Next, Overwrites, Unsettles;
    match a
    case Now(e) => NowSound(w, e);
    case Reloads => ReloadSound(w, a);
    case Dies(_) => ReloadSound(w, a);
    case Lands(k, legacy) => if k in w.past { LandsSound(w, k, legacy); } else { Idle(w, a); }
    case Breaks(k, applied) =>
      if k !in w.past { Idle(w, a); } else if applied { LandsSound(w, k, false); } else { BreaksSound(w, k); }
  }

  lemma Idle(w: World, a: Act)
    requires (a.Lands? || a.Breaks?) && a.k !in w.past
    ensures Next(w, a) == w
  {
  }

  ghost predicate Undisturbed(w: World, acts: seq<Act>)
    decreases |acts|
  {
    acts == [] || (Legal(acts[0]) && !Disturbs(w, acts[0]) && Undisturbed(Next(w, acts[0]), acts[1..]))
  }

  lemma {:induction false} RunSound(w: World, acts: seq<Act>)
    requires Sound(w) && Undisturbed(w, acts)
    ensures Sound(Run(w, acts))
    decreases |acts|
  {
    hide Sound, Next, Disturbs, Legal;
    if acts != [] {
      SoundIff(w, acts[0]);
      RunSound(Next(w, acts[0]), acts[1..]);
    }
  }

  /** Something that one instance promises does not hold: a stored ready binding means a session as it was read back,
      a ready binding in memory is the stored one, and the session is changed under the stored intent. */
  ghost predicate Wrong(s: State) {
    || (s.durable.Some? && s.durable.value.ready && !s.touched && !Matches(s.native, s.durable.value.config))
    || (s.memory.Some? && s.memory.value.ready && s.durable != s.memory)
    || (s.call.Some? && Intended(s.call.value.at) && s.durable != Some(Binding(false, s.call.value.input)))
  }

  /** Over every run with any number of reloads that configurations outlive, as long as none of its acts disturbs:
      nothing is wrong. */
  lemma ReadyUnlessDisturbed(w: World, acts: seq<Act>)
    requires Unbound(w.s) && w.past == map[] && Undisturbed(w, acts)
    ensures !Wrong(Run(w, acts).s)
  {
    hide Matches, Next, Undisturbed, Run;
    RunSound(w, acts);
  }

  /** A ready binding is stored by this act. */
  predicate Stores(w: World, a: Act) {
    || (a == Now(Succeeds(false)) && w.s.call.Some? && w.s.call.value.at.SavingReady?)
    || (a.Lands? && a.k in w.past && w.past[a.k].call.at.SavingReady?)
  }

  /** And an act that does disturb goes wrong: at once, or as soon as one ready binding is stored that is on its way. */
  lemma DisturbedGoesWrong(w: World, a: Act)
    requires Sound(w) && Legal(a) && Disturbs(w, a)
    ensures
      var x := Next(w, a);
      Wrong(x.s) || exists b :: Stores(x, b) && Wrong(Next(x, b).s)
  {
    hide Sound, Next, Disturbs;
    var x := Next(w, a);
    SoundIff(w, a);
    CallStays(w, a);
    if !Wrong(x.s) {
      if x.s.call.Some? && x.s.call.value.at.SavingReady? && !x.s.touched && !Matches(x.s.native, x.s.call.value.input) {
        StoresNow(x);
      } else {
        var j := Mismatched(x);
        StoresThen(x, j);
      }
    }
  }

  lemma CallStays(w: World, a: Act)
    requires Sound(w) && Legal(a)
    ensures CallOk(Next(w, a).s)
  {
    hide Matches, Step, Effect, Resume, Caught;
    match a
    case Now(e) => StepOk(w.s, e);
    case Reloads => CrashesOk(w.s, false);
    case Dies(applied) => CrashesOk(w.s, applied);
    case _ =>
  }

  lemma Mismatched(x: World) returns (j: nat)
    requires !Sound(x) && CallOk(x.s) && !Wrong(x.s)
    requires x.s.call.Some? && x.s.call.value.at.SavingReady? && !x.s.touched ==> Matches(x.s.native, x.s.call.value.input)
    ensures j in x.past && Verified(x.past[j]) && !Matches(x.s.native, x.past[j].call.input)
  {
    hide Matches;
    j :| j in x.past && Verified(x.past[j]) && !Matches(x.s.native, x.past[j].call.input);
  }

  lemma StoresNow(x: World)
    requires x.s.call.Some? && x.s.call.value.at.SavingReady? && !x.s.touched && !Matches(x.s.native, x.s.call.value.input)
    ensures Stores(x, Now(Succeeds(false))) && Wrong(Next(x, Now(Succeeds(false))).s)
  {
    hide Matches;
  }

  lemma StoresThen(x: World, j: nat)
    requires j in x.past && Verified(x.past[j]) && !Matches(x.s.native, x.past[j].call.input)
    ensures Stores(x, Lands(j, false)) && Wrong(Next(x, Lands(j, false)).s)
  {
    hide Matches;
  }

  // ----- A concrete run

  function Nows(events: seq<Event>): seq<Act> {
    seq(|events|, i requires 0 <= i < |events| => Now(events[i]))
  }

  lemma {:induction false} NowRun(w: World, events: seq<Event>)
    requires forall e :: e in events ==> !e.Others?
    ensures Run(w, Nows(events)) == w.(s := ExecutionBinding.Run(w.s, events))
    decreases |events|
  {
    hide Step;
    if events != [] {
      assert Nows(events)[1..] == Nows(events[1..]);
      NowRun(Next(w, Now(events[0])), events[1..]);
    }
  }

  lemma {:induction false} RunMore(w: World, acts: seq<Act>, more: seq<Act>)
    ensures Run(w, acts + more) == Run(Run(w, acts), more)
    decreases |acts|
  {
    hide Next;
    if acts == [] {
      assert acts + more == more;
    } else {
      assert (acts + more)[1..] == acts[1..] + more;
      RunMore(Next(w, acts[0]), acts[1..], more);
    }
  }

  /** A configuration up to its last await. */
  function Configuring(c: Config): seq<Event> {
    [Begins(c), Succeeds(false), Succeeds(false), Succeeds(false), Succeeds(false), Succeeds(false), Succeeds(false)]
  }

  lemma Configures(s: State, c: Config)
    requires s.call.None? && c.agent.Execution? && c.model.None?
    ensures ExecutionBinding.Run(s, Configuring(c)) ==
      s.(durable := Some(Binding(false, c)), memory := Some(Binding(false, c)), version := s.version + 1, active := Some(c),
         call := Some(Call(SavingReady, c, s.active, true)), native := s.native.(agent := c.agent), touched := false)
  {
    hide ExecutionBinding.Run, Step;
    var e := Configuring(c);
    Halves(s, e, 4);
    Four(s, e[..4]);
    Intends(s, c);
    Rest(Intending(s, c), c);
    assert e[4..] == [Succeeds(false), Succeeds(false), Succeeds(false)];
  }

  /** The intent is stored, and the definitions are about to be verified. */
  function Intending(s: State, c: Config): State {
    s.(durable := Some(Binding(false, c)), memory := Some(Binding(false, c)), version := s.version + 1, active := Some(c),
       call := Some(Call(VerifyingDefinitions, c, s.active, true)))
  }

  lemma Intends(s: State, c: Config)
    requires s.call.None? && c.agent.Execution?
    ensures Step(Step(Step(Step(s, Begins(c)), Succeeds(false)), Succeeds(false)), Succeeds(false)) == Intending(s, c)
  {
    hide Matches;
    var s1 := Step(s, Begins(c));
    var s2 := Step(s1, Succeeds(false));
    assert s2 == s.(memory := Some(Binding(false, c)), version := s.version + 1, call := Some(Call(SavingPending, c, s.active, true)));
    var s3 := Step(s2, Succeeds(false));
    assert s3 == Intending(s, c).(call := Some(Call(Reloading, c, s.active, true)));
  }

  lemma Rest(t: State, c: Config)
    requires t.call.Some? && t.call.value.at.VerifyingDefinitions? && t.call.value.input == c && c.model.None?
    ensures ExecutionBinding.Run(t, [Succeeds(false), Succeeds(false), Succeeds(false)]) ==
      t.(call := Some(t.call.value.(at := SavingReady)), native := t.native.(agent := c.agent), touched := false)
  {
    var e := [Succeeds(false), Succeeds(false), Succeeds(false)];
    var t1 := Step(t, e[0]);
    assert t1 == t.(call := Some(t.call.value.(at := SwitchingAgent)));
    var t2 := Step(t1, e[0]);
    assert t2 == t.(call := Some(t.call.value.(at := VerifyingSelection)), native := t.native.(agent := c.agent));
    var t3 := Step(t2, e[0]);
    assert e[1..][1..] == [Succeeds(false)] && e[1..][1..][1..] == [];
    assert ExecutionBinding.Run(t, e) == ExecutionBinding.Run(t1, e[1..]) == ExecutionBinding.Run(t2, e[1..][1..]) == ExecutionBinding.Run(t3, []);
  }

  /** A configuration is about to store its ready binding when the plugin is loaded again. The session is then
      configured anew; and after that the old configuration goes on. */
  function Outlived(): seq<Act> {
    Nows(Configuring(FIRST)) + [Reloads] + Nows(Configuring(SECOND)) + [Now(Succeeds(false)), Lands(0, false)]
  }

  /** The instance counts the session as bound to the second configuration, which it is selected for; what is stored,
      as ready, is the first. */
  lemma OldCallOverwrites()
    ensures
      var s := Run(World(START, map[], 0), Outlived()).s;
      && Ready(s, SECOND) && Matches(s.native, SECOND) && s.durable == Some(Binding(true, FIRST)) && !s.touched
      && !Matches(s.native, FIRST)
  {
    hide Step, Run, Next;
    var w := World(START, map[], 0);
    var w1 := Run(w, Nows(Configuring(FIRST)));
    NowRun(w, Configuring(FIRST));
    Configures(START, FIRST);
    var w2 := Next(w1, Reloads);
    Reloaded(w1);
    var w3 := Run(w2, Nows(Configuring(SECOND)));
    NowRun(w2, Configuring(SECOND));
    Configures(w2.s, SECOND);
    Finishes(w3);
    RunMore(w, Nows(Configuring(FIRST)) + [Reloads] + Nows(Configuring(SECOND)), [Now(Succeeds(false)), Lands(0, false)]);
    RunMore(w, Nows(Configuring(FIRST)) + [Reloads], Nows(Configuring(SECOND)));
    RunMore(w, Nows(Configuring(FIRST)), [Reloads]);
    RunOne(w1, Reloads);
    RunTwo(w3, Now(Succeeds(false)), Lands(0, false));
  }

  lemma RunOne(w: World, a: Act)
    ensures Run(w, [a]) == Next(w, a)
  {
    hide Next;
    assert Run(w, [a]) == Run(Next(w, a), []);
  }

  lemma RunTwo(w: World, a: Act, b: Act)
    ensures Run(w, [a, b]) == Next(Next(w, a), b)
  {
    hide Next;
    assert [a, b][1..] == [b];
    RunOne(Next(w, a), b);
  }

  lemma Reloaded(w: World)
    requires w.s.call == Some(Call(SavingReady, FIRST, None, true)) && !w.s.touched && w.past == map[] && w.next == 0
    requires w.s.durable == Some(Binding(false, FIRST))
    ensures Next(w, Reloads).past == map[0 := Survivor(w.s.call.value, false)] && Next(w, Reloads).s.call.None?
  {
  }

  lemma Finishes(w: World)
    requires w.past == map[0 := Survivor(Call(SavingReady, FIRST, None, true), false)]
    requires w.s.call.Some? && w.s.call.value.at.SavingReady? && w.s.call.value.input == SECOND && w.s.native.agent == SECOND.agent
    requires !w.s.touched
    ensures
      var s := Next(Next(w, Now(Succeeds(false))), Lands(0, false)).s;
      && Ready(s, SECOND) && Matches(s.native, SECOND) && s.durable == Some(Binding(true, FIRST)) && !s.touched
      && !Matches(s.native, FIRST)
  {
    var x := Next(w, Now(Succeeds(false)));
    assert x.past == w.past && Ready(x.s, SECOND);
  }
}
