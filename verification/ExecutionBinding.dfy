/**
 Binding a native session to an execution: intent is durable before the session is touched, and the
 binding becomes ready only after the session was read back. A crash, an abort or a failure may fall on
 any await, whose effect may or may not have happened. Requests and read-only checks of the same session
 go on in between.
 */
module ExecutionBinding {
  import opened Wrappers

  datatype Model = Model(providerId: nat, modelId: nat, variant: Option<nat>)

  const DEFAULT_VARIANT := 0

  /** An omitted variant is the default one; nothing else is normalised. */
  predicate ModelMatches(actual: Option<Model>, expected: Option<Model>) {
    if actual.None? || expected.None? then actual == expected
    else
      && actual.value.providerId == expected.value.providerId && actual.value.modelId == expected.value.modelId
      && (if actual.value.variant.Some? then actual.value.variant.value else DEFAULT_VARIANT)
         == (if expected.value.variant.Some? then expected.value.variant.value else DEFAULT_VARIANT)
  }

  /** An agent of the user's own, or one with a generated name: an execution or a private child of one. */
  datatype Agent = Ordinary(name: nat) | Execution(hash: nat) | Private(hash: nat)

  datatype Config = Config(agent: Agent, model: Option<Model>, policy: nat)
  datatype Binding = Binding(ready: bool, config: Config)
  datatype Session = Session(agent: Agent, model: Option<Model>)

  /** The native session is selected as configured. */
  predicate Matches(n: Session, c: Config) {
    n.agent == c.agent && (c.model.Some? ==> ModelMatches(n.model, c.model))
  }

  /** What a running configuration awaits. */
  datatype Await = Getting | SavingPending | Reloading | VerifyingDefinitions | Recovering
                 | SwitchingAgent | SwitchingModel | VerifyingSelection | SavingReady | Failing

  /** The one configuration that runs, with the agents that were active before it. `published` says that its
      intent is the current binding. */
  datatype Call = Call(at: Await, input: Config, prior: Option<Config>, published: bool)

  /** How a configuration ended. */
  datatype Ended = Done(config: Config) | GaveUp(config: Config) | GaveUpEarly

  /** A request that the context hook let in under a binding, and a read-only configuration. `version` is the
      binding object that the latter found. */
  datatype Request = Request(config: Config, verified: bool)
  datatype Check = Check(config: Config, version: nat, verified: bool)

  /** `touched`: somebody else changed the session since the last read-back. `version` counts the binding
      objects that this instance made current, and `ended` its configurations. */
  datatype State = State(durable: Option<Binding>, memory: Option<Binding>, version: nat, active: Option<Config>,
                         call: Option<Call>, native: Session, touched: bool, ended: seq<Ended>,
                         requests: map<nat, Request>, checks: map<nat, Check>, next: nat)

  datatype Event =
    | Begins(c: Config)
    | Succeeds(legacy: bool)      // the await resolves; legacy policy may need recovery first
    | Fails(applied: bool)        // it rejects, or the call was aborted; its effect may have happened
    | Crashes(applied: bool)      // the process dies, or the plugin is loaded again and what runs in it is aborted
    | Others(n: Session)          // somebody else selects another agent or model
    | Asks(agent: Agent)          // a native request reaches the context hook
    | ReadsBack(k: nat)           // its session read-back
    | Passes(k: nat)              // its definition read-back, and the request goes on
    | AsksReadOnly(c: Config)     // a configuration that only checks
    | ChecksBack(k: nat)          // its session read-back
    | Answers(k: nat)             // its definition read-back, and its receipt

  /** What the awaited operation does to the world. */
  function Effect(s: State): (t: State)
    ensures t == s.(durable := t.durable, native := t.native)
  {
    if s.call.None? then s
    else
      var c := s.call.value.input;
      match s.call.value.at
      case SavingPending => s.(durable := Some(Binding(false, c)))
      case Recovering => s.(durable := Some(Binding(false, c)))
      case SwitchingAgent => s.(native := s.native.(agent := c.agent))
      case SwitchingModel => s.(native := s.native.(model := c.model))
      case SavingReady => s.(durable := Some(Binding(true, c)))
      case _ => s
  }

  function At(s: State, at: Await): State
    requires s.call.Some?
  {
    s.(call := Some(s.call.value.(at := at)))
  }

  /** The end of a configuration. */
  function End(s: State): (t: State)
    requires s.call.Some?
    ensures t == s.(call := None, ended := t.ended)
  {
    var k := s.call.value;
    s.(call := None, ended := s.ended + [if k.at.SavingReady? then Done(k.input) else if k.published then GaveUp(k.input) else GaveUpEarly])
  }

  /** The code after the await. */
  function Resume(s: State, legacy: bool): (t: State)
    requires s.call.Some?
    ensures t == s.(memory := t.memory, version := t.version, active := t.active, call := t.call, touched := t.touched, ended := t.ended)
    ensures t.version == s.version + 1 || (t.version == s.version && t.memory == s.memory)
    ensures t.memory == s.memory || (t.memory.Some? && t.memory.value.config == s.call.value.input)
    ensures t.call.Some? ==> t.call.value.input == s.call.value.input
  {
    var k := s.call.value;
    match k.at
    case Getting =>
      s.(memory := Some(Binding(false, k.input)), version := s.version + 1, call := Some(k.(at := SavingPending, published := true)))
    case SavingPending => At(s.(active := Some(k.input)), Reloading)
    case Reloading => At(s, VerifyingDefinitions)
    case VerifyingDefinitions => At(s, if legacy then Recovering else SwitchingAgent)
    case Recovering => At(s, SwitchingAgent)
    case SwitchingAgent => At(s, if k.input.model.Some? then SwitchingModel else VerifyingSelection)
    case SwitchingModel => At(s, VerifyingSelection)
    case VerifyingSelection => if Matches(s.native, k.input) then At(s.(touched := false), SavingReady) else Abandon(s)
    case SavingReady => End(s.(memory := Some(Binding(true, k.input)), version := s.version + 1))
    case Failing => End(s)
  }

  /** The catch block: the active definitions go back, and are loaded again. */
  function Abandon(s: State): (t: State)
    requires s.call.Some?
    ensures t == s.(active := t.active, call := t.call) && t.call == Some(s.call.value.(at := Failing))
  {
    At(s.(active := s.call.value.prior), Failing)
  }

  /** A new plugin instance: memory is what is durable. */
  function Setup(s: State): State {
    s.(memory := s.durable, version := s.version + 1, call := None, requests := map[], checks := map[], ended := [],
       active := if s.durable.Some? && s.durable.value.ready then Some(s.durable.value.config) else None)
  }

  /** The session is bound to exactly this configuration now, and nothing is configuring it. */
  predicate Ready(s: State, c: Config) {
    s.memory == Some(Binding(true, c)) && s.call.None?
  }

  /** What the execution answers to the rest of the plugin. */
  function Selected(s: State): Option<Agent> {
    if s.memory.Some? && s.memory.value.ready && s.call.None? then Some(s.memory.value.config.agent) else None
  }

  /** The prompt hook, which comes first. It does nothing while no session at all is bound: `others` says that
      another one is. */
  predicate Prompts(s: State, others: bool) {
    (s.memory.None? && !others) || (!(s.memory.Some? && !s.memory.value.ready) && s.call.None?)
  }

  datatype Arrival = GoesOn | Admitted(config: Config) | AsChild | TurnedAway

  /** The first check of the context hook. It looks at readiness only if the session is bound. Without a
      binding an ordinary agent's request is none of its business, and a generated agent's goes the way of
      native children. */
  function Arrive(s: State, agent: Agent): Arrival {
    if s.memory.Some? then
      if !s.memory.value.ready || s.call.Some? then TurnedAway
      else if agent != s.memory.value.config.agent then TurnedAway
      else Admitted(s.memory.value.config)
    else if agent.Ordinary? then GoesOn else AsChild
  }

  /** The request goes on under this session's binding, or under none. */
  predicate LetsIn(s: State, agent: Agent) {
    Arrive(s, agent).GoesOn? || Arrive(s, agent).Admitted?
  }

  /** What a rejected await leads to. */
  function Caught(s: State): (t: State)
    requires s.call.Some?
    ensures t == s.(active := t.active, call := t.call, ended := t.ended)
  {
    if s.call.value.at.Failing? then End(s) else Abandon(s)
  }

  /** Requests and checks, which change nothing of the binding. */
  function Served(s: State, e: Event): (t: State)
    ensures t == s.(requests := t.requests, checks := t.checks, next := t.next)
  {
    match e
    case Asks(agent) =>
      if Arrive(s, agent).Admitted?
      then s.(requests := s.requests[s.next := Request(Arrive(s, agent).config, false)], next := s.next + 1) else s
    case ReadsBack(k) =>
      if k !in s.requests then s
      else if Matches(s.native, s.requests[k].config) then s.(requests := s.requests[k := s.requests[k].(verified := true)])
      else s.(requests := s.requests - {k})
    case Passes(k) => if k in s.requests && s.requests[k].verified then s.(requests := s.requests - {k}) else s
    case AsksReadOnly(c) =>
      if Ready(s, c) then s.(checks := s.checks[s.next := Check(c, s.version, false)], next := s.next + 1) else s
    case ChecksBack(k) =>
      if k !in s.checks then s
      else if Matches(s.native, s.checks[k].config) then s.(checks := s.checks[k := s.checks[k].(verified := true)])
      else s.(checks := s.checks - {k})
    case Answers(k) => s.(checks := s.checks - {k})
    case _ => s
  }

  function Step(s: State, e: Event): State {
    match e
    case Begins(c) => if s.call.Some? || !c.agent.Execution? then s else s.(call := Some(Call(Getting, c, s.active, false)))
    case Succeeds(legacy) => if s.call.None? then s else Resume(Effect(s), legacy)
    case Fails(applied) => if s.call.None? then s else Caught(if applied then Effect(s) else s)
    case Crashes(applied) => Setup(if applied then Effect(s) else s)
    case Others(n) => s.(native := n, touched := true)
    case _ => Served(s, e)
  }

  function Run(s: State, events: seq<Event>): State
    decreases |events|
  {
    if events == [] then s else Run(Step(s, events[0]), events[1..])
  }

  /** A request goes to the model in this step: at once if the session is not bound, else when its read-backs
      are done. */
  predicate Dispatched(s: State, e: Event) {
    || (e.Asks? && Arrive(s, e.agent).GoesOn?)
    || (e.Passes? && e.k in s.requests && s.requests[e.k].verified)
  }

  /** A read-only configuration answers with a receipt: it looks again, at the very binding object. */
  predicate Receipt(s: State, e: Event) {
    && e.Answers? && e.k in s.checks && s.checks[e.k].verified
    && s.call.None? && s.version == s.checks[e.k].version
  }

  // ----- What every step keeps

  /** Intent is durable, and the call has not given up. */
  predicate Intended(at: Await) {
    !at.Getting? && !at.SavingPending? && !at.Failing?
  }

  /** The intent of a running configuration is the current binding once it is past its first await. */
  predicate CallOk(s: State) {
    s.call.Some? ==>
      && var k := s.call.value;
      && (k.published ==> s.memory == Some(Binding(false, k.input)))
      && (!k.at.Getting? && !k.at.Failing? ==> k.published)
      && (k.at.Getting? ==> !k.published)
  }

  ghost predicate BindingOk(s: State) {
    && (s.durable.Some? && s.durable.value.ready && !s.touched ==> Matches(s.native, s.durable.value.config))
    && (s.memory.Some? && s.memory.value.ready ==> s.durable == s.memory)
    && CallOk(s)
    && (s.call.Some? ==>
          && var k := s.call.value;
          && (Intended(k.at) ==> s.durable == Some(Binding(false, k.input)))
          && (k.at.SavingReady? && !s.touched ==> Matches(s.native, k.input)))
  }

  /** A check that found the binding object that is current now found it ready. */
  predicate CheckOk(s: State, c: Check) {
    c.version <= s.version && (c.version == s.version ==> s.memory == Some(Binding(true, c.config)))
  }

  ghost predicate Inv(s: State) {
    BindingOk(s) && (forall k :: k in s.checks ==> CheckOk(s, s.checks[k]))
  }

  lemma SucceedsOk(s: State, legacy: bool)
    requires BindingOk(s) && s.call.Some?
    ensures BindingOk(Resume(Effect(s), legacy))
  {
    hide Matches, ModelMatches, Abandon, End;
  }

  lemma FailsOk(s: State, applied: bool)
    requires BindingOk(s) && s.call.Some?
    ensures BindingOk(Caught(if applied then Effect(s) else s))
  {
    hide Matches, ModelMatches;
  }

  lemma CrashesOk(s: State, applied: bool)
    requires BindingOk(s)
    ensures BindingOk(Setup(if applied then Effect(s) else s))
  {
    hide Matches, ModelMatches;
  }

  lemma StepOk(s: State, e: Event)
    requires BindingOk(s)
    ensures BindingOk(Step(s, e))
  {
    hide Matches, Resume, Effect, Caught, Served, Setup;
    match e
    case Succeeds(legacy) => if s.call.Some? { SucceedsOk(s, legacy); }
    case Fails(applied) => if s.call.Some? { FailsOk(s, applied); }
    case Crashes(applied) => CrashesOk(s, applied);
    case _ =>
  }

  /** Another binding object is another version. */
  lemma VersionGrows(s: State, e: Event)
    ensures s.version <= Step(s, e).version
    ensures Step(s, e).version == s.version ==> Step(s, e).memory == s.memory
  {
    hide Matches, Resume, Effect, Caught, Served;
  }

  lemma StepInv(s: State, e: Event)
    requires Inv(s)
    ensures Inv(Step(s, e))
  {
    hide Step, BindingOk;
    StepOk(s, e);
    VersionGrows(s, e);
    var t := Step(s, e);
    forall k | k in t.checks
      ensures CheckOk(t, t.checks[k])
    {
      ChecksFrom(s, e, k);
    }
  }

  lemma ChecksFrom(s: State, e: Event, k: nat)
    requires k in Step(s, e).checks
    ensures
      var c := Step(s, e).checks[k];
      || (k in s.checks && s.checks[k].config == c.config && s.checks[k].version == c.version)
      || (c.version == s.version && s.memory == Some(Binding(true, c.config)))
  {
    hide Matches, Resume, Effect, Caught, Served;
    if k in Served(s, e).checks { ServedChecks(s, e, k); }
  }

  lemma ServedChecks(s: State, e: Event, k: nat)
    requires k in Served(s, e).checks
    ensures
      var c := Served(s, e).checks[k];
      || (k in s.checks && s.checks[k].config == c.config && s.checks[k].version == c.version)
      || (c.version == s.version && s.memory == Some(Binding(true, c.config)))
  {
    hide Matches;
  }

  lemma {:induction false} RunInv(s: State, events: seq<Event>)
    requires Inv(s)
    ensures Inv(Run(s, events)) && s.version <= Run(s, events).version
    decreases |events|
  {
    hide Inv, Step;
    if events != [] {
      StepInv(s, events[0]);
      VersionGrows(s, events[0]);
      RunInv(Step(s, events[0]), events[1..]);
    }
  }

  /** Nothing was ever configured. */
  predicate Unbound(s: State) {
    s.durable.None? && s.memory.None? && s.call.None? && s.requests == map[] && s.checks == map[]
  }

  /** After any run of configurations, failures, crashes and reloads: a durable ready binding means that
      the session has the agent and model that were read back for it, unless somebody else changed them
      since; and a ready binding in memory is the durable one. */
  lemma ReadyMeansVerified(s: State, events: seq<Event>)
    requires Unbound(s)
    ensures
      var t := Run(s, events);
      && (t.durable.Some? && t.durable.value.ready && !t.touched ==> Matches(t.native, t.durable.value.config))
      && (t.memory.Some? && t.memory.value.ready ==> t.durable == t.memory)
  {
    hide Matches, Step, Intended;
    assert Inv(s);
    RunInv(s, events);
  }

  /** The plugin only ever changes the session while its intent is durable, and never while a ready binding
      is. */
  lemma ChangesUnderIntent(s: State, e: Event)
    requires Inv(s) && !e.Others? && Step(s, e).native != s.native
    ensures s.call.Some? && s.durable == Some(Binding(false, s.call.value.input)) && s.memory == s.durable
    ensures Step(s, e).durable == s.durable
  {
    hide Matches, ModelMatches, Resume, Caught, Served;
  }

  // ----- Who gets in

  /** Exactly who is let in: with a binding, its own agent while it is ready and nothing is configuring; without
      one, every ordinary agent. */
  lemma LetInIff(s: State, agent: Agent)
    ensures LetsIn(s, agent) <==>
      || (s.memory.None? && agent.Ordinary?)
      || (exists c :: Ready(s, c) && agent == c.agent)
  {
    if s.memory.Some? && s.memory.value.ready && s.call.None? { assert Ready(s, s.memory.value.config); }
  }

  /** Of a bound session nothing passes while it is pending or being configured: no selection is answered, no
      prompt admitted and no request let in. */
  lemma NothingPassesWhilePending(s: State, agent: Agent, others: bool)
    requires s.memory.Some? && (s.call.Some? || !s.memory.value.ready)
    ensures Selected(s).None? && !Prompts(s, others) && !LetsIn(s, agent) && Step(s, Asks(agent)) == s
  {
  }

  /** How the configurations of a session ended, as its binding shows: one that failed in its first await
      changed nothing. */
  function BindingAfter(b: Option<Binding>, ended: seq<Ended>): Option<Binding> {
    if ended == [] then b
    else
      match ended[|ended| - 1]
      case Done(c) => Some(Binding(true, c))
      case GaveUp(c) => Some(Binding(false, c))
      case GaveUpEarly => BindingAfter(b, ended[..|ended| - 1])
  }

  /** An unfinished configuration whose intent is the current binding. */
  predicate Underway(s: State) {
    s.call.Some? && s.call.value.published
  }

  /** The current binding is what the configurations that ended since made it, but for one that is underway. */
  ghost predicate Tracks(s: State, t: State) {
    && BindingOk(t) && s.ended <= t.ended
    && (Underway(t) || t.memory == BindingAfter(s.memory, t.ended[|s.ended|..]))
  }

  lemma OneMore(ended: seq<Ended>, x: Ended, n: nat)
    requires n <= |ended|
    ensures (ended + [x])[n..] == ended[n..] + [x]
    ensures (ended[n..] + [x])[..|ended[n..]|] == ended[n..]
  {
  }

  lemma TracksStep(s: State, t: State, e: Event)
    requires Tracks(s, t) && !e.Crashes?
    ensures Tracks(s, Step(t, e))
  {
    hide Matches, ModelMatches, BindingOk;
    StepOk(t, e);
    EndedStep(t, e);
    var u := Step(t, e);
    if u.ended != t.ended { OneMore(t.ended, u.ended[|t.ended|], |s.ended|); }
  }

  /** A configuration goes on, or ends with the binding that its end says. */
  predicate EndsAs(t: State, u: State) {
    if u.ended == t.ended then
      !Underway(u) ==> !Underway(t) && u.memory == t.memory
    else
      && |u.ended| == |t.ended| + 1 && u.ended == t.ended + [u.ended[|t.ended|]] && u.call.None?
      && (match u.ended[|t.ended|]
          case Done(c) => u.memory == Some(Binding(true, c))
          case GaveUp(c) => u.memory == Some(Binding(false, c))
          case GaveUpEarly => !Underway(t) && u.memory == t.memory)
  }

  lemma EndedStep(t: State, e: Event)
    requires BindingOk(t) && !e.Crashes?
    ensures EndsAs(t, Step(t, e))
  {
    hide Matches, Resume, Effect, Caught, Served;
    match e
    case Succeeds(legacy) => if t.call.Some? { ResumeEnds(Effect(t), legacy); }
    case Fails(applied) => if t.call.Some? { CaughtEnds(if applied then Effect(t) else t); }
    case _ =>
  }

  /** What the code after an await makes of the binding and of the call. */
  lemma ResumeEnds(t: State, legacy: bool)
    requires t.call.Some? && CallOk(t)
    ensures EndsAs(t, Resume(t, legacy))
  {
    hide Matches, ModelMatches, Abandon, Effect;
  }

  lemma CaughtEnds(t: State)
    requires t.call.Some? && CallOk(t)
    ensures EndsAs(t, Caught(t))
  {
    hide Matches;
  }

  /** A new instance starts with nothing ended. */
  lemma CrashTracks(t: State, e: Event)
    requires BindingOk(t) && e.Crashes?
    ensures Tracks(Step(t, e), Step(t, e)) && Step(t, e).memory == Step(t, e).durable
  {
    hide Matches, ModelMatches, BindingOk, Effect;
    StepOk(t, e);
  }

  /** Where the plugin instance that is running after these events started: `start`, unless it was loaded again. */
  function LastStart(start: State, t: State, events: seq<Event>): State
    decreases |events|
  {
    if events == [] then start
    else
      var u := Step(t, events[0]);
      LastStart(if events[0].Crashes? then u else start, u, events[1..])
  }

  lemma {:induction false} RunTracks(start: State, t: State, events: seq<Event>)
    requires Tracks(start, t) && start.memory == start.durable
    ensures Tracks(LastStart(start, t, events), Run(t, events))
    ensures LastStart(start, t, events).memory == LastStart(start, t, events).durable
    decreases |events|
  {
    hide Tracks, Step;
    if events != [] {
      var u := Step(t, events[0]);
      if events[0].Crashes? {
        assert BindingOk(t) by { TracksOk(start, t); }
        CrashTracks(t, events[0]);
        RunTracks(u, u, events[1..]);
      } else {
        TracksStep(start, t, events[0]);
        RunTracks(start, u, events[1..]);
      }
    }
  }

  lemma TracksOk(s: State, t: State)
    requires Tracks(s, t)
    ensures BindingOk(t)
  {
    hide BindingOk;
  }

  predicate AllEarly(ended: seq<Ended>) {
    forall i :: 0 <= i < |ended| ==> ended[i].GaveUpEarly?
  }

  lemma {:induction false} UnboundAfter(ended: seq<Ended>)
    ensures BindingAfter(None, ended).None? <==> AllEarly(ended)
    decreases |ended|
  {
    if ended != [] {
      var front := ended[..|ended| - 1];
      UnboundAfter(front);
      assert ended == front + [ended[|ended| - 1]];
      assert AllEarly(ended) <==> AllEarly(front) && ended[|ended| - 1].GaveUpEarly?;
    }
  }

  lemma {:induction false} BoundAfter(b: Binding, ended: seq<Ended>)
    ensures BindingAfter(Some(b), ended).Some?
    decreases |ended|
  {
    if ended != [] { BoundAfter(b, ended[..|ended| - 1]); }
  }

  /** Over every run, reloads of the plugin included, from a session that nothing was ever configured for: an
      ordinary request is let in exactly as long as the running instance found no durable binding when it was
      loaded, and no configuration since then got past its first await, one that is running there included. */
  lemma OrdinaryLetInIff(s: State, events: seq<Event>, name: nat)
    requires Unbound(s)
    ensures
      var u := LastStart(s, s, events);
      var t := Run(s, events);
      && u.memory == u.durable && u.ended <= t.ended
      && (LetsIn(t, Ordinary(name)) <==> u.durable.None? && AllEarly(t.ended[|u.ended|..]) && !Underway(t))
  {
    hide Step, Matches, LastStart;
    assert s.ended[|s.ended|..] == [];
    assert Tracks(s, s);
    RunTracks(s, s, events);
    ExecutionsOnly(s, events);
    var u, t := LastStart(s, s, events), Run(s, events);
    if u.memory.None? { UnboundAfter(t.ended[|u.ended|..]); } else { BoundAfter(u.memory.value, t.ended[|u.ended|..]); }
  }

  predicate Executions(s: State) {
    (s.memory.Some? ==> s.memory.value.config.agent.Execution?) && (s.durable.Some? ==> s.durable.value.config.agent.Execution?)
    && (s.call.Some? ==> s.call.value.input.agent.Execution?)
  }

  lemma {:induction false} ExecutionsOnly(s: State, events: seq<Event>)
    requires Executions(s)
    ensures Executions(Run(s, events))
    decreases |events|
  {
    hide Step, Executions;
    if events != [] {
      assert Executions(Step(s, events[0])) by { ExecutionsStep(s, events[0]); }
      ExecutionsOnly(Step(s, events[0]), events[1..]);
    }
  }

  lemma ExecutionsStep(s: State, e: Event)
    requires Executions(s)
    ensures Executions(Step(s, e))
  {
    hide Matches, Effect, Resume, Abandon, End, Served;
    ExecutionsEffect(s);
  }

  lemma ExecutionsEffect(s: State)
    requires Executions(s)
    ensures Executions(Effect(s))
  {
  }

  /** Concretely: while the first configuration of a session awaits its first answer, and after that failed, the
      plugin counts it as being configured, answers no selection for it, and lets an ordinary request pass. */
  lemma FirstConfigurationIsOpen()
    ensures
      var t := Run(START, [Begins(FIRST)]);
      && Unbound(START) && t.call.Some? && Selected(t).None? && Prompts(t, false) && Dispatched(t, Asks(Ordinary(1)))
    ensures
      var u := Run(START, [Begins(FIRST), Fails(false), Succeeds(false)]);
      && u.call.None? && u.ended == [GaveUpEarly] && Dispatched(u, Asks(Ordinary(1)))
  {
    var e := [Begins(FIRST), Fails(false), Succeeds(false)];
    assert e[1..] == [Fails(false), Succeeds(false)] && e[1..][1..] == [Succeeds(false)] && e[1..][1..][1..] == [];
    assert [Begins(FIRST)][1..] == [];
    var s1 := Step(START, e[0]);
    var s2 := Step(s1, e[1]);
    var s3 := Step(s2, e[2]);
    assert Run(START, [Begins(FIRST)]) == Run(s1, []) == s1;
    assert Run(START, e) == Run(s1, e[1..]) == Run(s2, [e[2]]);
    assert Run(s2, [e[2]]) == Run(s3, []);
  }

  // ----- Requests that were let in

  /** The configurations since leave this one in force: none got past its first await, or the last that did was
      completed with it. */
  predicate LeavesInForce(c: Config, ended: seq<Ended>) {
    ended == []
    || ended[|ended| - 1] == Done(c)
    || (ended[|ended| - 1].GaveUpEarly? && LeavesInForce(c, ended[..|ended| - 1]))
  }

  lemma {:induction false} InForceIs(c: Config, ended: seq<Ended>)
    ensures BindingAfter(Some(Binding(true, c)), ended) == Some(Binding(true, c)) <==> LeavesInForce(c, ended)
    decreases |ended|
  {
    if ended != [] { InForceIs(c, ended[..|ended| - 1]); }
  }

  /** A request that was let in is looked at no more, whatever becomes of its binding: unless a reload ends it with
      the instance, it goes on once its read-backs are done. The binding it was let in under is then still the
      session's, with nothing configuring it, exactly if no configuration is running and those that ended since
      leave it in force. */
  lemma PassesUnderItsOwnIff(s: State, agent: Agent, events: seq<Event>)
    requires Inv(s) && Arrive(s, agent).Admitted?
    ensures
      var c := Arrive(s, agent).config;
      var t := Run(Step(s, Asks(agent)), events);
      s.next in t.requests ==>
        && s.ended <= t.ended
        && (Ready(t, c) <==> t.call.None? && LeavesInForce(c, t.ended[|s.ended|..]))
        && (t.requests[s.next].verified ==> Dispatched(t, Passes(s.next)))
  {
    hide Step, Matches;
    var c := Arrive(s, agent).config;
    var first := Step(s, Asks(agent));
    AskKeeps(s, agent);
    assert s.ended[|s.ended|..] == [];
    assert Tracks(s, first);
    RunHolds(s, first, s.next, events);
    var t := Run(first, events);
    if s.next in t.requests { InForceIs(c, t.ended[|s.ended|..]); }
  }

  /** A request keeps its number, and no other ever has it. */
  lemma HoldsStep(t: State, e: Event, k: nat)
    requires k < t.next && k in Step(t, e).requests
    ensures k in t.requests && !e.Crashes?
  {
    hide Matches, Resume, Effect, Caught;
  }

  lemma NextGrows(t: State, e: Event)
    ensures t.next <= Step(t, e).next
  {
    hide Matches, Resume, Effect, Caught;
  }

  lemma {:induction false} RunHolds(s: State, t: State, k: nat, events: seq<Event>)
    requires k < t.next && (k in t.requests ==> Tracks(s, t))
    ensures k in Run(t, events).requests ==> Tracks(s, Run(t, events))
    decreases |events|
  {
    hide Tracks, Step;
    if events != [] {
      var u := Step(t, events[0]);
      NextGrows(t, events[0]);
      if k in u.requests {
        HoldsStep(t, events[0], k);
        TracksStep(s, t, events[0]);
      }
      RunHolds(s, u, k, events[1..]);
    }
  }

  lemma AskKeeps(s: State, agent: Agent)
    requires BindingOk(s) && Arrive(s, agent).Admitted?
    ensures
      var t := Step(s, Asks(agent));
      BindingOk(t) && t.ended == s.ended && t.memory == s.memory && t.call == s.call && t.next == s.next + 1
  {
    hide Matches;
  }

  /** One event at a time: a binding in force stays so unless a configuration begins. */
  lemma OnlyBeginningOvertakes(s: State, c: Config, e: Event)
    requires Inv(s) && Ready(s, c)
    ensures Ready(Step(s, e), c) <==> !(e.Begins? && e.c.agent.Execution?)
  {
    hide Matches;
  }

  /** A read-only configuration does look again: its receipt means that the binding is in force now, durable, and
      the very one it found. */
  lemma ReceiptMeansReady(s: State, e: Event)
    requires Inv(s) && Receipt(s, e)
    ensures Ready(s, s.checks[e.k].config) && s.durable == s.memory
  {
    hide Matches;
  }

  const START := State(None, None, 0, None, None, Session(Ordinary(1), None), false, [], map[], map[], 0)
  const FIRST := Config(Execution(7), None, 0)
  const SECOND := Config(Execution(8), None, 0)

  /** A concrete run: the session is configured, a request is let in and read back, and another configuration
      makes its intent current. */
  function Overtaken(): seq<Event> {
    [Begins(FIRST), Succeeds(false), Succeeds(false), Succeeds(false), Succeeds(false), Succeeds(false), Succeeds(false), Succeeds(false),
     Asks(Execution(7)), ReadsBack(0), Begins(SECOND), Succeeds(false)]
  }

  /** The request goes on while the session's binding is pending and nobody else may select it. */
  lemma OvertakenPasses()
    ensures
      var s := Run(START, Overtaken());
      Dispatched(s, Passes(0)) && s.call.Some? && s.memory == Some(Binding(false, SECOND)) && Selected(s).None?
  {
    hide Step, Dispatched, Run;
    var e := Overtaken();
    Halves(START, e, 4);
    Four(START, e[..4]);
    IntentSaved(e);
    var s4 := Run(START, e[..4]);
    Halves(s4, e[4..], 4);
    Four(s4, e[4..][..4]);
    Configured(e, s4);
    var s8 := Run(s4, e[4..][..4]);
    assert e[4..][4..] == e[8..];
    Four(s8, e[8..]);
    PassedOver(e, s8);
  }

  function AfterFour(): State {
    START.(call := Some(Call(VerifyingDefinitions, FIRST, None, true)), memory := Some(Binding(false, FIRST)), version := 1,
           durable := Some(Binding(false, FIRST)), active := Some(FIRST))
  }

  lemma IntentSaved(e: seq<Event>)
    requires e == Overtaken()
    ensures Step(Step(Step(Step(START, e[0]), e[1]), e[2]), e[3]) == AfterFour()
  {
  }

  lemma Configured(e: seq<Event>, s: State)
    requires e == Overtaken() && s == AfterFour()
    ensures
      var t := Step(Step(Step(Step(s, e[4]), e[5]), e[6]), e[7]);
      && t.memory == Some(Binding(true, FIRST)) && t.call.None? && t.native == Session(Execution(7), None)
      && t.requests == map[] && t.next == 0
  {
    var t1 := Step(s, e[4]);
    assert t1 == s.(call := Some(s.call.value.(at := SwitchingAgent)));
    var t2 := Step(t1, e[5]);
    assert t2 == s.(call := Some(s.call.value.(at := VerifyingSelection)), native := Session(Execution(7), None));
    var t3 := Step(t2, e[6]);
    assert t3 == t2.(call := Some(s.call.value.(at := SavingReady)));
  }

  lemma PassedOver(e: seq<Event>, s: State)
    requires e == Overtaken() && s.memory == Some(Binding(true, FIRST)) && s.call.None? && s.native == Session(Execution(7), None)
    requires s.requests == map[] && s.next == 0
    ensures
      var t := Step(Step(Step(Step(s, e[8]), e[9]), e[10]), e[11]);
      Dispatched(t, Passes(0)) && t.call.Some? && t.memory == Some(Binding(false, SECOND)) && Selected(t).None?
  {
  }

  lemma {:induction false} Halves(s: State, events: seq<Event>, n: nat)
    requires n <= |events|
    ensures Run(s, events) == Run(Run(s, events[..n]), events[n..])
    decreases n
  {
    hide Step;
    if n == 0 {
      assert events[..0] == [] && events[0..] == events;
    } else {
      Halves(Step(s, events[0]), events[1..], n - 1);
      assert events[..n][1..] == events[1..][..n - 1] && events[1..][n - 1..] == events[n..];
    }
  }

  lemma Four(s: State, e: seq<Event>)
    requires |e| == 4
    ensures Run(s, e) == Step(Step(Step(Step(s, e[0]), e[1]), e[2]), e[3])
  {
    hide Step;
    assert e[1..][1..] == e[2..] && e[2..][1..] == e[3..] && e[3..][1..] == [];
    assert Run(s, e) == Run(Step(s, e[0]), e[1..]);
    assert Run(Step(s, e[0]), e[1..]) == Run(Step(Step(s, e[0]), e[1]), e[2..]);
    var s2 := Step(Step(s, e[0]), e[1]);
    assert Run(s2, e[2..]) == Run(Step(s2, e[2]), e[3..]);
    assert Run(Step(s2, e[2]), e[3..]) == Run(Step(Step(s2, e[2]), e[3]), []);
  }
}
