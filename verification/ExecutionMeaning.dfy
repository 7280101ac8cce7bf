/**
 What every await of a configuration does, field by field; that one whose awaits succeed binds the session; and who is
 let in, looked at again and answered.
 */
module ExecutionMeaning {
  import opened Wrappers
  import opened ExecutionBinding

  // ----- The native session

  /** The session is as configured: of that agent and, if a model is asked for, with exactly it, where no variant is the
      default one. */
  lemma MatchesIff(n: Session, c: Config)
    ensures Matches(n, c) <==>
      && n.agent == c.agent
      && (match (c.model, n.model)
          case (None, _) => true
          case (Some(_), None) => false
          case (Some(x), Some(y)) =>
            && x.providerId == y.providerId && x.modelId == y.modelId
            && (x.variant == y.variant || (x.variant == None && y.variant == Some(DEFAULT_VARIANT)) || (x.variant == Some(DEFAULT_VARIANT) && y.variant == None)))
  {
  }

  // ----- One await after the other

  /** What awaits in this order: the session is read, the intent saved, the definitions loaded and verified, old
      permissions recovered if there are any, the agent and, if asked for, the model switched, the selection read back, and
      the binding saved as ready. */
  function NextAwait(at: Await, legacy: bool, model: bool, matches: bool): Option<Await> {
    match at
    case Getting => Some(SavingPending)
    case SavingPending => Some(Reloading)
    case Reloading => Some(VerifyingDefinitions)
    case VerifyingDefinitions => Some(if legacy then Recovering else SwitchingAgent)
    case Recovering => Some(SwitchingAgent)
    case SwitchingAgent => Some(if model then SwitchingModel else VerifyingSelection)
    case SwitchingModel => Some(VerifyingSelection)
    case VerifyingSelection => Some(if matches then SavingReady else Failing)
    case SavingReady => None
    case Failing => None
  }

  /** A configuration begins exactly if none is running, and only for an agent of an execution. It remembers which
      definitions were active. */
  lemma BeginExactly(s: State, c: Config)
    ensures Step(s, Begins(c)) ==
      if s.call == None && c.agent.Execution? then s.(call := Some(Call(Getting, c, s.active, false))) else s
  {
  }

  /** What is stored and what the session is after an await had its effect. */
  lemma EffectExactly(s: State)
    requires s.call.Some?
    ensures
      var t := Effect(s);
      var (at, c) := (s.call.value.at, s.call.value.input);
      && t == s.(durable := t.durable, native := t.native)
      && t.durable == (if at == SavingReady then Some(Binding(true, c))
                       else if at == SavingPending || at == Recovering then Some(Binding(false, c)) else s.durable)
      && t.native == (if at == SwitchingAgent then Session(c.agent, s.native.model)
                      else if at == SwitchingModel then Session(s.native.agent, c.model) else s.native)
  {
  }

  /** An await that succeeds: its effect, and then the next. The intent is the current binding as soon as the session was
      read; the definitions are active as soon as the intent is stored; what was touched counts as read back with the
      selection; and the binding is ready with the last. */
  lemma SucceedsExactly(s: State, legacy: bool)
    requires s.call.Some?
    ensures
      var t := Step(s, Succeeds(legacy));
      var (e, k) := (Effect(s), s.call.value);
      var ok := Matches(e.native, k.input);
      var next := NextAwait(k.at, legacy, k.input.model.Some?, ok);
      && t.durable == e.durable && t.native == e.native && t.requests == s.requests && t.checks == s.checks && t.next == s.next
      && t.call == (if next == None then None else Some(Call(next.value, k.input, k.prior, k.published || k.at == Getting)))
      && t.memory == (if k.at == Getting then Some(Binding(false, k.input)) else if k.at == SavingReady then Some(Binding(true, k.input)) else s.memory)
      && t.version == (if k.at == Getting || k.at == SavingReady then s.version + 1 else s.version)
      && t.active == (if k.at == SavingPending then Some(k.input) else if k.at == VerifyingSelection && !ok then k.prior else s.active)
      && t.touched == (if k.at == VerifyingSelection && ok then false else s.touched)
      && t.ended == (if k.at == SavingReady then s.ended + [Done(k.input)]
                     else if k.at == Failing then s.ended + [if k.published then GaveUp(k.input) else GaveUpEarly] else s.ended)
  {
    hide Matches, Effect, Resume;
    ResumesTo(Effect(s), legacy);
    ResumeChanges(Effect(s), legacy);
  }

  lemma ResumesTo(e: State, legacy: bool)
    requires e.call.Some?
    ensures
      var (t, k) := (Resume(e, legacy), e.call.value);
      var next := NextAwait(k.at, legacy, k.input.model.Some?, Matches(e.native, k.input));
      t.call == (if next == None then None else Some(Call(next.value, k.input, k.prior, k.published || k.at == Getting)))
  {
    hide Matches;
  }

  lemma ResumeChanges(e: State, legacy: bool)
    requires e.call.Some?
    ensures
      var (t, k, ok) := (Resume(e, legacy), e.call.value, Matches(e.native, e.call.value.input));
      && t.memory == (if k.at == Getting then Some(Binding(false, k.input)) else if k.at == SavingReady then Some(Binding(true, k.input)) else e.memory)
      && t.version == (if k.at == Getting || k.at == SavingReady then e.version + 1 else e.version)
      && t.active == (if k.at == SavingPending then Some(k.input) else if k.at == VerifyingSelection && !ok then k.prior else e.active)
      && t.touched == (if k.at == VerifyingSelection && ok then false else e.touched)
      && t.ended == (if k.at == SavingReady then e.ended + [Done(k.input)]
                     else if k.at == Failing then e.ended + [if k.published then GaveUp(k.input) else GaveUpEarly] else e.ended)
  {
    hide Matches;
  }

  /** One that fails, its effect had or not: the definitions that were active before go back and are loaded; after that the
      configuration is over. What is the current binding stays. */
  lemma FailsExactly(s: State, applied: bool)
    requires s.call.Some?
    ensures
      var t := Step(s, Fails(applied));
      var (e, k) := (if applied then Effect(s) else s, s.call.value);
      && t == s.(durable := e.durable, native := e.native, active := t.active, call := t.call, ended := t.ended)
      && (if k.at == Failing then t.call == None && t.active == s.active && t.ended == s.ended + [if k.published then GaveUp(k.input) else GaveUpEarly]
          else t.call == Some(Call(Failing, k.input, k.prior, k.published)) && t.active == k.prior && t.ended == s.ended)
  {
  }

  /** A new instance knows what is stored and nothing else, with the definitions of what is ready. */
  lemma CrashExactly(s: State, applied: bool)
    ensures
      var t := Step(s, Crashes(applied));
      var e := if applied then Effect(s) else s;
      && t.durable == e.durable && t.native == e.native && t.memory == e.durable && t.call == None && t.version == s.version + 1
      && t.requests == map[] && t.checks == map[] && t.ended == [] && t.touched == s.touched && t.next == s.next
      && t.active == (match e.durable
                      case Some(Binding(true, c)) => Some(c)
                      case _ => None)
  {
  }

  lemma OthersExactly(s: State, n: Session)
    ensures Step(s, Others(n)) == s.(native := n, touched := true)
    ensures s.call == None ==> Step(s, Succeeds(true)) == s && Step(s, Succeeds(false)) == s && Step(s, Fails(true)) == s && Step(s, Fails(false)) == s
  {
  }

  // ----- A configuration that succeeds

  function Succeeding(n: nat, legacy: bool): seq<Event> {
    if n == 0 then [] else [Succeeds(legacy)] + Succeeding(n - 1, legacy)
  }

  /** How many awaits are left. */
  function Left(at: Await, legacy: bool, model: bool): nat {
    var switching := if model then 4 else 3;
    var verifying := (if legacy then 2 else 1) + switching;
    match at
    case Getting => 3 + verifying
    case SavingPending => 2 + verifying
    case Reloading => 1 + verifying
    case VerifyingDefinitions => verifying
    case Recovering => 1 + switching
    case SwitchingAgent => switching
    case SwitchingModel => 3
    case VerifyingSelection => 2
    case SavingReady => 1
    case Failing => 1
  }

  /** The session was switched as far as it has to be by now. */
  predicate Switched(s: State) {
    s.call.Some? ==>
      && var k := s.call.value;
      && (k.at == SwitchingModel ==> s.native.agent == k.input.agent && k.input.model.Some?)
      && (k.at == VerifyingSelection ==> Matches(s.native, k.input))
      && k.at != Failing
  }

  lemma OneMore(s: State, legacy: bool)
    requires s.call.Some? && Switched(s)
    ensures
      var t := Step(s, Succeeds(legacy));
      var k := s.call.value;
      && Switched(t)
      && (k.at != SavingReady ==> t.call.Some? && t.call.value.input == k.input
                                  && Left(t.call.value.at, legacy, k.input.model.Some?) == Left(k.at, legacy, k.input.model.Some?) - 1)
      && (k.at == SavingReady ==> t.call == None && t.durable == Some(Binding(true, k.input)) && t.memory == t.durable)
  {
    hide Step, Matches, Effect;
    var k := s.call.value;
    SucceedsExactly(s, legacy);
    EffectExactly(s);
    if k.at == SwitchingAgent && k.input.model == None { AsConfigured(Effect(s).native, k.input); }
    if k.at == SwitchingModel { AsConfigured(Effect(s).native, k.input); }
  }

  lemma AsConfigured(n: Session, c: Config)
    requires n.agent == c.agent && (c.model.Some? ==> n.model == c.model)
    ensures Matches(n, c)
  {
  }

  lemma {:induction false} Completes(s: State, legacy: bool)
    requires s.call.Some? && Switched(s)
    ensures
      var c := s.call.value.input;
      var t := Run(s, Succeeding(Left(s.call.value.at, legacy, c.model.Some?), legacy));
      t.call == None && t.durable == Some(Binding(true, c)) && t.memory == t.durable
    decreases Left(s.call.value.at, legacy, s.call.value.input.model.Some?)
  {
    hide Step, Switched;
    var k := s.call.value;
    var n := Left(k.at, legacy, k.input.model.Some?);
    var t := Step(s, Succeeds(legacy));
    OneMore(s, legacy);
    assert Succeeding(n, legacy)[1..] == Succeeding(n - 1, legacy);
    if k.at == SavingReady {
      assert n == 1 && Succeeding(0, legacy) == [];
    } else {
      Completes(t, legacy);
    }
  }

  /** With nothing in its way, a configuration that begins binds its session: stored and current, ready, and with its own
      agent let in. Whatever was configured before, and whether old permissions had to be recovered. */
  lemma ConfigurationBinds(s: State, c: Config, legacy: bool)
    requires s.call == None && c.agent.Execution?
    ensures
      var t := Run(Step(s, Begins(c)), Succeeding(Left(Getting, legacy, c.model.Some?), legacy));
      && Ready(t, c) && t.durable == t.memory && Selected(t) == Some(c.agent) && LetsIn(t, c.agent) && Prompts(t, false)
  {
    hide Run;
    Completes(Step(s, Begins(c)), legacy);
  }

  // ----- Who is let in, and looked at again

  /** What the other hooks do: an agent is selected exactly for a binding that is ready with nothing configuring it; and a
      prompt is let in exactly if there is no binding at all, or this session's is not pending and nothing configures it. */
  lemma SelectsIff(s: State, others: bool)
    ensures Selected(s) == (match s.memory
                            case Some(Binding(true, c)) => if s.call == None then Some(c.agent) else None
                            case _ => None)
    ensures Prompts(s, others) <==>
      match s.memory
      case None => !others || s.call == None
      case Some(b) => b.ready && s.call == None
  {
  }

  /** A request of a bound session is taken up with the binding that lets it in, and of any other nothing is kept. */
  lemma AskExactly(s: State, agent: Agent)
    ensures
      var t := Step(s, Asks(agent));
      if exists c :: Ready(s, c) && c.agent == agent
      then t == s.(requests := s.requests[s.next := Request(s.memory.value.config, false)], next := s.next + 1)
      else t == s
    ensures Dispatched(s, Asks(agent)) <==> s.memory == None && agent.Ordinary?
    ensures Arrive(s, agent) == (match s.memory
                                 case None => if agent.Ordinary? then GoesOn else AsChild
                                 case Some(Binding(ready, c)) => if ready && s.call == None && c.agent == agent then Admitted(c) else TurnedAway)
  {
    if s.memory.Some? && s.memory.value.ready && s.call == None { assert Ready(s, s.memory.value.config); }
  }

  /** It goes on exactly if its session read back as the binding has it, and then once. */
  lemma ReadsBackExactly(s: State, k: nat)
    requires k in s.requests
    ensures Step(s, ReadsBack(k)) ==
      if Matches(s.native, s.requests[k].config) then s.(requests := s.requests[k := Request(s.requests[k].config, true)])
      else s.(requests := s.requests - {k})
    ensures Dispatched(s, Passes(k)) <==> s.requests[k].verified
    ensures Step(s, Passes(k)) == (if s.requests[k].verified then s.(requests := s.requests - {k}) else s)
    ensures k !in Step(s, Passes(k)).requests ==> !Dispatched(Step(s, Passes(k)), Passes(k))
  {
    hide Matches;
  }

  /** A read-only configuration is taken up exactly if its binding is ready and nothing configures it. With the session as
      configured, and nothing beginning in between, it gets its receipt; and whatever becomes another binding object in
      between, it does not. */
  lemma ChecksExactly(s: State, c: Config)
    ensures Step(s, AsksReadOnly(c)) ==
      if s.memory == Some(Binding(true, c)) && s.call == None then s.(checks := s.checks[s.next := Check(c, s.version, false)], next := s.next + 1) else s
    ensures
      s.memory == Some(Binding(true, c)) && s.call == None && Matches(s.native, c) ==>
        var t := Step(Step(s, AsksReadOnly(c)), ChecksBack(s.next));
        Receipt(t, Answers(s.next))
  {
    hide Matches;
  }

  lemma ChecksBackExactly(s: State, k: nat)
    requires k in s.checks
    ensures Step(s, ChecksBack(k)) ==
      if Matches(s.native, s.checks[k].config) then s.(checks := s.checks[k := Check(s.checks[k].config, s.checks[k].version, true)])
      else s.(checks := s.checks - {k})
    ensures Step(s, Answers(k)) == s.(checks := s.checks - {k})
    ensures Receipt(s, Answers(k)) <==> s.checks[k].verified && s.call == None && s.checks[k].version == s.version
  {
    hide Matches;
  }
}
