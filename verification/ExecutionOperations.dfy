/**
 The configure protocol as the plugin runs it, over the bindings of all sessions: one method per
 stretch of code between two awaits. Each does to its session what `ExecutionBinding` says, does nothing to
 any other, and leaves every session of the instance with the invariant proved there.
 */
module ExecutionOperations {
  import opened Wrappers
  import B = ExecutionBinding

  const NOBODY := B.Session(B.Ordinary(0), None)

  class ExecutionOperations {
    // Of this plugin instance
    var bindings: map<nat, B.Binding>
    var active: map<nat, B.Config>
    var configuring: map<nat, B.Call>
    // Of the world: durable storage and the native sessions
    var storage: map<nat, B.Binding>
    var sessions: map<nat, B.Session>
    // The sessions that somebody else changed since they were last read back
    ghost var touched: set<nat>

    static function Get<T>(m: map<nat, T>, id: nat): Option<T> {
      if id in m then Some(m[id]) else None
    }

    /** What `ExecutionBinding` calls the state of one session, without its requests and its history. */
    ghost function View(id: nat): B.State
      reads this
    {
      B.State(Get(storage, id), Get(bindings, id), 0, Get(active, id), Get(configuring, id),
              if id in sessions then sessions[id] else NOBODY, id !in sessions || id in touched, [], map[], map[], 0)
    }

    static ghost function Bare(s: B.State): B.State {
      s.(version := 0, ended := [], requests := map[], checks := map[], next := 0)
    }

    /** In every session a ready binding is durable, and what is durably ready was read back. */
    ghost predicate Valid()
      reads this
    {
      forall id :: B.BindingOk(View(id))
    }

    static lemma BareOk(s: B.State, e: B.Event)
      requires B.BindingOk(s)
      ensures B.BindingOk(Bare(B.Step(s, e)))
    {
      hide B.Step, B.Matches;
      B.StepOk(s, e);
    }

    constructor (storage: map<nat, B.Binding>, sessions: map<nat, B.Session>)
      ensures this.storage == storage && this.sessions == sessions
      ensures bindings == map[] && active == map[] && configuring == map[] && touched == sessions.Keys
      ensures Valid()
    {
      this.storage, this.sessions, touched := storage, sessions, sessions.Keys;
      bindings, active, configuring := map[], map[], map[];
    }

    /** `configure`, up to its first await. */
    method Configure(id: nat, c: B.Config) returns (ok: bool)
      requires Valid() && c.agent.Execution?
      modifies this`configuring
      ensures Valid() && sessions.Keys == old(sessions.Keys) && (forall i :: i != id ==> View(i) == old(View(i)))
      ensures View(id) == Bare(B.Step(old(View(id)), B.Begins(c))) && (ok <==> id !in old(configuring))
    {
      hide B.BindingOk;
      if id in configuring {
        return false;
      }
      configuring := configuring[id := B.Call(B.Getting, c, Get(active, id), false)];
      BareOk(old(View(id)), B.Begins(c));
      assert View(id) == Bare(B.Step(old(View(id)), B.Begins(c)));
      forall i ensures B.BindingOk(View(i)) { if i != id { assert View(i) == old(View(i)); } }
      ok := true;
    }

    /** The effect of the operation that a configuration awaits. */
    method Apply(id: nat)
      requires id in sessions && id in configuring
      modifies this`storage, this`sessions
      ensures sessions.Keys == old(sessions.Keys) && (forall i :: i != id ==> View(i) == old(View(i)))
      ensures View(id) == B.Effect(old(View(id)))
    {
      var call := configuring[id];
      match call.at
      case SavingPending => storage := storage[id := B.Binding(false, call.input)];
      case Recovering => storage := storage[id := B.Binding(false, call.input)];
      case SwitchingAgent => sessions := sessions[id := sessions[id].(agent := call.input.agent)];
      case SwitchingModel => sessions := sessions[id := sessions[id].(model := call.input.model)];
      case SavingReady => storage := storage[id := B.Binding(true, call.input)];
      case _ =>
    }

    /** The catch block: the definitions that were active before go back. */
    method Abandon(id: nat)
      requires id in configuring
      modifies this`active, this`configuring
      ensures sessions.Keys == old(sessions.Keys) && (forall i :: i != id ==> View(i) == old(View(i)))
      ensures View(id) == B.Abandon(old(View(id)))
    {
      var prior := configuring[id].prior;
      if prior.Some? { active := active[id := prior.value]; } else { active := map i | i in active && i != id :: active[i]; }
      configuring := configuring[id := configuring[id].(at := B.Failing)];
    }

    method Await(id: nat, at: B.Await)
      requires id in configuring
      modifies this`configuring
      ensures sessions.Keys == old(sessions.Keys) && (forall i :: i != id ==> View(i) == old(View(i)))
      ensures View(id) == B.At(old(View(id)), at)
    {
      configuring := configuring[id := configuring[id].(at := at)];
    }

    method Done(id: nat)
      requires id in configuring
      modifies this`configuring
      ensures sessions.Keys == old(sessions.Keys) && (forall i :: i != id ==> View(i) == old(View(i)))
      ensures View(id) == Bare(B.End(old(View(id))))
    {
      configuring := map i | i in configuring && i != id :: configuring[i];
    }

    /** The code after the await. */
    method Continue(id: nat, legacy: bool)
      requires id in sessions && id in configuring
      modifies this
      ensures sessions.Keys == old(sessions.Keys) && (forall i :: i != id ==> View(i) == old(View(i)))
      ensures View(id) == Bare(B.Resume(old(View(id)), legacy))
    {
      hide B.Matches;
      var call := configuring[id];
      match call.at
      case Getting =>
        bindings := bindings[id := B.Binding(false, call.input)];
        configuring := configuring[id := call.(at := B.SavingPending, published := true)];
      case SavingPending => active := active[id := call.input]; Await(id, B.Reloading);
      case Reloading => Await(id, B.VerifyingDefinitions);
      case VerifyingDefinitions => Await(id, if legacy then B.Recovering else B.SwitchingAgent);
      case Recovering => Await(id, B.SwitchingAgent);
      case SwitchingAgent => Await(id, if call.input.model.Some? then B.SwitchingModel else B.VerifyingSelection);
      case SwitchingModel => Await(id, B.VerifyingSelection);
      case VerifyingSelection =>
        if B.Matches(sessions[id], call.input) { touched := touched - {id}; Await(id, B.SavingReady); } else { Abandon(id); }
      case SavingReady => bindings := bindings[id := B.Binding(true, call.input)]; Done(id);
      case Failing => Done(id);
    }

    /** From an await that resolved to the next one. */
    method Proceed(id: nat, legacy: bool)
      requires Valid() && id in sessions && id in configuring
      modifies this
      ensures Valid() && sessions.Keys == old(sessions.Keys) && (forall i :: i != id ==> View(i) == old(View(i)))
      ensures View(id) == Bare(B.Step(old(View(id)), B.Succeeds(legacy)))
    {
      hide B.Effect, B.Resume, B.BindingOk;
      Apply(id);
      Continue(id, legacy);
      BareOk(old(View(id)), B.Succeeds(legacy));
    }

    /** From an await that rejected, or whose call was aborted, to the catch block and out of it. */
    method Reject(id: nat, applied: bool)
      requires Valid() && id in configuring && (applied ==> id in sessions)
      modifies this
      ensures Valid() && sessions.Keys == old(sessions.Keys) && (forall i :: i != id ==> View(i) == old(View(i)))
      ensures View(id) == Bare(B.Step(old(View(id)), B.Fails(applied))) && bindings == old(bindings)
    {
      hide B.Effect, B.BindingOk;
      if applied { Apply(id); }
      if configuring[id].at.Failing? { Done(id); } else { Abandon(id); }
      BareOk(old(View(id)), B.Fails(applied));
    }

    /** Somebody else selects another agent or model. */
    method Select(id: nat, n: B.Session)
      requires Valid() && id in sessions
      modifies this`sessions, this`touched
      ensures Valid() && sessions.Keys == old(sessions.Keys) && (forall i :: i != id ==> View(i) == old(View(i)))
      ensures View(id) == Bare(B.Step(old(View(id)), B.Others(n)))
    {
      hide B.BindingOk;
      sessions, touched := sessions[id := n], touched + {id};
      BareOk(old(View(id)), B.Others(n));
      assert View(id) == Bare(B.Step(old(View(id)), B.Others(n)));
      forall i ensures B.BindingOk(View(i)) { if i != id { assert View(i) == old(View(i)); } }
    }

    /** A new instance reads every stored binding. */
    method Setup()
      requires Valid()
      modifies this`bindings, this`active, this`configuring
      ensures Valid()
      ensures forall id :: View(id) == Bare(B.Setup(old(View(id))))
    {
      bindings, active, configuring := map[], map[], map[];
      var rest := storage.Keys;
      while rest != {}
        invariant rest <= storage.Keys && configuring == map[]
        invariant forall id :: id in bindings <==> id in storage && id !in rest
        invariant forall id :: id in bindings ==> bindings[id] == storage[id]
        invariant forall id :: id in active <==> id in storage && id !in rest && storage[id].ready
        invariant forall id :: id in active ==> active[id] == storage[id].config
        decreases |rest|
      {
        var id :| id in rest;
        rest := rest - {id};
        bindings := bindings[id := storage[id]];
        if storage[id].ready { active := active[id := storage[id].config]; }
      }
      forall id ensures B.BindingOk(View(id)) && View(id) == Bare(B.Setup(old(View(id)))) {
        hide B.Matches;
        B.CrashesOk(old(View(id)), false);
      }
    }

    /** The agent that other parts of the plugin may use for a session now. It is the stored one, and the native
        session still has it unless somebody else selected another. */
    method Selected(id: nat) returns (agent: Option<B.Agent>)
      requires Valid()
      ensures agent.Some? ==>
        && id !in configuring && id in storage && storage[id].ready && storage[id].config.agent == agent.value
        && (id in sessions && id !in touched ==> B.Matches(sessions[id], storage[id].config))
      ensures agent.None? ==> forall c :: !B.Ready(View(id), c)
    {
      if id !in bindings || !bindings[id].ready || id in configuring { return None; }
      agent := Some(bindings[id].config.agent);
      assert B.BindingOk(View(id));
    }
  }
}
