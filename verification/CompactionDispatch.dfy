/**
 Which requests of a compacted session go out: exactly those whose execution, binding and selection are one agent's,
 from the first look to the last.
 */
module CompactionDispatch {
  import opened Wrappers
  import opened CompactionWindow
  import opened CompactionRuns

  /** The session is configured for the agent: by the binding that is current, and by the selection. */
  predicate Bound(s: State, held: Held, agent: nat) {
    s.held == Some(held) && held.binding.agent == agent && s.selected == Some(agent)
  }

  /** A request goes out in this step, and then with the agent that began it, exactly if it is ready and the session is
      bound to that agent by the binding it was prepared with. */
  lemma DispatchesIff(checkpoint: nat, s: State, e: Event)
    ensures Step(checkpoint, s, e).sent != s.sent <==>
      e.Dispatches? && s.phase.Ready? && Bound(s, s.phase.held, s.phase.agent)
    ensures Step(checkpoint, s, e).sent != s.sent ==>
      Step(checkpoint, s, e).sent == s.sent + [Sent(s.phase.output, s.phase.messages, s.phase.held.binding, s.phase.agent)]
  {
    hide Restore, Marked;
  }

  /** It is not even prepared unless the session is bound to its agent, since it began and still. */
  lemma PreparesIff(checkpoint: nat, s: State)
    requires s.phase.Asked?
    ensures
      var t := Step(checkpoint, s, Continues);
      && (t.phase.Loading? || t.phase.Ready? <==> s.phase.before.Some? && Bound(s, s.phase.before.value, s.phase.agent))
      && (t.phase.Loading? || t.phase.Ready? ==> t.phase.agent == s.phase.agent && t.phase.messages == s.phase.messages)
  {
    hide Marked;
  }

  // ----- Over runs

  lemma {:induction false} RunLast(checkpoint: nat, s: State, events: seq<Event>)
    requires events != []
    ensures Run(checkpoint, s, events) == Step(checkpoint, Run(checkpoint, s, events[..|events| - 1]), events[|events| - 1])
    decreases |events|
  {
    hide Step;
    if |events| > 1 {
      RunLast(checkpoint, Step(checkpoint, s, events[0]), events[1..]);
      assert events[1..][..|events| - 2] == events[..|events| - 1][1..];
    } else {
      assert events[1..] == [] && events[..0] == [];
    }
  }

  function AgentOf(p: Phase): Option<nat> {
    if p.Idle? then None else Some(p.agent)
  }

  /** The request that is underway after these events began with event `j`. */
  ghost predicate BeganAt(checkpoint: nat, s: State, events: seq<Event>, agent: nat, j: nat) {
    && j < |events| && events[j] == Begins(agent)
    && forall n :: j < n <= |events| ==> AgentOf(Run(checkpoint, s, events[..n]).phase) == Some(agent)
  }

  lemma {:induction false} Began(checkpoint: nat, s: State, events: seq<Event>) returns (j: nat)
    requires s.phase.Idle? && !Run(checkpoint, s, events).phase.Idle?
    ensures BeganAt(checkpoint, s, events, Run(checkpoint, s, events).phase.agent, j)
    decreases |events|
  {
    hide Step;
    var last := |events| - 1;
    var front := events[..last];
    var u := Run(checkpoint, s, front);
    RunLast(checkpoint, s, events);
    StaysItsAgents(checkpoint, u, events[last]);
    assert events[..|events|] == events;
    if u.phase.Idle? {
      j := last;
    } else {
      j := Began(checkpoint, s, front);
      assert forall n :: j < n < |events| ==> events[..n] == front[..n];
    }
  }

  /** A request keeps its agent until it ends, and only a beginning starts one. */
  lemma StaysItsAgents(checkpoint: nat, s: State, e: Event)
    requires !Step(checkpoint, s, e).phase.Idle?
    ensures if s.phase.Idle? then e == Begins(Step(checkpoint, s, e).phase.agent) else Step(checkpoint, s, e).phase.agent == s.phase.agent
  {
    hide Restore, Marked;
  }

  /** Over every run: what went out went out at a moment when the session was bound to the agent of the request that
      had begun and was prepared since, by the very binding whose context it carries. */
  lemma {:induction false} SentWhileBound(checkpoint: nat, s: State, events: seq<Event>, i: nat) returns (n: nat, j: nat)
    requires s.phase.Idle? && s.sent == [] && i < |Run(checkpoint, s, events).sent|
    ensures n < |events| && events[n].Dispatches?
    ensures
      var (u, x) := (Run(checkpoint, s, events[..n]), Run(checkpoint, s, events).sent[i]);
      && |u.sent| == i && u.phase.Ready? && x.agent == u.phase.agent && x.binding == u.phase.held.binding
      && Bound(u, u.phase.held, x.agent) && BeganAt(checkpoint, s, events[..n], x.agent, j)
    decreases |events|
  {
    hide Step, BeganAt;
    var last := |events| - 1;
    var front := events[..last];
    var u := Run(checkpoint, s, front);
    RunLast(checkpoint, s, events);
    DispatchesIff(checkpoint, u, events[last]);
    if i < |u.sent| {
      n, j := SentWhileBound(checkpoint, s, front, i);
      assert front[..n] == events[..n];
    } else {
      n := last;
      j := Began(checkpoint, s, front);
    }
  }

  // ----- A request that nothing disturbs

  /** A request of this agent is underway, prepared with this binding, which is current; and so is the selection. */
  ghost predicate Underway(s: State, held: Held, agent: nat) {
    && Bound(s, held, agent)
    && (match s.phase
        case Idle => false
        case Asked(_, a, before) => a == agent && before == Some(held)
        case Loading(_, a, h) => a == agent && h == held
        case Storing(_, a, h, _, _) => a == agent && h == held
        case Ready(_, a, h, _) => a == agent && h == held)
  }

  /** The window has room for the context, or has it already. */
  predicate Fits(s: State, held: Held) {
    |s.window| < 64 || (s.window[|s.window| - 1].hash == OfText(held.binding.text))
  }

  /** As long as binding and selection stay and nothing crashes, it goes on until it is sent; unless the window is full
      or its write fails. */
  lemma GoesOn(checkpoint: nat, s: State, e: Event, held: Held, agent: nat)
    requires Inv(checkpoint, s) && Underway(s, held, agent) && !e.Crashes?
    requires Bound(Step(checkpoint, s, e), held, agent)
    ensures
      var t := Step(checkpoint, s, e);
      || Underway(t, held, agent)
      || (e.Dispatches? && s.phase.Ready? && |t.sent| == |s.sent| + 1 && t.sent[|s.sent|].agent == agent && t.sent[|s.sent|].binding == held.binding)
      || (e.Loads? && s.phase.Loading? && !Fits(s, held))
      || (e == Stores(false) && s.phase.Storing?)
  {
    hide Restore, Marked, Replay, SentOk, WindowOk, ValidText, Prefixes, Snapshot;
    if e.Loads? && s.phase.Loading? { LoadsUnlessFull(checkpoint, s); }
  }

  /** So it is from the beginning on, if the session is bound to its agent then. */
  lemma BeginsUnderway(checkpoint: nat, s: State, held: Held, agent: nat)
    requires s.phase.Idle? && Bound(s, held, agent)
    ensures Underway(Step(checkpoint, s, Begins(agent)), held, agent)
  {
  }

  lemma LoadsUnlessFull(checkpoint: nat, s: State)
    requires Inv(checkpoint, s) && s.phase.Loading?
    ensures Step(checkpoint, s, Loads).phase.Idle? <==> !Fits(s, s.phase.held)
  {
    hide Replay, ValidText, Erase, Marks;
    RestoreKeeps(checkpoint, s.window, s.base, s.phase.messages, s.phase.held.binding);
  }

  function Rank(p: Phase): nat {
    match p
    case Asked(_, _, _) => 3
    case Loading(_, _, _) => 2
    case Storing(_, _, _, _, _) => 1
    case _ => 0
  }

  /** The answer to what it awaits. */
  function Answer(p: Phase): Event {
    match p
    case Asked(_, _, _) => Continues
    case Loading(_, _, _) => Loads
    case Storing(_, _, _, _, _) => Stores(true)
    case _ => Dispatches
  }

  /** With the session bound from its beginning on, and room in the window, a request whose awaits are answered well is
      sent, whatever the history gained since. */
  lemma {:induction false} Dispatched(checkpoint: nat, s: State, held: Held, agent: nat) returns (events: seq<Event>)
    requires Inv(checkpoint, s) && Underway(s, held, agent) && Fits(s, held)
    ensures |events| <= Rank(s.phase) + 1 && AllPossible(events)
    ensures
      var t := Run(checkpoint, s, events);
      |t.sent| == |s.sent| + 1 && t.sent[|s.sent|].agent == agent && t.sent[|s.sent|].binding == held.binding
    decreases Rank(s.phase)
  {
    hide Inv, SentOk, Restore, Marked, ValidText;
    var a := Answer(s.phase);
    var t := Step(checkpoint, s, a);
    assert Bound(t, held, agent) && (!s.phase.Ready? ==> t.sent == s.sent) by { Answered(checkpoint, s, held, agent); }
    GoesOn(checkpoint, s, a, held, agent);
    StepInv(checkpoint, s, a);
    if s.phase.Ready? {
      events := [a];
      assert Run(checkpoint, s, [a]) == Run(checkpoint, t, []);
    } else {
      Answered(checkpoint, s, held, agent);
      var rest := Dispatched(checkpoint, t, held, agent);
      events := [a] + rest;
      assert events[1..] == rest;
    }
  }

  lemma Answered(checkpoint: nat, s: State, held: Held, agent: nat)
    requires Inv(checkpoint, s) && Underway(s, held, agent) && Fits(s, held)
    ensures
      var t := Step(checkpoint, s, Answer(s.phase));
      && Bound(t, held, agent) && (!s.phase.Ready? ==> t.sent == s.sent)
      && (!s.phase.Ready? ==> Rank(t.phase) < Rank(s.phase) && Fits(t, held))
  {
    hide Replay, Marked, SentOk, WindowOk, ValidText, Prefixes, Snapshot, Admits;
    if s.phase.Loading? { LoadsUnlessFull(checkpoint, s); }
  }
}
