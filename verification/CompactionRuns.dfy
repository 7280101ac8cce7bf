/**
 Whole runs of one compacted session: requests, context revisions, failed writes, and crashes between
 any two steps. The native history only grows, and one request is prepared at a time.
 */
module CompactionRuns {
  import opened Wrappers
  import opened CompactionWindow

  /** A published binding; each publication is another object. */
  datatype Held = Held(serial: nat, binding: Binding)

  /** A request that was sent: what it carried, the native history it had, the binding then, and its agent. */
  datatype Sent = Sent(messages: seq<Message>, native: seq<Message>, binding: Binding, agent: nat)

  /** Where the preparation of a request is. */
  datatype Phase =
    | Idle
    | Asked(messages: seq<Message>, agent: nat, before: Option<Held>)   // awaits the native context
    | Loading(messages: seq<Message>, agent: nat, held: Held)           // awaits the stored window
    | Storing(messages: seq<Message>, agent: nat, held: Held, output: seq<Message>, window: seq<Entry>)
    | Ready(messages: seq<Message>, agent: nat, held: Held, output: seq<Message>)

  /** `base` is the native history that the window was last replayed or recorded over. */
  datatype State = State(native: seq<Message>, base: seq<Message>, held: Option<Held>, durable: Option<Binding>,
                         saving: Option<Binding>, serial: nat, selected: Option<nat>, window: seq<Entry>,
                         phase: Phase, sent: seq<Sent>)

  datatype Event =
    | Grows(more: seq<Message>)
    | Selects(choice: Option<nat>)
    | Saves(b: Binding)             // a configuration for the selected agent becomes durable
    | Publishes                     // and then current, if the selection is still that agent's
    | Aborts                        // or is abandoned before that
    | Begins(agent: nat)
    | Continues
    | Loads
    | Stores(ok: bool)
    | Dispatches
    | Crashes

  /** The binding that a request may use now. */
  predicate Configured(s: State, agent: nat) {
    s.held.Some? && s.held.value.binding.agent == agent && s.selected == Some(agent)
  }

  predicate Marked(messages: seq<Message>, checkpoint: nat) {
    exists i :: 0 <= i < |messages| && messages[i].Restoration? && messages[i].checkpoint == checkpoint
  }

  function Step(checkpoint: nat, s: State, e: Event): State {
    match e
    case Grows(more) => s.(native := s.native + more)
    case Selects(choice) => s.(selected := choice)
    case Saves(b) => if s.selected != Some(b.agent) then s else s.(durable := Some(b), saving := Some(b))
    case Publishes =>
      if s.saving.None? then s
      else if s.selected != Some(s.saving.value.agent) then s.(saving := None)
      else s.(held := Some(Held(s.serial, s.saving.value)), saving := None, serial := s.serial + 1)
    case Aborts => s.(saving := None)
    case Begins(agent) => if s.phase.Idle? then s.(phase := Asked(s.native, agent, s.held)) else s
    case Continues =>
      if !s.phase.Asked? then s
      else if !Configured(s, s.phase.agent) || s.held != s.phase.before then s.(phase := Idle)
      else if Marked(s.phase.messages, checkpoint) then
        s.(phase := Ready(s.phase.messages, s.phase.agent, s.held.value, s.phase.messages))
      else s.(phase := Loading(s.phase.messages, s.phase.agent, s.held.value))
    case Loads =>
      if !s.phase.Loading? then s
      else
        var p := s.phase;
        var r := Restore(checkpoint, s.window, p.messages, p.held.binding);
        if r.Refused? then s.(phase := Idle)
        else if r.value.1 == s.window then s.(phase := Ready(p.messages, p.agent, p.held, r.value.0), base := p.messages)
        else s.(phase := Storing(p.messages, p.agent, p.held, r.value.0, r.value.1))
    case Stores(ok) =>
      if !s.phase.Storing? then s
      else if !ok then s.(phase := Idle)
      else
        var p := s.phase;
        s.(window := p.window, base := p.messages, phase := Ready(p.messages, p.agent, p.held, p.output))
    case Dispatches =>
      if !s.phase.Ready? then s
      else if !Configured(s, s.phase.agent) || s.held != Some(s.phase.held) then s.(phase := Idle)
      else s.(phase := Idle, sent := s.sent + [Sent(s.phase.output, s.phase.messages, s.phase.held.binding, s.phase.agent)])
    case Crashes =>
      s.(phase := Idle, saving := None, serial := s.serial + 1,
         held := if s.durable.Some? then Some(Held(s.serial, s.durable.value)) else None)
  }

  function Run(checkpoint: nat, s: State, events: seq<Event>): State
    decreases |events|
  {
    if events == [] then s else Run(checkpoint, Step(checkpoint, s, events[0]), events[1..])
  }

  /** The native history grows by native messages, and contexts are what the codec takes. */
  ghost predicate Possible(e: Event) {
    (e.Grows? ==> AllNative(e.more)) && (e.Saves? ==> ValidText(e.b.text))
  }

  ghost predicate SentOk(checkpoint: nat, x: Sent) {
    && Erase(x.messages) == x.native
    && Marks(x.messages) != []
    && Marks(x.messages)[|Marks(x.messages)| - 1] == Restoration(checkpoint, OfText(x.binding.text), x.binding.text)
  }

  /** The state of the window, as `Replay` sees it. */
  ghost predicate BaseOk(checkpoint: nat, s: State) {
    && AllNative(s.native) && s.base <= s.native && WindowOk(checkpoint, s.window, s.base)
  }

  ghost predicate Prefixes(checkpoint: nat, s: State)
    requires BaseOk(checkpoint, s)
  {
    && (forall i :: 0 <= i < |s.sent| ==> s.sent[i].messages <= Replay(checkpoint, s.window, s.base).value)
    && (forall i, j :: 0 <= i <= j < |s.sent| ==> s.sent[i].messages <= s.sent[j].messages)
    && (forall i :: 0 <= i < |s.sent| ==> SentOk(checkpoint, s.sent[i]))
  }

  ghost predicate Snapshot(s: State, messages: seq<Message>) {
    s.base <= messages <= s.native && AllNative(messages)
  }

  ghost predicate PhaseOk(checkpoint: nat, s: State)
    requires BaseOk(checkpoint, s)
  {
    match s.phase
    case Idle => true
    case Asked(messages, _, _) => Snapshot(s, messages)
    case Loading(messages, _, held) => Snapshot(s, messages) && ValidText(held.binding.text)
    case Storing(messages, _, held, output, window) =>
      && Snapshot(s, messages) && ValidText(held.binding.text)
      && Restore(checkpoint, s.window, messages, held.binding) == Ok((output, window))
    case Ready(messages, agent, held, output) =>
      && messages == s.base && Replay(checkpoint, s.window, s.base) == Ok(output)
      && SentOk(checkpoint, Sent(output, messages, held.binding, agent))
  }

  ghost predicate BindingsOk(s: State) {
    && (s.held.Some? ==> ValidText(s.held.value.binding.text))
    && (s.durable.Some? ==> ValidText(s.durable.value.text))
    && (s.saving.Some? ==> ValidText(s.saving.value.text))
  }

  ghost predicate Inv(checkpoint: nat, s: State) {
    BaseOk(checkpoint, s) && BindingsOk(s) && Prefixes(checkpoint, s) && PhaseOk(checkpoint, s)
  }

  lemma NoMarks(messages: seq<Message>, checkpoint: nat)
    requires AllNative(messages)
    ensures !Marked(messages, checkpoint)
  {
    forall i | 0 <= i < |messages| ensures messages[i].Native? { assert messages[i] in messages; }
  }

  lemma LoadsInv(checkpoint: nat, s: State)
    requires Inv(checkpoint, s) && s.phase.Loading?
    ensures Inv(checkpoint, Step(checkpoint, s, Loads))
  {
    hide Restore, ValidText, Replay, Erase, Marks;
    var p := s.phase;
    RestoreKeeps(checkpoint, s.window, s.base, p.messages, p.held.binding);
  }

  lemma StoresInv(checkpoint: nat, s: State, ok: bool)
    requires Inv(checkpoint, s) && s.phase.Storing?
    ensures Inv(checkpoint, Step(checkpoint, s, Stores(ok)))
  {
    hide Restore, ValidText, Replay, Erase, Marks;
    var p := s.phase;
    RestoreKeeps(checkpoint, s.window, s.base, p.messages, p.held.binding);
  }

  lemma DispatchesInv(checkpoint: nat, s: State)
    requires Inv(checkpoint, s) && s.phase.Ready?
    ensures Inv(checkpoint, Step(checkpoint, s, Dispatches))
  {
    hide ValidText, Replay, Erase, Marks, WindowOk;
  }

  lemma GrowsInv(checkpoint: nat, s: State, more: seq<Message>)
    requires Inv(checkpoint, s) && AllNative(more)
    ensures Inv(checkpoint, s.(native := s.native + more))
  {
    hide Restore, ValidText, Replay, WindowOk, SentOk, Erase, Marks;
  }

  lemma StepInv(checkpoint: nat, s: State, e: Event)
    requires Inv(checkpoint, s) && Possible(e)
    ensures Inv(checkpoint, Step(checkpoint, s, e))
  {
    hide Restore, ValidText, Replay, WindowOk, SentOk, AllNative, Marked, Erase, Marks;
    match e
    case Grows(more) => GrowsInv(checkpoint, s, more);
    case Loads => if s.phase.Loading? { LoadsInv(checkpoint, s); }
    case Stores(ok) => if s.phase.Storing? { StoresInv(checkpoint, s, ok); }
    case Dispatches => if s.phase.Ready? { DispatchesInv(checkpoint, s); }
    case Continues => if s.phase.Asked? { NoMarks(s.phase.messages, checkpoint); }
    case _ =>
  }

  ghost predicate AllPossible(events: seq<Event>) {
    forall i :: 0 <= i < |events| ==> Possible(events[i])
  }

  lemma {:induction false} RunInv(checkpoint: nat, s: State, events: seq<Event>)
    requires Inv(checkpoint, s) && AllPossible(events)
    ensures Inv(checkpoint, Run(checkpoint, s, events))
    decreases |events|
  {
    hide Inv, Step, Possible;
    if events != [] {
      StepInv(checkpoint, s, events[0]);
      RunInv(checkpoint, Step(checkpoint, s, events[0]), events[1..]);
    }
  }

  /** The first request of a checkpoint finds no window. */
  ghost predicate Fresh(s: State) {
    AllNative(s.native) && s.base == s.native && s.window == [] && s.phase.Idle? && s.sent == [] && BindingsOk(s)
  }

  lemma FreshInv(checkpoint: nat, s: State)
    requires Fresh(s)
    ensures Inv(checkpoint, s)
  {
    NativeOnly(s.native);
    assert |MarksOf(checkpoint, s.window)| == 0;
  }

  /** Over every run, each dispatched conversation is a prefix of every later one; without the
      restorations it is the native history; and its last restoration is the binding's it was
      dispatched under. */
  lemma DispatchedIsAppendOnly(checkpoint: nat, s: State, events: seq<Event>)
    requires Fresh(s) && AllPossible(events)
    ensures
      var t := Run(checkpoint, s, events);
      && (forall i, j :: 0 <= i <= j < |t.sent| ==> t.sent[i].messages <= t.sent[j].messages)
      && (forall i :: 0 <= i < |t.sent| ==> SentOk(checkpoint, t.sent[i]))
  {
    hide Replay, SentOk, ValidText;
    FreshInv(checkpoint, s);
    RunInv(checkpoint, s, events);
  }

  /** In every run, a request that has its binding is refused only when 64 versions are recorded and the
      context is another one: never because of its recorded prefix. */
  lemma NeverRefusedForItsPrefix(checkpoint: nat, s: State, events: seq<Event>)
    requires Fresh(s) && AllPossible(events)
    ensures
      var t := Run(checkpoint, s, events);
      t.phase.Loading? ==>
        && Replay(checkpoint, t.window, t.phase.messages).Ok?
        && (Step(checkpoint, t, Loads).phase.Idle? <==> |t.window| >= MAX_ENTRIES && !UpToDate(t.window, t.phase.held.binding))
  {
    hide Restore, ValidText, Replay, Erase, Marks;
    FreshInv(checkpoint, s);
    RunInv(checkpoint, s, events);
    var t := Run(checkpoint, s, events);
    if t.phase.Loading? {
      WindowGrows(checkpoint, t.window, t.base, t.phase.messages);
      RestoreKeeps(checkpoint, t.window, t.base, t.phase.messages, t.phase.held.binding);
    }
  }

  /** A crash between the write of the window and the dispatch costs nothing: the next request with the
      same context finds its restoration recorded, and sends it where it was to be. */
  lemma CrashAfterWrite(checkpoint: nat, s: State)
    requires Inv(checkpoint, s) && s.phase.Storing?
    ensures
      var t := Step(checkpoint, Step(checkpoint, s, Stores(true)), Crashes);
      && t.window == s.phase.window
      && Restore(checkpoint, t.window, s.phase.messages, s.phase.held.binding) == Ok((s.phase.output, t.window))
  {
    hide Replay, ValidText, Erase, Marks;
    var p := s.phase;
    RestoreKeeps(checkpoint, s.window, s.base, p.messages, p.held.binding);
  }
}
