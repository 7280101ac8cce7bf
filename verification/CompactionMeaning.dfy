/**
 What configurations and requests of a compacted session do, field by field: when a context becomes the current one, what a
 crash leaves, which requests it overtakes, and how texts are divided.
 */
module CompactionMeaning {
  import opened Wrappers
  import opened CompactionWindow
  import opened CompactionRuns

  // ----- Configurations

  /** A context is stored, and later becomes the current one, exactly if its agent is the selected one each time; what is
      stored but not current is forgotten by an abort. None of this touches a request, the window or what was sent. */
  lemma ConfiguresExactly(checkpoint: nat, s: State, b: Binding)
    ensures Step(checkpoint, s, Saves(b)) == if s.selected == Some(b.agent) then s.(durable := Some(b), saving := Some(b)) else s
    ensures
      var t := Step(checkpoint, s, Publishes);
      && t == s.(held := t.held, saving := None, serial := t.serial)
      && (if exists x :: s.saving == Some(x) && s.selected == Some(x.agent)
          then t.held == Some(Held(s.serial, s.saving.value)) && t.serial > s.serial
          else t.held == s.held && t.serial == s.serial)
    ensures Step(checkpoint, s, Aborts) == s.(saving := None)
    ensures forall choice :: Step(checkpoint, s, Selects(choice)) == s.(selected := choice)
    ensures forall more :: Step(checkpoint, s, Grows(more)) == s.(native := s.native + more)
  {
  }

  /** After a crash the context that was stored last is the current one, whether or not it had been; no request is underway, and
      the window and what was sent are as they were. */
  lemma CrashExactly(checkpoint: nat, s: State)
    ensures
      var t := Step(checkpoint, s, Crashes);
      && t == s.(phase := Idle, saving := None, serial := t.serial, held := t.held) && t.serial > s.serial
      && (s.durable == None ==> t.held == None)
      && (forall b :: s.durable == Some(b) ==> t.held == Some(Held(s.serial, b)))
  {
  }

  // ----- Requests that a configuration overtakes

  /** No current context is older than it is known to be. */
  predicate Dated(s: State) {
    && (s.held.Some? ==> s.held.value.serial < s.serial)
    && (match s.phase
        case Idle => true
        case Asked(_, _, before) => before.Some? ==> before.value.serial < s.serial
        case Loading(_, _, held) => held.serial < s.serial
        case Storing(_, _, held, _, _) => held.serial < s.serial
        case Ready(_, _, held, _) => held.serial < s.serial)
  }

  /** The request that is underway was begun, or prepared, with another context than the current one. */
  predicate Overtaken(s: State) {
    match s.phase
    case Idle => false
    case Asked(_, _, before) => before != s.held
    case Loading(_, _, held) => Some(held) != s.held
    case Storing(_, _, held, _, _) => Some(held) != s.held
    case Ready(_, _, held, _) => Some(held) != s.held
  }

  lemma DatedNext(checkpoint: nat, s: State, e: Event)
    requires Dated(s)
    ensures Dated(Step(checkpoint, s, e))
  {
    hide Restore, Marked;
  }

  /** Every configuration that becomes current overtakes the request that is underway, even with the same context. */
  lemma PublicationOvertakes(checkpoint: nat, s: State)
    requires Dated(s) && s.saving.Some? && s.selected == Some(s.saving.value.agent) && !s.phase.Idle?
    ensures Overtaken(Step(checkpoint, s, Publishes))
  {
  }

  lemma OvertakenNext(checkpoint: nat, s: State, e: Event)
    requires Dated(s) && Overtaken(s)
    ensures
      var t := Step(checkpoint, s, e);
      t.sent == s.sent && (t.phase.Idle? || Overtaken(t))
  {
    hide Restore, Marked;
  }

  /** And a request that was overtaken is never sent: over every run until another begins, nothing is. */
  lemma {:induction false} OvertakenIsNotSent(checkpoint: nat, s: State, events: seq<Event>)
    requires Dated(s) && (s.phase.Idle? || Overtaken(s)) && forall e :: e in events ==> !e.Begins?
    ensures Run(checkpoint, s, events).sent == s.sent
    decreases |events|
  {
    hide Step;
    if events != [] {
      var t := Step(checkpoint, s, events[0]);
      DatedNext(checkpoint, s, events[0]);
      assert !events[0].Begins?;
      if s.phase.Idle? { IdleNext(checkpoint, s, events[0]); } else { OvertakenNext(checkpoint, s, events[0]); }
      assert forall e :: e in events[1..] ==> e in events;
      OvertakenIsNotSent(checkpoint, t, events[1..]);
    }
  }

  lemma IdleNext(checkpoint: nat, s: State, e: Event)
    requires s.phase.Idle? && !e.Begins?
    ensures Step(checkpoint, s, e).phase.Idle? && Step(checkpoint, s, e).sent == s.sent
  {
  }

  // ----- What a request loads and stores

  /** A message that restores the context of this compaction. */
  predicate Restores(m: Message, checkpoint: nat) {
    match m
    case Native(_) => false
    case Restoration(c, _, _) => c == checkpoint
  }

  /** A request that begins takes the history and the context as they are. It goes on as it is exactly if its history has a
      restoration of this compaction, and else loads the window. */
  lemma BeginsExactly(checkpoint: nat, s: State, agent: nat)
    ensures Step(checkpoint, s, Begins(agent)) == if s.phase == Idle then s.(phase := Asked(s.native, agent, s.held)) else s
    ensures
      s.phase.Asked? ==>
        var t := Step(checkpoint, s, Continues);
        && t == s.(phase := t.phase)
        && (t.phase.Ready? ==> exists m :: m in s.phase.messages && Restores(m, checkpoint))
        && (t.phase.Loading? ==> forall m :: m in s.phase.messages ==> !Restores(m, checkpoint))
        && (t.phase.Ready? || t.phase.Loading? || t.phase == Idle)
        && (t.phase.Ready? ==> t.phase.output == s.phase.messages)
  {
    if s.phase.Asked? {
      var ms := s.phase.messages;
      if Marked(ms, checkpoint) {
        var i :| 0 <= i < |ms| && ms[i].Restoration? && ms[i].checkpoint == checkpoint;
        assert ms[i] in ms && Restores(ms[i], checkpoint);
      }
    }
  }

  /** What is to be sent is the history with the window replayed, ending in the current context; a window that grows for it is
      written before anything is sent, and a failed write leaves the old one and ends the request. */
  lemma LoadsExactly(checkpoint: nat, s: State, ok: bool)
    ensures
      s.phase.Loading? ==>
        var p := s.phase;
        var t := Step(checkpoint, s, Loads);
        match Restore(checkpoint, s.window, p.messages, p.held.binding)
        case Refused => t == s.(phase := Idle)
        case Ok(r) =>
          if r.1 == s.window then t == s.(base := p.messages, phase := Ready(p.messages, p.agent, p.held, r.0))
          else t == s.(phase := Storing(p.messages, p.agent, p.held, r.0, r.1))
    ensures
      s.phase.Storing? ==>
        var p := s.phase;
        Step(checkpoint, s, Stores(ok)) ==
          if ok then s.(window := p.window, base := p.messages, phase := Ready(p.messages, p.agent, p.held, p.output)) else s.(phase := Idle)
  {
    hide Restore;
  }

  /** An entry fits where its offset is in the messages, its text is of bounded length and has the digest it says, and the
      messages before it have the digest that they had when it was recorded. */
  predicate FitsIn(e: Entry, messages: seq<Message>) {
    && e.offset <= |messages| && |e.text| <= 256_000
    && e.hash == OfText(e.text) && e.prefixHash == OfMessages(messages[..e.offset])
  }

  lemma {:induction false} ReplayStep(checkpoint: nat, entries: seq<Entry>, messages: seq<Message>)
    requires entries != []
    ensures
      var front := Replay(checkpoint, entries[..|entries| - 1], messages);
      var e := entries[|entries| - 1];
      Replay(checkpoint, entries, messages) ==
        if front.Refused? || !FitsIn(e, front.value) then Refused
        else Ok(front.value[..e.offset] + [Restoration(checkpoint, e.hash, e.text)] + front.value[e.offset..])
    decreases |entries|
  {
    var rest, e := entries[1..], entries[0];
    if rest == [] {
      assert entries[..0] == [];
    } else {
      assert entries[..|entries| - 1][1..] == rest[..|rest| - 1];
      if Admits(e, messages) { ReplayStep(checkpoint, rest, Insert(messages, e.offset, Mark(checkpoint, e))); }
    }
  }

  /** A request is refused exactly over a window of more than 64 entries, one of which an entry does not fit into what the
      entries before it made, or a full one that does not end in its context. */
  lemma RefusedIff(checkpoint: nat, entries: seq<Entry>, messages: seq<Message>, b: Binding)
    ensures
      var fits := forall k :: 0 <= k < |entries| ==>
                    Replay(checkpoint, entries[..k], messages).Ok? && FitsIn(entries[k], Replay(checkpoint, entries[..k], messages).value);
      var last := entries != [] && entries[|entries| - 1].hash == OfText(b.text);
      Restore(checkpoint, entries, messages, b).Refused? <==> |entries| > 64 || !fits || (|entries| == 64 && !last)
  {
    hide FitsIn, Replay;
    FitsIff(checkpoint, entries, messages);
  }

  lemma {:induction false} FitsIff(checkpoint: nat, entries: seq<Entry>, messages: seq<Message>)
    ensures Replay(checkpoint, entries, messages).Ok? <==>
      forall k :: 0 <= k < |entries| ==>
        Replay(checkpoint, entries[..k], messages).Ok? && FitsIn(entries[k], Replay(checkpoint, entries[..k], messages).value)
    decreases |entries|
  {
    hide FitsIn;
    if entries != [] {
      var front := entries[..|entries| - 1];
      FitsIff(checkpoint, front, messages);
      ReplayStep(checkpoint, entries, messages);
      forall k | 0 <= k < |front| ensures entries[..k] == front[..k] && entries[k] == front[k] { }
      assert entries[..|front|] == front;
    }
  }

  // ----- Texts

  predicate High(u: Unit) {
    0xD800 <= u < 0xDC00
  }

  predicate Low(u: Unit) {
    0xDC00 <= u < 0xE000
  }

  /** A part ends after 8000 units, one earlier before a surrogate that begins a pair there, or with the text; and so never
      between the two of a pair. */
  lemma PartEndsExactly(text: Text, position: nat)
    requires position < |text|
    ensures
      var end := PartEnd(text, position);
      && (|text| - position <= 8000 <==> end == |text|)
      && (end < |text| ==> end == (if High(text[position + 7999]) then position + 7999 else position + 8000))
      && (end < |text| ==> !(High(text[end - 1]) && Low(text[end])))
  {
  }

  lemma {:induction false} PartsAtMost(text: Text, position: nat, n: nat)
    requires position <= |text| && |text| - position <= 7999 * n
    ensures |Parts(text, position)| <= n
    decreases |text| - position
  {
    if position < |text| {
      PartEndsExactly(text, position);
      PartsAtMost(text, PartEnd(text, position), n - 1);
    }
  }

  lemma {:induction false} PartsAtLeast(text: Text, position: nat, n: nat)
    requires position <= |text| && 8000 * n < |text| - position
    ensures |Parts(text, position)| > n
    decreases |text| - position
  {
    if n > 0 { PartsAtLeast(text, PartEnd(text, position), n - 1); }
  }

  /** The codec takes every text of up to 255968 units but the empty one, and none of more than 256000; in between it depends on
      the pairs. */
  lemma ValidTextBetween(text: Text)
    ensures 0 < |text| <= 255_968 ==> ValidText(text)
    ensures ValidText(text) ==> 0 < |text| <= 256_000
  {
    if |text| <= 255_968 { PartsAtMost(text, 0, 32); }
    if |text| > 256_000 { PartsAtLeast(text, 0, 32); }
  }
}
