/**
 When input of a host browser viewer is delivered and when it is dropped: exactly the cases in which the queue is
 given up, and that everything else is sent, in order, by the timer.
 */
module InputDelivery {
  import opened InputQueue

  /** Two commands that become one: moves of the pointer, moves of a finger, and turns of the wheel. */
  predicate Merges(last: Command, c: Command) {
    match (last, c)
    case (Pointer(Move, _), Pointer(Move, _)) => true
    case (Touch(Move, _), Touch(Move, _)) => true
    case (Wheel(_, _, _), Wheel(_, _, _)) => true
    case _ => false
  }

  /** The later position; and of turns the whole way. */
  function Merged(last: Command, c: Command): Command {
    match (last, c)
    case (Wheel(x, y, _), Wheel(u, v, at)) => Wheel(x + u, y + v, at)
    case _ => c
  }

  /** Everything that is to arrive: what was sent, and what waits. */
  function Out(s: State): seq<Command> {
    s.sent + s.queue
  }

  /** With one more command: merged into the last that waits, or behind it. */
  function With(s: State, c: Command): seq<Command> {
    if s.queue != [] && Merges(s.queue[|s.queue| - 1], c) then
      s.sent + s.queue[..|s.queue| - 1] + [Merged(s.queue[|s.queue| - 1], c)]
    else Out(s) + [c]
  }

  predicate Empty(s: State) {
    s.queue == [] && s.sent == [] && !s.waiting && !s.releasing
  }

  /** The command is let in: the viewer is connected, and it is a control command, or input is open and control is not
      being given up. */
  predicate LetIn(s: State, control: bool, w: World) {
    w.connected && (control || (!s.releasing && w.canInput))
  }

  /** There is no room for it: 64 wait, and it merges with none. */
  predicate Crowded(s: State, c: Command) {
    |s.queue| >= 64 && !Merges(s.queue[|s.queue| - 1], c)
  }

  /** What waits cannot go: no timer is to send it, and the tab does not run or the socket refuses. */
  predicate Blocked(s: State, w: World) {
    !s.waiting && !(w.running && w.sends)
  }

  lemma DrainExactly(s: State, w: World)
    requires s.queue != []
    ensures
      var t := Drain(s, w);
      if Blocked(s, w) then Empty(t)
      else Out(t) == Out(s) && t.waiting && t.releasing == s.releasing
           && |t.sent| == |s.sent| + (if s.waiting then 0 else 1) && s.sent <= t.sent
  {
    assert s.queue == [s.queue[0]] + s.queue[1..];
  }

  lemma QueuedExactly(s: State, c: Command)
    requires !Crowded(s, c)
    ensures Joins(s, c) || |s.queue| < MAX_QUEUE
    ensures
      var t := Queued(s, c);
      Out(t) == With(s, c) && t.queue != [] && t.sent == s.sent && t.waiting == s.waiting && t.releasing == s.releasing
  {
  }

  /** A command that is not let in changes nothing. One that is, is dropped with everything that waits exactly if there
      is no room for it or what waits cannot go; otherwise it is to arrive behind everything else, and one command is
      sent now exactly if no timer runs. */
  lemma EnqueueExactly(s: State, c: Command, control: bool, w: World)
    ensures
      var t := Enqueue(s, c, control, w);
      if !LetIn(s, control, w) then t == s
      else if Crowded(s, c) || Blocked(s, w) then Empty(t)
      else Out(t) == With(s, c) && t.waiting && t.releasing == s.releasing
           && |t.sent| == |s.sent| + (if s.waiting then 0 else 1) && s.sent <= t.sent
  {
    hide Drain, Queued, BothMoves, BothWheels;
    assert Joins(s, c) <==> s.queue != [] && Merges(s.queue[|s.queue| - 1], c) by { JoinsIff(s, c); }
    if LetIn(s, control, w) && !Crowded(s, c) {
      QueuedExactly(s, c);
      DrainExactly(Queued(s, c), w);
    }
  }

  lemma JoinsIff(s: State, c: Command)
    ensures Joins(s, c) <==> s.queue != [] && Merges(s.queue[|s.queue| - 1], c)
  {
  }

  /** When the timer fires the next command is sent, or everything is dropped because it cannot be; with nothing waiting
      the timer is over. */
  lemma TickExactly(s: State, w: World)
    ensures
      var t := Step(s, Ticks, w);
      if !s.waiting then t == s
      else if s.queue == [] then t == s.(waiting := false)
      else if !(w.running && w.sends) then Empty(t)
      else Out(t) == Out(s) && t.waiting && t.sent == s.sent + [s.queue[0]] && t.releasing == s.releasing
  {
    assert s.queue != [] ==> s.queue == [s.queue[0]] + s.queue[1..];
  }

  /** Giving up control: only its owner, once; what waited is dropped and the release is all there is, unless it cannot
      go. */
  lemma ReleaseExactly(s: State, owns: bool, c: Command, w: World)
    ensures
      var t := Step(s, Releases(owns, c), w);
      if !owns || s.releasing then t == s
      else if !w.connected then t.releasing && Out(t) == [] && t.waiting == s.waiting
      else if Blocked(s, w) then Empty(t)
      else t.releasing && t.waiting && Out(t) == [c] && (t.sent == [c] <==> !s.waiting)
  {
    hide Drain, Queued;
    var u := s.(releasing := true, queue := [], sent := [], enqueued := [], groups := []);
    if owns && !s.releasing && w.connected {
      assert !Crowded(u, c) && With(u, c) == [c];
      QueuedExactly(u, c);
      DrainExactly(Queued(u, c), w);
    }
  }

  /** A state that makes the queue obsolete drops it; otherwise giving up control goes on exactly as long as control is
      still this viewer's. */
  lemma AcceptExactly(s: State, mine: bool, clears: bool, w: World)
    ensures
      var t := Step(s, Accepts(mine, clears), w);
      if clears then Empty(t) else Out(t) == Out(s) && t.sent == s.sent && t.waiting == s.waiting && (t.releasing <==> s.releasing && mine)
    ensures Empty(Step(s, Clears, w))
  {
  }

  // ----- Everything that waits is sent

  const FINE := World(true, true, true, true)

  function Ticking(n: nat): seq<(Event, World)> {
    if n == 0 then [] else [(Ticks, FINE)] + Ticking(n - 1)
  }

  /** As long as the tab runs and the socket takes it, the timer sends everything that waits, in order, one command at a
      time; and then it stops. */
  lemma {:induction false} TimerSendsAll(s: State)
    requires s.waiting
    ensures
      var t := Run(s, Ticking(|s.queue| + 1));
      t.sent == Out(s) && t.queue == [] && !t.waiting && t.releasing == s.releasing
    decreases |s.queue|
  {
    hide Step;
    var t := Step(s, Ticks, FINE);
    TickExactly(s, FINE);
    assert Ticking(|s.queue| + 1)[1..] == Ticking(|s.queue|);
    if s.queue == [] {
      assert Run(s, Ticking(1)) == Run(t, []);
      assert Out(s) == s.sent;
    } else {
      assert t.queue == s.queue[1..] by { assert Out(t) == Out(s); assert t.queue == Out(t)[|t.sent|..]; }
      TimerSendsAll(t);
    }
  }
}
