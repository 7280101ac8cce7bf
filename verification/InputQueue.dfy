/**
 The input queue of a host browser viewer: one command in 16 milliseconds, with moves and wheel turns
 coalesced while they wait. Wheel deltas are real numbers.
 */
module InputQueue {
  const MAX_QUEUE := 64

  datatype Kind = Move | Press | Up
  datatype Command =
    | Pointer(kind: Kind, at: nat)
    | Touch(kind: Kind, at: nat)
    | Wheel(deltaX: real, deltaY: real, at: nat)
    | Key(key: nat)
    | Control(name: nat)  // claim, take, release, navigation and the like

  /** `sent` and `enqueued` are since the last clear, and `groups` says which commands each of the sent and
      queued ones stands for; all three only for reasoning. */
  datatype State = State(queue: seq<Command>, waiting: bool, releasing: bool,
                         sent: seq<Command>, enqueued: seq<Command>, groups: seq<seq<Command>>)

  /** What the viewer knows and what the socket does, during one step. */
  datatype World = World(connected: bool, canInput: bool, running: bool, sends: bool)

  predicate BothMoves(last: Command, c: Command) {
    || (c.Pointer? && c.kind.Move? && last.Pointer? && last.kind.Move?)
    || (c.Touch? && c.kind.Move? && last.Touch? && last.kind.Move?)
  }

  predicate BothWheels(last: Command, c: Command) {
    c.Wheel? && last.Wheel?
  }

  function Coalesce(last: Command, c: Command): Command
    requires BothMoves(last, c) || BothWheels(last, c)
  {
    if c.Wheel? then c.(deltaX := last.deltaX + c.deltaX, deltaY := last.deltaY + c.deltaY) else c
  }

  function ClearInput(s: State): State {
    State([], false, false, [], [], [])
  }

  function Drain(s: State, w: World): State {
    if s.waiting || s.queue == [] then s
    else if !w.running || !w.sends then ClearInput(s)
    else s.(queue := s.queue[1..], waiting := true, sent := s.sent + [s.queue[0]])
  }

  /** The queue with one more command, coalesced with the last one if it may be. */
  function Queued(s: State, c: Command): State
    requires (s.queue != [] && (BothMoves(s.queue[|s.queue| - 1], c) || BothWheels(s.queue[|s.queue| - 1], c))) || |s.queue| < MAX_QUEUE
  {
    var n := |s.queue|;
    if n > 0 && (BothMoves(s.queue[n - 1], c) || BothWheels(s.queue[n - 1], c)) then
      s.(queue := s.queue[n - 1 := Coalesce(s.queue[n - 1], c)], enqueued := s.enqueued + [c],
         groups := if s.groups == [] then s.groups else s.groups[|s.groups| - 1 := s.groups[|s.groups| - 1] + [c]])
    else s.(queue := s.queue + [c], enqueued := s.enqueued + [c], groups := s.groups + [[c]])
  }

  function Enqueue(s: State, c: Command, control: bool, w: World): State {
    if !w.connected || (!control && (s.releasing || !w.canInput)) then s
    else
      var n := |s.queue|;
      var joins := n > 0 && (BothMoves(s.queue[n - 1], c) || BothWheels(s.queue[n - 1], c));
      if joins || n < MAX_QUEUE then Drain(Queued(s, c), w) else ClearInput(s)
  }

  /** The timer fires. */
  function Tick(s: State, w: World): State {
    Drain(s.(waiting := false), w)
  }

  /** Giving up control drops what is queued. */
  function Release(s: State, owns: bool, c: Command, w: World): State {
    if !owns || s.releasing then s
    else Enqueue(s.(releasing := true, queue := [], sent := [], enqueued := [], groups := []), c, true, w)
  }

  /** A tab state is accepted: control is this viewer's by it or is not, and it may make the queue obsolete. */
  function Accept(s: State, mine: bool, clears: bool): State {
    if clears then ClearInput(s) else s.(releasing := s.releasing && mine)
  }

  datatype Event =
    | Enqueues(c: Command, control: bool)
    | Ticks
    | Releases(owns: bool, c: Command)
    | Accepts(mine: bool, clears: bool)
    | Clears

  function Step(s: State, e: Event, w: World): State {
    match e
    case Enqueues(c, control) => Enqueue(s, c, control, w)
    case Ticks => if s.waiting then Tick(s, w) else s
    case Releases(owns, c) => Release(s, owns, c, w)
    case Accepts(mine, clears) => Accept(s, mine, clears)
    case Clears => ClearInput(s)
  }

  function Run(s: State, steps: seq<(Event, World)>): State
    decreases |steps|
  {
    if steps == [] then s else Run(Step(s, steps[0].0, steps[0].1), steps[1..])
  }

  // ----- What the sent and queued commands stand for

  function Flatten(groups: seq<seq<Command>>): seq<Command> {
    if groups == [] then [] else groups[0] + Flatten(groups[1..])
  }

  function SumX(cs: seq<Command>): real {
    if cs == [] then 0.0 else (if cs[0].Wheel? then cs[0].deltaX else 0.0) + SumX(cs[1..])
  }

  function SumY(cs: seq<Command>): real {
    if cs == [] then 0.0 else (if cs[0].Wheel? then cs[0].deltaY else 0.0) + SumY(cs[1..])
  }

  predicate AllMoves(group: seq<Command>) {
    || (forall i :: 0 <= i < |group| ==> group[i].Pointer? && group[i].kind.Move?)
    || (forall i :: 0 <= i < |group| ==> group[i].Touch? && group[i].kind.Move?)
  }

  predicate AllWheels(group: seq<Command>) {
    forall i :: 0 <= i < |group| ==> group[i].Wheel?
  }

  /** One command for a group: itself, the last of a run of moves, or the sum of a run of wheel turns. */
  predicate StandsFor(c: Command, group: seq<Command>) {
    && group != []
    && (|group| > 1 ==> AllMoves(group) || AllWheels(group))
    && (var last := group[|group| - 1];
        if last.Wheel? then c == last.(deltaX := SumX(group), deltaY := SumY(group)) else c == last)
  }

  ghost predicate Partition(s: State) {
    var out := s.sent + s.queue;
    && Flatten(s.groups) == s.enqueued
    && |s.groups| == |out|
    && (forall i :: 0 <= i < |out| ==> StandsFor(out[i], s.groups[i]))
  }

  ghost predicate Inv(s: State) {
    Partition(s) && |s.queue| <= MAX_QUEUE
  }

  lemma {:induction false} SumConcat(a: seq<Command>, b: seq<Command>)
    ensures SumX(a + b) == SumX(a) + SumX(b) && SumY(a + b) == SumY(a) + SumY(b)
  {
    if a == [] {
      assert a + b == b;
    } else {
      assert (a + b)[1..] == a[1..] + b;
      SumConcat(a[1..], b);
    }
  }

  lemma {:induction false} FlattenLast(groups: seq<seq<Command>>, group: seq<Command>)
    ensures Flatten(groups + [group]) == Flatten(groups) + group
  {
    if groups == [] {
      assert groups + [group] == [group] && [group][1..] == [];
      assert group + [] == group;
    } else {
      assert (groups + [group])[1..] == groups[1..] + [group];
      FlattenLast(groups[1..], group);
    }
  }

  lemma SingleStands(c: Command)
    ensures StandsFor(c, [c])
  {
    if c.Wheel? { assert [c][1..] == []; }
  }

  lemma JoinedStands(last: Command, c: Command, group: seq<Command>)
    requires StandsFor(last, group) && (BothMoves(last, c) || BothWheels(last, c))
    ensures StandsFor(Coalesce(last, c), group + [c])
  {
    SumConcat(group, [c]);
    assert [c][1..] == [];
    var g := group + [c];
    if BothWheels(last, c) {
      assert group[|group| - 1].Wheel?;
      assert forall i :: 0 <= i < |group| ==> group[i].Wheel?;
    } else {
      assert group[|group| - 1] == last;
    }
  }

  predicate Joins(s: State, c: Command) {
    s.queue != [] && (BothMoves(s.queue[|s.queue| - 1], c) || BothWheels(s.queue[|s.queue| - 1], c))
  }

  lemma JoinedInv(s: State, c: Command)
    requires Inv(s) && Joins(s, c)
    ensures Inv(Queued(s, c))
  {
    hide StandsFor, Coalesce, BothMoves, BothWheels;
    var t := Queued(s, c);
    var out, k := s.sent + s.queue, |s.groups|;
    var front, last, joined := s.groups[..k - 1], s.groups[k - 1], s.queue[|s.queue| - 1];
    assert out[k - 1] == joined;
    JoinedStands(joined, c, last);
    assert t.sent + t.queue == out[k - 1 := Coalesce(joined, c)];
    JoinedFlat(s.groups, front, last, c);
    assert t.groups == front + [last + [c]];
  }

  lemma JoinedFlat(groups: seq<seq<Command>>, front: seq<seq<Command>>, last: seq<Command>, c: Command)
    requires groups == front + [last]
    ensures Flatten(front + [last + [c]]) == Flatten(groups) + [c]
  {
    FlattenLast(front, last);
    FlattenLast(front, last + [c]);
    assert Flatten(front) + (last + [c]) == Flatten(front) + last + [c];
  }

  lemma AppendedInv(s: State, c: Command)
    requires Inv(s) && !Joins(s, c) && |s.queue| < MAX_QUEUE
    ensures Inv(Queued(s, c))
  {
    hide StandsFor, Coalesce, BothMoves, BothWheels;
    var t := Queued(s, c);
    SingleStands(c);
    FlattenLast(s.groups, [c]);
    assert t.sent + t.queue == (s.sent + s.queue) + [c];
  }

  lemma QueuedInv(s: State, c: Command)
    requires Inv(s) && (Joins(s, c) || |s.queue| < MAX_QUEUE)
    ensures Inv(Queued(s, c))
  {
    hide Inv, Queued, Joins;
    if Joins(s, c) { JoinedInv(s, c); } else { AppendedInv(s, c); }
  }

  lemma DrainInv(s: State, w: World)
    requires Inv(s)
    ensures Inv(Drain(s, w))
  {
    hide StandsFor;
    if s.queue != [] {
      assert (s.sent + [s.queue[0]]) + s.queue[1..] == s.sent + s.queue;
    }
  }

  lemma StepInv(s: State, e: Event, w: World)
    requires Inv(s)
    ensures Inv(Step(s, e, w))
  {
    hide StandsFor, Queued, Drain, BothMoves, BothWheels;
    match e
    case Enqueues(c, control) => EnqueueInv(s, c, control, w);
    case Ticks => DrainInv(s.(waiting := false), w);
    case Releases(owns, c) =>
      var t := s.(releasing := true, queue := [], sent := [], enqueued := [], groups := []);
      EnqueueInv(t, c, true, w);
    case _ =>
  }

  lemma EnqueueInv(s: State, c: Command, control: bool, w: World)
    requires Inv(s)
    ensures Inv(Enqueue(s, c, control, w))
  {
    hide StandsFor, Queued, Drain, BothMoves, BothWheels;
    var n := |s.queue|;
    if (n > 0 && (BothMoves(s.queue[n - 1], c) || BothWheels(s.queue[n - 1], c))) || n < MAX_QUEUE {
      QueuedInv(s, c);
      DrainInv(Queued(s, c), w);
    }
  }

  /** Between clears, the commands sent followed by those queued are the enqueued ones in consecutive groups,
      each a single command, or a run of moves with its last, or a run of wheel turns with its sum; and at
      most 64 wait. */
  lemma {:induction false} RunInv(s: State, steps: seq<(Event, World)>)
    requires Inv(s)
    ensures Inv(Run(s, steps))
    decreases |steps|
  {
    hide Inv, Step;
    if steps != [] {
      StepInv(s, steps[0].0, steps[0].1);
      RunInv(Step(s, steps[0].0, steps[0].1), steps[1..]);
    }
  }

  /** What is never coalesced. */
  predicate Discrete(c: Command) {
    !c.Wheel? && !((c.Pointer? || c.Touch?) && c.kind.Move?)
  }

  function Discretes(cs: seq<Command>): seq<Command> {
    if cs == [] then [] else (if Discrete(cs[0]) then [cs[0]] else []) + Discretes(cs[1..])
  }

  lemma {:induction false} DiscretesConcat(a: seq<Command>, b: seq<Command>)
    ensures Discretes(a + b) == Discretes(a) + Discretes(b)
  {
    if a == [] {
      assert a + b == b;
    } else {
      assert (a + b)[1..] == a[1..] + b;
      DiscretesConcat(a[1..], b);
    }
  }

  lemma {:induction false} NoDiscretes(group: seq<Command>)
    requires forall i :: 0 <= i < |group| ==> !Discrete(group[i])
    ensures Discretes(group) == []
  {
    if group != [] { NoDiscretes(group[1..]); }
  }

  lemma {:induction false} NoWheels(group: seq<Command>)
    requires forall i :: 0 <= i < |group| ==> !group[i].Wheel?
    ensures SumX(group) == 0.0 && SumY(group) == 0.0
  {
    if group != [] { NoWheels(group[1..]); }
  }

  lemma GroupConserves(c: Command, group: seq<Command>)
    requires StandsFor(c, group)
    ensures SumX(group) == SumX([c]) && SumY(group) == SumY([c]) && Discretes(group) == Discretes([c])
  {
    assert [c][1..] == [];
    if |group| == 1 {
      assert group == [group[0]] && group[1..] == [];
    } else if AllWheels(group) {
      assert group[|group| - 1].Wheel?;
      NoDiscretes(group);
    } else {
      assert !group[|group| - 1].Wheel?;
      NoDiscretes(group);
      NoWheels(group);
    }
  }

  lemma {:induction false} GroupsConserve(out: seq<Command>, groups: seq<seq<Command>>)
    requires |out| == |groups| && forall i :: 0 <= i < |out| ==> StandsFor(out[i], groups[i])
    ensures SumX(Flatten(groups)) == SumX(out) && SumY(Flatten(groups)) == SumY(out)
    ensures Discretes(Flatten(groups)) == Discretes(out)
  {
    hide StandsFor;
    if out != [] {
      GroupConserves(out[0], groups[0]);
      GroupsConserve(out[1..], groups[1..]);
      SumConcat(groups[0], Flatten(groups[1..]));
      DiscretesConcat(groups[0], Flatten(groups[1..]));
      assert out == [out[0]] + out[1..];
      SumConcat([out[0]], out[1..]);
      DiscretesConcat([out[0]], out[1..]);
    }
  }

  /** So no wheel turn is lost or doubled, and keys, buttons and controls keep their number and order. */
  lemma NothingIsLost(s: State)
    requires Inv(s)
    ensures SumX(s.sent + s.queue) == SumX(s.enqueued) && SumY(s.sent + s.queue) == SumY(s.enqueued)
    ensures Discretes(s.sent + s.queue) == Discretes(s.enqueued)
  {
    hide StandsFor;
    GroupsConserve(s.sent + s.queue, s.groups);
  }

  /** One more command is one more, coalesced or not: the sums and the discrete commands grow by it, and nothing
      else changes but that at most one command is sent. */
  lemma EnqueueAdds(s: State, c: Command, control: bool, w: World)
    requires Inv(s)
    ensures
      var t := Enqueue(s, c, control, w);
      if !w.connected || (!control && (s.releasing || !w.canInput)) then t == s
      else t == ClearInput(s) || (t.enqueued == s.enqueued + [c] && Adds(s, t, c) && t.releasing == s.releasing && OneMore(s, t))
  {
    hide Flatten, StandsFor, SumX, SumY, Discretes;
    var t := Enqueue(s, c, control, w);
    EnqueueInv(s, c, control, w);
    if t.enqueued == s.enqueued + [c] {
      NothingIsLost(s);
      NothingIsLost(t);
      SumConcat(s.enqueued, [c]);
      DiscretesConcat(s.enqueued, [c]);
    }
  }

  predicate Adds(s: State, t: State, c: Command) {
    && SumX(t.sent + t.queue) == SumX(s.sent + s.queue) + SumX([c])
    && SumY(t.sent + t.queue) == SumY(s.sent + s.queue) + SumY([c])
    && Discretes(t.sent + t.queue) == Discretes(s.sent + s.queue) + Discretes([c])
  }

  /** Nothing is sent while the timer runs, and sending starts it. */
  predicate OneMore(s: State, t: State) {
    t.sent == s.sent || (!s.waiting && t.waiting && |t.sent| == |s.sent| + 1 && t.sent[..|s.sent|] == s.sent)
  }

  // ----- Giving up control

  /** Control is being given up all along. */
  predicate Releasing(s: State, steps: seq<(Event, World)>)
    decreases |steps|
  {
    s.releasing && (steps == [] || Releasing(Step(s, steps[0].0, steps[0].1), steps[1..]))
  }

  function ControlOf(e: Event, w: World): seq<Command> {
    if e.Enqueues? && e.control && w.connected then [e.c] else []
  }

  function ControlsOf(steps: seq<(Event, World)>): seq<Command> {
    if steps == [] then [] else ControlOf(steps[0].0, steps[0].1) + ControlsOf(steps[1..])
  }

  /** As long as control is being given up, only control commands join the queue; a state by which control is
      somebody else's ends it, and so does everything that clears the queue. */
  lemma {:induction false} OnlyControlsJoin(s: State, steps: seq<(Event, World)>)
    requires Releasing(s, steps)
    ensures Run(s, steps).enqueued == s.enqueued + ControlsOf(steps)
    decreases |steps|
  {
    hide Step, ControlOf;
    if steps != [] {
      var (e, w) := steps[0];
      ControlJoins(s, e, w);
      OnlyControlsJoin(Step(s, e, w), steps[1..]);
    }
  }

  lemma ControlJoins(s: State, e: Event, w: World)
    requires s.releasing && Step(s, e, w).releasing
    ensures Step(s, e, w).enqueued == s.enqueued + ControlOf(e, w)
  {
    hide BothMoves, BothWheels;
  }

  // ----- The viewer

  class Viewer {
    var queue: seq<Command>
    var inputTimer: bool
    var releasing: bool
    ghost var sent: seq<Command>
    ghost var enqueued: seq<Command>
    ghost var groups: seq<seq<Command>>

    ghost function View(): State
      reads this
    {
      State(queue, inputTimer, releasing, sent, enqueued, groups)
    }

    /** The sent and queued commands stand for the enqueued ones, in order. */
    ghost predicate Valid()
      reads this
    {
      Inv(View())
    }

    constructor ()
      ensures View() == State([], false, false, [], [], []) && Valid()
    {
      queue, inputTimer, releasing := [], false, false;
      sent, enqueued, groups := [], [], [];
    }

    method Clear()
      modifies this
      ensures Valid() && View() == ClearInput(old(View()))
    {
      queue, releasing, inputTimer := [], false, false;
      sent, enqueued, groups := [], [], [];
    }

    /** Unless the queue is dropped, what is sent and queued stays the same commands in the same order; one is
        sent if one waits and the timer is not running. */
    method DrainInput(w: World)
      requires Valid()
      modifies this
      ensures Valid() && View() == Drain(old(View()), w)
      ensures View() != ClearInput(old(View())) ==> sent + queue == old(sent + queue) && releasing == old(releasing)
      ensures OneMore(old(View()), View()) || View() == ClearInput(old(View()))
      ensures queue == [] || inputTimer
    {
      DrainInv(View(), w);
      if inputTimer || queue == [] { return; }
      var command := queue[0];
      assert sent + queue == (sent + [command]) + queue[1..];
      queue := queue[1..];
      if !w.running || !w.sends {
        Clear();
        return;
      }
      sent := sent + [command];
      inputTimer := true;
    }

    /** A command that is let in adds itself to what is sent and queued, coalesced or not, unless the queue is
        dropped; any other changes nothing. */
    method EnqueueInput(c: Command, control: bool, w: World)
      requires Valid()
      modifies this
      ensures Valid() && View() == Enqueue(old(View()), c, control, w)
      ensures
        if !w.connected || (!control && (old(releasing) || !w.canInput)) then View() == old(View())
        else View() == ClearInput(old(View())) || (enqueued == old(enqueued) + [c] && Adds(old(View()), View(), c))
      ensures OneMore(old(View()), View()) || View() == ClearInput(old(View()))
    {
      hide Drain, BothMoves, BothWheels, Queued, Inv, Adds, OneMore;
      EnqueueInv(View(), c, control, w);
      EnqueueAdds(View(), c, control, w);
      if !w.connected || (!control && (releasing || !w.canInput)) {
        Stays();
        return;
      }
      var n := |queue|;
      if n > 0 && (BothMoves(queue[n - 1], c) || BothWheels(queue[n - 1], c)) {
        Join(c);
      } else if n < MAX_QUEUE {
        Append(c);
      } else {
        Clear();
        return;
      }
      DrainInput(w);
    }

    method Join(c: Command)
      requires Valid() && Joins(View(), c)
      modifies this
      ensures Valid() && View() == Queued(old(View()), c)
    {
      QueuedInv(View(), c);
      var n := |queue|;
      queue := queue[n - 1 := Coalesce(queue[n - 1], c)];
      enqueued := enqueued + [c];
      if groups != [] { groups := groups[|groups| - 1 := groups[|groups| - 1] + [c]]; }
    }

    method Append(c: Command)
      requires Valid() && !Joins(View(), c) && |queue| < MAX_QUEUE
      modifies this
      ensures Valid() && View() == Queued(old(View()), c)
    {
      QueuedInv(View(), c);
      queue := queue + [c];
      enqueued := enqueued + [c];
      groups := groups + [[c]];
    }

    lemma Stays()
      ensures OneMore(View(), View())
    {
    }

    /** Giving up control drops what was queued: afterwards the release is all there is, or nothing, and no input
        is let in. */
    method ReleaseControl(owns: bool, c: Command, w: World)
      requires Valid()
      modifies this
      ensures Valid() && View() == Release(old(View()), owns, c, w)
      ensures
        if !owns || old(releasing) then View() == old(View())
        else View() == ClearInput(old(View())) || (releasing && sent + queue == if w.connected then [c] else [])
    {
      hide StandsFor;
      if !owns || releasing { return; }
      releasing, queue := true, [];
      sent, enqueued, groups := [], [], [];
      assert Valid();
      EnqueueInput(c, true, w);
    }

    /** The state decides whose control is, and whether the queue has become obsolete. */
    method AcceptControl(mine: bool, clears: bool)
      requires Valid()
      modifies this
      ensures Valid() && View() == Accept(old(View()), mine, clears)
      ensures releasing <==> old(releasing) && mine && !clears
      ensures clears ==> queue == []
      ensures !clears ==> queue == old(queue)
    {
      if !mine { releasing := false; }
      if clears { Clear(); }
    }

    method TimerFires(w: World)
      requires Valid() && inputTimer
      modifies this
      ensures Valid() && View() == Step(old(View()), Ticks, w)
      ensures View() != ClearInput(old(View())) ==> sent + queue == old(sent + queue) && |sent| <= |old(sent)| + 1
      ensures queue == [] || inputTimer
    {
      inputTimer := false;
      DrainInput(w);
    }
  }
}
