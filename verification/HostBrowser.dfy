/**
 What a host browser viewer shows: tab states in order of generation and document, and frames drawn and
 acknowledged one at a time, in the order in which they came. Both change what counts as ready, which opens
 the input.
 */
module HostBrowser {
  import opened Wrappers
  import I = InputQueue

  datatype Status = Absent | Running | Stopped
  datatype Tab = Tab(status: Status, generation: nat, documentId: nat, targetId: nat, controller: Option<nat>)
  datatype Frame = Frame(seqno: nat, generation: nat, documentId: nat)

  /** `attachment` is this viewer's own. `picture` is the frame on the canvas, for reasoning only. */
  datatype Shown = Shown(tab: Option<Tab>, ready: bool, connected: bool, attachment: Option<nat>, picture: Option<Frame>)

  /** A socket that broke is closing, and still the current one, until it is gone. */
  datatype Link = Gone | Open | Closing

  /** `drawing` is the frame in hand, with the socket it came on. `received` and `acked` are of the current
      socket. */
  datatype Stream = Stream(socket: nat, link: Link, frames: seq<Frame>, drawing: Option<(nat, Frame)>,
                           received: seq<Frame>, acked: seq<Frame>)

  datatype Screen = Screen(shown: Shown, stream: Stream)

  const MAX_FRAMES := 2

  // ----- Tab states

  /** A state that came too late. */
  predicate Older(t: Tab, previous: Tab) {
    t.generation < previous.generation || (t.generation == previous.generation && t.documentId < previous.documentId)
  }

  predicate Taken(s: Shown, t: Tab) {
    s.tab.None? || t.status.Absent? || !Older(t, s.tab.value)
  }

  predicate NewDocument(s: Shown, t: Tab) {
    s.tab.None? || s.tab.value.targetId != t.targetId || s.tab.value.documentId != t.documentId || !t.status.Running?
  }

  function Accept(s: Shown, t: Tab): Shown {
    if !Taken(s, t) then s
    else s.(tab := Some(t), ready := s.ready && !NewDocument(s, t), picture := if t.status.Running? then s.picture else None)
  }

  /** Input that was meant for what is gone, or for somebody else's control, is dropped. */
  predicate Clears(s: Shown, t: Tab) {
    && Taken(s, t)
    && (!t.status.Running? || (s.tab.Some? && t.generation != s.tab.value.generation)
        || (t.controller.Some? && t.controller != s.attachment))
  }

  // ----- Frames

  /** Take the next frame in hand, if there is one and nothing is in hand. */
  function Draw(s: Stream): Stream {
    if s.drawing.Some? || s.frames == [] || s.link.Gone? then s
    else s.(drawing := Some((s.socket, s.frames[0])), frames := s.frames[1..])
  }

  /** A decoded frame is drawn if it is of the generation that is shown. That is all it is looked at for. */
  function Paint(s: Shown, frame: Frame): Shown {
    if s.tab.Some? && s.tab.value.status.Running? && s.tab.value.generation == frame.generation
    then s.(ready := true, picture := Some(frame)) else s
  }

  datatype Event =
    | Connects
    | Closes                           // the socket is gone, or is let go of
    | Greets(attachment: nat, t: Tab)  // the first message of a socket
    | Reports(t: Tab)                  // a state, from the socket or from a read
    | Arrives(frame: Frame)
    | Decodes(ok: bool)                // the frame in hand is decoded, or is not

  function Connected(s: Stream): Stream {
    if !s.link.Gone? then s else Stream(s.socket + 1, Open, [], s.drawing, [], [])
  }

  function Arrived(s: Stream, frame: Frame): Stream {
    if !s.link.Open? then s
    else if |s.frames| >= MAX_FRAMES then s.(link := Closing)
    else Draw(s.(frames := s.frames + [frame], received := s.received + [frame]))
  }

  /** The frame in hand is done with: acknowledged if it was decoded, drawn or not. */
  function Decoded(s: Stream, ok: bool): Stream {
    if s.drawing.None? then s
    else
      var (socket, frame) := s.drawing.value;
      var free := s.(drawing := None);
      if s.link.Gone? then free
      else if socket != s.socket then Draw(free)
      else if !ok then Draw(free.(link := Closing))
      else Draw(if s.link.Open? then free.(acked := s.acked + [frame]) else free)
  }

  /** The frames of the current socket that are yet to be drawn. */
  function InHand(s: Stream): seq<Frame> {
    if !s.link.Gone? && s.drawing.Some? && s.drawing.value.0 == s.socket then [s.drawing.value.1] else []
  }

  function Pending(s: Stream): seq<Frame> {
    InHand(s) + s.frames
  }

  function Step(s: Screen, e: Event): Screen {
    match e
    case Connects => s.(stream := Connected(s.stream))
    case Closes =>
      s.(shown := s.shown.(ready := false, connected := false, attachment := None), stream := s.stream.(link := Gone, frames := []))
    case Greets(attachment, t) =>
      if s.stream.link.Open? then s.(shown := Accept(s.shown.(connected := true, attachment := Some(attachment)), t)) else s
    case Reports(t) => s.(shown := Accept(s.shown, t))
    case Arrives(frame) => s.(stream := Arrived(s.stream, frame))
    case Decodes(ok) =>
      Screen(if ok && InHand(s.stream) != [] then Paint(s.shown, InHand(s.stream)[0]) else s.shown, Decoded(s.stream, ok))
  }

  function Run(s: Screen, events: seq<Event>): Screen
    decreases |events|
  {
    if events == [] then s else Run(Step(s, events[0]), events[1..])
  }

  // ----- What every step keeps

  ghost predicate StreamOk(s: Stream) {
    && |s.frames| <= MAX_FRAMES
    && (s.drawing.Some? ==> s.drawing.value.0 <= s.socket)
    && (s.link.Open? ==> s.received == s.acked + Pending(s))
    && (s.frames != [] ==> s.drawing.Some? && !s.link.Gone?)
    && s.acked <= s.received
  }

  ghost predicate Inv(s: Screen) {
    && StreamOk(s.stream)
    && (s.shown.ready ==> s.shown.tab.Some? && s.shown.tab.value.status.Running? && s.shown.picture.Some? && !s.stream.link.Gone?)
  }

  lemma DrawOk(s: Stream)
    requires |s.frames| <= MAX_FRAMES && (s.drawing.Some? ==> s.drawing.value.0 <= s.socket) && s.acked <= s.received
    requires (s.link.Open? ==> s.received == s.acked + Pending(s)) && (s.frames != [] ==> !s.link.Gone?)
    ensures StreamOk(Draw(s)) && Pending(Draw(s)) == Pending(s) && Draw(s).link == s.link
  {
  }

  lemma ArrivedOk(s: Stream, frame: Frame)
    requires StreamOk(s)
    ensures
      var t := Arrived(s, frame);
      && StreamOk(t) && (t.link.Gone? <==> s.link.Gone?) && t.acked == s.acked
      && (s.link.Open? && |s.frames| >= MAX_FRAMES ==> t.link.Closing?)
      && Pending(t) == if s.link.Open? && |s.frames| < MAX_FRAMES then Pending(s) + [frame] else Pending(s)
  {
    if s.link.Open? && |s.frames| < MAX_FRAMES {
      var t := s.(frames := s.frames + [frame], received := s.received + [frame]);
      assert Pending(t) == Pending(s) + [frame];
      assert t.received == t.acked + Pending(t);
      DrawOk(t);
    }
  }

  lemma DecodedOk(s: Stream, ok: bool)
    requires StreamOk(s)
    ensures
      var t := Decoded(s, ok);
      StreamOk(t) && (t.link.Gone? <==> s.link.Gone?) && Pending(t) == Pending(s)[|InHand(s)|..]
  {
    if s.drawing.Some? && !s.link.Gone? {
      var (socket, frame) := s.drawing.value;
      var free := s.(drawing := None);
      assert Pending(free) == Pending(s)[|InHand(s)|..];
      if socket == s.socket {
        assert s.link.Open? ==> s.received == s.acked + [frame] + s.frames;
        if !ok { DrawOk(free.(link := Closing)); }
        else { DrawOk(if s.link.Open? then free.(acked := s.acked + [frame]) else free); }
      } else {
        DrawOk(free);
      }
    }
  }

  lemma StepInv(s: Screen, e: Event)
    requires Inv(s)
    ensures Inv(Step(s, e))
  {
    hide Arrived, Decoded;
    match e
    case Arrives(frame) => ArrivedOk(s.stream, frame);
    case Decodes(ok) => DecodedOk(s.stream, ok);
    case _ =>
  }

  /** On one socket every frame is acknowledged at most once, in the order received, when it was decoded, and
      at most two wait while one is decoded: as long as the socket is open, what was received is what was
      acknowledged, the one in hand, and the ones that wait. */
  lemma {:induction false} FramesInOrder(s: Screen, events: seq<Event>)
    requires Inv(s)
    ensures
      var t := Run(s, events);
      && Inv(t) && t.stream.acked <= t.stream.received && |t.stream.frames| <= MAX_FRAMES
      && (t.stream.link.Open? ==> t.stream.received == t.stream.acked + InHand(t.stream) + t.stream.frames)
    decreases |events|
  {
    hide Step;
    if events == [] {
      assert s.stream.link.Open? ==> s.stream.acked + Pending(s.stream) == s.stream.acked + InHand(s.stream) + s.stream.frames;
    } else {
      StepInv(s, events[0]);
      FramesInOrder(Step(s, events[0]), events[1..]);
    }
  }

  lemma NotOlder(a: Tab, b: Tab, c: Tab)
    requires !Older(b, a) && !Older(c, b)
    ensures !Older(c, a)
  {
  }

  predicate NeverAbsent(events: seq<Event>) {
    forall i :: 0 <= i < |events| ==>
      (events[i].Reports? || events[i].Greets? ==> !events[i].t.status.Absent?)
  }

  /** Whatever order states and frames come in, a tab that does not go away never shows an older generation or
      document. */
  lemma {:induction false} NeverOlder(s: Screen, events: seq<Event>)
    requires s.shown.tab.Some? && NeverAbsent(events)
    ensures Run(s, events).shown.tab.Some? && !Older(Run(s, events).shown.tab.value, s.shown.tab.value)
    decreases |events|
  {
    hide Decoded, Arrived, Connected;
    if events != [] {
      var t := Step(s, events[0]);
      assert t.shown.tab.Some? && !Older(t.shown.tab.value, s.shown.tab.value);
      NeverOlder(t, events[1..]);
      NotOlder(s.shown.tab.value, t.shown.tab.value, Run(t, events[1..]).shown.tab.value);
    }
  }

  // ----- What ready stands for

  /** A frame of the tab's generation that shows another document. */
  predicate Mismatch(f: Frame, t: Tab) {
    f.generation == t.generation && f.documentId != t.documentId
  }

  /** The input is open over the picture of another document. */
  predicate Wrong(s: Screen) {
    && s.shown.ready && s.shown.tab.Some?
    && (s.shown.picture.None? || s.shown.picture.value.generation != s.shown.tab.value.generation
        || s.shown.picture.value.documentId != s.shown.tab.value.documentId)
  }

  /** A frame of the shown generation, but of another document, is in hand or waits. */
  predicate Leftover(s: Screen) {
    s.shown.tab.Some? && exists f :: f in Pending(s.stream) && Mismatch(f, s.shown.tab.value)
  }

  predicate Sound(s: Screen) {
    !Wrong(s) && !Leftover(s)
  }

  /** The event has the viewer take this state. */
  predicate Takes(s: Screen, e: Event) {
    (e.Reports? || (e.Greets? && s.stream.link.Open?)) && Taken(s.shown, e.t)
  }

  /** A frame is taken in that is not of the shown document, or a state is accepted while a frame of its
      generation and of another document is in hand or waits, or one that gives the shown document another
      generation. */
  predicate Upsets(s: Screen, e: Event) {
    || (e.Arrives? && s.stream.link.Open? && |s.stream.frames| < MAX_FRAMES && s.shown.tab.Some? && Mismatch(e.frame, s.shown.tab.value))
    || (Takes(s, e) && exists f :: f in Pending(s.stream) && Mismatch(f, e.t))
    || (Takes(s, e) && s.shown.ready && !NewDocument(s.shown, e.t) && e.t.generation != s.shown.tab.value.generation)
  }

  /** One event at a time: exactly these upset a sound screen. */
  lemma SoundIff(s: Screen, e: Event)
    requires Inv(s) && Sound(s)
    ensures Sound(Step(s, e)) <==> !Upsets(s, e)
  {
    hide Arrived, Decoded, Connected;
    match e
    case Connects => NoneOf(s);
    case Closes =>
    case Greets(_, t) => AcceptSound(s, e);
    case Reports(t) => AcceptSound(s, e);
    case Arrives(frame) =>
      ArrivedOk(s.stream, frame);
      ArrivesSound(s, frame);
    case Decodes(ok) =>
      DecodedOk(s.stream, ok);
      DecodesSound(s, ok);
  }

  lemma NoneOf(s: Screen)
    requires Inv(s) && Sound(s)
    ensures Sound(Step(s, Connects))
  {
    var t := Connected(s.stream);
    if s.stream.link.Gone? { assert Pending(t) == []; }
  }

  lemma AcceptSound(s: Screen, e: Event)
    requires Inv(s) && Sound(s) && (e.Greets? || e.Reports?)
    ensures Sound(Step(s, e)) <==> !Upsets(s, e)
  {
    hide Pending;
  }

  lemma ArrivesSound(s: Screen, frame: Frame)
    requires Inv(s) && Sound(s)
    requires Pending(Arrived(s.stream, frame)) == if s.stream.link.Open? && |s.stream.frames| < MAX_FRAMES then Pending(s.stream) + [frame] else Pending(s.stream)
    ensures Sound(Step(s, Arrives(frame))) <==> !Upsets(s, Arrives(frame))
  {
    hide Pending, Arrived;
    var t := Step(s, Arrives(frame));
    if s.stream.link.Open? && |s.stream.frames| < MAX_FRAMES {
      assert frame in Pending(t.stream);
    }
  }

  lemma DecodesSound(s: Screen, ok: bool)
    requires Inv(s) && Sound(s)
    requires Pending(Decoded(s.stream, ok)) == Pending(s.stream)[|InHand(s.stream)|..]
    ensures Sound(Step(s, Decodes(ok)))
  {
    hide Decoded;
    var t := Step(s, Decodes(ok));
    assert InHand(s.stream) != [] ==> InHand(s.stream)[0] in Pending(s.stream);
    assert forall f :: f in Pending(t.stream) ==> f in Pending(s.stream);
    assert t.shown.tab == s.shown.tab;
    assert !Leftover(t);
  }

  predicate Quiet(s: Screen, events: seq<Event>)
    decreases |events|
  {
    events == [] || (!Upsets(s, events[0]) && Quiet(Step(s, events[0]), events[1..]))
  }

  /** Over whole runs: while no event upsets it, ready means that the picture is of the shown document. */
  lemma {:induction false} ReadyMeansDrawn(s: Screen, events: seq<Event>)
    requires Inv(s) && Sound(s) && Quiet(s, events)
    ensures
      var t := Run(s, events);
      && Inv(t) && Sound(t)
      && (t.shown.ready ==>
            && t.shown.tab.Some? && t.shown.tab.value.status.Running? && t.shown.picture.Some?
            && t.shown.picture.value.generation == t.shown.tab.value.generation
            && t.shown.picture.value.documentId == t.shown.tab.value.documentId)
    decreases |events|
  {
    hide Step, Upsets, Leftover;
    if events != [] {
      StepInv(s, events[0]);
      SoundIff(s, events[0]);
      ReadyMeansDrawn(Step(s, events[0]), events[1..]);
    }
  }

  function AllDecode(n: nat): seq<Event> {
    seq(n, _ => Decodes(true))
  }

  /** And once upset, nothing but time is needed: exactly then a running tab becomes ready over the picture of
      another document by decodes alone. */
  lemma GoesWrongIff(s: Screen)
    requires Inv(s) && s.shown.tab.Some? && s.shown.tab.value.status.Running?
    ensures (exists n :: Wrong(Run(s, AllDecode(n)))) <==> !Sound(s)
  {
    hide Wrong, Leftover;
    if Wrong(s) {
      assert Run(s, AllDecode(0)) == s;
    } else if Leftover(s) {
      var n := DecodesToWrong(s);
      assert Wrong(Run(s, AllDecode(n)));
    } else {
      forall n: nat ensures !Wrong(Run(s, AllDecode(n))) { StaysRight(s, n); }
    }
  }

  lemma {:induction false} StaysRight(s: Screen, n: nat)
    requires Inv(s) && Sound(s)
    ensures !Wrong(Run(s, AllDecode(n)))
    decreases n
  {
    hide Step, Wrong, Leftover;
    if n > 0 {
      assert AllDecode(n)[1..] == AllDecode(n - 1);
      StepInv(s, Decodes(true));
      DecodedOk(s.stream, true);
      DecodesSound(s, true);
      StaysRight(Step(s, Decodes(true)), n - 1);
    }
  }

  /** A decode, with what it leaves. */
  lemma OneDecode(s: Screen)
    requires Inv(s) && s.shown.tab.Some? && s.shown.tab.value.status.Running?
    ensures
      var t := Step(s, Decodes(true));
      && Inv(t) && t.shown.tab == s.shown.tab
      && Pending(t.stream) == Pending(s.stream)[|InHand(s.stream)|..]
      && (InHand(s.stream) != [] && Mismatch(InHand(s.stream)[0], s.shown.tab.value) ==> Wrong(t))
  {
    hide Decoded;
    StepInv(s, Decodes(true));
    DecodedOk(s.stream, true);
  }

  lemma {:induction false} DecodesToWrong(s: Screen) returns (n: nat)
    requires Inv(s) && s.shown.tab.Some? && s.shown.tab.value.status.Running? && Leftover(s)
    ensures Wrong(Run(s, AllDecode(n)))
    decreases |Pending(s.stream)|, |s.stream.frames|
  {
    hide Step, Decoded, Wrong;
    var t := Step(s, Decodes(true));
    OneDecode(s);
    if InHand(s.stream) != [] && Mismatch(InHand(s.stream)[0], s.shown.tab.value) {
      n := 1;
      assert AllDecode(1)[1..] == [];
      assert Run(s, AllDecode(1)) == Run(t, []);
    } else {
      var f :| f in Pending(s.stream) && Mismatch(f, s.shown.tab.value);
      assert f in Pending(t.stream);
      if InHand(s.stream) == [] { TakesInHand(s); }
      var m := DecodesToWrong(t);
      n := m + 1;
      assert AllDecode(n)[1..] == AllDecode(m);
    }
  }

  /** With nothing of this socket in hand, a decode takes the first frame that waits. */
  lemma TakesInHand(s: Screen)
    requires Inv(s) && InHand(s.stream) == [] && s.stream.frames != []
    ensures |Step(s, Decodes(true)).stream.frames| < |s.stream.frames|
  {
  }

  /** Concretely: the page navigates while a frame of the old document is being decoded, and the input is open
      over the old picture. */
  lemma OldPictureCountsAsReady()
    ensures
      var one, two := Tab(Running, 1, 1, 1, None), Tab(Running, 1, 2, 1, None);
      var s := Run(START, [Connects, Greets(7, one), Arrives(Frame(1, 1, 1)), Reports(two), Decodes(true)]);
      s.shown.tab == Some(two) && s.shown.picture == Some(Frame(1, 1, 1)) && CanInput(s.shown) && Wrong(s)
  {
    var one, two, f := Tab(Running, 1, 1, 1, None), Tab(Running, 1, 2, 1, None), Frame(1, 1, 1);
    var e := [Connects, Greets(7, one), Arrives(f), Reports(two), Decodes(true)];
    var s1 := Step(START, e[0]);
    var s2 := Step(s1, e[1]);
    var s3 := Step(s2, e[2]);
    var s4 := Step(s3, e[3]);
    assert s3.stream.drawing == Some((1, f));
    assert e[1..][1..] == e[2..] && e[2..][1..] == e[3..] && e[3..][1..] == e[4..] && e[4..][1..] == [];
    assert Run(START, e) == Run(s1, e[1..]) == Run(s2, e[2..]);
    assert Run(s2, e[2..]) == Run(s3, e[3..]) == Run(s4, e[4..]);
    assert Run(s4, e[4..]) == Run(Step(s4, e[4]), []);
  }

  const START := Screen(Shown(None, false, false, None, None), Stream(0, Gone, [], None, [], []))

  /** As far as this module knows: the viewer is not giving up control, and its page is visible. */
  predicate CanInput(s: Shown) {
    && s.connected && s.ready && s.tab.Some? && s.tab.value.status.Running?
    && (s.tab.value.controller.None? || s.tab.value.controller == s.attachment)
  }

  lemma ConnectMeans(s: Screen)
    requires Inv(s)
    ensures
      var t := Step(s, Connects);
      Inv(t) && (Sound(s) ==> Sound(t)) && (s.stream.link.Gone? ==> Pending(t.stream) == [])
  {
    hide Sound;
    StepInv(s, Connects);
    if Sound(s) { SoundIff(s, Connects); }
  }

  lemma AcceptMeans(s: Screen, t: Tab)
    requires Inv(s)
    ensures
      var u := Step(s, Reports(t));
      && Inv(u) && (Sound(s) ==> (Sound(u) <==> !Upsets(s, Reports(t))))
      && u.shown.tab.Some? && (t.status.Absent? || !Older(u.shown.tab.value, t))
      && (s.shown.tab.Some? && !t.status.Absent? ==> !Older(u.shown.tab.value, s.shown.tab.value))
      && (u.shown.ready ==>
            && s.shown.ready && s.shown.tab.Some? && u.shown.tab.value.documentId == s.shown.tab.value.documentId
            && u.shown.tab.value.targetId == s.shown.tab.value.targetId)
  {
    hide Sound, Upsets;
    StepInv(s, Reports(t));
    if Sound(s) { SoundIff(s, Reports(t)); }
  }

  lemma DecodeMeans(s: Screen, ok: bool)
    requires Inv(s)
    ensures
      var t := Step(s, Decodes(ok));
      && Inv(t) && (Sound(s) ==> Sound(t))
      && Pending(t.stream) == Pending(s.stream)[|InHand(s.stream)|..]
      && (ok && t.stream.link.Open? ==> t.stream.acked == s.stream.acked + InHand(s.stream))
      && (t.shown.ready && !s.shown.ready ==>
            && InHand(s.stream) != [] && t.shown.picture == Some(InHand(s.stream)[0])
            && t.shown.tab.Some? && t.shown.tab.value.generation == t.shown.picture.value.generation)
  {
    hide Sound;
    StepInv(s, Decodes(ok));
    DecodedOk(s.stream, ok);
    if Sound(s) { SoundIff(s, Decodes(ok)); }
  }

  lemma ArriveMeans(s: Screen, frame: Frame)
    requires Inv(s)
    ensures
      var t := Step(s, Arrives(frame));
      && Inv(t) && (Sound(s) ==> (Sound(t) <==> !Upsets(s, Arrives(frame))))
      && |t.stream.frames| <= MAX_FRAMES && (t.stream.link.Gone? <==> s.stream.link.Gone?)
      && (t.stream.link == s.stream.link ==>
            t.stream.acked + Pending(t.stream)
            == if t.stream.link.Open? then s.stream.acked + Pending(s.stream) + [frame] else s.stream.acked + Pending(s.stream))
  {
    hide Sound, Upsets, Arrived, Pending;
    StepInv(s, Arrives(frame));
    ArrivedOk(s.stream, frame);
    if Sound(s) { SoundIff(s, Arrives(frame)); }
    if s.stream.link.Open? { assert s.stream.acked + (Pending(s.stream) + [frame]) == s.stream.acked + Pending(s.stream) + [frame]; }
  }

  // ----- The viewer

  class HostViewer {
    const input: I.Viewer
    var tab: Option<Tab>
    var ready: bool
    var connected: bool
    var attachment: Option<nat>
    var socket: nat
    var link: Link
    var frames: seq<Frame>
    var drawing: Option<(nat, Frame)>
    ghost var picture: Option<Frame>
    ghost var received: seq<Frame>
    ghost var acked: seq<Frame>

    ghost function Shows(): Shown
      reads this
    {
      Shown(tab, ready, connected, attachment, picture)
    }

    ghost function Frames(): Stream
      reads this
    {
      Stream(socket, link, frames, drawing, received, acked)
    }

    ghost function View(): Screen
      reads this
    {
      Screen(Shows(), Frames())
    }

    /** Frames are acknowledged in order, a tab that counts as ready has a picture, and so on. */
    ghost predicate Valid()
      reads this, input
    {
      Inv(View()) && input.Valid()
    }

    constructor (input: I.Viewer)
      requires input.Valid()
      ensures this.input == input && View() == START && Valid()
    {
      this.input := input;
      tab, ready, connected, attachment, socket, link, frames, drawing := None, false, false, None, 0, Gone, [], None;
      picture, received, acked := None, [], [];
    }

    /** A state that comes too late changes nothing. One that is taken shows, and readiness and queued input
        survive only as far as they were for it. */
    method AcceptState(t: Tab)
      requires Valid()
      modifies this`tab, this`ready, this`picture, input
      ensures Valid() && View() == Step(old(View()), Reports(t))
      ensures t.status.Absent? || (tab.Some? && !Older(tab.value, t))
      ensures old(tab).Some? && !t.status.Absent? ==> tab.Some? && !Older(tab.value, old(tab).value)
      ensures ready ==> old(ready) && old(tab).Some? && tab.Some? && tab.value.documentId == old(tab).value.documentId && tab.value.targetId == old(tab).value.targetId
      ensures old(Sound(View())) ==> (Sound(View()) <==> !old(Upsets(View(), Reports(t))))
      ensures
        var was := old(input.View());
        input.View() == if old(Taken(Shows(), t)) then I.Accept(was, t.controller.Some? && t.controller == attachment, old(Clears(Shows(), t))) else was
    {
      hide I.Inv, Inv, Sound, Upsets, Older;
      AcceptMeans(View(), t);
      if tab.Some? && !t.status.Absent? && Older(t, tab.value) { return; }
      var previous := tab;
      var newDocument := previous.None? || previous.value.targetId != t.targetId || previous.value.documentId != t.documentId
                         || !t.status.Running?;
      tab := Some(t);
      if newDocument { ready := false; }
      if !t.status.Running? { picture := None; }
      var mine := t.controller.Some? && t.controller == attachment;
      var clears := !t.status.Running? || (previous.Some? && t.generation != previous.value.generation) || (t.controller.Some? && !mine);
      input.AcceptControl(mine, clears);
    }

    /** The first message of a socket says which attachment this is; what it says of the tab counts like any
        other state. */
    method Greet(mine: nat, t: Tab)
      requires Valid() && link.Open?
      modifies this`connected, this`attachment, this`tab, this`ready, this`picture, input
      ensures Valid() && View() == Step(old(View()), Greets(mine, t))
      ensures connected && attachment == Some(mine)
      ensures ready ==> old(ready) && old(tab).Some? && tab.Some? && tab.value.documentId == old(tab).value.documentId && tab.value.targetId == old(tab).value.targetId
    {
      hide I.Inv, StreamOk, Sound, Upsets, Older, I.Accept;
      connected, attachment := true, Some(mine);
      AcceptState(t);
    }

    method DrawNext()
      modifies `drawing, `frames
      ensures Frames() == Draw(old(Frames()))
    {
      if drawing.Some? || frames == [] || link.Gone? { return; }
      drawing := Some((socket, frames[0]));
      frames := frames[1..];
    }

    /** A frame joins those of its socket, behind all that came before it, or breaks it. */
    method FrameArrives(frame: Frame)
      requires Valid()
      modifies this`link, this`frames, this`drawing, this`received
      ensures Valid() && View() == Step(old(View()), Arrives(frame))
      ensures link == old(link) ==> acked + Pending(Frames()) == if link.Open? then old(acked + Pending(Frames())) + [frame] else old(acked + Pending(Frames()))
      ensures |frames| <= MAX_FRAMES && (link.Gone? <==> old(link).Gone?)
      ensures old(Sound(View())) ==> (Sound(View()) <==> !old(Upsets(View(), Arrives(frame))))
    {
      hide I.Inv, Inv, Sound, Pending, Upsets;
      ArriveMeans(View(), frame);
      if !link.Open? { return; }
      if |frames| >= MAX_FRAMES {
        link := Closing;
        return;
      }
      frames := frames + [frame];
      received := received + [frame];
      DrawNext();
    }

    /** The image in hand is decoded, or is not. What was in hand is done with, in either case, and the others are
        as they were; a frame of the shown generation is on the canvas and makes the tab ready, of whatever
        document it is. */
    method FrameDecoded(ok: bool)
      requires Valid()
      modifies this`link, this`frames, this`drawing, this`acked, this`picture, this`ready
      ensures Valid() && View() == Step(old(View()), Decodes(ok))
      ensures Pending(Frames()) == old(Pending(Frames())[|InHand(Frames())|..])
      ensures ok && link.Open? ==> acked == old(acked) + old(InHand(Frames()))
      ensures ready && !old(ready) ==> old(InHand(Frames())) != [] && picture == Some(old(InHand(Frames()))[0]) && tab.Some? && tab.value.generation == picture.value.generation
      ensures old(Sound(View())) ==> Sound(View())
    {
      hide I.Inv, Inv, Sound, Pending, Draw;
      DecodeMeans(View(), ok);
      if drawing.None? { return; }
      var (of, frame) := drawing.value;
      drawing := None;
      if link.Gone? { return; }
      if of == socket {
        if !ok {
          link := Closing;
        } else {
          if tab.Some? && tab.value.status.Running? && tab.value.generation == frame.generation {
            ready := true;
            picture := Some(frame);
          }
          if link.Open? { acked := acked + [frame]; }
        }
      }
      DrawNext();
    }

    method Connect()
      requires Valid()
      modifies this`socket, this`link, this`frames, this`received, this`acked
      ensures Valid() && View() == Step(old(View()), Connects)
      ensures old(link).Gone? ==> link.Open? && Pending(Frames()) == [] && received == []
      ensures old(Sound(View())) ==> Sound(View())
    {
      hide I.Inv, Inv, Sound, Pending;
      ConnectMeans(View());
      if !link.Gone? { return; }
      socket, link, frames := socket + 1, Open, [];
      received, acked := [], [];
    }

    /** Without a socket nothing is ready, nothing waits and no input is queued. */
    method SocketGone()
      requires Valid()
      modifies this`link, this`frames, this`ready, this`connected, this`attachment, input
      ensures Valid() && View() == Step(old(View()), Closes) && input.View() == I.ClearInput(old(input.View()))
      ensures !ready && Pending(Frames()) == [] && input.queue == [] && Sound(View())
    {
      hide I.Inv;
      StepInv(View(), Closes);
      link, frames, ready, connected, attachment := Gone, [], false, false, None;
      input.Clear();
    }
  }
}
