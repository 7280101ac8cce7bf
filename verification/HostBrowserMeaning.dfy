/**
 What each message does to a host browser viewer, field by field: which states are taken, what stays ready, when queued
 input is dropped, and that every frame is drawn or passed over and acknowledged.
 */
module HostBrowserMeaning {
  import opened Wrappers
  import opened HostBrowser

  /** At least as new, generation first and then document. */
  predicate AsNew(t: Tab, previous: Tab) {
    previous.generation < t.generation || (previous.generation == t.generation && previous.documentId <= t.documentId)
  }

  /** A state is taken if nothing was shown yet, if the tab is gone, or if it is as new as the one shown. */
  predicate Takeable(s: Shown, t: Tab) {
    match s.tab
    case None => true
    case Some(previous) => t.status == Absent || AsNew(t, previous)
  }

  /** A state that is not taken changes nothing. One that is, is shown; what was ready stays so exactly if the tab runs
      with the same target and document, and the picture exactly if it runs. */
  lemma ReportExactly(s: Screen, t: Tab)
    ensures
      var u := Step(s, Reports(t));
      && u.stream == s.stream
      && (if !Takeable(s.shown, t) then u == s
          else
            && u.shown.tab == Some(t) && u.shown.connected == s.shown.connected && u.shown.attachment == s.shown.attachment
            && u.shown.picture == (if t.status == Running then s.shown.picture else None)
            && (u.shown.ready <==>
                  && s.shown.ready && s.shown.tab.Some? && t.status == Running
                  && s.shown.tab.value.targetId == t.targetId && s.shown.tab.value.documentId == t.documentId))
  {
  }

  /** The first message of an open socket says who this viewer is, and is a state like any other; of a socket that broke or
      is gone it is not heard. */
  lemma GreetExactly(s: Screen, attachment: nat, t: Tab)
    ensures
      var u := Step(s, Greets(attachment, t));
      var known := s.(shown := s.shown.(connected := true, attachment := Some(attachment)));
      u == if s.stream.link == Open then Step(known, Reports(t)) else s
  {
  }

  /** Queued input is dropped exactly by a state that is taken and says that the tab does not run, is of another
      generation, or is controlled by somebody else. */
  lemma DropsInputIff(s: Shown, t: Tab)
    ensures Clears(s, t) <==>
      && Takeable(s, t)
      && (t.status != Running
          || (s.tab != None && s.tab.value.generation != t.generation)
          || (exists who :: t.controller == Some(who) && s.attachment != Some(who)))
  {
    if t.controller.Some? { assert t.controller == Some(t.controller.value); }
  }

  /** Without a socket nothing is connected, ready or waiting; the tab stays shown as it was. */
  lemma CloseExactly(s: Screen)
    ensures
      var u := Step(s, Closes);
      && !u.shown.ready && !u.shown.connected && u.shown.attachment == None && u.shown.tab == s.shown.tab && u.shown.picture == s.shown.picture
      && u.stream.link == Gone && u.stream.frames == [] && Pending(u.stream) == [] && u.stream.drawing == s.stream.drawing
  {
  }

  /** A new socket begins with nothing; while there is one, none is begun. */
  lemma ConnectExactly(s: Screen)
    ensures
      var u := Step(s, Connects);
      && u.shown == s.shown && (s.stream.link != Gone ==> u == s)
      && (s.stream.link == Gone ==>
            && u.stream.link == Open && u.stream.socket > s.stream.socket && u.stream.frames == [] && u.stream.received == [] && u.stream.acked == []
            && u.stream.drawing == s.stream.drawing)
  {
  }

  /** A frame of an open socket waits behind the others, or is taken in hand if none is; a third that waits breaks the
      socket. */
  lemma ArriveExactly(s: Screen, frame: Frame)
    requires Inv(s)
    ensures
      var u := Step(s, Arrives(frame));
      && u.shown == s.shown
      && (if s.stream.link != Open then u == s
          else if |s.stream.frames| == 2 then u.stream == s.stream.(link := Closing)
          else
            && u.stream.link == Open && u.stream.received == s.stream.received + [frame] && u.stream.acked == s.stream.acked
            && (if s.stream.drawing == None then u.stream.drawing == Some((s.stream.socket, frame)) && u.stream.frames == []
                else u.stream.drawing == s.stream.drawing && u.stream.frames == s.stream.frames + [frame]))
  {
  }

  /** The frame in hand is done with, and the next of an open or closing socket is taken up. If it is of that very socket: a
      decoded one is acknowledged if the socket is open, and is drawn, which makes the tab ready, if it is of the generation
      that runs; one that is not decoded breaks the socket. */
  lemma DecodeExactly(s: Screen, ok: bool)
    requires Inv(s) && s.stream.drawing.Some?
    ensures
      var u := Step(s, Decodes(ok));
      var (socket, frame) := s.stream.drawing.value;
      var own := s.stream.link != Gone && socket == s.stream.socket;
      && u.stream.socket == s.stream.socket && u.stream.received == s.stream.received
      && u.stream.link == (if own && !ok then Closing else s.stream.link)
      && u.stream.acked == (if own && ok && s.stream.link == Open then s.stream.acked + [frame] else s.stream.acked)
      && (if s.stream.frames == [] then u.stream.drawing == None && u.stream.frames == []
          else u.stream.drawing == Some((s.stream.socket, s.stream.frames[0])) && u.stream.frames == s.stream.frames[1..])
      && u.shown == (if own && ok && s.shown.tab.Some? && s.shown.tab.value.status == Running && s.shown.tab.value.generation == frame.generation
                     then s.shown.(ready := true, picture := Some(frame)) else s.shown)
  {
  }

  function Decoding(n: nat): seq<Event> {
    if n == 0 then [] else [Decodes(true)] + Decoding(n - 1)
  }

  /** As long as frames decode, every frame that came on an open socket is acknowledged, in order, and nothing is left. */
  lemma {:induction false} AllAcknowledged(s: Screen)
    requires Inv(s) && s.stream.link == Open && (s.stream.drawing.Some? ==> s.stream.drawing.value.0 == s.stream.socket)
    ensures
      var u := Run(s, Decoding(|Pending(s.stream)|));
      u.stream.acked == s.stream.received && Pending(u.stream) == [] && u.stream.link == Open
    decreases |Pending(s.stream)|
  {
    hide Step, Inv;
    if s.stream.drawing.None? {
      assert Pending(s.stream) == [] && s.stream.acked == s.stream.received by { NothingLeft(s); }
    } else {
      var u := Step(s, Decodes(true));
      StepInv(s, Decodes(true));
      DecodeExactly(s, true);
      assert Decoding(|Pending(s.stream)|)[1..] == Decoding(|Pending(s.stream)| - 1);
      AllAcknowledged(u);
    }
  }

  lemma NothingLeft(s: Screen)
    requires Inv(s) && s.stream.link == Open && s.stream.drawing.None?
    ensures Pending(s.stream) == [] && s.stream.acked == s.stream.received
  {
  }

  /** Over every run without an event that upsets it: input is open exactly to a viewer that is connected, with a tab that runs,
      is ready, and is controlled by this viewer or by nobody; and then what the user sees is the document that it goes to. */
  lemma OpenInputSees(s: Screen, events: seq<Event>)
    requires Inv(s) && Sound(s) && Quiet(s, events)
    ensures
      var u := Run(s, events).shown;
      && (CanInput(u) <==>
            && u.connected && u.ready && u.tab.Some? && u.tab.value.status == Running
            && forall who :: u.tab.value.controller == Some(who) ==> u.attachment == Some(who))
      && (CanInput(u) ==>
            && u.picture.Some? && u.picture.value.generation == u.tab.value.generation
            && u.picture.value.documentId == u.tab.value.documentId)
  {
    hide Run, Quiet, Sound, Inv;
    ReadyMeansDrawn(s, events);
    var u := Run(s, events).shown;
    if u.tab.Some? && u.tab.value.controller.Some? { assert u.tab.value.controller == Some(u.tab.value.controller.value); }
  }
}
