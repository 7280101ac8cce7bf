/**
 The restoration as the plugin runs it: it splices recorded restorations into the request's own
 messages, pushes onto the window, and stores the window before it adds to the request.
 */
module CompactionContext {
  import W = CompactionWindow

  /** A native request whose messages the hook edits in place. */
  class SessionContext {
    var messages: seq<W.Message>

    constructor (messages: seq<W.Message>)
      ensures this.messages == messages
    {
      this.messages := messages;
    }
  }

  class Restorer {
    /** Durable windows, by session and checkpoint. */
    var windows: map<(nat, nat), seq<W.Entry>>

    constructor ()
      ensures windows == map[]
    {
      windows := map[];
    }

    function Window(key: (nat, nat)): seq<W.Entry>
      reads this
    {
      if key in windows then windows[key] else []
    }

    /** Replay a stored window over the request, entry by entry. */
    static method Replay(event: SessionContext, checkpoint: nat, entries: seq<W.Entry>) returns (ok: bool)
      modifies event
      ensures
        var replayed := W.Replay(checkpoint, entries, old(event.messages));
        ok == replayed.Ok? && (ok ==> event.messages == replayed.value)
    {
      hide W.Admits;
      var i := 0;
      while i < |entries|
        invariant 0 <= i <= |entries|
        invariant W.Replay(checkpoint, entries[i..], event.messages) == W.Replay(checkpoint, entries, old(event.messages))
      {
        var entry := entries[i];
        assert entries[i..][0] == entry && entries[i..][1..] == entries[i + 1..];
        if !W.Admits(entry, event.messages) { return false; }
        AdmitsInside(entry, event.messages);
        event.messages := event.messages[..entry.offset] + [W.Mark(checkpoint, entry)] + event.messages[entry.offset..];
        i := i + 1;
      }
      ok := true;
    }

    static lemma AdmitsInside(e: W.Entry, messages: seq<W.Message>)
      requires W.Admits(e, messages)
      ensures e.offset <= |messages|
    {
    }

    /** Restore one request. `stores` says whether storage takes the window. */
    method Restore(event: SessionContext, session: nat, checkpoint: nat, b: W.Binding, stores: bool) returns (ok: bool)
      modifies event, this
      ensures
        var was := old(Window((session, checkpoint)));
        var result := W.Restore(checkpoint, was, old(event.messages), b);
        && (ok <==> result.Ok? && (stores || W.UpToDate(was, b)))
        && (ok ==> event.messages == result.value.0 && Window((session, checkpoint)) == result.value.1)
        && (!ok ==> windows == old(windows))
      ensures windows == old(windows) || windows == old(windows)[(session, checkpoint) := Window((session, checkpoint))]
    {
      hide W.Replay;
      var window := Window((session, checkpoint));
      if |window| > W.MAX_ENTRIES { return false; }
      ok := Replay(event, checkpoint, window);
      if !ok { return; }
      if window == [] || window[|window| - 1].hash != W.OfText(b.text) {
        if |window| >= W.MAX_ENTRIES { return false; }
        var entry := W.Entry(|event.messages|, W.OfMessages(event.messages), W.OfText(b.text), b.text);
        window := window + [entry];
        if !stores { return false; }
        windows := windows[(session, checkpoint) := window];
        event.messages := event.messages + [W.Mark(checkpoint, entry)];
      }
    }
  }
}
