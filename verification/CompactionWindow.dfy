/**
 Restoring recorded user context after a compaction. A window of recorded insertions is replayed at
 fixed offsets, each guarded by the digest of everything before it, and grows by one insertion when the
 configured context changes. The digest is taken to be injective.
 */
module CompactionWindow {
  import opened Wrappers

  const MAX_ENTRIES := 64
  const MAX_TEXT := 256000
  const PART := 8000
  const MAX_PARTS := 32

  type Unit = u: nat | u < 0x1_0000  // one UTF-16 code unit
  type Text = seq<Unit>
  type Native = nat                  // a message of the native history

  datatype Digest = OfText(text: Text) | OfMessages(messages: seq<Message>)
  datatype Message = Native(message: Native) | Restoration(checkpoint: nat, hash: Digest, text: Text)
  datatype Entry = Entry(offset: nat, prefixHash: Digest, hash: Digest, text: Text)

  /** The context that the App configured: its agent and its outgoing text. */
  datatype Binding = Binding(agent: nat, text: Text)

  // ----- The transport's text

  /** Where the part that starts at `position` ends: at most 8000 units on, never inside a surrogate pair. */
  function PartEnd(text: Text, position: nat): (end: nat)
    requires position < |text|
    ensures position < end <= |text| && end <= position + PART
  {
    var end := if position + PART < |text| then position + PART else |text|;
    if end < |text| && 0xD800 <= text[end - 1] <= 0xDBFF then end - 1 else end
  }

  function Parts(text: Text, position: nat): (parts: seq<Text>)
    requires position <= |text|
    decreases |text| - position
  {
    if position == |text| then []
    else [text[position..PartEnd(text, position)]] + Parts(text, PartEnd(text, position))
  }

  function Joined(parts: seq<Text>): Text {
    if parts == [] then [] else parts[0] + Joined(parts[1..])
  }

  /** The text of a context that the codec takes: neither empty nor in too many parts. */
  predicate ValidText(text: Text) {
    text != [] && |Parts(text, 0)| <= MAX_PARTS
  }

  lemma {:induction false} PartsJoin(text: Text, position: nat)
    requires position <= |text|
    ensures Joined(Parts(text, position)) == text[position..]
    ensures |text| - position <= PART * |Parts(text, position)|
    decreases |text| - position
  {
    if position < |text| {
      var end := PartEnd(text, position);
      PartsJoin(text, end);
      assert text[position..] == text[position..end] + text[end..];
      assert Parts(text, position)[1..] == Parts(text, end);
    }
  }

  /** No accepted text is too long to be replayed. */
  lemma ValidTextFits(text: Text)
    requires ValidText(text)
    ensures |text| <= MAX_TEXT
  {
    PartsJoin(text, 0);
  }

  // ----- Replay

  function Insert(messages: seq<Message>, offset: nat, m: Message): seq<Message>
    requires offset <= |messages|
  {
    messages[..offset] + [m] + messages[offset..]
  }

  function Mark(checkpoint: nat, e: Entry): Message {
    Restoration(checkpoint, e.hash, e.text)
  }

  predicate Admits(e: Entry, messages: seq<Message>) {
    && e.offset <= |messages| && |e.text| <= MAX_TEXT
    && e.hash == OfText(e.text) && e.prefixHash == OfMessages(messages[..e.offset])
  }

  function Replay(checkpoint: nat, entries: seq<Entry>, messages: seq<Message>): Result<seq<Message>>
    decreases |entries|
  {
    if entries == [] then Ok(messages)
    else if !Admits(entries[0], messages) then Refused
    else Replay(checkpoint, entries[1..], Insert(messages, entries[0].offset, Mark(checkpoint, entries[0])))
  }

  /** The entry that records a restoration after everything there is. */
  function Recorded(messages: seq<Message>, b: Binding): Entry {
    Entry(|messages|, OfMessages(messages), OfText(b.text), b.text)
  }

  predicate UpToDate(entries: seq<Entry>, b: Binding) {
    entries != [] && entries[|entries| - 1].hash == OfText(b.text)
  }

  /** What a request sends, and the window it leaves. */
  function Restore(checkpoint: nat, entries: seq<Entry>, messages: seq<Message>, b: Binding): Result<(seq<Message>, seq<Entry>)> {
    if |entries| > MAX_ENTRIES then Refused
    else
      var replayed := Replay(checkpoint, entries, messages);
      if replayed.Refused? then Refused
      else if UpToDate(entries, b) then Ok((replayed.value, entries))
      else if |entries| >= MAX_ENTRIES then Refused
      else
        var e := Recorded(replayed.value, b);
        Ok((replayed.value + [Mark(checkpoint, e)], entries + [e]))
  }

  function Erase(messages: seq<Message>): seq<Message> {
    if messages == [] then []
    else if messages[0].Native? then [messages[0]] + Erase(messages[1..]) else Erase(messages[1..])
  }

  function Marks(messages: seq<Message>): seq<Message> {
    if messages == [] then []
    else if messages[0].Native? then Marks(messages[1..]) else [messages[0]] + Marks(messages[1..])
  }

  ghost predicate AllNative(messages: seq<Message>) {
    forall m :: m in messages ==> m.Native?
  }

  lemma {:induction false} Split(a: seq<Message>, b: seq<Message>)
    ensures Erase(a + b) == Erase(a) + Erase(b)
    ensures Marks(a + b) == Marks(a) + Marks(b)
  {
    if a == [] {
      assert a + b == b;
    } else {
      assert (a + b)[1..] == a[1..] + b;
      Split(a[1..], b);
    }
  }

  lemma {:induction false} NativeOnly(messages: seq<Message>)
    requires AllNative(messages)
    ensures Erase(messages) == messages && Marks(messages) == []
  {
    if messages != [] { NativeOnly(messages[1..]); }
  }

  /** Replaying over a history that only grew puts every restoration where it was. */
  lemma {:induction false} ReplayExtends(checkpoint: nat, entries: seq<Entry>, messages: seq<Message>, more: seq<Message>)
    requires Replay(checkpoint, entries, messages).Ok?
    ensures Replay(checkpoint, entries, messages + more) == Ok(Replay(checkpoint, entries, messages).value + more)
    decreases |entries|
  {
    if entries != [] {
      var e := entries[0];
      assert (messages + more)[..e.offset] == messages[..e.offset];
      assert Insert(messages + more, e.offset, Mark(checkpoint, e)) == Insert(messages, e.offset, Mark(checkpoint, e)) + more;
      ReplayExtends(checkpoint, entries[1..], Insert(messages, e.offset, Mark(checkpoint, e)), more);
    }
  }

  lemma {:induction false} ReplayAppend(checkpoint: nat, entries: seq<Entry>, e: Entry, messages: seq<Message>)
    ensures Replay(checkpoint, entries + [e], messages) ==
            var r := Replay(checkpoint, entries, messages);
            if r.Refused? || !Admits(e, r.value) then Refused else Ok(Insert(r.value, e.offset, Mark(checkpoint, e)))
    decreases |entries|
  {
    if entries == [] {
      assert entries + [e] == [e] && [e][1..] == [];
    } else {
      assert (entries + [e])[1..] == entries[1..] + [e];
      if Admits(entries[0], messages) {
        ReplayAppend(checkpoint, entries[1..], e, Insert(messages, entries[0].offset, Mark(checkpoint, entries[0])));
      }
    }
  }

  /** Replay only inserts: without the restorations the history is the native one. */
  lemma {:induction false} ReplayErases(checkpoint: nat, entries: seq<Entry>, messages: seq<Message>)
    requires Replay(checkpoint, entries, messages).Ok?
    ensures Erase(Replay(checkpoint, entries, messages).value) == Erase(messages)
    decreases |entries|
  {
    if entries != [] {
      var e := entries[0];
      var m := Mark(checkpoint, e);
      Split(messages[..e.offset] + [m], messages[e.offset..]);
      Split(messages[..e.offset], [m]);
      Split(messages[..e.offset], messages[e.offset..]);
      assert messages == messages[..e.offset] + messages[e.offset..];
      assert Erase([m]) == [];
      ReplayErases(checkpoint, entries[1..], Insert(messages, e.offset, m));
    }
  }

  /** A recorded insertion, replayed on what it was recorded after, is appended. */
  lemma RecordedAppends(checkpoint: nat, entries: seq<Entry>, messages: seq<Message>, b: Binding)
    requires Replay(checkpoint, entries, messages).Ok? && |b.text| <= MAX_TEXT
    ensures
      var m := Replay(checkpoint, entries, messages).value;
      var e := Recorded(m, b);
      Replay(checkpoint, entries + [e], messages) == Ok(m + [Mark(checkpoint, e)])
  {
    var m := Replay(checkpoint, entries, messages).value;
    var e := Recorded(m, b);
    ReplayAppend(checkpoint, entries, e, messages);
    assert m[..|m|] == m && m[|m|..] == [];
    assert Insert(m, |m|, Mark(checkpoint, e)) == m + [Mark(checkpoint, e)];
  }

  // ----- What a window means

  function MarksOf(checkpoint: nat, entries: seq<Entry>): seq<Message> {
    seq(|entries|, i requires 0 <= i < |entries| => Mark(checkpoint, entries[i]))
  }

  /** A window that requests of one checkpoint recorded over the native history `base`. */
  ghost predicate WindowOk(checkpoint: nat, entries: seq<Entry>, base: seq<Message>) {
    && AllNative(base) && |entries| <= MAX_ENTRIES
    && Replay(checkpoint, entries, base).Ok?
    && Marks(Replay(checkpoint, entries, base).value) == MarksOf(checkpoint, entries)
  }

  lemma WindowGrows(checkpoint: nat, entries: seq<Entry>, base: seq<Message>, native: seq<Message>)
    requires WindowOk(checkpoint, entries, base) && AllNative(native) && base <= native
    ensures WindowOk(checkpoint, entries, native)
    ensures Replay(checkpoint, entries, native).value == Replay(checkpoint, entries, base).value + native[|base|..]
  {
    var more := native[|base|..];
    assert native == base + more;
    ReplayExtends(checkpoint, entries, base, more);
    Split(Replay(checkpoint, entries, base).value, more);
    NativeOnly(more);
  }

  /** A request over a grown history is never refused for its recorded prefix, sends everything sent
      before it and the native history, and ends its restorations with the configured one. */
  lemma RestoreKeeps(checkpoint: nat, entries: seq<Entry>, base: seq<Message>, native: seq<Message>, b: Binding)
    requires WindowOk(checkpoint, entries, base) && AllNative(native) && base <= native && ValidText(b.text)
    ensures Restore(checkpoint, entries, native, b).Ok? <==> UpToDate(entries, b) || |entries| < MAX_ENTRIES
    ensures Restore(checkpoint, entries, native, b).Ok? ==>
      var (sent, window) := Restore(checkpoint, entries, native, b).value;
      && WindowOk(checkpoint, window, native) && Replay(checkpoint, window, native) == Ok(sent)
      && Replay(checkpoint, entries, base).value <= sent
      && Erase(sent) == native
      && Marks(sent) != [] && Marks(sent)[|Marks(sent)| - 1] == Restoration(checkpoint, OfText(b.text), b.text)
  {
    WindowGrows(checkpoint, entries, base, native);
    ValidTextFits(b.text);
    var m := Replay(checkpoint, entries, native).value;
    ReplayErases(checkpoint, entries, native);
    NativeOnly(native);
    if UpToDate(entries, b) {
      LastIs(checkpoint, entries, native);
    } else if |entries| < MAX_ENTRIES {
      var e := Recorded(m, b);
      RecordedAppends(checkpoint, entries, native, b);
      Split(m, [Mark(checkpoint, e)]);
      assert Marks([Mark(checkpoint, e)]) == [Mark(checkpoint, e)] && Erase([Mark(checkpoint, e)]) == [];
    }
  }

  lemma {:induction false} EntriesMatch(checkpoint: nat, entries: seq<Entry>, messages: seq<Message>)
    requires Replay(checkpoint, entries, messages).Ok?
    ensures forall i :: 0 <= i < |entries| ==> entries[i].hash == OfText(entries[i].text)
    decreases |entries|
  {
    if entries != [] {
      EntriesMatch(checkpoint, entries[1..], Insert(messages, entries[0].offset, Mark(checkpoint, entries[0])));
      forall i | 0 <= i < |entries| ensures entries[i].hash == OfText(entries[i].text) {
        if i > 0 { assert entries[i] == entries[1..][i - 1]; }
      }
    }
  }

  lemma LastIs(checkpoint: nat, entries: seq<Entry>, native: seq<Message>)
    requires WindowOk(checkpoint, entries, native) && entries != []
    ensures
      var marks := Marks(Replay(checkpoint, entries, native).value);
      var last := entries[|entries| - 1];
      marks != [] && marks[|marks| - 1] == Mark(checkpoint, last) && last.hash == OfText(last.text)
  {
    EntriesMatch(checkpoint, entries, native);
  }

  /** Exactly when a window is accepted: the native history still begins with what the last entry was
      recorded after. */
  lemma AcceptedIff(checkpoint: nat, entries: seq<Entry>, base: seq<Message>, b: Binding, native: seq<Message>)
    requires WindowOk(checkpoint, entries, base) && ValidText(b.text) && AllNative(native)
    ensures
      var window := entries + [Recorded(Replay(checkpoint, entries, base).value, b)];
      Replay(checkpoint, window, native).Ok? <==> base <= native
  {
    var m := Replay(checkpoint, entries, base).value;
    var e := Recorded(m, b);
    var window := entries + [e];
    ValidTextFits(b.text);
    if base <= native {
      RecordedAppends(checkpoint, entries, base, b);
      assert native == base + native[|base|..];
      ReplayExtends(checkpoint, window, base, native[|base|..]);
    }
    if Replay(checkpoint, window, native).Ok? {
      ReplayAppend(checkpoint, entries, e, native);
      var r := Replay(checkpoint, entries, native).value;
      ReplayErases(checkpoint, entries, native);
      ReplayErases(checkpoint, entries, base);
      NativeOnly(native);
      NativeOnly(base);
      Split(r[..|m|], r[|m|..]);
      assert r == r[..|m|] + r[|m|..] && r[..|m|] == m;
    }
  }
}
