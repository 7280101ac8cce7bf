/**
 An append-only journal of one owner: what each call does to the files under any pattern of short
 writes and failed synchronisations, and what the strict reader makes of them. SHA-256 is taken to be
 injective.
 */
module DemoJournal {
  import opened Wrappers

  type Byte = b: nat | b < 256
  const NEWLINE: Byte := 10

  datatype Digest = Sha(bytes: seq<Byte>)

  /** Who a message is for: the owner's identity as its dispatch carries it. */
  datatype Owner = Owner(messageId: nat, dispatch: nat, claudeCode: bool, initialMessageId: nat)
  datatype Submission = Submission(messageId: nat, dispatch: nat, transportSha256: nat, liveInput: bool)
  datatype Observation = Observation(messageId: nat, dispatch: nat, transportSha256: nat, initial: bool, evidence: nat)

  datatype Data =
    | OwnerRef(ownerSha256: Digest)
    | Health(reason: string)
    | Submitted(submission: Submission)
    | Dispatch(observation: Observation)
    | Other(kind: nat, value: nat)

  datatype Event = Event(seqno: nat, time: nat, data: Data)

  /** The line of an event, and the decoder of one line. */
  datatype Codec = Codec(line: Event -> seq<Byte>, parse: seq<Byte> -> Option<Event>, accepts: Event -> bool)

  /** A line has no line break inside; what the decoder accepts it reads back; and it accepts the
      owner's own events. */
  ghost predicate CodecOk(c: Codec) {
    && (forall e :: NEWLINE !in c.line(e))
    && (forall e :: c.accepts(e) ==> c.parse(c.line(e)) == Some(e))
    && (forall e: Event :: !e.data.Other? ==> c.accepts(e))
  }

  /** A checkpoint binds the owner file and the exact log. */
  datatype Checkpoint = Checkpoint(ownerSha256: Digest, byteLength: nat, sha256: Digest, eventCount: nat, lastSeq: nat, issues: seq<string>)

  /** The owned directory. */
  datatype Files = Files(owner: Option<seq<Byte>>, log: Option<seq<Byte>>, checkpoint: Option<Checkpoint>)

  // ----- Lines

  function Encode(c: Codec, events: seq<Event>): seq<Byte> {
    if events == [] then [] else c.line(events[0]) + [NEWLINE] + Encode(c, events[1..])
  }

  /** Up to the first line break. */
  function LineEnd(bytes: seq<Byte>): (n: nat)
    ensures n <= |bytes| && NEWLINE !in bytes[..n] && (n < |bytes| ==> bytes[n] == NEWLINE)
  {
    if bytes == [] || bytes[0] == NEWLINE then 0
    else
      assert bytes[..1 + LineEnd(bytes[1..])] == [bytes[0]] + bytes[1..][..LineEnd(bytes[1..])];
      1 + LineEnd(bytes[1..])
  }

  /** Line by line; a torn or foreign line ends the decoding, and is reported. */
  function Decode(c: Codec, bytes: seq<Byte>): (seq<Event>, bool)
    decreases |bytes|
  {
    if bytes == [] then ([], false)
    else
      var n := LineEnd(bytes);
      if n == |bytes| || c.parse(bytes[..n]).None? then ([], true)
      else
        var (rest, repaired) := Decode(c, bytes[n + 1..]);
        ([c.parse(bytes[..n]).value] + rest, repaired)
  }

  lemma LineEndIs(line: seq<Byte>, rest: seq<Byte>)
    requires NEWLINE !in line
    ensures LineEnd(line + [NEWLINE] + rest) == |line|
  {
    var all := line + [NEWLINE] + rest;
    var n := LineEnd(all);
    assert forall k :: 0 <= k < |line| ==> all[k] == line[k] && line[k] in line;
    assert forall k :: 0 <= k < n ==> all[k] == all[..n][k] && all[k] in all[..n];
    assert all[|line|] == NEWLINE;
  }

  lemma {:induction false} DecodeEncode(c: Codec, events: seq<Event>)
    requires CodecOk(c) && forall e :: e in events ==> c.accepts(e)
    ensures Decode(c, Encode(c, events)) == (events, false)
  {
    if events != [] {
      var line, rest := c.line(events[0]), Encode(c, events[1..]);
      var all := line + [NEWLINE] + rest;
      LineEndIs(line, rest);
      assert all[..|line|] == line && all[|line| + 1..] == rest;
      assert events[0] in events;
      DecodeEncode(c, events[1..]);
      assert [events[0]] + events[1..] == events;
    }
  }

  lemma {:induction false} EncodeConcat(c: Codec, a: seq<Event>, b: seq<Event>)
    ensures Encode(c, a + b) == Encode(c, a) + Encode(c, b)
  {
    if a == [] {
      assert a + b == b;
    } else {
      assert (a + b)[1..] == a[1..] + b;
      EncodeConcat(c, a[1..], b);
    }
  }

  // ----- Identity checks

  predicate VerifySubmission(owner: Owner, s: Submission) {
    s.messageId == owner.messageId && s.dispatch == owner.dispatch
  }

  predicate VerifyObservation(owner: Owner, s: Option<Submission>, o: Observation) {
    && s.Some? && o.messageId == owner.messageId && o.dispatch == owner.dispatch && o.transportSha256 == s.value.transportSha256
    && (owner.claudeCode && o.initial ==> !s.value.liveInput && s.value.messageId == owner.initialMessageId)
  }

  // ----- The owner

  /** `written` is what calls wrote successfully, and `sealed` what was written and what had failed when
      the visible checkpoint was published; both only for reasoning. */
  datatype State = State(files: Files, ownerBytes: seq<Byte>, seqno: nat, closed: bool, submission: Option<Submission>,
                         expected: seq<Byte>, failures: seq<string>, written: seq<Event>, sealed: Option<(seq<Event>, seq<string>)>)

  /** How far a write gets: everything, durably; or so many bytes and then an error. */
  datatype Weather = Fine | FailsAfter(bytes: nat)

  function Mark(failures: seq<string>, reason: string): seq<string> {
    if reason in failures then failures else failures + [reason]
  }

  /** A reason has to say something. */
  predicate Blank(reason: string) {
    forall i :: 0 <= i < |reason| ==> reason[i] == ' ' || reason[i] == '\t' || reason[i] == '\n' || reason[i] == '\r'
  }

  function Create(c: Codec, ownerBytes: seq<Byte>, time: nat): State {
    var first := Event(1, time, OwnerRef(Sha(ownerBytes)));
    State(Files(Some(ownerBytes), Some(Encode(c, [first])), None), ownerBytes, 1, false, None, Encode(c, [first]), [], [first], None)
  }

  /** Append to the log, which has to be exactly what this owner left. False means that it threw. */
  function WriteEvents(c: Codec, s: State, events: seq<Event>, weather: Weather): (State, bool)
    requires events != []
  {
    if s.files.log != Some(s.expected) || s.files.owner != Some(s.ownerBytes) then (s, false)
    else
      var tail := Encode(c, events);
      match weather
      case Fine =>
        (s.(files := s.files.(log := Some(s.expected + tail)), expected := s.expected + tail,
            seqno := events[|events| - 1].seqno, written := s.written + events), true)
      case FailsAfter(n) =>
        (s.(files := s.files.(log := Some(s.expected + tail[..if n < |tail| then n else |tail|]))), false)
  }

  /** A guarded call that threw: the failure sticks. */
  function Failed(s: State, reason: string): State {
    s.(failures := Mark(s.failures, reason))
  }

  predicate MayAppend(c: Codec, owner: Owner, s: State, data: Data, e: Event) {
    && (data.Submitted? ==> s.submission.None? && VerifySubmission(owner, data.submission))
    && (data.Dispatch? ==> VerifyObservation(owner, s.submission, data.observation))
    && !data.OwnerRef? && (data.Health? ==> !Blank(data.reason)) && c.accepts(e)
  }

  /** `reason` is the text of the error, if one is thrown. */
  function Append(c: Codec, owner: Owner, s: State, data: Data, time: nat, weather: Weather, reason: string): (State, bool) {
    if s.closed then (s, false)
    else
      var e := Event(s.seqno + 1, time, data);
      var marked := if data.Health? && !Blank(data.reason) then s.(failures := Mark(s.failures, data.reason)) else s;
      if !MayAppend(c, owner, s, data, e) then (Failed(marked, reason), false)
      else
        var (t, ok) := WriteEvents(c, marked, [e], weather);
        if !ok then (Failed(t, reason), false)
        else (if data.Submitted? then t.(submission := Some(data.submission)) else t, true)
  }

  function Persist(c: Codec, owner: Owner, s: State, submission: Submission, o: Observation, time: nat, weather: Weather, reason: string): (State, bool) {
    if s.closed then (s, false)
    else if !VerifySubmission(owner, submission) || (s.submission.Some? && s.submission != Some(submission))
            || !VerifyObservation(owner, Some(submission), o) then (Failed(s, reason), false)
    else
      var events := if s.submission.None?
                    then [Event(s.seqno + 1, time, Submitted(submission)), Event(s.seqno + 2, time, Dispatch(o))]
                    else [Event(s.seqno + 1, time, Dispatch(o))];
      var (t, ok) := WriteEvents(c, s, events, weather);
      if !ok then (Failed(t, reason), false) else (t.(submission := Some(submission)), true)
  }

  function Fail(c: Codec, s: State, why: string, time: nat, weather: Weather, reason: string): (State, bool) {
    if s.closed then (s, false)
    else if Blank(why) then (Failed(s, reason), false)
    else
      var (t, ok) := WriteEvents(c, Failed(s, why), [Event(s.seqno + 1, time, Health(why))], weather);
      if !ok then (Failed(t, reason), false) else (t, true)
  }

  /** Publishing writes beside, renames and synchronises the directory: it may fail before or after the
      checkpoint is visible. */
  datatype Publication = Published | LostBeforeRename | LostAfterRename

  function Seal(c: Codec, s: State, time: nat, publication: Publication, weather: Weather, reason: string): (State, bool) {
    if s.closed then (s, true)
    else
      var intact := s.files.log == Some(s.expected) && s.files.owner == Some(s.ownerBytes);
      var checkpoint := Checkpoint(Sha(s.ownerBytes), |s.expected|, Sha(s.expected), s.seqno, s.seqno, s.failures);
      var visible := if intact && !publication.LostBeforeRename?
                     then s.(files := s.files.(checkpoint := Some(checkpoint)), sealed := Some((s.written, s.failures))) else s;
      if intact && publication.Published? then (visible.(closed := true), true)
      else (WriteEvents(c, Failed(visible, reason), [Event(s.seqno + 1, time, Health(reason))], weather).0, false)
  }

  datatype Call =
    | Appends(data: Data, time: nat, weather: Weather, reason: string)
    | Persists(submission: Submission, observation: Observation, time: nat, weather: Weather, reason: string)
    | Fails(why: string, time: nat, weather: Weather, reason: string)
    | Seals(time: nat, publication: Publication, weather: Weather, reason: string)

  function Do(c: Codec, owner: Owner, s: State, call: Call): State {
    match call
    case Appends(data, time, weather, reason) => Append(c, owner, s, data, time, weather, reason).0
    case Persists(submission, o, time, weather, reason) => Persist(c, owner, s, submission, o, time, weather, reason).0
    case Fails(why, time, weather, reason) => Fail(c, s, why, time, weather, reason).0
    case Seals(time, publication, weather, reason) => Seal(c, s, time, publication, weather, reason).0
  }

  function Run(c: Codec, owner: Owner, s: State, calls: seq<Call>): State
    decreases |calls|
  {
    if calls == [] then s else Run(c, owner, Do(c, owner, s, calls[0]), calls[1..])
  }

  // ----- The reader

  /** The submission among the first events, if any. */
  function SubmissionIn(events: seq<Event>): Option<Submission> {
    if events == [] then None
    else
      var last := events[|events| - 1];
      if last.data.Submitted? then Some(last.data.submission) else SubmissionIn(events[..|events| - 1])
  }

  /** What the reader demands of each event, given the ones before it. */
  predicate EventOk(owner: Owner, events: seq<Event>, i: nat)
    requires i < |events|
  {
    var e := events[i];
    && e.seqno == i + 1
    && (e.data.OwnerRef? <==> i == 0)
    && (e.data.Submitted? ==> SubmissionIn(events[..i]).None? && VerifySubmission(owner, e.data.submission))
    && (e.data.Dispatch? ==> VerifyObservation(owner, SubmissionIn(events[..i]), e.data.observation))
  }

  predicate EventsOk(owner: Owner, ownerBytes: seq<Byte>, events: seq<Event>) {
    && events != [] && events[0].data == OwnerRef(Sha(ownerBytes))
    && (forall i :: 0 <= i < |events| ==> EventOk(owner, events, i))
  }

  predicate Healthy(events: seq<Event>) {
    forall i :: 0 <= i < |events| ==> !events[i].data.Health?
  }

  /** No issue at all: the only way to read as complete. The owner file decodes to `owner` exactly if it is
      the one the owner wrote. */
  predicate Complete(c: Codec, owner: Owner, ownerBytes: seq<Byte>, files: Files) {
    && files.owner == Some(ownerBytes)
    && files.checkpoint.Some? && files.checkpoint.value.ownerSha256 == Sha(ownerBytes)
    && files.checkpoint.value.issues == []
    && files.checkpoint.value.byteLength > 0 && files.checkpoint.value.eventCount > 0 && files.checkpoint.value.lastSeq > 0
    && files.log.Some?
    && var (events, repaired) := Decode(c, files.log.value);
    && !repaired && EventsOk(owner, ownerBytes, events) && Healthy(events)
    && |files.log.value| == files.checkpoint.value.byteLength && Sha(files.log.value) == files.checkpoint.value.sha256
    && |events| == files.checkpoint.value.eventCount && events[|events| - 1].seqno == files.checkpoint.value.lastSeq
  }

  // ----- What every run keeps

  /** What the owner knows about what it wrote. */
  ghost predicate WrittenOk(c: Codec, owner: Owner, s: State) {
    && s.expected == Encode(c, s.written)
    && EventsOk(owner, s.ownerBytes, s.written)
    && (forall e :: e in s.written ==> c.accepts(e))
    && s.seqno == |s.written|
    && s.submission == SubmissionIn(s.written)
    && (s.failures == [] ==> Healthy(s.written))
  }

  /** The checkpoint that is visible was made from what had been written and had failed then. */
  ghost predicate SealOk(c: Codec, s: State) {
    && (s.files.checkpoint.Some? <==> s.sealed.Some?)
    && (s.sealed.Some? ==>
          && var (events, failures) := s.sealed.value;
          && var k := s.files.checkpoint.value;
          && k.sha256 == Sha(Encode(c, events)) && k.issues == failures
          && events <= s.written)
  }

  /** Bytes that an interrupted write left make the log another one than expected, for good. */
  ghost predicate LogOk(s: State) {
    s.files.log.Some? && s.expected <= s.files.log.value
  }

  ghost predicate Inv(c: Codec, owner: Owner, s: State) {
    WrittenOk(c, owner, s) && SealOk(c, s) && LogOk(s)
  }

  lemma CreateInv(c: Codec, owner: Owner, ownerBytes: seq<Byte>, time: nat)
    requires CodecOk(c)
    ensures Inv(c, owner, Create(c, ownerBytes, time))
  {
  }

  /** The next events are in order, and the submission is known. */
  ghost predicate Follow(c: Codec, owner: Owner, s: State, events: seq<Event>) {
    && events != []
    && (forall e :: e in events ==> c.accepts(e) && !e.data.OwnerRef?)
    && (forall i :: 0 <= i < |events| ==> events[i].seqno == s.seqno + 1 + i)
    && (forall j :: |s.written| <= j < |s.written + events| ==> EventOk(owner, s.written + events, j))
    && (s.failures == [] ==> Healthy(events))
  }

  lemma WriteInv(c: Codec, owner: Owner, s: State, events: seq<Event>, weather: Weather)
    requires Inv(c, owner, s) && Follow(c, owner, s, events)
    ensures
      var (t, ok) := WriteEvents(c, s, events, weather);
      && SealOk(c, t) && LogOk(t)
      && (if ok then WrittenOk(c, owner, t.(submission := SubmissionIn(t.written))) else WrittenOk(c, owner, t))
      && t.failures == s.failures && t.written == (if ok then s.written + events else s.written)
      && t.submission == s.submission && t.closed == s.closed
  {
    hide Decode, Encode, VerifySubmission, VerifyObservation;
    var (t, ok) := WriteEvents(c, s, events, weather);
    if ok {
      EncodeConcat(c, s.written, events);
      forall i | 0 <= i < |t.written| ensures EventOk(owner, t.written, i) {
        if i < |s.written| {
          assert EventOk(owner, s.written, i);
          assert t.written[..i] == s.written[..i];
        } else {
          assert EventOk(owner, s.written + events, i);
        }
      }
    }
  }

  lemma SubmissionAfter(events: seq<Event>, e: Event)
    ensures SubmissionIn(events + [e]) == if e.data.Submitted? then Some(e.data.submission) else SubmissionIn(events)
  {
    assert (events + [e])[..|events|] == events;
  }

  lemma FollowOne(c: Codec, owner: Owner, s: State, e: Event)
    requires WrittenOk(c, owner, s) && e.seqno == s.seqno + 1 && c.accepts(e) && !e.data.OwnerRef?
    requires e.data.Submitted? ==> s.submission.None? && VerifySubmission(owner, e.data.submission)
    requires e.data.Dispatch? ==> VerifyObservation(owner, s.submission, e.data.observation)
    requires e.data.Health? ==> s.failures != []
    ensures Follow(c, owner, s, [e])
  {
    hide Encode, VerifySubmission, VerifyObservation;
    var n := |s.written|;
    assert (s.written + [e])[..n] == s.written && (s.written + [e])[n] == e;
    assert EventOk(owner, s.written + [e], n);
  }

  lemma AppendInv(c: Codec, owner: Owner, s: State, data: Data, time: nat, weather: Weather, reason: string)
    requires CodecOk(c) && Inv(c, owner, s)
    ensures Inv(c, owner, Append(c, owner, s, data, time, weather, reason).0)
  {
    hide WriteEvents, EventsOk, Encode, Healthy, VerifySubmission, VerifyObservation, CodecOk;
    if !s.closed {
      var e := Event(s.seqno + 1, time, data);
      var marked := if data.Health? && !Blank(data.reason) then s.(failures := Mark(s.failures, data.reason)) else s;
      assert Inv(c, owner, marked);
      if MayAppend(c, owner, s, data, e) {
        FollowOne(c, owner, marked, e);
        WriteInv(c, owner, marked, [e], weather);
        SubmissionAfter(s.written, e);
      }
    }
  }

  lemma PersistInv(c: Codec, owner: Owner, s: State, submission: Submission, o: Observation, time: nat, weather: Weather, reason: string)
    requires CodecOk(c) && Inv(c, owner, s)
    ensures Inv(c, owner, Persist(c, owner, s, submission, o, time, weather, reason).0)
  {
    hide WriteEvents, EventsOk, Encode, Healthy, VerifySubmission, VerifyObservation;
    var first := Event(s.seqno + 1, time, Submitted(submission));
    if !s.closed && VerifySubmission(owner, submission) && (s.submission.Some? ==> s.submission == Some(submission))
       && VerifyObservation(owner, Some(submission), o) {
      if s.submission.None? {
        var second := Event(s.seqno + 2, time, Dispatch(o));
        FollowTwo(c, owner, s, first, second);
        WriteInv(c, owner, s, [first, second], weather);
        SubmissionAfter(s.written, first);
        SubmissionAfter(s.written + [first], second);
        assert s.written + [first, second] == s.written + [first] + [second];
      } else {
        var only := Event(s.seqno + 1, time, Dispatch(o));
        FollowOne(c, owner, s, only);
        WriteInv(c, owner, s, [only], weather);
        SubmissionAfter(s.written, only);
      }
    }
  }

  lemma FollowTwo(c: Codec, owner: Owner, s: State, a: Event, b: Event)
    requires CodecOk(c) && WrittenOk(c, owner, s) && s.submission.None?
    requires a.seqno == s.seqno + 1 && a.data.Submitted? && VerifySubmission(owner, a.data.submission)
    requires b.seqno == s.seqno + 2 && b.data.Dispatch? && VerifyObservation(owner, Some(a.data.submission), b.data.observation)
    ensures Follow(c, owner, s, [a, b])
  {
    hide Encode, VerifySubmission, VerifyObservation, Healthy;
    var n, all := |s.written|, s.written + [a, b];
    assert all[..n] == s.written && all[n] == a && all[..n + 1] == s.written + [a] && all[n + 1] == b;
    SubmissionAfter(s.written, a);
    assert EventOk(owner, all, n) && EventOk(owner, all, n + 1);
    assert Healthy([a, b]) by { BothHealthy(a, b); }
  }

  lemma BothHealthy(a: Event, b: Event)
    requires !a.data.Health? && !b.data.Health?
    ensures Healthy([a, b])
  {
  }

  lemma FailInv(c: Codec, owner: Owner, s: State, why: string, time: nat, weather: Weather, reason: string)
    requires CodecOk(c) && Inv(c, owner, s)
    ensures Inv(c, owner, Fail(c, s, why, time, weather, reason).0)
  {
    hide WriteEvents, EventsOk, Encode, Healthy;
    if !s.closed {
      var e := Event(s.seqno + 1, time, Health(why));
      var t := Failed(s, why);
      FollowOne(c, owner, t, e);
      WriteInv(c, owner, t, [e], weather);
      SubmissionAfter(t.written, e);
    }
  }

  /** A checkpoint of what was written, with what had failed. */
  lemma VisibleInv(c: Codec, owner: Owner, s: State, checkpoint: Checkpoint)
    requires Inv(c, owner, s) && checkpoint.sha256 == Sha(s.expected) && checkpoint.issues == s.failures
    ensures Inv(c, owner, s.(files := s.files.(checkpoint := Some(checkpoint)), sealed := Some((s.written, s.failures))))
  {
    hide EventsOk, Encode, Healthy;
  }

  lemma PoisonInv(c: Codec, owner: Owner, s: State, time: nat, weather: Weather, reason: string)
    requires CodecOk(c) && Inv(c, owner, s)
    ensures Inv(c, owner, WriteEvents(c, Failed(s, reason), [Event(s.seqno + 1, time, Health(reason))], weather).0)
  {
    hide WriteEvents, EventsOk, Encode, Healthy;
    var e := Event(s.seqno + 1, time, Health(reason));
    var t := Failed(s, reason);
    FollowOne(c, owner, t, e);
    WriteInv(c, owner, t, [e], weather);
    SubmissionAfter(t.written, e);
  }

  lemma SealInv(c: Codec, owner: Owner, s: State, time: nat, publication: Publication, weather: Weather, reason: string)
    requires CodecOk(c) && Inv(c, owner, s)
    ensures Inv(c, owner, Seal(c, s, time, publication, weather, reason).0)
  {
    hide WriteEvents, EventsOk, Encode, Healthy, WrittenOk;
    if !s.closed {
      var checkpoint := Checkpoint(Sha(s.ownerBytes), |s.expected|, Sha(s.expected), s.seqno, s.seqno, s.failures);
      VisibleInv(c, owner, s, checkpoint);
      var visible := s.(files := s.files.(checkpoint := Some(checkpoint)), sealed := Some((s.written, s.failures)));
      PoisonInv(c, owner, s, time, weather, reason);
      PoisonInv(c, owner, visible, time, weather, reason);
      ClosedInv(c, owner, visible);
    }
  }

  lemma ClosedInv(c: Codec, owner: Owner, s: State)
    requires Inv(c, owner, s)
    ensures Inv(c, owner, s.(closed := true))
  {
    hide EventsOk, Encode, Healthy;
  }

  lemma DoInv(c: Codec, owner: Owner, s: State, call: Call)
    requires CodecOk(c) && Inv(c, owner, s)
    ensures Inv(c, owner, Do(c, owner, s, call))
  {
    hide Inv, CodecOk, Append, Persist, Fail, Seal;
    match call
    case Appends(data, time, weather, reason) => AppendInv(c, owner, s, data, time, weather, reason);
    case Persists(submission, o, time, weather, reason) => PersistInv(c, owner, s, submission, o, time, weather, reason);
    case Fails(why, time, weather, reason) => FailInv(c, owner, s, why, time, weather, reason);
    case Seals(time, publication, weather, reason) => SealInv(c, owner, s, time, publication, weather, reason);
  }

  lemma {:induction false} RunInv(c: Codec, owner: Owner, s: State, calls: seq<Call>)
    requires CodecOk(c) && Inv(c, owner, s)
    ensures Inv(c, owner, Run(c, owner, s, calls))
    decreases |calls|
  {
    hide Inv, CodecOk, Do;
    if calls != [] {
      DoInv(c, owner, s, calls[0]);
      RunInv(c, owner, Do(c, owner, s, calls[0]), calls[1..]);
    }
  }

  // ----- What the reader's verdict means

  /** If the reader reports complete coverage after any run under any failures, then it shows exactly the
      events that were written successfully, numbered from one, the owner reference first and only
      there, with one submission at most, before its observations; and nothing had failed when the
      checkpoint was made. */
  lemma CompleteMeansExact(c: Codec, owner: Owner, ownerBytes: seq<Byte>, time: nat, calls: seq<Call>)
    requires CodecOk(c)
    requires Complete(c, owner, ownerBytes, Run(c, owner, Create(c, ownerBytes, time), calls).files)
    ensures
      var s := Run(c, owner, Create(c, ownerBytes, time), calls);
      && Decode(c, s.files.log.value) == (s.written, false)
      && EventsOk(owner, ownerBytes, s.written)
      && s.sealed == Some((s.written, []))
  {
    hide Do, EventsOk, Healthy, Encode;
    var start := Create(c, ownerBytes, time);
    CreateInv(c, owner, ownerBytes, time);
    RunInv(c, owner, start, calls);
    var s := Run(c, owner, start, calls);
    SameOwner(c, owner, start, calls);
    var (events, failures) := s.sealed.value;
    assert s.files.log.value == Encode(c, events);
    EncodeLength(c, events, s.written);
    assert events == s.written;
    DecodeEncode(c, s.written);
  }

  lemma {:induction false} SameOwner(c: Codec, owner: Owner, s: State, calls: seq<Call>)
    ensures Run(c, owner, s, calls).ownerBytes == s.ownerBytes
    decreases |calls|
  {
    hide Do;
    if calls != [] {
      DoOwner(c, owner, s, calls[0]);
      SameOwner(c, owner, Do(c, owner, s, calls[0]), calls[1..]);
    }
  }

  lemma DoOwner(c: Codec, owner: Owner, s: State, call: Call)
    ensures Do(c, owner, s, call).ownerBytes == s.ownerBytes
  {
    hide Encode, MayAppend;
  }

  /** Events that were written since make the log longer. */
  lemma EncodeLength(c: Codec, events: seq<Event>, written: seq<Event>)
    requires events <= written && Encode(c, written) <= Encode(c, events)
    ensures events == written
  {
    var more := written[|events|..];
    assert written == events + more;
    EncodeConcat(c, events, more);
    assert Encode(c, more) == [];
  }

  /** And a journal that nothing failed on, once it is sealed, reads as complete. */
  lemma CleanSealIsComplete(c: Codec, owner: Owner, ownerBytes: seq<Byte>, time: nat, calls: seq<Call>, at: nat, weather: Weather, reason: string)
    requires CodecOk(c)
    requires
      var s := Run(c, owner, Create(c, ownerBytes, time), calls);
      !s.closed && s.failures == [] && s.files.log == Some(s.expected) && s.files.owner == Some(s.ownerBytes)
    ensures
      var t := Seal(c, Run(c, owner, Create(c, ownerBytes, time), calls), at, Published, weather, reason).0;
      Complete(c, owner, ownerBytes, t.files)
  {
    hide Do, EventsOk, Healthy, Encode;
    var start := Create(c, ownerBytes, time);
    CreateInv(c, owner, ownerBytes, time);
    RunInv(c, owner, start, calls);
    SameOwner(c, owner, start, calls);
    var s := Run(c, owner, start, calls);
    DecodeEncode(c, s.written);
    EventsNumbered(owner, ownerBytes, s.written);
    assert Encode(c, s.written) != [] by { EncodeNotEmpty(c, s.written); }
  }

  lemma EncodeNotEmpty(c: Codec, events: seq<Event>)
    requires events != []
    ensures Encode(c, events) != []
  {
  }

  lemma EventsNumbered(owner: Owner, ownerBytes: seq<Byte>, events: seq<Event>)
    requires EventsOk(owner, ownerBytes, events)
    ensures events != [] && events[|events| - 1].seqno == |events|
  {
    assert EventOk(owner, events, |events| - 1);
  }

  /** Under one checkpoint only one log reads as complete: a torn, truncated, extended or edited one does
      not. */
  lemma OtherLogsAreNot(c: Codec, owner: Owner, ownerBytes: seq<Byte>, files: Files, other: Files)
    requires Complete(c, owner, ownerBytes, files)
    requires other.checkpoint == files.checkpoint && other.log != files.log
    ensures !Complete(c, owner, ownerBytes, other)
  {
    hide EventsOk, Healthy, Decode;
  }
}
