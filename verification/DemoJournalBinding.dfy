/**
 What the journal binds together, event by event: one submission, the observations of exactly it, and the owner they
 are for; what each call of the owner writes and refuses; and that a failure is never read as complete.
 */
module DemoJournalBinding {
  import opened Wrappers
  import opened DemoJournal

  // ----- Events that belong together

  /** The observation is of this submission, and both are the owner's. A first observation of Claude Code is of the
      message that began the run, never of live input. */
  predicate Bound(owner: Owner, s: Submission, o: Observation) {
    && o.transportSha256 == s.transportSha256
    && o.messageId == owner.messageId && o.dispatch == owner.dispatch
    && !(owner.claudeCode && o.initial && s.liveInput)
    && !(owner.claudeCode && o.initial && s.messageId != owner.initialMessageId)
  }

  /** The log as it has to be: numbered from one, the reference to the owner file first and only there, at most one
      submission, which is the owner's, and every observation after it and bound to it. */
  ghost predicate Rightful(owner: Owner, ownerBytes: seq<Byte>, events: seq<Event>) {
    && events != [] && events[0].data == OwnerRef(Sha(ownerBytes))
    && (forall i :: 0 <= i < |events| ==> events[i].seqno == i + 1)
    && (forall i :: 0 < i < |events| ==> !events[i].data.OwnerRef?)
    && (forall i, j :: 0 <= i < j < |events| ==> !(events[i].data.Submitted? && events[j].data.Submitted?))
    && (forall i :: 0 <= i < |events| && events[i].data.Submitted? ==>
          events[i].data.submission.messageId == owner.messageId && events[i].data.submission.dispatch == owner.dispatch)
    && (forall i :: 0 <= i < |events| && events[i].data.Dispatch? ==>
          exists j :: 0 <= j < i && events[j].data.Submitted? && Bound(owner, events[j].data.submission, events[i].data.observation))
  }

  lemma {:induction false} SubmissionInIs(events: seq<Event>)
    ensures SubmissionIn(events).None? <==> forall i :: 0 <= i < |events| ==> !events[i].data.Submitted?
    ensures SubmissionIn(events).Some? ==> exists i :: 0 <= i < |events| && events[i].data == Submitted(SubmissionIn(events).value)
    decreases |events|
  {
    if events != [] {
      var front := events[..|events| - 1];
      SubmissionInIs(front);
      if !events[|events| - 1].data.Submitted? {
        if SubmissionIn(front).Some? {
          var i :| 0 <= i < |front| && front[i].data == Submitted(SubmissionIn(front).value);
          assert events[i] == front[i];
        } else {
          assert forall i :: 0 <= i < |front| ==> front[i] == events[i];
        }
      }
    }
  }

  lemma OneSubmission(owner: Owner, events: seq<Event>, i: nat, j: nat)
    requires i < j < |events| && EventOk(owner, events, j)
    ensures !(events[i].data.Submitted? && events[j].data.Submitted?)
  {
    SubmissionInIs(events[..j]);
    assert events[..j][i] == events[i];
  }

  lemma ObservedBound(owner: Owner, events: seq<Event>, i: nat)
    requires i < |events| && EventOk(owner, events, i) && events[i].data.Dispatch?
    ensures exists j :: 0 <= j < i && events[j].data.Submitted? && Bound(owner, events[j].data.submission, events[i].data.observation)
  {
    SubmissionInIs(events[..i]);
    var s := SubmissionIn(events[..i]).value;
    var j :| 0 <= j < |events[..i]| && events[..i][j].data == Submitted(s);
    assert events[j].data.Submitted? && Bound(owner, events[j].data.submission, events[i].data.observation);
  }

  lemma RightfulAt(owner: Owner, ownerBytes: seq<Byte>, events: seq<Event>, i: nat)
    requires Rightful(owner, ownerBytes, events) && i < |events|
    ensures EventOk(owner, events, i)
  {
    var before := events[..i];
    SubmissionInIs(before);
    assert forall k :: 0 <= k < i ==> before[k] == events[k];
    if events[i].data.Dispatch? {
      var j :| 0 <= j < i && events[j].data.Submitted? && Bound(owner, events[j].data.submission, events[i].data.observation);
      assert before[j].data.Submitted?;
      var k :| 0 <= k < |before| && before[k].data == Submitted(SubmissionIn(before).value);
      assert k == j;
    }
  }

  lemma RightfulIff(owner: Owner, ownerBytes: seq<Byte>, events: seq<Event>)
    ensures EventsOk(owner, ownerBytes, events) <==> Rightful(owner, ownerBytes, events)
  {
    if EventsOk(owner, ownerBytes, events) {
      forall i, j | 0 <= i < j < |events| ensures !(events[i].data.Submitted? && events[j].data.Submitted?) {
        OneSubmission(owner, events, i, j);
      }
      forall i | 0 <= i < |events| && events[i].data.Dispatch?
        ensures exists j :: 0 <= j < i && events[j].data.Submitted? && Bound(owner, events[j].data.submission, events[i].data.observation)
      {
        ObservedBound(owner, events, i);
      }
      forall i | 0 <= i < |events|
        ensures events[i].seqno == i + 1 && (i > 0 ==> !events[i].data.OwnerRef?)
        ensures events[i].data.Submitted? ==>
          events[i].data.submission.messageId == owner.messageId && events[i].data.submission.dispatch == owner.dispatch
      {
        assert EventOk(owner, events, i);
      }
    }
    if Rightful(owner, ownerBytes, events) {
      forall i | 0 <= i < |events| ensures EventOk(owner, events, i) { RightfulAt(owner, ownerBytes, events, i); }
    }
  }

  /** The reader's verdict, in full: the owner file and the log are the ones that the checkpoint was made of, by hash,
      length and count; no failure was reported, there or in the log; and the log is as it has to be. */
  lemma CompleteIff(c: Codec, owner: Owner, ownerBytes: seq<Byte>, files: Files)
    ensures Complete(c, owner, ownerBytes, files) <==>
      && files.owner == Some(ownerBytes) && files.log.Some? && files.checkpoint.Some?
      && var (events, repaired) := Decode(c, files.log.value);
      && !repaired && Rightful(owner, ownerBytes, events)
      && (forall i :: 0 <= i < |events| ==> !events[i].data.Health?)
      && files.log.value != []
      && files.checkpoint.value ==
           Checkpoint(Sha(ownerBytes), |files.log.value|, Sha(files.log.value), |events|, |events|, [])
  {
    hide Decode, EventsOk, Rightful;
    if files.log.Some? {
      var events := Decode(c, files.log.value).0;
      RightfulIff(owner, ownerBytes, events);
      if EventsOk(owner, ownerBytes, events) { EventsNumbered(owner, ownerBytes, events); }
    }
  }

  // ----- What the owner writes and refuses

  /** Nobody else changed the files. */
  predicate Intact(s: State) {
    s.files.log == Some(s.expected) && s.files.owner == Some(s.ownerBytes)
  }

  /** The call took its events in: at the end of the log and of what counts as written. */
  ghost predicate Wrote(c: Codec, s: State, t: State, events: seq<Event>) {
    && t.files.log == Some(s.expected + Encode(c, events)) && t.expected == s.expected + Encode(c, events)
    && t.written == s.written + events && t.seqno == s.seqno + |events|
    && t.files.owner == s.files.owner && t.files.checkpoint == s.files.checkpoint && t.closed == s.closed && t.sealed == s.sealed
  }

  /** A submission with its observation is persisted exactly if both are the owner's and belong together, the
      submission is the one there was, and the storage is intact and takes the write. What is written is the
      submission, if it was not yet, and then the observation. Otherwise it throws, and unless the journal is closed
      the reason sticks. */
  lemma PersistIff(c: Codec, owner: Owner, s: State, submission: Submission, o: Observation, time: nat, weather: Weather, reason: string)
    ensures
      var (t, ok) := Persist(c, owner, s, submission, o, time, weather, reason);
      && (ok <==>
            && !s.closed && Intact(s) && weather.Fine?
            && submission.messageId == owner.messageId && submission.dispatch == owner.dispatch
            && (s.submission.Some? ==> s.submission.value == submission) && Bound(owner, submission, o))
      && (ok ==>
            && t.submission == Some(submission) && t.failures == s.failures
            && Wrote(c, s, t, if s.submission.Some? then [Event(s.seqno + 1, time, Dispatch(o))]
                              else [Event(s.seqno + 1, time, Submitted(submission)), Event(s.seqno + 2, time, Dispatch(o))]))
      && (!ok ==> t.written == s.written && t.expected == s.expected && t.submission == s.submission && (s.closed || reason in t.failures))
  {
    hide Encode;
  }

  /** So it is with single events: a submission has to be the owner's first, an observation has to be bound to it, a
      health report says something, and no second reference to the owner is taken. */
  lemma AppendIff(c: Codec, owner: Owner, s: State, data: Data, time: nat, weather: Weather, reason: string)
    ensures
      var (t, ok) := Append(c, owner, s, data, time, weather, reason);
      var e := Event(s.seqno + 1, time, data);
      && (ok <==>
            && !s.closed && Intact(s) && weather.Fine? && c.accepts(e)
            && (match data
                case OwnerRef(_) => false
                case Health(why) => exists i :: 0 <= i < |why| && why[i] !in " \t\n\r"
                case Submitted(x) => s.submission.None? && x.messageId == owner.messageId && x.dispatch == owner.dispatch
                case Dispatch(o) => s.submission.Some? && Bound(owner, s.submission.value, o)
                case Other(_, _) => true))
      && (ok ==>
            && Wrote(c, s, t, [e]) && t.submission == (if data.Submitted? then Some(data.submission) else s.submission)
            && (if data.Health? then data.reason in t.failures else t.failures == s.failures))
      && (!ok ==> t.written == s.written && t.expected == s.expected && t.submission == s.submission && (s.closed || reason in t.failures))
      && (forall x :: x in t.failures <==>
            x in s.failures || (!ok && !s.closed && x == reason) || (!s.closed && data.Health? && !Blank(x) && x == data.reason))
  {
    hide Encode;
    if data.Health? { BlankIs(data.reason); }
  }

  lemma BlankIs(reason: string)
    ensures Blank(reason) <==> forall i :: 0 <= i < |reason| ==> reason[i] in " \t\n\r"
  {
  }

  /** A failure that is reported is recorded in the log, and sticks even if that cannot be written. */
  lemma FailIff(c: Codec, s: State, why: string, time: nat, weather: Weather, reason: string)
    ensures
      var (t, ok) := Fail(c, s, why, time, weather, reason);
      && (ok <==> !s.closed && Intact(s) && weather.Fine? && !Blank(why))
      && (ok ==> Wrote(c, s, t, [Event(s.seqno + 1, time, Health(why))]))
      && (!s.closed ==> if Blank(why) then reason in t.failures else why in t.failures)
      && (s.closed ==> t == s)
  {
    hide Encode, Blank;
  }

  /** A journal is closed exactly by a checkpoint of the intact files that is published; and that says what was written
      and everything that had failed. */
  lemma SealIff(c: Codec, s: State, time: nat, publication: Publication, weather: Weather, reason: string)
    ensures
      var (t, ok) := Seal(c, s, time, publication, weather, reason);
      && (ok <==> s.closed || (Intact(s) && publication.Published?))
      && (ok ==> t.closed && t.written == s.written && t.files.log == s.files.log && t.files.owner == s.files.owner)
      && (ok && !s.closed ==> t.files.checkpoint == Some(Checkpoint(Sha(s.ownerBytes), |s.expected|, Sha(s.expected), s.seqno, s.seqno, s.failures)))
      && (!ok ==> !t.closed && reason in t.failures)
      && (!ok ==>
            t.files.checkpoint == (if Intact(s) && publication.LostAfterRename?
                                   then Some(Checkpoint(Sha(s.ownerBytes), |s.expected|, Sha(s.expected), s.seqno, s.seqno, s.failures))
                                   else s.files.checkpoint))
      && (!ok && Intact(s) && weather.Fine? ==> t.written == s.written + [Event(s.seqno + 1, time, Health(reason))])
  {
    hide Encode;
  }

  /** A new journal is open, with nothing failed; its log has the reference to the owner file, and nothing else. */
  lemma NewIsOpen(c: Codec, ownerBytes: seq<Byte>, time: nat)
    ensures
      var s := Create(c, ownerBytes, time);
      && !s.closed && s.failures == [] && s.submission == None && s.files.checkpoint == None && s.ownerBytes == ownerBytes && Intact(s)
      && s.seqno == 1 && s.written == [Event(1, time, OwnerRef(Sha(ownerBytes)))] && s.expected == c.line(s.written[0]) + [NEWLINE]
  {
    assert Encode(c, [Event(1, time, OwnerRef(Sha(ownerBytes)))][1..]) == [];
  }

  /** A write that breaks off leaves what it reached in the log, at most everything; but it counts for nothing, so that the next
      write finds the log changed. */
  lemma TornExactly(c: Codec, s: State, events: seq<Event>, n: nat) returns (k: nat)
    requires events != []
    ensures k == n || (k < n && k == |Encode(c, events)|)
    ensures
      var (t, ok) := WriteEvents(c, s, events, FailsAfter(n));
      && !ok
      && (!Intact(s) ==> t == s)
      && (Intact(s) ==>
            && k <= |Encode(c, events)| && (n > 0 ==> !Intact(t))
            && t == s.(files := s.files.(log := Some(s.expected + Encode(c, events)[..k]))))
  {
    var tail := Encode(c, events);
    k := if n < |tail| then n else |tail|;
    assert c.line(events[0]) + [NEWLINE] <= tail;
  }

  // ----- What a log is read as

  /** The bytes of these lines. */
  function Text(lines: seq<seq<Byte>>): seq<Byte> {
    if lines == [] then [] else lines[0] + [NEWLINE] + Text(lines[1..])
  }

  /** Its first line is no event. */
  ghost predicate Unreadable(c: Codec, bytes: seq<Byte>) {
    exists n: nat :: n < |bytes| && bytes[n] == NEWLINE && NEWLINE !in bytes[..n] && c.parse(bytes[..n]).None?
  }

  /** These lines are these events. */
  predicate Say(c: Codec, lines: seq<seq<Byte>>, events: seq<Event>) {
    |lines| == |events| && forall i :: 0 <= i < |lines| ==> NEWLINE !in lines[i] && c.parse(lines[i]) == Some(events[i])
  }

  /** A log is read line by line, as far as whole lines are events. It counts as repaired exactly if something is left: a line
      without an end, or one that is no event. */
  lemma {:induction false} DecodesExactly(c: Codec, bytes: seq<Byte>) returns (lines: seq<seq<Byte>>, rest: seq<Byte>)
    ensures
      var (events, repaired) := Decode(c, bytes);
      && bytes == Text(lines) + rest && Say(c, lines, events)
      && (repaired <==> rest != []) && (rest != [] ==> NEWLINE !in rest || Unreadable(c, rest))
    decreases |bytes|
  {
    hide Unreadable, Say;
    var n := LineEnd(bytes);
    if bytes == [] || n == |bytes| || c.parse(bytes[..n]).None? {
      lines, rest := [], bytes;
      assert bytes[..|bytes|] == bytes;
      assert Say(c, [], []) by { SayNothing(c); }
      if n < |bytes| { assert Unreadable(c, rest) by { FirstIsUnreadable(c, bytes); } }
    } else {
      var more;
      more, rest := DecodesExactly(c, bytes[n + 1..]);
      lines := [bytes[..n]] + more;
      SayOneMore(c, bytes[..n], more, Decode(c, bytes[n + 1..]).0);
      TextOfOneMore(bytes, n, more, rest);
    }
  }

  lemma SayNothing(c: Codec)
    ensures Say(c, [], [])
  {
  }

  lemma SayOneMore(c: Codec, line: seq<Byte>, lines: seq<seq<Byte>>, events: seq<Event>)
    requires Say(c, lines, events) && NEWLINE !in line && c.parse(line).Some?
    ensures Say(c, [line] + lines, [c.parse(line).value] + events)
  {
  }

  lemma TextOfOneMore(bytes: seq<Byte>, n: nat, more: seq<seq<Byte>>, rest: seq<Byte>)
    requires n < |bytes| && bytes[n] == NEWLINE && bytes[n + 1..] == Text(more) + rest
    ensures bytes == Text([bytes[..n]] + more) + rest
  {
    assert ([bytes[..n]] + more)[1..] == more;
    assert bytes == bytes[..n] + [NEWLINE] + bytes[n + 1..];
  }

  lemma FirstIsUnreadable(c: Codec, bytes: seq<Byte>)
    requires LineEnd(bytes) < |bytes| && c.parse(bytes[..LineEnd(bytes)]).None?
    ensures Unreadable(c, bytes)
  {
  }

  // ----- A failure is never read as complete

  ghost predicate Marred(s: State) {
    s.failures != [] && (s.files.checkpoint.Some? ==> s.files.checkpoint.value.issues != [])
  }

  lemma DoKeepsMarred(c: Codec, owner: Owner, s: State, call: Call)
    requires Marred(s)
    ensures Marred(Do(c, owner, s, call))
  {
    hide Encode, MayAppend, VerifySubmission, VerifyObservation, Blank;
  }

  lemma {:induction false} RunKeepsMarred(c: Codec, owner: Owner, s: State, calls: seq<Call>)
    requires Marred(s)
    ensures Marred(Run(c, owner, s, calls))
    decreases |calls|
  {
    hide Do, Marred;
    if calls != [] {
      DoKeepsMarred(c, owner, s, calls[0]);
      RunKeepsMarred(c, owner, Do(c, owner, s, calls[0]), calls[1..]);
    }
  }

  /** Once a failure is known, and no checkpoint was visible before, no run whatever ends in a journal that reads as
      complete. */
  lemma FailureSticks(c: Codec, owner: Owner, ownerBytes: seq<Byte>, s: State, calls: seq<Call>)
    requires s.failures != [] && s.files.checkpoint.None?
    ensures !Complete(c, owner, ownerBytes, Run(c, owner, s, calls).files)
  {
    hide Run, Decode, EventsOk;
    RunKeepsMarred(c, owner, s, calls);
  }

  /** Each failure is told once. */
  predicate Once(failures: seq<string>) {
    forall i, j :: 0 <= i < j < |failures| ==> failures[i] != failures[j]
  }

  lemma MarkOnce(failures: seq<string>, reason: string)
    requires Once(failures)
    ensures Once(Mark(failures, reason))
  {
  }

  lemma DoKeepsOnce(c: Codec, owner: Owner, s: State, call: Call)
    requires Once(s.failures)
    ensures Once(Do(c, owner, s, call).failures)
  {
    hide Encode, MayAppend, VerifySubmission, VerifyObservation, Blank, Once, Mark;
    match call
    case Appends(data, _, _, reason) =>
      MarkOnce(s.failures, reason);
      if data.Health? {
        MarkOnce(s.failures, data.reason);
        MarkOnce(Mark(s.failures, data.reason), reason);
      }
    case Persists(_, _, _, _, reason) => MarkOnce(s.failures, reason);
    case Fails(why, _, _, reason) =>
      MarkOnce(s.failures, reason);
      MarkOnce(s.failures, why);
      MarkOnce(Mark(s.failures, why), reason);
    case Seals(_, _, _, reason) => MarkOnce(s.failures, reason);
  }

  /** Over every run. */
  lemma {:induction false} FailuresOnce(c: Codec, owner: Owner, s: State, calls: seq<Call>)
    requires Once(s.failures)
    ensures Once(Run(c, owner, s, calls).failures)
    decreases |calls|
  {
    hide Do, Once;
    if calls != [] {
      DoKeepsOnce(c, owner, s, calls[0]);
      FailuresOnce(c, owner, Do(c, owner, s, calls[0]), calls[1..]);
    }
  }
}
