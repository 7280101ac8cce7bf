/**
 The journal object over the files of its directory, and the reader's loop.
 */
module DemoJournalOwner {
  import opened Wrappers
  import J = DemoJournal

  class Directory {
    var owner: Option<seq<J.Byte>>
    var log: Option<seq<J.Byte>>
    var checkpoint: Option<J.Checkpoint>

    function Files(): J.Files
      reads this
    {
      J.Files(owner, log, checkpoint)
    }
  }

  /** How many of `length` bytes a series of short writes gets to the file; a write of nothing is an error. */
  function Reach(counts: seq<nat>, length: nat): (n: nat)
    ensures n <= length
  {
    if length == 0 then 0
    else if counts == [] then length
    else if counts[0] == 0 then 0
    else if counts[0] >= length then length
    else counts[0] + Reach(counts[1..], length - counts[0])
  }

  /** What that amounts to, with the synchronisation that follows. */
  function WeatherOf(opens: bool, counts: seq<nat>, syncs: bool, length: nat): J.Weather {
    if !opens then J.FailsAfter(0)
    else if Reach(counts, length) == length && syncs then J.Fine
    else J.FailsAfter(Reach(counts, length))
  }

  /** How the file system answers the writes of one call. */
  datatype Sky = Sky(opens: bool, counts: seq<nat>, syncs: bool)

  class Journal {
    const codec: J.Codec
    const owner: J.Owner
    const ownerBytes: seq<J.Byte>
    const directory: Directory
    var seqno: nat
    var closed: bool
    var submission: Option<J.Submission>
    var expected: seq<J.Byte>
    var failures: seq<string>
    ghost var written: seq<J.Event>
    ghost var sealed: Option<(seq<J.Event>, seq<string>)>

    ghost function View(): J.State
      reads this, directory
    {
      J.State(directory.Files(), ownerBytes, seqno, closed, submission, expected, failures, written, sealed)
    }

    constructor (codec: J.Codec, owner: J.Owner, ownerBytes: seq<J.Byte>, directory: Directory, time: nat)
      modifies directory
      ensures this.codec == codec && this.owner == owner && this.directory == directory
      ensures View() == J.Create(codec, ownerBytes, time)
    {
      var first := J.Event(1, time, J.OwnerRef(J.Sha(ownerBytes)));
      var bytes := J.Encode(codec, [first]);
      this.codec, this.owner, this.ownerBytes, this.directory := codec, owner, ownerBytes, directory;
      seqno, closed, submission, expected, failures := 1, false, None, bytes, [];
      written, sealed := [first], None;
      new;
      directory.owner, directory.log, directory.checkpoint := Some(ownerBytes), Some(bytes), None;
    }

    /** Write after write, until everything is there or one writes nothing. */
    method WriteAll(bytes: seq<J.Byte>, counts: seq<nat>) returns (ok: bool)
      requires directory.log.Some?
      modifies directory`log
      ensures ok <==> Reach(counts, |bytes|) == |bytes|
      ensures directory.log == Some(old(directory.log.value) + bytes[..Reach(counts, |bytes|)])
    {
      ghost var was := directory.log.value;
      assert was + bytes[..0] == was;
      var offset, i := 0, 0;
      while offset < |bytes|
        invariant 0 <= offset <= |bytes| && 0 <= i <= |counts|
        invariant directory.log == Some(was + bytes[..offset])
        invariant Reach(counts, |bytes|) == offset + Reach(counts[i..], |bytes| - offset)
        decreases |bytes| - offset
      {
        var count := if i == |counts| || counts[i] > |bytes| - offset then |bytes| - offset else counts[i];
        if count == 0 { return false; }
        assert i < |counts| ==> counts[i..][1..] == counts[i + 1..];
        assert was + bytes[..offset] + bytes[offset..offset + count] == was + bytes[..offset + count];
        directory.log := Some(directory.log.value + bytes[offset..offset + count]);
        offset := offset + count;
        if i < |counts| { i := i + 1; }
      }
      ok := true;
    }

    method WriteEvents(events: seq<J.Event>, sky: Sky) returns (ok: bool)
      requires events != []
      modifies this, directory
      ensures (View(), ok) == J.WriteEvents(codec, old(View()), events,
                                            WeatherOf(sky.opens, sky.counts, sky.syncs, |J.Encode(codec, events)|))
    {
      hide J.Encode;
      if directory.log != Some(expected) || directory.owner != Some(ownerBytes) { return false; }
      var tail := J.Encode(codec, events);
      if !sky.opens {
        assert expected + tail[..0] == expected;
        return false;
      }
      assert tail[..|tail|] == tail;
      ok := WriteAll(tail, sky.counts);
      if !ok || !sky.syncs { return false; }
      expected := expected + tail;
      seqno := events[|events| - 1].seqno;
      written := written + events;
    }

    method Mark(reason: string)
      modifies `failures
      ensures failures == J.Mark(old(failures), reason)
    {
      if reason !in failures { failures := failures + [reason]; }
    }

    ghost function Weather(sky: Sky, events: seq<J.Event>): J.Weather {
      WeatherOf(sky.opens, sky.counts, sky.syncs, |J.Encode(codec, events)|)
    }

    method Append(data: J.Data, time: nat, sky: Sky, reason: string) returns (ok: bool)
      modifies this, directory
      ensures (View(), ok) == J.Append(codec, owner, old(View()), data, time,
                                       Weather(sky, [J.Event(old(seqno) + 1, time, data)]), reason)
    {
      hide J.Encode, J.MayAppend, J.WriteEvents, J.Mark, WeatherOf;
      if closed { return false; }
      var e := J.Event(seqno + 1, time, data);
      var may := MayAppend(data, e);
      if data.Health? && !J.Blank(data.reason) { Mark(data.reason); }
      if !may {
        Mark(reason);
        return false;
      }
      ok := WriteEvents([e], sky);
      if !ok {
        Mark(reason);
        return false;
      }
      if data.Submitted? { submission := Some(data.submission); }
    }

    method MayAppend(data: J.Data, e: J.Event) returns (may: bool)
      ensures forall s: J.State :: s.submission == submission ==> may == J.MayAppend(codec, owner, s, data, e)
    {
      if data.Submitted? && (submission.Some? || !J.VerifySubmission(owner, data.submission)) { return false; }
      if data.Dispatch? && !J.VerifyObservation(owner, submission, data.observation) { return false; }
      may := !data.OwnerRef? && (data.Health? ==> !J.Blank(data.reason)) && codec.accepts(e);
    }

    method Persist(value: J.Submission, o: J.Observation, time: nat, sky: Sky, reason: string) returns (ok: bool)
      modifies this, directory
      ensures (View(), ok) == J.Persist(codec, owner, old(View()), value, o, time, Weather(sky, old(Persisted(value, o, time))), reason)
    {
      hide J.Encode, J.WriteEvents, J.Mark, WeatherOf, J.VerifySubmission, J.VerifyObservation;
      if closed { return false; }
      if !J.VerifySubmission(owner, value) || (submission.Some? && submission != Some(value)) || !J.VerifyObservation(owner, Some(value), o) {
        Mark(reason);
        return false;
      }
      var events := Persisted(value, o, time);
      ok := WriteEvents(events, sky);
      if !ok {
        Mark(reason);
        return false;
      }
      submission := Some(value);
    }

    function Persisted(value: J.Submission, o: J.Observation, time: nat): seq<J.Event>
      reads this
    {
      if submission.None? then [J.Event(seqno + 1, time, J.Submitted(value)), J.Event(seqno + 2, time, J.Dispatch(o))]
      else [J.Event(seqno + 1, time, J.Dispatch(o))]
    }

    method Fail(why: string, time: nat, sky: Sky, reason: string) returns (ok: bool)
      modifies this, directory
      ensures (View(), ok) == J.Fail(codec, old(View()), why, time, Weather(sky, [J.Event(old(seqno) + 1, time, J.Health(why))]), reason)
    {
      hide J.Encode, J.WriteEvents, J.Mark, WeatherOf;
      if closed { return false; }
      if J.Blank(why) {
        Mark(reason);
        return false;
      }
      Mark(why);
      ok := WriteEvents([J.Event(seqno + 1, time, J.Health(why))], sky);
      if !ok { Mark(reason); }
    }

    method Seal(time: nat, publication: J.Publication, sky: Sky, reason: string) returns (ok: bool)
      modifies this, directory
      ensures (View(), ok) == J.Seal(codec, old(View()), time, publication, Weather(sky, [J.Event(old(seqno) + 1, time, J.Health(reason))]), reason)
    {
      hide J.Encode, J.WriteEvents, J.Mark, WeatherOf;
      if closed { return true; }
      var intact := directory.log == Some(expected) && directory.owner == Some(ownerBytes);
      if intact && !publication.LostBeforeRename? {
        directory.checkpoint := Some(J.Checkpoint(J.Sha(ownerBytes), |expected|, J.Sha(expected), seqno, seqno, failures));
        sealed := Some((written, failures));
      }
      if intact && publication.Published? {
        closed := true;
        return true;
      }
      Mark(reason);
      var _ := WriteEvents([J.Event(seqno + 1, time, J.Health(reason))], sky);
      ok := false;
    }
  }

  // ----- The reader

  function Observations(events: seq<J.Event>): seq<(nat, J.Observation)> {
    if events == [] then []
    else
      var last := events[|events| - 1];
      Observations(events[..|events| - 1]) + if last.data.Dispatch? then [(last.seqno, last.data.observation)] else []
  }

  /** The reader's checks of the events, one after the other. */
  method CheckEvents(owner: J.Owner, ownerBytes: seq<J.Byte>, events: seq<J.Event>)
    returns (valid: bool, healthy: bool, observations: seq<(nat, J.Observation)>)
    ensures valid <==> J.EventsOk(owner, ownerBytes, events)
    ensures valid ==> (healthy <==> J.Healthy(events)) && observations == Observations(events)
  {
    hide J.VerifySubmission, J.VerifyObservation;
    observations, healthy := [], true;
    if events == [] || events[0].data != J.OwnerRef(J.Sha(ownerBytes)) { return false, healthy, observations; }
    var submission: Option<J.Submission> := None;
    var i := 0;
    while i < |events|
      invariant 0 <= i <= |events|
      invariant forall k :: 0 <= k < i ==> J.EventOk(owner, events, k)
      invariant submission == J.SubmissionIn(events[..i]) && observations == Observations(events[..i])
      invariant healthy <==> forall k :: 0 <= k < i ==> !events[k].data.Health?
    {
      var event := events[i];
      assert events[..i + 1][..i] == events[..i];
      if event.seqno != i + 1 || (i > 0 && event.data.OwnerRef?) {
        assert !J.EventOk(owner, events, i);
        return false, healthy, observations;
      }
      if event.data.Submitted? {
        if submission.Some? || !J.VerifySubmission(owner, event.data.submission) {
          assert !J.EventOk(owner, events, i);
          return false, healthy, observations;
        }
        submission := Some(event.data.submission);
      }
      if event.data.Dispatch? {
        if !J.VerifyObservation(owner, submission, event.data.observation) {
          assert !J.EventOk(owner, events, i);
          return false, healthy, observations;
        }
        observations := observations + [(event.seqno, event.data.observation)];
      }
      if event.data.Health? { healthy := false; }
      i := i + 1;
    }
    assert events[..i] == events;
    valid := true;
  }

  /** Complete exactly when nothing at all is wrong, and then with every observation in order. */
  method ReadDemoJournal(c: J.Codec, owner: J.Owner, ownerBytes: seq<J.Byte>, directory: Directory)
    returns (complete: bool, observations: seq<(nat, J.Observation)>)
    ensures complete <==> J.Complete(c, owner, ownerBytes, directory.Files())
    ensures complete ==> observations == Observations(J.Decode(c, directory.log.value).0)
  {
    hide J.Decode, J.EventsOk, J.Healthy;
    observations := [];
    if directory.owner != Some(ownerBytes) || directory.checkpoint.None? || directory.log.None? { return false, []; }
    var checkpoint, log := directory.checkpoint.value, directory.log.value;
    if checkpoint.ownerSha256 != J.Sha(ownerBytes) || checkpoint.issues != []
       || checkpoint.byteLength == 0 || checkpoint.eventCount == 0 || checkpoint.lastSeq == 0 { return false, []; }
    var (events, repaired) := J.Decode(c, log);
    var valid, healthy, found := CheckEvents(owner, ownerBytes, events);
    if repaired || !valid || !healthy { return false, found; }
    assert events != [] by { NotEmpty(owner, ownerBytes, events); }
    if |log| != checkpoint.byteLength || J.Sha(log) != checkpoint.sha256
       || |events| != checkpoint.eventCount || events[|events| - 1].seqno != checkpoint.lastSeq { return false, found; }
    return true, found;
  }

  lemma NotEmpty(owner: J.Owner, ownerBytes: seq<J.Byte>, events: seq<J.Event>)
    requires J.EventsOk(owner, ownerBytes, events)
    ensures events != []
  {
  }
}
