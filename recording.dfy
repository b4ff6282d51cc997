// The recording session of the telemetry backend (hmi/backend/app/main.py):
// the recording_* endpoints and the recording hook at the top of the MQTT
// message handler. Records are kept in memory and written as a JSON file on stop.

module Recording {
  import opened Wrappers
  import opened Json
  import Base64
  import Sanitize

  type byte = Base64.byte

  /** One buffered message: the wall-clock time, the topic and the base64 of the raw payload. */
  datatype Entry = Entry(timestamp: real, topic: string, payload: string)

  /** `[str(t) for t in topics]` when `topics` is a non-empty list; None (all topics) otherwise. */
  function TopicsOf(v: Json, repr: Json -> string): (r: Option<seq<string>>)
    ensures r.Some? <==> v.JArr? && |v.items| > 0
    ensures r.Some? ==> |r.value| == |v.items|
    ensures r.Some? ==> forall i :: 0 <= i < |v.items| ==> r.value[i] == PyStr(v.items[i], repr)
  {
    if v.JArr? && |v.items| > 0 then Some(StrAll(v.items, repr)) else None
  }

  function StrAll(items: seq<Json>, repr: Json -> string): (r: seq<string>)
    ensures |r| == |items|
    ensures forall i :: 0 <= i < |items| ==> r[i] == PyStr(items[i], repr)
  {
    if items == [] then [] else [PyStr(items[0], repr)] + StrAll(items[1..], repr)
  }

  /** `str(payload.get("filename", "recording")).strip()`. */
  function RequestedName(payload: map<string, Json>, repr: Json -> string): string {
    Text.Strip(PyStr(GetOr(payload, "filename", JStr("recording")), repr))
  }

  /** `(not topics) or (topic in set(topics))`. */
  predicate Selected(topics: Option<seq<string>>, topic: string) {
    topics.None? || |topics.value| == 0 || topic in topics.value
  }

  class Session {
    var active: bool
    var paused: bool
    var topics: Option<seq<string>>
    var buffer: seq<Entry>
    var file: Option<string>
    var startedAt: Option<real>
    var count: int

    /** While a recording is active, the count is the number of buffered messages. */
    predicate Valid()
      reads this
    {
      active ==> count == |buffer|
    }

    /** The recording hook keeps a message on `topic`: recording, not paused, and the topic selected. */
    predicate Takes(topic: string)
      reads this
    {
      active && !paused && Selected(topics, topic)
    }

    constructor ()
      ensures Valid()
      ensures !active && !paused && topics == None && buffer == [] && file == None
      ensures startedAt == None && count == 0
    {
      active, paused, topics, buffer, file, startedAt, count := false, false, None, [], None, None, 0;
    }

    /**
     * `recording_start`: a fresh buffer, the sanitised file name and the
     * topic filter; a recording already running is discarded. The endpoint
     * passes the requested name, `RequestedName(payload, repr)`, as `name`.
     */
    method Start(name: string, payload: map<string, Json>, now: real, repr: Json -> string) returns (fileName: string)
      modifies this
      ensures Valid()
      ensures fileName == Sanitize.SanitizeFilename(name)
      ensures file == Some(fileName)
      ensures active && !paused && buffer == [] && count == 0 && startedAt == Some(now)
      ensures topics == TopicsOf(Get(payload, "topics"), repr)
    {
      topics := TopicsOf(Get(payload, "topics"), repr);
      buffer := [];
      startedAt := Some(now);
      count := 0;
      active := true;
      paused := false;
      fileName := Sanitize.SanitizeFilename(name);
      file := Some(fileName);
    }

    /** `recording_pause`: has an effect only while recording. */
    method Pause()
      modifies this
      requires Valid()
      ensures Valid()
      ensures paused == (old(paused) || active)
      ensures active == old(active) && buffer == old(buffer) && count == old(count)
      ensures topics == old(topics) && file == old(file) && startedAt == old(startedAt)
    {
      if active {
        paused := true;
      }
    }

    /** `recording_resume`: has an effect only while recording. */
    method Resume()
      modifies this
      requires Valid()
      ensures Valid()
      ensures paused == (old(paused) && !active)
      ensures active == old(active) && buffer == old(buffer) && count == old(count)
      ensures topics == old(topics) && file == old(file) && startedAt == old(startedAt)
    {
      if active {
        paused := false;
      }
    }

    /**
     * The recording hook of the message handler: while recording and not
     * paused, a message on a selected topic is buffered with its time and
     * its raw payload in base64, and counted.
     */
    method Offer(topic: string, raw: seq<byte>, now: real)
      modifies this
      requires Valid()
      ensures Valid()
      ensures var taken := old(Takes(topic));
        (taken ==> buffer == old(buffer) + [Entry(now, topic, Base64.Encode(raw))] && count == old(count) + 1) &&
        (!taken ==> buffer == old(buffer) && count == old(count))
      ensures active == old(active) && paused == old(paused)
      ensures topics == old(topics) && file == old(file) && startedAt == old(startedAt)
    {
      if active && !paused {
        if Selected(topics, topic) {
          buffer := buffer + [Entry(now, topic, Base64.Encode(raw))];
          count := count + 1;
        }
      }
    }

    /**
     * `recording_stop`. `written` says whether writing the file succeeded.
     * Inactive, it reports no file and no messages. Active, it always ends
     * the recording, empties the buffer and forgets the file, and reports
     * the number of buffered messages, or 0 when the write failed. The
     * paused flag and the running count are left as they were.
     */
    method Stop(written: bool) returns (stoppedFile: Option<string>, stoppedCount: int)
      modifies this
      requires Valid()
      ensures Valid()
      ensures !old(active) ==> stoppedFile == None && stoppedCount == 0
      ensures !old(active) ==> active == old(active) && buffer == old(buffer) && file == old(file)
      ensures old(active) ==> !active && buffer == [] && file == None && stoppedFile == old(file)
      ensures old(active) ==> stoppedCount == (if written then old(count) else 0)
      ensures paused == old(paused) && count == old(count)
      ensures topics == old(topics) && startedAt == old(startedAt)
    {
      if !active {
        return None, 0;
      }
      stoppedCount := if written then |buffer| else 0;
      active := false;
      buffer := [];
      stoppedFile := file;
      file := None;
    }
  }

  /** A request without a file name records to "recording.json". */
  lemma DefaultFileName(payload: map<string, Json>, repr: Json -> string)
    requires "filename" !in payload
    ensures RequestedName(payload, repr) == "recording"
    ensures Sanitize.SanitizeFilename(RequestedName(payload, repr)) == "recording.json"
  {
    DefaultValue(payload, repr);
    Sanitize.DefaultStripped(PyStr(GetOr(payload, "filename", JStr("recording")), repr), RequestedName(payload, repr));
    Sanitize.DefaultName(RequestedName(payload, repr));
  }

  lemma DefaultValue(payload: map<string, Json>, repr: Json -> string)
    requires "filename" !in payload
    ensures PyStr(GetOr(payload, "filename", JStr("recording")), repr) == "recording"
  {
  }

  /** Every buffered payload decodes back to the raw bytes of its message. */
  lemma EntryDecodes(raw: seq<byte>, topic: string, now: real)
    ensures Base64.Decode(Entry(now, topic, Base64.Encode(raw)).payload) == Some(raw)
  {
    Base64.RoundTrip(raw);
  }

  /** With no topic list, every topic is selected; with one, exactly the listed topics. */
  lemma SelectedSpec(topics: Option<seq<string>>, topic: string)
    ensures topics.None? ==> Selected(topics, topic)
    ensures topics.Some? && |topics.value| > 0 ==>
      (Selected(topics, topic) <==> exists i :: 0 <= i < |topics.value| && topics.value[i] == topic)
  {
  }

  /** An empty or absent topic list in a start request records every topic. */
  lemma EmptyTopicListRecordsAll(v: Json, repr: Json -> string, topic: string)
    requires !v.JArr? || v.items == []
    ensures Selected(TopicsOf(v, repr), topic)
  {
  }
}
