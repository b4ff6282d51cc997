// The replay session of the telemetry backend (hmi/backend/app/main.py):
// the replay_* endpoints and `_replay_runner`, the asyncio task that republishes a
// recording at its original pace. The runner is modelled as `Step`, one
// scheduling of the asyncio task: it runs from the await it was suspended at to the
// next await, or to its end.

module Replay {
  import opened Wrappers
  import opened Json
  import Base64
  import Recording
  import PyMath

  type byte = Base64.byte

  /** What opening and decoding the requested file gives. */
  datatype FileState = Missing | Unreadable(detail: string) | Loaded(messages: seq<Json>)

  datatype StartReply = Started | Refused(error: string)

  /**
   * Where the runner task stands: no task (never started, finished or
   * cancelled), created but not yet run, asleep at the top of its loop
   * (paused), or asleep in the wait for the target time of message `idx`;
   * `Running` is the asyncio task between two awaits, inside one step.
   */
  datatype Phase = Idle | Fresh | AtLoopHead | Waiting(target: real, tRel: real) | Running

  /** One message handed to the MQTT client. */
  datatype Publication = Publication(topic: string, payload: seq<byte>)

  /** `str(payload.get("filename", "")).strip()`. */
  function ReplayName(payload: map<string, Json>, repr: Json -> string): string {
    Text.Strip(PyStr(GetOr(payload, "filename", JStr("")), repr))
  }

  /** `float(msg.get("timestamp", 0.0))`; None where it raises, also for an element without `get`. */
  function TimestampOf(m: Json): Option<real> {
    if m.JObj? then ToFloat(GetOr(m.fields, "timestamp", JFloat(0.0))) else None
  }

  /**
   * The exception `float(msg.get("timestamp", 0.0))` raises when it fails:
   * AttributeError for an element without `get`, ValueError for text that
   * is no number, TypeError for None, a list or an object.
   */
  function TimestampError(m: Json): PyError {
    if !m.JObj? then AttributeError
    else if GetOr(m.fields, "timestamp", JFloat(0.0)).JStr? then ValueError
    else TypeError
  }

  /** `str(msg.get("topic"))`. */
  function TopicOf(m: Json, repr: Json -> string): string
    requires m.JObj?
  {
    PyStr(Get(m.fields, "topic"), repr)
  }

  /** `base64.b64decode(str(msg.get("payload", "")))`; None where it raises. */
  function PayloadOf(m: Json, repr: Json -> string): Option<seq<byte>>
    requires m.JObj?
  {
    Base64.Decode(PyStr(GetOr(m.fields, "payload", JStr("")), repr))
  }

  /** What the runner publishes for one message it reaches. */
  function DeliveryOf(m: Json, topics: Option<seq<string>>, repr: Json -> string): (r: seq<Publication>)
    ensures |r| <= 1
    ensures |r| == 1 <==>
      (m.JObj? && Recording.Selected(topics, TopicOf(m, repr)) && PayloadOf(m, repr).Some?)
    ensures |r| == 1 ==> r[0] == Publication(TopicOf(m, repr), PayloadOf(m, repr).value)
  {
    if m.JObj? && Recording.Selected(topics, TopicOf(m, repr)) && PayloadOf(m, repr).Some? then
      [Publication(TopicOf(m, repr), PayloadOf(m, repr).value)]
    else []
  }

  /** What the runner publishes for the messages it has gone past, in list order. */
  function Delivered(ms: seq<Json>, n: nat, topics: Option<seq<string>>, repr: Json -> string): (r: seq<Publication>)
    requires n <= |ms|
    ensures |r| <= n
  {
    if n == 0 then []
    else Delivered(ms, n - 1, topics, repr) + DeliveryOf(ms[n - 1], topics, repr)
  }

  /** `REPLAY_START_MONO or time.monotonic()`: an unset or zero start falls back to the clock. */
  function StartOr(startMono: Option<real>, now: real): real {
    if startMono.Some? && startMono.value != 0.0 then startMono.value else now
  }

  /** `float(REPLAY_BASE_TS or 0.0)`. */
  function BaseOr(baseTs: Option<real>): real {
    if baseTs.Some? then baseTs.value else 0.0
  }

  /** The time at which a message of offset `tRel` is due. */
  function TargetOf(startMono: Option<real>, now: real, tRel: real): real {
    StartOr(startMono, now) + PyMath.Max(0.0, tRel)
  }

  /** Message `m` is due at `now` under the given start and base. */
  predicate Due(m: Json, startMono: Option<real>, baseTs: Option<real>, now: real) {
    TimestampOf(m).Some? && TargetOf(startMono, now, TimestampOf(m).value - BaseOr(baseTs)) <= now
  }

  /** Every message of `ms` from index `lo` up to, not including, `hi` is due. */
  predicate AllDue(ms: seq<Json>, lo: nat, hi: nat, startMono: Option<real>, baseTs: Option<real>, now: real)
    requires lo <= hi <= |ms|
    decreases hi - lo
  {
    lo == hi || (AllDue(ms, lo, hi - 1, startMono, baseTs, now) && Due(ms[hi - 1], startMono, baseTs, now))
  }

  lemma {:induction false} AllDueEach(ms: seq<Json>, lo: nat, hi: nat, startMono: Option<real>, baseTs: Option<real>, now: real)
    requires lo <= hi <= |ms| && AllDue(ms, lo, hi, startMono, baseTs, now)
    ensures forall k :: lo <= k < hi ==> Due(ms[k], startMono, baseTs, now)
    decreases hi - lo
  {
    if lo < hi {
      var last := ms[hi - 1];
      assert AllDue(ms, lo, hi - 1, startMono, baseTs, now) && Due(last, startMono, baseTs, now);
      AllDueEach(ms, lo, hi - 1, startMono, baseTs, now);
      forall k | lo <= k < hi
        ensures Due(ms[k], startMono, baseTs, now)
      {
        if k == hi - 1 {
          assert ms[k] == last;
        }
      }
    }
  }

  lemma {:induction false} EachAllDue(ms: seq<Json>, lo: nat, hi: nat, startMono: Option<real>, baseTs: Option<real>, now: real)
    requires lo <= hi <= |ms| && forall k :: lo <= k < hi ==> Due(ms[k], startMono, baseTs, now)
    ensures AllDue(ms, lo, hi, startMono, baseTs, now)
    decreases hi - lo
  {
    if lo < hi {
      assert forall k :: lo <= k < hi - 1 ==> Due(ms[k], startMono, baseTs, now);
      EachAllDue(ms, lo, hi - 1, startMono, baseTs, now);
      assert Due(ms[hi - 1], startMono, baseTs, now);
    }
  }

  /** `AllDue` is the range quantifier it stands for. */
  lemma AllDueMeans(ms: seq<Json>, lo: nat, hi: nat, startMono: Option<real>, baseTs: Option<real>, now: real)
    requires lo <= hi <= |ms|
    ensures AllDue(ms, lo, hi, startMono, baseTs, now) <==> forall k :: lo <= k < hi ==> Due(ms[k], startMono, baseTs, now)
  {
    if AllDue(ms, lo, hi, startMono, baseTs, now) {
      AllDueEach(ms, lo, hi, startMono, baseTs, now);
    }
    if forall k :: lo <= k < hi ==> Due(ms[k], startMono, baseTs, now) {
      EachAllDue(ms, lo, hi, startMono, baseTs, now);
    }
  }

  class ReplaySession {
    var active: bool
    var paused: bool
    var topics: Option<seq<string>>
    var file: Option<string>
    var messages: seq<Json>
    var count: int
    var idx: int
    var startMono: Option<real>
    var baseTs: Option<real>
    var phase: Phase
    /** A cancelled runner that still has to run its `finally`, which clears `active`. */
    var pendingCancel: bool
    /** The messages handed to the MQTT client by the current replay. */
    var sent: seq<Publication>
    /** Python's `str()` of a value that is not a string. */
    const repr: Json -> string

    /**
     * The count is the number of published messages; the cursor never
     * passes the end of the list; what was published is exactly the
     * selected, decodable messages before the cursor, in list order; a task
     * not yet run has its cursor at the start; a task waiting for a message
     * has that message, and it is an object.
     */
    predicate Valid()
      reads this
    {
      Consistent() && phase != Running
    }

    /** The invariant of the session, which also holds while the runner is between two awaits. */
    predicate Consistent()
      reads this
    {
      0 <= idx <= |messages| && count == |sent| &&
      sent == Delivered(messages, idx, topics, repr) &&
      (phase == Fresh ==> idx == 0) &&
      (phase.Waiting? ==> idx < |messages| && messages[idx].JObj?)
    }

    /** Where the runner stands once a scheduling at time `now` is over. */
    predicate Suspended(now: real)
      reads this
    {
      (phase == Idle <==> !active) && phase != Fresh && phase != Running &&
      (phase == AtLoopHead ==> paused) && (phase.Waiting? ==> !paused && now < phase.target)
    }

    constructor (repr: Json -> string)
      ensures Valid()
      ensures !active && !paused && topics == None && file == None && messages == []
      ensures count == 0 && idx == 0 && startMono == None && baseTs == None
      ensures phase == Idle && !pendingCancel && sent == [] && this.repr == repr
    {
      active, paused, topics, file, messages := false, false, None, None, [];
      count, idx, startMono, baseTs := 0, 0, None, None;
      phase, pendingCancel, sent := Idle, false, [];
      this.repr := repr;
    }

    /**
     * `replay_start`. The endpoint passes the requested name,
     * `ReplayName(payload, repr)`, as `name`; `load` gives what opening a
     * file of the recordings directory yields. An empty name, a missing file or an
     * unreadable one is refused with the endpoint's error text and changes
     * nothing. Otherwise the messages are loaded, the counters reset, the
     * session made active and a fresh runner created; a runner that was
     * suspended is cancelled, and its `finally` is still to run.
     */
    method Start(name: string, payload: map<string, Json>, load: string -> FileState) returns (reply: StartReply)
      requires Valid()
      modifies this
      ensures Valid()
      ensures (name == [] ==> reply == Refused("filename required")) &&
        (name != [] && load(name).Missing? ==> reply == Refused("file not found")) &&
        (name != [] && load(name).Unreadable? ==> reply == Refused("failed to read file: " + load(name).detail)) &&
        (reply.Started? <==> name != [] && load(name).Loaded?)
      ensures reply.Refused? ==> unchanged(this)
      ensures reply.Started? ==>
        messages == load(name).messages && file == Some(name) &&
        topics == Recording.TopicsOf(Get(payload, "topics"), repr) &&
        count == 0 && idx == 0 && sent == [] && active && !paused && phase == Fresh &&
        pendingCancel == (old(pendingCancel) || old(phase) == AtLoopHead || old(phase).Waiting?) &&
        startMono == old(startMono) && baseTs == old(baseTs)
    {
      if name == [] {
        return Refused("filename required");
      }
      var state := load(name);
      if state.Missing? {
        return Refused("file not found");
      }
      if state.Unreadable? {
        return Refused("failed to read file: " + state.detail);
      }
      Load(name, state.messages, Recording.TopicsOf(Get(payload, "topics"), repr));
      reply := Started;
    }

    /** The part of `replay_start` after the file was read: load it, reset, and create a fresh runner. */
    method Load(name: string, ms: seq<Json>, topics: Option<seq<string>>)
      modifies this
      ensures Valid()
      ensures messages == ms && file == Some(name) && this.topics == topics
      ensures count == 0 && idx == 0 && sent == [] && active && !paused && phase == Fresh
      ensures pendingCancel == (old(pendingCancel) || old(phase) == AtLoopHead || old(phase).Waiting?)
      ensures startMono == old(startMono) && baseTs == old(baseTs)
    {
      pendingCancel := pendingCancel || phase == AtLoopHead || phase.Waiting?;
      messages, file, this.topics, phase := ms, Some(name), topics, Fresh;
      count, idx, sent, active, paused := 0, 0, [], true, false;
    }

    /** `replay_pause`: has an effect only while active. */
    method Pause()
      requires Valid()
      modifies this
      ensures Valid()
      ensures paused == (old(paused) || active) && active == old(active)
      ensures messages == old(messages) && idx == old(idx) && count == old(count) && sent == old(sent)
      ensures phase == old(phase) && startMono == old(startMono) && baseTs == old(baseTs)
      ensures topics == old(topics) && file == old(file) && pendingCancel == old(pendingCancel)
    {
      if active {
        paused := true;
      }
    }

    /**
     * `replay_resume` at time `now`: while active, unpause and rebase the
     * start so that the message at the cursor is due now; reading that
     * message's timestamp can raise, after the pause is already cleared.
     */
    method Resume(now: real) returns (out: Outcome)
      requires Valid()
      modifies this
      ensures Valid()
      ensures active == old(active) && paused == (old(paused) && !active)
      ensures active && idx < |messages| && TimestampOf(messages[idx]).Some? ==>
        out == Pass && startMono == Some(now - (TimestampOf(messages[idx]).value - BaseOr(baseTs)))
      ensures out.Fail? <==> active && idx < |messages| && TimestampOf(messages[idx]).None?
      ensures out.Fail? ==> out.error == TimestampError(messages[idx])
      ensures !(active && idx < |messages| && TimestampOf(messages[idx]).Some?) ==> startMono == old(startMono)
      ensures messages == old(messages) && idx == old(idx) && count == old(count) && sent == old(sent)
      ensures phase == old(phase) && baseTs == old(baseTs)
      ensures topics == old(topics) && file == old(file) && pendingCancel == old(pendingCancel)
    {
      out := Pass;
      if active {
        paused := false;
        if idx < |messages| {
          var cur := TimestampOf(messages[idx]);
          if cur.None? {
            return Fail(TimestampError(messages[idx]));
          }
          startMono := Some(now - (cur.value - BaseOr(baseTs)));
        }
      }
    }

    /** `replay_stop`: the session becomes inactive and the runner, if any, is cancelled. */
    method Stop()
      requires Valid()
      modifies this
      ensures Valid()
      ensures !active && phase == Idle
      ensures paused == old(paused) && messages == old(messages) && idx == old(idx)
      ensures count == old(count) && sent == old(sent)
      ensures startMono == old(startMono) && baseTs == old(baseTs)
      ensures topics == old(topics) && file == old(file) && pendingCancel == old(pendingCancel)
    {
      active := false;
      phase := Idle;
    }

    /**
     * One scheduling of the runner task at time `now`. A cancelled runner's
     * `finally` runs first. The runner then runs to its next await: it stays
     * asleep at the top of its loop while paused, waits while the message
     * at the cursor is not yet due, publishes each selected message it goes
     * past, and on leaving its loop, by the end of the list, a stop or an
     * error, always clears `active`.
     */
    method Step(now: real)
      requires Valid()
      modifies this
      ensures Valid()
      ensures messages == old(messages) && topics == old(topics) && file == old(file)
      ensures paused == old(paused) && !pendingCancel
      ensures old(phase) == Idle ==>
        phase == Idle && idx == old(idx) && sent == old(sent) && active == (old(active) && !old(pendingCancel))
      // The runner always leaves `active` false when it ends.
      ensures old(phase) != Idle && phase == Idle ==> !active
      // An empty recording ends the runner at once.
      ensures old(phase) == Fresh && messages == [] ==> phase == Idle && !active && startMono == Some(now)
      // It only suspends while active: paused at the loop head, or waiting for a message not yet due.
      ensures phase != Idle ==> active && phase != Fresh && phase != Running
      ensures phase == AtLoopHead ==> paused
      ensures phase.Waiting? ==> !paused && now < phase.target
      // The cursor only moves forward, and nothing is published while paused.
      ensures old(phase) != Fresh ==> old(idx) <= idx
      ensures old(paused) ==> idx == old(idx) && sent == old(sent)
      // Every message it went past was due.
      ensures old(phase).Waiting? && idx > old(idx) ==> old(phase).target <= now
      ensures var first := if old(phase).Waiting? then old(idx) + 1 else old(idx);
        forall k :: first <= k < idx ==> Due(messages[k], startMono, baseTs, now)
    {
      if pendingCancel {
        active := false;
        pendingCancel := false;
      }
      ghost var first := if phase.Waiting? then idx + 1 else idx;
      match phase {
        case Idle =>
        case Fresh =>
          Begin(now);
        case AtLoopHead =>
          RunFrom(now, None);
        case Waiting(target, tRel) =>
          RunFrom(now, Some((target, tRel)));
      }
      if first < idx {
        AllDueMeans(messages, first, idx, startMono, baseTs, now);
      }
    }

    /**
     * The first scheduling of a fresh runner: the start is now and the base
     * is the first message's timestamp; an empty list or an unreadable first
     * timestamp ends it at once, otherwise it enters its loop.
     */
    method Begin(now: real)
      requires Consistent() && !pendingCancel && phase == Fresh
      modifies this
      ensures Valid()
      ensures messages == old(messages) && topics == old(topics) && file == old(file)
      ensures paused == old(paused) && !pendingCancel
      ensures phase == Idle ==> !active
      ensures phase != Idle ==> active && phase != Fresh && phase != Running
      ensures phase == AtLoopHead ==> paused
      ensures phase.Waiting? ==> !paused && now < phase.target
      ensures messages == [] ==> phase == Idle && !active && startMono == Some(now)
      ensures old(paused) ==> idx == 0 && sent == []
      ensures !old(paused) ==> startMono == Some(now)
      ensures AllDue(messages, 0, idx, Some(now), baseTs, now)
    {
      startMono := Some(now);
      if messages == [] {
        active := false;
        phase := Idle;
        return;
      }
      var b := TimestampOf(messages[0]);
      if b.None? {
        active := false;
        phase := Idle;
        return;
      }
      baseTs := Some(b.value);
      idx := 0;
      RunFrom(now, None);
    }

    /**
     * The loop of the runner, entered at its condition, or inside the wait
     * for message `idx` when `waiting` holds that message's target and offset.
     */
    method RunFrom(now: real, waiting: Option<(real, real)>)
      requires Consistent() && !pendingCancel
      requires waiting.Some? ==> idx < |messages| && messages[idx].JObj?
      modifies this
      ensures Valid() && Suspended(now)
      ensures messages == old(messages) && topics == old(topics) && file == old(file)
      ensures paused == old(paused) && !pendingCancel && baseTs == old(baseTs)
      ensures old(idx) <= idx
      ensures old(paused) ==> idx == old(idx) && sent == old(sent)
      ensures !old(paused) ==> startMono == old(startMono)
      ensures waiting.Some? && idx > old(idx) ==> waiting.value.0 <= now
      ensures waiting.None? ==> AllDue(messages, old(idx), idx, old(startMono), baseTs, now)
      ensures waiting.Some? && idx > old(idx) ==> AllDue(messages, old(idx) + 1, idx, old(startMono), baseTs, now)
    {
      phase := Running;
      if waiting.Some? {
        var stop := AfterWait(now, waiting.value.0, waiting.value.1);
        if stop {
          return;
        }
      }
      Loop(now);
    }

    /** The loop of the runner from its condition, with the asyncio task running. */
    method Loop(now: real)
      requires Consistent() && !pendingCancel && phase == Running
      modifies this
      ensures Valid() && Suspended(now)
      ensures messages == old(messages) && topics == old(topics) && file == old(file)
      ensures paused == old(paused) && !pendingCancel && baseTs == old(baseTs) && startMono == old(startMono)
      ensures old(idx) <= idx
      ensures old(paused) ==> idx == old(idx) && sent == old(sent)
      ensures AllDue(messages, old(idx), idx, startMono, baseTs, now)
    {
      ghost var ms, sm, bt, i1 := messages, startMono, baseTs, idx;
      while active && idx < |messages|
        invariant Consistent() && !pendingCancel && phase == Running
        invariant messages == ms && topics == old(topics) && file == old(file)
        invariant paused == old(paused) && startMono == sm && baseTs == bt
        invariant i1 <= idx
        invariant old(paused) ==> idx == i1 && sent == old(sent)
        invariant AllDue(ms, i1, idx, sm, bt, now)
        decreases |messages| - idx
      {
        ghost var i0 := idx;
        var stop := Turn(now);
        if stop {
          return;
        }
        assert Due(ms[i0], sm, bt, now);
        assert AllDue(ms, i1, idx, sm, bt, now);
      }
      active := false;
      phase := Idle;
    }

    /**
     * One turn of the runner's loop from its condition: `stop` when the asyncio task
     * suspends or ends, otherwise the message at the cursor was due and has
     * been gone past.
     */
    method Turn(now: real) returns (stop: bool)
      requires Consistent() && !pendingCancel && phase == Running
      requires active && idx < |messages|
      modifies this
      ensures Consistent() && !pendingCancel
      ensures messages == old(messages) && topics == old(topics) && file == old(file)
      ensures paused == old(paused) && baseTs == old(baseTs) && startMono == old(startMono)
      ensures old(paused) ==> stop
      ensures !stop ==> phase == Running && idx == old(idx) + 1 && active
      ensures !stop ==> Due(messages[old(idx)], startMono, baseTs, now)
      ensures stop ==> idx == old(idx) && sent == old(sent) && Suspended(now)
    {
      if paused {
        phase := AtLoopHead;
        return true;
      }
      var ts := TimestampOf(messages[idx]);
      if ts.None? {
        active := false;
        phase := Idle;
        return true;
      }
      var tRel := ts.value - BaseOr(baseTs);
      stop := AfterWait(now, TargetOf(startMono, now, tRel), tRel);
    }

    /**
     * The rest of a turn once the wait for the message at the cursor, of
     * target `target` and offset `tRel`, is entered: the asyncio task sleeps while
     * the target is ahead, leaves its loop once inactive, rebases the start
     * and suspends when paused, and otherwise goes past the message.
     */
    method AfterWait(now: real, target: real, tRel: real) returns (stop: bool)
      requires Consistent() && !pendingCancel && phase == Running
      requires idx < |messages| && messages[idx].JObj?
      modifies this
      ensures Consistent() && !pendingCancel
      ensures messages == old(messages) && topics == old(topics) && file == old(file)
      ensures paused == old(paused) && baseTs == old(baseTs)
      ensures !stop ==> phase == Running && idx == old(idx) + 1 && startMono == old(startMono) && active
      ensures !stop ==> !paused && target <= now
      ensures stop ==> idx == old(idx) && sent == old(sent) && Suspended(now)
      ensures !old(paused) ==> startMono == old(startMono)
    {
      if !paused && now < target && active {
        phase := Waiting(target, tRel);
        return true;
      }
      if !active {
        phase := Idle;
        return true;
      }
      if paused {
        startMono := Some(now - PyMath.Max(0.0, tRel));
        phase := AtLoopHead;
        return true;
      }
      Publish(now);
      stop := false;
    }

    /**
     * Go past the message at the cursor, publishing it when it is selected
     * and its payload decodes; a payload that does not decode is skipped
     * without counting it.
     */
    method Publish(now: real)
      requires Consistent() && phase == Running && idx < |messages| && messages[idx].JObj?
      modifies this
      ensures Consistent()
      ensures idx == old(idx) + 1
      ensures sent == old(sent) + DeliveryOf(messages[old(idx)], topics, repr)
      ensures active == old(active) && paused == old(paused) && messages == old(messages)
      ensures topics == old(topics) && file == old(file) && phase == old(phase)
      ensures startMono == old(startMono) && baseTs == old(baseTs) && pendingCancel == old(pendingCancel)
    {
      var d := DeliveryOf(messages[idx], topics, repr);
      sent, count, idx := sent + d, count + |d|, idx + 1;
    }
  }

}
